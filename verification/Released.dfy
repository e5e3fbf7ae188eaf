/**
 Letting one approval go. A state in which every running forget has been made to drop its claim on
 one approval simulates the state itself, as long as nothing that approval can still write would
 need its row: so reviving the approval's row under a running forget then does no harm.
 */
module Released {
  import opened Basics
  import opened AuditChain
  import opened Queue
  import opened QueueLaws
  import opened Protocol
  import opened ProtocolFrames
  import opened Invariants
  import opened Orphans

  // ---------------------------------------------------------------- approvals that can still pass

  /**
   The queue's transactions and appends to the log can still bring this row to where it passes the
   gates: provenance and receipt can be stamped once, and the log only grows.
   */
  ghost predicate Redeemable(cfg: Config, a: nat, row: QRow, audit: seq<Row>) {
    exists row', es :: RowEvolves(row, row') && Accepted(cfg, a, row', AppendAll(cfg.hasher, audit, es))
  }

  lemma {:induction false} AppendAllConcat(h: Hasher, audit: seq<Row>, first: seq<Entry>, second: seq<Entry>)
    ensures AppendAll(h, AppendAll(h, audit, first), second) == AppendAll(h, audit, first + second)
    decreases |first|
  {
    if first == [] {
      assert first + second == second;
    } else {
      AppendAllConcat(h, Append(h, audit, first[0]), first[1..], second);
      assert (first + second)[0] == first[0] && (first + second)[1..] == first[1..] + second;
    }
  }

  /** What cannot be redeemed never will be. */
  lemma RedeemableBefore(cfg: Config, a: nat, row: QRow, row': QRow, audit: seq<Row>, es: seq<Entry>)
    requires RowEvolves(row, row') && Redeemable(cfg, a, row', AppendAll(cfg.hasher, audit, es))
    ensures Redeemable(cfg, a, row, audit)
  {
    hide Accepted;
    var later, more :| RowEvolves(row', later)
                       && Accepted(cfg, a, later, AppendAll(cfg.hasher, AppendAll(cfg.hasher, audit, es), more));
    AppendAllConcat(cfg.hasher, audit, es, more);
    assert RowEvolves(row, later);
  }

  /**
   Approval `a` leaves nothing behind that would need its row: no payload can be built from its
   bytes, or its store id is awaiting cleanup anyway, or its row can never pass the gates.
   */
  ghost predicate Spent(cfg: Config, s: State, a: nat) {
    && a in s.cands
    && (|| cfg.contentHash(s.cands[a]).None?
        || cfg.contentHash(s.cands[a]).value in s.pending
        || (a in s.db.rows ==> !Redeemable(cfg, a, s.db.rows[a], s.audit)))
  }

  lemma SpentStep(cfg: Config, s: State, step: Step, a: nat)
    requires IdsInv(s) && Spent(cfg, s, a) && !step.HandEdit?
    ensures Spent(cfg, Apply(cfg, s, step), a)
  {
    hide Apply, Sound, Redeemable;
    var s' := Apply(cfg, s, step);
    CandStays(cfg, s, step, a);
    Monotone(cfg, s, step);
    RowPersists(cfg, s, step, a);
    if a in s.db.rows && a in s'.db.rows && Redeemable(cfg, a, s'.db.rows[a], s'.audit) {
      var es := LogSuffix(cfg, s, step);
      RedeemableBefore(cfg, a, s.db.rows[a], s'.db.rows[a], s.audit, es);
    }
  }

  lemma CandStays(cfg: Config, s: State, step: Step, a: nat)
    requires IdsInv(s) && a in s.cands
    ensures var s' := Apply(cfg, s, step); a in s'.cands && s'.cands[a] == s.cands[a]
  {
    if !step.Enqueue? {
      hide Apply;
      QuietHistory(cfg, s, step);
    }
  }

  /** Every active row it wrote is awaiting cleanup, if its own row is still there. */
  lemma SpentMarks(cfg: Config, s: State, a: nat, id: string)
    requires CoreInv(cfg, s) && AcceptInv(cfg, s) && Spent(cfg, s, a) && a in s.db.rows
    requires id in s.store && s.store[id].mark.Some? && s.store[id].mark.value.aid == a
    ensures id in s.pending
  {
    hide Accepted, RowInv, WorkerInv, IdsInv, Linked;
    assert MarkOk(cfg, s, id, s.store[id].mark.value);
    var w :| w in s.workers && s.workers[w].aid == a;
    assert AppendAll(cfg.hasher, s.audit, []) == s.audit;
    assert RowEvolves(s.db.rows[a], s.db.rows[a]);
  }

  // ---------------------------------------------------------------- the claim let go

  function LetGo(f: Forget, a: nat): Forget {
    f.(claimed := f.claimed - {a}, swept := f.swept - {a})
  }

  /** The same state, where no forget has claimed approval `a`. */
  function Without(s: State, a: nat): State {
    s.(forgets := map p | p in s.forgets :: LetGo(s.forgets[p], a))
  }

  lemma LetGoTwice(s: State, a: nat)
    ensures Without(Without(s, a), a) == Without(s, a)
  {
    forall p | p in s.forgets ensures LetGo(LetGo(s.forgets[p], a), a) == LetGo(s.forgets[p], a) {
    }
  }

  lemma CoverWithout(s: State, a: nat, aid: nat, id: string)
    ensures Unswept(s, aid, id) ==> Unswept(Without(s, a), aid, id)
    ensures Attended(Without(s, a), aid, id) <==> Attended(s, aid, id)
  {
    AttendedAlike(s, Without(s, a), aid, id);
  }

  lemma CoreReadsNoForget(cfg: Config, s: State, g: map<nat, Forget>)
    requires CoreInv(cfg, s)
    ensures CoreInv(cfg, s.(forgets := g))
  {
    hide Sound, RowOk;
    forall wid | wid in s.workers ensures WorkerOk(cfg, s.(forgets := g), wid) {
      assert WorkerOk(cfg, s, wid);
    }
  }

  /** Claims let go leave the invariant as it was: less is claimed, so more is answered for. */
  lemma WithoutIsSafe(cfg: Config, s: State, a: nat)
    requires SafeInv(cfg, s)
    ensures SafeInv(cfg, Without(s, a))
  {
    var s' := Without(s, a);
    CoreReadsNoForget(cfg, s, s'.forgets);
    hide CoreInv, Unswept, Attended, RowAbout;
    forall p | Sweeping(s', p) ensures ForgetOk(cfg, s', s'.forgets[p]) {
      assert Sweeping(s, p) && ForgetOk(cfg, s, s.forgets[p]);
    }
    forall id | id in s'.store && s'.store[id].active && s'.store[id].mark.Some?
      ensures Covered(s', s'.store[id].mark.value.aid, id)
    {
      CoverWithout(s, a, s.store[id].mark.value.aid, id);
      assert Covered(s, s.store[id].mark.value.aid, id);
    }
  }

  // ---------------------------------------------------------------- steps that read no forget

  lemma ClaimReadsNoForget(cfg: Config, s: State, g: map<nat, Forget>, wid: string, aid: nat, t0: int, readable: bool)
    ensures GateStep(cfg, s.(forgets := g), wid, aid, t0, readable) ==
            GateStep(cfg, s, wid, aid, t0, readable).(forgets := g)
  {
    hide GateDecision, GateEffect, Author;
  }

  lemma CheckReadsNoForget(cfg: Config, s: State, g: map<nat, Forget>, wid: string, built: bool)
    ensures CheckStep(cfg, s.(forgets := g), wid, built) == CheckStep(cfg, s, wid, built).(forgets := g)
    ensures SendStep(cfg, s.(forgets := g), wid) == SendStep(cfg, s, wid).(forgets := g)
  {
  }

  lemma WriteReadsNoForget(cfg: Config, s: State, g: map<nat, Forget>, wid: string, fate: Fate)
    ensures WriteStep(cfg, s.(forgets := g), wid, fate) == WriteStep(cfg, s, wid, fate).(forgets := g)
  {
  }

  lemma LookupReadsNoForget(s: State, g: map<nat, Forget>, wid: string, readable: bool, giveUp: bool)
    ensures FindMarkerStep(s.(forgets := g), wid, readable, giveUp) ==
            FindMarkerStep(s, wid, readable, giveUp).(forgets := g)
  {
    if wid in s.workers {
      assert MarkerHits(s.(forgets := g), s.workers[wid].aid) == MarkerHits(s, s.workers[wid].aid);
    }
  }

  lemma RecordReadsNoForget(s: State, g: map<nat, Forget>, wid: string)
    ensures RecordStep(s.(forgets := g), wid) == RecordStep(s, wid).(forgets := g)
  {
    hide RecordTx;
    if wid in s.workers && s.workers[wid].phase.Wrote? {
      var w := s.workers[wid];
      var (_, outcome) := RecordTx(s.db, w.aid, wid, w.phase.id, w.event);
      match outcome {
        case Here =>
        case Elsewhere(_) =>
        case Lost =>
      }
    }
  }

  lemma FailReadsNoForget(s: State, g: map<nat, Forget>, wid: string)
    ensures FailStep(s.(forgets := g), wid) == FailStep(s, wid).(forgets := g)
  {
    hide FailTx;
  }

  lemma CleanupReadsNoForget(s: State, g: map<nat, Forget>, wid: string, deleted: bool)
    ensures CleanupStep(s.(forgets := g), wid, deleted) == CleanupStep(s, wid, deleted).(forgets := g)
  {
  }

  lemma WorkersReadNoForget(cfg: Config, s: State, g: map<nat, Forget>, step: Step)
    requires WorkerStep(step)
    ensures WorkerApply(cfg, s.(forgets := g), step) == WorkerApply(cfg, s, step).(forgets := g)
  {
    hide CheckStep, CleanupStep, FailStep, FindMarkerStep, GateStep, RecordStep, SendStep, WriteStep;
    match step {
      case Gate(wid, aid, t0, readable) => ClaimReadsNoForget(cfg, s, g, wid, aid, t0, readable);
      case Check(wid, built) => CheckReadsNoForget(cfg, s, g, wid, built);
      case Send(wid) => CheckReadsNoForget(cfg, s, g, wid, true);
      case Write(wid, fate) => WriteReadsNoForget(cfg, s, g, wid, fate);
      case FindMarker(wid, readable, giveUp) => LookupReadsNoForget(s, g, wid, readable, giveUp);
      case Fail(wid) => FailReadsNoForget(s, g, wid);
      case Record(wid) => RecordReadsNoForget(s, g, wid);
      case Cleanup(wid, deleted) => CleanupReadsNoForget(s, g, wid, deleted);
      case Crash(_) =>
    }
  }

  lemma QueueReadsNoForget(cfg: Config, s: State, g: map<nat, Forget>, step: Step)
    requires step.Enqueue? || step.Approve? || step.SetStatus? || step.Defer? || step.Resurface? || step.Backfill?
    ensures TableApply(cfg, s.(forgets := g), step) == TableApply(cfg, s, step).(forgets := g)
  {
    hide Append, ApproveTx, BackfillTx, DeferTx, EnqueueTx, LandStep, ResurfaceTx, SetStatusTx;
  }

  lemma StoreReadsNoForget(cfg: Config, s: State, g: map<nat, Forget>, step: Step)
    requires step.StoreAdd? || step.StoreRetire? || step.StoreDelete? || step.Land?
    ensures TableApply(cfg, s.(forgets := g), step) == TableApply(cfg, s, step).(forgets := g)
  {
    hide Append, ApproveStep, BackfillTx, DeferTx, EnqueueStep, ResurfaceTx, SetStatusTx;
    match step {
      case StoreAdd(_) =>
      case StoreRetire(_) =>
      case StoreDelete(_) =>
      case Land(_) =>
    }
  }

  lemma TablesReadNoForget(cfg: Config, s: State, g: map<nat, Forget>, step: Step)
    requires !WorkerStep(step) && !ForgetStep(step)
    ensures TableApply(cfg, s.(forgets := g), step) == TableApply(cfg, s, step).(forgets := g)
  {
    if step.Tick? || step.Log? || step.HandEdit? {
      hide Append, LandStep;
    } else if step.StoreAdd? || step.StoreRetire? || step.StoreDelete? || step.Land? {
      hide TableApply;
      StoreReadsNoForget(cfg, s, g, step);
    } else {
      hide TableApply;
      QueueReadsNoForget(cfg, s, g, step);
    }
  }

  /** A step that is no forget's does the same whatever forgets are running. */
  lemma OthersReadNoForget(cfg: Config, s: State, g: map<nat, Forget>, step: Step)
    requires !ForgetStep(step)
    ensures Apply(cfg, s.(forgets := g), step) == Apply(cfg, s, step).(forgets := g)
  {
    hide WorkerApply, ForgetApply, TableApply;
    if WorkerStep(step) {
      WorkersReadNoForget(cfg, s, g, step);
    } else {
      TablesReadNoForget(cfg, s, g, step);
    }
  }

  lemma OthersStayCareful(cfg: Config, s: State, step: Step, a: nat)
    requires !ForgetStep(step) && Careful(cfg, s, step)
    ensures Careful(cfg, Without(s, a), step)
  {
    var s' := Without(s, a);
    hide Unswept, GateDecision;
    match step {
      case Write(wid, fate) =>
        if fate == RaisesAfterLanding && WriteLands(cfg, s, step) {
          OthersAnswerWithout(s, a, wid, s.workers[wid].aid, cfg.contentHash(s.workers[wid].cand).value);
        }
      case Crash(wid) =>
        if HoldsRow(s, wid) {
          OthersAnswerWithout(s, a, wid, s.workers[wid].aid, s.workers[wid].phase.id);
        }
      case Land(post) => CoverWithout(s, a, post.mark.aid, post.id);
      case _ =>
    }
  }

  lemma OthersAnswerWithout(s: State, a: nat, wid: string, aid: nat, id: string)
    requires OthersAnswer(s, wid, aid, id)
    ensures OthersAnswer(Without(s, a), wid, aid, id)
  {
    CoverWithout(s, a, aid, id);
    hide Unswept;
    if w :| w != wid && InFlight(s, w, aid, id) {
      assert InFlight(Without(s, a), w, aid, id);
    }
  }

  /** So the state without the claim takes the same step. */
  lemma OtherStepWithout(cfg: Config, s: State, step: Step, a: nat)
    requires SafeInv(cfg, Without(s, a)) && !ForgetStep(step) && Careful(cfg, s, step)
    ensures SafeInv(cfg, Without(Apply(cfg, s, step), a))
  {
    OthersStayCareful(cfg, s, step, a);
    OthersReadNoForget(cfg, s, Without(s, a).forgets, step);
    QuietForgets(cfg, s, step);
    hide SafeInv, Careful, Apply;
    SafeStep(cfg, Without(s, a), step);
    assert Without(Apply(cfg, s, step), a) == Apply(cfg, Without(s, a), step);
  }

  // ---------------------------------------------------------------- a forget's own steps

  /** One forget of the state has become `f`. */
  lemma WithoutOne(s: State, p: nat, f: Forget, a: nat)
    ensures Without(s.(forgets := s.forgets[p := f]), a) ==
            Without(s, a).(forgets := Without(s, a).forgets[p := LetGo(f, a)])
    ensures Without(Without(s, a).(forgets := Without(s, a).forgets[p := f]), a) ==
            Without(s, a).(forgets := Without(s, a).forgets[p := LetGo(f, a)])
  {
    LetGoTwice(s, a);
  }

  /** Steps a forget takes with or without the claim: the states after them agree, once the claim is let go. */
  lemma ClaimWithout(cfg: Config, s: State, p: nat, drawer: string, t0: int, a: nat)
    ensures var step := Step.ForgetClaim(p, drawer, t0);
            Without(Apply(cfg, s, step), a) == Without(Apply(cfg, Without(s, a), step), a)
  {
    hide ForgetClaimTx;
    LetGoTwice(s, a);
    if p !in s.forgets && t0 <= s.now && ForgetClaimTx(cfg, s.db, drawer, t0).Some? {
      WithoutOne(s, p, Forget(drawer, ForgetClaimTx(cfg, s.db, drawer, t0).value.1, {}, None, true), a);
    }
  }

  lemma DeleteWithout(cfg: Config, s: State, p: nat, a: nat)
    ensures Without(Apply(cfg, s, SweepDelete(p)), a) == Without(Apply(cfg, Without(s, a), SweepDelete(p)), a)
  {
    LetGoTwice(s, a);
    if Sweeping(s, p) && s.forgets[p].found.Some? {
      var f, g := s.forgets[p], LetGo(s.forgets[p], a);
      var f' := f.(swept := f.swept + {f.found.value.0}, found := None);
      var g' := g.(swept := g.swept + {f.found.value.0}, found := None);
      WithoutOne(s, p, f', a);
      WithoutOne(s, p, g', a);
      assert LetGo(f', a) == LetGo(g', a);
    }
  }

  lemma AbortWithout(cfg: Config, s: State, p: nat, a: nat)
    ensures Without(Apply(cfg, s, ForgetAbort(p)), a) == Without(Apply(cfg, Without(s, a), ForgetAbort(p)), a)
  {
    LetGoTwice(s, a);
    if Sweeping(s, p) {
      var f, g := s.forgets[p], LetGo(s.forgets[p], a);
      WithoutOne(s, p, f.(open := false), a);
      WithoutOne(s, p, g.(open := false), a);
      assert LetGo(f.(open := false), a) == LetGo(g.(open := false), a);
    }
  }

  lemma PurgeWithout(cfg: Config, s: State, p: nat, a: nat)
    requires PurgeReady(s, p)
    ensures Without(Apply(cfg, s, Purge(p)), a) == Without(Apply(cfg, Without(s, a), Purge(p)), a)
  {
    hide PurgeTx;
    var f, g := s.forgets[p], LetGo(s.forgets[p], a);
    WithoutOne(s, p, f.(open := false), a);
    WithoutOne(s, p, g.(open := false), a);
    assert LetGo(f.(open := false), a) == LetGo(g.(open := false), a);
    assert PurgeReady(Without(s, a), p);
  }

  /** The purge stays careful, as the approval let go left nothing that needs its row. */
  lemma PurgeStaysCareful(cfg: Config, s: State, p: nat, a: nat)
    requires Careful(cfg, s, Purge(p)) && PurgeReady(s, p)
    requires CoreInv(cfg, s) && AcceptInv(cfg, s) && Spent(cfg, s, a)
    ensures Careful(cfg, Without(s, a), Purge(p))
  {
    var w := Without(s, a);
    hide CoreInv, AcceptInv, Spent;
    forall id | TakenUnclaimed(cfg, w, p, id)
      ensures id in w.pending || Attended(w, w.store[id].mark.value.aid, id)
    {
      var aid := s.store[id].mark.value.aid;
      if aid == a {
        SpentMarks(cfg, s, a, id);
      } else {
        assert TakenUnclaimed(cfg, s, p, id);
        CoverWithout(s, a, aid, id);
      }
    }
  }

  /** A lookup for any other approval is the same with or without the claim. */
  lemma FindWithout(cfg: Config, s: State, p: nat, x: nat, a: nat)
    requires x != a && Sweeping(s, p) && s.forgets[p].found.None? && x in s.forgets[p].claimed - s.forgets[p].swept
    ensures Without(Apply(cfg, s, SweepFind(p, x)), a) == Without(Apply(cfg, Without(s, a), SweepFind(p, x)), a)
  {
    var w := Without(s, a);
    var f := LookedUp(s, s.forgets[p], x);
    var g := LookedUp(s, LetGo(s.forgets[p], a), x);
    assert MarkerHits(w, x) == MarkerHits(s, x);
    FindIsLookUp(cfg, s, p, x);
    FindIsLookUp(cfg, w, p, x);
    assert LetGo(f, a) == LetGo(g, a);
    hide LookedUp, Apply, LetGo, MarkerHits, Without;
    WithoutOne(s, p, f, a);
    WithoutOne(s, p, g, a);
  }

  /** What a lookup for approval `x` leaves of a forget. */
  ghost function LookedUp(s: State, f: Forget, x: nat): Forget {
    var hits := MarkerHits(s, x);
    if |hits| > 1 then f.(open := false)
    else if hits == {} then f.(swept := f.swept + {x})
    else (var id :| id in hits; f.(found := Some((x, id))))
  }

  lemma FindIsLookUp(cfg: Config, s: State, p: nat, x: nat)
    requires Sweeping(s, p) && s.forgets[p].found.None? && x in s.forgets[p].claimed - s.forgets[p].swept
    ensures Apply(cfg, s, SweepFind(p, x)) == s.(forgets := s.forgets[p := LookedUp(s, s.forgets[p], x)])
  {
    var hits := MarkerHits(s, x);
    if |hits| == 1 {
      var id :| id in hits;
      OneHit(hits, id);
    }
  }

  lemma OneHit(hits: set<string>, id: string)
    requires id in hits && |hits| <= 1
    ensures hits == {id}
  {
    assert |hits - {id}| == 0;
  }

  /** A lookup for this approval ends the forget, sweeps it, or finds a row of its own. */
  lemma OwnFindIsSafe(cfg: Config, s: State, p: nat, a: nat)
    requires SafeInv(cfg, Without(s, a)) && Sweeping(s, p) && s.forgets[p].found.None?
    requires a in s.forgets[p].claimed - s.forgets[p].swept
    ensures SafeInv(cfg, Without(Apply(cfg, s, SweepFind(p, a)), a))
  {
    var f, hits := s.forgets[p], MarkerHits(s, a);
    FindIsLookUp(cfg, s, p, a);
    WithoutOne(s, p, LookedUp(s, f, a), a);
    if |hits| > 1 {
      hide SafeInv, Apply, Without, MarkerHits;
      EndIsSafe(cfg, s, p, a);
    } else if hits == {} {
      hide SafeInv, Apply, MarkerHits;
      assert LetGo(LookedUp(s, f, a), a) == LetGo(f, a);
      assert Without(s, a).forgets[p := LetGo(f, a)] == Without(s, a).forgets;
    } else {
      var id :| id in hits && LookedUp(s, f, a) == f.(found := Some((a, id)));
      assert LetGo(f.(found := Some((a, id))), a) == Without(s, a).forgets[p].(found := Some((a, id)));
      hide SafeInv, Apply, LookedUp, Without;
      FoundIsSafe(cfg, Without(s, a), p, a, id);
    }
  }

  lemma EndIsSafe(cfg: Config, s: State, p: nat, a: nat)
    requires SafeInv(cfg, Without(s, a)) && Sweeping(s, p)
    ensures SafeInv(cfg, Without(s.(forgets := s.forgets[p := s.forgets[p].(open := false)]), a))
  {
    var w := Without(s, a);
    assert Careful(cfg, w, ForgetAbort(p));
    AbortWithout(cfg, s, p, a);
    assert Apply(cfg, s, ForgetAbort(p)) == s.(forgets := s.forgets[p := s.forgets[p].(open := false)]);
    hide SafeInv, Apply, Careful, Without;
    SafeStep(cfg, w, ForgetAbort(p));
    WithoutIsSafe(cfg, Apply(cfg, w, ForgetAbort(p)), a);
  }

  lemma FoundIsSafe(cfg: Config, s: State, p: nat, a: nat, id: string)
    requires SafeInv(cfg, s) && Sweeping(s, p) && s.forgets[p].found.None? && id in s.store && Carries(s.store[id], a)
    ensures SafeInv(cfg, s.(forgets := s.forgets[p := s.forgets[p].(found := Some((a, id)))]))
  {
    var s' := s.(forgets := s.forgets[p := s.forgets[p].(found := Some((a, id)))]);
    assert MarkOk(cfg, s, id, s.store[id].mark.value);
    CoreReadsNoForget(cfg, s, s'.forgets);
    hide CoreInv, Attended, RowAbout;
    forall q | Sweeping(s', q) ensures ForgetOk(cfg, s', s'.forgets[q]) {
      assert Sweeping(s, q) && ForgetOk(cfg, s, s.forgets[q]);
    }
    forall x | x in s'.store && s'.store[x].active && s'.store[x].mark.Some?
      ensures Covered(s', s'.store[x].mark.value.aid, x)
    {
      AttendedAlike(s, s', s.store[x].mark.value.aid, x);
      assert Covered(s, s.store[x].mark.value.aid, x);
    }
  }

  // ---------------------------------------------------------------- the simulation

  /** The invariant holds once the claim is let go, and letting go was right. */
  ghost predicate LetGoInv(cfg: Config, s: State, a: nat) {
    SafeInv(cfg, Without(s, a)) && AcceptInv(cfg, s) && Spent(cfg, s, a)
  }

  lemma ForgetStepWithout(cfg: Config, s: State, step: Step, a: nat)
    requires LetGoInv(cfg, s, a) && ForgetStep(step) && Careful(cfg, s, step)
    ensures SafeInv(cfg, Without(Apply(cfg, s, step), a))
  {
    var w := Without(s, a);
    CoreReadsNoForget(cfg, w, s.forgets);
    assert w.(forgets := s.forgets) == s;
    if step.SweepFind? && step.aid == a {
      if Apply(cfg, s, step) != s {
        hide SafeInv, CoreInv, AcceptInv, Spent;
        OwnFindIsSafe(cfg, s, step.pid, a);
      }
    } else if Apply(cfg, s, step) != s {
      SameStep(cfg, s, step, a);
      hide SafeInv, Apply, Careful, Without;
      SafeStep(cfg, w, step);
      WithoutIsSafe(cfg, Apply(cfg, w, step), a);
    }
  }

  lemma SameStep(cfg: Config, s: State, step: Step, a: nat)
    requires ForgetStep(step) && Careful(cfg, s, step) && Apply(cfg, s, step) != s
    requires CoreInv(cfg, s) && AcceptInv(cfg, s) && Spent(cfg, s, a) && !(step.SweepFind? && step.aid == a)
    ensures Careful(cfg, Without(s, a), step)
    ensures Without(Apply(cfg, s, step), a) == Without(Apply(cfg, Without(s, a), step), a)
  {
    hide CoreInv, AcceptInv, Spent, Without, ForgetClaimTx;
    match step {
      case ForgetClaim(p, drawer, t0) => ClaimWithout(cfg, s, p, drawer, t0, a);
      case SweepFind(p, x) => FindWithout(cfg, s, p, x, a);
      case SweepDelete(p) => DeleteWithout(cfg, s, p, a);
      case Purge(p) =>
        PurgeStaysCareful(cfg, s, p, a);
        PurgeWithout(cfg, s, p, a);
      case ForgetAbort(p) => AbortWithout(cfg, s, p, a);
    }
  }

  /** Every careful step of the state is a careful step, or none, of the state without the claim. */
  lemma LetGoStep(cfg: Config, s: State, step: Step, a: nat)
    requires LetGoInv(cfg, s, a) && Careful(cfg, s, step)
    ensures LetGoInv(cfg, Apply(cfg, s, step), a)
  {
    NobodyEdits(cfg, s, step);
    CoreReadsNoForget(cfg, Without(s, a), s.forgets);
    assert Without(s, a).(forgets := s.forgets) == s;
    hide Apply, Careful, Without, Redeemable, ForgetInv, CoverInv;
    if ForgetStep(step) {
      ForgetStepWithout(cfg, s, step, a);
    } else {
      OtherStepWithout(cfg, s, step, a);
    }
    SpentStep(cfg, s, step, a);
    AcceptInvStep(cfg, s, step);
  }

  lemma AcceptInvStep(cfg: Config, s: State, step: Step)
    requires IdsInv(s) && WorkerInv(cfg, s) && AcceptInv(cfg, s) && !step.HandEdit?
    ensures AcceptInv(cfg, Apply(cfg, s, step))
  {
    hide Apply, Sound, Accepted, Linked;
    var s' := Apply(cfg, s, step);
    LogStaysLinked(cfg, s, step);
    forall wid | wid in s'.workers && s'.workers[wid].aid in s'.db.rows
      ensures Accepted(cfg, s'.workers[wid].aid, s'.db.rows[s'.workers[wid].aid], s'.audit)
    {
      AcceptStep(cfg, s, step, wid);
    }
  }

  lemma {:induction false} LetGoKept(cfg: Config, s: State, steps: seq<Step>, a: nat)
    requires LetGoInv(cfg, s, a) && CarefulRun(cfg, s, steps)
    ensures LetGoInv(cfg, Run(cfg, s, steps), a)
    decreases |steps|
  {
    hide LetGoInv, Careful, Apply;
    if steps != [] {
      var n := |steps| - 1;
      PrefixIsCareful(cfg, s, steps, n);
      LetGoKept(cfg, s, steps[..n], a);
      assert Careful(cfg, Run(cfg, s, steps[..n]), steps[n]);
      LetGoStep(cfg, Run(cfg, s, steps[..n]), steps[n], a);
    }
  }

  /** A state that is safe but for a claim that may be let go is not doomed. */
  lemma LetGoIsNotDoomed(cfg: Config, s: State, a: nat)
    requires LetGoInv(cfg, s, a)
    ensures !Doomed(cfg, s)
  {
    hide LetGoInv, NoOrphan, CarefulRun;
    forall more | CarefulRun(cfg, s, more) ensures NoOrphan(Run(cfg, s, more)) {
      LetGoKept(cfg, s, more, a);
      LetGoShowsNoOrphan(cfg, Run(cfg, s, more), a);
    }
  }

  lemma LetGoShowsNoOrphan(cfg: Config, s: State, a: nat)
    requires LetGoInv(cfg, s, a)
    ensures NoOrphan(s)
  {
    hide SafeInv, AcceptInv, Spent;
    SafeImpliesNoOrphan(cfg, Without(s, a));
    forall id | id in s.store && s.store[id].active && s.store[id].mark.Some?
                && s.store[id].mark.value.aid !in s.db.rows
      ensures id in s.pending || Attended(s, s.store[id].mark.value.aid, id)
    {
      CoverWithout(s, a, s.store[id].mark.value.aid, id);
    }
  }
}
