/** What the protocol guarantees over whole runs: forgets win, decisions stand, workers converge. */
module Safety {
  import opened Basics
  import opened AuditChain
  import opened Queue
  import opened QueueLaws
  import opened Protocol
  import opened ProtocolFrames
  import opened Invariants
  import opened Orphans

  // ---------------------------------------------------------------- forget wins

  /**
   One finalize call moves a row out of `rtbf_deleting` exactly when a gate refuses that row:
   the two refusal updates guard only against `finalized`. The right-hand side is what a caller
   could check before the call.
   */
  lemma FinalizeOvertakesForgetIffRefused(cfg: Config, db: Db, audit: seq<Row>, readable: bool, aid: nat, wid: string,
                                          t0: int)
    requires aid in db.rows && db.rows[aid].fin == RtbfDeleting
    ensures var db' := GateEffect(db, aid, wid, t0, GateDecision(cfg, db, audit, readable, aid, t0));
            && aid in db'.rows
            && (db'.rows[aid].fin != RtbfDeleting <==>
                  && Configured(cfg) && ApprovedWithEvent(db.rows[aid])
                  && !(Provenanced(cfg, db.rows[aid])
                       && GateRefusal(cfg, aid, db.rows[aid], audit, readable).None?))
  {
    hide GateRefusal;
  }

  /** For a row that passes the gates, read against a readable log, the forget always wins. */
  lemma AcceptedForgetHolds(cfg: Config, db: Db, audit: seq<Row>, aid: nat, wid: string, t0: int)
    requires aid in db.rows && db.rows[aid].fin == RtbfDeleting && Accepted(cfg, aid, db.rows[aid], audit)
    ensures GateEffect(db, aid, wid, t0, GateDecision(cfg, db, audit, true, aid, t0)) == db
    ensures !GateDecision(cfg, db, audit, true, aid, t0).Claimed?
  {
  }

  /** Held for a forget of this drawer, which will find it again. */
  predicate HeldFor(cfg: Config, db: Db, a: nat, drawer: string) {
    a in db.rows && db.rows[a].fin == RtbfDeleting && RowAbout(cfg, db, a, drawer)
  }

  /** One step that refuses no finalize call on a held row leaves it held, under the same store id, or purges it. */
  lemma HeldStep(cfg: Config, s: State, step: Step, a: nat, drawer: string)
    requires CoreInv(cfg, s) && !step.HandEdit? && !RefusedBy(cfg, s, step, a) && HeldFor(cfg, s.db, a, drawer)
    ensures var s' := Apply(cfg, s, step);
            && s'.wins[a] == s.wins[a]
            && (a in s'.db.rows ==> HeldFor(cfg, s'.db, a, drawer) && RecordedId(s'.db, a) == RecordedId(s.db, a))
  {
    hide Apply, RefusedBy, Sound, RowAbout, MarkInv;
    ForgottenIsNotRecorded(cfg, s, step, a);
    if a in Apply(cfg, s, step).db.rows {
      RtbfStays(cfg, s, step, a);
      AboutPersists(cfg, s, step, a, drawer);
      RecordedIdStays(cfg, s, step, a);
    }
  }

  lemma RecordedIdStays(cfg: Config, s: State, step: Step, a: nat)
    requires IdsInv(s) && WorkerInv(cfg, s) && RowInv(cfg, s) && !step.HandEdit?
    requires a in s.db.rows && s.db.rows[a].fin == RtbfDeleting && a in Apply(cfg, s, step).db.rows
    ensures RecordedId(Apply(cfg, s, step).db, a) == RecordedId(s.db, a)
  {
    hide Apply;
    RowPersists(cfg, s, step, a);
    if s.db.rows[a].status != Approved {
      UnapprovedRecordsNothing(cfg, s, step, a);
    } else {
      if RecordsHere(s, step) {
        RecordIsOneUpdate(cfg, s, step);
      }
      EventKept(cfg, s, step, a);
    }
  }

  lemma ForgottenIsNotRecorded(cfg: Config, s: State, step: Step, a: nat)
    requires IdsInv(s) && WorkerInv(cfg, s) && RowInv(cfg, s) && (a in s.db.rows ==> s.db.rows[a].fin == RtbfDeleting)
    ensures Apply(cfg, s, step).wins[a] == s.wins[a]
  {
    RecordCounts(cfg, s, step);
    hide Apply;
    if RecordsHere(s, step) {
      RecordIsOneUpdate(cfg, s, step);
    }
  }

  /** Nobody edits the queue by hand, and no finalize call on `a` is refused while a forget holds it. */
  ghost predicate NeverRefused(cfg: Config, s: State, steps: seq<Step>, a: nat) {
    forall i | 0 <= i < |steps| ::
      && !steps[i].HandEdit?
      && (var s1 := Run(cfg, s, steps[..i]);
          a in s1.db.rows && s1.db.rows[a].fin == RtbfDeleting ==> !RefusedBy(cfg, s1, steps[i], a))
  }

  lemma PrefixIsNeverRefused(cfg: Config, s: State, steps: seq<Step>, a: nat, n: nat)
    requires NeverRefused(cfg, s, steps, a) && n <= |steps|
    ensures NeverRefused(cfg, s, steps[..n], a)
  {
    hide RefusedBy, Run;
    forall i | 0 <= i < n
      ensures !steps[..n][i].HandEdit?
      ensures var s1 := Run(cfg, s, steps[..n][..i]);
              a in s1.db.rows && s1.db.rows[a].fin == RtbfDeleting ==> !RefusedBy(cfg, s1, steps[..n][i], a)
    {
      assert steps[..n][..i] == steps[..i];
    }
  }

  /** A row once held is, at the end of the run, purged or still held, never finalized, and records the same id. */
  lemma {:induction false} HeldThroughout(cfg: Config, s: State, steps: seq<Step>, a: nat, drawer: string)
    requires CoreInv(cfg, s) && NeverRefused(cfg, s, steps, a) && HeldFor(cfg, s.db, a, drawer)
    ensures var s' := Run(cfg, s, steps);
            && CoreInv(cfg, s') && a in s'.cands && s'.wins[a] == s.wins[a]
            && (a in s'.db.rows ==> HeldFor(cfg, s'.db, a, drawer) && RecordedId(s'.db, a) == RecordedId(s.db, a))
    decreases |steps|
  {
    hide Apply, RefusedBy, RecordedId, RowAbout;
    if steps == [] {
      hide WorkerInv, MarkInv, RowInv;
    } else {
      hide CoreInv, HeldFor;
      var n := |steps| - 1;
      PrefixIsNeverRefused(cfg, s, steps, a, n);
      HeldThroughout(cfg, s, steps[..n], a, drawer);
      HeldOneMore(cfg, s, Run(cfg, s, steps[..n]), steps[n], a, drawer);
    }
  }

  lemma HeldOneMore(cfg: Config, s0: State, s: State, step: Step, a: nat, drawer: string)
    requires CoreInv(cfg, s) && a in s.cands && s.wins[a] == s0.wins[a] && !step.HandEdit?
    requires a in s.db.rows && s.db.rows[a].fin == RtbfDeleting ==> !RefusedBy(cfg, s, step, a)
    requires a in s.db.rows ==> HeldFor(cfg, s.db, a, drawer) && RecordedId(s.db, a) == RecordedId(s0.db, a)
    ensures var s' := Apply(cfg, s, step);
            && CoreInv(cfg, s') && a in s'.cands && s'.wins[a] == s0.wins[a]
            && (a in s'.db.rows ==> HeldFor(cfg, s'.db, a, drawer) && RecordedId(s'.db, a) == RecordedId(s0.db, a))
  {
    hide Apply, RefusedBy, Sound, RecordedId, RowAbout, WorkerInv, MarkInv, RowInv;
    CoreStep(cfg, s, step);
    NextRowGrows(cfg, s, step);
    if a in s.db.rows {
      HeldStep(cfg, s, step, a, drawer);
    } else {
      ForgottenIsNotRecorded(cfg, s, step, a);
      if a in Apply(cfg, s, step).db.rows {
        OnlyEnqueueAdds(cfg, s, step, a);
      }
    }
  }

  lemma CarefulIsNeverRefused(cfg: Config, s: State, steps: seq<Step>, a: nat)
    requires CarefulRun(cfg, s, steps)
    ensures NeverRefused(cfg, s, steps, a)
  {
    hide Careful, RefusedBy, Run;
    forall i | 0 <= i < |steps|
      ensures !steps[i].HandEdit?
      ensures var s1 := Run(cfg, s, steps[..i]);
              a in s1.db.rows && s1.db.rows[a].fin == RtbfDeleting ==> !RefusedBy(cfg, s1, steps[i], a)
    {
      var s1 := Run(cfg, s, steps[..i]);
      assert Careful(cfg, s1, steps[i]);
      NobodyEdits(cfg, s1, steps[i]);
      if a in s1.db.rows && s1.db.rows[a].fin == RtbfDeleting {
        CarefulIsNotRefused(cfg, s1, steps[i], a);
      }
    }
  }

  /**
   Once claimed for a forget of some drawer, an approval stays claimed, stays about the drawer and
   keeps the store id recorded under it, until it is purged; nobody finalizes it again. Whoever
   else interferes, a retry of an aborted forget finds it, and the id, where the first attempt did.
   */
  lemma ForgetWins(cfg: Config, s: State, steps: seq<Step>, a: nat, drawer: string)
    requires Inv(cfg, s) && CarefulRun(cfg, s, steps) && HeldFor(cfg, s.db, a, drawer)
    ensures var s' := Run(cfg, s, steps);
            && s'.wins[a] == s.wins[a]
            && (a in s'.db.rows ==> HeldFor(cfg, s'.db, a, drawer) && RecordedId(s'.db, a) == RecordedId(s.db, a))
  {
    hide IdsInv, WorkerInv, MarkInv, RowInv, HeldFor, RecordedId, CarefulRun, NeverRefused;
    CarefulIsNeverRefused(cfg, s, steps, a);
    HeldThroughout(cfg, s, steps, a, drawer);
  }

  /** Every finalize call on `a` can read the audit log, and nobody edits the queue by hand. */
  predicate Readable(steps: seq<Step>, a: nat) {
    forall i | 0 <= i < |steps| :: !steps[i].HandEdit? && (steps[i].Gate? && steps[i].aid == a ==> steps[i].readable)
  }

  /**
   For a row that passes the gates when a forget claims it, readable logs are enough: whatever else
   happens, careful or not, the forget wins.
   */
  lemma ReadableForgetWins(cfg: Config, s: State, steps: seq<Step>, a: nat, drawer: string)
    requires CoreInv(cfg, s) && Linked(cfg.hasher, s.audit) && HeldFor(cfg, s.db, a, drawer)
    requires Accepted(cfg, a, s.db.rows[a], s.audit) && Readable(steps, a)
    ensures var s' := Run(cfg, s, steps);
            && s'.wins[a] == s.wins[a]
            && (a in s'.db.rows ==> HeldFor(cfg, s'.db, a, drawer) && RecordedId(s'.db, a) == RecordedId(s.db, a))
  {
    ReadableIsNeverRefused(cfg, s, steps, a);
    hide *;
    HeldThroughout(cfg, s, steps, a, drawer);
  }

  lemma ReadableIsNeverRefused(cfg: Config, s: State, steps: seq<Step>, a: nat)
    requires Sound(s.db) && Linked(cfg.hasher, s.audit) && a in s.db.rows && Accepted(cfg, a, s.db.rows[a], s.audit)
    requires Readable(steps, a)
    ensures NeverRefused(cfg, s, steps, a)
  {
    hide Accepted, Linked, RefusedBy, Run, Sound;
    forall i | 0 <= i < |steps|
      ensures var s1 := Run(cfg, s, steps[..i]);
              a in s1.db.rows && s1.db.rows[a].fin == RtbfDeleting ==> !RefusedBy(cfg, s1, steps[i], a)
    {
      AcceptedOverRun(cfg, s, steps[..i], a);
      AcceptedIsNotRefused(cfg, Run(cfg, s, steps[..i]), steps[i], a);
    }
  }

  lemma AcceptedIsNotRefused(cfg: Config, s: State, step: Step, a: nat)
    requires a in s.db.rows ==> Accepted(cfg, a, s.db.rows[a], s.audit)
    requires step.Gate? && step.aid == a ==> step.readable
    ensures !RefusedBy(cfg, s, step, a)
  {
  }

  /** An accepted row that is still there at the end of a run is still accepted. */
  lemma {:induction false} AcceptedOverRun(cfg: Config, s: State, trace: seq<Step>, a: nat)
    requires Linked(cfg.hasher, s.audit) && Sound(s.db) && a in s.db.rows && Accepted(cfg, a, s.db.rows[a], s.audit)
    requires forall k | 0 <= k < |trace| :: !trace[k].HandEdit?
    ensures var s' := Run(cfg, s, trace);
            && Linked(cfg.hasher, s'.audit) && Sound(s'.db) && a < s'.db.nextRow
            && (a in s'.db.rows ==> Accepted(cfg, a, s'.db.rows[a], s'.audit))
    decreases |trace|
  {
    if trace != [] {
      var front, last := trace[..|trace| - 1], trace[|trace| - 1];
      AcceptedOverRun(cfg, s, front, a);
      AcceptedOverStep(cfg, Run(cfg, s, front), last, a);
    }
  }

  lemma AcceptedOverStep(cfg: Config, s: State, step: Step, a: nat)
    requires Linked(cfg.hasher, s.audit) && Sound(s.db) && a < s.db.nextRow && !step.HandEdit?
    requires a in s.db.rows ==> Accepted(cfg, a, s.db.rows[a], s.audit)
    ensures var s' := Apply(cfg, s, step);
            && Linked(cfg.hasher, s'.audit) && Sound(s'.db) && a < s'.db.nextRow
            && (a in s'.db.rows ==> Accepted(cfg, a, s'.db.rows[a], s'.audit))
  {
    hide *;
    var s' := Apply(cfg, s, step);
    SoundStep(cfg, s, step);
    LogStaysLinked(cfg, s, step);
    NextRowGrows(cfg, s, step);
    RowPersists(cfg, s, step, a);
    if a in s'.db.rows {
      var es := LogSuffix(cfg, s, step);
      AcceptedIsStable(cfg, a, s.db.rows[a], s'.db.rows[a], s.audit, es);
    }
  }

  /** Approval ids are never reused, so a purged approval never returns and is never recorded. */
  lemma {:induction false} PurgedStaysPurged(cfg: Config, s: State, steps: seq<Step>, a: nat)
    requires CoreInv(cfg, s) && a in s.cands && a !in s.db.rows
    requires forall k | 0 <= k < |steps| :: !steps[k].HandEdit?
    ensures var s' := Run(cfg, s, steps);
            CoreInv(cfg, s') && a in s'.cands && a !in s'.db.rows && s'.wins[a] == s.wins[a]
    decreases |steps|
  {
    hide Apply, CoreInv;
    if steps != [] {
      var front, last := steps[..|steps| - 1], steps[|steps| - 1];
      PurgedStaysPurged(cfg, s, front, a);
      PurgedOneMore(cfg, Run(cfg, s, front), last, a);
    }
  }

  lemma PurgedOneMore(cfg: Config, s: State, step: Step, a: nat)
    requires CoreInv(cfg, s) && a in s.cands && a !in s.db.rows && !step.HandEdit?
    ensures var s' := Apply(cfg, s, step);
            CoreInv(cfg, s') && a in s'.cands && a !in s'.db.rows && s'.wins[a] == s.wins[a]
  {
    hide Apply, Sound, WorkerInv, MarkInv, RowInv;
    CoreStep(cfg, s, step);
    NextRowGrows(cfg, s, step);
    ForgottenIsNotRecorded(cfg, s, step, a);
    if a in Apply(cfg, s, step).db.rows {
      OnlyEnqueueAdds(cfg, s, step, a);
    }
  }

  /**
   A worker overtaken by a forget is told that its row is lost, and the next thing it does
   removes its store row or leaves a pending entry for it.
   */
  lemma OvertakenWorkerCleansUp(cfg: Config, s: State, wid: string, deleted: bool)
    requires Inv(cfg, s) && wid in s.workers && s.workers[wid].phase.Wrote?
    requires var a := s.workers[wid].aid; a in s.db.rows ==> s.db.rows[a].fin == RtbfDeleting
    ensures var id := s.workers[wid].phase.id;
            var s1 := Apply(cfg, s, Record(wid));
            var s2 := Apply(cfg, s1, Cleanup(wid, deleted));
            && s1.db == s.db && s1.wins == s.wins
            && wid in s1.workers && s1.workers[wid].phase == Orphaned(id)
            && (if deleted then id !in s2.store else id in s2.pending)
  {
    hide AcceptInv, CheckStep, CoverInv, ExclusionInv, FailStep, FindMarkerStep, ForgetApply, ForgetInv, ForgetStep,
      GateStep, IdsInv, MarkInv, Recorded, Running, SendStep, TableApply, WinInv, WriteStep;
    assert WorkerOk(cfg, s, wid);
    if s.workers[wid].aid in s.db.rows {
      assert RowOk(cfg, s.db, s.db.rows[s.workers[wid].aid]);
    }
  }

  // ---------------------------------------------------------------- forget is complete

  /**
   When the purge of a forget has run: a fresh scan for the drawer is empty, every approval it
   claimed is gone, no active store row carries the marker of a claimed approval except one that
   a worker in flight will remove (or that is noted as pending), and no row or event about
   another drawer is missing. What may go wrong for approvals it never claimed is
   `Orphans.PurgeOrphansIff`.
   */
  lemma ForgetIsComplete(cfg: Config, s: State, pid: nat)
    requires Inv(cfg, s) && PurgeReady(s, pid)
    ensures var s', f := Apply(cfg, s, Purge(pid)), s.forgets[pid];
            && AboutRows(cfg, s'.db, f.drawer) == {} && AboutEvents(cfg, s'.db, f.drawer) == {}
            && (forall a | a in f.claimed :: a !in s'.db.rows)
            && SweptClean(s', f.claimed)
            && (forall a | a in s.db.rows && !RowAbout(cfg, s.db, a, f.drawer) ::
                  a in s'.db.rows && s'.db.rows[a] == s.db.rows[a])
  {
    PurgeIsExact(cfg, s.db, s.forgets[pid].drawer);
    assert ForgetOk(cfg, s, s.forgets[pid]);
    SweptIsClean(s, pid);
    PurgeKeepsClean(cfg, s, pid, s.forgets[pid].claimed);
  }

  /** No active store row is marked for these approvals, but one in flight or noted as pending. */
  ghost predicate SweptClean(s: State, ids: set<nat>) {
    forall id | id in s.store && s.store[id].active && s.store[id].mark.Some? && s.store[id].mark.value.aid in ids ::
      id in s.pending || Attended(s, s.store[id].mark.value.aid, id)
  }

  lemma SweptIsClean(s: State, pid: nat)
    requires CoverInv(s) && PurgeReady(s, pid)
    ensures SweptClean(s, s.forgets[pid].claimed)
  {
    forall id | id in s.store && s.store[id].active && s.store[id].mark.Some?
                && s.store[id].mark.value.aid in s.forgets[pid].claimed
      ensures id in s.pending || Attended(s, s.store[id].mark.value.aid, id)
    {
      assert Covered(s, s.store[id].mark.value.aid, id);
    }
  }

  lemma PurgeKeepsClean(cfg: Config, s: State, pid: nat, ids: set<nat>)
    requires SweptClean(s, ids)
    ensures SweptClean(Apply(cfg, s, Purge(pid)), ids)
  {
    var s' := Apply(cfg, s, Purge(pid));
    forall id | id in s'.store && s'.store[id].active && s'.store[id].mark.Some? && s'.store[id].mark.value.aid in ids
      ensures id in s'.pending || Attended(s', s'.store[id].mark.value.aid, id)
    {
      AttendedAlike(s, s', s'.store[id].mark.value.aid, id);
    }
  }

  /**
   A retry of a forget that stopped after its claim, whoever else moved meanwhile: its scan finds
   every claimed approval that is still there and every store id recorded under one; none of them
   defers it; and if nothing new is about the drawer, it claims at once and changes no row.
   */
  lemma RetryFindsTheSame(cfg: Config, s: State, steps: seq<Step>, ids: set<nat>, drawer: string, t0: int)
    requires Inv(cfg, s) && CarefulRun(cfg, s, steps) && forall a | a in ids :: HeldFor(cfg, s.db, a, drawer)
    ensures var db, db' := s.db, Run(cfg, s, steps).db;
            && (forall a | a in ids && a in db'.rows ::
                  && a in AboutRows(cfg, db', drawer) && RecordedId(db', a) == RecordedId(db, a)
                  && (RecordedId(db, a).Some? && RecordedId(db, a).value != drawer && RecordedId(db, a).value != ""
                      ==> RecordedId(db, a).value in DivergentIds(cfg, db', drawer)))
            && (FinalizeInFlight(cfg, db', drawer, t0) ==>
                  exists a | a in AboutRows(cfg, db', drawer) - ids :: a in db'.rows && LiveAt(db'.rows[a], t0))
            && (AboutRows(cfg, db', drawer) <= ids ==>
                  ForgetClaimTx(cfg, db', drawer, t0) == Some((db', AboutRows(cfg, db', drawer))))
  {
    var s' := Run(cfg, s, steps);
    forall a | a in ids && a in s'.db.rows
      ensures HeldFor(cfg, s'.db, a, drawer) && RecordedId(s'.db, a) == RecordedId(s.db, a)
    {
      ForgetWins(cfg, s, steps, a, drawer);
    }
    InvKept(cfg, s, steps);
    hide Inv, CarefulRun, Run;
    InvIsSafe(cfg, s');
    RetryScan(cfg, s.db, s', ids, drawer, t0);
  }

  lemma InvIsSafe(cfg: Config, s: State)
    requires Inv(cfg, s)
    ensures SafeInv(cfg, s) && CoreInv(cfg, s)
  {
  }

  lemma RetryScan(cfg: Config, db: Db, s': State, ids: set<nat>, drawer: string, t0: int)
    requires CoreInv(cfg, s')
    requires forall a | a in ids && a in s'.db.rows ::
               HeldFor(cfg, s'.db, a, drawer) && RecordedId(s'.db, a) == RecordedId(db, a)
    ensures var db' := s'.db;
            && (forall a | a in ids && a in db'.rows ::
                  && a in AboutRows(cfg, db', drawer)
                  && (RecordedId(db, a).Some? && RecordedId(db, a).value != drawer && RecordedId(db, a).value != ""
                      ==> RecordedId(db, a).value in DivergentIds(cfg, db', drawer)))
            && (FinalizeInFlight(cfg, db', drawer, t0) ==>
                  exists a | a in AboutRows(cfg, db', drawer) - ids :: a in db'.rows && LiveAt(db'.rows[a], t0))
            && (AboutRows(cfg, db', drawer) <= ids ==>
                  ForgetClaimTx(cfg, db', drawer, t0) == Some((db', AboutRows(cfg, db', drawer))))
  {
    var db' := s'.db;
    forall a | a in ids && a in db'.rows
      ensures RecordedId(db, a).Some? && RecordedId(db, a).value != drawer && RecordedId(db, a).value != ""
              ==> RecordedId(db, a).value in DivergentIds(cfg, db', drawer)
    {
      AboutRowsEventIsAbout(cfg, db', a, drawer);
    }
    if FinalizeInFlight(cfg, db', drawer, t0) {
      var a :| a in AboutRows(cfg, db', drawer) && a in db'.rows && LiveAt(db'.rows[a], t0);
      assert a in AboutRows(cfg, db', drawer) - ids;
    }
    if AboutRows(cfg, db', drawer) <= ids {
      forall a | a in AboutRows(cfg, db', drawer) ensures ForForget(db'.rows[a]) == db'.rows[a] {
        assert RowOk(cfg, db', db'.rows[a]);
      }
      HeldRowsNeverDefer(cfg, db', drawer, t0);
    }
  }

  lemma AboutRowsEventIsAbout(cfg: Config, db: Db, a: nat, drawer: string)
    requires Sound(db) && RowAbout(cfg, db, a, drawer)
    ensures RecordedId(db, a).Some? && RecordedId(db, a).value != drawer && RecordedId(db, a).value != ""
            ==> RecordedId(db, a).value in DivergentIds(cfg, db, drawer)
  {
  }

  /** Rows already held for a forget never defer a claim, and claiming them again changes nothing. */
  lemma HeldRowsNeverDefer(cfg: Config, db: Db, drawer: string, t0: int)
    requires forall a | a in AboutRows(cfg, db, drawer) :: ForForget(db.rows[a]) == db.rows[a]
    ensures ForgetClaimTx(cfg, db, drawer, t0) == Some((db, AboutRows(cfg, db, drawer)))
  {
    assert ClaimRows(db, AboutRows(cfg, db, drawer)).rows == db.rows;
  }

  /**
   And it ends where the first attempt would have: when any forget of the drawer has purged, every
   approval the aborted one claimed is gone, and no row marked for one is left but in flight or pending.
   */
  lemma RetryEndsTheSame(cfg: Config, s: State, steps: seq<Step>, ids: set<nat>, drawer: string, pid: nat)
    requires Inv(cfg, s) && CarefulRun(cfg, s, steps) && forall a | a in ids :: HeldFor(cfg, s.db, a, drawer)
    requires var s1 := Run(cfg, s, steps);
             PurgeReady(s1, pid) && s1.forgets[pid].drawer == drawer && Careful(cfg, s1, Purge(pid))
    ensures var s2 := Apply(cfg, Run(cfg, s, steps), Purge(pid));
            (forall a | a in ids :: a !in s2.db.rows) && SweptClean(s2, ids)
  {
    var s1 := Run(cfg, s, steps);
    var s2 := Apply(cfg, s1, Purge(pid));
    InvKept(cfg, s, steps);
    ForgetIsComplete(cfg, s1, pid);
    forall a | a in ids ensures a !in s2.db.rows {
      ForgetWins(cfg, s, steps, a, drawer);
      PurgeTakesHeld(cfg, s1, pid, a);
    }
    hide Inv, CarefulRun, Run, Careful, Apply;
    InvStep(cfg, s1, Purge(pid));
    InvIsSafe(cfg, s2);
    SafeImpliesNoOrphan(cfg, s2);
  }

  lemma PurgeTakesHeld(cfg: Config, s: State, pid: nat, a: nat)
    requires PurgeReady(s, pid) && (a in s.db.rows ==> HeldFor(cfg, s.db, a, s.forgets[pid].drawer))
    ensures a !in Apply(cfg, s, Purge(pid)).db.rows
  {
  }

  // ---------------------------------------------------------------- exclusion and convergence

  /**
   When a worker claims an approval, every other worker of that approval has ended or crashed,
   or claimed it more than the lease ago.
   */
  lemma ClaimsAreALeaseApart(cfg: Config, s: State, steps: seq<Step>, step: Step, wid: string)
    requires Initial(cfg, s) && CarefulRun(cfg, s, steps)
    requires var s1 := Run(cfg, s, steps);
             Claims(cfg, s1, step) && Running(s1, wid) && s1.workers[wid].aid == step.aid
    ensures Run(cfg, s, steps).now > Run(cfg, s, steps).workers[wid].claimedAt + STALE_TTL
  {
    InvHolds(cfg, s, steps);
    ClaimedRowWasClaimable(cfg, Run(cfg, s, steps), step);
    hide Claims, Inv, Run, Sound;
    ClaimIsALeaseApart(cfg, Run(cfg, s, steps), step, wid);
  }

  lemma ClaimedRowWasClaimable(cfg: Config, s: State, step: Step)
    requires Claims(cfg, s, step)
    ensures step.aid in s.db.rows && Claimable(s.db.rows[step.aid], step.t0) && step.t0 <= s.now
  {
    hide GateRefusal;
  }

  lemma ClaimIsALeaseApart(cfg: Config, s: State, step: Step, wid: string)
    requires Inv(cfg, s) && Running(s, wid) && step.Gate? && s.workers[wid].aid == step.aid
    requires step.aid in s.db.rows && Claimable(s.db.rows[step.aid], step.t0) && step.t0 <= s.now
    ensures s.now > s.workers[wid].claimedAt + STALE_TTL
  {
    assert Excluded(s, wid);
  }

  /** All workers of one approval hold one store id, so the marker lookup never sees two rows. */
  lemma WorkersConverge(cfg: Config, s: State, steps: seq<Step>, aid: nat)
    requires Initial(cfg, s) && CarefulRun(cfg, s, steps)
    ensures var s' := Run(cfg, s, steps);
            && |MarkerHits(s', aid)| <= 1
            && (forall w1, w2 | w1 in s'.workers && w2 in s'.workers
                                && s'.workers[w1].aid == s'.workers[w2].aid == aid
                                && s'.workers[w1].phase.Wrote? && s'.workers[w2].phase.Wrote? ::
                  s'.workers[w1].phase.id == s'.workers[w2].phase.id)
            && (forall w, id | w in s'.workers && s'.workers[w].aid == aid && s'.workers[w].phase.Wrote?
                               && id in MarkerHits(s', aid) :: s'.workers[w].phase.id == id)
  {
    InvHolds(cfg, s, steps);
    var s' := Run(cfg, s, steps);
    assert forall w | w in s'.workers :: WorkerOk(cfg, s', w);
    var hits := MarkerHits(s', aid);
    if hits != {} {
      var id :| id in hits;
      assert hits == {id};
    }
  }

  /** A finalized approval carries the one id of its bytes, its event too, and one worker finalized it. */
  lemma FinalizedCarriesItsId(cfg: Config, s: State, steps: seq<Step>, a: nat)
    requires Initial(cfg, s) && CarefulRun(cfg, s, steps)
    ensures var s' := Run(cfg, s, steps);
            && s'.wins[a] <= 1
            && (a in s'.db.rows && s'.db.rows[a].fin == Finalized ==>
                  && a in s'.cands && s'.db.rows[a].durable.Some?
                  && s'.db.rows[a].durable == cfg.contentHash(s'.cands[a])
                  && s'.db.rows[a].event.Some? && s'.db.rows[a].event.value in s'.db.events
                  && s'.db.events[s'.db.rows[a].event.value].completed == s'.db.rows[a].durable)
  {
    InvHolds(cfg, s, steps);
    var s' := Run(cfg, s, steps);
    if a in s'.db.rows {
      assert RowOk(cfg, s'.db, s'.db.rows[a]);
    }
  }

  // ---------------------------------------------------------------- decisions over whole runs

  /** Once approved or rejected, a row keeps its decision, event and receipt until it is purged. */
  lemma {:induction false} DecisionsAreAbsorbing(cfg: Config, s: State, steps: seq<Step>, a: nat)
    requires Sound(s.db) && a in s.db.rows && forall k | 0 <= k < |steps| :: !steps[k].HandEdit?
    ensures var db' := Run(cfg, s, steps).db;
            && Sound(db') && s.db.nextRow <= db'.nextRow
            && (a in db'.rows ==> RowEvolves(s.db.rows[a], db'.rows[a]))
    decreases |steps|
  {
    hide Apply, RowEvolves, Sound;
    if steps == [] {
      SameRowEvolves(s.db.rows[a]);
      RowIdsAreBelow(s.db, a);
    } else {
      var front, last := steps[..|steps| - 1], steps[|steps| - 1];
      DecisionsAreAbsorbing(cfg, s, front, a);
      RowIdsAreBelow(s.db, a);
      DecisionsOneMore(cfg, s.db.rows[a], Run(cfg, s, front), last, a);
    }
  }

  lemma RowIdsAreBelow(db: Db, a: nat)
    requires Sound(db) && a in db.rows
    ensures a < db.nextRow
  {
  }

  lemma DecisionsOneMore(cfg: Config, row: QRow, s: State, step: Step, a: nat)
    requires Sound(s.db) && a < s.db.nextRow && !step.HandEdit? && (a in s.db.rows ==> RowEvolves(row, s.db.rows[a]))
    ensures var db' := Apply(cfg, s, step).db;
            Sound(db') && s.db.nextRow <= db'.nextRow && (a in db'.rows ==> RowEvolves(row, db'.rows[a]))
  {
    hide Apply, RowEvolves, Sound;
    SoundStep(cfg, s, step);
    NextRowGrows(cfg, s, step);
    RowPersists(cfg, s, step, a);
    if a in s.db.rows && a in Apply(cfg, s, step).db.rows {
      EvolvingComposes(row, s.db.rows[a], Apply(cfg, s, step).db.rows[a]);
    }
  }

  lemma SameRowEvolves(r: QRow)
    ensures RowEvolves(r, r)
  {
  }

  lemma EvolvingComposes(r: QRow, r': QRow, r'': QRow)
    requires RowEvolves(r, r') && RowEvolves(r', r'')
    ensures RowEvolves(r, r'')
  {
  }

  /** The entry `approve` appends before it touches the queue: the decision, bound to the exact candidate bytes. */
  ghost predicate DecisionEntry(cfg: Config, db: Db, aid: nat, approver: string, e: Entry)
    requires aid in db.rows
  {
    && e.op == "approval_decision" && e.target == OfApproval(aid) && e.tenant == cfg.tenant
    && exists extra :: e.details == DecisionDetails(cfg, extra, "authorized_intent", approver, cfg.via,
                                                    db.rows[aid].cand, db.rows[aid].proposer)
  }

  /** The receipt `approve` reads back right after its append. */
  function FreshReceipt(cfg: Config, log: seq<Row>, cand: string): Receipt {
    Receipt(LastNum(log), LastHash(log), cfg.fingerprint(cand))
  }

  /** The row as `approve` leaves it passes every gate of the finalizer. */
  lemma JustStampedPasses(cfg: Config, db: Db, audit: seq<Row>, aid: nat, approver: string, e: Entry)
    requires Linked(cfg.hasher, audit) && approver in cfg.approvers && aid in db.rows
    requires DecisionEntry(cfg, db, aid, approver, e)
    requires var log := Append(cfg.hasher, audit, e);
             var receipt := FreshReceipt(cfg, log, db.rows[aid].cand);
             && McpTx(cfg, db, aid, cfg.via, approver, receipt).Ok?
             && McpTx(cfg, db, aid, cfg.via, approver, receipt).value.1 == Stamped
    ensures var log := Append(cfg.hasher, audit, e);
            var receipt := FreshReceipt(cfg, log, db.rows[aid].cand);
            var db' := McpTx(cfg, db, aid, cfg.via, approver, receipt).value.0;
            Linked(cfg.hasher, log) && aid in db'.rows && Accepted(cfg, aid, db'.rows[aid], log)
  {
    var log := Append(cfg.hasher, audit, e);
    var receipt := FreshReceipt(cfg, log, db.rows[aid].cand);
    StampedRow(cfg, db, aid, approver, receipt);
    hide McpTx;
    AppendKeepsChain(cfg.hasher, audit, e);
    LinkedUpto(cfg.hasher, log, |log|);
    hide Linked;
  }

  lemma StampedRow(cfg: Config, db: Db, aid: nat, approver: string, receipt: Receipt)
    requires McpTx(cfg, db, aid, cfg.via, approver, receipt).Ok?
    requires McpTx(cfg, db, aid, cfg.via, approver, receipt).value.1 == Stamped
    ensures var db' := McpTx(cfg, db, aid, cfg.via, approver, receipt).value.0;
            aid in db.rows && aid in db'.rows
            && db'.rows[aid] == FreshlyApproved(db.rows[aid], db.nextEvent, Some(cfg.via), Some(approver),
              Some(receipt))
  {
  }

  /** What `approve` stamps passes the finalizer's gates, now and in every later state of the log and the row. */
  lemma StampedPassesEverAfter(cfg: Config, db: Db, audit: seq<Row>, aid: nat, approver: string, e: Entry,
                               row': QRow, later: seq<Entry>)
    requires Linked(cfg.hasher, audit) && approver in cfg.approvers && aid in db.rows
    requires DecisionEntry(cfg, db, aid, approver, e)
    requires var log := Append(cfg.hasher, audit, e);
             var receipt := FreshReceipt(cfg, log, db.rows[aid].cand);
             && McpTx(cfg, db, aid, cfg.via, approver, receipt).Ok?
             && McpTx(cfg, db, aid, cfg.via, approver, receipt).value.1 == Stamped
             && aid in McpTx(cfg, db, aid, cfg.via, approver, receipt).value.0.rows
             && RowEvolves(McpTx(cfg, db, aid, cfg.via, approver, receipt).value.0.rows[aid], row')
    ensures Accepted(cfg, aid, row', AppendAll(cfg.hasher, Append(cfg.hasher, audit, e), later))
  {
    hide *;
    JustStampedPasses(cfg, db, audit, aid, approver, e);
    var log := Append(cfg.hasher, audit, e);
    var receipt := FreshReceipt(cfg, log, db.rows[aid].cand);
    var row := McpTx(cfg, db, aid, cfg.via, approver, receipt).value.0.rows[aid];
    AcceptedIsStable(cfg, aid, row, row', log, later);
  }
}
