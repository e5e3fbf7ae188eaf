/**
 `hard_delete` as the source writes it (panella/client.py), with any other actors between its
 steps: claim the rows, delete the drawer and its divergent ids, sweep the markers, purge.
 */
module ForgetProgram {
  import opened Basics
  import opened AuditChain
  import opened Queue
  import opened QueueLaws
  import opened Outbox
  import opened Protocol
  import opened ProtocolFrames
  import opened Invariants
  import opened Safety
  import opened Execution

  /** Which store calls raise, and what other actors do before each step. */
  datatype ForgetPlan = ForgetPlan(t0: int, raises: int -> bool, others: int -> seq<Step>)

  datatype Deferred = InFlight | StoreRaised

  ghost predicate Apart(others: int -> seq<Step>, pid: nat) {
    forall i ::
      && !ActsAsForget(others(i), pid)
      && forall k | 0 <= k < |others(i)| :: !others(i)[k].HandEdit?
  }

  ghost predicate Quiet(plan: ForgetPlan) {
    forall i :: plan.others(i) == []
  }

  /** The run goes on with steps of this forget, deletes of these store ids, and what others do as planned. */
  ghost predicate ForgetGoesOn(trace: seq<Step>, longer: seq<Step>, pid: nat, others: int -> seq<Step>,
                               ids: set<string>) {
    && trace <= longer
    && forall k | |trace| <= k < |longer| ::
         || (ForgetStep(longer[k]) && longer[k].pid == pid)
         || (longer[k].StoreDelete? && longer[k].id in ids)
         || exists i :: longer[k] in others(i)
  }

  lemma ForgetGoesFurther(trace: seq<Step>, middle: seq<Step>, longer: seq<Step>, pid: nat, others: int -> seq<Step>,
                          ids: set<string>, more: set<string>)
    requires ForgetGoesOn(trace, middle, pid, others, ids) && ForgetGoesOn(middle, longer, pid, others, more)
    ensures ForgetGoesOn(trace, longer, pid, others, ids + more)
    ensures more <= ids ==> ForgetGoesOn(trace, longer, pid, others, ids)
  {
  }

  lemma ForgetKeepsPrefix(trace: seq<Step>, longer: seq<Step>, pid: nat, others: int -> seq<Step>, ids: set<string>)
    requires ForgetGoesOn(trace, longer, pid, others, ids)
    ensures trace <= longer
  {
  }

  lemma ForgetTakesTurn(trace: seq<Step>, turn: int, pid: nat, others: int -> seq<Step>, ids: set<string>, step: Step)
    requires (ForgetStep(step) && step.pid == pid) || (step.StoreDelete? && step.id in ids)
    ensures ForgetGoesOn(trace, trace + others(turn) + [step], pid, others, ids)
    ensures ForgetGoesOn(trace, trace + others(turn), pid, others, ids)
    ensures ForgetGoesOn(trace, trace + [step], pid, others, ids)
    ensures ForgetGoesOn(trace, trace, pid, others, ids)
  {
    assert forall k | 0 <= k < |others(turn)| :: others(turn)[k] in others(turn);
  }

  /** Nothing but deletes has happened: the same tables, and nothing new or changed in the store. */
  ghost predicate OnlyDeleted(s: State, s': State) {
    s'.db == s.db && s'.store.Keys <= s.store.Keys && forall id | id in s'.store :: s'.store[id] == s.store[id]
  }

  /** If nobody else acts, only deletes have happened, and `changed` says whether one of them found its row. */
  ghost predicate Deletes(plan: ForgetPlan, s: State, s': State, changed: bool) {
    Quiet(plan) ==> OnlyDeleted(s, s') && (changed <==> s'.store != s.store)
  }

  lemma DeletesOn(plan: ForgetPlan, s: State, s1: State, s2: State, first: bool, second: bool)
    requires Deletes(plan, s, s1, first) && Deletes(plan, s1, s2, second)
    ensures Deletes(plan, s, s2, first || second)
  {
    if Quiet(plan) && s1.store != s.store {
      assert exists id :: id in s.store && id !in s1.store;
    }
  }

  lemma NothingDeleted(plan: ForgetPlan, s: State)
    ensures Deletes(plan, s, s, false)
  {
  }

  /** What is gone stays gone while nobody else acts. */
  lemma StaysAway(plan: ForgetPlan, s: State, s': State, changed: bool, ids: set<string>)
    requires Deletes(plan, s, s', changed)
    ensures Quiet(plan) && ids !! s.store.Keys ==> ids !! s'.store.Keys
  {
  }

  lemma OnlyDeletedOn(s: State, s1: State, s2: State)
    requires OnlyDeleted(s, s1) && OnlyDeleted(s1, s2)
    ensures OnlyDeleted(s, s2)
  {
  }

  /** A store call raised, or the store showed a marker of one of these approvals twice, at some moment of the run. */
  ghost predicate RaisedOrTwice(cfg: Config, base: State, trace: seq<Step>, plan: ForgetPlan, claimed: set<nat>) {
    || (exists i :: plan.raises(i))
    || exists k, a | 0 <= k <= |trace| && a in claimed :: |MarkerHits(Run(cfg, base, trace[..k]), a)| > 1
  }

  /** The same of a call that nobody disturbs, told from the state before it. */
  ghost predicate FaultyStore(s: State, plan: ForgetPlan, claimed: set<nat>) {
    (exists i :: plan.raises(i)) || exists a | a in claimed :: |MarkerHits(s, a)| > 1
  }

  lemma FewerHits(s: State, s': State, a: nat)
    requires OnlyDeleted(s, s')
    ensures |MarkerHits(s', a)| <= |MarkerHits(s, a)|
  {
    assert MarkerHits(s', a) <= MarkerHits(s, a);
    SubsetIsSmaller(MarkerHits(s', a), MarkerHits(s, a));
  }

  lemma SubsetIsSmaller(few: set<string>, many: set<string>)
    requires few <= many
    ensures |few| <= |many|
  {
    assert many == few + (many - few);
  }

  lemma LongerStillRaised(cfg: Config, base: State, trace: seq<Step>, longer: seq<Step>, plan: ForgetPlan,
                          claimed: set<nat>)
    requires RaisedOrTwice(cfg, base, trace, plan, claimed) && trace <= longer
    ensures RaisedOrTwice(cfg, base, longer, plan, claimed)
  {
    hide Run, MarkerHits;
    if k, a :| 0 <= k <= |trace| && a in claimed && |MarkerHits(Run(cfg, base, trace[..k]), a)| > 1 {
      assert longer[..k] == trace[..k];
    }
  }

  lemma TwiceAt(cfg: Config, base: State, trace: seq<Step>, plan: ForgetPlan, claimed: set<nat>, a: nat)
    requires a in claimed && |MarkerHits(Run(cfg, base, trace), a)| > 1
    ensures RaisedOrTwice(cfg, base, trace, plan, claimed)
  {
    assert trace[..|trace|] == trace;
  }

  lemma StillFaulty(s: State, s': State, plan: ForgetPlan, claimed: set<nat>)
    requires OnlyDeleted(s, s') && FaultyStore(s', plan, claimed)
    ensures FaultyStore(s, plan, claimed)
  {
    hide OnlyDeleted, MarkerHits;
    if a :| a in claimed && |MarkerHits(s', a)| > 1 {
      FewerHits(s, s', a);
    }
  }

  /** The forget stands between two sweeps: open, nothing looked up, `swept` done. */
  predicate Between(forgets: map<nat, Forget>, pid: nat, drawer: string, claimed: set<nat>, swept: set<nat>) {
    && pid in forgets && forgets[pid].open && forgets[pid].found.None?
    && forgets[pid].drawer == drawer && forgets[pid].claimed == claimed && forgets[pid].swept == swept
  }

  lemma LookupTells(cfg: Config, s: State, pid: nat, aid: nat, drawer: string, claimed: set<nat>, swept: set<nat>)
    requires Between(s.forgets, pid, drawer, claimed, swept) && aid in claimed - swept
    ensures var s' := Apply(cfg, s, SweepFind(pid, aid));
            && s'.db == s.db && s'.store == s.store && pid in s'.forgets
            && (!s'.forgets[pid].open <==> |MarkerHits(s, aid)| > 1)
            && (s'.forgets[pid].open && s'.forgets[pid].found.Some? ==> s'.forgets[pid].found.value.1 in s.store)
            && (s'.forgets[pid].open && s'.forgets[pid].found.None?
                ==> Between(s'.forgets, pid, drawer, claimed, swept + {aid}))
            && (s'.forgets[pid].open && s'.forgets[pid].found.Some?
                ==> s'.forgets[pid].found.value.0 == aid
                    && s'.forgets == s.forgets[pid := s.forgets[pid].(found := s'.forgets[pid].found)])
  {
  }

  lemma DeleteTells(cfg: Config, s: State, pid: nat, drawer: string, claimed: set<nat>, swept: set<nat>)
    requires pid in s.forgets && s.forgets[pid].open && s.forgets[pid].found.Some?
    requires s.forgets[pid] == Forget(drawer, claimed, swept, s.forgets[pid].found, true)
    ensures var s' := Apply(cfg, s, SweepDelete(pid));
            && s'.db == s.db && s'.store == s.store - {s.forgets[pid].found.value.1}
            && Between(s'.forgets, pid, drawer, claimed, swept + {s.forgets[pid].found.value.0})
  {
  }

  /** A fresh scan for the drawer is empty. */
  predicate NothingAbout(cfg: Config, db: Db, drawer: string) {
    AboutRows(cfg, db, drawer) == {} && AboutEvents(cfg, db, drawer) == {}
  }

  lemma NothingNames(cfg: Config, db: Db, drawer: string)
    requires NothingAbout(cfg, db, drawer)
    ensures forall a | a in db.rows :: cfg.memoryId(db.rows[a].cand) != Some(drawer)
    ensures forall e | e in db.events :: db.events[e].completed != Some(drawer) && db.events[e].identity != Some(drawer)
  {
    AboutIff(cfg, db, drawer);
    hide AboutRows, AboutEvents;
    forall a | a in db.rows ensures cfg.memoryId(db.rows[a].cand) != Some(drawer) {
      assert a !in AboutRows(cfg, db, drawer);
    }
    forall e | e in db.events ensures !Names(db.events[e], drawer) {
      assert e !in AboutEvents(cfg, db, drawer);
    }
  }

  lemma PurgeTells(cfg: Config, s: State, pid: nat, drawer: string, claimed: set<nat>)
    requires Sound(s.db) && Between(s.forgets, pid, drawer, claimed, claimed)
    ensures var s' := Apply(cfg, s, Step.Purge(pid));
            PurgeReady(s, pid) && s'.store == s.store && NothingAbout(cfg, s'.db, drawer)
  {
    PurgeIsExact(cfg, s.db, drawer);
    hide AboutRows, AboutEvents;
  }

  lemma TableStepTells(cfg: Config, s: State, step: Step)
    requires step.StoreDelete? || step.ForgetAbort?
    ensures OnlyDeleted(s, Apply(cfg, s, step))
    ensures step.StoreDelete? ==> Apply(cfg, s, step).forgets == s.forgets
                                  && Apply(cfg, s, step).store == s.store - {step.id}
    ensures step.ForgetAbort? ==> Apply(cfg, s, step).store == s.store
  {
  }

  /** One step of this forget, after whatever others do. */
  method ForgetTurn(world: World, others: seq<Step>, step: Step, ghost base: State, ghost trace: seq<Step>)
    returns (ghost before: State, ghost longer: seq<Step>)
    requires world.Ready() && world.S() == Run(world.outbox.cfg, base, trace) && !step.HandEdit?
    requires forall k | 0 <= k < |others| :: !others[k].HandEdit?
    modifies world, world.outbox, world.log
    ensures world.Ready() && world.S() == Run(world.outbox.cfg, base, longer) && Sound(before.db)
    ensures longer == trace + others + [step] && world.S() == Apply(world.outbox.cfg, before, step)
    ensures before == Run(world.outbox.cfg, base, trace + others)
    ensures others == [] ==> before == old(world.S())
    ensures forall p: nat | !ActsAsForget(others, p) :: SameAt(old(world.forgets), before.forgets, p)
  {
    hide ActsAsForget, ActsAsWorker, Apply, Run, SameAt, Sound;
    longer := world.Interleave(others, base, trace);
    before := world.S();
    RunOne(world.outbox.cfg, base, longer, step);
    world.Perform(step);
    longer := longer + [step];
  }

  /** `_rtbf_marker_sweep` for one claimed approval; false when a lookup or a delete raised. */
  method SweepOne(world: World, pid: nat, aid: nat, plan: ForgetPlan, turn: int, ghost base: State,
                  ghost trace: seq<Step>, ghost drawer: string, ghost claimed: set<nat>, ghost swept: set<nat>)
    returns (ok: bool, removed: bool, ghost longer: seq<Step>)
    requires world.Ready() && world.S() == Run(world.outbox.cfg, base, trace) && Apart(plan.others, pid)
    requires Between(world.forgets, pid, drawer, claimed, swept) && aid in claimed - swept
    modifies world, world.outbox, world.log
    ensures world.Ready() && world.S() == Run(world.outbox.cfg, base, longer)
    ensures ForgetGoesOn(trace, longer, pid, plan.others, {})
    ensures ok ==> Between(world.forgets, pid, drawer, claimed, swept + {aid})
    ensures Deletes(plan, old(world.S()), world.S(), removed)
    ensures !ok ==> RaisedOrTwice(world.outbox.cfg, base, longer, plan, claimed)
    ensures !ok && Quiet(plan) ==> FaultyStore(old(world.S()), plan, claimed)
  {
    hide ActsAsForget, Apply, Deletes, ForgetGoesOn, OnlyDeleted, RaisedOrTwice, Run, Sound;
    ok, removed, longer := false, false, trace;
    ForgetTakesTurn(trace, turn, pid, plan.others, {}, SweepFind(pid, aid));
    NothingDeleted(plan, world.S());
    ghost var start := world.S();
    if plan.raises(turn) {
      Raises(world.outbox.cfg, base, trace, plan, claimed, turn);
      return;
    }
    ghost var before;
    before, longer := ForgetTurn(world, plan.others(turn), SweepFind(pid, aid), base, longer);
    assert Between(before.forgets, pid, drawer, claimed, swept);
    LookupTells(world.outbox.cfg, before, pid, aid, drawer, claimed, swept);
    SameStoreDeletes(plan, turn, start, before, world.S());
    if !world.forgets[pid].open {
      TwiceAt(world.outbox.cfg, base, trace + plan.others(turn), plan, claimed, aid);
      LongerStillRaised(world.outbox.cfg, base, trace + plan.others(turn), longer, plan, claimed);
      return;
    }
    if world.forgets[pid].found.Some? {
      if plan.raises(turn + 1) {
        Raises(world.outbox.cfg, base, longer, plan, claimed, turn + 1);
        return;
      }
      ghost var found, middle, looked := world.forgets[pid].found, longer, world.S();
      assert world.forgets[pid] == Forget(drawer, claimed, swept, found, true);
      before, longer := ForgetTurn(world, plan.others(turn + 1), SweepDelete(pid), base, longer);
      DeleteTells(world.outbox.cfg, before, pid, drawer, claimed, swept);
      FoundIsDeleted(plan, turn + 1, looked, before, world.S(), found.value.1);
      DeletesOn(plan, start, looked, world.S(), false, true);
      ForgetTakesTurn(middle, turn + 1, pid, plan.others, {}, SweepDelete(pid));
      ForgetGoesFurther(trace, middle, longer, pid, plan.others, {}, {});
      removed := true;
    }
    ok := true;
  }

  lemma Raises(cfg: Config, base: State, trace: seq<Step>, plan: ForgetPlan, claimed: set<nat>, turn: int)
    requires plan.raises(turn)
    ensures RaisedOrTwice(cfg, base, trace, plan, claimed)
  {
  }

  lemma SameStoreDeletes(plan: ForgetPlan, turn: int, s: State, before: State, s': State)
    requires (plan.others(turn) == [] ==> before == s) && s'.db == before.db && s'.store == before.store
    ensures Deletes(plan, s, s', false)
  {
  }

  lemma FoundIsDeleted(plan: ForgetPlan, turn: int, s: State, before: State, s': State, id: string)
    requires (plan.others(turn) == [] ==> before == s) && s'.db == before.db && s'.store == before.store - {id}
    requires id in s.store
    ensures Deletes(plan, s, s', true)
  {
    assert id !in s'.store;
  }

  /** One upstream delete by id: whether the row was there. None when it raised. */
  method DeleteRow(world: World, id: string, plan: ForgetPlan, turn: int, ghost base: State, ghost trace: seq<Step>,
                   ghost pid: nat, ghost drawer: string, ghost claimed: set<nat>)
    returns (existed: Option<bool>, ghost longer: seq<Step>)
    requires world.Ready() && world.S() == Run(world.outbox.cfg, base, trace) && Apart(plan.others, pid)
    requires Between(world.forgets, pid, drawer, claimed, {})
    modifies world, world.outbox, world.log
    ensures world.Ready() && world.S() == Run(world.outbox.cfg, base, longer)
    ensures longer == if existed.None? then trace else trace + plan.others(turn) + [StoreDelete(id)]
    ensures ForgetGoesOn(trace, longer, pid, plan.others, {id})
    ensures Between(world.forgets, pid, drawer, claimed, {})
    ensures Deletes(plan, old(world.S()), world.S(), existed.Some? && existed.value)
    ensures existed.None? <==> plan.raises(turn)
    ensures existed.Some? ==> id !in world.store
  {
    hide ActsAsForget, ActsAsWorker, Apply, Deletes, ForgetGoesOn, OnlyDeleted, Run, Sound;
    existed, longer := None, trace;
    ghost var start := world.S();
    NothingDeleted(plan, start);
    ForgetTakesTurn(trace, turn, pid, plan.others, {id}, StoreDelete(id));
    if plan.raises(turn) {
      return;
    }
    longer := world.Interleave(plan.others(turn), base, longer);
    existed := Some(id in world.store);
    TableStepTells(world.outbox.cfg, world.S(), StoreDelete(id));
    ghost var before;
    before, longer := ForgetTurn(world, [], StoreDelete(id), base, longer);
    if existed.value {
      PresentIsDeleted(plan, turn, start, before, world.S(), id);
    } else {
      AbsentIsDeleted(plan, turn, start, before, world.S(), id);
    }
  }

  lemma PresentIsDeleted(plan: ForgetPlan, turn: int, s: State, before: State, s': State, id: string)
    requires (plan.others(turn) == [] ==> before == s) && id in before.store
    requires OnlyDeleted(before, s') && s'.store == before.store - {id}
    ensures Deletes(plan, s, s', true)
  {
    assert id !in s'.store;
  }

  lemma AbsentIsDeleted(plan: ForgetPlan, turn: int, s: State, before: State, s': State, id: string)
    requires (plan.others(turn) == [] ==> before == s) && id !in before.store
    requires OnlyDeleted(before, s') && s'.store == before.store - {id}
    ensures Deletes(plan, s, s', false)
  {
    assert before.store - {id} == before.store;
  }

  /** Every one of these ids has been deleted from the store in this stretch of the run. */
  ghost predicate AllDeleted(trace: seq<Step>, longer: seq<Step>, ids: set<string>) {
    forall id | id in ids :: exists k | |trace| <= k < |longer| :: longer[k] == StoreDelete(id)
  }

  lemma OneMoreDeleted(trace: seq<Step>, middle: seq<Step>, longer: seq<Step>, ids: set<string>, id: string)
    requires trace <= middle && AllDeleted(trace, middle, ids) && middle <= longer && |middle| < |longer|
    requires longer[|longer| - 1] == StoreDelete(id)
    ensures AllDeleted(trace, longer, ids + {id})
  {
    forall x | x in ids + {id} ensures exists k | |trace| <= k < |longer| :: longer[k] == StoreDelete(x) {
      if x in ids {
        var k :| |trace| <= k < |middle| && middle[k] == StoreDelete(x);
        assert longer[k] == StoreDelete(x);
      }
    }
  }

  /**
   The divergent-id cascade: the ids that the drawer's events are recorded under at the moment of
   the scan are each deleted upstream, unless a delete raises.
   */
  method DeleteDivergent(world: World, plan: ForgetPlan, ghost base: State, ghost trace: seq<Step>, ghost pid: nat,
                         drawer: string, ghost claimed: set<nat>)
    returns (ok: Option<bool>, turn: int, ghost ids: set<string>, ghost longer: seq<Step>)
    requires world.Ready() && world.S() == Run(world.outbox.cfg, base, trace) && Apart(plan.others, pid)
    requires Between(world.forgets, pid, drawer, claimed, {})
    modifies world, world.outbox, world.log
    ensures world.Ready() && world.S() == Run(world.outbox.cfg, base, longer)
    ensures ForgetGoesOn(trace, longer, pid, plan.others, ids) && trace + plan.others(1) <= longer
    ensures ids == DivergentIds(world.outbox.cfg, Run(world.outbox.cfg, base, trace + plan.others(1)).db, drawer)
    ensures ok.Some? ==> AllDeleted(trace, longer, ids)
    ensures ok.Some? && Quiet(plan) ==> ids !! world.store.Keys
    ensures Between(world.forgets, pid, drawer, claimed, {})
    ensures Quiet(plan) ==> OnlyDeleted(old(world.S()), world.S())
    ensures ok.Some? ==> Deletes(plan, old(world.S()), world.S(), ok.value)
    ensures ok.None? ==> exists i :: plan.raises(i)
  {
    hide AboutEvents, AboutRows, ActsAsForget, ActsAsWorker, AllDeleted, Deletes, DivergentIds, ForgetGoesOn,
      OnlyDeleted, Run, Sound;
    ghost var start := world.S();
    longer := world.Interleave(plan.others(1), base, trace);
    ghost var scanned, s := longer, world.S();
    SameStoreDeletes(plan, 1, start, s, s);
    var _, _, extra := world.outbox.ScanSidecar(drawer);
    ids := extra;
    ForgetTakesTurn(trace, 1, pid, plan.others, ids, ForgetAbort(pid));
    ok, turn, longer := DeleteAll(world, extra, plan, base, longer, pid, drawer, claimed);
    ForgetGoesFurther(trace, scanned, longer, pid, plan.others, ids, ids);
    if ok.Some? {
      DeletedSince(trace, scanned, longer, ids);
      DeletesOn(plan, start, s, world.S(), false, ok.value);
    }
  }

  /** These ids are deleted one by one, unless a delete raises. */
  method DeleteAll(world: World, ids: set<string>, plan: ForgetPlan, ghost base: State, ghost trace: seq<Step>,
                   ghost pid: nat, ghost drawer: string, ghost claimed: set<nat>)
    returns (ok: Option<bool>, turn: int, ghost longer: seq<Step>)
    requires world.Ready() && world.S() == Run(world.outbox.cfg, base, trace) && Apart(plan.others, pid)
    requires Between(world.forgets, pid, drawer, claimed, {})
    modifies world, world.outbox, world.log
    ensures world.Ready() && world.S() == Run(world.outbox.cfg, base, longer) && trace <= longer
    ensures ForgetGoesOn(trace, longer, pid, plan.others, ids)
    ensures ok.Some? ==> AllDeleted(trace, longer, ids) && (Quiet(plan) ==> ids !! world.store.Keys)
    ensures Between(world.forgets, pid, drawer, claimed, {})
    ensures Quiet(plan) ==> OnlyDeleted(old(world.S()), world.S())
    ensures ok.Some? ==> Deletes(plan, old(world.S()), world.S(), ok.value)
    ensures ok.None? ==> exists i :: plan.raises(i)
  {
    hide ActsAsForget, ActsAsWorker, AllDeleted, Apart, Apply, Between, Deletes, ForgetGoesOn, OnlyDeleted, Quiet, Run,
      Sound, WithoutThese;
    ghost var done: set<string> := {};
    var left := ids;
    longer := trace;
    ghost var start := world.S();
    WithoutNone(plan, start);
    NothingDeleted(plan, start);
    ForgetTakesTurn(trace, 0, pid, plan.others, ids, ForgetAbort(pid));
    NoneDeletedYet(trace, longer);
    ok, turn := Some(false), 2;
    while left != {}
      invariant world.Ready() && world.S() == Run(world.outbox.cfg, base, longer) && trace <= longer
      invariant Between(world.forgets, pid, drawer, claimed, {})
      invariant ids == done + left && AllDeleted(trace, longer, done)
      invariant ForgetGoesOn(trace, longer, pid, plan.others, ids)
      invariant ok.Some? && WithoutThese(plan, start, world.S(), done) && Deletes(plan, start, world.S(), ok.value)
      decreases |left|
    {
      var id :| id in left;
      left := left - {id};
      ok, longer := DeleteNext(world, id, ok.value, plan, turn, base, trace, longer, pid, drawer, claimed, start, ids,
        done);
      turn := turn + 1;
      done := done + {id};
      if ok.None? {
        return;
      }
    }
    WithoutAll(plan, start, world.S(), ids);
  }

  /** One delete of the cascade; `sofar` says whether an earlier one found its row. */
  method DeleteNext(world: World, id: string, sofar: bool, plan: ForgetPlan, turn: int, ghost base: State,
                    ghost first: seq<Step>, ghost trace: seq<Step>, ghost pid: nat, ghost drawer: string,
                    ghost claimed: set<nat>, ghost start: State, ghost ids: set<string>, ghost done: set<string>)
    returns (ok: Option<bool>, ghost longer: seq<Step>)
    requires world.Ready() && world.S() == Run(world.outbox.cfg, base, trace) && Apart(plan.others, pid)
    requires Between(world.forgets, pid, drawer, claimed, {}) && id in ids && first <= trace
    requires ForgetGoesOn(first, trace, pid, plan.others, ids) && AllDeleted(first, trace, done)
    requires WithoutThese(plan, start, world.S(), done) && Deletes(plan, start, world.S(), sofar)
    modifies world, world.outbox, world.log
    ensures world.Ready() && world.S() == Run(world.outbox.cfg, base, longer) && first <= longer
    ensures Between(world.forgets, pid, drawer, claimed, {}) && ForgetGoesOn(first, longer, pid, plan.others, ids)
    ensures ok.Some? ==> AllDeleted(first, longer, done + {id})
    ensures ok.Some? ==> WithoutThese(plan, start, world.S(), done + {id})
    ensures Quiet(plan) ==> OnlyDeleted(start, world.S())
    ensures ok.Some? ==> Deletes(plan, start, world.S(), ok.value)
    ensures ok.None? ==> plan.raises(turn)
  {
    hide ActsAsForget, ActsAsWorker, AllDeleted, Apart, Apply, Between, Deletes, ForgetGoesOn, OnlyDeleted, Quiet, Run,
      Sound, WithoutThese;
    ghost var s := world.S();
    var existed;
    existed, longer := DeleteRow(world, id, plan, turn, base, trace, pid, drawer, claimed);
    ForgetGoesFurther(first, trace, longer, pid, plan.others, ids, {id});
    ForgetKeepsPrefix(trace, longer, pid, plan.others, {id});
    ghost var found := existed.Some? && existed.value;
    WithoutOneMore(plan, start, s, world.S(), done, id, found);
    DeletesOn(plan, start, s, world.S(), sofar, found);
    WithoutAll(plan, start, world.S(), done);
    if existed.Some? {
      OneMoreDeleted(first, trace, longer, done, id);
    }
    ok := if existed.None? then None else Some(sofar || existed.value);
  }

  /** If nobody else acts, nothing but deletes has happened since, and these ids are gone. */
  ghost predicate WithoutThese(plan: ForgetPlan, start: State, s: State, ids: set<string>) {
    Quiet(plan) ==> OnlyDeleted(start, s) && ids !! s.store.Keys
  }

  lemma WithoutNone(plan: ForgetPlan, s: State)
    ensures WithoutThese(plan, s, s, {})
  {
  }

  lemma WithoutAll(plan: ForgetPlan, start: State, s: State, ids: set<string>)
    requires WithoutThese(plan, start, s, ids)
    ensures Quiet(plan) ==> OnlyDeleted(start, s) && ids !! s.store.Keys
  {
  }

  lemma WithoutOneMore(plan: ForgetPlan, start: State, s: State, s': State, ids: set<string>, id: string, found: bool)
    requires WithoutThese(plan, start, s, ids) && Deletes(plan, s, s', found)
    ensures WithoutThese(plan, start, s', ids) && (id !in s'.store ==> WithoutThese(plan, start, s', ids + {id}))
  {
  }

  lemma DeletedSince(trace: seq<Step>, middle: seq<Step>, longer: seq<Step>, ids: set<string>)
    requires trace <= middle && AllDeleted(middle, longer, ids)
    ensures AllDeleted(trace, longer, ids)
  {
  }

  lemma NoneDeletedYet(trace: seq<Step>, longer: seq<Step>)
    ensures AllDeleted(trace, longer, {})
  {
  }

  /** At some moment of this stretch of the run no active store row carried the marker of `aid`. */
  ghost predicate SweptOnce(cfg: Config, base: State, trace: seq<Step>, longer: seq<Step>, aid: nat) {
    exists k | |trace| < k <= |longer| :: MarkerHits(Run(cfg, base, longer[..k]), aid) == {}
  }

  /** A marker enters the swept set only when no active store row carries it any more. */
  lemma {:induction false} SweepingEmpties(cfg: Config, base: State, trace: seq<Step>, longer: seq<Step>, pid: nat,
                                           aid: nat)
    requires Inv(cfg, base) && CarefulRun(cfg, base, longer) && trace <= longer
    requires var s := Run(cfg, base, trace); Sweeping(s, pid) && aid !in s.forgets[pid].swept
    requires var s := Run(cfg, base, longer); Sweeping(s, pid) && aid in s.forgets[pid].swept
    ensures SweptOnce(cfg, base, trace, longer, aid)
    decreases |longer|
  {
    hide Apply, CarefulRun, Inv, Careful;
    assert trace == longer[..|trace|] && longer == longer[..|longer|];
    assert |trace| < |longer|;
    var n := |longer| - 1;
    var s, s' := Run(cfg, base, longer[..n]), Run(cfg, base, longer);
    assert s' == Apply(cfg, s, longer[n]);
    PrefixIsCareful(cfg, base, longer, n);
    ForgetMoves(cfg, s, longer[n], pid);
    assert Sweeping(s, pid);
    if aid in s.forgets[pid].swept {
      SweepingEmpties(cfg, base, trace, longer[..n], pid, aid);
      var k :| |trace| < k <= n && MarkerHits(Run(cfg, base, longer[..n][..k]), aid) == {};
      assert longer[..n][..k] == longer[..k];
    } else {
      InvKept(cfg, base, longer[..n]);
      NoMarkerLeft(cfg, s, longer[n], pid, aid);
    }
  }

  lemma NoMarkerLeft(cfg: Config, s: State, step: Step, pid: nat, aid: nat)
    requires Inv(cfg, s) && Sweeping(s, pid) && Sweeping(Apply(cfg, s, step), pid)
    requires aid !in s.forgets[pid].swept && aid in Apply(cfg, s, step).forgets[pid].swept
    ensures MarkerHits(Apply(cfg, s, step), aid) == {}
  {
    hide Apply, ForgetInv, MarkInv;
    forall id | id in Apply(cfg, s, step).store ensures !Carries(Apply(cfg, s, step).store[id], aid) {
      SweptMarkIsGone(cfg, s, step, pid, aid, id);
    }
  }

  /**
   `_rtbf_marker_sweep`: every claimed approval, or stop at the first error. After a complete sweep
   of a careful run each claimed marker was gone from the store at some moment, and whatever has
   appeared since is in flight or pending.
   */
  method SweepMarkers(world: World, pid: nat, ids: seq<nat>, plan: ForgetPlan, first: int, ghost base: State,
                      ghost trace: seq<Step>, ghost drawer: string, ghost claimed: set<nat>)
    returns (ok: bool, removed: bool, ghost longer: seq<Step>)
    requires world.Ready() && world.S() == Run(world.outbox.cfg, base, trace) && Apart(plan.others, pid)
    requires Between(world.forgets, pid, drawer, claimed, {}) && forall a: nat :: a in ids <==> a in claimed
    requires forall i, j | 0 <= i < j < |ids| :: ids[i] < ids[j]
    modifies world, world.outbox, world.log
    ensures world.Ready() && world.S() == Run(world.outbox.cfg, base, longer)
    ensures ForgetGoesOn(trace, longer, pid, plan.others, {})
    ensures ok ==> Between(world.forgets, pid, drawer, claimed, claimed)
    ensures ok && Inv(world.outbox.cfg, base) && CarefulRun(world.outbox.cfg, base, longer) ==>
              && (forall a | a in claimed :: SweptOnce(world.outbox.cfg, base, trace, longer, a))
              && SweptClean(world.S(), claimed)
    ensures Deletes(plan, old(world.S()), world.S(), removed)
    ensures !ok ==> RaisedOrTwice(world.outbox.cfg, base, longer, plan, claimed)
    ensures !ok && Quiet(plan) ==> FaultyStore(old(world.S()), plan, claimed)
  {
    hide Apart, Apply, CarefulRun, Between, Deletes, FaultyStore, ForgetGoesOn, Inv, OnlyDeleted, Quiet, RaisedOrTwice,
      Run, Sound, SweptClean, SweptOnce;
    ok, removed, longer := true, false, trace;
    ghost var start := world.S();
    NothingDeleted(plan, start);
    ghost var swept: set<nat> := {};
    ForgetTakesTurn(trace, 0, pid, plan.others, {}, ForgetAbort(pid));
    for k := 0 to |ids|
      invariant world.Ready() && world.S() == Run(world.outbox.cfg, base, longer)
      invariant swept == (set a | a in ids[..k]) && Between(world.forgets, pid, drawer, claimed, swept)
      invariant ForgetGoesOn(trace, longer, pid, plan.others, {}) && Deletes(plan, start, world.S(), removed)
    {
      assert ids[k] in ids && ids[..k + 1] == ids[..k] + [ids[k]];
      ghost var middle, s := longer, world.S();
      var one;
      ok, one, longer := SweepOne(world, pid, ids[k], plan, first + 2 * k, base, longer, drawer, claimed, swept);
      ForgetGoesFurther(trace, middle, longer, pid, plan.others, {}, {});
      DeletesOn(plan, start, s, world.S(), removed, one);
      if !ok && Quiet(plan) {
        DeletesIfQuiet(plan, start, s, removed);
        StillFaulty(start, s, plan, claimed);
      }
      removed := removed || one;
      if !ok {
        return;
      }
      swept := swept + {ids[k]};
    }
    assert ids[..|ids|] == ids;
    assert swept == claimed;
    ok := true;
    if Inv(world.outbox.cfg, base) && CarefulRun(world.outbox.cfg, base, longer) {
      FullySwept(world.outbox.cfg, base, trace, longer, pid, drawer, plan, claimed);
    }
  }

  lemma FullySwept(cfg: Config, base: State, trace: seq<Step>, longer: seq<Step>, pid: nat, drawer: string,
                   plan: ForgetPlan, claimed: set<nat>)
    requires Inv(cfg, base) && CarefulRun(cfg, base, longer) && ForgetGoesOn(trace, longer, pid, plan.others, {})
    requires Between(Run(cfg, base, trace).forgets, pid, drawer, claimed, {})
    requires Between(Run(cfg, base, longer).forgets, pid, drawer, claimed, claimed)
    ensures forall a | a in claimed :: SweptOnce(cfg, base, trace, longer, a)
    ensures SweptClean(Run(cfg, base, longer), claimed)
  {
    InvKept(cfg, base, longer);
    SweptIsClean(Run(cfg, base, longer), pid);
    hide Inv, CarefulRun, Run, SweptOnce;
    forall a | a in claimed ensures SweptOnce(cfg, base, trace, longer, a) {
      SweepingEmpties(cfg, base, trace, longer, pid, a);
    }
  }

  // ---------------------------------------------------------------- the whole call

  /** The claim is the first step of the run, and it succeeded. */
  ghost predicate ClaimedFirst(cfg: Config, base: State, trace: seq<Step>, pid: nat, drawer: string, t0: int) {
    && trace != [] && trace[0] == Step.ForgetClaim(pid, drawer, t0)
    && pid !in base.forgets && t0 <= base.now && !FinalizeInFlight(cfg, base.db, drawer, t0)
  }

  lemma ClaimHolds(cfg: Config, s: State, pid: nat, drawer: string, t0: int, a: nat)
    requires ClaimedFirst(cfg, s, [Step.ForgetClaim(pid, drawer, t0)], pid, drawer, t0)
    requires a in AboutRows(cfg, s.db, drawer)
    ensures var s' := Apply(cfg, s, Step.ForgetClaim(pid, drawer, t0));
            HeldFor(cfg, s'.db, a, drawer) && RecordedId(s'.db, a) == RecordedId(s.db, a)
  {
  }

  /**
   However far a forget got, whoever else moved: what it claimed and nobody has purged is still
   held for the drawer, under the same recorded store id.
   */
  lemma HoldSurvives(cfg: Config, base: State, trace: seq<Step>, pid: nat, drawer: string, t0: int, a: nat)
    requires Inv(cfg, base) && CarefulRun(cfg, base, trace) && ClaimedFirst(cfg, base, trace, pid, drawer, t0)
    requires a in AboutRows(cfg, base.db, drawer) && a in Run(cfg, base, trace).db.rows
    ensures var db' := Run(cfg, base, trace).db;
            HeldFor(cfg, db', a, drawer) && RecordedId(db', a) == RecordedId(base.db, a)
  {
    hide Inv, CarefulRun, AboutRows, HeldFor, RecordedId, Apply, Careful;
    var claim := Step.ForgetClaim(pid, drawer, t0);
    ClaimHolds(cfg, base, pid, drawer, t0, a);
    assert trace == [claim] + trace[1..];
    RunConcat(cfg, base, [claim], trace[1..]);
    RunOne(cfg, base, [], claim);
    assert [] + [claim] == [claim];
    SuffixIsCareful(cfg, base, [claim], trace[1..]);
    PrefixIsCareful(cfg, base, trace, 1);
    InvKept(cfg, base, [claim]);
    ForgetWins(cfg, Run(cfg, base, [claim]), trace[1..], a, drawer);
  }

  /** A run whose last step is the purge of a fully swept forget has honoured it. */
  lemma PurgedRunIsComplete(cfg: Config, base: State, front: seq<Step>, pid: nat)
    requires Inv(cfg, base) && CarefulRun(cfg, base, front + [Step.Purge(pid)])
    requires PurgeReady(Run(cfg, base, front), pid)
    ensures var s := Run(cfg, base, front + [Step.Purge(pid)]);
            var claimed := Run(cfg, base, front).forgets[pid].claimed;
            (forall a | a in claimed :: a !in s.db.rows) && SweptClean(s, claimed)
  {
    hide Inv, CarefulRun, Apply, Careful, SweptClean;
    PrefixIsCareful(cfg, base, front + [Step.Purge(pid)], |front|);
    assert (front + [Step.Purge(pid)])[..|front|] == front;
    RunOne(cfg, base, front, Step.Purge(pid));
    InvKept(cfg, base, front);
    ForgetIsComplete(cfg, Run(cfg, base, front), pid);
  }

  /** What a forget needs to find a drawer again: the rows, their bytes and links, and the recorded store ids. */
  ghost predicate SameMapping(db: Db, db': Db) {
    && db'.rows.Keys == db.rows.Keys && db'.events == db.events
    && forall a | a in db.rows :: db'.rows[a].cand == db.rows[a].cand && db'.rows[a].event == db.rows[a].event
  }

  /** Every approval that was about the drawer is gone, and no store row is marked for one but in flight or pending. */
  ghost predicate Honoured(cfg: Config, base: State, s: State, drawer: string) {
    && (forall a | a in AboutRows(cfg, base.db, drawer) :: a !in s.db.rows)
    && SweptClean(s, AboutRows(cfg, base.db, drawer))
  }

  /** Every such approval that is still there is held for the drawer, under the same recorded store id. */
  ghost predicate StillHeld(cfg: Config, base: State, s: State, drawer: string) {
    forall a | a in AboutRows(cfg, base.db, drawer) && a in s.db.rows ::
      HeldFor(cfg, s.db, a, drawer) && RecordedId(s.db, a) == RecordedId(base.db, a)
  }

  /** The run ends with the purge of this forget, all of whose claimed markers have been swept. */
  ghost predicate EndsInPurge(cfg: Config, base: State, trace: seq<Step>, pid: nat, drawer: string, claimed: set<nat>) {
    && trace != [] && trace[|trace| - 1] == Step.Purge(pid)
    && var s := Run(cfg, base, trace[..|trace| - 1]);
       PurgeReady(s, pid) && s.forgets[pid].drawer == drawer && s.forgets[pid].claimed == claimed
  }

  /** Deleted are the drawer id and the divergent ids, as a scan found them at some moment of the run. */
  ghost predicate Cascaded(cfg: Config, base: State, trace: seq<Step>, drawer: string, ids: set<string>) {
    && AllDeleted([], trace, ids)
    && exists k | 0 <= k <= |trace| :: ids == {drawer} + DivergentIds(cfg, Run(cfg, base, trace[..k]).db, drawer)
  }

  /**
   `hard_delete`. The call is a run of the protocol: its own steps, deletes of the drawer id and of
   the divergent ids the scan found, and whatever others do as planned. It is deferred, with nothing
   changed, exactly when a live finalize holds one of the drawer's rows. A normal return ends in its
   purge after a full sweep: nothing in the queue is about the drawer, every id of the cascade was
   deleted, and after a careful run every claimed approval is gone and no store row is marked for one
   but in flight or pending. If a lookup or a delete raised, then after a careful run, whoever else
   moved, every claimed approval that nobody has purged is still held for the drawer under the same
   recorded store id, which is what a retry needs (`Safety.RetryFindsTheSame`).
   */
  method HardDelete(world: World, pid: nat, drawer: string, plan: ForgetPlan)
    returns (r: Result<bool, Deferred>, ghost ids: set<string>, ghost trace: seq<Step>)
    requires world.Ready() && pid !in world.forgets && plan.t0 <= world.now && Apart(plan.others, pid)
    modifies world, world.outbox, world.log
    ensures world.Ready() && world.S() == Run(world.outbox.cfg, old(world.S()), trace)
    ensures ForgetGoesOn([], trace, pid, plan.others, ids)
    ensures r == Err(InFlight) <==> FinalizeInFlight(world.outbox.cfg, old(world.S()).db, drawer, plan.t0)
    ensures r == Err(InFlight) <==>
              exists a | Concerns(world.outbox.cfg, old(world.S()).db, a, drawer) ::
                HeldLive(old(world.outbox.rows)[a], plan.t0)
    ensures r == Err(InFlight) ==> trace == [] && world.S() == old(world.S())
    ensures r.Ok? ==>
              && (forall a | a in world.outbox.rows ::
                    world.outbox.cfg.memoryId(world.outbox.rows[a].cand) != Some(drawer))
              && forall e | e in world.outbox.events ::
                   world.outbox.events[e].completed != Some(drawer) && world.outbox.events[e].identity != Some(drawer)
    ensures r != Err(InFlight) ==> ClaimedFirst(world.outbox.cfg, old(world.S()), trace, pid, drawer, plan.t0)
    ensures r.Ok? ==>
              var cfg, base := world.outbox.cfg, old(world.S());
              && EndsInPurge(cfg, base, trace, pid, drawer, AboutRows(cfg, base.db, drawer))
              && Cascaded(cfg, base, trace, drawer, ids)
              && NothingAbout(cfg, world.S().db, drawer)
              && (Quiet(plan) ==> ids !! world.store.Keys)
    ensures Inv(world.outbox.cfg, old(world.S())) && CarefulRun(world.outbox.cfg, old(world.S()), trace) ==>
              && (r.Ok? ==> Honoured(world.outbox.cfg, old(world.S()), world.S(), drawer))
              && (r == Err(StoreRaised) ==> StillHeld(world.outbox.cfg, old(world.S()), world.S(), drawer))
    ensures r.Err? && Quiet(plan) ==> SameMapping(old(world.S()).db, world.S().db)
    ensures r == Err(StoreRaised) ==>
              RaisedOrTwice(world.outbox.cfg, old(world.S()), trace, plan,
                            AboutRows(world.outbox.cfg, old(world.S()).db, drawer))
    ensures Quiet(plan) && (forall i :: !plan.raises(i)) && r != Err(InFlight)
            && (forall a | a in AboutRows(world.outbox.cfg, old(world.S()).db, drawer) ::
                  |MarkerHits(old(world.S()), a)| <= 1)
            ==> r.Ok?
    ensures Quiet(plan) && r.Ok? ==> (r.value <==> world.store != old(world.store))
  {
    ghost var base, cfg := world.S(), world.outbox.cfg;
    hide AboutEvents, AboutRows, Apart, Apply, CarefulRun, Cascaded, ClaimedFirst, DivergentIds, EndsInPurge,
      Concerns, FaultyStore, FinalizeInFlight, ForgetGoesOn, HeldLive, Honoured, Inv, MarkerHits, NothingAbout, Quiet,
      RaisedOrTwice, Run, SameMapping, Sound, StillHeld;
    InFlightIff(cfg, base.db, drawer, plan.t0);
    var claimed;
    claimed, trace := ClaimFirst(world, pid, drawer, plan.t0);
    ids := {};
    ForgetTakesTurn([], 0, pid, plan.others, {}, Step.ForgetClaim(pid, drawer, plan.t0));
    if claimed.None? {
      return Err(InFlight), ids, trace;
    }
    ghost var held := world.S();
    var done;
    done, ids, trace := FinishForget(world, pid, drawer, claimed.value, plan, base, trace,
      AboutRows(cfg, base.db, drawer));
    EndOfForget(cfg, base, trace, pid, drawer, plan, ids, done.Some?);
    FaultyBefore(base, held, plan, AboutRows(cfg, base.db, drawer));
    if done.Some? {
      NothingNames(cfg, world.S().db, drawer);
    }
    r := if done.Some? then Ok(done.value) else Err(StoreRaised);
  }

  /** The claim leaves the store alone, so what faults the call was there before it. */
  lemma FaultyBefore(base: State, s: State, plan: ForgetPlan, claimed: set<nat>)
    requires s.store == base.store
    ensures (forall i :: !plan.raises(i)) && (forall a | a in claimed :: |MarkerHits(base, a)| <= 1) ==>
              !FaultyStore(s, plan, claimed)
  {
    if a :| a in claimed && |MarkerHits(s, a)| > 1 {
      assert MarkerHits(s, a) == MarkerHits(base, a);
    }
  }

  /** The claim, as the first step of the run. */
  method ClaimFirst(world: World, pid: nat, drawer: string, t0: int)
    returns (claimed: Option<seq<nat>>, ghost trace: seq<Step>)
    requires world.Ready() && pid !in world.forgets && t0 <= world.now
    modifies world, world.outbox, world.log
    ensures world.Ready() && world.S() == Run(world.outbox.cfg, old(world.S()), trace)
    ensures claimed.None? <==> FinalizeInFlight(world.outbox.cfg, old(world.S()).db, drawer, t0)
    ensures claimed.None? ==> trace == [] && world.S() == old(world.S())
    ensures SameMapping(old(world.S()).db, world.S().db) && world.store == old(world.store)
    ensures claimed.Some? ==>
              var rows := AboutRows(world.outbox.cfg, old(world.S()).db, drawer);
              && trace == [Step.ForgetClaim(pid, drawer, t0)]
              && ClaimedFirst(world.outbox.cfg, old(world.S()), trace, pid, drawer, t0)
              && Between(world.forgets, pid, drawer, rows, {})
              && (forall a: nat :: a in claimed.value <==> a in rows)
              && forall i, j | 0 <= i < j < |claimed.value| :: claimed.value[i] < claimed.value[j]
  {
    ghost var base, cfg := world.S(), world.outbox.cfg;
    trace := [];
    ClaimTells(cfg, base, pid, drawer, t0);
    RunOne(cfg, base, trace, Step.ForgetClaim(pid, drawer, t0));
    assert Run(cfg, base, []) == base
           && [] + [Step.ForgetClaim(pid, drawer, t0)] == [Step.ForgetClaim(pid, drawer, t0)];
    hide AboutRows, Apply, ClaimedFirst, FinalizeInFlight, ForgetClaimStep, Run, SameMapping, Sound;
    claimed := world.ForgetClaim(pid, drawer, t0);
    if claimed.Some? {
      trace := [Step.ForgetClaim(pid, drawer, t0)];
    }
  }

  lemma ClaimTells(cfg: Config, s: State, pid: nat, drawer: string, t0: int)
    requires pid !in s.forgets && t0 <= s.now
    ensures ForgetClaimStep(cfg, s, pid, drawer, t0) == Apply(cfg, s, Step.ForgetClaim(pid, drawer, t0))
    ensures SameMapping(s.db, s.db) && SameMapping(s.db, ForgetClaimStep(cfg, s, pid, drawer, t0).db)
    ensures !FinalizeInFlight(cfg, s.db, drawer, t0) ==>
              ClaimedFirst(cfg, s, [Step.ForgetClaim(pid, drawer, t0)], pid, drawer, t0)
  {
    hide AboutRows;
  }

  lemma FirstStays(cfg: Config, base: State, trace: seq<Step>, pid: nat, drawer: string, plan: ForgetPlan,
                   ids: set<string>)
    requires ClaimedFirst(cfg, base, [Step.ForgetClaim(pid, drawer, plan.t0)], pid, drawer, plan.t0)
    requires ForgetGoesOn([Step.ForgetClaim(pid, drawer, plan.t0)], trace, pid, plan.others, ids)
    ensures ClaimedFirst(cfg, base, trace, pid, drawer, plan.t0)
  {
    hide FinalizeInFlight;
    assert trace[0] == [Step.ForgetClaim(pid, drawer, plan.t0)][0];
  }

  /** What a careful run of the call leaves, both ways it can end. */
  lemma EndOfForget(cfg: Config, base: State, trace: seq<Step>, pid: nat, drawer: string, plan: ForgetPlan,
                    ids: set<string>, purged: bool)
    requires ClaimedFirst(cfg, base, [Step.ForgetClaim(pid, drawer, plan.t0)], pid, drawer, plan.t0)
    requires ForgetGoesOn([Step.ForgetClaim(pid, drawer, plan.t0)], trace, pid, plan.others, ids)
    requires purged ==> EndsInPurge(cfg, base, trace, pid, drawer, AboutRows(cfg, base.db, drawer))
    ensures ClaimedFirst(cfg, base, trace, pid, drawer, plan.t0) && ForgetGoesOn([], trace, pid, plan.others, ids)
    ensures Inv(cfg, base) && CarefulRun(cfg, base, trace) ==>
              && StillHeld(cfg, base, Run(cfg, base, trace), drawer)
              && (purged ==> Honoured(cfg, base, Run(cfg, base, trace), drawer))
  {
    hide AboutRows, CarefulRun, ClaimedFirst, ForgetGoesOn, HeldFor, Inv, PurgeReady, RecordedId, Run, SweptClean;
    FirstStays(cfg, base, trace, pid, drawer, plan, ids);
    ForgetTakesTurn([], 0, pid, plan.others, ids, Step.ForgetClaim(pid, drawer, plan.t0));
    assert [] + [Step.ForgetClaim(pid, drawer, plan.t0)] == [Step.ForgetClaim(pid, drawer, plan.t0)];
    ForgetGoesFurther([], [Step.ForgetClaim(pid, drawer, plan.t0)], trace, pid, plan.others, ids, ids);
    if Inv(cfg, base) && CarefulRun(cfg, base, trace) {
      forall a | a in AboutRows(cfg, base.db, drawer) && a in Run(cfg, base, trace).db.rows
        ensures var db' := Run(cfg, base, trace).db;
                HeldFor(cfg, db', a, drawer) && RecordedId(db', a) == RecordedId(base.db, a)
      {
        HoldSurvives(cfg, base, trace, pid, drawer, plan.t0, a);
      }
      if purged {
        assert trace == trace[..|trace| - 1] + [Step.Purge(pid)];
        PurgedRunIsComplete(cfg, base, trace[..|trace| - 1], pid);
      }
    }
  }

  /** Everything after the claim. None: a lookup or a delete raised, and nothing was purged. */
  method FinishForget(world: World, pid: nat, drawer: string, claimed: seq<nat>, plan: ForgetPlan, ghost base: State,
                      ghost trace: seq<Step>, ghost rows: set<nat>)
    returns (deleted: Option<bool>, ghost ids: set<string>, ghost longer: seq<Step>)
    requires world.Ready() && world.S() == Run(world.outbox.cfg, base, trace) && Apart(plan.others, pid)
    requires Between(world.forgets, pid, drawer, rows, {}) && forall a: nat :: a in claimed <==> a in rows
    requires forall i, j | 0 <= i < j < |claimed| :: claimed[i] < claimed[j]
    modifies world, world.outbox, world.log
    ensures world.Ready() && world.S() == Run(world.outbox.cfg, base, longer)
    ensures ForgetGoesOn(trace, longer, pid, plan.others, ids)
    ensures deleted.Some? ==>
              var cfg := world.outbox.cfg;
              && EndsInPurge(cfg, base, longer, pid, drawer, rows) && Cascaded(cfg, base, longer, drawer, ids)
              && NothingAbout(cfg, world.S().db, drawer)
              && (Quiet(plan) ==> ids !! world.store.Keys)
    ensures deleted.None? && Quiet(plan) ==> world.S().db == old(world.S()).db
    ensures deleted.None? ==> RaisedOrTwice(world.outbox.cfg, base, longer, plan, rows)
    ensures deleted.None? && Quiet(plan) ==> FaultyStore(old(world.S()), plan, rows)
    ensures deleted.Some? && Quiet(plan) ==> (deleted.value <==> world.store != old(world.store))
  {
    hide AboutEvents, AboutRows, ActsAsForget, Apply, Cascaded, Deletes, DivergentIds, FaultyStore, ForgetGoesOn,
      OnlyDeleted, PurgeStep, PurgeTx, RaisedOrTwice, Run, Sound;
    var turn;
    ghost var start := world.S();
    deleted, turn, ids, longer := DeleteAndSweep(world, pid, drawer, claimed, plan, base, trace, rows);
    ghost var before, middle := world.S(), longer;
    if deleted.Some? {
      DeletesIfQuiet(plan, start, before, deleted.value);
    }
    if deleted.None? {
      longer := Abandon(world, pid, plan, base, longer, rows);
      ForgetGoesFurther(trace, middle, longer, pid, plan.others, ids, {});
      SameDb(plan, start, before);
      return;
    }
    assert Quiet(plan) ==> plan.others(turn) == [];
    before, longer := ForgetTurn(world, plan.others(turn), Step.Purge(pid), base, longer);
    assert Between(before.forgets, pid, drawer, rows, rows);
    PurgeTells(world.outbox.cfg, before, pid, drawer, rows);
    ForgetTakesTurn(middle, turn, pid, plan.others, {}, Step.Purge(pid));
    ForgetGoesFurther(trace, middle, longer, pid, plan.others, ids, {});
    StaysCascaded(world.outbox.cfg, base, middle, longer, drawer, ids);
    assert longer[..|longer| - 1] == middle + plan.others(turn);
  }

  lemma SameDb(plan: ForgetPlan, s: State, s': State)
    requires Quiet(plan) ==> OnlyDeleted(s, s')
    ensures Quiet(plan) ==> s'.db == s.db
  {
  }

  /** A forget that failed ends, and leaves everything as it is. */
  method Abandon(world: World, pid: nat, plan: ForgetPlan, ghost base: State, ghost trace: seq<Step>,
                 ghost claimed: set<nat>)
    returns (ghost longer: seq<Step>)
    requires world.Ready() && world.S() == Run(world.outbox.cfg, base, trace)
    requires RaisedOrTwice(world.outbox.cfg, base, trace, plan, claimed)
    modifies world, world.outbox, world.log
    ensures world.Ready() && world.S() == Run(world.outbox.cfg, base, longer)
    ensures ForgetGoesOn(trace, longer, pid, plan.others, {}) && longer == trace + [ForgetAbort(pid)]
    ensures world.S().db == old(world.S()).db && world.store == old(world.store)
    ensures RaisedOrTwice(world.outbox.cfg, base, longer, plan, claimed)
  {
    hide Apply, ForgetGoesOn, RaisedOrTwice, Run, Sound;
    TableStepTells(world.outbox.cfg, world.S(), ForgetAbort(pid));
    ghost var before;
    before, longer := ForgetTurn(world, [], ForgetAbort(pid), base, trace);
    assert trace + [] + [ForgetAbort(pid)] == trace + [ForgetAbort(pid)];
    ForgetTakesTurn(trace, 0, pid, plan.others, {}, ForgetAbort(pid));
    LongerStillRaised(world.outbox.cfg, base, trace, longer, plan, claimed);
  }

  lemma StaysCascaded(cfg: Config, base: State, trace: seq<Step>, longer: seq<Step>, drawer: string, ids: set<string>)
    requires Cascaded(cfg, base, trace, drawer, ids) && trace <= longer
    ensures Cascaded(cfg, base, longer, drawer, ids)
  {
    hide DivergentIds, Run;
    forall id | id in ids ensures exists k | 0 <= k < |longer| :: longer[k] == StoreDelete(id) {
      var k :| 0 <= k < |trace| && trace[k] == StoreDelete(id);
      assert longer[k] == StoreDelete(id);
    }
    var k :| 0 <= k <= |trace| && ids == {drawer} + DivergentIds(cfg, Run(cfg, base, trace[..k]).db, drawer);
    assert longer[..k] == trace[..k];
  }

  lemma CascadeDone(cfg: Config, base: State, first: seq<Step>, scanned: seq<Step>, second: seq<Step>, drawer: string,
                    extra: set<string>)
    requires first != [] && first[|first| - 1] == StoreDelete(drawer) && first <= scanned <= second
    requires AllDeleted(first, second, extra) && extra == DivergentIds(cfg, Run(cfg, base, scanned).db, drawer)
    ensures Cascaded(cfg, base, second, drawer, {drawer} + extra)
  {
    hide DivergentIds, Run;
    forall id | id in {drawer} + extra ensures exists k | 0 <= k < |second| :: second[k] == StoreDelete(id) {
      if id == drawer {
        assert second[|first| - 1] == StoreDelete(drawer);
      }
    }
    assert second[..|scanned|] == scanned;
  }

  /** The deletes and the sweep; None when one of them raised. */
  method DeleteAndSweep(world: World, pid: nat, drawer: string, claimed: seq<nat>, plan: ForgetPlan, ghost base: State,
                        ghost trace: seq<Step>, ghost rows: set<nat>)
    returns (deleted: Option<bool>, turn: int, ghost ids: set<string>, ghost longer: seq<Step>)
    requires world.Ready() && world.S() == Run(world.outbox.cfg, base, trace) && Apart(plan.others, pid)
    requires Between(world.forgets, pid, drawer, rows, {}) && forall a: nat :: a in claimed <==> a in rows
    requires forall i, j | 0 <= i < j < |claimed| :: claimed[i] < claimed[j]
    modifies world, world.outbox, world.log
    ensures world.Ready() && world.S() == Run(world.outbox.cfg, base, longer)
    ensures ForgetGoesOn(trace, longer, pid, plan.others, ids)
    ensures deleted.Some? ==>
              && Between(world.forgets, pid, drawer, rows, rows)
              && Cascaded(world.outbox.cfg, base, longer, drawer, ids)
              && (Quiet(plan) ==> ids !! world.store.Keys)
              && Deletes(plan, old(world.S()), world.S(), deleted.value)
    ensures Quiet(plan) ==> OnlyDeleted(old(world.S()), world.S())
    ensures deleted.None? ==> RaisedOrTwice(world.outbox.cfg, base, longer, plan, rows)
    ensures deleted.None? && Quiet(plan) ==> FaultyStore(old(world.S()), plan, rows)
  {
    hide AllDeleted, Apart, Between, Cascaded, Deletes, DivergentIds, FaultyStore, ForgetGoesOn, OnlyDeleted, Quiet,
      RaisedOrTwice, Run, Sound;
    ghost var cfg, start := world.outbox.cfg, world.S();
    deleted, turn, longer, ids := None, 0, trace, {drawer};
    var existed;
    existed, longer := DeleteRow(world, drawer, plan, 0, base, longer, pid, drawer, rows);
    DeletesIfQuiet(plan, start, world.S(), existed.Some? && existed.value);
    if existed.None? {
      Raises(cfg, base, longer, plan, rows, 0);
      RaisingIsFaulty(start, plan, rows);
      return;
    }
    ghost var first, s1 := longer, world.S();
    var divergent;
    ghost var extra;
    divergent, turn, extra, longer := DeleteDivergent(world, plan, base, longer, pid, drawer, rows);
    ids := {drawer} + extra;
    ForgetGoesFurther(trace, first, longer, pid, plan.others, {drawer}, extra);
    ghost var second, s2 := longer, world.S();
    if Quiet(plan) {
      OnlyDeletedOn(start, s1, s2);
    }
    if divergent.None? {
      ghost var i :| plan.raises(i);
      Raises(cfg, base, longer, plan, rows, i);
      RaisingIsFaulty(start, plan, rows);
      return;
    }
    DeletesOn(plan, start, s1, s2, existed.value, divergent.value);
    StaysAway(plan, s1, s2, divergent.value, {drawer});
    var ok, removed;
    ok, removed, longer := SweepMarkers(world, pid, claimed, plan, turn, base, longer, drawer, rows);
    ForgetGoesFurther(trace, second, longer, pid, plan.others, ids, {});
    DeletesOn(plan, start, s2, world.S(), existed.value || divergent.value, removed);
    DeletesIfQuiet(plan, start, world.S(), existed.value || divergent.value || removed);
    StaysAway(plan, s2, world.S(), removed, ids);
    if ok {
      deleted, turn := Some(existed.value || divergent.value || removed), turn + 2 * |claimed|;
      ForgetKeepsPrefix(second, longer, pid, plan.others, {});
      ForgetKeepsPrefix(first, second, pid, plan.others, extra);
      CascadeDone(cfg, base, first, first + plan.others(1), second, drawer, extra);
      StaysCascaded(cfg, base, second, longer, drawer, ids);
    } else if Quiet(plan) {
      StillFaulty(start, s2, plan, rows);
    }
  }

  lemma DeletesIfQuiet(plan: ForgetPlan, s: State, s': State, changed: bool)
    requires Deletes(plan, s, s', changed)
    ensures Quiet(plan) ==> OnlyDeleted(s, s') && (changed <==> s'.store != s.store)
  {
  }

  lemma RaisingIsFaulty(s: State, plan: ForgetPlan, claimed: set<nat>)
    requires exists i :: plan.raises(i)
    ensures FaultyStore(s, plan, claimed)
  {
  }
}
