/**
 The finalizer's calls as the source writes them (panella/approval_finalizer.py): one finalize
 call, and the redrive sweep, each a run of the protocol with any other actors in between.
 */
module Programs {
  import opened Basics
  import opened AuditChain
  import opened Queue
  import opened QueueLaws
  import opened Outbox
  import opened Protocol
  import opened ProtocolFrames
  import opened Invariants
  import opened Safety
  import opened Execution

  // ---------------------------------------------------------------- finalize

  /**
   What the world does to one finalize call: the fate of each store call, how many attempts of the
   POST time out first, and what other actors do before each of its steps.
   */
  datatype FinalizePlan = FinalizePlan(t0: int, readable: bool, built: bool, timeouts: nat, fate: Fate,
                                       found: int -> bool, deleted: bool, outcome: Option<Entry>,
                                       others: int -> seq<Step>)

  ghost predicate LeavesAlone(others: int -> seq<Step>, wid: string) {
    forall i ::
      && !ActsAsWorker(others(i), wid)
      && forall k | 0 <= k < |others(i)| :: !others(i)[k].HandEdit?
  }

  /**
   Every step is this worker's own, an append to the log, or somebody else's as planned; and the
   worker calls the gate at most once, first.
   */
  ghost predicate From(trace: seq<Step>, wid: string, others: int -> seq<Step>) {
    forall k | 0 <= k < |trace| ::
      || (WorkerStep(trace[k]) && trace[k].wid == wid && (trace[k].Gate? ==> k == 0))
      || trace[k].Log?
      || exists i :: trace[k] in others(i)
  }

  lemma FromGrows(trace: seq<Step>, wid: string, others: int -> seq<Step>, turn: int, step: Step)
    requires From(trace, wid, others) && ((WorkerStep(step) && step.wid == wid && !step.Gate?) || step.Log?)
    ensures From(trace + others(turn), wid, others) && From(trace + [step], wid, others)
  {
    var more := trace + others(turn);
    forall k | 0 <= k < |more|
      ensures || (WorkerStep(more[k]) && more[k].wid == wid && (more[k].Gate? ==> k == 0))
              || more[k].Log?
              || exists i :: more[k] in others(i)
    {
      if k >= |trace| {
        assert more[k] in others(turn);
      }
    }
  }

  /** The phases a call can pass through from one step to the next. */
  predicate Next(step: Step, p: Phase, p': Phase) {
    match step
    case Check(_, _) => p == Holding ==> p' == Revalidated || p' == Ended || p' == Broken
    case Send(_) => p' == p
    case Write(_, _) => p == Revalidated ==> p'.Wrote? || p' == Duplicate || p' == Broken
    case FindMarker(_, _, giveUp) => p == Duplicate ==> p'.Wrote? || p' == Broken || (p' == Duplicate && !giveUp)
    case Fail(_) => p == Broken ==> p' == Ended
    case Cleanup(_, _) => p.Orphaned? ==> p' == Ended
    case _ => true
  }

  /** A worker past its check holds bytes a payload can be built from. */
  predicate Buildable(cfg: Config, w: Worker) {
    w.phase == Revalidated ==> cfg.contentHash(w.cand).Some?
  }

  lemma OwnStep(cfg: Config, s: State, step: Step)
    requires step.Check? || step.Send? || step.Write? || step.FindMarker? || step.Fail? || step.Cleanup?
    requires step.wid in s.workers && Buildable(cfg, s.workers[step.wid])
    ensures var s' := Apply(cfg, s, step);
            && step.wid in s'.workers && s'.workers[step.wid].aid == s.workers[step.wid].aid
            && Buildable(cfg, s'.workers[step.wid])
            && Next(step, s.workers[step.wid].phase, s'.workers[step.wid].phase)
  {
    match step
    case Check(wid, built) => OwnCheck(cfg, s, wid, built);
    case Send(wid) => OwnSend(cfg, s, wid);
    case Write(wid, fate) => OwnWrite(cfg, s, wid, fate);
    case FindMarker(wid, readable, giveUp) => OwnFindMarker(cfg, s, wid, readable, giveUp);
    case _ => OwnEnd(cfg, s, step);
  }

  lemma OwnCheck(cfg: Config, s: State, wid: string, built: bool)
    requires wid in s.workers && Buildable(cfg, s.workers[wid])
    ensures var s' := CheckStep(cfg, s, wid, built);
            && wid in s'.workers && s'.workers[wid].aid == s.workers[wid].aid && Buildable(cfg, s'.workers[wid])
            && Next(Check(wid, built), s.workers[wid].phase, s'.workers[wid].phase)
  {
  }

  lemma OwnSend(cfg: Config, s: State, wid: string)
    requires wid in s.workers && Buildable(cfg, s.workers[wid])
    ensures SendStep(cfg, s, wid).workers == s.workers
  {
  }

  lemma OwnWrite(cfg: Config, s: State, wid: string, fate: Fate)
    requires wid in s.workers && Buildable(cfg, s.workers[wid])
    ensures var s' := WriteStep(cfg, s, wid, fate);
            && wid in s'.workers && s'.workers[wid].aid == s.workers[wid].aid && Buildable(cfg, s'.workers[wid])
            && Next(Write(wid, fate), s.workers[wid].phase, s'.workers[wid].phase)
  {
  }

  lemma OwnFindMarker(cfg: Config, s: State, wid: string, readable: bool, giveUp: bool)
    requires wid in s.workers && Buildable(cfg, s.workers[wid])
    ensures var s' := FindMarkerStep(s, wid, readable, giveUp);
            && wid in s'.workers && s'.workers[wid].aid == s.workers[wid].aid && Buildable(cfg, s'.workers[wid])
            && Next(FindMarker(wid, readable, giveUp), s.workers[wid].phase, s'.workers[wid].phase)
  {
  }

  lemma OwnEnd(cfg: Config, s: State, step: Step)
    requires (step.Fail? || step.Cleanup?) && step.wid in s.workers && Buildable(cfg, s.workers[step.wid])
    ensures var s' := Apply(cfg, s, step);
            && step.wid in s'.workers && s'.workers[step.wid].aid == s.workers[step.wid].aid
            && Buildable(cfg, s'.workers[step.wid])
            && Next(step, s.workers[step.wid].phase, s'.workers[step.wid].phase)
  {
    hide FailTx;
  }

  /** What a record tells its caller is in the row: an id is returned only for a row finalized under it. */
  lemma RecordTells(db: Db, aid: nat, wid: string, id: string, event: nat)
    ensures var (db', outcome) := RecordTx(db, aid, wid, id, event);
            && (outcome.Here? ==>
                  aid in db'.rows && db'.rows[aid].fin == Finalized && db'.rows[aid].durable == Some(id))
            && (outcome.Elsewhere? ==>
                  aid in db'.rows && db'.rows[aid].fin == Finalized && db'.rows[aid].durable == Some(outcome.id))
  {
  }

  lemma RecordEnds(cfg: Config, s: State, wid: string)
    requires wid in s.workers && s.workers[wid].phase.Wrote?
    ensures var w := s.workers[wid];
            var s' := Apply(cfg, s, Step.Record(wid));
            var outcome := RecordTx(s.db, w.aid, wid, w.phase.id, w.event).1;
            && s'.db == RecordTx(s.db, w.aid, wid, w.phase.id, w.event).0
            && wid in s'.workers && s'.workers[wid].aid == w.aid
            && s'.workers[wid].phase == if outcome.Lost? then Orphaned(w.phase.id) else Ended
  {
    hide RecordTx;
  }

  method Own(world: World, step: Step, ghost base: State, ghost trace: seq<Step>) returns (ghost longer: seq<Step>)
    requires world.Ready() && world.S() == Run(world.outbox.cfg, base, trace)
    requires step.Check? || step.Send? || step.Write? || step.FindMarker? || step.Fail? || step.Cleanup?
    requires step.wid in world.workers && Buildable(world.outbox.cfg, world.workers[step.wid])
    modifies world, world.outbox, world.log
    ensures world.Ready() && longer == trace + [step] && world.S() == Run(world.outbox.cfg, base, longer)
    ensures step.wid in world.workers && Buildable(world.outbox.cfg, world.workers[step.wid])
    ensures world.workers[step.wid].aid == old(world.workers)[step.wid].aid
    ensures Next(step, old(world.workers)[step.wid].phase, world.workers[step.wid].phase)
  {
    hide Apply, Buildable, Next, Run, Sound;
    RunOne(world.outbox.cfg, base, trace, step);
    OwnStep(world.outbox.cfg, world.S(), step);
    world.Perform(step);
    longer := trace + [step];
  }

  /** Other actors move; then this call takes its next step. */
  method Turn(world: World, others: int -> seq<Step>, turn: int, step: Step, ghost base: State, ghost trace: seq<Step>)
    returns (ghost longer: seq<Step>)
    requires world.Ready() && world.S() == Run(world.outbox.cfg, base, trace)
    requires step.Check? || step.Send? || step.Write? || step.FindMarker? || step.Fail? || step.Cleanup?
    requires step.wid in world.workers && Buildable(world.outbox.cfg, world.workers[step.wid])
    requires LeavesAlone(others, step.wid) && From(trace, step.wid, others)
    modifies world, world.outbox, world.log
    ensures world.Ready() && world.S() == Run(world.outbox.cfg, base, longer)
    ensures step.wid in world.workers && Buildable(world.outbox.cfg, world.workers[step.wid])
    ensures world.workers[step.wid].aid == old(world.workers)[step.wid].aid
    ensures Next(step, old(world.workers)[step.wid].phase, world.workers[step.wid].phase)
    ensures From(longer, step.wid, others) && longer == trace + others(turn) + [step]
  {
    hide ActsAsForget, ActsAsWorker, Buildable, From, Next, Run, Sound;
    assert WorkerStep(step);
    FromGrows(trace, step.wid, others, turn, step);
    longer := world.Interleave(others(turn), base, trace);
    FromGrows(longer, step.wid, others, turn, step);
    longer := Own(world, step, base, longer);
  }

  // ---------------------------------------------------------------- the call, step by step

  predicate InPhase(s: State, wid: string, phase: Phase) {
    wid in s.workers && s.workers[wid].phase == phase
  }

  /** The run so far, with attempts of the POST that time out, others moving before each. */
  function SendScript(trace: seq<Step>, wid: string, plan: FinalizePlan, attempts: nat): seq<Step> {
    if attempts == 0 then trace
    else SendScript(trace, wid, plan, attempts - 1) + plan.others(-(attempts as int)) + [Send(wid)]
  }

  /** From the claim to the end of the store calls: each step the call takes, after whatever others do. */
  ghost function WriteScript(cfg: Config, base: State, trace: seq<Step>, wid: string, plan: FinalizePlan): seq<Step> {
    var checked := trace + plan.others(1) + [Check(wid, plan.built)];
    if !InPhase(Run(cfg, base, checked), wid, Revalidated) then checked
    else
      var written := SendScript(checked, wid, plan, plan.timeouts) + plan.others(2) + [Write(wid, plan.fate)];
      if !InPhase(Run(cfg, base, written), wid, Duplicate) then written
      else LookupScript(cfg, base, written, wid, plan)
  }

  ghost function LookupScript(cfg: Config, base: State, trace: seq<Step>, wid: string, plan: FinalizePlan): seq<Step> {
    var found := trace + plan.others(3) + [FindMarker(wid, plan.found(0), false)];
    if !InPhase(Run(cfg, base, found), wid, Duplicate) then found
    else found + plan.others(4) + [FindMarker(wid, plan.found(1), true)]
  }

  /** The record; what a lost record leaves is removed, and a record made here is logged. */
  ghost function RecordScript(cfg: Config, base: State, trace: seq<Step>, wid: string, plan: FinalizePlan): seq<Step> {
    var recorded := trace + [Step.Record(wid)];
    if Loses(cfg, base, trace, wid) then recorded + plan.others(6) + [Cleanup(wid, plan.deleted)]
    else if RecordsHere(Run(cfg, base, trace), Step.Record(wid)) && plan.outcome.Some?
    then recorded + [Step.Log(plan.outcome.value)]
    else recorded
  }

  /** A record at the end of this run is refused. */
  ghost predicate Loses(cfg: Config, base: State, trace: seq<Step>, wid: string) {
    var s := Run(cfg, base, trace + [Step.Record(wid)]);
    wid in s.workers && s.workers[wid].phase.Orphaned?
  }

  function Call(aid: nat, wid: string, plan: FinalizePlan): Step {
    Step.Gate(wid, aid, plan.t0, plan.readable)
  }

  /** The whole call: the steps it takes, whatever others do in between. */
  ghost function FinalizeScript(cfg: Config, base: State, aid: nat, wid: string, plan: FinalizePlan): seq<Step> {
    var gated := [Call(aid, wid, plan)];
    if wid !in Run(cfg, base, gated).workers then gated
    else
      var written := WriteScript(cfg, base, gated, wid, plan);
      var s := Run(cfg, base, written);
      if InPhase(s, wid, Broken) then written + plan.others(5) + [Step.Fail(wid)]
      else if InPhase(s, wid, Ended) then written
      else RecordScript(cfg, base, written + plan.others(5), wid, plan)
  }

  /** The row is finalized, and a call that looks at it gets that far. */
  predicate FoundFinalized(cfg: Config, db: Db, aid: nat) {
    && Configured(cfg) && aid in db.rows && db.rows[aid].status == Approved && db.rows[aid].event.Some?
    && Provenanced(cfg, db.rows[aid]) && db.rows[aid].fin == Finalized
  }

  /** The call answers an id: it found the row finalized under one, or held one whose record was not refused. */
  ghost predicate Answers(cfg: Config, base: State, aid: nat, wid: string, plan: FinalizePlan) {
    var gated := [Call(aid, wid, plan)];
    if wid !in Run(cfg, base, gated).workers then FoundFinalized(cfg, base.db, aid) && base.db.rows[aid].durable.Some?
    else
      var written := WriteScript(cfg, base, gated, wid, plan);
      var s := Run(cfg, base, written);
      !InPhase(s, wid, Broken) && !InPhase(s, wid, Ended) && !Loses(cfg, base, written + plan.others(5), wid)
  }

  /** The attempts of the POST that time out, each of which may still land, before the one that is answered. */
  method SendUntilAnswered(world: World, wid: string, plan: FinalizePlan, ghost base: State, ghost trace: seq<Step>)
    returns (ghost longer: seq<Step>)
    requires world.Ready() && world.S() == Run(world.outbox.cfg, base, trace) && LeavesAlone(plan.others, wid)
    requires wid in world.workers && world.workers[wid].phase == Revalidated && From(trace, wid, plan.others)
    requires Buildable(world.outbox.cfg, world.workers[wid])
    modifies world, world.outbox, world.log
    ensures world.Ready() && world.S() == Run(world.outbox.cfg, base, longer) && From(longer, wid, plan.others)
    ensures wid in world.workers && world.workers[wid].aid == old(world.workers)[wid].aid && trace <= longer
    ensures world.workers[wid].phase == Revalidated && Buildable(world.outbox.cfg, world.workers[wid])
    ensures longer == SendScript(trace, wid, plan, plan.timeouts)
  {
    hide ActsAsWorker, Buildable, From, LeavesAlone, Run, Sound;
    longer := trace;
    for attempt := 0 to plan.timeouts
      invariant world.Ready() && world.S() == Run(world.outbox.cfg, base, longer) && From(longer, wid, plan.others)
      invariant wid in world.workers && world.workers[wid].aid == old(world.workers)[wid].aid && trace <= longer
      invariant world.workers[wid].phase == Revalidated && Buildable(world.outbox.cfg, world.workers[wid])
      invariant longer == SendScript(trace, wid, plan, attempt)
    {
      longer := Turn(world, plan.others, -1 - attempt, Send(wid), base, longer);
    }
  }

  /** Build, check, write, and recover the id of an exact duplicate by its marker, looking at most twice. */
  method DurableWrite(world: World, wid: string, plan: FinalizePlan, ghost base: State, ghost trace: seq<Step>)
    returns (ghost longer: seq<Step>)
    requires world.Ready() && world.S() == Run(world.outbox.cfg, base, trace) && LeavesAlone(plan.others, wid)
    requires wid in world.workers && world.workers[wid].phase == Holding && From(trace, wid, plan.others)
    modifies world, world.outbox, world.log
    ensures world.Ready() && world.S() == Run(world.outbox.cfg, base, longer) && From(longer, wid, plan.others)
    ensures wid in world.workers && world.workers[wid].aid == old(world.workers)[wid].aid && trace <= longer
    ensures world.workers[wid].phase.Wrote? || world.workers[wid].phase == Broken || world.workers[wid].phase == Ended
    ensures longer == WriteScript(world.outbox.cfg, base, trace, wid, plan)
  {
    hide ActsAsWorker, From, LookupScript, Run, SendScript, Sound;
    longer := Turn(world, plan.others, 1, Check(wid, plan.built), base, trace);
    if world.workers[wid].phase != Revalidated {
      return;
    }
    longer := SendUntilAnswered(world, wid, plan, base, longer);
    longer := Turn(world, plan.others, 2, Write(wid, plan.fate), base, longer);
    if world.workers[wid].phase != Duplicate {
      return;
    }
    longer := RecoverByMarker(world, wid, plan, base, longer);
  }

  method RecoverByMarker(world: World, wid: string, plan: FinalizePlan, ghost base: State, ghost trace: seq<Step>)
    returns (ghost longer: seq<Step>)
    requires world.Ready() && world.S() == Run(world.outbox.cfg, base, trace) && LeavesAlone(plan.others, wid)
    requires wid in world.workers && world.workers[wid].phase == Duplicate && From(trace, wid, plan.others)
    modifies world, world.outbox, world.log
    ensures world.Ready() && world.S() == Run(world.outbox.cfg, base, longer) && From(longer, wid, plan.others)
    ensures wid in world.workers && world.workers[wid].aid == old(world.workers)[wid].aid && trace <= longer
    ensures world.workers[wid].phase.Wrote? || world.workers[wid].phase == Broken
    ensures longer == LookupScript(world.outbox.cfg, base, trace, wid, plan)
  {
    hide ActsAsWorker, From, Run, Sound;
    longer := Turn(world, plan.others, 3, FindMarker(wid, plan.found(0), false), base, trace);
    if world.workers[wid].phase == Duplicate {
      longer := Turn(world, plan.others, 4, FindMarker(wid, plan.found(1), true), base, longer);
    }
  }

  /**
   `finalize_approved_candidate`. The call is a run of the protocol whatever others do meanwhile,
   and takes exactly the steps of `FinalizeScript`; its worker is done when it returns. It answers an
   id exactly when it found the row finalized under one or its record was not refused, and the row is
   then finalized under that id. Left alone over a store that answers, a call on an approval that
   passes the gates and that no live worker holds writes its row, or finds the row already there by
   its marker, and finalizes the approval under it.
   */
  method FinalizeApprovedCandidate(world: World, aid: nat, wid: string, plan: FinalizePlan)
    returns (r: Option<string>, ghost trace: seq<Step>)
    requires world.Ready() && wid !in world.workers && wid != RTBF_WORKER && plan.t0 <= world.now
    requires LeavesAlone(plan.others, wid)
    modifies world, world.outbox, world.log
    ensures world.Ready() && world.S() == Run(world.outbox.cfg, old(world.S()), trace) && From(trace, wid, plan.others)
    ensures trace == FinalizeScript(world.outbox.cfg, old(world.S()), aid, wid, plan)
    ensures trace != [] && trace[0] == Call(aid, wid, plan)
    ensures r.Some? <==> Answers(world.outbox.cfg, old(world.S()), aid, wid, plan)
    ensures r.Some? ==> aid in world.outbox.rows && world.outbox.rows[aid].fin == Finalized
                        && world.outbox.rows[aid].durable == r
    ensures wid in world.workers ==> world.workers[wid].phase == Ended
    ensures FoundFinalized(world.outbox.cfg, old(world.S()).db, aid) ==>
              r == old(world.outbox.rows)[aid].durable && world.S() == old(world.S())
    ensures forall id | Undisturbed(world.outbox.cfg, old(world.S()), aid, plan, id) ::
              && (id !in old(world.store) ==>
                    && r == Some(id) && Achieved(world.S(), aid, id)
                    && world.store.Keys == old(world.store).Keys + {id})
              && (MarkerHits(old(world.S()), aid) == {id} && plan.found(0) ==>
                    r == Some(id) && Achieved(world.S(), aid, id) && world.store == old(world.store))
  {
    hide Achieved, Answers, FinalizeScript, FoundFinalized, From, LeavesAlone, Run, Sound, Undisturbed;
    ghost var cfg, s := world.outbox.cfg, world.S();
    r, trace := GateAndFinalize(world, aid, wid, plan);
    if FoundFinalized(cfg, s.db, aid) {
      FoundIsAnswered(cfg, s, aid, wid, plan);
    }
    forall id | Undisturbed(cfg, s, aid, plan, id)
      ensures Finishes(cfg, s, aid, wid, plan, id)
      ensures Achieved(world.S(), aid, id) ==> aid in world.outbox.rows && world.outbox.rows[aid].durable == Some(id)
    {
      UndisturbedFinishes(cfg, s, aid, wid, plan, id);
      AchievedIsRecorded(world.S(), aid, id);
    }
  }

  /** The call itself: gate and claim, write, record. */
  method GateAndFinalize(world: World, aid: nat, wid: string, plan: FinalizePlan)
    returns (r: Option<string>, ghost trace: seq<Step>)
    requires world.Ready() && wid !in world.workers && wid != RTBF_WORKER && plan.t0 <= world.now
    requires LeavesAlone(plan.others, wid)
    modifies world, world.outbox, world.log
    ensures world.Ready() && world.S() == Run(world.outbox.cfg, old(world.S()), trace) && From(trace, wid, plan.others)
    ensures trace == FinalizeScript(world.outbox.cfg, old(world.S()), aid, wid, plan)
    ensures trace != [] && trace[0] == Call(aid, wid, plan)
    ensures r.Some? <==> Answers(world.outbox.cfg, old(world.S()), aid, wid, plan)
    ensures r.Some? ==> aid in world.outbox.rows && world.outbox.rows[aid].fin == Finalized
                        && world.outbox.rows[aid].durable == r
    ensures wid in world.workers ==> world.workers[wid].phase == Ended
  {
    hide ActsAsForget, ActsAsWorker, Apply, FailStep, FailTx, FoundFinalized, GateDecision, GateStep, RecordScript,
      RecordStep, RecordTx, Sound, WriteScript;
    ghost var base := world.S();
    trace := [];
    assert world.S() == Run(world.outbox.cfg, base, trace);
    var outcome := world.Gate(wid, aid, plan.t0, plan.readable);
    GateTells(world.outbox.cfg, base, wid, aid, plan.t0, plan.readable);
    RunOne(world.outbox.cfg, base, trace, Call(aid, wid, plan));
    trace := trace + [Call(aid, wid, plan)];
    assert From(trace, wid, plan.others);
    if outcome.AlreadyFinalized? {
      FinalizedIsThere(world.outbox.cfg, base.db, aid);
      return outcome.id, trace;
    }
    if !outcome.Claimed? {
      return None, trace;
    }
    trace := DurableWrite(world, wid, plan, base, trace);
    if world.workers[wid].phase == Ended {
      return None, trace;
    }
    if world.workers[wid].phase == Broken {
      trace := Turn(world, plan.others, 5, Step.Fail(wid), base, trace);
      return None, trace;
    }
    FromGrows(trace, wid, plan.others, 5, Step.Record(wid));
    trace := world.Interleave(plan.others(5), base, trace);
    r, trace := RecordOrCleanUp(world, aid, wid, plan, base, trace);
  }

  lemma FinalizedIsThere(cfg: Config, db: Db, aid: nat)
    requires FoundFinalized(cfg, db, aid)
    ensures aid in db.rows && db.rows[aid].fin == Finalized
  {
  }

  lemma GateTells(cfg: Config, s: State, wid: string, aid: nat, t0: int, readable: bool)
    requires wid !in s.workers && wid != RTBF_WORKER && t0 <= s.now
    ensures var outcome := GateDecision(cfg, s.db, s.audit, readable, aid, t0);
            var s' := GateStep(cfg, s, wid, aid, t0, readable);
            && s' == Apply(cfg, s, Step.Gate(wid, aid, t0, readable))
            && (outcome.Claimed? <==> wid in s'.workers)
            && (outcome.Claimed? ==> s'.workers[wid].phase == Holding && s'.workers[wid].aid == aid)
            && (outcome.AlreadyFinalized? <==> FoundFinalized(cfg, s.db, aid))
            && (outcome.AlreadyFinalized? ==> s' == s && outcome.id == s.db.rows[aid].durable)
  {
    hide GateRefusal;
  }

  /**
   Record the id; if the row is gone or claimed by a forget, remove the durable row again, or leave
   a pending entry for it when the delete raises.
   */
  method RecordOrCleanUp(world: World, aid: nat, wid: string, plan: FinalizePlan, ghost base: State,
                         ghost trace: seq<Step>)
    returns (r: Option<string>, ghost longer: seq<Step>)
    requires world.Ready() && world.S() == Run(world.outbox.cfg, base, trace) && LeavesAlone(plan.others, wid)
    requires wid in world.workers && world.workers[wid].phase.Wrote? && world.workers[wid].aid == aid
    requires From(trace, wid, plan.others)
    modifies world, world.outbox, world.log
    ensures world.Ready() && world.S() == Run(world.outbox.cfg, base, longer) && From(longer, wid, plan.others)
    ensures wid in world.workers && world.workers[wid].phase == Ended && trace <= longer
    ensures r.Some? ==> aid in world.outbox.rows && world.outbox.rows[aid].fin == Finalized
                        && world.outbox.rows[aid].durable == r
    ensures var (id, w) := (old(world.workers)[wid].phase.id, old(world.workers)[wid]);
            && (r.None? <==> RecordTx(old(world.S()).db, aid, wid, id, w.event).1.Lost?)
            && (r.None? ==> if plan.deleted then id !in world.store else id in world.pending)
    ensures longer == RecordScript(world.outbox.cfg, base, trace, wid, plan)
    ensures r.None? <==> Loses(world.outbox.cfg, base, trace, wid)
  {
    hide ActsAsWorker, CheckStep, CleanupStep, FailStep, FindMarkerStep, ForgetApply, ForgetStep, From, GateStep,
      Move, RecordStep, RecordTx, Run, Running, SendStep, Sound, TableApply, WriteStep;
    ghost var s, w := world.S(), world.workers[wid];
    var id := world.workers[wid].phase.id;
    RecordTells(s.db, aid, wid, id, w.event);
    RecordEnds(world.outbox.cfg, s, wid);
    RunOne(world.outbox.cfg, base, trace, Step.Record(wid));
    var outcome := world.Record(wid);
    assert world.S() == Apply(world.outbox.cfg, s, Step.Record(wid));
    FromGrows(trace, wid, plan.others, 6, Step.Record(wid));
    longer := trace + [Step.Record(wid)];
    match outcome {
      case Elsewhere(other) => r := Some(other);
      case Lost =>
        longer := CleanUpOrphan(world, wid, id, plan, base, longer);
        r := None;
      case Here =>
        r := Some(id);
        if plan.outcome.Some? {
          RunOne(world.outbox.cfg, base, longer, Step.Log(plan.outcome.value));
          FromGrows(longer, wid, plan.others, 6, Step.Log(plan.outcome.value));
          longer := longer + [Step.Log(plan.outcome.value)];
          LogOnlyAppends(world.outbox.cfg, world.S(), plan.outcome.value);
          world.Perform(Step.Log(plan.outcome.value));
        }
    }
  }

  /** `_cleanup_orphaned_durable`, after whatever others do. */
  method CleanUpOrphan(world: World, wid: string, ghost id: string, plan: FinalizePlan, ghost base: State,
                       ghost trace: seq<Step>)
    returns (ghost longer: seq<Step>)
    requires world.Ready() && world.S() == Run(world.outbox.cfg, base, trace) && LeavesAlone(plan.others, wid)
    requires wid in world.workers && world.workers[wid].phase == Orphaned(id) && From(trace, wid, plan.others)
    modifies world, world.outbox, world.log
    ensures world.Ready() && world.S() == Run(world.outbox.cfg, base, longer) && From(longer, wid, plan.others)
    ensures wid in world.workers && world.workers[wid].phase == Ended && trace <= longer
    ensures longer == trace + plan.others(6) + [Cleanup(wid, plan.deleted)]
    ensures if plan.deleted then id !in world.store else id in world.pending
  {
    hide ActsAsForget, ActsAsWorker, Apply, From, Run, Sound;
    FromGrows(trace, wid, plan.others, 6, Cleanup(wid, plan.deleted));
    longer := world.Interleave(plan.others(6), base, trace);
    FromGrows(longer, wid, plan.others, 6, Cleanup(wid, plan.deleted));
    CleanupTells(world.outbox.cfg, world.S(), wid, plan.deleted);
    RunOne(world.outbox.cfg, base, longer, Cleanup(wid, plan.deleted));
    world.Perform(Cleanup(wid, plan.deleted));
    longer := longer + [Cleanup(wid, plan.deleted)];
  }

  lemma CleanupTells(cfg: Config, s: State, wid: string, deleted: bool)
    requires wid in s.workers && s.workers[wid].phase.Orphaned?
    ensures var s', id := Apply(cfg, s, Cleanup(wid, deleted)), s.workers[wid].phase.id;
            && wid in s'.workers && s'.workers[wid].phase == Ended
            && if deleted then id !in s'.store else id in s'.pending
  {
  }

  lemma LogOnlyAppends(cfg: Config, s: State, e: Entry)
    ensures Apply(cfg, s, Step.Log(e)).db == s.db && Apply(cfg, s, Step.Log(e)).workers == s.workers
  {
  }

  // ---------------------------------------------------------------- the redrive sweep

  predicate Redrivable(cfg: Config, row: QRow, t0: int) {
    ApprovedWithEvent(row) && Provenanced(cfg, row) && Claimable(row, t0)
  }

  function RedrivableIds(cfg: Config, db: Db, t0: int): set<nat> {
    set a | a in db.rows && Redrivable(cfg, db.rows[a], t0)
  }

  lemma RedrivableIff(cfg: Config, db: Db, t0: int)
    ensures forall a :: a in RedrivableIds(cfg, db, t0) <==>
              && a in db.rows
              && var row := db.rows[a];
                 && row.status == Approved && row.event.Some? && row.via == Some(cfg.via)
                 && row.approver.Some? && row.approver.value in cfg.approvers && Free(row, t0)
  {
  }

  /** The calls of a sweep: a worker id of its own for each, and what the world does to it. */
  datatype Sweep = Sweep(t0: int, wid: int -> string, plan: int -> FinalizePlan)

  /** The worker ids are distinct, and nobody else acts under them. */
  ghost predicate SweepOk(sweep: Sweep) {
    && (forall i :: sweep.wid(i) != RTBF_WORKER)
    && (forall i, j | i != j :: sweep.wid(i) != sweep.wid(j))
    && (forall i, j :: LeavesAlone(sweep.plan(i).others, sweep.wid(j)))
  }

  /** The calls of the sweep from the n-th on can still start. */
  ghost predicate Startable(s: State, sweep: Sweep, n: int) {
    forall i | i >= n :: sweep.wid(i) !in s.workers && sweep.plan(i).t0 <= s.now
  }

  method SelectRedrivable(world: World, t0: int) returns (ids: seq<nat>)
    requires world.Ready()
    ensures forall a: nat :: a in ids <==> a in RedrivableIds(world.outbox.cfg, world.S().db, t0)
    ensures forall i, j | 0 <= i < j < |ids| :: ids[i] < ids[j]
  {
    ids := [];
    IdsAreBelowNext(world.outbox.Db());
    hide Sound, Redrivable;
    for a := 0 to world.outbox.nextRow
      invariant forall x: nat :: x in ids <==>
                  x < a && x in world.outbox.rows && Redrivable(world.outbox.cfg, world.outbox.rows[x], t0)
      invariant forall k | 0 <= k < |ids| :: ids[k] < a
      invariant forall i, j | 0 <= i < j < |ids| :: ids[i] < ids[j]
    {
      if a in world.outbox.rows && Redrivable(world.outbox.cfg, world.outbox.rows[a], t0) {
        ids := ids + [a];
      }
    }
  }

  /** The step with which the sweep calls finalize on row `aid`, as its n-th call. */
  function CallOn(sweep: Sweep, n: int, aid: nat): Step {
    Call(aid, sweep.wid(n), sweep.plan(n))
  }

  /**
   Every step is one of the sweep's workers', an append to the log, or somebody else's as planned;
   and the sweep calls finalize once on each of these rows, in this order, under the next worker id.
   */
  ghost predicate FromSweep(trace: seq<Step>, sweep: Sweep, ids: seq<nat>) {
    && (forall k | 0 <= k < |trace| ::
          || (WorkerStep(trace[k]) && exists i | 0 <= i < |ids| ::
                trace[k].wid == sweep.wid(i) && (trace[k].Gate? ==> trace[k] == CallOn(sweep, i, ids[i])))
          || trace[k].Log?
          || exists i, j :: trace[k] in sweep.plan(i).others(j))
    && Gates(trace, sweep, ids)
  }

  /** The whole sweep: one call after the other, each with all its steps. */
  ghost function SweepScript(cfg: Config, base: State, sweep: Sweep, ids: seq<nat>): seq<Step> {
    if ids == [] then []
    else
      var n := |ids| - 1;
      var before := SweepScript(cfg, base, sweep, ids[..n]);
      before + FinalizeScript(cfg, Run(cfg, base, before), ids[n], sweep.wid(n), sweep.plan(n))
  }

  /** The n-th call answers what it should where the sweep has got by then. */
  ghost predicate AnswerIs(cfg: Config, base: State, sweep: Sweep, ids: seq<nat>, n: nat, r: Option<string>)
    requires n < |ids|
  {
    var s := Run(cfg, base, SweepScript(cfg, base, sweep, ids[..n]));
    var s' := Run(cfg, base, SweepScript(cfg, base, sweep, ids[..n + 1]));
    && (r.Some? <==> Answers(cfg, s, ids[n], sweep.wid(n), sweep.plan(n)))
    && (r.Some? ==> ids[n] in s'.db.rows && s'.db.rows[ids[n]].fin == Finalized && s'.db.rows[ids[n]].durable == r)
  }

  /** The calls of the sweep, one after the other. */
  ghost predicate Gates(trace: seq<Step>, sweep: Sweep, ids: seq<nat>) {
    exists at: seq<nat> | |at| == |ids| ::
      && (forall i | 0 <= i < |at| :: at[i] < |trace| && trace[at[i]] == CallOn(sweep, i, ids[i]))
      && forall i, j | 0 <= i < j < |at| :: at[i] < at[j]
  }

  lemma FromOneCall(trace: seq<Step>, call: seq<Step>, sweep: Sweep, ids: seq<nat>, aid: nat)
    requires FromSweep(trace, sweep, ids) && From(call, sweep.wid(|ids|), sweep.plan(|ids|).others)
    requires call != [] && call[0] == CallOn(sweep, |ids|, aid)
    ensures FromSweep(trace + call, sweep, ids + [aid])
  {
    var more, all := trace + call, ids + [aid];
    forall k | 0 <= k < |more|
      ensures || (WorkerStep(more[k]) && exists i | 0 <= i < |all| ::
                    more[k].wid == sweep.wid(i) && (more[k].Gate? ==> more[k] == CallOn(sweep, i, all[i])))
              || more[k].Log?
              || exists i, j :: more[k] in sweep.plan(i).others(j)
    {
      if k >= |trace| {
        assert more[k] == call[k - |trace|] && all[|ids|] == aid;
      } else {
        assert more[k] == trace[k];
        if i :| WorkerStep(more[k]) && 0 <= i < |ids| && more[k].wid == sweep.wid(i)
                && (more[k].Gate? ==> more[k] == CallOn(sweep, i, ids[i])) {
          assert all[i] == ids[i];
        }
      }
    }
    OneMoreGate(trace, call, sweep, ids, aid);
  }

  lemma OneMoreGate(trace: seq<Step>, call: seq<Step>, sweep: Sweep, ids: seq<nat>, aid: nat)
    requires Gates(trace, sweep, ids) && call != [] && call[0] == CallOn(sweep, |ids|, aid)
    ensures Gates(trace + call, sweep, ids + [aid])
  {
    var at: seq<nat> :| && |at| == |ids|
                        && (forall i | 0 <= i < |at| :: at[i] < |trace| && trace[at[i]] == CallOn(sweep, i, ids[i]))
                        && forall i, j | 0 <= i < j < |at| :: at[i] < at[j];
    var at' := at + [|trace|];
    forall i | 0 <= i < |at'|
      ensures at'[i] < |trace + call| && (trace + call)[at'[i]] == CallOn(sweep, i, (ids + [aid])[i])
    {
    }
    assert forall i, j | 0 <= i < j < |at'| :: at'[i] < at'[j];
  }

  /** A call that acts only as `wid` leaves every other worker id alone. */
  lemma {:induction false} RunFrame(cfg: Config, s: State, trace: seq<Step>, w: string)
    requires forall k | 0 <= k < |trace| :: WorkerStep(trace[k]) ==> trace[k].wid != w
    ensures SameAt(s.workers, Run(cfg, s, trace).workers, w) && s.now <= Run(cfg, s, trace).now
    decreases |trace|
  {
    if trace != [] {
      var front, last := trace[..|trace| - 1], trace[|trace| - 1];
      RunFrame(cfg, s, front, w);
      OneStepFrame(cfg, Run(cfg, s, front), last, w, 0);
      Monotone(cfg, Run(cfg, s, front), last);
    }
  }

  lemma CallLeavesOthersAlone(cfg: Config, s: State, call: seq<Step>, sweep: Sweep, n: nat, w: string)
    requires From(call, sweep.wid(n), sweep.plan(n).others) && w != sweep.wid(n) && LeavesAlone(sweep.plan(n).others, w)
    ensures SameAt(s.workers, Run(cfg, s, call).workers, w) && s.now <= Run(cfg, s, call).now
  {
    forall k | 0 <= k < |call| ensures WorkerStep(call[k]) ==> call[k].wid != w {
      if i :| call[k] in sweep.plan(n).others(i) {
        assert !ActsAsWorker(sweep.plan(n).others(i), w);
      }
    }
    RunFrame(cfg, s, call, w);
  }

  lemma OneCallLess(cfg: Config, s: State, call: seq<Step>, sweep: Sweep, n: nat)
    requires SweepOk(sweep) && Startable(s, sweep, n) && From(call, sweep.wid(n), sweep.plan(n).others)
    ensures Startable(Run(cfg, s, call), sweep, n + 1)
  {
    hide From, Run;
    forall i | i >= n + 1
      ensures sweep.wid(i) !in Run(cfg, s, call).workers && sweep.plan(i).t0 <= Run(cfg, s, call).now
    {
      CallLeavesOthersAlone(cfg, s, call, sweep, n, sweep.wid(i));
    }
  }

  lemma CallStarts(s: State, sweep: Sweep, n: nat)
    requires SweepOk(sweep) && Startable(s, sweep, n)
    ensures sweep.wid(n) !in s.workers && sweep.wid(n) != RTBF_WORKER && sweep.plan(n).t0 <= s.now
    ensures LeavesAlone(sweep.plan(n).others, sweep.wid(n))
  {
    hide LeavesAlone;
  }

  method RedriveOne(world: World, aid: nat, sweep: Sweep, n: nat, ghost before: seq<nat>, ghost base: State,
                    ghost trace: seq<Step>)
    returns (r: Option<string>, ghost longer: seq<Step>)
    requires world.Ready() && world.S() == Run(world.outbox.cfg, base, trace)
    requires |before| == n && FromSweep(trace, sweep, before)
    requires SweepOk(sweep) && Startable(world.S(), sweep, n)
    modifies world, world.outbox, world.log
    ensures world.Ready() && world.S() == Run(world.outbox.cfg, base, longer)
    ensures FromSweep(longer, sweep, before + [aid])
    ensures Startable(world.S(), sweep, n + 1)
    ensures longer == trace + FinalizeScript(world.outbox.cfg, old(world.S()), aid, sweep.wid(n), sweep.plan(n))
    ensures r.Some? <==> Answers(world.outbox.cfg, old(world.S()), aid, sweep.wid(n), sweep.plan(n))
    ensures r.Some? ==> aid in world.outbox.rows && world.outbox.rows[aid].fin == Finalized
                        && world.outbox.rows[aid].durable == r
  {
    ghost var s := world.S();
    hide Answers, FinalizeScript, From, FromSweep, LeavesAlone, Run, Sound, Startable, SweepOk, Undisturbed;
    CallStarts(s, sweep, n);
    ghost var call;
    r, call := FinalizeApprovedCandidate(world, aid, sweep.wid(n), sweep.plan(n));
    RunConcat(world.outbox.cfg, base, trace, call);
    FromOneCall(trace, call, sweep, before, aid);
    OneCallLess(world.outbox.cfg, s, call, sweep, n);
    longer := trace + call;
  }

  /**
   `redrive_pending_finalizations`: one finalize call on each row that was redrivable when the sweep
   began, in the order of their ids; one bad row does not stop the sweep. The sweep is a run of the
   protocol, and counts exactly the calls that returned an id.
   */
  method RedrivePendingFinalizations(world: World, sweep: Sweep)
    returns (finalized: nat, ghost ids: seq<nat>, ghost results: seq<Option<string>>, ghost trace: seq<Step>)
    requires world.Ready() && SweepOk(sweep) && Startable(world.S(), sweep, 0)
    modifies world, world.outbox, world.log
    ensures world.Ready() && world.S() == Run(world.outbox.cfg, old(world.S()), trace)
    ensures !Configured(world.outbox.cfg) ==> ids == [] && trace == []
    ensures Configured(world.outbox.cfg) ==>
              && (forall a: nat :: a in ids <==>
                    && a in old(world.outbox.rows)
                    && var row, cfg := old(world.outbox.rows)[a], world.outbox.cfg;
                       && row.status == Approved && row.event.Some? && row.via == Some(cfg.via)
                       && row.approver.Some? && row.approver.value in cfg.approvers && Free(row, sweep.t0))
              && forall i, j | 0 <= i < j < |ids| :: ids[i] < ids[j]
    ensures FromSweep(trace, sweep, ids)
    ensures |results| == |ids| && finalized == Count(results)
    ensures trace == SweepScript(world.outbox.cfg, old(world.S()), sweep, ids)
    ensures forall n | 0 <= n < |ids| :: AnswerIs(world.outbox.cfg, old(world.S()), sweep, ids, n, results[n])
  {
    finalized, ids, results, trace := 0, [], [], [];
    NoCallsYet(world.outbox.cfg, world.S(), sweep);
    if world.outbox.cfg.approvers == {} || world.outbox.cfg.via == "" {
      return;
    }
    hide AnswerIs, FromSweep, RedrivableIds, Run, Sound, Startable, SweepOk, SweepScript;
    var rows := SelectRedrivable(world, sweep.t0);
    RedrivableIff(world.outbox.cfg, world.S().db, sweep.t0);
    ids := rows;
    finalized, results, trace := RedriveAll(world, rows, sweep);
  }

  /** The sweep has made its first |results| calls, on the first rows of the list. */
  ghost predicate SweptSoFar(cfg: Config, s: State, base: State, rows: seq<nat>, sweep: Sweep,
                             results: seq<Option<string>>, trace: seq<Step>) {
    && |results| <= |rows| && s == Run(cfg, base, trace) && FromSweep(trace, sweep, rows[..|results|])
    && Startable(s, sweep, |results|) && trace == SweepScript(cfg, base, sweep, rows[..|results|])
    && forall n | 0 <= n < |results| :: AnswerIs(cfg, base, sweep, rows, n, results[n])
  }

  method RedriveAll(world: World, rows: seq<nat>, sweep: Sweep)
    returns (finalized: nat, ghost results: seq<Option<string>>, ghost trace: seq<Step>)
    requires world.Ready() && SweepOk(sweep) && Startable(world.S(), sweep, 0)
    modifies world, world.outbox, world.log
    ensures world.Ready() && world.S() == Run(world.outbox.cfg, old(world.S()), trace)
    ensures FromSweep(trace, sweep, rows) && |results| == |rows| && finalized == Count(results)
    ensures trace == SweepScript(world.outbox.cfg, old(world.S()), sweep, rows)
    ensures forall n | 0 <= n < |rows| :: AnswerIs(world.outbox.cfg, old(world.S()), sweep, rows, n, results[n])
  {
    finalized, results, trace := 0, [], [];
    ghost var base := world.S();
    NoCallsYet(world.outbox.cfg, base, sweep);
    hide AnswerIs, Count, SweptSoFar, Run, Sound, Startable, SweepOk, FromSweep, SweepScript;
    StartOfSweep(world.outbox.cfg, base, rows, sweep);
    for n := 0 to |rows|
      invariant world.Ready() && SweptSoFar(world.outbox.cfg, world.S(), base, rows, sweep, results, trace)
      invariant |results| == n && finalized == Count(results)
    {
      var r;
      r, results, trace := RedriveNext(world, rows, n, sweep, base, results, trace);
      if r.Some? {
        finalized := finalized + 1;
      }
    }
    EndOfSweep(world.outbox.cfg, world.S(), base, rows, sweep, results, trace);
  }

  lemma StartOfSweep(cfg: Config, s: State, rows: seq<nat>, sweep: Sweep)
    requires Startable(s, sweep, 0)
    ensures SweptSoFar(cfg, s, s, rows, sweep, [], [])
  {
    NoCallsYet(cfg, s, sweep);
    assert rows[..0] == [];
  }

  lemma EndOfSweep(cfg: Config, s: State, base: State, rows: seq<nat>, sweep: Sweep, results: seq<Option<string>>,
                   trace: seq<Step>)
    requires SweptSoFar(cfg, s, base, rows, sweep, results, trace) && |results| == |rows|
    ensures s == Run(cfg, base, trace) && FromSweep(trace, sweep, rows) && trace == SweepScript(cfg, base, sweep, rows)
    ensures forall n | 0 <= n < |rows| :: AnswerIs(cfg, base, sweep, rows, n, results[n])
  {
    assert rows[..|rows|] == rows;
  }

  method RedriveNext(world: World, rows: seq<nat>, n: nat, sweep: Sweep, ghost base: State,
                     ghost results: seq<Option<string>>, ghost trace: seq<Step>)
    returns (r: Option<string>, ghost more: seq<Option<string>>, ghost longer: seq<Step>)
    requires world.Ready() && n == |results| < |rows| && SweepOk(sweep)
    requires SweptSoFar(world.outbox.cfg, world.S(), base, rows, sweep, results, trace)
    modifies world, world.outbox, world.log
    ensures world.Ready() && SweptSoFar(world.outbox.cfg, world.S(), base, rows, sweep, more, longer)
    ensures more == results + [r] && Count(more) == Count(results) + if r.Some? then 1 else 0
  {
    hide Answers, Count, FinalizeScript, FromSweep, Run, Sound, Startable, SweepOk, SweepScript;
    ghost var s := world.S();
    r, longer := RedriveOne(world, rows[n], sweep, n, rows[..n], base, trace);
    assert rows[..n] + [rows[n]] == rows[..n + 1];
    CountOne(results, r);
    more := results + [r];
    OneCallMore(world.outbox.cfg, base, s, world.S(), sweep, rows, n, r, trace, longer);
  }

  lemma OneCallMore(cfg: Config, base: State, s: State, s': State, sweep: Sweep, rows: seq<nat>, n: nat,
                    r: Option<string>, trace: seq<Step>, longer: seq<Step>)
    requires n < |rows| && trace == SweepScript(cfg, base, sweep, rows[..n]) && s == Run(cfg, base, trace)
    requires longer == trace + FinalizeScript(cfg, s, rows[n], sweep.wid(n), sweep.plan(n))
    requires s' == Run(cfg, base, longer)
    requires r.Some? <==> Answers(cfg, s, rows[n], sweep.wid(n), sweep.plan(n))
    requires r.Some? ==> rows[n] in s'.db.rows && s'.db.rows[rows[n]].fin == Finalized
                         && s'.db.rows[rows[n]].durable == r
    ensures longer == SweepScript(cfg, base, sweep, rows[..n + 1]) && AnswerIs(cfg, base, sweep, rows, n, r)
  {
    hide Answers, FinalizeScript, Run;
    assert rows[..n + 1][..n] == rows[..n] && rows[..n + 1][n] == rows[n];
  }

  lemma CountOne(results: seq<Option<string>>, r: Option<string>)
    ensures Count(results + [r]) == Count(results) + if r.Some? then 1 else 0
  {
    assert (results + [r])[..|results|] == results;
  }

  lemma NoCallsYet(cfg: Config, s: State, sweep: Sweep)
    ensures FromSweep([], sweep, []) && Run(cfg, s, []) == s && Count([]) == 0
  {
    var none: seq<nat> := [];
    assert |none| == 0;
  }

  function Count(results: seq<Option<string>>): nat {
    if results == [] then 0
    else Count(results[..|results| - 1]) + if results[|results| - 1].Some? then 1 else 0
  }

  // ---------------------------------------------------------------- what a call achieves

  /** A finalized row keeps its id through anything but a forget. */
  lemma {:induction false} FinalizedStays(cfg: Config, s: State, trace: seq<Step>, a: nat)
    requires Sound(s.db) && a in s.db.rows && s.db.rows[a].fin == Finalized && s.db.rows[a].durable.Some?
    requires forall k | 0 <= k < |trace| :: !ForgetStep(trace[k]) && !trace[k].HandEdit?
    ensures var db := Run(cfg, s, trace).db;
            Sound(db) && a in db.rows && db.rows[a].fin == Finalized && db.rows[a].durable == s.db.rows[a].durable
    decreases |trace|
  {
    if trace != [] {
      var front, last := trace[..|trace| - 1], trace[|trace| - 1];
      FinalizedStays(cfg, s, front, a);
      hide Sound;
      var s1 := Run(cfg, s, front);
      SoundStep(cfg, s1, last);
      RowPersists(cfg, s1, last, a);
      RowSurvives(cfg, s1, last, a);
      FinMoves(cfg, s1, last, a);
      hide Apply;
      NobodyRecordsOver(s1, last, a);
    }
  }

  lemma RowSurvives(cfg: Config, s: State, step: Step, a: nat)
    requires Sound(s.db) && a in s.db.rows && !step.HandEdit? && !step.Purge?
    ensures a in Apply(cfg, s, step).db.rows
  {
    EvolveStep(cfg, s, step);
  }

  lemma NobodyRecordsOver(s: State, step: Step, a: nat)
    requires a in s.db.rows && s.db.rows[a].fin == Finalized && s.db.rows[a].durable.Some?
    ensures RecordsHere(s, step) ==> s.workers[step.wid].aid != a
  {
  }

  /** The row is finalized under `id`, and the store holds `id` for this approval. */
  predicate Achieved(s: State, aid: nat, id: string) {
    && aid in s.db.rows && s.db.rows[aid].fin == Finalized && s.db.rows[aid].durable == Some(id)
    && id in s.store && Carries(s.store[id], aid)
  }

  /** Nobody else acts, the log and the store answer, and the approval passes the gates and is free. */
  ghost predicate Undisturbed(cfg: Config, s: State, aid: nat, plan: FinalizePlan, id: string) {
    && Alone(plan.others) && plan.readable && plan.built && plan.fate == Lands && Configured(cfg)
    && aid in s.db.rows && Accepted(cfg, aid, s.db.rows[aid], s.audit) && Free(s.db.rows[aid], plan.t0)
    && cfg.contentHash(s.db.rows[aid].cand) == Some(id)
  }

  /** What the whole call does then. */
  ghost predicate Finishes(cfg: Config, s: State, aid: nat, wid: string, plan: FinalizePlan, id: string) {
    var s' := Run(cfg, s, FinalizeScript(cfg, s, aid, wid, plan));
    id !in s.store || (MarkerHits(s, aid) == {id} && plan.found(0)) ==>
      && Answers(cfg, s, aid, wid, plan) && Achieved(s', aid, id)
      && (id !in s.store ==> s'.store.Keys == s.store.Keys + {id})
      && (id in s.store ==> s'.store == s.store)
  }

  lemma FoundIsAnswered(cfg: Config, s: State, aid: nat, wid: string, plan: FinalizePlan)
    requires wid !in s.workers && wid != RTBF_WORKER && plan.t0 <= s.now && FoundFinalized(cfg, s.db, aid)
    ensures Run(cfg, s, FinalizeScript(cfg, s, aid, wid, plan)) == s
    ensures Answers(cfg, s, aid, wid, plan) <==> s.db.rows[aid].durable.Some?
  {
    GateTells(cfg, s, wid, aid, plan.t0, plan.readable);
    RunOne(cfg, s, [], Call(aid, wid, plan));
    assert [] + [Call(aid, wid, plan)] == [Call(aid, wid, plan)];
    hide Apply, GateDecision, GateStep;
  }

  lemma FreeIsClaimed(cfg: Config, s: State, aid: nat, wid: string, plan: FinalizePlan, id: string)
    requires wid !in s.workers && wid != RTBF_WORKER && plan.t0 <= s.now && Undisturbed(cfg, s, aid, plan, id)
    ensures Claims(cfg, s, Call(aid, wid, plan))
    ensures GateDecision(cfg, s.db, s.audit, true, aid, plan.t0).cand == s.db.rows[aid].cand
  {
    hide GateRefusal;
  }

  /** The worker owns its claim, holds these bytes, and the store is as it was. */
  predicate Poised(s: State, s0: State, wid: string, aid: nat, phase: Phase, id: string, cfg: Config) {
    && Owns(s, wid) && s.workers[wid].aid == aid && s.workers[wid].phase == phase
    && cfg.contentHash(s.workers[wid].cand) == Some(id) && s.store == s0.store
  }

  /** Attempts that time out change nothing of that. */
  lemma {:induction false} SendsKeepPoised(cfg: Config, base: State, trace: seq<Step>, s0: State, wid: string, aid: nat,
                                          plan: FinalizePlan, id: string, attempts: nat)
    requires Alone(plan.others) && Poised(Run(cfg, base, trace), s0, wid, aid, Revalidated, id, cfg)
    ensures Poised(Run(cfg, base, SendScript(trace, wid, plan, attempts)), s0, wid, aid, Revalidated, id, cfg)
    decreases attempts
  {
    hide Apply, Poised, Run;
    if attempts > 0 {
      SendsKeepPoised(cfg, base, trace, s0, wid, aid, plan, id, attempts - 1);
      var before := SendScript(trace, wid, plan, attempts - 1);
      AloneAt(plan.others, -(attempts as int));
      assert before + [] == before;
      RunOne(cfg, base, before, Send(wid));
      SendKeepsPoised(cfg, Run(cfg, base, before), s0, wid, aid, id);
    }
  }

  lemma SendKeepsPoised(cfg: Config, s: State, s0: State, wid: string, aid: nat, id: string)
    requires Poised(s, s0, wid, aid, Revalidated, id, cfg)
    ensures Poised(Apply(cfg, s, Send(wid)), s0, wid, aid, Revalidated, id, cfg)
  {
  }

  /** A step of the call when nobody else moves. */
  lemma AloneOne(cfg: Config, base: State, trace: seq<Step>, plan: FinalizePlan, turn: int, step: Step)
    requires Alone(plan.others)
    ensures trace + plan.others(turn) + [step] == trace + [step]
    ensures Run(cfg, base, trace + [step]) == Apply(cfg, Run(cfg, base, trace), step)
  {
    AloneAt(plan.others, turn);
    assert trace + [] == trace;
    RunOne(cfg, base, trace, step);
  }

  /** Claimed, checked, sent: the call is about to write. */
  lemma GetsToWrite(cfg: Config, s: State, aid: nat, wid: string, plan: FinalizePlan, id: string)
    requires wid !in s.workers && wid != RTBF_WORKER && plan.t0 <= s.now && Undisturbed(cfg, s, aid, plan, id)
    ensures var gated := [Call(aid, wid, plan)];
            var checked := gated + [Check(wid, plan.built)];
            && wid in Run(cfg, s, gated).workers
            && InPhase(Run(cfg, s, checked), wid, Revalidated)
            && Poised(Run(cfg, s, SendScript(checked, wid, plan, plan.timeouts)), s, wid, aid, Revalidated, id, cfg)
  {
    var gated := [Call(aid, wid, plan)];
    var checked := gated + [Check(wid, plan.built)];
    FreeIsClaimed(cfg, s, aid, wid, plan, id);
    ClaimedState(cfg, s, wid, aid, plan.t0);
    assert [] + gated == gated && Run(cfg, s, []) == s;
    RunOne(cfg, s, [], Call(aid, wid, plan));
    RunOne(cfg, s, gated, Check(wid, true));
    hide Apply, Run, GateDecision, Accepted, Claims;
    CheckPasses(cfg, Run(cfg, s, gated), wid);
    SendsKeepPoised(cfg, s, checked, s, wid, aid, plan, id, plan.timeouts);
  }

  /**
   Left alone over a store that answers: the row is written once, or the row found by its marker is
   taken, and the approval is finalized under it.
   */
  lemma UndisturbedFinishes(cfg: Config, s: State, aid: nat, wid: string, plan: FinalizePlan, id: string)
    requires wid !in s.workers && wid != RTBF_WORKER && plan.t0 <= s.now && Undisturbed(cfg, s, aid, plan, id)
    ensures Finishes(cfg, s, aid, wid, plan, id)
  {
    var gated := [Call(aid, wid, plan)];
    GetsToWrite(cfg, s, aid, wid, plan, id);
    var sent := SendScript(gated + [Check(wid, plan.built)], wid, plan, plan.timeouts);
    assert plan.fate == Lands && Alone(plan.others);
    hide Accepted, Achieved, Apply, Answers, FinalizeScript, Holds, InPhase, RecordScript, Run, SendScript, Undisturbed,
      WriteScript;
    if id !in s.store {
      WritesFresh(cfg, s, gated, aid, wid, plan, id, s);
      RecordEndsCall(cfg, s, sent + [Write(wid, Lands)], aid, wid, plan, id);
      EndOfScript(cfg, s, aid, wid, plan, id, sent + [Write(wid, Lands)]);
    } else if MarkerHits(s, aid) == {id} && plan.found(0) {
      FindsOwn(cfg, s, gated, aid, wid, plan, id, s);
      RecordEndsCall(cfg, s, sent + [Write(wid, Lands)] + [FindMarker(wid, true, false)], aid, wid, plan, id);
      EndOfScript(cfg, s, aid, wid, plan, id, sent + [Write(wid, Lands)] + [FindMarker(wid, true, false)]);
    }
  }

  lemma EndOfScript(cfg: Config, s: State, aid: nat, wid: string, plan: FinalizePlan, id: string, written: seq<Step>)
    requires var gated := [Call(aid, wid, plan)];
             wid in Run(cfg, s, gated).workers && WriteScript(cfg, s, gated, wid, plan) == written
    requires Holds(Run(cfg, s, written), aid, wid, id)
    ensures FinalizeScript(cfg, s, aid, wid, plan) == RecordScript(cfg, s, written + plan.others(5), wid, plan)
    ensures Answers(cfg, s, aid, wid, plan) <==> !Loses(cfg, s, written + plan.others(5), wid)
  {
    hide Run, RecordScript, WriteScript, Loses;
  }

  lemma AchievedIsRecorded(s: State, aid: nat, id: string)
    ensures Achieved(s, aid, id) ==> aid in s.db.rows && s.db.rows[aid].durable == Some(id)
  {
  }

  /** Over a store without the id, the store calls end with the row written and its id held. */
  lemma WritesFresh(cfg: Config, base: State, trace: seq<Step>, aid: nat, wid: string, plan: FinalizePlan, id: string,
                    s0: State)
    requires Alone(plan.others) && plan.fate == Lands && id !in s0.store
    requires var checked := trace + [Check(wid, plan.built)];
             && InPhase(Run(cfg, base, checked), wid, Revalidated)
             && Poised(Run(cfg, base, SendScript(checked, wid, plan, plan.timeouts)), s0, wid, aid, Revalidated, id,
                       cfg)
    ensures var written := SendScript(trace + [Check(wid, plan.built)], wid, plan, plan.timeouts) + [Write(wid, Lands)];
            && WriteScript(cfg, base, trace, wid, plan) == written
            && var s := Run(cfg, base, written);
               && Holds(s, aid, wid, id) && s.store.Keys == s0.store.Keys + {id}
  {
    var sent := SendScript(trace + [Check(wid, plan.built)], wid, plan, plan.timeouts);
    AloneOne(cfg, base, trace, plan, 1, Check(wid, plan.built));
    AloneOne(cfg, base, sent, plan, 2, Write(wid, Lands));
    hide Apply, Run, SendScript, LookupScript, Owns;
    FreshWriteLands(cfg, Run(cfg, base, sent), wid, id);
  }

  /** Over a store that holds the row, they end with its id held and nothing changed. */
  lemma FindsOwn(cfg: Config, base: State, trace: seq<Step>, aid: nat, wid: string, plan: FinalizePlan, id: string,
                 s0: State)
    requires Alone(plan.others) && plan.fate == Lands && MarkerHits(s0, aid) == {id} && plan.found(0)
    requires var checked := trace + [Check(wid, plan.built)];
             && InPhase(Run(cfg, base, checked), wid, Revalidated)
             && Poised(Run(cfg, base, SendScript(checked, wid, plan, plan.timeouts)), s0, wid, aid, Revalidated, id,
                       cfg)
    ensures var sent := SendScript(trace + [Check(wid, plan.built)], wid, plan, plan.timeouts);
            var found := sent + [Write(wid, Lands)] + [FindMarker(wid, true, false)];
            && WriteScript(cfg, base, trace, wid, plan) == found
            && var s := Run(cfg, base, found);
               && Holds(s, aid, wid, id) && s.store == s0.store
  {
    hide Apply, Carries, Owns, Run, SendScript;
    var sent := SendScript(trace + [Check(wid, plan.built)], wid, plan, plan.timeouts);
    var s := Run(cfg, base, sent);
    assert id in MarkerHits(s0, aid) && MarkerHits(s, aid) == MarkerHits(s0, aid);
    AloneOne(cfg, base, trace, plan, 1, Check(wid, plan.built));
    AloneOne(cfg, base, sent, plan, 2, Write(wid, Lands));
    AloneOne(cfg, base, sent + [Write(wid, Lands)], plan, 3, FindMarker(wid, true, false));
    DuplicateWriteFindsTheRow(cfg, s, wid, id);
  }

  /** The worker owns its claim and holds the id of a store row with its approval's marker. */
  predicate Holds(s: State, aid: nat, wid: string, id: string) {
    && Owns(s, wid) && s.workers[wid].aid == aid && s.workers[wid].phase == Wrote(id)
    && id in s.store && Carries(s.store[id], aid)
  }

  /** The record of a worker that owns its claim ends the call. */
  lemma RecordEndsCall(cfg: Config, base: State, trace: seq<Step>, aid: nat, wid: string, plan: FinalizePlan,
                       id: string)
    requires Alone(plan.others)
    requires Holds(Run(cfg, base, trace), aid, wid, id)
    ensures !Loses(cfg, base, trace + plan.others(5), wid)
    ensures var s' := Run(cfg, base, RecordScript(cfg, base, trace + plan.others(5), wid, plan));
            Achieved(s', aid, id) && s'.store == Run(cfg, base, trace).store
  {
    AloneAt(plan.others, 5);
    assert trace + [] == trace;
    var s, recorded := Run(cfg, base, trace), trace + [Step.Record(wid)];
    RunOne(cfg, base, trace, Step.Record(wid));
    RecordFinalizes(cfg, s, wid, id);
    if plan.outcome.Some? {
      RunOne(cfg, base, recorded, Step.Log(plan.outcome.value));
      LogKeepsAchieved(cfg, Run(cfg, base, recorded), plan.outcome.value, aid, id);
    }
    hide Apply, Run, RecordsHere;
  }

  lemma LogKeepsAchieved(cfg: Config, s: State, e: Entry, aid: nat, id: string)
    ensures var s' := Apply(cfg, s, Step.Log(e));
            s'.store == s.store && (Achieved(s, aid, id) ==> Achieved(s', aid, id))
  {
  }

  /** Left alone, over a store that answers, a call that claims writes its row once and finalizes it. */
  lemma UndisturbedCallFinalizes(cfg: Config, s: State, wid: string, aid: nat, t0: int, id: string)
    requires Claims(cfg, s, Step.Gate(wid, aid, t0, true)) && id !in s.store
    requires cfg.contentHash(GateDecision(cfg, s.db, s.audit, true, aid, t0).cand) == Some(id)
    ensures var s1 := Apply(cfg, s, Step.Gate(wid, aid, t0, true));
            var s2 := Apply(cfg, s1, Check(wid, true));
            var s3 := Apply(cfg, s2, Write(wid, Lands));
            var s4 := Apply(cfg, s3, Step.Record(wid));
            Achieved(s4, aid, id) && s4.wins == s.wins + multiset{aid} && s4.store.Keys == s.store.Keys + {id}
  {
    var s1 := Apply(cfg, s, Step.Gate(wid, aid, t0, true));
    ClaimedState(cfg, s, wid, aid, t0);
    hide Apply, GateDecision;
    CheckPasses(cfg, s1, wid);
    var s2 := Apply(cfg, s1, Check(wid, true));
    FreshWriteLands(cfg, s2, wid, id);
    RecordFinalizes(cfg, Apply(cfg, s2, Write(wid, Lands)), wid, id);
  }

  /**
   The retry after a crash between write and record: the row found by its marker is recorded,
   and nothing is written twice.
   */
  lemma RetryRecordsTheSameRow(cfg: Config, s: State, wid: string, aid: nat, t0: int, id: string)
    requires Claims(cfg, s, Step.Gate(wid, aid, t0, true)) && MarkerHits(s, aid) == {id}
    requires cfg.contentHash(GateDecision(cfg, s.db, s.audit, true, aid, t0).cand) == Some(id)
    ensures var s1 := Apply(cfg, s, Step.Gate(wid, aid, t0, true));
            var s2 := Apply(cfg, s1, Check(wid, true));
            var s3 := Apply(cfg, s2, Write(wid, Lands));
            var s4 := Apply(cfg, s3, FindMarker(wid, true, false));
            var s5 := Apply(cfg, s4, Step.Record(wid));
            Achieved(s5, aid, id) && s5.wins == s.wins + multiset{aid} && s5.store == s.store
  {
    var s1 := Apply(cfg, s, Step.Gate(wid, aid, t0, true));
    ClaimedState(cfg, s, wid, aid, t0);
    hide Apply, GateDecision;
    CheckPasses(cfg, s1, wid);
    var s2 := Apply(cfg, s1, Check(wid, true));
    assert id in MarkerHits(s, aid);
    DuplicateWriteFindsTheRow(cfg, s2, wid, id);
    RecordFinalizes(cfg, Apply(cfg, Apply(cfg, s2, Write(wid, Lands)), FindMarker(wid, true, false)), wid, id);
  }

  lemma CheckPasses(cfg: Config, s: State, wid: string)
    requires Owns(s, wid) && s.workers[wid].phase == Holding && cfg.contentHash(s.workers[wid].cand).Some?
    ensures var s' := Apply(cfg, s, Check(wid, true));
            s' == Move(s, wid, Revalidated) && Owns(s', wid) && s'.store == s.store
  {
  }

  lemma FreshWriteLands(cfg: Config, s: State, wid: string, id: string)
    requires Owns(s, wid) && s.workers[wid].phase == Revalidated && cfg.contentHash(s.workers[wid].cand) == Some(id)
    requires id !in s.store
    ensures var s' := Apply(cfg, s, Write(wid, Lands));
            && Owns(s', wid) && s'.workers[wid].aid == s.workers[wid].aid && s'.workers[wid].phase == Wrote(id)
            && id in s'.store && Carries(s'.store[id], s.workers[wid].aid) && s'.store.Keys == s.store.Keys + {id}
            && s'.wins == s.wins
  {
  }

  lemma DuplicateWriteFindsTheRow(cfg: Config, s: State, wid: string, id: string)
    requires Owns(s, wid) && s.workers[wid].phase == Revalidated && cfg.contentHash(s.workers[wid].cand) == Some(id)
    requires MarkerHits(s, s.workers[wid].aid) == {id}
    ensures InPhase(Apply(cfg, s, Write(wid, Lands)), wid, Duplicate)
    ensures var s' := Apply(cfg, Apply(cfg, s, Write(wid, Lands)), FindMarker(wid, true, false));
            && Owns(s', wid) && s'.workers[wid].aid == s.workers[wid].aid && s'.workers[wid].phase == Wrote(id)
            && s'.store == s.store && s'.wins == s.wins
            && id in s'.store && Carries(s'.store[id], s'.workers[wid].aid)
  {
    assert id in MarkerHits(s, s.workers[wid].aid);
    var s3 := Apply(cfg, s, Write(wid, Lands));
    assert s3 == Move(s, wid, Duplicate);
    assert MarkerHits(s3, s.workers[wid].aid) == {id};
  }

  lemma ClaimedState(cfg: Config, s: State, wid: string, aid: nat, t0: int)
    requires Claims(cfg, s, Step.Gate(wid, aid, t0, true))
    ensures var s1 := Apply(cfg, s, Step.Gate(wid, aid, t0, true));
            var c := GateDecision(cfg, s.db, s.audit, true, aid, t0);
            && s1.store == s.store && s1.wins == s.wins
            && wid in s1.workers && s1.workers[wid].phase == Holding && s1.workers[wid].aid == aid
            && s1.workers[wid].cand == c.cand && Owns(s1, wid)
  {
    hide GateRefusal;
  }

  lemma RecordFinalizes(cfg: Config, s: State, wid: string, id: string)
    requires Owns(s, wid) && s.workers[wid].phase == Wrote(id)
    requires id in s.store && Carries(s.store[id], s.workers[wid].aid)
    ensures var s' := Apply(cfg, s, Step.Record(wid));
            && Achieved(s', s.workers[wid].aid, id) && s'.wins == s.wins + multiset{s.workers[wid].aid}
            && s'.store == s.store && wid in s'.workers && s'.workers[wid].phase == Ended
  {
  }
}
