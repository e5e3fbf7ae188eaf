/**
 The machine's steps on real tables: each step of each actor executed by the transactions of the
 queue database, the log and the store, and any sequence of them between two steps of a call.
 */
module Execution {
  import opened Basics
  import opened AuditChain
  import opened Queue
  import opened QueueLaws
  import opened Outbox
  import opened Protocol
  import opened ProtocolFrames
  import opened Invariants

  /** The queue database, the audit log, the store, and the calls in progress. */
  class World {
    const outbox: OutboxDb
    const log: AuditLog
    var now: int
    var store: map<string, StoreRow>
    var posts: multiset<Post>
    var pending: set<string>
    var workers: map<string, Worker>
    var forgets: map<nat, Forget>
    ghost var cands: map<nat, string>
    ghost var wins: multiset<nat>

    ghost function S(): State
      reads this, outbox, log
    {
      State(now, outbox.Db(), log.rows, store, posts, pending, workers, forgets, cands, wins)
    }

    ghost predicate Ready()
      reads this, outbox, log
    {
      outbox.Valid() && log.hasher == outbox.cfg.hasher
    }

    constructor (cfg: Config)
      ensures Ready() && fresh(outbox) && fresh(log) && outbox.cfg == cfg && Initial(cfg, S())
    {
      outbox := new OutboxDb(cfg);
      log := new AuditLog(cfg.hasher);
      now, store, posts, pending := 0, map[], multiset{}, {};
      workers, forgets, cands, wins := map[], map[], map[], multiset{};
    }

    // -------------------------------------------------------------- the finalizer's steps

    method Enter(wid: string, phase: Phase)
      requires wid in workers
      modifies this`workers
      ensures workers == old(workers)[wid := old(workers)[wid].(phase := phase)]
    {
      workers := workers[wid := workers[wid].(phase := phase)];
    }

    /** Gate and claim; a claim remembers what the verified receipt and the row said. */
    method Gate(wid: string, aid: nat, t0: int, readable: bool) returns (outcome: GateOutcome)
      requires Ready() && wid !in workers && wid != RTBF_WORKER && t0 <= now
      modifies this`workers, outbox
      ensures Ready() && S() == GateStep(outbox.cfg, old(S()), wid, aid, t0, readable)
      ensures outcome == GateDecision(outbox.cfg, old(S()).db, old(S()).audit, readable, aid, t0)
    {
      outcome := outbox.GateAndClaim(log, aid, wid, t0, readable);
      if outcome.Claimed? {
        var verified := log.VerifyThrough(outcome.num);
        var author := if verified.Ok?
                      then Clean(outbox.cfg, Lookup(verified.value.content.entry.details, "proposed_by_profile"))
                      else None;
        assert author == Author(outbox.cfg, log.rows, outcome.num);
        workers := workers[wid :=
          Worker(aid, outcome.cand, outcome.event, t0, outcome.num, author, |log.rows|, Holding)];
      }
    }

    /** Build the payload, then look again whether the claim is still held. */
    method Check(wid: string, built: bool)
      requires Ready()
      modifies this`workers
      ensures S() == CheckStep(outbox.cfg, old(S()), wid, built)
    {
      if wid !in workers || workers[wid].phase != Holding {
        return;
      }
      if !built || outbox.cfg.contentHash(workers[wid].cand).None? {
        Enter(wid, Broken);
        return;
      }
      var owns := outbox.StillOwnsClaim(workers[wid].aid, wid);
      Enter(wid, if owns then Revalidated else Ended);
    }

    /** The store write: rejected, an exact duplicate, landed, or landed with an error for an answer. */
    method Write(wid: string, fate: Fate)
      requires Ready()
      modifies this`workers, this`store
      ensures S() == WriteStep(outbox.cfg, old(S()), wid, fate)
    {
      hide Sound, StillOwns;
      if wid !in workers || workers[wid].phase != Revalidated || outbox.cfg.contentHash(workers[wid].cand).None? {
        return;
      }
      var w := workers[wid];
      var id := outbox.cfg.contentHash(w.cand).value;
      if fate == Raises {
        Enter(wid, Broken);
      } else if id in store {
        Enter(wid, if fate == Lands then Duplicate else Broken);
      } else {
        store := store[id := StoreRow(Some(Mark(w.aid, w.cand, w.receipt, w.author, w.logLength)), true)];
        Enter(wid, if fate == Lands then Wrote(id) else Broken);
      }
    }

    /** The POST times out: it stays under way, and the worker may send it again. */
    method Send(wid: string)
      requires Ready()
      modifies this`posts
      ensures S() == SendStep(outbox.cfg, old(S()), wid)
    {
      if wid !in workers || workers[wid].phase != Revalidated || outbox.cfg.contentHash(workers[wid].cand).None? {
        return;
      }
      var w := workers[wid];
      var mark := Mark(w.aid, w.cand, w.receipt, w.author, w.logLength);
      posts := posts + multiset{Post(outbox.cfg.contentHash(w.cand).value, mark)};
    }

    /** A POST that timed out lands; the store absorbs it if the row is there. */
    method Land(post: Post)
      requires Ready()
      modifies this`posts, this`store
      ensures S() == LandStep(old(S()), post)
    {
      if post in posts {
        posts := posts - multiset{post};
        if post.id !in store {
          store := store[post.id := StoreRow(Some(post.mark), true)];
        }
      }
    }

    /** `find_active_hash_by_marker`: None when it raises, which it does on two matches. */
    method FindActiveHash(aid: nat, readable: bool) returns (r: Option<Option<string>>)
      ensures r.None? <==> !readable || |MarkerHits(S(), aid)| > 1
      ensures r.Some? && r.value.None? ==> MarkerHits(S(), aid) == {}
      ensures r.Some? && r.value.Some? ==> MarkerHits(S(), aid) == {r.value.value}
    {
      if !readable {
        return None;
      }
      var hits := set id | id in store && Carries(store[id], aid);
      assert hits == MarkerHits(S(), aid);
      if |hits| > 1 {
        return None;
      }
      if hits == {} {
        return Some(None);
      }
      var id :| id in hits;
      assert hits == {id} by {
        assert |hits - {id}| == 0;
      }
      return Some(Some(id));
    }

    method FindMarker(wid: string, readable: bool, giveUp: bool)
      requires Ready()
      modifies this`workers
      ensures S() == FindMarkerStep(old(S()), wid, readable, giveUp)
    {
      if wid !in workers || workers[wid].phase != Duplicate {
        return;
      }
      var found := FindActiveHash(workers[wid].aid, readable);
      if found.None? {
        Enter(wid, Broken);
      } else if found.value.None? {
        if giveUp {
          Enter(wid, Broken);
        }
      } else {
        Enter(wid, Wrote(found.value.value));
      }
    }

    method Fail(wid: string)
      requires Ready()
      modifies this`workers, outbox
      ensures Ready() && S() == FailStep(old(S()), wid)
    {
      if wid !in workers || workers[wid].phase != Broken {
        return;
      }
      outbox.Fail(workers[wid].aid, wid);
      Enter(wid, Ended);
    }

    method Record(wid: string) returns (outcome: RecordOutcome)
      requires Ready()
      modifies this`workers, this`wins, outbox
      ensures Ready() && S() == RecordStep(old(S()), wid)
      ensures wid in old(workers) && old(workers)[wid].phase.Wrote? ==>
                var w := old(workers)[wid];
                outcome == RecordTx(old(S()).db, w.aid, wid, w.phase.id, w.event).1
    {
      if wid !in workers || !workers[wid].phase.Wrote? {
        return Lost;
      }
      var w := workers[wid];
      outcome := outbox.Record(w.aid, wid, w.phase.id, w.event);
      Enter(wid, if outcome.Lost? then Orphaned(w.phase.id) else Ended);
      if outcome.Here? {
        wins := wins + multiset{w.aid};
      }
    }

    /** `_cleanup_orphaned_durable`: delete, or leave a handle for the reconcile sweep. */
    method Cleanup(wid: string, deleted: bool)
      requires Ready()
      modifies this`workers, this`store, this`pending
      ensures S() == CleanupStep(old(S()), wid, deleted)
    {
      if wid !in workers || !workers[wid].phase.Orphaned? {
        return;
      }
      var id := workers[wid].phase.id;
      Enter(wid, Ended);
      if deleted {
        store := store - {id};
      } else {
        pending := pending + {id};
      }
    }

    // -------------------------------------------------------------- the forget's steps

    method ForgetClaim(pid: nat, drawer: string, t0: int) returns (claimed: Option<seq<nat>>)
      requires Ready() && pid !in forgets && t0 <= now
      modifies this`forgets, outbox
      ensures Ready() && S() == ForgetClaimStep(outbox.cfg, old(S()), pid, drawer, t0)
      ensures claimed.None? <==> FinalizeInFlight(outbox.cfg, old(S()).db, drawer, t0)
      ensures claimed.None? ==> S() == old(S())
      ensures claimed.Some? ==>
                && pid in forgets && forgets[pid].drawer == drawer && forgets[pid].swept == {} && forgets[pid].open
                && forgets[pid].found.None? && forgets[pid].claimed == AboutRows(outbox.cfg, old(S()).db, drawer)
                && (forall a: nat :: a in forgets[pid].claimed <==> a in claimed.value)
                && forall i, j | 0 <= i < j < |claimed.value| :: claimed.value[i] < claimed.value[j]
    {
      hide AboutRows, ClaimRows, Sound;
      claimed := outbox.ClaimSidecarForRtbf(drawer, t0);
      if claimed.Some? {
        var ids := set a | a in claimed.value;
        assert ids == AboutRows(outbox.cfg, old(S()).db, drawer);
        forgets := forgets[pid := Forget(drawer, ids, {}, None, true)];
      }
    }

    /** One lookup of the marker sweep; the forget ends on two matches. */
    method SweepFind(pid: nat, aid: nat)
      requires Ready()
      modifies this`forgets
      ensures S() == SweepFindStep(old(S()), pid, aid)
    {
      if pid !in forgets || !forgets[pid].open || forgets[pid].found.Some?
         || aid !in forgets[pid].claimed - forgets[pid].swept
      {
        return;
      }
      var f := forgets[pid];
      var found := FindActiveHash(aid, true);
      if found.None? {
        forgets := forgets[pid := f.(open := false)];
      } else if found.value.None? {
        forgets := forgets[pid := f.(swept := f.swept + {aid})];
      } else {
        forgets := forgets[pid := f.(found := Some((aid, found.value.value)))];
      }
    }

    method SweepDelete(pid: nat)
      requires Ready()
      modifies this`forgets, this`store
      ensures S() == SweepDeleteStep(old(S()), pid)
    {
      if pid !in forgets || !forgets[pid].open || forgets[pid].found.None? {
        return;
      }
      var f := forgets[pid];
      store := store - {f.found.value.1};
      forgets := forgets[pid := f.(swept := f.swept + {f.found.value.0}, found := None)];
    }

    method Purge(pid: nat)
      requires Ready()
      modifies this`forgets, outbox
      ensures Ready() && S() == PurgeStep(outbox.cfg, old(S()), pid)
    {
      if pid !in forgets || !forgets[pid].open || forgets[pid].found.Some?
         || !(forgets[pid].claimed <= forgets[pid].swept) {
        return;
      }
      outbox.HardDeleteSidecar(forgets[pid].drawer);
      forgets := forgets[pid := forgets[pid].(open := false)];
    }

    // -------------------------------------------------------------- any step of any actor

    method QueueSide(step: Step)
      requires Ready()
      requires step.Enqueue? || step.Approve? || step.SetStatus? || step.Defer? || step.Resurface? || step.Backfill?
      modifies this`cands, outbox, log
      ensures Ready() && S() == TableApply(outbox.cfg, old(S()), step)
    {
      hide Append, ApproveTx, BackfillReady, BackfillTx, DeferTx, Due, EnqueueTx, LandStep, ResurfaceTx, SetStatusTx,
        Settable, Sound;
      match step
      case Enqueue(cand, proposer) =>
        cands := cands[outbox.nextRow := cand];
        var _ := outbox.EnqueueApproval(cand, proposer);
      case Approve(aid, via, approver, receipt) =>
        var _ := outbox.ApproveInConn(aid, via, approver, receipt);
      case SetStatus(aid, status) =>
        if status == Rejected || status == Pending {
          var _ := outbox.UpdateApprovalStatus(aid, status);
        }
      case Defer(aid, until) => outbox.DeferCandidate(aid, until);
      case Resurface(due) =>
        var _ := outbox.ResurfaceDeferred(due);
      case Backfill(aid, inspection, crash, ts, principal, tenant) =>
        var _ := outbox.BackfillOne(log, aid, inspection, crash, ts, principal, tenant);
    }

    /** The worker steps that are queue transactions. */
    method WorkerTransaction(step: Step)
      requires Ready() && (step.Gate? || step.Fail? || step.Record?)
      modifies this`workers, this`wins, outbox
      ensures Ready() && S() == WorkerApply(outbox.cfg, old(S()), step)
    {
      hide Author, CheckStep, CleanupStep, FailStep, FindMarkerStep, GateDecision, GateEffect, RecordStep, RecordTx,
        SendStep, Sound, WriteStep;
      match step
      case Gate(wid, aid, t0, readable) =>
        if wid !in workers && wid != RTBF_WORKER && t0 <= now {
          var _ := Gate(wid, aid, t0, readable);
        }
      case Fail(wid) => Fail(wid);
      case Record(wid) =>
        var _ := Record(wid);
    }

    /** The worker steps between transactions: looking, store calls, dying. */
    method WorkerCall(step: Step)
      requires Ready()
      requires step.Check? || step.Send? || step.Write? || step.FindMarker? || step.Cleanup? || step.Crash?
      modifies this`workers, this`store, this`posts, this`pending
      ensures Ready() && S() == WorkerApply(outbox.cfg, old(S()), step)
    {
      hide CheckStep, CleanupStep, FailStep, FindMarkerStep, GateStep, RecordStep, SendStep, Sound, WriteStep;
      ghost var goal := WorkerApply(outbox.cfg, S(), step);
      match step
      case Check(wid, built) =>
        Check(wid, built);
        assert S() == goal;
      case Send(wid) =>
        Send(wid);
        assert S() == goal;
      case Write(wid, fate) =>
        Write(wid, fate);
        assert S() == goal;
      case FindMarker(wid, readable, giveUp) =>
        FindMarker(wid, readable, giveUp);
        assert S() == goal;
      case Cleanup(wid, deleted) =>
        Cleanup(wid, deleted);
        assert S() == goal;
      case Crash(wid) =>
        if wid in workers && !Done(workers[wid].phase) {
          Enter(wid, Crashed);
        }
        assert S() == goal;
    }

    method ForgetSide(step: Step)
      requires Ready() && ForgetStep(step)
      modifies this`forgets, this`store, outbox
      ensures Ready() && S() == ForgetApply(outbox.cfg, old(S()), step)
    {
      hide FinalizeInFlight, ForgetClaimTx, PurgeStep, Sound, SweepDeleteStep, SweepFindStep;
      ghost var goal := ForgetApply(outbox.cfg, S(), step);
      match step
      case ForgetClaim(pid, drawer, t0) =>
        if pid !in forgets && t0 <= now {
          var _ := ForgetClaim(pid, drawer, t0);
        }
        assert S() == goal;
      case SweepFind(pid, aid) =>
        SweepFind(pid, aid);
        assert S() == goal;
      case SweepDelete(pid) =>
        SweepDelete(pid);
        assert S() == goal;
      case Purge(pid) =>
        Purge(pid);
        assert S() == goal;
      case ForgetAbort(pid) =>
        if pid in forgets && forgets[pid].open {
          forgets := forgets[pid := forgets[pid].(open := false)];
        }
        assert S() == goal;
    }

    method ClockAndLog(step: Step)
      requires Ready() && (step.Tick? || step.Log?)
      modifies this`now, log
      ensures Ready() && S() == TableApply(outbox.cfg, old(S()), step)
    {
      hide Append, ApproveStep, BackfillTx, DeferTx, EnqueueStep, LandStep, ResurfaceTx, SendStep, SetStatusTx,
        Sound, WriteStep;
      match step
      case Tick(time) =>
        if time >= now {
          now := time;
        }
      case Log(entry) =>
        var _ := log.Write(entry);
    }

    method StoreSide(step: Step)
      requires Ready() && (step.StoreAdd? || step.StoreRetire? || step.StoreDelete?)
      modifies this`store
      ensures Ready() && S() == TableApply(outbox.cfg, old(S()), step)
    {
      hide Append, ApproveStep, BackfillTx, DeferTx, EnqueueStep, LandStep, ResurfaceTx, SetStatusTx, Sound;
      ghost var goal := TableApply(outbox.cfg, S(), step);
      match step
      case StoreAdd(id) =>
        if id !in store {
          store := store[id := StoreRow(None, true)];
        }
        assert S() == goal;
      case StoreRetire(id) =>
        if id in store {
          store := store[id := store[id].(active := false)];
        }
        assert S() == goal;
      case StoreDelete(id) =>
        store := store - {id};
        assert S() == goal;
    }

    /** Every step of the machine, hand edits apart, is what the code's transactions do to the tables. */
    method Perform(step: Step)
      requires Ready() && !step.HandEdit?
      modifies this, outbox, log
      ensures Ready() && S() == Apply(outbox.cfg, old(S()), step)
    {
      hide ForgetApply, LandStep, Sound, TableApply, WorkerApply;
      if step.Gate? || step.Fail? || step.Record? {
        WorkerTransaction(step);
      } else if WorkerStep(step) {
        WorkerCall(step);
      } else if ForgetStep(step) {
        ForgetSide(step);
      } else if step.Tick? || step.Log? {
        ClockAndLog(step);
      } else if step.StoreAdd? || step.StoreRetire? || step.StoreDelete? {
        StoreSide(step);
      } else if step.Land? {
        LandIsApply(outbox.cfg, S(), step.post);
        Land(step.post);
      } else {
        QueueSide(step);
      }
    }

    // -------------------------------------------------------------- interleaving

    /** Whatever other actors do between two steps of a call. */
    method Interleave(steps: seq<Step>, ghost base: State, ghost trace: seq<Step>) returns (ghost longer: seq<Step>)
      requires Ready() && S() == Run(outbox.cfg, base, trace)
      requires forall k | 0 <= k < |steps| :: !steps[k].HandEdit?
      modifies this, outbox, log
      ensures Ready() && longer == trace + steps && S() == Run(outbox.cfg, base, longer)
      ensures steps == [] ==> S() == old(S())
      ensures forall w: string | !ActsAsWorker(steps, w) :: SameAt(old(workers), workers, w)
      ensures forall p: nat | !ActsAsForget(steps, p) :: SameAt(old(forgets), forgets, p)
    {
      hide ActsAsForget, ActsAsWorker, Apply, Run, Sound;
      ghost var start := S();
      longer := trace;
      assert trace + steps[..0] == trace;
      for i := 0 to |steps|
        invariant Ready() && longer == trace + steps[..i] && S() == Run(outbox.cfg, base, longer)
        invariant i == 0 ==> S() == start
        invariant forall w: string | !ActsAsWorker(steps, w) :: SameAt(start.workers, workers, w)
        invariant forall p: nat | !ActsAsForget(steps, p) :: SameAt(start.forgets, forgets, p)
      {
        ghost var before := S();
        RunOne(outbox.cfg, base, longer, steps[i]);
        OthersLeaveItAlone(outbox.cfg, start, before, steps, i);
        Perform(steps[i]);
        assert longer + [steps[i]] == trace + steps[..i + 1];
        longer := longer + [steps[i]];
      }
      assert steps[..|steps|] == steps;
    }
  }

  lemma LandIsApply(cfg: Config, s: State, post: Post)
    ensures Apply(cfg, s, Step.Land(post)) == LandStep(s, post)
  {
  }

  /** Nobody else acts. */
  ghost predicate Alone(others: int -> seq<Step>) {
    forall i :: others(i) == []
  }

  lemma AloneAt(others: int -> seq<Step>, turn: int)
    ensures Alone(others) ==> others(turn) == []
  {
  }

  ghost predicate ActsAsWorker(steps: seq<Step>, w: string) {
    exists k | 0 <= k < |steps| :: WorkerStep(steps[k]) && steps[k].wid == w
  }

  ghost predicate ActsAsForget(steps: seq<Step>, p: nat) {
    exists k | 0 <= k < |steps| :: ForgetStep(steps[k]) && steps[k].pid == p
  }

  ghost predicate SameAt<K, V>(m: map<K, V>, m': map<K, V>, k: K) {
    (k in m <==> k in m') && (k in m ==> m'[k] == m[k])
  }

  lemma OneStepFrame(cfg: Config, s: State, step: Step, w: string, p: nat)
    ensures !(WorkerStep(step) && step.wid == w) ==> SameAt(s.workers, Apply(cfg, s, step).workers, w)
    ensures !(ForgetStep(step) && step.pid == p) ==> SameAt(s.forgets, Apply(cfg, s, step).forgets, p)
  {
    hide Apply;
    if !WorkerStep(step) {
      QuietWorkers(cfg, s, step);
    } else if step.Gate? {
      GateClaims(cfg, s, step);
    } else {
      OneWorkerMoves(cfg, s, step);
    }
    if !ForgetStep(step) {
      QuietForgets(cfg, s, step);
    } else if step.pid != p {
      ForgetFrame(cfg, s, step, p);
    }
  }

  lemma ForgetFrame(cfg: Config, s: State, step: Step, p: nat)
    requires ForgetStep(step) && step.pid != p
    ensures SameAt(s.forgets, Apply(cfg, s, step).forgets, p)
  {
    hide ForgetClaimTx, MarkerHits, PurgeTx, Sweeping, TableApply, WorkerApply;
    match step {
      case ForgetClaim(_, _, _) => hide SweepFindStep, SweepDeleteStep, PurgeStep;
      case SweepFind(_, _) => hide ForgetClaimStep, SweepDeleteStep, PurgeStep;
      case SweepDelete(_) => hide ForgetClaimStep, SweepFindStep, PurgeStep;
      case _ => hide ForgetClaimStep, SweepFindStep, SweepDeleteStep;
    }
  }

  lemma OthersLeaveItAlone(cfg: Config, start: State, s: State, steps: seq<Step>, i: nat)
    requires i < |steps|
    requires forall w: string | !ActsAsWorker(steps, w) :: SameAt(start.workers, s.workers, w)
    requires forall p: nat | !ActsAsForget(steps, p) :: SameAt(start.forgets, s.forgets, p)
    ensures forall w: string | !ActsAsWorker(steps, w) :: SameAt(start.workers, Apply(cfg, s, steps[i]).workers, w)
    ensures forall p: nat | !ActsAsForget(steps, p) :: SameAt(start.forgets, Apply(cfg, s, steps[i]).forgets, p)
  {
    hide Apply, WorkerStep, ForgetStep;
    forall w: string | !ActsAsWorker(steps, w) ensures SameAt(start.workers, Apply(cfg, s, steps[i]).workers, w) {
      OneStepFrame(cfg, s, steps[i], w, 0);
    }
    forall p: nat | !ActsAsForget(steps, p) ensures SameAt(start.forgets, Apply(cfg, s, steps[i]).forgets, p) {
      OneStepFrame(cfg, s, steps[i], "", p);
    }
  }
}
