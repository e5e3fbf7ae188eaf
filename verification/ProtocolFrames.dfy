/** What each step of the protocol leaves alone. */
module ProtocolFrames {
  import opened Basics
  import opened AuditChain
  import opened Queue
  import opened Protocol

  // ---------------------------------------------------------------- runs

  lemma RunOne(cfg: Config, s: State, steps: seq<Step>, step: Step)
    ensures Run(cfg, s, steps + [step]) == Apply(cfg, Run(cfg, s, steps), step)
  {
    assert (steps + [step])[..|steps|] == steps;
  }

  lemma CarefulOne(cfg: Config, s: State, steps: seq<Step>, step: Step)
    requires CarefulRun(cfg, s, steps) && Careful(cfg, Run(cfg, s, steps), step)
    ensures CarefulRun(cfg, s, steps + [step]) && Run(cfg, s, steps + [step]) == Apply(cfg, Run(cfg, s, steps), step)
  {
    hide Careful, Apply;
    RunOne(cfg, s, steps, step);
    var all := steps + [step];
    forall i | 0 <= i < |all| ensures Careful(cfg, Run(cfg, s, all[..i]), all[i]) {
      if i < |steps| {
        assert all[..i] == steps[..i] && Careful(cfg, Run(cfg, s, steps[..i]), steps[i]);
      } else {
        assert all[..i] == steps;
      }
    }
  }

  lemma {:induction false} RunConcat(cfg: Config, s: State, first: seq<Step>, second: seq<Step>)
    ensures Run(cfg, Run(cfg, s, first), second) == Run(cfg, s, first + second)
    decreases |second|
  {
    hide Apply;
    if second == [] {
      assert first + second == first;
    } else {
      RunConcat(cfg, s, first, second[..|second| - 1]);
      assert (first + second)[..|first + second| - 1] == first + second[..|second| - 1];
    }
  }

  lemma SuffixIsCareful(cfg: Config, s: State, first: seq<Step>, second: seq<Step>)
    requires CarefulRun(cfg, s, first + second)
    ensures CarefulRun(cfg, Run(cfg, s, first), second)
  {
    hide Careful, Run;
    forall i | 0 <= i < |second| ensures Careful(cfg, Run(cfg, Run(cfg, s, first), second[..i]), second[i]) {
      RunConcat(cfg, s, first, second[..i]);
      assert (first + second)[..|first| + i] == first + second[..i] && (first + second)[|first| + i] == second[i];
    }
  }

  // ---------------------------------------------------------------- frames

  predicate StoreStep(step: Step) {
    step.Write? || step.Cleanup? || step.SweepDelete? || step.StoreAdd? || step.StoreRetire? || step.StoreDelete?
    || step.Land?
  }

  /** The steps that change the queue or its events. */
  predicate QueueStep(step: Step) {
    step.Enqueue? || step.Approve? || step.SetStatus? || step.Defer? || step.Resurface? || step.Backfill?
    || step.Gate? || step.Fail? || step.Record? || step.ForgetClaim? || step.Purge? || step.HandEdit?
  }

  /** One finalize call: what it claimed never changes, only how far it got. */
  ghost predicate SameClaim(w: Worker, w': Worker) {
    && w'.aid == w.aid && w'.cand == w.cand && w'.event == w.event && w'.claimedAt == w.claimedAt
    && w'.receipt == w.receipt && w'.author == w.author && w'.logLength == w.logLength
  }

  ghost function FreshWorker(cfg: Config, s: State, aid: nat, t0: int, c: GateOutcome): Worker
    requires c.Claimed?
  {
    Worker(aid, c.cand, c.event, t0, c.num, Author(cfg, s.audit, c.num), |s.audit|, Holding)
  }

  /** The step that claims: a worker appears, holding what the gate handed it. */
  ghost predicate Claims(cfg: Config, s: State, step: Step) {
    && step.Gate? && step.wid !in s.workers && step.wid != RTBF_WORKER && step.t0 <= s.now
    && GateDecision(cfg, s.db, s.audit, step.readable, step.aid, step.t0).Claimed?
  }

  /** What a worker's own steps leave alone. */
  ghost predicate WorkerQuiet(s: State, s': State) {
    && s'.now == s.now && s'.audit == s.audit && s'.forgets == s.forgets && s'.cands == s.cands
    && s.pending <= s'.pending
  }

  lemma WritersFrame(cfg: Config, s: State, step: Step)
    requires step.Send? || step.Write? || step.Cleanup? || step.Check? || step.FindMarker? || step.Crash?
    ensures var s' := WorkerApply(cfg, s, step);
            && WorkerQuiet(s, s') && s'.wins == s.wins && s'.db == s.db
            && (!step.Write? && !step.Cleanup? ==> s'.store == s.store) && (!step.Send? ==> s'.posts == s.posts)
  {
    CallFrames(cfg, s, step);
    hide CheckStep, CleanupStep, Done, FailStep, FindMarkerStep, GateStep, RecordStep, SendStep, WriteStep;
  }

  /** What each call between transactions leaves alone. */
  lemma CallFrames(cfg: Config, s: State, step: Step)
    ensures step.Check? ==> var s' := CheckStep(cfg, s, step.wid, step.built); s' == s.(workers := s'.workers)
    ensures step.Send? ==> var s' := SendStep(cfg, s, step.wid); s' == s.(posts := s'.posts)
    ensures step.Write? ==>
              var s' := WriteStep(cfg, s, step.wid, step.fate); s' == s.(store := s'.store, workers := s'.workers)
    ensures step.FindMarker? ==>
              var s' := FindMarkerStep(s, step.wid, step.readable, step.giveUp); s' == s.(workers := s'.workers)
    ensures step.Cleanup? ==>
              var s' := CleanupStep(s, step.wid, step.deleted);
              s' == s.(store := s'.store, workers := s'.workers, pending := s'.pending) && s.pending <= s'.pending
  {
    match step
    case Check(wid, built) => CheckFrame(cfg, s, wid, built);
    case Send(wid) => SendFrame(cfg, s, wid);
    case Write(wid, fate) => WriteFrame(cfg, s, wid, fate);
    case FindMarker(wid, readable, giveUp) => FindMarkerFrame(s, wid, readable, giveUp);
    case Cleanup(wid, deleted) => CleanupFrame(s, wid, deleted);
    case _ =>
  }

  lemma CheckFrame(cfg: Config, s: State, wid: string, built: bool)
    ensures var s' := CheckStep(cfg, s, wid, built); s' == s.(workers := s'.workers)
  {
    hide Owns;
  }

  lemma SendFrame(cfg: Config, s: State, wid: string)
    ensures var s' := SendStep(cfg, s, wid); s' == s.(posts := s'.posts)
  {
    hide NewMark;
  }

  lemma WriteFrame(cfg: Config, s: State, wid: string, fate: Fate)
    ensures var s' := WriteStep(cfg, s, wid, fate); s' == s.(store := s'.store, workers := s'.workers)
  {
    hide NewMark;
  }

  lemma FindMarkerFrame(s: State, wid: string, readable: bool, giveUp: bool)
    ensures var s' := FindMarkerStep(s, wid, readable, giveUp); s' == s.(workers := s'.workers)
  {
    hide MarkerHits;
  }

  lemma CleanupFrame(s: State, wid: string, deleted: bool)
    ensures var s' := CleanupStep(s, wid, deleted);
            s' == s.(store := s'.store, workers := s'.workers, pending := s'.pending) && s.pending <= s'.pending
  {
  }

  lemma RecordersFrame(cfg: Config, s: State, step: Step)
    requires step.Gate? || step.Fail? || step.Record?
    ensures var s' := WorkerApply(cfg, s, step);
            WorkerQuiet(s, s') && s'.store == s.store && s'.posts == s.posts && (!step.Record? ==> s'.wins == s.wins)
  {
    match step {
      case Gate(wid, aid, t0, readable) => GateFrame(cfg, s, wid, aid, t0, readable);
      case Fail(wid) => FailFrame(s, wid);
      case Record(wid) => RecordFrame(s, wid);
      case _ =>
    }
    hide CheckStep, CleanupStep, Done, FailStep, FindMarkerStep, GateStep, RecordStep, SendStep, WriteStep;
  }

  lemma GateFrame(cfg: Config, s: State, wid: string, aid: nat, t0: int, readable: bool)
    ensures var s' := GateStep(cfg, s, wid, aid, t0, readable); s' == s.(db := s'.db, workers := s'.workers)
  {
    hide Author, GateDecision, GateEffect;
  }

  lemma FailFrame(s: State, wid: string)
    ensures var s' := FailStep(s, wid); s' == s.(db := s'.db, workers := s'.workers)
  {
    hide FailTx;
  }

  lemma RecordFrame(s: State, wid: string)
    ensures var s' := RecordStep(s, wid); s' == s.(db := s'.db, workers := s'.workers, wins := s'.wins)
  {
    hide RecordTx;
  }

  lemma ForgetsFrame(cfg: Config, s: State, step: Step)
    requires ForgetStep(step)
    ensures var s' := ForgetApply(cfg, s, step);
            && s'.now == s.now && s'.audit == s.audit && s'.workers == s.workers && s'.cands == s.cands
            && s'.pending == s.pending && s'.wins == s.wins && s'.posts == s.posts
            && (!step.SweepDelete? ==> s'.store == s.store)
            && (!step.ForgetClaim? && !step.Purge? ==> s'.db == s.db)
  {
    hide ForgetClaimTx, ForgetStep, MarkerHits, PurgeTx, Sweeping;
  }

  lemma TablesFrame(cfg: Config, s: State, step: Step)
    requires !WorkerStep(step) && !ForgetStep(step)
    ensures var s' := TableApply(cfg, s, step);
            && s.now <= s'.now && s'.workers == s.workers && s'.forgets == s.forgets
            && s'.pending == s.pending && s'.wins == s.wins
            && (!step.Enqueue? ==> s'.cands == s.cands) && (!step.Land? ==> s'.posts == s.posts)
            && (!step.Log? && !step.Backfill? ==> s'.audit == s.audit)
            && (!StoreStep(step) ==> s'.store == s.store)
            && (!QueueStep(step) ==> s'.db == s.db)
  {
    if step.Land? {
      LandFrame(s, step.post);
    }
    hide Append, ApproveTx, BackfillTx, DeferTx, EnqueueTx, ForgetStep, LandStep, ResurfaceTx, SetStatusTx, WorkerStep;
  }

  lemma LandFrame(s: State, post: Post)
    ensures LandStep(s, post) == s.(store := LandStep(s, post).store, posts := LandStep(s, post).posts)
  {
  }

  /** All of the above, for any step. */
  lemma Frames(cfg: Config, s: State, step: Step)
    ensures var s' := Apply(cfg, s, step);
            && s.now <= s'.now && s.pending <= s'.pending
            && (!step.Record? ==> s'.wins == s.wins) && (!step.Enqueue? ==> s'.cands == s.cands)
            && (!step.Log? && !step.Backfill? ==> s'.audit == s.audit)
            && (!StoreStep(step) ==> s'.store == s.store) && (!step.Send? && !step.Land? ==> s'.posts == s.posts)
            && (!QueueStep(step) ==> s'.db == s.db)
            && (!WorkerStep(step) ==> s'.workers == s.workers)
            && (!ForgetStep(step) ==> s'.forgets == s.forgets)
  {
    hide ForgetApply, TableApply, WorkerApply;
    if step.Gate? || step.Fail? || step.Record? {
      RecordersFrame(cfg, s, step);
    } else if WorkerStep(step) {
      WritersFrame(cfg, s, step);
    } else if ForgetStep(step) {
      ForgetsFrame(cfg, s, step);
    } else {
      TablesFrame(cfg, s, step);
    }
  }

  lemma QuietWorkers(cfg: Config, s: State, step: Step)
    requires !WorkerStep(step)
    ensures Apply(cfg, s, step).workers == s.workers
  {
    hide *;
    Frames(cfg, s, step);
  }

  lemma QuietStore(cfg: Config, s: State, step: Step)
    requires !StoreStep(step)
    ensures Apply(cfg, s, step).store == s.store
  {
    hide *;
    Frames(cfg, s, step);
  }

  lemma QuietPosts(cfg: Config, s: State, step: Step)
    requires !step.Send? && !step.Land?
    ensures Apply(cfg, s, step).posts == s.posts
  {
    hide *;
    Frames(cfg, s, step);
  }

  lemma QuietForgets(cfg: Config, s: State, step: Step)
    requires !ForgetStep(step)
    ensures Apply(cfg, s, step).forgets == s.forgets
  {
    hide *;
    Frames(cfg, s, step);
  }

  lemma QuietQueue(cfg: Config, s: State, step: Step)
    requires !QueueStep(step)
    ensures Apply(cfg, s, step).db == s.db
  {
    hide *;
    Frames(cfg, s, step);
  }

  lemma QuietHistory(cfg: Config, s: State, step: Step)
    ensures !step.Enqueue? ==> Apply(cfg, s, step).cands == s.cands
    ensures !step.Record? ==> Apply(cfg, s, step).wins == s.wins
  {
    hide *;
    Frames(cfg, s, step);
  }

  lemma Monotone(cfg: Config, s: State, step: Step)
    ensures s.pending <= Apply(cfg, s, step).pending
    ensures s.now <= Apply(cfg, s, step).now
  {
    hide *;
    Frames(cfg, s, step);
  }

  /** Only this worker moves, and it keeps its claim. */
  ghost predicate OnlyMoves(s: State, s': State, wid: string) {
    || s'.workers == s.workers
    || (wid in s.workers && wid in s'.workers && s'.workers == s.workers[wid := s'.workers[wid]]
        && SameClaim(s.workers[wid], s'.workers[wid]))
  }

  lemma CheckMoves(cfg: Config, s: State, wid: string, built: bool)
    ensures OnlyMoves(s, CheckStep(cfg, s, wid, built), wid)
  {
  }

  lemma WriteMoves(cfg: Config, s: State, wid: string, fate: Fate)
    ensures OnlyMoves(s, WriteStep(cfg, s, wid, fate), wid)
  {
  }

  lemma FindMarkerMoves(s: State, wid: string, readable: bool, giveUp: bool)
    ensures OnlyMoves(s, FindMarkerStep(s, wid, readable, giveUp), wid)
  {
  }

  lemma FailMoves(s: State, wid: string)
    ensures OnlyMoves(s, FailStep(s, wid), wid)
  {
    hide FailTx;
  }

  lemma RecordMoves(s: State, wid: string)
    ensures OnlyMoves(s, RecordStep(s, wid), wid)
  {
    hide RecordTx;
  }

  lemma CleanupMoves(s: State, wid: string, deleted: bool)
    ensures OnlyMoves(s, CleanupStep(s, wid, deleted), wid)
  {
  }

  lemma RecorderMoves(cfg: Config, s: State, step: Step)
    requires step.Fail? || step.Record? || step.Cleanup? || step.Crash?
    ensures OnlyMoves(s, Apply(cfg, s, step), step.wid)
  {
    hide CheckStep, CleanupStep, Done, FailStep, FindMarkerStep, ForgetApply, ForgetStep, GateStep, RecordStep,
      SendStep, TableApply, WriteStep;
    match step
    case Fail(wid) => FailMoves(s, wid);
    case Record(wid) => RecordMoves(s, wid);
    case Cleanup(wid, deleted) => CleanupMoves(s, wid, deleted);
    case Crash(wid) =>
  }

  lemma OneWorkerMoves(cfg: Config, s: State, step: Step)
    requires WorkerStep(step) && !step.Gate?
    ensures OnlyMoves(s, Apply(cfg, s, step), step.wid)
  {
    match step
    case Check(wid, built) => CheckMoves(cfg, s, wid, built);
    case Send(wid) =>
    case Write(wid, fate) => WriteMoves(cfg, s, wid, fate);
    case FindMarker(wid, readable, giveUp) => FindMarkerMoves(s, wid, readable, giveUp);
    case _ => RecorderMoves(cfg, s, step);
  }

  lemma GateClaims(cfg: Config, s: State, step: Step)
    requires step.Gate?
    ensures !Claims(cfg, s, step) ==> Apply(cfg, s, step).workers == s.workers
    ensures Claims(cfg, s, step) ==>
              Apply(cfg, s, step).workers == s.workers[step.wid :=
                FreshWorker(cfg, s, step.aid, step.t0,
                            GateDecision(cfg, s.db, s.audit, step.readable, step.aid, step.t0))]
  {
  }

  /** Every worker after a step was there before with the same claim, or has just claimed. */
  lemma WorkersPersist(cfg: Config, s: State, step: Step, wid: string)
    requires wid in Apply(cfg, s, step).workers
    ensures || (wid in s.workers && SameClaim(s.workers[wid], Apply(cfg, s, step).workers[wid]))
            || (Claims(cfg, s, step) && step.wid == wid
                && Apply(cfg, s, step).workers[wid]
                   == FreshWorker(cfg, s, step.aid, step.t0,
                                  GateDecision(cfg, s.db, s.audit, step.readable, step.aid, step.t0)))
  {
    if step.Gate? {
      GateClaims(cfg, s, step);
    } else if WorkerStep(step) {
      OneWorkerMoves(cfg, s, step);
    } else {
      QuietWorkers(cfg, s, step);
    }
  }

  lemma WriteMarks(cfg: Config, s: State, wid: string, fate: Fate, id: string)
    requires id in WriteStep(cfg, s, wid, fate).store && WriteStep(cfg, s, wid, fate).store[id].mark.Some?
    ensures || (id in s.store && s.store[id] == WriteStep(cfg, s, wid, fate).store[id])
            || (WriteLands(cfg, s, Write(wid, fate)) && cfg.contentHash(s.workers[wid].cand) == Some(id)
                && WriteStep(cfg, s, wid, fate).store[id].mark == Some(NewMark(s, wid)))
  {
    hide Owns;
  }

  lemma LandMarks(s: State, post: Post, id: string)
    requires id in LandStep(s, post).store && LandStep(s, post).store[id].mark.Some?
    ensures || (id in s.store && s.store[id] == LandStep(s, post).store[id])
            || (post in s.posts && post.id !in s.store && post.id == id
                && LandStep(s, post).store[id].mark == Some(post.mark))
  {
  }

  lemma MarksPersist(cfg: Config, s: State, step: Step, id: string)
    requires id in Apply(cfg, s, step).store && Apply(cfg, s, step).store[id].mark.Some?
    ensures || (id in s.store && s.store[id].mark == Apply(cfg, s, step).store[id].mark
                && (Apply(cfg, s, step).store[id].active ==> s.store[id].active))
            || (WriteLands(cfg, s, step) && cfg.contentHash(s.workers[step.wid].cand) == Some(id)
                && Apply(cfg, s, step).store[id].mark == Some(NewMark(s, step.wid)))
            || (LandsLate(s, step) && step.post.id == id && Apply(cfg, s, step).store[id].mark == Some(step.post.mark))
  {
    hide Apply;
    if !StoreStep(step) {
      QuietStore(cfg, s, step);
    } else if step.Write? || step.Cleanup? {
      WorkerMarks(cfg, s, step, id);
    } else if step.SweepDelete? {
      SweepMarks(cfg, s, step, id);
    } else {
      TableMarks(cfg, s, step, id);
    }
  }

  lemma WorkerMarks(cfg: Config, s: State, step: Step, id: string)
    requires step.Write? || step.Cleanup?
    requires id in Apply(cfg, s, step).store && Apply(cfg, s, step).store[id].mark.Some?
    ensures || (id in s.store && s.store[id] == Apply(cfg, s, step).store[id])
            || (WriteLands(cfg, s, step) && cfg.contentHash(s.workers[step.wid].cand) == Some(id)
                && Apply(cfg, s, step).store[id].mark == Some(NewMark(s, step.wid)))
  {
    if step.Write? {
      WriteMarks(cfg, s, step.wid, step.fate, id);
    }
    hide CheckStep, FailStep, FindMarkerStep, ForgetApply, GateStep, RecordStep, SendStep, TableApply, WriteStep;
  }

  lemma SweepMarks(cfg: Config, s: State, step: Step, id: string)
    requires step.SweepDelete? && id in Apply(cfg, s, step).store
    ensures id in s.store && s.store[id] == Apply(cfg, s, step).store[id]
  {
    hide ForgetClaimStep, PurgeStep, SweepFindStep, TableApply, WorkerApply;
  }

  lemma TableMarks(cfg: Config, s: State, step: Step, id: string)
    requires step.StoreAdd? || step.StoreRetire? || step.StoreDelete? || step.Land?
    requires id in Apply(cfg, s, step).store && Apply(cfg, s, step).store[id].mark.Some?
    ensures || (id in s.store && s.store[id].mark == Apply(cfg, s, step).store[id].mark
                && (Apply(cfg, s, step).store[id].active ==> s.store[id].active))
            || (LandsLate(s, step) && step.post.id == id && Apply(cfg, s, step).store[id].mark == Some(step.post.mark))
  {
    if step.Land? {
      LandMarks(s, step.post, id);
    }
    hide Append, ApproveStep, BackfillTx, DeferTx, EnqueueStep, ForgetApply, LandStep, ResurfaceTx, SetStatusTx,
      WorkerApply;
  }

  /** The worker has made its one attempt to write. */
  predicate Past(p: Phase) {
    p != Holding && p != Revalidated && p != Duplicate
  }

  /** How a worker comes to hold a durable id, or to have one to clean up. */
  ghost predicate PhaseMove(cfg: Config, s: State, step: Step, wid: string, p: Phase, p': Phase)
    requires wid in s.workers
  {
    && (Past(p) ==> Past(p'))
    && (p'.Wrote? && p' != p ==> !Past(p))
    && (p'.Wrote? && p' != p ==>
          && WorkerStep(step) && step.wid == wid
          && (|| (WriteLands(cfg, s, step) && Some(p'.id) == cfg.contentHash(s.workers[wid].cand))
              || (step.FindMarker? && p'.id in MarkerHits(s, s.workers[wid].aid))))
    && (p'.Orphaned? && p' != p ==> step.Record? && step.wid == wid && p == Wrote(p'.id))
    && (Done(p) ==> p' == p)
  }

  lemma CheckPhase(cfg: Config, s: State, wid: string, built: bool)
    requires wid in s.workers && wid in CheckStep(cfg, s, wid, built).workers
    ensures PhaseMove(cfg, s, Check(wid, built), wid, s.workers[wid].phase,
            CheckStep(cfg, s, wid, built).workers[wid].phase)
  {
  }

  lemma SendPhase(cfg: Config, s: State, wid: string)
    requires wid in s.workers && wid in SendStep(cfg, s, wid).workers
    ensures PhaseMove(cfg, s, Send(wid), wid, s.workers[wid].phase, SendStep(cfg, s, wid).workers[wid].phase)
  {
  }

  /** A POST under way was there before, or has just been sent by a worker. */
  lemma PostsPersist(cfg: Config, s: State, step: Step, post: Post)
    requires post in Apply(cfg, s, step).posts
    ensures || post in s.posts
            || (step.Send? && step.wid in s.workers && cfg.contentHash(s.workers[step.wid].cand) == Some(post.id)
                && post.mark == NewMark(s, step.wid))
  {
    if step.Send? || step.Land? {
      hide CheckStep, CleanupStep, FailStep, FindMarkerStep, GateStep, RecordStep, Running, SendStep, WriteStep;
    } else {
      hide Apply;
      QuietPosts(cfg, s, step);
    }
  }

  lemma WritePhase(cfg: Config, s: State, wid: string, fate: Fate)
    requires wid in s.workers && wid in WriteStep(cfg, s, wid, fate).workers
    ensures PhaseMove(cfg, s, Write(wid, fate), wid, s.workers[wid].phase,
            WriteStep(cfg, s, wid, fate).workers[wid].phase)
  {
  }

  lemma FindMarkerPhase(cfg: Config, s: State, wid: string, readable: bool, giveUp: bool)
    requires wid in s.workers && wid in FindMarkerStep(s, wid, readable, giveUp).workers
    ensures PhaseMove(cfg, s, FindMarker(wid, readable, giveUp), wid, s.workers[wid].phase,
                      FindMarkerStep(s, wid, readable, giveUp).workers[wid].phase)
  {
  }

  lemma RecordPhase(cfg: Config, s: State, wid: string)
    requires wid in s.workers && wid in RecordStep(s, wid).workers
    ensures PhaseMove(cfg, s, Record(wid), wid, s.workers[wid].phase, RecordStep(s, wid).workers[wid].phase)
  {
    hide MarkerHits, RecordTx, WriteLands;
  }

  lemma EndPhase(cfg: Config, s: State, step: Step)
    requires step.Fail? || step.Cleanup? || step.Crash?
    requires step.wid in s.workers && step.wid in Apply(cfg, s, step).workers
    ensures PhaseMove(cfg, s, step, step.wid, s.workers[step.wid].phase, Apply(cfg, s, step).workers[step.wid].phase)
  {
    hide CheckStep, FailTx, FindMarkerStep, ForgetApply, ForgetStep, GateStep, MarkerHits, RecordStep, SendStep,
      TableApply, WriteLands, WriteStep;
  }

  lemma MoverPhase(cfg: Config, s: State, step: Step)
    requires WorkerStep(step) && !step.Gate?
    requires step.wid in s.workers && step.wid in Apply(cfg, s, step).workers
    ensures PhaseMove(cfg, s, step, step.wid, s.workers[step.wid].phase, Apply(cfg, s, step).workers[step.wid].phase)
  {
    WorkerApplies(cfg, s, step);
    hide Apply, CheckStep, FindMarkerStep, PhaseMove, RecordStep, SendStep, WorkerStep, WriteStep;
    match step
    case Check(wid, built) => CheckPhase(cfg, s, wid, built);
    case Send(wid) => SendPhase(cfg, s, wid);
    case Write(wid, fate) => WritePhase(cfg, s, wid, fate);
    case FindMarker(wid, readable, giveUp) => FindMarkerPhase(cfg, s, wid, readable, giveUp);
    case Record(wid) => RecordPhase(cfg, s, wid);
    case _ => EndPhase(cfg, s, step);
  }

  lemma WorkerApplies(cfg: Config, s: State, step: Step)
    requires WorkerStep(step) && !step.Gate?
    ensures step.Check? ==> Apply(cfg, s, step) == CheckStep(cfg, s, step.wid, step.built)
    ensures step.Send? ==> Apply(cfg, s, step) == SendStep(cfg, s, step.wid)
    ensures step.Write? ==> Apply(cfg, s, step) == WriteStep(cfg, s, step.wid, step.fate)
    ensures step.FindMarker? ==> Apply(cfg, s, step) == FindMarkerStep(s, step.wid, step.readable, step.giveUp)
    ensures step.Record? ==> Apply(cfg, s, step) == RecordStep(s, step.wid)
    ensures step.Check? || step.Send? || step.Write? || step.FindMarker? || step.Record? || step.Fail? || step.Cleanup?
            || step.Crash?
  {
    hide CheckStep, CleanupStep, FailStep, FindMarkerStep, ForgetApply, ForgetStep, GateStep, RecordStep, Running,
      SendStep, TableApply, WriteStep;
  }

  lemma PhaseMoves(cfg: Config, s: State, step: Step, wid: string)
    requires wid in s.workers && wid in Apply(cfg, s, step).workers
    ensures PhaseMove(cfg, s, step, wid, s.workers[wid].phase, Apply(cfg, s, step).workers[wid].phase)
  {
    hide Apply;
    if !WorkerStep(step) {
      QuietWorkers(cfg, s, step);
    } else if step.Gate? {
      GateClaims(cfg, s, step);
    } else {
      OneWorkerMoves(cfg, s, step);
      if step.wid == wid {
        MoverPhase(cfg, s, step);
      }
    }
  }

  lemma LandingWorker(cfg: Config, s: State, step: Step)
    requires WriteLands(cfg, s, step)
    ensures var id := cfg.contentHash(s.workers[step.wid].cand).value;
            var s' := Apply(cfg, s, step);
            && s'.db == s.db && s'.forgets == s.forgets
            && id in s'.store && s'.store[id] == StoreRow(Some(NewMark(s, step.wid)), true)
            && step.wid in s'.workers && s'.workers[step.wid].aid == s.workers[step.wid].aid
            && s'.workers[step.wid].phase == if step.fate == Lands then Wrote(id) else Broken
  {
  }
}
