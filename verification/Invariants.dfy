/** The inductive invariant of careful runs, part by part, and its preservation by every step. */
module Invariants {
  import opened Basics
  import opened AuditChain
  import opened Queue
  import opened QueueLaws
  import opened Protocol
  import opened ProtocolFrames

  // ---------------------------------------------------------------- the parts

  /** Ids are never reused, and a row keeps the bytes it was enqueued with. */
  ghost predicate IdsInv(s: State) {
    && Sound(s.db)
    && (forall a | a in s.db.rows :: a in s.cands && s.cands[a] == s.db.rows[a].cand)
    && (forall a | a in s.cands :: a < s.db.nextRow)
  }

  ghost predicate WorkerOk(cfg: Config, s: State, wid: string)
    requires wid in s.workers
  {
    var w := s.workers[wid];
    && wid != RTBF_WORKER
    && w.aid in s.cands && s.cands[w.aid] == w.cand
    && (w.phase.Wrote? ==> cfg.contentHash(w.cand) == Some(w.phase.id))
    && (w.phase.Orphaned? ==> cfg.contentHash(w.cand) == Some(w.phase.id))
    && (w.aid in s.db.rows ==> s.db.rows[w.aid].status == Approved && s.db.rows[w.aid].event == Some(w.event))
  }

  ghost predicate WorkerInv(cfg: Config, s: State) {
    forall wid | wid in s.workers :: WorkerOk(cfg, s, wid)
  }

  /** The mark belongs at this id: the content hash of its approval's bytes. */
  ghost predicate MarkOk(cfg: Config, s: State, id: string, m: Mark) {
    && m.aid in s.cands && s.cands[m.aid] == m.cand && cfg.contentHash(m.cand) == Some(id)
    && exists w | w in s.workers :: s.workers[w].aid == m.aid
  }

  /** Marked rows, in the store or still under way, were written by workers under the id of their bytes. */
  ghost predicate MarkInv(cfg: Config, s: State) {
    && (forall id | id in s.store && s.store[id].mark.Some? :: MarkOk(cfg, s, id, s.store[id].mark.value))
    && (forall post | post in s.posts :: MarkOk(cfg, s, post.id, post.mark))
  }

  /** What is recorded under the event of a row: the store id a forget must also delete. */
  function RecordedId(db: Db, a: nat): Option<string> {
    if a in db.rows && db.rows[a].event.Some? && db.rows[a].event.value in db.events
    then db.events[db.rows[a].event.value].completed else None
  }

  /** A recorded id is the content hash of the row's bytes, and a finalized row records it. */
  ghost predicate RowOk(cfg: Config, db: Db, row: QRow) {
    && (row.fin == Finalized ==>
          && row.durable.Some? && row.durable == cfg.contentHash(row.cand) && row.status == Approved
          && row.event.Some? && row.event.value in db.events && db.events[row.event.value].completed == row.durable)
    && (row.fin == RtbfDeleting ==> row.worker == Some(RTBF_WORKER))
    && (row.event.Some? && row.event.value in db.events && db.events[row.event.value].completed.Some?
        ==> db.events[row.event.value].completed == cfg.contentHash(row.cand))
  }

  ghost predicate RowInv(cfg: Config, s: State) {
    forall a | a in s.db.rows :: RowOk(cfg, s.db, s.db.rows[a])
  }

  /** A running forget still holds every claimed row that exists. */
  ghost predicate ForgetOk(cfg: Config, s: State, f: Forget) {
    && (forall a | a in f.claimed :: a in s.cands)
    && (forall a | a in f.claimed && a in s.db.rows ::
          s.db.rows[a].fin == RtbfDeleting && RowAbout(cfg, s.db, a, f.drawer))
    && (f.found.Some? ==>
          f.found.value.0 in s.cands && cfg.contentHash(s.cands[f.found.value.0]) == Some(f.found.value.1))
  }

  ghost predicate ForgetInv(cfg: Config, s: State) {
    forall p | Sweeping(s, p) :: ForgetOk(cfg, s, s.forgets[p])
  }

  ghost predicate CoverInv(s: State) {
    forall id | id in s.store && s.store[id].active && s.store[id].mark.Some? ::
      Covered(s, s.store[id].mark.value.aid, id)
  }

  /** Every approval a worker ever claimed still passes the gate while its row exists. */
  ghost predicate AcceptInv(cfg: Config, s: State) {
    && Linked(cfg.hasher, s.audit)
    && forall wid | wid in s.workers && s.workers[wid].aid in s.db.rows ::
         Accepted(cfg, s.workers[wid].aid, s.db.rows[s.workers[wid].aid], s.audit)
  }

  predicate Settled(s: State, aid: nat) {
    aid !in s.db.rows || s.db.rows[aid].fin == Finalized || s.db.rows[aid].fin == RtbfDeleting
  }

  /** A running worker owns its claim, or its lease is over, or the approval is past claiming. */
  ghost predicate Excluded(s: State, wid: string)
    requires wid in s.workers
  {
    var w := s.workers[wid];
    || s.now > w.claimedAt + STALE_TTL
    || Settled(s, w.aid)
    || (Owns(s, wid) && s.db.rows[w.aid].claimedAt == Some(w.claimedAt))
  }

  ghost predicate ExclusionInv(s: State) {
    forall wid | Running(s, wid) :: Excluded(s, wid)
  }

  ghost predicate WinInv(s: State) {
    forall a | a in s.wins :: s.wins[a] == 1 && a in s.cands && Settled(s, a)
  }

  ghost predicate Inv(cfg: Config, s: State) {
    && IdsInv(s) && WorkerInv(cfg, s) && MarkInv(cfg, s) && RowInv(cfg, s) && ForgetInv(cfg, s)
    && CoverInv(s) && AcceptInv(cfg, s) && ExclusionInv(s) && WinInv(s)
  }

  // ---------------------------------------------------------------- rows and ids

  lemma TablesKeepSound(cfg: Config, s: State, step: Step)
    requires Sound(s.db) && !step.HandEdit?
    ensures Sound(TableApply(cfg, s, step).db)
  {
    hide Append, ApproveTx, BackfillTx, DeferTx, EnqueueTx, ResurfaceTx, SetStatusTx, Sound;
    match step
    case Enqueue(cand, proposer) => EnqueueKeepsSound(s.db, cand, proposer);
    case Approve(aid, via, approver, receipt) =>
      if ApproveTx(cfg, s.db, aid, via, approver, receipt).Ok? {
        ApproveKeepsSound(cfg, s.db, aid, via, approver, receipt);
      }
    case SetStatus(aid, status) => DecideKeepsSound(s.db, aid, status, 0, 0);
    case Defer(aid, until) => DecideKeepsSound(s.db, aid, Pending, until, 0);
    case Resurface(due) => DecideKeepsSound(s.db, 0, Pending, 0, due);
    case Backfill(aid, inspection, crash, ts, principal, tenant) =>
      BackfillKeepsSound(cfg, s.db, s.audit, aid, inspection, crash, ts, principal, tenant);
    case _ =>
  }

  lemma WorkersKeepSound(cfg: Config, s: State, step: Step)
    requires Sound(s.db) && (step.Gate? || step.Fail? || step.Record?)
    ensures Sound(WorkerApply(cfg, s, step).db)
  {
    hide Author, CheckStep, CleanupStep, FailTx, FindMarkerStep, GateDecision, GateEffect, RecordTx, Running,
      SendStep, Sound, WriteStep;
    match step
    case Gate(wid, aid, t0, readable) =>
      FinalizerKeepsSound(s.db, aid, wid, t0, GateDecision(cfg, s.db, s.audit, readable, aid, t0), "", 0);
    case Fail(wid) =>
      if wid in s.workers {
        FinalizerKeepsSound(s.db, s.workers[wid].aid, wid, 0, NotFinalizable, "", 0);
      }
    case Record(wid) =>
      if wid in s.workers && s.workers[wid].phase.Wrote? {
        var w := s.workers[wid];
        FinalizerKeepsSound(s.db, w.aid, wid, 0, NotFinalizable, w.phase.id, w.event);
      }
  }

  lemma ForgetsKeepSound(cfg: Config, s: State, step: Step)
    requires Sound(s.db) && (step.ForgetClaim? || step.Purge?)
    ensures Sound(ForgetApply(cfg, s, step).db)
  {
    hide AboutEvents, AboutRows, EventAbout, ForgetClaimTx, PurgeTx, RowAbout, Sound, SweepDeleteStep, SweepFindStep;
    match step
    case ForgetClaim(pid, drawer, t0) =>
      if ForgetClaimTx(cfg, s.db, drawer, t0).Some? {
        ForgetClaimKeepsSound(cfg, s.db, drawer, t0);
      }
    case Purge(pid) =>
      if pid in s.forgets {
        PurgeIsExact(cfg, s.db, s.forgets[pid].drawer);
      }
  }

  lemma SoundStep(cfg: Config, s: State, step: Step)
    requires Sound(s.db) && !step.HandEdit?
    ensures Sound(Apply(cfg, s, step).db)
  {
    hide ForgetApply, Sound, TableApply, WorkerApply;
    if !QueueStep(step) {
      QuietQueue(cfg, s, step);
    } else {
      if WorkerStep(step) {
        WorkersKeepSound(cfg, s, step);
      } else if ForgetStep(step) {
        ForgetsKeepSound(cfg, s, step);
      } else {
        TablesKeepSound(cfg, s, step);
      }
    }
  }

  lemma SameDbEvolves(db: Db)
    ensures Evolves(db, db)
  {
  }

  lemma TablesEvolve(cfg: Config, s: State, step: Step)
    requires Sound(s.db) && !step.HandEdit?
    ensures Evolves(s.db, TableApply(cfg, s, step).db)
  {
    hide Append, ApproveTx, BackfillTx, DeferTx, EnqueueTx, Evolves, ForgetClaimTx, ResurfaceTx,
      SetStatusTx, Sound;
    SameDbEvolves(s.db);
    match step
    case Enqueue(cand, proposer) => DecideEvolves(s.db, cand, proposer, 0, Pending, 0, 0);
    case Approve(aid, via, approver, receipt) =>
      if ApproveTx(cfg, s.db, aid, via, approver, receipt).Ok? {
        ApproveEvolves(cfg, s.db, aid, via, approver, receipt);
      }
    case SetStatus(aid, status) => DecideEvolves(s.db, "", None, aid, status, 0, 0);
    case Defer(aid, until) => DecideEvolves(s.db, "", None, aid, Pending, until, 0);
    case Resurface(due) => DecideEvolves(s.db, "", None, 0, Pending, 0, due);
    case Backfill(aid, inspection, crash, ts, principal, tenant) =>
      ForgetAndBackfillEvolve(cfg, s.db, s.audit, aid, inspection, crash, ts, principal, tenant, "", 0);
    case _ =>
  }

  lemma WorkersEvolve(cfg: Config, s: State, step: Step)
    requires step.Gate? || step.Fail? || step.Record?
    ensures Evolves(s.db, WorkerApply(cfg, s, step).db)
  {
    hide Author, CheckStep, CleanupStep, Evolves, FailTx, FindMarkerStep, GateDecision, GateEffect, RecordTx,
      Running, SendStep, WriteStep;
    SameDbEvolves(s.db);
    match step
    case Gate(wid, aid, t0, readable) =>
      GateEvolves(s.db, aid, wid, t0, GateDecision(cfg, s.db, s.audit, readable, aid, t0));
    case Fail(wid) =>
      if wid in s.workers {
        RecordAndFailEvolve(s.db, s.workers[wid].aid, wid, "", 0);
      }
    case Record(wid) =>
      if wid in s.workers && s.workers[wid].phase.Wrote? {
        var w := s.workers[wid];
        RecordAndFailEvolve(s.db, w.aid, wid, w.phase.id, w.event);
      }
  }

  lemma EvolveStep(cfg: Config, s: State, step: Step)
    requires Sound(s.db) && !step.HandEdit? && !step.Purge?
    ensures Evolves(s.db, Apply(cfg, s, step).db)
  {
    hide BackfillTx, Evolves, ForgetClaimTx, PurgeStep, Sound, SweepDeleteStep, SweepFindStep, Sweeping, TableApply,
      WorkerApply;
    SameDbEvolves(s.db);
    if !QueueStep(step) {
      QuietQueue(cfg, s, step);
    } else {
      if WorkerStep(step) {
        WorkersEvolve(cfg, s, step);
      } else if step.ForgetClaim? {
        ForgetAndBackfillEvolve(cfg, s.db, s.audit, 0, MarkerFound, true, 0, "", "", step.drawer, step.t0);
      } else {
        TablesEvolve(cfg, s, step);
      }
    }
  }

  /** A row that survives a step: the same row, evolved. */
  lemma RowPersists(cfg: Config, s: State, step: Step, a: nat)
    requires Sound(s.db) && !step.HandEdit?
    ensures a in s.db.rows && a in Apply(cfg, s, step).db.rows ==>
            RowEvolves(s.db.rows[a], Apply(cfg, s, step).db.rows[a])
    ensures a in Apply(cfg, s, step).db.rows && a !in s.db.rows ==> a >= s.db.nextRow
    ensures a in s.db.rows && a !in Apply(cfg, s, step).db.rows ==>
              step.Purge? && Sweeping(s, step.pid) && a in AboutRows(cfg, s.db, s.forgets[step.pid].drawer)
              && s.forgets[step.pid].claimed <= s.forgets[step.pid].swept
  {
    if !step.Purge? {
      EvolveStep(cfg, s, step);
    }
  }

  lemma NextRowGrows(cfg: Config, s: State, step: Step)
    requires Sound(s.db) && !step.HandEdit?
    ensures s.db.nextRow <= Apply(cfg, s, step).db.nextRow
    ensures s.cands.Keys <= Apply(cfg, s, step).cands.Keys
    ensures IdsInv(s) ==> forall a | a in s.cands :: Apply(cfg, s, step).cands[a] == s.cands[a]
  {
    if !step.Purge? {
      EvolveStep(cfg, s, step);
    }
    QuietHistory(cfg, s, step);
  }

  lemma IdsStep(cfg: Config, s: State, step: Step)
    requires IdsInv(s) && !step.HandEdit?
    ensures IdsInv(Apply(cfg, s, step))
  {
    var s' := Apply(cfg, s, step);
    SoundStep(cfg, s, step);
    NextRowGrows(cfg, s, step);
    QuietHistory(cfg, s, step);
    forall a | a in s'.db.rows ensures a in s'.cands && s'.cands[a] == s'.db.rows[a].cand {
      RowPersists(cfg, s, step, a);
      if a !in s.db.rows {
        OnlyEnqueueAdds(cfg, s, step, a);
      }
    }
  }

  lemma OnlyEnqueueAdds(cfg: Config, s: State, step: Step, a: nat)
    requires Sound(s.db) && !step.HandEdit? && a !in s.db.rows && a in Apply(cfg, s, step).db.rows
    ensures step.Enqueue? && a == s.db.nextRow
  {
    RowPersists(cfg, s, step, a);
    SoundStep(cfg, s, step);
    if !step.Enqueue? {
      QuietNextRow(cfg, s, step);
    }
  }

  lemma QuietNextRow(cfg: Config, s: State, step: Step)
    requires !step.HandEdit? && !step.Enqueue?
    ensures Apply(cfg, s, step).db.nextRow == s.db.nextRow
  {
    if !QueueStep(step) {
      hide Apply;
      QuietQueue(cfg, s, step);
    } else {
      hide Append, Author, GateDecision, GateRefusal, MarkerHits, NewMark, NextRow, Owns;
    }
  }

  // ---------------------------------------------------------------- finalizer columns

  predicate SameFin(r: QRow, r': QRow) {
    r'.fin == r.fin && r'.worker == r.worker && r'.claimedAt == r.claimedAt && r'.durable == r.durable
  }

  /** The steps that may change finalizer columns or the store id of an event. */
  predicate FinStep(step: Step) {
    step.Gate? || step.Fail? || step.Record? || step.ForgetClaim? || step.Purge? || step.HandEdit?
  }

  ghost predicate FinUnchanged(db: Db, db': Db) {
    && (forall a | a in db.rows :: a in db'.rows && SameFin(db.rows[a], db'.rows[a]))
    && (forall a | a in db'.rows && a !in db.rows :: db'.rows[a].fin == Idle)
    && (forall e | e in db.events :: e in db'.events && db'.events[e] == db.events[e])
  }

  lemma ApproveKeepsFin(cfg: Config, db: Db, aid: nat, via: Option<string>, approver: Option<string>,
                        receipt: Option<Receipt>)
    requires Sound(db) && ApproveTx(cfg, db, aid, via, approver, receipt).Ok?
    ensures FinUnchanged(db, ApproveTx(cfg, db, aid, via, approver, receipt).value.0)
  {
  }

  lemma EnqueueKeepsFin(db: Db, cand: string, proposer: Option<string>)
    requires Sound(db)
    ensures FinUnchanged(db, EnqueueTx(db, cand, proposer))
  {
  }

  lemma DecideKeepsFin(db: Db, aid: nat, status: Status, until: int, due: int)
    ensures FinUnchanged(db, SetStatusTx(db, aid, status))
    ensures FinUnchanged(db, DeferTx(db, aid, until)) && FinUnchanged(db, ResurfaceTx(db, due))
  {
  }

  lemma SameDbFin(db: Db)
    ensures FinUnchanged(db, db)
  {
  }

  lemma BackfillKeepsFin(cfg: Config, db: Db, audit: seq<Row>, aid: nat, inspection: Inspection, crash: bool, ts: int,
                         principal: string, tenant: string)
    ensures FinUnchanged(db, BackfillTx(cfg, db, audit, aid, inspection, crash, ts, principal, tenant).0)
  {
  }

  lemma TablesKeepFin(cfg: Config, s: State, step: Step)
    requires Sound(s.db) && !step.HandEdit?
    ensures FinUnchanged(s.db, TableApply(cfg, s, step).db)
  {
    hide Append, ApproveTx, BackfillTx, DeferTx, EnqueueTx, FinUnchanged, ResurfaceTx, SetStatusTx, Sound;
    SameDbFin(s.db);
    match step
    case Approve(aid, via, approver, receipt) =>
      if ApproveTx(cfg, s.db, aid, via, approver, receipt).Ok? {
        ApproveKeepsFin(cfg, s.db, aid, via, approver, receipt);
      }
    case Enqueue(cand, proposer) => EnqueueKeepsFin(s.db, cand, proposer);
    case SetStatus(aid, status) => DecideKeepsFin(s.db, aid, status, 0, 0);
    case Defer(aid, until) => DecideKeepsFin(s.db, aid, Pending, until, 0);
    case Resurface(due) => DecideKeepsFin(s.db, 0, Pending, 0, due);
    case Backfill(aid, inspection, crash, ts, principal, tenant) =>
      BackfillKeepsFin(cfg, s.db, s.audit, aid, inspection, crash, ts, principal, tenant);
    case _ =>
  }

  lemma FinQuiet(cfg: Config, s: State, step: Step)
    requires Sound(s.db) && !FinStep(step)
    ensures FinUnchanged(s.db, Apply(cfg, s, step).db)
  {
    hide FinUnchanged, ForgetApply, Sound, TableApply, WorkerApply;
    SameDbFin(s.db);
    if !QueueStep(step) {
      QuietQueue(cfg, s, step);
    } else {
      TablesKeepFin(cfg, s, step);
    }
  }

  // ---------------------------------------------------------------- workers and marks

  /** What the gate hands to a worker is what the row holds. */
  lemma ClaimReadsRow(cfg: Config, s: State, step: Step)
    requires Claims(cfg, s, step)
    ensures var c := GateDecision(cfg, s.db, s.audit, step.readable, step.aid, step.t0);
            && step.aid in s.db.rows && ApprovedWithEvent(s.db.rows[step.aid])
            && c.cand == s.db.rows[step.aid].cand && Some(c.event) == s.db.rows[step.aid].event
            && Accepted(cfg, step.aid, s.db.rows[step.aid], s.audit)
  {
  }

  lemma OldWorkerOk(cfg: Config, s: State, step: Step, wid: string)
    requires IdsInv(s) && WorkerInv(cfg, s) && MarkInv(cfg, s) && !step.HandEdit?
    requires wid in s.workers && wid in Apply(cfg, s, step).workers
    ensures WorkerOk(cfg, Apply(cfg, s, step), wid)
  {
    hide AboutRows, Apply, Done, FreshWorker, GateDecision, MarkInv, Past, PhaseMove, Sound, Sweeping, WorkerStep,
      WriteLands;
    assert WorkerOk(cfg, s, wid);
    WorkersPersist(cfg, s, step, wid);
    NextRowGrows(cfg, s, step);
    RowPersists(cfg, s, step, s.workers[wid].aid);
    PhaseMoves(cfg, s, step, wid);
    HeldIdIsItsHash(cfg, s, step, wid, Apply(cfg, s, step).workers[wid].phase);
  }

  /** Whatever id a worker comes to hold, written or found, is the content hash of its bytes. */
  lemma HeldIdIsItsHash(cfg: Config, s: State, step: Step, wid: string, p': Phase)
    requires MarkInv(cfg, s) && wid in s.workers && WorkerOk(cfg, s, wid)
    requires PhaseMove(cfg, s, step, wid, s.workers[wid].phase, p')
    ensures p'.Wrote? || p'.Orphaned? ==> cfg.contentHash(s.workers[wid].cand) == Some(p'.id)
  {
    if p'.Wrote? && step.FindMarker? && p' != s.workers[wid].phase {
      assert MarkOk(cfg, s, p'.id, s.store[p'.id].mark.value);
    }
  }

  lemma WorkerStepOk(cfg: Config, s: State, step: Step, wid: string)
    requires IdsInv(s) && WorkerInv(cfg, s) && MarkInv(cfg, s) && !step.HandEdit?
    requires wid in Apply(cfg, s, step).workers
    ensures WorkerOk(cfg, Apply(cfg, s, step), wid)
  {
    hide Apply, GateDecision, Accepted, Sound;
    if wid in s.workers {
      OldWorkerOk(cfg, s, step, wid);
    } else {
      WorkersPersist(cfg, s, step, wid);
      NextRowGrows(cfg, s, step);
      RowPersists(cfg, s, step, step.aid);
      ClaimReadsRow(cfg, s, step);
    }
  }

  /** A mark that belonged at its id still does. */
  lemma MarkStays(cfg: Config, s: State, step: Step, id: string, m: Mark)
    requires IdsInv(s) && !step.HandEdit? && MarkOk(cfg, s, id, m)
    ensures MarkOk(cfg, Apply(cfg, s, step), id, m)
  {
    hide Apply, Sound;
    NextRowGrows(cfg, s, step);
    var w :| w in s.workers && s.workers[w].aid == m.aid;
    NobodyLeaves(cfg, s, step, w);
    WorkersPersist(cfg, s, step, w);
  }

  lemma NewMarkOk(cfg: Config, s: State, w: string, id: string)
    requires WorkerInv(cfg, s) && w in s.workers && cfg.contentHash(s.workers[w].cand) == Some(id)
    ensures MarkOk(cfg, s, id, NewMark(s, w))
  {
    assert WorkerOk(cfg, s, w);
  }

  lemma NobodyLeaves(cfg: Config, s: State, step: Step, w: string)
    requires w in s.workers
    ensures w in Apply(cfg, s, step).workers
  {
    if !WorkerStep(step) {
      QuietWorkers(cfg, s, step);
    } else if step.Gate? {
      GateClaims(cfg, s, step);
    } else {
      OneWorkerMoves(cfg, s, step);
    }
  }

  lemma MarkStep(cfg: Config, s: State, step: Step)
    requires IdsInv(s) && WorkerInv(cfg, s) && MarkInv(cfg, s) && !step.HandEdit?
    ensures MarkInv(cfg, Apply(cfg, s, step))
  {
    hide Apply, MarkOk, IdsInv, WorkerInv;
    var s' := Apply(cfg, s, step);
    forall id | id in s'.store && s'.store[id].mark.Some? ensures MarkOk(cfg, s', id, s'.store[id].mark.value) {
      MarksPersist(cfg, s, step, id);
      if WriteLands(cfg, s, step) && cfg.contentHash(s.workers[step.wid].cand) == Some(id) {
        NewMarkOk(cfg, s, step.wid, id);
      }
      MarkStays(cfg, s, step, id, s'.store[id].mark.value);
    }
    forall post | post in s'.posts ensures MarkOk(cfg, s', post.id, post.mark) {
      PostsPersist(cfg, s, step, post);
      if post !in s.posts {
        NewMarkOk(cfg, s, step.wid, post.id);
      }
      MarkStays(cfg, s, step, post.id, post.mark);
    }
  }

  // ---------------------------------------------------------------- how finalizer columns move

  ghost predicate RefusedBy(cfg: Config, s: State, step: Step, a: nat) {
    step.Gate? && step.aid == a && Refuses(cfg, s, step.aid, step.t0, step.readable)
  }

  /** This worker's record succeeds, here. */
  predicate RecordsHere(s: State, step: Step) {
    && step.Record? && step.wid in s.workers && s.workers[step.wid].phase.Wrote?
    && RecordTx(s.db, s.workers[step.wid].aid, step.wid, s.workers[step.wid].phase.id,
                s.workers[step.wid].event).1 == Here
  }

  predicate FailsHere(s: State, step: Step, a: nat) {
    && step.Fail? && step.wid in s.workers && s.workers[step.wid].phase == Broken && s.workers[step.wid].aid == a
    && a in s.db.rows && s.db.rows[a].worker == Some(step.wid) && s.db.rows[a].fin != Finalized
  }

  predicate ForgetTakes(cfg: Config, s: State, step: Step, a: nat) {
    && step.ForgetClaim? && step.t0 <= s.now && RowAbout(cfg, s.db, a, step.drawer) && !LiveAt(s.db.rows[a], step.t0)
  }

  /** Every way one step can change the finalizer columns of a row. */
  ghost predicate FinMove(cfg: Config, s: State, step: Step, a: nat, r: QRow, r': QRow) {
    || SameFin(r, r')
    || (RefusedBy(cfg, s, step, a) && r.fin != Finalized && SameFin(r.(fin := Failed), r')
        && (r.fin == Finalizing && Provenanced(cfg, r) ==> !LiveAt(r, step.t0)) && step.t0 <= s.now)
    || (Claims(cfg, s, step) && step.aid == a && Claimable(r, step.t0) && SameFin(Claim(r, step.wid, step.t0), r'))
    || (FailsHere(s, step, a) && SameFin(r.(fin := Failed), r'))
    || (RecordsHere(s, step) && s.workers[step.wid].aid == a && r'.fin == Finalized
        && r'.durable == Some(s.workers[step.wid].phase.id))
    || (ForgetTakes(cfg, s, step, a) && SameFin(ForForget(r), r'))
  }

  lemma GateEffectFin(cfg: Config, s: State, step: Step, a: nat, outcome: GateOutcome)
    requires step.Gate? && a in s.db.rows && step.t0 <= s.now && step.wid != RTBF_WORKER && step.wid !in s.workers
    requires outcome == GateDecision(cfg, s.db, s.audit, step.readable, step.aid, step.t0)
    ensures var db' := GateEffect(s.db, step.aid, step.wid, step.t0, outcome);
            a in db'.rows && FinMove(cfg, s, step, a, s.db.rows[a], db'.rows[a])
  {
    hide GateRefusal, Provenanced, RecordsHere, FailsHere, ForgetTakes;
    if a == step.aid && Refusing(outcome) {
      assert RefusedBy(cfg, s, step, a);
    }
  }

  lemma GateFin(cfg: Config, s: State, step: Step, a: nat)
    requires step.Gate? && a in s.db.rows
    ensures a in Apply(cfg, s, step).db.rows && FinMove(cfg, s, step, a, s.db.rows[a], Apply(cfg, s, step).db.rows[a])
  {
    hide Author, CheckStep, Claim, Claimable, Claims, CleanupStep, FailStep, FailsHere, FindMarkerStep, ForForget,
      ForgetApply, ForgetStep, ForgetTakes, GateDecision, GateEffect, LiveAt, Move, Provenanced, RecordStep,
      RecordsHere, RefusedBy, Running, SendStep, TableApply, WriteStep;
    var outcome := GateDecision(cfg, s.db, s.audit, step.readable, step.aid, step.t0);
    if step.wid !in s.workers && step.wid != RTBF_WORKER && step.t0 <= s.now {
      GateEffectFin(cfg, s, step, a, outcome);
    }
  }

  lemma RecordFin(cfg: Config, s: State, step: Step, a: nat)
    requires (step.Record? || step.Fail?) && a in s.db.rows
    ensures a in Apply(cfg, s, step).db.rows && FinMove(cfg, s, step, a, s.db.rows[a], Apply(cfg, s, step).db.rows[a])
  {
    hide Accepted, CheckStep, Claims, CleanupStep, FindMarkerStep, ForgetApply, ForgetTakes, GateDecision, GateStep,
      LiveAt, Provenanced, Refuses, SendStep, TableApply, WriteStep;
  }

  lemma ForgetFin(cfg: Config, s: State, step: Step, a: nat)
    requires step.ForgetClaim? && a in s.db.rows
    ensures a in Apply(cfg, s, step).db.rows && FinMove(cfg, s, step, a, s.db.rows[a], Apply(cfg, s, step).db.rows[a])
  {
  }

  lemma FinMoves(cfg: Config, s: State, step: Step, a: nat)
    requires Sound(s.db) && !step.HandEdit? && a in s.db.rows && a in Apply(cfg, s, step).db.rows
    ensures FinMove(cfg, s, step, a, s.db.rows[a], Apply(cfg, s, step).db.rows[a])
  {
    if !FinStep(step) {
      hide Apply;
      FinQuiet(cfg, s, step);
    } else if step.Purge? {
    } else if step.Gate? {
      GateFin(cfg, s, step, a);
    } else if step.ForgetClaim? {
      ForgetFin(cfg, s, step, a);
    } else {
      RecordFin(cfg, s, step, a);
    }
  }

  // ---------------------------------------------------------------- recorded ids

  /** Under the invariant a successful record is one update of the worker's own row and event. */
  lemma RecordIsOneUpdate(cfg: Config, s: State, step: Step)
    requires IdsInv(s) && WorkerInv(cfg, s) && RowInv(cfg, s) && RecordsHere(s, step)
    ensures var w := s.workers[step.wid];
            && w.aid in s.db.rows && s.db.rows[w.aid].fin != RtbfDeleting && s.db.rows[w.aid].fin != Finalized
            && s.db.rows[w.aid].event == Some(w.event) && w.event in s.db.events
            && Apply(cfg, s, step).db == Recorded(s.db, w.aid, step.wid, w.phase.id, Some(w.event))
  {
    var w := s.workers[step.wid];
    assert WorkerOk(cfg, s, step.wid);
    assert RowOk(cfg, s.db, s.db.rows[w.aid]);
  }

  lemma RefusedRecordChangesNothing(cfg: Config, s: State, step: Step)
    requires step.Record? && !RecordsHere(s, step)
    ensures Apply(cfg, s, step).db == s.db
  {
  }

  lemma PlainFinKeepsEvents(cfg: Config, s: State, step: Step)
    requires step.Gate? || step.Fail? || step.ForgetClaim?
    ensures Apply(cfg, s, step).db.events == s.db.events
  {
    hide GateDecision;
  }

  lemma PurgeOnlyRemoves(cfg: Config, s: State, step: Step)
    requires step.Purge?
    ensures forall e | e in Apply(cfg, s, step).db.events  ::
              e in s.db.events && Apply(cfg, s, step).db.events[e] == s.db.events[e]
    ensures forall a | a in Apply(cfg, s, step).db.rows  ::
              a in s.db.rows && Apply(cfg, s, step).db.rows[a] == s.db.rows[a]
  {
  }

  /** The event of a surviving row keeps its store id, unless that row is being recorded now. */
  lemma EventKept(cfg: Config, s: State, step: Step, a: nat)
    requires IdsInv(s) && WorkerInv(cfg, s) && RowInv(cfg, s) && !step.HandEdit?
    requires a in s.db.rows && a in Apply(cfg, s, step).db.rows && s.db.rows[a].status == Approved
    requires !(RecordsHere(s, step) && s.workers[step.wid].aid == a)
    ensures var e := s.db.rows[a].event.value;
            e in s.db.events && e in Apply(cfg, s, step).db.events
            && Apply(cfg, s, step).db.events[e] == s.db.events[e]
  {
    hide Apply;
    SoundStep(cfg, s, step);
    RowPersists(cfg, s, step, a);
    if step.Record? {
      if RecordsHere(s, step) {
        RecordIsOneUpdate(cfg, s, step);
      } else {
        RefusedRecordChangesNothing(cfg, s, step);
      }
    } else if step.Purge? {
      PurgeOnlyRemoves(cfg, s, step);
    } else if FinStep(step) {
      PlainFinKeepsEvents(cfg, s, step);
    } else {
      FinQuiet(cfg, s, step);
    }
  }

  /** An event of this state was there before, or has just been emitted and carries no store id. */
  lemma EventsAreOld(cfg: Config, s: State, step: Step, e: nat)
    requires Sound(s.db) && !step.HandEdit? && e in Apply(cfg, s, step).db.events
    ensures || (e in s.db.events && Apply(cfg, s, step).db.events[e].source == s.db.events[e].source)
            || Apply(cfg, s, step).db.events[e].completed.None?
  {
    if step.Approve? {
      if ApproveTx(cfg, s.db, step.aid, step.via, step.approver, step.receipt).Ok? {
        ApproveEmits(cfg, s.db, step.aid, step.via, step.approver, step.receipt);
      }
      hide ApproveTx, WorkerApply, ForgetApply;
    } else if step.Record? {
      RecordEvents(cfg, s, step);
    } else if step.Purge? {
      PurgeOnlyRemoves(cfg, s, step);
    } else if step.Gate? || step.Fail? || step.ForgetClaim? {
      PlainFinKeepsEvents(cfg, s, step);
    } else if step.Enqueue? || step.SetStatus? || step.Defer? || step.Resurface? || step.Backfill? {
      OtherTablesKeepEvents(cfg, s, step);
    } else {
      hide Apply;
      QuietQueue(cfg, s, step);
    }
  }

  lemma ApproveEmits(cfg: Config, db: Db, aid: nat, via: Option<string>, approver: Option<string>,
                     receipt: Option<Receipt>)
    requires Sound(db) && ApproveTx(cfg, db, aid, via, approver, receipt).Ok?
    ensures var db' := ApproveTx(cfg, db, aid, via, approver, receipt).value.0;
            forall e | e in db'.events ::
              (e in db.events && db'.events[e] == db.events[e]) || db'.events[e].completed.None?
  {
  }

  lemma RecordEvents(cfg: Config, s: State, step: Step)
    requires step.Record?
    ensures forall e | e in Apply(cfg, s, step).db.events ::
              e in s.db.events && Apply(cfg, s, step).db.events[e].source == s.db.events[e].source
  {
    hide CheckStep, CleanupStep, FailStep, FindMarkerStep, ForgetApply, GateStep, Running, SendStep, TableApply,
      WriteStep;
  }

  lemma OtherTablesKeepEvents(cfg: Config, s: State, step: Step)
    requires step.Enqueue? || step.SetStatus? || step.Defer? || step.Resurface? || step.Backfill?
    ensures Apply(cfg, s, step).db.events == s.db.events
  {
    hide WorkerApply, ForgetApply, Append, NextRow, ApproveStep;
  }

  /** A row without an event can only gain one that carries no store id. */
  lemma UnapprovedRecordsNothing(cfg: Config, s: State, step: Step, a: nat)
    requires Sound(s.db) && !step.HandEdit? && a in s.db.rows && s.db.rows[a].status != Approved
    ensures RecordedId(Apply(cfg, s, step).db, a).None?
  {
    var db' := Apply(cfg, s, step).db;
    SoundStep(cfg, s, step);
    hide Apply;
    if a in db'.rows && db'.rows[a].event.Some? {
      EventsAreOld(cfg, s, step, db'.rows[a].event.value);
    }
  }

  lemma RowStep(cfg: Config, s: State, step: Step, a: nat)
    requires IdsInv(s) && WorkerInv(cfg, s) && RowInv(cfg, s) && !step.HandEdit?
    requires a in Apply(cfg, s, step).db.rows
    ensures RowOk(cfg, Apply(cfg, s, step).db, Apply(cfg, s, step).db.rows[a])
  {
    hide Apply, Sound, RecordTx, WorkerInv, RowInv;
    if a !in s.db.rows {
      NewRowIsPlain(cfg, s, step, a);
    } else if RecordsHere(s, step) && s.workers[step.wid].aid == a {
      RecordedRowOk(cfg, s, step);
    } else {
      UnrecordedRowOk(cfg, s, step, a);
    }
  }

  lemma RecordedRowOk(cfg: Config, s: State, step: Step)
    requires IdsInv(s) && WorkerInv(cfg, s) && RowInv(cfg, s) && RecordsHere(s, step)
    ensures var db', a := Apply(cfg, s, step).db, s.workers[step.wid].aid;
            a in db'.rows && RowOk(cfg, db', db'.rows[a])
  {
    assert WorkerOk(cfg, s, step.wid);
    RecordIsOneUpdate(cfg, s, step);
    hide Apply, RecordsHere;
  }

  lemma UnrecordedRowOk(cfg: Config, s: State, step: Step, a: nat)
    requires IdsInv(s) && WorkerInv(cfg, s) && RowInv(cfg, s) && !step.HandEdit?
    requires a in s.db.rows && a in Apply(cfg, s, step).db.rows
    requires !(RecordsHere(s, step) && s.workers[step.wid].aid == a)
    ensures RowOk(cfg, Apply(cfg, s, step).db, Apply(cfg, s, step).db.rows[a])
  {
    hide Apply, Sound, FailsHere, ForgetTakes, RefusedBy, RecordsHere, Provenanced, LiveAt, Claimable, Claims;
    assert RowOk(cfg, s.db, s.db.rows[a]);
    RowPersists(cfg, s, step, a);
    FinMoves(cfg, s, step, a);
    if s.db.rows[a].status == Approved {
      EventKept(cfg, s, step, a);
    } else {
      UnapprovedRecordsNothing(cfg, s, step, a);
    }
  }

  lemma NewRowIsPlain(cfg: Config, s: State, step: Step, a: nat)
    requires Sound(s.db) && !step.HandEdit? && a !in s.db.rows && a in Apply(cfg, s, step).db.rows
    ensures Apply(cfg, s, step).db.rows[a].fin == Idle && Apply(cfg, s, step).db.rows[a].event.None?
  {
    hide Apply;
    OnlyEnqueueAdds(cfg, s, step, a);
    FinQuiet(cfg, s, step);
    EvolveStep(cfg, s, step);
    SoundStep(cfg, s, step);
  }

  // ---------------------------------------------------------------- forgets hold what they claimed

  lemma RtbfMove(cfg: Config, s: State, step: Step, a: nat, r: QRow, r': QRow)
    requires FinMove(cfg, s, step, a, r, r') && r.fin == RtbfDeleting && r.worker == Some(RTBF_WORKER)
    requires a in s.db.rows && s.db.rows[a] == r
    requires !RefusedBy(cfg, s, step, a) && !(RecordsHere(s, step) && s.workers[step.wid].aid == a)
    requires FailsHere(s, step, a) ==> step.wid != RTBF_WORKER
    ensures r'.fin == RtbfDeleting
  {
    hide RefusedBy, RecordsHere;
  }

  lemma NobodyEdits(cfg: Config, s: State, step: Step)
    requires Careful(cfg, s, step)
    ensures !step.HandEdit?
  {
  }

  /** The only ways out of `RtbfDeleting` are the purge and a refused finalize. */
  lemma RtbfStays(cfg: Config, s: State, step: Step, a: nat)
    requires IdsInv(s) && WorkerInv(cfg, s) && RowInv(cfg, s) && !step.HandEdit? && !RefusedBy(cfg, s, step, a)
    requires a in s.db.rows && s.db.rows[a].fin == RtbfDeleting && a in Apply(cfg, s, step).db.rows
    ensures Apply(cfg, s, step).db.rows[a].fin == RtbfDeleting
  {
    hide Apply, FinMove, RecordsHere, RefusedBy, Sound, Provenanced, LiveAt;
    assert RowOk(cfg, s.db, s.db.rows[a]);
    assert FailsHere(s, step, a) ==> WorkerOk(cfg, s, step.wid);
    FinMoves(cfg, s, step, a);
    if RecordsHere(s, step) {
      RecordIsOneUpdate(cfg, s, step);
    }
    RtbfMove(cfg, s, step, a, s.db.rows[a], Apply(cfg, s, step).db.rows[a]);
  }

  lemma CarefulIsNotRefused(cfg: Config, s: State, step: Step, a: nat)
    requires Careful(cfg, s, step) && a in s.db.rows && s.db.rows[a].fin == RtbfDeleting
    ensures !step.HandEdit? && !RefusedBy(cfg, s, step, a)
  {
    hide GateDecision;
  }

  lemma RtbfHolds(cfg: Config, s: State, step: Step, a: nat)
    requires IdsInv(s) && WorkerInv(cfg, s) && RowInv(cfg, s) && Careful(cfg, s, step)
    requires a in s.db.rows && s.db.rows[a].fin == RtbfDeleting && a in Apply(cfg, s, step).db.rows
    ensures Apply(cfg, s, step).db.rows[a].fin == RtbfDeleting
  {
    hide *;
    CarefulIsNotRefused(cfg, s, step, a);
    RtbfStays(cfg, s, step, a);
  }

  /** How a running forget comes to stand where it stands. */
  ghost predicate ForgetMove(cfg: Config, s: State, s': State, step: Step, p: nat)
    requires p in s'.forgets
  {
    var f' := s'.forgets[p];
    || (step.ForgetClaim? && step.pid == p && p !in s.forgets && f'.claimed == AboutRows(cfg, s.db, step.drawer)
        && f'.drawer == step.drawer && f'.swept == {} && f'.found.None? && s'.db == ClaimRows(s.db, f'.claimed))
    || (Sweeping(s, p)
        && var f := s.forgets[p];
           && f'.claimed == f.claimed && f'.drawer == f.drawer
           && (f'.found.Some? && f'.found != f.found ==>
                 f'.found.value.0 in f.claimed && f'.found.value.1 in MarkerHits(s, f'.found.value.0))
           && (f'.swept != f.swept ==>
                 || (step.SweepFind? && step.pid == p && MarkerHits(s, step.aid) == {}
                     && f'.swept == f.swept + {step.aid})
                 || (step.SweepDelete? && step.pid == p && f.found.Some? && f'.swept == f.swept + {f.found.value.0}
                     && s'.store == s.store - {f.found.value.1})))
  }

  lemma ForgetClaimMove(cfg: Config, s: State, step: Step, p: nat)
    requires step.ForgetClaim? && Sweeping(Apply(cfg, s, step), p)
    ensures ForgetMove(cfg, s, Apply(cfg, s, step), step, p)
  {
  }

  lemma SweepMove(cfg: Config, s: State, step: Step, p: nat)
    requires ForgetStep(step) && !step.ForgetClaim? && Sweeping(Apply(cfg, s, step), p)
    ensures ForgetMove(cfg, s, Apply(cfg, s, step), step, p)
  {
    hide AboutRows, AboutEvents;
  }

  lemma ForgetMoves(cfg: Config, s: State, step: Step, p: nat)
    requires Sweeping(Apply(cfg, s, step), p)
    ensures ForgetMove(cfg, s, Apply(cfg, s, step), step, p)
  {
    hide Apply;
    if !ForgetStep(step) {
      QuietForgets(cfg, s, step);
    } else if step.ForgetClaim? {
      ForgetClaimMove(cfg, s, step, p);
    } else {
      SweepMove(cfg, s, step, p);
    }
  }

  /** A row held for a forget stays about its drawer. */
  lemma AboutPersists(cfg: Config, s: State, step: Step, a: nat, drawer: string)
    requires IdsInv(s) && WorkerInv(cfg, s) && RowInv(cfg, s) && !step.HandEdit?
    requires a in s.db.rows && a in Apply(cfg, s, step).db.rows
    requires s.db.rows[a].fin == RtbfDeleting && RowAbout(cfg, s.db, a, drawer)
    ensures RowAbout(cfg, Apply(cfg, s, step).db, a, drawer)
  {
    hide Apply;
    RowPersists(cfg, s, step, a);
    if RecordsHere(s, step) {
      RecordIsOneUpdate(cfg, s, step);
    }
    if s.db.rows[a].status == Approved {
      EventKept(cfg, s, step, a);
    }
  }

  lemma ForgetStepOk(cfg: Config, s: State, step: Step, p: nat)
    requires IdsInv(s) && WorkerInv(cfg, s) && RowInv(cfg, s) && MarkInv(cfg, s) && ForgetInv(cfg, s)
    requires Careful(cfg, s, step) && Sweeping(Apply(cfg, s, step), p)
    ensures ForgetOk(cfg, Apply(cfg, s, step), Apply(cfg, s, step).forgets[p])
  {
    assert !step.HandEdit?;
    hide Apply, Careful, Sound;
    var s' := Apply(cfg, s, step);
    var f' := s'.forgets[p];
    ForgetMoves(cfg, s, step, p);
    NextRowGrows(cfg, s, step);
    if Sweeping(s, p) {
      assert ForgetOk(cfg, s, s.forgets[p]);
    }
    forall a | a in f'.claimed && a in s'.db.rows
      ensures s'.db.rows[a].fin == RtbfDeleting && RowAbout(cfg, s'.db, a, f'.drawer)
    {
      if a !in s.db.rows {
        OnlyEnqueueAdds(cfg, s, step, a);
      } else if Sweeping(s, p) {
        RtbfHolds(cfg, s, step, a);
        AboutPersists(cfg, s, step, a, f'.drawer);
      }
    }
  }

  // ---------------------------------------------------------------- every durable row is covered

  /** Sweeping a marker leaves no active row that carries it. */
  lemma SweptMarkIsGone(cfg: Config, s: State, step: Step, p: nat, aid: nat, id: string)
    requires MarkInv(cfg, s) && ForgetInv(cfg, s)
    requires Sweeping(Apply(cfg, s, step), p) && Sweeping(s, p)
    requires aid in Apply(cfg, s, step).forgets[p].swept && aid !in s.forgets[p].swept
    ensures id in Apply(cfg, s, step).store ==> !Carries(Apply(cfg, s, step).store[id], aid)
  {
    hide Apply;
    ForgetMoves(cfg, s, step, p);
    assert ForgetOk(cfg, s, s.forgets[p]);
    if id in Apply(cfg, s, step).store && Carries(Apply(cfg, s, step).store[id], aid) {
      MarksPersist(cfg, s, step, id);
    }
    assert id in s.store && Carries(s.store[id], aid) ==> id in MarkerHits(s, aid);
  }

  /** An unswept approval stays unswept while its row lives and an active row carries its mark. */
  lemma UnsweptPersists(cfg: Config, s: State, step: Step, aid: nat, id: string)
    requires IdsInv(s) && MarkInv(cfg, s) && ForgetInv(cfg, s) && !step.HandEdit?
    requires Unswept(s, aid, id) && aid in Apply(cfg, s, step).db.rows
    requires id in Apply(cfg, s, step).store && Carries(Apply(cfg, s, step).store[id], aid)
    ensures Unswept(Apply(cfg, s, step), aid, id)
  {
    hide Apply, Sound;
    var s' := Apply(cfg, s, step);
    forall p | Sweeping(s', p) && aid in s'.forgets[p].claimed
      ensures aid !in s'.forgets[p].swept || (s'.forgets[p].found.Some? && s'.forgets[p].found.value.1 == id)
    {
      ForgetMoves(cfg, s, step, p);
      if Sweeping(s, p) && aid !in s.forgets[p].swept && aid in s'.forgets[p].swept {
        SweptMarkIsGone(cfg, s, step, p, aid, id);
      } else if Sweeping(s, p) && aid in s.forgets[p].swept {
        FoundIsKept(cfg, s, step, p);
      }
    }
  }

  /** What a lookup found stays to be deleted until it is. */
  lemma FoundIsKept(cfg: Config, s: State, step: Step, p: nat)
    requires Sweeping(s, p) && s.forgets[p].found.Some? && Sweeping(Apply(cfg, s, step), p)
    ensures || Apply(cfg, s, step).forgets[p].found == s.forgets[p].found
            || s.forgets[p].found.value.1 !in Apply(cfg, s, step).store
  {
    if !ForgetStep(step) {
      hide Apply;
      QuietForgets(cfg, s, step);
    } else if step.ForgetClaim? {
      hide ForgetClaimTx;
    } else {
      hide MarkerHits, PurgeTx, ForgetClaimStep;
    }
  }

  /** A careful purge takes an unswept approval only if its row is otherwise answered for. */
  lemma TakenIsAnsweredFor(cfg: Config, s: State, step: Step, aid: nat, id: string)
    requires IdsInv(s) && Careful(cfg, s, step)
    requires Unswept(s, aid, id) && id in s.store && Carries(s.store[id], aid)
    requires aid !in Apply(cfg, s, step).db.rows
    ensures !WorkerStep(step) && (id in s.pending || Attended(s, aid, id))
  {
    NobodyEdits(cfg, s, step);
    RowPersists(cfg, s, step, aid);
    assert PurgeReady(s, step.pid);
    assert TakenUnclaimed(cfg, s, step.pid, id);
  }

  lemma UnsweptCovers(cfg: Config, s: State, step: Step, aid: nat, id: string)
    requires IdsInv(s) && MarkInv(cfg, s) && ForgetInv(cfg, s) && Careful(cfg, s, step)
    requires Unswept(s, aid, id) && id in s.store && Carries(s.store[id], aid)
    requires id in Apply(cfg, s, step).store && Carries(Apply(cfg, s, step).store[id], aid)
    ensures Covered(Apply(cfg, s, step), aid, id)
  {
    hide Apply, Careful, Unswept, Carries, IdsInv, MarkInv, ForgetInv;
    var s' := Apply(cfg, s, step);
    NobodyEdits(cfg, s, step);
    if aid in s'.db.rows {
      UnsweptPersists(cfg, s, step, aid, id);
    } else {
      TakenIsAnsweredFor(cfg, s, step, aid, id);
      Monotone(cfg, s, step);
      QuietWorkers(cfg, s, step);
      if w :| InFlight(s, w, aid, id) {
        assert InFlight(s', w, aid, id);
      }
    }
  }

  /** Owning a claim means no running forget holds the approval. */
  lemma OwnedIsUnswept(cfg: Config, s: State, wid: string, id: string)
    requires ForgetInv(cfg, s) && Owns(s, wid)
    ensures Unswept(s, s.workers[wid].aid, id)
  {
    forall p | Sweeping(s, p) ensures s.workers[wid].aid !in s.forgets[p].claimed {
      assert ForgetOk(cfg, s, s.forgets[p]);
    }
  }

  lemma FreshMarkCovered(cfg: Config, s: State, step: Step)
    requires Careful(cfg, s, step) && WriteLands(cfg, s, step)
    ensures Covered(Apply(cfg, s, step), s.workers[step.wid].aid, cfg.contentHash(s.workers[step.wid].cand).value)
  {
    var s', aid, id := Apply(cfg, s, step), s.workers[step.wid].aid, cfg.contentHash(s.workers[step.wid].cand).value;
    LandingWorker(cfg, s, step);
    OneWorkerMoves(cfg, s, step);
    Monotone(cfg, s, step);
    hide Apply;
    if step.fate == Lands {
      assert InFlight(s', step.wid, aid, id);
    } else if w :| w != step.wid && InFlight(s, w, aid, id) {
      assert InFlight(s', w, aid, id);
    }
  }

  lemma LateMarkCovered(cfg: Config, s: State, step: Step)
    requires LandsLate(s, step) && Careful(cfg, s, step)
    ensures var s' := Apply(cfg, s, step);
            step.post.id in s'.store && s'.store[step.post.id].mark == Some(step.post.mark)
    ensures Covered(Apply(cfg, s, step), step.post.mark.aid, step.post.id)
  {
    var s', aid, id := Apply(cfg, s, step), step.post.mark.aid, step.post.id;
    assert s'.db == s.db && s'.forgets == s.forgets && s'.workers == s.workers && s'.pending == s.pending;
    if w :| InFlight(s, w, aid, id) {
      assert InFlight(s', w, aid, id);
    }
  }

  /** A record that is not lost finds the approval unclaimed by any running forget. */
  lemma RecordingIsUnswept(cfg: Config, s: State, step: Step, id: string)
    requires RowInv(cfg, s) && ForgetInv(cfg, s) && WorkerInv(cfg, s)
    requires step.Record? && step.wid in s.workers && s.workers[step.wid].phase.Wrote?
    ensures step.wid in Apply(cfg, s, step).workers
    ensures Apply(cfg, s, step).workers[step.wid].phase == Orphaned(s.workers[step.wid].phase.id)
            || Unswept(s, s.workers[step.wid].aid, id)
  {
    var w := s.workers[step.wid];
    assert WorkerOk(cfg, s, step.wid);
    if w.aid in s.db.rows {
      assert RowOk(cfg, s.db, s.db.rows[w.aid]);
      forall p | Sweeping(s, p) && w.aid in s.forgets[p].claimed
        ensures Apply(cfg, s, step).workers[step.wid].phase == Orphaned(w.phase.id)
      {
        assert ForgetOk(cfg, s, s.forgets[p]);
      }
    }
  }

  /** A worker leaves the stretch between write and record only by recording, cleaning up or crashing. */
  lemma InFlightEnds(cfg: Config, s: State, step: Step, wid: string, aid: nat, id: string)
    requires RowInv(cfg, s) && ForgetInv(cfg, s) && WorkerInv(cfg, s)
    requires InFlight(s, wid, aid, id) && !InFlight(Apply(cfg, s, step), wid, aid, id)
    ensures || id !in Apply(cfg, s, step).store || id in Apply(cfg, s, step).pending
            || Unswept(s, aid, id) || (step.Crash? && step.wid == wid)
  {
    if !WorkerStep(step) {
      QuietWorkers(cfg, s, step);
    } else if step.Gate? {
      GateClaims(cfg, s, step);
    } else if step.wid != wid {
      hide Apply;
      OneWorkerMoves(cfg, s, step);
    } else if step.Record? {
      RecordingIsUnswept(cfg, s, step, id);
    }
  }

  /** A worker in flight answers for its row until somebody else does, or the row is gone. */
  lemma InFlightCovers(cfg: Config, s: State, step: Step, w: string, aid: nat, id: string)
    requires RowInv(cfg, s) && ForgetInv(cfg, s) && WorkerInv(cfg, s) && Careful(cfg, s, step)
    requires InFlight(s, w, aid, id) && !Unswept(s, aid, id) && id in s.store && Carries(s.store[id], aid)
    requires id in Apply(cfg, s, step).store
    ensures Covered(Apply(cfg, s, step), aid, id)
  {
    hide Apply, Unswept, Carries;
    var s' := Apply(cfg, s, step);
    Monotone(cfg, s, step);
    if !InFlight(s', w, aid, id) {
      InFlightEnds(cfg, s, step, w, aid, id);
      if step.Crash? && id !in s.pending {
        OneWorkerMoves(cfg, s, step);
        var w2 :| w2 != w && InFlight(s, w2, aid, id);
        assert InFlight(s', w2, aid, id);
      }
    }
  }

  lemma CoverStep(cfg: Config, s: State, step: Step, id: string)
    requires IdsInv(s) && WorkerInv(cfg, s) && MarkInv(cfg, s) && RowInv(cfg, s) && ForgetInv(cfg, s) && CoverInv(s)
    requires Careful(cfg, s, step)
    requires var s' := Apply(cfg, s, step); id in s'.store && s'.store[id].active && s'.store[id].mark.Some?
    ensures Covered(Apply(cfg, s, step), Apply(cfg, s, step).store[id].mark.value.aid, id)
  {
    hide AboutRows, Apply, Careful, ForgetInv, IdsInv, MarkInv, Owns, RowInv, Unswept, WorkerInv;
    var s' := Apply(cfg, s, step);
    var aid := s'.store[id].mark.value.aid;
    MarksPersist(cfg, s, step, id);
    if WriteLands(cfg, s, step) && cfg.contentHash(s.workers[step.wid].cand) == Some(id) {
      FreshMarkCovered(cfg, s, step);
    } else if LandsLate(s, step) && step.post.id == id {
      LateMarkCovered(cfg, s, step);
    } else {
      Monotone(cfg, s, step);
      if Unswept(s, aid, id) {
        UnsweptCovers(cfg, s, step, aid, id);
      } else if w :| InFlight(s, w, aid, id) {
        InFlightCovers(cfg, s, step, w, aid, id);
      }
    }
  }

  // ---------------------------------------------------------------- accepted approvals, one claim at a time

  lemma AcceptStep(cfg: Config, s: State, step: Step, wid: string)
    requires IdsInv(s) && WorkerInv(cfg, s) && AcceptInv(cfg, s) && !step.HandEdit?
    requires wid in Apply(cfg, s, step).workers
    requires Apply(cfg, s, step).workers[wid].aid in Apply(cfg, s, step).db.rows
    ensures var s' := Apply(cfg, s, step);
            Accepted(cfg, s'.workers[wid].aid, s'.db.rows[s'.workers[wid].aid], s'.audit)
  {
    hide Apply, Sound, GateDecision, Accepted;
    var s' := Apply(cfg, s, step);
    var aid := s'.workers[wid].aid;
    WorkersPersist(cfg, s, step, wid);
    if wid in s.workers {
      assert WorkerOk(cfg, s, wid);
    } else {
      ClaimReadsRow(cfg, s, step);
    }
    RowPersists(cfg, s, step, aid);
    if aid !in s.db.rows {
      OnlyEnqueueAdds(cfg, s, step, aid);
    }
    var es := LogSuffix(cfg, s, step);
    AcceptedIsStable(cfg, aid, s.db.rows[aid], s'.db.rows[aid], s.audit, es);
  }

  /** The entries a step appends to the log. */
  lemma LogSuffix(cfg: Config, s: State, step: Step) returns (es: seq<Entry>)
    ensures Apply(cfg, s, step).audit == AppendAll(cfg.hasher, s.audit, es)
  {
    hide ApproveStep, EnqueueStep, ForgetApply, LandStep, SetStatusTx, WorkerApply;
    es := [];
    assert AppendAll(cfg.hasher, s.audit, []) == s.audit;
    if step.Log? {
      es := [step.entry];
      OneEntry(cfg, s.audit, step.entry);
    } else if !step.Backfill? {
      hide Apply;
      QuietLog(cfg, s, step);
    } else if step.aid in s.db.rows && BackfillReady(s.db.rows[step.aid], step.inspection) {
      var e := BackfillEntry(cfg, step.aid, s.db.rows[step.aid], step.inspection, step.ts, step.principal, step.tenant);
      es := [e];
      OneEntry(cfg, s.audit, e);
    }
  }

  lemma OneEntry(cfg: Config, audit: seq<Row>, e: Entry)
    ensures AppendAll(cfg.hasher, audit, [e]) == Append(cfg.hasher, audit, e)
  {
    assert AppendAll(cfg.hasher, Append(cfg.hasher, audit, e), []) == Append(cfg.hasher, audit, e);
  }

  lemma QuietLog(cfg: Config, s: State, step: Step)
    requires !step.Log? && !step.Backfill?
    ensures Apply(cfg, s, step).audit == s.audit
  {
    hide *;
    Frames(cfg, s, step);
  }

  /** An accepted row can be refused only for an unreadable log, and then only when no live worker owns it. */
  lemma RefusalOfAccepted(cfg: Config, s: State, step: Step, a: nat)
    requires RefusedBy(cfg, s, step, a) && a in s.db.rows && Accepted(cfg, a, s.db.rows[a], s.audit)
    ensures !step.readable && !LiveAt(s.db.rows[a], step.t0)
  {
  }

  /** A settled approval stays settled in a careful run. */
  lemma SettledPersists(cfg: Config, s: State, step: Step, a: nat)
    requires IdsInv(s) && WorkerInv(cfg, s) && RowInv(cfg, s) && Careful(cfg, s, step)
    requires a in s.cands && Settled(s, a)
    ensures Settled(Apply(cfg, s, step), a)
  {
    hide Apply, Sound, GateDecision, Careful, RecordsHere;
    NobodyEdits(cfg, s, step);
    if a in Apply(cfg, s, step).db.rows {
      if a !in s.db.rows {
        OnlyEnqueueAdds(cfg, s, step, a);
      } else if s.db.rows[a].fin == RtbfDeleting {
        RtbfHolds(cfg, s, step, a);
      } else {
        FinMoves(cfg, s, step, a);
      }
    }
  }

  /** How a worker that owns its claim can stop owning it. */
  lemma OwnerMove(cfg: Config, s: State, step: Step, wid: string, r: QRow, r': QRow)
    requires wid in s.workers && Owns(s, wid)
    requires var w := s.workers[wid];
             && s.db.rows[w.aid] == r && r.claimedAt == Some(w.claimedAt)
             && FinMove(cfg, s, step, w.aid, r, r')
             && Accepted(cfg, w.aid, r, s.audit)
             && (step.Fail? ==> step.wid != wid || s.workers[wid].phase != Broken)
             && (Claims(cfg, s, step) ==> step.wid != wid)
    ensures var w := s.workers[wid];
            || s.now > w.claimedAt + STALE_TTL
            || r'.fin == Finalized || r'.fin == RtbfDeleting
            || (r'.fin == Finalizing && r'.worker == Some(wid) && r'.claimedAt == Some(w.claimedAt))
  {
    hide Accepted, RecordsHere, GateDecision, Refuses;
    if RefusedBy(cfg, s, step, s.workers[wid].aid) {
      RefusalOfAccepted(cfg, s, step, s.workers[wid].aid);
    }
  }

  lemma ExclusionStep(cfg: Config, s: State, step: Step, wid: string)
    requires IdsInv(s) && WorkerInv(cfg, s) && RowInv(cfg, s) && AcceptInv(cfg, s) && ExclusionInv(s)
    requires Careful(cfg, s, step) && Running(Apply(cfg, s, step), wid)
    ensures Excluded(Apply(cfg, s, step), wid)
  {
    hide Apply, Sound, GateDecision, Accepted, FinMove, Careful;
    var s' := Apply(cfg, s, step);
    Monotone(cfg, s, step);
    WorkersPersist(cfg, s, step, wid);
    if wid in s.workers {
      OldWorkerExcluded(cfg, s, step, wid);
    } else {
      ClaimOwns(cfg, s, step);
    }
  }

  lemma ClaimOwns(cfg: Config, s: State, step: Step)
    requires Claims(cfg, s, step)
    ensures var s' := Apply(cfg, s, step);
            && step.wid in s'.workers && Owns(s', step.wid)
            && s'.workers[step.wid].claimedAt == step.t0
            && s'.db.rows[step.aid].claimedAt == Some(step.t0) && s'.workers[step.wid].aid == step.aid
  {
    hide GateRefusal;
  }

  lemma OldWorkerExcluded(cfg: Config, s: State, step: Step, wid: string)
    requires IdsInv(s) && WorkerInv(cfg, s) && RowInv(cfg, s) && AcceptInv(cfg, s) && ExclusionInv(s)
    requires Careful(cfg, s, step) && wid in s.workers && Running(Apply(cfg, s, step), wid)
    ensures Excluded(Apply(cfg, s, step), wid)
  {
    hide Apply, Sound, GateDecision, Accepted, FinMove;
    assert !step.HandEdit?;
    var s' := Apply(cfg, s, step);
    var w := s.workers[wid];
    Monotone(cfg, s, step);
    WorkersPersist(cfg, s, step, wid);
    PhaseMoves(cfg, s, step, wid);
    assert WorkerOk(cfg, s, wid) && Running(s, wid);
    if Settled(s, w.aid) {
      SettledPersists(cfg, s, step, w.aid);
    } else if w.aid in s'.db.rows && s.now <= w.claimedAt + STALE_TTL {
      FinMoves(cfg, s, step, w.aid);
      FailEnds(cfg, s, step, wid);
      OwnerMove(cfg, s, step, wid, s.db.rows[w.aid], s'.db.rows[w.aid]);
    }
  }

  lemma FailEnds(cfg: Config, s: State, step: Step, wid: string)
    requires Running(Apply(cfg, s, step), wid)
    ensures step.Fail? ==> step.wid != wid || wid !in s.workers || s.workers[wid].phase != Broken
  {
  }

  // ---------------------------------------------------------------- at most one worker finalizes

  lemma WinStep(cfg: Config, s: State, step: Step, a: nat)
    requires IdsInv(s) && WorkerInv(cfg, s) && RowInv(cfg, s) && WinInv(s)
    requires Careful(cfg, s, step) && a in Apply(cfg, s, step).wins
    ensures Apply(cfg, s, step).wins[a] == 1 && a in Apply(cfg, s, step).cands && Settled(Apply(cfg, s, step), a)
  {
    hide Apply, Careful, Sound, RecordTx;
    NobodyEdits(cfg, s, step);
    NextRowGrows(cfg, s, step);
    if RecordsHere(s, step) && s.workers[step.wid].aid == a {
      FirstWin(cfg, s, step);
    } else {
      RecordCounts(cfg, s, step);
      SettledPersists(cfg, s, step, a);
    }
  }

  lemma FirstWin(cfg: Config, s: State, step: Step)
    requires IdsInv(s) && WorkerInv(cfg, s) && RowInv(cfg, s) && WinInv(s) && RecordsHere(s, step)
    ensures var s', a := Apply(cfg, s, step), s.workers[step.wid].aid;
            s'.wins[a] == 1 && a in s'.cands && Settled(s', a)
  {
    RecordIsOneUpdate(cfg, s, step);
    RecordCounts(cfg, s, step);
    QuietHistory(cfg, s, step);
    hide Apply;
    assert WorkerOk(cfg, s, step.wid);
    assert s.workers[step.wid].aid !in s.wins;
  }

  lemma RecordCounts(cfg: Config, s: State, step: Step)
    ensures Apply(cfg, s, step).wins ==
            if RecordsHere(s, step) then s.wins + multiset{s.workers[step.wid].aid} else s.wins
  {
    if !step.Record? {
      QuietHistory(cfg, s, step);
    }
  }

  // ---------------------------------------------------------------- the invariant holds

  /** What every step but a hand edit keeps, careful or not. */
  ghost predicate CoreInv(cfg: Config, s: State) {
    IdsInv(s) && WorkerInv(cfg, s) && MarkInv(cfg, s) && RowInv(cfg, s)
  }

  lemma CoreStep(cfg: Config, s: State, step: Step)
    requires CoreInv(cfg, s) && !step.HandEdit?
    ensures CoreInv(cfg, Apply(cfg, s, step))
  {
    hide Apply, Sound, WorkerOk, RowOk;
    var s' := Apply(cfg, s, step);
    IdsStep(cfg, s, step);
    MarkStep(cfg, s, step);
    forall wid | wid in s'.workers ensures WorkerOk(cfg, s', wid) { WorkerStepOk(cfg, s, step, wid); }
    forall a | a in s'.db.rows ensures RowOk(cfg, s'.db, s'.db.rows[a]) { RowStep(cfg, s, step, a); }
  }

  /** The part of the invariant that keeps durable rows from being orphaned. */
  ghost predicate SafeInv(cfg: Config, s: State) {
    CoreInv(cfg, s) && ForgetInv(cfg, s) && CoverInv(s)
  }

  lemma SafeStep(cfg: Config, s: State, step: Step)
    requires SafeInv(cfg, s) && Careful(cfg, s, step)
    ensures SafeInv(cfg, Apply(cfg, s, step))
  {
    NobodyEdits(cfg, s, step);
    hide Apply, Careful, IdsInv, WorkerInv, MarkInv, RowInv, Covered, ForgetOk;
    var s' := Apply(cfg, s, step);
    CoreStep(cfg, s, step);
    forall p | Sweeping(s', p) ensures ForgetOk(cfg, s', s'.forgets[p]) { ForgetStepOk(cfg, s, step, p); }
    forall id | id in s'.store && s'.store[id].active && s'.store[id].mark.Some?
      ensures Covered(s', s'.store[id].mark.value.aid, id)
    {
      CoverStep(cfg, s, step, id);
    }
  }

  lemma InvStep(cfg: Config, s: State, step: Step)
    requires Inv(cfg, s) && Careful(cfg, s, step)
    ensures Inv(cfg, Apply(cfg, s, step))
  {
    NobodyEdits(cfg, s, step);
    hide Apply, Sound, Careful, IdsInv, WorkerInv, MarkInv, RowInv, ForgetInv, CoverInv, Accepted, Settled;
    var s' := Apply(cfg, s, step);
    SafeStep(cfg, s, step);
    LogStaysLinked(cfg, s, step);
    forall wid | wid in s'.workers && s'.workers[wid].aid in s'.db.rows
      ensures Accepted(cfg, s'.workers[wid].aid, s'.db.rows[s'.workers[wid].aid], s'.audit)
    {
      AcceptStep(cfg, s, step, wid);
    }
    forall wid | Running(s', wid) ensures Excluded(s', wid) { ExclusionStep(cfg, s, step, wid); }
    forall a | a in s'.wins ensures s'.wins[a] == 1 && a in s'.cands && Settled(s', a) { WinStep(cfg, s, step, a); }
  }

  lemma LogStaysLinked(cfg: Config, s: State, step: Step)
    requires Linked(cfg.hasher, s.audit)
    ensures Linked(cfg.hasher, Apply(cfg, s, step).audit)
  {
    var es := LogSuffix(cfg, s, step);
    AppendAllStaysLinked(cfg, s.audit, es);
  }

  lemma {:induction false} AppendAllStaysLinked(cfg: Config, audit: seq<Row>, es: seq<Entry>)
    requires Linked(cfg.hasher, audit)
    ensures Linked(cfg.hasher, AppendAll(cfg.hasher, audit, es))
    decreases |es|
  {
    if es != [] {
      AppendKeepsChain(cfg.hasher, audit, es[0]);
      AppendAllStaysLinked(cfg, Append(cfg.hasher, audit, es[0]), es[1..]);
    }
  }

  lemma PrefixIsCareful(cfg: Config, s: State, steps: seq<Step>, n: nat)
    requires CarefulRun(cfg, s, steps) && n <= |steps|
    ensures CarefulRun(cfg, s, steps[..n])
  {
    forall i | 0 <= i < n ensures Careful(cfg, Run(cfg, s, steps[..n][..i]), steps[..n][i]) {
      assert steps[..n][..i] == steps[..i] && Careful(cfg, Run(cfg, s, steps[..i]), steps[i]);
    }
  }

  /** Careful runs keep the invariant, wherever they start. */
  lemma {:induction false} InvKept(cfg: Config, s: State, steps: seq<Step>)
    requires Inv(cfg, s) && CarefulRun(cfg, s, steps)
    ensures Inv(cfg, Run(cfg, s, steps))
    decreases |steps|
  {
    hide Inv, Careful, Apply;
    if steps != [] {
      var n := |steps| - 1;
      PrefixIsCareful(cfg, s, steps, n);
      InvKept(cfg, s, steps[..n]);
      assert Careful(cfg, Run(cfg, s, steps[..n]), steps[n]);
      InvStep(cfg, Run(cfg, s, steps[..n]), steps[n]);
    }
  }

  lemma {:induction false} SafeKept(cfg: Config, s: State, steps: seq<Step>)
    requires SafeInv(cfg, s) && CarefulRun(cfg, s, steps)
    ensures SafeInv(cfg, Run(cfg, s, steps))
    decreases |steps|
  {
    hide SafeInv, Careful, Apply;
    if steps != [] {
      var n := |steps| - 1;
      PrefixIsCareful(cfg, s, steps, n);
      SafeKept(cfg, s, steps[..n]);
      assert Careful(cfg, Run(cfg, s, steps[..n]), steps[n]);
      SafeStep(cfg, Run(cfg, s, steps[..n]), steps[n]);
    }
  }

  lemma InvHolds(cfg: Config, s: State, steps: seq<Step>)
    requires Initial(cfg, s) && CarefulRun(cfg, s, steps)
    ensures Inv(cfg, Run(cfg, s, steps))
  {
    assert Inv(cfg, s);
    InvKept(cfg, s, steps);
  }
}
