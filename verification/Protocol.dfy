/**
 The approve / finalize / forget protocol as a state machine. Each database transaction is
 one atomic step; every store call is a step of its own, outside any transaction. Workers
 may stall for ever between two steps, crash, lose their lease, or be overtaken by a forget.
 */
module Protocol {
  import opened Basics
  import opened AuditChain
  import opened Queue

  // ---------------------------------------------------------------- actors

  /** Where a finalizer worker stands after its claim. */
  datatype Phase =
    | Holding               // claimed, nothing checked yet
    | Revalidated           // saw that it still owns the claim; about to write
    | Duplicate             // the store answered "exact duplicate"; about to look up its marker
    | Wrote(id: string)     // holds a durable id; about to record it
    | Broken                // an exception was raised; about to mark the row failed
    | Orphaned(id: string)  // recording was refused; about to delete its store row
    | Ended
    | Crashed

  datatype Worker = Worker(aid: nat, cand: string, event: nat, claimedAt: int, receipt: int, author: Option<string>,
                           logLength: nat, phase: Phase)

  /** The `approval_ref` tag of a durable row, with the bytes it was written from and under which receipt. */
  datatype Mark = Mark(aid: nat, cand: string, receipt: int, author: Option<string>, logLength: nat)

  datatype StoreRow = StoreRow(mark: Option<Mark>, active: bool)

  /** A POST that timed out: nobody waits for it any more, and it may still land. */
  datatype Post = Post(id: string, mark: Mark)

  /** A running `hard_delete`: the approvals it claimed and those whose marker it has swept. */
  datatype Forget = Forget(drawer: string, claimed: set<nat>, swept: set<nat>, found: Option<(nat, string)>, open: bool)

  /** `cands` and `wins` are history: every candidate ever enqueued, and every "finalized here". */
  datatype State = State(now: int, db: Db, audit: seq<Row>, store: map<string, StoreRow>, posts: multiset<Post>,
                         pending: set<string>, workers: map<string, Worker>, forgets: map<nat, Forget>,
                         cands: map<nat, string>, wins: multiset<nat>)

  datatype Fate = Lands | Raises | RaisesAfterLanding

  datatype Step =
    | Tick(now: int)
    | Log(entry: Entry)
    | Enqueue(cand: string, proposer: Option<string>)
    | Approve(aid: nat, via: Option<string>, approver: Option<string>, receipt: Option<Receipt>)
    | SetStatus(aid: nat, status: Status)
    | Defer(aid: nat, until: int)
    | Resurface(due: int)
    | Backfill(aid: nat, inspection: Inspection, crash: bool, ts: int, principal: string, tenant: string)
    | Gate(wid: string, aid: nat, t0: int, readable: bool)
    | Check(wid: string, built: bool)
    | Send(wid: string)
    | Write(wid: string, fate: Fate)
    | FindMarker(wid: string, readable: bool, giveUp: bool)
    | Fail(wid: string)
    | Record(wid: string)
    | Cleanup(wid: string, deleted: bool)
    | Crash(wid: string)
    | ForgetClaim(pid: nat, drawer: string, t0: int)
    | SweepFind(pid: nat, aid: nat)
    | SweepDelete(pid: nat)
    | Purge(pid: nat)
    | ForgetAbort(pid: nat)
    | StoreAdd(id: string)
    | StoreRetire(id: string)
    | StoreDelete(id: string)
    | Land(post: Post)
    | HandEdit(db: Db)

  // ---------------------------------------------------------------- helpers

  predicate Done(p: Phase) {
    p == Ended || p == Crashed
  }

  predicate Running(s: State, wid: string) {
    wid in s.workers && !Done(s.workers[wid].phase)
  }

  function Move(s: State, wid: string, phase: Phase): State
    requires wid in s.workers
  {
    s.(workers := s.workers[wid := s.workers[wid].(phase := phase)])
  }

  predicate Carries(r: StoreRow, aid: nat) {
    r.active && r.mark.Some? && r.mark.value.aid == aid
  }

  /** `find_active_hash_by_marker` sees these rows, and raises when there are two. */
  function MarkerHits(s: State, aid: nat): set<string> {
    set id | id in s.store && Carries(s.store[id], aid)
  }

  predicate Owns(s: State, wid: string) {
    wid in s.workers && StillOwns(s.db, s.workers[wid].aid, wid)
  }

  ghost function Author(cfg: Config, audit: seq<Row>, num: int): Option<string> {
    match Verdict(cfg.hasher, audit, num)
    case Some(row) => Clean(cfg, Lookup(row.content.entry.details, "proposed_by_profile"))
    case None => None
  }

  // ---------------------------------------------------------------- the steps

  function EnqueueStep(s: State, cand: string, proposer: Option<string>): State {
    s.(db := EnqueueTx(s.db, cand, proposer), cands := s.cands[s.db.nextRow := cand])
  }

  function ApproveStep(cfg: Config, s: State, aid: nat, via: Option<string>, approver: Option<string>,
                       receipt: Option<Receipt>): State {
    match ApproveTx(cfg, s.db, aid, via, approver, receipt)
    case Ok(done) => s.(db := done.0)
    case Err(_) => s
  }

  ghost function GateStep(cfg: Config, s: State, wid: string, aid: nat, t0: int, readable: bool): State {
    if wid in s.workers || wid == RTBF_WORKER || t0 > s.now then s
    else
      var outcome := GateDecision(cfg, s.db, s.audit, readable, aid, t0);
      var db := GateEffect(s.db, aid, wid, t0, outcome);
      match outcome
      case Claimed(cand, event, num) =>
        var w := Worker(aid, cand, event, t0, num, Author(cfg, s.audit, num), |s.audit|, Holding);
        s.(db := db, workers := s.workers[wid := w])
      case _ => s.(db := db)
  }

  function CheckStep(cfg: Config, s: State, wid: string, built: bool): State {
    if wid !in s.workers || s.workers[wid].phase != Holding then s
    else if !built || cfg.contentHash(s.workers[wid].cand).None? then Move(s, wid, Broken)
    else Move(s, wid, if Owns(s, wid) then Revalidated else Ended)
  }

  function NewMark(s: State, wid: string): Mark
    requires wid in s.workers
  {
    var w := s.workers[wid];
    Mark(w.aid, w.cand, w.receipt, w.author, w.logLength)
  }

  /** A POST that times out and is about to be sent again, or given up: it stays under way. */
  function SendStep(cfg: Config, s: State, wid: string): State {
    if wid !in s.workers || s.workers[wid].phase != Revalidated || cfg.contentHash(s.workers[wid].cand).None? then s
    else s.(posts := s.posts + multiset{Post(cfg.contentHash(s.workers[wid].cand).value, NewMark(s, wid))})
  }

  /** It lands at last, unless its row is already there. */
  function LandStep(s: State, post: Post): State {
    if post !in s.posts then s
    else
      var s1 := s.(posts := s.posts - multiset{post});
      if post.id in s.store then s1 else s1.(store := s.store[post.id := StoreRow(Some(post.mark), true)])
  }

  function Landed(s: State, wid: string, id: string, phase: Phase): State
    requires wid in s.workers
  {
    Move(s, wid, phase).(store := s.store[id := StoreRow(Some(NewMark(s, wid)), true)])
  }

  function WriteStep(cfg: Config, s: State, wid: string, fate: Fate): State {
    if wid !in s.workers || s.workers[wid].phase != Revalidated || cfg.contentHash(s.workers[wid].cand).None? then s
    else
      var id := cfg.contentHash(s.workers[wid].cand).value;
      if fate == Raises then Move(s, wid, Broken)
      else if id in s.store then Move(s, wid, if fate == Lands then Duplicate else Broken)
      else Landed(s, wid, id, if fate == Lands then Wrote(id) else Broken)
  }

  ghost function FindMarkerStep(s: State, wid: string, readable: bool, giveUp: bool): State {
    if wid !in s.workers || s.workers[wid].phase != Duplicate then s
    else
      var hits := MarkerHits(s, s.workers[wid].aid);
      if !readable || |hits| > 1 then Move(s, wid, Broken)
      else if hits == {} then (if giveUp then Move(s, wid, Broken) else s)
      else (var id :| id in hits; Move(s, wid, Wrote(id)))
  }

  function FailStep(s: State, wid: string): State {
    if wid !in s.workers || s.workers[wid].phase != Broken then s
    else Move(s, wid, Ended).(db := FailTx(s.db, s.workers[wid].aid, wid))
  }

  function RecordStep(s: State, wid: string): State {
    if wid !in s.workers || !s.workers[wid].phase.Wrote? then s
    else
      var w := s.workers[wid];
      var (db, outcome) := RecordTx(s.db, w.aid, wid, w.phase.id, w.event);
      match outcome
      case Here => Move(s, wid, Ended).(db := db, wins := s.wins + multiset{w.aid})
      case Elsewhere(_) => Move(s, wid, Ended).(db := db)
      case Lost => Move(s, wid, Orphaned(w.phase.id)).(db := db)
  }

  function CleanupStep(s: State, wid: string, deleted: bool): State {
    if wid !in s.workers || !s.workers[wid].phase.Orphaned? then s
    else
      var id := s.workers[wid].phase.id;
      if deleted then Move(s, wid, Ended).(store := s.store - {id})
      else Move(s, wid, Ended).(pending := s.pending + {id})
  }

  predicate Sweeping(s: State, pid: nat) {
    pid in s.forgets && s.forgets[pid].open
  }

  function ForgetClaimStep(cfg: Config, s: State, pid: nat, drawer: string, t0: int): State {
    if pid in s.forgets || t0 > s.now then s
    else
      match ForgetClaimTx(cfg, s.db, drawer, t0)
      case None => s
      case Some(done) => s.(db := done.0, forgets := s.forgets[pid := Forget(drawer, done.1, {}, None, true)])
  }

  ghost function SweepFindStep(s: State, pid: nat, aid: nat): State {
    if !Sweeping(s, pid) || s.forgets[pid].found.Some? || aid !in s.forgets[pid].claimed - s.forgets[pid].swept then s
    else
      var f, hits := s.forgets[pid], MarkerHits(s, aid);
      if |hits| > 1 then s.(forgets := s.forgets[pid := f.(open := false)])
      else if hits == {} then s.(forgets := s.forgets[pid := f.(swept := f.swept + {aid})])
      else (var id :| id in hits; s.(forgets := s.forgets[pid := f.(found := Some((aid, id)))]))
  }

  function SweepDeleteStep(s: State, pid: nat): State {
    if !Sweeping(s, pid) || s.forgets[pid].found.None? then s
    else
      var f := s.forgets[pid];
      s.(store := s.store - {f.found.value.1},
         forgets := s.forgets[pid := f.(swept := f.swept + {f.found.value.0}, found := None)])
  }

  /** Every claimed marker has been swept: the purge is next. */
  predicate PurgeReady(s: State, pid: nat) {
    Sweeping(s, pid) && s.forgets[pid].found.None? && s.forgets[pid].claimed <= s.forgets[pid].swept
  }

  function PurgeStep(cfg: Config, s: State, pid: nat): State {
    if !PurgeReady(s, pid) then s
    else s.(db := PurgeTx(cfg, s.db, s.forgets[pid].drawer),
            forgets := s.forgets[pid := s.forgets[pid].(open := false)])
  }

  predicate WorkerStep(step: Step) {
    step.Gate? || step.Check? || step.Send? || step.Write? || step.FindMarker? || step.Fail? || step.Record?
    || step.Cleanup? || step.Crash?
  }

  predicate ForgetStep(step: Step) {
    step.ForgetClaim? || step.SweepFind? || step.SweepDelete? || step.Purge? || step.ForgetAbort?
  }

  ghost function WorkerApply(cfg: Config, s: State, step: Step): State {
    match step
    case Gate(wid, aid, t0, readable) => GateStep(cfg, s, wid, aid, t0, readable)
    case Check(wid, built) => CheckStep(cfg, s, wid, built)
    case Send(wid) => SendStep(cfg, s, wid)
    case Write(wid, fate) => WriteStep(cfg, s, wid, fate)
    case FindMarker(wid, readable, giveUp) => FindMarkerStep(s, wid, readable, giveUp)
    case Fail(wid) => FailStep(s, wid)
    case Record(wid) => RecordStep(s, wid)
    case Cleanup(wid, deleted) => CleanupStep(s, wid, deleted)
    case Crash(wid) => if Running(s, wid) then Move(s, wid, Crashed) else s
    case _ => s
  }

  ghost function ForgetApply(cfg: Config, s: State, step: Step): State {
    match step
    case ForgetClaim(pid, drawer, t0) => ForgetClaimStep(cfg, s, pid, drawer, t0)
    case SweepFind(pid, aid) => SweepFindStep(s, pid, aid)
    case SweepDelete(pid) => SweepDeleteStep(s, pid)
    case Purge(pid) => PurgeStep(cfg, s, pid)
    case ForgetAbort(pid) =>
      if Sweeping(s, pid) then s.(forgets := s.forgets[pid := s.forgets[pid].(open := false)]) else s
    case _ => s
  }

  /** The queue's own transactions, the log, the clock, and the store's other users. */
  function TableApply(cfg: Config, s: State, step: Step): State {
    match step
    case Tick(now) => if now >= s.now then s.(now := now) else s
    case Log(e) => s.(audit := Append(cfg.hasher, s.audit, e))
    case Enqueue(cand, proposer) => EnqueueStep(s, cand, proposer)
    case Approve(aid, via, approver, receipt) => ApproveStep(cfg, s, aid, via, approver, receipt)
    case SetStatus(aid, status) =>
      if status == Rejected || status == Pending then s.(db := SetStatusTx(s.db, aid, status)) else s
    case Defer(aid, until) => s.(db := DeferTx(s.db, aid, until))
    case Resurface(due) => s.(db := ResurfaceTx(s.db, due))
    case Backfill(aid, inspection, crash, ts, principal, tenant) =>
      var (db, audit) := BackfillTx(cfg, s.db, s.audit, aid, inspection, crash, ts, principal, tenant);
      s.(db := db, audit := audit)
    case StoreAdd(id) => if id in s.store then s else s.(store := s.store[id := StoreRow(None, true)])
    case StoreRetire(id) => if id in s.store then s.(store := s.store[id := s.store[id].(active := false)]) else s
    case StoreDelete(id) => s.(store := s.store - {id})
    case Land(post) => LandStep(s, post)
    case HandEdit(db) => s.(db := db)
    case _ => s
  }

  ghost function Apply(cfg: Config, s: State, step: Step): State {
    if WorkerStep(step) then WorkerApply(cfg, s, step)
    else if ForgetStep(step) then ForgetApply(cfg, s, step)
    else TableApply(cfg, s, step)
  }

  ghost function Run(cfg: Config, s: State, steps: seq<Step>): State
    decreases |steps|
  {
    if steps == [] then s else Apply(cfg, Run(cfg, s, steps[..|steps| - 1]), steps[|steps| - 1])
  }

  /** An empty queue and an empty store, beside a log whose chain is intact. */
  ghost predicate Initial(cfg: Config, s: State) {
    && s.db == EMPTY_DB && s.store == map[] && s.posts == multiset{} && s.pending == {} && s.workers == map[]
    && s.forgets == map[]
    && s.cands == map[] && s.wins == multiset{} && Linked(cfg.hasher, s.audit)
  }

  // ---------------------------------------------------------------- what the theorems assume of a run

  /** This finalize call would refuse the row it is called on. */
  ghost predicate Refuses(cfg: Config, s: State, aid: nat, t0: int, readable: bool) {
    Refusing(GateDecision(cfg, s.db, s.audit, readable, aid, t0))
  }

  /** The step whose write lands: it is the only one that puts a mark into the store. */
  predicate WriteLands(cfg: Config, s: State, step: Step) {
    && step.Write? && step.fate != Raises
    && step.wid in s.workers && s.workers[step.wid].phase == Revalidated
    && cfg.contentHash(s.workers[step.wid].cand).Some?
    && cfg.contentHash(s.workers[step.wid].cand).value !in s.store
  }

  /** The step with which a POST that timed out lands after all. */
  predicate LandsLate(s: State, step: Step) {
    step.Land? && step.post in s.posts && step.post.id !in s.store
  }

  /** Worker `wid` stands between writing (or finding) row `id` and recording or removing it. */
  predicate InFlight(s: State, wid: string, aid: nat, id: string) {
    && wid in s.workers && s.workers[wid].aid == aid
    && (s.workers[wid].phase == Wrote(id) || s.workers[wid].phase == Orphaned(id))
  }

  /** Some worker will still record or remove row `id`. */
  ghost predicate Attended(s: State, aid: nat, id: string) {
    exists w :: InFlight(s, w, aid, id)
  }

  /** The approval is there, and no running forget is past deleting row `id` that carries its marker. */
  ghost predicate Unswept(s: State, aid: nat, id: string) {
    && aid in s.db.rows
    && forall p | Sweeping(s, p) && aid in s.forgets[p].claimed ::
         aid !in s.forgets[p].swept || (s.forgets[p].found.Some? && s.forgets[p].found.value.1 == id)
  }

  /** Row `id`, marked for `aid`, is answered for by its approval, a pending cleanup, or a worker other than `wid`. */
  ghost predicate OthersAnswer(s: State, wid: string, aid: nat, id: string) {
    || Unswept(s, aid, id)
    || id in s.pending
    || exists w | w != wid :: InFlight(s, w, aid, id)
  }

  /** Row `id`, marked for `aid`, is answered for: by its approval, a pending cleanup, or a worker in flight. */
  ghost predicate Covered(s: State, aid: nat, id: string) {
    Unswept(s, aid, id) || id in s.pending || Attended(s, aid, id)
  }

  /** The worker holds the id of an active store row that carries its approval's marker. */
  predicate HoldsRow(s: State, wid: string) {
    && wid in s.workers && (s.workers[wid].phase.Wrote? || s.workers[wid].phase.Orphaned?)
    && s.workers[wid].phase.id in s.store && Carries(s.store[s.workers[wid].phase.id], s.workers[wid].aid)
  }

  /** The purge would take this row's approval with it although its forget never claimed it. */
  predicate TakenUnclaimed(cfg: Config, s: State, pid: nat, id: string)
    requires pid in s.forgets
  {
    && id in s.store && s.store[id].active && s.store[id].mark.Some?
    && s.store[id].mark.value.aid in AboutRows(cfg, s.db, s.forgets[pid].drawer) - s.forgets[pid].claimed
  }

  /**
   The discipline under which the protocol is safe, each clause a check on the state before a step:
   - nobody edits the queue by hand;
   - no finalize call is refused on a row that a forget has claimed;
   - a store write that lands but raises, a POST that lands after it timed out, and a worker that
     dies holding a marked row leave a row that something else answers for;
   - a purge takes no unclaimed approval whose marked row only that approval answers for.
   */
  ghost predicate Careful(cfg: Config, s: State, step: Step) {
    match step
    case HandEdit(_) => false
    case Gate(wid, aid, t0, readable) =>
      Refuses(cfg, s, aid, t0, readable) ==> aid in s.db.rows && s.db.rows[aid].fin != RtbfDeleting
    case Write(wid, fate) =>
      fate == RaisesAfterLanding && WriteLands(cfg, s, step) ==>
        OthersAnswer(s, wid, s.workers[wid].aid, cfg.contentHash(s.workers[wid].cand).value)
    case Land(post) => LandsLate(s, step) ==> Covered(s, post.mark.aid, post.id)
    case Crash(wid) => HoldsRow(s, wid) ==> OthersAnswer(s, wid, s.workers[wid].aid, s.workers[wid].phase.id)
    case Purge(pid) =>
      PurgeReady(s, pid) ==>
        forall id | TakenUnclaimed(cfg, s, pid, id) ::
          id in s.pending || Attended(s, s.store[id].mark.value.aid, id)
    case _ => true
  }

  ghost predicate CarefulRun(cfg: Config, s: State, steps: seq<Step>) {
    forall i | 0 <= i < |steps| :: Careful(cfg, Run(cfg, s, steps[..i]), steps[i])
  }
}
