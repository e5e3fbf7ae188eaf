/**
 Each clause of the discipline is needed: one concrete run for each, which breaks that clause in
 one step, keeps it and all the others everywhere else, and ends with an orphaned durable row.
 */
module Necessity {
  import opened Basics
  import opened AuditChain
  import opened Queue
  import opened QueueLaws
  import opened Protocol
  import opened ProtocolFrames
  import opened Invariants
  import opened Orphans

  /** A deployment with one approver, whose only candidate is "x", enqueued under drawer "d". */
  function Cfg(): Config {
    Config({"owner"}, "cli", "t", (p, c) => "h", b => "f", b => Some("c"), b => Some("p"), b => Some("d"), n => Some(n))
  }

  function Decision(): Entry {
    Entry(0, "owner", "t", "approval_decision", OfApproval(1), None,
          map["decision" := "approve", "approved_by" := "owner", "approved_via" := "cli", "candidate_sha256" := "f"])
  }

  function Log1(): seq<Row> {
    [Row(Content(1, Decision(), ZERO_HASH), "h")]
  }

  function Start(): State {
    State(0, EMPTY_DB, Log1(), map[], multiset{}, {}, map[], map[], map[], multiset{})
  }

  /** The one queue row, with its finalizer columns. */
  function TheRow(fin: Finalizer, worker: Option<string>, claimedAt: Option<int>, durable: Option<string>): QRow {
    QRow("x", Approved, None, Some(1), Some("cli"), Some("owner"), Some(1), Some("h"), Some("f"),
         fin, worker, claimedAt, durable, None)
  }

  function TheDb(fin: Finalizer, worker: Option<string>, claimedAt: Option<int>, durable: Option<string>): Db {
    Db(map[1 := TheRow(fin, worker, claimedAt, durable)], map[1 := Event(1, Some("p"), durable)], 2, 2)
  }

  /** A world in which approval 1 has been enqueued, approved and receipted. */
  function TheState(now: int, db: Db, store: map<string, StoreRow>, workers: map<string, Worker>,
                    forgets: map<nat, Forget>, wins: multiset<nat>): State {
    State(now, db, Log1(), store, multiset{}, {}, workers, forgets, map[1 := "x"], wins)
  }

  function TheWorker(claimedAt: int, phase: Phase): Worker {
    Worker(1, "x", 1, claimedAt, 1, None, 1, phase)
  }

  /** The durable row that any worker writes for approval 1. */
  function Durable(): StoreRow {
    StoreRow(Some(Mark(1, "x", 1, None, 1)), true)
  }

  const APPROVE: seq<Step> := [Enqueue("x", None), Approve(1, Some("cli"), Some("owner"), Some(Receipt(1, "h", "f")))]

  function AfterApproval(): State {
    TheState(0, TheDb(Idle, None, None, None), map[], map[], map[], multiset{})
  }

  lemma LogIsLinked()
    ensures Linked(Cfg().hasher, Log1()) && Verdict(Cfg().hasher, Log1(), 1) == Some(Log1()[0])
    ensures Author(Cfg(), Log1(), 1) == None
  {
    assert LinkedAt(Cfg().hasher, Log1(), 0);
    LinkedUpto(Cfg().hasher, Log1(), 1);
  }

  /** The finalizer's gate on the one row: it passes whenever the log can be read. */
  lemma GateOnTheRow(db: Db, readable: bool, t0: int)
    requires exists fin, w, at, d :: db == TheDb(fin, w, at, d)
    ensures var row := db.rows[1];
            GateDecision(Cfg(), db, Log1(), readable, 1, t0) ==
            if row.fin == Finalized then AlreadyFinalized(row.durable)
            else if LiveAt(row, t0) then OwnedByLiveWorker
            else if !readable then RefusedReceipt(ReceiptUnreadable)
            else if !Claimable(row, t0) then NotClaimable
            else Claimed("x", 1, 1)
  {
    LogIsLinked();
  }

  lemma ApprovedWorld()
    ensures Initial(Cfg(), Start())
    ensures Run(Cfg(), Start(), APPROVE) == AfterApproval() && CarefulRun(Cfg(), Start(), APPROVE)
  {
    LogIsLinked();
    FirstSteps();
    NoStepsYet(Start());
    hide Run, CarefulRun, Apply, Careful, AfterApproval;
    assert [APPROVE[0]] + [APPROVE[1]] == APPROVE && [] + [APPROVE[0]] == [APPROVE[0]];
    CarefulOne(Cfg(), Start(), [], APPROVE[0]);
    CarefulOne(Cfg(), Start(), [APPROVE[0]], APPROVE[1]);
  }

  lemma NoStepsYet(s: State)
    ensures Run(Cfg(), s, []) == s && CarefulRun(Cfg(), s, [])
  {
  }

  lemma FirstSteps()
    ensures Apply(Cfg(), Apply(Cfg(), Start(), APPROVE[0]), APPROVE[1]) == AfterApproval()
    ensures forall s :: Careful(Cfg(), s, APPROVE[0]) && Careful(Cfg(), s, APPROVE[1])
  {
  }

  /** Extend a run by one step. */
  lemma Then(t: seq<Step>, s: State, step: Step) returns (t': seq<Step>, s': State)
    requires Run(Cfg(), Start(), t) == s && CarefulRun(Cfg(), Start(), t)
    ensures t' == t + [step] && s' == Apply(Cfg(), s, step) && Run(Cfg(), Start(), t') == s'
    ensures Careful(Cfg(), s, step) ==> CarefulRun(Cfg(), Start(), t')
  {
    t', s' := t + [step], Apply(Cfg(), s, step);
    RunOne(Cfg(), Start(), t, step);
    if Careful(Cfg(), s, step) {
      CarefulOne(Cfg(), Start(), t, step);
    }
  }

  // ---------------------------------------------------------------- single steps in this world

  lemma Claiming(now: int, row: QRow, ws: map<string, Worker>, fs: map<nat, Forget>, wid: string)
    requires row == TheRow(row.fin, row.worker, row.claimedAt, row.durable) && row.fin != Finalized
    requires wid !in ws && wid != RTBF_WORKER && Claimable(row, now) && !LiveAt(row, now)
    ensures var s := TheState(now, TheDb(row.fin, row.worker, row.claimedAt, row.durable), map[], ws, fs, multiset{});
            && Apply(Cfg(), s, Gate(wid, 1, now, true)) ==
               TheState(now, TheDb(Finalizing, Some(wid), Some(now), row.durable), map[],
                     ws[wid := TheWorker(now, Holding)], fs, multiset{})
            && Careful(Cfg(), s, Gate(wid, 1, now, true))
  {
    LogIsLinked();
    GateOnTheRow(TheDb(row.fin, row.worker, row.claimedAt, row.durable), true, now);
    ClaimIsCareful(TheState(now, TheDb(row.fin, row.worker, row.claimedAt, row.durable), map[], ws, fs, multiset{}),
      wid);
    ClaimEffect(row, wid, now);
    hide Author, Careful, Cfg, CheckStep, Claimable, CleanupStep, Decision, FailStep, FindMarkerStep, ForgetApply,
      GateDecision, GateEffect, Linked, LiveAt, RecordStep, SendStep, TableApply, TheDb, Verdict, WriteStep;
  }

  lemma ClaimEffect(row: QRow, wid: string, now: int)
    requires row == TheRow(row.fin, row.worker, row.claimedAt, row.durable)
    ensures GateEffect(TheDb(row.fin, row.worker, row.claimedAt, row.durable), 1, wid, now, Claimed("x", 1, 1))
            == TheDb(Finalizing, Some(wid), Some(now), row.durable)
  {
  }

  lemma ClaimIsCareful(s: State, wid: string)
    ensures GateDecision(Cfg(), s.db, s.audit, true, 1, s.now).Claimed? ==> Careful(Cfg(), s, Gate(wid, 1, s.now, true))
  {
    hide GateDecision, Cfg;
  }

  lemma Checking(s: State, wid: string)
    requires wid in s.workers && s.workers[wid] == TheWorker(s.workers[wid].claimedAt, Holding)
    requires StillOwns(s.db, 1, wid)
    ensures Apply(Cfg(), s, Check(wid, true)) ==
            s.(workers := s.workers[wid := TheWorker(s.workers[wid].claimedAt, Revalidated)])
  {
  }

  lemma Writing(s: State, wid: string)
    requires wid in s.workers && s.workers[wid] == TheWorker(s.workers[wid].claimedAt, Revalidated)
    requires s.store == map[]
    ensures Apply(Cfg(), s, Write(wid, Lands)) ==
            s.(workers := s.workers[wid := TheWorker(s.workers[wid].claimedAt, Wrote("c"))],
              store := map["c" := Durable()])
    ensures Apply(Cfg(), s, Write(wid, RaisesAfterLanding)) ==
            s.(workers := s.workers[wid := TheWorker(s.workers[wid].claimedAt, Broken)], store := map["c" := Durable()])
  {
  }

  lemma Recording(s: State, wid: string, fin: Finalizer, worker: string, at: Option<int>)
    requires wid in s.workers && s.workers[wid] == TheWorker(s.workers[wid].claimedAt, Wrote("c"))
    requires s.db == TheDb(fin, Some(worker), at, None) && fin != RtbfDeleting && fin != Finalized
    ensures Apply(Cfg(), s, Record(wid)) ==
            s.(workers := s.workers[wid := s.workers[wid].(phase := Ended)],
              db := TheDb(Finalized, Some(wid), at, Some("c")),
               wins := s.wins + multiset{1})
  {
  }

  lemma AboutTheRow(drawer: string, fin: Finalizer, worker: Option<string>, at: Option<int>, durable: Option<string>)
    requires drawer == "d" || durable == Some(drawer)
    ensures var db := TheDb(fin, worker, at, durable);
            && AboutRows(Cfg(), db, drawer) == {1} && AboutEvents(Cfg(), db, drawer) == {1}
            && db.rows - {1} == map[] && db.events - {1} == map[]
  {
  }

  /** A forget of drawer "d" holds the row. */
  lemma Forgetting(s: State, fin: Finalizer, worker: Option<string>, at: Option<int>, durable: Option<string>)
    requires s.db == TheDb(fin, worker, at, durable) && s.forgets == map[]
    requires fin == Finalizing ==> at.Some? && at.value < s.now - STALE_TTL
    ensures Apply(Cfg(), s, ForgetClaim(1, "d", s.now)) ==
            s.(db := TheDb(RtbfDeleting, Some(RTBF_WORKER), at, durable),
              forgets := map[1 := Forget("d", {1}, {}, None, true)])
  {
    AboutTheRow("d", fin, worker, at, durable);
    hide AboutEvents, AboutRows, Cfg, PurgeStep, SweepDeleteStep, SweepFindStep, Sweeping, TableApply, WorkerApply;
  }

  lemma SweepingNothing(s: State)
    requires s.forgets == map[1 := Forget("d", {1}, {}, None, true)] && s.store == map[]
    ensures Apply(Cfg(), s, SweepFind(1, 1)) == s.(forgets := map[1 := Forget("d", {1}, {1}, None, true)])
  {
  }

  lemma OneHit(s: State)
    requires s.store == map["c" := Durable()]
    ensures MarkerHits(s, 1) == {"c"} && |MarkerHits(s, 1)| == 1
  {
  }

  lemma FindingTheRow(s: State)
    requires s.forgets == map[1 := Forget("d", {1}, {}, None, true)] && s.store == map["c" := Durable()]
    ensures Apply(Cfg(), s, SweepFind(1, 1)) == s.(forgets := map[1 := Forget("d", {1}, {}, Some((1, "c")), true)])
  {
    OneHit(s);
    hide Cfg, ForgetClaimStep, MarkerHits, PurgeStep, SweepDeleteStep, TableApply, Durable, WorkerApply;
  }

  lemma DeletingTheRow(s: State)
    requires s.store == map["c" := Durable()]
    requires s.forgets == map[1 := Forget("d", {1}, {}, Some((1, "c")), true)]
    ensures Apply(Cfg(), s, SweepDelete(1)) ==
            s.(store := map[], forgets := map[1 := Forget("d", {1}, {1}, None, true)])
  {
    hide Cfg, ForgetClaimStep, PurgeStep, SweepFindStep, TableApply, Durable, WorkerApply;
    var f := Forget("d", {1}, {1}, None, true);
    assert s.store - {"c"} == map[] && s.forgets[1 := f] == map[1 := f] && {} + {1} == {1};
  }

  lemma Purging(s: State, drawer: string, claimed: set<nat>, fin: Finalizer, worker: Option<string>, at: Option<int>,
                durable: Option<string>)
    requires s.db == TheDb(fin, worker, at, durable)
    requires s.forgets == map[1 := Forget(drawer, claimed, claimed, None, true)]
    requires drawer == "d" || durable == Some(drawer)
    ensures Apply(Cfg(), s, Purge(1)) ==
            s.(db := Db(map[], map[], 2, 2), forgets := map[1 := Forget(drawer, claimed, claimed, None, false)])
    ensures claimed == {1} ==> Careful(Cfg(), s, Purge(1))
  {
    AboutTheRow(drawer, fin, worker, at, durable);
    hide AboutEvents, AboutRows, Cfg, ForgetClaimStep, Owns, Refuses, Running, SweepDeleteStep, SweepFindStep,
      TableApply, TheRow, WorkerApply;
  }

  lemma IsOrphan(s: State)
    requires s.store == map["c" := Durable()] && s.db.rows == map[] && s.pending == {}
    requires forall w | w in s.workers :: !s.workers[w].phase.Wrote? && !s.workers[w].phase.Orphaned?
    ensures !NoOrphan(s)
  {
    assert "c" in s.store;
  }

  // ---------------------------------------------------------------- a write inside the lease is not enough

  /**
   Worker "w1" stalls past its lease; "w2" takes the claim over and checks it; "w1" then writes
   and force-records. A forget may now claim the finalized row at once, sweep and purge it, all
   inside the lease of "w2", whose write lands next: still inside its lease, no longer owning
   anything. If "w2" crashes there, its row is an orphan.
   */
  lemma LeaseIsNotEnough() returns (t: seq<Step>, s: State)
    ensures Initial(Cfg(), Start()) && CarefulRun(Cfg(), Start(), t) && s == Run(Cfg(), Start(), t)
    ensures "w2" in s.workers && s.workers["w2"].phase == Wrote("c")
    ensures s.now <= s.workers["w2"].claimedAt + STALE_TTL
    ensures NoOrphan(s) && !NoOrphan(Apply(Cfg(), s, Crash("w2")))
  {
    ApprovedWorld();
    t, s := TakenOver();
    t, s := LeaseRunsOn(t, s);
  }

  lemma Ticking(s: State, now: int)
    requires now >= s.now
    ensures Apply(Cfg(), s, Tick(now)) == s.(now := now)
  {
  }

  lemma TakenOver() returns (t: seq<Step>, s: State)
    ensures CarefulRun(Cfg(), Start(), t) && s == Run(Cfg(), Start(), t)
    ensures s == TheState(301, TheDb(Finalizing, Some("w2"), Some(301), None), map[],
                       map["w1" := TheWorker(0, Revalidated), "w2" := TheWorker(301, Revalidated)],
                       map[], multiset{})
  {
    hide Run, CarefulRun, Apply;
    t, s := Stalled();
    Claiming(301, TheRow(Finalizing, Some("w1"), Some(0), None), s.workers, map[], "w2");
    t, s := Then(t, s, Gate("w2", 1, 301, true));
    Checking(s, "w2");
    t, s := Then(t, s, Check("w2", true));
  }

  lemma LeaseRunsOn(t0: seq<Step>, s0: State) returns (t: seq<Step>, s: State)
    requires CarefulRun(Cfg(), Start(), t0) && s0 == Run(Cfg(), Start(), t0)
    requires s0 == TheState(301, TheDb(Finalizing, Some("w2"), Some(301), None), map[],
                         map["w1" := TheWorker(0, Revalidated), "w2" := TheWorker(301, Revalidated)],
                         map[], multiset{})
    ensures CarefulRun(Cfg(), Start(), t) && s == Run(Cfg(), Start(), t)
    ensures "w2" in s.workers && s.workers["w2"].phase == Wrote("c")
    ensures s.now <= s.workers["w2"].claimedAt + STALE_TTL
    ensures NoOrphan(s) && !NoOrphan(Apply(Cfg(), s, Crash("w2")))
  {
    hide AboutRows, Apply, CarefulRun, Cfg, Log1, NoOrphan, Owns, Refuses, Run, Running, Start;
    t, s := t0, s0;
    Writing(s, "w1");
    t, s := Then(t, s, Write("w1", Lands));
    Recording(s, "w1", Finalizing, "w2", Some(301));
    t, s := Then(t, s, Record("w1"));
    Forgetting(s, Finalized, Some("w1"), Some(301), Some("c"));
    t, s := Then(t, s, ForgetClaim(1, "d", 301));
    FindingTheRow(s);
    t, s := Then(t, s, SweepFind(1, 1));
    DeletingTheRow(s);
    t, s := Then(t, s, SweepDelete(1));
    Purging(s, "d", {1}, RtbfDeleting, Some(RTBF_WORKER), Some(301), Some("c"));
    t, s := Then(t, s, Purge(1));
    Writing(s, "w2");
    t, s := Then(t, s, Write("w2", Lands));
    OrphanedByCrash(s);
  }

  lemma OrphanedByCrash(s: State)
    requires s.store == map["c" := Durable()] && s.db.rows == map[] && s.pending == {}
    requires s.workers.Keys == {"w1", "w2"} && s.workers["w2"] == TheWorker(301, Wrote("c"))
    requires s.workers["w1"].phase == Ended
    ensures NoOrphan(s) && !NoOrphan(Apply(Cfg(), s, Crash("w2")))
  {
    assert InFlight(s, "w2", 1, "c");
    IsOrphan(Apply(Cfg(), s, Crash("w2")));
  }

  // ---------------------------------------------------------------- a write that lands but raises

  /**
   No worker crashes. Worker "w1" stalls past its lease between its check and its write; a forget
   claims, sweeps and purges the approval; then the write lands but raises. The worker takes it for
   a failure, marks a row failed that is no longer there, and never looks at the store again.
   */
  lemma LandingErrorStrands() returns (t: seq<Step>, s: State)
    ensures Initial(Cfg(), Start()) && CarefulRun(Cfg(), Start(), t) && s == Run(Cfg(), Start(), t)
    ensures NoOrphan(s) && !NoOrphan(Apply(Cfg(), s, Write("w1", RaisesAfterLanding)))
  {
    ApprovedWorld();
    hide Run, CarefulRun, Apply, NoOrphan;
    t, s := Stalled();
    Forgetting(s, Finalizing, Some("w1"), Some(0), None);
    t, s := Then(t, s, ForgetClaim(1, "d", 301));
    SweepingNothing(s);
    t, s := Then(t, s, SweepFind(1, 1));
    Purging(s, "d", {1}, RtbfDeleting, Some(RTBF_WORKER), Some(0), None);
    t, s := Then(t, s, Purge(1));
    EmptyStoreIsClean(s);
    Writing(s, "w1");
    IsOrphan(Apply(Cfg(), s, Write("w1", RaisesAfterLanding)));
  }

  lemma EmptyStoreIsClean(s: State)
    requires s.store == map[]
    ensures NoOrphan(s)
  {
  }

  lemma Stalled() returns (t: seq<Step>, s: State)
    ensures CarefulRun(Cfg(), Start(), t) && s == Run(Cfg(), Start(), t)
    ensures s == TheState(301, TheDb(Finalizing, Some("w1"), Some(0), None), map[],
                       map["w1" := TheWorker(0, Revalidated)], map[], multiset{})
  {
    ApprovedWorld();
    hide Run, CarefulRun, Apply;
    t, s := APPROVE, AfterApproval();
    Claiming(0, TheRow(Idle, None, None, None), map[], map[], "w1");
    t, s := Then(t, s, Gate("w1", 1, 0, true));
    Checking(s, "w1");
    t, s := Then(t, s, Check("w1", true));
    Ticking(s, 301);
    t, s := Then(t, s, Tick(301));
  }

  // ---------------------------------------------------------------- a POST that lands after it timed out

  const LATE: Post := Post("c", Mark(1, "x", 1, None, 1))

  /**
   Nobody crashes and nobody stalls. The POST of worker "w1" times out; the worker fails in good order
   and says so; a forget claims, sweeps and purges the approval; then the POST lands after all.
   */
  lemma LateLandingStrands() returns (t: seq<Step>, s: State)
    ensures Initial(Cfg(), Start()) && CarefulRun(Cfg(), Start(), t) && s == Run(Cfg(), Start(), t)
    ensures forall wid | wid in s.workers :: s.workers[wid].phase == Ended
    ensures NoOrphan(s) && !NoOrphan(Apply(Cfg(), s, Land(LATE)))
  {
    ApprovedWorld();
    hide Run, CarefulRun, Apply, NoOrphan;
    t, s := FailedInGoodOrder();
    Forgetting(s, Failed, Some("w1"), Some(0), None);
    t, s := Then(t, s, ForgetClaim(1, "d", 0));
    SweepingNothing(s);
    t, s := Then(t, s, SweepFind(1, 1));
    Purging(s, "d", {1}, RtbfDeleting, Some(RTBF_WORKER), Some(0), None);
    t, s := Then(t, s, Purge(1));
    EmptyStoreIsClean(s);
    Landing(s);
    IsOrphan(Apply(Cfg(), s, Land(LATE)));
  }

  lemma FailedInGoodOrder() returns (t: seq<Step>, s: State)
    ensures CarefulRun(Cfg(), Start(), t) && s == Run(Cfg(), Start(), t)
    ensures s == TheState(0, TheDb(Failed, Some("w1"), Some(0), None), map[], map["w1" := TheWorker(0, Ended)],
                       map[], multiset{}).(posts := multiset{LATE})
  {
    ApprovedWorld();
    hide Run, CarefulRun, Apply;
    t, s := APPROVE, AfterApproval();
    Claiming(0, TheRow(Idle, None, None, None), map[], map[], "w1");
    t, s := Then(t, s, Gate("w1", 1, 0, true));
    Checking(s, "w1");
    t, s := Then(t, s, Check("w1", true));
    TimingOut(s, "w1");
    t, s := Then(t, s, Send("w1"));
    GivingUp(s, "w1");
    t, s := Then(t, s, Write("w1", Raises));
    Failing(s, "w1");
    t, s := Then(t, s, Fail("w1"));
  }

  lemma TimingOut(s: State, wid: string)
    requires wid in s.workers && s.workers[wid] == TheWorker(s.workers[wid].claimedAt, Revalidated)
    requires s.posts == multiset{}
    ensures Apply(Cfg(), s, Send(wid)) == s.(posts := multiset{LATE})
  {
    assert s.posts + multiset{LATE} == multiset{LATE};
  }

  lemma GivingUp(s: State, wid: string)
    requires wid in s.workers && s.workers[wid] == TheWorker(s.workers[wid].claimedAt, Revalidated)
    ensures Apply(Cfg(), s, Write(wid, Raises)) ==
            s.(workers := s.workers[wid := TheWorker(s.workers[wid].claimedAt, Broken)])
  {
  }

  lemma Failing(s: State, wid: string)
    requires wid in s.workers && s.workers[wid] == TheWorker(s.workers[wid].claimedAt, Broken)
    requires s.db == TheDb(Finalizing, Some(wid), Some(0), None)
    ensures Apply(Cfg(), s, Step.Fail(wid)) ==
            s.(workers := s.workers[wid := TheWorker(s.workers[wid].claimedAt, Ended)],
               db := TheDb(Failed, Some(wid), Some(0), None))
  {
  }

  lemma Landing(s: State)
    requires LATE in s.posts && s.store == map[]
    ensures Apply(Cfg(), s, Land(LATE)) == s.(store := map["c" := Durable()], posts := s.posts - multiset{LATE})
  {
  }

  // ---------------------------------------------------------------- a hand edit

  /** A finalized approval whose row somebody deletes by hand leaves its durable row behind. */
  lemma HandEditStrands() returns (t: seq<Step>, s: State)
    ensures Initial(Cfg(), Start()) && CarefulRun(Cfg(), Start(), t) && s == Run(Cfg(), Start(), t)
    ensures NoOrphan(s) && !NoOrphan(Apply(Cfg(), s, HandEdit(EMPTY_DB)))
  {
    ApprovedWorld();
    hide Run, CarefulRun, Apply, NoOrphan;
    t, s := APPROVE, AfterApproval();
    Claiming(0, TheRow(Idle, None, None, None), map[], map[], "w1");
    t, s := Then(t, s, Gate("w1", 1, 0, true));
    Checking(s, "w1");
    t, s := Then(t, s, Check("w1", true));
    Writing(s, "w1");
    t, s := Then(t, s, Write("w1", Lands));
    Recording(s, "w1", Finalizing, "w1", Some(0));
    t, s := Then(t, s, Record("w1"));
    MappedIsClean(s);
    Editing(s, EMPTY_DB);
    IsOrphan(Apply(Cfg(), s, HandEdit(EMPTY_DB)));
  }

  lemma MappedIsClean(s: State)
    requires s.store == map["c" := Durable()] && 1 in s.db.rows
    ensures NoOrphan(s)
  {
  }

  lemma Editing(s: State, db: Db)
    ensures Apply(Cfg(), s, HandEdit(db)) == s.(db := db)
  {
  }

  // ---------------------------------------------------------------- a refusal that overwrites a forget

  /**
   No worker crashes. While a forget holds the row and has swept its marker, a finalize call
   that cannot read the audit log marks the row failed; another worker then claims, writes and
   records it, and the purge leaves its store row behind.
   */
  lemma RefusalRevivesForgottenRow() returns (t: seq<Step>, s: State, refused: Step, more: seq<Step>)
    ensures Initial(Cfg(), Start()) && CarefulRun(Cfg(), Start(), t) && s == Run(Cfg(), Start(), t)
    ensures 1 in s.db.rows && s.db.rows[1].fin == RtbfDeleting && refused == Gate("w1", 1, 0, false)
    ensures forall i | 0 <= i < |more| :: !more[i].Crash? && !(more[i].Write? && more[i].fate != Lands)
    ensures !NoOrphan(Run(Cfg(), Start(), t + [refused] + more))
  {
    ApprovedWorld();
    hide Apply, Careful, CarefulRun, Initial, Log1, NoOrphan, AfterApproval, Run, Start;
    t, s := Held();
    refused := Gate("w1", 1, 0, false);
    RefusingTheHeldRow(s);
    RunOne(Cfg(), Start(), t, refused);
    var s1 := Apply(Cfg(), s, refused);
    more := [Gate("w2", 1, 0, true), Check("w2", true), Write("w2", Lands), Record("w2"), Purge(1)];
    Revived(t + [refused], s1, more);
  }

  lemma Held() returns (t: seq<Step>, s: State)
    ensures CarefulRun(Cfg(), Start(), t) && s == Run(Cfg(), Start(), t)
    ensures s == TheState(0, TheDb(RtbfDeleting, Some(RTBF_WORKER), None, None), map[], map[],
                       map[1 := Forget("d", {1}, {1}, None, true)], multiset{})
  {
    ApprovedWorld();
    hide Run, CarefulRun, Apply;
    t, s := APPROVE, AfterApproval();
    Forgetting(s, Idle, None, None, None);
    t, s := Then(t, s, ForgetClaim(1, "d", 0));
    SweepingNothing(s);
    t, s := Then(t, s, SweepFind(1, 1));
  }

  lemma RefusingTheHeldRow(s: State)
    requires s == TheState(0, TheDb(RtbfDeleting, Some(RTBF_WORKER), None, None), map[], map[],
                        map[1 := Forget("d", {1}, {1}, None, true)], multiset{})
    ensures Apply(Cfg(), s, Gate("w1", 1, 0, false)) ==
            TheState(0, TheDb(Failed, Some(RTBF_WORKER), None, None), map[], map[], s.forgets, multiset{})
  {
    GateOnTheRow(s.db, false, 0);
    hide GateDecision;
  }

  lemma Revived(t: seq<Step>, s: State, more: seq<Step>)
    requires s == Run(Cfg(), Start(), t)
    requires s == TheState(0, TheDb(Failed, Some(RTBF_WORKER), None, None), map[], map[],
                        map[1 := Forget("d", {1}, {1}, None, true)], multiset{})
    requires more == [Gate("w2", 1, 0, true), Check("w2", true), Write("w2", Lands), Record("w2"), Purge(1)]
    ensures !NoOrphan(Run(Cfg(), Start(), t + more))
  {
    RunFive(t, more);
    hide Run, CarefulRun, Apply, NoOrphan, Careful;
    var s3 := RevivedWrites(s);
    Recording(s3, "w2", Finalizing, "w2", Some(0));
    var s4 := Apply(Cfg(), s3, Record("w2"));
    Purging(s4, "d", {1}, Finalized, Some("w2"), Some(0), Some("c"));
    IsOrphan(Apply(Cfg(), s4, Purge(1)));
  }

  lemma RevivedWrites(s: State) returns (s3: State)
    requires s == TheState(0, TheDb(Failed, Some(RTBF_WORKER), None, None), map[], map[],
                        map[1 := Forget("d", {1}, {1}, None, true)], multiset{})
    ensures s3 == Apply(Cfg(), Apply(Cfg(), Apply(Cfg(), s, Gate("w2", 1, 0, true)), Check("w2", true)),
            Write("w2", Lands))
    ensures s3 == TheState(0, TheDb(Finalizing, Some("w2"), Some(0), None), map["c" := Durable()],
                        map["w2" := TheWorker(0, Wrote("c"))], s.forgets, multiset{})
  {
    Claiming(0, TheRow(Failed, Some(RTBF_WORKER), None, None), map[], s.forgets, "w2");
    hide Apply, Careful;
    var s1 := Apply(Cfg(), s, Gate("w2", 1, 0, true));
    Checking(s1, "w2");
    var s2 := Apply(Cfg(), s1, Check("w2", true));
    Writing(s2, "w2");
    s3 := Apply(Cfg(), s2, Write("w2", Lands));
  }

  lemma RunFive(t: seq<Step>, more: seq<Step>)
    requires |more| == 5
    ensures Run(Cfg(), Start(), t + more) ==
            Apply(Cfg(), Apply(Cfg(), Apply(Cfg(), Apply(Cfg(), Apply(Cfg(), Run(Cfg(), Start(), t), more[0]), more[1]),
                                                   more[2]), more[3]), more[4])
  {
    hide Apply, CarefulRun, Careful;
    assert t + more == t + [more[0]] + [more[1]] + [more[2]] + [more[3]] + [more[4]];
    RunOne(Cfg(), Start(), t, more[0]);
    RunOne(Cfg(), Start(), t + [more[0]], more[1]);
    RunOne(Cfg(), Start(), t + [more[0]] + [more[1]], more[2]);
    RunOne(Cfg(), Start(), t + [more[0]] + [more[1]] + [more[2]], more[3]);
    RunOne(Cfg(), Start(), t + [more[0]] + [more[1]] + [more[2]] + [more[3]], more[4]);
  }

  // ---------------------------------------------------------------- a purge that removes what it did not claim

  /**
   No worker crashes and nothing is enqueued. A forget by store id "c" claims nothing, because no
   event carries that id yet; the worker then writes and records it, so the purge's own scan finds
   the row and removes it although no sweep ever looked for its marker.
   */
  lemma PurgeRescansTooMuch() returns (t: seq<Step>, s: State)
    ensures Initial(Cfg(), Start()) && CarefulRun(Cfg(), Start(), t) && s == Run(Cfg(), Start(), t)
    ensures 1 in s.forgets && s.forgets[1].claimed == {} && 1 in s.db.rows && s.db.rows[1].fin == Finalized
    ensures !NoOrphan(Apply(Cfg(), s, Purge(1)))
  {
    ApprovedWorld();
    hide Run, CarefulRun, Apply, NoOrphan;
    t, s := WrittenUnclaimed();
    Recording(s, "w1", Finalizing, "w1", Some(0));
    t, s := Then(t, s, Record("w1"));
    Purging(s, "c", {}, Finalized, Some("w1"), Some(0), Some("c"));
    IsOrphan(Apply(Cfg(), s, Purge(1)));
  }

  lemma WrittenUnclaimed() returns (t: seq<Step>, s: State)
    ensures CarefulRun(Cfg(), Start(), t) && s == Run(Cfg(), Start(), t)
    ensures s == TheState(0, TheDb(Finalizing, Some("w1"), Some(0), None), map["c" := Durable()],
                       map["w1" := TheWorker(0, Wrote("c"))], map[1 := Forget("c", {}, {}, None, true)], multiset{})
  {
    ApprovedWorld();
    hide Run, CarefulRun, Apply;
    t, s := APPROVE, AfterApproval();
    ForgettingById(s);
    t, s := Then(t, s, ForgetClaim(1, "c", 0));
    Claiming(0, TheRow(Idle, None, None, None), map[], s.forgets, "w1");
    t, s := Then(t, s, Gate("w1", 1, 0, true));
    Checking(s, "w1");
    t, s := Then(t, s, Check("w1", true));
    Writing(s, "w1");
    t, s := Then(t, s, Write("w1", Lands));
  }

  lemma ForgettingById(s: State)
    requires s == AfterApproval()
    ensures Apply(Cfg(), s, ForgetClaim(1, "c", 0)) == s.(forgets := map[1 := Forget("c", {}, {}, None, true)])
  {
    assert AboutRows(Cfg(), s.db, "c") == {};
    assert ClaimRows(s.db, {}).rows == s.db.rows;
    hide AboutRows, AboutEvents;
  }
}
