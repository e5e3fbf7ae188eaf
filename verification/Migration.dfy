/**
 The audit-receipt migration (panella/client_raw.py): one pass attests every approved row the
 finalizer could act on that lacks a receipt. Others may move between any two of its rows, and the
 pass may die between an append and its stamp.
 */
module Migration {
  import opened Basics
  import opened AuditChain
  import opened Queue
  import opened QueueLaws
  import opened Outbox
  import opened Protocol
  import opened ProtocolFrames
  import opened Invariants
  import opened Execution

  /** Who runs the pass, and what the store answers about a half-finalized approval. */
  datatype Job = Job(ts: int, principal: string, tenant: string, inspect: nat -> Inspection)

  /** `remaining` > 0 means that serving must be refused. */
  datatype Outcome = Outcome(eligible: nat, backfilled: nat, remaining: nat)

  // ---------------------------------------------------------------- specification

  function Unreceipted(db: Db): set<nat> {
    set a | a in db.rows && NeedsReceipt(db.rows[a])
  }

  /** The rows this job can decide: those the store cannot be asked about are skipped. */
  predicate Decidable(db: Db, job: Job, a: nat) {
    a in db.rows && BackfillReady(db.rows[a], job.inspect(a))
  }

  /** The tables and the log after the pass over `ids`, and whether the pass got to its end. */
  function Pass(cfg: Config, db: Db, audit: seq<Row>, job: Job, ids: seq<nat>, crashAt: Option<nat>)
    : (Db, seq<Row>, bool)
    decreases |ids|
  {
    if ids == [] then (db, audit, true)
    else
      var a := ids[0];
      var dies := crashAt == Some(a) && Decidable(db, job, a);
      var (db1, audit1) := BackfillTx(cfg, db, audit, a, job.inspect(a), dies, job.ts, job.principal, job.tenant);
      if dies then (db1, audit1, false) else Pass(cfg, db1, audit1, job, ids[1..], crashAt)
  }

  ghost predicate SameTables(db: Db, db': Db) {
    && db'.rows.Keys == db.rows.Keys && db'.events == db.events && db'.nextRow == db.nextRow
    && db'.nextEvent == db.nextEvent
  }

  /** The row carries a receipt the log backs: the stamped row of the log attests these very bytes. */
  ghost predicate Attested(cfg: Config, job: Job, a: nat, row: QRow, row': QRow, audit: seq<Row>) {
    && NeedsReceipt(row) && row'.rnum.Some? && 1 <= row'.rnum.value <= |audit|
    && var n := row'.rnum.value;
       && audit[n - 1].content.entry == BackfillEntry(cfg, a, row, job.inspect(a), job.ts, job.principal, job.tenant)
       && row' == Stamp(row, n, audit[n - 1].hash, cfg.fingerprint(row.cand))
  }

  // ---------------------------------------------------------------- the pass

  lemma PassStep(cfg: Config, db: Db, audit: seq<Row>, job: Job, ids: seq<nat>, crashAt: Option<nat>)
    requires ids != []
    ensures var a := ids[0];
            var dies := crashAt == Some(a) && Decidable(db, job, a);
            var (db1, audit1) := BackfillTx(cfg, db, audit, a, job.inspect(a), dies, job.ts, job.principal, job.tenant);
            && Pass(cfg, db, audit, job, ids, crashAt)
               == (if dies then (db1, audit1, false) else Pass(cfg, db1, audit1, job, ids[1..], crashAt))
            && |Unreceipted(db1)| == |Unreceipted(db)| - (if Decidable(db, job, a) && !dies then 1 else 0)
  {
    var a := ids[0];
    var dies := crashAt == Some(a) && Decidable(db, job, a);
    var db1 := BackfillTx(cfg, db, audit, a, job.inspect(a), dies, job.ts, job.principal, job.tenant).0;
    if Decidable(db, job, a) && !dies {
      assert Unreceipted(db1) == Unreceipted(db) - {a};
    } else {
      assert db1 == db;
    }
  }

  method SelectUnreceipted(outbox: OutboxDb) returns (ids: seq<nat>)
    requires outbox.Valid()
    ensures forall a: nat :: a in ids <==> a in Unreceipted(outbox.Db())
    ensures |ids| == |Unreceipted(outbox.Db())| && (set a | a in ids) == Unreceipted(outbox.Db())
    ensures forall i, j | 0 <= i < j < |ids| :: ids[i] < ids[j]
  {
    ids := [];
    IdsAreBelowNext(outbox.Db());
    hide Sound, NeedsReceipt;
    for a := 0 to outbox.nextRow
      invariant forall x: nat :: x in ids <==> x < a && x in outbox.rows && NeedsReceipt(outbox.rows[x])
      invariant forall k | 0 <= k < |ids| :: ids[k] < a
      invariant forall i, j | 0 <= i < j < |ids| :: ids[i] < ids[j]
    {
      if a in outbox.rows && NeedsReceipt(outbox.rows[a]) {
        ids := ids + [a];
      }
    }
    ListedOnce(ids, Unreceipted(outbox.Db()));
  }

  /** What the pass does to one row, as a step of the protocol. */
  function Attempt(job: Job, a: nat, dies: bool): Step {
    Step.Backfill(a, job.inspect(a), dies, job.ts, job.principal, job.tenant)
  }

  /** The run up to the n-th row: before each row, whatever others do. */
  function Steps(job: Job, ids: seq<nat>, others: int -> seq<Step>, n: nat): seq<Step>
    requires n <= |ids|
  {
    if n == 0 then [] else Steps(job, ids, others, n - 1) + others(n - 1) + [Attempt(job, ids[n - 1], false)]
  }

  /** How many of the first n rows could be decided when their turn came. */
  ghost function Decided(cfg: Config, base: State, job: Job, ids: seq<nat>, others: int -> seq<Step>, n: nat): nat
    requires n <= |ids|
  {
    if n == 0 then 0
    else Decided(cfg, base, job, ids, others, n - 1)
         + if Decidable(Run(cfg, base, Steps(job, ids, others, n - 1) + others(n - 1)).db, job, ids[n - 1])
           then 1 else 0
  }

  lemma AttemptTells(cfg: Config, s: State, job: Job, a: nat, dies: bool)
    ensures var (db, audit) := BackfillTx(cfg, s.db, s.audit, a, job.inspect(a), dies, job.ts, job.principal,
            job.tenant);
            Apply(cfg, s, Attempt(job, a, dies)) == s.(db := db, audit := audit)
  {
  }

  /** One row, after whatever others do: dead, or alive and stamped or not. */
  method MigrateOne(world: World, job: Job, a: nat, wait: seq<Step>, crashAt: Option<nat>, ghost base: State,
                    ghost trace: seq<Step>)
    returns (stamped: Option<bool>, ghost longer: seq<Step>)
    requires world.Ready() && world.S() == Run(world.outbox.cfg, base, trace)
    requires forall k | 0 <= k < |wait| :: !wait[k].HandEdit?
    modifies world, world.outbox, world.log
    ensures world.Ready() && world.S() == Run(world.outbox.cfg, base, longer)
    ensures longer == trace + wait + [Attempt(job, a, stamped.None?)]
    ensures var decidable := Decidable(Run(world.outbox.cfg, base, trace + wait).db, job, a);
            && (stamped.None? <==> crashAt == Some(a) && decidable)
            && (stamped.Some? ==> stamped.value == decidable)
    ensures wait == [] ==>
              var s := old(world.S());
              var dies := crashAt == Some(a) && Decidable(s.db, job, a);
              (world.S().db, world.S().audit)
              == BackfillTx(world.outbox.cfg, s.db, s.audit, a, job.inspect(a), dies, job.ts, job.principal, job.tenant)
  {
    hide ActsAsForget, ActsAsWorker, Apply, BackfillReady, BackfillTx, Run, Sound;
    longer := world.Interleave(wait, base, trace);
    var inspection := job.inspect(a);
    var dies := crashAt == Some(a) && a in world.outbox.rows && BackfillReady(world.outbox.rows[a], inspection);
    ghost var s := world.S();
    AttemptTells(world.outbox.cfg, s, job, a, dies);
    RunOne(world.outbox.cfg, base, longer, Attempt(job, a, dies));
    var done := world.outbox.BackfillOne(world.log, a, inspection, dies, job.ts, job.principal, job.tenant);
    longer := longer + [Attempt(job, a, dies)];
    stamped := if dies then None else Some(done);
  }

  /**
   `migrate_audit_receipts`, a run of the protocol: the rows without a receipt when it begins, one by
   one, others in between. It counts the rows it could decide, and counts again what is left at the
   end. With nobody else about it is exactly `Pass`. None: the process died between an append and
   its stamp.
   */
  method MigrateAuditReceipts(world: World, job: Job, others: int -> seq<Step>, crashAt: Option<nat>)
    returns (outcome: Option<Outcome>, ghost ids: seq<nat>, ghost trace: seq<Step>)
    requires world.Ready() && forall i :: forall k | 0 <= k < |others(i)| :: !others(i)[k].HandEdit?
    modifies world, world.outbox, world.log
    ensures world.Ready() && world.S() == Run(world.outbox.cfg, old(world.S()), trace)
    ensures (set a | a in ids) == Unreceipted(old(world.S()).db) && forall i, j | 0 <= i < j < |ids| :: ids[i] < ids[j]
    ensures outcome.Some? ==>
              && trace == Steps(job, ids, others, |ids|) + others(|ids|)
              && outcome.value.eligible == |Unreceipted(old(world.S()).db)|
              && outcome.value.remaining == |Unreceipted(world.S().db)|
              && outcome.value.backfilled == Decided(world.outbox.cfg, old(world.S()), job, ids, others, |ids|)
    ensures outcome.None? ==>
              exists n | 0 <= n < |ids| ::
                && crashAt == Some(ids[n])
                && trace == Steps(job, ids, others, n) + others(n) + [Attempt(job, ids[n], true)]
    ensures Alone(others) ==>
              && (world.S().db, world.S().audit, outcome.Some?)
                 == Pass(world.outbox.cfg, old(world.S()).db, old(world.S()).audit, job, ids, crashAt)
              && (outcome.Some? ==> outcome.value.backfilled == outcome.value.eligible - outcome.value.remaining)
    ensures outcome.Some? && outcome.value.remaining == 0 ==>
              forall a, t0 | RefusedUnreceipted(world.outbox.cfg, world.S().db, world.S().audit, a, t0) ::
                a in world.outbox.rows && (world.outbox.rows[a].fin == RtbfDeleting || world.outbox.rows[a].rnum.Some?)
  {
    hide Alone, Attempt, Decided, Pass, PassSoFar, RefusedUnreceipted, Run, Sound, Steps, Unreceipted;
    ghost var base, cfg := world.S(), world.outbox.cfg;
    var todo := SelectUnreceipted(world.outbox);
    ids, trace := todo, [];
    StartOfPass(cfg, base, job, ids, others, crashAt);
    var backfilled := 0;
    for i := 0 to |todo|
      invariant world.Ready() && PassSoFar(cfg, base, world.S(), job, ids, others, crashAt, i, trace, backfilled)
    {
      var stamped;
      stamped, trace := MigrateNext(world, job, todo, i, others, crashAt, base, trace, backfilled);
      if stamped.None? {
        return None, ids, trace;
      }
      if stamped.value {
        backfilled := backfilled + 1;
      }
    }
    EndOfPass(cfg, base, world.S(), job, ids, others, crashAt, trace, backfilled);
    AloneAt(others, |todo|);
    trace := world.Interleave(others(|todo|), base, trace);
    var left := SelectUnreceipted(world.outbox);
    outcome := Some(Outcome(|todo|, backfilled, |left|));
    if |left| == 0 {
      NothingRemainsToRefuse(cfg, world.S().db, world.S().audit);
    }
  }

  /** The pass has dealt with its first n rows. */
  ghost predicate PassSoFar(cfg: Config, base: State, s: State, job: Job, ids: seq<nat>, others: int -> seq<Step>,
                            crashAt: Option<nat>, n: nat, trace: seq<Step>, backfilled: nat) {
    && n <= |ids| && trace == Steps(job, ids, others, n) && s == Run(cfg, base, trace)
    && backfilled == Decided(cfg, base, job, ids, others, n)
    && (Alone(others) ==>
          && Pass(cfg, base.db, base.audit, job, ids, crashAt) == Pass(cfg, s.db, s.audit, job, ids[n..], crashAt)
          && |Unreceipted(s.db)| + backfilled == |ids|)
  }

  lemma StartOfPass(cfg: Config, s: State, job: Job, ids: seq<nat>, others: int -> seq<Step>, crashAt: Option<nat>)
    requires |ids| == |Unreceipted(s.db)|
    ensures PassSoFar(cfg, s, s, job, ids, others, crashAt, 0, [], 0)
  {
    assert ids[0..] == ids;
  }

  lemma EndOfPass(cfg: Config, base: State, s: State, job: Job, ids: seq<nat>, others: int -> seq<Step>,
                  crashAt: Option<nat>, trace: seq<Step>, backfilled: nat)
    requires PassSoFar(cfg, base, s, job, ids, others, crashAt, |ids|, trace, backfilled)
    ensures trace == Steps(job, ids, others, |ids|) && s == Run(cfg, base, trace)
    ensures backfilled == Decided(cfg, base, job, ids, others, |ids|)
    ensures Alone(others) ==>
              && Pass(cfg, base.db, base.audit, job, ids, crashAt) == (s.db, s.audit, true)
              && |Unreceipted(s.db)| + backfilled == |ids|
  {
  }

  method MigrateNext(world: World, job: Job, todo: seq<nat>, n: nat, others: int -> seq<Step>, crashAt: Option<nat>,
                     ghost base: State, ghost trace: seq<Step>, ghost backfilled: nat)
    returns (stamped: Option<bool>, ghost longer: seq<Step>)
    requires world.Ready() && n < |todo| && forall i :: forall k | 0 <= k < |others(i)| :: !others(i)[k].HandEdit?
    requires PassSoFar(world.outbox.cfg, base, world.S(), job, todo, others, crashAt, n, trace, backfilled)
    modifies world, world.outbox, world.log
    ensures world.Ready() && world.S() == Run(world.outbox.cfg, base, longer)
    ensures stamped.None? ==>
              && longer == Steps(job, todo, others, n) + others(n) + [Attempt(job, todo[n], true)]
              && crashAt == Some(todo[n])
              && (Alone(others) ==> (world.S().db, world.S().audit, false)
                                    == Pass(world.outbox.cfg, base.db, base.audit, job, todo, crashAt))
    ensures stamped.Some? ==>
              PassSoFar(world.outbox.cfg, base, world.S(), job, todo, others, crashAt, n + 1, longer,
                        backfilled + if stamped.value then 1 else 0)
  {
    ghost var cfg, s := world.outbox.cfg, world.S();
    hide Alone, Attempt, BackfillTx, Decidable, Pass, PassSoFar, Run, Sound, Steps;
    PassIsRun(cfg, base, s, job, todo, others, crashAt, n, trace, backfilled);
    stamped, longer := MigrateOne(world, job, todo[n], others(n), crashAt, base, trace);
    RowDone(cfg, base, s, world.S(), job, todo, others, crashAt, n, trace, backfilled, stamped);
  }

  lemma PassIsRun(cfg: Config, base: State, s: State, job: Job, ids: seq<nat>, others: int -> seq<Step>,
                  crashAt: Option<nat>, n: nat, trace: seq<Step>, backfilled: nat)
    requires PassSoFar(cfg, base, s, job, ids, others, crashAt, n, trace, backfilled)
    ensures n <= |ids| && trace == Steps(job, ids, others, n) && s == Run(cfg, base, trace)
  {
  }

  /** One row more, from what `MigrateOne` says. */
  lemma RowDone(cfg: Config, base: State, s: State, s': State, job: Job, ids: seq<nat>, others: int -> seq<Step>,
                crashAt: Option<nat>, n: nat, trace: seq<Step>, backfilled: nat, stamped: Option<bool>)
    requires n < |ids| && PassSoFar(cfg, base, s, job, ids, others, crashAt, n, trace, backfilled)
    requires s' == Run(cfg, base, trace + others(n) + [Attempt(job, ids[n], stamped.None?)])
    requires var decidable := Decidable(Run(cfg, base, trace + others(n)).db, job, ids[n]);
             && (stamped.None? <==> crashAt == Some(ids[n]) && decidable)
             && (stamped.Some? ==> stamped.value == decidable)
    requires others(n) == [] ==>
               var dies := crashAt == Some(ids[n]) && Decidable(s.db, job, ids[n]);
               (s'.db, s'.audit)
               == BackfillTx(cfg, s.db, s.audit, ids[n], job.inspect(ids[n]), dies, job.ts, job.principal, job.tenant)
    ensures stamped.None? && Alone(others) ==>
              (s'.db, s'.audit, false) == Pass(cfg, base.db, base.audit, job, ids, crashAt)
    ensures stamped.Some? ==>
              PassSoFar(cfg, base, s', job, ids, others, crashAt, n + 1,
                        trace + others(n) + [Attempt(job, ids[n], false)], backfilled + if stamped.value then 1 else 0)
  {
    hide Apply, Attempt, BackfillTx, Decidable, Pass, Run, Unreceipted;
    if Alone(others) {
      assert trace + others(n) == trace && ids[n..][0] == ids[n] && ids[n..][1..] == ids[n + 1..];
      PassStep(cfg, s.db, s.audit, job, ids[n..], crashAt);
    }
  }

  // ---------------------------------------------------------------- what a pass does

  /** One row: stamped with a receipt the log backs, or left exactly as it was. */
  lemma BackfillStep(cfg: Config, db: Db, audit: seq<Row>, job: Job, a: nat, dies: bool)
    requires Linked(cfg.hasher, audit)
    ensures var (db', audit') := BackfillTx(cfg, db, audit, a, job.inspect(a), dies, job.ts, job.principal, job.tenant);
            && Linked(cfg.hasher, audit') && audit <= audit' && SameTables(db, db')
            && (forall k | |audit| <= k < |audit'| :: audit'[k].content.entry.target == OfApproval(a))
            && (forall b | b in db.rows && b != a :: db'.rows[b] == db.rows[b])
            && (a in db.rows ==> if Decidable(db, job, a) && !dies
                                 then Attested(cfg, job, a, db.rows[a], db'.rows[a], audit')
                                 else db'.rows[a] == db.rows[a])
  {
    if a in db.rows && BackfillReady(db.rows[a], job.inspect(a)) {
      var e := BackfillEntry(cfg, a, db.rows[a], job.inspect(a), job.ts, job.principal, job.tenant);
      AppendKeepsChain(cfg.hasher, audit, e);
      if audit != [] {
        LinkedUpto(cfg.hasher, audit, |audit|);
      }
    }
  }

  /** A row decided at its turn is attested for good; every other row keeps all its columns, receipt included. */
  lemma {:induction false} PassAttests(cfg: Config, db: Db, audit: seq<Row>, job: Job, ids: seq<nat>,
                                       crashAt: Option<nat>)
    requires Linked(cfg.hasher, audit)
    ensures var (db', audit', done) := Pass(cfg, db, audit, job, ids, crashAt);
            && Linked(cfg.hasher, audit') && audit <= audit' && SameTables(db, db')
            && (forall a | a in db.rows ::
                  || db'.rows[a] == db.rows[a]
                  || (a in ids && Decidable(db, job, a) && Attested(cfg, job, a, db.rows[a], db'.rows[a], audit')))
            && (done ==> forall a | a in ids && Decidable(db, job, a) :: db'.rows[a].rnum.Some?)
    decreases |ids|
  {
    if ids != [] {
      hide Attested, Linked, Decidable, BackfillTx, SameTables;
      var a := ids[0];
      var dies := crashAt == Some(a) && Decidable(db, job, a);
      BackfillStep(cfg, db, audit, job, a, dies);
      var (db1, audit1) := BackfillTx(cfg, db, audit, a, job.inspect(a), dies, job.ts, job.principal, job.tenant);
      if !dies {
        PassAttests(cfg, db1, audit1, job, ids[1..], crashAt);
        var (db', audit', _) := Pass(cfg, db1, audit1, job, ids[1..], crashAt);
        SameTablesOn(db, db1, db');
        forall b | b in db.rows
          ensures b != a ==> (Decidable(db1, job, b) <==> Decidable(db, job, b))
          ensures Attested(cfg, job, b, db.rows[b], db1.rows[b], audit1) ==>
                    && Attested(cfg, job, b, db.rows[b], db1.rows[b], audit') && !Decidable(db1, job, b)
                    && db1.rows[b].rnum.Some?
        {
          SameRowSameChoice(db, db1, job, b);
          AttestedStays(cfg, db, db1, audit1, audit', job, b);
        }
      }
    }
  }

  lemma SameTablesOn(db: Db, db1: Db, db': Db)
    ensures SameTables(db, db1) ==> db1.rows.Keys == db.rows.Keys
    ensures SameTables(db, db1) && SameTables(db1, db') ==> SameTables(db, db') && db'.rows.Keys == db.rows.Keys
  {
  }

  /** An attested row stays attested as the log grows, and is not decided again. */
  lemma AttestedStays(cfg: Config, db: Db, db1: Db, audit1: seq<Row>, audit': seq<Row>, job: Job, b: nat)
    requires b in db.rows && b in db1.rows && audit1 <= audit'
    ensures Attested(cfg, job, b, db.rows[b], db1.rows[b], audit1) ==>
              && Attested(cfg, job, b, db.rows[b], db1.rows[b], audit') && !Decidable(db1, job, b)
              && db1.rows[b].rnum.Some?
  {
  }

  /** The entry is about one of these approvals. */
  ghost predicate About(row: Row, ids: seq<nat>) {
    exists a | a in ids :: row.content.entry.target == OfApproval(a)
  }

  ghost predicate AppendedAbout(audit: seq<Row>, audit': seq<Row>, ids: seq<nat>) {
    forall k | |audit| <= k < |audit'| :: About(audit'[k], ids)
  }

  lemma {:induction false} PassAppendsAboutItsRows(cfg: Config, db: Db, audit: seq<Row>, job: Job, ids: seq<nat>,
                                                   crashAt: Option<nat>)
    requires Linked(cfg.hasher, audit)
    ensures AppendedAbout(audit, Pass(cfg, db, audit, job, ids, crashAt).1, ids)
    decreases |ids|
  {
    if ids != [] {
      hide Linked, Decidable, BackfillTx;
      var a := ids[0];
      var dies := crashAt == Some(a) && Decidable(db, job, a);
      BackfillStep(cfg, db, audit, job, a, dies);
      var (db1, audit1) := BackfillTx(cfg, db, audit, a, job.inspect(a), dies, job.ts, job.principal, job.tenant);
      if dies {
        assert a in ids;
      } else {
        PassAppendsAboutItsRows(cfg, db1, audit1, job, ids[1..], crashAt);
        PassAttests(cfg, db1, audit1, job, ids[1..], crashAt);
        AppendedInTwo(audit, audit1, Pass(cfg, db1, audit1, job, ids[1..], crashAt).1, ids);
      }
    }
  }

  lemma AppendedInTwo(audit: seq<Row>, audit1: seq<Row>, audit': seq<Row>, ids: seq<nat>)
    requires ids != [] && audit1 <= audit' && AppendedAbout(audit1, audit', ids[1..])
    requires forall k | |audit| <= k < |audit1| :: audit1[k].content.entry.target == OfApproval(ids[0])
    ensures AppendedAbout(audit, audit', ids)
  {
    forall k | |audit| <= k < |audit'| ensures About(audit'[k], ids) {
      if k < |audit1| {
        assert audit'[k] == audit1[k] && ids[0] in ids;
      } else {
        assert About(audit'[k], ids[1..]);
      }
    }
  }

  lemma SameRowSameChoice(db: Db, db1: Db, job: Job, b: nat)
    requires b in db.rows && b in db1.rows
    ensures db.rows[b] == db1.rows[b] ==> (Decidable(db1, job, b) <==> Decidable(db, job, b))
  {
  }

  // ---------------------------------------------------------------- activation, restart and re-run

  /** `ids` is a snapshot of the rows a pass has to look at. */
  ghost predicate Snapshot(db: Db, ids: seq<nat>) {
    (set a | a in ids) == Unreceipted(db)
  }

  function Undecidable(db: Db, job: Job): set<nat> {
    set a | a in Unreceipted(db) && !Decidable(db, job, a)
  }

  /** A pass that reaches its end leaves unreceipted exactly the rows whose inspection was unavailable. */
  lemma FinishedPassLeavesTheUndecidable(cfg: Config, db: Db, audit: seq<Row>, job: Job, ids: seq<nat>,
                                         crashAt: Option<nat>)
    requires Linked(cfg.hasher, audit) && Snapshot(db, ids) && Pass(cfg, db, audit, job, ids, crashAt).2
    ensures var db' := Pass(cfg, db, audit, job, ids, crashAt).0;
            Unreceipted(db') == Undecidable(db, job) && Undecidable(db', job) == Undecidable(db, job)
  {
    PassAttests(cfg, db, audit, job, ids, crashAt);
    var db' := Pass(cfg, db, audit, job, ids, crashAt).0;
    hide Pass, Linked, Attested;
    forall a | a in db.rows ensures a in Unreceipted(db') <==> a in Undecidable(db, job) {
      assert a in Unreceipted(db) ==> a in set x | x in ids;
    }
  }

  /** A call of the finalizer at this moment refuses the row because it carries no receipt. */
  ghost predicate RefusedUnreceipted(cfg: Config, db: Db, audit: seq<Row>, a: nat, t0: int) {
    GateDecision(cfg, db, audit, true, a, t0) == RefusedReceipt(NoReceipt)
  }

  /**
   The rows a pass looks at are the finalizer's own: of the approvals with the deployment's provenance
   and no receipt, those that no forget holds and that some call would refuse for want of one.
   */
  lemma UnreceiptedIff(cfg: Config, db: Db, audit: seq<Row>, a: nat)
    requires Configured(cfg) && a in db.rows && Provenanced(cfg, db.rows[a]) && db.rows[a].rnum.None?
    ensures a in Unreceipted(db) <==>
              db.rows[a].fin != RtbfDeleting && exists t0 :: RefusedUnreceipted(cfg, db, audit, a, t0)
  {
    var row := db.rows[a];
    var late := if row.claimedAt.Some? then row.claimedAt.value + STALE_TTL + 1 else 0;
    if a in Unreceipted(db) {
      assert RefusedUnreceipted(cfg, db, audit, a, late);
    }
  }

  /** With nothing remaining, only rows a forget holds or with an incomplete receipt are refused for want of one. */
  lemma NothingRemainsToRefuse(cfg: Config, db: Db, audit: seq<Row>)
    requires Unreceipted(db) == {}
    ensures forall a, t0 | RefusedUnreceipted(cfg, db, audit, a, t0) ::
              a in db.rows && (db.rows[a].fin == RtbfDeleting || db.rows[a].rnum.Some?)
  {
    forall a, t0 | RefusedUnreceipted(cfg, db, audit, a, t0)
      ensures a in db.rows && (db.rows[a].fin == RtbfDeleting || db.rows[a].rnum.Some?)
    {
      assert a !in Unreceipted(db);
    }
  }

  /**
   Once a pass reports nothing remaining, every row the finalizer could act on carries a receipt:
   one that the gate accepts if the pass had to attest it, and otherwise the one it carried before,
   untouched, on which the gate decides as it would have before.
   */
  lemma ActivationIsGated(cfg: Config, db: Db, audit: seq<Row>, job: Job, ids: seq<nat>, crashAt: Option<nat>, a: nat)
    requires Linked(cfg.hasher, audit) && Snapshot(db, ids) && job.tenant == cfg.tenant
    requires (forall p, c :: cfg.hasher(p, c) != "") && (forall b :: cfg.fingerprint(b) != "")
    requires var (db', _, done) := Pass(cfg, db, audit, job, ids, crashAt);
             && done && Unreceipted(db') == {} && a in db.rows && a in db'.rows
             && db'.rows[a].status == Approved && db'.rows[a].event.Some? && db'.rows[a].via.Some?
             && db'.rows[a].approver.Some? && (db'.rows[a].fin == Idle || db'.rows[a].fin == Finalizing
                                               || db'.rows[a].fin == Failed)
    ensures var (db', audit', _) := Pass(cfg, db, audit, job, ids, crashAt);
            if a in Unreceipted(db) then GateRefusal(cfg, a, db'.rows[a], audit', true).None?
            else && db'.rows[a] == db.rows[a] && db.rows[a].rnum.Some?
                 && (GateRefusal(cfg, a, db'.rows[a], audit', true).None?
                     <==> GateRefusal(cfg, a, db.rows[a], audit, true).None?)
  {
    PassAttests(cfg, db, audit, job, ids, crashAt);
    PassAppendsAboutItsRows(cfg, db, audit, job, ids, crashAt);
    var (db', audit', _) := Pass(cfg, db, audit, job, ids, crashAt);
    hide Pass, GateRefusal, Linked;
    assert a !in Unreceipted(db');
    if a in Unreceipted(db) {
      AttestedPassesTheGate(cfg, job, a, db.rows[a], db'.rows[a], audit');
    } else {
      assert a !in (set x | x in ids);
      OtherReceiptsStand(cfg, a, db.rows[a], audit, audit');
    }
  }

  /** Entries about other approvals change no verdict on this row's receipt. */
  lemma OtherReceiptsStand(cfg: Config, a: nat, row: QRow, audit: seq<Row>, audit': seq<Row>)
    requires Linked(cfg.hasher, audit) && Linked(cfg.hasher, audit') && audit <= audit'
    requires forall k | |audit| <= k < |audit'| :: audit'[k].content.entry.target != OfApproval(a)
    ensures GateRefusal(cfg, a, row, audit', true).None? <==> GateRefusal(cfg, a, row, audit, true).None?
  {
    if HasReceipt(row) {
      var n := row.rnum.value;
      if Verdict(cfg.hasher, audit, n).Some? {
        UptoIsPrefixOfLinked(cfg, audit, n);
        LinkedUpto(cfg.hasher, audit', n);
      } else if Verdict(cfg.hasher, audit', n).Some? {
        UptoIsPrefixOfLinked(cfg, audit', n);
        if n <= |audit| {
          LinkedUpto(cfg.hasher, audit, n);
        }
      }
    }
  }

  lemma AttestedPassesTheGate(cfg: Config, job: Job, a: nat, row: QRow, row': QRow, audit: seq<Row>)
    requires Linked(cfg.hasher, audit) && Attested(cfg, job, a, row, row', audit) && job.tenant == cfg.tenant
    requires (forall p, c :: cfg.hasher(p, c) != "") && cfg.fingerprint(row.cand) != ""
    ensures GateRefusal(cfg, a, row', audit, true).None?
  {
    var n := row'.rnum.value;
    LinkedUpto(cfg.hasher, audit, n);
    assert LinkedAt(cfg.hasher, audit, n - 1);
  }

  /** With nothing decidable a pass changes neither the tables nor the log. */
  lemma {:induction false} IdlePass(cfg: Config, db: Db, audit: seq<Row>, job: Job, ids: seq<nat>, crashAt: Option<nat>)
    requires forall a | a in ids :: !Decidable(db, job, a)
    ensures Pass(cfg, db, audit, job, ids, crashAt) == (db, audit, true)
    decreases |ids|
  {
    if ids != [] {
      assert ids[0] in ids;
      IdlePass(cfg, db, audit, job, ids[1..], crashAt);
    }
  }

  /** A second pass over what the first left backfills nothing and appends nothing. */
  lemma SecondPassIsIdle(cfg: Config, db: Db, audit: seq<Row>, job: Job, ids: seq<nat>, crashAt: Option<nat>,
                         again: seq<nat>, crashAgain: Option<nat>)
    requires Linked(cfg.hasher, audit) && Snapshot(db, ids) && Pass(cfg, db, audit, job, ids, crashAt).2
    requires Snapshot(Pass(cfg, db, audit, job, ids, crashAt).0, again)
    ensures var (db', audit', _) := Pass(cfg, db, audit, job, ids, crashAt);
            Pass(cfg, db', audit', job, again, crashAgain) == (db', audit', true)
  {
    FinishedPassLeavesTheUndecidable(cfg, db, audit, job, ids, crashAt);
    var (db', audit', _) := Pass(cfg, db, audit, job, ids, crashAt);
    forall a | a in again ensures !Decidable(db', job, a) {
      assert a in set x | x in again;
      assert a in Undecidable(db', job);
    }
    IdlePass(cfg, db', audit', job, again, crashAgain);
  }

  /**
   A pass that dies between an append and its stamp leaves the chain valid and every receipt it
   set in place; the next complete pass ends where an uninterrupted one would have.
   */
  lemma RestartCompletes(cfg: Config, db: Db, audit: seq<Row>, job: Job, ids: seq<nat>, crashAt: Option<nat>,
                         again: seq<nat>)
    requires Linked(cfg.hasher, audit) && Snapshot(db, ids)
    requires Snapshot(Pass(cfg, db, audit, job, ids, crashAt).0, again)
    ensures var (db1, audit1, _) := Pass(cfg, db, audit, job, ids, crashAt);
            var (db2, audit2, done) := Pass(cfg, db1, audit1, job, again, None);
            && done && Linked(cfg.hasher, audit1) && Linked(cfg.hasher, audit2) && audit <= audit1 <= audit2
            && Unreceipted(db2) == Undecidable(db, job)
            && db2.rows.Keys == db1.rows.Keys == db.rows.Keys
            && (forall a | a in db.rows && db1.rows[a].rnum.Some? :: db2.rows[a] == db1.rows[a])
  {
    PassAttests(cfg, db, audit, job, ids, crashAt);
    var (db1, audit1, _) := Pass(cfg, db, audit, job, ids, crashAt);
    PassAttests(cfg, db1, audit1, job, again, None);
    UninterruptedPassEnds(cfg, db1, audit1, job, again);
    FinishedPassLeavesTheUndecidable(cfg, db1, audit1, job, again, None);
    assert Undecidable(db1, job) == Undecidable(db, job) by {
      hide Pass, Linked;
      forall a | a in db.rows ensures a in Undecidable(db1, job) <==> a in Undecidable(db, job) {
      }
    }
  }

  lemma {:induction false} UninterruptedPassEnds(cfg: Config, db: Db, audit: seq<Row>, job: Job, ids: seq<nat>)
    ensures Pass(cfg, db, audit, job, ids, None).2
    decreases |ids|
  {
    if ids != [] {
      var (db1, audit1) :=
        BackfillTx(cfg, db, audit, ids[0], job.inspect(ids[0]), false, job.ts, job.principal, job.tenant);
      UninterruptedPassEnds(cfg, db1, audit1, job, ids[1..]);
    }
  }

  // ---------------------------------------------------------------- a pass among other actors

  /** The row carries a receipt the gate takes. */
  ghost predicate GateTakes(cfg: Config, s: State, a: nat) {
    a in s.db.rows ==>
      && ApprovedWithEvent(s.db.rows[a]) && s.db.rows[a].via.Some?
      && GateRefusal(cfg, a, s.db.rows[a], s.audit, true).None?
  }

  lemma ReceiptOverStep(cfg: Config, s: State, step: Step, a: nat)
    requires Linked(cfg.hasher, s.audit) && Sound(s.db) && a < s.db.nextRow && GateTakes(cfg, s, a) && !step.HandEdit?
    ensures var s' := Apply(cfg, s, step);
            Linked(cfg.hasher, s'.audit) && Sound(s'.db) && a < s'.db.nextRow && GateTakes(cfg, s', a)
  {
    hide Apply, GateRefusal, Linked, Sound;
    SoundStep(cfg, s, step);
    LogStaysLinked(cfg, s, step);
    NextRowGrows(cfg, s, step);
    RowPersists(cfg, s, step, a);
    if a in Apply(cfg, s, step).db.rows {
      var es := LogSuffix(cfg, s, step);
      ReceiptIsStable(cfg, a, s.db.rows[a], Apply(cfg, s, step).db.rows[a], s.audit, es);
    }
  }

  lemma {:induction false} ReceiptOverRun(cfg: Config, s: State, trace: seq<Step>, a: nat)
    requires Linked(cfg.hasher, s.audit) && Sound(s.db) && a < s.db.nextRow && GateTakes(cfg, s, a)
    requires forall k | 0 <= k < |trace| :: !trace[k].HandEdit?
    ensures var s' := Run(cfg, s, trace);
            Linked(cfg.hasher, s'.audit) && Sound(s'.db) && a < s'.db.nextRow && GateTakes(cfg, s', a)
    decreases |trace|
  {
    hide Apply, GateTakes, Linked, Sound;
    if trace != [] {
      var front, last := trace[..|trace| - 1], trace[|trace| - 1];
      ReceiptOverRun(cfg, s, front, a);
      ReceiptOverStep(cfg, Run(cfg, s, front), last, a);
    }
  }

  /** Deciding a row gives it a receipt the gate takes. */
  lemma DecidedPassesGate(cfg: Config, s: State, job: Job, a: nat)
    requires Linked(cfg.hasher, s.audit) && Sound(s.db) && Decidable(s.db, job, a) && job.tenant == cfg.tenant
    requires (forall p, c :: cfg.hasher(p, c) != "") && (forall b :: cfg.fingerprint(b) != "")
    ensures var s' := Apply(cfg, s, Attempt(job, a, false));
            Linked(cfg.hasher, s'.audit) && Sound(s'.db) && a < s'.db.nextRow && GateTakes(cfg, s', a)
  {
    var s' := Apply(cfg, s, Attempt(job, a, false));
    AttemptTells(cfg, s, job, a, false);
    BackfillStep(cfg, s.db, s.audit, job, a, false);
    SoundStep(cfg, s, Attempt(job, a, false));
    hide Apply, BackfillTx, GateRefusal, Linked;
    AttestedPassesTheGate(cfg, job, a, s.db.rows[a], s'.db.rows[a], s'.audit);
  }

  lemma {:induction false} StepsGoOn(job: Job, ids: seq<nat>, others: int -> seq<Step>, n: nat, m: nat)
    requires n <= m <= |ids|
    ensures Steps(job, ids, others, n) <= Steps(job, ids, others, m)
    decreases m
  {
    if n < m {
      StepsGoOn(job, ids, others, n, m - 1);
    }
  }

  /**
   Whatever others do between the rows of a pass and after it: a row that could be decided when its
   turn came carries, at the end and for as long as it exists, a receipt the gate accepts.
   */
  lemma DecidedStaysGated(cfg: Config, base: State, job: Job, ids: seq<nat>, others: int -> seq<Step>, n: nat,
                          later: seq<Step>)
    requires Linked(cfg.hasher, base.audit) && Sound(base.db) && job.tenant == cfg.tenant && n < |ids|
    requires (forall p, c :: cfg.hasher(p, c) != "") && (forall b :: cfg.fingerprint(b) != "")
    requires Decidable(Run(cfg, base, Steps(job, ids, others, n) + others(n)).db, job, ids[n])
    requires var trace := Steps(job, ids, others, |ids|) + later;
             forall k | 0 <= k < |trace| :: !trace[k].HandEdit?
    ensures GateTakes(cfg, Run(cfg, base, Steps(job, ids, others, |ids|) + later), ids[n])
  {
    hide Apply, Decidable, Linked, GateTakes, Run, Sound;
    var before := Steps(job, ids, others, n) + others(n);
    var rest := RestOfRun(job, ids, others, n, later);
    StaysLinkedAndSound(cfg, base, before);
    var s := Run(cfg, base, before);
    DecidedPassesGate(cfg, s, job, ids[n]);
    RunOne(cfg, base, before, Attempt(job, ids[n], false));
    ReceiptOverRun(cfg, Apply(cfg, s, Attempt(job, ids[n], false)), rest, ids[n]);
    RunConcat(cfg, base, before + [Attempt(job, ids[n], false)], rest);
  }

  /** What follows the n-th row. */
  lemma RestOfRun(job: Job, ids: seq<nat>, others: int -> seq<Step>, n: nat, later: seq<Step>)
    returns (rest: seq<Step>)
    requires n < |ids|
    requires var trace := Steps(job, ids, others, |ids|) + later;
             forall k | 0 <= k < |trace| :: !trace[k].HandEdit?
    ensures var before := Steps(job, ids, others, n) + others(n);
            && Steps(job, ids, others, |ids|) + later == before + [Attempt(job, ids[n], false)] + rest
            && (forall k | 0 <= k < |before| :: !before[k].HandEdit?)
            && forall k | 0 <= k < |rest| :: !rest[k].HandEdit?
  {
    var trace, upto := Steps(job, ids, others, |ids|) + later, Steps(job, ids, others, n + 1);
    StepsGoOn(job, ids, others, n + 1, |ids|);
    hide Attempt;
    rest := trace[|upto|..];
    assert trace == upto + rest;
    forall k | 0 <= k < |upto| ensures !upto[k].HandEdit? {
      assert upto[k] == trace[k];
    }
    forall k | 0 <= k < |rest| ensures !rest[k].HandEdit? {
      assert rest[k] == trace[|upto| + k];
    }
    var before := Steps(job, ids, others, n) + others(n);
    forall k | 0 <= k < |before| ensures !before[k].HandEdit? {
      assert before[k] == upto[k];
    }
  }

  lemma {:induction false} StaysLinkedAndSound(cfg: Config, s: State, trace: seq<Step>)
    requires Linked(cfg.hasher, s.audit) && Sound(s.db) && forall k | 0 <= k < |trace| :: !trace[k].HandEdit?
    ensures Linked(cfg.hasher, Run(cfg, s, trace).audit) && Sound(Run(cfg, s, trace).db)
    decreases |trace|
  {
    hide Apply, Linked, Sound;
    if trace != [] {
      var front, last := trace[..|trace| - 1], trace[|trace| - 1];
      StaysLinkedAndSound(cfg, s, front);
      SoundStep(cfg, Run(cfg, s, front), last);
      LogStaysLinked(cfg, Run(cfg, s, front), last);
    }
  }
}
