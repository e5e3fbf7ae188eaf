/**
 The approval service (panella/approval_service.py): verify the presser, append the decision,
 flip the queue row, finalize; in this order, with any other actors in between.
 */
module ApprovalService {
  import opened Basics
  import opened AuditChain
  import opened Queue
  import opened QueueLaws
  import opened Outbox
  import opened Protocol
  import opened ProtocolFrames
  import opened Invariants
  import opened Safety
  import opened Execution
  import opened Programs
  import ReceiptGate

  /**
   How the call is audited. `failing`: the fail-closed append, or reading back its hash, fails.
   `refusal`: the best-effort record of a refusal, if it can be written.
   */
  datatype Context = Context(ts: int, principal: string, tenant: string, extra: map<string, string>,
                             reason: Option<string>, failing: bool, refusal: Option<Entry>)

  datatype Refused = NotAuthorized | NotACandidate | AuditUnavailable | NotFinalized

  /** What the configured transport says about the credential: the canonical presser, if it accepts it. */
  predicate Authorized(cfg: Config, presser: Option<string>) {
    presser.Some? && presser.value in cfg.approvers
  }

  function DecisionOf(cfg: Config, ctx: Context, aid: nat, presser: string, row: QRow): Entry {
    Entry(ctx.ts, ctx.principal, ctx.tenant, "approval_decision", OfApproval(aid), ctx.reason,
          DecisionDetails(cfg, ctx.extra, "authorized_intent", presser, cfg.via, row.cand, row.proposer))
  }

  function RejectionOf(cfg: Config, ctx: Context, aid: nat, presser: string): Entry {
    Entry(ctx.ts, ctx.principal, ctx.tenant, "approval_decision", OfApproval(aid), ctx.reason,
          ctx.extra + map["phase" := "authorized_intent", "decision" := "reject", "approved_by" := presser,
                          "approved_via" := cfg.via])
  }

  lemma RejectionSays(cfg: Config, ctx: Context, aid: nat, presser: string)
    ensures var e := RejectionOf(cfg, ctx, aid, presser);
            && e.op == "approval_decision" && e.target == OfApproval(aid) && e.tenant == ctx.tenant
            && Lookup(e.details, "decision") == Some("reject") && Lookup(e.details, "approved_by") == Some(presser)
            && Lookup(e.details, "approved_via") == Some(cfg.via)
            && e.ts == ctx.ts && e.principal == ctx.principal && e.reason == ctx.reason
  {
  }

  /** A recorded rejection never serves as a receipt, whatever extra details the surface adds. */
  lemma RejectionIsNoReceipt(cfg: Config, ctx: Context, aid: nat, presser: string, row: QRow, receipt: Row)
    requires receipt.content.entry == RejectionOf(cfg, ctx, aid, presser)
    ensures ReceiptRefusal(cfg, aid, row, receipt).Some?
  {
    var e := receipt.content.entry;
    assert Lookup(e.details, "decision") == Some("reject");
    assert "reject"[0] != "approve"[0];
  }

  /** The chain is intact, and the call runs in the deployment's own tenant. */
  ghost predicate Trusted(cfg: Config, ctx: Context, audit: seq<Row>) {
    Linked(cfg.hasher, audit) && ctx.tenant == cfg.tenant
  }

  // ---------------------------------------------------------------- what a stamp is worth

  /** Row `num` of the log is this decision, and the receipt names it. */
  ghost predicate Backs(cfg: Config, audit: seq<Row>, receipt: Receipt, aid: nat, presser: string, cand: string) {
    && 1 <= receipt.num <= |audit| && receipt.hash == audit[receipt.num - 1].hash
    && receipt.sha == cfg.fingerprint(cand)
    && var e := audit[receipt.num - 1].content.entry;
       && e.op in DECISION_OPS && e.target == OfApproval(aid) && e.tenant == cfg.tenant
       && Lookup(e.details, "decision") == Some("approve") && Lookup(e.details, "approved_by") == Some(presser)
       && Lookup(e.details, "approved_via") == Some(cfg.via)
       && Lookup(e.details, "candidate_sha256") == Some(receipt.sha)
  }

  /** A row stamped with a receipt the log backs passes every gate of the finalizer. */
  lemma BackedStampIsAccepted(cfg: Config, db: Db, audit: seq<Row>, receipt: Receipt, aid: nat, presser: string,
                              cand: string)
    requires Linked(cfg.hasher, audit) && Backs(cfg, audit, receipt, aid, presser, cand) && presser in cfg.approvers
    requires McpTx(cfg, db, aid, cfg.via, presser, receipt).Ok?
    requires McpTx(cfg, db, aid, cfg.via, presser, receipt).value.1 == Stamped
    ensures var db' := McpTx(cfg, db, aid, cfg.via, presser, receipt).value.0;
            aid in db'.rows && Accepted(cfg, aid, db'.rows[aid], audit)
  {
    StampedRow(cfg, db, aid, presser, receipt);
    McpIsGuardedApprove(cfg, db, aid, cfg.via, presser, receipt);
    hide McpTx;
    LinkedUpto(cfg.hasher, audit, receipt.num);
    hide Linked;
  }

  lemma AppendedIsBacked(cfg: Config, audit: seq<Row>, ctx: Context, aid: nat, presser: string, row: QRow, hash: Hash)
    requires Trusted(cfg, ctx, audit)
    requires var log := Append(cfg.hasher, audit, DecisionOf(cfg, ctx, aid, presser, row));
             exists i | 0 <= i < |log| :: log[i].content.num == LastNum(log) && hash == log[i].hash
    ensures var log := Append(cfg.hasher, audit, DecisionOf(cfg, ctx, aid, presser, row));
            Backs(cfg, log, Receipt(LastNum(log), hash, cfg.fingerprint(row.cand)), aid, presser, row.cand)
  {
    var e := DecisionOf(cfg, ctx, aid, presser, row);
    DecisionSays(cfg, ctx, aid, presser, row);
    hide DecisionOf, Lookup;
    NumbersAreUnique(cfg, audit, e, hash);
  }

  lemma DecisionSays(cfg: Config, ctx: Context, aid: nat, presser: string, row: QRow)
    ensures var e := DecisionOf(cfg, ctx, aid, presser, row);
            && e.op in DECISION_OPS && e.target == OfApproval(aid) && e.tenant == ctx.tenant
            && Lookup(e.details, "decision") == Some("approve") && Lookup(e.details, "approved_by") == Some(presser)
            && Lookup(e.details, "approved_via") == Some(cfg.via)
            && Lookup(e.details, "candidate_sha256") == Some(cfg.fingerprint(row.cand))
            && (Clean(cfg, row.proposer).Some? ==> Lookup(e.details, "proposed_by_profile") == Clean(cfg, row.proposer))
            && e.ts == ctx.ts && e.principal == ctx.principal && e.reason == ctx.reason
  {
  }

  /** On an intact log the hash read back by number is the hash of the row just appended. */
  lemma NumbersAreUnique(cfg: Config, audit: seq<Row>, e: Entry, hash: Hash)
    requires Linked(cfg.hasher, audit)
    requires var log := Append(cfg.hasher, audit, e);
             exists i | 0 <= i < |log| :: log[i].content.num == LastNum(log) && hash == log[i].hash
    ensures var log := Append(cfg.hasher, audit, e);
            && LastNum(log) == |log| && hash == log[|log| - 1].hash && log[|log| - 1].content.entry == e
            && hash == cfg.hasher(log[|log| - 1].content.prev, log[|log| - 1].content)
  {
    var log := Append(cfg.hasher, audit, e);
    AppendKeepsChain(cfg.hasher, audit, e);
    LastIsAppended(cfg.hasher, audit, e);
    hide Append;
    LinkedUpto(cfg.hasher, log, |log|);
    hide Upto, Verdict, ValidThrough, Ordered;
    var i :| 0 <= i < |log| && log[i].content.num == LastNum(log) && hash == log[i].hash;
    assert LinkedAt(cfg.hasher, log, i);
    assert LinkedAt(cfg.hasher, log, |log| - 1);
  }

  lemma LastIsAppended(h: Hasher, audit: seq<Row>, e: Entry)
    ensures Append(h, audit, e) != [] && Append(h, audit, e)[|audit|].content.entry == e
    ensures |Append(h, audit, e)| == |audit| + 1
  {
  }

  /** Appends by others do not take the backing away. */
  lemma {:induction false} BackedOverRun(cfg: Config, s: State, trace: seq<Step>, receipt: Receipt, aid: nat,
                                         presser: string, cand: string)
    requires Linked(cfg.hasher, s.audit) && Backs(cfg, s.audit, receipt, aid, presser, cand)
    ensures Linked(cfg.hasher, Run(cfg, s, trace).audit)
    ensures Backs(cfg, Run(cfg, s, trace).audit, receipt, aid, presser, cand)
    decreases |trace|
  {
    if trace != [] {
      var front, last := trace[..|trace| - 1], trace[|trace| - 1];
      BackedOverRun(cfg, s, front, receipt, aid, presser, cand);
      hide Apply, Linked;
      ReceiptGate.LogOnlyGrows(cfg, Run(cfg, s, front), last);
    }
  }

  // ---------------------------------------------------------------- approve

  /** The step that flips the queue row in this presser's name. */
  predicate IsFlip(cfg: Config, step: Step, aid: nat, presser: string) {
    && step.Approve? && step.aid == aid && step.via == Some(cfg.via) && step.approver == Some(presser)
    && step.receipt.Some?
  }

  /**
   The run goes on with appends to the log, the flip of this row in this presser's name, the steps
   of this call's finalizer, and what others do as planned.
   */
  ghost predicate ApprovalGoesOn(cfg: Config, trace: seq<Step>, longer: seq<Step>, aid: nat, presser: string,
                                 wid: string, others: int -> seq<Step>) {
    && trace <= longer
    && forall k | |trace| <= k < |longer| ::
         || longer[k].Log?
         || IsFlip(cfg, longer[k], aid, presser)
         || (WorkerStep(longer[k]) && longer[k].wid == wid)
         || exists i :: longer[k] in others(i)
  }

  lemma ApprovalGoesFurther(cfg: Config, trace: seq<Step>, middle: seq<Step>, longer: seq<Step>, aid: nat,
                            presser: string, wid: string, others: int -> seq<Step>)
    requires ApprovalGoesOn(cfg, trace, middle, aid, presser, wid, others)
    requires ApprovalGoesOn(cfg, middle, longer, aid, presser, wid, others)
    ensures ApprovalGoesOn(cfg, trace, longer, aid, presser, wid, others)
  {
  }

  lemma ApprovalTakesTurn(cfg: Config, trace: seq<Step>, step: Step, aid: nat, presser: string, wid: string,
                          others: int -> seq<Step>, turn: int)
    requires step.Log? || IsFlip(cfg, step, aid, presser)
    ensures ApprovalGoesOn(cfg, trace, trace, aid, presser, wid, others)
    ensures ApprovalGoesOn(cfg, trace, trace + [step], aid, presser, wid, others)
    ensures ApprovalGoesOn(cfg, trace, trace + others(turn), aid, presser, wid, others)
    ensures ApprovalGoesOn(cfg, trace, trace + [step] + others(turn), aid, presser, wid, others)
  {
    assert forall k | 0 <= k < |others(turn)| :: others(turn)[k] in others(turn);
  }

  lemma ApprovalMakesCall(cfg: Config, trace: seq<Step>, call: seq<Step>, aid: nat, presser: string, wid: string,
                          others: int -> seq<Step>)
    requires From(call, wid, others)
    ensures ApprovalGoesOn(cfg, trace, trace + call, aid, presser, wid, others)
  {
    forall k | |trace| <= k < |trace + call|
      ensures var step := (trace + call)[k];
              || step.Log? || IsFlip(cfg, step, aid, presser) || (WorkerStep(step) && step.wid == wid)
              || exists i :: step in others(i)
    {
      assert (trace + call)[k] == call[k - |trace|];
    }
  }

  /** The decision was committed to the log before the flip. */
  ghost predicate DecidedThenFlipped(cfg: Config, trace: seq<Step>, longer: seq<Step>, e: Entry, aid: nat,
                                     presser: string) {
    exists i, j | |trace| <= i < j < |longer| :: longer[i] == Step.Log(e) && IsFlip(cfg, longer[j], aid, presser)
  }

  lemma StaysDecided(cfg: Config, trace: seq<Step>, middle: seq<Step>, longer: seq<Step>, e: Entry, aid: nat,
                     presser: string)
    requires DecidedThenFlipped(cfg, trace, middle, e, aid, presser) && middle <= longer
    ensures DecidedThenFlipped(cfg, trace, longer, e, aid, presser)
  {
    var i, j :| |trace| <= i < j < |middle| && middle[i] == Step.Log(e) && IsFlip(cfg, middle[j], aid, presser);
    assert longer[i] == Step.Log(e) && IsFlip(cfg, longer[j], aid, presser);
  }

  /** This receipt names the row the entry got in the log, by the next number, and these bytes. */
  ghost predicate IsReceipt(cfg: Config, audit: seq<Row>, e: Entry, cand: string, receipt: Receipt) {
    && receipt.num == LastNum(audit) + 1 && receipt.sha == cfg.fingerprint(cand)
    && (Linked(cfg.hasher, audit) ==>
          receipt.num == |audit| + 1 && receipt.hash == Append(cfg.hasher, audit, e)[|audit|].hash)
  }

  /** Phase 1: the decision is committed, and its receipt read back, before anything else changes. */
  method AppendDecision(world: World, ctx: Context, aid: nat, presser: string) returns (receipt: Option<Receipt>)
    requires world.Ready() && aid in world.outbox.rows
    modifies world.log
    ensures world.Ready()
    ensures ctx.failing ==> receipt.None? && world.S() == old(world.S())
    ensures !ctx.failing ==>
              world.S() == Apply(world.outbox.cfg, old(world.S()),
                                 Step.Log(DecisionOf(world.outbox.cfg, ctx, aid, presser, world.outbox.rows[aid])))
    ensures receipt.None? <==> ctx.failing || LastNum(old(world.log.rows)) < 0
    ensures receipt.Some? ==>
              var cfg, row := world.outbox.cfg, world.outbox.rows[aid];
              && IsReceipt(cfg, old(world.log.rows), DecisionOf(cfg, ctx, aid, presser, row), row.cand, receipt.value)
              && (Trusted(cfg, ctx, old(world.S()).audit)
                  ==> Backs(cfg, world.S().audit, receipt.value, aid, presser, row.cand)
                      && Linked(cfg.hasher, world.S().audit))
  {
    if ctx.failing {
      return None;
    }
    ghost var before := world.log.rows;
    var row := world.outbox.rows[aid];
    var e := DecisionOf(world.outbox.cfg, ctx, aid, presser, row);
    var num := world.log.Write(e);
    assert world.S() == Apply(world.outbox.cfg, old(world.S()), Step.Log(e));
    assert world.log.rows[|before|].content.num == num;
    var hash := world.log.RowHash(num);
    hide Append, Apply, Backs, DecisionOf, LastNum, Linked, Ordered, SendStep, Sound, WriteStep;
    if hash.Err? {
      return None;
    }
    if Linked(world.outbox.cfg.hasher, before) {
      NumbersAreUnique(world.outbox.cfg, before, e, hash.value);
    }
    if Trusted(world.outbox.cfg, ctx, before) {
      AppendKeepsChain(world.outbox.cfg.hasher, before, e);
      AppendedIsBacked(world.outbox.cfg, before, ctx, aid, presser, row, hash.value);
    }
    return Some(Receipt(num, hash.value, world.outbox.cfg.fingerprint(row.cand)));
  }

  /** Phase 1, and whatever others do before the flip. */
  method AppendThenWait(world: World, presser: string, aid: nat, ctx: Context, plan: FinalizePlan, ghost base: State,
                        ghost trace: seq<Step>)
    returns (receipt: Option<Receipt>, ghost longer: seq<Step>)
    requires world.Ready() && world.S() == Run(world.outbox.cfg, base, trace) && aid in world.outbox.rows
    requires !ctx.failing
    requires forall k | 0 <= k < |plan.others(7)| :: !plan.others(7)[k].HandEdit?
    modifies world, world.outbox, world.log
    ensures world.Ready() && world.S() == Run(world.outbox.cfg, base, longer)
    ensures forall w: string | !ActsAsWorker(plan.others(7), w) :: SameAt(old(world.workers), world.workers, w)
    ensures old(world.now) <= world.now
    ensures var step := Step.Log(DecisionOf(world.outbox.cfg, ctx, aid, presser, old(world.outbox.rows)[aid]));
            longer == if receipt.Some? then trace + [step] + plan.others(7) else trace + [step]
    ensures receipt.None? <==> LastNum(old(world.log.rows)) < 0
    ensures receipt.Some? ==>
              var cfg, row := world.outbox.cfg, old(world.outbox.rows)[aid];
              IsReceipt(cfg, old(world.log.rows), DecisionOf(cfg, ctx, aid, presser, row), row.cand, receipt.value)
    ensures receipt.Some? && Trusted(world.outbox.cfg, ctx, old(world.S()).audit) ==>
              && Linked(world.outbox.cfg.hasher, world.S().audit)
              && Backs(world.outbox.cfg, world.S().audit, receipt.value, aid, presser, old(world.outbox.rows)[aid].cand)
  {
    ghost var cfg, s0, row := world.outbox.cfg, world.S(), world.outbox.rows[aid];
    hide ActsAsForget, ActsAsWorker, Apply, Backs, DecisionOf, IsReceipt, LastNum, Linked, Run, Sound, Trusted;
    receipt := AppendDecision(world, ctx, aid, presser);
    ghost var e := DecisionOf(cfg, ctx, aid, presser, row);
    RunOne(cfg, base, trace, Step.Log(e));
    LogOnlyAppends(cfg, s0, e);
    LogKeepsTime(cfg, s0, e);
    longer := trace + [Step.Log(e)];
    if receipt.Some? {
      ghost var s1 := world.S();
      longer := world.Interleave(plan.others(7), base, longer);
      RunConcat(cfg, base, trace + [Step.Log(e)], plan.others(7));
      TimeOverRun(cfg, s1, plan.others(7));
      if Trusted(cfg, ctx, s0.audit) {
        BackedOverRun(cfg, s1, plan.others(7), receipt.value, aid, presser, row.cand);
      }
    }
  }

  /** The flip succeeds exactly on an approvable row, and what it stamps bears this receipt in this presser's name. */
  ghost predicate FlippedSo(cfg: Config, db: Db, aid: nat, presser: string, mode: Result<Mode, Refused>,
                            receipt: Receipt, db': Db) {
    && (mode.Ok? <==> Approvable(cfg, db, aid, cfg.via, presser, receipt))
    && (mode.Ok? ==> aid in db.rows && (mode.value == Redrive <==> StampedBefore(db.rows[aid], cfg.via, presser)))
    && (mode == Ok(Stamped) ==> aid in db'.rows && Bears(db.rows[aid], db'.rows[aid], cfg.via, presser, receipt))
    && (mode != Ok(Stamped) ==> db' == db)
  }

  function FlipScript(trace: seq<Step>, cfg: Config, aid: nat, presser: string, receipt: Receipt,
                      mode: Result<Mode, Refused>): seq<Step> {
    if mode == Ok(Stamped) then trace + [Step.Approve(aid, Some(cfg.via), Some(presser), Some(receipt))] else trace
  }

  /** Phase 1 and the flip. With a chain that was intact, the stamped row passes the finalizer's gates at once. */
  method AppendAndFlip(world: World, presser: string, aid: nat, ctx: Context, plan: FinalizePlan, ghost base: State,
                       ghost trace: seq<Step>, ghost wid: string)
    returns (mode: Result<Mode, Refused>, ghost receipt: Option<Receipt>, ghost longer: seq<Step>)
    requires world.Ready() && world.S() == Run(world.outbox.cfg, base, trace)
    requires aid in world.outbox.rows && presser in world.outbox.cfg.approvers
    requires forall k | 0 <= k < |plan.others(7)| :: !plan.others(7)[k].HandEdit?
    modifies world, world.outbox, world.log
    ensures world.Ready() && world.S() == Run(world.outbox.cfg, base, longer)
    ensures ApprovalGoesOn(world.outbox.cfg, trace, longer, aid, presser, wid, plan.others)
    ensures ctx.failing ==> world.S() == old(world.S()) && longer == trace
    ensures receipt.None? <==> ctx.failing || LastNum(old(world.log.rows)) < 0
    ensures mode == Err(AuditUnavailable) <==> receipt.None?
    ensures mode.Err? ==> mode.error == AuditUnavailable || mode.error == NotACandidate
    ensures receipt.Some? ==>
              var cfg, row := world.outbox.cfg, old(world.outbox.rows)[aid];
              var e := DecisionOf(cfg, ctx, aid, presser, row);
              && IsReceipt(cfg, old(world.log.rows), e, row.cand, receipt.value)
              && FlippedSo(cfg, Run(cfg, base, trace + [Step.Log(e)] + plan.others(7)).db, aid, presser, mode,
                           receipt.value, world.S().db)
              && longer == FlipScript(trace + [Step.Log(e)] + plan.others(7), cfg, aid, presser, receipt.value, mode)
    ensures mode == Ok(Stamped) ==>
              var e := DecisionOf(world.outbox.cfg, ctx, aid, presser, old(world.outbox.rows)[aid]);
              DecidedThenFlipped(world.outbox.cfg, trace, longer, e, aid, presser)
    ensures forall w: string | !ActsAsWorker(plan.others(7), w) :: SameAt(old(world.workers), world.workers, w)
    ensures old(world.now) <= world.now && mode != Err(NotAuthorized)
    ensures mode == Ok(Stamped) && Trusted(world.outbox.cfg, ctx, old(world.S()).audit)
            ==> aid in world.outbox.rows && Linked(world.outbox.cfg.hasher, world.S().audit)
                && Accepted(world.outbox.cfg, aid, world.outbox.rows[aid], world.S().audit)
  {
    hide Accepted, ActsAsWorker, Apply, ApprovalGoesOn, Approvable, Authorized, Backs, Bears, DecidedThenFlipped,
      DecisionOf, IsReceipt, LastNum, LeavesAlone, Linked, Run, Sound, StampedBefore, Trusted;
    longer, receipt := trace, None;
    ghost var e := DecisionOf(world.outbox.cfg, ctx, aid, presser, world.outbox.rows[aid]);
    ApprovalTakesTurn(world.outbox.cfg, trace, Step.Log(e), aid, presser, wid, plan.others, 7);
    if ctx.failing {
      return Err(AuditUnavailable), receipt, longer;
    }
    ghost var cfg, row := world.outbox.cfg, world.outbox.rows[aid];
    ghost var trusted := Trusted(cfg, ctx, world.S().audit);
    var appended;
    appended, longer := AppendThenWait(world, presser, aid, ctx, plan, base, longer);
    receipt := appended;
    if appended.None? {
      return Err(AuditUnavailable), receipt, longer;
    }
    ghost var s := world.S();
    mode := Flip(world, presser, aid, appended.value, row.cand, trusted);
    if mode == Ok(Stamped) {
      ghost var step := Step.Approve(aid, Some(cfg.via), Some(presser), Some(receipt.value));
      RunOne(cfg, base, longer, step);
      ApproveKeepsRest(cfg, s, aid, Some(cfg.via), Some(presser), Some(receipt.value));
      ApprovalTakesTurn(cfg, longer, step, aid, presser, wid, plan.others, 7);
      ApprovalGoesFurther(cfg, trace, longer, longer + [step], aid, presser, wid, plan.others);
      FlipFollows(cfg, trace, longer, e, step, aid, presser);
      longer := longer + [step];
    }
  }

  lemma FlipFollows(cfg: Config, trace: seq<Step>, longer: seq<Step>, e: Entry, step: Step, aid: nat, presser: string)
    requires trace + [Step.Log(e)] <= longer && IsFlip(cfg, step, aid, presser)
    ensures DecidedThenFlipped(cfg, trace, longer + [step], e, aid, presser)
  {
    var more := longer + [step];
    assert more[|trace|] == (trace + [Step.Log(e)])[|trace|] && more[|longer|] == step;
  }

  lemma ApproveKeepsRest(cfg: Config, s: State, aid: nat, via: Option<string>, approver: Option<string>,
                         receipt: Option<Receipt>)
    ensures var s' := Apply(cfg, s, Step.Approve(aid, via, approver, receipt));
            s'.workers == s.workers && s'.audit == s.audit && s'.now == s.now
  {
    hide ApproveTx;
  }

  lemma LogKeepsTime(cfg: Config, s: State, e: Entry)
    ensures Apply(cfg, s, Step.Log(e)).now == s.now
  {
  }

  lemma {:induction false} TimeOverRun(cfg: Config, s: State, trace: seq<Step>)
    ensures s.now <= Run(cfg, s, trace).now
    decreases |trace|
  {
    if trace != [] {
      TimeOverRun(cfg, s, trace[..|trace| - 1]);
      Monotone(cfg, Run(cfg, s, trace[..|trace| - 1]), trace[|trace| - 1]);
    }
  }

  /** `mcp_approve_or_redrive` on the tables is the machine's approve step, or no step at all. */
  method Flip(world: World, presser: string, aid: nat, receipt: Receipt, ghost cand: string, ghost backed: bool)
    returns (mode: Result<Mode, Refused>)
    requires world.Ready() && presser in world.outbox.cfg.approvers
    requires backed ==> Linked(world.outbox.cfg.hasher, world.S().audit)
                        && Backs(world.outbox.cfg, world.S().audit, receipt, aid, presser, cand)
    modifies world.outbox
    ensures world.Ready()
    ensures mode == Ok(Stamped) ==>
              world.S() == Apply(world.outbox.cfg, old(world.S()),
                                 Step.Approve(aid, Some(world.outbox.cfg.via), Some(presser), Some(receipt)))
    ensures mode != Ok(Stamped) ==> world.S() == old(world.S())
    ensures mode.Err? ==> mode.error == NotACandidate
    ensures var cfg, db := world.outbox.cfg, old(world.S()).db;
            && (mode.Ok? <==> Approvable(cfg, db, aid, cfg.via, presser, receipt))
            && (mode.Ok? ==>
                  aid in db.rows && (mode.value == Redrive <==> StampedBefore(db.rows[aid], cfg.via, presser)))
            && (mode == Ok(Stamped) ==> Bears(db.rows[aid], world.outbox.rows[aid], cfg.via, presser, receipt))
    ensures mode.Ok? ==> aid in world.outbox.rows
    ensures mode == Ok(Stamped) && backed ==> Accepted(world.outbox.cfg, aid, world.outbox.rows[aid], world.S().audit)
  {
    ghost var cfg, s := world.outbox.cfg, world.S();
    McpSucceedsIff(cfg, s.db, aid, cfg.via, presser, receipt);
    hide Approvable, Bears, StampedBefore;
    if McpTx(cfg, s.db, aid, cfg.via, presser, receipt).Ok? {
      McpIsGuardedApprove(cfg, s.db, aid, cfg.via, presser, receipt);
      if McpTx(cfg, s.db, aid, cfg.via, presser, receipt).value.1 == Stamped {
        StampedRow(cfg, s.db, aid, presser, receipt);
        if backed {
          BackedStampIsAccepted(cfg, s.db, s.audit, receipt, aid, presser, cand);
        }
      }
    }
    hide Accepted, Append, ApproveTx, Authorized, BackfillTx, Backs, DeferTx, EnqueueStep, ForgetApply,
      FreshlyApproved, LandStep, LeavesAlone, Linked, McpTx, ResurfaceTx, Run, SetStatusTx, Sound, Trusted,
      Unclaimed, WorkerApply;
    var done := world.outbox.McpApproveOrRedrive(aid, world.outbox.cfg.via, presser, receipt);
    mode := if done.Ok? then Ok(done.value) else Err(NotACandidate);
  }

  // ---------------------------------------------------------------- the calls

  function RefusalScript(ctx: Context): seq<Step> {
    if ctx.refusal.Some? then [Step.Log(ctx.refusal.value)] else []
  }

  /** A refusal is recorded if the log can be written; the caller is told either way. */
  method Refuse(world: World, ctx: Context, ghost base: State, ghost trace: seq<Step>)
    returns (ghost longer: seq<Step>)
    requires world.Ready() && world.S() == Run(world.outbox.cfg, base, trace)
    modifies world, world.outbox, world.log
    ensures world.Ready() && world.S() == Run(world.outbox.cfg, base, longer)
    ensures longer == trace + RefusalScript(ctx)
    ensures world.S().db == old(world.S()).db
  {
    hide Apply, Run, Sound;
    longer := trace;
    if ctx.refusal.Some? {
      RunOne(world.outbox.cfg, base, longer, Step.Log(ctx.refusal.value));
      LogOnlyAppends(world.outbox.cfg, world.S(), ctx.refusal.value);
      world.Perform(Step.Log(ctx.refusal.value));
      longer := longer + [Step.Log(ctx.refusal.value)];
    }
  }

  /** The decision is committed; then others may move before the flip. */
  function DecideScript(cfg: Config, ctx: Context, aid: nat, presser: string, row: QRow, plan: FinalizePlan)
    : seq<Step>
  {
    [Step.Log(DecisionOf(cfg, ctx, aid, presser, row))] + plan.others(7)
  }

  /** The flip, if the row was stamped, what others do then, and the finalize call. */
  ghost function RestScript(cfg: Config, base: State, decided: seq<Step>, aid: nat, presser: string, receipt: Receipt,
                            stamped: bool, wid: string, plan: FinalizePlan): seq<Step> {
    var flipped := Flipped(cfg, decided, aid, presser, receipt, stamped) + plan.others(8);
    flipped + FinalizeScript(cfg, Run(cfg, base, flipped), aid, wid, plan)
  }

  function Flipped(cfg: Config, decided: seq<Step>, aid: nat, presser: string, receipt: Receipt, stamped: bool)
    : seq<Step>
  {
    if stamped then decided + [Step.Approve(aid, Some(cfg.via), Some(presser), Some(receipt))] else decided
  }

  /** The tables as the flip finds them. */
  ghost function AtFlip(cfg: Config, base: State, ctx: Context, aid: nat, presser: string, plan: FinalizePlan): Db
    requires aid in base.db.rows
  {
    Run(cfg, base, DecideScript(cfg, ctx, aid, presser, base.db.rows[aid], plan)).db
  }

  /** The finalize call at the end answers an id. */
  ghost predicate EndsFinalized(cfg: Config, base: State, decided: seq<Step>, aid: nat, presser: string,
                                receipt: Receipt, stamped: bool, wid: string, plan: FinalizePlan) {
    Answers(cfg, Run(cfg, base, Flipped(cfg, decided, aid, presser, receipt, stamped) + plan.others(8)), aid, wid, plan)
  }

  /**
   Nobody else acts, the log and the store answer, the chain is intact, the hashes are digests, and
   the row is an unheld candidate that an event and a payload can be built from.
   */
  ghost predicate ApprovesAlone(cfg: Config, s: State, presser: string, aid: nat, ctx: Context, plan: FinalizePlan,
                                id: string) {
    && presser in cfg.approvers && presser != "" && cfg.via != "" && !ctx.failing && Trusted(cfg, ctx, s.audit)
    && Alone(plan.others) && plan.readable && plan.built && plan.fate == Lands
    && aid in s.db.rows
    && var row := s.db.rows[aid];
       && (row.status == Pending || row.status == PendingApproval) && (row.fin == Idle || row.fin == Failed)
       && cfg.payloadId(row.cand).Some? && cfg.contentHash(row.cand) == Some(id)
       && HexDigest(cfg.fingerprint(row.cand))
       && HexDigest(Append(cfg.hasher, s.audit, DecisionOf(cfg, ctx, aid, presser, row))[|s.audit|].hash)
  }

  /**
   `approve`. The call is a run of the protocol: appends to the log, its own flip, its own finalizer,
   and whatever others do as planned. The queue is untouched unless the presser is an authorized
   approver; the flip comes only after the decision is committed to the log, and succeeds exactly on
   a row that is approvable when it comes; what this call stamped passes the finalizer's gates for as
   long as the row exists; each refusal is answered exactly when it should be, and an id exactly when
   the finalize call answers one. Left alone, with everything in order, the candidate is stamped,
   written and finalized, and its id answered.
   */
  method Approve(world: World, presser: Option<string>, aid: nat, ctx: Context, wid: string, plan: FinalizePlan)
    returns (r: Result<string, Refused>, ghost receipt: Option<Receipt>, ghost stamped: bool, ghost trace: seq<Step>)
    requires world.Ready() && wid !in world.workers && wid != RTBF_WORKER && plan.t0 <= world.now
    requires LeavesAlone(plan.others, wid)
    modifies world, world.outbox, world.log
    ensures world.Ready() && world.S() == Run(world.outbox.cfg, old(world.S()), trace)
    ensures ApprovalGoesOn(world.outbox.cfg, [], trace, aid, if presser.Some? then presser.value else "", wid,
            plan.others)
    ensures r == Err(NotAuthorized) <==> !Authorized(world.outbox.cfg, presser)
    ensures r == Err(NotAuthorized) || ctx.failing ==> world.S().db == old(world.S()).db
    ensures receipt.Some? <==> Authorized(world.outbox.cfg, presser) && aid in old(world.outbox.rows)
                               && !ctx.failing && LastNum(old(world.log.rows)) >= 0
    ensures r == Err(AuditUnavailable) <==> Authorized(world.outbox.cfg, presser) && aid in old(world.outbox.rows)
                                            && receipt.None?
    ensures receipt.None? ==> r.Err? && !stamped
    ensures r == Err(NotAuthorized) || (r == Err(NotACandidate) && receipt.None?) ==> trace == RefusalScript(ctx)
    ensures r == Err(AuditUnavailable) && ctx.failing ==> trace == [] && world.S() == old(world.S())
    ensures r == Err(NotACandidate) && receipt.None? <==>
              Authorized(world.outbox.cfg, presser) && aid !in old(world.outbox.rows)
    ensures receipt.Some? ==>
              var cfg, base, name := world.outbox.cfg, old(world.S()), presser.value;
              var row, db := base.db.rows[aid], AtFlip(cfg, base, ctx, aid, name, plan);
              var decided := DecideScript(cfg, ctx, aid, name, row, plan);
              && IsReceipt(cfg, base.audit, DecisionOf(cfg, ctx, aid, name, row), row.cand, receipt.value)
              && (r == Err(NotACandidate) <==> !Approvable(cfg, db, aid, cfg.via, name, receipt.value))
              && (stamped <==> Approvable(cfg, db, aid, cfg.via, name, receipt.value)
                               && !StampedBefore(db.rows[aid], cfg.via, name))
              && (r != Err(NotACandidate) ==>
                    && trace == RestScript(cfg, base, decided, aid, name, receipt.value, stamped, wid, plan)
                    && (r.Ok? <==> EndsFinalized(cfg, base, decided, aid, name, receipt.value, stamped, wid, plan)))
    ensures stamped ==>
              && presser.Some? && aid in old(world.outbox.rows) && receipt.Some?
              && var cfg, base, name := world.outbox.cfg, old(world.S()), presser.value;
                 var decided := DecideScript(cfg, ctx, aid, name, base.db.rows[aid], plan);
                 var after := Run(cfg, base, Flipped(cfg, decided, aid, name, receipt.value, true)).db;
                 && DecidedThenFlipped(cfg, [], trace, DecisionOf(cfg, ctx, aid, name, base.db.rows[aid]), aid, name)
                 && aid in AtFlip(cfg, base, ctx, aid, name, plan).rows && aid in after.rows
                 && Bears(AtFlip(cfg, base, ctx, aid, name, plan).rows[aid], after.rows[aid], cfg.via, name,
                          receipt.value)
    ensures r.Ok? ==> aid in world.outbox.rows && world.outbox.rows[aid].fin == Finalized
                      && world.outbox.rows[aid].durable == Some(r.value)
    ensures stamped && Trusted(world.outbox.cfg, ctx, old(world.S()).audit) && aid in world.outbox.rows
            ==> Accepted(world.outbox.cfg, aid, world.outbox.rows[aid], world.S().audit)
    ensures forall id | presser.Some?
                        && ApprovesAlone(world.outbox.cfg, old(world.S()), presser.value, aid, ctx, plan, id) ::
              && stamped
              && (id !in old(world.store) ==>
                    && r == Ok(id) && Achieved(world.S(), aid, id)
                    && world.store.Keys == old(world.store).Keys + {id})
              && (MarkerHits(old(world.S()), aid) == {id} && plan.found(0) ==>
                    r == Ok(id) && Achieved(world.S(), aid, id) && world.store == old(world.store))
  {
    hide Accepted, Achieved, ActsAsWorker, Answers, Apply, ApprovalGoesOn, Approvable, ApprovesAlone, Bears,
      DecidedThenFlipped, DecisionOf, FinalizeScript, From, IsReceipt, LastNum, LeavesAlone, Linked, MarkerHits, Run,
      Sound, StampedBefore, Trusted, Undisturbed;
    ghost var cfg, base := world.outbox.cfg, world.S();
    ghost var name := if presser.Some? then presser.value else "";
    receipt, stamped, trace := None, false, [];
    EmptyRun(cfg, base);
    if presser.None? || presser.value !in world.outbox.cfg.approvers {
      NobodyApproves(cfg, base, name, aid, ctx, plan);
      trace := Refuse(world, ctx, base, trace);
      RefusedApprovalGoesOn(cfg, trace, aid, name, wid, plan.others);
      return Err(NotAuthorized), receipt, stamped, trace;
    }
    if aid !in world.outbox.rows {
      NobodyApproves(cfg, base, name, aid, ctx, plan);
      trace := Refuse(world, ctx, base, trace);
      RefusedApprovalGoesOn(cfg, trace, aid, name, wid, plan.others);
      return Err(NotACandidate), receipt, stamped, trace;
    }
    OthersAreQuiet(plan.others, wid, 7);
    ghost var e := DecisionOf(cfg, ctx, aid, name, base.db.rows[aid]);
    assert [] + [Step.Log(e)] + plan.others(7) == DecideScript(cfg, ctx, aid, name, base.db.rows[aid], plan);
    var mode;
    mode, receipt, trace := AppendAndFlip(world, presser.value, aid, ctx, plan, base, trace, wid);
    ghost var s := world.S();
    forall id | ApprovesAlone(cfg, base, name, aid, ctx, plan, id)
      ensures mode == Ok(Stamped) && Undisturbed(cfg, s, aid, plan, id) && s.store == base.store
      ensures MarkerHits(s, aid) == MarkerHits(base, aid)
    {
      AloneIsStamped(cfg, base, s, name, aid, ctx, plan, id, mode, receipt, trace);
      SameHits(s, base, aid);
    }
    if mode.Err? {
      return Err(mode.error), receipt, stamped, trace;
    }
    stamped := mode.value == Stamped;
    ghost var flipped := trace;
    var id;
    id, trace := WaitThenFinalize(world, aid, wid, plan, base, trace, name);
    ApprovalGoesFurther(cfg, [], flipped, trace, aid, name, wid, plan.others);
    if stamped {
      ApprovalKeepsPrefix(cfg, flipped, trace, aid, name, wid, plan.others);
      StaysDecided(cfg, [], flipped, trace, DecisionOf(cfg, ctx, aid, name, base.db.rows[aid]), aid, name);
    }
    r := if id.Some? then Ok(id.value) else Err(NotFinalized);
  }

  lemma SameHits(s: State, s': State, aid: nat)
    requires s.store == s'.store
    ensures MarkerHits(s, aid) == MarkerHits(s', aid)
  {
  }

  lemma NobodyApproves(cfg: Config, s: State, name: string, aid: nat, ctx: Context, plan: FinalizePlan)
    requires name == "" || name !in cfg.approvers || aid !in s.db.rows
    ensures forall id :: !ApprovesAlone(cfg, s, name, aid, ctx, plan, id)
  {
  }

  /** Left alone, the flip stamps the row, and what it leaves is ready to be finalized. */
  lemma AloneIsStamped(cfg: Config, base: State, s: State, name: string, aid: nat, ctx: Context, plan: FinalizePlan,
                       id: string, mode: Result<Mode, Refused>, receipt: Option<Receipt>, trace: seq<Step>)
    requires ApprovesAlone(cfg, base, name, aid, ctx, plan, id) && s == Run(cfg, base, trace)
    requires mode == Err(AuditUnavailable) <==> receipt.None?
    requires receipt.None? <==> ctx.failing || LastNum(base.audit) < 0
    requires receipt.Some? ==>
               var e := DecisionOf(cfg, ctx, aid, name, base.db.rows[aid]);
               && IsReceipt(cfg, base.audit, e, base.db.rows[aid].cand, receipt.value)
               && FlippedSo(cfg, Run(cfg, base, [] + [Step.Log(e)] + plan.others(7)).db, aid, name, mode,
                            receipt.value, s.db)
               && trace == FlipScript([] + [Step.Log(e)] + plan.others(7), cfg, aid, name, receipt.value, mode)
    requires mode == Ok(Stamped) && Trusted(cfg, ctx, base.audit) ==>
               aid in s.db.rows && Accepted(cfg, aid, s.db.rows[aid], s.audit)
    ensures mode == Ok(Stamped) && Undisturbed(cfg, s, aid, plan, id) && s.store == base.store
  {
    var e := DecisionOf(cfg, ctx, aid, name, base.db.rows[aid]);
    AloneAt(plan.others, 7);
    assert [] + [Step.Log(e)] + plan.others(7) == [Step.Log(e)];
    LinkedLogCounts(cfg, base.audit);
    LoggedState(cfg, base, e);
    AloneIsApprovable(cfg, base, name, aid, ctx, plan, id, receipt.value);
    var flip := Step.Approve(aid, Some(cfg.via), Some(name), Some(receipt.value));
    RunOne(cfg, base, [Step.Log(e)], flip);
    ApproveKeepsStore(cfg, Run(cfg, base, [Step.Log(e)]), flip);
    BornIsFree(cfg, base, s, name, aid, ctx, plan, id, receipt.value);
    hide *;
  }

  lemma LinkedLogCounts(cfg: Config, audit: seq<Row>)
    requires Linked(cfg.hasher, audit)
    ensures LastNum(audit) == |audit|
  {
    if audit != [] {
      LinkedUpto(cfg.hasher, audit, |audit|);
      assert LinkedAt(cfg.hasher, audit, |audit| - 1);
    }
  }

  lemma LoggedState(cfg: Config, base: State, e: Entry)
    ensures var s := Run(cfg, base, [Step.Log(e)]);
            s.db == base.db && s.store == base.store
  {
    assert [Step.Log(e)] == [] + [Step.Log(e)] && Run(cfg, base, []) == base;
    RunOne(cfg, base, [], Step.Log(e));
    LogOnlyAppends(cfg, base, e);
    LogKeepsStore(cfg, base, e);
  }

  lemma AloneIsApprovable(cfg: Config, base: State, name: string, aid: nat, ctx: Context, plan: FinalizePlan,
                          id: string, receipt: Receipt)
    requires ApprovesAlone(cfg, base, name, aid, ctx, plan, id)
    requires IsReceipt(cfg, base.audit, DecisionOf(cfg, ctx, aid, name, base.db.rows[aid]), base.db.rows[aid].cand,
                       receipt)
    ensures Approvable(cfg, base.db, aid, cfg.via, name, receipt)
    ensures !StampedBefore(base.db.rows[aid], cfg.via, name)
  {
    hide Append, DecisionOf, HexDigest, Linked;
  }

  lemma BornIsFree(cfg: Config, base: State, s: State, name: string, aid: nat, ctx: Context, plan: FinalizePlan,
                   id: string, receipt: Receipt)
    requires ApprovesAlone(cfg, base, name, aid, ctx, plan, id)
    requires aid in s.db.rows && Bears(base.db.rows[aid], s.db.rows[aid], cfg.via, name, receipt)
    requires Accepted(cfg, aid, s.db.rows[aid], s.audit)
    ensures Undisturbed(cfg, s, aid, plan, id)
  {
    hide Accepted, Append, DecisionOf, HexDigest, Linked;
  }

  lemma LogKeepsStore(cfg: Config, s: State, e: Entry)
    ensures Apply(cfg, s, Step.Log(e)).store == s.store
  {
  }

  lemma ApproveKeepsStore(cfg: Config, s: State, step: Step)
    requires step.Approve?
    ensures Apply(cfg, s, step).store == s.store
  {
    hide ApproveTx;
  }

  lemma EmptyRun(cfg: Config, s: State)
    ensures Run(cfg, s, []) == s
  {
  }

  lemma ApprovalKeepsPrefix(cfg: Config, trace: seq<Step>, longer: seq<Step>, aid: nat, presser: string, wid: string,
                      others: int -> seq<Step>)
    requires ApprovalGoesOn(cfg, trace, longer, aid, presser, wid, others)
    ensures trace <= longer
  {
  }

  lemma RefusedApprovalGoesOn(cfg: Config, trace: seq<Step>, aid: nat, presser: string, wid: string,
                              others: int -> seq<Step>)
    requires trace == [] || exists e :: trace == [Step.Log(e)]
    ensures ApprovalGoesOn(cfg, [], trace, aid, presser, wid, others)
  {
  }

  lemma OthersAreQuiet(others: int -> seq<Step>, wid: string, turn: int)
    requires LeavesAlone(others, wid)
    ensures !ActsAsWorker(others(turn), wid) && forall k | 0 <= k < |others(turn)| :: !others(turn)[k].HandEdit?
  {
  }

  /** After the flip others may move again; then the row is finalized. */
  method WaitThenFinalize(world: World, aid: nat, wid: string, plan: FinalizePlan, ghost base: State,
                          ghost trace: seq<Step>, ghost presser: string)
    returns (id: Option<string>, ghost longer: seq<Step>)
    requires world.Ready() && world.S() == Run(world.outbox.cfg, base, trace)
    requires wid !in world.workers && wid != RTBF_WORKER && plan.t0 <= world.now && LeavesAlone(plan.others, wid)
    modifies world, world.outbox, world.log
    ensures world.Ready() && world.S() == Run(world.outbox.cfg, base, longer)
    ensures ApprovalGoesOn(world.outbox.cfg, trace, longer, aid, presser, wid, plan.others)
    ensures id.Some? ==> aid in world.outbox.rows && world.outbox.rows[aid].fin == Finalized
                         && world.outbox.rows[aid].durable == id
    ensures var s := Run(world.outbox.cfg, base, trace + plan.others(8));
            && longer == trace + plan.others(8) + FinalizeScript(world.outbox.cfg, s, aid, wid, plan)
            && (id.Some? <==> Answers(world.outbox.cfg, s, aid, wid, plan))
    ensures forall x | Undisturbed(world.outbox.cfg, old(world.S()), aid, plan, x) ::
              && (x !in old(world.store) ==>
                    && id == Some(x) && Achieved(world.S(), aid, x)
                    && world.store.Keys == old(world.store).Keys + {x})
              && (MarkerHits(old(world.S()), aid) == {x} && plan.found(0) ==>
                    id == Some(x) && Achieved(world.S(), aid, x) && world.store == old(world.store))
    ensures var s := old(world.S());
            Linked(world.outbox.cfg.hasher, s.audit) && aid in s.db.rows
            && Accepted(world.outbox.cfg, aid, s.db.rows[aid], s.audit) && aid in world.outbox.rows
            ==> Accepted(world.outbox.cfg, aid, world.outbox.rows[aid], world.S().audit)
  {
    hide Accepted, Achieved, ActsAsForget, ActsAsWorker, Answers, Apply, FinalizeScript, From, ApprovalGoesOn,
      LeavesAlone, Linked, MarkerHits, Run, Sound, Undisturbed;
    ghost var cfg, s := world.outbox.cfg, world.S();
    forall x | Undisturbed(cfg, s, aid, plan, x) ensures plan.others(8) == [] {
      UndisturbedIsAlone(cfg, s, aid, plan, x, 8);
    }
    assert Sound(s.db);
    OthersAreQuiet(plan.others, wid, 8);
    longer := world.Interleave(plan.others(8), base, trace);
    RunConcat(cfg, base, trace, plan.others(8));
    TimeOverRun(cfg, s, plan.others(8));
    ghost var call;
    id, call := FinalizeApprovedCandidate(world, aid, wid, plan);
    RunConcat(cfg, base, longer, call);
    StampSurvives(cfg, s, plan.others(8), call, aid, wid, plan.others);
    WaitingApprovalGoesOn(cfg, trace, call, aid, presser, wid, plan.others);
    longer := longer + call;
  }

  lemma UndisturbedIsAlone(cfg: Config, s: State, aid: nat, plan: FinalizePlan, id: string, turn: int)
    requires Undisturbed(cfg, s, aid, plan, id)
    ensures plan.others(turn) == []
  {
  }

  lemma WaitingApprovalGoesOn(cfg: Config, trace: seq<Step>, call: seq<Step>, aid: nat, presser: string, wid: string,
                              others: int -> seq<Step>)
    requires From(call, wid, others)
    ensures ApprovalGoesOn(cfg, trace, trace + others(8) + call, aid, presser, wid, others)
  {
    var middle := trace + others(8);
    assert forall k | 0 <= k < |others(8)| :: others(8)[k] in others(8);
    assert ApprovalGoesOn(cfg, trace, middle, aid, presser, wid, others);
    hide ApprovalGoesOn, From;
    ApprovalMakesCall(cfg, middle, call, aid, presser, wid, others);
    ApprovalGoesFurther(cfg, trace, middle, middle + call, aid, presser, wid, others);
  }

  /** What passed the gates still does after the wait and the call, if it is still there. */
  lemma StampSurvives(cfg: Config, s: State, wait: seq<Step>, call: seq<Step>, aid: nat, wid: string,
                      others: int -> seq<Step>)
    requires Sound(s.db) && From(call, wid, others) && LeavesAlone(others, wid)
    requires forall k | 0 <= k < |wait| :: !wait[k].HandEdit?
    ensures var s' := Run(cfg, Run(cfg, s, wait), call);
            Linked(cfg.hasher, s.audit) && aid in s.db.rows && Accepted(cfg, aid, s.db.rows[aid], s.audit)
            && aid in s'.db.rows
            ==> Accepted(cfg, aid, s'.db.rows[aid], s'.audit)
  {
    hide Accepted, From, LeavesAlone, Linked, Sound;
    NoHandEdits(call, wid, others);
    RunConcat(cfg, s, wait, call);
    hide Run;
    if aid in s.db.rows && Linked(cfg.hasher, s.audit) && Accepted(cfg, aid, s.db.rows[aid], s.audit) {
      AcceptedOverRun(cfg, s, wait + call, aid);
    }
  }

  lemma NoHandEdits(trace: seq<Step>, wid: string, others: int -> seq<Step>)
    requires From(trace, wid, others) && LeavesAlone(others, wid)
    ensures forall k | 0 <= k < |trace| :: !trace[k].HandEdit?
  {
    forall k | 0 <= k < |trace| ensures !trace[k].HandEdit? {
      if i :| trace[k] in others(i) {
        assert !ActsAsWorker(others(i), wid);
      }
    }
  }

  /**
   `reject`: recorded first, then flipped, with others in between. It succeeds exactly when, at the
   moment of the flip, an awaiting row is there that no finalizer or forget holds.
   */
  method Reject(world: World, presser: Option<string>, aid: nat, ctx: Context, others: seq<Step>)
    returns (r: Result<(), Refused>, ghost before: State, ghost trace: seq<Step>)
    requires world.Ready() && forall k | 0 <= k < |others| :: !others[k].HandEdit?
    modifies world, world.outbox, world.log
    ensures world.Ready() && world.S() == Run(world.outbox.cfg, old(world.S()), trace)
    ensures r == Err(NotAuthorized) <==> !Authorized(world.outbox.cfg, presser)
    ensures r == Err(NotAuthorized) ==>
              trace == RefusalScript(ctx) && world.S().db == old(world.S()).db
    ensures Authorized(world.outbox.cfg, presser) && ctx.failing ==>
              r == Err(AuditUnavailable) && trace == [] && world.S() == old(world.S())
    ensures Authorized(world.outbox.cfg, presser) && !ctx.failing ==>
              var recorded := [Step.Log(RejectionOf(world.outbox.cfg, ctx, aid, presser.value))] + others;
              && trace == recorded + [SetStatus(aid, Rejected)]
              && before == Run(world.outbox.cfg, old(world.S()), recorded)
              && (r.Ok? <==> aid in before.db.rows && Awaits(before.db.rows[aid]))
              && (r.Ok? ==> aid in world.outbox.rows && world.outbox.rows[aid].status == Rejected)
              && (r.Err? ==> r == Err(NotACandidate) && world.S() == before)
  {
    hide ActsAsForget, ActsAsWorker, Append, Apply, RejectionOf, Run, SendStep, SetStatusTx, Settable, Sound,
      WriteStep;
    ghost var base, cfg := world.S(), world.outbox.cfg;
    trace, before := [], base;
    EmptyRun(cfg, base);
    if presser.None? || presser.value !in world.outbox.cfg.approvers {
      trace := Refuse(world, ctx, base, trace);
      return Err(NotAuthorized), before, trace;
    }
    if ctx.failing {
      return Err(AuditUnavailable), before, trace;
    }
    var entry := RejectionOf(world.outbox.cfg, ctx, aid, presser.value);
    RunOne(cfg, base, [], Step.Log(entry));
    assert [] + [Step.Log(entry)] == [Step.Log(entry)];
    world.Perform(Step.Log(entry));
    trace := world.Interleave(others, base, [Step.Log(entry)]);
    before := world.S();
    RunOne(cfg, base, trace, SetStatus(aid, Rejected));
    RejectFlips(cfg, before, aid);
    SettableIff(before.db, aid);
    var changed := world.outbox.UpdateApprovalStatus(aid, Rejected);
    trace := trace + [SetStatus(aid, Rejected)];
    r := if changed == 0 then Err(NotACandidate) else Ok(());
  }

  lemma RejectFlips(cfg: Config, s: State, aid: nat)
    ensures Apply(cfg, s, SetStatus(aid, Rejected)) == s.(db := SetStatusTx(s.db, aid, Rejected))
    ensures Settable(s.db, aid) ==> aid in SetStatusTx(s.db, aid, Rejected).rows
                                    && SetStatusTx(s.db, aid, Rejected).rows[aid].status == Rejected
    ensures !Settable(s.db, aid) ==> SetStatusTx(s.db, aid, Rejected) == s.db
  {
  }
}
