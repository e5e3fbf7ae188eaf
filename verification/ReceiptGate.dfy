/**
 Receipt-gated durability, over every run whatever: crashes, stalls, forgets, unreadable audit
 databases, and arbitrary hand edits of the queue. Whatever store row was written for an
 approval, a chain-verified receipt for exactly the bytes written was committed before the
 claim that led to the write.
 */
module ReceiptGate {
  import opened Basics
  import opened AuditChain
  import opened Queue
  import opened QueueLaws
  import opened Protocol
  import opened ProtocolFrames

  /** Row `num` of the log approves exactly these bytes for this approval, and predates length `logLength`. */
  ghost predicate Receipted(cfg: Config, audit: seq<Row>, aid: nat, cand: string, num: int, author: Option<string>,
                            logLength: nat) {
    && 1 <= num <= logLength <= |audit|
    && var e := audit[num - 1].content.entry;
       && e.op in DECISION_OPS
       && e.target == OfApproval(aid)
       && e.tenant == cfg.tenant
       && Lookup(e.details, "decision") == Some("approve")
       && Lookup(e.details, "approved_via") == Some(cfg.via)
       && Lookup(e.details, "approved_by").Some? && Lookup(e.details, "approved_by").value in cfg.approvers
       && Lookup(e.details, "candidate_sha256") == Some(cfg.fingerprint(cand))
       && author == Clean(cfg, Lookup(e.details, "proposed_by_profile"))
  }

  ghost predicate WorkerReceipted(cfg: Config, audit: seq<Row>, w: Worker) {
    Receipted(cfg, audit, w.aid, w.cand, w.receipt, w.author, w.logLength)
  }

  ghost predicate MarkReceipted(cfg: Config, audit: seq<Row>, m: Mark) {
    Receipted(cfg, audit, m.aid, m.cand, m.receipt, m.author, m.logLength)
  }

  ghost predicate ReceiptInv(cfg: Config, s: State) {
    && Linked(cfg.hasher, s.audit)
    && (forall wid | wid in s.workers :: WorkerReceipted(cfg, s.audit, s.workers[wid]))
    && (forall id | id in s.store && s.store[id].mark.Some? ::
          && MarkReceipted(cfg, s.audit, s.store[id].mark.value)
          && cfg.contentHash(s.store[id].mark.value.cand) == Some(id))
    && (forall post | post in s.posts ::
          MarkReceipted(cfg, s.audit, post.mark) && cfg.contentHash(post.mark.cand) == Some(post.id))
  }

  /** A claim is granted only on a verified receipt for the bytes the worker takes away. */
  lemma ClaimIsReceipted(cfg: Config, db: Db, audit: seq<Row>, readable: bool, aid: nat, t0: int)
    requires Linked(cfg.hasher, audit) && GateDecision(cfg, db, audit, readable, aid, t0).Claimed?
    ensures var c := GateDecision(cfg, db, audit, readable, aid, t0);
            Receipted(cfg, audit, aid, c.cand, c.num, Author(cfg, audit, c.num), |audit|)
  {
    UptoIsPrefixOfLinked(cfg, audit, db.rows[aid].rnum.value);
  }

  /** Steps never rewrite the log, and each keeps its chain. */
  lemma LogOnlyGrows(cfg: Config, s: State, step: Step)
    requires Linked(cfg.hasher, s.audit)
    ensures Linked(cfg.hasher, Apply(cfg, s, step).audit) && s.audit <= Apply(cfg, s, step).audit
  {
    if step.Log? {
      AppendKeepsChain(cfg.hasher, s.audit, step.entry);
    } else if !step.Backfill? {
      hide *;
      Frames(cfg, s, step);
    } else if step.aid in s.db.rows && BackfillReady(s.db.rows[step.aid], step.inspection) {
      AppendKeepsChain(cfg.hasher, s.audit,
                       BackfillEntry(cfg, step.aid, s.db.rows[step.aid], step.inspection, step.ts, step.principal,
                                     step.tenant));
    }
  }

  lemma ReceiptInvStep(cfg: Config, s: State, step: Step)
    requires ReceiptInv(cfg, s)
    ensures ReceiptInv(cfg, Apply(cfg, s, step))
  {
    hide Apply, Receipted, Linked;
    var s' := Apply(cfg, s, step);
    LogOnlyGrows(cfg, s, step);
    forall wid | wid in s'.workers ensures WorkerReceipted(cfg, s'.audit, s'.workers[wid]) {
      WorkerStaysReceipted(cfg, s, step, wid);
    }
    forall id | id in s'.store && s'.store[id].mark.Some?
      ensures MarkReceipted(cfg, s'.audit, s'.store[id].mark.value)
      ensures cfg.contentHash(s'.store[id].mark.value.cand) == Some(id)
    {
      MarksPersist(cfg, s, step, id);
      MarkStaysReceipted(cfg, s, s', s'.store[id].mark.value);
    }
    forall post | post in s'.posts
      ensures MarkReceipted(cfg, s'.audit, post.mark) && cfg.contentHash(post.mark.cand) == Some(post.id)
    {
      PostsPersist(cfg, s, step, post);
      MarkStaysReceipted(cfg, s, s', post.mark);
    }
  }

  /** A longer log still receipts what it did. */
  lemma MarkStaysReceipted(cfg: Config, s: State, s': State, m: Mark)
    requires s.audit <= s'.audit && MarkReceipted(cfg, s.audit, m)
    ensures MarkReceipted(cfg, s'.audit, m)
  {
  }

  lemma WorkerStaysReceipted(cfg: Config, s: State, step: Step, wid: string)
    requires ReceiptInv(cfg, s) && wid in Apply(cfg, s, step).workers && s.audit <= Apply(cfg, s, step).audit
    ensures WorkerReceipted(cfg, Apply(cfg, s, step).audit, Apply(cfg, s, step).workers[wid])
  {
    hide Apply, Linked;
    WorkersPersist(cfg, s, step, wid);
    if Claims(cfg, s, step) && step.wid == wid {
      ClaimIsReceipted(cfg, s.db, s.audit, step.readable, step.aid, step.t0);
    }
  }

  lemma {:induction false} ReceiptInvHolds(cfg: Config, s: State, steps: seq<Step>)
    requires Initial(cfg, s)
    ensures ReceiptInv(cfg, Run(cfg, s, steps))
    decreases |steps|
  {
    if steps != [] {
      var front, last := steps[..|steps| - 1], steps[|steps| - 1];
      ReceiptInvHolds(cfg, s, front);
      ReceiptInvStep(cfg, Run(cfg, s, front), last);
    }
  }

  /**
   Receipt-gated durability: any marked store row of any reachable state was written from
   candidate bytes whose approval is row `receipt` of a log valid from genesis through it;
   that row was already in the log when the writing worker claimed the approval.
   */
  lemma ReceiptGatedDurability(cfg: Config, s: State, steps: seq<Step>, id: string)
    requires Initial(cfg, s)
    requires id in Run(cfg, s, steps).store && Run(cfg, s, steps).store[id].mark.Some?
    ensures var s' := Run(cfg, s, steps);
            var m := s'.store[id].mark.value;
            && cfg.contentHash(m.cand) == Some(id)
            && MarkReceipted(cfg, s'.audit, m)
            && ValidThrough(cfg.hasher, s'.audit, m.receipt)
            && Verdict(cfg.hasher, s'.audit, m.receipt) == Some(s'.audit[m.receipt - 1])
  {
    ReceiptInvHolds(cfg, s, steps);
    var s' := Run(cfg, s, steps);
    LinkedUpto(cfg.hasher, s'.audit, s'.store[id].mark.value.receipt);
  }
}
