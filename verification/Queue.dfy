/**
 The approval queue and its event table (panella/client_raw.py, panella/client.py,
 panella/approval_finalizer.py): one function per database transaction. Each function
 maps the tables before the transaction to the tables after it; a transaction that the
 source rolls back returns an error and leaves the tables alone.
 */
module Queue {
  import opened Basics
  import opened AuditChain

  const STALE_TTL: int := 300

  /** The worker id that a forget writes into the rows it claims. */
  const RTBF_WORKER: string := "rtbf"

  datatype Status = Pending | PendingApproval | Deferred | Approved | Rejected

  /** `Idle` stands for both NULL and 'none'. */
  datatype Finalizer = Idle | Finalizing | Finalized | Failed | RtbfDeleting

  datatype Receipt = Receipt(num: int, hash: Hash, sha: string)

  datatype QRow = QRow(
    cand: string, status: Status, expires: Option<int>, event: Option<nat>,
    via: Option<string>, approver: Option<string>,
    rnum: Option<int>, rhash: Option<Hash>, sha: Option<string>,
    fin: Finalizer, worker: Option<string>, claimedAt: Option<int>,
    durable: Option<string>, proposer: Option<string>)

  /** `identity` is the drawer id the payload names; `completed` the store id it was recorded under. */
  datatype Event = Event(source: nat, identity: Option<string>, completed: Option<string>)

  datatype Db = Db(rows: map<nat, QRow>, events: map<nat, Event>, nextRow: nat, nextEvent: nat)

  /** The deployment, and the deterministic functions of candidate bytes the code computes. */
  datatype Config = Config(
    approvers: set<string>, via: string, tenant: string,
    hasher: Hasher,
    fingerprint: string -> string,
    contentHash: string -> Option<string>,   // None: no durable payload can be built
    payloadId: string -> Option<string>,     // None: not a JSON object; approving raises
    memoryId: string -> Option<string>,      // the drawer id a candidate was enqueued under
    clean: string -> Option<string>)         // the typed read of a proposer name

  const EMPTY_DB: Db := Db(map[], map[], 1, 1)

  function Lookup(m: map<string, string>, k: string): Option<string> {
    if k in m then Some(m[k]) else None
  }

  function Clean(cfg: Config, v: Option<string>): Option<string> {
    if v.Some? then cfg.clean(v.value) else None
  }

  function WithRow(db: Db, aid: nat, row: QRow): Db {
    db.(rows := db.rows[aid := row])
  }

  // ---------------------------------------------------------------- enqueue and decide

  function EnqueueTx(db: Db, cand: string, proposer: Option<string>): Db {
    var row := QRow(cand, PendingApproval, None, None, None, None, None, None, None, Idle, None, None, None, proposer);
    db.(rows := db.rows[db.nextRow := row], nextRow := db.nextRow + 1)
  }

  datatype ApproveError = NoSuchRow | BytesChanged | NotApprovable | Unparsable | Unprovenanced | BadReceipt | LiveClaim

  predicate Unclaimed(f: Finalizer) {
    f == Idle || f == Failed
  }

  predicate Awaiting(s: Status) {
    s == Pending || s == PendingApproval || s == Deferred
  }

  /** Provenance and receipt are each stamped only if missing; a receipt once set is immutable. */
  function Reapproved(row: QRow, via: Option<string>, approver: Option<string>, receipt: Option<Receipt>): QRow {
    var row1 := if via.Some? && row.via.None? then row.(via := via, approver := approver) else row;
    if receipt.Some? && row1.rnum.None?
    then row1.(rnum := Some(receipt.value.num), rhash := Some(receipt.value.hash), sha := Some(receipt.value.sha))
    else row1
  }

  /** A fresh approval overwrites provenance and receipt, clearing anything planted beforehand. */
  function FreshlyApproved(row: QRow, event: nat, via: Option<string>, approver: Option<string>,
                           receipt: Option<Receipt>): QRow {
    row.(status := Approved, event := Some(event), via := via, approver := approver,
         rnum := if receipt.Some? then Some(receipt.value.num) else None,
         rhash := if receipt.Some? then Some(receipt.value.hash) else None,
         sha := if receipt.Some? then Some(receipt.value.sha) else None)
  }

  /** `_approve_in_conn`: the tables after it and the event id, or the error that rolls it back. */
  function ApproveTx(cfg: Config, db: Db, aid: nat, via: Option<string>, approver: Option<string>,
                     receipt: Option<Receipt>): Result<(Db, nat), ApproveError> {
    if aid !in db.rows then Err(NoSuchRow)
    else
      var row := db.rows[aid];
      if receipt.Some? && cfg.fingerprint(row.cand) != receipt.value.sha then Err(BytesChanged)
      else if row.status == Approved && row.event.Some? && row.event.value != 0 then
        Ok((WithRow(db, aid, Reapproved(row, via, approver, receipt)), row.event.value))
      else if !Awaiting(row.status) then Err(NotApprovable)
      else if cfg.payloadId(row.cand).None? then Err(Unparsable)
      else
        var event := Event(aid, cfg.payloadId(row.cand), None);
        var db1 := db.(events := db.events[db.nextEvent := event], nextEvent := db.nextEvent + 1);
        Ok((WithRow(db1, aid, FreshlyApproved(row, db.nextEvent, via, approver, receipt)), db.nextEvent))
  }

  datatype Mode = Stamped | Redrive

  /** Sixty-four lower-case hexadecimal digits. */
  predicate IsDigest(text: string) {
    |text| == 64 && forall i | 0 <= i < |text| :: '0' <= text[i] <= '9' || 'a' <= text[i] <= 'f'
  }

  /** `_require_receipt`. */
  predicate WellFormed(receipt: Receipt) {
    receipt.num >= 1 && IsDigest(receipt.hash) && IsDigest(receipt.sha)
  }

  /** `mcp_approve_or_redrive`: stamp an awaiting row, or let a stuck row be finalized again. */
  function McpTx(cfg: Config, db: Db, aid: nat, via: string, approver: string,
                 receipt: Receipt): Result<(Db, Mode), ApproveError> {
    if via == "" || approver == "" then Err(Unprovenanced)
    else if !WellFormed(receipt) then Err(BadReceipt)
    else if aid !in db.rows then Err(NoSuchRow)
    else
      var row := db.rows[aid];
      if row.status == Approved && row.via == Some(via) && row.approver == Some(approver) && Unclaimed(row.fin) then
        Ok((db, Redrive))
      else if row.status != Pending && row.status != PendingApproval then Err(NotApprovable)
      else if !Unclaimed(row.fin) then Err(LiveClaim)
      else
        match ApproveTx(cfg, db, aid, Some(via), Some(approver), Some(receipt))
        case Ok(done) => Ok((done.0, Stamped))
        case Err(e) => Err(e)
  }

  predicate Settable(db: Db, aid: nat) {
    aid in db.rows && Awaiting(db.rows[aid].status) && Unclaimed(db.rows[aid].fin)
  }

  /** `update_approval_status`, for `Rejected` and `Pending`. */
  function SetStatusTx(db: Db, aid: nat, status: Status): Db {
    if Settable(db, aid) then WithRow(db, aid, db.rows[aid].(status := status)) else db
  }

  function DeferTx(db: Db, aid: nat, until: int): Db {
    if Settable(db, aid) then WithRow(db, aid, db.rows[aid].(status := Deferred, expires := Some(until))) else db
  }

  function Resurfaced(row: QRow, now: int): QRow {
    if row.status == Deferred && row.expires.Some? && row.expires.value <= now
    then row.(status := Pending, expires := None) else row
  }

  function ResurfaceTx(db: Db, now: int): Db {
    db.(rows := map a | a in db.rows :: Resurfaced(db.rows[a], now))
  }

  // ---------------------------------------------------------------- the receipt gate

  datatype Refusal =
    | NoReceipt | ReceiptUnverifiable | ReceiptUnreadable | ReceiptHash | ReceiptOp | ReceiptTarget
    | ReceiptDecision | ReceiptProvenance | ReceiptTenant | ReceiptFingerprint | BytesAltered

  const DECISION_OPS: set<string> := {"approval_decision", "approval_decision_backfill"}

  /** The checks applied to the audit row once the chain through it has been verified. */
  function ReceiptRefusal(cfg: Config, aid: nat, row: QRow, receipt: Row): Option<Refusal> {
    var e := receipt.content.entry;
    if Some(receipt.hash) != row.rhash then Some(ReceiptHash)
    else if e.op !in DECISION_OPS then Some(ReceiptOp)
    else if e.target != OfApproval(aid) then Some(ReceiptTarget)
    else if Lookup(e.details, "decision") != Some("approve") then Some(ReceiptDecision)
    else if Lookup(e.details, "approved_by") != row.approver || Lookup(e.details, "approved_via") != row.via then
      Some(ReceiptProvenance)
    else if e.tenant != cfg.tenant then Some(ReceiptTenant)
    else if Lookup(e.details, "candidate_sha256") != row.sha then Some(ReceiptFingerprint)
    else if Some(cfg.fingerprint(row.cand)) != row.sha then Some(BytesAltered)
    else None
  }

  predicate HasReceipt(row: QRow) {
    row.rnum.Some? && row.rhash.Some? && row.rhash.value != "" && row.sha.Some? && row.sha.value != ""
  }

  /** `_receipt_gate_refusal`; `readable` is false when the audit database cannot be read. */
  ghost function GateRefusal(cfg: Config, aid: nat, row: QRow, audit: seq<Row>, readable: bool): Option<Refusal> {
    if !HasReceipt(row) then Some(NoReceipt)
    else if !readable then Some(ReceiptUnreadable)
    else
      match Verdict(cfg.hasher, audit, row.rnum.value)
      case None => Some(ReceiptUnverifiable)
      case Some(receipt) => ReceiptRefusal(cfg, aid, row, receipt)
  }

  predicate Provenanced(cfg: Config, row: QRow) {
    row.via == Some(cfg.via) && row.approver.Some? && row.approver.value in cfg.approvers
  }

  predicate ApprovedWithEvent(row: QRow) {
    row.status == Approved && row.event.Some?
  }

  /** The row would pass every gate of the finalizer. */
  ghost predicate Accepted(cfg: Config, aid: nat, row: QRow, audit: seq<Row>) {
    && ApprovedWithEvent(row) && Provenanced(cfg, row)
    && GateRefusal(cfg, aid, row, audit, true).None?
  }

  // ---------------------------------------------------------------- the finalizer's transactions

  predicate Configured(cfg: Config) {
    cfg.approvers != {} && cfg.via != ""
  }

  predicate LiveAt(row: QRow, t0: int) {
    row.fin == Finalizing && row.claimedAt.Some? && row.claimedAt.value >= t0 - STALE_TTL
  }

  /** The guard of the claim's UPDATE; a NULL claim time compares as neither live nor stale. */
  predicate Claimable(row: QRow, t0: int) {
    || Unclaimed(row.fin)
    || (row.fin == Finalizing && row.claimedAt.Some? && row.claimedAt.value < t0 - STALE_TTL)
  }

  datatype GateOutcome =
    | NotFinalizable
    | UnprovenancedRow
    | AlreadyFinalized(id: Option<string>)
    | OwnedByLiveWorker
    | RefusedReceipt(why: Refusal)
    | NotClaimable
    | Claimed(cand: string, event: nat, num: int)

  function MarkFailed(row: QRow): QRow {
    if row.fin != Finalized then row.(fin := Failed) else row
  }

  /** What the first transaction of `finalize_approved_candidate` decides: gate, then claim. */
  ghost function GateDecision(cfg: Config, db: Db, audit: seq<Row>, readable: bool, aid: nat, t0: int): GateOutcome {
    if !Configured(cfg) || aid !in db.rows || !ApprovedWithEvent(db.rows[aid]) then NotFinalizable
    else
      var row := db.rows[aid];
      if !Provenanced(cfg, row) then UnprovenancedRow
      else if row.fin == Finalized then AlreadyFinalized(row.durable)
      else if LiveAt(row, t0) then OwnedByLiveWorker
      else
        match GateRefusal(cfg, aid, row, audit, readable)
        case Some(why) => RefusedReceipt(why)
        case None =>
          if !Claimable(row, t0) then NotClaimable
          else Claimed(row.cand, row.event.value, row.rnum.value)
  }

  predicate Refusing(outcome: GateOutcome) {
    outcome.UnprovenancedRow? || outcome.RefusedReceipt?
  }

  function Claim(row: QRow, wid: string, t0: int): QRow {
    row.(fin := Finalizing, worker := Some(wid), claimedAt := Some(t0))
  }

  /** ... and what it writes: a refusal marks the row failed unless it is finalized. */
  function GateEffect(db: Db, aid: nat, wid: string, t0: int, outcome: GateOutcome): Db {
    if aid !in db.rows then db
    else if Refusing(outcome) then WithRow(db, aid, MarkFailed(db.rows[aid]))
    else if outcome.Claimed? then WithRow(db, aid, Claim(db.rows[aid], wid, t0))
    else db
  }

  predicate StillOwns(db: Db, aid: nat, wid: string) {
    aid in db.rows && db.rows[aid].fin == Finalizing && db.rows[aid].worker == Some(wid)
  }

  datatype RecordOutcome = Here | Elsewhere(id: string) | Lost

  function Recorded(db: Db, aid: nat, wid: string, hash: string, event: Option<nat>): Db
    requires aid in db.rows
  {
    var row := db.rows[aid].(fin := Finalized, durable := Some(hash), worker := Some(wid));
    var db1 := WithRow(db, aid, row);
    if event.Some? && event.value in db.events
    then db1.(events := db.events[event.value := db.events[event.value].(completed := Some(hash))])
    else db1
  }

  /** `_record`: compare-and-set on the worker id, then the forced reconcile. */
  function RecordTx(db: Db, aid: nat, wid: string, hash: string, event: nat): (Db, RecordOutcome) {
    if aid !in db.rows then (db, Lost)
    else
      var row := db.rows[aid];
      if row.worker == Some(wid) && row.fin != Finalized then (Recorded(db, aid, wid, hash, Some(event)), Here)
      else if row.fin == RtbfDeleting then (db, Lost)
      else if row.fin == Finalized && row.durable.Some? then (db, Elsewhere(row.durable.value))
      else (Recorded(db, aid, wid, hash, row.event), Here)
  }

  /** `_fail`. */
  function FailTx(db: Db, aid: nat, wid: string): Db {
    if aid in db.rows && db.rows[aid].worker == Some(wid) && db.rows[aid].fin != Finalized
    then WithRow(db, aid, db.rows[aid].(fin := Failed)) else db
  }

  // ---------------------------------------------------------------- the forget's transactions

  predicate EventAbout(e: Event, drawer: string) {
    e.completed == Some(drawer) || e.identity == Some(drawer)
  }

  predicate RowNames(cfg: Config, row: QRow, drawer: string) {
    cfg.memoryId(row.cand) == Some(drawer)
  }

  /** The rows about a drawer: enqueued under it, or linked to an event about it. */
  predicate RowAbout(cfg: Config, db: Db, a: nat, drawer: string) {
    && a in db.rows
    && (|| RowNames(cfg, db.rows[a], drawer)
        || (db.rows[a].event.Some? && db.rows[a].event.value in db.events
            && EventAbout(db.events[db.rows[a].event.value], drawer)))
  }

  function AboutRows(cfg: Config, db: Db, drawer: string): set<nat> {
    set a | a in db.rows && RowAbout(cfg, db, a, drawer)
  }

  function AboutEvents(cfg: Config, db: Db, drawer: string): set<nat> {
    (set e | e in db.events && EventAbout(db.events[e], drawer))
    + (set a | a in db.rows && RowNames(cfg, db.rows[a], drawer) && db.rows[a].event.Some? :: db.rows[a].event.value)
  }

  /** Other store ids that the drawer's events were recorded under. */
  function DivergentIds(cfg: Config, db: Db, drawer: string): set<string> {
    set e | e in AboutEvents(cfg, db, drawer) && e in db.events && db.events[e].completed.Some?
            && db.events[e].completed.value != drawer && db.events[e].completed.value != "" ::
              db.events[e].completed.value
  }

  function ForForget(row: QRow): QRow {
    row.(fin := RtbfDeleting, worker := Some(RTBF_WORKER))
  }

  function ClaimRows(db: Db, ids: set<nat>): Db {
    db.(rows := map a | a in db.rows :: if a in ids then ForForget(db.rows[a]) else db.rows[a])
  }

  predicate FinalizeInFlight(cfg: Config, db: Db, drawer: string, t0: int) {
    exists a | a in AboutRows(cfg, db, drawer) :: a in db.rows && LiveAt(db.rows[a], t0)
  }

  /** `_claim_sidecar_for_rtbf`: None when a live finalize defers the forget. */
  function ForgetClaimTx(cfg: Config, db: Db, drawer: string, t0: int): Option<(Db, set<nat>)> {
    if FinalizeInFlight(cfg, db, drawer, t0) then None
    else Some((ClaimRows(db, AboutRows(cfg, db, drawer)), AboutRows(cfg, db, drawer)))
  }

  function RemoveRows(db: Db, ids: set<nat>, events: set<nat>): Db {
    db.(rows := db.rows - ids, events := db.events - events)
  }

  /** `_hard_delete_sidecar`: scan again and purge what the scan finds. */
  function PurgeTx(cfg: Config, db: Db, drawer: string): Db {
    RemoveRows(db, AboutRows(cfg, db, drawer), AboutEvents(cfg, db, drawer))
  }

  // ---------------------------------------------------------------- the receipt migrator

  datatype Inspection = MarkerFound | MarkerAbsent | LookupUnavailable | LookupFailed

  function InspectionText(i: Inspection): string {
    match i
    case MarkerFound => "marker_found"
    case MarkerAbsent => "marker_absent"
    case LookupUnavailable => "lookup_unavailable"
    case LookupFailed => "lookup_failed"
  }

  /** Rows the finalizer could act on. */
  predicate Actionable(row: QRow) {
    ApprovedWithEvent(row) && row.via.Some? && row.approver.Some? && row.fin != Finalized && row.fin != RtbfDeleting
  }

  predicate NeedsReceipt(row: QRow) {
    Actionable(row) && row.rnum.None?
  }

  /** The decision details a receipt must carry, over any extra keys of the surface. */
  function DecisionDetails(cfg: Config, extra: map<string, string>, phase: string, approver: string, via: string,
                           cand: string, proposer: Option<string>): map<string, string> {
    extra
    + map["phase" := phase, "decision" := "approve", "approved_by" := approver, "approved_via" := via,
          "candidate_sha256" := cfg.fingerprint(cand)]
    + match Clean(cfg, proposer) { case Some(p) => map["proposed_by_profile" := p] case None => map[] }
  }

  function BackfillEntry(cfg: Config, aid: nat, row: QRow, inspection: Inspection, ts: int, principal: string,
                         tenant: string): Entry
    requires row.approver.Some? && row.via.Some?
  {
    var inspected := if row.fin == Finalizing
                     then map["finalizing_inspection" := InspectionText(inspection)] else map[];
    Entry(ts, principal, tenant, "approval_decision_backfill", OfApproval(aid), None,
          inspected + DecisionDetails(cfg, map[], "backfill", row.approver.value, row.via.value, row.cand,
            row.proposer))
  }

  predicate BackfillReady(row: QRow, inspection: Inspection) {
    NeedsReceipt(row) && (row.fin == Finalizing ==> inspection == MarkerFound || inspection == MarkerAbsent)
  }

  function Stamp(row: QRow, num: int, hash: Hash, sha: string): QRow {
    row.(rnum := Some(num), rhash := Some(hash), sha := Some(sha))
  }

  /** `_backfill_one`: append the receipt, then stamp it, under one lock; `crash` stops it in between. */
  function BackfillTx(cfg: Config, db: Db, audit: seq<Row>, aid: nat, inspection: Inspection, crash: bool,
                      ts: int, principal: string, tenant: string): (Db, seq<Row>) {
    if aid !in db.rows || !BackfillReady(db.rows[aid], inspection) then (db, audit)
    else
      var row := db.rows[aid];
      var next := NextRow(cfg.hasher, audit, BackfillEntry(cfg, aid, row, inspection, ts, principal, tenant));
      if crash then (db, audit + [next])
      else (WithRow(db, aid, Stamp(row, next.content.num, next.hash, cfg.fingerprint(row.cand))), audit + [next])
  }

  // ---------------------------------------------------------------- what every transaction keeps

  /** Ids are never reused, an approved row has exactly the one event it emitted, and links are injective. */
  ghost predicate Sound(db: Db) {
    && (forall a | a in db.rows :: a < db.nextRow)
    && (forall e | e in db.events :: 0 < e < db.nextEvent)
    && db.nextEvent > 0
    && (forall a | a in db.rows :: db.rows[a].status == Approved <==> db.rows[a].event.Some?)
    && (forall a | a in db.rows && db.rows[a].event.Some? ::
          db.rows[a].event.value in db.events && db.events[db.rows[a].event.value].source == a)
    && (forall e | e in db.events && db.events[e].source in db.rows :: db.rows[db.events[e].source].event == Some(e))
    && (forall e | e in db.events :: db.events[e].source < db.nextRow)
  }
}
