/**
 What every queue transaction keeps: links between rows and events stay injective, decisions
 are absorbing, receipts are immutable, and a purge removes exactly what is about its drawer.
 */
module QueueLaws {
  import opened Basics
  import opened AuditChain
  import opened Queue

  // ---------------------------------------------------------------- links stay injective

  /** An UPDATE of one row that leaves its decision and its event link alone. */
  lemma UpdateKeepsSound(db: Db, aid: nat, row: QRow)
    requires Sound(db) && aid in db.rows
    requires row.event == db.rows[aid].event && (row.status == Approved <==> db.rows[aid].status == Approved)
    ensures Sound(WithRow(db, aid, row))
  {
  }

  lemma EnqueueKeepsSound(db: Db, cand: string, proposer: Option<string>)
    requires Sound(db)
    ensures Sound(EnqueueTx(db, cand, proposer))
  {
  }

  lemma ApproveKeepsSound(cfg: Config, db: Db, aid: nat, via: Option<string>, approver: Option<string>,
                          receipt: Option<Receipt>)
    requires Sound(db) && ApproveTx(cfg, db, aid, via, approver, receipt).Ok?
    ensures Sound(ApproveTx(cfg, db, aid, via, approver, receipt).value.0)
  {
    var row := db.rows[aid];
    if row.status == Approved {
      UpdateKeepsSound(db, aid, Reapproved(row, via, approver, receipt));
    } else {
      FreshApproveKeepsSound(cfg, db, aid, FreshlyApproved(row, db.nextEvent, via, approver, receipt));
    }
  }

  lemma FreshApproveKeepsSound(cfg: Config, db: Db, aid: nat, row: QRow)
    requires Sound(db) && aid in db.rows && db.rows[aid].status != Approved
    requires row.status == Approved && row.event == Some(db.nextEvent)
    ensures Sound(Db(db.rows[aid := row], db.events[db.nextEvent := Event(aid, cfg.payloadId(row.cand), None)],
                     db.nextRow, db.nextEvent + 1))
  {
  }

  lemma DecideKeepsSound(db: Db, aid: nat, status: Status, until: int, due: int)
    requires Sound(db)
    ensures status == Rejected || status == Pending ==> Sound(SetStatusTx(db, aid, status))
    ensures Sound(DeferTx(db, aid, until)) && Sound(ResurfaceTx(db, due))
  {
  }

  lemma BackfillKeepsSound(cfg: Config, db: Db, audit: seq<Row>, aid: nat, inspection: Inspection, crash: bool,
                           ts: int, principal: string, tenant: string)
    requires Sound(db)
    ensures Sound(BackfillTx(cfg, db, audit, aid, inspection, crash, ts, principal, tenant).0)
  {
  }

  lemma FinalizerKeepsSound(db: Db, aid: nat, wid: string, t0: int, outcome: GateOutcome, id: string, event: nat)
    requires Sound(db)
    ensures Sound(GateEffect(db, aid, wid, t0, outcome))
    ensures Sound(RecordTx(db, aid, wid, id, event).0) && Sound(FailTx(db, aid, wid))
  {
    if aid in db.rows {
      UpdateKeepsSound(db, aid, MarkFailed(db.rows[aid]));
      UpdateKeepsSound(db, aid, Claim(db.rows[aid], wid, t0));
      UpdateKeepsSound(db, aid, db.rows[aid].(fin := Failed));
      RecordedKeepsSound(db, aid, wid, id, Some(event));
      RecordedKeepsSound(db, aid, wid, id, db.rows[aid].event);
    }
  }

  lemma RecordedKeepsSound(db: Db, aid: nat, wid: string, id: string, event: Option<nat>)
    requires Sound(db) && aid in db.rows
    ensures Sound(Recorded(db, aid, wid, id, event))
  {
    UpdateKeepsSound(db, aid, db.rows[aid].(fin := Finalized, durable := Some(id), worker := Some(wid)));
  }

  lemma ForgetClaimKeepsSound(cfg: Config, db: Db, drawer: string, t0: int)
    requires Sound(db) && ForgetClaimTx(cfg, db, drawer, t0).Some?
    ensures Sound(ForgetClaimTx(cfg, db, drawer, t0).value.0)
  {
  }

  // ---------------------------------------------------------------- the purge is closed and exact

  /** A set of rows and events closed under the links between them. */
  ghost predicate ClosedUnderLinks(db: Db, ids: set<nat>, events: set<nat>) {
    forall a | a in db.rows && db.rows[a].event.Some? :: a in ids <==> db.rows[a].event.value in events
  }

  /** It contains everything that names the drawer: candidates by memory id, events by identity or store id. */
  ghost predicate ContainsSeeds(cfg: Config, db: Db, drawer: string, ids: set<nat>, events: set<nat>) {
    && (forall a | a in db.rows && RowNames(cfg, db.rows[a], drawer) :: a in ids)
    && (forall e | e in db.events && EventAbout(db.events[e], drawer) :: e in events)
  }

  /**
   With injective links the single pass over events, then rows, already reaches the closure:
   the purge set is closed, and it is the least closed set around what names the drawer.
   */
  lemma PurgeSetIsLeastClosure(cfg: Config, db: Db, drawer: string, ids: set<nat>, events: set<nat>)
    requires Sound(db)
    ensures ClosedUnderLinks(db, AboutRows(cfg, db, drawer), AboutEvents(cfg, db, drawer))
    ensures ContainsSeeds(cfg, db, drawer, AboutRows(cfg, db, drawer), AboutEvents(cfg, db, drawer))
    ensures ClosedUnderLinks(db, ids, events) && ContainsSeeds(cfg, db, drawer, ids, events)
            ==> AboutRows(cfg, db, drawer) <= ids && AboutEvents(cfg, db, drawer) <= events
  {
  }

  /** After the purge a second scan is empty, nothing about another drawer is gone, and links stay injective. */
  lemma PurgeIsExact(cfg: Config, db: Db, drawer: string)
    requires Sound(db)
    ensures var db' := PurgeTx(cfg, db, drawer);
            && Sound(db')
            && AboutRows(cfg, db', drawer) == {} && AboutEvents(cfg, db', drawer) == {}
            && (forall a | a in db.rows && !RowAbout(cfg, db, a, drawer) :: a in db'.rows && db'.rows[a] == db.rows[a])
            && (forall e | e in db.events && !EventAbout(db.events[e], drawer)
                           && (db.events[e].source in db.rows ==> !RowAbout(cfg, db, db.events[e].source, drawer)) ::
                  e in db'.events && db'.events[e] == db.events[e])
            && db'.nextRow == db.nextRow && db'.nextEvent == db.nextEvent
  {
  }

  // ---------------------------------------------------------------- decisions are absorbing

  /** What any transaction but a purge may do to a row. */
  ghost predicate RowEvolves(r: QRow, r': QRow) {
    && r'.cand == r.cand && r'.proposer == r.proposer
    && (r.status == Approved || r.status == Rejected ==> r'.status == r.status)
    && (r.status == Approved ==> r'.event == r.event)
    && (r.status == Approved && r.via.Some? ==> r'.via == r.via && r'.approver == r.approver)
    && (r.status == Approved && r.rnum.Some? ==> r'.rnum == r.rnum && r'.rhash == r.rhash && r'.sha == r.sha)
  }

  /** No row is lost, each evolves, and new rows are pending under fresh ids. */
  ghost predicate Evolves(db: Db, db': Db) {
    && db.nextRow <= db'.nextRow && db.nextEvent <= db'.nextEvent
    && (forall a | a in db.rows :: a in db'.rows && RowEvolves(db.rows[a], db'.rows[a]))
    && (forall a | a in db'.rows && a !in db.rows :: a >= db.nextRow && db'.rows[a].status == PendingApproval)
  }

  lemma ApproveEvolves(cfg: Config, db: Db, aid: nat, via: Option<string>, approver: Option<string>,
                       receipt: Option<Receipt>)
    requires Sound(db) && ApproveTx(cfg, db, aid, via, approver, receipt).Ok?
    ensures Evolves(db, ApproveTx(cfg, db, aid, via, approver, receipt).value.0)
  {
  }

  lemma DecideEvolves(db: Db, cand: string, proposer: Option<string>, aid: nat, status: Status, until: int, due: int)
    requires Sound(db)
    ensures Evolves(db, EnqueueTx(db, cand, proposer)) && Evolves(db, SetStatusTx(db, aid, status))
    ensures Evolves(db, DeferTx(db, aid, until)) && Evolves(db, ResurfaceTx(db, due))
  {
    if Settable(db, aid) {
      UpdateEvolves(db, aid, db.rows[aid].(status := status));
      UpdateEvolves(db, aid, db.rows[aid].(status := Deferred, expires := Some(until)));
    }
    EnqueueEvolves(db, cand, proposer);
    ResurfaceEvolves(db, due);
    hide EnqueueTx, ResurfaceTx, Sound;
  }

  lemma EnqueueEvolves(db: Db, cand: string, proposer: Option<string>)
    requires Sound(db)
    ensures Evolves(db, EnqueueTx(db, cand, proposer))
  {
  }

  lemma ResurfaceEvolves(db: Db, due: int)
    ensures Evolves(db, ResurfaceTx(db, due))
  {
  }

  lemma UpdateEvolves(db: Db, aid: nat, row: QRow)
    requires aid in db.rows && RowEvolves(db.rows[aid], row)
    ensures Evolves(db, WithRow(db, aid, row))
  {
  }

  lemma GateEvolves(db: Db, aid: nat, wid: string, t0: int, outcome: GateOutcome)
    ensures Evolves(db, GateEffect(db, aid, wid, t0, outcome))
  {
    if aid in db.rows {
      UpdateEvolves(db, aid, MarkFailed(db.rows[aid]));
      UpdateEvolves(db, aid, Claim(db.rows[aid], wid, t0));
    }
  }

  lemma RecordedEvolves(db: Db, aid: nat, wid: string, id: string, event: Option<nat>)
    requires aid in db.rows
    ensures Evolves(db, Recorded(db, aid, wid, id, event))
  {
    UpdateEvolves(db, aid, db.rows[aid].(fin := Finalized, durable := Some(id), worker := Some(wid)));
  }

  lemma RecordAndFailEvolve(db: Db, aid: nat, wid: string, id: string, event: nat)
    ensures Evolves(db, RecordTx(db, aid, wid, id, event).0) && Evolves(db, FailTx(db, aid, wid))
  {
    if aid in db.rows {
      RecordedEvolves(db, aid, wid, id, Some(event));
      RecordedEvolves(db, aid, wid, id, db.rows[aid].event);
      UpdateEvolves(db, aid, db.rows[aid].(fin := Failed));
    }
  }

  lemma ForgetAndBackfillEvolve(cfg: Config, db: Db, audit: seq<Row>, aid: nat, inspection: Inspection, crash: bool,
                                ts: int, principal: string, tenant: string, drawer: string, t0: int)
    ensures Evolves(db, BackfillTx(cfg, db, audit, aid, inspection, crash, ts, principal, tenant).0)
    ensures ForgetClaimTx(cfg, db, drawer, t0).Some? ==> Evolves(db, ForgetClaimTx(cfg, db, drawer, t0).value.0)
  {
  }

  /** The approval the MCP and HTTP surfaces run is `_approve_in_conn` under a narrower guard, or nothing. */
  lemma McpIsGuardedApprove(cfg: Config, db: Db, aid: nat, via: string, approver: string, receipt: Receipt)
    requires McpTx(cfg, db, aid, via, approver, receipt).Ok?
    ensures var (db', mode) := McpTx(cfg, db, aid, via, approver, receipt).value;
            && aid in db.rows && via != "" && approver != "" && Unclaimed(db.rows[aid].fin)
            && (mode == Redrive ==> db' == db && db.rows[aid].status == Approved)
            && (mode == Stamped ==>
                  && (db.rows[aid].status == Pending || db.rows[aid].status == PendingApproval)
                  && cfg.fingerprint(db.rows[aid].cand) == receipt.sha
                  && ApproveTx(cfg, db, aid, Some(via), Some(approver), Some(receipt)) == Ok((db', db.nextEvent)))
  {
  }

  // ---------------------------------------------------------------- the guards, column by column

  /** No finalizer and no forget holds the row. */
  predicate Unheld(row: QRow) {
    row.fin == Idle || row.fin == Failed
  }

  /** No live worker holds the row: it is unheld, or was claimed more than 300 ago. */
  predicate Free(row: QRow, t0: int) {
    Unheld(row) || (row.fin == Finalizing && row.claimedAt.Some? && row.claimedAt.value + 300 < t0)
  }

  /** A worker that claimed the row at most 300 ago holds it. */
  predicate HeldLive(row: QRow, t0: int) {
    row.fin == Finalizing && row.claimedAt.Some? && t0 <= row.claimedAt.value + 300
  }

  /** The row awaits a decision, and nobody holds it. */
  predicate Awaits(row: QRow) {
    (row.status == Pending || row.status == PendingApproval || row.status == Deferred) && Unheld(row)
  }

  predicate DueNow(row: QRow, now: int) {
    row.status == Deferred && row.expires.Some? && row.expires.value <= now
  }

  predicate Names(e: Event, drawer: string) {
    e.completed == Some(drawer) || e.identity == Some(drawer)
  }

  /** The row was enqueued under this drawer, or its event names it. */
  predicate Concerns(cfg: Config, db: Db, a: nat, drawer: string) {
    && a in db.rows
    && var row := db.rows[a];
       || cfg.memoryId(row.cand) == Some(drawer)
       || (row.event.Some? && row.event.value in db.events && Names(db.events[row.event.value], drawer))
  }

  /** The event names the drawer, or belongs to a row enqueued under it. */
  predicate EventConcerns(cfg: Config, db: Db, e: nat, drawer: string) {
    || (e in db.events && Names(db.events[e], drawer))
    || exists a | a in db.rows :: cfg.memoryId(db.rows[a].cand) == Some(drawer) && db.rows[a].event == Some(e)
  }

  lemma AboutIff(cfg: Config, db: Db, drawer: string)
    ensures forall a :: a in AboutRows(cfg, db, drawer) <==> Concerns(cfg, db, a, drawer)
    ensures forall e :: e in AboutEvents(cfg, db, drawer) <==> EventConcerns(cfg, db, e, drawer)
  {
  }

  lemma DivergentIff(cfg: Config, db: Db, drawer: string, id: string)
    ensures id in DivergentIds(cfg, db, drawer) <==>
              id != drawer && id != "" && exists e | e in db.events ::
                EventConcerns(cfg, db, e, drawer) && db.events[e].completed == Some(id)
  {
    AboutIff(cfg, db, drawer);
    hide AboutEvents, EventConcerns;
  }

  lemma InFlightIff(cfg: Config, db: Db, drawer: string, t0: int)
    ensures FinalizeInFlight(cfg, db, drawer, t0) <==>
              exists a | Concerns(cfg, db, a, drawer) :: HeldLive(db.rows[a], t0)
  {
    AboutIff(cfg, db, drawer);
    hide AboutRows;
  }

  lemma SettableIff(db: Db, aid: nat)
    ensures Settable(db, aid) <==> aid in db.rows && Awaits(db.rows[aid])
  {
  }

  /** When a finalize call claims its row. */
  lemma GateClaimsIff(cfg: Config, db: Db, audit: seq<Row>, readable: bool, aid: nat, t0: int)
    ensures GateDecision(cfg, db, audit, readable, aid, t0).Claimed? <==>
              && cfg.approvers != {} && cfg.via != "" && aid in db.rows
              && var row := db.rows[aid];
                 && row.status == Approved && row.event.Some? && row.via == Some(cfg.via)
                 && row.approver.Some? && row.approver.value in cfg.approvers
                 && Free(row, t0) && GateRefusal(cfg, aid, row, audit, readable).None?
  {
    hide GateRefusal;
  }

  /** What a fresh approval writes: it clears whatever provenance or receipt was planted before. */
  lemma FreshApprovalWrites(cfg: Config, db: Db, aid: nat, via: Option<string>, approver: Option<string>,
                            receipt: Option<Receipt>)
    requires aid in db.rows && db.rows[aid].status != Approved && ApproveTx(cfg, db, aid, via, approver, receipt).Ok?
    ensures var (db', e) := ApproveTx(cfg, db, aid, via, approver, receipt).value;
            && e !in db.events.Keys - {db.nextEvent} && e in db'.events && db'.events[e].source == aid
            && aid in db'.rows
            && var row := db'.rows[aid];
               && row.status == Approved && row.event == Some(e) && row.via == via && row.approver == approver
               && (receipt.None? ==> row.rnum.None? && row.rhash.None? && row.sha.None?)
               && (receipt.Some? ==> row.rnum == Some(receipt.value.num) && row.rhash == Some(receipt.value.hash)
                                     && row.sha == Some(receipt.value.sha))
  {
  }

  /** What the attestation of an old approval says; a half-finalized one also names what the store answered. */
  lemma BackfillSays(cfg: Config, aid: nat, row: QRow, inspection: Inspection, ts: int, principal: string,
                     tenant: string)
    requires row.approver.Some? && row.via.Some?
    ensures var e := BackfillEntry(cfg, aid, row, inspection, ts, principal, tenant);
            && e.op in DECISION_OPS && e.target == OfApproval(aid) && e.tenant == tenant
            && e.ts == ts && e.principal == principal
            && Lookup(e.details, "decision") == Some("approve") && Lookup(e.details, "approved_by") == row.approver
            && Lookup(e.details, "approved_via") == row.via
            && Lookup(e.details, "candidate_sha256") == Some(cfg.fingerprint(row.cand))
            && Lookup(e.details, "proposed_by_profile") == Clean(cfg, row.proposer)
            && (row.fin != Finalizing ==> Lookup(e.details, "finalizing_inspection").None?)
            && (row.fin == Finalizing && inspection == MarkerFound ==>
                  Lookup(e.details, "finalizing_inspection") == Some("marker_found"))
            && (row.fin == Finalizing && inspection == MarkerAbsent ==>
                  Lookup(e.details, "finalizing_inspection") == Some("marker_absent"))
  {
  }

  // ---------------------------------------------------------------- when an approval succeeds

  predicate HexDigest(text: string) {
    |text| == 64 && forall c | c in text :: c in "0123456789abcdef"
  }

  lemma DigestIsHex(text: string)
    ensures IsDigest(text) <==> HexDigest(text)
  {
    forall c: char ensures c in "0123456789abcdef" <==> '0' <= c <= '9' || 'a' <= c <= 'f' {
      HexDigit(c);
    }
    if HexDigest(text) {
      forall i | 0 <= i < |text| ensures '0' <= text[i] <= '9' || 'a' <= text[i] <= 'f' {
        assert text[i] in text;
      }
    }
  }

  lemma HexDigit(c: char)
    ensures c in "0123456789abcdef" <==> '0' <= c <= '9' || 'a' <= c <= 'f'
  {
    var digits := "0123456789abcdef";
    if '0' <= c <= '9' {
      assert digits[c as int - '0' as int] == c;
    } else if 'a' <= c <= 'f' {
      assert digits[10 + c as int - 'a' as int] == c;
    }
  }

  /** An unheld candidate, of these bytes, that an event can be emitted for. */
  predicate CanBeStamped(cfg: Config, row: QRow, sha: string) {
    && (row.status == Pending || row.status == PendingApproval) && Unheld(row)
    && cfg.fingerprint(row.cand) == sha && cfg.payloadId(row.cand).Some?
  }

  /** An unheld row that this approver approved over this transport before. */
  predicate StampedBefore(row: QRow, via: string, approver: string) {
    row.status == Approved && row.via == Some(via) && row.approver == Some(approver) && Unheld(row)
  }

  /** An approval with this receipt succeeds on this row. */
  predicate Approvable(cfg: Config, db: Db, aid: nat, via: string, approver: string, receipt: Receipt) {
    && via != "" && approver != "" && receipt.num >= 1 && HexDigest(receipt.hash) && HexDigest(receipt.sha)
    && aid in db.rows
    && (StampedBefore(db.rows[aid], via, approver) || CanBeStamped(cfg, db.rows[aid], receipt.sha))
  }

  /** The row is the same candidate, approved with an event, with this provenance and this receipt. */
  predicate Bears(row: QRow, row': QRow, via: string, approver: string, receipt: Receipt) {
    && row'.cand == row.cand && row'.fin == row.fin && row'.status == Approved && row'.event.Some?
    && row'.via == Some(via) && row'.approver == Some(approver)
    && row'.rnum == Some(receipt.num) && row'.rhash == Some(receipt.hash) && row'.sha == Some(receipt.sha)
  }

  /** When the approval of the MCP and HTTP surfaces succeeds, which way, and what a stamp writes. */
  lemma McpSucceedsIff(cfg: Config, db: Db, aid: nat, via: string, approver: string, receipt: Receipt)
    ensures McpTx(cfg, db, aid, via, approver, receipt).Ok? <==> Approvable(cfg, db, aid, via, approver, receipt)
    ensures Approvable(cfg, db, aid, via, approver, receipt) ==>
              var (db', mode) := McpTx(cfg, db, aid, via, approver, receipt).value;
              && (mode == Redrive <==> StampedBefore(db.rows[aid], via, approver))
              && (mode == Redrive ==> db' == db)
              && (mode == Stamped ==> aid in db'.rows && Bears(db.rows[aid], db'.rows[aid], via, approver, receipt))
  {
    DigestIsHex(receipt.hash);
    DigestIsHex(receipt.sha);
    hide IsDigest, HexDigest;
  }

  // ---------------------------------------------------------------- accepted receipts stay accepted

  /** A receipt the gate takes it keeps taking, whatever is appended to the log and whoever else writes the row. */
  lemma ReceiptIsStable(cfg: Config, aid: nat, row: QRow, row': QRow, audit: seq<Row>, es: seq<Entry>)
    requires Linked(cfg.hasher, audit) && GateRefusal(cfg, aid, row, audit, true).None?
    requires ApprovedWithEvent(row) && row.via.Some? && RowEvolves(row, row')
    ensures ApprovedWithEvent(row') && row'.via == row.via && row'.approver == row.approver
    ensures GateRefusal(cfg, aid, row', AppendAll(cfg.hasher, audit, es), true).None?
  {
    var n := row.rnum.value;
    UptoIsPrefixOfLinked(cfg, audit, n);
    AppendAllIsPrefixStable(cfg.hasher, audit, es, n);
  }

  /** A row that passes every finalizer gate keeps passing it, whatever is appended and whoever else writes. */
  lemma AcceptedIsStable(cfg: Config, aid: nat, row: QRow, row': QRow, audit: seq<Row>, es: seq<Entry>)
    requires Linked(cfg.hasher, audit) && Accepted(cfg, aid, row, audit) && RowEvolves(row, row')
    ensures Accepted(cfg, aid, row', AppendAll(cfg.hasher, audit, es))
  {
    hide GateRefusal, Linked;
    ReceiptIsStable(cfg, aid, row, row', audit, es);
  }

  lemma UptoIsPrefixOfLinked(cfg: Config, audit: seq<Row>, n: int)
    requires Linked(cfg.hasher, audit) && Verdict(cfg.hasher, audit, n).Some?
    ensures 1 <= n <= |audit| && Verdict(cfg.hasher, audit, n) == Some(audit[n - 1])
  {
    UptoBound(audit, n);
    LinkedUpto(cfg.hasher, audit, n);
  }
}
