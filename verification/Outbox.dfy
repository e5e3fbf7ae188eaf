/**
 The outbox database: the approval queue and event tables, updated in place. Every method is
 one transaction of the source and is proved to be the transaction function of module Queue.
 */
module Outbox {
  import opened Basics
  import opened AuditChain
  import opened Queue
  import opened QueueLaws

  lemma IdsAreBelowNext(db: Db)
    requires Sound(db)
    ensures forall a | a in db.rows :: a < db.nextRow
    ensures forall e | e in db.events :: 0 < e < db.nextEvent
  {
  }

  /** A list of ids in ascending order has as many entries as members. */
  lemma {:induction false} ListedOnce(ids: seq<nat>, members: set<nat>)
    requires forall i, j | 0 <= i < j < |ids| :: ids[i] < ids[j]
    requires forall a: nat :: a in ids <==> a in members
    ensures |ids| == |members|
    decreases |ids|
  {
    if ids == [] {
      assert members == {};
    } else {
      var last, front := ids[|ids| - 1], ids[..|ids| - 1];
      assert ids == front + [last];
      ListedOnce(front, members - {last});
    }
  }

  /** A forget is deferred exactly when one of the rows its scan lists is held by a live finalize. */
  lemma ClaimDecision(cfg: Config, db: Db, drawer: string, t0: int, stale: seq<nat>)
    requires (set a | a in stale) == AboutRows(cfg, db, drawer)
    ensures forall k | 0 <= k < |stale| :: stale[k] in db.rows
    ensures (exists k | 0 <= k < |stale| :: LiveAt(db.rows[stale[k]], t0)) ==> ForgetClaimTx(cfg, db, drawer, t0).None?
    ensures (forall k | 0 <= k < |stale| :: !LiveAt(db.rows[stale[k]], t0)) ==>
              var rows := AboutRows(cfg, db, drawer);
              ForgetClaimTx(cfg, db, drawer, t0) == Some((ClaimRows(db, rows), rows))
  {
    forall k | 0 <= k < |stale| ensures stale[k] in AboutRows(cfg, db, drawer) {
      assert stale[k] in set a | a in stale;
    }
    forall a | a in AboutRows(cfg, db, drawer) ensures a in stale {
      assert a in set x | x in stale;
    }
    if forall k | 0 <= k < |stale| :: !LiveAt(db.rows[stale[k]], t0) {
      forall a | a in AboutRows(cfg, db, drawer) ensures !LiveAt(db.rows[a], t0) {
        var k :| 0 <= k < |stale| && stale[k] == a;
      }
      assert !FinalizeInFlight(cfg, db, drawer, t0);
    }
  }

  /** The deferred rows below `n` whose time has come. */
  function Due(db: Db, now: int, n: nat): set<nat> {
    set a | a in db.rows && a < n && Resurfaced(db.rows[a], now) != db.rows[a]
  }

  function ResurfacedBelow(db: Db, now: int, n: nat): map<nat, QRow> {
    map a | a in db.rows :: if a < n then Resurfaced(db.rows[a], now) else db.rows[a]
  }

  lemma ResurfaceOne(db: Db, now: int, n: nat)
    ensures n in ResurfacedBelow(db, now, n) <==> n in db.rows
    ensures if n in db.rows && Resurfaced(db.rows[n], now) != db.rows[n]
            then && ResurfacedBelow(db, now, n)[n] == db.rows[n] && |Due(db, now, n + 1)| == |Due(db, now, n)| + 1
                 && ResurfacedBelow(db, now, n + 1) == ResurfacedBelow(db, now, n)[n := Resurfaced(db.rows[n], now)]
            else && ResurfacedBelow(db, now, n + 1) == ResurfacedBelow(db, now, n)
                 && Due(db, now, n + 1) == Due(db, now, n)
                 && (n in db.rows ==> ResurfacedBelow(db, now, n)[n] == db.rows[n])
  {
    hide Resurfaced;
    if n in db.rows && Resurfaced(db.rows[n], now) != db.rows[n] {
      assert Due(db, now, n + 1) == Due(db, now, n) + {n};
    }
  }

  lemma DueRows(db: Db, now: int)
    requires Sound(db)
    ensures ResurfacedBelow(db, now, db.nextRow) == ResurfaceTx(db, now).rows
    ensures ResurfaceTx(db, now) == db.(rows := ResurfacedBelow(db, now, db.nextRow))
  {
    IdsAreBelowNext(db);
    hide Sound, Resurfaced;
    assert ResurfacedBelow(db, now, db.nextRow) == ResurfaceTx(db, now).rows;
  }

  lemma DeferredIff(cfg: Config, db: Db, drawer: string, t0: int)
    ensures ForgetClaimTx(cfg, db, drawer, t0).None? <==>
              exists a | Concerns(cfg, db, a, drawer) :: HeldLive(db.rows[a], t0)
  {
    InFlightIff(cfg, db, drawer, t0);
    hide Concerns, FinalizeInFlight, HeldLive;
  }

  lemma DueIsCounted(db: Db, now: int)
    requires Sound(db)
    ensures Due(db, now, db.nextRow) == set a | a in db.rows && DueNow(db.rows[a], now)
    ensures forall a | a in db.rows ::
              Resurfaced(db.rows[a], now)
              == if DueNow(db.rows[a], now) then db.rows[a].(status := Pending, expires := None) else db.rows[a]
  {
    IdsAreBelowNext(db);
    hide Sound;
  }

  class OutboxDb {
    const cfg: Config
    var rows: map<nat, QRow>
    var events: map<nat, Event>
    var nextRow: nat
    var nextEvent: nat

    ghost function Db(): Db
      reads this
    {
      Queue.Db.Db(rows, events, nextRow, nextEvent)
    }

    ghost predicate Valid()
      reads this
    {
      Sound(Db())
    }

    constructor (cfg: Config)
      ensures this.cfg == cfg && Db() == EMPTY_DB && Valid()
    {
      this.cfg := cfg;
      rows, events, nextRow, nextEvent := map[], map[], 1, 1;
    }

    method EnqueueApproval(cand: string, proposer: Option<string>) returns (aid: nat)
      requires Valid()
      modifies this
      ensures Valid() && Db() == EnqueueTx(old(Db()), cand, proposer) && aid == old(nextRow) && aid !in old(rows)
    {
      EnqueueKeepsSound(Db(), cand, proposer);
      aid := nextRow;
      rows := rows[aid := QRow(cand, PendingApproval, None, None, None, None, None, None, None, Idle, None, None, None,
                               proposer)];
      nextRow := nextRow + 1;
    }

    /** `_approve_in_conn`. An error is raised before anything is written. */
    method ApproveInConn(aid: nat, via: Option<string>, approver: Option<string>, receipt: Option<Receipt>)
      returns (r: Result<nat, ApproveError>)
      requires Valid()
      modifies this
      ensures Valid()
      ensures match ApproveTx(cfg, old(Db()), aid, via, approver, receipt)
              case Ok(done) => Db() == done.0 && r == Ok(done.1)
              case Err(e) => Db() == old(Db()) && r == Err(e)
      ensures r.Ok? && old(rows)[aid].status != Approved ==>
                && rows[aid].status == Approved && rows[aid].event == Some(r.value)
                && rows[aid].via == via && rows[aid].approver == approver
                && rows[aid].rnum == (if receipt.Some? then Some(receipt.value.num) else None)
    {
      if ApproveTx(cfg, Db(), aid, via, approver, receipt).Ok? {
        if rows[aid].status != Approved {
          FreshApprovalWrites(cfg, Db(), aid, via, approver, receipt);
        }
        ApproveKeepsSound(cfg, Db(), aid, via, approver, receipt);
      }
      if aid !in rows {
        return Err(NoSuchRow);
      }
      var row := rows[aid];
      if receipt.Some? && cfg.fingerprint(row.cand) != receipt.value.sha {
        return Err(BytesChanged);
      }
      if row.status == Approved && row.event.Some? && row.event.value != 0 {
        if via.Some? && row.via.None? {
          rows := rows[aid := rows[aid].(via := via, approver := approver)];
        }
        if receipt.Some? && row.rnum.None? {
          rows := rows[aid := rows[aid].(rnum := Some(receipt.value.num), rhash := Some(receipt.value.hash),
                                         sha := Some(receipt.value.sha))];
        }
        assert rows == WithRow(old(Db()), aid, Reapproved(row, via, approver, receipt)).rows;
        return Ok(row.event.value);
      }
      if !Awaiting(row.status) {
        return Err(NotApprovable);
      }
      var identity := cfg.payloadId(row.cand);
      if identity.None? {
        return Err(Unparsable);
      }
      var event := nextEvent;
      events := events[event := Event(aid, identity, None)];
      nextEvent := nextEvent + 1;
      rows := rows[aid := FreshlyApproved(row, event, via, approver, receipt)];
      return Ok(event);
    }

    method McpApproveOrRedrive(aid: nat, via: string, approver: string, receipt: Receipt)
      returns (r: Result<Mode, ApproveError>)
      requires Valid()
      modifies this
      ensures Valid()
      ensures match McpTx(cfg, old(Db()), aid, via, approver, receipt)
              case Ok(done) => Db() == done.0 && r == Ok(done.1)
              case Err(e) => Db() == old(Db()) && r == Err(e)
    {
      if via == "" || approver == "" {
        return Err(Unprovenanced);
      }
      if !WellFormed(receipt) {
        return Err(BadReceipt);
      }
      if aid !in rows {
        return Err(NoSuchRow);
      }
      var row := rows[aid];
      if row.status == Approved && row.via == Some(via) && row.approver == Some(approver) && Unclaimed(row.fin) {
        return Ok(Redrive);
      }
      if row.status != Pending && row.status != PendingApproval {
        return Err(NotApprovable);
      }
      if !Unclaimed(row.fin) {
        return Err(LiveClaim);
      }
      var done := ApproveInConn(aid, Some(via), Some(approver), Some(receipt));
      return if done.Ok? then Ok(Stamped) else Err(done.error);
    }

    /** `update_approval_status`: 0 rows changed means missing, decided, or held by a finalizer or a forget. */
    method UpdateApprovalStatus(aid: nat, status: Status) returns (changed: nat)
      requires Valid() && (status == Rejected || status == Pending)
      modifies this
      ensures Valid() && Db() == SetStatusTx(old(Db()), aid, status)
      ensures changed == if aid in old(rows) && Awaits(old(rows)[aid]) then 1 else 0
      ensures changed == 1 ==> rows == old(rows)[aid := old(rows)[aid].(status := status)]
      ensures changed == 0 ==> Db() == old(Db())
    {
      SettableIff(Db(), aid);
      DecideKeepsSound(Db(), aid, status, 0, 0);
      changed := 0;
      if aid in rows && Awaiting(rows[aid].status) && Unclaimed(rows[aid].fin) {
        rows := rows[aid := rows[aid].(status := status)];
        changed := 1;
      }
    }

    method DeferCandidate(aid: nat, until: int)
      requires Valid()
      modifies this
      ensures Valid() && Db() == DeferTx(old(Db()), aid, until)
      ensures rows == if aid in old(rows) && Awaits(old(rows)[aid])
                      then old(rows)[aid := old(rows)[aid].(status := Deferred, expires := Some(until))] else old(rows)
    {
      SettableIff(Db(), aid);
      DecideKeepsSound(Db(), aid, Pending, until, 0);
      if aid in rows && Awaiting(rows[aid].status) && Unclaimed(rows[aid].fin) {
        rows := rows[aid := rows[aid].(status := Deferred, expires := Some(until))];
      }
    }

    method ResurfaceDeferred(now: int) returns (count: nat)
      requires Valid()
      modifies this
      ensures Valid() && Db() == ResurfaceTx(old(Db()), now)
      ensures rows.Keys == old(rows).Keys
      ensures forall a | a in rows ::
                rows[a] == if DueNow(old(rows)[a], now) then old(rows)[a].(status := Pending, expires := None)
                           else old(rows)[a]
      ensures count == |set a | a in old(rows) && DueNow(old(rows)[a], now)|
    {
      hide DeferTx, DueNow, ResurfaceTx, Resurfaced, SetStatusTx, Sound;
      ghost var before := Db();
      DueRows(before, now);
      DueIsCounted(before, now);
      DecideKeepsSound(before, 0, Pending, 0, now);
      count := 0;
      assert rows == ResurfacedBelow(before, now, 0) && |Due(before, now, 0)| == 0;
      for a := 0 to nextRow
        invariant nextRow == before.nextRow && events == before.events && nextEvent == before.nextEvent
        invariant rows == ResurfacedBelow(before, now, a) && count == |Due(before, now, a)|
      {
        ResurfaceOne(before, now, a);
        if a in rows && Resurfaced(rows[a], now) != rows[a] {
          rows := rows[a := Resurfaced(rows[a], now)];
          count := count + 1;
        }
      }
    }

    /** Gate and claim, under one lock; the gate walks the audit log from genesis to the receipt. */
    method GateAndClaim(log: AuditLog, aid: nat, wid: string, t0: int, readable: bool) returns (outcome: GateOutcome)
      requires Valid() && log.hasher == cfg.hasher
      modifies this
      ensures Valid()
      ensures outcome == GateDecision(cfg, old(Db()), log.rows, readable, aid, t0)
      ensures Db() == GateEffect(old(Db()), aid, wid, t0, outcome)
      ensures outcome.Claimed? ==> aid in old(rows) && Free(old(rows)[aid], t0)
    {
      GateClaimsIff(cfg, Db(), log.rows, readable, aid, t0);
      FinalizerKeepsSound(Db(), aid, wid, t0, GateDecision(cfg, Db(), log.rows, readable, aid, t0), "", 0);
      if cfg.approvers == {} || cfg.via == "" {
        return NotFinalizable;
      }
      if aid !in rows || rows[aid].status != Approved || rows[aid].event.None? {
        return NotFinalizable;
      }
      var row := rows[aid];
      if row.via != Some(cfg.via) || row.approver.None? || row.approver.value !in cfg.approvers {
        if row.fin != Finalized {
          rows := rows[aid := row.(fin := Failed)];
        }
        assert rows == WithRow(old(Db()), aid, MarkFailed(row)).rows;
        return UnprovenancedRow;
      }
      if row.fin == Finalized {
        return AlreadyFinalized(row.durable);
      }
      if LiveAt(row, t0) {
        return OwnedByLiveWorker;
      }
      var refusal := ReceiptGate(log, aid, row, readable);
      if refusal.Some? {
        rows := rows[aid := row.(fin := Failed)];
        return RefusedReceipt(refusal.value);
      }
      if !Claimable(row, t0) {
        return NotClaimable;
      }
      rows := rows[aid := row.(fin := Finalizing, worker := Some(wid), claimedAt := Some(t0))];
      return Claimed(row.cand, row.event.value, row.rnum.value);
    }

    method ReceiptGate(log: AuditLog, aid: nat, row: QRow, readable: bool) returns (refusal: Option<Refusal>)
      requires log.hasher == cfg.hasher
      ensures refusal == GateRefusal(cfg, aid, row, log.rows, readable)
    {
      if !HasReceipt(row) {
        return Some(NoReceipt);
      }
      if !readable {
        return Some(ReceiptUnreadable);
      }
      var verified := log.VerifyThrough(row.rnum.value);
      if verified.Err? {
        return Some(ReceiptUnverifiable);
      }
      return ReceiptRefusal(cfg, aid, row, verified.value);
    }

    method StillOwnsClaim(aid: nat, wid: string) returns (owns: bool)
      ensures owns == StillOwns(Db(), aid, wid)
    {
      owns := aid in rows && rows[aid].fin == Finalizing && rows[aid].worker == Some(wid);
    }

    method Record(aid: nat, wid: string, id: string, event: nat) returns (outcome: RecordOutcome)
      requires Valid()
      modifies this
      ensures Valid() && (Db(), outcome) == RecordTx(old(Db()), aid, wid, id, event)
    {
      FinalizerKeepsSound(Db(), aid, wid, 0, NotFinalizable, id, event);
      var completed := Some(event);
      if aid in rows && rows[aid].worker == Some(wid) && rows[aid].fin != Finalized {
        rows := rows[aid := rows[aid].(fin := Finalized, durable := Some(id), worker := Some(wid))];
      } else {
        if aid !in rows || rows[aid].fin == RtbfDeleting {
          return Lost;
        }
        if rows[aid].fin == Finalized && rows[aid].durable.Some? {
          return Elsewhere(rows[aid].durable.value);
        }
        completed := rows[aid].event;
        rows := rows[aid := rows[aid].(fin := Finalized, durable := Some(id), worker := Some(wid))];
      }
      if completed.Some? && completed.value in events {
        events := events[completed.value := events[completed.value].(completed := Some(id))];
      }
      return Here;
    }

    method Fail(aid: nat, wid: string)
      requires Valid()
      modifies this
      ensures Valid() && Db() == FailTx(old(Db()), aid, wid)
    {
      FinalizerKeepsSound(Db(), aid, wid, 0, NotFinalizable, "", 0);
      if aid in rows && rows[aid].worker == Some(wid) && rows[aid].fin != Finalized {
        rows := rows[aid := rows[aid].(fin := Failed)];
      }
    }

    /**
     `_scan_sidecar`: one pass over the events, then one over the rows in id order. With injective
     links this single pass finds exactly what is about the drawer.
     */
    method ScanSidecar(drawer: string) returns (stale: seq<nat>, found: set<nat>, extra: set<string>)
      requires Valid()
      ensures (set a | a in stale) == AboutRows(cfg, Db(), drawer)
      ensures found == AboutEvents(cfg, Db(), drawer) && extra == DivergentIds(cfg, Db(), drawer)
      ensures forall i, j | 0 <= i < j < |stale| :: stale[i] < stale[j]
      ensures forall a: nat :: a in stale <==> Concerns(cfg, Db(), a, drawer)
    {
      AboutIff(cfg, Db(), drawer);
      found := {};
      for e := 0 to nextEvent
        invariant found == set x | x in events && x < e && EventAbout(events[x], drawer)
      {
        if e in events && EventAbout(events[e], drawer) {
          found := found + {e};
        }
      }
      ghost var seeds := found;
      stale := [];
      for a := 0 to nextRow
        invariant forall k | 0 <= k < |stale| :: stale[k] < a
        invariant forall i, j | 0 <= i < j < |stale| :: stale[i] < stale[j]
        invariant forall x: nat :: x in stale <==> x < a && RowAbout(cfg, Db(), x, drawer)
        invariant found == seeds + set x | x in rows && x < a && RowNames(cfg, rows[x], drawer) && rows[x].event.Some?
                                         :: rows[x].event.value
      {
        if a in rows {
          var row := rows[a];
          if row.event.Some? && row.event.value in found {
            stale := stale + [a];
          } else if cfg.memoryId(row.cand) == Some(drawer) {
            stale := stale + [a];
            if row.event.Some? {
              found := found + {row.event.value};
            }
          }
        }
      }
      extra := set e | e in found && e in events && events[e].completed.Some? && events[e].completed.value != drawer
                       && events[e].completed.value != "" :: events[e].completed.value;
    }

    /** `_claim_sidecar_for_rtbf`: raise if a live finalize holds any matching row, else hold them all. */
    method ClaimSidecarForRtbf(drawer: string, t0: int) returns (claimed: Option<seq<nat>>)
      requires Valid()
      modifies this
      ensures Valid()
      ensures match ForgetClaimTx(cfg, old(Db()), drawer, t0)
              case None => claimed.None? && Db() == old(Db())
              case Some(done) => claimed.Some? && Db() == done.0 && (set a | a in claimed.value) == done.1
      ensures claimed.Some? ==> forall i, j | 0 <= i < j < |claimed.value| :: claimed.value[i] < claimed.value[j]
      ensures claimed.None? <==> exists a | Concerns(cfg, old(Db()), a, drawer) :: HeldLive(old(rows)[a], t0)
    {
      DeferredIff(cfg, Db(), drawer, t0);
      hide Concerns, HeldLive, Sound, AboutRows, AboutEvents, DivergentIds, ForgetClaimTx;
      ghost var before := Db();
      var stale, _, _ := ScanSidecar(drawer);
      ClaimDecision(cfg, before, drawer, t0, stale);
      for i := 0 to |stale|
        invariant forall k | 0 <= k < i :: !LiveAt(rows[stale[k]], t0)
      {
        if LiveAt(rows[stale[i]], t0) {
          return None;
        }
      }
      ForgetClaimKeepsSound(cfg, before, drawer, t0);
      for i := 0 to |stale|
        invariant nextRow == old(nextRow) && events == old(events) && nextEvent == old(nextEvent)
        invariant rows.Keys == old(rows).Keys
        invariant forall x | x in rows :: rows[x] == if x in stale[..i] then ForForget(old(rows)[x]) else old(rows)[x]
      {
        rows := rows[stale[i] := rows[stale[i]].(fin := RtbfDeleting, worker := Some(RTBF_WORKER))];
        assert stale[..i + 1] == stale[..i] + [stale[i]];
      }
      assert stale[..|stale|] == stale;
      assert rows == ClaimRows(before, AboutRows(cfg, before, drawer)).rows by {
        assert forall a :: a in AboutRows(cfg, before, drawer) <==> a in set x | x in stale;
      }
      claimed := Some(stale);
    }

    /** `_hard_delete_sidecar`: scan again under the lock, then purge exactly what was found. */
    method HardDeleteSidecar(drawer: string)
      requires Valid()
      modifies this
      ensures Valid() && Db() == PurgeTx(cfg, old(Db()), drawer)
      ensures AboutRows(cfg, Db(), drawer) == {} && AboutEvents(cfg, Db(), drawer) == {}
      ensures forall a | a in rows :: cfg.memoryId(rows[a].cand) != Some(drawer)
      ensures forall e | e in events :: events[e].completed != Some(drawer) && events[e].identity != Some(drawer)
      ensures forall a | a in old(rows) && !Concerns(cfg, old(Db()), a, drawer) :: a in rows && rows[a] == old(rows)[a]
    {
      AboutIff(cfg, Db(), drawer);
      AboutIff(cfg, PurgeTx(cfg, Db(), drawer), drawer);
      hide Sound, AboutRows, AboutEvents, DivergentIds;
      PurgeIsExact(cfg, Db(), drawer);
      var stale, found, _ := ScanSidecar(drawer);
      ghost var before := Db();
      rows := rows - set a | a in stale;
      events := events - found;
      assert rows == before.rows - AboutRows(cfg, before, drawer);
      assert Db() == PurgeTx(cfg, before, drawer);
    }

    /**
     `_backfill_one`: re-validate, append, stamp, under one lock. `crash` stops it between the
     append and the stamp.
     */
    method BackfillOne(log: AuditLog, aid: nat, inspection: Inspection, crash: bool, ts: int, principal: string,
                       tenant: string) returns (stamped: bool)
      requires Valid() && log.hasher == cfg.hasher
      modifies this, log
      ensures Valid()
      ensures (Db(), log.rows) ==
              BackfillTx(cfg, old(Db()), old(log.rows), aid, inspection, crash, ts, principal, tenant)
      ensures stamped <==> aid in old(rows) && BackfillReady(old(rows)[aid], inspection) && !crash
      ensures stamped <==>
                && aid in old(rows) && !crash
                && var row := old(rows)[aid];
                   && row.status == Approved && row.event.Some? && row.via.Some? && row.approver.Some?
                   && row.rnum.None?
                   && (row.fin == Idle || row.fin == Failed
                       || (row.fin == Finalizing && (inspection == MarkerFound || inspection == MarkerAbsent)))
    {
      BackfillKeepsSound(cfg, Db(), log.rows, aid, inspection, crash, ts, principal, tenant);
      if aid !in rows || !NeedsReceipt(rows[aid]) {
        return false;
      }
      var row := rows[aid];
      if row.fin == Finalizing && (inspection == LookupUnavailable || inspection == LookupFailed) {
        return false;
      }
      var num := log.Write(BackfillEntry(cfg, aid, row, inspection, ts, principal, tenant));
      if crash {
        return false;
      }
      var hash := log.rows[|log.rows| - 1].hash;
      rows := rows[aid := row.(rnum := Some(num), rhash := Some(hash), sha := Some(cfg.fingerprint(row.cand)))];
      return true;
    }
  }

  /**
   Injective links are what makes the single pass enough. Two rows sharing one event: the row
   that does not name the drawer is visited first, stays, and is left linked to a purged event.
   */
  lemma SharedEventBreaksTheSinglePass() returns (cfg: Config, db: Db)
    ensures forall a | a in db.rows :: db.rows[a].status == Approved && db.rows[a].event.Some?
    ensures !ClosedUnderLinks(db, AboutRows(cfg, db, "d"), AboutEvents(cfg, db, "d"))
    ensures !Sound(db)
  {
    cfg := Config({}, "", "", (p, c) => "", b => "", b => None, b => None, b => if b == "x" then Some("d") else None,
                  n => None);
    var row := QRow("y", Approved, None, Some(1), None, None, None, None, None, Idle, None, None, None, None);
    db := Queue.Db.Db(map[1 := row, 2 := row.(cand := "x")], map[1 := Event(2, None, None)], 3, 2);
    assert 1 in AboutEvents(cfg, db, "d") && 1 !in AboutRows(cfg, db, "d") by {
      assert 2 in db.rows && RowNames(cfg, db.rows[2], "d");
    }
  }
}
