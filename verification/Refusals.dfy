/**
 When a refused finalize call on a row that a forget holds leads to an orphan: exactly when the
 forget is still running and the approval can still be written, which takes bytes a payload can be
 built from, a store id that is not awaiting cleanup anyway, and a row that can still be brought to
 pass the gates. The forget sweeps, another worker claims, writes and records the revived row, and
 the purge takes the approval away again.
 */
module Refusals {
  import opened Basics
  import opened AuditChain
  import opened Queue
  import opened QueueLaws
  import opened Protocol
  import opened ProtocolFrames
  import opened Invariants
  import opened Orphans
  import opened Released

  /** A running forget holds the approval. */
  ghost predicate HeldByRunning(s: State, a: nat) {
    exists p :: Sweeping(s, p) && a in s.forgets[p].claimed
  }

  /** The call is effective and refuses a held row. */
  ghost predicate RefusesHeld(cfg: Config, s: State, step: Step) {
    && step.Gate? && step.wid !in s.workers && step.wid != RTBF_WORKER && step.t0 <= s.now
    && step.aid in s.db.rows && s.db.rows[step.aid].fin == RtbfDeleting
    && RefusedBy(cfg, s, step, step.aid)
  }

  lemma RefusedState(cfg: Config, s: State, step: Step)
    requires RefusesHeld(cfg, s, step)
    ensures Configured(cfg)
    ensures Apply(cfg, s, step) == s.(db := WithRow(s.db, step.aid, s.db.rows[step.aid].(fin := Failed)))
  {
    hide GateRefusal;
  }

  // ---------------------------------------------------------------- no running forget, no harm

  /** Held by no running forget, the row may be revived: nothing is swept behind its back. */
  lemma AbandonedIsSafe(cfg: Config, s: State, step: Step)
    requires SafeInv(cfg, s) && RefusesHeld(cfg, s, step) && !HeldByRunning(s, step.aid)
    ensures SafeInv(cfg, Apply(cfg, s, step))
  {
    var s' := Apply(cfg, s, step);
    RefusedState(cfg, s, step);
    RefusalIsAGate(cfg, s, step);
    hide Apply, RefusesHeld, CoreInv, ForgetInv, CoverInv, HeldByRunning;
    CoreStep(cfg, s, step);
    OtherForgetsStand(cfg, s, s', step.aid);
    CoverStands(s, s');
  }

  lemma RefusalIsAGate(cfg: Config, s: State, step: Step)
    requires RefusesHeld(cfg, s, step)
    ensures step.Gate? && step.aid in s.db.rows
  {
  }

  lemma OtherForgetsStand(cfg: Config, s: State, s': State, a: nat)
    requires ForgetInv(cfg, s) && !HeldByRunning(s, a) && a in s.db.rows
    requires s' == s.(db := WithRow(s.db, a, s.db.rows[a].(fin := Failed)))
    ensures ForgetInv(cfg, s')
  {
    hide ForgetOk;
    forall p | Sweeping(s', p) ensures ForgetOk(cfg, s', s'.forgets[p]) {
      assert Sweeping(s, p);
      ForgetIsElsewhere(cfg, s, s', s.forgets[p], a);
    }
  }

  lemma CoverStands(s: State, s': State)
    requires CoverInv(s) && s' == s.(db := s'.db) && s'.db.rows.Keys == s.db.rows.Keys
    ensures CoverInv(s')
  {
    forall id | id in s'.store && s'.store[id].active && s'.store[id].mark.Some?
      ensures Covered(s', s'.store[id].mark.value.aid, id)
    {
      StillCovered(s, s', s'.store[id].mark.value.aid, id);
    }
  }

  lemma ForgetIsElsewhere(cfg: Config, s: State, s': State, f: Forget, a: nat)
    requires ForgetOk(cfg, s, f) && a !in f.claimed && a in s.db.rows && s'.cands == s.cands
    requires s'.db == WithRow(s.db, a, s.db.rows[a].(fin := Failed))
    ensures ForgetOk(cfg, s', f)
  {
  }

  lemma StillCovered(s: State, s': State, aid: nat, id: string)
    requires Covered(s, aid, id) && s'.db.rows.Keys == s.db.rows.Keys
    requires s'.forgets == s.forgets && s'.workers == s.workers && s'.pending == s.pending
    ensures Covered(s', aid, id)
  {
    AttendedAlike(s, s', aid, id);
  }

  // ---------------------------------------------------------------- a running forget, and its undoing

  /** A running forget claims a failed row that passes the gates, and the store holds nothing. */
  ghost predicate Revivable(cfg: Config, s: State, p: nat, a: nat, id: string) {
    && Configured(cfg) && s.store == map[] && Sweeping(s, p) && a in s.forgets[p].claimed
    && Restorable(cfg, s, a, id) && RowAbout(cfg, s.db, a, s.forgets[p].drawer)
  }

  ghost predicate Restorable(cfg: Config, s: State, a: nat, id: string) {
    && a in s.db.rows && s.db.rows[a].fin == Failed && Accepted(cfg, a, s.db.rows[a], s.audit)
    && cfg.contentHash(s.db.rows[a].cand) == Some(id)
    && s.db.rows[a].event.value in s.db.events
    && (RecordedId(s.db, a).Some? ==> RecordedId(s.db, a) == Some(id))
  }

  /** Other users may empty the store. */
  lemma EmptyStore(cfg: Config, base: State, t: seq<Step>) returns (t': seq<Step>, s': State)
    requires CarefulRun(cfg, base, t)
    ensures CarefulRun(cfg, base, t') && s' == Run(cfg, base, t')
    ensures s' == Run(cfg, base, t).(store := map[])
    decreases Run(cfg, base, t).store.Keys
  {
    hide *;
    var s := Run(cfg, base, t);
    if other :| other in s.store {
      DeleteAny(cfg, s, other);
      CarefulOne(cfg, base, t, StoreDelete(other));
      t', s' := EmptyStore(cfg, base, t + [StoreDelete(other)]);
    } else {
      assert s.store == map[];
      t', s' := t, s;
    }
  }

  lemma DeleteAny(cfg: Config, s: State, id: string)
    requires id in s.store
    ensures var s' := Apply(cfg, s, StoreDelete(id));
            Careful(cfg, s, StoreDelete(id)) && s' == s.(store := s'.store) && s'.store.Keys < s.store.Keys
  {
    assert (s.store - {id}).Keys == s.store.Keys - {id};
  }

  /** Over an empty store the forget finishes its sweep without finding anything. */
  lemma SweepEmpty(cfg: Config, base: State, t: seq<Step>, p: nat) returns (t': seq<Step>, s': State)
    requires CarefulRun(cfg, base, t) && Sweeping(Run(cfg, base, t), p) && Run(cfg, base, t).store == map[]
    requires Run(cfg, base, t).forgets[p].found.None?
    ensures CarefulRun(cfg, base, t') && s' == Run(cfg, base, t') && PurgeReady(s', p)
    ensures s' == Run(cfg, base, t).(forgets := s'.forgets)
    ensures SameHold(Run(cfg, base, t), s', p)
    decreases Run(cfg, base, t).forgets[p].claimed - Run(cfg, base, t).forgets[p].swept
  {
    hide CarefulRun, Run, Apply, Careful;
    var s := Run(cfg, base, t);
    var rest := s.forgets[p].claimed - s.forgets[p].swept;
    if rest != {} {
      var other :| other in rest;
      FindNothing(cfg, s, p, other);
      CarefulOne(cfg, base, t, SweepFind(p, other));
      t', s' := SweepEmpty(cfg, base, t + [SweepFind(p, other)], p);
    } else {
      forall a | a in s.forgets[p].claimed ensures a in s.forgets[p].swept {
        assert a !in rest;
      }
      t', s' := t, s;
    }
  }

  ghost predicate SameHold(s: State, s': State, p: nat) {
    && p in s.forgets && p in s'.forgets
    && s'.forgets[p].claimed == s.forgets[p].claimed && s'.forgets[p].drawer == s.forgets[p].drawer
  }

  lemma FindNothing(cfg: Config, s: State, p: nat, a: nat)
    requires Sweeping(s, p) && s.forgets[p].found.None? && s.store == map[]
    requires a in s.forgets[p].claimed - s.forgets[p].swept
    ensures var s', f := Apply(cfg, s, SweepFind(p, a)), s.forgets[p];
            && Careful(cfg, s, SweepFind(p, a)) && s' == s.(forgets := s'.forgets) && Sweeping(s', p)
            && s'.forgets[p] == f.(swept := f.swept + {a})
  {
    assert MarkerHits(s, a) == {};
  }

  lemma DeleteNothing(cfg: Config, s: State, p: nat)
    requires Sweeping(s, p) && s.forgets[p].found.Some? && s.store == map[]
    ensures var s', f := Apply(cfg, s, SweepDelete(p)), s.forgets[p];
            && Careful(cfg, s, SweepDelete(p)) && s' == s.(forgets := s'.forgets) && Sweeping(s', p)
            && s'.forgets[p] == f.(swept := f.swept + {f.found.value.0}, found := None)
  {
    assert s.store - {s.forgets[p].found.value.1} == map[];
  }

  /** So a forget can always get to its purge over an empty store. */
  lemma SweepOut(cfg: Config, base: State, t: seq<Step>, p: nat) returns (t': seq<Step>, s: State)
    requires CarefulRun(cfg, base, t) && Sweeping(Run(cfg, base, t), p)
    ensures CarefulRun(cfg, base, t') && s == Run(cfg, base, t') && PurgeReady(s, p)
    ensures s == Run(cfg, base, t).(store := map[], forgets := s.forgets) && SameHold(Run(cfg, base, t), s, p)
  {
    hide CarefulRun, Run, Apply, Careful;
    t', s := EmptyStore(cfg, base, t);
    if s.forgets[p].found.Some? {
      DeleteNothing(cfg, s, p);
      CarefulOne(cfg, base, t', SweepDelete(p));
      t' := t' + [SweepDelete(p)];
    }
    t', s := SweepEmpty(cfg, base, t', p);
  }

  /** Over an empty store no worker holds a row, so the workers of this approval may all die. */
  lemma Drain(cfg: Config, base: State, t: seq<Step>, a: nat, id: string) returns (t': seq<Step>, s: State)
    requires CarefulRun(cfg, base, t) && Run(cfg, base, t).store == map[]
    ensures CarefulRun(cfg, base, t') && s == Run(cfg, base, t') && !Attended(s, a, id)
    ensures s == Run(cfg, base, t).(workers := s.workers)
    decreases Flying(Run(cfg, base, t), a, id)
  {
    s := Run(cfg, base, t);
    t' := t;
    hide CarefulRun, Run, Apply, Careful;
    if w :| w in Flying(s, a, id) {
      DieUnheld(cfg, s, w, a, id);
      CarefulOne(cfg, base, t, Crash(w));
      t', s := Drain(cfg, base, t + [Crash(w)], a, id);
    } else {
      assert forall w :: InFlight(s, w, a, id) ==> w in Flying(s, a, id);
    }
  }

  ghost function Flying(s: State, a: nat, id: string): set<string> {
    set w | w in s.workers && InFlight(s, w, a, id)
  }

  lemma DieUnheld(cfg: Config, s: State, w: string, a: nat, id: string)
    requires w in Flying(s, a, id) && s.store == map[]
    ensures var s' := Apply(cfg, s, Crash(w));
            && Careful(cfg, s, Crash(w)) && s' == s.(workers := s'.workers)
            && Flying(s', a, id) < Flying(s, a, id)
  {
    var s' := Apply(cfg, s, Crash(w));
    assert s' == Move(s, w, Crashed);
    assert w !in Flying(s', a, id);
    assert forall x | x in Flying(s', a, id) :: x in Flying(s, a, id);
  }

  /** The worker that takes the revived row. */
  ghost function Reviver(cfg: Config, s: State, a: nat, phase: Phase): Worker
    requires a in s.db.rows && s.db.rows[a].event.Some? && s.db.rows[a].rnum.Some?
  {
    var row := s.db.rows[a];
    Worker(a, row.cand, row.event.value, s.now, row.rnum.value, Author(cfg, s.audit, row.rnum.value), |s.audit|, phase)
  }

  /** The revived row, claimed and checked by worker `w`, whose write has landed and is recorded. */
  ghost function Restored(cfg: Config, s: State, a: nat, id: string, w: string): State
    requires a in s.db.rows && s.db.rows[a].event.Some? && s.db.rows[a].rnum.Some?
  {
    var wk := Reviver(cfg, s, a, Ended);
    var db := WithRow(s.db, a, Claim(s.db.rows[a], w, s.now));
    s.(db := Recorded(db, a, w, id, s.db.rows[a].event), workers := s.workers[w := wk],
       store := map[id := StoreRow(Some(Mark(a, wk.cand, wk.receipt, wk.author, wk.logLength)), true)],
       wins := s.wins + multiset{a})
  }

  lemma AcceptedHasReceipt(cfg: Config, s: State, a: nat, id: string)
    requires Restorable(cfg, s, a, id)
    ensures s.db.rows[a].event.Some? && s.db.rows[a].rnum.Some?
  {
    assert HasReceipt(s.db.rows[a]);
  }

  lemma ClaimRestorable(cfg: Config, s: State, a: nat, id: string, w: string)
    requires Configured(cfg) && Restorable(cfg, s, a, id) && w !in s.workers && w != RTBF_WORKER
    ensures s.db.rows[a].event.Some? && s.db.rows[a].rnum.Some?
    ensures var gate := Step.Gate(w, a, s.now, true);
            && Careful(cfg, s, gate)
            && Apply(cfg, s, gate) == s.(db := WithRow(s.db, a, Claim(s.db.rows[a], w, s.now)),
                                         workers := s.workers[w := Reviver(cfg, s, a, Holding)])
  {
    AcceptedHasReceipt(cfg, s, a, id);
    hide GateRefusal, Author;
  }

  lemma CheckRestored(cfg: Config, s: State, a: nat, w: string, wk: Worker, id: string)
    requires w in s.workers && s.workers[w] == wk && wk.phase == Holding && wk.aid == a && Owns(s, w)
    requires cfg.contentHash(wk.cand) == Some(id)
    ensures Careful(cfg, s, Check(w, true))
    ensures Apply(cfg, s, Check(w, true)) == s.(workers := s.workers[w := wk.(phase := Revalidated)])
  {
  }

  lemma WriteRestored(cfg: Config, s: State, w: string, wk: Worker, id: string)
    requires w in s.workers && s.workers[w] == wk && wk.phase == Revalidated && s.store == map[]
    requires cfg.contentHash(wk.cand) == Some(id)
    ensures Careful(cfg, s, Write(w, Lands))
    ensures Apply(cfg, s, Write(w, Lands)) ==
            s.(workers := s.workers[w := wk.(phase := Wrote(id))],
               store := map[id := StoreRow(Some(Mark(wk.aid, wk.cand, wk.receipt, wk.author, wk.logLength)), true)])
  {
  }

  lemma RecordRestored(cfg: Config, s: State, w: string, wk: Worker, id: string)
    requires w in s.workers && s.workers[w] == wk && wk.phase == Wrote(id) && Owns(s, w)
    ensures Careful(cfg, s, Step.Record(w))
    ensures Apply(cfg, s, Step.Record(w)) ==
            s.(workers := s.workers[w := wk.(phase := Ended)], db := Recorded(s.db, wk.aid, w, id, Some(wk.event)),
               wins := s.wins + multiset{wk.aid})
  {
  }

  /** Claim, check, write, record: all careful steps. */
  lemma Restore(cfg: Config, base: State, t: seq<Step>, a: nat, id: string, w: string) returns (t': seq<Step>)
    requires CarefulRun(cfg, base, t)
    requires var s := Run(cfg, base, t);
             Configured(cfg) && Restorable(cfg, s, a, id) && w !in s.workers && w != RTBF_WORKER && s.store == map[]
    ensures var s := Run(cfg, base, t);
            && CarefulRun(cfg, base, t') && s.db.rows[a].event.Some? && s.db.rows[a].rnum.Some?
            && Run(cfg, base, t') == Restored(cfg, s, a, id, w)
  {
    var s := Run(cfg, base, t);
    AcceptedHasReceipt(cfg, s, a, id);
    assert cfg.contentHash(s.db.rows[a].cand) == Some(id);
    hide CarefulRun, Run, Apply, Careful, Restorable, Author, Configured;
    var wk := Reviver(cfg, s, a, Holding);
    ClaimRestorable(cfg, s, a, id, w);
    CarefulOne(cfg, base, t, Step.Gate(w, a, s.now, true));
    t' := t + [Step.Gate(w, a, s.now, true)];
    CheckRestored(cfg, Run(cfg, base, t'), a, w, wk, id);
    CarefulOne(cfg, base, t', Check(w, true));
    t' := t' + [Check(w, true)];
    WriteRestored(cfg, Run(cfg, base, t'), w, wk.(phase := Revalidated), id);
    CarefulOne(cfg, base, t', Write(w, Lands));
    t' := t' + [Write(w, Lands)];
    RecordRestored(cfg, Run(cfg, base, t'), w, wk.(phase := Wrote(id)), id);
    CarefulOne(cfg, base, t', Step.Record(w));
    t' := t' + [Step.Record(w)];
    RestoredIs(cfg, s, Run(cfg, base, t'), a, id, w);
  }

  lemma RestoredIs(cfg: Config, s: State, s': State, a: nat, id: string, w: string)
    requires a in s.db.rows && s.db.rows[a].event.Some? && s.db.rows[a].rnum.Some?
    requires var wk := Reviver(cfg, s, a, Holding);
             var db := WithRow(s.db, a, Claim(s.db.rows[a], w, s.now));
             s' == s.(db := Recorded(db, a, w, id, Some(wk.event)),
                      workers := s.workers[w := wk][w := wk.(phase := Revalidated)][w := wk.(phase := Wrote(id))]
                                          [w := wk.(phase := Ended)],
                      store := map[id := StoreRow(Some(Mark(a, wk.cand, wk.receipt, wk.author, wk.logLength)), true)],
                      wins := s.wins + multiset{a})
    ensures s' == Restored(cfg, s, a, id, w)
  {
    var wk := Reviver(cfg, s, a, Holding);
    assert s.workers[w := wk][w := wk.(phase := Revalidated)][w := wk.(phase := Wrote(id))][w := wk.(phase := Ended)]
           == s.workers[w := wk.(phase := Ended)];
  }

  /** The purge of the forget then takes the restored approval away from its row. */
  lemma PurgeUndoes(cfg: Config, s: State, p: nat, a: nat, id: string, w: string)
    requires Revivable(cfg, s, p, a, id) && PurgeReady(s, p) && w !in s.workers
    requires id !in s.pending && !Attended(s, a, id)
    ensures s.db.rows[a].event.Some? && s.db.rows[a].rnum.Some?
    ensures var s1 := Restored(cfg, s, a, id, w);
            Careful(cfg, s1, Purge(p)) && !NoOrphan(Apply(cfg, s1, Purge(p)))
  {
    AcceptedHasReceipt(cfg, s, a, id);
    StaysAbout(cfg, s, p, a, id, w);
    hide Accepted, Author, Restorable;
    var s1 := Restored(cfg, s, a, id, w);
    assert forall x | InFlight(s1, x, a, id) :: InFlight(s, x, a, id);
    hide Restored;
    PurgeOrphans(cfg, s1, p, a, id);
  }

  lemma PurgeOrphans(cfg: Config, s: State, p: nat, a: nat, id: string)
    requires PurgeReady(s, p) && a in s.forgets[p].claimed && RowAbout(cfg, s.db, a, s.forgets[p].drawer)
    requires s.store.Keys == {id} && Carries(s.store[id], a) && id !in s.pending && !Attended(s, a, id)
    ensures Careful(cfg, s, Purge(p)) && !NoOrphan(Apply(cfg, s, Purge(p)))
  {
    var s' := Apply(cfg, s, Purge(p));
    AttendedAlike(s, s', a, id);
    assert id in s'.store;
  }

  lemma StaysAbout(cfg: Config, s: State, p: nat, a: nat, id: string, w: string)
    requires Revivable(cfg, s, p, a, id) && s.db.rows[a].event.Some? && s.db.rows[a].rnum.Some?
    ensures RowAbout(cfg, Restored(cfg, s, a, id, w).db, a, s.forgets[p].drawer)
  {
    hide Accepted, Author;
  }

  /** There is always a worker id that nobody has used. */
  lemma FreshName(names: set<string>) returns (w: string)
    ensures w !in names
  {
    var n := LongerThanAll(names);
    w := seq(n, _ => 'w');
    assert |w| == n;
  }

  lemma {:induction false} LongerThanAll(names: set<string>) returns (n: nat)
    ensures forall x | x in names :: |x| < n
    decreases |names|
  {
    if names == {} {
      n := 0;
    } else {
      var x :| x in names;
      var m := LongerThanAll(names - {x});
      n := if m > |x| then m else |x| + 1;
      forall y | y in names ensures |y| < n {
        assert y == x || y in names - {x};
      }
    }
  }

  lemma RunningIsDoomed(cfg: Config, base: State, t: seq<Step>, p: nat, a: nat, id: string)
    requires CarefulRun(cfg, base, t)
    requires var s := Run(cfg, base, t);
             && Configured(cfg) && Sweeping(s, p) && a in s.forgets[p].claimed && Restorable(cfg, s, a, id)
             && RowAbout(cfg, s.db, a, s.forgets[p].drawer) && id !in s.pending
    ensures Doomed(cfg, base)
  {
    hide CarefulRun, Run, Apply, Careful, Accepted, NoOrphan, RowAbout, RecordedId, Attended;
    var t1, s1 := SweepOut(cfg, base, t, p);
    var t2, s2 := Drain(cfg, base, t1, a, id);
    assert Revivable(cfg, s2, p, a, id);
    var w := FreshName(s2.workers.Keys + {RTBF_WORKER});
    var t3 := Restore(cfg, base, t2, a, id, w);
    PurgeUndoes(cfg, s2, p, a, id, w);
    CarefulOne(cfg, base, t3, Purge(p));
  }

  // ---------------------------------------------------------------- bringing a row to pass the gates

  lemma LogAll(cfg: Config, base: State, t: seq<Step>, es: seq<Entry>) returns (t': seq<Step>)
    requires CarefulRun(cfg, base, t)
    ensures CarefulRun(cfg, base, t')
    ensures var s := Run(cfg, base, t);
            Run(cfg, base, t') == s.(audit := AppendAll(cfg.hasher, s.audit, es))
    decreases |es|
  {
    hide CarefulRun, Run;
    if es == [] {
      t' := t;
    } else {
      CarefulOne(cfg, base, t, Step.Log(es[0]));
      t' := LogAll(cfg, base, t + [Step.Log(es[0])], es[1..]);
    }
  }

  /** One approve step stamps what is missing and leaves the rest of the row alone. */
  lemma StampPasses(cfg: Config, s: State, a: nat, row: QRow)
    requires a in s.db.rows && ApprovedWithEvent(s.db.rows[a]) && s.db.rows[a].event.value != 0
    requires RowEvolves(s.db.rows[a], row) && Accepted(cfg, a, row, s.audit)
    ensures row.rnum.Some? && row.rhash.Some? && row.sha.Some?
    ensures var receipt := Receipt(row.rnum.value, row.rhash.value, row.sha.value);
            var step := Step.Approve(a, row.via, row.approver, Some(receipt));
            var row' := Reapproved(s.db.rows[a], row.via, row.approver, Some(receipt));
            && Careful(cfg, s, step) && Apply(cfg, s, step) == s.(db := WithRow(s.db, a, row'))
            && Accepted(cfg, a, row', s.audit)
  {
    hide Linked, ValidThrough;
    assert HasReceipt(row);
    assert Some(cfg.fingerprint(row.cand)) == row.sha;
  }

  /** A failed row of an approval that can still be written: all it may lack is a stamp. */
  ghost predicate Redrivable(cfg: Config, s: State, a: nat, id: string) {
    && a in s.db.rows && s.db.rows[a].fin == Failed && ApprovedWithEvent(s.db.rows[a])
    && s.db.rows[a].event.value != 0 && s.db.rows[a].event.value in s.db.events
    && Redeemable(cfg, a, s.db.rows[a], s.audit) && cfg.contentHash(s.db.rows[a].cand) == Some(id)
    && (RecordedId(s.db, a).Some? ==> RecordedId(s.db, a) == Some(id))
  }

  lemma Redeem(cfg: Config, s: State, a: nat, id: string) returns (t: seq<Step>)
    requires Redrivable(cfg, s, a, id)
    ensures CarefulRun(cfg, s, t) && Restorable(cfg, Run(cfg, s, t), a, id)
    ensures var s' := Run(cfg, s, t);
            && s' == s.(db := s'.db, audit := s'.audit)
            && forall drawer | RowAbout(cfg, s.db, a, drawer) :: RowAbout(cfg, s'.db, a, drawer)
  {
    var row, es :| RowEvolves(s.db.rows[a], row) && Accepted(cfg, a, row, AppendAll(cfg.hasher, s.audit, es));
    assert CarefulRun(cfg, s, []) && Run(cfg, s, []) == s;
    hide Accepted, Apply, Careful, CarefulRun, Run;
    t := LogAll(cfg, s, [], es);
    var s1 := Run(cfg, s, t);
    StampPasses(cfg, s1, a, row);
    var receipt := Receipt(row.rnum.value, row.rhash.value, row.sha.value);
    CarefulOne(cfg, s, t, Step.Approve(a, row.via, row.approver, Some(receipt)));
    t := t + [Step.Approve(a, row.via, row.approver, Some(receipt))];
  }

  // ---------------------------------------------------------------- the exact condition

  /**
   Which refused finalize call on a held row dooms a careful run: one that revives an approval which
   can still be written, under a forget that is still running. Nothing is asked of the row, of the
   log, or of the workers in flight; `RedeemableIff` says which rows can still pass the gates.
   */
  lemma RefusalDoomsIff(cfg: Config, s: State, step: Step)
    requires SafeInv(cfg, s) && AcceptInv(cfg, s) && RefusesHeld(cfg, s, step)
    ensures var row := s.db.rows[step.aid];
            Doomed(cfg, Apply(cfg, s, step)) <==>
              && HeldByRunning(s, step.aid)
              && cfg.contentHash(row.cand).Some? && cfg.contentHash(row.cand).value !in s.pending
              && Redeemable(cfg, step.aid, row, s.audit)
  {
    var a, row, s' := step.aid, s.db.rows[step.aid], Apply(cfg, s, step);
    assert s.cands[a] == row.cand;
    if !HeldByRunning(s, a) {
      hide Doomed, Apply, SafeInv;
      AbandonedIsSafe(cfg, s, step);
      SafeIsNotDoomed(cfg, s');
    } else if Spent(cfg, s, a) {
      hide Doomed, Apply, SafeInv, AcceptInv, RefusesHeld, Spent;
      SpentRefusalIsSafe(cfg, s, step);
      LetGoIsNotDoomed(cfg, s', a);
    } else {
      var p :| Sweeping(s, p) && a in s.forgets[p].claimed;
      hide Doomed, Apply, SafeInv, AcceptInv, RefusesHeld;
      RevivalDooms(cfg, s, step, p, cfg.contentHash(row.cand).value);
    }
  }

  /** The claim on a spent approval may be let go, so its row may be revived. */
  lemma SpentRefusalIsSafe(cfg: Config, s: State, step: Step)
    requires SafeInv(cfg, s) && AcceptInv(cfg, s) && RefusesHeld(cfg, s, step) && Spent(cfg, s, step.aid)
    ensures LetGoInv(cfg, Apply(cfg, s, step), step.aid)
  {
    var a, w, s' := step.aid, Without(s, step.aid), Apply(cfg, s, step);
    RefusalIsAGate(cfg, s, step);
    assert !HeldByRunning(w, a);
    assert RefusesHeld(cfg, w, step);
    hide Apply, RefusesHeld, HeldByRunning, AcceptInv, Spent, Without, CoverInv, ForgetInv, RowInv, MarkInv;
    WithoutIsSafe(cfg, s, a);
    AbandonedIsSafe(cfg, w, step);
    OthersReadNoForget(cfg, s, w.forgets, step);
    WithoutAfterRefusal(cfg, s, step);
    SpentStep(cfg, s, step, a);
    AcceptInvStep(cfg, s, step);
  }

  lemma WithoutAfterRefusal(cfg: Config, s: State, step: Step)
    requires RefusesHeld(cfg, s, step)
    ensures Without(Apply(cfg, s, step), step.aid) ==
            Apply(cfg, s, step).(forgets := Without(s, step.aid).forgets)
  {
    hide Apply;
    QuietForgets(cfg, s, step);
  }

  lemma RevivalDooms(cfg: Config, s: State, step: Step, p: nat, id: string)
    requires SafeInv(cfg, s) && RefusesHeld(cfg, s, step) && Sweeping(s, p) && step.aid in s.forgets[p].claimed
    requires var row := s.db.rows[step.aid];
             cfg.contentHash(row.cand) == Some(id) && Redeemable(cfg, step.aid, row, s.audit)
    requires id !in s.pending
    ensures Doomed(cfg, Apply(cfg, s, step))
  {
    var s' := Apply(cfg, s, step);
    RefusedState(cfg, s, step);
    RefusedIsRedrivable(cfg, s, step, p, id);
    hide Apply, RefusesHeld, SafeInv, Redrivable, Redeemable, RowAbout, Doomed;
    var t := Redeem(cfg, s', step.aid, id);
    RunningIsDoomed(cfg, s', t, p, step.aid, id);
  }

  lemma RefusedIsRedrivable(cfg: Config, s: State, step: Step, p: nat, id: string)
    requires SafeInv(cfg, s) && RefusesHeld(cfg, s, step) && Sweeping(s, p) && step.aid in s.forgets[p].claimed
    requires var row := s.db.rows[step.aid];
             cfg.contentHash(row.cand) == Some(id) && Redeemable(cfg, step.aid, row, s.audit)
    ensures var s' := Apply(cfg, s, step);
            Redrivable(cfg, s', step.aid, id) && RowAbout(cfg, s'.db, step.aid, s'.forgets[p].drawer)
  {
    var row := s.db.rows[step.aid];
    RefusedState(cfg, s, step);
    RefusalHasEvent(cfg, s, step);
    SharedEvent(cfg, s, step.aid, p);
    FailedIsRedeemable(cfg, step.aid, row, s.audit);
    assert Sound(s.db);
    hide Apply, RefusesHeld, SafeInv, Redeemable;
  }

  lemma RefusalHasEvent(cfg: Config, s: State, step: Step)
    requires RefusesHeld(cfg, s, step)
    ensures ApprovedWithEvent(s.db.rows[step.aid])
  {
  }

  lemma FailedIsRedeemable(cfg: Config, a: nat, row: QRow, audit: seq<Row>)
    requires Redeemable(cfg, a, row, audit)
    ensures Redeemable(cfg, a, row.(fin := Failed), audit)
  {
    hide Accepted;
    var row', es :| RowEvolves(row, row') && Accepted(cfg, a, row', AppendAll(cfg.hasher, audit, es));
    assert RowEvolves(row.(fin := Failed), row');
  }

  lemma SharedEvent(cfg: Config, s: State, a: nat, p: nat)
    requires SafeInv(cfg, s) && Sweeping(s, p) && a in s.forgets[p].claimed && a in s.db.rows
    requires s.db.rows[a].event.Some?
    ensures RowAbout(cfg, s.db, a, s.forgets[p].drawer) && s.db.rows[a].event.value in s.db.events
    ensures RecordedId(s.db, a).Some? ==> RecordedId(s.db, a) == cfg.contentHash(s.db.rows[a].cand)
  {
    assert ForgetOk(cfg, s, s.forgets[p]);
    assert RowOk(cfg, s.db, s.db.rows[a]);
  }

  // ---------------------------------------------------------------- which rows can still pass the gates

  /** The row with missing provenance stamped in this approver's name. */
  function Vouched(cfg: Config, row: QRow, approver: string): QRow {
    if row.via.None? then row.(via := Some(cfg.via), approver := Some(approver)) else row
  }

  /** Its receipt, if it has one, is one the gate takes in the name of some configured approver. */
  ghost predicate ReceiptCanPass(cfg: Config, a: nat, row: QRow, audit: seq<Row>) {
    row.rnum.Some? ==> exists x | x in cfg.approvers :: GateRefusal(cfg, a, Vouched(cfg, row, x), audit, true).None?
  }

  /**
   The rows that can still be brought to pass: provenance is right or still missing, and so is the
   receipt. A receipt number is compared with a log that holds its row.
   */
  lemma RedeemableIff(cfg: Config, a: nat, row: QRow, audit: seq<Row>)
    requires Linked(cfg.hasher, audit) && ApprovedWithEvent(row) && Configured(cfg)
    requires (forall p, c :: cfg.hasher(p, c) != "") && (forall b :: cfg.fingerprint(b) != "")
    requires row.rnum.Some? ==> row.rnum.value <= |audit|
    ensures Redeemable(cfg, a, row, audit) <==>
              (row.via.None? || Provenanced(cfg, row)) && ReceiptCanPass(cfg, a, row, audit)
  {
    hide GateRefusal, Linked;
    if Redeemable(cfg, a, row, audit) {
      var row', es :| RowEvolves(row, row') && Accepted(cfg, a, row', AppendAll(cfg.hasher, audit, es));
      if row.rnum.Some? {
        OldReceiptPasses(cfg, a, row, row', audit, es);
      }
    }
    if (row.via.None? || Provenanced(cfg, row)) && ReceiptCanPass(cfg, a, row, audit) {
      if row.rnum.Some? {
        var x :| x in cfg.approvers && GateRefusal(cfg, a, Vouched(cfg, row, x), audit, true).None?;
        assert AppendAll(cfg.hasher, audit, []) == audit;
        assert RowEvolves(row, Vouched(cfg, row, x)) && Accepted(cfg, a, Vouched(cfg, row, x), audit);
      } else {
        var x :| x in cfg.approvers;
        NewReceiptPasses(cfg, a, row, x, audit);
      }
    }
  }

  lemma OldReceiptPasses(cfg: Config, a: nat, row: QRow, row': QRow, audit: seq<Row>, es: seq<Entry>)
    requires Linked(cfg.hasher, audit) && row.rnum.Some? && row.rnum.value <= |audit| && ApprovedWithEvent(row)
    requires RowEvolves(row, row') && Accepted(cfg, a, row', AppendAll(cfg.hasher, audit, es))
    ensures row'.approver.Some? && row'.approver.value in cfg.approvers
    ensures GateRefusal(cfg, a, Vouched(cfg, row, row'.approver.value), audit, true).None?
  {
    var n := row.rnum.value;
    assert n >= 1;
    AppendAllIsPrefixStable(cfg.hasher, audit, es, n);
    hide Linked, ValidThrough;
  }

  /** A decision appended now, and stamped, passes. */
  lemma NewReceiptPasses(cfg: Config, a: nat, row: QRow, x: string, audit: seq<Row>)
    requires Linked(cfg.hasher, audit) && ApprovedWithEvent(row) && row.rnum.None? && x in cfg.approvers
    requires row.via.None? || Provenanced(cfg, row)
    requires (forall p, c :: cfg.hasher(p, c) != "") && (forall b :: cfg.fingerprint(b) != "")
    ensures Redeemable(cfg, a, row, audit)
  {
    var row1 := Vouched(cfg, row, x);
    var e := StampEntry(cfg, a, row1);
    var receipt, log := NextRow(cfg.hasher, audit, e), Append(cfg.hasher, audit, e);
    var row' := Stamp(row1, receipt.content.num, receipt.hash, cfg.fingerprint(row.cand));
    assert AppendAll(cfg.hasher, audit, [e]) == log;
    AppendKeepsChain(cfg.hasher, audit, e);
    LinkedUpto(cfg.hasher, log, receipt.content.num);
    assert Verdict(cfg.hasher, log, receipt.content.num) == Some(receipt);
    hide Linked, StampEntry, ValidThrough, ReceiptRefusal;
    StampIsTaken(cfg, a, row1, receipt);
    assert RowEvolves(row, row') && Accepted(cfg, a, row', log);
  }

  function StampEntry(cfg: Config, a: nat, row: QRow): Entry
    requires row.approver.Some? && row.via.Some?
  {
    Entry(0, "", cfg.tenant, "approval_decision_backfill", OfApproval(a), None,
          DecisionDetails(cfg, map[], "backfill", row.approver.value, row.via.value, row.cand, None))
  }

  lemma StampIsTaken(cfg: Config, a: nat, row: QRow, receipt: Row)
    requires row.approver.Some? && row.via.Some? && receipt.content.entry == StampEntry(cfg, a, row)
    ensures var row' := Stamp(row, receipt.content.num, receipt.hash, cfg.fingerprint(row.cand));
            ReceiptRefusal(cfg, a, row', receipt).None?
  {
  }
}
