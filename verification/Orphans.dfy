/**
 No durable row is orphaned: the guarantee over every careful run, and for each step the
 discipline forbids exactly when taking it would lead some otherwise careful run to an orphan.
 */
module Orphans {
  import opened Basics
  import opened AuditChain
  import opened Queue
  import opened QueueLaws
  import opened Protocol
  import opened ProtocolFrames
  import opened Invariants

  /**
   Every active durable row written for an approval has that approval in the queue, or a
   worker still to record or remove it, or an `orphan_cleanup_pending` entry.
   */
  ghost predicate NoOrphan(s: State) {
    forall id | id in s.store && s.store[id].active && s.store[id].mark.Some? ::
      var aid := s.store[id].mark.value.aid;
      aid in s.db.rows || id in s.pending || Attended(s, aid, id)
  }

  lemma CoverImpliesNoOrphan(s: State)
    requires CoverInv(s)
    ensures NoOrphan(s)
  {
    forall id | id in s.store && s.store[id].active && s.store[id].mark.Some?
      ensures var aid := s.store[id].mark.value.aid;
              aid in s.db.rows || id in s.pending || Attended(s, aid, id)
    {
      assert Covered(s, s.store[id].mark.value.aid, id);
    }
  }

  lemma NoOrphanInAnyRun(cfg: Config, s: State, steps: seq<Step>)
    requires Initial(cfg, s) && CarefulRun(cfg, s, steps)
    ensures NoOrphan(Run(cfg, s, steps))
  {
    InvHolds(cfg, s, steps);
    CoverImpliesNoOrphan(Run(cfg, s, steps));
  }

  // ---------------------------------------------------------------- doomed states

  /** Some careful continuation ends with an orphan. */
  ghost predicate Doomed(cfg: Config, s: State) {
    exists more :: CarefulRun(cfg, s, more) && !NoOrphan(Run(cfg, s, more))
  }

  lemma SafeIsNotDoomed(cfg: Config, s: State)
    requires SafeInv(cfg, s)
    ensures !Doomed(cfg, s)
  {
    hide SafeInv, NoOrphan, CarefulRun;
    forall more | CarefulRun(cfg, s, more) ensures NoOrphan(Run(cfg, s, more)) {
      SafeKept(cfg, s, more);
      SafeImpliesNoOrphan(cfg, Run(cfg, s, more));
    }
  }

  lemma SafeImpliesNoOrphan(cfg: Config, s: State)
    requires SafeInv(cfg, s)
    ensures NoOrphan(s)
  {
    CoverImpliesNoOrphan(s);
  }

  lemma CarefulIsNotDoomed(cfg: Config, s: State, step: Step)
    requires SafeInv(cfg, s) && Careful(cfg, s, step)
    ensures !Doomed(cfg, Apply(cfg, s, step))
  {
    hide SafeInv, Careful, Apply, Doomed;
    SafeStep(cfg, s, step);
    SafeIsNotDoomed(cfg, Apply(cfg, s, step));
  }

  /** Only the store and the running forgets have moved. */
  ghost predicate SameButSwept(s: State, s': State) {
    s' == s.(store := s'.store, forgets := s'.forgets)
  }

  /** The forget has swept approval `aid`, whose row `id` is all that is left in the store. */
  ghost predicate Stranded(s: State, p: nat, aid: nat, id: string) {
    && s.store.Keys == {id} && Carries(s.store[id], aid)
    && Sweeping(s, p) && aid in s.forgets[p].claimed && aid in s.forgets[p].swept
    && (s.forgets[p].found.Some? ==> s.forgets[p].found.value.1 != id)
  }

  /** Other users may delete every other row of the store. */
  lemma ClearStore(cfg: Config, base: State, t: seq<Step>, id: string) returns (t': seq<Step>, s': State)
    requires CarefulRun(cfg, base, t) && id in Run(cfg, base, t).store
    ensures CarefulRun(cfg, base, t') && s' == Run(cfg, base, t')
    ensures s' == Run(cfg, base, t).(store := s'.store)
    ensures s'.store.Keys == {id} && s'.store[id] == Run(cfg, base, t).store[id]
    decreases Run(cfg, base, t).store.Keys
  {
    hide *;
    var s := Run(cfg, base, t);
    if other :| other in s.store && other != id {
      DeleteOne(cfg, s, other, id);
      CarefulOne(cfg, base, t, StoreDelete(other));
      t', s' := ClearStore(cfg, base, t + [StoreDelete(other)], id);
    } else {
      t', s' := t, s;
    }
  }

  lemma DeleteOne(cfg: Config, s: State, other: string, id: string)
    requires other in s.store && id in s.store && other != id
    ensures var s' := Apply(cfg, s, StoreDelete(other));
            && Careful(cfg, s, StoreDelete(other)) && s' == s.(store := s'.store)
            && s'.store.Keys < s.store.Keys && id in s'.store && s'.store[id] == s.store[id]
  {
    assert (s.store - {other}).Keys == s.store.Keys - {other};
  }

  /** The forget finishes what it looked up last. */
  lemma FinishDelete(cfg: Config, s: State, p: nat, aid: nat, id: string)
    requires Stranded(s, p, aid, id) && s.forgets[p].found.Some?
    ensures Careful(cfg, s, SweepDelete(p))
    ensures var s', f := Apply(cfg, s, SweepDelete(p)), s.forgets[p];
            && SameButSwept(s, s') && Stranded(s', p, aid, id)
            && s'.forgets[p] == f.(swept := f.swept + {f.found.value.0}, found := None)
  {
    assert s.store - {s.forgets[p].found.value.1} == s.store;
  }

  /** A lookup of any other claimed approval finds nothing. */
  lemma LookUpNothing(cfg: Config, s: State, p: nat, aid: nat, id: string, other: nat)
    requires Stranded(s, p, aid, id) && s.forgets[p].found.None? && other in s.forgets[p].claimed - s.forgets[p].swept
    ensures Careful(cfg, s, SweepFind(p, other))
    ensures var s', f := Apply(cfg, s, SweepFind(p, other)), s.forgets[p];
            && SameButSwept(s, s') && Stranded(s', p, aid, id)
            && s'.forgets[p] == f.(swept := f.swept + {other})
  {
    assert MarkerHits(s, other) == {};
  }

  /** So it sweeps the rest of its claim. */
  lemma SweepTheRest(cfg: Config, base: State, t: seq<Step>, p: nat, aid: nat, id: string) returns (t': seq<Step>)
    requires CarefulRun(cfg, base, t) && Stranded(Run(cfg, base, t), p, aid, id)
    requires Run(cfg, base, t).forgets[p].found.None?
    ensures CarefulRun(cfg, base, t') && SameButSwept(Run(cfg, base, t), Run(cfg, base, t'))
    ensures Stranded(Run(cfg, base, t'), p, aid, id) && PurgeReady(Run(cfg, base, t'), p)
    ensures Run(cfg, base, t').forgets[p].drawer == Run(cfg, base, t).forgets[p].drawer
    decreases Run(cfg, base, t).forgets[p].claimed - Run(cfg, base, t).forgets[p].swept
  {
    hide CarefulRun, Run, Apply, Careful;
    var s := Run(cfg, base, t);
    var rest := s.forgets[p].claimed - s.forgets[p].swept;
    if rest != {} {
      var other :| other in rest;
      LookUpNothing(cfg, s, p, aid, id, other);
      CarefulOne(cfg, base, t, SweepFind(p, other));
      t' := SweepTheRest(cfg, base, t + [SweepFind(p, other)], p, aid, id);
    } else {
      forall a | a in s.forgets[p].claimed ensures a in s.forgets[p].swept {
        assert a !in rest;
      }
      t' := t;
    }
  }

  /** And the purge takes the approval away from its row. */
  lemma PurgeStrands(cfg: Config, s: State, p: nat, aid: nat, id: string)
    requires Stranded(s, p, aid, id) && PurgeReady(s, p) && RowAbout(cfg, s.db, aid, s.forgets[p].drawer)
    requires id !in s.pending && !Attended(s, aid, id)
    ensures Careful(cfg, s, Purge(p)) && !NoOrphan(Apply(cfg, s, Purge(p)))
  {
    var s' := Apply(cfg, s, Purge(p));
    assert s'.workers == s.workers && s'.pending == s.pending && s'.store == s.store && aid !in s'.db.rows;
    if Attended(s', aid, id) {
      var w :| InFlight(s', w, aid, id);
      assert InFlight(s, w, aid, id);
    }
  }

  /** A row whose approval a running forget is past deleting, and nobody else answers for, can be orphaned. */
  lemma SweptIsDoomed(cfg: Config, s: State, p: nat, aid: nat, id: string)
    requires ForgetInv(cfg, s) && id in s.store && Carries(s.store[id], aid) && aid in s.db.rows
    requires Sweeping(s, p) && aid in s.forgets[p].claimed && aid in s.forgets[p].swept
    requires s.forgets[p].found.Some? ==> s.forgets[p].found.value.1 != id
    requires id !in s.pending && !Attended(s, aid, id)
    ensures Doomed(cfg, s)
  {
    assert ForgetOk(cfg, s, s.forgets[p]);
    assert RowAbout(cfg, s.db, aid, s.forgets[p].drawer);
    assert CarefulRun(cfg, s, []) && Run(cfg, s, []) == s;
    hide CarefulRun, Run, Apply, Careful, ForgetOk, ForgetInv, RowAbout, PurgeReady, NoOrphan;
    var t, s1 := ClearStore(cfg, s, [], id);
    assert Stranded(s1, p, aid, id) && SameButSwept(s, s1) && s1.forgets == s.forgets;
    if s1.forgets[p].found.Some? {
      FinishDelete(cfg, s1, p, aid, id);
      CarefulOne(cfg, s, t, SweepDelete(p));
      t := t + [SweepDelete(p)];
    }
    t := SweepTheRest(cfg, s, t, p, aid, id);
    var s2 := Run(cfg, s, t);
    AttendedAlike(s, s2, aid, id);
    PurgeStrands(cfg, s2, p, aid, id);
    CarefulOne(cfg, s, t, Purge(p));
  }

  lemma AttendedAlike(s: State, s': State, aid: nat, id: string)
    requires s'.workers == s.workers
    ensures Attended(s', aid, id) <==> Attended(s, aid, id)
  {
    if w :| InFlight(s', w, aid, id) {
      assert InFlight(s, w, aid, id);
    }
    if w :| InFlight(s, w, aid, id) {
      assert InFlight(s', w, aid, id);
    }
  }

  /** A marked row that nothing answers for dooms the state: `Covered` is not only enough, it is needed. */
  lemma UncoveredIsDoomed(cfg: Config, s: State, aid: nat, id: string)
    requires ForgetInv(cfg, s) && id in s.store && Carries(s.store[id], aid) && !Covered(s, aid, id)
    ensures Doomed(cfg, s)
  {
    if aid !in s.db.rows {
      assert !NoOrphan(s);
      assert CarefulRun(cfg, s, []) && Run(cfg, s, []) == s;
    } else {
      hide Attended, NoOrphan, CarefulRun;
      var p :| Sweeping(s, p) && aid in s.forgets[p].claimed
               && !(aid !in s.forgets[p].swept || (s.forgets[p].found.Some? && s.forgets[p].found.value.1 == id));
      SweptIsDoomed(cfg, s, p, aid, id);
    }
  }

  // ---------------------------------------------------------------- which steps doom a careful run

  /**
   Which crash dooms a careful run: that of a worker holding a marked row for which nothing else
   answers. After any other crash every careful continuation is free of orphans.
   */
  lemma CrashDoomsIff(cfg: Config, s: State, wid: string)
    requires SafeInv(cfg, s) && Running(s, wid)
    ensures Doomed(cfg, Apply(cfg, s, Crash(wid))) <==>
              HoldsRow(s, wid) && !OthersAnswer(s, wid, s.workers[wid].aid, s.workers[wid].phase.id)
  {
    if Careful(cfg, s, Crash(wid)) {
      hide Doomed, SafeInv, Apply;
      CarefulIsNotDoomed(cfg, s, Crash(wid));
    } else {
      hide Doomed, CoverInv;
      CrashUncovers(cfg, s, wid);
    }
  }

  lemma CrashUncovers(cfg: Config, s: State, wid: string)
    requires ForgetInv(cfg, s) && Running(s, wid) && HoldsRow(s, wid)
    requires !OthersAnswer(s, wid, s.workers[wid].aid, s.workers[wid].phase.id)
    ensures Doomed(cfg, Apply(cfg, s, Crash(wid)))
  {
    hide Doomed;
    var s', aid, id := Apply(cfg, s, Crash(wid)), s.workers[wid].aid, s.workers[wid].phase.id;
    assert s' == Move(s, wid, Crashed);
    assert forall p | Sweeping(s', p) :: ForgetOk(cfg, s, s.forgets[p]);
    assert forall w :: InFlight(s', w, aid, id) ==> w != wid && InFlight(s, w, aid, id);
    hide Apply, ForgetOk;
    UncoveredIsDoomed(cfg, s', aid, id);
  }

  /**
   Which store write that lands but raises dooms a careful run. The call catches the exception and
   never looks at its row again, so the row needs an approval no forget has swept, a pending
   cleanup, or another worker; without an approval, it is an orphan at once.
   */
  lemma LandingErrorDoomsIff(cfg: Config, s: State, wid: string)
    requires SafeInv(cfg, s) && WriteLands(cfg, s, Write(wid, RaisesAfterLanding))
    ensures var s', aid, id := Apply(cfg, s, Write(wid, RaisesAfterLanding)), s.workers[wid].aid,
                               cfg.contentHash(s.workers[wid].cand).value;
            && (Doomed(cfg, s') <==> !OthersAnswer(s, wid, aid, id))
            && (!NoOrphan(s') <==>
                  aid !in s.db.rows && id !in s.pending && !exists w | w != wid :: InFlight(s, w, aid, id))
  {
    var step := Write(wid, RaisesAfterLanding);
    var s', aid, id := Apply(cfg, s, step), s.workers[wid].aid, cfg.contentHash(s.workers[wid].cand).value;
    LandedState(cfg, s, wid);
    LandingShows(cfg, s, wid);
    if Careful(cfg, s, step) {
      hide Doomed, SafeInv, Apply, NoOrphan;
      CarefulIsNotDoomed(cfg, s, step);
    } else {
      hide Doomed, Apply, NoOrphan, CoverInv;
      LandedForgets(cfg, s, wid);
      UncoveredIsDoomed(cfg, s', aid, id);
    }
  }

  lemma LandedState(cfg: Config, s: State, wid: string)
    requires WriteLands(cfg, s, Write(wid, RaisesAfterLanding))
    ensures var s', aid, id := Apply(cfg, s, Write(wid, RaisesAfterLanding)), s.workers[wid].aid,
                               cfg.contentHash(s.workers[wid].cand).value;
            && s' == Move(s, wid, Broken).(store := s.store[id := StoreRow(Some(NewMark(s, wid)), true)])
            && Carries(s'.store[id], aid)
            && (Attended(s', aid, id) <==> exists w | w != wid :: InFlight(s, w, aid, id))
            && (Covered(s', aid, id) <==> OthersAnswer(s, wid, aid, id))
  {
    var s', aid, id := Apply(cfg, s, Write(wid, RaisesAfterLanding)), s.workers[wid].aid,
                       cfg.contentHash(s.workers[wid].cand).value;
    assert s' == Move(s, wid, Broken).(store := s.store[id := StoreRow(Some(NewMark(s, wid)), true)]);
    assert forall w :: InFlight(s', w, aid, id) <==> w != wid && InFlight(s, w, aid, id);
    assert Unswept(s', aid, id) <==> Unswept(s, aid, id);
  }

  lemma LandedForgets(cfg: Config, s: State, wid: string)
    requires ForgetInv(cfg, s) && WriteLands(cfg, s, Write(wid, RaisesAfterLanding))
    ensures ForgetInv(cfg, Apply(cfg, s, Write(wid, RaisesAfterLanding)))
  {
    LandedState(cfg, s, wid);
    hide Apply;
    var s' := Apply(cfg, s, Write(wid, RaisesAfterLanding));
    assert forall p | Sweeping(s', p) :: ForgetOk(cfg, s, s.forgets[p]);
  }

  /** The new row is an orphan at once exactly when its approval is gone and nothing else answers for it. */
  lemma LandingShows(cfg: Config, s: State, wid: string)
    requires NoOrphan(s) && WriteLands(cfg, s, Write(wid, RaisesAfterLanding))
    ensures var s', aid, id := Apply(cfg, s, Write(wid, RaisesAfterLanding)), s.workers[wid].aid,
                               cfg.contentHash(s.workers[wid].cand).value;
            !NoOrphan(s') <==> aid !in s.db.rows && id !in s.pending && !Attended(s', aid, id)
  {
    LandedState(cfg, s, wid);
    hide Apply;
    var s', id := Apply(cfg, s, Write(wid, RaisesAfterLanding)), cfg.contentHash(s.workers[wid].cand).value;
    forall x, a | x != id && Attended(s, a, x) ensures Attended(s', a, x) {
      var w :| InFlight(s, w, a, x);
      assert InFlight(s', w, a, x);
    }
  }

  /**
   Which POST that lands after it timed out dooms a careful run: one whose row nothing answers for.
   Its call may long be over, whether it failed, recorded or died.
   */
  lemma LateLandingDoomsIff(cfg: Config, s: State, post: Post)
    requires SafeInv(cfg, s) && LandsLate(s, Land(post))
    ensures Doomed(cfg, Apply(cfg, s, Land(post))) <==> !Covered(s, post.mark.aid, post.id)
  {
    var s' := Apply(cfg, s, Land(post));
    if Careful(cfg, s, Land(post)) {
      hide Doomed, SafeInv, Apply;
      CarefulIsNotDoomed(cfg, s, Land(post));
    } else {
      LateState(cfg, s, post);
      hide Doomed, Apply, CoverInv;
      assert forall p | Sweeping(s', p) :: ForgetOk(cfg, s, s.forgets[p]);
      UncoveredIsDoomed(cfg, s', post.mark.aid, post.id);
    }
  }

  lemma LateState(cfg: Config, s: State, post: Post)
    requires LandsLate(s, Land(post))
    ensures var s' := Apply(cfg, s, Land(post));
            && s' == s.(store := s.store[post.id := StoreRow(Some(post.mark), true)], posts := s'.posts)
            && (Covered(s', post.mark.aid, post.id) <==> Covered(s, post.mark.aid, post.id))
  {
    AttendedAlike(s, Apply(cfg, s, Land(post)), post.mark.aid, post.id);
  }

  /**
   Which purge orphans a row: its own scan takes an approval the forget never claimed, and a row
   marked for that approval is neither pending nor in flight. A purge that takes unclaimed
   approvals without such rows, a candidate just enqueued for instance, is harmless.
   */
  lemma PurgeOrphansIff(cfg: Config, s: State, pid: nat)
    requires SafeInv(cfg, s) && PurgeReady(s, pid)
    ensures !NoOrphan(Apply(cfg, s, Purge(pid))) <==>
              exists id | TakenUnclaimed(cfg, s, pid, id) ::
                id !in s.pending && !Attended(s, s.store[id].mark.value.aid, id)
    ensures Doomed(cfg, Apply(cfg, s, Purge(pid))) <==> !NoOrphan(Apply(cfg, s, Purge(pid)))
  {
    var s' := Apply(cfg, s, Purge(pid));
    if id :| TakenUnclaimed(cfg, s, pid, id) && id !in s.pending && !Attended(s, s.store[id].mark.value.aid, id) {
      AttendedAlike(s, s', s.store[id].mark.value.aid, id);
      assert !NoOrphan(s');
      assert CarefulRun(cfg, s', []) && Run(cfg, s', []) == s';
    } else {
      hide Doomed, Apply, SafeInv, NoOrphan;
      SafeStep(cfg, s, Purge(pid));
      SafeImpliesNoOrphan(cfg, s');
      SafeIsNotDoomed(cfg, s');
    }
  }

  // ---------------------------------------------------------------- what a claim is worth

  /**
   What owning the claim buys: as long as a worker owns it, the worker may die, its store write may
   end in any way, and any POST for its approval may land late, without any careful continuation ever
   orphaning a row. A POST that lands after the claim is gone is `LateLandingDoomsIff`.
   */
  lemma OwnerIsSafe(cfg: Config, s: State, wid: string, fate: Fate)
    requires SafeInv(cfg, s) && Owns(s, wid)
    ensures !Doomed(cfg, Apply(cfg, s, Crash(wid))) && !Doomed(cfg, Apply(cfg, s, Write(wid, fate)))
    ensures forall post: Post | post.mark.aid == s.workers[wid].aid :: !Doomed(cfg, Apply(cfg, s, Land(post)))
  {
    OwnerIsCareful(cfg, s, wid, fate);
    OwnersPostsAreCareful(cfg, s, wid);
    hide Doomed, SafeInv, Careful, Apply;
    CarefulIsNotDoomed(cfg, s, Crash(wid));
    CarefulIsNotDoomed(cfg, s, Write(wid, fate));
    forall post: Post | post.mark.aid == s.workers[wid].aid ensures !Doomed(cfg, Apply(cfg, s, Land(post))) {
      CarefulIsNotDoomed(cfg, s, Land(post));
    }
  }

  lemma OwnersPostsAreCareful(cfg: Config, s: State, wid: string)
    requires ForgetInv(cfg, s) && Owns(s, wid)
    ensures forall post: Post | post.mark.aid == s.workers[wid].aid :: Careful(cfg, s, Land(post))
  {
    forall post: Post | post.mark.aid == s.workers[wid].aid ensures Careful(cfg, s, Land(post)) {
      OwnedIsUnswept(cfg, s, wid, post.id);
    }
  }

  lemma OwnerIsCareful(cfg: Config, s: State, wid: string, fate: Fate)
    requires ForgetInv(cfg, s) && Owns(s, wid)
    ensures Careful(cfg, s, Crash(wid)) && Careful(cfg, s, Write(wid, fate))
  {
    if HoldsRow(s, wid) {
      OwnedIsUnswept(cfg, s, wid, s.workers[wid].phase.id);
    }
    if WriteLands(cfg, s, Write(wid, fate)) {
      OwnedIsUnswept(cfg, s, wid, cfg.contentHash(s.workers[wid].cand).value);
    }
  }

  /** Inside its lease a worker owns its claim, unless the approval was settled meanwhile. */
  lemma LeaseImpliesOwnership(cfg: Config, s: State, steps: seq<Step>, wid: string)
    requires Initial(cfg, s) && CarefulRun(cfg, s, steps)
    requires var s' := Run(cfg, s, steps);
             Running(s', wid) && s'.now <= s'.workers[wid].claimedAt + STALE_TTL
    ensures var s' := Run(cfg, s, steps);
            Owns(s', wid) || Settled(s', s'.workers[wid].aid)
  {
    InvHolds(cfg, s, steps);
    assert Excluded(Run(cfg, s, steps), wid);
  }
}
