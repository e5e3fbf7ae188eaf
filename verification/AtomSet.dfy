/**
 Replacing the stored atom set of an oversize source file (panella/client.py,
 `replace_source_atom_set` and `delete_prior_source_versions`), behind the write quota.
 */
module AtomSet {
  import opened Basics
  import opened SlidingWindow

  /** The tag lookup refuses to answer at this many rows. */
  const FIND_LIMIT: nat := 200

  /** A content hash. Only equality of hashes matters here. */
  type Hash = string

  datatype Failure = EmptySet | TooManyAtoms | QuotaExceeded | LookupRaised | DeleteRaised | PriorSurvives
                   | WriteRaised | VerifyFailed

  datatype Outcome = Unchanged | Written(deleted: nat, written: nat)

  /** A delete raises, is refused without raising, or removes the row. */
  datatype Deletion = Raises | Refused | Removes

  /** A write is rejected, lands although an error is reported, or lands. */
  datatype Landing = Rejected | LandsWithError | Lands

  /**
   What the world does during one call: the reading of the clock at each step, and the fate of
   each lookup, ownership check, delete and write.
   */
  datatype World = World(clock: int -> real, readable: int -> bool, owned: Hash -> bool,
                         deletion: Hash -> Deletion, landing: int -> Landing)

  ghost predicate ClockAdvances(w: World, from: real) {
    (forall i :: from <= w.clock(i)) && (forall i, j | i <= j :: w.clock(i) <= w.clock(j))
  }

  predicate Faultless(w: World, hashes: set<Hash>, n: nat) {
    && w.readable(0) && w.readable(1) && w.readable(2) && w.readable(3)
    && (forall h | h in hashes :: w.owned(h) && w.deletion(h) == Removes)
    && (forall i | 0 <= i < n :: w.landing(i) == Lands)
  }

  function HashSet(hashes: seq<Hash>): set<Hash> {
    set i | 0 <= i < |hashes| :: hashes[i]
  }

  /**
   One source's rows as the store holds them. `tagged`: the active rows carrying the grouping tag
   in the caller's tenant. `others`: every other stored row. A content hash is stored at most once.
   */
  class SourceClient {
    const quota: WriteQuota
    const countsDedup: bool
    var tagged: set<Hash>
    var others: set<Hash>

    ghost predicate Valid()
      reads this, quota
    {
      quota.Valid() && tagged !! others
    }

    constructor (quota: WriteQuota, countsDedup: bool)
      requires quota.Valid()
      ensures Valid() && this.quota == quota && this.countsDedup == countsDedup && tagged == {} && others == {}
    {
      this.quota, this.countsDedup := quota, countsDedup;
      tagged, others := {}, {};
    }

    /** `find_active_hashes_by_tag`: all of them, or an error; never a truncated set. */
    method Find(readable: bool) returns (r: Option<seq<Hash>>)
      ensures r.Some? ==> HashSet(r.value) == tagged && |r.value| == |tagged| < FIND_LIMIT
      ensures r.None? <==> !readable || |tagged| >= FIND_LIMIT
    {
      if !readable || |tagged| >= FIND_LIMIT {
        return None;
      }
      var left, hashes := tagged, [];
      while left != {}
        invariant left <= tagged && HashSet(hashes) == tagged - left && |hashes| == |tagged| - |left|
        decreases |left|
      {
        var h :| h in left;
        assert HashSet(hashes + [h]) == HashSet(hashes) + {h} by {
          assert forall i | 0 <= i < |hashes| :: (hashes + [h])[i] == hashes[i];
          assert (hashes + [h])[|hashes|] == h;
        }
        hashes := hashes + [h];
        left := left - {h};
      }
      return Some(hashes);
    }

    /** One delete in the loop: rows of other owners are skipped, a refusal is tolerated. */
    method DeleteOne(h: Hash, w: World) returns (removed: bool, raised: bool)
      modifies this`tagged
      ensures raised <==> w.owned(h) && w.deletion(h) == Raises
      ensures removed <==> h in old(tagged) && w.owned(h) && w.deletion(h) == Removes
      ensures tagged == if removed then old(tagged) - {h} else old(tagged)
    {
      removed, raised := false, false;
      if w.owned(h) {
        raised := w.deletion(h) == Raises;
        if w.deletion(h) == Removes && h in tagged {
          tagged := tagged - {h};
          removed := true;
        }
      }
    }

    method DeleteEach(candidates: seq<Hash>, keep: Option<Hash>, w: World) returns (deleted: nat, raised: bool)
      requires HashSet(candidates) == tagged
      modifies this`tagged
      ensures tagged <= old(tagged) && deleted == |old(tagged) - tagged|
      ensures keep.Some? && keep.value in old(tagged) ==> keep.value in tagged
      ensures Faultless(w, old(tagged), 0) ==> !raised && forall h | h in tagged :: Some(h) == keep
    {
      ghost var prior := tagged;
      deleted, raised := 0, false;
      for i := 0 to |candidates|
        invariant Swept(candidates, keep, w, prior, tagged, i, deleted)
      {
        hide Swept, HashSet, Faultless;
        SweepStep(candidates, keep, w, prior, tagged, i, deleted);
        if Some(candidates[i]) != keep {
          var removed;
          removed, raised := DeleteOne(candidates[i], w);
          if raised {
            return;
          }
          deleted := deleted + if removed then 1 else 0;
        }
      }
      raised := false;
      assert forall h | h in tagged :: h in HashSet(candidates);
    }

    /**
     `delete_prior_source_versions`. A normal return means that no prior version but the kept one
     is active any more; no row is ever added; a quota refusal deletes nothing.
     */
    method DeletePrior(keep: Option<Hash>, w: World, now: real) returns (r: Result<nat, Failure>)
      requires Valid() && quota.latest <= now
      modifies this`tagged, quota
      ensures Valid() && tagged <= old(tagged) && quota.latest == now
      ensures quota.writesToday == old(quota.writesToday) && quota.recorded == old(quota.recorded)
      ensures Recent(quota.timestamps, now) == Recent(old(quota.timestamps), now)
      ensures r.Ok? ==> tagged == (if keep.Some? then old(tagged) * {keep.value} else {})
      ensures r.Ok? ==> r.value == |old(tagged) - tagged|
      ensures r == Err(QuotaExceeded) <==> !old(quota.Fits(1, now))
      ensures r == Err(QuotaExceeded) ==> tagged == old(tagged)
      ensures r.Err? ==> r.error in {QuotaExceeded, LookupRaised, DeleteRaised, PriorSurvives}
      ensures Faultless(w, old(tagged), 0) && old(quota.Fits(1, now)) && |old(tagged)| < FIND_LIMIT
              ==> r.Ok?
    {
      var ok := quota.Enforce(now);
      if !ok {
        return Err(QuotaExceeded);
      }
      var candidates := Find(w.readable(1));
      if candidates.None? {
        return Err(LookupRaised);
      }
      var deleted, raised := DeleteEach(candidates.value, keep, w);
      if raised {
        return Err(DeleteRaised);
      }
      var remaining := Find(w.readable(2));
      if remaining.None? {
        return Err(LookupRaised);
      }
      for i := 0 to |remaining.value|
        invariant forall k | 0 <= k < i :: Some(remaining.value[k]) == keep
      {
        assert remaining.value[i] in HashSet(remaining.value);
        if Some(remaining.value[i]) != keep {
          return Err(PriorSurvives);
        }
      }
      assert forall h | h in tagged :: h in HashSet(remaining.value);
      r := Ok(deleted);
    }

    /** One gated `write()`. An exact duplicate stores nothing, and charges the quota only if the profile says so. */
    method Write(h: Hash, landing: Landing, asked: real, now: real) returns (failed: Option<Failure>)
      requires Valid() && quota.latest <= asked <= now
      modifies this`tagged, quota
      ensures Valid() && asked <= quota.latest <= now
      ensures failed == Some(QuotaExceeded) <==> !old(quota.Fits(1, asked))
      ensures failed == Some(QuotaExceeded) ==> tagged == old(tagged)
      ensures failed.None? ==> tagged == old(tagged) + ({h} - others)
      ensures failed.None? <==> old(quota.Fits(1, asked)) && landing == Lands
      ensures failed.Some? ==> failed.value in {QuotaExceeded, WriteRaised}
      ensures old(tagged) <= tagged <= old(tagged) + {h}
      ensures quota.writesToday <= old(quota.writesToday) + 1
      ensures |Recent(quota.timestamps, now)| <= |Recent(old(quota.timestamps), asked)| + 1
    {
      hide Bounded;
      WindowShrinks(quota.timestamps, asked, now);
      var ok := quota.Enforce(asked);
      if !ok {
        return Some(QuotaExceeded);
      }
      if landing == Rejected {
        return Some(WriteRaised);
      }
      var duplicate := h in tagged || h in others;
      if !duplicate {
        tagged := tagged + {h};
      }
      if landing == LandsWithError {
        return Some(WriteRaised);
      }
      if !duplicate || countsDedup {
        RecentOfConcat(quota.timestamps, [now], now);
        quota.Record(asked, now);
      }
      failed := None;
    }

    /** Step 4: write every atom afresh. A set that passed the preflight is never refused on quota midway. */
    method WriteEach(hashes: seq<Hash>, w: World) returns (failed: Option<Failure>)
      requires Valid() && (forall i, j | i <= j :: w.clock(i) <= w.clock(j))
      requires quota.latest <= w.clock(2) && quota.Fits(|hashes|, w.clock(2))
      modifies this`tagged, quota
      ensures Valid() && (failed.None? || failed == Some(WriteRaised))
      ensures failed.None? ==> tagged == old(tagged) + (HashSet(hashes) - others)
      ensures old(tagged) <= tagged <= old(tagged) + HashSet(hashes)
      ensures Faultless(w, {}, |hashes|) ==> failed.None?
    {
      ghost var before := tagged;
      for i := 0 to |hashes|
        invariant Valid() && quota.latest <= w.clock(2 + 2 * i) && others == old(others)
        invariant quota.Fits(|hashes| - i, w.clock(2 + 2 * i))
        invariant tagged == before + (HashSet(hashes[..i]) - others)
      {
        assert w.clock(2 + 2 * i) <= w.clock(3 + 2 * i) <= w.clock(2 + 2 * (i + 1));
        HashSetGrows(hashes, i);
        failed := Write(hashes[i], w.landing(i), w.clock(2 + 2 * i), w.clock(3 + 2 * i));
        if failed.Some? {
          return;
        }
        WindowShrinks(quota.timestamps, w.clock(3 + 2 * i), w.clock(2 + 2 * (i + 1)));
      }
      assert hashes[..|hashes|] == hashes;
      failed := None;
    }

    /** Steps 4 and 5, over an emptied source: the set must read back exactly as expected. */
    method WriteAndVerify(hashes: seq<Hash>, w: World) returns (failed: Option<Failure>)
      requires Valid() && (forall i, j | i <= j :: w.clock(i) <= w.clock(j)) && tagged == {}
      requires quota.latest <= w.clock(2) && quota.Fits(|hashes|, w.clock(2)) && |HashSet(hashes)| < FIND_LIMIT
      modifies this`tagged, quota
      ensures Valid() && tagged <= HashSet(hashes)
      ensures failed.Some? ==> failed.value in {WriteRaised, LookupRaised, VerifyFailed}
      ensures failed.None? ==> tagged == HashSet(hashes)
      ensures Faultless(w, {}, |hashes|) && w.readable(3) ==> (failed.None? <==> HashSet(hashes) !! others)
    {
      hide HashSet, Faultless, Recent, Bounded;
      failed := WriteEach(hashes, w);
      if failed.Some? {
        return;
      }
      var final := Find(w.readable(3));
      if final.None? {
        return Some(LookupRaised);
      }
      if HashSet(final.value) != HashSet(hashes) {
        return Some(VerifyFailed);
      }
    }

    /** Steps 2 to 5: preflight for the whole set, delete the prior set, write, verify. */
    method Rewrite(hashes: seq<Hash>, w: World) returns (r: Result<Outcome, Failure>)
      requires Valid() && ClockAdvances(w, quota.latest) && hashes != [] && |HashSet(hashes)| < FIND_LIMIT
      modifies this`tagged, quota
      ensures Valid() && tagged <= old(tagged) + HashSet(hashes)
      ensures r.Ok? ==> tagged == HashSet(hashes) && r.value == Written(|old(tagged)|, |hashes|)
      ensures r == Err(QuotaExceeded) <==> !old(quota.Fits(|hashes|, w.clock(0)))
      ensures r.Err? ==> r.error != EmptySet && r.error != TooManyAtoms
      ensures !old(quota.Fits(|hashes|, w.clock(0))) ==> tagged == old(tagged)
      ensures && |old(tagged)| < FIND_LIMIT && Faultless(w, old(tagged), |hashes|)
              && old(quota.Fits(|hashes|, w.clock(0)))
              ==> (r.Ok? <==> HashSet(hashes) !! others)
    {
      FaultlessParts(w, tagged, |hashes|);
      hide Recent, HashSet, Bounded, Faultless, Nondecreasing;
      var ok := quota.Check(|hashes|, w.clock(0));
      if !ok {
        return Err(QuotaExceeded);
      }
      WindowShrinks(quota.timestamps, w.clock(0), w.clock(1));
      var deleted := DeletePrior(None, w, w.clock(1));
      if deleted.Err? {
        return Err(deleted.error);
      }
      WindowShrinks(quota.timestamps, w.clock(1), w.clock(2));
      var failed := WriteAndVerify(hashes, w);
      if failed.Some? {
        return Err(failed.value);
      }
      r := Ok(Written(deleted.value, |hashes|));
    }

    /**
     `replace_source_atom_set`, from whatever set an earlier crash may have left. A normal return
     leaves exactly the expected set; a quota refusal leaves everything alone; nothing is deleted
     unless the whole set fits; without faults it succeeds exactly when no expected hash is
     already stored outside the source.
     */
    method Replace(hashes: seq<Hash>, w: World) returns (r: Result<Outcome, Failure>)
      requires Valid() && ClockAdvances(w, quota.latest)
      modifies this`tagged, quota
      ensures Valid() && tagged <= old(tagged) + HashSet(hashes)
      ensures r.Ok? ==> hashes != [] && tagged == HashSet(hashes)
      ensures r == Ok(Unchanged) ==> unchanged(this) && unchanged(quota)
      ensures r.Ok? && r != Ok(Unchanged) ==> r == Ok(Written(|old(tagged)|, |hashes|))
      ensures r == Err(EmptySet) <==> hashes == []
      ensures r == Err(TooManyAtoms) <==> hashes != [] && |HashSet(hashes)| >= 200
      ensures var alreadyThere := w.readable(0) && old(tagged) == HashSet(hashes);
              hashes != [] && |HashSet(hashes)| < FIND_LIMIT ==>
                && (r == Ok(Unchanged) <==> alreadyThere)
                && (r == Err(QuotaExceeded) <==> !alreadyThere && !old(quota.Fits(|hashes|, w.clock(0))))
      ensures !old(quota.Fits(|hashes|, w.clock(0))) ==> tagged == old(tagged)
      ensures && hashes != [] && |HashSet(hashes)| < FIND_LIMIT && |old(tagged)| < FIND_LIMIT
              && Faultless(w, old(tagged), |hashes|) && old(quota.Fits(|hashes|, w.clock(0)))
              ==> (r.Ok? <==> HashSet(hashes) !! others)
    {
      if hashes == [] {
        return Err(EmptySet);
      }
      var expected := HashSet(hashes);
      if |expected| >= FIND_LIMIT {
        return Err(TooManyAtoms);
      }
      var active := Find(w.readable(0));
      if active.Some? && HashSet(active.value) == expected {
        return Ok(Unchanged);
      }
      r := Rewrite(hashes, w);
    }
  }

  /** Where the delete loop stands after `i` of the candidates. */
  ghost predicate Swept(candidates: seq<Hash>, keep: Option<Hash>, w: World, prior: set<Hash>, rows: set<Hash>, i: nat,
                        deleted: nat) {
    && i <= |candidates| && rows <= prior && deleted == |prior - rows|
    && (keep.Some? && keep.value in prior ==> keep.value in rows)
    && (Faultless(w, prior, 0) ==>
          forall k | 0 <= k < i && candidates[k] in rows :: Some(candidates[k]) == keep)
  }

  lemma SweepStep(candidates: seq<Hash>, keep: Option<Hash>, w: World, prior: set<Hash>, rows: set<Hash>, i: nat,
                  deleted: nat)
    requires HashSet(candidates) == prior && i < |candidates| && Swept(candidates, keep, w, prior, rows, i, deleted)
    ensures var h := candidates[i];
            var raises := w.owned(h) && w.deletion(h) == Raises;
            var removes := w.owned(h) && w.deletion(h) == Removes && h in rows;
            if Some(h) == keep then Swept(candidates, keep, w, prior, rows, i + 1, deleted)
            else if raises then !Faultless(w, prior, 0)
            else if removes then Swept(candidates, keep, w, prior, rows - {h}, i + 1, deleted + 1)
            else Swept(candidates, keep, w, prior, rows, i + 1, deleted)
  {
    var h := candidates[i];
    assert h in HashSet(candidates);
    assert h in rows ==> prior - (rows - {h}) == (prior - rows) + {h};
  }

  lemma FaultlessParts(w: World, prior: set<Hash>, n: nat)
    ensures Faultless(w, prior, n) ==> Faultless(w, prior, 0) && Faultless(w, {}, n) && w.readable(3)
  {
  }

  lemma HashSetGrows(hashes: seq<Hash>, i: nat)
    requires i < |hashes|
    ensures HashSet(hashes[..i + 1]) == HashSet(hashes[..i]) + {hashes[i]}
    ensures HashSet(hashes[..i + 1]) <= HashSet(hashes)
  {
    assert hashes[..i + 1][i] == hashes[i];
    assert forall k | 0 <= k < i :: hashes[..i + 1][k] == hashes[..i][k];
    assert forall k | 0 <= k < i + 1 :: hashes[..i + 1][k] == hashes[k];
  }
}
