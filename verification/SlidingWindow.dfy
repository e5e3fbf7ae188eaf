/**
 Sixty-second sliding windows: the HTTP rate limiter (panella/http/auth.py) and the write quota
 of the memory client (panella/client.py). Both throw old entries away; both are proved against
 the plain history of everything they ever accepted.
 */
module SlidingWindow {

  const WINDOW: real := 60.0

  ghost predicate Nondecreasing(ts: seq<real>) {
    forall i, j | 0 <= i < j < |ts| :: ts[i] <= ts[j]
  }

  /** The entries still inside the window at `now`. */
  function Recent(ts: seq<real>, now: real): seq<real> {
    if ts == [] then []
    else Recent(ts[..|ts| - 1], now) + if now - ts[|ts| - 1] < WINDOW then [ts[|ts| - 1]] else []
  }

  /** How many entries lie in the window that starts at `from`. */
  function CountWithin(ts: seq<real>, from: real): nat {
    if ts == [] then 0
    else CountWithin(ts[..|ts| - 1], from) + if from <= ts[|ts| - 1] < from + WINDOW then 1 else 0
  }

  /** No window of sixty seconds, wherever it starts, holds more than `limit` entries. */
  ghost predicate Bounded(ts: seq<real>, limit: int) {
    forall from :: CountWithin(ts, from) <= if limit > 0 then limit else 0
  }

  // ---------------------------------------------------------------- the history and the kept entries

  lemma {:induction false} RecentMembers(ts: seq<real>, now: real)
    ensures forall t | t in Recent(ts, now) :: t in ts && now - t < WINDOW
    ensures |Recent(ts, now)| <= |ts|
  {
    if ts != [] {
      RecentMembers(ts[..|ts| - 1], now);
    }
  }

  /** The recent entries are those less than sixty seconds old, each as often as it occurs. */
  lemma {:induction false} RecentIsTheLastMinute(ts: seq<real>, now: real)
    ensures |Recent(ts, now)| == |set i: nat | i < |ts| && now - ts[i] < 60.0|
  {
    if ts != [] {
      var n := |ts| - 1;
      RecentIsTheLastMinute(ts[..n], now);
      var before := set i: nat | i < n && now - ts[..n][i] < 60.0;
      var all := set i: nat | i < |ts| && now - ts[i] < 60.0;
      assert all == if now - ts[n] < 60.0 then before + {n} else before;
    }
  }

  /** Entries discarded at one moment are outside the window at every later one. */
  lemma {:induction false} ForgettingIsHarmless(ts: seq<real>, now: real, later: real)
    requires now <= later
    ensures Recent(Recent(ts, now), later) == Recent(ts, later)
  {
    if ts != [] {
      var front, last := ts[..|ts| - 1], ts[|ts| - 1];
      ForgettingIsHarmless(front, now, later);
      var kept := Recent(front, now);
      if now - last < WINDOW {
        assert (kept + [last])[..|kept|] == kept;
      } else {
        assert Recent(ts, now) == kept;
      }
    }
  }

  /** Time passing only empties the window. */
  lemma {:induction false} WindowShrinks(ts: seq<real>, now: real, later: real)
    requires now <= later
    ensures |Recent(ts, later)| <= |Recent(ts, now)|
  {
    if ts != [] {
      WindowShrinks(ts[..|ts| - 1], now, later);
    }
  }

  lemma {:induction false} RecentOfConcat(ts: seq<real>, more: seq<real>, now: real)
    ensures Recent(ts + more, now) == Recent(ts, now) + Recent(more, now)
    decreases |more|
  {
    if more == [] {
      assert ts + more == ts;
    } else {
      RecentOfConcat(ts, more[..|more| - 1], now);
      assert (ts + more)[..|ts + more| - 1] == ts + more[..|more| - 1];
    }
  }

  /** Everything in a window that reaches up to `now` is recent at `now`, or is `now` itself. */
  lemma {:induction false} WindowIsRecent(ts: seq<real>, from: real, now: real)
    requires now < from + WINDOW
    ensures CountWithin(ts, from) <= |Recent(ts, now)|
  {
    if ts != [] {
      WindowIsRecent(ts[..|ts| - 1], from, now);
    }
  }

  /** Accepting only when fewer than `limit` entries are recent keeps every window bounded. */
  lemma AcceptKeepsBound(ts: seq<real>, limit: int, checked: real, now: real)
    requires Bounded(ts, limit) && checked <= now
    requires |Recent(ts, checked)| < limit
    ensures Bounded(ts + [now], limit)
  {
    var ts' := ts + [now];
    assert ts'[..|ts|] == ts;
    forall from ensures CountWithin(ts', from) <= limit {
      if from <= now < from + WINDOW {
        WindowShrinks(ts, checked, now);
        WindowIsRecent(ts, from, now);
      }
    }
  }

  // ---------------------------------------------------------------- the rate limiter

  class RateLimiter {
    const limit: int
    var buckets: map<string, seq<real>>
    ghost var accepted: map<string, seq<real>>  // per key, the times of all calls ever accepted
    ghost var latest: real

    ghost function History(key: string): seq<real>
      reads this
    {
      if key in accepted then accepted[key] else []
    }

    function Bucket(key: string): seq<real>
      reads this
    {
      if key in buckets then buckets[key] else []
    }

    ghost predicate Valid()
      reads this
    {
      forall key :: Faithful(History(key), Bucket(key), latest, limit)
    }

    constructor (limit: int)
      ensures Valid() && this.limit == limit && accepted == map[]
    {
      this.limit := limit;
      buckets, accepted, latest := map[], map[], 0.0;
      new;
      assert Bounded([], limit);
      assert forall key :: Faithful(History(key), Bucket(key), latest, limit);
    }

    /** Accepts exactly when fewer than `limit` accepted calls of this key lie in the last sixty seconds. */
    method Allow(key: string, now: real) returns (ok: bool)
      requires Valid() && latest <= now
      modifies this
      ensures Valid() && latest == now
      ensures ok <==> |set i: nat | i < |old(History(key))| && now - old(History(key))[i] < 60.0| < limit
      ensures History(key) == old(History(key)) + if ok then [now] else []
      ensures forall other | other != key :: History(other) == old(History(other))
    {
      hide Faithful, Recent;
      forall other ensures Faithful(History(other), Bucket(other), now, limit) {
        TimePasses(History(other), Bucket(other), latest, now, limit);
      }
      ghost var history := History(key);
      RecentIsTheLastMinute(history, now);
      TimePasses(history, Bucket(key), latest, now, limit);
      SameRecent(history, Bucket(key), now, limit);
      var bucket := DropOld(Bucket(key), now);
      assert Faithful(history, bucket, now, limit);
      ok := |bucket| < limit;
      if ok {
        AcceptOne(history, bucket, now, limit);
        bucket := bucket + [now];
        accepted := accepted[key := history + [now]];
      }
      buckets := buckets[key := bucket];
      latest := now;
      forall other ensures Faithful(History(other), Bucket(other), now, limit) {
        assert other != key ==> History(other) == old(History(other)) && Bucket(other) == old(Bucket(other));
      }
    }

    /** The `popleft` loop. */
    method DropOld(bucket: seq<real>, now: real) returns (kept: seq<real>)
      requires Nondecreasing(bucket)
      ensures kept == Recent(bucket, now)
    {
      kept := bucket;
      while kept != [] && now - kept[0] >= WINDOW
        invariant Nondecreasing(kept) && Recent(kept, now) == Recent(bucket, now)
        decreases |kept|
      {
        RecentOfConcat([kept[0]], kept[1..], now);
        assert kept == [kept[0]] + kept[1..] && Recent([kept[0]], now) == [];
        kept := kept[1..];
      }
      forall i | 0 <= i < |kept| ensures now - kept[i] < WINDOW {
        assert kept[0] <= kept[i];
      }
      AllRecent(kept, now);
    }
  }

  /** What the limiter keeps for a key answers for the key's whole history. */
  ghost predicate Faithful(history: seq<real>, bucket: seq<real>, latest: real, limit: int) {
    && Nondecreasing(bucket) && (forall i | 0 <= i < |bucket| :: bucket[i] <= latest)
    && Recent(bucket, latest) == Recent(history, latest)
    && Bounded(history, limit)
  }

  lemma TimePasses(history: seq<real>, bucket: seq<real>, latest: real, now: real, limit: int)
    requires Faithful(history, bucket, latest, limit) && latest <= now
    ensures Faithful(history, bucket, now, limit) && Faithful(history, Recent(bucket, now), now, limit)
  {
    ForgettingIsHarmless(bucket, latest, now);
    ForgettingIsHarmless(history, latest, now);
    ForgettingIsHarmless(bucket, now, now);
    RecentIsOrdered(bucket, now);
  }

  lemma SameRecent(history: seq<real>, bucket: seq<real>, now: real, limit: int)
    requires Faithful(history, bucket, now, limit)
    ensures Recent(bucket, now) == Recent(history, now) && Nondecreasing(bucket)
  {
  }

  lemma AcceptOne(history: seq<real>, bucket: seq<real>, now: real, limit: int)
    requires Faithful(history, bucket, now, limit) && |Recent(history, now)| < limit
    ensures Faithful(history + [now], bucket + [now], now, limit)
  {
    AcceptKeepsBound(history, limit, now, now);
    AppendBoth(bucket, history, now);
  }

  lemma {:induction false} RecentIsOrdered(ts: seq<real>, now: real)
    requires Nondecreasing(ts) && forall i | 0 <= i < |ts| :: ts[i] <= now
    ensures Nondecreasing(Recent(ts, now)) && forall i | 0 <= i < |Recent(ts, now)| :: Recent(ts, now)[i] <= now
    ensures forall i | 0 <= i < |Recent(ts, now)| && ts != [] :: Recent(ts, now)[i] <= ts[|ts| - 1]
  {
    if ts != [] {
      var front, last := ts[..|ts| - 1], ts[|ts| - 1];
      RecentIsOrdered(front, now);
      assert front != [] ==> front[|front| - 1] <= last;
      var kept := Recent(front, now);
      assert front == [] ==> kept == [];
      assert forall i | 0 <= i < |kept| :: kept[i] <= last;
    }
  }

  lemma {:induction false} AllRecent(ts: seq<real>, now: real)
    requires forall i | 0 <= i < |ts| :: now - ts[i] < WINDOW
    ensures Recent(ts, now) == ts
  {
    if ts != [] {
      AllRecent(ts[..|ts| - 1], now);
      assert ts == ts[..|ts| - 1] + [ts[|ts| - 1]];
    }
  }

  lemma AppendBoth(bucket: seq<real>, history: seq<real>, now: real)
    requires Recent(bucket, now) == Recent(history, now)
    ensures Recent(bucket + [now], now) == Recent(history + [now], now)
  {
    RecentOfConcat(bucket, [now], now);
    RecentOfConcat(history, [now], now);
  }

  // ---------------------------------------------------------------- the write quota

  class WriteQuota {
    const dailyMax: int
    const burstMax: int
    var writesToday: nat
    var timestamps: seq<real>
    ghost var recorded: seq<real>  // the times of all writes ever recorded
    ghost var latest: real

    ghost predicate Valid()
      reads this
    {
      && Recent(timestamps, latest) == Recent(recorded, latest)
      && Bounded(recorded, burstMax)
    }

    /** `n` more writes fit both the day and the minute. */
    predicate Fits(n: int, now: real)
      reads this
    {
      writesToday + n <= dailyMax && |Recent(timestamps, now)| + n <= burstMax
    }

    constructor (dailyMax: int, burstMax: int, writesToday: nat)
      ensures Valid() && recorded == [] && latest == 0.0
      ensures this.dailyMax == dailyMax && this.burstMax == burstMax && this.writesToday == writesToday
    {
      this.dailyMax, this.burstMax, this.writesToday := dailyMax, burstMax, writesToday;
      timestamps, recorded, latest := [], [], 0.0;
    }

    /** `_enforce_write_quota`: gates one write, and drops timestamps that have left the window. */
    method Enforce(now: real) returns (ok: bool)
      requires Valid() && latest <= now
      modifies this
      ensures Valid() && latest == now && writesToday == old(writesToday) && recorded == old(recorded)
      ensures ok <==> old(Fits(1, now))
      ensures ok <==> writesToday < dailyMax && |set i: nat | i < |recorded| && now - recorded[i] < 60.0| < burstMax
      ensures forall later | now <= later :: Recent(timestamps, later) == Recent(old(timestamps), later)
    {
      ForgettingIsHarmless(timestamps, latest, now);
      ForgettingIsHarmless(recorded, latest, now);
      RecentIsTheLastMinute(recorded, now);
      latest := now;
      if writesToday >= dailyMax {
        return false;
      }
      var pruned := Recent(timestamps, now);
      forall later | now <= later ensures Recent(pruned, later) == Recent(timestamps, later) {
        ForgettingIsHarmless(timestamps, now, later);
      }
      timestamps := pruned;
      ok := |timestamps| < burstMax;
    }

    /** `check_write_quota`: the same two questions for `n` writes at once, with no effect. */
    method Check(n: int, now: real) returns (ok: bool)
      ensures ok <==> n <= 0 || Fits(n, now)
    {
      if n <= 0 {
        return true;
      }
      ok := writesToday + n <= dailyMax && |Recent(timestamps, now)| + n <= burstMax;
    }

    /** `_record_write`, some time after the write was let through. */
    method Record(ghost checked: real, now: real)
      requires Valid() && checked <= latest <= now && |Recent(recorded, checked)| < burstMax
      modifies this
      ensures Valid() && latest == now
      ensures writesToday == old(writesToday) + 1 && timestamps == old(timestamps) + [now]
      ensures recorded == old(recorded) + [now]
    {
      AcceptKeepsBound(recorded, burstMax, checked, now);
      ForgettingIsHarmless(timestamps, latest, now);
      ForgettingIsHarmless(recorded, latest, now);
      AppendBoth(timestamps, recorded, now);
      timestamps := timestamps + [now];
      recorded := recorded + [now];
      latest := now;
      writesToday := writesToday + 1;
    }
  }

  /**
   A preflight passed for `n` writes covers all of them: after any `k` < `n` of them, recorded at
   any later times, one more still fits, whenever it is asked.
   */
  lemma PreflightCoversEveryWrite(timestamps: seq<real>, writesToday: nat, dailyMax: int, burstMax: int, n: nat,
                                  now: real, more: seq<real>, later: real)
    requires now <= later && |more| < n
    requires writesToday + n <= dailyMax && |Recent(timestamps, now)| + n <= burstMax
    ensures writesToday + |more| < dailyMax && |Recent(timestamps + more, later)| < burstMax
  {
    RecentOfConcat(timestamps, more, later);
    WindowShrinks(timestamps, now, later);
    RecentMembers(more, later);
  }
}
