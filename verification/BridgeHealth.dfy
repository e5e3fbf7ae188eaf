/**
 Bridge outage and staleness alerts (panella/bridge_health.py): watermarks advance only for
 alerts that were delivered. One instance is one bridge; messages and payloads are left out.
 */
module BridgeHealth {
  import opened Basics

  datatype Config = Config(streakThreshold: int, staleAfter: real)

  /** When a wing was last written, and when its staleness was last delivered (0 for never since). */
  datatype Wing = Wing(written: real, alerted: real)

  type Wings = map<string, Wing>

  datatype Health = Health(streak: nat, lastAlerted: nat, lastRunAt: real, wings: Wings)

  const FRESH: Health := Health(0, 0, 0.0, map[])

  datatype Summary = Summary(errors: nat, sessions: nat, now: real, writes: map<string, real>)

  /** The streak alert carries its streak, a staleness alert the write it is about. */
  datatype Alert = Outage(streak: nat) | Stale(wing: string, written: real)

  /** One run: alerts switched off or not, what the sink accepts, and whether it dies before marking. */
  datatype Run = Run(summary: Summary, disabled: bool, accepts: Alert -> bool, dies: bool)

  // ---------------------------------------------------------------- specification

  predicate Clean(s: Summary) {
    s.errors == 0 && s.sessions > 0
  }

  function NewStreak(h: Health, s: Summary): nat {
    if Clean(s) then 0 else if s.errors > 0 then h.streak + 1 else h.streak
  }

  function Refresh(prior: Option<Wing>, ts: real): Wing {
    match prior
    case None => Wing(ts, 0.0)
    case Some(w) => Wing(if w.written >= ts then w.written else ts, if ts > w.written then 0.0 else w.alerted)
  }

  function Find(wings: Wings, k: string): Option<Wing> {
    if k in wings then Some(wings[k]) else None
  }

  /** The wings after the upserts for `done`. */
  function RefreshedFor(wings: Wings, writes: map<string, real>, done: set<string>): Wings
    requires done <= writes.Keys
  {
    map k | k in wings.Keys + done :: if k in done then Refresh(Find(wings, k), writes[k]) else wings[k]
  }

  function Refreshed(wings: Wings, writes: map<string, real>): Wings {
    RefreshedFor(wings, writes, writes.Keys)
  }

  lemma RefreshOne(wings: Wings, writes: map<string, real>, done: set<string>, k: string)
    requires done <= writes.Keys && k in writes && k !in done
    ensures Find(RefreshedFor(wings, writes, done), k) == Find(wings, k)
    ensures RefreshedFor(wings, writes, done + {k}) ==
            RefreshedFor(wings, writes, done)[k := Refresh(Find(wings, k), writes[k])]
  {
  }

  /** A wing written for the first time, or later than before, starts unreported; any other keeps both its times. */
  lemma ProgressIsUnreported(wings: Wings, writes: map<string, real>, k: string)
    ensures k in Refreshed(wings, writes) <==> k in wings || k in writes
    ensures k in writes && (k !in wings || writes[k] > wings[k].written) ==>
              Refreshed(wings, writes)[k] == Wing(writes[k], 0.0)
    ensures k in wings && (k !in writes || writes[k] <= wings[k].written) ==> Refreshed(wings, writes)[k] == wings[k]
  {
  }

  predicate IsStale(cfg: Config, w: Wing, now: real) {
    now - w.written >= cfg.staleAfter && w.alerted < w.written
  }

  predicate OutageFires(cfg: Config, h: Health, run: Run) {
    var streak := NewStreak(h, run.summary);
    !run.disabled && streak >= cfg.streakThreshold && streak > h.lastAlerted
  }

  predicate StaleFires(cfg: Config, h: Health, run: Run, wing: string) {
    var wings := Refreshed(h.wings, run.summary.writes);
    !run.disabled && wing in wings && IsStale(cfg, wings[wing], run.summary.now)
  }

  /** The alert is raised by this run. */
  predicate Fires(cfg: Config, h: Health, run: Run, alert: Alert) {
    match alert
    case Outage(streak) => OutageFires(cfg, h, run) && streak == NewStreak(h, run.summary)
    case Stale(wing, written) =>
      StaleFires(cfg, h, run, wing) && written == Refreshed(h.wings, run.summary.writes)[wing].written
  }

  predicate Delivered(cfg: Config, h: Health, run: Run, alert: Alert) {
    Fires(cfg, h, run, alert) && run.accepts(alert)
  }

  function Marked(cfg: Config, h: Health, run: Run): Wings {
    var wings := Refreshed(h.wings, run.summary.writes);
    map k | k in wings ::
      if Delivered(cfg, h, run, Stale(k, wings[k].written)) then wings[k].(alerted := run.summary.now) else wings[k]
  }

  /** The tables after the run. */
  function After(cfg: Config, h: Health, run: Run): Health {
    var streak := NewStreak(h, run.summary);
    var floor := if Clean(run.summary) then 0 else h.lastAlerted;
    if run.dies then Health(streak, floor, run.summary.now, Refreshed(h.wings, run.summary.writes))
    else Health(streak, if Delivered(cfg, h, run, Outage(streak)) then streak else floor, run.summary.now,
                Marked(cfg, h, run))
  }

  /** A run without errors that wrote something resets streak and watermark; errors count; other runs count nothing. */
  lemma StreakMoves(cfg: Config, h: Health, run: Run)
    ensures var (s, h') := (run.summary, After(cfg, h, run));
            && (s.errors == 0 && s.sessions > 0 ==> h'.streak == 0 && h'.lastAlerted == 0)
            && (s.errors > 0 ==> h'.streak == h.streak + 1)
            && (s.errors == 0 && s.sessions == 0 ==> h'.streak == h.streak)
            && h'.lastRunAt == s.now
  {
  }

  lemma NothingDeliveredNothingMarked(cfg: Config, h: Health, run: Run)
    requires run.disabled
    ensures Marked(cfg, h, run) == Refreshed(h.wings, run.summary.writes)
  {
  }

  lemma RaisedAre(cfg: Config, h: Health, run: Run, stale: seq<string>, alerts: seq<Alert>, delivered: seq<string>)
    requires !run.disabled
    requires var wings := Refreshed(h.wings, run.summary.writes);
             && (forall k :: k in stale <==> k in wings && IsStale(cfg, wings[k], run.summary.now))
             && (forall a :: a in alerts <==>
                   (a == Outage(NewStreak(h, run.summary)) && OutageFires(cfg, h, run))
                   || (a.Stale? && a.wing in stale && a.written == wings[a.wing].written))
             && (forall k :: k in delivered <==> k in stale && run.accepts(Stale(k, wings[k].written)))
    ensures forall a :: a in alerts <==> Fires(cfg, h, run, a)
    ensures OutageFires(cfg, h, run) && run.accepts(Outage(NewStreak(h, run.summary)))
            <==> Delivered(cfg, h, run, Outage(NewStreak(h, run.summary)))
    ensures var wings := Refreshed(h.wings, run.summary.writes);
            forall k | k in wings :: k in delivered <==> Delivered(cfg, h, run, Stale(k, wings[k].written))
  {
    hide Refreshed, IsStale;
  }

  lemma MarkedAre(cfg: Config, h: Health, run: Run, refreshed: Wings, delivered: seq<string>, marked: Wings)
    requires refreshed == Refreshed(h.wings, run.summary.writes) && marked.Keys == refreshed.Keys
    requires forall k | k in refreshed :: k in delivered <==> Delivered(cfg, h, run, Stale(k, refreshed[k].written))
    requires forall k | k in marked ::
               marked[k] == if k in delivered then refreshed[k].(alerted := run.summary.now) else refreshed[k]
    ensures marked == Marked(cfg, h, run)
  {
    hide Refreshed, Delivered;
  }

  // ---------------------------------------------------------------- one run

  class BridgeTables {
    const cfg: Config
    var streak: nat
    var lastAlerted: nat
    var lastRunAt: real
    var wings: Wings

    function Tables(): Health
      reads this
    {
      Health(streak, lastAlerted, lastRunAt, wings)
    }

    constructor (cfg: Config)
      ensures this.cfg == cfg && Tables() == FRESH
    {
      this.cfg := cfg;
      streak, lastAlerted, lastRunAt, wings := 0, 0, 0.0, map[];
    }

    /** `_persist_wing_freshness`: one upsert for each wing written. */
    method PersistWingFreshness(writes: map<string, real>)
      modifies this`wings
      ensures wings == Refreshed(old(wings), writes)
    {
      ghost var before := wings;
      var done: set<string> := {};
      assert wings == RefreshedFor(before, writes, done);
      hide RefreshedFor, Refresh, Find;
      while done != writes.Keys
        invariant done <= writes.Keys && wings == RefreshedFor(before, writes, done)
        decreases writes.Keys - done
      {
        assert writes.Keys - done != {};
        var wing :| wing in writes.Keys && wing !in done;
        RefreshOne(before, writes, done, wing);
        wings := wings[wing := Refresh(Find(wings, wing), writes[wing])];
        done := done + {wing};
      }
    }

    /** `_query_stale_wings`. */
    method QueryStaleWings(now: real) returns (stale: seq<string>)
      ensures forall k :: k in stale <==> k in wings && IsStale(cfg, wings[k], now)
    {
      stale := [];
      var left := wings.Keys;
      while left != {}
        invariant left <= wings.Keys
        invariant forall k :: k in stale <==> k in wings && k !in left && IsStale(cfg, wings[k], now)
        decreases |left|
      {
        var wing :| wing in left;
        if IsStale(cfg, wings[wing], now) {
          stale := stale + [wing];
        }
        left := left - {wing};
      }
    }

    /** Phases 1 and 2: build the alerts and try to deliver each; what was delivered is remembered. */
    method RaiseAndDeliver(run: Run, raiseOutage: bool, newStreak: nat, stale: seq<string>)
      returns (alerts: seq<Alert>, outageDelivered: bool, delivered: seq<string>)
      requires forall k | k in stale :: k in wings
      ensures forall a :: a in alerts <==>
                (a == Outage(newStreak) && raiseOutage)
                || (a.Stale? && a.wing in stale && a.written == wings[a.wing].written)
      ensures outageDelivered == (raiseOutage && run.accepts(Outage(newStreak)))
      ensures forall k :: k in delivered <==> k in stale && run.accepts(Stale(k, wings[k].written))
    {
      alerts := if raiseOutage then [Outage(newStreak)] else [];
      outageDelivered := raiseOutage && run.accepts(Outage(newStreak));
      delivered := [];
      for i := 0 to |stale|
        invariant forall a :: a in alerts <==>
                    (a == Outage(newStreak) && raiseOutage)
                    || (a.Stale? && a.wing in stale[..i] && a.written == wings[a.wing].written)
        invariant forall k :: k in delivered <==> k in stale[..i] && run.accepts(Stale(k, wings[k].written))
      {
        assert stale[..i + 1] == stale[..i] + [stale[i]];
        var alert := Stale(stale[i], wings[stale[i]].written);
        alerts := alerts + [alert];
        if run.accepts(alert) {
          delivered := delivered + [stale[i]];
        }
      }
      assert stale[..|stale|] == stale;
    }

    /**
     `record_run`: persist the run, raise alerts against the prior watermarks, deliver them, and
     advance the watermarks of what was delivered.
     */
    method RecordRun(run: Run) returns (alerts: seq<Alert>)
      modifies this
      ensures Tables() == After(cfg, old(Tables()), run)
      ensures forall a :: a in alerts <==> Fires(cfg, old(Tables()), run, a)
    {
      ghost var before := Tables();
      var s := run.summary;
      var newStreak := if Clean(s) then 0 else if s.errors > 0 then streak + 1 else streak;
      var raiseOutage := !run.disabled && newStreak >= cfg.streakThreshold && newStreak > lastAlerted;
      streak, lastAlerted, lastRunAt := newStreak, if Clean(s) then 0 else lastAlerted, s.now;
      hide Refreshed, IsStale, Fires, Marked, Delivered;
      PersistWingFreshness(s.writes);
      if run.disabled {
        NothingDeliveredNothingMarked(cfg, before, run);
        return [];
      }
      var stale := QueryStaleWings(s.now);
      var outageDelivered, delivered;
      alerts, outageDelivered, delivered := RaiseAndDeliver(run, raiseOutage, newStreak, stale);
      RaisedAre(cfg, before, run, stale, alerts, delivered);
      if run.dies {
        return;
      }
      if outageDelivered {
        lastAlerted := newStreak;
      }
      ghost var refreshed := wings;
      MarkWingsAlerted(delivered, s.now);
      MarkedAre(cfg, before, run, refreshed, delivered, wings);
    }

    /** `_mark_wings_alerted`. */
    method MarkWingsAlerted(delivered: seq<string>, now: real)
      requires forall k | k in delivered :: k in wings
      modifies this`wings
      ensures wings.Keys == old(wings).Keys
      ensures forall k | k in wings ::
                wings[k] == if k in delivered then old(wings)[k].(alerted := now) else old(wings)[k]
    {
      ghost var before := wings;
      for i := 0 to |delivered|
        invariant wings.Keys == before.Keys
        invariant forall k | k in wings ::
                    wings[k] == if k in delivered[..i] then before[k].(alerted := now) else before[k]
      {
        assert delivered[i] in delivered && delivered[..i + 1] == delivered[..i] + [delivered[i]];
        wings := wings[delivered[i] := wings[delivered[i]].(alerted := now)];
      }
      assert delivered[..|delivered|] == delivered;
    }
  }

  // ---------------------------------------------------------------- whole histories

  function StateAt(cfg: Config, runs: seq<Run>, n: nat): Health
    requires n <= |runs|
  {
    if n == 0 then FRESH else After(cfg, StateAt(cfg, runs, n - 1), runs[n - 1])
  }

  function ErrorRuns(runs: seq<Run>, from: nat, n: nat): nat
    requires from <= n <= |runs|
    decreases n
  {
    if n == from then 0 else ErrorRuns(runs, from, n - 1) + if runs[n - 1].summary.errors > 0 then 1 else 0
  }

  /** The streak counts the error runs since the last clean run, and no watermark exceeds it. */
  lemma {:induction false} StreakCountsErrorRuns(cfg: Config, runs: seq<Run>, n: nat, from: nat)
    requires from <= n <= |runs| && (from == 0 || Clean(runs[from - 1].summary))
    requires forall i | from <= i < n :: !Clean(runs[i].summary)
    ensures StateAt(cfg, runs, n).streak == ErrorRuns(runs, from, n)
    ensures StateAt(cfg, runs, n).lastAlerted <= StateAt(cfg, runs, n).streak
    decreases n
  {
    if n > from {
      StreakCountsErrorRuns(cfg, runs, n - 1, from);
    }
  }

  /** A watermark that is up is the streak of an alert that a surviving run of this outage delivered. */
  lemma {:induction false} WatermarkWasDelivered(cfg: Config, runs: seq<Run>, n: nat, from: nat)
    requires from <= n <= |runs| && (from == 0 || Clean(runs[from - 1].summary))
    requires forall i | from <= i < n :: !Clean(runs[i].summary)
    ensures var x := StateAt(cfg, runs, n).lastAlerted;
            x == 0 || exists i | from <= i < n ::
                        !runs[i].dies && Delivered(cfg, StateAt(cfg, runs, i), runs[i], Outage(x))
    decreases n
  {
    hide Delivered, Refreshed, Marked;
    if n > from {
      WatermarkWasDelivered(cfg, runs, n - 1, from);
    }
  }

  /**
   When an outage alert fires: alerts are on, the run is not clean, the error runs since the last
   clean one have reached the threshold, and no surviving run has delivered this very streak. So the
   first alert of an outage comes at the threshold, and never below it.
   */
  lemma OutageFiresIff(cfg: Config, runs: seq<Run>, n: nat, from: nat)
    requires from <= n < |runs| && (from == 0 || Clean(runs[from - 1].summary))
    requires forall i | from <= i < n :: !Clean(runs[i].summary)
    ensures var errors := ErrorRuns(runs, from, n + 1);
            OutageFires(cfg, StateAt(cfg, runs, n), runs[n]) <==>
              && !runs[n].disabled && !Clean(runs[n].summary) && errors > 0 && errors >= cfg.streakThreshold
              && forall i | from <= i < n ::
                   runs[i].dies || !Delivered(cfg, StateAt(cfg, runs, i), runs[i], Outage(errors))
  {
    var h, errors := StateAt(cfg, runs, n), ErrorRuns(runs, from, n + 1);
    StreakCountsErrorRuns(cfg, runs, n, from);
    WatermarkWasDelivered(cfg, runs, n, from);
    hide Delivered;
    if !Clean(runs[n].summary) {
      assert NewStreak(h, runs[n].summary) == errors;
      if i :| from <= i < n && !runs[i].dies && Delivered(cfg, StateAt(cfg, runs, i), runs[i], Outage(errors)) {
        FloorHolds(cfg, runs, i, n, errors);
      }
    }
  }

  /** Within an outage every delivered streak is higher than the one delivered before it. */
  lemma {:induction false} DeliveredStreaksIncrease(cfg: Config, runs: seq<Run>, i: nat, j: nat, x: nat, y: nat)
    requires i < j < |runs| && (forall k | i < k < j :: !Clean(runs[k].summary)) && !runs[i].dies
    requires Delivered(cfg, StateAt(cfg, runs, i), runs[i], Outage(x))
    requires Delivered(cfg, StateAt(cfg, runs, j), runs[j], Outage(y))
    ensures x < y
  {
    FloorHolds(cfg, runs, i, j, x);
  }

  lemma {:induction false} FloorHolds(cfg: Config, runs: seq<Run>, i: nat, j: nat, x: nat)
    requires i < j <= |runs| && (forall k | i < k < j :: !Clean(runs[k].summary)) && !runs[i].dies
    requires Delivered(cfg, StateAt(cfg, runs, i), runs[i], Outage(x))
    ensures StateAt(cfg, runs, j).lastAlerted >= x
    decreases j
  {
    if j > i + 1 {
      FloorHolds(cfg, runs, i, j - 1, x);
    }
  }

  /** With a threshold of zero or more, a wing is reported stale at most once for each write. */
  lemma {:induction false} OneDeliveryPerWrite(cfg: Config, runs: seq<Run>, i: nat, j: nat, wing: string, x: real,
                                               y: real)
    requires i < j < |runs| && !runs[i].dies && cfg.staleAfter >= 0.0
    requires Delivered(cfg, StateAt(cfg, runs, i), runs[i], Stale(wing, x))
    requires Delivered(cfg, StateAt(cfg, runs, j), runs[j], Stale(wing, y))
    ensures x < y
  {
    WingWatermark(cfg, runs, i, j, wing, x);
  }

  /** The wing has moved on to a later write, or still carries a watermark that mutes this one. */
  predicate Muted(wings: Wings, wing: string, x: real) {
    wing in wings && (wings[wing].written > x || (wings[wing].written == x && wings[wing].alerted >= x))
  }

  lemma {:induction false} WingWatermark(cfg: Config, runs: seq<Run>, i: nat, j: nat, wing: string, x: real)
    requires i < j <= |runs| && !runs[i].dies && cfg.staleAfter >= 0.0
    requires Delivered(cfg, StateAt(cfg, runs, i), runs[i], Stale(wing, x))
    ensures Muted(StateAt(cfg, runs, j).wings, wing, x)
    decreases j
  {
    hide Muted, Delivered;
    if j > i + 1 {
      WingWatermark(cfg, runs, i, j - 1, wing, x);
      MutedStays(cfg, StateAt(cfg, runs, j - 1), runs[j - 1], wing, x);
    } else {
      DeliveryMutes(cfg, StateAt(cfg, runs, i), runs[i], wing, x);
    }
  }

  lemma DeliveryMutes(cfg: Config, h: Health, run: Run, wing: string, x: real)
    requires Delivered(cfg, h, run, Stale(wing, x)) && !run.dies && cfg.staleAfter >= 0.0
    ensures Muted(After(cfg, h, run).wings, wing, x)
  {
  }

  lemma MutedStays(cfg: Config, h: Health, run: Run, wing: string, x: real)
    requires Muted(h.wings, wing, x) && cfg.staleAfter >= 0.0
    ensures Muted(After(cfg, h, run).wings, wing, x) && Muted(Refreshed(h.wings, run.summary.writes), wing, x)
  {
  }

  /** The run raises the alert and leaves its watermark alone: nobody took it, or the run died first. */
  predicate LeavesUnmarked(run: Run, alert: Alert) {
    run.dies || !run.accepts(alert)
  }

  /** An outage alert left unmarked is raised again by the next enabled run of the same outage. */
  lemma UnmarkedOutageRefires(cfg: Config, runs: seq<Run>, i: nat, j: nat)
    requires i < j < |runs| && OutageFires(cfg, StateAt(cfg, runs, i), runs[i])
    requires LeavesUnmarked(runs[i], Outage(NewStreak(StateAt(cfg, runs, i), runs[i].summary)))
    requires forall k | i < k < j :: runs[k].disabled && !Clean(runs[k].summary)
    requires !runs[j].disabled && !Clean(runs[j].summary)
    ensures OutageFires(cfg, StateAt(cfg, runs, j), runs[j])
  {
    QuietOutage(cfg, runs, i, j);
  }

  lemma {:induction false} QuietOutage(cfg: Config, runs: seq<Run>, i: nat, j: nat)
    requires i < j <= |runs| && OutageFires(cfg, StateAt(cfg, runs, i), runs[i])
    requires LeavesUnmarked(runs[i], Outage(NewStreak(StateAt(cfg, runs, i), runs[i].summary)))
    requires forall k | i < k < j :: runs[k].disabled && !Clean(runs[k].summary)
    ensures StateAt(cfg, runs, j).lastAlerted < StateAt(cfg, runs, j).streak
    ensures cfg.streakThreshold <= StateAt(cfg, runs, j).streak
    decreases j
  {
    if j > i + 1 {
      QuietOutage(cfg, runs, i, j - 1);
    }
  }

  /** A staleness alert left unmarked is raised again by the next enabled run that still finds the wing as old. */
  lemma UnmarkedStaleRefires(cfg: Config, runs: seq<Run>, i: nat, j: nat, wing: string, x: real)
    requires i < j < |runs| && Fires(cfg, StateAt(cfg, runs, i), runs[i], Stale(wing, x))
    requires LeavesUnmarked(runs[i], Stale(wing, x))
    requires forall k | i < k < j :: runs[k].disabled
    requires forall k | i < k <= j && wing in runs[k].summary.writes :: runs[k].summary.writes[wing] <= x
    requires !runs[j].disabled && runs[j].summary.now - x >= cfg.staleAfter
    ensures Fires(cfg, StateAt(cfg, runs, j), runs[j], Stale(wing, x))
  {
    QuietWing(cfg, runs, i, j, wing, x);
  }

  lemma {:induction false} QuietWing(cfg: Config, runs: seq<Run>, i: nat, j: nat, wing: string, x: real)
    requires i < j <= |runs| && Fires(cfg, StateAt(cfg, runs, i), runs[i], Stale(wing, x))
    requires LeavesUnmarked(runs[i], Stale(wing, x))
    requires forall k | i < k < j :: runs[k].disabled
    requires forall k | i < k < j && wing in runs[k].summary.writes :: runs[k].summary.writes[wing] <= x
    ensures Pending(StateAt(cfg, runs, j).wings, wing, x)
    decreases j
  {
    hide Pending, Fires, After, LeavesUnmarked;
    if j > i + 1 {
      QuietWing(cfg, runs, i, j - 1, wing, x);
      PendingStays(cfg, StateAt(cfg, runs, j - 1), runs[j - 1], wing, x);
    } else {
      UnmarkedStaysPending(cfg, StateAt(cfg, runs, i), runs[i], wing, x);
    }
  }

  /** The wing still awaits a delivery about its write at `x`. */
  predicate Pending(wings: Wings, wing: string, x: real) {
    wing in wings && wings[wing].written == x && wings[wing].alerted < x
  }

  lemma PendingStays(cfg: Config, h: Health, run: Run, wing: string, x: real)
    requires Pending(h.wings, wing, x) && run.disabled
    requires wing in run.summary.writes ==> run.summary.writes[wing] <= x
    ensures Pending(After(cfg, h, run).wings, wing, x)
  {
  }

  lemma UnmarkedStaysPending(cfg: Config, h: Health, run: Run, wing: string, x: real)
    requires Fires(cfg, h, run, Stale(wing, x)) && LeavesUnmarked(run, Stale(wing, x))
    ensures Pending(After(cfg, h, run).wings, wing, x)
  {
  }

  // ---------------------------------------------------------------- where the promises end

  /**
   A wing with no delivery since its last write is reported exactly when it is old enough and written
   after time 0.
   */
  lemma UnreportedWingFires(cfg: Config, h: Health, run: Run, wing: string)
    requires wing in Refreshed(h.wings, run.summary.writes) && !run.disabled
    requires Refreshed(h.wings, run.summary.writes)[wing].alerted == 0.0
    ensures var w := Refreshed(h.wings, run.summary.writes)[wing];
            StaleFires(cfg, h, run, wing) <==> run.summary.now - w.written >= cfg.staleAfter && w.written > 0.0
  {
  }

  /** Neither an error nor a new session: the streak stays where it is. */
  predicate Idle(s: Summary) {
    s.errors == 0 && s.sessions == 0
  }

  /**
   A delivered streak is delivered again, by the next idle run that is enabled and accepts it,
   exactly when the run that delivered it died before it could mark it.
   */
  lemma OutageRepeatsIffDied(cfg: Config, runs: seq<Run>, i: nat, j: nat, x: nat)
    requires i < j < |runs| && Delivered(cfg, StateAt(cfg, runs, i), runs[i], Outage(x))
    requires forall k | i < k < j :: runs[k].disabled && Idle(runs[k].summary)
    requires !runs[j].disabled && Idle(runs[j].summary) && runs[j].accepts(Outage(x))
    ensures Delivered(cfg, StateAt(cfg, runs, j), runs[j], Outage(x)) <==> runs[i].dies
  {
    if runs[i].dies {
      UnmarkedOutageRefires(cfg, runs, i, j);
      IdleKeepsStreak(cfg, runs, i + 1, j);
    } else if Delivered(cfg, StateAt(cfg, runs, j), runs[j], Outage(x)) {
      DeliveredStreaksIncrease(cfg, runs, i, j, x, x);
    }
  }

  lemma {:induction false} IdleKeepsStreak(cfg: Config, runs: seq<Run>, i: nat, j: nat)
    requires i <= j <= |runs| && forall k | i <= k < j :: Idle(runs[k].summary)
    ensures StateAt(cfg, runs, j).streak == StateAt(cfg, runs, i).streak
    decreases j
  {
    if j > i {
      IdleKeepsStreak(cfg, runs, i, j - 1);
    }
  }

  /** So it is for a staleness alert, with a threshold of zero or more, while the wing is as old. */
  lemma StaleRepeatsIffDied(cfg: Config, runs: seq<Run>, i: nat, j: nat, wing: string, x: real)
    requires i < j < |runs| && Delivered(cfg, StateAt(cfg, runs, i), runs[i], Stale(wing, x)) && cfg.staleAfter >= 0.0
    requires forall k | i < k < j :: runs[k].disabled
    requires forall k | i < k <= j && wing in runs[k].summary.writes :: runs[k].summary.writes[wing] <= x
    requires !runs[j].disabled && runs[j].summary.now - x >= cfg.staleAfter && runs[j].accepts(Stale(wing, x))
    ensures Delivered(cfg, StateAt(cfg, runs, j), runs[j], Stale(wing, x)) <==> runs[i].dies
  {
    hide Fires;
    if runs[i].dies {
      UnmarkedStaleRefires(cfg, runs, i, j, wing, x);
    } else if Delivered(cfg, StateAt(cfg, runs, j), runs[j], Stale(wing, x)) {
      OneDeliveryPerWrite(cfg, runs, i, j, wing, x, x);
    }
  }

  /** In every history of surviving runs, each later delivery about a wing concerns a later write. */
  ghost predicate ReportsOnce(cfg: Config) {
    forall runs: seq<Run>, i: nat, j: nat, wing: string, x: real, y: real |
      && i < j < |runs| && (forall k | 0 <= k < |runs| :: !runs[k].dies)
      && Delivered(cfg, StateAt(cfg, runs, i), runs[i], Stale(wing, x))
      && Delivered(cfg, StateAt(cfg, runs, j), runs[j], Stale(wing, y)) ::
      x < y
  }

  /** One delivery for each write: exactly when the threshold is not negative. */
  lemma OneDeliveryPerWriteIff(cfg: Config)
    ensures ReportsOnce(cfg) <==> cfg.staleAfter >= 0.0
  {
    if cfg.staleAfter >= 0.0 {
      forall runs: seq<Run>, i: nat, j: nat, wing: string, x: real, y: real |
        && i < j < |runs| && (forall k | 0 <= k < |runs| :: !runs[k].dies)
        && Delivered(cfg, StateAt(cfg, runs, i), runs[i], Stale(wing, x))
        && Delivered(cfg, StateAt(cfg, runs, j), runs[j], Stale(wing, y))
        ensures x < y
      {
        OneDeliveryPerWrite(cfg, runs, i, j, wing, x, y);
      }
    } else {
      var runs := NegativeThresholdRepeats(cfg, "w");
    }
  }

  /** Under a negative threshold a wing written in the future is reported on every run. */
  lemma NegativeThresholdRepeats(cfg: Config, wing: string) returns (runs: seq<Run>)
    requires cfg.staleAfter < 0.0
    ensures |runs| == 2 && !runs[0].dies && !runs[1].dies
    ensures Delivered(cfg, StateAt(cfg, runs, 0), runs[0], Stale(wing, 1.0 - cfg.staleAfter))
    ensures Delivered(cfg, StateAt(cfg, runs, 1), runs[1], Stale(wing, 1.0 - cfg.staleAfter))
  {
    var written := 1.0 - cfg.staleAfter;
    var first := Run(Summary(0, 0, 1.0, map[wing := written]), false, _ => true, false);
    runs := [first, Run(Summary(0, 0, 1.0, map[]), false, _ => true, false)];
    assert Refreshed(FRESH.wings, first.summary.writes) == map[wing := Wing(written, 0.0)];
    assert StateAt(cfg, runs, 1) == After(cfg, FRESH, first);
    assert StateAt(cfg, runs, 1).wings == map[wing := Wing(written, 1.0)];
  }
}
