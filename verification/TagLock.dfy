/**
 Tag transitions on one stored row (panella/panella_adapter.py, `_tag_transition`): the store
 replaces all tags on a PUT and offers no compare-and-set, so writers GET, merge and PUT under a
 per-row lock. Calls run concurrently, any store reply may be lost or refused, and a PUT that timed
 out may land later: after its call has sent it again, has moved on, or has released the lock.
 */
module TagLock {
  import opened Basics

  datatype Status = Active | Candidate | Superseded | Tombstoned

  datatype Tag = StatusTag(status: Status) | Permanent | Plain(text: string)

  /** The tags of a row, and the two metadata fields that tag transitions write. */
  datatype Row = Row(tags: set<Tag>, status: Option<Status>, validTo: Option<int>)

  datatype Op = Tombstone | Supersede | EnsureTag(tag: Tag)

  const ACTIVE: Tag := StatusTag(Active)

  function Dropped(op: Op): set<Tag> {
    if op.EnsureTag? then {} else {ACTIVE}
  }

  function Added(op: Op): set<Tag> {
    match op
    case Tombstone => {StatusTag(Tombstoned)}
    case Supersede => {StatusTag(Superseded)}
    case EnsureTag(tag) => {tag}
  }

  function MergeTags(tags: set<Tag>, op: Op): set<Tag> {
    (tags - Dropped(op)) + Added(op)
  }

  /** What each transition makes of a row, tag by tag. */
  lemma TransitionLeaves(row: Row, op: Op, now: int)
    ensures var row' := ApplyOp(row, op, now);
            && (op.Tombstone? ==>
                  row' == Row((row.tags - {StatusTag(Active)}) + {StatusTag(Tombstoned)}, Some(Tombstoned),
                              row.validTo))
            && (op.Supersede? ==>
                  row' == Row((row.tags - {StatusTag(Active)}) + {StatusTag(Superseded)}, Some(Superseded),
                              Some(if row.validTo.Some? then row.validTo.value else now)))
            && (op.EnsureTag? ==> row' == row.(tags := row.tags + {op.tag}))
  {
  }

  /** What a PUT leaves: all tags replaced, metadata merged into the current row. */
  function PutResult(current: Row, snapshot: Row, op: Op, now: int): Row {
    Row(MergeTags(snapshot.tags, op),
        match op { case Tombstone => Some(Tombstoned) case Supersede => Some(Superseded) case _ => current.status },
        if op == Supersede then (if snapshot.validTo.Some? then snapshot.validTo else Some(now)) else current.validTo)
  }

  /** The operation on its own, with nobody else around. */
  function ApplyOp(row: Row, op: Op, now: int): Row {
    PutResult(row, row, op, now)
  }

  /** `_has_excluded_recall_status`: a deny tag wins even over stale metadata. */
  predicate Excluded(row: Row) {
    || (row.status.Some? && row.status.value != Active)
    || exists s | s in {Candidate, Superseded, Tombstoned} :: StatusTag(s) in row.tags
  }

  // ---------------------------------------------------------------- one call, holding the lock

  const MAX_ATTEMPTS: nat := 2

  /** One exchange with the store: the PUT is applied or not, and answered well, badly or not at all. */
  datatype Exchange = Exchange(getFails: bool, applied: bool, reply: Reply, verifyFails: bool)
  datatype Reply = Success | NoSuccess | NoReply

  datatype Answer = Verified | NotDone | Error

  /** The store answers no, and says so. */
  predicate Refused(x: Exchange) {
    !x.getFails && x.reply == NoSuccess
  }

  /** The store cannot be asked, or does not answer. */
  predicate Faulty(x: Exchange) {
    x.getFails || x.reply == NoReply || (x.reply == Success && x.verifyFails)
  }

  class StoredRow {
    var row: Option<Row>  // None: 404

    constructor (row: Option<Row>)
      ensures this.row == row
    {
      this.row := row;
    }

    /**
     `_tag_transition`. Whatever the exchanges do, the row ends untouched or as the operation
     leaves it; Verified means the tags are in the target state; NotDone or an error may hide
     a write that landed.
     */
    method TagTransition(op: Op, now: int, exchanges: seq<Exchange>) returns (answer: Answer)
      requires |exchanges| >= MAX_ATTEMPTS
      modifies this
      ensures row.Some? <==> old(row).Some?
      ensures row == old(row) || (old(row).Some? && row == Some(ApplyOp(old(row).value, op, now)))
      ensures answer == Verified ==> row.Some? && row.value.tags == MergeTags(old(row).value.tags, op)
      ensures old(row).None? ==> answer != Verified
      ensures old(row).Some? && !exchanges[0].getFails && exchanges[0].applied && exchanges[0].reply == Success
              && !exchanges[0].verifyFails
              ==> answer == Verified && row == Some(ApplyOp(old(row).value, op, now))
      ensures old(row).Some? && Refused(exchanges[0]) && !exchanges[1].getFails && exchanges[1].applied
              && exchanges[1].reply == Success && !exchanges[1].verifyFails
              ==> answer == Verified && row == Some(ApplyOp(old(row).value, op, now))
      ensures answer == Error ==> exists k | 0 <= k < MAX_ATTEMPTS :: Faulty(exchanges[k])
      ensures answer == NotDone && old(row).Some? ==>
                forall k | 0 <= k < MAX_ATTEMPTS ::
                  !Faulty(exchanges[k]) && !(exchanges[k].applied && exchanges[k].reply == Success)
    {
      for attempt := 0 to MAX_ATTEMPTS
        invariant row.Some? <==> old(row).Some?
        invariant row == old(row) || (old(row).Some? && row == Some(ApplyOp(old(row).value, op, now)))
        invariant attempt > 0 && old(row).Some? ==>
                    !(exchanges[0].applied && exchanges[0].reply == Success) || exchanges[0].getFails
        invariant forall k | 0 <= k < attempt ::
                    old(row).Some? ==>
                      !Faulty(exchanges[k]) && !(exchanges[k].applied && exchanges[k].reply == Success)
      {
        var x := exchanges[attempt];
        if x.getFails {
          return Error;
        }
        if row.None? {
          return NotDone;
        }
        ghost var current := row.value;
        ApplyingTwiceIsApplyingOnce(old(row).value, op, now);
        var snapshot := row.value;
        var kept := snapshot.tags - Dropped(op);
        if x.applied {
          row := Some(Row(kept + Added(op),
                          PutResult(row.value, snapshot, op, now).status,
                          PutResult(row.value, snapshot, op, now).validTo));
        }
        if x.reply == NoReply {
          return Error;
        }
        if x.reply == Success {
          if x.verifyFails {
            return Error;
          }
          var seen := row.value.tags;
          if Added(op) <= seen && Dropped(op) !! seen && kept <= seen {
            TargetState(snapshot, row.value, op, x.applied);
            return Verified;
          }
        }
      }
      answer := NotDone;
    }
  }

  /** Retrying is harmless: a transition applied to its own result changes nothing. */
  lemma ApplyingTwiceIsApplyingOnce(row: Row, op: Op, now: int)
    ensures ApplyOp(ApplyOp(row, op, now), op, now) == ApplyOp(row, op, now)
    ensures MergeTags(MergeTags(row.tags, op), op) == MergeTags(row.tags, op)
  {
  }

  lemma TargetState(snapshot: Row, seen: Row, op: Op, applied: bool)
    requires Added(op) <= seen.tags && Dropped(op) !! seen.tags && snapshot.tags - Dropped(op) <= seen.tags
    requires if applied then seen.tags == MergeTags(snapshot.tags, op) else seen == snapshot
    ensures seen.tags == MergeTags(snapshot.tags, op)
  {
  }

  // ---------------------------------------------------------------- many calls at once

  /** Where a call stands. The lock is held from `Reading` to the end of the attempt loop. */
  datatype Phase =
    | Waiting
    | Reading
    | Merged(snapshot: Row, at: int)
    | Verifying(kept: set<Tag>)
    | Finished(answer: Answer)

  /** A PUT that its call no longer waits for. It may still land, with what the call had merged. */
  datatype Flight = Flight(snapshot: Row, at: int)

  datatype Call = Call(op: Op, phase: Phase, attempt: nat, flying: multiset<Flight>)

  /** `log` is history: the PUTs that took effect, in order. */
  datatype State = State(row: Option<Row>, holder: Option<nat>, calls: map<nat, Call>, log: seq<Effect>)
  datatype Effect = Effect(call: nat, op: Op, at: int)

  datatype Step =
    | Begin(call: nat, op: Op)
    | Acquire(call: nat)
    | Timeout(call: nat)
    | Get(call: nat, at: int, fails: bool)
    | Resend(call: nat)
    | Put(call: nat, applied: bool, reply: Reply)
    | Verify(call: nat, fails: bool)
    | Die(call: nat)
    | Land(call: nat, flight: Flight)
    | Delete

  function Release(s: State, c: nat, answer: Answer): State
    requires c in s.calls
  {
    s.(holder := None, calls := s.calls[c := s.calls[c].(phase := Finished(answer))])
  }

  function Enter(s: State, c: nat, phase: Phase): State
    requires c in s.calls
  {
    s.(calls := s.calls[c := s.calls[c].(phase := phase)])
  }

  function Retry(s: State, c: nat): State
    requires c in s.calls
  {
    if s.calls[c].attempt + 1 >= MAX_ATTEMPTS then Release(s, c, NotDone)
    else s.(calls := s.calls[c := s.calls[c].(phase := Reading, attempt := s.calls[c].attempt + 1)])
  }

  function GetStep(s: State, c: nat, at: int, fails: bool): State {
    if c !in s.calls || s.calls[c].phase != Reading then s
    else if fails then Release(s, c, Error)
    else if s.row.None? then Release(s, c, NotDone)
    else Enter(s, c, Merged(s.row.value, at))
  }

  /** The PUT is under way, and its call stops waiting for it. */
  function Launch(s: State, c: nat): State
    requires c in s.calls && s.calls[c].phase.Merged?
  {
    var f := Flight(s.calls[c].phase.snapshot, s.calls[c].phase.at);
    s.(calls := s.calls[c := s.calls[c].(flying := s.calls[c].flying + multiset{f})])
  }

  /** There is a row for this PUT to land on. */
  predicate CanLand(s: State, c: nat, f: Flight) {
    c in s.calls && f in s.calls[c].flying && s.row.Some?
  }

  /** The row as the landing leaves it. */
  function LandedRow(s: State, c: nat, f: Flight): Row
    requires CanLand(s, c, f)
  {
    PutResult(s.row.value, f.snapshot, s.calls[c].op, f.at)
  }

  function LandStep(s: State, c: nat, f: Flight): State {
    if !CanLand(s, c, f) then s
    else s.(row := Some(LandedRow(s, c, f)), log := s.log + [Effect(c, s.calls[c].op, f.at)],
            calls := s.calls[c := s.calls[c].(flying := s.calls[c].flying - multiset{f})])
  }

  function PutStep(s: State, c: nat, applied: bool, reply: Reply): State {
    if c !in s.calls || !s.calls[c].phase.Merged? then s
    else if s.row.None? then Release(s, c, Error)
    else
      var (op, snapshot, at) := (s.calls[c].op, s.calls[c].phase.snapshot, s.calls[c].phase.at);
      var s1 := if applied
                then s.(row := Some(PutResult(s.row.value, snapshot, op, at)), log := s.log + [Effect(c, op, at)])
                else s;
      match reply
      case NoReply => Release(if applied then s1 else Launch(s1, c), c, Error)
      case NoSuccess => Retry(s1, c)
      case Success => Enter(s1, c, Verifying(snapshot.tags - Dropped(op)))
  }

  function VerifyStep(s: State, c: nat, fails: bool): State {
    if c !in s.calls || !s.calls[c].phase.Verifying? then s
    else if fails || s.row.None? then Release(s, c, Error)
    else
      var op, seen := s.calls[c].op, s.row.value.tags;
      if Added(op) <= seen && Dropped(op) !! seen && s.calls[c].phase.kept <= seen then Release(s, c, Verified)
      else Retry(s, c)
  }

  predicate Holding(phase: Phase) {
    phase.Reading? || phase.Merged? || phase.Verifying?
  }

  function Apply(s: State, step: Step): State {
    match step
    case Begin(c, op) => if c in s.calls then s else s.(calls := s.calls[c := Call(op, Waiting, 0, multiset{})])
    case Acquire(c) =>
      if c in s.calls && s.calls[c].phase == Waiting && s.holder.None?
      then Enter(s, c, Reading).(holder := Some(c)) else s
    case Timeout(c) => if c in s.calls && s.calls[c].phase == Waiting then Enter(s, c, Finished(Error)) else s
    case Get(c, at, fails) => GetStep(s, c, at, fails)
    case Resend(c) => if c in s.calls && s.calls[c].phase.Merged? then Launch(s, c) else s
    case Put(c, applied, reply) => PutStep(s, c, applied, reply)
    case Verify(c, fails) => VerifyStep(s, c, fails)
    case Die(c) =>
      if c !in s.calls then s
      else if s.calls[c].phase.Merged? then Release(Launch(s, c), c, Error)
      else if Holding(s.calls[c].phase) then Release(s, c, Error)
      else if s.calls[c].phase == Waiting then Enter(s, c, Finished(Error))
      else s
    case Land(c, f) => LandStep(s, c, f)
    case Delete => s.(row := None)
  }

  function Run(s: State, steps: seq<Step>): State
    decreases |steps|
  {
    if steps == [] then s else Apply(Run(s, steps[..|steps| - 1]), steps[|steps| - 1])
  }

  predicate Initial(s: State) {
    s.row.Some? && s.holder.None? && s.calls == map[] && s.log == []
  }

  lemma {:induction false} RunConcat(s: State, first: seq<Step>, second: seq<Step>)
    ensures Run(Run(s, first), second) == Run(s, first + second)
    decreases |second|
  {
    if second == [] {
      assert first + second == first;
    } else {
      RunConcat(s, first, second[..|second| - 1]);
      assert (first + second)[..|first + second| - 1] == first + second[..|second| - 1];
    }
  }

  // ---------------------------------------------------------------- what a PUT may be late for

  /** The `valid_to` that a supersede leaves. */
  function Ended(validTo: Option<int>, at: int): Option<int> {
    if validTo.Some? then validTo else Some(at)
  }

  /**
   A PUT merged from `snapshot` still does to `row` what its operation does: apart from the tags the
   operation itself drops or adds, both carry the same tags, and a supersede sets the same `valid_to`.
   */
  predicate Agrees(op: Op, snapshot: Row, row: Row, at: int) {
    && snapshot.tags - Dropped(op) - Added(op) == row.tags - Dropped(op) - Added(op)
    && (op == Supersede ==> Ended(snapshot.validTo, at) == Ended(row.validTo, at))
  }

  lemma AgreesIsApplying(op: Op, snapshot: Row, row: Row, at: int)
    ensures Agrees(op, snapshot, row, at) <==> PutResult(row, snapshot, op, at) == ApplyOp(row, op, at)
  {
    var put, own := PutResult(row, snapshot, op, at), ApplyOp(row, op, at);
    assert snapshot.tags - Dropped(op) - Added(op) == put.tags - Added(op);
    assert row.tags - Dropped(op) - Added(op) == own.tags - Added(op);
    assert put.tags == (put.tags - Added(op)) + Added(op) && own.tags == (own.tags - Added(op)) + Added(op);
  }

  /** It takes nothing off `row` but `status:active`: every tag there was in the snapshot, or is one it adds. */
  predicate Spares(op: Op, snapshot: Row, row: Row, at: int) {
    && row.tags - {ACTIVE} <= snapshot.tags + Added(op)
    && (op == Supersede && row.validTo.Some? ==> Ended(snapshot.validTo, at) == row.validTo)
  }

  /** Only `status:active` can ever be taken off, an exclusion stands, and valid_to is set once. */
  ghost predicate Kept(before: Row, after: Row) {
    && before.tags - {ACTIVE} <= after.tags
    && (before.validTo.Some? ==> after.validTo == before.validTo)
    && (Excluded(before) ==> Excluded(after))
  }

  lemma SparesIsKeeping(op: Op, snapshot: Row, row: Row, at: int)
    ensures Spares(op, snapshot, row, at) <==> Kept(row, PutResult(row, snapshot, op, at))
  {
    var put := PutResult(row, snapshot, op, at);
    if row.tags - {ACTIVE} <= put.tags && Excluded(row) {
      if s :| s in {Candidate, Superseded, Tombstoned} && StatusTag(s) in row.tags {
        assert StatusTag(s) in row.tags - {ACTIVE};
      }
    }
  }

  lemma AgreesSpares(op: Op, snapshot: Row, row: Row, at: int)
    requires Agrees(op, snapshot, row, at)
    ensures Spares(op, snapshot, row, at)
  {
    forall t | t in row.tags - {ACTIVE} ensures t in snapshot.tags + Added(op) {
      if t !in Added(op) {
        assert t in row.tags - Dropped(op) - Added(op);
      }
    }
  }

  /** Every call between its GET and its PUT would still do to `row` what its operation does. */
  ghost predicate AllAgree(s: State, row: Row) {
    forall c | c in s.calls && s.calls[c].phase.Merged? ::
      Agrees(s.calls[c].op, s.calls[c].phase.snapshot, row, s.calls[c].phase.at)
  }

  ghost predicate AllSpare(s: State, row: Row) {
    forall c | c in s.calls && s.calls[c].phase.Merged? ::
      Spares(s.calls[c].op, s.calls[c].phase.snapshot, row, s.calls[c].phase.at)
  }

  /**
   A late landing is harmless when it does what its operation does to the row it finds, and leaves a
   row to which the call that is about to PUT still does what its own operation does.
   */
  ghost predicate Harmless(s: State, step: Step) {
    step.Land? && CanLand(s, step.call, step.flight) ==>
      && Agrees(s.calls[step.call].op, step.flight.snapshot, s.row.value, step.flight.at)
      && AllAgree(s, LandedRow(s, step.call, step.flight))
  }

  /** It is lossless when neither it nor the PUT that is about to follow takes a tag off or moves `valid_to`. */
  ghost predicate Lossless(s: State, step: Step) {
    step.Land? && CanLand(s, step.call, step.flight) ==>
      && Spares(s.calls[step.call].op, step.flight.snapshot, s.row.value, step.flight.at)
      && AllSpare(s, LandedRow(s, step.call, step.flight))
  }

  lemma HarmlessIsLossless(s: State, step: Step)
    requires Harmless(s, step)
    ensures Lossless(s, step)
  {
    hide Agrees, Spares, LandedRow;
    if step.Land? && CanLand(s, step.call, step.flight) {
      AgreesSpares(s.calls[step.call].op, step.flight.snapshot, s.row.value, step.flight.at);
      var row := LandedRow(s, step.call, step.flight);
      forall c | c in s.calls && s.calls[c].phase.Merged?
        ensures Spares(s.calls[c].op, s.calls[c].phase.snapshot, row, s.calls[c].phase.at)
      {
        AgreesSpares(s.calls[c].op, s.calls[c].phase.snapshot, row, s.calls[c].phase.at);
      }
    }
  }

  ghost predicate HarmlessRun(s: State, steps: seq<Step>) {
    forall i | 0 <= i < |steps| :: Harmless(Run(s, steps[..i]), steps[i])
  }

  ghost predicate LosslessRun(s: State, steps: seq<Step>) {
    forall i | 0 <= i < |steps| :: Lossless(Run(s, steps[..i]), steps[i])
  }

  lemma HarmlessRunIsLossless(s: State, steps: seq<Step>)
    requires HarmlessRun(s, steps)
    ensures LosslessRun(s, steps)
  {
    hide Harmless, Lossless, Run;
    forall i | 0 <= i < |steps| ensures Lossless(Run(s, steps[..i]), steps[i]) {
      HarmlessIsLossless(Run(s, steps[..i]), steps[i]);
    }
  }

  lemma PrefixIsHarmless(s: State, steps: seq<Step>, n: nat)
    requires n <= |steps|
    ensures HarmlessRun(s, steps) ==> HarmlessRun(s, steps[..n])
    ensures LosslessRun(s, steps) ==> LosslessRun(s, steps[..n])
  {
    hide Harmless, Lossless, Run;
    forall i | 0 <= i < n
      ensures HarmlessRun(s, steps) ==> Harmless(Run(s, steps[..n][..i]), steps[..n][i])
      ensures LosslessRun(s, steps) ==> Lossless(Run(s, steps[..n][..i]), steps[..n][i])
    {
      assert steps[..n][..i] == steps[..i];
    }
  }

  // ---------------------------------------------------------------- nothing is lost

  ghost predicate CallOk(s: State, c: nat)
    requires c in s.calls
  {
    var call := s.calls[c];
    && (Holding(call.phase) ==> s.holder == Some(c))
    && (call.phase == Finished(Verified) && s.row.Some? ==> Added(call.op) - {ACTIVE} <= s.row.value.tags)
  }

  /** The lock is held by at most one call, and its PUT would take nothing off the row. */
  ghost predicate KeepInv(s: State) {
    && (forall c | c in s.calls :: CallOk(s, c))
    && (s.row.Some? ==> AllSpare(s, s.row.value))
  }

  lemma SparesItself(op: Op, row: Row, at: int)
    ensures Agrees(op, row, row, at) && Spares(op, row, row, at)
  {
  }

  /** A step that changes the row does so by the PUT of its call. */
  lemma RowMoves(s: State, step: Step)
    requires s.row.Some? && Apply(s, step).row.Some? && Apply(s, step).row != s.row
    ensures (step.Land? && CanLand(s, step.call, step.flight)
             && Apply(s, step).row.value == LandedRow(s, step.call, step.flight))
            || (step.Put? && step.call in s.calls && s.calls[step.call].phase.Merged?
                && var call := s.calls[step.call];
                   Apply(s, step).row.value == PutResult(s.row.value, call.phase.snapshot, call.op, call.phase.at))
  {
    hide PutResult;
  }

  lemma StepKeeps(s: State, step: Step)
    requires KeepInv(s) && Lossless(s, step) && s.row.Some? && Apply(s, step).row.Some?
    ensures Kept(s.row.value, Apply(s, step).row.value)
  {
    if Apply(s, step).row != s.row {
      RowMoves(s, step);
      hide Apply, Spares, Kept, PutResult;
      if step.Land? {
        SparesIsKeeping(s.calls[step.call].op, step.flight.snapshot, s.row.value, step.flight.at);
      } else {
        var call := s.calls[step.call];
        SparesIsKeeping(call.op, call.phase.snapshot, s.row.value, call.phase.at);
      }
    }
  }

  lemma CallStaysOk(s: State, step: Step, c: nat)
    requires KeepInv(s) && Lossless(s, step) && c in Apply(s, step).calls
    ensures CallOk(Apply(s, step), c)
  {
    LockStaysHeld(s, step, c);
    if Apply(s, step).calls[c].phase == Finished(Verified) && Apply(s, step).row.Some? {
      VerifiedMoves(s, step, c);
      assert c in s.calls ==> CallOk(s, c);
      StepKeeps(s, step);
      hide Apply, Lossless, Excluded;
    }
  }

  lemma LockStaysHeld(s: State, step: Step, c: nat)
    requires (forall d | d in s.calls :: CallOk(s, d)) && c in Apply(s, step).calls
    ensures Holding(Apply(s, step).calls[c].phase) ==> Apply(s, step).holder == Some(c)
  {
    assert c in s.calls ==> CallOk(s, c);
    assert (step.Put? || step.Get? || step.Verify? || step.Die?) && step.call in s.calls ==> CallOk(s, step.call);
    hide PutResult, Added, Dropped, LandedRow;
  }

  /** A call is verified only on seeing its tags. */
  lemma VerifiedMoves(s: State, step: Step, c: nat)
    requires c in Apply(s, step).calls && Apply(s, step).calls[c].phase == Finished(Verified)
    requires Apply(s, step).row.Some?
    ensures s.row.Some? && c in s.calls && s.calls[c].op == Apply(s, step).calls[c].op
    ensures s.calls[c].phase == Finished(Verified) || Added(s.calls[c].op) <= Apply(s, step).row.value.tags
  {
    hide PutResult, Added, Dropped;
  }

  /** Where a call that is about to PUT comes from: it has just read the row, or it was there before. */
  lemma MergedMoves(s: State, step: Step, c: nat)
    requires c in Apply(s, step).calls && Apply(s, step).calls[c].phase.Merged?
    ensures || (c in s.calls && s.calls[c].phase == Apply(s, step).calls[c].phase
                && s.calls[c].op == Apply(s, step).calls[c].op)
            || (Apply(s, step).row.Some? && Apply(s, step).row == s.row
                && Apply(s, step).calls[c].phase.snapshot == s.row.value)
    ensures step.Put? && step.call in s.calls && s.calls[step.call].phase.Merged? ==> c != step.call
  {
    hide PutResult;
  }

  /** While one call is about to PUT no other is, so only late landings come between. */
  lemma OnlyLandingsIntervene(s: State, step: Step, c: nat)
    requires (forall d | d in s.calls :: CallOk(s, d)) && s.row.Some? && Apply(s, step).row.Some?
    requires c in s.calls && s.calls[c].phase.Merged? && c in Apply(s, step).calls
    requires Apply(s, step).calls[c].phase.Merged?
    ensures Apply(s, step).row == s.row || (step.Land? && CanLand(s, step.call, step.flight)
                                            && Apply(s, step).row.value == LandedRow(s, step.call, step.flight))
  {
    assert CallOk(s, c) && (step.Put? && step.call in s.calls ==> CallOk(s, step.call));
    if Apply(s, step).row != s.row {
      RowMoves(s, step);
      MergedMoves(s, step, c);
      hide Apply, PutResult;
    }
  }

  lemma GoneStaysGone(s: State, step: Step)
    requires Apply(s, step).row.Some?
    ensures s.row.Some?
  {
  }

  lemma KeepStep(s: State, step: Step)
    requires KeepInv(s) && Lossless(s, step)
    ensures KeepInv(Apply(s, step))
  {
    var s' := Apply(s, step);
    hide Apply, CallOk, Spares, LandedRow;
    forall c | c in s'.calls ensures CallOk(s', c) {
      CallStaysOk(s, step, c);
    }
    if s'.row.Some? {
      GoneStaysGone(s, step);
      forall c | c in s'.calls && s'.calls[c].phase.Merged?
        ensures Spares(s'.calls[c].op, s'.calls[c].phase.snapshot, s'.row.value, s'.calls[c].phase.at)
      {
        MergedMoves(s, step, c);
        SparesItself(s'.calls[c].op, s'.row.value, s'.calls[c].phase.at);
        if c in s.calls && s.calls[c].phase == s'.calls[c].phase {
          OnlyLandingsIntervene(s, step, c);
        }
      }
    }
  }

  lemma KeptComposes(a: Row, b: Row, c: Row)
    requires Kept(a, b) && Kept(b, c)
    ensures Kept(a, c)
  {
  }

  /** From any state that keeps the invariant to any later one. */
  lemma {:induction false} RunKeepsFrom(s: State, steps: seq<Step>)
    requires KeepInv(s) && LosslessRun(s, steps)
    ensures KeepInv(Run(s, steps))
    ensures Run(s, steps).row.Some? ==> s.row.Some? && Kept(s.row.value, Run(s, steps).row.value)
    decreases |steps|
  {
    hide Apply, Excluded, KeepInv, Lossless, Kept;
    if steps == [] {
      NothingIsKept(s);
    } else {
      var n := |steps| - 1;
      PrefixIsHarmless(s, steps, n);
      RunKeepsFrom(s, steps[..n]);
      assert Lossless(Run(s, steps[..n]), steps[n]);
      KeepStep(Run(s, steps[..n]), steps[n]);
      if Run(s, steps).row.Some? {
        GoneStaysGone(Run(s, steps[..n]), steps[n]);
        StepKeeps(Run(s, steps[..n]), steps[n]);
        KeptComposes(s.row.value, Run(s, steps[..n]).row.value, Run(s, steps).row.value);
      }
    }
  }

  lemma NothingIsKept(s: State)
    ensures s.row.Some? ==> Kept(s.row.value, s.row.value)
  {
  }

  lemma KeepInvHolds(s: State, steps: seq<Step>)
    requires Initial(s) && LosslessRun(s, steps)
    ensures KeepInv(Run(s, steps))
  {
    assert KeepInv(s);
    hide KeepInv;
    RunKeepsFrom(s, steps);
  }

  /** From any state of any run with lossless landings to any later one. */
  lemma RunKeeps(s: State, steps: seq<Step>, n: nat)
    requires Initial(s) && LosslessRun(s, steps) && n <= |steps| && Run(s, steps).row.Some?
    ensures Run(s, steps[..n]).row.Some?
    ensures Kept(Run(s, steps[..n]).row.value, Run(s, steps).row.value)
  {
    hide *;
    PrefixIsHarmless(s, steps, n);
    KeepInvHolds(s, steps[..n]);
    SuffixIsLossless(s, steps, n);
    RunKeepsFrom(Run(s, steps[..n]), steps[n..]);
  }

  lemma SuffixIsLossless(s: State, steps: seq<Step>, n: nat)
    requires LosslessRun(s, steps) && n <= |steps|
    ensures LosslessRun(Run(s, steps[..n]), steps[n..]) && Run(Run(s, steps[..n]), steps[n..]) == Run(s, steps)
  {
    hide Lossless, Run;
    RunConcat(s, steps[..n], steps[n..]);
    assert steps[..n] + steps[n..] == steps;
    forall i | 0 <= i < |steps[n..]| ensures Lossless(Run(Run(s, steps[..n]), steps[n..][..i]), steps[n..][i]) {
      RunConcat(s, steps[..n], steps[n..][..i]);
      assert steps[..n] + steps[n..][..i] == steps[..n + i];
      assert Lossless(Run(s, steps[..n + i]), steps[n + i]);
    }
  }

  /** No delta is lost: what a verified call added is on the row in every later state. */
  lemma NoneLost(s: State, steps: seq<Step>, c: nat)
    requires Initial(s) && LosslessRun(s, steps) && c in Run(s, steps).calls && Run(s, steps).row.Some?
    requires Run(s, steps).calls[c].phase == Finished(Verified)
    ensures var (op, row) := (Run(s, steps).calls[c].op, Run(s, steps).row.value);
            && (op.Tombstone? ==> StatusTag(Tombstoned) in row.tags)
            && (op.Supersede? ==> StatusTag(Superseded) in row.tags)
            && (op.EnsureTag? && op.tag != StatusTag(Active) ==> op.tag in row.tags)
            && (!op.EnsureTag? ==> Excluded(row))
  {
    KeepInvHolds(s, steps);
    assert CallOk(Run(s, steps), c);
  }

  /** `permanent` survives every run with lossless landings. */
  lemma PermanentSurvives(s: State, steps: seq<Step>, n: nat)
    requires Initial(s) && LosslessRun(s, steps) && n <= |steps| && Run(s, steps).row.Some?
    requires Run(s, steps[..n]).row.Some? && Permanent in Run(s, steps[..n]).row.value.tags
    ensures Permanent in Run(s, steps).row.value.tags
  {
    RunKeeps(s, steps, n);
  }

  /** The landing, or a lossless continuation of it, takes something off the row. */
  ghost predicate Loses(before: Row, s: State) {
    s.row.Some? && (!Kept(before, s.row.value)
                    || exists more :: LosslessRun(s, more) && Run(s, more).row.Some?
                                      && !Kept(s.row.value, Run(s, more).row.value))
  }

  /** Exactly which late landing costs the row a tag or its `valid_to`, at once or later. */
  lemma LandingLosesIff(s: State, c: nat, f: Flight)
    requires KeepInv(s) && CanLand(s, c, f)
    ensures Loses(s.row.value, Apply(s, Land(c, f))) <==> !Lossless(s, Land(c, f))
  {
    var s' := Apply(s, Land(c, f));
    if Lossless(s, Land(c, f)) {
      KeepStep(s, Land(c, f));
      StepKeeps(s, Land(c, f));
      hide KeepInv, Kept, Lossless, Apply;
      forall more | LosslessRun(s', more) && Run(s', more).row.Some?
        ensures Kept(s'.row.value, Run(s', more).row.value)
      {
        RunKeepsFrom(s', more);
      }
    } else {
      SparesIsKeeping(s.calls[c].op, f.snapshot, s.row.value, f.at);
      hide Kept, Spares, PutResult;
      if !AllSpare(s, LandedRow(s, c, f)) {
        var d :| d in s.calls && s.calls[d].phase.Merged?
                 && !Spares(s.calls[d].op, s.calls[d].phase.snapshot, LandedRow(s, c, f), s.calls[d].phase.at);
        SparesIsKeeping(s.calls[d].op, s.calls[d].phase.snapshot, LandedRow(s, c, f), s.calls[d].phase.at);
        PutNext(s', d);
      }
    }
  }

  /** The PUT of a call that is about to make it. */
  lemma PutNext(s: State, d: nat)
    requires d in s.calls && s.calls[d].phase.Merged? && s.row.Some?
    ensures var put := [Put(d, true, Success)];
            var call := s.calls[d];
            && HarmlessRun(s, put) && LosslessRun(s, put)
            && Run(s, put).row == Some(PutResult(s.row.value, call.phase.snapshot, call.op, call.phase.at))
            && Run(s, put).log == s.log + [Effect(d, call.op, call.phase.at)]
  {
    var put := [Put(d, true, Success)];
    assert put[..0] == [] && Run(s, []) == s;
    assert Run(s, put) == Apply(Run(s, put[..0]), put[0]);
  }

  // ---------------------------------------------------------------- the lock linearizes

  /** The sequential composition of the logged operations. */
  function Compose(row: Row, log: seq<Effect>): Row
    decreases |log|
  {
    if log == [] then row
    else ApplyOp(Compose(row, log[..|log| - 1]), log[|log| - 1].op, log[|log| - 1].at)
  }

  lemma ComposeOne(row: Row, log: seq<Effect>, e: Effect)
    ensures Compose(row, log + [e]) == ApplyOp(Compose(row, log), e.op, e.at)
  {
    assert (log + [e])[..|log|] == log;
  }

  /** The row is the composition of what took effect, and the next PUT will do what its operation does. */
  ghost predicate Inv(origin: Row, s: State) {
    KeepInv(s) && (s.row.Some? ==> s.row.value == Compose(origin, s.log) && AllAgree(s, s.row.value))
  }

  /** A step that logs an effect changes the row by the PUT of that call. */
  lemma LogMoves(s: State, step: Step)
    requires s.row.Some? && Apply(s, step).row.Some?
    ensures || (Apply(s, step).log == s.log && Apply(s, step).row == s.row)
            || (step.Land? && CanLand(s, step.call, step.flight)
                && Apply(s, step).row.value == LandedRow(s, step.call, step.flight)
                && Apply(s, step).log == s.log + [Effect(step.call, s.calls[step.call].op, step.flight.at)])
            || (step.Put? && step.call in s.calls && s.calls[step.call].phase.Merged?
                && var call := s.calls[step.call];
                   Apply(s, step).row.value == PutResult(s.row.value, call.phase.snapshot, call.op, call.phase.at)
                   && Apply(s, step).log == s.log + [Effect(step.call, call.op, call.phase.at)])
  {
    hide PutResult;
  }

  lemma RowStaysComposed(origin: Row, s: State, step: Step)
    requires Inv(origin, s) && Harmless(s, step) && s.row.Some? && Apply(s, step).row.Some?
    ensures Apply(s, step).row.value == Compose(origin, Apply(s, step).log)
  {
    LogMoves(s, step);
    if Apply(s, step).log != s.log {
      var e := Apply(s, step).log[|s.log|];
      ComposeOne(origin, s.log, e);
      if step.Land? {
        AgreesIsApplying(e.op, step.flight.snapshot, s.row.value, e.at);
      } else {
        AgreesIsApplying(e.op, s.calls[step.call].phase.snapshot, s.row.value, e.at);
      }
      hide Apply, Agrees, PutResult, Compose, KeepInv;
    }
  }

  lemma InvStep(origin: Row, s: State, step: Step)
    requires Inv(origin, s) && Harmless(s, step)
    ensures Inv(origin, Apply(s, step))
  {
    var s' := Apply(s, step);
    HarmlessIsLossless(s, step);
    KeepStep(s, step);
    if s'.row.Some? {
      GoneStaysGone(s, step);
      RowStaysComposed(origin, s, step);
      hide Apply, CallOk, Agrees, LandedRow, Compose, Lossless, Spares;
      forall c | c in s'.calls && s'.calls[c].phase.Merged?
        ensures Agrees(s'.calls[c].op, s'.calls[c].phase.snapshot, s'.row.value, s'.calls[c].phase.at)
      {
        MergedMoves(s, step, c);
        SparesItself(s'.calls[c].op, s'.row.value, s'.calls[c].phase.at);
        if c in s.calls && s.calls[c].phase == s'.calls[c].phase {
          OnlyLandingsIntervene(s, step, c);
        }
      }
    }
  }

  lemma {:induction false} InvKept(origin: Row, s: State, steps: seq<Step>)
    requires Inv(origin, s) && HarmlessRun(s, steps)
    ensures Inv(origin, Run(s, steps))
    decreases |steps|
  {
    hide Apply, Inv, Harmless;
    if steps != [] {
      var n := |steps| - 1;
      PrefixIsHarmless(s, steps, n);
      InvKept(origin, s, steps[..n]);
      assert Harmless(Run(s, steps[..n]), steps[n]);
      InvStep(origin, Run(s, steps[..n]), steps[n]);
    }
  }

  /**
   Any interleaving of any calls, with any replies and harmless late landings: while the row exists it
   is the sequential composition of the operations whose PUT took effect, in that order.
   */
  lemma Linearizable(s: State, steps: seq<Step>)
    requires Initial(s) && HarmlessRun(s, steps) && Run(s, steps).row.Some?
    ensures Run(s, steps).row.value == Compose(s.row.value, Run(s, steps).log)
  {
    assert Inv(s.row.value, s);
    InvKept(s.row.value, s, steps);
  }

  /** Some harmless continuation leaves a row that is not the composition of what took effect. */
  ghost predicate Breaks(origin: Row, s: State) {
    exists more :: HarmlessRun(s, more) && Run(s, more).row.Some?
                   && Run(s, more).row.value != Compose(origin, Run(s, more).log)
  }

  /** Exactly which late landing breaks linearizability, at once or at the next PUT. */
  lemma LandingBreaksIff(origin: Row, s: State, c: nat, f: Flight)
    requires Inv(origin, s) && CanLand(s, c, f)
    ensures Breaks(origin, Apply(s, Land(c, f))) <==> !Harmless(s, Land(c, f))
  {
    var s' := Apply(s, Land(c, f));
    if Harmless(s, Land(c, f)) {
      InvStep(origin, s, Land(c, f));
      hide Inv, Harmless, Apply, Compose;
      forall more | HarmlessRun(s', more) && Run(s', more).row.Some?
        ensures Run(s', more).row.value == Compose(origin, Run(s', more).log)
      {
        InvKept(origin, s', more);
        InvIsComposed(origin, Run(s', more));
      }
    } else {
      HarmfulBreaks(origin, s, c, f);
    }
  }

  lemma InvIsComposed(origin: Row, s: State)
    requires Inv(origin, s) && s.row.Some?
    ensures s.row.value == Compose(origin, s.log)
  {
  }

  lemma HarmfulBreaks(origin: Row, s: State, c: nat, f: Flight)
    requires Inv(origin, s) && CanLand(s, c, f) && !Harmless(s, Land(c, f))
    ensures Breaks(origin, Apply(s, Land(c, f)))
  {
    var s' := Apply(s, Land(c, f));
    var e := Effect(c, s.calls[c].op, f.at);
    assert s'.row == Some(LandedRow(s, c, f)) && s'.log == s.log + [e];
    ComposeOne(origin, s.log, e);
    AgreesIsApplying(e.op, f.snapshot, s.row.value, f.at);
    hide Agrees, PutResult, Compose, KeepInv;
    assert HarmlessRun(s', []) && Run(s', []) == s';
    if Agrees(e.op, f.snapshot, s.row.value, f.at) {
      var d :| d in s.calls && s.calls[d].phase.Merged?
               && !Agrees(s.calls[d].op, s.calls[d].phase.snapshot, LandedRow(s, c, f), s.calls[d].phase.at);
      assert s'.calls[d].phase == s.calls[d].phase && s'.calls[d].op == s.calls[d].op;
      PutNext(s', d);
      ComposeOne(origin, s'.log, Effect(d, s.calls[d].op, s.calls[d].phase.at));
      AgreesIsApplying(s.calls[d].op, s.calls[d].phase.snapshot, s'.row.value, s.calls[d].phase.at);
    }
  }

  // ---------------------------------------------------------------- late landings that do harm

  const TAG_A: Tag := Plain("a")
  const TAG_B: Tag := Plain("b")

  /** The PUT that call 0 gives up on, merged from the bare row. */
  const STALE: Flight := Flight(Row({}, None, None), 0)

  /** One row without tags; call 0 adds "a" and gives up waiting for its PUT, call 1 adds "b". */
  function Bare(): State {
    State(Some(Row({}, None, None)), None, map[], [])
  }

  const GIVES_UP: seq<Step> :=
    [Begin(0, EnsureTag(TAG_A)), Acquire(0), Get(0, 0, false), Put(0, false, NoReply),
     Begin(1, EnsureTag(TAG_B)), Acquire(1), Get(1, 0, false)]

  lemma RunNext(s: State, steps: seq<Step>, n: nat)
    requires n < |steps|
    ensures Run(s, steps[..n + 1]) == Apply(Run(s, steps[..n]), steps[n])
  {
    assert steps[..n + 1][..n] == steps[..n];
  }

  /** Call 0 has a PUT in flight; call 1 holds the lock and has read the bare row. */
  function GivenUp(): State {
    State(Some(Row({}, None, None)), Some(1),
          map[0 := Call(EnsureTag(TAG_A), Finished(Error), 0, multiset{STALE}),
              1 := Call(EnsureTag(TAG_B), Merged(Row({}, None, None), 0), 0, multiset{})], [])
  }

  /** Call 0 has stopped waiting; nobody holds the lock. */
  function Abandoned(): State {
    State(Some(Row({}, None, None)), None,
          map[0 := Call(EnsureTag(TAG_A), Finished(Error), 0, multiset{STALE})], [])
  }

  lemma GivingUp()
    ensures Run(Bare(), GIVES_UP) == GivenUp()
  {
    FirstCall();
    RunNext(Bare(), GIVES_UP, 4);
    RunNext(Bare(), GIVES_UP, 5);
    RunNext(Bare(), GIVES_UP, 6);
    assert GIVES_UP[..7] == GIVES_UP;
    hide Run;
  }

  lemma FirstCall()
    ensures Run(Bare(), GIVES_UP[..4]) == Abandoned()
  {
    assert Run(Bare(), GIVES_UP[..0]) == Bare();
    RunNext(Bare(), GIVES_UP, 0);
    RunNext(Bare(), GIVES_UP, 1);
    RunNext(Bare(), GIVES_UP, 2);
    RunNext(Bare(), GIVES_UP, 3);
    var none: multiset<Flight> := multiset{};
    assert none + multiset{STALE} == multiset{STALE};
    hide Run;
  }

  function Tagged(tag: Tag): Row {
    Row({tag}, None, None)
  }

  lemma AddingOne(tag: Tag, current: Row)
    requires current.status.None? && current.validTo.None?
    ensures PutResult(current, Row({}, None, None), EnsureTag(tag), 0) == Tagged(tag)
  {
  }

  /** Call 1 writes and verifies its tag, and is told so. */
  lemma SecondWrites()
    ensures var s := Apply(Apply(GivenUp(), Put(1, true, Success)), Verify(1, false));
            && s.row == Some(Tagged(TAG_B)) && s.calls.Keys == {0, 1}
            && s.calls[0] == GivenUp().calls[0]
            && s.calls[1] == Call(EnsureTag(TAG_B), Finished(Verified), 0, multiset{})
  {
    AddingOne(TAG_B, GivenUp().row.value);
    hide PutResult;
    var s := Apply(GivenUp(), Put(1, true, Success));
    assert GivenUp().row.value.tags - Dropped(EnsureTag(TAG_B)) == {};
    assert s.row == Some(Tagged(TAG_B)) && s.calls[1] == Call(EnsureTag(TAG_B), Verifying({}), 0, multiset{});
  }

  lemma FirstLands(s: State)
    requires 0 in s.calls && s.calls[0] == GivenUp().calls[0]
    requires s.row.Some? && s.row.value.status.None? && s.row.value.validTo.None?
    ensures var s' := Apply(s, Land(0, STALE));
            && s'.row == Some(Tagged(TAG_A)) && s'.log == s.log + [Effect(0, EnsureTag(TAG_A), 0)]
            && s'.calls == s.calls[0 := s.calls[0].(flying := multiset{})]
  {
    AddingOne(TAG_A, s.row.value);
  }

  /** The lock is not enough: a PUT that lands after its call gave up takes a verified call's tag off. */
  lemma LateLandingLosesATag() returns (steps: seq<Step>)
    ensures Initial(Bare()) && HarmlessRun(Bare(), steps)
    ensures var s, s' := Run(Bare(), steps), Apply(Run(Bare(), steps), Land(0, STALE));
            && 1 in s'.calls && s'.calls[1] == Call(EnsureTag(TAG_B), Finished(Verified), 0, multiset{})
            && s.row.Some? && TAG_B in s.row.value.tags && s'.row.Some? && TAG_B !in s'.row.value.tags
            && forall c | c in s.calls :: !s.calls[c].phase.Merged?
  {
    GivingUp();
    hide Run, Apply;
    steps := GIVES_UP + [Put(1, true, Success), Verify(1, false)];
    assert steps[..7] == GIVES_UP && steps[..9] == steps;
    RunNext(Bare(), steps, 7);
    RunNext(Bare(), steps, 8);
    SecondWrites();
    FirstLands(Run(Bare(), steps));
  }

  /** Nor is landing on the row one has read: a call between its GET and its PUT then overwrites the landed tag. */
  lemma LandingInBetweenIsLost() returns (steps: seq<Step>)
    ensures Initial(Bare()) && HarmlessRun(Bare(), steps)
    ensures var s := Run(Bare(), steps);
            var s' := Apply(Apply(s, Land(0, STALE)), Put(1, true, Success));
            && CanLand(s, 0, STALE) && s.row.value == STALE.snapshot
            && s'.row.Some? && s'.row.value != Compose(Bare().row.value, s'.log) && TAG_A !in s'.row.value.tags
  {
    GivingUp();
    hide Run;
    steps := GIVES_UP;
    FirstLands(GivenUp());
    SecondOverwrites(Apply(GivenUp(), Land(0, STALE)));
    ComposedHasBoth();
  }

  lemma SecondOverwrites(s: State)
    requires 1 in s.calls && s.calls[1] == GivenUp().calls[1]
    requires s.row.Some? && s.row.value.status.None? && s.row.value.validTo.None?
    ensures var s' := Apply(s, Put(1, true, Success));
            s'.row == Some(Tagged(TAG_B)) && s'.log == s.log + [Effect(1, EnsureTag(TAG_B), 0)]
  {
    AddingOne(TAG_B, s.row.value);
  }

  lemma ComposedHasBoth()
    ensures TAG_A in Compose(Bare().row.value,
            [] + [Effect(0, EnsureTag(TAG_A), 0)] + [Effect(1, EnsureTag(TAG_B), 0)]).tags
  {
    var (first, second) := (Effect(0, EnsureTag(TAG_A), 0), Effect(1, EnsureTag(TAG_B), 0));
    var log := [] + [first] + [second];
    assert log[..1] == [first] && [first][..0] == [];
    assert TAG_A in Compose(Bare().row.value, [first]).tags;
  }

  // ---------------------------------------------------------------- the order does not matter

  function Ops(log: seq<Effect>): set<Op> {
    set i | 0 <= i < |log| :: log[i].op
  }

  function AllAdded(ops: set<Op>): set<Tag> {
    (if Tombstone in ops then {StatusTag(Tombstoned)} else {})
    + (if Supersede in ops then {StatusTag(Superseded)} else {})
    + (set op | op in ops && op.EnsureTag? :: op.tag)
  }

  /**
   Unless somebody re-asserts `status:active`, the final tags depend only on which operations
   took effect, not on their order or number.
   */
  lemma {:induction false} TagsDependOnlyOnTheSet(row: Row, log: seq<Effect>)
    requires EnsureTag(ACTIVE) !in Ops(log)
    ensures Compose(row, log).tags
            == (if Tombstone in Ops(log) || Supersede in Ops(log) then row.tags - {ACTIVE} else row.tags)
               + AllAdded(Ops(log))
    decreases |log|
  {
    if log != [] {
      var front, last := log[..|log| - 1], log[|log| - 1];
      assert Ops(log) == Ops(front) + {last.op} by {
        assert forall i | 0 <= i < |front| :: front[i] == log[i];
        forall op | op in Ops(log) ensures op in Ops(front) + {last.op} {
          var i :| 0 <= i < |log| && log[i].op == op;
          assert i < |front| ==> front[i].op == op;
        }
      }
      TagsDependOnlyOnTheSet(row, front);
      assert AllAdded(Ops(log)) == AllAdded(Ops(front)) + Added(last.op);
    }
  }
}
