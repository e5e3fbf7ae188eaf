/**
 Grid selection of the blocking sweep (eval/goldsets/resolver_blocking_diag.py): feasibility and
 choice by integer cross multiplication, proved against the rationals they stand for.
 */
module GridSelect {
  import opened Basics

  /** A measured rate; a zero denominator means nothing was measured. */
  datatype Rate = Rate(n: nat, d: nat)

  datatype Metrics = Metrics(recall: Rate, negative: Rate, migration: Rate, overflow: Rate, pollution: Rate)

  datatype Predicates = Predicates(negative: bool, migration: bool, overflow: bool, pollution: bool, zeroDelta: bool)

  datatype Name = NegativeOverlap | Migration | Overflow | Pollution | ZeroDelta

  /** One cell of the grid: k, theta = num / den, and what was measured there. */
  datatype Cell = Cell(k: int, num: int, den: int, recall: Rate, predicates: Predicates)

  datatype Entry = Reject(k: int, num: int, den: int, failure: Name) | Chose(k: int, num: int, den: int)

  /** What is returned: the chosen cell, if any, and the trace. */
  datatype Selection = Selection(chosen: Option<Cell>, trace: seq<Entry>)

  datatype BadTheta = BadTheta

  // ---------------------------------------------------------------- predicates

  function Quotient(r: Rate): real
    requires r.d > 0
  {
    r.n as real / r.d as real
  }

  predicate RateAtMost(v: Rate, base: Rate, allowNum: nat, allowDen: nat) {
    v.d > 0 && base.d > 0 && allowDen * v.n * base.d <= allowDen * base.n * v.d + allowNum * base.d * v.d
  }

  predicate OverflowOk(v: Rate, base: Rate) {
    v.d > 0 && v.n * base.d <= base.n * v.d
  }

  predicate PollutionOk(v: Rate) {
    v.d > 0 && 4 * v.n <= v.d
  }

  function Evaluate(m: Metrics, base: Metrics, zeroDelta: bool): Predicates {
    Predicates(RateAtMost(m.negative, base.negative, 1, 50), RateAtMost(m.migration, base.migration, 1, 50),
               OverflowOk(m.overflow, base.overflow), PollutionOk(m.pollution), zeroDelta)
  }

  /** The first failing predicate, in the frozen order. */
  function FirstFailure(p: Predicates): Option<Name> {
    if !p.negative then Some(NegativeOverlap)
    else if !p.migration then Some(Migration)
    else if !p.overflow then Some(Overflow)
    else if !p.pollution then Some(Pollution)
    else if !p.zeroDelta then Some(ZeroDelta)
    else None
  }

  lemma CrossMultiply(a: int, b: nat, c: int, d: nat)
    requires b > 0 && d > 0
    ensures a * d <= c * b <==> a as real / b as real <= c as real / d as real
    ensures a * d == c * b <==> a as real / b as real == c as real / d as real
  {
    var x, y := a as real / b as real, c as real / d as real;
    var rb, rd := b as real, d as real;
    assert x * rb == a as real && y * rd == c as real;
    Scale(x, y, rb * rd);
    assert x * (rb * rd) == (a as real) * rd == (a * d) as real by { Reassociate(x, rb, rd); }
    assert y * (rb * rd) == (c as real) * rb == (c * b) as real by { Reassociate(y, rd, rb); }
  }

  lemma Scale(x: real, y: real, s: real)
    requires s > 0.0
    ensures x <= y <==> x * s <= y * s
    ensures x == y <==> x * s == y * s
  {
    if x < y {
      assert (y - x) * s > 0.0;
    } else if x > y {
      assert (x - y) * s > 0.0;
    }
  }

  lemma Reassociate(x: real, a: real, b: real)
    ensures x * (a * b) == (x * a) * b && x * (b * a) == (x * a) * b
  {
  }

  /** The guarded integer comparison is the rational one: at most the baseline plus the allowance. */
  lemma RateAtMostIsRational(v: Rate, base: Rate, allowNum: nat, allowDen: nat)
    requires allowDen > 0
    ensures RateAtMost(v, base, allowNum, allowDen) <==>
            v.d > 0 && base.d > 0 && Quotient(v) <= Quotient(base) + allowNum as real / allowDen as real
  {
    if v.d > 0 && base.d > 0 {
      var sum := allowDen * base.n + allowNum * base.d;
      SumOfQuotients(base, allowNum, allowDen);
      Positive(allowDen, base.d);
      CrossMultiply(v.n, v.d, sum, allowDen * base.d);
      assert v.n * (allowDen * base.d) == allowDen * v.n * base.d by { Rearrange(v.n, allowDen, base.d); }
      assert sum * v.d == allowDen * base.n * v.d + allowNum * base.d * v.d by {
        Distribute(allowDen * base.n, allowNum * base.d, v.d);
      }
    }
  }

  lemma Positive(a: nat, b: nat)
    requires a > 0 && b > 0
    ensures a * b > 0
  {
  }

  lemma Rearrange(a: nat, b: nat, c: nat)
    ensures a * (b * c) == b * a * c
  {
  }

  lemma Distribute(a: nat, b: nat, c: nat)
    ensures (a + b) * c == a * c + b * c
  {
  }

  lemma SumOfQuotients(base: Rate, allowNum: nat, allowDen: nat)
    requires base.d > 0 && allowDen > 0
    ensures allowDen * base.d > 0
    ensures (allowDen * base.n + allowNum * base.d) as real / (allowDen * base.d) as real
            == Quotient(base) + allowNum as real / allowDen as real
  {
    Positive(allowDen, base.d);
    var q, a := Quotient(base), allowNum as real / allowDen as real;
    var rd, ra := base.d as real, allowDen as real;
    assert q * rd == base.n as real && a * ra == allowNum as real;
    assert (q + a) * (ra * rd) == ra * (q * rd) + (a * ra) * rd;
    assert (q + a) * (allowDen * base.d) as real == (allowDen * base.n + allowNum * base.d) as real;
    DivideBack(q + a, (allowDen * base.d) as real, (allowDen * base.n + allowNum * base.d) as real);
  }

  lemma DivideBack(x: real, y: real, z: real)
    requires y != 0.0 && x * y == z
    ensures z / y == x
  {
  }

  /**
   The overflow comparison has no guard on the baseline: it is the rational one exactly when
   the baseline measured something, and passes everything when it did not.
   */
  lemma OverflowIsRationalIffMeasured(v: Rate, base: Rate)
    ensures OverflowOk(v, base) <==> v.d > 0 && (base.d == 0 || Quotient(v) <= Quotient(base))
  {
    if v.d > 0 && base.d > 0 {
      CrossMultiply(v.n, v.d, base.n, base.d);
    }
  }

  lemma PollutionIsAQuarter(v: Rate)
    ensures PollutionOk(v) <==> v.d > 0 && Quotient(v) <= 0.25
  {
    if v.d > 0 {
      CrossMultiply(v.n, v.d, 1, 4);
    }
  }

  /** At most the baseline and two hundredths, as rationals; a rate that measured nothing fails. */
  predicate NearBaseline(v: Rate, base: Rate) {
    v.d > 0 && base.d > 0 && Quotient(v) <= Quotient(base) + 1.0 / 50.0
  }

  /** What makes a cell viable, in rationals: all five predicates, with the gap of the overflow baseline. */
  lemma ViableIsRational(m: Metrics, base: Metrics, zeroDelta: bool)
    ensures FirstFailure(Evaluate(m, base, zeroDelta)).None? <==>
              && NearBaseline(m.negative, base.negative) && NearBaseline(m.migration, base.migration)
              && m.overflow.d > 0 && (base.overflow.d == 0 || Quotient(m.overflow) <= Quotient(base.overflow))
              && m.pollution.d > 0 && Quotient(m.pollution) <= 0.25
              && zeroDelta
  {
    RateAtMostIsRational(m.negative, base.negative, 1, 50);
    RateAtMostIsRational(m.migration, base.migration, 1, 50);
    OverflowIsRationalIffMeasured(m.overflow, base.overflow);
    PollutionIsAQuarter(m.pollution);
    hide RateAtMost, OverflowOk, PollutionOk, Quotient;
  }

  /** Which failure is named: the first of the five that fails, in the frozen order, as rationals. */
  lemma FailureIsTheFirst(m: Metrics, base: Metrics, zeroDelta: bool)
    ensures var failure := FirstFailure(Evaluate(m, base, zeroDelta));
            var negative := NearBaseline(m.negative, base.negative);
            var migration := NearBaseline(m.migration, base.migration);
            var overflow := m.overflow.d > 0
                            && (base.overflow.d == 0 || Quotient(m.overflow) <= Quotient(base.overflow));
            var pollution := m.pollution.d > 0 && Quotient(m.pollution) <= 0.25;
            && (failure == Some(NegativeOverlap) <==> !negative)
            && (failure == Some(Migration) <==> negative && !migration)
            && (failure == Some(Overflow) <==> negative && migration && !overflow)
            && (failure == Some(Pollution) <==> negative && migration && overflow && !pollution)
            && (failure == Some(ZeroDelta) <==> negative && migration && overflow && pollution && !zeroDelta)
  {
    RateAtMostIsRational(m.negative, base.negative, 1, 50);
    RateAtMostIsRational(m.migration, base.migration, 1, 50);
    OverflowIsRationalIffMeasured(m.overflow, base.overflow);
    PollutionIsAQuarter(m.pollution);
    hide RateAtMost, OverflowOk, PollutionOk, Quotient;
  }

  // ---------------------------------------------------------------- the order on cells

  /** `better` and `tied`, by cross multiplication, with their zero-denominator branches. */
  predicate Better(l: Rate, r: Rate) {
    if l.d != 0 && r.d != 0 then l.n * r.d > r.n * l.d else l.d > r.d
  }

  predicate Tied(l: Rate, r: Rate) {
    if l.d != 0 && r.d != 0 then l.n * r.d == r.n * l.d else l.d == r.d
  }

  /** The rational value of a rate, with nothing measured below everything. */
  function Value(r: Rate): real {
    if r.d == 0 then -1.0 else Quotient(r)
  }

  lemma RecallIsRational(l: Rate, r: Rate)
    ensures Better(l, r) <==> Value(l) > Value(r)
    ensures Tied(l, r) <==> Value(l) == Value(r)
  {
    if l.d != 0 && r.d != 0 {
      CrossMultiply(l.n, l.d, r.n, r.d);
    }
  }

  predicate ThetaOk(c: Cell) {
    c.num > 0 && c.den > 0
  }

  function Theta(c: Cell): real
    requires ThetaOk(c)
  {
    c.num as real / c.den as real
  }

  predicate AllThetasOk(cells: seq<Cell>) {
    forall i | 0 <= i < |cells| :: ThetaOk(cells[i])
  }

  /** The update test of the loop. */
  predicate Beats(a: Cell, b: Cell)
    requires ThetaOk(a) && ThetaOk(b)
  {
    Better(a.recall, b.recall)
    || (Tied(a.recall, b.recall) && (a.k < b.k || (a.k == b.k && Theta(a) > Theta(b))))
  }

  /** Higher recall, then smaller k, then greater theta, as rationals. */
  predicate Above(a: Cell, b: Cell)
    requires ThetaOk(a) && ThetaOk(b)
  {
    Value(a.recall) > Value(b.recall)
    || (Value(a.recall) == Value(b.recall) && (a.k < b.k || (a.k == b.k && Theta(a) > Theta(b))))
  }

  lemma BeatsIsAbove(a: Cell, b: Cell)
    requires ThetaOk(a) && ThetaOk(b)
    ensures Beats(a, b) <==> Above(a, b)
  {
    RecallIsRational(a.recall, b.recall);
  }

  // ---------------------------------------------------------------- the selection

  /** The sort key (k, theta). */
  predicate KeyLess(a: Cell, b: Cell)
    requires ThetaOk(a) && ThetaOk(b)
  {
    a.k < b.k || (a.k == b.k && Theta(a) < Theta(b))
  }

  function Insert(c: Cell, cells: seq<Cell>): seq<Cell>
    requires ThetaOk(c) && AllThetasOk(cells)
  {
    if cells == [] || !KeyLess(cells[0], c) then [c] + cells else [cells[0]] + Insert(c, cells[1..])
  }

  /** The language's stable `sorted` by key. */
  function SortCells(cells: seq<Cell>): (sorted: seq<Cell>)
    requires AllThetasOk(cells)
    ensures AllThetasOk(sorted)
  {
    if cells == [] then []
    else
      InsertKeepsThetas(cells[0], SortCells(cells[1..]));
      Insert(cells[0], SortCells(cells[1..]))
  }

  lemma {:induction false} InsertKeepsThetas(c: Cell, cells: seq<Cell>)
    requires ThetaOk(c) && AllThetasOk(cells)
    ensures AllThetasOk(Insert(c, cells))
    ensures multiset(Insert(c, cells)) == multiset([c] + cells)
  {
    if cells != [] && KeyLess(cells[0], c) {
      InsertKeepsThetas(c, cells[1..]);
      assert cells == [cells[0]] + cells[1..];
    }
  }

  lemma {:induction false} SortPermutes(cells: seq<Cell>)
    requires AllThetasOk(cells)
    ensures multiset(SortCells(cells)) == multiset(cells)
  {
    if cells != [] {
      SortPermutes(cells[1..]);
      InsertKeepsThetas(cells[0], SortCells(cells[1..]));
      assert cells == [cells[0]] + cells[1..];
    }
  }

  lemma SameMembers(xs: seq<Cell>, ys: seq<Cell>)
    requires multiset(xs) == multiset(ys)
    ensures forall c :: c in xs <==> c in ys
  {
    forall c ensures c in xs <==> c in ys {
      assert c in multiset(xs) <==> c in multiset(ys);
    }
  }

  predicate Viable(c: Cell) {
    FirstFailure(c.predicates).None?
  }

  function ViableOf(cells: seq<Cell>): seq<Cell> {
    if cells == [] then []
    else ViableOf(cells[..|cells| - 1]) + if Viable(cells[|cells| - 1]) then [cells[|cells| - 1]] else []
  }

  function Rejections(cells: seq<Cell>): seq<Entry> {
    if cells == [] then []
    else
      var c := cells[|cells| - 1];
      Rejections(cells[..|cells| - 1])
      + if Viable(c) then [] else [Reject(c.k, c.num, c.den, FirstFailure(c.predicates).value)]
  }

  lemma {:induction false} ViableOfMembers(cells: seq<Cell>)
    ensures forall c :: c in ViableOf(cells) <==> c in cells && Viable(c)
  {
    if cells != [] {
      ViableOfMembers(cells[..|cells| - 1]);
      assert cells == cells[..|cells| - 1] + [cells[|cells| - 1]];
    }
  }

  /** No feasible cell lies above the chosen one. */
  ghost predicate Maximal(chosen: Cell, cells: seq<Cell>)
    requires AllThetasOk(cells)
  {
    chosen in cells && Viable(chosen)
    && forall i | 0 <= i < |cells| && Viable(cells[i]) && ThetaOk(chosen) :: !Above(cells[i], chosen)
  }

  /** Nothing exactly when nothing is feasible, else a maximal cell; the trace lists every rejection in key order. */
  ghost predicate Selects(cells: seq<Cell>, s: Selection)
    requires AllThetasOk(cells)
  {
    match s.chosen
    case None => (forall i | 0 <= i < |cells| :: !Viable(cells[i])) && s.trace == Rejections(SortCells(cells))
    case Some(c) => Maximal(c, cells) && s.trace == Rejections(SortCells(cells)) + [Chose(c.k, c.num, c.den)]
  }

  /**
   `select_grid`. Raises exactly on a theta that is not a positive pair; selects nothing exactly
   when no cell is feasible; otherwise selects a feasible cell that no feasible cell lies above.
   */
  method SelectGrid(cells: seq<Cell>) returns (r: Result<Selection, BadTheta>)
    ensures r.Err? ==> !AllThetasOk(cells)
    ensures r.Ok? ==> AllThetasOk(cells) && Selects(cells, r.value)
  {
    for i := 0 to |cells|
      invariant forall j | 0 <= j < i :: ThetaOk(cells[j])
    {
      if !ThetaOk(cells[i]) {
        return Err(BadTheta);
      }
    }
    var ordered := SortCells(cells);
    SortPermutes(cells);
    SameMembers(ordered, cells);
    var viable, trace := Sift(ordered);
    hide Viable, Above, SortCells, Rejections;
    assert forall c :: c in viable <==> c in cells && Viable(c);
    if viable == [] {
      return Ok(Selection(None, trace));
    }
    var chosen := Best(viable);
    r := Ok(Selection(Some(chosen), trace + [Chose(chosen.k, chosen.num, chosen.den)]));
  }

  /** The rejection loop. */
  method Sift(ordered: seq<Cell>) returns (viable: seq<Cell>, trace: seq<Entry>)
    ensures forall c :: c in viable <==> c in ordered && Viable(c)
    ensures trace == Rejections(ordered)
  {
    viable, trace := [], [];
    for i := 0 to |ordered|
      invariant viable == ViableOf(ordered[..i]) && trace == Rejections(ordered[..i])
    {
      assert ordered[..i + 1][..i] == ordered[..i];
      var failed := FirstFailure(ordered[i].predicates);
      if failed.None? {
        viable := viable + [ordered[i]];
      } else {
        trace := trace + [Reject(ordered[i].k, ordered[i].num, ordered[i].den, failed.value)];
      }
    }
    assert ordered[..|ordered|] == ordered;
    ViableOfMembers(ordered);
  }

  /** The choosing loop. */
  method Best(viable: seq<Cell>) returns (chosen: Cell)
    requires viable != [] && forall c | c in viable :: ThetaOk(c)
    ensures chosen in viable && ThetaOk(chosen)
    ensures forall c | c in viable :: !Above(c, chosen)
  {
    chosen := viable[0];
    for i := 1 to |viable|
      invariant chosen in viable
      invariant forall j | 0 <= j < i :: !Above(viable[j], chosen)
    {
      BeatsIsAbove(viable[i], chosen);
      if Beats(viable[i], chosen) {
        chosen := viable[i];
      }
    }
  }

  // ---------------------------------------------------------------- the order of the input does not matter

  lemma AboveIsAWeakOrder(a: Cell, b: Cell, c: Cell)
    requires ThetaOk(a) && ThetaOk(b) && ThetaOk(c)
    ensures !Above(a, a)
    ensures Above(a, b) && Above(b, c) ==> Above(a, c)
    ensures !Above(a, b) && !Above(b, c) ==> !Above(a, c)
    ensures !Above(a, b) && !Above(b, a) <==>
            Value(a.recall) == Value(b.recall) && a.k == b.k && Theta(a) == Theta(b)
  {
  }

  /** Whatever the input order, two maximal cells have the same recall, the same k and the same theta. */
  lemma SelectionIsUnique(cells: seq<Cell>, others: seq<Cell>, a: Cell, b: Cell)
    requires AllThetasOk(cells) && AllThetasOk(others) && multiset(cells) == multiset(others)
    requires Maximal(a, cells) && Maximal(b, others)
    ensures ThetaOk(a) && ThetaOk(b)
    ensures Value(a.recall) == Value(b.recall) && a.k == b.k && Theta(a) == Theta(b)
    ensures DistinctKeys(cells) ==> a == b
  {
    assert b in multiset(others) && b in cells && a in multiset(cells) && a in others;
    var i :| 0 <= i < |cells| && cells[i] == b;
    var i' :| 0 <= i' < |cells| && cells[i'] == a;
    var j :| 0 <= j < |others| && others[j] == a;
    assert !Above(cells[i], a) && !Above(others[j], b);
    AboveIsAWeakOrder(a, b, a);
  }

  /** No two entries share k and the rational theta. */
  ghost predicate DistinctKeys(cells: seq<Cell>)
    requires AllThetasOk(cells)
  {
    forall i, j | 0 <= i < j < |cells| :: cells[i].k != cells[j].k || Theta(cells[i]) != Theta(cells[j])
  }

  ghost predicate Ascending(cells: seq<Cell>)
    requires AllThetasOk(cells)
  {
    forall i, j | 0 <= i < j < |cells| :: !KeyLess(cells[j], cells[i])
  }

  lemma {:induction false} InsertAscends(c: Cell, cells: seq<Cell>)
    requires ThetaOk(c) && AllThetasOk(cells) && Ascending(cells)
    ensures AllThetasOk(Insert(c, cells)) && Ascending(Insert(c, cells))
  {
    InsertKeepsThetas(c, cells);
    if cells != [] && KeyLess(cells[0], c) {
      InsertAscends(c, cells[1..]);
      InsertKeepsThetas(c, cells[1..]);
      var rest := Insert(c, cells[1..]);
      forall j | 0 <= j < |rest| ensures !KeyLess(rest[j], cells[0]) {
        assert rest[j] in multiset(rest);
        assert rest[j] in multiset([c] + cells[1..]);
        assert rest[j] in [c] + cells[1..];
      }
    }
  }

  lemma {:induction false} SortAscends(cells: seq<Cell>)
    requires AllThetasOk(cells)
    ensures Ascending(SortCells(cells))
  {
    if cells != [] {
      SortAscends(cells[1..]);
      InsertAscends(cells[0], SortCells(cells[1..]));
    }
  }

  /** The trace goes through the cells by k and then by theta, and names each infeasible one with its failure. */
  lemma TraceIsInKeyOrder(cells: seq<Cell>)
    requires AllThetasOk(cells)
    ensures var sorted := SortCells(cells);
            && multiset(sorted) == multiset(cells)
            && (forall i, j | 0 <= i < j < |sorted| ::
                  sorted[i].k < sorted[j].k || (sorted[i].k == sorted[j].k && Theta(sorted[i]) <= Theta(sorted[j])))
            && |Rejections(sorted)| + |ViableOf(sorted)| == |cells|
            && forall e :: e in Rejections(sorted) <==>
                 exists c | c in cells && c.predicates != Predicates(true, true, true, true, true) ::
                   e == Reject(c.k, c.num, c.den, FirstFailure(c.predicates).value)
  {
    SortPermutes(cells);
    SortAscends(cells);
    SameMembers(SortCells(cells), cells);
    assert |multiset(SortCells(cells))| == |multiset(cells)|;
    RejectionsAre(SortCells(cells));
  }

  lemma {:induction false} RejectionsAre(cells: seq<Cell>)
    ensures |Rejections(cells)| + |ViableOf(cells)| == |cells|
    ensures forall e :: e in Rejections(cells) <==>
              exists c | c in cells && c.predicates != Predicates(true, true, true, true, true) ::
                e == Reject(c.k, c.num, c.den, FirstFailure(c.predicates).value)
  {
    if cells != [] {
      RejectionsAre(cells[..|cells| - 1]);
      assert cells == cells[..|cells| - 1] + [cells[|cells| - 1]];
    }
  }

  /** With distinct keys the whole outcome, trace included, is the same for every order of the input. */
  lemma TraceIsOrderIndependent(cells: seq<Cell>, others: seq<Cell>)
    requires AllThetasOk(cells) && AllThetasOk(others) && multiset(cells) == multiset(others) && DistinctKeys(cells)
    ensures SortCells(cells) == SortCells(others) && Rejections(SortCells(cells)) == Rejections(SortCells(others))
  {
    SortPermutes(cells);
    SortPermutes(others);
    SortAscends(cells);
    SortAscends(others);
    KeysOf(cells, SortCells(cells));
    AscendingIsUnique(SortCells(cells), SortCells(others));
  }

  /** Equal keys mean equal cells; a property of the members, whatever their order. */
  ghost predicate KeyDetermines(cells: seq<Cell>)
    requires AllThetasOk(cells)
  {
    forall a, b | a in multiset(cells) && b in multiset(cells) && ThetaOk(a) && ThetaOk(b) ::
      a.k == b.k && Theta(a) == Theta(b) ==> a == b
  }

  lemma KeysOf(cells: seq<Cell>, sorted: seq<Cell>)
    requires AllThetasOk(cells) && AllThetasOk(sorted) && multiset(cells) == multiset(sorted) && DistinctKeys(cells)
    ensures KeyDetermines(sorted)
  {
    forall a, b | a in multiset(sorted) && b in multiset(sorted) && ThetaOk(a) && ThetaOk(b)
      ensures a.k == b.k && Theta(a) == Theta(b) ==> a == b
    {
      assert a in multiset(cells) && b in multiset(cells);
      var i :| 0 <= i < |cells| && cells[i] == a;
      var j :| 0 <= j < |cells| && cells[j] == b;
    }
  }

  lemma {:induction false} AscendingIsUnique(xs: seq<Cell>, ys: seq<Cell>)
    requires AllThetasOk(xs) && AllThetasOk(ys) && multiset(xs) == multiset(ys)
    requires Ascending(xs) && Ascending(ys) && KeyDetermines(xs)
    ensures xs == ys
    decreases |xs|
  {
    if xs == [] {
      assert |multiset(ys)| == 0;
    } else {
      assert |multiset(ys)| == |multiset(xs)| > 0;
      HeadsAgree(xs, ys);
      TailsAgree(xs, ys);
      TailAscends(xs);
      TailAscends(ys);
      TailKeepsKeys(xs);
      AscendingIsUnique(xs[1..], ys[1..]);
    }
  }

  lemma HeadsAgree(xs: seq<Cell>, ys: seq<Cell>)
    requires AllThetasOk(xs) && AllThetasOk(ys) && multiset(xs) == multiset(ys) && xs != [] && ys != []
    requires Ascending(xs) && Ascending(ys) && KeyDetermines(xs)
    ensures xs[0] == ys[0]
  {
    assert xs[0] in multiset(ys) && ys[0] in multiset(xs);
    var i :| 0 <= i < |ys| && ys[i] == xs[0];
    var j :| 0 <= j < |xs| && xs[j] == ys[0];
    assert i == 0 || !KeyLess(ys[i], ys[0]);
    assert j == 0 || !KeyLess(xs[j], xs[0]);
  }

  lemma TailsAgree(xs: seq<Cell>, ys: seq<Cell>)
    requires multiset(xs) == multiset(ys) && xs != [] && ys != [] && xs[0] == ys[0]
    ensures multiset(xs[1..]) == multiset(ys[1..])
  {
    assert xs == [xs[0]] + xs[1..] && ys == [ys[0]] + ys[1..];
    assert multiset(xs[1..]) == multiset(xs) - multiset{xs[0]};
  }

  lemma TailAscends(xs: seq<Cell>)
    requires AllThetasOk(xs) && xs != [] && Ascending(xs)
    ensures AllThetasOk(xs[1..]) && Ascending(xs[1..])
  {
    hide KeyLess;
  }

  lemma TailKeepsKeys(xs: seq<Cell>)
    requires AllThetasOk(xs) && xs != [] && AllThetasOk(xs[1..]) && KeyDetermines(xs)
    ensures KeyDetermines(xs[1..])
  {
    hide Theta, AllThetasOk, ThetaOk;
    assert xs == [xs[0]] + xs[1..];
    forall a | a in multiset(xs[1..]) ensures a in multiset(xs) { }
  }
}
