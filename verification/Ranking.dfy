/**
 The reader++ order and the stratified rerank (panella/reader.py). Rows are their retrieval
 indices; scores and epochs are exact (`real`), so float rounding is not part of this model.
 */
module Ranking {
  import opened Basics
  import opened Cluster

  // ---------------------------------------------------------------- sorting by a total order

  type Order = (nat, nat) -> bool

  ghost predicate StrictTotal(less: Order) {
    && (forall x :: !less(x, x))
    && (forall x, y :: x != y ==> less(x, y) || less(y, x))
    && (forall x, y, z :: less(x, y) && less(y, z) ==> less(x, z))
  }

  ghost predicate SortedBy(xs: seq<nat>, less: Order) {
    forall a, b | 0 <= a < b < |xs| :: less(xs[a], xs[b])
  }

  ghost predicate Distinct(xs: seq<nat>) {
    forall a, b | 0 <= a < b < |xs| :: xs[a] != xs[b]
  }

  ghost predicate SameMembers(xs: seq<nat>, ys: seq<nat>) {
    |xs| == |ys| && forall x :: x in xs <==> x in ys
  }

  /** Every index below `n`, once. */
  ghost predicate Permutation(xs: seq<nat>, n: nat) {
    |xs| == n && Distinct(xs) && forall x: nat :: x in xs <==> x < n
  }

  function Insert(x: nat, xs: seq<nat>, less: Order): seq<nat> {
    if xs == [] then [x] else if less(x, xs[0]) then [x] + xs else [xs[0]] + Insert(x, xs[1..], less)
  }

  /** The language's `sorted`, for keys without ties. */
  function SortBy(xs: seq<nat>, less: Order): seq<nat> {
    if xs == [] then [] else Insert(xs[0], SortBy(xs[1..], less), less)
  }

  function Range(n: nat): seq<nat> {
    seq(n, i => i)
  }

  lemma {:induction false} InsertSorts(x: nat, xs: seq<nat>, less: Order)
    requires StrictTotal(less) && SortedBy(xs, less) && x !in xs
    ensures SortedBy(Insert(x, xs, less), less) && SameMembers(Insert(x, xs, less), [x] + xs)
  {
    if xs != [] {
      if less(x, xs[0]) {
        forall a, b | 0 <= a < b < |xs| + 1 ensures less(([x] + xs)[a], ([x] + xs)[b]) {
          if a == 0 && b > 1 {
            assert less(xs[0], xs[b - 1]);
          }
        }
      } else {
        assert xs[0] in xs;
        InsertSorts(x, xs[1..], less);
        var rest := Insert(x, xs[1..], less);
        forall b | 0 <= b < |rest| ensures less(xs[0], rest[b]) {
          assert rest[b] in [x] + xs[1..];
        }
        assert xs == [xs[0]] + xs[1..];
      }
    }
  }

  lemma {:induction false} SortBySorts(xs: seq<nat>, less: Order)
    requires StrictTotal(less) && Distinct(xs)
    ensures SortedBy(SortBy(xs, less), less) && SameMembers(SortBy(xs, less), xs)
  {
    if xs != [] {
      SortBySorts(xs[1..], less);
      InsertSorts(xs[0], SortBy(xs[1..], less), less);
      assert xs == [xs[0]] + xs[1..];
    }
  }

  lemma SortedIsDistinct(xs: seq<nat>, less: Order)
    requires StrictTotal(less) && SortedBy(xs, less)
    ensures Distinct(xs)
  {
    forall a, b | 0 <= a < b < |xs| ensures xs[a] != xs[b] {
      assert less(xs[a], xs[b]);
    }
  }

  /** What sorts before an element of a sorted sequence is exactly what stands in front of it. */
  lemma InFrontOf(xs: seq<nat>, less: Order, p: nat)
    requires StrictTotal(less) && SortedBy(xs, less) && p < |xs|
    ensures forall x :: x in xs[..p] <==> x in xs && less(x, xs[p])
  {
    forall x | x in xs && less(x, xs[p]) ensures x in xs[..p] {
      var a :| 0 <= a < |xs| && xs[a] == x;
      assert x == xs[..p][a];
    }
  }

  lemma {:induction false} DistinctCount(xs: seq<nat>, members: set<nat>)
    requires Distinct(xs) && forall x :: x in xs <==> x in members
    ensures |members| == |xs|
  {
    if xs == [] {
      assert members == {};
    } else {
      var last := xs[|xs| - 1];
      var front := xs[..|xs| - 1];
      forall x ensures x in front <==> x in members - {last} {
        if x in members - {last} {
          assert x in xs;
        }
      }
      DistinctCount(front, members - {last});
    }
  }

  // ---------------------------------------------------------------- recency

  /** None is an undated row. */
  type Epochs = seq<Option<real>>

  predicate Dated(epochs: Epochs, i: nat) {
    i < |epochs| && epochs[i].Some?
  }

  function EpochOf(epochs: Epochs, i: nat): real {
    if Dated(epochs, i) then epochs[i].value else 0.0
  }

  /** Dated rows before undated ones, then the newer epoch, then the lower index. */
  predicate NewerThan(epochs: Epochs, i: nat, j: nat) {
    if Dated(epochs, i) != Dated(epochs, j) then Dated(epochs, i)
    else EpochOf(epochs, i) > EpochOf(epochs, j) || (EpochOf(epochs, i) == EpochOf(epochs, j) && i < j)
  }

  /** The recency rank of a row: how many rows are newer. */
  function RecencyRank(epochs: Epochs, i: nat): nat {
    |set j: nat | j < |epochs| && NewerThan(epochs, j, i)|
  }

  /** Dated rows stand before undated ones, later dates before earlier ones, and ties keep the retrieval order. */
  lemma RecencyRankIff(epochs: Epochs, i: nat, j: nat)
    requires i < |epochs| && j < |epochs|
    ensures RecencyRank(epochs, i) < RecencyRank(epochs, j) <==>
              || (epochs[i].Some? && epochs[j].None?)
              || (epochs[i].None? && epochs[j].None? && i < j)
              || (epochs[i].Some? && epochs[j].Some?
                  && (epochs[i].value > epochs[j].value || (epochs[i].value == epochs[j].value && i < j)))
  {
    RecencyIsTotal(epochs);
    if i != j {
      if NewerThan(epochs, i, j) {
        NewerRanksFirst(epochs, i, j);
      } else {
        NewerRanksFirst(epochs, j, i);
      }
    }
  }

  lemma NewerRanksFirst(epochs: Epochs, i: nat, j: nat)
    requires i < |epochs| && j < |epochs| && NewerThan(epochs, i, j)
    ensures RecencyRank(epochs, i) < RecencyRank(epochs, j)
  {
    var before := set x: nat | x < |epochs| && NewerThan(epochs, x, i);
    var after := set x: nat | x < |epochs| && NewerThan(epochs, x, j);
    assert before + {i} <= after;
    assert after == (before + {i}) + (after - (before + {i}));
    assert i !in before;
  }

  function ByRecency(epochs: Epochs): Order {
    (i: nat, j: nat) => NewerThan(epochs, i, j)
  }

  lemma RecencyIsTotal(epochs: Epochs)
    ensures StrictTotal(ByRecency(epochs))
  {
  }

  // ---------------------------------------------------------------- supersede within a cluster

  /** The cluster of `i` holds a newer dated row (on equal dates, one of lower index). */
  ghost predicate Outdated(epochs: Epochs, pairs: Edges, i: nat) {
    && Dated(epochs, i)
    && exists j: nat :: Dated(epochs, j) && Connected(pairs, i, j) && NewerThan(epochs, j, i)
  }

  /** The newest dated row of a group, if it has one. */
  method Newest(epochs: Epochs, group: seq<nat>) returns (newest: Option<nat>, dated: set<nat>)
    ensures dated == set i | i in group && Dated(epochs, i)
    ensures newest.None? <==> dated == {}
    ensures newest.Some? ==> newest.value in dated
                             && forall i | i in dated && i != newest.value :: NewerThan(epochs, newest.value, i)
  {
    newest, dated := None, {};
    for a := 0 to |group|
      invariant dated == set i | i in group[..a] && Dated(epochs, i)
      invariant newest.None? <==> dated == {}
      invariant newest.Some? ==> newest.value in dated
                                 && forall i | i in dated && i != newest.value :: NewerThan(epochs, newest.value, i)
    {
      var i := group[a];
      assert group[..a + 1] == group[..a] + [i];
      if Dated(epochs, i) {
        RecencyIsTotal(epochs);
        if newest.None? || NewerThan(epochs, i, newest.value) {
          newest := Some(i);
        }
        dated := dated + {i};
      }
    }
    assert group[..|group|] == group;
  }

  /** The demoted rows: in each cluster with two or more dated rows, all dated rows but the newest. */
  method Supersede(epochs: Epochs, sim: (nat, nat) -> real, tau: real) returns (demoted: set<nat>)
    ensures forall i: nat :: i in demoted <==> Outdated(epochs, SimilarPairs(|epochs|, sim, tau), i)
  {
    var groups := Groups(|epochs|, sim, tau);
    ghost var pairs := SimilarPairs(|epochs|, sim, tau);
    hide Partition, Connected, SimilarPairs;
    demoted := {};
    for g := 0 to |groups|
      invariant forall i: nat :: i in demoted <==> exists h | 0 <= h < g :: OutdatedIn(epochs, groups[h], i)
    {
      var newest, dated := Newest(epochs, groups[g]);
      ghost var before := demoted;
      if |dated| >= 2 {
        demoted := demoted + (dated - {newest.value});
      }
      AllButTheNewest(epochs, groups[g], newest, dated);
      assert forall i: nat :: i in demoted <==> i in before || OutdatedIn(epochs, groups[g], i);
    }
    forall i: nat ensures i in demoted <==> Outdated(epochs, pairs, i) {
      OutdatedInItsGroup(epochs, groups, pairs, i);
    }
  }

  ghost predicate OutdatedIn(epochs: Epochs, group: seq<nat>, i: nat) {
    i in group && Dated(epochs, i) && exists j | j in group :: Dated(epochs, j) && NewerThan(epochs, j, i)
  }

  lemma AllButTheNewest(epochs: Epochs, group: seq<nat>, newest: Option<nat>, dated: set<nat>)
    requires dated == set i | i in group && Dated(epochs, i)
    requires newest.None? <==> dated == {}
    requires newest.Some? ==> newest.value in dated
                              && forall i | i in dated && i != newest.value :: NewerThan(epochs, newest.value, i)
    ensures forall i: nat :: OutdatedIn(epochs, group, i) <==> |dated| >= 2 && i in dated && Some(i) != newest
  {
    RecencyIsTotal(epochs);
    if newest.Some? {
      assert newest.value in group;
      forall i: nat ensures OutdatedIn(epochs, group, i) <==> i in dated && i != newest.value {
        if OutdatedIn(epochs, group, i) {
          var j :| j in group && Dated(epochs, j) && NewerThan(epochs, j, i);
          assert j in dated;
        }
      }
      assert |dated - {newest.value}| == |dated| - 1;
      if |dated| < 2 {
        assert dated - {newest.value} == {};
      }
    }
  }

  lemma OutdatedInItsGroup(epochs: Epochs, groups: seq<seq<nat>>, pairs: Edges, i: nat)
    requires Partition(groups, |epochs|)
    requires forall x: nat, y: nat | x < |epochs| && y < |epochs| :: Together(groups, x, y) <==> Connected(pairs, x, y)
    ensures Outdated(epochs, pairs, i) <==> exists h | 0 <= h < |groups| :: OutdatedIn(epochs, groups[h], i)
  {
    hide Partition, Connected;
    if Outdated(epochs, pairs, i) {
      var j: nat :| Dated(epochs, j) && Connected(pairs, i, j) && NewerThan(epochs, j, i);
      assert Together(groups, i, j);
    }
    if h :| 0 <= h < |groups| && OutdatedIn(epochs, groups[h], i) {
      var j :| j in groups[h] && Dated(epochs, j) && NewerThan(epochs, j, i);
      assert Together(groups, i, j);
    }
  }

  lemma NewerDated(epochs: Epochs, i: nat, j: nat)
    requires NewerThan(epochs, i, j) && Dated(epochs, i) && Dated(epochs, j)
    ensures epochs[i].value > epochs[j].value || (epochs[i].value == epochs[j].value && i < j)
  {
  }

  /** Each cluster keeps exactly one live dated row, the latest and of these the first; undated rows stay live. */
  lemma OneLiveDatedRow(epochs: Epochs, pairs: Edges, i: nat)
    requires Dated(epochs, i)
    ensures exists live: nat ::
              && Connected(pairs, i, live) && Dated(epochs, live) && !Outdated(epochs, pairs, live)
              && forall j: nat | Connected(pairs, i, j) && Dated(epochs, j) && j != live ::
                   && Outdated(epochs, pairs, j)
                   && (epochs[live].value > epochs[j].value || (epochs[live].value == epochs[j].value && live < j))
  {
    var cluster := set j: nat | j < |epochs| && Connected(pairs, i, j) && Dated(epochs, j);
    Reflexive(pairs, i);
    assert i in cluster;
    var live := NewestOf(epochs, cluster);
    hide Connected, NewerThan;
    forall j: nat | Connected(pairs, i, j) && Dated(epochs, j) && j != live
      ensures Outdated(epochs, pairs, j)
      ensures epochs[live].value > epochs[j].value || (epochs[live].value == epochs[j].value && live < j)
    {
      assert j in cluster;
      NewerDated(epochs, live, j);
      Symmetric(pairs, i, j);
      Transitive(pairs, j, i, live);
    }
    if Outdated(epochs, pairs, live) {
      var j: nat :| Dated(epochs, j) && Connected(pairs, live, j) && NewerThan(epochs, j, live);
      Transitive(pairs, i, live, j);
    }
  }

  lemma {:induction false} NewestOf(epochs: Epochs, cluster: set<nat>) returns (live: nat)
    requires cluster != {}
    ensures live in cluster && forall j | j in cluster && j != live :: NewerThan(epochs, live, j)
    decreases |cluster|
  {
    live :| live in cluster;
    if cluster != {live} {
      var rest := cluster - {live};
      assert cluster == rest + {live};
      var other := NewestOf(epochs, rest);
      var first := live;
      if NewerThan(epochs, other, live) {
        live := other;
      }
      forall j | j in cluster && j != live ensures NewerThan(epochs, live, j) {
        assert j == first || j in rest;
      }
    }
  }

  // ---------------------------------------------------------------- the reader++ order

  /** How far down the recency order each row stands. */
  type Ranks = map<nat, nat>

  function RankIn(ranks: Ranks, i: nat): nat {
    if i in ranks then ranks[i] else 0
  }

  /** Reciprocal-rank fusion of the retrieval order and the recency order. */
  function Rrf(ranks: Ranks, k: nat, i: nat): real {
    1.0 / (k + i + 1) as real + 1.0 / (k + RankIn(ranks, i) + 1) as real
  }

  /** Live before demoted, then the higher fused rank, then the retrieval order. */
  predicate Preferred(ranks: Ranks, k: nat, demoted: set<nat>, i: nat, j: nat) {
    if (i in demoted) != (j in demoted) then i !in demoted
    else Rrf(ranks, k, i) > Rrf(ranks, k, j) || (Rrf(ranks, k, i) == Rrf(ranks, k, j) && i < j)
  }

  function ByPreference(ranks: Ranks, k: nat, demoted: set<nat>): Order {
    (i: nat, j: nat) => Preferred(ranks, k, demoted, i, j)
  }

  lemma PreferenceIsTotal(ranks: Ranks, k: nat, demoted: set<nat>)
    ensures StrictTotal(ByPreference(ranks, k, demoted))
  {
    hide Rrf;
  }

  lemma RangeIsDistinct(n: nat)
    ensures Permutation(Range(n), n)
  {
    forall x: nat ensures x in Range(n) <==> x < n {
      if x < n {
        assert Range(n)[x] == x;
      }
    }
  }

  lemma SortedRange(n: nat, less: Order)
    requires StrictTotal(less)
    ensures Permutation(SortBy(Range(n), less), n) && SortedBy(SortBy(Range(n), less), less)
  {
    RangeIsDistinct(n);
    SortBySorts(Range(n), less);
    SortedIsDistinct(SortBy(Range(n), less), less);
  }

  lemma PositionIsRank(epochs: Epochs, byRecency: seq<nat>, p: nat)
    requires Permutation(byRecency, |epochs|) && p < |byRecency|
    requires SortedBy(byRecency, ByRecency(epochs))
    ensures RecencyRank(epochs, byRecency[p]) == p
  {
    RecencyIsTotal(epochs);
    InFrontOf(byRecency, ByRecency(epochs), p);
    DistinctCount(byRecency[..p], set j: nat | j < |epochs| && NewerThan(epochs, j, byRecency[p]));
  }

  function RecencyRanks(epochs: Epochs): Ranks {
    map i: nat | i < |epochs| :: RecencyRank(epochs, i)
  }

  ghost function OutdatedRows(epochs: Epochs, sim: (nat, nat) -> real, tau: real): set<nat> {
    set i: nat | i < |epochs| && Outdated(epochs, SimilarPairs(|epochs|, sim, tau), i)
  }

  /** The reader++ order of all rows. */
  ghost function ReaderOrder(epochs: Epochs, sim: (nat, nat) -> real, tau: real, k: nat): seq<nat> {
    SortBy(Range(|epochs|), ByPreference(RecencyRanks(epochs), k, OutdatedRows(epochs, sim, tau)))
  }

  /** `_readerpp_order`. */
  method ReaderppOrder(epochs: Epochs, sim: (nat, nat) -> real, tau: real, k: nat)
    returns (order: seq<nat>, demoted: set<nat>)
    ensures order == ReaderOrder(epochs, sim, tau, k)
    ensures demoted == OutdatedRows(epochs, sim, tau)
  {
    var n := |epochs|;
    var byRecency := SortBy(Range(n), ByRecency(epochs));
    RecencyIsTotal(epochs);
    SortedRange(n, ByRecency(epochs));
    var ranks: Ranks := map[];
    for r := 0 to n
      invariant forall i: nat :: i in ranks <==> i in byRecency[..r]
      invariant forall i | i in ranks :: ranks[i] == RecencyRank(epochs, i)
    {
      hide StrictTotal, SortedBy, Permutation, RecencyRank;
      PositionIsRank(epochs, byRecency, r);
      assert byRecency[..r + 1] == byRecency[..r] + [byRecency[r]];
      ranks := ranks[byRecency[r] := r];
    }
    assert byRecency[..n] == byRecency;
    assert ranks == RecencyRanks(epochs);
    demoted := Supersede(epochs, sim, tau);
    assert demoted == OutdatedRows(epochs, sim, tau);
    order := SortBy(Range(n), ByPreference(ranks, k, demoted));
  }

  /**
   The fusion in whole numbers. With a and b the places of a row in the retrieval order and in the
   recency order, counted from k + 1, row i precedes row j of its stratum exactly when
   1/a + 1/b is greater for i, or equal and i was retrieved first.
   */
  lemma FusionIff(ranks: Ranks, k: nat, demoted: set<nat>, i: nat, j: nat)
    requires i in demoted <==> j in demoted
    ensures var (a, b) := ((k + i + 1) as real, (k + RankIn(ranks, i) + 1) as real);
            var (c, d) := ((k + j + 1) as real, (k + RankIn(ranks, j) + 1) as real);
            Preferred(ranks, k, demoted, i, j) <==>
              Greater(a, b, c, d) || (!Greater(a, b, c, d) && !Greater(c, d, a, b) && i < j)
  {
    CompareSums((k + i + 1) as real, (k + RankIn(ranks, i) + 1) as real, (k + j + 1) as real,
                (k + RankIn(ranks, j) + 1) as real);
    hide Greater;
  }

  /** 1/a + 1/b > 1/c + 1/d, multiplied out. */
  predicate Greater(a: real, b: real, c: real, d: real) {
    (a + b) * (c * d) > (c + d) * (a * b)
  }

  lemma CompareSums(a: real, b: real, c: real, d: real)
    requires a > 0.0 && b > 0.0 && c > 0.0 && d > 0.0
    ensures 1.0 / a + 1.0 / b > 1.0 / c + 1.0 / d <==> Greater(a, b, c, d)
    ensures 1.0 / a + 1.0 / b < 1.0 / c + 1.0 / d <==> Greater(c, d, a, b)
  {
    var x, y, m := 1.0 / a + 1.0 / b, 1.0 / c + 1.0 / d, (a * b) * (c * d);
    SumOfReciprocals(a, b);
    SumOfReciprocals(c, d);
    assert x * m == (x * (a * b)) * (c * d) == (a + b) * (c * d);
    assert y * m == (y * (c * d)) * (a * b) == (c + d) * (a * b);
    Positive(a, b);
    Positive(c, d);
    Positive(a * b, c * d);
    Scaled(x, y, m);
  }

  lemma SumOfReciprocals(a: real, b: real)
    requires a > 0.0 && b > 0.0
    ensures (1.0 / a + 1.0 / b) * (a * b) == a + b
  {
    var u, v := 1.0 / a, 1.0 / b;
    assert u * a == 1.0 && v * b == 1.0;
    assert (u + v) * (a * b) == (u * a) * b + (v * b) * a;
  }

  lemma Positive(a: real, b: real)
    requires a > 0.0 && b > 0.0
    ensures a * b > 0.0
  {
  }

  lemma Scaled(x: real, y: real, m: real)
    requires m > 0.0
    ensures x > y <==> x * m > y * m
    ensures x == y <==> x * m == y * m
  {
  }

  /** A row that is no worse in retrieval and in recency, and not the same row, comes first within its stratum. */
  lemma BetterInBothRanksFirst(ranks: Ranks, k: nat, demoted: set<nat>, i: nat, j: nat)
    requires i < j && RankIn(ranks, i) <= RankIn(ranks, j) && (i in demoted <==> j in demoted)
    ensures Preferred(ranks, k, demoted, i, j)
  {
    Reciprocal(k + i + 1, k + j + 1);
    Reciprocal(k + RankIn(ranks, i) + 1, k + RankIn(ranks, j) + 1);
  }

  lemma Reciprocal(a: nat, b: nat)
    requires 0 < a <= b
    ensures 1.0 / a as real >= 1.0 / b as real
  {
    var x, y := 1.0 / a as real, 1.0 / b as real;
    assert x * (a as real) == 1.0 && y * (b as real) == 1.0;
  }

  // ---------------------------------------------------------------- trimming

  /** The language's `xs[:k]`, for any integer k. */
  function Trim(xs: seq<nat>, k: int): (cut: seq<nat>)
    ensures cut <= xs
    ensures k >= 0 ==> |cut| == if k < |xs| then k else |xs|
    ensures k < 0 ==> |cut| == if |xs| + k > 0 then |xs| + k else 0
  {
    if k >= |xs| then xs
    else if k >= 0 then xs[..k]
    else if |xs| + k >= 0 then xs[..|xs| + k]
    else []
  }

  /** `readerpp_select`. */
  method ReaderppSelect(epochs: Epochs, readerK: int, sim: (nat, nat) -> real, tau: real, k: nat)
    returns (rows: seq<nat>)
    ensures rows == Trim(ReaderOrder(epochs, sim, tau, k), readerK)
  {
    if epochs == [] {
      return [];
    }
    var order, _ := ReaderppOrder(epochs, sim, tau, k);
    rows := Trim(order, readerK);
  }

  // ---------------------------------------------------------------- the stratified rerank

  /** What a scorer does: raise, answer something that is not a list of finite numbers, or answer scores. */
  datatype Answer = Raised | Malformed | Scores(values: seq<real>)

  /** The scorer is shown the rows in reader++ order. */
  type Scorer = seq<nat> -> Answer

  predicate Honest(answer: Answer, n: nat) {
    answer.Scores? && |answer.values| == n
  }

  /** Positions of the reader++ order: live ones first, then the higher score, then the earlier position. */
  predicate Outscores(order: seq<nat>, demoted: set<nat>, scores: seq<real>, p: nat, q: nat) {
    if Demoted(order, demoted, p) != Demoted(order, demoted, q) then Demoted(order, demoted, q)
    else ScoreAt(scores, p) > ScoreAt(scores, q) || (ScoreAt(scores, p) == ScoreAt(scores, q) && p < q)
  }

  predicate Demoted(order: seq<nat>, demoted: set<nat>, p: nat) {
    p < |order| && order[p] in demoted
  }

  function ScoreAt(scores: seq<real>, p: nat): real {
    if p < |scores| then scores[p] else 0.0
  }

  function ByOutscores(order: seq<nat>, demoted: set<nat>, scores: seq<real>): Order {
    (p: nat, q: nat) => Outscores(order, demoted, scores, p, q)
  }

  function ByScore(scores: seq<real>): Order {
    (p: nat, q: nat) => ScoreAt(scores, p) > ScoreAt(scores, q) || (ScoreAt(scores, p) == ScoreAt(scores, q) && p < q)
  }

  function RowsAt(order: seq<nat>, positions: seq<nat>): seq<nat>
    requires forall p | p in positions :: p < |order|
  {
    seq(|positions|, a requires 0 <= a < |positions| =>
      assert positions[a] in positions; order[positions[a]])
  }

  lemma OutscoringIsTotal(order: seq<nat>, demoted: set<nat>, scores: seq<real>)
    ensures StrictTotal(ByOutscores(order, demoted, scores)) && StrictTotal(ByScore(scores))
  {
  }

  /** One lexicographic sort of all positions. */
  ghost function Reranking(order: seq<nat>, demoted: set<nat>, scores: seq<real>): seq<nat> {
    SortBy(Range(|order|), ByOutscores(order, demoted, scores))
  }

  /** The full order a selection is cut from. */
  ghost function SelectOrder(epochs: Epochs, sim: (nat, nat) -> real, tau: real, k: nat, scorer: Option<Scorer>)
    : seq<nat>
  {
    var order := ReaderOrder(epochs, sim, tau, k);
    if scorer.Some? && Honest(scorer.value(order), |order|)
    then
      OutscoringIsTotal(order, OutdatedRows(epochs, sim, tau), scorer.value(order).values);
      SortedRange(|order|, ByOutscores(order, OutdatedRows(epochs, sim, tau), scorer.value(order).values));
      RowsAt(order, Reranking(order, OutdatedRows(epochs, sim, tau), scorer.value(order).values))
    else order
  }

  /** The positions below `n` in one stratum, in order. */
  function Stratum(order: seq<nat>, demoted: set<nat>, wanted: bool, n: nat): seq<nat> {
    if n == 0 then []
    else Stratum(order, demoted, wanted, n - 1) + if Demoted(order, demoted, n - 1) == wanted then [n - 1] else []
  }

  lemma {:induction false} StratumIs(order: seq<nat>, demoted: set<nat>, wanted: bool, n: nat)
    ensures var ps := Stratum(order, demoted, wanted, n);
            && (forall p: nat :: p in ps <==> p < n && Demoted(order, demoted, p) == wanted)
            && (forall a | 0 <= a < |ps| :: ps[a] < n) && Distinct(ps)
  {
    if n > 0 {
      StratumIs(order, demoted, wanted, n - 1);
    }
  }

  lemma {:induction false} StrataCover(order: seq<nat>, demoted: set<nat>, n: nat)
    ensures |Stratum(order, demoted, false, n)| + |Stratum(order, demoted, true, n)| == n
  {
    if n > 0 {
      StrataCover(order, demoted, n - 1);
    }
  }

  /** A strict total order has one sorted arrangement of given members. */
  lemma {:induction false} SortedIsUnique(xs: seq<nat>, ys: seq<nat>, less: Order)
    requires StrictTotal(less) && SortedBy(xs, less) && SortedBy(ys, less) && SameMembers(xs, ys)
    ensures xs == ys
    decreases |xs|
  {
    if xs != [] {
      assert xs[0] in ys && ys[0] in xs;
      forall x ensures x in xs[1..] <==> x in ys[1..] {
        TailMembers(xs, less, x);
        TailMembers(ys, less, x);
      }
      SortedIsUnique(xs[1..], ys[1..], less);
      assert xs == [xs[0]] + xs[1..] && ys == [ys[0]] + ys[1..];
    }
  }

  lemma TailMembers(xs: seq<nat>, less: Order, x: nat)
    requires StrictTotal(less) && SortedBy(xs, less) && xs != []
    ensures x in xs[1..] <==> x in xs && x != xs[0]
  {
    if x in xs[1..] {
      var a :| 0 <= a < |xs| - 1 && xs[1..][a] == x;
      assert less(xs[0], xs[a + 1]);
    }
    assert xs == [xs[0]] + xs[1..];
  }

  /** Sorting each stratum by score and concatenating is the one lexicographic sort. */
  lemma StrataThenConcat(order: seq<nat>, demoted: set<nat>, scores: seq<real>)
    ensures SortBy(Stratum(order, demoted, false, |order|), ByScore(scores))
            + SortBy(Stratum(order, demoted, true, |order|), ByScore(scores))
            == Reranking(order, demoted, scores)
  {
    var n := |order|;
    var live, dead := Stratum(order, demoted, false, n), Stratum(order, demoted, true, n);
    OutscoringIsTotal(order, demoted, scores);
    StratumIs(order, demoted, false, n);
    StratumIs(order, demoted, true, n);
    StrataCover(order, demoted, n);
    SortBySorts(live, ByScore(scores));
    SortBySorts(dead, ByScore(scores));
    SortedRange(n, ByOutscores(order, demoted, scores));
    var both := SortBy(live, ByScore(scores)) + SortBy(dead, ByScore(scores));
    ConcatIsSorted(order, demoted, scores, SortBy(live, ByScore(scores)), SortBy(dead, ByScore(scores)));
    SortedIsUnique(both, Reranking(order, demoted, scores), ByOutscores(order, demoted, scores));
  }

  lemma ConcatIsSorted(order: seq<nat>, demoted: set<nat>, scores: seq<real>, live: seq<nat>, dead: seq<nat>)
    requires SortedBy(live, ByScore(scores)) && SortedBy(dead, ByScore(scores))
    requires forall p | p in live :: !Demoted(order, demoted, p)
    requires forall p | p in dead :: Demoted(order, demoted, p)
    ensures SortedBy(live + dead, ByOutscores(order, demoted, scores))
  {
    var both := live + dead;
    forall a, b | 0 <= a < b < |both| ensures Outscores(order, demoted, scores, both[a], both[b]) {
      if b < |live| {
        assert ByScore(scores)(live[a], live[b]);
      } else if a >= |live| {
        assert ByScore(scores)(dead[a - |live|], dead[b - |live|]);
      }
    }
  }

  /** `select`: a scorer that raises, or answers anything but one finite score a row, changes nothing. */
  method Select(epochs: Epochs, k: int, scorer: Option<Scorer>, sim: (nat, nat) -> real, tau: real, rrfK: nat)
    returns (rows: seq<nat>)
    ensures rows == Trim(SelectOrder(epochs, sim, tau, rrfK, scorer), k)
  {
    if epochs == [] {
      return [];
    }
    var order, demoted := ReaderppOrder(epochs, sim, tau, rrfK);
    if scorer.None? {
      return Trim(order, k);
    }
    var answer := scorer.value(order);
    if !answer.Scores? || |answer.values| != |order| {
      return Trim(order, k);
    }
    StratumIs(order, demoted, false, |order|);
    StratumIs(order, demoted, true, |order|);
    OutscoringIsTotal(order, demoted, answer.values);
    StrataThenConcat(order, demoted, answer.values);
    var live := SortBy(Stratum(order, demoted, false, |order|), ByScore(answer.values));
    var dead := SortBy(Stratum(order, demoted, true, |order|), ByScore(answer.values));
    SortedRange(|order|, ByOutscores(order, demoted, answer.values));
    assert forall p | p in live + dead :: p < |order|;
    rows := Trim(RowsAt(order, live + dead), k);
  }

  // ---------------------------------------------------------------- which way a score counts

  /** Row `x` stands before row `y`. */
  ghost predicate Before(rows: seq<nat>, x: nat, y: nat) {
    exists a, b | 0 <= a < b < |rows| :: rows[a] == x && rows[b] == y
  }

  /**
   Of two rows of one stratum the one with the higher score comes first, and of two with equal scores
   the one that the reader++ order has first. `values[p]` is the score of the p-th row of that order.
   */
  lemma HigherScoreFirst(epochs: Epochs, sim: (nat, nat) -> real, tau: real, k: nat, scorer: Scorer, p: nat, q: nat)
    requires var order := ReaderOrder(epochs, sim, tau, k);
             && scorer(order).Scores? && |scorer(order).values| == |order| && p < |order| && q < |order|
             && (order[p] in OutdatedRows(epochs, sim, tau) <==> order[q] in OutdatedRows(epochs, sim, tau))
             && var values := scorer(order).values;
                values[p] > values[q] || (values[p] == values[q] && p < q)
    ensures var order := ReaderOrder(epochs, sim, tau, k);
            Before(SelectOrder(epochs, sim, tau, k, Some(scorer)), order[p], order[q])
  {
    var order, demoted := ReaderOrder(epochs, sim, tau, k), OutdatedRows(epochs, sim, tau);
    var values := scorer(order).values;
    HigherPositionFirst(order, demoted, values, p, q);
    var ps := Reranking(order, demoted, values);
    assert SelectOrder(epochs, sim, tau, k, Some(scorer)) == RowsAt(order, ps);
    hide ReaderOrder, OutdatedRows, Reranking, SelectOrder;
    var a, b :| 0 <= a < b < |ps| && ps[a] == p && ps[b] == q;
    assert RowsAt(order, ps)[a] == order[p] && RowsAt(order, ps)[b] == order[q];
  }

  lemma HigherPositionFirst(order: seq<nat>, demoted: set<nat>, values: seq<real>, p: nat, q: nat)
    requires p < |order| && q < |order| && |values| == |order| && (order[p] in demoted <==> order[q] in demoted)
    requires values[p] > values[q] || (values[p] == values[q] && p < q)
    ensures forall x | x in Reranking(order, demoted, values) :: x < |order|
    ensures Before(Reranking(order, demoted, values), p, q)
  {
    var less, ps := ByOutscores(order, demoted, values), Reranking(order, demoted, values);
    assert less(p, q) && !less(q, p);
    OutscoringIsTotal(order, demoted, values);
    SortedRange(|order|, less);
    hide ByOutscores, Reranking, StrictTotal;
    SortedPutsFirst(ps, less, p, q);
  }

  lemma SortedPutsFirst(xs: seq<nat>, less: Order, p: nat, q: nat)
    requires SortedBy(xs, less) && p in xs && q in xs && p != q && !less(q, p)
    ensures Before(xs, p, q)
  {
    var a :| 0 <= a < |xs| && xs[a] == p;
    var b :| 0 <= b < |xs| && xs[b] == q;
  }

  // ---------------------------------------------------------------- canonical rows win, whatever the scorer

  ghost predicate Stratified(full: seq<nat>, demoted: set<nat>) {
    forall a, b | 0 <= a < b < |full| :: full[a] in demoted ==> full[b] in demoted
  }

  lemma OrderIsStratified(epochs: Epochs, sim: (nat, nat) -> real, tau: real, k: nat)
    ensures Permutation(ReaderOrder(epochs, sim, tau, k), |epochs|)
    ensures Stratified(ReaderOrder(epochs, sim, tau, k), OutdatedRows(epochs, sim, tau))
    ensures SortedBy(ReaderOrder(epochs, sim, tau, k),
                     ByPreference(RecencyRanks(epochs), k, OutdatedRows(epochs, sim, tau)))
  {
    PreferenceIsTotal(RecencyRanks(epochs), k, OutdatedRows(epochs, sim, tau));
    SortedRange(|epochs|, ByPreference(RecencyRanks(epochs), k, OutdatedRows(epochs, sim, tau)));
  }

  lemma RerankingIsStratified(order: seq<nat>, demoted: set<nat>, scores: seq<real>)
    requires Permutation(order, |order|)
    ensures var ps := Reranking(order, demoted, scores);
            && (forall p | p in ps :: p < |order|)
            && Permutation(RowsAt(order, ps), |order|) && Stratified(RowsAt(order, ps), demoted)
  {
    OutscoringIsTotal(order, demoted, scores);
    SortedRange(|order|, ByOutscores(order, demoted, scores));
    var ps := Reranking(order, demoted, scores);
    var rows := RowsAt(order, ps);
    forall a | 0 <= a < |rows| ensures rows[a] < |order| {
      assert ps[a] in ps && order[ps[a]] in order;
    }
    forall x: nat ensures x in rows <==> x < |order| {
      if x < |order| {
        assert x in order;
        var p :| 0 <= p < |order| && order[p] == x;
        assert p in ps;
        var a :| 0 <= a < |ps| && ps[a] == p;
        assert rows[a] == x;
      }
    }
    forall a, b | 0 <= a < b < |rows| ensures rows[a] != rows[b] && (rows[a] in demoted ==> rows[b] in demoted) {
      assert ps[a] in ps && ps[b] in ps && ps[a] != ps[b];
      assert ByOutscores(order, demoted, scores)(ps[a], ps[b]);
    }
  }

  /**
   For every scorer, honest or broken, and every cut: the rows come from a permutation of all
   rows, and a demoted row is selected only if every live row is.
   */
  lemma DemotedOnlyAfterEveryLive(epochs: Epochs, sim: (nat, nat) -> real, tau: real, rrfK: nat,
                                  scorer: Option<Scorer>, k: int, i: nat, j: nat)
    ensures var full := SelectOrder(epochs, sim, tau, rrfK, scorer);
            var demoted := OutdatedRows(epochs, sim, tau);
            && Permutation(full, |epochs|) && Stratified(full, demoted)
            && (i in Trim(full, k) && i in demoted && j < |epochs| && j !in demoted ==> j in Trim(full, k))
  {
    OrderIsStratified(epochs, sim, tau, rrfK);
    var order := ReaderOrder(epochs, sim, tau, rrfK);
    var demoted := OutdatedRows(epochs, sim, tau);
    if scorer.Some? && Honest(scorer.value(order), |order|) {
      RerankingIsStratified(order, demoted, scorer.value(order).values);
    }
    var full := SelectOrder(epochs, sim, tau, rrfK, scorer);
    assert Permutation(full, |epochs|) && Stratified(full, demoted);
    hide SelectOrder, OutdatedRows, ReaderOrder;
    if i in Trim(full, k) && i in demoted && j < |epochs| && j !in demoted {
      PrefixKeepsLive(full, demoted, Trim(full, k), i, j);
    }
  }

  lemma PrefixKeepsLive(full: seq<nat>, demoted: set<nat>, cut: seq<nat>, i: nat, j: nat)
    requires Stratified(full, demoted) && cut <= full && i in cut && i in demoted && j in full && j !in demoted
    ensures j in cut
  {
    var a :| 0 <= a < |cut| && cut[a] == i;
    var b :| 0 <= b < |full| && full[b] == j;
    assert full[a] == i;
    assert b < |cut| ==> cut[b] == j;
  }
}
