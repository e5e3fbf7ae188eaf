/**
 Single-linkage clustering (panella/reader.py, `_cluster`): union-find with path halving and
 no rank, proved against connectivity in the graph of similar pairs.
 */
module Cluster {

  type Edges = set<(nat, nat)>

  // ---------------------------------------------------------------- connectivity

  predicate Adjacent(edges: Edges, x: nat, y: nat) {
    (x, y) in edges || (y, x) in edges
  }

  ghost predicate IsPath(edges: Edges, path: seq<nat>) {
    path != [] && forall k | 0 <= k < |path| - 1 :: Adjacent(edges, path[k], path[k + 1])
  }

  ghost predicate PathBetween(edges: Edges, path: seq<nat>, x: nat, y: nat) {
    IsPath(edges, path) && path[0] == x && path[|path| - 1] == y
  }

  ghost predicate Connected(edges: Edges, x: nat, y: nat) {
    exists path :: PathBetween(edges, path, x, y)
  }

  /** The graph of pairs whose similarity reaches the threshold; each pair is compared once, in order. */
  ghost function SimilarPairs(n: nat, sim: (nat, nat) -> real, tau: real): Edges {
    set i: nat, j: nat | i < n && j < n && i < j && sim(i, j) >= tau :: (i, j)
  }

  lemma Reflexive(edges: Edges, x: nat)
    ensures Connected(edges, x, x)
  {
    assert PathBetween(edges, [x], x, x);
  }

  lemma {:induction false} Reverses(edges: Edges, path: seq<nat>, x: nat, y: nat)
    requires PathBetween(edges, path, x, y)
    ensures Connected(edges, y, x)
  {
    var back := seq(|path|, k requires 0 <= k < |path| => path[|path| - 1 - k]);
    forall k | 0 <= k < |back| - 1 ensures Adjacent(edges, back[k], back[k + 1]) {
      assert Adjacent(edges, path[|path| - 2 - k], path[|path| - 2 - k + 1]);
    }
    assert PathBetween(edges, back, y, x);
  }

  lemma Symmetric(edges: Edges, x: nat, y: nat)
    requires Connected(edges, x, y)
    ensures Connected(edges, y, x)
  {
    var path :| PathBetween(edges, path, x, y);
    Reverses(edges, path, x, y);
  }

  lemma Transitive(edges: Edges, x: nat, y: nat, z: nat)
    requires Connected(edges, x, y) && Connected(edges, y, z)
    ensures Connected(edges, x, z)
  {
    var p :| PathBetween(edges, p, x, y);
    var q :| PathBetween(edges, q, y, z);
    assert PathBetween(edges, p + q[1..], x, z);
  }

  lemma MoreEdges(edges: Edges, more: Edges, x: nat, y: nat)
    requires edges <= more && Connected(edges, x, y)
    ensures Connected(more, x, y)
  {
    var path :| PathBetween(edges, path, x, y);
    forall k | 0 <= k < |path| - 1 ensures Adjacent(more, path[k], path[k + 1]) {
      assert Adjacent(edges, path[k], path[k + 1]);
    }
    assert PathBetween(more, path, x, y);
  }

  // ---------------------------------------------------------------- the forest

  /**
   `parent` is an acyclic forest whose roots are given by `rep`. `level` strictly decreases
   towards the root: it witnesses acyclicity and bounds every walk.
   */
  ghost predicate Forest(parent: seq<nat>, rep: seq<nat>, level: seq<nat>) {
    && |parent| == |rep| == |level|
    && forall x | 0 <= x < |parent| :: Placed(parent, rep, level, x)
  }

  ghost predicate Placed(parent: seq<nat>, rep: seq<nat>, level: seq<nat>, x: nat)
    requires x < |parent| == |rep| == |level|
  {
    && parent[x] < |parent| && rep[x] < |parent|
    && (parent[x] == x ==> rep[x] == x)
    && parent[rep[x]] == rep[x] && rep[parent[x]] == rep[x]
    && (parent[x] != x ==> level[parent[x]] < level[x])
  }

  /** Two indices have one root exactly when the edges merged so far connect them. */
  ghost predicate Exact(rep: seq<nat>, edges: Edges) {
    && (forall e | e in edges :: e.0 < |rep| && e.1 < |rep| && rep[e.0] == rep[e.1])
    && (forall x: nat | x < |rep| :: rep[x] < |rep| && Connected(edges, x, rep[x]))
  }

  lemma {:induction false} PathHasOneRoot(rep: seq<nat>, edges: Edges, path: seq<nat>)
    requires Exact(rep, edges) && IsPath(edges, path) && path[0] < |rep|
    ensures path[|path| - 1] < |rep| && rep[path[|path| - 1]] == rep[path[0]]
    decreases |path|
  {
    if |path| > 1 {
      assert Adjacent(edges, path[0], path[1]);
      forall k | 0 <= k < |path| - 2 ensures Adjacent(edges, path[1..][k], path[1..][k + 1]) {
        assert Adjacent(edges, path[k + 1], path[k + 1 + 1]);
      }
      PathHasOneRoot(rep, edges, path[1..]);
    }
  }

  lemma ExactIsConnectivity(rep: seq<nat>, edges: Edges, x: nat, y: nat)
    requires Exact(rep, edges) && x < |rep| && y < |rep|
    ensures rep[x] == rep[y] <==> Connected(edges, x, y)
  {
    if rep[x] == rep[y] {
      Symmetric(edges, y, rep[y]);
      Transitive(edges, x, rep[x], y);
    } else if Connected(edges, x, y) {
      var path :| PathBetween(edges, path, x, y);
      PathHasOneRoot(rep, edges, path);
    }
  }

  function Merge(rep: seq<nat>, from: nat, into: nat): (merged: seq<nat>)
    ensures |merged| == |rep|
  {
    seq(|rep|, x requires 0 <= x < |rep| => if rep[x] == from then into else rep[x])
  }

  function Raise(rep: seq<nat>, level: seq<nat>, from: nat, lift: nat): (raised: seq<nat>)
    requires |level| == |rep|
    ensures |raised| == |rep|
  {
    seq(|rep|, x requires 0 <= x < |rep| => if rep[x] == from then level[x] + lift + 1 else level[x])
  }

  /** Hanging one root under another keeps the forest: the moved tree is lifted above its new root. */
  lemma MergeKeepsForest(parent: seq<nat>, rep: seq<nat>, level: seq<nat>, from: nat, into: nat)
    requires Forest(parent, rep, level) && from < |parent| && into < |parent|
    requires parent[from] == from && parent[into] == into
    ensures from == into ==> parent[from := into] == parent && Merge(rep, from, into) == rep
    ensures from != into
            ==> Forest(parent[from := into], Merge(rep, from, into), Raise(rep, level, from, level[into]))
  {
    assert Placed(parent, rep, level, from) && Placed(parent, rep, level, into);
    var parent', rep', level' := parent[from := into], Merge(rep, from, into), Raise(rep, level, from, level[into]);
    forall x | 0 <= x < |parent| ensures from == into ==> rep'[x] == rep[x]
      ensures from != into ==> Placed(parent', rep', level', x)
    {
      assert Placed(parent, rep, level, x);
    }
  }

  lemma MergeIsExact(rep: seq<nat>, edges: Edges, i: nat, j: nat)
    requires Exact(rep, edges) && i < |rep| && j < |rep|
    ensures Exact(Merge(rep, rep[i], rep[j]), edges + {(i, j)})
  {
    var more, merged := edges + {(i, j)}, Merge(rep, rep[i], rep[j]);
    forall x: nat | x < |rep| ensures merged[x] < |rep| && Connected(more, x, merged[x]) {
      MoreEdges(edges, more, x, rep[x]);
      if rep[x] == rep[i] {
        MoreEdges(edges, more, i, rep[i]);
        MoreEdges(edges, more, j, rep[j]);
        Symmetric(more, i, rep[i]);
        assert Adjacent(more, i, j) && PathBetween(more, [i, j], i, j);
        Transitive(more, x, rep[x], i);
        Transitive(more, x, i, j);
        Transitive(more, x, j, rep[j]);
      }
    }
  }

  // ---------------------------------------------------------------- the algorithm

  /** Re-hanging a node under its grandparent keeps the forest, and the grandparent is strictly nearer the root. */
  lemma HalvingKeepsForest(parent: seq<nat>, rep: seq<nat>, level: seq<nat>, x: nat)
    requires Forest(parent, rep, level) && x < |parent| && parent[x] != x
    ensures parent[x] < |parent| && parent[parent[x]] < |parent|
    ensures Forest(parent[x := parent[parent[x]]], rep, level)
    ensures rep[parent[parent[x]]] == rep[x] && level[parent[parent[x]]] < level[x]
  {
    assert Placed(parent, rep, level, x) && Placed(parent, rep, level, parent[x]);
    var halved := parent[x := parent[parent[x]]];
    forall y | 0 <= y < |parent| ensures Placed(halved, rep, level, y) {
      assert Placed(parent, rep, level, y);
    }
  }

  lemma RootIsRep(parent: seq<nat>, rep: seq<nat>, level: seq<nat>, x: nat)
    requires Forest(parent, rep, level) && x < |parent|
    ensures parent[x] < |parent| && (parent[x] == x ==> rep[x] == x)
  {
    assert Placed(parent, rep, level, x);
  }

  /** `find`: every other node on the way is re-hung under its grandparent; no root changes. */
  method Find(parent: array<nat>, x: nat, ghost rep: seq<nat>, ghost level: seq<nat>) returns (root: nat)
    requires Forest(parent[..], rep, level) && x < parent.Length == |rep| == |level|
    modifies parent
    ensures Forest(parent[..], rep, level)
    ensures root == rep[x] && root < parent.Length && parent[root] == root
  {
    hide Forest;
    root := x;
    RootIsRep(parent[..], rep, level, x);
    while parent[root] != root
      invariant root < parent.Length && Forest(parent[..], rep, level) && rep[root] == rep[x]
      decreases level[root]
    {
      ghost var before := parent[..];
      HalvingKeepsForest(before, rep, level, root);
      parent[root] := parent[parent[root]];
      assert parent[..] == before[root := before[before[root]]];
      root := parent[root];
    }
    RootIsRep(parent[..], rep, level, root);
  }

  /** Members of one class below `n`, in order. */
  function Members(rep: seq<nat>, r: nat, n: nat): seq<nat>
    requires n <= |rep|
  {
    if n == 0 then [] else Members(rep, r, n - 1) + if rep[n - 1] == r then [n - 1] else []
  }

  lemma {:induction false} MembersAre(rep: seq<nat>, r: nat, n: nat)
    requires n <= |rep|
    ensures forall x: nat :: x in Members(rep, r, n) <==> x < n && rep[x] == r
    ensures forall a | 0 <= a < |Members(rep, r, n)| :: Members(rep, r, n)[a] < n
    ensures forall a, b | 0 <= a < b < |Members(rep, r, n)| :: Members(rep, r, n)[a] < Members(rep, r, n)[b]
  {
    if n > 0 {
      MembersAre(rep, r, n - 1);
    }
  }

  /** `parent[find(i)] = find(j)`; the right-hand side is evaluated first. */
  method Union(parent: array<nat>, i: nat, j: nat, ghost rep: seq<nat>, ghost level: seq<nat>, ghost edges: Edges)
    returns (ghost rep': seq<nat>, ghost level': seq<nat>)
    requires Forest(parent[..], rep, level) && Exact(rep, edges) && i < parent.Length && j < parent.Length
    modifies parent
    ensures Forest(parent[..], rep', level') && Exact(rep', edges + {(i, j)})
  {
    var rj := Find(parent, j, rep, level);
    var ri := Find(parent, i, rep, level);
    ghost var before := parent[..];
    assert before[ri] == ri && before[rj] == rj by { assert Placed(before, rep, level, j); }
    hide Forest, Exact;
    MergeKeepsForest(before, rep, level, ri, rj);
    MergeIsExact(rep, edges, i, j);
    parent[ri] := rj;
    assert parent[..] == before[ri := rj];
    level' := if ri == rj then level else Raise(rep, level, ri, level[rj]);
    rep' := Merge(rep, ri, rj);
  }

  method UnionAll(parent: array<nat>, sim: (nat, nat) -> real, tau: real)
    returns (ghost rep: seq<nat>, ghost level: seq<nat>)
    requires forall x | 0 <= x < parent.Length :: parent[x] == x
    modifies parent
    ensures |rep| == |level| == parent.Length && (forall x: nat | x < |rep| :: rep[x] < |rep|)
    ensures Forest(parent[..], rep, level) && Exact(rep, SimilarPairs(parent.Length, sim, tau))
  {
    var n := parent.Length;
    rep := parent[..];
    level := seq(n, _ => 0);
    ghost var edges: Edges := {};
    assert Exact(rep, edges) by {
      forall x: nat | x < n ensures Connected(edges, x, rep[x]) { Reflexive(edges, x); }
    }
    assert Forest(parent[..], rep, level);
    hide Connected, Placed;
    for i := 0 to n
      invariant Forest(parent[..], rep, level) && Exact(rep, edges)
      invariant forall e :: e in edges <==> e.0 < e.1 < n && e.0 < i && sim(e.0, e.1) >= tau
    {
      for j := i + 1 to n
        invariant Forest(parent[..], rep, level) && Exact(rep, edges)
        invariant forall e :: e in edges <==>
                    e.0 < e.1 < n && (e.0 < i || (e.0 == i && e.1 < j)) && sim(e.0, e.1) >= tau
      {
        if sim(i, j) >= tau {
          rep, level := Union(parent, i, j, rep, level, edges);
          edges := edges + {(i, j)};
        }
      }
    }
    assert edges == SimilarPairs(n, sim, tau);
  }

  /** Two indices are in one group. */
  ghost predicate Together(groups: seq<seq<nat>>, x: nat, y: nat) {
    exists g | 0 <= g < |groups| :: x in groups[g] && y in groups[g]
  }

  /** The groups partition 0..n, each in increasing order, in the order of their first members. */
  ghost predicate Partition(groups: seq<seq<nat>>, n: nat) {
    && (forall g | 0 <= g < |groups| :: groups[g] != [] && forall x | x in groups[g] :: x < n)
    && (forall g | 0 <= g < |groups| :: forall a, b | 0 <= a < b < |groups[g]| :: groups[g][a] < groups[g][b])
    && (forall x: nat | x < n :: Together(groups, x, x))
    && (forall g, h, x | 0 <= g < |groups| && 0 <= h < |groups| && x in groups[g] && x in groups[h] :: g == h)
    && (forall g, h | 0 <= g < h < |groups| :: groups[g][0] < groups[h][0])
  }

  /** The groups collected from the indices below `i`, one for each root seen, in the order of first members. */
  ghost predicate Collected(groups: seq<seq<nat>>, roots: seq<nat>, rep: seq<nat>, i: nat)
    requires i <= |rep|
  {
    && |groups| == |roots|
    && (forall g | 0 <= g < |groups| :: IsClass(groups[g], rep, roots[g], i))
    && (forall g, h | 0 <= g < h < |groups| :: FirstOf(groups[g]) < FirstOf(groups[h]))
  }

  ghost predicate IsClass(group: seq<nat>, rep: seq<nat>, r: nat, i: nat)
    requires i <= |rep|
  {
    group == Members(rep, r, i) && group != []
  }

  function FirstOf(group: seq<nat>): nat {
    if group == [] then 0 else group[0]
  }

  lemma FreshClassIsEmpty(rep: seq<nat>, r: nat, i: nat)
    requires i <= |rep| && forall x | 0 <= x < i :: rep[x] != r
    ensures Members(rep, r, i) == []
  {
    MembersAre(rep, r, i);
    if Members(rep, r, i) != [] {
      assert Members(rep, r, i)[0] in Members(rep, r, i);
    }
  }

  lemma OtherClassIsSame(group: seq<nat>, rep: seq<nat>, r: nat, i: nat)
    requires i < |rep| && rep[i] != r && IsClass(group, rep, r, i)
    ensures FirstOf(group) < i && IsClass(group, rep, r, i + 1)
  {
    MembersAre(rep, r, i);
  }

  lemma AppendClass(groups: seq<seq<nat>>, roots: seq<nat>, group: seq<nat>, r: nat, rep: seq<nat>, i: nat)
    requires i <= |rep| && Collected(groups, roots, rep, i) && IsClass(group, rep, r, i)
    requires forall g | 0 <= g < |groups| :: FirstOf(groups[g]) < FirstOf(group)
    ensures Collected(groups + [group], roots + [r], rep, i)
  {
  }

  lemma CollectFirst(groups: seq<seq<nat>>, roots: seq<nat>, at: map<nat, nat>, rep: seq<nat>, i: nat)
    requires i < |rep| && Collected(groups, roots, rep, i) && Indexed(at, roots)
    requires rep[i] !in at && forall x | 0 <= x < i :: rep[x] in at
    ensures Collected(groups + [[i]], roots + [rep[i]], rep, i + 1)
    ensures forall x | 0 <= x < i + 1 :: rep[x] in at[rep[i] := |groups|]
  {
    forall g | 0 <= g < |groups| ensures FirstOf(groups[g]) < i && IsClass(groups[g], rep, roots[g], i + 1) {
      assert roots[g] in at;
      OtherClassIsSame(groups[g], rep, roots[g], i);
    }
    FreshClassIsEmpty(rep, rep[i], i);
    AppendClass(groups, roots, [i], rep[i], rep, i + 1);
  }

  lemma CollectNext(groups: seq<seq<nat>>, roots: seq<nat>, at: map<nat, nat>, rep: seq<nat>, i: nat)
    requires i < |rep| && Collected(groups, roots, rep, i) && Indexed(at, roots) && rep[i] in at
    requires forall x | 0 <= x < i :: rep[x] in at
    ensures at[rep[i]] < |groups|
    ensures Collected(groups[at[rep[i]] := groups[at[rep[i]]] + [i]], roots, rep, i + 1)
    ensures forall x | 0 <= x < i + 1 :: rep[x] in at
  {
    var g := at[rep[i]];
    forall h | 0 <= h < |groups| ensures IsClass(groups[g := groups[g] + [i]][h], rep, roots[h], i + 1) {
      assert IsClass(groups[h], rep, roots[h], i);
    }
  }

  /** `at` is the position of each root in `roots`. */
  ghost predicate Indexed(at: map<nat, nat>, roots: seq<nat>) {
    && (forall g | 0 <= g < |roots| :: roots[g] in at && at[roots[g]] == g)
    && (forall r | r in at :: at[r] < |roots| && roots[at[r]] == r)
  }

  lemma GroupsAreClasses(rep: seq<nat>, roots: seq<nat>, at: map<nat, nat>, groups: seq<seq<nat>>, n: nat)
    requires n == |rep| && Collected(groups, roots, rep, n) && Indexed(at, roots)
    requires forall x | 0 <= x < n :: rep[x] in at
    ensures Partition(groups, n)
    ensures forall x: nat, y: nat | x < n && y < n :: Together(groups, x, y) <==> rep[x] == rep[y]
  {
    forall g | 0 <= g < |groups| ensures forall x: nat :: x in groups[g] <==> x < n && rep[x] == roots[g]
      ensures forall a, b | 0 <= a < b < |groups[g]| :: groups[g][a] < groups[g][b]
    {
      MembersAre(rep, roots[g], n);
    }
    forall x: nat, y: nat | x < n && y < n ensures Together(groups, x, y) <==> rep[x] == rep[y] {
      if rep[x] == rep[y] {
        var g := at[rep[x]];
        assert x in groups[g] && y in groups[g];
      }
    }
  }

  lemma IndexOne(at: map<nat, nat>, roots: seq<nat>, r: nat)
    requires Indexed(at, roots) && r !in at
    ensures Indexed(at[r := |roots|], roots + [r])
  {
  }

  /** The grouping loop: a dictionary from root to members, read in insertion order. */
  method Collect(parent: array<nat>, ghost rep: seq<nat>, ghost level: seq<nat>)
    returns (groups: seq<seq<nat>>, ghost roots: seq<nat>, ghost index: map<nat, nat>)
    requires Forest(parent[..], rep, level) && |rep| == |level| == parent.Length
    modifies parent
    ensures Collected(groups, roots, rep, parent.Length) && Indexed(index, roots)
    ensures forall x | 0 <= x < parent.Length :: rep[x] in index
  {
    hide FirstOf, Forest, IsClass;
    var at: map<nat, nat> := map[];
    groups, roots := [], [];
    assert Collected(groups, roots, rep, 0) && Indexed(at, roots);
    for i := 0 to parent.Length
      invariant Forest(parent[..], rep, level)
      invariant |groups| == |roots| && Indexed(at, roots)
      invariant forall x | 0 <= x < i :: rep[x] in at
      invariant Collected(groups, roots, rep, i)
    {
      var r := Find(parent, i, rep, level);
      if r !in at {
        CollectFirst(groups, roots, at, rep, i);
        IndexOne(at, roots, r);
        at := at[r := |groups|];
        roots := roots + [r];
        groups := groups + [[i]];
      } else {
        CollectNext(groups, roots, at, rep, i);
        groups := groups[at[r] := groups[at[r]] + [i]];
      }
    }
    index := at;
  }

  /** `_cluster`: exactly the connected components of the graph of similar pairs. */
  method Groups(n: nat, sim: (nat, nat) -> real, tau: real) returns (groups: seq<seq<nat>>)
    ensures Partition(groups, n)
    ensures forall x: nat, y: nat | x < n && y < n ::
              Together(groups, x, y) <==> Connected(SimilarPairs(n, sim, tau), x, y)
  {
    var parent := new nat[n](x => x);
    ghost var rep, level := UnionAll(parent, sim, tau);
    ghost var roots, index;
    groups, roots, index := Collect(parent, rep, level);
    GroupsAreClasses(rep, roots, index, groups, n);
    forall x: nat, y: nat | x < n && y < n
      ensures Together(groups, x, y) <==> Connected(SimilarPairs(n, sim, tau), x, y)
    {
      ExactIsConnectivity(rep, SimilarPairs(n, sim, tau), x, y);
    }
  }
}
