/**
 The append-only hash-chained audit log (panella/audit.py): append, the full walk,
 and the bounded walk that the finalizer's receipt gate trusts.

 The row hash is a parameter. Nothing below assumes that it is free of collisions:
 tamper evidence is stated as "the two logs agree, or here is a collision".
 */
module AuditChain {
  import opened Basics

  type Hash = string

  const ZERO_HASH: Hash := "0000000000000000000000000000000000000000000000000000000000000000"

  /** What a row is about: an approval, or free text (a memory id). */
  datatype Target = NoTarget | OfApproval(id: nat) | OfText(text: string)

  /** What the caller of an append supplies. */
  datatype Entry = Entry(ts: int, principal: string, tenant: string, op: string, target: Target,
                         reason: Option<string>, details: map<string, string>)

  /** Everything the row hash covers, the link to the previous row included. */
  datatype Content = Content(num: int, entry: Entry, prev: Hash)

  datatype Row = Row(content: Content, hash: Hash)

  type Hasher = (Hash, Content) -> Hash

  datatype ChainError =
    | InvalidNumber
    | Gap(at: nat)
    | Discontinuity(at: nat)
    | HashMismatch(at: nat)
    | NotFound

  // ---------------------------------------------------------------- specification

  /** The order in which the log table is read: strictly increasing row numbers. */
  ghost predicate Ordered(rows: seq<Row>) {
    forall i, j | 0 <= i < j < |rows| :: rows[i].content.num < rows[j].content.num
  }

  function LastNum(rows: seq<Row>): int {
    if rows == [] then 0 else rows[|rows| - 1].content.num
  }

  function LastHash(rows: seq<Row>): Hash {
    if rows == [] then ZERO_HASH else rows[|rows| - 1].hash
  }

  /** The rows numbered at most `n`, in order. */
  function Upto(rows: seq<Row>, n: int): seq<Row> {
    if rows == [] then []
    else
      var last := rows[|rows| - 1];
      Upto(rows[..|rows| - 1], n) + if last.content.num <= n then [last] else []
  }

  predicate NumberedAt(rows: seq<Row>, i: nat)
    requires i < |rows|
  {
    rows[i].content.num == i + 1
  }

  predicate JoinedAt(rows: seq<Row>, i: nat)
    requires i < |rows|
  {
    rows[i].content.prev == if i == 0 then ZERO_HASH else rows[i - 1].hash
  }

  predicate HashedAt(h: Hasher, rows: seq<Row>, i: nat)
    requires i < |rows|
  {
    rows[i].hash == h(rows[i].content.prev, rows[i].content)
  }

  predicate LinkedAt(h: Hasher, rows: seq<Row>, i: nat)
    requires i < |rows|
  {
    NumberedAt(rows, i) && JoinedAt(rows, i) && HashedAt(h, rows, i)
  }

  /** The chain is intact from genesis: numbers 1, 2, 3, ..., each row joined to the one before. */
  ghost predicate Linked(h: Hasher, rows: seq<Row>) {
    forall i | 0 <= i < |rows| :: LinkedAt(h, rows, i)
  }

  /** Row `n` exists and is reachable from genesis through an intact chain. */
  ghost predicate ValidThrough(h: Hasher, rows: seq<Row>, n: int) {
    n >= 1 && |Upto(rows, n)| == n && Linked(h, Upto(rows, n))
  }

  ghost function Verdict(h: Hasher, rows: seq<Row>, n: int): Option<Row> {
    if ValidThrough(h, rows, n) then Some(Upto(rows, n)[n - 1]) else None
  }

  function NextRow(h: Hasher, rows: seq<Row>, e: Entry): Row {
    var c := Content(LastNum(rows) + 1, e, LastHash(rows));
    Row(c, h(LastHash(rows), c))
  }

  function Append(h: Hasher, rows: seq<Row>, e: Entry): seq<Row> {
    rows + [NextRow(h, rows, e)]
  }

  function AppendAll(h: Hasher, rows: seq<Row>, es: seq<Entry>): seq<Row>
    decreases |es|
  {
    if es == [] then rows else AppendAll(h, Append(h, rows, es[0]), es[1..])
  }

  /** The first error of a walk over `rows` is `e`; everything before it is intact. */
  ghost predicate FirstError(h: Hasher, rows: seq<Row>, e: ChainError) {
    match e
    case Gap(i) => i < |rows| && Linked(h, rows[..i]) && !NumberedAt(rows, i)
    case Discontinuity(i) => i < |rows| && Linked(h, rows[..i]) && NumberedAt(rows, i) && !JoinedAt(rows, i)
    case HashMismatch(i) =>
      i < |rows| && Linked(h, rows[..i]) && NumberedAt(rows, i) && JoinedAt(rows, i) && !HashedAt(h, rows, i)
    case _ => false
  }

  // ---------------------------------------------------------------- the log itself

  class AuditLog {
    const hasher: Hasher
    var rows: seq<Row>

    constructor (hasher: Hasher)
      ensures this.hasher == hasher && rows == []
    {
      this.hasher := hasher;
      rows := [];
    }

    /** Append one entry; the new row is numbered and joined to the current last row. */
    method Write(e: Entry) returns (num: int)
      modifies this
      ensures rows == Append(hasher, old(rows), e)
      ensures num == LastNum(rows) == LastNum(old(rows)) + 1
    {
      var prev := ZERO_HASH;
      num := 1;
      if |rows| > 0 {
        var last := rows[|rows| - 1];
        num := last.content.num + 1;
        prev := last.hash;
      }
      var content := Content(num, e, prev);
      rows := rows + [Row(content, hasher(prev, content))];
    }

    /** The walk both verifiers share: genesis to the end of `view`. */
    method Walk(view: seq<Row>) returns (error: Option<ChainError>)
      ensures error.None? <==> Linked(hasher, view)
      ensures error.Some? ==> FirstError(hasher, view, error.value)
    {
      var previous := ZERO_HASH;
      var expected := 1;
      for i := 0 to |view|
        invariant expected == i + 1
        invariant previous == if i == 0 then ZERO_HASH else view[i - 1].hash
        invariant forall k | 0 <= k < i :: LinkedAt(hasher, view, k)
      {
        PrefixLinked(hasher, view, i);
        var row := view[i];
        if row.content.num != expected {
          assert !LinkedAt(hasher, view, i);
          return Some(Gap(i));
        }
        expected := expected + 1;
        if row.content.prev != previous {
          assert !LinkedAt(hasher, view, i);
          return Some(Discontinuity(i));
        }
        if row.hash != hasher(row.content.prev, row.content) {
          assert !LinkedAt(hasher, view, i);
          return Some(HashMismatch(i));
        }
        previous := row.hash;
      }
      error := None;
    }

    method VerifyChain() returns (error: Option<ChainError>)
      ensures error.None? <==> Linked(hasher, rows)
      ensures error.Some? ==> FirstError(hasher, rows, error.value)
    {
      error := Walk(rows);
    }

    method Select(n: int) returns (view: seq<Row>)
      ensures view == Upto(rows, n)
    {
      view := [];
      for i := 0 to |rows|
        invariant view == Upto(rows[..i], n)
      {
        assert rows[..i + 1][..i] == rows[..i];
        if rows[i].content.num <= n {
          view := view + [rows[i]];
        }
      }
      assert rows[..|rows|] == rows;
    }

    /** Succeeds exactly when the rows numbered at most `n` are 1..n and correctly linked. */
    method VerifyThrough(n: int) returns (r: Result<Row, ChainError>)
      ensures r.Ok? <==> ValidThrough(hasher, rows, n)
      ensures r.Ok? ==> Verdict(hasher, rows, n) == Some(r.value) && r.value.content.num == n
      ensures r.Err? && r.error != InvalidNumber && r.error != NotFound ==> FirstError(hasher, Upto(rows, n), r.error)
      ensures r == Err(NotFound) ==> n >= 1 && Linked(hasher, Upto(rows, n)) && |Upto(rows, n)| < n
      ensures r == Err(InvalidNumber) <==> n < 1
    {
      if n < 1 {
        return Err(InvalidNumber);
      }
      var view := Select(n);
      var error := Walk(view);
      if error.Some? {
        return Err(error.value);
      }
      UptoBound(rows, n);
      var verified: Option<Row> := None;
      for i := 0 to |view|
        invariant verified == if n <= i then Some(view[n - 1]) else None
      {
        assert LinkedAt(hasher, view, i);
        if view[i].content.num == n {
          verified := Some(view[i]);
        }
      }
      if verified.None? {
        return Err(NotFound);
      }
      assert LinkedAt(hasher, view, |view| - 1);
      return Ok(verified.value);
    }

    /** The stored hash of row `n`, fetched right after an append to make a receipt. */
    method RowHash(n: int) returns (r: Result<Hash, ChainError>)
      ensures r.Ok? ==> exists i | 0 <= i < |rows| :: rows[i].content.num == n && r.value == rows[i].hash
      ensures r.Err? <==> n < 1 || forall i | 0 <= i < |rows| :: rows[i].content.num != n
    {
      if n < 1 {
        return Err(InvalidNumber);
      }
      for i := 0 to |rows|
        invariant forall k | 0 <= k < i :: rows[k].content.num != n
      {
        if rows[i].content.num == n {
          return Ok(rows[i].hash);
        }
      }
      r := Err(NotFound);
    }
  }

  // ---------------------------------------------------------------- the walk is exact

  lemma PrefixLinked(h: Hasher, rows: seq<Row>, i: nat)
    requires i <= |rows|
    requires forall k | 0 <= k < i :: LinkedAt(h, rows, k)
    ensures Linked(h, rows[..i])
  {
    forall k | 0 <= k < i ensures LinkedAt(h, rows[..i], k) {
      assert LinkedAt(h, rows, k);
    }
  }

  lemma {:induction false} UptoBound(rows: seq<Row>, n: int)
    ensures forall i | 0 <= i < |Upto(rows, n)| :: Upto(rows, n)[i].content.num <= n
    ensures |Upto(rows, n)| <= |rows|
  {
    if rows != [] {
      UptoBound(rows[..|rows| - 1], n);
    }
  }

  /** On an ordered log the rows numbered at most `n` form a prefix. */
  lemma {:induction false} UptoIsPrefix(rows: seq<Row>, n: int)
    requires Ordered(rows)
    ensures Upto(rows, n) <= rows
    ensures LastNum(rows) <= n ==> Upto(rows, n) == rows
    ensures forall i | |Upto(rows, n)| <= i < |rows| :: rows[i].content.num > n
  {
    if rows != [] {
      UptoIsPrefix(rows[..|rows| - 1], n);
    }
  }

  /** An intact log is ordered, and the bounded walk to `n` covers exactly its first `n` rows. */
  lemma {:induction false} LinkedUpto(h: Hasher, rows: seq<Row>, n: int)
    requires Linked(h, rows) && 1 <= n <= |rows|
    ensures Ordered(rows) && Upto(rows, n) == rows[..n]
    ensures ValidThrough(h, rows, n) && Verdict(h, rows, n) == Some(rows[n - 1])
    ensures LastNum(rows) == |rows|
  {
    forall i, j | 0 <= i < j < |rows| ensures rows[i].content.num < rows[j].content.num {
      assert LinkedAt(h, rows, i) && LinkedAt(h, rows, j);
    }
    UptoIsPrefix(rows, n);
    UptoBound(rows, n);
    var p := Upto(rows, n);
    assert LinkedAt(h, rows, |rows| - 1);
    assert |p| < |rows| ==> LinkedAt(h, rows, |p|);
    assert n < |rows| ==> LinkedAt(h, rows, n);
    PrefixLinked(h, rows, n);
  }

  /** "Chain verified" means the same to the full walk and to the receipt gate. */
  lemma FullWalkIsBoundedWalk(h: Hasher, rows: seq<Row>)
    requires Ordered(rows)
    ensures Linked(h, rows) <==> rows == [] || ValidThrough(h, rows, LastNum(rows))
  {
    UptoIsPrefix(rows, LastNum(rows));
    if Linked(h, rows) && rows != [] {
      LinkedUpto(h, rows, |rows|);
    }
  }

  // ---------------------------------------------------------------- prefix stability

  lemma AppendKeepsChain(h: Hasher, rows: seq<Row>, e: Entry)
    requires Linked(h, rows)
    ensures Linked(h, Append(h, rows, e)) && Ordered(Append(h, rows, e))
    ensures LastNum(Append(h, rows, e)) == |rows| + 1
  {
    var rows' := Append(h, rows, e);
    if rows != [] {
      LinkedUpto(h, rows, |rows|);
    }
    forall i | 0 <= i < |rows'| ensures LinkedAt(h, rows', i) {
      if i < |rows| {
        assert LinkedAt(h, rows, i);
      }
    }
    LinkedUpto(h, rows', |rows'|);
  }

  lemma AppendIsOrdered(h: Hasher, rows: seq<Row>, e: Entry, n: int)
    requires Ordered(rows)
    ensures Ordered(Append(h, rows, e))
    ensures Upto(Append(h, rows, e), n) == Upto(rows, n) + if n > LastNum(rows) then [NextRow(h, rows, e)] else []
  {
    assert Append(h, rows, e)[..|rows|] == rows;
  }

  lemma LinkedPrefix(h: Hasher, rows: seq<Row>, rows': seq<Row>)
    requires rows <= rows' && Linked(h, rows')
    ensures Linked(h, rows)
  {
    forall i | 0 <= i < |rows| ensures LinkedAt(h, rows, i) {
      assert LinkedAt(h, rows', i);
    }
  }

  /** An append changes no verdict already given. */
  lemma AppendIsPrefixStable(h: Hasher, rows: seq<Row>, e: Entry, n: int)
    requires Ordered(rows) && n <= LastNum(rows)
    ensures Verdict(h, Append(h, rows, e), n) == Verdict(h, rows, n)
  {
    AppendIsOrdered(h, rows, e, n);
    hide Ordered, Append, Linked;
    assert Upto(Append(h, rows, e), n) == Upto(rows, n);
  }

  /** The number an append assigns verifies exactly if the whole log did. */
  lemma AppendedVerifiesIffChainDid(h: Hasher, rows: seq<Row>, e: Entry)
    requires Ordered(rows)
    ensures ValidThrough(h, Append(h, rows, e), LastNum(rows) + 1) <==> Linked(h, rows)
  {
    var rows', n := Append(h, rows, e), LastNum(rows) + 1;
    AppendIsOrdered(h, rows, e, n);
    UptoIsPrefix(rows, n);
    assert Upto(rows', n) == rows';
    if Linked(h, rows) {
      AppendKeepsChain(h, rows, e);
      LinkedUpto(h, rows', |rows'|);
    }
    if Linked(h, rows') {
      LinkedPrefix(h, rows, rows');
    }
  }

  /** A receipt that verifies keeps verifying, to the same row, after any further appends. */
  lemma {:induction false} AppendAllIsPrefixStable(h: Hasher, rows: seq<Row>, es: seq<Entry>, n: int)
    requires Linked(h, rows) && 1 <= n <= |rows|
    ensures Linked(h, AppendAll(h, rows, es)) && rows <= AppendAll(h, rows, es)
    ensures Verdict(h, AppendAll(h, rows, es), n) == Verdict(h, rows, n) == Some(rows[n - 1])
    decreases |es|
  {
    LinkedUpto(h, rows, n);
    if es != [] {
      AppendKeepsChain(h, rows, es[0]);
      AppendAllIsPrefixStable(h, Append(h, rows, es[0]), es[1..], n);
    }
  }

  // ---------------------------------------------------------------- tamper evidence

  /** Two different hashed payloads, one from each log at the same place, with one hash. */
  ghost predicate CollisionAt(h: Hasher, a: seq<Row>, b: seq<Row>, i: nat) {
    && i < |a| && i < |b|
    && (a[i].content.prev, a[i].content) != (b[i].content.prev, b[i].content)
    && h(a[i].content.prev, a[i].content) == h(b[i].content.prev, b[i].content)
  }

  ghost predicate CollisionFree(h: Hasher) {
    forall p, c, p', c' :: h(p, c) == h(p', c') ==> p == p' && c == c'
  }

  lemma {:induction false} LinkedAgree(h: Hasher, a: seq<Row>, b: seq<Row>, n: nat)
    requires n <= |a| && n <= |b| && Linked(h, a) && Linked(h, b)
    requires n > 0 ==> a[n - 1].hash == b[n - 1].hash
    ensures a[..n] == b[..n] || exists i: nat | i < n :: CollisionAt(h, a, b, i)
  {
    if n > 0 {
      assert LinkedAt(h, a, n - 1) && LinkedAt(h, b, n - 1);
      if a[n - 1].content != b[n - 1].content {
        assert CollisionAt(h, a, b, n - 1);
      } else {
        LinkedAgree(h, a, b, n - 1);
        assert a[..n] == a[..n - 1] + [a[n - 1]] && b[..n] == b[..n - 1] + [b[n - 1]];
      }
    }
  }

  /**
   Two logs that both verify through `n` and hold the same hash at `n` agree on every row
   1..n, or they exhibit a collision of the row hash.
   */
  lemma TamperEvidence(h: Hasher, a: seq<Row>, b: seq<Row>, n: int)
    requires ValidThrough(h, a, n) && ValidThrough(h, b, n)
    requires Verdict(h, a, n).value.hash == Verdict(h, b, n).value.hash
    ensures Upto(a, n) == Upto(b, n) || exists i: nat | i < n :: CollisionAt(h, Upto(a, n), Upto(b, n), i)
    ensures CollisionFree(h) ==> Upto(a, n) == Upto(b, n)
  {
    var p, q := Upto(a, n), Upto(b, n);
    LinkedAgree(h, p, q, n);
    assert p[..n] == p && q[..n] == q;
  }

  /**
   An edited, removed or re-linked row cannot keep a stored receipt valid: under a
   collision-free hash a log that differs from the original anywhere in 1..n fails the
   bounded walk to `n` or shows another hash there.
   */
  lemma TamperedReceiptIsRefused(h: Hasher, original: seq<Row>, tampered: seq<Row>, n: int)
    requires CollisionFree(h) && ValidThrough(h, original, n)
    requires Upto(tampered, n) != Upto(original, n)
    ensures match Verdict(h, tampered, n)
            case None => true
            case Some(row) => row.hash != Verdict(h, original, n).value.hash
  {
    if ValidThrough(h, tampered, n) && Verdict(h, tampered, n).value.hash == Verdict(h, original, n).value.hash {
      TamperEvidence(h, tampered, original, n);
    }
  }
}
