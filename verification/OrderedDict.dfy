/** A Python dict whose values carry their keys: insertion order matters to its readers, so
    it is the sequence of its values, with pairwise distinct keys. */
module OrderedDict {
  import opened Json

  ghost predicate DistinctBy<T, K>(xs: seq<T>, key: T -> K) {
    forall i, j | 0 <= i < j < |xs| :: key(xs[i]) != key(xs[j])
  }

  function Position<T, K(==)>(xs: seq<T>, key: T -> K, k: K): (i: nat)
    ensures i <= |xs|
    ensures i < |xs| ==> key(xs[i]) == k
    ensures forall j | 0 <= j < i :: key(xs[j]) != k
  {
    if xs == [] || key(xs[0]) == k then 0 else 1 + Position(xs[1..], key, k)
  }

  /** `d.get(k)` */
  function Lookup<T, K(==)>(xs: seq<T>, key: T -> K, k: K): (r: Option<T>)
    ensures r.Some? ==> r.value in xs && key(r.value) == k
    ensures r.None? ==> forall x | x in xs :: key(x) != k
  {
    var i := Position(xs, key, k);
    if i < |xs| then Some(xs[i]) else None
  }

  /** `d[key(x)] = x`: a key that is replaced keeps its place. */
  function Store<T, K(==)>(xs: seq<T>, key: T -> K, x: T): seq<T> {
    var i := Position(xs, key, key(x));
    if i < |xs| then xs[i := x] else xs + [x]
  }

  /** `d.pop(k, None)` */
  function Drop<T, K(==)>(xs: seq<T>, key: T -> K, k: K): seq<T> {
    var i := Position(xs, key, k);
    if i < |xs| then xs[..i] + xs[i + 1..] else xs
  }

  lemma PositionIs<T, K>(xs: seq<T>, key: T -> K, k: K, i: nat)
    requires i <= |xs|
    requires i < |xs| ==> key(xs[i]) == k
    requires forall j | 0 <= j < i :: key(xs[j]) != k
    ensures Position(xs, key, k) == i
  {}

  lemma LookupIs<T, K>(xs: seq<T>, key: T -> K, x: T)
    requires DistinctBy(xs, key) && x in xs
    ensures Lookup(xs, key, key(x)) == Some(x)
  {
    var i :| 0 <= i < |xs| && xs[i] == x;
    PositionIs(xs, key, key(x), i);
  }

  /** Storing is a map update. */
  lemma StoreIsUpdate<T, K>(xs: seq<T>, key: T -> K, x: T, k: K)
    requires DistinctBy(xs, key)
    ensures DistinctBy(Store(xs, key, x), key)
    ensures Lookup(Store(xs, key, x), key, k) == if k == key(x) then Some(x) else Lookup(xs, key, k)
    ensures forall y | y in Store(xs, key, x) :: y == x || y in xs
  {
    var i, out := Position(xs, key, key(x)), Store(xs, key, x);
    if k == key(x) {
      PositionIs(out, key, k, i);
    } else {
      var j := Position(xs, key, k);
      PositionIs(out, key, k, if j < |xs| then j else |out|);
    }
  }

  /** Dropping is a map removal. */
  lemma DropIsRemoval<T, K>(xs: seq<T>, key: T -> K, gone: K, k: K)
    requires DistinctBy(xs, key)
    ensures DistinctBy(Drop(xs, key, gone), key)
    ensures Lookup(Drop(xs, key, gone), key, k) == if k == gone then None else Lookup(xs, key, k)
    ensures forall y | y in Drop(xs, key, gone) :: y in xs
  {
    var i, out := Position(xs, key, gone), Drop(xs, key, gone);
    if i < |xs| {
      var j := Position(xs, key, k);
      PositionIs(out, key, k, if k == gone || j == |xs| then |out| else if j < i then j else j - 1);
    }
  }

  /** A key that is there keeps its place when something is stored ... */
  lemma StoreKeepsPosition<T, K>(xs: seq<T>, key: T -> K, x: T, k: K)
    requires Position(xs, key, k) < |xs|
    ensures Position(Store(xs, key, x), key, k) == Position(xs, key, k) < |Store(xs, key, x)|
  {
    PositionIs(Store(xs, key, x), key, k, Position(xs, key, k));
  }

  /** ... and its place among the others when something else is dropped. */
  lemma DropKeepsOrder<T, K>(xs: seq<T>, key: T -> K, gone: K, a: K, b: K)
    requires Position(xs, key, a) < Position(xs, key, b) < |xs| && gone != a && gone != b
    ensures var out := Drop(xs, key, gone); Position(out, key, a) < Position(out, key, b) < |out|
  {
    var g, i, j, out := Position(xs, key, gone), Position(xs, key, a), Position(xs, key, b), Drop(xs, key, gone);
    if g < |xs| {
      PositionIs(out, key, a, if g < i then i - 1 else i);
      PositionIs(out, key, b, if g < j then j - 1 else j);
    }
  }

  // ------------------------------------------------------------------------ permutations

  lemma CountTwice<T>(xs: seq<T>, i: nat, j: nat)
    requires i < j < |xs| && xs[i] == xs[j]
    ensures multiset(xs)[xs[i]] >= 2
  {
    assert xs == xs[..j] + [xs[j]] + xs[j + 1..];
    assert xs[..j][i] == xs[i];
    assert multiset(xs[..j])[xs[i]] >= 1;
  }

  lemma {:induction false} DistinctCount<T, K>(xs: seq<T>, key: T -> K, x: T)
    requires DistinctBy(xs, key)
    ensures multiset(xs)[x] <= 1
  {
    if xs != [] {
      DistinctCount(xs[1..], key, x);
      assert xs == [xs[0]] + xs[1..];
      assert forall i | 0 <= i < |xs[1..]| :: xs[1..][i] == xs[i + 1] && key(xs[i + 1]) != key(xs[0]);
    }
  }

  lemma PermutationStaysDistinct<T, K>(a: seq<T>, b: seq<T>, key: T -> K)
    requires DistinctBy(a, key) && multiset(a) == multiset(b)
    ensures DistinctBy(b, key)
  {
    forall i, j | 0 <= i < j < |b| && key(b[i]) == key(b[j]) ensures false {
      assert b[i] in multiset(a) && b[j] in multiset(a);
      var x :| 0 <= x < |a| && a[x] == b[i];
      var y :| 0 <= y < |a| && a[y] == b[j];
      assert x == y && b[i] == b[j];
      DistinctCount(a, key, b[i]);
      CountTwice(b, i, j);
    }
  }
}
