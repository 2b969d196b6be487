/** Python's `sorted(xs, key=...)`: a stable sort by a key.  Keys are tuples of at most
    two integers and a string, compared lexicographically; strings compare by code
    point.  A stable sort is characterised completely: two lists sort to the same
    list exactly when they agree key by key, in order. */
module Sorting {

  datatype Key = Key(major: int, minor: int, text: string)

  predicate StrLe(a: string, b: string) {
    a == "" || (b != "" && (a[0] < b[0] || (a[0] == b[0] && StrLe(a[1..], b[1..]))))
  }

  predicate StrLt(a: string, b: string) {
    a != b && StrLe(a, b)
  }

  predicate KeyLe(a: Key, b: Key) {
    a.major < b.major
    || (a.major == b.major && (a.minor < b.minor || (a.minor == b.minor && StrLe(a.text, b.text))))
  }

  function Insert<T>(x: T, ys: seq<T>, key: T -> Key): seq<T> {
    if ys == [] || KeyLe(key(x), key(ys[0])) then [x] + ys
    else [ys[0]] + Insert(x, ys[1..], key)
  }

  function SortBy<T>(xs: seq<T>, key: T -> Key): seq<T> {
    if xs == [] then [] else Insert(xs[0], SortBy(xs[1..], key), key)
  }

  ghost predicate Sorted<T>(xs: seq<T>, key: T -> Key) {
    forall i, j | 0 <= i < j < |xs| :: KeyLe(key(xs[i]), key(xs[j]))
  }

  /** The elements with one given key, in list order. */
  function Group<T>(xs: seq<T>, key: T -> Key, k: Key): seq<T> {
    if xs == [] then []
    else (if key(xs[0]) == k then [xs[0]] else []) + Group(xs[1..], key, k)
  }

  // ------------------------------------------------------------ string and key order

  lemma StrLeReflexive(a: string)
    ensures StrLe(a, a)
  {}

  lemma StrLeTotal(a: string, b: string)
    ensures StrLe(a, b) || StrLe(b, a)
  {}

  lemma {:induction false} StrLeAntisymmetric(a: string, b: string)
    requires StrLe(a, b) && StrLe(b, a)
    ensures a == b
  {
    if a != "" && b != "" {
      StrLeAntisymmetric(a[1..], b[1..]);
      assert a == [a[0]] + a[1..] && b == [b[0]] + b[1..];
    }
  }

  lemma {:induction false} StrLeTransitive(a: string, b: string, c: string)
    requires StrLe(a, b) && StrLe(b, c)
    ensures StrLe(a, c)
  {
    if a != "" && a[0] == b[0] == c[0] {
      StrLeTransitive(a[1..], b[1..], c[1..]);
    }
  }

  /** The first differing character decides. */
  lemma {:induction false} StrLtAt(a: string, b: string, i: nat)
    requires i < |a| && i < |b| && a[..i] == b[..i] && a[i] < b[i]
    ensures StrLt(a, b)
  {
    if i > 0 {
      assert a[0] == a[..i][0] == b[..i][0] == b[0];
      assert a[1..][..i-1] == a[..i][1..] == b[..i][1..] == b[1..][..i-1];
      StrLtAt(a[1..], b[1..], i - 1);
    }
  }

  lemma KeyLeTotal(a: Key, b: Key)
    ensures KeyLe(a, b) || KeyLe(b, a)
  {
    StrLeTotal(a.text, b.text);
  }

  lemma KeyLeAntisymmetric(a: Key, b: Key)
    requires KeyLe(a, b) && KeyLe(b, a)
    ensures a == b
  {
    if a.major == b.major && a.minor == b.minor {
      StrLeAntisymmetric(a.text, b.text);
    }
  }

  lemma KeyLeTransitive(a: Key, b: Key, c: Key)
    requires KeyLe(a, b) && KeyLe(b, c)
    ensures KeyLe(a, c)
  {
    if a.major == b.major == c.major && a.minor == b.minor == c.minor {
      StrLeTransitive(a.text, b.text, c.text);
    }
  }

  // ---------------------------------------------------------------- what sorting does

  lemma {:induction false} InsertIsPermutation<T>(x: T, ys: seq<T>, key: T -> Key)
    ensures multiset(Insert(x, ys, key)) == multiset([x] + ys)
  {
    if ys != [] && !KeyLe(key(x), key(ys[0])) {
      InsertIsPermutation(x, ys[1..], key);
      assert ys == [ys[0]] + ys[1..];
    }
  }

  lemma {:induction false} SortIsPermutation<T>(xs: seq<T>, key: T -> Key)
    ensures multiset(SortBy(xs, key)) == multiset(xs)
    ensures |SortBy(xs, key)| == |xs|
  {
    if xs != [] {
      SortIsPermutation(xs[1..], key);
      InsertIsPermutation(xs[0], SortBy(xs[1..], key), key);
      assert xs == [xs[0]] + xs[1..];
    }
    assert |multiset(SortBy(xs, key))| == |multiset(xs)|;
  }

  lemma SortKeepsMembers<T>(xs: seq<T>, key: T -> Key)
    ensures forall x :: x in SortBy(xs, key) <==> x in xs
  {
    SortIsPermutation(xs, key);
    forall x ensures x in SortBy(xs, key) <==> x in xs {
      assert x in multiset(SortBy(xs, key)) <==> x in multiset(xs);
    }
  }

  lemma {:induction false} InsertSorted<T>(x: T, ys: seq<T>, key: T -> Key)
    requires Sorted(ys, key)
    ensures Sorted(Insert(x, ys, key), key)
  {
    if ys == [] {
    } else if KeyLe(key(x), key(ys[0])) {
      forall j | 0 <= j < |ys| ensures KeyLe(key(x), key(ys[j])) {
        if j > 0 { KeyLeTransitive(key(x), key(ys[0]), key(ys[j])); }
      }
    } else {
      KeyLeTotal(key(x), key(ys[0]));
      var rest := Insert(x, ys[1..], key);
      InsertSorted(x, ys[1..], key);
      InsertIsPermutation(x, ys[1..], key);
      forall j | 0 <= j < |rest| ensures KeyLe(key(ys[0]), key(rest[j])) {
        assert rest[j] in multiset(rest);
        assert rest[j] in [x] + ys[1..];
        if rest[j] != x {
          var i :| 0 <= i < |ys[1..]| && ys[1..][i] == rest[j];
          assert ys[i + 1] == rest[j];
        }
      }
    }
  }

  lemma {:induction false} SortSorts<T>(xs: seq<T>, key: T -> Key)
    ensures Sorted(SortBy(xs, key), key)
  {
    if xs != [] {
      SortSorts(xs[1..], key);
      InsertSorted(xs[0], SortBy(xs[1..], key), key);
    }
  }

  lemma {:induction false} InsertGroup<T>(x: T, ys: seq<T>, key: T -> Key, k: Key)
    ensures Group(Insert(x, ys, key), key, k) == Group([x] + ys, key, k)
  {
    if ys != [] && !KeyLe(key(x), key(ys[0])) {
      InsertGroup(x, ys[1..], key, k);
      StrLeReflexive(key(x).text);
      assert key(x) != key(ys[0]);
      assert ([x] + ys)[1..] == ys && ([x] + ys[1..])[1..] == ys[1..];
      var out := Insert(x, ys, key);
      assert out[0] == ys[0] && out[1..] == Insert(x, ys[1..], key);
    }
  }

  /** Stability: sorting reorders nothing within one key. */
  lemma {:induction false} SortIsStable<T>(xs: seq<T>, key: T -> Key, k: Key)
    ensures Group(SortBy(xs, key), key, k) == Group(xs, key, k)
  {
    if xs != [] {
      SortIsStable(xs[1..], key, k);
      var rest := SortBy(xs[1..], key);
      InsertGroup(xs[0], rest, key, k);
      assert ([xs[0]] + rest)[1..] == rest;
    }
  }

  lemma {:induction false} GroupHasIts<T>(xs: seq<T>, key: T -> Key, i: nat)
    requires i < |xs|
    ensures Group(xs, key, key(xs[i])) != []
  {
    if i > 0 { GroupHasIts(xs[1..], key, i - 1); }
  }

  lemma {:induction false} GroupMembers<T>(xs: seq<T>, key: T -> Key, k: Key)
    ensures forall x :: x in Group(xs, key, k) <==> x in xs && key(x) == k
  {
    if xs != [] {
      GroupMembers(xs[1..], key, k);
      assert xs == [xs[0]] + xs[1..];
    }
  }

  lemma EqualGroupsNonEmpty<T>(xs: seq<T>, ys: seq<T>, key: T -> Key)
    requires forall k :: Group(xs, key, k) == Group(ys, key, k)
    requires xs != []
    ensures ys != []
  {
    GroupHasIts(xs, key, 0);
    assert Group(ys, key, key(xs[0])) == Group(xs, key, key(xs[0]));
  }

  /** Sorted lists that agree key by key are the same list. */
  lemma {:induction false} SortedWithEqualGroups<T>(xs: seq<T>, ys: seq<T>, key: T -> Key)
    requires Sorted(xs, key) && Sorted(ys, key)
    requires forall k :: Group(xs, key, k) == Group(ys, key, k)
    ensures xs == ys
  {
    if xs != [] { EqualGroupsNonEmpty(xs, ys, key); }
    if ys != [] { EqualGroupsNonEmpty(ys, xs, key); }
    if xs != [] {
      var kx, ky := key(xs[0]), key(ys[0]);
      GroupHasIts(xs, key, 0);
      GroupHasIts(ys, key, 0);
      assert Group(xs, key, kx) == Group(ys, key, kx) && Group(xs, key, ky) == Group(ys, key, ky);
      HeadIsLeast(xs, key, ky);
      HeadIsLeast(ys, key, kx);
      KeyLeAntisymmetric(kx, ky);
      assert Group(xs, key, kx)[0] == xs[0] && Group(ys, key, kx)[0] == ys[0];
      forall k ensures Group(xs[1..], key, k) == Group(ys[1..], key, k) {
        assert Group(xs, key, k) == Group(ys, key, k);
        assert Group(xs[1..], key, k) == if k == kx then Group(xs, key, k)[1..] else Group(xs, key, k);
        assert Group(ys[1..], key, k) == if k == kx then Group(ys, key, k)[1..] else Group(ys, key, k);
      }
      SortedWithEqualGroups(xs[1..], ys[1..], key);
      assert xs == [xs[0]] + xs[1..] && ys == [ys[0]] + ys[1..];
    }
  }

  lemma {:induction false} GroupHead<T>(xs: seq<T>, key: T -> Key, k: Key) returns (i: nat)
    requires Group(xs, key, k) != []
    ensures i < |xs| && key(xs[i]) == k
  {
    if key(xs[0]) == k {
      i := 0;
    } else {
      i := GroupHead(xs[1..], key, k);
      i := i + 1;
    }
  }

  lemma HeadIsLeast<T>(xs: seq<T>, key: T -> Key, k: Key)
    requires Sorted(xs, key) && Group(xs, key, k) != []
    ensures KeyLe(key(xs[0]), k)
  {
    var i := GroupHead(xs, key, k);
    StrLeReflexive(k.text);
  }

  ghost predicate GroupsAgree<T>(xs: seq<T>, ys: seq<T>, key: T -> Key) {
    forall k :: Group(xs, key, k) == Group(ys, key, k)
  }

  /** The whole truth about a stable sort. */
  lemma SortsAlikeIffGroupsAgree<T>(xs: seq<T>, ys: seq<T>, key: T -> Key)
    ensures SortBy(xs, key) == SortBy(ys, key) <==> GroupsAgree(xs, ys, key)
  {
    var sx, sy := SortBy(xs, key), SortBy(ys, key);
    forall k ensures Group(sx, key, k) == Group(xs, key, k) && Group(sy, key, k) == Group(ys, key, k) {
      SortIsStable(xs, key, k);
      SortIsStable(ys, key, k);
    }
    if GroupsAgree(xs, ys, key) {
      SortSorts(xs, key);
      SortSorts(ys, key);
      SortedWithEqualGroups(sx, sy, key);
    }
  }

  lemma {:induction false} SortOfSorted<T>(xs: seq<T>, key: T -> Key)
    requires Sorted(xs, key)
    ensures SortBy(xs, key) == xs
  {
    if |xs| > 1 {
      SortOfSorted(xs[1..], key);
      assert xs == [xs[0]] + xs[1..];
    }
  }

  lemma {:induction false} GroupOfOne<T>(xs: seq<T>, key: T -> Key, x: T)
    requires forall a | a in xs && key(a) == key(x) :: a == x
    ensures Group(xs, key, key(x)) == seq(multiset(xs)[x], _ => x)
  {
    if xs != [] {
      assert forall a :: a in xs[1..] ==> a in xs;
      assert xs[0] in xs;
      GroupOfOne(xs[1..], key, x);
      assert xs == [xs[0]] + xs[1..];
      assert multiset(xs)[x] == multiset(xs[1..])[x] + if xs[0] == x then 1 else 0;
      assert seq(1 + multiset(xs[1..])[x], _ => x) == [x] + seq(multiset(xs[1..])[x], _ => x);
    }
  }

  lemma {:induction false} GroupOfNone<T>(xs: seq<T>, key: T -> Key, k: Key)
    requires forall a | a in xs :: key(a) != k
    ensures Group(xs, key, k) == []
  {
    if xs != [] {
      assert forall a :: a in xs[1..] ==> a in xs;
      assert xs[0] in xs;
      GroupOfNone(xs[1..], key, k);
    }
  }

  lemma PermutationsShareMembers<T>(xs: seq<T>, ys: seq<T>)
    requires multiset(xs) == multiset(ys)
    ensures forall a :: a in xs <==> a in ys
  {
    forall a ensures a in xs <==> a in ys {
      assert a in xs <==> a in multiset(xs);
      assert a in ys <==> a in multiset(ys);
    }
  }

  /** Where the key determines the element, the order of the input does not matter. */
  lemma PermutationsSortAlike<T>(xs: seq<T>, ys: seq<T>, key: T -> Key)
    requires multiset(xs) == multiset(ys)
    requires forall a, b | a in xs && b in xs && key(a) == key(b) :: a == b
    ensures SortBy(xs, key) == SortBy(ys, key)
  {
    PermutationsShareMembers(xs, ys);
    forall k ensures Group(xs, key, k) == Group(ys, key, k) {
      if x :| x in xs && key(x) == k {
        GroupOfOne(xs, key, x);
        GroupOfOne(ys, key, x);
      } else {
        GroupOfNone(xs, key, k);
        GroupOfNone(ys, key, k);
      }
    }
    SortsAlikeIffGroupsAgree(xs, ys, key);
  }
}
