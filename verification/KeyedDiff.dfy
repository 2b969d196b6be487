/** The skeleton shared by the keyed diffs (keeper_sdk/core/ksm_diff.py,
    keeper_sdk/core/msp_diff.py): live rows are grouped by key; a desired object is created,
    matched or left to the conflict of its group; a live row nobody asked for is an orphan;
    a group of several rows is one conflict. */
module KeyedDiff {
  import opened Json
  import opened OrderedDict

  /** What each case has to say. */
  datatype Rules<!D, !L, !R> = Rules(create: D -> R, matched: (D, L) -> R, orphan: L -> R, duplicate: (L, seq<L>) -> R)

  datatype Sides<!D, !L> = Sides(desired: seq<D>, dkey: D -> string, live: seq<L>, lkey: L -> string)

  /** A row together with the key it is about. */
  datatype Tagged<R> = Tagged(key: string, row: R)

  // -------------------------------------------------------------------------- grouping

  /** The elements with a key, in order. */
  function Having<T>(xs: seq<T>, key: T -> string, k: string): seq<T> {
    if xs == [] then []
    else
      var n := |xs| - 1;
      Having(xs[..n], key, k) + if key(xs[n]) == k then [xs[n]] else []
  }

  predicate Has<T>(xs: seq<T>, key: T -> string, k: string) {
    Having(xs, key, k) != []
  }

  /** The keys of the groups, in order of first occurrence. */
  function FirstKeys<T>(xs: seq<T>, key: T -> string): seq<string> {
    if xs == [] then []
    else
      var n := |xs| - 1;
      FirstKeys(xs[..n], key) + if Has(xs[..n], key, key(xs[n])) then [] else [key(xs[n])]
  }

  /** `grouped` holds the groups of `xs`. */
  ghost predicate Groups<T>(grouped: map<string, seq<T>>, xs: seq<T>, key: T -> string) {
    forall k :: Having(xs, key, k) == if k in grouped then grouped[k] else []
  }

  function Added<T>(grouped: map<string, seq<T>>, k: string, x: T): map<string, seq<T>> {
    grouped[k := (if k in grouped then grouped[k] else []) + [x]]
  }

  lemma GroupsGrow<T>(grouped: map<string, seq<T>>, xs: seq<T>, key: T -> string, x: T)
    requires Groups(grouped, xs, key)
    ensures Groups(Added(grouped, key(x), x), xs + [x], key)
  {
    assert (xs + [x])[..|xs|] == xs;
  }

  lemma GroupsTell<T>(grouped: map<string, seq<T>>, xs: seq<T>, key: T -> string, k: string)
    requires Groups(grouped, xs, key) && forall j | j in grouped :: grouped[j] != []
    ensures k in grouped <==> Has(xs, key, k)
  {}

  /** The grouping loop. */
  method GroupBy<T>(xs: seq<T>, key: T -> string) returns (keys: seq<string>, grouped: map<string, seq<T>>)
    ensures keys == FirstKeys(xs, key) && Groups(grouped, xs, key)
    ensures forall k | k in keys :: k in grouped
  {
    keys, grouped := [], map[];
    assert Groups(grouped, xs[..0], key);
    hide Groups, Has;
    for i := 0 to |xs|
      invariant keys == FirstKeys(xs[..i], key) && Groups(grouped, xs[..i], key)
      invariant forall k | k in keys :: k in grouped
      invariant forall k | k in grouped :: grouped[k] != []
    {
      assert xs[..i + 1][..i] == xs[..i] && xs[..i] + [xs[i]] == xs[..i + 1];
      var k := key(xs[i]);
      GroupsGrow(grouped, xs[..i], key, xs[i]);
      GroupsTell(grouped, xs[..i], key, k);
      if k !in grouped { keys := keys + [k]; }
      grouped := Added(grouped, k, xs[i]);
    }
    assert xs[..|xs|] == xs;
  }

  // ---------------------------------------------------------------------------- the rows

  function DesiredRow<D, L, R>(rules: Rules<D, L, R>, s: Sides<D, L>, o: D): seq<Tagged<R>> {
    var matches := Having(s.live, s.lkey, s.dkey(o));
    if |matches| > 1 then []
    else [Tagged(s.dkey(o), if matches == [] then rules.create(o) else rules.matched(o, matches[0]))]
  }

  function DesiredRows<D, L, R>(rules: Rules<D, L, R>, s: Sides<D, L>, some: seq<D>): seq<Tagged<R>> {
    if some == [] then [] else DesiredRows(rules, s, some[..|some| - 1]) + DesiredRow(rules, s, some[|some| - 1])
  }

  function OrphanRow<D, L, R>(rules: Rules<D, L, R>, s: Sides<D, L>, k: string): seq<Tagged<R>> {
    var matches := Having(s.live, s.lkey, k);
    if |matches| == 1 && !Has(s.desired, s.dkey, k) then [Tagged(k, rules.orphan(matches[0]))] else []
  }

  function OrphanRows<D, L, R>(rules: Rules<D, L, R>, s: Sides<D, L>, keys: seq<string>): seq<Tagged<R>> {
    if keys == [] then [] else OrphanRows(rules, s, keys[..|keys| - 1]) + OrphanRow(rules, s, keys[|keys| - 1])
  }

  function DuplicateRow<D, L, R>(rules: Rules<D, L, R>, s: Sides<D, L>, k: string): seq<Tagged<R>> {
    var matches := Having(s.live, s.lkey, k);
    if |matches| > 1 then [Tagged(k, rules.duplicate(matches[0], matches))] else []
  }

  function DuplicateRows<D, L, R>(rules: Rules<D, L, R>, s: Sides<D, L>, keys: seq<string>): seq<Tagged<R>> {
    if keys == [] then [] else DuplicateRows(rules, s, keys[..|keys| - 1]) + DuplicateRow(rules, s, keys[|keys| - 1])
  }

  function Rows<D, L, R>(rules: Rules<D, L, R>, s: Sides<D, L>): seq<Tagged<R>> {
    var keys := FirstKeys(s.live, s.lkey);
    DesiredRows(rules, s, s.desired) + OrphanRows(rules, s, keys) + DuplicateRows(rules, s, keys)
  }

  function Untagged<R>(rows: seq<Tagged<R>>): seq<R> {
    seq(|rows|, i requires 0 <= i < |rows| => rows[i].row)
  }

  lemma UntaggedConcat<R>(a: seq<Tagged<R>>, b: seq<Tagged<R>>)
    ensures Untagged(a + b) == Untagged(a) + Untagged(b)
  {}

  lemma UntaggedMembers<R>(rows: seq<Tagged<R>>, c: R)
    ensures c in Untagged(rows) <==> exists k: string :: Tagged(k, c) in rows
  {
    if c in Untagged(rows) {
      var i :| 0 <= i < |rows| && rows[i].row == c;
      assert Tagged(rows[i].key, c) == rows[i];
    }
    if k: string :| Tagged(k, c) in rows {
      var i :| 0 <= i < |rows| && rows[i] == Tagged(k, c);
      assert Untagged(rows)[i] == c;
    }
  }

  // --------------------------------------------------------------------------- the loops

  lemma UntaggedOne<R>(t: Tagged<R>)
    ensures Untagged([t]) == [t.row]
  {}

  lemma DesiredRowsGrow<D, L, R>(rules: Rules<D, L, R>, s: Sides<D, L>, i: nat)
    requires i < |s.desired|
    ensures Untagged(DesiredRows(rules, s, s.desired[..i + 1]))
         == Untagged(DesiredRows(rules, s, s.desired[..i])) + Untagged(DesiredRow(rules, s, s.desired[i]))
  {
    assert s.desired[..i + 1][..i] == s.desired[..i];
    UntaggedConcat(DesiredRows(rules, s, s.desired[..i]), DesiredRow(rules, s, s.desired[i]));
  }

  lemma OrphanRowsGrow<D, L, R>(rules: Rules<D, L, R>, s: Sides<D, L>, keys: seq<string>, i: nat)
    requires i < |keys|
    ensures Untagged(OrphanRows(rules, s, keys[..i + 1]))
         == Untagged(OrphanRows(rules, s, keys[..i])) + Untagged(OrphanRow(rules, s, keys[i]))
  {
    assert keys[..i + 1][..i] == keys[..i];
    UntaggedConcat(OrphanRows(rules, s, keys[..i]), OrphanRow(rules, s, keys[i]));
  }

  lemma DuplicateRowsGrow<D, L, R>(rules: Rules<D, L, R>, s: Sides<D, L>, keys: seq<string>, i: nat)
    requires i < |keys|
    ensures Untagged(DuplicateRows(rules, s, keys[..i + 1]))
         == Untagged(DuplicateRows(rules, s, keys[..i])) + Untagged(DuplicateRow(rules, s, keys[i]))
  {
    assert keys[..i + 1][..i] == keys[..i];
    UntaggedConcat(DuplicateRows(rules, s, keys[..i]), DuplicateRow(rules, s, keys[i]));
  }

  method ClassifyDesired<D, L, R>(rules: Rules<D, L, R>, s: Sides<D, L>, grouped: map<string, seq<L>>) returns (rows: seq<R>)
    requires Groups(grouped, s.live, s.lkey)
    ensures rows == Untagged(DesiredRows(rules, s, s.desired))
  {
    rows := [];
    for i := 0 to |s.desired|
      invariant rows == Untagged(DesiredRows(rules, s, s.desired[..i]))
    {
      var o := s.desired[i];
      var k := s.dkey(o);
      var matches := if k in grouped then grouped[k] else [];
      assert matches == Having(s.live, s.lkey, k);
      DesiredRowsGrow(rules, s, i);
      if |matches| <= 1 {
        var row := if matches == [] then rules.create(o) else rules.matched(o, matches[0]);
        UntaggedOne(Tagged(k, row));
        rows := rows + [row];
      }
    }
    assert s.desired[..|s.desired|] == s.desired;
  }

  method ClassifyOrphans<D, L, R>(rules: Rules<D, L, R>, s: Sides<D, L>, keys: seq<string>, grouped: map<string, seq<L>>)
    returns (rows: seq<R>)
    requires Groups(grouped, s.live, s.lkey) && forall k | k in keys :: k in grouped
    ensures rows == Untagged(OrphanRows(rules, s, keys))
  {
    rows := [];
    for i := 0 to |keys|
      invariant rows == Untagged(OrphanRows(rules, s, keys[..i]))
    {
      var matches := grouped[keys[i]];
      assert matches == Having(s.live, s.lkey, keys[i]);
      OrphanRowsGrow(rules, s, keys, i);
      if |matches| == 1 && !Has(s.desired, s.dkey, keys[i]) {
        UntaggedOne(Tagged(keys[i], rules.orphan(matches[0])));
        rows := rows + [rules.orphan(matches[0])];
      }
    }
    assert keys[..|keys|] == keys;
  }

  method ReportDuplicates<D, L, R>(rules: Rules<D, L, R>, s: Sides<D, L>, keys: seq<string>, grouped: map<string, seq<L>>)
    returns (rows: seq<R>)
    requires Groups(grouped, s.live, s.lkey) && forall k | k in keys :: k in grouped
    ensures rows == Untagged(DuplicateRows(rules, s, keys))
  {
    rows := [];
    for i := 0 to |keys|
      invariant rows == Untagged(DuplicateRows(rules, s, keys[..i]))
    {
      var matches := grouped[keys[i]];
      assert matches == Having(s.live, s.lkey, keys[i]);
      DuplicateRowsGrow(rules, s, keys, i);
      if |matches| > 1 {
        UntaggedOne(Tagged(keys[i], rules.duplicate(matches[0], matches)));
        rows := rows + [rules.duplicate(matches[0], matches)];
      }
    }
    assert keys[..|keys|] == keys;
  }

  /** The whole classification. */
  method Classify<D, L, R>(rules: Rules<D, L, R>, s: Sides<D, L>) returns (rows: seq<R>)
    ensures rows == Untagged(Rows(rules, s))
  {
    var keys, grouped := GroupBy(s.live, s.lkey);
    rows := ClassifyDesired(rules, s, grouped);
    var orphans := ClassifyOrphans(rules, s, keys, grouped);
    var duplicates := ReportDuplicates(rules, s, keys, grouped);
    UntaggedConcat(DesiredRows(rules, s, s.desired), OrphanRows(rules, s, keys));
    UntaggedConcat(DesiredRows(rules, s, s.desired) + OrphanRows(rules, s, keys), DuplicateRows(rules, s, keys));
    rows := rows + orphans + duplicates;
  }

  // -------------------------------------------------------------- facts about lookups

  lemma {:induction false} HavingMembers<T>(xs: seq<T>, key: T -> string, k: string)
    ensures forall x :: x in Having(xs, key, k) <==> x in xs && key(x) == k
    ensures Has(xs, key, k) <==> exists x :: x in xs && key(x) == k
  {
    if xs != [] {
      var n := |xs| - 1;
      HavingMembers(xs[..n], key, k);
      assert xs == xs[..n] + [xs[n]];
      if Has(xs, key, k) { assert Having(xs, key, k)[0] in Having(xs, key, k); }
    }
  }

  lemma HavingMember<T>(xs: seq<T>, key: T -> string, k: string, i: nat)
    requires i < |Having(xs, key, k)|
    ensures Having(xs, key, k)[i] in xs
  {
    HavingMembers(xs, key, k);
    assert Having(xs, key, k)[i] in Having(xs, key, k);
  }

  lemma {:induction false} HavingOfDistinct<T>(xs: seq<T>, key: T -> string, k: string)
    requires DistinctBy(xs, key)
    ensures |Having(xs, key, k)| <= 1
  {
    if xs != [] {
      var n := |xs| - 1;
      HavingOfDistinct(xs[..n], key, k);
      HavingMembers(xs[..n], key, key(xs[n]));
      assert forall x | x in xs[..n] :: key(x) != key(xs[n]);
    }
  }

  /** The one element with a key, when keys are distinct. */
  lemma HavingIs<T>(xs: seq<T>, key: T -> string, x: T)
    requires DistinctBy(xs, key) && x in xs
    ensures Having(xs, key, key(x)) == [x]
  {
    HavingOfDistinct(xs, key, key(x));
    HavingMembers(xs, key, key(x));
    assert x in Having(xs, key, key(x));
  }

  lemma HavingIsLookup<T>(xs: seq<T>, key: T -> string, k: string)
    requires DistinctBy(xs, key)
    ensures Having(xs, key, k) == match Lookup(xs, key, k) { case None => [] case Some(x) => [x] }
  {
    var found := Lookup(xs, key, k);
    if found.Some? { HavingIs(xs, key, found.value); } else { HavingMembers(xs, key, k); }
  }

  lemma {:induction false} FirstKeysAre<T>(xs: seq<T>, key: T -> string)
    ensures forall k :: k in FirstKeys(xs, key) <==> Has(xs, key, k)
    ensures DistinctStrings(FirstKeys(xs, key))
  {
    if xs != [] { FirstKeysAre(xs[..|xs| - 1], key); }
  }

  /** Building a dict from a list: a key that comes again replaces. */
  function IndexBy<T>(xs: seq<T>, key: T -> string): seq<T> {
    if xs == [] then [] else Store(IndexBy(xs[..|xs| - 1], key), key, xs[|xs| - 1])
  }

  method BuildIndex<T>(xs: seq<T>, key: T -> string) returns (out: seq<T>)
    ensures out == IndexBy(xs, key)
  {
    out := [];
    for i := 0 to |xs|
      invariant out == IndexBy(xs[..i], key)
    {
      assert xs[..i + 1][..i] == xs[..i];
      out := Store(out, key, xs[i]);
    }
    assert xs[..|xs|] == xs;
  }

  /** The index holds each key once, with the last element that has it. */
  lemma {:induction false} IndexKeepsLast<T>(xs: seq<T>, key: T -> string, k: string)
    ensures DistinctBy(IndexBy(xs, key), key)
    ensures var all := Having(xs, key, k); Having(IndexBy(xs, key), key, k) == if all == [] then [] else [all[|all| - 1]]
  {
    if xs != [] {
      var before, x := IndexBy(xs[..|xs| - 1], key), xs[|xs| - 1];
      IndexKeepsLast(xs[..|xs| - 1], key, k);
      StoreIsUpdate(before, key, x, k);
      HavingIsLookup(before, key, k);
      HavingIsLookup(IndexBy(xs, key), key, k);
    }
  }

  lemma IndexMembers<T>(xs: seq<T>, key: T -> string)
    ensures DistinctBy(IndexBy(xs, key), key) && forall x | x in IndexBy(xs, key) :: x in xs
  {
    IndexKeepsLast(xs, key, "");
    forall x | x in IndexBy(xs, key) ensures x in xs {
      IndexKeepsLast(xs, key, key(x));
      HavingIs(IndexBy(xs, key), key, x);
      var matches := Having(xs, key, key(x));
      HavingMembers(xs, key, key(x));
      assert matches != [] && x == matches[|matches| - 1];
      HavingMember(xs, key, key(x), |matches| - 1);
    }
  }

  // --------------------------------------------------------------------- the partition

  /** What should be said about a key, from the objects that carry it alone. */
  function Verdict<D, L, R>(rules: Rules<D, L, R>, s: Sides<D, L>, k: string): Option<R> {
    var d, l := Having(s.desired, s.dkey, k), Having(s.live, s.lkey, k);
    if |l| > 1 then Some(rules.duplicate(l[0], l))
    else if |l| == 1 then Some(if d == [] then rules.orphan(l[0]) else rules.matched(d[0], l[0]))
    else if d != [] then Some(rules.create(d[0]))
    else None
  }

  ghost predicate DistinctStrings(keys: seq<string>) {
    forall i, j | 0 <= i < j < |keys| :: keys[i] != keys[j]
  }

  ghost predicate DistinctTags<R>(rows: seq<Tagged<R>>) {
    forall i, j | 0 <= i < j < |rows| :: rows[i].key != rows[j].key
  }

  ghost predicate TellsDesired<D(!new), L(!new), R(!new)>(rows: seq<Tagged<R>>, rules: Rules<D, L, R>, s: Sides<D, L>, some: seq<D>) {
    forall t: Tagged<R> :: t in rows <==>
      Has(some, s.dkey, t.key) && |Having(s.live, s.lkey, t.key)| <= 1 && Verdict(rules, s, t.key) == Some(t.row)
  }

  ghost predicate TellsOrphans<D(!new), L(!new), R(!new)>(rows: seq<Tagged<R>>, rules: Rules<D, L, R>, s: Sides<D, L>, keys: seq<string>) {
    forall t: Tagged<R> :: t in rows <==>
      t.key in keys && |Having(s.live, s.lkey, t.key)| == 1 && !Has(s.desired, s.dkey, t.key)
      && Verdict(rules, s, t.key) == Some(t.row)
  }

  ghost predicate TellsDuplicates<D(!new), L(!new), R(!new)>(rows: seq<Tagged<R>>, rules: Rules<D, L, R>, s: Sides<D, L>, keys: seq<string>) {
    forall t: Tagged<R> :: t in rows <==>
      t.key in keys && |Having(s.live, s.lkey, t.key)| > 1 && Verdict(rules, s, t.key) == Some(t.row)
  }

  lemma DesiredRowTells<D(!new), L(!new), R(!new)>(rules: Rules<D, L, R>, s: Sides<D, L>, o: D)
    requires DistinctBy(s.desired, s.dkey) && o in s.desired
    ensures forall t: Tagged<R> :: t in DesiredRow(rules, s, o) <==>
              t.key == s.dkey(o) && |Having(s.live, s.lkey, t.key)| <= 1 && Verdict(rules, s, t.key) == Some(t.row)
  {
    HavingIs(s.desired, s.dkey, o);
  }

  lemma HasMore<T>(xs: seq<T>, key: T -> string, k: string)
    requires xs != []
    ensures Has(xs, key, k) <==> Has(xs[..|xs| - 1], key, k) || k == key(xs[|xs| - 1])
  {}

  lemma {:induction false} DesiredRowsTell<D(!new), L(!new), R(!new)>(rules: Rules<D, L, R>, s: Sides<D, L>, some: seq<D>)
    requires DistinctBy(s.desired, s.dkey) && some <= s.desired
    ensures DistinctTags(DesiredRows(rules, s, some))
    ensures TellsDesired(DesiredRows(rules, s, some), rules, s, some)
  {
    if some != [] {
      var n := |some| - 1;
      var before, o := some[..n], some[n];
      DesiredRowsTell(rules, s, before);
      assert s.desired[n] == o;
      DesiredRowTells(rules, s, o);
      forall k ensures Has(some, s.dkey, k) <==> Has(before, s.dkey, k) || k == s.dkey(o) { HasMore(some, s.dkey, k); }
      HavingMembers(before, s.dkey, s.dkey(o));
      assert forall i | 0 <= i < n :: before[i] == s.desired[i];
      assert !Has(before, s.dkey, s.dkey(o));
      TagsStayDistinct(DesiredRows(rules, s, before), DesiredRow(rules, s, o));
    }
  }

  lemma {:induction false} OrphanRowsTell<D(!new), L(!new), R(!new)>(rules: Rules<D, L, R>, s: Sides<D, L>, keys: seq<string>)
    requires DistinctStrings(keys)
    ensures DistinctTags(OrphanRows(rules, s, keys)) && TellsOrphans(OrphanRows(rules, s, keys), rules, s, keys)
  {
    if keys != [] {
      OrphanRowsTell(rules, s, keys[..|keys| - 1]);
      assert keys == keys[..|keys| - 1] + [keys[|keys| - 1]];
    }
  }

  lemma {:induction false} DuplicateRowsTell<D(!new), L(!new), R(!new)>(rules: Rules<D, L, R>, s: Sides<D, L>, keys: seq<string>)
    requires DistinctStrings(keys)
    ensures DistinctTags(DuplicateRows(rules, s, keys)) && TellsDuplicates(DuplicateRows(rules, s, keys), rules, s, keys)
  {
    if keys != [] {
      DuplicateRowsTell(rules, s, keys[..|keys| - 1]);
      assert keys == keys[..|keys| - 1] + [keys[|keys| - 1]];
    }
  }

  lemma TagsStayDistinct<R>(a: seq<Tagged<R>>, b: seq<Tagged<R>>)
    requires DistinctTags(a) && DistinctTags(b)
    requires forall s, t | s in a && t in b :: s.key != t.key
    ensures DistinctTags(a + b)
  {}

  /** The diff is a partition: every key that occurs on either side gets exactly one row,
      of the kind its objects call for, and no other key gets any. */
  lemma RowsPartition<D(!new), L(!new), R(!new)>(rules: Rules<D, L, R>, s: Sides<D, L>)
    requires DistinctBy(s.desired, s.dkey)
    ensures DistinctTags(Rows(rules, s))
    ensures forall t: Tagged<R> :: t in Rows(rules, s) <==> Verdict(rules, s, t.key) == Some(t.row)
    ensures forall k :: Verdict(rules, s, k).Some? <==> Has(s.desired, s.dkey, k) || Has(s.live, s.lkey, k)
  {
    var keys := FirstKeys(s.live, s.lkey);
    FirstKeysAre(s.live, s.lkey);
    var a, b, c := DesiredRows(rules, s, s.desired), OrphanRows(rules, s, keys), DuplicateRows(rules, s, keys);
    DesiredRowsTell(rules, s, s.desired);
    OrphanRowsTell(rules, s, keys);
    DuplicateRowsTell(rules, s, keys);
    TagsStayDistinct(a, b);
    TagsStayDistinct(a + b, c);
  }

  // -------------------------------------------------------------- rows in another order

  lemma {:induction false} DistinctTagsCount<R>(rows: seq<Tagged<R>>, t: Tagged<R>)
    requires DistinctTags(rows)
    ensures multiset(rows)[t] == if t in rows then 1 else 0
  {
    if rows != [] {
      DistinctTagsCount(rows[1..], t);
      assert rows == [rows[0]] + rows[1..];
      assert forall i | 0 <= i < |rows[1..]| :: rows[1..][i] == rows[i + 1] && rows[i + 1].key != rows[0].key;
    }
  }

  function Without<R>(rows: seq<Tagged<R>>, i: nat): seq<Tagged<R>>
    requires i < |rows|
  {
    rows[..i] + rows[i + 1..]
  }

  lemma WithoutOne<R>(rows: seq<Tagged<R>>, i: nat)
    requires i < |rows|
    ensures multiset(rows) == multiset(Without(rows, i)) + multiset{rows[i]}
    ensures multiset(Untagged(rows)) == multiset(Untagged(Without(rows, i))) + multiset{rows[i].row}
  {
    var before, after := rows[..i], rows[i + 1..];
    UntaggedConcat(before, after);
    assert rows == before + [rows[i]] + after;
    assert Untagged(rows) == Untagged(before) + [rows[i].row] + Untagged(after);
  }

  lemma SumsCancel<T>(a: multiset<T>, b: multiset<T>, x: T)
    requires a + multiset{x} == b + multiset{x}
    ensures a == b
  {
    assert a == (a + multiset{x}) - multiset{x} && b == (b + multiset{x}) - multiset{x};
  }

  lemma {:induction false} UntaggedPermutation<R>(a: seq<Tagged<R>>, b: seq<Tagged<R>>)
    requires multiset(a) == multiset(b)
    ensures multiset(Untagged(a)) == multiset(Untagged(b))
    decreases |a|
  {
    assert |a| == |multiset(a)| == |multiset(b)| == |b|;
    if a != [] {
      assert a[0] in multiset(b);
      var i :| 0 <= i < |b| && b[i] == a[0];
      WithoutOne(a, 0);
      WithoutOne(b, i);
      SumsCancel(multiset(Without(a, 0)), multiset(Without(b, i)), a[0]);
      UntaggedPermutation(Without(a, 0), Without(b, i));
    } else {
      assert b == [];
    }
  }

  lemma TagOfFirst<R>(cs: seq<R>, rows: seq<Tagged<R>>) returns (i: nat)
    requires cs != [] && multiset(cs) == multiset(Untagged(rows))
    ensures i < |rows| && rows[i].row == cs[0]
    ensures multiset(cs[1..]) == multiset(Untagged(Without(rows, i)))
  {
    assert cs[0] in multiset(Untagged(rows));
    i :| 0 <= i < |rows| && rows[i].row == cs[0];
    WithoutOne(rows, i);
    assert cs == [cs[0]] + cs[1..];
    SumsCancel(multiset(cs[1..]), multiset(Untagged(Without(rows, i))), cs[0]);
  }

  lemma WithoutKeepsOthers<R>(rows: seq<Tagged<R>>, i: nat)
    requires i < |rows| && DistinctTags(rows)
    ensures DistinctTags(Without(rows, i))
    ensures forall t :: t in rows <==> t == rows[i] || t in Without(rows, i)
    ensures forall t | t in Without(rows, i) :: t.key != rows[i].key
  {
    var rest := Without(rows, i);
    forall t | t in rows && t != rows[i] ensures t in rest {
      var j :| 0 <= j < |rows| && rows[j] == t;
      assert rest[if j < i then j else j - 1] == t;
    }
  }

  /** Untagged rows, in any order, are tagged rows in some order. */
  lemma {:induction false} OrderTags<R>(cs: seq<R>, rows: seq<Tagged<R>>) returns (ts: seq<Tagged<R>>)
    requires multiset(cs) == multiset(Untagged(rows)) && DistinctTags(rows)
    ensures Untagged(ts) == cs && DistinctTags(ts) && forall t :: t in ts <==> t in rows
    decreases |cs|
  {
    if cs == [] {
      assert |multiset(Untagged(rows))| == 0;
      ts := [];
    } else {
      var i := TagOfFirst(cs, rows);
      WithoutKeepsOthers(rows, i);
      var rest := OrderTags(cs[1..], Without(rows, i));
      ts := [rows[i]] + rest;
      assert Untagged(ts) == [cs[0]] + Untagged(rest);
    }
  }

  function TagAt<R>(ts: seq<Tagged<R>>, key: string): (r: Option<Tagged<R>>)
    ensures r.Some? ==> r.value in ts && r.value.key == key
    ensures r.None? ==> forall t | t in ts :: t.key != key
  {
    if ts == [] then None else if ts[0].key == key then Some(ts[0]) else TagAt(ts[1..], key)
  }

  /** The row about a key among all rows of a partition, in whatever order. */
  lemma TagOfVerdict<R(!new)>(ts: seq<Tagged<R>>, k: string, v: Option<R>)
    requires forall c: R :: Tagged(k, c) in ts <==> v == Some(c)
    ensures TagAt(ts, k) == match v { case None => None case Some(c) => Some(Tagged(k, c)) }
  {
    var found := TagAt(ts, k);
    assert v.Some? ==> Tagged(k, v.value) in ts;
    if found.Some? { assert found.value == Tagged(k, found.value.row); }
  }
}
