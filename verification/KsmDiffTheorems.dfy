/** What the KSM diff says: one row for each key, whatever the order of the snapshot
    (keeper_sdk/core/ksm_diff.py). */
module KsmDiffTheorems {
  import opened Json
  import opened OrderedDict
  import opened Sorting
  import opened Plans
  import opened KeyedDiff
  import opened KsmDiff

  // ------------------------------------------------------------------ the diff by key

  function VerdictFor(desired: seq<Obj>, live: seq<Obj>, allowDelete: bool, key: string): Option<Change> {
    Verdict(KsmRules(allowDelete), SidesOf(desired, live), key)
  }

  /** The kind of row that the objects of one key call for. */
  function KindFor(d: seq<Obj>, l: seq<Obj>, allowDelete: bool): Kind {
    if |l| > 1 then Conflict
    else if l == [] then Create
    else if d == [] then (if allowDelete then Delete else Skip)
    else if Drift(l[0].payload, d[0].payload) != {} then Update
    else Noop
  }

  /** Each key in desired or live gets exactly one row, of the right kind, and no other key
      gets any. */
  lemma KsmRowsPartition(desired: seq<Obj>, live: seq<Obj>, allowDelete: bool)
    requires DistinctKeys(desired)
    ensures var rows := TaggedChanges(desired, live, allowDelete);
            && DistinctTags(rows)
            && (forall k: string, c :: Tagged(k, c) in rows <==> VerdictFor(desired, live, allowDelete, k) == Some(c))
    ensures forall k ::
              var d, l, v := With(desired, k), With(live, k), VerdictFor(desired, live, allowDelete, k);
              (v.Some? <==> d != [] || l != []) && (v.Some? ==> v.value.kind == KindFor(d, l, allowDelete))
  {
    var rules, s := KsmRules(allowDelete), SidesOf(desired, live);
    RowsPartition(rules, s);
    forall k: string, c ensures Tagged(k, c) in Rows(rules, s) <==> Verdict(rules, s, k) == Some(c) {
      var t := Tagged(k, c);
      assert t in Rows(rules, s) <==> Verdict(rules, s, t.key) == Some(t.row);
    }
  }

  // ------------------------------------------------------------------ order-independence

  /** The text by which a row is sorted within its kind and block. */
  function SortText(o: Obj): string {
    if o.uidRef != "" then o.uidRef else o.title
  }

  ghost predicate DistinctRefs(objs: seq<Obj>) {
    forall a, b | a in objs && b in objs && a.block == b.block && SortText(a) == SortText(b) :: a == b
  }

  lemma VerdictOfPermutation(desired: seq<Obj>, live: seq<Obj>, live': seq<Obj>, allowDelete: bool, key: string)
    requires DistinctKeys(live) && DistinctKeys(live') && multiset(live) == multiset(live')
    ensures VerdictFor(desired, live, allowDelete, key) == VerdictFor(desired, live', allowDelete, key)
  {
    PermutationsShareMembers(live, live');
    HavingMembers(live, KEY_OF, key);
    HavingMembers(live', KEY_OF, key);
    if o :| o in live && o.key == key {
      HavingIs(live, KEY_OF, o);
      HavingIs(live', KEY_OF, o);
    }
  }

  lemma SortKeyOf(o: Obj, c: Change)
    requires c.uidRef == Some(o.uidRef) && c.resourceType == ResourceOf(o.block) && c.title == o.title
    ensures SortKey(c) == Key(KindRank(c.kind), RankOf(o.block), SortText(o))
  {
    RanksMatch(o.block);
  }

  /** Where a row comes from decides its kind, and its sort key its object. */
  lemma RowOrigin(desired: seq<Obj>, live: seq<Obj>, allowDelete: bool, t: Tagged<Change>) returns (o: Obj)
    requires DistinctKeys(desired) && DistinctKeys(live) && t in TaggedChanges(desired, live, allowDelete)
    ensures t.key == o.key && SortKey(t.row) == Key(KindRank(t.row.kind), RankOf(o.block), SortText(o))
    ensures KindRank(t.row.kind) < 3 ==> o in desired
    ensures KindRank(t.row.kind) >= 3 ==> o in live
  {
    hide Rows, Having, Drift, DeltaOf, SortKey;
    KsmRowsPartition(desired, live, allowDelete);
    HavingMembers(desired, KEY_OF, t.key);
    HavingMembers(live, KEY_OF, t.key);
    HavingOfDistinct(live, KEY_OF, t.key);
    var d, l := With(desired, t.key), With(live, t.key);
    if d != [] {
      o := d[0];
      assert o in d;
      SortKeyOf(o, if l == [] then CreateChange(o) else MatchedChange(o, l[0]));
    } else {
      o := l[0];
      assert o in l;
      SortKeyOf(o, OrphanChange(o, allowDelete));
    }
  }

  lemma SortKeyDecides(desired: seq<Obj>, live: seq<Obj>, allowDelete: bool, s: Tagged<Change>, t: Tagged<Change>)
    requires DistinctKeys(desired) && DistinctKeys(live) && DistinctRefs(desired) && DistinctRefs(live)
    requires s in TaggedChanges(desired, live, allowDelete) && t in TaggedChanges(desired, live, allowDelete)
    requires SortKey(s.row) == SortKey(t.row)
    ensures s == t
  {
    var o := RowOrigin(desired, live, allowDelete, s);
    var x := RowOrigin(desired, live, allowDelete, t);
    RanksDiffer(o.block, x.block);
    KsmRowsPartition(desired, live, allowDelete);
  }

  lemma SameRows(desired: seq<Obj>, live: seq<Obj>, live': seq<Obj>, allowDelete: bool)
    requires DistinctKeys(desired) && DistinctKeys(live) && multiset(live) == multiset(live')
    ensures multiset(TaggedChanges(desired, live, allowDelete)) == multiset(TaggedChanges(desired, live', allowDelete))
  {
    var rows, rows' := TaggedChanges(desired, live, allowDelete), TaggedChanges(desired, live', allowDelete);
    PermutationStaysDistinct(live, live', KEY_OF);
    KsmRowsPartition(desired, live, allowDelete);
    KsmRowsPartition(desired, live', allowDelete);
    forall t: Tagged<Change> ensures multiset(rows)[t] == multiset(rows')[t] {
      VerdictOfPermutation(desired, live, live', allowDelete, t.key);
      DistinctTagsCount(rows, t);
      DistinctTagsCount(rows', t);
    }
  }

  /** Without duplicate live keys, and with distinct uid_refs in each block, the result does
      not depend on the order in which the snapshot lists its rows. */
  lemma OrderDoesNotMatter(desired: seq<Obj>, live: seq<Obj>, live': seq<Obj>, allowDelete: bool)
    requires DistinctKeys(desired) && DistinctKeys(live) && multiset(live) == multiset(live')
    requires DistinctRefs(desired) && DistinctRefs(live)
    ensures Diff(desired, live, allowDelete) == Diff(desired, live', allowDelete)
  {
    var rows, rows' := TaggedChanges(desired, live, allowDelete), TaggedChanges(desired, live', allowDelete);
    SameRows(desired, live, live', allowDelete);
    UntaggedPermutation(rows, rows');
    var cs := Untagged(rows);
    forall a, b | a in cs && b in cs && SortKey(a) == SortKey(b) ensures a == b {
      var i :| 0 <= i < |rows| && rows[i].row == a;
      var j :| 0 <= j < |rows| && rows[j].row == b;
      SortKeyDecides(desired, live, allowDelete, rows[i], rows[j]);
    }
    PermutationsSortAlike(cs, Untagged(rows'), SortKey);
  }

  lemma RanksDiffer(a: Block, b: Block)
    ensures RankOf(a) == RankOf(b) ==> a == b
  {}
}
