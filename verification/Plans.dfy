/** Changes and ordered plans (keeper_sdk/core/diff.py, keeper_sdk/core/planner.py). */
module Plans {
  import opened Json
  import opened Sorting

  datatype Kind = Create | Update | Delete | Noop | Skip | Conflict

  datatype Change = Change(
    kind: Kind, uidRef: Option<string>, resourceType: string, title: string,
    keeperUid: Option<string>, before: Dict, after: Dict)

  datatype Plan = Plan(manifestName: string, changes: seq<Change>, order: seq<string>)

  /** `s or None` */
  function Ref(s: string): Option<string> {
    if s == "" then None else Some(s)
  }

  /** `o or ""` */
  function OrEmpty(o: Option<string>): string {
    if o.Some? then o.value else ""
  }

  function OfKinds(cs: seq<Change>, kinds: set<Kind>): seq<Change> {
    if cs == [] then []
    else (if cs[0].kind in kinds then [cs[0]] else []) + OfKinds(cs[1..], kinds)
  }

  const UNRANKED := 10_000

  /** `{uid_ref: idx for idx, uid_ref in enumerate(order)}.get(ref, 10_000)`: the last
      position wins. */
  function Rank(order: seq<string>, ref: string): nat {
    if order == [] then UNRANKED
    else if order[|order| - 1] == ref then |order| - 1
    else Rank(order[..|order| - 1], ref)
  }

  function KeyForward(order: seq<string>): Change -> Key {
    (c: Change) => Key(0, Rank(order, OrEmpty(c.uidRef)), c.title)
  }

  function KeyReverse(order: seq<string>): Change -> Key {
    (c: Change) => var rank: int := Rank(order, OrEmpty(c.uidRef)); Key(0, -rank, c.title)
  }

  const FORWARD: set<Kind> := {Create, Update}

  /** `Plan.ordered`: creates and updates in dependency order, then deletes in reverse. */
  function Ordered(p: Plan): seq<Change> {
    SortBy(OfKinds(p.changes, FORWARD), KeyForward(p.order))
    + SortBy(OfKinds(p.changes, {Delete}), KeyReverse(p.order))
  }

  /** `_all_plan_changes`: the ordered rows, then the rest as listed. */
  function AllRows(p: Plan): seq<Change> {
    Ordered(p) + OfKinds(p.changes, {Noop, Skip, Conflict})
  }

  predicate IsClean(p: Plan) {
    forall c | c in p.changes :: c.kind == Noop || c.kind == Skip
  }

  lemma {:induction false} OfKindsMembers(cs: seq<Change>, kinds: set<Kind>)
    ensures forall c :: c in OfKinds(cs, kinds) <==> c in cs && c.kind in kinds
  {
    if cs != [] {
      OfKindsMembers(cs[1..], kinds);
      assert cs == [cs[0]] + cs[1..];
    }
  }

  lemma {:induction false} OfKindsSplit(cs: seq<Change>, a: set<Kind>, b: set<Kind>)
    requires a !! b
    ensures multiset(OfKinds(cs, a)) + multiset(OfKinds(cs, b)) == multiset(OfKinds(cs, a + b))
  {
    if cs != [] {
      OfKindsSplit(cs[1..], a, b);
    }
  }

  lemma MultisetMembers<T>(a: seq<T>, b: seq<T>)
    requires multiset(a) == multiset(b)
    ensures forall x :: x in a <==> x in b
  {
    PermutationsShareMembers(a, b);
  }

  /** Ordering loses and invents nothing. */
  lemma OrderedIsPermutation(p: Plan)
    ensures multiset(Ordered(p)) == multiset(OfKinds(p.changes, {Create, Update, Delete}))
    ensures forall c :: c in Ordered(p) <==> c in p.changes && c.kind in {Create, Update, Delete}
  {
    var fs, ds := OfKinds(p.changes, FORWARD), OfKinds(p.changes, {Delete});
    SortIsPermutation(fs, KeyForward(p.order));
    SortIsPermutation(ds, KeyReverse(p.order));
    assert multiset(Ordered(p)) == multiset(fs) + multiset(ds);
    OfKindsSplit(p.changes, FORWARD, {Delete});
    assert FORWARD + {Delete} == {Create, Update, Delete};
    MultisetMembers(Ordered(p), OfKinds(p.changes, {Create, Update, Delete}));
    OfKindsMembers(p.changes, {Create, Update, Delete});
  }

  /** A plan is clean exactly when it has nothing to execute and no conflict. */
  lemma CleanIff(p: Plan)
    ensures IsClean(p) <==> Ordered(p) == [] && forall c | c in p.changes :: c.kind != Conflict
  {
    OrderedIsPermutation(p);
    if IsClean(p) {
      assert forall c :: c !in Ordered(p);
      assert forall i | 0 <= i < |Ordered(p)| :: Ordered(p)[i] in Ordered(p);
    }
    assert Ordered(p) == [] ==> forall c :: c !in Ordered(p);
  }

  lemma {:induction false} NoneOfKinds(cs: seq<Change>, kinds: set<Kind>)
    requires forall c | c in cs :: c.kind !in kinds
    ensures OfKinds(cs, kinds) == []
  {
    if cs != [] { NoneOfKinds(cs[1..], kinds); }
  }

  lemma CleanPlansAreEmpty(p: Plan)
    requires IsClean(p)
    ensures Ordered(p) == []
  {
    hide Ordered, OfKinds;
    OrderedIsPermutation(p);
    NoneOfKinds(p.changes, {Create, Update, Delete});
    assert |multiset(Ordered(p))| == 0;
  }

  lemma {:induction false} OfAllKinds(cs: seq<Change>, kinds: set<Kind>)
    requires forall c | c in cs :: c.kind in kinds
    ensures OfKinds(cs, kinds) == cs
  {
    if cs != [] { OfAllKinds(cs[1..], kinds); }
  }

  lemma EveryKind(k: Kind)
    ensures k in {Create, Update, Delete} + {Noop, Skip, Conflict}
  {
    if !k.Create? && !k.Update? && !k.Delete? && !k.Noop? && !k.Skip? { assert k == Conflict; }
  }

  /** Every row of a plan is handed to the provider exactly once. */
  lemma AllRowsIsPermutation(p: Plan)
    ensures multiset(AllRows(p)) == multiset(p.changes)
  {
    OrderedIsPermutation(p);
    OfKindsSplit(p.changes, {Create, Update, Delete}, {Noop, Skip, Conflict});
    forall c | c in p.changes ensures c.kind in {Create, Update, Delete} + {Noop, Skip, Conflict} { EveryKind(c.kind); }
    OfAllKinds(p.changes, {Create, Update, Delete} + {Noop, Skip, Conflict});
  }

  lemma {:induction false} RankIs(order: seq<string>, ref: string, i: nat)
    requires i < |order| && order[i] == ref
    requires forall j | i < j < |order| :: order[j] != ref
    ensures Rank(order, ref) == i
  {
    if i < |order| - 1 {
      RankIs(order[..|order| - 1], ref, i);
    }
  }

  lemma {:induction false} RankOfMissing(order: seq<string>, ref: string)
    requires ref !in order
    ensures Rank(order, ref) == UNRANKED
  {
    if order != [] {
      RankOfMissing(order[..|order| - 1], ref);
    }
  }

  /** Creates and updates come first, sorted by rank and title; deletes come last, by
      descending rank. */
  lemma OrderedShape(p: Plan) returns (n: nat)
    ensures n <= |Ordered(p)|
    ensures forall i | 0 <= i < |Ordered(p)| :: Ordered(p)[i].kind == Delete <==> n <= i
    ensures Sorted(Ordered(p)[..n], KeyForward(p.order))
    ensures Sorted(Ordered(p)[n..], KeyReverse(p.order))
  {
    hide SortBy, OfKinds, KeyForward, KeyReverse, Sorted;
    var fs, ds := OfKinds(p.changes, FORWARD), OfKinds(p.changes, {Delete});
    var forward, deletes := SortBy(fs, KeyForward(p.order)), SortBy(ds, KeyReverse(p.order));
    n := |forward|;
    SortSorts(fs, KeyForward(p.order));
    SortSorts(ds, KeyReverse(p.order));
    SortKeepsMembers(fs, KeyForward(p.order));
    SortKeepsMembers(ds, KeyReverse(p.order));
    OfKindsMembers(p.changes, FORWARD);
    OfKindsMembers(p.changes, {Delete});
    assert Ordered(p)[..n] == forward && Ordered(p)[n..] == deletes;
    forall i | 0 <= i < |Ordered(p)| ensures Ordered(p)[i].kind == Delete <==> n <= i {
      if i < n { assert forward[i] in forward; } else { assert deletes[i - n] in deletes; }
    }
  }

  /** A create or update of smaller rank is executed before one of larger rank, and
      before every delete. */
  lemma RankDecides(p: Plan, i: nat, j: nat)
    requires i < |Ordered(p)| && j < |Ordered(p)|
    requires Ordered(p)[i].kind != Delete
    requires Ordered(p)[j].kind != Delete ==>
               Rank(p.order, OrEmpty(Ordered(p)[i].uidRef)) < Rank(p.order, OrEmpty(Ordered(p)[j].uidRef))
    ensures i < j
  {
    hide Ordered, Rank;
    var n := OrderedShape(p);
    var key, forward := KeyForward(p.order), Ordered(p)[..n];
    assert forall a, b | 0 <= a < b < n :: KeyLe(key(forward[a]), key(forward[b]));
    assert forall a | 0 <= a < n :: forward[a] == Ordered(p)[a];
  }

  /** Rows of one rank are executed by title ... */
  lemma TitleDecides(p: Plan, i: nat, j: nat)
    requires i < |Ordered(p)| && j < |Ordered(p)|
    requires Ordered(p)[i].kind != Delete && Ordered(p)[j].kind != Delete
    requires Rank(p.order, OrEmpty(Ordered(p)[i].uidRef)) == Rank(p.order, OrEmpty(Ordered(p)[j].uidRef))
    requires StrLt(Ordered(p)[i].title, Ordered(p)[j].title)
    ensures i < j
  {
    hide Ordered, Rank;
    var n := OrderedShape(p);
    var key, forward := KeyForward(p.order), Ordered(p)[..n];
    assert forall a | 0 <= a < n :: forward[a] == Ordered(p)[a];
    if j < i {
      assert KeyLe(key(forward[j]), key(forward[i]));
      StrLeAntisymmetric(Ordered(p)[i].title, Ordered(p)[j].title);
    }
  }

  /** ... and of one title as listed: sorting is stable. */
  lemma OrderedIsStable(p: Plan, k: Key)
    ensures var fs := OfKinds(p.changes, FORWARD);
            |fs| <= |Ordered(p)| && Group(Ordered(p)[..|fs|], KeyForward(p.order), k) == Group(fs, KeyForward(p.order), k)
  {
    hide Group, KeyForward, KeyReverse, OfKinds;
    var fs := OfKinds(p.changes, FORWARD);
    SortIsStable(fs, KeyForward(p.order), k);
    SortIsPermutation(fs, KeyForward(p.order));
    assert Ordered(p)[..|fs|] == SortBy(fs, KeyForward(p.order));
  }

  lemma DeletesComeLast(p: Plan, j: nat)
    requires j < |Ordered(p)| && Ordered(p)[j].kind == Delete
    ensures forall i | j <= i < |Ordered(p)| :: Ordered(p)[i].kind == Delete
  {
    var n := OrderedShape(p);
  }

  // ------------------------------------------------------------------- order of a diff

  /** The order in which the group-by-key diffs list the kinds of their rows. */
  predicate Earlier(a: Kind, b: Kind) {
    || (a == Create && b != Create) || (a == Update && b !in {Create, Update})
    || (a == Noop && b in {Delete, Skip, Conflict}) || (a in {Delete, Skip} && b == Conflict)
  }
}
