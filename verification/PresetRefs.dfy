/** References that an export brings along (keeper_sdk/core/normalize.py): what the lifted
    objects carry, object by object, and exactly when no two carry the same. */
module PresetRefs {
  import opened Json
  import opened Graph
  import opened Normalize

  // --------------------------------------------------------- what is handed out, in order

  /** The references `assign_ref` returns for these stems, one call after the other. */
  function Handed(stems: seq<string>, used: set<string>): (refs: seq<string>)
    ensures |refs| == |stems|
  {
    if stems == [] then []
    else
      var n := |stems| - 1;
      var before := Handed(stems[..n], used);
      before + [Fresh(stems[n], used + SetOf(before))]
  }

  lemma SetOfAppend(refs: seq<string>, r: string)
    ensures SetOf(refs + [r]) == SetOf(refs) + {r}
  {}

  lemma SetOfConcat(a: seq<string>, b: seq<string>)
    ensures SetOf(a + b) == SetOf(a) + SetOf(b)
  {}

  lemma {:induction false} HandedConcat(a: seq<string>, b: seq<string>, used: set<string>)
    ensures Handed(a + b, used) == Handed(a, used) + Handed(b, used + SetOf(Handed(a, used)))
    decreases |b|
  {
    if b == [] {
      assert a + b == a;
    } else {
      var n := |b| - 1;
      assert (a + b)[..|a + b| - 1] == a + b[..n];
      HandedConcat(a, b[..n], used);
      SetOfConcat(Handed(a, used), Handed(b[..n], used + SetOf(Handed(a, used))));
      assert used + (SetOf(Handed(a, used)) + SetOf(Handed(b[..n], used + SetOf(Handed(a, used)))))
          == (used + SetOf(Handed(a, used))) + SetOf(Handed(b[..n], used + SetOf(Handed(a, used))));
    }
  }

  lemma HandedOne(stem: string, used: set<string>)
    ensures Handed([stem], used) == [Fresh(stem, used)] && SetOf(Handed([stem], used)) == {Fresh(stem, used)}
  {
    assert [stem][..0] == [] && used + SetOf([]) == used;
    SetOfAppend([], Fresh(stem, used));
    assert [] + [Fresh(stem, used)] == [Fresh(stem, used)];
  }

  /** No reference is handed out twice, whatever the stems. */
  lemma {:induction false} HandedDistinct(stems: seq<string>, used: set<string>)
    ensures Distinct(Handed(stems, used)) && SetOf(Handed(stems, used)) !! used
  {
    if stems != [] {
      var n := |stems| - 1;
      var before := Handed(stems[..n], used);
      HandedDistinct(stems[..n], used);
      var k := FreshIsLeast(stems[n], used + SetOf(before));
      SetOfAppend(before, Fresh(stems[n], used + SetOf(before)));
      forall i | 0 <= i < n ensures before[i] in SetOf(before) {}
    }
  }

  // ----------------------------------------------------------------- the objects in order

  /** An object the export holds: the stem of its title, and its uid_ref if it brings one. */
  datatype Slot = Slot(stem: string, own: Option<Json>)

  function SlotOf(s: Slugs, shape: Shape, d: Dict): Slot {
    Slot(Stem(s, SeedOf(shape, d), PrefixOf(shape)), if "uid_ref" in d then Some(d["uid_ref"]) else None)
  }

  /** An object and its nested users. */
  function SlotsIn(s: Slugs, shape: Shape, d: Dict): seq<Slot>
    decreases ShapeRank(shape), 0, 0
  {
    [SlotOf(s, shape, d)] + if shape == Resource && "users" in d then SlotsInAll(s, User, ItemsOf(d["users"])) else []
  }

  function SlotsInAll(s: Slugs, shape: Shape, items: seq<Dict>): seq<Slot>
    decreases ShapeRank(shape), 1, |items|
  {
    if items == [] then [] else SlotsInAll(s, shape, items[..|items| - 1]) + SlotsIn(s, shape, items[|items| - 1])
  }

  function Stems(slots: seq<Slot>): seq<string> {
    seq(|slots|, i requires 0 <= i < |slots| => slots[i].stem)
  }

  /** The reference an object carries afterwards: its own, else the one handed out; a
      uid_ref that is empty or no text counts as none. */
  function CarriedAt(slots: seq<Slot>, handed: seq<string>, i: nat): Option<string>
    requires i < |slots| == |handed|
  {
    match slots[i].own
    case None => Some(handed[i])
    case Some(JStr(t)) => if t == "" then None else Some(t)
    case _ => None
  }

  function Carried(slots: seq<Slot>, handed: seq<string>): seq<Option<string>>
    requires |slots| == |handed|
  {
    seq(|slots|, i requires 0 <= i < |slots| => CarriedAt(slots, handed, i))
  }

  function Somes(xs: seq<Option<string>>): seq<string> {
    if xs == [] then []
    else Somes(xs[..|xs| - 1]) + if xs[|xs| - 1].Some? then [xs[|xs| - 1].value] else []
  }

  lemma {:induction false} SomesConcat(a: seq<Option<string>>, b: seq<Option<string>>)
    ensures Somes(a + b) == Somes(a) + Somes(b)
    decreases |b|
  {
    if b == [] {
      assert a + b == a;
    } else {
      assert (a + b)[..|a + b| - 1] == a + b[..|b| - 1];
      SomesConcat(a, b[..|b| - 1]);
    }
  }

  lemma {:induction false} SomesMembers(xs: seq<Option<string>>)
    ensures forall x :: x in Somes(xs) <==> Some(x) in xs
  {
    if xs != [] {
      SomesMembers(xs[..|xs| - 1]);
      assert xs == xs[..|xs| - 1] + [xs[|xs| - 1]];
    }
  }

  ghost predicate DistinctSomes(xs: seq<Option<string>>) {
    forall i, j | 0 <= i < j < |xs| && xs[i].Some? && xs[j].Some? :: xs[i] != xs[j]
  }

  lemma DistinctAppend(xs: seq<string>, x: string)
    ensures Distinct(xs + [x]) <==> Distinct(xs) && x !in xs
  {
    if Distinct(xs + [x]) {
      forall i, j | 0 <= i < j < |xs| ensures xs[i] != xs[j] { assert (xs + [x])[i] != (xs + [x])[j]; }
      forall i | 0 <= i < |xs| ensures xs[i] != x { assert (xs + [x])[i] != (xs + [x])[|xs|]; }
    }
  }

  lemma {:induction false} DistinctIff(xs: seq<Option<string>>)
    ensures Distinct(Somes(xs)) <==> DistinctSomes(xs)
  {
    if xs != [] {
      var n := |xs| - 1;
      var before, last := xs[..n], xs[n];
      DistinctIff(before);
      SomesMembers(before);
      if last.Some? {
        assert last == Some(last.value);
        DistinctAppend(Somes(before), last.value);
      } else {
        assert Somes(before) + [] == Somes(before);
      }
      DistinctSomesSplits(xs);
    }
  }

  lemma DistinctSomesSplits(xs: seq<Option<string>>)
    requires xs != []
    ensures var n := |xs| - 1;
            DistinctSomes(xs) <==> DistinctSomes(xs[..n]) && (xs[n].Some? ==> xs[n] !in xs[..n])
  {
    var n := |xs| - 1;
    if DistinctSomes(xs) {
      forall i | 0 <= i < n && xs[n].Some? ensures xs[..n][i] != xs[n] { assert xs[i].Some? ==> xs[i] != xs[n]; }
    }
    if DistinctSomes(xs[..n]) && (xs[n].Some? ==> xs[n] !in xs[..n]) {
      forall i, j | 0 <= i < j < |xs| && xs[i].Some? && xs[j].Some? ensures xs[i] != xs[j] {
        assert xs[..n][i] in xs[..n];
        if j < n { assert xs[..n][i] != xs[..n][j]; }
      }
    }
  }

  // ------------------------------------------------------- lifting, object by object

  function HandedTo(slots: seq<Slot>, used: set<string>): (refs: seq<string>)
    ensures |refs| == |slots|
  {
    Handed(Stems(slots), used)
  }

  lemma CarriedConcat(a: seq<Slot>, b: seq<Slot>, used: set<string>)
    ensures var mid := used + SetOf(HandedTo(a, used));
            && HandedTo(a + b, used) == HandedTo(a, used) + HandedTo(b, mid)
            && Carried(a + b, HandedTo(a + b, used)) == Carried(a, HandedTo(a, used)) + Carried(b, HandedTo(b, mid))
            && used + SetOf(HandedTo(a + b, used)) == mid + SetOf(HandedTo(b, mid))
  {
    var mid := used + SetOf(HandedTo(a, used));
    assert Stems(a + b) == Stems(a) + Stems(b);
    HandedConcat(Stems(a), Stems(b), used);
    SetOfConcat(HandedTo(a, used), HandedTo(b, mid));
  }

  /** The references an object and its nested users carry, and those used up, depend on the
      slots alone. */
  ghost predicate LiftsAs(slots: seq<Slot>, used: set<string>, refs: seq<string>, after: set<string>) {
    refs == Somes(Carried(slots, HandedTo(slots, used))) && after == used + SetOf(HandedTo(slots, used))
  }

  lemma LiftsCompose(a: seq<Slot>, b: seq<Slot>, used: set<string>, x: seq<string>, mid: set<string>, y: seq<string>, after: set<string>)
    requires LiftsAs(a, used, x, mid) && LiftsAs(b, mid, y, after)
    ensures LiftsAs(a + b, used, x + y, after)
  {
    CarriedConcat(a, b, used);
    SomesConcat(Carried(a, HandedTo(a, used)), Carried(b, HandedTo(b, mid)));
  }

  lemma OwnLifts(s: Slugs, shape: Shape, d: Dict, used: set<string>)
    ensures var ref := Fresh(Stem(s, SeedOf(shape, d), PrefixOf(shape)), used);
            LiftsAs([SlotOf(s, shape, d)], used, OwnRef(Lift(s, shape, d, used).0), used + {ref})
  {
    hide SlotOf, Fresh, SeedOf, PrefixOf;
    var slot := SlotOf(s, shape, d);
    var ref := Fresh(Stem(s, SeedOf(shape, d), PrefixOf(shape)), used);
    SlotIs(s, shape, d);
    HandedOne(slot.stem, used);
    assert Stems([slot]) == [slot.stem];
    OwnRefIs(s, shape, d, used);
    var c := CarriedAt([slot], [ref], 0);
    assert Carried([slot], [ref]) == [c];
    assert [c][..0] == [] && Somes([c]) == [] + if c.Some? then [c.value] else [];
  }

  lemma SlotIs(s: Slugs, shape: Shape, d: Dict)
    ensures var slot := SlotOf(s, shape, d);
            slot.stem == Stem(s, SeedOf(shape, d), PrefixOf(shape)) && slot.own == if "uid_ref" in d then Some(d["uid_ref"]) else None
  {}

  lemma OwnRefIs(s: Slugs, shape: Shape, d: Dict, used: set<string>)
    ensures var ref := Fresh(Stem(s, SeedOf(shape, d), PrefixOf(shape)), used);
            OwnRef(Lift(s, shape, d, used).0) == if "uid_ref" in d then OwnRef(d) else [ref]
  {
    hide Fresh;
    AssignedIsNew(s, SeedOf(shape, d), PrefixOf(shape), used);
  }

  /** What lifting makes of an object, and of its nested users. */
  lemma LiftParts(s: Slugs, shape: Shape, d: Dict, used: set<string>)
    ensures var ref := Fresh(Stem(s, SeedOf(shape, d), PrefixOf(shape)), used);
            var (item, after) := Lift(s, shape, d, used);
            if shape == Resource && "users" in d then
              var lifted := LiftAll(s, User, ItemsOf(d["users"]), used + {ref});
              RefsIn(shape, item) == OwnRef(item) + RefsInAll(User, lifted.items) && after == lifted.used
            else RefsIn(shape, item) == OwnRef(item) && after == used + {ref}
  {
    hide Fresh, LiftAll, RefsInAll, SeedOf, PrefixOf, OwnRef, ItemsOf, AsList;
    var ref := Fresh(Stem(s, SeedOf(shape, d), PrefixOf(shape)), used);
    var (item, after) := Lift(s, shape, d, used);
    if shape == Resource && "users" in d {
      ItemsOfList(LiftAll(s, User, ItemsOf(d["users"]), used + {ref}).items);
    } else {
      assert OwnRef(item) + [] == OwnRef(item);
    }
  }

  lemma {:induction false} LiftIsSlots(s: Slugs, shape: Shape, d: Dict, used: set<string>)
    ensures var (item, after) := Lift(s, shape, d, used); LiftsAs(SlotsIn(s, shape, d), used, RefsIn(shape, item), after)
    decreases ShapeRank(shape), 0, 0
  {
    hide LiftsAs, Fresh, Lift, LiftAll, RefsIn, RefsInAll, SlotsInAll, SlotOf, SeedOf, PrefixOf, OwnRef, ItemsOf;
    var (item, after) := Lift(s, shape, d, used);
    var ref := Fresh(Stem(s, SeedOf(shape, d), PrefixOf(shape)), used);
    OwnLifts(s, shape, d, used);
    LiftParts(s, shape, d, used);
    if shape == Resource && "users" in d {
      var users := ItemsOf(d["users"]);
      var lifted := LiftAll(s, User, users, used + {ref});
      LiftAllIsSlots(s, User, users, used + {ref});
      LiftsCompose([SlotOf(s, shape, d)], SlotsInAll(s, User, users), used, OwnRef(item), used + {ref}, RefsInAll(User, lifted.items), lifted.used);
    } else {
      assert [SlotOf(s, shape, d)] + [] == [SlotOf(s, shape, d)];
    }
  }

  lemma {:induction false} LiftAllIsSlots(s: Slugs, shape: Shape, items: seq<Dict>, used: set<string>)
    ensures var l := LiftAll(s, shape, items, used); LiftsAs(SlotsInAll(s, shape, items), used, RefsInAll(shape, l.items), l.used)
    decreases ShapeRank(shape), 1, |items|
  {
    if items == [] {
      assert Stems([]) == [] && used + SetOf([]) == used;
      assert LiftsAs([], used, [], used);
    } else {
      hide LiftsAs, Lift;
      var n := |items| - 1;
      LiftAllIsSlots(s, shape, items[..n], used);
      var before := LiftAll(s, shape, items[..n], used);
      LiftIsSlots(s, shape, items[n], before.used);
      var (item, after) := Lift(s, shape, items[n], before.used);
      assert (before.items + [item])[..|before.items|] == before.items;
      LiftsCompose(SlotsInAll(s, shape, items[..n]), SlotsIn(s, shape, items[n]), used,
                   RefsInAll(shape, before.items), before.used, RefsIn(shape, item), after);
    }
  }

  /** The object brings a reference of its own. */
  predicate Preset(slot: Slot) {
    slot.own.Some? && slot.own.value.JStr? && slot.own.value.s != ""
  }

  function PresetRef(slot: Slot): string
    requires Preset(slot)
  {
    slot.own.value.s
  }

  /** The references brought along are pairwise distinct, and none is one that is handed to
      an object without. */
  ghost predicate PresetsApart(slots: seq<Slot>, handed: seq<string>)
    requires |slots| == |handed|
  {
    && (forall i, j | 0 <= i < j < |slots| && Preset(slots[i]) && Preset(slots[j]) :: PresetRef(slots[i]) != PresetRef(slots[j]))
    && (forall i, j | 0 <= i < |slots| && 0 <= j < |slots| && Preset(slots[i]) && slots[j].own.None? :: PresetRef(slots[i]) != handed[j])
  }

  /** Exactly when a lifted list has no reference twice, nested users included.  What is
      handed out depends on titles alone: a reference is drawn for every object, whether
      or not it keeps one of its own. */
  lemma LiftedRefsDistinctIff(s: Slugs, shape: Shape, items: seq<Dict>, used: set<string>)
    ensures var slots := SlotsInAll(s, shape, items);
            Distinct(RefsInAll(shape, LiftAll(s, shape, items, used).items))
            <==> PresetsApart(slots, Handed(Stems(slots), used))
  {
    hide Handed, LiftAll, SlotsInAll, Somes;
    var slots := SlotsInAll(s, shape, items);
    LiftAllIsSlots(s, shape, items, used);
    HandedDistinct(Stems(slots), used);
    DistinctIff(Carried(slots, HandedTo(slots, used)));
    ApartIff(slots, HandedTo(slots, used));
  }

  lemma ApartIff(slots: seq<Slot>, handed: seq<string>)
    requires |slots| == |handed| && Distinct(handed)
    ensures DistinctSomes(Carried(slots, handed)) <==> PresetsApart(slots, handed)
  {
    var xs := Carried(slots, handed);
    if DistinctSomes(xs) {
      forall i, j | 0 <= i < j < |slots| && Preset(slots[i]) && Preset(slots[j]) ensures PresetRef(slots[i]) != PresetRef(slots[j]) {
        assert xs[i] != xs[j];
      }
      forall i, j | 0 <= i < |slots| && 0 <= j < |slots| && Preset(slots[i]) && slots[j].own.None? ensures PresetRef(slots[i]) != handed[j] {
        assert i < j || j < i;
        assert xs[i] != xs[j];
      }
    }
    if PresetsApart(slots, handed) {
      forall i, j | 0 <= i < j < |xs| && xs[i].Some? && xs[j].Some? ensures xs[i] != xs[j] {
        if slots[i].own.None? && slots[j].own.None? { assert handed[i] != handed[j]; }
      }
    }
  }

  /** For instance: an object that brings the very reference assigned to another keeps it. */
  lemma PresetRefsMayClash(s: Slugs, shape: Shape, d: Dict, e: Dict)
    requires shape != Resource && "uid_ref" !in d
    requires "uid_ref" in e && e["uid_ref"] == JStr(Stem(s, SeedOf(shape, d), PrefixOf(shape)))
    ensures !Distinct(RefsInAll(shape, LiftAll(s, shape, [d, e], {}).items))
  {
    hide LiftAll, RefsInAll, SeedOf, PrefixOf;
    var stem := Stem(s, SeedOf(shape, d), PrefixOf(shape));
    AssignedIsNew(s, SeedOf(shape, d), PrefixOf(shape), {});
    assert Fresh(stem, {}) == Candidate(stem, 1) == stem;
    LiftedRefsDistinctIff(s, shape, [d, e], {});
    SlotsOfTwo(s, shape, d, e);
    var a, b := SlotOf(s, shape, d), SlotOf(s, shape, e);
    assert Stems([a, b]) == [a.stem] + [b.stem];
    HandedOne(stem, {});
    HandedConcat([a.stem], [b.stem], {});
    assert Handed(Stems([a, b]), {})[0] == stem;
    assert Preset([a, b][1]) && PresetRef([a, b][1]) == stem && [a, b][0].own.None?;
  }

  lemma SlotsOfTwo(s: Slugs, shape: Shape, d: Dict, e: Dict)
    requires shape != Resource
    ensures SlotsInAll(s, shape, [d, e]) == [SlotOf(s, shape, d), SlotOf(s, shape, e)]
  {
    hide SlotOf;
    assert [d, e][..1] == [d] && [d][..0] == [];
    assert SlotsInAll(s, shape, [d]) == [] + [SlotOf(s, shape, d)];
  }

  // -------------------------------------------------------------- everybody is referenced

  lemma {:induction false} BareSlots(s: Slugs, shape: Shape, items: seq<Dict>)
    requires forall d | d in items :: Bare(shape, d)
    ensures forall x | x in SlotsInAll(s, shape, items) :: x.own.None?
    decreases ShapeRank(shape), 1, |items|
  {
    if items != [] {
      var n := |items| - 1;
      BareSlots(s, shape, items[..n]);
      assert items[n] in items;
      if shape == Resource && "users" in items[n] { BareSlots(s, User, ItemsOf(items[n]["users"])); }
    }
  }

  lemma {:induction false} AllSomes(xs: seq<Option<string>>)
    requires forall x | x in xs :: x.Some?
    ensures |Somes(xs)| == |xs|
  {
    if xs != [] { AllSomes(xs[..|xs| - 1]); }
  }

  function SourceSlots(s: Slugs, shape: Shape, source: Option<seq<Dict>>): seq<Slot> {
    if source.Some? then SlotsInAll(s, shape, source.value) else []
  }

  lemma SourceCount(s: Slugs, shape: Shape, source: Option<seq<Dict>>, used: set<string>)
    requires BareSource(shape, source)
    ensures |RefsInAll(shape, LiftSource(s, shape, source, used).items)| == |SourceSlots(s, shape, source)|
  {
    hide Handed, LiftAll, SlotsInAll, Somes;
    if source.Some? {
      var slots := SlotsInAll(s, shape, source.value);
      LiftAllIsSlots(s, shape, source.value, used);
      BareSlots(s, shape, source.value);
      var xs := Carried(slots, HandedTo(slots, used));
      forall x | x in xs ensures x.Some? {
        var i :| 0 <= i < |xs| && xs[i] == x;
        assert slots[i] in slots;
      }
      AllSomes(xs);
    }
  }

  /** The top-level shared folders that are lifted. */
  function LiftedFolders(doc: Dict): nat {
    if "shared_folders" in doc then 0
    else (if Get(doc, "shared_folder_resources").JObj? then 1 else 0) + (if Get(doc, "shared_folder_users").JObj? then 1 else 0)
  }

  lemma FoldersCount(s: Slugs, doc: Dict)
    requires NoUidRef(JObj(doc))
    ensures |FolderRefs(Folders(s, doc).0)| == LiftedFolders(doc)
  {
    hide Fresh;
    if "shared_folders" in doc {
      var folders := DictOrEmpty(doc["shared_folders"]);
      assert NoUidRef(doc["shared_folders"]) && forall k | k in folders :: NoUidRef(folders[k]);
    } else {
      var (r, used) := LiftFolder(s, doc, "shared_folder_resources", "resources", {});
      var (u, used') := LiftFolder(s, doc, "shared_folder_users", "users", used);
      RefsOfEntries(r, u);
      FolderCount(s, doc, "shared_folder_resources", "resources", {});
      FolderCount(s, doc, "shared_folder_users", "users", used);
    }
  }

  lemma FolderCount(s: Slugs, doc: Dict, key: string, seed: string, used: set<string>)
    requires NoUidRef(JObj(doc))
    ensures |OwnRef(OrNone(LiftFolder(s, doc, key, seed, used).0))| == if Get(doc, key).JObj? then 1 else 0
  {
    hide Fresh;
    AssignedIsNew(s, seed, "sf", used);
  }

  /** Of a document without references every gateway, configuration, resource, nested or
      top-level user and lifted shared folder gets one: the manifest carries as many as
      there are objects. */
  lemma EveryoneIsReferenced(s: Slugs, doc: Dict)
    requires NoUidRef(JObj(doc))
    ensures |AllRefs(FromPamImport(s, doc))|
         == LiftedFolders(doc)
            + |SourceSlots(s, Gateway, GatewaySource(s, doc))| + |SourceSlots(s, Config, ConfigSource(doc))|
            + |SourceSlots(s, Resource, NestedSource(doc, "resources"))| + |SourceSlots(s, User, NestedSource(doc, "users"))|
  {
    hide LiftSource, SourceSlots, RefsInAll, Folders, FolderRefs, Linked, GatewaySource, ConfigSource, NestedSource, LiftedFolders;
    var (folders, used) := Folders(s, doc);
    var g := LiftSource(s, Gateway, GatewaySource(s, doc), used);
    var c := LiftSource(s, Config, ConfigSource(doc), g.used);
    var r := LiftSource(s, Resource, NestedSource(doc, "resources"), c.used);
    SourcesAreBare(s, doc);
    FoldersCount(s, doc);
    SourceCount(s, Gateway, GatewaySource(s, doc), used);
    SourceCount(s, Config, ConfigSource(doc), g.used);
    SourceCount(s, Resource, NestedSource(doc, "resources"), c.used);
    SourceCount(s, User, NestedSource(doc, "users"), r.used);
    LinkKeepsRefs(doc, c.items, g.items);
  }
}
