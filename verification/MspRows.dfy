/** What the rows of a managed-company diff mean (keeper_sdk/core/msp_diff.py), and what
    the mock provider makes of them (keeper_sdk/providers/mock.py). */
module MspRows {
  import opened Json
  import opened Sorting
  import opened Plans
  import KeyedDiff
  import opened MspDiff
  import opened MspConvergence

  // --------------------------------------------------------------------- normal companies

  /** Unlimited seats have one number. */
  predicate SeatsOf(kit: MspKit, v: Json, seats: Json) {
    var n := kit.toInt(v);
    seats == JNum(if n == -1 || n >= 1_000_000_000 then 1_000_000_000 else n)
  }

  predicate AddonOf(kit: MspKit, v: Json, addon: Json) {
    && addon.JObj? && addon.fields.Keys == {"name", "seats"}
    && addon.fields["name"] == JStr(kit.str(Get(DictOrEmpty(v), "name")))
    && SeatsOf(kit, Get(DictOrEmpty(v), "seats"), addon.fields["seats"])
  }

  function FoldedName(kit: MspKit, v: Json): string {
    kit.fold(kit.str(Get(DictOrEmpty(v), "name")))
  }

  /** In the order of their names, upper and lower case apart. */
  ghost predicate InNameOrder(kit: MspKit, items: seq<Json>) {
    forall i, j | 0 <= i < j < |items| :: StrLe(FoldedName(kit, items[i]), FoldedName(kit, items[j]))
  }

  ghost predicate AllAddons(kit: MspKit, items: seq<Json>, all: seq<Json>) {
    |all| == |items| && forall i | 0 <= i < |all| :: AddonOf(kit, items[i], all[i])
  }

  /** Add-ons are the listed ones, each in normal form, sorted by name. */
  ghost predicate AddonsOf(kit: MspKit, v: Json, addons: Json) {
    && addons.JList? && InNameOrder(kit, addons.items)
    && var items := if v.JList? then v.items else [];
       exists all :: AllAddons(kit, items, all) && multiset(all) == multiset(addons.items)
  }

  ghost predicate CompanyOf(kit: MspKit, row: Dict, d: Dict) {
    && Get(d, "name") == JStr(kit.str(Get(row, "name")))
    && Get(d, "plan") == JStr(kit.strip(kit.str(Get(row, "plan"))))
    && SeatsOf(kit, Get(row, "seats"), Get(d, "seats"))
    && Get(d, "file_plan") == (if Get(row, "file_plan") in {JNull, JStr("")} then JNull else JStr(kit.str(row["file_plan"])))
    && AddonsOf(kit, Get(row, "addons"), Get(d, "addons"))
  }

  /** The manager a live company is marked with. */
  function ManagerOf(kit: MspKit, live: Dict): string {
    if Get(live, "manager") == JNull then "" else kit.strip(kit.str(live["manager"]))
  }

  lemma AddonsAreNormal(kit: MspKit, v: Json)
    ensures AddonsOf(kit, v, NormField(kit, Addons, v))
  {
    var items := if v.JList? then v.items else [];
    var all := NormAddons(kit, items);
    forall i | 0 <= i < |all| ensures AddonOf(kit, items[i], all[i]) { AddonIsNormal(kit, items[i]); }
    hide AddonOf, NormAddons, NormAddon;
    SortIsPermutation(all, AddonKey(kit));
    SortSorts(all, AddonKey(kit));
    SortedByName(kit, SortBy(all, AddonKey(kit)));
    assert AllAddons(kit, items, all);
  }

  lemma AddonIsNormal(kit: MspKit, v: Json)
    ensures AddonOf(kit, v, NormAddon(kit, v))
  {}

  lemma SortedByName(kit: MspKit, items: seq<Json>)
    requires Sorted(items, AddonKey(kit))
    ensures InNameOrder(kit, items)
  {
    forall i, j | 0 <= i < j < |items| ensures StrLe(FoldedName(kit, items[i]), FoldedName(kit, items[j])) {
      assert KeyLe(AddonKey(kit)(items[i]), AddonKey(kit)(items[j]));
    }
  }

  lemma RowIsNormal(kit: MspKit, row: Dict)
    ensures CompanyOf(kit, row, NormRow(kit, row)) && NormRow(kit, row).Keys == {"name", "plan", "seats", "file_plan", "addons"}
  {
    hide AddonsOf;
    AddonsAreNormal(kit, Get(row, "addons"));
  }

  /** A live company keeps its id and its manager beside that. */
  lemma LiveIsNormal(kit: MspKit, row: Dict)
    ensures var d := NormLive(kit, row);
            && CompanyOf(kit, row, d) && Get(d, "mc_enterprise_id") == Get(row, "mc_enterprise_id")
            && ("mc_enterprise_id" in d <==> Get(row, "mc_enterprise_id") != JNull) && ("manager" in d <==> ManagerOf(kit, row) != "")
            && Get(d, "manager") == (if ManagerOf(kit, row) == "" then JNull else JStr(ManagerOf(kit, row)))
  {
    hide AddonsOf, NormRow, SeatsOf;
    RowIsNormal(kit, row);
    var d, base := NormLive(kit, row), NormRow(kit, row);
    assert forall k | k in {"name", "plan", "seats", "file_plan", "addons"} :: k in base && Get(d, k) == Get(base, k);
  }

  // ----------------------------------------------------------------------- the row kinds

  predicate Disagree(live: Dict, d: Dict, k: string) {
    k in {"plan", "seats", "file_plan", "addons"} && Get(live, k) != Get(d, k)
  }

  predicate RowNamed(c: Change, name: string) {
    c.uidRef == Some(name) && c.title == name && c.resourceType == "managed_company"
  }

  predicate AtCompany(kit: MspKit, c: Change, live: Dict) {
    c.keeperUid == (if Get(live, "mc_enterprise_id") == JNull then None else Some(kit.str(live["mc_enterprise_id"])))
  }

  lemma DriftIsDisagreement(live: Dict, d: Dict)
    ensures DiffColumns(live, d) != {} <==> exists k :: Disagree(live, d, k)
  {
    var drift := DiffColumns(live, d);
    if k :| Disagree(live, d, k) {
      var f := if k == "plan" then Plan_ else if k == "seats" then Seats else if k == "file_plan" then FilePlan else Addons;
      assert f in drift;
    }
    if f :| f in drift { assert Disagree(live, d, ColumnName(f)); }
  }

  /** A company on both sides: another manager's is a conflict; an adopting diff claims one
      without manager and leaves its own alone; otherwise it is updated exactly when some
      column disagrees. */
  lemma MatchedRowIs(kit: MspKit, st: Settings, d: Dict, live: Dict)
    ensures var c, mine := MatchedChange(kit, st, d, live), ManagerOf(kit, live);
            && RowNamed(c, kit.str(Get(d, "name"))) && AtCompany(kit, c, live) && c.before == NormLive(kit, live)
            && c.kind == (if mine != "" && mine != st.manager then Conflict
                          else if st.adopt then (if mine == "" then Update else Noop)
                          else if exists k :: Disagree(NormLive(kit, live), d, k) then Update else Noop)
            && c.after == if st.adopt && mine == "" then d["manager" := JStr(st.manager)] else d
  {
    hide NormLive, DiffColumns;
    DriftIsDisagreement(NormLive(kit, live), d);
  }

  /** The others: created as asked for, deleted or skipped, or reported as duplicates. */
  lemma UnmatchedRowsAre(kit: MspKit, st: Settings, d: Dict, rows: seq<Dict>)
    requires rows != []
    ensures var c := CreateChange(kit, d);
            RowNamed(c, kit.str(Get(d, "name"))) && c.kind == Create && c.keeperUid == None && c.before == map[] && c.after == d
    ensures var c := OrphanChange(kit, st, d);
            && RowNamed(c, kit.str(Get(d, "name"))) && c.kind == (if st.allowDelete then Delete else Skip)
            && AtCompany(kit, c, d) && c.before == NormLive(kit, d) && c.after == map[]
    ensures var c := DuplicateChange(kit, rows[0], rows);
            && c.kind == Conflict && c.keeperUid == None && c.after == map[] && RowNamed(c, c.title)
            && c.before == map["names" := JList(seq(|rows|, i requires 0 <= i < |rows| => JStr(kit.str(Get(rows[i], "name")))))]
  {
    assert Names(kit, rows) == seq(|rows|, i requires 0 <= i < |rows| => JStr(kit.str(Get(rows[i], "name"))));
  }

  /** Duplicates are reported under the first of their names in folded order. */
  lemma DuplicateTitle(kit: MspKit, rows: seq<Dict>)
    requires Sound(kit) && rows != []
    ensures var title := DuplicateChange(kit, rows[0], rows).title;
            && (exists i :: 0 <= i < |rows| && title == kit.str(Get(rows[i], "name")))
            && forall i | 0 <= i < |rows| :: StrLe(kit.fold(title), kit.fold(kit.str(Get(rows[i], "name"))))
  {
    hide Names, StrLe;
    var names := Names(kit, rows);
    var sorted := SortBy(names, FoldedText(kit));
    FirstIsLeast(kit, names);
    assert forall i | 0 <= i < |rows| :: names[i] == JStr(kit.str(Get(rows[i], "name")));
    assert forall i | 0 <= i < |rows| :: names[i] in names;
    var j :| 0 <= j < |names| && names[j] == sorted[0];
  }

  lemma FirstIsLeast(kit: MspKit, names: seq<Json>)
    requires names != []
    ensures var sorted := SortBy(names, FoldedText(kit));
            && sorted != [] && sorted[0] in names
            && forall v | v in names :: StrLe(kit.fold(kit.str(sorted[0])), kit.fold(kit.str(v)))
  {
    hide SortBy;
    var sorted := SortBy(names, FoldedText(kit));
    SortIsPermutation(names, FoldedText(kit));
    SortKeepsMembers(names, FoldedText(kit));
    SortSorts(names, FoldedText(kit));
    assert |sorted| == |multiset(sorted)| == |names|;
    assert sorted[0] in sorted;
    forall v | v in names ensures StrLe(kit.fold(kit.str(sorted[0])), kit.fold(kit.str(v))) {
      var n :| 0 <= n < |sorted| && sorted[n] == v;
      StrLeReflexive(kit.fold(kit.str(sorted[0])));
    }
  }

  /** A diff lists creates, updates, noops, deletes or skips, and conflicts, each kind by
      folded name. */
  lemma DiffIsOrdered(kit: MspKit, st: Settings, desired: seq<Dict>, live: seq<Dict>, i: nat, j: nat)
    requires i < j < |Diff(kit, st, desired, live)|
    ensures var a, b := Diff(kit, st, desired, live)[i], Diff(kit, st, desired, live)[j];
            !Earlier(b.kind, a.kind) && (!Earlier(a.kind, b.kind) ==> StrLe(kit.fold(a.title), kit.fold(b.title)))
  {
    hide TaggedChanges;
    SortSorts(KeyedDiff.Untagged(TaggedChanges(kit, st, desired, live)), SortKey(kit));
  }

  // --------------------------------------------------------------------------- the store

  /** What a row leaves under its key: a created company has what was asked for and a made
      id; an updated one keeps what is not written, and its id; others stay. */
  lemma CompanyIsStored(env: MspEnv, c: Change, current: Option<Company>)
    requires c.resourceType == "managed_company"
    ensures var name, after := ChangeName(env.kit, c), Effect(env, c, current);
            match c.kind
            case Create =>
              && after.Some? && Get(after.value.row, "mc_enterprise_id") == JNum(env.stableId(name))
              && forall k | k != "mc_enterprise_id" :: SameAt(after.value.row, c.after, k)
            case Update =>
              && (after.Some? <==> current.Some?)
              && (current.Some? ==>
                    && Get(after.value.row, "mc_enterprise_id")
                       == (if Get(current.value.row, "mc_enterprise_id") != JNull then current.value.row["mc_enterprise_id"]
                           else JNum(env.stableId(name)))
                    && forall k | k != "mc_enterprise_id" ::
                         if k in c.after then SameAt(after.value.row, c.after, k) else SameAt(after.value.row, current.value.row, k))
            case Delete => after == None
            case _ => after == current
  {}

  lemma NameKeyIs(kit: MspKit, row: Dict)
    ensures ByName(kit)(row) == Key(0, 0, kit.fold(kit.str(Get(row, "name"))))
  {
    assert NameKey(kit)(row) == kit.fold(Name(kit, row));
  }

  /** Discovered companies are the stored ones, by folded name. */
  lemma DiscoveredAre(kit: MspKit, store: seq<Company>)
    ensures var rows := Discovered(kit, store);
            && multiset(rows) == multiset(seq(|store|, i requires 0 <= i < |store| => store[i].row))
            && forall i, j | 0 <= i < j < |rows| :: StrLe(kit.fold(kit.str(Get(rows[i], "name"))), kit.fold(kit.str(Get(rows[j], "name"))))
  {
    var rows := Discovered(kit, store);
    assert Payloads(store) == seq(|store|, i requires 0 <= i < |store| => store[i].row);
    SortIsPermutation(Payloads(store), ByName(kit));
    SortSorts(Payloads(store), ByName(kit));
    hide SortBy, Payloads, StrLe;
    forall i, j | 0 <= i < j < |rows| ensures StrLe(kit.fold(kit.str(Get(rows[i], "name"))), kit.fold(kit.str(Get(rows[j], "name")))) {
      assert KeyLe(ByName(kit)(rows[i]), ByName(kit)(rows[j]));
      NameKeyIs(kit, rows[i]);
      NameKeyIs(kit, rows[j]);
    }
  }

  /** Which name a row is about. */
  lemma NameIs(kit: MspKit, c: Change)
    ensures ChangeName(kit, c)
         == if Get(c.after, "name") != JNull then kit.str(c.after["name"])
            else if Get(c.before, "name") != JNull then kit.str(c.before["name"])
            else match c.uidRef { case Some(u) => if u != "" then u else c.title case None => c.title }
  {}

  /** What is reported of a row. */
  lemma OutcomeIs(env: MspEnv, c: Change, current: Option<Company>)
    ensures var o, name := OutcomeOf(env, c, current), ChangeName(env.kit, c);
            && o.name == name
            && (o.action == Created <==> c.kind == Create) && (o.action == Updated <==> c.kind == Update)
            && (o.action == Deleted <==> c.kind == Delete) && (o.action == Conflicted <==> c.kind == Conflict)
            && (o.missing <==> c.kind in {Update, Delete} && current.None?)
            && o.companyId == (if c.kind == Create then env.kit.str(JNum(env.stableId(name)))
                               else if c.kind !in {Update, Delete} || current.None? then OrEmpty(c.keeperUid)
                               else if Get(current.value.row, "mc_enterprise_id") != JNull then env.kit.str(current.value.row["mc_enterprise_id"])
                               else env.kit.str(JNum(env.stableId(name))))
  {}
}
