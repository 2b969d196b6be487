/** The managed-company diff of `msp-environment.v1` (keeper_sdk/core/msp_diff.py): names
    match case-insensitively, seats and add-ons are compared in canonical form. */
module MspDiff {
  import opened Json
  import opened Sorting
  import opened Plans
  import opened KeyedDiff

  /** `str`, `int`, `str.strip` and `str.casefold`. */
  datatype MspKit = MspKit(str: Json -> string, toInt: Json -> int, strip: string -> string, fold: string -> string)

  ghost predicate Sound(kit: MspKit) {
    && (forall s :: kit.str(JStr(s)) == s) && (forall v :: kit.str(v) == "" ==> v == JStr(""))
    && (forall n :: kit.toInt(JNum(n)) == n)
    && (forall s :: kit.strip(kit.strip(s)) == kit.strip(s))
  }

  const MANAGED_COMPANY := "managed_company"
  const UNLIMITED: int := 1_000_000_000

  // -------------------------------------------------------------------- canonical forms

  function CanonicalSeats(n: int): int {
    if n == -1 || n >= UNLIMITED then UNLIMITED else n
  }

  function NormAddon(kit: MspKit, v: Json): Json {
    var d := DictOrEmpty(v);
    JObj(map["name" := JStr(kit.str(Get(d, "name"))), "seats" := JNum(CanonicalSeats(kit.toInt(Get(d, "seats"))))])
  }

  function NormAddons(kit: MspKit, items: seq<Json>): (out: seq<Json>)
    ensures |out| == |items| && forall i | 0 <= i < |items| :: out[i] == NormAddon(kit, items[i])
  {
    if items == [] then [] else [NormAddon(kit, items[0])] + NormAddons(kit, items[1..])
  }

  function AddonKey(kit: MspKit): Json -> Key {
    (v: Json) => Key(0, 0, kit.fold(kit.str(Get(DictOrEmpty(v), "name"))))
  }

  datatype Column = Plan_ | Seats | FilePlan | Addons

  function ColumnName(f: Column): string {
    match f
    case Plan_ => "plan"
    case Seats => "seats"
    case FilePlan => "file_plan"
    case Addons => "addons"
  }

  /** One of the compared fields, normalised. */
  function NormField(kit: MspKit, f: Column, v: Json): Json {
    match f
    case Plan_ => JStr(kit.strip(kit.str(v)))
    case Seats => JNum(CanonicalSeats(kit.toInt(v)))
    case FilePlan => if v == JNull || v == JStr("") then JNull else JStr(kit.str(v))
    case Addons => JList(SortBy(NormAddons(kit, if v.JList? then v.items else []), AddonKey(kit)))
  }

  const COLUMNS: set<Column> := {Plan_, Seats, FilePlan, Addons}

  function Name(kit: MspKit, row: Dict): string {
    kit.str(Get(row, "name"))
  }

  /** `_name_key` */
  function NameKey(kit: MspKit): Dict -> string {
    (row: Dict) => kit.fold(Name(kit, row))
  }

  /** `_normalise_managed_company` of a manifest row. */
  function NormRow(kit: MspKit, row: Dict): Dict {
    map["name" := JStr(Name(kit, row)),
        "plan" := NormField(kit, Plan_, Get(row, "plan")),
        "seats" := NormField(kit, Seats, Get(row, "seats")),
        "file_plan" := NormField(kit, FilePlan, Get(row, "file_plan")),
        "addons" := NormField(kit, Addons, Get(row, "addons"))]
  }

  /** `_live_manager` */
  function LiveManager(kit: MspKit, row: Dict): Option<string> {
    var v := Get(row, "manager");
    if v == JNull || kit.strip(kit.str(v)) == "" then None else Some(kit.strip(kit.str(v)))
  }

  /** ... and of a live row, which keeps its id and manager. */
  function NormLive(kit: MspKit, row: Dict): Dict {
    var id, manager := Get(row, "mc_enterprise_id"), LiveManager(kit, row);
    NormRow(kit, row) + (if id == JNull then map[] else map["mc_enterprise_id" := id])
    + (if manager.None? then map[] else map["manager" := JStr(manager.value)])
  }

  // ---------------------------------------------------------------------------- the rows

  datatype Settings = Settings(manager: string, adopt: bool, allowDelete: bool)

  /** `_diff_fields` */
  function DiffColumns(live: Dict, desired: Dict): set<Column> {
    set f | f in COLUMNS && Get(live, ColumnName(f)) != Get(desired, ColumnName(f))
  }

  function RowBase(name: string, kind: Kind): Change {
    Change(kind, Some(name), MANAGED_COMPANY, name, None, map[], map[])
  }

  function LiveUid(kit: MspKit, row: Dict): Option<string> {
    var id := Get(row, "mc_enterprise_id");
    if id == JNull then None else Some(kit.str(id))
  }

  function CreateChange(kit: MspKit, d: Dict): Change {
    RowBase(Name(kit, d), Create).(after := d)
  }

  datatype Match = Foreign | Owned | Adoptable | Drifted | Same

  /** The branches of a matched pair, in order. */
  function MatchOf(kit: MspKit, st: Settings, d: Dict, live: Dict): Match {
    var manager := LiveManager(kit, live);
    if manager.Some? && manager.value != st.manager then Foreign
    else if manager.Some? && st.adopt then Owned
    else if st.adopt then Adoptable
    else if DiffColumns(NormLive(kit, live), d) != {} then Drifted
    else Same
  }

  function KindOf(m: Match): Kind {
    match m
    case Foreign => Conflict
    case Owned => Noop
    case Adoptable => Update
    case Drifted => Update
    case Same => Noop
  }

  function MatchedChange(kit: MspKit, st: Settings, d: Dict, live: Dict): Change {
    var m := MatchOf(kit, st, d, live);
    RowBase(Name(kit, d), KindOf(m)).(
      keeperUid := LiveUid(kit, live), before := NormLive(kit, live),
      after := if m == Adoptable then d["manager" := JStr(st.manager)] else d)
  }

  function OrphanChange(kit: MspKit, st: Settings, live: Dict): Change {
    RowBase(Name(kit, live), if st.allowDelete then Delete else Skip).(
      keeperUid := LiveUid(kit, live), before := NormLive(kit, live))
  }

  function Names(kit: MspKit, rows: seq<Dict>): (out: seq<Json>)
    ensures |out| == |rows| && forall i | 0 <= i < |rows| :: out[i] == JStr(Name(kit, rows[i]))
  {
    if rows == [] then [] else [JStr(Name(kit, rows[0]))] + Names(kit, rows[1..])
  }

  function FoldedText(kit: MspKit): Json -> Key {
    (v: Json) => Key(0, 0, kit.fold(kit.str(v)))
  }

  /** `_duplicate_display_name`: the first name, case-insensitively. */
  function DisplayName(kit: MspKit, first: Dict, rows: seq<Dict>): string {
    var sorted := SortBy(Names(kit, rows), FoldedText(kit));
    if sorted == [] then Name(kit, first) else kit.str(sorted[0])
  }

  function DuplicateChange(kit: MspKit, first: Dict, rows: seq<Dict>): Change {
    RowBase(DisplayName(kit, first, rows), Conflict).(before := map["names" := JList(Names(kit, rows))])
  }

  function MspRules(kit: MspKit, st: Settings): Rules<Dict, Dict, Change> {
    Rules((d: Dict) => CreateChange(kit, d), (d: Dict, l: Dict) => MatchedChange(kit, st, d, l),
          (l: Dict) => OrphanChange(kit, st, l), (first: Dict, all: seq<Dict>) => DuplicateChange(kit, first, all))
  }

  function SidesOf(kit: MspKit, desired: seq<Dict>, live: seq<Dict>): Sides<Dict, Dict> {
    Sides(desired, NameKey(kit), live, NameKey(kit))
  }

  /** `_desired_managed_companies` */
  function Desired(kit: MspKit, companies: seq<Dict>): seq<Dict> {
    IndexBy(NormRows(kit, companies), NameKey(kit))
  }

  function NormRows(kit: MspKit, rows: seq<Dict>): (out: seq<Dict>)
    ensures |out| == |rows| && forall i | 0 <= i < |rows| :: out[i] == NormRow(kit, rows[i])
  {
    if rows == [] then [] else [NormRow(kit, rows[0])] + NormRows(kit, rows[1..])
  }

  function KindRank(k: Kind): nat {
    match k
    case Create => 0
    case Update => 1
    case Noop => 2
    case Delete => 3
    case Skip => 3
    case Conflict => 4
  }

  function SortKey(kit: MspKit): Change -> Key {
    (c: Change) => Key(KindRank(c.kind), 0, kit.fold(c.title))
  }

  function TaggedChanges(kit: MspKit, st: Settings, desired: seq<Dict>, live: seq<Dict>): seq<Tagged<Change>> {
    Rows(MspRules(kit, st), SidesOf(kit, desired, live))
  }

  function Diff(kit: MspKit, st: Settings, desired: seq<Dict>, live: seq<Dict>): seq<Change> {
    SortBy(Untagged(TaggedChanges(kit, st, desired, live)), SortKey(kit))
  }

  /** `compute_msp_diff` */
  method ComputeMspDiff(kit: MspKit, st: Settings, companies: seq<Dict>, live: seq<Dict>) returns (changes: seq<Change>)
    ensures changes == Diff(kit, st, Desired(kit, companies), live)
  {
    var desired := BuildIndex(NormRows(kit, companies), NameKey(kit));
    changes := Classify(MspRules(kit, st), SidesOf(kit, desired, live));
    changes := SortBy(changes, SortKey(kit));
  }

  // ------------------------------------------------------------- normalising is idempotent

  /** Every encoding of "unlimited" is one number, and nothing else is that number. */
  lemma SeatsAgreeIff(a: int, b: int)
    ensures CanonicalSeats(a) == CanonicalSeats(b) <==>
              a == b || ((a == -1 || a >= UNLIMITED) && (b == -1 || b >= UNLIMITED))
    ensures CanonicalSeats(CanonicalSeats(a)) == CanonicalSeats(a)
  {}

  lemma NormAddonIdempotent(kit: MspKit, v: Json)
    requires Sound(kit)
    ensures NormAddon(kit, NormAddon(kit, v)) == NormAddon(kit, v)
  {
    SeatsAgreeIff(kit.toInt(Get(DictOrEmpty(v), "seats")), 0);
  }

  /** Sorted add-ons stay as they are. */
  lemma NormAddonsIdempotent(kit: MspKit, items: seq<Json>)
    requires Sound(kit)
    ensures var once := SortBy(NormAddons(kit, items), AddonKey(kit));
            SortBy(NormAddons(kit, once), AddonKey(kit)) == once
  {
    var all, key := NormAddons(kit, items), AddonKey(kit);
    var once := SortBy(all, key);
    SortKeepsMembers(all, key);
    forall i | 0 <= i < |once| ensures NormAddon(kit, once[i]) == once[i] {
      assert once[i] in once;
      var j :| 0 <= j < |all| && all[j] == once[i];
      NormAddonIdempotent(kit, items[j]);
    }
    assert NormAddons(kit, once) == once;
    SortSorts(all, key);
    SortOfSorted(once, key);
  }

  lemma NormFieldIdempotent(kit: MspKit, f: Column, v: Json)
    requires Sound(kit)
    ensures NormField(kit, f, NormField(kit, f, v)) == NormField(kit, f, v)
  {
    match f {
      case Plan_ =>
      case Seats => SeatsAgreeIff(kit.toInt(v), 0);
      case FilePlan =>
      case Addons => NormAddonsIdempotent(kit, if v.JList? then v.items else []);
    }
  }

  /** A manifest row in canonical form. */
  ghost predicate Canonical(kit: MspKit, d: Dict) {
    && "name" in d && d["name"] == JStr(Name(kit, d))
    && forall f: Column :: ColumnName(f) in d && NormField(kit, f, d[ColumnName(f)]) == d[ColumnName(f)]
  }

  lemma NormRowAt(kit: MspKit, row: Dict, f: Column)
    ensures ColumnName(f) in NormRow(kit, row) && NormRow(kit, row)[ColumnName(f)] == NormField(kit, f, Get(row, ColumnName(f)))
  {
    match f { case Plan_ => case Seats => case FilePlan => case Addons => }
  }

  lemma NormRowIsCanonical(kit: MspKit, row: Dict)
    requires Sound(kit)
    ensures Canonical(kit, NormRow(kit, row)) && Name(kit, NormRow(kit, row)) == Name(kit, row)
  {
    forall f: Column
      ensures ColumnName(f) in NormRow(kit, row)
      ensures NormField(kit, f, NormRow(kit, row)[ColumnName(f)]) == NormRow(kit, row)[ColumnName(f)]
    {
      NormRowAt(kit, row, f);
      NormFieldIdempotent(kit, f, Get(row, ColumnName(f)));
    }
  }
}
