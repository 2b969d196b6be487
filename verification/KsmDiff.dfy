/** The desired-against-live diff of `keeper-ksm.v1` (keeper_sdk/core/ksm_diff.py). */
module KsmDiff {
  import opened Json
  import opened OrderedDict
  import opened KeyedDiff
  import opened Sorting
  import opened Plans
  import opened KsmNormalise

  datatype Block = Apps | Tokens | RecordShares | ConfigOutputs

  // -------------------------------------------------------------------- naming objects

  /** `_key_for` */
  function KeyOf(b: Block, d: Dict): string {
    match b
    case Apps => "apps:" + TextField(d, "uid_ref")
    case Tokens => "tokens:" + TextField(d, "uid_ref")
    case RecordShares => "record_shares:" + TextField(d, "app_uid_ref") + "|" + TextField(d, "record_uid_ref")
    case ConfigOutputs => "config_outputs:" + TextField(d, "app_uid_ref") + "|" + TextField(d, "output_path")
  }

  /** `_uid_ref_for` */
  function RefOf(b: Block, d: Dict): string {
    match b
    case Apps => TextField(d, "uid_ref")
    case Tokens => TextField(d, "uid_ref")
    case RecordShares => "share:" + TextField(d, "app_uid_ref") + ":" + TextField(d, "record_uid_ref")
    case ConfigOutputs => "config:" + TextField(d, "app_uid_ref") + ":" + TextField(d, "output_path")
  }

  /** `_title_for` */
  function TitleOf(b: Block, d: Dict): string {
    match b
    case RecordShares => TextField(d, "app_uid_ref") + " -> " + TextField(d, "record_uid_ref")
    case ConfigOutputs => TextField(d, "output_path")
    case _ => if TextField(d, "name") == "" then TextField(d, "uid_ref") else TextField(d, "name")
  }

  function ResourceOf(b: Block): string {
    match b
    case Apps => "ksm_app"
    case Tokens => "ksm_token"
    case RecordShares => "ksm_record_share"
    case ConfigOutputs => "ksm_config_output"
  }

  function BlockRank(resourceType: string): nat {
    if resourceType == "ksm_app" then 0 else if resourceType == "ksm_token" then 1
    else if resourceType == "ksm_record_share" then 2 else if resourceType == "ksm_config_output" then 3 else 4
  }

  function RankOf(b: Block): nat {
    match b case Apps => 0 case Tokens => 1 case RecordShares => 2 case ConfigOutputs => 3
  }

  lemma RanksMatch(b: Block)
    ensures BlockRank(ResourceOf(b)) == RankOf(b)
  {}

  /** `_KsmObject` */
  datatype Obj = Obj(block: Block, payload: Dict, key: string, uidRef: string, title: string, keeperUid: Option<string>)

  function ObjOf(kit: Kit, b: Block, row: Dict): Obj {
    var p := NormPayload(kit, row);
    Obj(b, p, KeyOf(b, p), RefOf(b, p), TitleOf(b, p),
        match Get(row, KEEPER_UID) { case JNull => None case JStr(s) => Some(s) case v => Some(kit.str(v)) })
  }

  // ------------------------------------------------------------------------- field drift

  /** The keys `_field_delta` reports. */
  function Drift(live: Dict, desired: Dict): set<string> {
    set k | k in live.Keys + desired.Keys && k != "uid_ref" && Get(live, k) != Get(desired, k)
  }

  function DeltaOf(d: Dict, keys: set<string>): Dict {
    map k | k in keys :: Get(d, k)
  }

  method FieldDelta(live: Dict, desired: Dict) returns (before: Dict, after: Dict)
    ensures before == DeltaOf(live, Drift(live, desired)) && after == DeltaOf(desired, Drift(live, desired))
  {
    before, after := map[], map[];
    var keys := live.Keys + desired.Keys;
    var left := keys;
    while left != {}
      invariant left <= keys
      invariant before == DeltaOf(live, Drift(live, desired) - left)
      invariant after == DeltaOf(desired, Drift(live, desired) - left)
    {
      var k :| k in left;
      if k != "uid_ref" && Get(live, k) != Get(desired, k) {
        before := before[k := Get(live, k)];
        after := after[k := Get(desired, k)];
      }
      left := left - {k};
    }
    assert Drift(live, desired) - {} == Drift(live, desired);
  }

  // -------------------------------------------------------------------------- the index

  const KEY_OF: Obj -> string := (o: Obj) => o.key

  /** `_index_objects` */
  function Index(objs: seq<Obj>): seq<Obj> {
    IndexBy(objs, KEY_OF)
  }

  ghost predicate DistinctKeys(objs: seq<Obj>) {
    DistinctBy(objs, KEY_OF)
  }

  function With(objs: seq<Obj>, key: string): seq<Obj> {
    Having(objs, KEY_OF, key)
  }

  function Objects(kit: Kit, rows: seq<(Block, Dict)>): seq<Obj> {
    seq(|rows|, i requires 0 <= i < |rows| => ObjOf(kit, rows[i].0, rows[i].1))
  }

  // ---------------------------------------------------------------------------- the rows

  function RowBase(o: Obj, kind: Kind): Change {
    Change(kind, Some(o.uidRef), ResourceOf(o.block), o.title, None, map[], map[])
  }

  function CreateChange(o: Obj): Change {
    RowBase(o, Create).(after := o.payload)
  }

  function MatchedChange(o: Obj, l: Obj): Change {
    var drift := Drift(l.payload, o.payload);
    if drift != {} then
      RowBase(o, Update).(keeperUid := l.keeperUid, before := DeltaOf(l.payload, drift), after := DeltaOf(o.payload, drift))
    else RowBase(o, Noop).(keeperUid := l.keeperUid, before := l.payload, after := o.payload)
  }

  function OrphanChange(l: Obj, allowDelete: bool): Change {
    RowBase(l, if allowDelete then Delete else Skip).(keeperUid := l.keeperUid, before := l.payload)
  }

  function DuplicateChange(first: Obj, count: nat): Change {
    RowBase(first, Conflict).(before := map["uid_ref" := JStr(first.uidRef), "count" := JNum(count)])
  }

  function KsmRules(allowDelete: bool): Rules<Obj, Obj, Change> {
    Rules(CreateChange, MatchedChange, (l: Obj) => OrphanChange(l, allowDelete),
          (first: Obj, all: seq<Obj>) => DuplicateChange(first, |all|))
  }

  function SidesOf(desired: seq<Obj>, live: seq<Obj>): Sides<Obj, Obj> {
    Sides(desired, KEY_OF, live, KEY_OF)
  }

  function KindRank(k: Kind): nat {
    match k
    case Create => 0
    case Update => 1
    case Noop => 2
    case Delete => 3
    case Skip => 3
    case Conflict => 4
  }

  /** `_change_sort_key` */
  function SortKey(c: Change): Key {
    Key(KindRank(c.kind), BlockRank(c.resourceType), if OrEmpty(c.uidRef) != "" then c.uidRef.value else c.title)
  }

  function TaggedChanges(desired: seq<Obj>, live: seq<Obj>, allowDelete: bool): seq<Tagged<Change>> {
    Rows(KsmRules(allowDelete), SidesOf(desired, live))
  }

  /** `compute_ksm_diff` over indexed objects. */
  function Diff(desired: seq<Obj>, live: seq<Obj>, allowDelete: bool): seq<Change> {
    SortBy(Untagged(TaggedChanges(desired, live, allowDelete)), SortKey)
  }

  lemma DeltaIsEmptyIff(live: Dict, desired: Dict)
    ensures DeltaOf(live, Drift(live, desired)) == map[] <==> Drift(live, desired) == {}
    ensures DeltaOf(desired, Drift(live, desired)) == map[] <==> Drift(live, desired) == {}
  {
    var drift := Drift(live, desired);
    assert DeltaOf(live, drift).Keys == drift && DeltaOf(desired, drift).Keys == drift;
  }

  /** The row of a matched pair, from the two sides of `_field_delta`. */
  method MatchedRow(o: Obj, l: Obj) returns (c: Change)
    ensures c == MatchedChange(o, l)
  {
    var before, after := FieldDelta(l.payload, o.payload);
    DeltaIsEmptyIff(l.payload, o.payload);
    if before != map[] || after != map[] {
      c := RowBase(o, Update).(keeperUid := l.keeperUid, before := before, after := after);
    } else {
      c := RowBase(o, Noop).(keeperUid := l.keeperUid, before := l.payload, after := o.payload);
    }
  }

  /** `compute_ksm_diff` */
  method ComputeKsmDiff(kit: Kit, manifest: seq<(Block, Dict)>, snapshot: seq<(Block, Dict)>, allowDelete: bool)
    returns (changes: seq<Change>)
    ensures changes == Diff(Index(Objects(kit, manifest)), Objects(kit, snapshot), allowDelete)
  {
    var desired := BuildIndex(Objects(kit, manifest), KEY_OF);
    changes := Classify(KsmRules(allowDelete), SidesOf(desired, Objects(kit, snapshot)));
    changes := SortBy(changes, SortKey);
  }
}
