/** Lifting a Commander export into a manifest (keeper_sdk/core/normalize.py): every object
    gets a reference made from its title, kept apart from the others by a suffix. */
module Normalize {
  import opened Json
  import opened Numerals
  import opened Graph

  /** `_slugify` and `str.strip` */
  datatype Slugs = Slugs(slug: string -> string, strip: string -> string)

  datatype Shape = Gateway | Config | Resource | User

  // -------------------------------------------------------------------- fresh references

  /** `a`, `a-2`, `a-3`, ... */
  function Candidate(stem: string, idx: nat): string {
    if idx <= 1 then stem else stem + "-" + Decimal(idx)
  }

  lemma CandidatesDiffer(stem: string, i: nat, j: nat)
    requires 1 <= i < j
    ensures Candidate(stem, i) != Candidate(stem, j)
  {
    var a, b := Candidate(stem, i), Candidate(stem, j);
    if a == b && i > 1 {
      var lead := stem + "-";
      assert a == lead + Decimal(i) && b == lead + Decimal(j);
      assert a[|lead|..] == Decimal(i) && b[|lead|..] == Decimal(j);
      DecimalInjective(i, j);
    }
  }

  /** The first candidate from `idx` on that is not taken. */
  function FreshFrom(stem: string, idx: nat, taken: set<string>): string
    decreases taken
  {
    var c := Candidate(stem, idx);
    if c !in taken then c else FreshFrom(stem, idx + 1, taken - {c})
  }

  function Fresh(stem: string, used: set<string>): string {
    FreshFrom(stem, 1, used)
  }

  lemma {:induction false} FreshFromIs(stem: string, idx: nat, taken: set<string>) returns (k: nat)
    requires idx >= 1
    ensures k >= idx && FreshFrom(stem, idx, taken) == Candidate(stem, k) && Candidate(stem, k) !in taken
    ensures forall i | idx <= i < k :: Candidate(stem, i) in taken
    decreases taken
  {
    var c := Candidate(stem, idx);
    if c !in taken {
      k := idx;
    } else {
      k := FreshFromIs(stem, idx + 1, taken - {c});
      CandidatesDiffer(stem, idx, k);
    }
  }

  /** The reference handed out is new, and the least of its series that is. */
  lemma FreshIsLeast(stem: string, used: set<string>) returns (k: nat)
    ensures k >= 1 && Fresh(stem, used) == Candidate(stem, k)
    ensures Fresh(stem, used) !in used && forall i | 1 <= i < k :: Candidate(stem, i) in used
  {
    k := FreshFromIs(stem, 1, used);
  }

  /** The closure `assign_ref` with its set of used references. */
  class RefPool {
    var used: set<string>

    constructor ()
      ensures used == {}
    {
      used := {};
    }

    method Assign(stem: string) returns (ref: string)
      modifies this
      ensures ref == Fresh(stem, old(used)) && used == old(used) + {ref}
    {
      var idx := 1;
      ref := Candidate(stem, idx);
      ghost var left := used;
      while ref in used
        invariant idx >= 1 && ref == Candidate(stem, idx)
        invariant left <= used && forall k | k >= idx :: Candidate(stem, k) in left <==> Candidate(stem, k) in used
        invariant FreshFrom(stem, idx, left) == Fresh(stem, used)
        decreases left
      {
        forall k | k >= idx + 1 ensures Candidate(stem, k) != ref { CandidatesDiffer(stem, idx, k); }
        left := left - {ref};
        idx := idx + 1;
        ref := Candidate(stem, idx);
      }
      used := used + {ref};
    }
  }

  // ------------------------------------------------------------------------ one object

  /** `d.get(a) or d.get(b) or fallback` */
  function FirstText(d: Dict, a: string, b: string, fallback: string): string {
    if TextField(d, a) != "" then TextField(d, a) else if TextField(d, b) != "" then TextField(d, b) else fallback
  }

  function SeedOf(shape: Shape, d: Dict): string {
    match shape
    case Gateway => if "name" in d then TextField(d, "name") else "gateway"
    case Config => FirstText(d, "title", "environment", "pamcfg")
    case Resource => if "title" in d then TextField(d, "title") else "resource"
    case User => FirstText(d, "title", "login", "user")
  }

  function PrefixOf(shape: Shape): string {
    match shape
    case Gateway => "gw"
    case Config => "pc"
    case Resource => "res"
    case User => "usr"
  }

  function Stem(s: Slugs, seed: string, prefix: string): string {
    prefix + "." + if s.slug(seed) != "" then s.slug(seed) else prefix
  }

  /** `d.setdefault(k, v)` */
  function SetDefault(d: Dict, k: string, v: Json): Dict {
    if k in d then d else d[k := v]
  }

  /** The dicts of a list. */
  function ItemsOf(v: Json): seq<Dict> {
    if v.JList? then seq(|v.items|, i requires 0 <= i < |v.items| => DictOrEmpty(v.items[i])) else []
  }

  function AsList(items: seq<Dict>): Json {
    JList(seq(|items|, i requires 0 <= i < |items| => JObj(items[i])))
  }

  datatype Lifted = Lifted(items: seq<Dict>, used: set<string>)

  function ShapeRank(shape: Shape): nat {
    if shape == Resource then 1 else 0
  }

  /** One object: its reference is assigned whether or not it keeps one of its own. */
  function Lift(s: Slugs, shape: Shape, d: Dict, used: set<string>): (Dict, set<string>)
    decreases ShapeRank(shape), 0, 0
  {
    var ref := Fresh(Stem(s, SeedOf(shape, d), PrefixOf(shape)), used);
    var item := SetDefault(d, "uid_ref", JStr(ref));
    if shape == Gateway then (SetDefault(item, "mode", JStr("reference_existing")), used + {ref})
    else if shape == Resource && "users" in item then
      var users := LiftAll(s, User, ItemsOf(item["users"]), used + {ref});
      (item["users" := AsList(users.items)], users.used)
    else (item, used + {ref})
  }

  function LiftAll(s: Slugs, shape: Shape, items: seq<Dict>, used: set<string>): (r: Lifted)
    decreases ShapeRank(shape), 1, |items|
  {
    if items == [] then Lifted([], used)
    else
      var n := |items| - 1;
      var before := LiftAll(s, shape, items[..n], used);
      var (item, after) := Lift(s, shape, items[n], before.used);
      Lifted(before.items + [item], after)
  }

  method LiftOne(pool: RefPool, s: Slugs, shape: Shape, d: Dict) returns (item: Dict)
    modifies pool
    ensures (item, pool.used) == Lift(s, shape, d, old(pool.used))
    decreases ShapeRank(shape), 0, 0
  {
    var ref := pool.Assign(Stem(s, SeedOf(shape, d), PrefixOf(shape)));
    item := SetDefault(d, "uid_ref", JStr(ref));
    if shape == Gateway {
      item := SetDefault(item, "mode", JStr("reference_existing"));
    } else if shape == Resource && "users" in item {
      var users := LiftList(pool, s, User, ItemsOf(item["users"]));
      item := item["users" := AsList(users)];
    }
  }

  method LiftList(pool: RefPool, s: Slugs, shape: Shape, items: seq<Dict>) returns (out: seq<Dict>)
    modifies pool
    ensures Lifted(out, pool.used) == LiftAll(s, shape, items, old(pool.used))
    decreases ShapeRank(shape), 1, |items|
  {
    out := [];
    for i := 0 to |items|
      invariant Lifted(out, pool.used) == LiftAll(s, shape, items[..i], old(pool.used))
    {
      assert items[..i + 1][..i] == items[..i];
      var item := LiftOne(pool, s, shape, items[i]);
      out := out + [item];
    }
    assert items[..|items|] == items;
  }

  // ----------------------------------------------------------------- references are fresh

  function OwnRef(d: Dict): seq<string> {
    if TextField(d, "uid_ref") == "" then [] else [TextField(d, "uid_ref")]
  }

  /** The references an object and its nested users carry. */
  function RefsIn(shape: Shape, d: Dict): seq<string>
    decreases ShapeRank(shape), 0, 0
  {
    OwnRef(d) + if shape == Resource && "users" in d then RefsInAll(User, ItemsOf(d["users"])) else []
  }

  function RefsInAll(shape: Shape, items: seq<Dict>): seq<string>
    decreases ShapeRank(shape), 1, |items|
  {
    if items == [] then [] else RefsInAll(shape, items[..|items| - 1]) + RefsIn(shape, items[|items| - 1])
  }

  ghost predicate Bare(shape: Shape, d: Dict) {
    "uid_ref" !in d && (shape == Resource && "users" in d ==> forall u | u in ItemsOf(d["users"]) :: "uid_ref" !in u)
  }

  function SetOf(refs: seq<string>): set<string> {
    set r | r in refs
  }

  /** New references: distinct, unused before, and exactly what was added. */
  ghost predicate Adds(refs: seq<string>, used: set<string>, after: set<string>) {
    Distinct(refs) && SetOf(refs) !! used && after == used + SetOf(refs)
  }

  lemma AddsCompose(a: seq<string>, b: seq<string>, u: set<string>, v: set<string>, w: set<string>)
    requires Adds(a, u, v) && Adds(b, v, w)
    ensures Adds(a + b, u, w)
  {
    forall i, j | 0 <= i < |a| && 0 <= j < |b| ensures a[i] != b[j] {
      assert a[i] in SetOf(a) && b[j] in SetOf(b);
    }
    assert SetOf(a + b) == SetOf(a) + SetOf(b);
  }

  lemma AssignedIsNew(s: Slugs, seed: string, prefix: string, used: set<string>)
    ensures var ref := Fresh(Stem(s, seed, prefix), used); ref != "" && Adds([ref], used, used + {ref})
  {
    var stem := Stem(s, seed, prefix);
    var k := FreshIsLeast(stem, used);
    assert stem[|prefix|] == '.';
    assert SetOf([Fresh(stem, used)]) == {Fresh(stem, used)};
  }

  lemma ItemsOfList(items: seq<Dict>)
    ensures ItemsOf(AsList(items)) == items
  {}

  lemma {:induction false} LiftAdds(s: Slugs, shape: Shape, d: Dict, used: set<string>)
    requires Bare(shape, d)
    ensures var (item, after) := Lift(s, shape, d, used); Adds(RefsIn(shape, item), used, after)
    decreases ShapeRank(shape), 0, 0
  {
    var seed, prefix := SeedOf(shape, d), PrefixOf(shape);
    var ref := Fresh(Stem(s, seed, prefix), used);
    AssignedIsNew(s, seed, prefix, used);
    var (item, after) := Lift(s, shape, d, used);
    assert OwnRef(item) == [ref];
    if shape == Resource && "users" in d {
      var users := ItemsOf(d["users"]);
      LiftAllAdds(s, User, users, used + {ref});
      var lifted := LiftAll(s, User, users, used + {ref});
      ItemsOfList(lifted.items);
      AddsCompose([ref], RefsInAll(User, lifted.items), used, used + {ref}, lifted.used);
    } else {
      assert [ref] + [] == [ref];
    }
  }

  /** The references assigned to a list of objects without any are new and distinct. */
  lemma {:induction false} LiftAllAdds(s: Slugs, shape: Shape, items: seq<Dict>, used: set<string>)
    requires forall d | d in items :: Bare(shape, d)
    ensures var l := LiftAll(s, shape, items, used); Adds(RefsInAll(shape, l.items), used, l.used)
    decreases ShapeRank(shape), 1, |items|
  {
    if items == [] {
      assert SetOf([]) == {};
    } else {
      var n := |items| - 1;
      LiftAllAdds(s, shape, items[..n], used);
      var before := LiftAll(s, shape, items[..n], used);
      LiftAdds(s, shape, items[n], before.used);
      var (item, after) := Lift(s, shape, items[n], before.used);
      assert (before.items + [item])[..|before.items|] == before.items;
      AddsCompose(RefsInAll(shape, before.items), RefsIn(shape, item), used, before.used, after);
    }
  }

  // -------------------------------------------------------------------- a whole document

  /** One of the two top-level shared folders. */
  function LiftFolder(s: Slugs, doc: Dict, key: string, seed: string, used: set<string>): (Option<Dict>, set<string>) {
    match Get(doc, key)
    case JObj(d) =>
      var ref := Fresh(Stem(s, seed, "sf"), used);
      (Some(SetDefault(d, "uid_ref", JStr(ref))), used + {ref})
    case _ => (None, used)
  }

  function Entry(k: string, d: Option<Dict>): Dict {
    match d { case None => map[] case Some(d) => map[k := JObj(d)] }
  }

  /** The manifest's `shared_folders`, and the references used. */
  function Folders(s: Slugs, doc: Dict): (Json, set<string>) {
    if "shared_folders" in doc then (doc["shared_folders"], {})
    else
      var (r, used) := LiftFolder(s, doc, "shared_folder_resources", "resources", {});
      var (u, used') := LiftFolder(s, doc, "shared_folder_users", "users", used);
      var both := Entry("resources", r) + Entry("users", u);
      (if both == map[] then JNull else JObj(both), used')
  }

  /** What a section is lifted from; None leaves it out. */
  function GatewaySource(s: Slugs, doc: Dict): Option<seq<Dict>> {
    if "gateways" in doc then Some(ItemsOf(doc["gateways"]))
    else
      var name := s.strip(TextField(DictOrEmpty(Get(doc, "pam_configuration")), "gateway_name"));
      if Get(doc, "pam_configuration").JObj? && name != "" then Some([map["name" := JStr(name)]]) else None
  }

  function ConfigSource(doc: Dict): Option<seq<Dict>> {
    if "pam_configurations" in doc then Some(ItemsOf(doc["pam_configurations"]))
    else match Get(doc, "pam_configuration")
      case JObj(d) => Some([d - {"gateway_name"}])
      case _ => None
  }

  /** `resources` and `users`: from the manifest shape, else from `pam_data`. */
  function NestedSource(doc: Dict, key: string): Option<seq<Dict>> {
    if key in doc then Some(ItemsOf(doc[key]))
    else
      var nested := Get(DictOrEmpty(Get(doc, "pam_data")), key);
      if nested.JList? then Some(ItemsOf(nested)) else None
  }

  function LiftSource(s: Slugs, shape: Shape, source: Option<seq<Dict>>, used: set<string>): Lifted {
    match source
    case None => Lifted([], used)
    case Some(items) => LiftAll(s, shape, items, used)
  }

  /** The single configuration of the native shape points at its gateway. */
  function Linked(doc: Dict, configs: seq<Dict>, gateways: seq<Dict>): seq<Dict> {
    var native := DictOrEmpty(Get(doc, "pam_configuration"));
    if "pam_configurations" !in doc && |configs| == 1 && Truthy(Get(native, "gateway_name")) && gateways != [] then
      [configs[0]["gateway_uid_ref" := Get(gateways[0], "uid_ref")]]
    else configs
  }

  /** The lifted sections of the manifest. */
  datatype Manifest = Manifest(folders: Json, gateways: seq<Dict>, configs: seq<Dict>, resources: seq<Dict>, users: seq<Dict>)

  /** `from_pam_import_json`, on a canonical document. */
  function FromPamImport(s: Slugs, doc: Dict): Manifest {
    var (folders, used) := Folders(s, doc);
    var g := LiftSource(s, Gateway, GatewaySource(s, doc), used);
    var c := LiftSource(s, Config, ConfigSource(doc), g.used);
    var r := LiftSource(s, Resource, NestedSource(doc, "resources"), c.used);
    var u := LiftSource(s, User, NestedSource(doc, "users"), r.used);
    Manifest(folders, g.items, Linked(doc, c.items, g.items), r.items, u.items)
  }

  method LiftSection(pool: RefPool, s: Slugs, shape: Shape, source: Option<seq<Dict>>) returns (items: seq<Dict>)
    modifies pool
    ensures Lifted(items, pool.used) == LiftSource(s, shape, source, old(pool.used))
  {
    if source.None? {
      items := [];
    } else {
      items := LiftList(pool, s, shape, source.value);
    }
  }

  method LiftFolders(pool: RefPool, s: Slugs, doc: Dict) returns (folders: Json)
    requires pool.used == {}
    modifies pool
    ensures (folders, pool.used) == Folders(s, doc)
  {
    if "shared_folders" in doc { return doc["shared_folders"]; }
    var out: Dict := map[];
    var r, u := Get(doc, "shared_folder_resources"), Get(doc, "shared_folder_users");
    ghost var (rFolder, rUsed) := LiftFolder(s, doc, "shared_folder_resources", "resources", {});
    if r.JObj? {
      var ref := pool.Assign(Stem(s, "resources", "sf"));
      out := out["resources" := JObj(SetDefault(r.fields, "uid_ref", JStr(ref)))];
    }
    assert pool.used == rUsed && out == Entry("resources", rFolder);
    ghost var (uFolder, uUsed) := LiftFolder(s, doc, "shared_folder_users", "users", rUsed);
    if u.JObj? {
      var ref := pool.Assign(Stem(s, "users", "sf"));
      out := out["users" := JObj(SetDefault(u.fields, "uid_ref", JStr(ref)))];
    }
    assert pool.used == uUsed && out == Entry("resources", rFolder) + Entry("users", uFolder);
    folders := if out == map[] then JNull else JObj(out);
  }

  method FromPamImportJson(s: Slugs, doc: Dict) returns (m: Manifest)
    ensures m == FromPamImport(s, doc)
  {
    var pool := new RefPool();
    var folders := LiftFolders(pool, s, doc);
    var gateways := LiftSection(pool, s, Gateway, GatewaySource(s, doc));
    var configs := LiftSection(pool, s, Config, ConfigSource(doc));
    var resources := LiftSection(pool, s, Resource, NestedSource(doc, "resources"));
    var users := LiftSection(pool, s, User, NestedSource(doc, "users"));
    m := Manifest(folders, gateways, Linked(doc, configs, gateways), resources, users);
  }

  // --------------------------------------------------------- references of the document

  function FolderRefs(folders: Json): seq<string> {
    OwnRef(DictOrEmpty(Get(DictOrEmpty(folders), "resources"))) + OwnRef(DictOrEmpty(Get(DictOrEmpty(folders), "users")))
  }

  /** Every reference the manifest carries. */
  function AllRefs(m: Manifest): seq<string> {
    FolderRefs(m.folders) + RefsInAll(Gateway, m.gateways) + RefsInAll(Config, m.configs)
    + RefsInAll(Resource, m.resources) + RefsInAll(User, m.users)
  }

  /** No dict anywhere inside has a uid_ref. */
  ghost predicate NoUidRef(v: Json) {
    match v
    case JObj(m) => "uid_ref" !in m && forall k | k in m :: NoUidRef(m[k])
    case JList(xs) => forall x | x in xs :: NoUidRef(x)
    case _ => true
  }

  lemma ItemsStayBare(v: Json, shape: Shape)
    requires NoUidRef(v)
    ensures forall d | d in ItemsOf(v) :: NoUidRef(JObj(d)) && Bare(shape, d)
  {
    forall d | d in ItemsOf(v) ensures NoUidRef(JObj(d)) && Bare(shape, d) {
      var i :| 0 <= i < |ItemsOf(v)| && ItemsOf(v)[i] == d;
      assert v.items[i] in v.items;
      if "users" in d { UsersAreBare(d["users"]); }
    }
  }

  lemma UsersAreBare(v: Json)
    requires NoUidRef(v)
    ensures forall d | d in ItemsOf(v) :: "uid_ref" !in d
  {
    forall d | d in ItemsOf(v) ensures "uid_ref" !in d {
      var i :| 0 <= i < |ItemsOf(v)| && ItemsOf(v)[i] == d;
      assert v.items[i] in v.items;
    }
  }

  ghost predicate BareSource(shape: Shape, source: Option<seq<Dict>>) {
    source.Some? ==> forall d | d in source.value :: Bare(shape, d)
  }

  lemma SourcesAreBare(s: Slugs, doc: Dict)
    requires NoUidRef(JObj(doc))
    ensures BareSource(Gateway, GatewaySource(s, doc)) && BareSource(Config, ConfigSource(doc))
    ensures BareSource(Resource, NestedSource(doc, "resources")) && BareSource(User, NestedSource(doc, "users"))
  {
    if "gateways" in doc { ItemsStayBare(doc["gateways"], Gateway); }
    if "pam_configurations" in doc { ItemsStayBare(doc["pam_configurations"], Config); }
    NestedIsBare(doc, "resources", Resource);
    NestedIsBare(doc, "users", User);
  }

  lemma NestedIsBare(doc: Dict, key: string, shape: Shape)
    requires NoUidRef(JObj(doc))
    ensures BareSource(shape, NestedSource(doc, key))
  {
    var nested := Get(DictOrEmpty(Get(doc, "pam_data")), key);
    if key in doc {
      ItemsStayBare(doc[key], shape);
    } else if nested.JList? {
      assert NoUidRef(nested);
      ItemsStayBare(nested, shape);
    }
  }

  lemma SourceAdds(s: Slugs, shape: Shape, source: Option<seq<Dict>>, used: set<string>)
    requires BareSource(shape, source)
    ensures var l := LiftSource(s, shape, source, used); Adds(RefsInAll(shape, l.items), used, l.used)
  {
    if source.Some? { LiftAllAdds(s, shape, source.value, used); } else { assert SetOf([]) == {}; }
  }

  function OrNone(d: Option<Dict>): Dict {
    if d.Some? then d.value else map[]
  }

  lemma FolderAdds(s: Slugs, doc: Dict, key: string, seed: string, used: set<string>)
    requires NoUidRef(JObj(doc))
    ensures var (d, after) := LiftFolder(s, doc, key, seed, used);
            Adds(OwnRef(OrNone(d)), used, after)
  {
    AssignedIsNew(s, seed, "sf", used);
    assert SetOf([]) == {};
  }

  lemma RefsOfEntries(r: Option<Dict>, u: Option<Dict>)
    ensures var both := Entry("resources", r) + Entry("users", u);
            FolderRefs(if both == map[] then JNull else JObj(both)) == OwnRef(OrNone(r)) + OwnRef(OrNone(u))
  {
    var both := Entry("resources", r) + Entry("users", u);
    if both == map[] {
      assert r.None? by { assert r.Some? ==> "resources" in both; }
      assert u.None? by { assert u.Some? ==> "users" in both; }
    }
  }

  lemma FoldersAdd(s: Slugs, doc: Dict)
    requires NoUidRef(JObj(doc))
    ensures Adds(FolderRefs(Folders(s, doc).0), {}, Folders(s, doc).1)
  {
    if "shared_folders" in doc {
      var folders := DictOrEmpty(doc["shared_folders"]);
      assert NoUidRef(doc["shared_folders"]);
      assert forall k | k in folders :: NoUidRef(folders[k]);
      assert FolderRefs(doc["shared_folders"]) == [];
      assert SetOf([]) == {};
    } else {
      var (r, used) := LiftFolder(s, doc, "shared_folder_resources", "resources", {});
      var (u, used') := LiftFolder(s, doc, "shared_folder_users", "users", used);
      FolderAdds(s, doc, "shared_folder_resources", "resources", {});
      FolderAdds(s, doc, "shared_folder_users", "users", used);
      AddsCompose(OwnRef(OrNone(r)), OwnRef(OrNone(u)), {}, used, used');
      RefsOfEntries(r, u);
    }
  }

  lemma LinkKeepsRefs(doc: Dict, configs: seq<Dict>, gateways: seq<Dict>)
    ensures RefsInAll(Config, Linked(doc, configs, gateways)) == RefsInAll(Config, configs)
  {
    if |configs| == 1 {
      assert configs == [configs[0]];
      var linked := [configs[0]["gateway_uid_ref" := if gateways == [] then JNull else Get(gateways[0], "uid_ref")]];
      assert RefsInAll(Config, linked) == RefsInAll(Config, []) + RefsIn(Config, linked[0]);
      assert RefsInAll(Config, configs) == RefsInAll(Config, []) + RefsIn(Config, configs[0]);
    }
  }

  /** Of a document without references, every gateway, configuration, resource, nested or
      top-level user and shared folder gets one, and no two the same, whatever their
      titles and whatever the suffixing makes of them. */
  lemma ReferencesAreDistinct(s: Slugs, doc: Dict)
    requires NoUidRef(JObj(doc))
    ensures Distinct(AllRefs(FromPamImport(s, doc)))
  {
    var (folders, used) := Folders(s, doc);
    var g := LiftSource(s, Gateway, GatewaySource(s, doc), used);
    var c := LiftSource(s, Config, ConfigSource(doc), g.used);
    var r := LiftSource(s, Resource, NestedSource(doc, "resources"), c.used);
    var u := LiftSource(s, User, NestedSource(doc, "users"), r.used);
    var m := FromPamImport(s, doc);
    SourcesAreBare(s, doc);
    FoldersAdd(s, doc);
    SourceAdds(s, Gateway, GatewaySource(s, doc), used);
    SourceAdds(s, Config, ConfigSource(doc), g.used);
    SourceAdds(s, Resource, NestedSource(doc, "resources"), c.used);
    SourceAdds(s, User, NestedSource(doc, "users"), r.used);
    LinkKeepsRefs(doc, c.items, g.items);
    var a := FolderRefs(folders) + RefsInAll(Gateway, g.items);
    AddsCompose(FolderRefs(folders), RefsInAll(Gateway, g.items), {}, used, g.used);
    AddsCompose(a, RefsInAll(Config, c.items), {}, g.used, c.used);
    AddsCompose(a + RefsInAll(Config, c.items), RefsInAll(Resource, r.items), {}, c.used, r.used);
    AddsCompose(a + RefsInAll(Config, c.items) + RefsInAll(Resource, r.items), RefsInAll(User, u.items), {}, r.used, u.used);
  }
}
