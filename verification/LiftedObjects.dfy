/** What lifting an export keeps and adds (keeper_sdk/core/normalize.py), object by object
    and section by section. */
module LiftedObjects {
  import opened Json
  import opened Numerals
  import opened Normalize

  // ---------------------------------------------------------------------- one object

  /** The text a reference is made from. */
  function NamedBy(shape: Shape, d: Dict): string {
    match shape
    case Gateway => if "name" in d then TextField(d, "name") else "gateway"
    case Resource => if "title" in d then TextField(d, "title") else "resource"
    case Config => if TextField(d, "title") != "" then TextField(d, "title") else if TextField(d, "environment") != "" then TextField(d, "environment") else "pamcfg"
    case User => if TextField(d, "title") != "" then TextField(d, "title") else if TextField(d, "login") != "" then TextField(d, "login") else "user"
  }

  function Lead(shape: Shape): string {
    match shape case Gateway => "gw" case Config => "pc" case Resource => "res" case User => "usr"
  }

  /** A reference made from a text: prefix, slug, and a number from 2 on if taken. */
  ghost predicate MadeFrom(s: Slugs, lead: string, text: string, ref: string) {
    var stem := lead + "." + if s.slug(text) != "" then s.slug(text) else lead;
    ref == stem || exists n :: Numbered(stem, n, ref)
  }

  predicate Numbered(stem: string, n: nat, ref: string) {
    n >= 2 && ref == stem + "-" + Decimal(n)
  }

  /** The lifted form of an object: every field as it was, with a reference made from its
      name and a mode for a gateway where it has none, ... */
  ghost predicate OwnLifted(s: Slugs, shape: Shape, d: Dict, item: Dict) {
    && (forall k | k != "uid_ref" && !(shape == Gateway && k == "mode") && !(shape == Resource && k == "users") :: SameAt(item, d, k))
    && "uid_ref" in item
    && (if "uid_ref" in d then item["uid_ref"] == d["uid_ref"]
        else exists ref :: item["uid_ref"] == JStr(ref) && MadeFrom(s, Lead(shape), NamedBy(shape, d), ref))
    && (shape == Gateway ==> Get(item, "mode") == if "mode" in d then d["mode"] else JStr("reference_existing"))
  }

  /** ... and the users of a resource lifted one by one. */
  ghost predicate LiftedFrom(s: Slugs, shape: Shape, d: Dict, item: Dict)
    decreases ShapeRank(shape)
  {
    && OwnLifted(s, shape, d, item)
    && (shape == Resource ==>
          && ("users" in item <==> "users" in d)
          && ("users" in d ==>
                exists users: seq<Dict> :: item["users"] == AsList(users) && |users| == |ItemsOf(d["users"])|
                  && forall i | 0 <= i < |users| :: LiftedFrom(s, User, ItemsOf(d["users"])[i], users[i])))
  }

  ghost predicate AllLifted(s: Slugs, shape: Shape, ds: seq<Dict>, items: seq<Dict>) {
    |items| == |ds| && forall i | 0 <= i < |ds| :: LiftedFrom(s, shape, ds[i], items[i])
  }

  lemma {:induction false} FreshIsNumbered(stem: string, idx: nat, taken: set<string>)
    requires idx >= 1
    ensures var r := FreshFrom(stem, idx, taken); r == stem || exists n :: Numbered(stem, n, r)
    decreases taken
  {
    var c := Candidate(stem, idx);
    assert idx >= 2 ==> Numbered(stem, idx, c);
    if c in taken { FreshIsNumbered(stem, idx + 1, taken - {c}); }
  }

  lemma FreshIsMade(s: Slugs, lead: string, text: string, used: set<string>)
    ensures MadeFrom(s, lead, text, Fresh(Stem(s, text, lead), used))
  {
    FreshIsNumbered(Stem(s, text, lead), 1, used);
  }

  lemma OwnIsLifted(s: Slugs, shape: Shape, d: Dict, used: set<string>)
    ensures OwnLifted(s, shape, d, Lift(s, shape, d, used).0)
  {
    var ref := Fresh(Stem(s, SeedOf(shape, d), PrefixOf(shape)), used);
    NamesAgree(shape, d);
    FreshIsMade(s, Lead(shape), NamedBy(shape, d), used);
    hide MadeFrom, Fresh, Stem, SeedOf, PrefixOf, Lead, NamedBy, ItemsOf, AsList, LiftAll;
  }

  lemma {:induction false} LiftIsLifted(s: Slugs, shape: Shape, d: Dict, used: set<string>)
    ensures LiftedFrom(s, shape, d, Lift(s, shape, d, used).0)
    decreases ShapeRank(shape), 0, 0
  {
    hide OwnLifted, Fresh, Stem, SeedOf, PrefixOf, ItemsOf, AsList;
    OwnIsLifted(s, shape, d, used);
    if shape == Resource && "users" in d {
      var ref := Fresh(Stem(s, SeedOf(shape, d), PrefixOf(shape)), used);
      var users := LiftAll(s, User, ItemsOf(d["users"]), used + {ref}).items;
      ListIsLifted(s, User, ItemsOf(d["users"]), used + {ref});
      assert Lift(s, shape, d, used).0 == SetDefault(d, "uid_ref", JStr(ref))["users" := AsList(users)];
    }
  }

  lemma NamesAgree(shape: Shape, d: Dict)
    ensures SeedOf(shape, d) == NamedBy(shape, d) && PrefixOf(shape) == Lead(shape)
  {}

  lemma {:induction false} ListIsLifted(s: Slugs, shape: Shape, ds: seq<Dict>, used: set<string>)
    ensures AllLifted(s, shape, ds, LiftAll(s, shape, ds, used).items)
    decreases ShapeRank(shape), 1, |ds|
  {
    hide LiftedFrom, Lift;
    if ds != [] {
      var n := |ds| - 1;
      var before := LiftAll(s, shape, ds[..n], used);
      ListIsLifted(s, shape, ds[..n], used);
      LiftIsLifted(s, shape, ds[n], before.used);
      assert forall i | 0 <= i < n :: ds[..n][i] == ds[i];
    }
  }

  // ------------------------------------------------------------------ a whole document

  predicate Section(doc: Dict, key: string, items: seq<Dict>) {
    key in doc && items == ItemsOf(doc[key])
  }

  /** What the sections are lifted from: the document's own, or what the native form has. */
  predicate GatewaysOf(s: Slugs, doc: Dict, ds: seq<Dict>) {
    var native := Get(doc, "pam_configuration");
    var name := s.strip(TextField(DictOrEmpty(native), "gateway_name"));
    if "gateways" in doc then Section(doc, "gateways", ds)
    else if native.JObj? && name != "" then ds == [map["name" := JStr(name)]] else ds == []
  }

  ghost predicate ConfigsOf(doc: Dict, ds: seq<Dict>) {
    var native := Get(doc, "pam_configuration");
    if "pam_configurations" in doc then Section(doc, "pam_configurations", ds)
    else if native.JObj? then |ds| == 1 && "gateway_name" !in ds[0] && forall k | k != "gateway_name" :: SameAt(ds[0], native.fields, k)
    else ds == []
  }

  predicate NestedOf(doc: Dict, key: string, ds: seq<Dict>) {
    var data := DictOrEmpty(Get(doc, "pam_data"));
    if key in doc then Section(doc, key, ds)
    else if Get(data, key).JList? then ds == ItemsOf(data[key]) else ds == []
  }

  /** A native configuration that names a gateway is linked to the lifted one; every other
      is left as lifted. */
  ghost predicate LinkedFrom(doc: Dict, gateways: seq<Dict>, lifted: seq<Dict>, configs: seq<Dict>) {
    var native := DictOrEmpty(Get(doc, "pam_configuration"));
    if "pam_configurations" in doc || !Truthy(Get(native, "gateway_name")) || gateways == [] || |lifted| != 1 then configs == lifted
    else
      && |configs| == 1 && Get(configs[0], "gateway_uid_ref") == Get(gateways[0], "uid_ref")
      && forall k | k != "gateway_uid_ref" :: SameAt(configs[0], lifted[0], k)
  }

  /** The shared folders: the document's own, or the two native ones under their names. */
  ghost predicate FoldersOf(s: Slugs, doc: Dict, folders: Json) {
    if "shared_folders" in doc then folders == doc["shared_folders"]
    else
      && (folders.JObj? <==> Get(doc, "shared_folder_resources").JObj? || Get(doc, "shared_folder_users").JObj?)
      && (folders.JObj? || folders == JNull)
      && (folders.JObj? ==>
            && folders.fields.Keys <= {"resources", "users"}
            && FolderFrom(s, "resources", Get(doc, "shared_folder_resources"), Get(folders.fields, "resources"))
            && FolderFrom(s, "users", Get(doc, "shared_folder_users"), Get(folders.fields, "users")))
  }

  ghost predicate FolderFrom(s: Slugs, name: string, v: Json, folder: Json) {
    if !v.JObj? then folder == JNull
    else
      && folder.JObj? && (forall k | k != "uid_ref" :: SameAt(folder.fields, v.fields, k))
      && if "uid_ref" in v.fields then Get(folder.fields, "uid_ref") == v.fields["uid_ref"]
         else exists ref :: Get(folder.fields, "uid_ref") == JStr(ref) && MadeFrom(s, "sf", name, ref)
  }

  lemma FolderIsLifted(s: Slugs, doc: Dict, key: string, name: string, used: set<string>)
    ensures var (d, _) := LiftFolder(s, doc, key, name, used);
            FolderFrom(s, name, Get(doc, key), match d { case None => JNull case Some(x) => JObj(x) })
  {
    hide MadeFrom;
    FreshIsMade(s, "sf", name, used);
  }

  lemma FoldersAreLifted(s: Slugs, doc: Dict)
    ensures FoldersOf(s, doc, Folders(s, doc).0)
  {
    hide FolderFrom, Fresh, Stem;
    if "shared_folders" !in doc {
      var (r, used) := LiftFolder(s, doc, "shared_folder_resources", "resources", {});
      FolderIsLifted(s, doc, "shared_folder_resources", "resources", {});
      FolderIsLifted(s, doc, "shared_folder_users", "users", used);
      var both := Entry("resources", r) + Entry("users", LiftFolder(s, doc, "shared_folder_users", "users", used).0);
      assert "resources" in both || "users" in both <==> both != map[];
    }
  }

  lemma SourceIsLifted(s: Slugs, shape: Shape, source: Option<seq<Dict>>, used: set<string>)
    ensures AllLifted(s, shape, if source.Some? then source.value else [], LiftSource(s, shape, source, used).items)
  {
    ListIsLifted(s, shape, if source.Some? then source.value else [], used);
  }

  /** The lifted manifest: each section has the objects of its source, each in lifted form. */
  lemma DocumentIsLifted(s: Slugs, doc: Dict)
    ensures var m := FromPamImport(s, doc);
            && FoldersOf(s, doc, m.folders)
            && (exists ds :: GatewaysOf(s, doc, ds) && AllLifted(s, Gateway, ds, m.gateways))
            && (exists ds, lifted :: ConfigsOf(doc, ds) && AllLifted(s, Config, ds, lifted) && LinkedFrom(doc, m.gateways, lifted, m.configs))
            && (exists ds :: NestedOf(doc, "resources", ds) && AllLifted(s, Resource, ds, m.resources))
            && (exists ds :: NestedOf(doc, "users", ds) && AllLifted(s, User, ds, m.users))
  {
    hide FoldersOf, Folders, AllLifted, LiftSource;
    FoldersAreLifted(s, doc);
    var (_, used) := Folders(s, doc);
    var g := LiftSource(s, Gateway, GatewaySource(s, doc), used);
    var c := LiftSource(s, Config, ConfigSource(doc), g.used);
    var r := LiftSource(s, Resource, NestedSource(doc, "resources"), c.used);
    SourceIsLifted(s, Gateway, GatewaySource(s, doc), used);
    SourceIsLifted(s, Config, ConfigSource(doc), g.used);
    SourceIsLifted(s, Resource, NestedSource(doc, "resources"), c.used);
    SourceIsLifted(s, User, NestedSource(doc, "users"), r.used);
    assert LinkedFrom(doc, g.items, c.items, FromPamImport(s, doc).configs);
    assert GatewaysOf(s, doc, ListOf(GatewaySource(s, doc))) && ConfigsOf(doc, ListOf(ConfigSource(doc)));
    assert NestedOf(doc, "resources", ListOf(NestedSource(doc, "resources"))) && NestedOf(doc, "users", ListOf(NestedSource(doc, "users")));
  }

  function ListOf(source: Option<seq<Dict>>): seq<Dict> {
    if source.Some? then source.value else []
  }
}
