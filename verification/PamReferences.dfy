/** What the reference graph of a PAM manifest means (keeper_sdk/core/graph.py): where a
    reference may stand in an object, and which objects an edge joins. */
module PamReferences {
  import opened Json
  import opened PamDiff
  import opened PamGraph
  import Graph
  import PamRows

  // ------------------------------------------------------------ references by their place

  datatype Step = AtKey(key: string) | AtIndex(index: nat)

  /** Field `k` holding `v` is a reference field, and `v` of the shape such a field has. */
  predicate ReferenceField(k: string, v: Json) {
    (v.JList? && k == "additional_credentials_uid_refs")
    || (v.JStr? && k in {
          "pam_configuration_uid_ref", "gateway_uid_ref", "administrative_credentials_uid_ref",
          "launch_credentials_uid_ref", "autofill_credentials_uid_ref", "sftp_user_credentials_uid_ref",
          "sftp_resource_uid_ref", "pam_directory_uid_ref", "dom_administrative_credential_uid_ref"})
  }

  /** A reference field names `t`, itself or in its list. */
  predicate HoldsAt(v: Json, rest: seq<Step>, t: string) {
    (v == JStr(t) && rest == [])
    || (v.JList? && |rest| == 1 && rest[0].AtIndex? && rest[0].index < |v.items| && v.items[rest[0].index] == JStr(t))
  }

  /** The path of keys and list positions leads, through dicts and lists, to a scalar
      reference field holding `t`, or to an item `t` of a list reference field. */
  ghost predicate Leads(v: Json, path: seq<Step>, t: string)
    decreases |path|
  {
    if path == [] then false
    else if path[0].AtIndex? then
      v.JList? && path[0].index < |v.items| && Leads(v.items[path[0].index], path[1..], t)
    else if !v.JObj? || path[0].key !in v.fields then false
    else if !ReferenceField(path[0].key, v.fields[path[0].key]) then Leads(v.fields[path[0].key], path[1..], t)
    else HoldsAt(v.fields[path[0].key], path[1..], t)
  }

  ghost predicate Reaches(v: Json, t: string) {
    exists path :: Leads(v, path, t)
  }

  lemma {:induction false} LeadsIsCollected(v: Json, path: seq<Step>, t: string)
    requires Leads(v, path, t)
    ensures t in Refs(v)
    decreases |path|
  {
    if path[0].AtIndex? {
      var x := v.items[path[0].index];
      LeadsIsCollected(x, path[1..], t);
      assert x in v.items;
    } else {
      var k, x := path[0].key, v.fields[path[0].key];
      if !ReferenceField(k, x) { LeadsIsCollected(x, path[1..], t); }
      assert t in RefsAt(k, x);
    }
  }

  lemma StepInto(v: Json, step: Step, x: Json, path: seq<Step>, t: string)
    requires Leads(x, path, t)
    requires if step.AtKey? then v.JObj? && step.key in v.fields && v.fields[step.key] == x && !ReferenceField(step.key, x)
             else v.JList? && step.index < |v.items| && v.items[step.index] == x
    ensures Leads(v, [step] + path, t)
  {
    assert ([step] + path)[1..] == path;
  }

  lemma {:induction false} CollectedIsReached(v: Json, t: string)
    requires t in Refs(v)
    ensures Reaches(v, t)
    decreases v
  {
    if v.JObj? {
      var k :| k in v.fields && t in RefsAt(k, v.fields[k]);
      var x := v.fields[k];
      if !ReferenceField(k, x) {
        CollectedIsReached(x, t);
        var path :| Leads(x, path, t);
        StepInto(v, AtKey(k), x, path, t);
      } else if x.JStr? {
        assert Leads(v, [AtKey(k)], t);
      } else {
        var i :| 0 <= i < |x.items| && x.items[i] == JStr(t);
        assert Leads(v, [AtKey(k), AtIndex(i)], t);
      }
    } else {
      var x :| x in v.items && t in Refs(x);
      var i :| 0 <= i < |v.items| && v.items[i] == x;
      CollectedIsReached(x, t);
      var path :| Leads(x, path, t);
      StepInto(v, AtIndex(i), x, path, t);
    }
  }

  /** The references collected from a value are those that some path leads to. */
  lemma RefsAreReached(v: Json, t: string)
    ensures t in Refs(v) <==> Reaches(v, t)
  {
    if Reaches(v, t) {
      var path :| Leads(v, path, t);
      LeadsIsCollected(v, path, t);
    }
    if t in Refs(v) { CollectedIsReached(v, t); }
  }

  // ------------------------------------------------------------------- what edges mean

  ghost predicate Names(d: Dict, a: string, b: string) {
    Uid(d) == a && Reaches(JObj(d), b)
  }

  ghost predicate WalkedEdge(ds: seq<Dict>, a: string, b: string) {
    a != "" && exists d :: d in ds && Names(d, a, b)
  }

  /** A user the resource itself contains, by its uid_ref. */
  ghost predicate Contains(r: Dict, b: string) {
    b != "" && exists u :: PamRows.UserOf(r, u) && Uid(u) == b
  }

  ghost predicate ResourceEdge(rs: seq<Dict>, a: string, b: string) {
    exists r :: r in rs && Names(r, a, b) && !Contains(r, b)
  }

  /** An object kept in the shared folder for `section`, which has the uid_ref `b`. */
  ghost predicate Keeps(m: Manifest, d: Dict, section: string, a: string, b: string) {
    Uid(d) == a && Get(d, "shared_folder") == JStr(section) && Uid(Shared(m, section)) == b != ""
  }

  ghost predicate FolderEdge(m: Manifest, a: string, b: string) {
    (exists r, section :: r in m.resources && section in {"resources", "users"} && Keeps(m, r, section, a, b))
    || (a != "" && exists u :: u in m.users && Keeps(m, u, "users", a, b))
  }

  /** A nested user, under its own uid_ref or its host's, needs what it names, and its host. */
  ghost predicate NestedEdge(host: string, u: Dict, a: string, b: string) {
    a == UserRef(host, u) != "" && (Reaches(JObj(u), b) || (b == host && a != host && host != ""))
  }

  ghost predicate HostedEdge(rs: seq<Dict>, a: string, b: string) {
    exists r, u :: r in rs && PamRows.UserOf(r, u) && NestedEdge(Uid(r), u, a, b)
  }

  /** All that makes one object of a manifest depend on another. */
  ghost predicate Depends(m: Manifest, a: string, b: string) {
    || WalkedEdge(m.gateways, a, b) || WalkedEdge(m.configurations, a, b)
    || WalkedEdge(m.projects, a, b) || WalkedEdge(m.users, a, b)
    || ResourceEdge(m.resources, a, b) || FolderEdge(m, a, b) || HostedEdge(m.resources, a, b)
  }

  /** The uid_refs a manifest gives to its objects. */
  ghost predicate Named(m: Manifest, u: string) {
    || (exists d :: (d in m.gateways || d in m.configurations || d in m.resources) && Uid(d) == u)
    || (u != "" && exists d :: (d in m.projects || d in m.users) && Uid(d) == u)
    || (u != "" && (Uid(Shared(m, "users")) == u || Uid(Shared(m, "resources")) == u))
    || exists r :: r in m.resources && Contains(r, u)
  }

  lemma EdgesToAre(owner: string, targets: set<string>, a: string, b: string)
    ensures (a, b) in EdgesTo(owner, targets) <==> a == owner && b in targets
  {}

  lemma UsersAre(r: Dict)
    ensures forall u :: u in Users(r) <==> PamRows.UserOf(r, u)
  {
    forall u ensures u in Users(r) <==> PamRows.UserOf(r, u) { PamRows.UsersAre(r, u); }
  }

  lemma {:induction false} CollectionEdgesAre(ds: seq<Dict>, a: string, b: string)
    ensures (a, b) in CollectionEdges(ds) <==> WalkedEdge(ds, a, b)
  {
    if ds != [] {
      CollectionEdgesAre(ds[1..], a, b);
      RefsAreReached(JObj(ds[0]), b);
      EdgesToAre(Uid(ds[0]), Refs(JObj(ds[0])), a, b);
      assert ds == [ds[0]] + ds[1..];
      assert WalkedEdge(ds, a, b) <==> (a != "" && Names(ds[0], a, b)) || WalkedEdge(ds[1..], a, b);
    }
  }

  lemma {:induction false} TruthyUidsAre(ds: seq<Dict>, u: string)
    ensures u in TruthyUids(ds) <==> u != "" && exists d :: d in ds && Uid(d) == u
  {
    if ds != [] {
      TruthyUidsAre(ds[1..], u);
      assert ds == [ds[0]] + ds[1..];
    }
  }

  lemma {:induction false} AllUidsAre(ds: seq<Dict>, u: string)
    ensures u in AllUids(ds) <==> exists d :: d in ds && Uid(d) == u
  {
    if ds != [] {
      AllUidsAre(ds[1..], u);
      assert ds == [ds[0]] + ds[1..];
    }
  }

  lemma {:induction false} ResourceUidsAre(rs: seq<Dict>, u: string)
    ensures u in ResourceUids(rs) <==> exists r :: r in rs && (Uid(r) == u || Contains(r, u))
  {
    if rs != [] {
      ResourceUidsAre(rs[1..], u);
      TruthyUidsAre(Users(rs[0]), u);
      UsersAre(rs[0]);
      assert rs == [rs[0]] + rs[1..];
    }
  }

  lemma {:induction false} ResourceEdgesAre(rs: seq<Dict>, a: string, b: string)
    ensures (a, b) in ResourceEdges(rs) <==> ResourceEdge(rs, a, b)
  {
    if rs != [] {
      ResourceEdgesAre(rs[1..], a, b);
      RefsAreReached(JObj(rs[0]), b);
      TruthyUidsAre(Users(rs[0]), b);
      UsersAre(rs[0]);
      EdgesToAre(Uid(rs[0]), Refs(JObj(rs[0])) - NestedRefs(rs[0]), a, b);
      assert rs == [rs[0]] + rs[1..];
      assert ResourceEdge(rs, a, b) <==> (Names(rs[0], a, b) && !Contains(rs[0], b)) || ResourceEdge(rs[1..], a, b);
    }
  }

  lemma {:induction false} NestedUserEdgesAre(host: string, users: seq<Dict>, a: string, b: string)
    ensures (a, b) in NestedUserEdges(host, users) <==> exists u :: u in users && NestedEdge(host, u, a, b)
  {
    if users != [] {
      NestedUserEdgesAre(host, users[1..], a, b);
      RefsAreReached(JObj(users[0]), b);
      EdgesToAre(UserRef(host, users[0]), Refs(JObj(users[0])), a, b);
      assert users == [users[0]] + users[1..];
      assert NestedEdge(host, users[0], a, b) <==>
        a == UserRef(host, users[0]) != "" && (Reaches(JObj(users[0]), b) || (b == host && a != host && host != ""));
    }
  }

  lemma {:induction false} NestedEdgesAre(rs: seq<Dict>, a: string, b: string)
    ensures (a, b) in NestedEdges(rs) <==> HostedEdge(rs, a, b)
  {
    if rs != [] {
      NestedEdgesAre(rs[1..], a, b);
      NestedUserEdgesAre(Uid(rs[0]), Users(rs[0]), a, b);
      UsersAre(rs[0]);
      assert rs == [rs[0]] + rs[1..];
    }
  }

  lemma FoldersAreOwners(m: Manifest, section: string)
    requires section in {"resources", "users"} && Uid(Shared(m, section)) != ""
    ensures Uid(Shared(m, section)) in Owners(m)
  {
    var folders := [Shared(m, "users"), Shared(m, "resources")];
    assert Shared(m, section) in folders;
    TruthyUidsAre(folders, Uid(Shared(m, section)));
  }

  lemma {:induction false} SharedEdgesAre(m: Manifest, rs: seq<Dict>, a: string, b: string)
    ensures (a, b) in SharedEdges(m, rs)
      <==> exists r, section :: r in rs && section in {"resources", "users"} && Keeps(m, r, section, a, b)
  {
    if rs != [] {
      SharedEdgesAre(m, rs[1..], a, b);
      forall section | section in {"resources", "users"} && Uid(Shared(m, section)) != "" { FoldersAreOwners(m, section); }
      assert rs == [rs[0]] + rs[1..];
      var folder := SharedFolderOf(m, rs[0]);
      assert folder == b != "" && Uid(rs[0]) == a <==>
        Keeps(m, rs[0], "resources", a, b) || Keeps(m, rs[0], "users", a, b);
    }
  }

  lemma {:induction false} UserSharedEdgesAre(m: Manifest, us: seq<Dict>, a: string, b: string)
    ensures (a, b) in UserSharedEdges(m, us) <==> a != "" && exists u :: u in us && Keeps(m, u, "users", a, b)
  {
    if us != [] {
      UserSharedEdgesAre(m, us[1..], a, b);
      var folder := if Get(us[0], "shared_folder") == JStr("users") then Uid(Shared(m, "users")) else "";
      if folder != "" { FoldersAreOwners(m, "users"); }
      assert us == [us[0]] + us[1..];
      assert folder == b != "" && Uid(us[0]) == a <==> Keeps(m, us[0], "users", a, b);
    }
  }

  lemma EdgesAreDependencies(m: Manifest, a: string, b: string)
    ensures (a, b) in EdgesOf(m) <==> Depends(m, a, b)
  {
    hide CollectionEdges, ResourceEdges, SharedEdges, UserSharedEdges, NestedEdges,
         WalkedEdge, ResourceEdge, HostedEdge, Keeps;
    CollectionEdgesAre(m.gateways, a, b);
    CollectionEdgesAre(m.configurations, a, b);
    CollectionEdgesAre(m.projects, a, b);
    CollectionEdgesAre(m.users, a, b);
    ResourceEdgesAre(m.resources, a, b);
    SharedEdgesAre(m, m.resources, a, b);
    UserSharedEdgesAre(m, m.users, a, b);
    NestedEdgesAre(m.resources, a, b);
  }

  lemma OwnersAreNamed(m: Manifest, u: string)
    ensures u in Owners(m) <==> Named(m, u)
  {
    hide TruthyUids, AllUids, ResourceUids, Contains, Uid, Shared;
    var folders := [Shared(m, "users"), Shared(m, "resources")];
    TruthyUidsAre(folders, u);
    assert forall d :: d in folders <==> d == Shared(m, "users") || d == Shared(m, "resources");
    TruthyUidsAre(m.projects, u);
    AllUidsAre(m.gateways, u);
    AllUidsAre(m.configurations, u);
    ResourceUidsAre(m.resources, u);
    TruthyUidsAre(m.users, u);
  }

  /** A uid_ref given twice is reported. */
  lemma DuplicatesAreReported(m: Manifest)
    ensures BuildGraph(m).DuplicateRef? <==> exists i, j :: 0 <= i < j < |UidRefs(m)| && UidRefs(m)[i] == UidRefs(m)[j]
  {}

  /** The graph has an edge exactly where one object depends on another: it names it at
      whatever depth (a host's own users excepted), is kept in it, or is nested in it.
      A dependency on something the manifest does not name is reported, and only that. */
  lemma GraphIsDependencies(m: Manifest)
    requires Graph.Distinct(UidRefs(m))
    ensures !BuildGraph(m).DuplicateRef?
    ensures BuildGraph(m).UnknownRef? <==> exists a, b :: Depends(m, a, b) && !Named(m, b)
    ensures BuildGraph(m).Built? ==> forall a, b :: (a, b) in BuildGraph(m).edges <==> Depends(m, a, b)
  {
    hide EdgesOf, Owners, Depends, Named;
    forall a, b ensures (a, b) in EdgesOf(m) <==> Depends(m, a, b) { EdgesAreDependencies(m, a, b); }
    forall u ensures u in Owners(m) <==> Named(m, u) { OwnersAreNamed(m, u); }
    if !(Targets(EdgesOf(m)) <= Owners(m)) {
      var b :| b in Targets(EdgesOf(m)) && b !in Owners(m);
      var e :| e in EdgesOf(m) && e.1 == b;
      assert (e.0, b) in EdgesOf(m);
    }
    if a, b :| Depends(m, a, b) && !Named(m, b) {
      assert (a, b) in EdgesOf(m) && b in Targets(EdgesOf(m));
    }
  }
}
