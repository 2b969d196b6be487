/** The dependency graph of a PAM manifest and the order it gives to plans
    (keeper_sdk/core/graph.py). */
module PamGraph {
  import opened Json
  import opened Graph
  import opened Plans
  import opened PamDiff

  const SCALAR_REFS: set<string> := {
    "pam_configuration_uid_ref", "gateway_uid_ref", "administrative_credentials_uid_ref",
    "launch_credentials_uid_ref", "autofill_credentials_uid_ref", "sftp_user_credentials_uid_ref",
    "sftp_resource_uid_ref", "pam_directory_uid_ref", "dom_administrative_credential_uid_ref"}

  const LIST_REFS: set<string> := {"additional_credentials_uid_refs"}

  function Strings(items: seq<Json>): set<string> {
    set v | v in items && v.JStr? :: v.s
  }

  /** `_iter_refs`, as the set of references found. */
  function Refs(node: Json): set<string>
    decreases node, 0
  {
    match node
    case JObj(m) => set k, r | k in m.Keys && r in RefsAt(k, m[k]) :: r
    case JList(xs) => set x, r | x in xs && r in Refs(x) :: r
    case _ => {}
  }

  function RefsAt(k: string, v: Json): set<string>
    decreases v, 1
  {
    if k in SCALAR_REFS && v.JStr? then {v.s}
    else if k in LIST_REFS && v.JList? then Strings(v.items)
    else Refs(v)
  }

  function Uid(d: Dict): string {
    TextField(d, "uid_ref")
  }

  // ------------------------------------------------------------------------- the nodes

  function AllUids(ds: seq<Dict>): seq<string> {
    if ds == [] then [] else [Uid(ds[0])] + AllUids(ds[1..])
  }

  function TruthyUids(ds: seq<Dict>): seq<string> {
    if ds == [] then [] else (if Uid(ds[0]) == "" then [] else [Uid(ds[0])]) + TruthyUids(ds[1..])
  }

  function Users(r: Dict): seq<Dict> {
    DictItems(Get(r, "users"))
  }

  function ResourceUids(rs: seq<Dict>): seq<string> {
    if rs == [] then [] else [Uid(rs[0])] + TruthyUids(Users(rs[0])) + ResourceUids(rs[1..])
  }

  function Shared(m: Manifest, section: string): Dict {
    DictOrEmpty(Get(m.sharedFolders, section))
  }

  /** `Manifest.iter_uid_refs` */
  function UidRefs(m: Manifest): seq<string> {
    TruthyUids([Shared(m, "users"), Shared(m, "resources")])
    + (TruthyUids(m.projects)
    + (AllUids(m.gateways)
    + (AllUids(m.configurations)
    + (ResourceUids(m.resources)
    + TruthyUids(m.users)))))
  }

  function Owners(m: Manifest): set<string> {
    set u | u in UidRefs(m)
  }

  // ------------------------------------------------------------------------- the edges

  function EdgesTo(owner: string, targets: set<string>): set<Edge> {
    set t | t in targets :: (owner, t)
  }

  function CollectionEdges(ds: seq<Dict>): set<Edge> {
    if ds == [] then {}
    else (if Uid(ds[0]) == "" then {} else EdgesTo(Uid(ds[0]), Refs(JObj(ds[0])))) + CollectionEdges(ds[1..])
  }

  function NestedRefs(r: Dict): set<string> {
    set u | u in TruthyUids(Users(r))
  }

  /** References of a resource, except to its own nested users: they come after it. */
  function ResourceEdges(rs: seq<Dict>): set<Edge> {
    if rs == [] then {}
    else EdgesTo(Uid(rs[0]), Refs(JObj(rs[0])) - NestedRefs(rs[0])) + ResourceEdges(rs[1..])
  }

  function SharedFolderOf(m: Manifest, d: Dict): string {
    match Get(d, "shared_folder")
    case JStr(s) => if s == "resources" || s == "users" then Uid(Shared(m, s)) else ""
    case _ => ""
  }

  function SharedEdges(m: Manifest, ds: seq<Dict>): set<Edge> {
    if ds == [] then {}
    else
      var folder := SharedFolderOf(m, ds[0]);
      (if folder in Owners(m) && folder != "" then {(Uid(ds[0]), folder)} else {}) + SharedEdges(m, ds[1..])
  }

  /** Only the users folder concerns top-level users, and only users with a uid_ref. */
  function UserSharedEdges(m: Manifest, ds: seq<Dict>): set<Edge> {
    if ds == [] then {}
    else
      var folder := if Get(ds[0], "shared_folder") == JStr("users") then Uid(Shared(m, "users")) else "";
      (if folder in Owners(m) && folder != "" && Uid(ds[0]) != "" then {(Uid(ds[0]), folder)} else {})
      + UserSharedEdges(m, ds[1..])
  }

  /** `user.get("uid_ref") or owner` */
  function UserRef(owner: string, user: Dict): string {
    if Uid(user) == "" then owner else Uid(user)
  }

  /** A nested user's references, and its dependence on its host. */
  function NestedUserEdges(owner: string, users: seq<Dict>): set<Edge> {
    if users == [] then {}
    else
      var u := UserRef(owner, users[0]);
      (if u == "" then {} else EdgesTo(u, Refs(JObj(users[0]))))
      + (if owner != "" && u != "" && u != owner then {(u, owner)} else {})
      + NestedUserEdges(owner, users[1..])
  }

  function NestedEdges(rs: seq<Dict>): set<Edge> {
    if rs == [] then {} else NestedUserEdges(Uid(rs[0]), Users(rs[0])) + NestedEdges(rs[1..])
  }

  function EdgesOf(m: Manifest): set<Edge> {
    CollectionEdges(m.gateways) + CollectionEdges(m.configurations) + CollectionEdges(m.projects)
    + ResourceEdges(m.resources) + CollectionEdges(m.users)
    + SharedEdges(m, m.resources) + UserSharedEdges(m, m.users) + NestedEdges(m.resources)
  }

  function Targets(edges: set<Edge>): set<string> {
    set e | e in edges :: e.1
  }

  datatype Built = Built(edges: set<Edge>) | DuplicateRef | UnknownRef

  /** `build_graph`; a nested user without any owner still has its references checked,
      which the targets of the enclosing resource cover. */
  ghost function BuildGraph(m: Manifest): Built {
    if !Distinct(UidRefs(m)) then DuplicateRef
    else if Targets(EdgesOf(m)) <= Owners(m) then Built(EdgesOf(m))
    else UnknownRef
  }

  // ------------------------------------------------------------------------ the loops

  method AddRefs(g: DiGraph, owner: string, targets: set<string>, owners: set<string>) returns (ok: bool)
    modifies g
    ensures ok <==> targets <= owners
    ensures ok ==> g.edges == old(g.edges) + EdgesTo(owner, targets)
    ensures g.nodes <= old(g.nodes) + {owner} + owners
  {
    var left := targets;
    while left != {}
      invariant left <= targets && targets - left <= owners
      invariant g.edges == old(g.edges) + EdgesTo(owner, targets - left)
      invariant g.nodes <= old(g.nodes) + {owner} + owners
    {
      var t :| t in left;
      if t !in owners {
        return false;
      }
      g.AddEdge(owner, t);
      assert targets - (left - {t}) == targets - left + {t};
      left := left - {t};
    }
    assert targets - left == targets;
    return true;
  }

  method WalkCollection(g: DiGraph, ds: seq<Dict>, owners: set<string>) returns (ok: bool)
    modifies g
    ensures ok <==> Targets(CollectionEdges(ds)) <= owners
    ensures ok ==> g.edges == old(g.edges) + CollectionEdges(ds)
  {
    for i := 0 to |ds|
      invariant g.edges + CollectionEdges(ds[i..]) == old(g.edges) + CollectionEdges(ds)
      invariant Targets(CollectionEdges(ds)) <= owners <==> Targets(CollectionEdges(ds[i..])) <= owners
    {
      assert ds[i..][1..] == ds[i + 1..];
      var owner := Uid(ds[i]);
      if owner != "" {
        TargetsOfUnion(EdgesTo(owner, Refs(JObj(ds[i]))), CollectionEdges(ds[i + 1..]));
        TargetsOfEdgesTo(owner, Refs(JObj(ds[i])));
        ok := AddRefs(g, owner, Refs(JObj(ds[i])), owners);
        if !ok { return false; }
      }
    }
    return true;
  }

  method WalkResources(g: DiGraph, rs: seq<Dict>, owners: set<string>) returns (ok: bool)
    modifies g
    ensures ok <==> Targets(ResourceEdges(rs)) <= owners
    ensures ok ==> g.edges == old(g.edges) + ResourceEdges(rs)
  {
    for i := 0 to |rs|
      invariant g.edges + ResourceEdges(rs[i..]) == old(g.edges) + ResourceEdges(rs)
      invariant Targets(ResourceEdges(rs)) <= owners <==> Targets(ResourceEdges(rs[i..])) <= owners
    {
      assert rs[i..][1..] == rs[i + 1..];
      var targets := Refs(JObj(rs[i])) - NestedRefs(rs[i]);
      TargetsOfUnion(EdgesTo(Uid(rs[i]), targets), ResourceEdges(rs[i + 1..]));
      TargetsOfEdgesTo(Uid(rs[i]), targets);
      ok := AddRefs(g, Uid(rs[i]), targets, owners);
      if !ok { return false; }
    }
    return true;
  }

  lemma TargetsOfUnion(a: set<Edge>, b: set<Edge>)
    ensures Targets(a + b) == Targets(a) + Targets(b)
  {
    forall t ensures t in Targets(a + b) <==> t in Targets(a) + Targets(b) {
      if e :| e in a && e.1 == t { assert e in a + b; }
      if e :| e in b && e.1 == t { assert e in a + b; }
    }
  }

  lemma TargetsOfEdgesTo(owner: string, targets: set<string>)
    ensures Targets(EdgesTo(owner, targets)) == targets
  {
    forall t | t in targets ensures t in Targets(EdgesTo(owner, targets)) {
      assert (owner, t) in EdgesTo(owner, targets);
    }
  }

  method WalkShared(g: DiGraph, m: Manifest, owners: set<string>)
    requires owners == Owners(m)
    modifies g
    ensures g.edges == old(g.edges) + SharedEdges(m, m.resources) + UserSharedEdges(m, m.users)
  {
    for i := 0 to |m.resources|
      invariant g.edges + SharedEdges(m, m.resources[i..]) == old(g.edges) + SharedEdges(m, m.resources)
    {
      assert m.resources[i..][1..] == m.resources[i + 1..];
      var folder := SharedFolderOf(m, m.resources[i]);
      if folder in owners && folder != "" {
        g.AddEdge(Uid(m.resources[i]), folder);
      }
    }
    ghost var mid := g.edges;
    for i := 0 to |m.users|
      invariant g.edges + UserSharedEdges(m, m.users[i..]) == mid + UserSharedEdges(m, m.users)
    {
      assert m.users[i..][1..] == m.users[i + 1..];
      var folder := if Get(m.users[i], "shared_folder") == JStr("users") then Uid(Shared(m, "users")) else "";
      if folder in owners && folder != "" && Uid(m.users[i]) != "" {
        g.AddEdge(Uid(m.users[i]), folder);
      }
    }
  }

  method WalkNestedUsers(g: DiGraph, owner: string, users: seq<Dict>, owners: set<string>) returns (ok: bool)
    requires owner in owners
    requires forall u | u in TruthyUids(users) :: u in owners
    modifies g
    ensures ok <==> Targets(NestedUserEdges(owner, users)) <= owners
    ensures ok ==> g.edges == old(g.edges) + NestedUserEdges(owner, users)
  {
    for i := 0 to |users|
      invariant forall u | u in TruthyUids(users[i..]) :: u in owners
      invariant g.edges + NestedUserEdges(owner, users[i..]) == old(g.edges) + NestedUserEdges(owner, users)
      invariant Targets(NestedUserEdges(owner, users)) <= owners <==> Targets(NestedUserEdges(owner, users[i..])) <= owners
    {
      assert users[i..][1..] == users[i + 1..];
      var u := UserRef(owner, users[i]);
      var refs := if u == "" then {} else EdgesTo(u, Refs(JObj(users[i])));
      var parent := if owner != "" && u != "" && u != owner then {(u, owner)} else {};
      TargetsOfUnion(refs + parent, NestedUserEdges(owner, users[i + 1..]));
      TargetsOfUnion(refs, parent);
      assert Targets(parent) <= owners;
      if u != "" {
        TargetsOfEdgesTo(u, Refs(JObj(users[i])));
        ok := AddRefs(g, u, Refs(JObj(users[i])), owners);
        if !ok { return false; }
        if owner != "" && u != owner {
          g.AddEdge(u, owner);
        }
      }
    }
    return true;
  }

  method WalkNested(g: DiGraph, rs: seq<Dict>, owners: set<string>) returns (ok: bool)
    requires forall u | u in ResourceUids(rs) :: u in owners
    modifies g
    ensures ok <==> Targets(NestedEdges(rs)) <= owners
    ensures ok ==> g.edges == old(g.edges) + NestedEdges(rs)
  {
    for i := 0 to |rs|
      invariant forall u | u in ResourceUids(rs[i..]) :: u in owners
      invariant g.edges + NestedEdges(rs[i..]) == old(g.edges) + NestedEdges(rs)
      invariant Targets(NestedEdges(rs)) <= owners <==> Targets(NestedEdges(rs[i..])) <= owners
    {
      assert rs[i..][1..] == rs[i + 1..];
      assert Uid(rs[i]) in ResourceUids(rs[i..]);
      assert forall u | u in TruthyUids(Users(rs[i])) :: u in ResourceUids(rs[i..]);
      TargetsOfUnion(NestedUserEdges(Uid(rs[i]), Users(rs[i])), NestedEdges(rs[i + 1..]));
      ok := WalkNestedUsers(g, Uid(rs[i]), Users(rs[i]), owners);
      if !ok { return false; }
    }
    return true;
  }

  lemma {:induction false} SharedTargetsAreOwners(m: Manifest, rs: seq<Dict>, us: seq<Dict>)
    ensures Targets(SharedEdges(m, rs)) <= Owners(m) && Targets(UserSharedEdges(m, us)) <= Owners(m)
    decreases |rs| + |us|
  {
    if rs != [] { SharedTargetsAreOwners(m, rs[1..], []); }
    if us != [] { SharedTargetsAreOwners(m, [], us[1..]); }
  }

  lemma OwnersCoverResources(m: Manifest)
    ensures forall u | u in ResourceUids(m.resources) :: u in Owners(m)
  {
    forall u | u in ResourceUids(m.resources) ensures u in UidRefs(m) {}
  }

  method AddOwners(g: DiGraph, refs: seq<string>) returns (owners: set<string>, dup: bool)
    modifies g
    ensures owners == (set u | u in refs) && (dup <==> !Distinct(refs))
    ensures g.nodes == old(g.nodes) + owners && g.edges == old(g.edges)
  {
    owners, dup := {}, false;
    for i := 0 to |refs|
      invariant owners == set u | u in refs[..i]
      invariant dup <==> !Distinct(refs[..i])
      invariant g.nodes == old(g.nodes) + owners && g.edges == old(g.edges)
    {
      assert refs[..i + 1] == refs[..i] + [refs[i]];
      if refs[i] in owners { dup := true; }
      owners := owners + {refs[i]};
      g.AddNode(refs[i]);
    }
    assert refs[..|refs|] == refs;
  }

  method BuildGraphLoop(m: Manifest) returns (r: Option<DiGraph>, duplicate: bool)
    ensures BuildGraph(m).DuplicateRef? <==> r.None? && duplicate
    ensures BuildGraph(m).UnknownRef? <==> r.None? && !duplicate
    ensures BuildGraph(m).Built? <==> r.Some?
    ensures r.Some? ==> fresh(r.value) && r.value.edges == BuildGraph(m).edges
  {
    hide CollectionEdges, ResourceEdges, SharedEdges, UserSharedEdges, NestedEdges, UidRefs;
    var g := new DiGraph();
    var owners, dup := AddOwners(g, UidRefs(m));
    if dup { return None, true; }
    SharedTargetsAreOwners(m, m.resources, m.users);
    OwnersCoverResources(m);
    AllTargets(m);
    var ok := WalkCollection(g, m.gateways, owners);
    if ok { ok := WalkCollection(g, m.configurations, owners); }
    if ok { ok := WalkCollection(g, m.projects, owners); }
    if ok { ok := WalkResources(g, m.resources, owners); }
    if ok { ok := WalkCollection(g, m.users, owners); }
    if !ok { return None, false; }
    WalkShared(g, m, owners);
    ok := WalkNested(g, m.resources, owners);
    if !ok { return None, false; }
    assert g.edges == EdgesOf(m);
    return Some(g), false;
  }

  lemma AllTargets(m: Manifest)
    ensures Targets(EdgesOf(m)) ==
      Targets(CollectionEdges(m.gateways)) + Targets(CollectionEdges(m.configurations)) + Targets(CollectionEdges(m.projects))
      + Targets(ResourceEdges(m.resources)) + Targets(CollectionEdges(m.users))
      + Targets(SharedEdges(m, m.resources)) + Targets(UserSharedEdges(m, m.users)) + Targets(NestedEdges(m.resources))
  {
    var a, b, c := CollectionEdges(m.gateways), CollectionEdges(m.configurations), CollectionEdges(m.projects);
    var d, e, f := ResourceEdges(m.resources), CollectionEdges(m.users), SharedEdges(m, m.resources);
    var h, k := UserSharedEdges(m, m.users), NestedEdges(m.resources);
    TargetsOfUnion(a, b);
    TargetsOfUnion(a + b, c);
    TargetsOfUnion(a + b + c, d);
    TargetsOfUnion(a + b + c + d, e);
    TargetsOfUnion(a + b + c + d + e, f);
    TargetsOfUnion(a + b + c + d + e + f, h);
    TargetsOfUnion(a + b + c + d + e + f + h, k);
  }

  // ------------------------------------------------------------------ dependency safety

  /** All edges leave from the given references. */
  ghost predicate From(edges: set<Edge>, refs: seq<string>) {
    forall e | e in edges :: e.0 in refs
  }

  lemma {:induction false} CollectionSources(ds: seq<Dict>)
    ensures From(CollectionEdges(ds), TruthyUids(ds)) && From(CollectionEdges(ds), AllUids(ds))
  {
    if ds != [] { CollectionSources(ds[1..]); }
  }

  lemma {:induction false} ResourceSources(rs: seq<Dict>)
    ensures From(ResourceEdges(rs), ResourceUids(rs)) && From(NestedEdges(rs), ResourceUids(rs))
  {
    if rs != [] {
      ResourceSources(rs[1..]);
      NestedSources(Uid(rs[0]), Users(rs[0]));
      var head, rest := [Uid(rs[0])] + TruthyUids(Users(rs[0])), ResourceUids(rs[1..]);
      assert ResourceUids(rs) == head + rest;
      forall e | e in NestedEdges(rs) ensures e.0 in head + rest {
        if e in NestedUserEdges(Uid(rs[0]), Users(rs[0])) { assert e.0 in head; } else { assert e.0 in rest; }
      }
      assert Uid(rs[0]) in head;
    }
  }

  lemma {:induction false} NestedSources(owner: string, users: seq<Dict>)
    ensures From(NestedUserEdges(owner, users), [owner] + TruthyUids(users))
  {
    if users != [] { NestedSources(owner, users[1..]); }
  }

  lemma {:induction false} SharedSources(m: Manifest, ds: seq<Dict>)
    ensures From(SharedEdges(m, ds), AllUids(ds)) && From(UserSharedEdges(m, ds), TruthyUids(ds))
  {
    if ds != [] { SharedSources(m, ds[1..]); }
  }

  lemma {:induction false} ResourcesAmongThem(rs: seq<Dict>)
    ensures forall u | u in AllUids(rs) :: u in ResourceUids(rs)
  {
    if rs != [] {
      ResourcesAmongThem(rs[1..]);
      assert ResourceUids(rs) == ([Uid(rs[0])] + TruthyUids(Users(rs[0]))) + ResourceUids(rs[1..]);
      assert Uid(rs[0]) in [Uid(rs[0])] + TruthyUids(Users(rs[0]));
    }
  }

  /** Every edge joins objects the manifest names. */
  lemma EdgesJoinOwners(m: Manifest)
    requires BuildGraph(m).Built?
    ensures Within(BuildGraph(m).edges, Owners(m))
  {
    CollectionSources(m.gateways);
    CollectionSources(m.configurations);
    CollectionSources(m.projects);
    CollectionSources(m.users);
    ResourceSources(m.resources);
    SharedSources(m, m.resources);
    SharedSources(m, m.users);
    ResourcesAmongThem(m.resources);
    UidRefsParts(m);
    forall e | e in EdgesOf(m) ensures e.0 in Owners(m) && e.1 in Owners(m) {
      assert e.1 in Targets(EdgesOf(m));
    }
  }

  lemma UidRefsParts(m: Manifest)
    ensures forall u | u in TruthyUids(m.projects) || u in AllUids(m.gateways) || u in AllUids(m.configurations)
                       || u in ResourceUids(m.resources) || u in TruthyUids(m.users) :: u in Owners(m)
  {}

  /** Dependencies first: with the order of a topological sort, the create or update of an
      object is executed after that of everything it depends on. */
  lemma DependencySafe(nodes: set<string>, edges: set<Edge>, p: Plan, a: string, b: string, i: nat, j: nat)
    requires Topological(p.order, nodes, edges) && Within(edges, nodes) && (a, b) in edges
    requires i < |Ordered(p)| && j < |Ordered(p)|
    requires Ordered(p)[i].kind != Delete && Ordered(p)[i].uidRef == Some(b)
    requires Ordered(p)[j].kind == Delete || Ordered(p)[j].uidRef == Some(a)
    ensures i < j
  {
    var x :| 0 <= x < |p.order| && p.order[x] == a;
    var y :| 0 <= y < |p.order| && p.order[y] == b;
    RankIs(p.order, a, x);
    RankIs(p.order, b, y);
    RankDecides(p, i, j);
  }

  lemma {:induction false} NestedUserDependsOnHost(rs: seq<Dict>, i: nat, k: nat)
    requires i < |rs| && k < |Users(rs[i])|
    requires Uid(rs[i]) != "" && Uid(Users(rs[i])[k]) != "" && Uid(Users(rs[i])[k]) != Uid(rs[i])
    ensures (Uid(Users(rs[i])[k]), Uid(rs[i])) in NestedEdges(rs)
  {
    if i > 0 {
      NestedUserDependsOnHost(rs[1..], i - 1, k);
    } else {
      UserDependsOnOwner(Uid(rs[0]), Users(rs[0]), k);
    }
  }

  lemma {:induction false} UserDependsOnOwner(owner: string, users: seq<Dict>, k: nat)
    requires k < |users| && owner != "" && Uid(users[k]) != "" && Uid(users[k]) != owner
    ensures (Uid(users[k]), owner) in NestedUserEdges(owner, users)
  {
    if k > 0 { UserDependsOnOwner(owner, users[1..], k - 1); }
  }

  /** So a nested user is created after its host, and deletes come after both. */
  lemma NestedUsersFollowTheirHost(m: Manifest, p: Plan, r: nat, k: nat, i: nat, j: nat)
    requires BuildGraph(m).Built? && Topological(p.order, Owners(m), BuildGraph(m).edges)
    requires r < |m.resources| && k < |Users(m.resources[r])|
    requires Uid(m.resources[r]) != "" && Uid(Users(m.resources[r])[k]) !in {"", Uid(m.resources[r])}
    requires i < |Ordered(p)| && j < |Ordered(p)|
    requires Ordered(p)[i].kind != Delete && Ordered(p)[i].uidRef == Some(Uid(m.resources[r]))
    requires Ordered(p)[j].kind == Delete || Ordered(p)[j].uidRef == Some(Uid(Users(m.resources[r])[k]))
    ensures i < j
  {
    EdgesJoinOwners(m);
    NestedUserDependsOnHost(m.resources, r, k);
    DependencySafe(Owners(m), BuildGraph(m).edges, p, Uid(Users(m.resources[r])[k]), Uid(m.resources[r]), i, j);
  }

  // --------------------------------------------------------- hosts and their nested users

  lemma DistinctConcat(a: seq<string>, b: seq<string>)
    requires Distinct(a + b)
    ensures Distinct(a) && Distinct(b) && forall x | x in a :: x !in b
  {
    var c := a + b;
    forall i, j | 0 <= i < j < |a| ensures a[i] != a[j] { assert c[i] == a[i] && c[j] == a[j]; }
    forall i, j | 0 <= i < j < |b| ensures b[i] != b[j] { assert c[|a| + i] == b[i] && c[|a| + j] == b[j]; }
    forall i, j | 0 <= i < |a| && 0 <= j < |b| ensures a[i] != b[j] { assert c[i] == a[i] && c[|a| + j] == b[j]; }
  }

  /** Some nested user without a uid_ref of its own names `t`. */
  ghost predicate NamedByUnreferenced(users: seq<Dict>, t: string) {
    exists k :: 0 <= k < |users| && Uid(users[k]) == "" && t in Refs(JObj(users[k]))
  }

  /** A nested user without uid_ref lends its references to its host. */
  lemma {:induction false} EdgesLentToOwner(owner: string, users: seq<Dict>, t: string)
    requires owner != "" && owner !in TruthyUids(users)
    ensures (owner, t) in NestedUserEdges(owner, users) <==> NamedByUnreferenced(users, t)
  {
    if users != [] {
      EdgesLentToOwner(owner, users[1..], t);
      if NamedByUnreferenced(users, t) {
        var k :| 0 <= k < |users| && Uid(users[k]) == "" && t in Refs(JObj(users[k]));
        if k > 0 { assert users[1..][k - 1] == users[k]; }
      }
      if NamedByUnreferenced(users[1..], t) {
        var k :| 0 <= k < |users[1..]| && Uid(users[1..][k]) == "" && t in Refs(JObj(users[1..][k]));
        assert users[k + 1] == users[1..][k];
      }
    }
  }

  lemma NotASource(edges: set<Edge>, a: string, refs: seq<string>)
    requires From(edges, refs) && a !in refs
    ensures forall t :: (a, t) !in edges
  {
    assert forall e | e in edges :: e.0 != a;
  }

  /** In resources with distinct references, only a resource's own block makes edges leave
      from it; those skip its nested users, but for the ones lent by unreferenced users. */
  lemma {:induction false} EdgesOfResource(rs: seq<Dict>, i: nat, u: string)
    requires i < |rs| && Distinct(ResourceUids(rs)) && Uid(rs[i]) != "" && u in TruthyUids(Users(rs[i]))
    ensures (Uid(rs[i]), u) !in ResourceEdges(rs)
    ensures (Uid(rs[i]), u) in NestedEdges(rs) <==> NamedByUnreferenced(Users(rs[i]), u)
    ensures Uid(rs[i]) in ResourceUids(rs) && u in ResourceUids(rs)
  {
    var users := TruthyUids(Users(rs[0]));
    var head, rest := [Uid(rs[0])] + users, ResourceUids(rs[1..]);
    assert ResourceUids(rs) == head + rest;
    DistinctConcat(head, rest);
    DistinctConcat([Uid(rs[0])], users);
    assert [Uid(rs[0])][0] in [Uid(rs[0])] && [Uid(rs[0])][0] in head;
    ResourceSources(rs[1..]);
    if i == 0 {
      NotASource(ResourceEdges(rs[1..]), Uid(rs[0]), rest);
      NotASource(NestedEdges(rs[1..]), Uid(rs[0]), rest);
      EdgesLentToOwner(Uid(rs[0]), Users(rs[0]), u);
      assert u in NestedRefs(rs[0]);
    } else {
      assert rs[1..][i - 1] == rs[i];
      EdgesOfResource(rs[1..], i - 1, u);
      NestedSources(Uid(rs[0]), Users(rs[0]));
      NotASource(NestedUserEdges(Uid(rs[0]), Users(rs[0])), Uid(rs[i]), head);
    }
  }

  function SharedUids(m: Manifest): seq<string> {
    TruthyUids([Shared(m, "users"), Shared(m, "resources")])
  }

  lemma SharedUidsHave(m: Manifest)
    ensures Uid(Shared(m, "users")) != "" ==> Uid(Shared(m, "users")) in SharedUids(m)
    ensures Uid(Shared(m, "resources")) != "" ==> Uid(Shared(m, "resources")) in SharedUids(m)
  {
    var pair := [Shared(m, "users"), Shared(m, "resources")];
    assert pair[1..] == [Shared(m, "resources")];
    assert TruthyUids(pair) == (if Uid(pair[0]) == "" then [] else [Uid(pair[0])]) + TruthyUids(pair[1..]);
  }

  lemma {:induction false} SharedTargets(m: Manifest, ds: seq<Dict>)
    ensures forall e | e in SharedEdges(m, ds) :: e.1 in SharedUids(m)
  {
    if ds != [] {
      SharedTargets(m, ds[1..]);
      SharedUidsHave(m);
    }
  }

  /** Containment makes no two-cycles, unless a nested user goes without uid_ref: a host
      depends on one of its nested users exactly when a nested user of the same block
      carries no uid_ref and names the other. */
  lemma HostDependsOnNestedUserIff(m: Manifest, r: nat, u: string)
    requires BuildGraph(m).Built? && r < |m.resources| && Uid(m.resources[r]) != "" && u in NestedRefs(m.resources[r])
    ensures (Uid(m.resources[r]), u) in BuildGraph(m).edges <==> NamedByUnreferenced(Users(m.resources[r]), u)
  {
    var h := Uid(m.resources[r]);
    var p, g, c, rs, us := TruthyUids(m.projects), AllUids(m.gateways), AllUids(m.configurations), ResourceUids(m.resources), TruthyUids(m.users);
    DistinctConcat(SharedUids(m), p + (g + (c + (rs + us))));
    DistinctConcat(p, g + (c + (rs + us)));
    DistinctConcat(g, c + (rs + us));
    DistinctConcat(c, rs + us);
    DistinctConcat(rs, us);
    EdgesOfResource(m.resources, r, u);
    CollectionSources(m.gateways);
    CollectionSources(m.configurations);
    CollectionSources(m.projects);
    CollectionSources(m.users);
    SharedSources(m, m.users);
    NotASource(CollectionEdges(m.gateways), h, g);
    NotASource(CollectionEdges(m.configurations), h, c);
    NotASource(CollectionEdges(m.projects), h, p);
    NotASource(CollectionEdges(m.users), h, us);
    NotASource(UserSharedEdges(m, m.users), h, us);
    SharedTargets(m, m.resources);
  }
}
