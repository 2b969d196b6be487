/** The dependency graph of a `keeper-enterprise.v1` manifest
    (keeper_sdk/core/enterprise_graph.py): references between six blocks, of which only
    the parents of nodes can form a cycle. */
module EnterpriseGraph {
  import opened Json
  import opened Graph
  import opened References

  datatype Block = Nodes | Users | Roles | Teams | Enforcements | Aliases

  datatype NodeRow = NodeRow(uid: string, parent: Option<string>)
  datatype UserRow = UserRow(uid: string, node: Option<string>)
  datatype RoleRow = RoleRow(uid: string, node: string, users: seq<string>)
  datatype TeamRow = TeamRow(uid: string, node: string, roles: seq<string>, users: seq<string>)
  datatype EnforcementRow = EnforcementRow(uid: string, role: string)
  datatype AliasRow = AliasRow(uid: string, user: string)

  datatype Manifest = Manifest(
    nodes: seq<NodeRow>, users: seq<UserRow>, roles: seq<RoleRow>, teams: seq<TeamRow>,
    enforcements: seq<EnforcementRow>, aliases: seq<AliasRow>)

  // ------------------------------------------------------------------ reference parsing

  const PREFIX := "keeper-enterprise:"

  function BlockName(b: Block): string {
    match b
    case Nodes => "nodes"
    case Users => "users"
    case Roles => "roles"
    case Teams => "teams"
    case _ => ""
  }

  /** `_local_uid_ref`: the local part of a well-formed reference to the expected block. */
  function LocalUid(ref: string, expected: Block): Option<string> {
    if BlockName(expected) == "" then None else LocalPart(PREFIX + BlockName(expected) + ":", ref)
  }

  // ------------------------------------------------------------------- owners and edges

  /** A reference an object makes: where it stands, what it says, what it may point at. */
  datatype Reference = Reference(owner: string, from: Block, ref: string, expected: Block)

  function Optional(owner: string, from: Block, ref: Option<string>, expected: Block): seq<Reference> {
    match ref { case None => [] case Some(r) => [Reference(owner, from, r, expected)] }
  }

  function Many(owner: string, from: Block, refs: seq<string>, expected: Block): seq<Reference> {
    seq(|refs|, i requires 0 <= i < |refs| => Reference(owner, from, refs[i], expected))
  }

  function NodeRefs(rows: seq<NodeRow>): seq<Reference> {
    if rows == [] then [] else Optional(rows[0].uid, Nodes, rows[0].parent, Nodes) + NodeRefs(rows[1..])
  }

  function UserRefs(rows: seq<UserRow>): seq<Reference> {
    if rows == [] then [] else Optional(rows[0].uid, Users, rows[0].node, Nodes) + UserRefs(rows[1..])
  }

  function RoleRefs(rows: seq<RoleRow>): seq<Reference> {
    if rows == [] then []
    else Many(rows[0].uid, Roles, [rows[0].node], Nodes) + Many(rows[0].uid, Roles, rows[0].users, Users) + RoleRefs(rows[1..])
  }

  function TeamRefs(rows: seq<TeamRow>): seq<Reference> {
    if rows == [] then []
    else
      Many(rows[0].uid, Teams, [rows[0].node], Nodes) + Many(rows[0].uid, Teams, rows[0].roles, Roles)
      + Many(rows[0].uid, Teams, rows[0].users, Users) + TeamRefs(rows[1..])
  }

  function EnforcementRefs(rows: seq<EnforcementRow>): seq<Reference> {
    if rows == [] then [] else Many(rows[0].uid, Enforcements, [rows[0].role], Roles) + EnforcementRefs(rows[1..])
  }

  function AliasRefs(rows: seq<AliasRow>): seq<Reference> {
    if rows == [] then [] else Many(rows[0].uid, Aliases, [rows[0].user], Users) + AliasRefs(rows[1..])
  }

  function AllRefs(m: Manifest): seq<Reference> {
    NodeRefs(m.nodes) + UserRefs(m.users) + RoleRefs(m.roles) + TeamRefs(m.teams)
    + EnforcementRefs(m.enforcements) + AliasRefs(m.aliases)
  }

  function NodeUids(rows: seq<NodeRow>): seq<(string, Block)> {
    if rows == [] then [] else [(rows[0].uid, Nodes)] + NodeUids(rows[1..])
  }

  function UserUids(rows: seq<UserRow>): seq<(string, Block)> {
    if rows == [] then [] else [(rows[0].uid, Users)] + UserUids(rows[1..])
  }

  function RoleUids(rows: seq<RoleRow>): seq<(string, Block)> {
    if rows == [] then [] else [(rows[0].uid, Roles)] + RoleUids(rows[1..])
  }

  function TeamUids(rows: seq<TeamRow>): seq<(string, Block)> {
    if rows == [] then [] else [(rows[0].uid, Teams)] + TeamUids(rows[1..])
  }

  function EnforcementUids(rows: seq<EnforcementRow>): seq<(string, Block)> {
    if rows == [] then [] else [(rows[0].uid, Enforcements)] + EnforcementUids(rows[1..])
  }

  function AliasUids(rows: seq<AliasRow>): seq<(string, Block)> {
    if rows == [] then [] else [(rows[0].uid, Aliases)] + AliasUids(rows[1..])
  }

  /** `iter_uid_refs` */
  function UidRefs(m: Manifest): seq<(string, Block)> {
    NodeUids(m.nodes) + UserUids(m.users) + RoleUids(m.roles) + TeamUids(m.teams)
    + EnforcementUids(m.enforcements) + AliasUids(m.aliases)
  }

  ghost predicate DistinctRefs(refs: seq<(string, Block)>) {
    forall i, j | 0 <= i < j < |refs| :: refs[i].0 != refs[j].0
  }

  function Owners(refs: seq<(string, Block)>): map<string, Block> {
    if refs == [] then map[] else Owners(refs[..|refs| - 1])[refs[|refs| - 1].0 := refs[|refs| - 1].1]
  }

  /** `_add_ref_edge`'s checks: well-formed, known, and of the expected block. */
  predicate Resolves(owners: map<string, Block>, r: Reference) {
    var target := LocalUid(r.ref, r.expected);
    target.Some? && target.value in owners && owners[target.value] == r.expected
  }

  function EdgeFor(owners: map<string, Block>, r: Reference): Edge {
    (r.owner, if Resolves(owners, r) then LocalUid(r.ref, r.expected).value else "")
  }

  function EdgesFor(owners: map<string, Block>, refs: seq<Reference>): set<Edge> {
    set r | r in refs :: EdgeFor(owners, r)
  }

  datatype Built = Built(edges: set<Edge>) | DuplicateRef | BadRef | Cycle

  /** `build_enterprise_graph` */
  ghost function BuildGraph(m: Manifest): Built {
    var owners := Owners(UidRefs(m));
    var edges := EdgesFor(owners, AllRefs(m));
    if !DistinctRefs(UidRefs(m)) then DuplicateRef
    else if exists r | r in AllRefs(m) :: !Resolves(owners, r) then BadRef
    else if !Acyclic(edges) then Cycle
    else Built(edges)
  }

  // -------------------------------------------------------------------------- the loops

  method AddOwners(g: DiGraph, refs: seq<(string, Block)>) returns (owners: map<string, Block>, dup: bool)
    modifies g
    ensures owners == Owners(refs) && (dup <==> !DistinctRefs(refs))
    ensures g.edges == old(g.edges) && g.nodes == old(g.nodes) + owners.Keys
  {
    owners, dup := map[], false;
    for i := 0 to |refs|
      invariant owners == Owners(refs[..i]) && (dup <==> !DistinctRefs(refs[..i]))
      invariant forall u :: u in owners <==> exists k :: 0 <= k < i && refs[k].0 == u
      invariant g.edges == old(g.edges) && g.nodes == old(g.nodes) + owners.Keys
    {
      assert refs[..i + 1][..i] == refs[..i];
      if refs[i].0 in owners { dup := true; }
      owners := owners[refs[i].0 := refs[i].1];
      g.AddNode(refs[i].0);
    }
    assert refs[..|refs|] == refs;
  }

  lemma EdgesForSnoc(owners: map<string, Block>, refs: seq<Reference>, r: Reference)
    ensures EdgesFor(owners, refs + [r]) == EdgesFor(owners, refs) + {EdgeFor(owners, r)}
  {
    var all := refs + [r];
    forall x | x in refs ensures x in all {}
    assert r == all[|refs|];
  }

  method AddRefEdge(g: DiGraph, owners: map<string, Block>, r: Reference) returns (ok: bool)
    modifies g
    ensures ok <==> Resolves(owners, r)
    ensures g.edges == if ok then old(g.edges) + {EdgeFor(owners, r)} else old(g.edges)
  {
    var target := LocalUid(r.ref, r.expected);
    if target.None? || target.value !in owners || owners[target.value] != r.expected {
      return false;
    }
    g.AddEdge(r.owner, target.value);
    return true;
  }

  method AddRefEdges(g: DiGraph, owners: map<string, Block>, refs: seq<Reference>) returns (ok: bool)
    modifies g
    ensures ok <==> forall r | r in refs :: Resolves(owners, r)
    ensures ok ==> g.edges == old(g.edges) + EdgesFor(owners, refs)
  {
    for i := 0 to |refs|
      invariant forall r | r in refs[..i] :: Resolves(owners, r)
      invariant g.edges == old(g.edges) + EdgesFor(owners, refs[..i])
    {
      assert refs[..i + 1] == refs[..i] + [refs[i]];
      EdgesForSnoc(owners, refs[..i], refs[i]);
      ok := AddRefEdge(g, owners, refs[i]);
      if !ok {
        assert refs[i] in refs;
        return;
      }
    }
    assert refs[..|refs|] == refs;
    return true;
  }

  method BuildGraphLoop(m: Manifest) returns (r: Built)
    ensures r == BuildGraph(m)
  {
    var g := new DiGraph();
    var owners, dup := AddOwners(g, UidRefs(m));
    if dup { return DuplicateRef; }
    var ok := AddRefEdges(g, owners, AllRefs(m));
    if !ok { return BadRef; }
    assert g.edges == EdgesFor(owners, AllRefs(m));
    EdgesJoinOwners(m);
    var order := TopologicalSort(owners.Keys, g.edges);
    return if order.None? then Cycle else Built(g.edges);
  }

  // ------------------------------------------------------------------ cycles are confined

  lemma {:induction false} OwnersKnow(refs: seq<(string, Block)>, i: nat)
    requires DistinctRefs(refs) && i < |refs|
    ensures refs[i].0 in Owners(refs) && Owners(refs)[refs[i].0] == refs[i].1
  {
    var n := |refs| - 1;
    if i < n {
      assert refs[..n][i] == refs[i];
      OwnersKnow(refs[..n], i);
    }
  }

  function Height(b: Block): nat {
    match b
    case Nodes => 0
    case Users => 1
    case Roles => 2
    case Teams => 3
    case Enforcements => 3
    case Aliases => 2
  }

  /** Every reference leaves from an object of its block, and points down, except that a
      node's parent is a node. */
  ghost predicate Descending(refs: seq<Reference>, uids: seq<(string, Block)>) {
    forall r | r in refs ::
      (r.owner, r.from) in uids && (Height(r.expected) < Height(r.from) || (r.from == Nodes && r.expected == Nodes))
  }

  lemma ManyAre(owner: string, from: Block, refs: seq<string>, expected: Block)
    ensures forall r | r in Many(owner, from, refs, expected) :: r.owner == owner && r.from == from && r.expected == expected
  {}

  lemma {:induction false} NodesDescend(rows: seq<NodeRow>)
    ensures Descending(NodeRefs(rows), NodeUids(rows))
  {
    if rows != [] { NodesDescend(rows[1..]); }
  }

  lemma {:induction false} UsersDescend(rows: seq<UserRow>)
    ensures Descending(UserRefs(rows), UserUids(rows)) && forall r | r in UserRefs(rows) :: r.from != Nodes
  {
    if rows != [] { UsersDescend(rows[1..]); }
  }

  lemma {:induction false} RolesDescend(rows: seq<RoleRow>)
    ensures Descending(RoleRefs(rows), RoleUids(rows)) && forall r | r in RoleRefs(rows) :: r.from != Nodes
  {
    if rows != [] { RolesDescend(rows[1..]); }
  }

  lemma {:induction false} TeamsDescend(rows: seq<TeamRow>)
    ensures Descending(TeamRefs(rows), TeamUids(rows)) && forall r | r in TeamRefs(rows) :: r.from != Nodes
  {
    if rows != [] {
      TeamsDescend(rows[1..]);
      ManyAre(rows[0].uid, Teams, [rows[0].node], Nodes);
      ManyAre(rows[0].uid, Teams, rows[0].roles, Roles);
      ManyAre(rows[0].uid, Teams, rows[0].users, Users);
    }
  }

  lemma {:induction false} EnforcementsDescend(rows: seq<EnforcementRow>)
    ensures Descending(EnforcementRefs(rows), EnforcementUids(rows)) && forall r | r in EnforcementRefs(rows) :: r.from != Nodes
  {
    if rows != [] { EnforcementsDescend(rows[1..]); }
  }

  lemma {:induction false} AliasesDescend(rows: seq<AliasRow>)
    ensures Descending(AliasRefs(rows), AliasUids(rows)) && forall r | r in AliasRefs(rows) :: r.from != Nodes
  {
    if rows != [] { AliasesDescend(rows[1..]); }
  }

  lemma AllDescend(m: Manifest)
    ensures Descending(AllRefs(m), UidRefs(m))
    ensures forall r | r in AllRefs(m) && r.from == Nodes :: r in NodeRefs(m.nodes)
  {
    NodesDescend(m.nodes);
    UsersDescend(m.users);
    RolesDescend(m.roles);
    TeamsDescend(m.teams);
    EnforcementsDescend(m.enforcements);
    AliasesDescend(m.aliases);
  }

  lemma OwnersKnowMembers(refs: seq<(string, Block)>, u: string, b: Block)
    requires DistinctRefs(refs) && (u, b) in refs
    ensures u in Owners(refs) && Owners(refs)[u] == b
  {
    var i :| 0 <= i < |refs| && refs[i] == (u, b);
    OwnersKnow(refs, i);
  }

  /** Every edge runs strictly downwards between blocks, or is a node's parent edge. */
  lemma EdgeDescends(m: Manifest, e: Edge)
    requires DistinctRefs(UidRefs(m)) && (forall r | r in AllRefs(m) :: Resolves(Owners(UidRefs(m)), r))
    requires e in EdgesFor(Owners(UidRefs(m)), AllRefs(m))
    ensures var owners := Owners(UidRefs(m));
            && e.0 in owners && e.1 in owners
            && (Height(owners[e.1]) < Height(owners[e.0])
                || (Height(owners[e.1]) == Height(owners[e.0]) && e in EdgesFor(owners, NodeRefs(m.nodes))))
  {
    var owners := Owners(UidRefs(m));
    var r :| r in AllRefs(m) && EdgeFor(owners, r) == e;
    AllDescend(m);
    OwnersKnowMembers(UidRefs(m), r.owner, r.from);
  }

  lemma EdgesJoinOwners(m: Manifest)
    requires DistinctRefs(UidRefs(m)) && (forall r | r in AllRefs(m) :: Resolves(Owners(UidRefs(m)), r))
    ensures Within(EdgesFor(Owners(UidRefs(m)), AllRefs(m)), Owners(UidRefs(m)).Keys)
  {
    forall e | e in EdgesFor(Owners(UidRefs(m)), AllRefs(m))
      ensures e.0 in Owners(UidRefs(m)) && e.1 in Owners(UidRefs(m))
    {
      EdgeDescends(m, e);
    }
  }

  function HeightOf(owners: map<string, Block>, u: string): nat {
    if u in owners then Height(owners[u]) else 0
  }

  ghost predicate NeverRising(edges: set<Edge>, owners: map<string, Block>) {
    forall e | e in edges :: HeightOf(owners, e.1) <= HeightOf(owners, e.0)
  }

  /** Along a path heights never rise. */
  lemma {:induction false} PathNeverRises(edges: set<Edge>, owners: map<string, Block>, p: seq<string>, i: nat, j: nat)
    requires NeverRising(edges, owners) && IsPath(p, edges) && i <= j < |p|
    ensures HeightOf(owners, p[j]) <= HeightOf(owners, p[i])
  {
    if i < j {
      PathNeverRises(edges, owners, p, i, j - 1);
      var e := (p[j - 1], p[j]);
      assert e in edges;
    }
  }

  lemma CycleOfParents(m: Manifest, p: seq<string>)
    requires DistinctRefs(UidRefs(m)) && (forall r | r in AllRefs(m) :: Resolves(Owners(UidRefs(m)), r))
    requires IsCycle(p, EdgesFor(Owners(UidRefs(m)), AllRefs(m)))
    ensures IsCycle(p, EdgesFor(Owners(UidRefs(m)), NodeRefs(m.nodes)))
  {
    var owners := Owners(UidRefs(m));
    var all := EdgesFor(owners, AllRefs(m));
    forall e | e in all ensures HeightOf(owners, e.1) <= HeightOf(owners, e.0) { EdgeDescends(m, e); }
    forall i | 0 <= i < |p| - 1 ensures (p[i], p[i + 1]) in EdgesFor(owners, NodeRefs(m.nodes)) {
      PathNeverRises(all, owners, p, 0, i);
      PathNeverRises(all, owners, p, i + 1, |p| - 1);
      EdgeDescends(m, (p[i], p[i + 1]));
    }
  }

  /** Cycles are confined to nodes: when all references pass their checks, the graph has a
      cycle exactly when the parent relation of the nodes has one. */
  lemma CyclesAreParentCycles(m: Manifest)
    requires DistinctRefs(UidRefs(m)) && (forall r | r in AllRefs(m) :: Resolves(Owners(UidRefs(m)), r))
    ensures BuildGraph(m).Cycle? <==> !Acyclic(EdgesFor(Owners(UidRefs(m)), NodeRefs(m.nodes)))
  {
    var owners := Owners(UidRefs(m));
    var all, parents := EdgesFor(owners, AllRefs(m)), EdgesFor(owners, NodeRefs(m.nodes));
    forall r | r in NodeRefs(m.nodes) ensures r in AllRefs(m) {}
    assert parents <= all;
    forall p ensures IsCycle(p, parents) <==> IsCycle(p, all) {
      if IsCycle(p, all) { CycleOfParents(m, p); }
    }
  }
}
