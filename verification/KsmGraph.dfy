/** The dependency graph of a `keeper-ksm.v1` manifest and the order it gives to plans
    (keeper_sdk/core/ksm_graph.py). */
module KsmGraph {
  import opened Json
  import opened Graph
  import opened References
  import opened Plans
  import opened KsmDiff
  import Sorting

  /** The rows of a manifest, block by block. */
  type Manifest = seq<(Block, Dict)>

  const SHARE_NODE := "_ksm_share:"
  const OUTPUT_NODE := "_ksm_config_output:"
  const RECORD_NODE := "_ksm_record:"

  // ----------------------------------------------------------------------- the checks

  function AppOf(d: Dict): Option<string> {
    LocalPart("keeper-ksm:apps:", TextField(d, "app_uid_ref"))
  }

  function RecordNode(d: Dict): string {
    RECORD_NODE + TextField(d, "record_uid_ref")
  }

  function NodeOf(b: Block, d: Dict): string {
    match b
    case Apps => TextField(d, "uid_ref")
    case Tokens => TextField(d, "uid_ref")
    case RecordShares => SHARE_NODE + TextField(d, "app_uid_ref") + "|" + TextField(d, "record_uid_ref")
    case ConfigOutputs => OUTPUT_NODE + TextField(d, "app_uid_ref") + "|" + TextField(d, "output_path")
  }

  predicate IsOwned(b: Block) {
    b == Apps || b == Tokens
  }

  /** `owners`, filled from `iter_uid_refs`. */
  function Owners(m: Manifest): map<string, Block> {
    if m == [] then map[]
    else
      var n := |m| - 1;
      var (b, d) := m[n];
      if IsOwned(b) then Owners(m[..n])[NodeOf(b, d) := b] else Owners(m[..n])
  }

  ghost predicate DistinctUids(m: Manifest) {
    forall i, j | 0 <= i < j < |m| && IsOwned(m[i].0) && IsOwned(m[j].0) ::
      NodeOf(m[i].0, m[i].1) != NodeOf(m[j].0, m[j].1)
  }

  /** The references of a row are well-formed, and the app one names an app. */
  predicate RefsResolve(owners: map<string, Block>, b: Block, d: Dict) {
    b == Apps
    || (var app := AppOf(d);
        && app.Some? && app.value in owners && owners[app.value] == Apps
        && (b == RecordShares ==> LocalPart("keeper-vault:records:", TextField(d, "record_uid_ref")).Some?))
  }

  function EdgesOf(b: Block, d: Dict): set<Edge> {
    var app := AppOf(d);
    if b == Apps || app.None? then {}
    else {(NodeOf(b, d), app.value)} + if b == RecordShares then {(NodeOf(b, d), RecordNode(d))} else {}
  }

  function AllEdges(m: Manifest): set<Edge> {
    if m == [] then {} else AllEdges(m[..|m| - 1]) + EdgesOf(m[|m| - 1].0, m[|m| - 1].1)
  }

  function NodesOf(b: Block, d: Dict): set<string> {
    if b == RecordShares then {NodeOf(b, d), RecordNode(d)} else {NodeOf(b, d)}
  }

  function AllNodes(m: Manifest): set<string> {
    if m == [] then {} else AllNodes(m[..|m| - 1]) + NodesOf(m[|m| - 1].0, m[|m| - 1].1)
  }

  datatype Built = Built(nodes: set<string>, edges: set<Edge>) | DuplicateRef | BadRef | Cycle

  /** `build_ksm_graph` */
  ghost function BuildGraph(m: Manifest): Built {
    if !DistinctUids(m) then DuplicateRef
    else if exists r | r in m :: !RefsResolve(Owners(m), r.0, r.1) then BadRef
    else if !Acyclic(AllEdges(m)) then Cycle
    else Built(AllNodes(m), AllEdges(m))
  }

  // ------------------------------------------------------------------- no cycle, ever

  lemma {:induction false} OwnersKnow(m: Manifest, i: nat)
    requires DistinctUids(m) && i < |m| && IsOwned(m[i].0)
    ensures var u := NodeOf(m[i].0, m[i].1); u in Owners(m) && Owners(m)[u] == m[i].0
  {
    var n := |m| - 1;
    if i < n {
      assert m[..n][i] == m[i];
      OwnersKnow(m[..n], i);
    }
  }

  lemma {:induction false} EdgeHasRow(m: Manifest, e: Edge) returns (i: nat)
    requires e in AllEdges(m)
    ensures i < |m| && e in EdgesOf(m[i].0, m[i].1)
  {
    var n := |m| - 1;
    if e in EdgesOf(m[n].0, m[n].1) {
      i := n;
    } else {
      i := EdgeHasRow(m[..n], e);
    }
  }

  lemma {:induction false} RowHasEdges(m: Manifest, i: nat)
    requires i < |m|
    ensures EdgesOf(m[i].0, m[i].1) <= AllEdges(m) && NodesOf(m[i].0, m[i].1) <= AllNodes(m)
  {
    hide EdgesOf, NodesOf;
    var n := |m| - 1;
    if i < n {
      RowHasEdges(m[..n], i);
      assert m[..n][i] == m[i];
    }
  }

  lemma {:induction false} OwnersAreNodes(m: Manifest)
    ensures Owners(m).Keys <= AllNodes(m)
  {
    if m != [] { OwnersAreNodes(m[..|m| - 1]); }
  }

  lemma NodesTellApart(d: Dict, f: Dict, u: string)
    ensures NodeOf(RecordShares, d) != RecordNode(f) && NodeOf(ConfigOutputs, d) != RecordNode(f)
    ensures IsUid(u) ==> u != NodeOf(RecordShares, d) && u != NodeOf(ConfigOutputs, d)
  {
    assert NodeOf(RecordShares, d)[5] == 's' && NodeOf(ConfigOutputs, d)[5] == 'c' && RecordNode(f)[5] == 'r';
    assert NodeOf(RecordShares, d)[0] == '_' && NodeOf(ConfigOutputs, d)[0] == '_';
  }

  /** An edge leads from a dependent to an app, or from a share to its record; apps depend
      on nothing. */
  lemma EdgeShape(m: Manifest, e: Edge)
    requires DistinctUids(m) && (forall r | r in m :: RefsResolve(Owners(m), r.0, r.1)) && e in AllEdges(m)
    ensures !IsApp(m, e.0)
    ensures IsApp(m, e.1) || exists d, f :: e.0 == NodeOf(RecordShares, d) && e.1 == RecordNode(f)
    ensures e.1 in AllNodes(m) && e.0 in AllNodes(m)
  {
    var i := EdgeHasRow(m, e);
    var (b, d) := m[i];
    assert m[i] in m;
    RowHasEdges(m, i);
    OwnersAreNodes(m);
    NodesTellApart(d, d, e.0);
    if IsOwned(b) { OwnersKnow(m, i); }
  }

  /** The reference checks alone make the graph acyclic: the cycle check never fires. */
  lemma NeverCyclic(m: Manifest)
    ensures !BuildGraph(m).Cycle?
    ensures BuildGraph(m).Built? ==> Within(BuildGraph(m).edges, BuildGraph(m).nodes)
  {
    if DistinctUids(m) && forall r | r in m :: RefsResolve(Owners(m), r.0, r.1) {
      forall e | e in AllEdges(m) ensures e.0 in AllNodes(m) && e.1 in AllNodes(m) { EdgeShape(m, e); }
      forall p ensures !IsCycle(p, AllEdges(m)) { NotACycle(m, p); }
    }
  }

  ghost predicate IsApp(m: Manifest, u: string) {
    u in Owners(m) && Owners(m)[u] == Apps && IsUid(u)
  }

  /** On a cycle every edge leads from a share to a record. */
  lemma CycleEdge(m: Manifest, p: seq<string>, i: nat) returns (d: Dict, f: Dict)
    requires DistinctUids(m) && (forall r | r in m :: RefsResolve(Owners(m), r.0, r.1)) && IsCycle(p, AllEdges(m))
    requires i < |p| - 1
    ensures p[i] == NodeOf(RecordShares, d) && p[i + 1] == RecordNode(f)
  {
    var next := if i + 2 < |p| then (p[i + 1], p[i + 2]) else (p[0], p[1]);
    assert (p[i], p[i + 1]) in AllEdges(m) && next in AllEdges(m) && next.0 == p[i + 1];
    EdgeShape(m, (p[i], p[i + 1]));
    EdgeShape(m, next);
    assert !IsApp(m, p[i + 1]);
    d, f :| p[i] == NodeOf(RecordShares, d) && p[i + 1] == RecordNode(f);
  }

  lemma NotACycle(m: Manifest, p: seq<string>)
    requires DistinctUids(m) && (forall r | r in m :: RefsResolve(Owners(m), r.0, r.1))
    ensures !IsCycle(p, AllEdges(m))
  {
    hide AllEdges, NodeOf, RecordNode, DistinctUids, RefsResolve;
    if IsCycle(p, AllEdges(m)) {
      var d, f := CycleEdge(m, p, 0);
      var x, y := CycleEdge(m, p, if |p| > 2 then 1 else 0);
      NodesTellApart(x, f, "");
    }
  }

  // --------------------------------------------------------------------------- the loops

  method AddOwners(g: DiGraph, m: Manifest) returns (owners: map<string, Block>, dup: bool)
    modifies g
    ensures owners == Owners(m) && (dup <==> !DistinctUids(m))
    ensures g.edges == old(g.edges) && g.nodes == old(g.nodes) + owners.Keys
  {
    owners, dup := map[], false;
    for i := 0 to |m|
      invariant owners == Owners(m[..i]) && (dup <==> !DistinctUids(m[..i]))
      invariant g.edges == old(g.edges) && g.nodes == old(g.nodes) + owners.Keys
    {
      assert m[..i + 1][..i] == m[..i];
      OneMoreRow(m, i);
      var (b, d) := m[i];
      if IsOwned(b) {
        var u := NodeOf(b, d);
        if u in owners { dup := true; }
        owners := owners[u := b];
        g.AddNode(u);
      }
    }
    assert m[..|m|] == m;
  }

  lemma {:induction false} OwnersAre(m: Manifest)
    ensures forall u :: u in Owners(m) <==> exists k :: 0 <= k < |m| && IsOwned(m[k].0) && NodeOf(m[k].0, m[k].1) == u
  {
    if m != [] {
      var n := |m| - 1;
      OwnersAre(m[..n]);
      assert forall k | 0 <= k < n :: m[..n][k] == m[k];
    }
  }

  lemma OneMoreRow(m: Manifest, i: nat)
    requires i < |m|
    ensures DistinctUids(m[..i + 1])
       <==> DistinctUids(m[..i]) && (IsOwned(m[i].0) ==> NodeOf(m[i].0, m[i].1) !in Owners(m[..i]))
  {
    OwnersAre(m[..i]);
    assert forall k | 0 <= k < i :: m[..i][k] == m[k] && m[..i + 1][k] == m[k];
    assert m[..i + 1][i] == m[i];
    if IsOwned(m[i].0) && NodeOf(m[i].0, m[i].1) in Owners(m[..i]) {
      var k :| 0 <= k < i && IsOwned(m[..i][k].0) && NodeOf(m[..i][k].0, m[..i][k].1) == NodeOf(m[i].0, m[i].1);
      assert !DistinctUids(m[..i + 1]);
    }
  }

  /** One token, share or output: its references are checked and its edges added. */
  method AddRow(g: DiGraph, owners: map<string, Block>, b: Block, d: Dict) returns (ok: bool)
    requires owners.Keys <= g.nodes
    modifies g
    ensures ok <==> RefsResolve(owners, b, d)
    ensures ok && b == Apps ==> g.nodes == old(g.nodes) && g.edges == old(g.edges)
    ensures ok && b != Apps ==> g.nodes == old(g.nodes) + NodesOf(b, d) && g.edges == old(g.edges) + EdgesOf(b, d)
  {
    if b == Apps { return true; }
    var node, app := NodeOf(b, d), AppOf(d);
    g.AddNode(node);
    if app.None? || app.value !in owners || owners[app.value] != Apps { return false; }
    g.AddEdge(node, app.value);
    if b == RecordShares {
      if LocalPart("keeper-vault:records:", TextField(d, "record_uid_ref")).None? { return false; }
      g.AddNode(RecordNode(d));
      g.AddEdge(node, RecordNode(d));
    }
    return true;
  }

  lemma AppRows(owners: map<string, Block>, d: Dict)
    ensures RefsResolve(owners, Apps, d) && EdgesOf(Apps, d) == {} && NodesOf(Apps, d) == {NodeOf(Apps, d)}
  {}

  method AddRows(g: DiGraph, owners: map<string, Block>, m: Manifest) returns (ok: bool)
    requires g.nodes == owners.Keys && g.edges == {} && owners == Owners(m)
    modifies g
    ensures ok <==> forall r | r in m :: RefsResolve(owners, r.0, r.1)
    ensures ok ==> g.nodes == owners.Keys + AllNodes(m) && g.edges == AllEdges(m)
  {
    hide RefsResolve, EdgesOf, NodesOf;
    for i := 0 to |m|
      invariant forall r | r in m[..i] :: RefsResolve(owners, r.0, r.1)
      invariant owners.Keys <= g.nodes && g.nodes == owners.Keys + AllNodes(m[..i]) && g.edges == AllEdges(m[..i])
    {
      assert m[..i + 1] == m[..i] + [m[i]] && m[..i + 1][..i] == m[..i];
      AppsAreOwners(m, i);
      AppRows(owners, m[i].1);
      ok := AddRow(g, owners, m[i].0, m[i].1);
      if !ok {
        assert m[i] in m;
        return;
      }
    }
    assert m[..|m|] == m;
    return true;
  }

  lemma {:induction false} AppsAreOwners(m: Manifest, i: nat)
    requires i < |m|
    ensures m[i].0 == Apps ==> NodeOf(Apps, m[i].1) in Owners(m)
  {
    var n := |m| - 1;
    if i < n {
      assert m[..n][i] == m[i];
      AppsAreOwners(m[..n], i);
    }
  }

  method BuildGraphLoop(m: Manifest) returns (r: Built)
    ensures r == BuildGraph(m)
  {
    var g := new DiGraph();
    var owners, dup := AddOwners(g, m);
    if dup { return DuplicateRef; }
    var ok := AddRows(g, owners, m);
    if !ok { return BadRef; }
    OwnersAreNodes(m);
    NeverCyclic(m);
    return Built(g.nodes, g.edges);
  }

  // -------------------------------------------------------------------- the apply order

  predicate IsRecordNode(n: string) {
    RECORD_NODE <= n
  }

  function DropRecords(full: seq<string>): seq<string> {
    if full == [] then []
    else
      var n := |full| - 1;
      DropRecords(full[..n]) + if IsRecordNode(full[n]) then [] else [full[n]]
  }

  /** What `ksm_apply_order` returns: a dependency order of the graph, without the records. */
  ghost predicate IsApplyOrder(m: Manifest, order: seq<string>) {
    BuildGraph(m).Built?
    && exists full :: Topological(full, BuildGraph(m).nodes, BuildGraph(m).edges) && order == DropRecords(full)
  }

  method KsmApplyOrder(m: Manifest) returns (order: Option<seq<string>>)
    ensures order.Some? <==> BuildGraph(m).Built?
    ensures order.Some? ==> IsApplyOrder(m, order.value)
  {
    var built := BuildGraphLoop(m);
    if !built.Built? { return None; }
    NeverCyclic(m);
    var full := TopologicalSort(built.nodes, built.edges);
    var kept: seq<string> := [];
    for i := 0 to |full.value|
      invariant kept == DropRecords(full.value[..i])
    {
      assert full.value[..i + 1][..i] == full.value[..i];
      if !IsRecordNode(full.value[i]) { kept := kept + [full.value[i]]; }
    }
    assert full.value[..|full.value|] == full.value;
    return Some(kept);
  }

  lemma {:induction false} DropMembers(full: seq<string>)
    ensures forall n :: n in DropRecords(full) <==> n in full && !IsRecordNode(n)
  {
    if full != [] {
      var n := |full| - 1;
      DropMembers(full[..n]);
      assert full == full[..n] + [full[n]];
    }
  }

  lemma {:induction false} RankBelow(order: seq<string>, ref: string)
    requires ref in order
    ensures Rank(order, ref) < |order|
  {
    var n := |order| - 1;
    if order[n] != ref {
      assert order == order[..n] + [order[n]];
      RankBelow(order[..n], ref);
    }
  }

  /** Dropping nodes keeps the order of the others. */
  lemma {:induction false} DropKeepsOrder(full: seq<string>, a: nat, b: nat)
    requires Distinct(full) && a < b < |full| && !IsRecordNode(full[a]) && !IsRecordNode(full[b])
    ensures Rank(DropRecords(full), full[a]) < Rank(DropRecords(full), full[b])
  {
    var n := |full| - 1;
    var rest := full[..n];
    DropMembers(rest);
    var kept := DropRecords(rest);
    assert DropRecords(full)[..|kept|] == kept;
    if b == n {
      assert rest[a] == full[a];
      RankBelow(kept, full[a]);
    } else {
      assert rest[a] == full[a] && rest[b] == full[b];
      DropKeepsOrder(rest, a, b);
      if IsRecordNode(full[n]) { assert DropRecords(full) == kept; }
    }
  }

  // --------------------------------------------------------------- apps before the rest

  lemma RowEdge(m: Manifest, i: nat)
    requires BuildGraph(m).Built? && i < |m| && m[i].0 != Apps
    ensures AppOf(m[i].1).Some? && (NodeOf(m[i].0, m[i].1), AppOf(m[i].1).value) in BuildGraph(m).edges
    ensures AppOf(m[i].1).value in BuildGraph(m).nodes && AppOf(m[i].1).value in Owners(m) && IsUid(AppOf(m[i].1).value)
  {
    assert m[i] in m;
    RowHasEdges(m, i);
    OwnersAreNodes(m);
  }

  lemma UidIsNoRecord(u: string)
    requires IsUid(u)
    ensures !IsRecordNode(u)
  {
    assert RECORD_NODE[0] == '_';
  }

  /** In the apply order a token comes after its app. */
  lemma TokenRanksAfterApp(m: Manifest, order: seq<string>, i: nat)
    requires IsApplyOrder(m, order) && i < |m| && m[i].0 == Tokens && IsUid(TextField(m[i].1, "uid_ref"))
    ensures Rank(order, AppOf(m[i].1).value) < Rank(order, TextField(m[i].1, "uid_ref"))
  {
    var full :| Topological(full, BuildGraph(m).nodes, BuildGraph(m).edges) && order == DropRecords(full);
    var token, app := TextField(m[i].1, "uid_ref"), AppOf(m[i].1).value;
    RowEdge(m, i);
    RowHasEdges(m, i);
    var a :| 0 <= a < |full| && full[a] == app;
    var b :| 0 <= b < |full| && full[b] == token;
    UidIsNoRecord(token);
    UidIsNoRecord(app);
    DropKeepsOrder(full, a, b);
  }

  /** A share or config output has no place in the apply order: its change carries a
      synthetic uid_ref, which ranks by the sentinel, unless an app or token has that
      very uid_ref. */
  lemma SyntheticIsUnranked(m: Manifest, order: seq<string>, i: nat)
    requires IsApplyOrder(m, order) && i < |m| && !IsOwned(m[i].0) && RefOf(m[i].0, m[i].1) !in Owners(m)
    ensures Rank(order, RefOf(m[i].0, m[i].1)) == UNRANKED
  {
    var full :| Topological(full, BuildGraph(m).nodes, BuildGraph(m).edges) && order == DropRecords(full);
    DropMembers(full);
    NodeKinds(m);
    SyntheticRefs(m[i].0, m[i].1);
    RankOfMissing(order, RefOf(m[i].0, m[i].1));
  }

  predicate Underscored(n: string) {
    n != "" && n[0] == '_'
  }

  lemma SyntheticRefs(b: Block, d: Dict)
    requires !IsOwned(b)
    ensures !Underscored(RefOf(b, d)) && Underscored(NodeOf(b, d)) && Underscored(RecordNode(d))
  {}

  lemma {:induction false} NodeKinds(m: Manifest)
    ensures forall n | n in AllNodes(m) :: n in Owners(m) || Underscored(n)
  {
    if m != [] {
      var (b, d) := m[|m| - 1];
      NodeKinds(m[..|m| - 1]);
      if !IsOwned(b) { SyntheticRefs(b, d); }
    }
  }

  lemma AppIsRanked(m: Manifest, order: seq<string>, i: nat)
    requires IsApplyOrder(m, order) && i < |m| && m[i].0 != Apps
    ensures Rank(order, AppOf(m[i].1).value) < |order|
  {
    var full :| Topological(full, BuildGraph(m).nodes, BuildGraph(m).edges) && order == DropRecords(full);
    RowEdge(m, i);
    UidIsNoRecord(AppOf(m[i].1).value);
    DropMembers(full);
    RankBelow(order, AppOf(m[i].1).value);
  }

  /** The row's own uid_ref can be told from the sentinel's: a token's is well-formed, a
      share's or output's is nobody else's. */
  ghost predicate ProperRef(m: Manifest, i: nat)
    requires i < |m|
  {
    if m[i].0 == Tokens then IsUid(TextField(m[i].1, "uid_ref")) else RefOf(m[i].0, m[i].1) !in Owners(m)
  }

  /** Apps first: under the apply order, with no more than 10,000 nodes, the create or
      update of a token, share or config output is executed after its app's, and every
      delete after both, although shares and outputs are not in the order at all. */
  lemma AppsComeFirst(m: Manifest, p: Plan, i: nat, a: nat, b: nat)
    requires IsApplyOrder(m, p.order) && |p.order| <= UNRANKED
    requires i < |m| && m[i].0 != Apps && ProperRef(m, i)
    requires a < |Ordered(p)| && b < |Ordered(p)|
    requires Ordered(p)[a].kind != Delete && Ordered(p)[a].uidRef == AppOf(m[i].1)
    requires Ordered(p)[b].kind == Delete || Ordered(p)[b].uidRef == Some(RefOf(m[i].0, m[i].1))
    ensures a < b
  {
    RowEdge(m, i);
    if m[i].0 == Tokens {
      TokenRanksAfterApp(m, p.order, i);
    } else {
      SyntheticIsUnranked(m, p.order, i);
      AppIsRanked(m, p.order, i);
    }
    RankDecides(p, a, b);
  }

  /** The bound is the sentinel's: a share or output is executed after its app when the app
      is among the first 10,000 nodes of the order, before it when the app is beyond the
      next, and at that very rank the titles decide. */
  lemma SentinelDecides(m: Manifest, p: Plan, i: nat, a: nat, b: nat)
    requires IsApplyOrder(m, p.order) && i < |m| && !IsOwned(m[i].0) && ProperRef(m, i)
    requires a < |Ordered(p)| && b < |Ordered(p)|
    requires Ordered(p)[a].kind != Delete && Ordered(p)[a].uidRef == AppOf(m[i].1)
    requires Ordered(p)[b].kind != Delete && Ordered(p)[b].uidRef == Some(RefOf(m[i].0, m[i].1))
    ensures Rank(p.order, AppOf(m[i].1).value) < UNRANKED ==> a < b
    ensures Rank(p.order, AppOf(m[i].1).value) > UNRANKED ==> b < a
    ensures Rank(p.order, AppOf(m[i].1).value) == UNRANKED && Ordered(p)[a].title != Ordered(p)[b].title ==>
              (a < b <==> Sorting.StrLt(Ordered(p)[a].title, Ordered(p)[b].title))
  {
    RowEdge(m, i);
    SyntheticIsUnranked(m, p.order, i);
    if Rank(p.order, AppOf(m[i].1).value) < UNRANKED {
      RankDecides(p, a, b);
    } else if Rank(p.order, AppOf(m[i].1).value) > UNRANKED {
      RankDecides(p, b, a);
    } else if Ordered(p)[a].title != Ordered(p)[b].title {
      Sorting.StrLeTotal(Ordered(p)[a].title, Ordered(p)[b].title);
      if Sorting.StrLt(Ordered(p)[a].title, Ordered(p)[b].title) { TitleDecides(p, a, b); } else { TitleDecides(p, b, a); }
    }
  }
}
