/** What the KSM graph means (keeper_sdk/core/ksm_graph.py): the references of each kind
    of row, when they are good, and the edges they make. */
module KsmReferences {
  import opened Json
  import opened Graph
  import opened References
  import opened KsmDiff
  import opened KsmGraph

  predicate NamesUid(ref: string, lead: string, u: string) {
    IsUid(u) && ref in {lead + u, lead + u + "\n"}
  }

  /** The app a row refers to, by the app's uid_ref. */
  predicate OfApp(d: Dict, u: string) {
    NamesUid(TextField(d, "app_uid_ref"), "keeper-ksm:apps:", u)
  }

  /** Tokens, shares and outputs refer to an app of the manifest, and shares to a record. */
  ghost predicate RefersWell(m: Manifest, b: Block, d: Dict) {
    b != Apps ==>
      && (exists u :: OfApp(d, u) && IsAppRow(m, u))
      && (b == RecordShares ==> exists u :: NamesUid(TextField(d, "record_uid_ref"), "keeper-vault:records:", u))
  }

  ghost predicate IsAppRow(m: Manifest, u: string) {
    exists r :: r in m && r.0 == Apps && TextField(r.1, "uid_ref") == u
  }

  /** The name of a row's node: its own for apps and tokens. */
  function Label(b: Block, d: Dict): string {
    match b
    case RecordShares => "_ksm_share:" + TextField(d, "app_uid_ref") + "|" + TextField(d, "record_uid_ref")
    case ConfigOutputs => "_ksm_config_output:" + TextField(d, "app_uid_ref") + "|" + TextField(d, "output_path")
    case _ => TextField(d, "uid_ref")
  }

  /** The row needs its app, and a share the record it is for. */
  predicate Needs(b: Block, d: Dict, a: string, t: string) {
    b != Apps && a == Label(b, d) && (OfApp(d, t) || (b == RecordShares && t == "_ksm_record:" + TextField(d, "record_uid_ref")))
  }

  lemma AppIs(d: Dict, u: string)
    ensures AppOf(d) == Some(u) <==> OfApp(d, u)
  {
    PartIs("keeper-ksm:apps:", TextField(d, "app_uid_ref"), u);
  }

  lemma RecordIs(d: Dict)
    ensures LocalPart("keeper-vault:records:", TextField(d, "record_uid_ref")).Some?
       <==> exists u :: NamesUid(TextField(d, "record_uid_ref"), "keeper-vault:records:", u)
  {
    var lead, ref := "keeper-vault:records:", TextField(d, "record_uid_ref");
    forall u ensures LocalPart(lead, ref) == Some(u) <==> NamesUid(ref, lead, u) { PartIs(lead, ref, u); }
    var r := LocalPart(lead, ref);
    assert r.Some? ==> r == Some(r.value);
  }

  lemma {:induction false} AppsOwn(m: Manifest, u: string)
    requires DistinctUids(m)
    ensures u in Owners(m) && Owners(m)[u] == Apps <==> IsAppRow(m, u)
    ensures u in Owners(m) <==> exists r :: r in m && IsOwned(r.0) && NodeOf(r.0, r.1) == u
  {
    if m != [] {
      var n := |m| - 1;
      AppsOwn(m[..n], u);
      assert m == m[..n] + [m[n]];
      if NodeOf(m[n].0, m[n].1) == u && IsOwned(m[n].0) {
        forall r | r in m[..n] && IsOwned(r.0) ensures NodeOf(r.0, r.1) != u {
          var i :| 0 <= i < n && m[..n][i] == r;
          assert m[i] == r;
        }
      }
    }
  }

  lemma ResolvesIffWell(m: Manifest, b: Block, d: Dict)
    requires DistinctUids(m)
    ensures RefsResolve(Owners(m), b, d) <==> RefersWell(m, b, d)
  {
    hide OfApp, Owners, IsAppRow, NamesUid, LocalPart, DistinctUids;
    var app := AppOf(d);
    if app.Some? {
      AppIs(d, app.value);
      AppsOwn(m, app.value);
    }
    RecordIs(d);
    forall u | OfApp(d, u) ensures app == Some(u) { AppIs(d, u); }
  }

  lemma EdgesAreNeeds(b: Block, d: Dict, a: string, t: string)
    requires AppOf(d).Some? || b == Apps
    ensures (a, t) in EdgesOf(b, d) <==> Needs(b, d, a, t)
  {
    hide OfApp, LocalPart;
    AppIs(d, t);
  }

  lemma {:induction false} AllEdgesAre(m: Manifest, a: string, t: string)
    requires forall r | r in m :: AppOf(r.1).Some? || r.0 == Apps
    ensures (a, t) in AllEdges(m) <==> exists r :: r in m && Needs(r.0, r.1, a, t)
  {
    hide Needs, EdgesOf, AppOf;
    if m != [] {
      var n := |m| - 1;
      assert m == m[..n] + [m[n]];
      AllEdgesAre(m[..n], a, t);
      assert m[n] in m;
      EdgesAreNeeds(m[n].0, m[n].1, a, t);
    }
  }

  lemma {:induction false} AllNodesAre(m: Manifest, a: string)
    ensures a in AllNodes(m)
       <==> exists r :: r in m && (a == Label(r.0, r.1) || (r.0 == RecordShares && a == "_ksm_record:" + TextField(r.1, "record_uid_ref")))
  {
    if m != [] {
      AllNodesAre(m[..|m| - 1], a);
      assert m == m[..|m| - 1] + [m[|m| - 1]];
    }
  }

  /** A uid_ref given to two apps or tokens is reported. */
  lemma DuplicatesAreReported(m: Manifest)
    ensures BuildGraph(m).DuplicateRef? <==>
              exists i, j :: 0 <= i < j < |m| && m[i].0 in {Apps, Tokens} && m[j].0 in {Apps, Tokens}
                             && TextField(m[i].1, "uid_ref") == TextField(m[j].1, "uid_ref")
  {
    forall i | 0 <= i < |m| && m[i].0 in {Apps, Tokens} ensures NodeOf(m[i].0, m[i].1) == TextField(m[i].1, "uid_ref") && IsOwned(m[i].0) {}
    if !DistinctUids(m) {
      var i, j :| 0 <= i < j < |m| && IsOwned(m[i].0) && IsOwned(m[j].0) && NodeOf(m[i].0, m[i].1) == NodeOf(m[j].0, m[j].1);
      assert TextField(m[i].1, "uid_ref") == TextField(m[j].1, "uid_ref");
    }
  }

  /** With distinct uid_refs of apps and tokens: a bad reference is reported exactly when a
      row has one, and otherwise the graph has a node for every row and every shared
      record, and an edge for everything a row needs. */
  lemma GraphIsReferences(m: Manifest)
    requires DistinctUids(m)
    ensures !BuildGraph(m).DuplicateRef?
    ensures BuildGraph(m).BadRef? <==> exists r :: r in m && !RefersWell(m, r.0, r.1)
    ensures BuildGraph(m).Built? ==>
              && (forall a, t :: (a, t) in BuildGraph(m).edges <==> exists r :: r in m && Needs(r.0, r.1, a, t))
              && forall a :: a in BuildGraph(m).nodes <==>
                   exists r :: r in m && (a == Label(r.0, r.1) || (r.0 == RecordShares && a == "_ksm_record:" + TextField(r.1, "record_uid_ref")))
  {
    hide RefersWell, Needs, Owners, AllEdges, AllNodes, Acyclic, DistinctUids, Label;
    forall r | r in m ensures RefsResolve(Owners(m), r.0, r.1) <==> RefersWell(m, r.0, r.1) { ResolvesIffWell(m, r.0, r.1); }
    if BuildGraph(m).Built? {
      assert forall r | r in m :: RefsResolve(Owners(m), r.0, r.1);
      forall a, t ensures (a, t) in BuildGraph(m).edges <==> exists r :: r in m && Needs(r.0, r.1, a, t) { AllEdgesAre(m, a, t); }
      forall a ensures a in BuildGraph(m).nodes <==>
          exists r :: r in m && (a == Label(r.0, r.1) || (r.0 == RecordShares && a == "_ksm_record:" + TextField(r.1, "record_uid_ref")))
      {
        AllNodesAre(m, a);
      }
    }
  }
}
