/** What the enterprise graph means (keeper_sdk/core/enterprise_graph.py): which fields of
    a row refer, into which block, and which references are good. */
module EnterpriseReferences {
  import opened Json
  import opened References
  import opened Graph
  import opened EnterpriseGraph

  function BlockWord(b: Block): string {
    match b
    case Nodes => "nodes"
    case Users => "users"
    case Roles => "roles"
    case Teams => "teams"
    case Enforcements => "enforcements"
    case Aliases => "aliases"
  }

  /** The row `owner` of block `from` names `ref` in a field for rows of block `to`. */
  ghost predicate Refers(m: Manifest, owner: string, from: Block, ref: string, to: Block) {
    match from
    case Nodes => to == Nodes && exists r :: r in m.nodes && r.uid == owner && r.parent == Some(ref)
    case Users => to == Nodes && exists r :: r in m.users && r.uid == owner && r.node == Some(ref)
    case Roles =>
      exists r :: r in m.roles && r.uid == owner && ((to == Nodes && ref == r.node) || (to == Users && ref in r.users))
    case Teams =>
      exists r :: r in m.teams && r.uid == owner
        && ((to == Nodes && ref == r.node) || (to == Roles && ref in r.roles) || (to == Users && ref in r.users))
    case Enforcements => to == Roles && exists r :: r in m.enforcements && r.uid == owner && r.role == ref
    case Aliases => to == Users && exists r :: r in m.aliases && r.uid == owner && r.user == ref
  }

  /** The rows of a block. */
  ghost predicate IsRow(m: Manifest, u: string, b: Block) {
    match b
    case Nodes => exists r :: r in m.nodes && r.uid == u
    case Users => exists r :: r in m.users && r.uid == u
    case Roles => exists r :: r in m.roles && r.uid == u
    case Teams => exists r :: r in m.teams && r.uid == u
    case Enforcements => exists r :: r in m.enforcements && r.uid == u
    case Aliases => exists r :: r in m.aliases && r.uid == u
  }

  /** A reference names a row: its block's prefix and the row's uid, a final newline aside. */
  predicate NamesRow(ref: string, u: string, b: Block) {
    IsUid(u) && ref in {"keeper-enterprise:" + BlockWord(b) + ":" + u, "keeper-enterprise:" + BlockWord(b) + ":" + u + "\n"}
  }

  lemma ManyAre(owner: string, from: Block, refs: seq<string>, to: Block, r: Reference)
    ensures r in Many(owner, from, refs, to) <==> r.owner == owner && r.from == from && r.expected == to && r.ref in refs
  {
    var all := Many(owner, from, refs, to);
    if r.owner == owner && r.from == from && r.expected == to && r.ref in refs {
      var i :| 0 <= i < |refs| && refs[i] == r.ref;
      assert all[i] == r;
    }
  }

  lemma {:induction false} NodeRefsAre(m: Manifest, rows: seq<NodeRow>, r: Reference)
    ensures r in NodeRefs(rows) <==> r.from == Nodes && r.expected == Nodes && exists x :: x in rows && x.uid == r.owner && x.parent == Some(r.ref)
  {
    if rows != [] {
      NodeRefsAre(m, rows[1..], r);
      assert rows == [rows[0]] + rows[1..];
    }
  }

  lemma {:induction false} UserRefsAre(m: Manifest, rows: seq<UserRow>, r: Reference)
    ensures r in UserRefs(rows) <==> r.from == Users && r.expected == Nodes && exists x :: x in rows && x.uid == r.owner && x.node == Some(r.ref)
  {
    if rows != [] {
      UserRefsAre(m, rows[1..], r);
      assert rows == [rows[0]] + rows[1..];
    }
  }

  lemma {:induction false} RoleRefsAre(m: Manifest, rows: seq<RoleRow>, r: Reference)
    ensures r in RoleRefs(rows) 
       <==> (r.from == Roles &&
             exists x :: x in rows && x.uid == r.owner
               && ((r.expected == Nodes && r.ref == x.node) || (r.expected == Users && r.ref in x.users)))
  {
    if rows != [] {
      RoleRefsAre(m, rows[1..], r);
      ManyAre(rows[0].uid, Roles, [rows[0].node], Nodes, r);
      ManyAre(rows[0].uid, Roles, rows[0].users, Users, r);
      assert rows == [rows[0]] + rows[1..];
    }
  }

  lemma {:induction false} TeamRefsAre(m: Manifest, rows: seq<TeamRow>, r: Reference)
    ensures r in TeamRefs(rows) 
       <==> (r.from == Teams &&
             exists x :: x in rows && x.uid == r.owner
               && ((r.expected == Nodes && r.ref == x.node) || (r.expected == Roles && r.ref in x.roles)
                   || (r.expected == Users && r.ref in x.users)))
  {
    if rows != [] {
      TeamRefsAre(m, rows[1..], r);
      ManyAre(rows[0].uid, Teams, [rows[0].node], Nodes, r);
      ManyAre(rows[0].uid, Teams, rows[0].roles, Roles, r);
      ManyAre(rows[0].uid, Teams, rows[0].users, Users, r);
      assert rows == [rows[0]] + rows[1..];
    }
  }

  lemma {:induction false} EnforcementRefsAre(m: Manifest, rows: seq<EnforcementRow>, r: Reference)
    ensures r in EnforcementRefs(rows) <==> r.from == Enforcements && r.expected == Roles && exists x :: x in rows && x.uid == r.owner && x.role == r.ref
  {
    if rows != [] {
      EnforcementRefsAre(m, rows[1..], r);
      ManyAre(rows[0].uid, Enforcements, [rows[0].role], Roles, r);
      assert rows == [rows[0]] + rows[1..];
    }
  }

  lemma {:induction false} AliasRefsAre(m: Manifest, rows: seq<AliasRow>, r: Reference)
    ensures r in AliasRefs(rows) <==> r.from == Aliases && r.expected == Users && exists x :: x in rows && x.uid == r.owner && x.user == r.ref
  {
    if rows != [] {
      AliasRefsAre(m, rows[1..], r);
      ManyAre(rows[0].uid, Aliases, [rows[0].user], Users, r);
      assert rows == [rows[0]] + rows[1..];
    }
  }

  /** The references that are checked are those some row holds, each with the block its
      field is for. */
  lemma RefsAreHeld(m: Manifest, r: Reference)
    ensures r in AllRefs(m) <==> Refers(m, r.owner, r.from, r.ref, r.expected)
  {
    hide NodeRefs, UserRefs, RoleRefs, TeamRefs, EnforcementRefs, AliasRefs;
    NodeRefsAre(m, m.nodes, r);
    UserRefsAre(m, m.users, r);
    RoleRefsAre(m, m.roles, r);
    TeamRefsAre(m, m.teams, r);
    EnforcementRefsAre(m, m.enforcements, r);
    AliasRefsAre(m, m.aliases, r);
  }

  // -------------------------------------------------------------------- what they name

  lemma LocalUidNames(ref: string, u: string, to: Block)
    requires to in {Nodes, Users, Roles, Teams}
    ensures LocalUid(ref, to) == Some(u) <==> NamesRow(ref, u, to)
  {
    hide LocalPart, IsUid;
    assert BlockName(to) == BlockWord(to) && |BlockWord(to)| > 0;
    PartIs("keeper-enterprise:" + BlockWord(to) + ":", ref, u);
  }

  lemma {:induction false} NodeUidsAre(rows: seq<NodeRow>, u: string, b: Block)
    ensures (u, b) in NodeUids(rows) <==> b == Nodes && exists r :: r in rows && r.uid == u
  {
    if rows != [] {
      NodeUidsAre(rows[1..], u, b);
      assert rows == [rows[0]] + rows[1..];
    }
  }

  lemma {:induction false} UserUidsAre(rows: seq<UserRow>, u: string, b: Block)
    ensures (u, b) in UserUids(rows) <==> b == Users && exists r :: r in rows && r.uid == u
  {
    if rows != [] {
      UserUidsAre(rows[1..], u, b);
      assert rows == [rows[0]] + rows[1..];
    }
  }

  lemma {:induction false} RoleUidsAre(rows: seq<RoleRow>, u: string, b: Block)
    ensures (u, b) in RoleUids(rows) <==> b == Roles && exists r :: r in rows && r.uid == u
  {
    if rows != [] {
      RoleUidsAre(rows[1..], u, b);
      assert rows == [rows[0]] + rows[1..];
    }
  }

  lemma {:induction false} TeamUidsAre(rows: seq<TeamRow>, u: string, b: Block)
    ensures (u, b) in TeamUids(rows) <==> b == Teams && exists r :: r in rows && r.uid == u
  {
    if rows != [] {
      TeamUidsAre(rows[1..], u, b);
      assert rows == [rows[0]] + rows[1..];
    }
  }

  lemma {:induction false} EnforcementUidsAre(rows: seq<EnforcementRow>, u: string, b: Block)
    ensures (u, b) in EnforcementUids(rows) <==> b == Enforcements && exists r :: r in rows && r.uid == u
  {
    if rows != [] {
      EnforcementUidsAre(rows[1..], u, b);
      assert rows == [rows[0]] + rows[1..];
    }
  }

  lemma {:induction false} AliasUidsAre(rows: seq<AliasRow>, u: string, b: Block)
    ensures (u, b) in AliasUids(rows) <==> b == Aliases && exists r :: r in rows && r.uid == u
  {
    if rows != [] {
      AliasUidsAre(rows[1..], u, b);
      assert rows == [rows[0]] + rows[1..];
    }
  }

  lemma UidsAreRows(m: Manifest, u: string, b: Block)
    ensures (u, b) in UidRefs(m) <==> IsRow(m, u, b)
  {
    hide NodeUids, UserUids, RoleUids, TeamUids, EnforcementUids, AliasUids;
    NodeUidsAre(m.nodes, u, b);
    UserUidsAre(m.users, u, b);
    RoleUidsAre(m.roles, u, b);
    TeamUidsAre(m.teams, u, b);
    EnforcementUidsAre(m.enforcements, u, b);
    AliasUidsAre(m.aliases, u, b);
  }

  lemma {:induction false} OwnersAreRefs(refs: seq<(string, Block)>, u: string, b: Block)
    requires DistinctRefs(refs)
    ensures u in Owners(refs) && Owners(refs)[u] == b <==> (u, b) in refs
  {
    if refs != [] {
      var n := |refs| - 1;
      OwnersAreRefs(refs[..n], u, b);
      assert refs == refs[..n] + [refs[n]];
    }
  }

  /** A reference is good when it names a row of the block its field is for. */
  ghost predicate Good(m: Manifest, ref: string, to: Block) {
    exists u :: NamesRow(ref, u, to) && IsRow(m, u, to)
  }

  lemma ResolvesIffGood(m: Manifest, r: Reference)
    requires DistinctRefs(UidRefs(m)) && r.expected in {Nodes, Users, Roles, Teams}
    ensures Resolves(Owners(UidRefs(m)), r) <==> Good(m, r.ref, r.expected)
    ensures Resolves(Owners(UidRefs(m)), r) ==> forall u :: NamesRow(r.ref, u, r.expected) <==> LocalUid(r.ref, r.expected) == Some(u)
  {
    hide LocalUid, NamesRow, Owners, UidRefs, IsRow;
    forall u ensures NamesRow(r.ref, u, r.expected) <==> LocalUid(r.ref, r.expected) == Some(u) {
      LocalUidNames(r.ref, u, r.expected);
    }
    forall u ensures IsRow(m, u, r.expected) <==> u in Owners(UidRefs(m)) && Owners(UidRefs(m))[u] == r.expected {
      OwnersAreRefs(UidRefs(m), u, r.expected);
      UidsAreRows(m, u, r.expected);
    }
  }

  lemma RefersToFour(m: Manifest, r: Reference)
    requires r in AllRefs(m)
    ensures r.expected in {Nodes, Users, Roles, Teams}
  {
    RefsAreHeld(m, r);
  }

  /** A uid_ref given twice is reported, and so is a cycle when all references are good. */
  lemma DuplicatesAreReported(m: Manifest)
    ensures BuildGraph(m).DuplicateRef? <==> exists i, j :: 0 <= i < j < |UidRefs(m)| && UidRefs(m)[i].0 == UidRefs(m)[j].0
  {}

  /** Beyond duplicate uid_refs and cycles: a bad reference is reported exactly when some
      row holds one, and otherwise the edges are the references, from holder to named. */
  lemma GraphIsReferences(m: Manifest)
    requires DistinctRefs(UidRefs(m))
    ensures !BuildGraph(m).DuplicateRef?
    ensures BuildGraph(m).BadRef? <==> exists a, from, ref, to :: Refers(m, a, from, ref, to) && !Good(m, ref, to)
    ensures BuildGraph(m).Built? ==>
              forall a, b :: (a, b) in BuildGraph(m).edges <==> exists from, ref, to :: Refers(m, a, from, ref, to) && NamesRow(ref, b, to)
    ensures BuildGraph(m).Cycle? ==> !Acyclic(EdgesFor(Owners(UidRefs(m)), AllRefs(m)))
  {
    hide AllRefs, Resolves, Refers, Good, NamesRow, Owners, UidRefs, Acyclic, LocalUid;
    forall r | r in AllRefs(m)
      ensures Resolves(Owners(UidRefs(m)), r) <==> Good(m, r.ref, r.expected)
      ensures Resolves(Owners(UidRefs(m)), r) ==> forall u :: NamesRow(r.ref, u, r.expected) <==> LocalUid(r.ref, r.expected) == Some(u)
    {
      RefersToFour(m, r);
      ResolvesIffGood(m, r);
    }
    forall r ensures r in AllRefs(m) <==> Refers(m, r.owner, r.from, r.ref, r.expected) { RefsAreHeld(m, r); }
    if a, from, ref, to :| Refers(m, a, from, ref, to) && !Good(m, ref, to) {
      assert Reference(a, from, ref, to) in AllRefs(m);
    }
    if BuildGraph(m).Built? {
      forall a, b ensures (a, b) in BuildGraph(m).edges <==> exists from, ref, to :: Refers(m, a, from, ref, to) && NamesRow(ref, b, to) {
        EdgeIsReference(m, a, b);
      }
    }
  }

  lemma EdgeIsReference(m: Manifest, a: string, b: string)
    requires BuildGraph(m).Built?
    ensures (a, b) in BuildGraph(m).edges <==> exists from, ref, to :: Refers(m, a, from, ref, to) && NamesRow(ref, b, to)
  {
    hide AllRefs, Refers, Good, NamesRow, Owners, UidRefs, Acyclic, LocalUid;
    var owners := Owners(UidRefs(m));
    if (a, b) in BuildGraph(m).edges {
      var r :| r in AllRefs(m) && EdgeFor(owners, r) == (a, b);
      RefersToFour(m, r);
      ResolvesIffGood(m, r);
      RefsAreHeld(m, r);
      assert NamesRow(r.ref, b, r.expected);
    }
    if from, ref, to :| Refers(m, a, from, ref, to) && NamesRow(ref, b, to) {
      var r := Reference(a, from, ref, to);
      RefsAreHeld(m, r);
      RefersToFour(m, r);
      ResolvesIffGood(m, r);
      assert EdgeFor(owners, r) == (a, b);
    }
  }
}
