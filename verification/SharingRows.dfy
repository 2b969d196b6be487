/** What the rows of a sharing diff mean (keeper_sdk/core/sharing_diff.py): who a share is
    for, what tells shares apart, and which fields decide. */
module SharingRows {
  import opened Json
  import opened Plans
  import opened PamDiff
  import opened MockProvider
  import opened SharingDiff
  import SharingPayloads

  // ---------------------------------------------------------------------- who it is for

  /** The member a share is for: the user or team of its grantee, else a flat e-mail
      address, else a flat team; addresses are folded. */
  predicate For(env: Env, p: Dict, member: string) {
    var g := DictOrEmpty(Get(p, "grantee"));
    if Get(g, "kind") == JStr("user") && Get(g, "user_email") != JNull then member == EmailText(env, g["user_email"])
    else if Get(g, "kind") == JStr("team") && Get(g, "team_uid_ref") != JNull then member == TextField(g, "team_uid_ref")
    else if Get(p, "user_email") != JNull then member == EmailText(env, p["user_email"])
    else if Get(p, "team_uid_ref") != JNull then member == TextField(p, "team_uid_ref")
    else member == ""
  }

  /** A record share is told by record and member. */
  predicate RecordShareKey(env: Env, p: Dict, key: Option<ShareKey>) {
    match key
    case Some(k) =>
      k.block == RecordShare && k.role == "" && k.container == TextField(p, "record_uid_ref") != "" && k.member != "" && For(env, p, k.member)
    case None => TextField(p, "record_uid_ref") == "" || For(env, p, "")
  }

  /** What a folder share is told by beside its folder and kind. */
  predicate FolderMember(env: Env, p: Dict, kind: string, member: string) {
    if kind == "grantee" then For(env, p, member)
    else if kind == "record" then member == TextField(p, "record_uid_ref")
    else if kind == "default" then member == "default"
    else member == ""
  }

  predicate FolderShareKey(env: Env, p: Dict, key: Option<ShareKey>) {
    var folder, kind := TextField(p, "shared_folder_uid_ref"), TextField(p, "kind");
    match key
    case Some(k) =>
      k.block == ShareFolder && k.container == folder != "" && k.role == kind != "" && k.member != "" && FolderMember(env, p, kind, k.member)
    case None => folder == "" || kind == "" || FolderMember(env, p, kind, "")
  }

  lemma GranteeIsFor(env: Env, p: Dict, member: string)
    ensures Identifier(GranteeOf(env, p)) == member <==> For(env, p, member)
  {}

  lemma KeyTells(env: Env, p: Dict)
    ensures RecordShareKey(env, p, KeyOf(env, RecordShare, p)) && FolderShareKey(env, p, KeyOf(env, ShareFolder, p))
  {
    hide GranteeOf, Identifier, For;
    var member := Identifier(GranteeOf(env, p));
    GranteeIsFor(env, p, member);
    GranteeIsFor(env, p, "");
  }

  // ------------------------------------------------------------------------- drift

  /** The fields of a share that are compared. */
  predicate Counts(b: Block, f: string) {
    f in {"can_edit", "can_share", "expires_at"} || (b == ShareFolder && f in {"target", "manage_records", "manage_users"})
  }

  predicate Disagree(b: Block, live: Dict, desired: Dict, f: string) {
    Counts(b, f) && Get(live, f) != Get(desired, f)
  }

  /** The projection of a payload: permissions moved out of their dict where the payload has
      no flat ones, and the member's address or team in flat form. */
  ghost predicate Projected(env: Env, b: Block, p: Dict, q: Dict) {
    var nested := DictOrEmpty(Get(p, "permissions"));
    && (forall f | Counts(b, f) ::
          Get(q, f) == if f in p || f in {"expires_at", "target"} then Get(p, f) else Get(nested, f))
    && (forall k | !Counts(b, k) && k !in {"grantee", "user_email", "team_uid_ref"} :: Get(q, k) == Get(p, k))
    && match GranteeOf(env, p)
       case Nobody => forall k | k in {"grantee", "user_email", "team_uid_ref"} :: Get(q, k) == Get(p, k)
       case User(e) =>
         && Get(q, "user_email") == JStr(e) && Get(q, "team_uid_ref") == Get(p, "team_uid_ref")
         && Get(q, "grantee") == if b == ShareFolder && Get(p, "grantee").JObj?
                                 then JObj(p["grantee"].fields["user_email" := JStr(e)]) else Get(p, "grantee")
       case Team(t) =>
         && Get(q, "team_uid_ref") == (if "team_uid_ref" in p then p["team_uid_ref"] else JStr(t))
         && Get(q, "user_email") == Get(p, "user_email") && Get(q, "grantee") == Get(p, "grantee")
  }

  lemma FlattenIs(b: Block, p: Dict)
    ensures var q, nested := Flatten(b, p), DictOrEmpty(Get(p, "permissions"));
            && (forall f | Counts(b, f) :: Get(q, f) == if f in p || f in {"expires_at", "target"} then Get(p, f) else Get(nested, f))
            && (forall k | !Counts(b, k) :: Get(q, k) == Get(p, k) && (k in q <==> k in p))
  {}

  lemma GranteeIs(env: Env, b: Block, p: Dict)
    ensures var q := WithGrantee(env, b, p);
            && (forall k | k !in {"grantee", "user_email", "team_uid_ref"} :: Get(q, k) == Get(p, k))
            && match GranteeOf(env, p)
               case Nobody => q == p
               case User(e) =>
                 && Get(q, "user_email") == JStr(e) && Get(q, "team_uid_ref") == Get(p, "team_uid_ref")
                 && Get(q, "grantee") == if b == ShareFolder && Get(p, "grantee").JObj?
                                         then JObj(p["grantee"].fields["user_email" := JStr(e)]) else Get(p, "grantee")
               case Team(t) =>
                 && Get(q, "team_uid_ref") == (if "team_uid_ref" in p then p["team_uid_ref"] else JStr(t))
                 && Get(q, "user_email") == Get(p, "user_email") && Get(q, "grantee") == Get(p, "grantee")
  {
    hide GranteeOf;
  }

  lemma ProjectionIs(env: Env, b: Block, p: Dict)
    ensures Projected(env, b, p, Project(env, b, p))
  {
    hide Flatten, WithGrantee, GranteeOf;
    var flat := Flatten(b, p);
    FlattenIs(b, p);
    forall k | k in {"grantee", "user_email", "team_uid_ref"} ensures !Counts(b, k) && Get(flat, k) == Get(p, k) && (k in flat <==> k in p) {}
    SharingPayloads.GranteeDepends(env, flat, p);
    GranteeIs(env, b, flat);
  }

  // ------------------------------------------------------------------------- the rows

  /** What the diff sees of a stored record. */
  lemma LiveShareIs(env: Env, b: Block, r: LiveRecord)
    ensures var l, own := LiveShareOf(env, b, r), TextField(Project(env, b, r.payload), "uid_ref");
            && l.keeperUid == r.keeperUid && l.marker == r.marker && l.payload == Project(env, b, r.payload)
            && l.key == KeyOf(env, b, l.payload)
            && l.uidRef == if own != "" then own else match r.marker { case Some(m) => OrEmpty(m.uidRef) case None => "" }
  {}

  predicate Ours(m: Option<Marker>, name: string) {
    m.Some? && m.value.manager == Some("keeper-pam-declarative") && OrEmpty(m.value.manifest) in {"", name}
  }

  function TitleFor(k: ShareKey): string {
    if k.block == RecordShare then k.container + ":" + k.member else k.container + ":" + k.role + ":" + k.member
  }

  predicate RowAbout(c: Change, b: Block, uidRef: string, k: ShareKey) {
    && c.uidRef == Ref(uidRef) && c.title == TitleFor(k)
    && c.resourceType == if b == RecordShare then "sharing_record_share" else "sharing_share_folder"
  }

  /** The row of a manifest row whose key the live share `l` has. */
  ghost predicate Judged(st: ShareSettings, o: Share, l: LiveShare, rows: seq<Change>) {
    var drifted := exists f :: Disagree(o.block, l.payload, o.payload, f);
    if Ours(l.marker, st.name) && !drifted then rows == []
    else
      && |rows| == 1 && rows[0].keeperUid == Some(l.keeperUid)
      && if Ours(l.marker, st.name) then Updates(o, l, rows[0])
         else rows[0].kind == Skip && rows[0].before == l.payload && rows[0].after == map[]
  }

  /** An update holds exactly the fields that disagree, with both their values. */
  ghost predicate Updates(o: Share, l: LiveShare, c: Change) {
    && c.kind == Update && c.before.Keys == c.after.Keys
    && (forall f :: f in c.after <==> Disagree(o.block, l.payload, o.payload, f))
    && forall f | f in c.after :: c.before[f] == Get(l.payload, f) && c.after[f] == Get(o.payload, f)
  }

  /** A manifest row: judged against the first live share with its key; when none has, a
      record share is in conflict with the first that has its uid_ref, and anything else
      is created, with its payload and a marker. */
  lemma DesiredRowIs(st: ShareSettings, live: seq<LiveShare>, o: Share)
    requires o.key.Some?
    ensures var rows, i, j := DesiredRow(st, live, o), FirstWithKey(live, o.key.value), FirstWithRef(live, o.uidRef);
            var created := o.payload["marker" := st.marker(o)];
            && (forall c | c in rows :: RowAbout(c, o.block, o.uidRef, o.key.value))
            && if i < |live| then Judged(st, o, live[i], rows)
               else
                 |rows| == 1 && rows[0].after == created &&
                 if o.block == RecordShare && j < |live|
                 then rows[0].kind == Conflict && rows[0].keeperUid == Some(live[j].keeperUid) && rows[0].before == live[j].payload
                 else rows[0].kind == Create && rows[0].keeperUid == None && rows[0].before == map[]
  {
    var i := FirstWithKey(live, o.key.value);
    if i < |live| {
      var drift := Drift(o.block, live[i].payload, o.payload);
      forall f ensures f in drift <==> Disagree(o.block, live[i].payload, o.payload, f) {}
      if f :| Disagree(o.block, live[i].payload, o.payload, f) { assert f in drift; }
    }
  }

  /** A live share no manifest row stands for: left alone when it is not ours, deleted when
      deletes are on, and otherwise skipped, but for records of a folder, which conflict. */
  lemma OrphanRowIs(b: Block, st: ShareSettings, r: LiveShare)
    requires r.key.Some?
    ensures var c := OrphanShare(b, st, r);
            && RowAbout(c, b, if r.uidRef != "" then r.uidRef else r.key.value.member, r.key.value)
            && c.keeperUid == Some(r.keeperUid) && c.before == r.payload && c.after == map[]
            && (c.kind == Delete <==> Ours(r.marker, st.name) && st.allowDelete)
            && (c.kind == Conflict <==> Ours(r.marker, st.name) && !st.allowDelete && b == ShareFolder && Get(r.payload, "kind") == JStr("record"))
            && c.kind in {Delete, Conflict, Skip}
  {}

  // ----------------------------------------------------------------------- a whole block

  /** The live share at `i` stands for the manifest row: the first with its key, or, for a
      record share without one, the first with its uid_ref. */
  predicate StandsFor(live: seq<LiveShare>, o: Share, i: nat)
    requires o.key.Some?
  {
    var k, u := FirstWithKey(live, o.key.value), FirstWithRef(live, o.uidRef);
    i < |live| && (i == k || (k >= |live| && o.block == RecordShare && i == u))
  }

  ghost predicate Stands(live: seq<LiveShare>, ds: seq<Share>, i: nat)
    requires forall o | o in ds :: o.key.Some?
  {
    exists o :: o in ds && StandsFor(live, o, i)
  }

  lemma HitStands(live: seq<LiveShare>, o: Share, i: nat)
    requires o.key.Some?
    ensures !HitOf(live, o).Missed? && HitOf(live, o).i == i <==> StandsFor(live, o, i)
  {}

  lemma {:induction false} MatchedStand(live: seq<LiveShare>, ds: seq<Share>, i: nat)
    requires forall o | o in ds :: o.key.Some?
    ensures i in MatchedShares(live, ds) <==> Stands(live, ds, i)
  {
    if ds != [] {
      var n := |ds| - 1;
      MatchedStand(live, ds[..n], i);
      HitStands(live, ds[n], i);
      assert ds == ds[..n] + [ds[n]];
      assert Stands(live, ds, i) <==> Stands(live, ds[..n], i) || StandsFor(live, ds[n], i);
    }
  }

  /** A marker of ours in a version the diff does not know. */
  predicate OtherVersion(m: Option<Marker>) {
    m.Some? && m.value.manager == Some("keeper-pam-declarative") && m.value.version.Some? && m.value.version.value != "1"
  }

  lemma SupportedIff(m: Option<Marker>)
    ensures Supported(m) <==> !OtherVersion(m)
  {}

  /** The diff of a block raises exactly on manifest rows without or with repeated keys or
      uid_refs, on live shares without a key, and on a marker of another version, found by
      key or on a share no row stands for. */
  lemma BlockRaisesIff(b: Block, st: ShareSettings, ds: seq<Share>, live: seq<LiveShare>)
    ensures BlockDiff(b, st, ds, live).Raised? <==>
              || (exists o :: o in ds && o.key.None?)
              || (exists i, j :: 0 <= i < j < |ds| && (ds[i].uidRef == ds[j].uidRef || ds[i].key == ds[j].key))
              || (exists l :: l in live && l.key.None?)
              || (exists o :: o in ds && o.key.Some? && var i := FirstWithKey(live, o.key.value); i < |live| && OtherVersion(live[i].marker))
              || ((forall o | o in ds :: o.key.Some?) && exists i: nat :: i < |live| && !Stands(live, ds, i) && OtherVersion(live[i].marker))
  {
    hide MatchedShares, Stands;
    if forall o | o in ds :: o.key.Some? {
      forall i: nat ensures i in MatchedShares(live, ds) <==> Stands(live, ds, i) { MatchedStand(live, ds, i); }
      forall m ensures Supported(m) <==> !OtherVersion(m) { SupportedIff(m); }
      forall o | o in ds ensures HitOf(live, o).ByKey? <==> FirstWithKey(live, o.key.value) < |live| {}
    }
  }

  lemma {:induction false} RowsAreListed(st: ShareSettings, live: seq<LiveShare>, ds: seq<Share>, c: Change)
    requires forall o | o in ds :: o.key.Some?
    ensures c in ShareRows(st, live, ds) <==> exists o :: o in ds && c in DesiredRow(st, live, o)
  {
    hide DesiredRow;
    if ds != [] {
      var n := |ds| - 1;
      RowsAreListed(st, live, ds[..n], c);
      assert ds == ds[..n] + [ds[n]];
    }
  }

  lemma {:induction false} UnmatchedStandForNone(live: seq<LiveShare>, matched: set<nat>, l: LiveShare)
    ensures l in Unmatched(live, matched) <==> exists i: nat :: i < |live| && i !in matched && live[i] == l
  {
    if live != [] {
      var n := |live| - 1;
      UnmatchedStandForNone(live[..n], matched, l);
      assert live == live[..n] + [live[n]];
      if l in Unmatched(live[..n], matched) {
        var i: nat :| i < n && i !in matched && live[..n][i] == l;
        assert live[i] == l;
      }
      if i: nat :| i < |live| && i !in matched && live[i] == l {
        assert i < n ==> live[..n][i] == l;
      }
    }
  }

  /** Otherwise it lists the rows of the manifest rows, and one for each share left over. */
  lemma BlockLists(b: Block, st: ShareSettings, ds: seq<Share>, live: seq<LiveShare>, c: Change)
    requires BlockDiff(b, st, ds, live).BlockRows?
    ensures c in BlockDiff(b, st, ds, live).rows <==>
              || (exists o :: o in ds && c in DesiredRow(st, live, o))
              || exists i: nat :: i < |live| && live[i].key.Some? && !Stands(live, ds, i) && c == OrphanShare(b, st, live[i])
  {
    hide DesiredRow, OrphanShare, MatchedShares, Stands, Unmatched, ShareRows, Unreadable, Indexable;
    assert Indexable(ds) && forall o | o in ds :: o.key.Some? by { KeysAreThere(ds); }
    var matched := MatchedShares(live, ds);
    UnmatchedAre(live, matched);
    var rest := Unmatched(live, matched);
    RowsAreListed(st, live, ds, c);
    forall i: nat ensures i in matched <==> Stands(live, ds, i) { MatchedStand(live, ds, i); }
    forall l ensures l in rest <==> exists i: nat :: i < |live| && i !in matched && live[i] == l { UnmatchedStandForNone(live, matched, l); }
    forall i: nat | i < |live| ensures live[i].key.Some? { assert live[i] in live; }
    var orphans := OrphanShares(b, st, rest);
    assert forall j | 0 <= j < |rest| :: rest[j] in rest && orphans[j] == OrphanShare(b, st, rest[j]);
    if l :| l in rest && c == OrphanShare(b, st, l) {
      var j :| 0 <= j < |rest| && rest[j] == l;
      assert orphans[j] == c;
    }
  }

  lemma KeysAreThere(ds: seq<Share>)
    ensures Indexable(ds) ==> forall o | o in ds :: o.key.Some?
  {}
}
