/** The diff of record shares and share folders of `keeper-vault-sharing.v1`
    (keeper_sdk/core/sharing_diff.py).  The two blocks run one algorithm; what differs
    between them hangs on `Kind`. */
module SharingDiff {
  import opened Json
  import opened OrderedDict
  import opened Plans
  import opened PamDiff
  import opened MockProvider

  datatype Block = RecordShare | ShareFolder

  function ResourceOf(b: Block): string {
    match b case RecordShare => RECORD_SHARE case ShareFolder => SHARE_FOLDER
  }

  // ------------------------------------------------------------------------- grantees

  datatype Grantee = Nobody | User(email: string) | Team(team: string)

  /** `_normalise_email` */
  function EmailText(env: Env, v: Json): string {
    match env.email(v)
    case JStr(s) => s
    case _ => ""
  }

  /** `_grantee_parts` */
  function GranteeOf(env: Env, p: Dict): Grantee {
    var g := DictOrEmpty(Get(p, "grantee"));
    if Get(g, "kind") == JStr("user") && Get(g, "user_email") != JNull then User(EmailText(env, g["user_email"]))
    else if Get(g, "kind") == JStr("team") && Get(g, "team_uid_ref") != JNull then Team(TextField(g, "team_uid_ref"))
    else if Get(p, "user_email") != JNull then User(EmailText(env, p["user_email"]))
    else if Get(p, "team_uid_ref") != JNull then Team(TextField(p, "team_uid_ref"))
    else Nobody
  }

  function Identifier(g: Grantee): string {
    match g
    case Nobody => ""
    case User(e) => e
    case Team(t) => t
  }

  // ----------------------------------------------------------------------- projection

  function FlatFlags(b: Block): set<string> {
    match b
    case RecordShare => {"can_edit", "can_share"}
    case ShareFolder => {"manage_records", "manage_users", "can_edit", "can_share"}
  }

  /** Flags known only under `permissions` are lifted to the top. */
  function Flatten(b: Block, p: Dict): Dict {
    var nested := DictOrEmpty(Get(p, "permissions"));
    p + map f | f in FlatFlags(b) && f !in p && f in nested :: nested[f]
  }

  function WithGrantee(env: Env, b: Block, p: Dict): Dict {
    match GranteeOf(env, p)
    case Nobody => p
    case Team(t) => if "team_uid_ref" in p then p else p["team_uid_ref" := JStr(t)]
    case User(e) =>
      (if b == ShareFolder && Get(p, "grantee").JObj?
       then p["grantee" := JObj(p["grantee"].fields["user_email" := JStr(e)])] else p)["user_email" := JStr(e)]
  }

  /** `_record_share_payload`, `_share_folder_payload` */
  function Project(env: Env, b: Block, p: Dict): Dict {
    WithGrantee(env, b, Flatten(b, p))
  }

  // ------------------------------------------------------------------------------ keys

  datatype ShareKey = ShareKey(block: Block, container: string, role: string, member: string)

  /** `_record_share_key`, `_share_folder_key`; None where they raise. */
  function KeyOf(env: Env, b: Block, p: Dict): Option<ShareKey> {
    match b
    case RecordShare =>
      var record, member := TextField(p, "record_uid_ref"), Identifier(GranteeOf(env, p));
      if record == "" || member == "" then None else Some(ShareKey(b, record, "", member))
    case ShareFolder =>
      var folder, role := TextField(p, "shared_folder_uid_ref"), TextField(p, "kind");
      var member := if role == "grantee" then Identifier(GranteeOf(env, p))
                    else if role == "record" then TextField(p, "record_uid_ref")
                    else if role == "default" then "default" else "";
      if folder == "" || role == "" || member == "" then None else Some(ShareKey(b, folder, role, member))
  }

  function ShareTitle(k: ShareKey): string {
    match k.block
    case RecordShare => k.container + ":" + k.member
    case ShareFolder => k.container + ":" + k.role + ":" + k.member
  }

  function Compared(b: Block): set<string> {
    match b
    case RecordShare => {"can_edit", "can_share", "expires_at"}
    case ShareFolder => {"target", "manage_records", "manage_users", "can_edit", "can_share", "expires_at"}
  }

  /** `_diff_fields` */
  function Drift(b: Block, live: Dict, desired: Dict): set<string> {
    set f | f in Compared(b) && Get(live, f) != Get(desired, f)
  }

  /** `_change_payload` */
  function Picked(p: Dict, fields: set<string>): Dict {
    map f | f in fields :: Get(p, f)
  }

  // ----------------------------------------------------------------- the two sides

  /** A row of the manifest, projected. */
  datatype Share = Share(block: Block, uidRef: string, key: Option<ShareKey>, payload: Dict)

  function ShareOf(env: Env, b: Block, row: Dict): Share {
    var p := Project(env, b, row);
    Share(b, TextField(p, "uid_ref"), KeyOf(env, b, p), p)
  }

  /** `_LiveRecordShare`, `_LiveShareFolder` */
  datatype LiveShare = LiveShare(keeperUid: string, uidRef: string, key: Option<ShareKey>, payload: Dict, marker: Option<Marker>)

  function LiveShareOf(env: Env, b: Block, r: LiveRecord): LiveShare {
    var p := Project(env, b, r.payload);
    var own := TextField(p, "uid_ref");
    LiveShare(r.keeperUid, if own != "" then own else if r.marker.Some? then OrEmpty(r.marker.value.uidRef) else "",
              KeyOf(env, b, p), p, r.marker)
  }

  const SHARE_KEY: LiveShare -> Option<ShareKey> := (r: LiveShare) => r.key

  /** The first live row with the key ... */
  function FirstWithKey(live: seq<LiveShare>, k: ShareKey): (i: nat)
    ensures i <= |live|
    ensures i < |live| ==> live[i].key == Some(k)
    ensures forall j | 0 <= j < i :: live[j].key != Some(k)
  {
    Position(live, SHARE_KEY, Some(k))
  }

  /** ... and the first with the uid_ref. */
  function FirstWithRef(live: seq<LiveShare>, u: string): (i: nat)
    ensures i <= |live|
    ensures i < |live| ==> live[i].uidRef == u != ""
    ensures u != "" ==> forall j | 0 <= j < i :: live[j].uidRef != u
  {
    if live == [] || (u != "" && live[0].uidRef == u) then 0 else 1 + FirstWithRef(live[1..], u)
  }

  // ---------------------------------------------------------------------------- the rows

  /** The names and flags of a diff; `marker` stands for the marker a desired row is given. */
  datatype ShareSettings = ShareSettings(name: string, allowDelete: bool, marker: Share -> Json)

  /** `_check_marker_supported` does not raise. */
  predicate Supported(m: Option<Marker>) {
    m.Some? && m.value.manager == Some(MANAGER) && m.value.version.Some? ==> m.value.version.value == MARKER_VERSION
  }

  /** `_managed_by_manifest` */
  predicate Managed(m: Option<Marker>, name: string) {
    m.Some? && m.value.manager == Some(MANAGER) && (OrEmpty(m.value.manifest) == "" || OrEmpty(m.value.manifest) == name)
  }

  function RowBase(b: Block, uidRef: string, title: string, kind: Kind): Change {
    Change(kind, Ref(uidRef), ResourceOf(b), title, None, map[], map[])
  }

  /** The desired payload with its marker. */
  function Marked(st: ShareSettings, o: Share): Dict {
    o.payload["marker" := st.marker(o)]
  }

  datatype Hit = ByKey(i: nat) | ByRef(i: nat) | Missed

  /** What a desired row finds: a record share whose key is gone may still be found by its
      uid_ref. */
  function HitOf(live: seq<LiveShare>, o: Share): (h: Hit)
    requires o.key.Some?
    ensures h.ByKey? ==> h.i < |live| && live[h.i].key == o.key
    ensures h.ByRef? ==> h.i < |live|
    ensures !h.ByKey? ==> forall j | 0 <= j < |live| :: live[j].key != o.key
  {
    var i := FirstWithKey(live, o.key.value);
    if i < |live| then ByKey(i)
    else
      var j := FirstWithRef(live, o.uidRef);
      if o.block == RecordShare && j < |live| then ByRef(j) else Missed
  }

  function DesiredRow(st: ShareSettings, live: seq<LiveShare>, o: Share): seq<Change>
    requires o.key.Some?
  {
    var title := ShareTitle(o.key.value);
    match HitOf(live, o)
    case Missed => [RowBase(o.block, o.uidRef, title, Create).(after := Marked(st, o))]
    case ByRef(i) =>
      [RowBase(o.block, o.uidRef, title, Conflict).(
         keeperUid := Some(live[i].keeperUid), before := live[i].payload, after := Marked(st, o))]
    case ByKey(i) =>
      var p := live[i].payload;
      var drift := Drift(o.block, p, o.payload);
      if !Managed(live[i].marker, st.name) then
        [RowBase(o.block, o.uidRef, title, Skip).(keeperUid := Some(live[i].keeperUid), before := p)]
      else if drift != {} then
        [RowBase(o.block, o.uidRef, title, Update).(
           keeperUid := Some(live[i].keeperUid), before := Picked(p, drift), after := Picked(o.payload, drift))]
      else []
  }

  function ShareRows(st: ShareSettings, live: seq<LiveShare>, ds: seq<Share>): seq<Change>
    requires forall o | o in ds :: o.key.Some?
  {
    if ds == [] then []
    else ShareRows(st, live, ds[..|ds| - 1]) + DesiredRow(st, live, ds[|ds| - 1])
  }

  function MatchedShares(live: seq<LiveShare>, ds: seq<Share>): set<nat>
    requires forall o | o in ds :: o.key.Some?
  {
    if ds == [] then {}
    else
      var h := HitOf(live, ds[|ds| - 1]);
      MatchedShares(live, ds[..|ds| - 1]) + if h.Missed? then {} else {h.i}
  }

  function OrphanShare(b: Block, st: ShareSettings, r: LiveShare): Change
    requires r.key.Some?
  {
    var p, own := r.payload, r.uidRef;
    var kind := if !Managed(r.marker, st.name) then Skip else if st.allowDelete then Delete
                else if b == ShareFolder && TextField(p, "kind") == "record" then Conflict else Skip;
    RowBase(b, if own != "" then own else r.key.value.member, ShareTitle(r.key.value), kind).(
      keeperUid := Some(r.keeperUid), before := p)
  }

  /** The unmatched live rows. */
  function Unmatched(live: seq<LiveShare>, matched: set<nat>): seq<LiveShare> {
    if live == [] then []
    else
      var n := |live| - 1;
      Unmatched(live[..n], matched) + if n in matched then [] else [live[n]]
  }

  function OrphanShares(b: Block, st: ShareSettings, rest: seq<LiveShare>): seq<Change>
    requires forall r | r in rest :: r.key.Some?
  {
    seq(|rest|, i requires 0 <= i < |rest| => assert rest[i] in rest; OrphanShare(b, st, rest[i]))
  }

  lemma {:induction false} UnmatchedAre(live: seq<LiveShare>, matched: set<nat>)
    ensures forall x :: x in Unmatched(live, matched) <==> exists i: nat :: i < |live| && i !in matched && live[i] == x
  {
    if live != [] {
      var n := |live| - 1;
      UnmatchedAre(live[..n], matched);
      forall x ensures x in Unmatched(live, matched) <==> exists i: nat :: i < |live| && i !in matched && live[i] == x {
        if i: nat :| i < |live| && i !in matched && live[i] == x {
          if i < n { assert live[..n][i] == x; }
        }
        if i: nat :| i < n && i !in matched && live[..n][i] == x { assert live[i] == x; }
      }
    }
  }

  // ------------------------------------------------------------------------- one block

  /** No two manifest rows share a uid_ref or a key, and every row has a key. */
  ghost predicate Indexable(ds: seq<Share>) {
    && (forall o | o in ds :: o.key.Some?)
    && forall i, j | 0 <= i < j < |ds| :: ds[i].uidRef != ds[j].uidRef && ds[i].key != ds[j].key
  }

  /** Some marker that the diff looks at is of an unsupported version: that of a row found by
      key, or of an unmatched row. */
  ghost predicate Unreadable(live: seq<LiveShare>, ds: seq<Share>)
    requires forall o | o in ds :: o.key.Some?
  {
    || (exists o :: o in ds && HitOf(live, o).ByKey? && !Supported(live[HitOf(live, o).i].marker))
    || exists i: nat :: i < |live| && i !in MatchedShares(live, ds) && !Supported(live[i].marker)
  }

  datatype BlockRows = BlockRows(rows: seq<Change>) | Raised

  /** `_compute_record_shares_changes`, `_compute_share_folders_changes` */
  ghost function BlockDiff(b: Block, st: ShareSettings, ds: seq<Share>, live: seq<LiveShare>): BlockRows {
    if !Indexable(ds) || (exists r :: r in live && r.key.None?) || Unreadable(live, ds) then Raised
    else
      UnmatchedAre(live, MatchedShares(live, ds));
      BlockRows(ShareRows(st, live, ds) + OrphanShares(b, st, Unmatched(live, MatchedShares(live, ds))))
  }

  // --------------------------------------------------------------------------- the loops

  method IndexManifest(ds: seq<Share>) returns (ok: bool)
    ensures ok <==> Indexable(ds)
  {
    var refs: set<string>, keys: set<ShareKey> := {}, {};
    for i := 0 to |ds|
      invariant Indexable(ds[..i])
      invariant forall u :: u in refs <==> exists j :: 0 <= j < i && ds[j].uidRef == u
      invariant forall k :: k in keys <==> exists j :: 0 <= j < i && ds[j].key == Some(k)
    {
      var key := ds[i].key;
      if key.None? || ds[i].uidRef in refs || key.value in keys {
        assert ds[i] in ds;
        return false;
      }
      assert ds[..i + 1] == ds[..i] + [ds[i]];
      refs := refs + {ds[i].uidRef};
      keys := keys + {key.value};
    }
    assert ds[..|ds|] == ds;
    return true;
  }

  ghost predicate IndexesKeys(live: seq<LiveShare>, n: nat, byKey: map<ShareKey, nat>)
    requires n <= |live|
  {
    forall k :: if k in byKey then byKey[k] == FirstWithKey(live, k) < n else FirstWithKey(live, k) >= n
  }

  ghost predicate IndexesRefs(live: seq<LiveShare>, n: nat, byRef: map<string, nat>)
    requires n <= |live|
  {
    forall u :: if u in byRef then byRef[u] == FirstWithRef(live, u) < n else FirstWithRef(live, u) >= n
  }

  /** `if key not in index: index[key] = i` */
  function KeepFirst<K>(index: map<K, nat>, k: K, i: nat): map<K, nat> {
    if k in index then index else index[k := i]
  }

  lemma KeysGrow(live: seq<LiveShare>, i: nat, byKey: map<ShareKey, nat>)
    requires i < |live| && IndexesKeys(live, i, byKey) && live[i].key.Some?
    ensures IndexesKeys(live, i + 1, KeepFirst(byKey, live[i].key.value, i))
  {
    var key := live[i].key.value;
    forall k ensures FirstWithKey(live, k) == i ==> k == key {}
    assert FirstWithKey(live, key) <= i;
  }

  lemma RefsGrow(live: seq<LiveShare>, i: nat, byRef: map<string, nat>)
    requires i < |live| && IndexesRefs(live, i, byRef)
    ensures var u := live[i].uidRef;
            IndexesRefs(live, i + 1, if u == "" then byRef else KeepFirst(byRef, u, i))
  {
    var u := live[i].uidRef;
    forall v ensures FirstWithRef(live, v) == i ==> v == u != "" {}
    if u != "" { assert FirstWithRef(live, u) <= i; }
  }

  /** The indexing loop: the first row with a key or uid_ref wins. */
  method IndexLive(live: seq<LiveShare>) returns (ok: bool, byKey: map<ShareKey, nat>, byRef: map<string, nat>)
    ensures ok <==> forall r | r in live :: r.key.Some?
    ensures ok ==> IndexesKeys(live, |live|, byKey) && IndexesRefs(live, |live|, byRef)
  {
    byKey, byRef := map[], map[];
    for i := 0 to |live|
      invariant forall j | 0 <= j < i :: live[j].key.Some?
      invariant IndexesKeys(live, i, byKey) && IndexesRefs(live, i, byRef)
    {
      var key, u := live[i].key, live[i].uidRef;
      if key.None? {
        assert live[i] in live;
        return false, byKey, byRef;
      }
      KeysGrow(live, i, byKey);
      RefsGrow(live, i, byRef);
      byKey := KeepFirst(byKey, key.value, i);
      if u != "" { byRef := KeepFirst(byRef, u, i); }
    }
    return true, byKey, byRef;
  }

  lemma IndexedHit(live: seq<LiveShare>, o: Share, byKey: map<ShareKey, nat>, byRef: map<string, nat>)
    requires o.key.Some? && IndexesKeys(live, |live|, byKey) && IndexesRefs(live, |live|, byRef)
    ensures HitOf(live, o) == if o.key.value in byKey then ByKey(byKey[o.key.value])
                              else if o.block == RecordShare && o.uidRef in byRef then ByRef(byRef[o.uidRef]) else Missed
  {}

  method ClassifyDesired(b: Block, st: ShareSettings, live: seq<LiveShare>, ds: seq<Share>,
                         byKey: map<ShareKey, nat>, byRef: map<string, nat>)
    returns (rows: seq<Change>, matched: set<nat>, readable: bool)
    requires forall o | o in ds :: o.key.Some? && o.block == b
    requires IndexesKeys(live, |live|, byKey) && IndexesRefs(live, |live|, byRef)
    ensures readable <==> forall o | o in ds && HitOf(live, o).ByKey? :: Supported(live[HitOf(live, o).i].marker)
    ensures readable ==> rows == ShareRows(st, live, ds) && matched == MatchedShares(live, ds)
  {
    hide DesiredRow, Supported, HitOf, IndexesKeys, IndexesRefs;
    rows, matched := [], {};
    for i := 0 to |ds|
      invariant rows == ShareRows(st, live, ds[..i]) && matched == MatchedShares(live, ds[..i])
      invariant forall o | o in ds[..i] && HitOf(live, o).ByKey? :: Supported(live[HitOf(live, o).i].marker)
    {
      assert ds[..i + 1] == ds[..i] + [ds[i]] && ds[..i + 1][..i] == ds[..i];
      var o := ds[i];
      assert o in ds;
      var key := o.key.value;
      var hit := if key in byKey then ByKey(byKey[key])
                 else if b == RecordShare && o.uidRef in byRef then ByRef(byRef[o.uidRef]) else Missed;
      IndexedHit(live, o, byKey, byRef);
      if hit.ByKey? && !Supported(live[hit.i].marker) { return rows, matched, false; }
      rows := rows + DesiredRow(st, live, o);
      if !hit.Missed? { matched := matched + {hit.i}; }
    }
    assert ds[..|ds|] == ds;
    return rows, matched, true;
  }

  /** The unmatched among the first `n` rows carry supported markers. */
  ghost predicate Readable(live: seq<LiveShare>, matched: set<nat>, n: nat)
    requires n <= |live|
  {
    n == 0 || (Readable(live, matched, n - 1) && (n - 1 in matched || Supported(live[n - 1].marker)))
  }

  lemma {:induction false} ReadableIff(live: seq<LiveShare>, matched: set<nat>, n: nat)
    requires n <= |live|
    ensures Readable(live, matched, n) <==> forall i: nat | i < n && i !in matched :: Supported(live[i].marker)
  {
    if n > 0 { ReadableIff(live, matched, n - 1); }
  }

  method ClassifyOrphans(b: Block, st: ShareSettings, live: seq<LiveShare>, matched: set<nat>)
    returns (rows: seq<Change>, readable: bool)
    requires forall r | r in live :: r.key.Some?
    ensures forall r | r in Unmatched(live, matched) :: r.key.Some?
    ensures readable <==> Readable(live, matched, |live|)
    ensures readable ==> rows == OrphanShares(b, st, Unmatched(live, matched))
  {
    rows, readable := [], true;
    for i := 0 to |live|
      invariant forall r | r in Unmatched(live[..i], matched) :: r.key.Some?
      invariant readable <==> Readable(live, matched, i)
      invariant readable ==> rows == OrphanShares(b, st, Unmatched(live[..i], matched))
    {
      assert live[..i + 1][..i] == live[..i];
      assert live[i] in live;
      if readable && i !in matched {
        readable := Supported(live[i].marker);
        rows := rows + [OrphanShare(b, st, live[i])];
      }
    }
    assert live[..|live|] == live;
  }

  method ComputeBlock(b: Block, st: ShareSettings, ds: seq<Share>, live: seq<LiveShare>)
    returns (out: BlockRows)
    requires forall o | o in ds :: o.block == b
    ensures out == BlockDiff(b, st, ds, live)
  {
    var ok := IndexManifest(ds);
    if !ok { return Raised; }
    var keyed, byKey, byRef := IndexLive(live);
    if !keyed { return Raised; }
    var rows, matched, readable := ClassifyDesired(b, st, live, ds, byKey, byRef);
    if !readable { return Raised; }
    var orphans, readable' := ClassifyOrphans(b, st, live, matched);
    ReadableIff(live, matched, |live|);
    if !readable' { return Raised; }
    return BlockRows(rows + orphans);
  }
}
