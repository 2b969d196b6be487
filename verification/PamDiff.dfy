/** Records, markers and the manifest-against-live diff of the PAM core
    (keeper_sdk/core/diff.py, interfaces.py, metadata.py). */
module PamDiff {
  import opened Json
  import opened Overlay
  import opened Plans

  const MANAGER := "keeper-pam-declarative"
  const MARKER_VERSION := "1"
  const MARKER_LABEL := "keeper_declarative_manager"

  /** The keys of an ownership marker that the core reads; `lastApplied` is a timestamp. */
  datatype Marker = Marker(
    manager: Option<string>, version: Option<string>, uidRef: Option<string>,
    manifest: Option<string>, resourceType: Option<string>, lastApplied: string)

  /** `marker` is `None` for a missing or an empty marker dict. */
  datatype LiveRecord = LiveRecord(
    keeperUid: string, title: string, resourceType: string, payload: Dict, marker: Option<Marker>)

  datatype Manifest = Manifest(
    name: string, gateways: seq<Dict>, configurations: seq<Dict>, resources: seq<Dict>,
    users: seq<Dict>, projects: seq<Dict>, sharedFolders: Dict)

  datatype Desired = Desired(uidRef: string, resourceType: string, title: string, payload: Dict)

  /** Text conversions of the host language. */
  datatype Text = Text(str: Json -> string, strip: string -> string, lower: string -> string,
                       slug: string -> string, dumps: Json -> string)

  // ------------------------------------------------------------- the desired objects

  function DictItems(v: Json): seq<Dict> {
    if v.JList? then Dicts(v.items) else []
  }

  function RecordRows(ds: seq<Dict>): seq<Desired> {
    seq(|ds|, i requires 0 <= i < |ds| =>
      Desired(TextField(ds[i], "uid_ref"), TextField(ds[i], "type"), TextField(ds[i], "title"), ds[i]))
  }

  function GatewayRows(ds: seq<Dict>): seq<Desired> {
    if ds == [] then []
    else
      (if TextField(ds[0], "mode") == "create"
       then [Desired(TextField(ds[0], "uid_ref"), "gateway", TextField(ds[0], "name"), ds[0])] else [])
      + GatewayRows(ds[1..])
  }

  function ConfigurationRows(ds: seq<Dict>): seq<Desired> {
    seq(|ds|, i requires 0 <= i < |ds| =>
      var title := TextField(ds[i], "title");
      Desired(TextField(ds[i], "uid_ref"), "pam_configuration",
              if title == "" then TextField(ds[i], "uid_ref") else title, ds[i]))
  }

  function ResourceRows(ds: seq<Dict>): seq<Desired> {
    if ds == [] then []
    else RecordRows([ds[0]]) + RecordRows(DictItems(Get(ds[0], "users"))) + ResourceRows(ds[1..])
  }

  /** `_desired_objects` */
  function DesiredObjects(m: Manifest): seq<Desired> {
    GatewayRows(m.gateways) + ConfigurationRows(m.configurations) + ResourceRows(m.resources) + RecordRows(m.users)
  }

  // --------------------------------------------------------------- field comparisons

  const IGNORED: set<string> := {
    "uid_ref", "attachments", "scripts", "custom_fields", "record_uid", "pam_configuration",
    "pam_configuration_uid_ref", "shared_folder", "users", "gateway", "gateway_uid_ref"}

  const ON_WORDS: set<string> := {"true", "1", "yes", "on"}
  const OFF_WORDS: set<string> := {"false", "0", "no", "off"}

  /** `_normalize_rotation_enabled` */
  function RotationEnabled(t: Text, v: Json): Option<string> {
    match v
    case JNull => None
    case JBool(b) => Some(if b then "on" else "off")
    case _ =>
      var s := t.lower(t.strip(t.str(v)));
      Some(if s in ON_WORDS then "on" else if s in OFF_WORDS then "off" else s)
  }

  /** `_normalize_rotation_schedule_tuple` */
  function RotationSchedule(t: Text, v: Json): seq<string> {
    match v
    case JNull => [""]
    case JObj(d) =>
      var name := if Get(d, "type") == JNull then "" else t.strip(t.str(Get(d, "type")));
      var slug := t.slug(name);
      if slug == "cron" then
        var cron := if Get(d, "cron") == JNull then Get(d, "expression") else Get(d, "cron");
        ["CRON", t.strip(if Truthy(cron) then t.str(cron) else "")]
      else
        var rest := d - {"type"};
        [if slug == "" then name else slug, if rest == map[] then "" else t.dumps(JObj(rest))]
    case _ => ["raw", t.str(v)]
  }

  datatype Rotation = Rotation(rotation: Json, enabled: Option<string>, schedule: seq<string>, complexity: Option<string>)

  function RotationNorm(t: Text, d: Dict): Rotation {
    var pc := Get(d, "password_complexity");
    Rotation(Get(d, "rotation"), RotationEnabled(t, Get(d, "enabled")), RotationSchedule(t, Get(d, "schedule")),
             if pc == JNull then None else Some(if pc.JObj? || pc.JList? then t.dumps(pc) else t.str(pc)))
  }

  /** `_rotation_settings_equivalent` */
  predicate RotationEquivalent(t: Text, live: Json, desired: Json) {
    live == desired
    || (desired.JObj? && RotationNorm(t, DictOrEmpty(live)) == RotationNorm(t, desired.fields))
  }

  /** `_pam_user_managed_flag_equivalent` compares these. */
  function ManagedFlag(t: Text, v: Json): bool {
    match v
    case JNull => false
    case JBool(b) => b
    case JNum(n) => n != 0
    case _ =>
      var s := t.lower(t.strip(t.str(v)));
      if v == JStr("") || s in {"0", "false", "off", "no", "f", "n"} then false
      else s in {"1", "true", "on", "yes", "t", "y"} || Truthy(v)
  }

  /** `_trust_missing_rotation_settings_readback` */
  predicate TrustMissingRotation(live: Dict, desired: Dict, marker: Option<Marker>, uidRef: string) {
    && Get(desired, "rotation_settings") != JNull
    && "rotation_settings" !in live
    && uidRef != ""
    && marker.Some?
    && marker.value.manager == Some(MANAGER)
    && marker.value.uidRef == Some(uidRef)
    && (marker.value.resourceType == None || marker.value.resourceType == Some("pamUser"))
  }

  /** Whether the desired key `k` counts as drift for a resource of this type
      (`_field_diff` and its per-type variants). */
  predicate Differs(t: Text, resourceType: string, k: string, live: Dict, desired: Dict, marker: Option<Marker>, uidRef: string)
    requires k in desired
  {
    var got, want := Get(live, k), desired[k];
    if resourceType == "pamRemoteBrowser" && k == "pam_settings" then !BrowserSettingsEquivalent(got, want)
    else if resourceType in {"pamMachine", "pamDatabase", "pamDirectory"} && k == "pam_settings" then
      !ResourceSettingsEquivalent(got, want)
    else if resourceType == "pamUser" && k == "rotation_settings" then
      !TrustMissingRotation(live, desired, marker, uidRef) && !RotationEquivalent(t, got, want)
    else if resourceType == "pamUser" && k == "managed" then ManagedFlag(t, got) != ManagedFlag(t, want)
    else if resourceType == "pamUser" && k == "rotation_scripts" then false
    else if resourceType == "pam_configuration" && k == "options" && want.JObj? then
      !Matches(DictOrEmpty(got), want.fields)
    else got != want
  }

  function ChangedFields(t: Text, d: Desired, live: LiveRecord): set<string> {
    set k | k in d.payload && k !in IGNORED
            && Differs(t, d.resourceType, k, live.payload, d.payload, live.marker, d.uidRef)
  }

  // ------------------------------------------------------------------- live indexing

  /** The marker's `uid_ref`, when it is there and not empty. */
  function UidOf(r: LiveRecord): Option<string> {
    if r.marker.Some? && r.marker.value.uidRef.Some? && r.marker.value.uidRef.value != ""
    then r.marker.value.uidRef else None
  }

  type TitleKey = (string, string)

  function TitleOf(r: LiveRecord): TitleKey {
    (r.resourceType, r.title)
  }

  /** `_index_live`: later records overwrite earlier ones. */
  function ByUid(live: seq<LiveRecord>): map<string, LiveRecord> {
    if live == [] then map[]
    else
      var last := live[|live| - 1];
      var m := ByUid(live[..|live| - 1]);
      if UidOf(last).Some? then m[UidOf(last).value := last] else m
  }

  function ByTitle(live: seq<LiveRecord>): map<TitleKey, LiveRecord> {
    if live == [] then map[]
    else
      var last := live[|live| - 1];
      ByTitle(live[..|live| - 1])[TitleOf(last) := last]
  }

  /** What `_raise_live_record_collisions` lets pass: no marker uid_ref twice, and no
      title twice unless all its records carry one. */
  ghost predicate NoCollision(live: seq<LiveRecord>) {
    UidsDistinct(live) && RepeatedTitlesMarked(live)
  }

  ghost predicate UidsDistinct(live: seq<LiveRecord>) {
    forall i, j | 0 <= i < j < |live| && UidOf(live[i]).Some? :: UidOf(live[i]) != UidOf(live[j])
  }

  ghost predicate RepeatedTitlesMarked(live: seq<LiveRecord>) {
    forall i, j | 0 <= i < j < |live| && TitleOf(live[i]) == TitleOf(live[j]) ::
      UidOf(live[i]).Some? && UidOf(live[j]).Some?
  }

  /** Two records the diff refuses to tell apart. */
  predicate Clashes(a: LiveRecord, b: LiveRecord) {
    (UidOf(a).Some? && UidOf(a) == UidOf(b))
    || (TitleOf(a) == TitleOf(b) && (UidOf(a).None? || UidOf(b).None?))
  }

  /** `by_uid_ref.get(uid_ref) or by_title.get((resource_type, title))` */
  function Match(live: seq<LiveRecord>, d: Desired): Option<LiveRecord> {
    if d.uidRef in ByUid(live) then Some(ByUid(live)[d.uidRef])
    else if (d.resourceType, d.title) in ByTitle(live) then Some(ByTitle(live)[(d.resourceType, d.title)])
    else None
  }

  // ------------------------------------------------------------------ classification

  datatype Verdict = Row(change: Change) | Unsupported

  predicate Foreign(r: LiveRecord) {
    r.marker.Some? && r.marker.value.manager.Some? && r.marker.value.manager.value != ""
    && r.marker.value.manager.value != MANAGER
  }

  /** `_classify_desired` against the best live match. */
  function Classify(t: Text, d: Desired, live: Option<LiveRecord>, adopt: bool): Verdict {
    var base := Change(Create, Ref(d.uidRef), d.resourceType, d.title, None, map[], map[]);
    match live
    case None => Row(base.(after := d.payload))
    case Some(r) =>
      var hit := base.(keeperUid := Some(r.keeperUid));
      if Foreign(r) then Row(hit.(kind := Conflict))
      else if r.marker.Some? && r.marker.value.version.Some? && r.marker.value.version.value != MARKER_VERSION
      then Unsupported
      else if r.marker.None? then
        Row(if adopt then hit.(kind := Update, before := r.payload, after := d.payload)
            else hit.(kind := Conflict))
      else
        var fields := ChangedFields(t, d, r);
        Row(if fields == {} then hit.(kind := Noop)
            else hit.(kind := Update, before := map k | k in fields :: Get(r.payload, k),
                                      after := map k | k in fields :: Get(d.payload, k)))
  }

  function RowFor(t: Text, live: seq<LiveRecord>, d: Desired, adopt: bool): Verdict {
    Classify(t, d, Match(live, d), adopt)
  }

  function DesiredRows(t: Text, live: seq<LiveRecord>, ds: seq<Desired>, adopt: bool): seq<Change>
    requires forall d | d in ds :: RowFor(t, live, d, adopt).Row?
  {
    seq(|ds|, i requires 0 <= i < |ds| => RowFor(t, live, ds[i], adopt).change)
  }

  /** Keeper uids of the records the desired rows keep. */
  function Matched(rows: seq<Change>): set<string> {
    set c | c in rows && c.kind in {Update, Noop} && c.keeperUid.Some? :: c.keeperUid.value
  }

  lemma MatchedSnoc(rows: seq<Change>, c: Change)
    ensures Matched(rows + [c])
         == Matched(rows) + if c.kind in {Update, Noop} && c.keeperUid.Some? then {c.keeperUid.value} else {}
  {
    var all := rows + [c];
    assert c == all[|rows|];
    forall x | x in rows ensures x in all {}
  }

  /** NOOP rows noting that script attachments cannot be read back. */
  function ScriptWarnings(users: seq<Dict>): seq<Change> {
    if users == [] then []
    else
      var u := users[0];
      (if TextField(u, "type") == "pamUser" && Truthy(Get(u, "rotation_scripts"))
       then [Change(Noop, Ref(TextField(u, "uid_ref")), "pamUser", TextField(u, "title"), None, map[], map[])]
       else []) + ScriptWarnings(users[1..])
  }

  function NestedUsers(resources: seq<Dict>): seq<Dict> {
    if resources == [] then [] else DictItems(Get(resources[0], "users")) + NestedUsers(resources[1..])
  }

  predicate Orphan(r: LiveRecord, matched: set<string>, manifestName: string) {
    && r.keeperUid !in matched
    && r.marker.Some? && r.marker.value.manager == Some(MANAGER)
    && (OrEmpty(r.marker.value.manifest) == "" || manifestName == "" || r.marker.value.manifest == Some(manifestName))
  }

  function OrphanRow(r: LiveRecord, allowDelete: bool): Change
    requires r.marker.Some?
  {
    Change(if allowDelete then Delete else Conflict, r.marker.value.uidRef, r.resourceType, r.title,
           Some(r.keeperUid), if allowDelete then r.payload else map[], map[])
  }

  /** `_classify_orphans` */
  function Orphans(live: seq<LiveRecord>, matched: set<string>, manifestName: string, allowDelete: bool): seq<Change> {
    if live == [] then []
    else
      (if Orphan(live[0], matched, manifestName) then [OrphanRow(live[0], allowDelete)] else [])
      + Orphans(live[1..], matched, manifestName, allowDelete)
  }

  datatype Settings = Settings(manifestName: string, allowDelete: bool, adopt: bool, scriptReadback: bool)

  datatype Diff = Changes(rows: seq<Change>) | Collision | UnsupportedMarker

  /** `compute_diff` */
  ghost function ComputeDiff(t: Text, m: Manifest, live: seq<LiveRecord>, s: Settings): Diff {
    var ds := DesiredObjects(m);
    if !NoCollision(live) then Collision
    else if exists d | d in ds :: RowFor(t, live, d, s.adopt).Unsupported? then UnsupportedMarker
    else
      var rows := DesiredRows(t, live, ds, s.adopt);
      var name := if s.manifestName == "" then m.name else s.manifestName;
      Changes(rows + (if s.scriptReadback then [] else ScriptWarnings(NestedUsers(m.resources)))
              + Orphans(live, Matched(rows), name, s.allowDelete))
  }

  // ------------------------------------------------------------------------ the loops

  method IndexLive(live: seq<LiveRecord>) returns (byUid: map<string, LiveRecord>, byTitle: map<TitleKey, LiveRecord>)
    ensures byUid == ByUid(live) && byTitle == ByTitle(live)
  {
    byUid, byTitle := map[], map[];
    for i := 0 to |live|
      invariant byUid == ByUid(live[..i]) && byTitle == ByTitle(live[..i])
    {
      assert live[..i + 1][..i] == live[..i];
      if UidOf(live[i]).Some? {
        byUid := byUid[UidOf(live[i]).value := live[i]];
      }
      byTitle := byTitle[TitleOf(live[i]) := live[i]];
    }
    assert live[..|live|] == live;
  }

  method FindRepeatedUid(live: seq<LiveRecord>) returns (ok: bool)
    ensures ok <==> UidsDistinct(live)
  {
    var matches: map<string, seq<LiveRecord>> := map[];
    for j := 0 to |live|
      invariant forall u :: u in matches <==> exists i :: 0 <= i < j && UidOf(live[i]) == Some(u)
      invariant UidsDistinct(live[..j])
    {
      if UidOf(live[j]).Some? {
        var u := UidOf(live[j]).value;
        if u in matches {
          return false;
        }
        matches := matches[u := [live[j]]];
      }
    }
    assert live[..|live|] == live;
    return true;
  }

  method FindRepeatedTitle(live: seq<LiveRecord>) returns (ok: bool)
    ensures ok <==> RepeatedTitlesMarked(live)
  {
    var matches: map<TitleKey, seq<LiveRecord>> := map[];
    for j := 0 to |live|
      invariant forall t, r | t in matches && r in matches[t] :: r in live[..j] && TitleOf(r) == t
      invariant forall i | 0 <= i < j :: TitleOf(live[i]) in matches && live[i] in matches[TitleOf(live[i])]
      invariant forall t | t in matches :: matches[t] != []
      invariant RepeatedTitlesMarked(live[..j])
    {
      var t := TitleOf(live[j]);
      assert live[..j + 1] == live[..j] + [live[j]];
      if t in matches {
        var group := matches[t] + [live[j]];
        if exists r | r in group :: UidOf(r).None? {
          assert exists i | 0 <= i < j :: TitleOf(live[i]) == t && (UidOf(live[i]).None? || UidOf(live[j]).None?) by {
            var r :| r in group && UidOf(r).None?;
            if r in matches[t] { assert r in live[..j]; } else { assert matches[t][0] in live[..j]; }
          }
          return false;
        }
        matches := matches[t := group];
      } else {
        matches := matches[t := [live[j]]];
      }
    }
    assert live[..|live|] == live;
    return true;
  }

  method RaiseLiveRecordCollisions(live: seq<LiveRecord>) returns (ok: bool)
    ensures ok <==> NoCollision(live)
  {
    ok := FindRepeatedUid(live);
    if ok {
      ok := FindRepeatedTitle(live);
    }
  }

  method ClassifyOrphans(live: seq<LiveRecord>, matched: set<string>, manifestName: string, allowDelete: bool)
    returns (out: seq<Change>)
    ensures out == Orphans(live, matched, manifestName, allowDelete)
  {
    out := [];
    for i := 0 to |live|
      invariant out + Orphans(live[i..], matched, manifestName, allowDelete)
             == Orphans(live, matched, manifestName, allowDelete)
    {
      assert live[i..][1..] == live[i + 1..];
      if Orphan(live[i], matched, manifestName) {
        out := out + [OrphanRow(live[i], allowDelete)];
      }
    }
    assert live[|live|..] == [] && out + [] == out;
  }

  lemma ClassifiedUid(t: Text, d: Desired, hit: Option<LiveRecord>, adopt: bool)
    ensures var v := Classify(t, d, hit, adopt);
            v.Row? && v.change.kind in {Update, Noop} ==> hit.Some? && v.change.keeperUid == Some(hit.value.keeperUid)
  {
    hide ChangedFields;
  }

  /** The matching loop; `None` when a record's marker version is not supported. */
  method ClassifyAll(t: Text, live: seq<LiveRecord>, ds: seq<Desired>, adopt: bool)
    returns (out: Option<seq<Change>>, matched: set<string>)
    ensures out.None? <==> exists d | d in ds :: RowFor(t, live, d, adopt).Unsupported?
    ensures out.Some? ==> out.value == DesiredRows(t, live, ds, adopt) && matched == Matched(out.value)
  {
    hide Classify;
    var byUid, byTitle := IndexLive(live);
    var rows: seq<Change> := [];
    matched := {};
    for i := 0 to |ds|
      invariant |rows| == i
      invariant forall k | 0 <= k < i :: RowFor(t, live, ds[k], adopt) == Row(rows[k])
      invariant matched == Matched(rows)
    {
      var d := ds[i];
      var hit := if d.uidRef in byUid then Some(byUid[d.uidRef])
                 else if (d.resourceType, d.title) in byTitle then Some(byTitle[(d.resourceType, d.title)])
                 else None;
      assert hit == Match(live, d);
      var verdict := Classify(t, d, hit, adopt);
      if verdict.Unsupported? {
        assert d in ds && RowFor(t, live, d, adopt).Unsupported?;
        return None, matched;
      }
      ClassifiedUid(t, d, hit, adopt);
      MatchedSnoc(rows, verdict.change);
      if verdict.change.kind in {Update, Noop} && hit.Some? {
        matched := matched + {hit.value.keeperUid};
      }
      rows := rows + [verdict.change];
    }
    return Some(rows), matched;
  }

  method ComputeDiffLoop(t: Text, m: Manifest, live: seq<LiveRecord>, s: Settings) returns (diff: Diff)
    ensures diff == ComputeDiff(t, m, live, s)
  {
    var ok := RaiseLiveRecordCollisions(live);
    if !ok { return Collision; }
    var rows, matched := ClassifyAll(t, live, DesiredObjects(m), s.adopt);
    if rows.None? { return UnsupportedMarker; }
    var warnings := if s.scriptReadback then [] else ScriptWarnings(NestedUsers(m.resources));
    var orphans := ClassifyOrphans(live, matched, if s.manifestName == "" then m.name else s.manifestName, s.allowDelete);
    return Changes(rows.value + warnings + orphans);
  }
}
