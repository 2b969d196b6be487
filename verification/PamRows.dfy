/** What the rows of a PAM diff mean (keeper_sdk/core/diff.py), said of the manifest and
    the live records alone: which record stands for an object, which fields disagree,
    and what becomes of everything else. */
module PamRows {
  import opened Json
  import opened Overlay
  import opened Plans
  import opened PamDiff

  // -------------------------------------------------------------- fields that disagree

  /** Placement and references are compared by nothing but the graph. */
  predicate Compared(k: string) {
    k !in {"uid_ref", "attachments", "scripts", "custom_fields", "record_uid", "pam_configuration",
           "pam_configuration_uid_ref", "shared_folder", "users", "gateway", "gateway_uid_ref"}
  }

  /** The fields with a comparison of their own; all others are compared by equality. */
  datatype Special = OfMachine | OfBrowser | OfRotation | OfManaged | OfScripts | OfOptions | Plain

  function SpecialOf(resourceType: string, k: string): Special {
    match (resourceType, k)
    case ("pamMachine", "pam_settings") => OfMachine
    case ("pamDatabase", "pam_settings") => OfMachine
    case ("pamDirectory", "pam_settings") => OfMachine
    case ("pamRemoteBrowser", "pam_settings") => OfBrowser
    case ("pamUser", "rotation_settings") => OfRotation
    case ("pamUser", "managed") => OfManaged
    case ("pamUser", "rotation_scripts") => OfScripts
    case ("pam_configuration", "options") => OfOptions
    case _ => Plain
  }

  /** Writing what the manifest owns of `want` over `got` would be idle. */
  ghost predicate Overlaid(got: Dict, want: Json) {
    want.JObj? ==> DeepMerge(got, Owned(want.fields)) == got
  }

  ghost predicate MachineAgrees(got: Json, want: Json) {
    if !want.JObj? then got == want
    else
      var live := DictOrEmpty(got);
      && (forall section | section in {"options", "connection", "port_forward"} ::
            Overlaid(DictOrEmpty(Get(live, section)), Get(want.fields, section)))
      && Get(want.fields, "allow_supply_host") in {JNull, Get(live, "allow_supply_host")}
  }

  ghost predicate BrowserAgrees(got: Json, want: Json) {
    if !want.JObj? then got == want
    else
      forall section, f | section in {"options", "connection"} ::
        Get(DictOrEmpty(Get(want.fields, section)), f)
          in {JNull, Get(DictOrEmpty(Get(DictOrEmpty(got), section)), f)}
  }

  /** Words are compared stripped and in lower case. */
  function Word(t: Text, v: Json): string {
    t.lower(t.strip(t.str(v)))
  }

  predicate Worded(v: Json) {
    v != JNull && !v.JBool?
  }

  predicate On(t: Text, v: Json) {
    v == JBool(true) || (Worded(v) && Word(t, v) in {"true", "1", "yes", "on"})
  }

  predicate Off(t: Text, v: Json) {
    v == JBool(false) || (Worded(v) && Word(t, v) in {"false", "0", "no", "off"})
  }

  predicate SwitchesAgree(t: Text, a: Json, b: Json) {
    || (a == JNull && b == JNull) || (On(t, a) && On(t, b)) || (Off(t, a) && Off(t, b))
    || (Worded(a) && Worded(b) && Word(t, a) == Word(t, b))
  }

  function KindName(t: Text, d: Dict): string {
    if Get(d, "type") == JNull then "" else t.strip(t.str(d["type"]))
  }

  predicate Cron(t: Text, v: Json) {
    v.JObj? && t.slug(KindName(t, v.fields)) == "cron"
  }

  /** The expression of a cron schedule, under either of its names. */
  function CronText(t: Text, d: Dict): string {
    var v := if Get(d, "cron") != JNull then d["cron"] else Get(d, "expression");
    t.strip(if Truthy(v) then t.str(v) else "")
  }

  /** What identifies another schedule: its kind, and everything else it says. */
  function Other(t: Text, d: Dict): (string, string) {
    var name, said := KindName(t, d), map k | k in d && k != "type" :: d[k];
    (if t.slug(name) != "" then t.slug(name) else name, if said == map[] then "" else t.dumps(JObj(said)))
  }

  predicate SchedulesAgree(t: Text, a: Json, b: Json) {
    if a == JNull || b == JNull then a == b
    else if Cron(t, a) && Cron(t, b) then CronText(t, a.fields) == CronText(t, b.fields)
    else if !a.JObj? && !b.JObj? then t.str(a) == t.str(b)
    else if !a.JObj? then !Cron(t, b) && Other(t, b.fields) == ("raw", t.str(a))
    else if !b.JObj? then !Cron(t, a) && Other(t, a.fields) == ("raw", t.str(b))
    else if Cron(t, a) then Other(t, b.fields) == ("CRON", CronText(t, a.fields))
    else if Cron(t, b) then Other(t, a.fields) == ("CRON", CronText(t, b.fields))
    else Other(t, a.fields) == Other(t, b.fields)
  }

  function Printed(t: Text, v: Json): string {
    if v.JObj? || v.JList? then t.dumps(v) else t.str(v)
  }

  predicate ComplexitiesAgree(t: Text, a: Json, b: Json) {
    if a == JNull || b == JNull then a == b else Printed(t, a) == Printed(t, b)
  }

  predicate RotationAgrees(t: Text, got: Json, want: Json) {
    || got == want
    || (want.JObj? && var live := DictOrEmpty(got);
        && Get(live, "rotation") == Get(want.fields, "rotation")
        && SwitchesAgree(t, Get(live, "enabled"), Get(want.fields, "enabled"))
        && SchedulesAgree(t, Get(live, "schedule"), Get(want.fields, "schedule"))
        && ComplexitiesAgree(t, Get(live, "password_complexity"), Get(want.fields, "password_complexity")))
  }

  /** Rotation settings that the readback lacks are believed of a record that carries the
      object's own marker. */
  predicate Believed(d: Desired, r: LiveRecord) {
    && "rotation_settings" !in r.payload && Get(d.payload, "rotation_settings") != JNull
    && d.uidRef != "" && r.marker.Some?
    && r.marker.value.manager == Some("keeper-pam-declarative") && r.marker.value.uidRef == Some(d.uidRef)
    && r.marker.value.resourceType in {None, Some("pamUser")}
  }

  predicate Flagged(t: Text, v: Json) {
    && v !in {JNull, JBool(false), JNum(0), JStr("")}
    && (v.JBool? || v.JNum?
        || (Word(t, v) !in {"0", "false", "off", "no", "f", "n"}
            && (Truthy(v) || Word(t, v) in {"1", "true", "on", "yes", "t", "y"})))
  }

  /** The field `k` of the desired object disagrees with the record. */
  ghost predicate Disagrees(t: Text, d: Desired, r: LiveRecord, k: string)
    requires k in d.payload
  {
    var got, want := Get(r.payload, k), d.payload[k];
    match SpecialOf(d.resourceType, k)
    case OfMachine => !MachineAgrees(got, want)
    case OfBrowser => !BrowserAgrees(got, want)
    case OfRotation => !Believed(d, r) && !RotationAgrees(t, got, want)
    case OfManaged => Flagged(t, got) != Flagged(t, want)
    case OfScripts => false
    case OfOptions => if want.JObj? then !Overlaid(DictOrEmpty(got), want) else got != want
    case Plain => got != want
  }

  lemma MachineVerdict(got: Json, want: Json)
    ensures ResourceSettingsEquivalent(got, want) <==> MachineAgrees(got, want)
  {
    if want.JObj? {
      var live := DictOrEmpty(got);
      SettingsVerdictIsMerge(live, want.fields);
      forall section ensures MergeIsIdle(live, want.fields, section)
                        <==> Overlaid(DictOrEmpty(Get(live, section)), Get(want.fields, section)) {}
    }
  }

  lemma BrowserVerdict(got: Json, want: Json)
    ensures BrowserSettingsEquivalent(got, want) <==> BrowserAgrees(got, want)
  {
    if want.JObj? {
      forall section | section in {"options", "connection"}
        ensures (forall f :: Get(DictOrEmpty(Get(want.fields, section)), f)
                               in {JNull, Get(DictOrEmpty(Get(DictOrEmpty(got), section)), f)})
           <==> (Get(want.fields, section).JObj? ==>
                   var asked := want.fields[section].fields;
                   forall k | k in asked && asked[k] != JNull ::
                     Get(DictOrEmpty(Get(DictOrEmpty(got), section)), k) == asked[k])
      {
        var asked := DictOrEmpty(Get(want.fields, section));
        forall k | k in asked ensures Get(asked, k) == asked[k] {}
      }
    }
  }

  lemma ScheduleVerdict(t: Text, a: Json, b: Json)
    ensures RotationSchedule(t, a) == RotationSchedule(t, b) <==> SchedulesAgree(t, a, b)
  {
    ScheduleIs(t, a);
    ScheduleIs(t, b);
    assert ["raw", t.str(a)][0] != "CRON";
  }

  lemma ScheduleIs(t: Text, v: Json)
    ensures RotationSchedule(t, v)
         == if v == JNull then [""]
            else if Cron(t, v) then ["CRON", CronText(t, v.fields)]
            else if v.JObj? then [Other(t, v.fields).0, Other(t, v.fields).1]
            else ["raw", t.str(v)]
  {
    if v.JObj? {
      var d := v.fields;
      assert d - {"type"} == map k | k in d && k != "type" :: d[k];
    }
  }

  lemma SwitchVerdict(t: Text, a: Json, b: Json)
    ensures RotationEnabled(t, a) == RotationEnabled(t, b) <==> SwitchesAgree(t, a, b)
  {}

  lemma RotationVerdict(t: Text, got: Json, want: Json)
    ensures RotationEquivalent(t, got, want) <==> RotationAgrees(t, got, want)
  {
    hide RotationSchedule, RotationEnabled, SchedulesAgree, SwitchesAgree;
    if want.JObj? {
      var live := DictOrEmpty(got);
      ScheduleVerdict(t, Get(live, "schedule"), Get(want.fields, "schedule"));
      SwitchVerdict(t, Get(live, "enabled"), Get(want.fields, "enabled"));
    }
  }

  lemma FlagVerdict(t: Text, v: Json)
    ensures ManagedFlag(t, v) == Flagged(t, v)
  {}

  lemma OptionsVerdict(got: Json, want: Json)
    requires want.JObj?
    ensures Matches(DictOrEmpty(got), want.fields) <==> Overlaid(DictOrEmpty(got), want)
  {
    MatchesIffMergeIsIdentity(DictOrEmpty(got), want.fields);
  }

  lemma DriftIsDisagreement(t: Text, d: Desired, r: LiveRecord, k: string)
    requires k in d.payload
    ensures Differs(t, d.resourceType, k, r.payload, d.payload, r.marker, d.uidRef) <==> Disagrees(t, d, r, k)
  {
    hide ResourceSettingsEquivalent, BrowserSettingsEquivalent, RotationEquivalent, ManagedFlag, Matches,
         MachineAgrees, BrowserAgrees, RotationAgrees, Flagged, Overlaid;
    var got, want := Get(r.payload, k), d.payload[k];
    MachineVerdict(got, want);
    BrowserVerdict(got, want);
    RotationVerdict(t, got, want);
    FlagVerdict(t, got);
    FlagVerdict(t, want);
    if want.JObj? { OptionsVerdict(got, want); }
  }

  // ------------------------------------------------------------------ the matched record

  predicate Carries(r: LiveRecord, uidRef: string) {
    uidRef != "" && r.marker.Some? && r.marker.value.uidRef == Some(uidRef)
  }

  predicate Titled(r: LiveRecord, d: Desired) {
    r.resourceType == d.resourceType && r.title == d.title
  }

  /** The record at `i` stands for the object: the last with its uid_ref, and the last with
      its type and title only if none has. */
  ghost predicate StandsFor(live: seq<LiveRecord>, d: Desired, i: nat) {
    && i < |live|
    && if Carries(live[i], d.uidRef) then forall j | i < j < |live| :: !Carries(live[j], d.uidRef)
       else (forall r | r in live :: !Carries(r, d.uidRef)) && Titled(live[i], d) && forall j | i < j < |live| :: !Titled(live[j], d)
  }

  lemma {:induction false} ByUidIsLast(live: seq<LiveRecord>, u: string)
    ensures u in ByUid(live) <==> exists r :: r in live && Carries(r, u)
    ensures u in ByUid(live) ==>
              exists i :: 0 <= i < |live| && live[i] == ByUid(live)[u] && Carries(live[i], u) && forall j | i < j < |live| :: !Carries(live[j], u)
  {
    if live != [] {
      var n := |live| - 1;
      ByUidIsLast(live[..n], u);
      assert live == live[..n] + [live[n]];
      if Carries(live[n], u) {
        assert live[n] == ByUid(live)[u];
      } else if u in ByUid(live) {
        var i :| 0 <= i < n && live[..n][i] == ByUid(live[..n])[u] && Carries(live[..n][i], u) && forall j | i < j < n :: !Carries(live[..n][j], u);
        assert live[i] == ByUid(live)[u] && forall j | i < j < |live| :: !Carries(live[j], u);
      }
    }
  }

  lemma {:induction false} ByTitleIsLast(live: seq<LiveRecord>, d: Desired)
    ensures (d.resourceType, d.title) in ByTitle(live) <==> exists r :: r in live && Titled(r, d)
    ensures (d.resourceType, d.title) in ByTitle(live) ==>
              exists i :: 0 <= i < |live| && live[i] == ByTitle(live)[(d.resourceType, d.title)]
                          && Titled(live[i], d) && forall j | i < j < |live| :: !Titled(live[j], d)
  {
    if live != [] {
      var n, key := |live| - 1, (d.resourceType, d.title);
      ByTitleIsLast(live[..n], d);
      assert live == live[..n] + [live[n]];
      if Titled(live[n], d) {
        assert live[n] == ByTitle(live)[key];
      } else if key in ByTitle(live) {
        var i :| 0 <= i < n && live[..n][i] == ByTitle(live[..n])[key] && Titled(live[..n][i], d) && forall j | i < j < n :: !Titled(live[..n][j], d);
        assert live[i] == ByTitle(live)[key] && forall j | i < j < |live| :: !Titled(live[j], d);
      }
    }
  }

  lemma MatchStandsFor(live: seq<LiveRecord>, d: Desired)
    ensures Match(live, d).Some? ==> exists i: nat :: StandsFor(live, d, i) && live[i] == Match(live, d).value
    ensures Match(live, d).None? ==> forall r | r in live :: !Carries(r, d.uidRef) && !Titled(r, d)
  {
    hide ByUid, ByTitle;
    ByUidIsLast(live, d.uidRef);
    ByTitleIsLast(live, d);
    if d.uidRef in ByUid(live) {
      var i :| 0 <= i < |live| && live[i] == ByUid(live)[d.uidRef] && Carries(live[i], d.uidRef) && forall j | i < j < |live| :: !Carries(live[j], d.uidRef);
      assert StandsFor(live, d, i);
    } else if (d.resourceType, d.title) in ByTitle(live) {
      var i :| 0 <= i < |live| && live[i] == ByTitle(live)[(d.resourceType, d.title)] && Titled(live[i], d) && forall j | i < j < |live| :: !Titled(live[j], d);
      assert live[i] in live;
      assert StandsFor(live, d, i);
    }
  }

  // -------------------------------------------------------------------------- the row

  predicate OtherManager(r: LiveRecord) {
    r.marker.Some? && OrEmpty(r.marker.value.manager) !in {"", "keeper-pam-declarative"}
  }

  predicate OtherVersion(r: LiveRecord) {
    r.marker.Some? && r.marker.value.version !in {None, Some("1")}
  }

  /** The row of an object for which the record stands. */
  ghost predicate Judges(t: Text, d: Desired, r: LiveRecord, adopt: bool, c: Change) {
    && c.uidRef == Ref(d.uidRef) && c.resourceType == d.resourceType && c.title == d.title && c.keeperUid == Some(r.keeperUid)
    && if OtherManager(r) || (r.marker.None? && !adopt) then c.kind == Conflict && c.before == map[] == c.after
       else if r.marker.None? then c.kind == Update && c.before == r.payload && c.after == d.payload
       else
         && c.kind == (if exists k :: k in d.payload && Compared(k) && Disagrees(t, d, r, k) then Update else Noop)
         && (forall k :: k in c.after <==> k in d.payload && Compared(k) && Disagrees(t, d, r, k))
         && c.before.Keys == c.after.Keys
         && forall k | k in c.after :: c.before[k] == Get(r.payload, k) && c.after[k] == d.payload[k]
  }

  lemma ChangedAreDisagreeing(t: Text, d: Desired, r: LiveRecord, k: string)
    ensures k in ChangedFields(t, d, r) <==> k in d.payload && Compared(k) && Disagrees(t, d, r, k)
  {
    hide Differs, Disagrees;
    if k in d.payload { DriftIsDisagreement(t, d, r, k); }
  }

  lemma VerdictIsJudgement(t: Text, d: Desired, r: LiveRecord, adopt: bool)
    ensures var v := Classify(t, d, Some(r), adopt);
            && (v.Unsupported? <==> !OtherManager(r) && OtherVersion(r))
            && (v.Row? ==> Judges(t, d, r, adopt, v.change))
  {
    hide ChangedFields, Disagrees, Compared;
    forall k ensures k in ChangedFields(t, d, r) <==> k in d.payload && Compared(k) && Disagrees(t, d, r, k) {
      ChangedAreDisagreeing(t, d, r, k);
    }
    var fields := ChangedFields(t, d, r);
    if k :| k in d.payload && Compared(k) && Disagrees(t, d, r, k) { assert k in fields; }
  }

  /** An update is planned for a record of ours exactly when some compared field disagrees,
      and the row holds exactly those fields, with both their values. */
  lemma UpdatedIffDisagrees(t: Text, d: Desired, r: LiveRecord, adopt: bool)
    requires r.marker.Some? && r.marker.value.manager == Some("keeper-pam-declarative") && !OtherVersion(r)
    ensures var v := Classify(t, d, Some(r), adopt);
            && v.Row? && v.change.kind in {Update, Noop} && v.change.keeperUid == Some(r.keeperUid)
            && (v.change.kind == Update <==> exists k :: k in d.payload && Compared(k) && Disagrees(t, d, r, k))
            && (forall k :: k in v.change.after <==> k in d.payload && Compared(k) && Disagrees(t, d, r, k))
            && v.change.before.Keys == v.change.after.Keys
            && forall k | k in v.change.after :: v.change.before[k] == Get(r.payload, k) && v.change.after[k] == d.payload[k]
  {
    hide Classify, Disagrees, Compared;
    VerdictIsJudgement(t, d, r, adopt);
  }

  // ------------------------------------------------------------------- the whole diff

  /** A user a resource lists. */
  predicate UserOf(r: Dict, u: Dict) {
    Get(r, "users").JList? && JObj(u) in Get(r, "users").items
  }

  lemma UsersAre(r: Dict, u: Dict)
    ensures u in DictItems(Get(r, "users")) <==> UserOf(r, u)
  {
    if Get(r, "users").JList? { DictsAre(Get(r, "users").items, u); }
  }

  function ObjectOf(row: Dict, resourceType: string, title: string): Desired {
    Desired(TextField(row, "uid_ref"), resourceType, title, row)
  }

  function Typed(row: Dict): Desired {
    ObjectOf(row, TextField(row, "type"), TextField(row, "title"))
  }

  /** What a manifest asks for: gateways to create, configurations, resources with their
      users, and users. */
  ghost predicate Asks(m: Manifest, d: Desired) {
    || (exists g :: g in m.gateways && TextField(g, "mode") == "create" && d == ObjectOf(g, "gateway", TextField(g, "name")))
    || (exists c :: c in m.configurations &&
          d == ObjectOf(c, "pam_configuration", if TextField(c, "title") != "" then TextField(c, "title") else TextField(c, "uid_ref")))
    || (exists x :: (x in m.resources || x in m.users) && d == Typed(x))
    || exists r, u :: r in m.resources && UserOf(r, u) && d == Typed(u)
  }

  lemma {:induction false} GatewaysAsked(ds: seq<Dict>, d: Desired)
    ensures d in GatewayRows(ds) <==>
              exists g :: g in ds && TextField(g, "mode") == "create" && d == ObjectOf(g, "gateway", TextField(g, "name"))
  {
    if ds != [] {
      GatewaysAsked(ds[1..], d);
      assert ds == [ds[0]] + ds[1..];
    }
  }

  lemma RecordsAsked(ds: seq<Dict>, d: Desired)
    ensures d in RecordRows(ds) <==> exists x :: x in ds && d == Typed(x)
  {
    var rows := RecordRows(ds);
    if x :| x in ds && d == Typed(x) {
      var i :| 0 <= i < |ds| && ds[i] == x;
      assert rows[i] == d;
    }
    if d in rows {
      var i :| 0 <= i < |rows| && rows[i] == d;
      assert ds[i] in ds && d == Typed(ds[i]);
    }
  }

  lemma ConfigurationsAsked(ds: seq<Dict>, d: Desired)
    ensures d in ConfigurationRows(ds) <==>
              exists c :: c in ds && d == ObjectOf(c, "pam_configuration", if TextField(c, "title") != "" then TextField(c, "title") else TextField(c, "uid_ref"))
  {
    var rows := ConfigurationRows(ds);
    if c :| c in ds && d == ObjectOf(c, "pam_configuration", if TextField(c, "title") != "" then TextField(c, "title") else TextField(c, "uid_ref")) {
      var i :| 0 <= i < |ds| && ds[i] == c;
      assert rows[i] == d;
    }
  }

  lemma {:induction false} ResourcesAsked(rs: seq<Dict>, d: Desired)
    ensures d in ResourceRows(rs) <==>
              (exists x :: x in rs && d == Typed(x)) || exists r, u :: r in rs && UserOf(r, u) && d == Typed(u)
  {
    if rs != [] {
      ResourcesAsked(rs[1..], d);
      RecordsAsked([rs[0]], d);
      RecordsAsked(DictItems(Get(rs[0], "users")), d);
      forall u ensures u in DictItems(Get(rs[0], "users")) <==> UserOf(rs[0], u) { UsersAre(rs[0], u); }
      assert rs == [rs[0]] + rs[1..];
    }
  }

  lemma DesiredAreAsked(m: Manifest, d: Desired)
    ensures d in DesiredObjects(m) <==> Asks(m, d)
  {
    hide GatewayRows, ConfigurationRows, ResourceRows, RecordRows, Typed, ObjectOf, TextField, DictItems;
    GatewaysAsked(m.gateways, d);
    ConfigurationsAsked(m.configurations, d);
    ResourcesAsked(m.resources, d);
    RecordsAsked(m.users, d);
  }

  /** The row of an object: a create when no record has its uid_ref or its type and title,
      else the judgement on the record that stands for it. */
  ghost predicate RowOf(t: Text, live: seq<LiveRecord>, d: Desired, adopt: bool, c: Change) {
    || ((forall r | r in live :: !Carries(r, d.uidRef) && !Titled(r, d))
        && c == Change(Create, Ref(d.uidRef), d.resourceType, d.title, None, map[], d.payload))
    || exists i: nat :: StandsFor(live, d, i) && Judges(t, d, live[i], adopt, c)
  }

  /** The note on a nested user whose scripts cannot be read back. */
  ghost predicate Notes(m: Manifest, s: Settings, c: Change) {
    !s.scriptReadback &&
    exists r, u :: r in m.resources && UserOf(r, u) && TextField(u, "type") == "pamUser"
                   && Truthy(Get(u, "rotation_scripts"))
                   && c == Change(Noop, Ref(TextField(u, "uid_ref")), "pamUser", TextField(u, "title"), None, map[], map[])
  }

  predicate Ours(r: LiveRecord, name: string) {
    && r.marker.Some? && r.marker.value.manager == Some("keeper-pam-declarative")
    && (name == "" || OrEmpty(r.marker.value.manifest) in {"", name})
  }

  /** A record of ours that no row keeps is deleted, or reported when deletes are off. */
  ghost predicate Leftover(live: seq<LiveRecord>, kept: seq<Change>, s: Settings, name: string, c: Change) {
    exists r :: r in live && Ours(r, name)
      && (forall k | k in kept && k.kind in {Update, Noop} :: k.keeperUid != Some(r.keeperUid))
      && c == Change(if s.allowDelete then Delete else Conflict, r.marker.value.uidRef, r.resourceType, r.title,
                     Some(r.keeperUid), if s.allowDelete then r.payload else map[], map[])
  }

  lemma RowIsOf(t: Text, live: seq<LiveRecord>, d: Desired, adopt: bool)
    ensures RowFor(t, live, d, adopt).Row? ==> RowOf(t, live, d, adopt, RowFor(t, live, d, adopt).change)
  {
    hide Match, Judges;
    MatchStandsFor(live, d);
    if Match(live, d).Some? {
      hide Classify;
      var r := Match(live, d).value;
      VerdictIsJudgement(t, d, r, adopt);
      var i: nat :| StandsFor(live, d, i) && live[i] == r;
    }
  }

  lemma {:induction false} NotesAre(users: seq<Dict>, c: Change)
    ensures c in ScriptWarnings(users) <==>
              exists u :: u in users && TextField(u, "type") == "pamUser" && Truthy(Get(u, "rotation_scripts"))
                && c == Change(Noop, Ref(TextField(u, "uid_ref")), "pamUser", TextField(u, "title"), None, map[], map[])
  {
    if users != [] {
      NotesAre(users[1..], c);
      assert users == [users[0]] + users[1..];
    }
  }

  lemma {:induction false} NestedAre(rs: seq<Dict>, u: Dict)
    ensures u in NestedUsers(rs) <==> exists r :: r in rs && UserOf(r, u)
  {
    if rs != [] {
      NestedAre(rs[1..], u);
      UsersAre(rs[0], u);
      assert rs == [rs[0]] + rs[1..];
    }
  }

  lemma WarningsAreNotes(m: Manifest, s: Settings, c: Change)
    ensures c in (if s.scriptReadback then [] else ScriptWarnings(NestedUsers(m.resources))) <==> Notes(m, s, c)
  {
    NotesAre(NestedUsers(m.resources), c);
    forall u ensures u in NestedUsers(m.resources) <==> exists r :: r in m.resources && UserOf(r, u) {
      NestedAre(m.resources, u);
    }
  }

  lemma {:induction false} OrphansAreLeft(live: seq<LiveRecord>, kept: seq<Change>, s: Settings, name: string, c: Change)
    ensures c in Orphans(live, Matched(kept), name, s.allowDelete) <==> Leftover(live, kept, s, name, c)
  {
    if live != [] {
      OrphansAreLeft(live[1..], kept, s, name, c);
      assert live == [live[0]] + live[1..];
      OrphanIsLeft(live[0], kept, name);
    }
  }

  lemma OrphanIsLeft(r: LiveRecord, kept: seq<Change>, name: string)
    ensures Orphan(r, Matched(kept), name)
       <==> Ours(r, name) && forall k | k in kept && k.kind in {Update, Noop} :: k.keeperUid != Some(r.keeperUid)
  {
    forall k | k in kept && k.kind in {Update, Noop} && k.keeperUid == Some(r.keeperUid) ensures r.keeperUid in Matched(kept) {}
  }

  /** What a diff lists: one row for each object of the manifest, in order, then the notes
      and the records left over. */
  lemma DiffLists(t: Text, m: Manifest, live: seq<LiveRecord>, s: Settings)
    requires ComputeDiff(t, m, live, s).Changes?
    ensures var rows, ds := ComputeDiff(t, m, live, s).rows, DesiredObjects(m);
            var name := if s.manifestName != "" then s.manifestName else m.name;
            && |ds| <= |rows|
            && (forall i | 0 <= i < |ds| :: RowOf(t, live, ds[i], s.adopt, rows[i]))
            && forall c :: c in rows[|ds|..] <==> Notes(m, s, c) || Leftover(live, rows[..|ds|], s, name, c)
  {
    hide RowFor, RowOf, Orphans, Matched, Notes, Leftover, ScriptWarnings, NestedUsers, DesiredObjects, NoCollision;
    var ds := DesiredObjects(m);
    var first := DesiredRows(t, live, ds, s.adopt);
    var notes := if s.scriptReadback then [] else ScriptWarnings(NestedUsers(m.resources));
    var name := if s.manifestName != "" then s.manifestName else m.name;
    var rows := ComputeDiff(t, m, live, s).rows;
    assert rows[..|ds|] == first && rows[|ds|..] == notes + Orphans(live, Matched(first), name, s.allowDelete);
    forall i | 0 <= i < |ds| ensures RowOf(t, live, ds[i], s.adopt, rows[i]) {
      assert ds[i] in ds;
      RowIsOf(t, live, ds[i], s.adopt);
    }
    forall c ensures c in rows[|ds|..] <==> Notes(m, s, c) || Leftover(live, first, s, name, c) {
      WarningsAreNotes(m, s, c);
      OrphansAreLeft(live, first, s, name, c);
    }
  }

  /** It stops at an unsupported marker exactly when a record of another version, and of
      no other manager, stands for an object of the manifest. */
  lemma DiffStopsIff(t: Text, m: Manifest, live: seq<LiveRecord>, s: Settings)
    requires NoCollision(live)
    ensures ComputeDiff(t, m, live, s).UnsupportedMarker? <==>
              exists d, i: nat :: d in DesiredObjects(m) && StandsFor(live, d, i) && !OtherManager(live[i]) && OtherVersion(live[i])
  {
    hide DesiredObjects, OtherManager, OtherVersion, NoCollision, Match;
    forall d ensures RowFor(t, live, d, s.adopt).Unsupported? <==>
                       exists i: nat :: StandsFor(live, d, i) && !OtherManager(live[i]) && OtherVersion(live[i]) {
      MatchStandsFor(live, d);
      if Match(live, d).Some? {
        hide Classify;
        VerdictIsJudgement(t, d, Match(live, d).value, s.adopt);
        var i: nat :| StandsFor(live, d, i) && live[i] == Match(live, d).value;
        forall j: nat | StandsFor(live, d, j) ensures j == i { OneStands(live, d, i, j); }
      } else {
        forall j: nat ensures !StandsFor(live, d, j) {}
      }
    }
  }

  lemma OneStands(live: seq<LiveRecord>, d: Desired, i: nat, j: nat)
    requires StandsFor(live, d, i) && StandsFor(live, d, j)
    ensures i == j
  {
    assert live[i] in live && live[j] in live;
  }

  /** Two records the diff cannot tell apart: one uid_ref, or one type and title of which
      not both have a uid_ref. */
  ghost predicate Collide(a: LiveRecord, b: LiveRecord) {
    || (exists u :: Carries(a, u) && Carries(b, u))
    || (a.resourceType == b.resourceType && a.title == b.title && ((forall u :: !Carries(a, u)) || forall u :: !Carries(b, u)))
  }

  lemma CarriesUid(r: LiveRecord)
    ensures UidOf(r).None? ==> forall u :: !Carries(r, u)
    ensures UidOf(r).Some? ==> forall u :: Carries(r, u) <==> u == UidOf(r).value
  {}

  /** It refuses live records exactly when two of them collide. */
  lemma DiffCollidesIff(t: Text, m: Manifest, live: seq<LiveRecord>, s: Settings)
    ensures ComputeDiff(t, m, live, s).Collision? <==> exists i, j :: 0 <= i < j < |live| && Collide(live[i], live[j])
  {
    hide DesiredObjects, RowFor, UidOf;
    forall i, j | 0 <= i < j < |live|
      ensures Collide(live[i], live[j]) <==>
                (UidOf(live[i]).Some? && UidOf(live[i]) == UidOf(live[j]))
                || (TitleOf(live[i]) == TitleOf(live[j]) && (UidOf(live[i]).None? || UidOf(live[j]).None?))
    {
      CarriesUid(live[i]);
      CarriesUid(live[j]);
      if UidOf(live[i]).Some? { assert Carries(live[i], UidOf(live[i]).value); }
      if UidOf(live[j]).Some? { assert Carries(live[j], UidOf(live[j]).value); }
    }
  }
}
