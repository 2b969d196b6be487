/** What the mock provider stores (keeper_sdk/providers/mock.py), read field by field: the
    payload, the marker and the reported outcome of every row of a plan. */
module StoredRecords {
  import opened Json
  import opened Plans
  import opened PamDiff
  import opened MockProvider

  // -------------------------------------------------------------------- field by field

  predicate IsShare(resourceType: string) {
    resourceType in {"sharing_record_share", "sharing_share_folder"}
  }

  predicate IsFlag(k: string) {
    k in {"manage_records", "manage_users", "can_edit", "can_share", "read_only"}
  }

  /** The fields a type of record stores as they are asked for. */
  predicate IsPlain(resourceType: string, k: string) {
    && k != "custom_fields"
    && (IsShare(resourceType) ==> k !in {"grantee", "user_email"})
    && (resourceType == "sharing_share_folder" ==> k != "permissions" && !IsFlag(k))
  }

  /** The e-mail address of a share is normalised wherever the share has it. */
  ghost predicate MailStored(env: Env, asked: Dict, p: Dict) {
    var g := DictOrEmpty(Get(asked, "grantee"));
    if Get(g, "kind") == JStr("user") && Get(g, "user_email") != JNull then
      var mail := env.email(g["user_email"]);
      Get(p, "grantee") == JObj(g["user_email" := mail]) && "user_email" in p && p["user_email"] == mail
    else
      && SameAt(p, asked, "grantee")
      && if Get(asked, "user_email") != JNull then Get(p, "user_email") == env.email(asked["user_email"])
         else SameAt(p, asked, "user_email")
  }

  /** A permission flag of a folder share: the flat value, else the nested one. */
  function FlagOf(asked: Dict, f: string): Option<Json> {
    var nested := DictOrEmpty(Get(asked, "permissions"));
    if f in asked then Some(asked[f]) else if f in nested then Some(nested[f]) else None
  }

  function At(p: Dict, k: string): Option<Json> {
    if k in p then Some(p[k]) else None
  }

  /** Flags are stored in both places; the other nested permissions stay as they are. */
  ghost predicate FlagsStored(asked: Dict, p: Dict) {
    var before, after := DictOrEmpty(Get(asked, "permissions")), DictOrEmpty(Get(p, "permissions"));
    && (forall f | IsFlag(f) :: At(p, f) == FlagOf(asked, f) == At(after, f))
    && (forall k | !IsFlag(k) :: At(after, k) == At(before, k))
    && (after == map[] ==> SameAt(p, asked, "permissions"))
  }

  /** `p` stores what was asked for, with the marker in its custom fields. */
  ghost predicate Stores(env: Env, resourceType: string, asked: Dict, marker: Marker, p: Dict) {
    && (forall k | IsPlain(resourceType, k) :: SameAt(p, asked, k))
    && (IsShare(resourceType) ==> MailStored(env, asked, p))
    && (resourceType == "sharing_share_folder" ==> FlagsStored(asked, p))
    && Get(p, "custom_fields").JObj?
    && var fields := p["custom_fields"].fields;
       && Get(fields, "keeper_declarative_manager") == JStr(env.serialize(marker))
       && forall k | k != "keeper_declarative_manager" :: SameAt(fields, DictOrEmpty(Get(asked, "custom_fields")), k)
  }

  lemma FlagsAreStored(p: Dict)
    ensures FlagsStored(p, SyncPermissions(p))
    ensures forall k | k != "permissions" && !IsFlag(k) :: SameAt(SyncPermissions(p), p, k)
  {
    var nested := DictOrEmpty(Get(p, "permissions"));
    var flat := map f | f in PERMISSIONS && (f in p || f in nested) :: if f in p then p[f] else nested[f];
    forall f | IsFlag(f) ensures At(nested + flat, f) == FlagOf(p, f) == At(p + flat, f) {}
  }

  lemma MailIsStored(env: Env, p: Dict)
    ensures MailStored(env, p, NormaliseEmail(env, p))
    ensures forall k | k !in {"grantee", "user_email"} :: SameAt(NormaliseEmail(env, p), p, k)
  {}

  lemma NormalisedIsStored(env: Env, resourceType: string, asked: Dict)
    ensures var p := Normalise(env, resourceType, asked);
            && (forall k | IsPlain(resourceType, k) :: SameAt(p, asked, k))
            && (IsShare(resourceType) ==> MailStored(env, asked, p))
            && (resourceType == "sharing_share_folder" ==> FlagsStored(asked, p))
            && SameAt(p, asked, "custom_fields")
  {
    hide NormaliseEmail, SyncPermissions;
    if IsShare(resourceType) {
      var mail := NormaliseEmail(env, asked);
      MailIsStored(env, asked);
      FlagsAreStored(mail);
      assert SameAt(mail, asked, "permissions") && SameAt(mail, asked, "custom_fields");
      if resourceType == "sharing_share_folder" {
        var p := SyncPermissions(mail);
        assert SameAt(p, mail, "custom_fields") && SameAt(p, mail, "grantee") && SameAt(p, mail, "user_email");
        forall f | IsFlag(f) ensures FlagOf(mail, f) == FlagOf(asked, f) { assert SameAt(mail, asked, f); }
        forall k | IsPlain(resourceType, k) ensures SameAt(p, asked, k) {
          assert SameAt(p, mail, k) && SameAt(mail, asked, k);
        }
      }
    }
  }

  lemma PayloadIsStored(env: Env, resourceType: string, asked: Dict, marker: Marker)
    ensures Stores(env, resourceType, asked, marker,
                   WithMarkerText(Normalise(env, resourceType, asked), env.serialize(marker)))
  {
    hide Normalise;
    NormalisedIsStored(env, resourceType, asked);
    var q := Normalise(env, resourceType, asked);
    var p := WithMarkerText(q, env.serialize(marker));
    assert SameAt(q, asked, "custom_fields");
    forall k | k != "custom_fields" ensures SameAt(p, q, k) {}
    forall f | IsFlag(f) ensures At(p, f) == At(q, f) { assert SameAt(p, q, f); }
    assert SameAt(p, q, "permissions") && SameAt(p, q, "grantee") && SameAt(p, q, "user_email");
    forall k | IsPlain(resourceType, k) ensures SameAt(p, asked, k) { assert SameAt(p, q, k) && SameAt(q, asked, k); }
  }

  // -------------------------------------------------------------------- row by row

  /** The reference a record is marked with: its uid_ref, or its title. */
  function MarkedRef(c: Change): string {
    match c.uidRef
    case Some(u) => if u != "" then u else c.title
    case None => c.title
  }

  /** The record a create leaves. */
  ghost predicate CreatedAs(env: Env, name: string, c: Change, y: LiveRecord) {
    && y.keeperUid == env.stableUid(name + ":" + MarkedRef(c)) && y.title == c.title && y.resourceType == c.resourceType
    && y.marker == Some(Marker(Some("keeper-pam-declarative"), Some("1"), Some(MarkedRef(c)), Some(name), Some(c.resourceType), env.now))
    && Stores(env, c.resourceType, c.after, y.marker.value, y.payload)
  }

  /** The record an update leaves of `r`: written fields are new and the others stay, marked
      or not, and so do title and type; a marker keeps its owner and its reference. */
  ghost predicate UpdatedAs(env: Env, name: string, c: Change, r: LiveRecord, y: LiveRecord) {
    && y.keeperUid == r.keeperUid && y.title == r.title && y.resourceType == r.resourceType
    && (exists asked: Dict ::
          (forall k :: if k in c.after then k in asked && asked[k] == c.after[k] else SameAt(asked, r.payload, k))
          && y.marker.Some? && Stores(env, c.resourceType, asked, y.marker.value, y.payload))
    && var m := y.marker.value;
       && m.manifest == Some(name) && m.resourceType == Some(c.resourceType) && m.lastApplied == env.now
       && if r.marker.Some? then m.manager == r.marker.value.manager && m.version == r.marker.value.version && m.uidRef == r.marker.value.uidRef
          else m.manager == Some("keeper-pam-declarative") && m.version == Some("1") && m.uidRef == Some(MarkedRef(c))
  }

  lemma CreateIsStored(env: Env, name: string, c: Change)
    ensures c.kind == Create ==> CreatedAs(env, name, c, Created(env, name, c))
  {
    hide Stores, Normalise, WithMarkerText;
    PayloadIsStored(env, c.resourceType, c.after, NewMarker(env, name, c));
  }

  lemma UpdateIsStored(env: Env, name: string, c: Change, r: LiveRecord)
    ensures UpdatedAs(env, name, c, r, Updated(env, name, c, r))
  {
    hide Stores, Normalise, WithMarkerText;
    var asked := r.payload + c.after;
    PayloadIsStored(env, c.resourceType, asked, UpdatedMarker(env, name, c, r));
    assert forall k :: if k in c.after then k in asked && asked[k] == c.after[k] else SameAt(asked, r.payload, k);
  }

  /** The plan of `apply_plan` after its last row, when no two rows act on one keeper uid:
      created and updated records as above, deleted ones gone, an update of a record that
      is not there leaves nothing, and all the rest is untouched. */
  lemma PlanIsStored(env: Env, p: Plan, store: seq<LiveRecord>, i: nat)
    requires DistinctUids(store) && DistinctTargets(env, p.manifestName, Ordered(p)) && i < |Ordered(p)|
    ensures var end, c := Run(env, p.manifestName, false, store, Ordered(p)), Ordered(p)[i];
            match c.kind
            case Create => exists y :: Find(end, env.stableUid(p.manifestName + ":" + MarkedRef(c))) == Some(y) && CreatedAs(env, p.manifestName, c, y)
            case Update =>
              (match Find(store, OrEmpty(c.keeperUid))
               case Some(r) => exists y :: Find(end, r.keeperUid) == Some(y) && UpdatedAs(env, p.manifestName, c, r, y)
               case None => Find(end, OrEmpty(c.keeperUid)) == None)
            case Delete => Find(end, OrEmpty(c.keeperUid)) == None
            case _ => true
  {
    hide Run, Ordered, CreatedAs, UpdatedAs, Created, Updated;
    var name, c := p.manifestName, Ordered(p)[i];
    TargetedChanges(env, name, store, Ordered(p), i);
    CreateIsStored(env, name, c);
    var r := Find(store, OrEmpty(c.keeperUid));
    if c.kind == Update && r.Some? { UpdateIsStored(env, name, c, r.value); }
  }

  // ------------------------------------------------------------------------- outcomes

  predicate ActionOf(k: Kind, a: Action) {
    (k == Create <==> a == CreateAction) && (k == Update <==> a == UpdateAction) && (k == Delete <==> a == DeleteAction)
  }

  /** The outcome of a row: what it names, what was done, and whether an update found no
      record among `store`. */
  ghost predicate Reports(env: Env, name: string, dry: bool, store: seq<LiveRecord>, c: Change, o: ApplyOutcome) {
    && o.uidRef == OrEmpty(c.uidRef) && o.dryRun == dry && ActionOf(c.kind, o.action)
    && o.keeperUid == (if c.kind == Create then env.stableUid(name + ":" + MarkedRef(c)) else OrEmpty(c.keeperUid))
    && (o.missing <==> c.kind == Update && forall r | r in store :: r.keeperUid != OrEmpty(c.keeperUid))
  }

  lemma RowIsReported(env: Env, name: string, dry: bool, store: seq<LiveRecord>, c: Change)
    requires c.kind in {Create, Update, Delete}
    ensures Reports(env, name, dry, store, c, OutcomeOf(env, name, dry, store, c))
  {}

  lemma ReportStays(env: Env, name: string, dry: bool, store: seq<LiveRecord>, c: Change, d: Change, o: ApplyOutcome)
    requires DistinctUids(store) && Target(env, name, c) != Target(env, name, d)
    requires Reports(env, name, dry, RunRow(env, name, dry, store, c), d, o)
    ensures Reports(env, name, dry, store, d, o)
  {
    hide ApplyRow, DryRow, OutcomeOf;
    RowIsPointwise(env, name, store, c, Target(env, name, d));
    DryRowIsPointwise(env, name, store, c, Target(env, name, d));
  }

  lemma NextIsDistinct(env: Env, name: string, dry: bool, store: seq<LiveRecord>, c: Change)
    requires DistinctUids(store)
    ensures DistinctUids(RunRow(env, name, dry, store, c))
  {
    RowIsPointwise(env, name, store, c, "");
    DryRowIsPointwise(env, name, store, c, "");
  }

  /** Outcome by outcome, for a real and for a dry run, said of the store before the plan. */
  lemma {:induction false} PlanIsReported(env: Env, name: string, dry: bool, store: seq<LiveRecord>, cs: seq<Change>)
    requires DistinctUids(store) && DistinctTargets(env, name, cs) && forall c | c in cs :: c.kind in {Create, Update, Delete}
    ensures var outcomes := Outcomes(env, name, dry, store, cs);
            |outcomes| == |cs| && forall i | 0 <= i < |cs| :: Reports(env, name, dry, store, cs[i], outcomes[i])
    decreases |cs|
  {
    hide Reports, OutcomeOf, RunRow, Target, DistinctUids;
    if cs != [] {
      var next, rest := RunRow(env, name, dry, store, cs[0]), cs[1..];
      assert cs[0] in cs && forall j | 0 <= j < |rest| :: rest[j] == cs[j + 1];
      NextIsDistinct(env, name, dry, store, cs[0]);
      RowIsReported(env, name, dry, store, cs[0]);
      PlanIsReported(env, name, dry, next, rest);
      var outcomes := Outcomes(env, name, dry, store, cs);
      forall i | 0 < i < |cs| ensures Reports(env, name, dry, store, cs[i], outcomes[i]) {
        assert outcomes[i] == Outcomes(env, name, dry, next, rest)[i - 1] && cs[i] == rest[i - 1];
        ReportStays(env, name, dry, store, cs[0], cs[i], outcomes[i]);
      }
    }
  }

  lemma DryRowIsPointwise(env: Env, name: string, store: seq<LiveRecord>, c: Change, k: string)
    requires DistinctUids(store)
    ensures DistinctUids(DryRow(env, name, store, c)) && Find(DryRow(env, name, store, c), k).Some? == Find(store, k).Some?
  {
    var existing := Find(store, Target(env, name, c));
    if c.kind == Update && existing.Some? && SharesCustomFields(existing.value, c) {
      PutIsUpdate(store, existing.value.(payload :=
        WithMarkerText(existing.value.payload, env.serialize(UpdatedMarker(env, name, c, existing.value)))), k);
    }
  }
}
