/** `MockProvider` (keeper_sdk/providers/mock.py): the keyed store of live records and the
    plan executor.  A Python dict keeps insertion order and the diff depends on it, so the
    store is the sequence of its values with pairwise distinct keeper uids. */
module MockProvider {
  import opened Json
  import opened OrderedDict
  import opened Plans
  import opened PamDiff

  /** What the provider takes from outside: name-based uids, marker text, the clock, and
      `str(x).strip().casefold()` for e-mail addresses. */
  datatype Env = Env(text: Text, stableUid: string -> string, serialize: Marker -> string, now: string,
                     email: Json -> Json)

  const RECORD_SHARE := "sharing_record_share"
  const SHARE_FOLDER := "sharing_share_folder"
  const PERMISSIONS: set<string> := {"manage_records", "manage_users", "can_edit", "can_share", "read_only"}

  // ------------------------------------------------------------ payload normalisation

  /** `_normalise_mock_sharing_email` */
  function NormaliseEmail(env: Env, payload: Dict): Dict {
    var grantee := DictOrEmpty(Get(payload, "grantee"));
    if Get(grantee, "kind") == JStr("user") && Get(grantee, "user_email") != JNull then
      var email := env.email(grantee["user_email"]);
      payload["grantee" := JObj(grantee["user_email" := email])]["user_email" := email]
    else if Get(payload, "user_email") != JNull then payload["user_email" := env.email(payload["user_email"])]
    else payload
  }

  /** `_sync_mock_sharing_permissions`: a flag known on one side is copied to the other;
      the flat one wins. */
  function SyncPermissions(payload: Dict): Dict {
    var nested := DictOrEmpty(Get(payload, "permissions"));
    var flat := map f | f in PERMISSIONS && (f in payload || f in nested) ::
                  if f in payload then payload[f] else nested[f];
    var merged := nested + flat;
    if merged == map[] then payload else (payload + flat)["permissions" := JObj(merged)]
  }

  /** `_normalise_mock_payload` */
  function Normalise(env: Env, resourceType: string, payload: Dict): Dict {
    var p := if resourceType == RECORD_SHARE || resourceType == SHARE_FOLDER then NormaliseEmail(env, payload) else payload;
    if resourceType == SHARE_FOLDER then SyncPermissions(p) else p
  }

  /** Write the serialized marker into `custom_fields`. */
  function WithMarkerText(payload: Dict, text: string): Dict {
    payload["custom_fields" := JObj(DictOrEmpty(Get(payload, "custom_fields"))[MARKER_LABEL := JStr(text)])]
  }

  // ------------------------------------------------------------------ one row's effect

  /** `change.uid_ref or change.title` */
  function RefOrTitle(c: Change): string {
    if OrEmpty(c.uidRef) != "" then c.uidRef.value else c.title
  }

  /** `encode_marker` */
  function MarkerAt(now: string, name: string, c: Change): Marker {
    Marker(Some(MANAGER), Some(MARKER_VERSION), Some(RefOrTitle(c)), Some(name), Some(c.resourceType), now)
  }

  function NewMarker(env: Env, name: string, c: Change): Marker {
    MarkerAt(env.now, name, c)
  }

  function Seed(name: string, c: Change): string {
    name + ":" + RefOrTitle(c)
  }

  /** The keeper uid a row acts on. */
  function Target(env: Env, name: string, c: Change): string {
    if c.kind == Create then env.stableUid(Seed(name, c)) else OrEmpty(c.keeperUid)
  }

  function Created(env: Env, name: string, c: Change): LiveRecord {
    var marker := NewMarker(env, name, c);
    LiveRecord(Target(env, name, c), c.title, c.resourceType,
               WithMarkerText(Normalise(env, c.resourceType, c.after), env.serialize(marker)), Some(marker))
  }

  function UpdatedMarker(env: Env, name: string, c: Change, existing: LiveRecord): Marker {
    var marker := if existing.marker.Some? then existing.marker.value else NewMarker(env, name, c);
    marker.(manifest := Some(name), resourceType := Some(c.resourceType), lastApplied := env.now)
  }

  /** An update replaces payload and marker only: title and type stay as they were. */
  function Updated(env: Env, name: string, c: Change, existing: LiveRecord): LiveRecord {
    var marker := UpdatedMarker(env, name, c, existing);
    existing.(payload := WithMarkerText(Normalise(env, c.resourceType, existing.payload + c.after), env.serialize(marker)),
              marker := Some(marker))
  }

  /** What a row makes of the record it acts on. */
  function Effect(env: Env, name: string, c: Change, current: Option<LiveRecord>): Option<LiveRecord> {
    match c.kind
    case Create => Some(Created(env, name, c))
    case Update => if current.Some? then Some(Updated(env, name, c, current.value)) else None
    case Delete => None
    case _ => current
  }

  // ------------------------------------------------------------------------- the store

  ghost predicate DistinctUids(store: seq<LiveRecord>) {
    forall i, j | 0 <= i < j < |store| :: store[i].keeperUid != store[j].keeperUid
  }

  const KEEPER_UID_OF: LiveRecord -> string := (r: LiveRecord) => r.keeperUid

  function Find(store: seq<LiveRecord>, uid: string): (r: Option<LiveRecord>)
    ensures r.Some? ==> r.value in store && r.value.keeperUid == uid
    ensures r.None? ==> forall x | x in store :: x.keeperUid != uid
  {
    Lookup(store, KEEPER_UID_OF, uid)
  }

  /** `self._records[uid] = record` */
  function Put(store: seq<LiveRecord>, r: LiveRecord): seq<LiveRecord> {
    Store(store, KEEPER_UID_OF, r)
  }

  /** `self._records.pop(uid, None)` */
  function Pop(store: seq<LiveRecord>, uid: string): seq<LiveRecord> {
    Drop(store, KEEPER_UID_OF, uid)
  }

  function ApplyRow(env: Env, name: string, store: seq<LiveRecord>, c: Change): seq<LiveRecord> {
    match c.kind
    case Create => Put(store, Created(env, name, c))
    case Update =>
      var existing := Find(store, Target(env, name, c));
      if existing.Some? then Put(store, Updated(env, name, c, existing.value)) else store
    case Delete => Pop(store, Target(env, name, c))
    case _ => store
  }

  /** The one effect of a dry run: an update prepares its new payload on a shallow copy, so
      a `custom_fields` dict it does not replace is the stored one, and the marker text
      is written into it. */
  function DryRow(env: Env, name: string, store: seq<LiveRecord>, c: Change): seq<LiveRecord> {
    var existing := Find(store, Target(env, name, c));
    if c.kind == Update && existing.Some? && SharesCustomFields(existing.value, c) then
      Put(store, existing.value.(payload :=
        WithMarkerText(existing.value.payload, env.serialize(UpdatedMarker(env, name, c, existing.value)))))
    else store
  }

  predicate SharesCustomFields(r: LiveRecord, c: Change) {
    "custom_fields" !in c.after && Get(r.payload, "custom_fields").JObj? && Truthy(r.payload["custom_fields"])
  }

  /** The rows of a plan one after the other; `dry` is the provider's `dry_run`. */
  function Run(env: Env, name: string, dry: bool, store: seq<LiveRecord>, cs: seq<Change>): seq<LiveRecord>
    decreases |cs|
  {
    if cs == [] then store else Run(env, name, dry, RunRow(env, name, dry, store, cs[0]), cs[1..])
  }

  function RunRow(env: Env, name: string, dry: bool, store: seq<LiveRecord>, c: Change): seq<LiveRecord> {
    if dry then DryRow(env, name, store, c) else ApplyRow(env, name, store, c)
  }

  // --------------------------------------------------------------- the store is a dict

  lemma PutIsUpdate(store: seq<LiveRecord>, r: LiveRecord, k: string)
    requires DistinctUids(store)
    ensures DistinctUids(Put(store, r))
    ensures Find(Put(store, r), k) == if k == r.keeperUid then Some(r) else Find(store, k)
  {
    assert DistinctBy(store, KEEPER_UID_OF);
    StoreIsUpdate(store, KEEPER_UID_OF, r, k);
    assert DistinctBy(Put(store, r), KEEPER_UID_OF);
    assert forall i | 0 <= i < |Put(store, r)| :: KEEPER_UID_OF(Put(store, r)[i]) == Put(store, r)[i].keeperUid;
  }

  lemma PopIsRemoval(store: seq<LiveRecord>, uid: string, k: string)
    requires DistinctUids(store)
    ensures DistinctUids(Pop(store, uid))
    ensures Find(Pop(store, uid), k) == if k == uid then None else Find(store, k)
  {
    assert DistinctBy(store, KEEPER_UID_OF);
    DropIsRemoval(store, KEEPER_UID_OF, uid, k);
    assert DistinctBy(Pop(store, uid), KEEPER_UID_OF);
    assert forall i | 0 <= i < |Pop(store, uid)| :: KEEPER_UID_OF(Pop(store, uid)[i]) == Pop(store, uid)[i].keeperUid;
  }

  /** A row changes the record it targets, as `Effect` says, and no other. */
  lemma RowIsPointwise(env: Env, name: string, store: seq<LiveRecord>, c: Change, k: string)
    requires DistinctUids(store)
    ensures DistinctUids(ApplyRow(env, name, store, c))
    ensures Find(ApplyRow(env, name, store, c), k)
         == if k == Target(env, name, c) then Effect(env, name, c, Find(store, k)) else Find(store, k)
  {
    match c.kind {
      case Create => PutIsUpdate(store, Created(env, name, c), k);
      case Update =>
        var existing := Find(store, Target(env, name, c));
        if existing.Some? { PutIsUpdate(store, Updated(env, name, c, existing.value), k); }
      case Delete => PopIsRemoval(store, Target(env, name, c), k);
      case _ =>
    }
  }

  ghost predicate DistinctTargets(env: Env, name: string, cs: seq<Change>) {
    forall i, j | 0 <= i < j < |cs| :: Target(env, name, cs[i]) != Target(env, name, cs[j])
  }

  lemma {:induction false} RowsKeepDistinct(env: Env, name: string, store: seq<LiveRecord>, cs: seq<Change>)
    requires DistinctUids(store)
    ensures DistinctUids(Run(env, name, false, store, cs))
    decreases |cs|
  {
    if cs != [] {
      RowIsPointwise(env, name, store, cs[0], "");
      RowsKeepDistinct(env, name, ApplyRow(env, name, store, cs[0]), cs[1..]);
    }
  }

  /** Records no row targets survive a whole plan untouched. */
  lemma {:induction false} UntargetedStays(env: Env, name: string, store: seq<LiveRecord>, cs: seq<Change>, k: string)
    requires DistinctUids(store)
    requires forall c | c in cs :: Target(env, name, c) != k
    ensures Find(Run(env, name, false, store, cs), k) == Find(store, k)
    decreases |cs|
  {
    if cs != [] {
      RowIsPointwise(env, name, store, cs[0], k);
      assert cs[0] in cs;
      UntargetedStays(env, name, ApplyRow(env, name, store, cs[0]), cs[1..], k);
    }
  }

  /** When targets are distinct, a targeted record undergoes exactly its row. */
  lemma {:induction false} TargetedChanges(env: Env, name: string, store: seq<LiveRecord>, cs: seq<Change>, i: nat)
    requires DistinctUids(store) && DistinctTargets(env, name, cs) && i < |cs|
    ensures var k := Target(env, name, cs[i]);
            Find(Run(env, name, false, store, cs), k) == Effect(env, name, cs[i], Find(store, k))
    decreases |cs|
  {
    var k := Target(env, name, cs[i]);
    var next := ApplyRow(env, name, store, cs[0]);
    RowIsPointwise(env, name, store, cs[0], k);
    if i == 0 {
      forall c | c in cs[1..] ensures Target(env, name, c) != k {
        var j :| 0 <= j < |cs[1..]| && cs[1..][j] == c;
        assert cs[j + 1] == c;
      }
      UntargetedStays(env, name, next, cs[1..], k);
    } else {
      TargetedChanges(env, name, next, cs[1..], i - 1);
    }
  }

  lemma {:induction false} RunSplits(env: Env, name: string, store: seq<LiveRecord>, cs: seq<Change>, j: nat)
    requires j <= |cs|
    ensures Run(env, name, false, store, cs) == Run(env, name, false, Run(env, name, false, store, cs[..j]), cs[j..])
    decreases j
  {
    if j > 0 {
      assert cs[..j][1..] == cs[1..][..j - 1] && cs[1..][j - 1..] == cs[j..];
      RunSplits(env, name, ApplyRow(env, name, store, cs[0]), cs[1..], j - 1);
    } else {
      assert cs[0..] == cs;
    }
  }

  lemma {:induction false} DeletesRestoreNothing(env: Env, name: string, store: seq<LiveRecord>, cs: seq<Change>, k: string)
    requires DistinctUids(store) && Find(store, k).None? && forall c | c in cs :: c.kind == Delete
    ensures Find(Run(env, name, false, store, cs), k).None?
    decreases |cs|
  {
    if cs != [] {
      assert cs[0] in cs;
      RowIsPointwise(env, name, store, cs[0], k);
      DeletesRestoreNothing(env, name, ApplyRow(env, name, store, cs[0]), cs[1..], k);
    }
  }

  /** A record deleted at the end of a run is gone. */
  lemma DeletedAtTheEnd(env: Env, name: string, store: seq<LiveRecord>, cs: seq<Change>, j: nat)
    requires DistinctUids(store) && j < |cs| && forall i | j <= i < |cs| :: cs[i].kind == Delete
    ensures Find(Run(env, name, false, store, cs), Target(env, name, cs[j])).None?
  {
    var k, rest := Target(env, name, cs[j]), cs[j..];
    RunSplits(env, name, store, cs, j);
    var before := Run(env, name, false, store, cs[..j]);
    RowsKeepDistinct(env, name, store, cs[..j]);
    assert rest[0] == cs[j];
    RowIsPointwise(env, name, before, rest[0], k);
    forall c | c in rest[1..] ensures c.kind == Delete {
      var i :| 0 <= i < |rest[1..]| && rest[1..][i] == c;
      assert cs[j + 1 + i] == c;
    }
    DeletesRestoreNothing(env, name, ApplyRow(env, name, before, rest[0]), rest[1..], k);
  }

  // ------------------------------------------------------------------------ the provider

  datatype Action = CreateAction | UpdateAction | DeleteAction

  datatype ApplyOutcome = ApplyOutcome(uidRef: string, keeperUid: string, action: Action, dryRun: bool, missing: bool)

  function OutcomeOf(env: Env, name: string, dry: bool, store: seq<LiveRecord>, c: Change): ApplyOutcome {
    var uid := Target(env, name, c);
    ApplyOutcome(OrEmpty(c.uidRef), uid,
                 if c.kind == Create then CreateAction else if c.kind == Update then UpdateAction else DeleteAction,
                 dry, c.kind == Update && Find(store, uid).None?)
  }

  function Outcomes(env: Env, name: string, dry: bool, store: seq<LiveRecord>, cs: seq<Change>): seq<ApplyOutcome>
    decreases |cs|
  {
    if cs == [] then []
    else [OutcomeOf(env, name, dry, store, cs[0])] + Outcomes(env, name, dry, RunRow(env, name, dry, store, cs[0]), cs[1..])
  }

  /** Equal but for what `custom_fields` holds. */
  predicate SameButCustomFields(a: LiveRecord, b: LiveRecord) {
    a.(payload := map[]) == b.(payload := map[]) && a.payload - {"custom_fields"} == b.payload - {"custom_fields"}
  }

  ghost predicate SameStores(a: seq<LiveRecord>, b: seq<LiveRecord>) {
    |a| == |b| && forall i | 0 <= i < |a| :: SameButCustomFields(a[i], b[i])
  }

  lemma DryRowKeepsRecords(env: Env, name: string, store: seq<LiveRecord>, c: Change)
    ensures SameStores(store, DryRow(env, name, store, c))
  {}

  /** A dry run touches nothing but marker texts inside `custom_fields`. */
  lemma {:induction false} DryRunKeepsRecords(env: Env, name: string, store: seq<LiveRecord>, cs: seq<Change>)
    ensures SameStores(store, Run(env, name, true, store, cs))
    decreases |cs|
  {
    if cs != [] {
      var next := DryRow(env, name, store, cs[0]);
      DryRowKeepsRecords(env, name, store, cs[0]);
      DryRunKeepsRecords(env, name, next, cs[1..]);
      var out := Run(env, name, true, store, cs);
      forall i | 0 <= i < |store| ensures SameButCustomFields(store[i], out[i]) {
        assert SameButCustomFields(store[i], next[i]) && SameButCustomFields(next[i], out[i]);
      }
    }
  }

  /** A dry-run row leaves the store alone exactly when it is no update of a record with
      its own non-empty `custom_fields`, or the marker text it writes is there already. */
  lemma DryRunIsPureWhen(env: Env, name: string, store: seq<LiveRecord>, c: Change)
    requires DistinctUids(store)
    ensures DryRow(env, name, store, c) == store <==>
              var existing := Find(store, Target(env, name, c));
              (c.kind == Update && existing.Some? && SharesCustomFields(existing.value, c)) ==>
                Get(existing.value.payload["custom_fields"].fields, MARKER_LABEL)
                == JStr(env.serialize(UpdatedMarker(env, name, c, existing.value)))
  {
    var existing := Find(store, Target(env, name, c));
    if c.kind == Update && existing.Some? && SharesCustomFields(existing.value, c) {
      var r := existing.value;
      var text := env.serialize(UpdatedMarker(env, name, c, r));
      var fields := r.payload["custom_fields"].fields;
      var r' := r.(payload := WithMarkerText(r.payload, text));
      var i := Position(store, KEEPER_UID_OF, r.keeperUid);
      assert Put(store, r')[i] == r';
      if Get(fields, MARKER_LABEL) == JStr(text) {
        assert fields[MARKER_LABEL := JStr(text)] == fields;
        assert r'.payload == r.payload;
        assert store[i := r] == store;
      } else {
        assert r'.payload["custom_fields"].fields[MARKER_LABEL] == JStr(text);
      }
    }
  }

  lemma RunUnfolds(env: Env, name: string, dry: bool, store: seq<LiveRecord>, cs: seq<Change>, i: nat)
    requires i < |cs|
    ensures var next := RunRow(env, name, dry, store, cs[i]);
            && Run(env, name, dry, store, cs[i..]) == Run(env, name, dry, next, cs[i + 1..])
            && Outcomes(env, name, dry, store, cs[i..])
               == [OutcomeOf(env, name, dry, store, cs[i])] + Outcomes(env, name, dry, next, cs[i + 1..])
  {
    assert cs[i..][1..] == cs[i + 1..];
  }

  lemma OrderedIsActionable(p: Plan, i: nat)
    requires i < |Ordered(p)|
    ensures Ordered(p)[i].kind in {Create, Update, Delete}
  {
    OrderedIsPermutation(p);
    assert Ordered(p)[i] in Ordered(p);
  }

  class Provider {
    const env: Env
    var records: seq<LiveRecord>

    constructor (env: Env)
      ensures this.env == env && records == []
    {
      this.env := env;
      records := [];
    }

    method Discover() returns (live: seq<LiveRecord>)
      ensures live == records
    {
      live := records;
    }

    method ApplyOne(name: string, c: Change, dry: bool) returns (outcome: ApplyOutcome)
      requires c.kind in {Create, Update, Delete}
      modifies this
      ensures records == RunRow(env, name, dry, old(records), c)
      ensures outcome == OutcomeOf(env, name, dry, old(records), c)
    {
      outcome := OutcomeOf(env, name, dry, records, c);
      if c.kind == Create {
        var marker := NewMarker(env, name, c);
        var payload := WithMarkerText(Normalise(env, c.resourceType, c.after), env.serialize(marker));
        if !dry {
          records := Put(records, LiveRecord(outcome.keeperUid, c.title, c.resourceType, payload, Some(marker)));
        }
      } else if c.kind == Update {
        var existing := Find(records, outcome.keeperUid);
        if existing.Some? {
          records := if dry then DryRow(env, name, records, c) else Put(records, Updated(env, name, c, existing.value));
        }
      } else if !dry {
        records := Pop(records, outcome.keeperUid);
      }
    }

    /** `apply_plan` */
    method ApplyPlan(plan: Plan, dryRun: bool) returns (outcomes: seq<ApplyOutcome>)
      modifies this
      ensures records == Run(env, plan.manifestName, dryRun, old(records), Ordered(plan))
      ensures outcomes == Outcomes(env, plan.manifestName, dryRun, old(records), Ordered(plan))
    {
      hide Ordered, RunRow, OutcomeOf;
      outcomes := [];
      var name, rows := plan.manifestName, Ordered(plan);
      for i := 0 to |rows|
        invariant Run(env, name, dryRun, records, rows[i..]) == Run(env, name, dryRun, old(records), rows)
        invariant outcomes + Outcomes(env, name, dryRun, records, rows[i..])
               == Outcomes(env, name, dryRun, old(records), rows)
      {
        OrderedIsActionable(plan, i);
        RunUnfolds(env, name, dryRun, records, rows, i);
        var outcome := ApplyOne(name, rows[i], dryRun);
        outcomes := outcomes + [outcome];
      }
      assert rows[|rows|..] == [] && outcomes + [] == outcomes;
    }
  }
}
