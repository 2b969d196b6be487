/** What KSM rounds leave in the mock provider (keeper_sdk/providers/mock.py): payloads,
    markers and reported outcomes, said of the manifest and the state before. */
module KsmStored {
  import opened Json
  import opened Plans
  import opened KsmNormalise
  import opened KsmDiff
  import opened KeyedDiff
  import opened Names
  import PamDiff
  import opened KsmProvider
  import opened KsmConvergence
  import opened KsmRows

  // ------------------------------------------------------------------------- one row

  function MarkedRef(c: Change): string {
    NameOf(c)
  }

  predicate KsmType(resourceType: string, b: Block) {
    resourceType == (match b case Apps => "ksm_app" case Tokens => "ksm_token"
                     case RecordShares => "ksm_record_share" case ConfigOutputs => "ksm_config_output")
  }

  /** The row of a block that a change names by its keeper uid. */
  ghost predicate NamesRow(s: State, b: Block, c: Change, r: KsmRow) {
    r in s.rows && r.block == b && UidOfRow(r) == JStr(OrEmpty(c.keeperUid))
  }

  ghost predicate NamesNone(s: State, b: Block, c: Change) {
    forall r | r in s.rows && r.block == b :: UidOfRow(r) != JStr(OrEmpty(c.keeperUid))
  }

  /** The row stored for a payload: its fields, with the keeper uid. */
  predicate Holds(r: KsmRow, b: Block, asked: Dict, uid: string) {
    && r.block == b && r.key == KeyOf(b, r.payload)
    && Get(r.payload, "keeper_uid") == JStr(uid)
    && r.payload.Keys == asked.Keys + {"keeper_uid"} && forall k | k in asked && k != "keeper_uid" :: r.payload[k] == asked[k]
  }

  function FreshMarker(env: KsmEnv, name: string, c: Change): PamDiff.Marker {
    PamDiff.Marker(Some("keeper-pam-declarative"), Some("1"), Some(MarkedRef(c)), Some(name), Some(c.resourceType), env.now)
  }

  lemma StoredHolds(b: Block, asked: Dict, uid: string)
    ensures Holds(Stored(b, asked, uid), b, asked, uid)
  {}

  lemma TypeIsBlock(resourceType: string, b: Block)
    requires KsmType(resourceType, b)
    ensures BlockOf(resourceType) == Some(b)
  {}

  /** A create stores its payload under a generated keeper uid, with a new marker. */
  lemma CreateStores(env: KsmEnv, name: string, s: State, c: Change, b: Block)
    requires c.kind == Create && KsmType(c.resourceType, b)
    ensures var out, uid := ApplyRow(env, name, s, c), env.stableUid("ksm:" + name + ":" + c.resourceType + ":" + MarkedRef(c));
            && (exists r :: r in out.rows && Holds(r, b, c.after, uid))
            && out.markers == s.markers[uid := FreshMarker(env, name, c)]
  {
    var uid := env.stableUid("ksm:" + name + ":" + c.resourceType + ":" + MarkedRef(c));
    assert uid == NewUid(env, name, c);
    hide Stored, PutRow, Holds, BlockOf, NewUid;
    TypeIsBlock(c.resourceType, b);
    StoredHolds(b, c.after, uid);
    StoredIsThere(s.rows, Stored(b, c.after, uid));
  }

  lemma StoredIsThere(rows: seq<KsmRow>, r: KsmRow)
    ensures r in PutRow(rows, r)
  {
    var i := OrderedDict.Position(rows, ROW_KEY, r.key);
    assert PutRow(rows, r)[i] == r;
  }

  /** An update writes its fields over the row it names, keeps the rest, and renews the
      marker, which keeps its owner and reference; without such a row nothing changes. */
  lemma UpdateStores(env: KsmEnv, name: string, s: State, c: Change, b: Block)
    requires c.kind == Update && KsmType(c.resourceType, b)
    ensures var out, uid := ApplyRow(env, name, s, c), OrEmpty(c.keeperUid);
            && (NamesNone(s, b, c) ==> out == s)
            && (!NamesNone(s, b, c) ==>
                  && (exists r, y :: NamesRow(s, b, c, r) && y in out.rows && Holds(y, b, r.payload + c.after, uid))
                  && uid in out.markers && out.markers - {uid} == s.markers - {uid}
                  && var m := out.markers[uid];
                     && m.manifest == Some(name) && m.resourceType == Some(c.resourceType) && m.lastApplied == env.now
                     && var before := if uid in s.markers then s.markers[uid] else FreshMarker(env, name, c);
                        m.manager == before.manager && m.version == before.version && m.uidRef == before.uidRef)
  {
    hide Stored, PutRow, PopRow, Holds, BlockOf;
    TypeIsBlock(c.resourceType, b);
    var uid := OrEmpty(c.keeperUid);
    var found := ByKeeperUid(s.rows, b, uid);
    if found.Some? {
      var y := Stored(b, found.value.payload + c.after, uid);
      StoredHolds(b, found.value.payload + c.after, uid);
      StoredIsThere(PopRow(s.rows, found.value.key), y);
      assert NamesRow(s, b, c, found.value);
    }
  }

  /** A delete removes the key of the row it names, and its marker. */
  lemma DeleteStores(env: KsmEnv, name: string, s: State, c: Change, b: Block)
    requires c.kind == Delete && KsmType(c.resourceType, b) && DistinctRows(s.rows)
    ensures var out, uid := ApplyRow(env, name, s, c), OrEmpty(c.keeperUid);
            && (NamesNone(s, b, c) ==> out == s)
            && (!NamesNone(s, b, c) ==>
                  && out.markers == s.markers - {uid}
                  && exists r :: NamesRow(s, b, c, r) && forall x :: x in out.rows <==> x in s.rows && x.key != r.key)
  {
    var found := ByKeeperUid(s.rows, b, OrEmpty(c.keeperUid));
    if found.Some? {
      var out := PopRow(s.rows, found.value.key);
      assert NamesRow(s, b, c, found.value);
      forall x ensures x in out <==> x in s.rows && x.key != found.value.key {
        PopRowIsRemoval(s.rows, found.value.key, x.key);
        if x in s.rows { AtIs(s.rows, x); }
        if x in out { AtIs(out, x); }
      }
    }
  }

  lemma AtIs(rows: seq<KsmRow>, x: KsmRow)
    requires DistinctRows(rows) && x in rows
    ensures At(rows, x.key) == Some(x)
  {}

  /** Rows of other kinds, and of other families, change nothing. */
  lemma OthersStore(env: KsmEnv, name: string, s: State, c: Change)
    requires c.kind !in {Create, Update, Delete} || forall b :: !KsmType(c.resourceType, b)
    ensures ApplyRow(env, name, s, c) == s
  {
    if BlockOf(c.resourceType).Some? { assert KsmType(c.resourceType, BlockOf(c.resourceType).value); }
  }

  /** What is reported of a row. */
  lemma RowIsReported(env: KsmEnv, name: string, s: State, c: Change)
    ensures var o := OutcomeOf(env, name, s, c);
            && o.uidRef == OrEmpty(c.uidRef)
            && (o.action == Conflicted <==> c.kind == Conflict)
            && (o.action == Passed <==> c.kind != Conflict && (c.kind in {Noop, Skip} || forall b :: !KsmType(c.resourceType, b)))
            && (o.action == Created ==> c.kind == Create) && (o.action == Updated ==> c.kind == Update)
            && (o.action == Deleted ==> c.kind == Delete)
            && o.keeperUid == (if o.action == Created then env.stableUid("ksm:" + name + ":" + c.resourceType + ":" + MarkedRef(c))
                               else OrEmpty(c.keeperUid))
            && (o.missing <==> o.action in {Updated, Deleted} && forall b | KsmType(c.resourceType, b) :: NamesNone(s, b, c))
  {
    var b := BlockOf(c.resourceType);
    if b.Some? {
      assert KsmType(c.resourceType, b.value);
      forall d | KsmType(c.resourceType, d) ensures d == b.value { ResourceTellsBlock(d, b.value); }
    } else {
      forall d ensures !KsmType(c.resourceType, d) { assert KsmType(c.resourceType, d) ==> ResourceOf(d) == c.resourceType; }
    }
  }

  // ------------------------------------------------------------------------ a whole round

  /** The row says what the object asks for: in normal form it agrees on every field but the
      uid_ref, and a field the object does not have is gone or None. */
  ghost predicate SaysWhat(kit: Kit, r: KsmRow, o: Obj) {
    && r.key == o.key
    && (forall k | k != "uid_ref" && k != "keeper_uid" :: Get(NormPayload(kit, r.payload), k) == Get(o.payload, k))
    && (forall k | k != "uid_ref" && k != "keeper_uid" && k !in o.payload :: Get(r.payload, k) == JNull)
  }

  /** No object of the manifest has the key. */
  ghost predicate Unasked(env: KsmEnv, x: KsmRound, k: string) {
    forall o | o in DesiredOf(env, x) :: o.key != k
  }

  lemma SettledSays(kit: Kit, r: KsmRow, o: Obj)
    requires r.key == o.key && MatchedChange(o, LiveObj(kit, r)).kind == Noop && Indexed(kit, o)
    ensures SaysWhat(kit, r, o)
  {
    hide MatchedChange;
    var l := LiveObj(kit, r);
    MatchedIffDisagree(o, l);
    forall k | k != "uid_ref" && k != "keeper_uid"
      ensures Get(NormPayload(kit, r.payload), k) == Get(o.payload, k) && (k !in o.payload ==> Get(r.payload, k) == JNull)
    {
      assert !Disagree(l.payload, o.payload, k);
      PayloadIsNormal(kit, r.payload, k);
    }
  }

  /** After a round every object of the manifest is stored as it asks; of the other rows
      those that may be deleted are gone, and the rest are as they were. */
  lemma RoundStores(env: KsmEnv, all: Scope, s: State, x: KsmRound)
    requires Fit(env, all, x.planName) && Good(env, all, s.rows) && Covers(all, DesiredOf(env, x))
    ensures var out := Reconciled(env, s, x).rows;
            && (forall o | o in DesiredOf(env, x) :: exists r :: r in out && SaysWhat(env.kit, r, o))
            && forall r: KsmRow | Unasked(env, x, r.key) :: r in out <==> r in s.rows && !x.allowDelete
  {
    hide Reconciled, Good, DesiredOf, VerdictOn;
    var out := Reconciled(env, s, x);
    forall o | o in DesiredOf(env, x) ensures exists r :: r in out.rows && SaysWhat(env.kit, r, o) {
      DesiredIsStored(env, all, s, x, o);
    }
    forall r: KsmRow | Unasked(env, x, r.key)
      ensures r in out.rows <==> r in s.rows && !x.allowDelete
    {
      OtherIsKept(env, all, s, x, r);
    }
  }

  lemma DesiredIsStored(env: KsmEnv, all: Scope, s: State, x: KsmRound, o: Obj)
    requires Fit(env, all, x.planName) && Good(env, all, s.rows) && Covers(all, DesiredOf(env, x)) && o in DesiredOf(env, x)
    ensures exists r :: r in Reconciled(env, s, x).rows && SaysWhat(env.kit, r, o)
  {
    hide Reconciled, Good, DesiredOf, VerdictOn, SaysWhat, CreateChange, MatchedChange;
    var out := Reconciled(env, s, x);
    RoundIsPointwise(env, all, s, x, o.key);
    AskedIs(env, x, o);
    KeySettles(env, all, s, x, o.key);
    VerdictIsAt(env, all, out, x, o.key);
    UnmatchedRows(o, [], false);
    var r := At(out.rows, o.key);
    assert r.Some?;
    DesiredAreIndexed(env, x);
    SettledSays(env.kit, r.value, o);
  }

  lemma AskedIs(env: KsmEnv, x: KsmRound, o: Obj)
    requires o in DesiredOf(env, x)
    ensures Asked(env, x, o.key) == Some(o) && Has(DesiredOf(env, x), KEY_OF, o.key)
  {
    DesiredAreIndexed(env, x);
    WithIs(DesiredOf(env, x), o);
  }

  lemma OtherIsKept(env: KsmEnv, all: Scope, s: State, x: KsmRound, r: KsmRow)
    requires Fit(env, all, x.planName) && Good(env, all, s.rows) && Covers(all, DesiredOf(env, x))
    requires Unasked(env, x, r.key)
    ensures r in Reconciled(env, s, x).rows <==> r in s.rows && !x.allowDelete
  {
    hide Reconciled, DesiredOf, VerdictOn, OrphanChange, Effect;
    var out := Reconciled(env, s, x);
    RoundIsPointwise(env, all, s, x, r.key);
    VerdictIsAt(env, all, s, x, r.key);
    AskedIsIndexed(env, x, r.key);
    if r in s.rows { AtIs(s.rows, r); }
    if r in out.rows { AtIs(out.rows, r); }
    var before := At(s.rows, r.key);
    if before.Some? {
      assert GoodRow(env, all, before.value);
      OrphanEffect(env, x.planName, before.value, x.allowDelete);
    }
  }

  lemma OrphanEffect(env: KsmEnv, name: string, r: KsmRow, allowDelete: bool)
    ensures Effect(env, name, OrphanChange(LiveObj(env.kit, r), allowDelete), Some(r)) == if allowDelete then None else Some(r)
  {
    UnmatchedRows(LiveObj(env.kit, r), [], allowDelete);
    TypeIsBlock(ResourceOf(r.block), r.block);
  }

  /** Over whole runs: from an empty provider, after any rounds whose seeds tell their
      objects apart, the last manifest is stored as it asks. */
  lemma RunStores(env: KsmEnv, xs: seq<KsmRound>, x: KsmRound)
    requires Injective(env.stableUid) && SeedsTell(ScopeOf(env, xs + [x]))
    ensures var before := RunAll(env, State([], map[]), xs);
            var out := Reconciled(env, before, x).rows;
            && (forall o | o in DesiredOf(env, x) :: exists r :: r in out && SaysWhat(env.kit, r, o))
            && forall r: KsmRow | Unasked(env, x, r.key) :: r in out <==> r in before.rows && !x.allowDelete
  {
    var all := ScopeOf(env, xs + [x]);
    hide Reconciled, DesiredOf, SaysWhat, SeedsTell;
    AllDesiredSplits(env, xs, x);
    assert forall y | y in xs :: y in xs + [x];
    assert x in xs + [x];
    RunsStayGood(env, all, State([], map[]), xs);
    RoundStores(env, all, RunAll(env, State([], map[]), xs), x);
  }

  // --------------------------------------------------------------------------- discovery

  function BlockAt(b: Block): nat {
    match b case Apps => 0 case Tokens => 1 case RecordShares => 2 case ConfigOutputs => 3
  }

  /** A snapshot lists apps, tokens, shares and outputs, in that order. */
  lemma SnapshotIsOrdered(s: State, i: nat, j: nat)
    requires i < j < |Snapshot(s)|
    ensures BlockAt(Snapshot(s)[i].0) <= BlockAt(Snapshot(s)[j].0)
    ensures exists r :: r in s.rows && Snapshot(s)[i] == (r.block, r.payload)
  {
    var all := ByBlock(s.rows);
    forall b: Block ensures forall r :: r in OfBlock(s.rows, b) <==> r in s.rows && r.block == b { OfBlockMembers(s.rows, b); }
    assert all[i] in s.rows by { assert all[i] in all; }
    var a, t, h, o := OfBlock(s.rows, Apps), OfBlock(s.rows, Tokens), OfBlock(s.rows, RecordShares), OfBlock(s.rows, ConfigOutputs);
    assert all == a + t + h + o;
    forall k | 0 <= k < |all|
      ensures all[k].block == if k < |a| then Apps else if k < |a| + |t| then Tokens else if k < |a| + |t| + |h| then RecordShares else ConfigOutputs
    {
      if k < |a| { assert all[k] == a[k] && a[k] in a; }
      else if k < |a| + |t| { assert all[k] == t[k - |a|] && t[k - |a|] in t; }
      else if k < |a| + |t| + |h| { assert all[k] == h[k - |a| - |t|] && h[k - |a| - |t|] in h; }
      else { assert all[k] == o[k - |a| - |t| - |h|] && o[k - |a| - |t| - |h|] in o; }
    }
  }
}
