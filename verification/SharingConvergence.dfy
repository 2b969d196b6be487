/** Convergence of the sharing reconcile loop: record shares and share folders applied by
    the mock provider and planned again (keeper_sdk/core/sharing_diff.py,
    keeper_sdk/providers/mock.py). */
module SharingConvergence {
  import opened Json
  import opened OrderedDict
  import opened Plans
  import opened PamDiff
  import opened MockProvider
  import opened Names
  import opened SharingDiff
  import opened SharingPayloads
  import opened SharingRounds

  // ------------------------------------------------------------- what the rows leave

  /** The record that stands for a manifest row after the round. */
  function After(w: SharingRound, o: Share): LiveRecord
    requires o.key.Some?
  {
    var hit := HitRecord(w, o);
    var rows := RowForShare(w.env, w.st, o, hit);
    if hit.None? then Created(w.env, w.planName, CreateChange(w.st, o))
    else if rows != [] && rows[0].kind == Update then Updated(w.env, w.planName, rows[0], hit.value)
    else hit.value
  }

  lemma KeyOfRecordIs(env: Env, b: Block, r: LiveRecord)
    requires EmailSound(env) && r.resourceType == ResourceOf(b)
    ensures KeyOfRecord(env, r) == KeyOf(env, b, r.payload)
  {
    RecordKeyIs(env, b, r);
    KeyProjected(env, b, r.payload);
  }

  lemma CreatedKey(env: Env, name: string, st: ShareSettings, b: Block, o: Share)
    requires EmailSound(env) && Proper(env, b, o) && o.key.Some?
    ensures var x := Created(env, name, CreateChange(st, o));
            x.resourceType == ResourceOf(b) && KeyOfRecord(env, x) == o.key && Supported(x.marker)
  {
    var c := CreateChange(st, o);
    var x := Created(env, name, c);
    KeyStored(env, b, c.resourceType, c.after, env.serialize(NewMarker(env, name, c)));
    assert c.after == o.payload + map["marker" := st.marker(o)];
    KeyUpdated(env, b, o.payload, map["marker" := st.marker(o)]);
    KeyOfRecordIs(env, b, x);
  }

  lemma CreatedShows(env: Env, name: string, st: ShareSettings, b: Block, o: Share, f: string)
    requires EmailSound(env) && Proper(env, b, o) && o.key.Some? && f in Compared(b)
    ensures Get(LiveShareOf(env, b, Created(env, name, CreateChange(st, o))).payload, f) == Get(o.payload, f)
  {
    hide Shown, Project, WithMarkerText, Normalise;
    var c := CreateChange(st, o);
    var x := Created(env, name, c);
    ProjectShows(env, b, x.payload, f);
    StoringShows(env, b, c.after, env.serialize(NewMarker(env, name, c)), f);
    assert c.after == o.payload + map["marker" := st.marker(o)];
    UpdateShows(b, o.payload, map["marker" := st.marker(o)], f);
  }

  /** The update row of a matched pair. */
  ghost predicate UpdateRow(b: Block, c: Change, l: LiveShare, o: Share) {
    c.kind == Update && c.resourceType == ResourceOf(b) && c.after == Picked(o.payload, Drift(b, l.payload, o.payload))
  }

  /** An update of compared fields, as the diff makes them. */
  ghost predicate ComparesOnly(c: Change) {
    c.kind == Update ==> forall k | k in c.after :: k in Compared(ShareFolder)
  }

  /** Whatever record it falls on, such an update leaves the key. */
  lemma UpdateKeepsKey(env: Env, name: string, c: Change, r: LiveRecord)
    requires EmailSound(env) && c.kind == Update && ComparesOnly(c)
    ensures KeyOfRecord(env, Updated(env, name, c, r)) == KeyOfRecord(env, r)
  {
    hide KeyOf, Normalise, WithMarkerText, Project;
    if r.resourceType == RECORD_SHARE { UpdateKeepsKeyIn(env, name, RecordShare, c, r); }
    if r.resourceType == SHARE_FOLDER { UpdateKeepsKeyIn(env, name, ShareFolder, c, r); }
  }

  lemma UpdateKeepsKeyIn(env: Env, name: string, b: Block, c: Change, r: LiveRecord)
    requires EmailSound(env) && c.kind == Update && ComparesOnly(c) && r.resourceType == ResourceOf(b)
    ensures KeyOfRecord(env, Updated(env, name, c, r)) == KeyOfRecord(env, r)
  {
    hide KeyOf, Normalise, WithMarkerText, KeyOfRecord, Project;
    var x := Updated(env, name, c, r);
    KeyStored(env, b, c.resourceType, r.payload + c.after, env.serialize(UpdatedMarker(env, name, c, r)));
    KeyUpdated(env, b, r.payload, c.after);
    KeyOfRecordIs(env, b, x);
    KeyOfRecordIs(env, b, r);
  }

  lemma UpdatedKey(env: Env, name: string, b: Block, c: Change, r: LiveRecord, o: Share)
    requires EmailSound(env) && r.resourceType == ResourceOf(b) && UpdateRow(b, c, LiveShareOf(env, b, r), o)
    ensures var x := Updated(env, name, c, r);
            && x.resourceType == ResourceOf(b) && KeyOfRecord(env, x) == KeyOfRecord(env, r)
            && (Supported(r.marker) ==> Supported(x.marker))
  {
    ComparedByFolders(b);
    UpdateKeepsKey(env, name, c, r);
  }

  /** Merging the drifting fields makes every compared field show the desired value. */
  lemma MergeShows(env: Env, b: Block, p: Dict, o: Share, f: string)
    requires f in Compared(b)
    ensures var after := Picked(o.payload, Drift(b, Project(env, b, p), o.payload));
            Shown(b, p + after, f) == Get(o.payload, f)
  {
    var drift := Drift(b, Project(env, b, p), o.payload);
    ProjectShows(env, b, p, f);
    UpdateShows(b, p, Picked(o.payload, drift), f);
  }

  lemma UpdatedShows(env: Env, name: string, b: Block, c: Change, r: LiveRecord, o: Share, f: string)
    requires EmailSound(env) && r.resourceType == ResourceOf(b) && UpdateRow(b, c, LiveShareOf(env, b, r), o) && f in Compared(b)
    ensures Get(LiveShareOf(env, b, Updated(env, name, c, r)).payload, f) == Get(o.payload, f)
  {
    var x := Updated(env, name, c, r);
    MergeShows(env, b, r.payload, o, f);
    StoringShows(env, b, r.payload + c.after, env.serialize(UpdatedMarker(env, name, c, r)), f);
    ProjectShows(env, b, x.payload, f);
  }

  lemma RowForIsUpdate(env: Env, st: ShareSettings, b: Block, o: Share, r: LiveRecord)
    requires o.block == b && o.key.Some?
    ensures var rows := RowForShare(env, st, o, Some(r));
            rows != [] && rows[0].kind == Update ==> UpdateRow(b, rows[0], LiveShareOf(env, b, r), o) && rows[0].keeperUid == Some(r.keeperUid)
    ensures var rows := RowForShare(env, st, o, Some(r));
            (rows == [] ==> Drift(b, LiveShareOf(env, b, r).payload, o.payload) == {})
            && (rows != [] && rows[0].kind != Update ==> rows[0].kind == Skip && !Managed(r.marker, st.name))
  {}

  /** The record of a manifest row: of its block, under its key, readable, and carrying what
      the manifest says unless it is not managed. */
  lemma AfterFacts(w: SharingRound, b: Block, o: Share)
    requires Planned(w) && o in SharesOf(w, b)
    requires HitRecord(w, o).Some? ==> Supported(HitRecord(w, o).value.marker)
    ensures o.key.Some?
    ensures var x := After(w, o);
            && x.resourceType == ResourceOf(b) && KeyOfRecord(w.env, x) == o.key && Supported(x.marker)
            && (Drift(b, LiveShareOf(w.env, b, x).payload, o.payload) == {} || !Managed(x.marker, w.st.name))
  {
    HitIs(w, b, o);
    assert Proper(w.env, b, o);
    var x, hit := After(w, o), HitRecord(w, o);
    if hit.None? {
      CreatedKey(w.env, w.planName, w.st, b, o);
      forall f | f in Compared(b) ensures Get(LiveShareOf(w.env, b, x).payload, f) == Get(o.payload, f) {
        CreatedShows(w.env, w.planName, w.st, b, o, f);
      }
    } else {
      var rows := RowForShare(w.env, w.st, o, hit);
      RowForIsUpdate(w.env, w.st, b, o, hit.value);
      assert KeyOfRecord(w.env, hit.value) == o.key;
      if rows != [] && rows[0].kind == Update {
        UpdatedKey(w.env, w.planName, b, rows[0], hit.value, o);
        forall f | f in Compared(b) ensures Get(LiveShareOf(w.env, b, x).payload, f) == Get(o.payload, f) {
          UpdatedShows(w.env, w.planName, b, rows[0], hit.value, o, f);
        }
      }
    }
  }

  // --------------------------------------------------------------- the first stays first

  ghost predicate FirstIsAt(env: Env, store: seq<LiveRecord>, k: ShareKey, uid: string) {
    var first := Lookup(store, RecordKey(env), Some(k));
    first.Some? && first.value.keeperUid == uid
  }

  /** The row leaves the first record under a key the first: updates keep keys, a delete
      takes another record, and a create is appended or replaces another record by one
      with another key. */
  ghost predicate Harmless(env: Env, name: string, store: seq<LiveRecord>, c: Change, k: ShareKey, uid: string) {
    && ComparesOnly(c)
    && (c.kind == Create && Find(store, Target(env, name, c)).Some? ==>
          Target(env, name, c) != uid && KeyOfRecord(env, Created(env, name, c)) != Some(k))
    && (c.kind == Delete ==> Target(env, name, c) != uid)
  }

  /** Replacing a record by one under the same key, or another record by one under another
      key, leaves the first record under the key in its place. */
  lemma FirstStaysOnPut(env: Env, store: seq<LiveRecord>, r: LiveRecord, k: ShareKey, uid: string)
    requires DistinctUids(store) && FirstIsAt(env, store, k, uid)
    requires Find(store, r.keeperUid).Some? ==>
               KeyOfRecord(env, r) == KeyOfRecord(env, Find(store, r.keeperUid).value)
               || (r.keeperUid != uid && KeyOfRecord(env, r) != Some(k))
    ensures FirstIsAt(env, Put(store, r), k, uid)
  {
    hide KeyOfRecord;
    var key := RecordKey(env);
    var i, j := Position(store, key, Some(k)), Position(store, KEEPER_UID_OF, r.keeperUid);
    if j < |store| {
      PositionIs(Put(store, r), key, Some(k), i);
    } else {
      AppendedPosition(store, key, r, Some(k));
    }
  }

  lemma FirstStaysOnDelete(env: Env, name: string, store: seq<LiveRecord>, c: Change, k: ShareKey, uid: string)
    requires DistinctUids(store) && FirstIsAt(env, store, k, uid) && c.kind == Delete && Target(env, name, c) != uid
    ensures FirstIsAt(env, ApplyRow(env, name, store, c), k, uid)
  {
    hide KeyOfRecord, Target, DistinctUids;
    var key := RecordKey(env);
    var i, j := Position(store, key, Some(k)), Position(store, KEEPER_UID_OF, Target(env, name, c));
    if j < |store| {
      PositionIs(ApplyRow(env, name, store, c), key, Some(k), if j < i then i - 1 else i);
    }
  }

  lemma FirstStays(env: Env, name: string, store: seq<LiveRecord>, c: Change, k: ShareKey, uid: string)
    requires EmailSound(env) && DistinctUids(store) && FirstIsAt(env, store, k, uid) && Harmless(env, name, store, c, k, uid)
    ensures FirstIsAt(env, ApplyRow(env, name, store, c), k, uid)
  {
    hide FirstIsAt, KeyOfRecord;
    if c.kind == Create {
      assert Created(env, name, c).keeperUid == Target(env, name, c);
      FirstStaysOnPut(env, store, Created(env, name, c), k, uid);
    } else if c.kind == Update {
      var existing := Find(store, Target(env, name, c));
      if existing.Some? {
        UpdateKeepsKey(env, name, c, existing.value);
        FirstStaysOnPut(env, store, Updated(env, name, c, existing.value), k, uid);
      }
    } else if c.kind == Delete {
      FirstStaysOnDelete(env, name, store, c, k, uid);
    }
  }

  lemma {:induction false} FirstStaysThroughout(env: Env, name: string, store: seq<LiveRecord>, cs: seq<Change>, k: ShareKey, uid: string)
    requires EmailSound(env) && DistinctUids(store) && DistinctTargets(env, name, cs) && FirstIsAt(env, store, k, uid)
    requires forall c | c in cs :: Harmless(env, name, store, c, k, uid)
    ensures FirstIsAt(env, Run(env, name, false, store, cs), k, uid)
    decreases |cs|
  {
    hide FirstIsAt, KeyOfRecord;
    if cs != [] {
      var next := ApplyRow(env, name, store, cs[0]);
      assert cs[0] in cs;
      FirstStays(env, name, store, cs[0], k, uid);
      RowIsPointwise(env, name, store, cs[0], "");
      forall c | c in cs[1..] ensures Harmless(env, name, next, c, k, uid) {
        var j :| 0 <= j < |cs[1..]| && cs[1..][j] == c;
        assert cs[j + 1] == c && c in cs;
        RowIsPointwise(env, name, store, cs[0], Target(env, name, c));
      }
      FirstStaysThroughout(env, name, next, cs[1..], k, uid);
    }
  }

  // -------------------------------------------------------------------- after the round

  ghost predicate RowComesFrom(w: SharingRound, b: Block, o: Share, c: Change) {
    o in SharesOf(w, b) && o.key.Some? && c in RowForShare(w.env, w.st, o, HitRecord(w, o)) && c.kind in {Create, Update}
  }

  ghost predicate Removes(w: SharingRound, b: Block, r: LiveRecord, c: Change) {
    && OrphanRecord(w, b, r) && c.kind == Delete && c.keeperUid == Some(r.keeperUid)
    && Managed(r.marker, w.st.name) && w.st.allowDelete
  }

  /** What is executed: the actionable rows of both blocks. */
  lemma ExecutedAre(w: SharingRound, c: Change)
    requires Planned(w)
    ensures c in Executed(w) <==> (exists b: Block :: c in RowsOf(w, b).rows) && c.kind in {Create, Update, Delete}
  {
    OrderedIsPermutation(PlanOf(w));
    var all := PlanOf(w).changes;
    assert all == RowsOf(w, RecordShare).rows + RowsOf(w, ShareFolder).rows;
    if b: Block :| c in RowsOf(w, b).rows {
      if b == RecordShare { assert c in all; } else { assert b == ShareFolder && c in all; }
    }
    if c in all { assert c in RowsOf(w, RecordShare).rows || c in RowsOf(w, ShareFolder).rows; }
  }

  lemma OrphanRowIs(w: SharingRound, b: Block, r: LiveRecord)
    requires LiveShareOf(w.env, b, r).key.Some?
    ensures var c := OrphanShare(b, w.st, LiveShareOf(w.env, b, r));
            && c.keeperUid == Some(r.keeperUid)
            && (c.kind == Delete <==> Managed(r.marker, w.st.name) && w.st.allowDelete)
            && c.kind in {Delete, Skip, Conflict}
            && (c.kind != Delete ==> c.kind == OrphanShare(b, w.st, LiveShareOf(w.env, b, r)).kind)
  {}

  lemma RowForKinds(env: Env, st: ShareSettings, o: Share, hit: Option<LiveRecord>, c: Change)
    requires o.key.Some? && c in RowForShare(env, st, o, hit)
    ensures c.kind in {Create, Update, Skip}
  {}

  lemma DesiredSource(w: SharingRound, b: Block, c: Change)
    requires FromDesired(w, b, c) && c.kind in {Create, Update, Delete}
    ensures exists o :: RowComesFrom(w, b, o, c)
  {
    var o :| o in SharesOf(w, b) && o.key.Some? && c in RowForShare(w.env, w.st, o, HitRecord(w, o));
    RowForKinds(w.env, w.st, o, HitRecord(w, o), c);
    assert RowComesFrom(w, b, o, c);
  }

  lemma OrphanSource(w: SharingRound, b: Block, c: Change)
    requires FromOrphan(w, b, c) && c.kind in {Create, Update, Delete}
    ensures exists r :: Removes(w, b, r, c)
  {
    var r :| OrphanRecord(w, b, r) && LiveShareOf(w.env, b, r).key.Some? && c == OrphanShare(b, w.st, LiveShareOf(w.env, b, r));
    OrphanRowIs(w, b, r);
    assert Removes(w, b, r, c);
  }

  lemma RowHasSource(w: SharingRound, b: Block, c: Change)
    requires Planned(w) && NoRefHits(w) && c in RowsOf(w, b).rows && c.kind in {Create, Update, Delete}
    ensures (exists o :: RowComesFrom(w, b, o, c)) || (exists r :: Removes(w, b, r, c))
  {
    RowsAre(w, b, c);
    if FromDesired(w, b, c) { DesiredSource(w, b, c); } else { OrphanSource(w, b, c); }
  }

  /** Every executed row is the row of a manifest row, or deletes an orphan. */
  lemma ExecutedOrigin(w: SharingRound, c: Change)
    requires Planned(w) && NoRefHits(w) && c in Executed(w)
    ensures (exists b, o :: RowComesFrom(w, b, o, c)) || (exists b, r :: Removes(w, b, r, c))
  {
    ExecutedAre(w, c);
    var b: Block :| c in RowsOf(w, b).rows;
    RowHasSource(w, b, c);
  }

  lemma DesiredIsExecuted(w: SharingRound, b: Block, o: Share, c: Change)
    requires Planned(w) && NoRefHits(w) && RowComesFrom(w, b, o, c)
    ensures c in Executed(w)
  {
    RowsAre(w, b, c);
    assert FromDesired(w, b, c);
    ExecutedAre(w, c);
  }

  lemma OrphanIsExecuted(w: SharingRound, b: Block, r: LiveRecord)
    requires Planned(w) && NoRefHits(w) && OrphanRecord(w, b, r) && Managed(r.marker, w.st.name) && w.st.allowDelete
    ensures exists c :: c in Executed(w) && Removes(w, b, r, c)
  {
    EverythingKeyed(w, b);
    var c := OrphanShare(b, w.st, LiveShareOf(w.env, b, r));
    OrphanRowIs(w, b, r);
    RowsAre(w, b, c);
    assert FromOrphan(w, b, c);
    ExecutedAre(w, c);
    assert Removes(w, b, r, c);
  }

  lemma ExecutedTargets(w: SharingRound, c: Change)
    requires Planned(w) && NoRefHits(w) && c in Executed(w)
    ensures (exists b, o :: RowComesFrom(w, b, o, c) && RowUid(w, o) == Target(w.env, w.planName, c))
         || (exists b, r :: Removes(w, b, r, c) && r.keeperUid == Target(w.env, w.planName, c))
  {
    ExecutedOrigin(w, c);
    if b, o :| RowComesFrom(w, b, o, c) {
      RowTargets(w, b, o, c);
    } else {
      var b, r :| Removes(w, b, r, c);
      assert Target(w.env, w.planName, c) == r.keeperUid;
    }
  }

  /** The markers the diff looked at were readable. */
  lemma MatchedIsReadable(w: SharingRound, b: Block, o: Share)
    requires Planned(w) && o in SharesOf(w, b) && HitRecord(w, o).Some?
    ensures Supported(HitRecord(w, o).value.marker)
  {
    EverythingKeyed(w, b);
    HitIs(w, b, o);
    assert !Unreadable(LiveOf(w.env, b, w.store), SharesOf(w, b));
  }

  lemma OrphanIsReadable(w: SharingRound, b: Block, r: LiveRecord)
    requires Planned(w) && NoRefHits(w) && OrphanRecord(w, b, r)
    ensures Supported(r.marker)
  {
    EverythingKeyed(w, b);
    var i := PositionOfLive(w, b, r);
    UnmatchedIsOrphan(w, b, i, r);
    assert !Unreadable(LiveOf(w.env, b, w.store), SharesOf(w, b));
  }

  lemma SameUidSameRow(w: SharingRound, b: Block, o: Share, d: Block, p: Share)
    requires Sane(w) && o in SharesOf(w, b) && p in SharesOf(w, d) && RowUid(w, o) == RowUid(w, p)
    ensures b == d && o == p
  {
    hide RowUid, RowsOf, NoConflict, Spared, DistinctBy;
    if b == d {
      DesiredUidsDistinct(w, b);
      DistinctAt(SharesOf(w, b), UidKey(w), o, p);
    } else {
      HitIs(w, b, o);
      HitIs(w, d, p);
      RowUidsDiffer(w, b, o, d, p);
    }
  }

  lemma DistinctAt<T, K>(xs: seq<T>, key: T -> K, a: T, b: T)
    requires DistinctBy(xs, key) && a in xs && b in xs && key(a) == key(b)
    ensures a == b
  {
    var i :| 0 <= i < |xs| && xs[i] == a;
    var j :| 0 <= j < |xs| && xs[j] == b;
    assert key(xs[i]) == key(xs[j]);
  }

  /** After the round the record of each manifest row is there. */
  lemma RecordAfter(w: SharingRound, b: Block, o: Share)
    requires Sane(w) && o in SharesOf(w, b)
    ensures o.key.Some? && Find(Final(w), RowUid(w, o)) == Some(After(w, o))
  {
    hide Run, NoConflict, Spared, RowsOf;
    HitIs(w, b, o);
    TargetsAreDistinct(w);
    var cs := Executed(w);
    if HitRecord(w, o).Some? { FindIs(w.store, HitRecord(w, o).value); }
    if c :| RowComesFrom(w, b, o, c) {
      DesiredIsExecuted(w, b, o, c);
      RowTargets(w, b, o, c);
      RowOfRecord(w, b, o, c);
      var k :| 0 <= k < |cs| && cs[k] == c;
      TargetedChanges(w.env, w.planName, w.store, cs, k);
    } else {
      forall c | c in cs ensures Target(w.env, w.planName, c) != RowUid(w, o) { NotItsRow(w, b, o, c); }
      UntargetedStays(w.env, w.planName, w.store, cs, RowUid(w, o));
      NoRowNoChange(w, b, o);
    }
  }

  /** The one row of a manifest row makes its record what `After` says. */
  lemma RowOfRecord(w: SharingRound, b: Block, o: Share, c: Change)
    requires Planned(w) && RowComesFrom(w, b, o, c)
    ensures c.kind == Create <==> HitRecord(w, o).None?
    ensures Effect(w.env, w.planName, c, HitRecord(w, o)) == Some(After(w, o))
  {
    hide LiveShareOf, Drift, Managed, ShareTitle, Created, Updated, Planned, HitRecord, Picked;
  }

  lemma NoRowNoChange(w: SharingRound, b: Block, o: Share)
    requires Planned(w) && o in SharesOf(w, b) && o.key.Some? && !exists c :: RowComesFrom(w, b, o, c)
    ensures HitRecord(w, o).Some? && After(w, o) == HitRecord(w, o).value
  {
    var rows := RowForShare(w.env, w.st, o, HitRecord(w, o));
    if rows != [] {
      assert rows[0] in rows;
      assert !RowComesFrom(w, b, o, rows[0]);
    }
  }

  lemma NotItsRow(w: SharingRound, b: Block, o: Share, c: Change)
    requires Sane(w) && o in SharesOf(w, b) && c in Executed(w) && !exists x :: RowComesFrom(w, b, o, x)
    ensures Target(w.env, w.planName, c) != RowUid(w, o)
  {
    ExecutedTargets(w, c);
    if d, p :| RowComesFrom(w, d, p, c) && RowUid(w, p) == Target(w.env, w.planName, c) {
      if RowUid(w, p) == RowUid(w, o) { SameUidSameRow(w, b, o, d, p); }
    } else {
      var d, r :| Removes(w, d, r, c) && r.keeperUid == Target(w.env, w.planName, c);
      assert Doomed(w, r);
      OrphanIsNotRow(w, b, o, d, r);
    }
  }

  /** Untouched: of no manifest row, and no executed row's target. */
  ghost predicate Stayed(w: SharingRound, x: LiveRecord)
    requires Planned(w)
  {
    && x in w.store
    && (forall b: Block, o | o in SharesOf(w, b) :: RowUid(w, o) != x.keeperUid)
    && (forall c | c in Executed(w) :: Target(w.env, w.planName, c) != x.keeperUid)
  }

  ghost predicate StandsFor(w: SharingRound, b: Block, o: Share, x: LiveRecord) {
    o in SharesOf(w, b) && o.key.Some? && x == After(w, o) && x.keeperUid == RowUid(w, o)
  }

  /** After the round a record stands for a manifest row or stayed as it was. */
  lemma RecordBefore(w: SharingRound, x: LiveRecord)
    requires Sane(w) && x in Final(w)
    ensures DistinctUids(Final(w))
    ensures (exists b, o :: StandsFor(w, b, o, x)) || Stayed(w, x)
  {
    hide After, Effect, ApplyRow, RowUid, Executed, SharesOf;
    RowsKeepDistinct(w.env, w.planName, w.store, Executed(w));
    FindIs(Final(w), x);
    if b: Block, o :| o in SharesOf(w, b) && RowUid(w, o) == x.keeperUid {
      RecordAfter(w, b, o);
      assert StandsFor(w, b, o, x);
    } else {
      forall c | c in Executed(w) ensures Target(w.env, w.planName, c) != x.keeperUid {
        ExecutedTargets(w, c);
        if c.kind == Delete { DeletedIsGone(w, c); }
      }
      UntargetedStays(w.env, w.planName, w.store, Executed(w), x.keeperUid);
    }
  }

  lemma AfterIs(w: SharingRound, b: Block, o: Share)
    requires Sane(w) && o in SharesOf(w, b)
    ensures o.key.Some? && o.key.value.block == b && After(w, o) in Final(w) && After(w, o).keeperUid == RowUid(w, o)
    ensures var x := After(w, o);
            && x.resourceType == ResourceOf(b) && KeyOfRecord(w.env, x) == o.key && Supported(x.marker)
            && (Drift(b, LiveShareOf(w.env, b, x).payload, o.payload) == {} || !Managed(x.marker, w.st.name))
  {
    HitIs(w, b, o);
    RecordAfter(w, b, o);
    if HitRecord(w, o).Some? { MatchedIsReadable(w, b, o); }
    AfterFacts(w, b, o);
  }

  lemma CreateIsHarmless(w: SharingRound, b: Block, o: Share, d: Block, p: Share, c: Change)
    requires Sane(w) && o in SharesOf(w, b) && o.key.Some? && HitRecord(w, o).Some? && RowComesFrom(w, d, p, c) && c.kind == Create
    ensures Harmless(w.env, w.planName, w.store, c, o.key.value, RowUid(w, o))
  {
    hide NoConflict, NoRefHits, Spared, RowUid, HitRecord, KeyOfRecord, RowsOf;
    RowTargets(w, d, p, c);
    RowOfRecord(w, d, p, c);
    HitIs(w, b, o);
    HitIs(w, d, p);
    CreatedKey(w.env, w.planName, w.st, d, p);
    assert RowUid(w, p) != RowUid(w, o) && p.key != o.key by {
      if RowUid(w, p) == RowUid(w, o) { SameUidSameRow(w, b, o, d, p); }
      if p.key == o.key { SameKeySameRow(w, b, o, p); }
    }
    UnmatchedRowIs(w, p, c);
  }

  lemma UnmatchedRowIs(w: SharingRound, p: Share, c: Change)
    requires p.key.Some? && HitRecord(w, p).None? && c in RowForShare(w.env, w.st, p, HitRecord(w, p))
    ensures c == CreateChange(w.st, p)
  {
    assert RowForShare(w.env, w.st, p, None) == [CreateChange(w.st, p)];
  }

  /** Updates of the diff write compared fields. */
  lemma RowsCompareOnly(w: SharingRound, d: Block, p: Share, c: Change)
    requires Planned(w) && RowComesFrom(w, d, p, c)
    ensures ComparesOnly(c) && c.resourceType == ResourceOf(d)
  {
    hide Project, Managed, ShareTitle, RowsOf, HitRecord;
    assert Proper(w.env, d, p);
    ComparedByFolders(d);
  }

  lemma ExecutedIsHarmless(w: SharingRound, b: Block, o: Share, c: Change)
    requires Sane(w) && o in SharesOf(w, b) && o.key.Some? && HitRecord(w, o).Some? && c in Executed(w)
    ensures Harmless(w.env, w.planName, w.store, c, o.key.value, RowUid(w, o))
  {
    hide NoConflict, Spared, RowUid, HitRecord, RowsOf, Doomed, RowComesFrom;
    ExecutedTargets(w, c);
    if d, p :| RowComesFrom(w, d, p, c) {
      RowsCompareOnly(w, d, p, c);
      SourceKinds(w, d, p, c);
      if c.kind == Create { CreateIsHarmless(w, b, o, d, p, c); }
    } else {
      var d, r :| Removes(w, d, r, c) && r.keeperUid == Target(w.env, w.planName, c);
      OrphanIsNotRow(w, b, o, d, r);
    }
  }

  lemma SourceKinds(w: SharingRound, d: Block, p: Share, c: Change)
    requires RowComesFrom(w, d, p, c)
    ensures c.kind in {Create, Update}
  {}

  /** After the round a manifest row matches its own record. */
  lemma MatchesAfter(w: SharingRound, b: Block, o: Share)
    requires Sane(w) && o in SharesOf(w, b)
    ensures Lookup(Final(w), RecordKey(w.env), o.key) == Some(After(w, o))
  {
    AfterIs(w, b, o);
    RecordBefore(w, After(w, o));
    if HitRecord(w, o).Some? {
      TargetsAreDistinct(w);
      forall c | c in Executed(w) ensures Harmless(w.env, w.planName, w.store, c, o.key.value, RowUid(w, o)) {
        ExecutedIsHarmless(w, b, o, c);
      }
      FirstStaysThroughout(w.env, w.planName, w.store, Executed(w), o.key.value, RowUid(w, o));
      SameUidSameRecord(Final(w), Lookup(Final(w), RecordKey(w.env), o.key).value, After(w, o));
    } else {
      var found := Lookup(Final(w), RecordKey(w.env), o.key);
      assert RecordKey(w.env)(After(w, o)) == o.key;
      assert found.Some?;
      OnlyItsRecord(w, b, o, found.value);
    }
  }

  lemma OnlyItsRecord(w: SharingRound, b: Block, o: Share, x: LiveRecord)
    requires Sane(w) && o in SharesOf(w, b) && HitRecord(w, o).None? && x in Final(w) && KeyOfRecord(w.env, x) == o.key
    ensures o.key.Some? && x == After(w, o)
  {
    AfterIs(w, b, o);
    RecordBefore(w, x);
    assert RecordKey(w.env)(x) == o.key;
    if d: Block, p :| StandsFor(w, d, p, x) {
      AfterIs(w, d, p);
      SameKeySameRow(w, b, o, p);
    }
  }

  lemma SameKeySameRow(w: SharingRound, b: Block, o: Share, p: Share)
    requires Planned(w) && o in SharesOf(w, b) && p in SharesOf(w, b) && o.key == p.key
    ensures o == p
  {
    var ds := SharesOf(w, b);
    forall i, j | 0 <= i < j < |ds| ensures ds[i].key != ds[j].key { IndexableAt(w, b, i, j); }
    var i :| 0 <= i < |ds| && ds[i] == o;
    var j :| 0 <= j < |ds| && ds[j] == p;
  }

  /** The next round, with the same manifest. */
  ghost function Next(w: SharingRound): SharingRound
    requires Planned(w)
  {
    w.(store := Final(w))
  }

  /** A record that stayed and belongs to the block was an orphan before. */
  lemma StayedIsOrphan(w: SharingRound, b: Block, x: LiveRecord)
    requires Sane(w) && Stayed(w, x) && x.resourceType == ResourceOf(b)
    ensures OrphanRecord(w, b, x)
    ensures LiveShareOf(w.env, b, x).key.Some? && Supported(x.marker)
    ensures OrphanShare(b, w.st, LiveShareOf(w.env, b, x)).kind == Skip
  {
    hide Spared, Run, Drift, Project, ShareTitle;
    forall o | o in SharesOf(w, b) ensures HitRecord(w, o) != Some(x) { assert RowUid(w, o) != x.keeperUid; }
    OrphanIsReadable(w, b, x);
    EverythingKeyed(w, b);
    var c := OrphanShare(b, w.st, LiveShareOf(w.env, b, x));
    OrphanRowIs(w, b, x);
    RowsAre(w, b, c);
    assert FromOrphan(w, b, c);
    assert c in PlanOf(w).changes by { InPlan(w, b, c); }
    assert forall d | d in Executed(w) :: !Removes(w, b, x, d);
    if Managed(x.marker, w.st.name) && w.st.allowDelete { OrphanIsExecuted(w, b, x); }
  }

  lemma InPlan(w: SharingRound, b: Block, c: Change)
    requires Planned(w) && c in RowsOf(w, b).rows
    ensures c in PlanOf(w).changes
  {
    if b == RecordShare {
      assert c in RowsOf(w, RecordShare).rows + RowsOf(w, ShareFolder).rows;
    } else {
      assert b == ShareFolder && c in RowsOf(w, RecordShare).rows + RowsOf(w, ShareFolder).rows;
    }
  }

  /** What the next diff sees of a block: records of manifest rows, and orphans to skip. */
  lemma NextLive(w: SharingRound, b: Block, i: nat)
    requires Sane(w) && i < |LiveOf(w.env, b, Final(w))|
    ensures var l := LiveOf(w.env, b, Final(w))[i];
            && l.key.Some? && Supported(l.marker)
            && ((exists o :: o in SharesOf(w, b) && o.key.Some? && l == LiveShareOf(w.env, b, After(w, o)))
                || OrphanShare(b, w.st, l).kind == Skip)
  {
    var r := RecordOfLive(Next(w), b, i);
    RecordBefore(w, r);
    if d: Block, o :| StandsFor(w, d, o, r) {
      AfterIs(w, d, o);
      BlocksDiffer(b, d);
      RecordKeyIs(w.env, b, r);
    } else {
      StayedIsOrphan(w, b, r);
    }
  }

  lemma NextHits(w: SharingRound, b: Block, o: Share)
    requires Sane(w) && o in SharesOf(w, b)
    ensures o.key.Some?
    ensures var live := LiveOf(w.env, b, Final(w));
            HitOf(live, o).ByKey? && live[HitOf(live, o).i] == LiveShareOf(w.env, b, After(w, o)) && Supported(After(w, o).marker)
  {
    AfterIs(w, b, o);
    MatchesAfter(w, b, o);
    FirstIsFirst(w.env, b, Final(w), o.key.value);
  }

  lemma NextKeyed(w: SharingRound, b: Block)
    requires Sane(w)
    ensures forall x | x in LiveOf(w.env, b, Final(w)) :: x.key.Some?
    ensures forall i: nat | i < |LiveOf(w.env, b, Final(w))| :: Supported(LiveOf(w.env, b, Final(w))[i].marker)
  {
    var live := LiveOf(w.env, b, Final(w));
    forall i: nat | i < |live| ensures live[i].key.Some? && Supported(live[i].marker) { NextLive(w, b, i); }
  }

  lemma NextMatches(w: SharingRound, b: Block)
    requires Sane(w)
    ensures forall o | o in SharesOf(w, b) :: o.key.Some? && HitOf(LiveOf(w.env, b, Final(w)), o).ByKey?
    ensures !Unreadable(LiveOf(w.env, b, Final(w)), SharesOf(w, b))
  {
    var live := LiveOf(w.env, b, Final(w));
    forall o | o in SharesOf(w, b)
      ensures o.key.Some? && HitOf(live, o).ByKey? && Supported(live[HitOf(live, o).i].marker)
    {
      NextHits(w, b, o);
    }
    NextKeyed(w, b);
  }

  /** The next diff of a block raises nothing ... */
  lemma NextIsReadable(w: SharingRound, b: Block)
    requires Sane(w)
    ensures RowsOf(Next(w), b).BlockRows?
  {
    assert RowsOf(w, b).BlockRows? && Indexable(SharesOf(w, b));
    NextMatches(w, b);
    NextKeyed(w, b);
  }

  lemma NextDesiredSkip(w: SharingRound, b: Block)
    requires Sane(w)
    ensures forall o | o in SharesOf(w, b) :: o.key.Some?
    ensures forall c | c in ShareRows(w.st, LiveOf(w.env, b, Final(w)), SharesOf(w, b)) :: c.kind == Skip
  {
    var live, ds := LiveOf(w.env, b, Final(w)), SharesOf(w, b);
    NextMatches(w, b);
    ShareRowsAre(w.st, live, ds);
    forall o, c | o in ds && c in DesiredRow(w.st, live, o) ensures c.kind == Skip { NextRowSkips(w, b, o, c); }
  }

  lemma NextOrphansSkip(w: SharingRound, b: Block)
    requires Sane(w)
    ensures forall o | o in SharesOf(w, b) :: o.key.Some?
    ensures var rest := Unmatched(LiveOf(w.env, b, Final(w)), MatchedShares(LiveOf(w.env, b, Final(w)), SharesOf(w, b)));
            forall x | x in rest :: x.key.Some? && OrphanShare(b, w.st, x).kind == Skip
  {
    NextMatches(w, b);
    var live := LiveOf(w.env, b, Final(w));
    var matched := MatchedShares(live, SharesOf(w, b));
    UnmatchedAre(live, matched);
    forall x | x in Unmatched(live, matched) ensures x.key.Some? && OrphanShare(b, w.st, x).kind == Skip {
      var i: nat :| i < |live| && i !in matched && live[i] == x;
      NextOrphanSkips(w, b, i);
    }
  }

  lemma OrphanKinds(b: Block, st: ShareSettings, rest: seq<LiveShare>)
    requires forall x | x in rest :: x.key.Some? && OrphanShare(b, st, x).kind == Skip
    ensures forall c | c in OrphanShares(b, st, rest) :: c.kind == Skip
  {
    forall i | 0 <= i < |rest| ensures OrphanShares(b, st, rest)[i].kind == Skip { assert rest[i] in rest; }
  }

  /** ... and finds nothing to do: its rows are only SKIPs. */
  lemma NextSkips(w: SharingRound, b: Block)
    requires Sane(w)
    ensures RowsOf(Next(w), b).BlockRows? && forall c | c in RowsOf(Next(w), b).rows :: c.kind == Skip
  {
    NextIsReadable(w, b);
    NextDesiredSkip(w, b);
    NextOrphansSkip(w, b);
    var live := LiveOf(w.env, b, Final(w));
    OrphanKinds(b, w.st, Unmatched(live, MatchedShares(live, SharesOf(w, b))));
  }

  lemma NextRowSkips(w: SharingRound, b: Block, o: Share, c: Change)
    requires Sane(w) && o in SharesOf(w, b) && o.key.Some? && c in DesiredRow(w.st, LiveOf(w.env, b, Final(w)), o)
    ensures c.kind == Skip
  {
    NextHits(w, b, o);
    AfterIs(w, b, o);
    assert Proper(w.env, b, o);
    SkippedRow(w.st, LiveOf(w.env, b, Final(w)), o);
  }

  lemma SkippedRow(st: ShareSettings, live: seq<LiveShare>, o: Share)
    requires o.key.Some? && HitOf(live, o).ByKey?
    requires var l := live[HitOf(live, o).i]; Drift(o.block, l.payload, o.payload) == {} || !Managed(l.marker, st.name)
    ensures forall c | c in DesiredRow(st, live, o) :: c.kind == Skip
  {}

  /** An unmatched row of the next diff is no manifest row's record. */
  lemma NextOrphanSkips(w: SharingRound, b: Block, i: nat)
    requires Sane(w) && i < |LiveOf(w.env, b, Final(w))|
    requires forall o | o in SharesOf(w, b) :: o.key.Some?
    requires i !in MatchedShares(LiveOf(w.env, b, Final(w)), SharesOf(w, b))
    ensures LiveOf(w.env, b, Final(w))[i].key.Some? && OrphanShare(b, w.st, LiveOf(w.env, b, Final(w))[i]).kind == Skip
  {
    var live, ds := LiveOf(w.env, b, Final(w)), SharesOf(w, b);
    NextLive(w, b, i);
    MatchedAre(live, ds);
    RowsKeepDistinct(w.env, w.planName, w.store, Executed(w));
    LiveUidsDistinct(w.env, b, Final(w));
    forall o | o in ds ensures live[i] != LiveShareOf(w.env, b, After(w, o)) { NextHits(w, b, o); }
  }

  /** Plan the same manifest again: the diff raises nothing and every row is a SKIP, so
      nothing is to be created, updated or deleted. */
  ghost predicate AllSkip(w: SharingRound)
    requires Planned(w)
  {
    forall b: Block :: RowsOf(Next(w), b).BlockRows? && forall c | c in RowsOf(Next(w), b).rows :: c.kind == Skip
  }

  /** A conflict-free round whose creates spare the records it matches and deletes
      converges, whatever the case of e-mail addresses and whether permissions were
      written flat or nested. */
  lemma SparedConverges(w: SharingRound)
    requires Planned(w) && NoConflict(w) && Injective(w.env.stableUid) && RefsApart(w) && Spared(w)
    ensures AllSkip(w)
  {
    hide NoConflict, RowsOf;
    NoConflictNoRefHits(w);
    forall b: Block ensures RowsOf(Next(w), b).BlockRows? && forall c | c in RowsOf(Next(w), b).rows :: c.kind == Skip { NextSkips(w, b); }
  }

  lemma DeletedIsGone(w: SharingRound, c: Change)
    requires Planned(w) && c in Executed(w) && c.kind == Delete
    ensures Find(Final(w), Target(w.env, w.planName, c)).None?
  {
    hide ApplyRow, Target, Effect;
    var j :| 0 <= j < |Executed(w)| && Executed(w)[j] == c;
    DeletesComeLast(PlanOf(w), j);
    DeletedAtTheEnd(w.env, w.planName, w.store, Executed(w), j);
  }
}
