/** One sharing round: the diffs of both blocks against a store, record by record, and the
    records their rows act on (keeper_sdk/core/sharing_diff.py). */
module SharingRounds {
  import opened Json
  import opened OrderedDict
  import opened Plans
  import opened PamDiff
  import opened MockProvider
  import opened Names
  import opened SharingDiff
  import opened SharingPayloads

  // ---------------------------------------------------------------------- the live rows

  /** `_live_rows_by_type`: the records of one block. */
  function LiveOf(env: Env, b: Block, store: seq<LiveRecord>): seq<LiveShare> {
    if store == [] then []
    else
      var n := |store| - 1;
      LiveOf(env, b, store[..n]) + if store[n].resourceType == ResourceOf(b) then [LiveShareOf(env, b, store[n])] else []
  }

  /** The key of a record, if it is one of the two kinds. */
  function KeyOfRecord(env: Env, r: LiveRecord): Option<ShareKey> {
    if r.resourceType == RECORD_SHARE then LiveShareOf(env, RecordShare, r).key
    else if r.resourceType == SHARE_FOLDER then LiveShareOf(env, ShareFolder, r).key
    else None
  }

  function RecordKey(env: Env): LiveRecord -> Option<ShareKey> {
    (r: LiveRecord) => KeyOfRecord(env, r)
  }

  lemma RecordKeyIs(env: Env, b: Block, r: LiveRecord)
    requires r.resourceType == ResourceOf(b)
    ensures KeyOfRecord(env, r) == LiveShareOf(env, b, r).key
    ensures KeyOfRecord(env, r).Some? ==> KeyOfRecord(env, r).value.block == b
  {}

  lemma KeyTellsResource(env: Env, r: LiveRecord)
    ensures KeyOfRecord(env, r).Some? ==> r.resourceType == ResourceOf(KeyOfRecord(env, r).value.block)
  {}

  lemma {:induction false} LiveMembers(env: Env, b: Block, store: seq<LiveRecord>)
    ensures forall x :: x in LiveOf(env, b, store) <==>
              exists r :: r in store && r.resourceType == ResourceOf(b) && x == LiveShareOf(env, b, r)
  {
    if store != [] {
      var n := |store| - 1;
      LiveMembers(env, b, store[..n]);
      assert store == store[..n] + [store[n]];
      assert store[n] in store;
    }
  }

  /** The first row with a key is that of the first record with the key. */
  lemma {:induction false} FirstIsFirst(env: Env, b: Block, store: seq<LiveRecord>, k: ShareKey)
    requires k.block == b
    ensures var live, first := LiveOf(env, b, store), Lookup(store, RecordKey(env), Some(k));
            var i := FirstWithKey(live, k);
            && (i < |live| <==> first.Some?)
            && (first.Some? ==> first.value.resourceType == ResourceOf(b) && live[i] == LiveShareOf(env, b, first.value))
  {
    if store != [] {
      var n := |store| - 1;
      var before, r := store[..n], store[n];
      FirstIsFirst(env, b, before, k);
      assert store == before + [r];
      AppendedPosition(before, RecordKey(env), r, Some(k));
      if r.resourceType == ResourceOf(b) {
        RecordKeyIs(env, b, r);
        AppendedPosition(LiveOf(env, b, before), SHARE_KEY, LiveShareOf(env, b, r), Some(k));
      } else {
        KeyTellsResource(env, r);
        assert RecordKey(env)(r) != Some(k);
        assert LiveOf(env, b, store) == LiveOf(env, b, before);
      }
    }
  }

  lemma AppendedPosition<T, K(!new)>(xs: seq<T>, key: T -> K, x: T, k: K)
    ensures Position(xs + [x], key, k)
         == if Position(xs, key, k) < |xs| then Position(xs, key, k) else if key(x) == k then |xs| else |xs| + 1
  {
    var i := Position(xs, key, k);
    PositionIs(xs + [x], key, k, if i < |xs| then i else if key(x) == k then |xs| else |xs| + 1);
  }

  // ------------------------------------------------------------------------- one round

  /** Plan the shares of a manifest against a store and apply the plan. */
  datatype SharingRound = SharingRound(
    env: Env, store: seq<LiveRecord>, shares: seq<Share>, folders: seq<Share>, st: ShareSettings,
    planName: string, order: seq<string>)

  function SharesOf(w: SharingRound, b: Block): seq<Share> {
    match b case RecordShare => w.shares case ShareFolder => w.folders
  }

  /** A manifest row as `ShareOf` makes it: keyed, referenced, and already projected. */
  ghost predicate Proper(env: Env, b: Block, o: Share) {
    && o.block == b && o.uidRef != "" && o.key == KeyOf(env, b, o.payload)
    && (forall f | f in Compared(b) :: Shown(b, o.payload, f) == Get(o.payload, f))
  }

  lemma ShareIsProper(env: Env, b: Block, row: Dict)
    requires EmailSound(env) && ShareOf(env, b, row).uidRef != ""
    ensures Proper(env, b, ShareOf(env, b, row))
  {
    forall f | f in Compared(b)
      ensures Shown(b, Project(env, b, row), f) == Get(Project(env, b, row), f)
    {
      ShownProjected(env, b, row, f);
      ProjectShows(env, b, row, f);
    }
  }

  ghost function RowsOf(w: SharingRound, b: Block): BlockRows {
    BlockDiff(b, w.st, SharesOf(w, b), LiveOf(w.env, b, w.store))
  }

  ghost predicate Planned(w: SharingRound) {
    && DistinctUids(w.store) && EmailSound(w.env)
    && (forall b: Block :: RowsOf(w, b).BlockRows? && forall o | o in SharesOf(w, b) :: Proper(w.env, b, o))
  }

  ghost function PlanOf(w: SharingRound): Plan
    requires Planned(w)
  {
    Plan(w.planName, RowsOf(w, RecordShare).rows + RowsOf(w, ShareFolder).rows, w.order)
  }

  ghost function Executed(w: SharingRound): seq<Change>
    requires Planned(w)
  {
    Ordered(PlanOf(w))
  }

  ghost function Final(w: SharingRound): seq<LiveRecord>
    requires Planned(w)
  {
    Run(w.env, w.planName, false, w.store, Executed(w))
  }

  ghost predicate NoConflict(w: SharingRound)
    requires Planned(w)
  {
    forall c | c in PlanOf(w).changes :: c.kind != Conflict
  }

  /** The record a manifest row matches: the first with its key. */
  function HitRecord(w: SharingRound, o: Share): Option<LiveRecord> {
    Lookup(w.store, RecordKey(w.env), o.key)
  }

  /** A record of the block that no manifest row matches. */
  ghost predicate OrphanRecord(w: SharingRound, b: Block, r: LiveRecord) {
    r in w.store && r.resourceType == ResourceOf(b) && forall o | o in SharesOf(w, b) :: HitRecord(w, o) != Some(r)
  }

  function CreateChange(st: ShareSettings, o: Share): Change
    requires o.key.Some?
  {
    RowBase(o.block, o.uidRef, ShareTitle(o.key.value), Create).(after := Marked(st, o))
  }

  /** What is said about a manifest row, given the record it matches. */
  function RowForShare(env: Env, st: ShareSettings, o: Share, hit: Option<LiveRecord>): seq<Change>
    requires o.key.Some?
  {
    if hit.None? then [CreateChange(st, o)]
    else
      var l := LiveShareOf(env, o.block, hit.value);
      var row, drift := RowBase(o.block, o.uidRef, ShareTitle(o.key.value), Skip), Drift(o.block, l.payload, o.payload);
      if !Managed(l.marker, st.name) then [row.(keeperUid := Some(l.keeperUid), before := l.payload)]
      else if drift != {} then
        [row.(kind := Update, keeperUid := Some(l.keeperUid), before := Picked(l.payload, drift), after := Picked(o.payload, drift))]
      else []
  }

  lemma HitIs(w: SharingRound, b: Block, o: Share)
    requires Planned(w) && o in SharesOf(w, b)
    ensures o.key.Some? && o.key.value.block == b
    ensures HitRecord(w, o).Some? ==> HitRecord(w, o).value in w.store && HitRecord(w, o).value.resourceType == ResourceOf(b)
    ensures var live, h := LiveOf(w.env, b, w.store), HitOf(LiveOf(w.env, b, w.store), o);
            && (h.ByKey? <==> HitRecord(w, o).Some?)
            && (h.ByKey? ==> live[h.i] == LiveShareOf(w.env, b, HitRecord(w, o).value))
  {
    assert Proper(w.env, b, o);
    KeyBlock(w.env, b, o.payload);
    FirstIsFirst(w.env, b, w.store, o.key.value);
  }

  lemma KeyBlock(env: Env, b: Block, p: Dict)
    ensures KeyOf(env, b, p).Some? ==> KeyOf(env, b, p).value.block == b
  {}

  lemma {:induction false} ShareRowsAre(st: ShareSettings, live: seq<LiveShare>, ds: seq<Share>)
    requires forall o | o in ds :: o.key.Some?
    ensures forall c :: c in ShareRows(st, live, ds) <==> exists o :: o in ds && c in DesiredRow(st, live, o)
  {
    if ds != [] {
      ShareRowsAre(st, live, ds[..|ds| - 1]);
      assert ds == ds[..|ds| - 1] + [ds[|ds| - 1]];
    }
  }

  lemma {:induction false} MatchedAre(live: seq<LiveShare>, ds: seq<Share>)
    requires forall o | o in ds :: o.key.Some?
    ensures forall i: nat :: i in MatchedShares(live, ds) <==> exists o :: o in ds && !HitOf(live, o).Missed? && HitOf(live, o).i == i
  {
    if ds != [] {
      MatchedAre(live, ds[..|ds| - 1]);
      assert ds == ds[..|ds| - 1] + [ds[|ds| - 1]];
    }
  }

  /** Nothing is found by its uid_ref alone. */
  ghost predicate NoRefHits(w: SharingRound)
    requires Planned(w)
  {
    forall b: Block, o | o in SharesOf(w, b) :: o.key.Some? && !HitOf(LiveOf(w.env, b, w.store), o).ByRef?
  }

  lemma NothingByRef(w: SharingRound, b: Block, o: Share)
    requires Planned(w) && NoConflict(w) && o in SharesOf(w, b)
    ensures o.key.Some? && !HitOf(LiveOf(w.env, b, w.store), o).ByRef?
  {
    var live := LiveOf(w.env, b, w.store);
    HitIs(w, b, o);
    ShareRowsAre(w.st, live, SharesOf(w, b));
    forall c | c in DesiredRow(w.st, live, o) ensures c.kind != Conflict {
      assert c in RowsOf(w, b).rows;
      assert c in PlanOf(w).changes;
    }
    assert forall i | 0 <= i < |DesiredRow(w.st, live, o)| :: DesiredRow(w.st, live, o)[i] in DesiredRow(w.st, live, o);
  }

  /** That is so in a conflict-free plan. */
  lemma NoConflictNoRefHits(w: SharingRound)
    requires Planned(w) && NoConflict(w)
    ensures NoRefHits(w)
  {
    forall b: Block, o | o in SharesOf(w, b) ensures o.key.Some? && !HitOf(LiveOf(w.env, b, w.store), o).ByRef? { NothingByRef(w, b, o); }
  }

  lemma DesiredRowIs(w: SharingRound, b: Block, o: Share)
    requires Planned(w) && NoRefHits(w) && o in SharesOf(w, b)
    ensures o.key.Some? && DesiredRow(w.st, LiveOf(w.env, b, w.store), o) == RowForShare(w.env, w.st, o, HitRecord(w, o))
  {
    HitIs(w, b, o);
  }

  ghost predicate DistinctLive(live: seq<LiveShare>) {
    forall i, j | 0 <= i < j < |live| :: live[i].keeperUid != live[j].keeperUid
  }

  lemma {:induction false} LiveUidsDistinct(env: Env, b: Block, store: seq<LiveRecord>)
    requires DistinctUids(store)
    ensures DistinctLive(LiveOf(env, b, store))
  {
    if store != [] {
      var n := |store| - 1;
      LiveUidsDistinct(env, b, store[..n]);
      LiveMembers(env, b, store[..n]);
      forall x | x in LiveOf(env, b, store[..n]) ensures x.keeperUid != store[n].keeperUid {
        var r :| r in store[..n] && r.resourceType == ResourceOf(b) && x == LiveShareOf(env, b, r);
      }
    }
  }

  lemma SameUidSameRecord(store: seq<LiveRecord>, r: LiveRecord, x: LiveRecord)
    requires DistinctUids(store) && r in store && x in store && r.keeperUid == x.keeperUid
    ensures r == x
  {
    var i :| 0 <= i < |store| && store[i] == r;
    var j :| 0 <= j < |store| && store[j] == x;
  }

  /** An unmatched position holds an orphan, and only such a position does. */
  lemma UnmatchedIsOrphan(w: SharingRound, b: Block, i: nat, r: LiveRecord)
    requires Planned(w) && NoRefHits(w) && i < |LiveOf(w.env, b, w.store)| && r in w.store
    requires r.resourceType == ResourceOf(b) && LiveOf(w.env, b, w.store)[i] == LiveShareOf(w.env, b, r)
    ensures forall o | o in SharesOf(w, b) :: o.key.Some?
    ensures i !in MatchedShares(LiveOf(w.env, b, w.store), SharesOf(w, b)) <==> OrphanRecord(w, b, r)
  {
    var live := LiveOf(w.env, b, w.store);
    forall o | o in SharesOf(w, b) ensures o.key.Some? { HitIs(w, b, o); }
    MatchedAre(live, SharesOf(w, b));
    LiveUidsDistinct(w.env, b, w.store);
    forall o | o in SharesOf(w, b)
      ensures (!HitOf(live, o).Missed? && HitOf(live, o).i == i) <==> HitRecord(w, o) == Some(r)
    {
      HitIs(w, b, o);
      DesiredRowIs(w, b, o);
      if !HitOf(live, o).Missed? && HitOf(live, o).i == i { SameUidSameRecord(w.store, r, HitRecord(w, o).value); }
    }
  }

  lemma RecordOfLive(w: SharingRound, b: Block, i: nat) returns (r: LiveRecord)
    requires i < |LiveOf(w.env, b, w.store)|
    ensures r in w.store && r.resourceType == ResourceOf(b) && LiveOf(w.env, b, w.store)[i] == LiveShareOf(w.env, b, r)
  {
    LiveMembers(w.env, b, w.store);
    var x := LiveOf(w.env, b, w.store)[i];
    assert x in LiveOf(w.env, b, w.store);
    r :| r in w.store && r.resourceType == ResourceOf(b) && x == LiveShareOf(w.env, b, r);
  }

  lemma EverythingKeyed(w: SharingRound, b: Block)
    requires Planned(w)
    ensures forall o | o in SharesOf(w, b) :: o.key.Some?
    ensures forall x | x in LiveOf(w.env, b, w.store) :: x.key.Some?
    ensures forall r | r in w.store && r.resourceType == ResourceOf(b) :: LiveShareOf(w.env, b, r).key.Some?
  {
    LiveMembers(w.env, b, w.store);
    assert RowsOf(w, b).BlockRows?;
    assert Indexable(SharesOf(w, b)) && forall x | x in LiveOf(w.env, b, w.store) :: x.key.Some?;
    forall r | r in w.store && r.resourceType == ResourceOf(b) ensures LiveShareOf(w.env, b, r).key.Some? {
      assert LiveShareOf(w.env, b, r) in LiveOf(w.env, b, w.store);
    }
  }

  ghost predicate FromDesired(w: SharingRound, b: Block, c: Change) {
    exists o :: o in SharesOf(w, b) && o.key.Some? && c in RowForShare(w.env, w.st, o, HitRecord(w, o))
  }

  ghost predicate FromOrphan(w: SharingRound, b: Block, c: Change) {
    exists r :: OrphanRecord(w, b, r) && LiveShareOf(w.env, b, r).key.Some? && c == OrphanShare(b, w.st, LiveShareOf(w.env, b, r))
  }

  lemma DesiredPart(w: SharingRound, b: Block, c: Change)
    requires Planned(w) && NoRefHits(w)
    ensures forall o | o in SharesOf(w, b) :: o.key.Some?
    ensures c in ShareRows(w.st, LiveOf(w.env, b, w.store), SharesOf(w, b)) <==> FromDesired(w, b, c)
  {
    var live := LiveOf(w.env, b, w.store);
    EverythingKeyed(w, b);
    forall o | o in SharesOf(w, b) ensures DesiredRow(w.st, live, o) == RowForShare(w.env, w.st, o, HitRecord(w, o)) {
      DesiredRowIs(w, b, o);
    }
    ShareRowsAre(w.st, live, SharesOf(w, b));
  }

  lemma PositionOfLive(w: SharingRound, b: Block, r: LiveRecord) returns (i: nat)
    requires r in w.store && r.resourceType == ResourceOf(b)
    ensures i < |LiveOf(w.env, b, w.store)| && LiveOf(w.env, b, w.store)[i] == LiveShareOf(w.env, b, r)
  {
    LiveMembers(w.env, b, w.store);
    assert LiveShareOf(w.env, b, r) in LiveOf(w.env, b, w.store);
    i :| 0 <= i < |LiveOf(w.env, b, w.store)| && LiveOf(w.env, b, w.store)[i] == LiveShareOf(w.env, b, r);
  }

  ghost function OrphanPartOf(w: SharingRound, b: Block): seq<Change>
    requires Planned(w)
  {
    EverythingKeyed(w, b);
    var live := LiveOf(w.env, b, w.store);
    UnmatchedAre(live, MatchedShares(live, SharesOf(w, b)));
    OrphanShares(b, w.st, Unmatched(live, MatchedShares(live, SharesOf(w, b))))
  }

  /** The unmatched live rows of a block, with what is known of them. */
  ghost predicate RestOf(w: SharingRound, b: Block, rest: seq<LiveShare>) {
    && (forall x | x in rest :: x.key.Some? && exists r :: OrphanRecord(w, b, r) && x == LiveShareOf(w.env, b, r))
    && (forall r | OrphanRecord(w, b, r) :: LiveShareOf(w.env, b, r) in rest)
    && DistinctLive(rest)
  }

  lemma {:induction false} UnmatchedDistinct(live: seq<LiveShare>, matched: set<nat>)
    requires DistinctLive(live)
    ensures DistinctLive(Unmatched(live, matched))
  {
    if live != [] {
      var n := |live| - 1;
      assert DistinctLive(live[..n]);
      UnmatchedDistinct(live[..n], matched);
      UnmatchedAre(live[..n], matched);
      forall x | x in Unmatched(live[..n], matched) ensures x.keeperUid != live[n].keeperUid {
        var i: nat :| i < n && i !in matched && live[..n][i] == x;
        assert live[i] == x;
      }
    }
  }

  lemma RestIs(w: SharingRound, b: Block)
    requires Planned(w) && NoRefHits(w)
    ensures forall o | o in SharesOf(w, b) :: o.key.Some?
    ensures RestOf(w, b, Unmatched(LiveOf(w.env, b, w.store), MatchedShares(LiveOf(w.env, b, w.store), SharesOf(w, b))))
  {
    var live := LiveOf(w.env, b, w.store);
    EverythingKeyed(w, b);
    LiveUidsDistinct(w.env, b, w.store);
    var matched := MatchedShares(live, SharesOf(w, b));
    UnmatchedDistinct(live, matched);
    UnmatchedAre(live, matched);
    forall x | x in Unmatched(live, matched) ensures x.key.Some? && exists r :: OrphanRecord(w, b, r) && x == LiveShareOf(w.env, b, r) {
      var i: nat :| i < |live| && i !in matched && live[i] == x;
      var r := RecordOfLive(w, b, i);
      UnmatchedIsOrphan(w, b, i, r);
      assert live[i] in live;
    }
    forall r | OrphanRecord(w, b, r) ensures LiveShareOf(w.env, b, r) in Unmatched(live, matched) {
      var i := PositionOfLive(w, b, r);
      UnmatchedIsOrphan(w, b, i, r);
    }
  }

  lemma OrphanRowHasRecord(w: SharingRound, b: Block, c: Change)
    requires Planned(w) && NoRefHits(w) && c in OrphanPartOf(w, b)
    ensures FromOrphan(w, b, c)
  {
    RestIs(w, b);
    var i :| 0 <= i < |OrphanPartOf(w, b)| && OrphanPartOf(w, b)[i] == c;
    var live := LiveOf(w.env, b, w.store);
    var x := Unmatched(live, MatchedShares(live, SharesOf(w, b)))[i];
    assert x in Unmatched(live, MatchedShares(live, SharesOf(w, b)));
  }

  lemma OrphanHasRow(w: SharingRound, b: Block, r: LiveRecord)
    requires Planned(w) && NoRefHits(w) && OrphanRecord(w, b, r)
    ensures LiveShareOf(w.env, b, r).key.Some? && OrphanShare(b, w.st, LiveShareOf(w.env, b, r)) in OrphanPartOf(w, b)
  {
    RestIs(w, b);
    var live := LiveOf(w.env, b, w.store);
    var rest := Unmatched(live, MatchedShares(live, SharesOf(w, b)));
    var i :| 0 <= i < |rest| && rest[i] == LiveShareOf(w.env, b, r);
    assert OrphanPartOf(w, b)[i] == OrphanShare(b, w.st, rest[i]);
  }

  lemma OrphanPartIs(w: SharingRound, b: Block, c: Change)
    requires Planned(w) && NoRefHits(w)
    ensures c in OrphanPartOf(w, b) <==> FromOrphan(w, b, c)
  {
    if c in OrphanPartOf(w, b) { OrphanRowHasRecord(w, b, c); }
    if FromOrphan(w, b, c) {
      var r :| OrphanRecord(w, b, r) && LiveShareOf(w.env, b, r).key.Some? && c == OrphanShare(b, w.st, LiveShareOf(w.env, b, r));
      OrphanHasRow(w, b, r);
    }
  }

  /** The rows of a block, record by record. */
  lemma RowsAre(w: SharingRound, b: Block, c: Change)
    requires Planned(w) && NoRefHits(w)
    ensures c in RowsOf(w, b).rows <==> FromDesired(w, b, c) || FromOrphan(w, b, c)
  {
    EverythingKeyed(w, b);
    DesiredPart(w, b, c);
    OrphanPartIs(w, b, c);
  }

  // ----------------------------------------------------------------- distinct targets

  function NewUid(w: SharingRound, o: Share): string {
    w.env.stableUid(w.planName + ":" + o.uidRef)
  }

  /** The keeper uid of the record that stands for a manifest row after the round. */
  function RowUid(w: SharingRound, o: Share): string {
    if HitRecord(w, o).None? then NewUid(w, o) else HitRecord(w, o).value.keeperUid
  }

  /** The plan deletes the record. */
  ghost predicate Doomed(w: SharingRound, r: LiveRecord) {
    Managed(r.marker, w.st.name) && w.st.allowDelete && exists b: Block :: OrphanRecord(w, b, r)
  }

  /** Some manifest row matches the record. */
  ghost predicate IsMatched(w: SharingRound, r: LiveRecord) {
    exists b: Block, p :: p in SharesOf(w, b) && HitRecord(w, p) == Some(r)
  }

  /** No create falls on a record that a manifest row matches or that the plan deletes. */
  ghost predicate Spared(w: SharingRound) {
    forall b: Block, o, r | o in SharesOf(w, b) && HitRecord(w, o).None? && r in w.store && r.keeperUid == NewUid(w, o) ::
      !IsMatched(w, r) && !Doomed(w, r)
  }

  /** No uid_ref is shared between the two blocks. */
  ghost predicate RefsApart(w: SharingRound) {
    forall o, p | o in w.shares && p in w.folders :: o.uidRef != p.uidRef
  }

  /** What convergence needs. */
  ghost predicate Sane(w: SharingRound) {
    Planned(w) && NoConflict(w) && NoRefHits(w) && Injective(w.env.stableUid) && Spared(w) && RefsApart(w)
  }

  function TargetKey(w: SharingRound): Change -> string {
    (c: Change) => Target(w.env, w.planName, c)
  }

  lemma NewUidsDiffer(w: SharingRound, o: Share, p: Share)
    requires Injective(w.env.stableUid) && o.uidRef != p.uidRef
    ensures NewUid(w, o) != NewUid(w, p)
  {
    var a, b := w.planName + ":" + o.uidRef, w.planName + ":" + p.uidRef;
    assert a[|w.planName| + 1..] == o.uidRef && b[|w.planName| + 1..] == p.uidRef;
  }

  lemma RowTargets(w: SharingRound, b: Block, o: Share, c: Change)
    requires Planned(w) && o in SharesOf(w, b) && o.key.Some? && c in RowForShare(w.env, w.st, o, HitRecord(w, o))
    ensures Target(w.env, w.planName, c) == RowUid(w, o)
  {
    hide Project, Drift, Managed, ShareTitle, KeyOf, Picked;
    assert Proper(w.env, b, o);
  }

  lemma IndexableAt(w: SharingRound, b: Block, i: nat, j: nat)
    requires Planned(w) && i < j < |SharesOf(w, b)|
    ensures SharesOf(w, b)[i].uidRef != SharesOf(w, b)[j].uidRef && SharesOf(w, b)[i].key != SharesOf(w, b)[j].key
  {
    assert RowsOf(w, b).BlockRows?;
  }

  /** Two rows of a manifest stand for two records. */
  lemma RowUidsDiffer(w: SharingRound, b: Block, o: Share, d: Block, p: Share)
    requires Sane(w) && o in SharesOf(w, b) && p in SharesOf(w, d) && o.uidRef != p.uidRef && o.key != p.key
    ensures RowUid(w, o) != RowUid(w, p)
  {
    hide Planned, NoConflict, NoRefHits, HitRecord, NewUid, Spared, Doomed;
    HitIs(w, b, o);
    HitIs(w, d, p);
    if HitRecord(w, o).None? && HitRecord(w, p).None? {
      NewUidsDiffer(w, o, p);
    } else if HitRecord(w, o).None? {
      CreateSpares(w, b, o, d, p);
    } else if HitRecord(w, p).None? {
      CreateSpares(w, d, p, b, o);
    } else if RowUid(w, o) == RowUid(w, p) {
      PlannedStore(w);
      SameUidSameRecord(w.store, HitRecord(w, o).value, HitRecord(w, p).value);
      HitHasKey(w, o);
      HitHasKey(w, p);
    }
  }

  lemma HitHasKey(w: SharingRound, o: Share)
    ensures HitRecord(w, o).Some? ==> KeyOfRecord(w.env, HitRecord(w, o).value) == o.key
  {}

  /** A create leaves the record of a row that matches. */
  lemma CreateSpares(w: SharingRound, b: Block, o: Share, d: Block, p: Share)
    requires Spared(w) && o in SharesOf(w, b) && HitRecord(w, o).None? && p in SharesOf(w, d) && HitRecord(w, p).Some?
    requires HitRecord(w, p).value in w.store
    ensures NewUid(w, o) != HitRecord(w, p).value.keeperUid
  {
    hide HitRecord, NewUid, Doomed;
    assert IsMatched(w, HitRecord(w, p).value);
  }

  lemma PlannedStore(w: SharingRound)
    requires Planned(w)
    ensures DistinctUids(w.store)
  {}

  lemma RowOfShare(w: SharingRound, b: Block, o: Share)
    requires Sane(w) && o in SharesOf(w, b)
    ensures o.key.Some? && |DesiredRow(w.st, LiveOf(w.env, b, w.store), o)| <= 1
    ensures forall c | c in DesiredRow(w.st, LiveOf(w.env, b, w.store), o) :: Target(w.env, w.planName, c) == RowUid(w, o)
  {
    DesiredRowIs(w, b, o);
    forall c | c in DesiredRow(w.st, LiveOf(w.env, b, w.store), o) ensures Target(w.env, w.planName, c) == RowUid(w, o) {
      RowTargets(w, b, o, c);
    }
  }

  lemma DistinctJoin<T, K>(a: seq<T>, b: seq<T>, key: T -> K)
    requires DistinctBy(a, key) && DistinctBy(b, key) && forall x, y | x in a && y in b :: key(x) != key(y)
    ensures DistinctBy(a + b, key)
  {}

  /** A manifest row makes at most one row, keyed by the object's own uid. */
  ghost predicate OneRowEach(st: ShareSettings, live: seq<LiveShare>, ds: seq<Share>, key: Change -> string, uid: Share -> string) {
    forall o | o in ds :: o.key.Some? && |DesiredRow(st, live, o)| <= 1 && forall c | c in DesiredRow(st, live, o) :: key(c) == uid(o)
  }

  lemma {:induction false} ShareRowsDistinct(st: ShareSettings, live: seq<LiveShare>, ds: seq<Share>, key: Change -> string, uid: Share -> string)
    requires OneRowEach(st, live, ds, key, uid) && DistinctBy(ds, uid)
    ensures DistinctBy(ShareRows(st, live, ds), key)
    ensures forall c | c in ShareRows(st, live, ds) :: exists o :: o in ds && key(c) == uid(o)
  {
    hide DesiredRow;
    if ds != [] {
      var n := |ds| - 1;
      assert ds == ds[..n] + [ds[n]];
      ShareRowsDistinct(st, live, ds[..n], key, uid);
      forall o | o in ds[..n] ensures uid(o) != uid(ds[n]) {
        var i :| 0 <= i < n && ds[i] == o;
      }
      DistinctJoin(ShareRows(st, live, ds[..n]), DesiredRow(st, live, ds[n]), key);
    }
  }

  lemma OrphanTarget(w: SharingRound, b: Block, r: LiveShare)
    requires r.key.Some?
    ensures TargetKey(w)(OrphanShare(b, w.st, r)) == r.keeperUid
  {}

  function UidKey(w: SharingRound): Share -> string {
    (o: Share) => RowUid(w, o)
  }

  lemma DesiredUidsDistinct(w: SharingRound, b: Block)
    requires Sane(w)
    ensures DistinctBy(SharesOf(w, b), UidKey(w))
  {
    var ds := SharesOf(w, b);
    forall i, j | 0 <= i < j < |ds| ensures UidKey(w)(ds[i]) != UidKey(w)(ds[j]) {
      IndexableAt(w, b, i, j);
      assert ds[i] in ds && ds[j] in ds;
      RowUidsDiffer(w, b, ds[i], b, ds[j]);
    }
  }

  lemma DesiredTargets(w: SharingRound, b: Block)
    requires Sane(w)
    ensures forall o | o in SharesOf(w, b) :: o.key.Some?
    ensures var rows := ShareRows(w.st, LiveOf(w.env, b, w.store), SharesOf(w, b));
            && DistinctBy(rows, TargetKey(w))
            && forall c | c in rows :: exists o :: o in SharesOf(w, b) && TargetKey(w)(c) == RowUid(w, o)
  {
    var live := LiveOf(w.env, b, w.store);
    forall o | o in SharesOf(w, b)
      ensures o.key.Some? && |DesiredRow(w.st, live, o)| <= 1 && forall c | c in DesiredRow(w.st, live, o) :: TargetKey(w)(c) == UidKey(w)(o)
    {
      RowOfShare(w, b, o);
    }
    DesiredUidsDistinct(w, b);
    ShareRowsDistinct(w.st, live, SharesOf(w, b), TargetKey(w), UidKey(w));
  }

  lemma OrphanTargets(w: SharingRound, b: Block)
    requires Sane(w)
    ensures DistinctBy(OrphanPartOf(w, b), TargetKey(w))
    ensures forall c | c in OrphanPartOf(w, b) :: exists r :: OrphanRecord(w, b, r) && TargetKey(w)(c) == r.keeperUid
  {
    var live := LiveOf(w.env, b, w.store);
    RestIs(w, b);
    var rest, rows := Unmatched(live, MatchedShares(live, SharesOf(w, b))), OrphanPartOf(w, b);
    forall i | 0 <= i < |rows| ensures TargetKey(w)(rows[i]) == rest[i].keeperUid && exists r :: OrphanRecord(w, b, r) && TargetKey(w)(rows[i]) == r.keeperUid {
      assert rest[i] in rest;
      OrphanTarget(w, b, rest[i]);
    }
  }

  /** Whether a row is executed, and on what: a SKIP may report on a record that a create
      replaces. */
  function Acting(w: SharingRound): Change -> (bool, string) {
    (c: Change) => (c.kind == Create || c.kind == Update || c.kind == Delete, Target(w.env, w.planName, c))
  }

  lemma ActingIs(w: SharingRound, c: Change)
    ensures Acting(w)(c) == (c.kind in {Create, Update, Delete}, Target(w.env, w.planName, c))
  {}

  lemma ActingApart(w: SharingRound, xs: seq<Change>)
    requires DistinctBy(xs, TargetKey(w))
    ensures DistinctBy(xs, Acting(w))
  {
    forall i, j | 0 <= i < j < |xs| ensures Acting(w)(xs[i]) != Acting(w)(xs[j]) { assert TargetKey(w)(xs[i]) != TargetKey(w)(xs[j]); }
  }

  ghost predicate ActsForRow(w: SharingRound, b: Block, o: Share, k: (bool, string)) {
    o in SharesOf(w, b) && k.1 == RowUid(w, o) && (HitRecord(w, o).None? ==> k.0)
  }

  ghost predicate ActsOnOrphan(w: SharingRound, b: Block, r: LiveRecord, k: (bool, string)) {
    OrphanRecord(w, b, r) && k.1 == r.keeperUid && (k.0 ==> Doomed(w, r))
  }

  /** A row of the block is about a manifest row's record, or an orphan. */
  ghost predicate ActsOn(w: SharingRound, b: Block, k: (bool, string)) {
    (exists o :: ActsForRow(w, b, o, k)) || exists r :: ActsOnOrphan(w, b, r, k)
  }

  lemma DesiredActs(w: SharingRound, b: Block, c: Change)
    requires Sane(w) && c in RowsOf(w, b).rows && FromDesired(w, b, c)
    ensures exists o :: ActsForRow(w, b, o, Acting(w)(c))
  {
    hide Planned, NoConflict, NoRefHits, Spared;
    var o :| o in SharesOf(w, b) && o.key.Some? && c in RowForShare(w.env, w.st, o, HitRecord(w, o));
    RowTargets(w, b, o, c);
    ActingIs(w, c);
    UnmatchedIsCreated(w.env, w.st, o, c);
    assert ActsForRow(w, b, o, Acting(w)(c));
  }

  lemma UnmatchedIsCreated(env: Env, st: ShareSettings, o: Share, c: Change)
    requires o.key.Some?
    ensures c in RowForShare(env, st, o, None) ==> c.kind == Create
  {
    assert RowForShare(env, st, o, None) == [CreateChange(st, o)];
  }

  lemma DeletedIsManaged(b: Block, st: ShareSettings, l: LiveShare)
    requires l.key.Some?
    ensures var c := OrphanShare(b, st, l);
            c.kind in {Create, Update, Delete} ==> Managed(l.marker, st.name) && st.allowDelete
  {}

  lemma OrphanActs(w: SharingRound, b: Block, c: Change)
    requires Sane(w) && FromOrphan(w, b, c)
    ensures exists r :: ActsOnOrphan(w, b, r, Acting(w)(c))
  {
    hide Planned, NoConflict, NoRefHits, Spared;
    var r :| OrphanRecord(w, b, r) && LiveShareOf(w.env, b, r).key.Some? && c == OrphanShare(b, w.st, LiveShareOf(w.env, b, r));
    OrphanTarget(w, b, LiveShareOf(w.env, b, r));
    ActingIs(w, c);
    DeletedIsManaged(b, w.st, LiveShareOf(w.env, b, r));
    assert ActsOnOrphan(w, b, r, Acting(w)(c));
  }

  lemma RowActs(w: SharingRound, b: Block, c: Change)
    requires Sane(w) && c in RowsOf(w, b).rows
    ensures ActsOn(w, b, Acting(w)(c))
  {
    hide Planned, FromDesired, FromOrphan, ActsForRow, ActsOnOrphan, Spared;
    RowsAre(w, b, c);
    if FromDesired(w, b, c) { DesiredActs(w, b, c); } else { OrphanActs(w, b, c); }
  }

  /** A deleted orphan is no manifest row's record, nor is an orphan that of a row which
      matches. */
  lemma OrphanIsNotRow(w: SharingRound, b: Block, o: Share, d: Block, r: LiveRecord)
    requires Sane(w) && o in SharesOf(w, b) && OrphanRecord(w, d, r) && (Doomed(w, r) || HitRecord(w, o).Some?)
    ensures RowUid(w, o) != r.keeperUid
  {
    hide Planned, NoConflict, NoRefHits;
    HitIs(w, b, o);
    BlocksDiffer(b, d);
    PlannedStore(w);
    if HitRecord(w, o).Some? && RowUid(w, o) == r.keeperUid { SameUidSameRecord(w.store, HitRecord(w, o).value, r); }
  }

  lemma RowAndOrphanApart(w: SharingRound, b: Block, d: Block, k: (bool, string))
    requires Sane(w) && exists o :: ActsForRow(w, b, o, k)
    ensures !exists r :: ActsOnOrphan(w, d, r, k)
  {
    hide Planned, NoConflict, NoRefHits, Spared, Doomed, RowUid;
    var o :| ActsForRow(w, b, o, k);
    forall r | OrphanRecord(w, d, r) && (k.0 ==> Doomed(w, r)) ensures r.keeperUid != RowUid(w, o) { OrphanIsNotRow(w, b, o, d, r); }
  }

  /** The rows of a block act on distinct records. */
  lemma BlockTargets(w: SharingRound, b: Block)
    requires Sane(w)
    ensures DistinctBy(RowsOf(w, b).rows, Acting(w))
  {
    hide Planned, NoConflict, NoRefHits, Spared, ActsForRow, ActsOnOrphan, FromDesired, FromOrphan, RowUid;
    DesiredTargets(w, b);
    OrphanTargets(w, b);
    var desired := ShareRows(w.st, LiveOf(w.env, b, w.store), SharesOf(w, b));
    BlockRowsJoin(w, b);
    forall c, e | c in desired && e in OrphanPartOf(w, b) ensures Acting(w)(c) != Acting(w)(e) {
      DesiredPart(w, b, c);
      OrphanPartIs(w, b, e);
      DesiredActs(w, b, c);
      OrphanActs(w, b, e);
      RowAndOrphanApart(w, b, b, Acting(w)(c));
    }
    ActingApart(w, desired);
    ActingApart(w, OrphanPartOf(w, b));
    DistinctJoin(desired, OrphanPartOf(w, b), Acting(w));
  }

  lemma BlockRowsJoin(w: SharingRound, b: Block)
    requires Planned(w)
    ensures forall o | o in SharesOf(w, b) :: o.key.Some?
    ensures RowsOf(w, b).rows == ShareRows(w.st, LiveOf(w.env, b, w.store), SharesOf(w, b)) + OrphanPartOf(w, b)
  {
    EverythingKeyed(w, b);
  }

  lemma BlocksDiffer(b: Block, d: Block)
    ensures ResourceOf(b) == ResourceOf(d) ==> b == d
  {}

  lemma FindIs(store: seq<LiveRecord>, r: LiveRecord)
    requires DistinctUids(store) && r in store
    ensures Find(store, r.keeperUid) == Some(r)
  {
    SameUidSameRecord(store, r, Find(store, r.keeperUid).value);
  }

  /** A record is acted on for one block only. */
  lemma BlocksApart(w: SharingRound, k: (bool, string))
    requires Sane(w) && ActsOn(w, RecordShare, k)
    ensures !ActsOn(w, ShareFolder, k)
  {
    hide Planned, NoConflict, NoRefHits, Spared, ActsForRow, ActsOnOrphan, RowUid;
    if exists o :: ActsForRow(w, RecordShare, o, k) {
      RowAndOrphanApart(w, RecordShare, ShareFolder, k);
      RowsOfBlocksApart(w, k);
    } else {
      if exists p :: ActsForRow(w, ShareFolder, p, k) { RowAndOrphanApart(w, ShareFolder, RecordShare, k); }
      OrphansOfBlocksApart(w, k);
    }
  }

  lemma RowsOfBlocksApart(w: SharingRound, k: (bool, string))
    requires Sane(w) && exists o :: ActsForRow(w, RecordShare, o, k)
    ensures !exists p :: ActsForRow(w, ShareFolder, p, k)
  {
    hide Planned, NoConflict, NoRefHits, Spared, RowUid;
    var o :| ActsForRow(w, RecordShare, o, k);
    forall p | p in w.folders ensures RowUid(w, p) != RowUid(w, o) {
      HitIs(w, RecordShare, o);
      HitIs(w, ShareFolder, p);
      RowUidsDiffer(w, RecordShare, o, ShareFolder, p);
    }
  }

  lemma OrphansOfBlocksApart(w: SharingRound, k: (bool, string))
    requires Sane(w) && exists r :: ActsOnOrphan(w, RecordShare, r, k)
    ensures !exists x :: ActsOnOrphan(w, ShareFolder, x, k)
  {
    hide NoConflict, NoRefHits, Spared, Doomed;
    var r :| ActsOnOrphan(w, RecordShare, r, k);
    forall x | OrphanRecord(w, ShareFolder, x) ensures x.keeperUid != r.keeperUid {
      if x.keeperUid == r.keeperUid { SameUidSameRecord(w.store, x, r); }
    }
  }

  lemma {:induction false} OfKindsDistinct<K>(cs: seq<Change>, kinds: set<Kind>, key: Change -> K)
    requires DistinctBy(cs, key)
    ensures DistinctBy(OfKinds(cs, kinds), key)
  {
    if cs != [] {
      assert forall j | 0 <= j < |cs[1..]| :: cs[1..][j] == cs[j + 1] && key(cs[j + 1]) != key(cs[0]);
      OfKindsDistinct(cs[1..], kinds, key);
      OfKindsMembers(cs[1..], kinds);
      assert forall c | c in OfKinds(cs[1..], kinds) :: key(c) != key(cs[0]);
      DistinctJoin([cs[0]], OfKinds(cs[1..], kinds), key);
    }
  }

  /** No two executed rows act on one record. */
  lemma TargetsAreDistinct(w: SharingRound)
    requires Sane(w)
    ensures DistinctTargets(w.env, w.planName, Executed(w))
  {
    hide NoConflict, NoRefHits, Spared, ActsOn, Ordered, OfKinds, RowsOf, Acting;
    var rows := PlanOf(w).changes;
    BlockTargets(w, RecordShare);
    BlockTargets(w, ShareFolder);
    forall c, d | c in RowsOf(w, RecordShare).rows && d in RowsOf(w, ShareFolder).rows ensures Acting(w)(c) != Acting(w)(d) {
      RowActs(w, RecordShare, c);
      RowActs(w, ShareFolder, d);
      BlocksApart(w, Acting(w)(c));
    }
    DistinctJoin(RowsOf(w, RecordShare).rows, RowsOf(w, ShareFolder).rows, Acting(w));
    OfKindsDistinct(rows, {Create, Update, Delete}, Acting(w));
    OrderedIsPermutation(PlanOf(w));
    PermutationStaysDistinct(OfKinds(rows, {Create, Update, Delete}), Executed(w), Acting(w));
    ExecutedActs(w);
  }

  lemma ExecutedActs(w: SharingRound)
    requires Planned(w) && DistinctBy(Executed(w), Acting(w))
    ensures DistinctTargets(w.env, w.planName, Executed(w))
  {
    hide Ordered, Acting, Target, RowsOf;
    OrderedIsPermutation(PlanOf(w));
    var cs := Executed(w);
    forall i, j | 0 <= i < j < |cs| ensures Target(w.env, w.planName, cs[i]) != Target(w.env, w.planName, cs[j]) {
      assert cs[i] in cs && cs[j] in cs && Acting(w)(cs[i]) != Acting(w)(cs[j]);
      ActingIs(w, cs[i]);
      ActingIs(w, cs[j]);
    }
  }
}
