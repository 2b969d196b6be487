/** When the sharing reconcile loop converges, what it loses otherwise, and its runs
    (keeper_sdk/core/sharing_diff.py, keeper_sdk/providers/mock.py). */
module SharingRuns {
  import opened Json
  import opened Plans
  import opened PamDiff
  import opened MockProvider
  import opened Names
  import opened SharingDiff
  import opened SharingPayloads
  import opened SharingRounds
  import opened SharingConvergence

  // ---------------------------------------------------------------- where keys come from

  /** No two share records of a store have one key. */
  ghost predicate KeysApart(env: Env, store: seq<LiveRecord>) {
    forall r, x | r in store && x in store && KeyOfRecord(env, r).Some? && KeyOfRecord(env, r) == KeyOfRecord(env, x) :: r == x
  }

  /** Some row creates a record with this key at this keeper uid. */
  ghost predicate CreatesWith(env: Env, name: string, cs: seq<Change>, uid: string, key: Option<ShareKey>) {
    exists c :: c in cs && c.kind == Create && Target(env, name, c) == uid && KeyOfRecord(env, Created(env, name, c)) == key
  }

  ghost predicate CreatesAt(env: Env, name: string, cs: seq<Change>, uid: string) {
    exists c :: c in cs && c.kind == Create && Target(env, name, c) == uid
  }

  ghost predicate StoredWith(env: Env, store: seq<LiveRecord>, uid: string, key: Option<ShareKey>) {
    Find(store, uid).Some? && KeyOfRecord(env, Find(store, uid).value) == key
  }

  ghost predicate SharingRows(cs: seq<Change>) {
    forall c | c in cs :: ComparesOnly(c) && (c.kind == Create || c.kind == Update || c.kind == Delete)
  }

  /** One row: the record at a keeper uid keeps its key, or is the created one. */
  lemma KeyAfterRow(env: Env, name: string, store: seq<LiveRecord>, c: Change, uid: string)
    requires EmailSound(env) && DistinctUids(store) && ComparesOnly(c)
    ensures var out := Find(ApplyRow(env, name, store, c), uid);
            out.Some? ==>
              if c.kind == Create && Target(env, name, c) == uid then out.value == Created(env, name, c)
              else StoredWith(env, store, uid, KeyOfRecord(env, out.value))
  {
    hide KeyOfRecord, Created, Updated, ComparesOnly;
    RowIsPointwise(env, name, store, c, uid);
    if c.kind == Update && Find(store, uid).Some? { UpdateKeepsKey(env, name, c, Find(store, uid).value); }
  }

  lemma CreatesGrow(env: Env, name: string, cs: seq<Change>, uid: string, key: Option<ShareKey>)
    requires cs != [] && CreatesWith(env, name, cs[1..], uid, key)
    ensures CreatesWith(env, name, cs, uid, key)
  {}

  /** A final record has its key from the store, or from a create at its keeper uid. */
  lemma {:induction false} KeySource(env: Env, name: string, store: seq<LiveRecord>, cs: seq<Change>, uid: string)
    requires EmailSound(env) && DistinctUids(store) && SharingRows(cs)
    ensures var out := Find(Run(env, name, false, store, cs), uid);
            out.Some? ==>
              var key := KeyOfRecord(env, out.value);
              CreatesWith(env, name, cs, uid, key) || StoredWith(env, store, uid, key)
    decreases |cs|
  {
    hide KeyOfRecord, Created, ComparesOnly, ApplyRow;
    if cs != [] {
      assert cs[0] in cs;
      var next, out := ApplyRow(env, name, store, cs[0]), Find(Run(env, name, false, store, cs), uid);
      RowIsPointwise(env, name, store, cs[0], uid);
      KeyAfterRow(env, name, store, cs[0], uid);
      KeySource(env, name, next, cs[1..], uid);
      if out.Some? && CreatesWith(env, name, cs[1..], uid, KeyOfRecord(env, out.value)) {
        CreatesGrow(env, name, cs, uid, KeyOfRecord(env, out.value));
      }
    }
  }

  lemma CreatesSplit(env: Env, name: string, cs: seq<Change>, uid: string)
    requires CreatesAt(env, name, cs, uid)
    ensures cs != [] && ((cs[0].kind == Create && Target(env, name, cs[0]) == uid) || CreatesAt(env, name, cs[1..], uid))
  {
    var i :| 0 <= i < |cs| && cs[i].kind == Create && Target(env, name, cs[i]) == uid;
    if i > 0 { assert cs[1..][i - 1] == cs[i]; }
  }

  /** Once a create has fallen on a keeper uid, the key there is that of a create. */
  lemma {:induction false} CreatedKeyStays(env: Env, name: string, store: seq<LiveRecord>, cs: seq<Change>, uid: string)
    requires EmailSound(env) && DistinctUids(store) && SharingRows(cs) && CreatesAt(env, name, cs, uid)
    ensures var out := Find(Run(env, name, false, store, cs), uid);
            out.Some? ==> CreatesWith(env, name, cs, uid, KeyOfRecord(env, out.value))
    decreases |cs|
  {
    hide KeyOfRecord, Created, ComparesOnly, ApplyRow, CreatesAt;
    CreatesSplit(env, name, cs, uid);
    var next, out := ApplyRow(env, name, store, cs[0]), Find(Run(env, name, false, store, cs), uid);
    assert cs[0] in cs;
    RowIsPointwise(env, name, store, cs[0], uid);
    if CreatesAt(env, name, cs[1..], uid) {
      CreatedKeyStays(env, name, next, cs[1..], uid);
    } else {
      KeyAfterRow(env, name, store, cs[0], uid);
      KeySource(env, name, next, cs[1..], uid);
    }
    if out.Some? && CreatesWith(env, name, cs[1..], uid, KeyOfRecord(env, out.value)) {
      CreatesGrow(env, name, cs, uid, KeyOfRecord(env, out.value));
    }
  }

  // --------------------------------------------------------------- the rows of a round

  /** The row is the create of a manifest row that matches nothing. */
  ghost predicate CreateOfRow(w: SharingRound, b: Block, o: Share, c: Change) {
    o in SharesOf(w, b) && o.key.Some? && HitRecord(w, o).None? && c == CreateChange(w.st, o)
  }

  lemma DesiredRowIsSharing(w: SharingRound, b: Block, o: Share, c: Change)
    requires Planned(w) && o in SharesOf(w, b) && o.key.Some? && c in DesiredRow(w.st, LiveOf(w.env, b, w.store), o)
    ensures ComparesOnly(c) && (c.kind == Create ==> CreateOfRow(w, b, o, c))
  {
    hide RowsOf, Project, ShareTitle, Managed, LiveOf;
    HitIs(w, b, o);
    ComparedByFolders(b);
    assert Proper(w.env, b, o);
  }

  lemma OrphanIsNoCreate(b: Block, st: ShareSettings, l: LiveShare)
    requires l.key.Some?
    ensures OrphanShare(b, st, l).kind != Create && OrphanShare(b, st, l).kind != Update
  {}

  /** Conflicts or not: what is executed creates unmatched manifest rows, updates compared
      fields, or deletes. */
  lemma ExecutedIsSharing(w: SharingRound, c: Change)
    requires Planned(w) && c in Executed(w)
    ensures ComparesOnly(c) && (c.kind == Create || c.kind == Update || c.kind == Delete)
    ensures c.kind == Create ==> exists b, o :: CreateOfRow(w, b, o, c)
  {
    hide OrphanShare, DesiredRow, ComparesOnly, CreateOfRow, Ordered, Proper;
    ExecutedAre(w, c);
    var b: Block :| c in RowsOf(w, b).rows;
    EverythingKeyed(w, b);
    BlockRowsJoin(w, b);
    var live := LiveOf(w.env, b, w.store);
    if c in ShareRows(w.st, live, SharesOf(w, b)) {
      ShareRowsAre(w.st, live, SharesOf(w, b));
      var o :| o in SharesOf(w, b) && c in DesiredRow(w.st, live, o);
      DesiredRowIsSharing(w, b, o, c);
    } else {
      OrphanPartKinds(w, b, c);
    }
  }

  lemma OrphanPartKinds(w: SharingRound, b: Block, c: Change)
    requires Planned(w) && c in OrphanPartOf(w, b)
    ensures c.kind != Create && c.kind != Update && ComparesOnly(c)
  {
    EverythingKeyed(w, b);
    var live := LiveOf(w.env, b, w.store);
    var rest := Unmatched(live, MatchedShares(live, SharesOf(w, b)));
    UnmatchedAre(live, MatchedShares(live, SharesOf(w, b)));
    var i :| 0 <= i < |OrphanPartOf(w, b)| && OrphanPartOf(w, b)[i] == c;
    assert rest[i] in rest;
    OrphanIsNoCreate(b, w.st, rest[i]);
  }

  lemma RoundIsSharing(w: SharingRound)
    requires Planned(w)
    ensures SharingRows(Executed(w))
  {
    hide ComparesOnly, Planned, CreateOfRow;
    forall c | c in Executed(w) ensures ComparesOnly(c) && (c.kind == Create || c.kind == Update || c.kind == Delete) { ExecutedIsSharing(w, c); }
  }

  /** A create of a key is that of the manifest row with the key. */
  lemma CreateHasItsRow(w: SharingRound, uid: string, key: Option<ShareKey>)
    requires Planned(w) && CreatesWith(w.env, w.planName, Executed(w), uid, key)
    ensures exists b, o :: o in SharesOf(w, b) && HitRecord(w, o).None? && o.key == key && NewUid(w, o) == uid
  {
    hide Planned, KeyOfRecord, CreateOfRow, HitRecord, Executed, Created;
    var c :| c in Executed(w) && c.kind == Create && Target(w.env, w.planName, c) == uid && KeyOfRecord(w.env, Created(w.env, w.planName, c)) == key;
    ExecutedIsSharing(w, c);
    var b, o :| CreateOfRow(w, b, o, c);
    CreatedRowIs(w, b, o, c);
  }

  lemma CreatedRowIs(w: SharingRound, b: Block, o: Share, c: Change)
    requires Planned(w) && CreateOfRow(w, b, o, c)
    ensures o in SharesOf(w, b) && HitRecord(w, o).None? && KeyOfRecord(w.env, Created(w.env, w.planName, c)) == o.key
    ensures Target(w.env, w.planName, c) == NewUid(w, o)
  {
    hide RowsOf, KeyOfRecord, HitRecord, Created, ShareTitle;
    assert Proper(w.env, b, o);
    CreatedKey(w.env, w.planName, w.st, b, o);
  }

  lemma UnmatchedIsCreatedAt(w: SharingRound, b: Block, o: Share)
    requires Planned(w) && NoRefHits(w) && o in SharesOf(w, b) && HitRecord(w, o).None?
    ensures CreatesAt(w.env, w.planName, Executed(w), NewUid(w, o))
  {
    hide RowsOf, HitRecord, Executed, NoRefHits, RowForShare;
    HitIs(w, b, o);
    var c := CreateChange(w.st, o);
    UnmatchedRow(w.env, w.st, o);
    assert RowComesFrom(w, b, o, c);
    DesiredIsExecuted(w, b, o, c);
    RowTargets(w, b, o, c);
  }

  lemma UnmatchedRow(env: Env, st: ShareSettings, o: Share)
    requires o.key.Some?
    ensures CreateChange(st, o) in RowForShare(env, st, o, None) && CreateChange(st, o).kind == Create
  {}

  // ------------------------------------------------------------- only spared rounds settle

  /** A key that no final record has: its row is not a SKIP. */
  lemma VanishedIsNotSkipped(w: SharingRound, b: Block, p: Share)
    requires Planned(w) && p in SharesOf(w, b) && p.key.Some? && p.key.value.block == b
    requires forall y | y in Final(w) :: KeyOfRecord(w.env, y) != p.key
    ensures !AllSkip(w)
  {
    hide KeyOfRecord, Final, Planned, BlockDiff;
    if RowsOf(Next(w), b).BlockRows? {
      var live := LiveOf(w.env, b, Final(w));
      FirstIsFirst(w.env, b, Final(w), p.key.value);
      NextKeys(w, b);
      ShareRowsAre(w.st, live, SharesOf(w, b));
      MissedRow(w.st, live, p);
      var c := DesiredRow(w.st, live, p)[0];
      assert c in DesiredRow(w.st, live, p);
      assert c in ShareRows(w.st, live, SharesOf(w, b));
      assert c in RowsOf(Next(w), b).rows;
    }
  }

  lemma NextKeys(w: SharingRound, b: Block)
    requires Planned(w) && RowsOf(Next(w), b).BlockRows?
    ensures forall o | o in SharesOf(w, b) :: o.key.Some?
    ensures forall c | c in ShareRows(w.st, LiveOf(w.env, b, Final(w)), SharesOf(w, b)) :: c in RowsOf(Next(w), b).rows
  {
    hide Final;
  }

  lemma MissedRow(st: ShareSettings, live: seq<LiveShare>, o: Share)
    requires o.key.Some? && FirstWithKey(live, o.key.value) >= |live|
    ensures |DesiredRow(st, live, o)| == 1 && DesiredRow(st, live, o)[0].kind != Skip
  {}

  /** The final record at its keeper uid. */
  lemma FinalRecord(w: SharingRound, y: LiveRecord)
    requires Planned(w) && y in Final(w)
    ensures Find(Final(w), y.keeperUid) == Some(y)
  {
    hide RowsOf, Executed;
    RowsKeepDistinct(w.env, w.planName, w.store, Executed(w));
    FindIs(Final(w), y);
  }

  /** When a create falls on the record of a row that matches, the key of that row is gone. */
  lemma MatchedVanishes(w: SharingRound, b: Block, o: Share, d: Block, p: Share)
    requires Planned(w) && NoRefHits(w) && KeysApart(w.env, w.store)
    requires o in SharesOf(w, b) && HitRecord(w, o).None? && p in SharesOf(w, d) && HitRecord(w, p).Some?
    requires HitRecord(w, p).value.keeperUid == NewUid(w, o)
    ensures forall y | y in Final(w) :: KeyOfRecord(w.env, y) != p.key
  {
    hide Planned, NoRefHits, KeyOfRecord, Executed, HitRecord, NewUid, CreatesWith, Created;
    HitIs(w, d, p);
    HitHasKey(w, p);
    RoundIsSharing(w);
    UnmatchedIsCreatedAt(w, b, o);
    PlannedStore(w);
    PlannedEmail(w);
    forall y | y in Final(w) ensures KeyOfRecord(w.env, y) != p.key {
      FinalRecord(w, y);
      KeySource(w.env, w.planName, w.store, Executed(w), y.keeperUid);
      if y.keeperUid == NewUid(w, o) { CreatedKeyStays(w.env, w.planName, w.store, Executed(w), y.keeperUid); }
      if KeyOfRecord(w.env, y) == p.key { NoCreateOfMatched(w, d, p, y.keeperUid); }
    }
  }

  lemma PlannedEmail(w: SharingRound)
    requires Planned(w)
    ensures EmailSound(w.env)
  {}

  lemma NoCreateOfMatched(w: SharingRound, d: Block, p: Share, uid: string)
    requires Planned(w) && p in SharesOf(w, d) && HitRecord(w, p).Some?
    ensures !CreatesWith(w.env, w.planName, Executed(w), uid, p.key)
  {
    hide Planned, HitRecord, CreatesWith, Executed;
    if CreatesWith(w.env, w.planName, Executed(w), uid, p.key) {
      CreateHasItsRow(w, uid, p.key);
      var b, o :| o in SharesOf(w, b) && HitRecord(w, o).None? && o.key == p.key && NewUid(w, o) == uid;
      HitIs(w, b, o);
      HitIs(w, d, p);
      SameKeySameRow(w, d, o, p);
    }
  }

  /** When a create falls on a record that the plan deletes, its own key is gone. */
  lemma DoomedVanishes(w: SharingRound, b: Block, o: Share)
    requires Planned(w) && o in SharesOf(w, b) && HitRecord(w, o).None? && Find(Final(w), NewUid(w, o)).None?
    ensures forall y | y in Final(w) :: KeyOfRecord(w.env, y) != o.key
  {
    hide Planned, KeyOfRecord, Executed, NewUid, CreatesWith, Created;
    HitIs(w, b, o);
    RoundIsSharing(w);
    PlannedStore(w);
    PlannedEmail(w);
    forall y | y in Final(w) ensures KeyOfRecord(w.env, y) != o.key {
      FinalRecord(w, y);
      KeySource(w.env, w.planName, w.store, Executed(w), y.keeperUid);
      NothingUnder(w, o, y.keeperUid);
      if KeyOfRecord(w.env, y) == o.key { CreateOfKeyIsAt(w, b, o, y.keeperUid); }
    }
  }

  lemma NothingUnder(w: SharingRound, o: Share, uid: string)
    requires HitRecord(w, o).None?
    ensures !StoredWith(w.env, w.store, uid, o.key)
  {
    hide KeyOfRecord;
    if Find(w.store, uid).Some? {
      var r := Find(w.store, uid).value;
      assert RecordKey(w.env)(r) == KeyOfRecord(w.env, r);
    }
  }

  lemma CreateOfKeyIsAt(w: SharingRound, b: Block, o: Share, uid: string)
    requires Planned(w) && o in SharesOf(w, b)
    ensures CreatesWith(w.env, w.planName, Executed(w), uid, o.key) ==> uid == NewUid(w, o)
  {
    hide Planned, HitRecord, CreatesWith, Executed;
    if CreatesWith(w.env, w.planName, Executed(w), uid, o.key) {
      CreateHasItsRow(w, uid, o.key);
      var d, p :| p in SharesOf(w, d) && HitRecord(w, p).None? && p.key == o.key && NewUid(w, p) == uid;
      HitIs(w, b, o);
      HitIs(w, d, p);
      SameKeySameRow(w, b, o, p);
    }
  }

  lemma DoomedIsGone(w: SharingRound, r: LiveRecord)
    requires Planned(w) && NoRefHits(w) && Doomed(w, r)
    ensures Find(Final(w), r.keeperUid).None?
  {
    hide Planned, NoRefHits, Executed, Final;
    var b: Block :| OrphanRecord(w, b, r);
    OrphanIsExecuted(w, b, r);
    var c :| c in Executed(w) && Removes(w, b, r, c);
    DeletedIsGone(w, c);
  }

  lemma SettledIsSpared(w: SharingRound)
    requires Planned(w) && NoConflict(w) && KeysApart(w.env, w.store) && AllSkip(w)
    ensures Spared(w)
  {
    hide Planned, NoConflict, NoRefHits, AllSkip, KeysApart, HitRecord, Final, Doomed, NewUid;
    NoConflictNoRefHits(w);
    forall b: Block, o, r | o in SharesOf(w, b) && HitRecord(w, o).None? && r in w.store && r.keeperUid == NewUid(w, o)
      ensures !IsMatched(w, r) && !Doomed(w, r)
    {
      HitIs(w, b, o);
      if IsMatched(w, r) {
        var d: Block, p :| p in SharesOf(w, d) && HitRecord(w, p) == Some(r);
        HitIs(w, d, p);
        MatchedVanishes(w, b, o, d, p);
        VanishedIsNotSkipped(w, d, p);
      } else if Doomed(w, r) {
        DoomedIsGone(w, r);
        DoomedVanishes(w, b, o);
        VanishedIsNotSkipped(w, b, o);
      }
    }
  }

  /** Exactly when the loop converges: given a conflict-free plan and a store whose share
      records have distinct keys, the next diff is all SKIP if and only if no create falls
      on a record that a manifest row matches or that the plan deletes. */
  lemma RoundConvergesIff(w: SharingRound)
    requires Planned(w) && NoConflict(w) && Injective(w.env.stableUid) && RefsApart(w) && KeysApart(w.env, w.store)
    ensures AllSkip(w) <==> Spared(w)
  {
    hide Planned, NoConflict, AllSkip, Spared, KeysApart;
    if AllSkip(w) { SettledIsSpared(w); } else if Spared(w) { SparedConverges(w); }
  }

  // ------------------------------------------------------------------------- manifests

  /** The two share blocks of a manifest. */
  datatype SharingManifest = SharingManifest(shares: seq<Dict>, folders: seq<Dict>)

  function SharesIn(env: Env, b: Block, rows: seq<Dict>): seq<Share> {
    seq(|rows|, i requires 0 <= i < |rows| => ShareOf(env, b, rows[i]))
  }

  function RoundFor(env: Env, store: seq<LiveRecord>, m: SharingManifest, st: ShareSettings, planName: string, order: seq<string>): SharingRound {
    SharingRound(env, store, SharesIn(env, RecordShare, m.shares), SharesIn(env, ShareFolder, m.folders), st, planName, order)
  }

  /** Rows carry uid_refs, and no two of the two blocks the same. */
  ghost predicate Referenced(env: Env, m: SharingManifest) {
    && (forall row | row in m.shares :: ShareOf(env, RecordShare, row).uidRef != "")
    && (forall row | row in m.folders :: ShareOf(env, ShareFolder, row).uidRef != "")
    && forall a, c | a in m.shares && c in m.folders :: ShareOf(env, RecordShare, a).uidRef != ShareOf(env, ShareFolder, c).uidRef
  }

  /** The diffs of both blocks raise nothing. */
  ghost predicate NothingRaised(w: SharingRound) {
    forall b: Block :: RowsOf(w, b).BlockRows?
  }

  lemma SharesAreProper(env: Env, b: Block, rows: seq<Dict>)
    requires EmailSound(env) && forall row | row in rows :: ShareOf(env, b, row).uidRef != ""
    ensures forall o | o in SharesIn(env, b, rows) :: Proper(env, b, o) && exists row :: row in rows && o == ShareOf(env, b, row)
  {
    hide Proper, ShareOf;
    forall o | o in SharesIn(env, b, rows) ensures Proper(env, b, o) && exists row :: row in rows && o == ShareOf(env, b, row) {
      var i :| 0 <= i < |rows| && SharesIn(env, b, rows)[i] == o;
      assert rows[i] in rows;
      ShareIsProper(env, b, rows[i]);
    }
  }

  lemma ManifestIsPlanned(w: SharingRound, m: SharingManifest)
    requires w == RoundFor(w.env, w.store, m, w.st, w.planName, w.order)
    requires DistinctUids(w.store) && EmailSound(w.env) && Referenced(w.env, m)
    ensures NothingRaised(w) ==> Planned(w)
    ensures RefsApart(w)
  {
    hide Proper, ShareOf, RowsOf, EmailSound;
    SharesAreProper(w.env, RecordShare, m.shares);
    SharesAreProper(w.env, ShareFolder, m.folders);
    forall b: Block, o | o in SharesOf(w, b) ensures Proper(w.env, b, o) {
      if b == RecordShare { assert o in w.shares; } else { assert b == ShareFolder && o in w.folders; }
    }
  }

  /** The same, said of a manifest. */
  lemma SharingConvergesIff(env: Env, store: seq<LiveRecord>, m: SharingManifest, st: ShareSettings, planName: string, order: seq<string>)
    requires EmailSound(env) && Injective(env.stableUid) && DistinctUids(store) && KeysApart(env, store) && Referenced(env, m)
    requires NothingRaised(RoundFor(env, store, m, st, planName, order))
    ensures var w := RoundFor(env, store, m, st, planName, order);
            Planned(w) && (NoConflict(w) ==> (AllSkip(w) <==> Spared(w)))
  {
    hide NoConflict, AllSkip, Spared, KeysApart, Planned, NothingRaised, Referenced;
    var w := RoundFor(env, store, m, st, planName, order);
    ManifestIsPlanned(w, m);
    if NoConflict(w) { RoundConvergesIff(w); }
  }

  // ------------------------------------------------------------------------ moved rows

  /** Another record sits at the keeper uid of a manifest row that matches nothing: a row
      that carries the same uid_ref but has moved to another key. */
  ghost predicate Moved(w: SharingRound, b: Block, o: Share, r: LiveRecord) {
    o in SharesOf(w, b) && HitRecord(w, o).None? && r in w.store && r.keeperUid == NewUid(w, o)
  }

  /** With deletes on a moved row is lost: its create and the delete of its old record act
      on one keeper uid, and deletes come last. */
  lemma MovedRowIsLost(w: SharingRound, b: Block, o: Share, r: LiveRecord)
    requires Planned(w) && NoConflict(w) && Moved(w, b, o, r) && Doomed(w, r)
    ensures Find(Final(w), NewUid(w, o)).None? && !AllSkip(w)
  {
    hide Planned, NoConflict, Final, AllSkip, HitRecord, NewUid, Doomed;
    NoConflictNoRefHits(w);
    HitIs(w, b, o);
    DoomedIsGone(w, r);
    DoomedVanishes(w, b, o);
    VanishedIsNotSkipped(w, b, o);
  }

  /** A row that moves onto the record of another row takes that record away from it. */
  lemma MovedRowTakesAnothers(w: SharingRound, b: Block, o: Share, r: LiveRecord)
    requires Planned(w) && NoConflict(w) && KeysApart(w.env, w.store) && Moved(w, b, o, r) && IsMatched(w, r)
    ensures (exists d, p :: p in SharesOf(w, d) && HitRecord(w, p) == Some(r) && forall y | y in Final(w) :: KeyOfRecord(w.env, y) != p.key)
    ensures !AllSkip(w)
  {
    hide Planned, NoConflict, Final, AllSkip, HitRecord, NewUid, KeysApart;
    NoConflictNoRefHits(w);
    var d: Block, p :| p in SharesOf(w, d) && HitRecord(w, p) == Some(r);
    HitIs(w, d, p);
    MatchedVanishes(w, b, o, d, p);
    VanishedIsNotSkipped(w, d, p);
  }

  /** Otherwise the old record is replaced in silence: although it is neither matched nor
      deleted (deletes may be off, or the record not managed), it is gone, and the next
      plan is all SKIP. */
  lemma MovedRowReplacesInSilence(w: SharingRound, b: Block, o: Share, r: LiveRecord)
    requires Planned(w) && NoConflict(w) && Injective(w.env.stableUid) && RefsApart(w) && Spared(w) && Moved(w, b, o, r)
    ensures AllSkip(w) && r !in Final(w)
    ensures o.key.Some? && Find(Final(w), NewUid(w, o)) == Some(Created(w.env, w.planName, CreateChange(w.st, o)))
  {
    hide Planned, NoConflict, Final, AllSkip, NewUid, Spared, KeyOfRecord, HitRecord;
    SparedConverges(w);
    NoConflictNoRefHits(w);
    RecordAfter(w, b, o);
    AfterIs(w, b, o);
    NothingUnder(w, o, r.keeperUid);
    PlannedStore(w);
    FindIs(w.store, r);
    if r in Final(w) { FinalRecord(w, r); }
  }

  // ------------------------------------------------------------------------ whole runs

  /** One plan-and-apply of a manifest, conflicts or not; a diff that raises applies nothing. */
  datatype SharingStep = SharingStep(m: SharingManifest, st: ShareSettings, planName: string, order: seq<string>)

  function StepRound(env: Env, store: seq<LiveRecord>, x: SharingStep): SharingRound {
    RoundFor(env, store, x.m, x.st, x.planName, x.order)
  }

  ghost function Reconciled(env: Env, store: seq<LiveRecord>, x: SharingStep): seq<LiveRecord> {
    var w := StepRound(env, store, x);
    if Planned(w) then Final(w) else store
  }

  ghost function RunAll(env: Env, store: seq<LiveRecord>, xs: seq<SharingStep>): seq<LiveRecord>
    decreases |xs|
  {
    if xs == [] then store else RunAll(env, Reconciled(env, store, xs[0]), xs[1..])
  }

  lemma FinalKeySource(w: SharingRound, y: LiveRecord)
    requires Planned(w) && y in Final(w)
    ensures CreatesWith(w.env, w.planName, Executed(w), y.keeperUid, KeyOfRecord(w.env, y))
            || StoredWith(w.env, w.store, y.keeperUid, KeyOfRecord(w.env, y))
  {
    hide Planned, KeyOfRecord, Executed, CreatesWith, StoredWith;
    FinalRecord(w, y);
    RoundIsSharing(w);
    PlannedStore(w);
    PlannedEmail(w);
    KeySource(w.env, w.planName, w.store, Executed(w), y.keeperUid);
  }

  /** Two final records with one key are one: keys of the store are apart, creates are of
      keys the store does not have, and each key is created once. */
  lemma FinalKeysApart(w: SharingRound, y: LiveRecord, z: LiveRecord)
    requires Planned(w) && KeysApart(w.env, w.store) && y in Final(w) && z in Final(w)
    requires KeyOfRecord(w.env, y).Some? && KeyOfRecord(w.env, y) == KeyOfRecord(w.env, z)
    ensures y == z
  {
    hide Planned, KeyOfRecord, Executed, Final, CreatesWith, HitRecord, KeysApart, NewUid;
    var key := KeyOfRecord(w.env, y);
    FinalKeySource(w, y);
    FinalKeySource(w, z);
    if exists uid :: CreatesWith(w.env, w.planName, Executed(w), uid, key) {
      var uid :| CreatesWith(w.env, w.planName, Executed(w), uid, key);
      CreateHasItsRow(w, uid, key);
      var b, o :| o in SharesOf(w, b) && HitRecord(w, o).None? && o.key == key && NewUid(w, o) == uid;
      NothingUnder(w, o, y.keeperUid);
      NothingUnder(w, o, z.keeperUid);
      CreateOfKeyIsAt(w, b, o, y.keeperUid);
      CreateOfKeyIsAt(w, b, o, z.keeperUid);
    } else {
      SameKeySameStored(w, Find(w.store, y.keeperUid).value, Find(w.store, z.keeperUid).value);
    }
    FinalRecord(w, y);
    FinalRecord(w, z);
  }

  lemma SameKeySameStored(w: SharingRound, r: LiveRecord, x: LiveRecord)
    requires KeysApart(w.env, w.store) && r in w.store && x in w.store
    requires KeyOfRecord(w.env, r).Some? && KeyOfRecord(w.env, r) == KeyOfRecord(w.env, x)
    ensures r == x
  {}

  /** A round keeps keeper uids and keys distinct ... */
  lemma RoundKeepsApart(env: Env, store: seq<LiveRecord>, x: SharingStep)
    requires DistinctUids(store) && KeysApart(env, store)
    ensures DistinctUids(Reconciled(env, store, x)) && KeysApart(env, Reconciled(env, store, x))
  {
    hide Planned, KeyOfRecord, Executed;
    var w := StepRound(env, store, x);
    if Planned(w) {
      RowsKeepDistinct(w.env, w.planName, w.store, Executed(w));
      forall y, z | y in Final(w) && z in Final(w) && KeyOfRecord(env, y).Some? && KeyOfRecord(env, y) == KeyOfRecord(env, z) ensures y == z {
        FinalKeysApart(w, y, z);
      }
    }
  }

  lemma {:induction false} RunsStayApart(env: Env, store: seq<LiveRecord>, xs: seq<SharingStep>)
    requires DistinctUids(store) && KeysApart(env, store)
    ensures DistinctUids(RunAll(env, store, xs)) && KeysApart(env, RunAll(env, store, xs))
    decreases |xs|
  {
    hide KeysApart, Reconciled;
    if xs != [] {
      RoundKeepsApart(env, store, xs[0]);
      RunsStayApart(env, Reconciled(env, store, xs[0]), xs[1..]);
    }
  }

  /** From an empty provider, after any rounds of any manifests under any names, one more
      conflict-free round converges exactly when it spares the records it matches and
      deletes: distinct keys need not be assumed. */
  lemma SharingRunsConvergeIff(env: Env, xs: seq<SharingStep>, x: SharingStep)
    requires EmailSound(env) && Injective(env.stableUid) && Referenced(env, x.m)
    requires NothingRaised(StepRound(env, RunAll(env, [], xs), x))
    ensures var w := StepRound(env, RunAll(env, [], xs), x);
            Planned(w) && (NoConflict(w) ==> (AllSkip(w) <==> Spared(w)))
  {
    hide KeysApart, Planned, NoConflict, AllSkip, Spared, NothingRaised, Referenced;
    EmptyIsApart(env);
    RunsStayApart(env, [], xs);
    SharingConvergesIff(env, RunAll(env, [], xs), x.m, x.st, x.planName, x.order);
  }

  lemma EmptyIsApart(env: Env)
    ensures DistinctUids([]) && KeysApart(env, [])
  {}

  // ----------------------------------------------------------------- one manifest name

  /** A record made under one manifest name: its keeper uid comes from its uid_ref. */
  ghost predicate Made(env: Env, name: string, r: LiveRecord) {
    r.marker.Some? && r.keeperUid == env.stableUid(name + ":" + OrEmpty(r.marker.value.uidRef))
  }

  ghost predicate AllMade(env: Env, name: string, store: seq<LiveRecord>) {
    DistinctUids(store) && forall r | r in store :: Made(env, name, r)
  }

  /** Every row keeps that, so it holds of all stores grown from the empty one. */
  lemma RowKeepsMade(env: Env, name: string, store: seq<LiveRecord>, c: Change)
    requires AllMade(env, name, store)
    ensures AllMade(env, name, ApplyRow(env, name, store, c))
  {
    var next := ApplyRow(env, name, store, c);
    RowIsPointwise(env, name, store, c, "");
    forall r | r in next ensures Made(env, name, r) {
      FindIs(next, r);
      RowIsPointwise(env, name, store, c, r.keeperUid);
      if r.keeperUid != Target(env, name, c) || c.kind != Create {
        assert Made(env, name, Find(store, r.keeperUid).value);
      }
    }
  }

  lemma {:induction false} RunKeepsMade(env: Env, name: string, store: seq<LiveRecord>, cs: seq<Change>)
    requires AllMade(env, name, store)
    ensures AllMade(env, name, Run(env, name, false, store, cs))
    decreases |cs|
  {
    if cs != [] {
      RowKeepsMade(env, name, store, cs[0]);
      RunKeepsMade(env, name, ApplyRow(env, name, store, cs[0]), cs[1..]);
    }
  }

  lemma SeedTells(name: string, a: string, b: string)
    ensures name + ":" + a == name + ":" + b <==> a == b
  {
    assert (name + ":" + a)[|name| + 1..] == a && (name + ":" + b)[|name| + 1..] == b;
  }

  /** In such a store records are moved onto exactly when they carry the uid_ref of a
      manifest row that matches nothing. */
  lemma SparedIffNoneMoved(w: SharingRound)
    requires AllMade(w.env, w.planName, w.store) && Injective(w.env.stableUid)
    ensures Spared(w) <==>
              forall b: Block, o, r | o in SharesOf(w, b) && HitRecord(w, o).None? && r in w.store
                                      && OrEmpty(r.marker.value.uidRef) == o.uidRef :: !IsMatched(w, r) && !Doomed(w, r)
  {
    hide IsMatched, Doomed, HitRecord;
    forall b: Block, o, r | o in SharesOf(w, b) && HitRecord(w, o).None? && r in w.store
      ensures OrEmpty(r.marker.value.uidRef) == o.uidRef <==> r.keeperUid == NewUid(w, o)
    {
      assert Made(w.env, w.planName, r);
      SeedTells(w.planName, OrEmpty(r.marker.value.uidRef), o.uidRef);
    }
  }

  // ------------------------------------------------------------------- a folder that moves

  /** A grant of a shared folder to a team. */
  function Grant(folder: string): Dict {
    map["uid_ref" := JStr("grant"), "shared_folder_uid_ref" := JStr(folder), "kind" := JStr("grantee"), "team_uid_ref" := JStr("team")]
  }

  function GrantShare(env: Env, folder: string): Share {
    ShareOf(env, ShareFolder, Grant(folder))
  }

  lemma GrantIs(env: Env, folder: string)
    requires folder != ""
    ensures var o := GrantShare(env, folder);
            && o.block == ShareFolder && o.uidRef == "grant" && o.key == Some(ShareKey(ShareFolder, folder, "grantee", "team"))
            && o.payload == Grant(folder)
  {
    var p := Grant(folder);
    assert Get(p, "grantee") == JNull && Get(p, "permissions") == JNull && Get(p, "user_email") == JNull;
    assert Flatten(ShareFolder, p) == p;
    assert GranteeOf(env, p) == Team("team") && "team_uid_ref" in p;
    assert Project(env, ShareFolder, p) == p;
  }

  /** The provider holds the grant of folder `a`, made under the name; the manifest now
      grants folder `b`. */
  function MovedGrant(env: Env, a: string, b: string, st: ShareSettings, order: seq<string>): SharingRound {
    SharingRound(env, [Created(env, st.name, CreateOrNothing(st, GrantShare(env, a)))], [], [GrantShare(env, b)], st, st.name, order)
  }

  function CreateOrNothing(st: ShareSettings, o: Share): Change {
    if o.key.Some? then CreateChange(st, o) else RowBase(o.block, o.uidRef, "", Create)
  }

  lemma OldGrant(env: Env, a: string, b: string, st: ShareSettings, order: seq<string>)
    requires EmailSound(env) && a != "" && b != "" && a != b
    ensures var w, r := MovedGrant(env, a, b, st, order), MovedGrant(env, a, b, st, order).store[0];
            && r.resourceType == SHARE_FOLDER && r.keeperUid == NewUid(w, w.folders[0]) && Managed(r.marker, st.name) && Supported(r.marker)
            && KeyOfRecord(env, r) == Some(ShareKey(ShareFolder, a, "grantee", "team"))
            && HitRecord(w, w.folders[0]).None?
            && Proper(env, ShareFolder, w.folders[0])
  {
    hide Grant, ShareOf, KeyOf, Normalise, KeyOfRecord, Proper;
    GrantIs(env, a);
    GrantIs(env, b);
    ShareIsProper(env, ShareFolder, Grant(a));
    ShareIsProper(env, ShareFolder, Grant(b));
    CreatedKey(env, st.name, st, ShareFolder, GrantShare(env, a));
    var w := MovedGrant(env, a, b, st, order);
    var found := HitRecord(w, w.folders[0]);
    if found.Some? { HitHasKey(w, w.folders[0]); }
  }

  lemma OldGrantIsOrphan(env: Env, a: string, b: string, st: ShareSettings, order: seq<string>)
    requires EmailSound(env) && a != "" && b != "" && a != b
    ensures var w := MovedGrant(env, a, b, st, order); OrphanRecord(w, ShareFolder, w.store[0]) && w.store[0] in w.store
  {
    hide Created, HitRecord, GrantShare;
    OldGrant(env, a, b, st, order);
  }

  /** The diff of one folder row against one live row with another key. */
  lemma BlockOfOne(st: ShareSettings, o: Share, l: LiveShare)
    requires o.block == ShareFolder && o.key.Some? && l.key.Some? && l.key != o.key && Supported(l.marker)
    ensures BlockDiff(ShareFolder, st, [o], [l]) == BlockRows([CreateChange(st, o), OrphanShare(ShareFolder, st, l)])
  {
    hide OrphanShare, ShareTitle;
    var live, ds := [l], [o];
    assert FirstWithKey(live, o.key.value) == 1;
    assert HitOf(live, o).Missed? && DesiredRow(st, live, o) == [CreateChange(st, o)];
    assert ds[..0] == [] && live[..0] == [];
    assert ShareRows(st, live, ds) == [] + [CreateChange(st, o)];
    assert MatchedShares(live, ds) == MatchedShares(live, ds[..0]) + {} == {};
    assert Unmatched(live, {}) == [] + [l];
    assert OrphanShares(ShareFolder, st, [l]) == [OrphanShare(ShareFolder, st, l)];
    assert Indexable(ds);
    OneIsReadable(live, ds);
  }

  lemma OneIsReadable(live: seq<LiveShare>, ds: seq<Share>)
    requires forall o | o in ds :: o.key.Some?
    requires forall l | l in live :: Supported(l.marker)
    ensures !Unreadable(live, ds)
  {
    hide Supported;
    forall o | o in ds && HitOf(live, o).ByKey? ensures Supported(live[HitOf(live, o).i].marker) { assert live[HitOf(live, o).i] in live; }
    forall i: nat | i < |live| ensures Supported(live[i].marker) { assert live[i] in live; }
  }

  lemma EmptyBlock(b: Block, st: ShareSettings)
    ensures BlockDiff(b, st, [], []) == BlockRows([])
  {}

  lemma MovedGrantRows(env: Env, a: string, b: string, st: ShareSettings, order: seq<string>)
    requires EmailSound(env) && a != "" && b != "" && a != b
    ensures var w := MovedGrant(env, a, b, st, order);
            && RowsOf(w, RecordShare) == BlockRows([])
            && w.folders[0].key.Some? && LiveShareOf(env, ShareFolder, w.store[0]).key.Some?
            && RowsOf(w, ShareFolder)
               == BlockRows([CreateChange(st, w.folders[0]), OrphanShare(ShareFolder, st, LiveShareOf(env, ShareFolder, w.store[0]))])
  {
    hide Created, HitRecord, GrantShare, Proper, KeyOfRecord, BlockDiff, LiveOf, OrphanShare, ShareTitle, KeyOf, Project;
    var w := MovedGrant(env, a, b, st, order);
    GrantIs(env, b);
    OldGrant(env, a, b, st, order);
    MovedGrantLive(env, a, b, st, order);
    EmptyBlock(RecordShare, st);
    assert LiveShareOf(env, ShareFolder, w.store[0]).marker == w.store[0].marker;
    BlockOfOne(st, w.folders[0], LiveShareOf(env, ShareFolder, w.store[0]));
  }

  lemma MovedGrantIsPlanned(env: Env, a: string, b: string, st: ShareSettings, order: seq<string>)
    requires EmailSound(env) && a != "" && b != "" && a != b
    ensures Planned(MovedGrant(env, a, b, st, order))
  {
    hide Created, HitRecord, GrantShare, Proper, KeyOfRecord, RowsOf;
    var w := MovedGrant(env, a, b, st, order);
    OldGrant(env, a, b, st, order);
    MovedGrantRows(env, a, b, st, order);
    forall d: Block ensures RowsOf(w, d).BlockRows? { if d != RecordShare { assert d == ShareFolder; } }
    forall d: Block, p | p in SharesOf(w, d) ensures Proper(env, d, p) { if d != RecordShare { assert d == ShareFolder && p == w.folders[0]; } }
  }

  lemma MovedGrantLive(env: Env, a: string, b: string, st: ShareSettings, order: seq<string>)
    requires EmailSound(env) && a != "" && b != "" && a != b
    ensures var w := MovedGrant(env, a, b, st, order);
            && LiveOf(env, RecordShare, w.store) == []
            && LiveOf(env, ShareFolder, w.store) == [LiveShareOf(env, ShareFolder, w.store[0])]
            && LiveShareOf(env, ShareFolder, w.store[0]).key == Some(ShareKey(ShareFolder, a, "grantee", "team"))
  {
    hide Created, HitRecord, GrantShare, KeyOfRecord;
    OldGrant(env, a, b, st, order);
    var w := MovedGrant(env, a, b, st, order);
    assert w.store[..0] == [] && |w.store| == 1;
    RecordKeyIs(env, ShareFolder, w.store[0]);
  }

  lemma MovedGrantHasNoConflict(env: Env, a: string, b: string, st: ShareSettings, order: seq<string>)
    requires EmailSound(env) && a != "" && b != "" && a != b
    ensures Planned(MovedGrant(env, a, b, st, order)) && NoConflict(MovedGrant(env, a, b, st, order))
  {
    hide Planned, Created, GrantShare;
    MovedGrantIsPlanned(env, a, b, st, order);
    var w := MovedGrant(env, a, b, st, order);
    forall c | c in PlanOf(w).changes ensures c.kind != Conflict { MovedGrantKinds(env, a, b, st, order, c); }
  }

  lemma MovedGrantKinds(env: Env, a: string, b: string, st: ShareSettings, order: seq<string>, c: Change)
    requires EmailSound(env) && a != "" && b != "" && a != b
    requires Planned(MovedGrant(env, a, b, st, order)) && c in PlanOf(MovedGrant(env, a, b, st, order)).changes
    ensures c.kind != Conflict
  {
    hide Created, GrantShare, Ordered, Planned, RowsOf, OrphanShare, LiveShareOf;
    var w := MovedGrant(env, a, b, st, order);
    MovedGrantRows(env, a, b, st, order);
    MovedGrantLive(env, a, b, st, order);
    GranteeIsNoConflict(env, st, w.store[0]);
    assert PlanOf(w).changes == [] + [CreateChange(st, w.folders[0]), OrphanShare(ShareFolder, st, LiveShareOf(env, ShareFolder, w.store[0]))];
  }

  lemma GranteeIsNoConflict(env: Env, st: ShareSettings, r: LiveRecord)
    requires var k := LiveShareOf(env, ShareFolder, r).key; k.Some? && k.value.role == "grantee"
    ensures OrphanShare(ShareFolder, st, LiveShareOf(env, ShareFolder, r)).kind != Conflict
  {
    hide Project, GranteeOf, ShareTitle, Managed;
  }

  /** A concrete loss: a managed grant that moves to another folder, with deletes on, is gone
      after the round, and the next diff is not all SKIP. */
  lemma GrantIsLost(env: Env, a: string, b: string, st: ShareSettings, order: seq<string>)
    requires EmailSound(env) && a != "" && b != "" && a != b && st.allowDelete
    ensures var w := MovedGrant(env, a, b, st, order);
            && Planned(w) && NoConflict(w) && Moved(w, ShareFolder, w.folders[0], w.store[0]) && Doomed(w, w.store[0])
            && Find(Final(w), NewUid(w, w.folders[0])).None? && !AllSkip(w)
  {
    hide Planned, NoConflict, Created, GrantShare, HitRecord, AllSkip, Final, NewUid;
    var w := MovedGrant(env, a, b, st, order);
    MovedGrantHasNoConflict(env, a, b, st, order);
    OldGrant(env, a, b, st, order);
    OldGrantIsOrphan(env, a, b, st, order);
    MovedRowIsLost(w, ShareFolder, w.folders[0], w.store[0]);
  }

  /** With deletes off the same grant of the old folder is replaced in silence. */
  lemma GrantIsReplaced(env: Env, a: string, b: string, st: ShareSettings, order: seq<string>)
    requires EmailSound(env) && Injective(env.stableUid) && a != "" && b != "" && a != b && !st.allowDelete
    ensures var w := MovedGrant(env, a, b, st, order);
            Planned(w) && NoConflict(w) && AllSkip(w) && Managed(w.store[0].marker, st.name) && w.store[0] !in Final(w)
  {
    hide Planned, NoConflict, Created, GrantShare, HitRecord, AllSkip, Final, NewUid;
    var w := MovedGrant(env, a, b, st, order);
    MovedGrantHasNoConflict(env, a, b, st, order);
    OldGrant(env, a, b, st, order);
    OldGrantIsOrphan(env, a, b, st, order);
    forall d: Block, p | p in SharesOf(w, d) ensures HitRecord(w, p) != Some(w.store[0]) {
      if d != RecordShare { assert d == ShareFolder && p == w.folders[0]; }
    }
    assert !IsMatched(w, w.store[0]);
    MovedRowReplacesInSilence(w, ShareFolder, w.folders[0], w.store[0]);
  }
}
