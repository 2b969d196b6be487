/** Convergence of the PAM reconcile loop: diff, apply, and the next diff is clean
    (keeper_sdk/core/diff.py, keeper_sdk/providers/mock.py). */
module PamConvergence {
  import opened Json
  import opened OrderedDict
  import opened Overlay
  import opened Plans
  import opened PamDiff
  import opened MockProvider

  // --------------------------------------------------------- comparing what was written

  lemma BrowserSettingsReflexive(v: Json)
    ensures BrowserSettingsEquivalent(v, v)
  {}

  /** A field that carries the desired value is no drift, under every comparison. */
  lemma EqualIsNoDrift(t: Text, resourceType: string, k: string, live: Dict, desired: Dict, marker: Option<Marker>, uidRef: string)
    requires k in desired && Get(live, k) == desired[k]
    ensures !Differs(t, resourceType, k, live, desired, marker, uidRef)
  {
    BrowserSettingsReflexive(desired[k]);
    ResourceSettingsReflexive(desired[k]);
    if desired[k].JObj? {
      MatchesReflexive(desired[k].fields);
    }
  }

  /** The verdict on a field survives changes to other fields and the update of the marker. */
  lemma VerdictIsLocal(t: Text, d: Desired, k: string, live: Dict, live': Dict, marker: Option<Marker>, marker': Option<Marker>)
    requires k in d.payload && !Differs(t, d.resourceType, k, live, d.payload, marker, d.uidRef)
    requires (k in live <==> k in live') && Get(live, k) == Get(live', k)
    requires marker.Some? && marker'.Some? && marker'.value.manager == marker.value.manager
    requires marker'.value.uidRef == marker.value.uidRef && marker'.value.resourceType == Some(d.resourceType)
    ensures !Differs(t, d.resourceType, k, live', d.payload, marker', d.uidRef)
  {}

  // ------------------------------------------------------------------ what lookups find

  lemma {:induction false} ByUidFinds(live: seq<LiveRecord>, u: string)
    ensures u in ByUid(live) <==> exists r :: r in live && UidOf(r) == Some(u)
    ensures u in ByUid(live) ==> ByUid(live)[u] in live && UidOf(ByUid(live)[u]) == Some(u)
  {
    if live != [] {
      var n := |live| - 1;
      ByUidFinds(live[..n], u);
      assert live == live[..n] + [live[n]];
      if UidOf(live[n]) == Some(u) { assert live[n] in live; }
    }
  }

  lemma ByUidIs(live: seq<LiveRecord>, u: string, r: LiveRecord)
    requires UidsDistinct(live) && r in live && UidOf(r) == Some(u)
    ensures u in ByUid(live) && ByUid(live)[u] == r
  {
    ByUidFinds(live, u);
    var i :| 0 <= i < |live| && live[i] == r;
    var j :| 0 <= j < |live| && live[j] == ByUid(live)[u];
  }

  lemma {:induction false} ByTitleFinds(live: seq<LiveRecord>, t: TitleKey)
    ensures t in ByTitle(live) <==> exists r :: r in live && TitleOf(r) == t
    ensures t in ByTitle(live) ==> ByTitle(live)[t] in live && TitleOf(ByTitle(live)[t]) == t
  {
    if live != [] {
      var n := |live| - 1;
      ByTitleFinds(live[..n], t);
      assert live == live[..n] + [live[n]];
      if TitleOf(live[n]) == t { assert live[n] in live; }
    }
  }

  /** Position `i` holds the last record with the title. */
  ghost predicate LastWithTitle(live: seq<LiveRecord>, t: TitleKey, i: nat) {
    i < |live| && TitleOf(live[i]) == t && forall j | i < j < |live| :: TitleOf(live[j]) != t
  }

  lemma {:induction false} ByTitleIs(live: seq<LiveRecord>, t: TitleKey, i: nat)
    requires LastWithTitle(live, t, i)
    ensures t in ByTitle(live) && ByTitle(live)[t] == live[i]
  {
    if i < |live| - 1 {
      ByTitleIs(live[..|live| - 1], t, i);
    }
  }

  lemma {:induction false} ByTitleAt(live: seq<LiveRecord>, t: TitleKey) returns (i: nat)
    requires t in ByTitle(live)
    ensures LastWithTitle(live, t, i) && ByTitle(live)[t] == live[i]
  {
    var n := |live| - 1;
    if TitleOf(live[n]) == t {
      i := n;
    } else {
      i := ByTitleAt(live[..n], t);
    }
  }

  /** Which record a title finds does not change when a row neither deletes it nor adds
      another record of that title. */
  lemma TitleHitStays(env: Env, name: string, store: seq<LiveRecord>, c: Change, t: TitleKey, uid: string)
    requires DistinctUids(store)
    requires t in ByTitle(store) && ByTitle(store)[t].keeperUid == uid
    requires c.kind == Create ==> Find(store, Target(env, name, c)).None? && (c.resourceType, c.title) != t
    requires c.kind == Delete ==> Target(env, name, c) != uid
    ensures var next := ApplyRow(env, name, store, c);
            t in ByTitle(next) && ByTitle(next)[t].keeperUid == uid
  {
    hide ByTitle;
    var i := ByTitleAt(store, t);
    var k := Position(store, KEEPER_UID_OF, Target(env, name, c));
    var next := ApplyRow(env, name, store, c);
    if c.kind == Delete && k < |store| {
      ByTitleIs(next, t, if k < i then i - 1 else i);
    } else {
      ByTitleIs(next, t, i);
    }
  }

  lemma {:induction false} TitleHitStaysThroughout(env: Env, name: string, store: seq<LiveRecord>, cs: seq<Change>, t: TitleKey, uid: string)
    requires DistinctUids(store) && DistinctTargets(env, name, cs)
    requires t in ByTitle(store) && ByTitle(store)[t].keeperUid == uid
    requires forall c | c in cs && c.kind == Create :: Find(store, Target(env, name, c)).None? && (c.resourceType, c.title) != t
    requires forall c | c in cs && c.kind == Delete :: Target(env, name, c) != uid
    ensures var out := Run(env, name, false, store, cs);
            t in ByTitle(out) && ByTitle(out)[t].keeperUid == uid
    decreases |cs|
  {
    if cs != [] {
      var next := ApplyRow(env, name, store, cs[0]);
      assert cs[0] in cs;
      TitleHitStays(env, name, store, cs[0], t, uid);
      RowIsPointwise(env, name, store, cs[0], "");
      forall c | c in cs[1..] && c.kind == Create
        ensures Find(next, Target(env, name, c)).None? && (c.resourceType, c.title) != t
      {
        var j :| 0 <= j < |cs[1..]| && cs[1..][j] == c;
        assert cs[j + 1] == c && c in cs;
        RowIsPointwise(env, name, store, cs[0], Target(env, name, c));
      }
      TitleHitStaysThroughout(env, name, next, cs[1..], t, uid);
    }
  }

  // -------------------------------------------------------- created records in their order

  /** Both keeper uids are stored, the first one before the second. */
  predicate InOrder(store: seq<LiveRecord>, u: string, v: string) {
    Position(store, KEEPER_UID_OF, u) < Position(store, KEEPER_UID_OF, v) < |store|
  }

  lemma RowKeepsOrder(env: Env, name: string, store: seq<LiveRecord>, c: Change, u: string, v: string)
    requires DistinctUids(store) && InOrder(store, u, v)
    requires c.kind == Delete ==> Target(env, name, c) !in {u, v}
    ensures InOrder(ApplyRow(env, name, store, c), u, v)
  {
    hide Created, Updated, Position, InOrder;
    match c.kind {
      case Create => StoreKeepsOrder(store, Created(env, name, c), u, v);
      case Update =>
        var existing := Find(store, Target(env, name, c));
        if existing.Some? { StoreKeepsOrder(store, Updated(env, name, c, existing.value), u, v); }
      case Delete => PopKeepsOrder(store, Target(env, name, c), u, v);
      case _ =>
    }
  }

  lemma StoreKeepsOrder(store: seq<LiveRecord>, r: LiveRecord, u: string, v: string)
    requires InOrder(store, u, v)
    ensures InOrder(Put(store, r), u, v)
  {
    StoreKeepsPosition(store, KEEPER_UID_OF, r, u);
    StoreKeepsPosition(store, KEEPER_UID_OF, r, v);
  }

  lemma PopKeepsOrder(store: seq<LiveRecord>, uid: string, u: string, v: string)
    requires InOrder(store, u, v) && uid != u && uid != v
    ensures InOrder(Pop(store, uid), u, v)
  {
    DropKeepsOrder(store, KEEPER_UID_OF, uid, u, v);
  }

  lemma {:induction false} RowsKeepOrder(env: Env, name: string, store: seq<LiveRecord>, cs: seq<Change>, u: string, v: string)
    requires DistinctUids(store) && InOrder(store, u, v)
    requires forall c | c in cs && c.kind == Delete :: Target(env, name, c) !in {u, v}
    ensures InOrder(Run(env, name, false, store, cs), u, v)
    decreases |cs|
  {
    if cs != [] {
      assert cs[0] in cs;
      RowKeepsOrder(env, name, store, cs[0], u, v);
      RowIsPointwise(env, name, store, cs[0], "");
      RowsKeepOrder(env, name, ApplyRow(env, name, store, cs[0]), cs[1..], u, v);
    }
  }

  /** A create on an unused keeper uid is appended. */
  lemma CreateComesLast(env: Env, name: string, store: seq<LiveRecord>, c: Change, u: string)
    requires DistinctUids(store) && c.kind == Create && Find(store, Target(env, name, c)).None? && Find(store, u).Some?
    ensures InOrder(ApplyRow(env, name, store, c), u, Target(env, name, c))
  {
    var next := ApplyRow(env, name, store, c);
    assert next == store + [Created(env, name, c)];
    PositionIs(next, KEEPER_UID_OF, u, Position(store, KEEPER_UID_OF, u));
    PositionIs(next, KEEPER_UID_OF, Target(env, name, c), |store|);
  }

  /** No create falls on a stored record. */
  ghost predicate Unused(env: Env, name: string, store: seq<LiveRecord>, cs: seq<Change>) {
    forall c | c in cs && c.kind == Create :: Find(store, Target(env, name, c)).None?
  }

  lemma RestIsUnused(env: Env, name: string, store: seq<LiveRecord>, cs: seq<Change>)
    requires cs != [] && DistinctUids(store) && DistinctTargets(env, name, cs) && Unused(env, name, store, cs)
    ensures var next := ApplyRow(env, name, store, cs[0]);
            DistinctUids(next) && DistinctTargets(env, name, cs[1..]) && Unused(env, name, next, cs[1..])
  {
    RowIsPointwise(env, name, store, cs[0], "");
    forall c | c in cs[1..] && c.kind == Create ensures Find(ApplyRow(env, name, store, cs[0]), Target(env, name, c)).None? {
      var j :| 0 <= j < |cs[1..]| && cs[1..][j] == c;
      assert cs[j + 1] == c && c in cs;
      RowIsPointwise(env, name, store, cs[0], Target(env, name, c));
    }
  }

  lemma TargetOnce(env: Env, name: string, cs: seq<Change>, i: nat, c: Change)
    requires DistinctTargets(env, name, cs) && i < |cs| && c in cs
    ensures Target(env, name, c) == Target(env, name, cs[i]) ==> c == cs[i]
  {
    var j :| 0 <= j < |cs| && cs[j] == c;
  }

  lemma {:induction false} CreatedAfter(env: Env, name: string, store: seq<LiveRecord>, cs: seq<Change>, u: string, b: nat)
    requires DistinctUids(store) && DistinctTargets(env, name, cs) && Unused(env, name, store, cs)
    requires b < |cs| && cs[b].kind == Create && Find(store, u).Some?
    requires forall c | c in cs :: Target(env, name, c) != u
    ensures InOrder(Run(env, name, false, store, cs), u, Target(env, name, cs[b]))
    decreases |cs|
  {
    var next, v := ApplyRow(env, name, store, cs[0]), Target(env, name, cs[b]);
    assert cs[0] in cs && cs[b] in cs;
    RestIsUnused(env, name, store, cs);
    RowIsPointwise(env, name, store, cs[0], u);
    if b == 0 {
      CreateComesLast(env, name, store, cs[0], u);
      forall c | c in cs[1..] && c.kind == Delete ensures Target(env, name, c) !in {u, v} {
        assert c in cs;
        TargetOnce(env, name, cs, 0, c);
      }
      RowsKeepOrder(env, name, next, cs[1..], u, v);
    } else {
      assert cs[1..][b - 1] == cs[b];
      CreatedAfter(env, name, next, cs[1..], u, b - 1);
    }
  }

  /** Records are stored in the order in which they are created. */
  lemma {:induction false} CreatedInOrder(env: Env, name: string, store: seq<LiveRecord>, cs: seq<Change>, a: nat, b: nat)
    requires DistinctUids(store) && DistinctTargets(env, name, cs) && Unused(env, name, store, cs)
    requires a < b < |cs| && cs[a].kind == Create && cs[b].kind == Create
    ensures InOrder(Run(env, name, false, store, cs), Target(env, name, cs[a]), Target(env, name, cs[b]))
    decreases |cs|
  {
    var next, u := ApplyRow(env, name, store, cs[0]), Target(env, name, cs[a]);
    RestIsUnused(env, name, store, cs);
    if a == 0 {
      RowIsPointwise(env, name, store, cs[0], u);
      forall c | c in cs[1..] ensures Target(env, name, c) != u {
        var j :| 0 <= j < |cs[1..]| && cs[1..][j] == c;
        assert cs[j + 1] == c;
      }
      CreatedAfter(env, name, next, cs[1..], u, b - 1);
    } else {
      CreatedInOrder(env, name, next, cs[1..], a - 1, b - 1);
    }
  }

  // ------------------------------------------------------------------ orphans, one by one

  lemma {:induction false} OrphansAre(live: seq<LiveRecord>, matched: set<string>, name: string, allowDelete: bool)
    ensures forall c :: c in Orphans(live, matched, name, allowDelete)
              <==> exists r :: r in live && Orphan(r, matched, name) && c == OrphanRow(r, allowDelete)
  {
    if live != [] {
      OrphansAre(live[1..], matched, name, allowDelete);
      assert live == [live[0]] + live[1..];
      forall c ensures c in Orphans(live, matched, name, allowDelete)
                 <==> exists r :: r in live && Orphan(r, matched, name) && c == OrphanRow(r, allowDelete) {
        if r :| r in live && Orphan(r, matched, name) && c == OrphanRow(r, allowDelete) {
          assert r == live[0] || r in live[1..];
        }
        if c in Orphans(live, matched, name, allowDelete) && c !in Orphans(live[1..], matched, name, allowDelete) {
          assert live[0] in live;
        }
      }
    }
  }

  // --------------------------------------------------------------------- one round

  /** One plan-and-apply round: the manifest's objects against a store, the settings of the
      diff, the name the plan carries, and the actionable rows in the order executed. */
  datatype Round = Round(
    env: Env, store: seq<LiveRecord>, ds: seq<Desired>, diffName: string, allowDelete: bool, adopt: bool,
    planName: string, cs: seq<Change>)

  function Hit(w: Round, i: nat): Option<LiveRecord>
    requires i < |w.ds|
  {
    Match(w.store, w.ds[i])
  }

  ghost predicate Planned(w: Round) {
    && DistinctUids(w.store) && NoCollision(w.store)
    && (forall d | d in w.ds :: RowFor(w.env.text, w.store, d, w.adopt).Row?)
    && (forall c | c in w.cs :: c in DesiredPart(w) || c in OrphanPart(w))
    && (forall c | c in w.cs :: c.kind in {Create, Update, Delete})
    && (forall c | c in DesiredPart(w) && c.kind in {Create, Update} :: c in w.cs)
    && (forall c | c in OrphanPart(w) && c.kind == Delete :: c in w.cs)
  }

  function DesiredPart(w: Round): seq<Change>
    requires forall d | d in w.ds :: RowFor(w.env.text, w.store, d, w.adopt).Row?
  {
    DesiredRows(w.env.text, w.store, w.ds, w.adopt)
  }

  function OrphanPart(w: Round): seq<Change>
    requires forall d | d in w.ds :: RowFor(w.env.text, w.store, d, w.adopt).Row?
  {
    Orphans(w.store, Matched(DesiredPart(w)), w.diffName, w.allowDelete)
  }

  ghost predicate NoConflict(w: Round)
    requires Planned(w)
  {
    (forall c | c in DesiredPart(w) :: c.kind != Conflict) && (forall c | c in OrphanPart(w) :: c.kind != Conflict)
  }

  /** No live record is the match of two desired objects. */
  ghost predicate InjectiveMatch(w: Round) {
    forall i, j | 0 <= i < j < |w.ds| && Hit(w, i).Some? && Hit(w, j).Some? ::
      Hit(w, i).value.keeperUid != Hit(w, j).value.keeperUid
  }

  /** The row writes a marker of its own: a create, or the adoption of an unmarked record. */
  predicate WritesMarker(w: Round, i: nat)
    requires i < |w.ds|
  {
    Hit(w, i).None? || Hit(w, i).value.marker.None?
  }

  function EffRef(d: Desired): string {
    if d.uidRef != "" then d.uidRef else d.title
  }

  /** Both objects are created. */
  predicate BothCreated(w: Round, i: nat, j: nat)
    requires i < |w.ds| && j < |w.ds|
  {
    Hit(w, i).None? && Hit(w, j).None?
  }

  /** The reference the i-th row writes is not the uid_ref of the j-th object and not
      written there too; an empty one counts for nothing but the seed of a create. */
  predicate WritesApart(w: Round, i: nat, j: nat)
    requires i < |w.ds| && j < |w.ds|
  {
    && (EffRef(w.ds[i]) != "" ==> EffRef(w.ds[i]) != w.ds[j].uidRef)
    && (WritesMarker(w, j) && EffRef(w.ds[i]) == EffRef(w.ds[j]) ==> EffRef(w.ds[i]) == "" && !BothCreated(w, i, j))
  }

  /** Written references are new: apart from what else the plan names and writes, and from
      what surviving records carry. */
  ghost predicate FreshRefs(w: Round)
    requires Planned(w)
  {
    && (forall i, j | 0 <= i < |w.ds| && 0 <= j < |w.ds| && i != j && WritesMarker(w, i) :: WritesApart(w, i, j))
    && (forall i, r | 0 <= i < |w.ds| && WritesMarker(w, i) && r in w.store && UidOf(r) == Some(EffRef(w.ds[i])) ::
          exists c :: c in w.cs && c.kind == Delete && c.keeperUid == Some(r.keeperUid))
  }

  /** Creates land on unused keeper uids. */
  ghost predicate FreshUids(w: Round)
    requires Planned(w)
  {
    forall c | c in w.cs && c.kind == Create :: Find(w.store, Target(w.env, w.planName, c)).None?
  }

  function TitleKeyOf(d: Desired): TitleKey {
    (d.resourceType, d.title)
  }

  /** The row of the j-th object is executed before that of the i-th. */
  ghost predicate Precedes(w: Round, j: nat, i: nat)
    requires i < |w.ds| && j < |w.ds|
  {
    exists a, b :: 0 <= a < b < |w.cs| && w.cs[a] == RowAt(w, j) && w.cs[b] == RowAt(w, i)
  }

  /** A created object without uid_ref is found by its title, and a title finds the last
      record: another created object of that type and title has to come before. */
  ghost predicate TitleTells(w: Round, i: nat, j: nat)
    requires i < |w.ds| && j < |w.ds|
  {
    BothCreated(w, i, j) && w.ds[i].uidRef == "" && TitleKeyOf(w.ds[i]) == TitleKeyOf(w.ds[j]) ==>
      w.ds[i].title != "" && Precedes(w, j, i)
  }

  ghost predicate TellableTitles(w: Round) {
    forall i, j | 0 <= i < |w.ds| && 0 <= j < |w.ds| && i != j :: TitleTells(w, i, j)
  }

  ghost predicate PamTypes(w: Round) {
    forall d | d in w.ds :: d.resourceType != RECORD_SHARE && d.resourceType != SHARE_FOLDER
  }

  /** No two rows act on one record. */
  ghost predicate Lands(w: Round) {
    && Planned(w) && NoConflict(w) && InjectiveMatch(w) && FreshUids(w) && DistinctTargets(w.env, w.planName, w.cs)
  }

  /** What convergence needs of a round. */
  ghost predicate Sane(w: Round) {
    Lands(w) && FreshRefs(w) && TellableTitles(w) && PamTypes(w)
  }

  function RowAt(w: Round, i: nat): Change
    requires i < |w.ds|
  {
    var v := RowFor(w.env.text, w.store, w.ds[i], w.adopt);
    if v.Row? then v.change else Change(Conflict, None, "", "", None, map[], map[])
  }

  /** The keeper uid of the record that stands for the i-th object after the round ... */
  function UidAt(w: Round, i: nat): string
    requires i < |w.ds|
  {
    if Hit(w, i).None? then Target(w.env, w.planName, RowAt(w, i)) else Hit(w, i).value.keeperUid
  }

  /** ... and that record. */
  function After(w: Round, i: nat): LiveRecord
    requires i < |w.ds|
  {
    var c := RowAt(w, i);
    if Hit(w, i).None? then Created(w.env, w.planName, c)
    else if c.kind == Update then Updated(w.env, w.planName, c, Hit(w, i).value)
    else Hit(w, i).value
  }

  ghost function Final(w: Round): seq<LiveRecord> {
    Run(w.env, w.planName, false, w.store, w.cs)
  }

  lemma RowFacts(w: Round, i: nat)
    requires Planned(w) && i < |w.ds|
    ensures RowAt(w, i) in DesiredPart(w) && RowFor(w.env.text, w.store, w.ds[i], w.adopt) == Row(RowAt(w, i))
    ensures RowAt(w, i).kind in {Create, Update} ==> RowAt(w, i) in w.cs
    ensures RowAt(w, i).kind == Create <==> Hit(w, i).None?
    ensures RowAt(w, i).title == w.ds[i].title && RowAt(w, i).resourceType == w.ds[i].resourceType
    ensures RowAt(w, i).uidRef == Ref(w.ds[i].uidRef) && RefOrTitle(RowAt(w, i)) == EffRef(w.ds[i])
    ensures RowAt(w, i).kind == Noop ==> Hit(w, i).Some? && Hit(w, i).value.marker.Some?
    ensures Hit(w, i).Some? ==> RowAt(w, i).keeperUid == Some(UidAt(w, i)) && Hit(w, i).value in w.store
  {
    hide NoCollision, Orphans, OrphanPart, ChangedFields, ByUid, ByTitle;
    assert w.ds[i] in w.ds;
    assert DesiredPart(w)[i] == RowAt(w, i);
    MatchFacts(w.store, w.ds[i]);
  }

  lemma MatchFacts(live: seq<LiveRecord>, d: Desired)
    ensures Match(live, d).Some? ==> Match(live, d).value in live
    ensures Match(live, d).Some? ==>
              UidOf(Match(live, d).value) == Some(d.uidRef)
              || (TitleOf(Match(live, d).value) == (d.resourceType, d.title) && d.uidRef !in ByUid(live))
    ensures Match(live, d).None? ==> forall r | r in live :: UidOf(r) != Some(d.uidRef) && TitleOf(r) != (d.resourceType, d.title)
  {
    ByUidFinds(live, d.uidRef);
    ByTitleFinds(live, (d.resourceType, d.title));
  }

  /** Every executed create or update is a desired row ... */
  lemma DesiredOrigin(w: Round, c: Change) returns (i: nat)
    requires Planned(w) && c in w.cs && c.kind != Delete
    ensures i < |w.ds| && c == RowAt(w, i)
  {
    OrphansAre(w.store, Matched(DesiredPart(w)), w.diffName, w.allowDelete);
    assert c in DesiredPart(w);
    i :| 0 <= i < |w.ds| && DesiredPart(w)[i] == c;
  }

  lemma DesiredRowsAreNoDeletes(w: Round, c: Change)
    requires Planned(w) && c in DesiredPart(w)
    ensures c.kind != Delete
  {
    hide Match, ChangedFields, Run;
    var i :| 0 <= i < |w.ds| && DesiredPart(w)[i] == c;
  }

  /** ... and every executed delete removes an unmatched record. */
  lemma DeleteOrigin(w: Round, c: Change) returns (r: LiveRecord)
    requires Planned(w) && c in w.cs && c.kind == Delete
    ensures r in w.store && Orphan(r, Matched(DesiredPart(w)), w.diffName) && c == OrphanRow(r, w.allowDelete)
  {
    if c in DesiredPart(w) { DesiredRowsAreNoDeletes(w, c); }
    OrphansAre(w.store, Matched(DesiredPart(w)), w.diffName, w.allowDelete);
    r :| r in w.store && Orphan(r, Matched(DesiredPart(w)), w.diffName) && c == OrphanRow(r, w.allowDelete);
  }

  /** The target of a create or update is the record of a desired object. */
  lemma TargetOwned(w: Round, c: Change) returns (i: nat)
    requires Planned(w) && c in w.cs && c.kind != Delete
    ensures i < |w.ds| && c == RowAt(w, i) && Target(w.env, w.planName, c) == UidAt(w, i)
  {
    i := DesiredOrigin(w, c);
    RowFacts(w, i);
  }

  lemma MatchedUid(w: Round, i: nat)
    requires Planned(w) && NoConflict(w) && i < |w.ds| && Hit(w, i).Some?
    ensures UidAt(w, i) in Matched(DesiredPart(w))
  {
    RowFacts(w, i);
    assert RowAt(w, i).kind in {Update, Noop};
  }

  lemma FindIs(store: seq<LiveRecord>, r: LiveRecord)
    requires DistinctUids(store) && r in store
    ensures Find(store, r.keeperUid) == Some(r)
  {
    var i :| 0 <= i < |store| && store[i] == r;
    PositionIs(store, KEEPER_UID_OF, r.keeperUid, i);
  }

  /** After the round each desired object has its record. */
  lemma RecordAfter(w: Round, i: nat)
    requires Lands(w) && i < |w.ds|
    ensures Find(Final(w), UidAt(w, i)) == Some(After(w, i))
  {
    hide Created, Updated, Match, DesiredPart, OrphanPart, RowAt, Run;
    var c := RowAt(w, i);
    RowFacts(w, i);
    if Hit(w, i).Some? { FindIs(w.store, Hit(w, i).value); }
    if c.kind == Noop {
      forall x | x in w.cs ensures Target(w.env, w.planName, x) != UidAt(w, i) {
        MatchedUid(w, i);
        if x.kind == Delete {
          var r := DeleteOrigin(w, x);
        } else {
          var j := TargetOwned(w, x);
          RowFacts(w, j);
        }
      }
      UntargetedStays(w.env, w.planName, w.store, w.cs, UidAt(w, i));
    } else {
      assert c.kind != Conflict;
      var k :| 0 <= k < |w.cs| && w.cs[k] == c;
      TargetedChanges(w.env, w.planName, w.store, w.cs, k);
    }
  }

  ghost predicate StandsFor(w: Round, x: LiveRecord, i: nat) {
    i < |w.ds| && x == After(w, i) && x.keeperUid == UidAt(w, i)
  }

  ghost predicate Untouched(w: Round, x: LiveRecord) {
    && x in w.store
    && (forall i | 0 <= i < |w.ds| :: UidAt(w, i) != x.keeperUid)
    && (forall c | c in w.cs :: Target(w.env, w.planName, c) != x.keeperUid)
    && (forall c | c in w.cs :: c.keeperUid != Some(x.keeperUid))
  }

  lemma UntargetedIsUntouched(w: Round, x: LiveRecord)
    requires Sane(w) && x in Final(w) && Find(Final(w), x.keeperUid) == Some(x)
    requires forall i | 0 <= i < |w.ds| :: UidAt(w, i) != x.keeperUid
    requires forall c | c in w.cs :: Target(w.env, w.planName, c) != x.keeperUid
    ensures Untouched(w, x)
  {
    UntargetedStays(w.env, w.planName, w.store, w.cs, x.keeperUid);
    forall c | c in w.cs ensures c.keeperUid != Some(x.keeperUid) {
      if c.kind == Create {
        var j := TargetOwned(w, c);
        RowFacts(w, j);
      }
    }
  }

  /** After the round every record either stands for a desired object or was there before,
      unmatched, and was not deleted. */
  lemma RecordBefore(w: Round, x: LiveRecord)
    requires Sane(w) && x in Final(w)
    ensures (exists i :: StandsFor(w, x, i)) || Untouched(w, x)
  {
    hide Created, Updated, Match, DesiredPart, OrphanPart, RowAt, Run;
    RowsKeepDistinct(w.env, w.planName, w.store, w.cs);
    FindIs(Final(w), x);
    if i :| 0 <= i < |w.ds| && UidAt(w, i) == x.keeperUid {
      RecordAfter(w, i);
      assert StandsFor(w, x, i);
    } else {
      forall c | c in w.cs ensures Target(w.env, w.planName, c) != x.keeperUid {
        if c.kind == Delete {
          var k :| 0 <= k < |w.cs| && w.cs[k] == c;
          TargetedChanges(w.env, w.planName, w.store, w.cs, k);
        } else {
          var j := TargetOwned(w, c);
        }
      }
      UntargetedIsUntouched(w, x);
    }
  }

  lemma AfterFacts(w: Round, i: nat)
    requires Lands(w) && i < |w.ds|
    ensures WritesMarker(w, i) ==> UidOf(After(w, i)) == Ref(EffRef(w.ds[i]))
    ensures !WritesMarker(w, i) ==> UidOf(After(w, i)) == UidOf(Hit(w, i).value)
    ensures Hit(w, i).None? ==> TitleOf(After(w, i)) == (w.ds[i].resourceType, w.ds[i].title)
    ensures Hit(w, i).Some? ==> TitleOf(After(w, i)) == TitleOf(Hit(w, i).value)
    ensures After(w, i).keeperUid == UidAt(w, i)
    ensures After(w, i) in Final(w)
  {
    RowFacts(w, i);
    RecordAfter(w, i);
    assert RowAt(w, i).kind != Conflict;
  }

  // ----------------------------------------------------------- the store stays unambiguous

  lemma StoreDoesNotClash(w: Round, a: LiveRecord, b: LiveRecord)
    requires Planned(w) && a in w.store && b in w.store && a.keeperUid != b.keeperUid
    ensures !Clashes(a, b)
  {
    var i :| 0 <= i < |w.store| && w.store[i] == a;
    var j :| 0 <= j < |w.store| && w.store[j] == b;
  }

  /** A matched record is never deleted, so no marker it carries is written anew. */
  lemma WrittenRefIsNew(w: Round, i: nat, r: LiveRecord)
    requires Sane(w) && i < |w.ds| && WritesMarker(w, i) && r in w.store
    requires (exists j :: 0 <= j < |w.ds| && Hit(w, j) == Some(r)) || (forall c | c in w.cs :: c.keeperUid != Some(r.keeperUid))
    ensures UidOf(r) != Some(EffRef(w.ds[i]))
  {
    if UidOf(r) == Some(EffRef(w.ds[i])) {
      var c :| c in w.cs && c.kind == Delete && c.keeperUid == Some(r.keeperUid);
      var x := DeleteOrigin(w, c);
      var j :| 0 <= j < |w.ds| && Hit(w, j) == Some(r);
      MatchedUid(w, j);
    }
  }

  lemma CreatedTitleIsNew(w: Round, i: nat, r: LiveRecord)
    requires Sane(w) && i < |w.ds| && Hit(w, i).None? && r in w.store
    ensures TitleOf(r) != (w.ds[i].resourceType, w.ds[i].title)
  {
    MatchFacts(w.store, w.ds[i]);
  }

  /** Records of two desired objects. */
  lemma AftersDoNotClash(w: Round, i: nat, j: nat)
    requires Sane(w) && i < |w.ds| && j < |w.ds| && UidAt(w, i) != UidAt(w, j)
    requires WritesMarker(w, i) || !WritesMarker(w, j)
    ensures !Clashes(After(w, i), After(w, j))
  {
    hide Final, After, RowAt, Match;
    AfterFacts(w, i);
    AfterFacts(w, j);
    RowFacts(w, i);
    RowFacts(w, j);
    if !WritesMarker(w, i) {
      StoreDoesNotClash(w, Hit(w, i).value, Hit(w, j).value);
    } else {
      assert WritesApart(w, i, j);
      if !WritesMarker(w, j) { WrittenRefIsNew(w, i, Hit(w, j).value); }
      if Hit(w, i).None? {
        if Hit(w, j).Some? { CreatedTitleIsNew(w, i, Hit(w, j).value); }
        assert TitleTells(w, i, j) && TitleTells(w, j, i);
      } else if Hit(w, j).None? {
        CreatedTitleIsNew(w, j, Hit(w, i).value);
      } else {
        StoreDoesNotClash(w, Hit(w, i).value, Hit(w, j).value);
      }
    }
  }

  /** The record of a desired object and one the round did not touch. */
  lemma AfterDoesNotClash(w: Round, i: nat, r: LiveRecord)
    requires Sane(w) && i < |w.ds| && r in w.store && UidAt(w, i) != r.keeperUid
    requires forall c | c in w.cs :: c.keeperUid != Some(r.keeperUid)
    ensures !Clashes(After(w, i), r)
  {
    AfterFacts(w, i);
    RowFacts(w, i);
    if WritesMarker(w, i) { WrittenRefIsNew(w, i, r); }
    if Hit(w, i).None? {
      CreatedTitleIsNew(w, i, r);
    } else {
      StoreDoesNotClash(w, Hit(w, i).value, r);
    }
  }

  lemma ClashesSymmetric(a: LiveRecord, b: LiveRecord)
    ensures Clashes(a, b) <==> Clashes(b, a)
  {}

  lemma FinalDoesNotClash(w: Round, x: LiveRecord, y: LiveRecord)
    requires Sane(w) && x in Final(w) && y in Final(w) && x.keeperUid != y.keeperUid
    ensures !Clashes(x, y)
  {
    RecordBefore(w, x);
    RecordBefore(w, y);
    ClashesSymmetric(x, y);
    if i: nat :| StandsFor(w, x, i) {
      if j: nat :| StandsFor(w, y, j) {
        if WritesMarker(w, i) || !WritesMarker(w, j) { AftersDoNotClash(w, i, j); } else { AftersDoNotClash(w, j, i); }
      } else {
        AfterDoesNotClash(w, i, y);
      }
    } else if j: nat :| StandsFor(w, y, j) {
      AfterDoesNotClash(w, j, x);
    } else {
      StoreDoesNotClash(w, x, y);
    }
  }

  lemma FinalUnambiguous(w: Round)
    requires Sane(w)
    ensures DistinctUids(Final(w)) && NoCollision(Final(w))
  {
    var out := Final(w);
    RowsKeepDistinct(w.env, w.planName, w.store, w.cs);
    forall i, j | 0 <= i < j < |out| ensures !Clashes(out[i], out[j]) {
      FinalDoesNotClash(w, out[i], out[j]);
    }
  }

  // ------------------------------------------------------------- matching again, cleanly

  lemma NobodyElseHasUid(w: Round, i: nat, y: LiveRecord)
    requires Sane(w) && i < |w.ds| && w.ds[i].uidRef != "" && y in Final(w)
    requires UidOf(After(w, i)) != Some(w.ds[i].uidRef)
    ensures UidOf(y) != Some(w.ds[i].uidRef)
  {
    AfterFacts(w, i);
    RowFacts(w, i);
    RecordBefore(w, y);
    MatchFacts(w.store, w.ds[i]);
    ByUidFinds(w.store, w.ds[i].uidRef);
    if j: nat :| StandsFor(w, y, j) {
      AfterFacts(w, j);
      RowFacts(w, j);
      if WritesMarker(w, j) { assert WritesApart(w, j, i); }
    }
  }

  /** Records of created objects lie in the order of their rows. */
  lemma FinalInOrder(w: Round, j: nat, i: nat)
    requires Lands(w) && i < |w.ds| && j < |w.ds| && BothCreated(w, i, j) && Precedes(w, j, i)
    ensures InOrder(Final(w), UidAt(w, j), UidAt(w, i))
  {
    RowFacts(w, i);
    RowFacts(w, j);
    var a, b :| 0 <= a < b < |w.cs| && w.cs[a] == RowAt(w, j) && w.cs[b] == RowAt(w, i);
    CreatedInOrder(w.env, w.planName, w.store, w.cs, a, b);
  }

  /** A record stored before another one of its title is not what the title finds. */
  lemma EarlierIsNotFound(live: seq<LiveRecord>, x: LiveRecord, y: LiveRecord)
    requires DistinctUids(live) && x in live && y in live && TitleOf(x) == TitleOf(y)
    requires InOrder(live, x.keeperUid, y.keeperUid)
    ensures TitleOf(x) in ByTitle(live) && ByTitle(live)[TitleOf(x)] != x
  {
    ByTitleFinds(live, TitleOf(x));
    var k := ByTitleAt(live, TitleOf(x));
    FindIs(live, x);
    FindIs(live, y);
    var p, q := Position(live, KEEPER_UID_OF, x.keeperUid), Position(live, KEEPER_UID_OF, y.keeperUid);
    assert live[p] == x && live[q] == y && !(k < q);
  }

  /** What the title of a created object without uid_ref finds. */
  lemma TitleFindsCreated(w: Round, i: nat)
    requires Sane(w) && i < |w.ds| && Hit(w, i).None? && w.ds[i].uidRef == ""
    ensures var t := TitleKeyOf(w.ds[i]); t in ByTitle(Final(w)) && ByTitle(Final(w))[t] == After(w, i)
  {
    hide Run, Match, RowAt, After, UidAt, FreshRefs;
    var t, x := TitleKeyOf(w.ds[i]), After(w, i);
    AfterFacts(w, i);
    FinalUnambiguous(w);
    ByTitleFinds(Final(w), t);
    var y := ByTitle(Final(w))[t];
    RecordBefore(w, y);
    if j: nat :| StandsFor(w, y, j) {
      AfterFacts(w, j);
      if Hit(w, j).Some? {
        MatchedIsStored(w, j);
        CreatedTitleIsNew(w, i, Hit(w, j).value);
      }
      if i != j {
        assert TitleTells(w, i, j);
        FinalInOrder(w, j, i);
        EarlierIsNotFound(Final(w), y, x);
      }
    } else {
      CreatedTitleIsNew(w, i, y);
    }
  }

  lemma MatchedIsStored(w: Round, i: nat)
    requires i < |w.ds| && Hit(w, i).Some?
    ensures Hit(w, i).value in w.store
  {
    MatchFacts(w.store, w.ds[i]);
  }

  lemma TitleFindsMatched(w: Round, i: nat)
    requires Sane(w) && i < |w.ds| && Hit(w, i).Some? && w.ds[i].uidRef !in ByUid(w.store)
    ensures var t := (w.ds[i].resourceType, w.ds[i].title);
            t in ByTitle(Final(w)) && ByTitle(Final(w))[t] == After(w, i)
  {
    var t := (w.ds[i].resourceType, w.ds[i].title);
    RowFacts(w, i);
    MatchedUid(w, i);
    ByTitleFinds(w.store, t);
    forall c | c in w.cs && c.kind == Create
      ensures Find(w.store, Target(w.env, w.planName, c)).None? && (c.resourceType, c.title) != t
    {
      var j := DesiredOrigin(w, c);
      RowFacts(w, j);
      CreatedTitleIsNew(w, j, Hit(w, i).value);
    }
    forall c | c in w.cs && c.kind == Delete ensures Target(w.env, w.planName, c) != UidAt(w, i) {
      var r := DeleteOrigin(w, c);
    }
    TitleHitStaysThroughout(w.env, w.planName, w.store, w.cs, t, UidAt(w, i));
    ByTitleFinds(Final(w), t);
    FinalUnambiguous(w);
    FindIs(Final(w), ByTitle(Final(w))[t]);
    RecordAfter(w, i);
  }

  /** The second diff matches every object with its own record. */
  lemma MatchesItsRecord(w: Round, i: nat)
    requires Sane(w) && i < |w.ds|
    ensures Match(Final(w), w.ds[i]) == Some(After(w, i))
  {
    var d, x := w.ds[i], After(w, i);
    AfterFacts(w, i);
    RowFacts(w, i);
    FinalUnambiguous(w);
    if UidOf(x) == Some(d.uidRef) {
      ByUidIs(Final(w), d.uidRef, x);
    } else {
      ByUidFinds(Final(w), d.uidRef);
      if d.uidRef in ByUid(Final(w)) && d.uidRef != "" {
        NobodyElseHasUid(w, i, ByUid(Final(w))[d.uidRef]);
      }
      if Hit(w, i).Some? {
        MatchFacts(w.store, d);
        TitleFindsMatched(w, i);
      } else {
        TitleFindsCreated(w, i);
      }
    }
  }

  /** Its record carries every desired field, so there is nothing left to do. */
  lemma NothingLeft(w: Round, i: nat)
    requires Sane(w) && i < |w.ds|
    ensures After(w, i).marker.Some? && ChangedFields(w.env.text, w.ds[i], After(w, i)) == {}
  {
    hide Differs, Match, Run, Planned, FreshRefs, Orphans;
    var d, x, c, t := w.ds[i], After(w, i), RowAt(w, i), w.env.text;
    RowFacts(w, i);
    assert c.kind != Conflict;
    assert d in w.ds;
    forall k | k in d.payload && k !in IGNORED
      ensures !Differs(t, d.resourceType, k, x.payload, d.payload, x.marker, d.uidRef)
    {
      assert k != "custom_fields";
      if Hit(w, i).None? || Hit(w, i).value.marker.None? {
        EqualIsNoDrift(t, d.resourceType, k, x.payload, d.payload, x.marker, d.uidRef);
      } else {
        var r := Hit(w, i).value;
        var fields := ChangedFields(t, d, r);
        if k in fields {
          EqualIsNoDrift(t, d.resourceType, k, x.payload, d.payload, x.marker, d.uidRef);
        } else if c.kind == Update {
          VerdictIsLocal(t, d, k, r.payload, x.payload, r.marker, x.marker);
        }
      }
    }
  }

  lemma AfterIsReadable(w: Round, i: nat)
    requires Lands(w) && i < |w.ds|
    ensures var x := After(w, i);
            && !Foreign(x) && x.keeperUid == UidAt(w, i)
            && (x.marker.Some? && x.marker.value.version.Some? ==> x.marker.value.version.value == MARKER_VERSION)
  {
    hide Differs, Run, Match;
    AfterFacts(w, i);
    RowFacts(w, i);
    assert RowAt(w, i).kind != Conflict;
  }

  lemma SecondRowIsNoop(w: Round, i: nat)
    requires Sane(w) && i < |w.ds|
    ensures var v := RowFor(w.env.text, Final(w), w.ds[i], false);
            v.Row? && v.change.kind == Noop && v.change.keeperUid == Some(UidAt(w, i))
  {
    hide Match, After, UidAt, Lands, Hit, ChangedFields, Run;
    MatchesItsRecord(w, i);
    NothingLeft(w, i);
    AfterIsReadable(w, i);
  }

  lemma OrphanIsDeleted(w: Round, x: LiveRecord)
    requires Planned(w) && NoConflict(w) && x in w.store && Orphan(x, Matched(DesiredPart(w)), w.diffName)
    ensures exists c :: c in w.cs && c.keeperUid == Some(x.keeperUid)
  {
    OrphansAre(w.store, Matched(DesiredPart(w)), w.diffName, w.allowDelete);
    assert OrphanRow(x, w.allowDelete) in OrphanPart(w);
  }

  lemma MatchedAreUids(w: Round, u: string)
    requires Planned(w) && u in Matched(DesiredPart(w))
    ensures exists i :: 0 <= i < |w.ds| && UidAt(w, i) == u
  {
    var c :| c in DesiredPart(w) && c.kind in {Update, Noop} && c.keeperUid == Some(u);
    var i :| 0 <= i < |w.ds| && DesiredPart(w)[i] == c;
    RowFacts(w, i);
  }

  /** Nothing is left over either: an unmatched record of this manifest would have been
      deleted, or reported as a conflict. */
  lemma NoOrphanLeft(w: Round, matched: set<string>, x: LiveRecord)
    requires Sane(w) && x in Final(w)
    requires forall i | 0 <= i < |w.ds| :: UidAt(w, i) in matched
    ensures !Orphan(x, matched, w.diffName)
  {
    RecordBefore(w, x);
    if Untouched(w, x) {
      if x.keeperUid in Matched(DesiredPart(w)) {
        MatchedAreUids(w, x.keeperUid);
      } else if Orphan(x, Matched(DesiredPart(w)), w.diffName) {
        OrphanIsDeleted(w, x);
      }
    }
  }

  lemma {:induction false} NoOrphansNoRows(live: seq<LiveRecord>, matched: set<string>, name: string, allowDelete: bool)
    requires forall x | x in live :: !Orphan(x, matched, name)
    ensures Orphans(live, matched, name, allowDelete) == []
  {
    if live != [] {
      assert live[0] in live && forall x :: x in live[1..] ==> x in live;
      NoOrphansNoRows(live[1..], matched, name, allowDelete);
    }
  }

  /** The second diff matches the i-th object with its own record and has nothing to do. */
  ghost predicate SettledAt(w: Round, i: nat)
    requires i < |w.ds|
  {
    var v := RowFor(w.env.text, Final(w), w.ds[i], false);
    v.Row? && v.change.kind == Noop && v.change.keeperUid == Some(UidAt(w, i))
  }

  /** One round converges: afterwards every desired object is matched by its own record
      and needs nothing, and no record is an orphan. */
  lemma RoundConverges(w: Round)
    requires Sane(w)
    ensures NoCollision(Final(w))
    ensures forall i | 0 <= i < |w.ds| :: SettledAt(w, i)
    ensures forall d | d in w.ds :: RowFor(w.env.text, Final(w), d, false).Row?
    ensures var rows := DesiredRows(w.env.text, Final(w), w.ds, false);
            Orphans(Final(w), Matched(rows), w.diffName, w.allowDelete) == []
  {
    FinalUnambiguous(w);
    forall i | 0 <= i < |w.ds| ensures SettledAt(w, i) { SecondRowIsNoop(w, i); }
    forall d | d in w.ds ensures RowFor(w.env.text, Final(w), d, false).Row? {
      var i :| 0 <= i < |w.ds| && w.ds[i] == d;
      assert SettledAt(w, i);
    }
    var rows := DesiredRows(w.env.text, Final(w), w.ds, false);
    forall i | 0 <= i < |w.ds| ensures UidAt(w, i) in Matched(rows) {
      assert SettledAt(w, i) && rows[i] in rows;
    }
    forall x | x in Final(w) ensures !Orphan(x, Matched(rows), w.diffName) {
      NoOrphanLeft(w, Matched(rows), x);
    }
    NoOrphansNoRows(Final(w), Matched(rows), w.diffName, w.allowDelete);
  }

  // ------------------------------------------------------------ and only then it converges

  /** Every object has a keeper uid of its own. */
  ghost predicate UidsApart(w: Round) {
    forall i, j | 0 <= i < j < |w.ds| :: UidAt(w, i) != UidAt(w, j)
  }

  /** What the second diff says of a round that converged. */
  ghost predicate Settled(w: Round) {
    NoCollision(Final(w)) && UidsApart(w) && forall i | 0 <= i < |w.ds| :: SettledAt(w, i)
  }

  lemma SettledMatch(w: Round, i: nat)
    requires Lands(w) && i < |w.ds| && SettledAt(w, i)
    ensures Match(Final(w), w.ds[i]) == Some(After(w, i))
  {
    hide ChangedFields, Run, After, UidAt, Planned, ByUid, ByTitle;
    MatchFacts(Final(w), w.ds[i]);
    RowsKeepUids(w);
    RecordAfter(w, i);
    FindIs(Final(w), Match(Final(w), w.ds[i]).value);
  }

  lemma RowsKeepUids(w: Round)
    requires Planned(w)
    ensures DistinctUids(Final(w))
  {
    RowsKeepDistinct(w.env, w.planName, w.store, w.cs);
  }

  lemma SameRefCollides(live: seq<LiveRecord>, a: LiveRecord, b: LiveRecord)
    requires a in live && b in live && a != b && UidOf(a).Some? && UidOf(a) == UidOf(b)
    ensures !NoCollision(live)
  {
    var i :| 0 <= i < |live| && live[i] == a;
    var j :| 0 <= j < |live| && live[j] == b;
    assert i < j || j < i;
  }

  lemma SameTitleCollides(live: seq<LiveRecord>, a: LiveRecord, b: LiveRecord)
    requires a in live && b in live && a != b && UidOf(a).None? && TitleOf(a) == TitleOf(b)
    ensures !NoCollision(live)
  {
    var i :| 0 <= i < |live| && live[i] == a;
    var j :| 0 <= j < |live| && live[j] == b;
    assert i < j || j < i;
  }

  lemma UidsDiffer(w: Round, i: nat, j: nat)
    requires UidsApart(w) && i < |w.ds| && j < |w.ds| && i != j
    ensures UidAt(w, i) != UidAt(w, j)
  {
    assert i < j || j < i;
  }

  lemma SameSeedSameUid(w: Round, i: nat, j: nat)
    requires Planned(w) && i < |w.ds| && j < |w.ds| && BothCreated(w, i, j)
    ensures EffRef(w.ds[i]) == EffRef(w.ds[j]) ==> UidAt(w, i) == UidAt(w, j)
  {
    hide Planned, RowAt, Match, NewMarker, Created;
    RowFacts(w, i);
    RowFacts(w, j);
  }

  lemma SettledWritesApart(w: Round, i: nat, j: nat)
    requires Lands(w) && Settled(w) && i < |w.ds| && j < |w.ds| && i != j && WritesMarker(w, i)
    ensures WritesApart(w, i, j)
  {
    hide Run, Match, RowAt, After, UidAt, Planned, SettledAt, NoCollision, UidsApart;
    UidsDiffer(w, i, j);
    AfterFacts(w, i);
    AfterFacts(w, j);
    assert SettledAt(w, j);
    var ref := EffRef(w.ds[i]);
    if ref != "" && ref == w.ds[j].uidRef { NamedIsMatched(w, i, j); }
    if WritesMarker(w, j) && ref == EffRef(w.ds[j]) {
      if ref != "" {
        SameRefCollides(Final(w), After(w, i), After(w, j));
      } else if BothCreated(w, i, j) {
        SameSeedSameUid(w, i, j);
      }
    }
  }

  /** An object that names the reference another row wrote matches that row's record. */
  lemma NamedIsMatched(w: Round, i: nat, j: nat)
    requires Lands(w) && NoCollision(Final(w)) && i < |w.ds| && j < |w.ds| && WritesMarker(w, i)
    requires SettledAt(w, j) && w.ds[j].uidRef == EffRef(w.ds[i]) != ""
    ensures UidAt(w, j) == UidAt(w, i)
  {
    hide Run, RowAt, After, UidAt, Lands, ByUid, ByTitle;
    AfterFacts(w, i);
    AfterFacts(w, j);
    ByUidIs(Final(w), w.ds[j].uidRef, After(w, i));
    SettledMatch(w, j);
  }

  lemma SettledTitleTells(w: Round, i: nat, j: nat)
    requires Lands(w) && Settled(w) && i < |w.ds| && j < |w.ds| && i != j
    ensures TitleTells(w, i, j)
  {
    hide Run, Match, RowAt, After, UidAt, SettledAt, NoCollision, UidsApart, Planned;
    UidsDiffer(w, i, j);
    AfterFacts(w, i);
    AfterFacts(w, j);
    if BothCreated(w, i, j) && w.ds[i].uidRef == "" && TitleKeyOf(w.ds[i]) == TitleKeyOf(w.ds[j]) {
      if w.ds[i].title == "" { SameTitleCollides(Final(w), After(w, i), After(w, j)); }
      TitleFinds(w, i);
      RowFacts(w, i);
      RowFacts(w, j);
      if !Precedes(w, j, i) {
        CreatesAreOrdered(w, i, j);
        FinalInOrder(w, i, j);
        RowsKeepUids(w);
        EarlierIsNotFound(Final(w), After(w, i), After(w, j));
      }
    }
  }

  lemma TitleFinds(w: Round, i: nat)
    requires Lands(w) && Settled(w) && i < |w.ds| && w.ds[i].uidRef == ""
    ensures var t := TitleKeyOf(w.ds[i]); t in ByTitle(Final(w)) && ByTitle(Final(w))[t] == After(w, i)
  {
    hide Run, RowAt, After, UidAt, Lands, ByUid, ByTitle, SettledAt;
    assert SettledAt(w, i);
    SettledMatch(w, i);
    ByUidFinds(Final(w), "");
  }

  lemma CreatesAreOrdered(w: Round, i: nat, j: nat)
    requires Planned(w) && i < |w.ds| && j < |w.ds| && BothCreated(w, i, j) && UidAt(w, i) != UidAt(w, j)
    ensures Precedes(w, i, j) || Precedes(w, j, i)
  {
    hide Match, RowAt, Planned;
    RowFacts(w, i);
    RowFacts(w, j);
    var a :| 0 <= a < |w.cs| && w.cs[a] == RowAt(w, i);
    var b :| 0 <= b < |w.cs| && w.cs[b] == RowAt(w, j);
    assert a < b || b < a;
  }

  /** A record that no row deletes keeps its reference. */
  lemma KeptRefStays(w: Round, r: LiveRecord) returns (x: LiveRecord)
    requires Lands(w) && r in w.store && UidOf(r).Some?
    requires forall c | c in w.cs && c.kind == Delete :: c.keeperUid != Some(r.keeperUid)
    ensures x in Final(w) && x.keeperUid == r.keeperUid && UidOf(x) == UidOf(r)
  {
    hide Created, Updated, Match, DesiredPart, OrphanPart, RowAt, Run;
    FindIs(w.store, r);
    if j :| 0 <= j < |w.ds| && UidAt(w, j) == r.keeperUid && Hit(w, j).Some? {
      RowFacts(w, j);
      FindIs(w.store, Hit(w, j).value);
      AfterFacts(w, j);
      x := After(w, j);
    } else {
      forall c | c in w.cs ensures Target(w.env, w.planName, c) != r.keeperUid {
        if c.kind == Delete {
          var orphan := DeleteOrigin(w, c);
        } else {
          var j := TargetOwned(w, c);
          RowFacts(w, j);
        }
      }
      UntargetedStays(w.env, w.planName, w.store, w.cs, r.keeperUid);
      x := r;
    }
  }

  lemma WriterHadNoRef(w: Round, i: nat, r: LiveRecord)
    requires Lands(w) && i < |w.ds| && WritesMarker(w, i) && r in w.store && UidOf(r).Some?
    ensures r.keeperUid != UidAt(w, i)
  {
    hide Created, Updated, Match, DesiredPart, OrphanPart, Run;
    RowFacts(w, i);
    FindIs(w.store, r);
    if Hit(w, i).Some? { FindIs(w.store, Hit(w, i).value); }
  }

  lemma CarriedRefIsDeleted(w: Round, i: nat, r: LiveRecord)
    requires Lands(w) && NoCollision(Final(w)) && i < |w.ds| && WritesMarker(w, i)
    requires r in w.store && UidOf(r) == Some(EffRef(w.ds[i]))
    ensures exists c :: c in w.cs && c.kind == Delete && c.keeperUid == Some(r.keeperUid)
  {
    hide Run, Match, RowAt, After, UidAt, Lands, NoCollision;
    if forall c | c in w.cs && c.kind == Delete :: c.keeperUid != Some(r.keeperUid) {
      var x := KeptRefStays(w, r);
      AfterFacts(w, i);
      WriterHadNoRef(w, i, r);
      SameRefCollides(Final(w), After(w, i), x);
    }
  }

  lemma SettledIsFresh(w: Round)
    requires Lands(w) && Settled(w)
    ensures FreshRefs(w) && TellableTitles(w)
  {
    hide Run, Match, SettledAt, UidsApart, WritesApart, TitleTells, NoCollision, WritesMarker;
    forall i, j | 0 <= i < |w.ds| && 0 <= j < |w.ds| && i != j && WritesMarker(w, i) ensures WritesApart(w, i, j) {
      SettledWritesApart(w, i, j);
    }
    forall i, j | 0 <= i < |w.ds| && 0 <= j < |w.ds| && i != j ensures TitleTells(w, i, j) { SettledTitleTells(w, i, j); }
    forall i, r | 0 <= i < |w.ds| && WritesMarker(w, i) && r in w.store && UidOf(r) == Some(EffRef(w.ds[i]))
      ensures exists c :: c in w.cs && c.kind == Delete && c.keeperUid == Some(r.keeperUid)
    {
      CarriedRefIsDeleted(w, i, r);
    }
  }
}
