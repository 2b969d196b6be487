/** Whole runs of the PAM reconcile loop: ownership safety, and convergence of runs that
    start from an empty provider (keeper_sdk/core/diff.py, keeper_sdk/providers/mock.py). */
module PamRuns {
  import opened Json
  import opened Plans
  import opened PamDiff
  import opened MockProvider
  import opened PamConvergence
  import opened PamTheorems
  import opened Names

  // ------------------------------------------------------------------------ whole runs

  /** One plan-and-apply of some manifest; a diff that raises applies nothing. */
  datatype Reconcile = Reconcile(m: Manifest, s: Settings, planName: string, order: seq<string>)

  ghost function Reconciled(env: Env, store: seq<LiveRecord>, x: Reconcile): seq<LiveRecord> {
    if ComputeDiff(env.text, x.m, store, x.s).Changes?
    then Run(env, x.planName, false, store, Ordered(PlanOf(env, x.m, store, x.s, x.planName, x.order)))
    else store
  }

  /** The rows a reconcile executes. */
  ghost function Executed(env: Env, store: seq<LiveRecord>, x: Reconcile): seq<Change> {
    if ComputeDiff(env.text, x.m, store, x.s).Changes?
    then Ordered(PlanOf(env, x.m, store, x.s, x.planName, x.order))
    else []
  }

  ghost function RunAll(env: Env, store: seq<LiveRecord>, xs: seq<Reconcile>): seq<LiveRecord>
    decreases |xs|
  {
    if xs == [] then store else RunAll(env, Reconciled(env, store, xs[0]), xs[1..])
  }

  // ------------------------------------------------------------- ownership over whole runs

  /** Unmarked, or marked by another manager. */
  predicate Protected(r: LiveRecord) {
    r.marker.None? || Foreign(r)
  }

  lemma ProtectedIsUntargeted(w: Round, r: LiveRecord, c: Change)
    requires Planned(w) && !w.adopt && r in w.store && Protected(r) && c in w.cs
    requires forall seed :: w.env.stableUid(seed) != r.keeperUid
    ensures Target(w.env, w.planName, c) != r.keeperUid
  {
    FindIs(w.store, r);
    if c.kind == Delete {
      var x := DeleteOrigin(w, c);
      FindIs(w.store, x);
    } else {
      var i := TargetOwned(w, c);
      RowFacts(w, i);
      if Hit(w, i).Some? { FindIs(w.store, Hit(w, i).value); }
    }
  }

  /** With adoption off, a record the core does not manage is never changed or removed,
      whatever manifests are reconciled and whether or not deletes are allowed. */
  lemma {:induction false} OwnershipIsRespected(env: Env, store: seq<LiveRecord>, xs: seq<Reconcile>, r: LiveRecord)
    requires DistinctUids(store) && r in store && Protected(r)
    requires forall seed :: env.stableUid(seed) != r.keeperUid
    requires forall x | x in xs :: !x.s.adopt
    ensures Find(RunAll(env, store, xs), r.keeperUid) == Some(r)
    decreases |xs|
  {
    FindIs(store, r);
    if xs != [] {
      var x := xs[0];
      assert x in xs;
      var next := Reconciled(env, store, x);
      if ComputeDiff(env.text, x.m, store, x.s).Changes? {
        var w := RoundOf(env, x.m, store, x.s, x.planName, x.order);
        RoundIsPlanned(env, x.m, store, x.s, x.planName, x.order);
        forall c | c in w.cs ensures Target(env, x.planName, c) != r.keeperUid {
          ProtectedIsUntargeted(w, r, c);
        }
        UntargetedStays(env, x.planName, store, w.cs, r.keeperUid);
        RowsKeepDistinct(env, x.planName, store, w.cs);
      }
      assert Find(next, r.keeperUid) == Some(r);
      OwnershipIsRespected(env, next, xs[1..], r);
    }
  }

  lemma {:induction false} OnlyDeletesRemove(env: Env, name: string, store: seq<LiveRecord>, cs: seq<Change>, k: string)
    requires DistinctUids(store) && Find(store, k).Some?
    requires forall c | c in cs && c.kind == Delete :: Target(env, name, c) != k
    ensures Find(Run(env, name, false, store, cs), k).Some?
    decreases |cs|
  {
    if cs != [] {
      RowIsPointwise(env, name, store, cs[0], k);
      assert cs[0] in cs;
      OnlyDeletesRemove(env, name, ApplyRow(env, name, store, cs[0]), cs[1..], k);
    }
  }

  /** No plan deletes a record whose marker names another manifest, and but for a create
      or update that acts on its very keeper uid, none changes it. */
  lemma OtherManifestsAreKept(env: Env, store: seq<LiveRecord>, x: Reconcile, r: LiveRecord)
    requires DistinctUids(store) && r in store && EffectiveName(x.m, x.s) != ""
    requires r.marker.Some? && OrEmpty(r.marker.value.manifest) !in {"", EffectiveName(x.m, x.s)}
    ensures Find(Reconciled(env, store, x), r.keeperUid).Some?
    ensures (forall c | c in Executed(env, store, x) :: Target(env, x.planName, c) != r.keeperUid || c.kind == Delete) ==>
              Find(Reconciled(env, store, x), r.keeperUid) == Some(r)
  {
    FindIs(store, r);
    if ComputeDiff(env.text, x.m, store, x.s).Changes? {
      var w := RoundOf(env, x.m, store, x.s, x.planName, x.order);
      RoundIsPlanned(env, x.m, store, x.s, x.planName, x.order);
      forall c | c in w.cs && c.kind == Delete ensures Target(env, x.planName, c) != r.keeperUid {
        var y := DeleteOrigin(w, c);
        FindIs(store, y);
      }
      OnlyDeletesRemove(env, x.planName, store, w.cs, r.keeperUid);
      if forall c | c in w.cs :: Target(env, x.planName, c) != r.keeperUid || c.kind == Delete {
        UntargetedStays(env, x.planName, store, w.cs, r.keeperUid);
      }
    }
  }

  // -------------------------------------------------------------- runs from an empty store

  /** What the keeper uid of a created object is made from. */
  function SeedOf(x: Reconcile, d: Desired): string {
    x.planName + ":" + EffRef(d)
  }

  ghost predicate Asks(xs: seq<Reconcile>, x: Reconcile, d: Desired) {
    x in xs && d in DesiredObjects(x.m)
  }

  /** Different (plan name, reference) pairs of the run have different seeds. */
  ghost predicate SeedsTell(xs: seq<Reconcile>) {
    forall x, d, y, e | Asks(xs, x, d) && Asks(xs, y, e) && SeedOf(x, d) == SeedOf(y, e) :: EffRef(d) == EffRef(e)
  }

  /** A title that stands in for a missing uid_ref is used as a reference by objects of one
      type and title only. */
  ghost predicate TitlesTell(xs: seq<Reconcile>) {
    forall x, d, y, e | Asks(xs, x, d) && Asks(xs, y, e) && EffRef(d) == EffRef(e) && d.uidRef == "" ::
      TitleKeyOf(d) == TitleKeyOf(e)
  }

  /** Plan names without colons are enough, ... */
  lemma ColonFreeSeedsTell(xs: seq<Reconcile>)
    requires forall x | x in xs :: ColonFree(x.planName)
    ensures SeedsTell(xs)
  {
    forall x, d, y, e | Asks(xs, x, d) && Asks(xs, y, e) && SeedOf(x, d) == SeedOf(y, e) ensures EffRef(d) == EffRef(e) {
      FirstColonSplits(x.planName, EffRef(d), y.planName, EffRef(e));
    }
  }

  /** ... and so is a single plan name. */
  lemma OneNameSeedsTell(xs: seq<Reconcile>, name: string)
    requires forall x | x in xs :: x.planName == name
    ensures SeedsTell(xs)
  {
    forall x, d, y, e | Asks(xs, x, d) && Asks(xs, y, e) && SeedOf(x, d) == SeedOf(y, e) ensures EffRef(d) == EffRef(e) {
      if EffRef(d) != EffRef(e) { SeedsDiffer(name, EffRef(d), EffRef(e)); }
    }
  }

  /** Otherwise two manifests can share a keeper uid: the create of the second replaces
      the record of the first. */
  lemma NamesMayCollide(env: Env, store: seq<LiveRecord>, p: string, q: string, r: string, first: Change, second: Change)
    requires DistinctUids(store) && first.kind == Create && second.kind == Create
    requires first.uidRef == Some(q + ":" + r) && second.uidRef == Some(r) && r != ""
    ensures var uid := Target(env, p, first);
            var once := ApplyRow(env, p, store, first);
            && Find(once, uid) == Some(Created(env, p, first))
            && Find(ApplyRow(env, p + ":" + q, once, second), uid) == Some(Created(env, p + ":" + q, second))
  {
    hide Created;
    assert p + ":" + (q + ":" + r) == (p + ":" + q) + ":" + r;
    RowIsPointwise(env, p, store, first, Target(env, p, first));
    RowIsPointwise(env, p + ":" + q, ApplyRow(env, p, store, first), second, Target(env, p, first));
  }

  ghost predicate MadeFor(env: Env, x: Reconcile, d: Desired, r: LiveRecord) {
    r.keeperUid == env.stableUid(SeedOf(x, d)) && r.marker.Some? && UidOf(r) == Ref(EffRef(d)) && TitleOf(r) == TitleKeyOf(d)
  }

  ghost predicate GeneratedRecord(env: Env, xs: seq<Reconcile>, r: LiveRecord) {
    exists x, d :: Asks(xs, x, d) && MadeFor(env, x, d, r)
  }

  /** Every record was made for an object of the run: it sits at the keeper uid generated
      for it, is marked with its reference and has its type and title. */
  ghost predicate Generated(env: Env, xs: seq<Reconcile>, store: seq<LiveRecord>) {
    DistinctUids(store) && forall r | r in store :: GeneratedRecord(env, xs, r)
  }

  predicate CreateOf(c: Change, d: Desired) {
    RefOrTitle(c) == EffRef(d) && (c.resourceType, c.title) == TitleKeyOf(d)
  }

  lemma RowKeepsGenerated(env: Env, xs: seq<Reconcile>, x: Reconcile, store: seq<LiveRecord>, c: Change)
    requires Generated(env, xs, store)
    requires c.kind == Create ==> exists d :: Asks(xs, x, d) && CreateOf(c, d)
    ensures Generated(env, xs, ApplyRow(env, x.planName, store, c))
  {
    hide Asks, Normalise, WithMarkerText;
    var next := ApplyRow(env, x.planName, store, c);
    RowIsPointwise(env, x.planName, store, c, "");
    forall r | r in next ensures GeneratedRecord(env, xs, r) {
      FindIs(next, r);
      RowIsPointwise(env, x.planName, store, c, r.keeperUid);
      if r.keeperUid == Target(env, x.planName, c) && c.kind == Create {
        var d :| Asks(xs, x, d) && CreateOf(c, d);
        assert MadeFor(env, x, d, r);
      } else {
        var before := Find(store, r.keeperUid).value;
        assert GeneratedRecord(env, xs, before);
        var y, e :| Asks(xs, y, e) && MadeFor(env, y, e, before);
        assert MadeFor(env, y, e, r);
      }
    }
  }

  lemma {:induction false} RowsKeepGenerated(env: Env, xs: seq<Reconcile>, x: Reconcile, store: seq<LiveRecord>, cs: seq<Change>)
    requires Generated(env, xs, store)
    requires forall c | c in cs && c.kind == Create :: exists d :: Asks(xs, x, d) && CreateOf(c, d)
    ensures Generated(env, xs, Run(env, x.planName, false, store, cs))
    decreases |cs|
  {
    if cs != [] {
      assert cs[0] in cs;
      RowKeepsGenerated(env, xs, x, store, cs[0]);
      RowsKeepGenerated(env, xs, x, ApplyRow(env, x.planName, store, cs[0]), cs[1..]);
    }
  }

  lemma RoundKeepsGenerated(env: Env, xs: seq<Reconcile>, store: seq<LiveRecord>, x: Reconcile)
    requires Generated(env, xs, store) && x in xs
    ensures Generated(env, xs, Reconciled(env, store, x))
  {
    hide ComputeDiff;
    if ComputeDiff(env.text, x.m, store, x.s).Changes? {
      var w := RoundOf(env, x.m, store, x.s, x.planName, x.order);
      RoundIsPlanned(env, x.m, store, x.s, x.planName, x.order);
      forall c | c in w.cs && c.kind == Create ensures exists d :: Asks(xs, x, d) && CreateOf(c, d) {
        var i := DesiredOrigin(w, c);
        RowFacts(w, i);
        assert w.ds[i] in w.ds && Asks(xs, x, w.ds[i]) && CreateOf(c, w.ds[i]);
      }
      RowsKeepGenerated(env, xs, x, store, w.cs);
    }
  }

  lemma {:induction false} RunsStayGenerated(env: Env, all: seq<Reconcile>, store: seq<LiveRecord>, xs: seq<Reconcile>)
    requires Generated(env, all, store) && forall x | x in xs :: x in all
    ensures Generated(env, all, RunAll(env, store, xs))
    decreases |xs|
  {
    if xs != [] {
      assert xs[0] in xs;
      RoundKeepsGenerated(env, all, store, xs[0]);
      RunsStayGenerated(env, all, Reconciled(env, store, xs[0]), xs[1..]);
    }
  }

  /** The round reconciles `x`, one of the run. */
  ghost predicate RoundIn(w: Round, xs: seq<Reconcile>, x: Reconcile) {
    && Planned(w) && Generated(w.env, xs, w.store) && x in xs
    && w.ds == DesiredObjects(x.m) && w.planName == x.planName
  }

  /** A record made for the reference of an object is found by the object. */
  lemma CarrierIsHit(w: Round, xs: seq<Reconcile>, x: Reconcile, i: nat, y: Reconcile, e: Desired, r: LiveRecord)
    requires RoundIn(w, xs, x) && TitlesTell(xs) && i < |w.ds| && r in w.store
    requires Asks(xs, y, e) && MadeFor(w.env, y, e, r) && EffRef(e) == EffRef(w.ds[i])
    ensures Hit(w, i).Some?
  {
    assert w.ds[i] in w.ds && Asks(xs, x, w.ds[i]);
    MatchFacts(w.store, w.ds[i]);
  }

  /** In a store grown from empty only creates write references, and no record carries one
      of them. */
  lemma WritersAreCreates(w: Round, xs: seq<Reconcile>, x: Reconcile, i: nat)
    requires RoundIn(w, xs, x) && TitlesTell(xs) && i < |w.ds| && WritesMarker(w, i)
    ensures Hit(w, i).None? && forall r | r in w.store :: UidOf(r) != Some(EffRef(w.ds[i]))
  {
    hide Planned, Match;
    if Hit(w, i).Some? { MatchedIsStored(w, i); }
    forall r | r in w.store && UidOf(r).Some? ensures UidOf(r) != Some(EffRef(w.ds[i])) {
      assert GeneratedRecord(w.env, xs, r);
      var y, e :| Asks(xs, y, e) && MadeFor(w.env, y, e, r);
      if EffRef(e) == EffRef(w.ds[i]) { CarrierIsHit(w, xs, x, i, y, e, r); }
    }
  }

  /** So creates land on unused keeper uids: nothing has to be assumed about that. */
  lemma FreshnessComesFree(w: Round, xs: seq<Reconcile>, x: Reconcile)
    requires RoundIn(w, xs, x) && SeedsTell(xs) && TitlesTell(xs) && Injective(w.env.stableUid)
    ensures FreshUids(w)
  {
    hide Planned, Match, TitlesTell, SeedsTell, Created, RowAt, DesiredPart, OrphanPart;
    forall c | c in w.cs && c.kind == Create ensures Find(w.store, Target(w.env, w.planName, c)).None? {
      var i := TargetOwned(w, c);
      RowFacts(w, i);
      CreatedUidIsUnused(w, xs, x, i);
    }
  }

  lemma CreatedUidIsUnused(w: Round, xs: seq<Reconcile>, x: Reconcile, i: nat)
    requires RoundIn(w, xs, x) && SeedsTell(xs) && TitlesTell(xs) && Injective(w.env.stableUid)
    requires i < |w.ds| && Hit(w, i).None?
    ensures Find(w.store, UidAt(w, i)).None?
  {
    hide Planned, Match, TitlesTell, Created, RowAt;
    RowFacts(w, i);
    var found := Find(w.store, UidAt(w, i));
    if found.Some? {
      assert GeneratedRecord(w.env, xs, found.value);
      var y, e :| Asks(xs, y, e) && MadeFor(w.env, y, e, found.value);
      assert w.ds[i] in w.ds && Asks(xs, x, w.ds[i]);
      assert SeedOf(y, e) == SeedOf(x, w.ds[i]);
      CarrierIsHit(w, xs, x, i, y, e, found.value);
    }
  }

  /** References and titles the creates of a round write are told apart. */
  ghost predicate CreatesTold(w: Round) {
    && TellableTitles(w)
    && forall i, j | 0 <= i < |w.ds| && 0 <= j < |w.ds| && i != j && Hit(w, i).None? :: WritesApart(w, i, j)
  }

  lemma ToldIffFresh(w: Round, xs: seq<Reconcile>, x: Reconcile)
    requires RoundIn(w, xs, x) && TitlesTell(xs)
    ensures CreatesTold(w) <==> FreshRefs(w) && TellableTitles(w)
  {
    hide Planned, Match, WritesApart, TellableTitles, Asks, GeneratedRecord;
    forall i | 0 <= i < |w.ds| && WritesMarker(w, i)
      ensures Hit(w, i).None? && forall r | r in w.store :: UidOf(r) != Some(EffRef(w.ds[i]))
    {
      WritersAreCreates(w, xs, x, i);
    }
  }

  /** The last round of a run, a plan without conflicts that matches no record twice. */
  ghost predicate LastRound(env: Env, store: seq<LiveRecord>, x: Reconcile) {
    && ComputeDiff(env.text, x.m, store, x.s).Changes?
    && (forall c | c in PlanOf(env, x.m, store, x.s, x.planName, x.order).changes :: c.kind != Conflict)
    && var w := RoundOf(env, x.m, store, x.s, x.planName, x.order); InjectiveMatch(w) && PamTypes(w)
  }

  /** Convergence over runs: from an empty provider, after any rounds of any manifests,
      one more round settles exactly when its creates are told apart.  Objects need no
      uid_ref, and plan names may hold colons. */
  lemma RunsConvergeIff(env: Env, xs: seq<Reconcile>, x: Reconcile)
    requires Injective(env.stableUid) && SeedsTell(xs + [x]) && TitlesTell(xs + [x])
    requires LastRound(env, RunAll(env, [], xs), x)
    ensures var store := RunAll(env, [], xs);
            PlanSettles(env, x.m, store, x.s, x.planName, x.order)
            <==> CreatesTold(RoundOf(env, x.m, store, x.s, x.planName, x.order))
  {
    hide ComputeDiff, SeedsTell, TitlesTell, CreatesTold, PlanSettles, FreshUids, InjectiveMatch, PamTypes, Planned;
    var all, store := xs + [x], RunAll(env, [], xs);
    RunsStayGenerated(env, all, [], xs);
    RoundIsPlanned(env, x.m, store, x.s, x.planName, x.order);
    var w := RoundOf(env, x.m, store, x.s, x.planName, x.order);
    FreshnessComesFree(w, all, x);
    ToldIffFresh(w, all, x);
    PlanConvergesIff(env, x.m, store, x.s, x.planName, x.order);
  }

  /** Objects with references of their own, and without uid_ref only under a title of
      their own. */
  ghost predicate ToldApart(ds: seq<Desired>) {
    forall i, j | 0 <= i < |ds| && 0 <= j < |ds| && i != j ::
      EffRef(ds[i]) != EffRef(ds[j]) && (ds[i].uidRef == "" ==> TitleKeyOf(ds[i]) != TitleKeyOf(ds[j]))
  }

  lemma ToldApartIsTold(w: Round)
    requires ToldApart(w.ds)
    ensures CreatesTold(w)
  {
    hide Match, Precedes;
    forall i, j | 0 <= i < |w.ds| && 0 <= j < |w.ds| && i != j ensures TitleTells(w, i, j) && WritesApart(w, i, j) {
      assert EffRef(w.ds[i]) != EffRef(w.ds[j]);
    }
  }

  /** Such a manifest converges whatever the run has done before, the plan is then clean,
      and reconciling it again leaves the store as it is. */
  lemma RunsConverge(env: Env, xs: seq<Reconcile>, x: Reconcile)
    requires Injective(env.stableUid) && SeedsTell(xs + [x]) && TitlesTell(xs + [x])
    requires LastRound(env, RunAll(env, [], xs), x) && ToldApart(DesiredObjects(x.m))
    ensures PlanSettles(env, x.m, RunAll(env, [], xs), x.s, x.planName, x.order)
    ensures var store := Reconciled(env, RunAll(env, [], xs), x);
            && ComputeDiff(env.text, x.m, store, x.s.(adopt := false)).Changes?
            && IsClean(PlanOf(env, x.m, store, x.s.(adopt := false), x.planName, x.order))
            && Reconciled(env, store, x.(s := x.s.(adopt := false))) == store
  {
    hide SeedsTell, TitlesTell, CreatesTold, InjectiveMatch, PamTypes, ToldApart;
    RunsConvergeIff(env, xs, x);
    ToldApartIsTold(RoundOf(env, x.m, RunAll(env, [], xs), x.s, x.planName, x.order));
    SettledIsFixed(env, RunAll(env, [], xs), x);
  }

  lemma SettledIsFixed(env: Env, store: seq<LiveRecord>, x: Reconcile)
    requires ComputeDiff(env.text, x.m, store, x.s).Changes? && PlanSettles(env, x.m, store, x.s, x.planName, x.order)
    ensures var end := Reconciled(env, store, x);
            && ComputeDiff(env.text, x.m, end, x.s.(adopt := false)).Changes?
            && IsClean(PlanOf(env, x.m, end, x.s.(adopt := false), x.planName, x.order))
            && Reconciled(env, end, x.(s := x.s.(adopt := false))) == end
  {
    hide ComputeDiff, Ordered, Run;
    var end := Reconciled(env, store, x);
    CleanPlansDoNothing(env, false, end, PlanOf(env, x.m, end, x.s.(adopt := false), x.planName, x.order));
  }

  // ------------------------------------------------------------------------- first rounds

  predicate PamManifest(m: Manifest) {
    forall d | d in DesiredObjects(m) :: d.resourceType != RECORD_SHARE && d.resourceType != SHARE_FOLDER
  }

  /** The diff against an empty provider creates every object, and does nothing else. */
  lemma EmptyStoreCreates(t: Text, m: Manifest, s: Settings)
    ensures var diff := ComputeDiff(t, m, [], s);
            && diff.Changes?
            && (forall c | c in diff.rows :: c.kind in {Create, Noop})
            && forall d | d in DesiredObjects(m) :: Match([], d).None?
  {
    var ds := DesiredObjects(m);
    WarningsAreNoops(NestedUsers(m.resources));
    assert forall d | d in ds :: RowFor(t, [], d, s.adopt).Row? && RowFor(t, [], d, s.adopt).change.kind == Create;
  }

  ghost function FirstRound(env: Env, x: Reconcile): Round
    requires ComputeDiff(env.text, x.m, [], x.s).Changes?
  {
    RoundOf(env, x.m, [], x.s, x.planName, x.order)
  }

  lemma FirstIsLast(env: Env, x: Reconcile)
    requires PamManifest(x.m)
    ensures LastRound(env, [], x) && forall i | 0 <= i < |FirstRound(env, x).ds| :: Hit(FirstRound(env, x), i).None?
  {
    hide ComputeDiff, Match;
    EmptyStoreCreates(env.text, x.m, x.s);
    var w := FirstRound(env, x);
    forall i | 0 <= i < |w.ds| ensures Hit(w, i).None? { assert w.ds[i] in DesiredObjects(x.m); }
  }

  /** Nothing has to be assumed of a first round: applying a manifest to an empty provider
      settles exactly when its references, titles standing in for missing ones, are
      pairwise distinct, and each object without uid_ref is created after the others of
      its type and title. */
  lemma FirstRoundConvergesIff(env: Env, x: Reconcile)
    requires Injective(env.stableUid) && PamManifest(x.m)
    ensures ComputeDiff(env.text, x.m, [], x.s).Changes?
    ensures PlanSettles(env, x.m, [], x.s, x.planName, x.order)
            <==> && TellableTitles(FirstRound(env, x))
                 && forall i, j | 0 <= i < j < |DesiredObjects(x.m)| :: EffRef(DesiredObjects(x.m)[i]) != EffRef(DesiredObjects(x.m)[j])
  {
    hide ComputeDiff, TellableTitles, PlanSettles, InjectiveMatch, PamTypes, Match, Planned;
    FirstIsLast(env, x);
    var w := FirstRound(env, x);
    RoundIsPlanned(env, x.m, [], x.s, x.planName, x.order);
    PlanConvergesIff(env, x.m, [], x.s, x.planName, x.order);
    CreatesAreFreshIff(w);
  }

  lemma CreatesAreFreshIff(w: Round)
    requires Planned(w) && w.store == [] && forall i | 0 <= i < |w.ds| :: Hit(w, i).None?
    ensures FreshRefs(w) <==> forall i, j | 0 <= i < j < |w.ds| :: EffRef(w.ds[i]) != EffRef(w.ds[j])
  {
    hide Planned, Match;
    if FreshRefs(w) {
      forall i, j | 0 <= i < j < |w.ds| ensures EffRef(w.ds[i]) != EffRef(w.ds[j]) { assert WritesApart(w, i, j); }
    }
    if forall i, j | 0 <= i < j < |w.ds| :: EffRef(w.ds[i]) != EffRef(w.ds[j]) {
      forall i, j | 0 <= i < |w.ds| && 0 <= j < |w.ds| && i != j ensures WritesApart(w, i, j) {
        assert i < j || j < i;
      }
    }
  }

  // --------------------------------------------------------------------- what goes wrong

  /** A create on the keeper uid of a record that the same plan deletes leaves nothing:
      so an object without uid_ref is lost when its title is the uid_ref of an orphan
      made under the same plan name. */
  lemma TakenUidIsLost(w: Round, p: Plan, i: nat, c: Change)
    requires Planned(w) && w.cs == Ordered(p) && i < |w.ds| && Hit(w, i).None?
    requires c in w.cs && c.kind == Delete && c.keeperUid == Some(UidAt(w, i))
    ensures Find(Final(w), UidAt(w, i)).None?
  {
    hide Ordered, Planned, UidAt;
    assert DistinctUids(w.store) by { PlannedStore(w); }
    var j :| 0 <= j < |w.cs| && w.cs[j] == c;
    DeletesComeLast(p, j);
    DeletedAtTheEnd(w.env, w.planName, w.store, w.cs, j);
  }

  lemma PlannedStore(w: Round)
    requires Planned(w)
    ensures DistinctUids(w.store)
  {}

  function Admin(login: string): Dict {
    map["type" := JStr("pamUser"), "title" := JStr("admin"), "login" := JStr(login)]
  }

  function AdminObject(login: string): Desired {
    Desired("", "pamUser", "admin", Admin(login))
  }

  function AdminRow(login: string): Change {
    Change(Create, None, "pamUser", "admin", None, map[], Admin(login))
  }

  /** Two users with one title and no uid_ref, which validation accepts. */
  function Twins(a: string, b: string): Manifest {
    Manifest("twins", [], [], [], [Admin(a), Admin(b)], [], map[])
  }

  lemma TwinObjects(a: string, b: string)
    ensures DesiredObjects(Twins(a, b)) == [AdminObject(a), AdminObject(b)] && NestedUsers(Twins(a, b).resources) == []
  {
    var ds := [Admin(a), Admin(b)];
    assert RecordRows(ds) == [AdminObject(a), AdminObject(b)];
    assert DesiredObjects(Twins(a, b)) == [] + [] + [] + RecordRows(ds);
  }

  lemma TwinRow(t: Text, login: string, adopt: bool)
    ensures RowFor(t, [], AdminObject(login), adopt) == Row(AdminRow(login))
  {
    hide Admin;
  }

  lemma TwinPlan(t: Text, a: string, b: string, s: Settings)
    ensures ComputeDiff(t, Twins(a, b), [], s) == Changes([AdminRow(a), AdminRow(b)])
  {
    hide RowFor, AdminRow, AdminObject, DesiredObjects, NestedUsers, Twins;
    TwinObjects(a, b);
    TwinRow(t, a, s.adopt);
    TwinRow(t, b, s.adopt);
    var ds := DesiredObjects(Twins(a, b));
    assert ds[0] == AdminObject(a) && ds[1] == AdminObject(b);
    assert DesiredRows(t, [], ds, s.adopt) == [AdminRow(a), AdminRow(b)];
  }

  /** The second create falls on the keeper uid of the first, in whatever order. */
  lemma TwinStore(env: Env, name: string, cs: seq<Change>, a: string, b: string) returns (last: string)
    requires multiset(cs) == multiset{AdminRow(a), AdminRow(b)}
    ensures last in {a, b} && Run(env, name, false, [], cs) == [Created(env, name, AdminRow(last))]
  {
    hide Created, ApplyRow, AdminRow;
    PairIs(cs, AdminRow(a), AdminRow(b));
    var first: string;
    if cs == [AdminRow(a), AdminRow(b)] { first, last := a, b; } else { first, last := b, a; }
    RunOfTwo(env, name, [], AdminRow(first), AdminRow(last));
    TwinTargets(env, name, first, last);
    TwinPut(env, name, AdminRow(first), AdminRow(last));
  }

  lemma TwinTargets(env: Env, name: string, a: string, b: string)
    ensures AdminRow(a).kind == AdminRow(b).kind == Create && Target(env, name, AdminRow(a)) == Target(env, name, AdminRow(b))
  {}

  lemma PairIs<T>(xs: seq<T>, a: T, b: T)
    requires multiset(xs) == multiset{a, b}
    ensures xs == [a, b] || xs == [b, a]
  {
    assert |xs| == |multiset(xs)| == 2;
    assert xs == [xs[0], xs[1]];
    assert multiset{xs[0], xs[1]} == multiset{a, b};
    assert xs[0] in multiset{a, b};
  }

  lemma RunOfTwo(env: Env, name: string, store: seq<LiveRecord>, c: Change, d: Change)
    ensures Run(env, name, false, store, [c, d]) == ApplyRow(env, name, ApplyRow(env, name, store, c), d)
  {
    hide ApplyRow;
    var next := ApplyRow(env, name, store, c);
    assert [c, d][1..] == [d] && [d][1..] == [];
    assert Run(env, name, false, next, [d]) == Run(env, name, false, ApplyRow(env, name, next, d), []);
  }

  lemma TwinPut(env: Env, name: string, first: Change, last: Change)
    requires first.kind == Create && last.kind == Create && Target(env, name, first) == Target(env, name, last)
    ensures ApplyRow(env, name, ApplyRow(env, name, [], first), last) == [Created(env, name, last)]
  {}

  /** The login of the stored one is drift for the other. */
  lemma TwinDrifts(t: Text, r: LiveRecord, login: string, adopt: bool)
    requires TitleOf(r) == ("pamUser", "admin") && r.marker.Some? && r.marker.value.manager == Some(MANAGER)
    requires r.marker.value.version == Some(MARKER_VERSION) && Get(r.payload, "login") != JStr(login)
    ensures var v := RowFor(t, [r], AdminObject(login), adopt); v.Row? && v.change.kind == Update
  {
    var d := AdminObject(login);
    ByUidFinds([r], "");
    ByTitleIs([r], ("pamUser", "admin"), 0);
    assert Match([r], d) == Some(r);
    assert "login" in d.payload && Differs(t, "pamUser", "login", r.payload, d.payload, r.marker, "");
    assert "login" in ChangedFields(t, d, r);
  }

  /** Of two such users one is lost: from an empty provider, in whatever order, the create
      of one replaces the other, and the next plan is not clean. */
  lemma TwinsDiverge(env: Env, a: string, b: string, s: Settings, name: string, order: seq<string>)
    requires a != b
    ensures var x := Reconcile(Twins(a, b), s, name, order);
            var store := Reconciled(env, [], x);
            var again := ComputeDiff(env.text, x.m, store, s);
            |store| == 1 && again.Changes? && !IsClean(Plan(name, again.rows, order))
  {
    hide Admin, Created, Ordered;
    TwinPlan(env.text, a, b, s);
    var p := Plan(name, [AdminRow(a), AdminRow(b)], order);
    TwinRows(p, a, b);
    var last := TwinStore(env, name, Ordered(p), a, b);
    TwinDiff(env, name, a, b, last, s);
  }

  lemma TwinRows(p: Plan, a: string, b: string)
    requires p.changes == [AdminRow(a), AdminRow(b)]
    ensures multiset(Ordered(p)) == multiset{AdminRow(a), AdminRow(b)}
  {
    hide Ordered;
    OrderedIsPermutation(p);
    OfAllKinds(p.changes, {Create, Update, Delete});
  }

  lemma TwinDiff(env: Env, name: string, a: string, b: string, last: string, s: Settings)
    requires a != b && last in {a, b}
    ensures var again := ComputeDiff(env.text, Twins(a, b), [Created(env, name, AdminRow(last))], s);
            again.Changes? && exists c :: c in again.rows && c.kind == Update
  {
    var r, other := Created(env, name, AdminRow(last)), if last == a then b else a;
    assert Get(r.payload, "login") == JStr(last);
    TwinDrifts(env.text, r, other, s.adopt);
    TwinObjects(a, b);
    TwinIsRead(env, name, last, s.adopt);
    TwinAgain(env.text, a, b, other, r, s);
  }

  lemma TwinIsRead(env: Env, name: string, last: string, adopt: bool)
    ensures RowFor(env.text, [Created(env, name, AdminRow(last))], AdminObject(last), adopt).Row?
  {
    var r := Created(env, name, AdminRow(last));
    ByUidFinds([r], "");
    ByTitleIs([r], ("pamUser", "admin"), 0);
    assert Match([r], AdminObject(last)) == Some(r);
  }

  lemma TwinAgain(t: Text, a: string, b: string, other: string, r: LiveRecord, s: Settings)
    requires other in {a, b} && DesiredObjects(Twins(a, b)) == [AdminObject(a), AdminObject(b)]
    requires forall login | login in {a, b} :: RowFor(t, [r], AdminObject(login), s.adopt).Row?
    requires RowFor(t, [r], AdminObject(other), s.adopt).change.kind == Update
    ensures var again := ComputeDiff(t, Twins(a, b), [r], s);
            again.Changes? && exists c :: c in again.rows && c.kind == Update
  {
    hide AdminObject, RowFor, Orphans, ScriptWarnings;
    var ds, i := DesiredObjects(Twins(a, b)), if other == a then 0 else 1;
    var rows := DesiredRows(t, [r], ds, s.adopt);
    assert rows[i].kind == Update && rows[i] in rows;
    assert rows[i] in ComputeDiff(t, Twins(a, b), [r], s).rows;
  }
}
