/** The PAM reconcile loop over manifests and plans: when a plan, once applied, leaves
    nothing to do (keeper_sdk/core/diff.py, keeper_sdk/providers/mock.py). */
module PamTheorems {
  import opened Json
  import opened Plans
  import opened PamDiff
  import opened MockProvider
  import opened PamConvergence
  import opened Names

  function EffectiveName(m: Manifest, s: Settings): string {
    if s.manifestName == "" then m.name else s.manifestName
  }

  ghost function PlanOf(env: Env, m: Manifest, store: seq<LiveRecord>, s: Settings, planName: string, order: seq<string>): Plan
    requires ComputeDiff(env.text, m, store, s).Changes?
  {
    Plan(planName, ComputeDiff(env.text, m, store, s).rows, order)
  }

  ghost function RoundOf(env: Env, m: Manifest, store: seq<LiveRecord>, s: Settings, planName: string, order: seq<string>): Round
    requires ComputeDiff(env.text, m, store, s).Changes?
  {
    Round(env, store, DesiredObjects(m), EffectiveName(m, s), s.allowDelete, s.adopt, planName,
          Ordered(PlanOf(env, m, store, s, planName, order)))
  }

  lemma {:induction false} WarningsAreNoops(users: seq<Dict>)
    ensures forall c | c in ScriptWarnings(users) :: c.kind == Noop
  {
    if users != [] { WarningsAreNoops(users[1..]); }
  }

  function Warnings(m: Manifest, s: Settings): seq<Change> {
    if s.scriptReadback then [] else ScriptWarnings(NestedUsers(m.resources))
  }

  /** The executed rows are exactly the actionable rows of the diff. */
  lemma RoundIsPlanned(env: Env, m: Manifest, store: seq<LiveRecord>, s: Settings, planName: string, order: seq<string>)
    requires DistinctUids(store) && ComputeDiff(env.text, m, store, s).Changes?
    ensures var w := RoundOf(env, m, store, s, planName, order);
            Planned(w) && PlanOf(env, m, store, s, planName, order).changes == DesiredPart(w) + Warnings(m, s) + OrphanPart(w)
  {
    var w, p := RoundOf(env, m, store, s, planName, order), PlanOf(env, m, store, s, planName, order);
    hide Ordered, OfKinds, Classify, Match, Orphans, ScriptWarnings, Planned;
    WarningsAreNoops(NestedUsers(m.resources));
    assert p.changes == DesiredPart(w) + Warnings(m, s) + OrphanPart(w);
    PlannedFrom(w, p, Warnings(m, s));
  }

  lemma PlannedFrom(w: Round, p: Plan, extra: seq<Change>)
    requires DistinctUids(w.store) && NoCollision(w.store)
    requires forall d | d in w.ds :: RowFor(w.env.text, w.store, d, w.adopt).Row?
    requires p.changes == DesiredPart(w) + extra + OrphanPart(w) && w.cs == Ordered(p)
    requires forall x | x in extra :: x.kind == Noop
    ensures Planned(w)
  {
    hide DesiredPart, OrphanPart, Ordered, OfKinds, RowFor, NoCollision;
    OrderedIsPermutation(p);
    MembersOfThree(DesiredPart(w), extra, OrphanPart(w));
  }

  lemma MembersOfThree<T>(a: seq<T>, b: seq<T>, c: seq<T>)
    ensures forall x :: x in a + b + c <==> x in a || x in b || x in c
  {}

  // ---------------------------------------------------------------- distinct targets

  lemma SeedsDiffer(name: string, a: string, b: string)
    requires a != b
    ensures name + ":" + a != name + ":" + b
  {
    var x, y := name + ":" + a, name + ":" + b;
    assert x[|name| + 1..] == a && y[|name| + 1..] == b;
  }

  ghost predicate Independent(w: Round)
    requires Planned(w)
  {
    NoConflict(w) && InjectiveMatch(w) && FreshUids(w) && UidsApart(w)
  }

  /** Fresh references give every object a keeper uid of its own. */
  lemma FreshRefsAreApart(w: Round)
    requires Planned(w) && InjectiveMatch(w) && FreshUids(w) && FreshRefs(w) && Injective(w.env.stableUid)
    ensures UidsApart(w)
  {
    forall i, j | 0 <= i < j < |w.ds| ensures UidAt(w, i) != UidAt(w, j) { RefsGiveUids(w, i, j); }
  }

  lemma RefsGiveUids(w: Round, i: nat, j: nat)
    requires Planned(w) && InjectiveMatch(w) && FreshUids(w) && FreshRefs(w) && Injective(w.env.stableUid)
    requires i < j < |w.ds|
    ensures UidAt(w, i) != UidAt(w, j)
  {
    hide Planned, RowAt, Match, NewMarker, Created;
    RowFacts(w, i);
    RowFacts(w, j);
    if BothCreated(w, i, j) {
      assert WritesApart(w, i, j);
      SeedsDiffer(w.planName, EffRef(w.ds[i]), EffRef(w.ds[j]));
    }
  }

  lemma DifferentRowsDifferentTargets(w: Round, a: Change, b: Change)
    requires Planned(w) && Independent(w) && a in w.cs && b in w.cs && a != b
    requires a.kind == Delete || b.kind != Delete
    ensures Target(w.env, w.planName, a) != Target(w.env, w.planName, b)
  {
    if a.kind == Delete {
      var r := DeleteOrigin(w, a);
      FindIs(w.store, r);
      if b.kind == Delete {
        var r' := DeleteOrigin(w, b);
        FindIs(w.store, r');
      } else {
        var j := TargetOwned(w, b);
        RowFacts(w, j);
        if Hit(w, j).Some? { MatchedUid(w, j); }
      }
    } else {
      var i := TargetOwned(w, a);
      var j := TargetOwned(w, b);
      UidsDiffer(w, i, j);
    }
  }

  lemma {:induction false} CountAtMostOne<T>(xs: seq<T>, x: T)
    requires forall i, j | 0 <= i < j < |xs| :: !(xs[i] == x && xs[j] == x)
    ensures multiset(xs)[x] <= 1
  {
    if xs != [] {
      assert xs == [xs[0]] + xs[1..];
      if xs[0] == x {
        assert forall j | 0 <= j < |xs[1..]| :: xs[1..][j] == xs[j + 1] && xs[j + 1] != x;
        assert x !in xs[1..];
      } else {
        CountAtMostOne(xs[1..], x);
      }
    }
  }

  lemma CountTwo<T>(xs: seq<T>, i: nat, j: nat)
    requires i < j < |xs| && xs[i] == xs[j]
    ensures multiset(xs)[xs[i]] >= 2
  {
    assert xs == xs[..i] + [xs[i]] + xs[i + 1..j] + [xs[j]] + xs[j + 1..];
  }

  lemma {:induction false} OfKindsCount(cs: seq<Change>, kinds: set<Kind>, c: Change)
    ensures multiset(OfKinds(cs, kinds))[c] <= multiset(cs)[c]
  {
    if cs != [] {
      OfKindsCount(cs[1..], kinds, c);
      assert cs == [cs[0]] + cs[1..];
    }
  }

  lemma {:induction false} OrphanRowOccursOnce(live: seq<LiveRecord>, matched: set<string>, name: string, allowDelete: bool, c: Change)
    requires DistinctUids(live)
    ensures multiset(Orphans(live, matched, name, allowDelete))[c] <= 1
  {
    if live != [] {
      OrphanRowOccursOnce(live[1..], matched, name, allowDelete, c);
      OrphansAre(live[1..], matched, name, allowDelete);
      var rest := Orphans(live[1..], matched, name, allowDelete);
      forall k | 0 <= k < |live[1..]| ensures live[1..][k].keeperUid != live[0].keeperUid {
        assert live[1..][k] == live[k + 1];
      }
      if Orphan(live[0], matched, name) && c == OrphanRow(live[0], allowDelete) {
        NotIn(c, rest);
      }
    }
  }

  lemma DesiredRowOccursOnce(w: Round, c: Change)
    requires Planned(w) && Independent(w) && c.kind in {Create, Update}
    ensures multiset(DesiredPart(w))[c] <= 1
  {
    var r := DesiredPart(w);
    forall i, j | 0 <= i < j < |r| ensures !(r[i] == c && r[j] == c) {
      RowFacts(w, i);
      RowFacts(w, j);
      if r[i] == c && r[j] == c { UidsDiffer(w, i, j); }
    }
    CountAtMostOne(r, c);
  }

  lemma NotIn(c: Change, xs: seq<Change>)
    requires c !in xs
    ensures multiset(xs)[c] == 0
  {}

  lemma RowOccursOnce(w: Round, extra: seq<Change>, c: Change)
    requires Planned(w) && Independent(w) && c in w.cs
    requires forall x | x in extra :: x.kind == Noop
    ensures multiset(DesiredPart(w) + extra + OrphanPart(w))[c] <= 1
  {
    var r, o := DesiredPart(w), OrphanPart(w);
    NotIn(c, extra);
    if c.kind == Delete {
      if c in r { DesiredRowsAreNoDeletes(w, c); }
      NotIn(c, r);
      OrphanRowOccursOnce(w.store, Matched(r), w.diffName, w.allowDelete, c);
    } else {
      OrphansAre(w.store, Matched(r), w.diffName, w.allowDelete);
      NotIn(c, o);
      DesiredRowOccursOnce(w, c);
    }
    assert multiset(r + extra + o) == multiset(r) + multiset(extra) + multiset(o);
  }

  lemma TargetsAreDistinct(w: Round, p: Plan, extra: seq<Change>)
    requires Planned(w) && Independent(w)
    requires p.changes == DesiredPart(w) + extra + OrphanPart(w) && w.cs == Ordered(p)
    requires forall x | x in extra :: x.kind == Noop
    ensures DistinctTargets(w.env, w.planName, w.cs)
  {
    OrderedIsPermutation(p);
    forall i, j | 0 <= i < j < |w.cs| ensures Target(w.env, w.planName, w.cs[i]) != Target(w.env, w.planName, w.cs[j]) {
      var a, b := w.cs[i], w.cs[j];
      if a == b {
        CountTwo(w.cs, i, j);
        OfKindsCount(p.changes, {Create, Update, Delete}, a);
        RowOccursOnce(w, extra, a);
      } else if a.kind == Delete || b.kind != Delete {
        DifferentRowsDifferentTargets(w, a, b);
      } else {
        DifferentRowsDifferentTargets(w, b, a);
      }
    }
  }

  // ----------------------------------------------------------------------- convergence

  /** Apply the plan and diff again, with adoption off: nothing is raised, every desired
      object is NOOP at a keeper uid of its own, and the plan is clean, so nothing is to
      be created, updated, deleted or reported. */
  ghost predicate PlanSettles(env: Env, m: Manifest, store: seq<LiveRecord>, s: Settings, planName: string, order: seq<string>)
    requires ComputeDiff(env.text, m, store, s).Changes?
  {
    var w := RoundOf(env, m, store, s, planName, order);
    var again := ComputeDiff(env.text, m, Final(w), s.(adopt := false));
    && UidsApart(w) && again.Changes?
    && (forall i | 0 <= i < |w.ds| :: i < |again.rows| && again.rows[i].kind == Noop && again.rows[i].keeperUid == Some(UidAt(w, i)))
    && IsClean(Plan(planName, again.rows, order))
  }

  lemma FreshPlansSettle(env: Env, m: Manifest, store: seq<LiveRecord>, s: Settings, planName: string, order: seq<string>)
    requires DistinctUids(store) && ComputeDiff(env.text, m, store, s).Changes?
    requires forall c | c in PlanOf(env, m, store, s, planName, order).changes :: c.kind != Conflict
    requires Injective(env.stableUid)
    requires var w := RoundOf(env, m, store, s, planName, order);
             Planned(w) && InjectiveMatch(w) && FreshUids(w) && PamTypes(w) && FreshRefs(w) && TellableTitles(w)
    ensures PlanSettles(env, m, store, s, planName, order)
  {
    hide Run, Planned, RowFor, Match, InjectiveMatch, FreshRefs, FreshUids, TellableTitles, PamTypes, UidsApart, UidAt,
         DesiredObjects, NestedUsers, ScriptWarnings, ComputeDiff, SettledAt, Orphans, NoCollision;
    var w, p := RoundOf(env, m, store, s, planName, order), PlanOf(env, m, store, s, planName, order);
    RoundIsPlanned(env, m, store, s, planName, order);
    WarningsAreNoops(NestedUsers(m.resources));
    assert NoConflict(w);
    FreshRefsAreApart(w);
    TargetsAreDistinct(w, p, Warnings(m, s));
    RoundConverges(w);
    CleanSecondDiff(m, s, w);
  }

  lemma CleanSecondDiff(m: Manifest, s: Settings, w: Round)
    requires w.ds == DesiredObjects(m) && w.diffName == EffectiveName(m, s) && w.allowDelete == s.allowDelete
    requires NoCollision(Final(w)) && forall i | 0 <= i < |w.ds| :: SettledAt(w, i)
    requires forall d | d in w.ds :: RowFor(w.env.text, Final(w), d, false).Row?
    requires Orphans(Final(w), Matched(DesiredRows(w.env.text, Final(w), w.ds, false)), w.diffName, w.allowDelete) == []
    ensures var again := ComputeDiff(w.env.text, m, Final(w), s.(adopt := false));
            && again.Changes? && |again.rows| >= |w.ds| && (forall c | c in again.rows :: c.kind == Noop)
            && forall i | 0 <= i < |w.ds| :: again.rows[i].keeperUid == Some(UidAt(w, i))
  {
    hide Run, RowFor, UidAt, Orphans, NoCollision, DesiredObjects, NestedUsers, ScriptWarnings;
    WarningsAreNoops(NestedUsers(m.resources));
    var rows := DesiredRows(w.env.text, Final(w), w.ds, false);
    assert ComputeDiff(w.env.text, m, Final(w), s.(adopt := false)) == Changes(rows + Warnings(m, s) + []);
    forall i | 0 <= i < |w.ds| ensures rows[i].kind == Noop && rows[i].keeperUid == Some(UidAt(w, i)) { assert SettledAt(w, i); }
  }

  lemma SettledPlansAreFresh(env: Env, m: Manifest, store: seq<LiveRecord>, s: Settings, planName: string, order: seq<string>)
    requires DistinctUids(store) && ComputeDiff(env.text, m, store, s).Changes?
    requires forall c | c in PlanOf(env, m, store, s, planName, order).changes :: c.kind != Conflict
    requires var w := RoundOf(env, m, store, s, planName, order); Planned(w) && InjectiveMatch(w) && FreshUids(w)
    requires PlanSettles(env, m, store, s, planName, order)
    ensures var w := RoundOf(env, m, store, s, planName, order); Planned(w) && FreshRefs(w) && TellableTitles(w)
  {
    hide Run, Planned, Match, InjectiveMatch, FreshRefs, FreshUids, TellableTitles, Classify;
    var w, p := RoundOf(env, m, store, s, planName, order), PlanOf(env, m, store, s, planName, order);
    RoundIsPlanned(env, m, store, s, planName, order);
    WarningsAreNoops(NestedUsers(m.resources));
    assert NoConflict(w);
    TargetsAreDistinct(w, p, Warnings(m, s));
    var again := ComputeDiff(env.text, m, Final(w), s.(adopt := false));
    forall i | 0 <= i < |w.ds| ensures SettledAt(w, i) {
      assert w.ds[i] in w.ds;
      assert again.rows[i] == RowFor(env.text, Final(w), w.ds[i], false).change;
    }
    SettledIsFresh(w);
  }

  /** Exactly when the loop converges.  Given a conflict-free plan that matches no record
      twice and creates on unused keeper uids, applying it settles the manifest if and
      only if the references it writes are new and each created object without uid_ref
      is executed after the other created ones of its type and title.  It covers creates,
      partial updates, adoptions and deletes; the first diff may adopt, the second does
      not. */
  lemma PlanConvergesIff(env: Env, m: Manifest, store: seq<LiveRecord>, s: Settings, planName: string, order: seq<string>)
    requires DistinctUids(store) && ComputeDiff(env.text, m, store, s).Changes?
    requires forall c | c in PlanOf(env, m, store, s, planName, order).changes :: c.kind != Conflict
    requires Injective(env.stableUid)
    requires var w := RoundOf(env, m, store, s, planName, order);
             Planned(w) && InjectiveMatch(w) && FreshUids(w) && PamTypes(w)
    ensures var w := RoundOf(env, m, store, s, planName, order);
            PlanSettles(env, m, store, s, planName, order) <==> FreshRefs(w) && TellableTitles(w)
  {
    hide PlanSettles, FreshRefs, TellableTitles;
    if PlanSettles(env, m, store, s, planName, order) {
      SettledPlansAreFresh(env, m, store, s, planName, order);
    } else if FreshRefs(RoundOf(env, m, store, s, planName, order)) && TellableTitles(RoundOf(env, m, store, s, planName, order)) {
      FreshPlansSettle(env, m, store, s, planName, order);
    }
  }

  /** Ranks settle the second half: an object with a ranked uid_ref is executed before the
      objects without one, whatever their titles. */
  lemma RankedComeFirst(w: Round, p: Plan, i: nat, j: nat)
    requires Planned(w) && w.cs == Ordered(p) && i < |w.ds| && j < |w.ds| && BothCreated(w, i, j)
    requires w.ds[i].uidRef == "" && Rank(p.order, w.ds[j].uidRef) < Rank(p.order, "")
    ensures w.ds[i].title != "" ==> TitleTells(w, i, j)
  {
    hide Planned, Match, RowAt, Ordered, Rank;
    RowFacts(w, i);
    RowFacts(w, j);
    var a :| 0 <= a < |w.cs| && w.cs[a] == RowAt(w, j);
    var b :| 0 <= b < |w.cs| && w.cs[b] == RowAt(w, i);
    RankDecides(p, a, b);
  }

  /** A clean plan has nothing to execute. */
  lemma CleanPlansDoNothing(env: Env, dry: bool, store: seq<LiveRecord>, p: Plan)
    requires IsClean(p)
    ensures Run(env, p.manifestName, dry, store, Ordered(p)) == store
  {
    CleanPlansAreEmpty(p);
  }
}
