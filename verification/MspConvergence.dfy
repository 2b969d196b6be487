/** The managed-company half of `MockProvider` (keeper_sdk/providers/mock.py) and its
    reconcile loop. */
module MspConvergence {
  import opened Json
  import opened OrderedDict
  import opened Sorting
  import opened Plans
  import opened KeyedDiff
  import opened MspDiff

  datatype MspEnv = MspEnv(kit: MspKit, stableId: string -> int)

  /** An entry of `_managed_companies`. */
  datatype Company = Company(key: string, row: Dict)

  const COMPANY_KEY: Company -> string := (c: Company) => c.key

  const ID := "mc_enterprise_id"

  // ----------------------------------------------------------------------- the executor

  /** `_msp_change_name` */
  function ChangeName(kit: MspKit, c: Change): string {
    if Get(c.after, "name") != JNull then kit.str(c.after["name"])
    else if Get(c.before, "name") != JNull then kit.str(c.before["name"])
    else if OrEmpty(c.uidRef) != "" then c.uidRef.value else c.title
  }

  function ChangeKey(kit: MspKit, c: Change): string {
    kit.fold(ChangeName(kit, c))
  }

  function IdAfter(env: MspEnv, existing: Dict, name: string): Json {
    if Get(existing, ID) == JNull then JNum(env.stableId(name)) else existing[ID]
  }

  /** What a row makes of the entry under its key. */
  function Effect(env: MspEnv, c: Change, current: Option<Company>): Option<Company> {
    var name, key := ChangeName(env.kit, c), ChangeKey(env.kit, c);
    if c.kind == Create then Some(Company(key, c.after[ID := JNum(env.stableId(name))]))
    else if c.kind == Update && current.Some? then
      Some(Company(key, (current.value.row + c.after)[ID := IdAfter(env, current.value.row, name)]))
    else if c.kind == Delete then None
    else current
  }

  function ApplyRow(env: MspEnv, store: seq<Company>, c: Change): seq<Company> {
    var key := ChangeKey(env.kit, c);
    var after := Effect(env, c, Lookup(store, COMPANY_KEY, key));
    if c.kind == Delete then Drop(store, COMPANY_KEY, key)
    else if after.Some? then Store(store, COMPANY_KEY, after.value.(key := key))
    else store
  }

  function Run(env: MspEnv, store: seq<Company>, cs: seq<Change>): seq<Company>
    decreases |cs|
  {
    if cs == [] then store else Run(env, ApplyRow(env, store, cs[0]), cs[1..])
  }

  datatype Action = Created | Updated | Deleted | Conflicted | Passed

  datatype Outcome = Outcome(name: string, companyId: string, action: Action, missing: bool)

  /** What is reported of a row, given the entry under its key. */
  function OutcomeOf(env: MspEnv, c: Change, current: Option<Company>): Outcome {
    var name, planned := ChangeName(env.kit, c), OrEmpty(c.keeperUid);
    if c.kind == Create then Outcome(name, env.kit.str(JNum(env.stableId(name))), Created, false)
    else if c.kind == Conflict then Outcome(name, planned, Conflicted, false)
    else if c.kind != Update && c.kind != Delete then Outcome(name, planned, Passed, false)
    else
      var action := if c.kind == Update then Updated else Deleted;
      if current.None? then Outcome(name, planned, action, true)
      else Outcome(name, env.kit.str(IdAfter(env, current.value.row, name)), action, false)
  }

  function StepRow(env: MspEnv, dry: bool, store: seq<Company>, c: Change): seq<Company> {
    if dry then store else ApplyRow(env, store, c)
  }

  function Outcomes(env: MspEnv, dry: bool, store: seq<Company>, cs: seq<Change>): seq<Outcome>
    decreases |cs|
  {
    if cs == [] then []
    else
      [OutcomeOf(env, cs[0], Lookup(store, COMPANY_KEY, ChangeKey(env.kit, cs[0])))]
      + Outcomes(env, dry, StepRow(env, dry, store, cs[0]), cs[1..])
  }

  lemma OutcomesStep(env: MspEnv, dry: bool, store: seq<Company>, cs: seq<Change>, i: nat)
    requires i < |cs|
    ensures Outcomes(env, dry, store, cs[i..])
         == [OutcomeOf(env, cs[i], Lookup(store, COMPANY_KEY, ChangeKey(env.kit, cs[i])))]
            + Outcomes(env, dry, StepRow(env, dry, store, cs[i]), cs[i + 1..])
    ensures Run(env, store, cs[i..]) == Run(env, ApplyRow(env, store, cs[i]), cs[i + 1..])
  {
    assert cs[i..][1..] == cs[i + 1..];
  }

  function Payloads(store: seq<Company>): (rows: seq<Dict>)
    ensures |rows| == |store| && forall i | 0 <= i < |store| :: rows[i] == store[i].row
  {
    if store == [] then [] else [store[0].row] + Payloads(store[1..])
  }

  function ByName(kit: MspKit): Dict -> Key {
    (row: Dict) => Key(0, 0, NameKey(kit)(row))
  }

  /** `discover_managed_companies` */
  function Discovered(kit: MspKit, store: seq<Company>): seq<Dict> {
    SortBy(Payloads(store), ByName(kit))
  }

  class MspMockProvider {
    const env: MspEnv
    var companies: seq<Company>

    constructor (env: MspEnv)
      ensures this.env == env && companies == []
    {
      this.env := env;
      companies := [];
    }

    method Discover() returns (rows: seq<Dict>)
      ensures rows == Discovered(env.kit, companies)
    {
      rows := SortBy(Payloads(companies), ByName(env.kit));
    }

    method ApplyOne(c: Change, dry: bool) returns (outcome: Outcome)
      requires DistinctBy(companies, COMPANY_KEY)
      modifies this
      ensures companies == StepRow(env, dry, old(companies), c)
      ensures DistinctBy(companies, COMPANY_KEY)
      ensures outcome == OutcomeOf(env, c, Lookup(old(companies), COMPANY_KEY, ChangeKey(env.kit, c)))
    {
      var name, key := ChangeName(env.kit, c), ChangeKey(env.kit, c);
      var existing := Lookup(companies, COMPANY_KEY, key);
      outcome := OutcomeOf(env, c, existing);
      if dry { return; }
      StepIsPointwise(env, companies, c, key);
      if c.kind == Create {
        companies := Store(companies, COMPANY_KEY, Company(key, c.after[ID := JNum(env.stableId(name))]));
      } else if c.kind == Update && existing.Some? {
        var row := existing.value.row + c.after;
        row := row[ID := IdAfter(env, existing.value.row, name)];
        companies := Store(companies, COMPANY_KEY, Company(key, row));
      } else if c.kind == Delete {
        companies := Drop(companies, COMPANY_KEY, key);
      } else if existing.Some? {
        StoringWhatIsThere(companies, existing.value);
      }
    }

    static method HasOffenders(cs: seq<Change>) returns (found: bool)
      ensures found <==> exists c :: c in cs && c.resourceType != MANAGED_COMPANY
    {
      for i := 0 to |cs|
        invariant forall c | c in cs[..i] :: c.resourceType == MANAGED_COMPANY
      {
        if cs[i].resourceType != MANAGED_COMPANY { return true; }
        assert cs[..i + 1] == cs[..i] + [cs[i]];
      }
      assert cs[..|cs|] == cs;
      return false;
    }

    /** `apply_msp_plan`: a plan with any other resource type is refused as a whole. */
    method ApplyMspPlan(plan: Plan, dryRun: bool) returns (refused: bool, outcomes: seq<Outcome>)
      requires DistinctBy(companies, COMPANY_KEY)
      modifies this
      ensures refused <==> exists c :: c in plan.changes && c.resourceType != MANAGED_COMPANY
      ensures companies == if refused || dryRun then old(companies) else Run(env, old(companies), AllRows(plan))
      ensures outcomes == if refused then [] else Outcomes(env, dryRun, old(companies), AllRows(plan))
    {
      hide OutcomeOf, ApplyRow, AllRows;
      refused := HasOffenders(plan.changes);
      if refused { return true, []; }
      var todo := AllRows(plan);
      outcomes := [];
      for i := 0 to |todo|
        invariant DistinctBy(companies, COMPANY_KEY)
        invariant if dryRun then companies == old(companies)
                  else Run(env, companies, todo[i..]) == Run(env, old(companies), todo)
        invariant outcomes + Outcomes(env, dryRun, companies, todo[i..]) == Outcomes(env, dryRun, old(companies), todo)
      {
        OutcomesStep(env, dryRun, companies, todo, i);
        var outcome := ApplyOne(todo[i], dryRun);
        outcomes := outcomes + [outcome];
      }
      assert todo[|todo|..] == [];
    }
  }

  // ----------------------------------------------------------------- row by row, by key

  lemma StoringWhatIsThere(store: seq<Company>, c: Company)
    requires Lookup(store, COMPANY_KEY, c.key) == Some(c)
    ensures Store(store, COMPANY_KEY, c) == store
  {}

  lemma StepIsPointwise(env: MspEnv, store: seq<Company>, c: Change, k: string)
    requires DistinctBy(store, COMPANY_KEY)
    ensures DistinctBy(ApplyRow(env, store, c), COMPANY_KEY)
    ensures Lookup(ApplyRow(env, store, c), COMPANY_KEY, k)
         == if k == ChangeKey(env.kit, c) then Effect(env, c, Lookup(store, COMPANY_KEY, k)) else Lookup(store, COMPANY_KEY, k)
  {
    var key := ChangeKey(env.kit, c);
    var after := Effect(env, c, Lookup(store, COMPANY_KEY, key));
    if c.kind == Delete {
      DropIsRemoval(store, COMPANY_KEY, key, k);
    } else if after.Some? {
      StoreIsUpdate(store, COMPANY_KEY, after.value.(key := key), k);
    }
  }

  ghost predicate Addressed(kit: MspKit, ts: seq<Tagged<Change>>) {
    forall t | t in ts :: ChangeKey(kit, t.row) == t.key
  }

  lemma {:induction false} RunIsPointwise(env: MspEnv, store: seq<Company>, ts: seq<Tagged<Change>>, k: string)
    requires DistinctBy(store, COMPANY_KEY) && DistinctTags(ts) && Addressed(env.kit, ts)
    ensures var out := Run(env, store, Untagged(ts));
            && DistinctBy(out, COMPANY_KEY)
            && Lookup(out, COMPANY_KEY, k) == match TagAt(ts, k) {
                                                case None => Lookup(store, COMPANY_KEY, k)
                                                case Some(t) => Effect(env, t.row, Lookup(store, COMPANY_KEY, k)) }
    decreases |ts|
  {
    if ts != [] {
      assert ts[0] in ts;
      assert Untagged(ts)[1..] == Untagged(ts[1..]);
      assert forall j | 0 <= j < |ts[1..]| :: ts[1..][j] == ts[j + 1] && ts[j + 1].key != ts[0].key && ts[j + 1] in ts;
      StepIsPointwise(env, store, ts[0].row, k);
      RunIsPointwise(env, ApplyRow(env, store, ts[0].row), ts[1..], k);
    }
  }

  /** Two stores agree under the keys of the rows still to come. */
  ghost predicate AgreeOn(ts: seq<Tagged<Change>>, a: seq<Company>, b: seq<Company>) {
    forall i | 0 <= i < |ts| :: Lookup(a, COMPANY_KEY, ts[i].key) == Lookup(b, COMPANY_KEY, ts[i].key)
  }

  lemma AgreementStays(env: MspEnv, ts: seq<Tagged<Change>>, a: seq<Company>, b: seq<Company>)
    requires ts != [] && DistinctTags(ts) && Addressed(env.kit, ts) && AgreeOn(ts, a, b) && DistinctBy(b, COMPANY_KEY)
    ensures AgreeOn(ts[1..], a, ApplyRow(env, b, ts[0].row)) && DistinctBy(ApplyRow(env, b, ts[0].row), COMPANY_KEY)
    ensures DistinctTags(ts[1..]) && Addressed(env.kit, ts[1..]) && ChangeKey(env.kit, ts[0].row) == ts[0].key
  {
    hide ApplyRow, ChangeKey;
    assert ts[0] in ts;
    StepIsPointwise(env, b, ts[0].row, ts[0].key);
    forall i | 0 <= i < |ts[1..]|
      ensures Lookup(a, COMPANY_KEY, ts[1..][i].key) == Lookup(ApplyRow(env, b, ts[0].row), COMPANY_KEY, ts[1..][i].key)
    {
      assert ts[1..][i] == ts[i + 1];
      StepIsPointwise(env, b, ts[0].row, ts[i + 1].key);
    }
  }

  lemma {:induction false} RunReportsAlike(env: MspEnv, a: seq<Company>, b: seq<Company>, ts: seq<Tagged<Change>>)
    requires DistinctBy(b, COMPANY_KEY) && DistinctTags(ts) && Addressed(env.kit, ts) && AgreeOn(ts, a, b)
    ensures Outcomes(env, true, a, Untagged(ts)) == Outcomes(env, false, b, Untagged(ts))
    decreases |ts|
  {
    hide ApplyRow, ChangeKey, OutcomeOf;
    if ts != [] {
      assert Untagged(ts)[1..] == Untagged(ts[1..]);
      AgreementStays(env, ts, a, b);
      RunReportsAlike(env, a, ApplyRow(env, b, ts[0].row), ts[1..]);
    }
  }

  /** Every entry sits under the key of its row. */
  ghost predicate Keyed(kit: MspKit, store: seq<Company>) {
    DistinctBy(store, COMPANY_KEY) && forall c | c in store :: c.key == NameKey(kit)(c.row)
  }

  lemma PayloadsAreDistinct(kit: MspKit, store: seq<Company>)
    requires Keyed(kit, store)
    ensures DistinctBy(Discovered(kit, store), NameKey(kit))
    ensures forall r :: r in Discovered(kit, store) <==> r in Payloads(store)
  {
    var rows := Payloads(store);
    forall i, j | 0 <= i < j < |rows| ensures NameKey(kit)(rows[i]) != NameKey(kit)(rows[j]) {
      assert store[i] in store && store[j] in store;
      assert COMPANY_KEY(store[i]) != COMPANY_KEY(store[j]);
    }
    SortIsPermutation(rows, ByName(kit));
    PermutationStaysDistinct(rows, Discovered(kit, store), NameKey(kit));
    SortKeepsMembers(rows, ByName(kit));
  }

  /** What the diff sees under a key: the row stored there. */
  lemma LiveAt(kit: MspKit, store: seq<Company>, k: string)
    requires Keyed(kit, store)
    ensures Having(Discovered(kit, store), NameKey(kit), k)
         == match Lookup(store, COMPANY_KEY, k) { case None => [] case Some(c) => [c.row] }
  {
    var live, rows := Discovered(kit, store), Payloads(store);
    PayloadsAreDistinct(kit, store);
    var found := Lookup(store, COMPANY_KEY, k);
    if found.Some? {
      var i :| 0 <= i < |store| && store[i] == found.value;
      assert rows[i] in rows;
      HavingIs(live, NameKey(kit), found.value.row);
    } else {
      HavingMembers(live, NameKey(kit), k);
      forall r | r in live ensures NameKey(kit)(r) != k {
        var i :| 0 <= i < |rows| && rows[i] == r;
        assert store[i] in store && COMPANY_KEY(store[i]) == store[i].key;
      }
    }
  }

  // ---------------------------------------------------------------------- one round

  /** Plan the managed companies against the discovered ones, and apply the plan. */
  datatype MspRound = MspRound(st: Settings, companies: seq<Dict>, planName: string, order: seq<string>)

  function ChangesOf(env: MspEnv, store: seq<Company>, x: MspRound): seq<Change> {
    Diff(env.kit, x.st, Desired(env.kit, x.companies), Discovered(env.kit, store))
  }

  function Reconciled(env: MspEnv, store: seq<Company>, x: MspRound): seq<Company> {
    Run(env, store, AllRows(Plan(x.planName, ChangesOf(env, store, x), x.order)))
  }

  /** The company the manifest asks for under a key. */
  function Asked(kit: MspKit, x: MspRound, k: string): Option<Dict> {
    Lookup(Desired(kit, x.companies), NameKey(kit), k)
  }

  function VerdictAt(kit: MspKit, st: Settings, d: Option<Dict>, live: Option<Company>): Option<Change> {
    match (d, live)
    case (Some(d), Some(c)) => Some(MatchedChange(kit, st, d, c.row))
    case (Some(d), None) => Some(CreateChange(kit, d))
    case (None, Some(c)) => Some(OrphanChange(kit, st, c.row))
    case (None, None) => None
  }

  function VerdictOn(env: MspEnv, store: seq<Company>, x: MspRound, k: string): Option<Change> {
    VerdictAt(env.kit, x.st, Asked(env.kit, x, k), Lookup(store, COMPANY_KEY, k))
  }

  lemma AskedIsCanonical(kit: MspKit, x: MspRound, k: string)
    requires Sound(kit)
    ensures DistinctBy(Desired(kit, x.companies), NameKey(kit))
    ensures Asked(kit, x, k).Some? ==> Canonical(kit, Asked(kit, x, k).value) && NameKey(kit)(Asked(kit, x, k).value) == k
  {
    var rows := NormRows(kit, x.companies);
    IndexMembers(rows, NameKey(kit));
    if Asked(kit, x, k).Some? {
      var i :| 0 <= i < |rows| && rows[i] == Asked(kit, x, k).value;
      NormRowIsCanonical(kit, x.companies[i]);
    }
  }

  lemma VerdictIsAt(env: MspEnv, store: seq<Company>, x: MspRound, k: string)
    requires Sound(env.kit) && Keyed(env.kit, store)
    ensures Verdict(MspRules(env.kit, x.st), SidesOf(env.kit, Desired(env.kit, x.companies), Discovered(env.kit, store)), k)
         == VerdictOn(env, store, x, k)
  {
    AskedIsCanonical(env.kit, x, k);
    LiveAt(env.kit, store, k);
    HavingIsLookup(Desired(env.kit, x.companies), NameKey(env.kit), k);
  }

  lemma LiveKeepsName(kit: MspKit, row: Dict)
    ensures Get(NormLive(kit, row), "name") == JStr(Name(kit, row))
  {}

  lemma OrphanIsAddressed(kit: MspKit, st: Settings, live: Dict)
    requires Sound(kit)
    ensures ChangeKey(kit, OrphanChange(kit, st, live)) == NameKey(kit)(live)
  {
    LiveKeepsName(kit, live);
  }

  lemma DesiredIsAddressed(kit: MspKit, st: Settings, d: Dict, live: Dict)
    requires Canonical(kit, d)
    ensures ChangeKey(kit, CreateChange(kit, d)) == NameKey(kit)(d) && ChangeKey(kit, MatchedChange(kit, st, d, live)) == NameKey(kit)(d)
  {}

  lemma VerdictIsAddressed(env: MspEnv, store: seq<Company>, x: MspRound, k: string)
    requires Sound(env.kit) && Keyed(env.kit, store) && VerdictOn(env, store, x, k).Some?
    ensures ChangeKey(env.kit, VerdictOn(env, store, x, k).value) == k
    ensures VerdictOn(env, store, x, k).value.resourceType == MANAGED_COMPANY
  {
    AskedIsCanonical(env.kit, x, k);
    var d, live := Asked(env.kit, x, k), Lookup(store, COMPANY_KEY, k);
    if d.Some? {
      DesiredIsAddressed(env.kit, x.st, d.value, if live.Some? then live.value.row else map[]);
    } else {
      OrphanIsAddressed(env.kit, x.st, live.value.row);
      assert live.value.key == NameKey(env.kit)(live.value.row);
    }
  }

  /** The rows of the diff are the verdicts on the keys; the provider accepts them all. */
  lemma RowsAreVerdicts(env: MspEnv, store: seq<Company>, x: MspRound)
    requires Sound(env.kit) && Keyed(env.kit, store)
    ensures var rows := TaggedChanges(env.kit, x.st, Desired(env.kit, x.companies), Discovered(env.kit, store));
            && DistinctTags(rows) && Addressed(env.kit, rows)
            && (forall k: string, c :: Tagged(k, c) in rows <==> VerdictOn(env, store, x, k) == Some(c))
    ensures forall c | c in ChangesOf(env, store, x) :: c.resourceType == MANAGED_COMPANY
    ensures forall c :: c in ChangesOf(env, store, x) <==> exists k :: VerdictOn(env, store, x, k) == Some(c)
  {
    var rules, sides := MspRules(env.kit, x.st), SidesOf(env.kit, Desired(env.kit, x.companies), Discovered(env.kit, store));
    var rows := Rows(rules, sides);
    AskedIsCanonical(env.kit, x, "");
    RowsPartition(rules, sides);
    forall k: string, c ensures Tagged(k, c) in rows <==> VerdictOn(env, store, x, k) == Some(c) {
      VerdictIsAt(env, store, x, k);
      assert Tagged(k, c) in rows <==> Verdict(rules, sides, Tagged(k, c).key) == Some(Tagged(k, c).row);
    }
    forall t | t in rows ensures ChangeKey(env.kit, t.row) == t.key && t.row.resourceType == MANAGED_COMPANY {
      assert Tagged(t.key, t.row) == t;
      VerdictIsAddressed(env, store, x, t.key);
    }
    ListedIffTold(env, store, x, rows);
  }

  lemma ListedIffTold(env: MspEnv, store: seq<Company>, x: MspRound, rows: seq<Tagged<Change>>)
    requires rows == TaggedChanges(env.kit, x.st, Desired(env.kit, x.companies), Discovered(env.kit, store))
    requires forall k: string, c :: Tagged(k, c) in rows <==> VerdictOn(env, store, x, k) == Some(c)
    requires forall t | t in rows :: t.row.resourceType == MANAGED_COMPANY
    ensures forall c | c in ChangesOf(env, store, x) :: c.resourceType == MANAGED_COMPANY
    ensures forall c :: c in ChangesOf(env, store, x) <==> exists k :: VerdictOn(env, store, x, k) == Some(c)
  {
    SortKeepsMembers(Untagged(rows), SortKey(env.kit));
    forall c ensures c in ChangesOf(env, store, x) <==> exists k :: VerdictOn(env, store, x, k) == Some(c) {
      UntaggedMembers(rows, c);
      if k :| VerdictOn(env, store, x, k) == Some(c) { assert Tagged(k, c) in rows; }
    }
    forall c | c in ChangesOf(env, store, x) ensures c.resourceType == MANAGED_COMPANY {
      UntaggedMembers(rows, c);
      var k: string :| Tagged(k, c) in rows;
      assert Tagged(k, c).row == c;
    }
  }

  /** A round changes the store key by key, as the verdicts say. */
  lemma RoundIsPointwise(env: MspEnv, store: seq<Company>, x: MspRound, k: string)
    requires Sound(env.kit) && Keyed(env.kit, store)
    ensures var out := Reconciled(env, store, x);
            && DistinctBy(out, COMPANY_KEY)
            && Lookup(out, COMPANY_KEY, k) == match VerdictOn(env, store, x, k) {
                                                case None => Lookup(store, COMPANY_KEY, k)
                                                case Some(c) => Effect(env, c, Lookup(store, COMPANY_KEY, k)) }
  {
    var rows := TaggedChanges(env.kit, x.st, Desired(env.kit, x.companies), Discovered(env.kit, store));
    var p := Plan(x.planName, ChangesOf(env, store, x), x.order);
    RowsAreVerdicts(env, store, x);
    AllRowsIsPermutation(p);
    SortIsPermutation(Untagged(rows), SortKey(env.kit));
    var ts := OrderTags(AllRows(p), rows);
    RunIsPointwise(env, store, ts, k);
    TagOfVerdict(ts, k, VerdictOn(env, store, x, k));
  }

  /** A dry run of a planned round reports what the real run will report, row by row. */
  lemma DryRunForetells(env: MspEnv, store: seq<Company>, x: MspRound)
    requires Sound(env.kit) && Keyed(env.kit, store)
    ensures var todo := AllRows(Plan(x.planName, ChangesOf(env, store, x), x.order));
            Outcomes(env, true, store, todo) == Outcomes(env, false, store, todo)
  {
    var rows := TaggedChanges(env.kit, x.st, Desired(env.kit, x.companies), Discovered(env.kit, store));
    var p := Plan(x.planName, ChangesOf(env, store, x), x.order);
    RowsAreVerdicts(env, store, x);
    AllRowsIsPermutation(p);
    SortIsPermutation(Untagged(rows), SortKey(env.kit));
    var ts := OrderTags(AllRows(p), rows);
    RunReportsAlike(env, store, store, ts);
  }

  // ------------------------------------------------------------------------ convergence

  lemma WrittenIsSame(kit: MspKit, d: Dict, row: Dict)
    requires Sound(kit) && Canonical(kit, d) && forall f: Column :: Get(row, ColumnName(f)) == Get(d, ColumnName(f))
    ensures DiffColumns(NormLive(kit, row), d) == {}
  {
    forall f: Column ensures Get(NormLive(kit, row), ColumnName(f)) == Get(d, ColumnName(f)) {
      NormRowAt(kit, row, f);
      LiveKeepsColumns(kit, row, f);
    }
  }

  lemma LiveKeepsColumns(kit: MspKit, row: Dict, f: Column)
    ensures Get(NormLive(kit, row), ColumnName(f)) == Get(NormRow(kit, row), ColumnName(f))
  {
    match f { case Plan_ => case Seats => case FilePlan => case Addons => }
  }

  /** What an entry looks like once the desired company is written over it. */
  ghost predicate Written(d: Dict, c: Company) {
    Get(c.row, "name") == Get(d, "name") && forall f: Column :: Get(c.row, ColumnName(f)) == Get(d, ColumnName(f))
  }

  lemma WritingWrites(d: Dict, after: Dict, row: Dict, id: Json)
    requires forall k | k in d :: k in after && after[k] == d[k]
    requires "name" in d && forall f: Column :: ColumnName(f) in d
    ensures Written(d, Company("", (row + after)[ID := id]))
  {
    forall f: Column ensures ColumnName(f) != ID && Get((row + after)[ID := id], ColumnName(f)) == Get(d, ColumnName(f)) {
      match f { case Plan_ => case Seats => case FilePlan => case Addons => }
    }
  }

  /** The manifest's manager, as the source computes it: stripped and not empty. */
  ghost predicate Manages(kit: MspKit, st: Settings) {
    st.manager != "" && kit.strip(st.manager) == st.manager
  }

  /** A desired company carries no manager of its own. */
  ghost predicate Unclaimed(d: Dict) {
    "manager" !in d
  }

  /** Owned already, drifted, and yet left alone by an adopting diff. */
  ghost predicate HiddenDrift(kit: MspKit, st: Settings, d: Dict, live: Dict) {
    MatchOf(kit, st, d, live) == Owned && DiffColumns(NormLive(kit, live), d) != {}
  }

  lemma WrittenSettles(kit: MspKit, st: Settings, d: Dict, row: Dict)
    requires Sound(kit) && Manages(kit, st) && Canonical(kit, d) && Written(d, Company("", row))
    requires LiveManager(kit, row).None? || LiveManager(kit, row).value == st.manager
    ensures MatchOf(kit, st.(adopt := false), d, row) == Same
    ensures MatchOf(kit, st, d, row) == if !st.adopt then Same else if LiveManager(kit, row).Some? then Owned else Adoptable
  {
    WrittenIsSame(kit, d, row);
  }

  lemma MergedManager(row: Dict, after: Dict, id: Json)
    ensures Get((row + after)[ID := id], "manager") == if "manager" in after then after["manager"] else Get(row, "manager")
  {}

  /** The row an update leaves. */
  lemma UpdateWrites(env: MspEnv, d: Dict, c: Change, live: Company)
    requires c.kind == Update && "name" in d && forall f: Column :: ColumnName(f) in d
    requires forall k | k in d :: k in c.after && c.after[k] == d[k]
    ensures var after := Effect(env, c, Some(live));
            && after.Some? && Written(d, Company("", after.value.row))
            && Get(after.value.row, "manager") == if "manager" in c.after then c.after["manager"] else Get(live.row, "manager")
  {
    var id := IdAfter(env, live.row, ChangeName(env.kit, c));
    WritingWrites(d, c.after, live.row, id);
    MergedManager(live.row, c.after, id);
  }

  lemma AdoptedSettles(env: MspEnv, st: Settings, d: Dict, live: Company)
    requires Sound(env.kit) && Manages(env.kit, st) && Canonical(env.kit, d) && Unclaimed(d)
    requires MatchOf(env.kit, st, d, live.row) == Adoptable
    ensures var after := Effect(env, MatchedChange(env.kit, st, d, live.row), Some(live));
            after.Some? && MatchOf(env.kit, st.(adopt := false), d, after.value.row) == Same && MatchOf(env.kit, st, d, after.value.row) == Owned
  {
    var c := MatchedChange(env.kit, st, d, live.row);
    UpdateWrites(env, d, c, live);
    WrittenSettles(env.kit, st, d, Effect(env, c, Some(live)).value.row);
  }

  lemma DriftedSettles(env: MspEnv, st: Settings, d: Dict, live: Company)
    requires Sound(env.kit) && Manages(env.kit, st) && Canonical(env.kit, d) && Unclaimed(d)
    requires MatchOf(env.kit, st, d, live.row) == Drifted
    ensures var after := Effect(env, MatchedChange(env.kit, st, d, live.row), Some(live));
            after.Some? && MatchOf(env.kit, st, d, after.value.row) == Same
  {
    var c := MatchedChange(env.kit, st, d, live.row);
    UpdateWrites(env, d, c, live);
    WrittenSettles(env.kit, st, d, Effect(env, c, Some(live)).value.row);
  }

  lemma CreatedSettles(env: MspEnv, st: Settings, d: Dict)
    requires Sound(env.kit) && Manages(env.kit, st) && Canonical(env.kit, d) && Unclaimed(d)
    ensures var after := Effect(env, CreateChange(env.kit, d), None);
            && after.Some? && MatchOf(env.kit, st.(adopt := false), d, after.value.row) == Same
            && MatchOf(env.kit, st, d, after.value.row) == if st.adopt then Adoptable else Same
  {
    var c := CreateChange(env.kit, d);
    var after := Effect(env, c, None).value;
    assert map[] + c.after == c.after;
    WritingWrites(d, c.after, map[], JNum(env.stableId(ChangeName(env.kit, c))));
    assert Get(after.row, "manager") == JNull;
    WrittenSettles(env.kit, st, d, after.row);
  }

  /** How a matched company looks to the next diff, with adoption off and with the same
      settings again. */
  lemma MatchSettles(env: MspEnv, st: Settings, d: Dict, live: Company)
    requires Sound(env.kit) && Manages(env.kit, st) && Canonical(env.kit, d) && Unclaimed(d)
    requires MatchOf(env.kit, st, d, live.row) != Foreign
    ensures var after := Effect(env, MatchedChange(env.kit, st, d, live.row), Some(live));
            && after.Some?
            && MatchOf(env.kit, st.(adopt := false), d, after.value.row) == (if HiddenDrift(env.kit, st, d, live.row) then Drifted else Same)
            && KindOf(MatchOf(env.kit, st, d, after.value.row)) == Noop
  {
    hide Canonical, DiffColumns, NormLive, Manages, Unclaimed;
    var m := MatchOf(env.kit, st, d, live.row);
    if m == Adoptable {
      AdoptedSettles(env, st, d, live);
    } else if m == Drifted {
      DriftedSettles(env, st, d, live);
    } else {
      assert Effect(env, MatchedChange(env.kit, st, d, live.row), Some(live)) == Some(live);
    }
  }

  /** What the next diff says about a desired company after its verdict was carried out:
      settled, unless an adopting diff hid a drift and the next does not adopt, or the
      company was just created and the next adopts again. */
  function NextKind(kit: MspKit, st: Settings, d: Dict, live: Option<Company>, again: bool): Kind {
    if live.None? then (if again then Update else Noop)
    else if !again && MatchOf(kit, st, d, live.value.row) == Owned && DiffColumns(NormLive(kit, live.value.row), d) != {} then Update
    else Noop
  }

  lemma DesiredSettles(env: MspEnv, st: Settings, d: Dict, live: Option<Company>, again: bool)
    requires Sound(env.kit) && Manages(env.kit, st) && (again ==> st.adopt) && Canonical(env.kit, d) && Unclaimed(d)
    requires live.Some? ==> MatchOf(env.kit, st, d, live.value.row) != Foreign
    ensures var after := Effect(env, VerdictAt(env.kit, st, Some(d), live).value, live);
            && after.Some?
            && KindOf(MatchOf(env.kit, st.(adopt := again), d, after.value.row)) == NextKind(env.kit, st, d, live, again)
  {
    if live.Some? { MatchSettles(env, st, d, live.value); } else { CreatedSettles(env, st, d); }
    assert again ==> st.(adopt := again) == st;
  }

  /** The company asked for under a key, and what was there, before a round. */
  ghost predicate Unsettled(env: MspEnv, store: seq<Company>, x: MspRound, again: bool, k: string) {
    var d := Asked(env.kit, x, k);
    d.Some? && NextKind(env.kit, x.st, d.value, Lookup(store, COMPANY_KEY, k), again) == Update
  }

  lemma RoundKeepsKeyed(env: MspEnv, store: seq<Company>, x: MspRound)
    requires Sound(env.kit) && Keyed(env.kit, store)
    ensures Keyed(env.kit, Reconciled(env, store, x))
  {
    hide MatchOf, NormLive, Canonical, Unclaimed, Reconciled, Asked;
    var out := Reconciled(env, store, x);
    RoundIsPointwise(env, store, x, "");
    forall c | c in out ensures c.key == NameKey(env.kit)(c.row) {
      LookupIs(out, COMPANY_KEY, c);
      RoundIsPointwise(env, store, x, c.key);
      var v, live := VerdictOn(env, store, x, c.key), Lookup(store, COMPANY_KEY, c.key);
      AskedIsCanonical(env.kit, x, c.key);
      if live.Some? { assert live.value.key == NameKey(env.kit)(live.value.row); }
      if v.Some? && v.value.kind in {Create, Update} {
        AskedIsUnclaimed(env.kit, x, c.key);
        EffectKeepsName(env, x.st, Asked(env.kit, x, c.key).value, live);
      }
    }
  }

  lemma EffectKeepsName(env: MspEnv, st: Settings, d: Dict, live: Option<Company>)
    requires Canonical(env.kit, d) && Unclaimed(d) && VerdictAt(env.kit, st, Some(d), live).value.kind in {Create, Update}
    ensures var after := Effect(env, VerdictAt(env.kit, st, Some(d), live).value, live);
            after.Some? && NameKey(env.kit)(after.value.row) == NameKey(env.kit)(d)
  {
    var c := VerdictAt(env.kit, st, Some(d), live).value;
    var after := Effect(env, c, live);
    if live.Some? {
      UpdateWrites(env, d, c, live.value);
      assert Get(after.value.row, "name") == Get(d, "name");
    } else {
      assert after == Some(Company(ChangeKey(env.kit, c), c.after[ID := JNum(env.stableId(ChangeName(env.kit, c)))]));
      assert Get(after.value.row, "name") == Get(d, "name");
    }
    assert Name(env.kit, after.value.row) == Name(env.kit, d);
  }

  /** After a round, the next diff says of a key what `NextKind` says; a company nobody asks
      for is gone or may not be deleted. */
  lemma KeySettles(env: MspEnv, store: seq<Company>, x: MspRound, again: bool, k: string)
    requires Sound(env.kit) && Keyed(env.kit, store) && Manages(env.kit, x.st) && (again ==> x.st.adopt)
    requires forall c | c in ChangesOf(env, store, x) :: c.kind != Conflict
    ensures var d := Asked(env.kit, x, k);
            var v := VerdictOn(env, Reconciled(env, store, x), x.(st := x.st.(adopt := again)), k);
            if d.Some? then v.Some? && v.value.kind == NextKind(env.kit, x.st, d.value, Lookup(store, COMPANY_KEY, k), again)
            else v.Some? ==> v.value.kind == Skip && !x.st.allowDelete
  {
    hide MatchOf, NormLive, Canonical, Unclaimed, NextKind, Reconciled;
    var d, live := Asked(env.kit, x, k), Lookup(store, COMPANY_KEY, k);
    RoundIsPointwise(env, store, x, k);
    AskedIsCanonical(env.kit, x, k);
    if d.Some? {
      AskedIsUnclaimed(env.kit, x, k);
      VerdictIsListed(env, store, x, k);
      DesiredSettles(env, x.st, d.value, live, again);
    }
  }

  lemma AskedIsUnclaimed(kit: MspKit, x: MspRound, k: string)
    ensures Asked(kit, x, k).Some? ==> Unclaimed(Asked(kit, x, k).value)
  {
    var rows := NormRows(kit, x.companies);
    IndexMembers(rows, NameKey(kit));
    if Asked(kit, x, k).Some? {
      var i :| 0 <= i < |rows| && rows[i] == Asked(kit, x, k).value;
    }
  }

  /** Only NOOP, and SKIP when deletes are off. */
  predicate AtRest(cs: seq<Change>, allowDelete: bool) {
    forall c | c in cs :: c.kind == Noop || (c.kind == Skip && !allowDelete)
  }

  function Again(x: MspRound, adopt: bool): MspRound {
    x.(st := x.st.(adopt := adopt))
  }

  lemma ChangeHasKey(env: MspEnv, store: seq<Company>, x: MspRound, c: Change) returns (k: string)
    requires Sound(env.kit) && Keyed(env.kit, store) && c in ChangesOf(env, store, x)
    ensures VerdictOn(env, store, x, k) == Some(c)
  {
    RowsAreVerdicts(env, store, x);
    k :| VerdictOn(env, store, x, k) == Some(c);
  }

  lemma SettledIsAtRest(env: MspEnv, store: seq<Company>, x: MspRound, again: bool)
    requires Sound(env.kit) && Keyed(env.kit, store) && Manages(env.kit, x.st) && (again ==> x.st.adopt)
    requires forall c | c in ChangesOf(env, store, x) :: c.kind != Conflict
    requires forall k :: !Unsettled(env, store, x, again, k)
    ensures AtRest(ChangesOf(env, Reconciled(env, store, x), Again(x, again)), x.st.allowDelete)
  {
    var out := Reconciled(env, store, x);
    RoundKeepsKeyed(env, store, x);
    forall c | c in ChangesOf(env, out, Again(x, again)) ensures c.kind == Noop || (c.kind == Skip && !x.st.allowDelete) {
      var k := ChangeHasKey(env, out, Again(x, again), c);
      KeySettles(env, store, x, again, k);
      assert !Unsettled(env, store, x, again, k);
    }
  }

  lemma UnsettledShows(env: MspEnv, store: seq<Company>, x: MspRound, again: bool, k: string)
    requires Sound(env.kit) && Keyed(env.kit, store) && Manages(env.kit, x.st) && (again ==> x.st.adopt)
    requires forall c | c in ChangesOf(env, store, x) :: c.kind != Conflict
    requires Unsettled(env, store, x, again, k)
    ensures !AtRest(ChangesOf(env, Reconciled(env, store, x), Again(x, again)), x.st.allowDelete)
  {
    var out := Reconciled(env, store, x);
    RoundKeepsKeyed(env, store, x);
    KeySettles(env, store, x, again, k);
    VerdictIsListed(env, out, Again(x, again), k);
  }

  lemma VerdictIsListed(env: MspEnv, store: seq<Company>, x: MspRound, k: string)
    requires Sound(env.kit) && Keyed(env.kit, store)
    ensures VerdictOn(env, store, x, k).Some? ==> VerdictOn(env, store, x, k).value in ChangesOf(env, store, x)
  {
    RowsAreVerdicts(env, store, x);
  }

  /** Apply a conflict-free plan and plan again.  Every row is NOOP, or SKIP when deletes are
      off, exactly when no company is left unsettled: with adoption off in the next diff,
      when an adopting diff met an already managed company that had drifted; with
      adoption on in both, when a company was created. */
  lemma MspConvergesIff(env: MspEnv, store: seq<Company>, x: MspRound, again: bool)
    requires Sound(env.kit) && Keyed(env.kit, store) && Manages(env.kit, x.st) && (again ==> x.st.adopt)
    requires forall c | c in ChangesOf(env, store, x) :: c.kind != Conflict
    ensures AtRest(ChangesOf(env, Reconciled(env, store, x), Again(x, again)), x.st.allowDelete)
       <==> forall k :: !Unsettled(env, store, x, again, k)
  {
    if k :| Unsettled(env, store, x, again, k) {
      UnsettledShows(env, store, x, again, k);
    } else {
      SettledIsAtRest(env, store, x, again);
    }
  }

  /** With adoption off nothing can be left unsettled: the loop converges. */
  lemma MspConverges(env: MspEnv, store: seq<Company>, x: MspRound)
    requires Sound(env.kit) && Keyed(env.kit, store) && Manages(env.kit, x.st) && !x.st.adopt
    requires forall c | c in ChangesOf(env, store, x) :: c.kind != Conflict
    ensures AtRest(ChangesOf(env, Reconciled(env, store, x), x), x.st.allowDelete)
    ensures IsClean(Plan(x.planName, ChangesOf(env, Reconciled(env, store, x), x), x.order))
  {
    assert Again(x, false) == x;
    SettledIsAtRest(env, store, x, false);
  }
}
