/** `KsmMockProvider` (keeper_sdk/providers/mock.py): the keyed state of the four KSM blocks
    and its plan executor.  A key begins with the name of its block, so the four dicts are
    one; a Python dict keeps insertion order, so it is the sequence of its values. */
module KsmProvider {
  import opened Json
  import opened OrderedDict
  import opened Plans
  import PamDiff
  import MockProvider
  import opened KsmNormalise
  import opened KsmDiff

  datatype KsmEnv = KsmEnv(kit: Kit, stableUid: string -> string, now: string)

  datatype KsmRow = KsmRow(block: Block, key: string, payload: Dict)

  datatype State = State(rows: seq<KsmRow>, markers: map<string, PamDiff.Marker>)

  function BlockOf(resourceType: string): (b: Option<Block>)
    ensures b.Some? <==> exists x :: ResourceOf(x) == resourceType
    ensures b.Some? ==> ResourceOf(b.value) == resourceType
  {
    if resourceType == ResourceOf(Apps) then Some(Apps) else if resourceType == ResourceOf(Tokens) then Some(Tokens)
    else if resourceType == ResourceOf(RecordShares) then Some(RecordShares)
    else if resourceType == ResourceOf(ConfigOutputs) then Some(ConfigOutputs) else None
  }

  function KsmSeed(name: string, resourceType: string, text: string): string {
    "ksm:" + name + ":" + resourceType + ":" + text
  }

  function UidOfRow(r: KsmRow): Json {
    Get(r.payload, KEEPER_UID)
  }

  // ------------------------------------------------------------------------- the dict

  const ROW_KEY: KsmRow -> string := (r: KsmRow) => r.key

  function At(rows: seq<KsmRow>, key: string): (r: Option<KsmRow>)
    ensures r.Some? ==> r.value in rows && r.value.key == key
    ensures r.None? ==> forall x | x in rows :: x.key != key
  {
    Lookup(rows, ROW_KEY, key)
  }

  function PutRow(rows: seq<KsmRow>, r: KsmRow): seq<KsmRow> {
    Store(rows, ROW_KEY, r)
  }

  function PopRow(rows: seq<KsmRow>, key: string): seq<KsmRow> {
    Drop(rows, ROW_KEY, key)
  }

  /** `_ksm_key_by_keeper_uid`: the first row of the block with the keeper uid. */
  function ByKeeperUid(rows: seq<KsmRow>, b: Block, uid: string): (r: Option<KsmRow>)
    ensures r.Some? ==> r.value in rows && r.value.block == b && UidOfRow(r.value) == JStr(uid)
    ensures r.None? ==> forall x | x in rows && x.block == b :: UidOfRow(x) != JStr(uid)
  {
    if rows == [] then None
    else if rows[0].block == b && UidOfRow(rows[0]) == JStr(uid) then Some(rows[0])
    else ByKeeperUid(rows[1..], b, uid)
  }

  // ---------------------------------------------------------------------------- one row

  function NewUid(env: KsmEnv, name: string, c: Change): string {
    env.stableUid(KsmSeed(name, c.resourceType, MockProvider.RefOrTitle(c)))
  }

  function Stored(b: Block, payload: Dict, uid: string): KsmRow {
    var p := payload[KEEPER_UID := JStr(uid)];
    KsmRow(b, KeyOf(b, p), p)
  }

  function MarkerAfter(env: KsmEnv, name: string, c: Change, s: State, uid: string): PamDiff.Marker {
    var marker := if uid in s.markers then s.markers[uid] else MockProvider.MarkerAt(env.now, name, c);
    marker.(manifest := Some(name), resourceType := Some(c.resourceType), lastApplied := env.now)
  }

  function CreateIn(env: KsmEnv, name: string, s: State, b: Block, c: Change): State {
    var uid := NewUid(env, name, c);
    State(PutRow(s.rows, Stored(b, c.after, uid)), s.markers[uid := MockProvider.MarkerAt(env.now, name, c)])
  }

  function UpdateIn(env: KsmEnv, name: string, s: State, b: Block, c: Change): State {
    var uid := OrEmpty(c.keeperUid);
    match ByKeeperUid(s.rows, b, uid)
    case None => s
    case Some(r) =>
      State(PutRow(PopRow(s.rows, r.key), Stored(b, r.payload + c.after, uid)),
            s.markers[uid := MarkerAfter(env, name, c, s, uid)])
  }

  function DeleteIn(s: State, b: Block, c: Change): State {
    var uid := OrEmpty(c.keeperUid);
    match ByKeeperUid(s.rows, b, uid)
    case None => s
    case Some(r) => State(PopRow(s.rows, r.key), s.markers - {uid})
  }

  function ApplyRow(env: KsmEnv, name: string, s: State, c: Change): State {
    var b := BlockOf(c.resourceType);
    if b.None? then s
    else if c.kind == Create then CreateIn(env, name, s, b.value, c)
    else if c.kind == Update then UpdateIn(env, name, s, b.value, c)
    else if c.kind == Delete then DeleteIn(s, b.value, c)
    else s
  }

  function Run(env: KsmEnv, name: string, s: State, cs: seq<Change>): State
    decreases |cs|
  {
    if cs == [] then s else Run(env, name, ApplyRow(env, name, s, cs[0]), cs[1..])
  }

  // ------------------------------------------------------------------------ the provider

  datatype Action = Created | Updated | Deleted | Conflicted | Passed

  datatype Outcome = Outcome(uidRef: string, keeperUid: string, action: Action, missing: bool)

  function OutcomeOf(env: KsmEnv, name: string, s: State, c: Change): Outcome {
    var b := BlockOf(c.resourceType);
    var uid := OrEmpty(c.keeperUid);
    var missing := b.Some? && ByKeeperUid(s.rows, b.value, uid).None?;
    if c.kind == Conflict then Outcome(OrEmpty(c.uidRef), uid, Conflicted, false)
    else if b.None? then Outcome(OrEmpty(c.uidRef), uid, Passed, false)
    else if c.kind == Create then Outcome(OrEmpty(c.uidRef), NewUid(env, name, c), Created, false)
    else if c.kind == Update then Outcome(OrEmpty(c.uidRef), uid, Updated, missing)
    else if c.kind == Delete then Outcome(OrEmpty(c.uidRef), uid, Deleted, missing)
    else Outcome(OrEmpty(c.uidRef), uid, Passed, false)
  }

  function Outcomes(env: KsmEnv, name: string, dry: bool, s: State, cs: seq<Change>): seq<Outcome>
    decreases |cs|
  {
    if cs == [] then []
    else
      [OutcomeOf(env, name, s, cs[0])]
      + Outcomes(env, name, dry, if dry then s else ApplyRow(env, name, s, cs[0]), cs[1..])
  }

  function OfBlock(rows: seq<KsmRow>, b: Block): seq<KsmRow> {
    if rows == [] then [] else (if rows[0].block == b then [rows[0]] else []) + OfBlock(rows[1..], b)
  }

  /** Block by block, in insertion order. */
  function ByBlock(rows: seq<KsmRow>): seq<KsmRow> {
    OfBlock(rows, Apps) + OfBlock(rows, Tokens) + OfBlock(rows, RecordShares) + OfBlock(rows, ConfigOutputs)
  }

  function Payloads(rows: seq<KsmRow>): seq<(Block, Dict)> {
    seq(|rows|, i requires 0 <= i < |rows| => (rows[i].block, rows[i].payload))
  }

  /** `discover_ksm_state` */
  function Snapshot(s: State): seq<(Block, Dict)> {
    Payloads(ByBlock(s.rows))
  }

  lemma RunUnfolds(env: KsmEnv, name: string, dry: bool, s: State, cs: seq<Change>, i: nat)
    requires i < |cs|
    ensures Run(env, name, s, cs[i..]) == Run(env, name, ApplyRow(env, name, s, cs[i]), cs[i + 1..])
    ensures Outcomes(env, name, dry, s, cs[i..])
         == [OutcomeOf(env, name, s, cs[i])]
            + Outcomes(env, name, dry, if dry then s else ApplyRow(env, name, s, cs[i]), cs[i + 1..])
  {
    assert cs[i..][1..] == cs[i + 1..];
  }

  class KsmMockProvider {
    const env: KsmEnv
    var rows: seq<KsmRow>
    var markers: map<string, PamDiff.Marker>

    constructor (env: KsmEnv)
      ensures this.env == env && Now() == State([], map[])
    {
      this.env := env;
      rows, markers := [], map[];
    }

    function Now(): State
      reads this
    {
      State(rows, markers)
    }

    method Discover() returns (live: seq<(Block, Dict)>)
      ensures live == Snapshot(Now())
    {
      live := Payloads(ByBlock(rows));
    }

    method ApplyOne(name: string, c: Change, dry: bool) returns (outcome: Outcome)
      modifies this
      ensures Now() == if dry then old(Now()) else ApplyRow(env, name, old(Now()), c)
      ensures outcome == OutcomeOf(env, name, old(Now()), c)
    {
      outcome := OutcomeOf(env, name, Now(), c);
      var block := BlockOf(c.resourceType);
      if c.kind == Conflict || block.None? || dry {
      } else if c.kind == Create {
        var uid := NewUid(env, name, c);
        rows := PutRow(rows, Stored(block.value, c.after, uid));
        markers := markers[uid := MockProvider.MarkerAt(env.now, name, c)];
      } else if c.kind == Update {
        var uid := OrEmpty(c.keeperUid);
        var existing := ByKeeperUid(rows, block.value, uid);
        if existing.Some? {
          var marker := MarkerAfter(env, name, c, Now(), uid);
          rows := PopRow(rows, existing.value.key);
          rows := PutRow(rows, Stored(block.value, existing.value.payload + c.after, uid));
          markers := markers[uid := marker];
        }
      } else if c.kind == Delete {
        var uid := OrEmpty(c.keeperUid);
        var existing := ByKeeperUid(rows, block.value, uid);
        if existing.Some? {
          rows := PopRow(rows, existing.value.key);
          markers := markers - {uid};
        }
      }
    }

    /** `apply_ksm_plan` */
    method ApplyKsmPlan(plan: Plan, dryRun: bool) returns (outcomes: seq<Outcome>)
      modifies this
      ensures Now() == if dryRun then old(Now()) else Run(env, plan.manifestName, old(Now()), AllRows(plan))
      ensures outcomes == Outcomes(env, plan.manifestName, dryRun, old(Now()), AllRows(plan))
    {
      hide OutcomeOf, AllRows;
      outcomes := [];
      var name, todo := plan.manifestName, AllRows(plan);
      for i := 0 to |todo|
        invariant if dryRun then Now() == old(Now())
                  else Run(env, name, Now(), todo[i..]) == Run(env, name, old(Now()), todo)
        invariant outcomes + Outcomes(env, name, dryRun, Now(), todo[i..])
               == Outcomes(env, name, dryRun, old(Now()), todo)
      {
        RunUnfolds(env, name, dryRun, Now(), todo, i);
        var outcome := ApplyOne(name, todo[i], dryRun);
        outcomes := outcomes + [outcome];
      }
      assert todo[|todo|..] == [] && outcomes + [] == outcomes;
    }
  }
}
