/** The KSM reconcile loop over whole runs: what the provider's state keeps, and that
    planning again after applying finds nothing to do (keeper_sdk/core/ksm_diff.py,
    keeper_sdk/providers/mock.py). */
module KsmConvergence {
  import opened Json
  import opened OrderedDict
  import opened Sorting
  import opened Plans
  import opened Names
  import opened KsmNormalise
  import opened KeyedDiff
  import opened KsmDiff
  import opened KsmDiffTheorems
  import opened KsmProvider

  // ---------------------------------------------------------------- keys and payloads

  /** Keys of different blocks never meet. */
  lemma KeyTellsBlock(a: Block, x: Dict, b: Block, y: Dict)
    requires KeyOf(a, x) == KeyOf(b, y)
    ensures a == b
  {
    assert KeyOf(a, x)[0] == KeyOf(b, y)[0];
  }

  lemma NormKeepsField(kit: Kit, d: Dict, k: string)
    requires k != KEEPER_UID
    ensures TextField(NormPayload(kit, d), k) == TextField(d, k)
  {}

  lemma FieldsDecideKey(b: Block, x: Dict, y: Dict)
    requires forall k | k in {"uid_ref", "app_uid_ref", "record_uid_ref", "output_path"} :: TextField(x, k) == TextField(y, k)
    ensures KeyOf(b, x) == KeyOf(b, y)
  {}

  lemma NormKeepsKey(kit: Kit, b: Block, d: Dict)
    ensures KeyOf(b, NormPayload(kit, d)) == KeyOf(b, d)
  {
    forall k | k in {"uid_ref", "app_uid_ref", "record_uid_ref", "output_path"}
      ensures TextField(NormPayload(kit, d), k) == TextField(d, k)
    {
      NormKeepsField(kit, d, k);
    }
    FieldsDecideKey(b, NormPayload(kit, d), d);
  }

  /** The keeper uid is no part of the key. */
  lemma UidKeepsKey(b: Block, d: Dict, v: Json)
    ensures KeyOf(b, d[KEEPER_UID := v]) == KeyOf(b, d)
  {
    forall k | k in {"uid_ref", "app_uid_ref", "record_uid_ref", "output_path"}
      ensures TextField(d[KEEPER_UID := v], k) == TextField(d, k) {}
    FieldsDecideKey(b, d[KEEPER_UID := v], d);
  }

  /** An object as the diff indexes it. */
  ghost predicate Indexed(kit: Kit, o: Obj) {
    NormPayload(kit, o.payload) == o.payload && o.key == KeyOf(o.block, o.payload)
  }

  lemma ObjIsIndexed(kit: Kit, b: Block, row: Dict)
    ensures Indexed(kit, ObjOf(kit, b, row)) && ObjOf(kit, b, row).key == KeyOf(b, row)
  {
    NormPayloadIdempotent(kit, row);
    NormKeepsKey(kit, b, row);
  }

  function LiveObj(kit: Kit, r: KsmRow): Obj {
    ObjOf(kit, r.block, r.payload)
  }

  /** What an update leaves in place of a live payload. */
  function Merged(kit: Kit, live: Dict, o: Obj): Dict {
    live + DeltaOf(o.payload, Drift(NormPayload(kit, live), o.payload))
  }

  /** Merging the reported fields removes the drift, whatever its direction: a field the
      manifest no longer has is overwritten with None. */
  lemma MergeSettles(kit: Kit, live: Dict, o: Obj, uid: Json)
    requires Indexed(kit, o)
    ensures Drift(NormPayload(kit, Merged(kit, live, o)[KEEPER_UID := uid]), o.payload) == {}
  {
    var merged := Merged(kit, live, o)[KEEPER_UID := uid];
    var drift := Drift(NormPayload(kit, live), o.payload);
    forall k | k != "uid_ref" ensures Get(NormPayload(kit, merged), k) == Get(o.payload, k) {
      assert Get(NormPayload(kit, o.payload), k) == Get(o.payload, k);
      if k in drift {
        assert Get(merged, k) == Get(o.payload, k);
      } else {
        assert Get(NormPayload(kit, live), k) == Get(o.payload, k);
      }
    }
  }

  lemma CreateSettles(kit: Kit, o: Obj, uid: Json)
    requires Indexed(kit, o)
    ensures Drift(NormPayload(kit, o.payload[KEEPER_UID := uid]), o.payload) == {}
  {
    assert NormPayload(kit, o.payload[KEEPER_UID := uid]) == NormPayload(kit, o.payload);
  }

  /** An update keeps the row's key. */
  lemma MergeKeepsKey(kit: Kit, b: Block, live: Dict, o: Obj)
    requires Indexed(kit, o) && KeyOf(b, live) == o.key
    ensures KeyOf(b, Merged(kit, live, o)) == o.key
  {
    hide Merged, NormPayload, Norm, TextField;
    KeyTellsBlock(b, live, o.block, o.payload);
    MergedField(kit, live, o, "app_uid_ref");
    MergedField(kit, live, o, "record_uid_ref");
    MergedField(kit, live, o, "output_path");
    MergedRef(kit, live, o);
  }

  lemma MergedField(kit: Kit, live: Dict, o: Obj, k: string)
    requires k != KEEPER_UID && k != "uid_ref"
    ensures TextField(Merged(kit, live, o), k) == TextField(o.payload, k)
  {
    NormKeepsField(kit, live, k);
    var drift := Drift(NormPayload(kit, live), o.payload);
    if k !in drift { assert Get(NormPayload(kit, live), k) == Get(o.payload, k); }
  }

  lemma MergedRef(kit: Kit, live: Dict, o: Obj)
    ensures TextField(Merged(kit, live, o), "uid_ref") == TextField(live, "uid_ref")
  {}

  lemma WithIs(objs: seq<Obj>, o: Obj)
    requires DistinctKeys(objs) && o in objs
    ensures With(objs, o.key) == [o]
  {
    HavingIs(objs, KEY_OF, o);
  }

  // ------------------------------------------------------------------ the state invariant

  /** The plan names and the objects a run is about. */
  datatype Scope = Scope(names: set<string>, objs: seq<Obj>)

  function UidSeed(name: string, o: Obj): string {
    KsmSeed(name, ResourceOf(o.block), SortText(o))
  }

  /** In a block, what keeper uids are made from tells the key: no two objects of the run
      with different keys are seeded alike, under the same or different plan names. */
  ghost predicate SeedsTell(all: Scope) {
    forall a, b, m, n | a in all.objs && b in all.objs && m in all.names && n in all.names
                        && a.block == b.block && UidSeed(m, a) == UidSeed(n, b) :: a.key == b.key
  }

  /** The uid_refs of the run, synthetic ones included, tell the key in each block. */
  ghost predicate Coherent(objs: seq<Obj>) {
    forall a, b | a in objs && b in objs && a.block == b.block && SortText(a) == SortText(b) :: a.key == b.key
  }

  ghost predicate CreatedFor(env: KsmEnv, all: Scope, r: KsmRow, o: Obj, name: string) {
    && name in all.names && o in all.objs && o.block == r.block && o.key == r.key
    && UidOfRow(r) == JStr(env.stableUid(UidSeed(name, o)))
  }

  /** A row sits under the key of its payload, and its keeper uid was made for that key. */
  ghost predicate GoodRow(env: KsmEnv, all: Scope, r: KsmRow) {
    r.key == KeyOf(r.block, r.payload) && exists o, name :: CreatedFor(env, all, r, o, name)
  }

  ghost predicate DistinctRows(rows: seq<KsmRow>) {
    forall i, j | 0 <= i < j < |rows| :: rows[i].key != rows[j].key
  }

  ghost predicate Good(env: KsmEnv, all: Scope, rows: seq<KsmRow>) {
    DistinctRows(rows) && forall r | r in rows :: GoodRow(env, all, r)
  }

  lemma SeedSplits(a: string, res: string, x: string, b: string, y: string)
    requires ColonFree(a) && ColonFree(b)
    requires KsmSeed(a, res, x) == KsmSeed(b, res, y)
    ensures x == y
  {
    var s, t := a + ":" + (res + ":" + x), b + ":" + (res + ":" + y);
    assert KsmSeed(a, res, x) == "ksm:" + s && KsmSeed(b, res, y) == "ksm:" + t;
    assert s == KsmSeed(a, res, x)[4..] && t == KsmSeed(b, res, y)[4..];
    FirstColonSplits(a, res + ":" + x, b, res + ":" + y);
    assert x == (res + ":" + x)[|res| + 1..] && y == (res + ":" + y)[|res| + 1..];
  }

  /** Seeds tell when uid_refs do and plan names have no colon ... */
  lemma ColonFreeSeedsTell(all: Scope)
    requires Coherent(all.objs) && forall n | n in all.names :: ColonFree(n)
    ensures SeedsTell(all)
  {
    forall a, b, m, n | a in all.objs && b in all.objs && m in all.names && n in all.names
                        && a.block == b.block && UidSeed(m, a) == UidSeed(n, b)
      ensures a.key == b.key
    {
      SeedSplits(m, ResourceOf(a.block), SortText(a), n, SortText(b));
    }
  }

  /** ... or there is one plan name. */
  lemma OneNameSeedsTell(name: string, objs: seq<Obj>)
    requires Coherent(objs)
    ensures SeedsTell(Scope({name}, objs))
  {
    forall a, b | a in objs && b in objs && a.block == b.block && UidSeed(name, a) == UidSeed(name, b) ensures a.key == b.key {
      SameNameSplits(name, ResourceOf(a.block), SortText(a), SortText(b));
    }
  }

  lemma SameNameSplits(name: string, res: string, x: string, y: string)
    requires KsmSeed(name, res, x) == KsmSeed(name, res, y)
    ensures x == y
  {
    var lead := "ksm:" + name + ":" + res + ":";
    assert x == (lead + x)[|lead|..] && y == (lead + y)[|lead|..];
  }

  /** Otherwise objects of two manifests can share a keeper uid. */
  lemma NamesMayCollide(name: string, res: string, m: string, r: string)
    ensures KsmSeed(name, res, m + ":" + res + ":" + r) == KsmSeed(name + ":" + res + ":" + m, res, r)
  {
    var lead := "ksm:" + name + ":" + res;
    assert lead + ":" + (m + ":" + res + ":" + r) == lead + (":" + m + ":" + res + ":" + r);
    assert "ksm:" + (name + ":" + res + ":" + m) == lead + (":" + m);
    assert lead + (":" + m) + ":" + res + ":" + r == lead + (":" + m + ":" + res + ":" + r);
  }

  /** Within a block the keeper uid tells the row. */
  lemma UidsTellRows(env: KsmEnv, all: Scope, rows: seq<KsmRow>, r: KsmRow, q: KsmRow)
    requires Good(env, all, rows) && SeedsTell(all) && Injective(env.stableUid)
    requires r in rows && q in rows && r.block == q.block && UidOfRow(r) == UidOfRow(q)
    ensures r == q
  {
    assert GoodRow(env, all, r) && GoodRow(env, all, q);
    var o, name :| CreatedFor(env, all, r, o, name);
    var p, other :| CreatedFor(env, all, q, p, other);
    assert UidSeed(name, o) == UidSeed(other, p);
    var i :| 0 <= i < |rows| && rows[i] == r;
    var j :| 0 <= j < |rows| && rows[j] == q;
  }

  lemma PutRowIsUpdate(rows: seq<KsmRow>, r: KsmRow, k: string)
    requires DistinctRows(rows)
    ensures DistinctRows(PutRow(rows, r))
    ensures At(PutRow(rows, r), k) == if k == r.key then Some(r) else At(rows, k)
    ensures forall x | x in PutRow(rows, r) :: x == r || x in rows
  {
    assert DistinctBy(rows, ROW_KEY);
    StoreIsUpdate(rows, ROW_KEY, r, k);
    assert forall i | 0 <= i < |PutRow(rows, r)| :: ROW_KEY(PutRow(rows, r)[i]) == PutRow(rows, r)[i].key;
  }

  lemma PopRowIsRemoval(rows: seq<KsmRow>, key: string, k: string)
    requires DistinctRows(rows)
    ensures DistinctRows(PopRow(rows, key))
    ensures At(PopRow(rows, key), k) == if k == key then None else At(rows, k)
    ensures forall x | x in PopRow(rows, key) :: x in rows
  {
    assert DistinctBy(rows, ROW_KEY);
    DropIsRemoval(rows, ROW_KEY, key, k);
    assert forall i | 0 <= i < |PopRow(rows, key)| :: ROW_KEY(PopRow(rows, key)[i]) == PopRow(rows, key)[i].key;
  }

  // ------------------------------------------------------------------------- one step

  /** A row the diff may produce about a key, given the state's row under that key. */
  ghost predicate Legal(env: KsmEnv, all: Scope, t: Tagged<Change>, current: Option<KsmRow>) {
    match t.row.kind
    case Create => current.None? && exists o :: o in all.objs && Indexed(env.kit, o) && o.key == t.key && t.row == CreateChange(o)
    case Update =>
      && current.Some? && AboutRow(t.row, current.value)
      && exists o :: Indexed(env.kit, o) && o.key == t.key && UpdatesTo(env.kit, t.row, current.value, o)
    case Delete => current.Some? && AboutRow(t.row, current.value)
    case _ => true
  }

  ghost predicate AboutRow(c: Change, r: KsmRow) {
    c.resourceType == ResourceOf(r.block) && c.keeperUid.Some? && UidOfRow(r) == JStr(c.keeperUid.value)
  }

  ghost predicate UpdatesTo(kit: Kit, c: Change, r: KsmRow, o: Obj) {
    r.payload + c.after == Merged(kit, r.payload, o)
  }

  /** What a row makes of the state's row under its key. */
  function Effect(env: KsmEnv, name: string, c: Change, current: Option<KsmRow>): Option<KsmRow> {
    var b := BlockOf(c.resourceType);
    if b.None? then current
    else if c.kind == Create then Some(Stored(b.value, c.after, NewUid(env, name, c)))
    else if c.kind == Update && current.Some? then Some(Stored(b.value, current.value.payload + c.after, OrEmpty(c.keeperUid)))
    else if c.kind == Delete then None
    else current
  }

  ghost predicate Fit(env: KsmEnv, all: Scope, name: string) {
    SeedsTell(all) && Injective(env.stableUid) && name in all.names
  }

  lemma ResourceTellsBlock(a: Block, b: Block)
    ensures ResourceOf(a) == ResourceOf(b) ==> a == b
  {
    RanksMatch(a);
    RanksMatch(b);
  }

  lemma LookupFinds(env: KsmEnv, all: Scope, name: string, rows: seq<KsmRow>, c: Change, r: KsmRow)
    requires Fit(env, all, name) && Good(env, all, rows) && r in rows && AboutRow(c, r)
    ensures BlockOf(c.resourceType) == Some(r.block)
    ensures ByKeeperUid(rows, r.block, OrEmpty(c.keeperUid)) == Some(r)
  {
    ResourceTellsBlock(BlockOf(c.resourceType).value, r.block);
    var found := ByKeeperUid(rows, r.block, OrEmpty(c.keeperUid));
    assert found.Some?;
    UidsTellRows(env, all, rows, r, found.value);
  }

  lemma CreateStep(env: KsmEnv, all: Scope, name: string, s: State, t: Tagged<Change>, k: string)
    requires name in all.names && Good(env, all, s.rows) && Legal(env, all, t, At(s.rows, t.key)) && t.row.kind == Create
    ensures var out := ApplyRow(env, name, s, t.row);
            && Good(env, all, out.rows)
            && At(out.rows, k) == if k == t.key then Effect(env, name, t.row, At(s.rows, k)) else At(s.rows, k)
  {
    var c := t.row;
    var o :| o in all.objs && Indexed(env.kit, o) && o.key == t.key && c == CreateChange(o);
    ResourceTellsBlock(BlockOf(c.resourceType).value, o.block);
    var r := Stored(o.block, c.after, NewUid(env, name, c));
    UidKeepsKey(o.block, c.after, JStr(NewUid(env, name, c)));
    PutRowIsUpdate(s.rows, r, k);
    assert CreatedFor(env, all, r, o, name);
    assert GoodRow(env, all, r);
  }

  lemma UpdatedRowIsGood(env: KsmEnv, all: Scope, r: KsmRow, c: Change, o: Obj)
    requires GoodRow(env, all, r) && AboutRow(c, r) && Indexed(env.kit, o) && o.key == r.key && UpdatesTo(env.kit, c, r, o)
    ensures var r' := Stored(r.block, r.payload + c.after, OrEmpty(c.keeperUid));
            GoodRow(env, all, r') && r'.key == r.key && UidOfRow(r') == UidOfRow(r)
  {
    var r' := Stored(r.block, r.payload + c.after, OrEmpty(c.keeperUid));
    MergeKeepsKey(env.kit, r.block, r.payload, o);
    UidKeepsKey(r.block, r.payload + c.after, UidOfRow(r));
    var p, name :| CreatedFor(env, all, r, p, name);
    assert CreatedFor(env, all, r', p, name);
  }

  lemma UpdateStep(env: KsmEnv, all: Scope, name: string, s: State, t: Tagged<Change>, k: string)
    requires Fit(env, all, name) && Good(env, all, s.rows) && Legal(env, all, t, At(s.rows, t.key)) && t.row.kind == Update
    ensures var out := ApplyRow(env, name, s, t.row);
            && Good(env, all, out.rows)
            && At(out.rows, k) == if k == t.key then Effect(env, name, t.row, At(s.rows, k)) else At(s.rows, k)
  {
    hide UpdatesTo, Indexed, Stored;
    var c, r := t.row, At(s.rows, t.key).value;
    var o :| Indexed(env.kit, o) && o.key == t.key && UpdatesTo(env.kit, c, r, o);
    LookupFinds(env, all, name, s.rows, c, r);
    UpdatedRowIsGood(env, all, r, c, o);
    PopRowIsRemoval(s.rows, r.key, k);
    PutRowIsUpdate(PopRow(s.rows, r.key), Stored(r.block, r.payload + c.after, OrEmpty(c.keeperUid)), k);
  }

  /** A legal row acts on its own key only, as `Effect` says, and keeps the state good. */
  lemma StepIsPointwise(env: KsmEnv, all: Scope, name: string, s: State, t: Tagged<Change>, k: string)
    requires Fit(env, all, name) && Good(env, all, s.rows) && Legal(env, all, t, At(s.rows, t.key))
    ensures var out := ApplyRow(env, name, s, t.row);
            && Good(env, all, out.rows)
            && At(out.rows, k) == if k == t.key then Effect(env, name, t.row, At(s.rows, k)) else At(s.rows, k)
  {
    var c := t.row;
    if c.kind == Create {
      CreateStep(env, all, name, s, t, k);
    } else if c.kind == Update {
      UpdateStep(env, all, name, s, t, k);
    } else if c.kind == Delete {
      var r := At(s.rows, t.key).value;
      LookupFinds(env, all, name, s.rows, c, r);
      PopRowIsRemoval(s.rows, r.key, k);
    }
  }

  // ------------------------------------------------------------------------ a whole plan

  ghost predicate AllLegal(env: KsmEnv, all: Scope, ts: seq<Tagged<Change>>, rows: seq<KsmRow>) {
    forall t | t in ts :: Legal(env, all, t, At(rows, t.key))
  }

  lemma RestStaysLegal(env: KsmEnv, all: Scope, name: string, s: State, ts: seq<Tagged<Change>>)
    requires ts != [] && Fit(env, all, name) && Good(env, all, s.rows) && DistinctTags(ts) && AllLegal(env, all, ts, s.rows)
    ensures Good(env, all, ApplyRow(env, name, s, ts[0].row).rows)
    ensures DistinctTags(ts[1..]) && AllLegal(env, all, ts[1..], ApplyRow(env, name, s, ts[0].row).rows)
  {
    assert ts[0] in ts;
    StepIsPointwise(env, all, name, s, ts[0], "");
    var next := ApplyRow(env, name, s, ts[0].row);
    forall t | t in ts[1..] ensures Legal(env, all, t, At(next.rows, t.key)) {
      var i :| 0 <= i < |ts[1..]| && ts[1..][i] == t;
      assert ts[i + 1] == t && t in ts;
      StepIsPointwise(env, all, name, s, ts[0], t.key);
    }
  }

  /** Rows about distinct keys change the state key by key. */
  lemma {:induction false} RunIsPointwise(env: KsmEnv, all: Scope, name: string, s: State, ts: seq<Tagged<Change>>, k: string)
    requires Fit(env, all, name) && Good(env, all, s.rows) && DistinctTags(ts) && AllLegal(env, all, ts, s.rows)
    ensures var out := Run(env, name, s, Untagged(ts));
            && Good(env, all, out.rows)
            && At(out.rows, k) == match TagAt(ts, k) {
                                    case None => At(s.rows, k)
                                    case Some(t) => Effect(env, name, t.row, At(s.rows, k)) }
    decreases |ts|
  {
    hide ApplyRow, Effect, Legal, Good;
    if ts != [] {
      assert ts[0] in ts;
      assert Untagged(ts)[1..] == Untagged(ts[1..]);
      RestStaysLegal(env, all, name, s, ts);
      StepIsPointwise(env, all, name, s, ts[0], k);
      RunIsPointwise(env, all, name, ApplyRow(env, name, s, ts[0].row), ts[1..], k);
      if ts[0].key == k {
        assert forall j | 0 <= j < |ts[1..]| :: ts[1..][j] == ts[j + 1] && ts[j + 1].key != k;
      }
    }
  }

  // ----------------------------------------------------------------------- discovering

  lemma {:induction false} OfBlockMembers(rows: seq<KsmRow>, b: Block)
    ensures forall r :: r in OfBlock(rows, b) <==> r in rows && r.block == b
  {
    if rows != [] {
      OfBlockMembers(rows[1..], b);
      assert rows == [rows[0]] + rows[1..];
    }
  }

  lemma {:induction false} OfBlockStaysDistinct(rows: seq<KsmRow>, b: Block)
    requires DistinctRows(rows)
    ensures DistinctRows(OfBlock(rows, b))
  {
    if rows != [] {
      var first, rest := rows[0], OfBlock(rows[1..], b);
      assert forall j | 0 <= j < |rows[1..]| :: rows[1..][j] == rows[j + 1] && rows[j + 1].key != first.key;
      OfBlockStaysDistinct(rows[1..], b);
      OfBlockMembers(rows[1..], b);
      assert forall r | r in rest :: r.key != first.key;
      ConsDistinct(first, rest);
    }
  }

  lemma ConsDistinct(first: KsmRow, rest: seq<KsmRow>)
    requires DistinctRows(rest) && forall r | r in rest :: r.key != first.key
    ensures DistinctRows([first] + rest) && [] + rest == rest
  {}

  lemma RowsJoin(a: seq<KsmRow>, b: seq<KsmRow>)
    requires DistinctRows(a) && DistinctRows(b) && forall r, q | r in a && q in b :: r.key != q.key
    ensures DistinctRows(a + b)
  {}

  lemma BlocksApart(env: KsmEnv, all: Scope, rows: seq<KsmRow>, r: KsmRow, q: KsmRow)
    requires Good(env, all, rows) && r in rows && q in rows && r.block != q.block
    ensures r.key != q.key
  {
    if r.key == q.key { KeyTellsBlock(r.block, r.payload, q.block, q.payload); }
  }

  /** The snapshot lists every row once. */
  lemma ByBlockLists(env: KsmEnv, all: Scope, rows: seq<KsmRow>)
    requires Good(env, all, rows)
    ensures DistinctRows(ByBlock(rows)) && forall r :: r in ByBlock(rows) <==> r in rows
  {
    var a, b, c, d := OfBlock(rows, Apps), OfBlock(rows, Tokens), OfBlock(rows, RecordShares), OfBlock(rows, ConfigOutputs);
    OfBlockMembers(rows, Apps);
    OfBlockMembers(rows, Tokens);
    OfBlockMembers(rows, RecordShares);
    OfBlockMembers(rows, ConfigOutputs);
    forall x: Block ensures DistinctRows(OfBlock(rows, x)) { OfBlockStaysDistinct(rows, x); }
    forall r, q | r in rows && q in rows && r.block != q.block ensures r.key != q.key { BlocksApart(env, all, rows, r, q); }
    RowsJoin(a, b);
    RowsJoin(a + b, c);
    RowsJoin(a + b + c, d);
  }

  function LiveOf(env: KsmEnv, s: State): seq<Obj> {
    Objects(env.kit, Snapshot(s))
  }

  lemma LiveKeys(env: KsmEnv, all: Scope, s: State)
    requires Good(env, all, s.rows)
    ensures var rows, live := ByBlock(s.rows), LiveOf(env, s);
            |live| == |rows| && forall i | 0 <= i < |live| :: live[i] == LiveObj(env.kit, rows[i]) && live[i].key == rows[i].key
  {
    var rows, live := ByBlock(s.rows), LiveOf(env, s);
    ByBlockLists(env, all, s.rows);
    forall i | 0 <= i < |live| ensures live[i] == LiveObj(env.kit, rows[i]) && live[i].key == rows[i].key {
      assert rows[i] in s.rows && GoodRow(env, all, rows[i]);
      ObjIsIndexed(env.kit, rows[i].block, rows[i].payload);
    }
  }

  /** What the diff sees of a good state: one object for each row. */
  lemma LiveAt(env: KsmEnv, all: Scope, s: State, k: string)
    requires Good(env, all, s.rows)
    ensures DistinctKeys(LiveOf(env, s))
    ensures With(LiveOf(env, s), k) == match At(s.rows, k) { case None => [] case Some(r) => [LiveObj(env.kit, r)] }
  {
    var rows, live := ByBlock(s.rows), LiveOf(env, s);
    LiveKeys(env, all, s);
    ByBlockLists(env, all, s.rows);
    forall i, j | 0 <= i < j < |live| ensures live[i].key != live[j].key { assert rows[i].key != rows[j].key; }
    HavingMembers(live, KEY_OF, k);
    if At(s.rows, k).Some? {
      assert At(s.rows, k).value in rows;
      var i :| 0 <= i < |rows| && rows[i] == At(s.rows, k).value;
      WithIs(live, live[i]);
    } else {
      forall o | o in live ensures o.key != k {
        var i :| 0 <= i < |live| && live[i] == o;
        assert rows[i] in s.rows;
      }
    }
  }

  // ---------------------------------------------------------------------- one round

  /** Plan a manifest against the discovered state and apply the plan. */
  datatype KsmRound = KsmRound(manifest: seq<(Block, Dict)>, allowDelete: bool, planName: string, order: seq<string>)

  function DesiredOf(env: KsmEnv, x: KsmRound): seq<Obj> {
    Index(Objects(env.kit, x.manifest))
  }

  function ChangesOf(env: KsmEnv, s: State, x: KsmRound): seq<Change> {
    Diff(DesiredOf(env, x), LiveOf(env, s), x.allowDelete)
  }

  function Reconciled(env: KsmEnv, s: State, x: KsmRound): State {
    Run(env, x.planName, s, AllRows(Plan(x.planName, ChangesOf(env, s, x), x.order)))
  }

  function VerdictOn(env: KsmEnv, s: State, x: KsmRound, k: string): Option<Change> {
    VerdictFor(DesiredOf(env, x), LiveOf(env, s), x.allowDelete, k)
  }

  lemma DesiredAreIndexed(env: KsmEnv, x: KsmRound)
    ensures DistinctKeys(DesiredOf(env, x)) && forall o | o in DesiredOf(env, x) :: Indexed(env.kit, o)
  {
    var objs := Objects(env.kit, x.manifest);
    IndexMembers(objs, KEY_OF);
    forall o | o in objs ensures Indexed(env.kit, o) {
      var i :| 0 <= i < |objs| && objs[i] == o;
      ObjIsIndexed(env.kit, x.manifest[i].0, x.manifest[i].1);
    }
  }

  ghost predicate Covers(all: Scope, some: seq<Obj>) {
    forall o | o in some :: o in all.objs
  }

  lemma MatchIsLegal(env: KsmEnv, all: Scope, r: KsmRow, o: Obj)
    requires Indexed(env.kit, o) && GoodRow(env, all, r) && r.key == o.key
    ensures Legal(env, all, Tagged(o.key, MatchedChange(o, LiveObj(env.kit, r))), Some(r))
  {
    KeyTellsBlock(r.block, r.payload, o.block, o.payload);
    var c := MatchedChange(o, LiveObj(env.kit, r));
    var p, name :| CreatedFor(env, all, r, p, name);
    if c.kind == Update {
      assert AboutRow(c, r) && UpdatesTo(env.kit, c, r, o);
    }
  }

  /** Every verdict on a good state is a legal row, and none is a conflict. */
  lemma VerdictIsLegal(env: KsmEnv, all: Scope, s: State, x: KsmRound, k: string)
    requires Good(env, all, s.rows) && Covers(all, DesiredOf(env, x)) && VerdictOn(env, s, x, k).Some?
    ensures Legal(env, all, Tagged(k, VerdictOn(env, s, x, k).value), At(s.rows, k))
    ensures VerdictOn(env, s, x, k).value.kind != Conflict
  {
    var d, current := With(DesiredOf(env, x), k), At(s.rows, k);
    LiveAt(env, all, s, k);
    DesiredAreIndexed(env, x);
    HavingMembers(DesiredOf(env, x), KEY_OF, k);
    hide Legal, GoodRow, Indexed;
    if d != [] { assert d[0] in d; }
    if current.Some? {
      if d != [] { MatchIsLegal(env, all, current.value, d[0]); } else { OrphanIsLegal(env, all, current.value, x.allowDelete); }
    } else {
      CreateIsLegal(env, all, d[0]);
    }
  }

  lemma OrphanIsLegal(env: KsmEnv, all: Scope, r: KsmRow, allowDelete: bool)
    requires GoodRow(env, all, r)
    ensures Legal(env, all, Tagged(r.key, OrphanChange(LiveObj(env.kit, r), allowDelete)), Some(r))
  {
    var p, name :| CreatedFor(env, all, r, p, name);
    assert AboutRow(OrphanChange(LiveObj(env.kit, r), allowDelete), r);
  }

  lemma CreateIsLegal(env: KsmEnv, all: Scope, o: Obj)
    requires o in all.objs && Indexed(env.kit, o)
    ensures Legal(env, all, Tagged(o.key, CreateChange(o)), None)
  {}

  /** The executed rows of a round with their keys: the verdicts, each once, in some order. */
  lemma RoundTags(env: KsmEnv, s: State, x: KsmRound) returns (ts: seq<Tagged<Change>>)
    ensures Reconciled(env, s, x) == Run(env, x.planName, s, Untagged(ts))
    ensures DistinctTags(ts)
    ensures forall k: string, c :: Tagged(k, c) in ts <==> VerdictOn(env, s, x, k) == Some(c)
  {
    hide Run, Rows, Verdict, SortBy, SortKey;
    var rows := TaggedChanges(DesiredOf(env, x), LiveOf(env, s), x.allowDelete);
    var p := Plan(x.planName, ChangesOf(env, s, x), x.order);
    DesiredAreIndexed(env, x);
    KsmRowsPartition(DesiredOf(env, x), LiveOf(env, s), x.allowDelete);
    AllRowsIsPermutation(p);
    SortIsPermutation(Untagged(rows), SortKey);
    ts := OrderTags(AllRows(p), rows);
  }

  /** A round keeps the state good and changes it key by key, as the verdicts say. */
  lemma RoundIsPointwise(env: KsmEnv, all: Scope, s: State, x: KsmRound, k: string)
    requires Fit(env, all, x.planName) && Good(env, all, s.rows) && Covers(all, DesiredOf(env, x))
    ensures var out := Reconciled(env, s, x);
            && Good(env, all, out.rows)
            && At(out.rows, k) == match VerdictOn(env, s, x, k) {
                                    case None => At(s.rows, k)
                                    case Some(c) => Effect(env, x.planName, c, At(s.rows, k)) }
  {
    hide Legal, Effect, VerdictOn, Reconciled, Run, Good, Fit;
    var ts := RoundTags(env, s, x);
    forall t | t in ts ensures Legal(env, all, t, At(s.rows, t.key)) {
      assert t == Tagged(t.key, t.row);
      VerdictIsLegal(env, all, s, x, t.key);
    }
    RunIsPointwise(env, all, x.planName, s, ts, k);
    TagOfVerdict(ts, k, VerdictOn(env, s, x, k));
  }

  // ------------------------------------------------------------------------ convergence

  /** The verdict on a key from the object asked for and the state's row. */
  function VerdictAt(kit: Kit, o: Option<Obj>, current: Option<KsmRow>, allowDelete: bool): Option<Change> {
    match (o, current)
    case (Some(o), Some(r)) => Some(MatchedChange(o, LiveObj(kit, r)))
    case (Some(o), None) => Some(CreateChange(o))
    case (None, Some(r)) => Some(OrphanChange(LiveObj(kit, r), allowDelete))
    case (None, None) => None
  }

  function Asked(env: KsmEnv, x: KsmRound, k: string): Option<Obj> {
    var d := With(DesiredOf(env, x), k);
    if d == [] then None else Some(d[0])
  }

  lemma VerdictIsAt(env: KsmEnv, all: Scope, s: State, x: KsmRound, k: string)
    requires Good(env, all, s.rows)
    ensures VerdictOn(env, s, x, k) == VerdictAt(env.kit, Asked(env, x, k), At(s.rows, k), x.allowDelete)
  {
    LiveAt(env, all, s, k);
  }

  lemma AskedIsIndexed(env: KsmEnv, x: KsmRound, k: string)
    ensures Asked(env, x, k).Some? ==> Indexed(env.kit, Asked(env, x, k).value) && Asked(env, x, k).value.key == k
    ensures Asked(env, x, k).Some? ==> Asked(env, x, k).value in DesiredOf(env, x)
    ensures Has(DesiredOf(env, x), KEY_OF, k) <==> Asked(env, x, k).Some?
  {
    var d := With(DesiredOf(env, x), k);
    DesiredAreIndexed(env, x);
    HavingMembers(DesiredOf(env, x), KEY_OF, k);
    if d != [] { assert d[0] in d; }
  }

  ghost predicate Settled(kit: Kit, o: Obj, r: Option<KsmRow>) {
    r.Some? && Drift(LiveObj(kit, r.value).payload, o.payload) == {}
  }

  lemma CreatedSettles(env: KsmEnv, name: string, o: Obj)
    requires Indexed(env.kit, o)
    ensures Settled(env.kit, o, Effect(env, name, CreateChange(o), None))
  {
    var c := CreateChange(o);
    assert BlockOf(c.resourceType).Some?;
    CreateSettles(env.kit, o, JStr(NewUid(env, name, c)));
  }

  lemma MatchedSettles(env: KsmEnv, name: string, o: Obj, r: KsmRow)
    requires Indexed(env.kit, o) && r.key == o.key && r.key == KeyOf(r.block, r.payload)
    ensures Settled(env.kit, o, Effect(env, name, MatchedChange(o, LiveObj(env.kit, r)), Some(r)))
  {
    hide Drift, DeltaOf, NormPayload, KeyOf, RefOf, TitleOf;
    var c := MatchedChange(o, LiveObj(env.kit, r));
    assert BlockOf(c.resourceType).Some?;
    if c.kind == Update {
      assert r.payload + c.after == Merged(env.kit, r.payload, o);
      MergeSettles(env.kit, r.payload, o, JStr(OrEmpty(c.keeperUid)));
    }
  }

  /** What a verdict leaves under its key calls for nothing more. */
  lemma VerdictSettles(env: KsmEnv, name: string, o: Option<Obj>, r: Option<KsmRow>, allowDelete: bool)
    requires o.Some? ==> Indexed(env.kit, o.value)
    requires r.Some? ==> r.value.key == KeyOf(r.value.block, r.value.payload)
    requires o.Some? && r.Some? ==> o.value.key == r.value.key
    ensures var c := VerdictAt(env.kit, o, r, allowDelete);
            var again := VerdictAt(env.kit, o, if c.None? then r else Effect(env, name, c.value, r), allowDelete);
            if o.Some? then again.Some? && again.value.kind == Noop else again.Some? ==> again.value.kind == Skip && !allowDelete
  {
    if o.Some? && r.Some? {
      MatchedSettles(env, name, o.value, r.value);
    } else if o.Some? {
      CreatedSettles(env, name, o.value);
    } else if r.Some? {
      assert BlockOf(OrphanChange(LiveObj(env.kit, r.value), allowDelete).resourceType).Some?;
    }
  }

  /** After a round the verdict on every key is settled: a desired key needs nothing, and
      any other key still alive is one that may not be deleted. */
  lemma KeySettles(env: KsmEnv, all: Scope, s: State, x: KsmRound, k: string)
    requires Fit(env, all, x.planName) && Good(env, all, s.rows) && Covers(all, DesiredOf(env, x))
    ensures var again := VerdictOn(env, Reconciled(env, s, x), x, k);
            if Has(DesiredOf(env, x), KEY_OF, k) then again.Some? && again.value.kind == Noop
            else again.Some? ==> again.value.kind == Skip && !x.allowDelete
  {
    var o, r := Asked(env, x, k), At(s.rows, k);
    RoundIsPointwise(env, all, s, x, k);
    VerdictIsAt(env, all, s, x, k);
    VerdictIsAt(env, all, Reconciled(env, s, x), x, k);
    AskedIsIndexed(env, x, k);
    assert r.Some? ==> GoodRow(env, all, r.value);
    VerdictSettles(env, x.planName, o, r, x.allowDelete);
  }

  lemma RowOfChange(rows: seq<Tagged<Change>>, c: Change) returns (t: Tagged<Change>)
    requires c in SortBy(Untagged(rows), SortKey)
    ensures t in rows && t.row == c
  {
    SortKeepsMembers(Untagged(rows), SortKey);
    var i :| 0 <= i < |Untagged(rows)| && Untagged(rows)[i] == c;
    t := rows[i];
  }

  lemma ChangeHasKey(env: KsmEnv, s: State, x: KsmRound, c: Change) returns (k: string)
    requires c in ChangesOf(env, s, x)
    ensures VerdictOn(env, s, x, k) == Some(c)
  {
    var t := RowOfChange(TaggedChanges(DesiredOf(env, x), LiveOf(env, s), x.allowDelete), c);
    DesiredAreIndexed(env, x);
    KsmRowsPartition(DesiredOf(env, x), LiveOf(env, s), x.allowDelete);
    k := t.key;
  }

  /** Plan again after applying: one NOOP for each object of the manifest, SKIP for the
      others when deletes are off, and nothing else. */
  lemma RoundConverges(env: KsmEnv, all: Scope, s: State, x: KsmRound)
    requires Fit(env, all, x.planName) && Good(env, all, s.rows) && Covers(all, DesiredOf(env, x))
    ensures var again := ChangesOf(env, Reconciled(env, s, x), x);
            && (forall c | c in again :: c.kind == Noop || (c.kind == Skip && !x.allowDelete))
            && (forall o | o in DesiredOf(env, x) ::
                  exists c :: c in again && c.kind == Noop && VerdictOn(env, Reconciled(env, s, x), x, o.key) == Some(c))
  {
    var out := Reconciled(env, s, x);
    forall c | c in ChangesOf(env, out, x) ensures c.kind == Noop || (c.kind == Skip && !x.allowDelete) {
      var k := ChangeHasKey(env, out, x, c);
      KeySettles(env, all, s, x, k);
    }
    forall o | o in DesiredOf(env, x)
      ensures exists c :: c in ChangesOf(env, out, x) && c.kind == Noop && VerdictOn(env, out, x, o.key) == Some(c)
    {
      KeySettles(env, all, s, x, o.key);
      HavingMembers(DesiredOf(env, x), KEY_OF, o.key);
      VerdictIsListed(env, out, x, o.key);
    }
  }

  lemma VerdictIsListed(env: KsmEnv, s: State, x: KsmRound, k: string)
    ensures VerdictOn(env, s, x, k).Some? ==> VerdictOn(env, s, x, k).value in ChangesOf(env, s, x)
  {
    var rows := TaggedChanges(DesiredOf(env, x), LiveOf(env, s), x.allowDelete);
    DesiredAreIndexed(env, x);
    KsmRowsPartition(DesiredOf(env, x), LiveOf(env, s), x.allowDelete);
    SortKeepsMembers(Untagged(rows), SortKey);
    if VerdictOn(env, s, x, k).Some? {
      var t := Tagged(k, VerdictOn(env, s, x, k).value);
      var i :| 0 <= i < |rows| && rows[i] == t;
      assert Untagged(rows)[i] == t.row;
    }
  }

  // --------------------------------------------------------------------------- whole runs

  function RunAll(env: KsmEnv, s: State, xs: seq<KsmRound>): State
    decreases |xs|
  {
    if xs == [] then s else RunAll(env, Reconciled(env, s, xs[0]), xs[1..])
  }

  /** Every object the manifests of a run ever asked for. */
  function AllDesired(env: KsmEnv, xs: seq<KsmRound>): seq<Obj> {
    if xs == [] then [] else DesiredOf(env, xs[0]) + AllDesired(env, xs[1..])
  }

  function ScopeOf(env: KsmEnv, xs: seq<KsmRound>): Scope {
    Scope(set x | x in xs :: x.planName, AllDesired(env, xs))
  }

  lemma {:induction false} RunsStayGood(env: KsmEnv, all: Scope, s: State, xs: seq<KsmRound>)
    requires Good(env, all, s.rows) && SeedsTell(all) && Injective(env.stableUid)
    requires Covers(all, AllDesired(env, xs)) && forall x | x in xs :: x.planName in all.names
    ensures Good(env, all, RunAll(env, s, xs).rows)
    decreases |xs|
  {
    if xs != [] {
      assert xs[0] in xs;
      RoundIsPointwise(env, all, s, xs[0], "");
      RunsStayGood(env, all, Reconciled(env, s, xs[0]), xs[1..]);
    }
  }

  /** No two rows of a block share a keeper uid. */
  ghost predicate DistinctUids(rows: seq<KsmRow>) {
    forall i, j | 0 <= i < j < |rows| && rows[i].block == rows[j].block :: UidOfRow(rows[i]) != UidOfRow(rows[j])
  }

  lemma GoodStatesHaveDistinctUids(env: KsmEnv, all: Scope, rows: seq<KsmRow>)
    requires Good(env, all, rows) && SeedsTell(all) && Injective(env.stableUid)
    ensures DistinctUids(rows)
  {
    forall i, j | 0 <= i < j < |rows| && rows[i].block == rows[j].block ensures UidOfRow(rows[i]) != UidOfRow(rows[j]) {
      if UidOfRow(rows[i]) == UidOfRow(rows[j]) { UidsTellRows(env, all, rows, rows[i], rows[j]); }
    }
  }

  /** From an empty provider, after any rounds of any manifests: every row sits under the
      key of its payload, keys and keeper uids are distinct, no row is ever a conflict, and
      planning the last manifest again finds nothing to do. */
  lemma KsmRunsConverge(env: KsmEnv, xs: seq<KsmRound>, x: KsmRound)
    requires Injective(env.stableUid) && SeedsTell(ScopeOf(env, xs + [x]))
    ensures var before := RunAll(env, State([], map[]), xs);
            var after := Reconciled(env, before, x);
            && (forall r | r in after.rows :: r.key == KeyOf(r.block, r.payload))
            && DistinctRows(after.rows) && DistinctUids(after.rows)
            && (forall c | c in ChangesOf(env, before, x) :: c.kind != Conflict)
            && (forall c | c in ChangesOf(env, after, x) :: c.kind == Noop || (c.kind == Skip && !x.allowDelete))
  {
    var all := ScopeOf(env, xs + [x]);
    var before := RunAll(env, State([], map[]), xs);
    AllDesiredSplits(env, xs, x);
    assert forall y | y in xs :: y in xs + [x];
    assert x in xs + [x];
    RunsStayGood(env, all, State([], map[]), xs);
    RoundIsPointwise(env, all, before, x, "");
    GoodStatesHaveDistinctUids(env, all, Reconciled(env, before, x).rows);
    forall r | r in Reconciled(env, before, x).rows ensures r.key == KeyOf(r.block, r.payload) {
      assert GoodRow(env, all, r);
    }
    NoConflicts(env, all, before, x);
    RoundConverges(env, all, before, x);
  }

  lemma NoConflicts(env: KsmEnv, all: Scope, s: State, x: KsmRound)
    requires Good(env, all, s.rows) && Covers(all, DesiredOf(env, x))
    ensures forall c | c in ChangesOf(env, s, x) :: c.kind != Conflict
  {
    forall c | c in ChangesOf(env, s, x) ensures c.kind != Conflict {
      var k := ChangeHasKey(env, s, x, c);
      VerdictIsLegal(env, all, s, x, k);
    }
  }

  lemma {:induction false} AllDesiredSplits(env: KsmEnv, xs: seq<KsmRound>, x: KsmRound)
    ensures forall o | o in AllDesired(env, xs) || o in DesiredOf(env, x) :: o in AllDesired(env, xs + [x])
    decreases |xs|
  {
    if xs == [] {
      assert ([] + [x])[1..] == [] && xs + [x] == [x];
    } else {
      assert (xs + [x])[1..] == xs[1..] + [x];
      AllDesiredSplits(env, xs[1..], x);
    }
  }

  // ------------------------------------------------------- when keeper uids do collide

  function ShareRow(app: string, record: string): Dict {
    map["app_uid_ref" := JStr(app), "record_uid_ref" := JStr(record)]
  }

  lemma ShareNames(app: string, record: string)
    ensures RefOf(RecordShares, ShareRow(app, record)) == "share:" + app + ":" + record
    ensures KeyOf(RecordShares, ShareRow(app, record)) == "record_shares:" + app + "|" + record
  {}

  lemma JoinsAgree(lead: string, p: string, m: string, r: string)
    ensures lead + (p + ":" + m) + ":" + r == lead + p + ":" + (m + ":" + r)
  {}

  lemma PipesDiffer(lead: string, p: string, m: string, r: string)
    ensures lead + (p + ":" + m) + "|" + r != lead + p + "|" + (m + ":" + r)
  {
    var i := |lead| + |p|;
    assert (lead + (p + ":" + m) + "|" + r)[i] == ':' && (lead + p + "|" + (m + ":" + r))[i] == '|';
  }

  /** Well-formed app references may hold colons, so two different shares can have one
      synthetic uid_ref. */
  lemma SharesMayCollide(p: string, m: string, r: string)
    ensures var a, b := ShareRow(p + ":" + m, r), ShareRow(p, m + ":" + r);
            RefOf(RecordShares, a) == RefOf(RecordShares, b) && KeyOf(RecordShares, a) != KeyOf(RecordShares, b)
  {
    ShareNames(p + ":" + m, r);
    ShareNames(p, m + ":" + r);
    JoinsAgree("share:", p, m, r);
    PipesDiffer("record_shares:", p, m, r);
  }

  ghost predicate AllCreates(env: KsmEnv, all: Scope, ts: seq<Tagged<Change>>, rows: seq<KsmRow>) {
    AllLegal(env, all, ts, rows) && forall t | t in ts :: t.row.kind == Create
  }

  lemma RestStaysCreates(env: KsmEnv, all: Scope, name: string, s: State, ts: seq<Tagged<Change>>)
    requires ts != [] && name in all.names && Good(env, all, s.rows) && DistinctTags(ts) && AllCreates(env, all, ts, s.rows)
    ensures Good(env, all, ApplyRow(env, name, s, ts[0].row).rows)
    ensures DistinctTags(ts[1..]) && AllCreates(env, all, ts[1..], ApplyRow(env, name, s, ts[0].row).rows)
  {
    assert ts[0] in ts;
    CreateStep(env, all, name, s, ts[0], "");
    var next := ApplyRow(env, name, s, ts[0].row);
    forall t | t in ts[1..] ensures Legal(env, all, t, At(next.rows, t.key)) && t.row.kind == Create {
      var i :| 0 <= i < |ts[1..]| && ts[1..][i] == t;
      assert ts[i + 1] == t && t in ts;
      CreateStep(env, all, name, s, ts[0], t.key);
    }
  }

  /** Creates about distinct keys all land, whatever their keeper uids. */
  lemma {:induction false} CreatesLand(env: KsmEnv, all: Scope, name: string, s: State, ts: seq<Tagged<Change>>, k: string)
    requires name in all.names && Good(env, all, s.rows) && DistinctTags(ts) && AllCreates(env, all, ts, s.rows)
    ensures var out := Run(env, name, s, Untagged(ts));
            && Good(env, all, out.rows)
            && At(out.rows, k) == match TagAt(ts, k) {
                                    case None => At(s.rows, k)
                                    case Some(t) => Effect(env, name, t.row, At(s.rows, k)) }
    decreases |ts|
  {
    hide ApplyRow, Effect, Legal, Good;
    if ts != [] {
      assert ts[0] in ts;
      assert Untagged(ts)[1..] == Untagged(ts[1..]);
      RestStaysCreates(env, all, name, s, ts);
      CreateStep(env, all, name, s, ts[0], k);
      CreatesLand(env, all, name, ApplyRow(env, name, s, ts[0].row), ts[1..], k);
      if ts[0].key == k {
        assert forall j | 0 <= j < |ts[1..]| :: ts[1..][j] == ts[j + 1] && ts[j + 1].key != k;
      }
    }
  }

  function ScopeOfOne(env: KsmEnv, x: KsmRound): Scope {
    Scope({x.planName}, DesiredOf(env, x))
  }

  /** The first round creates every object of the manifest. */
  lemma FirstRoundCreates(env: KsmEnv, x: KsmRound, k: string)
    ensures var out := Reconciled(env, State([], map[]), x);
            && Good(env, ScopeOfOne(env, x), out.rows)
            && forall o | o in DesiredOf(env, x) && o.key == k :: At(out.rows, k) == Effect(env, x.planName, CreateChange(o), None)
  {
    hide ApplyRow, Effect, Legal, VerdictOn, Reconciled, Run, DesiredOf;
    var s, all := State([], map[]), ScopeOfOne(env, x);
    var ts := RoundTags(env, s, x);
    forall t | t in ts ensures Legal(env, all, t, None) && t.row.kind == Create {
      assert t == Tagged(t.key, t.row);
      VerdictOnEmpty(env, x, t.key);
    }
    CreatesLand(env, all, x.planName, s, ts, k);
    VerdictOnEmpty(env, x, k);
    TagOfVerdict(ts, k, VerdictOn(env, s, x, k));
  }

  lemma VerdictOnEmpty(env: KsmEnv, x: KsmRound, k: string)
    ensures var v := VerdictOn(env, State([], map[]), x, k);
            && (v.Some? ==> Legal(env, ScopeOfOne(env, x), Tagged(k, v.value), None) && v.value.kind == Create)
            && (forall o | o in DesiredOf(env, x) && o.key == k :: v == Some(CreateChange(o)))
  {
    hide Legal, Verdict, DesiredOf;
    var s, all := State([], map[]), ScopeOfOne(env, x);
    VerdictIsAt(env, all, s, x, k);
    AskedIsIndexed(env, x, k);
    DesiredAreIndexed(env, x);
    if VerdictOn(env, s, x, k).Some? { VerdictIsLegal(env, all, s, x, k); }
    forall o | o in DesiredOf(env, x) && o.key == k ensures VerdictOn(env, s, x, k) == Some(CreateChange(o)) { WithIs(all.objs, o); }
  }

  lemma CreatedRowIs(env: KsmEnv, name: string, o: Obj)
    ensures Effect(env, name, CreateChange(o), None)
         == Some(Stored(o.block, o.payload, env.stableUid(KsmSeed(name, ResourceOf(o.block), SortText(o)))))
  {
    ResourceTellsBlock(BlockOf(ResourceOf(o.block)).value, o.block);
  }

  /** Keeper uids come out distinct exactly when the manifest's uid_refs, synthetic ones
      included, are distinct in each block. */
  lemma KeeperUidsDistinctIff(env: KsmEnv, x: KsmRound)
    requires Injective(env.stableUid)
    ensures DistinctUids(Reconciled(env, State([], map[]), x).rows) <==> DistinctRefs(DesiredOf(env, x))
  {
    var desired, rows := DesiredOf(env, x), Reconciled(env, State([], map[]), x).rows;
    FirstRoundCreates(env, x, "");
    if DistinctRefs(desired) {
      assert Coherent(desired);
      OneNameSeedsTell(x.planName, desired);
      GoodStatesHaveDistinctUids(env, ScopeOfOne(env, x), rows);
    } else {
      var a, b :| a in desired && b in desired && a.block == b.block && SortText(a) == SortText(b) && a != b;
      FirstRoundCreates(env, x, a.key);
      FirstRoundCreates(env, x, b.key);
      CreatedRowIs(env, x.planName, a);
      CreatedRowIs(env, x.planName, b);
      DesiredAreIndexed(env, x);
      WithIs(desired, a);
      WithIs(desired, b);
      UidsClash(rows, a.key, b.key);
    }
  }

  lemma UidsClash(rows: seq<KsmRow>, k: string, l: string)
    requires At(rows, k).Some? && At(rows, l).Some? && k != l
    requires At(rows, k).value.block == At(rows, l).value.block && UidOfRow(At(rows, k).value) == UidOfRow(At(rows, l).value)
    ensures !DistinctUids(rows)
  {
    var i, j := Position(rows, ROW_KEY, k), Position(rows, ROW_KEY, l);
    if i < j { assert UidOfRow(rows[i]) == UidOfRow(rows[j]); } else { assert UidOfRow(rows[j]) == UidOfRow(rows[i]); }
  }
}
