/** What the rows of a KSM diff mean (keeper_sdk/core/ksm_diff.py), said of the two
    payloads, and what a round leaves stored and marked (keeper_sdk/providers/mock.py). */
module KsmRows {
  import opened Json
  import opened Sorting
  import opened Plans
  import opened KsmNormalise
  import opened KsmDiff
  import opened KsmProvider

  // ------------------------------------------------------------------- normal payloads

  /** `w` is the normal form of `v`: dicts key by key, lists with their items normalised
      and sorted, by text when all are scalar and else by their dumps. */
  ghost predicate NormalOf(kit: Kit, v: Json, w: Json) {
    match v
    case JObj(d) => w.JObj? && w.fields.Keys == d.Keys && forall k | k in d :: w.fields[k] == Norm(kit, d[k])
    case JList(xs) =>
      && w.JList? && multiset(w.items) == multiset(seq(|xs|, i requires 0 <= i < |xs| => Norm(kit, xs[i])))
      && (if forall x | x in w.items :: !Container(x) then Sorted(w.items, StrKey(kit)) else Sorted(w.items, DumpKey(kit)))
    case _ => w == v
  }

  lemma NormIsNormal(kit: Kit, v: Json)
    ensures NormalOf(kit, v, Norm(kit, v))
  {
    if v.JList? {
      var ys := NormAll(kit, v.items);
      assert ys == seq(|v.items|, i requires 0 <= i < |v.items| => Norm(kit, v.items[i]));
      SortIsPermutation(ys, StrKey(kit));
      SortIsPermutation(ys, DumpKey(kit));
      SortSorts(ys, StrKey(kit));
      SortSorts(ys, DumpKey(kit));
      SortValuesMembers(kit, ys);
    }
  }

  /** The compared payload has what is set, but for the keeper uid, in normal form. */
  lemma PayloadIsNormal(kit: Kit, d: Dict, k: string)
    ensures var p := NormPayload(kit, d);
            && (k in p <==> k != "keeper_uid" && Get(d, k) != JNull)
            && (k in p ==> NormalOf(kit, d[k], p[k]) && p[k] != JNull)
  {
    if k in d { NormIsNormal(kit, d[k]); }
  }

  // ----------------------------------------------------------------------- the row kinds

  /** A field on which the two sides disagree; the uid_ref is not compared. */
  predicate Disagree(live: Dict, desired: Dict, k: string) {
    k != "uid_ref" && Get(live, k) != Get(desired, k)
  }

  predicate RowAbout(o: Obj, c: Change) {
    && c.uidRef == Some(o.uidRef) && c.title == o.title
    && c.resourceType == (match o.block case Apps => "ksm_app" case Tokens => "ksm_token"
                          case RecordShares => "ksm_record_share" case ConfigOutputs => "ksm_config_output")
  }

  /** A matched pair is an update exactly when some field disagrees, and the row holds
      exactly those fields, with the values of either side, an absent one as None. */
  lemma MatchedIffDisagree(o: Obj, l: Obj)
    ensures var c := MatchedChange(o, l);
            && RowAbout(o, c) && c.keeperUid == l.keeperUid
            && c.kind == (if exists k :: Disagree(l.payload, o.payload, k) then Update else Noop)
            && if c.kind == Update then
                 && (forall k :: k in c.before <==> Disagree(l.payload, o.payload, k)) && c.before.Keys == c.after.Keys
                 && forall k | k in c.before :: c.before[k] == Get(l.payload, k) && c.after[k] == Get(o.payload, k)
               else c.before == l.payload && c.after == o.payload
  {
    var drift := Drift(l.payload, o.payload);
    forall k ensures k in drift <==> Disagree(l.payload, o.payload, k) {}
  }

  /** The other rows: what only the manifest has is created with its payload, what only the
      provider has is deleted or skipped, and what it has twice is a conflict. */
  lemma UnmatchedRows(o: Obj, all: seq<Obj>, allowDelete: bool)
    ensures var c := CreateChange(o);
            RowAbout(o, c) && c.kind == Create && c.keeperUid == None && c.before == map[] && c.after == o.payload
    ensures var c := OrphanChange(o, allowDelete);
            && RowAbout(o, c) && c.kind == (if allowDelete then Delete else Skip)
            && c.keeperUid == o.keeperUid && c.before == o.payload && c.after == map[]
    ensures var c := DuplicateChange(o, |all|);
            && RowAbout(o, c) && c.kind == Conflict && c.keeperUid == None && c.after == map[]
            && c.before == map["uid_ref" := JStr(o.uidRef), "count" := JNum(|all|)]
  {}

  /** Which fields name an object. */
  lemma ObjectIs(kit: Kit, b: Block, row: Dict)
    ensures var o, text := ObjOf(kit, b, row), (k: string) => TextField(NormPayload(kit, row), k);
            && o.block == b && o.payload == NormPayload(kit, row)
            && o.keeperUid == (match Get(row, "keeper_uid") case JNull => None case JStr(u) => Some(u) case v => Some(kit.str(v)))
            && match b
               case RecordShares =>
                 && o.key == "record_shares:" + text("app_uid_ref") + "|" + text("record_uid_ref")
                 && o.uidRef == "share:" + text("app_uid_ref") + ":" + text("record_uid_ref")
                 && o.title == text("app_uid_ref") + " -> " + text("record_uid_ref")
               case ConfigOutputs =>
                 && o.key == "config_outputs:" + text("app_uid_ref") + "|" + text("output_path")
                 && o.uidRef == "config:" + text("app_uid_ref") + ":" + text("output_path") && o.title == text("output_path")
               case _ =>
                 && o.key == (if b == Apps then "apps:" else "tokens:") + text("uid_ref") && o.uidRef == text("uid_ref")
                 && o.title == if text("name") != "" then text("name") else text("uid_ref")
  {}

  // --------------------------------------------------------------------------- the order

  predicate EarlierType(a: string, b: string) {
    || (a == "ksm_app" && b != a) || (a == "ksm_token" && b !in {"ksm_app", a})
    || (a == "ksm_record_share" && b !in {"ksm_app", "ksm_token", a})
    || (a == "ksm_config_output" && b !in {"ksm_app", "ksm_token", "ksm_record_share", a})
  }

  function NameOf(c: Change): string {
    match c.uidRef
    case Some(u) => if u != "" then u else c.title
    case None => c.title
  }

  /** A diff lists creates, updates, noops, deletes or skips, and conflicts, each kind by
      type of object, and each type by reference. */
  lemma DiffIsOrdered(desired: seq<Obj>, live: seq<Obj>, allowDelete: bool, i: nat, j: nat)
    requires i < j < |Diff(desired, live, allowDelete)|
    ensures var a, b := Diff(desired, live, allowDelete)[i], Diff(desired, live, allowDelete)[j];
            && !Earlier(b.kind, a.kind)
            && (!Earlier(a.kind, b.kind) ==> !EarlierType(b.resourceType, a.resourceType))
            && (!Earlier(a.kind, b.kind) && !EarlierType(a.resourceType, b.resourceType) ==> StrLe(NameOf(a), NameOf(b)))
  {
    hide TaggedChanges;
    SortSorts(KeyedDiff.Untagged(TaggedChanges(desired, live, allowDelete)), SortKey);
  }
}
