/** The value normaliser of the KSM diff (keeper_sdk/core/ksm_diff.py): lists are sorted at
    every level by a text key, dicts are rebuilt, scalars pass. */
module KsmNormalise {
  import opened Json
  import opened Sorting

  /** `str(x)` and `json.dumps(x, sort_keys=True)` */
  datatype Kit = Kit(str: Json -> string, dumps: Json -> string)

  ghost predicate TextIsItself(kit: Kit) {
    forall s :: kit.str(JStr(s)) == s
  }

  predicate Container(v: Json) {
    v.JList? || v.JObj?
  }

  function StrKey(kit: Kit): Json -> Key {
    (v: Json) => Key(0, 0, kit.str(v))
  }

  function DumpKey(kit: Kit): Json -> Key {
    (v: Json) => Key(0, 0, kit.dumps(v))
  }

  function SortValues(kit: Kit, vs: seq<Json>): seq<Json> {
    if forall v | v in vs :: !Container(v) then SortBy(vs, StrKey(kit)) else SortBy(vs, DumpKey(kit))
  }

  /** `_normalise_value` */
  function Norm(kit: Kit, v: Json): Json
    decreases v, 1
  {
    match v
    case JList(xs) => JList(SortValues(kit, NormAll(kit, xs)))
    case JObj(m) => JObj(map k | k in m :: Norm(kit, m[k]))
    case _ => v
  }

  function NormAll(kit: Kit, xs: seq<Json>): (out: seq<Json>)
    ensures |out| == |xs|
    ensures forall i | 0 <= i < |xs| :: out[i] == Norm(kit, xs[i])
    decreases xs, 0
  {
    if xs == [] then [] else [Norm(kit, xs[0])] + NormAll(kit, xs[1..])
  }

  lemma SortValuesMembers(kit: Kit, vs: seq<Json>)
    ensures forall v :: v in SortValues(kit, vs) <==> v in vs
  {
    SortKeepsMembers(vs, StrKey(kit));
    SortKeepsMembers(vs, DumpKey(kit));
  }

  lemma SortValuesIdempotent(kit: Kit, vs: seq<Json>)
    ensures SortValues(kit, SortValues(kit, vs)) == SortValues(kit, vs)
  {
    SortValuesMembers(kit, vs);
    SortSorts(vs, StrKey(kit));
    SortSorts(vs, DumpKey(kit));
    SortOfSorted(SortBy(vs, StrKey(kit)), StrKey(kit));
    SortOfSorted(SortBy(vs, DumpKey(kit)), DumpKey(kit));
  }

  /** Normalising twice is normalising once, on every nested value. */
  lemma {:induction false} NormIdempotent(kit: Kit, v: Json)
    ensures Norm(kit, Norm(kit, v)) == Norm(kit, v)
    decreases v
  {
    match v {
      case JList(xs) =>
        var ys := NormAll(kit, xs);
        var zs := SortValues(kit, ys);
        SortValuesMembers(kit, ys);
        forall i | 0 <= i < |zs| ensures Norm(kit, zs[i]) == zs[i] {
          assert zs[i] in zs;
          var j :| 0 <= j < |ys| && ys[j] == zs[i];
          NormIdempotent(kit, xs[j]);
        }
        assert NormAll(kit, zs) == zs;
        SortValuesIdempotent(kit, ys);
      case JObj(m) =>
        forall k | k in m { NormIdempotent(kit, m[k]); }
      case _ =>
    }
  }

  lemma ScalarsPass(kit: Kit, xs: seq<Json>)
    requires forall x | x in xs :: !Container(x)
    ensures NormAll(kit, xs) == xs
  {
    forall i | 0 <= i < |xs| ensures NormAll(kit, xs)[i] == xs[i] {
      assert xs[i] in xs;
    }
  }

  lemma NormOfScalars(kit: Kit, xs: seq<Json>)
    requires forall x | x in xs :: !Container(x)
    ensures Norm(kit, JList(xs)) == JList(SortBy(xs, StrKey(kit)))
  {
    ScalarsPass(kit, xs);
  }

  /** Lists of scalars normalise alike exactly when, text by text, they hold the same
      values in the same order. */
  lemma ScalarListsAgreeIff(kit: Kit, xs: seq<Json>, ys: seq<Json>)
    requires (forall x | x in xs :: !Container(x)) && (forall y | y in ys :: !Container(y))
    ensures Norm(kit, JList(xs)) == Norm(kit, JList(ys)) <==> GroupsAgree(xs, ys, StrKey(kit))
  {
    NormOfScalars(kit, xs);
    NormOfScalars(kit, ys);
    SortsAlikeIffGroupsAgree(xs, ys, StrKey(kit));
  }

  function Texts(ss: seq<string>): seq<Json> {
    seq(|ss|, i requires 0 <= i < |ss| => JStr(ss[i]))
  }

  lemma {:induction false} TextsMultiset(ss: seq<string>, s: string)
    ensures multiset(Texts(ss))[JStr(s)] == multiset(ss)[s]
  {
    if ss != [] {
      TextsMultiset(ss[1..], s);
      assert Texts(ss) == [JStr(ss[0])] + Texts(ss[1..]);
      assert ss == [ss[0]] + ss[1..];
    }
  }

  lemma TextsAgree(a: seq<string>, b: seq<string>)
    ensures multiset(Texts(a)) == multiset(Texts(b)) <==> multiset(a) == multiset(b)
  {
    var xs, ys := Texts(a), Texts(b);
    if multiset(a) == multiset(b) {
      forall v: Json ensures multiset(xs)[v] == multiset(ys)[v] {
        if v.JStr? { TextsMultiset(a, v.s); TextsMultiset(b, v.s); }
        else { assert v !in xs && v !in ys; }
      }
    }
    if multiset(xs) == multiset(ys) {
      forall s ensures multiset(a)[s] == multiset(b)[s] { TextsMultiset(a, s); TextsMultiset(b, s); }
    }
  }

  lemma TextsAreTexts(kit: Kit, a: seq<string>)
    requires TextIsItself(kit)
    ensures forall v | v in Texts(a) :: !Container(v)
    ensures forall v, w | v in Texts(a) && w in Texts(a) && StrKey(kit)(v) == StrKey(kit)(w) :: v == w
  {
    assert forall v | v in Texts(a) :: v.JStr? && kit.str(v) == v.s;
  }

  lemma TextsSortAlike(kit: Kit, a: seq<string>, b: seq<string>)
    requires TextIsItself(kit)
    ensures SortBy(Texts(a), StrKey(kit)) == SortBy(Texts(b), StrKey(kit)) <==> multiset(a) == multiset(b)
  {
    var xs, ys, key := Texts(a), Texts(b), StrKey(kit);
    TextsAgree(a, b);
    SortIsPermutation(xs, key);
    SortIsPermutation(ys, key);
    if multiset(xs) == multiset(ys) {
      TextsAreTexts(kit, a);
      PermutationsSortAlike(xs, ys, key);
    }
  }

  /** String lists are identified exactly when they are permutations of each other. */
  lemma StringListsAgreeIff(kit: Kit, a: seq<string>, b: seq<string>)
    requires TextIsItself(kit)
    ensures Norm(kit, JList(Texts(a))) == Norm(kit, JList(Texts(b))) <==> multiset(a) == multiset(b)
  {
    TextsAreTexts(kit, a);
    TextsAreTexts(kit, b);
    NormOfScalars(kit, Texts(a));
    NormOfScalars(kit, Texts(b));
    TextsSortAlike(kit, a, b);
  }

  /** Of mixed scalars that is not true: a number and its text share a key, and the stable
      sort keeps their order. */
  lemma MixedScalarsDisagree(kit: Kit)
    requires TextIsItself(kit) && kit.str(JNum(1)) == "1"
    ensures var xs, ys := [JNum(1), JStr("1")], [JStr("1"), JNum(1)];
            multiset(xs) == multiset(ys) && Norm(kit, JList(xs)) != Norm(kit, JList(ys))
  {
    var xs, ys := [JNum(1), JStr("1")], [JStr("1"), JNum(1)];
    assert kit.str(JStr("1")) == "1";
    var k, key := Key(0, 0, "1"), StrKey(kit);
    assert xs[1..] == [JStr("1")] && ys[1..] == [JNum(1)];
    assert xs[1..][1..] == [] && ys[1..][1..] == [];
    assert Group(xs, key, k) == [JNum(1)] + ([JStr("1")] + []);
    assert Group(ys, key, k) == [JStr("1")] + ([JNum(1)] + []);
    assert Group(xs, key, k)[0] != Group(ys, key, k)[0];
    ScalarListsAgreeIff(kit, xs, ys);
  }

  // --------------------------------------------------------------------- payloads

  const KEEPER_UID := "keeper_uid"

  /** `_normalise_payload` */
  function NormPayload(kit: Kit, d: Dict): Dict {
    map k | k in d && d[k] != JNull && k != KEEPER_UID :: Norm(kit, d[k])
  }

  lemma NormPayloadIdempotent(kit: Kit, d: Dict)
    ensures NormPayload(kit, NormPayload(kit, d)) == NormPayload(kit, d)
  {
    forall k | k in d ensures Norm(kit, Norm(kit, d[k])) == Norm(kit, d[k]) { NormIdempotent(kit, d[k]); }
  }
}
