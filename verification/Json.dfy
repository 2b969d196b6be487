/** JSON-like values as the declarative core passes them around: the payloads of
    manifests, live records and bus messages.  A Python dict is a `map`; reading a
    missing key with `dict.get` gives `JNull`, so "absent" and "present but None"
    differ only in `k in d`. */
module Json {

  datatype Option<+T> = None | Some(value: T)

  datatype Json =
    | JNull
    | JBool(b: bool)
    | JNum(n: int)
    | JStr(s: string)
    | JList(items: seq<Json>)
    | JObj(fields: Dict)

  type Dict = map<string, Json>

  /** `d.get(k)` */
  function Get(d: Dict, k: string): Json {
    if k in d then d[k] else JNull
  }

  /** `v if isinstance(v, dict) else {}` */
  function DictOrEmpty(v: Json): Dict {
    if v.JObj? then v.fields else map[]
  }

  /** Python truth of a value. */
  predicate Truthy(v: Json) {
    match v
    case JNull => false
    case JBool(b) => b
    case JNum(n) => n != 0
    case JStr(s) => s != ""
    case JList(xs) => xs != []
    case JObj(m) => m != map[]
  }

  /** A text field, empty when there is no text. */
  function TextField(d: Dict, k: string): string {
    match Get(d, k)
    case JStr(s) => s
    case _ => ""
  }

  /** The dicts among the items of a list. */
  function Dicts(items: seq<Json>): seq<Dict> {
    if items == [] then []
    else (if items[0].JObj? then [items[0].fields] else []) + Dicts(items[1..])
  }

  /** A field is the same in both dicts, absent or present. */
  predicate SameAt(p: Dict, q: Dict, k: string) {
    (k in p <==> k in q) && (k in p ==> p[k] == q[k])
  }

  lemma {:induction false} DictsAre(items: seq<Json>, d: Dict)
    ensures d in Dicts(items) <==> JObj(d) in items
  {
    if items != [] {
      DictsAre(items[1..], d);
      assert items == [items[0]] + items[1..];
    }
  }
}
