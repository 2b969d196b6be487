/** The custom-field list of the KSM record that carries the bus
    (keeper_sdk/secrets/bus.py).  Fields are found by label, first match first; the
    list is edited in place.  Seen through `Lookup` it behaves as a map from labels to
    fields, which is what the protocol modules above rely on. */
module BusRecord {
  import opened Json

  const TEXT := "text"

  /** A custom-field entry; `Junk` stands for list members that are not dicts. */
  datatype Entry = Field(name: string, kind: string, values: seq<string>) | Junk

  predicate Labelled(e: Entry, key: string) {
    e.Field? && e.name == key
  }

  /** Position of the first field labelled `key`; the list length when there is none. */
  function FirstIndex(custom: seq<Entry>, key: string): (i: nat)
    ensures i <= |custom|
    ensures i < |custom| ==> Labelled(custom[i], key)
    ensures forall j | 0 <= j < i :: !Labelled(custom[j], key)
  {
    if custom == [] || Labelled(custom[0], key) then 0 else 1 + FirstIndex(custom[1..], key)
  }

  /** `_matching_custom_field` */
  function Lookup(custom: seq<Entry>, key: string): (e: Option<Entry>)
    ensures e.Some? ==> e.value in custom && Labelled(e.value, key)
    ensures e.None? <==> forall x | x in custom :: !Labelled(x, key)
  {
    var i := FirstIndex(custom, key);
    if i < |custom| then Some(custom[i]) else None
  }

  /** `_custom_field_value`: the first text of the first matching field. */
  function FieldText(custom: seq<Entry>, key: string): Option<string> {
    match Lookup(custom, key)
    case Some(f) => if f.values == [] then None else Some(f.values[0])
    case None => None
  }

  /** `_set_custom_text_field` */
  function SetField(custom: seq<Entry>, key: string, text: string): seq<Entry> {
    var i := FirstIndex(custom, key);
    if i < |custom| then custom[i := Field(key, TEXT, [text])]
    else custom + [Field(key, TEXT, [text])]
  }

  /** `_remove_custom_fields` */
  function RemoveFields(custom: seq<Entry>, labels: set<string>): seq<Entry> {
    if custom == [] then []
    else
      var rest := RemoveFields(custom[1..], labels);
      if custom[0].Field? && custom[0].name in labels then rest else [custom[0]] + rest
  }

  // ------------------------------------------------------------ the list is a map

  lemma FirstIndexUnique(custom: seq<Entry>, key: string, i: nat)
    requires i <= |custom|
    requires i < |custom| ==> Labelled(custom[i], key)
    requires forall j | 0 <= j < i :: !Labelled(custom[j], key)
    ensures FirstIndex(custom, key) == i
  {
  }

  /** Writing one label changes that label only. */
  lemma SetFieldIsMapUpdate(custom: seq<Entry>, key: string, text: string, other: string)
    ensures Lookup(SetField(custom, key, text), key) == Some(Field(key, TEXT, [text]))
    ensures other != key ==> Lookup(SetField(custom, key, text), other) == Lookup(custom, other)
  {
    var i := FirstIndex(custom, key);
    var out := SetField(custom, key, text);
    FirstIndexUnique(out, key, i);
    if other != key {
      var k := FirstIndex(custom, other);
      FirstIndexUnique(out, other, if k < |custom| then k else |out|);
    }
  }

  /** Removing labels removes exactly those; everything else stays, in order. */
  lemma {:induction false} RemoveFieldsIsMapRemoval(custom: seq<Entry>, labels: set<string>, key: string)
    ensures Lookup(RemoveFields(custom, labels), key)
         == if key in labels then None else Lookup(custom, key)
  {
    if custom != [] {
      RemoveFieldsIsMapRemoval(custom[1..], labels, key);
      var rest := RemoveFields(custom[1..], labels);
      if custom[0].Field? && custom[0].name in labels {
        assert key !in labels ==> FirstIndex(custom, key) == 1 + FirstIndex(custom[1..], key);
      } else {
        var out := [custom[0]] + rest;
        assert out[1..] == rest;
      }
    }
  }

  /** A list without the labels is left alone, so `len(kept) == len(custom)` means no change. */
  lemma {:induction false} RemoveFieldsLength(custom: seq<Entry>, labels: set<string>)
    ensures |RemoveFields(custom, labels)| <= |custom|
    ensures |RemoveFields(custom, labels)| == |custom| <==> RemoveFields(custom, labels) == custom
    ensures RemoveFields(custom, labels) == custom
       <==> forall e | e in custom :: !(e.Field? && e.name in labels)
  {
    if custom != [] {
      RemoveFieldsLength(custom[1..], labels);
      assert custom == [custom[0]] + custom[1..];
    }
  }

  /** The text of a label is the first value of the first field that has it. */
  lemma FieldTextIs(custom: seq<Entry>, key: string, text: string)
    ensures FieldText(custom, key) == Some(text)
       <==> exists i :: 0 <= i < |custom| && Labelled(custom[i], key) && (forall j | 0 <= j < i :: !Labelled(custom[j], key))
                        && custom[i].values != [] && custom[i].values[0] == text
  {
    var n := FirstIndex(custom, key);
    if i :| 0 <= i < |custom| && Labelled(custom[i], key) && (forall j | 0 <= j < i :: !Labelled(custom[j], key))
            && custom[i].values != [] && custom[i].values[0] == text {
      FirstIndexUnique(custom, key, i);
    }
  }

  /** The mutable record. */
  class Record {
    var custom: seq<Entry>

    constructor (initial: seq<Entry>)
      ensures custom == initial
    {
      custom := initial;
    }

    method Matching(key: string) returns (i: nat)
      ensures i == FirstIndex(custom, key)
    {
      i := 0;
      while i < |custom|
        invariant i <= |custom|
        invariant forall j | 0 <= j < i :: !Labelled(custom[j], key)
      {
        if Labelled(custom[i], key) {
          break;
        }
        i := i + 1;
      }
      FirstIndexUnique(custom, key, i);
    }

    method Value(key: string) returns (text: Option<string>)
      ensures text == FieldText(custom, key)
    {
      var i := Matching(key);
      if i == |custom| || custom[i].values == [] {
        return None;
      }
      return Some(custom[i].values[0]);
    }

    method Set(key: string, text: string)
      modifies this
      ensures custom == SetField(old(custom), key, text)
    {
      var i := Matching(key);
      if i == |custom| {
        custom := custom + [Field(key, TEXT, [text])];
      } else {
        custom := custom[i := Field(key, TEXT, [text])];
      }
    }

    method Remove(labels: set<string>) returns (changed: bool)
      modifies this
      ensures custom == RemoveFields(old(custom), labels)
      ensures changed <==> custom != old(custom)
    {
      var kept: seq<Entry> := [];
      var i := 0;
      while i < |custom|
        invariant i <= |custom| && custom == old(custom)
        invariant kept + RemoveFields(custom[i..], labels) == RemoveFields(custom, labels)
      {
        assert custom[i..][1..] == custom[i + 1..];
        if !(custom[i].Field? && custom[i].name in labels) {
          kept := kept + [custom[i]];
        }
        i := i + 1;
      }
      assert custom[i..] == [];
      RemoveFieldsLength(custom, labels);
      if |kept| == |custom| {
        return false;
      }
      custom := kept;
      return true;
    }
  }
}
