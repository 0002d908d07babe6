/** Nested JSON payloads as agents/candidates.py sees them: the search for a key, and the text
    that the safety patterns are matched against. */
module Payloads {
  import opened Wrappers

  datatype Entry = Entry(key: string, value: Value)

  /** `Opaque` stands for numbers that are not integers. */
  datatype Value =
    | Null | Bool(b: bool) | Int(n: int) | Opaque(text: string) | Str(s: string)
    | List(items: seq<Value>) | Dict(entries: seq<Entry>)

  function ChildCount(v: Value): nat {
    match v
    case List(items) => |items|
    case Dict(entries) => |entries|
    case _ => 0
  }

  function Child(v: Value, i: nat): (c: Value)
    requires i < ChildCount(v)
    ensures c < v
  {
    match v
    case List(items) => items[i]
    case Dict(entries) => entries[i].value
    case _ => v
  }

  predicate HasKey(entries: seq<Entry>, key: string) {
    exists i :: 0 <= i < |entries| && entries[i].key == key
  }

  function Lookup(entries: seq<Entry>, key: string): Option<Value> {
    if entries == [] then None
    else if entries[0].key == key then Some(entries[0].value)
    else Lookup(entries[1..], key)
  }

  lemma {:induction false} LookupFinds(entries: seq<Entry>, key: string)
    ensures Lookup(entries, key).Some? <==> HasKey(entries, key)
    ensures HasKey(entries, key)
            ==> exists i :: 0 <= i < |entries| && entries[i] == Entry(key, Lookup(entries, key).value)
  {
    if entries != [] && entries[0].key != key {
      LookupFinds(entries[1..], key);
      if HasKey(entries, key) {
        var i :| 0 <= i < |entries| && entries[i].key == key;
        assert entries[1..][i - 1].key == key;
      }
    }
  }

  /** `dict.get`: a missing key reads as None. */
  function Get(entries: seq<Entry>, key: string): Value {
    var found := Lookup(entries, key);
    if found.Some? then found.value else Null
  }

  // ----- Nested search -----

  /** `visit` of `_find_nested_value`; None is its sentinel. */
  function Visit(v: Value, key: string): Option<Value>
    decreases v, ChildCount(v) + 1
  {
    if v.Dict? && Lookup(v.entries, key).Some? then Lookup(v.entries, key) else VisitChildren(v, 0, key)
  }

  function VisitChildren(v: Value, from: nat, key: string): Option<Value>
    requires from <= ChildCount(v)
    decreases v, ChildCount(v) - from
  {
    if from == ChildCount(v) then None
    else
      var found := Visit(Child(v, from), key);
      if found.Some? then found else VisitChildren(v, from + 1, key)
  }

  function FindNestedValue(v: Value, key: string, default: Value): Value {
    var found := Visit(v, key);
    if found.Some? then found.value else default
  }

  /** All dictionaries of a payload, outer before inner, in reading order. */
  function PreOrder(v: Value): seq<seq<Entry>>
    decreases v, ChildCount(v) + 1
  {
    (if v.Dict? then [v.entries] else []) + PreOrderChildren(v, 0)
  }

  function PreOrderChildren(v: Value, from: nat): seq<seq<Entry>>
    requires from <= ChildCount(v)
    decreases v, ChildCount(v) - from
  {
    if from == ChildCount(v) then [] else PreOrder(Child(v, from)) + PreOrderChildren(v, from + 1)
  }

  /** `k` is the first dictionary of the list that holds the key. */
  predicate FirstHolder(dicts: seq<seq<Entry>>, key: string, k: nat) {
    k < |dicts| && HasKey(dicts[k], key) && forall j :: 0 <= j < k ==> !HasKey(dicts[j], key)
  }

  ghost predicate FoundFirst(dicts: seq<seq<Entry>>, key: string, found: Option<Value>) {
    match found
    case None => forall k :: 0 <= k < |dicts| ==> !HasKey(dicts[k], key)
    case Some(_) => exists k: nat :: FirstHolder(dicts, key, k) && found == Lookup(dicts[k], key)
  }

  lemma FoundFirstJoins(a: seq<seq<Entry>>, b: seq<seq<Entry>>, key: string, inA: Option<Value>, inB: Option<Value>)
    requires FoundFirst(a, key, inA) && FoundFirst(b, key, inB)
    ensures FoundFirst(a + b, key, if inA.Some? then inA else inB)
  {
    if inA.Some? {
      var k: nat :| FirstHolder(a, key, k) && inA == Lookup(a[k], key);
      assert FirstHolder(a + b, key, k);
    } else if inB.Some? {
      var k: nat :| FirstHolder(b, key, k) && inB == Lookup(b[k], key);
      assert FirstHolder(a + b, key, |a| + k);
    }
  }

  /** The search returns what the first dictionary in pre-order that holds the key has under
      it, and nothing exactly when no dictionary holds the key. */
  lemma {:induction false} VisitFindsFirst(v: Value, key: string)
    ensures FoundFirst(PreOrder(v), key, Visit(v, key))
    decreases v, ChildCount(v) + 1
  {
    VisitChildrenFindsFirst(v, 0, key);
    if v.Dict? {
      LookupFinds(v.entries, key);
      var here := Lookup(v.entries, key);
      assert FoundFirst([v.entries], key, here) by {
        if here.Some? {
          assert FirstHolder([v.entries], key, 0);
        }
      }
      FoundFirstJoins([v.entries], PreOrderChildren(v, 0), key, here, VisitChildren(v, 0, key));
    } else {
      assert [] + PreOrderChildren(v, 0) == PreOrderChildren(v, 0);
    }
  }

  lemma {:induction false} VisitChildrenFindsFirst(v: Value, from: nat, key: string)
    requires from <= ChildCount(v)
    ensures FoundFirst(PreOrderChildren(v, from), key, VisitChildren(v, from, key))
    decreases v, ChildCount(v) - from
  {
    if from < ChildCount(v) {
      VisitFindsFirst(Child(v, from), key);
      VisitChildrenFindsFirst(v, from + 1, key);
      FoundFirstJoins(PreOrder(Child(v, from)), PreOrderChildren(v, from + 1), key,
                      Visit(Child(v, from), key), VisitChildren(v, from + 1, key));
    }
  }

  // ----- Flattened text -----

  /** Every key and every leaf but None, in reading order; `show` is Python's `str`. */
  function Parts(v: Value, show: Value -> string): seq<string>
    decreases v, ChildCount(v) + 1
  {
    if v.Dict? || v.List? then PartsOfChildren(v, 0, show)
    else if v.Null? then []
    else if v.Str? then [v.s]
    else [show(v)]
  }

  function PartsOfChildren(v: Value, from: nat, show: Value -> string): seq<string>
    requires from <= ChildCount(v)
    decreases v, ChildCount(v) - from
  {
    if from == ChildCount(v) then []
    else
      (if v.Dict? then [v.entries[from].key] else []) + Parts(Child(v, from), show) + PartsOfChildren(v, from + 1, show)
  }

  /** The closure `visit` of `_flatten_text`, which appends to the list it is given. */
  method FlattenInto(v: Value, show: Value -> string, parts: seq<string>) returns (all: seq<string>)
    ensures all == parts + Parts(v, show)
    decreases v
  {
    all := parts;
    if v.Dict? || v.List? {
      for i := 0 to ChildCount(v)
        invariant all + PartsOfChildren(v, i, show) == parts + Parts(v, show)
      {
        ghost var before := all;
        if v.Dict? {
          all := all + [v.entries[i].key];
        }
        all := FlattenInto(Child(v, i), show, all);
        assert all == before + ((if v.Dict? then [v.entries[i].key] else []) + Parts(Child(v, i), show));
      }
    } else if v.Str? {
      all := all + [v.s];
    } else if !v.Null? {
      all := all + [show(v)];
    }
  }

  /** Nothing is out of the patterns' sight: every key of every nested dictionary is a part. */
  lemma {:induction false} EveryKeyIsAPart(v: Value, show: Value -> string, entries: seq<Entry>, i: nat)
    requires entries in PreOrder(v) && i < |entries|
    ensures entries[i].key in Parts(v, show)
    decreases v, ChildCount(v) + 1
  {
    if v.Dict? && entries == v.entries {
      KeysOfChildren(v, 0, show, i);
    } else {
      assert entries in PreOrderChildren(v, 0);
      NestedKeysOfChildren(v, 0, show, entries, i);
    }
  }

  lemma {:induction false} KeysOfChildren(v: Value, from: nat, show: Value -> string, i: nat)
    requires v.Dict? && from <= i < |v.entries|
    ensures v.entries[i].key in PartsOfChildren(v, from, show)
    decreases i - from
  {
    if from < i {
      KeysOfChildren(v, from + 1, show, i);
    }
  }

  lemma {:induction false} NestedKeysOfChildren(v: Value, from: nat, show: Value -> string, entries: seq<Entry>, i: nat)
    requires from <= ChildCount(v) && entries in PreOrderChildren(v, from) && i < |entries|
    ensures entries[i].key in PartsOfChildren(v, from, show)
    decreases v, ChildCount(v) - from
  {
    if entries in PreOrder(Child(v, from)) {
      EveryKeyIsAPart(Child(v, from), show, entries, i);
    } else {
      NestedKeysOfChildren(v, from + 1, show, entries, i);
    }
  }

  // ----- Leaves -----

  /** `leaf` is the value itself or somewhere inside it. */
  ghost predicate Within(leaf: Value, v: Value)
    decreases v
  {
    leaf == v || exists i: nat :: i < ChildCount(v) && Within(leaf, Child(v, i))
  }

  /** What the text shows of a leaf: nothing of None, a string itself, anything else as `str`. */
  function Shown(leaf: Value, show: Value -> string): string {
    if leaf.Str? then leaf.s else show(leaf)
  }

  /** Every leaf but None, however deep, is in the scanned text as well. */
  lemma {:induction false} EveryLeafIsAPart(leaf: Value, v: Value, show: Value -> string)
    requires Within(leaf, v) && !leaf.Dict? && !leaf.List? && !leaf.Null?
    ensures Shown(leaf, show) in Parts(v, show)
    decreases v
  {
    if leaf != v {
      var i: nat :| i < ChildCount(v) && Within(leaf, Child(v, i));
      EveryLeafIsAPart(leaf, Child(v, i), show);
      ChildPartsArePresent(v, 0, i, show, Shown(leaf, show));
    }
  }

  lemma {:induction false} ChildPartsArePresent(v: Value, from: nat, i: nat, show: Value -> string, part: string)
    requires from <= i < ChildCount(v) && part in Parts(Child(v, i), show)
    ensures part in PartsOfChildren(v, from, show)
    decreases i - from
  {
    if from < i {
      ChildPartsArePresent(v, from + 1, i, show, part);
    }
  }
}
