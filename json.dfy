/**
 * Parsed JSON values as Python's `json.loads` produces them, with the few
 * dictionary operations the workflow nodes use (`in`, `.get`, item
 * assignment, iteration) and Python's truthiness.
 *
 * An object keeps its entries in insertion order, as a Python dict does;
 * keys are expected to be distinct and `Get` reads the first entry with the key.
 */
module Json {
  import opened Wrappers

  datatype Json =
    | JNull
    | JBool(b: bool)
    | JInt(i: int)       // a JSON number without fraction or exponent: a Python `int`
    | JNum(n: real)      // any other JSON number: a Python `float`
    | JStr(s: string)
    | JArr(items: seq<Json>)
    | JObj(entries: seq<(string, Json)>)

  /** The parser `json.loads`, kept abstract: `None` stands for a `JSONDecodeError`. */
  type Parser = string -> Option<Json>

  /** Python truthiness: `None`, `False`, `0`, and empty strings, lists and dicts are falsy. */
  predicate Truthy(j: Json) {
    match j
    case JNull => false
    case JBool(b) => b
    case JInt(i) => i != 0
    case JNum(n) => n != 0.0
    case JStr(s) => s != []
    case JArr(items) => items != []
    case JObj(entries) => entries != []
  }

  /** `key in d` for a dict `d`. */
  predicate HasKey(entries: seq<(string, Json)>, key: string) {
    exists i :: 0 <= i < |entries| && entries[i].0 == key
  }

  /** `d.get(key)` for a dict `d`: the value of the first entry with `key`. */
  function Lookup(entries: seq<(string, Json)>, key: string): Option<Json> {
    if entries == [] then None
    else if entries[0].0 == key then Some(entries[0].1)
    else Lookup(entries[1..], key)
  }

  /** A key is found exactly when the dict has it, and what is found is an entry of the dict. */
  lemma {:induction false} LookupFound(entries: seq<(string, Json)>, key: string)
    ensures Lookup(entries, key).Some? <==> HasKey(entries, key)
    ensures Lookup(entries, key).Some? ==> exists i :: 0 <= i < |entries| && entries[i] == (key, Lookup(entries, key).value)
  {
    if entries != [] && entries[0].0 != key {
      var rest := entries[1..];
      LookupFound(rest, key);
      if Lookup(rest, key).Some? {
        var i :| 0 <= i < |rest| && rest[i] == (key, Lookup(rest, key).value);
        assert entries[i + 1] == rest[i];
      }
      if HasKey(entries, key) {
        var i :| 0 <= i < |entries| && entries[i].0 == key;
        assert rest[i - 1].0 == key;
      }
    } else if entries != [] {
      assert entries[0] == (key, Lookup(entries, key).value);
    }
  }

  /** `d.get(key, default)` when `j` is known to be a dict. */
  function GetOr(entries: seq<(string, Json)>, key: string, default: Json): Json {
    Lookup(entries, key).GetOr(default)
  }

  /**
   * `j.get(key, default)` for an arbitrary value: only a dict has `.get`;
   * on anything else Python raises `AttributeError`, modelled as `None`.
   */
  function Get(j: Json, key: string, default: Json): (r: Option<Json>)
    ensures r.Some? <==> j.JObj?
  {
    if j.JObj? then Some(GetOr(j.entries, key, default)) else None
  }

  /**
   * On a dict, `.get` reads the value of an entry with the key when there is
   * one, and the default otherwise.
   */
  lemma GetReads(j: Json, key: string, default: Json)
    requires j.JObj?
    ensures HasKey(j.entries, key) ==>
      exists i :: 0 <= i < |j.entries| && j.entries[i] == (key, Get(j, key, default).value)
    ensures !HasKey(j.entries, key) ==> Get(j, key, default) == Some(default)
  {
    LookupFound(j.entries, key);
  }

  /** The keys of a dict, in order. */
  function Keys(entries: seq<(string, Json)>): (r: seq<string>)
    ensures |r| == |entries|
    ensures forall i :: 0 <= i < |r| ==> r[i] == entries[i].0
  {
    if entries == [] then [] else [entries[0].0] + Keys(entries[1..])
  }

  /** `d[key] = value`: overwrite the entry in place if present, otherwise append. */
  function SetKey(entries: seq<(string, Json)>, key: string, value: Json): seq<(string, Json)> {
    if entries == [] then [(key, value)]
    else if entries[0].0 == key then [(key, value)] + entries[1..]
    else [entries[0]] + SetKey(entries[1..], key, value)
  }

  /** After `d[key] = value`, `key` reads `value`. */
  lemma {:induction false} SetKeyReads(entries: seq<(string, Json)>, key: string, value: Json)
    ensures Lookup(SetKey(entries, key, value), key) == Some(value)
  {
    if entries != [] && entries[0].0 != key {
      SetKeyReads(entries[1..], key, value);
      assert SetKey(entries, key, value)[1..] == SetKey(entries[1..], key, value);
    }
  }

  /** After `d[key] = value`, every other key reads as before. */
  lemma {:induction false} SetKeyKeeps(entries: seq<(string, Json)>, key: string, value: Json, k: string)
    requires k != key
    ensures Lookup(SetKey(entries, key, value), k) == Lookup(entries, k)
  {
    if entries != [] {
      var r := SetKey(entries, key, value);
      if entries[0].0 == key {
        assert r[1..] == entries[1..];
      } else {
        SetKeyKeeps(entries[1..], key, value, k);
        assert r[1..] == SetKey(entries[1..], key, value);
      }
    }
  }

  /** An existing key keeps its place; a new key is appended. */
  lemma {:induction false} SetKeyShape(entries: seq<(string, Json)>, key: string, value: Json)
    ensures HasKey(entries, key) ==> |SetKey(entries, key, value)| == |entries|
    ensures !HasKey(entries, key) ==> SetKey(entries, key, value) == entries + [(key, value)]
  {
    if entries != [] && entries[0].0 != key {
      var rest := entries[1..];
      SetKeyShape(rest, key, value);
      if HasKey(entries, key) {
        var i :| 0 <= i < |entries| && entries[i].0 == key;
        assert rest[i - 1].0 == key;
      } else {
        assert forall i :: 0 <= i < |rest| ==> rest[i] == entries[i + 1];
        assert entries == [entries[0]] + rest;
      }
    } else if entries != [] {
      assert entries[0].0 == key;
    }
  }

  /**
   * `x[0]`: the first item of a non-empty list or the first character of a
   * non-empty string. An empty one raises `IndexError`, a dict `KeyError`
   * (its keys are strings), anything else `TypeError`; all are `None`.
   */
  function First(j: Json): (r: Option<Json>)
    ensures r.Some? <==> (j.JArr? && j.items != []) || (j.JStr? && j.s != [])
  {
    match j
    case JArr(items) => if items != [] then Some(items[0]) else None
    case JStr(s) => if s != [] then Some(JStr([s[0]])) else None
    case _ => None
  }

  /**
   * The elements a Python `for` loop visits: a list's items, a dict's keys, a
   * string's characters; iterating over `None`, a number or a bool raises
   * `TypeError`, modelled as `None`.
   */
  function Iterate(j: Json): (r: Option<seq<Json>>)
    ensures j.JArr? ==> r == Some(j.items)
    ensures r.None? <==> (j.JNull? || j.JBool? || j.JInt? || j.JNum?)
  {
    match j
    case JArr(items) => Some(items)
    case JObj(entries) => Some(seq(|entries|, i requires 0 <= i < |entries| => JStr(entries[i].0)))
    case JStr(s) => Some(seq(|s|, i requires 0 <= i < |s| => JStr([s[i]])))
    case _ => None
  }

  /**
   * `x[0]` of a list or a string is the first element a `for` loop over it
   * visits, and it raises exactly when the loop visits nothing.
   */
  lemma FirstIsFirstVisited(j: Json)
    requires j.JArr? || j.JStr?
    ensures Iterate(j).Some?
    ensures First(j).Some? <==> Iterate(j).value != []
    ensures First(j).Some? ==> First(j).value == Iterate(j).value[0]
  {
  }

  /**
   * A `for` loop over a dict visits its keys in order, so a string is
   * visited exactly when it is a key; over a string it visits the
   * characters, each as a one-character string.
   */
  lemma IterateVisits(j: Json)
    ensures j.JObj? ==> Iterate(j).Some? && |Iterate(j).value| == |j.entries|
    ensures j.JObj? ==> forall i :: 0 <= i < |j.entries| ==> Iterate(j).value[i] == JStr(Keys(j.entries)[i])
    ensures j.JObj? ==> forall k :: JStr(k) in Iterate(j).value <==> HasKey(j.entries, k)
    ensures j.JStr? ==> Iterate(j).Some? && |Iterate(j).value| == |j.s|
    ensures j.JStr? ==> forall i :: 0 <= i < |j.s| ==> Iterate(j).value[i] == JStr([j.s[i]])
  {
    if j.JObj? {
      var v := Iterate(j).value;
      forall k ensures JStr(k) in v <==> HasKey(j.entries, k) {
        if JStr(k) in v {
          var i :| 0 <= i < |v| && v[i] == JStr(k);
          assert j.entries[i].0 == k;
        }
        if HasKey(j.entries, k) {
          var i :| 0 <= i < |j.entries| && j.entries[i].0 == k;
          assert v[i] == JStr(k);
        }
      }
    }
  }
}
