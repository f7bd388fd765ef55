/** The decoded API answer as Python sees it after `response.json()`:
    None, bool, int, str, list or dict (floats are not modelled). A dict is
    its items in insertion order; a dict the JSON decoder builds never holds
    a key twice, so looking a key up finds its first entry. */
module Payload {
  import opened Wrappers
  import PyText

  datatype Json =
    | JNull
    | JBool(b: bool)
    | JInt(i: int)
    | JStr(s: string)
    | JList(items: seq<Json>)
    | JDict(entries: seq<(string, Json)>)

  /** `d[key]` on a dict's items: the value, or None for a KeyError. */
  function Find(entries: seq<(string, Json)>, key: string): (r: Option<Json>)
    ensures r.None? <==> forall k :: 0 <= k < |entries| ==> entries[k].0 != key
    ensures r.Some? ==> exists k :: 0 <= k < |entries| && entries[k] == (key, r.value)
  {
    if |entries| == 0 then None
    else if entries[0].0 == key then Some(entries[0].1)
    else Find(entries[1..], key)
  }

  /** Python's class name of the value, as `type(v).__name__` gives it. */
  function TypeName(j: Json): (r: string)
  {
    match j
    case JNull => "NoneType"
    case JBool(_) => "bool"
    case JInt(_) => "int"
    case JStr(_) => "str"
    case JList(_) => "list"
    case JDict(_) => "dict"
  }

  /** `repr(v)`. */
  function Repr(j: Json): (r: string)
  {
    match j
    case JNull => "None"
    case JBool(b) => if b then "True" else "False"
    case JInt(i) => PyText.IntText(i)
    case JStr(s) => PyText.QuoteRepr(s)
    case JList(items) =>
      "[" + PyText.Join(", ", seq(|items|, k requires 0 <= k < |items| => Repr(items[k]))) + "]"
    case JDict(es) =>
      "{" + PyText.Join(", ", seq(|es|, k requires 0 <= k < |es| =>
        PyText.QuoteRepr(es[k].0) + ": " + Repr(es[k].1))) + "}"
  }

  /** `str(v)`, which is what an f-string substitutes: the text itself for
      a str, the repr for everything else. */
  function Str(j: Json): (r: string)
  {
    if j.JStr? then j.s else Repr(j)
  }

  /** Whether `hash(v)` succeeds: lists and dicts are unhashable. */
  predicate Hashable(j: Json)
  {
    !j.JList? && !j.JDict?
  }
}
