/**
 * Decoded JSON documents, with the value kinds of section 3 of RFC 8259, and the
 * Python operations the scanner applies to them: `dict.get` with and without a
 * default, and iteration by a `for` loop.
 */
module Json {
  import opened Base

  /** A decoded JSON value. An object keeps its members in document order, duplicates included. */
  datatype Value =
    | Null
    | Bool(b: bool)
    | Number(literal: string)
    | Str(s: string)
    | Array(items: seq<Value>)
    | Object(members: seq<(string, Value)>)

  /** `json.load` of a file's text: `None` when the text is not a JSON document. */
  type Decoder = string -> Option<Value>

  /** `key` is bound somewhere among `members`. */
  predicate HasKey(members: seq<(string, Value)>, key: string) {
    exists i :: 0 <= i < |members| && members[i].0 == key
  }

  /** Position `i` holds the binding of `key` that the decoded Python dict keeps: the last one. */
  predicate IsLastBinding(members: seq<(string, Value)>, key: string, i: int) {
    && 0 <= i < |members|
    && members[i].0 == key
    && forall j :: i < j < |members| ==> members[j].0 != key
  }

  /** `d.get(key)` on the dict decoded from an object with these members. */
  function Get(members: seq<(string, Value)>, key: string): (r: Option<Value>)
    ensures r.None? <==> !HasKey(members, key)
    ensures r.Some? ==> exists i :: IsLastBinding(members, key, i)
    ensures forall i :: IsLastBinding(members, key, i) ==> r == Some(members[i].1)
  {
    if |members| == 0 then None
    else if members[|members| - 1].0 == key then
      assert IsLastBinding(members, key, |members| - 1);
      Some(members[|members| - 1].1)
    else
      var prefix := members[..|members| - 1];
      assert forall i :: IsLastBinding(members, key, i) ==> IsLastBinding(prefix, key, i);
      assert forall i :: IsLastBinding(prefix, key, i) ==> IsLastBinding(members, key, i);
      Get(prefix, key)
  }

  /** `d.get(key, default)`: the default is used only when the key is absent; a present value, `null` included, passes through. */
  function GetOr(members: seq<(string, Value)>, key: string, default: Value): (r: Value)
    ensures !HasKey(members, key) ==> r == default
    ensures forall i :: IsLastBinding(members, key, i) ==> r == members[i].1
  {
    match Get(members, key)
    case Some(v) => v
    case None => default
  }

  /**
   * The elements a Python `for` loop visits over a decoded value: a list's items,
   * a string's one-character strings, a dict's keys. `None` where iteration raises
   * a TypeError (numbers, booleans, `null`). A dict built from duplicate keys visits
   * each key once; here every member is visited, which can only differ for a
   * non-empty object, whose first visited element is a string either way.
   */
  function Iterate(v: Value): (r: Option<seq<Value>>)
    ensures r.Some? <==> v.Array? || v.Str? || v.Object?
    ensures v.Array? ==> r == Some(v.items)
    ensures v.Str? ==> r.Some? && |r.value| == |v.s|
    ensures v.Str? ==> forall i :: 0 <= i < |v.s| ==> r.value[i] == Str([v.s[i]])
    ensures v.Object? ==> r.Some? && |r.value| == |v.members|
    ensures v.Object? ==> forall i :: 0 <= i < |v.members| ==> r.value[i] == Str(v.members[i].0)
    ensures r.Some? && !v.Array? ==> forall i :: 0 <= i < |r.value| ==> r.value[i].Str?
  {
    match v
    case Array(items) => Some(items)
    case Str(s) => Some(seq(|s|, i requires 0 <= i < |s| => Str([s[i]])))
    case Object(m) => Some(seq(|m|, i requires 0 <= i < |m| => Str(m[i].0)))
    case _ => None
  }
}
