/**
 A decoded JSON document, and the handful of dynamic operations the analyser
 applies to one: key membership (`in`), subscripting by a string key,
 `len` and upper-casing. Each operation fails exactly where the dynamic
 language raises, so that a caller can model "the whole file raised".
 */
module Json {
  import opened Wrappers

  /** A decoded JSON value. Objects keep their members in document order;
      a JSON decoder never produces two members with the same key. The
      analyser never inspects a number's or a boolean's value. */
  datatype Value =
    | Object(fields: seq<Field>)
    | Array(items: seq<Value>)
    | String(str: string)
    | Number
    | Bool(b: bool)
    | Null

  datatype Field = Field(key: string, value: Value)

  /** The runtime failures the analyser can run into on an ill-shaped value. */
  datatype Error =
    | NotIterable               // `in` or iteration over a number, boolean or null
    | NotSubscriptable          // `v["k"]` on an array, string, number, boolean or null
    | MissingKey(key: string)   // `v["k"]` on an object without member "k"
    | NotAString                // `.upper()` on something other than a string
    | NoLength                  // `len` of a number, boolean or null

  /** Position of the member named `key`; the last one wins, as in a
      decoder that lets a later duplicate override an earlier one. */
  function Find(fields: seq<Field>, key: string): (r: Option<nat>)
    ensures r.Some? ==> r.value < |fields| && fields[r.value].key == key
    ensures r.Some? ==> forall j :: r.value < j < |fields| ==> fields[j].key != key
    ensures r.None? <==> forall j :: 0 <= j < |fields| ==> fields[j].key != key
  {
    if |fields| == 0 then None
    else if fields[|fields| - 1].key == key then Some(|fields| - 1)
    else Find(fields[..|fields| - 1], key)
  }

  predicate HasKey(fields: seq<Field>, key: string) {
    Find(fields, key).Some?
  }

  function Get(fields: seq<Field>, key: string): Value
    requires HasKey(fields, key)
  {
    fields[Find(fields, key).value].value
  }

  /** The keys of an object, in member order. */
  function Keys(fields: seq<Field>): (r: seq<string>)
    ensures |r| == |fields|
    ensures forall i :: 0 <= i < |fields| ==> r[i] == fields[i].key
  {
    if |fields| == 0 then [] else Keys(fields[..|fields| - 1]) + [fields[|fields| - 1].key]
  }

  predicate IsPrefix(needle: string, hay: string) {
    |needle| <= |hay| && hay[..|needle|] == needle
  }

  /** Substring test, the meaning of `needle in hay` on two strings. */
  predicate IsSubstring(needle: string, hay: string)
    decreases |hay|
  {
    IsPrefix(needle, hay) || (|hay| > 0 && IsSubstring(needle, hay[1..]))
  }

  /** `needle in v`: key membership for an object, element equality for an
      array, substring for a string, and a failure for anything else. */
  function Contains(v: Value, needle: string): (r: Result<bool, Error>)
    ensures v.Object? ==> r == Success(HasKey(v.fields, needle))
    ensures v.Array? ==> r == Success(String(needle) in v.items)
    ensures v.String? ==> r == Success(IsSubstring(needle, v.str))
    ensures r.Failure? <==> v.Number? || v.Bool? || v.Null?
  {
    match v
    case Object(fields) => Success(HasKey(fields, needle))
    case Array(items) => Success(exists i :: 0 <= i < |items| && items[i] == String(needle))
    case String(s) => Success(IsSubstring(needle, s))
    case _ => Failure(NotIterable)
  }

  /** `v[key]`: only an object carrying member `key` can be subscripted
      by a string. */
  function Index(v: Value, key: string): (r: Result<Value, Error>)
    ensures r.Success? <==> v.Object? && HasKey(v.fields, key)
    ensures r.Success? ==> r.value == Get(v.fields, key)
    ensures v.Object? && !HasKey(v.fields, key) ==> r == Failure(MissingKey(key))
    ensures !v.Object? ==> r == Failure(NotSubscriptable)
  {
    match v
    case Object(fields) =>
      if HasKey(fields, key) then Success(Get(fields, key)) else Failure(MissingKey(key))
    case _ => Failure(NotSubscriptable)
  }

  /** `len(v)`: the number of members, elements or characters. */
  function Len(v: Value): (r: Result<nat, Error>)
    ensures v.Object? ==> r == Success(|v.fields|)
    ensures v.Array? ==> r == Success(|v.items|)
    ensures v.String? ==> r == Success(|v.str|)
    ensures r.Failure? <==> v.Number? || v.Bool? || v.Null?
  {
    match v
    case Object(fields) => Success(|fields|)
    case Array(items) => Success(|items|)
    case String(s) => Success(|s|)
    case _ => Failure(NoLength)
  }

  function UpperChar(c: char): char {
    if 'a' <= c <= 'z' then (c as int - 32) as char else c
  }

  /** Upper-casing of a string, letter by letter. */
  function UpperString(s: string): (r: string)
    ensures |r| == |s|
    ensures forall i :: 0 <= i < |s| ==> r[i] == UpperChar(s[i])
    ensures forall i :: 0 <= i < |s| ==> !('a' <= r[i] <= 'z')
  {
    if |s| == 0 then [] else [UpperChar(s[0])] + UpperString(s[1..])
  }

  /** `v.upper()`: defined on strings only. */
  function Upper(v: Value): (r: Result<string, Error>)
    ensures r.Success? <==> v.String?
    ensures r.Success? ==> r.value == UpperString(v.str)
  {
    match v
    case String(s) => Success(UpperString(s))
    case _ => Failure(NotAString)
  }

  /** A needle longer than the haystack never occurs in it; in particular a
      one-character string never holds "request" or "item". */
  lemma {:induction false} LongNeedleAbsent(needle: string, hay: string)
    requires |needle| > |hay|
    ensures !IsSubstring(needle, hay)
    decreases |hay|
  {
    if |hay| > 0 {
      LongNeedleAbsent(needle, hay[1..]);
    }
  }
}
