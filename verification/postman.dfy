/**
 The Postman collection summariser: flattening the nested folder/item tree
 into its request objects, then counting requests, methods and query
 parameters.
 */
module Postman {
  import opened Wrappers
  import opened Json
  import opened Buckets

  /** Requests found in the value of an `item` member, in depth-first
      pre-order. Iterating an array visits its elements, iterating an object
      visits its keys, iterating a string visits its characters. */
  function ExtractRequests(items: Value): Result<seq<Value>, Error>
    decreases items
  {
    match items
    case Array(elements) => ExtractFrom(elements, 0)
    case Object(fields) => ScanNames(Keys(fields))
    case String(s) => ScanNames(Characters(s))
    case _ => Failure(NotIterable)
  }

  /** The requests of `elements[i..]`, element by element. */
  function ExtractFrom(elements: seq<Value>, i: nat): Result<seq<Value>, Error>
    requires i <= |elements|
    decreases elements, |elements| - i
  {
    if i == |elements| then Success([])
    else
      var own :- ItemRequests(elements[i]);
      var rest :- ExtractFrom(elements, i + 1);
      Success(own + rest)
  }

  /** What one item contributes: its own request, if it has one, followed
      by the requests of its sub-items, if it has any. */
  function ItemRequests(item: Value): Result<seq<Value>, Error>
    decreases item
  {
    var hasRequest :- Contains(item, "request");
    var own :- if hasRequest then Single(Index(item, "request")) else Success([]);
    // the first membership test already failed on a scalar, so this one succeeds
    var hasItems := Contains(item, "item").value;
    if !hasItems then Success(own)
    else
      var sub :- Index(item, "item");
      var nested :- ExtractRequests(sub);
      Success(own + nested)
  }

  function Single(r: Result<Value, Error>): Result<seq<Value>, Error> {
    match r
    case Success(v) => Success([v])
    case Failure(e) => Failure(e)
  }

  /** Each character of `s` as a one-character string. */
  function Characters(s: string): (r: seq<string>)
    ensures |r| == |s|
    ensures forall i :: 0 <= i < |s| ==> r[i] == [s[i]]
  {
    if |s| == 0 then [] else Characters(s[..|s| - 1]) + [[s[|s| - 1]]]
  }

  /** Iterating over strings as items: a string holding "request" or "item"
      as a substring is then subscripted by a string, which fails; any other
      string is passed over. */
  function ScanNames(names: seq<string>): (r: Result<seq<Value>, Error>)
    ensures r.Success? ==> r.value == []
    ensures r.Failure? <==>
              (exists i :: 0 <= i < |names| && (IsSubstring("request", names[i]) || IsSubstring("item", names[i])))
  {
    if |names| == 0 then Success([])
    else
      var rest :- ScanNames(names[..|names| - 1]);
      var last := names[|names| - 1];
      if IsSubstring("request", last) || IsSubstring("item", last) then Failure(NotSubscriptable)
      else Success(rest)
  }

  /** Iterating a string visits one-character strings, none of which holds
      "request" or "item": a string in place of an item list contributes
      no requests and raises nothing. */
  lemma StringItemsContributeNothing(s: string)
    ensures ExtractRequests(String(s)) == Success([])
  {
    forall i | 0 <= i < |s|
      ensures !IsSubstring("request", Characters(s)[i]) && !IsSubstring("item", Characters(s)[i])
    {
      LongNeedleAbsent("request", [s[i]]);
      LongNeedleAbsent("item", [s[i]]);
    }
  }

  /** A number, boolean or null anywhere in an item list makes the whole
      flattening raise. */
  lemma {:induction false} ScalarItemFails(elements: seq<Value>, j: nat, i: nat)
    requires j <= i < |elements|
    requires elements[i].Number? || elements[i].Bool? || elements[i].Null?
    ensures ExtractFrom(elements, j).Failure?
    decreases i - j
  {
    if j < i {
      ScalarItemFails(elements, j + 1, i);
    }
  }
}
