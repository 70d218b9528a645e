/**
 The Swagger document summariser: walks `paths`, then each path item's
 members, counting mapping-valued paths as endpoints and mapping-valued
 members as operations. Ill-shaped entries are passed over.
 */
module Swagger {
  import opened Wrappers
  import opened Json
  import opened Buckets

  /** The entries of `content.get("paths", {})`, or none when that value is
      not an object. */
  function PathEntries(content: Value): seq<Field>
    requires content.Object?
  {
    if HasKey(content.fields, "paths") && Get(content.fields, "paths").Object?
    then Get(content.fields, "paths").fields
    else []
  }

  /** `operation.get("parameters", [])`. */
  function ParametersOf(operation: seq<Field>): Value {
    if HasKey(operation, "parameters") then Get(operation, "parameters") else Array([])
  }

  /** The records of one path item's members, in order: each member whose
      value is an object becomes an operation named by its upper-cased key. */
  function OperationRecords(members: seq<Field>): Result<seq<Op>, Error> {
    if |members| == 0 then Success([])
    else
      var front :- OperationRecords(members[..|members| - 1]);
      var m := members[|members| - 1];
      if !m.value.Object? then Success(front)
      else
        var n :- Len(ParametersOf(m.value.fields));
        Success(front + [Op(UpperString(m.key), n)])
  }

  /** The records of all operations under all object-valued paths. */
  function PathRecords(paths: seq<Field>): Result<seq<Op>, Error> {
    if |paths| == 0 then Success([])
    else
      var front :- PathRecords(paths[..|paths| - 1]);
      var p := paths[|paths| - 1];
      if !p.value.Object? then Success(front)
      else
        var ops :- OperationRecords(p.value.fields);
        Success(front + ops)
  }

  /** The number of object-valued paths, each one an endpoint. */
  function EndpointCount(paths: seq<Field>): nat {
    if |paths| == 0 then 0
    else EndpointCount(paths[..|paths| - 1]) + (if paths[|paths| - 1].value.Object? then 1 else 0)
  }

  function SummarizePaths(paths: seq<Field>): Result<Summary, Error> {
    var ops :- PathRecords(paths);
    var t := Tally(ops);
    Success(Summary(EndpointCount(paths), t.distribution, t.parameters))
  }

  /** The summary of a Swagger document: empty for a document that is not
      an object, otherwise that of its `paths`. */
  function SummarizeSwagger(content: Value): Result<Summary, Error> {
    if !content.Object? then Success(Summary(0, map[], 0))
    else SummarizePaths(PathEntries(content))
  }
}
