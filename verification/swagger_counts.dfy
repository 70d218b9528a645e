/**
 What a Swagger summary counts, stated over the flattened list of
 operations, and the proofs that the summariser agrees.
 */
module SwaggerCounts {
  import opened Wrappers
  import opened Json
  import opened Buckets
  import opened Swagger

  /** The members of a path item whose value is an object, in order. */
  function ObjectMembers(members: seq<Field>): (r: seq<Field>)
    ensures forall j :: 0 <= j < |r| ==> r[j].value.Object? && r[j] in members
    ensures forall m :: m in members && m.value.Object? ==> m in r
  {
    if |members| == 0 then []
    else
      var m := members[|members| - 1];
      ObjectMembers(members[..|members| - 1]) + (if m.value.Object? then [m] else [])
  }

  /** Every operation of the document: the object-valued members of the
      object-valued paths, path by path, in order. */
  function Operations(paths: seq<Field>): (r: seq<Field>)
    ensures forall j :: 0 <= j < |r| ==> r[j].value.Object?
  {
    if |paths| == 0 then []
    else
      var p := paths[|paths| - 1];
      Operations(paths[..|paths| - 1]) + (if p.value.Object? then ObjectMembers(p.value.fields) else [])
  }

  /** Each object-valued member is taken as often as it occurs, and no
      other member is taken. */
  lemma {:induction false} ObjectMembersMultiplicity(members: seq<Field>)
    ensures forall m :: multiset(ObjectMembers(members))[m] ==
                          (if m.value.Object? then multiset(members)[m] else 0)
  {
    if |members| > 0 {
      var front := members[..|members| - 1];
      var last := members[|members| - 1];
      ObjectMembersMultiplicity(front);
      assert members == front + [last];
      assert multiset(members) == multiset(front) + multiset{last};
      assert multiset(ObjectMembers(members))
          == multiset(ObjectMembers(front)) + (if last.value.Object? then multiset{last} else multiset{});
    }
  }

  /** Taking object-valued members commutes with concatenation, so the
      members keep their document order. */
  lemma {:induction false} ObjectMembersAppend(x: seq<Field>, y: seq<Field>)
    ensures ObjectMembers(x + y) == ObjectMembers(x) + ObjectMembers(y)
    decreases |y|
  {
    if |y| > 0 {
      var y' := y[..|y| - 1];
      assert (x + y)[..|x + y| - 1] == x + y';
      assert (x + y)[|x + y| - 1] == y[|y| - 1];
      ObjectMembersAppend(x, y');
    } else {
      assert x + y == x;
    }
  }

  /** Listing operations commutes with concatenation of the paths, so the
      operations come path by path in document order. */
  lemma {:induction false} OperationsAppend(x: seq<Field>, y: seq<Field>)
    ensures Operations(x + y) == Operations(x) + Operations(y)
    decreases |y|
  {
    if |y| > 0 {
      var y' := y[..|y| - 1];
      assert (x + y)[..|x + y| - 1] == x + y';
      assert (x + y)[|x + y| - 1] == y[|y| - 1];
      OperationsAppend(x, y');
    } else {
      assert x + y == x;
    }
  }

  /** The operations are exactly the object-valued members of the
      object-valued paths. */
  lemma {:induction false} OperationsAreObjectMembers(paths: seq<Field>)
    ensures forall j :: 0 <= j < |Operations(paths)| ==>
              exists i :: 0 <= i < |paths| && paths[i].value.Object? &&
                          Operations(paths)[j] in paths[i].value.fields
    ensures forall i, m :: (0 <= i < |paths| && paths[i].value.Object? &&
                            m in paths[i].value.fields && m.value.Object?) ==> m in Operations(paths)
  {
    if |paths| > 0 {
      var front := paths[..|paths| - 1];
      var p := paths[|paths| - 1];
      OperationsAreObjectMembers(front);
      var before := Operations(front);
      var mine := if p.value.Object? then ObjectMembers(p.value.fields) else [];
      assert Operations(paths) == before + mine;
      forall j | 0 <= j < |Operations(paths)|
        ensures exists i :: 0 <= i < |paths| && paths[i].value.Object? &&
                            Operations(paths)[j] in paths[i].value.fields
      {
        if j < |before| {
          var i :| 0 <= i < |front| && front[i].value.Object? && before[j] in front[i].value.fields;
          assert paths[i] == front[i];
          assert Operations(paths)[j] == before[j];
        } else {
          assert p.value.Object?;
          assert Operations(paths)[j] == mine[j - |before|];
          assert mine[j - |before|] in p.value.fields;
          assert paths[|paths| - 1].value.Object? && Operations(paths)[j] in paths[|paths| - 1].value.fields;
        }
      }
      forall i, m | 0 <= i < |paths| && paths[i].value.Object? &&
                    m in paths[i].value.fields && m.value.Object?
        ensures m in Operations(paths)
      {
        if i < |front| {
          assert front[i] == paths[i];
          assert m in before;
        } else {
          assert m in mine;
        }
      }
    } else {
      assert Operations(paths) == [];
    }
  }

  /** The length of an operation's parameter list, or zero when it has none. */
  function ParameterCount(operation: Field): nat
    requires operation.value.Object?
  {
    var n := Len(ParametersOf(operation.value.fields));
    if n.Success? then n.value else 0
  }

  /** An operation on which the loop raises: its "parameters" has no length. */
  predicate OperationFails(operation: Field)
    requires operation.value.Object?
  {
    Len(ParametersOf(operation.value.fields)).Failure?
  }

  ghost function ParameterTotal(operations: seq<Field>): nat
    requires forall j :: 0 <= j < |operations| ==> operations[j].value.Object?
  {
    if |operations| == 0 then 0
    else ParameterCount(operations[0]) + ParameterTotal(operations[1..])
  }

  /** Positions of the operations whose upper-cased name is `k`. */
  ghost function OperationIndices(operations: seq<Field>, k: string): set<nat> {
    set j: nat | j < |operations| && UpperString(operations[j].key) == k
  }

  /** Positions of the object-valued paths. */
  ghost function ObjectPathIndices(paths: seq<Field>): set<nat> {
    set i: nat | i < |paths| && paths[i].value.Object?
  }

  /** `ops` are the records of `operations`, one for one. */
  ghost predicate RecordsOf(ops: seq<Op>, operations: seq<Field>) {
    && |ops| == |operations|
    && forall j :: 0 <= j < |ops| ==>
         operations[j].value.Object? &&
         ops[j] == Op(UpperString(operations[j].key), ParameterCount(operations[j]))
  }

  lemma RecordsOfConcat(o1: seq<Op>, f1: seq<Field>, o2: seq<Op>, f2: seq<Field>)
    requires RecordsOf(o1, f1) && RecordsOf(o2, f2)
    ensures RecordsOf(o1 + o2, f1 + f2)
  {
    forall j | |o1| <= j < |o1 + o2|
      ensures (f1 + f2)[j] == f2[j - |o1|] && (o1 + o2)[j] == o2[j - |o1|]
    {
    }
  }

  /** A path item's records succeed exactly when none of its operations
      raises, and are then that path's operations, one for one. */
  lemma {:induction false} OperationRecordsFollow(members: seq<Field>)
    ensures OperationRecords(members).Success? <==>
              forall j :: 0 <= j < |ObjectMembers(members)| ==> !OperationFails(ObjectMembers(members)[j])
    ensures OperationRecords(members).Success? ==>
              RecordsOf(OperationRecords(members).value, ObjectMembers(members))
  {
    if |members| > 0 {
      var front := members[..|members| - 1];
      var m := members[|members| - 1];
      OperationRecordsFollow(front);
      var om := ObjectMembers(front);
      assert ObjectMembers(members) == om + (if m.value.Object? then [m] else []);
      if OperationRecords(front).Success? && m.value.Object? && !OperationFails(m) {
        var n := Len(ParametersOf(m.value.fields)).value;
        RecordsOfConcat(OperationRecords(front).value, om, [Op(UpperString(m.key), n)], [m]);
      }
      if !m.value.Object? {
        assert ObjectMembers(members) == om;
      }
    }
  }

  /** The walk over `paths` succeeds exactly when no operation raises, and
      then yields one record per operation, in order. */
  lemma {:induction false} PathRecordsFollow(paths: seq<Field>)
    ensures PathRecords(paths).Success? <==>
              forall j :: 0 <= j < |Operations(paths)| ==> !OperationFails(Operations(paths)[j])
    ensures PathRecords(paths).Success? ==> RecordsOf(PathRecords(paths).value, Operations(paths))
  {
    if |paths| > 0 {
      var front := paths[..|paths| - 1];
      var p := paths[|paths| - 1];
      PathRecordsFollow(front);
      var before := Operations(front);
      if p.value.Object? {
        var mine := ObjectMembers(p.value.fields);
        OperationRecordsFollow(p.value.fields);
        assert Operations(paths) == before + mine;
        assert forall j :: 0 <= j < |before| ==> Operations(paths)[j] == before[j];
        assert forall j :: 0 <= j < |mine| ==> Operations(paths)[|before| + j] == mine[j];
        if PathRecords(front).Success? && OperationRecords(p.value.fields).Success? {
          RecordsOfConcat(PathRecords(front).value, before, OperationRecords(p.value.fields).value, mine);
        }
      } else {
        assert Operations(paths) == before;
      }
    }
  }

  lemma {:induction false} EndpointCountIsObjectPaths(paths: seq<Field>)
    ensures EndpointCount(paths) == |ObjectPathIndices(paths)|
  {
    if |paths| > 0 {
      var front := paths[..|paths| - 1];
      EndpointCountIsObjectPaths(front);
      assert forall i :: 0 <= i < |front| ==> paths[i] == front[i];
      assert ObjectPathIndices(paths)
          == ObjectPathIndices(front) + (if paths[|paths| - 1].value.Object? then {|front|} else {});
      assert |front| !in ObjectPathIndices(front);
    }
  }

  lemma {:induction false} RecordsOfParameters(ops: seq<Op>, operations: seq<Field>)
    requires RecordsOf(ops, operations)
    ensures ParameterSum(ops) == ParameterTotal(operations)
  {
    if |ops| > 0 {
      RecordsOfParameters(ops[1..], operations[1..]);
    }
  }

  lemma RecordsOfVerbs(ops: seq<Op>, operations: seq<Field>, k: string)
    requires RecordsOf(ops, operations)
    ensures VerbIndices(ops, k) == OperationIndices(operations, k)
  {
  }

  lemma BucketsOfRecords(ops: seq<Op>, operations: seq<Field>, k: string)
    requires RecordsOf(ops, operations)
    ensures k in Tally(ops).distribution <==>
              k in FixedMethods || exists j :: 0 <= j < |operations| && UpperString(operations[j].key) == k
    ensures k in Tally(ops).distribution ==> Tally(ops).distribution[k] == |OperationIndices(operations, k)|
  {
    TallyKeys(ops);
    KeysOfRecords(ops, operations, k);
    if k in Tally(ops).distribution {
      TallyCount(ops, k);
      VerbOccurrences(ops, k);
      RecordsOfVerbs(ops, operations, k);
    }
  }

  lemma KeysOfRecords(ops: seq<Op>, operations: seq<Field>, k: string)
    requires RecordsOf(ops, operations)
    ensures k in Methods(ops) <==> exists j :: 0 <= j < |operations| && UpperString(operations[j].key) == k
  {
    if k in Methods(ops) {
      var j :| 0 <= j < |ops| && Methods(ops)[j] == k;
      assert UpperString(operations[j].key) == k;
    }
    if exists j :: 0 <= j < |operations| && UpperString(operations[j].key) == k {
      var j :| 0 <= j < |operations| && UpperString(operations[j].key) == k;
      assert Methods(ops)[j] == k;
    }
  }

  /** Each bucket after the walk over `paths`. */
  lemma PathsBuckets(paths: seq<Field>, k: string)
    requires SummarizePaths(paths).Success?
    ensures var d := SummarizePaths(paths).value.distribution;
            var operations := Operations(paths);
            k in d <==> k in FixedMethods || exists j :: 0 <= j < |operations| && UpperString(operations[j].key) == k
    ensures var d := SummarizePaths(paths).value.distribution;
            k in d ==> d[k] == |OperationIndices(Operations(paths), k)|
  {
    PathRecordsFollow(paths);
    var ops := PathRecords(paths).value;
    assert SummarizePaths(paths).value.distribution == Tally(ops).distribution;
    BucketsOfRecords(ops, Operations(paths), k);
  }

  /** The three totals after the walk over `paths`. */
  lemma PathsTotals(paths: seq<Field>)
    requires SummarizePaths(paths).Success?
    ensures SummarizePaths(paths).value.endpoints == |ObjectPathIndices(paths)|
    ensures MapSum(SummarizePaths(paths).value.distribution) == |Operations(paths)|
    ensures SummarizePaths(paths).value.parameters == ParameterTotal(Operations(paths))
  {
    PathRecordsFollow(paths);
    var ops := PathRecords(paths).value;
    TallyBuckets(ops);
    TallyParameters(ops);
    RecordsOfParameters(ops, Operations(paths));
    EndpointCountIsObjectPaths(paths);
  }

  /** A successful Swagger summary of an object counts one endpoint per
      object-valued path; starts from the eight fixed buckets and adds one
      key per further upper-cased operation name; gives every bucket the
      number of operations it names, so that the buckets sum to the number
      of operations; and totals their parameter-list lengths. */
  lemma SwaggerCounts(content: Value)
    requires content.Object? && SummarizeSwagger(content).Success?
    ensures var s := SummarizeSwagger(content).value;
            s.endpoints == |ObjectPathIndices(PathEntries(content))|
    ensures var s := SummarizeSwagger(content).value;
            var operations := Operations(PathEntries(content));
            forall k :: k in s.distribution <==>
              k in FixedMethods || exists j :: 0 <= j < |operations| && UpperString(operations[j].key) == k
    ensures var s := SummarizeSwagger(content).value;
            var operations := Operations(PathEntries(content));
            forall k :: k in s.distribution ==> s.distribution[k] == |OperationIndices(operations, k)|
    ensures var s := SummarizeSwagger(content).value;
            MapSum(s.distribution) == |Operations(PathEntries(content))|
    ensures var s := SummarizeSwagger(content).value;
            s.parameters == ParameterTotal(Operations(PathEntries(content)))
  {
    var paths := PathEntries(content);
    PathsTotals(paths);
    forall k
      ensures var d := SummarizePaths(paths).value.distribution;
              var operations := Operations(paths);
              k in d <==> k in FixedMethods || exists j :: 0 <= j < |operations| && UpperString(operations[j].key) == k
      ensures var d := SummarizePaths(paths).value.distribution;
              k in d ==> d[k] == |OperationIndices(Operations(paths), k)|
    {
      PathsBuckets(paths, k);
    }
  }

  /** A Swagger summary fails exactly when the document is an object and
      one of its operations has a "parameters" without a length. */
  lemma SwaggerFailure(content: Value)
    ensures SummarizeSwagger(content).Failure? <==>
              content.Object? &&
              exists j :: 0 <= j < |Operations(PathEntries(content))| &&
                          OperationFails(Operations(PathEntries(content))[j])
  {
    if content.Object? {
      PathRecordsFollow(PathEntries(content));
    }
  }

  /** A document that is not an object has no endpoints, no buckets at all
      and no parameters. */
  lemma SwaggerNotObject(content: Value)
    requires !content.Object?
    ensures SummarizeSwagger(content) == Success(Summary(0, map[], 0))
  {
  }

  /** An object whose "paths" is missing or not an object has no endpoints,
      the eight fixed buckets at zero and no parameters. */
  lemma SwaggerWithoutPaths(content: Value)
    requires content.Object?
    requires !HasKey(content.fields, "paths") || !Get(content.fields, "paths").Object?
    ensures SummarizeSwagger(content) == Success(Summary(0, InitialBuckets(), 0))
  {
  }

  /** Running two walks one after the other: the first failure wins. */
  function Join(r1: Result<seq<Op>, Error>, r2: Result<seq<Op>, Error>): Result<seq<Op>, Error> {
    match r1
    case Failure(e) => Failure(e)
    case Success(a) =>
      match r2
      case Failure(e) => Failure(e)
      case Success(b) => Success(a + b)
  }

  lemma {:induction false} OperationRecordsAppend(x: seq<Field>, y: seq<Field>)
    ensures OperationRecords(x + y) == Join(OperationRecords(x), OperationRecords(y))
    decreases |y|
  {
    if |y| == 0 {
      assert x + y == x;
      JoinEmpty(OperationRecords(x));
    } else {
      var y' := y[..|y| - 1];
      assert (x + y)[..|x + y| - 1] == x + y';
      assert (x + y)[|x + y| - 1] == y[|y| - 1];
      OperationRecordsAppend(x, y');
      var m := y[|y| - 1];
      if OperationRecords(x).Success? && OperationRecords(y').Success?
         && m.value.Object? && Len(ParametersOf(m.value.fields)).Success? {
        var a := OperationRecords(x).value;
        var b := OperationRecords(y').value;
        var op := Op(UpperString(m.key), Len(ParametersOf(m.value.fields)).value);
        assert OperationRecords(y) == Success(b + [op]);
        assert OperationRecords(x + y) == Success((a + b) + [op]);
        assert (a + b) + [op] == a + (b + [op]);
      }
    }
  }

  lemma {:induction false} PathRecordsAppend(x: seq<Field>, y: seq<Field>)
    ensures PathRecords(x + y) == Join(PathRecords(x), PathRecords(y))
    decreases |y|
  {
    if |y| == 0 {
      assert x + y == x;
      JoinEmpty(PathRecords(x));
    } else {
      var y' := y[..|y| - 1];
      assert (x + y)[..|x + y| - 1] == x + y';
      assert (x + y)[|x + y| - 1] == y[|y| - 1];
      PathRecordsAppend(x, y');
      var p := y[|y| - 1];
      if PathRecords(x).Success? && PathRecords(y').Success?
         && p.value.Object? && OperationRecords(p.value.fields).Success? {
        var a := PathRecords(x).value;
        var b := PathRecords(y').value;
        var ops := OperationRecords(p.value.fields).value;
        assert PathRecords(y) == Success(b + ops);
        assert PathRecords(x + y) == Success((a + b) + ops);
        assert (a + b) + ops == a + (b + ops);
      }
    }
  }

  lemma {:induction false} EndpointCountAppend(x: seq<Field>, y: seq<Field>)
    ensures EndpointCount(x + y) == EndpointCount(x) + EndpointCount(y)
    decreases |y|
  {
    if |y| == 0 {
      assert x + y == x;
    } else {
      var y' := y[..|y| - 1];
      assert (x + y)[..|x + y| - 1] == x + y';
      assert (x + y)[|x + y| - 1] == y[|y| - 1];
      EndpointCountAppend(x, y');
    }
  }

  lemma JoinEmpty(r: Result<seq<Op>, Error>)
    ensures Join(r, Success([])) == r && Join(Success([]), r) == r
  {
    if r.Success? {
      assert r.value + [] == r.value;
      assert [] + r.value == r.value;
    }
  }

  /** A path whose value is not an object changes nothing in the summary:
      it is neither an endpoint nor a source of operations. */
  lemma SkipNonObjectPath(before: seq<Field>, path: Field, after: seq<Field>)
    requires !path.value.Object?
    ensures SummarizePaths(before + [path] + after) == SummarizePaths(before + after)
  {
    PathRecordsAppend(before + [path], after);
    PathRecordsAppend(before, [path]);
    PathRecordsAppend(before, after);
    EndpointCountAppend(before + [path], after);
    EndpointCountAppend(before, [path]);
    EndpointCountAppend(before, after);
    assert [path][..0] == [];
    assert PathRecords([path]) == Success([]);
    JoinEmpty(PathRecords(before));
  }

  /** A member of a path item whose value is not an object changes nothing
      in the summary: it is not an operation. */
  lemma SkipNonObjectMember(before: seq<Field>, name: string, c: seq<Field>, member: Field,
                            d: seq<Field>, after: seq<Field>)
    requires !member.value.Object?
    ensures SummarizePaths(before + [Field(name, Object(c + [member] + d))] + after)
         == SummarizePaths(before + [Field(name, Object(c + d))] + after)
  {
    var p1 := Field(name, Object(c + [member] + d));
    var p2 := Field(name, Object(c + d));
    OperationRecordsAppend(c + [member], d);
    OperationRecordsAppend(c, [member]);
    OperationRecordsAppend(c, d);
    assert [member][..0] == [];
    assert OperationRecords([member]) == Success([]);
    JoinEmpty(OperationRecords(c));
    assert OperationRecords(c + [member] + d) == OperationRecords(c + d);
    assert [p1][..0] == [] && [p2][..0] == [];
    assert PathRecords([p1]) == PathRecords([p2]);
    PathRecordsAppend(before + [p1], after);
    PathRecordsAppend(before, [p1]);
    PathRecordsAppend(before + [p2], after);
    PathRecordsAppend(before, [p2]);
    EndpointCountAppend(before + [p1], after);
    EndpointCountAppend(before, [p1]);
    EndpointCountAppend(before + [p2], after);
    EndpointCountAppend(before, [p2]);
  }
}
