/**
 Counting the flattened requests of a Postman collection.
 */
module PostmanSummary {
  import opened Wrappers
  import opened Json
  import opened Buckets
  import opened Postman

  /** A request that is an object with a "method" member is counted. */
  predicate Counted(r: Value) {
    r.Object? && HasKey(r.fields, "method")
  }

  /** The query-parameter count of a counted request: the length of
      `url.query` when `url` is an object holding "query", else zero. */
  function QueryLength(fields: seq<Field>): Result<nat, Error> {
    if HasKey(fields, "url") && Get(fields, "url").Object? && HasKey(Get(fields, "url").fields, "query")
    then Len(Get(Get(fields, "url").fields, "query"))
    else Success(0)
  }

  /** One pass of the request loop: nothing for an uncounted request, else
      its upper-cased method and query length. */
  function RequestRecord(r: Value): Result<Option<Op>, Error> {
    if !Counted(r) then Success(None)
    else
      var verb :- Upper(Get(r.fields, "method"));
      var query :- QueryLength(r.fields);
      Success(Some(Op(verb, query)))
  }

  /** The records of all counted requests, in order; the first failing
      request fails the whole loop. */
  function Records(requests: seq<Value>): Result<seq<Op>, Error> {
    if |requests| == 0 then Success([])
    else
      var front :- Records(requests[..|requests| - 1]);
      var last :- RequestRecord(requests[|requests| - 1]);
      match last
      case None => Success(front)
      case Some(op) => Success(front + [op])
  }

  /** The flattened requests of the collection's top-level `item` list. */
  function CollectionRequests(content: Value): Result<seq<Value>, Error> {
    var items :- Index(content, "item");
    ExtractRequests(items)
  }

  /** The summary of a collection: every extracted request is an endpoint,
      counted requests fill the method buckets and the parameter total. */
  function SummarizePostman(content: Value): Result<Summary, Error> {
    var requests :- CollectionRequests(content);
    var ops :- Records(requests);
    var t := Tally(ops);
    Success(Summary(|requests|, t.distribution, t.parameters))
  }

  /** The bucket a request falls into: its upper-cased method, when it is
      counted and its method is a string. */
  function MethodKey(r: Value): Option<string> {
    if Counted(r) && Get(r.fields, "method").String?
    then Some(UpperString(Get(r.fields, "method").str))
    else None
  }

  /** A counted request on which the loop raises: a method that is not a
      string, or a query that has no length. */
  predicate RequestFails(r: Value) {
    Counted(r) &&
    (!Get(r.fields, "method").String? || QueryLength(r.fields).Failure?)
  }

  /** What a request adds to "Total Parameters". */
  function QueryCount(r: Value): nat {
    if Counted(r) && QueryLength(r.fields).Success? then QueryLength(r.fields).value else 0
  }

  function QueryTotal(requests: seq<Value>): nat {
    if |requests| == 0 then 0 else QueryCount(requests[0]) + QueryTotal(requests[1..])
  }

  /** Positions of the requests that fall into bucket `k`. */
  ghost function KeyIndices(requests: seq<Value>, k: string): set<nat> {
    set i: nat | i < |requests| && MethodKey(requests[i]) == Some(k)
  }

  /** Positions of the counted requests. */
  ghost function CountedIndices(requests: seq<Value>): set<nat> {
    set i: nat | i < |requests| && Counted(requests[i])
  }

  lemma KeyIndicesSnoc(requests: seq<Value>, r: Value, k: string)
    ensures KeyIndices(requests + [r], k)
         == KeyIndices(requests, k) + (if MethodKey(r) == Some(k) then {|requests|} else {})
    ensures |requests| !in KeyIndices(requests, k)
  {
    var s := requests + [r];
    assert forall i :: 0 <= i < |requests| ==> s[i] == requests[i];
    assert s[|requests|] == r;
  }

  lemma CountedIndicesSnoc(requests: seq<Value>, r: Value)
    ensures CountedIndices(requests + [r])
         == CountedIndices(requests) + (if Counted(r) then {|requests|} else {})
    ensures |requests| !in CountedIndices(requests)
  {
    var s := requests + [r];
    assert forall i :: 0 <= i < |requests| ==> s[i] == requests[i];
    assert s[|requests|] == r;
  }

  lemma {:induction false} QueryTotalSnoc(requests: seq<Value>, r: Value)
    ensures QueryTotal(requests + [r]) == QueryTotal(requests) + QueryCount(r)
  {
    if |requests| > 0 {
      assert (requests + [r])[1..] == requests[1..] + [r];
      QueryTotalSnoc(requests[1..], r);
    }
  }

  /** The request loop raises exactly when some request is ill-shaped. */
  lemma {:induction false} RecordsFailure(requests: seq<Value>)
    ensures Records(requests).Failure? <==>
              exists i :: 0 <= i < |requests| && RequestFails(requests[i])
  {
    if |requests| > 0 {
      var front := requests[..|requests| - 1];
      RecordsFailure(front);
      assert forall i :: 0 <= i < |front| ==> front[i] == requests[i];
    }
  }

  /** One more request extends the records by its own record, if any. */
  lemma RecordsSnoc(requests: seq<Value>)
    requires |requests| > 0 && Records(requests).Success?
    ensures Records(requests[..|requests| - 1]).Success?
    ensures !Counted(requests[|requests| - 1]) ==>
              Records(requests).value == Records(requests[..|requests| - 1]).value
    ensures Counted(requests[|requests| - 1]) ==>
              var r := requests[|requests| - 1];
              Get(r.fields, "method").String? && QueryLength(r.fields).Success? &&
              Records(requests).value == Records(requests[..|requests| - 1]).value
                + [Op(UpperString(Get(r.fields, "method").str), QueryLength(r.fields).value)]
  {
  }

  /** On a successful loop every counted request has a string method. */
  lemma {:induction false} RecordsMethodsAreStrings(requests: seq<Value>)
    requires Records(requests).Success?
    ensures forall i :: 0 <= i < |requests| && Counted(requests[i]) ==> MethodKey(requests[i]).Some?
  {
    RecordsFailure(requests);
  }

  /** Each bucket key occurs among the records as often as requests fall
      into that bucket. */
  lemma {:induction false} RecordsKeyCounts(requests: seq<Value>, k: string)
    requires Records(requests).Success?
    ensures multiset(Methods(Records(requests).value))[k] == |KeyIndices(requests, k)|
  {
    if |requests| > 0 {
      var front := requests[..|requests| - 1];
      var r := requests[|requests| - 1];
      assert requests == front + [r];
      RecordsSnoc(requests);
      RecordsKeyCounts(front, k);
      KeyIndicesSnoc(front, r, k);
      var ops := Records(front).value;
      if Counted(r) {
        var op := Op(UpperString(Get(r.fields, "method").str), QueryLength(r.fields).value);
        assert Methods(ops + [op]) == Methods(ops) + [op.verb];
      }
    }
  }

  /** One record per counted request. */
  lemma {:induction false} RecordsLength(requests: seq<Value>)
    requires Records(requests).Success?
    ensures |Records(requests).value| == |CountedIndices(requests)|
  {
    if |requests| > 0 {
      var front := requests[..|requests| - 1];
      var r := requests[|requests| - 1];
      assert requests == front + [r];
      RecordsSnoc(requests);
      RecordsLength(front);
      CountedIndicesSnoc(front, r);
    }
  }

  /** The records carry, in total, the query lengths of the requests. */
  lemma {:induction false} RecordsParameters(requests: seq<Value>)
    requires Records(requests).Success?
    ensures ParameterSum(Records(requests).value) == QueryTotal(requests)
  {
    if |requests| > 0 {
      var front := requests[..|requests| - 1];
      var r := requests[|requests| - 1];
      assert requests == front + [r];
      RecordsSnoc(requests);
      RecordsParameters(front);
      QueryTotalSnoc(front, r);
      if Counted(r) {
        var op := Op(UpperString(Get(r.fields, "method").str), QueryLength(r.fields).value);
        ParameterSumSnoc(Records(front).value, op);
      }
    }
  }

  /** A bucket key occurs among the records exactly when some request falls
      into that bucket. */
  lemma {:induction false} RecordsKeys(requests: seq<Value>, k: string)
    requires Records(requests).Success?
    ensures k in Methods(Records(requests).value) <==>
              exists i :: 0 <= i < |requests| && MethodKey(requests[i]) == Some(k)
  {
    RecordsKeyCounts(requests, k);
    var ms := multiset(Methods(Records(requests).value));
    assert k in Methods(Records(requests).value) <==> ms[k] > 0;
    if exists i :: 0 <= i < |requests| && MethodKey(requests[i]) == Some(k) {
      var i :| 0 <= i < |requests| && MethodKey(requests[i]) == Some(k);
      assert i in KeyIndices(requests, k);
    }
    if ms[k] > 0 {
      var i :| i in KeyIndices(requests, k);
    }
  }

  /** A successful summary of a collection counts every extracted request
      as an endpoint; starts from the eight fixed buckets and adds one key
      per further upper-cased method; gives every bucket the number of
      requests whose upper-cased method names it, so that the buckets sum
      to the number of counted requests; and totals their query lengths. */
  lemma PostmanCounts(content: Value)
    requires SummarizePostman(content).Success?
    ensures CollectionRequests(content).Success?
    ensures var s := SummarizePostman(content).value;
            s.endpoints == |CollectionRequests(content).value|
    ensures var s := SummarizePostman(content).value;
            var requests := CollectionRequests(content).value;
            forall k :: k in s.distribution <==>
              k in FixedMethods || exists i :: 0 <= i < |requests| && MethodKey(requests[i]) == Some(k)
    ensures var s := SummarizePostman(content).value;
            var requests := CollectionRequests(content).value;
            forall k :: k in s.distribution ==> s.distribution[k] == |KeyIndices(requests, k)|
    ensures var s := SummarizePostman(content).value;
            var requests := CollectionRequests(content).value;
            MapSum(s.distribution) == |CountedIndices(requests)|
    ensures var s := SummarizePostman(content).value;
            var requests := CollectionRequests(content).value;
            s.parameters == QueryTotal(requests)
  {
    var requests := CollectionRequests(content).value;
    var ops := Records(requests).value;
    TallyBuckets(ops);
    TallyParameters(ops);
    RecordsLength(requests);
    RecordsParameters(requests);
    forall k
      ensures k in Methods(ops) <==> exists i :: 0 <= i < |requests| && MethodKey(requests[i]) == Some(k)
      ensures multiset(Methods(ops))[k] == |KeyIndices(requests, k)|
    {
      RecordsKeys(requests, k);
      RecordsKeyCounts(requests, k);
    }
  }

  /** A collection's summary fails exactly when its requests cannot be
      extracted or one of them is ill-shaped. */
  lemma PostmanFailure(content: Value)
    ensures SummarizePostman(content).Failure? <==>
              CollectionRequests(content).Failure? ||
              exists i :: 0 <= i < |CollectionRequests(content).value| &&
                          RequestFails(CollectionRequests(content).value[i])
  {
    if CollectionRequests(content).Success? {
      RecordsFailure(CollectionRequests(content).value);
    }
  }
}
