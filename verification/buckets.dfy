/**
 The bookkeeping shared by both summarisers: a per-method bucket map that
 starts with eight fixed keys at zero and grows a new key for any other
 method, and a running parameter total.
 */
module Buckets {

  /** One counted request or operation: its upper-cased HTTP method (verb) and the
      number of parameters it carries. */
  datatype Op = Op(verb: string, parameters: nat)

  datatype Tallies = Tallies(distribution: map<string, nat>, parameters: nat)

  /** The per-file result: "Total Requests/Endpoints", "HTTP Methods
      Distribution" and "Total Parameters". */
  datatype Summary = Summary(endpoints: nat, distribution: map<string, nat>, parameters: nat)

  const FixedMethods: set<string> :=
    {"GET", "POST", "PUT", "DELETE", "PATCH", "HEAD", "OPTIONS", "UNKNOWN"}

  /** Every fixed method mapped to zero. */
  function InitialBuckets(): (m: map<string, nat>)
    ensures m.Keys == FixedMethods
    ensures forall k :: k in m ==> m[k] == 0
  {
    map k | k in FixedMethods :: 0
  }

  /** `d[k] = d.get(k, 0) + 1`. */
  function Bump(d: map<string, nat>, k: string): (r: map<string, nat>)
    ensures r.Keys == d.Keys + {k}
    ensures r[k] == (if k in d then d[k] else 0) + 1
    ensures forall j :: j in d && j != k ==> r[j] == d[j]
  {
    d[k := (if k in d then d[k] else 0) + 1]
  }

  /** The methods of `ops`, in order. */
  function Methods(ops: seq<Op>): (r: seq<string>)
    ensures |r| == |ops|
    ensures forall i :: 0 <= i < |ops| ==> r[i] == ops[i].verb
  {
    if |ops| == 0 then [] else Methods(ops[..|ops| - 1]) + [ops[|ops| - 1].verb]
  }

  /** The sum of the parameter counts of `ops`. */
  function ParameterSum(ops: seq<Op>): nat {
    if |ops| == 0 then 0 else ops[0].parameters + ParameterSum(ops[1..])
  }

  /** Feeds `ops` one at a time, in order, into the fixed-key buckets. */
  function Tally(ops: seq<Op>): Tallies {
    if |ops| == 0 then Tallies(InitialBuckets(), 0)
    else
      var t := Tally(ops[..|ops| - 1]);
      var op := ops[|ops| - 1];
      Tallies(Bump(t.distribution, op.verb), t.parameters + op.parameters)
  }

  /** The sum of all bucket values. */
  ghost function MapSum(m: map<string, nat>): nat
    decreases |m|
  {
    if m == map[] then 0
    else
      var k :| k in m;
      m[k] + MapSum(m - {k})
  }

  /** Any key may be peeled off first when summing a map. */
  lemma {:induction false} MapSumRemove(m: map<string, nat>, k: string)
    requires k in m
    ensures MapSum(m) == m[k] + MapSum(m - {k})
    decreases |m|
  {
    var x :| x in m && MapSum(m) == m[x] + MapSum(m - {x});
    if x != k {
      MapSumRemove(m - {x}, k);
      MapSumRemove(m - {k}, x);
      assert (m - {x}) - {k} == (m - {k}) - {x};
    }
  }

  /** Bumping one bucket raises the bucket total by exactly one. */
  lemma BumpSum(d: map<string, nat>, k: string)
    ensures MapSum(Bump(d, k)) == MapSum(d) + 1
  {
    var r := Bump(d, k);
    MapSumRemove(r, k);
    assert r - {k} == d - {k};
    if k in d {
      MapSumRemove(d, k);
    } else {
      assert d - {k} == d;
    }
  }

  lemma {:induction false} MapSumZero(m: map<string, nat>)
    requires forall k :: k in m ==> m[k] == 0
    ensures MapSum(m) == 0
    decreases |m|
  {
    if m != map[] {
      var k :| k in m;
      MapSumRemove(m, k);
      MapSumZero(m - {k});
    }
  }

  lemma InitialBucketsSum()
    ensures MapSum(InitialBuckets()) == 0
  {
    MapSumZero(InitialBuckets());
  }

  /** The buckets after a tally: the eight fixed keys plus one key per
      method that occurs, each holding the number of occurrences of its
      method, and together holding one unit per op. */
  lemma TallyBuckets(ops: seq<Op>)
    ensures forall k :: k in Tally(ops).distribution <==> k in FixedMethods || k in Methods(ops)
    ensures forall k :: k in Tally(ops).distribution ==>
              Tally(ops).distribution[k] == multiset(Methods(ops))[k]
    ensures MapSum(Tally(ops).distribution) == |ops|
  {
    TallyKeys(ops);
    TallySum(ops);
    forall k | k in Tally(ops).distribution
      ensures Tally(ops).distribution[k] == multiset(Methods(ops))[k]
    {
      TallyCount(ops, k);
    }
  }

  lemma {:induction false} TallyKeys(ops: seq<Op>)
    ensures forall k :: k in Tally(ops).distribution <==> k in FixedMethods || k in Methods(ops)
  {
    if |ops| > 0 {
      var front := ops[..|ops| - 1];
      TallyKeys(front);
      assert Methods(ops) == Methods(front) + [ops[|ops| - 1].verb];
    }
  }

  lemma {:induction false} TallyCount(ops: seq<Op>, k: string)
    requires k in Tally(ops).distribution
    ensures Tally(ops).distribution[k] == multiset(Methods(ops))[k]
  {
    TallyKeys(ops);
    if |ops| > 0 {
      var front := ops[..|ops| - 1];
      var op := ops[|ops| - 1];
      var d := Tally(front).distribution;
      assert Tally(ops).distribution == Bump(d, op.verb);
      assert Methods(ops) == Methods(front) + [op.verb];
      assert multiset(Methods(ops)) == multiset(Methods(front)) + multiset{op.verb};
      if k in d {
        TallyCount(front, k);
      } else {
        TallyKeys(front);
        assert k == op.verb && k !in Methods(front);
        assert multiset(Methods(front))[k] == 0;
      }
    }
  }

  lemma {:induction false} TallySum(ops: seq<Op>)
    ensures MapSum(Tally(ops).distribution) == |ops|
  {
    if |ops| == 0 {
      InitialBucketsSum();
    } else {
      var front := ops[..|ops| - 1];
      TallySum(front);
      BumpSum(Tally(front).distribution, ops[|ops| - 1].verb);
    }
  }

  lemma {:induction false} ParameterSumSnoc(ops: seq<Op>, op: Op)
    ensures ParameterSum(ops + [op]) == ParameterSum(ops) + op.parameters
  {
    if |ops| > 0 {
      assert (ops + [op])[1..] == ops[1..] + [op];
      ParameterSumSnoc(ops[1..], op);
    }
  }

  /** The parameter total is the sum over the ops, whatever their order of
      arrival. */
  lemma {:induction false} TallyParameters(ops: seq<Op>)
    ensures Tally(ops).parameters == ParameterSum(ops)
  {
    if |ops| > 0 {
      var front := ops[..|ops| - 1];
      TallyParameters(front);
      assert ops == front + [ops[|ops| - 1]];
      ParameterSumSnoc(front, ops[|ops| - 1]);
    }
  }

  /** Positions of the ops whose method is `k`. */
  ghost function VerbIndices(ops: seq<Op>, k: string): set<nat> {
    set j: nat | j < |ops| && ops[j].verb == k
  }

  /** The multiplicity of a method among the ops is the number of positions
      holding it. */
  lemma {:induction false} VerbOccurrences(ops: seq<Op>, k: string)
    ensures multiset(Methods(ops))[k] == |VerbIndices(ops, k)|
  {
    if |ops| > 0 {
      var front := ops[..|ops| - 1];
      var op := ops[|ops| - 1];
      VerbOccurrences(front, k);
      assert ops == front + [op];
      assert Methods(ops) == Methods(front) + [op.verb];
      VerbIndicesSnoc(front, op, k);
    }
  }

  lemma VerbIndicesSnoc(ops: seq<Op>, op: Op, k: string)
    ensures VerbIndices(ops + [op], k) == VerbIndices(ops, k) + (if op.verb == k then {|ops|} else {})
    ensures |ops| !in VerbIndices(ops, k)
  {
    var s := ops + [op];
    assert forall j :: 0 <= j < |ops| ==> s[j] == ops[j];
    assert s[|ops|] == op;
  }
}
