/**
 A reference description of Postman flattening: positions in the item
 tree, the pre-order on them, and the enumeration of request-bearing
 positions, with the proof that extraction follows it.
 */
module PostmanPaths {
  import opened Wrappers
  import opened Json
  import opened Postman
  import opened PostmanSummary

  /** A position in a collection tree: the first index selects an element of
      the top-level item list, each further index an element of the
      previous item's own `item` list. */
  type Path = seq<nat>

  /** The item a path leads to, if any. */
  ghost function NodeAt(items: Value, p: Path): Option<Value>
    decreases |p|
  {
    if |p| == 0 || !items.Array? || p[0] >= |items.items| then None
    else
      var item := items.items[p[0]];
      if |p| == 1 then Some(item)
      else if item.Object? && HasKey(item.fields, "item") then NodeAt(Get(item.fields, "item"), p[1..])
      else None
  }

  ghost predicate HasRequest(n: Value) {
    n.Object? && HasKey(n.fields, "request")
  }

  /** The request object held by the item at `p`, if that item has one. */
  ghost function RequestAt(items: Value, p: Path): Option<Value> {
    match NodeAt(items, p)
    case Some(n) => if HasRequest(n) then Some(Get(n.fields, "request")) else None
    case None => None
  }

  /** Strict depth-first pre-order on positions: an item precedes its
      descendants, and an earlier sibling's whole subtree precedes a later
      sibling. */
  ghost predicate Precedes(p: Path, q: Path)
    decreases |p|
  {
    |q| > 0 && (|p| == 0 || p[0] < q[0] || (p[0] == q[0] && Precedes(p[1..], q[1..])))
  }

  ghost predicate Ordered(ps: seq<Path>) {
    forall a, b :: 0 <= a < b < |ps| ==> Precedes(ps[a], ps[b])
  }

  /** The positions of all request-bearing items, enumerated in pre-order. */
  ghost function RequestPaths(items: Value): seq<Path>
    decreases items
  {
    match items
    case Array(elements) => RequestPathsFrom(elements, 0)
    case _ => []
  }

  ghost function RequestPathsFrom(elements: seq<Value>, i: nat): seq<Path>
    requires i <= |elements|
    decreases elements, |elements| - i
  {
    if i == |elements| then [] else ItemPaths(elements, i) + RequestPathsFrom(elements, i + 1)
  }

  /** The positions the `i`-th item contributes: its own, then those below it. */
  ghost function ItemPaths(elements: seq<Value>, i: nat): seq<Path>
    requires i < |elements|
    decreases elements, |elements| - i, 0
  {
    var item := elements[i];
    (if HasRequest(item) then [[i]] else [])
    + (if item.Object? && HasKey(item.fields, "item")
       then Under(i, RequestPaths(Get(item.fields, "item"))) else [])
  }

  /** `ps` moved below the `i`-th item. */
  ghost function Under(i: nat, ps: seq<Path>): (r: seq<Path>)
    ensures |r| == |ps|
    ensures forall k :: 0 <= k < |ps| ==> r[k] == [i] + ps[k]
  {
    seq(|ps|, k requires 0 <= k < |ps| => [i] + ps[k])
  }

  /** A path below an object item with sub-items leads where the same path
      leads inside those sub-items. */
  lemma NodeAtUnder(elements: seq<Value>, i: nat, q: Path)
    requires i < |elements| && |q| > 0
    requires elements[i].Object? && HasKey(elements[i].fields, "item")
    ensures NodeAt(Array(elements), [i] + q) == NodeAt(Get(elements[i].fields, "item"), q)
  {
    assert ([i] + q)[1..] == q;
  }

  /** Every enumerated position holds a request-bearing item. */
  lemma {:induction false} RequestPathsSound(items: Value)
    ensures forall k :: 0 <= k < |RequestPaths(items)| ==>
              |RequestPaths(items)[k]| > 0 && RequestAt(items, RequestPaths(items)[k]).Some?
    decreases items
  {
    if items.Array? {
      RequestPathsFromSound(items.items, 0);
    }
  }

  /** `p` is a non-empty position, at or after top-level index `i`, of a
      request-bearing item. */
  ghost predicate LocatedFrom(elements: seq<Value>, p: Path, i: nat) {
    |p| > 0 && p[0] >= i && RequestAt(Array(elements), p).Some?
  }

  ghost predicate AllLocatedFrom(elements: seq<Value>, ps: seq<Path>, i: nat) {
    forall k :: 0 <= k < |ps| ==> LocatedFrom(elements, ps[k], i)
  }

  lemma AllLocatedConcat(elements: seq<Value>, a: seq<Path>, b: seq<Path>, i: nat)
    requires AllLocatedFrom(elements, a, i) && AllLocatedFrom(elements, b, i)
    ensures AllLocatedFrom(elements, a + b, i)
  {
    forall k | 0 <= k < |a + b|
      ensures LocatedFrom(elements, (a + b)[k], i)
    {
      if k >= |a| {
        assert (a + b)[k] == b[k - |a|];
      }
    }
  }

  lemma AllLocatedLater(elements: seq<Value>, ps: seq<Path>, i: nat)
    requires AllLocatedFrom(elements, ps, i + 1)
    ensures AllLocatedFrom(elements, ps, i)
  {
    forall k | 0 <= k < |ps|
      ensures LocatedFrom(elements, ps[k], i)
    {
      assert LocatedFrom(elements, ps[k], i + 1);
    }
  }

  /** The positions below the `i`-th item are located in the whole list. */
  lemma {:induction false} BelowSound(elements: seq<Value>, i: nat)
    requires i < |elements|
    requires elements[i].Object? && HasKey(elements[i].fields, "item")
    ensures AllLocatedFrom(elements, Under(i, RequestPaths(Get(elements[i].fields, "item"))), i)
    decreases elements[i]
  {
    var sub := Get(elements[i].fields, "item");
    var below := Under(i, RequestPaths(sub));
    RequestPathsSound(sub);
    forall k | 0 <= k < |below|
      ensures LocatedFrom(elements, below[k], i)
    {
      var q := RequestPaths(sub)[k];
      NodeAtUnder(elements, i, q);
      assert below[k] == [i] + q;
      assert RequestAt(Array(elements), [i] + q) == RequestAt(sub, q);
    }
  }

  lemma {:induction false} RequestPathsFromSound(elements: seq<Value>, i: nat)
    requires i <= |elements|
    ensures AllLocatedFrom(elements, RequestPathsFrom(elements, i), i)
    decreases elements, |elements| - i
  {
    if i < |elements| {
      var item := elements[i];
      var own := if HasRequest(item) then [[i]] else [];
      var below := if item.Object? && HasKey(item.fields, "item")
                   then Under(i, RequestPaths(Get(item.fields, "item"))) else [];
      var rest := RequestPathsFrom(elements, i + 1);
      assert RequestPathsFrom(elements, i) == own + below + rest;
      RequestPathsFromSound(elements, i + 1);
      AllLocatedLater(elements, rest, i);
      if item.Object? && HasKey(item.fields, "item") {
        BelowSound(elements, i);
      }
      if HasRequest(item) {
        assert RequestAt(Array(elements), [i]).Some?;
        assert LocatedFrom(elements, [i], i);
      }
      AllLocatedConcat(elements, own, below, i);
      AllLocatedConcat(elements, own + below, rest, i);
    }
  }

  /** Every request-bearing item's position is enumerated. */
  lemma {:induction false} RequestPathsComplete(items: Value, p: Path)
    requires RequestAt(items, p).Some?
    ensures p in RequestPaths(items)
    decreases |p|, 1
  {
    RequestPathsFromComplete(items.items, 0, p);
  }

  lemma {:induction false} RequestPathsFromComplete(elements: seq<Value>, j: nat, p: Path)
    requires RequestAt(Array(elements), p).Some?
    requires j <= p[0]
    ensures p in RequestPathsFrom(elements, j)
    decreases |p|, 0, p[0] - j
  {
    var i := p[0];
    var item := elements[i];
    var own := if HasRequest(item) then [[j]] else [];
    var below := if elements[j].Object? && HasKey(elements[j].fields, "item")
                 then Under(j, RequestPaths(Get(elements[j].fields, "item"))) else [];
    assert RequestPathsFrom(elements, j)
        == (if HasRequest(elements[j]) then [[j]] else []) + below + RequestPathsFrom(elements, j + 1);
    if j < i {
      RequestPathsFromComplete(elements, j + 1, p);
    } else if |p| == 1 {
      assert p == [j];
    } else {
      var q := p[1..];
      assert p == [i] + q;
      NodeAtUnder(elements, i, q);
      RequestPathsComplete(Get(item.fields, "item"), q);
      var k :| 0 <= k < |RequestPaths(Get(item.fields, "item"))| && RequestPaths(Get(item.fields, "item"))[k] == q;
      assert below[k] == p;
    }
  }

  lemma PrecedesUnder(i: nat, p: Path, q: Path)
    requires Precedes(p, q)
    ensures Precedes([i] + p, [i] + q)
  {
    assert ([i] + p)[1..] == p;
    assert ([i] + q)[1..] == q;
  }

  lemma PrecedesDescendant(i: nat, q: Path)
    requires |q| > 0
    ensures Precedes([i], [i] + q)
  {
    assert ([i] + q)[1..] == q;
  }

  /** Every position of `a` precedes every position of `b`. */
  ghost predicate AllPrecede(a: seq<Path>, b: seq<Path>) {
    forall x, y :: 0 <= x < |a| && 0 <= y < |b| ==> Precedes(a[x], b[y])
  }

  lemma OrderedConcat(a: seq<Path>, b: seq<Path>)
    requires Ordered(a) && Ordered(b)
    requires AllPrecede(a, b)
    ensures Ordered(a + b)
  {
    forall x, y | 0 <= x < y < |a + b|
      ensures Precedes((a + b)[x], (a + b)[y])
    {
      if y < |a| {
        assert (a + b)[x] == a[x] && (a + b)[y] == a[y];
      } else if x < |a| {
        assert (a + b)[x] == a[x] && (a + b)[y] == b[y - |a|];
      } else {
        assert (a + b)[x] == b[x - |a|] && (a + b)[y] == b[y - |a|];
      }
    }
  }

  lemma OrderedUnder(i: nat, ps: seq<Path>)
    requires Ordered(ps)
    ensures Ordered(Under(i, ps))
  {
    forall x, y | 0 <= x < y < |ps|
      ensures Precedes(Under(i, ps)[x], Under(i, ps)[y])
    {
      PrecedesUnder(i, ps[x], ps[y]);
    }
  }

  /** The enumeration is strictly increasing in pre-order; in particular no
      position is listed twice. */
  lemma {:induction false} RequestPathsOrdered(items: Value)
    ensures Ordered(RequestPaths(items))
    decreases items
  {
    if items.Array? {
      RequestPathsFromOrdered(items.items, 0);
    }
  }

  lemma {:induction false} RequestPathsFromOrdered(elements: seq<Value>, i: nat)
    requires i <= |elements|
    ensures Ordered(RequestPathsFrom(elements, i))
    decreases elements, |elements| - i
  {
    if i < |elements| {
      ItemPathsOrdered(elements, i);
      RequestPathsFromOrdered(elements, i + 1);
      ItemPathsBeforeRest(elements, i);
      OrderedConcat(ItemPaths(elements, i), RequestPathsFrom(elements, i + 1));
    }
  }

  /** The positions an item contributes all start with its own index. */
  lemma ItemPathsHead(elements: seq<Value>, i: nat)
    requires i < |elements|
    ensures forall x :: 0 <= x < |ItemPaths(elements, i)| ==>
              |ItemPaths(elements, i)[x]| > 0 && ItemPaths(elements, i)[x][0] == i
  {
    var item := elements[i];
    if item.Object? && HasKey(item.fields, "item") {
      var sub := Get(item.fields, "item");
      RequestPathsSound(sub);
      var own := if HasRequest(item) then [[i]] else [];
      var below := Under(i, RequestPaths(sub));
      assert ItemPaths(elements, i) == own + below;
      forall x | 0 <= x < |own + below|
        ensures |(own + below)[x]| > 0 && (own + below)[x][0] == i
      {
        if x >= |own| {
          assert (own + below)[x] == [i] + RequestPaths(sub)[x - |own|];
        }
      }
    }
  }

  lemma ItemPathsBeforeRest(elements: seq<Value>, i: nat)
    requires i < |elements|
    ensures AllPrecede(ItemPaths(elements, i), RequestPathsFrom(elements, i + 1))
  {
    var mine := ItemPaths(elements, i);
    var rest := RequestPathsFrom(elements, i + 1);
    ItemPathsHead(elements, i);
    RequestPathsFromSound(elements, i + 1);
    forall x, y | 0 <= x < |mine| && 0 <= y < |rest|
      ensures Precedes(mine[x], rest[y])
    {
      assert LocatedFrom(elements, rest[y], i + 1);
    }
  }

  lemma {:induction false} ItemPathsOrdered(elements: seq<Value>, i: nat)
    requires i < |elements|
    ensures Ordered(ItemPaths(elements, i))
    decreases elements[i]
  {
    var item := elements[i];
    var own := if HasRequest(item) then [[i]] else [];
    if item.Object? && HasKey(item.fields, "item") {
      var sub := Get(item.fields, "item");
      var below := Under(i, RequestPaths(sub));
      assert ItemPaths(elements, i) == own + below;
      RequestPathsOrdered(sub);
      RequestPathsSound(sub);
      OrderedUnder(i, RequestPaths(sub));
      forall x, y | 0 <= x < |own| && 0 <= y < |below|
        ensures Precedes(own[x], below[y])
      {
        PrecedesDescendant(i, RequestPaths(sub)[y]);
      }
      OrderedConcat(own, below);
    } else {
      assert ItemPaths(elements, i) == own;
    }
  }

  /** `rs` are, one for one and in order, the requests at positions `ps`. */
  ghost predicate Follows(items: Value, rs: seq<Value>, ps: seq<Path>) {
    |rs| == |ps| && forall k :: 0 <= k < |rs| ==> RequestAt(items, ps[k]) == Some(rs[k])
  }

  lemma FollowsConcat(items: Value, r1: seq<Value>, p1: seq<Path>, r2: seq<Value>, p2: seq<Path>)
    requires Follows(items, r1, p1) && Follows(items, r2, p2)
    ensures Follows(items, r1 + r2, p1 + p2)
  {
    forall k | 0 <= k < |r1 + r2|
      ensures RequestAt(items, (p1 + p2)[k]) == Some((r1 + r2)[k])
    {
      if k >= |r1| {
        assert (p1 + p2)[k] == p2[k - |r1|] && (r1 + r2)[k] == r2[k - |r1|];
      }
    }
  }

  /** What a successful step over one item produced. */
  lemma ItemRequestsShape(item: Value)
    requires ItemRequests(item).Success?
    ensures !item.Object? ==> ItemRequests(item).value == []
    ensures item.Object? && HasKey(item.fields, "item") ==>
              ExtractRequests(Get(item.fields, "item")).Success? &&
              ItemRequests(item).value ==
                (if HasKey(item.fields, "request") then [Get(item.fields, "request")] else [])
                + ExtractRequests(Get(item.fields, "item")).value
    ensures item.Object? && !HasKey(item.fields, "item") ==>
              ItemRequests(item).value ==
                (if HasKey(item.fields, "request") then [Get(item.fields, "request")] else [])
  {
  }

  /** A successful extraction yields exactly the requests at the enumerated
      positions, in the same order. */
  lemma {:induction false} ExtractFollowsPaths(items: Value)
    requires ExtractRequests(items).Success?
    ensures Follows(items, ExtractRequests(items).value, RequestPaths(items))
    decreases items
  {
    match items
    case Array(elements) =>
      ExtractFromFollowsPaths(elements, 0);
    case _ =>
  }

  lemma {:induction false} ItemFollowsPaths(elements: seq<Value>, i: nat)
    requires i < |elements|
    requires ItemRequests(elements[i]).Success?
    ensures Follows(Array(elements), ItemRequests(elements[i]).value, ItemPaths(elements, i))
    decreases elements[i]
  {
    var item := elements[i];
    var whole := Array(elements);
    var own := ItemRequests(item).value;
    var ownP := if HasRequest(item) then [[i]] else [];
    ItemRequestsShape(item);
    var ownR := if HasRequest(item) then [Get(item.fields, "request")] else [];
    assert Follows(whole, ownR, ownP);
    if item.Object? && HasKey(item.fields, "item") {
      var sub := Get(item.fields, "item");
      var belowP := Under(i, RequestPaths(sub));
      var nested := ExtractRequests(sub).value;
      ExtractFollowsPaths(sub);
      forall k | 0 <= k < |nested|
        ensures RequestAt(whole, belowP[k]) == Some(nested[k])
      {
        NodeAtUnder(elements, i, RequestPaths(sub)[k]);
        assert belowP[k] == [i] + RequestPaths(sub)[k];
      }
      assert own == ownR + nested;
      FollowsConcat(whole, ownR, ownP, nested, belowP);
    } else {
      assert own == ownR;
      assert ItemPaths(elements, i) == ownP;
    }
  }

  lemma {:induction false} ExtractFromFollowsPaths(elements: seq<Value>, i: nat)
    requires i <= |elements|
    requires ExtractFrom(elements, i).Success?
    ensures Follows(Array(elements), ExtractFrom(elements, i).value, RequestPathsFrom(elements, i))
    decreases elements, |elements| - i
  {
    if i < |elements| {
      var own := ItemRequests(elements[i]).value;
      var rest := ExtractFrom(elements, i + 1).value;
      assert ExtractFrom(elements, i).value == own + rest;
      assert RequestPathsFrom(elements, i) == ItemPaths(elements, i) + RequestPathsFrom(elements, i + 1);
      ItemFollowsPaths(elements, i);
      ExtractFromFollowsPaths(elements, i + 1);
      FollowsConcat(Array(elements), own, ItemPaths(elements, i), rest, RequestPathsFrom(elements, i + 1));
    }
  }

  /** The usual shape of a collection: a list of objects, each of whose
      `item` members, where present, is again such a list. */
  ghost predicate WellShaped(items: Value)
    decreases items
  {
    items.Array? && forall i :: 0 <= i < |items.items| ==> WellShapedItem(items.items[i])
  }

  ghost predicate WellShapedItem(item: Value)
    decreases item
  {
    item.Object? && (HasKey(item.fields, "item") ==> WellShaped(Get(item.fields, "item")))
  }

  /** Flattening a well-shaped collection never raises, however deep its
      folders nest. */
  lemma {:induction false} WellShapedExtracts(items: Value)
    requires WellShaped(items)
    ensures ExtractRequests(items).Success?
    decreases items
  {
    WellShapedExtractsFrom(items.items, 0);
  }

  lemma {:induction false} WellShapedExtractsFrom(elements: seq<Value>, i: nat)
    requires i <= |elements|
    requires forall j :: 0 <= j < |elements| ==> WellShapedItem(elements[j])
    ensures ExtractFrom(elements, i).Success?
    decreases elements, |elements| - i
  {
    if i < |elements| {
      var item := elements[i];
      if HasKey(item.fields, "item") {
        WellShapedExtracts(Get(item.fields, "item"));
      }
      WellShapedExtractsFrom(elements, i + 1);
    }
  }

  /** A successful collection summary counts one endpoint per
      request-bearing item, at every nesting depth. */
  lemma PostmanEndpointsAreRequestItems(content: Value)
    requires SummarizePostman(content).Success?
    ensures content.Object? && HasKey(content.fields, "item")
    ensures SummarizePostman(content).value.endpoints == |RequestPaths(Get(content.fields, "item"))|
  {
    PostmanCounts(content);
    ExtractFollowsPaths(Get(content.fields, "item"));
  }
}
