/** The crossings of a pass, and the order in which they are replayed. */
module CrossingOrder {
  import opened Motions
  import opened ArbiterSpec

  /** Journey a crossed before journey b, or at the same instant but began earlier. */
  predicate Before(active: seq<Motion>, a: nat, b: nat)
    requires a < |active| && b < |active|
  {
    || ArrivalOvershootMs(active[a]) > ArrivalOvershootMs(active[b])
    || (ArrivalOvershootMs(active[a]) == ArrivalOvershootMs(active[b]) && a < b)
  }

  /** The journeys below n that are mid-crossing, in the order they began. */
  function Collect(active: seq<Motion>, resolved: seq<bool>, n: nat): (found: seq<nat>)
    requires n <= |active| == |resolved|
    ensures forall i :: i in found <==> i < n && Live(resolved, i) && IsEnteringNextCell(active[i])
    ensures forall p, q :: 0 <= p < q < |found| ==> found[p] < found[q]
  {
    if n == 0 then []
    else
      var rest := Collect(active, resolved, n - 1);
      if Live(resolved, n - 1) && IsEnteringNextCell(active[n - 1]) then
        assert forall p :: 0 <= p < |rest| ==> rest[p] in rest;
        rest + [n - 1]
      else rest
  }

  ghost predicate InArrivalOrder(active: seq<Motion>, order: seq<nat>) {
    && (forall p :: 0 <= p < |order| ==> order[p] < |active|)
    && (forall p, q :: 0 <= p < q < |order| ==> Before(active, order[p], order[q]))
  }

  /** Put x behind everything that crossed no later than it did. */
  function Insert(active: seq<Motion>, order: seq<nat>, x: nat): (r: seq<nat>)
    requires x < |active| && forall p :: 0 <= p < |order| ==> order[p] < |active|
    ensures forall i :: i in r <==> i in order || i == x
  {
    if order == [] then [x]
    else
      var last := order[|order| - 1];
      assert order == order[..|order| - 1] + [last];
      if ArrivalOvershootMs(active[last]) >= ArrivalOvershootMs(active[x]) then order + [x]
      else Insert(active, order[..|order| - 1], x) + [last]
  }

  lemma InsertedStayBefore(active: seq<Motion>, order: seq<nat>, x: nat, last: nat)
    requires x < |active| && last < |active| && Before(active, x, last)
    requires forall p :: 0 <= p < |order| ==> order[p] < |active| && Before(active, order[p], last)
    ensures forall p :: 0 <= p < |Insert(active, order, x)| ==>
              Insert(active, order, x)[p] < |active| && Before(active, Insert(active, order, x)[p], last)
  {
    hide Before;
    forall p | 0 <= p < |Insert(active, order, x)|
      ensures Insert(active, order, x)[p] < |active| && Before(active, Insert(active, order, x)[p], last)
    {
      var i := Insert(active, order, x)[p];
      assert i in Insert(active, order, x);
      if i != x {
        var q :| 0 <= q < |order| && order[q] == i;
      }
    }
  }

  lemma {:induction false} InsertKeepsOrder(active: seq<Motion>, order: seq<nat>, x: nat)
    requires InArrivalOrder(active, order) && x < |active|
    requires forall p :: 0 <= p < |order| ==> order[p] < x
    ensures InArrivalOrder(active, Insert(active, order, x))
  {
    var r := Insert(active, order, x);
    assert forall p :: 0 <= p < |r| ==> r[p] in r;
    if order != [] {
      var n := |order| - 1;
      var last := order[n];
      if ArrivalOvershootMs(active[last]) < ArrivalOvershootMs(active[x]) {
        var shorter := Insert(active, order[..n], x);
        InsertKeepsOrder(active, order[..n], x);
        InsertedStayBefore(active, order[..n], x, last);
      }
    }
  }

  /** A stable sort, longest overshoot first. */
  function StableSort(active: seq<Motion>, s: seq<nat>): (r: seq<nat>)
    requires forall p :: 0 <= p < |s| ==> s[p] < |active|
    ensures forall i :: i in r <==> i in s
  {
    if s == [] then []
    else
      var n := |s| - 1;
      var front := StableSort(active, s[..n]);
      assert s == s[..n] + [s[n]];
      assert forall p :: 0 <= p < |front| ==> front[p] in front;
      Insert(active, front, s[n])
  }

  lemma {:induction false} StableSortOrders(active: seq<Motion>, s: seq<nat>)
    requires forall p :: 0 <= p < |s| ==> s[p] < |active|
    requires forall p, q :: 0 <= p < q < |s| ==> s[p] < s[q]
    ensures InArrivalOrder(active, StableSort(active, s))
  {
    if s != [] {
      var n := |s| - 1;
      StableSortOrders(active, s[..n]);
      var front := StableSort(active, s[..n]);
      forall p | 0 <= p < |front|
        ensures front[p] < s[n]
      {
        assert front[p] in front;
      }
      InsertKeepsOrder(active, front, s[n]);
    }
  }

  function CrossingsByArrival(active: seq<Motion>, resolved: seq<bool>): (order: seq<nat>)
    requires |active| == |resolved|
  {
    var found := Collect(active, resolved, |active|);
    assert forall p :: 0 <= p < |found| ==> found[p] in found;
    StableSort(active, found)
  }

  /** The pass holds exactly the journeys that are mid-crossing, earliest crossing first, ties as they began. */
  lemma CrossingsAreInArrivalOrder(active: seq<Motion>, resolved: seq<bool>)
    requires |active| == |resolved|
    ensures var order := CrossingsByArrival(active, resolved);
            && InArrivalOrder(active, order)
            && (forall i :: i in order <==> i < |active| && Live(resolved, i) && IsEnteringNextCell(active[i]))
  {
    var found := Collect(active, resolved, |active|);
    assert forall p :: 0 <= p < |found| ==> found[p] in found;
    StableSortOrders(active, found);
  }
}
