/** The graph of chained exceptions a cleanup failure is searched in. */
module CleanupFault {
  import opened Wrappers

  type Id = int

  /** One exception object: whether it is a `SaneCleanupError`, its text, and the two
      links Python keeps (`__cause__`, `__context__`).  Links may form cycles. */
  datatype Exn = Exn(cleanup: bool, text: string, cause: Option<Id>, context: Option<Id>)

  type Heap = map<Id, Exn>

  ghost predicate Closed(h: Heap) {
    forall x, y | x in h && Links(h, x, y) :: y in h
  }

  predicate Links(h: Heap, x: Id, y: Id)
    requires x in h
  {
    h[x].cause == Some(y) || h[x].context == Some(y)
  }

  /** `p` follows links from its first exception to its last. */
  ghost predicate Chain(h: Heap, p: seq<Id>) {
    && p != []
    && (forall i | 0 <= i < |p| :: p[i] in h)
    && (forall i | 0 <= i < |p| - 1 :: Links(h, p[i], p[i + 1]))
  }

  ghost predicate Reachable(h: Heap, x: Id, y: Id) {
    exists p :: Chain(h, p) && p[0] == x && p[|p| - 1] == y
  }

  lemma ReachableSelf(h: Heap, x: Id)
    requires x in h
    ensures Reachable(h, x, x)
  {
    assert Chain(h, [x]);
  }

  lemma ReachableLink(h: Heap, x: Id, y: Id, z: Id)
    requires Reachable(h, x, y) && z in h && Links(h, y, z)
    ensures Reachable(h, x, z)
  {
    var p :| Chain(h, p) && p[0] == x && p[|p| - 1] == y;
    var q := p + [z];
    assert forall i | 0 <= i < |q| - 1 :: Links(h, q[i], q[i + 1]);
    assert Chain(h, q);
  }

  /** A set that is closed under links and contains the start contains every chain. */
  lemma {:induction false} ClosedSetHoldsChain(h: Heap, s: set<Id>, p: seq<Id>)
    requires Chain(h, p) && p[0] in s
    requires forall x, y | x in s && x in h && Links(h, x, y) :: y in s
    ensures p[|p| - 1] in s
  {
    if |p| > 1 {
      ClosedSetHoldsChain(h, s, p[1..]);
    }
  }

  /** One exception leads to another exactly if they are the same or its cause or its
      context leads there. */
  lemma ReachableExactly(h: Heap, x: Id, y: Id)
    requires Closed(h) && x in h
    ensures Reachable(h, x, y) <==>
      || x == y
      || (h[x].cause.Some? && Reachable(h, h[x].cause.value, y))
      || (h[x].context.Some? && Reachable(h, h[x].context.value, y))
  {
    ReachableSelf(h, x);
    if Reachable(h, x, y) && x != y {
      var p :| Chain(h, p) && p[0] == x && p[|p| - 1] == y;
      assert Links(h, p[0], p[1]);
      assert Chain(h, p[1..]) && p[1..][0] == p[1] && p[1..][|p| - 2] == y;
    }
    forall z | z in h && Links(h, x, z) && Reachable(h, z, y)
      ensures Reachable(h, x, y)
    {
      var p :| Chain(h, p) && p[0] == z && p[|p| - 1] == y;
      assert Chain(h, [x] + p);
    }
    assert h[x].cause.Some? ==> Links(h, x, h[x].cause.value);
    assert h[x].context.Some? ==> Links(h, x, h[x].context.value);
  }
}
