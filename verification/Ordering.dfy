/** Ordered selection, as an `ORDER BY ... LIMIT` query performs it. */
module Ordering {

  ghost predicate StrictOrder<T(!new)>(less: (T, T) -> bool) {
    && (forall a, b, c :: less(a, b) && less(b, c) ==> less(a, c))
    && (forall a, b :: a != b ==> less(a, b) || less(b, a))
  }

  /** `order` lists, in order, the first `limit` members of `s`. */
  ghost predicate FirstOf<T(!new)>(s: set<T>, limit: nat, less: (T, T) -> bool, order: seq<T>) {
    && |order| <= limit
    && (forall i :: 0 <= i < |order| ==> order[i] in s)
    && (forall i, j :: 0 <= i < j < |order| ==> less(order[i], order[j]))
    && (forall x :: x in s && x !in order ==> |order| == limit && forall i :: 0 <= i < |order| ==> less(order[i], x))
  }

  method Least<T(==, !new)>(s: set<T>, less: (T, T) -> bool) returns (least: T)
    requires s != {} && StrictOrder(less)
    ensures least in s && forall x :: x in s && x != least ==> less(least, x)
  {
    least :| least in s;
    var rest := s - {least};
    while rest != {}
      invariant rest <= s && least in s
      invariant forall x :: x in s && x !in rest && x != least ==> less(least, x)
      decreases |rest|
    {
      var x :| x in rest;
      if x != least && !less(least, x) {
        assert less(x, least);
        least := x;
      }
      rest := rest - {x};
    }
  }

  method FirstInOrder<T(==, !new)>(s: set<T>, limit: nat, less: (T, T) -> bool) returns (order: seq<T>)
    requires StrictOrder(less)
    ensures FirstOf(s, limit, less, order)
  {
    var left := s;
    order := [];
    while left != {} && |order| < limit
      invariant left <= s && |order| <= limit
      invariant forall i :: 0 <= i < |order| ==> order[i] in s
      invariant forall i, x :: 0 <= i < |order| && x in left ==> less(order[i], x)
      invariant forall i, j :: 0 <= i < j < |order| ==> less(order[i], order[j])
      invariant forall x :: x in s && x !in left ==> x in order
      decreases |left|
    {
      var x := Least(left, less);
      order, left := order + [x], left - {x};
    }
  }
}
