/** Go's iteration over a map. */
module Walk {

  /** Go walks a map in any order: each key once. */
  ghost predicate WalkOf<T(!new)>(keys: set<T>, order: seq<T>) {
    && Distinct(order)
    && (forall k :: k in order <==> k in keys)
  }

  lemma {:induction false} WalkSize<T(!new)>(keys: set<T>, order: seq<T>)
    requires WalkOf(keys, order)
    ensures |order| == |keys|
  {
    if order == [] {
      assert keys == {};
    } else {
      var n := |order| - 1;
      var rest := keys - {order[n]};
      forall k ensures k in order[..n] <==> k in rest {}
      WalkSize(rest, order[..n]);
    }
  }

  ghost predicate Distinct<T(!new)>(xs: seq<T>) {
    forall i, j :: 0 <= i < j < |xs| ==> xs[i] != xs[j]
  }

  lemma {:induction false} CountOnce<T(!new)>(xs: seq<T>, x: T)
    requires Distinct(xs)
    ensures multiset(xs)[x] == if x in xs then 1 else 0
  {
    if xs == [] {
    } else {
      var n := |xs| - 1;
      CountOnce(xs[..n], x);
      assert xs == xs[..n] + [xs[n]];
    }
  }

  /** Lists without duplicates that have the same elements are rearrangements of each other. */
  lemma {:induction false} SameElements<T(!new)>(xs: seq<T>, ys: seq<T>)
    requires Distinct(xs) && Distinct(ys) && forall x :: x in xs <==> x in ys
    ensures multiset(xs) == multiset(ys)
  {
    forall x ensures multiset(xs)[x] == multiset(ys)[x] {
      CountOnce(xs, x);
      CountOnce(ys, x);
    }
  }
}
