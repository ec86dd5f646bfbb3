/** Splitting a list, in order, into what stays and what goes. */
module Filter {

  /** Of the first `n` elements, those not marked to go. */
  function Stay<T>(xs: seq<T>, goes: seq<bool>, n: nat): seq<T>
    requires n <= |xs| && n <= |goes|
  {
    if n == 0 then []
    else if goes[n - 1] then Stay(xs, goes, n - 1)
    else Stay(xs, goes, n - 1) + [xs[n - 1]]
  }

  /** Of the first `n` elements, those marked to go. */
  function Go<T>(xs: seq<T>, goes: seq<bool>, n: nat): seq<T>
    requires n <= |xs| && n <= |goes|
  {
    if n == 0 then []
    else if goes[n - 1] then Go(xs, goes, n - 1) + [xs[n - 1]]
    else Go(xs, goes, n - 1)
  }

  lemma {:induction false} StayOne<T>(xs: seq<T>, goes: seq<bool>, n: nat)
    requires n < |xs| && n < |goes|
    ensures Stay(xs, goes, n + 1) == if goes[n] then Stay(xs, goes, n) else Stay(xs, goes, n) + [xs[n]]
  {}

  lemma {:induction false} GoOne<T>(xs: seq<T>, goes: seq<bool>, n: nat)
    requires n < |xs| && n < |goes|
    ensures Go(xs, goes, n + 1) == if goes[n] then Go(xs, goes, n) + [xs[n]] else Go(xs, goes, n)
    ensures Go(xs, goes, 0) == []
  {}

  /** `xs` is, as a bag, `ys` and `zs` together. */
  ghost predicate Splits<T>(xs: seq<T>, ys: seq<T>, zs: seq<T>) {
    multiset(xs) == multiset(ys) + multiset(zs)
  }

  lemma {:induction false} StayAndGo<T>(xs: seq<T>, goes: seq<bool>, n: nat)
    requires n <= |xs| && n <= |goes|
    ensures Splits(xs[..n], Stay(xs, goes, n), Go(xs, goes, n))
  {
    hide *;
    if n == 0 {
      NothingSplits(xs, goes);
    } else {
      StayAndGo(xs, goes, n - 1);
      StayOne(xs, goes, n - 1);
      GoOne(xs, goes, n - 1);
      SplitsOneMore(xs, Stay(xs, goes, n - 1), Go(xs, goes, n - 1), n - 1);
    }
  }

  lemma {:induction false} NothingSplits<T>(xs: seq<T>, goes: seq<bool>)
    ensures Splits(xs[..0], Stay(xs, goes, 0), Go(xs, goes, 0))
  {
    assert xs[..0] == [];
  }

  /** The next element goes to either side. */
  lemma {:induction false} SplitsOneMore<T>(xs: seq<T>, ys: seq<T>, zs: seq<T>, n: nat)
    requires n < |xs| && Splits(xs[..n], ys, zs)
    ensures Splits(xs[..n + 1], ys + [xs[n]], zs) && Splits(xs[..n + 1], ys, zs + [xs[n]])
  {
    assert xs[..n + 1] == xs[..n] + [xs[n]];
  }

  lemma {:induction false} StayAll<T>(xs: seq<T>, goes: seq<bool>, n: nat)
    requires n <= |xs| && n <= |goes| && forall i :: 0 <= i < n ==> !goes[i]
    ensures Stay(xs, goes, n) == xs[..n]
  {
    if n == 0 {
    } else {
      StayAll(xs, goes, n - 1);
    }
  }

  lemma {:induction false} SplitsWithRest<T>(xs: seq<T>, ys: seq<T>, zs: seq<T>, f: nat)
    requires f <= |xs| && Splits(xs[..f], ys, zs)
    ensures Splits(xs, ys + xs[f..], zs)
  {
    assert xs == xs[..f] + xs[f..];
  }

  lemma {:induction false} SplitsTwice<T>(xs: seq<T>, ys: seq<T>, zs: seq<T>, ys': seq<T>, zs': seq<T>)
    requires Splits(xs, ys, zs) && Splits(ys, ys', zs')
    ensures Splits(xs, ys', zs + zs')
  {}

  lemma {:induction false} SplitsMember<T>(xs: seq<T>, ys: seq<T>, zs: seq<T>, x: T)
    requires Splits(xs, ys, zs) && x in xs
    ensures x in ys || x in zs
  {
    assert x in multiset(xs);
    assert x in multiset(ys) || x in multiset(zs);
  }

  // ---------------------------------------------------------------- order

  /** `picks` are the positions, in order, at which the elements of `ys` stand in `xs`. */
  ghost predicate PicksOut<T>(picks: seq<nat>, xs: seq<T>, ys: seq<T>) {
    && |picks| == |ys|
    && (forall i :: 0 <= i < |picks| ==> picks[i] < |xs| && xs[picks[i]] == ys[i])
    && (forall i, j :: 0 <= i < j < |picks| ==> picks[i] < picks[j])
  }

  lemma {:induction false} PickOneMore<T>(picks: seq<nat>, xs: seq<T>, ys: seq<T>, n: nat)
    requires PicksOut(picks, xs, ys) && n < |xs|
    requires forall i :: 0 <= i < |picks| ==> picks[i] < n
    ensures PicksOut(picks + [n], xs, ys + [xs[n]])
  {}

  /** What stays is exactly what was not marked, in its old order. */
  lemma {:induction false} StayPicks<T>(xs: seq<T>, goes: seq<bool>, n: nat) returns (picks: seq<nat>)
    requires n <= |xs| && n <= |goes|
    ensures PicksOut(picks, xs, Stay(xs, goes, n))
    ensures forall i :: 0 <= i < |picks| ==> picks[i] < n
    ensures forall i :: 0 <= i < n ==> (i in picks <==> !goes[i])
  {
    picks := [];
    for m := 0 to n
      invariant PicksOut(picks, xs, Stay(xs, goes, m))
      invariant forall i :: 0 <= i < |picks| ==> picks[i] < m
      invariant forall i :: 0 <= i < m ==> (i in picks <==> !goes[i])
    {
      if !goes[m] {
        PickOneMore(picks, xs, Stay(xs, goes, m), m);
        picks := picks + [m];
      }
    }
  }

  ghost predicate Subsequence<T>(ys: seq<T>, xs: seq<T>) {
    exists picks :: PicksOut(picks, xs, ys)
  }

  lemma {:induction false} SubsequenceTrans<T>(zs: seq<T>, ys: seq<T>, xs: seq<T>)
    requires Subsequence(zs, ys) && Subsequence(ys, xs)
    ensures Subsequence(zs, xs)
  {
    var p :| PicksOut(p, ys, zs);
    var q :| PicksOut(q, xs, ys);
    var r := seq(|p|, i requires 0 <= i < |p| => q[p[i]]);
    assert PicksOut(r, xs, zs);
  }

  lemma {:induction false} SubsequenceRefl<T>(xs: seq<T>)
    ensures Subsequence(xs, xs)
  {
    assert PicksOut(seq(|xs|, i requires 0 <= i < |xs| => i as nat), xs, xs);
  }

  /** A filtered prefix with the untouched rest is still a subsequence. */
  lemma {:induction false} StayThenRest<T>(xs: seq<T>, goes: seq<bool>, f: nat)
    requires f <= |xs| && f <= |goes|
    ensures Subsequence(Stay(xs, goes, f) + xs[f..], xs)
  {
    var picks := StayPicks(xs, goes, f);
    var more := picks + seq(|xs| - f, i requires 0 <= i < |xs| - f => (f + i) as nat);
    assert PicksOut(more, xs, Stay(xs, goes, f) + xs[f..]);
  }

  /** Deleting in place, as `append(xs[:i], xs[i+1:]...)` does. */
  function Delete<T>(xs: seq<T>, i: nat): (ys: seq<T>)
    requires i < |xs|
    ensures |ys| == |xs| - 1
  {
    xs[..i] + xs[i + 1..]
  }
}
