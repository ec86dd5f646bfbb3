/** Retrying with a growing pause (utils/wait/wait.go). */
module Backoff {

  /** The pauses after the first `j` failures: one interval longer each time. */
  function Slept(interval: nat, j: nat): nat {
    if j == 0 then 0 else Slept(interval, j - 1) + j * interval
  }

  lemma {:induction false} SleptIs(interval: nat, j: nat)
    ensures 2 * Slept(interval, j) == interval * (j * (j + 1))
  {
    if j == 0 {
    } else {
      SleptIs(interval, j - 1);
      Gauss(interval, j);
    }
  }

  lemma {:induction false} Gauss(interval: nat, j: nat)
    requires j > 0
    ensures interval * (j * (j + 1)) == interval * ((j - 1) * j) + 2 * (j * interval)
  {
    assert j * (j + 1) == (j - 1) * j + 2 * j;
    assert interval * (j * (j + 1)) == interval * ((j - 1) * j) + interval * (2 * j);
  }

  /** What one run of a command comes to. */
  datatype Outcome = Succeeds | AlreadyStarted | Fails

  /** The condition is run until its first success or until the retries are used up; `calls` is how often. */
  method PollRetry(retry: int, interval: nat, condition: nat -> bool) returns (ok: bool, calls: nat, slept: nat)
    ensures ok <==> exists i: nat :: i < retry && condition(i)
    ensures forall i: nat :: i < calls ==> (condition(i) <==> ok && i == calls - 1)
    ensures ok ==> calls > 0
    ensures !ok ==> calls == if retry > 0 then retry else 0
    ensures var j := if ok then calls - 1 else calls; 2 * slept == interval * (j * (j + 1))
  {
    var i := 0;
    slept := 0;
    SleptIs(interval, 0);
    while i < retry
      invariant 0 <= i && (i <= retry || i == 0)
      invariant forall k: nat :: k < i ==> !condition(k)
      invariant slept == Slept(interval, i)
    {
      if condition(i) {
        SleptIs(interval, i);
        return true, i + 1, slept;
      }
      slept := slept + (i + 1) * interval;
      i := i + 1;
    }
    SleptIs(interval, i);
    return false, i, slept;
  }

  /** A command that is already started ends the retries as a success, and so do no retries at all: then the
      error that is returned was never set. */
  method RetryCmd(retry: int, interval: nat, run: nat -> Outcome) returns (ok: bool, calls: nat, slept: nat)
    ensures ok <==> retry <= 0 || exists i: nat :: i < retry && run(i) != Fails
    ensures forall i: nat :: i < calls ==> (run(i) != Fails <==> ok && i == calls - 1)
    ensures calls == 0 <==> retry <= 0
    ensures !ok ==> calls == retry
    ensures var j := if ok && calls > 0 then calls - 1 else calls; 2 * slept == interval * (j * (j + 1))
  {
    var i := 0;
    var failed := false;
    slept := 0;
    SleptIs(interval, 0);
    while i < retry
      invariant 0 <= i && (i <= retry || i == 0)
      invariant failed <==> i > 0
      invariant forall k: nat :: k < i ==> run(k) == Fails
      invariant slept == Slept(interval, i)
    {
      var outcome := run(i);
      failed := outcome != Succeeds;
      if failed {
        if outcome == AlreadyStarted {
          SleptIs(interval, i);
          return true, i + 1, slept;
        }
        slept := slept + interval * (i + 1);
        i := i + 1;
        continue;
      }
      SleptIs(interval, i);
      return true, i + 1, slept;
    }
    SleptIs(interval, i);
    return !failed, i, slept;
  }
}
