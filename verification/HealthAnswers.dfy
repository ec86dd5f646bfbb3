/** The health check in terms of docker's answers alone: which answers end a pass and how, and what the whole check
    then comes to (utils/pod/pod.go). */
module HealthAnswers {
  import opened PodTypes
  import opened ContainerCheck
  import opened Filter
  import opened HealthSpec

  // ---------------------------------------------------------------- one answer

  /** The container has a bad exit code, or runs and is unhealthy. */
  predicate Bad(answer: Inspection, healthCheck: bool) {
    && answer.Inspected?
    && (answer.exitCode != 0 || (answer.running && healthCheck && answer.health == "unhealthy"))
  }

  predicate Well(answer: Inspection, healthCheck: bool) {
    answer.Inspected? && answer.exitCode == 0 && (healthCheck ==> answer.health == "healthy")
  }

  /** Docker could not be asked, or the container has exited with 0 and its health check was not passed. */
  predicate Away(answer: Inspection, healthCheck: bool) {
    answer.InspectError? || (answer.exitCode == 0 && !answer.running && healthCheck && answer.health != "healthy")
  }

  /** The container runs and its health check has not come to a verdict. */
  predicate Undecided(answer: Inspection, healthCheck: bool) {
    && answer.Inspected? && answer.exitCode == 0 && answer.running
    && healthCheck && answer.health != "healthy" && answer.health != "unhealthy"
  }

  /** Every answer is one of the four, and is acted on accordingly. */
  lemma {:induction false} JudgementIs(answer: Inspection, healthCheck: bool)
    ensures var j := Judge(CheckContainer(answer, healthCheck));
            && (j == Fails <==> Bad(answer, healthCheck)) && (j == Passes <==> Well(answer, healthCheck))
            && (j == Leaves <==> Away(answer, healthCheck)) && (j == Waits <==> Undecided(answer, healthCheck))
  {
    ReportMeaning(answer, healthCheck);
    hide CheckContainer;
    assert |"healthy"| != |"unhealthy"|;
  }

  // ---------------------------------------------------------------- one pass

  /** Docker is known to have a health check for the container when it is visited: it was known before, or this or
      an earlier visit of the pass to that container showed one. */
  ghost predicate HasCheck(s: Stage, world: World, i: nat)
    requires i < |s.left|
  {
    || s.left[i].containerId in s.known
    || exists j :: 0 <= j <= i && s.left[j].containerId == s.left[i].containerId && world(s.next + j).configured
  }

  function Answer(s: Stage, world: World, i: nat): Inspection {
    world(s.next + i).inspection
  }

  function ReportsIn(s: Stage, world: World): (rs: seq<Report>)
    ensures |rs| == |s.left|
  {
    Reports(s.left, s.known, world, s.next)
  }

  lemma {:induction false} ReportIs(s: Stage, world: World, i: nat)
    requires i < |s.left|
    ensures ReportsIn(s, world)[i] == CheckContainer(Answer(s, world, i), HasCheck(s, world, i))
  {
    hide CheckContainer, Known;
    var id := s.left[i].containerId;
    KnownMeans(s.left, s.known, world, s.next, i, id);
    assert ReportsUpTo(s.left, s.known, world, s.next, |s.left|)[i] == ReportAt(s.left, s.known, world, s.next, i);
  }

  ghost predicate FoundBad(s: Stage, world: World, i: nat)
    requires i < |s.left|
  {
    Bad(Answer(s, world, i), HasCheck(s, world, i))
  }

  ghost predicate FoundWell(s: Stage, world: World, i: nat)
    requires i < |s.left|
  {
    Well(Answer(s, world, i), HasCheck(s, world, i))
  }

  ghost predicate FoundAway(s: Stage, world: World, i: nat)
    requires i < |s.left|
  {
    Away(Answer(s, world, i), HasCheck(s, world, i))
  }

  ghost predicate FoundUndecided(s: Stage, world: World, i: nat)
    requires i < |s.left|
  {
    Undecided(Answer(s, world, i), HasCheck(s, world, i))
  }

  /** The last container is infra's and is undecided, and all others are away. */
  ghost predicate OnlyInfraUndecided(s: Stage, world: World, infra: Option<string>) {
    var n := |s.left|;
    && n > 0 && infra == Some(s.left[n - 1].containerId) && FoundUndecided(s, world, n - 1)
    && forall i :: 0 <= i < n - 1 ==> FoundAway(s, world, i)
  }

  lemma {:induction false} Judged(s: Stage, world: World, i: nat)
    requires i < |s.left|
    ensures var j := Judge(ReportsIn(s, world)[i]);
            && (j == Fails <==> FoundBad(s, world, i)) && (j == Passes <==> FoundWell(s, world, i))
            && (j == Leaves <==> FoundAway(s, world, i)) && (j == Waits <==> FoundUndecided(s, world, i))
  {
    hide Judge, CheckContainer, Bad, Well, Away, Undecided, ReportsIn, Answer;
    ReportIs(s, world, i);
    JudgementIs(Answer(s, world, i), HasCheck(s, world, i));
  }

  lemma {:induction false} StayLast<T>(xs: seq<T>, goes: seq<bool>, n: nat)
    requires 0 < n <= |xs| && n <= |goes| && !goes[n - 1]
    ensures |Stay(xs, goes, n)| == 1 <==> forall i :: 0 <= i < n - 1 ==> goes[i]
    ensures |Stay(xs, goes, n)| == 1 ==> Stay(xs, goes, n) == [xs[n - 1]]
  {
    StayNone(xs, goes, n - 1);
  }

  lemma {:induction false} StayNone<T>(xs: seq<T>, goes: seq<bool>, n: nat)
    requires n <= |xs| && n <= |goes|
    ensures Stay(xs, goes, n) == [] <==> forall i :: 0 <= i < n ==> goes[i]
  {
    if n == 0 {
    } else {
      StayNone(xs, goes, n - 1);
    }
  }

  lemma {:induction false} BreaksIff(s: Stage, world: World, infra: Option<string>)
    ensures OnlyInfraWaits(s.left, ReportsIn(s, world), infra) <==> OnlyInfraUndecided(s, world, infra)
    ensures OnlyInfraUndecided(s, world, infra)
            ==> Kept(s.left, ReportsIn(s, world), |s.left|) == [s.left[|s.left| - 1]]
  {
    hide ReportsIn, Judge, FoundBad, FoundWell, FoundAway, FoundUndecided;
    var rs, n := ReportsIn(s, world), |s.left|;
    forall i | 0 <= i < n
      ensures Judge(rs[i]) == Leaves <==> FoundAway(s, world, i)
      ensures Judge(rs[i]) == Waits <==> FoundUndecided(s, world, i)
    {
      Judged(s, world, i);
    }
    if n > 0 && Judge(rs[n - 1]) == Waits {
      StayLast(s.left, Leaving(rs), n);
    }
  }

  /** How a pass ends, from its reports. */
  lemma {:induction false} PassEndsOn(s: Stage, world: World, infra: Option<string>)
    ensures var p, rs, n := PassIn(world, infra)(s), ReportsIn(s, world), |s.left|;
            && (p.kind == Aborted <==> exists i :: 0 <= i < n && Judge(rs[i]) == Fails)
            && (p.kind == Broke <==> p.kind != Aborted && OnlyInfraWaits(s.left, rs, infra))
            && (p.kind != Aborted ==> p.after.left == Kept(s.left, rs, n))
            && (p.kind == Completed(|p.after.left|)
                <==> p.kind.Completed? && forall i :: 0 <= i < n ==> Judge(rs[i]) == Passes)
            && ((forall i :: 0 <= i < n ==> Judge(rs[i]) == Passes)
                ==> p.kind != Aborted && Kept(s.left, rs, n) == s.left)
  {
    var rs, n := ReportsIn(s, world), |s.left|;
    CountMatchesOnlyIfAllHealthy(s.left, rs);
    forall i | 0 <= i < n ensures Judge(rs[i]) == Passes <==> rs[i].health == Healthy {
      PassesIfHealthy(rs[i]);
    }
    hide Judge, Kept, Tally, Known, Checks, OnlyInfraWaits;
  }

  /** How a pass ends, from docker's answers: it fails exactly if some container is found bad; it is broken off
      exactly if only infra, the last in the list, is undecided and all others are away; its count meets the
      list exactly if all are well. */
  lemma {:induction false} PassEndsIff(s: Stage, world: World, infra: Option<string>)
    ensures var p, n := PassIn(world, infra)(s), |s.left|;
            && (p.kind == Aborted <==> exists i :: 0 <= i < n && FoundBad(s, world, i))
            && (p.kind == Broke <==> OnlyInfraUndecided(s, world, infra))
            && (p.kind == Broke ==> p.after.left == [s.left[n - 1]])
            && (p.kind == Completed(|p.after.left|) <==> forall i :: 0 <= i < n ==> FoundWell(s, world, i))
            && (p.kind == Completed(|p.after.left|) ==> p.after.left == s.left)
  {
    hide *;
    var rs, n := ReportsIn(s, world), |s.left|;
    PassEndsOn(s, world, infra);
    BreaksIff(s, world, infra);
    forall i | 0 <= i < n
      ensures (Judge(rs[i]) == Fails <==> FoundBad(s, world, i)) && (Judge(rs[i]) == Passes <==> FoundWell(s, world, i))
    {
      Judged(s, world, i);
    }
    UndecidedNotElse(s, world, infra);
    var p := PassIn(world, infra)(s);
    assert p.kind.Completed? || p.kind == Aborted || p.kind == Broke;
    assert (forall i :: 0 <= i < n ==> Judge(rs[i]) == Passes) <==> forall i :: 0 <= i < n ==> FoundWell(s, world, i);
  }

  lemma {:induction false} PassesIfHealthy(r: Report)
    ensures Judge(r) == Passes <==> r.health == Healthy
  {}

  lemma {:induction false} UndecidedNotElse(s: Stage, world: World, infra: Option<string>)
    ensures OnlyInfraUndecided(s, world, infra)
            ==> && (forall i :: 0 <= i < |s.left| ==> !FoundBad(s, world, i))
                && exists i :: 0 <= i < |s.left| && !FoundWell(s, world, i)
  {
    if OnlyInfraUndecided(s, world, infra) {
      var last := |s.left| - 1;
      assert 0 <= last < |s.left| && !FoundWell(s, world, last);
      forall i | 0 <= i < |s.left| ensures !FoundBad(s, world, i) {
        assert i < last ==> FoundAway(s, world, i);
      }
    }
  }

  // ---------------------------------------------------------------- what a pass visits and what it keeps

  /** The positions that stay in a list of which the first `m` were looked at. */
  lemma {:induction false} StayThenRestPicks<T>(xs: seq<T>, goes: seq<bool>, m: nat) returns (picks: seq<nat>)
    requires m <= |xs| && m <= |goes|
    ensures PicksOut(picks, xs, Stay(xs, goes, m) + xs[m..])
    ensures forall i :: 0 <= i < |xs| ==> (i in picks <==> i >= m || !goes[i])
  {
    var front := StayPicks(xs, goes, m);
    var back := seq(|xs| - m, i requires 0 <= i < |xs| - m => (m + i) as nat);
    picks := front + back;
    forall i | m <= i < |xs| ensures i in picks {
      assert back[i - m] == i;
    }
  }

  /** How far the pass comes, and what it has found by then. */
  lemma {:induction false} PassStops(s: Stage, world: World, infra: Option<string>)
    ensures var p, rs, n := PassIn(world, infra)(s), ReportsIn(s, world), |s.left|;
            var m := |p.checks|;
            && m <= n && p.checks == Checks(s.left, rs, m) && p.after.next == s.next + m
            && p.after.known == Known(s.left, s.known, world, s.next, m)
            && (forall i :: 0 <= i < m ==> (Judge(rs[i]) == Fails <==> p.kind == Aborted && i == m - 1))
            && (p.kind == Aborted ==> m > 0) && (p.kind != Aborted ==> m == n)
            && p.after.left == Kept(s.left, rs, m) + s.left[m..]
  {
    hide Judge, Tally, Known, OnlyInfraWaits, Kept, Checks, ReportsIn;
    var p, rs, n := PassIn(world, infra)(s), ReportsIn(s, world), |s.left|;
    ReportsAre(s, world);
    var f := FirstFail(rs, 0);
    if f < n {
      KeptFailed(s.left, rs, f);
    } else {
      assert s.left[n..] == [];
      assert p.after.left + [] == p.after.left;
    }
  }

  lemma {:induction false} ReportsAre(s: Stage, world: World)
    ensures Reports(s.left, s.known, world, s.next) == ReportsIn(s, world)
  {}

  /** A container that fails the pass is kept. */
  lemma {:induction false} KeptFailed(cs: seq<SvcContainer>, rs: seq<Report>, n: nat)
    requires n < |cs| && n < |rs| && Judge(rs[n]) == Fails
    ensures Kept(cs, rs, n) + cs[n..] == Kept(cs, rs, n + 1) + cs[n + 1..]
  {
    assert cs[n..] == [cs[n]] + cs[n + 1..];
  }

  /** What one pass does: it visits the containers of its list in order, as far as the first that is found bad,
      and keeps, in order, all but those found away. */
  lemma {:induction false} PassVisits(s: Stage, world: World, infra: Option<string>) returns (picks: seq<nat>)
    ensures var p, n := PassIn(world, infra)(s), |s.left|;
            var m := |p.checks|;
            && m <= n && p.after.next == s.next + m
            && (forall i :: 0 <= i < m ==> (FoundBad(s, world, i) <==> p.kind == Aborted && i == m - 1))
            && (p.kind == Aborted ==> m > 0) && (p.kind != Aborted ==> m == n)
            && (forall i :: 0 <= i < m
                            ==> p.checks[i] == Check(s.left[i],
                                                     CheckContainer(Answer(s, world, i), HasCheck(s, world, i))))
            && PicksOut(picks, s.left, p.after.left)
            && (forall i :: 0 <= i < n ==> (i in picks <==> i >= m || !FoundAway(s, world, i)))
  {
    hide *;
    var rs, n := ReportsIn(s, world), |s.left|;
    var m := |PassIn(world, infra)(s).checks|;
    PassStops(s, world, infra);
    forall i | 0 <= i < n
      ensures (Judge(rs[i]) == Fails <==> FoundBad(s, world, i)) && (Judge(rs[i]) == Leaves <==> FoundAway(s, world, i))
      ensures rs[i] == CheckContainer(Answer(s, world, i), HasCheck(s, world, i))
    {
      Judged(s, world, i);
      ReportIs(s, world, i);
    }
    KeptIsStay(s.left, rs, m);
    picks := StayThenRestPicks(s.left, Leaving(rs), m);
  }

  lemma {:induction false} KeptIsStay(cs: seq<SvcContainer>, rs: seq<Report>, n: nat)
    requires n <= |cs| && n <= |rs|
    ensures Kept(cs, rs, n) == Stay(cs, Leaving(rs), n)
  {}

  // ---------------------------------------------------------------- the log of all visits

  /** A health check for the container is known: it was before, or one of the visits to it showed one. */
  ghost predicate Learned(known: set<string>, checks: seq<Check>, world: World, start: nat, id: string) {
    id in known || exists j :: 0 <= j < |checks| && Shows(checks, world, start, id, j)
  }

  /** Entry `j` is a visit to the container that showed a health check. */
  predicate Shows(checks: seq<Check>, world: World, start: nat, id: string, j: nat)
    requires j < |checks|
  {
    checks[j].container.containerId == id && world(start + j).configured
  }

  /** It is known when entry `k` is made. */
  ghost predicate CheckKnown(known: set<string>, checks: seq<Check>, world: World, start: nat, k: nat)
    requires k < |checks|
  {
    Learned(known, checks[..k + 1], world, start, checks[k].container.containerId)
  }

  /** Entry `k` is the report on what docker answered at visit `start + k`, with the health check that was known by
      then; and what is known in the end is what was known before and what these visits showed. */
  ghost predicate Exact(start: nat, end: nat, known: set<string>, known': set<string>, checks: seq<Check>,
                        world: World) {
    && end == start + |checks|
    && (forall k :: 0 <= k < |checks|
                    ==> checks[k].report == CheckContainer(world(start + k).inspection,
                                                           CheckKnown(known, checks, world, start, k)))
    && (forall id :: id in known' <==> Learned(known, checks, world, start, id))
  }

  lemma {:induction false} KnownSoFar(s: Stage, world: World, checks: seq<Check>, k: nat)
    requires k < |checks| <= |s.left|
    requires forall i :: 0 <= i < |checks| ==> checks[i].container == s.left[i]
    ensures CheckKnown(s.known, checks, world, s.next, k) <==> HasCheck(s, world, k)
  {
    var id := s.left[k].containerId;
    forall j | 0 <= j <= k
      ensures Shows(checks[..k + 1], world, s.next, id, j)
              <==> s.left[j].containerId == id && world(s.next + j).configured
    {}
    hide Shows;
  }

  lemma {:induction false} KnownAfter(s: Stage, world: World, checks: seq<Check>, id: string)
    requires |checks| <= |s.left| && forall i :: 0 <= i < |checks| ==> checks[i].container == s.left[i]
    ensures id in Known(s.left, s.known, world, s.next, |checks|) <==> Learned(s.known, checks, world, s.next, id)
  {
    KnownMeans(s.left, s.known, world, s.next, |checks|, id);
    forall j | 0 <= j < |checks|
      ensures Shows(checks, world, s.next, id, j) <==> s.left[j].containerId == id && world(s.next + j).configured
    {}
    hide Known, Shows;
  }

  lemma {:induction false} PassExact(s: Stage, world: World, infra: Option<string>)
    ensures var p := PassIn(world, infra)(s); Exact(s.next, p.after.next, s.known, p.after.known, p.checks, world)
  {
    hide PassIn, PassOf, ReportsIn, Known, Checks, CheckContainer, CheckKnown, HasCheck, Learned, Kept, Judge, Answer;
    var p, rs := PassIn(world, infra)(s), ReportsIn(s, world);
    PassStops(s, world, infra);
    forall k | 0 <= k < |p.checks|
      ensures p.checks[k].report == CheckContainer(world(s.next + k).inspection,
                                                   CheckKnown(s.known, p.checks, world, s.next, k))
    {
      ReportIs(s, world, k);
      AnswerIs(s, world, k);
      KnownSoFar(s, world, p.checks, k);
    }
    forall id ensures id in p.after.known <==> Learned(s.known, p.checks, world, s.next, id) {
      KnownAfter(s, world, p.checks, id);
    }
  }

  lemma {:induction false} AnswerIs(s: Stage, world: World, i: nat)
    ensures Answer(s, world, i) == world(s.next + i).inspection
  {}

  lemma {:induction false} ShowsAlong(a: seq<Check>, b: seq<Check>, world: World, start: nat, id: string, j: nat)
    requires j < |a| + |b|
    ensures Shows(a + b, world, start, id, j)
            <==> if j < |a| then Shows(a, world, start, id, j) else Shows(b, world, start + |a|, id, j - |a|)
  {}

  lemma {:induction false} KnownAlong(start: nat, mid: nat, known: set<string>, mid': set<string>, a: seq<Check>,
                                      b: seq<Check>, world: World, id: string)
    requires mid == start + |a| && (id in mid' <==> Learned(known, a, world, start, id))
    ensures Learned(known, a + b, world, start, id) <==> Learned(mid', b, world, mid, id)
  {
    hide Shows;
    if Learned(known, a + b, world, start, id) && id !in known {
      var j :| 0 <= j < |a + b| && Shows(a + b, world, start, id, j);
      ShowsAlong(a, b, world, start, id, j);
    }
    if j :| 0 <= j < |a| && Shows(a, world, start, id, j) {
      ShowsAlong(a, b, world, start, id, j);
      assert Shows(a + b, world, start, id, j);
    }
    if j :| 0 <= j < |b| && Shows(b, world, mid, id, j) {
      ShowsAlong(a, b, world, start, id, |a| + j);
      assert Shows(a + b, world, start, id, |a| + j);
    }
  }

  lemma {:induction false} ExactTwice(start: nat, mid: nat, end: nat, known: set<string>, mid': set<string>,
                                      known': set<string>, a: seq<Check>, b: seq<Check>, world: World)
    requires Exact(start, mid, known, mid', a, world) && Exact(mid, end, mid', known', b, world)
    ensures Exact(start, end, known, known', a + b, world)
  {
    hide Learned, CheckContainer;
    var all := a + b;
    forall k | 0 <= k < |all|
      ensures all[k].report == CheckContainer(world(start + k).inspection, CheckKnown(known, all, world, start, k))
    {
      if k < |a| {
        assert all[..k + 1] == a[..k + 1] && all[k] == a[k];
      } else {
        var i := k - |a|;
        assert all[..k + 1] == a + b[..i + 1] && all[k] == b[i];
        KnownAlong(start, mid, known, mid', a, b[..i + 1], world, b[i].container.containerId);
        assert b[i].report == CheckContainer(world(mid + i).inspection, CheckKnown(mid', b, world, mid, i));
      }
    }
    forall id ensures id in known' <==> Learned(known, all, world, start, id) {
      KnownAlong(start, mid, known, mid', a, b, world, id);
    }
  }

  lemma {:induction false} ExactNone(start: nat, known: set<string>, world: World)
    ensures Exact(start, start, known, known, [], world)
  {}

  lemma {:induction false} RepeatExact(pass: Stage -> Pass, s: Stage, count: int, passes: nat, world: World)
    requires forall s: Stage :: Exact(s.next, pass(s).after.next, s.known, pass(s).after.known, pass(s).checks, world)
    ensures var o := Repeat(pass, s, count, passes);
            Exact(s.next, o.after.next, s.known, o.after.known, o.checks, world)
    decreases passes
  {
    hide Exact;
    if |s.left| == count || passes == 0 {
      ExactNone(s.next, s.known, world);
    } else {
      var p := pass(s);
      if p.kind.Completed? {
        var rest := Repeat(pass, p.after, p.kind.count, passes - 1);
        RepeatExact(pass, p.after, p.kind.count, passes - 1, world);
        ExactTwice(s.next, p.after.next, rest.after.next, s.known, p.after.known, rest.after.known, p.checks,
                   rest.checks, world);
      }
    }
  }

  /** Every entry of the log is the report on what docker answered at that very visit, with a health check exactly
      for the containers for which one was known before or has been shown by then. */
  lemma {:induction false} HealthRunExact(cs: seq<SvcContainer>, known: set<string>, world: World,
                                          infra: Option<string>, passes: nat)
    ensures var o := HealthRun(cs, known, world, infra, passes);
            Exact(0, o.after.next, known, o.after.known, o.checks, world)
  {
    var pass := PassIn(world, infra);
    forall s: Stage ensures Exact(s.next, pass(s).after.next, s.known, pass(s).after.known, pass(s).checks, world) {
      PassExact(s, world, infra);
    }
    hide Exact, PassIn;
    RepeatExact(pass, Stage(cs, known, 0), 0, passes, world);
  }

  // ---------------------------------------------------------------- the whole check

  /** Some visit of the log found its container bad. */
  ghost predicate SomeBadVisit(known: set<string>, checks: seq<Check>, world: World) {
    exists k :: 0 <= k < |checks| && Bad(world(k).inspection, CheckKnown(known, checks, world, 0, k))
  }

  lemma {:induction false} FailsIfBad(end: nat, known: set<string>, known': set<string>, checks: seq<Check>,
                                      world: World)
    requires Exact(0, end, known, known', checks, world)
    ensures SomeFails(checks) <==> SomeBadVisit(known, checks, world)
  {
    hide Judge, CheckContainer, Bad, Well, Away, Undecided, CheckKnown;
    forall k | 0 <= k < |checks|
      ensures Judge(checks[k].report) == Fails <==> Bad(world(k).inspection, CheckKnown(known, checks, world, 0, k))
    {
      JudgementIs(world(0 + k).inspection, CheckKnown(known, checks, world, 0, k));
    }
  }

  /** The reply, from docker's answers and what is left: POD_FAILED exactly when some visit found a bad exit code or
      a running container unhealthy, or a service has nothing left but, perhaps, infra; POD_FINISHED exactly when
      a job has; none exactly when the check is cut off. */
  lemma {:induction false} RepliesOnAnswers(cs: seq<SvcContainer>, known: set<string>, world: World,
                                            infra: Option<string>, passes: nat, isService: bool)
    ensures var o := HealthRun(cs, known, world, infra, passes);
            var left, reply := o.after.left, Reply(o, infra, isService);
            var alone := left == [] || (|left| == 1 && infra == Some(left[0].containerId));
            && (o.ending == Failing <==> SomeBadVisit(known, o.checks, world))
            && (reply == Some(Failed) <==> o.ending == Failing || (o.ending == Settled && alone && isService))
            && (reply == Some(Finished) <==> o.ending == Settled && alone && !isService)
            && (reply == Some(Running) <==> o.ending == Settled && !alone)
            && (reply == None <==> o.ending == StillChecking)
  {
    var o := HealthRun(cs, known, world, infra, passes);
    hide HealthRun, SomeFails, SomeBadVisit, Exact;
    FailingIff(cs, known, world, infra, passes);
    HealthRunExact(cs, known, world, infra, passes);
    FailsIfBad(o.after.next, known, o.after.known, o.checks, world);
  }

  /** The pass at this stage neither fails nor settles the check. */
  ghost predicate LetsGoOn(s: Stage, world: World, infra: Option<string>) {
    && (forall i :: 0 <= i < |s.left| ==> !FoundBad(s, world, i))
    && (exists i :: 0 <= i < |s.left| && !FoundWell(s, world, i))
    && !OnlyInfraUndecided(s, world, infra)
  }

  lemma {:induction false} GoesOnIff(s: Stage, world: World, infra: Option<string>)
    ensures GoesOn(PassIn(world, infra)(s)) <==> LetsGoOn(s, world, infra)
  {
    hide FoundBad, FoundWell, OnlyInfraUndecided, PassIn;
    PassEndsIff(s, world, infra);
    var p := PassIn(world, infra)(s);
    assert p.kind.Completed? || p.kind == Aborted || p.kind == Broke;
  }

  /** Which pass ends the check and how: before it no answer was bad, not all containers of the list were well, and
      not only infra was left undecided; it fails the check exactly if it finds a container bad, and settles it
      exactly if it finds all well or only infra undecided; a check that is cut off has made all its passes. */
  lemma {:induction false} CheckEndsIff(cs: seq<SvcContainer>, known: set<string>, world: World,
                                        infra: Option<string>, passes: nat) returns (stages: seq<Stage>)
    requires cs != [] && passes > 0
    ensures var pass, o := PassIn(world, infra), HealthRun(cs, known, world, infra, passes);
            && Chain(pass, Stage(cs, known, 0), stages) && o.checks == LogOf(pass, stages) && |stages| <= passes
            && (forall i :: 0 <= i < |stages| - 1 ==> LetsGoOn(stages[i], world, infra))
            && var t := stages[|stages| - 1];
               && pass(t).after == o.after
               && (o.ending == Failing <==> exists i :: 0 <= i < |t.left| && FoundBad(t, world, i))
               && (o.ending == Settled
                   <==> || (forall i :: 0 <= i < |t.left| ==> FoundWell(t, world, i))
                        || OnlyInfraUndecided(t, world, infra))
               && (o.ending == StillChecking ==> |stages| == passes)
  {
    hide Chain, LogOf, PassIn, FoundBad, FoundWell, OnlyInfraUndecided, LetsGoOn, Repeat;
    var pass, o := PassIn(world, infra), HealthRun(cs, known, world, infra, passes);
    stages := PassesOf(pass, Stage(cs, known, 0), 0, passes, o);
    NonEmpty(pass, Stage(cs, known, 0), stages);
    forall i | 0 <= i < |stages| - 1 ensures LetsGoOn(stages[i], world, infra) {
      GoesOnInChain(pass, Stage(cs, known, 0), stages, i);
      GoesOnIff(stages[i], world, infra);
    }
    PassEndsIff(stages[|stages| - 1], world, infra);
  }

  lemma {:induction false} GoesOnInChain(pass: Stage -> Pass, start: Stage, stages: seq<Stage>, i: nat)
    requires Chain(pass, start, stages) && i < |stages| - 1
    ensures GoesOn(pass(stages[i]))
  {}

  /** In whichever pass it comes to that: when only infra is left undecided and all other containers are away, the
      check settles with just infra left, and the reply is POD_FINISHED for a job and POD_FAILED for a service. */
  lemma {:induction false} OnlyInfraEnds(cs: seq<SvcContainer>, known: set<string>, world: World, infra: Option<string>,
                                         passes: nat, stages: seq<Stage>, isService: bool)
    requires cs != [] && Chain(PassIn(world, infra), Stage(cs, known, 0), stages) && |stages| <= passes
    requires OnlyInfraUndecided(stages[|stages| - 1], world, infra)
    ensures var o, t := HealthRun(cs, known, world, infra, passes), stages[|stages| - 1];
            && t.left != [] && o.ending == Settled && o.after.left == [t.left[|t.left| - 1]]
            && Reply(o, infra, isService) == Some(if isService then Failed else Finished)
  {
    hide Chain, PassIn, FoundBad, FoundWell, FoundAway, FoundUndecided;
    var pass, o := PassIn(world, infra), HealthRun(cs, known, world, infra, passes);
    NonEmpty(pass, Stage(cs, known, 0), stages);
    var t := stages[|stages| - 1];
    PassEndsIff(t, world, infra);
    var count := ChainAhead(pass, stages, 0, passes);
    assert Repeat(pass, t, count, passes - |stages| + 1).ending == Settled;
  }
}
