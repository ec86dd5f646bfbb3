/** The monitor in terms of docker's answers alone (dce/monitor/plugin/default/monitor.go). */
module MonitorAnswers {
  import opened PodTypes
  import opened ContainerCheck
  import opened Filter
  import opened HealthSpec
  import opened MonitorSpec
  import opened HealthAnswers

  /** Docker could not be asked, the exit code is bad, or the container runs and is unhealthy. */
  predicate Wrong(answer: Inspection, healthCheck: bool) {
    || answer.InspectError? || answer.exitCode != 0
    || (answer.running && healthCheck && answer.health == "unhealthy")
  }

  lemma {:induction false} MonitorJudgementIs(answer: Inspection, healthCheck: bool)
    ensures var r := CheckContainer(answer, healthCheck);
            && (MonitorJudge(r) == Fails <==> Wrong(answer, healthCheck))
            && (MonitorJudge(r) == Leaves <==> ExitedCleanly(answer))
            && (MonitorJudge(r) == Waits <==> !Wrong(answer, healthCheck) && !ExitedCleanly(answer))
            && (!Wrong(answer, healthCheck) ==> (Gone(r) <==> ExitedCleanly(answer)))
  {
    ReportMeaning(answer, healthCheck);
    hide CheckContainer;
  }

  // ---------------------------------------------------------------- one poll

  ghost predicate FoundWrong(s: Stage, world: World, i: nat)
    requires i < |s.left|
  {
    Wrong(Answer(s, world, i), s.left[i].containerId in s.known)
  }

  ghost predicate FoundExited(s: Stage, world: World, i: nat)
    requires i < |s.left|
  {
    ExitedCleanly(Answer(s, world, i))
  }

  ghost predicate NoneWrong(s: Stage, world: World) {
    forall i :: 0 <= i < |s.left| ==> !FoundWrong(s, world, i)
  }

  /** Every container but, perhaps, one of infra's id has exited with 0. */
  ghost predicate OthersExited(s: Stage, world: World, infraId: string) {
    forall i, j :: 0 <= i <= j < |s.left| && !FoundExited(s, world, i) && !FoundExited(s, world, j)
                   ==> i == j && s.left[i].containerId == infraId
  }

  function MonitorReportsIn(s: Stage, world: World): (rs: seq<Report>)
    ensures |rs| == |s.left|
  {
    MonitorReports(s, world, |s.left|)
  }

  lemma {:induction false} MonitorReportIs(s: Stage, world: World, i: nat)
    requires i < |s.left|
    ensures MonitorReportsIn(s, world)[i]
            == CheckContainer(Answer(s, world, i), s.left[i].containerId in s.known)
  {
    hide CheckContainer;
    assert MonitorReports(s, world, |s.left|)[i] == MonitorReport(s, world, i);
  }

  lemma {:induction false} MonitorJudged(s: Stage, world: World, i: nat)
    requires i < |s.left|
    ensures var r := MonitorReportsIn(s, world)[i];
            && (MonitorJudge(r) == Fails <==> FoundWrong(s, world, i))
            && (!FoundWrong(s, world, i) ==> (Gone(r) <==> FoundExited(s, world, i)))
  {
    hide MonitorJudge, CheckContainer, Wrong, ExitedCleanly, MonitorReportsIn, Answer, Gone;
    MonitorReportIs(s, world, i);
    MonitorJudgementIs(Answer(s, world, i), s.left[i].containerId in s.known);
  }

  /** At most one element stays, and that one is told by its position. */
  lemma {:induction false} StayAtMostOne<T>(xs: seq<T>, goes: seq<bool>, n: nat)
    requires n <= |xs| && n <= |goes|
    ensures |Stay(xs, goes, n)| <= 1 <==> forall i, j :: 0 <= i <= j < n && !goes[i] && !goes[j] ==> i == j
    ensures |Stay(xs, goes, n)| <= 1 ==> forall i :: 0 <= i < n && !goes[i] ==> Stay(xs, goes, n) == [xs[i]]
    ensures |Stay(xs, goes, n)| == 1 ==> exists i :: 0 <= i < n && !goes[i]
  {
    var picks := StayPicks(xs, goes, n);
    var ys := Stay(xs, goes, n);
    if |ys| <= 1 {
      forall i | 0 <= i < n && !goes[i] ensures ys == [xs[i]] {
        assert i in picks;
        assert picks == [i];
      }
      forall i, j | 0 <= i <= j < n && !goes[i] && !goes[j] ensures i == j {
        assert i in picks && j in picks;
        assert |picks| == 1 && picks[0] == i && picks[0] == j;
      }
      if |ys| == 1 {
        assert picks[0] in picks;
      }
    } else {
      assert picks[0] in picks && picks[1] in picks;
      assert picks[0] < picks[1] < n && !goes[picks[0]] && !goes[picks[1]];
    }
  }

  lemma {:induction false} NothingLeftIff(s: Stage, world: World, infraId: string)
    requires NoneWrong(s, world)
    ensures var left := StillThere(s.left, MonitorReportsIn(s, world), |s.left|);
            left == [] || (|left| == 1 && left[0].containerId == infraId) <==> OthersExited(s, world, infraId)
  {
    hide MonitorReportsIn, FoundWrong, FoundExited, Gone, Stay;
    var rs, n := MonitorReportsIn(s, world), |s.left|;
    var left := StillThere(s.left, rs, n);
    forall i | 0 <= i < n ensures Gone(rs[i]) <==> FoundExited(s, world, i) {
      MonitorJudged(s, world, i);
    }
    var goes := Exited(rs);
    StayAtMostOne(s.left, goes, n);
    assert forall i :: 0 <= i < n ==> (goes[i] <==> FoundExited(s, world, i));
    if |left| == 1 {
      var i :| 0 <= i < n && !goes[i];
      assert left == [s.left[i]];
    }
  }

  lemma {:induction false} NoneWrongIff(s: Stage, world: World)
    ensures NoneWrong(s, world) <==> FirstBad(MonitorReportsIn(s, world), 0) == |s.left|
    ensures var f := FirstBad(MonitorReportsIn(s, world), 0);
            && (forall i :: 0 <= i < f ==> !FoundWrong(s, world, i)) && (f < |s.left| ==> FoundWrong(s, world, f))
  {
    hide MonitorJudge, FoundWrong, MonitorReportsIn;
    var rs := MonitorReportsIn(s, world);
    forall i | 0 <= i < |s.left| ensures MonitorJudge(rs[i]) == Fails <==> FoundWrong(s, world, i) {
      MonitorJudged(s, world, i);
    }
  }

  /** What one poll comes to, from docker's answers: FAILED exactly if some container is found wrong or a service
      has nothing left but, perhaps, infra; FINISHED exactly if none is wrong and a job has; else nothing. */
  lemma {:induction false} PollEndsIff(s: Stage, world: World, infraId: string, isService: bool)
    ensures var p := PollIn(world, infraId, isService)(s);
            && (p.verdict == Failed <==> !NoneWrong(s, world) || (isService && OthersExited(s, world, infraId)))
            && (p.verdict == Finished <==> NoneWrong(s, world) && !isService && OthersExited(s, world, infraId))
            && (p.verdict == Empty <==> NoneWrong(s, world) && !OthersExited(s, world, infraId))
  {
    hide MonitorReportsIn, NoneWrong, OthersExited, StillThere, Checks, FirstBad;
    NoneWrongIff(s, world);
    ReportsOfPoll(s, world);
    if NoneWrong(s, world) {
      NothingLeftIff(s, world, infraId);
    }
  }

  lemma {:induction false} ReportsOfPoll(s: Stage, world: World)
    ensures MonitorReports(s, world, |s.left|) == MonitorReportsIn(s, world)
  {}

  /** How far the poll comes. */
  lemma {:induction false} PollStops(s: Stage, world: World, infraId: string, isService: bool)
    ensures var p, rs := PollIn(world, infraId, isService)(s), MonitorReportsIn(s, world);
            var f, m := FirstBad(rs, 0), |p.checks|;
            && m == (if f < |s.left| then f + 1 else f) && m <= |s.left| && p.checks == Checks(s.left, rs, m)
            && p.after.next == s.next + m && p.after.known == s.known
            && p.after.left == Stay(s.left, Exited(rs), f) + s.left[f..]
  {
    hide MonitorReportsIn, MonitorVerdict, Exited, Stay, MonitorJudge, Checks;
    ReportsOfPoll(s, world);
    var rs := MonitorReportsIn(s, world);
    assert StillThere(s.left, rs, |s.left|) + [] == StillThere(s.left, rs, |s.left|);
  }

  /** What one poll does: it visits the containers of its list in order, as far as the first that is found wrong,
      and keeps, in order, all but those that have exited with 0. */
  lemma {:induction false} PollVisits(s: Stage, world: World, infraId: string, isService: bool)
    returns (picks: seq<nat>)
    ensures var p, n := PollIn(world, infraId, isService)(s), |s.left|;
            var m := |p.checks|;
            && m <= n && p.after.next == s.next + m && p.after.known == s.known
            && (forall i :: 0 <= i < m - 1 ==> !FoundWrong(s, world, i)) && (NoneWrong(s, world) ==> m == n)
            && (!NoneWrong(s, world) ==> m > 0 && FoundWrong(s, world, m - 1))
            && (forall i :: 0 <= i < m
                            ==> p.checks[i] == Check(s.left[i], CheckContainer(Answer(s, world, i),
                                                                               s.left[i].containerId in s.known)))
            && PicksOut(picks, s.left, p.after.left)
            && (forall i :: 0 <= i < n ==> (i in picks <==> i >= m || !FoundExited(s, world, i)))
  {
    hide *;
    var rs, n := MonitorReportsIn(s, world), |s.left|;
    var f := FirstBad(rs, 0);
    NoneWrongIff(s, world);
    PollStops(s, world, infraId, isService);
    var p := PollIn(world, infraId, isService)(s);
    forall i | 0 <= i < n
      ensures rs[i] == CheckContainer(Answer(s, world, i), s.left[i].containerId in s.known)
      ensures !FoundWrong(s, world, i) ==> (Exited(rs)[i] <==> FoundExited(s, world, i))
      ensures FoundWrong(s, world, i) ==> !FoundExited(s, world, i)
    {
      MonitorReportIs(s, world, i);
      MonitorJudged(s, world, i);
      WrongNotExited(s, world, i);
    }
    picks := StayThenRestPicks(s.left, Exited(rs), f);
  }

  lemma {:induction false} WrongNotExited(s: Stage, world: World, i: nat)
    requires i < |s.left|
    ensures FoundWrong(s, world, i) ==> !FoundExited(s, world, i)
  {}

  // ---------------------------------------------------------------- the whole run

  /** Which poll ends the polling and how: before it no answer was wrong and more than infra was left; without a
      verdict all polls were made. */
  lemma {:induction false} PollingEndsIff(s: Stage, world: World, infraId: string, isService: bool, polls: nat)
    returns (stages: seq<Stage>)
    requires polls > 0
    ensures var poll, run := PollIn(world, infraId, isService), MonitorRun(s, world, infraId, isService, polls);
            && PollChain(poll, s, stages) && |stages| <= polls
            && (forall i :: 0 <= i < |stages| - 1
                            ==> NoneWrong(stages[i], world) && !OthersExited(stages[i], world, infraId))
            && var t := stages[|stages| - 1];
               && poll(t).after == run.after
               && (run.verdict == Failed
                   <==> !NoneWrong(t, world) || (isService && OthersExited(t, world, infraId)))
               && (run.verdict == Finished
                   <==> NoneWrong(t, world) && !isService && OthersExited(t, world, infraId))
               && (run.verdict == Empty ==> |stages| == polls)
  {
    hide PollIn, NoneWrong, OthersExited, PollAll;
    var poll := PollIn(world, infraId, isService);
    stages := FirstVerdictWins(poll, s, polls);
    forall i | 0 <= i < |stages| - 1
      ensures NoneWrong(stages[i], world) && !OthersExited(stages[i], world, infraId)
    {
      PollEndsIff(stages[i], world, infraId, isService);
    }
    PollEndsIff(stages[|stages| - 1], world, infraId, isService);
  }

  /** In whichever poll it comes to that: once all containers but, perhaps, infra have exited with 0 and none is
      wrong, the polling ends there, with POD_FINISHED for a job and POD_FAILED for a service. */
  lemma {:induction false} OthersExitedEnds(stages: seq<Stage>, world: World, infraId: string, isService: bool,
                                            polls: nat)
    requires stages != [] && PollChain(PollIn(world, infraId, isService), stages[0], stages) && |stages| <= polls
    requires var t := stages[|stages| - 1]; NoneWrong(t, world) && OthersExited(t, world, infraId)
    ensures MonitorRun(stages[0], world, infraId, isService, polls).verdict == if isService then Failed else Finished
  {
    hide PollIn, NoneWrong, OthersExited, PollAll, PollChain;
    PollEndsIff(stages[|stages| - 1], world, infraId, isService);
    VerdictEnds(PollIn(world, infraId, isService), stages, polls);
  }

  /** Entry `k` is the report on what docker answered at visit `start + k`, with a health check exactly for the
      containers for which the initial health check knew one. */
  ghost predicate ExactPolls(start: nat, end: nat, known: set<string>, checks: seq<Check>, world: World) {
    && end == start + |checks|
    && forall k :: 0 <= k < |checks|
                   ==> checks[k].report == CheckContainer(world(start + k).inspection,
                                                          checks[k].container.containerId in known)
  }

  lemma {:induction false} ExactPollsTwice(start: nat, mid: nat, end: nat, known: set<string>, a: seq<Check>,
                                           b: seq<Check>, world: World)
    requires ExactPolls(start, mid, known, a, world) && ExactPolls(mid, end, known, b, world)
    ensures ExactPolls(start, end, known, a + b, world)
  {
    hide CheckContainer;
    forall k | 0 <= k < |a + b|
      ensures (a + b)[k].report == CheckContainer(world(start + k).inspection,
                                                  (a + b)[k].container.containerId in known)
    {
      if k >= |a| {
        var i := k - |a|;
        assert b[i].report == CheckContainer(world(mid + i).inspection, b[i].container.containerId in known);
      }
    }
  }

  /** The checks of a poll, or of a run of polls, are exact, and no health check is learned. */
  ghost predicate PollsExactly(s: Stage, p: Poll, world: World) {
    ExactPolls(s.next, p.after.next, s.known, p.checks, world) && p.after.known == s.known
  }

  lemma {:induction false} PollExact(s: Stage, world: World, infraId: string, isService: bool)
    ensures PollsExactly(s, PollIn(world, infraId, isService)(s), world)
  {
    hide PollIn, CheckContainer, FoundWrong, FoundExited, NoneWrong;
    var picks := PollVisits(s, world, infraId, isService);
    var p := PollIn(world, infraId, isService)(s);
    forall k | 0 <= k < |p.checks| ensures Answer(s, world, k) == world(s.next + k).inspection {}
  }

  lemma {:induction false} PollsExactlyTwice(s: Stage, p: Poll, rest: Poll, world: World)
    requires PollsExactly(s, p, world) && PollsExactly(p.after, rest, world)
    ensures PollsExactly(s, Poll(rest.verdict, rest.after, p.checks + rest.checks), world)
  {
    hide ExactPolls;
    ExactPollsTwice(s.next, p.after.next, rest.after.next, s.known, p.checks, rest.checks, world);
  }

  lemma {:induction false} NoPollExact(s: Stage, world: World)
    ensures PollsExactly(s, Poll(Empty, s, []), world)
  {}

  lemma {:induction false} PollAllExact(poll: Stage -> Poll, s: Stage, polls: nat, world: World)
    requires forall s: Stage :: PollsExactly(s, poll(s), world)
    ensures PollsExactly(s, PollAll(poll, s, polls), world)
    decreases polls
  {
    hide PollsExactly;
    if polls == 0 {
      NoPollExact(s, world);
    } else {
      var p := poll(s);
      if p.verdict == Empty {
        PollAllExact(poll, p.after, polls - 1, world);
        PollsExactlyTwice(s, p, PollAll(poll, p.after, polls - 1), world);
      }
    }
  }

  /** Every entry of the log is the report on what docker answered at that very visit. */
  lemma {:induction false} MonitorRunExact(s: Stage, world: World, infraId: string, isService: bool, polls: nat)
    ensures PollsExactly(s, MonitorRun(s, world, infraId, isService, polls), world)
  {
    var poll := PollIn(world, infraId, isService);
    forall s: Stage ensures PollsExactly(s, poll(s), world) {
      PollExact(s, world, infraId, isService);
    }
    hide PollsExactly, PollIn;
    PollAllExact(poll, s, polls, world);
  }

  /** Some visit of the log found its container wrong. */
  ghost predicate SomeWrongVisit(start: nat, known: set<string>, checks: seq<Check>, world: World) {
    exists k :: 0 <= k < |checks| && Wrong(world(start + k).inspection, checks[k].container.containerId in known)
  }

  lemma {:induction false} BadIfWrong(start: nat, end: nat, known: set<string>, checks: seq<Check>, world: World)
    requires ExactPolls(start, end, known, checks, world)
    ensures SomeBad(checks) <==> SomeWrongVisit(start, known, checks, world)
  {
    hide MonitorJudge, CheckContainer, Wrong;
    forall k | 0 <= k < |checks|
      ensures MonitorJudge(checks[k].report) == Fails
              <==> Wrong(world(start + k).inspection, checks[k].container.containerId in known)
    {
      MonitorJudgementIs(world(start + k).inspection, checks[k].container.containerId in known);
    }
  }

  /** The verdict of the whole run, from docker's answers and the list left: POD_FAILED exactly when some visit found
      an error, a bad exit code or a running container unhealthy, or a service has nothing left but, perhaps,
      infra; POD_FINISHED exactly when no visit did and a job has. */
  lemma {:induction false} VerdictOnAnswers(s: Stage, world: World, infraId: string, isService: bool, polls: nat)
    requires polls > 0
    ensures var p := MonitorRun(s, world, infraId, isService, polls);
            var left, wrong := p.after.left, SomeWrongVisit(s.next, s.known, p.checks, world);
            var alone := left == [] || (|left| == 1 && left[0].containerId == infraId);
            && (p.verdict == Failed <==> wrong || (isService && alone))
            && (p.verdict == Finished <==> !wrong && !isService && alone)
            && (p.verdict == Empty <==> !wrong && !alone)
  {
    hide MonitorRun, SomeBad, SomeWrongVisit, ExactPolls;
    var p := MonitorRun(s, world, infraId, isService, polls);
    MonitorVerdictIff(s, world, infraId, isService, polls);
    MonitorRunExact(s, world, infraId, isService, polls);
    BadIfWrong(s.next, p.after.next, s.known, p.checks, world);
  }
}
