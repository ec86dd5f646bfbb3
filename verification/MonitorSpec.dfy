/** What the default pod monitor decides: the `run` closure and the polling around it
    (dce/monitor/plugin/default/monitor.go, utils/wait/wait.go). */
module MonitorSpec {
  import opened PodTypes
  import opened ContainerCheck
  import opened Filter
  import opened HealthSpec

  /** The first test that applies decides. Unlike the health check, a failed inspection fails the pod. */
  function MonitorJudge(r: Report): Judgement {
    if r.failed || r.exitCode != 0 then Fails
    else if Gone(r) then Leaves
    else if r.health == Unhealthy then Fails
    else Waits
  }

  /** The monitor reads the health check list but never extends it. */
  function MonitorReport(s: Stage, world: World, i: nat): Report
    requires i < |s.left|
  {
    CheckContainer(world(s.next + i).inspection, s.left[i].containerId in s.known)
  }

  function MonitorReports(s: Stage, world: World, n: nat): (rs: seq<Report>)
    requires n <= |s.left|
    ensures |rs| == n
    ensures forall i :: 0 <= i < n ==> rs[i] == MonitorReport(s, world, i)
  {
    if n == 0 then [] else MonitorReports(s, world, n - 1) + [MonitorReport(s, world, n - 1)]
  }

  function FirstBad(rs: seq<Report>, i: nat): (f: nat)
    requires i <= |rs|
    ensures i <= f <= |rs|
    ensures forall k :: i <= k < f ==> MonitorJudge(rs[k]) != Fails
    ensures f < |rs| ==> MonitorJudge(rs[f]) == Fails
    decreases |rs| - i
  {
    if i == |rs| || MonitorJudge(rs[i]) == Fails then i else FirstBad(rs, i + 1)
  }

  function Exited(rs: seq<Report>): (goes: seq<bool>)
    ensures |goes| == |rs|
    ensures forall i :: 0 <= i < |rs| ==> goes[i] == Gone(rs[i])
  {
    seq(|rs|, i requires 0 <= i < |rs| => Gone(rs[i]))
  }

  /** The order-preserving filter of the first `n` containers by "not exited with 0". */
  function StillThere(cs: seq<SvcContainer>, rs: seq<Report>, n: nat): seq<SvcContainer>
    requires n <= |cs| && n <= |rs|
  {
    Stay(cs, Exited(rs), n)
  }

  predicate NothingLeft(left: seq<SvcContainer>, infraId: string) {
    left == [] || (|left| == 1 && left[0].containerId == infraId)
  }

  /** What a pass without failures concludes; POD_EMPTY keeps the polling going. */
  function MonitorVerdict(left: seq<SvcContainer>, infraId: string, isService: bool): PodStatus {
    if !NothingLeft(left, infraId) then Empty
    else if isService then Failed
    else Finished
  }

  datatype Poll = Poll(verdict: PodStatus, after: Stage, checks: seq<Check>)

  function PollOf(s: Stage, rs: seq<Report>, infraId: string, isService: bool): Poll
    requires |rs| == |s.left|
  {
    var n, f := |s.left|, FirstBad(rs, 0);
    if f < n then
      Poll(Failed, Stage(StillThere(s.left, rs, f) + s.left[f..], s.known, s.next + f + 1), Checks(s.left, rs, f + 1))
    else
      Poll(MonitorVerdict(StillThere(s.left, rs, n), infraId, isService),
           Stage(StillThere(s.left, rs, n), s.known, s.next + n), Checks(s.left, rs, n))
  }

  function PollIn(world: World, infraId: string, isService: bool): Stage -> Poll {
    (s: Stage) => PollOf(s, MonitorReports(s, world, |s.left|), infraId, isService)
  }

  /** `PollForever`, cut off after `polls` ticks: it returns the first non-empty verdict. */
  function PollAll(poll: Stage -> Poll, s: Stage, polls: nat): Poll
    decreases polls
  {
    if polls == 0 then Poll(Empty, s, [])
    else
      var p := poll(s);
      if p.verdict != Empty then p
      else
        var rest := PollAll(poll, p.after, polls - 1);
        Poll(rest.verdict, rest.after, p.checks + rest.checks)
  }

  function MonitorRun(s: Stage, world: World, infraId: string, isService: bool, polls: nat): Poll {
    PollAll(PollIn(world, infraId, isService), s, polls)
  }

  // ---------------------------------------------------------------- one pass

  /** The pass fails exactly when some check does, or when a service has nothing left; it finishes exactly
      when a job has nothing left and no check failed. */
  lemma {:induction false} PollVerdict(s: Stage, rs: seq<Report>, infraId: string, isService: bool)
    requires |rs| == |s.left|
    ensures var p := PollOf(s, rs, infraId, isService);
            var bad := exists i :: 0 <= i < |rs| && MonitorJudge(rs[i]) == Fails;
            && (p.verdict == Failed <==> bad || (isService && NothingLeft(p.after.left, infraId)))
            && (p.verdict == Finished <==> !bad && !isService && NothingLeft(p.after.left, infraId))
            && (p.verdict == Failed || p.verdict == Finished || p.verdict == Empty)
  {}

  // ---------------------------------------------------------------- what every pass keeps

  function MonitorRemoved(checks: seq<Check>): seq<SvcContainer> {
    if checks == [] then []
    else if MonitorJudge(checks[|checks| - 1].report) == Leaves
    then MonitorRemoved(checks[..|checks| - 1]) + [checks[|checks| - 1].container]
    else MonitorRemoved(checks[..|checks| - 1])
  }

  lemma {:induction false} MonitorRemovedAppend(a: seq<Check>, b: seq<Check>)
    ensures MonitorRemoved(a + b) == MonitorRemoved(a) + MonitorRemoved(b)
  {
    if b == [] {
      assert a + b == a;
    } else {
      MonitorRemovedAppend(a, b[..|b| - 1]);
      assert (a + b)[..|a + b| - 1] == a + b[..|b| - 1];
    }
  }

  lemma {:induction false} MonitorRemovedOne(cs: seq<SvcContainer>, rs: seq<Report>, n: nat)
    requires n < |cs| && n < |rs|
    ensures MonitorRemoved(Checks(cs, rs, n + 1))
            == MonitorRemoved(Checks(cs, rs, n)) + if MonitorJudge(rs[n]) == Leaves then [cs[n]] else []
  {
    assert Checks(cs, rs, n + 1)[..n] == Checks(cs, rs, n);
  }

  lemma {:induction false} NothingRemoved(cs: seq<SvcContainer>, rs: seq<Report>)
    ensures MonitorRemoved(Checks(cs, rs, 0)) == [] && Go(cs, Exited(rs), 0) == []
  {}

  lemma {:induction false} LeavesIfGone(r: Report)
    requires MonitorJudge(r) != Fails
    ensures MonitorJudge(r) == Leaves <==> Gone(r)
  {}

  lemma {:induction false} MonitorRemovedIsGone(cs: seq<SvcContainer>, rs: seq<Report>, n: nat)
    requires n <= |cs| && n <= |rs| && forall i :: 0 <= i < n ==> MonitorJudge(rs[i]) != Fails
    ensures MonitorRemoved(Checks(cs, rs, n)) == Go(cs, Exited(rs), n)
  {
    hide *;
    if n == 0 {
      NothingRemoved(cs, rs);
    } else {
      MonitorRemovedIsGone(cs, rs, n - 1);
      LeavesIfGone(rs[n - 1]);
      MonitorRemovedOne(cs, rs, n - 1);
      GoOne(cs, Exited(rs), n - 1);
    }
  }

  /** What one pass promises the next: nothing is lost, and a verdict that ends the polling means what it says. */
  ghost predicate Faithful(s: Stage, p: Poll, world: World, infraId: string, isService: bool) {
    && Splits(s.left, p.after.left, MonitorRemoved(p.checks))
    && Logs(s.next, p.after.next, p.checks, world)
    && Honest(s, p, infraId, isService)
  }

  predicate Honest(s: Stage, p: Poll, infraId: string, isService: bool) {
    && p.after.known == s.known
    && (p.verdict == Finished ==> !isService && NothingLeft(p.after.left, infraId))
    && (p.verdict == Failed || p.verdict == Finished || p.verdict == Empty)
  }

  lemma {:induction false} PollConserves(s: Stage, rs: seq<Report>, infraId: string, isService: bool)
    requires |rs| == |s.left|
    ensures var p := PollOf(s, rs, infraId, isService); Splits(s.left, p.after.left, MonitorRemoved(p.checks))
  {
    var f := FirstBad(rs, 0);
    StayAndGo(s.left, Exited(rs), f);
    MonitorRemovedIsGone(s.left, rs, f);
    SplitsWithRest(s.left, StillThere(s.left, rs, f), Go(s.left, Exited(rs), f), f);
    if f < |s.left| {
      MonitorRemovedOne(s.left, rs, f);
    }
  }

  lemma {:induction false} PollLogs(s: Stage, world: World, infraId: string, isService: bool)
    ensures var p := PollIn(world, infraId, isService)(s); Logs(s.next, p.after.next, p.checks, world)
  {
    var rs := MonitorReports(s, world, |s.left|);
    var p := PollOf(s, rs, infraId, isService);
    forall i | 0 <= i < |p.checks| ensures Observed(p.checks[i], world, s.next + i) {
      assert p.checks[i].report == rs[i];
    }
  }

  lemma {:induction false} PollFaithful(s: Stage, world: World, infraId: string, isService: bool)
    ensures Faithful(s, PollIn(world, infraId, isService)(s), world, infraId, isService)
  {
    var rs := MonitorReports(s, world, |s.left|);
    PollConserves(s, rs, infraId, isService);
    PollLogs(s, world, infraId, isService);
    PollHonest(s, rs, infraId, isService);
  }

  lemma {:induction false} PollHonest(s: Stage, rs: seq<Report>, infraId: string, isService: bool)
    requires |rs| == |s.left|
    ensures Honest(s, PollOf(s, rs, infraId, isService), infraId, isService)
  {}

  lemma {:induction false} PollAllFaithful(poll: Stage -> Poll, s: Stage, polls: nat,
                                           world: World, infraId: string, isService: bool)
    requires forall s: Stage :: Faithful(s, poll(s), world, infraId, isService)
    ensures Faithful(s, PollAll(poll, s, polls), world, infraId, isService)
    decreases polls
  {
    if polls == 0 {
    } else {
      var p := poll(s);
      assert Faithful(s, p, world, infraId, isService);
      if p.verdict == Empty {
        var rest := PollAll(poll, p.after, polls - 1);
        PollAllFaithful(poll, p.after, polls - 1, world, infraId, isService);
        MonitorRemovedAppend(p.checks, rest.checks);
        SplitsTwice(s.left, p.after.left, MonitorRemoved(p.checks), rest.after.left, MonitorRemoved(rest.checks));
        LogsTwice(s.next, p.after.next, rest.after.next, p.checks, rest.checks, world);
      }
    }
  }

  /** Over the whole polling run nothing is lost, a service is never reported finished, and a finished job
      has nothing left but, perhaps, the infra container. */
  lemma {:induction false} MonitorRunFaithful(s: Stage, world: World, infraId: string, isService: bool, polls: nat)
    ensures Faithful(s, MonitorRun(s, world, infraId, isService, polls), world, infraId, isService)
  {
    forall s: Stage ensures Faithful(s, PollIn(world, infraId, isService)(s), world, infraId, isService) {
      PollFaithful(s, world, infraId, isService);
    }
    PollAllFaithful(PollIn(world, infraId, isService), s, polls, world, infraId, isService);
  }

  // ---------------------------------------------------------------- what a verdict means

  /** Some check failed, found a bad exit code, or found a running container unhealthy. */
  ghost predicate SomeBad(checks: seq<Check>) {
    exists i :: 0 <= i < |checks| && MonitorJudge(checks[i].report) == Fails
  }

  lemma {:induction false} SomeBadAlong(a: seq<Check>, b: seq<Check>)
    ensures SomeBad(a + b) <==> SomeBad(a) || SomeBad(b)
  {
    var all := a + b;
    forall i | 0 <= i < |a| ensures all[i] == a[i] {}
    forall i | 0 <= i < |b| ensures all[|a| + i] == b[i] {}
    if SomeBad(all) {
      var i :| 0 <= i < |all| && MonitorJudge(all[i].report) == Fails;
      assert i >= |a| ==> all[i] == b[i - |a|];
    }
  }

  /** The verdict of a pass or of a whole run, from its checks and what it leaves. */
  ghost predicate VerdictMeans(p: Poll, infraId: string, isService: bool) {
    var none := NothingLeft(p.after.left, infraId);
    && (p.verdict == Failed <==> SomeBad(p.checks) || (isService && none))
    && (p.verdict == Finished <==> !SomeBad(p.checks) && !isService && none)
    && (p.verdict == Failed || p.verdict == Finished || p.verdict == Empty)
  }

  lemma {:induction false} PollMeans(s: Stage, rs: seq<Report>, infraId: string, isService: bool)
    requires |rs| == |s.left|
    ensures VerdictMeans(PollOf(s, rs, infraId, isService), infraId, isService)
  {
    hide MonitorJudge, StillThere, NothingLeft;
    var f := FirstBad(rs, 0);
    if f < |rs| {
      assert MonitorJudge(Checks(s.left, rs, f + 1)[f].report) == Fails;
    }
  }

  lemma {:induction false} PollAllMeans(poll: Stage -> Poll, s: Stage, polls: nat, infraId: string, isService: bool)
    requires polls > 0 && forall s: Stage :: VerdictMeans(poll(s), infraId, isService)
    ensures VerdictMeans(PollAll(poll, s, polls), infraId, isService)
    decreases polls
  {
    hide SomeBad, NothingLeft;
    var p := poll(s);
    if p.verdict != Empty {
    } else {
      var rest := PollAll(poll, p.after, polls - 1);
      SomeBadAlong(p.checks, rest.checks);
      if polls > 1 {
        PollAllMeans(poll, p.after, polls - 1, infraId, isService);
      } else {
        NoneBad();
      }
    }
  }

  lemma {:induction false} NoneBad()
    ensures !SomeBad([])
  {}

  /** After at least one poll: POD_FAILED exactly when some check of the whole run was bad or a service has
      nothing left but, perhaps, infra; POD_FINISHED exactly when no check was bad and a job has nothing left. */
  lemma {:induction false} MonitorVerdictIff(s: Stage, world: World, infraId: string, isService: bool, polls: nat)
    requires polls > 0
    ensures VerdictMeans(MonitorRun(s, world, infraId, isService, polls), infraId, isService)
  {
    var poll := PollIn(world, infraId, isService);
    forall s: Stage ensures VerdictMeans(poll(s), infraId, isService) {
      PollMeans(s, MonitorReports(s, world, |s.left|), infraId, isService);
    }
    hide VerdictMeans, PollOf;
    PollAllMeans(poll, s, polls, infraId, isService);
  }

  // ---------------------------------------------------------------- the list only shrinks

  lemma {:induction false} PollShrinks(s: Stage, rs: seq<Report>, infraId: string, isService: bool)
    requires |rs| == |s.left|
    ensures Subsequence(PollOf(s, rs, infraId, isService).after.left, s.left)
  {
    var f := FirstBad(rs, 0);
    StayThenRest(s.left, Exited(rs), f);
    if f == |s.left| {
      assert StillThere(s.left, rs, f) + s.left[f..] == StillThere(s.left, rs, f);
    }
  }

  lemma {:induction false} PollAllShrinks(poll: Stage -> Poll, s: Stage, polls: nat)
    requires forall s: Stage :: Subsequence(poll(s).after.left, s.left)
    ensures Subsequence(PollAll(poll, s, polls).after.left, s.left)
    decreases polls
  {
    if polls == 0 {
      SubsequenceRefl(s.left);
    } else {
      var p := poll(s);
      assert Subsequence(p.after.left, s.left);
      if p.verdict == Empty {
        PollAllShrinks(poll, p.after, polls - 1);
        SubsequenceTrans(PollAll(poll, p.after, polls - 1).after.left, p.after.left, s.left);
      }
    }
  }

  lemma {:induction false} MonitorRunShrinks(s: Stage, world: World, infraId: string, isService: bool, polls: nat)
    ensures Subsequence(MonitorRun(s, world, infraId, isService, polls).after.left, s.left)
  {
    var poll := PollIn(world, infraId, isService);
    forall s: Stage ensures Subsequence(poll(s).after.left, s.left) {
      PollShrinks(s, MonitorReports(s, world, |s.left|), infraId, isService);
    }
    PollAllShrinks(poll, s, polls);
  }

  /** The stages at which the polls of a run began: each but the last came to no verdict. */
  ghost predicate PollChain(poll: Stage -> Poll, start: Stage, stages: seq<Stage>) {
    && stages != [] && stages[0] == start
    && forall i :: 0 <= i < |stages| - 1
                   ==> poll(stages[i]).verdict == Empty && poll(stages[i]).after == stages[i + 1]
  }

  lemma {:induction false} PollChainOn(poll: Stage -> Poll, s: Stage, rest: seq<Stage>)
    requires poll(s).verdict == Empty && PollChain(poll, poll(s).after, rest)
    ensures PollChain(poll, s, [s] + rest)
  {}

  /** The verdict of the run is that of its first poll with a verdict; every earlier poll had none. Without a
      verdict all polls were made. */
  lemma {:induction false} FirstVerdictWins(poll: Stage -> Poll, s: Stage, polls: nat) returns (stages: seq<Stage>)
    requires polls > 0
    ensures PollChain(poll, s, stages) && |stages| <= polls
    ensures var last, p := poll(stages[|stages| - 1]), PollAll(poll, s, polls);
            last.verdict == p.verdict && last.after == p.after && (p.verdict == Empty ==> |stages| == polls)
    decreases polls
  {
    if poll(s).verdict != Empty || polls == 1 {
      stages := [s];
    } else {
      var rest := FirstVerdictWins(poll, poll(s).after, polls - 1);
      PollChainOn(poll, s, rest);
      stages := [s] + rest;
    }
  }

  /** A poll that comes to a verdict ends the run there. */
  lemma {:induction false} VerdictEnds(poll: Stage -> Poll, stages: seq<Stage>, polls: nat)
    requires stages != [] && PollChain(poll, stages[0], stages) && |stages| <= polls
    requires poll(stages[|stages| - 1]).verdict != Empty
    ensures var last, p := poll(stages[|stages| - 1]), PollAll(poll, stages[0], polls);
            p.verdict == last.verdict && p.after == last.after
    decreases |stages|
  {
    if |stages| == 1 {
    } else {
      var s := stages[0];
      assert poll(s).verdict == Empty && poll(s).after == stages[1];
      assert PollChain(poll, stages[1], stages[1..]) by {
        forall i | 0 <= i < |stages[1..]| - 1
          ensures poll(stages[1..][i]).verdict == Empty && poll(stages[1..][i]).after == stages[1..][i + 1]
        {
          assert poll(stages[i + 1]).verdict == Empty && poll(stages[i + 1]).after == stages[i + 2];
        }
      }
      VerdictEnds(poll, stages[1..], polls - 1);
    }
  }
}
