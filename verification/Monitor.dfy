/** The default pod monitor as it runs: each poll deletes from the pod's list while indexing it
    (dce/monitor/plugin/default/monitor.go). */
module Monitor {
  import opened PodTypes
  import opened ContainerCheck
  import opened Filter
  import opened HealthSpec
  import opened MonitorSpec
  import opened HealthCheck

  function PollReports(s: Stage, world: World): (rs: seq<Report>)
    ensures |rs| == |s.left|
  {
    MonitorReports(s, world, |s.left|)
  }

  /** After judging the first `j` containers of stage `s`: the list is what stays of them and all that
      follows, and the index stands behind the part that stays. */
  ghost predicate MidPoll(s: Stage, rs: seq<Report>, j: nat, list: seq<SvcContainer>, i: int) {
    && |rs| == |s.left| && j <= |s.left|
    && list == StillThere(s.left, rs, j) + s.left[j..] && i == |StillThere(s.left, rs, j)|
    && (forall k :: 0 <= k < j ==> MonitorJudge(rs[k]) != Fails)
  }

  lemma {:induction false} MidPollStarts(s: Stage, rs: seq<Report>)
    requires |rs| == |s.left|
    ensures MidPoll(s, rs, 0, s.left, 0)
  {}

  lemma {:induction false} MidPollHead(s: Stage, rs: seq<Report>, j: nat, list: seq<SvcContainer>, i: int)
    requires MidPoll(s, rs, j, list, i)
    ensures 0 <= i && (i < |list| <==> j < |s.left|)
    ensures j < |s.left| ==> list[i] == s.left[j]
    ensures j == |s.left| ==> list == StillThere(s.left, rs, j)
  {}

  lemma {:induction false} MidPollStays(s: Stage, rs: seq<Report>, j: nat, list: seq<SvcContainer>, i: int)
    requires MidPoll(s, rs, j, list, i) && j < |s.left| && MonitorJudge(rs[j]) == Waits
    ensures MidPoll(s, rs, j + 1, list, i + 1)
  {}

  lemma {:induction false} MidPollLeaves(s: Stage, rs: seq<Report>, j: nat, list: seq<SvcContainer>, i: int)
    requires MidPoll(s, rs, j, list, i) && j < |s.left| && MonitorJudge(rs[j]) == Leaves
    ensures i < |list| && MidPoll(s, rs, j + 1, Delete(list, i), i)
  {
    assert list[i + 1..] == s.left[j + 1..];
  }

  lemma {:induction false} FirstBadIs(rs: seq<Report>, j: nat)
    requires j <= |rs| && forall k :: 0 <= k < j ==> MonitorJudge(rs[k]) != Fails
    requires j < |rs| ==> MonitorJudge(rs[j]) == Fails
    ensures FirstBad(rs, 0) == j
  {}

  lemma {:induction false} MidPollFails(s: Stage, world: World, j: nat, list: seq<SvcContainer>, i: int,
                                        infraId: string, isService: bool)
    requires MidPoll(s, PollReports(s, world), j, list, i)
    requires j < |s.left| && MonitorJudge(PollReports(s, world)[j]) == Fails
    ensures PollIn(world, infraId, isService)(s)
            == Poll(Failed, Stage(list, s.known, s.next + j + 1), Checks(s.left, PollReports(s, world), j + 1))
  {
    FirstBadIs(PollReports(s, world), j);
  }

  lemma {:induction false} MidPollEnds(s: Stage, world: World, list: seq<SvcContainer>, i: int,
                                       infraId: string, isService: bool)
    requires MidPoll(s, PollReports(s, world), |s.left|, list, i)
    ensures PollIn(world, infraId, isService)(s)
            == Poll(MonitorVerdict(list, infraId, isService), Stage(list, s.known, s.next + |s.left|),
                    Checks(s.left, PollReports(s, world), |s.left|))
  {
    FirstBadIs(PollReports(s, world), |s.left|);
  }

  lemma {:induction false} TestsMonitorJudge(r: Report)
    ensures MonitorJudge(r) == if r.failed || r.exitCode != 0 then Fails
                               else if r.exitCode == 0 && !r.running then Leaves
                               else if r.health == Unhealthy then Fails
                               else Waits
  {}

  lemma {:induction false} ReportOf(s: Stage, world: World, j: nat)
    requires j < |s.left|
    ensures PollReports(s, world)[j] == CheckContainer(world(s.next + j).inspection, s.left[j].containerId in s.known)
  {
    assert PollReports(s, world)[j] == MonitorReport(s, world, j);
  }

  // ---------------------------------------------------------------- from poll to poll

  function PollAlong(done: seq<Check>, p: Poll): Poll {
    Poll(p.verdict, p.after, done + p.checks)
  }

  lemma {:induction false} OnePollOn(done: seq<Check>, poll: Stage -> Poll, s: Stage, polls: nat)
    requires polls > 0
    ensures var p := poll(s);
            PollAlong(done, PollAll(poll, s, polls))
            == if p.verdict == Empty then PollAlong(done + p.checks, PollAll(poll, p.after, polls - 1))
               else Poll(p.verdict, p.after, done + p.checks)
  {
    var p := poll(s);
    if p.verdict == Empty {
      var rest := PollAll(poll, p.after, polls - 1);
      assert done + (p.checks + rest.checks) == done + p.checks + rest.checks;
    }
  }

  lemma {:induction false} NoPollOn(done: seq<Check>, poll: Stage -> Poll, s: Stage)
    ensures PollAlong(done, PollAll(poll, s, 0)) == Poll(Empty, s, done)
  {
    assert done + [] == done;
  }

  lemma {:induction false} FirstPoll(s: Stage, world: World, infraId: string, isService: bool, polls: nat)
    ensures PollAlong([], PollAll(PollIn(world, infraId, isService), s, polls))
            == MonitorRun(s, world, infraId, isService, polls)
  {}

  class DefaultMonitor {
    const pod: PodMonitor

    constructor (pod: PodMonitor)
      ensures this.pod == pod
    {
      this.pod := pod;
    }

    /** Where the monitor stands when it has made `t` visits to docker. */
    function At(t: nat): Stage
      reads pod
    {
      Stage(pod.monitorContainerList, pod.KnownIds(), t)
    }

    /** The monitor inspects a container as the health check left it known. */
    method Inspect(c: SvcContainer, probe: Probe) returns (r: Report)
      ensures r == CheckContainer(probe.inspection, c.containerId in pod.KnownIds())
    {
      var hc := c.containerId in pod.healthCheckListId && pod.healthCheckListId[c.containerId];
      r := CheckContainer(probe.inspection, hc);
    }

    /** What a pass that found nothing wrong concludes. */
    method Conclude(infraId: string, isService: bool) returns (status: PodStatus)
      ensures status == MonitorVerdict(pod.monitorContainerList, infraId, isService)
    {
      var list := pod.monitorContainerList;
      if isService {
        if |list| == 0 { return Failed; }
        if |list| == 1 && list[0].containerId == infraId { return Failed; }
      } else {
        if |list| == 0 { return Finished; }
        if |list| == 1 && list[0].containerId == infraId { return Finished; }
      }
      return Empty;
    }

    /** The `run` closure: one pass over the pod's own list. */
    method Run(infraId: string, isService: bool, world: World, t: nat)
      returns (status: PodStatus, failed: bool, next: nat, ghost checks: seq<Check>)
      modifies pod`monitorContainerList
      ensures PollIn(world, infraId, isService)(old(At(t))) == Poll(status, At(next), checks)
      ensures failed ==> status == Failed
    {
      hide *;
      ghost var s, known := At(t), pod.KnownIds();
      AtParts(t);
      ghost var rs := PollReports(s, world);
      ghost var j := 0;
      var i := 0;
      next := t;
      MidPollStarts(s, rs);
      while i < |pod.monitorContainerList|
        invariant MidPoll(s, rs, j, pod.monitorContainerList, i)
        invariant next == t + j && j <= |s.left|
        decreases |pod.monitorContainerList| - i
      {
        MidPollHead(s, rs, j, pod.monitorContainerList, i);
        var r := Inspect(pod.monitorContainerList[i], world(next));
        ReportOf(s, world, j);
        TestsMonitorJudge(r);
        next := next + 1;
        AtParts(next);
        if r.failed || r.exitCode != 0 {
          MidPollFails(s, world, j, pod.monitorContainerList, i, infraId, isService);
          status, failed, checks := Failed, r.failed, Checks(s.left, rs, j + 1);
          return;
        }
        if r.exitCode == 0 && !r.running {
          MidPollLeaves(s, rs, j, pod.monitorContainerList, i);
          pod.monitorContainerList := Delete(pod.monitorContainerList, i);
          i := i - 1;
        } else if r.health == Unhealthy {
          MidPollFails(s, world, j, pod.monitorContainerList, i, infraId, isService);
          status, failed, checks := Failed, false, Checks(s.left, rs, j + 1);
          return;
        } else {
          MidPollStays(s, rs, j, pod.monitorContainerList, i);
        }
        i, j := i + 1, j + 1;
      }
      MidPollHead(s, rs, j, pod.monitorContainerList, i);
      MidPollEnds(s, world, pod.monitorContainerList, i, infraId, isService);
      AtParts(next);
      failed, checks := false, Checks(s.left, rs, |s.left|);
      status := Conclude(infraId, isService);
    }

    lemma {:induction false} AtParts(t: nat)
      ensures At(t) == Stage(pod.monitorContainerList, pod.KnownIds(), t)
    {}

    /** `PollForever` around `run`, watched for `polls` ticks: the status crosses a string channel, errors
        are dropped, and the first non-empty status ends the polling. */
    method PollForever(infraId: string, isService: bool, world: World, polls: nat)
      returns (res: string, ghost checks: seq<Check>, ghost next: nat)
      modifies pod`monitorContainerList
      ensures MonitorRun(old(At(0)), world, infraId, isService, polls) == Poll(ToPodStatus(res), At(next), checks)
    {
      hide *;
      ghost var poll, whole := PollIn(world, infraId, isService), MonitorRun(At(0), world, infraId, isService, polls);
      FirstPoll(At(0), world, infraId, isService, polls);
      checks := [];
      var t := 0;
      for tick := 0 to polls
        invariant whole == PollAlong(checks, PollAll(poll, At(t), polls - tick))
      {
        OnePollOn(checks, poll, At(t), polls - tick);
        var status, failed;
        ghost var more;
        status, failed, t, more := Run(infraId, isService, world, t);
        checks := checks + more;
        res := PodStatusString(status);
        PodStatusSurvivesChannel(status);
        if res != "" {
          next := t;
          return;
        }
      }
      NoPollOn(checks, poll, At(t));
      PodStatusSurvivesChannel(Empty);
      res, next := PodStatusString(Empty), t;
    }

    /** `Start`: without the infra container's id, unless that container was removed, the pod fails at once.
        POD_EMPTY means that no poll came to a verdict. */
    method Start(rmInfra: bool, infraLookup: Option<string>, isService: bool, world: World, polls: nat)
      returns (status: PodStatus, failed: bool)
      modifies pod`monitorContainerList
      ensures failed <==> !rmInfra && infraLookup.None?
      ensures failed ==> status == Failed && At(0) == old(At(0))
      ensures !failed
              ==> var p := MonitorRun(old(At(0)), world, if rmInfra then "" else infraLookup.value, isService, polls);
                  status == p.verdict && pod.monitorContainerList == p.after.left
      ensures pod.KnownIds() == old(pod.KnownIds())
    {
      hide *;
      AtParts(0);
      var infraId := "";
      failed := false;
      if !rmInfra {
        if infraLookup.None? {
          return Failed, true;
        }
        infraId := infraLookup.value;
      }
      var res;
      ghost var checks, next;
      res, checks, next := PollForever(infraId, isService, world, polls);
      AtParts(next);
      status := ToPodStatus(res);
    }
  }
}
