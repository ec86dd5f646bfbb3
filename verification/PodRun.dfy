/** The two phases together: the initial health check, and then the monitor on the list it left
    (dce/main.go, lines 265-320). */
module PodRun {
  import opened PodTypes
  import opened ContainerCheck
  import opened Filter
  import opened HealthSpec
  import opened MonitorSpec
  import opened HealthAnswers

  /** Everything outside the executor that a run depends on. */
  datatype Surroundings = Surroundings(
    healthWorld: World,        // docker during the health check
    infra: Option<string>,     // the infra container's id, if the pod has one
    passes: nat,               // passes before the launch timeout
    monitorWorld: World,       // docker during the monitoring
    infraId: Option<string>,   // the id the monitor finds for it: "" if it was removed, none on an error
    polls: nat,                // ticks of the monitor
    isService: bool)

  function HealthPhase(cs: seq<SvcContainer>, known: set<string>, e: Surroundings): HealthSpec.Outcome {
    HealthRun(cs, known, e.healthWorld, e.infra, e.passes)
  }

  /** The reply of the initial health check. */
  function HealthReply(cs: seq<SvcContainer>, known: set<string>, e: Surroundings): Option<PodStatus> {
    Reply(HealthPhase(cs, known, e), e.infra, e.isService)
  }

  function MonitorId(e: Surroundings): string {
    match e.infraId case None => "" case Some(id) => id
  }

  /** The monitor polls only after POD_RUNNING, and only if it knows which container is the infra container's. */
  function MonitorPolls(cs: seq<SvcContainer>, known: set<string>, e: Surroundings): nat {
    if HealthReply(cs, known, e) == Some(Running) && e.infraId.Some? then e.polls else 0
  }

  /** The monitor starts on the list the health check left; its visits to docker are counted afresh. */
  function MonitorPhase(cs: seq<SvcContainer>, known: set<string>, e: Surroundings): Poll {
    var after := HealthPhase(cs, known, e).after;
    MonitorRun(after.(next := 0), e.monitorWorld, MonitorId(e), e.isService, MonitorPolls(cs, known, e))
  }

  /** A monitor that is not started checks and removes nothing. */
  lemma {:induction false} IdleUnlessRunning(cs: seq<SvcContainer>, known: set<string>, e: Surroundings)
    requires HealthReply(cs, known, e) != Some(Running) || e.infraId.None?
    ensures var p := MonitorPhase(cs, known, e);
            p.verdict == Empty && p.checks == [] && p.after.left == HealthPhase(cs, known, e).after.left
  {
    hide HealthPhase, Reply;
  }

  /** The verdict that `SendPodStatus` is finally given; none while the pod keeps running. */
  function PodVerdict(cs: seq<SvcContainer>, known: set<string>, e: Surroundings): Option<PodStatus> {
    match HealthReply(cs, known, e)
    case None => Some(Failed)  // the launch timed out
    case Some(Running) =>
      var p := MonitorPhase(cs, known, e);
      if e.infraId.None? then Some(Failed)  // the monitor gives up at once
      else if p.verdict == Empty then None else Some(p.verdict)
    case Some(status) => Some(status)
  }

  /** The health check settled, and on more than, perhaps, infra. */
  ghost predicate Runs(cs: seq<SvcContainer>, known: set<string>, e: Surroundings) {
    var o := HealthRun(cs, known, e.healthWorld, e.infra, e.passes);
    && o.ending == Settled && o.after.left != []
    && !(|o.after.left| == 1 && e.infra == Some(o.after.left[0].containerId))
  }

  /** What the monitor comes to on the list that the health check left, if it knows infra's id. */
  function Monitored(cs: seq<SvcContainer>, known: set<string>, e: Surroundings): PodStatus
    requires e.infraId.Some?
  {
    var left := HealthRun(cs, known, e.healthWorld, e.infra, e.passes).after.(next := 0);
    MonitorRun(left, e.monitorWorld, e.infraId.value, e.isService, e.polls).verdict
  }

  /** The pod fails: the health check failed or was cut off, a service settled on nothing but, perhaps, infra, the
      monitor does not find infra, or it comes to POD_FAILED. */
  ghost predicate PodFails(cs: seq<SvcContainer>, known: set<string>, e: Surroundings) {
    var ending := HealthRun(cs, known, e.healthWorld, e.infra, e.passes).ending;
    || ending == Failing || ending == StillChecking
    || (ending == Settled && !Runs(cs, known, e) && e.isService)
    || (Runs(cs, known, e) && (e.infraId == None || Monitored(cs, known, e) == Failed))
  }

  /** The verdict on the pod, phase by phase. */
  lemma {:induction false} PodVerdictIff(cs: seq<SvcContainer>, known: set<string>, e: Surroundings)
    ensures var v, ending := PodVerdict(cs, known, e), HealthRun(cs, known, e.healthWorld, e.infra, e.passes).ending;
            && (v == Some(Failed) <==> PodFails(cs, known, e))
            && (v == Some(Finished)
                <==> || (ending == Settled && !Runs(cs, known, e) && !e.isService)
                     || (Runs(cs, known, e) && e.infraId.Some? && Monitored(cs, known, e) == Finished))
            && (v == None <==> Runs(cs, known, e) && e.infraId.Some? && Monitored(cs, known, e) == Empty)
  {
    hide HealthRun, MonitorRun, Reply, SomeBadVisit;
    RepliesOnAnswers(cs, known, e.healthWorld, e.infra, e.passes, e.isService);
    MonitorNeverRunning(cs, known, e);
  }

  /** The pod's verdict is never that it runs. */
  lemma {:induction false} NeverRunning(cs: seq<SvcContainer>, known: set<string>, e: Surroundings)
    ensures PodVerdict(cs, known, e) != Some(Running)
  {
    MonitorNeverRunning(cs, known, e);
    hide HealthPhase, MonitorPhase;
  }

  lemma {:induction false} MonitorNeverRunning(cs: seq<SvcContainer>, known: set<string>, e: Surroundings)
    ensures MonitorPhase(cs, known, e).verdict != Running
  {
    hide MonitorRun, Splits, Logs, NothingLeft, HealthRun, Reply;
    var s := HealthPhase(cs, known, e).after.(next := 0);
    MonitorRunFaithful(s, e.monitorWorld, MonitorId(e), e.isService, MonitorPolls(cs, known, e));
  }

  lemma {:induction false} MonitorRemovedWasSeen(checks: seq<Check>, c: SvcContainer, world: World)
    requires Logs(0, |checks|, checks, world) && c in MonitorRemoved(checks)
    ensures exists k :: 0 <= k < |checks| && SeenExited(checks[k], c, world, k)
  {
    var n := |checks| - 1;
    if checks[n].container == c && MonitorJudge(checks[n].report) == Leaves {
      ReportMeaning(world(n).inspection, true);
      ReportMeaning(world(n).inspection, false);
      assert Observed(checks[n], world, 0 + n);
      assert SeenExited(checks[n], c, world, n);
    } else {
      assert Logs(0, n, checks[..n], world) by {
        forall i | 0 <= i < n ensures Observed(checks[..n][i], world, 0 + i) {
          assert Observed(checks[i], world, 0 + i);
        }
      }
      MonitorRemovedWasSeen(checks[..n], c, world);
      var k :| 0 <= k < n && SeenExited(checks[..n][k], c, world, k);
      assert SeenExited(checks[k], c, world, k);
    }
  }

  predicate SeenExited(check: Check, c: SvcContainer, world: World, k: nat) {
    check.container == c && ExitedCleanly(world(k).inspection)
  }

  /** Some check of the two phases saw the container exited with 0; during the health check a failed inspection
      is taken for it. */
  ghost predicate WasSeenExited(c: SvcContainer, health: HealthSpec.Outcome, monitor: Poll, e: Surroundings) {
    || (exists k :: 0 <= k < |health.checks| && SeenGone(health.checks[k], c, e.healthWorld, k))
    || (exists k :: 0 <= k < |monitor.checks| && SeenExited(monitor.checks[k], c, e.monitorWorld, k))
  }

  ghost predicate SeenInRun(c: SvcContainer, cs: seq<SvcContainer>, known: set<string>, e: Surroundings) {
    WasSeenExited(c, HealthPhase(cs, known, e), MonitorPhase(cs, known, e), e)
  }

  lemma {:induction false} GoneInHealthPhase(cs: seq<SvcContainer>, known: set<string>, e: Surroundings,
                                             c: SvcContainer)
    requires c in cs
    ensures c in HealthPhase(cs, known, e).after.left || SeenInRun(c, cs, known, e)
  {
    var o := HealthPhase(cs, known, e);
    HealthRunConserves(cs, known, e.healthWorld, e.infra, e.passes);
    SplitsMember(cs, o.after.left, Removed(o.checks), c);
    if c in Removed(o.checks) {
      HealthRunLogs(cs, known, e.healthWorld, e.infra, e.passes);
      RemovedWasSeen(o.checks, c, e.healthWorld);
    }
  }

  lemma {:induction false} GoneInMonitorPhase(cs: seq<SvcContainer>, known: set<string>, e: Surroundings,
                                              c: SvcContainer)
    requires c in HealthPhase(cs, known, e).after.left
    ensures c in MonitorPhase(cs, known, e).after.left || SeenInRun(c, cs, known, e)
  {
    var s := HealthPhase(cs, known, e).after.(next := 0);
    var p := MonitorPhase(cs, known, e);
    MonitorRunFaithful(s, e.monitorWorld, MonitorId(e), e.isService, MonitorPolls(cs, known, e));
    SplitsMember(s.left, p.after.left, MonitorRemoved(p.checks), c);
    if c in MonitorRemoved(p.checks) {
      assert Logs(0, |p.checks|, p.checks, e.monitorWorld);
      MonitorRemovedWasSeen(p.checks, c, e.monitorWorld);
    }
  }

  /** Which of the two phases finished the pod, and what it had left. */
  lemma {:induction false} FinishedByOnePhase(cs: seq<SvcContainer>, known: set<string>, e: Surroundings)
    requires PodVerdict(cs, known, e) == Some(Finished)
    ensures !e.isService
    ensures var left := HealthPhase(cs, known, e).after.left;
            || left == [] || OnlyInfra(left, e.infra)
            || NothingLeft(MonitorPhase(cs, known, e).after.left, MonitorId(e))
  {
    var o := HealthPhase(cs, known, e);
    if Reply(o, e.infra, e.isService) == Some(PodTypes.Running) {
      var s, p := o.after.(next := 0), MonitorPhase(cs, known, e);
      MonitorRunFaithful(s, e.monitorWorld, MonitorId(e), e.isService, MonitorPolls(cs, known, e));
      assert Honest(s, p, MonitorId(e), e.isService);
    }
  }

  /** Still in the list after both phases. */
  predicate Survives(c: SvcContainer, cs: seq<SvcContainer>, known: set<string>, e: Surroundings) {
    c in HealthPhase(cs, known, e).after.left && c in MonitorPhase(cs, known, e).after.left
  }

  lemma {:induction false} ExitsOrSurvives(cs: seq<SvcContainer>, known: set<string>, e: Surroundings, c: SvcContainer)
    requires c in cs
    ensures SeenInRun(c, cs, known, e) || Survives(c, cs, known, e)
  {
    GoneInHealthPhase(cs, known, e, c);
    if c in HealthPhase(cs, known, e).after.left {
      GoneInMonitorPhase(cs, known, e, c);
    }
  }

  lemma {:induction false} OnlyInfraSurvives(cs: seq<SvcContainer>, known: set<string>, e: Surroundings,
                                             c: SvcContainer)
    requires PodVerdict(cs, known, e) == Some(Finished) && Survives(c, cs, known, e)
    ensures e.infra == Some(c.containerId) || c.containerId == MonitorId(e)
  {
    FinishedByOnePhase(cs, known, e);
    OnlyInfraIsIn(HealthPhase(cs, known, e).after.left, MonitorPhase(cs, known, e).after.left,
                  e.infra, MonitorId(e), c);
  }

  lemma {:induction false} OnlyInfraIsIn(left: seq<SvcContainer>, left': seq<SvcContainer>, infra: Option<string>,
                                         infraId: string,
                      c: SvcContainer)
    requires left == [] || OnlyInfra(left, infra) || NothingLeft(left', infraId)
    requires c in left && c in left'
    ensures infra == Some(c.containerId) || c.containerId == infraId
  {}

  /** POD_FINISHED means it: the task is not a service, and every launched container but infra was at some
      check seen exited with code 0 and not running. */
  lemma {:induction false} FinishedOnlyIfAllExited(cs: seq<SvcContainer>, known: set<string>, e: Surroundings)
    requires PodVerdict(cs, known, e) == Some(Finished)
    ensures !e.isService
    ensures forall c :: c in cs && e.infra != Some(c.containerId) && c.containerId != MonitorId(e)
                        ==> SeenInRun(c, cs, known, e)
  {
    FinishedByOnePhase(cs, known, e);
    hide HealthPhase, MonitorPhase, SeenInRun, PodVerdict;
    forall c | c in cs && e.infra != Some(c.containerId) && c.containerId != MonitorId(e)
      ensures SeenInRun(c, cs, known, e)
    {
      ExitsOrSurvives(cs, known, e, c);
      if Survives(c, cs, known, e) {
        OnlyInfraSurvives(cs, known, e, c);
      }
    }
  }

  /** From the first check to the last poll: launched = removed by the health check + removed by the
      monitor + still monitored. */
  lemma {:induction false} LaunchedIsConserved(cs: seq<SvcContainer>, known: set<string>, e: Surroundings)
    ensures Splits(cs, MonitorPhase(cs, known, e).after.left,
                   Removed(HealthPhase(cs, known, e).checks) + MonitorRemoved(MonitorPhase(cs, known, e).checks))
  {
    var o, p := HealthPhase(cs, known, e), MonitorPhase(cs, known, e);
    HealthRunConserves(cs, known, e.healthWorld, e.infra, e.passes);
    MonitorRunFaithful(o.after.(next := 0), e.monitorWorld, MonitorId(e), e.isService, MonitorPolls(cs, known, e));
    SplitsTwice(cs, o.after.left, Removed(o.checks), p.after.left, MonitorRemoved(p.checks));
  }
}
