/** The race and what it races about: schedules in which the health check and the monitor conclude what docker's
    answers make them conclude, while everything else is left to chance (dce/main.go, lines 254-360). */
module PodSchedules {
  import opened PodTypes
  import opened Lifecycle
  import opened LifecycleSafety
  import opened PodRun
  import ContainerCheck
  import HealthSpec

  /** The reply of the initial health check as the launcher sees it; a timeout is not ok. */
  function HealthChoice(reply: Option<PodStatus>): Choice {
    match reply
    case None => Choice(false, Empty)
    case Some(status) => Choice(true, status)
  }

  /** The health check ends with `reply`, and a poll of the monitor with no verdict or with `verdict`. */
  predicate Answers(s: State, a: Action, reply: Option<PodStatus>, verdict: Option<PodStatus>) {
    a.Step? && a.pid in s.procs
    ==> && (s.procs[a.pid] == CheckingHealth ==> a.choice == HealthChoice(reply))
        && (s.procs[a.pid] == Polling ==> a.choice.verdict == Empty || Some(a.choice.verdict) == verdict)
  }

  ghost predicate Follows(m: Mode, schedule: seq<Action>, reply: Option<PodStatus>, verdict: Option<PodStatus>) {
    forall i :: 0 <= i < |schedule| ==> Answers(Run(m, schedule[..i]), schedule[i], reply, verdict)
  }

  /** The process is on its way to write or report the status. */
  predicate Carries(pc: Pc, status: PodStatus) {
    || (Calling(pc) && (pc.target == status || pc.after == RunPlugins(status)))
    || pc == RunningPlugins(status)
    || (pc == ReadingStatus && status == Running)
  }

  /** The event writes the status or reports it. */
  predicate Tells(e: Event, status: PodStatus) {
    (e.Wrote? && e.status == status) || (e.Reported? && TaskStateOf(status) == Some(e.state))
  }

  /** Where the status can come from: POD_RUNNING from the health check, POD_FINISHED from either. */
  predicate Grounded(status: PodStatus, reply: Option<PodStatus>, verdict: Option<PodStatus>) {
    if status == Running then reply == Some(Running) else verdict == Some(status)
  }

  /** The status is nowhere, or it is grounded. */
  ghost predicate Honest(s: State, status: PodStatus, grounded: bool) {
    && (s.g.status == status ==> grounded)
    && (forall p :: p in s.procs && Carries(s.procs[p], status) ==> grounded)
    && (forall e :: e in s.events && Tells(e, status) ==> grounded)
  }

  /** Only who carries the status writes or reports it. */
  lemma {:induction false} LocalTells(m: Mode, g: Shared, p: Pid, pc: Pc, c: Choice, status: PodStatus)
    requires status == Running || status == Finished
    ensures var move := Local(m, g, p, pc, c);
            move.event.Some? && Tells(move.event.value, status) ==> Carries(pc, status)
  {}

  /** A status comes to be carried or set by who carried it, by the health check or by a poll. */
  lemma {:induction false} LocalCarries(m: Mode, g: Shared, p: Pid, pc: Pc, c: Choice, status: PodStatus)
    requires Shape(m, p, pc) && (status == Running || status == Finished)
    ensures var move := Local(m, g, p, pc, c);
            move.g.status == status || Carries(move.pc, status)
            ==> || g.status == status || Carries(pc, status)
                || (pc == CheckingHealth && c.ok && c.verdict == status) || (pc == Polling && c.verdict == status)
  {}

  lemma {:induction false} NewCarriesNothing(status: PodStatus)
    ensures !Carries(KillEntry, status) && !Carries(Polling, status)
  {}

  lemma {:induction false} ActHonest(m: Mode, s: State, a: Action, status: PodStatus, reply: Option<PodStatus>,
                                     verdict: Option<PodStatus>)
    requires Inv(m, s) && Answers(s, a, reply, verdict) && (status == Running || status == Finished)
    requires reply == Some(Finished) ==> verdict == Some(Finished)
    requires verdict != Some(Running)
    requires Honest(s, status, Grounded(status, reply, verdict))
    ensures Honest(Act(m, s, a), status, Grounded(status, reply, verdict))
  {
    hide Balanced, RunningOnce, Caused, Local, Carries, Tells;
    NewCarriesNothing(status);
    if a.Step? && a.pid in s.procs {
      LocalTells(m, s.g, a.pid, s.procs[a.pid], a.choice, status);
      LocalCarries(m, s.g, a.pid, s.procs[a.pid], a.choice, status);
    }
  }

  lemma {:induction false} RunHonest(m: Mode, schedule: seq<Action>, status: PodStatus, reply: Option<PodStatus>,
                                     verdict: Option<PodStatus>)
    requires Follows(m, schedule, reply, verdict) && (status == Running || status == Finished)
    requires reply == Some(Finished) ==> verdict == Some(Finished)
    requires verdict != Some(Running)
    ensures Honest(Run(m, schedule), status, Grounded(status, reply, verdict))
  {
    if schedule == [] {
    } else {
      var n := |schedule| - 1;
      forall i | 0 <= i < n ensures Answers(Run(m, schedule[..n][..i]), schedule[..n][i], reply, verdict) {
        assert schedule[..n][..i] == schedule[..i];
      }
      RunHonest(m, schedule[..n], status, reply, verdict);
      RunInv(m, schedule[..n]);
      assert Answers(Run(m, schedule[..n]), schedule[n], reply, verdict);
      hide Answers, Honest, Inv, Grounded, Act;
      ActHonest(m, Run(m, schedule[..n]), schedule[n], status, reply, verdict);
    }
  }

  /** The schedule is one of the pod whose containers docker describes as `e` says. */
  ghost predicate IsOf(m: Mode, schedule: seq<Action>, cs: seq<SvcContainer>, known: set<string>, e: Surroundings) {
    Follows(m, schedule, HealthReply(cs, known, e), PodVerdict(cs, known, e))
  }

  /** The pod has the status, or something was written or sent that says so. */
  ghost predicate Claimed(s: State, status: PodStatus) {
    s.g.status == status || exists e :: e in s.events && Tells(e, status)
  }

  lemma {:induction false} VerdictsFit(cs: seq<SvcContainer>, known: set<string>, e: Surroundings)
    ensures var reply, verdict := HealthReply(cs, known, e), PodVerdict(cs, known, e);
            (reply == Some(Finished) ==> verdict == Some(Finished)) && verdict != Some(Running)
  {
    NeverRunning(cs, known, e);
  }

  lemma {:induction false} ClaimIsGrounded(m: Mode, schedule: seq<Action>, cs: seq<SvcContainer>, known: set<string>,
                                           e: Surroundings, status: PodStatus)
    requires IsOf(m, schedule, cs, known, e) && Claimed(Run(m, schedule), status)
    requires status == Running || status == Finished
    ensures Grounded(status, HealthReply(cs, known, e), PodVerdict(cs, known, e))
  {
    hide HealthPhase, PodVerdict, HealthReply, Run, Follows;
    VerdictsFit(cs, known, e);
    RunHonest(m, schedule, status, HealthReply(cs, known, e), PodVerdict(cs, known, e));
  }

  /** In every interleaving, with guard and write together or apart: if the pod has become POD_FINISHED, or Mesos
      was told so, the task is not a service, and every launched container but infra was at some check seen
      exited with code 0 and not running. */
  lemma {:induction false} FinishedMeansExited(m: Mode, schedule: seq<Action>, cs: seq<SvcContainer>,
                                               known: set<string>, e: Surroundings)
    requires IsOf(m, schedule, cs, known, e) && Claimed(Run(m, schedule), Finished)
    ensures !e.isService
    ensures forall c :: c in cs && e.infra != Some(c.containerId) && c.containerId != MonitorId(e)
                        ==> SeenInRun(c, cs, known, e)
  {
    ClaimIsGrounded(m, schedule, cs, known, e, Finished);
    hide PodVerdict, SeenInRun, IsOf, Claimed;
    FinishedOnlyIfAllExited(cs, known, e);
  }

  /** In every interleaving: if the pod has become POD_RUNNING, or Mesos was told so, the last pass of the health
      check left its list as it was, neither empty nor just infra, and found every container in it HEALTHY. */
  lemma {:induction false} RunningMeansHealthy(m: Mode, schedule: seq<Action>, cs: seq<SvcContainer>,
                                               known: set<string>, e: Surroundings)
    returns (stages: seq<HealthSpec.Stage>)
    requires IsOf(m, schedule, cs, known, e) && Claimed(Run(m, schedule), Running)
    ensures var o, pass := HealthPhase(cs, known, e), HealthSpec.PassIn(e.healthWorld, e.infra);
            && o.after.left != [] && !HealthSpec.OnlyInfra(o.after.left, e.infra)
            && HealthSpec.Chain(pass, HealthSpec.Stage(cs, known, 0), stages)
            && o.checks == HealthSpec.LogOf(pass, stages)
            && var t := stages[|stages| - 1];
               HealthSpec.AllHealthyPass(t, pass(t)) && pass(t).after == o.after
  {
    ClaimIsGrounded(m, schedule, cs, known, e, Running);
    hide IsOf, Claimed;
    stages := HealthSpec.RunningOnlyIfAllHealthy(cs, known, e.healthWorld, e.infra, e.passes, e.isService,
                                                 HealthPhase(cs, known, e));
  }
}
