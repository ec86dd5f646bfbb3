/** The two phases as they run on one monitored list: `initHealthCheck` and then the monitor (dce/main.go). */
module PodLaunch {
  import opened PodTypes
  import opened ContainerCheck
  import opened HealthSpec
  import opened MonitorSpec
  import opened HealthCheck
  import opened Monitor
  import opened PodRun
  import opened Walk

  /** What the launch finally hands to `SendPodStatus`; nothing while the pod keeps running. The replies cross
      string channels. */
  method RunPod(pod: PodMonitor, podServices: set<string>, services: seq<string>, lookup: Lookup, e: Surroundings,
                infraLookup: Option<string>, rmInfra: bool, monitorLookup: Option<string>)
    returns (verdict: Option<PodStatus>)
    requires WalkOf(podServices, services)
    requires e.infra == InfraOf(podServices, infraLookup)
    requires e.infraId == if rmInfra then Some("") else monitorLookup
    modifies pod, pod.metrics
    ensures !Ready(podServices, services, lookup, infraLookup) ==> verdict == Some(Failed)
    ensures Ready(podServices, services, lookup, infraLookup)
            ==> verdict == PodVerdict(HealthCheck.Launched(services, lookup), old(pod.KnownIds()), e)
    ensures Ready(podServices, services, lookup, infraLookup)
            ==> (verdict == Some(Failed) <==> PodFails(HealthCheck.Launched(services, lookup), old(pod.KnownIds()), e))
    ensures Ready(podServices, services, lookup, infraLookup) && verdict == Some(Finished)
            ==> !e.isService
                && forall c :: c in HealthCheck.Launched(services, lookup)
                               && e.infra != Some(c.containerId) && c.containerId != MonitorId(e)
                               ==> SeenInRun(c, HealthCheck.Launched(services, lookup), old(pod.KnownIds()), e)
  {
    hide Ready, HealthRun, MonitorRun, WalkOf, SeenInRun, HealthCheck.Launched, InfraOf, Reply, PodFails;
    ghost var known := pod.KnownIds();
    ReadyParts(podServices, services, lookup, infraLookup);
    var reply;
    ghost var o;
    reply, o := pod.HealthCheck(podServices, services, lookup, infraLookup, e.healthWorld, e.passes, e.isService);
    if Ready(podServices, services, lookup, infraLookup) {
      FinishedMeans(HealthCheck.Launched(services, lookup), known, e);
      PodVerdictIff(HealthCheck.Launched(services, lookup), known, e);
      if reply == Some(PodTypes.Running) { SettledRunning(o, e.infra, e.isService); }
    }
    match reply {
      case None => verdict := Some(Failed);
      case Some(status) =>
        if status == PodTypes.Running {
          var monitor := new DefaultMonitor(pod);
          assert Ready(podServices, services, lookup, infraLookup) ==> monitor.At(0) == o.after.(next := 0);
          var final, failed := monitor.Start(rmInfra, monitorLookup, e.isService, e.monitorWorld, e.polls);
          verdict := if final == Empty then None else Some(final);
        } else {
          verdict := Some(status);
        }
    }
  }

  lemma {:induction false} SettledRunning(o: HealthSpec.Outcome, infra: Option<string>, isService: bool)
    requires Reply(o, infra, isService) == Some(PodTypes.Running)
    ensures o.ending == Settled
  {}

  lemma {:induction false} FinishedMeans(cs: seq<SvcContainer>, known: set<string>, e: Surroundings)
    ensures PodVerdict(cs, known, e) == Some(Finished)
            ==> !e.isService
                && forall c :: c in cs && e.infra != Some(c.containerId) && c.containerId != MonitorId(e)
                               ==> SeenInRun(c, cs, known, e)
  {
    if PodVerdict(cs, known, e) == Some(Finished) {
      FinishedOnlyIfAllExited(cs, known, e);
    }
  }
}
