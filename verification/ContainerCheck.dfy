/** Inspecting one container (`CheckContainer` in utils/pod/pod.go). Docker is an oracle. */
module ContainerCheck {
  import opened PodTypes

  /** What docker inspect says; a failed command or an unreadable answer leaves all details zero. */
  datatype Inspection = InspectError | Inspected(running: bool, exitCode: int, health: string)

  /** One visit to a container: does docker know a health check for it, and what does inspecting it say. */
  datatype Probe = Probe(configured: bool, inspection: Inspection)

  /** Every visit to docker, numbered in the order they happen. */
  type World = nat -> Probe

  datatype Report = Report(health: HealthStatus, running: bool, exitCode: int, failed: bool)

  function CheckContainer(inspection: Inspection, healthCheck: bool): Report {
    match inspection
    case InspectError => Report(Unhealthy, false, 0, true)
    case Inspected(running, exitCode, health) =>
      if exitCode != 0 then Report(Unhealthy, running, exitCode, false)
      else if healthCheck then Report(ToHealthStatus(health), running, exitCode, false)
      else Report(Healthy, running, exitCode, false)
  }

  /** Seen with exit code 0 and not running. A failed inspection looks the same. */
  predicate Gone(r: Report) {
    r.exitCode == 0 && !r.running
  }

  /** The container behind the report really had exited with code 0. */
  predicate ExitedCleanly(inspection: Inspection) {
    inspection.Inspected? && inspection.exitCode == 0 && !inspection.running
  }

  /** What a report says, from what docker answered. A failed inspection is UNHEALTHY and looks exited; a bad
      exit code is UNHEALTHY whether or not the container runs; else the health is docker's, if there is a health
      check, and HEALTHY without one. */
  lemma {:induction false} ReportMeaning(inspection: Inspection, healthCheck: bool)
    ensures var r := CheckContainer(inspection, healthCheck);
            && (r.failed <==> inspection.InspectError?)
            && (r.running <==> inspection.Inspected? && inspection.running)
            && r.exitCode == (if inspection.Inspected? then inspection.exitCode else 0)
            && (r.health == Unhealthy
                <==> || inspection.InspectError? || inspection.exitCode != 0
                     || (healthCheck && inspection.health == "unhealthy"))
            && (r.health == Healthy
                <==> && inspection.Inspected? && inspection.exitCode == 0
                     && (healthCheck ==> inspection.health == "healthy"))
            && (r.health == HealthStarting
                <==> && inspection.Inspected? && inspection.exitCode == 0
                     && healthCheck && inspection.health == "starting")
            && (Gone(r) <==> r.failed || ExitedCleanly(inspection))
  {
    assert |"starting"| == 8 && |"healthy"| == 7 && |"unhealthy"| == 9;
  }

  // ---------------------------------------------------------------- a pass over a list of containers

  /** The containers docker is known to have a health check for, after visiting the first `n` of `cs`. */
  function Known(cs: seq<SvcContainer>, ids: set<string>, world: World, t: nat, n: nat): set<string>
    requires n <= |cs|
  {
    if n == 0 then ids
    else
      var before := Known(cs, ids, world, t, n - 1);
      if world(t + n - 1).configured then before + {cs[n - 1].containerId} else before
  }

  lemma {:induction false} KnownMeans(cs: seq<SvcContainer>, ids: set<string>, world: World, t: nat, n: nat,
                                      id: string)
    requires n <= |cs|
    ensures id in Known(cs, ids, world, t, n)
            <==> id in ids || exists j :: 0 <= j < n && cs[j].containerId == id && world(t + j).configured
  {
    if n == 0 {
    } else {
      KnownMeans(cs, ids, world, t, n - 1, id);
    }
  }

  function ReportAt(cs: seq<SvcContainer>, ids: set<string>, world: World, t: nat, i: nat): Report
    requires i < |cs|
  {
    CheckContainer(world(t + i).inspection,
                   cs[i].containerId in Known(cs, ids, world, t, i) || world(t + i).configured)
  }

  /** The reports on the first `n` containers of a pass that nothing stops. */
  function ReportsUpTo(cs: seq<SvcContainer>, ids: set<string>, world: World, t: nat, n: nat): (rs: seq<Report>)
    requires n <= |cs|
    ensures |rs| == n
    ensures forall i :: 0 <= i < n ==> rs[i] == ReportAt(cs, ids, world, t, i)
  {
    if n == 0 then [] else ReportsUpTo(cs, ids, world, t, n - 1) + [ReportAt(cs, ids, world, t, n - 1)]
  }

  function Reports(cs: seq<SvcContainer>, ids: set<string>, world: World, t: nat): (rs: seq<Report>)
    ensures |rs| == |cs|
  {
    ReportsUpTo(cs, ids, world, t, |cs|)
  }

  datatype Check = Check(container: SvcContainer, report: Report)

  function Checks(cs: seq<SvcContainer>, rs: seq<Report>, n: nat): (log: seq<Check>)
    requires n <= |cs| && n <= |rs|
    ensures |log| == n
    ensures forall i :: 0 <= i < n ==> log[i] == Check(cs[i], rs[i])
  {
    if n == 0 then [] else Checks(cs, rs, n - 1) + [Check(cs[n - 1], rs[n - 1])]
  }
}
