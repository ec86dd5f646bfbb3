/** Concrete schedules on which the executor misreports: the races the code leaves open. */
module LifecycleRaces {
  import opened PodTypes
  import opened Lifecycle
  import opened LifecycleTheorems
  import opened LifecycleSplit

  const GOOD := Choice(true, Running)
  const SICK := Choice(true, Failed)

  /** Only the launcher has moved. */
  function Launching(g: Shared, pc: Pc, es: seq<Event>): State {
    State(g, map[Launcher := pc, Watcher := AwaitingDone], es)
  }

  /** The pod is up; one KillTask call races the monitor. */
  function Racing(g: Shared, kill: Pc, monitor: Pc, es: seq<Event>): State {
    State(g, map[Launcher := Returned, Watcher := AwaitingDone, Monitor := monitor, Kill(0) := kill], es)
  }

  lemma {:induction false} LauncherMoves(m: Mode, t: seq<Action>, g: Shared, pc: Pc, es: seq<Event>)
    returns (t': seq<Action>)
    requires Run(m, t) == Launching(g, pc, es)
    requires !Spawns(pc, Local(m, g, Launcher, pc, GOOD).pc)
    ensures var move := Local(m, g, Launcher, pc, GOOD);
            t' == t + [Step(Launcher, GOOD)] && Run(m, t') == Launching(move.g, move.pc, Logged(es, move.event))
  {
    RunSnoc(m, t, Step(Launcher, GOOD));
    t' := t + [Step(Launcher, GOOD)];
    assert Run(m, t').procs == Launching(g, Local(m, g, Launcher, pc, GOOD).pc, es).procs;
  }

  lemma {:induction false} KillMoves(m: Mode, t: seq<Action>, g: Shared, pc: Pc, mon: Pc, es: seq<Event>)
    returns (t': seq<Action>)
    requires Run(m, t) == Racing(g, pc, mon, es)
    requires !Spawns(pc, Local(m, g, Kill(0), pc, GOOD).pc)
    ensures var move := Local(m, g, Kill(0), pc, GOOD);
            t' == t + [Step(Kill(0), GOOD)] && Run(m, t') == Racing(move.g, move.pc, mon, Logged(es, move.event))
  {
    RunSnoc(m, t, Step(Kill(0), GOOD));
    t' := t + [Step(Kill(0), GOOD)];
    assert Run(m, t').procs == Racing(g, Local(m, g, Kill(0), pc, GOOD).pc, mon, es).procs;
  }

  lemma {:induction false} MonitorMoves(m: Mode, t: seq<Action>, g: Shared, k: Pc, pc: Pc, es: seq<Event>)
    returns (t': seq<Action>)
    requires Run(m, t) == Racing(g, k, pc, es)
    requires !Spawns(pc, Local(m, g, Monitor, pc, SICK).pc)
    ensures var move := Local(m, g, Monitor, pc, SICK);
            t' == t + [Step(Monitor, SICK)] && Run(m, t') == Racing(move.g, k, move.pc, Logged(es, move.event))
  {
    RunSnoc(m, t, Step(Monitor, SICK));
    t' := t + [Step(Monitor, SICK)];
    assert Run(m, t').procs == Racing(g, k, Local(m, g, Monitor, pc, SICK).pc, es).procs;
  }

  lemma {:induction false} RunStarts(m: Mode)
    ensures Run(m, []) == Launching(Shared(Starting, Live, false, false), Preparing, [])
  {}

  lemma {:induction false} PodAtGuard(m: Mode) returns (t: seq<Action>)
    ensures Run(m, t) == Launching(Shared(Starting, Canceled, false, true), AtGuard(Running, SpawnMonitor), [])
  {
    hide Run;
    var g0 := Shared(Starting, Live, false, false);
    RunStarts(m);
    var g1 := g0.(attempted := true);
    t := LauncherMoves(m, [], g0, Preparing, []);
    t := LauncherMoves(m, t, g0, GeneratingParts, []);
    t := LauncherMoves(m, t, g1, ComposingUp, []);
    t := LauncherMoves(m, t, g1, CheckingHealth, []);
    t := LauncherMoves(m, t, g1, RunningPlugins(Running), []);
    t := LauncherMoves(m, t, g1.(ctx := Canceled), ReadingStatus, []);
  }

  lemma {:induction false} PodWritesRunning(m: Mode) returns (t: seq<Action>)
    ensures Run(m, t) == Launching(Shared(Running, Canceled, false, true), Cleanup(Running, SpawnMonitor),
                                   [Wrote(Launcher, Running)])
  {
    hide Run;
    var g := Shared(Starting, Canceled, false, true);
    t := PodAtGuard(m);
    t := LauncherMoves(m, t, g, AtGuard(Running, SpawnMonitor), []);
    if m == Split {
      t := LauncherMoves(m, t, g, AtWrite(Running, SpawnMonitor), []);
    }
  }

  /** LaunchTask brings the pod up to the point where it owes TASK_RUNNING to Mesos. */
  lemma {:induction false} PodComesUp(m: Mode) returns (t: seq<Action>)
    ensures Run(m, t) == Launching(Shared(Running, Canceled, true, true), Sending(Running, SpawnMonitor),
                                   [Wrote(Launcher, Running)])
  {
    hide Run;
    t := PodWritesRunning(m);
    t := LauncherMoves(m, t, Shared(Running, Canceled, false, true), Cleanup(Running, SpawnMonitor),
                       [Wrote(Launcher, Running)]);
  }

  /** The launcher reports TASK_RUNNING and starts the monitor; Mesos calls KillTask. */
  lemma {:induction false} MonitorAndKillStart(t: seq<Action>, g: Shared, es: seq<Event>) returns (t': seq<Action>)
    requires Run(Split, t) == Launching(g, Sending(Running, SpawnMonitor), es)
    ensures Run(Split, t') == Racing(g, KillEntry, Polling, es + [Reported(Launcher, TaskRunning, true)])
  {
    RunSnoc(Split, t, Step(Launcher, GOOD));
    t' := t + [Step(Launcher, GOOD)];
    RunSnoc(Split, t', CallKill(0));
    t' := t' + [CallKill(0)];
    assert Run(Split, t').procs == Racing(g, KillEntry, Polling, es).procs;
  }

  lemma {:induction false} BothPassTheGuard(t: seq<Action>, g: Shared, es: seq<Event>) returns (t': seq<Action>)
    requires Run(Split, t) == Racing(g, KillEntry, Polling, es) && g.status == Running
    ensures Run(Split, t') == Racing(g, AtWrite(Killed, Return), AtWrite(Failed, Return), es)
  {
    hide Run;
    t' := MonitorMoves(Split, t, g, KillEntry, Polling, es);
    t' := KillMoves(Split, t', g, KillEntry, AtGuard(Failed, Return), es);
    t' := MonitorMoves(Split, t', g, AtWrite(Killed, Return), AtGuard(Failed, Return), es);
  }

  lemma {:induction false} BothWrite(t: seq<Action>, g: Shared, es: seq<Event>) returns (t': seq<Action>)
    requires Run(Split, t) == Racing(g, AtWrite(Killed, Return), AtWrite(Failed, Return), es)
    ensures Run(Split, t') == Racing(g.(status := Failed), Cleanup(Killed, Return), Cleanup(Failed, Return),
                                     es + [Wrote(Kill(0), Killed)] + [Wrote(Monitor, Failed)])
  {
    hide Run;
    t' := KillMoves(Split, t, g, AtWrite(Killed, Return), AtWrite(Failed, Return), es);
    t' := MonitorMoves(Split, t', g.(status := Killed), Cleanup(Killed, Return), AtWrite(Failed, Return),
                       es + [Wrote(Kill(0), Killed)]);
  }

  lemma {:induction false} BothReport(t: seq<Action>, g: Shared, es: seq<Event>) returns (t': seq<Action>)
    requires Run(Split, t) == Racing(g, Cleanup(Killed, Return), Cleanup(Failed, Return), es) && g.attempted
    ensures Run(Split, t').events
            == es + [StoppedPod(Kill(0))] + [StoppedPod(Monitor)]
               + [Reported(Kill(0), TaskKilled, true)] + [Reported(Monitor, TaskFailed, true)]
  {
    hide Run;
    t' := KillMoves(Split, t, g, Cleanup(Killed, Return), Cleanup(Failed, Return), es);
    var es' := es + [StoppedPod(Kill(0))];
    t' := MonitorMoves(Split, t', g, Sending(Killed, Return), Cleanup(Failed, Return), es');
    es' := es' + [StoppedPod(Monitor)];
    t' := KillMoves(Split, t', g, Sending(Killed, Return), Sending(Failed, Return), es');
    t' := MonitorMoves(Split, t', g, Returned, Sending(Failed, Return), es' + [Reported(Kill(0), TaskKilled, true)]);
  }

  /** KillTask and the monitor both read POD_RUNNING before either writes: Mesos is told both that the
      task was killed and that it failed. */
  lemma {:induction false} TwoVerdictsReachMesos() returns (t: seq<Action>)
    ensures Reported(Kill(0), TaskKilled, true) in Run(Split, t).events
    ensures Reported(Monitor, TaskFailed, true) in Run(Split, t).events
    ensures !FinalityKept(t)
  {
    var g := Shared(Running, Canceled, true, true);
    var up := [Wrote(Launcher, Running)];
    t := PodComesUp(Split);
    t := MonitorAndKillStart(t, g, up);
    var es := up + [Reported(Launcher, TaskRunning, true)];
    t := BothPassTheGuard(t, g, es);
    t := BothWrite(t, g, es);
    t := BothReport(t, g.(status := Failed), es + [Wrote(Kill(0), Killed)] + [Wrote(Monitor, Failed)]);
    FinalWriteCounted(Run(Split, t).events, Wrote(Kill(0), Killed), Wrote(Monitor, Failed));
  }

  lemma {:induction false} FinalWriteCounted(es: seq<Event>, e1: Event, e2: Event)
    requires e1 in es && e2 in es && IsFinalWrite(e1) && IsFinalWrite(e2)
    ensures FinalWrites(es) >= if e1 == e2 then 1 else 2
  {
    var n := |es| - 1;
    var f1 := if es[n] == e1 then e2 else e1;
    var f2 := if es[n] == e2 then e1 else e2;
    if f1 !in es[..n] || f2 !in es[..n] {
    } else {
      FinalWriteCounted(es[..n], f1, f2);
    }
  }

  // ---------------------------------------------------------------- no guard orders the updates

  /** KillTask arrives while the launcher still owes TASK_RUNNING. */
  function Late(g: Shared, kill: Pc, es: seq<Event>): State {
    State(g, map[Launcher := Sending(Running, SpawnMonitor), Watcher := AwaitingDone, Kill(0) := kill], es)
  }

  lemma {:induction false} LateKillMoves(m: Mode, t: seq<Action>, g: Shared, pc: Pc, es: seq<Event>)
    returns (t': seq<Action>)
    requires Run(m, t) == Late(g, pc, es)
    requires !Spawns(pc, Local(m, g, Kill(0), pc, GOOD).pc)
    ensures var move := Local(m, g, Kill(0), pc, GOOD);
            t' == t + [Step(Kill(0), GOOD)] && Run(m, t') == Late(move.g, move.pc, Logged(es, move.event))
  {
    RunSnoc(m, t, Step(Kill(0), GOOD));
    t' := t + [Step(Kill(0), GOOD)];
    assert Run(m, t').procs == Late(g, Local(m, g, Kill(0), pc, GOOD).pc, es).procs;
  }

  lemma {:induction false} KillIsCalled(m: Mode, t: seq<Action>, g: Shared, es: seq<Event>) returns (t': seq<Action>)
    requires Run(m, t) == Launching(g, Sending(Running, SpawnMonitor), es)
    ensures Run(m, t') == Late(g, KillEntry, es)
  {
    RunSnoc(m, t, CallKill(0));
    t' := t + [CallKill(0)];
    assert Run(m, t').procs == Late(g, KillEntry, es).procs;
  }

  lemma {:induction false} KillWrites(m: Mode, t: seq<Action>, g: Shared, es: seq<Event>) returns (t': seq<Action>)
    requires Run(m, t) == Late(g, KillEntry, es) && g.status == Running
    ensures Run(m, t') == Late(g.(status := Killed), Cleanup(Killed, Return), es + [Wrote(Kill(0), Killed)])
  {
    hide Run;
    t' := LateKillMoves(m, t, g, KillEntry, es);
    if m == Split {
      t' := LateKillMoves(m, t', g, AtWrite(Killed, Return), es);
    }
  }

  lemma {:induction false} KillReports(m: Mode, t: seq<Action>, g: Shared, es: seq<Event>) returns (t': seq<Action>)
    requires Run(m, t) == Late(g, KillEntry, es) && g.status == Running
    ensures Run(m, t')
            == Late(g.(status := Killed), Returned,
                    es + [Wrote(Kill(0), Killed)] + [StoppedPod(Kill(0))] + [Reported(Kill(0), TaskKilled, true)])
  {
    hide Run;
    t' := KillWrites(m, t, g, es);
    t' := LateKillMoves(m, t', g.(status := Killed), Cleanup(Killed, Return), es + [Wrote(Kill(0), Killed)]);
    t' := LateKillMoves(m, t', g.(status := Killed), Sending(Killed, Return),
                        es + [Wrote(Kill(0), Killed)] + [StoppedPod(Kill(0))]);
  }

  /** In either mode the last thing Mesos hears of a killed task can be that it is running. */
  lemma {:induction false} RunningAfterKilled(m: Mode) returns (t: seq<Action>)
    ensures var es := Run(m, t).events;
            && |es| >= 2
            && es[|es| - 2] == Reported(Kill(0), TaskKilled, true)
            && es[|es| - 1] == Reported(Launcher, TaskRunning, true)
    ensures !InOrder(Run(m, t).events)
  {
    t := PodComesUp(m);
    var g, es := Shared(Running, Canceled, true, true), [Wrote(Launcher, Running)];
    t := KillIsCalled(m, t, g, es);
    t := KillReports(m, t, g, es);
    var s := Run(m, t);
    RunSnoc(m, t, Step(Launcher, GOOD));
    t := t + [Step(Launcher, GOOD)];
    assert Run(m, t).events == s.events + [Reported(Launcher, TaskRunning, true)];
  }
}
