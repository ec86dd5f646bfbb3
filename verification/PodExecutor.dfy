/** The same code as it is written, one statement after the other: the pod's fields and the methods
    that change them (utils/pod/pod.go, dce/main.go). Each method is tied to the steps its
    process takes in the protocol when nobody interferes. */
module PodExecutor {
  import opened PodTypes
  import opened Lifecycle

  /** Letting one process take its steps, with nobody in between. */
  function Drive(g: Shared, es: seq<Event>, p: Pid, pc: Pc, choices: seq<Choice>): (Shared, seq<Event>, Pc)
    decreases |choices|
  {
    if choices == [] then (g, es, pc)
    else
      var move := Local(Split, g, p, pc, choices[0]);
      Drive(move.g, Logged(es, move.event), p, move.pc, choices[1..])
  }

  lemma {:induction false} DriveOn(g: Shared, es: seq<Event>, p: Pid, pc: Pc, now: seq<Choice>, later: seq<Choice>)
    ensures var (g', es', pc') := Drive(g, es, p, pc, now);
            Drive(g, es, p, pc, now + later) == Drive(g', es', p, pc', later)
    decreases |now|
  {
    if now == [] {
      assert now + later == later;
    } else {
      var move := Local(Split, g, p, pc, now[0]);
      assert (now + later)[1..] == now[1..] + later;
      DriveOn(move.g, Logged(es, move.event), p, move.pc, now[1..], later);
    }
  }

  /** The log `SendPodStatus` leaves: unchanged if the guard refuses, else the write, the cleanup
      and the update are added. POD_KILLED is written but neither acted on nor reported. */
  function LogAfterSend(g: Shared, es: seq<Event>, p: Pid, target: PodStatus, monitored: bool, delivered: bool)
    : seq<Event>
  {
    if Blocked(g.status, target) then es
    else if target == Killed then es + [Wrote(p, target)]
    else Logged(Logged(es + [Wrote(p, target)], CleanupEvent(g, p, target, monitored)),
                ReportEvent(p, target, delivered))
  }

  lemma {:induction false} DriveOne(g: Shared, es: seq<Event>, p: Pid, pc: Pc, c: Choice, rest: seq<Choice>)
    ensures var move := Local(Split, g, p, pc, c);
            Drive(g, es, p, pc, [c] + rest) == Drive(move.g, Logged(es, move.event), p, move.pc, rest)
  {
    assert ([c] + rest)[1..] == rest;
  }

  /** The process has come from `(g0, es0, pc0)` to `(g, es, pc)` by the steps `done`. */
  ghost predicate Came(g0: Shared, es0: seq<Event>, p: Pid, pc0: Pc, done: seq<Choice>, g: Shared, es: seq<Event>,
                       pc: Pc) {
    Drive(g0, es0, p, pc0, done) == (g, es, pc)
  }

  lemma {:induction false} ComeFurther(g0: Shared, es0: seq<Event>, p: Pid, pc0: Pc, done: seq<Choice>, g: Shared,
                                       es: seq<Event>, pc: Pc,
                    more: seq<Choice>, g': Shared, es': seq<Event>, pc': Pc)
    requires Came(g0, es0, p, pc0, done, g, es, pc) && Drive(g, es, p, pc, more) == (g', es', pc')
    ensures Came(g0, es0, p, pc0, done + more, g', es', pc')
  {
    DriveOn(g0, es0, p, pc0, done, more);
  }

  lemma {:induction false} ComeOneFurther(g0: Shared, es0: seq<Event>, p: Pid, pc0: Pc, done: seq<Choice>, g: Shared,
                                          es: seq<Event>, pc: Pc,
                       c: Choice)
    requires Came(g0, es0, p, pc0, done, g, es, pc)
    ensures var move := Local(Split, g, p, pc, c);
            Came(g0, es0, p, pc0, done + [c], move.g, Logged(es, move.event), move.pc)
  {
    var move := Local(Split, g, p, pc, c);
    DriveOne(g, es, p, pc, c, []);
    assert [c] + [] == [c];
    ComeFurther(g0, es0, p, pc0, done, g, es, pc, [c], move.g, Logged(es, move.event), move.pc);
  }

  lemma {:induction false} DriveNone(g: Shared, es: seq<Event>, p: Pid, pc: Pc)
    ensures Drive(g, es, p, pc, []) == (g, es, pc)
  {}

  const IDLE := Choice(true, Empty)

  function SendChoices(blocked: bool, monitored: bool, delivered: bool): seq<Choice> {
    if blocked then [IDLE] + []
    else [IDLE] + ([IDLE] + ([Choice(monitored, Empty)] + ([Choice(delivered, Empty)] + [])))
  }

  /** The shared state `SendPodStatus` leaves. */
  function AfterSend(g: Shared, target: PodStatus): Shared {
    if Blocked(g.status, target) then g
    else g.(status := target, launched := g.launched || target == Running)
  }

  lemma {:induction false} DriveSend(g: Shared, es: seq<Event>, p: Pid, target: PodStatus, after: After,
                                     monitored: bool, delivered: bool)
    requires target != Killed
    ensures Drive(g, es, p, AtGuard(target, after), SendChoices(Blocked(g.status, target), monitored, delivered))
            == (AfterSend(g, target), LogAfterSend(g, es, p, target, monitored, delivered), Resume(after))
  {
    hide Drive;
    var last := [Choice(delivered, Empty)] + [];
    var tail := [Choice(monitored, Empty)] + last;
    DriveNone(g, es, p, Resume(after));
    if Blocked(g.status, target) {
      DriveOne(g, es, p, AtGuard(target, after), IDLE, []);
    } else {
      var g1, es1 := g.(status := target), es + [Wrote(p, target)];
      var g2, es2 := AfterSend(g, target), Logged(es1, CleanupEvent(g1, p, target, monitored));
      DriveOne(g, es, p, AtGuard(target, after), IDLE, [IDLE] + tail);
      DriveOne(g, es, p, AtWrite(target, after), IDLE, tail);
      DriveOne(g1, es1, p, Cleanup(target, after), Choice(monitored, Empty), last);
      DriveOne(g2, es2, p, Sending(target, after), Choice(delivered, Empty), []);
      DriveNone(g2, Logged(es2, ReportEvent(p, target, delivered)), p, Resume(after));
    }
  }

  lemma {:induction false} DriveKill(g: Shared, es: seq<Event>, call: nat, delivered: bool)
    ensures Drive(g, es, Kill(call), KillEntry, SendChoices(g.status != Running, true, delivered))
            == if g.status != Running then (g, es, Returned)
               else (g.(status := Killed),
                     es + [Wrote(Kill(call), Killed)] + [StoppedPod(Kill(call))]
                     + [Reported(Kill(call), TaskKilled, delivered)],
                     Returned)
  {
    hide Drive;
    var p := Kill(call);
    DriveNone(g, es, p, Returned);
    var last := [Choice(delivered, Empty)] + [];
    var tail := [Choice(true, Empty)] + last;
    if g.status != Running {
      DriveOne(g, es, p, KillEntry, IDLE, []);
    } else {
      var g1, es1 := g.(status := Killed), es + [Wrote(p, Killed)];
      DriveOne(g, es, p, KillEntry, IDLE, [IDLE] + tail);
      DriveOne(g, es, p, AtWrite(Killed, Return), IDLE, tail);
      DriveOne(g1, es1, p, Cleanup(Killed, Return), Choice(true, Empty), last);
      DriveOne(g1, es1 + [StoppedPod(p)], p, Sending(Killed, Return), Choice(delivered, Empty), []);
      DriveNone(g1, es1 + [StoppedPod(p)] + [Reported(p, TaskKilled, delivered)], p, Returned);
    }
  }

  /** The statuses that `SendPodStatus` leaves alone, besides the one it is to set. */
  predicate Ended(status: PodStatus) {
    status == Failed || status == Killed || status == Finished
  }

  /** What `SendPodStatus` amounts to in the protocol, event by event. */
  lemma {:induction false} SendMeans(g: Shared, es: seq<Event>, p: Pid, target: PodStatus, monitored: bool,
                                     delivered: bool)
    ensures Blocked(g.status, target) <==> Ended(g.status) || g.status == target
    ensures Blocked(g.status, target)
            ==> AfterSend(g, target) == g && LogAfterSend(g, es, p, target, monitored, delivered) == es
    ensures !Blocked(g.status, target)
            ==> && AfterSend(g, target) == g.(status := target, launched := g.launched || target == Running)
                && LogAfterSend(g, es, p, target, monitored, delivered)
                   == es + [Wrote(p, target)]
                      + match target
                        case Running => [Reported(p, TaskRunning, delivered)]
                        case Finished => [if monitored then StoppedPod(p) else CleanedUp(p),
                                          Reported(p, TaskFinished, delivered)]
                        case Failed => (if g.attempted then [StoppedPod(p)] else [])
                                       + [Reported(p, TaskFailed, delivered)]
                        case PullFailed => [CleanedUp(p), Reported(p, TaskFailed, delivered)]
                        case ComposeCheckFailed => [CleanedUp(p), Reported(p, TaskFailed, delivered)]
                        case _ => []
  {}

  class Pod {
    var status: PodStatus
    var launched: bool
    var launchAttempted: bool
    var monitorList: seq<SvcContainer>
    var ctx: Context
    ghost var events: seq<Event>

    constructor ()
      ensures Snapshot() == Shared(Staging, Live, false, false) && events == [] && monitorList == []
    {
      status, launched, launchAttempted, ctx := Staging, false, false, Live;
      monitorList, events := [], [];
    }

    function Snapshot(): Shared
      reads this
    {
      Shared(status, ctx, launched, launchAttempted)
    }

    method StopPod(ghost p: Pid)
      modifies this`events
      ensures events == old(events) + [StoppedPod(p)]
    {
      events := events + [StoppedPod(p)];
    }

    method CallPostKillTask(ghost p: Pid)
      modifies this`events
      ensures events == old(events) + [CleanedUp(p)]
    {
      events := events + [CleanedUp(p)];
    }

    method SendMesosStatus(ghost p: Pid, state: TaskState, delivered: bool)
      modifies this`events
      ensures events == old(events) + [Reported(p, state, delivered)]
    {
      events := events + [Reported(p, state, delivered)];
    }

    /** A status that is final, or already the one wanted, is left alone and nothing is sent; otherwise
        the status is written, the pod cleaned up and the update sent, in that order. */
    method SendPodStatus(ghost p: Pid, target: PodStatus, delivered: bool) returns (ghost choices: seq<Choice>)
      modifies this`status, this`launched, this`events
      ensures Ended(old(status)) || old(status) == target
              ==> status == old(status) && launched == old(launched) && events == old(events)
      ensures !Ended(old(status)) && old(status) != target
              ==> && status == target && launched == (old(launched) || target == Running)
                  && events == old(events) + [Wrote(p, target)]
                               + match target
                                 case Running => [Reported(p, TaskRunning, delivered)]
                                 case Finished => [if monitorList != [] then StoppedPod(p) else CleanedUp(p),
                                                   Reported(p, TaskFinished, delivered)]
                                 case Failed => (if launchAttempted then [StoppedPod(p)] else [])
                                                + [Reported(p, TaskFailed, delivered)]
                                 case PullFailed => [CleanedUp(p), Reported(p, TaskFailed, delivered)]
                                 case ComposeCheckFailed => [CleanedUp(p), Reported(p, TaskFailed, delivered)]
                                 case _ => []
      ensures Snapshot() == AfterSend(old(Snapshot()), target)
      ensures events == LogAfterSend(old(Snapshot()), old(events), p, target, monitorList != [], delivered)
      ensures target != Killed ==>
                forall after :: Drive(old(Snapshot()), old(events), p, AtGuard(target, after), choices)
                                == (Snapshot(), events, Resume(after))
    {
      hide LogAfterSend, AfterSend, Blocked, CleanupEvent, ReportEvent, Drive, Final, SendChoices;
      var current := status;
      SendMeans(Snapshot(), events, p, target, monitorList != [], delivered);
      choices := SendChoices(Blocked(status, target), monitorList != [], delivered);
      forall after | target != Killed { DriveSend(Snapshot(), events, p, target, after, monitorList != [], delivered); }
      if current == Failed || current == Killed || current == Finished || current == target {
        return;
      }
      status := target;
      events := events + [Wrote(p, target)];
      match target {
        case Running =>
          launched := true;
          SendMesosStatus(p, TaskRunning, delivered);
        case Finished =>
          if |monitorList| > 0 {
            StopPod(p);
          } else {
            CallPostKillTask(p);
          }
          SendMesosStatus(p, TaskFinished, delivered);
        case Failed =>
          if launchAttempted {
            StopPod(p);
          }
          SendMesosStatus(p, TaskFailed, delivered);
        case PullFailed =>
          CallPostKillTask(p);
          SendMesosStatus(p, TaskFailed, delivered);
        case ComposeCheckFailed =>
          CallPostKillTask(p);
          SendMesosStatus(p, TaskFailed, delivered);
        case _ =>
      }
    }

    /** KillTask acts on a running pod only; a pod in any other state is left alone. */
    method KillTask(ghost call: nat, delivered: bool) returns (ghost choices: seq<Choice>)
      modifies this`status, this`events
      ensures status == if old(status) == Running then Killed else old(status)
      ensures events == if old(status) != Running then old(events)
                        else old(events) + [Wrote(Kill(call), Killed)] + [StoppedPod(Kill(call))]
                             + [Reported(Kill(call), TaskKilled, delivered)]
      ensures Drive(old(Snapshot()), old(events), Kill(call), KillEntry, choices) == (Snapshot(), events, Returned)
    {
      choices := SendChoices(status != Running, true, delivered);
      DriveKill(Snapshot(), events, call, delivered);
      match status {
        case Running =>
          status := Killed;
          events := events + [Wrote(Kill(call), Killed)];
          StopPod(Kill(call));
          SendMesosStatus(Kill(call), TaskKilled, delivered);
        case _ =>
      }
    }

    /** The watcher fails the pod only when the deadline, not `cancel`, ended the wait. */
    method WaitOnPod(delivered: bool) returns (ghost choices: seq<Choice>)
      requires ctx != Live
      modifies this`status, this`launched, this`events
      ensures Snapshot() == if ctx == Expired then AfterSend(old(Snapshot()), Failed) else old(Snapshot())
      ensures events == if ctx == Expired
                        then LogAfterSend(old(Snapshot()), old(events), Watcher, Failed, monitorList != [], delivered)
                        else old(events)
      ensures Drive(old(Snapshot()), old(events), Watcher, AwaitingDone, choices) == (Snapshot(), events, Returned)
    {
      ghost var g, es := Snapshot(), events;
      choices := [IDLE];
      DriveOne(g, es, Watcher, AwaitingDone, IDLE, []);
      assert [IDLE] + [] == [IDLE];
      if ctx == Expired {
        ghost var sent := SendPodStatus(Watcher, Failed, delivered);
        DriveOne(g, es, Watcher, AwaitingDone, IDLE, [IDLE] + sent);
        DriveOne(g, es, Watcher, Dumping, IDLE, sent);
        choices := [IDLE] + ([IDLE] + sent);
      }
    }

    method CancelLaunch()
      modifies this`ctx
      ensures ctx == (if old(ctx) == Live then Canceled else old(ctx))
      ensures Snapshot() == Cancel(old(Snapshot()))
    {
      if ctx == Live {
        ctx := Canceled;
      }
    }

    /** `cancel()` and `SendPodStatus`, as the launch tail always pairs them. */
    method CancelAndSend(target: PodStatus, delivered: bool) returns (ghost choices: seq<Choice>)
      requires target != Killed
      modifies this`ctx, this`status, this`launched, this`events
      ensures Snapshot() == AfterSend(Cancel(old(Snapshot())), target)
      ensures ctx == (if old(ctx) == Live then Canceled else old(ctx))
      ensures events == LogAfterSend(Cancel(old(Snapshot())), old(events), Launcher, target, monitorList != [],
                                     delivered)
      ensures forall after :: Drive(Cancel(old(Snapshot())), old(events), Launcher, AtGuard(target, after), choices)
                              == (Snapshot(), events, Resume(after))
    {
      CancelLaunch();
      choices := SendPodStatus(Launcher, target, delivered);
    }

    /** LaunchTask from the launch call on: `parts` and `up` say whether the compose command was built and ran,
        `health` is the reply of the initial health check (not ok when it timed out), `plugins` whether
        PostLaunchTask of every plugin passed. A failed health check does not skip the plugins. */
    method LaunchTail(parts: bool, up: bool, health: Choice, plugins: bool, delivered: bool)
      returns (monitor: bool, ghost choices: seq<Choice>)
      modifies this`status, this`launched, this`launchAttempted, this`ctx, this`events
      ensures Came(old(Snapshot()), old(events), Launcher, GeneratingParts, choices, Snapshot(), events, Returned)
      ensures var verdict := if !parts || !up || !health.ok || !plugins then Failed else health.verdict;
              var g := old(Snapshot()).(attempted := old(launchAttempted) || parts);
              if verdict == Failed || verdict == Running || verdict == Finished
              then && Snapshot() == AfterSend(Cancel(g), verdict)
                   && events == LogAfterSend(Cancel(g), old(events), Launcher, verdict, monitorList != [], delivered)
              else Snapshot() == g && events == old(events)
      ensures launchAttempted == (old(launchAttempted) || parts)
      ensures monitor <==> parts && up && health.ok && health.verdict == Running && plugins && old(status) != Running
      ensures Final(old(status)) ==> status == old(status)
      ensures !Final(old(status)) ==>
                status == if !parts || !up || !health.ok || health.verdict == Failed || !plugins then Failed
                          else if health.verdict == Running || health.verdict == Finished then health.verdict
                          else old(status)
    {
      ghost var g0, es0 := Snapshot(), events;
      monitor, choices := false, [];
      ComeOneFurther(g0, es0, Launcher, GeneratingParts, choices, g0, es0, GeneratingParts, Choice(parts, Empty));
      choices := choices + [Choice(parts, Empty)];
      if parts {
        launchAttempted := true;
        ghost var g := Snapshot();
        ComeOneFurther(g0, es0, Launcher, GeneratingParts, choices, g, es0, ComposingUp, Choice(up, Empty));
        choices := choices + [Choice(up, Empty)];
      }
      if !parts || !up {
        ghost var g := Snapshot();
        ghost var sent := CancelAndSend(Failed, delivered);
        ComeFurther(g0, es0, Launcher, GeneratingParts, choices, Cancel(g), es0, AtGuard(Failed, Return),
                    sent, Snapshot(), events, Returned);
        choices := choices + sent;
        return;
      }
      ghost var more;
      more := CheckHealthTail(health, delivered);
      ghost var g1 := g0.(attempted := true);
      assert Snapshot() == if !health.ok || health.verdict == Failed then AfterSend(Cancel(g1), Failed) else g1;
      ghost var verdict := if !health.ok then Failed else health.verdict;
      ComeFurther(g0, es0, Launcher, GeneratingParts, choices, g1, es0, CheckingHealth,
                  more, Snapshot(), events, RunningPlugins(verdict));
      choices := choices + more;
      ghost var g2, es2 := Snapshot(), events;
      monitor, more := PluginsTail(if health.ok then health.verdict else Failed, plugins, delivered);
      ComeFurther(g0, es0, Launcher, GeneratingParts, choices, g2, es2, RunningPlugins(verdict),
                  more, Snapshot(), events, Returned);
      choices := choices + more;
    }

    /** The initial health check: a failure or a timeout fails the pod, and the launch goes on. */
    method CheckHealthTail(health: Choice, delivered: bool) returns (ghost choices: seq<Choice>)
      modifies this`status, this`launched, this`ctx, this`events
      ensures Snapshot() == if !health.ok || health.verdict == Failed then AfterSend(Cancel(old(Snapshot())), Failed)
                            else old(Snapshot())
      ensures events == if !health.ok || health.verdict == Failed
                        then LogAfterSend(Cancel(old(Snapshot())), old(events), Launcher, Failed, monitorList != [],
                                          delivered)
                        else old(events)
      ensures Drive(old(Snapshot()), old(events), Launcher, CheckingHealth, choices)
              == (Snapshot(), events, RunningPlugins(if health.ok then health.verdict else Failed))
    {
      ghost var g0, es0 := Snapshot(), events;
      DriveOne(g0, es0, Launcher, CheckingHealth, health, []);
      choices := [health] + [];
      if !health.ok || health.verdict == Failed {
        ghost var sent := CancelAndSend(Failed, delivered);
        DriveOne(g0, es0, Launcher, CheckingHealth, health, sent);
        choices := [health] + sent;
      }
    }

    /** After the plugins: POD_RUNNING starts the monitor, POD_FINISHED ends the job. */
    method PluginsTail(verdict: PodStatus, plugins: bool, delivered: bool)
      returns (monitor: bool, ghost choices: seq<Choice>)
      modifies this`status, this`launched, this`ctx, this`events
      ensures monitor <==> plugins && verdict == Running && old(status) != Running
      ensures var target := if !plugins then Failed else verdict;
              if !plugins || verdict == Running || verdict == Finished
              then && Snapshot() == AfterSend(Cancel(old(Snapshot())), target)
                   && events == LogAfterSend(Cancel(old(Snapshot())), old(events), Launcher, target, monitorList != [],
                                             delivered)
              else Snapshot() == old(Snapshot()) && events == old(events)
      ensures Drive(old(Snapshot()), old(events), Launcher, RunningPlugins(verdict), choices)
              == (Snapshot(), events, Returned)
    {
      ghost var g0, es0, pc := Snapshot(), events, RunningPlugins(verdict);
      ghost var c := Choice(plugins, Empty);
      monitor, choices := false, [c] + [];
      DriveOne(g0, es0, Launcher, pc, c, []);
      if !plugins {
        ghost var sent := CancelAndSend(Failed, delivered);
        DriveOne(g0, es0, Launcher, pc, c, sent);
        choices := [c] + sent;
      } else if verdict == Running {
        CancelLaunch();
        ghost var g1 := Snapshot();
        choices := [c] + ([IDLE] + []);
        DriveOne(g0, es0, Launcher, pc, c, [IDLE] + []);
        DriveOne(g1, es0, Launcher, ReadingStatus, IDLE, []);
        if status != Running {
          ghost var sent := SendPodStatus(Launcher, Running, delivered);
          DriveOne(g0, es0, Launcher, pc, c, [IDLE] + sent);
          DriveOne(g1, es0, Launcher, ReadingStatus, IDLE, sent);
          choices := [c] + ([IDLE] + sent);
          monitor := true;
        }
      } else if verdict == Finished {
        ghost var sent := CancelAndSend(Finished, delivered);
        DriveOne(g0, es0, Launcher, pc, c, sent);
        choices := [c] + sent;
      }
    }

    /** The goroutine of the monitor, from the verdict it comes to. */
    method MonitorTail(verdict: PodStatus, delivered: bool) returns (ghost choices: seq<Choice>)
      requires verdict == Failed || verdict == Finished
      modifies this`status, this`launched, this`events
      ensures Snapshot() == AfterSend(old(Snapshot()), verdict)
      ensures events == LogAfterSend(old(Snapshot()), old(events), Monitor, verdict, monitorList != [], delivered)
      ensures old(status) == Running
              ==> && status == verdict
                  && Reported(Monitor, if verdict == Finished then TaskFinished else TaskFailed, delivered) in events
      ensures Drive(old(Snapshot()), old(events), Monitor, Polling, choices) == (Snapshot(), events, Returned)
    {
      ghost var g, es, c := Snapshot(), events, Choice(true, verdict);
      ghost var sent := SendPodStatus(Monitor, verdict, delivered);
      DriveOne(g, es, Monitor, Polling, c, sent);
      choices := [c] + sent;
    }
  }
}
