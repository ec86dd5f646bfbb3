/** The launch tail, the launch-timeout watcher, the monitor goroutine and any number of
    KillTask calls, racing to move one shared pod status and to report it to Mesos
    (dce/main.go, utils/pod/pod.go).

    Every actor is a process with a program counter. An action lets one process take one step, calls
    KillTask, or lets the launch deadline pass; a schedule is any sequence of actions, and an action
    that is not enabled does nothing. Two modes share all definitions: in `Atomic` mode the
    read of the status and the write that depends on it are one step; in `Split` mode they are two
    steps, each under its own lock, as the code has them. */
module Lifecycle {
  import opened PodTypes

  datatype Mode = Atomic | Split

  datatype Context = Live | Canceled | Expired

  datatype Pid = Launcher | Watcher | Monitor | Kill(call: nat)

  datatype TaskState = TaskRunning | TaskFailed | TaskKilled | TaskFinished

  /** What the caller of `SendPodStatus` does once it returns. */
  datatype After = Return | RunPlugins(verdict: PodStatus) | SpawnMonitor

  datatype Pc =
    | Preparing                                  // LaunchTask before the launch call
    | GeneratingParts                            // LaunchPod, before the command is attempted
    | ComposingUp                                // LaunchPod, docker-compose up in progress
    | CheckingHealth                             // initHealthCheck
    | RunningPlugins(verdict: PodStatus)         // PostLaunchTask of the plugins
    | ReadingStatus                              // the status test before POD_RUNNING is sent
    | AwaitingDone                               // WaitOnPod, blocked on the context
    | Dumping                                    // WaitOnPod, after the deadline
    | Polling                                    // MonitorPoller
    | KillEntry                                  // KillTask, about to read the status
    | AtGuard(target: PodStatus, after: After)   // SendPodStatus, about to read the status
    | AtWrite(target: PodStatus, after: After)   // guard passed, status not yet written (Split only)
    | Cleanup(target: PodStatus, after: After)   // status written, pod not yet stopped
    | Sending(target: PodStatus, after: After)   // about to send the Mesos update
    | Returned

  datatype Event =
    | Wrote(actor: Pid, status: PodStatus)
    | StoppedPod(actor: Pid)
    | CleanedUp(actor: Pid)
    | Reported(actor: Pid, state: TaskState, delivered: bool)

  /** What all actors share. */
  datatype Shared = Shared(status: PodStatus, ctx: Context, launched: bool, attempted: bool)

  /** `events` logs what was done so far; no step reads it. */
  datatype State = State(g: Shared, procs: map<Pid, Pc>, events: seq<Event>)

  /** The outcome of whatever a step waits for: docker, a plugin, the health check, the driver. */
  datatype Choice = Choice(ok: bool, verdict: PodStatus)

  datatype Action = DeadlinePasses | CallKill(call: nat) | Step(pid: Pid, choice: Choice)

  // ---------------------------------------------------------------- the program

  const INIT := State(Shared(Starting, Live, false, false),
                      map[Launcher := Preparing, Watcher := AwaitingDone], [])

  /** One step of a process: the shared state after it, what it logged, and its own next counter. */
  datatype Move = Move(g: Shared, event: Option<Event>, pc: Pc)

  /** `cancel()` on the launch context: the first of cancel and deadline wins. */
  function Cancel(g: Shared): Shared {
    if g.ctx == Live then g.(ctx := Canceled) else g
  }

  /** Where the caller of `SendPodStatus` continues. */
  function Resume(after: After): Pc {
    match after
    case Return | SpawnMonitor => Returned
    case RunPlugins(verdict) => RunningPlugins(verdict)
  }

  predicate Blocked(status: PodStatus, target: PodStatus) {
    Final(status) || status == target
  }

  function Write(g: Shared, p: Pid, target: PodStatus, after: After): Move {
    Move(g.(status := target), Some(Wrote(p, target)), Cleanup(target, after))
  }

  function TaskStateOf(status: PodStatus): Option<TaskState> {
    match status
    case Running => Some(TaskRunning)
    case Finished => Some(TaskFinished)
    case Failed | PullFailed | ComposeCheckFailed => Some(TaskFailed)
    case Killed => Some(TaskKilled)
    case _ => None
  }

  /** What is done to the pod between the status write and the Mesos update; `monitored` says
      whether containers are left in the monitor list. */
  function CleanupEvent(g: Shared, p: Pid, target: PodStatus, monitored: bool): Option<Event> {
    match target
    case Killed => Some(StoppedPod(p))
    case Finished => Some(if monitored then StoppedPod(p) else CleanedUp(p))
    case Failed => if g.attempted then Some(StoppedPod(p)) else None
    case PullFailed | ComposeCheckFailed => Some(CleanedUp(p))
    case _ => None
  }

  function ReportEvent(p: Pid, target: PodStatus, delivered: bool): Option<Event> {
    match TaskStateOf(target)
    case Some(state) => Some(Reported(p, state, delivered))
    case None => None
  }

  function Local(m: Mode, g: Shared, p: Pid, pc: Pc, c: Choice): Move {
    match pc
    case Preparing => Move(g, None, GeneratingParts)
    case GeneratingParts =>
      if c.ok then Move(g.(attempted := true), None, ComposingUp)
      else Move(Cancel(g), None, AtGuard(Failed, Return))
    case ComposingUp =>
      if c.ok then Move(g, None, CheckingHealth)
      else Move(Cancel(g), None, AtGuard(Failed, Return))
    case CheckingHealth =>
      if !c.ok || c.verdict == Failed then Move(Cancel(g), None, AtGuard(Failed, RunPlugins(Failed)))
      else Move(g, None, RunningPlugins(c.verdict))
    case RunningPlugins(verdict) =>
      if !c.ok then Move(Cancel(g), None, AtGuard(Failed, Return))
      else if verdict == Running then Move(Cancel(g), None, ReadingStatus)
      else if verdict == Finished then Move(Cancel(g), None, AtGuard(Finished, Return))
      else Move(g, None, Returned)
    case ReadingStatus =>
      Move(g, None, if g.status != Running then AtGuard(Running, SpawnMonitor) else Returned)
    case AwaitingDone =>
      Move(g, None, if g.ctx == Expired then Dumping else if g.ctx == Canceled then Returned else pc)
    case Dumping => Move(g, None, AtGuard(Failed, Return))
    case Polling =>
      Move(g, None, if c.verdict == Failed || c.verdict == Finished then AtGuard(c.verdict, Return) else pc)
    case KillEntry =>
      if g.status != Running then Move(g, None, Returned)
      else if m == Atomic then Write(g, p, Killed, Return)
      else Move(g, None, AtWrite(Killed, Return))
    case AtGuard(target, after) =>
      if Blocked(g.status, target) then Move(g, None, Resume(after))
      else if m == Atomic then Write(g, p, target, after)
      else Move(g, None, AtWrite(target, after))
    case AtWrite(target, after) => Write(g, p, target, after)
    case Cleanup(target, after) =>
      Move(g.(launched := g.launched || target == Running), CleanupEvent(g, p, target, c.ok),
           Sending(target, after))
    case Sending(target, after) => Move(g, ReportEvent(p, target, c.ok), Resume(after))
    case Returned => Move(g, None, pc)
  }

  /** The launcher starts the monitor when `SendPodStatus(POD_RUNNING)` returns. */
  predicate Spawns(pc: Pc, pc': Pc) {
    (pc.AtGuard? || pc.Sending?) && pc.after == SpawnMonitor && pc' == Returned
  }

  function Logged(es: seq<Event>, e: Option<Event>): seq<Event> {
    if e.Some? then es + [e.value] else es
  }

  function StepProcess(m: Mode, s: State, p: Pid, c: Choice): State
    requires p in s.procs
  {
    var move := Local(m, s.g, p, s.procs[p], c);
    var procs := s.procs[p := move.pc];
    State(move.g,
          if Spawns(s.procs[p], move.pc) then procs[Monitor := Polling] else procs,
          Logged(s.events, move.event))
  }

  function Act(m: Mode, s: State, a: Action): State {
    match a
    case DeadlinePasses => if s.g.ctx == Live then s.(g := s.g.(ctx := Expired)) else s
    case CallKill(call) => if Kill(call) in s.procs then s else s.(procs := s.procs[Kill(call) := KillEntry])
    case Step(p, c) => if p in s.procs then StepProcess(m, s, p, c) else s
  }

  /** The state a schedule leads to. */
  function Run(m: Mode, schedule: seq<Action>): State {
    if schedule == [] then INIT
    else Act(m, Run(m, schedule[..|schedule| - 1]), schedule[|schedule| - 1])
  }

  lemma {:induction false} RunSnoc(m: Mode, schedule: seq<Action>, a: Action)
    ensures Run(m, schedule + [a]) == Act(m, Run(m, schedule), a)
  {
    assert (schedule + [a])[..|schedule|] == schedule;
  }

  // ---------------------------------------------------------------- what the log is measured by

  predicate Terminal(state: TaskState) {
    state != TaskRunning
  }

  predicate IsFinalWrite(e: Event) {
    e.Wrote? && Final(e.status)
  }

  predicate IsRunningWrite(e: Event) {
    e.Wrote? && e.status == Running
  }

  predicate IsTerminalReport(e: Event) {
    e.Reported? && Terminal(e.state)
  }

  function FinalWrites(es: seq<Event>): nat {
    if es == [] then 0
    else FinalWrites(es[..|es| - 1]) + if IsFinalWrite(es[|es| - 1]) then 1 else 0
  }

  function TerminalReports(es: seq<Event>): nat {
    if es == [] then 0
    else TerminalReports(es[..|es| - 1]) + if IsTerminalReport(es[|es| - 1]) then 1 else 0
  }

  function RunningWrites(es: seq<Event>): nat {
    if es == [] then 0
    else RunningWrites(es[..|es| - 1]) + if IsRunningWrite(es[|es| - 1]) then 1 else 0
  }

  lemma {:induction false} CountsLogged(es: seq<Event>, e: Option<Event>)
    ensures FinalWrites(Logged(es, e)) == FinalWrites(es) + if e.Some? && IsFinalWrite(e.value) then 1 else 0
    ensures TerminalReports(Logged(es, e))
            == TerminalReports(es) + if e.Some? && IsTerminalReport(e.value) then 1 else 0
    ensures RunningWrites(Logged(es, e))
            == RunningWrites(es) + if e.Some? && IsRunningWrite(e.value) then 1 else 0
  {
    if e.Some? {
      assert (es + [e.value])[..|es|] == es;
    }
  }

  /** The process has moved the status to a final value and still owes the Mesos update. */
  predicate Owes(pc: Pc) {
    (pc.Cleanup? || pc.Sending?) && Final(pc.target)
  }

  function Debtors(procs: map<Pid, Pc>): set<Pid> {
    set p | p in procs && Owes(procs[p])
  }

  lemma {:induction false} DebtorsUpdate(procs: map<Pid, Pc>, p: Pid, pc: Pc)
    ensures |Debtors(procs[p := pc])|
            == |Debtors(procs) - {p}| + if Owes(pc) then 1 else 0
    ensures |Debtors(procs) - {p}|
            == |Debtors(procs)| - if p in procs && Owes(procs[p]) then 1 else 0
  {
    var before, after := Debtors(procs), Debtors(procs[p := pc]);
    if Owes(pc) {
      assert after == (before - {p}) + {p};
    } else {
      assert after == before - {p};
    }
    if p !in procs || !Owes(procs[p]) {
      assert before - {p} == before;
    }
  }
}
