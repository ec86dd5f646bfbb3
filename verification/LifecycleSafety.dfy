/** What every schedule keeps, in both modes: conservation of the final reports and causality. */
module LifecycleSafety {
  import opened PodTypes
  import opened Lifecycle

  // ---------------------------------------------------------------- program counters

  predicate Calling(pc: Pc) {
    pc.AtGuard? || pc.AtWrite? || pc.Cleanup? || pc.Sending?
  }

  /** Which program counters each actor can have. */
  predicate Shape(m: Mode, p: Pid, pc: Pc) {
    && (pc.AtWrite? ==> m == Split)
    && match p
       case Launcher =>
         if Calling(pc) then
           || (pc.target == Running && pc.after == SpawnMonitor)
           || (pc.target == Failed && (pc.after == Return || pc.after == RunPlugins(Failed)))
           || (pc.target == Finished && pc.after == Return)
         else !(pc.AwaitingDone? || pc.Dumping? || pc.Polling? || pc.KillEntry?)
       case Watcher =>
         if Calling(pc) then pc.target == Failed && pc.after == Return
         else pc.AwaitingDone? || pc.Dumping? || pc.Returned?
       case Monitor =>
         if Calling(pc) then (pc.target == Failed || pc.target == Finished) && pc.after == Return
         else pc.Polling? || pc.Returned?
       case Kill(_) =>
         if Calling(pc) then !pc.AtGuard? && pc.target == Killed && pc.after == Return
         else pc.KillEntry? || pc.Returned?
  }

  ghost predicate Shapes(m: Mode, procs: map<Pid, Pc>) {
    && Launcher in procs && Watcher in procs
    && (forall p :: p in procs ==> Shape(m, p, procs[p]))
    && (Monitor in procs ==> procs[Launcher] == Returned)
  }

  lemma {:induction false} LocalShape(m: Mode, g: Shared, p: Pid, pc: Pc, c: Choice)
    requires Shape(m, p, pc)
    ensures Shape(m, p, Local(m, g, p, pc, c).pc)
    ensures Spawns(pc, Local(m, g, p, pc, c).pc) ==> p == Launcher
    ensures pc == Returned ==> Local(m, g, p, pc, c) == Move(g, None, pc)
  {}

  lemma {:induction false} ShapesStep(m: Mode, s: State, p: Pid, c: Choice)
    requires Shapes(m, s.procs) && p in s.procs
    ensures Shapes(m, StepProcess(m, s, p, c).procs)
  {
    LocalShape(m, s.g, p, s.procs[p], c);
  }

  // ---------------------------------------------------------------- conservation

  /** Every final write is either still owed to Mesos or has been reported, never both. */
  ghost predicate Balanced(s: State) {
    |Debtors(s.procs)| + TerminalReports(s.events) == FinalWrites(s.events)
  }

  lemma {:induction false} LocalBalance(m: Mode, g: Shared, p: Pid, pc: Pc, c: Choice)
    requires Shape(m, p, pc)
    ensures var move := Local(m, g, p, pc, c);
            && ((Owes(move.pc) && !Owes(pc)) <==> (move.event.Some? && IsFinalWrite(move.event.value)))
            && ((Owes(pc) && !Owes(move.pc)) <==> (move.event.Some? && IsTerminalReport(move.event.value)))
  {}

  /** One step of a process adds at most one event, and moves the debt with it. */
  lemma {:induction false} BalancedStep(m: Mode, s: State, p: Pid, c: Choice)
    requires Shapes(m, s.procs) && Balanced(s) && p in s.procs
    ensures Balanced(StepProcess(m, s, p, c))
  {
    var move := Local(m, s.g, p, s.procs[p], c);
    LocalShape(m, s.g, p, s.procs[p], c);
    LocalBalance(m, s.g, p, s.procs[p], c);
    CountsLogged(s.events, move.event);
    DebtorsUpdate(s.procs, p, move.pc);
    DebtorsUpdate(s.procs[p := move.pc], Monitor, Polling);
  }

  // ---------------------------------------------------------------- POD_RUNNING is written once

  /** The launcher has not yet written, or given up writing, POD_RUNNING. */
  predicate BeforeRunning(pc: Pc) {
    !pc.Returned? && !((pc.Cleanup? || pc.Sending?) && pc.target == Running)
  }

  ghost predicate RunningOnce(s: State) {
    && Launcher in s.procs
    && RunningWrites(s.events) <= 1
    && (RunningWrites(s.events) == 1 ==> !BeforeRunning(s.procs[Launcher]) && s.g.status != Starting)
    && (RunningWrites(s.events) == 0 ==> s.g.status != Running)
    && (s.g.status == Starting || s.g.status == Running || Final(s.g.status))
    && (Final(s.g.status) ==> FinalWrites(s.events) >= 1)
  }

  lemma {:induction false} LocalStatus(m: Mode, g: Shared, p: Pid, pc: Pc, c: Choice)
    requires Shape(m, p, pc)
    ensures var move := Local(m, g, p, pc, c);
            && (if move.event.Some? && move.event.value.Wrote?
                then move.g.status == move.event.value.status
                else move.g.status == g.status)
            && (move.event.Some? && move.event.value.Wrote? ==> move.g.status == Running || Final(move.g.status))
            && (move.event.Some? && IsRunningWrite(move.event.value)
                ==> p == Launcher && BeforeRunning(pc) && !BeforeRunning(move.pc))
            && (p == Launcher && !BeforeRunning(pc) ==> !BeforeRunning(move.pc))
  {}

  lemma {:induction false} RunningOnceStep(m: Mode, s: State, p: Pid, c: Choice)
    requires Shapes(m, s.procs) && RunningOnce(s) && p in s.procs
    ensures RunningOnce(StepProcess(m, s, p, c))
  {
    LocalShape(m, s.g, p, s.procs[p], c);
    LocalStatus(m, s.g, p, s.procs[p], c);
    CountsLogged(s.events, Local(m, s.g, p, s.procs[p], c).event);
  }

  // ---------------------------------------------------------------- causality of the event log

  function StatusOf(state: TaskState): PodStatus {
    match state
    case TaskRunning => Running
    case TaskFailed => Failed
    case TaskKilled => Killed
    case TaskFinished => Finished
  }

  /** What must have happened before an event may happen. */
  predicate Cause(before: seq<Event>, e: Event) {
    match e
    case Wrote(_, status) => status == Killed ==> Wrote(Launcher, Running) in before
    case Reported(p, state, _) =>
      && Wrote(p, StatusOf(state)) in before
      && (state == TaskKilled ==> StoppedPod(p) in before && Wrote(Launcher, Running) in before)
    case _ => true
  }

  /** What an actor's program counter says about the log and the context. */
  predicate Backed(g: Shared, es: seq<Event>, p: Pid, pc: Pc) {
    && (pc.Cleanup? || pc.Sending? ==> Wrote(p, pc.target) in es)
    && (pc.Sending? && pc.target == Killed ==> StoppedPod(p) in es)
    && (Calling(pc) && pc.target == Killed ==> Wrote(Launcher, Running) in es)
    && (p == Watcher && (Calling(pc) || pc.Dumping?) ==> g.ctx == Expired)
  }

  ghost predicate Caused(s: State) {
    && (forall j :: 0 <= j < |s.events| ==> Cause(s.events[..j], s.events[j]))
    && (forall p :: p in s.procs ==> Backed(s.g, s.events, p, s.procs[p]))
    && (s.g.status == Running ==> Wrote(Launcher, Running) in s.events)
    && (forall j :: 0 <= j < |s.events| && s.events[j].actor == Watcher ==> s.g.ctx == Expired)
  }

  lemma {:induction false} LocalBacked(m: Mode, g: Shared, es: seq<Event>, p: Pid, pc: Pc, c: Choice)
    requires Shape(m, p, pc) && Backed(g, es, p, pc)
    requires g.status == Running ==> Wrote(Launcher, Running) in es
    ensures var move := Local(m, g, p, pc, c);
            && (move.event.Some? ==> Cause(es, move.event.value) && move.event.value.actor == p)
            && (p == Watcher && move.event.Some? ==> g.ctx == Expired)
            && Backed(move.g, Logged(es, move.event), p, move.pc)
            && (g.ctx == Expired ==> move.g.ctx == Expired)
  {}

  lemma {:induction false} CausedStep(m: Mode, s: State, p: Pid, c: Choice)
    requires Shapes(m, s.procs) && RunningOnce(s) && Caused(s) && p in s.procs
    ensures Caused(StepProcess(m, s, p, c))
  {
    var s' := StepProcess(m, s, p, c);
    var move := Local(m, s.g, p, s.procs[p], c);
    LocalShape(m, s.g, p, s.procs[p], c);
    LocalStatus(m, s.g, p, s.procs[p], c);
    LocalBacked(m, s.g, s.events, p, s.procs[p], c);
    forall j | 0 <= j < |s'.events| ensures Cause(s'.events[..j], s'.events[j]) {
      assert s'.events[..j] == s.events[..j];
    }
    forall q | q in s'.procs ensures Backed(s'.g, s'.events, q, s'.procs[q]) {
      if q != p && q in s.procs && s'.procs[q] == s.procs[q] {
        assert Backed(s.g, s.events, q, s.procs[q]);
      }
    }
  }

  // ---------------------------------------------------------------- every schedule

  ghost predicate Inv(m: Mode, s: State) {
    Shapes(m, s.procs) && Balanced(s) && RunningOnce(s) && Caused(s)
  }

  lemma {:induction false} StepInv(m: Mode, s: State, p: Pid, c: Choice)
    requires Inv(m, s) && p in s.procs
    ensures Inv(m, StepProcess(m, s, p, c))
  {
    ShapesStep(m, s, p, c);
    BalancedStep(m, s, p, c);
    RunningOnceStep(m, s, p, c);
    CausedStep(m, s, p, c);
  }

  lemma {:induction false} KillCallInv(m: Mode, s: State, call: nat)
    requires Inv(m, s) && Kill(call) !in s.procs
    ensures Inv(m, s.(procs := s.procs[Kill(call) := KillEntry]))
  {
    var s' := s.(procs := s.procs[Kill(call) := KillEntry]);
    assert Shapes(m, s'.procs);
    assert Balanced(s') by { DebtorsUpdate(s.procs, Kill(call), KillEntry); }
    assert Caused(s');
  }

  lemma {:induction false} DeadlineInv(m: Mode, s: State)
    requires Inv(m, s) && s.g.ctx == Live
    ensures Inv(m, s.(g := s.g.(ctx := Expired)))
  {
    forall p | p in s.procs ensures Backed(s.g.(ctx := Expired), s.events, p, s.procs[p]) {
      assert Backed(s.g, s.events, p, s.procs[p]);
    }
  }

  lemma {:induction false} ActInv(m: Mode, s: State, a: Action)
    requires Inv(m, s)
    ensures Inv(m, Act(m, s, a))
  {
    match a
    case DeadlinePasses => if s.g.ctx == Live { DeadlineInv(m, s); }
    case CallKill(call) => if Kill(call) !in s.procs { KillCallInv(m, s, call); }
    case Step(p, c) => if p in s.procs { StepInv(m, s, p, c); }
  }

  lemma {:induction false} RunInv(m: Mode, schedule: seq<Action>)
    ensures Inv(m, Run(m, schedule))
  {
    if schedule == [] {
      assert Debtors(INIT.procs) == {};
    } else {
      RunInv(m, schedule[..|schedule| - 1]);
      ActInv(m, Run(m, schedule[..|schedule| - 1]), schedule[|schedule| - 1]);
    }
  }
}
