/** What the executor promises Mesos, for every schedule. */
module LifecycleTheorems {
  import opened PodTypes
  import opened Lifecycle
  import opened LifecycleSafety

  // ---------------------------------------------------------------- both modes

  /** With guard and write split or not: no final report is lost or invented, POD_RUNNING is written
      at most once, kills follow POD_RUNNING, every update was backed by its sender's own status write,
      and the watcher does nothing unless the deadline passed before `cancel`. */
  lemma {:induction false} EveryScheduleIsCausal(m: Mode, schedule: seq<Action>)
    ensures var s := Run(m, schedule);
            && TerminalReports(s.events) + |Debtors(s.procs)| == FinalWrites(s.events)
            && RunningWrites(s.events) <= 1
            && (forall j :: 0 <= j < |s.events| ==> Cause(s.events[..j], s.events[j]))
            && (forall j :: 0 <= j < |s.events| && s.events[j].actor == Watcher ==> s.g.ctx == Expired)
  {
    RunInv(m, schedule);
  }

  /** The context is expired only if the deadline passed while nobody had cancelled it. */
  lemma {:induction false} ExpiredMeansDeadlineWon(m: Mode, schedule: seq<Action>)
    requires Run(m, schedule).g.ctx == Expired
    ensures exists i :: 0 <= i < |schedule| && schedule[i] == DeadlinePasses
                        && Run(m, schedule[..i]).g.ctx == Live
  {
    var n := |schedule| - 1;
    var before := schedule[..n];
    OnlyDeadlineExpires(m, Run(m, before), schedule[n]);
    if Run(m, before).g.ctx != Expired {
    } else {
      ExpiredMeansDeadlineWon(m, before);
      var i :| 0 <= i < n && before[i] == DeadlinePasses && Run(m, before[..i]).g.ctx == Live;
      assert before[..i] == schedule[..i] && schedule[i] == before[i];
    }
  }

  lemma {:induction false} OnlyDeadlineExpires(m: Mode, s: State, a: Action)
    requires Act(m, s, a).g.ctx == Expired
    ensures s.g.ctx == Expired || (a == DeadlinePasses && s.g.ctx == Live)
  {}

  lemma {:induction false} ReportedOnceAllReturned(m: Mode, schedule: seq<Action>)
    requires forall p :: p in Run(m, schedule).procs ==> Run(m, schedule).procs[p] == Returned
    ensures var s := Run(m, schedule); TerminalReports(s.events) == FinalWrites(s.events)
  {
    RunInv(m, schedule);
    assert Debtors(Run(m, schedule).procs) == {};
  }

  // ---------------------------------------------------------------- guard and write in one step

  ghost predicate OneWinner(s: State) {
    && FinalWrites(s.events) <= 1
    && (FinalWrites(s.events) == 1 <==> Final(s.g.status))
    && (forall j :: 0 <= j < |s.events| && IsFinalWrite(s.events[j]) ==> s.events[j].status == s.g.status)
  }

  /** A final status is never left, and a final status is only written over a status that is not final. */
  lemma {:induction false} AtomicGuard(g: Shared, p: Pid, pc: Pc, c: Choice)
    requires Shape(Atomic, p, pc) && Final(g.status)
    ensures var move := Local(Atomic, g, p, pc, c);
            move.g.status == g.status && (move.event.Some? ==> !move.event.value.Wrote?)
  {}

  lemma {:induction false} OneWinnerAct(s: State, a: Action)
    requires Inv(Atomic, s) && OneWinner(s)
    ensures OneWinner(Act(Atomic, s, a))
    ensures Final(s.g.status) ==> Act(Atomic, s, a).g.status == s.g.status
  {
    hide Local, Balanced, RunningOnce, Caused;
    if a.Step? && a.pid in s.procs {
      var move := Local(Atomic, s.g, a.pid, s.procs[a.pid], a.choice);
      LocalStatus(Atomic, s.g, a.pid, s.procs[a.pid], a.choice);
      CountsLogged(s.events, move.event);
      if Final(s.g.status) {
        AtomicGuard(s.g, a.pid, s.procs[a.pid], a.choice);
      } else {
        NoFinalWrite(s.events);
      }
    }
  }

  lemma {:induction false} NoFinalWrite(es: seq<Event>)
    ensures FinalWrites(es) == 0 <==> forall j :: 0 <= j < |es| ==> !IsFinalWrite(es[j])
  {
    if es == [] {
    } else {
      var n := |es| - 1;
      NoFinalWrite(es[..n]);
      assert forall j :: 0 <= j < n ==> es[..n][j] == es[j];
    }
  }

  lemma {:induction false} RunOneWinner(schedule: seq<Action>)
    ensures OneWinner(Run(Atomic, schedule))
  {
    if schedule == [] {
    } else {
      var n := |schedule| - 1;
      RunInv(Atomic, schedule[..n]);
      RunOneWinner(schedule[..n]);
      OneWinnerAct(Run(Atomic, schedule[..n]), schedule[n]);
    }
  }

  /** At most one final update is ever owed or sent, exactly one once the status is final, and
      every final update that was sent reports that very status. */
  lemma {:induction false} AtMostOneTerminalUpdate(schedule: seq<Action>)
    ensures var s := Run(Atomic, schedule);
            && TerminalReports(s.events) + |Debtors(s.procs)| <= 1
            && (TerminalReports(s.events) + |Debtors(s.procs)| == 1 <==> Final(s.g.status))
            && (forall j :: 0 <= j < |s.events| && IsTerminalReport(s.events[j])
                            ==> TaskStateOf(s.g.status) == Some(s.events[j].state))
  {
    var s := Run(Atomic, schedule);
    RunInv(Atomic, schedule);
    RunOneWinner(schedule);
    forall j | 0 <= j < |s.events| && IsTerminalReport(s.events[j])
      ensures TaskStateOf(s.g.status) == Some(s.events[j].state)
    {
      var w := Wrote(s.events[j].actor, StatusOf(s.events[j].state));
      assert Cause(s.events[..j], s.events[j]);
      assert w in s.events[..j];
      var i :| 0 <= i < j && s.events[..j][i] == w;
      assert s.events[i] == w && IsFinalWrite(s.events[i]);
    }
  }

  lemma {:induction false} FinalStatusStays(schedule: seq<Action>, a: Action)
    requires Final(Run(Atomic, schedule).g.status)
    ensures Run(Atomic, schedule + [a]).g.status == Run(Atomic, schedule).g.status
  {
    RunInv(Atomic, schedule);
    RunOneWinner(schedule);
    OneWinnerAct(Run(Atomic, schedule), a);
    RunSnoc(Atomic, schedule, a);
  }

  /** FAILED, KILLED and FINISHED absorb: whatever follows, the status stays. */
  lemma {:induction false} FinalStatusAbsorbs(schedule: seq<Action>, later: seq<Action>)
    requires Final(Run(Atomic, schedule).g.status)
    ensures Run(Atomic, schedule + later).g.status == Run(Atomic, schedule).g.status
  {
    if later == [] {
      assert schedule + later == schedule;
    } else {
      var n := |later| - 1;
      FinalStatusAbsorbs(schedule, later[..n]);
      FinalStatusStays(schedule + later[..n], later[n]);
      assert schedule + later == (schedule + later[..n]) + [later[n]];
    }
  }

  // ---------------------------------------------------------------- TASK_RUNNING after the end

  /** `SendPodStatus(POD_RUNNING)` has passed its guard and still owes TASK_RUNNING. */
  predicate OwesRunning(pc: Pc) {
    (pc.AtWrite? || pc.Cleanup? || pc.Sending?) && pc.target == Running
  }

  predicate IsRunningReport(e: Event) {
    e.Reported? && e.state == TaskRunning
  }

  /** No TASK_RUNNING is sent after a final update. */
  ghost predicate InOrder(es: seq<Event>) {
    forall i, j :: 0 <= i < j < |es| && IsTerminalReport(es[i]) ==> !IsRunningReport(es[j])
  }

  ghost predicate Ended(es: seq<Event>) {
    exists i :: 0 <= i < |es| && IsTerminalReport(es[i])
  }

  lemma {:induction false} OrderLogged(es: seq<Event>, e: Option<Event>)
    ensures InOrder(Logged(es, e)) <==> InOrder(es) && !(e.Some? && IsRunningReport(e.value) && Ended(es))
    ensures Ended(Logged(es, e)) <==> Ended(es) || (e.Some? && IsTerminalReport(e.value))
  {
    var es', n := Logged(es, e), |es|;
    assert forall i :: 0 <= i < n ==> es'[i] == es[i];
    if e.Some? {
      assert es'[n] == e.value;
    }
  }

  /** The step reports a final status while the launcher still owes TASK_RUNNING. */
  predicate Overtakes(s: State, a: Action) {
    && a.Step? && a.pid in s.procs && Launcher in s.procs
    && s.procs[a.pid].Sending? && Final(s.procs[a.pid].target)
    && OwesRunning(s.procs[Launcher])
  }

  lemma {:induction false} LocalReports(m: Mode, g: Shared, p: Pid, pc: Pc, c: Choice)
    requires Shape(m, p, pc)
    ensures var move := Local(m, g, p, pc, c);
            && (move.event.Some? && IsTerminalReport(move.event.value) <==> pc.Sending? && Final(pc.target))
            && (move.event.Some? && IsRunningReport(move.event.value) <==> pc.Sending? && pc.target == Running)
            && (pc.Sending? && pc.target == Running ==> p == Launcher && move.pc == Returned)
            && (OwesRunning(pc) && !pc.Sending? ==> OwesRunning(move.pc))
            && (!OwesRunning(pc) && OwesRunning(move.pc) ==> !Final(g.status) && BeforeRunning(pc))
  {}

  // ---------------------------------------------------------------- final until POD_RUNNING overwrites it

  /** Once a final status was written, the status is final as long as the launcher has not written POD_RUNNING
      over it. */
  ghost predicate FinalBeforeRunning(s: State) {
    Launcher in s.procs && (FinalWrites(s.events) >= 1 && BeforeRunning(s.procs[Launcher]) ==> Final(s.g.status))
  }

  lemma {:induction false} FinalBeforeRunningStep(m: Mode, s: State, p: Pid, c: Choice)
    requires Inv(m, s) && FinalBeforeRunning(s) && p in s.procs
    ensures FinalBeforeRunning(StepProcess(m, s, p, c))
  {
    var move := Local(m, s.g, p, s.procs[p], c);
    LocalShape(m, s.g, p, s.procs[p], c);
    LocalStatus(m, s.g, p, s.procs[p], c);
    CountsLogged(s.events, move.event);
  }

  lemma {:induction false} RunFinalBeforeRunning(m: Mode, schedule: seq<Action>)
    ensures FinalBeforeRunning(Run(m, schedule))
  {
    if schedule == [] {
    } else {
      var n := |schedule| - 1;
      RunFinalBeforeRunning(m, schedule[..n]);
      RunInv(m, schedule[..n]);
      match schedule[n]
      case Step(p, c) => if p in Run(m, schedule[..n]).procs { FinalBeforeRunningStep(m, Run(m, schedule[..n]), p, c); }
      case _ =>
    }
  }

  lemma {:induction false} EndedWasWritten(s: State)
    requires Caused(s) && Ended(s.events)
    ensures FinalWrites(s.events) >= 1
  {
    var j :| 0 <= j < |s.events| && IsTerminalReport(s.events[j]);
    assert Cause(s.events[..j], s.events[j]);
    var w := Wrote(s.events[j].actor, StatusOf(s.events[j].state));
    var i :| 0 <= i < j && s.events[..j][i] == w;
    assert IsFinalWrite(s.events[i]);
    NoFinalWrite(s.events);
  }

  // ---------------------------------------------------------------- exactly when the order is lost

  /** While a final update is out and TASK_RUNNING still owed, the order is already lost. */
  ghost predicate Doomed(s: State) {
    Launcher in s.procs && (!InOrder(s.events) || (Ended(s.events) && OwesRunning(s.procs[Launcher])))
  }

  lemma {:induction false} DoomedStays(m: Mode, s: State, a: Action)
    requires Inv(m, s) && Doomed(s)
    ensures Doomed(Act(m, s, a))
  {
    if a.Step? && a.pid in s.procs {
      LocalShape(m, s.g, a.pid, s.procs[a.pid], a.choice);
      LocalReports(m, s.g, a.pid, s.procs[a.pid], a.choice);
      OrderLogged(s.events, Local(m, s.g, a.pid, s.procs[a.pid], a.choice).event);
    }
  }

  ghost predicate Punctual(s: State) {
    Launcher in s.procs && InOrder(s.events) && (Ended(s.events) ==> !OwesRunning(s.procs[Launcher]))
  }

  lemma {:induction false} PunctualStays(m: Mode, s: State, a: Action)
    requires Inv(m, s) && FinalBeforeRunning(s) && Punctual(s) && !Overtakes(s, a)
    ensures Punctual(Act(m, s, a))
  {
    if a.Step? && a.pid in s.procs {
      LocalShape(m, s.g, a.pid, s.procs[a.pid], a.choice);
      LocalReports(m, s.g, a.pid, s.procs[a.pid], a.choice);
      OrderLogged(s.events, Local(m, s.g, a.pid, s.procs[a.pid], a.choice).event);
      if Ended(s.events) {
        EndedWasWritten(s);
      }
    }
  }

  ghost predicate NeverOvertakes(m: Mode, schedule: seq<Action>) {
    forall i :: 0 <= i < |schedule| ==> !Overtakes(Run(m, schedule[..i]), schedule[i])
  }

  lemma {:induction false} PunctualRun(m: Mode, schedule: seq<Action>)
    requires NeverOvertakes(m, schedule)
    ensures Punctual(Run(m, schedule))
  {
    if schedule == [] {
    } else {
      var n := |schedule| - 1;
      var before := schedule[..n];
      assert NeverOvertakes(m, before) by {
        assert forall i :: 0 <= i < n ==> before[..i] == schedule[..i];
      }
      PunctualRun(m, before);
      RunInv(m, before);
      RunFinalBeforeRunning(m, before);
      PunctualStays(m, Run(m, before), schedule[n]);
    }
  }

  lemma {:induction false} DoomedNext(m: Mode, schedule: seq<Action>, a: Action)
    requires Doomed(Run(m, schedule))
    ensures Doomed(Run(m, schedule + [a]))
  {
    RunInv(m, schedule);
    DoomedStays(m, Run(m, schedule), a);
    RunSnoc(m, schedule, a);
  }

  lemma {:induction false} DoomedRun(m: Mode, schedule: seq<Action>, later: seq<Action>)
    requires Doomed(Run(m, schedule))
    ensures Doomed(Run(m, schedule + later))
    decreases |later|
  {
    if later == [] {
      assert schedule + later == schedule;
    } else {
      DoomedNext(m, schedule, later[0]);
      DoomedRun(m, schedule + [later[0]], later[1..]);
      assert schedule + later == schedule + [later[0]] + later[1..];
    }
  }

  lemma {:induction false} OvertakingDooms(m: Mode, s: State, a: Action)
    requires Inv(m, s) && Overtakes(s, a)
    ensures Doomed(Act(m, s, a))
  {
    LocalShape(m, s.g, a.pid, s.procs[a.pid], a.choice);
    LocalReports(m, s.g, a.pid, s.procs[a.pid], a.choice);
    OrderLogged(s.events, Local(m, s.g, a.pid, s.procs[a.pid], a.choice).event);
  }

  lemma {:induction false} OvertakenNext(m: Mode, before: seq<Action>, a: Action)
    requires Overtakes(Run(m, before), a)
    ensures Doomed(Run(m, before + [a]))
  {
    RunInv(m, before);
    OvertakingDooms(m, Run(m, before), a);
    RunSnoc(m, before, a);
  }

  lemma {:induction false} Rejoin<T>(xs: seq<T>, i: nat)
    requires i < |xs|
    ensures xs[..i] + [xs[i]] + xs[i + 1..] == xs
  {}

  lemma {:induction false} OvertakenRun(m: Mode, schedule: seq<Action>, i: nat)
    requires i < |schedule| && Overtakes(Run(m, schedule[..i]), schedule[i])
    ensures Doomed(Run(m, schedule))
  {
    OvertakenNext(m, schedule[..i], schedule[i]);
    DoomedRun(m, schedule[..i] + [schedule[i]], schedule[i + 1..]);
    Rejoin(schedule, i);
  }

  /** TASK_RUNNING can reach Mesos after the final update, with guard and write in one step or in two: in a
      launch that has returned, exactly when some final update was sent after POD_RUNNING had passed its guard
      and before TASK_RUNNING was sent. */
  lemma {:induction false} InOrderIffNeverOvertakes(m: Mode, schedule: seq<Action>)
    requires Launcher in Run(m, schedule).procs && Run(m, schedule).procs[Launcher] == Returned
    ensures InOrder(Run(m, schedule).events) <==> NeverOvertakes(m, schedule)
  {
    if NeverOvertakes(m, schedule) {
      PunctualRun(m, schedule);
    } else {
      var i :| 0 <= i < |schedule| && Overtakes(Run(m, schedule[..i]), schedule[i]);
      OvertakenRun(m, schedule, i);
    }
  }
}
