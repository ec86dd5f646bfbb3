/** What every actor does to the pod before it reports a status, and what comes of a monitor that concludes
    (utils/pod/pod.go, lines 890-928; dce/main.go, lines 303-313). */
module LifecycleCleanup {
  import opened PodTypes
  import opened Lifecycle
  import opened LifecycleSafety
  import opened LifecycleTheorems

  // ---------------------------------------------------------------- cleanup before the report

  /** An actor's cleanup: for which status, whether containers were left in the monitor list, and whether the launch
      had been attempted. */
  datatype Note = Note(target: PodStatus, monitored: bool, attempted: bool)

  /** The last cleanup that the actor made in the schedule. */
  function CleanupOf(m: Mode, schedule: seq<Action>, p: Pid): Option<Note> {
    if schedule == [] then None
    else
      var n := |schedule| - 1;
      var s := Run(m, schedule[..n]);
      if Cleans(s, schedule[n], p) then Some(NoteAt(s, schedule[n], p)) else CleanupOf(m, schedule[..n], p)
  }

  predicate Cleans(s: State, a: Action, p: Pid) {
    a.Step? && a.pid == p && p in s.procs && s.procs[p].Cleanup?
  }

  function NoteAt(s: State, a: Action, p: Pid): Note
    requires Cleans(s, a, p)
  {
    Note(s.procs[p].target, a.choice.ok, s.g.attempted)
  }

  /** The pod was stopped exactly for a kill, for a finished pod with containers left, and for a failed pod whose
      launch had been attempted; a finished pod without containers was cleaned up. */
  predicate Tidied(note: Note, p: Pid, es: seq<Event>) {
    && (StoppedPod(p) in es
        <==> || note.target == Killed || (note.target == Finished && note.monitored)
             || (note.target == Failed && note.attempted))
    && (CleanedUp(p) in es <==> note.target == Finished && !note.monitored)
  }

  /** The update that belongs to the status. */
  predicate Tells(note: Note, state: TaskState) {
    && (state == TaskRunning <==> note.target == Running) && (state == TaskFailed <==> note.target == Failed)
    && (state == TaskKilled <==> note.target == Killed) && (state == TaskFinished <==> note.target == Finished)
  }

  /** Where an actor can be once it has made its cleanup: it makes no other. */
  predicate Past(p: Pid, note: Note, pc: Pc) {
    || pc == Returned || (pc.Sending? && pc.target == note.target)
    || (p == Launcher && note.target == Failed && (pc == RunningPlugins(Failed) || pc == AtGuard(Failed, Return)))
  }

  ghost predicate Untold(es: seq<Event>, p: Pid) {
    && StoppedPod(p) !in es && CleanedUp(p) !in es
    && forall j :: 0 <= j < |es| && es[j].Reported? ==> es[j].actor != p
  }

  ghost predicate ToldTidily(es: seq<Event>, p: Pid, note: Note) {
    && Tidied(note, p, es)
    && forall j :: 0 <= j < |es| && es[j].Reported? && es[j].actor == p
                   ==> Tidied(note, p, es[..j]) && Tells(note, es[j].state)
  }

  ghost predicate Noted(s: State, p: Pid, note: Option<Note>) {
    match note
    case None => Untold(s.events, p) && (p in s.procs ==> !s.procs[p].Sending?)
    case Some(n) => && p in s.procs && Past(p, n, s.procs[p]) && Wrote(p, n.target) in s.events
                    && ToldTidily(s.events, p, n)
  }

  /** An event of another actor changes nothing for this one. */
  lemma {:induction false} OthersEvent(es: seq<Event>, e: Event, p: Pid)
    requires e.actor != p
    ensures Untold(es, p) ==> Untold(es + [e], p)
    ensures forall note :: ToldTidily(es, p, note) ==> ToldTidily(es + [e], p, note)
  {
    forall note | ToldTidily(es, p, note) ensures ToldTidily(es + [e], p, note) {
      forall j | 0 <= j < |es + [e]| && (es + [e])[j].Reported? && (es + [e])[j].actor == p
        ensures Tidied(note, p, (es + [e])[..j])
      {
        assert (es + [e])[..j] == es[..j];
      }
    }
  }

  lemma {:induction false} WriteTells(es: seq<Event>, p: Pid, status: PodStatus)
    ensures Untold(es, p) ==> Untold(es + [Wrote(p, status)], p)
  {}

  /** The actor's own cleanup. */
  lemma {:induction false} CleanupTells(es: seq<Event>, g: Shared, p: Pid, target: PodStatus, monitored: bool)
    requires Untold(es, p)
    requires target == Running || target == Failed || target == Finished || target == Killed
    ensures ToldTidily(Logged(es, CleanupEvent(g, p, target, monitored)), p, Note(target, monitored, g.attempted))
  {
    var e := CleanupEvent(g, p, target, monitored);
    assert Logged(es, e) == if e.Some? then es + [e.value] else es;
  }

  /** The actor's own report. */
  lemma {:induction false} ReportTells(es: seq<Event>, p: Pid, note: Note, delivered: bool)
    requires ToldTidily(es, p, note)
    requires note.target == Running || note.target == Failed || note.target == Finished || note.target == Killed
    ensures ToldTidily(Logged(es, ReportEvent(p, note.target, delivered)), p, note)
  {
    var e := ReportEvent(p, note.target, delivered).value;
    forall j | 0 <= j < |es + [e]| && (es + [e])[j].Reported? && (es + [e])[j].actor == p
      ensures Tidied(note, p, (es + [e])[..j]) && Tells(note, (es + [e])[j].state)
    {
      assert (es + [e])[..j] == es[..j];
      if j == |es| {
        assert es[..j] == es;
      }
    }
  }

  /** Only the four statuses of the protocol are ever sent. */
  lemma {:induction false} TargetIs(m: Mode, p: Pid, pc: Pc)
    requires Shape(m, p, pc) && Calling(pc)
    ensures pc.target == Running || pc.target == Failed || pc.target == Finished || pc.target == Killed
    ensures pc.after == RunPlugins(Failed) || pc.after == Return || (pc.after == SpawnMonitor && pc.target == Running)
    ensures pc.after == RunPlugins(Failed) ==> p == Launcher && pc.target == Failed
  {}

  /** The process's own step, if it has made no cleanup before. */
  lemma {:induction false} OwnFirstSteps(m: Mode, s: State, p: Pid, c: Choice)
    requires Inv(m, s) && p in s.procs && Noted(s, p, None)
    ensures var a := Step(p, c);
            Noted(StepProcess(m, s, p, c), p, if Cleans(s, a, p) then Some(NoteAt(s, a, p)) else None)
  {
    hide Inv, Untold, ToldTidily, Tidied, Tells;
    InvParts(m, s, p);
    var pc := s.procs[p];
    LocalShape(m, s.g, p, pc, c);
    SpawnsElsewhere(m, s, p, c);
    if pc.Cleanup? {
      TargetIs(m, p, pc);
      CleanupTells(s.events, s.g, p, pc.target, c.ok);
    } else {
      hide Local, Spawns, Past;
      var move := Local(m, s.g, p, pc, c);
      OnlyWrites(m, s.g, p, pc, c);
      if move.event.Some? {
        WriteTells(s.events, p, move.event.value.status);
      }
    }
  }

  /** The process's own step, if it has. */
  lemma {:induction false} OwnLaterSteps(m: Mode, s: State, p: Pid, c: Choice, n: Note)
    requires Inv(m, s) && FinalBeforeRunning(s) && p in s.procs && Noted(s, p, Some(n))
    ensures Noted(StepProcess(m, s, p, c), p, Some(n)) && !Cleans(s, Step(p, c), p)
  {
    hide Inv, Untold, ToldTidily, Tidied, Tells;
    InvParts(m, s, p);
    var pc := s.procs[p];
    LocalShape(m, s.g, p, pc, c);
    SpawnsElsewhere(m, s, p, c);
    if pc.Sending? {
      TargetIs(m, p, pc);
      ReportTells(s.events, p, n, c.ok);
    } else if pc.AtGuard? {
      WrittenIsFinal(s, p, n);
    }
  }

  /** A process that starts the monitor is not the monitor. */
  lemma {:induction false} SpawnsElsewhere(m: Mode, s: State, p: Pid, c: Choice)
    requires Inv(m, s) && p in s.procs
    ensures var s', move := StepProcess(m, s, p, c), Local(m, s.g, p, s.procs[p], c);
            p in s'.procs && s'.procs[p] == move.pc && s'.events == Logged(s.events, move.event)
  {
    hide Inv, Local;
    InvParts(m, s, p);
    LocalShape(m, s.g, p, s.procs[p], c);
  }

  lemma {:induction false} OwnStep(m: Mode, s: State, p: Pid, c: Choice, note: Option<Note>)
    requires Inv(m, s) && FinalBeforeRunning(s) && p in s.procs && Noted(s, p, note)
    ensures var a := Step(p, c);
            Noted(StepProcess(m, s, p, c), p, if Cleans(s, a, p) then Some(NoteAt(s, a, p)) else note)
  {
    match note {
      case None => OwnFirstSteps(m, s, p, c);
      case Some(n) => OwnLaterSteps(m, s, p, c, n);
    }
    hide Inv, FinalBeforeRunning, Noted, StepProcess;
  }

  lemma {:induction false} InvParts(m: Mode, s: State, p: Pid)
    requires Inv(m, s) && p in s.procs
    ensures Shape(m, p, s.procs[p]) && Launcher in s.procs && (Monitor in s.procs ==> s.procs[Launcher] == Returned)
    ensures s.procs[p].Cleanup? || s.procs[p].Sending? ==> Wrote(p, s.procs[p].target) in s.events
  {
    assert Backed(s.g, s.events, p, s.procs[p]);
  }

  lemma {:induction false} OnlyWrites(m: Mode, g: Shared, p: Pid, pc: Pc, c: Choice)
    requires !pc.Cleanup? && !pc.Sending?
    ensures var move := Local(m, g, p, pc, c);
            !move.pc.Sending? && (move.event.Some? ==> move.event.value.Wrote? && move.event.value.actor == p)
  {}

  /** A launcher that has failed the pod finds a final status. */
  lemma {:induction false} WrittenIsFinal(s: State, p: Pid, n: Note)
    requires FinalBeforeRunning(s) && p in s.procs && Past(p, n, s.procs[p]) && s.procs[p].AtGuard?
    requires Wrote(p, n.target) in s.events
    ensures Final(s.g.status)
  {
    NoFinalWrite(s.events);
    var j :| 0 <= j < |s.events| && s.events[j] == Wrote(p, n.target);
    assert IsFinalWrite(s.events[j]);
  }

  /** A step of another process. */
  lemma {:induction false} OthersStep(m: Mode, s: State, q: Pid, c: Choice, p: Pid, note: Option<Note>)
    requires Inv(m, s) && q in s.procs && q != p && Noted(s, p, note)
    ensures Noted(StepProcess(m, s, q, c), p, note)
  {
    hide Inv, Untold, ToldTidily, Past;
    InvParts(m, s, q);
    ActorIs(m, s, q, c);
    var pc := s.procs[q];
    LocalShape(m, s.g, q, pc, c);
    var move := Local(m, s.g, q, pc, c);
    if move.event.Some? {
      OthersEvent(s.events, move.event.value, p);
    }
    if Spawns(pc, move.pc) {
      SpawnsOnce(pc, move.pc);
    }
  }

  lemma {:induction false} SpawnsOnce(pc: Pc, pc': Pc)
    requires Spawns(pc, pc')
    ensures pc != Returned
  {}

  lemma {:induction false} ActorIs(m: Mode, s: State, q: Pid, c: Choice)
    requires Inv(m, s) && q in s.procs
    ensures var move := Local(m, s.g, q, s.procs[q], c); move.event.Some? ==> move.event.value.actor == q
  {
    assert Backed(s.g, s.events, q, s.procs[q]);
    LocalBacked(m, s.g, s.events, q, s.procs[q], c);
  }

  lemma {:induction false} ActNoted(m: Mode, s: State, a: Action, p: Pid, note: Option<Note>)
    requires Inv(m, s) && FinalBeforeRunning(s) && Noted(s, p, note)
    ensures Noted(Act(m, s, a), p, if Cleans(s, a, p) then Some(NoteAt(s, a, p)) else note)
  {
    hide Inv, Untold, ToldTidily, FinalBeforeRunning;
    match a
    case Step(q, c) =>
      if q in s.procs {
        if q == p {
          OwnStep(m, s, p, c, note);
        } else {
          OthersStep(m, s, q, c, p, note);
        }
      }
    case _ =>
  }

  lemma {:induction false} RunNoted(m: Mode, schedule: seq<Action>, p: Pid)
    ensures Noted(Run(m, schedule), p, CleanupOf(m, schedule, p))
  {
    if schedule == [] {
    } else {
      hide Noted, Cleans, Act;
      var n := |schedule| - 1;
      RunNoted(m, schedule[..n], p);
      RunInv(m, schedule[..n]);
      RunFinalBeforeRunning(m, schedule[..n]);
      ActNoted(m, Run(m, schedule[..n]), schedule[n], p, CleanupOf(m, schedule[..n], p));
    }
  }

  lemma {:induction false} CleanupWas(m: Mode, schedule: seq<Action>, p: Pid) returns (i: nat)
    requires CleanupOf(m, schedule, p).Some?
    ensures i < |schedule| && Cleans(Run(m, schedule[..i]), schedule[i], p)
    ensures CleanupOf(m, schedule, p) == Some(NoteAt(Run(m, schedule[..i]), schedule[i], p))
  {
    hide Cleans, Run;
    i := |schedule| - 1;
    if Cleans(Run(m, schedule[..i]), schedule[i], p) {
    } else {
      var before := schedule[..i];
      i := CleanupWas(m, before, p);
      assert before[..i] == schedule[..i] && before[i] == schedule[i];
    }
  }

  /** In every schedule and both modes: before an actor reports, it has made its cleanup, at step `i`. TASK_FINISHED
      is preceded by stopping the pod exactly if containers were left in the monitor list then, and by the plugins'
      cleanup otherwise; TASK_FAILED by stopping the pod exactly if the launch had been attempted then; TASK_KILLED
      by stopping the pod always; TASK_RUNNING by neither. */
  lemma {:induction false} CleanupBeforeReport(m: Mode, schedule: seq<Action>, j: nat) returns (i: nat)
    requires j < |Run(m, schedule).events| && Run(m, schedule).events[j].Reported?
    ensures i < |schedule|
    ensures var es := Run(m, schedule).events;
            var p, state, before, s := es[j].actor, es[j].state, es[..j], Run(m, schedule[..i]);
            && schedule[i].Step? && schedule[i].pid == p && p in s.procs && s.procs[p].Cleanup?
            && var monitored := schedule[i].choice.ok;
               var stopped, cleaned := StoppedPod(p) in before, CleanedUp(p) in before;
               match state
               case TaskFinished => (stopped <==> monitored) && (cleaned <==> !monitored)
               case TaskFailed => (stopped <==> s.g.attempted) && !cleaned
               case TaskKilled => stopped && !cleaned
               case TaskRunning => !stopped && !cleaned
  {
    var p := Run(m, schedule).events[j].actor;
    RunNoted(m, schedule, p);
    i := CleanupWas(m, schedule, p);
    hide Run, CleanupOf;
  }

  // ---------------------------------------------------------------- the monitor starts, and concludes

  /** The launcher reads, before it sends POD_RUNNING, that the pod is not running yet. */
  predicate ReadsNotRunning(s: State, a: Action) {
    && a.Step? && a.pid == Launcher && Launcher in s.procs
    && s.procs[Launcher] == ReadingStatus && s.g.status != Running
  }

  ghost predicate ReadsAt(m: Mode, schedule: seq<Action>, i: nat)
    requires i < |schedule|
  {
    ReadsNotRunning(Run(m, schedule[..i]), schedule[i])
  }

  ghost predicate HasRead(m: Mode, schedule: seq<Action>) {
    exists i :: 0 <= i < |schedule| && ReadsAt(m, schedule, i)
  }

  lemma {:induction false} SameRead(m: Mode, schedule: seq<Action>, n: nat, i: nat)
    requires i < n <= |schedule|
    ensures ReadsAt(m, schedule[..n], i) <==> ReadsAt(m, schedule, i)
  {
    hide Run, ReadsNotRunning;
    assert schedule[..n][..i] == schedule[..i] && schedule[..n][i] == schedule[i];
  }

  lemma {:induction false} HasReadLast(m: Mode, schedule: seq<Action>)
    requires schedule != []
    ensures var n := |schedule| - 1;
            HasRead(m, schedule)
            <==> HasRead(m, schedule[..n]) || ReadsNotRunning(Run(m, schedule[..n]), schedule[n])
  {
    hide Run, ReadsNotRunning;
    var n := |schedule| - 1;
    assert ReadsAt(m, schedule, n) <==> ReadsNotRunning(Run(m, schedule[..n]), schedule[n]);
    hide ReadsAt;
    if i :| 0 <= i < |schedule| && ReadsAt(m, schedule, i) {
      if i < n {
        SameRead(m, schedule, n, i);
      }
    }
    if i :| 0 <= i < n && ReadsAt(m, schedule[..n], i) {
      SameRead(m, schedule, n, i);
    }
  }

  predicate WillSpawn(pc: Pc) {
    Calling(pc) && pc.after == SpawnMonitor
  }

  /** Having read that, the launcher is on its way to start the monitor, or it has. */
  ghost predicate SpawnedIf(s: State, read: bool) {
    Launcher in s.procs && (read <==> WillSpawn(s.procs[Launcher]) || Monitor in s.procs)
  }

  lemma {:induction false} LauncherStep(m: Mode, s: State, c: Choice, read: bool)
    requires Inv(m, s) && SpawnedIf(s, read)
    ensures SpawnedIf(StepProcess(m, s, Launcher, c), read || ReadsNotRunning(s, Step(Launcher, c)))
  {
    hide Inv;
    InvParts(m, s, Launcher);
    LocalShape(m, s.g, Launcher, s.procs[Launcher], c);
    if Calling(s.procs[Launcher]) {
      TargetIs(m, Launcher, s.procs[Launcher]);
    }
  }

  lemma {:induction false} ActSpawned(m: Mode, s: State, a: Action, read: bool)
    requires Inv(m, s) && SpawnedIf(s, read)
    ensures SpawnedIf(Act(m, s, a), read || ReadsNotRunning(s, a))
  {
    hide Inv, WillSpawn;
    match a
    case Step(q, c) =>
      if q in s.procs {
        if q == Launcher {
          LauncherStep(m, s, c, read);
        } else {
          InvParts(m, s, q);
          LocalShape(m, s.g, q, s.procs[q], c);
        }
      }
    case _ =>
  }

  lemma {:induction false} RunSpawned(m: Mode, schedule: seq<Action>)
    ensures SpawnedIf(Run(m, schedule), HasRead(m, schedule))
  {
    if schedule == [] {
    } else {
      var n := |schedule| - 1;
      var before := schedule[..n];
      assert Run(m, schedule) == Act(m, Run(m, before), schedule[n]);
      hide SpawnedIf, ReadsNotRunning, HasRead, Act, Run, Inv;
      RunSpawned(m, before);
      RunInv(m, before);
      ActSpawned(m, Run(m, before), schedule[n], HasRead(m, before));
      HasReadLast(m, schedule);
    }
  }

  /** Once the launcher has returned, the monitor has been started exactly if the launcher read that the pod was not
      running yet, whatever became of its own POD_RUNNING; and never before. */
  lemma {:induction false} MonitorStartsIff(m: Mode, schedule: seq<Action>)
    ensures var procs := Run(m, schedule).procs;
            && Launcher in procs
            && (Monitor in procs ==> procs[Launcher] == Returned)
            && (procs[Launcher] == Returned ==> (Monitor in procs <==> HasRead(m, schedule)))
  {
    RunSpawned(m, schedule);
    RunInv(m, schedule);
    hide HasRead, Run;
  }

  /** The monitor stands there after the schedule. */
  ghost predicate MonitorAt(m: Mode, schedule: seq<Action>, g: Shared, pc: Pc, es: seq<Event>) {
    var s := Run(m, schedule); s.g == g && s.events == es && Monitor in s.procs && s.procs[Monitor] == pc
  }

  lemma {:induction false} MonitorMoves(m: Mode, schedule: seq<Action>, g: Shared, pc: Pc, es: seq<Event>, c: Choice)
    requires MonitorAt(m, schedule, g, pc, es) && !Spawns(pc, Local(m, g, Monitor, pc, c).pc)
    ensures var move := Local(m, g, Monitor, pc, c);
            MonitorAt(m, schedule + [Step(Monitor, c)], move.g, move.pc, Logged(es, move.event))
  {
    hide Local, Spawns;
    RunSnoc(m, schedule, Step(Monitor, c));
  }

  ghost predicate StepsOfMonitor(later: seq<Action>) {
    forall a :: a in later ==> a.Step? && a.pid == Monitor
  }

  const ANY := Choice(true, Empty)

  /** From the monitor's verdict to the write of the status, with nobody in between. */
  lemma {:induction false} MonitorWrites(m: Mode, schedule: seq<Action>, g: Shared, es: seq<Event>, verdict: PodStatus)
    returns (later: seq<Action>)
    requires MonitorAt(m, schedule, g, Polling, es) && g.status == Running && (verdict == Failed || verdict == Finished)
    ensures StepsOfMonitor(later)
    ensures MonitorAt(m, schedule + later, g.(status := verdict), Cleanup(verdict, Return),
                      es + [Wrote(Monitor, verdict)])
  {
    hide MonitorAt;
    var t1 := schedule + [Step(Monitor, Choice(true, verdict))];
    MonitorMoves(m, schedule, g, Polling, es, Choice(true, verdict));
    MonitorMoves(m, t1, g, AtGuard(verdict, Return), es, ANY);
    later := [Step(Monitor, Choice(true, verdict)), Step(Monitor, ANY)];
    assert schedule + later == t1 + [Step(Monitor, ANY)];
    if m == Split {
      MonitorMoves(m, t1 + [Step(Monitor, ANY)], g, AtWrite(verdict, Return), es, ANY);
      var whole := later + [Step(Monitor, ANY)];
      assert schedule + whole == (schedule + later) + [Step(Monitor, ANY)];
      later := whole;
    }
  }

  /** From the write of the status to the report, with nobody in between. */
  lemma {:induction false} MonitorReports(m: Mode, schedule: seq<Action>, g: Shared, es: seq<Event>, verdict: PodStatus,
                                          monitored: bool, delivered: bool)
    requires MonitorAt(m, schedule, g, Cleanup(verdict, Return), es) && (verdict == Failed || verdict == Finished)
    ensures var cleanup := if verdict == Finished then [if monitored then StoppedPod(Monitor) else CleanedUp(Monitor)]
                           else if g.attempted then [StoppedPod(Monitor)] else [];
            var update := Reported(Monitor, if verdict == Finished then TaskFinished else TaskFailed, delivered);
            MonitorAt(m, schedule + [Step(Monitor, Choice(monitored, Empty)), Step(Monitor, Choice(delivered, Empty))],
                      g, Returned, es + cleanup + [update])
  {
    hide MonitorAt;
    var cleanup := if verdict == Finished then [if monitored then StoppedPod(Monitor) else CleanedUp(Monitor)]
                   else if g.attempted then [StoppedPod(Monitor)] else [];
    var c, d := Step(Monitor, Choice(monitored, Empty)), Step(Monitor, Choice(delivered, Empty));
    assert Logged(es, CleanupEvent(g, Monitor, verdict, monitored)) == es + cleanup;
    MonitorMoves(m, schedule, g, Cleanup(verdict, Return), es, c.choice);
    MonitorMoves(m, schedule + [c], g, Sending(verdict, Return), es + cleanup, d.choice);
    assert schedule + [c, d] == schedule + [c] + [d];
  }

  /** A monitor that concludes POD_FINISHED or POD_FAILED on a running pod, left alone, ends with that status
      written, the pod stopped or cleaned up, and the status reported, in that order. */
  lemma {:induction false} MonitorConcludes(m: Mode, schedule: seq<Action>, verdict: PodStatus, monitored: bool,
                                            delivered: bool) returns (later: seq<Action>)
    requires var s := Run(m, schedule);
             Monitor in s.procs && s.procs[Monitor] == Polling && s.g.status == Running
    requires verdict == Failed || verdict == Finished
    ensures StepsOfMonitor(later)
    ensures var s, s' := Run(m, schedule), Run(m, schedule + later);
            var cleanup := if verdict == Finished then [if monitored then StoppedPod(Monitor) else CleanedUp(Monitor)]
                           else if s.g.attempted then [StoppedPod(Monitor)] else [];
            var update := Reported(Monitor, if verdict == Finished then TaskFinished else TaskFailed, delivered);
            && s'.g.status == verdict && Monitor in s'.procs && s'.procs[Monitor] == Returned
            && s'.events == s.events + [Wrote(Monitor, verdict)] + cleanup + [update]
  {
    hide Run;
    var s := Run(m, schedule);
    var writes := MonitorWrites(m, schedule, s.g, s.events, verdict);
    MonitorReports(m, schedule + writes, s.g.(status := verdict), s.events + [Wrote(Monitor, verdict)], verdict,
                   monitored, delivered);
    var reports := [Step(Monitor, Choice(monitored, Empty)), Step(Monitor, Choice(delivered, Empty))];
    later := writes + reports;
    assert schedule + later == schedule + writes + reports;
  }
}
