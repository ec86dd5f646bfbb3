/** The code as it is: the status is read under one lock and written under another. When this refines
    the atomic protocol, and when it does not. */
module LifecycleSplit {
  import opened PodTypes
  import opened Lifecycle
  import opened LifecycleSafety
  import opened LifecycleTheorems

  // ---------------------------------------------------------------- refinement

  /** A passed guard whose write is still to come is, for the atomic protocol, still at the guard. */
  function AbsPc(pc: Pc): Pc {
    match pc
    case AtWrite(target, after) => if target == Killed then KillEntry else AtGuard(target, after)
    case _ => pc
  }

  function AbsProcs(procs: map<Pid, Pc>): map<Pid, Pc> {
    map p | p in procs :: AbsPc(procs[p])
  }

  function Abs(s: State): State {
    s.(procs := AbsProcs(s.procs))
  }

  lemma {:induction false} AbsUpdate(procs: map<Pid, Pc>, p: Pid, pc: Pc)
    ensures AbsProcs(procs[p := pc]) == AbsProcs(procs)[p := AbsPc(pc)]
  {}

  /** The step only reads the status and finds the guard open. */
  predicate PassesGuard(s: State, a: Action) {
    && a.Step? && a.pid in s.procs
    && var pc := s.procs[a.pid];
       || (pc.AtGuard? && !Blocked(s.g.status, pc.target))
       || (pc.KillEntry? && s.g.status == Running)
  }

  /** The step writes the status although it has become final since it was read: the guard of
      `SendPodStatus` or `KillTask`, asked again at the write, would refuse. */
  predicate WritesStale(s: State, a: Action) {
    a.Step? && a.pid in s.procs && s.procs[a.pid].AtWrite? && Final(s.g.status)
  }

  ghost predicate NoStaleWrite(schedule: seq<Action>) {
    forall i :: 0 <= i < |schedule| ==> !WritesStale(Run(Split, schedule[..i]), schedule[i])
  }

  lemma {:induction false} RunningWriteCounted(es: seq<Event>, e: Event)
    requires e in es && IsRunningWrite(e)
    ensures RunningWrites(es) >= 1
  {
    var n := |es| - 1;
    if es[n] == e {
    } else {
      assert e in es[..n];
      RunningWriteCounted(es[..n], e);
    }
  }

  /** At a write that is not stale, the guard would still pass. */
  lemma {:induction false} FreshWritePasses(s: State, p: Pid)
    requires Inv(Split, s) && p in s.procs && s.procs[p].AtWrite? && !Final(s.g.status)
    ensures if s.procs[p].target == Killed then s.g.status == Running
            else !Blocked(s.g.status, s.procs[p].target)
  {
    assert Shape(Split, p, s.procs[p]) && Backed(s.g, s.events, p, s.procs[p]);
    if s.procs[p].target == Killed {
      RunningWriteCounted(s.events, Wrote(Launcher, Running));
    }
  }

  lemma {:induction false} LocalRefines(g: Shared, p: Pid, pc: Pc, c: Choice)
    requires Shape(Split, p, pc)
    requires !(pc.AtGuard? && !Blocked(g.status, pc.target)) && !(pc.KillEntry? && g.status == Running)
    requires pc.AtWrite? ==> if pc.target == Killed then g.status == Running else !Blocked(g.status, pc.target)
    ensures var move := Local(Split, g, p, pc, c);
            && Local(Atomic, g, p, AbsPc(pc), c) == move.(pc := AbsPc(move.pc))
            && (Spawns(AbsPc(pc), AbsPc(move.pc)) <==> Spawns(pc, move.pc))
  {}

  lemma {:induction false} StepRefines(s: State, p: Pid, c: Choice)
    requires Inv(Split, s) && p in s.procs
    requires !PassesGuard(s, Step(p, c)) && !WritesStale(s, Step(p, c))
    ensures Abs(StepProcess(Split, s, p, c)) == StepProcess(Atomic, Abs(s), p, c)
  {
    var move := Local(Split, s.g, p, s.procs[p], c);
    if s.procs[p].AtWrite? {
      FreshWritePasses(s, p);
    }
    assert Shape(Split, p, s.procs[p]);
    LocalRefines(s.g, p, s.procs[p], c);
    AbsUpdate(s.procs, p, move.pc);
    AbsUpdate(s.procs[p := move.pc], Monitor, Polling);
  }

  lemma {:induction false} GuardReadIsSilent(s: State, p: Pid, c: Choice)
    requires Shapes(Split, s.procs) && p in s.procs && PassesGuard(s, Step(p, c))
    ensures Abs(StepProcess(Split, s, p, c)) == Abs(s)
  {
    assert Shape(Split, p, s.procs[p]);
    AbsUpdate(s.procs, p, Local(Split, s.g, p, s.procs[p], c).pc);
    assert AbsProcs(s.procs)[p := AbsPc(s.procs[p])] == AbsProcs(s.procs);
  }

  lemma {:induction false} ActRefines(s: State, a: Action)
    requires Inv(Split, s) && !WritesStale(s, a)
    ensures Abs(Act(Split, s, a)) == if PassesGuard(s, a) then Abs(s) else Act(Atomic, Abs(s), a)
  {
    match a
    case DeadlinePasses =>
    case CallKill(call) => AbsUpdate(s.procs, Kill(call), KillEntry);
    case Step(p, c) =>
      if PassesGuard(s, a) {
        GuardReadIsSilent(s, p, c);
      } else if p in s.procs {
        StepRefines(s, p, c);
      }
  }

  /** The atomic schedule a split schedule stands for: its guard reads left out. */
  function AtomicSchedule(schedule: seq<Action>): seq<Action> {
    if schedule == [] then []
    else
      var n := |schedule| - 1;
      if PassesGuard(Run(Split, schedule[..n]), schedule[n]) then AtomicSchedule(schedule[..n])
      else AtomicSchedule(schedule[..n]) + [schedule[n]]
  }

  lemma {:induction false} NoStaleWritePrefix(schedule: seq<Action>)
    requires schedule != [] && NoStaleWrite(schedule)
    ensures NoStaleWrite(schedule[..|schedule| - 1])
    ensures !WritesStale(Run(Split, schedule[..|schedule| - 1]), schedule[|schedule| - 1])
  {
    var n := |schedule| - 1;
    forall i | 0 <= i < n ensures !WritesStale(Run(Split, schedule[..n][..i]), schedule[..n][i]) {
      assert schedule[..n][..i] == schedule[..i];
    }
  }

  /** Without stale writes the code refines the atomic protocol: same status, same log. */
  lemma {:induction false} SplitRefinesAtomic(schedule: seq<Action>)
    requires NoStaleWrite(schedule)
    ensures Abs(Run(Split, schedule)) == Run(Atomic, AtomicSchedule(schedule))
  {
    if schedule == [] {
      assert Abs(INIT).procs == INIT.procs;
    } else {
      var n := |schedule| - 1;
      NoStaleWritePrefix(schedule);
      SplitRefinesAtomic(schedule[..n]);
      RunInv(Split, schedule[..n]);
      ActRefines(Run(Split, schedule[..n]), schedule[n]);
      RunSnoc(Atomic, AtomicSchedule(schedule[..n]), schedule[n]);
    }
  }

  // ---------------------------------------------------------------- exactly when finality holds

  /** The prefix of a schedule, one action longer. */
  lemma {:induction false} RunPrefix(schedule: seq<Action>, i: nat)
    requires i < |schedule|
    ensures Run(Split, schedule[..i + 1]) == Act(Split, Run(Split, schedule[..i]), schedule[i])
  {
    hide *;
    RunSnoc(Split, schedule[..i], schedule[i]);
    assert schedule[..i + 1] == schedule[..i] + [schedule[i]];
  }

  /** What "final" promises: nobody enters a final status twice, and nobody leaves one. */
  ghost predicate FinalityKept(schedule: seq<Action>) {
    && FinalWrites(Run(Split, schedule).events) <= 1
    && (forall i :: 0 <= i < |schedule| && Final(Run(Split, schedule[..i]).g.status)
                    ==> Run(Split, schedule[..i + 1]).g.status == Run(Split, schedule[..i]).g.status)
  }

  lemma {:induction false} FinalWritesGrow(schedule: seq<Action>, i: nat)
    requires i <= |schedule|
    ensures FinalWrites(Run(Split, schedule[..i]).events) <= FinalWrites(Run(Split, schedule).events)
    decreases |schedule| - i
  {
    if i == |schedule| {
      assert schedule[..i] == schedule;
    } else {
      FinalWritesGrow(schedule, i + 1);
      RunPrefix(schedule, i);
      var s, a := Run(Split, schedule[..i]), schedule[i];
      if a.Step? && a.pid in s.procs {
        CountsLogged(s.events, Local(Split, s.g, a.pid, s.procs[a.pid], a.choice).event);
      }
    }
  }

  lemma {:induction false} FreshActKeepsFinal(s: State, a: Action)
    requires Final(s.g.status) && !WritesStale(s, a)
    ensures Act(Split, s, a).g.status == s.g.status
  {}

  /** A stale write enters a final status a second time, or leaves it for POD_RUNNING. */
  lemma {:induction false} StaleActBreaksFinal(s: State, a: Action)
    requires Inv(Split, s) && WritesStale(s, a)
    ensures FinalWrites(Act(Split, s, a).events) >= 2 || Act(Split, s, a).g.status != s.g.status
  {
    CountsLogged(s.events, Local(Split, s.g, a.pid, s.procs[a.pid], a.choice).event);
    assert Shape(Split, a.pid, s.procs[a.pid]);
  }

  lemma {:induction false} StaleWriteBreaksFinality(schedule: seq<Action>, i: nat)
    requires i < |schedule| && WritesStale(Run(Split, schedule[..i]), schedule[i])
    ensures !FinalityKept(schedule)
  {
    RunInv(Split, schedule[..i]);
    StaleActBreaksFinal(Run(Split, schedule[..i]), schedule[i]);
    RunPrefix(schedule, i);
    FinalWritesGrow(schedule, i + 1);
  }

  /** The code keeps its final statuses final exactly on the schedules where no guarded write comes
      after the status has become final. */
  lemma {:induction false} FinalityIffNoStaleWrite(schedule: seq<Action>)
    ensures FinalityKept(schedule) <==> NoStaleWrite(schedule)
  {
    if NoStaleWrite(schedule) {
      SplitRefinesAtomic(schedule);
      RunOneWinner(AtomicSchedule(schedule));
      forall i | 0 <= i < |schedule| && Final(Run(Split, schedule[..i]).g.status)
        ensures Run(Split, schedule[..i + 1]).g.status == Run(Split, schedule[..i]).g.status
      {
        RunPrefix(schedule, i);
        FreshActKeepsFinal(Run(Split, schedule[..i]), schedule[i]);
      }
    } else {
      var i :| 0 <= i < |schedule| && WritesStale(Run(Split, schedule[..i]), schedule[i]);
      StaleWriteBreaksFinality(schedule, i);
    }
  }

  // ---------------------------------------------------------------- windows between guard and write

  predicate StepsAs(a: Action, p: Pid) {
    a.Step? && a.pid == p
  }

  /** The step writes a final status. */
  predicate WritesFinal(s: State, a: Action) {
    a.Step? && a.pid in s.procs && s.procs[a.pid].AtWrite? && Final(s.procs[a.pid].target)
  }

  /** The process that passed its guard at `g` has not moved since. */
  ghost predicate Waits(schedule: seq<Action>, g: nat, i: nat) {
    && g < i <= |schedule| && PassesGuard(Run(Split, schedule[..g]), schedule[g])
    && forall j :: g < j < i ==> !StepsAs(schedule[j], schedule[g].pid)
  }

  /** Between the guard that a process passed at `g` and its write at `i`, another wrote a final status at `w`. */
  ghost predicate Straddles(schedule: seq<Action>, g: nat, w: nat, i: nat) {
    && g < w < i < |schedule| && Waits(schedule, g, i) && StepsAs(schedule[i], schedule[g].pid)
    && WritesFinal(Run(Split, schedule[..w]), schedule[w])
  }

  /** Who is about to write has passed a guard, and has not moved since. */
  lemma {:induction false} GuardBefore(schedule: seq<Action>, i: nat, p: Pid) returns (g: nat)
    requires i <= |schedule| && p in Run(Split, schedule[..i]).procs && Run(Split, schedule[..i]).procs[p].AtWrite?
    ensures Waits(schedule, g, i) && schedule[g].pid == p
  {
    hide *;
    NoneAtWriteAtFirst(schedule, p);
    var n := i - 1;
    RunPrefix(schedule, n);
    RunInv(Split, schedule[..n]);
    var s := Run(Split, schedule[..n]);
    NobodyElse(schedule[n], p);
    if schedule[n].Step? && schedule[n].pid == p {
      OnlyGuardsLeadToWrites(s, schedule[n]);
      g := n;
      WaitsFrom(schedule, g);
    } else {
      OthersKeepWrites(s, schedule[n], p);
      g := GuardBefore(schedule, n, p);
      WaitsOn(schedule, g, n, p);
    }
  }

  lemma {:induction false} NoneAtWriteAtFirst(schedule: seq<Action>, p: Pid)
    ensures p in Run(Split, schedule[..0]).procs ==> !Run(Split, schedule[..0]).procs[p].AtWrite?
  {}

  lemma {:induction false} NobodyElse(a: Action, p: Pid)
    ensures StepsAs(a, p) <==> a.Step? && a.pid == p
  {}

  lemma {:induction false} WaitsFrom(schedule: seq<Action>, g: nat)
    requires g < |schedule| && PassesGuard(Run(Split, schedule[..g]), schedule[g])
    ensures Waits(schedule, g, g + 1)
  {}

  lemma {:induction false} WaitsOn(schedule: seq<Action>, g: nat, n: nat, p: Pid)
    requires n < |schedule| && Waits(schedule, g, n) && schedule[g].pid == p && !StepsAs(schedule[n], p)
    ensures Waits(schedule, g, n + 1)
  {}

  lemma {:induction false} LocalSplit(g: Shared, p: Pid, pc: Pc, c: Choice)
    requires Shape(Split, p, pc)
    ensures var move := Local(Split, g, p, pc, c);
            && (move.pc.AtWrite?
                ==> (pc.AtGuard? && !Blocked(g.status, pc.target)) || (pc.KillEntry? && g.status == Running))
            && (move.g.status != g.status ==> pc.AtWrite? && move.g.status == pc.target)
  {}

  lemma {:induction false} OnlyGuardsLeadToWrites(s: State, a: Action)
    requires Inv(Split, s) && a.Step? && a.pid in Act(Split, s, a).procs && Act(Split, s, a).procs[a.pid].AtWrite?
    ensures PassesGuard(s, a)
  {
    hide Local, Balanced, RunningOnce, Caused;
    assert Shape(Split, a.pid, s.procs[a.pid]);
    LocalSplit(s.g, a.pid, s.procs[a.pid], a.choice);
  }

  lemma {:induction false} OthersKeepWrites(s: State, a: Action, p: Pid)
    requires !StepsAs(a, p) && p in Act(Split, s, a).procs && Act(Split, s, a).procs[p].AtWrite?
    ensures p in s.procs && s.procs[p] == Act(Split, s, a).procs[p]
  {}

  /** While it waits, it stays at the write it was let through to. */
  lemma {:induction false} WaitsAtWrite(schedule: seq<Action>, g: nat, i: nat)
    requires Waits(schedule, g, i)
    ensures var s, p := Run(Split, schedule[..i]), schedule[g].pid; p in s.procs && s.procs[p].AtWrite?
    decreases i
  {
    var n := i - 1;
    RunPrefix(schedule, n);
    RunInv(Split, schedule[..n]);
    hide Run;
    var s := Run(Split, schedule[..n]);
    if n == g {
      GuardsLeadToWrites(s, schedule[g]);
    } else {
      assert Waits(schedule, g, n);
      WaitsAtWrite(schedule, g, n);
      OthersLeaveWrites(s, schedule[n], schedule[g].pid);
    }
  }

  lemma {:induction false} GuardsLeadToWrites(s: State, a: Action)
    requires Inv(Split, s) && PassesGuard(s, a)
    ensures a.pid in Act(Split, s, a).procs && Act(Split, s, a).procs[a.pid].AtWrite?
    ensures !Final(s.g.status) && Act(Split, s, a).g.status == s.g.status
  {
    assert Shape(Split, a.pid, s.procs[a.pid]);
  }

  lemma {:induction false} OthersLeaveWrites(s: State, a: Action, p: Pid)
    requires Inv(Split, s) && !StepsAs(a, p) && p in s.procs && s.procs[p].AtWrite?
    ensures p in Act(Split, s, a).procs && Act(Split, s, a).procs[p] == s.procs[p]
  {
    assert p == Monitor ==> s.procs[Launcher] == Returned;
    if a.Step? && a.pid in s.procs {
      LocalShape(Split, s.g, a.pid, s.procs[a.pid], a.choice);
    }
  }

  /** A status becomes final only by a final write. */
  lemma {:induction false} FinalBecause(s: State, a: Action)
    requires Inv(Split, s) && !Final(s.g.status) && Final(Act(Split, s, a).g.status)
    ensures WritesFinal(s, a)
  {
    hide Local, Balanced, RunningOnce, Caused;
    assert Shape(Split, a.pid, s.procs[a.pid]);
    LocalSplit(s.g, a.pid, s.procs[a.pid], a.choice);
  }

  lemma {:induction false} FinalWriteMakesFinal(s: State, a: Action)
    requires WritesFinal(s, a)
    ensures Final(Act(Split, s, a).g.status)
  {}

  lemma {:induction false} FirstFinalWrite(schedule: seq<Action>, a: nat, b: nat) returns (w: nat)
    requires a <= b <= |schedule|
    requires !Final(Run(Split, schedule[..a]).g.status) && Final(Run(Split, schedule[..b]).g.status)
    ensures a <= w < b && WritesFinal(Run(Split, schedule[..w]), schedule[w])
    decreases b - a
  {
    hide Run;
    RunPrefix(schedule, a);
    RunInv(Split, schedule[..a]);
    if Final(Run(Split, schedule[..a + 1]).g.status) {
      FinalBecause(Run(Split, schedule[..a]), schedule[a]);
      w := a;
    } else {
      w := FirstFinalWrite(schedule, a + 1, b);
    }
  }

  ghost predicate Straddled(schedule: seq<Action>) {
    exists g, w, i :: Straddles(schedule, g, w, i)
  }

  /** A stale write straddles the final write that made it stale. */
  lemma {:induction false} StaleStraddles(schedule: seq<Action>, i: nat) returns (g: nat, w: nat)
    requires i < |schedule| && WritesStale(Run(Split, schedule[..i]), schedule[i])
    ensures Straddles(schedule, g, w, i)
  {
    hide Run;
    var p := schedule[i].pid;
    g := GuardBefore(schedule, i, p);
    RunPrefix(schedule, g);
    RunInv(Split, schedule[..g]);
    GuardsLeadToWrites(Run(Split, schedule[..g]), schedule[g]);
    w := FirstFinalWrite(schedule, g + 1, i);
  }

  lemma {:induction false} FinalUntil(schedule: seq<Action>, a: nat, b: nat)
    requires a <= b <= |schedule| && Final(Run(Split, schedule[..a]).g.status)
    requires forall j :: a <= j < b ==> !WritesStale(Run(Split, schedule[..j]), schedule[j])
    ensures Final(Run(Split, schedule[..b]).g.status)
    decreases b - a
  {
    if a == b {
    } else {
      hide Run;
      RunPrefix(schedule, a);
      FreshActKeepsFinal(Run(Split, schedule[..a]), schedule[a]);
      FinalUntil(schedule, a + 1, b);
    }
  }

  /** A write that straddles a final one is stale, or another before it is. */
  lemma {:induction false} StraddleIsStale(schedule: seq<Action>, g: nat, w: nat, i: nat)
    requires Straddles(schedule, g, w, i)
    requires forall j :: w < j < i ==> !WritesStale(Run(Split, schedule[..j]), schedule[j])
    ensures WritesStale(Run(Split, schedule[..i]), schedule[i])
  {
    hide Run;
    RunPrefix(schedule, w);
    FinalWriteMakesFinal(Run(Split, schedule[..w]), schedule[w]);
    FinalUntil(schedule, w + 1, i);
    WaitsAtWrite(schedule, g, i);
  }

  /** The code keeps its final statuses final exactly if no process writes a final status between another's
      guard and that one's write. */
  lemma {:induction false} FinalityIffNoStraddling(schedule: seq<Action>)
    ensures FinalityKept(schedule) <==> !Straddled(schedule)
  {
    hide Run, FinalityKept, Straddles, WritesStale;
    FinalityIffNoStaleWrite(schedule);
    if !NoStaleWrite(schedule) {
      var i :| 0 <= i < |schedule| && WritesStale(Run(Split, schedule[..i]), schedule[i]);
      var g, w := StaleStraddles(schedule, i);
    } else {
      forall g: nat, w: nat, i: nat ensures !Straddles(schedule, g, w, i) {
        StraddleWithin(schedule, g, w, i);
      }
    }
  }

  lemma {:induction false} StraddleWithin(schedule: seq<Action>, g: nat, w: nat, i: nat)
    ensures Straddles(schedule, g, w, i) ==> !NoStaleWrite(schedule)
  {
    if Straddles(schedule, g, w, i) {
      hide Run, WritesStale, Waits, WritesFinal;
      if forall j :: w < j < i ==> !WritesStale(Run(Split, schedule[..j]), schedule[j]) {
        StraddleIsStale(schedule, g, w, i);
      }
    }
  }

  /** A guard is passed inside another's window between guard and write. */
  ghost predicate Overlaps(schedule: seq<Action>, g: nat, h: nat, i: nat) {
    g < h < i && Waits(schedule, g, i) && PassesGuard(Run(Split, schedule[..h]), schedule[h])
  }

  lemma {:induction false} StraddlesOverlap(schedule: seq<Action>, g: nat, w: nat, i: nat)
    requires Straddles(schedule, g, w, i)
    ensures exists g', h, i' :: Overlaps(schedule, g', h, i')
  {
    hide Run;
    var h := GuardBefore(schedule, w, schedule[w].pid);
    assert !StepsAs(schedule[w], schedule[g].pid);
    if h > g {
      assert Overlaps(schedule, g, h, i);
    } else {
      assert Overlaps(schedule, h, g, w);
    }
  }

  /** In particular they stay final if the windows between guard and write never overlap. */
  lemma {:induction false} DisjointWindowsKeepFinality(schedule: seq<Action>)
    requires forall g, h, i :: !Overlaps(schedule, g, h, i)
    ensures FinalityKept(schedule)
  {
    hide Run, FinalityKept, Straddles, Overlaps;
    FinalityIffNoStraddling(schedule);
    if Straddled(schedule) {
      var g, w, i :| Straddles(schedule, g, w, i);
      StraddlesOverlap(schedule, g, w, i);
    }
  }
}
