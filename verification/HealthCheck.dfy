/** The health check and the monitor as they run: loops that delete from the list they index
    (utils/pod/pod.go, dce/monitor/plugin/default/monitor.go). */
module HealthCheck {
  import opened PodTypes
  import opened ContainerCheck
  import opened Filter
  import opened HealthSpec
  import opened MonitorSpec
  import opened StepMetrics
  import opened Walk

  /** What docker says about a service: the id of its container and then its pid, or an error. */
  type Lookup = string -> Option<(string, string)>

  function StepName(c: SvcContainer): string {
    HEALTH_CHECK + c.serviceName
  }

  predicate DistinctServices(cs: seq<SvcContainer>) {
    forall i, j :: 0 <= i < j < |cs| ==> cs[i].serviceName != cs[j].serviceName
  }

  lemma {:induction false} NamesApart(a: string, b: string)
    requires HEALTH_CHECK + a == HEALTH_CHECK + b
    ensures a == b
  {
    assert (HEALTH_CHECK + a)[|HEALTH_CHECK|..] == a;
    assert (HEALTH_CHECK + b)[|HEALTH_CHECK|..] == b;
  }

  // ---------------------------------------------------------------- open steps

  /** Only containers not yet judged in this pass, or found waiting, have an open step. */
  ghost predicate OpenOnly(data: Steps, cs: seq<SvcContainer>, rs: seq<Report>, n: nat)
    requires |rs| == |cs|
  {
    && OnlyLastOpen(data)
    && (forall i :: 0 <= i < |cs| ==> StepsOf(data, StepName(cs[i])) != [])
    && (forall name :: name in data && HealthKey(name) && Open(data[name]) ==> Excused(name, cs, rs, n))
  }

  ghost predicate Excused(name: string, cs: seq<SvcContainer>, rs: seq<Report>, n: nat)
    requires |rs| == |cs|
  {
    exists i :: 0 <= i < |cs| && StepName(cs[i]) == name && (i >= n || Judge(rs[i]) == Waits)
  }

  /** Judging one container closes its step, unless it waits. */
  lemma {:induction false} OpenOnlyAfter(data: Steps, cs: seq<SvcContainer>, rs: seq<Report>, n: nat,
                                         tag: Option<HealthStatus>, failed: bool)
    requires |rs| == |cs| && n < |cs| && OpenOnly(data, cs, rs, n)
    ensures OpenOnly(Ended(data, StepName(cs[n]), tag, failed), cs, rs, n + 1)
    ensures Judge(rs[n]) == Waits ==> OpenOnly(data, cs, rs, n + 1)
  {
    var key := StepName(cs[n]);
    EndCloses(data, key, tag, failed);
    var data' := Ended(data, key, tag, failed);
    forall name | name in data' && HealthKey(name) && Open(data'[name]) ensures Excused(name, cs, rs, n + 1) {
      assert Excused(name, cs, rs, n);
    }
    if Judge(rs[n]) == Waits {
      forall name | name in data && HealthKey(name) && Open(data[name]) ensures Excused(name, cs, rs, n + 1) {
        assert Excused(name, cs, rs, n);
      }
    }
  }

  ghost predicate Tracked(data: Steps, cs: seq<SvcContainer>, rs: seq<Report>, n: nat)
    requires |rs| == |cs|
  {
    RetryIds(data) && OpenOnly(data, cs, rs, n)
  }

  lemma {:induction false} WaitingStaysOpen(data: Steps, cs: seq<SvcContainer>, rs: seq<Report>, n: nat)
    requires |rs| == |cs| && n < |cs| && Judge(rs[n]) == Waits
    ensures Tracked(data, cs, rs, n) ==> Tracked(data, cs, rs, n + 1)
  {
    if Tracked(data, cs, rs, n) {
      OpenOnlyAfter(data, cs, rs, n, None, false);
    }
  }

  /** Between passes: every container left has its step, and only those steps are open. */
  ghost predicate AtStart(data: Steps, cs: seq<SvcContainer>) {
    && RetryIds(data) && OnlyLastOpen(data)
    && (forall i :: 0 <= i < |cs| ==> StepsOf(data, StepName(cs[i])) != [])
    && (forall name :: name in data && HealthKey(name) && Open(data[name]) ==> NamedIn(name, cs))
  }

  ghost predicate NamedIn(name: string, cs: seq<SvcContainer>) {
    exists i :: 0 <= i < |cs| && StepName(cs[i]) == name
  }

  lemma {:induction false} StartTracked(data: Steps, cs: seq<SvcContainer>, rs: seq<Report>)
    requires |rs| == |cs|
    ensures AtStart(data, cs) ==> Tracked(data, cs, rs, 0)
  {
    if AtStart(data, cs) {
      forall name | name in data && HealthKey(name) && Open(data[name]) ensures Excused(name, cs, rs, 0) {
        assert NamedIn(name, cs);
      }
    }
  }

  lemma {:induction false} WaitingIsKept(cs: seq<SvcContainer>, rs: seq<Report>, n: nat, i: nat)
    requires n <= |cs| && n <= |rs| && i < n && Judge(rs[i]) == Waits
    ensures cs[i] in Kept(cs, rs, n)
  {
    if i == n - 1 {
    } else {
      WaitingIsKept(cs, rs, n - 1, i);
    }
  }

  lemma {:induction false} KeptWasThere(cs: seq<SvcContainer>, rs: seq<Report>, n: nat, c: SvcContainer)
    requires n <= |cs| && n <= |rs| && c in Kept(cs, rs, n)
    ensures c in cs
  {
    if n == 0 {
    } else if c in Kept(cs, rs, n - 1) {
      KeptWasThere(cs, rs, n - 1, c);
    }
  }

  /** A pass that was tracked to its end starts the next one. */
  lemma {:induction false} NextPassStarts(data: Steps, cs: seq<SvcContainer>, rs: seq<Report>)
    requires |rs| == |cs| && Tracked(data, cs, rs, |cs|)
    ensures AtStart(data, Kept(cs, rs, |cs|))
  {
    var kept := Kept(cs, rs, |cs|);
    forall i | 0 <= i < |kept| ensures StepsOf(data, StepName(kept[i])) != [] {
      KeptWasThere(cs, rs, |cs|, kept[i]);
    }
    forall name | name in data && HealthKey(name) && Open(data[name]) ensures NamedIn(name, kept) {
      assert Excused(name, cs, rs, |cs|);
      var i :| 0 <= i < |cs| && StepName(cs[i]) == name && Judge(rs[i]) == Waits;
      WaitingIsKept(cs, rs, |cs|, i);
    }
  }

  /** When no container waited, no step is left open. */
  lemma {:induction false} NoWaitNoneOpen(data: Steps, cs: seq<SvcContainer>, rs: seq<Report>)
    requires |rs| == |cs| && Tracked(data, cs, rs, |cs|)
    requires forall i :: 0 <= i < |cs| ==> Judge(rs[i]) != Waits
    ensures NoneOpen(data)
  {
    forall name | name in data && HealthKey(name) ensures !Open(data[name]) {
      assert Open(data[name]) ==> Excused(name, cs, rs, |cs|);
    }
  }

  // ---------------------------------------------------------------- which records the checks leave

  /** What one check leaves of the step records: a container that waits keeps its open step. */
  function EndedBy(data: Steps, check: Check): Steps {
    if Judge(check.report) == Waits then data
    else Ended(data, StepName(check.container), Some(check.report.health), Judge(check.report) == Fails)
  }

  /** What a list of checks leaves, one after the other. */
  function StepsAfter(data: Steps, checks: seq<Check>): Steps {
    if checks == [] then data
    else EndedBy(StepsAfter(data, checks[..|checks| - 1]), checks[|checks| - 1])
  }

  /** The steps of the first `n` containers started. */
  function AllStarted(data: Steps, cs: seq<SvcContainer>, n: nat): Steps
    requires n <= |cs|
  {
    if n == 0 then data else Started(AllStarted(data, cs, n - 1), StepName(cs[n - 1]))
  }

  /** The records a health check of `cs` leaves, from those it found. */
  function RecordsAfter(data: Steps, cs: seq<SvcContainer>, o: Outcome): Steps {
    var records := StepsAfter(AllStarted(data, cs, |cs|), o.checks);
    if o.ending == Settled then AllMarked(records) else records
  }

  lemma {:induction false} RecordsAre(data: Steps, cs: seq<SvcContainer>, o: Outcome)
    ensures var records := StepsAfter(AllStarted(data, cs, |cs|), o.checks);
            RecordsAfter(data, cs, o) == if o.ending == Settled then AllMarked(records) else records
  {}

  lemma {:induction false} EndedByIs(data: Steps, c: SvcContainer, r: Report)
    ensures EndedBy(data, Check(c, r))
            == if Judge(r) == Waits then data else Ended(data, StepName(c), Some(r.health), Judge(r) == Fails)
  {}

  lemma {:induction false} StartedOneMore(data: Steps, cs: seq<SvcContainer>, n: nat)
    requires n < |cs|
    ensures AllStarted(data, cs, n + 1) == Started(AllStarted(data, cs, n), StepName(cs[n]))
    ensures AllStarted(data, cs, 0) == data
  {}

  lemma {:induction false} NoStepYet(data: Steps, cs: seq<SvcContainer>, rs: seq<Report>)
    ensures AllStarted(data, cs, 0) == data
    ensures StepsAfter(data, []) == data && StepsAfter(data, Checks(cs, rs, 0)) == data
  {}

  lemma {:induction false} EndedOneMore(data: Steps, cs: seq<SvcContainer>, rs: seq<Report>, n: nat)
    requires n < |cs| && n < |rs|
    ensures StepsAfter(data, Checks(cs, rs, n + 1)) == EndedBy(StepsAfter(data, Checks(cs, rs, n)), Check(cs[n], rs[n]))
  {
    hide EndedBy;
    assert Checks(cs, rs, n + 1)[..n] == Checks(cs, rs, n);
  }

  /** The records of one pass after another are those of all their checks. */
  lemma {:induction false} StepsAlong(data: Steps, a: seq<Check>, b: seq<Check>)
    ensures StepsAfter(data, a + b) == StepsAfter(StepsAfter(data, a), b)
  {
    hide EndedBy;
    if b == [] {
      assert a + b == a;
    } else {
      var n := |b| - 1;
      StepsAlong(data, a, b[..n]);
      assert (a + b)[..|a| + n] == a + b[..n] && (a + b)[|a| + n] == b[n];
    }
  }

  // ---------------------------------------------------------------- the middle of a pass

  /** After judging the first `j` of `start`: the list is what was kept of them and all that follows, the
      index stands behind the kept part, and the count is passes minus removals. */
  ghost predicate Mid(start: seq<SvcContainer>, rs: seq<Report>, infra: Option<string>, j: nat,
                      containers: seq<SvcContainer>, i: int, count: int)
  {
    && |rs| == |start| && j <= |start|
    && containers == Kept(start, rs, j) + start[j..] && i == |Kept(start, rs, j)|
    && count == Tally(rs, Passes, j) - Tally(rs, Leaves, j)
    && (forall k :: 0 <= k < j ==> Judge(rs[k]) != Fails)
    && (j == |start| ==> !OnlyInfraWaits(start, rs, infra))
  }

  lemma {:induction false} MidStarts(start: seq<SvcContainer>, rs: seq<Report>, infra: Option<string>)
    requires |rs| == |start|
    ensures Mid(start, rs, infra, 0, start, 0, 0)
  {}

  /** The code's tests, in the code's order, tell the judgements apart. */
  lemma {:induction false} TestsJudge(r: Report)
    ensures Judge(r) == if !(r.exitCode == 0 && !r.running) && r.health == Unhealthy then Fails
                        else if r.health == Healthy then Passes
                        else if r.exitCode == 0 && !r.running then Leaves
                        else Waits
  {}

  lemma {:induction false} NothingVisited(s: Stage, world: World)
    ensures Known(s.left, s.known, world, s.next, 0) == s.known
  {}

  lemma {:induction false} MidHead(start: seq<SvcContainer>, rs: seq<Report>, infra: Option<string>, j: nat,
                containers: seq<SvcContainer>, i: int, count: int)
    requires Mid(start, rs, infra, j, containers, i, count)
    ensures 0 <= i && (i < |containers| <==> j < |start|)
    ensures j < |start| ==> containers[i] == start[j]
  {}

  lemma {:induction false} MidPasses(start: seq<SvcContainer>, rs: seq<Report>, infra: Option<string>, j: nat,
                  containers: seq<SvcContainer>, i: int, count: int)
    requires Mid(start, rs, infra, j, containers, i, count) && j < |start| && Judge(rs[j]) == Passes
    ensures Mid(start, rs, infra, j + 1, containers, i + 1, count + 1)
  {}

  /** Deleting in place with the index stepped back is skipping the element in the filter. */
  lemma {:induction false} MidLeaves(start: seq<SvcContainer>, rs: seq<Report>, infra: Option<string>, j: nat,
                  containers: seq<SvcContainer>, i: int, count: int)
    requires Mid(start, rs, infra, j, containers, i, count) && j < |start| && Judge(rs[j]) == Leaves
    ensures 0 <= i < |containers| && Mid(start, rs, infra, j + 1, Delete(containers, i), i, count - 1)
  {
    assert containers[i + 1..] == start[j + 1..];
  }

  predicate AloneInfra(containers: seq<SvcContainer>, infra: Option<string>) {
    infra.Some? && |containers| == 1 && containers[0].containerId == infra.value
  }

  lemma {:induction false} MidWaits(start: seq<SvcContainer>, rs: seq<Report>, infra: Option<string>, j: nat,
                 containers: seq<SvcContainer>, i: int, count: int)
    requires Mid(start, rs, infra, j, containers, i, count) && j < |start| && Judge(rs[j]) == Waits
    ensures !AloneInfra(containers, infra) ==> Mid(start, rs, infra, j + 1, containers, i + 1, count)
    ensures AloneInfra(containers, infra)
            ==> j + 1 == |start| && OnlyInfraWaits(start, rs, infra) && containers == Kept(start, rs, |start|)
  {}

  lemma {:induction false} NoFail(rs: seq<Report>, j: nat)
    requires j <= |rs| && forall k :: 0 <= k < j ==> Judge(rs[k]) != Fails
    requires j < |rs| ==> Judge(rs[j]) == Fails
    ensures FirstFail(rs, 0) == j
  {}

  function StageReports(s: Stage, world: World): (rs: seq<Report>)
    ensures |rs| == |s.left|
  {
    Reports(s.left, s.known, world, s.next)
  }

  /** Where the pass stops is what the pass was specified to do. */
  lemma {:induction false} MidAborts(s: Stage, world: World, infra: Option<string>, j: nat,
                                     containers: seq<SvcContainer>, i: int, count: int)
    requires Mid(s.left, StageReports(s, world), infra, j, containers, i, count)
    requires j < |s.left| && Judge(StageReports(s, world)[j]) == Fails
    ensures PassIn(world, infra)(s)
            == Pass(Aborted, Stage(containers, Known(s.left, s.known, world, s.next, j + 1), s.next + j + 1),
                    Checks(s.left, StageReports(s, world), j + 1))
  {
    NoFail(StageReports(s, world), j);
  }

  lemma {:induction false} MidCompletes(s: Stage, world: World, infra: Option<string>,
                                        containers: seq<SvcContainer>, i: int, count: int)
    requires Mid(s.left, StageReports(s, world), infra, |s.left|, containers, i, count)
    ensures PassIn(world, infra)(s)
            == Pass(Completed(count),
                    Stage(containers, Known(s.left, s.known, world, s.next, |s.left|), s.next + |s.left|),
                    Checks(s.left, StageReports(s, world), |s.left|))
  {
    hide Known, Checks, Kept, Tally, Judge, OnlyInfraWaits;
    NoFail(StageReports(s, world), |s.left|);
    assert s.left[|s.left|..] == [];
    assert containers == Kept(s.left, StageReports(s, world), |s.left|);
  }

  lemma {:induction false} MidBreaks(s: Stage, world: World, infra: Option<string>, j: nat,
                                     containers: seq<SvcContainer>, i: int, count: int)
    requires Mid(s.left, StageReports(s, world), infra, j, containers, i, count)
    requires j < |s.left| && Judge(StageReports(s, world)[j]) == Waits && AloneInfra(containers, infra)
    ensures PassIn(world, infra)(s)
            == Pass(Broke, Stage(containers, Known(s.left, s.known, world, s.next, j + 1), s.next + j + 1),
                    Checks(s.left, StageReports(s, world), j + 1))
    ensures j + 1 == |s.left|
  {
    MidWaits(s.left, StageReports(s, world), infra, j, containers, i, count);
    NoFail(StageReports(s, world), |s.left|);
  }

  // ---------------------------------------------------------------- what the records tell

  /** The last report of the list that ended the step. */
  function LastJudged(checks: seq<Check>, step: string): Option<Report> {
    if checks == [] then None
    else
      var n := |checks| - 1;
      if StepName(checks[n].container) == step && Judge(checks[n].report) != Waits then Some(checks[n].report)
      else LastJudged(checks[..n], step)
  }

  /** However often a step is ended, its latest record is that of the last check that did. */
  lemma {:induction false} LastCheckRecorded(data: Steps, checks: seq<Check>, step: string)
    requires step != "" && StepsOf(data, step) != []
    ensures StepsOf(StepsAfter(data, checks), step)
            == match LastJudged(checks, step)
               case None => data[step]
               case Some(r) => EndedLast(data[step], Some(r.health), Judge(r) == Fails)
  {
    hide Judge, EndStatus, StepName;
    if checks == [] {
    } else {
      LastCheckRecorded(data, checks[..|checks| - 1], step);
    }
  }

  /** Each container gets one new record, and no service gets another's. */
  lemma {:induction false} OneRecordStarted(data: Steps, cs: seq<SvcContainer>, n: nat, i: nat)
    requires DistinctServices(cs) && n <= |cs| && i < |cs|
    ensures var step := StepName(cs[i]);
            StepsOf(AllStarted(data, cs, n), step)
            == if i < n then StepsOf(data, step) + [StepData(|StepsOf(data, step)|, step, StepStarting, None, false)]
               else StepsOf(data, step)
  {
    if n == 0 {
    } else {
      OneRecordStarted(data, cs, n - 1, i);
      if StepName(cs[n - 1]) == StepName(cs[i]) {
        NamesApart(cs[n - 1].serviceName, cs[i].serviceName);
      }
    }
  }

  /** A record that a report ended. */
  lemma {:induction false} EndedByReport(steps: seq<StepData>, r: Report)
    requires steps != []
    ensures var after, n := EndedLast(steps, Some(r.health), Judge(r) == Fails), |steps| - 1;
            && |after| == n + 1 && after[..n] == steps[..n] && after[n].retryId == steps[n].retryId
            && after[n].stepName == steps[n].stepName && after[n].status != StepStarting
            && (after[n].status == StepSuccess <==> r.health == Healthy)
            && after[n].tag == Some(r.health)
            && (after[n].failed <==> r.health == Unhealthy && !(r.exitCode == 0 && !r.running))
  {}

  /** Marking makes an error of a record without an outcome. */
  lemma {:induction false} MarkedEntry(name: string, steps: seq<StepData>)
    requires steps != [] && HealthKey(name)
    ensures var after, n := Marked(name, steps), |steps| - 1;
            && |after| == n + 1 && after[..n] == steps[..n] && after[n].retryId == steps[n].retryId
            && after[n].stepName == steps[n].stepName && after[n].status != StepStarting
            && (after[n].status == StepSuccess <==> steps[n].status == StepSuccess)
            && after[n].tag == steps[n].tag && after[n].failed == steps[n].failed
  {}

  lemma {:induction false} MarkedSteps(data: Steps, name: string)
    requires StepsOf(data, name) != []
    ensures StepsOf(AllMarked(data), name) == Marked(name, StepsOf(data, name))
  {}

  /** What a health check writes down, however it ends: for each container one new record, and that says Success
      exactly if the last check that did not find it waiting found it HEALTHY. */
  lemma {:induction false} RecordsTell(data: Steps, cs: seq<SvcContainer>, o: Outcome, i: nat)
    requires DistinctServices(cs) && i < |cs|
    ensures var step := StepName(cs[i]);
            var before, after := StepsOf(data, step), StepsOf(RecordsAfter(data, cs, o), step);
            var n, last := |before|, LastJudged(o.checks, step);
            && |after| == n + 1 && after[..n] == before && after[n].retryId == n && after[n].stepName == step
            && (after[n].status == StepSuccess <==> last.Some? && last.value.health == Healthy)
            && after[n].tag == (if last.Some? then Some(last.value.health) else None)
            && (after[n].failed
                <==> && last.Some? && last.value.health == Unhealthy
                     && !(last.value.exitCode == 0 && !last.value.running))
            && (o.ending == Settled ==> after[n].status != StepStarting)
  {
    var step, started := StepName(cs[i]), AllStarted(data, cs, |cs|);
    OneRecordStarted(data, cs, |cs|, i);
    LastCheckRecorded(started, o.checks, step);
    hide StepsAfter, LastJudged, AllStarted, EndedLast, Marked, Judge, AllMarked;
    var records := StepsAfter(started, o.checks);
    var last := LastJudged(o.checks, step);
    if last.Some? {
      EndedByReport(StepsOf(started, step), last.value);
    }
    MarkedSteps(records, step);
    MarkedEntry(step, StepsOf(records, step));
  }

  // ---------------------------------------------------------------- from pass to pass

  lemma {:induction false} PassLeaves(s: Stage, world: World, infra: Option<string>, data: Steps)
    requires Tracked(data, s.left, StageReports(s, world), |s.left|) && PassIn(world, infra)(s).kind != Aborted
    ensures var p := PassIn(world, infra)(s);
            && AtStart(data, p.after.left)
            && (p.kind == Completed(|p.after.left|) ==> NoneOpen(data))
  {
    var rs := StageReports(s, world);
    NextPassStarts(data, s.left, rs);
    CountMatchesOnlyIfAllHealthy(s.left, rs);
    if forall i :: 0 <= i < |s.left| ==> rs[i].health == Healthy {
      NoWaitNoneOpen(data, s.left, rs);
    }
  }

  /** The check is broken off only when nothing but the infra container is left, and that one still waits. */
  lemma {:induction false} BreaksOnInfra(s: Stage, world: World, infra: Option<string>)
    requires PassIn(world, infra)(s).kind == Broke
    ensures var p := PassIn(world, infra)(s); OnlyInfra(p.after.left, infra) && EndsWaiting(p.checks)
  {
    var rs := StageReports(s, world);
    PassSettlesWell(s, rs, world, infra);
    assert Checks(s.left, rs, |s.left|)[|s.left| - 1].report == rs[|s.left| - 1];
  }

  predicate EndsWaiting(checks: seq<Check>) {
    checks != [] && Judge(checks[|checks| - 1].report) == Waits
  }

  lemma {:induction false} NoneWaited()
    ensures !EndsWaiting([])
  {}

  lemma {:induction false} EndsWaitingAlong(done: seq<Check>, checks: seq<Check>)
    requires EndsWaiting(checks)
    ensures EndsWaiting(done + checks)
  {}

  /** A pass that settles the check by its count, or empties the list, does not end with a container waiting. */
  lemma {:induction false} SettlesWithoutWaiting(s: Stage, world: World, infra: Option<string>, done: seq<Check>)
    requires s.left == [] ==> !EndsWaiting(done)
    ensures var p := PassIn(world, infra)(s);
            p.kind.Completed? && (p.after.left == [] || |p.after.left| == p.kind.count)
            ==> !EndsWaiting(done + p.checks)
  {
    var rs, n := StageReports(s, world), |s.left|;
    var p := PassIn(world, infra)(s);
    if p.kind.Completed? && (p.after.left == [] || |p.after.left| == p.kind.count) {
      CountMatchesOnlyIfAllHealthy(s.left, rs);
      if n == 0 {
        assert done + p.checks == done;
      } else {
        assert p.checks[n - 1] == Check(s.left[n - 1], rs[n - 1]);
        if Judge(rs[n - 1]) == Waits {
          WaitingIsKept(s.left, rs, n, n - 1);
        }
      }
    }
  }

  /** The whole check, when the checks in `done` came before `o`. */
  function Along(done: seq<Check>, o: Outcome): Outcome {
    Outcome(o.ending, o.after, done + o.checks)
  }

  lemma {:induction false} OnePassOn(done: seq<Check>, pass: Stage -> Pass, s: Stage, count: int, passes: nat)
    requires |s.left| != count && passes > 0
    ensures var p := pass(s);
            Along(done, Repeat(pass, s, count, passes))
            == if p.kind == Aborted then Outcome(Failing, p.after, done + p.checks)
               else if p.kind == Broke then Outcome(Settled, p.after, done + p.checks)
               else Along(done + p.checks, Repeat(pass, p.after, p.kind.count, passes - 1))
  {
    var p := pass(s);
    if p.kind.Completed? {
      var rest := Repeat(pass, p.after, p.kind.count, passes - 1);
      assert done + (p.checks + rest.checks) == done + p.checks + rest.checks;
    }
  }

  lemma {:induction false} NoPassOn(done: seq<Check>, pass: Stage -> Pass, s: Stage, count: int, passes: nat)
    requires |s.left| == count || passes == 0
    ensures Along(done, Repeat(pass, s, count, passes))
            == Outcome(if |s.left| == count then Settled else StillChecking, s, done)
  {
    assert done + [] == done;
  }

  lemma {:induction false} FirstPass(cs: seq<SvcContainer>, known: set<string>, world: World, infra: Option<string>,
                                     passes: nat)
    ensures Along([], Repeat(PassIn(world, infra), Stage(cs, known, 0), 0, passes))
            == HealthRun(cs, known, world, infra, passes)
  {}

  // ---------------------------------------------------------------- the containers of the pod

  ghost predicate AllFound(services: seq<string>, lookup: Lookup) {
    forall s :: s in services ==> lookup(s).Some?
  }

  function ContainerOf(service: string, found: (string, string)): SvcContainer {
    SvcContainer(service, found.0, found.1)
  }

  ghost function Launched(services: seq<string>, lookup: Lookup): (cs: seq<SvcContainer>)
    requires AllFound(services, lookup)
    ensures |cs| == |services|
    ensures forall i :: 0 <= i < |cs| ==> cs[i] == ContainerOf(services[i], lookup(services[i]).value)
  {
    seq(|services|, i requires 0 <= i < |services| => ContainerOf(services[i], lookup(services[i]).value))
  }

  lemma {:induction false} DistinctlyNamed(podServices: set<string>, order: seq<string>, lookup: Lookup)
    requires WalkOf(podServices, order) && AllFound(order, lookup)
    ensures DistinctServices(Launched(order, lookup))
  {}

  method GetServiceContainers(services: seq<string>, lookup: Lookup) returns (r: Option<seq<SvcContainer>>)
    ensures r.Some? <==> AllFound(services, lookup)
    ensures r.Some? ==> r.value == Launched(services, lookup)
    ensures r.Some? <==> forall s :: s in services ==> lookup(s).Some?
    ensures r.Some? ==> && |r.value| == |services|
                        && forall i :: 0 <= i < |services|
                                       ==> var found := lookup(services[i]).value;
                                           r.value[i] == SvcContainer(services[i], found.0, found.1)
  {
    var ids := [];
    for i := 0 to |services|
      invariant AllFound(services[..i], lookup) && ids == Launched(services[..i], lookup)
    {
      var found := lookup(services[i]);
      if found.None? {
        return None;
      }
      ids := ids + [ContainerOf(services[i], found.value)];
    }
    assert services[..|services|] == services;
    r := Some(ids);
  }

  // ---------------------------------------------------------------- starting the steps

  /** A service that is yet to come has no open step. */
  lemma {:induction false} NotYetOpen(data: Steps, cs: seq<SvcContainer>, i: nat)
    requires i < |cs| && DistinctServices(cs) && AtStart(data, cs[..i])
    ensures !Open(StepsOf(data, StepName(cs[i])))
  {
    hide RetryIds, OnlyLastOpen, Open;
    var key := StepName(cs[i]);
    if key in data && Open(data[key]) {
      assert NamedIn(key, cs[..i]);
      var j :| 0 <= j < i && StepName(cs[..i][j]) == key;
      NamesApart(cs[j].serviceName, cs[i].serviceName);
    } else {
      NoStepsNotOpen();
    }
  }

  lemma {:induction false} NoStepsNotOpen()
    ensures !Open([])
  {}

  lemma {:induction false} NamedInMore(name: string, cs: seq<SvcContainer>, i: nat)
    requires i < |cs|
    ensures NamedIn(name, cs[..i]) || name == StepName(cs[i]) ==> NamedIn(name, cs[..i + 1])
  {
    if NamedIn(name, cs[..i]) {
      var j :| 0 <= j < i && StepName(cs[..i][j]) == name;
      assert StepName(cs[..i + 1][j]) == name;
    } else if name == StepName(cs[i]) {
      assert StepName(cs[..i + 1][i]) == name;
    }
  }

  lemma {:induction false} StartOne(data: Steps, cs: seq<SvcContainer>, i: nat)
    requires i < |cs| && DistinctServices(cs) && AtStart(data, cs[..i])
    ensures AtStart(Started(data, StepName(cs[i])), cs[..i + 1])
  {
    var key := StepName(cs[i]);
    NotYetOpen(data, cs, i);
    StartOpens(data, key);
    RetryIdsKept(data, key, None, false);
    hide RetryIds, OnlyLastOpen, Open, NamedIn, StepName, DistinctServices, Started, HealthKey;
    var data' := Started(data, key);
    StartedKeys(data, key);
    forall name | name in data' && HealthKey(name) && Open(data'[name]) ensures NamedIn(name, cs[..i + 1]) {
      NamedInMore(name, cs, i);
    }
  }

  lemma {:induction false} StartedKeys(data: Steps, key: string)
    ensures Started(data, key).Keys == data.Keys + {key}
  {}

  lemma {:induction false} CleanStart(data: Steps)
    requires NoneOpen(data) && RetryIds(data)
    ensures AtStart(data, [])
  {}

  /** An empty pod has no open step. */
  lemma {:induction false} NothingStarted(data: Steps, cs: seq<SvcContainer>)
    ensures AtStart(data, cs) && |cs| == 0 ==> NoneOpen(data)
  {
    if AtStart(data, cs) && |cs| == 0 {
      forall name | name in data && HealthKey(name) ensures !Open(data[name]) {
        assert Open(data[name]) ==> NamedIn(name, cs);
      }
    }
  }

  lemma {:induction false} UpdateKeepsIds(data: Steps)
    ensures RetryIds(data) ==> RetryIds(AllMarked(data))
  {
    if RetryIds(data) { RetryIdsMarked(data); }
  }

  /** What `UpdateHealthCheckStatus` does to the steps of a finished check. */
  lemma {:induction false} UpdateCloses(data: Steps)
    requires OnlyLastOpen(data)
    ensures NoneOpen(AllMarked(data))
    ensures NoneOpen(data) ==> AllMarked(data) == data
  {
    MarkedCloses(data);
  }

  lemma {:induction false} TrackedParts(data: Steps, cs: seq<SvcContainer>)
    ensures AtStart(data, cs) ==> OnlyLastOpen(data)
    ensures NoneOpen(data) ==> OnlyLastOpen(data)
  {
    if NoneOpen(data) {
      forall name, k | name in data && HealthKey(name) && 0 <= k < |data[name]| - 1
        ensures data[name][k].status != StepStarting
      {
        assert !Open(data[name]);
      }
    }
  }

  /** The id the check compares with, if the pod has an infra service. */
  function InfraOf(podServices: set<string>, infraLookup: Option<string>): Option<string> {
    if INFRA_SERVICE in podServices then infraLookup else None
  }

  lemma {:induction false} LaunchedNobody(services: seq<string>, lookup: Lookup)
    ensures services == [] ==> AllFound(services, lookup) && Launched(services, lookup) == []
  {}

  /** Every container was found, the infra container's id included. */
  ghost predicate Ready(podServices: set<string>, services: seq<string>, lookup: Lookup, infraLookup: Option<string>) {
    AllFound(services, lookup) && (INFRA_SERVICE in podServices ==> infraLookup.Some?)
  }

  lemma {:induction false} ReadyParts(podServices: set<string>, services: seq<string>, lookup: Lookup,
                                      infraLookup: Option<string>)
    ensures Ready(podServices, services, lookup, infraLookup)
            <==> AllFound(services, lookup) && (INFRA_SERVICE in podServices ==> infraLookup.Some?)
    ensures InfraOf(podServices, infraLookup) == if INFRA_SERVICE in podServices then infraLookup else None
  {}

  lemma {:induction false} Replies(o: Outcome, infra: Option<string>, isService: bool)
    ensures Reply(o, infra, isService)
            == if o.ending == Failing then Some(Failed)
               else if o.ending == StillChecking then None
               else Some(Verdict(o.after.left, infra, isService))
  {}

  class PodMonitor {
    var monitorContainerList: seq<SvcContainer>
    var healthCheckListId: map<string, bool>
    const metrics: Metrics

    constructor ()
      ensures monitorContainerList == [] && KnownIds() == {} && fresh(metrics) && metrics.data == map[]
    {
      monitorContainerList, healthCheckListId := [], map[];
      metrics := new Metrics();
    }

    /** The containers known to have a health check. */
    function KnownIds(): set<string>
      reads this`healthCheckListId
    {
      set id | id in healthCheckListId && healthCheckListId[id]
    }

    method IsHealthCheckConfigured(id: string, probe: Probe) returns (configured: bool)
      modifies this`healthCheckListId
      ensures configured == probe.configured
      ensures KnownIds() == if configured then old(KnownIds()) + {id} else old(KnownIds())
    {
      configured := probe.configured;
      if configured {
        healthCheckListId := healthCheckListId[id := true];
      }
    }

    method CheckOne(id: string, probe: Probe) returns (r: Report)
      modifies this`healthCheckListId
      ensures r == CheckContainer(probe.inspection, id in old(KnownIds()) || probe.configured)
      ensures KnownIds() == if probe.configured then old(KnownIds()) + {id} else old(KnownIds())
    {
      if id in healthCheckListId && healthCheckListId[id] {
        r := CheckContainer(probe.inspection, true);
      } else {
        var configured := IsHealthCheckConfigured(id, probe);
        r := CheckContainer(probe.inspection, configured);
      }
    }

    /** The `j`-th visit of a pass that started at stage `s`. */
    method Visit(c: SvcContainer, probe: Probe, ghost s: Stage, ghost world: World, ghost j: nat) returns (r: Report)
      requires j < |s.left| && c == s.left[j] && probe == world(s.next + j)
      requires KnownIds() == Known(s.left, s.known, world, s.next, j)
      modifies this`healthCheckListId
      ensures r == StageReports(s, world)[j]
      ensures KnownIds() == Known(s.left, s.known, world, s.next, j + 1)
    {
      r := CheckOne(c.containerId, probe);
      assert ReportsUpTo(s.left, s.known, world, s.next, |s.left|)[j] == ReportAt(s.left, s.known, world, s.next, j);
    }

    /** Ends the step of the container just judged. */
    method EndHealthStep(c: SvcContainer, r: Report, failed: bool, ghost cs: seq<SvcContainer>, ghost rs: seq<Report>,
                         ghost n: nat)
      requires |rs| == |cs| && n < |cs| && cs[n] == c
      modifies metrics
      ensures metrics.data == Ended(old(metrics.data), StepName(c), Some(r.health), failed)
      ensures Tracked(old(metrics.data), cs, rs, n) ==> Tracked(metrics.data, cs, rs, n + 1)
      ensures RetryIds(old(metrics.data)) ==> RetryIds(metrics.data)
    {
      if Tracked(metrics.data, cs, rs, n) {
        OpenOnlyAfter(metrics.data, cs, rs, n, Some(r.health), failed);
      }
      if RetryIds(metrics.data) {
        RetryIdsKept(metrics.data, StepName(c), Some(r.health), failed);
      }
      metrics.EndStep(StepName(c), Some(r.health), failed);
    }

    /** Acts on the report on the `j`-th container of the pass, which stands at the index: the pass ends, or goes
        on with the list, the index and the count that are returned. */
    method ActOn(r: Report, left: seq<SvcContainer>, index: int, count: int, infra: Option<string>,
                 ghost s: Stage, ghost world: World, ghost j: nat)
      returns (ends: Option<Kind>, containers: seq<SvcContainer>, i: int, healthCount: int)
      requires Mid(s.left, StageReports(s, world), infra, j, left, index, count)
      requires 0 <= index < |left| && j < |s.left| && left[index] == s.left[j] && r == StageReports(s, world)[j]
      modifies metrics
      ensures metrics.data == EndedBy(old(metrics.data), Check(left[index], r))
      ensures ends == None ==> && Mid(s.left, StageReports(s, world), infra, j + 1, containers, i, healthCount)
                               && |containers| - i < |left| - index
      ensures ends.Some?
              ==> && (ends.value == Aborted || (ends.value == Broke && j + 1 == |s.left|))
                  && PassIn(world, infra)(s)
                     == Pass(ends.value,
                             Stage(containers, Known(s.left, s.known, world, s.next, j + 1), s.next + j + 1),
                             Checks(s.left, StageReports(s, world), j + 1))
      ensures ends != Some(Aborted) && Tracked(old(metrics.data), s.left, StageReports(s, world), j)
              ==> Tracked(metrics.data, s.left, StageReports(s, world), j + 1)
      ensures RetryIds(old(metrics.data)) ==> RetryIds(metrics.data)
    {
      hide *;
      ghost var rs := StageReports(s, world);
      var c := left[index];
      ends, containers, i, healthCount := None, left, index, count;
      TestsJudge(r);
      EndedByIs(metrics.data, c, r);
      if !(r.exitCode == 0 && !r.running) && r.health == Unhealthy {
        EndHealthStep(c, r, true, s.left, rs, j);
        MidAborts(s, world, infra, j, left, index, count);
        ends := Some(Aborted);
        return;
      }
      if r.health == Healthy {
        EndHealthStep(c, r, false, s.left, rs, j);
        MidPasses(s.left, rs, infra, j, left, index, count);
        healthCount := healthCount + 1;
      } else if r.exitCode == 0 && !r.running {
        EndHealthStep(c, r, false, s.left, rs, j);
        MidLeaves(s.left, rs, infra, j, left, index, count);
        containers := Delete(containers, i);
        i := i - 1;
        healthCount := healthCount - 1;
      } else {
        WaitingStaysOpen(metrics.data, s.left, rs, j);
        MidWaits(s.left, rs, infra, j, left, index, count);
        if AloneInfra(containers, infra) {
          MidBreaks(s, world, infra, j, left, index, count);
          ends := Some(Broke);
          return;
        }
      }
      i := i + 1;
    }

    /** One pass of the inner loop over `start`: containers that left are deleted from the list while it is
        being indexed, and each deletion takes one off the count. */
    method CheckPass(start: seq<SvcContainer>, infra: Option<string>, world: World, t: nat)
      returns (kind: Kind, containers: seq<SvcContainer>, next: nat, ghost checks: seq<Check>)
      modifies this`healthCheckListId, metrics
      ensures PassIn(world, infra)(Stage(start, old(KnownIds()), t))
              == Pass(kind, Stage(containers, KnownIds(), next), checks)
      ensures metrics.data == StepsAfter(old(metrics.data), checks)
      ensures RetryIds(old(metrics.data)) ==> RetryIds(metrics.data)
      ensures AtStart(old(metrics.data), start) && kind != Aborted
              ==> Tracked(metrics.data, start, StageReports(Stage(start, old(KnownIds()), t), world), |start|)
    {
      hide *;
      ghost var clean := AtStart(metrics.data, start);
      ghost var s := Stage(start, KnownIds(), t);
      ghost var rs := StageReports(s, world);
      containers, next := start, t;
      var healthCount, i := 0, 0;
      ghost var j := 0;
      NothingVisited(s, world);
      StartTracked(metrics.data, start, rs);
      MidStarts(start, rs, infra);
      NoStepYet(metrics.data, start, rs);
      while i < |containers|
        invariant Mid(start, rs, infra, j, containers, i, healthCount)
        invariant next == t + j && j <= |start|
        invariant KnownIds() == Known(start, s.known, world, t, j)
        invariant metrics.data == StepsAfter(old(metrics.data), Checks(start, rs, j))
        invariant clean ==> Tracked(metrics.data, start, rs, j)
        invariant RetryIds(old(metrics.data)) ==> RetryIds(metrics.data)
        decreases |containers| - i
      {
        MidHead(start, rs, infra, j, containers, i, healthCount);
        EndedOneMore(old(metrics.data), start, rs, j);
        var r := Visit(containers[i], world(next), s, world, j);
        next := next + 1;
        var ends;
        ends, containers, i, healthCount := ActOn(r, containers, i, healthCount, infra, s, world, j);
        if ends.Some? {
          kind, checks := ends.value, Checks(start, rs, j + 1);
          return;
        }
        j := j + 1;
      }
      MidHead(start, rs, infra, j, containers, i, healthCount);
      MidCompletes(s, world, infra, containers, i, healthCount);
      kind, checks := Completed(healthCount), Checks(start, rs, |start|);
    }

    /** Asks for the containers until as many are listed as the pod has services. */
    method AwaitLaunch(podServices: set<string>, services: seq<string>, lookup: Lookup)
      returns (launched: Option<seq<SvcContainer>>)
      requires WalkOf(podServices, services)
      ensures launched.Some? <==> AllFound(services, lookup)
      ensures launched.Some? ==> launched.value == Launched(services, lookup)
    {
      hide *;
      WalkSize(podServices, services);
      LaunchedNobody(services, lookup);
      var containers: seq<SvcContainer> := [];
      while |containers| < |podServices|
        invariant |containers| < |podServices| ==> containers == []
        invariant |containers| >= |podServices|
                  ==> AllFound(services, lookup) && containers == Launched(services, lookup)
        decreases |podServices| - |containers|
      {
        var found := GetServiceContainers(services, lookup);
        if found.None? {
          return None;
        }
        containers := found.value;
      }
      launched := Some(containers);
    }

    /** One health check step per container is started. */
    method StartSteps(containers: seq<SvcContainer>)
      modifies metrics
      ensures metrics.data == AllStarted(old(metrics.data), containers, |containers|)
      ensures NoneOpen(old(metrics.data)) && RetryIds(old(metrics.data)) && DistinctServices(containers)
              ==> AtStart(metrics.data, containers)
      ensures RetryIds(old(metrics.data)) ==> RetryIds(metrics.data)
    {
      hide *;
      ghost var clean := NoneOpen(metrics.data) && RetryIds(metrics.data) && DistinctServices(containers);
      if clean { CleanStart(metrics.data); }
      assert containers[..0] == [];
      NoStepYet(metrics.data, containers, []);
      for i := 0 to |containers|
        invariant metrics.data == AllStarted(old(metrics.data), containers, i)
        invariant clean ==> AtStart(metrics.data, containers[..i])
        invariant RetryIds(old(metrics.data)) ==> RetryIds(metrics.data)
      {
        if clean { StartOne(metrics.data, containers, i); }
        if RetryIds(metrics.data) { RetryIdsKept(metrics.data, StepName(containers[i]), None, false); }
        StartedOneMore(old(metrics.data), containers, i);
        metrics.StartStep(StepName(containers[i]));
      }
      assert containers[..|containers|] == containers;
    }

    /** The outer loop: passes until the count meets the length of the list, as many as the launch timeout
        leaves room for. */
    method CheckAll(start: seq<SvcContainer>, infra: Option<string>, world: World, passes: nat)
      returns (ending: Ending, containers: seq<SvcContainer>, ghost o: Outcome)
      modifies this`healthCheckListId, metrics
      ensures o == HealthRun(start, old(KnownIds()), world, infra, passes)
      ensures ending == o.ending && Stage(containers, KnownIds(), o.after.next) == o.after
      ensures metrics.data == StepsAfter(old(metrics.data), o.checks)
      ensures RetryIds(old(metrics.data)) ==> RetryIds(metrics.data)
      ensures ending == Settled && EndsWaiting(o.checks) ==> OnlyInfra(containers, infra)
      ensures AtStart(old(metrics.data), start) && ending == Settled
              ==> if EndsWaiting(o.checks) then AtStart(metrics.data, containers) else NoneOpen(metrics.data)
    {
      hide *;
      ghost var clean := AtStart(metrics.data, start);
      ghost var pass := PassIn(world, infra);
      ghost var done: seq<Check> := [];
      var next, left := 0, passes;
      var healthCount := 0;
      containers := start;
      o := HealthRun(start, KnownIds(), world, infra, passes);
      FirstPass(start, KnownIds(), world, infra, passes);
      NothingStarted(metrics.data, start);
      NoStepYet(metrics.data, start, []);
      NoneWaited();
      while |containers| != healthCount
        invariant o == Along(done, Repeat(pass, Stage(containers, KnownIds(), next), healthCount, left))
        invariant metrics.data == StepsAfter(old(metrics.data), done)
        invariant RetryIds(old(metrics.data)) ==> RetryIds(metrics.data)
        invariant containers == [] || |containers| == healthCount ==> !EndsWaiting(done)
        invariant clean ==> AtStart(metrics.data, containers)
        invariant clean && |containers| == healthCount ==> NoneOpen(metrics.data)
        decreases left
      {
        ghost var s := Stage(containers, KnownIds(), next);
        if left == 0 {
          NoPassOn(done, pass, s, healthCount, left);
          ending := StillChecking;
          return;
        }
        OnePassOn(done, pass, s, healthCount, left);
        var kind;
        ghost var checks;
        kind, containers, next, checks := CheckPass(containers, infra, world, next);
        StepsAlong(old(metrics.data), done, checks);
        SettlesWithoutWaiting(s, world, infra, done);
        if clean && kind != Aborted { PassLeaves(s, world, infra, metrics.data); }
        match kind {
          case Aborted =>
            ending := Failing;
            return;
          case Broke =>
            BreaksOnInfra(s, world, infra);
            EndsWaitingAlong(done, checks);
            ending := Settled;
            return;
          case Completed(count) =>
            healthCount, left, done := count, left - 1, done + checks;
        }
      }
      NoPassOn(done, pass, Stage(containers, KnownIds(), next), healthCount, left);
      ending := Settled;
    }

    /** The reply of a check that settled. */
    method Conclude(containers: seq<SvcContainer>, infra: Option<string>, isService: bool) returns (status: PodStatus)
      ensures status == Verdict(containers, infra, isService)
    {
      if |containers| == 0 && !isService {
        status := Finished;
      } else if |containers| == 0 && isService {
        status := Failed;
      } else if !isService && infra.Some? && |containers| == 1 && containers[0].containerId == infra.value {
        status := Finished;
      } else if isService && infra.Some? && |containers| == 1 && containers[0].containerId == infra.value {
        status := Failed;
      } else {
        status := Running;
      }
    }

    /** `HealthCheck` from its first line to the reply it sends; no reply if the launch timeout comes first.
        `services` are the pod's services in the order Go happened to walk them. */
    method HealthCheck(podServices: set<string>, services: seq<string>, lookup: Lookup, infraLookup: Option<string>,
                       world: World, passes: nat, isService: bool)
      returns (reply: Option<PodStatus>, ghost o: Outcome)
      requires WalkOf(podServices, services)
      modifies this, metrics
      ensures !Ready(podServices, services, lookup, infraLookup)
              ==> && reply == Some(Failed) && KnownIds() == old(KnownIds()) && metrics.data == old(metrics.data)
                  && monitorContainerList == (if AllFound(services, lookup) then Launched(services, lookup)
                                              else old(monitorContainerList))
      ensures Ready(podServices, services, lookup, infraLookup)
              ==> && o == HealthRun(Launched(services, lookup), old(KnownIds()), world,
                                    InfraOf(podServices, infraLookup), passes)
                  && reply == Reply(o, InfraOf(podServices, infraLookup), isService)
                  && KnownIds() == o.after.known
                  && monitorContainerList == (if o.ending == Settled then o.after.left else Launched(services, lookup))
                  && metrics.data == RecordsAfter(old(metrics.data), Launched(services, lookup), o)
                  && (o.ending == Settled && EndsWaiting(o.checks)
                      ==> OnlyInfra(monitorContainerList, InfraOf(podServices, infraLookup)))
      ensures RetryIds(old(metrics.data)) ==> RetryIds(metrics.data)
      ensures Ready(podServices, services, lookup, infraLookup) && o.ending == Settled
              && NoneOpen(old(metrics.data)) && RetryIds(old(metrics.data))
              ==> && NoneOpen(metrics.data)
                  && (!EndsWaiting(o.checks)
                      ==> metrics.data == StepsAfter(AllStarted(old(metrics.data), Launched(services, lookup),
                                                                |Launched(services, lookup)|), o.checks))
    {
      hide *;
      ghost var clean := NoneOpen(metrics.data) && RetryIds(metrics.data);
      o := Outcome(Failing, Stage([], {}, 0), []);
      ReadyParts(podServices, services, lookup, infraLookup);
      var launched := AwaitLaunch(podServices, services, lookup);
      if launched.None? {
        reply := Some(Failed);
        return;
      }
      var containers := launched.value;
      DistinctlyNamed(podServices, services, lookup);
      monitorContainerList := containers;
      var infra := None;
      if INFRA_SERVICE in podServices {
        if infraLookup.None? {
          reply := Some(Failed);
          return;
        }
        infra := infraLookup;
      }
      StartSteps(containers);
      var ending;
      ending, containers, o := CheckAll(containers, infra, world, passes);
      Replies(o, infra, isService);
      RecordsAre(old(metrics.data), launched.value, o);
      match ending {
        case Failing =>
          reply := Some(Failed);
          return;
        case StillChecking =>
          reply := None;
          return;
        case Settled =>
      }
      UpdateKeepsIds(metrics.data);
      if clean {
        TrackedParts(metrics.data, containers);
        UpdateCloses(metrics.data);
      }
      metrics.UpdateHealthCheckStatus();
      monitorContainerList := containers;
      var status := Conclude(containers, infra, isService);
      reply := Some(status);
    }
  }
}
