/** What the initial health check decides: `HealthCheck` of utils/pod/pod.go as a function of what docker
    answers. */
module HealthSpec {
  import opened PodTypes
  import opened ContainerCheck
  import opened Filter

  datatype Judgement = Fails | Passes | Leaves | Waits

  /** How one report is acted on, in the order of the code's tests. The code tests for UNHEALTHY once
      more after removing; nothing can reach that test. */
  function Judge(r: Report): Judgement {
    if !Gone(r) && r.health == Unhealthy then Fails
    else if r.health == Healthy then Passes
    else if Gone(r) then Leaves
    else Waits
  }

  function Tally(rs: seq<Report>, j: Judgement, n: nat): nat
    requires n <= |rs|
  {
    if n == 0 then 0 else Tally(rs, j, n - 1) + if Judge(rs[n - 1]) == j then 1 else 0
  }

  /** Which containers the reports make leave. */
  function Leaving(rs: seq<Report>): (goes: seq<bool>)
    ensures |goes| == |rs|
    ensures forall i :: 0 <= i < |rs| ==> goes[i] == (Judge(rs[i]) == Leaves)
  {
    seq(|rs|, i requires 0 <= i < |rs| => Judge(rs[i]) == Leaves)
  }

  /** Of the first `n` containers, those that do not leave, in order. */
  function Kept(cs: seq<SvcContainer>, rs: seq<Report>, n: nat): seq<SvcContainer>
    requires n <= |cs| && n <= |rs|
  {
    Stay(cs, Leaving(rs), n)
  }

  /** The first failing report at or after `i`, or the number of reports. */
  function FirstFail(rs: seq<Report>, i: nat): (f: nat)
    requires i <= |rs|
    ensures i <= f <= |rs|
    ensures forall k :: i <= k < f ==> Judge(rs[k]) != Fails
    ensures f < |rs| ==> Judge(rs[f]) == Fails
    decreases |rs| - i
  {
    if i == |rs| || Judge(rs[i]) == Fails then i else FirstFail(rs, i + 1)
  }

  /** All others have left and the infra container, the last in the list, is still starting. */
  predicate OnlyInfraWaits(cs: seq<SvcContainer>, rs: seq<Report>, infra: Option<string>)
    requires |rs| == |cs|
  {
    && cs != [] && Judge(rs[|cs| - 1]) == Waits
    && |Kept(cs, rs, |cs|)| == 1
    && infra == Some(cs[|cs| - 1].containerId)
  }

  /** Between two passes: the containers left, the ones with a known health check, the next visit to docker. */
  datatype Stage = Stage(left: seq<SvcContainer>, known: set<string>, next: nat)

  datatype Kind = Aborted | Broke | Completed(count: int)

  /** How a pass ended, where it leaves the check, and the checks it made. */
  datatype Pass = Pass(kind: Kind, after: Stage, checks: seq<Check>)

  function PassOf(s: Stage, rs: seq<Report>, world: World, infra: Option<string>): Pass
    requires |rs| == |s.left|
  {
    var n, f := |s.left|, FirstFail(rs, 0);
    if f < n then
      Pass(Aborted,
           Stage(Kept(s.left, rs, f) + s.left[f..], Known(s.left, s.known, world, s.next, f + 1), s.next + f + 1),
           Checks(s.left, rs, f + 1))
    else
      Pass(if OnlyInfraWaits(s.left, rs, infra) then Broke
           else Completed(Tally(rs, Passes, n) - Tally(rs, Leaves, n)),
           Stage(Kept(s.left, rs, n), Known(s.left, s.known, world, s.next, n), s.next + n),
           Checks(s.left, rs, n))
  }

  /** One pass, as docker's answers decide it. */
  function PassIn(world: World, infra: Option<string>): Stage -> Pass {
    (s: Stage) => PassOf(s, Reports(s.left, s.known, world, s.next), world, infra)
  }

  datatype Ending = Failing | Settled | StillChecking

  datatype Outcome = Outcome(ending: Ending, after: Stage, checks: seq<Check>)

  /** Passes until the count meets the length of the list, at most as many as the launch timeout
      leaves room for. */
  function Repeat(pass: Stage -> Pass, s: Stage, count: int, passes: nat): Outcome
    decreases passes
  {
    if |s.left| == count then Outcome(Settled, s, [])
    else if passes == 0 then Outcome(StillChecking, s, [])
    else
      var p := pass(s);
      match p.kind
      case Aborted => Outcome(Failing, p.after, p.checks)
      case Broke => Outcome(Settled, p.after, p.checks)
      case Completed(count') =>
        var rest := Repeat(pass, p.after, count', passes - 1);
        Outcome(rest.ending, rest.after, p.checks + rest.checks)
  }

  function HealthRun(cs: seq<SvcContainer>, known: set<string>, world: World, infra: Option<string>,
                     passes: nat): Outcome {
    Repeat(PassIn(world, infra), Stage(cs, known, 0), 0, passes)
  }

  predicate OnlyInfra(cs: seq<SvcContainer>, infra: Option<string>) {
    |cs| == 1 && infra == Some(cs[0].containerId)
  }

  /** What a settled check replies. */
  function Verdict(left: seq<SvcContainer>, infra: Option<string>, isService: bool): PodStatus {
    if left == [] || OnlyInfra(left, infra) then (if isService then Failed else Finished)
    else Running
  }

  function Reply(o: Outcome, infra: Option<string>, isService: bool): Option<PodStatus> {
    match o.ending
    case Failing => Some(Failed)
    case Settled => Some(Verdict(o.after.left, infra, isService))
    case StillChecking => None
  }

  // ---------------------------------------------------------------- counting

  lemma {:induction false} Tallies(cs: seq<SvcContainer>, rs: seq<Report>, n: nat)
    requires n <= |cs| && n <= |rs|
    ensures Tally(rs, Fails, n) + Tally(rs, Passes, n) + Tally(rs, Leaves, n) + Tally(rs, Waits, n) == n
    ensures |Kept(cs, rs, n)| == n - Tally(rs, Leaves, n)
    ensures Tally(rs, Passes, n) == n <==> forall i :: 0 <= i < n ==> Judge(rs[i]) == Passes
  {
    if n == 0 {
    } else {
      Tallies(cs, rs, n - 1);
    }
  }

  lemma {:induction false} NoneJudged(rs: seq<Report>, j: Judgement, n: nat)
    requires n <= |rs| && forall i :: 0 <= i < n ==> Judge(rs[i]) != j
    ensures Tally(rs, j, n) == 0
  {
    if n == 0 {
    } else {
      NoneJudged(rs, j, n - 1);
    }
  }

  /** The loop's exit test: the count, which removals drive below zero, equals the length of the
      list exactly when every container of the pass was HEALTHY and none was removed. */
  lemma {:induction false} CountMatchesOnlyIfAllHealthy(cs: seq<SvcContainer>, rs: seq<Report>)
    requires |rs| == |cs|
    ensures var count := Tally(rs, Passes, |cs|) - Tally(rs, Leaves, |cs|);
            |Kept(cs, rs, |cs|)| == count <==> forall i :: 0 <= i < |cs| ==> rs[i].health == Healthy
    ensures (forall i :: 0 <= i < |cs| ==> rs[i].health == Healthy) ==> Kept(cs, rs, |cs|) == cs
  {
    Tallies(cs, rs, |cs|);
    forall i | 0 <= i < |cs| ensures Judge(rs[i]) == Passes <==> rs[i].health == Healthy {}
    if forall i :: 0 <= i < |cs| ==> Judge(rs[i]) == Passes {
      StayAll(cs, Leaving(rs), |cs|);
    }
  }

  // ---------------------------------------------------------------- POD_RUNNING

  predicate HealthyCheck(c: Check, container: SvcContainer) {
    c.container == container && c.report.health == Healthy
  }

  /** The pass removed nothing and checked every container of the stage, in order, each of them HEALTHY. */
  predicate AllHealthyPass(s: Stage, p: Pass) {
    && p.kind == Completed(|s.left|) && p.after.left == s.left && |p.checks| == |s.left|
    && forall i :: 0 <= i < |s.left| ==> HealthyCheck(p.checks[i], s.left[i])
  }

  /** How one pass can end the check without failing it. */
  predicate SettlesWell(s: Stage, p: Pass, infra: Option<string>) {
    && (p.kind.Broke? ==> OnlyInfra(p.after.left, infra))
    && (p.kind.Completed? && |p.after.left| == p.kind.count ==> AllHealthyPass(s, p))
  }

  lemma {:induction false} PassSettlesWell(s: Stage, rs: seq<Report>, world: World, infra: Option<string>)
    requires |rs| == |s.left|
    ensures SettlesWell(s, PassOf(s, rs, world, infra), infra)
  {
    CountMatchesOnlyIfAllHealthy(s.left, rs);
  }

  /** The pass neither ends the check nor makes its count meet the list. */
  predicate GoesOn(p: Pass) {
    p.kind.Completed? && p.kind.count != |p.after.left|
  }

  /** The stages at which the passes of a run began: each but the last let the check go on, at the next. */
  ghost predicate Chain(pass: Stage -> Pass, start: Stage, stages: seq<Stage>) {
    && stages != [] && stages[0] == start
    && forall i :: 0 <= i < |stages| - 1 ==> GoesOn(pass(stages[i])) && pass(stages[i]).after == stages[i + 1]
  }

  /** The checks of all passes of a run, in order. */
  function LogOf(pass: Stage -> Pass, stages: seq<Stage>): seq<Check> {
    if stages == [] then [] else pass(stages[0]).checks + LogOf(pass, stages[1..])
  }

  lemma {:induction false} ChainOn(pass: Stage -> Pass, s: Stage, rest: seq<Stage>)
    requires GoesOn(pass(s)) && Chain(pass, pass(s).after, rest)
    ensures Chain(pass, s, [s] + rest) && LogOf(pass, [s] + rest) == pass(s).checks + LogOf(pass, rest)
  {
    assert ([s] + rest)[1..] == rest;
  }

  lemma {:induction false} ChainOfOne(pass: Stage -> Pass, s: Stage)
    ensures Chain(pass, s, [s]) && LogOf(pass, [s]) == pass(s).checks
  {
    assert LogOf(pass, [s]) == pass(s).checks + LogOf(pass, []);
  }

  /** How the last pass of a check ends it; a check that is cut off has made all its passes. */
  predicate EndsAs(ending: Ending, p: Pass, made: nat, passes: nat) {
    match ending
    case Failing => p.kind == Aborted
    case Settled => p.kind == Broke || p.kind == Completed(|p.after.left|)
    case StillChecking => GoesOn(p) && made == passes
  }

  /** The passes that a check was made of, and how the last of them ended it. */
  lemma {:induction false} PassesOf(pass: Stage -> Pass, s: Stage, count: int, passes: nat, o: Outcome)
    returns (stages: seq<Stage>)
    requires o == Repeat(pass, s, count, passes) && |s.left| != count && passes > 0
    ensures Chain(pass, s, stages) && o.checks == LogOf(pass, stages) && |stages| <= passes
    ensures var p := pass(stages[|stages| - 1]); p.after == o.after && EndsAs(o.ending, p, |stages|, passes)
    decreases passes
  {
    hide Chain, LogOf;
    var p := pass(s);
    if GoesOn(p) && passes > 1 {
      var rest := PassesOf(pass, p.after, p.kind.count, passes - 1,
                           Repeat(pass, p.after, p.kind.count, passes - 1));
      NonEmpty(pass, p.after, rest);
      ChainOn(pass, s, rest);
      stages := [s] + rest;
    } else {
      ChainOfOne(pass, s);
      stages := [s];
      assert p.checks + [] == p.checks;
    }
  }

  /** A pod without containers is settled without a check, even if there is no time for one. */
  lemma {:induction false} EmptySettles(known: set<string>, world: World, infra: Option<string>, passes: nat)
    ensures HealthRun([], known, world, infra, passes) == Outcome(Settled, Stage([], known, 0), [])
  {}

  /** What a check comes to after the first stages of a chain. */
  lemma {:induction false} ChainAhead(pass: Stage -> Pass, stages: seq<Stage>, count: int, passes: nat)
    returns (count': int)
    requires stages != [] && Chain(pass, stages[0], stages) && |stages| <= passes && |stages[0].left| != count
    ensures var t := stages[|stages| - 1];
            var o, rest := Repeat(pass, stages[0], count, passes), Repeat(pass, t, count', passes - |stages| + 1);
            |t.left| != count' && o.ending == rest.ending && o.after == rest.after
    decreases |stages|
  {
    if |stages| == 1 {
      count' := count;
    } else {
      var s := stages[0];
      assert GoesOn(pass(s)) && pass(s).after == stages[1];
      assert Chain(pass, stages[1], stages[1..]) by {
        forall i | 0 <= i < |stages[1..]| - 1
          ensures GoesOn(pass(stages[1..][i])) && pass(stages[1..][i]).after == stages[1..][i + 1]
        {
          assert GoesOn(pass(stages[i + 1])) && pass(stages[i + 1]).after == stages[i + 2];
        }
      }
      count' := ChainAhead(pass, stages[1..], pass(s).kind.count, passes - 1);
    }
  }

  lemma {:induction false} NonEmpty(pass: Stage -> Pass, start: Stage, stages: seq<Stage>)
    requires Chain(pass, start, stages)
    ensures stages != [] && stages[0] == start
  {}

  /** POD_RUNNING is replied only after a last pass that removed nothing and found every container HEALTHY,
      and never for an empty pod or for the infra container alone: the log is that of a chain of passes over
      the list of the pod, and the last of them left its own list as it was. */
  lemma {:induction false} RunningOnlyIfAllHealthy(cs: seq<SvcContainer>, known: set<string>, world: World,
                                                   infra: Option<string>, passes: nat, isService: bool, o: Outcome)
    returns (stages: seq<Stage>)
    requires o == HealthRun(cs, known, world, infra, passes) && Reply(o, infra, isService) == Some(Running)
    ensures o.after.left != [] && !OnlyInfra(o.after.left, infra)
    ensures Chain(PassIn(world, infra), Stage(cs, known, 0), stages)
    ensures o.checks == LogOf(PassIn(world, infra), stages)
    ensures var t := stages[|stages| - 1];
            var p := PassIn(world, infra)(t);
            AllHealthyPass(t, p) && p.after == o.after
  {
    hide Chain, LogOf, PassOf;
    stages := PassesOf(PassIn(world, infra), Stage(cs, known, 0), 0, passes, o);
    NonEmpty(PassIn(world, infra), Stage(cs, known, 0), stages);
    var t := stages[|stages| - 1];
    PassSettlesWell(t, Reports(t.left, t.known, world, t.next), world, infra);
  }

  /** Conversely the first pass that finds everything HEALTHY is the last. */
  lemma {:induction false} AllHealthySettles(s: Stage, count: int, world: World, infra: Option<string>, passes: nat)
    requires |s.left| != count && passes > 0
    requires forall i :: 0 <= i < |s.left| ==> ReportAt(s.left, s.known, world, s.next, i).health == Healthy
    ensures var o := Repeat(PassIn(world, infra), s, count, passes);
            o.ending == Settled && o.after.left == s.left && o.after.next == s.next + |s.left|
  {
    var p := PassIn(world, infra)(s);
    AllHealthyCompletes(s, Reports(s.left, s.known, world, s.next), world, infra);
    assert p.kind.Completed? && |p.after.left| == p.kind.count;
  }

  lemma {:induction false} AllHealthyCompletes(s: Stage, rs: seq<Report>, world: World, infra: Option<string>)
    requires |rs| == |s.left| && forall i :: 0 <= i < |rs| ==> rs[i].health == Healthy
    ensures var p := PassOf(s, rs, world, infra);
            && p.kind == Completed(|s.left|)
            && p.after.left == s.left && p.after.next == s.next + |s.left|
  {
    CountMatchesOnlyIfAllHealthy(s.left, rs);
    forall i | 0 <= i < |rs| ensures Judge(rs[i]) == Passes {}
  }

  // ---------------------------------------------------------------- POD_FAILED and POD_FINISHED

  /** Some check found a container UNHEALTHY that has not exited with 0. */
  ghost predicate SomeFails(checks: seq<Check>) {
    exists i :: 0 <= i < |checks| && Judge(checks[i].report) == Fails
  }

  lemma {:induction false} SomeFailsAlong(a: seq<Check>, b: seq<Check>)
    ensures SomeFails(a + b) <==> SomeFails(a) || SomeFails(b)
  {
    var all := a + b;
    forall i | 0 <= i < |a| ensures all[i] == a[i] {}
    forall i | 0 <= i < |b| ensures all[|a| + i] == b[i] {}
    if SomeFails(all) {
      var i :| 0 <= i < |all| && Judge(all[i].report) == Fails;
      assert i >= |a| ==> all[i] == b[i - |a|];
    }
  }

  lemma {:induction false} PassFailsIff(s: Stage, rs: seq<Report>, world: World, infra: Option<string>)
    requires |rs| == |s.left|
    ensures var p := PassOf(s, rs, world, infra); p.kind == Aborted <==> SomeFails(p.checks)
  {
    hide Judge, Known, Kept, Tally, OnlyInfraWaits;
    var f := FirstFail(rs, 0);
    if f < |rs| {
      assert Judge(Checks(s.left, rs, f + 1)[f].report) == Fails;
    }
  }

  lemma {:induction false} RepeatFailsIff(pass: Stage -> Pass, s: Stage, count: int, passes: nat)
    requires forall s: Stage :: pass(s).kind == Aborted <==> SomeFails(pass(s).checks)
    ensures var o := Repeat(pass, s, count, passes); o.ending == Failing <==> SomeFails(o.checks)
    decreases passes
  {
    hide SomeFails;
    NoneFail();
    if |s.left| == count || passes == 0 {
    } else {
      var p := pass(s);
      if p.kind.Completed? {
        RepeatFailsIff(pass, p.after, p.kind.count, passes - 1);
        SomeFailsAlong(p.checks, Repeat(pass, p.after, p.kind.count, passes - 1).checks);
      }
    }
  }

  lemma {:induction false} NoneFail()
    ensures !SomeFails([])
  {}

  /** POD_FAILED is replied exactly when some check found a container UNHEALTHY that had not exited with 0, or
      a service has nothing left but, perhaps, infra; POD_FINISHED exactly when that is true of a job. */
  lemma {:induction false} RepliesIff(cs: seq<SvcContainer>, known: set<string>, world: World, infra: Option<string>,
                                      passes: nat, isService: bool)
    ensures var o := HealthRun(cs, known, world, infra, passes);
            var done := o.ending == Settled && (o.after.left == [] || OnlyInfra(o.after.left, infra));
            && (Reply(o, infra, isService) == Some(Failed) <==> SomeFails(o.checks) || (done && isService))
            && (Reply(o, infra, isService) == Some(Finished) <==> done && !isService)
            && (Reply(o, infra, isService) == Some(Running) <==> o.ending == Settled && !done)
  {
    FailingIff(cs, known, world, infra, passes);
    hide HealthRun, SomeFails;
  }

  lemma {:induction false} FailingIff(cs: seq<SvcContainer>, known: set<string>, world: World,
                                      infra: Option<string>, passes: nat)
    ensures var o := HealthRun(cs, known, world, infra, passes); o.ending == Failing <==> SomeFails(o.checks)
  {
    var pass := PassIn(world, infra);
    forall s: Stage ensures pass(s).kind == Aborted <==> SomeFails(pass(s).checks) {
      PassFailsIff(s, Reports(s.left, s.known, world, s.next), world, infra);
    }
    hide SomeFails, PassOf;
    RepeatFailsIff(pass, Stage(cs, known, 0), 0, passes);
  }

  // ---------------------------------------------------------------- conservation

  /** The containers the checks removed. */
  function Removed(checks: seq<Check>): seq<SvcContainer> {
    if checks == [] then []
    else if Judge(checks[|checks| - 1].report) == Leaves
    then Removed(checks[..|checks| - 1]) + [checks[|checks| - 1].container]
    else Removed(checks[..|checks| - 1])
  }

  lemma {:induction false} RemovedAppend(a: seq<Check>, b: seq<Check>)
    ensures Removed(a + b) == Removed(a) + Removed(b)
  {
    if b == [] {
      assert a + b == a;
    } else {
      RemovedAppend(a, b[..|b| - 1]);
      assert (a + b)[..|a + b| - 1] == a + b[..|b| - 1];
    }
  }

  lemma {:induction false} RemovedOne(cs: seq<SvcContainer>, rs: seq<Report>, n: nat)
    requires n < |cs| && n < |rs|
    ensures Removed(Checks(cs, rs, n + 1))
            == Removed(Checks(cs, rs, n)) + if Judge(rs[n]) == Leaves then [cs[n]] else []
  {
    assert Checks(cs, rs, n + 1)[..n] == Checks(cs, rs, n);
  }

  lemma {:induction false} RemovedIsGone(cs: seq<SvcContainer>, rs: seq<Report>, n: nat)
    requires n <= |cs| && n <= |rs|
    ensures Removed(Checks(cs, rs, n)) == Go(cs, Leaving(rs), n)
  {
    if n == 0 {
    } else {
      RemovedIsGone(cs, rs, n - 1);
      RemovedOne(cs, rs, n - 1);
    }
  }

  ghost predicate Conserves(s: Stage, p: Pass) {
    Splits(s.left, p.after.left, Removed(p.checks))
  }

  /** Wherever a pass has got to, its list and what it removed make up the list it started from. */
  lemma {:induction false} PrefixConserves(cs: seq<SvcContainer>, rs: seq<Report>, f: nat)
    requires f <= |cs| && f <= |rs|
    ensures Splits(cs, Kept(cs, rs, f) + cs[f..], Removed(Checks(cs, rs, f)))
  {
    StayAndGo(cs, Leaving(rs), f);
    RemovedIsGone(cs, rs, f);
    SplitsWithRest(cs, Kept(cs, rs, f), Go(cs, Leaving(rs), f), f);
  }

  lemma {:induction false} AbortConserves(cs: seq<SvcContainer>, rs: seq<Report>, f: nat)
    requires f < |cs| && f < |rs| && Judge(rs[f]) == Fails
    ensures Splits(cs, Kept(cs, rs, f) + cs[f..], Removed(Checks(cs, rs, f + 1)))
  {
    PrefixConserves(cs, rs, f);
    RemovedOne(cs, rs, f);
  }

  lemma {:induction false} FullConserves(cs: seq<SvcContainer>, rs: seq<Report>)
    requires |rs| == |cs|
    ensures Splits(cs, Kept(cs, rs, |cs|), Removed(Checks(cs, rs, |cs|)))
  {
    PrefixConserves(cs, rs, |cs|);
    assert Kept(cs, rs, |cs|) + cs[|cs|..] == Kept(cs, rs, |cs|);
  }

  lemma {:induction false} PassConserves(s: Stage, rs: seq<Report>, world: World, infra: Option<string>)
    requires |rs| == |s.left|
    ensures Conserves(s, PassOf(s, rs, world, infra))
  {
    var f := FirstFail(rs, 0);
    if f < |s.left| {
      AbortConserves(s.left, rs, f);
    } else {
      FullConserves(s.left, rs);
    }
  }

  lemma {:induction false} NothingSplit(cs: seq<SvcContainer>)
    ensures Splits(cs, cs, Removed([]))
  {}

  lemma {:induction false} RepeatConserves(pass: Stage -> Pass, s: Stage, count: int, passes: nat)
    requires forall s: Stage :: Conserves(s, pass(s))
    ensures var o := Repeat(pass, s, count, passes); Splits(s.left, o.after.left, Removed(o.checks))
    decreases passes
  {
    hide Splits;
    if |s.left| == count || passes == 0 {
      NothingSplit(s.left);
    } else {
      var p := pass(s);
      assert Conserves(s, p);
      if p.kind.Completed? {
        var rest := Repeat(pass, p.after, p.kind.count, passes - 1);
        RepeatConserves(pass, p.after, p.kind.count, passes - 1);
        RemovedAppend(p.checks, rest.checks);
        SplitsTwice(s.left, p.after.left, Removed(p.checks), rest.after.left, Removed(rest.checks));
      }
    }
  }

  /** Launched = removed + still monitored, whatever docker answers and wherever the check stops. */
  lemma {:induction false} HealthRunConserves(cs: seq<SvcContainer>, known: set<string>, world: World,
                                              infra: Option<string>, passes: nat)
    ensures var o := HealthRun(cs, known, world, infra, passes);
            Splits(cs, o.after.left, Removed(o.checks))
  {
    var pass := PassIn(world, infra);
    forall s: Stage ensures Conserves(s, pass(s)) {
      PassConserves(s, Reports(s.left, s.known, world, s.next), world, infra);
    }
    RepeatConserves(pass, Stage(cs, known, 0), 0, passes);
  }

  // ---------------------------------------------------------------- every check is a visit to docker

  /** The check reports what docker answered on visit `k`. */
  predicate Observed(c: Check, world: World, k: nat) {
    c.report == CheckContainer(world(k).inspection, true) || c.report == CheckContainer(world(k).inspection, false)
  }

  ghost predicate Logs(start: nat, end: nat, checks: seq<Check>, world: World) {
    && end == start + |checks|
    && forall i :: 0 <= i < |checks| ==> Observed(checks[i], world, start + i)
  }

  lemma {:induction false} LogsTwice(start: nat, mid: nat, end: nat, a: seq<Check>, b: seq<Check>, world: World)
    requires Logs(start, mid, a, world) && Logs(mid, end, b, world)
    ensures Logs(start, end, a + b, world)
  {
    forall i | 0 <= i < |a + b| ensures Observed((a + b)[i], world, start + i) {
      if i >= |a| {
        assert Observed(b[i - |a|], world, mid + (i - |a|));
      }
    }
  }

  lemma {:induction false} ChecksObserved(s: Stage, world: World, m: nat)
    requires m <= |s.left|
    ensures Logs(s.next, s.next + m, Checks(s.left, Reports(s.left, s.known, world, s.next), m), world)
  {
    var rs := ReportsUpTo(s.left, s.known, world, s.next, |s.left|);
    forall i | 0 <= i < m ensures Observed(Checks(s.left, rs, m)[i], world, s.next + i) {
      assert rs[i] == ReportAt(s.left, s.known, world, s.next, i);
    }
  }

  lemma {:induction false} PassLogs(s: Stage, world: World, infra: Option<string>)
    ensures var p := PassIn(world, infra)(s); Logs(s.next, p.after.next, p.checks, world)
  {
    var rs := Reports(s.left, s.known, world, s.next);
    var f := FirstFail(rs, 0);
    ChecksObserved(s, world, if f < |s.left| then f + 1 else |s.left|);
  }

  lemma {:induction false} RepeatLogs(pass: Stage -> Pass, s: Stage, count: int, passes: nat, world: World)
    requires forall s: Stage :: Logs(s.next, pass(s).after.next, pass(s).checks, world)
    ensures var o := Repeat(pass, s, count, passes); Logs(s.next, o.after.next, o.checks, world)
    decreases passes
  {
    if |s.left| == count || passes == 0 {
    } else {
      var p := pass(s);
      assert Logs(s.next, p.after.next, p.checks, world);
      if p.kind.Completed? {
        var rest := Repeat(pass, p.after, p.kind.count, passes - 1);
        RepeatLogs(pass, p.after, p.kind.count, passes - 1, world);
        LogsTwice(s.next, p.after.next, rest.after.next, p.checks, rest.checks, world);
      }
    }
  }

  lemma {:induction false} HealthRunLogs(cs: seq<SvcContainer>, known: set<string>, world: World,
                                         infra: Option<string>, passes: nat)
    ensures var o := HealthRun(cs, known, world, infra, passes); Logs(0, o.after.next, o.checks, world)
  {
    forall s: Stage
      ensures var p := PassIn(world, infra)(s); Logs(s.next, p.after.next, p.checks, world)
    {
      PassLogs(s, world, infra);
    }
    RepeatLogs(PassIn(world, infra), Stage(cs, known, 0), 0, passes, world);
  }

  /** A removed container was seen exited with 0, or could not be inspected, on the visit that removed it. */
  lemma {:induction false} RemovedWasSeen(checks: seq<Check>, c: SvcContainer, world: World)
    requires Logs(0, |checks|, checks, world) && c in Removed(checks)
    ensures exists k :: 0 <= k < |checks| && SeenGone(checks[k], c, world, k)
  {
    var n := |checks| - 1;
    if checks[n].container == c && Judge(checks[n].report) == Leaves {
      ReportMeaning(world(n).inspection, true);
      ReportMeaning(world(n).inspection, false);
      assert Observed(checks[n], world, 0 + n);
      assert SeenGone(checks[n], c, world, n);
    } else {
      assert Logs(0, n, checks[..n], world) by {
        forall i | 0 <= i < n ensures Observed(checks[..n][i], world, 0 + i) {
          assert Observed(checks[i], world, 0 + i);
        }
      }
      RemovedWasSeen(checks[..n], c, world);
      var k :| 0 <= k < n && SeenGone(checks[..n][k], c, world, k);
      assert SeenGone(checks[k], c, world, k);
    }
  }

  predicate SeenGone(check: Check, c: SvcContainer, world: World, k: nat) {
    check.container == c && (ExitedCleanly(world(k).inspection) || world(k).inspection.InspectError?)
  }

  // ---------------------------------------------------------------- termination

  /** No check of the log found a running container starting or unknown. */
  ghost predicate NoneWaits(checks: seq<Check>) {
    forall i :: 0 <= i < |checks| ==> Judge(checks[i].report) != Waits
  }

  lemma {:induction false} NoneWaitsParts(a: seq<Check>, b: seq<Check>)
    requires NoneWaits(a + b)
    ensures NoneWaits(a) && NoneWaits(b)
  {
    forall i | 0 <= i < |a| ensures Judge(a[i].report) != Waits {
      assert (a + b)[i] == a[i];
    }
    forall i | 0 <= i < |b| ensures Judge(b[i].report) != Waits {
      assert (a + b)[|a| + i] == b[i];
    }
  }

  /** A pass in which nobody waits removes a container or ends the check. */
  ghost predicate Progresses(s: Stage, p: Pass) {
    NoneWaits(p.checks) && p.kind.Completed? && |p.after.left| != p.kind.count ==> |p.after.left| < |s.left|
  }

  lemma {:induction false} PassProgresses(s: Stage, world: World, infra: Option<string>)
    ensures Progresses(s, PassIn(world, infra)(s))
  {
    var n, rs := |s.left|, Reports(s.left, s.known, world, s.next);
    Tallies(s.left, rs, n);
    if NoneWaits(Checks(s.left, rs, n)) && FirstFail(rs, 0) == n {
      forall i | 0 <= i < n ensures Judge(rs[i]) != Waits {
        assert Checks(s.left, rs, n)[i].report == rs[i];
      }
      NoneJudged(rs, Waits, n);
      NoneJudged(rs, Fails, n);
    }
  }

  lemma {:induction false} RepeatEnds(pass: Stage -> Pass, s: Stage, count: int, passes: nat)
    requires forall s: Stage :: Progresses(s, pass(s))
    requires passes >= |s.left| + 1 && NoneWaits(Repeat(pass, s, count, passes).checks)
    ensures Repeat(pass, s, count, passes).ending != StillChecking
    decreases passes
  {
    hide NoneWaits;
    if |s.left| == count {
    } else {
      var p := pass(s);
      assert Progresses(s, p);
      if p.kind.Completed? {
        NoneWaitsParts(p.checks, Repeat(pass, p.after, p.kind.count, passes - 1).checks);
        if |p.after.left| != p.kind.count {
          RepeatEnds(pass, p.after, p.kind.count, passes - 1);
        }
      }
    }
  }

  /** If no check of the run finds a running container starting or unknown, `n` containers need at most `n + 1`
      passes: each pass but the last removes one. */
  lemma {:induction false} EndsWithinPasses(cs: seq<SvcContainer>, known: set<string>, world: World,
                                            infra: Option<string>, passes: nat)
    requires passes >= |cs| + 1 && NoneWaits(HealthRun(cs, known, world, infra, passes).checks)
    ensures HealthRun(cs, known, world, infra, passes).ending != StillChecking
  {
    forall s: Stage ensures Progresses(s, PassIn(world, infra)(s)) {
      PassProgresses(s, world, infra);
    }
    hide NoneWaits, PassOf;
    RepeatEnds(PassIn(world, infra), Stage(cs, known, 0), 0, passes);
  }
}
