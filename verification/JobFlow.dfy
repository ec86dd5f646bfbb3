/** What flows from service to service while the compose files are edited: ports off the cursor, port entries
    and extra hosts into the collection. The services come one after the other, in whatever order Go walks
    its maps. */
module JobFlow {
  import opened PodTypes
  import opened Ports
  import opened ServiceEdit
  import opened ServiceMeaning
  import opened Strings
  import opened Walk

  /** A service to edit. */
  datatype Job = Job(name: string, service: Service)

  function RunJobs(jobs: seq<Job>, n: nat, f: Flow, o: Owner): Edited<Flow>
    requires n <= |jobs|
  {
    if n == 0 then Done(f) else Next(RunJobs(jobs, n - 1, f, o), jobs[n - 1], o)
  }

  lemma {:induction false} RunOne(jobs: seq<Job>, n: nat, f: Flow, o: Owner)
    requires n < |jobs|
    ensures RunJobs(jobs, n + 1, f, o) == Next(RunJobs(jobs, n, f, o), jobs[n], o)
    ensures RunJobs(jobs, 0, f, o) == Done(f)
  {}

  /** One more service after a run. */
  function Next(e: Edited<Flow>, j: Job, o: Owner): Edited<Flow> {
    match e
    case NoPortsAvailable => NoPortsAvailable
    case Panic => Panic
    case Done(before) => FlowOf(EditService(j.name, j.service, before, o))
  }

  function FlowOf(e: EditedService): Edited<Flow> {
    match e
    case Done((_, f)) => Done(f)
    case NoPortsAvailable => NoPortsAvailable
    case Panic => Panic
  }

  /** Nothing in the service makes the plugin panic: it is a mapping, its extra hosts are scalars, and the
      port entries to be mapped are strings. */
  predicate WellFormed(j: Job) {
    && Editable(j.service)
    && (TakesPorts(j.name, j.service.details) && ListAt(j.service.details, PortsKey)
        ==> AllStrings(j.service.details[PortsKey].items))
  }

  predicate AllWellFormed(jobs: seq<Job>) {
    forall i :: 0 <= i < |jobs| ==> WellFormed(jobs[i])
  }

  function Need(j: Job): nat {
    if j.service.Mapping? then Demand(j.name, j.service.details) else 0
  }

  /** The ports that the first `n` services need. */
  function Needs(jobs: seq<Job>, n: nat): nat
    requires n <= |jobs|
  {
    if n == 0 then 0 else Needs(jobs, n - 1) + Need(jobs[n - 1])
  }

  /** A service is well formed exactly if it is a mapping, its extra hosts are neither lists nor mappings, and the
      port entries that get host ports are strings. */
  lemma {:induction false} WellFormedIff(j: Job)
    ensures WellFormed(j)
            <==> && j.service.Mapping?
                 && (forall h :: h in HostsOf(j.service.details) ==> !h.List? && !h.Dict?)
                 && (PortsAreMapped(j.name, j.service.details)
                     ==> forall e :: e in Entries(j.service.details) ==> e.Str?)
  {
    hide TakesPorts, PortsAreMapped;
    if j.service.Mapping? {
      var d := j.service.details;
      ModesAre(j.name, d);
      NeededPortsAre(j.name, d);
      if PortsAreMapped(j.name, d) && forall e :: e in Entries(d) ==> e.Str? {
        forall i | 0 <= i < |Entries(d)| ensures Entries(d)[i].Str? {
          assert Entries(d)[i] in Entries(d);
        }
      }
    }
  }

  /** A service needs a port for each of its entries with a colon, if its entries get host ports. */
  lemma {:induction false} NeedIs(j: Job)
    ensures Need(j) == if j.service.Mapping? then NeededPorts(j.name, j.service.details) else 0
  {
    if j.service.Mapping? {
      DemandIs(j.name, j.service.details);
    }
    hide Demand, NeededPorts;
  }

  lemma {:induction false} NeedsOne(jobs: seq<Job>, n: nat)
    requires n < |jobs|
    ensures Needs(jobs, n + 1) == Needs(jobs, n) + Need(jobs[n])
  {}

  lemma {:induction false} NothingNeeded(jobs: seq<Job>, f: Flow, o: Owner)
    ensures Needs(jobs, 0) == 0 && RunJobs(jobs, 0, f, o) == Done(f)
  {}

  lemma {:induction false} NextIs(e: Edited<Flow>, j: Job, o: Owner)
    ensures Next(e, j, o) == if e.Done? then FlowOf(EditService(j.name, j.service, e.value, o)) else e
  {}

  lemma {:induction false} NeedsGrow(jobs: seq<Job>, n: nat, m: nat)
    requires n <= m <= |jobs|
    ensures Needs(jobs, n) <= Needs(jobs, m)
  {
    if n == m {
    } else {
      NeedsGrow(jobs, n, m - 1);
    }
  }

  // ---------------------------------------------------------------- the allocator

  lemma {:induction false} EditPortsNeeds(name: string, d: Details, f: Flow)
    requires TakesPorts(name, d) && ListAt(d, PortsKey) ==> AllStrings(d[PortsKey].items)
    ensures var k, e := Demand(name, d), EditPorts(name, d, f);
            if k > |f.ports| then e == NoPortsAvailable else e.Done? && e.value.flow.ports == f.ports[k..]
  {
    if TakesPorts(name, d) && ListAt(d, PortsKey) {
      AssignMeans(d[PortsKey].items, f.ports, |d[PortsKey].items|);
    }
  }

  lemma {:induction false} ServiceNeeds(j: Job, f: Flow, o: Owner)
    requires WellFormed(j)
    ensures var r := FlowOf(EditService(j.name, j.service, f, o));
            if Need(j) > |f.ports| then r == NoPortsAvailable else r.Done? && r.value.ports == f.ports[Need(j)..]
  {
    EditPortsNeeds(j.name, j.service.details, FlowIn(j.name, j.service.details, f));
  }

  /** The run fails exactly when more ports are needed than are left; else it uses up just those. */
  lemma {:induction false} RunNeeds(jobs: seq<Job>, n: nat, f: Flow, o: Owner)
    requires n <= |jobs| && AllWellFormed(jobs)
    ensures var r := RunJobs(jobs, n, f, o);
            if Needs(jobs, n) > |f.ports| then r == NoPortsAvailable
            else r.Done? && r.value.ports == f.ports[Needs(jobs, n)..]
  {
    hide RunJobs, Next, FlowOf, EditService, Need, Needs, WellFormed;
    if n == 0 {
      NothingNeeded(jobs, f, o);
    } else {
      var before := RunJobs(jobs, n - 1, f, o);
      NeedsOne(jobs, n - 1);
      RunOne(jobs, n - 1, f, o);
      NextIs(before, jobs[n - 1], o);
      RunNeeds(jobs, n - 1, f, o);
      if before.Done? {
        ServiceNeeds(jobs[n - 1], before.value, o);
      }
    }
  }

  lemma {:induction false} EditPortsEnough(name: string, d: Details, f: Flow)
    requires Demand(name, d) <= |f.ports|
    ensures var e := EditPorts(name, d, f);
            if TakesPorts(name, d) && ListAt(d, PortsKey) ==> AllStrings(d[PortsKey].items)
            then e.Done? && e.value.flow.ports == f.ports[Demand(name, d)..]
            else e == Panic
  {
    if TakesPorts(name, d) && ListAt(d, PortsKey) {
      AssignEnough(d[PortsKey].items, f.ports, |d[PortsKey].items|);
    }
  }

  lemma {:induction false} ServiceEnough(j: Job, f: Flow, o: Owner)
    requires Need(j) <= |f.ports|
    ensures var r := FlowOf(EditService(j.name, j.service, f, o));
            if WellFormed(j) then r.Done? && r.value.ports == f.ports[Need(j)..] else r == Panic
  {
    if Editable(j.service) {
      EditPortsEnough(j.name, j.service.details, FlowIn(j.name, j.service.details, f));
    }
  }

  /** With ports enough for all, only a service that is not well formed stops the run. */
  lemma {:induction false} RunEnough(jobs: seq<Job>, n: nat, f: Flow, o: Owner)
    requires n <= |jobs| && Needs(jobs, n) <= |f.ports|
    ensures var r := RunJobs(jobs, n, f, o);
            if forall i :: 0 <= i < n ==> WellFormed(jobs[i])
            then r.Done? && r.value.ports == f.ports[Needs(jobs, n)..]
            else r == Panic
  {
    hide *;
    if n == 0 {
      NothingNeeded(jobs, f, o);
    } else {
      var before := RunJobs(jobs, n - 1, f, o);
      NeedsOne(jobs, n - 1);
      RunOne(jobs, n - 1, f, o);
      NextIs(before, jobs[n - 1], o);
      RunEnough(jobs, n - 1, f, o);
      if before.Done? {
        ServiceEnough(jobs[n - 1], before.value, o);
      }
    }
  }

  lemma {:induction false} DoneIsWellFormed(j: Job, f: Flow, o: Owner)
    requires EditService(j.name, j.service, f, o).Done?
    ensures WellFormed(j)
  {
    var d := j.service.details;
    if TakesPorts(j.name, d) && ListAt(d, PortsKey) {
      AssignedStrings(d[PortsKey].items, f.ports, |d[PortsKey].items|);
    }
  }

  lemma {:induction false} RunIsWellFormed(jobs: seq<Job>, n: nat, f: Flow, o: Owner)
    requires n <= |jobs| && RunJobs(jobs, n, f, o).Done?
    ensures forall i :: 0 <= i < n ==> WellFormed(jobs[i])
  {
    if n == 0 {
    } else {
      hide EditService, WellFormed;
      RunIsWellFormed(jobs, n - 1, f, o);
      DoneIsWellFormed(jobs[n - 1], RunJobs(jobs, n - 1, f, o).value, o);
    }
  }

  /** All services are edited exactly when each is well formed and there are ports enough. */
  lemma {:induction false} SucceedsIff(jobs: seq<Job>, f: Flow, o: Owner)
    ensures RunJobs(jobs, |jobs|, f, o).Done? <==> AllWellFormed(jobs) && Needs(jobs, |jobs|) <= |f.ports|
  {
    if RunJobs(jobs, |jobs|, f, o).Done? {
      RunIsWellFormed(jobs, |jobs|, f, o);
    }
    if AllWellFormed(jobs) {
      RunNeeds(jobs, |jobs|, f, o);
    }
  }

  // ---------------------------------------------------------------- the order does not matter

  /** Two walks over the same services. */
  ghost predicate SameJobs(jobs: seq<Job>, jobs': seq<Job>) {
    multiset(jobs) == multiset(jobs')
  }

  lemma {:induction false} NeedsSplit(jobs: seq<Job>, i: nat)
    requires i < |jobs|
    ensures var rest := jobs[..i] + jobs[i + 1..]; Needs(jobs, |jobs|) == Needs(rest, |rest|) + Need(jobs[i])
  {
    hide Need, Needs;
    var rest := jobs[..i] + jobs[i + 1..];
    NeedsPrefix(jobs, rest, i);
    NeedsOne(jobs, i);
    for k := i + 1 to |jobs|
      invariant Needs(jobs, k) == Needs(rest, k - 1) + Need(jobs[i])
    {
      assert rest[k - 1] == jobs[k];
      NeedsOne(jobs, k);
      NeedsOne(rest, k - 1);
    }
  }

  lemma {:induction false} NeedsPrefix(jobs: seq<Job>, jobs': seq<Job>, n: nat)
    requires n <= |jobs| && n <= |jobs'| && jobs[..n] == jobs'[..n]
    ensures Needs(jobs, n) == Needs(jobs', n)
  {
    if n == 0 {
    } else {
      assert jobs[..n - 1] == jobs[..n][..n - 1] && jobs'[..n - 1] == jobs'[..n][..n - 1];
      assert jobs[n - 1] == jobs[..n][n - 1] && jobs'[n - 1] == jobs'[..n][n - 1];
      NeedsPrefix(jobs, jobs', n - 1);
    }
  }

  lemma {:induction false} NeedsSameInAnyOrder(jobs: seq<Job>, jobs': seq<Job>)
    requires SameJobs(jobs, jobs')
    ensures Needs(jobs, |jobs|) == Needs(jobs', |jobs'|)
    decreases |jobs|
  {
    SameLength(jobs, jobs');
    if jobs == [] {
    } else {
      var n := |jobs| - 1;
      var i := PlaceOf(jobs', jobs[n]) by {
        assert jobs[n] in multiset(jobs);
        assert jobs[n] in multiset(jobs');
      }
      var rest, rest' := jobs[..n], jobs'[..i] + jobs'[i + 1..];
      Without(jobs, n);
      Without(jobs', i);
      assert jobs[..n] + jobs[n + 1..] == rest;
      NeedsSameInAnyOrder(rest, rest');
      NeedsSplit(jobs', i);
      NeedsPrefix(jobs, rest, n);
    }
  }

  lemma {:induction false} SameLength<T>(xs: seq<T>, ys: seq<T>)
    requires multiset(xs) == multiset(ys)
    ensures |xs| == |ys|
  {
    assert |multiset(xs)| == |xs| && |multiset(ys)| == |ys|;
  }

  lemma {:induction false} PlaceOf<T>(xs: seq<T>, x: T) returns (i: nat)
    requires x in xs
    ensures i < |xs| && xs[i] == x
  {
    i :| 0 <= i < |xs| && xs[i] == x;
  }

  lemma {:induction false} Without<T>(xs: seq<T>, i: nat)
    requires i < |xs|
    ensures multiset(xs[..i] + xs[i + 1..]) == multiset(xs) - multiset{xs[i]}
  {
    assert xs == xs[..i] + ([xs[i]] + xs[i + 1..]);
    assert multiset(xs) == multiset(xs[..i]) + (multiset{xs[i]} + multiset(xs[i + 1..]));
  }

  lemma {:induction false} SameWellFormed(jobs: seq<Job>, jobs': seq<Job>)
    requires SameJobs(jobs, jobs') && AllWellFormed(jobs)
    ensures AllWellFormed(jobs')
  {
    forall i | 0 <= i < |jobs'| ensures WellFormed(jobs'[i]) {
      assert jobs'[i] in multiset(jobs');
      assert jobs'[i] in multiset(jobs);
      var k := PlaceOf(jobs, jobs'[i]);
    }
  }

  /** What becomes of any list of services. */
  lemma {:induction false} OutcomeIs(jobs: seq<Job>, f: Flow, o: Owner)
    ensures var k, r := Needs(jobs, |jobs|), RunJobs(jobs, |jobs|, f, o);
            && (r.Done? <==> AllWellFormed(jobs) && k <= |f.ports|)
            && (r.Done? ==> r.value.ports == f.ports[k..])
            && (!AllWellFormed(jobs) && k <= |f.ports| ==> r == Panic)
            && (AllWellFormed(jobs) && k > |f.ports| ==> r == NoPortsAvailable)
  {
    SucceedsIff(jobs, f, o);
    if Needs(jobs, |jobs|) <= |f.ports| {
      RunEnough(jobs, |jobs|, f, o);
    }
    if AllWellFormed(jobs) {
      RunNeeds(jobs, |jobs|, f, o);
    }
  }

  /** In any order of the services the run succeeds or fails alike and uses up as many ports. The kind of the
      failure is the same too, unless there are both too few ports and a service that is not well formed. */
  lemma {:induction false} OutcomeSameInAnyOrder(jobs: seq<Job>, jobs': seq<Job>, f: Flow, o: Owner)
    requires SameJobs(jobs, jobs')
    ensures var k, r, r' := Needs(jobs, |jobs|), RunJobs(jobs, |jobs|, f, o), RunJobs(jobs', |jobs'|, f, o);
            && (r.Done? <==> AllWellFormed(jobs) && k <= |f.ports|) && (r.Done? <==> r'.Done?)
            && (r.Done? ==> r.value.ports == r'.value.ports == f.ports[k..])
            && (AllWellFormed(jobs) || k <= |f.ports|
                ==> && (r == NoPortsAvailable <==> k > |f.ports|)
                    && (r == NoPortsAvailable <==> r' == NoPortsAvailable) && (r == Panic <==> r' == Panic))
  {
    hide RunJobs, WellFormed;
    NeedsSameInAnyOrder(jobs, jobs');
    if AllWellFormed(jobs) { SameWellFormed(jobs, jobs'); }
    if AllWellFormed(jobs') { SameWellFormed(jobs', jobs); }
    OutcomeIs(jobs, f, o);
    OutcomeIs(jobs', f, o);
  }

  /** With both, Go's walk decides whether the plugin reports missing ports or panics. */
  lemma {:induction false} FailureDependsOnOrder(o: Owner)
    ensures var f := Flow([], None, {}, false, false);
            var broken, mapped := Job("a", NotAMapping), Job("b", Mapping(map[PortsKey := List([Str("80:80")])]));
            && SameJobs([broken, mapped], [mapped, broken])
            && RunJobs([broken, mapped], 2, f, o) == Panic
            && RunJobs([mapped, broken], 2, f, o) == NoPortsAvailable
  {
    var f := Flow([], None, {}, false, false);
    var d: Details := map[PortsKey := List([Str("80:80")])];
    var broken, mapped := Job("a", NotAMapping), Job("b", Mapping(d));
    assert multiset([broken, mapped]) == multiset([mapped, broken]);
    assert RunJobs([broken, mapped], 0, f, o) == Done(f);
    assert RunJobs([broken, mapped], 1, f, o) == Panic;
    assert RunJobs([mapped, broken], 0, f, o) == Done(f);
    OnePort(d);
    ServiceNeeds(mapped, f, o);
    assert RunJobs([mapped, broken], 1, f, o) == NoPortsAvailable;
  }

  lemma {:induction false} OnePort(d: Details)
    requires d == map[PortsKey := List([Str("80:80")])]
    ensures Demand("b", d) == 1 && WellFormed(Job("b", Mapping(d)))
  {
    var list := d[PortsKey].items;
    assert "80" + ":" + "80" == "80:80";
    TwoParts("80", "80");
    assert Mapped(list[0]);
    assert CountMapped(list, 0) == 0;
    assert CountMapped(list, 1) == 1;
    assert !StrAt(d, NetworkMode);
    assert "b" != INFRA_SERVICE by { assert |"b"| != |INFRA_SERVICE|; }
  }

  // ---------------------------------------------------------------- which ports go where

  function CollectedHosts(collected: Option<seq<Value>>): seq<string> {
    match collected case None => [] case Some(list) => HostParts(list)
  }

  /** The service's port entries go to the infra container. */
  predicate Gives(j: Job) {
    j.service.Mapping? && GivesPorts(j.name, j.service.details)
  }

  /** A service uses up ports for itself: one that has the infra container's name and a network mode of its own. */
  predicate KeepsPorts(j: Job) {
    Need(j) > 0 && !Gives(j)
  }

  /** Only a namesake of the infra container on a network that is neither the host's nor a service's does. */
  lemma {:induction false} OnlyNamesakesKeep(j: Job)
    ensures KeepsPorts(j)
            <==> && j.service.Mapping? && PortsAreMapped(j.name, j.service.details)
                 && (exists e :: e in Entries(j.service.details) && HasColon(e))
                 && j.name == "networkproxy" && !Contains(j.service.details[NetworkMode].s, "service:")
  {
    hide Contains, HasColon, CountMapped, Demand;
    if j.service.Mapping? {
      var d := j.service.details;
      ModesAre(j.name, d);
      DemandIs(j.name, d);
      if PortsAreMapped(j.name, d) {
        SomeColon(Entries(d), |Entries(d)|);
      }
    }
  }

  lemma {:induction false} SomeColon(list: seq<Value>, n: nat)
    requires n <= |list|
    ensures |Colons(list, n)| > 0 <==> exists e :: e in list[..n] && HasColon(e)
    ensures n == |list| ==> list[..n] == list
  {
    hide HasColon;
    if e :| e in list[..n] && HasColon(e) {
      var i: nat :| i < n && list[i] == e;
      assert i in Colons(list, n);
    }
    if |Colons(list, n)| > 0 {
      var i :| i in Colons(list, n);
      assert list[i] in list[..n] && HasColon(list[i]);
    }
  }

  /** The ports of the offer that the first `n` services use up for the infra container, in order. */
  function HandedOut(jobs: seq<Job>, n: nat, ports: seq<nat>): seq<nat>
    requires n <= |jobs| && Needs(jobs, n) <= |ports|
  {
    if n == 0 then []
    else if Gives(jobs[n - 1]) then HandedOut(jobs, n - 1, ports) + ports[Needs(jobs, n - 1)..Needs(jobs, n)]
    else HandedOut(jobs, n - 1, ports)
  }

  lemma {:induction false} CollectMoves(collected: Option<seq<Value>>, list: seq<Value>)
    ensures HostParts(Collect(collected, list)) == CollectedHosts(collected) + HostParts(list)
  {
    match collected
    case None =>
    case Some(before) => HostPartsAppend(before, list);
  }

  lemma {:induction false} EditPortsCollects(name: string, d: Details, f: Flow)
    requires EditPorts(name, d, f).Done?
    ensures var k, f' := Demand(name, d), EditPorts(name, d, f).value.flow;
            && k <= |f.ports| && f'.ports == f.ports[k..]
            && CollectedHosts(f'.collected)
               == CollectedHosts(f.collected) + if GivesPorts(name, d) then Decimals(f.ports[..k]) else []
  {
    hide HostParts, Decimals, Mapped, CountMapped;
    if TakesPorts(name, d) && ListAt(d, PortsKey) {
      var list := d[PortsKey].items;
      AssignedStrings(list, f.ports, |list|);
      AssignMeans(list, f.ports, |list|);
      CollectMoves(f.collected, Assign(list, f.ports, |list|).list);
    } else {
      NoDecimals(f.ports);
    }
  }

  lemma {:induction false} NoDecimals(ports: seq<nat>)
    ensures Decimals(ports[..0]) == [] && ports[0..] == ports
  {}

  /** Only lists of strings are assigned. */
  lemma {:induction false} AssignedStrings(list: seq<Value>, ports: seq<nat>, n: nat)
    requires n <= |list| && Assign(list, ports, n).Assigned?
    ensures forall i :: 0 <= i < n ==> list[i].Str?
  {
    if n == 0 {
    } else {
      AssignedStrings(list, ports, n - 1);
    }
  }

  lemma {:induction false} ServiceCollects(j: Job, f: Flow, o: Owner)
    requires EditService(j.name, j.service, f, o).Done?
    ensures var f' := EditService(j.name, j.service, f, o).value.1;
            && Need(j) <= |f.ports| && f'.ports == f.ports[Need(j)..]
            && CollectedHosts(f'.collected)
               == CollectedHosts(f.collected) + if Gives(j) then Decimals(f.ports[..Need(j)]) else []
  {
    hide EditSections, Decimals, CollectedHosts;
    EditPortsCollects(j.name, j.service.details, FlowIn(j.name, j.service.details, f));
  }

  /** Whatever the services and their order: the host parts collected for the infra container are, in order,
      the ports used up by the services that give theirs away. */
  lemma {:induction false} CollectedAreHandedOut(jobs: seq<Job>, n: nat, f: Flow, o: Owner)
    requires n <= |jobs| && RunJobs(jobs, n, f, o).Done?
    ensures var f' := RunJobs(jobs, n, f, o).value;
            && Needs(jobs, n) <= |f.ports| && f'.ports == f.ports[Needs(jobs, n)..]
            && CollectedHosts(f'.collected) == CollectedHosts(f.collected) + Decimals(HandedOut(jobs, n, f.ports))
  {
    hide EditService, CollectedHosts, Gives, Need, Decimals;
    if n == 0 {
      NoDecimals(f.ports);
      assert f.ports[..0] == [];
    } else {
      CollectedAreHandedOut(jobs, n - 1, f, o);
      var before := RunJobs(jobs, n - 1, f, o).value;
      ServiceCollects(jobs[n - 1], before, o);
      OneMoreHandedOut(jobs, n, f.ports);
    }
  }

  lemma {:induction false} OneMoreHandedOut(jobs: seq<Job>, n: nat, ports: seq<nat>)
    requires 0 < n <= |jobs| && Needs(jobs, n) <= |ports|
    ensures var a, k := Needs(jobs, n - 1), Need(jobs[n - 1]);
            && a + k == Needs(jobs, n) && ports[a..][k..] == ports[a + k..]
            && Decimals(HandedOut(jobs, n, ports))
               == Decimals(HandedOut(jobs, n - 1, ports)) + if Gives(jobs[n - 1]) then Decimals(ports[a..][..k]) else []
  {
    hide Gives, Need;
    var a, k := Needs(jobs, n - 1), Need(jobs[n - 1]);
    assert ports[a..][..k] == ports[a..a + k];
  }

  lemma {:induction false} HandedOutNext(jobs: seq<Job>, n: nat, ports: seq<nat>)
    requires n < |jobs| && Needs(jobs, n + 1) <= |ports|
    ensures var a, b := Needs(jobs, n), Needs(jobs, n + 1);
            && b == a + Need(jobs[n])
            && HandedOut(jobs, n + 1, ports)
               == if Gives(jobs[n]) then HandedOut(jobs, n, ports) + ports[a..b] else HandedOut(jobs, n, ports)
    ensures KeepsPorts(jobs[n]) <==> Need(jobs[n]) > 0 && !Gives(jobs[n])
  {}

  /** What is handed out is exactly the first ports of the offer if and only if no service keeps ports. */
  lemma {:induction false} HandedOutIsFirstIff(jobs: seq<Job>, n: nat, ports: seq<nat>)
    requires n <= |jobs| && Needs(jobs, n) <= |ports|
    ensures var out, k := HandedOut(jobs, n, ports), Needs(jobs, n);
            && |out| <= k && (|out| == k ==> out == ports[..k])
            && (out == ports[..k] <==> forall i :: 0 <= i < n ==> !KeepsPorts(jobs[i]))
  {
    hide *;
    if n == 0 {
      NothingHandedOut(jobs, ports);
    } else {
      HandedOutNext(jobs, n - 1, ports);
      HandedOutIsFirstIff(jobs, n - 1, ports);
      FirstPortsOn(HandedOut(jobs, n - 1, ports), ports, Needs(jobs, n - 1), Needs(jobs, n), Gives(jobs[n - 1]));
    }
  }

  lemma {:induction false} NothingHandedOut(jobs: seq<Job>, ports: seq<nat>)
    ensures Needs(jobs, 0) == 0 && HandedOut(jobs, 0, ports) == ports[..0] == []
  {}

  lemma {:induction false} FirstPortsOn(out: seq<nat>, ports: seq<nat>, a: nat, b: nat, gives: bool)
    requires |out| <= a <= b <= |ports| && (|out| == a ==> out == ports[..a])
    ensures var out' := if gives then out + ports[a..b] else out;
            && |out'| <= b && (|out'| == b ==> out' == ports[..b])
            && (out' == ports[..b] <==> out == ports[..a] && (gives || a == b))
  {
    assert ports[..b] == ports[..a] + ports[a..b];
  }

  lemma {:induction false} HandedOutFrom(jobs: seq<Job>, n: nat, ports: seq<nat>, x: nat)
    requires n <= |jobs| && Needs(jobs, n) <= |ports| && x in HandedOut(jobs, n, ports)
    ensures x in ports[..Needs(jobs, n)]
  {
    if n == 0 {
    } else {
      hide Gives, Need;
      var a, b := Needs(jobs, n - 1), Needs(jobs, n);
      assert ports[..b] == ports[..a] + ports[a..b];
      if x in HandedOut(jobs, n - 1, ports) {
        HandedOutFrom(jobs, n - 1, ports, x);
      }
    }
  }

  lemma {:induction false} HandedOutDistinct(jobs: seq<Job>, n: nat, ports: seq<nat>)
    requires n <= |jobs| && Needs(jobs, n) <= |ports| && Distinct(ports)
    ensures Distinct(HandedOut(jobs, n, ports))
  {
    if n == 0 {
    } else {
      hide Gives, Need;
      HandedOutDistinct(jobs, n - 1, ports);
      var out, a, b := HandedOut(jobs, n - 1, ports), Needs(jobs, n - 1), Needs(jobs, n);
      forall x | x in out ensures x !in ports[a..b] {
        HandedOutFrom(jobs, n - 1, ports, x);
      }
      DistinctParts(out, ports[a..b]);
    }
  }

  /** What an entry keeps when it is given a host port: its container port, or, without a host part, all. */
  datatype Shape = Publishes(container: string) | AsIs(entry: Value)

  function ShapeOf(entry: Value): Shape {
    if Mapped(entry) then Publishes(ContainerPart(entry)) else AsIs(entry)
  }

  function Shapes(list: seq<Value>): (shapes: seq<Shape>)
    ensures |shapes| == |list| && forall i :: 0 <= i < |list| ==> shapes[i] == ShapeOf(list[i])
  {
    seq(|list|, i requires 0 <= i < |list| => ShapeOf(list[i]))
  }

  function CollectedShapes(collected: Option<seq<Value>>): seq<Shape> {
    match collected case None => [] case Some(list) => Shapes(list)
  }

  /** The entries a service gives to the infra container. */
  function Given(j: Job): seq<Shape> {
    if j.service.Mapping? && GivesPorts(j.name, j.service.details) && ListAt(j.service.details, PortsKey)
    then Shapes(j.service.details[PortsKey].items) else []
  }

  function AllGiven(jobs: seq<Job>, n: nat): seq<Shape>
    requires n <= |jobs|
  {
    if n == 0 then [] else AllGiven(jobs, n - 1) + Given(jobs[n - 1])
  }

  lemma {:induction false} AssignShapes(list: seq<Value>, ports: seq<nat>)
    requires Assign(list, ports, |list|).Assigned?
    ensures Shapes(Assign(list, ports, |list|).list) == Shapes(list)
  {
    hide Mapped, ContainerPart, Assign;
    AssignedStrings(list, ports, |list|);
    AssignMeans(list, ports, |list|);
    var list' := Assign(list, ports, |list|).list;
    forall i | 0 <= i < |list| ensures ShapeOf(list'[i]) == ShapeOf(list[i]) {
      assert SameContainer(list[i], list'[i]);
    }
  }

  lemma {:induction false} CollectShapes(collected: Option<seq<Value>>, list: seq<Value>)
    ensures Shapes(Collect(collected, list)) == CollectedShapes(collected) + Shapes(list)
  {}

  lemma {:induction false} ServiceGives(j: Job, f: Flow, o: Owner)
    requires EditService(j.name, j.service, f, o).Done?
    ensures CollectedShapes(EditService(j.name, j.service, f, o).value.1.collected)
            == CollectedShapes(f.collected) + Given(j)
  {
    hide Shapes, EditSections;
    var d := j.service.details;
    if TakesPorts(j.name, d) && ListAt(d, PortsKey) {
      var list := d[PortsKey].items;
      AssignShapes(list, f.ports);
      CollectShapes(f.collected, Assign(list, f.ports, |list|).list);
    }
  }

  lemma {:induction false} OneMoreGiven(jobs: seq<Job>, n: nat)
    requires n < |jobs|
    ensures AllGiven(jobs, n + 1) == AllGiven(jobs, n) + Given(jobs[n])
  {}

  lemma {:induction false} DoneBefore(e: Edited<Flow>, j: Job, o: Owner)
    requires Next(e, j, o).Done?
    ensures e.Done? && EditService(j.name, j.service, e.value, o).Done?
    ensures Next(e, j, o).value == EditService(j.name, j.service, e.value, o).value.1
  {}

  /** The collection is every given list, in the order of the services, with the container ports kept and the
      entries without a host port as they were. */
  lemma {:induction false} CollectedInOrder(jobs: seq<Job>, n: nat, f: Flow, o: Owner)
    requires n <= |jobs| && RunJobs(jobs, n, f, o).Done?
    ensures CollectedShapes(RunJobs(jobs, n, f, o).value.collected) == CollectedShapes(f.collected) + AllGiven(jobs, n)
  {
    hide *;
    if n == 0 {
      NothingGiven(jobs, f, o);
    } else {
      var before := RunJobs(jobs, n - 1, f, o);
      RunOne(jobs, n - 1, f, o);
      DoneBefore(before, jobs[n - 1], o);
      CollectedInOrder(jobs, n - 1, f, o);
      ServiceGives(jobs[n - 1], before.value, o);
      OneMoreGiven(jobs, n - 1);
      var x, y, z := CollectedShapes(f.collected), AllGiven(jobs, n - 1), Given(jobs[n - 1]);
      assert x + (y + z) == (x + y) + z;
    }
  }

  lemma {:induction false} NothingGiven(jobs: seq<Job>, f: Flow, o: Owner)
    ensures RunJobs(jobs, 0, f, o) == Done(f)
    ensures CollectedShapes(f.collected) == CollectedShapes(f.collected) + AllGiven(jobs, 0)
  {}

  // ---------------------------------------------------------------- extra hosts and the infra container's fate

  ghost predicate NamedBySome(h: Value, jobs: seq<Job>, n: nat)
    requires n <= |jobs|
  {
    exists i :: 0 <= i < n && jobs[i].service.Mapping? && h in HostsOf(jobs[i].service.details)
  }

  ghost predicate SomeOwnNetwork(jobs: seq<Job>, n: nat)
    requires n <= |jobs|
  {
    exists i :: && 0 <= i < n && jobs[i].service.Mapping?
                && jobs[i].name != "networkproxy" && OnHostOrNone(jobs[i].service.details)
  }

  /** The service has an entry without a host port in a list that gets host ports. */
  ghost predicate HasSinglePort(j: Job) {
    && j.service.Mapping? && PortsAreMapped(j.name, j.service.details)
    && exists e :: e in Entries(j.service.details) && !HasColon(e)
  }

  ghost predicate SomeSinglePort(jobs: seq<Job>, n: nat)
    requires n <= |jobs|
  {
    exists i :: 0 <= i < n && HasSinglePort(jobs[i])
  }

  lemma {:induction false} ServiceGathers(j: Job, f: Flow, o: Owner)
    requires EditService(j.name, j.service, f, o).Done?
    ensures var f' := EditService(j.name, j.service, f, o).value.1;
            && j.service.Mapping?
            && f'.hosts == f.hosts + HostsOf(j.service.details)
            && f'.dropInfra == (f.dropInfra || (j.name != "networkproxy" && OnHostOrNone(j.service.details)))
            && (f'.single <==> f.single || HasSinglePort(j))
  {
    hide EditService, HostsOf, OnHostOrNone, PortsAreMapped, HasColon, NeededPorts, HostPortsGiven;
    var _ := ServiceMeans(j.name, j.service, f, o);
  }

  /** The collection is the union of all services' extra hosts; the infra container is to go exactly when some
      service is on the host's network or on none; and the pod has a single port exactly when some service has an
      entry without a host port. */
  lemma {:induction false} RunGathers(jobs: seq<Job>, n: nat, f: Flow, o: Owner)
    requires n <= |jobs| && RunJobs(jobs, n, f, o).Done?
    ensures var f' := RunJobs(jobs, n, f, o).value;
            && (forall h :: h in f'.hosts <==> h in f.hosts || NamedBySome(h, jobs, n))
            && (f'.dropInfra <==> f.dropInfra || SomeOwnNetwork(jobs, n))
            && (f'.single <==> f.single || SomeSinglePort(jobs, n))
  {
    hide *;
    if n == 0 {
      NothingGathered(jobs, f, o);
    } else {
      var before := RunJobs(jobs, n - 1, f, o);
      RunOne(jobs, n - 1, f, o);
      DoneBefore(before, jobs[n - 1], o);
      RunGathers(jobs, n - 1, f, o);
      ServiceGathers(jobs[n - 1], before.value, o);
      GathersOneMore(jobs, n - 1);
    }
  }

  lemma {:induction false} NothingGathered(jobs: seq<Job>, f: Flow, o: Owner)
    ensures RunJobs(jobs, 0, f, o) == Done(f)
    ensures forall h :: !NamedBySome(h, jobs, 0)
    ensures !SomeOwnNetwork(jobs, 0) && !SomeSinglePort(jobs, 0)
  {}

  lemma {:induction false} GathersOneMore(jobs: seq<Job>, n: nat)
    requires n < |jobs| && jobs[n].service.Mapping?
    ensures forall h :: NamedBySome(h, jobs, n + 1)
                        <==> NamedBySome(h, jobs, n) || h in HostsOf(jobs[n].service.details)
    ensures SomeOwnNetwork(jobs, n + 1)
            <==> || SomeOwnNetwork(jobs, n)
                 || (jobs[n].name != "networkproxy" && OnHostOrNone(jobs[n].service.details))
    ensures SomeSinglePort(jobs, n + 1) <==> SomeSinglePort(jobs, n) || HasSinglePort(jobs[n])
  {
    hide HostsOf, OnHostOrNone, HasSinglePort;
  }
}
