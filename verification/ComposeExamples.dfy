/** Pods on which the plugin does not do what one would expect of it (pluginimpl/general/impl.go). */
module ComposeExamples {
  import opened PodTypes
  import opened Ports
  import opened ServiceEdit
  import opened Strings
  import opened JobFlow
  import opened ComposeFiles
  import opened ComposeTheorems
  import opened ComposeResults
  import opened ComposeLaunch
  import opened Walk

  // ---------------------------------------------------------------- a file without services

  /** A service on the host's network. */
  function HostJob(): Job {
    Job("web", Mapping(map[NetworkMode := Str("host")]))
  }

  /** A file with that service, and a file without services. */
  function SkippedFileInput(o: Owner): Input {
    var app := Services(map["web" := HostJob().service]);
    Input(map["app.yml" := app, "notes.yml" := NoServices], ["app.yml", "notes.yml"], "",
          InfraDetails("proxy", "image", None), Flow([], None, {}, false, false), "", o)
  }

  lemma {:induction false} NoG(name: string)
    requires 'g' !in name
    ensures !Contains(name, POSTFIX)
  {
    assert |POSTFIX| == 14 && POSTFIX[1] == 'g';
    forall i | 0 <= i <= |name| ensures !(POSTFIX <= name[i..]) {
      if i + 1 < |name| {
        assert name[i..][1] == name[i + 1];
      }
    }
  }

  /** Names without the suffix are in nobody's way. */
  lemma {:induction false} PlainNames(names: seq<string>, files: Files)
    requires forall i :: 0 <= i < |names| ==> 'g' !in names[i]
    ensures Separate(names, files)
  {
    hide Contains, Renamed;
    forall i, j | 0 <= i < |names| && 0 <= j < |names| ensures Renamed(names[i]) != names[j] {
      NoG(names[j]);
      RenamedIs(names[i]);
    }
  }

  lemma {:induction false} SkippedFileNames(o: Owner)
    ensures var x := SkippedFileInput(o);
            && x.Names() == ["app.yml", "notes.yml", INFRA_YML] && x.InfraFile() == INFRA_YML && x.Valid()
            && x.Names()[0] != x.Names()[1] && x.Names()[1] != x.Names()[2] && x.Names()[0] != x.Names()[2]
  {
    var x := SkippedFileInput(o);
    assert "" + INFRA_YML == INFRA_YML;
    hide Contains, InfraDetails, Renamed, Separate;
    assert x.Names() == ["app.yml", "notes.yml", INFRA_YML];
    assert |"app.yml"| == 7 && |"notes.yml"| == 9 && |INFRA_YML| == 26;
    PlainNames(x.Names(), x.Start().files);
    NoG(INFRA_YML);
  }

  lemma {:induction false} OneService(name: string, s: Service, order: seq<string>)
    requires WalkOf({name}, order)
    ensures map[name := s].Keys == {name} && WalkJobs(map[name := s], order) == [Job(name, s)]
  {
    WalkSize({name}, order);
    assert order[0] in order;
    assert order == [name];
    assert map[name := s].Keys == {name};
  }

  lemma {:induction false} FileOfOne(name: string, s: Service, i: nat, walks: Walks)
    requires Fair(walks)
    ensures FileJobs(Some(map[name := s]), i, walks) == [Job(name, s)]
  {
    OneService(name, s, walks(i, {name}));
  }

  lemma {:induction false} FileOfNone(i: nat, walks: Walks)
    requires Fair(walks)
    ensures FileJobs(None, i, walks) == []
  {}

  lemma {:induction false} JobsOn(names: seq<string>, i: nat, files: Files, walks: Walks)
    requires Fair(walks) && i < |names|
    ensures AllJobs(names, 0, files, walks) == []
    ensures AllJobs(names, i + 1, files, walks)
            == AllJobs(names, i, files, walks) + FileJobs(SourceOf(names, i, files), i, walks)
  {}

  lemma {:induction false} SkippedFileSources(o: Owner)
    ensures var x := SkippedFileInput(o);
            var names, files := x.Names(), x.Start().files;
            && HostJob() == Job("web", HostJob().service)
            && |names| == 3 && SourceOf(names, 0, files) == Some(map["web" := HostJob().service])
            && SourceOf(names, 1, files) == None
            && SourceOf(names, 2, files) == Some(map[INFRA_SERVICE := Mapping(x.infra)])
  {
    SkippedFileNames(o);
    hide Contains, Renamed, Separate, InfraDetails;
    var x := SkippedFileInput(o);
    UsersUntouched(x, 0);
    UsersUntouched(x, 1);
    InfraSource(x);
  }

  lemma {:induction false} SkippedFileJobs(o: Owner, walks: Walks)
    requires Fair(walks)
    ensures var x := SkippedFileInput(o);
            Jobs(x, walks) == [HostJob(), Job(INFRA_SERVICE, Mapping(x.infra))]
  {
    var x := SkippedFileInput(o);
    SkippedFileNames(o);
    hide Contains, Renamed, Separate, InfraDetails, Fair, AllJobs, FileJobs;
    var names, files := x.Names(), x.Start().files;
    SkippedFileSources(o);
    hide HostJob, SourceOf;
    FileOfOne("web", HostJob().service, 0, walks);
    FileOfNone(1, walks);
    FileOfOne(INFRA_SERVICE, Mapping(x.infra), 2, walks);
    JobsOn(names, 0, files, walks);
    JobsOn(names, 1, files, walks);
    JobsOn(names, 2, files, walks);
  }

  /** Editing that pod's files succeeds, and then the plugin panics. */
  lemma {:induction false} SkippedFilePanics(o: Owner, walks: Walks, hostWalk: HostWalk)
    requires Fair(walks)
    ensures var x := SkippedFileInput(o);
            x.Valid() && Edit(x, walks).Done? && Launched(x, walks, hostWalk, None) == Panic
  {
    var x := SkippedFileInput(o);
    SkippedFileNames(o);
    SkippedFileJobs(o, walks);
    hide Edit, Pull, Contains, Separate, Fair, AllJobs, RunJobs, Needs, SomeOwnNetwork, AllWellFormed;
    var jobs := Jobs(x, walks);
    HostServiceJobs(x.infra, jobs);
    SucceedsIff(jobs, x.flow, o);
    EditFlow(x, walks);
    assert ServicesOf(x.files, x.users[1]).None?;
    assert SourceOf(x.users, 1, x.files).None?;
    DropPanicsIff(x, walks, hostWalk, None);
  }

  lemma {:induction false} HostServiceJobs(infra: Details, jobs: seq<Job>)
    requires infra == InfraDetails("proxy", "image", None)
    requires jobs == [HostJob(), Job(INFRA_SERVICE, Mapping(infra))]
    ensures Needs(jobs, 2) == 0 && AllWellFormed(jobs) && SomeOwnNetwork(jobs, 2)
  {
    HostNeedsNone(infra);
    hide Need, WellFormed, OwnNetwork;
    assert Needs(jobs, 0) == 0;
    assert Needs(jobs, 1) == 0;
    assert OwnNetwork(jobs[0].service.details);
  }

  lemma {:induction false} HostNeedsNone(infra: Details)
    ensures var web := HostJob();
            && Need(web) == 0 && WellFormed(web) && web.service.Mapping?
            && web.name != INFRA_SERVICE && OwnNetwork(web.service.details)
    ensures infra == InfraDetails("proxy", "image", None)
            ==> Need(Job(INFRA_SERVICE, Mapping(infra))) == 0 && WellFormed(Job(INFRA_SERVICE, Mapping(infra)))
  {
    assert |"web"| != |INFRA_SERVICE|;
  }

  // ---------------------------------------------------------------- a service with the infra container's name

  /** A service that has the infra container's name, a network mode of its own and a port. */
  function NamesakeDetails(): Details {
    map[NetworkMode := Str("bridge"), PortsKey := List([Str("80:80")])]
  }

  function NamesakeJob(): Job {
    Job(INFRA_SERVICE, Mapping(NamesakeDetails()))
  }

  /** A file with just that service, and one port on offer. */
  function NamesakeInput(p: nat, o: Owner): Input {
    var app := Services(map[INFRA_SERVICE := NamesakeJob().service]);
    Input(map["app.yml" := app], ["app.yml"], "", InfraDetails("proxy", "image", None),
          Flow([p], None, {}, false, false), "", o)
  }

  lemma {:induction false} NamesakeNames(p: nat, o: Owner)
    ensures var x := NamesakeInput(p, o);
            && x.Names() == ["app.yml", INFRA_YML] && x.InfraFile() == INFRA_YML && x.Valid()
            && x.Names()[0] != x.Names()[1]
  {
    var x := NamesakeInput(p, o);
    assert "" + INFRA_YML == INFRA_YML;
    hide Contains, InfraDetails, Renamed, Separate, NamesakeJob;
    assert x.Names() == ["app.yml", INFRA_YML];
    assert |"app.yml"| == 7 && |INFRA_YML| == 26;
    PlainNames(x.Names(), x.Start().files);
    NoG(INFRA_YML);
  }

  lemma {:induction false} NamesakeSources(p: nat, o: Owner)
    ensures var x := NamesakeInput(p, o);
            var names, files := x.Names(), x.Start().files;
            && NamesakeJob() == Job(INFRA_SERVICE, NamesakeJob().service)
            && |names| == 2 && SourceOf(names, 0, files) == Some(map[INFRA_SERVICE := NamesakeJob().service])
            && SourceOf(names, 1, files) == Some(map[INFRA_SERVICE := Mapping(x.infra)])
  {
    NamesakeNames(p, o);
    hide Contains, Renamed, Separate, InfraDetails;
    var x := NamesakeInput(p, o);
    UsersUntouched(x, 0);
    InfraSource(x);
  }

  lemma {:induction false} NamesakeJobs(p: nat, o: Owner, walks: Walks)
    requires Fair(walks)
    ensures var x := NamesakeInput(p, o);
            Jobs(x, walks) == [NamesakeJob(), Job(INFRA_SERVICE, Mapping(x.infra))]
  {
    var x := NamesakeInput(p, o);
    NamesakeNames(p, o);
    hide Contains, Renamed, Separate, InfraDetails, Fair, AllJobs, FileJobs;
    var names, files := x.Names(), x.Start().files;
    NamesakeSources(p, o);
    hide NamesakeJob, SourceOf;
    FileOfOne(INFRA_SERVICE, NamesakeJob().service, 0, walks);
    FileOfOne(INFRA_SERVICE, Mapping(x.infra), 1, walks);
    JobsOn(names, 0, files, walks);
    JobsOn(names, 1, files, walks);
  }

  lemma {:induction false} BridgeIsItsOwn()
    ensures "bridge" != "host" && "bridge" != "none" && !Contains("bridge", "service:")
  {
    assert |"bridge"| == 6 && |"host"| == 4 && |"none"| == 4 && |"service:"| == 8;
  }

  lemma {:induction false} OneMapped(list: seq<Value>)
    requires list == [Str("80:80")]
    ensures CountMapped(list, 1) == 1 && AllStrings(list)
  {
    assert "80" + ":" + "80" == "80:80";
    TwoParts("80", "80");
    assert Mapped(list[0]);
    assert CountMapped(list, 0) == 0;
  }

  lemma {:induction false} NamesakeNeedsOne(infra: Details)
    ensures var j := NamesakeJob();
            Need(j) == 1 && WellFormed(j) && !Gives(j) && j.service.Mapping? && KeepsPorts(j)
    ensures infra == InfraDetails("proxy", "image", None)
            ==> Need(Job(INFRA_SERVICE, Mapping(infra))) == 0 && WellFormed(Job(INFRA_SERVICE, Mapping(infra)))
  {
    BridgeIsItsOwn();
    OneMapped(NamesakeDetails()[PortsKey].items);
    hide CountMapped, Contains, AllStrings;
  }

  /** Two services of which the first keeps one port. */
  lemma {:induction false} KeptByTheFirst(jobs: seq<Job>, p: nat)
    requires |jobs| == 2 && AllWellFormed(jobs) && jobs[0].name == jobs[1].name == INFRA_SERVICE
    requires Need(jobs[0]) == 1 && Need(jobs[1]) == 0 && !Gives(jobs[0])
    ensures Needs(jobs, 2) == 1 && HandedOut(jobs, 2, [p]) == [] && !SomeOwnNetwork(jobs, 2)
  {
    hide Need, Gives;
    assert Needs(jobs, 0) == 0;
    assert Needs(jobs, 1) == 1;
    assert HandedOut(jobs, 0, [p]) == [];
    assert HandedOut(jobs, 1, [p]) == [];
  }

  /** Editing that pod's files uses up the port, and the infra container, which is launched, publishes none. */
  lemma {:induction false} NamesakeKeepsPorts(p: nat, o: Owner, walks: Walks, hostWalk: HostWalk)
    returns (launch: Launch, d: Details)
    requires Fair(walks)
    ensures var x := NamesakeInput(p, o);
            var jobs := Jobs(x, walks);
            && x.Valid() && Edit(x, walks).Done? && !InfraGoes(x, walks, None)
            && Needs(jobs, |jobs|) == 1 && HandedOut(jobs, |jobs|, [p]) == [] != [p][..1]
            && Launched(x, walks, hostWalk, None) == Done(launch) && InfraIs(x, launch, d)
            && HostParts(ListOf(d, PortsKey)) == []
  {
    var x := NamesakeInput(p, o);
    NamesakeNames(p, o);
    NamesakeJobs(p, o, walks);
    hide Edit, Pull, Contains, Separate, Fair, AllJobs, RunJobs, Needs, SomeOwnNetwork, WellFormed, Need, Gives;
    hide HandedOut, InfraIs, ListOf, HostParts, NamesakeDetails, KeepsPorts;
    var jobs := Jobs(x, walks);
    NamesakeNeedsOne(x.infra);
    KeptByTheFirst(jobs, p);
    SucceedsIff(jobs, x.flow, o);
    EditFlow(x, walks);
    launch, d := InfraPublishesFirstPorts(x, walks, hostWalk, None);
  }
}
