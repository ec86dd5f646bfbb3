/** The result of `LaunchTaskPreImagePull` on a pod's files (pluginimpl/general/impl.go): which files are
    launched, which ports the infra container publishes, which hosts it knows. */
module ComposeLaunch {
  import opened PodTypes
  import opened Ports
  import opened ServiceEdit
  import opened ServiceMeaning
  import opened Strings
  import opened JobFlow
  import opened ComposeFiles
  import opened ComposeTheorems
  import opened ComposeResults
  import opened Walk

  /** What the plugin is called with. The infra container's file lies in `folder`; `infraYml` is where the last
      call, if there was one, saw it. */
  datatype Input = Input(files: Files, users: seq<string>, folder: string, infra: Details, flow: Flow, infraYml: string,
                         owner: Owner)
  {
    function InfraFile(): string {
      folder + INFRA_YML
    }

    function Names(): seq<string> {
      users + [InfraFile()]
    }

    function Start(): Progress {
      Progress(WithInfra(files, InfraFile(), infra), flow, [], 0, infraYml)
    }

    /** No file is in another's way. */
    ghost predicate Apart() {
      Separate(Names(), Start().files)
    }

    /** Besides, the infra container's file is not one of the user's, and is recognised by its generated name. */
    ghost predicate Valid() {
      && Apart() && InfraFile() !in users && !Contains(InfraFile(), POSTFIX)
      && exists containerName, image, networks :: infra == InfraDetails(containerName, image, networks)
    }
  }

  ghost function Edit(x: Input, walks: Walks): Edited<Progress>
    requires Fair(walks)
  {
    RunFiles(x.Names(), |x.Names()|, x.Start(), walks, x.owner)
  }

  ghost function Launched(x: Input, walks: Walks, hostWalk: HostWalk, preset: Option<bool>): Edited<Launch>
    requires Fair(walks)
  {
    Pull(x.files, x.users, x.InfraFile(), x.infra, x.flow, x.infraYml, walks, hostWalk, x.owner, preset)
  }

  lemma {:induction false} LaunchedIs(x: Input, walks: Walks, hostWalk: HostWalk, preset: Option<bool>)
    requires Fair(walks)
    ensures Launched(x, walks, hostWalk, preset)
            == match Edit(x, walks)
               case Done(p) => Finish(p, preset, hostWalk(p.flow.hosts))
               case NoPortsAvailable => NoPortsAvailable
               case Panic => Panic
  {}

  /** All services of the input, the infra container's last, as Go walks them. */
  ghost function Jobs(x: Input, walks: Walks): seq<Job>
    requires Fair(walks)
  {
    AllJobs(x.Names(), |x.Names()|, x.Start().files, walks)
  }

  lemma {:induction false} EditFlow(x: Input, walks: Walks)
    requires Fair(walks) && x.Apart()
    ensures ProgressFlow(Edit(x, walks)) == RunJobs(Jobs(x, walks), |Jobs(x, walks)|, x.flow, x.owner)
  {
    hide RunFiles, AllJobs, RunJobs, Separate;
    FilesFlow(x.Names(), |x.Names()|, x.Start(), walks, x.owner);
  }

  // ---------------------------------------------------------------- success does not depend on the order

  lemma {:induction false} SameWalkJobs(services: map<string, Service>, order: seq<string>, order': seq<string>)
    requires WalkOf(services.Keys, order) && WalkOf(services.Keys, order')
    ensures SameJobs(WalkJobs(services, order), WalkJobs(services, order'))
  {
    var jobs, jobs' := WalkJobs(services, order), WalkJobs(services, order');
    forall j ensures j in jobs <==> j in jobs' {
      JobIn(services, order, j);
      JobIn(services, order', j);
    }
    SameElements(jobs, jobs');
  }

  lemma {:induction false} JobIn(services: map<string, Service>, order: seq<string>, j: Job)
    requires WalkOf(services.Keys, order)
    ensures j in WalkJobs(services, order) <==> j.name in services && services[j.name] == j.service
  {
    var jobs := WalkJobs(services, order);
    if j.name in services && services[j.name] == j.service {
      var i := PlaceOf(order, j.name);
      assert jobs[i] == j;
    }
  }

  lemma {:induction false} SameFileJobs(source: Option<map<string, Service>>, i: nat, walks: Walks, walks': Walks)
    requires Fair(walks) && Fair(walks')
    ensures SameJobs(FileJobs(source, i, walks), FileJobs(source, i, walks'))
  {
    hide WalkJobs;
    match source {
      case None =>
      case Some(services) => SameWalkJobs(services, walks(i, services.Keys), walks'(i, services.Keys));
    }
  }

  lemma {:induction false} SameTogether(a: seq<Job>, b: seq<Job>, a': seq<Job>, b': seq<Job>)
    requires SameJobs(a, a') && SameJobs(b, b')
    ensures SameJobs(a + b, a' + b')
  {}

  lemma {:induction false} SameAllJobs(names: seq<string>, i: nat, files: Files, walks: Walks, walks': Walks)
    requires Fair(walks) && Fair(walks') && i <= |names|
    ensures SameJobs(AllJobs(names, i, files, walks), AllJobs(names, i, files, walks'))
  {
    hide FileJobs, SourceOf, Fair;
    if i == 0 {
    } else {
      SameAllJobs(names, i - 1, files, walks, walks');
      var source := SourceOf(names, i - 1, files);
      SameFileJobs(source, i - 1, walks, walks');
      SameTogether(AllJobs(names, i - 1, files, walks), FileJobs(source, i - 1, walks),
                   AllJobs(names, i - 1, files, walks'), FileJobs(source, i - 1, walks'));
      hide SameJobs;
    }
  }

  /** "No ports available" means just that, in any order of the services: the editing succeeds exactly when every
      service is well formed and the mapped entries of the services outside the host's network do not outnumber
      the offered ports, and then uses up as many; and unless both fail, it is known which failure it is. */
  lemma {:induction false} PortsSufficeIff(x: Input, walks: Walks, walks': Walks)
    requires Fair(walks) && Fair(walks') && x.Apart()
    ensures var jobs, r, r' := Jobs(x, walks), Edit(x, walks), Edit(x, walks');
            var k := Needs(jobs, |jobs|);
            && (r.Done? <==> AllWellFormed(jobs) && k <= |x.flow.ports|) && (r'.Done? <==> r.Done?)
            && (r.Done? ==> r.value.flow.ports == r'.value.flow.ports == x.flow.ports[k..])
            && (AllWellFormed(jobs) || k <= |x.flow.ports|
                ==> && (r == NoPortsAvailable <==> k > |x.flow.ports|)
                    && (r' == NoPortsAvailable <==> r == NoPortsAvailable) && (r' == Panic <==> r == Panic))
  {
    hide Edit, RunJobs, AllJobs, Fair, AllWellFormed;
    EditFlow(x, walks);
    EditFlow(x, walks');
    SameAllJobs(x.Names(), |x.Names()|, x.Start().files, walks, walks');
    OutcomeSameInAnyOrder(Jobs(x, walks), Jobs(x, walks'), x.flow, x.owner);
  }

  // ---------------------------------------------------------------- the infra container's file comes last

  /** The infra container's service when it is edited: it gets the list collected so far, and nothing flows
      from it. */
  lemma {:induction false} InfraService(infra: Details, f: Flow, o: Owner, containerName: string, image: string,
                                        networks: Option<Value>)
    requires infra == InfraDetails(containerName, image, networks)
    ensures EditService(INFRA_SERVICE, Mapping(infra), f, o).Done?
    ensures var (s, f') := EditService(INFRA_SERVICE, Mapping(infra), f, o).value;
            && f' == f && s.Mapping?
            && Get(s.details, PortsKey) == (match f.collected case None => None case Some(list) => Some(List(list)))
            && Get(s.details, ExtraHosts) == None
  {
    assert Get(infra, NetworkMode) == None && Get(infra, PortsKey) == None && Get(infra, ExtraHosts) == None;
    var section := match f.collected case None => None case Some(list) => Some(List(list));
    assert f.hosts + HostsIn(infra) == f.hosts;
    hide EditSections;
    SectionsAre(INFRA_SERVICE, infra, o, section, PortsKey);
    SectionsAre(INFRA_SERVICE, infra, o, section, ExtraHosts);
  }

  lemma {:induction false} OnlyInfraWalk(order: seq<string>)
    requires WalkOf({INFRA_SERVICE}, order)
    ensures order == [INFRA_SERVICE]
  {
    WalkSize({INFRA_SERVICE}, order);
    assert order[0] in order;
  }

  lemma {:induction false} InfraServices(infra: Details, order: seq<string>, f: Flow, o: Owner)
    requires order == [INFRA_SERVICE]
    requires EditService(INFRA_SERVICE, Mapping(infra), f, o).Done?
    ensures var services := map[INFRA_SERVICE := Mapping(infra)];
            var (s, f') := EditService(INFRA_SERVICE, Mapping(infra), f, o).value;
            && Within(order, services)
            && EditServices(services, order, 1, f, o) == Done((map[INFRA_SERVICE := s], f'))
  {
    hide EditService;
    var services := map[INFRA_SERVICE := Mapping(infra)];
    var (s, f') := EditService(INFRA_SERVICE, Mapping(infra), f, o).value;
    assert services[INFRA_SERVICE := s] == map[INFRA_SERVICE := s];
    assert EditServices(services, order, 0, f, o) == Done((services, f));
  }

  /** The infra container's document after the loop. */
  ghost predicate InfraDocument(files: Files, file: string, collected: Option<seq<Value>>) {
    match ServicesOf(files, file)
    case None => false
    case Some(services) =>
      && services.Keys == {INFRA_SERVICE} && services[INFRA_SERVICE].Mapping?
      && Get(services[INFRA_SERVICE].details, PortsKey)
         == (match collected case None => None case Some(list) => Some(List(list)))
      && Get(services[INFRA_SERVICE].details, ExtraHosts) == None
  }

  lemma {:induction false} InfraPending(x: Input, walks: Walks)
    requires Fair(walks) && x.Valid() && Edit(x, walks).Done?
    ensures RunFiles(x.Names(), |x.users|, x.Start(), walks, x.owner).Done?
    ensures var p := RunFiles(x.Names(), |x.users|, x.Start(), walks, x.owner).value;
            ServicesOf(p.files, x.InfraFile()) == Some(map[INFRA_SERVICE := Mapping(x.infra)])
  {
    hide RunFiles, Contains, Separate;
    var n := |x.users|;
    RunOneMore(x.Names(), n + 1, x.Start(), walks, x.owner);
    SourceNow(x.Names(), n, x.Start(), walks, x.owner);
    assert x.Names()[n] == x.InfraFile() && x.Names()[..n] == x.users;
  }

  /** The loop ends with the infra container's file: its index is that of the last input, and its service has
      collected every port list. */
  lemma {:induction false} InfraLast(x: Input, walks: Walks)
    requires Fair(walks) && x.Valid() && Edit(x, walks).Done?
    ensures var p := Edit(x, walks).value;
            && p.indexInfra == |x.users| && p.infraYml == Renamed(x.InfraFile())
            && InfraDocument(p.files, Renamed(x.InfraFile()), p.flow.collected)
  {
    hide RunFiles, EditFile, EditService, EditServices, Contains, Renamed, Separate, Fair;
    var n, file := |x.users|, x.InfraFile();
    assert x.Names()[n] == file;
    InfraPending(x, walks);
    RunOneMore(x.Names(), n + 1, x.Start(), walks, x.owner);
    var p := RunFiles(x.Names(), n, x.Start(), walks, x.owner).value;
    var order := OrderAt(p, file, n, walks);
    InfraRecognised(x.folder);
    assert {INFRA_SERVICE} == map[INFRA_SERVICE := Mapping(x.infra)].Keys;
    OnlyInfraWalk(order);
    var containerName, image, networks :| x.infra == InfraDetails(containerName, image, networks);
    InfraService(x.infra, p.flow, x.owner, containerName, image, networks);
    InfraServices(x.infra, order, p.flow, x.owner);
    EditFileIs(p.files, file, order, p.flow, x.owner);
  }

  // ---------------------------------------------------------------- which files are launched

  /** Every file of the user has a services section, and none is named twice. */
  ghost predicate AllServe(x: Input) {
    forall i :: 0 <= i < |x.users| ==> SourceOf(x.users, i, x.files).Some?
  }

  function Generated(names: seq<string>, i: nat): seq<string>
    requires i <= |names|
  {
    if i == 0 then [] else Generated(names, i - 1) + [Renamed(names[i - 1])]
  }

  lemma {:induction false} AllGenerated(names: seq<string>, i: nat, files: Files)
    requires i <= |names| && forall j :: 0 <= j < i ==> SourceOf(names, j, files).Some?
    ensures EditedNames(names, i, files) == Generated(names, i)
  {
    hide SourceOf, Renamed;
    if i == 0 {
    } else {
      AllGenerated(names, i - 1, files);
    }
  }

  lemma {:induction false} SomeSkipped(names: seq<string>, i: nat, files: Files)
    requires i <= |names|
    ensures |EditedNames(names, i, files)| == i <==> forall j :: 0 <= j < i ==> SourceOf(names, j, files).Some?
    ensures |EditedNames(names, i, files)| <= i
  {
    hide SourceOf, Renamed;
    if i == 0 {
    } else {
      SomeSkipped(names, i - 1, files);
    }
  }

  /** Adding the infra container's file leaves the user's as they are. */
  lemma {:induction false} UsersUntouched(x: Input, i: nat)
    requires x.InfraFile() !in x.users && i < |x.users|
    ensures x.Names()[i] == x.users[i] && ServicesOf(x.Start().files, x.users[i]) == ServicesOf(x.files, x.users[i])
    ensures SourceOf(x.Names(), i, x.Start().files) == SourceOf(x.users, i, x.files)
  {
    assert x.Names()[..i] == x.users[..i];
    assert x.users[i] in x.users;
  }

  lemma {:induction false} InfraSource(x: Input)
    requires x.InfraFile() !in x.users
    ensures var n := |x.users|;
            && x.Names()[n] == x.InfraFile() && ServicesOf(x.Start().files, x.InfraFile()).Some?
            && SourceOf(x.Names(), n, x.Start().files) == Some(map[INFRA_SERVICE := Mapping(x.infra)])
  {
    assert x.Names()[..|x.users|] == x.users;
  }

  lemma {:induction false} EditedList(x: Input, walks: Walks)
    requires Fair(walks) && x.Valid() && Edit(x, walks).Done?
    ensures var n, edited := |x.users|, Edit(x, walks).value.edited;
            && edited == EditedNames(x.Names(), n + 1, x.Start().files)
            && edited == EditedNames(x.Names(), n, x.Start().files) + [Renamed(x.InfraFile())]
  {
    hide RunFiles, Contains, Renamed, Separate, SourceOf;
    EditedInOrder(x.Names(), |x.users| + 1, x.Start(), walks, x.owner);
    InfraSource(x);
  }

  lemma {:induction false} NoneSkippedIff(x: Input, walks: Walks)
    requires Fair(walks) && x.Valid() && Edit(x, walks).Done?
    ensures |Edit(x, walks).value.edited| <= |x.users| + 1
    ensures |Edit(x, walks).value.edited| == |x.users| + 1 <==> AllServe(x)
  {
    hide Edit, Contains, Renamed, EditedNames, Separate, SourceOf;
    var n := |x.users|;
    EditedList(x, walks);
    SomeSkipped(x.Names(), n, x.Start().files);
    forall i | 0 <= i < n ensures SourceOf(x.Names(), i, x.Start().files) == SourceOf(x.users, i, x.files) {
      UsersUntouched(x, i);
    }
  }

  /** Some service of the pod is on the host's network or on none. */
  ghost predicate SomeServiceOwnNetwork(x: Input, walks: Walks)
    requires Fair(walks)
  {
    SomeOwnNetwork(Jobs(x, walks), |Jobs(x, walks)|)
  }

  /** The infra container is to go: as the setting says or, if it is not set, when it was to go before or some
      service does without its network. */
  ghost predicate InfraGoes(x: Input, walks: Walks, preset: Option<bool>)
    requires Fair(walks)
  {
    preset == Some(true) || (preset == None && (x.flow.dropInfra || SomeServiceOwnNetwork(x, walks)))
  }

  lemma {:induction false} GoesIff(x: Input, walks: Walks, preset: Option<bool>)
    requires Fair(walks) && x.Apart() && Edit(x, walks).Done?
    ensures Drops(preset, Edit(x, walks).value.flow.dropInfra) <==> InfraGoes(x, walks, preset)
  {
    hide Edit, RunJobs, AllJobs, Fair, Separate;
    EditFlow(x, walks);
    RunGathers(Jobs(x, walks), |Jobs(x, walks)|, x.flow, x.owner);
  }

  /** Dropping the infra container's file uses its place among all files as an index into the list of the
      edited ones: the plugin panics exactly when some file of the user was skipped. */
  lemma {:induction false} DropPanicsIff(x: Input, walks: Walks, hostWalk: HostWalk, preset: Option<bool>)
    requires Fair(walks) && x.Valid() && Edit(x, walks).Done?
    ensures Launched(x, walks, hostWalk, preset) == Panic <==> InfraGoes(x, walks, preset) && !AllServe(x)
  {
    hide Edit, Pull, AllServe, InfraGoes;
    GoesIff(x, walks, preset);
    LaunchedIs(x, walks, hostWalk, preset);
    InfraLast(x, walks);
    NoneSkippedIff(x, walks);
  }

  /** The list of files to launch: the inputs in order under their generated names, with the infra container's
      file at the end exactly when it is not to be removed; and these are the documents there are. */
  lemma {:induction false} FilesInOrder(x: Input, walks: Walks, hostWalk: HostWalk, preset: Option<bool>)
    requires Fair(walks) && x.Valid() && Edit(x, walks).Done? && AllServe(x)
    requires x.files.Keys == set u | u in x.users
    ensures Launched(x, walks, hostWalk, preset).Done?
    ensures var launch := Launched(x, walks, hostWalk, preset).value;
            var users := Generated(x.users, |x.users|);
            && (preset == Some(true) ==> launch.edited == users)
            && (preset == Some(false) ==> launch.edited == users + [Renamed(x.InfraFile())])
            && (preset == None
                ==> launch.edited == if x.flow.dropInfra || SomeServiceOwnNetwork(x, walks) then users
                                     else users + [Renamed(x.InfraFile())])
            && launch.files.Keys == set name | name in launch.edited
  {
    hide Edit, Pull, Contains, Renamed, Fair, Finish, AllServe, Generated, Drops, SomeServiceOwnNetwork, Separate;
    var n, p := |x.users|, Edit(x, walks).value;
    LaunchedIs(x, walks, hostWalk, preset);
    InfraLast(x, walks);
    GoesIff(x, walks, preset);
    EditedList(x, walks);
    GeneratedUsers(x);
    DocumentsEdited(x, walks);
    InfraNotAmong(x);
    GeneratedSize(x.users, n);
    FinishList(p, preset, hostWalk(p.flow.hosts), Generated(x.users, n), Renamed(x.InfraFile()));
  }

  /** Finishing with the infra container's file at the end of the list. */
  lemma {:induction false} FinishList(p: Progress, preset: Option<bool>, hosts: seq<Value>, users: seq<string>,
                                      infraFile: string)
    requires p.edited == users + [infraFile] && p.indexInfra == |users| && infraFile !in users
    requires p.files.Keys == set name | name in p.edited
    ensures var r := Finish(p, preset, hosts);
            && r.Done?
            && r.value.edited == (if Drops(preset, p.flow.dropInfra) then users else users + [infraFile])
            && r.value.files.Keys == set name | name in r.value.edited
  {
    var n := |users|;
    if Drops(preset, p.flow.dropInfra) {
      assert p.edited[..n] + p.edited[n + 1..] == users;
      assert p.edited[n] == infraFile;
    } else {
      HostsKeepFiles(p.files, p.infraYml, hosts);
    }
  }

  lemma {:induction false} GeneratedSize(names: seq<string>, i: nat)
    requires i <= |names|
    ensures |Generated(names, i)| == i
  {
    if i == 0 {
    } else {
      GeneratedSize(names, i - 1);
    }
  }

  lemma {:induction false} HostsKeepFiles(files: Files, file: string, hosts: seq<Value>)
    ensures WithExtraHosts(files, file, hosts).Keys == files.Keys
  {}

  lemma {:induction false} GeneratedUsers(x: Input)
    requires x.Valid() && AllServe(x)
    ensures EditedNames(x.Names(), |x.users|, x.Start().files) == Generated(x.users, |x.users|)
  {
    hide Contains, Renamed, Separate, SourceOf;
    forall j | 0 <= j < |x.users|
      ensures x.Names()[j] == x.users[j] && SourceOf(x.Names(), j, x.Start().files).Some?
    {
      UsersUntouched(x, j);
    }
    AllGenerated(x.Names(), |x.users|, x.Start().files);
    GeneratedPrefix(x.Names(), x.users, |x.users|);
  }

  lemma {:induction false} GeneratedPrefix(names: seq<string>, names': seq<string>, i: nat)
    requires i <= |names| && i <= |names'| && forall j :: 0 <= j < i ==> names[j] == names'[j]
    ensures Generated(names, i) == Generated(names', i)
  {
    if i == 0 {
    } else {
      GeneratedPrefix(names, names', i - 1);
    }
  }

  /** A user's file that is edited does not get the name of the infra container's. */
  lemma {:induction false} InfraApart(x: Input, i: nat)
    requires x.Valid() && i < |x.users| && ServicesOf(x.files, x.users[i]).Some?
    ensures Renamed(x.users[i]) != Renamed(x.InfraFile())
  {
    hide Contains, Renamed, Separate;
    UsersUntouched(x, i);
    InfraSource(x);
    assert x.users[i] in x.users;
    NoClash(x.Names(), x.Start().files, i, |x.users|);
    NoClash(x.Names(), x.Start().files, |x.users|, i);
    RenamedDiffer(x.users[i], x.InfraFile());
  }

  lemma {:induction false} InfraNotAmong(x: Input)
    requires x.Valid() && AllServe(x)
    ensures Renamed(x.InfraFile()) !in Generated(x.users, |x.users|)
  {
    hide Contains, Renamed, Separate;
    forall j | 0 <= j < |x.users| ensures Renamed(x.users[j]) != Renamed(x.InfraFile()) {
      assert SourceOf(x.users, j, x.files).Some?;
      InfraApart(x, j);
    }
    NotAmong(x.users, |x.users|, Renamed(x.InfraFile()));
  }

  lemma {:induction false} NotAmong(names: seq<string>, i: nat, name: string)
    requires i <= |names| && forall j :: 0 <= j < i ==> Renamed(names[j]) != name
    ensures name !in Generated(names, i)
  {
    if i == 0 {
    } else {
      NotAmong(names, i - 1, name);
    }
  }

  /** After the loop the documents are just the edited ones. */
  lemma {:induction false} DocumentsEdited(x: Input, walks: Walks)
    requires Fair(walks) && x.Valid() && Edit(x, walks).Done? && AllServe(x)
    requires x.files.Keys == set u | u in x.users
    ensures Edit(x, walks).value.files.Keys == set name | name in Edit(x, walks).value.edited
  {
    hide RunFiles, Contains, Renamed, Fair, Separate, AllServe;
    var p, names := Edit(x, walks).value, x.Names();
    forall k ensures k in p.files <==> k in p.edited {
      DocumentsAre(names, |names|, x.Start(), walks, x.owner, k);
      if k in x.Start().files {
        SubmittedServes(x, k);
        assert names[..|names|] == names;
      }
    }
  }

  lemma {:induction false} SubmittedServes(x: Input, k: string)
    requires x.Valid() && AllServe(x) && x.files.Keys == (set u | u in x.users) && k in x.Start().files
    ensures k in x.Names() && ServicesOf(x.Start().files, k).Some?
  {
    hide Separate;
    if k == x.InfraFile() {
      InfraSource(x);
    } else {
      var i := PlaceOf(x.users, k);
      UsersUntouched(x, i);
      assert SourceOf(x.users, i, x.files).Some?;
    }
  }

  // ---------------------------------------------------------------- what the infra container is given

  function ListOf(d: Details, k: Key): seq<Value> {
    if ListAt(d, k) then d[k].items else []
  }

  /** The infra container's service in the files to launch, if its file is launched. */
  ghost predicate InfraIs(x: Input, launch: Launch, d: Details) {
    match ServicesOf(launch.files, Renamed(x.InfraFile()))
    case None => false
    case Some(services) => INFRA_SERVICE in services && services[INFRA_SERVICE] == Mapping(d)
  }

  /** What `addExtraHostsSection` makes of the infra container's document. */
  lemma {:induction false} HostsAdded(files: Files, file: string, collected: Option<seq<Value>>, hosts: seq<Value>)
    returns (d: Details)
    requires InfraDocument(files, file, collected)
    ensures var services := ServicesOf(WithExtraHosts(files, file, hosts), file);
            services.Some? && INFRA_SERVICE in services.value && services.value[INFRA_SERVICE] == Mapping(d)
    ensures ListOf(d, PortsKey) == (match collected case None => [] case Some(list) => list)
    ensures ListOf(d, ExtraHosts) == hosts
    ensures hosts == [] ==> ExtraHosts !in d
  {
    var before := ServicesOf(files, file).value[INFRA_SERVICE].details;
    assert Get(before, PortsKey) == (match collected case None => None case Some(list) => Some(List(list)));
    assert Get(before, ExtraHosts) == None;
    d := if hosts == [] then before else before[ExtraHosts := List(hosts)];
    assert Get(d, PortsKey) == Get(before, PortsKey);
  }

  lemma {:induction false} InfraKept(x: Input, walks: Walks, hostWalk: HostWalk, preset: Option<bool>)
    returns (launch: Launch, d: Details)
    requires Fair(walks) && x.Valid() && Edit(x, walks).Done? && !InfraGoes(x, walks, preset)
    ensures Launched(x, walks, hostWalk, preset) == Done(launch) && InfraIs(x, launch, d)
    ensures var f := Edit(x, walks).value.flow;
            && ListOf(d, PortsKey) == (match f.collected case None => [] case Some(list) => list)
            && ListOf(d, ExtraHosts) == hostWalk(f.hosts)
  {
    hide Edit, Pull, Contains, Renamed, Fair, InfraDocument, WithExtraHosts, ListOf, InfraGoes, Separate;
    GoesIff(x, walks, preset);
    LaunchedIs(x, walks, hostWalk, preset);
    InfraLast(x, walks);
    var p := Edit(x, walks).value;
    launch := Launched(x, walks, hostWalk, preset).value;
    d := HostsAdded(p.files, p.infraYml, p.flow.collected, hostWalk(p.flow.hosts));
  }

  lemma {:induction false} InfraDocumentRewritten(x: Input, walks: Walks)
    requires Fair(walks) && x.Valid() && Edit(x, walks).Done?
    ensures var services := ServicesOf(Edit(x, walks).value.files, Renamed(x.InfraFile()));
            && services.Some? && INFRA_SERVICE in services.value
            && Rewritten(INFRA_SERVICE, Mapping(x.infra), services.value[INFRA_SERVICE], x.owner)
  {
    hide RunFiles, Contains, Renamed, Fair, Separate, Rewritten;
    var n := |x.users|;
    InfraSource(x);
    EveryServiceRewritten(x.Names(), n + 1, x.Start(), walks, x.owner, n);
  }

  lemma {:induction false} HostsKeepOthers(files: Files, file: string, hosts: seq<Value>, d: Details)
    requires var services := ServicesOf(WithExtraHosts(files, file, hosts), file);
             services.Some? && INFRA_SERVICE in services.value && services.value[INFRA_SERVICE] == Mapping(d)
    requires var services := ServicesOf(files, file);
             services.Some? && INFRA_SERVICE in services.value && services.value[INFRA_SERVICE].Mapping?
    ensures var before := ServicesOf(files, file).value[INFRA_SERVICE].details;
            forall k :: k != ExtraHosts ==> Get(d, k) == Get(before, k)
  {}

  /** The infra container's own service is edited like any other; the plugin adds only ports and extra hosts. */
  lemma {:induction false} InfraDressed(x: Input, walks: Walks, hostWalk: HostWalk, preset: Option<bool>,
                                        launch: Launch, d: Details)
    requires Fair(walks) && x.Valid() && Edit(x, walks).Done? && !InfraGoes(x, walks, preset)
    requires Launched(x, walks, hostWalk, preset) == Done(launch) && InfraIs(x, launch, d)
    ensures ModeMeans("networkproxy", x.infra, d) && NameMeans(x.infra, d, x.owner)
    ensures LabelsMean(x.infra, d, x.owner) && EnvironmentMeans(x.infra, d)
    ensures Get(d, CgroupParent) == Some(Str("/mesos/" + x.owner.cgroup))
    ensures forall k: string :: Get(d, Other(k)) == Get(x.infra, Other(k))
  {
    hide Edit, Pull, Contains, Renamed, Fair, WithExtraHosts, InfraGoes, Separate, Rewritten;
    hide ModeMeans, NameMeans, LabelsMean, EnvironmentMeans, OnHostOrNone;
    GoesIff(x, walks, preset);
    LaunchedIs(x, walks, hostWalk, preset);
    InfraLast(x, walks);
    InfraDocumentRewritten(x, walks);
    var p := Edit(x, walks).value;
    var before := ServicesOf(p.files, p.infraYml).value[INFRA_SERVICE];
    RewrittenMeans(INFRA_SERVICE, Mapping(x.infra), before, x.owner);
    HostsKeepOthers(p.files, p.infraYml, hostWalk(p.flow.hosts), d);
    SameMeans(x.infra, before.details, d, x.owner);
  }

  /** The predicates look at one section each. */
  lemma {:induction false} SameMeans(d: Details, d': Details, d'': Details, o: Owner)
    requires forall k :: k != ExtraHosts ==> Get(d'', k) == Get(d', k)
    ensures ModeMeans("networkproxy", d, d') ==> ModeMeans("networkproxy", d, d'')
    ensures NameMeans(d, d', o) ==> NameMeans(d, d'', o)
    ensures LabelsMean(d, d', o) ==> LabelsMean(d, d'', o)
    ensures EnvironmentMeans(d, d') ==> EnvironmentMeans(d, d'')
  {
    assert Get(d'', NetworkMode) == Get(d', NetworkMode) && Get(d'', ContainerName) == Get(d', ContainerName);
    assert Get(d'', Labels) == Get(d', Labels) && Get(d'', Environment) == Get(d', Environment);
  }

  lemma {:induction false} NoHostParts()
    ensures HostParts([]) == [] && Shapes([]) == []
  {}

  /** The ports the infra container publishes, unless it is removed: next to what was configured before, the host
      parts of its mapped entries are, in order, the offered ports used up by the services that give theirs
      away. These are exactly the first offered ports, one for each mapped entry of the pod, if and only if no
      service keeps ports for itself; and they are distinct when the offered ports are. Every entry keeps its
      container port, in the order of the services. This holds whatever that order is. */
  lemma {:induction false} InfraPublishesFirstPorts(x: Input, walks: Walks, hostWalk: HostWalk, preset: Option<bool>)
    returns (launch: Launch, d: Details)
    requires Fair(walks) && x.Valid() && Edit(x, walks).Done?
    requires !InfraGoes(x, walks, preset)
    ensures Launched(x, walks, hostWalk, preset) == Done(launch) && InfraIs(x, launch, d)
    ensures var jobs, ports, list := Jobs(x, walks), x.flow.ports, ListOf(d, PortsKey);
            var k := Needs(jobs, |jobs|);
            && k <= |ports|
            && HostParts(list) == CollectedHosts(x.flow.collected) + Decimals(HandedOut(jobs, |jobs|, ports))
            && (HandedOut(jobs, |jobs|, ports) == ports[..k] <==> forall i :: 0 <= i < |jobs| ==> !KeepsPorts(jobs[i]))
            && (x.flow.collected == None && Distinct(ports) ==> Distinct(HostParts(list)))
            && Shapes(list) == CollectedShapes(x.flow.collected) + AllGiven(jobs, |jobs|)
  {
    hide Edit, Pull, AllJobs, RunJobs, Contains, Renamed, Fair, ListOf, HostParts, InfraIs, Shapes, AllGiven;
    hide KeepsPorts, HandedOut, InfraGoes, Separate;
    var jobs := Jobs(x, walks);
    EditFlow(x, walks);
    launch, d := InfraKept(x, walks, hostWalk, preset);
    CollectedAreHandedOut(jobs, |jobs|, x.flow, x.owner);
    HandedOutIsFirstIff(jobs, |jobs|, x.flow.ports);
    CollectedInOrder(jobs, |jobs|, x.flow, x.owner);
    NoHostParts();
    if Distinct(x.flow.ports) {
      HandedOutDistinct(jobs, |jobs|, x.flow.ports);
      DecimalsDistinct(HandedOut(jobs, |jobs|, x.flow.ports));
    }
  }

  /** The extra hosts of the infra container: the union of those known before and all services' extra hosts,
      without duplicates. */
  lemma {:induction false} InfraKnowsAllHosts(x: Input, walks: Walks, hostWalk: HostWalk, preset: Option<bool>)
    returns (launch: Launch, d: Details)
    requires Fair(walks) && FairHosts(hostWalk) && x.Valid() && Edit(x, walks).Done?
    requires !InfraGoes(x, walks, preset)
    ensures Launched(x, walks, hostWalk, preset) == Done(launch) && InfraIs(x, launch, d)
    ensures Distinct(ListOf(d, ExtraHosts))
    ensures forall h :: h in ListOf(d, ExtraHosts)
                        <==> h in x.flow.hosts || NamedBySome(h, Jobs(x, walks), |Jobs(x, walks)|)
  {
    hide Edit, Pull, AllJobs, RunJobs, Contains, Renamed, Fair, ListOf, NamedBySome, InfraIs, InfraGoes, Separate;
    EditFlow(x, walks);
    launch, d := InfraKept(x, walks, hostWalk, preset);
    RunGathers(Jobs(x, walks), |Jobs(x, walks)|, x.flow, x.owner);
    var hosts := Edit(x, walks).value.flow.hosts;
    assert WalkOf(hosts, hostWalk(hosts));
  }

  // ---------------------------------------------------------------- the user's services in the files to launch

  lemma {:induction false} FinishKeeps(p: Progress, preset: Option<bool>, hosts: seq<Value>, file: string)
    requires Finish(p, preset, hosts).Done? && file != p.infraYml
    requires p.indexInfra < |p.edited| ==> p.edited[p.indexInfra] != file
    ensures ServicesOf(Finish(p, preset, hosts).value.files, file) == ServicesOf(p.files, file)
  {}

  /** Every service of every file of the user is found, rewritten, in the files to launch. */
  lemma {:induction false} UsersRewritten(x: Input, walks: Walks, hostWalk: HostWalk, preset: Option<bool>, i: nat)
    requires Fair(walks) && x.Valid() && Launched(x, walks, hostWalk, preset).Done? && i < |x.users|
    ensures FileRewritten(x.files, x.users[i], Launched(x, walks, hostWalk, preset).value.files, x.owner)
  {
    hide RunFiles, Pull, Contains, Renamed, Fair, FullyRewritten, Finish, EditedNames, Separate, SourceOf;
    var names, file := x.Names(), x.users[i];
    LaunchedIs(x, walks, hostWalk, preset);
    var p := Edit(x, walks).value;
    EveryServiceRewritten(names, |names|, x.Start(), walks, x.owner, i);
    UsersUntouched(x, i);
    InfraLast(x, walks);
    LastEdited(x, walks, p.indexInfra);
    if ServicesOf(x.files, file).Some? {
      InfraApart(x, i);
      FinishKeeps(p, preset, hostWalk(p.flow.hosts), Renamed(file));
    }
  }

  /** The entry that is dropped, if there is one, is the infra container's. */
  lemma {:induction false} LastEdited(x: Input, walks: Walks, n: nat)
    requires Fair(walks) && x.Valid() && Edit(x, walks).Done? && n == |x.users|
    ensures var edited := Edit(x, walks).value.edited; n < |edited| ==> edited[n] == Renamed(x.InfraFile())
  {
    hide RunFiles, Contains, Renamed, Fair, EditedNames, Separate, SourceOf;
    EditedList(x, walks);
    SomeSkipped(x.Names(), n, x.Start().files);
  }
}
