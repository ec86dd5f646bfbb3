/** The main results about the generated compose files. */
module ComposeResults {
  import opened PodTypes
  import opened Ports
  import opened ServiceEdit
  import opened ServiceMeaning
  import opened Strings
  import opened JobFlow
  import opened ComposeFiles
  import opened ComposeTheorems
  import opened Walk

  // ---------------------------------------------------------------- every service is rewritten

  /** What an edited service looks like, section by section; `s` is the service as it was written. */
  ghost predicate Rewritten(name: string, s: Service, s': Service, o: Owner) {
    && s.Mapping? && s'.Mapping?
    && (forall k :: k != PortsKey ==> Get(s'.details, k) == Dressed(name, s.details, o, k))
    && (name != INFRA_SERVICE && !OwnNetwork(s.details) ==> !ListAt(s'.details, PortsKey))
    && (name != INFRA_SERVICE && OwnNetwork(s.details) ==> Get(s'.details, PortsKey) == Get(s.details, PortsKey))
  }

  lemma {:induction false} ServiceRewritten(name: string, s: Service, f: Flow, o: Owner)
    requires EditService(name, s, f, o).Done?
    ensures Rewritten(name, s, EditService(name, s, f, o).value.0, o)
  {
    var edit := EditPorts(name, s.details, FlowIn(name, s.details, f)).value;
    var section := InfraPorts(name, edit).section;
    var d' := EditSections(name, s.details, o, section);
    hide EditSections, Dressed;
    forall k ensures Get(d', k) == if k == PortsKey then section else Dressed(name, s.details, o, k) {
      SectionsAre(name, s.details, o, section, k);
    }
    assert Get(d', PortsKey) == section;
  }

  /** Every service but the infra container's that is not on the host's network or on none joins infra's. */
  predicate ModeMeans(name: string, d: Details, d': Details) {
    Get(d', NetworkMode) == if name == "networkproxy" || OnHostOrNone(d) then Get(d, NetworkMode)
                            else Some(Str("service:networkproxy"))
  }

  /** A container name gets the task's in front, unless it starts with it; no name is made up. */
  predicate NameMeans(d: Details, d': Details, o: Owner) {
    Get(d', ContainerName)
    == match Get(d, ContainerName)
       case Some(Str(name)) => Some(Str(if o.taskId <= name then name else o.taskId + "_" + name))
       case other => other
  }

  /** The labels keep their form and their entries, and get the task's and the executor's id; what is neither a
      list nor a mapping is replaced. */
  predicate LabelsMean(d: Details, d': Details, o: Owner) {
    var ids := map["taskId" := Str(o.taskId), "executorId" := Str(o.executorId)];
    Get(d', Labels)
    == match Get(d, Labels)
       case Some(List(items)) =>
         Some(List(items + [Str("executorId=" + o.executorId), Str("taskId=" + o.taskId)]))
       case Some(Dict(entries)) => Some(Dict(entries + ids))
       case _ => Some(Dict(ids))
  }

  /** The environment likewise gets one entry. */
  predicate EnvironmentMeans(d: Details, d': Details) {
    Get(d', Environment)
    == match Get(d, Environment)
       case Some(List(items)) => Some(List(items + [Str("PYTHONUNBUFFERED=1")]))
       case Some(Dict(entries)) => Some(Dict(entries + map["PYTHONUNBUFFERED" := Num(1)]))
       case _ => Some(Dict(map["PYTHONUNBUFFERED" := Num(1)]))
  }

  lemma {:induction false} LabelsAre(name: string, d: Details, d': Details, o: Owner)
    requires Get(d', Labels) == Dressed(name, d, o, Labels)
    ensures LabelsMean(d, d', o)
  {
    assert "taskId" != "executorId" by { assert |"taskId"| != |"executorId"|; }
    var ids := map["taskId" := Str(o.taskId), "executorId" := Str(o.executorId)];
    if DictAt(d, Labels) {
      var entries := d[Labels].entries;
      assert entries["taskId" := Str(o.taskId)]["executorId" := Str(o.executorId)] == entries + ids;
    }
  }

  lemma {:induction false} EnvironmentIs(name: string, d: Details, d': Details, o: Owner)
    requires Get(d', Environment) == Dressed(name, d, o, Environment)
    ensures EnvironmentMeans(d, d')
  {
    if DictAt(d, Environment) {
      var entries := d[Environment].entries;
      assert entries["PYTHONUNBUFFERED" := Num(1)] == entries + map["PYTHONUNBUFFERED" := Num(1)];
    }
  }

  lemma {:induction false} ModeIs(name: string, d: Details, d': Details, o: Owner)
    requires Get(d', NetworkMode) == Dressed(name, d, o, NetworkMode)
    ensures ModeMeans(name, d, d')
  {
    ModesAre(name, d);
    assert BEHIND_INFRA == "service:networkproxy";
  }

  /** What the edits mean, section by section and for every form a section can take: the network mode, the name of
      the container, the ids in its labels and its environment as the predicates above say; no restart policy that
      is a string, no links and extra hosts that are lists; the task's cgroup as parent; behind infra no port list;
      and nothing else is changed. */
  lemma {:induction false} RewrittenMeans(name: string, s: Service, s': Service, o: Owner)
    requires Rewritten(name, s, s', o)
    ensures var d, d' := s.details, s'.details;
            && ModeMeans(name, d, d') && NameMeans(d, d', o) && LabelsMean(d, d', o) && EnvironmentMeans(d, d')
            && (name != "networkproxy" && !OnHostOrNone(d) ==> PortsKey !in d' || !d'[PortsKey].List?)
            && (name != "networkproxy" && OnHostOrNone(d) ==> Get(d', PortsKey) == Get(d, PortsKey))
            && Get(d', Restart) == (match Get(d, Restart) case Some(Str(_)) => None case other => other)
            && Get(d', Links) == (match Get(d, Links) case Some(List(_)) => None case other => other)
            && Get(d', ExtraHosts) == (match Get(d, ExtraHosts) case Some(List(_)) => None case other => other)
            && Get(d', CgroupParent) == Some(Str("/mesos/" + o.cgroup))
            && (forall k: string :: Get(d', Other(k)) == Get(d, Other(k)))
  {
    var d, d' := s.details, s'.details;
    assert Get(d', NetworkMode) == Dressed(name, d, o, NetworkMode);
    assert Get(d', Restart) == Dressed(name, d, o, Restart);
    assert Get(d', Links) == Dressed(name, d, o, Links);
    assert Get(d', ExtraHosts) == Dressed(name, d, o, ExtraHosts);
    assert Get(d', ContainerName) == Dressed(name, d, o, ContainerName);
    assert Get(d', CgroupParent) == Dressed(name, d, o, CgroupParent);
    assert Get(d', Environment) == Dressed(name, d, o, Environment);
    assert Get(d', Labels) == Dressed(name, d, o, Labels);
    ModeIs(name, d, d', o);
    LabelsAre(name, d, d', o);
    EnvironmentIs(name, d, d', o);
    ModesAre(name, d);
    hide LabelsMean, EnvironmentMeans, WithTags, WithPythonUnbuffered, ModeMeans, OwnNetwork, OnHostOrNone;
    forall k: string ensures Get(d', Other(k)) == Get(d, Other(k)) {
      assert Get(d', Other(k)) == Dressed(name, d, o, Other(k));
    }
  }

  /** Containers with different names end up with one name exactly if one of them already has the name that the
      other is given. */
  lemma {:induction false} NamesCollideIff(d1: Details, d1': Details, d2: Details, d2': Details, o: Owner)
    requires NameMeans(d1, d1', o) && NameMeans(d2, d2', o)
    requires ContainerName in d1 && d1[ContainerName].Str? && ContainerName in d2 && d2[ContainerName].Str?
    requires d1[ContainerName] != d2[ContainerName]
    ensures ContainerName in d1' && d1'[ContainerName].Str? && ContainerName in d2' && d2'[ContainerName].Str?
    ensures var a, b := d1[ContainerName].s, d2[ContainerName].s;
            d1'[ContainerName] == d2'[ContainerName]
            <==> || (!(o.taskId <= a) && b == o.taskId + "_" + a)
                 || (!(o.taskId <= b) && a == o.taskId + "_" + b)
  {
    var a, b := d1[ContainerName].s, d2[ContainerName].s;
    assert Get(d1, ContainerName) == Some(Str(a)) && Get(d2, ContainerName) == Some(Str(b));
    if !(o.taskId <= a) && !(o.taskId <= b) {
      assert (o.taskId + "_" + a)[|o.taskId| + 1..] == a;
      assert (o.taskId + "_" + b)[|o.taskId| + 1..] == b;
    }
  }

  ghost predicate AllRewritten(services: map<string, Service>, services': map<string, Service>, names: seq<string>,
                               o: Owner) {
    && services'.Keys == services.Keys
    && forall name :: name in names && name in services ==> Rewritten(name, services[name], services'[name], o)
  }

  lemma {:induction false} OneMoreRewritten(services: map<string, Service>, done: map<string, Service>,
                                            names: seq<string>, name: string, s: Service, o: Owner)
    requires AllRewritten(services, done, names, o) && name in services && Rewritten(name, services[name], s, o)
    ensures AllRewritten(services, done[name := s], names + [name], o)
  {
    hide Rewritten;
  }

  lemma {:induction false} ServicesRewritten(services: map<string, Service>, order: seq<string>, n: nat, f: Flow,
                                             o: Owner)
    requires Within(order, services) && n <= |order| && EditServices(services, order, n, f, o).Done?
    ensures AllRewritten(services, EditServices(services, order, n, f, o).value.0, order[..n], o)
  {
    if n == 0 {
    } else {
      hide Rewritten, EditService, AllRewritten;
      var (done, before) := EditServices(services, order, n - 1, f, o).value;
      var name := order[n - 1];
      ServicesRewritten(services, order, n - 1, f, o);
      ServiceRewritten(name, services[name], before, o);
      assert order[..n] == order[..n - 1] + [name];
      OneMoreRewritten(services, done, order[..n - 1], name, EditService(name, services[name], before, o).value.0, o);
    }
  }

  /** The file is found under its generated name, with the same services, each of them rewritten. */
  ghost predicate FileRewritten(files: Files, file: string, files': Files, o: Owner) {
    ServicesOf(files, file).Some?
    ==> && ServicesOf(files', Renamed(file)).Some?
        && FullyRewritten(ServicesOf(files, file).value, ServicesOf(files', Renamed(file)).value, o)
  }

  ghost predicate FullyRewritten(services: map<string, Service>, services': map<string, Service>, o: Owner) {
    && services'.Keys == services.Keys
    && forall name :: name in services ==> Rewritten(name, services[name], services'[name], o)
  }

  lemma {:induction false} WalkRewritten(services: map<string, Service>, order: seq<string>, f: Flow, o: Owner)
    requires Within(order, services) && WalkOf(services.Keys, order)
    requires EditServices(services, order, |order|, f, o).Done?
    ensures FullyRewritten(services, EditServices(services, order, |order|, f, o).value.0, o)
  {
    hide Rewritten, EditService, EditServices;
    ServicesRewritten(services, order, |order|, f, o);
    assert order[..|order|] == order;
  }

  /** After the loop every service of every file has been rewritten, whatever the order of the services. */
  lemma {:induction false} EveryServiceRewritten(names: seq<string>, i: nat, start: Progress, walks: Walks, o: Owner,
                                                 j: nat)
    requires Fair(walks) && j < i <= |names| && Separate(names, start.files)
    requires RunFiles(names, i, start, walks, o).Done?
    ensures FileRewritten(start.files, names[j], RunFiles(names, i, start, walks, o).value.files, o)
  {
    hide RunFiles, EditFile, EditServices, OrderAt, Contains, Renamed, WalkOf, Fair, FullyRewritten, Separate;
    RunOneMore(names, i, start, walks, o);
    SourceNow(names, i - 1, start, walks, o);
    var p, file := RunFiles(names, i - 1, start, walks, o).value, names[i - 1];
    var order := OrderAt(p, file, i - 1, walks);
    EditFileIs(p.files, file, order, p.flow, o);
    if file in names[..i - 1] {
      var k: nat :| k < i - 1 && names[k] == file;
      EveryServiceRewritten(names, i - 1, start, walks, o, if j < i - 1 then j else k);
    } else if j == i - 1 {
      if ServicesOf(p.files, file).Some? {
        WalkRewritten(ServicesOf(p.files, file).value, order, p.flow, o);
      }
    } else {
      EveryServiceRewritten(names, i - 1, start, walks, o, j);
      if ServicesOf(p.files, file).Some? && ServicesOf(start.files, names[j]).Some? {
        NoClash(names, start.files, i - 1, j);
        NoClash(names, start.files, j, i - 1);
        RenamedDiffer(file, names[j]);
      }
    }
  }

  lemma {:induction false} RenamedDiffer(a: string, b: string)
    ensures a != b && Renamed(a) != b && Renamed(b) != a ==> Renamed(a) != Renamed(b)
  {
    hide Renamed;
    if Renamed(a) == Renamed(b) { RenamedSame(a, b); }
  }

  // ---------------------------------------------------------------- the services of all files as one list

  ghost function FileJobs(source: Option<map<string, Service>>, i: nat, walks: Walks): seq<Job>
    requires Fair(walks)
  {
    match source
    case None => []
    case Some(services) => WalkJobs(services, walks(i, services.Keys))
  }

  ghost function WalkJobs(services: map<string, Service>, order: seq<string>): (jobs: seq<Job>)
    requires WalkOf(services.Keys, order)
    ensures Within(order, services) && jobs == JobsOf(services, order)
  {
    JobsOf(services, order)
  }

  /** The services of the first `i` files in the order in which they are edited. */
  ghost function AllJobs(names: seq<string>, i: nat, files: Files, walks: Walks): seq<Job>
    requires Fair(walks) && i <= |names|
  {
    if i == 0 then []
    else AllJobs(names, i - 1, files, walks) + FileJobs(SourceOf(names, i - 1, files), i - 1, walks)
  }

  function FlowAfter(e: Edited<(map<string, Service>, Flow)>): Edited<Flow> {
    match e
    case Done((_, f)) => Done(f)
    case NoPortsAvailable => NoPortsAvailable
    case Panic => Panic
  }

  lemma {:induction false} ServicesFlow(services: map<string, Service>, order: seq<string>, n: nat, f: Flow, o: Owner)
    requires Within(order, services) && n <= |order|
    ensures FlowAfter(EditServices(services, order, n, f, o)) == RunJobs(JobsOf(services, order), n, f, o)
  {
    if n == 0 {
    } else {
      hide EditService;
      ServicesFlow(services, order, n - 1, f, o);
      assert JobsOf(services, order)[n - 1] == Job(order[n - 1], services[order[n - 1]]);
    }
  }

  function ProgressFlow(e: Edited<Progress>): Edited<Flow> {
    match e
    case Done(p) => Done(p.flow)
    case NoPortsAvailable => NoPortsAvailable
    case Panic => Panic
  }

  function Then(e: Edited<Flow>, jobs: seq<Job>, o: Owner): Edited<Flow> {
    match e
    case Done(f) => RunJobs(jobs, |jobs|, f, o)
    case NoPortsAvailable => NoPortsAvailable
    case Panic => Panic
  }

  lemma {:induction false} NoJobs(jobs: seq<Job>, f: Flow, o: Owner)
    ensures RunJobs(jobs, 0, f, o) == Done(f)
  {}

  lemma {:induction false} RunPrefix(a: seq<Job>, b: seq<Job>, n: nat, f: Flow, o: Owner)
    requires n <= |a|
    ensures RunJobs(a + b, n, f, o) == RunJobs(a, n, f, o)
  {
    hide *;
    if n == 0 {
      NoJobs(a + b, f, o);
      NoJobs(a, f, o);
    } else {
      RunPrefix(a, b, n - 1, f, o);
      RunOne(a + b, n - 1, f, o);
      RunOne(a, n - 1, f, o);
      assert (a + b)[n - 1] == a[n - 1];
    }
  }

  lemma {:induction false} RunAppend(a: seq<Job>, b: seq<Job>, n: nat, f: Flow, o: Owner)
    requires n <= |b|
    ensures RunJobs(a + b, |a| + n, f, o) == match RunJobs(a, |a|, f, o)
                                             case Done(f') => RunJobs(b, n, f', o)
                                             case NoPortsAvailable => NoPortsAvailable
                                             case Panic => Panic
  {
    hide RunJobs, EditService, FlowOf;
    var before := RunJobs(a, |a|, f, o);
    if n == 0 {
      RunPrefix(a, b, |a|, f, o);
      if before.Done? { NoJobs(b, before.value, o); }
    } else {
      RunAppend(a, b, n - 1, f, o);
      RunOne(a + b, |a| + n - 1, f, o);
      if before.Done? { RunOne(b, n - 1, before.value, o); }
      assert (a + b)[|a| + n - 1] == b[n - 1];
    }
  }

  lemma {:induction false} FileFlow(files: Files, file: string, order: seq<string>, f: Flow, o: Owner)
    requires ServicesOf(files, file).Some?
    requires Within(order, ServicesOf(files, file).value)
    ensures var jobs := JobsOf(ServicesOf(files, file).value, order);
            match EditFile(files, file, order, f, o)
            case Done(e) => RunJobs(jobs, |jobs|, f, o) == Done(e.flow)
            case NoPortsAvailable => RunJobs(jobs, |jobs|, f, o) == NoPortsAvailable
            case Panic => RunJobs(jobs, |jobs|, f, o) == Panic
  {
    hide EditServices, RunJobs;
    ServicesFlow(ServicesOf(files, file).value, order, |order|, f, o);
  }

  lemma {:induction false} NextFlow(p: Progress, file: string, i: nat, walks: Walks, o: Owner)
    requires Fair(walks)
    ensures ProgressFlow(NextFile(p, file, i, walks, o))
            == Then(Done(p.flow), FileJobs(ServicesOf(p.files, file), i, walks), o)
  {
    hide EditServices, Contains;
    if ServicesOf(p.files, file).Some? {
      OrderWithin(p, file, i, walks);
      FileFlow(p.files, file, OrderAt(p, file, i, walks), p.flow, o);
    }
  }

  /** The files are edited as the list of all their services is. */
  lemma {:induction false} FilesFlow(names: seq<string>, i: nat, start: Progress, walks: Walks, o: Owner)
    requires Fair(walks) && i <= |names| && Separate(names, start.files)
    ensures var jobs := AllJobs(names, i, start.files, walks);
            ProgressFlow(RunFiles(names, i, start, walks, o)) == RunJobs(jobs, |jobs|, start.flow, o)
  {
    hide RunJobs, FileJobs, Fair, Separate, NextFile, SourceOf;
    if i == 0 {
      NoJobs([], start.flow, o);
    } else {
      FilesFlow(names, i - 1, start, walks, o);
      var before := RunFiles(names, i - 1, start, walks, o);
      var jobs := FileJobs(SourceOf(names, i - 1, start.files), i - 1, walks);
      RunAppend(AllJobs(names, i - 1, start.files, walks), jobs, |jobs|, start.flow, o);
      if before.Done? {
        SourceNow(names, i - 1, start, walks, o);
        NextFlow(before.value, names[i - 1], i - 1, walks, o);
      }
    }
  }
}
