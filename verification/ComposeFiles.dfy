/** Editing the compose files of a pod, one after the other: `editComposeFile` of pluginimpl/general/editor.go
    and `LaunchTaskPreImagePull` of pluginimpl/general/impl.go, as functions of the parsed files. */
module ComposeFiles {
  import opened PodTypes
  import opened Ports
  import opened ServiceEdit
  import opened Strings
  import opened JobFlow
  import opened Walk

  /** A parsed file: its services, if it has such a section and the section is a mapping. */
  datatype Doc = NoServices | Services(services: map<string, Service>)

  type Files = map<string, Doc>

  const POSTFIX := "-generated.yml"
  const INFRA_YML := "docker-infra-container.yml"
  const INFRA_GEN_YML := "docker-infra-container.yml-generated.yml"

  /** The orders in which Go walks the services of the `i`-th file. */
  type Walks = (nat, set<string>) -> seq<string>

  ghost predicate Fair(walks: Walks) {
    forall i, keys :: WalkOf(keys, walks(i, keys))
  }

  function ServicesOf(files: Files, file: string): Option<map<string, Service>> {
    if file in files && files[file].Services? then Some(files[file].services) else None
  }

  function Renamed(file: string): string {
    if Contains(file, POSTFIX) then file else file + POSTFIX
  }

  ghost predicate Within(order: seq<string>, services: map<string, Service>) {
    forall k :: k in order ==> k in services
  }

  ghost function JobsOf(services: map<string, Service>, order: seq<string>): (jobs: seq<Job>)
    requires Within(order, services)
    ensures |jobs| == |order|
    ensures forall i :: 0 <= i < |jobs| ==> jobs[i] == Job(order[i], services[order[i]])
  {
    seq(|order|, i requires 0 <= i < |order| => Job(order[i], services[order[i]]))
  }

  /** The first `n` services of a file edited. */
  ghost function EditServices(services: map<string, Service>, order: seq<string>, n: nat, f: Flow, o: Owner)
    : Edited<(map<string, Service>, Flow)>
    requires Within(order, services) && n <= |order|
  {
    if n == 0 then Done((services, f))
    else
      match EditServices(services, order, n - 1, f, o)
      case NoPortsAvailable => NoPortsAvailable
      case Panic => Panic
      case Done((done, before)) =>
        match EditService(order[n - 1], services[order[n - 1]], before, o)
        case NoPortsAvailable => NoPortsAvailable
        case Panic => Panic
        case Done((s, after)) => Done((done[order[n - 1] := s], after))
  }

  /** The files, the flow, and the name to launch the file under; no name if it was skipped. */
  datatype FileEdit = FileEdit(files: Files, flow: Flow, name: string)

  ghost function EditFile(files: Files, file: string, order: seq<string>, f: Flow, o: Owner): Edited<FileEdit>
    requires ServicesOf(files, file).Some? ==> Within(order, ServicesOf(files, file).value)
  {
    match ServicesOf(files, file)
    case None => Done(FileEdit(files, f, ""))
    case Some(services) =>
      match EditServices(services, order, |order|, f, o)
      case NoPortsAvailable => NoPortsAvailable
      case Panic => Panic
      case Done((services', f')) =>
        Done(FileEdit((files - {file})[Renamed(file) := Services(services')], f', Renamed(file)))
  }

  /** The loop over the files: what has been edited, and where the infra container's file was seen. */
  datatype Progress = Progress(files: Files, flow: Flow, edited: seq<string>, indexInfra: nat, infraYml: string)

  ghost function OrderAt(p: Progress, file: string, i: nat, walks: Walks): seq<string> {
    match ServicesOf(p.files, file)
    case None => []
    case Some(services) => walks(i, services.Keys)
  }

  lemma {:induction false} OrderWithin(p: Progress, file: string, i: nat, walks: Walks)
    requires Fair(walks) && ServicesOf(p.files, file).Some?
    ensures Within(OrderAt(p, file, i, walks), ServicesOf(p.files, file).value)
    ensures WalkOf(ServicesOf(p.files, file).value.Keys, OrderAt(p, file, i, walks))
  {}

  function Note(p: Progress, e: FileEdit, i: nat): Progress {
    Progress(e.files, e.flow,
             if e.name == "" then p.edited else p.edited + [e.name],
             if Contains(e.name, INFRA_GEN_YML) then i else p.indexInfra,
             if Contains(e.name, INFRA_GEN_YML) then e.name else p.infraYml)
  }

  ghost function NextFile(p: Progress, file: string, i: nat, walks: Walks, o: Owner): Edited<Progress>
    requires Fair(walks)
  {
    match EditFile(p.files, file, OrderAt(p, file, i, walks), p.flow, o)
    case NoPortsAvailable => NoPortsAvailable
    case Panic => Panic
    case Done(e) => Done(Note(p, e, i))
  }

  /** The first `i` files edited. */
  ghost function RunFiles(names: seq<string>, i: nat, start: Progress, walks: Walks, o: Owner): Edited<Progress>
    requires Fair(walks) && i <= |names|
  {
    if i == 0 then Done(start)
    else
      match RunFiles(names, i - 1, start, walks, o)
      case NoPortsAvailable => NoPortsAvailable
      case Panic => Panic
      case Done(p) => NextFile(p, names[i - 1], i - 1, walks, o)
  }

  /** The service that all others share the network of. */
  function WithExtraHosts(files: Files, file: string, hosts: seq<Value>): Files {
    match ServicesOf(files, file)
    case None => files
    case Some(services) =>
      if INFRA_SERVICE !in services || services[INFRA_SERVICE].NotAMapping? || hosts == [] then files
      else
        var details := services[INFRA_SERVICE].details[ExtraHosts := List(hosts)];
        files[file := Services(services[INFRA_SERVICE := Mapping(details)])]
  }

  datatype Launch = Launch(files: Files, edited: seq<string>)

  function Drops(preset: Option<bool>, dropInfra: bool): bool {
    match preset case Some(b) => b case None => dropInfra
  }

  /** After the loop: the infra container's file is dropped, by an index into the list of all files that is
      used on the list of edited ones, or it gets the extra hosts, in whatever order Go walks them. */
  function Finish(p: Progress, preset: Option<bool>, hosts: seq<Value>): Edited<Launch> {
    if Drops(preset, p.flow.dropInfra) then
      if p.indexInfra >= |p.edited| then Panic
      else Done(Launch(p.files - {p.edited[p.indexInfra]},
                       p.edited[..p.indexInfra] + p.edited[p.indexInfra + 1..]))
    else Done(Launch(WithExtraHosts(p.files, p.infraYml, hosts), p.edited))
  }

  type HostWalk = set<Value> -> seq<Value>

  ghost predicate FairHosts(hostWalk: HostWalk) {
    forall hosts :: WalkOf(hosts, hostWalk(hosts))
  }

  /** The infra container's service as the plugin writes it; it names no network mode. */
  function InfraDetails(containerName: string, image: string, networks: Option<Value>): Details {
    var d := map[ContainerName := Str(containerName), Other("image") := Str(image)];
    match networks case None => d case Some(n) => d[Other("networks") := n]
  }

  function WithInfra(files: Files, infraFile: string, infra: Details): Files {
    files[infraFile := Services(map[INFRA_SERVICE := Mapping(infra)])]
  }

  /** The whole of `LaunchTaskPreImagePull`, given the parsed files and the flow it starts with. */
  ghost function Pull(files: Files, names: seq<string>, infraFile: string, infra: Details, f: Flow, infraYml: string,
                      walks: Walks, hostWalk: HostWalk, o: Owner, preset: Option<bool>): Edited<Launch>
    requires Fair(walks)
  {
    var all := names + [infraFile];
    match RunFiles(all, |all|, Progress(WithInfra(files, infraFile, infra), f, [], 0, infraYml), walks, o)
    case NoPortsAvailable => NoPortsAvailable
    case Panic => Panic
    case Done(p) => Finish(p, preset, hostWalk(p.flow.hosts))
  }
}
