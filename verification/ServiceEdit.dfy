/** What the general plugin does to one service of a compose file: `updateServiceSessions` of
    pluginimpl/general/editor.go. */
module ServiceEdit {
  import opened PodTypes
  import opened Ports
  import opened Strings

  const BEHIND_INFRA := "service:networkproxy"

  /** The sections of a service that the plugin looks at, and any other. */
  datatype Key = NetworkMode | PortsKey | Labels | ExtraHosts | Environment | ContainerName | Links | Restart
               | CgroupParent | Other(name: string)

  type Details = map<Key, Value>

  /** A service is a mapping, or something else that the plugin cannot edit. */
  datatype Service = Mapping(details: Details) | NotAMapping

  /** Who the pod belongs to. */
  datatype Owner = Owner(taskId: string, executorId: string, cgroup: string)

  /** What passes from service to service: the ports not yet assigned, the port list collected for the infra
      container, the extra hosts collected, whether some service asked for the infra container to go, and
      whether an entry without a host port was seen. */
  datatype Flow = Flow(ports: seq<nat>, collected: Option<seq<Value>>, hosts: set<Value>, dropInfra: bool, single: bool)

  datatype Edited<+T> = Done(value: T) | NoPortsAvailable | Panic

  predicate StrAt(d: Details, k: Key) {
    k in d && d[k].Str?
  }

  predicate ListAt(d: Details, k: Key) {
    k in d && d[k].List?
  }

  predicate DictAt(d: Details, k: Key) {
    k in d && d[k].Dict?
  }

  /** The modes that keep a service out of the infra container's network. */
  predicate OwnNetwork(d: Details) {
    StrAt(d, NetworkMode) && (d[NetworkMode].s == "host" || d[NetworkMode].s == "none")
  }

  // ---------------------------------------------------------------- section by section

  function PrefixTaskId(taskId: string, name: string): (r: string)
    ensures taskId <= r
    ensures r == name || r == taskId + "_" + name
  {
    if taskId <= name then name else taskId + "_" + name
  }

  lemma {:induction false} PrefixOnce(taskId: string, name: string)
    ensures PrefixTaskId(taskId, PrefixTaskId(taskId, name)) == PrefixTaskId(taskId, name)
  {}

  function WithPythonUnbuffered(d: Details): Value {
    if ListAt(d, Environment) then List(d[Environment].items + [Str("PYTHONUNBUFFERED=1")])
    else Dict((if DictAt(d, Environment) then d[Environment].entries else map[])["PYTHONUNBUFFERED" := Num(1)])
  }

  function WithTags(d: Details, o: Owner): Value {
    if ListAt(d, Labels)
    then List(d[Labels].items + [Str("executorId=" + o.executorId), Str("taskId=" + o.taskId)])
    else
      var entries := if DictAt(d, Labels) then d[Labels].entries else map[];
      Dict(entries["taskId" := Str(o.taskId)]["executorId" := Str(o.executorId)])
  }

  /** The section `k` of an edited service, all but its ports. */
  function Dressed(name: string, d: Details, o: Owner, k: Key): Option<Value> {
    match k
    case Restart => if StrAt(d, Restart) then None else Get(d, k)
    case ExtraHosts => if ListAt(d, ExtraHosts) then None else Get(d, k)
    case Environment => Some(WithPythonUnbuffered(d))
    case NetworkMode => if name == INFRA_SERVICE || OwnNetwork(d) then Get(d, k) else Some(Str(BEHIND_INFRA))
    case ContainerName => if StrAt(d, k) then Some(Str(PrefixTaskId(o.taskId, d[k].s))) else Get(d, k)
    case Links => if ListAt(d, Links) then None else Get(d, k)
    case Labels => Some(WithTags(d, o))
    case CgroupParent => Some(Str("/mesos/" + o.cgroup))
    case _ => Get(d, k)
  }

  function Get(d: Details, k: Key): Option<Value> {
    if k in d then Some(d[k]) else None
  }

  function Put(d: Details, k: Key, v: Option<Value>): Details {
    match v
    case Some(value) => d[k := value]
    case None => d - {k}
  }

  function PutDressed(d': Details, name: string, d: Details, o: Owner, k: Key): Details {
    Put(d', k, Dressed(name, d, o, k))
  }

  /** Go panics on a map key that cannot be hashed. */
  predicate Hashable(v: Value) {
    !v.List? && !v.Dict?
  }

  predicate HostsHashable(d: Details) {
    ListAt(d, ExtraHosts) ==> forall v :: v in d[ExtraHosts].items ==> Hashable(v)
  }

  function HostsIn(d: Details): set<Value> {
    if ListAt(d, ExtraHosts) then set v | v in d[ExtraHosts].items else {}
  }

  // ---------------------------------------------------------------- ports

  /** Which services have their ports mapped: those behind the infra container, and an infra container
      that names a network mode of its own. */
  predicate TakesPorts(name: string, d: Details) {
    if name == INFRA_SERVICE then StrAt(d, NetworkMode) && !OwnNetwork(d) else !OwnNetwork(d)
  }

  /** A service whose network is another's gives its ports away. */
  predicate GivesPorts(name: string, d: Details) {
    TakesPorts(name, d) && (name == INFRA_SERVICE ==> Contains(d[NetworkMode].s, "service:"))
  }

  /** The entries of a service that need a port. */
  function Demand(name: string, d: Details): nat {
    if TakesPorts(name, d) && ListAt(d, PortsKey) then CountMapped(d[PortsKey].items, |d[PortsKey].items|) else 0
  }

  /** The ports section and the flow after one service. */
  datatype PortEdit = PortEdit(section: Option<Value>, flow: Flow)

  function Collect(collected: Option<seq<Value>>, list: seq<Value>): seq<Value> {
    match collected case None => list case Some(before) => before + list
  }

  function EditPorts(name: string, d: Details, f: Flow): Edited<PortEdit> {
    if !TakesPorts(name, d) || !ListAt(d, PortsKey) then Done(PortEdit(Get(d, PortsKey), f))
    else
      var list := d[PortsKey].items;
      match Assign(list, f.ports, |list|)
      case NoPorts => NoPortsAvailable
      case Panicked => Panic
      case Assigned(list', ports') =>
        var single := f.single || exists i :: 0 <= i < |list| && !Mapped(list[i]);
        if GivesPorts(name, d)
        then Done(PortEdit(None, f.(ports := ports', collected := Some(Collect(f.collected, list')), single := single)))
        else Done(PortEdit(Some(List(list')), f.(ports := ports', single := single)))
  }

  /** The infra container receives the list collected so far. */
  function InfraPorts(name: string, e: PortEdit): PortEdit {
    if name == INFRA_SERVICE && e.flow.collected.Some? then e.(section := Some(List(e.flow.collected.value))) else e
  }

  /** The flow that reaches the ports of the service. */
  function FlowIn(name: string, d: Details, f: Flow): Flow {
    f.(hosts := f.hosts + HostsIn(d), dropInfra := f.dropInfra || (name != INFRA_SERVICE && OwnNetwork(d)))
  }

  predicate Editable(s: Service) {
    s.Mapping? && HostsHashable(s.details)
  }

  const EDITED: seq<Key> := [Restart, ExtraHosts, Environment, NetworkMode, ContainerName, Links, Labels, CgroupParent]

  /** The sections in `keys` edited. */
  function DressAll(name: string, d: Details, o: Owner, keys: seq<Key>): Details {
    if keys == [] then d
    else PutDressed(DressAll(name, d, o, keys[..|keys| - 1]), name, d, o, keys[|keys| - 1])
  }

  lemma {:induction false} DressAllGets(name: string, d: Details, o: Owner, keys: seq<Key>, k: Key)
    ensures Get(DressAll(name, d, o, keys), k) == if k in keys then Dressed(name, d, o, k) else Get(d, k)
  {
    if keys == [] {
    } else {
      hide Dressed;
      DressAllGets(name, d, o, keys[..|keys| - 1], k);
    }
  }

  /** The edited service, given its ports section. */
  function EditSections(name: string, d: Details, o: Owner, ports: Option<Value>): Details {
    Put(DressAll(name, d, o, EDITED), PortsKey, ports)
  }

  lemma {:induction false} SectionsAre(name: string, d: Details, o: Owner, ports: Option<Value>, k: Key)
    ensures Get(EditSections(name, d, o, ports), k) == if k == PortsKey then ports else Dressed(name, d, o, k)
  {
    hide DressAll;
    DressAllGets(name, d, o, EDITED, k);
  }

  lemma {:induction false} SameSections(d: Details, d': Details)
    requires forall k :: Get(d, k) == Get(d', k)
    ensures d == d'
  {
    forall k ensures k in d <==> k in d' {
      assert Get(d, k) == Get(d', k);
    }
    forall k | k in d ensures d[k] == d'[k] {
      assert Get(d, k) == Get(d', k);
    }
  }

  type EditedService = Edited<(Service, Flow)>

  function EditService(name: string, s: Service, f: Flow, o: Owner): EditedService {
    if !Editable(s) then Panic
    else
      match EditPorts(name, s.details, FlowIn(name, s.details, f))
      case NoPortsAvailable => NoPortsAvailable
      case Panic => Panic
      case Done(edit) =>
        var last := InfraPorts(name, edit);
        Done((Mapping(EditSections(name, s.details, o, last.section)), last.flow))
  }
}
