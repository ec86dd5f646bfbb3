/** The plugin's edits as they run: the service's sections, the collected port list and the extra hosts are
    changed step by step (pluginimpl/general/editor.go). */
module ComposeEditor {
  import opened PodTypes
  import opened Ports
  import opened ServiceEdit
  import opened Strings

  // ---------------------------------------------------------------- the value-level steps

  lemma {:induction false} SameSection(name: string, d: Details, d': Details, o: Owner, k: Key)
    requires Get(d, k) == Get(d', k)
    ensures Dressed(name, d, o, k) == Dressed(name, d', o, k)
  {}

  /** The next section is edited as it would be in the untouched service. */
  lemma {:induction false} NextSection(name: string, d: Details, o: Owner, i: nat, d': Details)
    requires i < |EDITED| && d' == DressAll(name, d, o, EDITED[..i])
    ensures PutDressed(d', name, d', o, EDITED[i]) == DressAll(name, d, o, EDITED[..i + 1])
  {
    hide Dressed, DressAll;
    DressAllGets(name, d, o, EDITED[..i], EDITED[i]);
    NotYet(i);
    SameSection(name, d, d', o, EDITED[i]);
    DressAllSnoc(name, d, o, i);
  }

  lemma {:induction false} NotYet(i: nat)
    requires i < |EDITED|
    ensures EDITED[i] !in EDITED[..i]
  {}

  lemma {:induction false} DressAllSnoc(name: string, d: Details, o: Owner, i: nat)
    requires i < |EDITED|
    ensures DressAll(name, d, o, EDITED[..i + 1])
            == PutDressed(DressAll(name, d, o, EDITED[..i]), name, d, o, EDITED[i])
  {
    hide Dressed, PutDressed;
    assert EDITED[..i + 1][..i] == EDITED[..i];
  }

  /** What the ports code finds in the service it edits. */
  lemma {:induction false} AfterDressing(name: string, d: Details, o: Owner, d': Details)
    requires d' == DressAll(name, d, o, EDITED)
    ensures Get(d', PortsKey) == Get(d, PortsKey)
    ensures StrAt(d', NetworkMode) && !OwnNetwork(d') <==> TakesPorts(name, d)
    ensures TakesPorts(name, d) ==> (Contains(d'[NetworkMode].s, "service:") <==> GivesPorts(name, d))
  {
    hide DressAll;
    DressAllGets(name, d, o, EDITED, PortsKey);
    DressAllGets(name, d, o, EDITED, NetworkMode);
    assert Get(d', NetworkMode) == Dressed(name, d, o, NetworkMode);
    assert "service:" <= BEHIND_INFRA[0..];
    assert Contains(BEHIND_INFRA, "service:");
  }

  lemma {:induction false} PortsThenInfra(name: string, d: Details, o: Owner, d': Details, section: Option<Value>)
    requires d' == DressAll(name, d, o, EDITED)
    ensures Put(d', PortsKey, section) == EditSections(name, d, o, section)
  {}

  lemma {:induction false} PutBack(d: Details, section: Option<Value>, section': Option<Value>)
    ensures Put(Put(d, PortsKey, section), PortsKey, section') == Put(d, PortsKey, section')
    ensures Put(d, PortsKey, Get(d, PortsKey)) == d
  {
    SameSections(Put(Put(d, PortsKey, section), PortsKey, section'), Put(d, PortsKey, section'));
    SameSections(Put(d, PortsKey, Get(d, PortsKey)), d);
  }

  // ---------------------------------------------------------------- one section at a time

  method RemoveRestart(name: string, o: Owner, d: Details) returns (d': Details)
    ensures d' == PutDressed(d, name, d, o, Restart)
  {
    d' := d;
    if Restart in d && d[Restart].Str? {
      d' := d - {Restart};
    }
    SameSections(d', PutDressed(d, name, d, o, Restart));
  }

  method SetEnvironment(name: string, o: Owner, d: Details) returns (d': Details)
    ensures d' == PutDressed(d, name, d, o, Environment)
  {
    if Environment in d && d[Environment].List? {
      d' := d[Environment := List(d[Environment].items + [Str("PYTHONUNBUFFERED=1")])];
    } else {
      var envMap := map[];
      if Environment in d && d[Environment].Dict? {
        envMap := d[Environment].entries;
      }
      d' := d[Environment := Dict(envMap["PYTHONUNBUFFERED" := Num(1)])];
    }
  }

  method SetContainerName(name: string, o: Owner, d: Details) returns (d': Details)
    ensures d' == PutDressed(d, name, d, o, ContainerName)
  {
    d' := d;
    if ContainerName in d && d[ContainerName].Str? {
      d' := d[ContainerName := Str(PrefixTaskId(o.taskId, d[ContainerName].s))];
    }
    SameSections(d', PutDressed(d, name, d, o, ContainerName));
  }

  method RemoveLinks(name: string, o: Owner, d: Details) returns (d': Details)
    ensures d' == PutDressed(d, name, d, o, Links)
  {
    d' := d;
    if Links in d && d[Links].List? {
      d' := d - {Links};
    }
    SameSections(d', PutDressed(d, name, d, o, Links));
  }

  method SetLabels(name: string, o: Owner, d: Details) returns (d': Details)
    ensures d' == PutDressed(d, name, d, o, Labels)
  {
    if Labels in d && d[Labels].Dict? {
      var labels := d[Labels].entries;
      labels := labels["taskId" := Str(o.taskId)];
      labels := labels["executorId" := Str(o.executorId)];
      d' := d[Labels := Dict(labels)];
    } else if Labels in d && d[Labels].List? {
      var labels := d[Labels].items;
      labels := labels + [Str("executorId=" + o.executorId)];
      labels := labels + [Str("taskId=" + o.taskId)];
      assert labels == d[Labels].items + [Str("executorId=" + o.executorId), Str("taskId=" + o.taskId)];
      d' := d[Labels := List(labels)];
    } else {
      d' := d[Labels := Dict(map[]["taskId" := Str(o.taskId)]["executorId" := Str(o.executorId)])];
    }
  }

  class Editor {
    var collected: Option<seq<Value>>   // the "ports" setting, while it is being collected
    var rmInfraDefault: bool            // the default of the setting that removes the infra container
    var singlePort: bool
    var extraHosts: set<Value>

    constructor (collected: Option<seq<Value>>)
      ensures FlowAt([]) == Flow([], collected, {}, false, false)
    {
      this.collected, rmInfraDefault, singlePort, extraHosts := collected, false, false, {};
    }

    /** Everything that passes from service to service, with the port cursor. */
    function FlowAt(ports: seq<nat>): Flow
      reads this
    {
      Flow(ports, collected, extraHosts, rmInfraDefault, singlePort)
    }

    /** Extra hosts move from the service to the collection. */
    method ScanForExtraHosts(name: string, o: Owner, d: Details) returns (ok: bool, d': Details)
      modifies this`extraHosts
      ensures ok <==> HostsHashable(d)
      ensures ok ==> d' == PutDressed(d, name, d, o, ExtraHosts) && extraHosts == old(extraHosts) + HostsIn(d)
    {
      ok, d' := true, d;
      if ExtraHosts in d && d[ExtraHosts].List? {
        var val := d[ExtraHosts].items;
        for i := 0 to |val|
          invariant extraHosts == old(extraHosts) + set v | v in val[..i]
          invariant forall v :: v in val[..i] ==> Hashable(v)
        {
          assert val[..i + 1] == val[..i] + [val[i]];
          if val[i].List? || val[i].Dict? {
            assert val[i] in d[ExtraHosts].items;
            return false, d;
          }
          extraHosts := extraHosts + {val[i]};
        }
        assert val[..|val|] == val;
        d' := d - {ExtraHosts};
      }
      SameSections(d', PutDressed(d, name, d, o, ExtraHosts));
    }

    /** A service not on the host's network, or on none, joins the infra container's. */
    method SetNetworkMode(name: string, o: Owner, d: Details) returns (d': Details)
      modifies this`rmInfraDefault
      ensures d' == PutDressed(d, name, d, o, NetworkMode)
      ensures rmInfraDefault == (old(rmInfraDefault) || (name != INFRA_SERVICE && OwnNetwork(d)))
    {
      d' := d;
      if name != INFRA_SERVICE {
        if !(NetworkMode in d && d[NetworkMode].Str?) || (d[NetworkMode].s != "host" && d[NetworkMode].s != "none") {
          assert "service:" + INFRA_SERVICE == BEHIND_INFRA;
          d' := d[NetworkMode := Str("service:" + INFRA_SERVICE)];
        } else {
          rmInfraDefault := true;
        }
      }
      SameSections(d', PutDressed(d, name, d, o, NetworkMode));
    }

    /** The ports of a service outside the host's network; `ports` is the cursor. */
    method MapPorts(name: string, ghost d0: Details, d: Details, ports: seq<nat>)
      returns (r: Edited<(Details, seq<nat>)>)
      requires Get(d, PortsKey) == Get(d0, PortsKey)
      requires StrAt(d, NetworkMode) && !OwnNetwork(d) <==> TakesPorts(name, d0)
      requires TakesPorts(name, d0) ==> (Contains(d[NetworkMode].s, "service:") <==> GivesPorts(name, d0))
      modifies this`collected, this`singlePort
      ensures match EditPorts(name, d0, old(FlowAt(ports)))
              case NoPortsAvailable => r == NoPortsAvailable
              case Panic => r == Panic
              case Done(e) => r.Done? && r.value.0 == Put(d, PortsKey, e.section) && FlowAt(r.value.1) == e.flow
    {
      hide Assign, Mapped, Contains, OwnNetwork;
      PutBack(d, None, None);
      if NetworkMode in d && d[NetworkMode].Str? && d[NetworkMode].s != "host" && d[NetworkMode].s != "none" {
        NetworkOf(d);
        if PortsKey in d && d[PortsKey].List? {
          var assignment, single := AssignPorts(d[PortsKey].items, ports);
          match assignment {
            case NoPorts => return NoPortsAvailable;
            case Panicked => return Panic;
            case Assigned(portList, cursor) =>
              singlePort := singlePort || single;
              if Contains(d[NetworkMode].s, "service:") {
                collected := Some(Collect(collected, portList));
                return Done((d - {PortsKey}, cursor));
              }
              return Done((d[PortsKey := List(portList)], cursor));
          }
        }
      } else {
        NetworkOf(d);
      }
      return Done((d, ports));
    }

    /** The edits up to the ports, in the order they are made. */
    method EditOtherSections(name: string, o: Owner, d0: Details) returns (ok: bool, d: Details)
      modifies this`extraHosts, this`rmInfraDefault
      ensures ok <==> HostsHashable(d0)
      ensures ok ==> && d == DressAll(name, d0, o, EDITED)
                     && extraHosts == old(extraHosts) + HostsIn(d0)
                     && rmInfraDefault == (old(rmInfraDefault) || (name != INFRA_SERVICE && OwnNetwork(d0)))
    {
      hide Dressed, DressAll, PutDressed, HostsHashable, HostsIn, OwnNetwork;
      d := d0;
      NothingDressed(name, d0, o);
      NextSection(name, d0, o, 0, d);
      d := RemoveRestart(name, o, d);

      NextSection(name, d0, o, 1, d);
      Untouched(name, d0, o, 1, d);
      SameHosts(d, d0);
      ok, d := ScanForExtraHosts(name, o, d);
      if !ok {
        return;
      }
      NextSection(name, d0, o, 2, d);
      d := SetEnvironment(name, o, d);

      NextSection(name, d0, o, 3, d);
      Untouched(name, d0, o, 3, d);
      SameMode(d, d0);
      d := SetNetworkMode(name, o, d);

      NextSection(name, d0, o, 4, d);
      d := SetContainerName(name, o, d);
      NextSection(name, d0, o, 5, d);
      d := RemoveLinks(name, o, d);
      NextSection(name, d0, o, 6, d);
      d := SetLabels(name, o, d);
      NextSection(name, d0, o, 7, d);
      d := SetCgroupParent(name, o, d);
      assert EDITED[..8] == EDITED;
    }

    /** `updateServiceSessions`: the edits in the order they are made. A service that is not a mapping makes
        the first write panic. */
    method UpdateServiceSessions(name: string, s: Service, o: Owner, ports: seq<nat>)
      returns (r: Edited<(Service, seq<nat>)>)
      modifies this
      ensures match EditService(name, s, old(FlowAt(ports)), o)
              case NoPortsAvailable => r == NoPortsAvailable
              case Panic => r == Panic
              case Done((s', f)) => r == Done((s', f.ports)) && FlowAt(f.ports) == f
    {
      hide Dressed, DressAll, PutDressed, Put, EditPorts, EditService, EditSections;
      hide HostsHashable, HostsIn, OwnNetwork, TakesPorts, GivesPorts;
      ghost var f := FlowAt(ports);
      EditServiceIs(name, s, f, o);
      if s.NotAMapping? {
        return Panic;
      }
      ghost var d0 := s.details;
      var ok, d := EditOtherSections(name, o, s.details);
      if !ok {
        return Panic;
      }
      AfterDressing(name, d0, o, d);
      assert FlowAt(ports) == FlowIn(name, d0, f);
      ghost var dressed := d;
      var mapped := MapPorts(name, d0, d, ports);
      match mapped {
        case NoPortsAvailable => return NoPortsAvailable;
        case Panic => return Panic;
        case Done((d', cursor)) =>
          d := d';
          ghost var edit := EditPorts(name, d0, FlowIn(name, d0, f)).value;
          PortsThenInfra(name, d0, o, dressed, edit.section);
          if name == INFRA_SERVICE && collected.Some? {
            PutBack(dressed, edit.section, Some(List(collected.value)));
            PortsThenInfra(name, d0, o, dressed, Some(List(collected.value)));
            PutPorts(d, List(collected.value));
            d := d[PortsKey := List(collected.value)];
          }
          return Done((Mapping(d), cursor));
      }
    }
  }

  lemma {:induction false} NothingDressed(name: string, d: Details, o: Owner)
    ensures DressAll(name, d, o, EDITED[..0]) == d
  {}

  lemma {:induction false} PutPorts(d: Details, v: Value)
    ensures Put(d, PortsKey, Some(v)) == d[PortsKey := v]
  {}

  method SetCgroupParent(name: string, o: Owner, d: Details) returns (d': Details)
    ensures d' == PutDressed(d, name, d, o, CgroupParent)
  {
    d' := d[CgroupParent := Str("/mesos/" + o.cgroup)];
  }

  lemma {:induction false} SameHosts(d: Details, d': Details)
    requires Get(d, ExtraHosts) == Get(d', ExtraHosts)
    ensures HostsHashable(d) == HostsHashable(d') && HostsIn(d) == HostsIn(d')
  {}

  lemma {:induction false} SameMode(d: Details, d': Details)
    requires Get(d, NetworkMode) == Get(d', NetworkMode)
    ensures OwnNetwork(d) == OwnNetwork(d')
  {}

  /** A section not yet edited is as it was in the untouched service. */
  lemma {:induction false} Untouched(name: string, d: Details, o: Owner, i: nat, d': Details)
    requires i < |EDITED| && d' == DressAll(name, d, o, EDITED[..i])
    ensures Get(d', EDITED[i]) == Get(d, EDITED[i])
  {
    DressAllGets(name, d, o, EDITED[..i], EDITED[i]);
    NotYet(i);
  }

  lemma {:induction false} EditServiceIs(name: string, s: Service, f: Flow, o: Owner)
    ensures EditService(name, s, f, o)
            == if s.NotAMapping? || !HostsHashable(s.details) then Panic
               else
                 match EditPorts(name, s.details, FlowIn(name, s.details, f))
                 case NoPortsAvailable => NoPortsAvailable
                 case Panic => Panic
                 case Done(e) =>
                   var section := if name == INFRA_SERVICE && e.flow.collected.Some?
                                  then Some(List(e.flow.collected.value)) else e.section;
                   Done((Mapping(EditSections(name, s.details, o, section)), e.flow))
  {}

  lemma {:induction false} NetworkOf(d: Details)
    ensures StrAt(d, NetworkMode) && !OwnNetwork(d)
            <==> NetworkMode in d && d[NetworkMode].Str? && d[NetworkMode].s != "host" && d[NetworkMode].s != "none"
  {}
}
