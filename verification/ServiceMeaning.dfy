/** What editing one service does, in terms of the YAML values alone (pluginimpl/general/editor.go, lines 96-241). */
module ServiceMeaning {
  import opened PodTypes
  import opened Ports
  import opened ServiceEdit
  import opened Strings

  // ---------------------------------------------------------------- port entries

  predicate HasColon(entry: Value) {
    entry.Str? && ':' in entry.s
  }

  /** The text between the first colon and the next, or the end. */
  ghost predicate ContainerText(entry: Value, text: string) {
    entry.Str? && ':' !in text && exists host, rest :: CutAt(entry.s, host, text, rest)
  }

  predicate CutAt(s: string, host: string, text: string, rest: string) {
    s == host + ":" + text + rest && ':' !in host && (rest == "" || rest[0] == ':')
  }

  lemma {:induction false} MappedIff(entry: Value)
    ensures Mapped(entry) <==> HasColon(entry)
  {
    if entry.Str? {
      var i := Colon(entry.s, 0);
      if ':' in entry.s {
        assert i < |entry.s|;
        assert |Parts(entry.s[i + 1..])| >= 1;
      }
    }
  }

  lemma {:induction false} FirstPart(t: string)
    ensures Parts(t)[0] == t[..Colon(t, 0)]
  {
    var j := Colon(t, 0);
    assert j == |t| ==> t[..j] == t;
  }

  lemma {:induction false} ContainerPartIs(entry: Value)
    requires Mapped(entry)
    ensures ContainerText(entry, ContainerPart(entry))
  {
    var i := Colon(entry.s, 0);
    var tail := entry.s[i + 1..];
    var j := Colon(tail, 0);
    FirstPart(tail);
    assert Parts(entry.s) == [entry.s[..i]] + Parts(tail);
    assert ContainerPart(entry) == tail[..j];
    TextIs(entry, i, j);
  }

  lemma {:induction false} TextIs(entry: Value, i: nat, j: nat)
    requires entry.Str? && i < |entry.s| && entry.s[i] == ':' && ':' !in entry.s[..i]
    requires var tail := entry.s[i + 1..]; j <= |tail| && ':' !in tail[..j] && (j < |tail| ==> tail[j] == ':')
    ensures ContainerText(entry, entry.s[i + 1..][..j])
  {
    var tail := entry.s[i + 1..];
    var host, text, rest := entry.s[..i], tail[..j], tail[j..];
    assert entry.s == host + ":" + text + rest;
    assert CutAt(entry.s, host, text, rest);
  }

  /** The entries, among the first `n`, that name a host port. */
  function Colons(list: seq<Value>, n: nat): set<nat>
    requires n <= |list|
  {
    set i: nat | i < n && HasColon(list[i])
  }

  lemma {:induction false} ColonsOneMore(list: seq<Value>, n: nat)
    requires n < |list|
    ensures Colons(list, n + 1) == Colons(list, n) + if HasColon(list[n]) then {n} else {}
    ensures n !in Colons(list, n) && Colons(list, 0) == {}
  {
    hide HasColon;
  }

  lemma {:induction false} CountMappedIs(list: seq<Value>, n: nat)
    requires n <= |list|
    ensures CountMapped(list, n) == |Colons(list, n)|
  {
    hide Mapped, HasColon;
    if n == 0 {
      assert Colons(list, 0) == {};
    } else {
      CountMappedIs(list, n - 1);
      MappedIff(list[n - 1]);
      ColonsOneMore(list, n - 1);
      hide Colons;
    }
  }

  lemma {:induction false} AssignedLength(list: seq<Value>, ports: seq<nat>, n: nat)
    requires n <= |list| && Assign(list, ports, n).Assigned?
    ensures var c, r := CountMapped(list, n), Assign(list, ports, n);
            |r.list| == n && c <= |ports| && r.ports == ports[c..]
    ensures n > 0 ==> var before := Assign(list, ports, n - 1);
                      before.Assigned? && before.list == Assign(list, ports, n).list[..n - 1]
  {
    hide Mapped, ContainerPart, Decimal;
    if n == 0 {
    } else {
      AssignedLength(list, ports, n - 1);
      var before, after := Assign(list, ports, n - 1), Assign(list, ports, n);
      assert |before.list| == n - 1;
      assert after.list[..n - 1] == before.list;
    }
  }

  lemma {:induction false} AssignedEntry(list: seq<Value>, ports: seq<nat>, n: nat, i: nat)
    requires i < n <= |list| && Assign(list, ports, n).Assigned?
    ensures var r, c := Assign(list, ports, n).list, CountMapped(list, i);
            && |r| == n && list[i].Str?
            && if Mapped(list[i]) then c < |ports| && r[i] == Str(Decimal(ports[c]) + ":" + ContainerPart(list[i]))
               else r[i] == list[i]
  {
    hide Mapped, ContainerPart, Decimal;
    AssignedLength(list, ports, n);
    var before, after := Assign(list, ports, n - 1), Assign(list, ports, n);
    AssignedLength(list, ports, n - 1);
    if i == n - 1 {
      AssignNext(list, ports, i);
    } else {
      AssignedEntry(list, ports, n - 1, i);
      assert after.list[..n - 1][i] == after.list[i];
    }
  }

  /** `list'` is the list with host ports from the offer, in order: an entry with a host port keeps the container
      port, as the text behind its first colon, and any other stays. */
  ghost predicate HostPortsGiven(list: seq<Value>, ports: seq<nat>, list': seq<Value>) {
    && |list'| == |list| && |Colons(list, |list|)| <= |ports|
    && forall i :: 0 <= i < |list|
                   ==> if HasColon(list[i]) then PortGiven(list[i], ports, |Colons(list, i)|, list'[i])
                       else list[i].Str? && list'[i] == list[i]
  }

  ghost predicate PortGiven(entry: Value, ports: seq<nat>, c: nat, entry': Value) {
    && c < |ports|
    && exists text :: ContainerText(entry, text) && entry' == Str(Decimal(ports[c]) + ":" + text)
  }

  lemma {:induction false} AssignGives(list: seq<Value>, ports: seq<nat>)
    requires Assign(list, ports, |list|).Assigned?
    ensures var r := Assign(list, ports, |list|);
            HostPortsGiven(list, ports, r.list) && r.ports == ports[|Colons(list, |list|)|..]
  {
    hide Mapped, HasColon, Assign, Colons, ContainerText, ContainerPart, Decimal;
    var r := Assign(list, ports, |list|);
    AssignedLength(list, ports, |list|);
    CountMappedIs(list, |list|);
    forall i | 0 <= i < |list|
      ensures if HasColon(list[i]) then PortGiven(list[i], ports, |Colons(list, i)|, r.list[i])
              else list[i].Str? && r.list[i] == list[i]
    {
      AssignedEntry(list, ports, |list|, i);
      CountMappedIs(list, i);
      MappedIff(list[i]);
      if Mapped(list[i]) {
        ContainerPartIs(list[i]);
      }
    }
  }

  /** Ports are written in decimal, without leading zeros. */
  lemma {:induction false} DecimalIs(n: nat)
    ensures var s := Decimal(n);
            && Number(s) == n && (forall c :: c in s ==> '0' <= c <= '9') && (|s| > 1 ==> s[0] != '0')
  {
    DecimalRoundTrip(n);
    if n < 10 {
    } else {
      DecimalIs(n / 10);
      if n / 10 < 10 {
        assert Decimal(n)[0] == Digit(n / 10);
      }
    }
  }

  // ---------------------------------------------------------------- one service

  predicate OnHostOrNone(d: Details) {
    NetworkMode in d && (d[NetworkMode] == Str("host") || d[NetworkMode] == Str("none"))
  }

  /** The service's port list gets host ports: it is not on the host's network or on none and, if it has the infra
      container's name, it has a network mode. */
  predicate PortsAreMapped(name: string, d: Details) {
    && PortsKey in d && d[PortsKey].List? && !OnHostOrNone(d)
    && (name == "networkproxy" ==> NetworkMode in d && d[NetworkMode].Str?)
  }

  /** And the list goes to the infra container: the service's network is another service's. */
  predicate PortsAreGiven(name: string, d: Details) {
    PortsAreMapped(name, d) && (name == "networkproxy" ==> Contains(d[NetworkMode].s, "service:"))
  }

  function Entries(d: Details): seq<Value>
    requires PortsKey in d && d[PortsKey].List?
  {
    d[PortsKey].items
  }

  function NeededPorts(name: string, d: Details): nat {
    if PortsAreMapped(name, d) then |Colons(Entries(d), |Entries(d)|)| else 0
  }

  function HostsOf(d: Details): set<Value> {
    if ExtraHosts in d && d[ExtraHosts].List? then set v | v in d[ExtraHosts].items else {}
  }

  lemma {:induction false} ModesAre(name: string, d: Details)
    ensures OwnNetwork(d) <==> OnHostOrNone(d)
    ensures TakesPorts(name, d) && ListAt(d, PortsKey) <==> PortsAreMapped(name, d)
    ensures GivesPorts(name, d) && ListAt(d, PortsKey) <==> PortsAreGiven(name, d)
    ensures HostsIn(d) == HostsOf(d)
  {
    hide Contains;
  }

  lemma {:induction false} DemandIs(name: string, d: Details)
    ensures Demand(name, d) == NeededPorts(name, d)
  {
    hide CountMapped, Colons, TakesPorts, PortsAreMapped;
    ModesAre(name, d);
    if ListAt(d, PortsKey) {
      CountMappedIs(Entries(d), |Entries(d)|);
    }
  }

  lemma {:induction false} NeededPortsAre(name: string, d: Details)
    ensures PortsAreMapped(name, d)
            ==> PortsKey in d && d[PortsKey].List? && NeededPorts(name, d) == |Colons(Entries(d), |Entries(d)|)|
    ensures !PortsAreMapped(name, d) ==> NeededPorts(name, d) == 0
  {}

  lemma {:induction false} GivenEnough(list: seq<Value>, ports: seq<nat>, list': seq<Value>)
    requires HostPortsGiven(list, ports, list')
    ensures |Colons(list, |list|)| <= |ports|
  {}

  lemma {:induction false} MappedIfGiven(name: string, d: Details)
    ensures PortsAreGiven(name, d) ==> PortsAreMapped(name, d)
  {}

  lemma {:induction false} SingleIff(list: seq<Value>)
    ensures (exists i :: 0 <= i < |list| && !Mapped(list[i])) <==> exists e :: e in list && !HasColon(e)
  {
    hide Mapped, HasColon;
    forall i | 0 <= i < |list| ensures Mapped(list[i]) <==> HasColon(list[i]) {
      MappedIff(list[i]);
    }
    if e :| e in list && !HasColon(e) {
      var i :| 0 <= i < |list| && list[i] == e;
      assert !Mapped(list[i]);
    }
  }

  /** What editing the port list gives, and what it takes off the cursor. */
  lemma {:induction false} PortsMean(name: string, d: Details, f: Flow) returns (list': seq<Value>)
    requires EditPorts(name, d, f).Done?
    ensures var e := EditPorts(name, d, f).value;
            && (PortsAreMapped(name, d) ==> HostPortsGiven(Entries(d), f.ports, list'))
            && NeededPorts(name, d) <= |f.ports|
            && e.flow == f.(ports := f.ports[NeededPorts(name, d)..],
                            collected := if PortsAreGiven(name, d) then Some(Collect(f.collected, list'))
                                         else f.collected,
                            single := f.single || (PortsAreMapped(name, d)
                                                   && exists e :: e in Entries(d) && !HasColon(e)))
            && e.section == (if PortsAreGiven(name, d) then None
                             else if PortsAreMapped(name, d) then Some(List(list')) else Get(d, PortsKey))
  {
    ModesAre(name, d);
    MappedIfGiven(name, d);
    NeededPortsAre(name, d);
    hide Contains, Mapped, HasColon, Colons, Assign, HostPortsGiven, NeededPorts, Collect;
    hide TakesPorts, GivesPorts, PortsAreMapped, PortsAreGiven, HostsIn, HostsOf;
    list' := [];
    assert f.ports[0..] == f.ports;
    if PortsAreMapped(name, d) {
      var list := Entries(d);
      list' := Assign(list, f.ports, |list|).list;
      AssignGives(list, f.ports);
      GivenEnough(list, f.ports, list');
      SingleIff(list);
    }
  }

  /** What happens to the ports of a service and to all that passes to the next service. The infra container gets
      the list collected so far. */
  lemma {:induction false} ServiceMeans(name: string, s: Service, f: Flow, o: Owner) returns (list': seq<Value>)
    requires EditService(name, s, f, o).Done?
    ensures s.Mapping? && EditService(name, s, f, o).value.0.Mapping?
    ensures var d, (s', f') := s.details, EditService(name, s, f, o).value;
            && (PortsAreMapped(name, d) ==> HostPortsGiven(Entries(d), f.ports, list'))
            && NeededPorts(name, d) <= |f.ports| && f'.ports == f.ports[NeededPorts(name, d)..]
            && f'.collected == (if !PortsAreGiven(name, d) then f.collected
                                else if f.collected == None then Some(list') else Some(f.collected.value + list'))
            && f'.hosts == f.hosts + HostsOf(d)
            && (f'.dropInfra <==> f.dropInfra || (name != "networkproxy" && OnHostOrNone(d)))
            && (f'.single <==> f.single || (PortsAreMapped(name, d) && exists e :: e in Entries(d) && !HasColon(e)))
            && Get(s'.details, PortsKey)
               == if name == "networkproxy" && f'.collected.Some? then Some(List(f'.collected.value))
                  else if PortsAreGiven(name, d) then None
                  else if PortsAreMapped(name, d) then Some(List(list'))
                  else Get(d, PortsKey)
  {
    var d := s.details;
    ModesAre(name, d);
    MappedIfGiven(name, d);
    hide EditPorts, EditSections, HasColon, HostPortsGiven, NeededPorts, OwnNetwork, OnHostOrNone, HostsIn, HostsOf;
    hide PortsAreMapped, PortsAreGiven, TakesPorts, GivesPorts;
    var fIn := FlowIn(name, d, f);
    list' := PortsMean(name, d, fIn);
    var edit := EditPorts(name, d, fIn).value;
    SectionsAre(name, d, o, InfraPorts(name, edit).section, PortsKey);
  }
}
