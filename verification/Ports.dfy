/** Mesos's offered ports and their assignment to port entries (utils/pod/pod.go, pluginimpl/general/editor.go). */
module Ports {
  import opened Walk

  /** What a YAML document holds. */
  datatype Value = Str(s: string) | Num(n: int) | Bool(b: bool) | Null
                 | List(items: seq<Value>) | Dict(entries: map<string, Value>)

  // ---------------------------------------------------------------- the offer

  const MAX_UINT64: nat := 0xFFFF_FFFF_FFFF_FFFF

  /** The ports `begin` to `end`, as the loop `for i := begin; i < end+1; i++` counts them: in 64 bits the
      bound of a range that ends at the very top wraps to 0, and the range offers nothing. */
  datatype Range = Range(begin: nat, end: nat)

  function Bound(r: Range): nat {
    (r.end + 1) % (MAX_UINT64 + 1)
  }

  function PortsOf(r: Range): (ps: seq<nat>)
    ensures forall i :: 0 <= i < |ps| ==> ps[i] == r.begin + i && ps[i] < Bound(r)
  {
    if r.begin < Bound(r) then seq(Bound(r) - r.begin, i requires 0 <= i => r.begin + i) else []
  }

  /** A range offers the ports from its begin to its end, unless it reaches the last 64-bit number. */
  lemma {:induction false} OffersItsRangeIff(r: Range)
    requires r.begin <= MAX_UINT64 && r.end <= MAX_UINT64
    ensures (forall p: nat :: p in PortsOf(r) <==> r.begin <= p <= r.end) <==> r.end < MAX_UINT64 || r.begin > r.end
  {
    if r.end < MAX_UINT64 {
      forall p: nat | r.begin <= p <= r.end ensures p in PortsOf(r) {
        assert PortsOf(r)[p - r.begin] == p;
      }
    } else {
      assert PortsOf(r) == [];
      assert r.begin <= r.end ==> r.begin !in PortsOf(r);
    }
  }

  datatype Resource = Resource(name: string, ranges: seq<Range>)

  function PortsOfAll(ranges: seq<Range>, n: nat): seq<nat>
    requires n <= |ranges|
  {
    if n == 0 then [] else PortsOfAll(ranges, n - 1) + PortsOf(ranges[n - 1])
  }

  function Offered(resources: seq<Resource>, n: nat): seq<nat>
    requires n <= |resources|
  {
    if n == 0 then []
    else
      var r := resources[n - 1];
      if r.name == "ports" then Offered(resources, n - 1) + PortsOfAll(r.ranges, |r.ranges|)
      else Offered(resources, n - 1)
  }

  predicate Uint64s(resources: seq<Resource>) {
    forall r, range :: r in resources && range in r.ranges ==> range.begin <= MAX_UINT64 && range.end <= MAX_UINT64
  }

  method GetPorts(resources: seq<Resource>) returns (ports: seq<nat>)
    requires Uint64s(resources)
    ensures ports == Offered(resources, |resources|)
  {
    ports := [];
    for n := 0 to |resources|
      invariant ports == Offered(resources, n)
    {
      var resource := resources[n];
      assert resource in resources;
      if resource.name == "ports" {
        var more := PushRanges(resource.ranges);
        ports := ports + more;
      }
    }
  }

  method PushRanges(ranges: seq<Range>) returns (ports: seq<nat>)
    requires forall r :: r in ranges ==> r.begin <= MAX_UINT64 && r.end <= MAX_UINT64
    ensures ports == PortsOfAll(ranges, |ranges|)
  {
    ports := [];
    for k := 0 to |ranges|
      invariant ports == PortsOfAll(ranges, k)
    {
      var more := PushRange(ranges[k]);
      ports := ports + more;
    }
  }

  /** The innermost loop of `GetPorts`. */
  method PushRange(r: Range) returns (ports: seq<nat>)
    requires r.begin <= MAX_UINT64 && r.end <= MAX_UINT64
    ensures ports == PortsOf(r)
  {
    ports := [];
    var i, bound := r.begin, (r.end + 1) % (MAX_UINT64 + 1);
    while i < bound
      invariant r.begin <= i && (i <= bound || i == r.begin)
      invariant |ports| == i - r.begin && forall k :: 0 <= k < |ports| ==> ports[k] == r.begin + k
    {
      ports := ports + [i];
      i := i + 1;
    }
  }

  ghost predicate Apart(xs: seq<nat>, ys: seq<nat>) {
    forall x :: x in xs ==> x !in ys
  }

  /** No port is offered by two ranges. */
  ghost predicate Disjoint(ranges: seq<Range>) {
    forall i, j :: 0 <= i < j < |ranges| ==> Apart(PortsOf(ranges[i]), PortsOf(ranges[j]))
  }

  lemma {:induction false} FromSomeRange(ranges: seq<Range>, n: nat, p: nat) returns (i: nat)
    requires n <= |ranges| && p in PortsOfAll(ranges, n)
    ensures i < n && p in PortsOf(ranges[i])
  {
    i := n - 1;
    if p in PortsOf(ranges[i]) {
    } else {
      i := FromSomeRange(ranges, n - 1, p);
    }
  }

  lemma {:induction false} InPortsOfAll(ranges: seq<Range>, n: nat, i: nat, p: nat)
    requires i < n <= |ranges| && p in PortsOf(ranges[i])
    ensures p in PortsOfAll(ranges, n)
  {
    if i == n - 1 {
    } else {
      InPortsOfAll(ranges, n - 1, i, p);
    }
  }

  lemma {:induction false} RangeDistinct(r: Range)
    ensures Distinct(PortsOf(r))
  {}

  lemma {:induction false} DistinctParts(xs: seq<nat>, ys: seq<nat>)
    ensures Distinct(xs + ys) <==> Distinct(xs) && Distinct(ys) && Apart(xs, ys)
  {
    var all := xs + ys;
    forall i | 0 <= i < |xs| ensures all[i] == xs[i] {}
    forall i | 0 <= i < |ys| ensures all[|xs| + i] == ys[i] {}
    if Distinct(all) {
      forall i, j | 0 <= i < j < |ys| ensures ys[i] != ys[j] {
        assert all[|xs| + i] != all[|xs| + j];
      }
      forall i, j | 0 <= i < |xs| && 0 <= j < |ys| ensures xs[i] != ys[j] {
        assert all[i] != all[|xs| + j];
      }
    }
    if Distinct(xs) && Distinct(ys) && Apart(xs, ys) {
      forall i, j | 0 <= i < j < |all| ensures all[i] != all[j] {
        if i < |xs| <= j {
          assert xs[i] in xs && ys[j - |xs|] in ys;
        } else if |xs| <= i {
          assert ys[i - |xs|] != ys[j - |xs|];
        }
      }
    }
  }

  /** A list of ranges offers distinct ports exactly when its ranges are disjoint. */
  lemma {:induction false} RangesDistinctIff(ranges: seq<Range>, n: nat)
    requires n <= |ranges|
    ensures Distinct(PortsOfAll(ranges, n)) <==> Disjoint(ranges[..n])
  {
    hide PortsOf, Distinct, Disjoint, Apart;
    if n == 0 {
      NoRanges(ranges);
    } else {
      RangesDistinctIff(ranges, n - 1);
      RangeDistinct(ranges[n - 1]);
      DistinctParts(PortsOfAll(ranges, n - 1), PortsOf(ranges[n - 1]));
      OneMoreDisjoint(ranges, n);
    }
  }

  lemma {:induction false} NoRanges(ranges: seq<Range>)
    ensures Distinct(PortsOfAll(ranges, 0)) && Disjoint(ranges[..0])
  {}

  lemma {:induction false} ApartFromAll(ranges: seq<Range>, n: nat, ys: seq<nat>)
    requires n <= |ranges|
    ensures Apart(PortsOfAll(ranges, n), ys) <==> forall i :: 0 <= i < n ==> Apart(PortsOf(ranges[i]), ys)
  {
    hide PortsOf;
    if Apart(PortsOfAll(ranges, n), ys) {
      forall i | 0 <= i < n ensures Apart(PortsOf(ranges[i]), ys) {
        forall x | x in PortsOf(ranges[i]) ensures x !in ys { InPortsOfAll(ranges, n, i, x); }
      }
    }
    if forall i :: 0 <= i < n ==> Apart(PortsOf(ranges[i]), ys) {
      forall x | x in PortsOfAll(ranges, n) ensures x !in ys {
        var i := FromSomeRange(ranges, n, x);
        assert Apart(PortsOf(ranges[i]), ys);
      }
    }
  }

  lemma {:induction false} OneMoreDisjoint(ranges: seq<Range>, n: nat)
    requires 0 < n <= |ranges|
    ensures Disjoint(ranges[..n])
            <==> Disjoint(ranges[..n - 1]) && Apart(PortsOfAll(ranges, n - 1), PortsOf(ranges[n - 1]))
  {
    hide PortsOf, PortsOfAll, Apart;
    ApartFromAll(ranges, n - 1, PortsOf(ranges[n - 1]));
    var before, all := ranges[..n - 1], ranges[..n];
    if Disjoint(all) {
      forall i | 0 <= i < n - 1 ensures Apart(PortsOf(ranges[i]), PortsOf(ranges[n - 1])) {
        assert Apart(PortsOf(all[i]), PortsOf(all[n - 1]));
      }
      forall i, j | 0 <= i < j < |before| ensures Apart(PortsOf(before[i]), PortsOf(before[j])) {
        assert Apart(PortsOf(all[i]), PortsOf(all[j]));
      }
    }
  }

  /** The ranges of all port resources. */
  function PortRanges(resources: seq<Resource>, n: nat): seq<Range>
    requires n <= |resources|
  {
    if n == 0 then []
    else if resources[n - 1].name == "ports" then PortRanges(resources, n - 1) + resources[n - 1].ranges
    else PortRanges(resources, n - 1)
  }

  lemma {:induction false} PortsOfOneMore(ranges: seq<Range>, n: nat)
    requires n < |ranges|
    ensures PortsOfAll(ranges, n + 1) == PortsOfAll(ranges, n) + PortsOf(ranges[n])
  {}

  lemma {:induction false} PortsOfNone(ranges: seq<Range>)
    ensures PortsOfAll(ranges, 0) == []
  {}

  lemma {:induction false} PortsOfPrefix(a: seq<Range>, b: seq<Range>, n: nat)
    requires n <= |a|
    ensures PortsOfAll(a + b, n) == PortsOfAll(a, n)
  {
    if n == 0 {
    } else {
      PortsOfPrefix(a, b, n - 1);
    }
  }

  lemma {:induction false} PortsOfAppend(a: seq<Range>, b: seq<Range>, n: nat)
    requires n <= |b|
    ensures PortsOfAll(a + b, |a| + n) == PortsOfAll(a, |a|) + PortsOfAll(b, n)
  {
    hide *;
    if n == 0 {
      PortsOfNone(b);
      PortsOfPrefix(a, b, |a|);
      assert PortsOfAll(a, |a|) + [] == PortsOfAll(a, |a|);
    } else {
      PortsOfAppend(a, b, n - 1);
      assert (a + b)[|a| + n - 1] == b[n - 1];
      PortsOfOneMore(a + b, |a| + n - 1);
      PortsOfOneMore(b, n - 1);
      var x, y, z := PortsOfAll(a, |a|), PortsOfAll(b, n - 1), PortsOf(b[n - 1]);
      assert x + (y + z) == (x + y) + z;
    }
  }

  lemma {:induction false} OfferedIsOneList(resources: seq<Resource>, n: nat)
    requires n <= |resources|
    ensures var ranges := PortRanges(resources, n); Offered(resources, n) == PortsOfAll(ranges, |ranges|)
  {
    hide PortsOfAll;
    if n == 0 {
      PortsOfNone([]);
    } else {
      OfferedIsOneList(resources, n - 1);
      if resources[n - 1].name == "ports" {
        PortsOfAppend(PortRanges(resources, n - 1), resources[n - 1].ranges, |resources[n - 1].ranges|);
      }
    }
  }

  /** The ports that Mesos offers are distinct exactly when the ranges of all its port resources are disjoint. */
  lemma {:induction false} OfferedDistinctIff(resources: seq<Resource>)
    ensures Distinct(Offered(resources, |resources|)) <==> Disjoint(PortRanges(resources, |resources|))
  {
    hide Distinct, Disjoint, PortsOfAll, Offered, PortRanges;
    var ranges := PortRanges(resources, |resources|);
    OfferedIsOneList(resources, |resources|);
    RangesDistinctIff(ranges, |ranges|);
    assert ranges[..|ranges|] == ranges;
  }

  // ---------------------------------------------------------------- numbers in port entries

  function Digit(d: nat): char
    requires d < 10
  {
    ('0' as int + d) as char
  }

  function Decimal(n: nat): (s: string)
    ensures s != [] && ':' !in s
  {
    if n < 10 then [Digit(n)] else Decimal(n / 10) + [Digit(n % 10)]
  }

  function Number(s: string): int {
    if s == [] then 0 else Number(s[..|s| - 1]) * 10 + (s[|s| - 1] as int - '0' as int)
  }

  lemma {:induction false} DecimalRoundTrip(n: nat)
    ensures Number(Decimal(n)) == n
  {
    var s := Decimal(n);
    if n < 10 {
      assert s[..0] == [];
    } else {
      DecimalRoundTrip(n / 10);
      assert s[..|s| - 1] == Decimal(n / 10);
    }
  }

  function Decimals(ports: seq<nat>): (ss: seq<string>)
    ensures |ss| == |ports| && forall i :: 0 <= i < |ss| ==> ss[i] == Decimal(ports[i])
  {
    seq(|ports|, i requires 0 <= i < |ports| => Decimal(ports[i]))
  }

  lemma {:induction false} DecimalsDistinct(ports: seq<nat>)
    requires Distinct(ports)
    ensures Distinct(Decimals(ports))
  {
    forall i, j | 0 <= i < j < |ports| ensures Decimals(ports)[i] != Decimals(ports)[j] {
      DecimalRoundTrip(ports[i]);
      DecimalRoundTrip(ports[j]);
    }
  }

  /** `strings.Split(s, ":")`. */
  function Parts(s: string): (ps: seq<string>)
    ensures |ps| >= 1
    ensures |ps| == 1 ==> ps[0] == s
    ensures forall i :: 0 <= i < |ps| ==> ':' !in ps[i]
    decreases |s|
  {
    var i := Colon(s, 0);
    if i == |s| then [s] else [s[..i]] + Parts(s[i + 1..])
  }

  function Colon(s: string, from: nat): (i: nat)
    requires from <= |s|
    ensures from <= i <= |s| && (i < |s| ==> s[i] == ':')
    ensures forall k :: from <= k < i ==> s[k] != ':'
    decreases |s| - from
  {
    if from == |s| || s[from] == ':' then from else Colon(s, from + 1)
  }

  lemma {:induction false} TwoParts(host: string, container: string)
    requires ':' !in host && ':' !in container
    ensures Parts(host + ":" + container) == [host, container]
  {
    var s := host + ":" + container;
    assert s[|host|] == ':';
    forall k | 0 <= k < |host| ensures s[k] != ':' { assert s[k] == host[k]; }
    assert Colon(s, 0) == |host|;
    assert s[..|host|] == host && s[|host| + 1..] == container;
    assert Colon(container, 0) == |container|;
  }

  // ---------------------------------------------------------------- assigning ports to one service's list

  predicate Mapped(entry: Value) {
    entry.Str? && |Parts(entry.s)| > 1
  }

  function HostPart(entry: Value): string
    requires Mapped(entry)
  {
    Parts(entry.s)[0]
  }

  function ContainerPart(entry: Value): string
    requires Mapped(entry)
  {
    Parts(entry.s)[1]
  }

  /** The mapped entries among the first `n`. */
  function CountMapped(list: seq<Value>, n: nat): (c: nat)
    requires n <= |list|
    ensures c <= n
  {
    if n == 0 then 0 else CountMapped(list, n - 1) + if Mapped(list[n - 1]) then 1 else 0
  }

  function HostParts(list: seq<Value>): seq<string> {
    if list == [] then []
    else
      var before, last := HostParts(list[..|list| - 1]), list[|list| - 1];
      if Mapped(last) then before + [HostPart(last)] else before
  }

  lemma {:induction false} HostPartsAppend(xs: seq<Value>, ys: seq<Value>)
    ensures HostParts(xs + ys) == HostParts(xs) + HostParts(ys)
  {
    hide Mapped, HostPart;
    if ys == [] {
      assert xs + ys == xs;
    } else {
      HostPartsAppend(xs, ys[..|ys| - 1]);
      assert (xs + ys)[..|xs + ys| - 1] == xs + ys[..|ys| - 1];
    }
  }

  datatype Assigned = Assigned(list: seq<Value>, ports: seq<nat>) | NoPorts | Panicked

  function AssignOne(entry: Value, ports: seq<nat>): Assigned {
    if !entry.Str? then Panicked
    else if !Mapped(entry) then Assigned([entry], ports)
    else if ports == [] then NoPorts
    else Assigned([Str(Decimal(ports[0]) + ":" + ContainerPart(entry))], ports[1..])
  }

  /** The first `n` entries get the next ports of the cursor. */
  function Assign(list: seq<Value>, ports: seq<nat>, n: nat): Assigned
    requires n <= |list|
  {
    if n == 0 then Assigned([], ports)
    else
      match Assign(list, ports, n - 1)
      case Assigned(done, rest) =>
        (match AssignOne(list[n - 1], rest)
         case Assigned(entry, rest') => Assigned(done + entry, rest')
         case failure => failure)
      case failure => failure
  }

  predicate AllStrings(list: seq<Value>) {
    forall i :: 0 <= i < |list| ==> list[i].Str?
  }

  /** A rewritten entry: still mapped to the same container port, or left alone. */
  predicate SameContainer(entry: Value, entry': Value) {
    if Mapped(entry) then Mapped(entry') && ContainerPart(entry') == ContainerPart(entry) else entry' == entry
  }

  lemma {:induction false} AssignOneMeans(entry: Value, ports: seq<nat>)
    requires entry.Str?
    ensures var need := if Mapped(entry) then 1 else 0;
            var r := AssignOne(entry, ports);
            if need > |ports| then r == NoPorts
            else && r.Assigned? && |r.list| == 1 && r.ports == ports[need..] && SameContainer(entry, r.list[0])
                 && HostParts(r.list) == Decimals(ports[..need])
  {
    var need := if Mapped(entry) then 1 else 0;
    if need <= |ports| {
      var r := AssignOne(entry, ports);
      if Mapped(entry) {
        TwoParts(Decimal(ports[0]), ContainerPart(entry));
      }
      assert r.list[..0] == [];
      assert HostParts(r.list) == Decimals(ports[..need]);
    }
  }

  /** What `r` owes the first `n` entries: failure if the mapped ones outnumber the ports; else the host parts
      are, in order, the ports taken off the cursor, and every entry keeps its container port. */
  ghost predicate AssignsWell(list: seq<Value>, ports: seq<nat>, n: nat, r: Assigned)
    requires n <= |list|
  {
    var need := CountMapped(list, n);
    if need > |ports| then r == NoPorts
    else && r.Assigned? && |r.list| == n && r.ports == ports[need..]
         && HostParts(r.list) == Decimals(ports[..need])
         && forall i :: 0 <= i < n ==> SameContainer(list[i], r.list[i])
  }

  lemma {:induction false} AssignsOneMore(list: seq<Value>, ports: seq<nat>, n: nat, before: Assigned, one: Assigned)
    requires n < |list| && list[n].Str? && AssignsWell(list, ports, n, before) && before.Assigned?
    requires one == AssignOne(list[n], before.ports)
    ensures if one.Assigned? then AssignsWell(list, ports, n + 1, Assigned(before.list + one.list, one.ports))
            else AssignsWell(list, ports, n + 1, one)
  {
    hide AssignOne, HostParts, Decimals, SameContainer;
    AssignOneMeans(list[n], before.ports);
    if one.Assigned? {
      HostPartsAppend(before.list, one.list);
      TakeMore(ports, CountMapped(list, n), CountMapped(list, n + 1));
    }
  }

  /** The assignment fails exactly when the mapped entries outnumber the ports, and else gives them out in order. */
  lemma {:induction false} AssignMeans(list: seq<Value>, ports: seq<nat>, n: nat)
    requires n <= |list| && forall i :: 0 <= i < n ==> list[i].Str?
    ensures AssignsWell(list, ports, n, Assign(list, ports, n))
  {
    hide *;
    if n == 0 {
      AssignNone(list, ports);
      NothingAssigned(list, ports);
    } else {
      AssignMeans(list, ports, n - 1);
      var before := Assign(list, ports, n - 1);
      if before.Assigned? {
        AssignNext(list, ports, n - 1);
        AssignsOneMore(list, ports, n - 1, before, AssignOne(list[n - 1], before.ports));
      } else {
        AssignStuck(list, ports, n - 1);
        StaysStuck(list, ports, n, before);
      }
    }
  }

  lemma {:induction false} NothingAssigned(list: seq<Value>, ports: seq<nat>)
    ensures AssignsWell(list, ports, 0, Assigned([], ports))
  {
    assert Decimals(ports[..0]) == [];
  }

  lemma {:induction false} StaysStuck(list: seq<Value>, ports: seq<nat>, n: nat, r: Assigned)
    requires 0 < n <= |list| && AssignsWell(list, ports, n - 1, r) && !r.Assigned?
    ensures AssignsWell(list, ports, n, r)
  {}

  /** With ports enough for every mapped entry, only an entry that is not a string stops the assignment. */
  lemma {:induction false} AssignEnough(list: seq<Value>, ports: seq<nat>, n: nat)
    requires n <= |list| && CountMapped(list, n) <= |ports|
    ensures var r := Assign(list, ports, n);
            && r != NoPorts && (r.Assigned? ==> r.ports == ports[CountMapped(list, n)..])
            && (r.Assigned? <==> forall i :: 0 <= i < n ==> list[i].Str?)
  {
    hide *;
    CountGrows(list, n);
    if n == 0 {
      AssignNone(list, ports);
    } else {
      AssignEnough(list, ports, n - 1);
      if Assign(list, ports, n - 1).Assigned? {
        AssignNext(list, ports, n - 1);
        if list[n - 1].Str? {
          AssignMeans(list, ports, n);
          WellMeans(list, ports, n, Assign(list, ports, n));
        } else {
          OnlyStrings(list[n - 1], Assign(list, ports, n - 1).ports);
        }
      } else {
        AssignStuck(list, ports, n - 1);
      }
    }
  }

  lemma {:induction false} CountGrows(list: seq<Value>, n: nat)
    requires n <= |list|
    ensures CountMapped(list, 0) == 0 && (n > 0 ==> CountMapped(list, n - 1) <= CountMapped(list, n))
  {}

  lemma {:induction false} WellMeans(list: seq<Value>, ports: seq<nat>, n: nat, r: Assigned)
    requires n <= |list| && AssignsWell(list, ports, n, r) && CountMapped(list, n) <= |ports|
    ensures r.Assigned? && r.ports == ports[CountMapped(list, n)..]
  {}

  lemma {:induction false} OnlyStrings(entry: Value, ports: seq<nat>)
    requires !entry.Str?
    ensures AssignOne(entry, ports) == Panicked
  {}

  lemma {:induction false} AssignStuck(list: seq<Value>, ports: seq<nat>, i: nat)
    requires i < |list| && !Assign(list, ports, i).Assigned?
    ensures Assign(list, ports, i + 1) == Assign(list, ports, i)
  {}

  lemma {:induction false} TakeMore(ports: seq<nat>, a: nat, b: nat)
    requires a <= b <= |ports|
    ensures ports[a..][b - a..] == ports[b..]
    ensures Decimals(ports[..a]) + Decimals(ports[a..][..b - a]) == Decimals(ports[..b])
  {}

  /** The loop that writes the entries in place. */
  method AssignPorts(list: seq<Value>, ports: seq<nat>) returns (r: Assigned, single: bool)
    ensures r == Assign(list, ports, |list|)
    ensures r.Assigned? ==> (single <==> exists i :: 0 <= i < |list| && !Mapped(list[i]))
  {
    hide Assign, Decimal, Parts;
    var portList, cursor := list, ports;
    single := false;
    AssignNone(list, ports);
    for i := 0 to |list|
      invariant |portList| == |list| && portList[i..] == list[i..]
      invariant Assign(list, ports, i) == Assigned(portList[..i], cursor)
      invariant single <==> exists k :: 0 <= k < i && !Mapped(list[k])
    {
      var p := portList[i];
      assert p == list[i] by { assert portList[i..][0] == list[i..][0]; }
      AssignNext(list, ports, i);
      if !p.Str? {
        AssignFails(list, ports, i);
        return Panicked, single;
      }
      var portMap := Parts(p.s);
      if |portMap| > 1 {
        if cursor == [] {
          AssignFails(list, ports, i);
          return NoPorts, single;
        }
        portList := portList[i := Str(Decimal(cursor[0]) + ":" + portMap[1])];
        cursor := cursor[1..];
      } else {
        single := true;
      }
      assert portList[..i + 1] == portList[..i] + [portList[i]];
    }
    r := Assigned(portList, cursor);
  }

  lemma {:induction false} AssignNone(list: seq<Value>, ports: seq<nat>)
    ensures Assign(list, ports, 0) == Assigned([], ports)
  {}

  lemma {:induction false} AssignNext(list: seq<Value>, ports: seq<nat>, i: nat)
    requires i < |list| && Assign(list, ports, i).Assigned?
    ensures var before := Assign(list, ports, i);
            Assign(list, ports, i + 1)
            == match AssignOne(list[i], before.ports)
               case Assigned(entry, rest) => Assigned(before.list + entry, rest)
               case failure => failure
  {}

  /** A failure at one entry is the failure of the whole list. */
  lemma {:induction false} AssignFails(list: seq<Value>, ports: seq<nat>, i: nat)
    requires i < |list| && !Assign(list, ports, i + 1).Assigned?
    ensures Assign(list, ports, |list|) == Assign(list, ports, i + 1)
  {
    for n := i + 1 to |list|
      invariant Assign(list, ports, n) == Assign(list, ports, i + 1)
    {}
  }
}
