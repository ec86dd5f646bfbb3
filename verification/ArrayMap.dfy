/** The two forms of a compose section: a list of `key=value` entries and a mapping (utils/file/file.go). Both
    hold arbitrary YAML values. */
module ArrayMap {
  import opened PodTypes
  import opened Ports
  import opened Walk

  function FindEquals(s: string, from: nat): (i: nat)
    requires from <= |s|
    ensures from <= i <= |s| && (i < |s| ==> s[i] == '=')
    ensures forall k :: from <= k < i ==> s[k] != '='
    decreases |s| - from
  {
    if from == |s| || s[from] == '=' then from else FindEquals(s, from + 1)
  }

  /** `strings.SplitN(s, "=", 2)`: the key, and the value if there is an equals sign. */
  function KeyOf(s: string): string {
    s[..FindEquals(s, 0)]
  }

  function ValueOf(s: string): string {
    var i := FindEquals(s, 0);
    if i < |s| then s[i + 1..] else ""
  }

  /** What Go's fmt prints for a value, as a string and as a value. */
  datatype Format = Format(asString: Value -> string, asValue: Value -> string)

  /** Strings are printed as they are; nothing else is known about the printing. */
  ghost predicate PrintsStrings(show: Format) {
    forall s :: show.asString(Str(s)) == s && show.asValue(Str(s)) == s
  }

  /** The entry of a key and its value; without a value it is the key itself. */
  function Entry(key: Value, value: Value, show: Format): Value {
    if value != Str("") then Str(show.asString(key) + "=" + show.asValue(value)) else key
  }

  lemma {:induction false} EntryParts(key: string, value: string, show: Format)
    requires '=' !in key && PrintsStrings(show)
    ensures var e := Entry(Str(key), Str(value), show); e.Str? && KeyOf(e.s) == key && ValueOf(e.s) == value
  {
    var s := if value != "" then key + "=" + value else key;
    assert Entry(Str(key), Str(value), show) == Str(s);
    forall k | 0 <= k < |key| ensures s[k] == key[k] {}
    if value != "" {
      assert s[|key|] == '=' && s[|key| + 1..] == value;
    }
    assert FindEquals(s, 0) == |key|;
  }

  type Section = map<Value, Value>

  /** The mapping of the first `n` entries; a later entry overrides an earlier one, and an entry that is not a
      string makes Go panic. */
  function MapOf(arr: seq<Value>, n: nat): Option<Section>
    requires n <= |arr|
  {
    if n == 0 then Some(map[])
    else
      match MapOf(arr, n - 1)
      case None => None
      case Some(m) =>
        if arr[n - 1].Str? then Some(m[Str(KeyOf(arr[n - 1].s)) := Str(ValueOf(arr[n - 1].s))]) else None
  }

  lemma {:induction false} PanicsFrom(arr: seq<Value>, n: nat)
    requires n <= |arr| && MapOf(arr, n) == None
    ensures MapOf(arr, |arr|) == None
    decreases |arr| - n
  {
    if n == |arr| {
    } else {
      PanicsFrom(arr, n + 1);
    }
  }

  lemma {:induction false} PanicsAt(arr: seq<Value>, n: nat)
    requires n < |arr|
    ensures MapOf(arr, n + 1).Some? <==> MapOf(arr, n).Some? && arr[n].Str?
    ensures MapOf(arr, 0).Some?
  {}

  /** Only a list of strings has a mapping. */
  lemma {:induction false} PanicsIff(arr: seq<Value>, n: nat)
    requires n <= |arr|
    ensures MapOf(arr, n).Some? <==> forall i :: 0 <= i < n ==> arr[i].Str?
  {
    if n == 0 {
    } else {
      hide *;
      PanicsIff(arr, n - 1);
      PanicsAt(arr, n - 1);
    }
  }

  method ConvertArrayToMap(arr: seq<Value>) returns (r: Option<Section>)
    ensures r == MapOf(arr, |arr|)
  {
    var m: Section := map[];
    for i := 0 to |arr|
      invariant MapOf(arr, i) == Some(m)
    {
      if !arr[i].Str? {
        PanicsFrom(arr, i + 1);
        return None;
      }
      m := m[Str(KeyOf(arr[i].s)) := Str(ValueOf(arr[i].s))];
    }
    return Some(m);
  }

  ghost function ArrayOf(m: Section, order: seq<Value>, show: Format): (a: seq<Value>)
    requires forall k :: k in order ==> k in m
    ensures |a| == |order| && forall i :: 0 <= i < |a| ==> a[i] == Entry(order[i], m[order[i]], show)
  {
    seq(|order|, i requires 0 <= i < |order| => Entry(order[i], m[order[i]], show))
  }

  method ConvertMapToArray(m: Section, order: seq<Value>, show: Format) returns (a: seq<Value>)
    requires WalkOf(m.Keys, order)
    ensures a == ArrayOf(m, order, show)
    ensures |a| == |order|
    ensures forall i :: 0 <= i < |order|
                        ==> a[i] == if m[order[i]] == Str("") then order[i]
                                    else Str(show.asString(order[i]) + "=" + show.asValue(m[order[i]]))
  {
    a := [];
    for i := 0 to |order|
      invariant |a| == i && forall k :: 0 <= k < i ==> a[k] == Entry(order[k], m[order[k]], show)
    {
      var k, v := order[i], m[order[i]];
      if v != Str("") {
        a := a + [Str(show.asString(k) + "=" + show.asValue(v))];
      } else {
        a := a + [k];
      }
    }
  }

  // ---------------------------------------------------------------- from a mapping and back

  /** A mapping of strings to strings, without equals signs in its keys. */
  ghost predicate PlainKeys(m: Section) {
    forall k :: k in m ==> k.Str? && m[k].Str? && '=' !in k.s
  }

  lemma {:induction false} MappingIsPlain(arr: seq<Value>, n: nat)
    requires n <= |arr| && MapOf(arr, n).Some?
    ensures PlainKeys(MapOf(arr, n).value)
  {
    if n == 0 {
    } else {
      MappingIsPlain(arr, n - 1);
    }
  }

  ghost predicate Restores(m: Section, keys: seq<Value>, back: Option<Section>) {
    && back.Some?
    && (forall k :: k in back.value <==> k in keys)
    && (forall k :: k in keys ==> k in m && back.value[k] == m[k])
  }

  lemma {:induction false} RestoresOneMore(m: Section, keys: seq<Value>, back: Option<Section>, key: Value)
    requires Restores(m, keys, back) && key in m
    ensures Restores(m, keys + [key], Some(back.value[key := m[key]]))
  {}

  lemma {:induction false} RestoresSome(m: Section, keys: seq<Value>, back: Option<Section>)
    requires Restores(m, keys, back)
    ensures back.Some?
  {}

  lemma {:induction false} NthEntry(m: Section, order: seq<Value>, i: nat, show: Format)
    requires i < |order| && (forall k :: k in order ==> k in m) && PlainKeys(m) && PrintsStrings(show)
    ensures var e, key := ArrayOf(m, order, show)[i], order[i];
            e.Str? && Str(KeyOf(e.s)) == key && Str(ValueOf(e.s)) == m[key]
  {
    EntryParts(order[i].s, m[order[i]].s, show);
  }

  lemma {:induction false} NothingRestored(m: Section, order: seq<Value>)
    ensures Restores(m, order[..0], Some(map[]))
  {}

  /** After the first `n` keys: just those, with their values. */
  lemma {:induction false} MapBack(m: Section, order: seq<Value>, n: nat, show: Format)
    requires n <= |order| && (forall k :: k in order ==> k in m) && PlainKeys(m) && PrintsStrings(show)
    ensures Restores(m, order[..n], MapOf(ArrayOf(m, order, show), n))
  {
    hide KeyOf, ValueOf, Entry, Restores, PlainKeys, PrintsStrings, ArrayOf;
    if n == 0 {
      NothingRestored(m, order);
    } else {
      var key, before := order[n - 1], MapOf(ArrayOf(m, order, show), n - 1);
      MapBack(m, order, n - 1, show);
      RestoresSome(m, order[..n - 1], before);
      NthEntry(m, order, n - 1, show);
      assert order[..n] == order[..n - 1] + [key];
      RestoresOneMore(m, order[..n - 1], before, key);
    }
  }

  lemma {:induction false} RestoredWhole(m: Section, order: seq<Value>, back: Option<Section>)
    requires WalkOf(m.Keys, order) && Restores(m, order, back)
    ensures back == Some(m)
  {
    assert back.value == m;
  }

  /** A mapping survives becoming a list, in any order of its keys, exactly when it maps strings to strings and
      no key has an equals sign. */
  lemma {:induction false} MapRoundTripIff(m: Section, order: seq<Value>, show: Format)
    requires WalkOf(m.Keys, order) && PrintsStrings(show)
    ensures MapOf(ArrayOf(m, order, show), |order|) == Some(m) <==> PlainKeys(m)
  {
    hide MapOf, PlainKeys, PrintsStrings, Entry, Restores;
    var arr := ArrayOf(m, order, show);
    if PlainKeys(m) {
      MapBack(m, order, |order|, show);
      assert order[..|order|] == order;
      RestoredWhole(m, order, MapOf(arr, |order|));
    } else if MapOf(arr, |order|).Some? {
      MappingIsPlain(arr, |order|);
      assert MapOf(arr, |order|).value != m;
    }
  }

  // ---------------------------------------------------------------- from a list and back

  /** The key of an entry. */
  function KeyIn(entry: Value): Value {
    if entry.Str? then Str(KeyOf(entry.s)) else entry
  }

  /** An entry with an empty value loses its equals sign. */
  function Normal(entry: Value): Value {
    if !entry.Str? then entry
    else if ValueOf(entry.s) == "" then Str(KeyOf(entry.s))
    else Str(KeyOf(entry.s) + "=" + ValueOf(entry.s))
  }

  lemma {:induction false} NormalIs(s: string)
    ensures Normal(Str(s)) == Str(if |s| > 0 && FindEquals(s, 0) == |s| - 1 then s[..|s| - 1] else s)
  {
    var i := FindEquals(s, 0);
    if i < |s| - 1 {
      assert s == s[..i] + "=" + s[i + 1..];
    } else if i == |s| {
      assert s[..i] == s;
    }
  }

  predicate AllStrs(arr: seq<Value>) {
    forall i :: 0 <= i < |arr| ==> arr[i].Str?
  }

  function Keys(arr: seq<Value>): (ks: seq<Value>)
    ensures |ks| == |arr| && forall i :: 0 <= i < |ks| ==> ks[i] == KeyIn(arr[i])
  {
    seq(|arr|, i requires 0 <= i < |arr| => KeyIn(arr[i]))
  }

  function Normals(arr: seq<Value>): (ns: seq<Value>)
    ensures |ns| == |arr| && forall i :: 0 <= i < |ns| ==> ns[i] == Normal(arr[i])
  {
    seq(|arr|, i requires 0 <= i < |arr| => Normal(arr[i]))
  }

  lemma {:induction false} OneMoreEntry(arr: seq<Value>, n: nat)
    requires n < |arr| && MapOf(arr, n + 1).Some?
    ensures MapOf(arr, n).Some? && arr[n].Str?
    ensures MapOf(arr, n + 1).value == MapOf(arr, n).value[KeyIn(arr[n]) := Str(ValueOf(arr[n].s))]
    ensures MapOf(arr, 0) == Some(map[])
  {}

  lemma {:induction false} InMap(arr: seq<Value>, n: nat, i: nat)
    requires i < n <= |arr| && MapOf(arr, n).Some?
    ensures KeyIn(arr[i]) in MapOf(arr, n).value
  {
    hide *;
    OneMoreEntry(arr, n - 1);
    if i == n - 1 {
    } else {
      InMap(arr, n - 1, i);
    }
  }

  lemma {:induction false} FromEntry(arr: seq<Value>, n: nat, k: Value) returns (i: nat)
    requires n <= |arr| && MapOf(arr, n).Some? && k in MapOf(arr, n).value
    ensures i < n && arr[i].Str? && KeyIn(arr[i]) == k && MapOf(arr, n).value[k] == Str(ValueOf(arr[i].s))
  {
    hide KeyIn, ValueOf;
    i := n - 1;
    OneMoreEntry(arr, i);
    if KeyIn(arr[i]) == k {
    } else {
      i := FromEntry(arr, n - 1, k);
    }
  }

  /** An entry is split at its first equals sign; without one it is all key. */
  lemma {:induction false} SplitMeans(s: string)
    ensures '=' !in KeyOf(s)
    ensures if '=' in s then s == KeyOf(s) + "=" + ValueOf(s) else s == KeyOf(s) && ValueOf(s) == ""
  {
    var i := FindEquals(s, 0);
    assert i < |s| ==> s == s[..i] + "=" + s[i + 1..];
    assert i == |s| ==> s[..i] == s;
  }

  /** What the mapping holds: just the keys of the entries, each with the value of its last entry. */
  lemma {:induction false} MappingMeans(arr: seq<Value>, n: nat)
    requires n <= |arr| && MapOf(arr, n).Some?
    ensures var m := MapOf(arr, n).value;
            && (forall k :: k in m <==> exists i :: 0 <= i < n && KeyIn(arr[i]) == k)
            && (forall i :: 0 <= i < n && (forall j :: i < j < n ==> KeyIn(arr[j]) != KeyIn(arr[i]))
                            ==> arr[i].Str? && KeyIn(arr[i]) in m && m[KeyIn(arr[i])] == Str(ValueOf(arr[i].s)))
  {
    hide KeyIn, ValueOf, MapOf;
    if n == 0 {
      NoEntries(arr);
    } else {
      OneMoreEntry(arr, n - 1);
      MappingMeans(arr, n - 1);
    }
  }

  lemma {:induction false} NoEntries(arr: seq<Value>)
    ensures MapOf(arr, 0) == Some(map[])
  {}

  /** An entry comes back if no other has its key. */
  lemma {:induction false} EntryIn(arr: seq<Value>, i: nat, show: Format)
    requires MapOf(arr, |arr|).Some? && Distinct(Keys(arr)) && i < |arr| && PrintsStrings(show)
    ensures var m, k := MapOf(arr, |arr|).value, KeyIn(arr[i]); k in m && Entry(k, m[k], show) == Normal(arr[i])
  {
    hide MapOf;
    InMap(arr, |arr|, i);
    var j := FromEntry(arr, |arr|, KeyIn(arr[i]));
    assert Keys(arr)[i] == Keys(arr)[j];
  }

  lemma {:induction false} MapSize(arr: seq<Value>, n: nat)
    requires n <= |arr| && MapOf(arr, n).Some?
    ensures |MapOf(arr, n).value| <= n
  {
    hide KeyIn, ValueOf;
    if n == 0 {
    } else {
      OneMoreEntry(arr, n - 1);
      MapSize(arr, n - 1);
      PutSize(MapOf(arr, n - 1).value, KeyIn(arr[n - 1]), Str(ValueOf(arr[n - 1].s)));
    }
  }

  lemma {:induction false} PutSize(m: Section, k: Value, v: Value)
    ensures |m[k := v]| == if k in m then |m| else |m| + 1
  {
    assert m[k := v].Keys == m.Keys + {k};
    assert |m[k := v]| == |m[k := v].Keys| && |m| == |m.Keys|;
    assert k in m ==> m.Keys + {k} == m.Keys;
  }

  /** Two entries with one key make the mapping shorter than the list. */
  lemma {:induction false} Shorter(arr: seq<Value>, n: nat, i: nat, j: nat)
    requires i < j < n <= |arr| && KeyIn(arr[i]) == KeyIn(arr[j]) && MapOf(arr, n).Some?
    ensures |MapOf(arr, n).value| < n
  {
    hide *;
    OneMoreEntry(arr, n - 1);
    PutSize(MapOf(arr, n - 1).value, KeyIn(arr[n - 1]), Str(ValueOf(arr[n - 1].s)));
    if j == n - 1 {
      InMap(arr, n - 1, i);
      MapSize(arr, n - 1);
    } else {
      Shorter(arr, n - 1, i, j);
    }
  }

  lemma {:induction false} SameEntries(arr: seq<Value>, order: seq<Value>, show: Format)
    requires MapOf(arr, |arr|).Some? && PrintsStrings(show)
    requires Distinct(Keys(arr)) && WalkOf(MapOf(arr, |arr|).value.Keys, order)
    ensures var back := ArrayOf(MapOf(arr, |arr|).value, order, show); forall x :: x in back <==> x in Normals(arr)
  {
    hide KeyIn, ValueOf, Entry, Normal, MapOf, PrintsStrings;
    var m := MapOf(arr, |arr|).value;
    var back := ArrayOf(m, order, show);
    forall i | 0 <= i < |back| ensures back[i] in Normals(arr) {
      var j := FromEntry(arr, |arr|, order[i]);
      EntryIn(arr, j, show);
      assert Normals(arr)[j] == back[i];
    }
    forall j | 0 <= j < |arr| ensures Normals(arr)[j] in back {
      EntryIn(arr, j, show);
      assert KeyIn(arr[j]) in order;
      var i :| 0 <= i < |order| && order[i] == KeyIn(arr[j]);
      assert back[i] == Normals(arr)[j];
    }
  }

  lemma {:induction false} EntriesApart(ks: seq<Value>, entries: seq<Value>)
    requires Distinct(ks) && |ks| == |entries|
    requires forall i :: 0 <= i < |ks| ==> KeyIn(entries[i]) == ks[i]
    ensures Distinct(entries)
  {}

  lemma {:induction false} NormalKey(s: string)
    ensures KeyIn(Normal(Str(s))) == KeyIn(Str(s))
  {
    var show := Format((v: Value) => if v.Str? then v.s else "", (v: Value) => if v.Str? then v.s else "");
    EntryParts(KeyOf(s), ValueOf(s), show);
  }

  lemma {:induction false} BothDistinct(arr: seq<Value>, order: seq<Value>, show: Format)
    requires MapOf(arr, |arr|).Some? && PrintsStrings(show)
    requires Distinct(Keys(arr)) && WalkOf(MapOf(arr, |arr|).value.Keys, order)
    ensures Distinct(Normals(arr)) && Distinct(ArrayOf(MapOf(arr, |arr|).value, order, show))
  {
    hide KeyOf, ValueOf, Entry, Normal, MapOf, PrintsStrings;
    var m := MapOf(arr, |arr|).value;
    PanicsIff(arr, |arr|);
    forall i | 0 <= i < |arr| ensures KeyIn(Normals(arr)[i]) == Keys(arr)[i] {
      NormalKey(arr[i].s);
    }
    EntriesApart(Keys(arr), Normals(arr));
    MappingIsPlain(arr, |arr|);
    forall i | 0 <= i < |order| ensures KeyIn(ArrayOf(m, order, show)[i]) == order[i] {
      EntryParts(order[i].s, m[order[i]].s, show);
    }
    EntriesApart(order, ArrayOf(m, order, show));
  }

  /** A list of strings survives becoming a mapping, up to its order and the equals sign before an empty value,
      exactly when its keys are distinct. */
  lemma {:induction false} ArrayRoundTripIff(arr: seq<Value>, order: seq<Value>, show: Format)
    requires AllStrs(arr) && PrintsStrings(show)
    requires MapOf(arr, |arr|).Some? ==> WalkOf(MapOf(arr, |arr|).value.Keys, order)
    ensures MapOf(arr, |arr|).Some?
    ensures multiset(ArrayOf(MapOf(arr, |arr|).value, order, show)) == multiset(Normals(arr)) <==> Distinct(Keys(arr))
  {
    hide KeyIn, ValueOf, Entry, Normal, MapOf, PrintsStrings;
    PanicsIff(arr, |arr|);
    var m := MapOf(arr, |arr|).value;
    var back := ArrayOf(m, order, show);
    if Distinct(Keys(arr)) {
      BothDistinct(arr, order, show);
      SameEntries(arr, order, show);
      SameElements(back, Normals(arr));
    } else {
      var i, j :| 0 <= i < j < |arr| && Keys(arr)[i] == Keys(arr)[j];
      Shorter(arr, |arr|, i, j);
      WalkSize(m.Keys, order);
      assert |m.Keys| == |m| && |multiset(back)| == |back| && |multiset(Normals(arr))| == |arr|;
    }
  }
}
