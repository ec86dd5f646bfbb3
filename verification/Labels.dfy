/** Looking up a label of the task, alone or by the last part of a dotted key (utils/pod/pod.go). */
module Labels {
  import opened Strings

  datatype Label = Label(key: string, value: string)

  /** The test of `GetLabel`: the key itself, or the key after a dot. */
  predicate Matches(lKey: string, key: string) {
    lKey == key || (|lKey| > |key| && HasSuffix(lKey, key) && lKey[|lKey| - |key| - 1] == '.')
  }

  /** The position behind the last dot of the first `n` characters. */
  function AfterDot(s: string, n: nat): (k: nat)
    requires n <= |s|
    ensures k <= n && (k > 0 ==> s[k - 1] == '.') && forall i :: k <= i < n ==> s[i] != '.'
  {
    if n == 0 || s[n - 1] == '.' then n else AfterDot(s, n - 1)
  }

  /** The last element of `strings.Split(s, ".")`. */
  function LastPart(s: string): (p: string)
    ensures '.' !in p && HasSuffix(s, p)
    ensures |p| < |s| ==> s[|s| - |p| - 1] == '.'
  {
    s[AfterDot(s, |s|)..]
  }

  /** The test of `GetAndRemoveLabel`: the key itself, or a dotted label whose last part is the key. */
  predicate MatchesToRemove(lKey: string, key: string) {
    lKey == key || (Contains(lKey, key) && '.' in lKey && LastPart(lKey) == key)
  }

  lemma {:induction false} LastPartIs(s: string, p: string)
    requires '.' !in p && HasSuffix(s, p) && (|p| < |s| ==> s[|s| - |p| - 1] == '.')
    ensures LastPart(s) == p
  {
    var q := LastPart(s);
    DotFreeEnd(s, p);
    DotFreeEnd(s, q);
  }

  lemma {:induction false} DotFreeEnd(s: string, p: string)
    requires '.' !in p && HasSuffix(s, p)
    ensures forall k :: |s| - |p| <= k < |s| ==> s[k] != '.'
  {
    forall k | |s| - |p| <= k < |s| ensures s[k] != '.' {
      assert s[k] == p[k - (|s| - |p|)];
    }
  }

  lemma {:induction false} SameTest(lKey: string, key: string)
    requires '.' !in key
    ensures Matches(lKey, key) <==> MatchesToRemove(lKey, key)
  {
    if lKey != key {
      if Matches(lKey, key) {
        LastPartIs(lKey, key);
        assert key <= lKey[|lKey| - |key|..];
      } else if MatchesToRemove(lKey, key) {
        NotWhole(lKey);
      }
    }
  }

  lemma {:induction false} NotWhole(s: string)
    requires '.' in s
    ensures |LastPart(s)| < |s|
  {
    DotFreeEnd(s, LastPart(s));
  }

  /** The two look-ups recognise the same labels, whatever the label, exactly when the key has no dot. */
  lemma {:induction false} LookUpsAgreeIff(key: string)
    ensures (forall lKey :: Matches(lKey, key) <==> MatchesToRemove(lKey, key)) <==> '.' !in key
  {
    if '.' in key {
      var lKey := "x." + key;
      assert lKey[2..] == key;
      assert Matches(lKey, key) && !MatchesToRemove(lKey, key);
    } else {
      forall lKey ensures Matches(lKey, key) <==> MatchesToRemove(lKey, key) {
        SameTest(lKey, key);
      }
    }
  }

  /** The label is the key, or ends in a dot and the key. */
  predicate Names(lKey: string, key: string) {
    lKey == key || HasSuffix(lKey, "." + key)
  }

  /** The same, but a key with a dot names only itself. */
  predicate NamesUndotted(lKey: string, key: string) {
    lKey == key || ('.' !in key && HasSuffix(lKey, "." + key))
  }

  /** The two tests in other words: the label is the key, or ends in a dot and the key; and the second test
      recognises the latter for keys without a dot only. */
  lemma {:induction false} TestsMean(lKey: string, key: string)
    ensures Matches(lKey, key) <==> Names(lKey, key)
    ensures MatchesToRemove(lKey, key) <==> NamesUndotted(lKey, key)
  {
    DottedSuffix(lKey, key);
    if '.' !in key {
      SameTest(lKey, key);
    }
  }

  lemma {:induction false} DottedSuffix(s: string, key: string)
    ensures HasSuffix(s, "." + key) <==> |s| > |key| && HasSuffix(s, key) && s[|s| - |key| - 1] == '.'
  {
    var n := |s| - |key|;
    if n > 0 {
      assert s[n - 1..] == [s[n - 1]] + s[n..];
      assert ("." + key)[1..] == key;
    }
  }

  // ---------------------------------------------------------------- the look-ups

  /** The first label at or after `i` that passes the test, or the number of labels. */
  function First(labels: seq<Label>, test: string -> bool, i: nat): (f: nat)
    requires i <= |labels|
    ensures i <= f <= |labels|
    ensures f < |labels| ==> test(labels[f].key)
    ensures forall k :: i <= k < f ==> !test(labels[k].key)
    decreases |labels| - i
  {
    if i == |labels| || test(labels[i].key) then i else First(labels, test, i + 1)
  }

  function Found(labels: seq<Label>, test: string -> bool): string {
    var f := First(labels, test, 0);
    if f < |labels| then labels[f].value else ""
  }

  function Exactly(key: string): string -> bool {
    lKey => Matches(lKey, key)
  }

  function ToRemove(key: string): string -> bool {
    lKey => MatchesToRemove(lKey, key)
  }

  function Naming(key: string): string -> bool {
    lKey => Names(lKey, key)
  }

  function NamingUndotted(key: string): string -> bool {
    lKey => NamesUndotted(lKey, key)
  }

  /** The value of the first label that passes, or nothing. */
  ghost predicate ValueOfFirst(labels: seq<Label>, test: string -> bool, value: string) {
    && ((forall l :: l in labels ==> !test(l.key)) ==> value == "")
    && (forall i :: 0 <= i < |labels| && test(labels[i].key) && (forall k :: 0 <= k < i ==> !test(labels[k].key))
                    ==> value == labels[i].value)
  }

  /** The labels without the first that passes. */
  ghost predicate WithoutFirst(labels: seq<Label>, test: string -> bool, labels': seq<Label>) {
    && ((forall l :: l in labels ==> !test(l.key)) ==> labels' == labels)
    && (forall i :: 0 <= i < |labels| && test(labels[i].key) && (forall k :: 0 <= k < i ==> !test(labels[k].key))
                    ==> labels' == labels[..i] + labels[i + 1..])
  }

  lemma {:induction false} FoundIs(labels: seq<Label>, test: string -> bool)
    ensures var f := First(labels, test, 0);
            Found(labels, test) == if f < |labels| then labels[f].value else ""
  {}

  lemma {:induction false} FirstMeans(labels: seq<Label>, test: string -> bool, test': string -> bool)
    requires forall l :: test(l) <==> test'(l)
    ensures var f := First(labels, test, 0);
            && ValueOfFirst(labels, test', if f < |labels| then labels[f].value else "")
            && WithoutFirst(labels, test', if f < |labels| then labels[..f] + labels[f + 1..] else labels)
  {
    var f := First(labels, test, 0);
    assert f < |labels| ==> labels[f] in labels;
    forall i | 0 <= i < |labels| && test'(labels[i].key) && (forall k :: 0 <= k < i ==> !test'(labels[k].key))
      ensures i == f
    {}
  }

  lemma {:induction false} FoundMeans(labels: seq<Label>, key: string)
    ensures ValueOfFirst(labels, Naming(key), Found(labels, Exactly(key)))
  {
    hide Matches, Names, ValueOfFirst, WithoutFirst;
    forall l ensures Exactly(key)(l) <==> Naming(key)(l) {
      TestsMean(l, key);
    }
    FirstMeans(labels, Exactly(key), Naming(key));
  }

  lemma {:induction false} RemovedMeans(labels: seq<Label>, key: string)
    ensures var f := First(labels, ToRemove(key), 0);
            && ValueOfFirst(labels, NamingUndotted(key), Found(labels, ToRemove(key)))
            && WithoutFirst(labels, NamingUndotted(key),
                            if f < |labels| then labels[..f] + labels[f + 1..] else labels)
  {
    hide MatchesToRemove, NamesUndotted, ValueOfFirst, WithoutFirst;
    forall l ensures ToRemove(key)(l) <==> NamingUndotted(key)(l) {
      TestsMean(l, key);
    }
    FirstMeans(labels, ToRemove(key), NamingUndotted(key));
  }

  class TaskInfo {
    var labels: seq<Label>

    method GetLabel(key: string) returns (value: string)
      ensures value == Found(labels, Exactly(key))
      ensures ValueOfFirst(labels, Naming(key), value)
    {
      FoundMeans(labels, key);
      hide ValueOfFirst, Found, Naming;
      FoundIs(labels, Exactly(key));
      for i := 0 to |labels|
        invariant First(labels, Exactly(key), i) == First(labels, Exactly(key), 0)
      {
        var lKey := labels[i].key;
        if lKey == key {
          return labels[i].value;
        } else if |lKey| > |key| && HasSuffix(lKey, key) && lKey[|lKey| - |key| - 1] == '.' {
          return labels[i].value;
        }
      }
      return "";
    }

    /** The first label that passes is taken out of the list, and no other. */
    method GetAndRemoveLabel(key: string) returns (value: string)
      modifies this
      ensures value == Found(old(labels), ToRemove(key))
      ensures var f := First(old(labels), ToRemove(key), 0);
              labels == if f < |old(labels)| then old(labels)[..f] + old(labels)[f + 1..] else old(labels)
      ensures '.' !in key ==> value == Found(old(labels), Exactly(key))
      ensures ValueOfFirst(old(labels), NamingUndotted(key), value)
      ensures WithoutFirst(old(labels), NamingUndotted(key), labels)
    {
      RemovedMeans(labels, key);
      hide ValueOfFirst, WithoutFirst, Found, Naming, NamingUndotted;
      FoundIs(labels, ToRemove(key));
      if '.' !in key {
        SameFirst(labels, key, 0);
        FoundIs(labels, Exactly(key));
      }
      for i := 0 to |labels|
        invariant labels == old(labels)
        invariant First(labels, ToRemove(key), i) == First(labels, ToRemove(key), 0)
      {
        var entry := labels[i];
        if entry.key == key {
          labels := labels[..i] + labels[i + 1..];
          return entry.value;
        }
        if Contains(entry.key, key) && '.' in entry.key {
          if LastPart(entry.key) == key {
            labels := labels[..i] + labels[i + 1..];
            return entry.value;
          }
        }
      }
      return "";
    }
  }

  lemma {:induction false} SameFirst(labels: seq<Label>, key: string, i: nat)
    requires i <= |labels| && '.' !in key
    ensures First(labels, ToRemove(key), i) == First(labels, Exactly(key), i)
    decreases |labels| - i
  {
    if i == |labels| {
    } else {
      SameTest(labels[i].key, key);
      SameFirst(labels, key, i + 1);
    }
  }
}
