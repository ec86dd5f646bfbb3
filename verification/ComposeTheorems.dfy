/** What holds of every run over the compose files of a pod, whatever the order in which Go walks them. */
module ComposeTheorems {
  import opened PodTypes
  import opened ServiceEdit
  import opened Strings
  import opened ComposeFiles
  import opened Walk

  // ---------------------------------------------------------------- file names

  lemma {:induction false} RenamedIs(file: string)
    ensures Contains(Renamed(file), POSTFIX) && Renamed(file) != "" && Renamed(Renamed(file)) == Renamed(file)
    ensures Renamed(file) == if Contains(file, "-generated.yml") then file else file + "-generated.yml"
  {
    if !Contains(file, POSTFIX) {
      assert POSTFIX <= (file + POSTFIX)[|file|..];
    }
  }

  /** Two files get the same name only if they are one file, or one has the other's generated name. */
  lemma {:induction false} RenamedSame(a: string, b: string)
    requires Renamed(a) == Renamed(b)
    ensures a == b || Renamed(a) == b || Renamed(b) == a
  {
    if !Contains(a, POSTFIX) && !Contains(b, POSTFIX) {
      assert (a + POSTFIX)[..|a + POSTFIX| - |POSTFIX|] == a;
      assert (b + POSTFIX)[..|b + POSTFIX| - |POSTFIX|] == b;
    }
  }

  /** Editing file `i` puts its document where file `j` is looked for later, or was put before. */
  ghost predicate Clash(names: seq<string>, files: Files, i: nat, j: nat)
    requires i < |names| && j < |names|
  {
    && i != j && ServicesOf(files, names[i]).Some? && Renamed(names[i]) == names[j]
    && (i < j || ServicesOf(files, names[j]).Some?)
  }

  /** No file is in the way of another. A name may occur more than once, and may be a generated one. */
  ghost predicate Separate(names: seq<string>, files: Files) {
    forall i, j :: 0 <= i < |names| && 0 <= j < |names| ==> !Clash(names, files, i, j)
  }

  lemma {:induction false} NoClash(names: seq<string>, files: Files, i: nat, j: nat)
    requires Separate(names, files) && i < |names| && j < |names| && i != j && ServicesOf(files, names[i]).Some?
    ensures i < j || ServicesOf(files, names[j]).Some? ==> Renamed(names[i]) != names[j]
  {
    assert !Clash(names, files, i, j);
  }

  lemma {:induction false} FoundAt(s: string, t: string, i: nat)
    requires i <= |s| && t <= s[i..]
    ensures Contains(s, t)
  {}

  /** The infra container's file is recognised by its generated name. */
  lemma {:induction false} InfraRecognised(folder: string)
    requires !Contains(folder + INFRA_YML, POSTFIX)
    ensures Contains(Renamed(folder + INFRA_YML), INFRA_GEN_YML)
  {
    hide Contains, Renamed;
    RenamedIs(folder + INFRA_YML);
    assert INFRA_YML + POSTFIX == INFRA_GEN_YML;
    var name := folder + INFRA_YML + POSTFIX;
    assert name == folder + (INFRA_YML + POSTFIX);
    assert name[|folder|..] == INFRA_GEN_YML;
    FoundAt(name, INFRA_GEN_YML, |folder|);
  }

  // ---------------------------------------------------------------- one file

  /** The file's services after `EditFile`. */
  lemma {:induction false} EditFileIs(files: Files, file: string, order: seq<string>, f: Flow, o: Owner)
    requires ServicesOf(files, file).Some? ==> Within(order, ServicesOf(files, file).value)
    requires EditFile(files, file, order, f, o).Done?
    ensures var e := EditFile(files, file, order, f, o).value;
            match ServicesOf(files, file)
            case None => e == FileEdit(files, f, "")
            case Some(services) =>
              && EditServices(services, order, |order|, f, o).Done?
              && e.name == Renamed(file)
              && e.flow == EditServices(services, order, |order|, f, o).value.1
              && ServicesOf(e.files, Renamed(file)) == Some(EditServices(services, order, |order|, f, o).value.0)
              && (forall k :: k != file && k != Renamed(file)
                              ==> ServicesOf(e.files, k) == ServicesOf(files, k) && (k in e.files <==> k in files))
              && Renamed(file) in e.files && (file != Renamed(file) ==> file !in e.files)
  {}

  /** One more file of the run. */
  lemma {:induction false} RunOneMore(names: seq<string>, i: nat, start: Progress, walks: Walks, o: Owner)
    requires Fair(walks) && 0 < i <= |names| && RunFiles(names, i, start, walks, o).Done?
    ensures RunFiles(names, i - 1, start, walks, o).Done?
    ensures var p := RunFiles(names, i - 1, start, walks, o).value;
            var file := names[i - 1];
            var order := OrderAt(p, file, i - 1, walks);
            && (ServicesOf(p.files, file).Some? ==> Within(order, ServicesOf(p.files, file).value)
                                                    && WalkOf(ServicesOf(p.files, file).value.Keys, order))
            && EditFile(p.files, file, order, p.flow, o).Done?
            && RunFiles(names, i, start, walks, o)
               == Done(Note(p, EditFile(p.files, file, order, p.flow, o).value, i - 1))
  {}

  lemma {:induction false} NoneRun(names: seq<string>, start: Progress, walks: Walks, o: Owner)
    requires Fair(walks)
    ensures RunFiles(names, 0, start, walks, o) == Done(start)
  {}

  // ---------------------------------------------------------------- files not yet reached

  /** The services that are edited as file `i`: none if the file has none, or has been edited before. */
  function SourceOf(names: seq<string>, i: nat, files: Files): Option<map<string, Service>>
    requires i < |names|
  {
    if names[i] in names[..i] then None else ServicesOf(files, names[i])
  }

  ghost predicate Pending(names: seq<string>, i: nat, files: Files, now: Files)
    requires i <= |names|
  {
    forall j :: i <= j < |names| ==> AsBefore(names[j], names[..i], files, now)
  }

  /** The document is as it was, unless it has been edited under the same name. */
  ghost predicate AsBefore(name: string, seen: seq<string>, files: Files, now: Files) {
    && ServicesOf(now, name) == (if name in seen then None else ServicesOf(files, name))
    && (name in now <==> name in files && !(name in seen && ServicesOf(files, name).Some?))
  }

  lemma {:induction false} StartsAsBefore(names: seq<string>, files: Files)
    ensures Pending(names, 0, files, files)
  {}

  lemma {:induction false} ServedBefore(name: string, seen: seq<string>, files: Files, now: Files)
    requires AsBefore(name, seen, files, now)
    ensures ServicesOf(now, name).Some? ==> ServicesOf(files, name).Some?
  {}

  /** Editing `file` moves its document to another name, if it has services, and else does nothing. */
  lemma {:induction false} StaysAsBefore(name: string, file: string, renamed: string, seen: seq<string>, files: Files,
                                         now: Files, next: Files)
    requires AsBefore(name, seen, files, now) && AsBefore(file, seen, files, now)
    requires if ServicesOf(now, file).None? then next == now
             else && name != renamed && (file != renamed ==> file !in next)
                  && forall k :: k != file && k != renamed
                                 ==> ServicesOf(next, k) == ServicesOf(now, k) && (k in next <==> k in now)
    ensures AsBefore(name, seen + [file], files, next)
  {}

  /** Editing a file leaves the files still to come alone. */
  lemma {:induction false} StillPending(names: seq<string>, i: nat, start: Progress, walks: Walks, o: Owner)
    requires Fair(walks) && i <= |names| && Separate(names, start.files) && RunFiles(names, i, start, walks, o).Done?
    ensures Pending(names, i, start.files, RunFiles(names, i, start, walks, o).value.files)
  {
    hide RunFiles, EditFile, OrderAt, Contains, Renamed, WalkOf, Fair, Separate, AsBefore;
    if i == 0 {
      NoneRun(names, start, walks, o);
      StartsAsBefore(names, start.files);
    } else {
      RunOneMore(names, i, start, walks, o);
      StillPending(names, i - 1, start, walks, o);
      var p, file := RunFiles(names, i - 1, start, walks, o).value, names[i - 1];
      EditFileIs(p.files, file, OrderAt(p, file, i - 1, walks), p.flow, o);
      assert names[..i] == names[..i - 1] + [file];
      var next := RunFiles(names, i, start, walks, o).value.files;
      forall j | i <= j < |names| ensures AsBefore(names[j], names[..i], start.files, next) {
        ServedBefore(file, names[..i - 1], start.files, p.files);
        if ServicesOf(p.files, file).Some? {
          NoClash(names, start.files, i - 1, j);
        }
        StaysAsBefore(names[j], file, Renamed(file), names[..i - 1], start.files, p.files, next);
      }
    }
  }

  /** What is edited as file `i`. */
  lemma {:induction false} SourceNow(names: seq<string>, i: nat, start: Progress, walks: Walks, o: Owner)
    requires Fair(walks) && i < |names| && Separate(names, start.files) && RunFiles(names, i, start, walks, o).Done?
    ensures ServicesOf(RunFiles(names, i, start, walks, o).value.files, names[i]) == SourceOf(names, i, start.files)
  {
    hide RunFiles, Renamed, Fair, Separate;
    StillPending(names, i, start, walks, o);
    assert AsBefore(names[i], names[..i], start.files, RunFiles(names, i, start, walks, o).value.files);
  }

  // ---------------------------------------------------------------- the files to launch

  /** The first `i` files that have services, under their generated names. */
  function EditedNames(names: seq<string>, i: nat, files: Files): seq<string>
    requires i <= |names|
  {
    if i == 0 then []
    else if SourceOf(names, i - 1, files).Some? then EditedNames(names, i - 1, files) + [Renamed(names[i - 1])]
    else EditedNames(names, i - 1, files)
  }

  /** The list so far: the inputs in order, the files without services left out. */
  lemma {:induction false} EditedInOrder(names: seq<string>, i: nat, start: Progress, walks: Walks, o: Owner)
    requires Fair(walks) && i <= |names| && Separate(names, start.files) && RunFiles(names, i, start, walks, o).Done?
    requires start.edited == []
    ensures RunFiles(names, i, start, walks, o).value.edited == EditedNames(names, i, start.files)
  {
    hide RunFiles, EditFile, OrderAt, Contains, Renamed, WalkOf, Fair, Separate, SourceOf;
    if i == 0 {
      NoneRun(names, start, walks, o);
    } else {
      RunOneMore(names, i, start, walks, o);
      EditedInOrder(names, i - 1, start, walks, o);
      SourceNow(names, i - 1, start, walks, o);
      var p, file := RunFiles(names, i - 1, start, walks, o).value, names[i - 1];
      EditFileIs(p.files, file, OrderAt(p, file, i - 1, walks), p.flow, o);
      RenamedIs(file);
    }
  }

  /** The map of documents: what was not edited stays under its name, what was is found under its new one. */
  lemma {:induction false} DocumentsAre(names: seq<string>, i: nat, start: Progress, walks: Walks, o: Owner, k: string)
    requires Fair(walks) && i <= |names| && Separate(names, start.files) && RunFiles(names, i, start, walks, o).Done?
    requires start.edited == []
    ensures var p := RunFiles(names, i, start, walks, o).value;
            k in p.files
            <==> k in p.edited || (k in start.files && !(k in names[..i] && ServicesOf(start.files, k).Some?))
  {
    hide RunFiles, EditFile, OrderAt, Contains, Renamed, WalkOf, Fair, Separate, EditedNames;
    if i == 0 {
      NoneRun(names, start, walks, o);
    } else {
      RunOneMore(names, i, start, walks, o);
      DocumentsAre(names, i - 1, start, walks, o, k);
      SourceNow(names, i - 1, start, walks, o);
      EditedInOrder(names, i - 1, start, walks, o);
      NotGenerated(names, i - 1, start.files, i - 1);
      var p, file := RunFiles(names, i - 1, start, walks, o).value, names[i - 1];
      EditFileIs(p.files, file, OrderAt(p, file, i - 1, walks), p.flow, o);
      RenamedIs(file);
      assert names[..i] == names[..i - 1] + [file];
    }
  }

  /** No generated name is the name of a file still to come. */
  lemma {:induction false} NotGenerated(names: seq<string>, i: nat, files: Files, j: nat)
    requires i <= j < |names| && Separate(names, files)
    ensures names[j] !in EditedNames(names, i, files)
  {
    hide Contains, Renamed, Separate;
    if i == 0 {
    } else {
      NotGenerated(names, i - 1, files, j);
      if SourceOf(names, i - 1, files).Some? {
        NoClash(names, files, i - 1, j);
      }
    }
  }

  // ---------------------------------------------------------------- when the names are separate

  /** Whatever was edited is a document with services, under a generated name. */
  lemma {:induction false} EditedServes(names: seq<string>, i: nat, start: Progress, walks: Walks, o: Owner,
                                        name: string)
    requires Fair(walks) && i <= |names| && RunFiles(names, i, start, walks, o).Done? && start.edited == []
    requires name in RunFiles(names, i, start, walks, o).value.edited
    ensures ServicesOf(RunFiles(names, i, start, walks, o).value.files, name).Some? && Renamed(name) == name
  {
    hide RunFiles, EditFile, OrderAt, Contains, Renamed, WalkOf, Fair;
    if i == 0 {
      NoneRun(names, start, walks, o);
      assert false;
    } else {
      RunOneMore(names, i, start, walks, o);
      var p, file := RunFiles(names, i - 1, start, walks, o).value, names[i - 1];
      EditFileIs(p.files, file, OrderAt(p, file, i - 1, walks), p.flow, o);
      RenamedIs(file);
      if name in p.edited {
        EditedServes(names, i - 1, start, walks, o, name);
      }
    }
  }

  /** A document that was not reached and not written is as it was. */
  lemma {:induction false} Untouched(names: seq<string>, i: nat, start: Progress, walks: Walks, o: Owner, name: string)
    requires Fair(walks) && i <= |names| && RunFiles(names, i, start, walks, o).Done?
    requires name !in names[..i] && name !in RunFiles(names, i, start, walks, o).value.edited
    ensures ServicesOf(RunFiles(names, i, start, walks, o).value.files, name) == ServicesOf(start.files, name)
  {
    hide RunFiles, EditFile, OrderAt, Contains, Renamed, WalkOf, Fair;
    if i == 0 {
      NoneRun(names, start, walks, o);
    } else {
      RunOneMore(names, i, start, walks, o);
      var p, file := RunFiles(names, i - 1, start, walks, o).value, names[i - 1];
      assert names[..i] == names[..i - 1] + [file];
      EditFileIs(p.files, file, OrderAt(p, file, i - 1, walks), p.flow, o);
      RenamedIs(file);
      Untouched(names, i - 1, start, walks, o, name);
    }
  }

  /** The run over the first files is the run over those files alone. */
  lemma {:induction false} RunOfFirst(names: seq<string>, n: nat, i: nat, start: Progress, walks: Walks, o: Owner)
    requires Fair(walks) && i <= n <= |names|
    ensures RunFiles(names, i, start, walks, o) == RunFiles(names[..n], i, start, walks, o)
  {
    hide NextFile, Fair;
    if i == 0 {
    } else {
      RunOfFirst(names, n, i - 1, start, walks, o);
    }
  }

  /** A file with services is edited, the first time it comes up. */
  lemma {:induction false} ServedIsEdited(names: seq<string>, i: nat, files: Files, j: nat)
    requires j < i <= |names| && ServicesOf(files, names[j]).Some?
    ensures Renamed(names[j]) in EditedNames(names, i, files)
  {
    hide Renamed;
    if j < i - 1 {
      ServedIsEdited(names, i - 1, files, j);
    } else if names[j] in names[..j] {
      var k :| 0 <= k < j && names[k] == names[j];
      ServedIsEdited(names, i - 1, files, k);
    }
  }

  /** Separate names are edited under different names. */
  lemma {:induction false} EditedDistinct(names: seq<string>, i: nat, files: Files)
    requires i <= |names| && Separate(names, files)
    ensures Distinct(EditedNames(names, i, files))
  {
    hide Renamed, Separate;
    if i == 0 {
    } else {
      EditedDistinct(names, i - 1, files);
      if SourceOf(names, i - 1, files).Some? && Renamed(names[i - 1]) in EditedNames(names, i - 1, files) {
        var j := EditedFrom(names, i - 1, files, Renamed(names[i - 1]));
        RenamedSame(names[i - 1], names[j]);
        NoClash(names, files, i - 1, j);
        NoClash(names, files, j, i - 1);
        assert false;
      }
    }
  }

  lemma {:induction false} EditedFrom(names: seq<string>, i: nat, files: Files, name: string) returns (j: nat)
    requires 0 < i <= |names| && name in EditedNames(names, i, files)
    ensures j < i && ServicesOf(files, names[j]).Some? && Renamed(names[j]) == name
  {
    hide Renamed;
    if SourceOf(names, i - 1, files).Some? && Renamed(names[i - 1]) == name {
      j := i - 1;
    } else {
      j := EditedFrom(names, i - 1, files, name);
    }
  }

  lemma {:induction false} Repeats(list: seq<string>, name: string)
    requires name in list
    ensures !Distinct(list + [name])
  {
    var i :| 0 <= i < |list| && list[i] == name;
    assert (list + [name])[i] == (list + [name])[|list|];
  }

  /** A file that has services and whose generated name is on the list repeats it. */
  lemma {:induction false} EditedAgain(names: seq<string>, n: nat, start: Progress, walks: Walks, o: Owner)
    requires Fair(walks) && n < |names| && RunFiles(names, n + 1, start, walks, o).Done?
    requires RunFiles(names, n, start, walks, o).Done?
    requires var p := RunFiles(names, n, start, walks, o).value;
             ServicesOf(p.files, names[n]).Some? && Renamed(names[n]) in p.edited
    ensures !Distinct(RunFiles(names, n + 1, start, walks, o).value.edited)
  {
    hide RunFiles, EditFile, OrderAt, Contains, Renamed, WalkOf, Fair, Distinct;
    RunOneMore(names, n + 1, start, walks, o);
    var p, file := RunFiles(names, n, start, walks, o).value, names[n];
    EditFileIs(p.files, file, OrderAt(p, file, n, walks), p.flow, o);
    RenamedIs(file);
    Repeats(p.edited, Renamed(file));
  }

  /** The first clash, if its files come up in order: an edited document is edited again. */
  lemma {:induction false} ClashAhead(names: seq<string>, n: nat, start: Progress, walks: Walks, o: Owner, i: nat)
    requires Fair(walks) && i < n < |names| && RunFiles(names, n + 1, start, walks, o).Done? && start.edited == []
    requires Separate(names[..n], start.files)
    requires ServicesOf(start.files, names[i]).Some? && Renamed(names[i]) == names[n]
    ensures !Distinct(RunFiles(names, n + 1, start, walks, o).value.edited)
  {
    hide RunFiles, Contains, Renamed, Fair, Separate, Distinct, EditedNames;
    var first := names[..n];
    RunOneMore(names, n + 1, start, walks, o);
    RunOfFirst(names, n, n, start, walks, o);
    EditedInOrder(first, n, start, walks, o);
    ServedIsEdited(first, n, start.files, i);
    EditedServes(names, n, start, walks, o, names[n]);
    EditedAgain(names, n, start, walks, o);
  }

  /** The first clash, if they do not: an edited document is overwritten. */
  lemma {:induction false} ClashBehind(names: seq<string>, n: nat, start: Progress, walks: Walks, o: Owner, j: nat)
    requires Fair(walks) && j < n < |names| && RunFiles(names, n + 1, start, walks, o).Done? && start.edited == []
    requires Separate(names[..n], start.files)
    requires ServicesOf(start.files, names[n]).Some? && ServicesOf(start.files, names[j]).Some?
    requires Renamed(names[n]) == names[j]
    ensures !Distinct(RunFiles(names, n + 1, start, walks, o).value.edited)
  {
    hide RunFiles, Contains, Renamed, Fair, Separate, Distinct, EditedNames;
    var first, file := names[..n], names[n];
    RenamedIs(file);
    if names[j] == file {
      ClashAhead(names, n, start, walks, o, j);
    } else {
      RunOneMore(names, n + 1, start, walks, o);
      RunOfFirst(names, n, n, start, walks, o);
      EditedInOrder(first, n, start, walks, o);
      ServedIsEdited(first, n, start.files, j);
      if file in first {
        var k :| 0 <= k < n && first[k] == file;
        NoClash(first, start.files, k, j);
        assert false;
      }
      if file in RunFiles(names, n, start, walks, o).value.edited {
        EditedServes(names, n, start, walks, o, file);
        assert false;
      }
      Untouched(names, n, start, walks, o, file);
      EditedAgain(names, n, start, walks, o);
    }
  }

  lemma {:induction false} ListGrows(names: seq<string>, i: nat, start: Progress, walks: Walks, o: Owner)
    requires Fair(walks) && 0 < i <= |names| && RunFiles(names, i, start, walks, o).Done?
    requires RunFiles(names, i - 1, start, walks, o).Done?
             && !Distinct(RunFiles(names, i - 1, start, walks, o).value.edited)
    ensures !Distinct(RunFiles(names, i, start, walks, o).value.edited)
  {
    hide RunFiles, EditFile, OrderAt, Contains, Renamed, WalkOf, Fair;
    RunOneMore(names, i, start, walks, o);
    var before, after := RunFiles(names, i - 1, start, walks, o).value.edited,
                         RunFiles(names, i, start, walks, o).value.edited;
    var k, l :| 0 <= k < l < |before| && before[k] == before[l];
    assert after[k] == after[l];
  }

  lemma {:induction false} SameClash(names: seq<string>, n: nat, files: Files, i: nat, j: nat)
    requires 0 < n <= |names| && i < n && j < n
    ensures i < n - 1 && j < n - 1 ==> (Clash(names[..n - 1], files, i, j) <==> Clash(names[..n], files, i, j))
  {}

  /** Some clash lies among the first files, or involves the last of them. */
  lemma {:induction false} ClashRepeats(names: seq<string>, n: nat, start: Progress, walks: Walks, o: Owner)
    requires Fair(walks) && n <= |names| && RunFiles(names, n, start, walks, o).Done? && start.edited == []
    requires !Separate(names[..n], start.files)
    ensures !Distinct(RunFiles(names, n, start, walks, o).value.edited)
  {
    hide RunFiles, Contains, Renamed, Fair, Distinct;
    if n == 0 {
      assert false;
    } else {
      RunOneMore(names, n, start, walks, o);
      if !Separate(names[..n - 1], start.files) {
        ClashRepeats(names, n - 1, start, walks, o);
        ListGrows(names, n, start, walks, o);
      } else {
        var i, j :| 0 <= i < n && 0 <= j < n && Clash(names[..n], start.files, i, j);
        SameClash(names, n, start.files, i, j);
        if i < n - 1 && j < n - 1 {
          assert false;
        } else if i < j {
          ClashAhead(names, n - 1, start, walks, o, i);
        } else {
          ClashBehind(names, n - 1, start, walks, o, j);
        }
      }
    }
  }

  /** The list of files to launch names each document once exactly when the names are separate. */
  lemma {:induction false} DistinctIffSeparate(names: seq<string>, start: Progress, walks: Walks, o: Owner)
    requires Fair(walks) && RunFiles(names, |names|, start, walks, o).Done? && start.edited == []
    ensures Distinct(RunFiles(names, |names|, start, walks, o).value.edited) <==> Separate(names, start.files)
  {
    hide RunFiles, Renamed, Fair, Separate, Distinct, EditedNames;
    assert names[..|names|] == names;
    if Separate(names, start.files) {
      EditedInOrder(names, |names|, start, walks, o);
      EditedDistinct(names, |names|, start.files);
    } else {
      ClashRepeats(names, |names|, start, walks, o);
    }
  }
}
