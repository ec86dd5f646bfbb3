/** The same as it runs: the parsed files are changed in place while Go walks them
    (pluginimpl/general/editor.go, pluginimpl/general/impl.go). */
module ComposePull {
  import opened PodTypes
  import opened Ports
  import opened ServiceEdit
  import opened Strings
  import opened ComposeEditor
  import opened ComposeFiles
  import opened Walk

  /** Each service is edited as it was in the file: an earlier edit in the same file is of another service. */
  lemma {:induction false} StillUnedited(services: map<string, Service>, order: seq<string>, n: nat, f: Flow, o: Owner)
    requires Within(order, services) && WalkOf(services.Keys, order) && n <= |order|
    requires EditServices(services, order, n, f, o).Done?
    ensures var done := EditServices(services, order, n, f, o).value.0;
            && done.Keys == services.Keys
            && forall i :: n <= i < |order| ==> done[order[i]] == services[order[i]]
  {
    if n == 0 {
    } else {
      hide EditService;
      StillUnedited(services, order, n - 1, f, o);
    }
  }

  lemma {:induction false} EditOne(services: map<string, Service>, order: seq<string>, n: nat, f: Flow, o: Owner)
    requires Within(order, services) && n < |order| && EditServices(services, order, n, f, o).Done?
    ensures var (done, before) := EditServices(services, order, n, f, o).value;
            EditServices(services, order, n + 1, f, o)
            == match EditService(order[n], services[order[n]], before, o)
               case NoPortsAvailable => NoPortsAvailable
               case Panic => Panic
               case Done((s, after)) => Done((done[order[n] := s], after))
  {}

  lemma {:induction false} FailsFrom(services: map<string, Service>, order: seq<string>, n: nat, f: Flow, o: Owner)
    requires Within(order, services) && n <= |order| && !EditServices(services, order, n, f, o).Done?
    ensures EditServices(services, order, |order|, f, o) == EditServices(services, order, n, f, o)
    decreases |order| - n
  {
    if n == |order| {
    } else {
      FailsFrom(services, order, n + 1, f, o);
    }
  }

  lemma {:induction false} RunFailsFrom(names: seq<string>, i: nat, start: Progress, walks: Walks, o: Owner)
    requires Fair(walks) && i <= |names| && !RunFiles(names, i, start, walks, o).Done?
    ensures RunFiles(names, |names|, start, walks, o) == RunFiles(names, i, start, walks, o)
    decreases |names| - i
  {
    if i == |names| {
    } else {
      RunFailsFrom(names, i + 1, start, walks, o);
    }
  }

  class Plugin {
    const editor: Editor
    var filesMap: Files
    var infraYmlPath: string

    constructor (filesMap: Files, collected: Option<seq<Value>>)
      ensures this.filesMap == filesMap && infraYmlPath == "" && fresh(editor)
      ensures editor.FlowAt([]) == Flow([], collected, {}, false, false)
    {
      this.filesMap, infraYmlPath := filesMap, "";
      editor := new Editor(collected);
    }

    /** `editComposeFile`: every service is edited where it is, then the file is renamed. */
    method EditComposeFile(file: string, order: seq<string>, o: Owner, ports: seq<nat>)
      returns (r: Edited<(string, seq<nat>)>)
      requires ServicesOf(filesMap, file).Some? ==> WalkOf(ServicesOf(filesMap, file).value.Keys, order)
      requires ServicesOf(filesMap, file).Some? ==> Within(order, ServicesOf(filesMap, file).value)
      modifies this`filesMap, editor
      ensures match EditFile(old(filesMap), file, order, old(editor.FlowAt(ports)), o)
              case NoPortsAvailable => r == NoPortsAvailable
              case Panic => r == Panic
              case Done(e) => && r == Done((e.name, e.flow.ports)) && filesMap == e.files
                              && editor.FlowAt(e.flow.ports) == e.flow
    {
      hide EditService, EditServices, WalkOf, Contains;
      if file !in filesMap || filesMap[file].NoServices? {
        return Done(("", ports));
      }
      ghost var services, f := filesMap[file].services, editor.FlowAt(ports);
      var cursor := ports;
      EditNone(services, order, f, o);
      assert filesMap == old(filesMap)[file := Services(services)];
      for i := 0 to |order|
        invariant file in filesMap && filesMap[file].Services?
        invariant EditServices(services, order, i, f, o) == Done((filesMap[file].services, editor.FlowAt(cursor)))
        invariant filesMap == old(filesMap)[file := filesMap[file]]
      {
        var name := order[i];
        StillUnedited(services, order, i, f, o);
        EditOne(services, order, i, f, o);
        var edit := editor.UpdateServiceSessions(name, filesMap[file].services[name], o, cursor);
        match edit {
          case NoPortsAvailable =>
            FailsFrom(services, order, i + 1, f, o);
            return NoPortsAvailable;
          case Panic =>
            FailsFrom(services, order, i + 1, f, o);
            return Panic;
          case Done((s, rest)) =>
            filesMap := filesMap[file := Services(filesMap[file].services[name := s])];
            cursor := rest;
        }
      }
      var name := file;
      if !Contains(file, POSTFIX) {
        var doc := filesMap[file];
        filesMap := filesMap - {file};
        name := file + POSTFIX;
        filesMap := filesMap[name := doc];
      }
      assert filesMap
             == (old(filesMap) - {file})[name := Services(EditServices(services, order, |order|, f, o).value.0)];
      return Done((name, cursor));
    }

    /** The loop over the files. `names` end with the infra container's. */
    method EditComposeFiles(names: seq<string>, walks: Walks, o: Owner, ports: seq<nat>)
      returns (r: Edited<(seq<string>, nat)>, cursor: seq<nat>)
      requires Fair(walks)
      modifies this, editor
      ensures match RunFiles(names, |names|, old(Progress(filesMap, editor.FlowAt(ports), [], 0, infraYmlPath)),
                             walks, o)
              case NoPortsAvailable => r == NoPortsAvailable
              case Panic => r == Panic
              case Done(p) => && r == Done((p.edited, p.indexInfra)) && filesMap == p.files
                              && editor.FlowAt(cursor) == p.flow && infraYmlPath == p.infraYml
    {
      hide EditFile, OrderAt, RunFiles, Contains, WalkOf, Fair;
      ghost var start := Progress(filesMap, editor.FlowAt(ports), [], 0, infraYmlPath);
      var editedFiles: seq<string>, indexInfra := [], 0;
      cursor := ports;
      NoFileOn(names, start, walks, o);
      for i := 0 to |names|
        invariant RunFiles(names, i, start, walks, o)
                  == Done(Progress(filesMap, editor.FlowAt(cursor), editedFiles, indexInfra, infraYmlPath))
      {
        ghost var p := RunFiles(names, i, start, walks, o).value;
        OneFileOn(names, i, start, walks, o);
        var order := WalkFile(names[i], i, walks);
        OrderIs(p, names[i], i, walks);
        var edit := EditComposeFile(names[i], order, o, cursor);
        match edit {
          case NoPortsAvailable =>
            RunFailsFrom(names, i + 1, start, walks, o);
            return NoPortsAvailable, cursor;
          case Panic =>
            RunFailsFrom(names, i + 1, start, walks, o);
            return Panic, cursor;
          case Done((editedFile, rest)) =>
            cursor := rest;
            if Contains(editedFile, INFRA_GEN_YML) {
              indexInfra, infraYmlPath := i, editedFile;
            }
            if editedFile != "" {
              editedFiles := editedFiles + [editedFile];
            }
        }
      }
      return Done((editedFiles, indexInfra)), cursor;
    }

    /** The order Go happens to take through the services of a file, if there are any. */
    method WalkFile(file: string, i: nat, walks: Walks) returns (order: seq<string>)
      ensures order == match ServicesOf(filesMap, file)
                       case None => []
                       case Some(services) => walks(i, services.Keys)
    {
      order := [];
      if file in filesMap && filesMap[file].Services? {
        order := walks(i, filesMap[file].services.Keys);
      }
    }

    /** `LaunchTaskPreImagePull`, once the files are parsed. No result if there is no compose file. */
    method LaunchTaskPreImagePull(composeFiles: seq<string>, infraFile: string, containerName: string, image: string,
                                  networks: Option<Value>, resources: seq<Resource>, walks: Walks, hostWalk: HostWalk,
                                  o: Owner, preset: Option<bool>)
      returns (r: Option<Edited<seq<string>>>)
      requires Fair(walks) && Uint64s(resources)
      modifies this, editor
      ensures r.None? <==> composeFiles == []
      ensures composeFiles != []
              ==> match Pull(old(filesMap), composeFiles, infraFile, InfraDetails(containerName, image, networks),
                             old(editor.FlowAt(Offered(resources, |resources|)).(hosts := {})), old(infraYmlPath),
                             walks, hostWalk, o, preset)
                  case NoPortsAvailable => r == Some(NoPortsAvailable)
                  case Panic => r == Some(Panic)
                  case Done(launch) => r == Some(Done(launch.edited)) && filesMap == launch.files
    {
      hide RunFiles, Pull, Offered, Contains, WalkOf, Fair, WithExtraHosts;
      if |composeFiles| == 0 {
        return None;
      }
      var currentPort := GetPorts(resources);
      var infra := InfraDetails(containerName, image, networks);
      PullIs(filesMap, composeFiles, infraFile, infra, editor.FlowAt(currentPort).(hosts := {}), infraYmlPath,
             walks, hostWalk, o, preset);
      filesMap := filesMap[infraFile := Services(map[INFRA_SERVICE := Mapping(infra)])];
      editor.extraHosts := {};
      var edit;
      edit, currentPort := EditComposeFiles(composeFiles + [infraFile], walks, o, currentPort);
      match edit {
        case NoPortsAvailable => return Some(NoPortsAvailable);
        case Panic => return Some(Panic);
        case Done((editedFiles, indexInfra)) =>
          var drop := if preset.Some? then preset.value else editor.rmInfraDefault;
          if drop {
            if indexInfra >= |editedFiles| {
              return Some(Panic);
            }
            filesMap := filesMap - {editedFiles[indexInfra]};
            return Some(Done(editedFiles[..indexInfra] + editedFiles[indexInfra + 1..]));
          } else {
            AddExtraHosts(infraYmlPath, hostWalk(editor.extraHosts));
            return Some(Done(editedFiles));
          }
      }
    }

    /** `addExtraHostsSection`; `hosts` is the collection in the order Go walks it. */
    method AddExtraHosts(file: string, hosts: seq<Value>)
      modifies this`filesMap
      ensures filesMap == WithExtraHosts(old(filesMap), file, hosts)
    {
      if file !in filesMap || filesMap[file].NoServices? {
        return;
      }
      var servMap := filesMap[file].services;
      if INFRA_SERVICE !in servMap || servMap[INFRA_SERVICE].NotAMapping? {
        return;
      }
      if |hosts| != 0 {
        var containerDetails := servMap[INFRA_SERVICE].details[ExtraHosts := List(hosts)];
        filesMap := filesMap[file := Services(servMap[INFRA_SERVICE := Mapping(containerDetails)])];
      }
    }
  }

  lemma {:induction false} OrderIs(p: Progress, file: string, i: nat, walks: Walks)
    requires Fair(walks)
    ensures OrderAt(p, file, i, walks) == match ServicesOf(p.files, file)
                                          case None => []
                                          case Some(services) => walks(i, services.Keys)
    ensures ServicesOf(p.files, file).Some? ==> Within(OrderAt(p, file, i, walks), ServicesOf(p.files, file).value)
    ensures ServicesOf(p.files, file).Some? ==> WalkOf(ServicesOf(p.files, file).value.Keys, OrderAt(p, file, i, walks))
  {}

  lemma {:induction false} OneFileOn(names: seq<string>, i: nat, start: Progress, walks: Walks, o: Owner)
    requires Fair(walks) && i < |names| && RunFiles(names, i, start, walks, o).Done?
    ensures var p := RunFiles(names, i, start, walks, o).value;
            RunFiles(names, i + 1, start, walks, o)
            == match EditFile(p.files, names[i], OrderAt(p, names[i], i, walks), p.flow, o)
               case NoPortsAvailable => NoPortsAvailable
               case Panic => Panic
               case Done(e) => Done(Note(p, e, i))
  {}

  lemma {:induction false} NoFileOn(names: seq<string>, start: Progress, walks: Walks, o: Owner)
    requires Fair(walks)
    ensures RunFiles(names, 0, start, walks, o) == Done(start)
  {}

  lemma {:induction false} PullIs(files: Files, names: seq<string>, infraFile: string, infra: Details, f: Flow,
                                  infraYml: string,
                                  walks: Walks, hostWalk: HostWalk, o: Owner, preset: Option<bool>)
    requires Fair(walks)
    ensures var all := names + [infraFile];
            var start := Progress(WithInfra(files, infraFile, infra), f, [], 0, infraYml);
            Pull(files, names, infraFile, infra, f, infraYml, walks, hostWalk, o, preset)
            == match RunFiles(all, |all|, start, walks, o)
               case NoPortsAvailable => NoPortsAvailable
               case Panic => Panic
               case Done(p) => Finish(p, preset, hostWalk(p.flow.hosts))
  {}

  lemma {:induction false} EditNone(services: map<string, Service>, order: seq<string>, f: Flow, o: Owner)
    requires Within(order, services)
    ensures EditServices(services, order, 0, f, o) == Done((services, f))
  {}
}
