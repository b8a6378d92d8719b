/** The service table: every graph the node spawns is running under one name, or retired once. */
module Services {
  import opened Common
  import Resolve

  /** A spawned graph, told apart from every other by when it was spawned. */
  type Graph = nat

  /** Why a service is not running. */
  datatype Failure =
    | Unreadable
    | Invalid
    | Misnamed
    | Unresolved(failure: Resolve.Failure)
    | Unwireable
    | Unstartable(error: string)

  datatype State = Running(graph: Graph) | Stopped | Errored(failure: Failure)

  datatype Loaded = Loaded(state: State, autostart: bool)

  /** What happens to a graph over its life. */
  datatype Life = Spawned(graph: Graph) | AskedToStop(graph: Graph) | Joined(graph: Graph)

  datatype Start = AsTheFileSays | Always

  /** The blocks a service names, one an instance id. */
  type Instances = blocks: seq<Resolve.Instance> | forall i, j :: 0 <= i < j < |blocks| ==> blocks[i].id != blocks[j].id

  /** A definition that parses: its flag, whether its name is its file's, its blocks, and whether it wires up with what they resolve to. */
  datatype Parsed<!M> = Parsed(autostart: bool, named: bool, blocks: Instances, wires: seq<Resolve.Block<M>> -> bool)

  /** A service file: whether it can be read, what it parses to, and whether its graph would come up. */
  datatype File<!M> = File(readable: bool, parsed: Option<Parsed<M>>, spawns: Result<(), string>)

  function Autostart<M>(file: File<M>): bool {
    file.readable && file.parsed.Some? && file.parsed.value.autostart
  }

  function BlocksOf<M>(file: File<M>): seq<Resolve.Instance> {
    if file.readable && file.parsed.Some? then file.parsed.value.blocks else []
  }

  datatype Counts = Counts(running: nat, stopped: nat, errored: nat)

  /** What a service comes to, whoever asks. */
  datatype Coming = ToRun | ToStop | ToFail(failure: Failure)

  predicate Came(state: State, coming: Coming) {
    match coming
    case ToRun => state.Running?
    case ToStop => state == Stopped
    case ToFail(failure) => state == Errored(failure)
  }

  /** Everything checkable about a definition, given what its blocks resolve to. */
  function Judged<M>(parsed: Parsed<M>, resolved: Result<seq<Resolve.Block<M>>, Resolve.Failure>): Result<(), Failure> {
    match resolved
    case Err(failure) => Err(Unresolved(failure))
    case Ok(found) => if parsed.wires(found) then Ok(()) else Err(Unwireable)
  }

  /** From file to outcome: read, parse, name, resolve, wire, start. Only resolution touches the cache. */
  function Comes<R, M>(io: Resolve.Outside<R>, loader: Resolve.Loader<M>, locate: Resolve.Locator, w: Resolve.World<R>,
                       file: File<M>, start: Start): (Resolve.World<R>, Coming)
  {
    if !file.readable then (w, ToFail(Unreadable))
    else match file.parsed
      case None => (w, ToFail(Invalid))
      case Some(parsed) =>
        if !parsed.named then (w, ToFail(Misnamed))
        else
          var (after, resolved) := Resolve.ResolveEach(io, loader, locate, w, parsed.blocks);
          (after, match Judged(parsed, resolved)
           case Err(failure) => ToFail(failure)
           case Ok(_) =>
             if start == AsTheFileSays && !parsed.autostart then ToStop
             else match file.spawns
               case Ok(_) => ToRun
               case Err(error) => ToFail(Unstartable(error)))
  }

  // What a service comes to, said of its file and of what its blocks resolve to.

  type Resolution<M> = Result<seq<Resolve.Block<M>>, Resolve.Failure>

  /** A definition this node read under its own name. */
  predicate Readable<M>(file: File<M>) {
    file.readable && file.parsed.Some? && file.parsed.value.named
  }

  /** It may be started: every block it names resolved, and they wire up. */
  predicate Sound<M>(file: File<M>, resolved: Resolution<M>) {
    Readable(file) && resolved.Ok? && file.parsed.value.wires(resolved.value)
  }

  predicate AskedFor<M>(file: File<M>, start: Start) {
    start == Always || Autostart(file)
  }

  /** The state a file warrants: running exactly when it is sound, asked for and comes up; and each failure exactly when. */
  ghost predicate Warranted<M>(state: State, file: File<M>, resolved: Resolution<M>, start: Start) {
    && (state.Running? <==> Sound(file, resolved) && AskedFor(file, start) && file.spawns.Ok?)
    && (state == Stopped <==> Sound(file, resolved) && !AskedFor(file, start))
    && (forall error :: state == Errored(Unstartable(error))
          <==> Sound(file, resolved) && AskedFor(file, start) && file.spawns == Err(error))
    && (state == Errored(Unreadable) <==> !file.readable)
    && (state == Errored(Invalid) <==> file.readable && file.parsed.None?)
    && (state == Errored(Misnamed) <==> file.readable && file.parsed.Some? && !file.parsed.value.named)
    && (forall failure :: (state == Errored(Unresolved(failure)) <==> Readable(file) && Stops(resolved, failure)))
    && (state == Errored(Unwireable) <==> Readable(file) && resolved.Ok? && !Sound(file, resolved))
  }

  predicate Stops<M>(resolved: Resolution<M>, failure: Resolve.Failure) {
    resolved.Err? && resolved.error == failure
  }

  /** What the blocks of `file` resolve to from `w`, and the cache after it: only a definition read under its own name asks. */
  function ResolutionOf<R, M>(io: Resolve.Outside<R>, loader: Resolve.Loader<M>, locate: Resolve.Locator, w: Resolve.World<R>,
                              file: File<M>): (Resolve.World<R>, Resolution<M>)
  {
    if Readable(file) then Resolve.ResolveEach(io, loader, locate, w, BlocksOf(file)) else (w, Ok([]))
  }

  lemma ComesAsWarranted<R, M>(io: Resolve.Outside<R>, loader: Resolve.Loader<M>, locate: Resolve.Locator, w: Resolve.World<R>,
                               file: File<M>, start: Start, state: State)
    requires Came(state, Comes(io, loader, locate, w, file, start).1)
    ensures Warranted(state, file, ResolutionOf(io, loader, locate, w, file).1, start)
    ensures Comes(io, loader, locate, w, file, start).0 == ResolutionOf(io, loader, locate, w, file).0
  {
  }

  /**
   * The flag decides nothing but the start. With it, the two starts come to the same thing; without
   * it, a service is stopped exactly where being asked for it would have started it, or tried to.
   */
  lemma StartsAgree<R, M>(io: Resolve.Outside<R>, loader: Resolve.Loader<M>, locate: Resolve.Locator, w: Resolve.World<R>, file: File<M>)
    ensures var asTheFileSays, always := Comes(io, loader, locate, w, file, AsTheFileSays), Comes(io, loader, locate, w, file, Always);
      && asTheFileSays.0 == always.0
      && (Autostart(file) ==> asTheFileSays.1 == always.1)
      && (!Autostart(file) ==>
            && (asTheFileSays.1 == ToStop <==> always.1 == ToRun || (always.1.ToFail? && always.1.failure.Unstartable?))
            && (asTheFileSays.1 != ToStop ==> asTheFileSays.1 == always.1))
      && always.1 != ToStop
  {
  }

  /** A boot: every file in turn, each meeting the cache the ones before it left. */
  function BootComes<R, M>(io: Resolve.Outside<R>, loader: Resolve.Loader<M>, locate: Resolve.Locator, w: Resolve.World<R>,
                           files: seq<(string, File<M>)>): (r: (Resolve.World<R>, seq<Coming>))
    ensures |r.1| == |files|
  {
    if files == [] then (w, [])
    else
      var (before, comings) := BootComes(io, loader, locate, w, files[..|files| - 1]);
      var (after, coming) := Comes(io, loader, locate, before, files[|files| - 1].1, AsTheFileSays);
      (after, comings + [coming])
  }

  lemma BootGrows<R, M>(io: Resolve.Outside<R>, loader: Resolve.Loader<M>, locate: Resolve.Locator, w: Resolve.World<R>,
                        files: seq<(string, File<M>)>, next: (string, File<M>))
    ensures
      var before := BootComes(io, loader, locate, w, files);
      var last := Comes(io, loader, locate, before.0, next.1, AsTheFileSays);
      var more := BootComes(io, loader, locate, w, files + [next]);
      more.0 == last.0 && more.1 == before.1 + [last.1]
  {
    assert (files + [next])[..|files|] == files;
  }

  lemma ComingExtends<R, M>(io: Resolve.Outside<R>, loader: Resolve.Loader<M>, locate: Resolve.Locator, w: Resolve.World<R>,
                            file: File<M>, start: Start)
    ensures Resolve.Extends(w.disk, Comes(io, loader, locate, w, file, start).0.disk)
  {
    Resolve.ResolvingExtends(io, loader, locate, w, BlocksOf(file));
  }

  lemma {:induction false} BootExtends<R, M>(io: Resolve.Outside<R>, loader: Resolve.Loader<M>, locate: Resolve.Locator,
                                             w: Resolve.World<R>, files: seq<(string, File<M>)>)
    ensures Resolve.Extends(w.disk, BootComes(io, loader, locate, w, files).0.disk)
  {
    if files != [] {
      var front := files[..|files| - 1];
      BootExtends(io, loader, locate, w, front);
      ComingExtends(io, loader, locate, BootComes(io, loader, locate, w, front).0, files[|files| - 1].1, AsTheFileSays);
    }
  }

  /** With its blocks cached, a service comes to the same thing whatever else the cache holds and the registry says. */
  lemma WarmComesAlone<R, M>(io: Resolve.Outside<R>, loader: Resolve.Loader<M>, locate: Resolve.Locator, w: Resolve.World<R>,
                             later: Resolve.World<R>, file: File<M>, start: Start)
    requires Resolve.Warm(locate, w.disk, BlocksOf(file)) && Resolve.Extends(w.disk, later.disk)
    ensures Comes(io, loader, locate, later, file, start).1 == Comes(io, loader, locate, w, file, start).1
    ensures Comes(io, loader, locate, later, file, start).0 == later
  {
    Resolve.WarmResolvesAlone(io, loader, locate, w, later, BlocksOf(file));
  }

  /** With its own blocks cached, a service comes out of boot as it would alone, whoever boots before or after it. */
  lemma {:induction false} SiblingsDoNotMatter<R, M>(io: Resolve.Outside<R>, loader: Resolve.Loader<M>, locate: Resolve.Locator,
                                                     w: Resolve.World<R>, files: seq<(string, File<M>)>, k: nat)
    requires k < |files| && Resolve.Warm(locate, w.disk, BlocksOf(files[k].1))
    ensures BootComes(io, loader, locate, w, files).1[k] == Comes(io, loader, locate, w, files[k].1, AsTheFileSays).1
    decreases files
  {
    var front := files[..|files| - 1];
    if k < |front| {
      assert front[k] == files[k];
      SiblingsDoNotMatter(io, loader, locate, w, front, k);
    } else {
      BootExtends(io, loader, locate, w, front);
      WarmComesAlone(io, loader, locate, w, BootComes(io, loader, locate, w, front).0, files[k].1, AsTheFileSays);
    }
  }

  /** The lives in `log` that concern one graph. */
  function Of(log: seq<Life>, graph: Graph): seq<Life> {
    if log == [] then []
    else if log[0].graph == graph then [log[0]] + Of(log[1..], graph)
    else Of(log[1..], graph)
  }

  lemma {:induction false} OfConcat(a: seq<Life>, b: seq<Life>, graph: Graph)
    ensures Of(a + b, graph) == Of(a, graph) + Of(b, graph)
  {
    if a == [] {
      assert a + b == b;
    } else {
      OfConcat(a[1..], b, graph);
      assert (a + b)[0] == a[0] && (a + b)[1..] == a[1..] + b;
    }
  }

  lemma OfOne(log: seq<Life>, life: Life, graph: Graph)
    ensures Of(log + [life], graph) == Of(log, graph) + if life.graph == graph then [life] else []
  {
    OfConcat(log, [life], graph);
  }

  predicate RunsAt(services: map<string, Loaded>, name: string, graph: Graph) {
    name in services && services[name].state == Running(graph)
  }

  ghost predicate Runs(services: map<string, Loaded>, graph: Graph) {
    exists name :: RunsAt(services, name, graph)
  }

  function Retired(graph: Graph): seq<Life> {
    [Spawned(graph), AskedToStop(graph), Joined(graph)]
  }

  /**
   * At an operation's boundary: every graph ever spawned is the running value of exactly one name,
   * or has been asked to stop and then joined, once each, and nothing has happened to any other.
   */
  ghost predicate Accounted(services: map<string, Loaded>, log: seq<Life>, next: Graph) {
    && (forall name, graph: Graph :: RunsAt(services, name, graph) ==> graph < next)
    && (forall a, b, graph: Graph :: RunsAt(services, a, graph) && RunsAt(services, b, graph) ==> a == b)
    && (forall graph: Graph :: Of(log, graph) ==
          if graph >= next then [] else if Runs(services, graph) then [Spawned(graph)] else Retired(graph))
  }

  /** Between a spawn and the `set` that publishes it, one graph runs under no name yet. */
  ghost predicate AccountedBut(services: map<string, Loaded>, log: seq<Life>, next: Graph, unplaced: Option<Graph>) {
    && (unplaced.Some? ==> unplaced.value < next && !Runs(services, unplaced.value))
    && (forall name, graph: Graph :: RunsAt(services, name, graph) ==> graph < next)
    && (forall a, b, graph: Graph :: RunsAt(services, a, graph) && RunsAt(services, b, graph) ==> a == b)
    && (forall graph: Graph :: Of(log, graph) ==
          if graph >= next then []
          else if Runs(services, graph) || unplaced == Some(graph) then [Spawned(graph)] else Retired(graph))
  }

  function GraphOf(state: State): Option<Graph> {
    match state case Running(graph) => Some(graph) case _ => None
  }

  /** What coming to a state adds to the log: a graph spawned, when it runs. */
  function SpawnSpec(log: seq<Life>, state: State): seq<Life> {
    match state case Running(graph) => log + [Spawned(graph)] case _ => log
  }

  /** Only a running state takes a graph, and it takes the next one. */
  predicate TakesNext(state: State, before: Graph, after: Graph) {
    match state case Running(graph) => graph == before && after == before + 1 case _ => after == before
  }

  function RetireSpec(log: seq<Life>, state: State): seq<Life> {
    match state case Running(graph) => log + [AskedToStop(graph), Joined(graph)] case _ => log
  }

  /** The log once whatever ran under `name` is retired. */
  function RetiredAt(services: map<string, Loaded>, log: seq<Life>, name: string): seq<Life> {
    if name in services then RetireSpec(log, services[name].state) else log
  }

  lemma OfTwo(log: seq<Life>, graph: Graph, other: Graph)
    ensures Of(log + [AskedToStop(graph), Joined(graph)], other)
      == Of(log, other) + if graph == other then [AskedToStop(graph), Joined(graph)] else []
  {
    OfConcat(log, [AskedToStop(graph), Joined(graph)], other);
    OfOne([], AskedToStop(graph), other);
    OfOne([AskedToStop(graph)], Joined(graph), other);
    assert [AskedToStop(graph)] + [Joined(graph)] == [AskedToStop(graph), Joined(graph)];
    assert [] + [AskedToStop(graph)] == [AskedToStop(graph)];
  }

  /** Taking a name out of the table and retiring what ran there leaves every graph accounted for. */
  lemma RemovingRetires(services: map<string, Loaded>, log: seq<Life>, next: Graph, unplaced: Option<Graph>, name: string)
    requires AccountedBut(services, log, next, unplaced) && name in services
    ensures AccountedBut(services - {name}, RetireSpec(log, services[name].state), next, unplaced)
  {
    var rest, after := services - {name}, RetireSpec(log, services[name].state);
    forall graph: Graph
      ensures Runs(rest, graph) <==> Runs(services, graph) && services[name].state != Running(graph)
    {
      if Runs(services, graph) && services[name].state != Running(graph) {
        var a :| RunsAt(services, a, graph);
        assert RunsAt(rest, a, graph);
      }
      if Runs(rest, graph) {
        var a :| RunsAt(rest, a, graph);
        assert RunsAt(services, a, graph);
        if services[name].state == Running(graph) {
          assert RunsAt(services, name, graph);
        }
      }
    }
    forall graph: Graph
      ensures Of(after, graph) == if graph >= next then []
        else if Runs(rest, graph) || unplaced == Some(graph) then [Spawned(graph)] else Retired(graph)
    {
      match services[name].state
      case Running(g) =>
        assert RunsAt(services, name, g);
        OfTwo(log, g, graph);
      case _ =>
    }
    forall a, b, graph: Graph | RunsAt(rest, a, graph) && RunsAt(rest, b, graph)
      ensures a == b
    {
      assert RunsAt(services, a, graph) && RunsAt(services, b, graph);
    }
    forall a, graph: Graph | RunsAt(rest, a, graph)
      ensures graph < next
    {
      assert RunsAt(services, a, graph);
    }
  }

  /** Publishing the unplaced graph under a free name leaves nothing unplaced. */
  lemma InsertingPlaces(services: map<string, Loaded>, log: seq<Life>, next: Graph, name: string, loaded: Loaded)
    requires AccountedBut(services, log, next, GraphOf(loaded.state)) && name !in services
    ensures Accounted(services[name := loaded], log, next)
  {
    var after := services[name := loaded];
    forall graph: Graph
      ensures Runs(after, graph) <==> Runs(services, graph) || GraphOf(loaded.state) == Some(graph)
    {
      if Runs(services, graph) {
        var a :| RunsAt(services, a, graph);
        assert RunsAt(after, a, graph);
      }
      if GraphOf(loaded.state) == Some(graph) {
        assert RunsAt(after, name, graph);
      }
      if Runs(after, graph) {
        var a :| RunsAt(after, a, graph);
        if a != name {
          assert RunsAt(services, a, graph);
        }
      }
    }
    forall a, graph: Graph | RunsAt(after, a, graph)
      ensures graph < next && (a != name ==> RunsAt(services, a, graph))
    {
      if a == name {
        assert GraphOf(loaded.state) == Some(graph);
      } else {
        assert RunsAt(services, a, graph);
      }
    }
    forall a, b, graph: Graph | RunsAt(after, a, graph) && RunsAt(after, b, graph)
      ensures a == b
    {
      assert a != name ==> Runs(services, graph);
      assert b != name ==> Runs(services, graph);
    }
  }

  lemma SpawningLeavesOneUnplaced(services: map<string, Loaded>, log: seq<Life>, next: Graph)
    requires Accounted(services, log, next)
    ensures AccountedBut(services, log + [Spawned(next)], next + 1, Some(next))
  {
    assert !Runs(services, next);
    forall graph: Graph
      ensures Of(log + [Spawned(next)], graph) == if graph >= next + 1 then []
        else if Runs(services, graph) || graph == next then [Spawned(graph)] else Retired(graph)
    {
      OfOne(log, Spawned(next), graph);
    }
  }

  predicate Booted<M>(services: map<string, Loaded>, name: string, file: File<M>, coming: Coming) {
    name in services && Came(services[name].state, coming) && services[name].autostart == Autostart(file)
  }

  predicate NamedIn<M>(files: seq<(string, File<M>)>, name: string) {
    exists k :: 0 <= k < |files| && files[k].0 == name
  }

  /** No two files share a name. */
  predicate Apart<M>(files: seq<(string, File<M>)>) {
    forall i :: 0 <= i < |files| ==> !NamedIn(files[..i], files[i].0)
  }

  /** Every file under its own name, come to what it came to, and no other name. */
  ghost predicate Table<M>(services: map<string, Loaded>, files: seq<(string, File<M>)>, comings: seq<Coming>) {
    && |comings| == |files|
    && (forall name :: name in services ==> NamedIn(files, name))
    && forall i :: 0 <= i < |files| ==> Booted(services, files[i].0, files[i].1, comings[i])
  }

  /** What a boot of these files leaves: the cache after the last of them, and their table. */
  ghost predicate Boots<R, M>(io: Resolve.Outside<R>, loader: Resolve.Loader<M>, locate: Resolve.Locator, w0: Resolve.World<R>,
                              files: seq<(string, File<M>)>, world: Resolve.World<R>, services: map<string, Loaded>)
  {
    var (after, comings) := BootComes(io, loader, locate, w0, files);
    world == after && Table(services, files, comings)
  }

  /** The cache a boot leaves: each definition read under its own name resolves its blocks in turn. */
  function CacheAfter<R, M>(io: Resolve.Outside<R>, loader: Resolve.Loader<M>, locate: Resolve.Locator, w: Resolve.World<R>,
                            files: seq<(string, File<M>)>): Resolve.World<R>
  {
    if files == [] then w
    else ResolutionOf(io, loader, locate, CacheAfter(io, loader, locate, w, files[..|files| - 1]), files[|files| - 1].1).0
  }

  lemma {:induction false} BootFills<R, M>(io: Resolve.Outside<R>, loader: Resolve.Loader<M>, locate: Resolve.Locator,
                                           w: Resolve.World<R>, files: seq<(string, File<M>)>)
    ensures BootComes(io, loader, locate, w, files).0 == CacheAfter(io, loader, locate, w, files)
  {
    if files != [] {
      BootFills(io, loader, locate, w, files[..|files| - 1]);
    }
  }

  /** File `i` is in the table under its own name, with its flag, in the state its definition and its blocks warrant. */
  ghost predicate Booting<R, M>(io: Resolve.Outside<R>, loader: Resolve.Loader<M>, locate: Resolve.Locator, w: Resolve.World<R>,
                                files: seq<(string, File<M>)>, i: nat, services: map<string, Loaded>)
    requires i < |files|
  {
    var (name, file) := files[i];
    && name in services && services[name].autostart == Autostart(file)
    && Warranted(services[name].state, file,
                 ResolutionOf(io, loader, locate, CacheAfter(io, loader, locate, w, files[..i]), file).1, AsTheFileSays)
  }

  lemma {:induction false} BootWarrants<R, M>(io: Resolve.Outside<R>, loader: Resolve.Loader<M>, locate: Resolve.Locator,
                                              w: Resolve.World<R>, files: seq<(string, File<M>)>, i: nat, services: map<string, Loaded>)
    requires i < |files| && Booted(services, files[i].0, files[i].1, BootComes(io, loader, locate, w, files).1[i])
    ensures Booting(io, loader, locate, w, files, i, services)
    decreases |files|
  {
    var front := files[..|files| - 1];
    if i < |front| {
      assert front[i] == files[i] && front[..i] == files[..i];
      BootWarrants(io, loader, locate, w, front, i, services);
    } else {
      BootFills(io, loader, locate, w, front);
      ComesAsWarranted(io, loader, locate, CacheAfter(io, loader, locate, w, front), files[i].1, AsTheFileSays,
                       services[files[i].0].state);
    }
  }

  lemma BootIsWarranted<R, M>(io: Resolve.Outside<R>, loader: Resolve.Loader<M>, locate: Resolve.Locator, w: Resolve.World<R>,
                              files: seq<(string, File<M>)>, world: Resolve.World<R>, services: map<string, Loaded>)
    requires Boots(io, loader, locate, w, files, world, services)
    ensures services.Keys == set i | 0 <= i < |files| :: files[i].0
    ensures world == CacheAfter(io, loader, locate, w, files)
    ensures forall i :: 0 <= i < |files| ==> Booting(io, loader, locate, w, files, i, services)
  {
    BootFills(io, loader, locate, w, files);
    forall i | 0 <= i < |files|
      ensures files[i].0 in services && Booting(io, loader, locate, w, files, i, services)
    {
      BootWarrants(io, loader, locate, w, files, i, services);
    }
    forall name | name in services ensures exists i :: 0 <= i < |files| && files[i].0 == name {
      assert NamedIn(files, name);
    }
  }

  lemma TableGrows<M>(services: map<string, Loaded>, files: seq<(string, File<M>)>, comings: seq<Coming>,
                      next: (string, File<M>), loaded: Loaded, coming: Coming)
    requires Table(services, files, comings) && !NamedIn(files, next.0)
    requires Came(loaded.state, coming) && loaded.autostart == Autostart(next.1)
    ensures Table(services[next.0 := loaded], files + [next], comings + [coming])
    ensures next.0 !in services
  {
    var more := files + [next];
    assert more[|files|] == next;
    forall name | name in services[next.0 := loaded] ensures NamedIn(more, name) {
      if name != next.0 {
        var k :| 0 <= k < |files| && files[k].0 == name;
        assert more[k].0 == name;
      }
    }
  }

  function Among(services: map<string, Loaded>, names: set<string>, which: State -> bool): set<string> {
    set name | name in names && name in services && which(services[name].state)
  }

  lemma OneMoreAmong(services: map<string, Loaded>, names: set<string>, name: string, which: State -> bool)
    requires name in services && name !in names
    ensures |Among(services, names + {name}, which)|
      == |Among(services, names, which)| + if which(services[name].state) then 1 else 0
  {
    assert Among(services, names + {name}, which)
      == Among(services, names, which) + if which(services[name].state) then {name} else {};
  }

  /** What a delete finds on disk: a name no service can have, no definition, one to remove, or one that will not go. */
  datatype Definition = NoSuchName | NoFile | Removable | Stuck

  /** What the API can ask of the table, with what the node finds when it looks. */
  datatype Op<!M> =
    | Reload(name: string, file: Option<File<M>>, start: Start)
    | StopOne(name: string)
    | Delete(name: string, definition: Definition)

  class Node<R(==), M> {
    const io: Resolve.Outside<R>
    const loader: Resolve.Loader<M>
    const root: string
    var world: Resolve.World<R>
    var services: map<string, Loaded>
    var log: seq<Life>
    var next: Graph

    constructor (io: Resolve.Outside<R>, loader: Resolve.Loader<M>, root: string, world: Resolve.World<R>)
      ensures this.io == io && this.loader == loader && this.root == root && this.world == world
      ensures services == map[] && log == [] && next == 0
      ensures Accounted(services, log, next)
    {
      this.io, this.loader, this.root, this.world := io, loader, root, world;
      services, log, next := map[], [], 0;
    }

    function Locate(): Resolve.Locator {
      Resolve.CacheLocator(root)
    }

    /** Stops a service and waits for its threads, if it was running. */
    method Retire(state: State)
      modifies this`log
      ensures log == RetireSpec(old(log), state)
    {
      if state.Running? {
        log := log + [AskedToStop(state.graph)];
        log := log + [Joined(state.graph)];
      }
    }

    /** Puts `loaded` in `name`'s place, retiring whatever was there: replaced, never doubled. */
    method Set(name: string, loaded: Loaded)
      requires AccountedBut(services, log, next, GraphOf(loaded.state))
      modifies this`services, this`log
      ensures Accounted(services, log, next)
      ensures services == old(services)[name := loaded] && log == RetiredAt(old(services), old(log), name)
    {
      if name in services {
        var previous := services[name];
        RemovingRetires(services, log, next, GraphOf(loaded.state), name);
        services := services - {name};
        Retire(previous.state);
      }
      InsertingPlaces(services, log, next, name, loaded);
      services := services[name := loaded];
    }

    /** Forgets `name` entirely, retiring whatever was there. */
    method Remove(name: string)
      requires Accounted(services, log, next)
      modifies this`services, this`log
      ensures Accounted(services, log, next)
      ensures services == old(services) - {name} && log == RetiredAt(old(services), old(log), name)
    {
      if name in services {
        var previous := services[name];
        assert AccountedBut(services, log, next, None);
        RemovingRetires(services, log, next, None, name);
        services := services - {name};
        Retire(previous.state);
        assert Accounted(services, log, next);
      }
    }

    /** Everything checkable about a definition: its blocks resolved through the memo table, then its wiring. */
    method Validate(parsed: Parsed<M>) returns (judged: Result<(), Failure>)
      modifies this`world
      ensures world == Resolve.ResolveEach(io, loader, Locate(), old(world), parsed.blocks).0
      ensures judged == Judged(parsed, Resolve.ResolveEach(io, loader, Locate(), old(world), parsed.blocks).1)
    {
      var node := new Resolve.Node(io, root, world);
      var blocks := parsed.blocks;
      var resolved := node.Resolve(loader, blocks);
      world := node.world;
      match resolved {
        case Err(failure) => return Err(Unresolved(failure));
        case Ok(table) =>
          var found := seq(|blocks|, i requires 0 <= i < |blocks| && table.Of(blocks[i].id).Some? => table.Of(blocks[i].id).value);
          assert found == Resolve.ResolveEach(io, loader, Locate(), old(world), blocks).1.value;
          judged := if parsed.wires(found) then Ok(()) else Err(Unwireable);
      }
    }

    /** Starts a validated service, or reports that the file did not ask for it to be. */
    method Apply(autostart: bool, spawns: Result<(), string>, start: Start) returns (state: State)
      requires Accounted(services, log, next)
      modifies this`log, this`next
      ensures AccountedBut(services, log, next, GraphOf(state))
      ensures log == SpawnSpec(old(log), state) && TakesNext(state, old(next), next)
      ensures Came(state,
        if start == AsTheFileSays && !autostart then ToStop
        else match spawns case Ok(_) => ToRun case Err(error) => ToFail(Unstartable(error)))
    {
      if start == AsTheFileSays && !autostart {
        assert AccountedBut(services, log, next, None);
        return Stopped;
      }
      match spawns {
        case Err(error) =>
          assert AccountedBut(services, log, next, None);
          return Errored(Unstartable(error));
        case Ok(_) =>
          SpawningLeavesOneUnplaced(services, log, next);
          state := Running(next);
          log := log + [Spawned(next)];
          next := next + 1;
      }
    }

    /** One service file, from bytes on disk to what it comes to. */
    method Load(file: File<M>, start: Start) returns (loaded: Loaded)
      requires Accounted(services, log, next)
      modifies this`world, this`log, this`next
      ensures AccountedBut(services, log, next, GraphOf(loaded.state))
      ensures log == SpawnSpec(old(log), loaded.state) && TakesNext(loaded.state, old(next), next)
      ensures start == AsTheFileSays && !Autostart(file) ==> log == old(log) && next == old(next)
      ensures loaded.autostart == Autostart(file)
      ensures world == Comes(io, loader, Locate(), old(world), file, start).0
      ensures Came(loaded.state, Comes(io, loader, Locate(), old(world), file, start).1)
      ensures Warranted(loaded.state, file, ResolutionOf(io, loader, Locate(), old(world), file).1, start)
    {
      ghost var coming := Comes(io, loader, Locate(), world, file, start).1;
      forall state | Came(state, coming)
        ensures Warranted(state, file, ResolutionOf(io, loader, Locate(), world, file).1, start)
      {
        ComesAsWarranted(io, loader, Locate(), world, file, start, state);
      }
      assert AccountedBut(services, log, next, None);
      if !file.readable {
        return Loaded(Errored(Unreadable), false);
      }
      match file.parsed {
        case None => return Loaded(Errored(Invalid), false);
        case Some(parsed) =>
          if !parsed.named {
            return Loaded(Errored(Misnamed), parsed.autostart);
          }
          var judged := Validate(parsed);
          match judged {
            case Err(failure) => loaded := Loaded(Errored(failure), parsed.autostart);
            case Ok(_) =>
              var state := Apply(parsed.autostart, file.spawns, start);
              loaded := Loaded(state, parsed.autostart);
          }
      }
    }

    /** Spawns the new graph before retiring the one it replaces. */
    method ReloadOne(name: string, file: File<M>, start: Start)
      requires Accounted(services, log, next)
      modifies this
      ensures Accounted(services, log, next)
      ensures services.Keys == old(services).Keys + {name}
      ensures forall other :: other in old(services) && other != name ==> services[other] == old(services)[other]
      ensures services[name].autostart == Autostart(file)
      ensures Came(services[name].state, Comes(io, loader, Locate(), old(world), file, start).1)
      ensures Warranted(services[name].state, file, ResolutionOf(io, loader, Locate(), old(world), file).1, start)
      ensures log == RetiredAt(old(services), SpawnSpec(old(log), services[name].state), name)
      ensures TakesNext(services[name].state, old(next), next)
    {
      var loaded := Load(file, start);
      Set(name, loaded);
    }

    method Perform(op: Op<M>) returns (done: bool)
      requires Accounted(services, log, next)
      modifies this
      ensures Accounted(services, log, next)
      ensures !done ==> services == old(services) && log == old(log)
      ensures op.StopOne? ==> done == (op.name in old(services))
      ensures op.StopOne? && done ==> log == RetiredAt(old(services), old(log), op.name)
      ensures op.StopOne? && done ==> services == old(services)[op.name := Loaded(Stopped, old(services)[op.name].autostart)]
      ensures op.Reload? ==> done == op.file.Some?
      ensures op.Reload? && done ==>
        && services.Keys == old(services).Keys + {op.name}
        && (forall other :: other in old(services) && other != op.name ==> services[other] == old(services)[other])
        && Warranted(services[op.name].state, op.file.value,
                     ResolutionOf(io, loader, Locate(), old(world), op.file.value).1, op.start)
      ensures op.Delete? ==>
        done == (op.definition == Removable && !(op.name in old(services) && old(services)[op.name].state.Running?))
      ensures op.Delete? && done ==> services == old(services) - {op.name} && log == old(log)
    {
      match op {
        case Reload(name, None, _) => done := false;
        case Reload(name, Some(file), start) =>
          ReloadOne(name, file, start);
          done := true;
        case StopOne(name) =>
          if name !in services {
            return false;
          }
          assert AccountedBut(services, log, next, None);
          Set(name, Loaded(Stopped, services[name].autostart));
          done := true;
        case Delete(name, definition) =>
          if definition == NoSuchName || (name in services && services[name].state.Running?) || definition != Removable {
            return false;
          }
          Remove(name);
          done := true;
      }
    }

    /** Loads one file and publishes what it came to under its own name, beside the files before it. */
    method BootOne(ghost w0: Resolve.World<R>, files: seq<(string, File<M>)>, i: nat)
      requires Accounted(services, log, next) && i < |files| && Boots(io, loader, Locate(), w0, files[..i], world, services)
      requires Apart(files)
      modifies this
      ensures Accounted(services, log, next) && Boots(io, loader, Locate(), w0, files[..i + 1], world, services)
    {
      var entry := files[i];
      ghost var before := files[..i];
      TakeOneMore(files, i);
      ghost var comings := BootComes(io, loader, Locate(), w0, before).1;
      ghost var coming := Comes(io, loader, Locate(), world, entry.1, AsTheFileSays).1;
      BootGrows(io, loader, Locate(), w0, before, entry);
      var loaded := Load(entry.1, AsTheFileSays);
      TableGrows(services, before, comings, entry, loaded, coming);
      InsertingPlaces(services, log, next, entry.0, loaded);
      services := services[entry.0 := loaded];
    }

    /** Every service file, in name order: each under its own name, come to what it comes to. Stems are distinct because file names are. */
    method Boot(files: seq<(string, File<M>)>)
      requires services == map[] && Accounted(services, log, next)
      requires Apart(files)
      modifies this
      ensures Accounted(services, log, next)
      ensures Boots(io, loader, Locate(), old(world), files, world, services)
      ensures services.Keys == set i | 0 <= i < |files| :: files[i].0
      ensures world == CacheAfter(io, loader, Locate(), old(world), files)
      ensures forall i :: 0 <= i < |files| ==> Booting(io, loader, Locate(), old(world), files, i, services)
    {
      for i := 0 to |files|
        invariant Accounted(services, log, next)
        invariant Boots(io, loader, Locate(), old(world), files[..i], world, services)
      {
        BootOne(old(world), files, i);
      }
      assert files[..|files|] == files;
      BootIsWarranted(io, loader, Locate(), old(world), files, world, services);
    }

    /** How many services are running, stopped and errored: every one of them, once. */
    method Count() returns (counts: Counts)
      ensures counts.running + counts.stopped + counts.errored == |services|
      ensures counts.running == |Among(services, services.Keys, (state: State) => state.Running?)|
      ensures counts.stopped == |Among(services, services.Keys, (state: State) => state.Stopped?)|
    {
      ghost var running := (state: State) => state.Running?;
      ghost var stopped := (state: State) => state.Stopped?;
      counts := Counts(0, 0, 0);
      var left := services.Keys;
      while left != {}
        invariant left <= services.Keys
        invariant counts.running + counts.stopped + counts.errored + |left| == |services.Keys|
        invariant counts.running == |Among(services, services.Keys - left, running)|
        invariant counts.stopped == |Among(services, services.Keys - left, stopped)|
        decreases left
      {
        var name :| name in left;
        OneMoreAmong(services, services.Keys - left, name, running);
        OneMoreAmong(services, services.Keys - left, name, stopped);
        assert services.Keys - (left - {name}) == services.Keys - left + {name};
        match services[name].state {
          case Running(_) => counts := counts.(running := counts.running + 1);
          case Stopped => counts := counts.(stopped := counts.stopped + 1);
          case Errored(_) => counts := counts.(errored := counts.errored + 1);
        }
        left := left - {name};
      }
      assert services.Keys - left == services.Keys;
    }

    /** Asks every running service to stop. */
    method StopAll()
      requires Accounted(services, log, next)
      modifies this`log
      ensures Halting(services, log, next, services.Keys, {})
    {
      var left := services.Keys;
      assert Halting(services, log, next, services.Keys - left, {});
      while left != {}
        invariant left <= services.Keys
        invariant Halting(services, log, next, services.Keys - left, {})
        decreases left
      {
        var name :| name in left;
        assert services.Keys - (left - {name}) == services.Keys - left + {name};
        AskingHalts(services, log, next, services.Keys - left, name);
        if services[name].state.Running? {
          log := log + [AskedToStop(services[name].state.graph)];
        }
        left := left - {name};
      }
      assert services.Keys - left == services.Keys;
    }

    /** Waits for every instance of every service to finish, and gives the table up. */
    method JoinAll()
      requires Halting(services, log, next, services.Keys, {})
      modifies this`services, this`log
      ensures services == map[]
      ensures forall graph: Graph :: graph < next ==> Of(log, graph) == Retired(graph)
    {
      var left := services.Keys;
      assert services.Keys - left == {};
      assert Halting(services, log, next, services.Keys, services.Keys - left);
      while left != {}
        invariant left <= services.Keys
        invariant Halting(services, log, next, services.Keys, services.Keys - left)
        decreases left
      {
        var name :| name in left;
        assert services.Keys - (left - {name}) == services.Keys - left + {name};
        JoiningHalts(services, log, next, services.Keys - left, name);
        if services[name].state.Running? {
          log := log + [Joined(services[name].state.graph)];
        }
        left := left - {name};
      }
      assert services.Keys - left == services.Keys;
      forall graph: Graph | graph < next
        ensures Of(log, graph) == Retired(graph)
      {
        if Runs(services, graph) {
          var name :| RunsAt(services, name, graph);
          assert Phase(services, log, services.Keys, services.Keys, name);
        }
      }
      services := map[];
    }

    /**
     * A node's whole life: boot, any operations, then stop and join. Nothing it ever spawned is left
     * running, and nothing was stopped or joined twice.
     */
    method Live(files: seq<(string, File<M>)>, ops: seq<Op<M>>)
      requires services == map[] && log == [] && next == 0
      requires Apart(files)
      modifies this
      ensures forall graph: Graph :: graph < next ==> Of(log, graph) == Retired(graph)
    {
      Boot(files);
      for i := 0 to |ops|
        invariant Accounted(services, log, next)
      {
        var _ := Perform(ops[i]);
      }
      StopAll();
      JoinAll();
    }
  }

  /** Which part of its life the graph under `name` has reached, while the node goes down. */
  ghost predicate Phase(services: map<string, Loaded>, log: seq<Life>, asked: set<string>, joined: set<string>, name: string) {
    forall graph: Graph :: RunsAt(services, name, graph) ==>
      Of(log, graph) == if name in joined then Retired(graph)
        else if name in asked then [Spawned(graph), AskedToStop(graph)] else [Spawned(graph)]
  }

  ghost predicate Halting(services: map<string, Loaded>, log: seq<Life>, next: Graph, asked: set<string>, joined: set<string>) {
    && joined <= asked
    && (forall name, graph: Graph :: RunsAt(services, name, graph) ==> graph < next)
    && (forall a, b, graph: Graph :: RunsAt(services, a, graph) && RunsAt(services, b, graph) ==> a == b)
    && (forall name :: Phase(services, log, asked, joined, name))
    && (forall graph: Graph :: !Runs(services, graph) ==> Of(log, graph) == if graph >= next then [] else Retired(graph))
  }

  lemma AskingHalts(services: map<string, Loaded>, log: seq<Life>, next: Graph, asked: set<string>, name: string)
    requires Halting(services, log, next, asked, {}) && name in services && name !in asked
    ensures var after := match services[name].state case Running(graph) => log + [AskedToStop(graph)] case _ => log;
      Halting(services, after, next, asked + {name}, {})
  {
    var after := match services[name].state case Running(graph) => log + [AskedToStop(graph)] case _ => log;
    LifeGoesOn(services, log, next, name, AskedToStop(0).(graph := if services[name].state.Running? then services[name].state.graph else 0));
    forall other
      ensures Phase(services, after, asked + {name}, {}, other)
    {
      assert Phase(services, log, asked, {}, other);
    }
  }

  lemma JoiningHalts(services: map<string, Loaded>, log: seq<Life>, next: Graph, joined: set<string>, name: string)
    requires Halting(services, log, next, services.Keys, joined) && name in services && name !in joined
    ensures var after := match services[name].state case Running(graph) => log + [Joined(graph)] case _ => log;
      Halting(services, after, next, services.Keys, joined + {name})
  {
    var after := match services[name].state case Running(graph) => log + [Joined(graph)] case _ => log;
    LifeGoesOn(services, log, next, name, Joined(0).(graph := if services[name].state.Running? then services[name].state.graph else 0));
    forall other
      ensures Phase(services, after, services.Keys, joined + {name}, other)
    {
      assert Phase(services, log, services.Keys, joined, other);
    }
  }

  /** One more event in the life of the graph under `name` is in no other graph's life. */
  lemma LifeGoesOn(services: map<string, Loaded>, log: seq<Life>, next: Graph, name: string, life: Life)
    requires name in services && (services[name].state.Running? ==> life.graph == services[name].state.graph)
    ensures services[name].state.Running? ==> forall graph: Graph ::
      Of(log + [life], graph) == Of(log, graph) + if RunsAt(services, name, graph) then [life] else []
  {
    forall graph: Graph
      ensures Of(log + [life], graph) == Of(log, graph) + if life.graph == graph then [life] else []
    {
      OfOne(log, life, graph);
    }
  }
}
