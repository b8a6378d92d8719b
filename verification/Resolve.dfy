/** Block resolution: a memo table over a read-through cache that pulls on a miss. */
module Resolve {
  import opened Common
  import opened Blocks
  import Registry

  /** A cache file the filesystem has something to say about; a path with no slot is a miss. */
  datatype Slot = File(wasm: seq<Byte>) | Broken

  type Disk = map<string, Slot>

  /** Everything outside the node that a miss reaches: its state moves with every request. */
  datatype Outside<!R> = Outside(
    pull: (R, string) -> (R, Result<seq<Byte>, Registry.PullError>),
    store: (R, string) -> (R, bool))

  datatype World<R> = World(disk: Disk, outside: R)

  datatype SystemBlockKind = Publisher | Subscriber

  function SystemBlock(name: string): Option<SystemBlockKind> {
    if name == "publisher" then Some(Publisher)
    else if name == "subscriber" then Some(Subscriber)
    else None
  }

  datatype Origin = HostNative(kind: SystemBlockKind) | Wasm(wasm: seq<Byte>)

  datatype Block<M> = Block(origin: Origin, manifest: M)

  /** Module validation, the capability check, and the in-memory manifests: functions of their input. */
  datatype Loader<!M> = Loader(
    validate: seq<Byte> -> Result<M, string>,
    uncapable: M -> Option<string>,
    systemManifest: SystemBlockKind -> M)

  datatype Failure =
    | Unresolvable(id: string, reference: string, reason: Blocks.Unresolvable)
    | Unpullable(id: string, reference: string, refusal: Registry.PullError)
    | Unloadable(id: string, reference: string, error: string)
    | Uncapable(id: string, error: string)

  datatype Instance = Instance(id: string, block: string)

  /** Where a reference's module sits in the cache, and which system block it names, if it does. */
  datatype Spot = Spot(path: string, system: Option<SystemBlockKind>)

  type Locator = string -> Result<Spot, Blocks.Unresolvable>

  /** The node's own reading of a reference, for a cache under `root`. */
  function CacheLocator(root: string): Locator {
    reference =>
      match Parse(reference)
      case Err(reason) => Err(reason)
      case Ok(entry) => Ok(Spot(EntryPath(root, entry), SystemBlock(entry.name)))
  }

  /** A path determines everything else a resolution needs to know about a reference. */
  ghost predicate Coherent(locate: Locator) {
    forall a, b | locate(a).Ok? && locate(b).Ok? && locate(a).value.path == locate(b).value.path :: locate(a) == locate(b)
  }

  lemma CacheLocatorIsCoherent(root: string)
    ensures Coherent(CacheLocator(root))
  {
    var locate := CacheLocator(root);
    forall a, b | locate(a).Ok? && locate(b).Ok? && locate(a).value.path == locate(b).value.path
      ensures locate(a) == locate(b)
    {
      PathsAreEntries(root, a, b);
    }
  }

  /** Where a reference leads is its cache path, and it is a system block exactly when its name is one of the two. */
  lemma SystemBlocksAreNamed(root: string, reference: string)
    ensures match Parse(reference)
      case Err(reason) => CacheLocator(root)(reference) == Err(reason)
      case Ok(entry) =>
        && CacheLocator(root)(reference).Ok?
        && Path(root, reference) == Ok(CacheLocator(root)(reference).value.path)
        && (CacheLocator(root)(reference).value.system == Some(Publisher) <==> entry.name == "publisher")
        && (CacheLocator(root)(reference).value.system == Some(Subscriber) <==> entry.name == "subscriber")
        && (CacheLocator(root)(reference).value.system == None <==> entry.name !in {"publisher", "subscriber"})
  {
    assert "publisher"[0] == 'p' && "subscriber"[0] == 's';
  }

  /** What the node did to the outside, in order. */
  datatype Io = ReadFile(path: string) | Pulled(path: string, reference: string) | Stored(path: string)

  function ReadAt(disk: Disk, path: string): Result<seq<Byte>, Blocks.Unresolvable> {
    if path !in disk then Err(Missing(path))
    else match disk[path]
      case File(wasm) => Ok(wasm)
      case Broken => Err(Unreadable(path))
  }

  /** The cache first, always; only a miss reaches the registry. */
  function FetchSpec<R>(io: Outside<R>, w: World<R>, path: string, id: string, reference: string)
    : (World<R>, Result<seq<Byte>, Failure>)
  {
    match ReadAt(w.disk, path)
    case Ok(wasm) => (w, Ok(wasm))
    case Err(Missing(at)) =>
      var (pulled, answer) := io.pull(w.outside, reference);
      (match answer
       case Err(Unregistered) => (World(w.disk, pulled), Err(Unresolvable(id, reference, Missing(at))))
       case Err(refusal) => (World(w.disk, pulled), Err(Unpullable(id, reference, refusal)))
       case Ok(wasm) =>
         var (stored, done) := io.store(pulled, path);
         if done then (World(w.disk[path := File(wasm)], stored), Ok(wasm))
         else (World(w.disk, stored), Err(Unresolvable(id, reference, Unstorable(path)))))
    case Err(reason) => (w, Err(Unresolvable(id, reference, reason)))
  }

  function Checked<M>(loader: Loader<M>, at: Instance, wasm: seq<Byte>): Result<Block<M>, Failure> {
    match loader.validate(wasm)
    case Err(error) => Err(Unloadable(at.id, at.block, error))
    case Ok(manifest) =>
      match loader.uncapable(manifest)
      case Some(error) => Err(Uncapable(at.id, error))
      case None => Ok(Block(Wasm(wasm), manifest))
  }

  /** One located instance resolved with no memory of any other: fetched, validated, and checked. */
  function ResolveAt<R, M>(io: Outside<R>, loader: Loader<M>, w: World<R>, at: Instance, spot: Spot)
    : (World<R>, Result<Block<M>, Failure>)
  {
    match spot.system
    case Some(kind) => (w, Ok(Block(HostNative(kind), loader.systemManifest(kind))))
    case None =>
      var (after, fetched) := FetchSpec(io, w, spot.path, at.id, at.block);
      (after, match fetched
       case Err(failure) => Err(failure)
       case Ok(wasm) => Checked(loader, at, wasm))
  }

  function ResolveOne<R, M>(io: Outside<R>, loader: Loader<M>, locate: Locator, w: World<R>, at: Instance)
    : (World<R>, Result<Block<M>, Failure>)
  {
    match locate(at.block)
    case Err(reason) => (w, Err(Unresolvable(at.id, at.block, reason)))
    case Ok(spot) => ResolveAt(io, loader, w, at, spot)
  }

  /** Every instance resolved separately, in id order, up to the first failure. */
  function ResolveEach<R, M>(io: Outside<R>, loader: Loader<M>, locate: Locator, w: World<R>, blocks: seq<Instance>)
    : (r: (World<R>, Result<seq<Block<M>>, Failure>))
    ensures r.1.Ok? ==> |r.1.value| == |blocks|
  {
    if blocks == [] then (w, Ok([]))
    else
      var (before, so) := ResolveEach(io, loader, locate, w, blocks[..|blocks| - 1]);
      match so
      case Err(failure) => (before, Err(failure))
      case Ok(found) =>
        var (after, last) := ResolveOne(io, loader, locate, before, blocks[|blocks| - 1]);
        (after, match last
         case Err(failure) => Err(failure)
         case Ok(one) => Ok(found + [one]))
  }

  /** Where one more instance leaves a run that has not failed. */
  lemma EachGrows<R, M>(io: Outside<R>, loader: Loader<M>, locate: Locator, w: World<R>, blocks: seq<Instance>, at: Instance)
    requires ResolveEach(io, loader, locate, w, blocks).1.Ok?
    ensures
      var so := ResolveEach(io, loader, locate, w, blocks);
      var (after, last) := ResolveOne(io, loader, locate, so.0, at);
      var more := ResolveEach(io, loader, locate, w, blocks + [at]);
      && more.0 == after
      && more.1 == match last
         case Err(failure) => Err(failure)
         case Ok(one) => Ok(so.1.value + [one])
  {
    assert (blocks + [at])[..|blocks|] == blocks;
  }

  /** One entry per distinct path, and which entry each instance uses. */
  datatype Resolved<M> = Resolved(entries: seq<Block<M>>, byId: map<string, nat>) {
    function Of(id: string): Option<Block<M>> {
      if id in byId && byId[id] < |entries| then Some(entries[byId[id]]) else None
    }
  }

  predicate Extends(a: Disk, b: Disk) {
    forall path :: path in a ==> path in b && b[path] == a[path]
  }

  /** A spot that needs nothing further from outside, and what it comes to. */
  ghost predicate Settled<M>(loader: Loader<M>, disk: Disk, spot: Spot, found: Block<M>) {
    match spot.system
    case Some(kind) => found == Block(HostNative(kind), loader.systemManifest(kind))
    case None =>
      && found.origin.Wasm? && spot.path in disk && disk[spot.path] == File(found.origin.wasm)
      && loader.validate(found.origin.wasm) == Ok(found.manifest)
      && loader.uncapable(found.manifest).None?
  }

  /** Resolving fills the cache and never overwrites it; a success needs nothing further. */
  lemma ResolveSettles<R, M>(io: Outside<R>, loader: Loader<M>, w: World<R>, at: Instance, spot: Spot)
    ensures var (after, found) := ResolveAt(io, loader, w, at, spot);
      Extends(w.disk, after.disk) && (found.Ok? ==> Settled(loader, after.disk, spot, found.value))
  {
  }

  /** A settled spot resolves again to the same thing, and asks nothing of anyone. */
  lemma SettledAnswers<R, M>(io: Outside<R>, loader: Loader<M>, w: World<R>, at: Instance, spot: Spot, found: Block<M>)
    requires Settled(loader, w.disk, spot, found)
    ensures ResolveAt(io, loader, w, at, spot) == (w, Ok(found))
  {
  }

  lemma {:induction false} FirstFailureStands<R, M>(io: Outside<R>, loader: Loader<M>, locate: Locator, w: World<R>, blocks: seq<Instance>, n: nat)
    requires n <= |blocks| && ResolveEach(io, loader, locate, w, blocks[..n]).1.Err?
    ensures ResolveEach(io, loader, locate, w, blocks) == ResolveEach(io, loader, locate, w, blocks[..n])
    decreases |blocks| - n
  {
    if n < |blocks| {
      assert blocks[..n + 1][..n] == blocks[..n];
      FirstFailureStands(io, loader, locate, w, blocks, n + 1);
    } else {
      assert blocks[..n] == blocks;
    }
  }

  /** Every instance whose reference leads to a file leads to one this cache has something at. */
  predicate Warm(locate: Locator, disk: Disk, blocks: seq<Instance>) {
    forall i :: 0 <= i < |blocks| && locate(blocks[i].block).Ok? && locate(blocks[i].block).value.system.None? ==>
      locate(blocks[i].block).value.path in disk
  }

  /**
   * A warm cache answers alone. Whatever else has been cached since, and whatever the registry would
   * say, the resolution comes out the same, success or failure, and it changes nothing.
   */
  lemma {:induction false} WarmResolvesAlone<R, M>(
    io: Outside<R>, loader: Loader<M>, locate: Locator, w: World<R>, later: World<R>, blocks: seq<Instance>)
    requires Warm(locate, w.disk, blocks) && Extends(w.disk, later.disk)
    ensures ResolveEach(io, loader, locate, later, blocks) == (later, ResolveEach(io, loader, locate, w, blocks).1)
    ensures ResolveEach(io, loader, locate, w, blocks).0 == w
  {
    if blocks != [] {
      var front := blocks[..|blocks| - 1];
      assert Warm(locate, w.disk, front);
      WarmResolvesAlone(io, loader, locate, w, later, front);
    }
  }

  lemma OneMoreExtends<R, M>(io: Outside<R>, loader: Loader<M>, locate: Locator, w: World<R>, blocks: seq<Instance>)
    requires blocks != []
    ensures Extends(ResolveEach(io, loader, locate, w, blocks[..|blocks| - 1]).0.disk, ResolveEach(io, loader, locate, w, blocks).0.disk)
  {
    var before := ResolveEach(io, loader, locate, w, blocks[..|blocks| - 1]).0;
    var last := blocks[|blocks| - 1];
    if locate(last.block).Ok? {
      ResolveSettles(io, loader, before, last, locate(last.block).value);
    }
  }

  lemma {:induction false} ResolvingExtends<R, M>(io: Outside<R>, loader: Loader<M>, locate: Locator, w: World<R>, blocks: seq<Instance>)
    ensures Extends(w.disk, ResolveEach(io, loader, locate, w, blocks).0.disk)
  {
    if blocks != [] {
      ResolvingExtends(io, loader, locate, w, blocks[..|blocks| - 1]);
      OneMoreExtends(io, loader, locate, w, blocks);
    }
  }

  // What a resolution comes to, said of the cache and of what the registry and the filesystem answer.

  /** The registry's answer for a reference, asked as things stand. */
  function Answered<R>(io: Outside<R>, w: World<R>, reference: string): Result<seq<Byte>, Registry.PullError> {
    io.pull(w.outside, reference).1
  }

  /** Whether the cache takes a file just pulled. */
  predicate Takes<R>(io: Outside<R>, w: World<R>, path: string, reference: string) {
    io.store(io.pull(w.outside, reference).0, path).1
  }

  /** These are the bytes of the module `reference` names: the cache's own, or the registry's once the cache took them. */
  predicate Has<R>(io: Outside<R>, w: World<R>, path: string, reference: string, wasm: seq<Byte>) {
    if path in w.disk then w.disk[path] == File(wasm)
    else Answered(io, w, reference) == Ok(wasm) && Takes(io, w, path, reference)
  }

  /** The registry was asked, and its refusal is more than that the reference names none. */
  predicate Refused<R>(io: Outside<R>, w: World<R>, path: string, reference: string, refusal: Registry.PullError) {
    path !in w.disk && Answered(io, w, reference) == Err(refusal) && refusal != Registry.Unregistered
  }

  /** Fetching answers the module's bytes exactly when there are any; every failure is its own, and only a filled miss writes. */
  lemma FetchedExactly<R>(io: Outside<R>, w: World<R>, path: string, id: string, reference: string)
    ensures var (after, fetched) := FetchSpec(io, w, path, id, reference);
      && (forall wasm :: fetched == Ok(wasm) <==> Has(io, w, path, reference, wasm))
      && (fetched == Err(Unresolvable(id, reference, Unreadable(path))) <==> path in w.disk && w.disk[path] == Broken)
      && (fetched == Err(Unresolvable(id, reference, Missing(path)))
          <==> path !in w.disk && Answered(io, w, reference) == Err(Registry.Unregistered))
      && (fetched == Err(Unresolvable(id, reference, Unstorable(path)))
          <==> path !in w.disk && Answered(io, w, reference).Ok? && !Takes(io, w, path, reference))
      && (forall refusal :: fetched == Err(Unpullable(id, reference, refusal)) <==> Refused(io, w, path, reference, refusal))
      && after.disk == (if path !in w.disk && fetched.Ok? then w.disk[path := File(fetched.value)] else w.disk)
      && (path in w.disk ==> after.outside == w.outside)
      && (path !in w.disk && Answered(io, w, reference).Err? ==> after.outside == io.pull(w.outside, reference).0)
      && (path !in w.disk && Answered(io, w, reference).Ok? ==>
            after.outside == io.store(io.pull(w.outside, reference).0, path).0)
  {
  }

  /** A module this node can run, with what it says of itself. */
  ghost predicate Runnable<M>(loader: Loader<M>, wasm: seq<Byte>, manifest: M) {
    loader.validate(wasm) == Ok(manifest) && loader.uncapable(manifest).None?
  }

  ghost predicate Invalid<M>(loader: Loader<M>, wasm: seq<Byte>, error: string) {
    loader.validate(wasm) == Err(error)
  }

  predicate Incapable<M>(loader: Loader<M>, wasm: seq<Byte>, error: string) {
    loader.validate(wasm).Ok? && loader.uncapable(loader.validate(wasm).value) == Some(error)
  }

  /** One instance resolves exactly when its module is there and runnable, and then to those very bytes. */
  lemma ResolvedExactly<R, M>(io: Outside<R>, loader: Loader<M>, locate: Locator, w: World<R>, at: Instance)
    requires locate(at.block).Ok? && locate(at.block).value.system.None?
    ensures var path, found := locate(at.block).value.path, ResolveOne(io, loader, locate, w, at).1;
      && (forall wasm :: Has(io, w, path, at.block, wasm) ==>
            && (forall manifest :: found == Ok(Block(Wasm(wasm), manifest)) <==> Runnable(loader, wasm, manifest))
            && (forall error :: found == Err(Unloadable(at.id, at.block, error)) <==> Invalid(loader, wasm, error))
            && (forall error :: found == Err(Uncapable(at.id, error)) <==> Incapable(loader, wasm, error)))
      && ((forall wasm :: !Has(io, w, path, at.block, wasm)) ==>
            found.Err? && FetchSpec(io, w, path, at.id, at.block).1 == Err(found.error))
  {
    FetchedExactly(io, w, locate(at.block).value.path, at.id, at.block);
  }

  /** A reference that names no entry, and one that names a system block, ask nothing of anyone. */
  lemma NothingToFetch<R, M>(io: Outside<R>, loader: Loader<M>, locate: Locator, w: World<R>, at: Instance)
    ensures var (after, found) := ResolveOne(io, loader, locate, w, at);
      match locate(at.block)
      case Err(reason) => after == w && found == Err(Unresolvable(at.id, at.block, reason))
      case Ok(Spot(_, Some(kind))) => after == w && found == Ok(Block(HostNative(kind), loader.systemManifest(kind)))
      case _ => true
  {
  }

  /** Instance `k` is the one that filled `path` with these bytes: it missed there, and they are what the registry answered it. */
  ghost predicate Filled<R, M>(io: Outside<R>, loader: Loader<M>, locate: Locator, w: World<R>, blocks: seq<Instance>,
                                 k: nat, path: string, wasm: seq<Byte>)
  {
    && k < |blocks| && locate(blocks[k].block).Ok? && locate(blocks[k].block).value == Spot(path, None)
    && Look(ResolveEach(io, loader, locate, w, blocks).0.disk, path) == Some(File(wasm))
    && var before := ResolveEach(io, loader, locate, w, blocks[..k]).0;
       path !in before.disk && Has(io, before, path, blocks[k].block, wasm)
  }

  /** Every file new in the cache holds exactly what the registry answered for an instance whose reference leads there. */
  lemma {:induction false} NewFilesAreWhatWasPulled<R, M>(
    io: Outside<R>, loader: Loader<M>, locate: Locator, w: World<R>, blocks: seq<Instance>, path: string)
    requires path in ResolveEach(io, loader, locate, w, blocks).0.disk && path !in w.disk
    ensures exists k: nat, wasm :: Filled(io, loader, locate, w, blocks, k, path, wasm)
    decreases blocks
  {
    var n: nat := |blocks| - 1;
    var front, last := blocks[..n], blocks[n];
    var before := ResolveEach(io, loader, locate, w, front).0;
    if path in before.disk {
      NewFilesAreWhatWasPulled(io, loader, locate, w, front, path);
      var k: nat, wasm :| Filled(io, loader, locate, w, front, k, path, wasm);
      assert front[..k] == blocks[..k];
      OneMoreExtends(io, loader, locate, w, blocks);
      assert Filled(io, loader, locate, w, blocks, k, path, wasm);
    } else {
      NothingToFetch(io, loader, locate, before, last);
      FetchedExactly(io, before, path, last.id, last.block);
      var wasm := Answered(io, before, last.block).value;
      assert Filled(io, loader, locate, w, blocks, n, path, wasm);
    }
  }

  /** The resolution so far, and which entry each path it has seen is at. */
  datatype Table<M> = Table(entries: seq<Block<M>>, byId: map<string, nat>, index: map<string, nat>)

  /** Each path has an entry of its own, settled for every reference that leads to it. */
  ghost predicate Memo<M>(loader: Loader<M>, locate: Locator, disk: Disk, t: Table<M>) {
    && (forall path :: path in t.index ==> t.index[path] < |t.entries|)
    && (forall p, q :: p in t.index && q in t.index && t.index[p] == t.index[q] ==> p == q)
    && (forall reference :: locate(reference).Ok? && locate(reference).value.path in t.index ==>
          Settled(loader, disk, locate(reference).value, t.entries[t.index[locate(reference).value.path]]))
  }

  /** Every instance so far points at its path's entry, which is what it resolves to alone. */
  ghost predicate Placed<M>(locate: Locator, t: Table<M>, done: seq<Instance>, found: seq<Block<M>>) {
    && |found| == |done|
    && forall j :: 0 <= j < |done| ==> PlacedAt(locate, t, done[j], found[j])
  }

  ghost predicate PlacedAt<M>(locate: Locator, t: Table<M>, at: Instance, found: Block<M>) {
    && locate(at.block).Ok? && locate(at.block).value.path in t.index
    && at.id in t.byId && t.byId[at.id] == t.index[locate(at.block).value.path]
    && t.byId[at.id] < |t.entries| && t.entries[t.byId[at.id]] == found
  }

  function Shared<M>(t: Table<M>, id: string, path: string): Table<M>
    requires path in t.index
  {
    t.(byId := t.byId[id := t.index[path]])
  }

  function Added<M>(t: Table<M>, id: string, path: string, entry: Block<M>): Table<M> {
    Table(t.entries + [entry], t.byId[id := |t.entries|], t.index[path := |t.entries|])
  }

  lemma AddedIsMemo<M>(loader: Loader<M>, locate: Locator, disk: Disk, later: Disk, t: Table<M>, id: string, reference: string, entry: Block<M>)
    requires Coherent(locate) && Memo(loader, locate, disk, t) && Extends(disk, later)
    requires locate(reference).Ok? && locate(reference).value.path !in t.index
    requires Settled(loader, later, locate(reference).value, entry)
    ensures Memo(loader, locate, later, Added(t, id, locate(reference).value.path, entry))
  {
    var path := locate(reference).value.path;
    var u := Added(t, id, path, entry);
    assert u.entries[|t.entries|] == entry;
    forall r | locate(r).Ok? && locate(r).value.path in u.index
      ensures Settled(loader, later, locate(r).value, u.entries[u.index[locate(r).value.path]])
    {
      if locate(r).value.path == path {
        assert locate(r) == locate(reference);
      } else {
        assert Settled(loader, disk, locate(r).value, t.entries[t.index[locate(r).value.path]]);
      }
    }
  }

  /** Two instances share an entry exactly when their references lead to one path. */
  ghost predicate SharesByPath<M>(locate: Locator, r: Resolved<M>, blocks: seq<Instance>) {
    && (forall i :: 0 <= i < |blocks| ==> blocks[i].id in r.byId && locate(blocks[i].block).Ok?)
    && forall i, j :: 0 <= i < |blocks| && 0 <= j < |blocks| ==>
         (r.byId[blocks[i].id] == r.byId[blocks[j].id]
          <==> locate(blocks[i].block).value.path == locate(blocks[j].block).value.path)
  }

  lemma PlacedReads<M>(locate: Locator, t: Table<M>, done: seq<Instance>, found: seq<Block<M>>)
    requires Placed(locate, t, done, found)
    requires forall p, q :: p in t.index && q in t.index && t.index[p] == t.index[q] ==> p == q
    ensures var r := Resolved(t.entries, t.byId);
      SharesByPath(locate, r, done) && forall i :: 0 <= i < |done| ==> r.Of(done[i].id) == Some(found[i])
  {
    forall i | 0 <= i < |done|
      ensures PlacedAt(locate, t, done[i], found[i])
    {
    }
  }

  lemma PlacedGrows<M>(locate: Locator, t: Table<M>, u: Table<M>, done: seq<Instance>, found: seq<Block<M>>, at: Instance, one: Block<M>)
    requires Placed(locate, t, done, found) && PlacedAt(locate, u, at, one)
    requires forall j :: 0 <= j < |done| ==> done[j].id != at.id
    requires t.entries <= u.entries
    requires forall path :: path in t.index ==> path in u.index && u.index[path] == t.index[path]
    requires forall id :: id in t.byId && id != at.id ==> id in u.byId && u.byId[id] == t.byId[id]
    ensures Placed(locate, u, done + [at], found + [one])
  {
    forall j | 0 <= j < |done|
      ensures PlacedAt(locate, u, done[j], found[j])
    {
      assert PlacedAt(locate, t, done[j], found[j]);
    }
  }

  /** One path's worth of asking: a read, and only when the read missed a pull, and only when that filled the cache a store. */
  predicate OnePath(asked: seq<Io>, path: string, cached: bool, filled: bool) {
    && |asked| == (if cached then 1 else if filled then 3 else 2)
    && asked[0] == ReadFile(path)
    && (!cached ==> asked[1].Pulled? && asked[1].path == path)
    && (!cached && filled ==> asked[2] == Stored(path))
  }

  /** No path is read twice, pulled twice or stored twice. */
  predicate AtMostOncePerPath(asked: seq<Io>) {
    forall i, j :: 0 <= i < j < |asked| && asked[i].path == asked[j].path ==> Kind(asked[i]) < Kind(asked[j])
  }

  function Kind(io: Io): nat {
    match io case ReadFile(_) => 0 case Pulled(_, _) => 1 case Stored(_) => 2
  }

  /** Whatever was pulled or stored had missed in `disk`. */
  predicate PullsOnlyMisses(asked: seq<Io>, disk: Disk) {
    forall k :: 0 <= k < |asked| && asked[k].path in disk ==> asked[k].ReadFile?
  }

  lemma MissesConcat(asked: seq<Io>, more: seq<Io>, disk: Disk, later: Disk)
    requires PullsOnlyMisses(asked, disk) && PullsOnlyMisses(more, later) && Extends(disk, later)
    ensures PullsOnlyMisses(asked + more, disk)
  {
  }

  predicate AskedAbout(asked: seq<Io>, paths: set<string>) {
    AtMostOncePerPath(asked) && forall k :: 0 <= k < |asked| ==> asked[k].path in paths
  }

  lemma AskedAboutAnother(asked: seq<Io>, more: seq<Io>, paths: set<string>, path: string, cached: bool, filled: bool)
    requires AskedAbout(asked, paths) && path !in paths
    requires more == [] || OnePath(more, path, cached, filled)
    ensures AskedAbout(asked + more, paths + {path})
  {
    var all := asked + more;
    assert forall k :: 0 <= k < |more| ==> more[k].path == path && Kind(more[k]) == k;
    assert forall k :: |asked| <= k < |all| ==> all[k] == more[k - |asked|];
  }

  lemma Since(log: seq<Io>, from: nat, to: nat)
    requires from <= to <= |log|
    ensures log[from..] == log[..to][from..] + log[to..]
  {
  }

  /** A resolution that has not failed: each instance so far as it would have been alone, and each path asked about once. */
  ghost predicate Underway<R, M>(io: Outside<R>, loader: Loader<M>, locate: Locator, w0: World<R>, done: seq<Instance>,
                                 world: World<R>, t: Table<M>, found: seq<Block<M>>, asked: seq<Io>)
  {
    && ResolveEach(io, loader, locate, w0, done).0 == world
    && ResolveEach(io, loader, locate, w0, done).1 == Ok(found)
    && Extends(w0.disk, world.disk)
    && Memo(loader, locate, world.disk, t) && Placed(locate, t, done, found)
    && AskedAbout(asked, t.index.Keys) && PullsOnlyMisses(asked, w0.disk)
  }

  lemma UnderwayGrows<R, M>(io: Outside<R>, loader: Loader<M>, locate: Locator, w0: World<R>, done: seq<Instance>, at: Instance,
                            before: World<R>, after: World<R>, t: Table<M>, u: Table<M>, found: seq<Block<M>>, one: Block<M>,
                            asked: seq<Io>, more: seq<Io>)
    requires Underway(io, loader, locate, w0, done, before, t, found, asked)
    requires ResolveEach(io, loader, locate, w0, done + [at]).0 == after
    requires ResolveEach(io, loader, locate, w0, done + [at]).1 == Ok(found + [one])
    requires Extends(before.disk, after.disk)
    requires Memo(loader, locate, after.disk, u) && Placed(locate, u, done + [at], found + [one])
    requires AskedAbout(more, u.index.Keys) && PullsOnlyMisses(more, w0.disk)
    ensures Underway(io, loader, locate, w0, done + [at], after, u, found + [one], more)
  {
  }

  /** The node during one resolution: its cache, whatever answers it, and a log of what it asked. */
  class Node<R(==)> {
    const io: Outside<R>
    const locate: Locator
    var world: World<R>
    var log: seq<Io>

    constructor (io: Outside<R>, root: string, world: World<R>)
      ensures this.io == io && locate == CacheLocator(root) && Coherent(locate) && this.world == world && log == []
    {
      CacheLocatorIsCoherent(root);
      this.io, this.locate, this.world, this.log := io, CacheLocator(root), world, [];
    }

    method Fetch(path: string, id: string, reference: string) returns (result: Result<seq<Byte>, Failure>)
      modifies this
      ensures (world, result) == FetchSpec(io, old(world), path, id, reference)
      ensures old(log) <= log && OnePath(log[|old(log)|..], path, path in old(world.disk), path in world.disk)
      ensures path !in old(world.disk) ==> log[|old(log)| + 1] == Pulled(path, reference)
    {
      log := log + [ReadFile(path)];
      match ReadAt(world.disk, path) {
        case Ok(wasm) => return Ok(wasm);
        case Err(Missing(at)) =>
          log := log + [Pulled(path, reference)];
          var (pulled, answer) := io.pull(world.outside, reference);
          world := World(world.disk, pulled);
          match answer {
            case Err(Unregistered) => return Err(Unresolvable(id, reference, Missing(at)));
            case Err(refusal) => return Err(Unpullable(id, reference, refusal));
            case Ok(wasm) =>
              var (stored, done) := io.store(world.outside, path);
              world := World(world.disk, stored);
              if !done {
                return Err(Unresolvable(id, reference, Unstorable(path)));
              }
              log := log + [Stored(path)];
              world := World(world.disk[path := File(wasm)], world.outside);
              return Ok(wasm);
          }
        case Err(reason) => return Err(Unresolvable(id, reference, reason));
      }
    }

    /** A memo miss: the block at `spot`, made in memory or fetched and checked. */
    method Load<M>(loader: Loader<M>, at: Instance, spot: Spot) returns (result: Result<Block<M>, Failure>)
      modifies this
      ensures (world, result) == ResolveAt(io, loader, old(world), at, spot)
      ensures old(log) <= log
      ensures log[|old(log)|..] == [] || OnePath(log[|old(log)|..], spot.path, spot.path in old(world.disk), spot.path in world.disk)
    {
      match spot.system {
        case Some(kind) => return Ok(Block(HostNative(kind), loader.systemManifest(kind)));
        case None =>
          var fetched := Fetch(spot.path, at.id, at.block);
          match fetched {
            case Err(failure) => return Err(failure);
            case Ok(wasm) => return Checked(loader, at, wasm);
          }
      }
    }

    /** One turn of the loop: an index already there, or an entry pushed behind the others. */
    method Place<M>(loader: Loader<M>, t: Table<M>, at: Instance, ghost done: seq<Instance>, ghost found: seq<Block<M>>,
                    ghost asked: seq<Io>)
      returns (result: Result<Table<M>, Failure>)
      requires Coherent(locate) && AskedAbout(asked, t.index.Keys) && Memo(loader, locate, world.disk, t) && Placed(locate, t, done, found)
      requires forall j :: 0 <= j < |done| ==> done[j].id != at.id
      modifies this
      ensures Extends(old(world.disk), world.disk)
      ensures old(log) <= log && PullsOnlyMisses(log[|old(log)|..], old(world.disk))
      ensures AtMostOncePerPath(asked + log[|old(log)|..])
      ensures var (after, one) := ResolveOne(io, loader, locate, old(world), at);
        && world == after
        && (one.Err? ==> result == Err(one.error))
        && (one.Ok? ==>
              && result.Ok?
              && Memo(loader, locate, world.disk, result.value)
              && Placed(locate, result.value, done + [at], found + [one.value])
              && AskedAbout(asked + log[|old(log)|..], result.value.index.Keys))
    {
      match locate(at.block) {
        case Err(reason) =>
          assert asked + [] == asked;
          return Err(Unresolvable(at.id, at.block, reason));
        case Ok(spot) =>
          if spot.path in t.index {
            assert asked + [] == asked;
            SettledAnswers(io, loader, world, at, spot, t.entries[t.index[spot.path]]);
            var u := Shared(t, at.id, spot.path);
            PlacedGrows(locate, t, u, done, found, at, t.entries[t.index[spot.path]]);
            return Ok(u);
          }
          ghost var asked0, before := |log|, world;
          var one := Load(loader, at, spot);
          AskedAboutAnother(asked, log[asked0..], t.index.Keys, spot.path, spot.path in before.disk, spot.path in world.disk);
          ResolveSettles(io, loader, before, at, spot);
          if one.Err? {
            return Err(one.error);
          }
          var u := Added(t, at.id, spot.path, one.value);
          AddedIsMemo(loader, locate, before.disk, world.disk, t, at.id, at.block, one.value);
          PlacedGrows(locate, t, u, done, found, at, one.value);
          assert u.index.Keys == t.index.Keys + {spot.path};
          result := Ok(u);
      }
    }

    /** One instance more, with the log since `from`: what the whole run promises, kept or failed. */
    method Advance<M>(loader: Loader<M>, t: Table<M>, at: Instance, ghost w0: World<R>, ghost done: seq<Instance>,
                      ghost found: seq<Block<M>>, ghost from: nat)
      returns (result: Result<Table<M>, Failure>, ghost more: seq<Block<M>>)
      requires Coherent(locate) && from <= |log|
      requires Underway(io, loader, locate, w0, done, world, t, found, log[from..])
      requires forall j :: 0 <= j < |done| ==> done[j].id != at.id
      modifies this
      ensures old(log) <= log && Extends(w0.disk, world.disk)
      ensures AtMostOncePerPath(log[from..]) && PullsOnlyMisses(log[from..], w0.disk)
      ensures ResolveEach(io, loader, locate, w0, done + [at]).0 == world
      ensures result.Err? ==> ResolveEach(io, loader, locate, w0, done + [at]).1 == Err(result.error)
      ensures result.Ok? ==> Underway(io, loader, locate, w0, done + [at], world, result.value, more, log[from..])
    {
      ghost var asked, before := log, world;
      result := Place(loader, t, at, done, found, asked[from..]);
      EachGrows(io, loader, locate, w0, done, at);
      Since(log, from, |asked|);
      assert log[from..] == asked[from..] + log[|asked|..];
      MissesConcat(asked[from..], log[|asked|..], w0.disk, before.disk);
      more := found;
      if result.Ok? {
        var one := ResolveOne(io, loader, locate, before, at).1.value;
        more := found + [one];
        UnderwayGrows(io, loader, locate, w0, done, at, before, world, t, result.value, found, one, asked[from..], log[from..]);
      }
    }

    /**
     * The memo table gives every instance what resolving it alone would have, fails where that would
     * have failed, and leaves the same cache and the same registry; but it asks about each path once.
     */
    method Resolve<M>(loader: Loader<M>, blocks: seq<Instance>) returns (result: Result<Resolved<M>, Failure>)
      requires Coherent(locate) && forall i, j :: 0 <= i < j < |blocks| ==> blocks[i].id != blocks[j].id
      modifies this
      ensures world == ResolveEach(io, loader, locate, old(world), blocks).0
      ensures match ResolveEach(io, loader, locate, old(world), blocks).1
        case Err(failure) => result == Err(failure)
        case Ok(found) => result.Ok? && forall i :: 0 <= i < |blocks| ==> result.value.Of(blocks[i].id) == Some(found[i])
      ensures result.Ok? ==> SharesByPath(locate, result.value, blocks)
      ensures old(log) <= log && AtMostOncePerPath(log[|old(log)|..])
      ensures PullsOnlyMisses(log[|old(log)|..], old(world.disk)) && Extends(old(world.disk), world.disk)
    {
      ghost var w0, from := world, |log|;
      var t: Table<M> := Table([], map[], map[]);
      ghost var found: seq<Block<M>> := [];
      for i := 0 to |blocks|
        invariant old(log) <= log
        invariant Underway(io, loader, locate, w0, blocks[..i], world, t, found, log[from..])
      {
        assert blocks[..i + 1] == blocks[..i] + [blocks[i]];
        var advanced, more := Advance(loader, t, blocks[i], w0, blocks[..i], found, from);
        if advanced.Err? {
          FirstFailureStands(io, loader, locate, w0, blocks, i + 1);
          return Err(advanced.error);
        }
        t, found := advanced.value, more;
      }
      assert blocks[..|blocks|] == blocks;
      PlacedReads(locate, t, blocks, found);
      result := Ok(Resolved(t.entries, t.byId));
    }
  }
}
