/** A scenario's verdict: the walk, the whole-run expectations, and the refusal scenarios that never run. */
module Run {
  import opened Common
  import opened Scenario
  import Capability
  import Check
  import Hex
  import L = Lifecycle
  import Record
  import Runs
  import Walk

  type Namespace = Capability.Namespace

  /** How a scenario is reported; a run that panics reports nothing. */
  datatype Outcome = Passed | Failed | Skipped | Panicked

  /** What must hold once every step has run. An absent field asserts nothing. */
  datatype RunExpect = RunExpect(
    errors: Option<U32>,
    maxMemoryPages: Option<U32>,
    refusedAllocations: Option<nat>,
    misalignedAllocations: Option<nat>,
    state: Option<map<string, Hex.Text>>)

  /** What is known of a finished run. An instance that is gone took its count with it. */
  datatype Facts = Facts(
    errors: Option<U32>,
    measured: bool,
    pages: U32,
    allocations: seq<Record.Allocation>,
    state: map<string, seq<Byte>>)

  function CountOf(allocations: seq<Record.Allocation>, d: Record.Disposition): nat {
    if allocations == [] then 0
    else CountOf(allocations[..|allocations| - 1], d) + if allocations[|allocations| - 1].disposition == d then 1 else 0
  }

  /** The count is of the allocations, one each, that came out that way. */
  lemma {:induction false} CountIsOfEach(allocations: seq<Record.Allocation>, d: Record.Disposition)
    ensures CountOf(allocations, d) == |set i | 0 <= i < |allocations| && allocations[i].disposition == d|
  {
    if allocations != [] {
      var n := |allocations| - 1;
      CountIsOfEach(allocations[..n], d);
      var such := (i: nat) => i < |allocations| && allocations[i].disposition == d;
      OneMoreCounted(such, n);
      assert (set i | 0 <= i < n && allocations[..n][i].disposition == d) == set i: nat | i < n && such(i);
      assert (set i | 0 <= i < |allocations| && allocations[i].disposition == d) == set i: nat | i < n + 1 && such(i);
    }
  }

  predicate ValueMet(want: Hex.Text, got: seq<Byte>) {
    Hex.Unhex(want) == Hex.Decoded(got) && Hex.PLUS !in want
  }

  /** The store holds these keys and no others, each the bytes its hex stands for. */
  predicate StateMet(want: map<string, Hex.Text>, got: map<string, seq<Byte>>) {
    want.Keys == got.Keys && forall k :: k in want.Keys ==> ValueMet(want[k], got[k])
  }

  predicate RunMet(want: RunExpect, got: Facts) {
    && (want.errors.Some? ==> got.errors == want.errors)
    && (want.maxMemoryPages.Some? ==> got.measured && got.pages <= want.maxMemoryPages.value)
    && (want.refusedAllocations.Some? ==> CountOf(got.allocations, Record.Refused) == want.refusedAllocations.value)
    && (want.misalignedAllocations.Some? ==> CountOf(got.allocations, Record.Misaligned) == want.misalignedAllocations.value)
    && (want.state.Some? ==> StateMet(want.state.value, got.state))
  }

  method CountAllocations(allocations: seq<Record.Allocation>, d: Record.Disposition) returns (n: nat)
    ensures n == CountOf(allocations, d)
  {
    n := 0;
    for i := 0 to |allocations|
      invariant n == CountOf(allocations[..i], d)
    {
      assert allocations[..i + 1][..i] == allocations[..i];
      if allocations[i].disposition == d {
        n := n + 1;
      }
    }
    assert allocations[..|allocations|] == allocations;
  }

  function LowerAll(state: map<string, Hex.Text>): (low: map<string, seq<Byte>>)
    ensures low.Keys == state.Keys && forall k :: k in low.Keys ==> low[k] == Hex.Lower(state[k])
  {
    map k | k in state.Keys :: Hex.Lower(state[k])
  }

  function HexAll(state: map<string, seq<Byte>>): (hex: map<string, seq<Byte>>)
    ensures hex.Keys == state.Keys && forall k :: k in hex.Keys ==> hex[k] == Hex.HexOf(state[k])
  {
    map k | k in state.Keys :: Hex.HexOf(state[k])
  }

  /** Comparing the two stores as hex text compares them as bytes. */
  lemma HexStateIsState(want: map<string, Hex.Text>, got: map<string, seq<Byte>>)
    ensures LowerAll(want) == HexAll(got) <==> StateMet(want, got)
  {
    var low, hex := LowerAll(want), HexAll(got);
    if want.Keys == got.Keys {
      forall k | k in want.Keys ensures low[k] == hex[k] <==> ValueMet(want[k], got[k]) {
        Hex.ComparingHexComparesBytes(got[k], want[k]);
      }
      if StateMet(want, got) {
        assert low == hex;
      }
      if low == hex {
        assert forall k :: k in want.Keys ==> low[k] == hex[k];
      }
    } else {
      assert low.Keys != hex.Keys;
    }
  }

  const COMPLAINT := Check.Violation(None, Check.RunClause)

  method CheckState(want: Option<map<string, Hex.Text>>, got: map<string, seq<Byte>>) returns (found: seq<Check.Violation>)
    ensures found == [] <==> (want.Some? ==> StateMet(want.value, got))
  {
    found := [];
    if want.Some? {
      HexStateIsState(want.value, got);
      if LowerAll(want.value) != HexAll(got) {
        found := [COMPLAINT];
      }
    }
  }

  method CheckAllocations(want: Option<nat>, allocations: seq<Record.Allocation>, d: Record.Disposition)
    returns (found: seq<Check.Violation>)
    ensures found == [] <==> (want.Some? ==> CountOf(allocations, d) == want.value)
  {
    found := [];
    if want.Some? {
      var n := CountAllocations(allocations, d);
      if n != want.value {
        found := [COMPLAINT];
      }
    }
  }

  method CheckRun(want: RunExpect, got: Facts) returns (found: seq<Check.Violation>)
    ensures found == [] <==> RunMet(want, got)
  {
    found := [];
    if want.errors.Some? {
      match got.errors {
        case Some(n) =>
          if n != want.errors.value {
            found := found + [COMPLAINT];
          }
        case None => found := found + [COMPLAINT];
      }
    }
    if want.maxMemoryPages.Some? {
      if !got.measured {
        found := found + [COMPLAINT];
      } else if got.pages > want.maxMemoryPages.value {
        found := found + [COMPLAINT];
      }
    }
    var refused := CheckAllocations(want.refusedAllocations, got.allocations, Record.Refused);
    var misaligned := CheckAllocations(want.misalignedAllocations, got.allocations, Record.Misaligned);
    var state := CheckState(want.state, got.state);
    found := found + refused + misaligned + state;
  }

  /** A host fault is a violation whatever the scenario expected. */
  method Conclude(violations: seq<Check.Violation>, faults: seq<Record.HostFault>, want: RunExpect, got: Facts)
    returns (outcome: Outcome)
    ensures outcome == Passed <==> violations == [] && faults == [] && RunMet(want, got)
    ensures outcome == Passed || outcome == Failed
  {
    var all := violations;
    for i := 0 to |faults|
      invariant |all| == |violations| + i
    {
      all := all + [Check.Violation(None, Check.HostFaulted)];
    }
    var found := CheckRun(want, got);
    all := all + found;
    outcome := if all == [] then Passed else Failed;
  }

  // Scenarios that assert a refusal: the module must never load.

  datatype Layer = LoaderLayer | EngineLayer

  datatype RefusalSpec = RefusalSpec(proposal: Option<string>, memoryPages: Option<nat>, names: Option<string>, layer: Layer)

  /** What instantiating the module came to. */
  datatype Loading<+S> = Loaded(inner: S) | Unsupported | RefusedSaying(detail: string)

  /**
   * A host, as a scenario meets it: what it refuses and can do, whether it takes the harness's own
   * functions, how its guest is set up before the walk, and what is read off it afterwards.
   */
  datatype Host<!S> = Host(
    refusesProposal: string -> bool,
    namesRefusals: bool,
    lower: string -> string,
    enforcesBudgets: bool,
    capabilities: set<Namespace>,
    loading: Loading<S>,
    takesCore: bool,
    takesCapabilities: bool,
    denied: (S, Namespace) -> S,
    seeded: (S, string, seq<Byte>) -> S,
    memory: S -> nat,
    store: S -> map<string, seq<Byte>>)

  /** A refusal that says one thing, of a layer that could answer it, and runs nothing. */
  predicate WellPosed(spec: RefusalSpec, runs: bool) {
    && (spec.proposal.Some? <==> spec.memoryPages.None?)
    && (spec.memoryPages.Some? ==> spec.layer == LoaderLayer)
    && !runs
  }

  ghost predicate Named<S>(host: Host<S>, detail: string, names: string) {
    Check.Contains(host.lower(detail), host.lower(names))
  }

  /** The layer that was asked refused the module, and named what it refused as far as it can be held to. */
  ghost predicate Refuses<S>(spec: RefusalSpec, loaderError: Option<string>, host: Host<S>) {
    match spec.layer
    case LoaderLayer => loaderError.Some? && spec.names.Some? && Named(host, loaderError.value, spec.names.value)
    case EngineLayer =>
      && loaderError.None? && spec.proposal.Some? && host.refusesProposal(spec.proposal.value)
      && host.loading.RefusedSaying?
      && (spec.names.Some? && host.namesRefusals ==> Named(host, host.loading.detail, spec.names.value))
  }

  /** The question could not be put: the module is sound, and the engine has no opinion or no means. */
  predicate Unreachable<S>(spec: RefusalSpec, loaderError: Option<string>, host: Host<S>) {
    && spec.layer == EngineLayer && loaderError.None?
    && (spec.proposal.Some? ==> !host.refusesProposal(spec.proposal.value) || host.loading.Unsupported?)
  }

  /** `runs` is whether the scenario has steps or publishes limits; `loaderError` is the loader's answer. */
  method Refused<S>(spec: RefusalSpec, runs: bool, loaderError: Option<string>, host: Host<S>) returns (outcome: Outcome)
    ensures outcome == Passed <==> WellPosed(spec, runs) && Refuses(spec, loaderError, host)
    ensures outcome == Skipped <==> WellPosed(spec, runs) && Unreachable(spec, loaderError, host)
    ensures outcome != Panicked
  {
    if spec.proposal.Some? == spec.memoryPages.Some? {
      return Failed;
    }
    if spec.memoryPages.Some? && spec.layer != LoaderLayer {
      return Failed;
    }
    if runs {
      return Failed;
    }
    var detail;
    match spec.layer {
      case LoaderLayer =>
        if loaderError.None? {
          return Failed;
        }
        detail := loaderError.value;
      case EngineLayer =>
        if loaderError.Some? {
          return Failed;
        }
        if !host.refusesProposal(spec.proposal.value) {
          return Skipped;
        }
        match host.loading {
          case Loaded(_) => return Failed;
          case Unsupported => return Skipped;
          case RefusedSaying(said) => detail := said;
        }
    }
    if spec.names.None? {
      return if spec.layer == LoaderLayer then Failed else Passed;
    }
    if spec.layer == EngineLayer && !host.namesRefusals {
      return Passed;
    }
    var found := Check.FindPart(host.lower(detail), host.lower(spec.names.value));
    return if found then Passed else Failed;
  }

  // A scenario that runs: everything between its document and its walk, in the order it is asked.

  /** What the loader read off the module. */
  datatype Manifest = Manifest(major: nat, minor: nat, capabilities: seq<Namespace>)

  /** A scenario document. The state to begin with is in key order. */
  datatype Document = Document(
    refuses: Option<RefusalSpec>,
    limits: Option<Limits>,
    deny: seq<Namespace>,
    state: seq<(string, Hex.Text)>,
    steps: seq<Step>,
    wants: RunExpect)

  /** What the crates outside this model answered, and the bench the walk is set up on. */
  datatype Setting<!S> = Setting(
    validated: Result<Manifest, string>,
    resolves: bool,
    compiles: bool,
    folds: nat,
    host: Host<S>,
    bench: Walk.Bench<S>)

  /** The first death any step expects. */
  function FirstDeath(steps: seq<Step>): Option<Record.TrapKind> {
    if steps == [] then None
    else if steps[0].wants.dead.Some? then steps[0].wants.dead
    else FirstDeath(steps[1..])
  }

  /** Which death that is: the first step that expects one, whatever the others expect. */
  lemma {:induction false} FirstDeathIsTheFirst(steps: seq<Step>)
    ensures FirstDeath(steps).None? <==> forall i :: 0 <= i < |steps| ==> steps[i].wants.dead.None?
    ensures forall kind :: FirstDeath(steps) == Some(kind) <==> exists i: nat :: DiesFirstAt(steps, i, kind)
    decreases steps
  {
    if steps != [] {
      var rest := steps[1..];
      FirstDeathIsTheFirst(rest);
      assert forall i :: 0 < i < |steps| ==> steps[i] == rest[i - 1];
      forall kind ensures FirstDeath(steps) == Some(kind) <==> exists i: nat :: DiesFirstAt(steps, i, kind) {
        if i: nat :| DiesFirstAt(rest, i, kind) && steps[0].wants.dead.None? {
          var next := i + 1;
          assert DiesFirstAt(steps, next, kind);
        }
        if steps[0].wants.dead == Some(kind) {
          assert DiesFirstAt(steps, 0, kind);
        }
        if i: nat :| DiesFirstAt(steps, i, kind) {
          if i > 0 {
            assert DiesFirstAt(rest, i - 1, kind);
          }
        }
      }
    }
  }

  predicate DiesFirstAt(steps: seq<Step>, i: nat, kind: Record.TrapKind) {
    && i < |steps| && steps[i].wants.dead == Some(kind)
    && forall j :: 0 <= j < i ==> steps[j].wants.dead.None?
  }

  /** The scenario can be set up at all: a loadable module, limits, and properties that resolve and compile. */
  predicate Loads<S>(doc: Document, at: Setting<S>) {
    at.validated.Ok? && doc.limits.Some? && at.resolves && at.compiles
  }

  /** The host has what the scenario is about: a budget to exhaust, and every capability the module names. */
  predicate Suits<S>(doc: Document, at: Setting<S>)
    requires Loads(doc, at)
  {
    && (at.host.enforcesBudgets || FirstDeath(doc.steps) !in {Some(Record.TrapFuel), Some(Record.TrapDeadline)})
    && forall i :: 0 <= i < |at.validated.value.capabilities| ==> at.validated.value.capabilities[i] in at.host.capabilities
  }

  function DenyAll<S>(host: Host<S>, inner: S, deny: seq<Namespace>): S
    decreases deny
  {
    if deny == [] then inner else DenyAll(host, host.denied(inner, deny[0]), deny[1..])
  }

  /** Seeding the store from the document, up to the first text that is not hex. */
  function SeedAll<S>(host: Host<S>, inner: S, state: seq<(string, Hex.Text)>): Walk.Scripting<S>
    decreases state
  {
    if state == [] then Walk.Queued(inner)
    else match Hex.Unhex(state[0].1)
      case Panicked => Walk.Cut
      case Decoded(bytes) => SeedAll(host, host.seeded(inner, state[0].0, bytes), state[1..])
      case _ => Walk.Misscripted(Check.NotHex)
  }

  /** Entry `k` of the initial state is reached, and its text cuts. */
  ghost predicate StateCutsAt(state: seq<(string, Hex.Text)>, k: nat) {
    && k < |state| && Runs.Cuts(state[k].1)
    && forall j :: 0 <= j < k ==> Hex.Unhex(state[j].1).Decoded?
  }

  lemma {:induction false} SeedingPanicsExactly<S>(host: Host<S>, inner: S, state: seq<(string, Hex.Text)>)
    ensures SeedAll(host, inner, state).Cut? <==> exists k: nat :: StateCutsAt(state, k)
    ensures SeedAll(host, inner, state).Queued? <==> forall j :: 0 <= j < |state| ==> Hex.Unhex(state[j].1).Decoded?
    decreases state
  {
    if state != [] {
      var rest := state[1..];
      Runs.TextPanicsExactly(state[0].1);
      match Hex.Unhex(state[0].1)
      case Panicked => assert StateCutsAt(state, 0);
      case Decoded(bytes) =>
        SeedingPanicsExactly(host, host.seeded(inner, state[0].0, bytes), rest);
        assert forall j :: 0 < j < |state| ==> state[j] == rest[j - 1];
        if k: nat :| StateCutsAt(state, k) {
          assert StateCutsAt(rest, k - 1);
        }
        if k: nat :| StateCutsAt(rest, k) {
          var next := k + 1;
          assert StateCutsAt(state, next);
        }
      case _ =>
    }
  }

  /** From state to state, the host denied each namespace in turn. */
  ghost predicate Denies<S>(host: Host<S>, deny: seq<Namespace>, states: seq<S>) {
    && |states| == |deny| + 1
    && forall i :: 0 <= i < |deny| ==> DeniesAt(host, deny[i], states, i)
  }

  ghost predicate DeniesAt<S>(host: Host<S>, ns: Namespace, states: seq<S>, i: nat)
    requires i + 1 < |states|
  {
    states[i + 1] == host.denied(states[i], ns)
  }

  lemma {:induction false} DenialsReachTheHost<S>(host: Host<S>, inner: S, deny: seq<Namespace>) returns (states: seq<S>)
    ensures Denies(host, deny, states) && states[0] == inner && states[|deny|] == DenyAll(host, inner, deny)
    decreases deny
  {
    states := [inner];
    if deny != [] {
      var rest := DenialsReachTheHost(host, host.denied(inner, deny[0]), deny[1..]);
      states := [inner] + rest;
      forall i | 0 <= i < |deny| ensures DeniesAt(host, deny[i], states, i) {
        if i > 0 {
          assert DeniesAt(host, deny[1..][i - 1], rest, i - 1);
        }
      }
    }
  }

  /** From state to state, the host was given each key and the bytes its text spells, in turn. */
  ghost predicate Seeds<S>(host: Host<S>, state: seq<(string, Hex.Text)>, states: seq<S>) {
    && 1 <= |states| <= |state| + 1
    && forall i :: 0 <= i < |states| - 1 ==> SeedsAt(host, state[i], states, i)
  }

  ghost predicate SeedsAt<S>(host: Host<S>, entry: (string, Hex.Text), states: seq<S>, i: nat)
    requires i + 1 < |states|
  {
    && Hex.Unhex(entry.1).Decoded? && Hex.Spells(entry.1, Hex.Unhex(entry.1).bytes)
    && states[i + 1] == host.seeded(states[i], entry.0, Hex.Unhex(entry.1).bytes)
  }

  /** Every value of the initial state reaches the host under its key, in order; all of them, when the state is seeded. */
  lemma {:induction false} SeedsReachTheHost<S>(host: Host<S>, inner: S, state: seq<(string, Hex.Text)>) returns (states: seq<S>)
    ensures Seeds(host, state, states) && states[0] == inner
    ensures SeedAll(host, inner, state).Queued? ==>
      |states| == |state| + 1 && SeedAll(host, inner, state) == Walk.Queued(states[|state|])
    decreases state
  {
    states := [inner];
    if state != [] && Hex.Unhex(state[0].1).Decoded? {
      var bytes := Hex.Unhex(state[0].1).bytes;
      Hex.UnhexReadsSpellings(state[0].1, bytes);
      var rest := SeedsReachTheHost(host, host.seeded(inner, state[0].0, bytes), state[1..]);
      states := [inner] + rest;
      forall i | 0 <= i < |states| - 1 ensures SeedsAt(host, state[i], states, i) {
        if i > 0 {
          assert SeedsAt(host, state[1..][i - 1], rest, i - 1);
        }
      }
    }
  }

  method SeedState<S>(host: Host<S>, inner: S, state: seq<(string, Hex.Text)>) returns (seeding: Walk.Scripting<S>)
    ensures seeding == SeedAll(host, inner, state)
  {
    var s := inner;
    assert state[0..] == state;
    for i := 0 to |state|
      invariant SeedAll(host, s, state[i..]) == SeedAll(host, inner, state)
    {
      assert state[i..][0] == state[i] && state[i..][1..] == state[i + 1..];
      match Hex.Unhex(state[i].1) {
        case Panicked => return Walk.Cut;
        case Decoded(bytes) => s := host.seeded(s, state[i].0, bytes);
        case _ => return Walk.Misscripted(Check.NotHex);
      }
    }
    seeding := Walk.Queued(s);
  }

  /** The version call, when there is an instance to make it of. */
  function VersionRead<S>(at: Setting<S>): L.Turned<S, Result<I32, Record.TrapKind>>
    requires at.host.loading.Loaded?
  {
    L.ReadVersion(at.bench.guest, at.host.loading.inner, at.folds)
  }

  function Seeding<S>(doc: Document, at: Setting<S>): Walk.Scripting<S>
    requires at.host.loading.Loaded?
  {
    SeedAll(at.host, DenyAll(at.host, VersionRead(at).world.inner, doc.deny), doc.state)
  }

  /** An instance exists, answered for its version, and took `eio:core`. */
  predicate Instantiates<S>(doc: Document, at: Setting<S>) {
    && Loads(doc, at) && Suits(doc, at)
    && at.host.loading.Loaded? && VersionRead(at).answer.Ok? && at.host.takesCore
  }

  /** The walk begins. */
  predicate Begins<S>(doc: Document, at: Setting<S>) {
    Instantiates(doc, at) && Seeding(doc, at).Queued? && at.host.takesCapabilities
  }

  /** `(major << 16) | minor`, against what the manifest claims. */
  predicate AbiAgrees<S>(doc: Document, at: Setting<S>)
    requires Instantiates(doc, at)
  {
    var packed := AsU32(VersionRead(at).answer.value);
    packed / 0x1_0000 == at.validated.value.major && packed % 0x1_0000 == at.validated.value.minor
  }

  /** The versions agree exactly when the packed number is the manifest's. */
  lemma AgreeingIsPacked<S>(doc: Document, at: Setting<S>)
    requires Instantiates(doc, at)
    ensures AbiAgrees(doc, at) <==>
      var manifest := at.validated.value;
      manifest.minor < 0x1_0000 && AsU32(VersionRead(at).answer.value) == 0x1_0000 * manifest.major + manifest.minor
  {
  }

  /** Where the walk begins: the version read, the host's state seeded, nothing heard. */
  function StartOf<S>(doc: Document, at: Setting<S>): L.World<S>
    requires Begins(doc, at)
  {
    VersionRead(at).world.(inner := Seeding(doc, at).value)
  }

  /** The walk begins with the version read, every namespace denied and every value seeded, in that order, and nothing heard. */
  lemma WalkBeginsSetUp<S>(doc: Document, at: Setting<S>) returns (denied: seq<S>, seeded: seq<S>)
    requires Begins(doc, at)
    ensures Denies(at.host, doc.deny, denied) && denied[0] == VersionRead(at).world.inner
    ensures Seeds(at.host, doc.state, seeded) && |seeded| == |doc.state| + 1 && seeded[0] == denied[|doc.deny|]
    ensures var start := StartOf(doc, at);
      && start.inner == seeded[|doc.state|]
      && |start.trace| == 1 && start.trace[0].op == Record.Call(L.ABI_VERSION, [])
      && start.calls == [] && start.pending == SILENCE && start.total == SILENCE.(evaluations := at.folds)
  {
    denied := DenialsReachTheHost(at.host, VersionRead(at).world.inner, doc.deny);
    seeded := SeedsReachTheHost(at.host, denied[|doc.deny|], doc.state);
  }

  function RunFrom<S>(doc: Document, at: Setting<S>): Walk.Ran<S>
    requires Begins(doc, at)
  {
    Walk.RunOf(at.bench, Walk.Fresh, StartOf(doc, at), doc.steps)
  }

  /** What the bisection finds for a memory of this many bytes. */
  function PagesOf(size: nat): U32 {
    if size < Record.FOUR_GIB then size / Record.PAGE else Record.FOUR_GIB / Record.PAGE - 1
  }

  function Measured<S>(host: Host<S>, stage: Walk.Stage, world: L.World<S>): Facts {
    Facts(
      Runs.Errors(stage),
      stage.Stopped?,
      if stage.Stopped? then PagesOf(host.memory(world.inner)) else 0,
      Record.AllocationsOf(world.trace),
      host.store(world.inner))
  }

  /** Linear memory is contiguous from zero, in every state of the guest. */
  ghost predicate Contiguous<S(!new)>(at: Setting<S>) {
    forall s: S, ptr: U32 :: at.bench.guest.engine.read(s, ptr, 1).Some? <==> ptr < at.host.memory(s)
  }

  /** The instance's memory in pages, when it stopped and there is an engine to measure. */
  method Measure<S(!new)>(at: Setting<S>, stage: Walk.Stage, world: L.World<S>) returns (facts: Facts)
    requires Contiguous(at)
    ensures facts == Measured(at.host, stage, world)
  {
    var pages: U32 := 0;
    if stage.Stopped? {
      var ledger := new Record.Ledger();
      var recording := new Record.Recording(at.bench.guest.engine, world.inner, ledger, at.bench.guest.names);
      ghost var probes;
      pages, probes := recording.MemoryPages(at.host.memory(world.inner));
    }
    facts := Facts(Runs.Errors(stage), stage.Stopped?, pages, Record.AllocationsOf(world.trace), at.host.store(world.inner));
  }

  /**
   * The walk and its verdict. It passes exactly when the ABI versions agree, every step observed what
   * it expects, and the whole-run expectations hold; it panics exactly when a step does. The host's
   * own conduct is never what fails it: no guest can make this driver write where it was not given
   * memory, or free.
   */
  method RunWalk<S(!new)>(doc: Document, at: Setting<S>) returns (outcome: Outcome)
    requires Begins(doc, at) && Contiguous(at)
    ensures outcome == Passed <==>
      && AbiAgrees(doc, at) && !RunFrom(doc, at).panicked
      && Walk.AllHold(at.bench.View(), doc.steps, RunFrom(doc, at).replies)
      && RunMet(doc.wants, Measured(at.host, RunFrom(doc, at).stage, RunFrom(doc, at).world))
    ensures outcome == Panicked <==> RunFrom(doc, at).panicked
    ensures outcome != Skipped
  {
    var start := StartOf(doc, at);
    var complaints := if AbiAgrees(doc, at) then [] else [Check.Violation(None, Check.AbiMismatch)];
    var walk := new Walk.Walker(at.bench, start, complaints);
    var panicked;
    ghost var replies;
    panicked, replies := walk.Run(doc.steps);
    ghost var ran := RunFrom(doc, at);
    assert ran == Walk.Ran(walk.stage, walk.world, replies, panicked);
    if panicked {
      return Panicked;
    }
    L.VersionIsProper(at.bench.guest, at.host.loading.inner, at.folds);
    Runs.EveryRunIsProper(at.bench, Walk.Fresh, start, doc.steps);
    var facts := Measure(at, walk.stage, walk.world);
    NoFaults(walk.stage, walk.world.trace);
    CleanFromTheStart(complaints, walk.violations);
    outcome := Conclude(walk.violations, Record.FaultsOf(walk.world.trace, |walk.world.trace|), doc.wants, facts);
  }

  lemma CleanFromTheStart(before: seq<Check.Violation>, after: seq<Check.Violation>)
    requires before <= after
    ensures after == [] <==> before == [] && after == before
  {
  }

  lemma NoFaults(stage: Walk.Stage, trace: seq<Record.Event>)
    requires Runs.Agrees(stage, trace)
    ensures Record.FaultsOf(trace, |trace|) == []
  {
  }

  /** The scenario panics: in a text of its initial state that is reached, or in a step. */
  ghost predicate RunCuts<S>(doc: Document, at: Setting<S>) {
    && doc.refuses.None? && Instantiates(doc, at)
    && ((exists k: nat :: StateCutsAt(doc.state, k))
        || (Begins(doc, at) && exists k: nat :: Runs.PanicsAt(at.bench, Walk.Fresh, StartOf(doc, at), doc.steps, k)))
  }

  /**
   * One scenario against one host, end to end. Passing, being skipped and panicking are each said
   * exactly; everything else is a failure. A host that cannot take the module's capabilities skips
   * the scenario even when the ABI versions disagreed, and that disagreement is then not reported.
   */
  method RunLoaded<S(!new)>(doc: Document, at: Setting<S>) returns (outcome: Outcome)
    requires Contiguous(at)
    ensures outcome == Passed <==>
      if doc.refuses.Some? then
        && WellPosed(doc.refuses.value, doc.steps != [] || doc.limits.Some?)
        && Refuses(doc.refuses.value, LoaderError(at.validated), at.host)
      else
        && Begins(doc, at) && AbiAgrees(doc, at) && !RunFrom(doc, at).panicked
        && Walk.AllHold(at.bench.View(), doc.steps, RunFrom(doc, at).replies)
        && RunMet(doc.wants, Measured(at.host, RunFrom(doc, at).stage, RunFrom(doc, at).world))
    ensures outcome == Skipped <==>
      if doc.refuses.Some? then
        && WellPosed(doc.refuses.value, doc.steps != [] || doc.limits.Some?)
        && Unreachable(doc.refuses.value, LoaderError(at.validated), at.host)
      else
        && Loads(doc, at)
        && (!Suits(doc, at) || at.host.loading.Unsupported?
            || (Instantiates(doc, at) && Seeding(doc, at).Queued? && !at.host.takesCapabilities))
    ensures outcome == Panicked <==> RunCuts(doc, at)
  {
    if doc.refuses.Some? {
      outcome := Refused(doc.refuses.value, doc.steps != [] || doc.limits.Some?, LoaderError(at.validated), at.host);
      return;
    }
    if at.validated.Err? || doc.limits.None? || !at.resolves || !at.compiles {
      return Failed;
    }
    var death := FirstDeath(doc.steps);
    if !at.host.enforcesBudgets && (death == Some(Record.TrapFuel) || death == Some(Record.TrapDeadline)) {
      return Skipped;
    }
    if exists i :: 0 <= i < |at.validated.value.capabilities| && at.validated.value.capabilities[i] !in at.host.capabilities {
      return Skipped;
    }
    match at.host.loading {
      case Unsupported => return Skipped;
      case RefusedSaying(_) => return Failed;
      case Loaded(_) =>
    }
    var version := VersionRead(at);
    if version.answer.Err? || !at.host.takesCore {
      return Failed;
    }
    var seeding := SeedState(at.host, DenyAll(at.host, version.world.inner, doc.deny), doc.state);
    SeedingPanicsExactly(at.host, DenyAll(at.host, version.world.inner, doc.deny), doc.state);
    match seeding {
      case Cut => return Panicked;
      case Misscripted(_) => return Failed;
      case Queued(_) =>
    }
    if !at.host.takesCapabilities {
      return Skipped;
    }
    Runs.RunPanicsExactly(at.bench, Walk.Fresh, StartOf(doc, at), doc.steps);
    outcome := RunWalk(doc, at);
  }

  function LoaderError(validated: Result<Manifest, string>): Option<string> {
    match validated case Ok(_) => None case Err(error) => Some(error)
  }
}
