/** The lifecycle driver: what each transition asks of a guest, and in what order. */
module Lifecycle {
  import opened Common
  import opened Scenario
  import Record
  import Status

  const ABI_VERSION := "eio_abi_version"
  const CONFIGURE := "eio_configure"
  const START := "eio_start"
  const STOP := "eio_stop"
  const PROCESS_SIGNALS := "eio_process_signals"
  const ON_TIMER := "eio_on_timer"
  const ON_GPIO := "eio_on_gpio"
  const ON_HTTP := "eio_on_http"

  /** Any guest, with the host functions it is linked against: all of it may depend on its own state. */
  datatype Guest<!S> = Guest(
    engine: Record.Engine<S>,
    names: set<(string, string)>,
    heard: (S, string, seq<I32>) -> Heard,
    codec: Codec)

  /**
   * The guest's state, everything asked of its engine so far, the host calls it made, what the host
   * functions heard since they were last drained, and what they heard in all.
   */
  datatype World<+S> = World(
    inner: S,
    trace: seq<Record.Event>,
    calls: seq<Record.HostCall>,
    pending: Heard,
    total: Heard)

  datatype Turned<+S, +A> = Turned(world: World<S>, answer: A)

  /** One engine call. */
  function Enter<S>(g: Guest<S>, w: World<S>, fn: string, args: seq<I32>): Turned<S, Result<I32, Record.TrapKind>> {
    var reply := g.engine.call(w.inner, fn, args);
    var heard := g.heard(w.inner, fn, args);
    Turned(
      World(
        reply.state,
        w.trace + [Record.Event(Record.Call(fn, args), Record.Called(reply.answer))],
        w.calls + Record.Known(reply.hostCalls, g.names),
        w.pending.Plus(heard),
        w.total.Plus(heard)),
      reply.answer)
  }

  /** The guest's packed ABI version, read before any host function is there to be heard. */
  function ReadVersion<S>(g: Guest<S>, inner: S, folds: nat): Turned<S, Result<I32, Record.TrapKind>> {
    var reply := g.engine.call(inner, ABI_VERSION, []);
    Turned(
      World(reply.state, [Record.Event(Record.Call(ABI_VERSION, []), Record.Called(reply.answer))], [],
            SILENCE, SILENCE.(evaluations := folds)),
      reply.answer)
  }

  datatype Inbound = Placed(ptr: U32) | Declined | Lied(kind: Record.TrapKind)

  /** Writing a payload where `eio_alloc` said, once what it said is something to trust. */
  function Put<S>(g: Guest<S>, asked: Turned<S, Result<I32, Record.TrapKind>>, bytes: seq<Byte>): Turned<S, Inbound> {
    match asked.answer
    case Err(kind) => Turned(asked.world, Lied(kind))
    case Ok(raw) =>
      var ptr := AsU32(raw);
      if ptr == 0 then Turned(asked.world, Declined)
      else if ptr % Record.ALLOC_ALIGN != 0 then Turned(asked.world, Lied(Record.TrapEngine))
      else
        var (inner, ok) := g.engine.write(asked.world.inner, ptr, bytes);
        var wrote := Record.Event(Record.Write(ptr, bytes), Record.Wrote(ok));
        Turned(asked.world.(inner := inner, trace := asked.world.trace + [wrote]),
               if ok then Placed(ptr) else Lied(Record.TrapEngine))
  }

  /** Allocating a payload in the guest and writing it there. */
  function Place<S>(g: Guest<S>, w: World<S>, bytes: seq<Byte>): Turned<S, Inbound> {
    if |bytes| > 0xFFFF_FFFF then Turned(w, Declined)
    else Put(g, Enter(g, w, Record.ALLOC, [AsI32(|bytes|)]), bytes)
  }

  datatype Handed = Took(status: Status.Status) | Unplaced | Killed(kind: Record.TrapKind)

  /** Placing a payload and calling `fn` with it; `leading` is whatever precedes `(ptr, len)`. */
  function Hand<S>(g: Guest<S>, w: World<S>, bytes: seq<Byte>, fn: string, leading: seq<I32>): Turned<S, Handed> {
    var placed := Place(g, w, bytes);
    match placed.answer
    case Declined => Turned(placed.world, Unplaced)
    case Lied(kind) => Turned(placed.world, Killed(kind))
    case Placed(ptr) =>
      var called := Enter(g, placed.world, fn, leading + [AsI32(ptr), AsI32(|bytes|)]);
      match called.answer
      case Ok(raw) => Turned(called.world, Took(Status.DecodeStatus(raw)))
      case Err(kind) => Turned(called.world, Killed(kind))
  }

  lemma HandCalls<S>(g: Guest<S>, w: World<S>, bytes: seq<Byte>, fn: string, leading: seq<I32>)
    ensures |w.calls| <= |Hand(g, w, bytes, fn, leading).world.calls|
  {
    assert |w.calls| <= |Place(g, w, bytes).world.calls|;
  }

  /** Non-zero returns are counted, and the count saturates. */
  function Counted(errors: U32, status: Status.Status): U32 {
    if status.Fine? || errors == 0xFFFF_FFFF then errors else errors + 1
  }

  datatype Configuring = Configured | Rejected(code: Status.ErrorCode) | ConfigureDied(kind: Record.TrapKind)

  function Configure<S>(g: Guest<S>, w: World<S>, d: Descriptor): Turned<S, Configuring> {
    var handed := Hand(g, w, d.encoded, CONFIGURE, []);
    Turned(handed.world, match handed.answer
      case Took(Fine) => Configured
      case Took(Failed(code)) => Rejected(code)
      case Unplaced => Rejected(Status.Limit)
      case Killed(kind) => ConfigureDied(kind))
  }

  /** What a callback that leaves an instance behind came back with. */
  datatype Living = Lived(errors: U32, status: Status.Status) | Died(kind: Record.TrapKind)

  function Callback<S>(g: Guest<S>, w: World<S>, errors: U32, fn: string, args: seq<I32>): Turned<S, Living> {
    var called := Enter(g, w, fn, args);
    match called.answer
    case Ok(raw) =>
      var status := Status.DecodeStatus(raw);
      Turned(called.world, Lived(Counted(errors, status), status))
    case Err(kind) => Turned(called.world, Died(kind))
  }

  /** A callback a guest may not export: asking for it is then the instance's death, and no call is made. */
  function Optional<S>(g: Guest<S>, w: World<S>, errors: U32, fn: string, args: seq<I32>): Turned<S, Living> {
    if g.engine.hasExport(w.inner, fn) then Callback(g, w, errors, fn, args)
    else Turned(w, Died(Record.TrapEngine))
  }

  function Lives<S>(handed: Turned<S, Handed>, errors: U32): Turned<S, Living> {
    Turned(handed.world, match handed.answer
      case Took(status) => Lived(Counted(errors, status), status)
      case Unplaced => Lived(Counted(errors, Status.Failed(Status.Limit)), Status.Failed(Status.Limit))
      case Killed(kind) => Died(kind))
  }

  function OnHttp<S>(g: Guest<S>, w: World<S>, errors: U32, req: U32, code: I32, body: seq<Byte>): Turned<S, Living> {
    if g.engine.hasExport(w.inner, ON_HTTP)
    then Lives(Hand(g, w, body, ON_HTTP, [AsI32(req), code]), errors)
    else Turned(w, Died(Record.TrapEngine))
  }

  datatype Delivering = Delivered(living: Living) | Refused(why: RefusalKind)

  /** A batch within what the descriptor published, or the host's own refusal. */
  function Acceptable(d: Descriptor, codec: Codec, port: nat, batch: Batch): Option<RefusalKind> {
    if port >= |d.inputs| then Some(PortRefusal)
    else if |batch.signals| > d.limits.maxBatch then Some(BatchRefusal)
    else if |codec.encode(batch)| > d.limits.maxPayload then Some(PayloadRefusal)
    else None
  }

  function ProcessSignals<S>(g: Guest<S>, w: World<S>, d: Descriptor, errors: U32, port: nat, batch: Batch)
    : Turned<S, Delivering>
  {
    match Acceptable(d, g.codec, port, batch)
    case Some(why) => Turned(w, Refused(why))
    case None =>
      var living := Lives(Hand(g, w, g.codec.encode(batch), PROCESS_SIGNALS, [AsI32(port)]), errors);
      Turned(living.world, Delivered(living.answer))
  }

  // The order of everything asked of a guest, as an automaton over the engine's own answers.

  datatype Phase = Unread | New | Ready | Live | Over

  predicate IsDelivery(fn: string) {
    fn == PROCESS_SIGNALS || fn == ON_TIMER || fn == ON_GPIO || fn == ON_HTTP
  }

  function AfterAlloc(p: Phase, answer: Result<I32, Record.TrapKind>): Phase {
    match answer
    case Err(_) => Over
    case Ok(raw) =>
      match Record.Classify(AsU32(raw))
      case Accepted => p
      case Refused => if p == New then Over else p
      case Misaligned => Over
  }

  /** What one thing asked of the engine does to the phase; `None` when it may not be asked there. */
  function Next(p: Phase, e: Record.Event): Option<Phase> {
    match e
    case Event(Call(fn, _), Called(answer)) =>
      if fn == Record.ALLOC then (if p == New || p == Live then Some(AfterAlloc(p, answer)) else None)
      else if fn == ABI_VERSION then (if p == Unread then Some(if answer.Err? then Over else New) else None)
      else if fn == CONFIGURE then (if p == New then Some(if answer == Ok(0) then Ready else Over) else None)
      else if fn == START then
        (if p == Ready then Some(if answer.Err? then Over else if answer.value == 0 then Live else Ready) else None)
      else if IsDelivery(fn) then (if p == Live then Some(if answer.Err? then Over else Live) else None)
      else if fn == STOP then (if p == Live then Some(Over) else None)
      else None
    case Event(Write(_, _), Wrote(ok)) => if p == New || p == Live then Some(if ok then p else Over) else None
    case _ => None
  }

  function Follow(trace: seq<Record.Event>): Option<Phase> {
    if trace == [] then Some(Unread)
    else match Follow(trace[..|trace| - 1])
      case None => None
      case Some(p) => Next(p, trace[|trace| - 1])
  }

  /** A trace that kept the order, and gave the recorder nothing to fault. */
  ghost predicate Proper(trace: seq<Record.Event>, p: Phase) {
    Follow(trace) == Some(p) && Record.FaultsOf(trace, |trace|) == []
  }

  lemma CallIsProper(trace: seq<Record.Event>, p: Phase, e: Record.Event)
    requires Proper(trace, p) && Next(p, e).Some? && e.op.Call?
    ensures Proper(trace + [e], Next(p, e).value)
  {
    Record.TraceGrows(trace, e);
    assert (trace + [e])[..|trace|] == trace;
  }

  /** Reading the version is the first thing asked of a guest. */
  lemma VersionIsProper<S>(g: Guest<S>, inner: S, folds: nat)
    ensures var t := ReadVersion(g, inner, folds);
      Proper(t.world.trace, if t.answer.Err? then Over else New)
  {
    var t := ReadVersion(g, inner, folds);
    assert Proper([], Unread);
    CallIsProper([], Unread, t.world.trace[0]);
    assert [] + [t.world.trace[0]] == t.world.trace;
  }

  lemma LengthsSurvive(n: nat)
    requires n <= 0xFFFF_FFFF
    ensures AsU32(AsI32(n)) == n
  {
  }

  lemma WriteIsProper(trace: seq<Record.Event>, p: Phase, ptr: U32, bytes: seq<Byte>, ok: bool)
    requires Proper(trace, p) && (p == New || p == Live)
    requires Record.InRange(Record.AllocationsOf(trace), ptr, |bytes|)
    ensures Proper(trace + [Record.Event(Record.Write(ptr, bytes), Record.Wrote(ok))], if ok then p else Over)
  {
    var wrote := Record.Event(Record.Write(ptr, bytes), Record.Wrote(ok));
    Record.TraceGrows(trace, wrote);
    assert (trace + [wrote])[..|trace|] == trace;
  }

  /** The range an accepted `eio_alloc` answered is one a payload of the size asked for fits. */
  lemma AllocationIsInRange(trace: seq<Record.Event>, n: nat, raw: I32)
    requires n <= 0xFFFF_FFFF && Record.Classify(AsU32(raw)) == Record.Accepted
    ensures
      var alloc := Record.Event(Record.Call(Record.ALLOC, [AsI32(n)]), Record.Called(Ok(raw)));
      Record.InRange(Record.AllocationsOf(trace + [alloc]), AsU32(raw), n)
  {
    var alloc := Record.Event(Record.Call(Record.ALLOC, [AsI32(n)]), Record.Called(Ok(raw)));
    Record.TraceGrows(trace, alloc);
    LengthsSurvive(n);
    var a := Record.Allocation(n, AsU32(raw), Record.Accepted);
    var allocs := Record.AllocationsOf(trace + [alloc]);
    assert Record.AllocationOf(alloc) == Some(a);
    assert allocs[|allocs| - 1] == a && Record.Covers(a, AsU32(raw), n);
  }

  lemma AllocIsProper<S>(g: Guest<S>, w: World<S>, n: nat, p: Phase)
    requires n <= 0xFFFF_FFFF && Proper(w.trace, p) && (p == New || p == Live)
    ensures var asked := Enter(g, w, Record.ALLOC, [AsI32(n)]);
      && Proper(asked.world.trace, AfterAlloc(p, asked.answer))
      && (asked.answer.Ok? && Record.Classify(AsU32(asked.answer.value)) == Record.Accepted ==>
            Record.InRange(Record.AllocationsOf(asked.world.trace), AsU32(asked.answer.value), n))
  {
    var asked := Enter(g, w, Record.ALLOC, [AsI32(n)]);
    CallIsProper(w.trace, p, Record.Event(Record.Call(Record.ALLOC, [AsI32(n)]), Record.Called(asked.answer)));
    if asked.answer.Ok? && Record.Classify(AsU32(asked.answer.value)) == Record.Accepted {
      AllocationIsInRange(w.trace, n, asked.answer.value);
    }
  }

  /** A payload no pointer can address asks the guest for nothing; any other refusal ends an instance not yet configured. */
  function AfterDeclining(p: Phase, n: nat): Phase {
    if p == Live || n > 0xFFFF_FFFF then p else Over
  }

  /** Where the phase stands after a payload was placed, or was not. */
  ghost predicate PlacedProperly(trace: seq<Record.Event>, answer: Inbound, p: Phase, n: nat) {
    match answer
    case Placed(_) => Proper(trace, p)
    case Declined => Proper(trace, AfterDeclining(p, n))
    case Lied(_) => Proper(trace, Over)
  }

  lemma PlaceIsProper<S>(g: Guest<S>, w: World<S>, bytes: seq<Byte>, p: Phase)
    requires Proper(w.trace, p) && (p == New || p == Live)
    ensures PlacedProperly(Place(g, w, bytes).world.trace, Place(g, w, bytes).answer, p, |bytes|)
  {
    if |bytes| <= 0xFFFF_FFFF {
      AllocIsProper(g, w, |bytes|, p);
      PutIsProper(g, Enter(g, w, Record.ALLOC, [AsI32(|bytes|)]), bytes, p);
    }
  }

  lemma PutIsProper<S>(g: Guest<S>, asked: Turned<S, Result<I32, Record.TrapKind>>, bytes: seq<Byte>, p: Phase)
    requires p == New || p == Live
    requires Proper(asked.world.trace, AfterAlloc(p, asked.answer))
    requires |bytes| <= 0xFFFF_FFFF
    requires asked.answer.Ok? && Record.Classify(AsU32(asked.answer.value)) == Record.Accepted ==>
      Record.InRange(Record.AllocationsOf(asked.world.trace), AsU32(asked.answer.value), |bytes|)
    ensures PlacedProperly(Put(g, asked, bytes).world.trace, Put(g, asked, bytes).answer, p, |bytes|)
  {
    if asked.answer.Ok? && Record.Classify(AsU32(asked.answer.value)) == Record.Accepted {
      var ptr := AsU32(asked.answer.value);
      WriteIsProper(asked.world.trace, p, ptr, bytes, g.engine.write(asked.world.inner, ptr, bytes).1);
    }
  }

  ghost predicate HandedProperly(trace: seq<Record.Event>, answer: Handed, p: Phase, n: nat) {
    match answer
    case Took(status) => Proper(trace, if p == Live then Live else if status.Fine? then Ready else Over)
    case Unplaced => Proper(trace, AfterDeclining(p, n))
    case Killed(_) => Proper(trace, Over)
  }

  lemma EnterIsProper<S>(g: Guest<S>, w: World<S>, fn: string, args: seq<I32>, p: Phase)
    requires Proper(w.trace, p)
    requires (p == New && fn == CONFIGURE) || (p == Live && IsDelivery(fn))
    ensures var called := Enter(g, w, fn, args);
      match called.answer
      case Ok(raw) =>
        Proper(called.world.trace, if p == Live then Live else if Status.DecodeStatus(raw).Fine? then Ready else Over)
      case Err(_) => Proper(called.world.trace, Over)
  {
    var called := Enter(g, w, fn, args);
    CallIsProper(w.trace, p, Record.Event(Record.Call(fn, args), Record.Called(called.answer)));
    if called.answer.Ok? {
      Status.StatusRoundTrips(called.answer.value);
    }
  }

  /** Where the phase stands after a payload was handed to `fn`. */
  lemma HandIsProper<S>(g: Guest<S>, w: World<S>, bytes: seq<Byte>, fn: string, leading: seq<I32>, p: Phase)
    requires Proper(w.trace, p)
    requires (p == New && fn == CONFIGURE) || (p == Live && IsDelivery(fn))
    ensures HandedProperly(Hand(g, w, bytes, fn, leading).world.trace, Hand(g, w, bytes, fn, leading).answer, p, |bytes|)
  {
    PlaceIsProper(g, w, bytes, p);
    var placed := Place(g, w, bytes);
    if placed.answer.Placed? {
      EnterIsProper(g, placed.world, fn, leading + [AsI32(placed.answer.ptr), AsI32(|bytes|)], p);
    }
  }

  // Nothing heard is lost between being heard and being drained.

  /** Since the last drain, when `base` had been heard and `calls` made, the host kept everything. */
  ghost predicate Kept<S>(base: Heard, calls: seq<Record.HostCall>, w: World<S>) {
    w.total == base.Plus(w.pending) && calls <= w.calls
  }

  lemma EnterKeeps<S>(base: Heard, calls: seq<Record.HostCall>, g: Guest<S>, w: World<S>, fn: string, args: seq<I32>)
    requires Kept(base, calls, w)
    ensures Kept(base, calls, Enter(g, w, fn, args).world)
  {
    PlusIsAssociative(base, w.pending, g.heard(w.inner, fn, args));
  }

  lemma HandKeeps<S>(base: Heard, calls: seq<Record.HostCall>, g: Guest<S>, w: World<S>, bytes: seq<Byte>, fn: string,
                     leading: seq<I32>)
    requires Kept(base, calls, w)
    ensures Kept(base, calls, Hand(g, w, bytes, fn, leading).world)
  {
    if |bytes| <= 0xFFFF_FFFF {
      EnterKeeps(base, calls, g, w, Record.ALLOC, [AsI32(|bytes|)]);
      var placed := Place(g, w, bytes);
      if placed.answer.Placed? {
        EnterKeeps(base, calls, g, placed.world, fn, leading + [AsI32(placed.answer.ptr), AsI32(|bytes|)]);
      }
    }
  }
}
