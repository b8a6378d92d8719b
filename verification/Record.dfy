/** The observation decorator: an engine watched, a ledger of what the host did, and a memory probe. */
module Record {
  import opened Common

  datatype TrapKind = TrapTrap | TrapFuel | TrapDeadline | TrapEngine

  /** One guest-to-host call: which function, its arguments, and what its handler answered. */
  datatype HostCall = HostCall(namespace: string, name: string, args: seq<int>, ret: int)

  /** A guest call: the engine's next state, the answer or the death, and the host calls it made. */
  datatype CallReply<+S> = CallReply(state: S, answer: Result<I32, TrapKind>, hostCalls: seq<HostCall>)

  /** Any engine: what each of its operations does in each of its states. */
  datatype Engine<!S> = Engine(
    call: (S, string, seq<I32>) -> CallReply<S>,
    hasExport: (S, string) -> bool,
    read: (S, U32, U32) -> Option<seq<Byte>>,
    write: (S, U32, seq<Byte>) -> (S, bool))

  const ALLOC := "eio_alloc"
  const FREE := "eio_free"
  const ALLOC_ALIGN := 8

  datatype Disposition = Accepted | Refused | Misaligned

  datatype Allocation = Allocation(size: U32, ptr: U32, disposition: Disposition)

  datatype HostFault = HostFreed | WroteUnallocated(ptr: U32, len: U32)

  function Classify(ptr: U32): Disposition {
    if ptr == 0 then Refused else if ptr % ALLOC_ALIGN == 0 then Accepted else Misaligned
  }

  predicate Covers(a: Allocation, ptr: U32, len: nat) {
    a.disposition == Accepted && a.ptr <= ptr && ptr + len <= a.ptr + a.size
  }

  /** The number an engine sees as its first argument, read as a size. */
  function SizeArg(args: seq<I32>): U32 {
    if args == [] then 0 else AsU32(args[0])
  }

  datatype Op =
    | Call(fn: string, args: seq<I32>)
    | HasExport(name: string)
    | Read(ptr: U32, len: U32)
    | Write(at: U32, bytes: seq<Byte>)

  datatype Answer =
    | Called(answer: Result<I32, TrapKind>)
    | Has(present: bool)
    | Bytes(bytes: Option<seq<Byte>>)
    | Wrote(ok: bool)

  datatype Event = Event(op: Op, answer: Answer)

  /** What an operation does to the bare engine, unwatched. */
  function Bare<S>(engine: Engine<S>, s: S, op: Op): (S, Answer, seq<HostCall>) {
    match op
    case Call(fn, args) =>
      var reply := engine.call(s, fn, args); (reply.state, Called(reply.answer), reply.hostCalls)
    case HasExport(name) => (s, Has(engine.hasExport(s, name)), [])
    case Read(ptr, len) => (s, Bytes(engine.read(s, ptr, len)), [])
    case Write(at, bytes) => var (next, ok) := engine.write(s, at, bytes); (next, Wrote(ok), [])
  }

  function BareRun<S>(engine: Engine<S>, s: S, ops: seq<Op>): (r: (S, seq<Answer>, seq<HostCall>))
    ensures |r.1| == |ops|
  {
    if ops == [] then (s, [], [])
    else
      var before := BareRun(engine, s, ops[..|ops| - 1]);
      var last := Bare(engine, before.0, ops[|ops| - 1]);
      (last.0, before.1 + [last.1], before.2 + last.2)
  }

  /** The allocation an event is, when it is one: any answered `eio_alloc`. */
  function AllocationOf(e: Event): Option<Allocation> {
    match e
    case Event(Call(fn, args), Called(Ok(ptr))) =>
      if fn == ALLOC then Some(Allocation(SizeArg(args), AsU32(ptr), Classify(AsU32(ptr)))) else None
    case _ => None
  }

  /** A write lies inside one allocation accepted before it. */
  predicate Allocated(trace: seq<Event>, k: nat, ptr: U32, len: nat)
    requires k <= |trace|
  {
    exists j :: 0 <= j < k && AllocationOf(trace[j]).Some? && Covers(AllocationOf(trace[j]).value, ptr, len)
  }

  /** What event `k` is guilty of, whatever the scenario said: a host-side free, or a stray write. */
  function FaultAt(trace: seq<Event>, k: nat): Option<HostFault>
    requires k < |trace|
  {
    match trace[k].op
    case Call(fn, _) => if fn == FREE then Some(HostFreed) else None
    case Write(at, bytes) =>
      if Allocated(trace, k, at, |bytes|) then None
      else Some(WroteUnallocated(at, |bytes| % 0x1_0000_0000))
    case _ => None
  }

  function Listed<T>(o: Option<T>): seq<T> {
    if o.Some? then [o.value] else []
  }

  function FaultsOf(trace: seq<Event>, n: nat): seq<HostFault>
    requires n <= |trace|
  {
    if n == 0 then [] else FaultsOf(trace, n - 1) + Listed(FaultAt(trace, n - 1))
  }

  function AllocationsOf(trace: seq<Event>): seq<Allocation> {
    if trace == [] then []
    else AllocationsOf(trace[..|trace| - 1]) + Listed(AllocationOf(trace[|trace| - 1]))
  }

  /** The ABI's own names; a function registered under any other is not recorded. */
  function Known(calls: seq<HostCall>, names: set<(string, string)>): seq<HostCall> {
    if calls == [] then []
    else (if (calls[0].namespace, calls[0].name) in names then [calls[0]] else []) + Known(calls[1..], names)
  }

  lemma {:induction false} KnownConcat(a: seq<HostCall>, b: seq<HostCall>, names: set<(string, string)>)
    ensures Known(a + b, names) == Known(a, names) + Known(b, names)
  {
    if a == [] {
      assert a + b == b;
    } else {
      KnownConcat(a[1..], b, names);
      assert (a + b)[0] == a[0] && (a + b)[1..] == a[1..] + b;
      var head := if (a[0].namespace, a[0].name) in names then [a[0]] else [];
      assert head + (Known(a[1..], names) + Known(b, names)) == (head + Known(a[1..], names)) + Known(b, names);
    }
  }

  predicate IsKnown(call: HostCall, names: set<(string, string)>) {
    (call.namespace, call.name) in names
  }

  /** These positions, in this order, are exactly the calls of the ABI's own names. */
  predicate Picks(at: seq<nat>, calls: seq<HostCall>, names: set<(string, string)>) {
    && (forall i :: 0 <= i < |at| ==> at[i] < |calls| && IsKnown(calls[at[i]], names))
    && (forall i, j :: 0 <= i < j < |at| ==> at[i] < at[j])
    && (forall k :: 0 <= k < |calls| && IsKnown(calls[k], names) ==> k in at)
  }

  lemma KnownGrows(front: seq<HostCall>, last: HostCall, names: set<(string, string)>)
    ensures Known(front + [last], names) == Known(front, names) + if IsKnown(last, names) then [last] else []
  {
    KnownConcat(front, [last], names);
    assert [last][1..] == [];
  }

  lemma PicksGrow(at: seq<nat>, front: seq<HostCall>, last: HostCall, names: set<(string, string)>)
    requires Picks(at, front, names)
    ensures Picks(if IsKnown(last, names) then at + [|front|] else at, front + [last], names)
  {
    var calls, more := front + [last], if IsKnown(last, names) then at + [|front|] else at;
    forall k | 0 <= k < |calls| && IsKnown(calls[k], names) ensures k in more {
      if k < |front| {
        assert calls[k] == front[k];
      } else {
        assert more[|at|] == k;
      }
    }
  }

  /** The calls at these positions are the ones logged. */
  predicate LogsThem(at: seq<nat>, calls: seq<HostCall>, logged: seq<HostCall>) {
    |logged| == |at| && forall i :: 0 <= i < |at| ==> at[i] < |calls| && logged[i] == calls[at[i]]
  }

  lemma LogsMore(at: seq<nat>, front: seq<HostCall>, last: HostCall, logged: seq<HostCall>)
    requires LogsThem(at, front, logged)
    ensures LogsThem(at, front + [last], logged) && LogsThem(at + [|front|], front + [last], logged + [last])
  {
  }

  lemma KnownIsExactAfter(at: seq<nat>, front: seq<HostCall>, last: HostCall, names: set<(string, string)>) returns (more: seq<nat>)
    requires Picks(at, front, names) && LogsThem(at, front, Known(front, names))
    ensures Picks(more, front + [last], names) && LogsThem(more, front + [last], Known(front + [last], names))
  {
    KnownGrows(front, last, names);
    PicksGrow(at, front, last, names);
    LogsMore(at, front, last, Known(front, names));
    more := if IsKnown(last, names) then at + [|front|] else at;
  }

  /** What is logged is exactly the calls of known names, in the order they were made, none twice. */
  lemma {:induction false} KnownIsExact(calls: seq<HostCall>, names: set<(string, string)>) returns (at: seq<nat>)
    ensures Picks(at, calls, names) && LogsThem(at, calls, Known(calls, names))
    decreases |calls|
  {
    at := [];
    if calls != [] {
      at := KnownIsExact(calls[..|calls| - 1], names);
      at := KnownIsExactAfter(at, calls[..|calls| - 1], calls[|calls| - 1], names);
      FrontAndLast(calls);
    }
  }

  /** Exactly one fault for each guilty event, and none for any other. */
  lemma {:induction false} OneFaultPerGuiltyEvent(trace: seq<Event>, n: nat)
    requires n <= |trace|
    ensures |FaultsOf(trace, n)| == |set k | 0 <= k < n && FaultAt(trace, k).Some?|
  {
    if n > 0 {
      OneFaultPerGuiltyEvent(trace, n - 1);
      var guilty := (k: nat) => k < |trace| && FaultAt(trace, k).Some?;
      OneMoreCounted(guilty, n - 1);
      assert (set k | 0 <= k < n - 1 && FaultAt(trace, k).Some?) == set k: nat | k < n - 1 && guilty(k);
      assert (set k | 0 <= k < n && FaultAt(trace, k).Some?) == set k: nat | k < n && guilty(k);
    }
  }

  /** Later events never change what an earlier one was guilty of. */
  lemma {:induction false} FaultsAreSettled(trace: seq<Event>, more: seq<Event>, n: nat)
    requires n <= |trace|
    ensures FaultsOf(trace + more, n) == FaultsOf(trace, n)
  {
    if n > 0 {
      FaultsAreSettled(trace, more, n - 1);
      FaultIsSettled(trace, more, n - 1);
    }
  }

  lemma AllocatedIsSettled(trace: seq<Event>, more: seq<Event>, k: nat, ptr: U32, len: nat)
    requires k <= |trace|
    ensures Allocated(trace + more, k, ptr, len) <==> Allocated(trace, k, ptr, len)
  {
    var longer := trace + more;
    assert forall j :: 0 <= j < k ==> longer[j] == trace[j];
  }

  lemma FaultIsSettled(trace: seq<Event>, more: seq<Event>, k: nat)
    requires k < |trace|
    ensures FaultAt(trace + more, k) == FaultAt(trace, k)
  {
    match trace[k].op
    case Write(at, bytes) => AllocatedIsSettled(trace, more, k, at, |bytes|);
    case _ =>
  }

  lemma {:induction false} AllocationsAreListed(trace: seq<Event>, a: Allocation)
    ensures a in AllocationsOf(trace)
      <==> exists j :: 0 <= j < |trace| && AllocationOf(trace[j]) == Some(a)
  {
    if trace != [] {
      var front, last := trace[..|trace| - 1], trace[|trace| - 1];
      AllocationsAreListed(front, a);
      assert forall j :: 0 <= j < |front| ==> front[j] == trace[j];
      if AllocationOf(last) == Some(a) {
        assert AllocationOf(trace[|trace| - 1]) == Some(a);
      }
    }
  }

  const PAGE: nat := 64 * 1024
  const FOUR_GIB: nat := 0x1_0000_0000

  function Pow2(n: nat): (p: nat)
    ensures p >= 1
  {
    if n == 0 then 1 else 2 * Pow2(n - 1)
  }

  lemma Pow2Of32()
    ensures Pow2(32) == FOUR_GIB
  {
    assert Pow2(8) == 0x100;
    assert Pow2(16) == 0x1_0000;
    assert Pow2(24) == 0x100_0000;
  }

  lemma Pow2IsOneOnlyAtZero(n: nat)
    ensures Pow2(n) == 1 <==> n == 0
  {
  }

  /** Everything a ledger holds at one moment. */
  datatype Log = Log(calls: seq<HostCall>, allocations: seq<Allocation>, faults: seq<HostFault>)

  predicate InRange(allocations: seq<Allocation>, ptr: U32, len: nat) {
    exists i :: 0 <= i < |allocations| && Covers(allocations[i], ptr, len)
  }

  /** What an operation is faulted for, against the allocations made so far. */
  function Guilt(allocations: seq<Allocation>, op: Op): seq<HostFault> {
    match op
    case Call(fn, _) => if fn == FREE then [HostFreed] else []
    case Write(at, bytes) =>
      if InRange(allocations, at, |bytes|) then [] else [WroteUnallocated(at, |bytes| % 0x1_0000_0000)]
    case _ => []
  }

  /** What one operation adds to the ledger, judged by what the ledger already holds. */
  function Noted(log: Log, e: Event, hostCalls: seq<HostCall>, names: set<(string, string)>): Log {
    Log(log.calls + Known(hostCalls, names),
        log.allocations + Listed(AllocationOf(e)),
        log.faults + Guilt(log.allocations, e.op))
  }

  /** What a whole run of operations should have recorded, said of the run and not of the recorder. */
  function LogOf(trace: seq<Event>, hostCalls: seq<HostCall>, names: set<(string, string)>): Log {
    Log(Known(hostCalls, names), AllocationsOf(trace), FaultsOf(trace, |trace|))
  }

  class Ledger {
    var calls: seq<HostCall>
    var allocations: seq<Allocation>
    var faults: seq<HostFault>

    ghost function Now(): Log
      reads this
    {
      Log(calls, allocations, faults)
    }

    constructor ()
      ensures calls == [] && allocations == [] && faults == []
    {
      calls, allocations, faults := [], [], [];
    }
  }

  /** An engine, watched. The ledger is shared with whoever reads it. */
  class Recording<S> {
    const engine: Engine<S>
    const names: set<(string, string)>
    const ledger: Ledger
    var inner: S

    constructor (engine: Engine<S>, inner: S, ledger: Ledger, names: set<(string, string)>)
      ensures this.engine == engine && this.inner == inner && this.ledger == ledger && this.names == names
    {
      this.engine, this.inner, this.ledger, this.names := engine, inner, ledger, names;
    }

    /** Memory is contiguous from zero: a byte can be read exactly when it lies below `size`. */
    ghost predicate Holds(size: nat)
      reads this
    {
      forall ptr: U32 :: engine.read(inner, ptr, 1).Some? <==> ptr < size
    }

    /**
     * The guest's linear memory in whole pages, by bisection over 32 one-byte reads of 32-bit
     * offsets. The last offset is never known to be readable, so a memory of the full four
     * gigabytes comes back one page short, and every smaller one is exact.
     */
    method MemoryPages(ghost size: nat) returns (pages: U32, ghost probes: nat)
      requires Holds(size)
      ensures probes == 32
      ensures size < FOUR_GIB ==> pages == size / PAGE
      ensures size >= FOUR_GIB ==> pages == FOUR_GIB / PAGE - 1
      ensures pages == size / PAGE <==> size < FOUR_GIB
    {
      ghost var limit := if size < FOUR_GIB then size else FOUR_GIB - 1;
      var low, high := 0, FOUR_GIB;
      probes := 0;
      Pow2Of32();
      while low + 1 < high
        invariant 0 <= low <= limit < high <= FOUR_GIB
        invariant probes <= 32 && high - low == Pow2(32 - probes)
        decreases high - low
      {
        var mid := low + (high - low) / 2;
        if engine.read(inner, mid - 1, 1).Some? {
          low := mid;
        } else {
          high := mid;
        }
        probes := probes + 1;
      }
      pages := low / PAGE;
      Pow2IsOneOnlyAtZero(32 - probes);
    }

    method Call(fn: string, args: seq<I32>) returns (answer: Result<I32, TrapKind>)
      modifies this`inner, ledger
      ensures inner == Bare(engine, old(inner), Op.Call(fn, args)).0
      ensures Called(answer) == Bare(engine, old(inner), Op.Call(fn, args)).1
      ensures ledger.Now() == Noted(old(ledger.Now()), Event(Op.Call(fn, args), Called(answer)),
                                    Bare(engine, old(inner), Op.Call(fn, args)).2, names)
    {
      if fn == FREE {
        ledger.faults := ledger.faults + [HostFreed];
      }
      var reply := engine.call(inner, fn, args);
      inner := reply.state;
      ledger.calls := ledger.calls + Known(reply.hostCalls, names);
      answer := reply.answer;
      if answer.Err? {
        return;
      }
      if fn == ALLOC {
        var ptr := AsU32(answer.value);
        ledger.allocations := ledger.allocations + [Allocation(SizeArg(args), ptr, Classify(ptr))];
      }
    }

    method Write(at: U32, bytes: seq<Byte>) returns (ok: bool)
      modifies this`inner, ledger
      ensures (inner, ok) == engine.write(old(inner), at, bytes)
      ensures ledger.Now() == Noted(old(ledger.Now()), Event(Op.Write(at, bytes), Wrote(ok)), [], names)
    {
      if !InRange(ledger.allocations, at, |bytes|) {
        ledger.faults := ledger.faults + [WroteUnallocated(at, |bytes| % 0x1_0000_0000)];
      }
      var (next, done) := engine.write(inner, at, bytes);
      inner, ok := next, done;
    }

    /** One operation through the decorator. */
    method Perform(op: Op) returns (answer: Answer)
      modifies this`inner, ledger
      ensures inner == Bare(engine, old(inner), op).0 && answer == Bare(engine, old(inner), op).1
      ensures ledger.Now() == Noted(old(ledger.Now()), Event(op, answer), Bare(engine, old(inner), op).2, names)
    {
      match op {
        case Call(fn, args) =>
          var called := Call(fn, args);
          answer := Called(called);
        case HasExport(name) => answer := Has(engine.hasExport(inner, name));
        case Read(ptr, len) => answer := Bytes(engine.read(inner, ptr, len));
        case Write(at, bytes) =>
          var ok := Write(at, bytes);
          answer := Wrote(ok);
      }
    }

    /**
     * Any run of operations: the decorator answers what the bare engine answers and leaves it in
     * the same state, and the ledger holds exactly the run's calls, allocations and faults.
     */
    method Drive(ops: seq<Op>) returns (answers: seq<Answer>)
      requires ledger.Now() == Log([], [], [])
      modifies this`inner, ledger
      ensures inner == BareRun(engine, old(inner), ops).0 && answers == BareRun(engine, old(inner), ops).1
      ensures ledger.Now() == LogOf(TraceOf(ops, answers), BareRun(engine, old(inner), ops).2, names)
    {
      answers := [];
      for i := 0 to |ops|
        invariant |answers| == i
        invariant Recorded(engine, names, old(inner), ops[..i], answers, inner, ledger.Now())
      {
        ghost var before, log := inner, ledger.Now();
        var answer := Perform(ops[i]);
        RecordedGrows(engine, names, old(inner), ops[..i], answers, before, log, ops[i]);
        answers := answers + [answer];
        assert ops[..i + 1] == ops[..i] + [ops[i]];
      }
      assert ops[..|ops|] == ops;
    }
  }

  /** A run so far: the bare engine's state and answers, and the ledger the run should leave. */
  ghost predicate Recorded<S>(engine: Engine<S>, names: set<(string, string)>, start: S, ops: seq<Op>, answers: seq<Answer>,
                              inner: S, log: Log)
    requires |answers| == |ops|
  {
    && inner == BareRun(engine, start, ops).0 && answers == BareRun(engine, start, ops).1
    && log == LogOf(TraceOf(ops, answers), BareRun(engine, start, ops).2, names)
  }

  lemma RecordedGrows<S>(engine: Engine<S>, names: set<(string, string)>, start: S, ops: seq<Op>, answers: seq<Answer>,
                         inner: S, log: Log, op: Op)
    requires |answers| == |ops| && Recorded(engine, names, start, ops, answers, inner, log)
    ensures var bare := Bare(engine, inner, op);
      Recorded(engine, names, start, ops + [op], answers + [bare.1], bare.0, Noted(log, Event(op, bare.1), bare.2, names))
  {
    var bare, run := Bare(engine, inner, op), BareRun(engine, start, ops);
    assert (ops + [op])[..|ops|] == ops;
    LogGrows(TraceOf(ops, answers), Event(op, bare.1), run.2, bare.2, names);
    assert TraceOf(ops + [op], answers + [bare.1]) == TraceOf(ops, answers) + [Event(op, bare.1)];
  }

  lemma LogGrows(trace: seq<Event>, e: Event, before: seq<HostCall>, more: seq<HostCall>, names: set<(string, string)>)
    ensures Noted(LogOf(trace, before, names), e, more, names) == LogOf(trace + [e], before + more, names)
  {
    TraceGrows(trace, e);
    KnownConcat(before, more, names);
  }

  function TraceOf(ops: seq<Op>, answers: seq<Answer>): (trace: seq<Event>)
    requires |ops| == |answers|
    ensures |trace| == |ops|
  {
    seq(|ops|, i requires 0 <= i < |ops| => Event(ops[i], answers[i]))
  }

  lemma TraceGrows(trace: seq<Event>, event: Event)
    ensures AllocationsOf(trace + [event]) == AllocationsOf(trace) + Listed(AllocationOf(event))
    ensures FaultsOf(trace + [event], |trace| + 1) == FaultsOf(trace, |trace|) + Guilt(AllocationsOf(trace), event.op)
  {
    var longer := trace + [event];
    assert longer[..|trace|] == trace;
    FaultsAreSettled(trace, [event], |trace|);
    FaultIsGuilt(trace, event);
  }

  lemma FaultIsGuilt(trace: seq<Event>, event: Event)
    ensures Listed(FaultAt(trace + [event], |trace|)) == Guilt(AllocationsOf(trace), event.op)
  {
    match event.op
    case Write(at, bytes) =>
      WritesAreChecked(trace, at, |bytes|);
      AllocatedIsSettled(trace, [event], |trace|, at, |bytes|);
    case _ =>
  }

  lemma WritesAreChecked(trace: seq<Event>, ptr: U32, len: nat)
    ensures Allocated(trace, |trace|, ptr, len) <==> InRange(AllocationsOf(trace), ptr, len)
  {
    var listed := AllocationsOf(trace);
    if j :| 0 <= j < |trace| && AllocationOf(trace[j]).Some? && Covers(AllocationOf(trace[j]).value, ptr, len) {
      AllocationsAreListed(trace, AllocationOf(trace[j]).value);
      var i :| 0 <= i < |listed| && listed[i] == AllocationOf(trace[j]).value;
    }
    if i :| 0 <= i < |listed| && Covers(listed[i], ptr, len) {
      AllocationsAreListed(trace, listed[i]);
    }
  }
}
