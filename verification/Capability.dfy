/** The scripted, deniable capability host of the conformance harness. */
module Capability {
  import opened Common
  import opened Status

  datatype Namespace = StateNs | TimerNs | GpioNs | I2cNs | HttpNs

  datatype Arg = I32(i: Common.I32) | I64(j: int)

  datatype Answer = Value(bytes: seq<Byte>) | Id(id: Common.I32) | Raw(value: Common.I32) | Error(code: ErrorCode)

  /** Guest memory for the duration of one call: reads and writes are bounds-checked. */
  type Memory = seq<Byte>

  predicate InMemory(memory: Memory, ptr: U32, len: nat) {
    ptr + len <= |memory|
  }

  function ReadMemory(memory: Memory, ptr: U32, len: nat): Option<seq<Byte>> {
    if InMemory(memory, ptr, len) then Some(memory[ptr..ptr + len]) else None
  }

  function WriteMemory(memory: Memory, ptr: U32, bytes: seq<Byte>): Option<Memory> {
    if InMemory(memory, ptr, |bytes|) then Some(memory[..ptr] + bytes + memory[ptr + |bytes|..]) else None
  }

  /** Fills a guest's out-buffer, or reports the size needed and writes nothing. */
  function Fill(memory: Memory, buf: U32, cap: U32, bytes: seq<Byte>): (Common.I32, Memory) {
    if |bytes| > 0xFFFF_FFFF then (ErrorCode.Limit.AsI32(), memory)
    else if |bytes| > cap then (if |bytes| > I32_MAX then ErrorCode.Limit.AsI32() else |bytes|, memory)
    else match WriteMemory(memory, buf, bytes)
      case Some(written) => (AsI32(|bytes|), written)
      case None => (InvalidArg.AsI32(), memory)
  }

  /** What one call does to the host's own state. */
  datatype Effect = Put(key: seq<Byte>, value: seq<Byte>) | Del(key: seq<Byte>) | Issue | Nothing

  datatype State = State(
    denied: set<Namespace>,
    store: map<seq<Byte>, seq<Byte>>,
    answers: map<string, seq<Answer>>,
    issued: nat)
  {
    function NextId(): Common.I32 {
      AsI32(issued)
    }

    /** Whether this host handed out `id`. */
    predicate Known(id: Common.I32) {
      0 <= id < NextId()
    }

    function Queue(name: string): seq<Answer> {
      if name in answers then answers[name] else []
    }

    function Apply(effect: Effect): State {
      match effect
      case Put(key, value) => this.(store := store[key := value])
      case Del(key) => this.(store := store - {key})
      case Issue => this.(issued := issued + 1)
      case Nothing => this
    }
  }

  /** Where a size-convention function's `(buf, cap)` sits among its arguments. */
  function OutBuffer(name: string, args: seq<Arg>): Option<(U32, U32)> {
    var at := if name == "state_get" || name == "i2c_read" then Some(2)
              else if name == "i2c_write_read" then Some(4) else None;
    if at.Some? && at.value + 1 < |args| && args[at.value].I32? && args[at.value + 1].I32?
    then Some((AsU32(args[at.value].i), AsU32(args[at.value + 1].i))) else None
  }

  function AnswerScripted(answer: Answer, name: string, args: seq<Arg>, memory: Memory): (Common.I32, Memory) {
    match answer
    case Value(bytes) =>
      (match OutBuffer(name, args)
       case Some((buf, cap)) => Fill(memory, buf, cap, bytes)
       case None => (InvalidArg.AsI32(), memory))
    case Id(id) => (id, memory)
    case Raw(value) => (value, memory)
    case Error(code) => (code.AsI32(), memory)
  }

  predicate AllI32(args: seq<Arg>, n: nat) {
    |args| == n && forall k :: 0 <= k < n ==> args[k].I32?
  }

  /** The key a state call names: its first two arguments, read out of guest memory. */
  function KeyOf(args: seq<Arg>, memory: Memory): Option<seq<Byte>>
    requires |args| >= 2 && args[0].I32? && args[1].I32?
  {
    ReadMemory(memory, AsU32(args[0].i), AsU32(args[1].i))
  }

  /** The namespace's own answer: what the guest hears, what lands in its memory, what the host keeps. */
  function AnswerOwn(s: State, name: string, args: seq<Arg>, memory: Memory): (Common.I32, Memory, Effect) {
    match name
    case "state_get" =>
      if !AllI32(args, 4) || KeyOf(args, memory).None? then (InvalidArg.AsI32(), memory, Nothing)
      else
        var key := KeyOf(args, memory).value;
        if key !in s.store then (NotFound.AsI32(), memory, Nothing)
        else
          var (ret, filled) := Fill(memory, AsU32(args[2].i), AsU32(args[3].i), s.store[key]);
          (ret, filled, Nothing)
    case "state_put" =>
      if !AllI32(args, 4) || KeyOf(args, memory).None? || ReadMemory(memory, AsU32(args[2].i), AsU32(args[3].i)).None?
      then (InvalidArg.AsI32(), memory, Nothing)
      else (0, memory, Put(KeyOf(args, memory).value, ReadMemory(memory, AsU32(args[2].i), AsU32(args[3].i)).value))
    case "state_del" =>
      if !AllI32(args, 2) || KeyOf(args, memory).None? then (InvalidArg.AsI32(), memory, Nothing)
      else (0, memory, Del(KeyOf(args, memory).value))
    case "timer_set" =>
      if |args| == 2 && args[0].I64? && args[1].I32? && args[0].j > 0 then (s.NextId(), memory, Issue)
      else (InvalidArg.AsI32(), memory, Nothing)
    case "timer_cancel" => (Cancel(s, args), memory, Nothing)
    case "gpio_watch" => (s.NextId(), memory, Issue)
    case "http_request" => (s.NextId(), memory, Issue)
    case "gpio_unwatch" => (Cancel(s, args), memory, Nothing)
    case "gpio_mode" => (0, memory, Nothing)
    case "gpio_write" => (0, memory, Nothing)
    case "i2c_write" => (0, memory, Nothing)
    case "gpio_read" => (0, memory, Nothing)
    case "i2c_read" => (Io.AsI32(), memory, Nothing)
    case "i2c_write_read" => (Io.AsI32(), memory, Nothing)
    case _ => (Unsupported.AsI32(), memory, Nothing)
  }

  function Cancel(s: State, args: seq<Arg>): Common.I32 {
    if !AllI32(args, 1) then InvalidArg.AsI32()
    else if s.Known(args[0].i) then 0
    else NotFound.AsI32()
  }

  datatype Reply = Reply(state: State, ret: Common.I32, memory: Memory)

  /** Denial first, then a scripted answer, then the namespace's own behaviour. */
  function DispatchSpec(s: State, ns: Namespace, name: string, args: seq<Arg>, memory: Memory): Reply {
    if ns in s.denied then Reply(s, ErrorCode.Capability.AsI32(), memory)
    else if s.Queue(name) != [] then
      var answer := s.Queue(name)[0];
      var (ret, filled) := AnswerScripted(answer, name, args, memory);
      Reply(s.(answers := s.answers[name := s.Queue(name)[1..]]), ret, filled)
    else
      var (ret, filled, effect) := AnswerOwn(s, name, args, memory);
      Reply(s.Apply(effect), ret, filled)
  }

  /** The host itself: each registered handler updates what all of them share. */
  class Capabilities {
    var denied: set<Namespace>
    var store: map<seq<Byte>, seq<Byte>>
    var answers: map<string, seq<Answer>>
    var issued: nat

    function Shared(): State
      reads this
    {
      State(denied, store, answers, issued)
    }

    constructor ()
      ensures Shared() == State({}, map[], map[], 0)
    {
      denied, store, answers, issued := {}, map[], map[], 0;
    }

    method Deny(ns: Namespace)
      modifies this
      ensures Shared() == old(Shared()).(denied := old(denied) + {ns})
    {
      denied := denied + {ns};
    }

    method Script(function_: string, answer: Answer)
      modifies this
      ensures Shared() == old(Shared()).(answers := old(answers)[function_ := old(Shared().Queue(function_)) + [answer]])
    {
      var queue := Shared().Queue(function_);
      answers := answers[function_ := queue + [answer]];
    }

    method SeedState(key: seq<Byte>, value: seq<Byte>)
      modifies this
      ensures Shared() == old(Shared()).(store := old(store)[key := value])
    {
      store := store[key := value];
    }

    method TakeId() returns (id: Common.I32)
      modifies this`issued
      ensures id == old(Shared().NextId()) && issued == old(issued) + 1
    {
      id := Shared().NextId();
      issued := issued + 1;
    }

    method Dispatch(ns: Namespace, name: string, args: seq<Arg>, memory: Memory) returns (ret: Common.I32, filled: Memory)
      modifies this
      ensures var reply := DispatchSpec(old(Shared()), ns, name, args, memory);
        Shared() == reply.state && ret == reply.ret && filled == reply.memory
    {
      if ns in denied {
        return ErrorCode.Capability.AsI32(), memory;
      }
      if name in answers && answers[name] != [] {
        var answer := answers[name][0];
        answers := answers[name := answers[name][1..]];
        var (scripted, written) := AnswerScripted(answer, name, args, memory);
        return scripted, written;
      }
      if name == "gpio_watch" || name == "http_request" {
        ret := TakeId();
        filled := memory;
        return;
      }
      var (own, written, effect) := AnswerOwn(Shared(), name, args, memory);
      match effect {
        case Put(key, value) => store := store[key := value];
        case Del(key) => store := store - {key};
        case Issue => var _ := TakeId();
        case Nothing =>
      }
      ret, filled := own, written;
    }
  }

  datatype Op =
    | Deny(ns: Namespace)
    | Script(function_: string, answer: Answer)
    | Seed(key: seq<Byte>, value: seq<Byte>)
    | Call(caller: Namespace, name: string, args: seq<Arg>, memory: Memory)

  /** One thing that happened to the host: what the harness set up, or a call as it was made and as it was answered. */
  datatype Event =
    | Queued(function_: string, answer: Answer)
    | Seeded(key: seq<Byte>, value: seq<Byte>)
    | Refusing(ns: Namespace)
    | Answered(caller: Namespace, name: string, args: seq<Arg>, memory: Memory, ret: Common.I32, filled: Memory)

  function Step(s: State, op: Op): (State, Event) {
    match op
    case Deny(ns) => (s.(denied := s.denied + {ns}), Refusing(ns))
    case Script(f, answer) => (s.(answers := s.answers[f := s.Queue(f) + [answer]]), Queued(f, answer))
    case Seed(key, value) => (s.(store := s.store[key := value]), Seeded(key, value))
    case Call(ns, name, args, memory) =>
      var reply := DispatchSpec(s, ns, name, args, memory);
      (reply.state, Answered(ns, name, args, memory, reply.ret, reply.memory))
  }

  /** A run from a fresh host: where it ends, and what happened. */
  function Run(ops: seq<Op>): (r: (State, seq<Event>))
    ensures |r.1| == |ops|
  {
    if ops == [] then (State({}, map[], map[], 0), [])
    else
      var (before, events) := Run(ops[..|ops| - 1]);
      var (after, event) := Step(before, ops[|ops| - 1]);
      (after, events + [event])
  }

  // What a history says on its own: of the calls as they were made, with no host state in sight.

  /** The namespace was denied at some point: nothing grants it again. */
  predicate DeniedIn(history: seq<Event>, ns: Namespace) {
    exists k :: 0 <= k < |history| && history[k] == Refusing(ns)
  }

  /** The answers queued for a function and not yet given out. */
  function Pending(history: seq<Event>, name: string): seq<Answer> {
    if history == [] then []
    else
      var before := history[..|history| - 1];
      match history[|history| - 1]
      case Queued(f, answer) => if f == name then Pending(before, name) + [answer] else Pending(before, name)
      case Answered(ns, n, _, _, _, _) =>
        if n == name && !DeniedIn(before, ns) && Pending(before, name) != [] then Pending(before, name)[1..] else Pending(before, name)
      case _ => Pending(before, name)
  }

  /** A call the host answers itself: nobody denied it, and nothing is queued for it. */
  predicate OwnCall(before: seq<Event>, e: Event) {
    e.Answered? && !DeniedIn(before, e.caller) && Pending(before, e.name) == []
  }

  /** The bytes two arguments point at, when they do and the bytes are there. */
  function Pointed(memory: Memory, ptr: Arg, len: Arg): Option<seq<Byte>> {
    if ptr.I32? && len.I32? && AsU32(ptr.i) + AsU32(len.i) <= |memory|
    then Some(memory[AsU32(ptr.i)..AsU32(ptr.i) + AsU32(len.i)]) else None
  }

  /** A well-formed write to the store: which key, and its new value or that it has none. */
  datatype Writing = Writing(key: seq<Byte>, value: Option<seq<Byte>>)

  function WrittenBy(name: string, args: seq<Arg>, memory: Memory): Option<Writing> {
    if name == "state_put" && |args| == 4 then
      (match (Pointed(memory, args[0], args[1]), Pointed(memory, args[2], args[3]))
       case (Some(key), Some(value)) => Some(Writing(key, Some(value)))
       case _ => None)
    else if name == "state_del" && |args| == 2 then
      (match Pointed(memory, args[0], args[1])
       case Some(key) => Some(Writing(key, None))
       case None => None)
    else None
  }

  /** The last write to `key` that was not deleted since. */
  function LastPut(history: seq<Event>, key: seq<Byte>): Option<seq<Byte>> {
    if history == [] then None
    else
      var e, before := history[|history| - 1], history[..|history| - 1];
      match e
      case Seeded(k, value) => if k == key then Some(value) else LastPut(before, key)
      case Answered(_, name, args, memory, _, _) =>
        var written := WrittenBy(name, args, memory);
        if OwnCall(before, e) && written.Some? && written.value.key == key then written.value.value else LastPut(before, key)
      case _ => LastPut(before, key)
  }

  /** The calls that ask for an id of their own: a timer of some delay, a watch, a request. */
  predicate AsksForId(name: string, args: seq<Arg>) {
    || name == "gpio_watch" || name == "http_request"
    || (name == "timer_set" && |args| == 2 && args[0].I64? && args[1].I32? && args[0].j > 0)
  }

  /** What such a call was answered, when the host answered it itself. */
  function IdGiven(before: seq<Event>, event: Event): seq<Common.I32> {
    if OwnCall(before, event) && AsksForId(event.name, event.args) then [event.ret] else []
  }

  /** The ids handed out so far, in order. */
  function IdsGiven(history: seq<Event>): seq<Common.I32> {
    if history == [] then []
    else
      var before := history[..|history| - 1];
      IdsGiven(before) + IdGiven(before, history[|history| - 1])
  }

  /** The answers ever queued for a function, in order. */
  function Scripts(history: seq<Event>, name: string): seq<Answer> {
    if history == [] then []
    else Scripts(history[..|history| - 1], name) + match history[|history| - 1]
      case Queued(f, answer) => if f == name then [answer] else []
      case _ => []
  }

  /** The scripted answers a function's callers were given, in order. */
  function Consumed(history: seq<Event>, name: string): seq<Answer> {
    if history == [] then []
    else
      var before := history[..|history| - 1];
      Consumed(before, name) + match history[|history| - 1]
      case Answered(ns, n, _, _, _, _) =>
        if n == name && !DeniedIn(before, ns) && Pending(before, name) != [] then [Pending(before, name)[0]] else []
      case _ => []
  }

  /** The host's own state is what its history says: everything denied, queued, written and issued. */
  ghost predicate Told(s: State, history: seq<Event>) {
    && (forall ns :: ns in s.denied <==> DeniedIn(history, ns))
    && (forall name :: s.Queue(name) == Pending(history, name))
    && (forall key :: LastPut(history, key) == Look(s.store, key))
    && |IdsGiven(history)| == s.issued
    && (forall i :: 0 <= i < s.issued ==> IdsGiven(history)[i] == AsI32(i))
  }

  lemma ToldDenials(s: State, op: Op, history: seq<Event>, ns: Namespace)
    requires ns in s.denied <==> DeniedIn(history, ns)
    ensures var (after, event) := Step(s, op); ns in after.denied <==> DeniedIn(history + [event], ns)
  {
    var (after, event) := Step(s, op);
    var more := history + [event];
    if DeniedIn(history, ns) {
      var k :| 0 <= k < |history| && history[k] == Refusing(ns);
      assert more[k] == Refusing(ns);
    }
    assert more[|history|] == event;
  }

  lemma ToldQueues(s: State, op: Op, history: seq<Event>, name: string)
    requires Told(s, history)
    ensures var (after, event) := Step(s, op); after.Queue(name) == Pending(history + [event], name)
  {
    var (_, event) := Step(s, op);
    assert (history + [event])[..|history|] == history;
    assert s.Queue(name) == Pending(history, name);
  }

  /** What the host's own answer does to its state: exactly what the call asks for. */
  lemma OwnEffects(s: State, name: string, args: seq<Arg>, memory: Memory)
    ensures AnswerOwn(s, name, args, memory).2 ==
      match WrittenBy(name, args, memory)
      case Some(Writing(key, Some(value))) => Put(key, value)
      case Some(Writing(key, None)) => Del(key)
      case None => if AsksForId(name, args) then Issue else Nothing
  {
  }

  /** What one step does to the store at `key`. */
  lemma StepWrites(s: State, op: Op, history: seq<Event>, key: seq<Byte>)
    requires Told(s, history)
    ensures var (after, event) := Step(s, op);
      Look(after.store, key) ==
        match event
        case Seeded(k, value) => if k == key then Some(value) else Look(s.store, key)
        case Answered(_, name, args, memory, _, _) =>
          var written := WrittenBy(name, args, memory);
          if OwnCall(history, event) && written.Some? && written.value.key == key then written.value.value else Look(s.store, key)
        case _ => Look(s.store, key)
  {
    if op.Call? {
      assert s.Queue(op.name) == Pending(history, op.name);
      OwnEffects(s, op.name, op.args, op.memory);
    }
  }

  lemma ToldStore(s: State, op: Op, history: seq<Event>, key: seq<Byte>)
    requires Told(s, history)
    ensures var (after, event) := Step(s, op); LastPut(history + [event], key) == Look(after.store, key)
  {
    StepWrites(s, op, history, key);
    assert (history + [Step(s, op).1])[..|history|] == history;
  }

  lemma StepIssues(s: State, op: Op, history: seq<Event>)
    requires Told(s, history)
    ensures var (after, event) := Step(s, op);
      if IdGiven(history, event) == [] then after.issued == s.issued
      else IdGiven(history, event) == [AsI32(s.issued)] && after.issued == s.issued + 1
  {
    if op.Call? {
      assert s.Queue(op.name) == Pending(history, op.name);
      OwnEffects(s, op.name, op.args, op.memory);
      if AsksForId(op.name, op.args) {
        IdsAreNext(s, op.name, op.args, op.memory);
      }
    }
  }

  lemma IdsAreNext(s: State, name: string, args: seq<Arg>, memory: Memory)
    requires AsksForId(name, args)
    ensures AnswerOwn(s, name, args, memory).0 == AsI32(s.issued) && AnswerOwn(s, name, args, memory).1 == memory
  {
  }

  lemma ToldIds(s: State, op: Op, history: seq<Event>)
    requires Told(s, history)
    ensures var (after, event) := Step(s, op);
      && |IdsGiven(history + [event])| == after.issued
      && forall i :: 0 <= i < after.issued ==> IdsGiven(history + [event])[i] == AsI32(i)
  {
    StepIssues(s, op, history);
    assert (history + [Step(s, op).1])[..|history|] == history;
  }

  lemma ToldGrows(s: State, op: Op, history: seq<Event>)
    requires Told(s, history)
    ensures Told(Step(s, op).0, history + [Step(s, op).1])
  {
    var (after, event) := Step(s, op);
    forall ns ensures ns in after.denied <==> DeniedIn(history + [event], ns) {
      ToldDenials(s, op, history, ns);
    }
    forall name ensures after.Queue(name) == Pending(history + [event], name) {
      ToldQueues(s, op, history, name);
    }
    forall key ensures LastPut(history + [event], key) == Look(after.store, key) {
      ToldStore(s, op, history, key);
    }
    ToldIds(s, op, history);
  }

  /**
   * The host is a map and a counter with queues in front. Told from the calls alone: its store holds
   * what the last well-formed write to each key put there, its counter has handed out 0, 1, 2 and so
   * on to the calls that asked, and its queues hold what was scripted and not yet given out.
   */
  lemma {:induction false} HostIsItsHistory(ops: seq<Op>)
    ensures Told(Run(ops).0, Run(ops).1)
  {
    if ops != [] {
      HostIsItsHistory(ops[..|ops| - 1]);
      var (before, history) := Run(ops[..|ops| - 1]);
      ToldGrows(before, ops[|ops| - 1], history);
    }
  }

  /** Every scripted answer is either still queued or was given to one caller, in the order it was scripted. */
  lemma {:induction false} ScriptsAreGivenOnce(history: seq<Event>, name: string)
    ensures Consumed(history, name) + Pending(history, name) == Scripts(history, name)
  {
    if history != [] {
      ScriptsAreGivenOnce(history[..|history| - 1], name);
    }
  }

  // Every answer, told from the call and the history before it.

  /** A memory with `bytes` written at `at`, and everything else as it was. */
  ghost predicate Lands(before: Memory, after: Memory, at: U32, bytes: seq<Byte>)
    requires InMemory(before, at, |bytes|)
  {
    && |after| == |before| && after[at..at + |bytes|] == bytes
    && after[..at] == before[..at] && after[at + |bytes|..] == before[at + |bytes|..]
  }

  /**
   * What an out-buffer call leaves when its answer is `value`, or nothing: the bytes where they were
   * asked for, when they fit there; their size, when the buffer offered is too short; an error when
   * no `i32` can say their size or the buffer is not in memory. Only the first touches memory.
   */
  ghost predicate Delivers(ret: Common.I32, filled: Memory, value: Option<seq<Byte>>, at: U32, cap: U32, memory: Memory) {
    match value
    case None => ret == NotFound.AsI32() && filled == memory
    case Some(bytes) =>
      if |bytes| <= cap && InMemory(memory, at, |bytes|) then
        ret == AsI32(|bytes|) && Lands(memory, filled, at, bytes)
      else
        && filled == memory
        && ret ==
           if |bytes| > cap then (if |bytes| > I32_MAX then ErrorCode.Limit.AsI32() else |bytes|)
           else InvalidArg.AsI32()
  }

  lemma FillDelivers(memory: Memory, buf: U32, cap: U32, bytes: seq<Byte>)
    ensures var (ret, filled) := Fill(memory, buf, cap, bytes);
      Delivers(ret, filled, Some(bytes), buf, cap, memory)
  {
  }

  /** An answer that says one number and touches nothing. */
  predicate Says(ret: Common.I32, filled: Memory, n: int, memory: Memory) {
    ret == n && filled == memory
  }

  /** The buffer a call offers, where the function has one: which argument is its address, by name. */
  function BufferAt(name: string): Option<nat> {
    match name
    case "state_get" => Some(2)
    case "i2c_read" => Some(2)
    case "i2c_write_read" => Some(4)
    case _ => None
  }

  predicate Offers(name: string, args: seq<Arg>) {
    match BufferAt(name)
    case Some(at) => at + 1 < |args| && args[at].I32? && args[at + 1].I32?
    case None => false
  }

  /** A scripted value lands in the buffer the call offers, and is an error where it offers none; the rest are numbers. */
  ghost predicate AnswersAsScripted(answer: Answer, name: string, args: seq<Arg>, memory: Memory, ret: Common.I32, filled: Memory) {
    match answer
    case Value(bytes) =>
      if Offers(name, args) then
        var at := BufferAt(name).value;
        Delivers(ret, filled, Some(bytes), AsU32(args[at].i), AsU32(args[at + 1].i), memory)
      else Says(ret, filled, InvalidArg.AsI32(), memory)
    case Id(id) => Says(ret, filled, id, memory)
    case Raw(value) => Says(ret, filled, value, memory)
    case Error(code) => Says(ret, filled, code.AsI32(), memory)
  }

  /** A well-formed read answers the last write, in the guest's buffer. */
  ghost predicate AnswersRead(history: seq<Event>, args: seq<Arg>, memory: Memory, ret: Common.I32, filled: Memory) {
    if |args| == 4 && args[2].I32? && args[3].I32? && Pointed(memory, args[0], args[1]).Some? then
      Delivers(ret, filled, LastPut(history, Pointed(memory, args[0], args[1]).value), AsU32(args[2].i), AsU32(args[3].i), memory)
    else Says(ret, filled, InvalidArg.AsI32(), memory)
  }

  /** One id, and it is one of those handed out, as far as the counter can tell. */
  predicate Cancels(history: seq<Event>, args: seq<Arg>, ret: Common.I32) {
    if |args| == 1 && args[0].I32? then ret == if InRange(args[0].i, |IdsGiven(history)|) then 0 else NotFound.AsI32()
    else ret == InvalidArg.AsI32()
  }

  /** What the host answers by itself. */
  ghost predicate AnswersItself(history: seq<Event>, name: string, args: seq<Arg>, memory: Memory, ret: Common.I32, filled: Memory) {
    if name == "state_get" then AnswersRead(history, args, memory, ret, filled)
    else if name == "state_put" || name == "state_del" then
      Says(ret, filled, if WrittenBy(name, args, memory).Some? then 0 else InvalidArg.AsI32(), memory)
    else if name == "timer_set" || name == "gpio_watch" || name == "http_request" then
      Says(ret, filled, if AsksForId(name, args) then AsI32(|IdsGiven(history)|) else InvalidArg.AsI32(), memory)
    else if name == "timer_cancel" || name == "gpio_unwatch" then Cancels(history, args, ret) && filled == memory
    else if name in {"gpio_mode", "gpio_write", "i2c_write", "gpio_read"} then Says(ret, filled, 0, memory)
    else if name in {"i2c_read", "i2c_write_read"} then Says(ret, filled, Io.AsI32(), memory)
    else Says(ret, filled, Unsupported.AsI32(), memory)
  }

  /** Refused when denied, as scripted when something is queued, and by the host itself otherwise. */
  ghost predicate Answers(history: seq<Event>, ns: Namespace, name: string, args: seq<Arg>, memory: Memory, ret: Common.I32, filled: Memory) {
    if DeniedIn(history, ns) then Says(ret, filled, ErrorCode.Capability.AsI32(), memory)
    else if Pending(history, name) != [] then AnswersAsScripted(Pending(history, name)[0], name, args, memory, ret, filled)
    else AnswersItself(history, name, args, memory, ret, filled)
  }

  lemma ScriptedAnswers(answer: Answer, name: string, args: seq<Arg>, memory: Memory)
    ensures var (ret, filled) := AnswerScripted(answer, name, args, memory);
      AnswersAsScripted(answer, name, args, memory, ret, filled)
  {
    if answer.Value? && Offers(name, args) {
      var at := BufferAt(name).value;
      FillDelivers(memory, AsU32(args[at].i), AsU32(args[at + 1].i), answer.bytes);
    }
  }

  lemma ReadAnswers(s: State, history: seq<Event>, args: seq<Arg>, memory: Memory)
    requires Told(s, history)
    ensures var (ret, filled, _) := AnswerOwn(s, "state_get", args, memory);
      AnswersRead(history, args, memory, ret, filled)
  {
    if AllI32(args, 4) && KeyOf(args, memory).Some? {
      var key := KeyOf(args, memory).value;
      assert Pointed(memory, args[0], args[1]) == Some(key);
      assert LastPut(history, key) == Look(s.store, key);
      if key in s.store {
        FillDelivers(memory, AsU32(args[2].i), AsU32(args[3].i), s.store[key]);
      }
    }
  }

  lemma CancelAnswers(s: State, history: seq<Event>, name: string, args: seq<Arg>, memory: Memory)
    requires Told(s, history) && (name == "timer_cancel" || name == "gpio_unwatch")
    ensures var (ret, filled, _) := AnswerOwn(s, name, args, memory);
      Cancels(history, args, ret) && filled == memory
  {
    assert AnswerOwn(s, name, args, memory) == (Cancel(s, args), memory, Nothing);
  }

  lemma OwnAnswers(s: State, history: seq<Event>, name: string, args: seq<Arg>, memory: Memory)
    requires Told(s, history)
    ensures var (ret, filled, _) := AnswerOwn(s, name, args, memory);
      AnswersItself(history, name, args, memory, ret, filled)
  {
    if name == "state_get" {
      ReadAnswers(s, history, args, memory);
    } else if name == "timer_cancel" || name == "gpio_unwatch" {
      CancelAnswers(s, history, name, args, memory);
    } else if AsksForId(name, args) {
      IdsAreNext(s, name, args, memory);
    }
  }

  lemma CallAnswers(s: State, history: seq<Event>, ns: Namespace, name: string, args: seq<Arg>, memory: Memory)
    requires Told(s, history)
    ensures var reply := DispatchSpec(s, ns, name, args, memory);
      Answers(history, ns, name, args, memory, reply.ret, reply.memory)
  {
    assert s.Queue(name) == Pending(history, name);
    assert ns in s.denied <==> DeniedIn(history, ns);
    OwnAnswers(s, history, name, args, memory);
    if s.Queue(name) != [] {
      ScriptedAnswers(s.Queue(name)[0], name, args, memory);
    }
  }

  /** Over any run, what each call is answered, and what it finds in its memory, is told by the calls before it. */
  lemma {:induction false} EveryAnswerIsTold(ops: seq<Op>, k: nat)
    requires k < |ops| && ops[k].Call?
    ensures var e := Run(ops).1[k];
      && e.Answered? && Call(e.caller, e.name, e.args, e.memory) == ops[k]
      && Answers(Run(ops).1[..k], e.caller, e.name, e.args, e.memory, e.ret, e.filled)
    decreases ops
  {
    var n: nat := |ops| - 1;
    var (before, history) := Run(ops[..n]);
    if k < n {
      EveryAnswerIsTold(ops[..n], k);
      assert Run(ops).1[..k] == history[..k];
    } else {
      HostIsItsHistory(ops[..n]);
      var call := ops[n];
      CallAnswers(before, history, call.caller, call.name, call.args, call.memory);
      assert Run(ops).1[..n] == history;
    }
  }

  predicate InRange(id: Common.I32, issued: nat) {
    0 <= id < AsI32(issued)
  }

  lemma RangeIsTheIdsGiven(issued: nat, given: seq<Common.I32>)
    requires |given| == issued && forall i :: 0 <= i < issued ==> given[i] == AsI32(i)
    ensures (forall id: Common.I32 :: InRange(id, issued) <==> id in given) <==> issued <= I32_MAX
  {
    if issued <= I32_MAX {
      forall id: Common.I32
        ensures InRange(id, issued) <==> id in given
      {
        if 0 <= id < issued {
          assert given[id] == id;
        }
      }
    } else {
      AsI32Exact(issued);
      var missed := if AsI32(issued) < 0 then 0 else AsI32(issued);
      assert given[missed] == missed && !InRange(missed, issued);
    }
  }

  lemma CancelKnows(s: State, given: seq<Common.I32>)
    requires |given| == s.issued && forall i :: 0 <= i < s.issued ==> given[i] == AsI32(i)
    ensures (forall id: Common.I32 :: Cancel(s, [I32(id)]) == 0 <==> id in given) <==> s.issued <= I32_MAX
  {
    RangeIsTheIdsGiven(s.issued, given);
    forall id: Common.I32
      ensures Cancel(s, [I32(id)]) == 0 <==> InRange(id, s.issued)
    {
      assert AllI32([I32(id)], 1);
    }
  }

  /**
   * Cancelling an id succeeds for exactly the ids this host handed out, until its 32-bit counter
   * runs out: past that point the range it answers for is no longer the range it issued.
   */
  lemma CancelKnowsTheIdsGiven(ops: seq<Op>)
    ensures var (s, history) := Run(ops);
      (forall id: Common.I32 :: Cancel(s, [I32(id)]) == 0 <==> id in IdsGiven(history)) <==> |IdsGiven(history)| <= I32_MAX
  {
    var (s, history) := Run(ops);
    HostIsItsHistory(ops);
    CancelKnows(s, IdsGiven(history));
  }

  /** The `state_get` a block makes with its key and buffer in memory. */
  function GetCall(keyPtr: Common.I32, keyLen: Common.I32, buf: Common.I32, cap: Common.I32): seq<Arg> {
    [I32(keyPtr), I32(keyLen), I32(buf), I32(cap)]
  }

  lemma GetReads(s: State, history: seq<Event>, ns: Namespace, keyPtr: Common.I32, keyLen: Common.I32, buf: Common.I32, cap: Common.I32,
                 memory: Memory)
    requires Told(s, history) && !DeniedIn(history, ns) && Pending(history, "state_get") == []
    ensures var reply := DispatchSpec(s, ns, "state_get", GetCall(keyPtr, keyLen, buf, cap), memory);
      && reply.state == s
      && if InMemory(memory, AsU32(keyPtr), AsU32(keyLen)) then
           var key := memory[AsU32(keyPtr)..AsU32(keyPtr) + AsU32(keyLen)];
           Delivers(reply.ret, reply.memory, LastPut(history, key), AsU32(buf), AsU32(cap), memory)
         else Says(reply.ret, reply.memory, InvalidArg.AsI32(), memory)
  {
    assert s.Queue("state_get") == Pending(history, "state_get");
    CallAnswers(s, history, ns, "state_get", GetCall(keyPtr, keyLen, buf, cap), memory);
  }

  /**
   * An unscripted, undenied read of a key after any run: the last undeleted write is delivered to
   * the guest's buffer, wherever that is and however long; a key outside memory is an error. It
   * changes nothing the host keeps.
   */
  lemma GetReadsTheLastPut(ops: seq<Op>, ns: Namespace, keyPtr: Common.I32, keyLen: Common.I32, buf: Common.I32, cap: Common.I32, memory: Memory)
    requires !DeniedIn(Run(ops).1, ns) && Pending(Run(ops).1, "state_get") == []
    ensures var reply := DispatchSpec(Run(ops).0, ns, "state_get", GetCall(keyPtr, keyLen, buf, cap), memory);
      && reply.state == Run(ops).0
      && if InMemory(memory, AsU32(keyPtr), AsU32(keyLen)) then
           var key := memory[AsU32(keyPtr)..AsU32(keyPtr) + AsU32(keyLen)];
           Delivers(reply.ret, reply.memory, LastPut(Run(ops).1, key), AsU32(buf), AsU32(cap), memory)
         else Says(reply.ret, reply.memory, InvalidArg.AsI32(), memory)
  {
    HostIsItsHistory(ops);
    GetReads(Run(ops).0, Run(ops).1, ns, keyPtr, keyLen, buf, cap, memory);
  }

  function RunFrom(s: State, ops: seq<Op>): State
    decreases ops
  {
    if ops == [] then s else RunFrom(Step(s, ops[0]).0, ops[1..])
  }

  lemma {:induction false} RunsCompose(a: seq<Op>, b: seq<Op>)
    ensures Run(a + b).0 == RunFrom(Run(a).0, b)
    decreases |b|
  {
    if b == [] {
      assert a + b == a;
    } else {
      RunsCompose(a + [b[0]], b[1..]);
      assert (a + [b[0]])[..|a|] == a;
      assert (a + [b[0]]) + b[1..] == a + b;
    }
  }

  /** A call refused for its namespace leaves no trace: the run goes on as if it was never made. */
  lemma DeniedCallsAreInvisible(before: seq<Op>, call: Op, after: seq<Op>)
    requires call.Call? && call.caller in Run(before).0.denied
    ensures Step(Run(before).0, call).1
      == Answered(call.caller, call.name, call.args, call.memory, ErrorCode.Capability.AsI32(), call.memory)
    ensures Run(before + [call] + after).0 == Run(before + after).0
  {
    assert (before + [call])[..|before|] == before;
    RunsCompose(before + [call], after);
    RunsCompose(before, after);
  }

  /** One watch asked for, `n` times over. */
  function Watches(n: nat): seq<Op> {
    seq(n, _ => Call(GpioNs, "gpio_watch", [], []))
  }

  lemma {:induction false} WatchesIssue(n: nat)
    ensures Run(Watches(n)).0 == State({}, map[], map[], n)
  {
    if n > 0 {
      WatchesIssue(n - 1);
      assert Watches(n)[..n - 1] == Watches(n - 1) && Watches(n)[n - 1] == Call(GpioNs, "gpio_watch", [], []);
    }
  }

  /** One host past its counter: after 2^31 watches, the first of them cannot be cancelled. */
  lemma TheFirstOfTooManyIsForgotten()
    ensures var (s, history) := Run(Watches(0x8000_0000));
      0 in IdsGiven(history) && Cancel(s, [I32(0)]) == NotFound.AsI32()
  {
    var n: nat := 0x8000_0000;
    WatchesIssue(n);
    HostIsItsHistory(Watches(n));
    var given := IdsGiven(Run(Watches(n)).1);
    assert given[0] == AsI32(0) == 0;
    assert AllI32([I32(0)], 1);
  }
}
