/** The recording stub that stands where a host would be: queued answers, consumed in order. */
module Raw {
  import opened Common
  import opened Status
  import opened Convention

  datatype Call =
    | Prop(propId: I32, signal: I32)
    | StateGet(key: string)
    | StatePut(key: string, value: seq<Byte>)
    | StateDel(key: string)
    | I2cRead(bus: U32, addr: U32)

  /** Evaluates a property when something richer than a queue is driving. */
  type Answerer = (I32, I32, seq<Byte>) -> (I32, seq<Byte>)

  datatype State = State(
    calls: seq<Call>,
    propAnswers: seq<seq<Byte>>,
    readAnswers: seq<seq<Byte>>,
    refuseWith: Option<ErrorCode>,
    propAnswerer: Option<Answerer>,
    store: Option<map<string, seq<Byte>>>)

  /** A queue popped by a sized read, and pushed back when the answer did not fit. */
  function AnswerFrom(queue: seq<seq<Byte>>, buffer: seq<Byte>): (r: (seq<seq<Byte>>, I32, seq<Byte>))
    requires queue != []
  {
    var answer := queue[0];
    if |answer| > |buffer| then (queue, AsI32(|answer|), buffer)
    else (queue[1..], AsI32(|answer|), answer + buffer[|answer|..])
  }

  /** What a lent buffer can come back as: written over, at the length it was lent at. */
  function Lent(buffer: seq<Byte>, filled: seq<Byte>): (r: seq<Byte>)
    ensures |r| == |buffer| && (|filled| == |buffer| ==> r == filled)
  {
    if |filled| <= |buffer| then filled + buffer[|filled|..] else filled[..|buffer|]
  }

  function PropStep(id: I32, signal: I32, s: State, buffer: seq<Byte>): Reply<State> {
    var s := s.(calls := s.calls + [Prop(id, signal)]);
    match s.propAnswerer
    case Some(answer) =>
      var (ret, filled) := answer(id, signal, buffer);
      Reply(s, ret, Lent(buffer, filled))
    case None =>
      if s.propAnswers == [] then Reply(s, ErrorCode.NotFound.AsI32(), buffer)
      else
        var (queue, ret, filled) := AnswerFrom(s.propAnswers, buffer);
        Reply(s.(propAnswers := queue), ret, filled)
  }

  /** A refusal first, then the scripted queue, then the installed store. */
  function StateGetStep(key: string, s: State, buffer: seq<Byte>): Reply<State> {
    var s := s.(calls := s.calls + [StateGet(key)]);
    match s.refuseWith
    case Some(code) => Reply(s, code.AsI32(), buffer)
    case None =>
      if s.readAnswers != [] then
        var (queue, ret, filled) := AnswerFrom(s.readAnswers, buffer);
        Reply(s.(readAnswers := queue), ret, filled)
      else if s.store.Some? && key in s.store.value then
        var bytes := s.store.value[key];
        if |bytes| > |buffer| then Reply(s, AsI32(|bytes|), buffer)
        else Reply(s, AsI32(|bytes|), bytes + buffer[|bytes|..])
      else Reply(s, ErrorCode.NotFound.AsI32(), buffer)
  }

  function I2cReadStep(bus: U32, addr: U32, s: State, buffer: seq<Byte>): Reply<State> {
    var s := s.(calls := s.calls + [I2cRead(bus, addr)]);
    match s.refuseWith
    case Some(code) => Reply(s, code.AsI32(), buffer)
    case None =>
      if s.readAnswers == [] then Reply(s, ErrorCode.NotFound.AsI32(), buffer)
      else
        var (queue, ret, filled) := AnswerFrom(s.readAnswers, buffer);
        Reply(s.(readAnswers := queue), ret, filled)
  }

  /** `copy_from_slice` into the front of a buffer. */
  method CopyInto(buffer: array<Byte>, bytes: seq<Byte>)
    requires |bytes| <= buffer.Length
    modifies buffer
    ensures buffer[..] == bytes + old(buffer[..])[|bytes|..]
  {
    for i := 0 to |bytes|
      invariant forall k :: 0 <= k < i ==> buffer[k] == bytes[k]
      invariant forall k :: i <= k < buffer.Length ==> buffer[k] == old(buffer[k])
    {
      buffer[i] := bytes[i];
    }
  }

  /** The thread's recorder: each raw function updates its fields in place. */
  class Recorder {
    var state: State

    constructor ()
      ensures state == State([], [], [], None, None, None)
    {
      state := State([], [], [], None, None, None);
    }

    method QueueProp(answer: seq<Byte>)
      modifies this
      ensures state == old(state).(propAnswers := old(state).propAnswers + [answer])
    {
      state := state.(propAnswers := state.propAnswers + [answer]);
    }

    method QueueRead(answer: seq<Byte>)
      modifies this
      ensures state == old(state).(readAnswers := old(state).readAnswers + [answer])
    {
      state := state.(readAnswers := state.readAnswers + [answer]);
    }

    /** Takes the calls recorded so far, leaving every queued answer in place. */
    method TakeCalls() returns (calls: seq<Call>)
      modifies this
      ensures calls == old(state).calls && state == old(state).(calls := [])
    {
      calls := state.calls;
      state := state.(calls := []);
    }

    method Prop(id: I32, signal: I32, buffer: array<Byte>) returns (ret: I32)
      modifies this, buffer
      ensures var reply := PropStep(id, signal, old(state), old(buffer[..]));
        state == reply.host && ret == reply.ret && buffer[..] == reply.buffer
    {
      state := state.(calls := state.calls + [Call.Prop(id, signal)]);
      if state.propAnswerer.Some? {
        var (answered, filled) := state.propAnswerer.value(id, signal, buffer[..]);
        CopyInto(buffer, Lent(buffer[..], filled));
        return answered;
      }
      if state.propAnswers == [] {
        return ErrorCode.NotFound.AsI32();
      }
      var answer := state.propAnswers[0];
      state := state.(propAnswers := state.propAnswers[1..]);
      if |answer| > buffer.Length {
        state := state.(propAnswers := [answer] + state.propAnswers);
        assert state.propAnswers == old(state).propAnswers;
        return AsI32(|answer|);
      }
      CopyInto(buffer, answer);
      ret := AsI32(|answer|);
    }

    /** Removes a key whether or not it was there; a refusal changes nothing but the call log. */
    method StateDel(key: string) returns (ret: I32)
      modifies this
      ensures state.calls == old(state).calls + [Call.StateDel(key)]
      ensures match old(state).refuseWith
        case Some(code) => ret == code.AsI32() && state.store == old(state).store
        case None => ret == 0 && (old(state).store.Some? ==> state.store == Some(old(state).store.value - {key}))
      ensures state == old(state).(calls := state.calls, store := state.store)
    {
      state := state.(calls := state.calls + [Call.StateDel(key)]);
      if state.refuseWith.Some? {
        return state.refuseWith.value.AsI32();
      }
      if state.store.Some? {
        state := state.(store := Some(state.store.value - {key}));
      }
      ret := 0;
    }

    method StatePut(key: string, value: seq<Byte>) returns (ret: I32)
      modifies this
      ensures state.calls == old(state).calls + [Call.StatePut(key, value)]
      ensures match old(state).refuseWith
        case Some(code) => ret == code.AsI32() && state.store == old(state).store
        case None => ret == 0 && (old(state).store.Some? ==> state.store == Some(old(state).store.value[key := value]))
      ensures state == old(state).(calls := state.calls, store := state.store)
    {
      state := state.(calls := state.calls + [Call.StatePut(key, value)]);
      if state.refuseWith.Some? {
        return state.refuseWith.value.AsI32();
      }
      if state.store.Some? {
        state := state.(store := Some(state.store.value[key := value]));
      }
      ret := 0;
    }
  }

  // What each raw read does, said of its queue and its buffer.

  /** The answer lands at the front of the buffer, or its size is reported and nothing is written. */
  ghost predicate Reads(answer: seq<Byte>, buffer: seq<Byte>, ret: I32, filled: seq<Byte>) {
    && ret == AsI32(|answer|) && |filled| == |buffer|
    && if |answer| <= |buffer| then filled[..|answer|] == answer && filled[|answer|..] == buffer[|answer|..] else filled == buffer
  }

  /** A queue read: its head, which goes exactly when it was delivered; not-found when it is empty. */
  ghost predicate ReadsQueue(before: seq<seq<Byte>>, after: seq<seq<Byte>>, buffer: seq<Byte>, ret: I32, filled: seq<Byte>) {
    if before == [] then after == [] && ret == NotFound.AsI32() && filled == buffer
    else Reads(before[0], buffer, ret, filled) && after == if |before[0]| <= |buffer| then before[1..] else before
  }

  /** A property read is recorded, and answered by the answerer there is, or else from its queue; nothing else moves. */
  lemma PropReads(id: I32, signal: I32, s: State, buffer: seq<Byte>)
    ensures var reply := PropStep(id, signal, s, buffer);
      && reply.host == s.(calls := s.calls + [Prop(id, signal)], propAnswers := reply.host.propAnswers)
      && match s.propAnswerer
         case Some(answer) =>
           && reply.host.propAnswers == s.propAnswers && reply.ret == answer(id, signal, buffer).0
           && |reply.buffer| == |buffer|
           && (|answer(id, signal, buffer).1| == |buffer| ==> reply.buffer == answer(id, signal, buffer).1)
         case None => ReadsQueue(s.propAnswers, reply.host.propAnswers, buffer, reply.ret, reply.buffer)
  {
  }

  /** An `i2c_read` is recorded, and refused, or answered from the queue; nothing else moves. */
  lemma I2cReads(bus: U32, addr: U32, s: State, buffer: seq<Byte>)
    ensures var reply := I2cReadStep(bus, addr, s, buffer);
      && reply.host == s.(calls := s.calls + [I2cRead(bus, addr)], readAnswers := reply.host.readAnswers)
      && match s.refuseWith
         case Some(code) => reply.host.readAnswers == s.readAnswers && reply.ret == code.AsI32() && reply.buffer == buffer
         case None => ReadsQueue(s.readAnswers, reply.host.readAnswers, buffer, reply.ret, reply.buffer)
  {
  }

  function StateGetRead(key: string): Read<State> {
    (s, buffer) => StateGetStep(key, s, buffer)
  }

  /** What answers a `state_get` that nothing refuses: the queue's head, or else the store. */
  predicate Answers(key: string, s: State, answer: seq<Byte>) {
    && s.refuseWith.None?
    && |answer| <= I32_MAX
    && if s.readAnswers != [] then answer == s.readAnswers[0]
       else s.store.Some? && key in s.store.value && answer == s.store.value[key]
  }

  lemma StateGetServes(key: string, s: State, answer: seq<Byte>)
    requires Answers(key, s, answer)
    ensures Serves(StateGetRead(key), s, answer)
  {
    AsI32Exact(|answer|);
  }

  lemma StateGetHolds(key: string, s: State, answer: seq<Byte>)
    requires Answers(key, s, answer)
    ensures HoldsAnswer(StateGetRead(key), s, answer)
  {
    StateGetServes(key, s, answer);
    forall b: seq<Byte> | |b| < |answer|
      ensures Serves(StateGetRead(key), StateGetRead(key)(s, b).host, answer)
    {
      StateGetServes(key, StateGetRead(key)(s, b).host, answer);
    }
  }

  lemma StateGetDrains(key: string, s: State, b: seq<Byte>, answer: seq<Byte>)
    requires Answers(key, s, answer) && |answer| <= |b|
    ensures StateGetRead(key)(s, b).host == s.(
      readAnswers := if s.readAnswers != [] then s.readAnswers[1..] else s.readAnswers,
      calls := s.calls + [StateGet(key)])
  {
  }

  lemma StateGetReads(key: string, s: State, answer: seq<Byte>)
    requires Answers(key, s, answer) && HoldsAnswer(StateGetRead(key), s, answer)
    ensures var (result, after) := SizedSpec("state_get", StateGetRead(key), s);
      && result == Ok(Some(answer))
      && after == s.(
           readAnswers := if s.readAnswers != [] then s.readAnswers[1..] else s.readAnswers,
           calls := after.calls)
      && after.calls == s.calls + if |answer| <= STARTING_CAPACITY
           then [StateGet(key)] else [StateGet(key), StateGet(key)]
  {
    var buffer := Zeros(STARTING_CAPACITY);
    FixedAnswerTakesTwoCalls("state_get", StateGetRead(key), s, buffer, answer);
    if |answer| <= STARTING_CAPACITY {
      StateGetDrains(key, s, buffer, answer);
    } else {
      var asked := StateGetRead(key)(s, buffer).host;
      assert asked == s.(calls := s.calls + [StateGet(key)]);
      StateGetDrains(key, asked, Resize(buffer, |answer|), answer);
      assert s.calls + [StateGet(key)] + [StateGet(key)] == s.calls + [StateGet(key), StateGet(key)];
    }
  }

  /**
   * A whole `state_get` through the loop: a refusal wins over the queue, the queue over the store,
   * and `ERR_NOT_FOUND` is an absence whichever of them said it. Only the queue is consumed.
   */
  lemma StateGetPrecedence(key: string, s: State)
    requires s.refuseWith.Some? ==> Canonical(s.refuseWith.value)
    requires s.readAnswers != [] ==> |s.readAnswers[0]| <= I32_MAX
    requires s.store.Some? && key in s.store.value ==> |s.store.value[key]| <= I32_MAX
    ensures var (result, after) := SizedSpec("state_get", StateGetRead(key), s);
      && result == (
           if s.refuseWith.Some? then
             if s.refuseWith.value == NotFound then Ok(None) else Err(HostError("state_get", s.refuseWith.value))
           else if s.readAnswers != [] then Ok(Some(s.readAnswers[0]))
           else if s.store.Some? && key in s.store.value then Ok(Some(s.store.value[key]))
           else Ok(None))
      && after == s.(
           readAnswers := if s.refuseWith.None? && s.readAnswers != [] then s.readAnswers[1..] else s.readAnswers,
           calls := after.calls)
      && after.calls == s.calls + (
           if result.Ok? && result.value.Some? && |result.value.value| > STARTING_CAPACITY
           then [StateGet(key), StateGet(key)] else [StateGet(key)])
  {
    if s.refuseWith.Some? {
      CodesRoundTrip(s.refuseWith.value.AsI32(), s.refuseWith.value);
    } else if s.readAnswers != [] {
      StateGetHolds(key, s, s.readAnswers[0]);
      StateGetReads(key, s, s.readAnswers[0]);
    } else if s.store.Some? && key in s.store.value {
      StateGetHolds(key, s, s.store.value[key]);
      StateGetReads(key, s, s.store.value[key]);
    }
  }
}
