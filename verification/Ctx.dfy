/** The block's channel to the host: property reads through one retained buffer. */
module Ctx {
  import opened Common
  import opened Status
  import opened Convention
  import opened Raw

  /** What one property read leaves behind: the answer, the retained buffer, and the host. */
  datatype Outcome = Outcome(result: Result<seq<Byte>, BlockError>, buffer: seq<Byte>, state: State)

  /** The read `prop_cbor` hands to the loop. */
  function PropRead(id: I32, signal: I32): Read<State> {
    (s, buffer) => PropStep(id, signal, s, buffer)
  }

  /** An empty buffer is given the starting capacity; any other starts at the length it was left at. */
  function Primed(buffer: seq<Byte>): seq<Byte> {
    if buffer == [] then Resize(buffer, STARTING_CAPACITY) else buffer
  }

  function PropCborSpec(id: I32, signal: I32, buffer: seq<Byte>, s: State): Outcome {
    var run := GrowAndRetrySpec("prop", PropRead(id, signal), s, Primed(buffer));
    match run.result
    case Err(error) => Outcome(Err(error), run.buffer, run.host)
    case Ok(None) => Outcome(Err(HostError("prop", ErrorCode.NotFound)), run.buffer, run.host)
    case Ok(Some(n)) =>
      var kept := Truncate(run.buffer, n);
      Outcome(Ok(kept), kept, run.host)
  }

  class Ctx {
    var propBuffer: seq<Byte>

    constructor ()
      ensures propBuffer == []
    {
      propBuffer := [];
    }

    method PropCbor(raw: Recorder, id: I32, signal: I32) returns (result: Result<seq<Byte>, BlockError>)
      modifies this, raw
      ensures Outcome(result, propBuffer, raw.state)
        == PropCborSpec(id, signal, old(propBuffer), old(raw.state))
    {
      if propBuffer == [] {
        propBuffer := Resize(propBuffer, STARTING_CAPACITY);
      }
      var run := GrowAndRetry("prop", PropRead(id, signal), raw.state, propBuffer);
      propBuffer, raw.state := run.buffer, run.host;
      match run.result {
        case Err(error) => return Err(error);
        case Ok(None) => return Err(HostError("prop", ErrorCode.NotFound));
        case Ok(Some(n)) =>
          propBuffer := Truncate(propBuffer, n);
          result := Ok(propBuffer);
      }
    }
  }

  /** How many host calls a read of `answer` costs a buffer last left at `length`. */
  function Cost(length: nat, answer: seq<Byte>): nat {
    if |answer| <= (if length == 0 then STARTING_CAPACITY else length) then 1 else 2
  }

  function Repeat(call: Call, n: nat): (r: seq<Call>)
    ensures |r| == n
  {
    seq(n, _ => call)
  }

  lemma QueueHolds(id: I32, signal: I32, s: State)
    requires s.propAnswerer.None? && s.propAnswers != [] && |s.propAnswers[0]| <= I32_MAX
    ensures HoldsAnswer(PropRead(id, signal), s, s.propAnswers[0])
  {
    AsI32Exact(|s.propAnswers[0]|);
  }

  lemma ShortBufferKeepsTheQueue(id: I32, signal: I32, s: State, buffer: seq<Byte>)
    requires s.propAnswerer.None? && s.propAnswers != [] && |buffer| < |s.propAnswers[0]|
    ensures PropRead(id, signal)(s, buffer).host == s.(calls := s.calls + [Prop(id, signal)])
  {
  }

  /** The call that takes the head off the queue, with the call before it when there was one. */
  lemma ReadDrains(id: I32, signal: I32, s: State, b: seq<Byte>, before: seq<Call>)
    requires s.propAnswerer.None? && s.propAnswers != [] && |s.propAnswers[0]| <= |b|
    requires s.calls == before || s.calls == before + [Prop(id, signal)]
    ensures PropRead(id, signal)(s, b).host == s.(
      propAnswers := s.propAnswers[1..],
      calls := before + Repeat(Prop(id, signal), if s.calls == before then 1 else 2))
  {
    var call := Prop(id, signal);
    assert before + [call] == before + Repeat(call, 1);
    assert before + [call] + [call] == before + Repeat(call, 2);
  }

  /**
   * One read of a queued answer an `i32` can size: exactly those bytes, off the front of the queue,
   * whatever the retained buffer held and however long it was, for one host call or two.
   */
  lemma ReadTakesTheHead(id: I32, signal: I32, buffer: seq<Byte>, s: State)
    requires s.propAnswerer.None? && s.propAnswers != [] && |s.propAnswers[0]| <= I32_MAX
    ensures var head := s.propAnswers[0];
      PropCborSpec(id, signal, buffer, s) == Outcome(
        Ok(head), head,
        s.(propAnswers := s.propAnswers[1..],
           calls := s.calls + Repeat(Prop(id, signal), Cost(|buffer|, head))))
  {
    var head := s.propAnswers[0];
    QueueHolds(id, signal, s);
    FixedAnswerTakesTwoCalls("prop", PropRead(id, signal), s, Primed(buffer), head);
    if |head| <= |Primed(buffer)| {
      ReadDrains(id, signal, s, Primed(buffer), s.calls);
    } else {
      ShortBufferKeepsTheQueue(id, signal, s, Primed(buffer));
      var asked := PropRead(id, signal)(s, Primed(buffer)).host;
      ReadDrains(id, signal, asked, Resize(Primed(buffer), |head|), s.calls);
    }
  }

  /** What the host refuses is an error that names the read and keeps the code, an absence included; the buffer is kept for the next. */
  lemma RefusalsPassThrough(id: I32, signal: I32, buffer: seq<Byte>, s: State, code: ErrorCode)
    requires PropStep(id, signal, s, Primed(buffer)).ret == code.AsI32() < 0
    requires code.Unknown? ==> code == FromI32(code.AsI32()).value
    ensures var reply := PropStep(id, signal, s, Primed(buffer));
      PropCborSpec(id, signal, buffer, s) == Outcome(Err(HostError("prop", code)), reply.buffer, reply.host)
  {
    FailuresEndTheLoop("prop", PropRead(id, signal), s, Primed(buffer), code);
  }

  /**
   * The bound is exact. An answer longer than an `i32` can say is never delivered: its length
   * comes back as a refusal or as too short a count, so no buffer turns it into the queued bytes.
   */
  lemma ReadIsExactUpToI32(id: I32, signal: I32, buffer: seq<Byte>, s: State)
    requires s.propAnswerer.None? && s.propAnswers != []
    ensures PropCborSpec(id, signal, buffer, s).result == Ok(s.propAnswers[0])
      <==> |s.propAnswers[0]| <= I32_MAX
  {
    var head := s.propAnswers[0];
    if |head| <= I32_MAX {
      ReadTakesTheHead(id, signal, buffer, s);
    } else {
      AsI32Exact(|head|);
      var primed := Primed(buffer);
      if |head| > |primed| && AsI32(|head|) > |primed| {
        var first := PropStep(id, signal, s, primed);
        var grown := Resize(primed, AsI32(|head|));
        var second := PropStep(id, signal, first.host, grown);
        assert GrowAndRetrySpec("prop", PropRead(id, signal), first.host, grown).result
          == Ok(Some(second.ret));
      }
    }
  }

  /** A drained queue is `ERR_NOT_FOUND`, for one host call. */
  lemma ReadOfNothing(id: I32, signal: I32, buffer: seq<Byte>, s: State)
    requires s.propAnswerer.None? && s.propAnswers == []
    ensures PropCborSpec(id, signal, buffer, s) == Outcome(
      Err(HostError("prop", ErrorCode.NotFound)), Primed(buffer),
      s.(calls := s.calls + Repeat(Prop(id, signal), 1)))
  {
    assert s.calls + [Prop(id, signal)] == s.calls + Repeat(Prop(id, signal), 1);
  }

  datatype Ask = Ask(id: I32, signal: I32)

  /** Reads made one after another through one context. */
  function ReadAll(asks: seq<Ask>, buffer: seq<Byte>, s: State): (seq<Result<seq<Byte>, BlockError>>, State) {
    if asks == [] then ([], s)
    else
      var first := PropCborSpec(asks[0].id, asks[0].signal, buffer, s);
      var (rest, last) := ReadAll(asks[1..], first.buffer, first.state);
      ([first.result] + rest, last)
  }

  /** The calls a run of reads records: each read's cost depends only on the answer before it. */
  function CallsOf(asks: seq<Ask>, length: nat, answers: seq<seq<Byte>>): seq<Call> {
    if asks == [] then []
    else
      var call := Prop(asks[0].id, asks[0].signal);
      if answers == [] then
        Repeat(call, 1) + CallsOf(asks[1..], if length == 0 then STARTING_CAPACITY else length, [])
      else Repeat(call, Cost(length, answers[0])) + CallsOf(asks[1..], |answers[0]|, answers[1..])
  }

  /** How many answers one read takes off the queue. */
  function Drained(s: State): (n: nat)
    ensures n <= |s.propAnswers|
  {
    if s.propAnswers == [] then 0 else 1
  }

  function StepCalls(ask: Ask, length: nat, s: State): seq<Call> {
    Repeat(Prop(ask.id, ask.signal), if s.propAnswers == [] then 1 else Cost(length, s.propAnswers[0]))
  }

  lemma OneRead(ask: Ask, buffer: seq<Byte>, s: State)
    requires s.propAnswerer.None?
    requires s.propAnswers != [] ==> |s.propAnswers[0]| <= I32_MAX
    ensures var read := PropCborSpec(ask.id, ask.signal, buffer, s);
      && read.result == (if s.propAnswers == [] then Err(HostError("prop", ErrorCode.NotFound)) else Ok(s.propAnswers[0]))
      && |read.buffer| == (if s.propAnswers != [] then |s.propAnswers[0]|
                           else if |buffer| == 0 then STARTING_CAPACITY else |buffer|)
      && read.state == s.(propAnswers := s.propAnswers[Drained(s)..],
                          calls := s.calls + StepCalls(ask, |buffer|, s))
  {
    if s.propAnswers == [] {
      ReadOfNothing(ask.id, ask.signal, buffer, s);
    } else {
      ReadTakesTheHead(ask.id, ask.signal, buffer, s);
    }
  }

  /** How many of the queued answers `k` reads consume. */
  function Consumed(k: nat, s: State): (n: nat)
    ensures n <= |s.propAnswers|
  {
    if k <= |s.propAnswers| then k else |s.propAnswers|
  }

  /** k reads leave exactly the rest of the queue, and record exactly the calls the answers cost. */
  lemma {:induction false} ReadsLeaveTheRest(asks: seq<Ask>, buffer: seq<Byte>, s: State)
    requires s.propAnswerer.None?
    requires forall i :: 0 <= i < |s.propAnswers| ==> |s.propAnswers[i]| <= I32_MAX
    ensures ReadAll(asks, buffer, s).1 == s.(
      propAnswers := s.propAnswers[Consumed(|asks|, s)..],
      calls := s.calls + CallsOf(asks, |buffer|, s.propAnswers))
  {
    if asks == [] {
      assert s.calls + CallsOf(asks, |buffer|, s.propAnswers) == s.calls;
    } else {
      var first := PropCborSpec(asks[0].id, asks[0].signal, buffer, s);
      var step := StepCalls(asks[0], |buffer|, s);
      var tail := s.propAnswers[Drained(s)..];
      OneRead(asks[0], buffer, s);
      ReadsLeaveTheRest(asks[1..], first.buffer, first.state);
      var later := CallsOf(asks[1..], |first.buffer|, tail);
      assert CallsOf(asks, |buffer|, s.propAnswers) == step + later;
      Drains(s, |asks| - 1, step, later);
    }
  }

  /** Taking one answer and then `k` more is taking `k + 1`. */
  lemma Drains(s: State, k: nat, step: seq<Call>, later: seq<Call>)
    ensures var one := s.(propAnswers := s.propAnswers[Drained(s)..], calls := s.calls + step);
      one.(propAnswers := one.propAnswers[Consumed(k, one)..], calls := one.calls + later)
      == s.(propAnswers := s.propAnswers[Consumed(k + 1, s)..], calls := s.calls + (step + later))
  {
    var one := s.(propAnswers := s.propAnswers[Drained(s)..], calls := s.calls + step);
    assert (s.calls + step) + later == s.calls + (step + later);
    assert one.propAnswers[Consumed(k, one)..] == s.propAnswers[Consumed(k + 1, s)..];
  }

  /**
   * k reads return the first k queued answers in order, and then `ERR_NOT_FOUND`, whatever lengths
   * earlier answers left the retained buffer at. Its contents appear nowhere in the answers.
   */
  lemma {:induction false} ReadsReturnTheQueueInOrder(asks: seq<Ask>, buffer: seq<Byte>, s: State)
    requires s.propAnswerer.None?
    requires forall i :: 0 <= i < |s.propAnswers| ==> |s.propAnswers[i]| <= I32_MAX
    ensures var results := ReadAll(asks, buffer, s).0;
      && |results| == |asks|
      && forall i :: 0 <= i < |asks| ==>
           results[i] == if i < |s.propAnswers| then Ok(s.propAnswers[i])
                         else Err(HostError("prop", ErrorCode.NotFound))
  {
    if asks != [] {
      var first := PropCborSpec(asks[0].id, asks[0].signal, buffer, s);
      OneRead(asks[0], buffer, s);
      ReadsReturnTheQueueInOrder(asks[1..], first.buffer, first.state);
      var rest := ReadAll(asks[1..], first.buffer, first.state).0;
      assert ReadAll(asks, buffer, s).0 == [first.result] + rest;
    }
  }

  lemma OneMoreRead(ask: Ask, asks: seq<Ask>, length: nat, answer: seq<Byte>, answers: seq<seq<Byte>>)
    ensures CallsOf([ask] + asks, length, [answer] + answers)
      == Repeat(Prop(ask.id, ask.signal), Cost(length, answer)) + CallsOf(asks, |answer|, answers)
  {
    assert ([ask] + asks)[1..] == asks && ([answer] + answers)[1..] == answers;
  }

  lemma LongShortLong(ask: Ask, long: seq<Byte>, short: seq<Byte>)
    requires |long| == 100 && |short| == 10
    ensures CallsOf([ask, ask, ask], 0, [long, short, long]) == Repeat(Prop(ask.id, ask.signal), 5)
  {
    var call := Prop(ask.id, ask.signal);
    OneMoreRead(ask, [ask, ask], 0, long, [short, long]);
    OneMoreRead(ask, [ask], 100, short, [long]);
    OneMoreRead(ask, [], 10, long, []);
    assert [ask] + [ask, ask] == [ask, ask, ask] && [ask] + [ask] == [ask, ask] && [ask] + [] == [ask];
    assert [long] + [short, long] == [long, short, long] && [short] + [long] == [short, long] && [long] + [] == [long];
    assert Repeat(call, 2) + (Repeat(call, 1) + (Repeat(call, 2) + [])) == Repeat(call, 5);
  }

  /** One queue that makes the retained buffer grow twice: a long answer, a short one, and the long one again. */
  lemma TheBufferGrowsAgain(ask: Ask, s: State)
    requires s.propAnswerer.None? && s.propAnswers == [Zeros(100), Zeros(10), Zeros(100)]
    ensures ReadAll([ask, ask, ask], [], s).1.calls == s.calls + Repeat(Prop(ask.id, ask.signal), 5)
  {
    ReadsLeaveTheRest([ask, ask, ask], [], s);
    LongShortLong(ask, Zeros(100), Zeros(10));
  }

  /** One answer no buffer delivers: 2^31 bytes of it. */
  lemma OneAnswerIsTooLong(id: I32, signal: I32, buffer: seq<Byte>, s: State)
    requires s.propAnswerer.None? && s.propAnswers == [Zeros(0x8000_0000)]
    ensures PropCborSpec(id, signal, buffer, s).result != Ok(Zeros(0x8000_0000))
  {
    ReadIsExactUpToI32(id, signal, buffer, s);
  }
}
