/** What holds of every scenario, against every guest. */
module Runs {
  import opened Common
  import opened Scenario
  import opened Walk
  import Capability
  import Check
  import Hex
  import L = Lifecycle
  import Record
  import Status
  import Utf8

  /** The stage the walk believes in is the phase the guest is in, and the host broke no rule getting there. */
  ghost predicate Agrees(stage: Stage, trace: seq<Record.Event>) {
    match stage
    case Fresh => L.Proper(trace, L.New)
    case Configured(_) => L.Proper(trace, L.Ready)
    case Running(_) => L.Proper(trace, L.Live)
    case Stopped(_) => L.Proper(trace, L.Over)
    case Gone => exists p :: L.Proper(trace, p)
  }

  lemma CallbackAgrees<S>(g: L.Guest<S>, w: L.World<S>, errors: U32, fn: string, args: seq<I32>, p: L.Phase)
    requires L.Proper(w.trace, p)
    requires (p == L.Ready && fn == L.START) || (p == L.Live && (fn == L.STOP || L.IsDelivery(fn)))
    ensures var t := L.Callback(g, w, errors, fn, args);
      match t.answer
      case Lived(counted, status) =>
        && L.Proper(t.world.trace, if fn == L.STOP then L.Over else if fn == L.START && !status.Fine? then L.Ready else L.Live)
        && counted == L.Counted(errors, status) && (status.Fine? <==> status.AsI32() == 0)
      case Died(_) => L.Proper(t.world.trace, L.Over)
  {
    var called := L.Enter(g, w, fn, args);
    L.CallIsProper(w.trace, p, Record.Event(Record.Call(fn, args), Record.Called(called.answer)));
    if called.answer.Ok? {
      Status.StatusRoundTrips(called.answer.value);
    }
  }

  lemma DeliveryAgrees<S>(b: Bench<S>, errors: U32, w: L.World<S>, port: string, text: Hex.Text)
    requires L.Proper(w.trace, L.Live)
    ensures Agrees(Delivers(b, errors, w, port, text).stage, Delivers(b, errors, w, port, text).world.trace)
  {
    var index, bytes := Position(b.descriptor.inputs, port), Hex.Unhex(text);
    if index.Some? && bytes.Decoded? && b.guest.codec.decode(bytes.bytes).Some? {
      var encoded := b.guest.codec.encode(b.guest.codec.decode(bytes.bytes).value);
      L.HandIsProper(b.guest, w, encoded, L.PROCESS_SIGNALS, [AsI32(index.value)], L.Live);
    }
  }

  lemma ConfigureAgrees<S>(b: Bench<S>, w: L.World<S>)
    requires L.Proper(w.trace, L.New)
    ensures var t := L.Configure(b.guest, w, b.descriptor);
      Agrees(if t.answer.Configured? then Configured(0) else Gone, t.world.trace)
  {
    L.HandIsProper(b.guest, w, b.descriptor.encoded, L.CONFIGURE, [], L.New);
  }

  lemma HttpAgrees<S>(b: Bench<S>, w: L.World<S>, errors: U32, req: U32, code: I32, body: seq<Byte>)
    requires L.Proper(w.trace, L.Live)
    ensures var t := L.OnHttp(b.guest, w, errors, req, code, body); Agrees(Living(t.answer).0, t.world.trace)
  {
    L.HandIsProper(b.guest, w, body, L.ON_HTTP, [AsI32(req), code], L.Live);
  }

  lemma LifecycleAgrees<S>(b: Bench<S>, stage: Stage, w: L.World<S>, action: Action)
    requires Agrees(stage, w.trace) && (action.Configure? || action.Start? || action.Stop?)
    ensures Agrees(Transition(b, stage, w, action).stage, Transition(b, stage, w, action).world.trace)
  {
    match (action, stage)
    case (Configure, Fresh) => ConfigureAgrees(b, w);
    case (Start, Configured(errors)) => CallbackAgrees(b.guest, w, errors, L.START, [], L.Ready);
    case (Stop, Running(errors)) => CallbackAgrees(b.guest, w, errors, L.STOP, [], L.Live);
    case _ =>
  }

  lemma EventAgrees<S>(b: Bench<S>, stage: Stage, w: L.World<S>, action: Action)
    requires Agrees(stage, w.trace) && (action.Deliver? || action.Timer? || action.Gpio? || action.Http?)
    ensures Agrees(Transition(b, stage, w, action).stage, Transition(b, stage, w, action).world.trace)
  {
    match (action, stage)
    case (Deliver(port, text), Running(errors)) => DeliveryAgrees(b, errors, w, port, text);
    case (Timer(id), Running(errors)) => CallbackAgrees(b.guest, w, errors, L.ON_TIMER, [AsI32(id)], L.Live);
    case (Gpio(watch, value), Running(errors)) =>
      CallbackAgrees(b.guest, w, errors, L.ON_GPIO, [AsI32(watch), value], L.Live);
    case (Http(req, code, body), Running(errors)) =>
      if Hex.Unhex(body).Decoded? {
        HttpAgrees(b, w, errors, req, code, Hex.Unhex(body).bytes);
      }
    case _ =>
  }

  lemma TransitionAgrees<S>(b: Bench<S>, stage: Stage, w: L.World<S>, action: Action)
    requires Agrees(stage, w.trace)
    ensures Agrees(Transition(b, stage, w, action).stage, Transition(b, stage, w, action).world.trace)
  {
    if action.Configure? || action.Start? || action.Stop? {
      LifecycleAgrees(b, stage, w, action);
    } else {
      EventAgrees(b, stage, w, action);
    }
  }

  /** Draining what was heard moves neither the stage nor the trace. */
  lemma StepAgrees<S>(b: Bench<S>, stage: Stage, w: L.World<S>, step: Step)
    requires Agrees(stage, w.trace)
    ensures Agrees(Stepped(b, stage, w, step).stage, Stepped(b, stage, w, step).world.trace)
  {
    var (inner, scripting) := Queue(b, w.inner, step.script);
    if scripting.Queued? {
      TransitionAgrees(b, stage, w.(inner := inner), step.action);
    }
  }

  /**
   * Whatever the scenario asks and whatever the guest does, everything asked of the guest is in the
   * lifecycle's order, and the recorder finds nothing to fault the host for.
   */
  lemma {:induction false} EveryRunIsProper<S>(b: Bench<S>, stage: Stage, w: L.World<S>, steps: seq<Step>)
    requires Agrees(stage, w.trace)
    ensures Agrees(RunOf(b, stage, w, steps).stage, RunOf(b, stage, w, steps).world.trace)
    decreases steps
  {
    if steps != [] {
      EveryRunIsProper(b, stage, w, steps[..|steps| - 1]);
      var before := RunOf(b, stage, w, steps[..|steps| - 1]);
      StepAgrees(b, before.stage, before.world, steps[|steps| - 1]);
    }
  }

  /** A callback: any engine call but the allocation that precedes one. */
  predicate IsCallback(e: Record.Event) {
    e.op.Call? && e.op.fn != Record.ALLOC
  }

  /** Where a callback stands in the order of a life: version, configure, starts, deliveries, stop. */
  function Rank(fn: string): nat {
    if fn == L.ABI_VERSION then 0
    else if fn == L.CONFIGURE then 1
    else if fn == L.START then 2
    else if L.IsDelivery(fn) then 3
    else 4
  }

  function Bound(p: L.Phase): int {
    match p
    case Unread => -1
    case New => 0
    case Ready => 2
    case Live => 3
    case Over => 4
  }

  lemma {:induction false} CallbacksAreBounded(trace: seq<Record.Event>, i: nat)
    requires L.Follow(trace).Some? && i < |trace| && IsCallback(trace[i])
    ensures Rank(trace[i].op.fn) <= Bound(L.Follow(trace).value)
  {
    var front := trace[..|trace| - 1];
    if i < |trace| - 1 {
      assert front[i] == trace[i];
      CallbacksAreBounded(front, i);
    }
  }

  /** In plain order: the version once, one configure, then starts, then deliveries, then one stop, and nothing after it. */
  lemma {:induction false} CallbacksAreOrdered(trace: seq<Record.Event>, i: nat, j: nat)
    requires L.Follow(trace).Some? && i < j < |trace| && IsCallback(trace[i]) && IsCallback(trace[j])
    ensures Rank(trace[i].op.fn) <= Rank(trace[j].op.fn)
    ensures Rank(trace[i].op.fn) == Rank(trace[j].op.fn) ==> 2 <= Rank(trace[i].op.fn) <= 3
    ensures trace[i].op.fn != L.STOP
    decreases |trace|
  {
    var front := trace[..|trace| - 1];
    assert front[i] == trace[i];
    if j < |trace| - 1 {
      assert front[j] == trace[j];
      CallbacksAreOrdered(front, i, j);
    } else {
      CallbacksAreBounded(front, i);
    }
  }

  /** A complaint costs the guest nothing: it was not called, and nothing was heard from it. */
  lemma ComplaintsTouchNothing<S>(b: Bench<S>, stage: Stage, w: L.World<S>, action: Action)
    requires Transition(b, stage, w, action).reply.Complained?
    ensures Transition(b, stage, w, action).world == w
    ensures
      var t := Transition(b, stage, w, action);
      t.stage == (if t.reply.complaint == Check.NotATransition then stage else Gone)
    ensures Transition(b, stage, w, action).reply.complaint != Check.NotATransition ==>
      stage.Running? && (action.Deliver? || action.Http?)
  {
  }

  // What each action is, in the guest's own terms.

  function CallbackOf(action: Action): string {
    match action
    case Configure => L.CONFIGURE
    case Start => L.START
    case Deliver(_, _) => L.PROCESS_SIGNALS
    case Timer(_) => L.ON_TIMER
    case Gpio(_, _) => L.ON_GPIO
    case Http(_, _, _) => L.ON_HTTP
    case Stop => L.STOP
  }

  /**
   * The engine calls that hand `bytes` to `fn`. They stop early only for a payload no pointer can
   * address, an allocation that trapped or is not one to write to, or a write the engine refused.
   */
  ghost predicate HandedOver(more: seq<Record.Event>, bytes: seq<Byte>, fn: string, leading: seq<I32>) {
    && |more| <= 3
    && (|more| == 0 <==> |bytes| > 0xFFFF_FFFF)
    && (|more| > 0 ==> more[0].op == Record.Call(Record.ALLOC, [AsI32(|bytes|)]) && more[0].answer.Called?)
    && (|more| == 1 ==> !Allocates(more[0].answer.answer))
    && (|more| > 1 ==>
          && Allocates(more[0].answer.answer)
          && more[1].op == Record.Write(AsU32(more[0].answer.answer.value), bytes)
          && more[1].answer == Record.Wrote(|more| == 3))
    && (|more| > 2 ==>
          && more[2].op == Record.Call(fn, leading + [more[0].answer.answer.value, AsI32(|bytes|)])
          && more[2].answer.Called?)
  }

  predicate Allocates(answer: Result<I32, Record.TrapKind>) {
    answer.Ok? && Record.Classify(AsU32(answer.value)) == Record.Accepted
  }

  /** How asking a guest for something ended: with a number, with a refused allocation, or with its death. */
  datatype Ending = Answered(raw: I32) | Declined | Ended(kind: Record.TrapKind)

  function EndingOfCall(answer: Result<I32, Record.TrapKind>): Ending {
    match answer
    case Ok(raw) => Answered(raw)
    case Err(kind) => Ended(kind)
  }

  /** An oversized payload or a zero pointer is a refusal; a pointer no host may write to is a death. */
  ghost function EndingOf(more: seq<Record.Event>): Ending
    requires |more| <= 3 && (|more| == 1 ==> more[0].answer.Called?) && (|more| == 3 ==> more[2].answer.Called?)
  {
    if |more| == 0 then Declined
    else if |more| == 1 then
      match more[0].answer.answer
      case Ok(raw) => if Record.Classify(AsU32(raw)) == Record.Refused then Declined else Ended(Record.TrapEngine)
      case Err(kind) => Ended(kind)
    else if |more| == 2 then Ended(Record.TrapEngine)
    else EndingOfCall(more[2].answer.answer)
  }

  /** What a step shows of how it ended: a refusal by the guest is `ERR_LIMIT`, and a configure is rejected by any failure. */
  function ShownFor(action: Action, ending: Ending): Observed {
    match ending
    case Ended(kind) => BLANK.(dead := Some(kind))
    case Answered(raw) => if action.Configure? && raw != 0 then BLANK.(rejected := Some(raw)) else BLANK.(status := Some(raw))
    case Declined =>
      var limit := Status.ErrorCode.Limit.AsI32();
      if action.Configure? then BLANK.(rejected := Some(limit)) else BLANK.(status := Some(limit))
  }

  lemma SignsSurvive(raw: I32)
    ensures AsI32(AsU32(raw)) == raw
  {
  }

  /** The driver's own word for an ending. */
  function HandedFor(ending: Ending): L.Handed {
    match ending
    case Answered(raw) => L.Took(Status.DecodeStatus(raw))
    case Declined => L.Unplaced
    case Ended(kind) => L.Killed(kind)
  }

  /** The trace a handed payload leaves, and how it ended. */
  lemma HandLeaves<S>(g: L.Guest<S>, w: L.World<S>, bytes: seq<Byte>, fn: string, leading: seq<I32>) returns (more: seq<Record.Event>)
    ensures HandedOver(more, bytes, fn, leading)
    ensures L.Hand(g, w, bytes, fn, leading).world.trace == w.trace + more
    ensures L.Hand(g, w, bytes, fn, leading).answer == HandedFor(EndingOf(more))
  {
    more := [];
    if |bytes| <= 0xFFFF_FFFF {
      var asked := L.Enter(g, w, Record.ALLOC, [AsI32(|bytes|)]);
      var alloc := Record.Event(Record.Call(Record.ALLOC, [AsI32(|bytes|)]), Record.Called(asked.answer));
      more := [alloc];
      if Allocates(asked.answer) {
        var ptr := AsU32(asked.answer.value);
        SignsSurvive(asked.answer.value);
        var placed := L.Put(g, asked, bytes);
        var wrote := Record.Event(Record.Write(ptr, bytes), Record.Wrote(placed.answer.Placed?));
        more := [alloc, wrote];
        assert (w.trace + [alloc]) + [wrote] == w.trace + more;
        if placed.answer.Placed? {
          var args := leading + [AsI32(ptr), AsI32(|bytes|)];
          var called := L.Enter(g, placed.world, fn, args);
          var call := Record.Event(Record.Call(fn, args), Record.Called(called.answer));
          more := [alloc, wrote, call];
          assert ((w.trace + [alloc]) + [wrote]) + [call] == w.trace + more;
        }
      }
    }
  }

  lemma AnswersReadBack(ending: Ending)
    ensures match HandedFor(ending)
      case Took(status) => ending == Answered(status.AsI32()) && (status.Fine? <==> status.AsI32() == 0)
      case Unplaced => ending == Declined
      case Killed(kind) => ending == Ended(kind)
  {
    if ending.Answered? {
      Status.StatusRoundTrips(ending.raw);
    }
  }

  /** A configure hands the guest its descriptor and nothing else, and reports what came of it. */
  lemma ConfigureIsItsOwn<S>(b: Bench<S>, w: L.World<S>) returns (more: seq<Record.Event>)
    ensures var t := Transition(b, Fresh, w, Configure);
      && t.world.trace == w.trace + more && HandedOver(more, b.descriptor.encoded, L.CONFIGURE, [])
      && t.reply == Shown(ShownFor(Configure, EndingOf(more)))
  {
    more := HandLeaves(b.guest, w, b.descriptor.encoded, L.CONFIGURE, []);
    AnswersReadBack(EndingOf(more));
  }

  /** A delivered batch: the canonical bytes of the batch named, on the port named, within both limits. */
  ghost predicate Deliverable<S>(b: Bench<S>, port: string, text: Hex.Text, index: nat, batch: Batch) {
    && Position(b.descriptor.inputs, port) == Some(index)
    && Hex.Unhex(text).Decoded? && b.guest.codec.decode(Hex.Unhex(text).bytes) == Some(batch)
    && |batch.signals| <= b.descriptor.limits.maxBatch
    && |b.guest.codec.encode(batch)| <= b.descriptor.limits.maxPayload
  }

  lemma DeliveryIsItsOwn<S>(b: Bench<S>, errors: U32, w: L.World<S>, port: string, text: Hex.Text, index: nat, batch: Batch)
    returns (more: seq<Record.Event>)
    requires Deliverable(b, port, text, index, batch)
    ensures var t := Delivers(b, errors, w, port, text);
      && t.world.trace == w.trace + more
      && HandedOver(more, b.guest.codec.encode(batch), L.PROCESS_SIGNALS, [AsI32(index)])
      && t.reply == Shown(ShownFor(Deliver(port, text), EndingOf(more)))
  {
    more := HandLeaves(b.guest, w, b.guest.codec.encode(batch), L.PROCESS_SIGNALS, [AsI32(index)]);
    AnswersReadBack(EndingOf(more));
  }

  lemma HttpIsItsOwn<S>(b: Bench<S>, errors: U32, w: L.World<S>, req: U32, code: I32, body: Hex.Text) returns (more: seq<Record.Event>)
    requires Hex.Unhex(body).Decoded? && b.guest.engine.hasExport(w.inner, L.ON_HTTP)
    ensures var t := Transition(b, Running(errors), w, Http(req, code, body));
      && t.world.trace == w.trace + more
      && HandedOver(more, Hex.Unhex(body).bytes, L.ON_HTTP, [AsI32(req), code])
      && t.reply == Shown(ShownFor(Http(req, code, body), EndingOf(more)))
  {
    more := HandLeaves(b.guest, w, Hex.Unhex(body).bytes, L.ON_HTTP, [AsI32(req), code]);
    AnswersReadBack(EndingOf(more));
  }

  /** The callbacks that carry no payload, with their arguments. */
  function PlainArgs(action: Action): Option<seq<I32>> {
    match action
    case Start => Some([])
    case Timer(id) => Some([AsI32(id)])
    case Gpio(watch, value) => Some([AsI32(watch), value])
    case Stop => Some([])
    case _ => None
  }

  /** A callback without a payload is the step's one engine call; one the guest does not export is its death. */
  lemma PlainIsItsOwn<S>(b: Bench<S>, stage: Stage, w: L.World<S>, action: Action)
    requires PlainArgs(action).Some?
    requires if action.Start? then stage.Configured? else stage.Running?
    ensures
      var t := Transition(b, stage, w, action);
      if action.Start? || action.Stop? || b.guest.engine.hasExport(w.inner, CallbackOf(action)) then
        exists answer ::
          && t.world.trace == w.trace + [Record.Event(Record.Call(CallbackOf(action), PlainArgs(action).value), Record.Called(answer))]
          && t.reply == Shown(ShownFor(action, EndingOfCall(answer)))
      else t.world == w && t.reply == Shown(BLANK.(dead := Some(Record.TrapEngine)))
  {
    var fn, args := CallbackOf(action), PlainArgs(action).value;
    var called := L.Enter(b.guest, w, fn, args);
    if called.answer.Ok? {
      Status.StatusRoundTrips(called.answer.value);
    }
    assert called.world.trace == w.trace + [Record.Event(Record.Call(fn, args), Record.Called(called.answer))];
  }

  /** Nothing beyond what the descriptor published reaches the guest, and nothing within it is refused. */
  lemma LimitsAreExact<S>(b: Bench<S>, errors: U32, w: L.World<S>, port: string, text: Hex.Text, index: nat, batch: Batch)
    requires Position(b.descriptor.inputs, port) == Some(index)
    requires Hex.Unhex(text).Decoded? && b.guest.codec.decode(Hex.Unhex(text).bytes) == Some(batch)
    ensures var reply := Delivers(b, errors, w, port, text).reply;
      && reply.Shown?
      && (reply.observed.refused.None? <==> Deliverable(b, port, text, index, batch))
      && (reply.observed.refused == Some(BatchRefusal) <==> |batch.signals| > b.descriptor.limits.maxBatch)
  {
  }

  /** A delivery is refused before the guest hears of it, and never for its port: that is found by name. */
  lemma RefusalsTouchNothing<S>(b: Bench<S>, stage: Stage, w: L.World<S>, action: Action)
    requires Transition(b, stage, w, action).reply.Shown?
    requires Transition(b, stage, w, action).reply.observed.refused.Some?
    ensures Transition(b, stage, w, action).world == w && Transition(b, stage, w, action).stage == stage
    ensures Transition(b, stage, w, action).reply.observed.refused != Some(PortRefusal)
    ensures action.Deliver? && stage.Running?
  {
  }

  /** Nothing follows a stop, a death or a rejection: every later step complains, and asks the guest nothing. */
  lemma {:induction false} NothingFollowsTheEnd<S>(b: Bench<S>, stage: Stage, w: L.World<S>, steps: seq<Step>)
    requires stage.Stopped? || stage.Gone?
    ensures var ran := RunOf(b, stage, w, steps);
      && ran.stage == stage && ran.world == w.(inner := ran.world.inner)
      && forall i :: 0 <= i < |ran.replies| ==> ran.replies[i].Complained?
    decreases steps
  {
    if steps != [] {
      NothingFollowsTheEnd(b, stage, w, steps[..|steps| - 1]);
      var before := RunOf(b, stage, w, steps[..|steps| - 1]);
      EndedStep(b, before.stage, before.world, steps[|steps| - 1]);
    }
  }

  lemma EndedStep<S>(b: Bench<S>, stage: Stage, w: L.World<S>, step: Step)
    requires stage.Stopped? || stage.Gone?
    ensures var t := Stepped(b, stage, w, step);
      t.stage == stage && t.world == w.(inner := t.world.inner) && !t.reply.Shown?
  {
  }

  /** Everything the steps were shown, put back together. */
  function Collected(replies: seq<Reply>): Heard {
    if replies == [] then SILENCE
    else
      var before := Collected(replies[..|replies| - 1]);
      match replies[|replies| - 1]
      case Shown(observed) => before.Plus(observed.heard)
      case _ => before
  }

  function CallsOf(replies: seq<Reply>): seq<string> {
    if replies == [] then []
    else
      CallsOf(replies[..|replies| - 1]) +
      match replies[|replies| - 1]
      case Shown(observed) => observed.calls
      case _ => []
  }

  lemma NamesConcat(a: seq<Record.HostCall>, b: seq<Record.HostCall>)
    ensures NamesOf(a + b) == NamesOf(a) + NamesOf(b)
  {
  }

  /** A step shows exactly what was heard and called while it ran. */
  ghost predicate Shows<S>(w: L.World<S>, t: Turn<S>) {
    && t.world.pending == SILENCE
    && match t.reply
       case Shown(observed) =>
         t.world.total == w.total.Plus(observed.heard) && NamesOf(t.world.calls) == NamesOf(w.calls) + observed.calls
       case _ => t.world.total == w.total && t.world.calls == w.calls
  }

  lemma FinishShows<S>(ready: L.World<S>, t: Turn<S>)
    requires ready.pending == SILENCE && L.Kept(ready.total, ready.calls, t.world)
    requires !t.reply.Shown? ==> t.world == ready
    ensures Shows(ready, Finish(ready, t))
  {
    var more := t.world.calls[|ready.calls|..];
    NamesConcat(ready.calls, more);
    assert t.world.calls == ready.calls + more;
  }

  lemma KeptAtRest<S>(w: L.World<S>)
    requires w.pending == SILENCE
    ensures L.Kept(w.total, w.calls, w)
  {
    PlusIsAssociative(w.total, SILENCE, SILENCE);
  }

  lemma TransitionShows<S>(b: Bench<S>, stage: Stage, ready: L.World<S>, action: Action)
    requires ready.pending == SILENCE
    ensures |ready.calls| <= |Transition(b, stage, ready, action).world.calls|
    ensures Shows(ready, Finish(ready, Transition(b, stage, ready, action)))
  {
    KeptAtRest(ready);
    TransitionKeeps(ready.total, ready.calls, b, stage, ready, action);
    if !Transition(b, stage, ready, action).reply.Shown? {
      PanicsAskNothing(b, stage, ready, action);
    }
    FinishShows(ready, Transition(b, stage, ready, action));
  }

  lemma StepShowsItsOwn<S>(b: Bench<S>, stage: Stage, w: L.World<S>, step: Step)
    requires w.pending == SILENCE
    ensures Shows(w, Stepped(b, stage, w, step))
  {
    var (inner, scripting) := Queue(b, w.inner, step.script);
    var ready := w.(inner := inner);
    if scripting.Queued? {
      TransitionShows(b, stage, ready, step.action);
      ShowsFrom(w, ready, Finish(ready, Transition(b, stage, ready, step.action)));
    }
  }

  /** Scripting an answer is not something a guest did. */
  lemma ShowsFrom<S>(w: L.World<S>, ready: L.World<S>, t: Turn<S>)
    requires ready == w.(inner := ready.inner) && Shows(ready, t)
    ensures Shows(w, t)
  {
  }

  /** A run has shown everything since `w`. */
  ghost predicate AllShown<S>(w: L.World<S>, ran: Ran<S>) {
    && ran.world.pending == SILENCE
    && ran.world.total == w.total.Plus(Collected(ran.replies))
    && NamesOf(ran.world.calls) == NamesOf(w.calls) + CallsOf(ran.replies)
  }

  lemma NothingShownYet<S>(w: L.World<S>, stage: Stage)
    requires w.pending == SILENCE
    ensures AllShown(w, Ran(stage, w, [], false))
  {
    KeptAtRest(w);
  }

  /** Joining one more step's own to everything before it. */
  lemma JoinedTotals(start: Heard, replies: seq<Reply>, reply: Reply)
    ensures start.Plus(Collected(replies + [reply]))
      == if reply.Shown? then start.Plus(Collected(replies)).Plus(reply.observed.heard) else start.Plus(Collected(replies))
  {
    assert (replies + [reply])[..|replies|] == replies;
    if reply.Shown? {
      PlusIsAssociative(start, Collected(replies), reply.observed.heard);
    }
  }

  lemma JoinedCalls(start: seq<string>, replies: seq<Reply>, reply: Reply)
    ensures start + CallsOf(replies + [reply])
      == start + CallsOf(replies) + if reply.Shown? then reply.observed.calls else []
  {
    assert (replies + [reply])[..|replies|] == replies;
  }

  lemma ShownGrows<S>(w: L.World<S>, before: Ran<S>, last: Turn<S>)
    requires AllShown(w, before) && Shows(before.world, last)
    ensures AllShown(w, Onward(before.replies, last))
  {
    JoinedTotals(w.total, before.replies, last.reply);
    JoinedCalls(NamesOf(w.calls), before.replies, last.reply);
  }

  /**
   * Nothing is lost, and nothing is shown twice: what the steps were shown, joined in order, is all
   * that was heard from the guest and all the calls it made, evaluations included.
   */
  lemma {:induction false} NothingIsLost<S>(b: Bench<S>, stage: Stage, w: L.World<S>, steps: seq<Step>)
    requires w.pending == SILENCE
    ensures AllShown(w, RunOf(b, stage, w, steps))
    decreases steps
  {
    if steps == [] {
      NothingShownYet(w, stage);
    } else {
      var front := steps[..|steps| - 1];
      NothingIsLost(b, stage, w, front);
      var before := RunOf(b, stage, w, front);
      if !before.panicked {
        StepShowsItsOwn(b, before.stage, before.world, steps[|steps| - 1]);
        ShownGrows(w, before, Stepped(b, before.stage, before.world, steps[|steps| - 1]));
      }
    }
  }

  function Errors(stage: Stage): Option<U32> {
    match stage
    case Configured(errors) => Some(errors)
    case Running(errors) => Some(errors)
    case Stopped(errors) => Some(errors)
    case _ => None
  }

  predicate IsFailure(reply: Reply) {
    reply.Shown? && reply.observed.status.Some? && reply.observed.status.value != 0
  }

  function FailuresIn(replies: seq<Reply>): nat {
    if replies == [] then 0
    else FailuresIn(replies[..|replies| - 1]) + if IsFailure(replies[|replies| - 1]) then 1 else 0
  }

  function Saturated(n: nat): U32 {
    if n > 0xFFFF_FFFF then 0xFFFF_FFFF else n
  }

  lemma HandedStatusIsHonest<S>(g: L.Guest<S>, w: L.World<S>, bytes: seq<Byte>, fn: string, leading: seq<I32>)
    ensures var handed := L.Hand(g, w, bytes, fn, leading).answer;
      handed.Took? ==> (handed.status.Fine? <==> handed.status.AsI32() == 0)
  {
    var placed := L.Place(g, w, bytes);
    if placed.answer.Placed? {
      var called := L.Enter(g, placed.world, fn, leading + [AsI32(placed.answer.ptr), AsI32(|bytes|)]);
      if called.answer.Ok? {
        Status.StatusRoundTrips(called.answer.value);
      }
    }
  }

  lemma CallbackStatusIsHonest<S>(g: L.Guest<S>, w: L.World<S>, errors: U32, fn: string, args: seq<I32>)
    ensures var living := L.Callback(g, w, errors, fn, args).answer;
      living.Lived? ==> (living.status.Fine? <==> living.status.AsI32() == 0)
  {
    var called := L.Enter(g, w, fn, args);
    if called.answer.Ok? {
      Status.StatusRoundTrips(called.answer.value);
    }
  }

  /** One turn moves the count by the failure it shows, and by nothing else. */
  ghost predicate Counts<S>(stage: Stage, t: Turn<S>) {
    && (t.stage.Fresh? ==> stage.Fresh? && !IsFailure(t.reply))
    && (Errors(t.stage).Some? && Errors(stage).None? ==> stage.Fresh? && Errors(t.stage) == Some(0) && !IsFailure(t.reply))
    && (Errors(t.stage).Some? && Errors(stage).Some? ==>
          Errors(t.stage) == Some(Saturated(Errors(stage).value + if IsFailure(t.reply) then 1 else 0)))
  }

  lemma DeliveryCounts<S>(b: Bench<S>, errors: U32, w: L.World<S>, port: string, text: Hex.Text)
    ensures Counts(Running(errors), Delivers(b, errors, w, port, text))
  {
    var index, bytes := Position(b.descriptor.inputs, port), Hex.Unhex(text);
    if index.Some? && bytes.Decoded? && b.guest.codec.decode(bytes.bytes).Some? {
      var encoded := b.guest.codec.encode(b.guest.codec.decode(bytes.bytes).value);
      HandedStatusIsHonest(b.guest, w, encoded, L.PROCESS_SIGNALS, [AsI32(index.value)]);
    }
  }

  lemma TransitionCounts<S>(b: Bench<S>, stage: Stage, w: L.World<S>, action: Action)
    ensures Counts(stage, Transition(b, stage, w, action))
  {
    match (action, stage)
    case (Start, Configured(errors)) => CallbackStatusIsHonest(b.guest, w, errors, L.START, []);
    case (Deliver(port, text), Running(errors)) => DeliveryCounts(b, errors, w, port, text);
    case (Timer(id), Running(errors)) => CallbackStatusIsHonest(b.guest, w, errors, L.ON_TIMER, [AsI32(id)]);
    case (Gpio(watch, value), Running(errors)) =>
      CallbackStatusIsHonest(b.guest, w, errors, L.ON_GPIO, [AsI32(watch), value]);
    case (Http(req, code, body), Running(errors)) =>
      if Hex.Unhex(body).Decoded? {
        HandedStatusIsHonest(b.guest, w, Hex.Unhex(body).bytes, L.ON_HTTP, [AsI32(req), code]);
      }
    case (Stop, Running(errors)) => CallbackStatusIsHonest(b.guest, w, errors, L.STOP, []);
    case _ =>
  }

  lemma StepCounts<S>(b: Bench<S>, stage: Stage, w: L.World<S>, step: Step)
    ensures Counts(stage, Stepped(b, stage, w, step))
  {
    var (inner, scripting) := Queue(b, w.inner, step.script);
    var ready := w.(inner := inner);
    if scripting.Queued? {
      TransitionCounts(b, stage, ready, step.action);
      CallsOnlyGrow(b, stage, ready, step.action);
      FinishCounts(stage, ready, Transition(b, stage, ready, step.action));
    }
  }

  lemma FinishCounts<S>(stage: Stage, ready: L.World<S>, t: Turn<S>)
    requires |ready.calls| <= |t.world.calls| && Counts(stage, t)
    ensures Counts(stage, Finish(ready, t))
  {
  }

  /** The count a surviving instance carries, against what its run was shown from the start. */
  ghost predicate Tallied(stage: Stage, replies: seq<Reply>) {
    && (stage.Fresh? ==> FailuresIn(replies) == 0)
    && (Errors(stage).Some? ==> Errors(stage).value == Saturated(FailuresIn(replies)))
  }

  lemma TallyGrows<S>(stage: Stage, replies: seq<Reply>, t: Turn<S>)
    requires Tallied(stage, replies) && Counts(stage, t)
    ensures Tallied(Onward(replies, t).stage, Onward(replies, t).replies)
  {
    assert (replies + [t.reply])[..|replies|] == replies;
  }

  /** The count an instance carries is the number of failures its run was shown, up to where it saturates. */
  lemma {:induction false} EveryFailureIsCounted<S>(b: Bench<S>, w: L.World<S>, steps: seq<Step>)
    ensures Tallied(RunOf(b, Fresh, w, steps).stage, RunOf(b, Fresh, w, steps).replies)
    decreases steps
  {
    if steps != [] {
      var front := steps[..|steps| - 1];
      EveryFailureIsCounted(b, w, front);
      var before := RunOf(b, Fresh, w, front);
      if !before.panicked {
        StepCounts(b, before.stage, before.world, steps[|steps| - 1]);
        TallyGrows(before.stage, before.replies, Stepped(b, before.stage, before.world, steps[|steps| - 1]));
      }
    }
  }

  // Which scenarios panic.

  /** Reading this text as hex panics: its first pair that is no byte cuts a character in two. */
  ghost predicate Cuts(text: Hex.Text) {
    |text| % 2 == 0 && exists i: nat :: Hex.FirstCut(text, 0, i)
  }

  /** A scripted entry that is a value and nothing else. */
  predicate OnlyAValue(s: Scripted) {
    s.value.Some? && s.id.None? && s.raw.None? && s.error.None?
  }

  /** Entry `k` is reached, and its text cuts. */
  ghost predicate ScriptCutsAt(script: seq<Scripted>, k: nat) {
    && k < |script| && OnlyAValue(script[k]) && Cuts(script[k].value.value)
    && forall j :: 0 <= j < k ==> AnswerOf(script[j]).Queued?
  }

  predicate ScriptQueues(script: seq<Scripted>) {
    forall j :: 0 <= j < |script| ==> AnswerOf(script[j]).Queued?
  }

  /** Only a running instance's payload is read, and a delivery's only once its port was found. */
  ghost predicate ActionCuts<S>(b: Bench<S>, stage: Stage, action: Action) {
    && stage.Running?
    && match action
       case Deliver(port, batch) => port in b.descriptor.inputs && Cuts(batch)
       case Http(_, _, body) => Cuts(body)
       case _ => false
  }

  ghost predicate StepCuts<S>(b: Bench<S>, stage: Stage, step: Step) {
    || (exists k: nat :: ScriptCutsAt(step.script, k))
    || (ScriptQueues(step.script) && ActionCuts(b, stage, step.action))
  }

  lemma TextPanicsExactly(text: Hex.Text)
    ensures Hex.Unhex(text).Panicked? <==> Cuts(text)
  {
    Hex.SlicingPanicsExactly(text);
  }

  lemma {:induction false} ScriptPanicsExactly<S>(b: Bench<S>, inner: S, script: seq<Scripted>)
    ensures Queue(b, inner, script).1.Cut? <==> exists k: nat :: ScriptCutsAt(script, k)
    ensures Queue(b, inner, script).1.Queued? <==> ScriptQueues(script)
    decreases script
  {
    if script != [] {
      var first, rest := script[0], script[1..];
      if first.value.Some? {
        TextPanicsExactly(first.value.value);
      }
      match AnswerOf(first)
      case Cut => assert ScriptCutsAt(script, 0);
      case Misscripted(_) =>
      case Queued(answer) =>
        ScriptPanicsExactly(b, b.scripted(inner, first.fn, answer), rest);
        assert ScriptQueues(script) <==> ScriptQueues(rest) by {
          assert forall j :: 0 < j < |script| ==> script[j] == rest[j - 1];
        }
        if k: nat :| ScriptCutsAt(script, k) {
          assert ScriptCutsAt(rest, k - 1);
        }
        if k: nat :| ScriptCutsAt(rest, k) {
          var next := k + 1;
          assert ScriptCutsAt(script, next);
        }
    }
  }

  /** What a scripted entry says, as it was written: one of its four fields, and no other. */
  ghost predicate Says(entry: Scripted, answer: Capability.Answer) {
    match answer
    case Value(bytes) =>
      && entry == Scripted(entry.fn, entry.value, None, None, None)
      && entry.value.Some? && Hex.Spells(entry.value.value, bytes)
    case Id(id) => entry == Scripted(entry.fn, None, Some(id), None, None)
    case Raw(raw) => entry == Scripted(entry.fn, None, None, Some(raw), None)
    case Error(code) => entry == Scripted(entry.fn, None, None, None, Some(code))
  }

  /** From state to state, the host was told what each of the first entries says, in order. */
  ghost predicate Tells<S>(b: Bench<S>, script: seq<Scripted>, states: seq<S>) {
    && 1 <= |states| <= |script| + 1
    && forall i :: 0 <= i < |states| - 1 ==> TellsAt(b, script[i], states, i)
  }

  ghost predicate TellsAt<S>(b: Bench<S>, entry: Scripted, states: seq<S>, i: nat)
    requires i + 1 < |states|
  {
    exists answer :: Says(entry, answer) && states[i + 1] == b.scripted(states[i], entry.fn, answer)
  }

  lemma AnswersAreSaid(entry: Scripted)
    ensures AnswerOf(entry).Queued? ==> Says(entry, AnswerOf(entry).value)
    ensures AnswerOf(entry).Misscripted? && AnswerOf(entry).complaint == Check.BadScript ==> forall answer :: !Says(entry, answer)
  {
    if entry.value.Some? && Hex.Unhex(entry.value.value).Decoded? {
      Hex.UnhexReadsSpellings(entry.value.value, Hex.Unhex(entry.value.value).bytes);
    }
  }

  /** Every answer reaches the host as it was written and in its order, up to the first entry that says none. */
  lemma {:induction false} ScriptReachesTheHost<S>(b: Bench<S>, inner: S, script: seq<Scripted>) returns (states: seq<S>)
    ensures Tells(b, script, states) && states[0] == inner && states[|states| - 1] == Queue(b, inner, script).0
    ensures |states| == |script| + 1 <==> Queue(b, inner, script).1.Queued?
    ensures |states| <= |script| ==> !AnswerOf(script[|states| - 1]).Queued?
    decreases script
  {
    states := [inner];
    if script != [] && AnswerOf(script[0]).Queued? {
      AnswersAreSaid(script[0]);
      var answer := AnswerOf(script[0]).value;
      var next := b.scripted(inner, script[0].fn, answer);
      var rest := ScriptReachesTheHost(b, next, script[1..]);
      states := [inner] + rest;
      assert states[0 + 1] == next;
      assert TellsAt(b, script[0], states, 0);
      forall i | 0 < i < |states| - 1 ensures TellsAt(b, script[i], states, i) {
        var j: nat := i - 1;
        assert TellsAt(b, script[1..][j], rest, j);
        assert states[j + 1] == rest[j] && states[i + 1] == rest[j + 1] && script[1..][j] == script[i];
      }
    }
  }

  lemma ActionPanicsExactly<S>(b: Bench<S>, stage: Stage, w: L.World<S>, action: Action)
    ensures Transition(b, stage, w, action).reply.Panicked? <==> ActionCuts(b, stage, action)
  {
    match action
    case Deliver(_, batch) => TextPanicsExactly(batch);
    case Http(_, _, body) => TextPanicsExactly(body);
    case _ =>
  }

  /** Exactly which steps panic, and they do it before the guest is asked for anything. */
  lemma StepPanicsExactly<S>(b: Bench<S>, stage: Stage, w: L.World<S>, step: Step)
    ensures Stepped(b, stage, w, step).reply.Panicked? <==> StepCuts(b, stage, step)
    ensures Stepped(b, stage, w, step).reply.Panicked? ==>
      Stepped(b, stage, w, step).world == w.(inner := Stepped(b, stage, w, step).world.inner)
  {
    ScriptPanicsExactly(b, w.inner, step.script);
    var (inner, scripting) := Queue(b, w.inner, step.script);
    if scripting.Queued? {
      ActionPanicsExactly(b, stage, w.(inner := inner), step.action);
      PanicsAskNothing(b, stage, w.(inner := inner), step.action);
    }
  }

  /** Step `k` is reached, and it panics there. */
  ghost predicate PanicsAt<S>(b: Bench<S>, stage: Stage, w: L.World<S>, steps: seq<Step>, k: nat) {
    && k < |steps| && !RunOf(b, stage, w, steps[..k]).panicked
    && StepCuts(b, RunOf(b, stage, w, steps[..k]).stage, steps[k])
  }

  lemma LastStepPanics<S>(b: Bench<S>, stage: Stage, w: L.World<S>, steps: seq<Step>)
    requires steps != []
    ensures var before := RunOf(b, stage, w, steps[..|steps| - 1]);
      RunOf(b, stage, w, steps).panicked <==> before.panicked || StepCuts(b, before.stage, steps[|steps| - 1])
  {
    var before := RunOf(b, stage, w, steps[..|steps| - 1]);
    StepPanicsExactly(b, before.stage, before.world, steps[|steps| - 1]);
  }

  lemma {:induction false} PanicsSomewhere<S>(b: Bench<S>, stage: Stage, w: L.World<S>, steps: seq<Step>) returns (k: nat)
    requires RunOf(b, stage, w, steps).panicked
    ensures PanicsAt(b, stage, w, steps, k)
    decreases steps
  {
    k := |steps| - 1;
    LastStepPanics(b, stage, w, steps);
    if RunOf(b, stage, w, steps[..k]).panicked {
      var n := k;
      k := PanicsSomewhere(b, stage, w, steps[..n]);
      assert steps[..n][..k] == steps[..k];
    }
  }

  lemma PanickingEnds<S>(b: Bench<S>, stage: Stage, w: L.World<S>, steps: seq<Step>, k: nat)
    requires PanicsAt(b, stage, w, steps, k)
    ensures RunOf(b, stage, w, steps).panicked
  {
    LastStepPanics(b, stage, w, steps[..k + 1]);
    assert steps[..k + 1][..k] == steps[..k];
    PanicsStand(b, stage, w, steps, k + 1);
  }

  /** Exactly which scenarios panic: those with a step that does, from the stage the steps before it led to. */
  lemma RunPanicsExactly<S>(b: Bench<S>, stage: Stage, w: L.World<S>, steps: seq<Step>)
    ensures RunOf(b, stage, w, steps).panicked <==> exists k: nat :: PanicsAt(b, stage, w, steps, k)
  {
    if RunOf(b, stage, w, steps).panicked {
      var k := PanicsSomewhere(b, stage, w, steps);
    }
    forall k: nat | PanicsAt(b, stage, w, steps, k) ensures RunOf(b, stage, w, steps).panicked {
      PanickingEnds(b, stage, w, steps, k);
    }
  }

  predicate AsciiStep(step: Step) {
    && (step.action.Deliver? ==> Hex.Ascii(step.action.batch))
    && (step.action.Http? ==> Hex.Ascii(step.action.body))
    && forall i :: 0 <= i < |step.script| ==> (step.script[i].value.Some? ==> Hex.Ascii(step.script[i].value.value))
  }

  /** A scenario written in ASCII panics against no guest. */
  lemma AsciiScenariosNeverPanic<S>(b: Bench<S>, stage: Stage, w: L.World<S>, steps: seq<Step>)
    requires forall i :: 0 <= i < |steps| ==> AsciiStep(steps[i])
    ensures !RunOf(b, stage, w, steps).panicked
  {
    RunPanicsExactly(b, stage, w, steps);
    forall k: nat ensures !PanicsAt(b, stage, w, steps, k) {
      if k < |steps| {
        AsciiStepsDoNotCut(b, RunOf(b, stage, w, steps[..k]).stage, steps[k]);
      }
    }
  }

  lemma AsciiStepsDoNotCut<S>(b: Bench<S>, stage: Stage, step: Step)
    requires AsciiStep(step)
    ensures !StepCuts(b, stage, step)
  {
    forall text: Hex.Text | Hex.Ascii(text) ensures !Cuts(text) {
      Hex.SlicingPanicsExactly(text);
    }
  }

  // Where a run stands: the stage, told from what was shown and from what was asked of the guest.

  function PhaseOf(stage: Stage): L.Phase
    requires !stage.Gone?
  {
    match stage
    case Fresh => L.New
    case Configured(_) => L.Ready
    case Running(_) => L.Live
    case Stopped(_) => L.Over
  }

  /** What a stage may be asked for. */
  predicate Offered(stage: Stage, action: Action) {
    match action
    case Configure => stage.Fresh?
    case Start => stage.Configured?
    case _ => stage.Running?
  }

  /** What is wrong with a payload's text, when something is. */
  function Unreadable<S>(b: Bench<S>, action: Action): Option<Check.Complaint> {
    match action
    case Deliver(port, text) =>
      if port !in b.descriptor.inputs then Some(Check.NoInputPort)
      else (match Hex.Unhex(text)
            case Decoded(bytes) => if b.guest.codec.decode(bytes).None? then Some(Check.NotCanonical) else None
            case _ => Some(Check.NotHex))
    case Http(_, _, text) => if Hex.Unhex(text).Decoded? then None else Some(Check.NotHex)
    case _ => None
  }

  /** An action is complained of exactly when its stage does not offer it or its text cannot be read, and for that. */
  lemma OfferedIsShown<S>(b: Bench<S>, stage: Stage, w: L.World<S>, action: Action)
    ensures var reply := Transition(b, stage, w, action).reply;
      if !Offered(stage, action) then reply == Complained(Check.NotATransition)
      else if ActionCuts(b, stage, action) then reply.Panicked?
      else if Unreadable(b, action).Some? then reply == Complained(Unreadable(b, action).value)
      else reply.Shown?
  {
    ActionPanicsExactly(b, stage, w, action);
  }

  /** The end of an instance: it died, it was rejected, or its driver was dropped over a text that could not be read. */
  predicate Ends(reply: Reply) {
    match reply
    case Shown(observed) => observed.dead.Some? || observed.rejected.Some?
    case Complained(complaint) => complaint != Check.NotATransition
    case Panicked => true
  }

  /** Where an action leads, told from what came of it. */
  predicate Leads(stage: Stage, action: Action, reply: Reply, next: Stage) {
    if Ends(reply) then next.Gone?
    else if reply.Complained? then next == stage
    else match action
      case Configure => next.Configured?
      case Start => if reply.observed.status == Some(0) then next.Running? else next.Configured?
      case Stop => next.Stopped?
      case _ => next.Running?
  }

  lemma TransitionLeads<S>(b: Bench<S>, stage: Stage, w: L.World<S>, action: Action)
    ensures var t := Transition(b, stage, w, action); Leads(stage, action, t.reply, t.stage)
  {
    if action.Start? && stage.Configured? {
      CallbackStatusIsHonest(b.guest, w, stage.errors, L.START, []);
    }
  }

  /** A step ends the instance when its action does; a script that cannot be read leaves it where it was. */
  predicate EndsIn(step: Step, reply: Reply) {
    ScriptQueues(step.script) && Ends(reply)
  }

  lemma StepLeads<S>(b: Bench<S>, stage: Stage, w: L.World<S>, step: Step)
    ensures var t := Stepped(b, stage, w, step);
      if ScriptQueues(step.script) then Leads(stage, step.action, t.reply, t.stage) else t.stage == stage
  {
    ScriptPanicsExactly(b, w.inner, step.script);
    var (inner, scripting) := Queue(b, w.inner, step.script);
    if scripting.Queued? {
      TransitionLeads(b, stage, w.(inner := inner), step.action);
    }
  }

  /** The last thing asked of the guest was to stop, and it answered. */
  predicate StoppedLast(trace: seq<Record.Event>) {
    && trace != [] && trace[|trace| - 1].op == Record.Call(L.STOP, [])
    && trace[|trace| - 1].answer.Called? && trace[|trace| - 1].answer.answer.Ok?
  }

  /** Handing a payload over is never stopping. */
  lemma HandedIsNotStopped<S>(g: L.Guest<S>, w: L.World<S>, bytes: seq<Byte>, fn: string, leading: seq<I32>)
    requires fn != L.STOP && !StoppedLast(w.trace)
    ensures !StoppedLast(L.Hand(g, w, bytes, fn, leading).world.trace)
  {
    var more := HandLeaves(g, w, bytes, fn, leading);
  }

  lemma DeliveryIsNotStopped<S>(b: Bench<S>, errors: U32, w: L.World<S>, port: string, text: Hex.Text)
    requires !StoppedLast(w.trace)
    ensures !StoppedLast(Delivers(b, errors, w, port, text).world.trace)
  {
    var index, bytes := Position(b.descriptor.inputs, port), Hex.Unhex(text);
    if index.Some? && bytes.Decoded? && b.guest.codec.decode(bytes.bytes).Some? {
      var encoded := b.guest.codec.encode(b.guest.codec.decode(bytes.bytes).value);
      HandedIsNotStopped(b.guest, w, encoded, L.PROCESS_SIGNALS, [AsI32(index.value)]);
    }
  }

  lemma TransitionStops<S>(b: Bench<S>, stage: Stage, w: L.World<S>, action: Action)
    requires Agrees(stage, w.trace) && (StoppedLast(w.trace) <==> stage.Stopped?)
    ensures var t := Transition(b, stage, w, action); StoppedLast(t.world.trace) <==> t.stage.Stopped?
  {
    match (action, stage)
    case (Configure, Fresh) => HandedIsNotStopped(b.guest, w, b.descriptor.encoded, L.CONFIGURE, []);
    case (Deliver(port, text), Running(errors)) => DeliveryIsNotStopped(b, errors, w, port, text);
    case (Http(req, code, body), Running(_)) =>
      if Hex.Unhex(body).Decoded? {
        HandedIsNotStopped(b.guest, w, Hex.Unhex(body).bytes, L.ON_HTTP, [AsI32(req), code]);
      }
    case _ =>
  }

  lemma StepStops<S>(b: Bench<S>, stage: Stage, w: L.World<S>, step: Step)
    requires Agrees(stage, w.trace) && (StoppedLast(w.trace) <==> stage.Stopped?)
    ensures var t := Stepped(b, stage, w, step); StoppedLast(t.world.trace) <==> t.stage.Stopped?
  {
    var (inner, scripting) := Queue(b, w.inner, step.script);
    if scripting.Queued? {
      TransitionStops(b, stage, w.(inner := inner), step.action);
    }
  }

  /** Some finished step ended the instance. */
  predicate EndedBy(steps: seq<Step>, replies: seq<Reply>)
    requires |replies| <= |steps|
  {
    exists i :: 0 <= i < |replies| && EndsIn(steps[i], replies[i])
  }

  /** Where a run stands, in three ways that agree: its stage, what it was shown, and what the guest was asked. */
  ghost predicate Stands(stage: Stage, steps: seq<Step>, replies: seq<Reply>, trace: seq<Record.Event>)
    requires |replies| <= |steps|
  {
    && (stage.Gone? <==> EndedBy(steps, replies))
    && (!stage.Gone? ==> L.Follow(trace) == Some(PhaseOf(stage)))
    && (stage.Stopped? <==> StoppedLast(trace))
  }

  lemma EndedGrows(steps: seq<Step>, replies: seq<Reply>, reply: Reply)
    requires |replies| < |steps|
    ensures EndedBy(steps, replies + [reply]) <==> EndedBy(steps[..|replies|], replies) || EndsIn(steps[|replies|], reply)
  {
    var more := replies + [reply];
    assert more[|replies|] == reply;
    if EndedBy(steps[..|replies|], replies) {
      var i :| 0 <= i < |replies| && EndsIn(steps[..|replies|][i], replies[i]);
      assert EndsIn(steps[i], more[i]);
    }
    if i :| 0 <= i < |more| && EndsIn(steps[i], more[i]) {
      if i < |replies| {
        assert EndsIn(steps[..|replies|][i], replies[i]);
      }
    }
  }

  /**
   * A run that did not panic stands where its guest does. The instance is gone exactly when a step
   * ended it; while it is not, its stage is the guest's own phase; and it is stopped exactly when the
   * last thing asked of it was to stop, and it answered.
   */
  lemma {:induction false} StagesFollowThePhases<S>(b: Bench<S>, w: L.World<S>, steps: seq<Step>)
    requires Agrees(Fresh, w.trace)
    ensures var ran := RunOf(b, Fresh, w, steps);
      !ran.panicked ==> Stands(ran.stage, steps, ran.replies, ran.world.trace)
    decreases steps
  {
    EveryRunIsProper(b, Fresh, w, steps);
    if steps == [] {
      assert !StoppedLast(w.trace);
    } else {
      var n := |steps| - 1;
      var before := RunOf(b, Fresh, w, steps[..n]);
      StagesFollowThePhases(b, w, steps[..n]);
      EveryRunIsProper(b, Fresh, w, steps[..n]);
      if !before.panicked {
        StepLeads(b, before.stage, before.world, steps[n]);
        StepStops(b, before.stage, before.world, steps[n]);
        EndedGrows(steps, before.replies, Stepped(b, before.stage, before.world, steps[n]).reply);
        if before.stage.Gone? {
          GoneStays(b, before.stage, before.world, steps[n]);
        }
      }
    }
  }

  /** Nothing brings an instance back. */
  lemma GoneStays<S>(b: Bench<S>, stage: Stage, w: L.World<S>, step: Step)
    requires stage.Gone?
    ensures Stepped(b, stage, w, step).stage.Gone?
  {
  }

  const SILENT := Expect(None, None, None, None, None, None, None, None, None, None)

  /** One scenario that panics, whatever the guest: a scripted value with a two-byte character at an odd offset. */
  lemma AScenarioPanics<S>(b: Bench<S>, w: L.World<S>)
    ensures var text := [97, 0xC3, 0xA9, 98];
      && Utf8.Valid(text)
      && RunOf(b, Fresh, w, [Step(Configure, [Scripted("state_get", Some(text), None, None, None)], SILENT)]).panicked
  {
    Hex.SlicingCanPanic();
    var text: Hex.Text := [97, 0xC3, 0xA9, 98];
    Hex.SlicingPanicsExactly(text);
    var step := Step(Configure, [Scripted("state_get", Some(text), None, None, None)], SILENT);
    assert ScriptCutsAt(step.script, 0);
    StepPanicsExactly(b, Fresh, w, step);
    assert [step][..0] == [];
    RunPanicsExactly(b, Fresh, w, [step]);
    assert PanicsAt(b, Fresh, w, [step], 0);
  }
}
