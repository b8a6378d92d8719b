/** What a step shows of the guest is what the guest did: the walk only drives the bare engine. */
module Driven {
  import opened Common
  import opened Scenario
  import opened Walk
  import Hex
  import L = Lifecycle
  import Record

  /** What the host functions heard while these operations ran. */
  function HeardIn<S>(g: L.Guest<S>, s: S, ops: seq<Record.Op>): Heard {
    if ops == [] then SILENCE
    else
      var front := ops[..|ops| - 1];
      match ops[|ops| - 1]
      case Call(fn, args) => HeardIn(g, s, front).Plus(g.heard(Record.BareRun(g.engine, s, front).0, fn, args))
      case _ => HeardIn(g, s, front)
  }

  /** From `w`, nothing happened but these operations of the bare engine, and all of it was noted. */
  ghost predicate Drives<S>(g: L.Guest<S>, w: L.World<S>, after: L.World<S>, ops: seq<Record.Op>) {
    var run, heard := Record.BareRun(g.engine, w.inner, ops), HeardIn(g, w.inner, ops);
    && after.inner == run.0
    && after.trace == w.trace + Record.TraceOf(ops, run.1)
    && after.calls == w.calls + Record.Known(run.2, g.names)
    && after.pending == w.pending.Plus(heard) && after.total == w.total.Plus(heard)
  }

  lemma NothingDriven<S>(g: L.Guest<S>, w: L.World<S>)
    ensures Drives(g, w, w, [])
  {
    PlusIsAssociative(w.pending, SILENCE, SILENCE);
    PlusIsAssociative(w.total, SILENCE, SILENCE);
  }

  /** The world after one more operation. */
  ghost predicate OneOp<S>(g: L.Guest<S>, w: L.World<S>, after: L.World<S>, op: Record.Op) {
    var bare := Record.Bare(g.engine, w.inner, op);
    var heard := match op case Call(fn, args) => g.heard(w.inner, fn, args) case _ => SILENCE;
    && after.inner == bare.0
    && after.trace == w.trace + [Record.Event(op, bare.1)]
    && after.calls == w.calls + Record.Known(bare.2, g.names)
    && after.pending == w.pending.Plus(heard) && after.total == w.total.Plus(heard)
  }

  lemma RunGrows<S>(g: L.Guest<S>, s: S, ops: seq<Record.Op>, op: Record.Op)
    ensures var run, more := Record.BareRun(g.engine, s, ops), Record.BareRun(g.engine, s, ops + [op]);
      var bare := Record.Bare(g.engine, run.0, op);
      more.0 == bare.0 && more.1 == run.1 + [bare.1] && more.2 == run.2 + bare.2
    ensures HeardIn(g, s, ops + [op]) == HeardIn(g, s, ops).Plus(
      match op case Call(fn, args) => g.heard(Record.BareRun(g.engine, s, ops).0, fn, args) case _ => SILENCE)
  {
    assert (ops + [op])[..|ops|] == ops;
    PlusIsAssociative(HeardIn(g, s, ops), SILENCE, SILENCE);
  }

  lemma TraceGrows(ops: seq<Record.Op>, answers: seq<Record.Answer>, op: Record.Op, answer: Record.Answer)
    requires |ops| == |answers|
    ensures Record.TraceOf(ops + [op], answers + [answer]) == Record.TraceOf(ops, answers) + [Record.Event(op, answer)]
  {
  }

  lemma DrivenGrows<S>(g: L.Guest<S>, w: L.World<S>, mid: L.World<S>, after: L.World<S>, ops: seq<Record.Op>, op: Record.Op)
    requires Drives(g, w, mid, ops) && OneOp(g, mid, after, op)
    ensures Drives(g, w, after, ops + [op])
  {
    var run := Record.BareRun(g.engine, w.inner, ops);
    var bare := Record.Bare(g.engine, run.0, op);
    var heard := match op case Call(fn, args) => g.heard(run.0, fn, args) case _ => SILENCE;
    RunGrows(g, w.inner, ops, op);
    TraceGrows(ops, run.1, op, bare.1);
    Regroup(w.trace, Record.TraceOf(ops, run.1), [Record.Event(op, bare.1)]);
    Record.KnownConcat(run.2, bare.2, g.names);
    Regroup(w.calls, Record.Known(run.2, g.names), Record.Known(bare.2, g.names));
    PlusIsAssociative(w.pending, HeardIn(g, w.inner, ops), heard);
    PlusIsAssociative(w.total, HeardIn(g, w.inner, ops), heard);
  }

  lemma EnterIsOneOp<S>(g: L.Guest<S>, w: L.World<S>, fn: string, args: seq<I32>)
    ensures OneOp(g, w, L.Enter(g, w, fn, args).world, Record.Call(fn, args))
  {
  }

  lemma PlaceDrives<S>(g: L.Guest<S>, w: L.World<S>, bytes: seq<Byte>) returns (ops: seq<Record.Op>)
    ensures Drives(g, w, L.Place(g, w, bytes).world, ops)
  {
    ops := [];
    NothingDriven(g, w);
    if |bytes| <= 0xFFFF_FFFF {
      var alloc := Record.Call(Record.ALLOC, [AsI32(|bytes|)]);
      var asked := L.Enter(g, w, Record.ALLOC, [AsI32(|bytes|)]);
      EnterIsOneOp(g, w, Record.ALLOC, [AsI32(|bytes|)]);
      DrivenGrows(g, w, w, asked.world, [], alloc);
      ops := [] + [alloc];
      if asked.answer.Ok? && Record.Classify(AsU32(asked.answer.value)) == Record.Accepted {
        var write := Record.Write(AsU32(asked.answer.value), bytes);
        PutIsOneOp(g, asked, bytes);
        DrivenGrows(g, w, asked.world, L.Put(g, asked, bytes).world, ops, write);
        ops := ops + [write];
      }
    }
  }

  lemma PutIsOneOp<S>(g: L.Guest<S>, asked: L.Turned<S, Result<I32, Record.TrapKind>>, bytes: seq<Byte>)
    requires asked.answer.Ok? && Record.Classify(AsU32(asked.answer.value)) == Record.Accepted
    ensures OneOp(g, asked.world, L.Put(g, asked, bytes).world, Record.Write(AsU32(asked.answer.value), bytes))
  {
    PlusIsAssociative(asked.world.pending, SILENCE, SILENCE);
    PlusIsAssociative(asked.world.total, SILENCE, SILENCE);
  }

  lemma HandDrives<S>(g: L.Guest<S>, w: L.World<S>, bytes: seq<Byte>, fn: string, leading: seq<I32>) returns (ops: seq<Record.Op>)
    ensures Drives(g, w, L.Hand(g, w, bytes, fn, leading).world, ops)
  {
    ops := PlaceDrives(g, w, bytes);
    var placed := L.Place(g, w, bytes);
    if placed.answer.Placed? {
      var args := leading + [AsI32(placed.answer.ptr), AsI32(|bytes|)];
      EnterIsOneOp(g, placed.world, fn, args);
      DrivenGrows(g, w, placed.world, L.Enter(g, placed.world, fn, args).world, ops, Record.Call(fn, args));
      ops := ops + [Record.Call(fn, args)];
    }
  }

  lemma EnterDrives<S>(g: L.Guest<S>, w: L.World<S>, fn: string, args: seq<I32>) returns (ops: seq<Record.Op>)
    ensures Drives(g, w, L.Enter(g, w, fn, args).world, ops)
  {
    NothingDriven(g, w);
    EnterIsOneOp(g, w, fn, args);
    DrivenGrows(g, w, w, L.Enter(g, w, fn, args).world, [], Record.Call(fn, args));
    ops := [] + [Record.Call(fn, args)];
  }

  lemma DeliveryDrives<S>(b: Bench<S>, errors: U32, w: L.World<S>, port: string, text: Hex.Text) returns (ops: seq<Record.Op>)
    ensures Drives(b.guest, w, Delivers(b, errors, w, port, text).world, ops)
  {
    NothingDriven(b.guest, w);
    ops := [];
    var index, bytes := Position(b.descriptor.inputs, port), Hex.Unhex(text);
    if index.Some? && bytes.Decoded? && b.guest.codec.decode(bytes.bytes).Some? {
      var batch := b.guest.codec.decode(bytes.bytes).value;
      if L.Acceptable(b.descriptor, b.guest.codec, index.value, batch).None? {
        ops := HandDrives(b.guest, w, b.guest.codec.encode(batch), L.PROCESS_SIGNALS, [AsI32(index.value)]);
      }
    }
  }

  lemma HttpDrives<S>(b: Bench<S>, errors: U32, w: L.World<S>, req: U32, code: I32, text: Hex.Text) returns (ops: seq<Record.Op>)
    ensures Drives(b.guest, w, Answers(b, errors, w, req, code, text).world, ops)
  {
    NothingDriven(b.guest, w);
    ops := [];
    if Hex.Unhex(text).Decoded? && b.guest.engine.hasExport(w.inner, L.ON_HTTP) {
      ops := HandDrives(b.guest, w, Hex.Unhex(text).bytes, L.ON_HTTP, [AsI32(req), code]);
    }
  }

  lemma OptionalDrives<S>(g: L.Guest<S>, w: L.World<S>, errors: U32, fn: string, args: seq<I32>) returns (ops: seq<Record.Op>)
    ensures Drives(g, w, L.Optional(g, w, errors, fn, args).world, ops)
  {
    NothingDriven(g, w);
    ops := [];
    if g.engine.hasExport(w.inner, fn) {
      ops := EnterDrives(g, w, fn, args);
    }
  }

  lemma LifecycleDrives<S>(b: Bench<S>, stage: Stage, w: L.World<S>, action: Action) returns (ops: seq<Record.Op>)
    requires action.Configure? || action.Start? || action.Stop?
    ensures Drives(b.guest, w, Transition(b, stage, w, action).world, ops)
  {
    NothingDriven(b.guest, w);
    ops := [];
    match (action, stage)
    case (Configure, Fresh) => ops := HandDrives(b.guest, w, b.descriptor.encoded, L.CONFIGURE, []);
    case (Start, Configured(_)) => ops := EnterDrives(b.guest, w, L.START, []);
    case (Stop, Running(_)) => ops := EnterDrives(b.guest, w, L.STOP, []);
    case _ =>
  }

  /** Every action is a run of operations on the bare engine, and what was noted of it is that run's. */
  lemma TransitionDrives<S>(b: Bench<S>, stage: Stage, w: L.World<S>, action: Action) returns (ops: seq<Record.Op>)
    ensures Drives(b.guest, w, Transition(b, stage, w, action).world, ops)
  {
    NothingDriven(b.guest, w);
    ops := [];
    match (action, stage)
    case (Deliver(port, text), Running(errors)) => ops := DeliveryDrives(b, errors, w, port, text);
    case (Timer(id), Running(errors)) => ops := OptionalDrives(b.guest, w, errors, L.ON_TIMER, [AsI32(id)]);
    case (Gpio(watch, value), Running(errors)) => ops := OptionalDrives(b.guest, w, errors, L.ON_GPIO, [AsI32(watch), value]);
    case (Http(req, code, body), Running(errors)) => ops := HttpDrives(b, errors, w, req, code, body);
    case _ =>
      if action.Configure? || action.Start? || action.Stop? {
        ops := LifecycleDrives(b, stage, w, action);
      }
  }

  /** What a step shows of the guest: the calls it made to known host functions, by name, and what they heard. */
  ghost predicate ShowsTheRun<S>(b: Bench<S>, ready: L.World<S>, ops: seq<Record.Op>, observed: Observed) {
    && observed.calls == NamesOf(Record.Known(Record.BareRun(b.guest.engine, ready.inner, ops).2, b.guest.names))
    && observed.heard == HeardIn(b.guest, ready.inner, ops)
  }

  lemma FinishShowsTheRun<S>(b: Bench<S>, ready: L.World<S>, t: Turn<S>, ops: seq<Record.Op>)
    requires Drives(b.guest, ready, t.world, ops) && ready.pending == SILENCE && |ready.calls| <= |t.world.calls|
    ensures Finish(ready, t).world.inner == t.world.inner && Finish(ready, t).world.trace == t.world.trace
    ensures Finish(ready, t).reply.Shown? ==> ShowsTheRun(b, ready, ops, Finish(ready, t).reply.observed)
  {
    PlusIsAssociative(HeardIn(b.guest, ready.inner, ops), SILENCE, SILENCE);
    DropsTheFront(ready.calls, Record.Known(Record.BareRun(b.guest.engine, ready.inner, ops).2, b.guest.names));
  }

  /** What a step did, when it got as far as its action: from the state its script left, one run of the bare engine. */
  ghost predicate IsARun<S>(b: Bench<S>, ready: L.World<S>, t: Turn<S>, ops: seq<Record.Op>) {
    var run := Record.BareRun(b.guest.engine, ready.inner, ops);
    && t.world.inner == run.0 && t.world.trace == ready.trace + Record.TraceOf(ops, run.1)
    && (t.reply.Shown? ==> ShowsTheRun(b, ready, ops, t.reply.observed))
  }

  lemma StepFinishes<S>(b: Bench<S>, stage: Stage, w: L.World<S>, step: Step)
    requires Queue(b, w.inner, step.script).1.Queued?
    ensures var ready := w.(inner := Queue(b, w.inner, step.script).0);
      && |ready.calls| <= |Transition(b, stage, ready, step.action).world.calls|
      && Stepped(b, stage, w, step) == Finish(ready, Transition(b, stage, ready, step.action))
  {
    CallsOnlyGrow(b, stage, w.(inner := Queue(b, w.inner, step.script).0), step.action);
  }

  /** A step shows what its own run of the guest did, and nothing of any other step. */
  lemma StepShowsItsRun<S>(b: Bench<S>, stage: Stage, w: L.World<S>, step: Step) returns (ops: seq<Record.Op>)
    requires w.pending == SILENCE && Queue(b, w.inner, step.script).1.Queued?
    ensures IsARun(b, w.(inner := Queue(b, w.inner, step.script).0), Stepped(b, stage, w, step), ops)
  {
    var ready := w.(inner := Queue(b, w.inner, step.script).0);
    ops := TransitionDrives(b, stage, ready, step.action);
    StepFinishes(b, stage, w, step);
    FinishShowsTheRun(b, ready, Transition(b, stage, ready, step.action), ops);
  }
}
