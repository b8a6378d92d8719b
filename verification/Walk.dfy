/** The walk over a scenario: one guest, one stage, and every step compared with what it observed. */
module Walk {
  import opened Common
  import opened Scenario
  import Capability
  import Check
  import Hex
  import L = Lifecycle
  import Record
  import Status

  /** Where the instance is. A dead or rejected instance is nowhere. */
  datatype Stage = Fresh | Configured(errors: U32) | Running(errors: U32) | Stopped(errors: U32) | Gone

  /** What a run is set up with; `scripted` is how a queued answer changes the host the guest is linked to. */
  datatype Bench<!S> = Bench(
    guest: L.Guest<S>,
    descriptor: Descriptor,
    properties: seq<string>,
    scripted: (S, string, Capability.Answer) -> S)
  {
    function View(): Check.View {
      Check.View(descriptor, properties, guest.codec)
    }
  }

  /**
   * What a step comes to: an observation to compare, a complaint about the scenario, or a panic in
   * reading its text, which ends the whole run.
   */
  datatype Reply = Shown(observed: Observed) | Complained(complaint: Check.Complaint) | Panicked

  datatype Turn<+S> = Turn(stage: Stage, world: L.World<S>, reply: Reply)

  function Position(names: seq<string>, name: string): (at: Option<nat>)
    ensures at.Some? ==> at.value < |names| && names[at.value] == name
    ensures at.None? <==> name !in names
  {
    if names == [] then None
    else if names[0] == name then Some(0)
    else match Position(names[1..], name)
      case Some(i) => Some(i + 1)
      case None => None
  }

  function Living(living: L.Living): (Stage, Observed) {
    match living
    case Lived(errors, status) => (Running(errors), BLANK.(status := Some(status.AsI32())))
    case Died(kind) => (Gone, BLANK.(dead := Some(kind)))
  }

  function Lives<S>(t: L.Turned<S, L.Living>): Turn<S> {
    Turn(Living(t.answer).0, t.world, Shown(Living(t.answer).1))
  }

  function Delivers<S>(b: Bench<S>, errors: U32, w: L.World<S>, port: string, text: Hex.Text): Turn<S> {
    match Position(b.descriptor.inputs, port)
    case None => Turn(Gone, w, Complained(Check.NoInputPort))
    case Some(index) =>
      match Hex.Unhex(text)
      case Panicked => Turn(Gone, w, Panicked)
      case Decoded(bytes) => DeliversBytes(b, errors, w, index, bytes)
      case _ => Turn(Gone, w, Complained(Check.NotHex))
  }

  function DeliversBytes<S>(b: Bench<S>, errors: U32, w: L.World<S>, index: nat, bytes: seq<Byte>): Turn<S> {
    match b.guest.codec.decode(bytes)
    case None => Turn(Gone, w, Complained(Check.NotCanonical))
    case Some(batch) =>
      var t := L.ProcessSignals(b.guest, w, b.descriptor, errors, index, batch);
      match t.answer
      case Delivered(living) => Turn(Living(living).0, t.world, Shown(Living(living).1))
      case Refused(why) => Turn(Running(errors), t.world, Shown(BLANK.(refused := Some(why))))
  }

  function Answers<S>(b: Bench<S>, errors: U32, w: L.World<S>, req: U32, code: I32, text: Hex.Text): Turn<S> {
    match Hex.Unhex(text)
    case Panicked => Turn(Gone, w, Panicked)
    case Decoded(bytes) => Lives(L.OnHttp(b.guest, w, errors, req, code, bytes))
    case _ => Turn(Gone, w, Complained(Check.NotHex))
  }

  /** One action against the instance: its next stage, the world after it, and what came of it. */
  function Transition<S>(b: Bench<S>, stage: Stage, w: L.World<S>, action: Action): Turn<S> {
    match (action, stage)
    case (Configure, Fresh) =>
      var t := L.Configure(b.guest, w, b.descriptor);
      (match t.answer
       case Configured => Turn(Configured(0), t.world, Shown(BLANK.(status := Some(0))))
       case Rejected(code) => Turn(Gone, t.world, Shown(BLANK.(rejected := Some(code.AsI32()))))
       case ConfigureDied(kind) => Turn(Gone, t.world, Shown(BLANK.(dead := Some(kind)))))
    case (Start, Configured(errors)) =>
      var t := L.Callback(b.guest, w, errors, L.START, []);
      (match t.answer
       case Lived(counted, Fine) => Turn(Running(counted), t.world, Shown(BLANK.(status := Some(0))))
       case Lived(counted, Failed(code)) => Turn(Configured(counted), t.world, Shown(BLANK.(status := Some(code.AsI32()))))
       case Died(kind) => Turn(Gone, t.world, Shown(BLANK.(dead := Some(kind)))))
    case (Deliver(port, batch), Running(errors)) => Delivers(b, errors, w, port, batch)
    case (Timer(id), Running(errors)) => Lives(L.Optional(b.guest, w, errors, L.ON_TIMER, [AsI32(id)]))
    case (Gpio(watch, value), Running(errors)) =>
      Lives(L.Optional(b.guest, w, errors, L.ON_GPIO, [AsI32(watch), value]))
    case (Http(req, code, body), Running(errors)) => Answers(b, errors, w, req, code, body)
    case (Stop, Running(errors)) =>
      var t := L.Callback(b.guest, w, errors, L.STOP, []);
      (match t.answer
       case Lived(counted, status) => Turn(Stopped(counted), t.world, Shown(BLANK.(status := Some(status.AsI32()))))
       case Died(kind) => Turn(Gone, t.world, Shown(BLANK.(dead := Some(kind)))))
    case _ => Turn(stage, w, Complained(Check.NotATransition))
  }

  // A whole step: what it scripts, what it calls, and what is drained after it.

  /** What reading a script, or one entry of it, comes to. */
  datatype Scripting<+T> = Queued(value: T) | Misscripted(complaint: Check.Complaint) | Cut

  /** The one answer a scripted entry carries, or the complaint that it carries none or several. */
  function AnswerOf(s: Scripted): Scripting<Capability.Answer> {
    match (s.value, s.id, s.raw, s.error)
    case (Some(hex), None, None, None) =>
      (match Hex.Unhex(hex)
       case Decoded(bytes) => Queued(Capability.Value(bytes))
       case Panicked => Cut
       case _ => Misscripted(Check.NotHex))
    case (None, Some(id), None, None) => Queued(Capability.Id(id))
    case (None, None, Some(raw), None) => Queued(Capability.Raw(raw))
    case (None, None, None, Some(code)) => Queued(Capability.Error(code))
    case _ => Misscripted(Check.BadScript)
  }

  /** Queueing a script up to its first bad entry. */
  function Queue<S>(b: Bench<S>, inner: S, script: seq<Scripted>): (S, Scripting<()>)
    decreases script
  {
    if script == [] then (inner, Queued(()))
    else match AnswerOf(script[0])
      case Cut => (inner, Cut)
      case Misscripted(complaint) => (inner, Misscripted(complaint))
      case Queued(answer) => Queue(b, b.scripted(inner, script[0].fn, answer), script[1..])
  }

  function Drained<S>(w: L.World<S>): L.World<S> {
    w.(pending := SILENCE)
  }

  /** What a finished call is shown to have done: everything heard and called since the step began. */
  function Seen<S>(observed: Observed, before: L.World<S>, w: L.World<S>): Observed
    requires |before.calls| <= |w.calls|
  {
    observed.(heard := w.pending, calls := NamesOf(w.calls[|before.calls|..]))
  }

  lemma CallsOnlyGrow<S>(b: Bench<S>, stage: Stage, w: L.World<S>, action: Action)
    ensures |w.calls| <= |Transition(b, stage, w, action).world.calls|
  {
    match (action, stage)
    case (Configure, Fresh) => L.HandCalls(b.guest, w, b.descriptor.encoded, L.CONFIGURE, []);
    case (Deliver(port, text), Running(errors)) =>
      var index, bytes := Position(b.descriptor.inputs, port), Hex.Unhex(text);
      if index.Some? && bytes.Decoded? && b.guest.codec.decode(bytes.bytes).Some? {
        var encoded := b.guest.codec.encode(b.guest.codec.decode(bytes.bytes).value);
        L.HandCalls(b.guest, w, encoded, L.PROCESS_SIGNALS, [AsI32(index.value)]);
      }
    case (Http(req, code, body), Running(errors)) =>
      if Hex.Unhex(body).Decoded? {
        L.HandCalls(b.guest, w, Hex.Unhex(body).bytes, L.ON_HTTP, [AsI32(req), code]);
      }
    case _ =>
  }

  /** What a call's turn becomes once the step has drained the host. */
  function Finish<S>(ready: L.World<S>, t: Turn<S>): Turn<S>
    requires |ready.calls| <= |t.world.calls|
  {
    match t.reply
    case Shown(observed) => Turn(t.stage, Drained(t.world), Shown(Seen(observed, ready, t.world)))
    case _ => t
  }

  function Stepped<S>(b: Bench<S>, stage: Stage, w: L.World<S>, step: Step): Turn<S> {
    var (inner, scripting) := Queue(b, w.inner, step.script);
    var ready := w.(inner := inner);
    match scripting
    case Cut => Turn(stage, ready, Panicked)
    case Misscripted(complaint) => Turn(stage, ready, Complained(complaint))
    case Queued(_) =>
      CallsOnlyGrow(b, stage, ready, step.action);
      Finish(ready, Transition(b, stage, ready, step.action))
  }

  /** A run as far as it got: the replies of the steps it finished, and whether one then panicked. */
  datatype Ran<+S> = Ran(stage: Stage, world: L.World<S>, replies: seq<Reply>, panicked: bool)

  function Onward<S>(before: seq<Reply>, t: Turn<S>): Ran<S> {
    if t.reply.Panicked? then Ran(t.stage, t.world, before, true)
    else Ran(t.stage, t.world, before + [t.reply], false)
  }

  /** A whole scenario, from wherever the instance stands. */
  function RunOf<S>(b: Bench<S>, stage: Stage, w: L.World<S>, steps: seq<Step>): (ran: Ran<S>)
    ensures |ran.replies| <= |steps| && (ran.panicked <==> |ran.replies| < |steps|)
    ensures forall i :: 0 <= i < |ran.replies| ==> !ran.replies[i].Panicked?
  {
    if steps == [] then Ran(stage, w, [], false)
    else
      var before := RunOf(b, stage, w, steps[..|steps| - 1]);
      if before.panicked then before
      else Onward(before.replies, Stepped(b, before.stage, before.world, steps[|steps| - 1]))
  }

  /** A step that ran, and observed what its expectation asks. */
  ghost predicate Holds(view: Check.View, step: Step, reply: Reply) {
    reply.Shown? && Check.Satisfies(view, step.wants, reply.observed)
  }

  ghost predicate AllHold(view: Check.View, steps: seq<Step>, replies: seq<Reply>) {
    |replies| <= |steps| && forall i :: 0 <= i < |replies| ==> Holds(view, steps[i], replies[i])
  }

  lemma AllHoldGrows(view: Check.View, steps: seq<Step>, replies: seq<Reply>, reply: Reply)
    requires |replies| < |steps|
    ensures AllHold(view, steps, replies + [reply])
      <==> AllHold(view, steps, replies) && Holds(view, steps[|replies|], reply)
  {
    var more := replies + [reply];
    assert forall i :: 0 <= i < |replies| ==> more[i] == replies[i];
    assert more[|replies|] == reply;
  }

  lemma RunGrows<S>(b: Bench<S>, stage: Stage, w: L.World<S>, steps: seq<Step>, step: Step)
    requires !RunOf(b, stage, w, steps).panicked
    ensures
      var before := RunOf(b, stage, w, steps);
      RunOf(b, stage, w, steps + [step]) == Onward(before.replies, Stepped(b, before.stage, before.world, step))
  {
    assert (steps + [step])[..|steps|] == steps;
  }

  /** A run that panicked is over: what its scenario says after that is never looked at. */
  lemma {:induction false} PanicsStand<S>(b: Bench<S>, stage: Stage, w: L.World<S>, steps: seq<Step>, n: nat)
    requires n <= |steps| && RunOf(b, stage, w, steps[..n]).panicked
    ensures RunOf(b, stage, w, steps) == RunOf(b, stage, w, steps[..n])
    decreases |steps| - n
  {
    if n < |steps| {
      assert steps[..n + 1][..n] == steps[..n];
      PanicsStand(b, stage, w, steps, n + 1);
    } else {
      assert steps[..n] == steps;
    }
  }

  lemma Prefixes<T>(a: seq<T>, b: seq<T>, c: seq<T>)
    requires a <= b <= c
    ensures a <= c && (c == a ==> b == a && c == b)
  {
  }

  class Walker<S> {
    const bench: Bench<S>
    var stage: Stage
    var world: L.World<S>
    var evaluations: nat
    var violations: seq<Check.Violation>

    /** Between steps everything heard has been drained, and the evaluations so far are noted. */
    ghost predicate Valid()
      reads this
    {
      world.pending == SILENCE && evaluations == world.total.evaluations
    }

    /** A fresh instance, with whatever complaints the run already has. */
    constructor (bench: Bench<S>, world: L.World<S>, violations: seq<Check.Violation>)
      requires world.pending == SILENCE
      ensures Valid() && this.bench == bench && stage == Fresh
      ensures this.world == world && this.violations == violations
    {
      this.bench, this.stage, this.world, this.violations := bench, Fresh, world, violations;
      this.evaluations := world.total.evaluations;
    }

    method Fail(index: nat, what: Check.Complaint)
      modifies this`violations
      ensures violations == old(violations) + [Check.Violation(Some(index), what)]
    {
      violations := violations + [Check.Violation(Some(index), what)];
    }

    method Live(t: L.Turned<S, L.Living>) returns (observed: Observed)
      modifies this`stage, this`world
      ensures world == t.world && (stage, observed) == Living(t.answer)
      ensures t.answer.Died? ==> stage == Gone
    {
      world := t.world;
      match t.answer {
        case Lived(errors, status) =>
          observed := BLANK.(status := Some(status.AsI32()));
          stage := Running(errors);
        case Died(kind) =>
          observed := BLANK.(dead := Some(kind));
          stage := Gone;
      }
    }

    /** The instance is taken out of its stage first; whatever returns early leaves it gone. */
    method Call(action: Action) returns (reply: Reply)
      modifies this`stage, this`world
      ensures Turn(stage, world, reply) == Transition(bench, old(stage), old(world), action)
    {
      var taken := stage;
      stage := Gone;
      match (action, taken) {
        case (Configure, Fresh) =>
          var t := L.Configure(bench.guest, world, bench.descriptor);
          world := t.world;
          match t.answer {
            case Configured =>
              stage := Configured(0);
              return Shown(BLANK.(status := Some(0)));
            case Rejected(code) => return Shown(BLANK.(rejected := Some(code.AsI32())));
            case ConfigureDied(kind) => return Shown(BLANK.(dead := Some(kind)));
          }
        case (Start, Configured(errors)) =>
          var t := L.Callback(bench.guest, world, errors, L.START, []);
          world := t.world;
          match t.answer {
            case Lived(counted, Fine) =>
              stage := Running(counted);
              return Shown(BLANK.(status := Some(0)));
            case Lived(counted, Failed(code)) =>
              stage := Configured(counted);
              return Shown(BLANK.(status := Some(code.AsI32())));
            case Died(kind) => return Shown(BLANK.(dead := Some(kind)));
          }
        case (Deliver(port, text), Running(errors)) =>
          var index := Position(bench.descriptor.inputs, port);
          if index.None? {
            return Complained(Check.NoInputPort);
          }
          var bytes := Hex.Unhex(text);
          if bytes.Panicked? {
            return Panicked;
          }
          if !bytes.Decoded? {
            return Complained(Check.NotHex);
          }
          var batch := bench.guest.codec.decode(bytes.bytes);
          if batch.None? {
            return Complained(Check.NotCanonical);
          }
          var t := L.ProcessSignals(bench.guest, world, bench.descriptor, errors, index.value, batch.value);
          match t.answer {
            case Delivered(living) =>
              var observed := Live(L.Turned(t.world, living));
              return Shown(observed);
            case Refused(why) =>
              world, stage := t.world, Running(errors);
              return Shown(BLANK.(refused := Some(why)));
          }
        case (Timer(id), Running(errors)) =>
          var observed := Live(L.Optional(bench.guest, world, errors, L.ON_TIMER, [AsI32(id)]));
          return Shown(observed);
        case (Gpio(watch, value), Running(errors)) =>
          var observed := Live(L.Optional(bench.guest, world, errors, L.ON_GPIO, [AsI32(watch), value]));
          return Shown(observed);
        case (Http(req, code, body), Running(errors)) =>
          var bytes := Hex.Unhex(body);
          if bytes.Panicked? {
            return Panicked;
          }
          if !bytes.Decoded? {
            return Complained(Check.NotHex);
          }
          var observed := Live(L.OnHttp(bench.guest, world, errors, req, code, bytes.bytes));
          return Shown(observed);
        case (Stop, Running(errors)) =>
          var t := L.Callback(bench.guest, world, errors, L.STOP, []);
          world := t.world;
          match t.answer {
            case Lived(counted, status) =>
              stage := Stopped(counted);
              return Shown(BLANK.(status := Some(status.AsI32())));
            case Died(kind) => return Shown(BLANK.(dead := Some(kind)));
          }
        case (_, other) =>
          stage := other;
          return Complained(Check.NotATransition);
      }
    }

    /** Queues the step's scripted answers, stopping at the first bad one. */
    method Script(script: seq<Scripted>) returns (scripting: Scripting<()>)
      modifies this`world
      ensures (world.inner, scripting) == Queue(bench, old(world.inner), script)
      ensures world == old(world).(inner := world.inner)
    {
      var i := 0;
      assert script[0..] == script;
      while i < |script|
        invariant i <= |script|
        invariant world == old(world).(inner := world.inner)
        invariant Queue(bench, world.inner, script[i..]) == Queue(bench, old(world.inner), script)
      {
        assert script[i..][0] == script[i] && script[i..][1..] == script[i + 1..];
        match AnswerOf(script[i]) {
          case Cut => return Cut;
          case Misscripted(complaint) => return Misscripted(complaint);
          case Queued(answer) => world := world.(inner := bench.scripted(world.inner, script[i].fn, answer));
        }
        i := i + 1;
      }
      scripting := Queued(());
    }

    /** One step: it adds no violation exactly when it ran and what it observed satisfies its expectation. */
    method Step(index: nat, step: Step) returns (reply: Reply)
      requires Valid()
      modifies this`stage, this`world, this`evaluations, this`violations
      ensures Valid()
      ensures Turn(stage, world, reply) == Stepped(bench, old(stage), old(world), step)
      ensures old(violations) <= violations
      ensures violations == old(violations) <==> reply.Panicked? || Holds(bench.View(), step, reply)
      ensures reply.Complained? ==> violations == old(violations) + [Check.Violation(Some(index), reply.complaint)]
    {
      var scripting := Script(step.script);
      match scripting {
        case Cut => return Panicked;
        case Misscripted(complaint) =>
          Fail(index, complaint);
          return Complained(complaint);
        case Queued(_) =>
      }
      var mark := |world.calls|;
      ghost var ready := world;
      CallsOnlyGrow(bench, stage, ready, step.action);
      TransitionKeeps(ready.total, ready.calls, bench, stage, ready, step.action);
      PanicsAskNothing(bench, stage, ready, step.action);
      var called := Call(step.action);
      match called {
        case Shown(observed) =>
          var heard := world.pending.(evaluations := world.total.evaluations - evaluations);
          evaluations := world.total.evaluations;
          var seen := observed.(heard := heard, calls := NamesOf(world.calls[mark..]));
          world := Drained(world);
          var found := Check.Check(index, bench.View(), step.wants, seen);
          violations := violations + found;
          reply := Shown(seen);
        case Complained(what) =>
          Fail(index, what);
          reply := called;
        case Panicked => reply := Panicked;
      }
    }

    /** Every step in turn, until one panics: the run is the one `RunOf` describes, and clean exactly when each step is. */
    method Run(steps: seq<Step>) returns (panicked: bool, ghost replies: seq<Reply>)
      requires Valid()
      modifies this`stage, this`world, this`evaluations, this`violations
      ensures Valid()
      ensures Ran(stage, world, replies, panicked) == RunOf(bench, old(stage), old(world), steps)
      ensures old(violations) <= violations
      ensures violations == old(violations) <==> AllHold(bench.View(), steps, replies)
    {
      replies := [];
      for i := 0 to |steps|
        invariant Valid() && |replies| == i
        invariant Ran(stage, world, replies, false) == RunOf(bench, old(stage), old(world), steps[..i])
        invariant old(violations) <= violations
        invariant violations == old(violations) <==> AllHold(bench.View(), steps, replies)
      {
        ghost var before := violations;
        var reply := Step(i, steps[i]);
        RunGrows(bench, old(stage), old(world), steps[..i], steps[i]);
        assert steps[..i + 1] == steps[..i] + [steps[i]];
        Prefixes(old(violations), before, violations);
        if reply.Panicked? {
          PanicsStand(bench, old(stage), old(world), steps, i + 1);
          return true, replies;
        }
        AllHoldGrows(bench.View(), steps, replies, reply);
        replies := replies + [reply];
      }
      assert steps[..|steps|] == steps;
      panicked := false;
    }
  }

  // What every run keeps.

  /** A transition only adds to what was heard and called, and a complaint means nothing was asked of the guest. */
  lemma TransitionKeeps<S>(base: Heard, calls: seq<Record.HostCall>, b: Bench<S>, stage: Stage, w: L.World<S>,
                           action: Action)
    requires L.Kept(base, calls, w)
    ensures L.Kept(base, calls, Transition(b, stage, w, action).world)
  {
    match (action, stage)
    case (Configure, Fresh) => L.HandKeeps(base, calls, b.guest, w, b.descriptor.encoded, L.CONFIGURE, []);
    case (Start, Configured(_)) => L.EnterKeeps(base, calls, b.guest, w, L.START, []);
    case (Deliver(port, text), Running(_)) =>
      var index, bytes := Position(b.descriptor.inputs, port), Hex.Unhex(text);
      if index.Some? && bytes.Decoded? && b.guest.codec.decode(bytes.bytes).Some? {
        var encoded := b.guest.codec.encode(b.guest.codec.decode(bytes.bytes).value);
        L.HandKeeps(base, calls, b.guest, w, encoded, L.PROCESS_SIGNALS, [AsI32(index.value)]);
      }
    case (Timer(id), Running(_)) => L.EnterKeeps(base, calls, b.guest, w, L.ON_TIMER, [AsI32(id)]);
    case (Gpio(watch, value), Running(_)) => L.EnterKeeps(base, calls, b.guest, w, L.ON_GPIO, [AsI32(watch), value]);
    case (Http(req, code, body), Running(_)) =>
      if Hex.Unhex(body).Decoded? {
        L.HandKeeps(base, calls, b.guest, w, Hex.Unhex(body).bytes, L.ON_HTTP, [AsI32(req), code]);
      }
    case (Stop, Running(_)) => L.EnterKeeps(base, calls, b.guest, w, L.STOP, []);
    case _ =>
  }

  /** Only a running instance's text is ever sliced, and a panic in slicing it comes before any guest call. */
  lemma PanicsAskNothing<S>(b: Bench<S>, stage: Stage, w: L.World<S>, action: Action)
    ensures Transition(b, stage, w, action).reply.Panicked? ==> Transition(b, stage, w, action) == Turn(Gone, w, Panicked)
    ensures Transition(b, stage, w, action).reply.Complained? ==> Transition(b, stage, w, action).world == w
  {
  }
}
