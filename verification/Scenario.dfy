/** A conformance scenario's document, and what one of its steps can observe. */
module Scenario {
  import opened Common
  import Status
  import Hex
  import Record

  /** A batch, as the signals it holds. Its one canonical encoding belongs to the codec. */
  datatype Batch = Batch(signals: seq<seq<Byte>>)

  datatype Codec = Codec(encode: Batch -> seq<Byte>, decode: seq<Byte> -> Option<Batch>)

  datatype Limits = Limits(maxPayload: U32, maxBatch: U32)

  /** The instance's shape: port names in declaration order, its limits, and the bytes the guest is handed. */
  datatype Descriptor = Descriptor(inputs: seq<string>, outputs: seq<string>, limits: Limits, encoded: seq<Byte>)

  const PORT_ERR: U32 := 0xFFFF_FFFE

  function OutputName(d: Descriptor, port: U32): Option<string> {
    if port == PORT_ERR then Some("err")
    else if port < |d.outputs| then Some(d.outputs[port])
    else None
  }

  /** Names that tell an instance's outputs apart, from each other and from the reserved error port. */
  predicate NamesTellApart(d: Descriptor) {
    && "err" !in d.outputs && |d.outputs| <= PORT_ERR
    && forall i, j :: 0 <= i < j < |d.outputs| ==> d.outputs[i] != d.outputs[j]
  }

  /**
   * Which ports have a name: those declared, by theirs, and the reserved one. A name is one port's
   * alone, at every name, exactly when the declared names are distinct and none is the reserved one.
   */
  lemma PortsHaveOneName(d: Descriptor)
    requires |d.outputs| <= PORT_ERR
    ensures forall port: U32 :: OutputName(d, port).None? <==> |d.outputs| <= port && port != PORT_ERR
    ensures forall i: nat :: i < |d.outputs| ==> OutputName(d, i) == Some(d.outputs[i])
    ensures OutputName(d, PORT_ERR) == Some("err")
    ensures (forall p: U32, q: U32 :: OutputName(d, p).Some? && OutputName(d, p) == OutputName(d, q) ==> p == q)
      <==> NamesTellApart(d)
  {
    if forall p: U32, q: U32 :: OutputName(d, p).Some? && OutputName(d, p) == OutputName(d, q) ==> p == q {
      forall i, j | 0 <= i < j < |d.outputs| ensures d.outputs[i] != d.outputs[j] {
        assert OutputName(d, i) == Some(d.outputs[i]) && OutputName(d, j) == Some(d.outputs[j]);
      }
      if "err" in d.outputs {
        var i :| 0 <= i < |d.outputs| && d.outputs[i] == "err";
        assert OutputName(d, i) == OutputName(d, PORT_ERR);
      }
    }
  }

  datatype Action =
    | Configure
    | Start
    | Deliver(port: string, batch: Hex.Text)
    | Timer(id: U32)
    | Gpio(watch: U32, value: I32)
    | Http(req: U32, status: I32, body: Hex.Text)
    | Stop

  datatype Scripted = Scripted(fn: string, value: Option<Hex.Text>, id: Option<I32>, raw: Option<I32>,
                               error: Option<Status.ErrorCode>)

  datatype RefusalKind = PortRefusal | BatchRefusal | PayloadRefusal

  datatype EmissionExpect = EmissionExpect(port: string, batch: Hex.Text)

  datatype LogExpect = LogExpect(level: I32, contains: string)

  datatype ErrorExpect = ErrorExpect(code: I32, contains: string)

  datatype PropFailureExpect = PropFailureExpect(property: string, signal: Option<U32>)

  /** What must hold after one step. An absent field asserts nothing. */
  datatype Expect = Expect(
    status: Option<I32>,
    rejected: Option<Status.ErrorCode>,
    refused: Option<RefusalKind>,
    dead: Option<Record.TrapKind>,
    emissions: Option<seq<EmissionExpect>>,
    calls: Option<seq<string>>,
    evaluations: Option<nat>,
    logs: Option<seq<LogExpect>>,
    errors: Option<seq<ErrorExpect>>,
    propertyFailures: Option<seq<PropFailureExpect>>)

  datatype Step = Step(action: Action, script: seq<Scripted>, wants: Expect)

  datatype Emission = Emission(port: U32, batch: Batch)

  datatype LogLine = LogLine(level: I32, message: string)

  datatype Detail = Detail(status: Status.Status, message: string)

  datatype PropFailure = PropFailure(propId: U32, signal: Option<U32>)

  /** What the guest did through the host functions, besides the calls themselves. */
  datatype Heard = Heard(emissions: seq<Emission>, logs: seq<LogLine>, details: seq<Detail>,
                         failures: seq<PropFailure>, evaluations: nat)
  {
    function Plus(more: Heard): Heard {
      Heard(emissions + more.emissions, logs + more.logs, details + more.details,
            failures + more.failures, evaluations + more.evaluations)
    }
  }

  const SILENCE := Heard([], [], [], [], 0)

  lemma PlusIsAssociative(a: Heard, b: Heard, c: Heard)
    ensures a.Plus(b).Plus(c) == a.Plus(b.Plus(c))
    ensures a.Plus(SILENCE) == a && SILENCE.Plus(a) == a
  {
    var left, right := a.Plus(b).Plus(c), a.Plus(b.Plus(c));
    assert left.emissions == right.emissions && left.logs == right.logs;
    assert left.details == right.details && left.failures == right.failures;
    assert a.Plus(SILENCE).emissions == a.emissions && a.Plus(SILENCE).logs == a.logs;
    assert a.Plus(SILENCE).details == a.details && a.Plus(SILENCE).failures == a.failures;
    assert SILENCE.Plus(a).emissions == a.emissions && SILENCE.Plus(a).logs == a.logs;
    assert SILENCE.Plus(a).details == a.details && SILENCE.Plus(a).failures == a.failures;
  }

  /** What is heard later comes after what was heard before, whole and in order. */
  lemma PlusAppends(a: Heard, b: Heard)
    ensures var both := a.Plus(b);
      && a.emissions <= both.emissions && both.emissions[|a.emissions|..] == b.emissions
      && a.logs <= both.logs && both.logs[|a.logs|..] == b.logs
      && a.details <= both.details && both.details[|a.details|..] == b.details
      && a.failures <= both.failures && both.failures[|a.failures|..] == b.failures
      && both.evaluations == a.evaluations + b.evaluations
  {
  }

  /** One step's observation: what the call said, what it made the guest do, and the calls it made. */
  datatype Observed = Observed(
    status: Option<I32>,
    rejected: Option<I32>,
    refused: Option<RefusalKind>,
    dead: Option<Record.TrapKind>,
    heard: Heard,
    calls: seq<string>)

  const BLANK := Observed(None, None, None, None, SILENCE, [])

  function NamesOf(calls: seq<Record.HostCall>): (names: seq<string>)
    ensures |names| == |calls|
  {
    seq(|calls|, i requires 0 <= i < |calls| => calls[i].name)
  }
}
