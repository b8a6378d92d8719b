/** The guest's grow-and-retry loop over the ABI's size convention. */
module Convention {
  import opened Common
  import opened Status

  datatype BlockError = HostError(call: string, code: ErrorCode)

  /** What one size-convention call did: the host's next state, its return, and the lent buffer. */
  datatype Reply<+S> = Reply(host: S, ret: I32, buffer: seq<Byte>)

  /** A host function behind a closure: it may carry state and change its answer on every call. */
  type Read<!S> = (S, seq<Byte>) -> Reply<S>

  /** The buffer is lent as a slice, so no host can change how long it is. */
  ghost predicate Lends<S(!new)>(read: Read<S>) {
    forall host: S, buffer: seq<Byte> :: |read(host, buffer).buffer| == |buffer|
  }

  const STARTING_CAPACITY: nat := 64

  function Zeros(n: nat): (z: seq<Byte>)
    ensures |z| == n
  {
    seq(n, _ => 0)
  }

  /** `Vec::resize` with zero fill. */
  function Resize(buffer: seq<Byte>, n: nat): (r: seq<Byte>)
    ensures |r| == n
  {
    if n <= |buffer| then buffer[..n] else buffer + Zeros(n - |buffer|)
  }

  /** Everything a run of the loop leaves behind, with the capacity each call was offered. */
  datatype Run<+S> = Run(
    result: Result<Option<nat>, BlockError>, host: S, buffer: seq<Byte>, offered: seq<nat>)

  function Room(buffer: seq<Byte>): nat {
    if |buffer| <= I32_MAX then I32_MAX - |buffer| else 0
  }

  function GrowAndRetrySpec<S>(call: string, read: Read<S>, host: S, buffer: seq<Byte>): Run<S>
    decreases Room(buffer)
  {
    var reply := read(host, buffer);
    match DecodeSize(reply.ret, |buffer|)
    case Written(n) => Run(Ok(Some(n)), reply.host, reply.buffer, [|buffer|])
    case Required(n) =>
      var rest := GrowAndRetrySpec(call, read, reply.host, Resize(reply.buffer, n));
      After([|buffer|], rest)
    case SizeFailed(code) =>
      Run(if code == NotFound then Ok(None) else Err(HostError(call, code)),
          reply.host, reply.buffer, [|buffer|])
  }

  /** A run that some calls came before. */
  function After<S>(offered: seq<nat>, rest: Run<S>): Run<S> {
    rest.(offered := offered + rest.offered)
  }

  lemma AfterOneMore<S>(offered: seq<nat>, n: nat, rest: Run<S>)
    ensures After(offered, After([n], rest)) == After(offered + [n], rest)
  {
    assert offered + ([n] + rest.offered) == (offered + [n]) + rest.offered;
  }

  /** The loop itself. It ends against any host, because a retry always offers strictly more. */
  method GrowAndRetry<S>(call: string, read: Read<S>, host: S, buffer: seq<Byte>) returns (run: Run<S>)
    ensures run == GrowAndRetrySpec(call, read, host, buffer)
  {
    var state, lent := host, buffer;
    var offered: seq<nat> := [];
    while true
      invariant GrowAndRetrySpec(call, read, host, buffer) == After(offered, GrowAndRetrySpec(call, read, state, lent))
      decreases Room(lent)
    {
      var reply := read(state, lent);
      match DecodeSize(reply.ret, |lent|) {
        case Written(n) =>
          return Run(Ok(Some(n)), reply.host, reply.buffer, offered + [|lent|]);
        case Required(n) =>
          AfterOneMore(offered, |lent|, GrowAndRetrySpec(call, read, reply.host, Resize(reply.buffer, n)));
          offered := offered + [|lent|];
          state, lent := reply.host, Resize(reply.buffer, n);
        case SizeFailed(code) =>
          return Run(if code == NotFound then Ok(None) else Err(HostError(call, code)),
                     reply.host, reply.buffer, offered + [|lent|]);
      }
    }
  }

  /** A failure ends the loop at the call that reports it: not-found is an absence, any other code an error that names the call. */
  lemma FailuresEndTheLoop<S>(call: string, read: Read<S>, host: S, buffer: seq<Byte>, code: ErrorCode)
    requires read(host, buffer).ret == code.AsI32() < 0
    requires code.Unknown? ==> code == FromI32(code.AsI32()).value
    ensures GrowAndRetrySpec(call, read, host, buffer) == Run(
      if code == NotFound then Ok(None) else Err(HostError(call, code)),
      read(host, buffer).host, read(host, buffer).buffer, [|buffer|])
  {
    CodesRoundTrip(code.AsI32(), code);
  }

  ghost predicate StrictlyIncreasing(s: seq<nat>) {
    forall i, j :: 0 <= i < j < |s| ==> s[i] < s[j]
  }

  /**
   * Against any host, even one changing its answer on every call: each retry offers strictly more
   * than the call before it and never more than an `i32` can ask for, and a reported count lies
   * inside the buffer as it was last offered.
   */
  lemma {:induction false} AnyHostIsBounded<S(!new)>(call: string, read: Read<S>, host: S, buffer: seq<Byte>)
    requires Lends(read)
    ensures var run := GrowAndRetrySpec(call, read, host, buffer);
      && run.offered != [] && run.offered[0] == |buffer|
      && StrictlyIncreasing(run.offered)
      && (forall i :: 1 <= i < |run.offered| ==> run.offered[i] <= I32_MAX)
      && |run.offered| <= Room(buffer) + 1
      && run.offered[|run.offered| - 1] == |run.buffer|
      && (run.result.Ok? && run.result.value.Some? ==> run.result.value.value <= |run.buffer|)
    decreases Room(buffer)
  {
    var reply := read(host, buffer);
    match DecodeSize(reply.ret, |buffer|)
    case Required(n) =>
      AnyHostIsBounded(call, read, reply.host, Resize(reply.buffer, n));
    case _ =>
  }

  /** At `host`, every buffer is answered with `answer`: written when it fits, sized when not. */
  ghost predicate Serves<S(!new)>(read: Read<S>, host: S, answer: seq<Byte>) {
    && (forall b: seq<Byte> | |answer| <= |b| ::
          var r := read(host, b); r.ret == |answer| && r.buffer == answer + b[|answer|..])
    && (forall b: seq<Byte> | |b| < |answer| ::
          var r := read(host, b); r.ret == |answer| && r.buffer == b)
  }

  /** One fixed answer: refusing a short buffer leaves the answer where the retry finds it. */
  ghost predicate HoldsAnswer<S(!new)>(read: Read<S>, host: S, answer: seq<Byte>) {
    && Serves(read, host, answer)
    && forall b: seq<Byte> | |b| < |answer| :: Serves(read, read(host, b).host, answer)
  }

  /** A host with one fixed answer is asked at most twice, and the buffer then begins with it. */
  lemma FixedAnswerTakesTwoCalls<S(!new)>(call: string, read: Read<S>, host: S, buffer: seq<Byte>, answer: seq<Byte>)
    requires |answer| <= I32_MAX
    requires HoldsAnswer(read, host, answer)
    ensures var run := GrowAndRetrySpec(call, read, host, buffer);
      && run.result == Ok(Some(|answer|))
      && |answer| <= |run.buffer| && run.buffer[..|answer|] == answer
      && (|answer| <= |buffer| ==> run.offered == [|buffer|] && run.host == read(host, buffer).host)
      && (|answer| > |buffer| ==>
            && run.offered == [|buffer|, |answer|]
            && run.host == read(read(host, buffer).host, Resize(buffer, |answer|)).host)
  {
    if |answer| > |buffer| {
      var first := read(host, buffer);
      var grown := Resize(buffer, |answer|);
      assert Serves(read, first.host, answer);
      var second := read(first.host, grown);
      assert GrowAndRetrySpec(call, read, first.host, grown)
        == Run(Ok(Some(|answer|)), second.host, second.buffer, [|answer|]);
      assert [|buffer|] + [|answer|] == [|buffer|, |answer|];
    }
  }

  /** A fresh buffer each time, truncated to what was written. */
  function SizedSpec<S>(call: string, read: Read<S>, host: S): (Result<Option<seq<Byte>>, BlockError>, S) {
    var run := GrowAndRetrySpec(call, read, host, Zeros(STARTING_CAPACITY));
    match run.result
    case Ok(Some(n)) => (Ok(Some(Truncate(run.buffer, n))), run.host)
    case Ok(None) => (Ok(None), run.host)
    case Err(error) => (Err(error), run.host)
  }

  /** `Vec::truncate`: no effect when the vector is already shorter. */
  function Truncate(buffer: seq<Byte>, n: nat): seq<Byte> {
    if n <= |buffer| then buffer[..n] else buffer
  }

  method Sized<S>(call: string, read: Read<S>, host: S)
    returns (result: Result<Option<seq<Byte>>, BlockError>, state: S)
    ensures (result, state) == SizedSpec(call, read, host)
  {
    var run := GrowAndRetry(call, read, host, Zeros(STARTING_CAPACITY));
    state := run.host;
    match run.result {
      case Ok(Some(n)) => result := Ok(Some(Truncate(run.buffer, n)));
      case Ok(None) => result := Ok(None);
      case Err(error) => result := Err(error);
    }
  }
}
