/** The three return conventions of the ABI, and the error codes they share. */
module Status {
  import opened Common

  datatype ErrorCode =
    | InvalidArg
    | NoSignalContext
    | Expr
    | Capability
    | Limit
    | Throttled
    | NotFound
    | Io
    | Unsupported
    | Unknown(code: I32)
  {
    function AsI32(): I32 {
      match this
      case InvalidArg => -1
      case NoSignalContext => -2
      case Expr => -3
      case Capability => -4
      case Limit => -5
      case Throttled => -6
      case NotFound => -7
      case Io => -8
      case Unsupported => -9
      case Unknown(code) => code
    }
  }

  function FromI32(value: I32): Option<ErrorCode> {
    match value
    case -1 => Some(InvalidArg)
    case -2 => Some(NoSignalContext)
    case -3 => Some(Expr)
    case -4 => Some(Capability)
    case -5 => Some(Limit)
    case -6 => Some(Throttled)
    case -7 => Some(NotFound)
    case -8 => Some(Io)
    case -9 => Some(Unsupported)
    case _ => if value < 0 then Some(Unknown(value)) else None
  }

  /** Every assigned code, in the order of its number. */
  const ASSIGNED := [InvalidArg, NoSignalContext, Expr, Capability, Limit, Throttled, NotFound, Io, Unsupported]

  /** The table is complete and contiguous: its codes are -1, -2 and so on, and there is no other but the unknown ones. */
  lemma AssignedCodesAreContiguous(code: ErrorCode)
    ensures forall k :: 0 <= k < |ASSIGNED| ==> ASSIGNED[k].AsI32() == -1 - k && FromI32(-1 - k) == Some(ASSIGNED[k])
    ensures code.Unknown? <==> code !in ASSIGNED
  {
    match code
    case InvalidArg => assert ASSIGNED[0] == code;
    case NoSignalContext => assert ASSIGNED[1] == code;
    case Expr => assert ASSIGNED[2] == code;
    case Capability => assert ASSIGNED[3] == code;
    case Limit => assert ASSIGNED[4] == code;
    case Throttled => assert ASSIGNED[5] == code;
    case NotFound => assert ASSIGNED[6] == code;
    case Io => assert ASSIGNED[7] == code;
    case Unsupported => assert ASSIGNED[8] == code;
    case Unknown(_) =>
  }

  /** What a callback returned. */
  datatype Status = Fine | Failed(code: ErrorCode) {
    /** The number a scenario states its expectation as. */
    function AsI32(): I32 {
      match this
      case Fine => 0
      case Failed(code) => code.AsI32()
    }
  }

  function DecodeStatus(value: I32): Status {
    if value == 0 then Fine
    else match FromI32(value)
      case Some(code) => Failed(code)
      case None => Failed(Unknown(value))
  }

  /** What a size-convention call returned, against the capacity that was offered. */
  datatype Size = Written(count: nat) | Required(needed: nat) | SizeFailed(code: ErrorCode)

  function DecodeSize(value: I32, cap: nat): Size {
    if value < 0 then
      match FromI32(value)
      case Some(code) => SizeFailed(code)
      case None => SizeFailed(Unknown(value))
    else if value <= cap then Written(value)
    else Required(value)
  }

  datatype Id = Assigned(id: nat) | IdFailed(code: ErrorCode)

  function DecodeId(value: I32): Id {
    if value < 0 then
      match FromI32(value)
      case Some(code) => IdFailed(code)
      case None => IdFailed(Unknown(value))
    else Assigned(value)
  }

  /** A code that means what its constructor says: `Unknown` never spells an assigned number. */
  predicate Canonical(code: ErrorCode) {
    code.Unknown? ==> code.code < -9
  }

  /** Decoding a negative number and writing the code back are inverse, in both directions. */
  lemma CodesRoundTrip(value: I32, code: ErrorCode)
    ensures value < 0 <==> FromI32(value).Some?
    ensures value < 0 ==> FromI32(value).value.AsI32() == value && Canonical(FromI32(value).value)
    ensures FromI32(code.AsI32()) == Some(code) <==> Canonical(code)
  {
  }

  /** Every status a guest can return is written back as the number it returned. */
  lemma StatusRoundTrips(value: I32)
    ensures DecodeStatus(value).AsI32() == value
    ensures DecodeStatus(value) == Fine <==> value == 0
  {
  }

  /**
   * Reading a return under the wrong convention is silent: the three decoders agree that a call
   * failed exactly on the negative numbers, and on nothing else.
   */
  lemma ConventionsAgreeOnNegatives(value: I32, cap: nat)
    ensures DecodeSize(value, cap).SizeFailed? <==> value < 0
    ensures DecodeId(value).IdFailed? <==> value < 0
    ensures value < 0 ==>
      DecodeSize(value, cap).code == DecodeId(value).code == DecodeStatus(value).code
    ensures value > 0 ==> DecodeStatus(value).Failed? && DecodeId(value).Assigned?
  {
  }
}
