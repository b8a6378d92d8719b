/** Comparing what a step observed with what the scenario said. */
module Check {
  import opened Common
  import opened Scenario
  import Hex
  import Status

  /** The parts of an expectation that are compared one by one. */
  datatype Clause =
    | Death | Rejection | Refusal | StatusClause | Emissions | Calls | Evaluations | Logs | Errors | Failures

  datatype Complaint =
    | Unmet(clause: Clause)
    | BadScript
    | NotATransition
    | NoInputPort
    | NotHex
    | NotCanonical
    | RunClause
    | HostFaulted
    | AbiMismatch

  datatype Violation = Violation(step: Option<nat>, what: Complaint)

  /** What the names in an observation are resolved through. */
  datatype View = View(descriptor: Descriptor, properties: seq<string>, codec: Codec)

  predicate PartAt(text: string, part: string, i: nat) {
    i + |part| <= |text| && text[i..i + |part|] == part
  }

  ghost predicate Contains(text: string, part: string) {
    exists i: nat :: PartAt(text, part, i)
  }

  /** `str::contains`. */
  method FindPart(text: string, part: string) returns (found: bool)
    ensures found <==> Contains(text, part)
  {
    var i := 0;
    while i + |part| <= |text|
      invariant forall j: nat :: j < i ==> !PartAt(text, part, j)
    {
      if text[i..i + |part|] == part {
        assert PartAt(text, part, i);
        return true;
      }
      i := i + 1;
    }
    return false;
  }

  function PortText(view: View, port: U32): string {
    match OutputName(view.descriptor, port)
    case Some(name) => name
    case None => "<undeclared>"
  }

  function PropertyText(view: View, id: U32): string {
    if id < |view.properties| then view.properties[id] else "<unknown>"
  }

  /** What a port and a property are called where a scenario names them: their own name, or that they have none. */
  lemma TextsNameTheirOwn(view: View, port: U32, id: U32)
    ensures PortText(view, port) ==
      if port == 0xFFFF_FFFE then "err"
      else if port < |view.descriptor.outputs| then view.descriptor.outputs[port] else "<undeclared>"
    ensures PropertyText(view, id) == if |view.properties| <= id then "<unknown>" else view.properties[id]
  {
  }

  /** An emission is the expected one: on that port, and exactly the bytes the hex stands for. */
  predicate EmissionMatches(view: View, want: EmissionExpect, got: Emission) {
    && PortText(view, got.port) == want.port
    && Hex.Unhex(want.batch) == Hex.Decoded(view.codec.encode(got.batch))
    && Hex.PLUS !in want.batch
  }

  ghost predicate LogMatches(want: LogExpect, got: LogLine) {
    got.level == want.level && Contains(got.message, want.contains)
  }

  ghost predicate ErrorMatches(want: ErrorExpect, got: Detail) {
    got.status.AsI32() == want.code && Contains(got.message, want.contains)
  }

  predicate FailureMatches(view: View, want: PropFailureExpect, got: PropFailure) {
    PropertyText(view, got.propId) == want.property && got.signal == want.signal
  }

  /**
   * What each field of an expectation means. A death, a rejection or a refusal that was not expected
   * is as wrong as an expected one that did not come; every other absent field asserts nothing.
   */
  ghost predicate Met(c: Clause, view: View, want: Expect, got: Observed) {
    match c
    case Death => want.dead == got.dead
    case Rejection => got.rejected == if want.rejected.Some? then Some(want.rejected.value.AsI32()) else None
    case Refusal => want.refused == got.refused
    case StatusClause => want.status.Some? ==> got.status == want.status
    case Emissions => want.emissions.Some? ==> EmissionsMet(view, want.emissions.value, got.heard.emissions)
    case Calls => want.calls.Some? ==> got.calls == want.calls.value
    case Evaluations => want.evaluations.Some? ==> got.heard.evaluations == want.evaluations.value
    case Logs => want.logs.Some? ==> LogsMet(want.logs.value, got.heard.logs)
    case Errors => want.errors.Some? ==> ErrorsMet(want.errors.value, got.heard.details)
    case Failures => want.propertyFailures.Some? ==> FailuresMet(view, want.propertyFailures.value, got.heard.failures)
  }

  predicate EmissionsMet(view: View, want: seq<EmissionExpect>, got: seq<Emission>) {
    |want| == |got| && forall k :: 0 <= k < |want| ==> EmissionMatches(view, want[k], got[k])
  }

  ghost predicate LogsMet(want: seq<LogExpect>, got: seq<LogLine>) {
    |want| == |got| && forall k :: 0 <= k < |want| ==> LogMatches(want[k], got[k])
  }

  ghost predicate ErrorsMet(want: seq<ErrorExpect>, got: seq<Detail>) {
    |want| == |got| && forall k :: 0 <= k < |want| ==> ErrorMatches(want[k], got[k])
  }

  predicate FailuresMet(view: View, want: seq<PropFailureExpect>, got: seq<PropFailure>) {
    |want| == |got| && forall k :: 0 <= k < |want| ==> FailureMatches(view, want[k], got[k])
  }

  ghost predicate Satisfies(view: View, want: Expect, got: Observed) {
    forall c: Clause :: Met(c, view, want, got)
  }

  /** A death nobody asked for: the rest of the step is not compared. */
  predicate DiedUnasked(want: Expect, got: Observed) {
    want.dead.None? && got.dead.Some?
  }

  ghost predicate AllOf(found: seq<Violation>, step: nat, c: Clause) {
    forall v :: v in found ==> v == Violation(Some(step), Unmet(c))
  }

  method CheckEmissions(step: nat, view: View, want: seq<EmissionExpect>, got: seq<Emission>)
    returns (found: seq<Violation>)
    ensures AllOf(found, step, Emissions)
    ensures found == [] <==> EmissionsMet(view, want, got)
  {
    found := [];
    if |want| != |got| {
      return [Violation(Some(step), Unmet(Emissions))];
    }
    for k := 0 to |want|
      invariant AllOf(found, step, Emissions)
      invariant found == [] <==> forall j :: 0 <= j < k ==> EmissionMatches(view, want[j], got[j])
    {
      if PortText(view, got[k].port) != want[k].port {
        found := found + [Violation(Some(step), Unmet(Emissions))];
        continue;
      }
      var bytes := view.codec.encode(got[k].batch);
      var hex := Hex.Hex(bytes);
      Hex.ComparingHexComparesBytes(bytes, want[k].batch);
      if hex != Hex.Lower(want[k].batch) {
        found := found + [Violation(Some(step), Unmet(Emissions))];
      }
    }
  }

  method CheckLogs(step: nat, want: seq<LogExpect>, got: seq<LogLine>) returns (found: seq<Violation>)
    ensures AllOf(found, step, Logs)
    ensures found == [] <==> LogsMet(want, got)
  {
    found := [];
    if |want| != |got| {
      return [Violation(Some(step), Unmet(Logs))];
    }
    for k := 0 to |want|
      invariant AllOf(found, step, Logs)
      invariant found == [] <==> forall j :: 0 <= j < k ==> LogMatches(want[j], got[j])
    {
      var contained := FindPart(got[k].message, want[k].contains);
      if got[k].level != want[k].level || !contained {
        found := found + [Violation(Some(step), Unmet(Logs))];
      }
    }
  }

  method CheckErrors(step: nat, want: seq<ErrorExpect>, got: seq<Detail>) returns (found: seq<Violation>)
    ensures AllOf(found, step, Errors)
    ensures found == [] <==> ErrorsMet(want, got)
  {
    found := [];
    if |want| != |got| {
      return [Violation(Some(step), Unmet(Errors))];
    }
    for k := 0 to |want|
      invariant AllOf(found, step, Errors)
      invariant found == [] <==> forall j :: 0 <= j < k ==> ErrorMatches(want[j], got[j])
    {
      var contained := FindPart(got[k].message, want[k].contains);
      if got[k].status.AsI32() != want[k].code || !contained {
        found := found + [Violation(Some(step), Unmet(Errors))];
      }
    }
  }

  /** Property failures as the scenario spells them: by name, with the signal they happened on. */
  function Spelled(view: View, got: seq<PropFailure>): (spelled: seq<PropFailureExpect>)
    ensures |spelled| == |got|
    ensures forall k :: 0 <= k < |got| ==> FailureMatches(view, spelled[k], got[k])
  {
    seq(|got|, k requires 0 <= k < |got| => PropFailureExpect(PropertyText(view, got[k].propId), got[k].signal))
  }

  /** Among these clauses, exactly the unmet ones are complained of, and nothing else is. */
  ghost predicate Exactly(found: seq<Violation>, clauses: set<Clause>, step: nat, view: View, want: Expect, got: Observed) {
    && (forall v :: v in found ==> v.step == Some(step) && v.what.Unmet?)
    && forall c: Clause ::
      Violation(Some(step), Unmet(c)) in found <==> c in clauses && !Met(c, view, want, got)
  }

  lemma ExactlyBoth(a: seq<Violation>, some: set<Clause>, b: seq<Violation>, others: set<Clause>,
                    step: nat, view: View, want: Expect, got: Observed)
    requires Exactly(a, some, step, view, want, got) && Exactly(b, others, step, view, want, got)
    ensures Exactly(a + b, some + others, step, view, want, got)
  {
  }

  /** The outcomes a step reports at most one of: a rejection by the block, a refusal by the host. */
  method CheckOutcome(step: nat, view: View, want: Expect, got: Observed) returns (found: seq<Violation>)
    ensures Exactly(found, {Rejection, Refusal, StatusClause}, step, view, want, got)
  {
    found := [];
    match (want.rejected, got.rejected) {
      case (Some(code), Some(number)) =>
        if code.AsI32() != number {
          found := found + [Violation(Some(step), Unmet(Rejection))];
        }
      case (None, None) =>
      case _ => found := found + [Violation(Some(step), Unmet(Rejection))];
    }
    match (want.refused, got.refused) {
      case (Some(kind), Some(other)) =>
        if kind != other {
          found := found + [Violation(Some(step), Unmet(Refusal))];
        }
      case (None, None) =>
      case _ => found := found + [Violation(Some(step), Unmet(Refusal))];
    }
    if want.status.Some? && got.status != want.status {
      found := found + [Violation(Some(step), Unmet(StatusClause))];
    }
  }

  /** The lists a step collected, each compared only when the scenario names it. */
  method CheckLists(step: nat, view: View, want: Expect, got: Observed) returns (found: seq<Violation>)
    ensures Exactly(found, {Emissions, Logs, Errors}, step, view, want, got)
  {
    var emissions, logs, errors := [], [], [];
    if want.emissions.Some? {
      emissions := CheckEmissions(step, view, want.emissions.value, got.heard.emissions);
    }
    if want.logs.Some? {
      logs := CheckLogs(step, want.logs.value, got.heard.logs);
    }
    if want.errors.Some? {
      errors := CheckErrors(step, want.errors.value, got.heard.details);
    }
    assert emissions != [] ==> emissions[0] in emissions;
    assert logs != [] ==> logs[0] in logs;
    assert errors != [] ==> errors[0] in errors;
    found := emissions + logs + errors;
  }

  method CheckCounts(step: nat, view: View, want: Expect, got: Observed) returns (found: seq<Violation>)
    ensures Exactly(found, {Calls, Evaluations, Failures}, step, view, want, got)
  {
    found := [];
    if want.calls.Some? && want.calls.value != got.calls {
      found := found + [Violation(Some(step), Unmet(Calls))];
    }
    if want.evaluations.Some? && want.evaluations.value != got.heard.evaluations {
      found := found + [Violation(Some(step), Unmet(Evaluations))];
    }
    if want.propertyFailures.Some? {
      SpellingIsFaithful(view, want.propertyFailures.value, got.heard.failures);
      if want.propertyFailures.value != Spelled(view, got.heard.failures) {
        found := found + [Violation(Some(step), Unmet(Failures))];
      }
    }
  }

  lemma SpellingIsFaithful(view: View, want: seq<PropFailureExpect>, got: seq<PropFailure>)
    ensures want == Spelled(view, got) <==> FailuresMet(view, want, got)
  {
    var spelled := Spelled(view, got);
    if FailuresMet(view, want, got) {
      forall k | 0 <= k < |want| ensures want[k] == spelled[k] {
        assert FailureMatches(view, want[k], got[k]) && FailureMatches(view, spelled[k], got[k]);
      }
    }
  }

  const CLAUSES: set<Clause> :=
    {Death, Rejection, Refusal, StatusClause, Emissions, Logs, Errors, Calls, Evaluations, Failures}

  lemma EveryClauseIsCompared(c: Clause)
    ensures c in CLAUSES
  {
    assert c.Death? || c.Rejection? || c.Refusal? || c.StatusClause? || c.Emissions? || c.Logs? || c.Errors?
        || c.Calls? || c.Evaluations? || c.Failures?;
  }

  lemma NothingFoundIsSatisfied(found: seq<Violation>, step: nat, view: View, want: Expect, got: Observed)
    requires Exactly(found, CLAUSES, step, view, want, got)
    ensures found == [] <==> Satisfies(view, want, got)
  {
    if found != [] {
      assert found[0] in found && found[0] == Violation(Some(step), Unmet(found[0].what.clause));
    }
    if c: Clause :| !Met(c, view, want, got) {
      EveryClauseIsCompared(c);
      assert Violation(Some(step), Unmet(c)) in found;
    }
  }

  /**
   * The whole comparison. A death nobody asked for is the step's one complaint; otherwise each
   * clause is complained of exactly when it is not met, and nothing else is.
   */
  method Check(step: nat, view: View, want: Expect, got: Observed) returns (found: seq<Violation>)
    ensures DiedUnasked(want, got) ==> found == [Violation(Some(step), Unmet(Death))]
    ensures !DiedUnasked(want, got) ==> Exactly(found, CLAUSES, step, view, want, got)
    ensures found == [] <==> Satisfies(view, want, got)
  {
    found := [];
    match want.dead {
      case Some(kind) =>
        if got.dead != Some(kind) {
          found := [Violation(Some(step), Unmet(Death))];
        }
      case None =>
        if got.dead.Some? {
          assert !Met(Death, view, want, got);
          return [Violation(Some(step), Unmet(Death))];
        }
    }
    assert Exactly(found, {Death}, step, view, want, got);
    var outcome := CheckOutcome(step, view, want, got);
    ExactlyBoth(found, {Death}, outcome, {Rejection, Refusal, StatusClause}, step, view, want, got);
    found := found + outcome;
    var lists := CheckLists(step, view, want, got);
    ExactlyBoth(found, {Death} + {Rejection, Refusal, StatusClause}, lists, {Emissions, Logs, Errors}, step, view, want, got);
    found := found + lists;
    var counts := CheckCounts(step, view, want, got);
    ghost var before := {Death} + {Rejection, Refusal, StatusClause} + {Emissions, Logs, Errors};
    ExactlyBoth(found, before, counts, {Calls, Evaluations, Failures}, step, view, want, got);
    found := found + counts;
    assert before + {Calls, Evaluations, Failures} == CLAUSES;
    NothingFoundIsSatisfied(found, step, view, want, got);
  }
}
