/** The bounded reading of an event stream: a count to stop at, and a deadline that is not an error. */
module Mcp {
  import opened Common
  import opened Client

  /** How many events a bound lets through: the count is looked at after an event is kept, so one always is. */
  function Limit(max: U32): U32 {
    if max == 0 then 1 else max
  }

  /** The collecting callback: keep the event, and refuse another once there are enough. */
  function Collect(max: U32): OnEvent<seq<Event>> {
    (kept: seq<Event>, event: Event) => (kept + [event], (|kept| + 1) % 0x1_0000_0000 < max)
  }

  lemma {:induction false} CollectsAPrefix(all: seq<Event>, max: U32, kept: seq<Event>)
    requires |kept| < Limit(max)
    ensures
      var room := Limit(max) - |kept|;
      var (events, more) := Deliver(all, Collect(max), kept);
      && (more <==> |all| < room)
      && events == kept + (if more then all else all[..room])
    decreases all
  {
    if all != [] {
      var grown := kept + [all[0]];
      if |grown| < Limit(max) {
        CollectsAPrefix(all[1..], max, grown);
        var room := Limit(max) - |grown|;
        if |all| - 1 >= room {
          assert all[..room + 1] == [all[0]] + all[1..][..room];
          Regroup(kept, [all[0]], all[1..][..room]);
        } else {
          assert all == [all[0]] + all[1..];
          Regroup(kept, [all[0]], all[1..]);
        }
      } else {
        assert all[..1] == [all[0]];
      }
    } else {
      assert kept + all == kept;
    }
  }

  /**
   * The events a bounded read answers with are a prefix of the stream's, as long as the bound allows,
   * and it says it reached the bound exactly when it stopped there. A stream that breaks is a quiet one.
   */
  method BoundedSse(text: string, ending: Ending, max: U32) returns (events: seq<Event>, reachedMax: bool)
    ensures events <= EventsOf(text, ending)
    ensures reachedMax <==> |EventsOf(text, ending)| >= Limit(max)
    ensures |events| == if reachedMax then Limit(max) else |EventsOf(text, ending)|
  {
    var outcome;
    events, outcome := ReadSse(text, ending, Collect(max), []);
    CollectsAPrefix(EventsOf(text, ending), max, []);
    match outcome {
      case Finished => reachedMax := false;
      case Refused => reachedMax := true;
      case Failed => reachedMax := false;
    }
  }
}
