/** The client's server-sent-event reader: lines in, one named event out per blank-line block. */
module Client {
  import opened Common

  datatype Event = Event(name: string, data: string)

  /** Unicode's `White_Space`, which is what `trim_start` removes. */
  predicate IsWhitespace(c: char) {
    || '\U{0009}' <= c <= '\U{000D}' || c == ' ' || c == '\U{0085}' || c == '\U{00A0}' || c == '\U{1680}'
    || '\U{2000}' <= c <= '\U{200A}' || c == '\U{2028}' || c == '\U{2029}' || c == '\U{202F}'
    || c == '\U{205F}' || c == '\U{3000}'
  }

  function TrimStart(s: string): (t: string)
    ensures t == "" || !IsWhitespace(t[0])
    ensures s == "" || !IsWhitespace(s[0]) ==> t == s
  {
    if s != "" && IsWhitespace(s[0]) then TrimStart(s[1..]) else s
  }

  /** `trim_end_matches(['\n', '\r'])`. */
  function TrimEnd(s: string): (t: string)
    ensures s == "" || (s[|s| - 1] != '\n' && s[|s| - 1] != '\r') ==> t == s
  {
    if s != "" && (s[|s| - 1] == '\n' || s[|s| - 1] == '\r') then TrimEnd(s[..|s| - 1]) else s
  }

  /** What `read_line` takes: everything up to and including the next newline, or all that is left. */
  function LineEnd(text: string): (n: nat)
    ensures n <= |text|
    ensures text != "" ==> n > 0
    ensures n < |text| ==> text[n - 1] == '\n'
    ensures forall i :: 0 <= i < n - 1 ==> text[i] != '\n'
  {
    if text == "" then 0
    else if text[0] == '\n' then 1
    else 1 + LineEnd(text[1..])
  }

  function Lines(text: string): seq<string> {
    if text == "" then [] else [text[..LineEnd(text)]] + Lines(text[LineEnd(text)..])
  }

  /** How a stream stops: closed by the peer, or failing under the read that would have come next. */
  datatype Ending = Closed | Broken

  /** The block being read. */
  datatype Block = Block(name: string, data: string)

  const EMPTY := Block("", "")

  predicate Prefixed(line: string, prefix: string) {
    |prefix| <= |line| && line[..|prefix|] == prefix
  }

  predicate IsBlank(line: string) {
    TrimEnd(line) == ""
  }

  /** What a line that ends no block does to it. */
  function Fold(block: Block, line: string): Block {
    var trimmed := TrimEnd(line);
    if Prefixed(trimmed, "event:") then block.(name := TrimStart(trimmed[6..]))
    else if Prefixed(trimmed, "data:") then
      block.(data := (if block.data != "" then block.data + "\n" else "") + TrimStart(trimmed[5..]))
    else block
  }

  /** Which lines a block reads, by what they begin with, and what of them it keeps; every other line leaves it as it was. */
  lemma FoldsExactly(block: Block, line: string, rest: string)
    ensures TrimEnd(line) == "event:" + rest ==> Fold(block, line) == block.(name := TrimStart(rest))
    ensures TrimEnd(line) == "data:" + rest ==>
      Fold(block, line) == block.(data := if block.data == "" then TrimStart(rest) else block.data + "\n" + TrimStart(rest))
    ensures !("event:" <= TrimEnd(line)) && !("data:" <= TrimEnd(line)) ==> Fold(block, line) == block
  {
    var trimmed := TrimEnd(line);
    if trimmed == "event:" + rest {
      assert trimmed[..6] == "event:" && trimmed[6..] == rest;
    }
    if trimmed == "data:" + rest {
      assert trimmed[0] == 'd' && trimmed[..5] == "data:" && trimmed[5..] == rest;
      assert "" + TrimStart(rest) == TrimStart(rest);
    }
  }

  /** The events a run of lines dispatches, starting inside `block`. */
  function EventsFrom(block: Block, lines: seq<string>): seq<Event>
    decreases lines
  {
    if lines == [] then []
    else if IsBlank(lines[0]) then
      (if block.name != "" then [Event(block.name, block.data)] else []) + EventsFrom(EMPTY, lines[1..])
    else EventsFrom(Fold(block, lines[0]), lines[1..])
  }

  /** The lines a reader sees before the stream ends: a failing read takes the unfinished line with it. */
  function Seen(text: string, ending: Ending): seq<string> {
    match ending
    case Closed => Lines(text)
    case Broken => Lines(text[..LastNewline(text)])
  }

  /** Just past the last newline. */
  function LastNewline(text: string): (n: nat)
    ensures n <= |text| && (n > 0 ==> text[n - 1] == '\n')
    ensures forall i :: n <= i < |text| ==> text[i] != '\n'
  {
    if text == "" then 0
    else if text[|text| - 1] == '\n' then |text|
    else LastNewline(text[..|text| - 1])
  }

  function EventsOf(text: string, ending: Ending): seq<Event> {
    EventsFrom(EMPTY, Seen(text, ending))
  }

  /** A callback: it keeps state of its own, and may refuse to be called again. */
  type OnEvent<!S> = (S, Event) -> (S, bool)

  datatype Outcome = Finished | Refused | Failed

  /** Handing events to a callback one at a time until it refuses. */
  function Deliver<S>(events: seq<Event>, onEvent: OnEvent<S>, s: S): (S, bool)
    decreases events
  {
    if events == [] then (s, true)
    else
      var (next, more) := onEvent(s, events[0]);
      if more then Deliver(events[1..], onEvent, next) else (next, false)
  }

  /** What is still to be delivered of the text ahead, with `block` open. */
  function Ahead<S>(block: Block, text: string, onEvent: OnEvent<S>, s: S): (S, bool) {
    Deliver(EventsFrom(block, Lines(text)), onEvent, s)
  }

  /** A blank line hands the block over, when it has a name, and starts another. */
  lemma BlockEnds<S>(block: Block, lines: seq<string>, onEvent: OnEvent<S>, s: S)
    requires lines != [] && IsBlank(lines[0])
    ensures
      var rest := EventsFrom(EMPTY, lines[1..]);
      Deliver(EventsFrom(block, lines), onEvent, s) ==
        if block.name == "" then Deliver(rest, onEvent, s)
        else
          var (next, more) := onEvent(s, Event(block.name, block.data));
          if more then Deliver(rest, onEvent, next) else (next, false)
  {
    var rest := EventsFrom(EMPTY, lines[1..]);
    if block.name == "" {
      assert [] + rest == rest;
    } else {
      assert ([Event(block.name, block.data)] + rest)[1..] == rest;
    }
  }

  lemma LineIsFirst(text: string)
    requires text != ""
    ensures Lines(text) != [] && Lines(text)[0] == text[..LineEnd(text)] && Lines(text)[1..] == Lines(text[LineEnd(text)..])
  {
  }

  /** What reading one more line does to what is still to be delivered. */
  lemma OneLineOn<S>(block: Block, text: string, onEvent: OnEvent<S>, s: S)
    requires text != ""
    ensures
      var line, rest := text[..LineEnd(text)], text[LineEnd(text)..];
      Ahead(block, text, onEvent, s) ==
        if !IsBlank(line) then Ahead(Fold(block, line), rest, onEvent, s)
        else if block.name == "" then Ahead(EMPTY, rest, onEvent, s)
        else
          var (next, more) := onEvent(s, Event(block.name, block.data));
          if more then Ahead(EMPTY, rest, onEvent, next) else (next, false)
  {
    LineIsFirst(text);
    if IsBlank(text[..LineEnd(text)]) {
      BlockEnds(block, Lines(text), onEvent, s);
    }
  }

  /** What of a stream can be read: all of it, or the whole lines before the failing read. */
  function Readable(text: string, ending: Ending): (stream: string)
    ensures Lines(stream) == Seen(text, ending)
  {
    match ending
    case Closed => text
    case Broken => text[..LastNewline(text)]
  }

  /**
   * The loop: it dispatches exactly the events of the stream, in order, until the callback refuses,
   * and it fails only when the stream does.
   */
  method ReadSse<S>(text: string, ending: Ending, onEvent: OnEvent<S>, start: S) returns (s: S, outcome: Outcome)
    ensures (s, outcome) ==
      var (last, more) := Deliver(EventsOf(text, ending), onEvent, start);
      (last, if !more then Refused else if ending == Broken then Failed else Finished)
  {
    var rest := Readable(text, ending);
    ghost var all := Ahead(EMPTY, rest, onEvent, start);
    var block := EMPTY;
    s := start;
    while rest != ""
      invariant Ahead(block, rest, onEvent, s) == all
      decreases |rest|
    {
      OneLineOn(block, rest, onEvent, s);
      var line := rest[..LineEnd(rest)];
      rest := rest[LineEnd(rest)..];
      if IsBlank(line) {
        if block.name != "" {
          var (next, more) := onEvent(s, Event(block.name, block.data));
          s := next;
          if !more {
            return s, Refused;
          }
        }
        block := EMPTY;
        continue;
      }
      block := Fold(block, line);
    }
    outcome := if ending == Broken then Failed else Finished;
  }

  // What a reader of the protocol relies on.

  lemma {:induction false} EventsConcat(block: Block, a: seq<string>, b: seq<string>)
    ensures EventsFrom(block, a + b) == EventsFrom(block, a) + EventsFrom(Left(block, a), b)
    decreases a
  {
    if a == [] {
      assert a + b == b;
    } else {
      assert (a + b)[0] == a[0] && (a + b)[1..] == a[1..] + b;
      if IsBlank(a[0]) {
        EventsConcat(EMPTY, a[1..], b);
      } else {
        EventsConcat(Fold(block, a[0]), a[1..], b);
      }
    }
  }

  /** The block a run of lines leaves open. */
  function Left(block: Block, lines: seq<string>): Block
    decreases lines
  {
    if lines == [] then block
    else if IsBlank(lines[0]) then Left(EMPTY, lines[1..])
    else Left(Fold(block, lines[0]), lines[1..])
  }

  /** A line the client does not act on: a comment, an `id:`, a `retry:`, or anything unknown. */
  predicate IsIgnored(line: string) {
    !IsBlank(line) && !Prefixed(TrimEnd(line), "event:") && !Prefixed(TrimEnd(line), "data:")
  }

  // The same, said of the stream's text.

  /** Text that stops between lines. */
  predicate WholeLines(text: string) {
    text == "" || text[|text| - 1] == '\n'
  }

  lemma LineEndOfFirst(a: string, b: string)
    requires WholeLines(a) && a != ""
    ensures LineEnd(a + b) == LineEnd(a)
    ensures WholeLines(a[LineEnd(a)..])
  {
    var n := LineEnd(a);
    if a[0] != '\n' {
      assert (a + b)[1..] == a[1..] + b;
      LineEndOfFirst(a[1..], b);
    }
  }

  lemma Cut(a: string, b: string, n: nat)
    requires n <= |a|
    ensures (a + b)[..n] == a[..n] && (a + b)[n..] == a[n..] + b
  {
  }

  lemma {:induction false} LinesConcat(a: string, b: string)
    requires WholeLines(a)
    ensures Lines(a + b) == Lines(a) + Lines(b)
    decreases |a|
  {
    if a == "" {
      assert a + b == b;
    } else {
      LineEndOfFirst(a, b);
      Cut(a, b, LineEnd(a));
      LinesConcat(a[LineEnd(a)..], b);
      Regroup([a[..LineEnd(a)]], Lines(a[LineEnd(a)..]), Lines(b));
    }
  }

  lemma {:induction false} LastNewlineConcat(a: string, b: string)
    requires WholeLines(a)
    ensures LastNewline(a + b) == |a| + LastNewline(b)
    decreases |b|
  {
    if b == "" {
      assert a + b == a;
    } else if b[|b| - 1] != '\n' {
      assert (a + b)[..|a + b| - 1] == a + b[..|b| - 1];
      LastNewlineConcat(a, b[..|b| - 1]);
    }
  }

  lemma SeenConcat(a: string, b: string, ending: Ending)
    requires WholeLines(a)
    ensures Seen(a + b, ending) == Lines(a) + Seen(b, ending)
  {
    match ending
    case Closed => LinesConcat(a, b);
    case Broken =>
      LastNewlineConcat(a, b);
      assert (a + b)[..|a| + LastNewline(b)] == a + b[..LastNewline(b)];
      LinesConcat(a, b[..LastNewline(b)]);
  }

  /** Text without a newline, ended by one, is one line. */
  lemma {:induction false} OneLine(x: string)
    requires '\n' !in x
    ensures Lines(x + "\n") == [x + "\n"]
  {
    EndsOnce(x);
    var line := x + "\n";
    assert line[..|line|] == line && line[|line|..] == "";
  }

  lemma {:induction false} EndsOnce(x: string)
    requires '\n' !in x
    ensures LineEnd(x + "\n") == |x| + 1
  {
    if x != "" {
      assert (x + "\n")[1..] == x[1..] + "\n";
      EndsOnce(x[1..]);
    }
  }

  /** Keep-alives and unused fields change nothing, wherever between two lines of a stream they stand. */
  lemma IgnoredLinesChangeNothing(before: string, x: string, after: string, ending: Ending)
    requires WholeLines(before) && '\n' !in x && IsIgnored(x + "\n")
    ensures EventsOf(before + (x + "\n") + after, ending) == EventsOf(before + after, ending)
  {
    var line := x + "\n";
    assert before + line + after == before + (line + after);
    SeenConcat(before, line + after, ending);
    SeenConcat(line, after, ending);
    SeenConcat(before, after, ending);
    OneLine(x);
    var a, b := Lines(before), Seen(after, ending);
    EventsConcat(EMPTY, a, [line] + b);
    EventsConcat(EMPTY, a, b);
    assert ([line] + b)[1..] == b;
  }

  lemma {:induction false} NoBlankNoEvent(block: Block, lines: seq<string>)
    requires forall i :: 0 <= i < |lines| ==> !IsBlank(lines[i])
    ensures EventsFrom(block, lines) == []
    decreases lines
  {
    if lines != [] {
      NoBlankNoEvent(Fold(block, lines[0]), lines[1..]);
    }
  }

  /** A last block that no blank line ends is never dispatched, however the stream ends. */
  lemma UnfinishedBlocksAreNotDispatched(text: string, tail: string, ending: Ending)
    requires WholeLines(text) && forall i :: 0 <= i < |Seen(tail, ending)| ==> !IsBlank(Seen(tail, ending)[i])
    ensures EventsOf(text + tail, ending) == EventsOf(text, Closed)
  {
    SeenConcat(text, tail, ending);
    EventsConcat(EMPTY, Lines(text), Seen(tail, ending));
    NoBlankNoEvent(Left(EMPTY, Lines(text)), Seen(tail, ending));
  }
}
