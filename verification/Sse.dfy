/** The server's side of an event stream, and exactly which events survive being printed and read. */
module Sse {
  import opened Common
  import opened Client

  /** The lines after the first, each with the separator before it. */
  function Rest(lines: seq<string>): string {
    if lines == [] then "" else "\n" + (lines[0] + Rest(lines[1..]))
  }

  function Joined(lines: seq<string>): string {
    if lines == [] then "" else lines[0] + Rest(lines[1..])
  }

  function SplitLines(data: string): (lines: seq<string>)
    ensures |lines| > 0 && forall i :: 0 <= i < |lines| ==> '\n' !in lines[i]
    ensures Joined(lines) == data
  {
    if data == "" then [""]
    else
      var rest := SplitLines(data[1..]);
      if data[0] == '\n' then [""] + rest
      else
        assert ([[data[0]] + rest[0]] + rest[1..])[1..] == rest[1..];
        [[data[0]] + rest[0]] + rest[1..]
  }

  function NameLine(name: string): string {
    "event: " + name + "\n"
  }

  function DataLine(x: string): string {
    "data: " + x + "\n"
  }

  function DataLines(lines: seq<string>): seq<string> {
    if lines == [] then [] else [DataLine(lines[0])] + DataLines(lines[1..])
  }

  /** One event as a server prints it: its name, each line of its data, and a blank line. */
  function PrintLines(e: Event): seq<string> {
    [NameLine(e.name)] + DataLines(SplitLines(e.data)) + ["\n"]
  }

  function Flatten(lines: seq<string>): string {
    if lines == [] then "" else lines[0] + Flatten(lines[1..])
  }

  function Print(e: Event): string {
    Flatten(PrintLines(e))
  }

  function PrintAll(events: seq<Event>): string {
    if events == [] then "" else Print(events[0]) + PrintAll(events[1..])
  }

  /** One line of text and its newline. */
  predicate IsLine(line: string) {
    |line| > 0 && line[|line| - 1] == '\n' && '\n' !in line[..|line| - 1]
  }

  lemma OneIsLine(line: string)
    requires IsLine(line)
    ensures WholeLines(line) && Lines(line) == [line]
  {
    var x := line[..|line| - 1];
    assert x + "\n" == line;
    OneLine(x);
  }

  lemma {:induction false} LinesOfFlattened(lines: seq<string>)
    requires forall i :: 0 <= i < |lines| ==> IsLine(lines[i])
    ensures WholeLines(Flatten(lines)) && Lines(Flatten(lines)) == lines
  {
    if lines != [] {
      OneIsLine(lines[0]);
      LinesOfFlattened(lines[1..]);
      LinesConcat(lines[0], Flatten(lines[1..]));
      assert [lines[0]] + lines[1..] == lines;
    }
  }

  lemma {:induction false} PrintedLinesAreLines(lines: seq<string>)
    requires forall i :: 0 <= i < |lines| ==> '\n' !in lines[i]
    ensures forall i :: 0 <= i < |DataLines(lines)| ==> IsLine(DataLines(lines)[i])
  {
    if lines != [] {
      assert DataLine(lines[0])[..|DataLine(lines[0])| - 1] == "data: " + lines[0];
      PrintedLinesAreLines(lines[1..]);
    }
  }

  lemma PrintIsItsLines(e: Event)
    requires '\n' !in e.name
    ensures WholeLines(Print(e)) && Lines(Print(e)) == PrintLines(e)
  {
    assert NameLine(e.name)[..|NameLine(e.name)| - 1] == "event: " + e.name;
    PrintedLinesAreLines(SplitLines(e.data));
    LinesOfFlattened(PrintLines(e));
  }

  /** What a field's text reads back as. */
  function Read(x: string): string {
    TrimStart(TrimEnd(x))
  }

  /** Text the reader's trimming leaves alone. */
  predicate Clean(x: string) {
    x == "" || (!IsWhitespace(x[0]) && x[|x| - 1] != '\r' && x[|x| - 1] != '\n')
  }

  lemma {:induction false} TrimStartShrinks(s: string)
    ensures |TrimStart(s)| <= |s|
    ensures |TrimStart(s)| == |s| <==> s == "" || !IsWhitespace(s[0])
  {
    if s != "" && IsWhitespace(s[0]) {
      TrimStartShrinks(s[1..]);
    }
  }

  lemma {:induction false} TrimEndShrinks(s: string)
    ensures |TrimEnd(s)| <= |s|
    ensures |TrimEnd(s)| == |s| <==> s == "" || (s[|s| - 1] != '\n' && s[|s| - 1] != '\r')
  {
    if s != "" && (s[|s| - 1] == '\n' || s[|s| - 1] == '\r') {
      TrimEndShrinks(s[..|s| - 1]);
    }
  }

  lemma ReadShrinks(x: string)
    ensures |Read(x)| <= |x|
    ensures |Read(x)| == |x| <==> Clean(x)
    ensures Clean(x) ==> Read(x) == x
  {
    TrimEndShrinks(x);
    TrimStartShrinks(TrimEnd(x));
  }

  lemma {:induction false} TrimEndKeepsPrefix(p: string, x: string)
    requires p != "" && p[|p| - 1] != '\n' && p[|p| - 1] != '\r'
    ensures TrimEnd(p + x) == p + TrimEnd(x)
    decreases |x|
  {
    if x == "" {
      assert p + x == p;
    } else {
      assert (p + x)[|p + x| - 1] == x[|x| - 1];
      if x[|x| - 1] == '\n' || x[|x| - 1] == '\r' {
        assert (p + x)[..|p + x| - 1] == p + x[..|x| - 1];
        TrimEndKeepsPrefix(p, x[..|x| - 1]);
      }
    }
  }

  /** What trimming a printed field's line leaves: the field name, a space, and the text less its end. */
  lemma FieldTrims(field: string, x: string)
    ensures TrimEnd(field + " " + x + "\n") == field + (" " + TrimEnd(x))
    ensures TrimStart(" " + TrimEnd(x)) == Read(x)
  {
    FieldLine(field, x);
    TrimEndKeepsPrefix(field + " ", x + "\n");
    NewlineTrims(x);
    Regroup(field, " ", TrimEnd(x));
    SpaceTrims(TrimEnd(x));
  }

  lemma FieldLine(field: string, x: string)
    ensures field + " " + x + "\n" == (field + " ") + (x + "\n")
  {
    Regroup(field + " ", x, "\n");
  }

  lemma NewlineTrims(x: string)
    ensures TrimEnd(x + "\n") == TrimEnd(x)
  {
    assert (x + "\n")[..|x + "\n"| - 1] == x;
  }

  lemma SpaceTrims(x: string)
    ensures TrimStart(" " + x) == TrimStart(x)
  {
    assert (" " + x)[1..] == x;
  }

  lemma NameFolds(block: Block, name: string)
    ensures !IsBlank(NameLine(name)) && Fold(block, NameLine(name)) == block.(name := Read(name))
  {
    FieldTrims("event:", name);
    assert NameLine(name) == "event:" + " " + name + "\n";
    var trimmed := TrimEnd(NameLine(name));
    assert trimmed[..6] == "event:" && trimmed[6..] == " " + TrimEnd(name);
  }

  function Grown(data: string, x: string): string {
    (if data != "" then data + "\n" else "") + Read(x)
  }

  lemma DataFolds(block: Block, x: string)
    ensures !IsBlank(DataLine(x)) && Fold(block, DataLine(x)) == block.(data := Grown(block.data, x))
  {
    FieldTrims("data:", x);
    assert DataLine(x) == "data:" + " " + x + "\n";
    var trimmed := TrimEnd(DataLine(x));
    assert trimmed[..5] == "data:" && trimmed[5..] == " " + TrimEnd(x);
    assert trimmed[0] == 'd';
  }

  lemma LineFolds(block: Block, line: string, rest: seq<string>)
    requires !IsBlank(line)
    ensures EventsFrom(block, [line] + rest) == EventsFrom(Fold(block, line), rest)
  {
    assert ([line] + rest)[1..] == rest;
  }

  /** The data a run of printed lines adds up to: a separator is lost while there is nothing before it. */
  function Accumulated(data: string, lines: seq<string>): string
    decreases lines
  {
    if lines == [] then data else Accumulated(Grown(data, lines[0]), lines[1..])
  }

  lemma {:induction false} DataLinesFold(block: Block, lines: seq<string>)
    requires block.name != ""
    ensures EventsFrom(block, DataLines(lines) + ["\n"]) == [Event(block.name, Accumulated(block.data, lines))]
    decreases lines
  {
    if lines == [] {
      assert DataLines(lines) + ["\n"] == ["\n"];
      assert TrimEnd("\n") == "";
    } else {
      DataFolds(block, lines[0]);
      var rest := DataLines(lines[1..]) + ["\n"];
      LineFolds(block, DataLine(lines[0]), rest);
      assert DataLines(lines) + ["\n"] == [DataLine(lines[0])] + rest;
      DataLinesFold(block.(data := Grown(block.data, lines[0])), lines[1..]);
    }
  }

  lemma {:induction false} NamelessLinesFold(block: Block, lines: seq<string>)
    requires block.name == ""
    ensures EventsFrom(block, DataLines(lines) + ["\n"]) == []
    decreases lines
  {
    if lines == [] {
      assert DataLines(lines) + ["\n"] == ["\n"];
      assert TrimEnd("\n") == "";
    } else {
      DataFolds(block, lines[0]);
      var rest := DataLines(lines[1..]) + ["\n"];
      LineFolds(block, DataLine(lines[0]), rest);
      assert DataLines(lines) + ["\n"] == [DataLine(lines[0])] + rest;
      NamelessLinesFold(block.(data := Grown(block.data, lines[0])), lines[1..]);
    }
  }

  /** What one printed event reads back as. An event with nothing left of its name is not dispatched. */
  function ReadBack(e: Event): seq<Event> {
    if Read(e.name) == "" then [] else [Event(Read(e.name), Accumulated("", SplitLines(e.data)))]
  }

  lemma DataIsDispatched(name: string, lines: seq<string>)
    ensures EventsFrom(Block(name, ""), DataLines(lines) + ["\n"]) == if name == "" then [] else [Event(name, Accumulated("", lines))]
  {
    if name == "" {
      NamelessLinesFold(Block(name, ""), lines);
    } else {
      DataLinesFold(Block(name, ""), lines);
    }
  }

  lemma PrintedIsDispatched(e: Event)
    requires '\n' !in e.name
    ensures EventsFrom(EMPTY, PrintLines(e)) == ReadBack(e)
  {
    var line, rest := NameLine(e.name), DataLines(SplitLines(e.data)) + ["\n"];
    NameFolds(EMPTY, e.name);
    LineFolds(EMPTY, line, rest);
    DataIsDispatched(Read(e.name), SplitLines(e.data));
    assert PrintLines(e) == [line] + rest;
  }

  lemma PrintedReadsBack(e: Event)
    requires '\n' !in e.name
    ensures EventsFrom(EMPTY, PrintLines(e)) == ReadBack(e) && Left(EMPTY, PrintLines(e)) == EMPTY
  {
    PrintedIsDispatched(e);
    LeftByABlank(EMPTY, [NameLine(e.name)] + DataLines(SplitLines(e.data)));
  }

  lemma {:induction false} LeftByABlank(block: Block, lines: seq<string>)
    ensures Left(block, lines + ["\n"]) == EMPTY
    decreases lines
  {
    if lines == [] {
      assert lines + ["\n"] == ["\n"] && TrimEnd("\n") == "";
    } else {
      assert (lines + ["\n"])[0] == lines[0] && (lines + ["\n"])[1..] == lines[1..] + ["\n"];
      LeftByABlank(if IsBlank(lines[0]) then EMPTY else Fold(block, lines[0]), lines[1..]);
    }
  }

  predicate AllClean(lines: seq<string>) {
    forall i :: 0 <= i < |lines| ==> Clean(lines[i])
  }

  lemma {:induction false} AccumulatesAll(data: string, lines: seq<string>)
    requires data != ""
    ensures |Accumulated(data, lines)| <= |data| + |Rest(lines)|
    ensures |Accumulated(data, lines)| == |data| + |Rest(lines)| <==> AllClean(lines)
    ensures AllClean(lines) ==> Accumulated(data, lines) == data + Rest(lines)
    decreases lines
  {
    if lines == [] {
      assert data + "" == data;
    } else {
      var x := lines[0];
      ReadShrinks(x);
      AccumulatesAll(Grown(data, x), lines[1..]);
      assert AllClean(lines) <==> Clean(x) && AllClean(lines[1..]) by {
        assert forall i :: 0 < i < |lines| ==> lines[i] == lines[1..][i - 1];
      }
      if AllClean(lines) {
        assert data + "\n" + x + Rest(lines[1..]) == data + ("\n" + (x + Rest(lines[1..])));
      }
    }
  }

  /** Data that comes back whole: every line clean, and the first one not empty unless it is alone. */
  predicate Keeps(lines: seq<string>)
    requires |lines| > 0
  {
    AllClean(lines) && (|lines| == 1 || lines[0] != "")
  }

  lemma {:induction false} AccumulatesFromNothing(lines: seq<string>)
    requires |lines| > 0
    ensures |Accumulated("", lines)| <= |Joined(lines)|
    ensures Accumulated("", lines) == Joined(lines) <==> Keeps(lines)
    decreases lines
  {
    var x := lines[0];
    ReadShrinks(x);
    assert Grown("", x) == Read(x);
    assert AllClean(lines) <==> Clean(x) && AllClean(lines[1..]) by {
      assert forall i :: 0 < i < |lines| ==> lines[i] == lines[1..][i - 1];
    }
    if Read(x) != "" {
      AccumulatesAll(Read(x), lines[1..]);
    } else if |lines| > 1 {
      AccumulatesFromNothing(lines[1..]);
    }
  }

  /** Exactly which events a reader gets back as they were. */
  predicate Survives(e: Event) {
    e.name != "" && Clean(e.name) && Keeps(SplitLines(e.data))
  }

  lemma ReadBackIsTheEvent(e: Event)
    ensures ReadBack(e) == [e] <==> Survives(e)
  {
    ReadShrinks(e.name);
    AccumulatesFromNothing(SplitLines(e.data));
  }

  function ReadBackAll(events: seq<Event>): seq<Event> {
    if events == [] then [] else ReadBack(events[0]) + ReadBackAll(events[1..])
  }

  lemma OneReadsBack(e: Event, after: string, ending: Ending)
    requires '\n' !in e.name
    ensures EventsOf(Print(e) + after, ending) == ReadBack(e) + EventsOf(after, ending)
  {
    PrintIsItsLines(e);
    PrintedReadsBack(e);
    SeenConcat(Print(e), after, ending);
    EventsConcat(EMPTY, PrintLines(e), Seen(after, ending));
  }

  /** A printed stream, and whatever follows it: the events read back, then the rest on its own. */
  lemma {:induction false} StreamsReadBack(events: seq<Event>, after: string, ending: Ending)
    requires forall i :: 0 <= i < |events| ==> '\n' !in events[i].name
    ensures EventsOf(PrintAll(events) + after, ending) == ReadBackAll(events) + EventsOf(after, ending)
    decreases events
  {
    if events == [] {
      assert PrintAll(events) + after == after;
    } else {
      Regroup(Print(events[0]), PrintAll(events[1..]), after);
      OneReadsBack(events[0], PrintAll(events[1..]) + after, ending);
      StreamsReadBack(events[1..], after, ending);
      Regroup(ReadBack(events[0]), ReadBackAll(events[1..]), EventsOf(after, ending));
    }
  }

  /** Reading undoes printing for one event exactly when the event survives the reader's trimming. */
  lemma ReadUndoesPrint(e: Event, ending: Ending)
    requires '\n' !in e.name
    ensures EventsOf(Print(e), ending) == [e] <==> Survives(e)
  {
    PrintAlone(e, ending);
    ReadBackIsTheEvent(e);
  }

  /** And for a whole stream of them, however it stops. */
  lemma {:induction false} ReadUndoesPrinting(events: seq<Event>, ending: Ending)
    requires forall i :: 0 <= i < |events| ==> '\n' !in events[i].name && Survives(events[i])
    ensures EventsOf(PrintAll(events), ending) == events
  {
    StreamsReadBack(events, "", ending);
    assert PrintAll(events) + "" == PrintAll(events);
    assert EventsOf("", ending) == [];
    AllReadBack(events);
  }

  lemma {:induction false} AllReadBack(events: seq<Event>)
    requires forall i :: 0 <= i < |events| ==> Survives(events[i])
    ensures ReadBackAll(events) == events
  {
    if events != [] {
      ReadBackIsTheEvent(events[0]);
      AllReadBack(events[1..]);
    }
  }

  lemma OneSplit()
    ensures SplitLines("\nb") == ["", "b"]
  {
    var data := "\nb";
    assert data[1..] == "b" && "b"[1..] == "";
    assert SplitLines("") == [""] && [""][1..] == [];
    assert ['b'] + "" == "b";
    assert SplitLines("b") == [['b'] + ""] + [""][1..] == ["b"];
    assert SplitLines(data) == [""] + ["b"] == ["", "b"];
  }

  lemma OneAccumulation()
    ensures Accumulated("", ["", "b"]) == "b"
  {
    ReadShrinks("b");
    ReadShrinks("");
    assert ["", "b"][1..] == ["b"] && ["b"][1..] == [];
    assert Grown("", "") == "" && Grown("", "b") == "b";
    assert Accumulated("", ["", "b"]) == Accumulated("", ["b"]) == Accumulated("b", []) == "b";
  }

  lemma OneReadBack()
    ensures ReadBack(Event("a", "\nb")) == [Event("a", "b")]
  {
    OneSplit();
    OneAccumulation();
    ReadShrinks("a");
  }

  /** One event that comes back as another: nothing precedes the newline its data begins with. */
  lemma OneEventDoesNotSurvive(ending: Ending)
    ensures EventsOf(Print(Event("a", "\nb")), ending) == [Event("a", "b")]
    ensures !Survives(Event("a", "\nb"))
  {
    var e := Event("a", "\nb");
    OneReadBack();
    ReadBackIsTheEvent(e);
    assert |e.data| == 2 && |[e]| == 1 && [e][0] == e;
    PrintAlone(e, ending);
  }

  lemma PrintAlone(e: Event, ending: Ending)
    requires '\n' !in e.name
    ensures EventsOf(Print(e), ending) == ReadBack(e)
  {
    OneReadsBack(e, "", ending);
    assert Print(e) + "" == Print(e) && EventsOf("", ending) == [];
    assert ReadBack(e) + [] == ReadBack(e);
  }
}
