/** The panic handler's message buffer: fixed, truncating, and never cut mid-character. */
module Panic {
  import opened Common
  import opened Utf8

  const MESSAGE_CAPACITY: nat := 256

  /** How many leading characters of `cs` fit in `room` bytes, copied a character at a time. */
  function Fit(cs: seq<Scalar>, room: nat): (k: nat)
    ensures k <= |cs|
  {
    if cs == [] || |EncodeChar(cs[0])| > room then 0
    else 1 + Fit(cs[1..], room - |EncodeChar(cs[0])|)
  }

  lemma {:induction false} FitFits(cs: seq<Scalar>, room: nat)
    ensures EndOf(cs, Fit(cs, room)) <= room
  {
    if cs != [] && |EncodeChar(cs[0])| <= room {
      var k := Fit(cs[1..], room - |EncodeChar(cs[0])|);
      FitFits(cs[1..], room - |EncodeChar(cs[0])|);
      assert cs[..k + 1][1..] == cs[1..][..k];
    }
  }

  lemma {:induction false} EndsGrow(cs: seq<Scalar>, j: nat, k: nat)
    requires j <= k <= |cs|
    ensures EndOf(cs, j) + (k - j) <= EndOf(cs, k) <= EndOf(cs, j) + 4 * (k - j)
  {
    if j < k {
      EndsGrow(cs, j, k - 1);
      assert cs[..k] == cs[..k - 1] + [cs[k - 1]];
      EncodeConcat(cs[..k - 1], [cs[k - 1]]);
      assert Encode([cs[k - 1]]) == EncodeChar(cs[k - 1]);
    }
  }

  /** Copying stops only where the next character would not fit. */
  lemma {:induction false} FitIsMaximal(cs: seq<Scalar>, room: nat)
    ensures Fit(cs, room) < |cs| ==> EndOf(cs, Fit(cs, room) + 1) > room
  {
    if cs != [] {
      if |EncodeChar(cs[0])| > room {
        assert cs[..1] == [cs[0]];
      } else {
        var k := Fit(cs[1..], room - |EncodeChar(cs[0])|);
        FitIsMaximal(cs[1..], room - |EncodeChar(cs[0])|);
        if k + 1 < |cs| {
          assert cs[..k + 2][1..] == cs[1..][..k + 1];
        }
      }
    }
  }

  /** A boundary that nothing between it and the room exceeds is where copying would have stopped. */
  lemma LastBoundaryIsTheFit(cs: seq<Scalar>, room: nat, take: nat)
    requires var text := Encode(cs);
      && take <= room && take <= |text| && IsCharBoundary(text, take)
      && forall i: nat :: take < i <= room && i <= |text| ==> !IsCharBoundary(text, i)
    ensures take == EndOf(cs, Fit(cs, room))
    ensures take < |Encode(cs)| && take < room ==> room - take <= 3
  {
    BoundariesAreCharacterEnds(cs, take);
    var j :| 0 <= j <= |cs| && EndOf(cs, j) == take;
    var k := Fit(cs, room);
    FitFits(cs, room);
    FitIsMaximal(cs, room);
    BoundariesAreCharacterEnds(cs, EndOf(cs, k));
    assert cs[..|cs|] == cs;
    EndsGrow(cs, k, |cs|);
    if j < k {
      EndsGrow(cs, j, k);
      assert false;
    }
    if k < j {
      EndsGrow(cs, k + 1, j);
      assert false;
    }
    if k < |cs| {
      EndsGrow(cs, k, k + 1);
    }
  }

  /** What a sequence of messages leaves in a buffer already holding `held`. */
  function Kept(held: seq<Scalar>, messages: seq<seq<Scalar>>): seq<Scalar>
    decreases messages
  {
    if messages == [] then held
    else
      var room := if |Encode(held)| <= MESSAGE_CAPACITY then MESSAGE_CAPACITY - |Encode(held)| else 0;
      Kept(held + messages[0][..Fit(messages[0], room)], messages[1..])
  }

  /** Backs off to a character boundary, having given up at most three bytes to find it. */
  method BackOff(text: seq<Byte>, room: nat) returns (take: nat)
    requires Utf8.Valid(text)
    ensures take <= room && take <= |text| && take == EndOf(Decode(text), Fit(Decode(text), room))
    ensures take < |text| ==> room <= take + 3
  {
    take := if room <= |text| then room else |text|;
    while take > 0 && !IsCharBoundary(text, take)
      invariant take <= room && take <= |text|
      invariant forall i: nat :: take < i <= room && i <= |text| ==> !IsCharBoundary(text, i)
    {
      take := take - 1;
    }
    LastBoundaryIsTheFit(Decode(text), room, take);
  }

  method CopyAt(bytes: array<Byte>, at: nat, text: seq<Byte>)
    requires at + |text| <= bytes.Length
    modifies bytes
    ensures bytes[..at + |text|] == old(bytes[..at]) + text
  {
    for i := 0 to |text|
      invariant bytes[..at + i] == old(bytes[..at]) + text[..i]
    {
      bytes[at + i] := text[i];
    }
  }

  const PLACEHOLDER: string := "<panic message not UTF-8>"

  /** The longest run of whole characters at the front of `text` that fits. */
  function Whole(text: seq<Byte>, room: nat): seq<Byte>
    requires Utf8.Valid(text)
  {
    Encode(Decode(text)[..Fit(Decode(text), room)])
  }

  lemma WholeCharactersAppend(held: seq<Byte>, text: seq<Byte>, room: nat, take: nat)
    requires Utf8.Valid(held) && Utf8.Valid(text)
    requires take <= |text| && take == EndOf(Decode(text), Fit(Decode(text), room))
    ensures text[..take] == Whole(text, room)
    ensures Utf8.Valid(held + text[..take])
  {
    var cs := Decode(text);
    PrefixOfEncoding(cs, Fit(cs, room));
    ValidConcat(held, cs[..Fit(cs, room)]);
  }

  class Buffer {
    const bytes: array<Byte>
    var len: nat

    ghost predicate Valid()
      reads this, bytes
    {
      bytes.Length == MESSAGE_CAPACITY && len <= MESSAGE_CAPACITY && Utf8.Valid(bytes[..len])
    }

    ghost function Contents(): seq<Byte>
      requires Valid()
      reads this, bytes
    {
      bytes[..len]
    }

    constructor ()
      ensures Valid() && fresh(bytes) && Contents() == []
    {
      bytes := new Byte[MESSAGE_CAPACITY](_ => 0);
      len := 0;
    }

    /** The message so far. It never falls back to the placeholder. */
    method AsStr() returns (text: Result<seq<Byte>, string>)
      requires Valid()
      ensures text == Ok(Contents())
    {
      if Utf8.Valid(bytes[..len]) {
        text := Ok(bytes[..len]);
      } else {
        text := Err(PLACEHOLDER);
      }
    }

    /**
     * Backing off to a byte boundary copies what copying a character at a time would have: the
     * longest run of whole characters that fits. It gives up at most three bytes to do it, so a
     * message cut short leaves at most three free.
     */
    method WriteStr(text: seq<Byte>)
      requires Valid() && Utf8.Valid(text)
      modifies this, bytes
      ensures Valid()
      ensures Contents() == old(Contents()) + Whole(text, MESSAGE_CAPACITY - old(len))
      ensures len < old(len) + |text| ==> MESSAGE_CAPACITY - len <= 3
    {
      var take := BackOff(text, bytes.Length - len);
      WholeCharactersAppend(Contents(), text, bytes.Length - len, take);
      Append(text[..take]);
    }

    /** Copies bytes that are known to fit, and to leave the message valid. */
    method Append(chunk: seq<Byte>)
      requires Valid() && len + |chunk| <= MESSAGE_CAPACITY && Utf8.Valid(Contents() + chunk)
      modifies this, bytes
      ensures Valid() && len == old(len) + |chunk|
      ensures Contents() == old(Contents()) + chunk
    {
      ghost var after := Contents() + chunk;
      CopyAt(bytes, len, chunk);
      len := len + |chunk|;
      assert bytes[..len] == after;
    }
  }

  lemma PrefixOfEncoding(cs: seq<Scalar>, k: nat)
    requires k <= |cs|
    ensures EndOf(cs, k) <= |Encode(cs)| && Encode(cs)[..EndOf(cs, k)] == Encode(cs[..k])
  {
    EncodeConcat(cs[..k], cs[k..]);
    assert cs[..k] + cs[k..] == cs;
  }

  lemma ValidConcat(held: seq<Byte>, cs: seq<Scalar>)
    requires Utf8.Valid(held)
    ensures Utf8.Valid(held + Encode(cs))
    ensures Decode(held + Encode(cs)) == Decode(held) + cs
  {
    EncodeConcat(Decode(held), cs);
    EncodingsAreValid(Decode(held) + cs);
  }

  /** A panic reported in pieces: the buffer holds the kept characters, and reads back as them. */
  method Report(messages: seq<seq<Scalar>>) returns (text: Result<seq<Byte>, string>)
    ensures text == Ok(Encode(Kept([], messages)))
  {
    var buffer := new Buffer();
    ghost var held: seq<Scalar> := [];
    for i := 0 to |messages|
      invariant fresh(buffer) && fresh(buffer.bytes) && buffer.Valid()
      invariant buffer.Contents() == Encode(held)
      invariant Kept([], messages) == Kept(held, messages[i..])
    {
      EncodingsAreValid(messages[i]);
      EncodingsAreValid(held);
      var kept := messages[i][..Fit(messages[i], MESSAGE_CAPACITY - buffer.len)];
      buffer.WriteStr(Encode(messages[i]));
      EncodeConcat(held, kept);
      held := held + kept;
      assert messages[i..][1..] == messages[i + 1..];
    }
    text := buffer.AsStr();
  }

  /** However many messages are written, what is kept encodes to no more than the buffer holds. */
  lemma {:induction false} KeptFits(held: seq<Scalar>, messages: seq<seq<Scalar>>)
    requires |Encode(held)| <= MESSAGE_CAPACITY
    ensures |Encode(Kept(held, messages))| <= MESSAGE_CAPACITY
    decreases messages
  {
    if messages != [] {
      var room := MESSAGE_CAPACITY - |Encode(held)|;
      var kept := messages[0][..Fit(messages[0], room)];
      FitFits(messages[0], room);
      EncodeConcat(held, kept);
      KeptFits(held + kept, messages[1..]);
    }
  }

  /** When everything fits, nothing is lost. */
  lemma {:induction false} NothingIsLostWhenItFits(cs: seq<Scalar>, room: nat)
    ensures Fit(cs, room) == |cs| <==> |Encode(cs)| <= room
  {
    if cs != [] && |EncodeChar(cs[0])| <= room {
      NothingIsLostWhenItFits(cs[1..], room - |EncodeChar(cs[0])|);
    }
  }
}
