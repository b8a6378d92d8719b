/** Bytes as lowercase hex and back: how a scenario writes canonical CBOR. */
module Hex {
  import opened Common
  import Utf8

  /** A Rust string, as the bytes it is. */
  type Text = t: seq<Byte> | Utf8.Valid(t)

  const PLUS: Byte := 43

  /** `{:x}` of one hex digit. */
  function Digit(n: nat): (b: Byte)
    requires n < 16
  {
    if n < 10 then 48 + n else 87 + n
  }

  /** A hex digit of either case. */
  function DigitOf(b: Byte): (n: Option<nat>)
    ensures n.Some? ==> n.value < 16
  {
    if 48 <= b <= 57 then Some(b - 48)
    else if 65 <= b <= 70 then Some(b - 55)
    else if 97 <= b <= 102 then Some(b - 87)
    else None
  }

  /** What the hex text of some bytes is. */
  function HexOf(bytes: seq<Byte>): (t: seq<Byte>)
    ensures |t| == 2 * |bytes|
    ensures forall i :: 0 <= i < |t| ==> t[i] < 128
  {
    if bytes == [] then []
    else HexOf(bytes[..|bytes| - 1]) + [Digit(bytes[|bytes| - 1] / 16), Digit(bytes[|bytes| - 1] % 16)]
  }

  method Hex(bytes: seq<Byte>) returns (out: seq<Byte>)
    ensures out == HexOf(bytes)
  {
    out := [];
    for i := 0 to |bytes|
      invariant out == HexOf(bytes[..i])
    {
      assert bytes[..i + 1][..i] == bytes[..i];
      out := out + [Digit(bytes[i] / 16), Digit(bytes[i] % 16)];
    }
    assert bytes[..|bytes|] == bytes;
  }

  lemma {:induction false} HexDigits(bytes: seq<Byte>, k: nat)
    requires k < |bytes|
    ensures HexOf(bytes)[2 * k] == Digit(bytes[k] / 16)
    ensures HexOf(bytes)[2 * k + 1] == Digit(bytes[k] % 16)
  {
    if k < |bytes| - 1 {
      HexDigits(bytes[..|bytes| - 1], k);
    }
  }

  /** `u8::from_str_radix(pair, 16)`, which takes one leading plus sign for a digit. */
  function PairOf(high: Byte, low: Byte): Option<Byte> {
    if high == PLUS && DigitOf(low).Some? then Some(DigitOf(low).value)
    else if DigitOf(high).Some? && DigitOf(low).Some? then Some(16 * DigitOf(high).value + DigitOf(low).value)
    else None
  }

  /** A slice that would cut a character in two is not an error: it panics. */
  datatype Unhexed = Decoded(bytes: seq<Byte>) | OddLength | NotAByte(pair: nat) | Panicked

  predicate Cut(text: Text, k: nat)
    requires 2 * k + 2 <= |text|
  {
    !Utf8.IsCharBoundary(text, 2 * k) || !Utf8.IsCharBoundary(text, 2 * k + 2)
  }

  /** The pairs from `k` on, after the bytes already read: the first complaint is the answer. */
  function UnhexFrom(text: Text, k: nat, done: seq<Byte>): Unhexed
    requires |text| % 2 == 0 && 2 * k <= |text|
    decreases |text| - 2 * k
  {
    if 2 * k == |text| then Decoded(done)
    else if Cut(text, k) then Panicked
    else match PairOf(text[2 * k], text[2 * k + 1])
      case None => NotAByte(k)
      case Some(b) => UnhexFrom(text, k + 1, done + [b])
  }

  function Unhex(text: Text): Unhexed {
    if |text| % 2 != 0 then OddLength else UnhexFrom(text, 0, [])
  }

  /** `to_ascii_lowercase`. */
  function Low(b: Byte): Byte {
    if 65 <= b <= 90 then b + 32 else b
  }

  function Lower(text: seq<Byte>): (low: seq<Byte>)
    ensures |low| == |text| && forall i :: 0 <= i < |text| ==> low[i] == Low(text[i])
  {
    seq(|text|, i requires 0 <= i < |text| => Low(text[i]))
  }

  predicate Ascii(text: seq<Byte>) {
    forall i :: 0 <= i < |text| ==> text[i] < 128
  }

  lemma {:induction false} AsciiIsText(text: seq<Byte>)
    requires Ascii(text)
    ensures Utf8.Valid(text)
  {
    if text != [] {
      AsciiIsText(text[1..]);
    }
  }

  /** The pairs of `text` spell `bytes`. */
  predicate Spells(text: seq<Byte>, bytes: seq<Byte>) {
    && |text| == 2 * |bytes|
    && forall k :: 0 <= k < |bytes| ==> PairOf(text[2 * k], text[2 * k + 1]) == Some(bytes[k])
  }

  lemma SpellingIsAscii(text: seq<Byte>, bytes: seq<Byte>)
    requires Spells(text, bytes)
    ensures Ascii(text)
  {
    forall i | 0 <= i < |text| ensures text[i] < 128 {
      var k := i / 2;
      assert PairOf(text[2 * k], text[2 * k + 1]) == Some(bytes[k]);
      assert i == 2 * k || i == 2 * k + 1;
    }
  }

  lemma {:induction false} UnhexReads(text: Text, k: nat, done: seq<Byte>, bytes: seq<Byte>)
    requires |text| % 2 == 0 && 2 * k <= |text| && |done| == k
    requires forall j :: 0 <= j < k ==> PairOf(text[2 * j], text[2 * j + 1]) == Some(done[j])
    ensures UnhexFrom(text, k, done) == Decoded(bytes) <==> Spells(text, bytes) && bytes[..k] == done
    decreases |text| - 2 * k
  {
    if Spells(text, bytes) {
      SpellingIsAscii(text, bytes);
    }
    if 2 * k < |text| {
      var pair := PairOf(text[2 * k], text[2 * k + 1]);
      if Cut(text, k) {
        assert !Ascii(text);
      } else if pair.Some? {
        UnhexReads(text, k + 1, done + [pair.value], bytes);
        if Spells(text, bytes) {
          assert bytes[..k + 1] == bytes[..k] + [bytes[k]];
        }
      }
    } else if Spells(text, bytes) {
      assert bytes[..k] == bytes;
    }
  }

  /** What `unhex` reads: exactly the texts whose pairs spell the bytes. */
  lemma UnhexReadsSpellings(text: Text, bytes: seq<Byte>)
    ensures Unhex(text) == Decoded(bytes) <==> Spells(text, bytes)
  {
    if |text| % 2 == 0 {
      UnhexReads(text, 0, [], bytes);
    }
  }

  lemma UnhexUndoesHex(bytes: seq<Byte>)
    ensures Utf8.Valid(HexOf(bytes)) && Unhex(HexOf(bytes)) == Decoded(bytes)
  {
    var text := HexOf(bytes);
    AsciiIsText(text);
    forall k | 0 <= k < |bytes| ensures PairOf(text[2 * k], text[2 * k + 1]) == Some(bytes[k]) {
      HexDigits(bytes, k);
    }
    UnhexReadsSpellings(text, bytes);
  }

  lemma HexIsInjective(a: seq<Byte>, b: seq<Byte>)
    requires HexOf(a) == HexOf(b)
    ensures a == b
  {
    UnhexUndoesHex(a);
    UnhexUndoesHex(b);
  }

  /** One byte's two digits against one pair of the text. */
  predicate PairMatches(bytes: seq<Byte>, text: seq<Byte>, k: nat)
    requires k < |bytes| && |text| == 2 * |bytes|
  {
    Digit(bytes[k] / 16) == Low(text[2 * k]) && Digit(bytes[k] % 16) == Low(text[2 * k + 1])
  }

  lemma PairsAreDigits(b: Byte, high: Byte, low: Byte)
    ensures Digit(b / 16) == Low(high) && Digit(b % 16) == Low(low)
      <==> PairOf(high, low) == Some(b) && high != PLUS && low != PLUS
  {
  }

  lemma LoweredPairByPair(bytes: seq<Byte>, text: seq<Byte>)
    requires |text| == 2 * |bytes|
    ensures HexOf(bytes) == Lower(text) <==> forall k :: 0 <= k < |bytes| ==> PairMatches(bytes, text, k)
  {
    var low, out := Lower(text), HexOf(bytes);
    forall k | 0 <= k < |bytes|
      ensures PairMatches(bytes, text, k) <==> out[2 * k] == low[2 * k] && out[2 * k + 1] == low[2 * k + 1]
    {
      HexDigits(bytes, k);
    }
    if forall k :: 0 <= k < |bytes| ==> PairMatches(bytes, text, k) {
      forall i | 0 <= i < |text| ensures out[i] == low[i] {
        assert PairMatches(bytes, text, i / 2);
        assert i == 2 * (i / 2) || i == 2 * (i / 2) + 1;
      }
    }
  }

  /**
   * The emission comparison: lowering the expected text and comparing it with the hex of what was
   * emitted holds exactly when that text reads back as those bytes — except that `unhex` also reads
   * plus signs, which no emission is ever written with.
   */
  lemma ComparingHexComparesBytes(bytes: seq<Byte>, text: Text)
    ensures HexOf(bytes) == Lower(text) <==> Unhex(text) == Decoded(bytes) && PLUS !in text
  {
    UnhexReadsSpellings(text, bytes);
    if |text| == 2 * |bytes| {
      LoweredPairByPair(bytes, text);
      forall k | 0 <= k < |bytes|
        ensures PairMatches(bytes, text, k)
          <==> PairOf(text[2 * k], text[2 * k + 1]) == Some(bytes[k]) && text[2 * k] != PLUS && text[2 * k + 1] != PLUS
      {
        PairsAreDigits(bytes[k], text[2 * k], text[2 * k + 1]);
      }
      if forall k :: 0 <= k < |bytes| ==> PairMatches(bytes, text, k) {
        forall i | 0 <= i < |text| ensures text[i] != PLUS {
          assert PairMatches(bytes, text, i / 2);
          assert i == 2 * (i / 2) || i == 2 * (i / 2) + 1;
        }
      }
    }
  }

  /** `unhex` is not strict: a plus sign passes for a leading zero. */
  lemma PlusPassesForADigit()
    ensures Utf8.Valid([PLUS, 102]) && Unhex([PLUS, 102]) == Decoded([15])
    ensures HexOf([15]) != Lower([PLUS, 102])
  {
    AsciiIsText([PLUS, 102]);
    var t: Text := [PLUS, 102];
    assert Spells(t, [15]);
    UnhexReadsSpellings(t, [15]);
    ComparingHexComparesBytes([15], t);
  }

  /** The first pair of `text` that is no byte cuts a character in two. */
  predicate FirstCut(text: Text, from: nat, k: nat) {
    && from <= k && 2 * k + 2 <= |text| && Cut(text, k)
    && forall j :: from <= j < k ==> !Cut(text, j) && PairOf(text[2 * j], text[2 * j + 1]).Some?
  }

  lemma {:induction false} PanicsAtTheFirstCut(text: Text, k: nat, done: seq<Byte>)
    requires |text| % 2 == 0 && 2 * k <= |text|
    ensures UnhexFrom(text, k, done).Panicked? <==> exists i: nat :: FirstCut(text, k, i)
    decreases |text| - 2 * k
  {
    if 2 * k < |text| {
      if Cut(text, k) {
        assert FirstCut(text, k, k);
      } else if PairOf(text[2 * k], text[2 * k + 1]).Some? {
        var next := k + 1;
        PanicsAtTheFirstCut(text, next, done + [PairOf(text[2 * k], text[2 * k + 1]).value]);
        if i: nat :| FirstCut(text, k, i) {
          assert FirstCut(text, next, i);
        }
        if i: nat :| FirstCut(text, next, i) {
          assert FirstCut(text, k, i);
        }
      }
    }
  }

  /** Whether a text is one `unhex` can be handed: reading it reaches no slice that cuts a character. */
  predicate Sliceable(text: Text) {
    !Unhex(text).Panicked?
  }

  /** Exactly which texts make the reader panic: never an ASCII one, but some others. */
  lemma SlicingPanicsExactly(text: Text)
    ensures !Sliceable(text) <==> |text| % 2 == 0 && exists i: nat :: FirstCut(text, 0, i)
    ensures Ascii(text) ==> Sliceable(text)
  {
    if |text| % 2 == 0 {
      PanicsAtTheFirstCut(text, 0, []);
    }
  }

  lemma SlicingCanPanic()
    ensures var t := [97, 0xC3, 0xA9, 98]; Utf8.Valid(t) && !Sliceable(t)
  {
    var t := [97, 0xC3, 0xA9, 98];
    assert t[1..] == [0xC3, 0xA9, 98] && t[1..][2..] == [98] && [98][1..] == [];
    assert Utf8.CharLen(t) == 1 && Utf8.CharLen(t[1..]) == 2 && Utf8.CharLen([98]) == 1;
    assert Utf8.Valid([98]);
    assert Utf8.Valid(t[1..]);
  }
}
