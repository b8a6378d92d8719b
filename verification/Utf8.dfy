/** UTF-8 as section 3 of RFC 3629 encodes it and the table of section 4 recognises it. */
module Utf8 {
  import opened Common

  /** A Unicode scalar value: a code point that is not a surrogate. */
  type Scalar = c: int | 0 <= c <= 0x10FFFF && !(0xD800 <= c <= 0xDFFF)

  predicate IsTail(b: Byte) {
    0x80 <= b <= 0xBF
  }

  function EncodeChar(c: Scalar): (b: seq<Byte>)
    ensures 1 <= |b| <= 4
    ensures !IsTail(b[0]) && forall i :: 1 <= i < |b| ==> IsTail(b[i])
  {
    if c < 0x80 then [c]
    else if c < 0x800 then [0xC0 + c / 64, 0x80 + c % 64]
    else if c < 0x1_0000 then [0xE0 + c / 4096, 0x80 + c / 64 % 64, 0x80 + c % 64]
    else [0xF0 + c / 262144, 0x80 + c / 4096 % 64, 0x80 + c / 64 % 64, 0x80 + c % 64]
  }

  function Encode(cs: seq<Scalar>): (b: seq<Byte>) {
    if cs == [] then [] else EncodeChar(cs[0]) + Encode(cs[1..])
  }

  /** The length of the well-formed character `b` begins with, or 0 when it begins with none. */
  function CharLen(b: seq<Byte>): (n: nat)
    ensures n <= |b| && n <= 4
  {
    if |b| == 0 then 0
    else if b[0] <= 0x7F then 1
    else if 0xC2 <= b[0] <= 0xDF && |b| >= 2 && IsTail(b[1]) then 2
    else if |b| >= 3 && IsTail(b[1]) && IsTail(b[2]) &&
            ((b[0] == 0xE0 && b[1] >= 0xA0) || 0xE1 <= b[0] <= 0xEC ||
             (b[0] == 0xED && b[1] <= 0x9F) || 0xEE <= b[0] <= 0xEF) then 3
    else if |b| >= 4 && IsTail(b[1]) && IsTail(b[2]) && IsTail(b[3]) &&
            ((b[0] == 0xF0 && b[1] >= 0x90) || 0xF1 <= b[0] <= 0xF3 ||
             (b[0] == 0xF4 && b[1] <= 0x8F)) then 4
    else 0
  }

  /** What `str::from_utf8` accepts. */
  predicate Valid(b: seq<Byte>) {
    b == [] || (CharLen(b) > 0 && Valid(b[CharLen(b)..]))
  }

  /** The six bits a continuation byte carries. */
  function Payload(b: seq<Byte>, i: nat): (p: int)
    requires i < |b| && IsTail(b[i])
    ensures 0 <= p < 64
  {
    b[i] - 0x80
  }

  function DecodeChar(b: seq<Byte>): (c: Scalar)
    requires CharLen(b) > 0
  {
    var lead: int := b[0];
    match CharLen(b)
    case 1 => lead
    case 2 => (lead - 0xC0) * 64 + Payload(b, 1)
    case 3 => (lead - 0xE0) * 4096 + Payload(b, 1) * 64 + Payload(b, 2)
    case _ => (lead - 0xF0) * 262144 + Payload(b, 1) * 4096 + Payload(b, 2) * 64 + Payload(b, 3)
  }

  lemma Digits(h: nat, m: nat, l: nat)
    requires m < 64 && l < 64
    ensures (h * 4096 + m * 64 + l) / 4096 == h
    ensures (h * 4096 + m * 64 + l) / 64 % 64 == m
    ensures (h * 4096 + m * 64 + l) % 64 == l
  {
    assert (h * 4096 + m * 64 + l) / 64 == h * 64 + m;
  }

  lemma ThreeByteCharIsWritten(b: seq<Byte>)
    requires CharLen(b) == 3
    ensures EncodeChar(DecodeChar(b)) == b[..3]
  {
    var e := EncodeChar(DecodeChar(b));
    Digits(b[0] - 0xE0, Payload(b, 1), Payload(b, 2));
    assert |e| == 3 && e[0] == b[0] && e[1] == b[1] && e[2] == b[2];
  }

  lemma FourByteCharIsWritten(b: seq<Byte>)
    requires CharLen(b) == 4
    ensures EncodeChar(DecodeChar(b)) == b[..4]
  {
    var e := EncodeChar(DecodeChar(b));
    var top := (b[0] - 0xF0) * 64 + Payload(b, 1);
    Digits(top, Payload(b, 2), Payload(b, 3));
    assert top / 64 == b[0] - 0xF0 && top % 64 == Payload(b, 1);
    assert DecodeChar(b) / 262144 == top / 64;
    assert |e| == 4 && e[0] == b[0] && e[1] == b[1] && e[2] == b[2] && e[3] == b[3];
  }

  /** Writing the character read back gives the bytes it was read from. */
  lemma DecodedCharIsWritten(b: seq<Byte>)
    requires CharLen(b) > 0
    ensures EncodeChar(DecodeChar(b)) == b[..CharLen(b)]
  {
    match CharLen(b)
    case 3 => ThreeByteCharIsWritten(b);
    case 4 => FourByteCharIsWritten(b);
    case _ =>
  }

  function Decode(b: seq<Byte>): (cs: seq<Scalar>)
    requires Valid(b)
    ensures Encode(cs) == b
  {
    if b == [] then []
    else
      var rest := Decode(b[CharLen(b)..]);
      DecodedCharIsWritten(b);
      assert ([DecodeChar(b)] + rest)[1..] == rest;
      [DecodeChar(b)] + rest
  }

  lemma ThreeDigits(c: nat)
    ensures c / 4096 * 4096 + c / 64 % 64 * 64 + c % 64 == c
    ensures c >= 0x800 && c / 4096 == 0 ==> c / 64 % 64 >= 32
    ensures c < 0xD800 && c / 4096 == 13 ==> c / 64 % 64 < 32
  {
    assert c / 64 / 64 == c / 4096;
  }

  lemma FourDigits(c: nat)
    ensures c / 262144 * 262144 + c / 4096 % 64 * 4096 + c / 64 % 64 * 64 + c % 64 == c
    ensures c >= 0x1_0000 && c / 262144 == 0 ==> c / 4096 % 64 >= 16
    ensures c <= 0x10_FFFF && c / 262144 == 4 ==> c / 4096 % 64 < 16
  {
    ThreeDigits(c);
    assert c / 4096 / 64 == c / 262144;
  }

  lemma EncodedCharIsRead(c: Scalar, rest: seq<Byte>)
    ensures CharLen(EncodeChar(c) + rest) == |EncodeChar(c)|
    ensures DecodeChar(EncodeChar(c) + rest) == c
  {
    var e := EncodeChar(c);
    var b := e + rest;
    if c < 0x80 {
      assert b[0] == e[0];
    } else if c < 0x800 {
      assert b[0] == e[0] && b[1] == e[1];
    } else if c < 0x1_0000 {
      assert b[0] == e[0] && b[1] == e[1] && b[2] == e[2];
      ThreeDigits(c);
    } else {
      assert b[0] == e[0] && b[1] == e[1] && b[2] == e[2] && b[3] == e[3];
      FourDigits(c);
    }
  }

  /** The table accepts exactly the encodings, and reading undoes writing. */
  lemma {:induction false} EncodingsAreValid(cs: seq<Scalar>)
    ensures Valid(Encode(cs)) && Decode(Encode(cs)) == cs
  {
    if cs != [] {
      var rest := Encode(cs[1..]);
      EncodedCharIsRead(cs[0], rest);
      EncodingsAreValid(cs[1..]);
      assert Encode(cs)[|EncodeChar(cs[0])|..] == rest;
    }
  }

  lemma ValidExactlyWhenEncoded(b: seq<Byte>)
    ensures Valid(b) <==> exists cs: seq<Scalar> :: Encode(cs) == b
  {
    if Valid(b) {
      assert Encode(Decode(b)) == b;
    }
    if cs: seq<Scalar> :| Encode(cs) == b {
      EncodingsAreValid(cs);
    }
  }

  lemma {:induction false} EncodeConcat(a: seq<Scalar>, b: seq<Scalar>)
    ensures Encode(a + b) == Encode(a) + Encode(b)
  {
    if a == [] {
      assert a + b == b;
    } else {
      EncodeConcat(a[1..], b);
      assert (a + b)[1..] == a[1..] + b;
      assert (a + b)[0] == a[0];
    }
  }

  /** `str::is_char_boundary`: the ends, and every byte that does not continue a character. */
  predicate IsCharBoundary(text: seq<Byte>, i: nat) {
    i == 0 || i == |text| || (i < |text| && !IsTail(text[i]))
  }

  /** Where the first `k` characters of `cs` end. */
  function EndOf(cs: seq<Scalar>, k: nat): nat
    requires k <= |cs|
  {
    |Encode(cs[..k])|
  }

  lemma BoundaryPastAFront(first: seq<Byte>, rest: seq<Byte>, i: nat)
    requires |first| <= i && first != [] && (rest != [] ==> !IsTail(rest[0]))
    ensures IsCharBoundary(first + rest, i) <==> IsCharBoundary(rest, i - |first|)
  {
    assert forall j: nat :: j < |rest| ==> (first + rest)[|first| + j] == rest[j];
  }

  /** What is encoded begins at a character. */
  lemma BeginsACharacter(cs: seq<Scalar>)
    ensures Encode(cs) != [] ==> !IsTail(Encode(cs)[0])
  {
    if cs != [] {
      assert Encode(cs)[0] == EncodeChar(cs[0])[0];
    }
  }

  /** Past the first character, boundaries are the rest's. */
  lemma BoundaryPastTheFirst(cs: seq<Scalar>, i: nat)
    requires cs != [] && i >= |EncodeChar(cs[0])|
    ensures IsCharBoundary(Encode(cs), i) <==> IsCharBoundary(Encode(cs[1..]), i - |EncodeChar(cs[0])|)
  {
    BeginsACharacter(cs[1..]);
    BoundaryPastAFront(EncodeChar(cs[0]), Encode(cs[1..]), i);
  }

  lemma EndPastTheFirst(cs: seq<Scalar>, k: nat)
    requires k < |cs|
    ensures EndOf(cs, k + 1) == |EncodeChar(cs[0])| + EndOf(cs[1..], k)
  {
    assert cs[..k + 1][1..] == cs[1..][..k] && cs[..k + 1][0] == cs[0];
  }

  /** Some number of whole characters ends here. */
  predicate EndsACharacter(cs: seq<Scalar>, i: nat) {
    exists k :: 0 <= k <= |cs| && EndOf(cs, k) == i
  }

  lemma EndsPastTheFirst(cs: seq<Scalar>, i: nat)
    requires cs != [] && i > 0
    ensures EndsACharacter(cs, i) <==> i >= |EncodeChar(cs[0])| && EndsACharacter(cs[1..], i - |EncodeChar(cs[0])|)
  {
    var n := |EncodeChar(cs[0])|;
    if k: nat :| k <= |cs| && EndOf(cs, k) == i {
      assert k > 0;
      EndPastTheFirst(cs, k - 1);
      assert EndOf(cs[1..], k - 1) == i - n;
    }
    if i >= n {
      if k: nat :| k <= |cs[1..]| && EndOf(cs[1..], k) == i - n {
        EndPastTheFirst(cs, k);
        assert EndOf(cs, k + 1) == i;
      }
    }
  }

  /** The byte test finds the ends of whole characters, and nothing else. */
  lemma {:induction false} BoundariesAreCharacterEnds(cs: seq<Scalar>, i: nat)
    ensures IsCharBoundary(Encode(cs), i) <==> EndsACharacter(cs, i)
  {
    if i == 0 {
      assert EndOf(cs, 0) == i;
    } else if cs != [] {
      var n := |EncodeChar(cs[0])|;
      EndsPastTheFirst(cs, i);
      if i >= n {
        BoundaryPastTheFirst(cs, i);
        BoundariesAreCharacterEnds(cs[1..], i - n);
      } else {
        assert Encode(cs)[i] == EncodeChar(cs[0])[i];
      }
    }
  }
}
