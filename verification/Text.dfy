/** The few string searches the reference parsers are made of. */
module Text {
  import opened Common

  predicate FirstAt(s: string, c: char, i: nat) {
    i < |s| && s[i] == c && c !in s[..i]
  }

  predicate LastAt(s: string, c: char, i: nat) {
    i < |s| && s[i] == c && c !in s[i + 1..]
  }

  lemma {:induction false} FirstExists(s: string, c: char)
    requires c in s
    ensures exists i: nat :: FirstAt(s, c, i)
  {
    if s[0] == c {
      assert FirstAt(s, c, 0);
    } else {
      FirstExists(s[1..], c);
      var i: nat :| FirstAt(s[1..], c, i);
      assert s[..i + 1] == [s[0]] + s[1..][..i];
      assert FirstAt(s, c, i + 1);
    }
  }

  lemma {:induction false} LastExists(s: string, c: char)
    requires c in s
    ensures exists i: nat :: LastAt(s, c, i)
  {
    var front := s[..|s| - 1];
    assert s == front + [s[|s| - 1]];
    if s[|s| - 1] == c {
      assert LastAt(s, c, |s| - 1);
    } else {
      LastExists(front, c);
      var i: nat :| LastAt(front, c, i);
      assert s[i + 1..] == front[i + 1..] + [s[|s| - 1]];
      assert LastAt(s, c, i);
    }
  }

  function Find(s: string, c: char): (r: Option<nat>)
    ensures r.Some? ==> FirstAt(s, c, r.value)
    ensures r.None? <==> c !in s
  {
    if c in s then
      FirstExists(s, c);
      var i: nat :| i < |s| && FirstAt(s, c, i);
      Some(i)
    else None
  }

  function RFind(s: string, c: char): (r: Option<nat>)
    ensures r.Some? ==> LastAt(s, c, r.value)
    ensures r.None? <==> c !in s
  {
    if c in s then
      LastExists(s, c);
      var i: nat :| i < |s| && LastAt(s, c, i);
      Some(i)
    else None
  }

  /** The last occurrence is the only one with nothing like it behind. */
  lemma RFindIs(a: string, c: char, b: string)
    requires c !in b
    ensures RFind(a + [c] + b, c) == Some(|a|)
  {
    var s := a + [c] + b;
    assert s[|a|] == c;
  }

  lemma FindIs(a: string, c: char, b: string)
    requires c !in a
    ensures Find(a + [c] + b, c) == Some(|a|)
  {
    var s := a + [c] + b;
    assert s[|a|] == c;
  }

  /** `split_once`: around the first occurrence. */
  function SplitOnce(s: string, c: char): (r: Option<(string, string)>)
    ensures r.Some? ==> s == r.value.0 + [c] + r.value.1 && c !in r.value.0
    ensures r.None? <==> c !in s
  {
    match Find(s, c)
    case Some(i) => Some((s[..i], s[i + 1..]))
    case None => None
  }

  /** `rsplit('/').next()`: what follows the last separator, or all of it. */
  function LastComponent(path: string): (name: string)
    ensures '/' !in name && |name| <= |path| && path[|path| - |name|..] == name
  {
    match RFind(path, '/')
    case Some(i) => path[i + 1..]
    case None => path
  }

  /** `name` is what follows the last slash of `path`, or all of it. */
  predicate IsLast(path: string, name: string) {
    && '/' !in name && |name| <= |path| && path[|path| - |name|..] == name
    && (|name| == |path| || path[|path| - |name| - 1] == '/')
  }

  lemma LastComponentExactly(path: string, name: string)
    ensures LastComponent(path) == name <==> IsLast(path, name)
  {
    if IsLast(path, name) && |name| < |path| {
      var front := path[..|path| - |name| - 1];
      assert path == front + ['/'] + name;
      RFindIs(front, '/', name);
    }
  }

  lemma SplitOnceExactly(s: string, c: char, a: string, b: string)
    ensures SplitOnce(s, c) == Some((a, b)) <==> s == a + [c] + b && c !in a
  {
    if s == a + [c] + b && c !in a {
      FindIs(a, c, b);
      assert s[..|a|] == a && s[|a| + 1..] == b;
    }
  }

  lemma LastComponentIs(prefix: string, path: string)
    ensures LastComponent(prefix + "/" + path) == LastComponent(path)
  {
    match RFind(path, '/')
    case Some(i) =>
      assert prefix + "/" + path == (prefix + "/" + path[..i]) + ['/'] + path[i + 1..];
      RFindIs(prefix + "/" + path[..i], '/', path[i + 1..]);
    case None =>
      RFindIs(prefix, '/', path);
  }

  predicate IsLower(c: char) { 'a' <= c <= 'z' }

  predicate IsUpper(c: char) { 'A' <= c <= 'Z' }

  predicate IsDigit(c: char) { '0' <= c <= '9' }

  predicate IsAlphanumeric(c: char) { IsLower(c) || IsUpper(c) || IsDigit(c) }

  predicate IsHexDigit(c: char) {
    IsDigit(c) || 'a' <= c <= 'f' || 'A' <= c <= 'F'
  }

  const HEX_DIGITS := "0123456789abcdefABCDEF"

  lemma HexDigitsAre(c: char)
    ensures IsHexDigit(c) <==> c in HEX_DIGITS
  {
    assert IsHexDigit(c) ==> HEX_DIGITS[if IsDigit(c) then (c - '0') as int else if 'a' <= c <= 'f' then 10 + (c - 'a') as int
                                        else 16 + (c - 'A') as int] == c;
  }

  function LowerChar(c: char): char {
    if IsUpper(c) then 'a' + (c - 'A') else c
  }

  const UPPERS := "ABCDEFGHIJKLMNOPQRSTUVWXYZ"
  const LOWERS := "abcdefghijklmnopqrstuvwxyz"

  /** Case folding moves the 26 letters, each to its own, and nothing else. */
  lemma LettersFold(c: char)
    ensures forall k :: 0 <= k < 26 ==> LowerChar(UPPERS[k]) == LOWERS[k]
    ensures c !in UPPERS ==> LowerChar(c) == c
  {
    assert IsUpper(c) ==> UPPERS[(c - 'A') as int] == c;
  }

  function Lower(s: string): (l: string)
    ensures |l| == |s| && forall i :: 0 <= i < |s| ==> l[i] == LowerChar(s[i])
  {
    seq(|s|, i requires 0 <= i < |s| => LowerChar(s[i]))
  }

  /** A number as it is written in decimal, and read back. */
  function Decimal(n: nat): string {
    if n < 10 then ["0123456789"[n]] else Decimal(n / 10) + ["0123456789"[n % 10]]
  }

  function ValueOf(text: string): nat {
    if text == "" then 0
    else 10 * ValueOf(text[..|text| - 1]) + if '0' <= text[|text| - 1] <= '9' then (text[|text| - 1] - '0') as nat else 0
  }

  lemma {:induction false} DecimalReadsBack(n: nat)
    ensures ValueOf(Decimal(n)) == n
  {
    if n >= 10 {
      DecimalReadsBack(n / 10);
      assert Decimal(n)[..|Decimal(n)| - 1] == Decimal(n / 10);
    } else {
      assert Decimal(n)[..|Decimal(n)| - 1] == "";
    }
  }

  predicate IsDecimal(text: string) {
    forall i :: 0 <= i < |text| ==> IsDigit(text[i])
  }

  lemma {:induction false} DecimalsAreDigits(n: nat)
    ensures IsDecimal(Decimal(n)) && Decimal(n) != ""
  {
    if n >= 10 {
      DecimalsAreDigits(n / 10);
    }
  }
}
