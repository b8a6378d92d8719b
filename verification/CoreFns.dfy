/** The conformance harness's seeded xorshift64 generator. */
module CoreFns {
  import opened Common

  const DEFAULT_SEED: bv64 := 0x9E37_79B9_7F4A_7C15

  function L13(s: bv64): bv64 { s ^ (s << 13) }

  function R7(s: bv64): bv64 { s ^ (s >> 7) }

  function L17(s: bv64): bv64 { s ^ (s << 17) }

  /** One turn of the generator. */
  function Step(s: bv64): bv64 {
    L17(R7(L13(s)))
  }

  // Each inverse folds the word onto itself, doubling the shift until it leaves the word.

  function UnL13(s: bv64): bv64 {
    var a := s ^ (s << 13);
    var b := a ^ (a << 26);
    b ^ (b << 52)
  }

  function UnR7(s: bv64): bv64 {
    var a := s ^ (s >> 7);
    var b := a ^ (a >> 14);
    var c := b ^ (b >> 28);
    c ^ (c >> 56)
  }

  function UnL17(s: bv64): bv64 {
    var a := s ^ (s << 17);
    a ^ (a << 34)
  }

  /** Undoes a turn: the three shifts, last one first. */
  function Unstep(s: bv64): bv64 {
    UnL13(UnR7(UnL17(s)))
  }

  lemma L13Folds(s: bv64)
    ensures UnL13(s ^ (s << 13)) == s
    ensures L13(var a := s ^ (s << 13); var b := a ^ (a << 26); b ^ (b << 52)) == s
  {
  }

  lemma R7Folds(s: bv64)
    ensures UnR7(s ^ (s >> 7)) == s
    ensures R7(var a := s ^ (s >> 7); var b := a ^ (a >> 14); var c := b ^ (b >> 28); c ^ (c >> 56)) == s
  {
  }

  lemma L17Folds(s: bv64)
    ensures UnL17(s ^ (s << 17)) == s
    ensures L17(var a := s ^ (s << 17); a ^ (a << 34)) == s
  {
  }

  lemma L13Inverts(s: bv64)
    ensures UnL13(L13(s)) == s && L13(UnL13(s)) == s
  {
    L13Folds(s);
  }

  lemma R7Inverts(s: bv64)
    ensures UnR7(R7(s)) == s && R7(UnR7(s)) == s
  {
    R7Folds(s);
  }

  lemma L17Inverts(s: bv64)
    ensures UnL17(L17(s)) == s && L17(UnL17(s)) == s
  {
    L17Folds(s);
  }

  /** The step is a bijection on 64-bit words. */
  lemma StepIsABijection(s: bv64)
    ensures Unstep(Step(s)) == s && Step(Unstep(s)) == s
  {
    UnstepUndoes(s);
    StepUndoes(s);
  }

  lemma UnstepUndoes(s: bv64)
    ensures Unstep(Step(s)) == s
  {
    L13Inverts(s);
    R7Inverts(L13(s));
    L17Inverts(R7(L13(s)));
  }

  lemma StepUndoes(s: bv64)
    ensures Step(Unstep(s)) == s
  {
    L17Inverts(s);
    R7Inverts(UnL17(s));
    L13Inverts(UnR7(UnL17(s)));
  }

  lemma ZeroIsFixed()
    ensures Step(0) == 0 && Unstep(0) == 0
  {
  }

  function Iterate(s: bv64, n: nat): bv64
    decreases n
  {
    if n == 0 then s else Iterate(Step(s), n - 1)
  }

  lemma {:induction false} IterateAdds(s: bv64, a: nat, b: nat)
    ensures Iterate(s, a + b) == Iterate(Iterate(s, a), b)
    decreases a
  {
    if a > 0 {
      IterateAdds(Step(s), a - 1, b);
    }
  }

  /** A generator never answers every `rand` with the same zero bytes: no turn reaches zero. */
  lemma {:induction false} NeverZero(s: bv64, n: nat)
    requires s != 0
    ensures Iterate(s, n) != 0
    decreases n
  {
    if n > 0 {
      UnstepUndoes(s);
      ZeroIsFixed();
      NeverZero(Step(s), n - 1);
    }
  }

  lemma {:induction false} IterateIsInjective(s: bv64, t: bv64, n: nat)
    requires Iterate(s, n) == Iterate(t, n)
    ensures s == t
    decreases n
  {
    if n > 0 {
      IterateIsInjective(Step(s), Step(t), n - 1);
      UnstepUndoes(s);
      UnstepUndoes(t);
    }
  }

  /** An orbit that repeats returns to where it started: there is no tail leading into a cycle. */
  lemma RepeatReturnsToStart(s: bv64, i: nat, j: nat)
    requires i <= j && Iterate(s, i) == Iterate(s, j)
    ensures Iterate(s, j - i) == s
  {
    IterateAdds(s, j - i, i);
    IterateIsInjective(s, Iterate(s, j - i), i);
  }

  /** Distinct numbers from 1 to `bound` are at most `bound` many. */
  lemma {:induction false} DistinctAreBounded(s: seq<nat>, bound: nat)
    requires forall i :: 0 <= i < |s| ==> 1 <= s[i] <= bound
    requires forall i, j :: 0 <= i < j < |s| ==> s[i] != s[j]
    ensures |s| <= bound
    decreases bound
  {
    if s != [] {
      assert 1 <= s[0] <= bound;
      if k :| 0 <= k < |s| && s[k] == bound {
        DistinctAreBounded(s[..k] + s[k + 1..], bound - 1);
      } else {
        DistinctAreBounded(s, bound - 1);
      }
    }
  }

  const NONZERO_WORDS: nat := 0xFFFF_FFFF_FFFF_FFFF

  function Value(s: bv64): (v: nat)
    ensures v <= NONZERO_WORDS && (v == 0 <==> s == 0)
  {
    s as nat
  }

  lemma ValueIsInjective(s: bv64, t: bv64)
    requires Value(s) == Value(t)
    ensures s == t
  {
    assert (s as nat) as bv64 == s;
  }

  /** Among more turns than there are values to show, two show the same word. */
  lemma SomeWordRepeats(s: bv64, bound: nat)
    requires s != 0 && forall i: nat :: Value(Iterate(s, i)) <= bound
    ensures exists i: nat, j: nat :: i < j <= bound && Iterate(s, i) == Iterate(s, j)
  {
    var orbit := Orbit(s, bound + 1);
    forall i | 0 <= i < |orbit|
      ensures 1 <= orbit[i] <= bound
    {
      NeverZero(s, i);
    }
    var i, j := Pigeonhole(orbit, bound);
    ValueIsInjective(Iterate(s, i), Iterate(s, j));
  }

  /** The values a seed goes through. */
  function Orbit(s: bv64, n: nat): (orbit: seq<nat>)
    ensures |orbit| == n && forall i :: 0 <= i < n ==> orbit[i] == Value(Iterate(s, i))
  {
    seq(n, (i: nat) => Value(Iterate(s, i)))
  }

  lemma Pigeonhole(s: seq<nat>, bound: nat) returns (i: nat, j: nat)
    requires |s| > bound && forall i :: 0 <= i < |s| ==> 1 <= s[i] <= bound
    ensures i < j < |s| && s[i] == s[j]
  {
    if forall i, j :: 0 <= i < j < |s| ==> s[i] != s[j] {
      DistinctAreBounded(s, bound);
      assert false;
    }
    i, j :| 0 <= i < j < |s| && s[i] == s[j];
  }

  /** From any seed the generator is periodic, and its period counts nonzero words only. */
  lemma EverySeedIsPeriodic(s: bv64)
    requires s != 0
    ensures exists p: nat :: 1 <= p <= NONZERO_WORDS && Iterate(s, p) == s
  {
    SomeWordRepeats(s, NONZERO_WORDS);
    var i: nat, j: nat :| i < j <= NONZERO_WORDS && Iterate(s, i) == Iterate(s, j);
    RepeatReturnsToStart(s, i, j);
  }

  type Word = b: seq<bv8> | |b| == 8 witness [0, 0, 0, 0, 0, 0, 0, 0]

  /** A word as `to_le_bytes` writes it. */
  function Bytes(w: bv64): Word
  {
    [(w & 0xFF) as bv8, ((w >> 8) & 0xFF) as bv8, ((w >> 16) & 0xFF) as bv8, ((w >> 24) & 0xFF) as bv8,
     ((w >> 32) & 0xFF) as bv8, ((w >> 40) & 0xFF) as bv8, ((w >> 48) & 0xFF) as bv8, ((w >> 56) & 0xFF) as bv8]
  }

  /** The word eight bytes weigh up to, the first the least. */
  function Weigh(b: Word): bv64 {
    (b[0] as bv64) | ((b[1] as bv64) << 8) | ((b[2] as bv64) << 16) | ((b[3] as bv64) << 24)
    | ((b[4] as bv64) << 32) | ((b[5] as bv64) << 40) | ((b[6] as bv64) << 48) | ((b[7] as bv64) << 56)
  }

  /** Little-endian: the bytes of a word weigh up to it. */
  lemma BytesWeighUp(w: bv64)
    ensures Weigh(Bytes(w)) == w
  {
    LanesCover(w);
  }

  lemma LanesCover(w: bv64)
    ensures (w & 0xFF) | (((w >> 8) & 0xFF) << 8) | (((w >> 16) & 0xFF) << 16) | (((w >> 24) & 0xFF) << 24)
      | (((w >> 32) & 0xFF) << 32) | (((w >> 40) & 0xFF) << 40) | (((w >> 48) & 0xFF) << 48) | (((w >> 56) & 0xFF) << 56) == w
  {
  }

  /** The bytes a fill of length `n` writes, and the state it leaves: one word per chunk of eight. */
  function FillSpec(s: bv64, n: nat): (r: (seq<bv8>, bv64))
    ensures |r.0| == n
    decreases n
  {
    if n == 0 then ([], s)
    else
      var next := Step(s);
      if n <= 8 then (Bytes(next)[..n], next)
      else
        var (rest, last) := FillSpec(next, n - 8);
        (Bytes(next) + rest, last)
  }

  /** A fill of `n` bytes by any generator: one turn for each chunk of eight, or of what is left. */
  function FillBy<T>(turn: T -> T, word: T -> Word, s: T, n: nat): (r: (seq<bv8>, T))
    ensures |r.0| == n
    decreases n
  {
    if n == 0 then ([], s)
    else
      var chunk := ChunkOf(word(turn(s)), n);
      var (rest, last) := FillBy(turn, word, turn(s), n - |chunk|);
      (chunk + rest, last)
  }

  /** As much of a word as there is room for. */
  function ChunkOf(word: Word, left: nat): (chunk: seq<bv8>)
    ensures |chunk| == if left <= 8 then left else 8
  {
    if left <= 8 then word[..left] else word
  }

  lemma {:induction false} FillIsByWords(s: bv64, n: nat)
    ensures FillBy(Step, Bytes, s, n) == FillSpec(s, n)
    ensures s != 0 ==> FillSpec(s, n).1 != 0
    decreases n
  {
    if n > 0 {
      StaysNonzero(s);
      var left := if n <= 8 then 0 else n - 8;
      FillIsByWords(Step(s), left);
      var rest := FillBy(Step, Bytes, Step(s), left);
      assert FillBy(Step, Bytes, s, n) == (ChunkOf(Bytes(Step(s)), n) + rest.0, rest.1);
      if n <= 8 {
        assert ChunkOf(Bytes(Step(s)), n) + [] == Bytes(Step(s))[..n];
      }
    }
  }

  lemma StaysNonzero(s: bv64)
    ensures s != 0 ==> Step(s) != 0
  {
    UnstepUndoes(s);
    ZeroIsFixed();
  }

  /** The loop over the buffer's chunks. */
  method FillChunks<T>(turn: T -> T, word: T -> Word, buffer: array<bv8>, start: T) returns (state: T)
    modifies buffer
    ensures buffer[..] == FillBy(turn, word, start, buffer.Length).0
    ensures state == FillBy(turn, word, start, buffer.Length).1
  {
    state := start;
    var at := 0;
    ghost var done: seq<bv8> := [];
    assert [] + FillBy(turn, word, start, buffer.Length).0 == FillBy(turn, word, start, buffer.Length).0;
    while at < buffer.Length
      invariant |done| == at <= buffer.Length && buffer[..at] == done
      invariant FillBy(turn, word, start, buffer.Length).0 == done + FillBy(turn, word, state, buffer.Length - at).0
      invariant FillBy(turn, word, start, buffer.Length).1 == FillBy(turn, word, state, buffer.Length - at).1
    {
      ghost var left := buffer.Length - at;
      state := turn(state);
      var chunk := ChunkOf(word(state), buffer.Length - at);
      Regroup(done, chunk, FillBy(turn, word, state, left - |chunk|).0);
      CopyChunk(buffer, at, chunk);
      at, done := at + |chunk|, done + chunk;
    }
    assert buffer[..at] == buffer[..] && done + [] == done;
  }

  method CopyChunk(buffer: array<bv8>, start: nat, chunk: seq<bv8>)
    requires start + |chunk| <= buffer.Length
    modifies buffer
    ensures buffer[..start + |chunk|] == old(buffer[..start]) + chunk
  {
    for i := 0 to |chunk|
      invariant buffer[..start + i] == old(buffer[..start]) + chunk[..i]
    {
      buffer[start + i] := chunk[i];
    }
  }

  class DeterministicEntropy {
    var seed: bv64

    constructor (seed: bv64)
      ensures this.seed == (if seed == 0 then DEFAULT_SEED else seed)
      ensures this.seed != 0
    {
      this.seed := if seed == 0 then DEFAULT_SEED else seed;
    }

    method Fill(buffer: array<bv8>)
      modifies this, buffer
      ensures buffer[..] == FillSpec(old(seed), buffer.Length).0
      ensures seed == FillSpec(old(seed), buffer.Length).1
      ensures old(seed) != 0 ==> seed != 0
    {
      FillIsByWords(seed, buffer.Length);
      seed := FillChunks(Step, Bytes, buffer, seed);
    }
  }

  /** The state a generator is in after `n` turns. */
  function TurnedBy<T>(turn: T -> T, s: T, n: nat): T
    decreases n
  {
    if n == 0 then s else TurnedBy(turn, turn(s), n - 1)
  }

  lemma {:induction false} FillByReads<T>(turn: T -> T, word: T -> Word, s: T, n: nat, i: nat)
    requires i < n
    ensures FillBy(turn, word, s, n).0[i] == word(TurnedBy(turn, s, i / 8 + 1))[i % 8]
    decreases n
  {
    var chunk := ChunkOf(word(turn(s)), n);
    assert FillBy(turn, word, s, n).0 == chunk + FillBy(turn, word, turn(s), n - |chunk|).0;
    if i >= 8 {
      FillByReads(turn, word, turn(s), n - 8, i - 8);
      assert (i - 8) / 8 + 1 == i / 8 && (i - 8) % 8 == i % 8;
    } else {
      assert TurnedBy(turn, s, 1) == TurnedBy(turn, turn(s), 0) == turn(s);
    }
  }

  lemma {:induction false} TurnsIterate(s: bv64, n: nat)
    ensures TurnedBy(Step, s, n) == Iterate(s, n)
    decreases n
  {
    if n > 0 {
      TurnsIterate(Step(s), n - 1);
    }
  }

  /** Byte `i` of a fill is byte `i % 8` of the word after `i / 8 + 1` turns. */
  lemma FillReadsTheOrbit(s: bv64, n: nat, i: nat)
    requires i < n
    ensures FillSpec(s, n).0[i] == Bytes(Iterate(s, i / 8 + 1))[i % 8]
  {
    FillIsByWords(s, n);
    FillByReads(Step, Bytes, s, n, i);
    TurnsIterate(s, i / 8 + 1);
  }

  lemma {:induction false} FillAdvances(s: bv64, n: nat)
    ensures FillSpec(s, n).1 == Iterate(s, (n + 7) / 8)
    decreases n
  {
    if n > 8 {
      FillAdvances(Step(s), n - 8);
    } else if n > 0 {
      assert Iterate(s, 1) == Step(s);
    }
  }

  /** Two fills one after the other give the bytes and the state of a single longer fill. */
  ghost predicate Splits(s: bv64, n: nat, m: nat) {
    var first := FillSpec(s, n);
    first.0 + FillSpec(first.1, m).0 == FillSpec(s, n + m).0
  }

  lemma WholeWordFirst(s: bv64, n: nat)
    requires n >= 8
    ensures FillSpec(s, n).0 == Bytes(Step(s)) + FillSpec(Step(s), n - 8).0
    ensures FillSpec(s, n).1 == FillSpec(Step(s), n - 8).1
  {
  }

  lemma {:induction false} WholeWordsSplit(s: bv64, n: nat, m: nat)
    requires n % 8 == 0 || m == 0
    ensures Splits(s, n, m)
    ensures FillSpec(FillSpec(s, n).1, m).1 == FillSpec(s, n + m).1
    decreases n
  {
    var first := FillSpec(s, n);
    if m == 0 {
      assert first.0 + [] == first.0;
    } else if n == 0 {
      assert [] + FillSpec(s, m).0 == FillSpec(s, m).0;
    } else {
      WholeWordsSplit(Step(s), n - 8, m);
      WholeWordFirst(s, n);
      WholeWordFirst(s, n + m);
      Regroup(Bytes(Step(s)), FillSpec(Step(s), n - 8).0, FillSpec(first.1, m).0);
    }
  }

  /** The state whose next turns, after `k` of them, reach `w`. */
  function Backward(w: bv64, k: nat): bv64 {
    if k == 0 then w else Unstep(Backward(w, k - 1))
  }

  lemma {:induction false} BackwardReaches(w: bv64, k: nat)
    ensures Iterate(Backward(w, k), k) == w
  {
    if k > 0 {
      StepUndoes(Backward(w, k - 1));
      BackwardReaches(w, k - 1);
    }
  }

  lemma OneTurnsOdd()
    ensures Bytes(1)[0] == 1 && forall r :: 1 <= r < 8 ==> Bytes(1)[r] == 0
    ensures Bytes(Step(1))[0] == 0x41
  {
  }

  /** A partial word spends its unused bytes: the next fill starts from the word after it. */
  lemma PartialWordsDoNotSplit(n: nat, m: nat)
    requires n % 8 != 0 && m > 0
    ensures exists s: bv64 :: s != 0 && !Splits(s, n, m)
  {
    var k := n / 8 + 1;
    var s := Backward(1, k);
    BackwardReaches(1, k);
    ZeroOrbit(k);
    assert s != 0;
    OneTurnsOdd();
    var first := FillSpec(s, n);
    FillAdvances(s, n);
    assert first.1 == 1;
    var apart := first.0 + FillSpec(1, m).0;
    assert apart[n] == FillSpec(1, m).0[0] == 0x41 by {
      FillReadsTheOrbit(1, m, 0);
      assert Iterate(1, 1) == Step(1);
    }
    assert FillSpec(s, n + m).0[n] == 0 by {
      FillReadsTheOrbit(s, n + m, n);
    }
    assert !Splits(s, n, m);
  }

  lemma {:induction false} ZeroOrbit(k: nat)
    ensures Iterate(0, k) == 0
  {
    ZeroIsFixed();
    if k > 0 {
      ZeroOrbit(k - 1);
    }
  }

  /** Fills compose for every state of the generator exactly when the first ends on a whole word. */
  lemma FillsComposeOnWholeWords(n: nat, m: nat)
    ensures (forall s: bv64 | s != 0 :: Splits(s, n, m)) <==> n % 8 == 0 || m == 0
  {
    if n % 8 == 0 || m == 0 {
      forall s: bv64 | s != 0
        ensures Splits(s, n, m)
      {
        WholeWordsSplit(s, n, m);
      }
    } else {
      PartialWordsDoNotSplit(n, m);
    }
  }
}
