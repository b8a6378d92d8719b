/** Vocabulary shared by every module: optional values, results, bytes, and the ABI's integers. */
module Common {

  datatype Option<+T> = None | Some(value: T)

  datatype Result<+T, +E> = Ok(value: T) | Err(error: E)

  type Byte = b: int | 0 <= b < 256

  function Look<K, V>(m: map<K, V>, k: K): Option<V> {
    if k in m then Some(m[k]) else None
  }

  const I32_MAX := 0x7FFF_FFFF

  /** An integer as the ABI carries it: 32 bits, signed. */
  type I32 = i: int | -0x8000_0000 <= i <= 0x7FFF_FFFF

  type U32 = i: int | 0 <= i <= 0xFFFF_FFFF

  /** A length cast with `as i32`: the low 32 bits, read as two's complement. */
  function AsI32(n: nat): I32 {
    var low := n % 0x1_0000_0000;
    if low <= I32_MAX then low else low - 0x1_0000_0000
  }

  /** An `i32` reinterpreted with `as u32`. */
  function AsU32(i: I32): U32 {
    if i < 0 then i + 0x1_0000_0000 else i
  }

  /** The cast keeps exactly the lengths an `i32` can hold; every other length comes back smaller. */
  lemma AsI32Exact(n: nat)
    ensures AsI32(n) == n <==> n <= I32_MAX
    ensures n > I32_MAX ==> AsI32(n) < n
  {
  }

  lemma DropsTheFront<T>(a: seq<T>, b: seq<T>)
    ensures (a + b)[|a|..] == b && (a + b)[..|a|] == a
  {
  }

  lemma FrontAndLast<T>(s: seq<T>)
    requires s != []
    ensures s == s[..|s| - 1] + [s[|s| - 1]]
  {
  }

  /** One more number to count. */
  lemma OneMoreCounted(p: nat -> bool, n: nat)
    ensures |set k: nat | k < n + 1 && p(k)| == |set k: nat | k < n && p(k)| + if p(n) then 1 else 0
  {
    var before := set k: nat | k < n && p(k);
    assert (set k: nat | k < n + 1 && p(k)) == if p(n) then before + {n} else before;
  }

  lemma TakeOneMore<T>(s: seq<T>, i: nat)
    requires i < |s|
    ensures s[..i + 1] == s[..i] + [s[i]]
  {
  }

  /** Concatenation does not care how it is grouped. */
  lemma Regroup<T>(a: seq<T>, b: seq<T>, c: seq<T>)
    ensures a + (b + c) == (a + b) + c
  {
  }
}
