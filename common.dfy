/**
 * Shared vocabulary of the UC-Logic model: an Option type, the kernel error
 * numbers the drivers return, little-endian field access on byte buffers and
 * the C integer conversions (s8, s32 wrap-around, truncating division) that
 * the drivers' arithmetic relies on.
 */
module Common {

  datatype Option<T> = None | Some(value: T)

  /** Positive errno values; the drivers return their negation. */
  const EPIPE: int := 32
  const ENODEV: int := 19
  const EINVAL: int := 22

  /** Value of the unsigned 16-bit little-endian field at `off` (get_unaligned_le16). */
  function Le16(b: seq<bv8>, off: nat): (v: int)
    requires off + 2 <= |b|
    ensures 0 <= v < 0x1_0000
    ensures v % 0x100 == b[off] as int && v / 0x100 == b[off + 1] as int
  {
    b[off] as int + 0x100 * b[off + 1] as int
  }

  /** The two bytes put_unaligned_le16 stores for `v` (its low 16 bits). */
  function Le16Bytes(v: int): (r: seq<bv8>)
    ensures |r| == 2
  {
    var u := v % 0x1_0000;
    [Byte(u % 0x100), Byte(u / 0x100)]
  }

  /** Storing a 16-bit value and reading it back gives the value modulo 2^16. */
  lemma Le16RoundTrip(v: int)
    ensures Le16(Le16Bytes(v), 0) == v % 0x1_0000
  {
  }

  /** The byte whose value is `x` (the conversion of an int below 256 to a byte). */
  function Byte(x: int): (b: bv8)
    requires 0 <= x < 0x100
    ensures b as int == x
  {
    if x == 0 then 0 else Byte(x - 1) + 1
  }

  /** Two's-complement reinterpretation of a byte as s8. */
  function S8(b: bv8): (v: int)
    ensures -128 <= v < 128
    ensures v % 0x100 == b as int
  {
    if b < 0x80 then b as int else b as int - 0x100
  }

  /** Reduction of an integer to the s32 range, as two's-complement wrap-around does. */
  function Wrap32(x: int): (r: int)
    ensures -0x8000_0000 <= r < 0x8000_0000
    ensures (r - x) % 0x1_0000_0000 == 0
  {
    var m := x % 0x1_0000_0000;
    if m < 0x8000_0000 then m else m - 0x1_0000_0000
  }

  /** C integer division: the quotient is truncated toward zero. */
  function DivT(a: int, b: int): (q: int)
    requires b != 0
    ensures (a >= 0) == (b > 0) || a == 0 ==> q >= 0
    ensures Abs(q) * Abs(b) <= Abs(a) < (Abs(q) + 1) * Abs(b)
  {
    var q0 := Abs(a) / Abs(b);
    if (a >= 0) == (b > 0) then q0 else -q0
  }

  function Abs(x: int): int
  {
    if x < 0 then -x else x
  }

  /** Bytes of the C string `s`, reading NUL past its end. */
  function CharAt(s: seq<bv8>, i: nat): bv8
  {
    if i < |s| then s[i] else 0
  }

  /** strncmp(a, b, n) == 0 over NUL-terminated buffers, comparing from index i. */
  function StrnEqFrom(a: seq<bv8>, b: seq<bv8>, i: nat, n: nat): bool
    decreases n - i
  {
    i >= n || (CharAt(a, i) == CharAt(b, i) && (CharAt(a, i) == 0 || StrnEqFrom(a, b, i + 1, n)))
  }

  function StrnEq(a: seq<bv8>, b: seq<bv8>, n: nat): bool
  {
    StrnEqFrom(a, b, 0, n)
  }

  predicate NoNul(s: seq<bv8>)
  {
    forall k :: 0 <= k < |s| ==> s[k] != 0
  }

  /**
   * For a NUL-free string `a` of length n, strncmp(a, b, n) == 0 exactly when
   * `a` is a prefix of the NUL-free string `b`.
   */
  lemma {:induction false} StrnEqPrefix(a: seq<bv8>, b: seq<bv8>, i: nat)
    requires NoNul(a) && NoNul(b) && i <= |a|
    requires i <= |b| && a[..i] == b[..i]
    ensures StrnEqFrom(a, b, i, |a|) <==> (|a| <= |b| && a == b[..|a|])
    decreases |a| - i
  {
    if i < |a| {
      if i < |b| && a[i] == b[i] {
        assert a[..i + 1] == a[..i] + [a[i]] && b[..i + 1] == b[..i] + [b[i]];
        StrnEqPrefix(a, b, i + 1);
      } else if i < |b| {
        assert CharAt(a, i) != CharAt(b, i);
        assert |a| <= |b| ==> b[..|a|][i] == b[i];
      } else {
        assert CharAt(b, i) == 0 && CharAt(a, i) != 0;
      }
    } else {
      assert a == a[..i];
    }
  }

  /** Copies `src` into `dst` at `at`, leaving the other cells as they were (memcpy). */
  method CopyInto(dst: array<bv8>, at: nat, src: seq<bv8>)
    requires at + |src| <= dst.Length
    modifies dst
    ensures dst[..at] == old(dst[..at])
    ensures dst[at..at + |src|] == src
    ensures dst[at + |src|..] == old(dst[at + |src|..])
  {
    var k := 0;
    while k < |src|
      invariant 0 <= k <= |src|
      invariant dst[..at] == old(dst[..at])
      invariant dst[at..at + k] == src[..k]
      invariant dst[at + |src|..] == old(dst[at + |src|..])
    {
      dst[at + k] := src[k];
      k := k + 1;
      assert dst[at..at + k] == dst[at..at + k - 1] + [dst[at + k - 1]];
    }
  }
}
