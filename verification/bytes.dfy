/** Shared vocabulary: bytes, digests, Option/Result and the big-endian integers of the wire format. */
module Bytes {

  newtype byte = x: int | 0 <= x < 256

  /** A digest; the program's are the 32 bytes of SHA-256. The hash function is a parameter of the model. */
  type Hash = seq<byte>

  const HASH_SIZE: nat := 32

  datatype Option<+T> = None | Some(value: T)

  datatype Result<+T, +E> = Ok(value: T) | Err(error: E)

  /** One more than the largest uint64. */
  const U64: nat := 0x1_0000_0000_0000_0000

  /** One more than the largest uint32. */
  const U32: nat := 0x1_0000_0000

  const U16: nat := 0x1_0000

  function Min(a: int, b: int): int {
    if a < b then a else b
  }

  function Max(a: int, b: int): int {
    if a < b then b else a
  }

  // Big-endian encodings, each built from two halves of the next smaller width.

  function BE16(v: nat): seq<byte>
    requires v < U16
  {
    [(v / 256) as byte, (v % 256) as byte]
  }

  function BE32(v: nat): (s: seq<byte>)
    requires v < U32
    ensures |s| == 4
  {
    BE16(v / U16) + BE16(v % U16)
  }

  function BE64(v: nat): (s: seq<byte>)
    requires v < U64
    ensures |s| == 8
  {
    BE32(v / U32) + BE32(v % U32)
  }

  function FromBE16(s: seq<byte>): (v: nat)
    requires |s| == 2
    ensures v < U16
  {
    s[0] as nat * 256 + s[1] as nat
  }

  function FromBE32(s: seq<byte>): (v: nat)
    requires |s| == 4
    ensures v < U32
  {
    FromBE16(s[..2]) * U16 + FromBE16(s[2..])
  }

  function FromBE64(s: seq<byte>): (v: nat)
    requires |s| == 8
    ensures v < U64
  {
    FromBE32(s[..4]) * U32 + FromBE32(s[4..])
  }

  lemma BE16RoundTrip(v: nat)
    requires v < U16
    ensures FromBE16(BE16(v)) == v
  {
  }

  lemma BE32RoundTrip(v: nat)
    requires v < U32
    ensures FromBE32(BE32(v)) == v
  {
    BE16RoundTrip(v / U16);
    BE16RoundTrip(v % U16);
    assert BE32(v)[..2] == BE16(v / U16) && BE32(v)[2..] == BE16(v % U16);
  }

  lemma BE64RoundTrip(v: nat)
    requires v < U64
    ensures FromBE64(BE64(v)) == v
  {
    BE32RoundTrip(v / U32);
    BE32RoundTrip(v % U32);
    assert BE64(v)[..4] == BE32(v / U32) && BE64(v)[4..] == BE32(v % U32);
  }

  /** Most significant byte first. */
  lemma BigEndian16(s: seq<byte>)
    requires |s| == 2
    ensures FromBE16(s) == 0x100 * s[0] as nat + s[1] as nat
  {
  }

  lemma BigEndian32(s: seq<byte>)
    requires |s| == 4
    ensures FromBE32(s) == 0x100_0000 * s[0] as nat + 0x1_0000 * s[1] as nat + 0x100 * s[2] as nat + s[3] as nat
  {
    BigEndian16(s[..2]);
    BigEndian16(s[2..]);
  }

  lemma BigEndian64(s: seq<byte>)
    requires |s| == 8
    ensures FromBE64(s) ==
            0x100_0000_0000_0000 * s[0] as nat + 0x1_0000_0000_0000 * s[1] as nat + 0x100_0000_0000 * s[2] as nat
            + 0x1_0000_0000 * s[3] as nat + 0x100_0000 * s[4] as nat + 0x1_0000 * s[5] as nat + 0x100 * s[6] as nat + s[7] as nat
  {
    BigEndian32(s[..4]);
    BigEndian32(s[4..]);
  }

  lemma Regroup<T>(a: seq<T>, b: seq<T>, c: seq<T>)
    ensures a + b + c == a + (b + c)
  {
  }

  lemma SplitSlice<T>(s: seq<T>, a: nat, b: nat, n: nat)
    requires a + n <= b <= |s|
    ensures s[a..b][..n] == s[a..a + n]
    ensures s[a..b][n..] == s[a + n..b]
    ensures s[a..a + n] + s[a + n..b] == s[a..b]
  {
  }

  lemma SubSlice<T>(s: seq<T>, a: nat, b: nat, i: nat, n: nat)
    requires a <= i && i + n <= b <= |s|
    ensures s[a..b][i - a..i - a + n] == s[i..i + n]
  {
    var u := s[a..b][i - a..i - a + n];
    assert forall k :: 0 <= k < n ==> u[k] == s[i + k];
  }

  // ----- Division by a variable -----
  // Defined by recursion, so that the solver meets it as a function and not as nonlinear arithmetic.

  function Div(a: nat, d: nat): (q: nat)
    requires 0 < d
  {
    if a < d then 0 else 1 + Div(a - d, d)
  }

  function Mod(a: nat, d: nat): (r: nat)
    requires 0 < d
    ensures r < d && r <= a
  {
    if a < d then a else Mod(a - d, d)
  }

  lemma {:induction false} DivMod(a: nat, d: nat)
    requires 0 < d
    ensures Div(a, d) * d + Mod(a, d) == a
  {
    if d <= a {
      DivMod(a - d, d);
      assert (1 + Div(a - d, d)) * d == d + Div(a - d, d) * d;
    }
  }

  lemma MulStep(a: nat, b: nat, d: nat)
    requires a < b
    ensures a * d + d <= b * d
  {
    assert b * d == a * d + (b - a) * d;
    assert (b - a) * d == d + (b - a - 1) * d;
  }

  lemma MulNext(k: nat, d: nat)
    ensures (k + 1) * d == k * d + d
  {
  }

  lemma MulMonotone(a: nat, b: nat, d: nat)
    requires a <= b
    ensures a * d <= b * d
  {
    if a < b {
      MulStep(a, b, d);
    }
  }

  /** Quotients are unique, stated without division so that the solver never has to divide. */
  lemma QuotientUnique(q: nat, r: nat, q': nat, r': nat, d: nat)
    requires r < d && r' < d && q * d + r == q' * d + r'
    ensures q == q' && r == r'
  {
    if q < q' {
      MulStep(q, q', d);
    } else if q' < q {
      MulStep(q', q, d);
    }
  }

  lemma DivUnique(a: nat, d: nat, q: nat, r: nat)
    requires 0 < d && r < d && a == q * d + r
    ensures Div(a, d) == q && Mod(a, d) == r
  {
    DivMod(a, d);
    QuotientUnique(q, r, Div(a, d), Mod(a, d), d);
  }

  /** `Div` and `Mod` are the built-in operators. */
  lemma DivIsQuotient(a: nat, d: nat)
    requires 0 < d
    ensures Div(a, d) == a / d && Mod(a, d) == a % d
  {
    assert a / d * d + a % d == a;
    DivUnique(a, d, a / d, a % d);
  }

  lemma DivMonotone(a: nat, b: nat, d: nat)
    requires 0 < d && a <= b
    ensures Div(a, d) <= Div(b, d)
  {
    DivMod(a, d);
    DivMod(b, d);
    if Div(b, d) < Div(a, d) {
      MulStep(Div(b, d), Div(a, d), d);
    }
  }

  /** Go's copy(dst[at:], src) for a source that fits. */
  method CopyInto(dst: array<byte>, at: nat, src: seq<byte>)
    requires at + |src| <= dst.Length
    modifies dst
    ensures dst[..] == old(dst[..at]) + src + old(dst[at + |src|..])
  {
    forall k | 0 <= k < |src| {
      dst[at + k] := src[k];
    }
  }
}
