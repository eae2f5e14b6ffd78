/** The ZigZag helpers of protobuf-3.20.0/objectivec/GPBUtilities_PackagePrivate.h, for integers of
    any width.  A C integer of `w` bits is its value; casts and shifts are arithmetic on it. */
module ZigZag {
  import opened Division


  function Pow2(k: nat): (r: nat)
    ensures r >= 1
  {
    if k == 0 then 1 else 2 * Pow2(k - 1)
  }

  predicate IsSigned(n: int, w: nat)
    requires w >= 1
  {
    0 <= n + Pow2(w - 1) < Pow2(w)
  }

  /** The cast of an integer to the unsigned type of `w` bits. */
  function ToUnsigned(n: int, w: nat): (r: nat)
    ensures r < Pow2(w)
  {
    n % Pow2(w)
  }

  lemma ModulusAway(r: int, m: nat)
    requires 0 <= r < m
    ensures r % m == r && (r + m) % m == r && (r - m) % m == r
  {
    Remainder(r, m, 0, r);
    Remainder(r + m, m, 1, r);
    Remainder(r - m, m, -1, r);
  }

  lemma ToUnsignedIs(n: int, w: nat)
    requires -(Pow2(w) as int) <= n < Pow2(w)
    ensures ToUnsigned(n, w) == if n >= 0 then n else n + Pow2(w)
  {
    hide Pow2;
    ModulusAway(if n >= 0 then n else n + Pow2(w), Pow2(w));
  }

  /** The cast of an unsigned integer to the signed type of the same width. */
  function ToSigned(u: nat, w: nat): (n: int)
    requires w >= 1 && u < Pow2(w)
    ensures IsSigned(n, w)
  {
    if u < Pow2(w - 1) then u else u - Pow2(w)
  }

  /** `^` on unsigned integers of `w` bits, from the lowest bit up. */
  function Xor(a: nat, b: nat, w: nat): (r: nat)
    ensures r < Pow2(w)
  {
    if w == 0 then 0 else (a + b) % 2 + 2 * Xor(a / 2, b / 2, w - 1)
  }

  lemma {:induction false} XorZero(a: nat, w: nat)
    requires a < Pow2(w)
    ensures Xor(a, 0, w) == a
  {
    if w != 0 { XorZero(a / 2, w - 1); }
  }

  lemma LowestBit(a: nat, p: nat)
    requires a < 2 * p
    ensures a / 2 < p && (2 * p - 1) / 2 == p - 1
    ensures (a + (2 * p - 1)) % 2 + 2 * (p - 1 - a / 2) == 2 * p - 1 - a
  {
  }

  /** Exclusive or with all ones takes the complement. */
  lemma {:induction false} XorOnes(a: nat, w: nat)
    requires a < Pow2(w)
    ensures Xor(a, Pow2(w) - 1, w) == Pow2(w) - 1 - a
  {
    if w != 0 {
      LowestBit(a, Pow2(w - 1));
      XorOnes(a / 2, w - 1);
    }
  }

  // ---------------------------------------------------------------- the helpers

  /** GPBLogicalRightShift32 and GPBLogicalRightShift64, by one place. */
  function LogicalRightShift(value: int, w: nat): int
    requires w >= 1
  {
    var u := ToUnsigned(value, w) / 2;
    ToSigned(u, w)
  }

  /** GPBDecodeZigZag32 and GPBDecodeZigZag64. */
  function Decode(n: nat, w: nat): (r: int)
    requires w >= 1 && n < Pow2(w)
    ensures IsSigned(r, w)
  {
    var signed := ToSigned(n, w);
    ToSigned(Xor(ToUnsigned(LogicalRightShift(signed, w), w), ToUnsigned(-(signed % 2), w), w), w)
  }

  /** GPBEncodeZigZag32 and GPBEncodeZigZag64; the right shift copies the sign. */
  function Encode(n: int, w: nat): (u: nat)
    requires w >= 1 && IsSigned(n, w)
    ensures u < Pow2(w)
  {
    Xor(ToUnsigned(ToUnsigned(n, w) * 2, w), ToUnsigned(n / Pow2(w - 1), w), w)
  }

  /** What the encoding is for: small absolute values get small codes. */
  function Code(n: int): nat {
    if n >= 0 then 2 * n else -2 * n - 1
  }

  lemma SignOf(n: int, w: nat)
    requires w >= 1 && IsSigned(n, w)
    ensures n / Pow2(w - 1) == if n >= 0 then 0 else -1
  {
    hide Pow2;
    var m := Pow2(w - 1);
    assert Pow2(w) == 2 * m by { Double(w); }
    if n < 0 { assert n == -1 * m + (n + m); }
  }

  lemma Double(w: nat)
    requires w >= 1
    ensures Pow2(w) == 2 * Pow2(w - 1)
  {
  }

  lemma EncodeIsCode(n: int, w: nat)
    requires w >= 1 && IsSigned(n, w)
    ensures Encode(n, w) == Code(n)
  {
    hide Pow2, ToUnsigned, Xor;
    Double(w);
    SignOf(n, w);
    ToUnsignedIs(n, w);
    ToUnsignedIs(n / Pow2(w - 1), w);
    if n >= 0 {
      ToUnsignedIs(2 * n, w);
      XorZero(2 * n, w);
    } else {
      TwiceWraps(n, w);
      XorOnes(2 * n + Pow2(w), w);
    }
  }

  lemma TwiceWraps(n: int, w: nat)
    requires w >= 1 && IsSigned(n, w) && n < 0
    ensures ToUnsigned((n + Pow2(w)) * 2, w) == 2 * n + Pow2(w)
  {
    hide Pow2;
    Double(w);
    ModulusAway(2 * n + Pow2(w), Pow2(w));
    assert (n + Pow2(w)) * 2 == 2 * n + Pow2(w) + Pow2(w);
  }

  lemma EvenAway(n: int, k: int)
    ensures (n - 2 * k) % 2 == n % 2
  {
  }

  lemma ParityOf(n: nat, w: nat)
    requires w >= 1 && n < Pow2(w)
    ensures ToSigned(n, w) % 2 == n % 2
  {
    hide Pow2;
    Double(w);
    EvenAway(n, Pow2(w - 1));
  }

  lemma HalfOf(n: nat, w: nat)
    requires w >= 1 && n < Pow2(w)
    ensures LogicalRightShift(ToSigned(n, w), w) == n / 2 && ToUnsigned(n / 2, w) == n / 2
  {
    hide Pow2, ToUnsigned;
    Double(w);
    ToUnsignedIs(ToSigned(n, w), w);
    ToUnsignedIs(n / 2, w);
  }

  /** Exclusive or with a sign. */
  lemma XorSign(h: nat, sign: int, w: nat)
    requires h < Pow2(w) && -1 <= sign <= 0
    ensures Xor(h, ToUnsigned(sign, w), w) == if sign == 0 then h else Pow2(w) - 1 - h
  {
    hide Pow2, ToUnsigned, Xor;
    ToUnsignedIs(sign, w);
    XorZero(h, w);
    XorOnes(h, w);
  }

  lemma DecodeIsMeaning(n: nat, w: nat)
    requires w >= 1 && n < Pow2(w)
    ensures Decode(n, w) == if n % 2 == 0 then n / 2 else -(n / 2) - 1
  {
    hide Pow2, ToUnsigned, Xor, LogicalRightShift;
    ParityOf(n, w);
    HalfOf(n, w);
    XorSign(n / 2, -(n % 2), w);
    HalfIsSigned(n, w);
  }

  lemma HalfIsSigned(n: nat, w: nat)
    requires w >= 1 && n < Pow2(w)
    ensures n / 2 < Pow2(w - 1) <= Pow2(w) - 1 - n / 2 < Pow2(w)
  {
  }

  /** Decoding undoes encoding, and the other way round. */
  lemma RoundTrip(n: int, w: nat)
    requires w >= 1 && IsSigned(n, w)
    ensures Decode(Encode(n, w), w) == n
  {
    hide Pow2, Encode, Decode;
    EncodeIsCode(n, w);
    DecodeIsMeaning(Code(n), w);
  }

  lemma RoundTripBack(u: nat, w: nat)
    requires w >= 1 && u < Pow2(w)
    ensures Encode(Decode(u, w), w) == u
  {
    hide Pow2, Encode, Decode;
    DecodeIsMeaning(u, w);
    EncodeIsCode(Decode(u, w), w);
  }
}
