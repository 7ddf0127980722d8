/** 256-bit targets: `share_target_le`, `leq_le256`, `hash_to_display_diff` (src/share.rs) and
    `compact_target_to_le`, `block_hash_meets_compact_target` (src/template.rs).
    An f64 difficulty is read as the real number it stands for. */
module Targets {
  import opened ByteStrings

  const DIFF1: nat := 0x0000_0000_ffff_0000_0000_0000_0000_0000_0000_0000_0000_0000_0000_0000_0000_0000
  const SCALE: nat := 1_000_000_000_000
  const U128_MAX: nat := 0xffff_ffff_ffff_ffff_ffff_ffff_ffff_ffff

  /** `((diff * SCALE).round() as u128).max(1)`: rounds half up and saturates. */
  function ScaledDifficulty(diff: real): (ds: nat)
    requires diff > 0.0
    ensures 1 <= ds <= U128_MAX
  {
    var rounded := (diff * SCALE as real + 0.5).Floor;
    if rounded < 1 then 1 else if rounded > U128_MAX then U128_MAX else rounded
  }

  /** `BigUint::to_bytes_be`: no leading zero, and one byte for zero. */
  function BeBytes(value: nat): (s: Bytes)
    ensures |s| >= 1
  {
    if value < 0x100 then [value] else BeBytes(value / 0x100) + [value % 0x100]
  }

  /** The 32-byte little-endian form of `value`, or all ones when it needs more than 32 bytes. */
  function SaturatedLe(value: nat): Hash {
    var be := BeBytes(value);
    if |be| > 32 then seq(32, _ => 0xff) else Reverse(Zeros(32 - |be|) + be)
  }

  function TargetOfScaled(ds: nat): Hash
    requires ds >= 1
  {
    SaturatedLe(DIFF1 * SCALE / ds)
  }

  /** `share_target_le`; `None` is the error for a difficulty that is not positive. */
  function ShareTargetLe(diff: real): Option<Hash> {
    if diff <= 0.0 then None else Some(TargetOfScaled(ScaledDifficulty(diff)))
  }

  /** The exact quotient-plus-remainder sum of `hash_to_display_diff`, for a hash that is not zero. */
  function DisplayDifficulty(hash: Hash): real
    requires LeValue(hash) > 0
  {
    (DIFF1 / LeValue(hash)) as real + (DIFF1 % LeValue(hash)) as real / LeValue(hash) as real
  }

  lemma {:induction false} LeCompareAt(a: Bytes, b: Bytes, i: nat)
    requires |a| == |b| && i < |a| && a[i + 1..] == b[i + 1..] && a[i] < b[i]
    ensures LeValue(a) < LeValue(b)
  {
    if i > 0 {
      assert a[1..][i..] == a[i + 1..] && b[1..][i..] == b[i + 1..];
      LeCompareAt(a[1..], b[1..], i - 1);
    }
  }

  /** The byte loop decides the numeric order. */
  method LeqLe256(a: Hash, b: Hash) returns (leq: bool)
    ensures leq <==> LeValue(a) <= LeValue(b)
  {
    for idx := 32 downto 0
      invariant a[idx..] == b[idx..]
    {
      if a[idx] < b[idx] {
        LeCompareAt(a, b, idx);
        return true;
      }
      if a[idx] > b[idx] {
        LeCompareAt(b, a, idx);
        return false;
      }
    }
    return true;
  }

  lemma {:induction false} BeBytesValue(value: nat)
    ensures LeValue(Reverse(BeBytes(value))) == value
    ensures value < Pow256(|BeBytes(value)|)
    ensures |BeBytes(value)| > 1 ==> Pow256(|BeBytes(value)| - 1) <= value
  {
    if value >= 0x100 {
      var high := BeBytes(value / 0x100);
      BeBytesValue(value / 0x100);
      assert Reverse(BeBytes(value)) == [value % 0x100] + Reverse(high);
      assert |high| == 1 ==> Pow256(|high|) == 0x100;
      if |high| > 1 {
        assert Pow256(|high|) == 0x100 * Pow256(|high| - 1);
      }
    } else {
      assert Reverse(BeBytes(value)) == [value];
    }
  }

  lemma {:induction false} Pow256Monotone(a: nat, b: nat)
    requires a <= b
    ensures Pow256(a) <= Pow256(b)
  {
    if a < b {
      Pow256Monotone(a, b - 1);
    }
  }

  /** The bytes of a saturated number stand for it, or for the largest 256-bit number when it does not fit. */
  lemma SaturatedLeValue(value: nat)
    ensures LeValue(SaturatedLe(value)) == if value < Pow256(32) then value else Pow256(32) - 1
  {
    hide LeValue, BeBytes;
    var be := BeBytes(value);
    BeBytesValue(value);
    if |be| > 32 {
      Pow256Monotone(32, |be| - 1);
      AllOnes(32);
    } else {
      Pow256Monotone(|be|, 32);
      PaddedValue(be, 32 - |be|);
    }
  }

  /** Leading zeros do not change a big-endian number. */
  lemma PaddedValue(be: Bytes, pad: nat)
    ensures LeValue(Reverse(Zeros(pad) + be)) == LeValue(Reverse(be))
  {
    assert Reverse(Zeros(pad) + be) == Reverse(be) + Zeros(pad);
    LeValueAppend(Reverse(be), Zeros(pad));
    LeValueZeros(pad);
  }

  lemma {:induction false} AllOnes(n: nat)
    ensures LeValue(seq(n, _ => 0xff)) == Pow256(n) - 1
  {
    if n > 0 {
      var ones: Bytes := seq(n, _ => 0xff);
      assert ones[1..] == seq(n - 1, _ => 0xff);
      AllOnes(n - 1);
    }
  }

  lemma QuotientBound(x: nat, d: nat, n: nat)
    requires d >= 1
    ensures x <= n / d <==> x * d <= n
  {
    assert n == (n / d) * d + n % d;
    if x <= n / d {
      assert x * d <= (n / d) * d;
    } else {
      assert x * d >= (n / d + 1) * d;
    }
  }

  /** A hash meets the share target exactly when hash times scaled difficulty is at most DIFF1 times the scale,
      the saturated target included. */
  lemma ShareTargetMeaning(hash: Hash, ds: nat)
    requires ds >= 1
    ensures LeValue(hash) <= LeValue(TargetOfScaled(ds)) <==> LeValue(hash) * ds <= DIFF1 * SCALE
  {
    SaturatedLeValue(DIFF1 * SCALE / ds);
    LeValueBound(hash);
    QuotientBound(LeValue(hash), ds, DIFF1 * SCALE);
  }

  /** ... and, for a hash that is not zero, exactly when its displayed difficulty reaches the scaled one. */
  lemma ShareTargetIsDifficulty(hash: Hash, ds: nat)
    requires ds >= 1 && LeValue(hash) > 0
    ensures LeValue(hash) <= LeValue(TargetOfScaled(ds)) <==> DisplayDifficulty(hash) >= ds as real / SCALE as real
  {
    ShareTargetMeaning(hash, ds);
    DisplayTimesHash(hash);
    hide DisplayDifficulty, TargetOfScaled, LeValue;
    RatioOrder(DisplayDifficulty(hash), LeValue(hash), ds, DIFF1, SCALE);
  }

  lemma DisplayTimesHash(hash: Hash)
    requires LeValue(hash) > 0
    ensures DisplayDifficulty(hash) * LeValue(hash) as real == DIFF1 as real
  {
    hide LeValue;
    QuotientPlusRemainder(DIFF1, LeValue(hash));
  }

  lemma QuotientPlusRemainder(n: nat, v: nat)
    requires v > 0
    ensures ((n / v) as real + (n % v) as real / v as real) * v as real == n as real
  {
    var q, r := n / v, n % v;
    assert n == q * v + r;
    assert (r as real / v as real) * v as real == r as real;
    assert (q as real) * (v as real) == (q * v) as real;
  }

  lemma RatioOrder(x: real, v: nat, ds: nat, n: nat, scale: nat)
    requires v > 0 && scale > 0 && x * v as real == n as real
    ensures x >= ds as real / scale as real <==> v * ds <= n * scale
  {
    var d := ds as real / scale as real;
    var k := v as real * scale as real;
    assert d * scale as real == ds as real;
    assert (v * ds) as real == v as real * ds as real == d * k;
    assert (n * scale) as real == n as real * scale as real == x * k;
    if x >= d {
      assert x * k >= d * k;
    } else {
      assert x * k < d * k;
    }
  }

  function Exponent(nbits: U32): nat { nbits / 0x100_0000 }

  function Mantissa(nbits: U32): nat { nbits % 0x80_0000 }

  predicate SignBit(nbits: U32) { (nbits / 0x80_0000) % 2 == 1 }

  /** The number a compact target stands for, floor(mantissa * 256^(exponent - 3)), for the encodings accepted. */
  function CompactTarget(nbits: U32): Option<nat> {
    if SignBit(nbits) || Mantissa(nbits) == 0 || Exponent(nbits) == 0 || Exponent(nbits) > 32 then None
    else Some(Mantissa(nbits) * Pow256(Exponent(nbits)) / Pow256(3))
  }

  /** Placing three bytes at 32 - exponent from the top, or the shifted mantissa in the low bytes, gives that number. */
  method CompactTargetToLe(nbits: U32) returns (target: Option<Hash>)
    ensures target.Some? <==> CompactTarget(nbits).Some?
    ensures target.Some? ==> LeValue(target.value) == CompactTarget(nbits).value
  {
    var exponent := Exponent(nbits);
    var mantissa := Mantissa(nbits);
    if SignBit(nbits) || mantissa == 0 || exponent == 0 || exponent > 32 {
      return None;
    }
    var be := Zeros(32);
    if exponent <= 3 {
      var reduced := mantissa / Pow256(3 - exponent);
      for idx := 0 to exponent
        invariant |be| == 32
        invariant forall k :: 0 <= k < 32 ==>
          be[k] == if 32 - exponent <= k < 32 - exponent + idx then reduced / Pow256(31 - k) % 0x100 else 0
      {
        be := be[32 - exponent + idx := reduced / Pow256(exponent - 1 - idx) % 0x100];
      }
      SmallCompact(mantissa, exponent);
      SmallBytes(be, reduced, exponent);
    } else {
      var start := 32 - exponent;
      be := be[start := mantissa / 0x1_0000 % 0x100];
      be := be[start + 1 := mantissa / 0x100 % 0x100];
      be := be[start + 2 := mantissa % 0x100];
      MantissaBytes(mantissa);
      assert Reverse(be) == Zeros(exponent - 3) + (LeBytes(mantissa, 3) + Zeros(start));
      LargeCompact(mantissa, exponent);
    }
    return Some(Reverse(be));
  }

  lemma SmallBytes(be: Bytes, reduced: nat, exponent: nat)
    requires |be| == 32 && exponent <= 32 && reduced < Pow256(exponent)
    requires forall k :: 0 <= k < 32 ==> be[k] == if 32 - exponent <= k then reduced / Pow256(31 - k) % 0x100 else 0
    ensures LeValue(Reverse(be)) == reduced
  {
    var low, high := LeBytes(reduced, exponent), Zeros(32 - exponent);
    forall i | 0 <= i < 32
      ensures Reverse(be)[i] == (low + high)[i]
    {
      if i < exponent {
        LeByteAt(reduced, exponent, i);
      }
    }
    assert Reverse(be) == low + high;
    LeValueAppend(low, high);
    LeValueZeros(32 - exponent);
    LeRoundTrip(reduced, exponent);
  }

  lemma {:induction false} LeByteAt(value: nat, width: nat, i: nat)
    requires i < width
    ensures LeBytes(value, width)[i] == value / Pow256(i) % 0x100
  {
    if i > 0 {
      LeByteAt(value / 0x100, width - 1, i - 1);
      DivDiv(value, 0x100, Pow256(i - 1));
    }
  }

  lemma DivDiv(n: nat, a: nat, b: nat)
    requires a > 0 && b > 0
    ensures a * b > 0 && n / a / b == n / (a * b)
  {
    var q := n / a;
    NestedRemainder(n, a, b, q, n % a, q / b, q % b);
    UniqueQuotient(n, a * b, q / b, a * (q % b) + n % a);
  }

  lemma NestedRemainder(n: nat, a: nat, b: nat, q: nat, r1: nat, r: nat, r2: nat)
    requires n == a * q + r1 && r1 < a && q == b * r + r2 && r2 < b
    ensures a * b > 0 && a * r2 >= 0
    ensures n == (a * b) * r + (a * r2 + r1)
    ensures a * r2 + r1 < a * b
  {
    MulDistributes(a, b * r, r2);
    MulAssociates(a, b, r);
    MulMonotone(a, r2 + 1, b);
    MulDistributes(a, r2, 1);
  }

  lemma MulDistributes(a: nat, x: nat, y: nat)
    ensures a * (x + y) == a * x + a * y
  {
  }

  lemma MulAssociates(a: nat, b: nat, c: nat)
    ensures a * (b * c) == (a * b) * c
  {
  }

  lemma MulMonotone(a: nat, x: nat, y: nat)
    requires x <= y
    ensures a * x <= a * y
  {
  }

  lemma UniqueQuotient(n: nat, c: nat, q: nat, r: nat)
    requires n == c * q + r && r < c
    ensures n / c == q
  {
    QuotientBound(q, c, n);
    QuotientBound(q + 1, c, n);
  }

  lemma SmallCompact(mantissa: nat, exponent: nat)
    requires mantissa < 0x80_0000 && 1 <= exponent <= 3
    ensures var reduced := mantissa / Pow256(3 - exponent);
            && reduced < Pow256(exponent)
            && reduced == mantissa * Pow256(exponent) / Pow256(3)
  {
    assert Pow256(1) == 0x100 && Pow256(2) == 0x1_0000 && Pow256(3) == 0x100_0000;
  }

  lemma MantissaBytes(mantissa: nat)
    ensures LeBytes(mantissa, 3) == [mantissa % 0x100, mantissa / 0x100 % 0x100, mantissa / 0x1_0000 % 0x100]
  {
    assert Pow256(1) == 0x100 && Pow256(2) == 0x1_0000;
    LeByteAt(mantissa, 3, 1);
    LeByteAt(mantissa, 3, 2);
  }

  lemma ExactQuotient(n: nat, c: nat)
    requires c > 0
    ensures n * c / c == n
  {
    QuotientBound(n, c, n * c);
    QuotientBound(n + 1, c, n * c);
  }

  lemma LargeCompact(mantissa: nat, exponent: nat)
    requires mantissa < 0x80_0000 && 3 < exponent <= 32
    ensures LeValue(Zeros(exponent - 3) + (LeBytes(mantissa, 3) + Zeros(32 - exponent)))
            == mantissa * Pow256(exponent) / Pow256(3)
  {
    var low, mid, high := Zeros(exponent - 3), LeBytes(mantissa, 3), Zeros(32 - exponent);
    var p, c := Pow256(exponent - 3), Pow256(3);
    assert LeValue(mid) == mantissa by {
      assert Pow256(3) == 0x100_0000;
      LeRoundTrip(mantissa, 3);
    }
    assert LeValue(mid + high) == mantissa by {
      LeValueAppend(mid, high);
      LeValueZeros(32 - exponent);
    }
    assert LeValue(low + (mid + high)) == p * mantissa by {
      LeValueAppend(low, mid + high);
      LeValueZeros(exponent - 3);
    }
    assert Pow256(exponent) == p * c by {
      Pow256Add(exponent - 3, 3);
    }
    ShiftedQuotient(mantissa, p, c);
  }

  lemma ShiftedQuotient(m: nat, p: nat, c: nat)
    requires c > 0
    ensures m * (p * c) / c == p * m
  {
    assert m * (p * c) == (p * m) * c;
    ExactQuotient(p * m, c);
  }

  /** `block_hash_meets_compact_target`; `None` is the error for an nBits value that encodes no target. */
  function MeetsCompactTarget(hash: Hash, nbits: U32): Option<bool> {
    match CompactTarget(nbits)
    case None => None
    case Some(target) => Some(LeValue(hash) <= target)
  }

  method BlockHashMeetsCompactTarget(hash: Hash, nbits: U32) returns (meets: Option<bool>)
    ensures meets == MeetsCompactTarget(hash, nbits)
  {
    var target := CompactTargetToLe(nbits);
    if target.None? {
      return None;
    }
    var leq := LeqLe256(hash, target.value);
    return Some(leq);
  }
}
