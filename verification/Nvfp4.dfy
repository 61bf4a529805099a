/** The NVFP4 key/value cache: packed rows, the quantizing writer and its readers. */
module Nvfp4 {
  import opened RealMath

  newtype byte = x: int | 0 <= x < 256

  function Scaled(v: real, scale: real): real { v * scale }

  // ----- number formats

  /** 2 to the power e - 24, for the exponents of half precision and below. */
  function Pow2(e: nat): real
  {
    if e == 0 then 1.0 / 16777216.0 else 2.0 * Pow2(e - 1)
  }

  lemma Pow2Values()
    ensures Pow2(15) == 1.0 / 512.0 && Pow2(18) == 1.0 / 64.0
    ensures Pow2(23) == 0.5 && Pow2(24) == 1.0 && Pow2(25) == 2.0 && Pow2(26) == 4.0
  {
    assert Pow2(3) == 1.0 / 2097152.0;
    assert Pow2(6) == 1.0 / 262144.0;
    assert Pow2(9) == 1.0 / 32768.0;
    assert Pow2(12) == 1.0 / 4096.0;
    assert Pow2(15) == 1.0 / 512.0;
    assert Pow2(18) == 1.0 / 64.0;
    assert Pow2(21) == 1.0 / 8.0;
  }

  /** Value of a finite half-precision bit pattern: sign, 5 exponent bits, 10 fraction bits. */
  function HalfValue(bits: nat): real
    requires bits < 0x10000 && bits / 1024 % 32 != 31
  {
    var e, f := bits / 1024 % 32, bits % 1024;
    var mag := if e == 0 then Scaled(f as real, Pow2(0)) else Scaled(1.0 + f as real / 1024.0, Pow2(e + 9));
    if bits >= 0x8000 then -mag else mag
  }

  /** The least positive half, and 1. */
  lemma HalfValues()
    ensures HalfValue(0x0001) == 1.0 / 16777216.0 && HalfValue(0x3C00) == 1.0
  {
    Pow2Values();
  }

  /** e2m1 code (sign bit 3) to half-precision bits, as the kernels build them. */
  function E2m1Bits(code: nat): nat
    requires code < 16
  {
    var mag := code % 8;
    (if mag < 2 then mag * 0x3800 else mag * 512 + 0x3800) + (if code >= 8 then 0x8000 else 0)
  }

  /** The magnitudes of the format, as the reference table lists them. */
  function Magnitude(mag: nat): real
    requires mag < 8
  {
    [0.0, 0.5, 1.0, 1.5, 2.0, 3.0, 4.0, 6.0][mag]
  }

  function E2m1Value(code: nat): real
    requires code < 16
  {
    if code >= 8 then -Magnitude(code % 8) else Magnitude(code % 8)
  }

  /** The bit construction gives the table's value for every code, and sets the sign bit for the upper half. */
  lemma BitsAreTable(code: nat)
    requires code < 16
    ensures E2m1Bits(code) < 0x10000 && E2m1Bits(code) / 1024 % 32 != 31
    ensures HalfValue(E2m1Bits(code)) == E2m1Value(code) && (E2m1Bits(code) >= 0x8000 <==> code >= 8)
  {
    hide HalfValue, Magnitude, E2m1Bits;
    var mag := code % 8;
    MagnitudeBits(mag);
    SignIsAdded(code);
    SignedHalf(E2m1Bits(mag));
  }

  lemma SignIsAdded(code: nat)
    requires code < 16
    ensures code % 8 < 8 && E2m1Bits(code) == E2m1Bits(code % 8) + if code >= 8 then 0x8000 else 0
  {
    assert code % 8 % 8 == code % 8;
  }

  lemma MagnitudeBits(mag: nat)
    requires mag < 8
    ensures E2m1Bits(mag) < 0x8000 && E2m1Bits(mag) / 1024 % 32 != 31 && HalfValue(E2m1Bits(mag)) == Magnitude(mag)
  {
    Pow2Values();
    assert mag == 0 || mag == 1 || mag == 2 || mag == 3 || mag == 4 || mag == 5 || mag == 6 || mag == 7;
  }

  lemma SignedHalf(bits: nat)
    requires bits < 0x8000 && bits / 1024 % 32 != 31
    ensures (bits + 0x8000) / 1024 % 32 != 31 && HalfValue(bits + 0x8000) == -HalfValue(bits)
  {
    assert (bits + 0x8000) / 1024 == bits / 1024 + 32;
    assert (bits / 1024 + 32) % 32 == bits / 1024 % 32;
    assert (bits + 0x8000) % 1024 == bits % 1024;
    hide Pow2, Scaled;
  }

  /** Packing two nibbles into a byte with | and <<, and taking them out with >> and &, are the arithmetic used here. */
  lemma NibbleBits(lo: bv8, hi: bv8)
    requires lo < 16 && hi < 16
    ensures (lo | (hi << 4)) & 15 == lo && ((lo | (hi << 4)) >> 4) & 15 == hi
    ensures lo | (hi << 4) == lo + hi * 16
  {
  }

  /** Value of a finite e4m3 byte (bias 7, no infinities, 0x7F and 0xFF are NaN). */
  function E4m3Value(b: byte): real
    requires b as int % 128 != 127
  {
    var e, f := b as int / 8 % 16, b as int % 8;
    var mag := if e == 0 then Scaled(f as real, Pow2(15)) else Scaled(1.0 + f as real / 8.0, Pow2(e + 17));
    if b >= 128 then -mag else mag
  }

  /** A conversion to e4m3 that returns a nearest finite value, the even one of two equally near. */
  ghost predicate RoundsToNearest(enc: real -> byte)
  {
    forall t: real {:trigger enc(t)} :: t >= 0.0 ==>
      && enc(t) < 127
      && forall b: byte {:trigger E4m3Value(b)} :: b as int % 128 != 127 ==>
           Abs(E4m3Value(enc(t)) - t) <= Abs(E4m3Value(b) - t)
           && (b < 127 && b != enc(t) && Abs(E4m3Value(enc(t)) - t) == Abs(E4m3Value(b) - t) ==> enc(t) as int % 2 == 0)
  }

  /** The magnitude code counts the thresholds, the midpoints between neighbouring
      table entries, that |x| has reached. */
  function Encode(x: real): (code: nat)
    ensures code < 16
  {
    var a := Abs(x);
    var m := if a < 0.25 then 0 else if a < 0.75 then 1 else if a < 1.25 then 2 else if a < 1.75 then 3
             else if a < 2.5 then 4 else if a < 3.5 then 5 else if a < 5.0 then 6 else 7;
    m + if x < 0.0 then 8 else 0
  }

  /** The encoder returns a nearest representable value, for every real, the one farther from 0 of two; beyond 6 it
      saturates; and the sign bit is set for negative values only. */
  lemma EncodeNearest(x: real, code: nat)
    requires code < 16
    ensures Abs(x - E2m1Value(Encode(x))) <= Abs(x - E2m1Value(code))
    ensures Abs(x - E2m1Value(Encode(x))) == Abs(x - E2m1Value(code)) ==>
              Abs(E2m1Value(code)) <= Abs(E2m1Value(Encode(x)))
    ensures Abs(x) >= 6.0 ==> Abs(E2m1Value(Encode(x))) == 6.0
    ensures Encode(x) >= 8 <==> x < 0.0
  {
  }

  /** x / s as the kernel evaluates it: with scale 0 the quotient is an infinity or NaN, whose magnitude code is 7. */
  function EncodeScaled(x: real, s: real): (code: nat)
    ensures code < 16
  {
    if s == 0.0 then 7 + (if x < 0.0 then 8 else 0) else Encode(x / s)
  }

  /** With scale 0 every code is a 6 with the sign of the value. */
  lemma ZeroScaleCode(x: real)
    ensures E2m1Value(EncodeScaled(x, 0.0)) == if x < 0.0 then -6.0 else 6.0
  {
  }

  // ----- row layout

  function KScaleOff(hqk: nat): nat { hqk / 2 }

  function VDataOff(hqk: nat): nat { KScaleOff(hqk) + hqk / 16 }

  function VScaleOff(hqk: nat, hv: nat): nat { VDataOff(hqk) + hv / 2 }

  function PayloadBytes(hqk: nat, hv: nat): nat { hqk / 2 + hqk / 16 + hv / 2 + hv / 16 }

  function RowBytes(hqk: nat, hv: nat): nat { (PayloadBytes(hqk, hv) + 3) / 4 * 4 }

  /** The four regions follow one another without overlap and fit the aligned row, with less than 4 bytes of padding. */
  lemma RegionsFit(hqk: nat, hv: nat)
    requires hqk % 16 == 0 && hv % 16 == 0
    ensures KScaleOff(hqk) == hqk / 16 * 8 && VDataOff(hqk) == hqk / 16 * 9
    ensures VScaleOff(hqk, hv) == hqk / 16 * 9 + hv / 16 * 8
    ensures VScaleOff(hqk, hv) + hv / 16 == PayloadBytes(hqk, hv) <= RowBytes(hqk, hv) < PayloadBytes(hqk, hv) + 4
    ensures RowBytes(hqk, hv) % 4 == 0
  {
    Sixteenths(hqk);
    Sixteenths(hv);
    var n := PayloadBytes(hqk, hv);
    hide PayloadBytes;
    NextMultipleOf4(n);
  }

  lemma Sixteenths(n: nat)
    requires n % 16 == 0
    ensures n / 2 == n / 16 * 8
  {
    var q := n / 16;
    assert n == 16 * q;
  }

  lemma NextMultipleOf4(n: nat)
    ensures n <= (n + 3) / 4 * 4 < n + 4 && (n + 3) / 4 * 4 % 4 == 0
  {
  }

  // ----- one side (K or V) of a row

  /** amax of the 16 elements of group g. */
  function GroupMax(xs: seq<real>, g: nat, n: nat): (m: real)
    requires g * 16 + n <= |xs| && n <= 16
    ensures m >= 0.0
    ensures forall d :: g * 16 <= d < g * 16 + n ==> Abs(xs[d]) <= m
  {
    if n == 0 then 0.0
    else
      var m, a := GroupMax(xs, g, n - 1), Abs(xs[g * 16 + n - 1]);
      if a > m then a else m
  }

  /** It is the maximum: no element exceeds it and, when it is not 0, some element reaches it. */
  lemma {:induction false} GroupMaxIsMax(xs: seq<real>, g: nat, n: nat)
    requires g * 16 + n <= |xs| && n <= 16
    ensures forall d :: g * 16 <= d < g * 16 + n ==> Abs(xs[d]) <= GroupMax(xs, g, n)
    ensures GroupMax(xs, g, n) > 0.0 ==> exists d :: g * 16 <= d < g * 16 + n && Abs(xs[d]) == GroupMax(xs, g, n)
  {
    if n > 0 {
      GroupMaxIsMax(xs, g, n - 1);
      var last := g * 16 + n - 1;
      if Abs(xs[last]) > GroupMax(xs, g, n - 1) {
        assert Abs(xs[last]) == GroupMax(xs, g, n);
      } else if GroupMax(xs, g, n) > 0.0 {
        var d :| g * 16 <= d < g * 16 + n - 1 && Abs(xs[d]) == GroupMax(xs, g, n - 1);
        assert Abs(xs[d]) == GroupMax(xs, g, n);
      }
    }
  }

  function ScaleByte(enc: real -> byte, xs: seq<real>, g: nat): byte
    requires g * 16 + 16 <= |xs|
  {
    var t := GroupMax(xs, g, 16) / 6.0;
    enc(if t > 0.00000001 then t else 0.00000001)
  }

  /** Value of a scale byte; NaN bytes, which the writer never stores, read as 0 here. */
  function ScaleOf(b: byte): real
  {
    if b as int % 128 == 127 then 0.0 else E4m3Value(b)
  }

  function CodeOf(enc: real -> byte, xs: seq<real>, d: nat): (code: nat)
    requires |xs| % 16 == 0 && d < |xs|
    ensures code < 16
  {
    EncodeScaled(xs[d], ScaleOf(ScaleByte(enc, xs, d / 16)))
  }

  /** Byte i of the codes: element 2 i in its low half, 2 i + 1 in its high half. */
  function DataByte(enc: real -> byte, xs: seq<real>, i: nat): byte
    requires |xs| % 16 == 0 && 2 * i + 1 < |xs|
  {
    (CodeOf(enc, xs, 2 * i) + CodeOf(enc, xs, 2 * i + 1) * 16) as byte
  }

  /** What a reader should see of element d. */
  function Quantized(enc: real -> byte, xs: seq<real>, d: nat): real
    requires |xs| % 16 == 0 && d < |xs|
  {
    Scaled(E2m1Value(CodeOf(enc, xs, d)), ScaleOf(ScaleByte(enc, xs, d / 16)))
  }

  /** s holds side xs with nibbles from `data` on and scales from `scales` on. */
  ghost predicate SideHolds(enc: real -> byte, s: seq<byte>, data: nat, scales: nat, xs: seq<real>)
  {
    && |xs| % 16 == 0 && data + |xs| / 2 <= |s| && scales + |xs| / 16 <= |s|
    && (forall j :: data <= j < data + |xs| / 2 ==> s[j] == DataByte(enc, xs, j - data))
    && (forall j :: scales <= j < scales + |xs| / 16 ==> s[j] == ScaleByte(enc, xs, j - scales))
  }

  // ----- readers

  /** (b >> 4 (d & 1)) & 15. */
  function Nibble(b: byte, d: nat): (code: nat)
    ensures code < 16
  {
    (if d % 2 == 1 then b as int / 16 else b as int) % 16
  }

  /** The kernels: byte d / 2, nibble d % 2, scale d / 16, and the value built from bits. */
  function KernelRead(s: seq<byte>, data: nat, scales: nat, d: nat): real
    requires data + d / 2 < |s| && scales + d / 16 < |s|
  {
    var nib := Nibble(s[data + d / 2], d);
    BitsAreTable(nib);
    Scaled(HalfValue(E2m1Bits(nib)), ScaleOf(s[scales + d / 16]))
  }

  /** The torch reference: low and high nibbles looked up in the table, times the scale of their group of 16. */
  function TorchAt(data: seq<byte>, scales: seq<byte>, d: nat): real
    requires d / 2 < |data| && d / 16 < |scales|
  {
    var code := if d % 2 == 0 then data[d / 2] as int % 16 else data[d / 2] as int / 16;
    Scaled(E2m1Value(code), ScaleOf(scales[d / 16]))
  }

  lemma Nibbles(lo: nat, hi: nat)
    requires lo < 16 && hi < 16
    ensures lo + hi * 16 < 256
    ensures (lo + hi * 16) % 16 == lo && (lo + hi * 16) / 16 == hi
  {
  }

  lemma NibbleOf(enc: real -> byte, xs: seq<real>, d: nat)
    requires |xs| % 16 == 0 && d < |xs|
    ensures 2 * (d / 2) + 1 < |xs|
    ensures Nibble(DataByte(enc, xs, d / 2), d) == CodeOf(enc, xs, d)
    ensures d % 2 == 0 ==> DataByte(enc, xs, d / 2) as int % 16 == CodeOf(enc, xs, d)
    ensures d % 2 == 1 ==> DataByte(enc, xs, d / 2) as int / 16 == CodeOf(enc, xs, d)
  {
    hide CodeOf;
    var i := d / 2;
    Nibbles(CodeOf(enc, xs, 2 * i), CodeOf(enc, xs, 2 * i + 1));
    assert d % 2 == 0 ==> d == 2 * i;
    assert d % 2 == 1 ==> d == 2 * i + 1;
  }

  lemma SideBytes(enc: real -> byte, s: seq<byte>, data: nat, scales: nat, xs: seq<real>, d: nat)
    requires SideHolds(enc, s, data, scales, xs) && d < |xs|
    ensures d / 2 < |xs| / 2 && d / 16 < |xs| / 16
    ensures s[data + d / 2] == DataByte(enc, xs, d / 2) && s[scales + d / 16] == ScaleByte(enc, xs, d / 16)
  {
    Halves(d, |xs|);
    hide DataByte, ScaleByte;
  }

  lemma Halves(d: nat, n: nat)
    requires n % 16 == 0 && d < n
    ensures d / 2 < n / 2 && d / 16 < n / 16
  {
    Sixteenths(n);
  }

  lemma KernelAgrees(enc: real -> byte, s: seq<byte>, data: nat, scales: nat, xs: seq<real>, d: nat)
    requires SideHolds(enc, s, data, scales, xs) && d < |xs|
    ensures data + d / 2 < |s| && scales + d / 16 < |s|
    ensures KernelRead(s, data, scales, d) == Quantized(enc, xs, d)
  {
    SideBytes(enc, s, data, scales, xs, d);
    NibbleOf(enc, xs, d);
    BitsAreTable(CodeOf(enc, xs, d));
    hide CodeOf, DataByte, ScaleByte, SideHolds, Scaled, Nibble, HalfValue, E2m1Value, E2m1Bits, ScaleOf;
  }

  lemma TorchAgrees(enc: real -> byte, s: seq<byte>, data: nat, scales: nat, xs: seq<real>, d: nat)
    requires SideHolds(enc, s, data, scales, xs) && d < |xs|
    ensures d / 2 < |xs| / 2 && d / 16 < |xs| / 16
    ensures TorchAt(s[data..data + |xs| / 2], s[scales..scales + |xs| / 16], d) == Quantized(enc, xs, d)
  {
    SideBytes(enc, s, data, scales, xs, d);
    NibbleOf(enc, xs, d);
    hide CodeOf, DataByte, ScaleByte, SideHolds, Scaled, E2m1Value, ScaleOf;
    assert s[data..data + |xs| / 2][d / 2] == s[data + d / 2];
    assert s[scales..scales + |xs| / 16][d / 16] == s[scales + d / 16];
  }
}
