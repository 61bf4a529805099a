/** How far a decoded element can be from what was written. */
module Nvfp4Error {
  import opened RealMath
  import opened Nvfp4

  // ----- products by a positive scale

  lemma Order(a: real, b: real, s: real)
    requires s > 0.0
    ensures a < b <==> Scaled(a, s) < Scaled(b, s)
  {
  }

  lemma Spread(y: real, q: real, gap: real, s: real)
    requires Abs(y - q) <= gap && s > 0.0
    ensures Abs(Scaled(y, s) - Scaled(q, s)) <= gap * s
  {
  }

  lemma Quotient(x: real, s: real)
    requires s > 0.0
    ensures Scaled(x / s, s) == x
  {
  }

  // ----- e2m1

  /** Up to 6 in magnitude the code is off by at most 1, half the widest gap; beyond, by the excess over 6. */
  lemma EncodeError(y: real)
    ensures Abs(y - E2m1Value(Encode(y))) <= MaxReal(1.0, Abs(y) - 6.0)
  {
  }

  lemma ScaleMax(a: real, b: real, s: real)
    requires s > 0.0
    ensures Scaled(MaxReal(a, b), s) == MaxReal(Scaled(a, s), Scaled(b, s))
  {
    Order(a, b, s);
  }

  lemma ScaleAbs(y: real, s: real)
    requires s > 0.0
    ensures Abs(Scaled(y, s)) == Scaled(Abs(y), s)
  {
  }

  lemma Minus(a: real, b: real, s: real)
    ensures Scaled(a - b, s) == Scaled(a, s) - Scaled(b, s)
  {
  }

  lemma ScaledUp(a: real, b: real, s: real)
    requires a <= b && s >= 0.0
    ensures Scaled(a, s) <= Scaled(b, s)
  {
  }

  /** An element is off by at most the scale, or by what six scales leave of the group's maximum. */
  lemma ElementError(x: real, s: real, amax: real)
    requires Abs(x) <= amax && s >= 0.0
    ensures Abs(x - Scaled(E2m1Value(EncodeScaled(x, s)), s)) <= MaxReal(s, amax - 6.0 * s)
  {
    hide Scaled, E2m1Value, Encode;
    if s > 0.0 {
      var y := x / s;
      var q := E2m1Value(Encode(y));
      Quotient(x, s);
      EncodeError(y);
      Minus(y, q, s);
      ScaleAbs(y - q, s);
      ScaledUp(Abs(y - q), MaxReal(1.0, Abs(y) - 6.0), s);
      ScaleMax(1.0, Abs(y) - 6.0, s);
      ScaleAbs(y, s);
      Minus(Abs(y), 6.0, s);
      Products(s);
    } else {
      Products(E2m1Value(EncodeScaled(x, s)));
    }
  }

  lemma Products(s: real)
    ensures Scaled(1.0, s) == s && Scaled(6.0, s) == 6.0 * s && Scaled(s, 0.0) == 0.0
  {
  }

  // ----- e4m3

  lemma Pow2Grows(i: nat, j: nat)
    requires i <= j
    ensures 0.0 < Pow2(i) <= Pow2(j)
  {
  }

  /** The normal byte with exponent field e and fraction f, and its value. */
  lemma NormalByte(e: nat, f: nat)
    requires 1 <= e <= 15 && f < 8 && !(e == 15 && f == 7)
    ensures 8 * e + f < 127
    ensures E4m3Value((8 * e + f) as byte) == Scaled(1.0 + f as real / 8.0, Pow2(e + 17))
  {
    var b := 8 * e + f;
    assert b / 8 == e && b % 8 == f;
    hide Scaled, Pow2;
  }

  lemma EvenByte(e: nat)
    requires 1 <= e < 15
    ensures E4m3Value((8 * e + 8) as byte) == Scaled(2.0, Pow2(e + 17))
  {
    NormalByte(e + 1, 0);
    assert 1.0 + 0 as real / 8.0 == 1.0;
    assert Pow2(e + 18) == 2.0 * Pow2(e + 17);
  }

  lemma NearestEighth(u: real) returns (f: nat)
    requires 1.0 <= u < 2.0
    ensures f <= 8 && Abs(1.0 + f as real / 8.0 - u) <= 1.0 / 16.0 && (u <= 1.75 ==> f <= 6)
  {
    f := ((u - 1.0) * 8.0 + 0.5).Floor;
  }

  /** Inside a binade some byte is within half a step, 1/16 of the binade's lower end. */
  lemma NearInBinade(u: real, e: nat) returns (b: byte)
    requires 1 <= e <= 15 && 1.0 <= u < 2.0 && (e == 15 ==> u <= 1.75)
    ensures b < 127 && Abs(E4m3Value(b) - Scaled(u, Pow2(e + 17))) <= Pow2(e + 17) / 16.0
  {
    hide *;
    Pow2Grows(0, e + 17);
    var f := NearestEighth(u);
    b := ByteAt(e, f);
    var v := 1.0 + f as real / 8.0;
    CloserScaled(v, u, Pow2(e + 17));
  }

  lemma CloserScaled(v: real, u: real, p: real)
    requires Abs(v - u) <= 1.0 / 16.0 && p > 0.0
    ensures Abs(Scaled(v, p) - Scaled(u, p)) <= p / 16.0
  {
    Spread(v, u, 1.0 / 16.0, p);
  }

  /** The byte of the f-th eighth above the binade's lower end. */
  lemma ByteAt(e: nat, f: nat) returns (b: byte)
    requires 1 <= e <= 15 && f <= 8 && (e == 15 ==> f <= 6)
    ensures b < 127 && E4m3Value(b) == Scaled(1.0 + f as real / 8.0, Pow2(e + 17))
  {
    hide Scaled, Pow2, E4m3Value;
    b := (8 * e + f) as byte;
    if f < 8 {
      NormalByte(e, f);
    } else {
      EvenByte(e);
    }
  }

  lemma TopBinade(u: real)
    requires Scaled(u, Pow2(32)) <= 448.0
    ensures u <= 1.75
  {
    Pow2Values();
    assert Pow2(29) == 32.0;
    assert Pow2(32) == 256.0;
    Order(1.75, u, 256.0);
  }

  lemma FindBinade(t: real, e: nat) returns (e': nat)
    requires 1 <= e <= 15 && Pow2(e + 17) <= t <= 448.0
    ensures 1 <= e' <= 15 && Pow2(e' + 17) <= t < 2.0 * Pow2(e' + 17)
    decreases 15 - e
  {
    if t < 2.0 * Pow2(e + 17) {
      e' := e;
    } else if e < 15 {
      e' := FindBinade(t, e + 1);
    } else {
      TopBinade(2.0);
    }
  }

  /** Rounding a value in the normal range of e4m3 to nearest moves it by at most a sixteenth. */
  lemma ScaleWithinSixteenth(enc: real -> byte, t: real)
    requires RoundsToNearest(enc) && 1.0 / 64.0 <= t <= 448.0
    ensures enc(t) < 127 && Abs(E4m3Value(enc(t)) - t) <= t / 16.0
  {
    Pow2Values();
    var e := FindBinade(t, 1);
    var p := Pow2(e + 17);
    Pow2Grows(0, e + 17);
    Quotient(t, p);
    Order(t / p, 1.0, p);
    Order(t / p, 2.0, p);
    if e == 15 {
      TopBinade(t / p);
    }
    var b := NearInBinade(t / p, e);
    hide Scaled, Pow2, E4m3Value;
  }

  /** Below the normal range the bytes are the multiples of 1/512, so rounding moves a value by at most 1/1024. */
  lemma ScaleWithinStep(enc: real -> byte, t: real)
    requires RoundsToNearest(enc) && 0.0 <= t < 1.0 / 64.0
    ensures enc(t) < 127 && Abs(E4m3Value(enc(t)) - t) <= 1.0 / 1024.0
  {
    Pow2Values();
    var f := (t * 512.0 + 0.5).Floor;
    var b := f as byte;
    SmallValue(f);
    hide E4m3Value, Pow2;
    assert Abs(E4m3Value(b) - t) <= 1.0 / 1024.0;
  }

  lemma SmallValue(f: nat)
    requires f <= 8
    ensures E4m3Value(f as byte) == f as real / 512.0
  {
    Pow2Values();
    if f == 8 {
      NormalByte(1, 0);
    }
  }

  lemma TopValue(b: byte)
    requires b < 127
    ensures E4m3Value(b) <= 448.0 && E4m3Value(126) == 448.0
  {
    Pow2Values();
    assert Pow2(29) == 32.0;
    assert Pow2(32) == 256.0;
    NormalByte(15, 6);
    var e, f := b as int / 8 % 16, b as int % 8;
    Pow2Grows(e + 17, 32);
    hide Pow2;
    if e == 0 {
    } else if e == 15 {
      ScaledUp(1.0 + f as real / 8.0, 1.75, 256.0);
    } else {
      Pow2Grows(e + 17, 31);
      assert Pow2(31) == 128.0 by {
        HalfOf(31);
      }
      ScaledUp(1.0 + f as real / 8.0, 2.0, Pow2(e + 17));
    }
  }

  lemma HalfOf(e: nat)
    ensures Pow2(e + 1) == 2.0 * Pow2(e)
  {
  }

  /** From the largest value on, the scale saturates. */
  lemma ScaleSaturates(enc: real -> byte, t: real)
    requires RoundsToNearest(enc) && t >= 448.0
    ensures enc(t) < 127 && E4m3Value(enc(t)) == 448.0
  {
    TopValue(enc(t));
    hide Pow2;
    assert Abs(E4m3Value(enc(t)) - t) <= Abs(E4m3Value(126) - t);
  }

  // ----- a whole group

  predicate InGroup(xs: seq<real>, g: nat, d: nat) { |xs| % 16 == 0 && g * 16 <= d < g * 16 + 16 <= |xs| }

  lemma WithinMax(xs: seq<real>, g: nat, d: nat)
    requires InGroup(xs, g, d)
    ensures Abs(xs[d]) <= GroupMax(xs, g, 16)
  {
    hide GroupMax;
  }

  /** What the writer divides by: the group's scale after rounding. */
  function StoredScale(enc: real -> byte, xs: seq<real>, g: nat): real
    requires g * 16 + 16 <= |xs|
  {
    ScaleOf(ScaleByte(enc, xs, g))
  }

  /** What it asks the conversion to round. */
  function WantedScale(xs: seq<real>, g: nat): real
    requires g * 16 + 16 <= |xs|
  {
    MaxReal(GroupMax(xs, g, 16) / 6.0, 0.00000001)
  }

  lemma StoredIsRounded(enc: real -> byte, xs: seq<real>, g: nat)
    requires RoundsToNearest(enc) && g * 16 + 16 <= |xs|
    ensures WantedScale(xs, g) > 0.0 && enc(WantedScale(xs, g)) < 127
    ensures StoredScale(enc, xs, g) == E4m3Value(enc(WantedScale(xs, g))) >= 0.0
  {
    ScaleNotNegative(enc, WantedScale(xs, g));
    hide RoundsToNearest, E4m3Value, GroupMax;
  }

  lemma QuantizedIs(enc: real -> byte, xs: seq<real>, g: nat, d: nat)
    requires InGroup(xs, g, d)
    ensures var s := StoredScale(enc, xs, g); Quantized(enc, xs, d) == Scaled(E2m1Value(EncodeScaled(xs[d], s)), s)
  {
    hide Scaled, E2m1Value, EncodeScaled, ScaleOf, ScaleByte;
    assert d / 16 == g;
  }

  lemma ScaleNotNegative(enc: real -> byte, t: real)
    requires RoundsToNearest(enc) && t >= 0.0
    ensures enc(t) < 127 && E4m3Value(enc(t)) >= 0.0
  {
    var b := enc(t);
    Pow2Grows(0, 0);
    Pow2Grows(0, 15);
    Pow2Grows(0, b as int / 8 % 16 + 17);
  }

  /** Every element of every group is off by at most the stored scale, or by what six of it leave of the maximum. */
  lemma GroupError(enc: real -> byte, xs: seq<real>, g: nat, d: nat)
    requires RoundsToNearest(enc) && InGroup(xs, g, d)
    ensures StoredScale(enc, xs, g) >= 0.0
    ensures Abs(xs[d] - Quantized(enc, xs, d))
            <= MaxReal(StoredScale(enc, xs, g), GroupMax(xs, g, 16) - 6.0 * StoredScale(enc, xs, g))
  {
    hide Quantized, StoredScale, WantedScale, GroupMax, RoundsToNearest, Scaled, E2m1Value, EncodeScaled;
    StoredIsRounded(enc, xs, g);
    QuantizedIs(enc, xs, g, d);
    WithinMax(xs, g, d);
    ElementError(xs[d], StoredScale(enc, xs, g), GroupMax(xs, g, 16));
  }

  /** With the stored scale within a sixteenth of amax / 6, that is 17/96 of amax. */
  lemma CloseScaleError(enc: real -> byte, xs: seq<real>, g: nat, d: nat)
    requires RoundsToNearest(enc) && InGroup(xs, g, d)
    requires Abs(StoredScale(enc, xs, g) - GroupMax(xs, g, 16) / 6.0) <= GroupMax(xs, g, 16) / 96.0
    ensures Abs(xs[d] - Quantized(enc, xs, d)) <= 17.0 / 96.0 * GroupMax(xs, g, 16)
  {
    hide Quantized, StoredScale, GroupMax, RoundsToNearest;
    GroupError(enc, xs, g, d);
  }

  /** amax / 6 in the normal range of e4m3: every element comes back within 17/96 of amax. */
  lemma NormalError(enc: real -> byte, xs: seq<real>, g: nat, d: nat)
    requires RoundsToNearest(enc) && InGroup(xs, g, d)
    requires 6.0 / 64.0 <= GroupMax(xs, g, 16) <= 6.0 * 448.0
    ensures Abs(xs[d] - Quantized(enc, xs, d)) <= 17.0 / 96.0 * GroupMax(xs, g, 16)
  {
    ScaleWithinSixteenth(enc, WantedScale(xs, g));
    hide Quantized, StoredScale, GroupMax, RoundsToNearest, E4m3Value;
    StoredIsRounded(enc, xs, g);
    CloseScaleError(enc, xs, g, d);
  }

  /** amax / 6 below the normal range: a sixth of amax and 1/1024, or 6/1024 (1e-8 is the writer's floor). */
  lemma SmallError(enc: real -> byte, xs: seq<real>, g: nat, d: nat)
    requires RoundsToNearest(enc) && InGroup(xs, g, d)
    requires GroupMax(xs, g, 16) < 6.0 / 64.0
    ensures Abs(xs[d] - Quantized(enc, xs, d))
            <= MaxReal(GroupMax(xs, g, 16) / 6.0 + 1.0 / 1024.0 + 0.00000001, 6.0 / 1024.0)
  {
    ScaleWithinStep(enc, WantedScale(xs, g));
    hide Quantized, StoredScale, GroupMax, RoundsToNearest, E4m3Value;
    StoredIsRounded(enc, xs, g);
    GroupError(enc, xs, g, d);
  }

  /** amax / 6 past the largest e4m3 value: the scale is 448 and magnitudes past 6 * 448 are cut there. */
  lemma LargeError(enc: real -> byte, xs: seq<real>, g: nat, d: nat)
    requires RoundsToNearest(enc) && InGroup(xs, g, d)
    requires GroupMax(xs, g, 16) >= 6.0 * 448.0
    ensures Abs(xs[d] - Quantized(enc, xs, d)) <= MaxReal(448.0, GroupMax(xs, g, 16) - 6.0 * 448.0)
  {
    ScaleSaturates(enc, WantedScale(xs, g));
    hide Quantized, StoredScale, GroupMax, RoundsToNearest, E4m3Value;
    StoredIsRounded(enc, xs, g);
    GroupError(enc, xs, g, d);
  }

  // ----- groups too small for the scale

  lemma SmallByte(b: byte)
    requires b < 127 && E4m3Value(b) < 1.0 / 512.0
    ensures E4m3Value(b) == 0.0
  {
    Pow2Values();
    var e, f := b as int / 8 % 16, b as int % 8;
    if e > 0 {
      Pow2Grows(18, e + 17);
      Spread(1.0 + f as real / 8.0, 1.0, 1.0, Pow2(e + 17));
      Order(1.0 + f as real / 8.0, 1.0, Pow2(e + 17));
    }
  }

  /** Up to half the smallest positive e4m3 value the scale rounds to 0; above it the
      scale is positive and at most double. */
  lemma SmallScale(enc: real -> byte, t: real)
    requires RoundsToNearest(enc) && t >= 0.0
    ensures enc(t) < 127
    ensures t <= 1.0 / 1024.0 ==> E4m3Value(enc(t)) == 0.0
    ensures t > 1.0 / 1024.0 ==> 0.0 < E4m3Value(enc(t)) <= 2.0 * t
  {
    SmallValue(0);
    SmallValue(1);
    hide Pow2, E4m3Value;
    assert Abs(E4m3Value(enc(t)) - t) <= Abs(E4m3Value(0) - t);
    assert Abs(E4m3Value(enc(t)) - t) <= Abs(E4m3Value(1) - t);
    if t < 1.0 / 1024.0 {
      SmallByte(enc(t));
    } else if t == 1.0 / 1024.0 && E4m3Value(enc(t)) != 0.0 {
      TieByte(enc(t));
    }
  }

  /** 1/512 has one byte. */
  lemma TieByte(b: byte)
    requires b < 127 && 0.0 < E4m3Value(b) <= 1.0 / 512.0
    ensures b == 1
  {
    Pow2Values();
    var e, f := b as int / 8 % 16, b as int % 8;
    if e > 0 {
      Pow2Grows(18, e + 17);
      ScaledUp(1.0, 1.0 + f as real / 8.0, Pow2(e + 17));
      Products(Pow2(e + 17));
    }
  }

  lemma SurvivesScale(x: real, s: real)
    requires s > 0.0 && Abs(x) >= 3.0 * s
    ensures Scaled(E2m1Value(EncodeScaled(x, s)), s) != 0.0
  {
    Quotient(x, s);
    Order(x / s, 3.0, s);
    Order(-3.0, x / s, s);
    var q := E2m1Value(Encode(x / s));
    assert Abs(q) >= 3.0;
    Order(q, 0.0, s);
    Order(0.0, q, s);
  }

  /** A group is read back as all zeros exactly when amax / 6 is at most half the smallest positive e4m3 value. */
  lemma GroupFlushedIff(enc: real -> byte, xs: seq<real>, g: nat)
    requires RoundsToNearest(enc) && |xs| % 16 == 0 && g * 16 + 16 <= |xs|
    ensures (forall d: nat :: g * 16 <= d < g * 16 + 16 ==> Quantized(enc, xs, d) == 0.0) <==>
              GroupMax(xs, g, 16) <= 6.0 / 1024.0
  {
    var amax, s := GroupMax(xs, g, 16), StoredScale(enc, xs, g);
    hide E4m3Value, E2m1Value, EncodeScaled, RoundsToNearest, GroupMax, Quantized, StoredScale, Scaled;
    SmallScale(enc, WantedScale(xs, g));
    StoredIsRounded(enc, xs, g);
    if amax <= 6.0 / 1024.0 {
      forall d: nat | g * 16 <= d < g * 16 + 16
        ensures Quantized(enc, xs, d) == 0.0
      {
        QuantizedIs(enc, xs, g, d);
        Products(E2m1Value(EncodeScaled(xs[d], s)));
      }
    } else {
      GroupMaxIsMax(xs, g, 16);
      var d :| g * 16 <= d < g * 16 + 16 && Abs(xs[d]) == amax;
      QuantizedIs(enc, xs, g, d);
      SurvivesScale(xs[d], s);
    }
  }
}
