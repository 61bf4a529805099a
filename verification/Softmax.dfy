/** Softmax attention over one row of masked scores: the dense sums, and the online (running maximum) form. */
module Softmax {

  function Plus(x: real, y: real): real { x + y }

  /** Multiplication under a name: proofs about sums hide it and treat products as atoms. */
  function Times(x: real, y: real): real { x * y }

  /** What the kernels need of exp: sums become products, and it is positive and at most one below zero. */
  ghost predicate IsExponential(e: real -> real)
  {
    && (forall x {:trigger e(x)} :: e(x) > 0.0)
    && (forall x {:trigger e(x)} :: x <= 0.0 ==> e(x) <= 1.0)
    && (forall x, y {:trigger Plus(x, y)} :: e(Plus(x, y)) == e(x) * e(y))
  }

  /** Any exponential; both the natural one and the base-2 one qualify. */
  type Exponential = e: real -> real | IsExponential(e) ghost witness (x: real) => 1.0

  /** A score after masking: minus infinity or a number. */
  datatype Logit = NegInf | Fin(x: real)

  predicate AtMost(s: Logit, t: Logit)
  {
    s.NegInf? || (t.Fin? && s.x <= t.x)
  }

  function MaxLogit(s: Logit, t: Logit): (r: Logit)
    ensures AtMost(s, r) && AtMost(t, r) && (r == s || r == t)
  {
    if AtMost(s, t) then t else s
  }

  /** exp(s), with exp(-inf) = 0. */
  function Weight(e: Exponential, s: Logit): (w: real)
    ensures w >= 0.0
  {
    if s.NegInf? then 0.0 else e(s.x)
  }

  /** exp(s - m) for a finite reference m. */
  function ExpFrom(e: Exponential, s: Logit, m: real): (w: real)
    ensures w >= 0.0
  {
    if s.NegInf? then 0.0 else e(s.x - m)
  }

  lemma ExpFromShift(e: Exponential, s: Logit, m: real)
    ensures Times(ExpFrom(e, s, m), e(m)) == Weight(e, s)
    ensures AtMost(s, Fin(m)) ==> ExpFrom(e, s, m) <= 1.0
  {
    if s.Fin? {
      assert Plus(s.x - m, m) == s.x;
    }
  }

  // ----- dense sums: a row is a score per key position and a value per (position, output column)

  type Scores = int -> Logit
  type Values = (int, int) -> real

  /** Total softmax weight of the positions in [a, b). */
  function Mass(e: Exponential, s: Scores, a: int, b: int): (r: real)
    ensures r >= 0.0
    decreases b - a
  {
    if a >= b then 0.0 else Mass(e, s, a, b - 1) + Weight(e, s(b - 1))
  }

  /** Weighted sum of output column d over the positions in [a, b). */
  function Moment(e: Exponential, s: Scores, v: Values, d: int, a: int, b: int): real
    decreases b - a
  {
    if a >= b then 0.0 else Moment(e, s, v, d, a, b - 1) + Times(Weight(e, s(b - 1)), v(b - 1, d))
  }

  lemma {:induction false} MassSplit(e: Exponential, s: Scores, a: int, b: int, c: int)
    requires a <= b <= c
    ensures Mass(e, s, a, c) == Mass(e, s, a, b) + Mass(e, s, b, c)
    decreases c - b
  {
    if b < c {
      MassSplit(e, s, a, b, c - 1);
    }
  }

  lemma {:induction false} MomentSplit(e: Exponential, s: Scores, v: Values, d: int, a: int, b: int, c: int)
    requires a <= b <= c
    ensures Moment(e, s, v, d, a, c) == Moment(e, s, v, d, a, b) + Moment(e, s, v, d, b, c)
    decreases c - b
  {
    if b < c {
      MomentSplit(e, s, v, d, a, b, c - 1);
    }
  }

  /** Masked positions add nothing. */
  lemma {:induction false} MaskedRange(e: Exponential, s: Scores, v: Values, d: int, a: int, b: int)
    requires forall j :: a <= j < b ==> s(j).NegInf?
    ensures Mass(e, s, a, b) == 0.0 && Moment(e, s, v, d, a, b) == 0.0
    decreases b - a
  {
    if a < b {
      MaskedRange(e, s, v, d, a, b - 1);
    }
  }

  /** A part [lo, hi) that holds every unmasked position of [a, b) carries all of its weight. */
  lemma NarrowRange(e: Exponential, s: Scores, v: Values, d: int, a: int, lo: int, hi: int, b: int)
    requires a <= lo <= hi <= b
    requires forall j :: a <= j < b && s(j).Fin? ==> lo <= j < hi
    ensures Mass(e, s, a, b) == Mass(e, s, lo, hi)
    ensures Moment(e, s, v, d, a, b) == Moment(e, s, v, d, lo, hi)
  {
    MassSplit(e, s, a, lo, b);
    MassSplit(e, s, lo, hi, b);
    MomentSplit(e, s, v, d, a, lo, b);
    MomentSplit(e, s, v, d, lo, hi, b);
    MaskedRange(e, s, v, d, a, lo);
    MaskedRange(e, s, v, d, hi, b);
  }

  /** Two ranges that both hold every unmasked position carry the same weight. */
  lemma SameWeight(e: Exponential, s: Scores, v: Values, d: int, a: int, b: int, a': int, b': int)
    requires a <= b && a' <= b'
    requires forall j {:trigger s(j)} :: s(j).Fin? ==> a <= j < b && a' <= j < b'
    ensures Mass(e, s, a, b) == Mass(e, s, a', b')
    ensures Moment(e, s, v, d, a, b) == Moment(e, s, v, d, a', b')
  {
    var lo, hi := if a <= a' then a else a', if b <= b' then b' else b;
    NarrowRange(e, s, v, d, lo, a, b, hi);
    NarrowRange(e, s, v, d, lo, a', b', hi);
  }

  /** One unmasked position makes the mass positive. */
  lemma {:induction false} MassPositive(e: Exponential, s: Scores, a: int, b: int, k: int)
    requires a <= k < b && s(k).Fin?
    ensures Mass(e, s, a, b) > 0.0
    decreases b - a
  {
    if k < b - 1 {
      MassPositive(e, s, a, b - 1, k);
    }
  }

  /** Output column d of the dense softmax over positions [0, n) and an optional sink (NegInf: no sink). */
  function Dense(e: Exponential, s: Scores, v: Values, sink: Logit, n: nat, d: int): real
    requires Mass(e, s, 0, n) > 0.0
  {
    Moment(e, s, v, d, 0, n) / (Mass(e, s, 0, n) + Weight(e, sink))
  }

  /** Positions with equal scores, and equal values wherever the score is finite, give equal sums. */
  lemma {:induction false} SumsAgree(e: Exponential, s: Scores, v: Values, s': Scores, v': Values, d: int, a: int,
                                     b: int)
    requires forall j :: a <= j < b ==> s(j) == s'(j) && (s(j).Fin? ==> v(j, d) == v'(j, d))
    ensures Mass(e, s, a, b) == Mass(e, s', a, b) && Moment(e, s, v, d, a, b) == Moment(e, s', v', d, a, b)
    decreases b - a
  {
    if a < b {
      SumsAgree(e, s, v, s', v', d, a, b - 1);
    }
  }

  // ----- online form: sums relative to a reference maximum

  function TileMax(s: Scores, lo: int, hi: int): Logit
    decreases hi - lo
  {
    if lo >= hi then NegInf else MaxLogit(TileMax(s, lo, hi - 1), s(hi - 1))
  }

  /** Row sum of P = exp(S - m) over one tile. */
  function TileMass(e: Exponential, s: Scores, m: real, lo: int, hi: int): (r: real)
    ensures r >= 0.0
    decreases hi - lo
  {
    if lo >= hi then 0.0 else TileMass(e, s, m, lo, hi - 1) + ExpFrom(e, s(hi - 1), m)
  }

  /** Column d of P V over one tile. */
  function TileProduct(e: Exponential, s: Scores, v: Values, m: real, d: int, lo: int, hi: int): real
    decreases hi - lo
  {
    if lo >= hi then 0.0 else TileProduct(e, s, v, m, d, lo, hi - 1) + Times(ExpFrom(e, s(hi - 1), m), v(hi - 1, d))
  }

  lemma {:induction false} TileMaxBounds(s: Scores, lo: int, hi: int)
    ensures forall j :: lo <= j < hi ==> AtMost(s(j), TileMax(s, lo, hi))
    ensures TileMax(s, lo, hi).Fin? ==> exists j :: lo <= j < hi && TileMax(s, lo, hi) == s(j)
    decreases hi - lo
  {
    if lo < hi {
      TileMaxBounds(s, lo, hi - 1);
    }
  }

  lemma {:induction false} TileMassShift(e: Exponential, s: Scores, m: real, lo: int, hi: int)
    ensures Times(TileMass(e, s, m, lo, hi), e(m)) == Mass(e, s, lo, hi)
    decreases hi - lo
  {
    hide Times;
    if lo < hi {
      TileMassShift(e, s, m, lo, hi - 1);
      ExpFromShift(e, s(hi - 1), m);
      TimesPlus(TileMass(e, s, m, lo, hi - 1), ExpFrom(e, s(hi - 1), m), e(m));
    } else {
      TimesZero(e(m));
    }
  }

  lemma TimesPlus(x: real, y: real, c: real)
    ensures Times(x + y, c) == Times(x, c) + Times(y, c)
  {
  }

  lemma TimesZero(c: real)
    ensures Times(0.0, c) == 0.0
  {
  }

  lemma TimesAssociates(x: real, y: real, z: real)
    ensures Times(Times(x, y), z) == Times(x, Times(y, z))
  {
    assert (x * y) * z == x * (y * z);
  }

  /** Descaling P V by vd is descaling V, whatever the masked lanes hold. */
  lemma {:induction false} TileProductShift(e: Exponential, s: Scores, v: Values, raw: Values, vd: real, m: real,
                                            d: int, lo: int, hi: int)
    requires forall j :: lo <= j < hi && s(j).Fin? ==> v(j, d) == Times(vd, raw(j, d))
    ensures Times(Times(TileProduct(e, s, raw, m, d, lo, hi), vd), e(m)) == Moment(e, s, v, d, lo, hi)
    decreases hi - lo
  {
    hide Times;
    if lo < hi {
      var w, r := ExpFrom(e, s(hi - 1), m), raw(hi - 1, d);
      var x := TileProduct(e, s, raw, m, d, lo, hi - 1);
      TileProductShift(e, s, v, raw, vd, m, d, lo, hi - 1);
      ExpFromShift(e, s(hi - 1), m);
      TimesPlus(x, Times(w, r), vd);
      TimesPlus(Times(x, vd), Times(Times(w, r), vd), e(m));
      RegroupTerm(w, r, vd, e(m));
      if s(hi - 1).NegInf? {
        TimesZero(Times(vd, r));
        TimesZero(v(hi - 1, d));
      }
    } else {
      TimesZero(vd);
      TimesZero(e(m));
    }
  }

  lemma RegroupTerm(w: real, r: real, vd: real, em: real)
    ensures Times(Times(Times(w, r), vd), em) == Times(Times(w, em), Times(vd, r))
  {
    assert ((w * r) * vd) * em == (w * em) * (vd * r);
  }

  /** What (M, L, acc) stand for: relative to M they are the initial mass plus the sums over [lo, hi). */
  ghost predicate Represents(e: Exponential, s: Scores, v: Values, init: Logit, lo: int, hi: int,
                             m: Logit, l: real, acc: seq<real>)
  {
    && l >= 0.0
    && Times(l, Weight(e, m)) == Weight(e, init) + Mass(e, s, lo, hi)
    && forall d :: 0 <= d < |acc| ==> Times(acc[d], Weight(e, m)) == Moment(e, s, v, d, lo, hi)
  }

  /** M bounds every score folded in, so no exponential exceeds one, and it is one of them (or the start, or 0). */
  ghost predicate TightMax(s: Scores, init: Logit, lo: int, hi: int, m: Logit)
  {
    && AtMost(init, m)
    && (forall j :: lo <= j < hi ==> AtMost(s(j), m))
    && (m == init || m == Fin(0.0) || exists j :: lo <= j < hi && m == s(j))
  }

  /** Rescaling a running sum to the reference next and adding a tile's share adds the tile's weight. */
  lemma Rescale(e: Exponential, m: Logit, next: real, x: real, t: real)
    ensures Times(Times(x, ExpFrom(e, m, next)) + t, e(next)) == Times(x, Weight(e, m)) + Times(t, e(next))
  {
    hide Times;
    ExpFromShift(e, m, next);
    TimesPlus(Times(x, ExpFrom(e, m, next)), t, e(next));
    TimesAssociates(x, ExpFrom(e, m, next), e(next));
  }

  lemma TimesNonNegative(x: real, y: real)
    requires x >= 0.0 && y >= 0.0
    ensures Times(x, y) >= 0.0
  {
  }

  /** Dividing by L undoes the reference: acc / L is the ratio of what they represent. */
  lemma Quotient(x: real, l: real, w: real, num: real, den: real)
    requires Times(x, w) == num && Times(l, w) == den && den > 0.0
    ensures l != 0.0 && x / l == num / den
  {
  }

}
