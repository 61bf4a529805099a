/** The CUDA chunked-prefill kernel: one warp's online softmax over the tiles it reads from the shared-memory ring. */
module PrefillKernel {
  import opened Softmax
  import opened IndexMath
  import opened UnifiedAttention
  import TileRing

  const DK: nat := 192
  const DV: nat := 128
  const KV_ROW: nat := 320
  const TOK: nat := 8
  const TK: nat := 64
  const LOG2E: real := 1.4426950408889634

  /** The paged cache of one KV head: pages of rows, a row being K then V. */
  datatype Cache = Cache(pages: seq<seq<seq<real>>>, table: seq<nat>, pageSize: nat)
  {
    predicate HoldsKey(j: nat)
      requires pageSize > 0
    {
      && j / pageSize < |table|
      && table[j / pageSize] < |pages|
      && j % pageSize < |pages[table[j / pageSize]]|
      && |pages[table[j / pageSize]][j % pageSize]| == KV_ROW
    }
  }

  /** One CTA's share of a sequence: the first of its eight query rows, counted from the sequence's first query row. */
  datatype Cta = Cta(q: seq<seq<real>>, cache: Cache, seqLen: nat, first: nat, scale: real, kDescale: real,
                     vDescale: real)
  {
    ghost predicate Valid() {
      && first < |q| <= seqLen
      && (forall i :: 0 <= i < |q| ==> |q[i]| == DK)
      && cache.pageSize > 0
      && forall j: nat :: j < seqLen ==> cache.HoldsKey(j)
    }

    function Ctx(): int { seqLen - |q| }

    /** Keys the CTA needs: up to the position of its last valid token. */
    function Keys(): int { Ctx() + Min(first + TOK - 1, |q| - 1) + 1 }

    function Tiles(): int { (Keys() + TK - 1) / TK }

    /** The cached row of key j. */
    function CachedRow(j: nat): (row: seq<real>)
      requires Valid() && j < seqLen
      ensures |row| == KV_ROW
    {
      assert cache.HoldsKey(j);
      cache.pages[cache.table[j / cache.pageSize]][j % cache.pageSize]
    }

    /** Element x of row r of tile t as the loader leaves it: keys at or past Keys() are zero rows. */
    function TileElement(t: nat, r: nat, x: nat): real
      requires Valid() && r < TK && x < KV_ROW
    {
      if t * TK + r < Keys() then CachedRow(t * TK + r)[x] else 0.0
    }

    /** One 16-element chunk of a tile, as one thread loads and stores it. */
    function Chunk(t: nat, c: nat): seq<real>
      requires Valid()
    {
      if c < TileRing.CHUNKS then seq(16, x requires 0 <= x < 16 => TileElement(t, c / 20, c % 20 * 16 + x)) else []
    }

    ghost function Source(): TileRing.Source<seq<real>>
      requires Valid()
    {
      (t: nat, c: nat) => Chunk(t, c)
    }

    /** The reference row of local query token tok: plain softmax attention of the checkpoint's scores. */
    function Row(tok: nat): Query
      requires Valid() && tok < |q|
    {
      Query(q[tok], seq(seqLen, j requires 0 <= j < seqLen => Key(CachedRow(j)[..DK], CachedRow(j)[DK..])), DV,
            scale, kDescale, vDescale, NoBias, NegInf, 0, |q|, tok)
    }
  }

  /** Element x of row r, read back from a tile's chunks. */
  function ReadBack(got: map<nat, seq<real>>, r: nat, x: nat): real
    requires r < TK && x < KV_ROW
  {
    var c := r * 20 + x / 16;
    if c in got && x % 16 < |got[c]| then got[c][x % 16] else 0.0
  }

  lemma ReadBackIsTile(a: Cta, t: nat, r: nat, x: nat)
    requires a.Valid() && r < TK && x < KV_ROW
    ensures var j, last := t * TK + r, if a.first + TOK <= |a.q| then a.first + TOK else |a.q|;
            if j < a.seqLen - |a.q| + last then
              j < a.seqLen && a.cache.HoldsKey(j)
              && ReadBack(TileRing.FullTile(a.Source(), t), r, x)
                 == a.cache.pages[a.cache.table[j / a.cache.pageSize]][j % a.cache.pageSize][x]
            else ReadBack(TileRing.FullTile(a.Source(), t), r, x) == 0.0
  {
    ReadBackElement(a, t, r, x);
    assert t * TK + r < a.Keys() ==> a.cache.HoldsKey(t * TK + r);
  }

  lemma ReadBackElement(a: Cta, t: nat, r: nat, x: nat)
    requires a.Valid() && r < TK && x < KV_ROW
    ensures ReadBack(TileRing.FullTile(a.Source(), t), r, x) == a.TileElement(t, r, x)
  {
  }

  /** The tiles hold the keys up to the last valid token's own, and none of them lies wholly past it. */
  lemma TilesAre(a: Cta)
    requires a.Valid()
    ensures var last := if a.first + 8 <= |a.q| then a.first + 7 else |a.q| - 1;
            (a.Tiles() - 1) * 64 <= a.seqLen - |a.q| + last < a.Tiles() * 64
  {
  }

  /** K of key j, read back from the tiles. */
  function ReadKey(tile: seq<map<nat, seq<real>>>, j: nat): (k: seq<real>)
    requires j / TK < |tile|
    ensures |k| == DK
  {
    seq(DK, x requires 0 <= x < DK => ReadBack(tile[j / TK], j % TK, x))
  }

  // ----- one warp

  /** exp2f(s - m) with -1e30 as the mask value: equal arguments give 1 even when both are masked. */
  function Exp2Diff(e: Exponential, s: Logit, m: Logit): real
    requires AtMost(s, m)
  {
    if m.NegInf? then 1.0 else ExpFrom(e, s, m.x)
  }

  /** Masked score of one key of the tile; masking is skipped when the whole tile is visible. */
  function WarpScore(a: Cta, tile: seq<map<nat, seq<real>>>, tok: nat, j: int): Logit
    requires a.Valid() && tok < |a.q|
  {
    var pos := a.Ctx() + tok;
    if j < 0 || j / TK >= |tile| then NegInf
    else
      var key0 := j / TK * TK;
      var needMask := key0 + TK - 1 > pos;
      if needMask && j > pos then NegInf
      else Fin(Times(Dot(a.q[tok], ReadKey(tile, j)), Times(Times(a.scale, a.kDescale), LOG2E)))
  }

  function WarpScores(a: Cta, tile: seq<map<nat, seq<real>>>, tok: nat): Scores
    requires a.Valid() && tok < |a.q|
  {
    j => WarpScore(a, tile, tok, j)
  }

  function WarpValues(tile: seq<map<nat, seq<real>>>): Values
  {
    (j, d) => if j < 0 || j / TK >= |tile| || !(0 <= d < DV) then 0.0 else ReadBack(tile[j / TK], j % TK, DK + d)
  }

  /** Row sum of P over a tile, the masked lanes included. */
  function WarpMass(e: Exponential, s: Scores, m: Logit, lo: int, hi: int): real
    requires forall j :: lo <= j < hi ==> AtMost(s(j), m)
    decreases hi - lo
  {
    if lo >= hi then 0.0 else WarpMass(e, s, m, lo, hi - 1) + Exp2Diff(e, s(hi - 1), m)
  }

  function WarpProduct(e: Exponential, s: Scores, v: Values, m: Logit, d: int, lo: int, hi: int): real
    requires forall j :: lo <= j < hi ==> AtMost(s(j), m)
    decreases hi - lo
  {
    if lo >= hi then 0.0 else WarpProduct(e, s, v, m, d, lo, hi - 1) + Times(Exp2Diff(e, s(hi - 1), m), v(hi - 1, d))
  }

  /** With a real maximum the finite mask value behaves as minus infinity. */
  lemma {:induction false} FiniteMaximum(e: Exponential, s: Scores, v: Values, m: Logit, d: int, lo: int, hi: int)
    requires m.Fin? && forall j :: lo <= j < hi ==> AtMost(s(j), m)
    ensures WarpMass(e, s, m, lo, hi) == TileMass(e, s, m.x, lo, hi)
    ensures WarpProduct(e, s, v, m, d, lo, hi) == TileProduct(e, s, v, m.x, d, lo, hi)
    decreases hi - lo
  {
    if lo < hi {
      FiniteMaximum(e, s, v, m, d, lo, hi - 1);
    }
  }

  /** Without one it does not: a fully masked first tile counts each of its keys with weight 1. */
  lemma {:induction false} MaskedFirstTileCounts(e: Exponential, s: Scores, lo: int, hi: int)
    requires lo <= hi && forall j :: lo <= j < hi ==> s(j).NegInf?
    ensures WarpMass(e, s, NegInf, lo, hi) == (hi - lo) as real
    decreases hi - lo
  {
    if lo < hi {
      MaskedFirstTileCounts(e, s, lo, hi - 1);
    }
  }

  // ----- base 2 against the natural exponential

  /** exp(x) = exp2(x * log2(e)). */
  function Natural(e: Exponential): Exponential
  {
    NaturalIsExponential(e);
    x => e(Times(LOG2E, x))
  }

  lemma NaturalIsExponential(e: Exponential)
    ensures IsExponential(x => e(Times(LOG2E, x)))
  {
    var f := (x: real) => e(Times(LOG2E, x));
    forall x, y
      ensures f(Plus(x, y)) == f(x) * f(y)
    {
      assert Times(LOG2E, Plus(x, y)) == Plus(Times(LOG2E, x), Times(LOG2E, y));
    }
    assert forall x {:trigger f(x)} :: f(x) > 0.0 && (x <= 0.0 ==> f(x) <= 1.0);
    assert IsExponential(f);
  }

  function InBase2(s: Logit): Logit
  {
    if s.NegInf? then s else Fin(Times(LOG2E, s.x))
  }

  /** The kernel's base-2 sums over raw values are the natural sums, once multiplied by the V descale. */
  lemma {:induction false} Rebase(e: Exponential, s: Scores, v: Values, ref: Scores, w: Values, vd: real, d: int,
                                  a: int, b: int)
    requires forall j :: a <= j < b ==> s(j) == InBase2(ref(j)) && (ref(j).Fin? ==> w(j, d) == Times(vd, v(j, d)))
    ensures Mass(e, s, a, b) == Mass(Natural(e), ref, a, b)
    ensures Times(Moment(e, s, v, d, a, b), vd) == Moment(Natural(e), ref, w, d, a, b)
    decreases b - a
  {
    if a < b {
      Rebase(e, s, v, ref, w, vd, d, a, b - 1);
      assert Weight(e, s(b - 1)) == Weight(Natural(e), ref(b - 1));
      hide Times, Natural, InBase2;
      TimesPlus(Moment(e, s, v, d, a, b - 1), Times(Weight(e, s(b - 1)), v(b - 1, d)), vd);
      TimesRotate(Weight(e, s(b - 1)), v(b - 1, d), vd);
      if ref(b - 1).NegInf? {
        TimesZero(Times(vd, v(b - 1, d)));
        TimesZero(w(b - 1, d));
      }
    } else {
      TimesZero(vd);
    }
  }

  lemma TimesRotate(x: real, y: real, z: real)
    ensures Times(Times(x, y), z) == Times(x, Times(z, y))
  {
    assert (x * y) * z == x * (z * y);
  }

  ghost predicate Complete(a: Cta, seen: seq<map<nat, seq<real>>>)
    requires a.Valid()
  {
    |seen| == a.Tiles() && forall t :: 0 <= t < |seen| ==> seen[t] == TileRing.FullTile(a.Source(), t)
  }

  /** What the warp reads of a visible key is the cached row. */
  lemma WarpKey(a: Cta, seen: seq<map<nat, seq<real>>>, tok: nat, j: nat)
    requires a.Valid() && Complete(a, seen) && a.first <= tok < a.first + TOK && tok < |a.q|
    requires j <= a.Ctx() + tok && j / TK < |seen|
    ensures j < a.seqLen
    ensures forall x: nat :: x < KV_ROW ==> ReadBack(seen[j / TK], j % TK, x) == a.CachedRow(j)[x]
  {
    assert j / TK * TK + j % TK == j;
    forall x: nat | x < KV_ROW
      ensures ReadBack(seen[j / TK], j % TK, x) == a.CachedRow(j)[x]
    {
      ReadBackElement(a, j / TK, j % TK, x);
    }
  }

  /** K as the warp reads it is K of the reference row. */
  lemma ReadKeyIsCached(a: Cta, seen: seq<map<nat, seq<real>>>, tok: nat, j: nat)
    requires a.Valid() && Complete(a, seen) && a.first <= tok < a.first + TOK && tok < |a.q|
    requires j <= a.Ctx() + tok && j / TK < |seen|
    ensures j < a.seqLen && ReadKey(seen, j) == a.Row(tok).keys[j].k
  {
    WarpKey(a, seen, tok, j);
    hide Complete, ReadBack, Cta.Valid;
    var k := a.CachedRow(j)[..DK];
    assert forall x :: 0 <= x < DK ==> ReadKey(seen, j)[x] == k[x];
    assert a.Row(tok).keys[j].k == k;
  }

  /** A valid token's score of each visible key is the reference logit in base 2. */
  lemma WarpScoreVisible(a: Cta, seen: seq<map<nat, seq<real>>>, tok: nat, j: nat)
    requires a.Valid() && Complete(a, seen) && a.first <= tok < a.first + TOK && tok < |a.q| && j < a.Tiles() * TK
    requires j <= a.Ctx() + tok
    ensures WarpScore(a, seen, tok, j) == InBase2(RefLogit(a.Row(tok), j))
  {
    var p := a.Row(tok);
    assert j / TK < |seen|;
    ReadKeyIsCached(a, seen, tok, j);
    hide Complete, ReadKey, Dot, Scale, Times;
    var k := p.keys[j].k;
    assert p.Visible(j);
    assert p.q == a.q[tok] && p.scale == a.scale && p.kDescale == a.kDescale;
    BaseChange(a.q[tok], k, a.scale, a.kDescale);
  }

  lemma BaseChange(q: seq<real>, k: seq<real>, scale: real, kd: real)
    requires |q| == |k|
    ensures Times(Dot(q, k), Times(Times(scale, kd), LOG2E)) == Times(LOG2E, Times(scale, Dot(q, Scale(kd, k))))
  {
    hide Dot, Scale;
    DotScale(kd, q, k);
    ScaleProduct(Dot(q, k), scale, kd);
  }

  lemma ScaleProduct(x: real, scale: real, kd: real)
    ensures Times(x, Times(Times(scale, kd), LOG2E)) == Times(LOG2E, Times(scale, Times(kd, x)))
  {
  }

  /** A valid token's score of each key is the reference logit in base 2, and its V lane the cached value. */
  lemma WarpLane(a: Cta, seen: seq<map<nat, seq<real>>>, tok: nat, j: nat)
    requires a.Valid() && Complete(a, seen) && a.first <= tok < a.first + TOK && tok < |a.q| && j < a.Tiles() * TK
    ensures WarpScores(a, seen, tok)(j) == InBase2(RefScores(a.Row(tok))(j))
    ensures RefScores(a.Row(tok))(j).Fin? ==>
              forall d :: 0 <= d < DV ==> RefValues(a.Row(tok))(j, d) == Times(a.vDescale, WarpValues(seen)(j, d))
  {
    assert j / TK < |seen| && j / TK * TK + j % TK == j;
    if j <= a.Ctx() + tok {
      WarpScoreVisible(a, seen, tok, j);
      WarpKey(a, seen, tok, j);
      hide Complete, ReadBack, WarpScore, InBase2;
    }
  }

  lemma TokenFacts(a: Cta, tok: nat)
    requires a.Valid() && a.first <= tok < a.first + TOK && tok < |a.q|
    ensures 0 <= a.Ctx() + tok < a.Keys() <= a.seqLen && a.Keys() <= a.Tiles() * TK && a.Tiles() > 0
    ensures a.Row(tok).Valid() && a.Row(tok).Position() == a.Ctx() + tok
  {
  }

  /** One tile for one warp: the running maximum, the rescale, and P V, on the kernel's own sums. */
  method WarpStep(e: Exponential, s: Scores, v: Values, lo: int, m: Logit, l: real, o: seq<real>)
    returns (m': Logit, l': real, o': seq<real>)
    requires 0 <= lo && Represents(e, s, v, NegInf, 0, lo, m, l, o)
    requires m.Fin? || (lo == 0 && s(0).Fin?)
    ensures m'.Fin? && |o'| == |o| && AtMost(m, m')
    ensures forall j :: lo <= j < lo + TK ==> AtMost(s(j), m')
    ensures Represents(e, s, v, NegInf, 0, lo + TK, m', l', o')
  {
    var hi := lo + TK;
    TileMaxBounds(s, lo, hi);
    m' := MaxLogit(m, TileMax(s, lo, hi));
    var mx := m';
    assert mx.Fin? by {
      if m.NegInf? {
        assert AtMost(s(0), TileMax(s, lo, hi));
      }
    }
    hide Times;
    var alpha := Exp2Diff(e, m, mx);
    FiniteMaximum(e, s, v, mx, 0, lo, hi);
    l' := Times(l, alpha) + WarpMass(e, s, mx, lo, hi);
    o' := seq(|o|, d requires 0 <= d < |o| => Times(o[d], alpha) + WarpProduct(e, s, v, mx, d, lo, hi));
    forall d | 0 <= d < |o|
      ensures o'[d] == Times(o[d], ExpFrom(e, m, mx.x)) + Times(TileProduct(e, s, v, mx.x, d, lo, hi), 1.0)
    {
      FiniteMaximum(e, s, v, mx, d, lo, hi);
      TimesOne(TileProduct(e, s, v, mx.x, d, lo, hi));
    }
    forall j, d | lo <= j < hi && s(j).Fin? && 0 <= d < |o|
      ensures v(j, d) == Times(1.0, v(j, d))
    {
      TimesOne(v(j, d));
    }
    StepSums(e, s, v, 1.0, lo, hi, m, l, o, s, v, NegInf, 0, mx.x, l', o');
  }

  lemma TimesOne(x: real)
    ensures Times(x, 1.0) == x && Times(1.0, x) == x
  {
  }

  lemma EmptyRepresents(e: Exponential, s: Scores, v: Values, n: nat)
    ensures Represents(e, s, v, NegInf, 0, 0, NegInf, 0.0, seq(n, _ => 0.0))
  {
    TimesZero(0.0);
  }

  /** Key 0 is visible to every token, so the first tile always has a real maximum. */
  lemma FirstKeyVisible(a: Cta, tok: nat, seen: seq<map<nat, seq<real>>>)
    requires a.Valid() && Complete(a, seen) && a.first <= tok < a.first + TOK && tok < |a.q|
    ensures WarpScores(a, seen, tok)(0).Fin?
  {
    TokenFacts(a, tok);
  }

  /** The tile loop and epilogue of one warp with a valid token, on the tiles it saw. */
  method WarpAttention(e: Exponential, a: Cta, tok: nat, seen: seq<map<nat, seq<real>>>) returns (out: seq<real>)
    requires a.Valid() && Complete(a, seen) && a.first <= tok < a.first + TOK && tok < |a.q|
    ensures |out| == DV
    ensures a.Row(tok).Valid() && forall d :: 0 <= d < DV ==> out[d] == Attention(Natural(e), a.Row(tok), d)
  {
    hide *;
    TokenFacts(a, tok);
    FirstKeyVisible(a, tok, seen);
    var s, v := WarpScores(a, seen, tok), WarpValues(seen);
    EmptyRepresents(e, s, v, DV);
    var m, l, o := NegInf, 0.0, seq(DV, _ => 0.0);
    var t := 0;
    while t < a.Tiles()
      invariant 0 <= t <= a.Tiles() && |o| == DV
      invariant t > 0 ==> m.Fin?
      invariant Represents(e, s, v, NegInf, 0, t * TK, m, l, o)
    {
      m, l, o := WarpStep(e, s, v, t * TK, m, l, o);
      t := t + 1;
    }
    out := Epilogue(e, a, tok, seen, m, l, o);
  }

  /** O / l, times the V descale. */
  method Epilogue(e: Exponential, a: Cta, tok: nat, seen: seq<map<nat, seq<real>>>, m: Logit, l: real, o: seq<real>)
    returns (out: seq<real>)
    requires a.Valid() && Complete(a, seen) && a.first <= tok < a.first + TOK && tok < |a.q| && |o| == DV
    requires Represents(e, WarpScores(a, seen, tok), WarpValues(seen), NegInf, 0, a.Tiles() * TK, m, l, o)
    ensures |out| == DV
    ensures a.Row(tok).Valid() && forall d :: 0 <= d < DV ==> out[d] == Attention(Natural(e), a.Row(tok), d)
  {
    TokenFacts(a, tok);
    hide *;
    forall d | 0 <= d < DV
      ensures l != 0.0 && Times(o[d], a.vDescale / l) == Attention(Natural(e), a.Row(tok), d)
    {
      WarpResult(e, a, tok, seen, d, m, l, o);
    }
    assert l != 0.0 by {
      WarpResult(e, a, tok, seen, 0, m, l, o);
    }
    var inv := a.vDescale / l;
    out := seq(DV, d requires 0 <= d < DV => Times(o[d], inv));
  }

  /** The kernel's sums over all tiles are the reference sums over all keys. */
  lemma WarpSums(e: Exponential, a: Cta, tok: nat, seen: seq<map<nat, seq<real>>>, d: nat)
    requires a.Valid() && Complete(a, seen) && a.first <= tok < a.first + TOK && tok < |a.q| && d < DV
    ensures a.Row(tok).Valid()
    ensures Mass(e, WarpScores(a, seen, tok), 0, a.Tiles() * TK)
            == Mass(Natural(e), RefScores(a.Row(tok)), 0, |a.Row(tok).keys|)
    ensures Times(Moment(e, WarpScores(a, seen, tok), WarpValues(seen), d, 0, a.Tiles() * TK), a.vDescale)
            == Moment(Natural(e), RefScores(a.Row(tok)), RefValues(a.Row(tok)), d, 0, |a.Row(tok).keys|)
  {
    TokenFacts(a, tok);
    var p, n := a.Row(tok), a.Tiles() * TK;
    var s, v, ref, w := WarpScores(a, seen, tok), WarpValues(seen), RefScores(p), RefValues(p);
    assert forall j {:trigger ref(j)} :: ref(j).Fin? ==> 0 <= j < n && 0 <= j < |p.keys|;
    assert n >= 0;
    hide Times, WarpScores, WarpValues, RefScores, RefValues, Natural, Cta.Row, Cta.Tiles, Cta.Valid, Complete,
         Query.Valid;
    forall j: nat | j < n
      ensures s(j) == InBase2(ref(j)) && (ref(j).Fin? ==> w(j, d) == Times(a.vDescale, v(j, d)))
    {
      WarpLane(a, seen, tok, j);
    }
    Rebase(e, s, v, ref, w, a.vDescale, d, 0, n);
    SameWeight(Natural(e), ref, w, d, 0, n, 0, |p.keys|);
  }

  lemma WarpResult(e: Exponential, a: Cta, tok: nat, seen: seq<map<nat, seq<real>>>, d: nat, m: Logit, l: real,
                   o: seq<real>)
    requires a.Valid() && Complete(a, seen) && a.first <= tok < a.first + TOK && tok < |a.q| && d < DV == |o|
    requires Represents(e, WarpScores(a, seen, tok), WarpValues(seen), NegInf, 0, a.Tiles() * TK, m, l, o)
    ensures a.Row(tok).Valid()
    ensures l != 0.0 && Times(o[d], a.vDescale / l) == Attention(Natural(e), a.Row(tok), d)
  {
    WarpSums(e, a, tok, seen, d);
    var p, n := a.Row(tok), a.Tiles() * TK;
    var num := Moment(Natural(e), RefScores(p), RefValues(p), d, 0, |p.keys|);
    var den := Mass(Natural(e), RefScores(p), 0, |p.keys|);
    SeesItself(Natural(e), p);
    assert Attention(Natural(e), p, d) == num / den;
    hide Times, WarpScores, WarpValues, RefScores, RefValues, Natural, Cta.Tiles, Cta.Valid, Complete, Attention;
    TimesSwap(o[d], a.vDescale, Weight(e, m));
    Quotient(Times(o[d], a.vDescale), l, Weight(e, m), num, den);
    DivideLater(o[d], a.vDescale, l);
  }

  lemma TimesSwap(x: real, y: real, z: real)
    ensures Times(Times(x, y), z) == Times(Times(x, z), y)
  {
    assert (x * y) * z == (x * z) * y;
  }

  lemma DivideLater(x: real, vd: real, l: real)
    requires l != 0.0
    ensures Times(x, vd / l) == Times(x, vd) / l
  {
  }

  /** Any interleaving of the eight warps: once warp w of a valid token is done, what it read yields exact attention. */
  method FinishWarp(e: Exponential, a: Cta, ghost run: seq<TileRing.State<seq<real>>>, w: nat,
                    seen: seq<map<nat, seq<real>>>)
    returns (out: seq<real>)
    requires a.Valid() && w < TileRing.WARPS && a.first + w < |a.q|
    requires TileRing.Run(run, a.Source(), a.Tiles())
    requires var last := run[|run| - 1];
             w < |last.warps| && TileRing.Done(last.warps[w], a.Tiles()) && seen == last.warps[w].seen
    ensures |out| == DV
    ensures a.Row(a.first + w).Valid() && forall d :: 0 <= d < DV ==>
              out[d] == Attention(Natural(e), a.Row(a.first + w), d)
  {
    TokenFacts(a, a.first + w);
    TileRing.FinishedWarpSawEverything(run, a.Source(), a.Tiles(), w);
    out := WarpAttention(e, a, a.first + w, seen);
  }
}
