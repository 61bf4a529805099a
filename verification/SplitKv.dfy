/** The two launches of the DiffKV kernel: one program per row block (2D), or split over segments and reduced (3D). */
module SplitKv {
  import opened Softmax
  import opened IndexMath
  import opened UnifiedAttention

  /** Every key a row of the block sees lies in the block's tile range, and in the sequence. */
  lemma VisibleRange(p: Query, b: Block)
    requires p.Valid() && b.Valid() && b.Holds(p)
    ensures forall j {:trigger RefScores(p)(j)} :: RefScores(p)(j).Fin? ==>
              TileStart(p, b) * b.tile <= j < TileEnd(p, b) * b.tile && 0 <= j < |p.keys|
    ensures 0 <= TileStart(p, b) < TileEnd(p, b)
  {
    forall j | RefScores(p)(j).Fin?
      ensures TileStart(p, b) * b.tile <= j < TileEnd(p, b) * b.tile && 0 <= j < |p.keys|
    {
      TilesCover(p, b, j);
    }
    TilesCover(p, b, p.Position());
  }

  /** acc / L is the dense attention once (M, L, acc) stand for every visible key and the sink. */
  lemma Finished(e: Exponential, p: Query, d: nat, m: Logit, l: real, x: real)
    requires p.Valid() && d < p.headSizeV
    requires Times(l, Weight(e, m)) == Weight(e, p.sink) + Mass(e, RefScores(p), 0, |p.keys|)
    requires Times(x, Weight(e, m)) == Moment(e, RefScores(p), RefValues(p), d, 0, |p.keys|)
    ensures l != 0.0 && x / l == Attention(e, p, d)
  {
    SeesItself(e, p);
    hide Times;
    Quotient(x, l, Weight(e, m), Moment(e, RefScores(p), RefValues(p), d, 0, |p.keys|),
             Weight(e, p.sink) + Mass(e, RefScores(p), 0, |p.keys|));
  }

  /** 2D launch: one program walks every tile of the row and stores acc / L. */
  method Attend2D(e: Exponential, p: Query, b: Block) returns (out: seq<real>)
    requires p.Valid() && b.Valid() && b.Holds(p)
    ensures |out| == p.headSizeV
    ensures forall d :: 0 <= d < p.headSizeV ==> out[d] == Attention(e, p, d)
  {
    VisibleRange(p, b);
    var lo, hi := TileStart(p, b), TileEnd(p, b);
    var m, l, acc := TileLoop(e, p, b, lo, hi, p.sink);
    forall d | 0 <= d < p.headSizeV
      ensures l != 0.0 && acc[d] / l == Attention(e, p, d)
    {
      WholeRow(e, p, b, d, m, l, acc);
    }
    out := [];
    if p.headSizeV > 0 {
      assert l != 0.0 && acc[0] / l == Attention(e, p, 0);
      out := seq(p.headSizeV, d requires 0 <= d < p.headSizeV => acc[d] / l);
    }
  }

  lemma WholeRow(e: Exponential, p: Query, b: Block, d: nat, m: Logit, l: real, acc: seq<real>)
    requires p.Valid() && b.Valid() && b.Holds(p) && d < p.headSizeV == |acc|
    requires Represents(e, RefScores(p), RefValues(p), p.sink, TileStart(p, b) * b.tile,
                        Max(TileStart(p, b), TileEnd(p, b)) * b.tile, m, l, acc)
    ensures l != 0.0 && acc[d] / l == Attention(e, p, d)
  {
    VisibleRange(p, b);
    hide Times, RefScores, RefValues, TileStart, TileEnd;
    MulOrder(TileStart(p, b), TileEnd(p, b), b.tile);
    SameWeight(e, RefScores(p), RefValues(p), d, TileStart(p, b) * b.tile, TileEnd(p, b) * b.tile, 0, |p.keys|);
    Finished(e, p, d, m, l, acc[d]);
  }

  // ----- 3D: segments

  function TilesPerSegment(n: nat, segments: nat, tile: nat): nat
    requires segments > 0 && tile > 0
  {
    assert segments * tile > 0;
    (n + segments * tile - 1) / (segments * tile)
  }

  /** The least number of tiles per segment with which the segments hold every key. */
  lemma TilesPerSegmentIs(n: nat, segments: nat, tile: nat)
    requires segments > 0 && tile > 0
    ensures var t := TilesPerSegment(n, segments, tile);
            n <= t * (segments * tile) && (n > 0 ==> (t - 1) * (segments * tile) < n)
  {
    assert segments * tile > 0;
    CeilCovers(n, segments * tile);
  }

  /** Key positions per segment. */
  function Span(n: nat, segments: nat, tile: nat): nat
    requires segments > 0 && tile > 0
  {
    TilesPerSegment(n, segments, tile) * tile
  }

  /** How many segments the reducer reads. */
  function ActiveSegments(n: nat, segments: nat, tile: nat): nat
    requires segments > 0 && tile > 0 && n > 0
  {
    SpanPositive(n, segments, tile);
    (n + Span(n, segments, tile) - 1) / Span(n, segments, tile)
  }

  lemma SpanPositive(n: nat, segments: nat, tile: nat)
    requires segments > 0 && tile > 0 && n > 0
    ensures Span(n, segments, tile) > 0
    ensures segments * Span(n, segments, tile) >= n
  {
  }

  /** The writer's guard and the reducer's mask select the same segments, and never more than the launch has. */
  lemma WriterAndReducerAgree(n: nat, segments: nat, tile: nat, s: nat)
    requires segments > 0 && tile > 0 && n > 0
    ensures s * Span(n, segments, tile) < n <==> s < ActiveSegments(n, segments, tile)
    ensures 0 < ActiveSegments(n, segments, tile) <= segments
    ensures n <= ActiveSegments(n, segments, tile) * Span(n, segments, tile)
  {
    SpanPositive(n, segments, tile);
    var w, a := Span(n, segments, tile), ActiveSegments(n, segments, tile);
    CeilCovers(n, w);
    assert a == CeilDiv(n, w);
    hide *;
    LastBlock(n, w, a, s);
    LastBlock(n, w, a, segments);
  }

  /** a blocks of w cover n and a - 1 do not: block s starts below n exactly when it is one of the a. */
  lemma LastBlock(n: nat, w: nat, a: nat, s: nat)
    requires w > 0 && a > 0 && (a - 1) * w < n <= a * w
    ensures s * w < n <==> s < a
    ensures n <= s * w ==> a <= s
  {
    MulOrder(a, s, w);
    MulOrder(s, a - 1, w);
    MulOrder(a - 1, s, w);
  }

  /** Each key position below n lies in exactly one active segment. */
  lemma EachKeyInOneSegment(n: nat, segments: nat, tile: nat, j: nat, s: nat)
    requires segments > 0 && tile > 0 && j < n
    ensures Span(n, segments, tile) > 0
    ensures s * Span(n, segments, tile) <= j < (s + 1) * Span(n, segments, tile) <==> s == j / Span(n, segments, tile)
    ensures j / Span(n, segments, tile) < ActiveSegments(n, segments, tile)
  {
    SpanPositive(n, segments, tile);
    var w := Span(n, segments, tile);
    var k := j / w;
    DivBounds(j, w);
    WriterAndReducerAgree(n, segments, tile, k);
    if s < k {
      MulOrder(s + 1, k, w);
    } else if k < s {
      MulOrder(k + 1, s, w);
    }
  }

  function SegmentInit(p: Query, s: nat): Logit
  {
    if s == 0 then p.sink else NegInf
  }

  /** A segment's stored partial stands for exactly the keys of its own span (and the sink, in segment 0). */
  ghost predicate Partial(e: Exponential, p: Query, segments: nat, tile: nat, s: nat, m: Logit, l: real, acc: seq<real>)
    requires p.Valid() && segments > 0 && tile > 0
  {
    var w := Span(|p.keys|, segments, tile);
    && |acc| == p.headSizeV
    && Represents(e, RefScores(p), RefValues(p), SegmentInit(p, s), s * w, (s + 1) * w, m, l, acc)
  }

  /** The maximum is -inf exactly when the span, with the start value, has no mass. */
  ghost predicate Reported(e: Exponential, p: Query, segments: nat, tile: nat, s: nat, m: Logit)
    requires p.Valid() && segments > 0 && tile > 0
  {
    var w := Span(|p.keys|, segments, tile);
    m.NegInf? <==> Weight(e, SegmentInit(p, s)) + Mass(e, RefScores(p), s * w, (s + 1) * w) == 0.0
  }

  /** Reporting -inf for a row that saw only masked keys (L = 0) drops nothing, and -inf is reported only then. */
  lemma MaskedPartial(e: Exponential, s: Scores, v: Values, init: Logit, a: int, b: int, m: Logit, l: real,
                      acc: seq<real>)
    requires Represents(e, s, v, init, a, b, m, l, acc)
    ensures Represents(e, s, v, init, a, b, if l > 0.0 then m else NegInf, l, acc)
    ensures l == 0.0 || m.NegInf? <==> Weight(e, init) + Mass(e, s, a, b) == 0.0
  {
    if l > 0.0 && m.Fin? {
      assert Times(l, Weight(e, m)) > 0.0;
    }
    if l == 0.0 {
      assert Mass(e, s, a, b) == 0.0;
      forall d | 0 <= d < |acc|
        ensures Moment(e, s, v, d, a, b) == 0.0
      {
        MasslessMoment(e, s, v, d, a, b);
      }
    }
  }

  lemma {:induction false} MasslessMoment(e: Exponential, s: Scores, v: Values, d: int, a: int, b: int)
    requires Mass(e, s, a, b) == 0.0
    ensures Moment(e, s, v, d, a, b) == 0.0
    decreases b - a
  {
    if a < b {
      MasslessMoment(e, s, v, d, a, b - 1);
    }
  }

  /** Clipping a span [a, b) to a range [from, to) that holds every unmasked position loses nothing. */
  lemma ClippedRange(e: Exponential, s: Scores, v: Values, d: int, a: int, b: int, from: int, to: int)
    requires a <= b
    requires forall j {:trigger s(j)} :: s(j).Fin? ==> from <= j < to
    ensures var lo, hi := Max(a, from), Max(Max(a, from), Min(b, to));
            Mass(e, s, lo, hi) == Mass(e, s, a, b) && Moment(e, s, v, d, lo, hi) == Moment(e, s, v, d, a, b)
  {
    var lo, hi := Max(a, from), Min(b, to);
    if lo < hi {
      NarrowRange(e, s, v, d, a, lo, hi, b);
    } else {
      MaskedRange(e, s, v, d, a, b);
      MaskedRange(e, s, v, d, lo, lo);
    }
  }

  lemma ScaleMaxMin(x: int, y: int, t: int)
    requires t > 0
    ensures Max(x, y) * t == Max(x * t, y * t) && Min(x, y) * t == Min(x * t, y * t)
  {
  }

  /** What a loop over the clipped range stands for, it stands for over the whole span. */
  lemma ClippedRepresents(e: Exponential, s: Scores, v: Values, init: Logit, a: int, b: int, from: int, to: int,
                          x: int, y: int, m: Logit, l: real, acc: seq<real>)
    requires a <= b && x == Max(a, from) && y == Max(Max(a, from), Min(b, to))
    requires forall j {:trigger s(j)} :: s(j).Fin? ==> from <= j < to
    requires Represents(e, s, v, init, x, y, m, l, acc)
    ensures Represents(e, s, v, init, a, b, m, l, acc)
  {
    hide Times, Mass, Moment;
    ClippedRange(e, s, v, 0, a, b, from, to);
    forall d | 0 <= d < |acc|
      ensures Moment(e, s, v, d, x, y) == Moment(e, s, v, d, a, b)
    {
      ClippedRange(e, s, v, d, a, b, from, to);
    }
  }

  /** Clipping tiles is clipping positions. */
  lemma TilesClipped(s: nat, tps: nat, t: nat, from: int, to: int, lo: int, hi: int)
    requires t > 0 && lo == Max(s * tps, from) && hi == Min((s + 1) * tps, to)
    ensures s * (tps * t) <= (s + 1) * (tps * t) && lo * t == Max(s * (tps * t), from * t)
    ensures Max(lo, hi) * t == Max(Max(s * (tps * t), from * t), Min((s + 1) * (tps * t), to * t))
  {
    SpanProduct(s, tps, t);
    SpanProduct(s + 1, tps, t);
    MulMonotone(s, s + 1, tps * t);
    ScaleMaxMin(s * tps, from, t);
    ScaleMaxMin((s + 1) * tps, to, t);
    ScaleMaxMin(lo, hi, t);
    hide *;
  }

  /** A loop over the segment's share of the pruned tiles covers every visible key of the segment's span. */
  lemma SegmentCovers(e: Exponential, p: Query, b: Block, segments: nat, s: nat, lo: int, hi: int,
                      m: Logit, l: real, acc: seq<real>)
    requires p.Valid() && b.Valid() && b.Holds(p) && segments > 0 && |acc| == p.headSizeV
    requires var tps := TilesPerSegment(|p.keys|, segments, b.tile);
             lo == Max(s * tps, TileStart(p, b)) && hi == Min((s + 1) * tps, TileEnd(p, b))
    requires Represents(e, RefScores(p), RefValues(p), SegmentInit(p, s), lo * b.tile, Max(lo, hi) * b.tile, m, l, acc)
    ensures Partial(e, p, segments, b.tile, s, m, l, acc)
  {
    VisibleRange(p, b);
    var t, w := b.tile, Span(|p.keys|, segments, b.tile);
    var from, to := TileStart(p, b), TileEnd(p, b);
    TilesClipped(s, TilesPerSegment(|p.keys|, segments, t), t, from, to, lo, hi);
    assert w == TilesPerSegment(|p.keys|, segments, t) * t;
    hide Times, RefScores, RefValues, TileStart, TileEnd, TilesPerSegment, Span, Represents;
    ClippedRepresents(e, RefScores(p), RefValues(p), SegmentInit(p, s), s * w, (s + 1) * w, from * t, to * t, lo * t,
                      Max(lo, hi) * t, m, l, acc);
  }

  lemma SpanProduct(s: nat, tps: nat, t: nat)
    ensures (s * tps) * t == s * (tps * t)
  {
  }

  // ----- scratch buffers

  /** The launch's scratch: one (max, expsum, output) slot per (token, head, segment), uninitialized to begin with. */
  class Scratch {
    const maxes: array<Logit>
    const sums: array<real>
    const outs: array<seq<real>>

    constructor (slots: nat)
      ensures fresh(this) && fresh(maxes) && fresh(sums) && fresh(outs)
      ensures maxes.Length == sums.Length == outs.Length == slots
    {
      maxes := new Logit[slots](_ => NegInf);
      sums := new real[slots](_ => 0.0);
      outs := new seq<real>[slots](_ => []);
    }

    ghost predicate Holds(base: nat, count: nat)
    {
      maxes.Length == sums.Length == outs.Length && base + count <= maxes.Length
    }

    /** Slot base + s holds segment s's partial, as the reducer will read it. */
    ghost predicate Stored(e: Exponential, p: Query, base: nat, segments: nat, tile: nat, s: nat)
      requires p.Valid() && segments > 0 && tile > 0 && Holds(base, segments) && s < segments
      reads maxes, sums, outs
    {
      && Partial(e, p, segments, tile, s, maxes[base + s], sums[base + s], outs[base + s])
      && Reported(e, p, segments, tile, s, maxes[base + s])
    }
  }

  /** First scratch slot of (token, head): the row-major layout of [tokens, heads, segments]. */
  function SlotBase(token: nat, head: nat, heads: nat, segments: nat): nat
  {
    token * (heads * segments) + head * segments
  }

  /** The slots are the cells of a [tokens, heads, segments] tensor in row-major order. */
  lemma SlotIsRowMajor(token: nat, head: nat, heads: nat, segments: nat, s: nat)
    ensures SlotBase(token, head, heads, segments) + s == (token * heads + head) * segments + s
  {
    assert token * (heads * segments) == token * heads * segments;
  }

  /** Different (token, head) pairs own disjoint slot ranges inside the buffer. */
  lemma SlotsDisjoint(token: nat, head: nat, token': nat, head': nat, tokens: nat, heads: nat, segments: nat)
    requires token < tokens && token' < tokens && head < heads && head' < heads
    requires (token, head) != (token', head')
    ensures SlotBase(token, head, heads, segments) + segments <= tokens * (heads * segments)
    ensures || SlotBase(token, head, heads, segments) + segments <= SlotBase(token', head', heads, segments)
            || SlotBase(token', head', heads, segments) + segments <= SlotBase(token, head, heads, segments)
  {
    SlotFlat(token, head, tokens, heads, segments);
    SlotFlat(token', head', tokens, heads, segments);
    hide SlotBase;
    RowsDiffer(token, head, token', head', heads);
    var i, i' := token * heads + head, token' * heads + head';
    if i < i' {
      MulGap(i, i', segments);
    } else {
      MulGap(i', i, segments);
    }
  }

  lemma RowsDiffer(token: nat, head: nat, token': nat, head': nat, heads: nat)
    requires head < heads && head' < heads && (token, head) != (token', head')
    ensures token * heads + head != token' * heads + head'
  {
    if token < token' {
      MulGap(token, token', heads);
    } else if token' < token {
      MulGap(token', token, heads);
    }
  }

  lemma SlotFlat(token: nat, head: nat, tokens: nat, heads: nat, segments: nat)
    requires token < tokens && head < heads
    ensures SlotBase(token, head, heads, segments) == (token * heads + head) * segments
    ensures SlotBase(token, head, heads, segments) + segments <= tokens * (heads * segments)
  {
    SpanProduct(token, heads, segments);
    SpanProduct(tokens, heads, segments);
    Distribute(token * heads, head, segments);
    MulGap(token, tokens, heads);
    MulGap(token * heads + head, tokens * heads, segments);
  }

  lemma Distribute(x: nat, y: nat, z: nat)
    ensures (x + y) * z == x * z + y * z
  {
  }

  /** One split-KV program: returns without storing when its span starts past the sequence. */
  method SegmentProgram(e: Exponential, p: Query, b: Block, segments: nat, s: nat, scratch: Scratch, base: nat)
    requires p.Valid() && b.Valid() && b.Holds(p) && s < segments
    requires scratch.Holds(base, segments)
    modifies scratch.maxes, scratch.sums, scratch.outs
    ensures s < ActiveSegments(|p.keys|, segments, b.tile) ==> scratch.Stored(e, p, base, segments, b.tile, s)
    ensures forall k {:trigger scratch.maxes[k]} {:trigger scratch.sums[k]} {:trigger scratch.outs[k]} ::
              0 <= k < scratch.maxes.Length && (k != base + s || s >= ActiveSegments(|p.keys|, segments, b.tile)) ==>
                && scratch.maxes[k] == old(scratch.maxes[k])
                && scratch.sums[k] == old(scratch.sums[k])
                && scratch.outs[k] == old(scratch.outs[k])
  {
    WriterAndReducerAgree(|p.keys|, segments, b.tile, s);
    var tps := TilesPerSegment(|p.keys|, segments, b.tile);
    SpanProduct(s, tps, b.tile);
    if s * tps * b.tile >= |p.keys| {
      return;
    }
    VisibleRange(p, b);
    var lo, hi := Max(s * tps, TileStart(p, b)), Min((s + 1) * tps, TileEnd(p, b));
    var m, l, acc := TileLoop(e, p, b, lo, hi, SegmentInit(p, s));
    SegmentCovers(e, p, b, segments, s, lo, hi, m, l, acc);
    scratch.outs[base + s] := acc;
    var reported := if l > 0.0 then m else NegInf;
    scratch.maxes[base + s] := reported;
    scratch.sums[base + s] := l;
    var w := Span(|p.keys|, segments, b.tile);
    MaskedPartial(e, RefScores(p), RefValues(p), SegmentInit(p, s), s * w, (s + 1) * w, m, l, acc);
  }

  // ----- the reducer

  function OverallMax(ms: seq<Logit>): Logit
  {
    if |ms| == 0 then NegInf else MaxLogit(OverallMax(ms[..|ms| - 1]), ms[|ms| - 1])
  }

  /** sum over segments of expsum * exp(max - overall). */
  function ReducedSum(e: Exponential, ms: seq<Logit>, ls: seq<real>, overall: real): real
    requires |ms| == |ls|
  {
    var n := |ms| - 1;
    if n < 0 then 0.0 else ReducedSum(e, ms[..n], ls[..n], overall) + Times(ls[n], ExpFrom(e, ms[n], overall))
  }

  /** Column d of sum over segments of output * exp(max - overall). */
  function ReducedColumn(e: Exponential, ms: seq<Logit>, outs: seq<seq<real>>, overall: real, d: nat): real
    requires |ms| == |outs| && forall i :: 0 <= i < |outs| ==> d < |outs[i]|
  {
    var n := |ms| - 1;
    if n < 0 then 0.0
    else ReducedColumn(e, ms[..n], outs[..n], overall, d) + Times(outs[n][d], ExpFrom(e, ms[n], overall))
  }

  ghost predicate AllStored(e: Exponential, p: Query, segments: nat, tile: nat, ms: seq<Logit>, ls: seq<real>,
                            outs: seq<seq<real>>)
    requires p.Valid() && segments > 0 && tile > 0
  {
    && |ms| == |ls| == |outs|
    && forall s :: 0 <= s < |ms| ==> Partial(e, p, segments, tile, s, ms[s], ls[s], outs[s])
  }

  lemma ShiftTerm(e: Exponential, x: real, m: Logit, overall: real)
    ensures Times(Times(x, ExpFrom(e, m, overall)), e(overall)) == Times(x, Weight(e, m))
  {
    ExpFromShift(e, m, overall);
    TimesAssociates(x, ExpFrom(e, m, overall), e(overall));
  }

  /** The reduced sums of the first k segments stand, relative to the overall maximum, for the first k spans. */
  lemma {:induction false} ReducedMass(e: Exponential, p: Query, segments: nat, tile: nat, ms: seq<Logit>,
                                       ls: seq<real>, outs: seq<seq<real>>, overall: real)
    requires p.Valid() && segments > 0 && tile > 0 && AllStored(e, p, segments, tile, ms, ls, outs)
    ensures Times(ReducedSum(e, ms, ls, overall), e(overall))
            == (if |ms| == 0 then 0.0 else Weight(e, p.sink))
                + Mass(e, RefScores(p), 0, |ms| * Span(|p.keys|, segments, tile))
  {
    hide Times, Span, RefScores, RefValues;
    var n, w := |ms| - 1, Span(|p.keys|, segments, tile);
    if n < 0 {
      TimesZero(e(overall));
    } else {
      ReducedMass(e, p, segments, tile, ms[..n], ls[..n], outs[..n], overall);
      ShiftTerm(e, ls[n], ms[n], overall);
      TimesPlus(ReducedSum(e, ms[..n], ls[..n], overall), Times(ls[n], ExpFrom(e, ms[n], overall)), e(overall));
      SpanOrder(n, w);
      assert Partial(e, p, segments, tile, n, ms[n], ls[n], outs[n]);
      MassSplit(e, RefScores(p), 0, n * w, (n + 1) * w);
    }
  }

  lemma SpanOrder(n: nat, w: nat)
    ensures 0 <= n * w <= (n + 1) * w
    ensures n == 0 ==> n * w == 0
  {
  }

  lemma {:induction false} ReducedMoment(e: Exponential, p: Query, segments: nat, tile: nat, ms: seq<Logit>,
                                         ls: seq<real>, outs: seq<seq<real>>, overall: real, d: nat)
    requires p.Valid() && segments > 0 && tile > 0 && AllStored(e, p, segments, tile, ms, ls, outs) && d < p.headSizeV
    requires forall i :: 0 <= i < |outs| ==> d < |outs[i]|
    ensures Times(ReducedColumn(e, ms, outs, overall, d), e(overall))
            == Moment(e, RefScores(p), RefValues(p), d, 0, |ms| * Span(|p.keys|, segments, tile))
  {
    hide Times, Span, RefScores, RefValues;
    var n, w := |ms| - 1, Span(|p.keys|, segments, tile);
    if n < 0 {
      TimesZero(e(overall));
    } else {
      ReducedMoment(e, p, segments, tile, ms[..n], ls[..n], outs[..n], overall, d);
      ShiftTerm(e, outs[n][d], ms[n], overall);
      TimesPlus(ReducedColumn(e, ms[..n], outs[..n], overall, d), Times(outs[n][d], ExpFrom(e, ms[n], overall)),
                e(overall));
      SpanOrder(n, w);
      assert Partial(e, p, segments, tile, n, ms[n], ls[n], outs[n]);
      MomentSplit(e, RefScores(p), RefValues(p), d, 0, n * w, (n + 1) * w);
    }
  }

  /** When every stored maximum is -inf the stored partials carry no weight at all. */
  lemma {:induction false} OverallFinite(e: Exponential, p: Query, segments: nat, tile: nat, ms: seq<Logit>,
                                         ls: seq<real>, outs: seq<seq<real>>)
    requires p.Valid() && segments > 0 && tile > 0 && AllStored(e, p, segments, tile, ms, ls, outs)
    requires OverallMax(ms).NegInf?
    ensures Mass(e, RefScores(p), 0, |ms| * Span(|p.keys|, segments, tile)) == 0.0
  {
    hide Times, Span, RefScores, RefValues;
    var n, w := |ms| - 1, Span(|p.keys|, segments, tile);
    if n < 0 {
    } else {
      OverallFinite(e, p, segments, tile, ms[..n], ls[..n], outs[..n]);
      SpanOrder(n, w);
      assert Partial(e, p, segments, tile, n, ms[n], ls[n], outs[n]);
      TimesByZero(ls[n]);
      MassSplit(e, RefScores(p), 0, n * w, (n + 1) * w);
    }
  }

  lemma TimesByZero(x: real)
    ensures Times(x, 0.0) == 0.0
  {
  }

  /** The spans of the active segments hold every key of the sequence. */
  lemma ActiveSpansCover(e: Exponential, p: Query, segments: nat, tile: nat, d: int)
    requires p.Valid() && segments > 0 && tile > 0
    ensures var w := ActiveSegments(|p.keys|, segments, tile) * Span(|p.keys|, segments, tile);
            && Mass(e, RefScores(p), 0, w) == Mass(e, RefScores(p), 0, |p.keys|)
            && Moment(e, RefScores(p), RefValues(p), d, 0, w) == Moment(e, RefScores(p), RefValues(p), d, 0, |p.keys|)
  {
    WriterAndReducerAgree(|p.keys|, segments, tile, 0);
    SameWeight(e, RefScores(p), RefValues(p), d, 0,
               ActiveSegments(|p.keys|, segments, tile) * Span(|p.keys|, segments, tile),
               0, |p.keys|);
  }

  /** Merging the active partials gives the dense attention. */
  lemma Merged(e: Exponential, p: Query, segments: nat, tile: nat, ms: seq<Logit>, ls: seq<real>, outs: seq<seq<real>>,
               d: nat)
    requires p.Valid() && segments > 0 && tile > 0 && AllStored(e, p, segments, tile, ms, ls, outs) && d < p.headSizeV
    requires |ms| == ActiveSegments(|p.keys|, segments, tile)
    ensures OverallMax(ms).Fin?
    ensures var sum := ReducedSum(e, ms, ls, OverallMax(ms).x);
            sum != 0.0 && ReducedColumn(e, ms, outs, OverallMax(ms).x, d) / sum == Attention(e, p, d)
  {
    WriterAndReducerAgree(|p.keys|, segments, tile, 0);
    SeesItself(e, p);
    hide Times, Span, RefScores, RefValues, ActiveSegments;
    ActiveSpansCover(e, p, segments, tile, d);
    if OverallMax(ms).NegInf? {
      OverallFinite(e, p, segments, tile, ms, ls, outs);
    }
    var overall := OverallMax(ms).x;
    ReducedMass(e, p, segments, tile, ms, ls, outs, overall);
    ReducedMoment(e, p, segments, tile, ms, ls, outs, overall, d);
    Finished(e, p, d, OverallMax(ms), ReducedSum(e, ms, ls, overall), ReducedColumn(e, ms, outs, overall, d));
  }

  /** The reducer program of one (token, head). */
  method Reduce(e: Exponential, p: Query, segments: nat, tile: nat, scratch: Scratch, base: nat)
    returns (out: seq<real>)
    requires p.Valid() && segments > 0 && tile > 0 && scratch.Holds(base, segments)
    requires forall s :: 0 <= s < segments && s < ActiveSegments(|p.keys|, segments, tile) ==>
               scratch.Stored(e, p, base, segments, tile, s)
    ensures |out| == p.headSizeV
    ensures forall d :: 0 <= d < p.headSizeV ==> out[d] == Attention(e, p, d)
  {
    WriterAndReducerAgree(|p.keys|, segments, tile, 0);
    var act := ActiveSegments(|p.keys|, segments, tile);
    var ms, ls, outs := scratch.maxes[base..base + act], scratch.sums[base..base + act], scratch.outs[base..base + act];
    forall s | 0 <= s < act
      ensures Partial(e, p, segments, tile, s, ms[s], ls[s], outs[s])
    {
      assert scratch.Stored(e, p, base, segments, tile, s);
    }
    hide Times, ActiveSegments;
    out := [];
    if p.headSizeV > 0 {
      Merged(e, p, segments, tile, ms, ls, outs, 0);
      var overall := OverallMax(ms).x;
      var sum := ReducedSum(e, ms, ls, overall);
      forall d | 0 <= d < p.headSizeV
        ensures sum != 0.0 && ReducedColumn(e, ms, outs, overall, d) / sum == Attention(e, p, d)
      {
        Merged(e, p, segments, tile, ms, ls, outs, d);
      }
      out := seq(p.headSizeV, d requires 0 <= d < p.headSizeV =>
        if sum == 0.0 then 0.0 else ReducedColumn(e, ms, outs, overall, d) / sum);
    }
  }

  /** 3D launch of one row: the segment programs in any order, on uninitialized scratch, then the reducer. */
  method Attend3D(e: Exponential, p: Query, b: Block, segments: nat, order: seq<nat>, scratch: Scratch, base: nat)
    returns (out: seq<real>)
    requires p.Valid() && b.Valid() && b.Holds(p) && segments > 0 && scratch.Holds(base, segments)
    requires forall s :: 0 <= s < |order| ==> order[s] < segments
    requires forall s: nat :: s < segments ==> s in order
    modifies scratch.maxes, scratch.sums, scratch.outs
    ensures |out| == p.headSizeV
    ensures forall d :: 0 <= d < p.headSizeV ==> out[d] == Attention(e, p, d)
    ensures forall k {:trigger scratch.maxes[k]} {:trigger scratch.sums[k]} {:trigger scratch.outs[k]} ::
              0 <= k < scratch.maxes.Length && !(base <= k < base + ActiveSegments(|p.keys|, segments, b.tile)) ==>
                && scratch.maxes[k] == old(scratch.maxes[k])
                && scratch.sums[k] == old(scratch.sums[k])
                && scratch.outs[k] == old(scratch.outs[k])
  {
    WriterAndReducerAgree(|p.keys|, segments, b.tile, 0);
    hide Times, ActiveSegments, Partial;
    var i := 0;
    while i < |order|
      invariant 0 <= i <= |order|
      invariant forall s :: 0 <= s < ActiveSegments(|p.keys|, segments, b.tile) && s in order[..i] ==>
                  scratch.Stored(e, p, base, segments, b.tile, s)
      invariant forall k {:trigger scratch.maxes[k]} {:trigger scratch.sums[k]} {:trigger scratch.outs[k]} ::
                  0 <= k < scratch.maxes.Length && !(base <= k < base + ActiveSegments(|p.keys|, segments, b.tile)) ==>
                    && scratch.maxes[k] == old(scratch.maxes[k])
                    && scratch.sums[k] == old(scratch.sums[k])
                    && scratch.outs[k] == old(scratch.outs[k])
    {
      SegmentProgram(e, p, b, segments, order[i], scratch, base);
      assert order[..i + 1] == order[..i] + [order[i]];
      i := i + 1;
    }
    assert order[..i] == order;
    out := Reduce(e, p, segments, b.tile, scratch, base);
  }
}
