/** The Triton DiffKV attention kernel: the reference attention of a row, and the tile loop of one program. */
module UnifiedAttention {
  import opened Softmax
  import opened IndexMath

  function Dot(x: seq<real>, y: seq<real>): real
    requires |x| == |y|
  {
    if |x| == 0 then 0.0 else x[0] * y[0] + Dot(x[1..], y[1..])
  }

  function Scale(c: real, x: seq<real>): (r: seq<real>)
    ensures |r| == |x|
    ensures forall i :: 0 <= i < |x| ==> r[i] == c * x[i]
  {
    seq(|x|, i requires 0 <= i < |x| => c * x[i])
  }

  /** A per-tensor descale may be pulled out of the dot product. */
  lemma {:induction false} DotScale(c: real, x: seq<real>, y: seq<real>)
    requires |x| == |y|
    ensures Dot(x, Scale(c, y)) == Times(c, Dot(x, y))
  {
    if |x| > 0 {
      var z, w := Scale(c, y)[1..], Scale(c, y[1..]);
      assert forall i :: 0 <= i < |z| ==> z[i] == w[i];
      assert z == w;
      DotScale(c, x[1..], y[1..]);
    }
  }

  /** One cached token of one KV head, as the kernel sees it before the per-tensor descales. */
  datatype Key = Key(k: seq<real>, v: seq<real>)

  /** No softcap and no ALiBi. */
  function NoBias(j: int, x: real): real { x }

  /** One query row (token, head) together with the keys of its sequence. */
  datatype Query = Query(
    q: seq<real>,
    keys: seq<Key>,
    headSizeV: nat,
    scale: real,
    kDescale: real,
    vDescale: real,
    bias: (int, real) -> real,  // softcap and ALiBi: any function of the key position and the raw score
    sink: Logit,                // NegInf when the launch has no sinks
    window: nat,                // 0 when the layer is not sliding-window
    queryLen: nat,
    queryPos: nat)
  {
    predicate Valid() {
      && queryPos < queryLen <= |keys|
      && forall j :: 0 <= j < |keys| ==> |keys[j].k| == |q| && |keys[j].v| == headSizeV
    }

    function Context(): int { |keys| - queryLen }

    function Position(): int { Context() + queryPos }

    /** Causal, and inside the sliding window when there is one. */
    predicate Visible(j: int) {
      0 <= j <= Position() && (window == 0 || Position() - j < window)
    }
  }

  // ----- reference: one dense masked softmax over descaled keys and values

  function RefLogit(p: Query, j: int): Logit
    requires p.Valid()
  {
    if p.Visible(j) then Fin(p.bias(j, Times(p.scale, Dot(p.q, Scale(p.kDescale, p.keys[j].k))))) else NegInf
  }

  function RefScores(p: Query): Scores
    requires p.Valid()
  {
    j => RefLogit(p, j)
  }

  function RefValues(p: Query): Values
    requires p.Valid()
  {
    (j, d) => if 0 <= j < |p.keys| && 0 <= d < p.headSizeV then Times(p.vDescale, p.keys[j].v[d]) else 0.0
  }

  /** A row always sees its own key, so the softmax is well defined. */
  lemma SeesItself(e: Exponential, p: Query)
    requires p.Valid()
    ensures Mass(e, RefScores(p), 0, |p.keys|) > 0.0
  {
    MassPositive(e, RefScores(p), 0, |p.keys|, p.Position());
  }

  /** Column d of the attention output: dense softmax over every key of the sequence and the optional sink. */
  function Attention(e: Exponential, p: Query, d: nat): real
    requires p.Valid() && d < p.headSizeV
  {
    SeesItself(e, p);
    Dense(e, RefScores(p), RefValues(p), p.sink, |p.keys|, d)
  }

  // ----- the program: a block of query rows walking tiles of keys

  /** A launch's tiling, and which q-block of the sequence this program handles. */
  datatype Block = Block(tile: nat, blockM: nat, gqa: nat, index: nat)
  {
    predicate Valid() { tile > 0 && 0 < gqa <= blockM }

    function BlockQ(): nat
      requires Valid()
    {
      blockM / gqa
    }

    function FirstPos(): nat
      requires Valid()
    {
      index * BlockQ()
    }

    /** The last query position any row of the program can have. */
    function LastPos(): nat
      requires Valid()
    {
      FirstPos() + (blockM - 1) / gqa
    }

    predicate Holds(p: Query)
      requires Valid()
    {
      FirstPos() <= p.queryPos <= LastPos()
    }
  }

  function MaxPrefix(p: Query, b: Block): int
    requires b.Valid()
  {
    Min(p.Context() + b.LastPos() + 1, |p.keys|)
  }

  function TileStart(p: Query, b: Block): int
    requires b.Valid()
  {
    if p.window == 0 then 0 else Max(0, (p.Context() + b.FirstPos() - p.window + 1) / b.tile)
  }

  function TileEnd(p: Query, b: Block): int
    requires b.Valid()
  {
    var tiles := CeilDiv(MaxPrefix(p, b), b.tile);
    if p.window == 0 then tiles
    else Min((p.Context() + Min(b.LastPos(), p.queryLen - 1)) / b.tile + 1, tiles)
  }

  /** The pruned tile range still holds every key any row of the program may see. */
  lemma TilesCover(p: Query, b: Block, j: int)
    requires p.Valid() && b.Valid() && b.Holds(p) && p.Visible(j)
    ensures TileStart(p, b) * b.tile <= j < TileEnd(p, b) * b.tile
    ensures 0 <= TileStart(p, b) < TileEnd(p, b)
  {
    var t := b.tile;
    var first := p.Context() + b.FirstPos() - p.window + 1;
    var last := p.Context() + Min(b.LastPos(), p.queryLen - 1);
    DivBounds(first, t);
    DivBounds(last, t);
    DivBounds(MaxPrefix(p, b) + t - 1, t);
    assert TileStart(p, b) * t <= j;
    assert j < TileEnd(p, b) * t;
    MulOrder(TileStart(p, b), TileEnd(p, b), t);
  }

  /** No tile of the range lies wholly outside what the rows of the program may see. */
  lemma TilesTight(p: Query, b: Block)
    requires p.Valid() && b.Valid() && b.FirstPos() <= p.queryLen
    ensures var first := if p.window == 0 then 0 else p.Context() + b.FirstPos() - p.window + 1;
            TileStart(p, b) * b.tile <= Max(first, 0) < (TileStart(p, b) + 1) * b.tile
    ensures (TileEnd(p, b) - 1) * b.tile < |p.keys| && (TileEnd(p, b) - 1) * b.tile <= p.Context() + b.LastPos()
  {
    var t := b.tile;
    var first := p.Context() + b.FirstPos() - p.window + 1;
    var last := p.Context() + Min(b.LastPos(), p.queryLen - 1);
    DivBounds(first, t);
    DivBounds(last, t);
    CeilCovers(MaxPrefix(p, b), t);
    MulOrder(TileEnd(p, b) - 1, CeilDiv(MaxPrefix(p, b), t) - 1, t);
  }

  /** A visible key is loaded, and its V survives the window zeroing. */
  lemma VisibleIsLoaded(p: Query, b: Block, j: int)
    requires p.Valid() && b.Valid() && b.Holds(p) && p.Visible(j)
    ensures 0 <= j < MaxPrefix(p, b) <= |p.keys|
    ensures p.window > 0 ==> p.Context() + b.FirstPos() - j < p.window
  {
  }

  /** The kernel's own mask: not after the row's absolute position, and less than the window before it. */
  predicate SeqMask(p: Query, j: int)
  {
    var queryAbsPos := p.Context() + p.queryPos;
    j <= queryAbsPos && (p.window > 0 ==> queryAbsPos - j < p.window)
  }

  /** S of one lane: scores against the raw cache, the K descale applied to the score. */
  function KernelLogit(p: Query, b: Block, j: int): Logit
    requires p.Valid() && b.Valid() && 0 <= j
  {
    if !SeqMask(p, j) then NegInf
    else if j < MaxPrefix(p, b) then Fin(p.bias(j, Times(Times(p.scale, p.kDescale), Dot(p.q, p.keys[j].k))))
    else Fin(p.bias(j, 0.0))
  }

  /** V of one lane: zero past the prefix and, for sliding windows, below the first row's window. */
  function KernelValue(p: Query, b: Block, j: int, d: nat): real
    requires p.Valid() && b.Valid() && d < p.headSizeV
  {
    if !(0 <= j < MaxPrefix(p, b)) then 0.0
    else if p.window > 0 && p.Context() + b.FirstPos() - j >= p.window then 0.0
    else p.keys[j].v[d]
  }

  function KernelScores(p: Query, b: Block): Scores
    requires p.Valid() && b.Valid()
  {
    j => if 0 <= j then KernelLogit(p, b, j) else NegInf
  }

  function KernelValues(p: Query, b: Block): Values
    requires p.Valid() && b.Valid()
  {
    (j, d) => if 0 <= d < p.headSizeV then KernelValue(p, b, j, d) else 0.0
  }

  /** Descaling S is descaling K, and no visible lane is a masked load or a zeroed value. */
  lemma KernelLane(p: Query, b: Block, j: int)
    requires p.Valid() && b.Valid() && b.Holds(p) && 0 <= j
    ensures KernelScores(p, b)(j) == RefScores(p)(j)
    ensures RefScores(p)(j).Fin? ==>
              forall d :: 0 <= d < p.headSizeV ==> RefValues(p)(j, d) == Times(p.vDescale, KernelValues(p, b)(j, d))
  {
    hide Times, Dot, Scale;
    if p.Visible(j) {
      VisibleIsLoaded(p, b, j);
      DotScale(p.kDescale, p.q, p.keys[j].k);
      TimesAssociates(p.scale, p.kDescale, Dot(p.q, p.keys[j].k));
    }
  }

  // ----- the tile loop

  /** One iteration: softmax_step on the tile's scores, then the rescaled accumulation of P V. */
  method TileStep(e: Exponential, s: Scores, raw: Values, vd: real, lo: int, hi: int, m: Logit, l: real, acc: seq<real>,
                  ghost ref: Scores, ghost v: Values, ghost init: Logit, ghost start: int)
    returns (m': Logit, l': real, acc': seq<real>)
    requires start <= lo < hi
    requires forall j {:trigger s(j)} :: lo <= j < hi ==> s(j) == ref(j)
    requires forall j, d :: lo <= j < hi && s(j).Fin? && 0 <= d < |acc| ==> v(j, d) == Times(vd, raw(j, d))
    requires Represents(e, ref, v, init, start, lo, m, l, acc) && TightMax(ref, init, start, lo, m)
    ensures |acc'| == |acc| && m'.Fin?
    ensures Represents(e, ref, v, init, start, hi, m', l', acc')
    ensures TightMax(ref, init, start, hi, m')
  {
    hide Times;
    var t := MaxLogit(m, TileMax(s, lo, hi));
    var next := if t.Fin? then t.x else 0.0;
    var alpha := ExpFrom(e, m, next);
    var sum := TileMass(e, s, next, lo, hi);
    l' := Times(l, alpha) + sum;
    acc' := seq(|acc|, d requires 0 <= d < |acc| =>
      Times(acc[d], alpha) + Times(TileProduct(e, s, raw, next, d, lo, hi), vd));
    m' := Fin(next);
    StepSums(e, s, raw, vd, lo, hi, m, l, acc, ref, v, init, start, next, l', acc');
    StepMax(s, ref, init, start, lo, hi, m, next);
  }

  lemma StepSums(e: Exponential, s: Scores, raw: Values, vd: real, lo: int, hi: int, m: Logit, l: real, acc: seq<real>,
                 ref: Scores, v: Values, init: Logit, start: int, next: real, l': real, acc': seq<real>)
    requires start <= lo < hi
    requires forall j {:trigger s(j)} :: lo <= j < hi ==> s(j) == ref(j)
    requires forall j, d :: lo <= j < hi && s(j).Fin? && 0 <= d < |acc| ==> v(j, d) == Times(vd, raw(j, d))
    requires Represents(e, ref, v, init, start, lo, m, l, acc)
    requires l' == Times(l, ExpFrom(e, m, next)) + TileMass(e, s, next, lo, hi)
    requires |acc'| == |acc|
    requires forall d :: 0 <= d < |acc| ==>
               acc'[d] == Times(acc[d], ExpFrom(e, m, next)) + Times(TileProduct(e, s, raw, next, d, lo, hi), vd)
    ensures Represents(e, ref, v, init, start, hi, Fin(next), l', acc')
  {
    hide Times;
    TileMassShift(e, s, next, lo, hi);
    SumsAgree(e, s, v, ref, v, 0, lo, hi);
    MassSplit(e, ref, start, lo, hi);
    Rescale(e, m, next, l, TileMass(e, s, next, lo, hi));
    TimesNonNegative(l, ExpFrom(e, m, next));
    forall d | 0 <= d < |acc'|
      ensures Times(acc'[d], Weight(e, Fin(next))) == Moment(e, ref, v, d, start, hi)
    {
      StepColumn(e, s, raw, vd, lo, hi, m, acc[d], ref, v, d, start, next);
    }
  }

  lemma StepColumn(e: Exponential, s: Scores, raw: Values, vd: real, lo: int, hi: int, m: Logit, x: real,
                   ref: Scores, v: Values, d: int, start: int, next: real)
    requires start <= lo < hi
    requires forall j {:trigger s(j)} :: lo <= j < hi ==> s(j) == ref(j)
    requires forall j :: lo <= j < hi && s(j).Fin? ==> v(j, d) == Times(vd, raw(j, d))
    requires Times(x, Weight(e, m)) == Moment(e, ref, v, d, start, lo)
    ensures Times(Times(x, ExpFrom(e, m, next)) + Times(TileProduct(e, s, raw, next, d, lo, hi), vd), e(next))
            == Moment(e, ref, v, d, start, hi)
  {
    hide Times;
    TileProductShift(e, s, v, raw, vd, next, d, lo, hi);
    SumsAgree(e, s, v, ref, v, d, lo, hi);
    MomentSplit(e, ref, v, d, start, lo, hi);
    Rescale(e, m, next, x, Times(TileProduct(e, s, raw, next, d, lo, hi), vd));
  }

  lemma StepMax(s: Scores, ref: Scores, init: Logit, start: int, lo: int, hi: int, m: Logit, next: real)
    requires start <= lo < hi
    requires forall j {:trigger s(j)} :: lo <= j < hi ==> s(j) == ref(j)
    requires TightMax(ref, init, start, lo, m)
    requires var t := MaxLogit(m, TileMax(s, lo, hi)); next == if t.Fin? then t.x else 0.0
    ensures TightMax(ref, init, start, hi, Fin(next))
  {
    TileMaxBounds(s, lo, hi);
    forall j | start <= j < hi
      ensures AtMost(ref(j), Fin(next))
    {
      if lo <= j {
        assert AtMost(s(j), TileMax(s, lo, hi));
      }
    }
    var t := MaxLogit(m, TileMax(s, lo, hi));
    if t.Fin? && t != m {
      var j :| lo <= j < hi && t == s(j);
      assert t == ref(j);
    }
  }

  lemma StartRepresents(e: Exponential, s: Scores, v: Values, init: Logit, start: int, n: nat)
    ensures Represents(e, s, v, init, start, start, init, 1.0, seq(n, _ => 0.0))
    ensures TightMax(s, init, start, start, init)
  {
  }

  /** The tile loop of one row over the tiles [lo, hi); an empty range leaves M = init, L = 1, acc = 0. */
  method TileLoop(e: Exponential, p: Query, b: Block, lo: int, hi: int, init: Logit)
    returns (m: Logit, l: real, acc: seq<real>)
    requires p.Valid() && b.Valid() && b.Holds(p) && 0 <= lo
    ensures |acc| == p.headSizeV
    ensures Represents(e, RefScores(p), RefValues(p), init, lo * b.tile, Max(lo, hi) * b.tile, m, l, acc)
    ensures TightMax(RefScores(p), init, lo * b.tile, Max(lo, hi) * b.tile, m)
  {
    StartRepresents(e, RefScores(p), RefValues(p), init, lo * b.tile, p.headSizeV);
    hide Times, RefScores, RefValues, KernelScores, KernelValues;
    m, l := init, 1.0;
    acc := seq(p.headSizeV, _ => 0.0);
    var s, raw := KernelScores(p, b), KernelValues(p, b);
    ghost var start := lo * b.tile;
    var j := lo;
    while j < hi
      invariant lo <= j <= Max(lo, hi)
      invariant |acc| == p.headSizeV && start <= j * b.tile
      invariant Represents(e, RefScores(p), RefValues(p), init, start, j * b.tile, m, l, acc)
      invariant TightMax(RefScores(p), init, start, j * b.tile, m)
    {
      assert (j + 1) * b.tile == j * b.tile + b.tile && 0 <= j * b.tile;
      forall k | j * b.tile <= k < (j + 1) * b.tile
        ensures s(k) == RefScores(p)(k)
        ensures s(k).Fin? ==> forall d :: 0 <= d < |acc| ==> RefValues(p)(k, d) == Times(p.vDescale, raw(k, d))
      {
        KernelLane(p, b, k);
      }
      m, l, acc := TileStep(e, s, raw, p.vDescale, j * b.tile, (j + 1) * b.tile, m, l, acc,
                            RefScores(p), RefValues(p), init, start);
      j := j + 1;
    }
  }
}
