/** What the dense reference is, written out: which keys a row sees, with which scores, and the sums over just those. */
module DenseAttention {
  import opened Softmax
  import opened UnifiedAttention
  import opened ModelRows
  import Backend = DiffKvBackend
  import CachedRows
  import Forwarding = BackendForward
  import Triton = TritonPath

  /** f(a) + ... + f(b - 1). */
  function Sum(f: int -> real, a: int, b: int): real
    decreases b - a
  {
    if a >= b then 0.0 else Sum(f, a, b - 1) + f(b - 1)
  }

  /** A key has a finite score exactly when it is not after the row's own position and, with a window, one of the
      `window` keys that end there. */
  lemma SeenIff(p: Query, j: int)
    requires p.Valid()
    ensures RefLogit(p, j).Fin? <==>
              && 0 <= j <= |p.keys| - p.queryLen + p.queryPos
              && (p.window == 0 || j > |p.keys| - p.queryLen + p.queryPos - p.window)
  {
    hide Times, Dot, Scale;
  }

  // ----- one head of one row

  /** Position of the row's own key, and the first key it sees. */
  function Own(len: nat, pos: nat, n: nat): int { n - len + pos }

  function First(own: int, window: nat): int { if window == 0 || own < window then 0 else own - window + 1 }

  function Products(q: seq<real>, k: seq<real>): int -> real
    requires |q| == |k|
  {
    i => if 0 <= i < |q| then q[i] * k[i] else 0.0
  }

  /** The scaled product of a head's query with key j of its own KV head, descaled. */
  function RawScore(l: Layer, x: HeadRow, keys: seq<HeadKeys>, head: nat, j: int): real
    requires l.Valid() && QueryOk(l, x) && head < l.Heads() && 0 <= j < |keys| && KeyOk(l, keys[j])
  {
    KvHead(l, head);
    l.scale * (l.kDescale * Sum(Products(x[head], keys[j][head / l.gqa].k), 0, l.hqk))
  }

  /** The score of key j: softcap and ALiBi of the head, if the layer has them. */
  function HeadScore(l: Layer, x: HeadRow, keys: seq<HeadKeys>, head: nat, j: int): real
    requires l.Valid() && QueryOk(l, x) && head < l.Heads() && 0 <= j < |keys| && KeyOk(l, keys[j])
  {
    var raw := RawScore(l, x, keys, head, j);
    match l.bias
    case Plain => raw
    case PerHead(f) => f(head)(j, raw)
  }

  /** exp of the score, and 0 outside the keys. */
  function HeadWeight(e: Exponential, l: Layer, x: HeadRow, keys: seq<HeadKeys>, head: nat): int -> real
    requires l.Valid() && QueryOk(l, x) && head < l.Heads()
  {
    j => if 0 <= j < |keys| && KeyOk(l, keys[j]) then e(HeadScore(l, x, keys, head, j)) else 0.0
  }

  function HeadTerm(e: Exponential, l: Layer, x: HeadRow, keys: seq<HeadKeys>, head: nat, d: nat): int -> real
    requires l.Valid() && QueryOk(l, x) && head < l.Heads() && d < l.hv
  {
    j =>
      if 0 <= j < |keys| && KeyOk(l, keys[j]) then
        KvHead(l, head);
        e(HeadScore(l, x, keys, head, j)) * (l.vDescale * keys[j][head / l.gqa].v[d])
      else 0.0
  }

  /** The head's own sink, if the layer has sinks. */
  function SinkWeight(e: Exponential, l: Layer, head: nat): real
  {
    if head < |l.sinks| && l.sinks[head].Fin? then e(l.sinks[head].x) else 0.0
  }

  lemma {:induction false} DotIsSum(x: seq<real>, y: seq<real>, f: int -> real, a: nat)
    requires |x| == |y| && forall i :: 0 <= i < |x| ==> f(a + i) == x[i] * y[i]
    ensures Dot(x, y) == Sum(f, a, a + |x|)
  {
    if |x| > 0 {
      SumFront(f, a, a + |x|);
      DotIsSum(x[1..], y[1..], f, a + 1);
    }
  }

  lemma {:induction false} SumFront(f: int -> real, a: int, b: int)
    requires a < b
    ensures Sum(f, a, b) == f(a) + Sum(f, a + 1, b)
    decreases b - a
  {
    if a + 1 < b {
      SumFront(f, a, b - 1);
    } else {
      assert Sum(f, a, a) == 0.0 && Sum(f, a + 1, a + 1) == 0.0;
    }
  }

  lemma {:induction false} MassIsSum(e: Exponential, s: Scores, f: int -> real, a: int, b: int)
    requires forall j :: a <= j < b ==> s(j).Fin? && f(j) == e(s(j).x)
    ensures Mass(e, s, a, b) == Sum(f, a, b)
    decreases b - a
  {
    if a < b {
      MassIsSum(e, s, f, a, b - 1);
    }
  }

  lemma {:induction false} MomentIsSum(e: Exponential, s: Scores, v: Values, d: int, f: int -> real, a: int, b: int)
    requires forall j :: a <= j < b ==> s(j).Fin? && f(j) == e(s(j).x) * v(j, d)
    ensures Moment(e, s, v, d, a, b) == Sum(f, a, b)
    decreases b - a
  {
    if a < b {
      MomentIsSum(e, s, v, d, f, a, b - 1);
    }
  }

  /** The raw score as products and a sum. */
  lemma RawIs(scale: real, descale: real, q: seq<real>, k: seq<real>)
    requires |q| == |k|
    ensures Times(scale, Dot(q, UnifiedAttention.Scale(descale, k)))
            == scale * (descale * Sum(Products(q, k), 0, |q|))
  {
    hide Dot, Sum, UnifiedAttention.Scale, Products, Times;
    DotScale(descale, q, k);
    DotOfProducts(q, k);
    TwoTimes(scale, descale, Dot(q, k));
  }

  lemma TwoTimes(x: real, y: real, z: real)
    ensures Times(x, Times(y, z)) == x * (y * z)
  {
  }

  lemma DotOfProducts(q: seq<real>, k: seq<real>)
    requires |q| == |k|
    ensures Dot(q, k) == Sum(Products(q, k), 0, |q|)
  {
    DotIsSum(q, k, Products(q, k), 0);
  }

  /** The scores of the keys a row sees. */
  lemma ScoreIs(l: Layer, x: HeadRow, pos: nat, len: nat, keys: seq<HeadKeys>, head: nat, j: int)
    requires RowOk(l, x, pos, len, keys) && head < l.Heads()
    requires First(Own(len, pos, |keys|), l.window) <= j <= Own(len, pos, |keys|)
    ensures 0 <= j < |keys| && KeyOk(l, keys[j])
    ensures RefScores(RowQuery(l, x, pos, len, keys, head))(j) == Fin(HeadScore(l, x, keys, head, j))
  {
    var p := RowQuery(l, x, pos, len, keys, head);
    assert p.Visible(j);
    RawScoreIs(l, x, pos, len, keys, head, j);
    hide Dot, UnifiedAttention.Scale, Times, Sum, Products, RawScore;
    BiasIs(l, x, pos, len, keys, head, j, RawScore(l, x, keys, head, j));
  }

  lemma RawScoreIs(l: Layer, x: HeadRow, pos: nat, len: nat, keys: seq<HeadKeys>, head: nat, j: int)
    requires RowOk(l, x, pos, len, keys) && head < l.Heads() && 0 <= j < |keys|
    ensures var p := RowQuery(l, x, pos, len, keys, head);
            Times(p.scale, Dot(p.q, UnifiedAttention.Scale(p.kDescale, p.keys[j].k))) == RawScore(l, x, keys, head, j)
  {
    KvHead(l, head);
    RawIs(l.scale, l.kDescale, x[head], keys[j][head / l.gqa].k);
    hide Dot, UnifiedAttention.Scale, Times, Sum, Products;
  }

  lemma BiasIs(l: Layer, x: HeadRow, pos: nat, len: nat, keys: seq<HeadKeys>, head: nat, j: int, raw: real)
    requires RowOk(l, x, pos, len, keys) && head < l.Heads()
    ensures RowQuery(l, x, pos, len, keys, head).bias(j, raw)
            == match l.bias case Plain => raw case PerHead(f) => f(head)(j, raw)
  {
    assert NoBias(j, raw) == raw;
  }

  lemma ValueIs(l: Layer, x: HeadRow, pos: nat, len: nat, keys: seq<HeadKeys>, head: nat, j: int, d: nat)
    requires RowOk(l, x, pos, len, keys) && head < l.Heads() && 0 <= j < |keys| && d < l.hv
    ensures head / l.gqa < l.kvHeads
    ensures RefValues(RowQuery(l, x, pos, len, keys, head))(j, d) == l.vDescale * keys[j][head / l.gqa].v[d]
  {
    KvHead(l, head);
  }

  /** A dense row over scores that are finite exactly in [first, last). */
  lemma DenseIs(e: Exponential, s: Scores, v: Values, sink: Logit, n: nat, d: int, first: int, last: int,
                weight: int -> real, term: int -> real)
    requires 0 <= first < last <= n && forall j :: 0 <= j < n ==> (s(j).Fin? <==> first <= j < last)
    requires forall j :: first <= j < last ==> weight(j) == e(s(j).x) && term(j) == e(s(j).x) * v(j, d)
    ensures Mass(e, s, 0, n) > 0.0 && Sum(weight, first, last) + Weight(e, sink) > 0.0
    ensures Dense(e, s, v, sink, n, d) == Sum(term, first, last) / (Sum(weight, first, last) + Weight(e, sink))
  {
    MassPositive(e, s, 0, n, first);
    hide Sum, Mass, Moment;
    NarrowRange(e, s, v, d, 0, first, last, n);
    MassIsSum(e, s, weight, first, last);
    MomentIsSum(e, s, v, d, term, first, last);
  }

  /** Dense attention of a row: in head h, the softmax over just the keys from the window's first to the row's own,
      against KV head h / gqa, with the head's own bias and sink. */
  lemma RowIs(e: Exponential, l: Layer, x: HeadRow, pos: nat, len: nat, keys: seq<HeadKeys>, head: nat, d: nat)
    requires RowOk(l, x, pos, len, keys) && head < l.Heads() && d < l.hv
    ensures var own := |keys| - len + pos;
            var first := if l.window == 0 || own < l.window then 0 else own - l.window + 1;
            var total := Sum(HeadWeight(e, l, x, keys, head), first, own + 1) + SinkWeight(e, l, head);
            var out := DenseRow(e, l, x, pos, len, keys);
            && total > 0.0 && head < |out| && d < |out[head]|
            && out[head][d] == Sum(HeadTerm(e, l, x, keys, head, d), first, own + 1) / total
  {
    hide *;
    var p := RowQuery(l, x, pos, len, keys, head);
    var own := Own(len, pos, |keys|);
    var first := First(own, l.window);
    SeenRange(l, x, pos, len, keys);
    KeysSeen(l, x, pos, len, keys, head);
    SinkIs(e, l, x, pos, len, keys, head);
    OutputIs(e, l, x, pos, len, keys, head, d);
    WeightsAre(e, l, x, pos, len, keys, head, d);
    DenseIs(e, RefScores(p), RefValues(p), p.sink, |keys|, d, first, own + 1, HeadWeight(e, l, x, keys, head),
            HeadTerm(e, l, x, keys, head, d));
  }

  lemma SeenRange(l: Layer, x: HeadRow, pos: nat, len: nat, keys: seq<HeadKeys>)
    requires RowOk(l, x, pos, len, keys)
    ensures var own, first := Own(len, pos, |keys|), First(Own(len, pos, |keys|), l.window);
            && 0 <= first <= own < |keys| && own == |keys| - len + pos && l.Valid() && QueryOk(l, x)
            && first == if l.window == 0 || own < l.window then 0 else own - l.window + 1
  {
  }

  lemma KeysSeen(l: Layer, x: HeadRow, pos: nat, len: nat, keys: seq<HeadKeys>, head: nat)
    requires RowOk(l, x, pos, len, keys) && head < l.Heads()
    ensures forall j :: 0 <= j < |keys| ==>
              (RefScores(RowQuery(l, x, pos, len, keys, head))(j).Fin? <==>
                 First(Own(len, pos, |keys|), l.window) <= j < Own(len, pos, |keys|) + 1)
  {
    var p := RowQuery(l, x, pos, len, keys, head);
    forall j | 0 <= j < |keys|
      ensures RefScores(p)(j).Fin? <==> First(Own(len, pos, |keys|), l.window) <= j < Own(len, pos, |keys|) + 1
    {
      SeenIff(p, j);
      hide Dot, UnifiedAttention.Scale, Times;
    }
  }

  lemma SinkIs(e: Exponential, l: Layer, x: HeadRow, pos: nat, len: nat, keys: seq<HeadKeys>, head: nat)
    requires RowOk(l, x, pos, len, keys) && head < l.Heads()
    ensures Weight(e, RowQuery(l, x, pos, len, keys, head).sink) == SinkWeight(e, l, head)
  {
  }

  lemma OutputIs(e: Exponential, l: Layer, x: HeadRow, pos: nat, len: nat, keys: seq<HeadKeys>, head: nat, d: nat)
    requires RowOk(l, x, pos, len, keys) && head < l.Heads() && d < l.hv
    ensures var p := RowQuery(l, x, pos, len, keys, head);
            && Mass(e, RefScores(p), 0, |keys|) > 0.0 && head < |DenseRow(e, l, x, pos, len, keys)|
            && d < |DenseRow(e, l, x, pos, len, keys)[head]|
            && DenseRow(e, l, x, pos, len, keys)[head][d]
               == Dense(e, RefScores(p), RefValues(p), p.sink, |keys|, d)
  {
    var p := RowQuery(l, x, pos, len, keys, head);
    SeesItself(e, p);
    hide RefScores, RefValues, Dense, Mass;
    assert Attention(e, p, d) == Dense(e, RefScores(p), RefValues(p), p.sink, |keys|, d);
    hide Attention;
    assert DenseRow(e, l, x, pos, len, keys)[head] == DenseOut(e, p);
    assert DenseOut(e, p)[d] == Attention(e, p, d);
  }

  lemma WeightsAre(e: Exponential, l: Layer, x: HeadRow, pos: nat, len: nat, keys: seq<HeadKeys>, head: nat, d: nat)
    requires RowOk(l, x, pos, len, keys) && head < l.Heads() && d < l.hv
    ensures var p := RowQuery(l, x, pos, len, keys, head);
            var s, v := RefScores(p), RefValues(p);
            forall j :: First(Own(len, pos, |keys|), l.window) <= j <= Own(len, pos, |keys|) ==>
              && s(j).Fin? && HeadWeight(e, l, x, keys, head)(j) == e(s(j).x)
              && HeadTerm(e, l, x, keys, head, d)(j) == e(s(j).x) * v(j, d)
  {
    forall j | First(Own(len, pos, |keys|), l.window) <= j <= Own(len, pos, |keys|)
      ensures 0 <= j < |keys| && KeyOk(l, keys[j]) && head / l.gqa < l.kvHeads
      ensures RefScores(RowQuery(l, x, pos, len, keys, head))(j) == Fin(HeadScore(l, x, keys, head, j))
      ensures RefValues(RowQuery(l, x, pos, len, keys, head))(j, d) == l.vDescale * keys[j][head / l.gqa].v[d]
    {
      ScoreIs(l, x, pos, len, keys, head, j);
      hide HeadScore, RefScores, RefValues, First;
      ValueIs(l, x, pos, len, keys, head, j, d);
    }
    hide HeadScore, RefScores, RefValues, First;
  }

  // ----- what forward leaves

  /** Element d of a head of row x, at position `own` of its request: the softmax average of V over the keys it sees. */
  predicate IsAverage(e: Exponential, l: Layer, x: HeadRow, own: int, keys: seq<HeadKeys>, head: nat, d: nat, o: real)
    requires l.Valid() && QueryOk(l, x) && head < l.Heads() && d < l.hv
  {
    var first := if l.window == 0 || own < l.window then 0 else own - l.window + 1;
    var total := Sum(HeadWeight(e, l, x, keys, head), first, own + 1) + SinkWeight(e, l, head);
    total > 0.0 && o == Sum(HeadTerm(e, l, x, keys, head, d), first, own + 1) / total
  }

  /** After forward, each element of each output row is the softmax average over the keys its row sees: those of its own
      request up to the row's own position. */
  lemma ForwardIs(e: Exponential, k: Forwarding.Knobs, l: Layer, m: Backend.Meta,
                  c: Backend.Cache<CachedRows.CachedRow, HeadKeys>, width: nat, q: seq<HeadRow>, out: seq<HeadRow>,
                  i: nat, row: nat, head: nat, d: nat)
    requires Forwarding.Served(k, l, m, c, width) && Forwarding.QueriesOk(l, q) && |q| == |out| == m.Tokens()
    requires Backend.Attended(m, c, DenseAttend(e, Forwarding.Descaled(k, l, Forwarding.Direct)), q, out)
    requires Backend.InRequest(m, i, row) && head < l.Heads() && d < l.hv
    ensures row < |out| && head < |out[row]| && d < |out[row][head]|
    ensures var used := Forwarding.Descaled(k, l, Forwarding.Direct);
            var keys := Backend.Keys(c, m.tables[i], m.seqLens[i]);
            && used.Valid() && QueryOk(used, q[row])
            && IsAverage(e, used, q[row], m.seqLens[i] - m.QueryLen(i) + (row - m.offsets[i]), keys, head, d,
                         out[row][head][d])
  {
    hide *;
    var used := Forwarding.Descaled(k, l, Forwarding.Direct);
    Forwarding.ServedRuns(k, l, m, c, width);
    UsedServes(k, l, m, c, width, q);
    RowFitsUsed(k, used, m, c, width, q, i, row);
    RowDense(used, e, m, c, q, out, i, row);
    AverageIs(e, used, q[row], row - m.offsets[i], m.QueryLen(i), Backend.Keys(c, m.tables[i], m.seqLens[i]), head, d);
  }

  lemma UsedServes(k: Forwarding.Knobs, l: Layer, m: Backend.Meta, c: Backend.Cache<CachedRows.CachedRow, HeadKeys>,
                   width: nat, q: seq<HeadRow>)
    requires Forwarding.Served(k, l, m, c, width) && Forwarding.QueriesOk(l, q)
    ensures var used := Forwarding.Descaled(k, l, Forwarding.Direct);
            && Forwarding.Served(k, used, m, c, width) && Forwarding.QueriesOk(used, q)
            && used.Heads() == l.Heads() && used.hv == l.hv
  {
    Forwarding.DescaledServed(k, l, Forwarding.Direct, m, c, width, q);
    hide Forwarding.Served, Forwarding.QueriesOk;
  }

  lemma RowFitsUsed(k: Forwarding.Knobs, l: Layer, m: Backend.Meta, c: Backend.Cache<CachedRows.CachedRow, HeadKeys>,
                    width: nat, q: seq<HeadRow>, i: nat, row: nat)
    requires Forwarding.Served(k, l, m, c, width) && Forwarding.QueriesOk(l, q) && |q| == m.Tokens()
    requires m.Valid() && Backend.MetaReadable(m, c) && Backend.InRequest(m, i, row)
    ensures i + 1 < |m.offsets| && i < |m.tables| == |m.seqLens|
    ensures row < |q| && Backend.Readable(c, m.tables[i], m.seqLens[i])
    ensures row >= m.offsets[i] && m.QueryLen(i) >= 0
    ensures RowOk(l, q[row], row - m.offsets[i], m.QueryLen(i), Backend.Keys(c, m.tables[i], m.seqLens[i]))
    ensures |Backend.Keys(c, m.tables[i], m.seqLens[i])| == m.seqLens[i] && l.Valid() && QueryOk(l, q[row])
  {
    Backend.RequestRow(m, i, row);
    Forwarding.ServedFits(k, l, m, c, width, q);
    hide Forwarding.Served, KeyOk, QueryOk;
    assert Triton.RequestFits(l, m, c, i);
  }

  lemma RowDense(l: Layer, e: Exponential, m: Backend.Meta, c: Backend.Cache<CachedRows.CachedRow, HeadKeys>,
                 q: seq<HeadRow>, out: seq<HeadRow>, i: nat, row: nat)
    requires m.Valid() && Backend.MetaReadable(m, c) && |q| == |out| == m.Tokens() && Backend.InRequest(m, i, row)
    requires Backend.Attended(m, c, DenseAttend(e, l), q, out) && row < |q|
    requires row >= m.offsets[i] && m.QueryLen(i) >= 0 && Backend.Readable(c, m.tables[i], m.seqLens[i])
    requires RowOk(l, q[row], row - m.offsets[i], m.QueryLen(i), Backend.Keys(c, m.tables[i], m.seqLens[i]))
    ensures out[row] == DenseRow(e, l, q[row], row - m.offsets[i], m.QueryLen(i),
                                 Backend.Keys(c, m.tables[i], m.seqLens[i]))
  {
    assert Backend.RowDone(m, c, DenseAttend(e, l), q, i, row, out[row]);
    hide DenseRow, RowOk, Backend.Keys, Backend.Attended;
  }

  lemma AverageIs(e: Exponential, l: Layer, x: HeadRow, pos: nat, len: nat, keys: seq<HeadKeys>, head: nat, d: nat)
    requires RowOk(l, x, pos, len, keys) && head < l.Heads() && d < l.hv
    ensures l.Valid() && QueryOk(l, x)
    ensures var out := DenseRow(e, l, x, pos, len, keys);
            && head < |out| && d < |out[head]|
            && IsAverage(e, l, x, |keys| - len + pos, keys, head, d, out[head][d])
  {
    RowIs(e, l, x, pos, len, keys, head, d);
    hide DenseRow, Sum, HeadWeight, HeadTerm, SinkWeight;
  }
}
