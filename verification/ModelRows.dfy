/** One attention layer as the backend sees it: query rows and cached rows of all heads, and their dense attention. */
module ModelRows {
  import opened Softmax
  import opened UnifiedAttention
  import opened Launch2D
  import opened DiffKvBackend
  import IndexMath

  /** Softcap and ALiBi of a layer: none, or one function per query head. */
  datatype Bias = Plain | PerHead(f: nat -> (int, real) -> real)

  /** A layer's shape and attention options; `sinks` is empty when it has none, `window` 0 when it is global. */
  datatype Layer = Layer(kvHeads: nat, gqa: nat, hqk: nat, hv: nat, scale: real, kDescale: real, vDescale: real,
                         bias: Bias, sinks: seq<Logit>, window: nat)
  {
    predicate Valid() { kvHeads > 0 && gqa > 0 }

    function Heads(): nat { kvHeads * gqa }

    function BiasOf(head: nat): (int, real) -> real { if bias.Plain? then NoBias else bias.f(head) }

    function SinkOf(head: nat): Logit { if head < |sinks| then sinks[head] else NegInf }
  }

  /** One vector per query head. */
  type HeadRow = seq<seq<real>>

  /** One key per KV head. */
  type HeadKeys = seq<Key>

  predicate QueryOk(l: Layer, x: HeadRow) { |x| == l.Heads() && forall h :: 0 <= h < |x| ==> |x[h]| == l.hqk }

  predicate KeyOk(l: Layer, k: HeadKeys)
  {
    |k| == l.kvHeads && forall h :: 0 <= h < |k| ==> |k[h].k| == l.hqk && |k[h].v| == l.hv
  }

  predicate RowOk(l: Layer, x: HeadRow, pos: nat, len: nat, keys: seq<HeadKeys>)
  {
    l.Valid() && QueryOk(l, x) && pos < len <= |keys| && forall j :: 0 <= j < |keys| ==> KeyOk(l, keys[j])
  }

  lemma KvHead(l: Layer, head: nat)
    requires l.Valid() && head < l.Heads()
    ensures head / l.gqa < l.kvHeads
  {
    IndexMath.FlatOf(head, l.kvHeads, l.gqa);
  }

  /** The query row of one head: its own vector against the keys of its KV head. */
  function RowQuery(l: Layer, x: HeadRow, pos: nat, len: nat, keys: seq<HeadKeys>, head: nat): (p: Query)
    requires RowOk(l, x, pos, len, keys) && head < l.Heads()
    ensures p.Valid() && p.queryPos == pos && p.queryLen == len && p.headSizeV == l.hv && |p.keys| == |keys|
  {
    KvHead(l, head);
    Query(x[head], seq(|keys|, j requires 0 <= j < |keys| => keys[j][head / l.gqa]), l.hv, l.scale, l.kDescale,
          l.vDescale,
          l.BiasOf(head), l.SinkOf(head), l.window, len, pos)
  }

  /** Dense attention of one row of one head. */
  function DenseOut(e: Exponential, p: Query): (o: seq<real>)
    requires p.Valid()
    ensures Correct(e, p, o)
  {
    seq(p.headSizeV, d requires 0 <= d < p.headSizeV => Attention(e, p, d))
  }

  lemma CorrectIsDense(e: Exponential, p: Query, o: seq<real>)
    requires Correct(e, p, o)
    ensures o == DenseOut(e, p)
  {
  }

  /** Dense attention of one row, all heads. */
  function DenseRow(e: Exponential, l: Layer, x: HeadRow, pos: nat, len: nat, keys: seq<HeadKeys>): (o: HeadRow)
    requires RowOk(l, x, pos, len, keys)
    ensures |o| == l.Heads() && forall h :: 0 <= h < |o| ==> o[h] == DenseOut(e, RowQuery(l, x, pos, len, keys, h))
  {
    seq(l.Heads(), h requires 0 <= h < l.Heads() => DenseOut(e, RowQuery(l, x, pos, len, keys, h)))
  }

  /** The layer's attention as the backend's parameter. */
  function DenseAttend(e: Exponential, l: Layer): Attend<HeadRow, HeadKeys, HeadRow>
  {
    (x: HeadRow, pos: nat, len: nat, keys: seq<HeadKeys>) =>
      if RowOk(l, x, pos, len, keys) then DenseRow(e, l, x, pos, len, keys) else []
  }
}
