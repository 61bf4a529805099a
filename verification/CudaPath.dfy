/** The custom prefill path of a partition: the CUDA kernel on the host-built q-blocks. */
module CudaPath {
  import opened Softmax
  import opened UnifiedAttention
  import opened Launch2D
  import opened DiffKvBackend
  import opened ModelRows
  import opened TritonPath
  import opened CachedRows
  import opened IndexMath
  import PrefillKernel
  import TileRing

  /** The only layers the kernel is built for: global, 2 KV heads of 16 query heads, no sink, softcap or ALiBi. */
  predicate Supported(l: Layer)
  {
    && l.kvHeads == 2 && l.gqa == 16 && l.hqk == PrefillKernel.DK && l.hv == PrefillKernel.DV
    && l.window == 0 && l.sinks == [] && l.bias.Plain?
  }

  /** The cache holds numbers of the layer's shape wherever the block tables lead. */
  ghost predicate HoldsNumbers(l: Layer, m: Meta, c: Cache<CachedRow, HeadKeys>)
    requires m.Valid() && MetaReadable(m, c)
  {
    && (forall r: CachedRow {:trigger c.decode(r)} :: c.decode(r) == Decode(l, r))
    && forall i: nat, j: nat :: i < m.Reqs() && j < m.seqLens[i] ==> NumbersAt(l, c, m.tables[i], j)
  }

  predicate NumbersAt(l: Layer, c: Cache<CachedRow, HeadKeys>, table: seq<int>, j: nat)
    requires c.block > 0 && Names(c, table, j)
  {
    var r := c.pages[table[j / c.block]][j % c.block];
    r.Numbers? && Stored(l, r)
  }

  function HeadPages(c: Cache<CachedRow, HeadKeys>, kvHead: nat): (pages: seq<seq<seq<real>>>)
    ensures |pages| == |c.pages|
    ensures forall p :: 0 <= p < |pages| ==> |pages[p]| == |c.pages[p]|
    ensures forall p, t :: 0 <= p < |pages| && 0 <= t < |pages[p]| ==> pages[p][t] == HeadRowOf(c.pages[p][t], kvHead)
  {
    seq(|c.pages|, p requires 0 <= p < |c.pages| =>
      seq(|c.pages[p]|, t requires 0 <= t < |c.pages[p]| => HeadRowOf(c.pages[p][t], kvHead)))
  }

  function HeadRowOf(r: CachedRow, kvHead: nat): seq<real>
  {
    if r.Numbers? && kvHead < |r.heads| then r.heads[kvHead] else []
  }

  function Table(t: seq<int>): (r: seq<nat>)
    ensures |r| == |t| && forall k :: 0 <= k < |t| && t[k] >= 0 ==> r[k] == t[k]
  {
    seq(|t|, k requires 0 <= k < |t| => if t[k] >= 0 then t[k] else 0)
  }

  /** The CTA of one q-block, seen from one query head: its request's query rows and its KV head's pages. */
  function CtaOf(l: Layer, m: Meta, c: Cache<CachedRow, HeadKeys>, q: seq<HeadRow>, i: nat, first: nat,
                 head: nat): PrefillKernel.Cta
    requires |m.offsets| == m.Reqs() + 1 == |m.tables| + 1 && l.gqa > 0 && InRequest(m, i, first)
  {
    var rows := if m.offsets[i + 1] <= |q| then q[m.offsets[i]..m.offsets[i + 1]] else [];
    PrefillKernel.Cta(seq(|rows|, t requires 0 <= t < |rows| => if head < |rows[t]| then rows[t][head] else []),
                      PrefillKernel.Cache(HeadPages(c, head / l.gqa), Table(m.tables[i]), c.block), m.seqLens[i],
                      first - m.offsets[i], l.scale, l.kDescale, l.vDescale)
  }

  lemma CtaValid(l: Layer, m: Meta, c: Cache<CachedRow, HeadKeys>, q: seq<HeadRow>, i: nat, first: nat, head: nat)
    requires m.Valid() && MetaReadable(m, c) && Fits(l, m, c, q) && HoldsNumbers(l, m, c) && Supported(l)
    requires InRequest(m, i, first) && head < l.Heads()
    ensures var a := CtaOf(l, m, c, q, i, first, head);
            && m.offsets[i + 1] <= |q| && |a.q| == m.QueryLen(i) && a.first == first - m.offsets[i] && a.Valid()
            && forall t: nat :: t < |a.q| ==> a.q[t] == q[m.offsets[i] + t][head]
  {
    RowFits(l, m, c, q, i, first);
    KvHead(l, head);
    var a := CtaOf(l, m, c, q, i, first, head);
    forall t: nat | t < |a.q|
      ensures a.q[t] == q[m.offsets[i] + t][head] && |a.q[t]| == l.hqk
    {
      assert QueryOk(l, q[m.offsets[i] + t]);
    }
    forall j: nat | j < a.seqLen
      ensures a.cache.HoldsKey(j)
    {
      HeadHolds(l, m, c, i, j, head);
    }
  }

  lemma HeadHolds(l: Layer, m: Meta, c: Cache<CachedRow, HeadKeys>, i: nat, j: nat, head: nat)
    requires m.Valid() && MetaReadable(m, c) && HoldsNumbers(l, m, c) && Supported(l) && head / l.gqa < l.kvHeads
    requires i < m.Reqs() && j < m.seqLens[i]
    ensures Names(c, m.tables[i], j) && |KeyAt(c, m.tables[i], j)| == l.kvHeads
    ensures var kernel := PrefillKernel.Cache(HeadPages(c, head / l.gqa), Table(m.tables[i]), c.block);
            && kernel.HoldsKey(j)
            && Key(kernel.pages[kernel.table[j / c.block]][j % c.block][..PrefillKernel.DK],
                   kernel.pages[kernel.table[j / c.block]][j % c.block][PrefillKernel.DK..])
               == KeyAt(c, m.tables[i], j)[head / l.gqa]
  {
    assert Readable(c, m.tables[i], m.seqLens[i]);
    assert Names(c, m.tables[i], j);
    assert NumbersAt(l, c, m.tables[i], j);
  }

  /** The kernel's reference row is the backend's: the same vector, keys, scale and position. */
  lemma CtaRow(l: Layer, m: Meta, c: Cache<CachedRow, HeadKeys>, q: seq<HeadRow>, i: nat, first: nat, head: nat,
               row: nat)
    requires m.Valid() && MetaReadable(m, c) && Fits(l, m, c, q) && HoldsNumbers(l, m, c) && Supported(l)
    requires InRequest(m, i, first) && InRequest(m, i, row) && head < l.Heads()
    ensures var a := CtaOf(l, m, c, q, i, first, head);
            && a.Valid() && row - m.offsets[i] < |a.q| && a.Row(row - m.offsets[i]) == RowAt(l, m, c, q, row, head)
            && a.Row(row - m.offsets[i]).Valid()
  {
    CtaValid(l, m, c, q, i, first, head);
    RowAtIs(l, m, c, q, i, row, head);
    KvHead(l, head);
    var a := CtaOf(l, m, c, q, i, first, head);
    var have, want := a.Row(row - m.offsets[i]), RowAt(l, m, c, q, row, head);
    assert |have.keys| == |want.keys|;
    forall j: nat | j < |have.keys|
      ensures have.keys[j] == want.keys[j]
    {
      HeadHolds(l, m, c, i, j, head);
    }
    assert have.keys == want.keys;
  }

  /** The tiles a warp saw in some finished interleaving of its CTA. */
  ghost predicate Executed(a: PrefillKernel.Cta, w: nat, seen: seq<map<nat, seq<real>>>)
  {
    a.Valid() && exists run :: Finished(a, w, seen, run)
  }

  ghost predicate Finished(a: PrefillKernel.Cta, w: nat, seen: seq<map<nat, seq<real>>>,
                           run: seq<TileRing.State<seq<real>>>)
    requires a.Valid()
  {
    && TileRing.Run(run, a.Source(), a.Tiles()) && w < |run[|run| - 1].warps|
    && TileRing.Done(run[|run| - 1].warps[w], a.Tiles()) && seen == run[|run| - 1].warps[w].seen
  }

  /** What each warp of each CTA saw: any interleaving of the eight warps, whatever it was. */
  type Sight = (PrefillKernel.Cta, nat) -> seq<map<nat, seq<real>>>

  ghost predicate Faithful(sight: Sight)
  {
    forall a: PrefillKernel.Cta, w: nat :: a.Valid() && w < TileRing.WARPS ==> Executed(a, w, sight(a, w))
  }

  /** One warp's output for one head: dense attention of its row. */
  method WarpHead(exp2: Exponential, l: Layer, m: Meta, c: Cache<CachedRow, HeadKeys>, q: seq<HeadRow>, sight: Sight,
                  i: nat, first: nat, w: nat, head: nat) returns (out: seq<real>)
    requires m.Valid() && MetaReadable(m, c) && Fits(l, m, c, q) && HoldsNumbers(l, m, c) && Supported(l)
             && Faithful(sight)
    requires InRequest(m, i, first) && InRequest(m, i, first + w) && w < TileRing.WARPS && head < l.Heads()
    ensures Correct(PrefillKernel.Natural(exp2), RowAt(l, m, c, q, first + w, head), out)
  {
    ghost var run := WarpSetup(l, m, c, q, sight, i, first, w, head);
    hide *;
    var a := CtaOf(l, m, c, q, i, first, head);
    out := PrefillKernel.FinishWarp(exp2, a, run, w, sight(a, w));
    IsCorrect(PrefillKernel.Natural(exp2), a.Row(a.first + w), out);
  }

  /** The warp's CTA, its row and an interleaving that left the tiles it saw. */
  lemma WarpSetup(l: Layer, m: Meta, c: Cache<CachedRow, HeadKeys>, q: seq<HeadRow>, sight: Sight, i: nat, first: nat,
                  w: nat, head: nat)
    returns (run: seq<TileRing.State<seq<real>>>)
    requires m.Valid() && MetaReadable(m, c) && Fits(l, m, c, q) && HoldsNumbers(l, m, c) && Supported(l)
             && Faithful(sight)
    requires InRequest(m, i, first) && InRequest(m, i, first + w) && w < TileRing.WARPS && head < l.Heads()
    ensures var a := CtaOf(l, m, c, q, i, first, head);
            && a.Valid() && a.first + w < |a.q| && a.Row(a.first + w).Valid()
            && a.Row(a.first + w) == RowAt(l, m, c, q, first + w, head)
            && TileRing.Run(run, a.Source(), a.Tiles()) && w < |run[|run| - 1].warps|
            && TileRing.Done(run[|run| - 1].warps[w], a.Tiles()) && sight(a, w) == run[|run| - 1].warps[w].seen
  {
    hide Fits, HoldsNumbers, Supported, Faithful, MetaReadable;
    var a := CtaOf(l, m, c, q, i, first, head);
    hide *;
    CtaValid(l, m, c, q, i, first, head);
    CtaRow(l, m, c, q, i, first, head, first + w);
    run := SomeRun(a, w, sight);
  }

  lemma SomeRun(a: PrefillKernel.Cta, w: nat, sight: Sight) returns (run: seq<TileRing.State<seq<real>>>)
    requires a.Valid() && w < TileRing.WARPS && Faithful(sight)
    ensures TileRing.Run(run, a.Source(), a.Tiles())
    ensures var last := run[|run| - 1];
            w < |last.warps| && TileRing.Done(last.warps[w], a.Tiles()) && sight(a, w) == last.warps[w].seen
  {
    assert Executed(a, w, sight(a, w));
    run :| Finished(a, w, sight(a, w), run);
  }

  lemma IsCorrect(e: Exponential, p: Query, out: seq<real>)
    requires p.Valid() && |out| == p.headSizeV && forall d :: 0 <= d < p.headSizeV ==> out[d] == Attention(e, p, d)
    ensures Correct(e, p, out)
  {
  }

  /** Row `row` of request i holds dense attention in every head. */
  ghost predicate DenseDone(e: Exponential, l: Layer, m: Meta, c: Cache<CachedRow, HeadKeys>, q: seq<HeadRow>, i: nat,
                            row: nat, o: HeadRow)
    requires m.Valid() && MetaReadable(m, c) && InRequest(m, i, row) && |q| == m.Tokens()
  {
    RowDone(m, c, DenseAttend(e, l), q, i, row, o)
  }

  /** All heads of one warp's row. */
  method WarpHeads(exp2: Exponential, l: Layer, m: Meta, c: Cache<CachedRow, HeadKeys>, q: seq<HeadRow>, sight: Sight,
                   i: nat, first: nat, w: nat) returns (o: HeadRow)
    requires m.Valid() && MetaReadable(m, c) && Fits(l, m, c, q) && HoldsNumbers(l, m, c) && Supported(l)
             && Faithful(sight)
    requires InRequest(m, i, first) && InRequest(m, i, first + w) && w < TileRing.WARPS
    ensures DenseDone(PrefillKernel.Natural(exp2), l, m, c, q, i, first + w, o)
  {
    ghost var e := PrefillKernel.Natural(exp2);
    hide Fits, HoldsNumbers, Supported, Faithful, Correct, RowAt;
    o := [];
    var head := 0;
    while head < l.Heads()
      invariant 0 <= head <= l.Heads() && |o| == head
      invariant forall h: nat :: h < head ==> Correct(e, RowAt(l, m, c, q, first + w, h), o[h])
    {
      var out := WarpHead(exp2, l, m, c, q, sight, i, first, w, head);
      o := o + [out];
      head := head + 1;
    }
    OutputRow(e, l, m, c, q, o, i, first + w);
  }

  /** One q-block: warp w owns row first + w, if the request has it, and all query heads of it. */
  method RunBlock(exp2: Exponential, l: Layer, m: Meta, c: Cache<CachedRow, HeadKeys>, q: seq<HeadRow>, sight: Sight,
                  output: array<HeadRow>, start: nat, i: nat, first: nat)
    requires m.Valid() && MetaReadable(m, c) && Fits(l, m, c, q) && HoldsNumbers(l, m, c) && Supported(l)
             && Faithful(sight)
    requires start + m.Tokens() <= output.Length && InRequest(m, i, first)
    modifies output
    ensures KeptOutside(old(output[..]), output[..], start, m, (i, first))
    ensures BlockDone(m, c, DenseAttend(PrefillKernel.Natural(exp2), l), q, output[..], start, (i, first))
  {
    RequestRow(m, i, first);
    var outs := BlockOutputs(exp2, l, m, c, q, sight, i, first);
    BlockRows(m, i, first);
    assert |q| == m.Tokens();
    ghost var before := output[..];
    hide Fits, HoldsNumbers, Supported, Faithful, MetaReadable, DenseDone, Meta.Valid, Covers, InRequest,
         PrefillKernel.Natural;
    forall w | 0 <= w < |outs| {
      output[start + first + w] := outs[w];
    }
    BlockStored(PrefillKernel.Natural(exp2), l, m, c, q, outs, before, output[..], start, i, first);
  }

  /** Storing a block's outputs at its rows finishes the block and nothing else. */
  lemma BlockStored(e: Exponential, l: Layer, m: Meta, c: Cache<CachedRow, HeadKeys>, q: seq<HeadRow>,
                    outs: seq<HeadRow>, before: seq<HeadRow>, after: seq<HeadRow>, start: nat, i: nat, first: nat)
    requires m.Valid() && MetaReadable(m, c) && |q| == m.Tokens() && start + m.Tokens() <= |before| == |after|
    requires InRequest(m, i, first) && |outs| == Min(8, m.offsets[i + 1] - first)
    requires forall row: nat :: Covers(m.offsets, (i, first), row) ==>
               InRequest(m, i, row) && DenseDone(e, l, m, c, q, i, row, outs[row - first])
    requires forall k :: 0 <= k < |after| ==>
               after[k] == if start + first <= k < start + first + |outs| then outs[k - start - first] else before[k]
    ensures KeptOutside(before, after, start, m, (i, first))
    ensures BlockDone(m, c, DenseAttend(e, l), q, after, start, (i, first))
  {
    BlockRows(m, i, first);
    hide MetaReadable, RowDone, Meta.Valid, InRequest, DenseAttend;
    forall row: nat | Covers(m.offsets, (i, first), row)
      ensures InRequest(m, i, row) && row < m.Tokens()
              && RowDone(m, c, DenseAttend(e, l), q, i, row, after[start + row])
    {
      assert DenseDone(e, l, m, c, q, i, row, outs[row - first]);
    }
  }

  /** The outputs of the warps that have a row, in order. */
  method BlockOutputs(exp2: Exponential, l: Layer, m: Meta, c: Cache<CachedRow, HeadKeys>, q: seq<HeadRow>,
                      sight: Sight, i: nat, first: nat) returns (outs: seq<HeadRow>)
    requires m.Valid() && MetaReadable(m, c) && Fits(l, m, c, q) && HoldsNumbers(l, m, c) && Supported(l)
             && Faithful(sight)
    requires InRequest(m, i, first)
    ensures |outs| == Min(8, m.offsets[i + 1] - first)
    ensures forall row: nat :: Covers(m.offsets, (i, first), row) ==>
              InRequest(m, i, row) && DenseDone(PrefillKernel.Natural(exp2), l, m, c, q, i, row, outs[row - first])
  {
    ghost var e := PrefillKernel.Natural(exp2);
    var n := Min(8, m.offsets[i + 1] - first);
    assert |q| == m.Tokens();
    BlockRows(m, i, first);
    hide Fits, HoldsNumbers, Supported, Faithful, MetaReadable, DenseDone, Meta.Valid, Covers, Min,
         PrefillKernel.Natural;
    outs := [];
    var w := 0;
    while w < n
      invariant 0 <= w == |outs| <= n
      invariant forall row: nat :: first <= row < first + w ==>
                  InRequest(m, i, row) && DenseDone(e, l, m, c, q, i, row, outs[row - first])
    {
      assert Covers(m.offsets, (i, first), first + w);
      var o := WarpHeads(exp2, l, m, c, q, sight, i, first, w);
      ghost var before := outs;
      outs := outs + [o];
      forall row: nat | first <= row < first + w + 1
        ensures InRequest(m, i, row) && DenseDone(e, l, m, c, q, i, row, outs[row - first])
      {
        if row == first + w {
          assert outs[row - first] == o;
        } else {
          assert outs[row - first] == before[row - first];
        }
      }
      w := w + 1;
    }
  }

  lemma BlockRows(m: Meta, i: nat, first: nat)
    requires m.Valid() && InRequest(m, i, first)
    ensures forall row: nat :: first <= row < first + Min(8, m.offsets[i + 1] - first) <==>
              Covers(m.offsets, (i, first), row)
    ensures forall row: nat :: Covers(m.offsets, (i, first), row) ==> InRequest(m, i, row) && row < m.Tokens()
    ensures first + Min(8, m.offsets[i + 1] - first) <= m.Tokens()
  {
  }

  /** The kernel over all q-blocks the host built from the suffix's offsets. */
  method RunCustom(exp2: Exponential, l: Layer, m: Meta, c: Cache<CachedRow, HeadKeys>, q: seq<HeadRow>, sight: Sight,
                   hostOffsets: seq<nat>, output: array<HeadRow>, start: nat)
    requires m.Valid() && MetaReadable(m, c) && Fits(l, m, c, q) && HoldsNumbers(l, m, c) && Supported(l)
             && Faithful(sight)
    requires start + m.Tokens() <= output.Length && hostOffsets == m.offsets
    modifies output
    ensures OthersKept(output, start, m.Tokens())
    ensures Attended(m, c, DenseAttend(PrefillKernel.Natural(exp2), l), q, output[start..start + m.Tokens()])
  {
    ghost var attend, before := DenseAttend(PrefillKernel.Natural(exp2), l), output[..];
    assert |q| == m.Tokens();
    var seqs, starts := PfQblocks(hostOffsets, m.Reqs());
    ghost var blocks := AllBlocks(m.offsets, m.Reqs());
    BlocksInsideRequests(m.offsets, m.Reqs());
    assert forall a :: 0 <= a < |blocks| ==> InRequest(m, blocks[a].0, blocks[a].1);
    hide Fits, HoldsNumbers, Supported, Faithful, MetaReadable, BlockDone, KeptOutside, BlocksDone;
    NoBlocksDone(m, c, attend, q, before, start, blocks);
    var b := 0;
    while b < |seqs|
      invariant 0 <= b <= |seqs|
      invariant BlocksDone(m, c, attend, q, before, output[..], start, blocks, b)
    {
      assert blocks[b] == (seqs[b], starts[b]);
      ghost var mid := output[..];
      RunBlock(exp2, l, m, c, q, sight, output, start, seqs[b], starts[b]);
      OneMoreBlock(m, c, attend, q, before, mid, output[..], start, blocks, b);
      b := b + 1;
    }
    AllBlocksDone(m, c, attend, q, before, output[..], start);
  }
}
