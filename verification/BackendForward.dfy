/** The backend's forward pass: the partitions one after another, each by the path its layer and sizes call for. */
module BackendForward {
  import opened Softmax
  import opened IndexMath
  import opened UnifiedAttention
  import opened Launch2D
  import opened DiffKvBackend
  import opened ModelRows
  import opened TritonPath
  import opened CachedRows
  import opened CudaPath
  import PrefillKernel
  import SplitKv

  /** Thresholds of the two prefill paths, and the form of the cache. */
  datatype Knobs = Knobs(pfMinQ: nat, dqMinQ: nat, dqMaxBytes: nat, nvfp4: bool, quantized: bool)

  datatype Path = Custom | Dequantized | Direct

  function ChoosePath(k: Knobs, l: Layer, m: Meta, block: nat, width: nat, last: bool): Path
    requires block > 0
  {
    if k.pfMinQ > 0 && !k.nvfp4 && m.maxQueryLen >= k.pfMinQ && Supported(l) && last then Custom
    else if k.nvfp4 && k.dqMinQ > 0 && m.maxQueryLen >= k.dqMinQ && l.window == 0
            && m.Reqs() * UsedWidth(m, block, width) * block * l.kvHeads * (l.hqk + l.hv) * 2 <= k.dqMaxBytes
                 then Dequantized
    else Direct
  }

  /** Which path a partition takes. The custom kernel: long enough partitions at the end of the batch, over a cache of
      numbers, of a global layer of 32 query and 2 KV heads of 192 and 128 elements without sinks, softcap and ALiBi.
      The scratch: long enough NVFP4 partitions of a global layer whose touched blocks, at 16 bits an element, fit the
      cap. Any other goes to the generic kernel. */
  lemma PathIff(k: Knobs, l: Layer, m: Meta, block: nat, width: nat, last: bool)
    requires m.Valid() && block > 0
    ensures ChoosePath(k, l, m, block, width, last).Custom? <==>
              && 0 < k.pfMinQ <= m.maxQueryLen && !k.nvfp4 && last
              && l.window == 0 && l.Heads() == 32 && l.kvHeads == 2 && l.hqk == 192 && l.hv == 128
              && l.sinks == [] && l.bias == Plain
    ensures ChoosePath(k, l, m, block, width, last).Dequantized? <==>
              && 0 < k.dqMinQ <= m.maxQueryLen && k.nvfp4 && l.window == 0
              && |SourceBlocks(m.tables, UsedWidth(m, block, width))| * block * (l.kvHeads * (l.hqk + l.hv)) * 2
                 <= k.dqMaxBytes
  {
    var n := |SourceBlocks(m.tables, UsedWidth(m, block, width))|;
    assert n == m.Reqs() * UsedWidth(m, block, width);
    assert n * block * (l.kvHeads * (l.hqk + l.hv)) * 2 == n * block * l.kvHeads * (l.hqk + l.hv) * 2;
    hide UsedWidth;
  }

  /** The scratch path is taken only by long NVFP4 partitions whose dequantized blocks fit the size cap. */
  lemma ScratchWithinCap(k: Knobs, l: Layer, m: Meta, block: nat, width: nat, last: bool)
    requires m.Valid() && block > 0 && ChoosePath(k, l, m, block, width, last).Dequantized?
    ensures |SourceBlocks(m.tables, UsedWidth(m, block, width))| * block * l.kvHeads * (l.hqk + l.hv) * 2
            <= k.dqMaxBytes
    ensures k.nvfp4 && 0 < k.dqMinQ <= m.maxQueryLen
  {
    assert |SourceBlocks(m.tables, UsedWidth(m, block, width))| == m.Reqs() * UsedWidth(m, block, width);
  }

  /** The descales a path's kernel applies: the layer's own over a quantized cache of numbers, 1 otherwise. The custom
      kernel is handed 1 for an unquantized cache, the generic one ignores what it is handed, and NVFP4 rows decode with
      their own scales. */
  function Descaled(k: Knobs, l: Layer, path: Path): Layer
  {
    var used := match path case Custom => k.quantized case Dequantized => false case Direct => k.quantized && !k.nvfp4;
    if used then l else l.(kDescale := 1.0, vDescale := 1.0)
  }

  /** Whatever the path, the kernel computes the same attention: with the layer's own descales over a quantized cache of
      numbers, without any otherwise. */
  lemma SameDescales(k: Knobs, l: Layer, m: Meta, block: nat, width: nat, last: bool)
    requires block > 0
    ensures Descaled(k, l, ChoosePath(k, l, m, block, width, last)) == Descaled(k, l, Direct)
            == if k.quantized && !k.nvfp4 then l else l.(kDescale := 1.0, vDescale := 1.0)
  {
  }

  // ----- what the batch must hold

  /** Requests end at their last query row, and every cached token they name is stored in the layer's form. */
  ghost predicate Served(k: Knobs, l: Layer, m: Meta, c: Cache<CachedRow, HeadKeys>, width: nat)
  {
    && l.Valid() && Runnable(m, c, width)
    && (forall r: CachedRow {:trigger c.decode(r)} :: c.decode(r) == Decode(l, r))
    && forall i: nat :: i < m.Reqs() ==> RequestServed(k, l, m, c, i)
  }

  ghost predicate RequestServed(k: Knobs, l: Layer, m: Meta, c: Cache<CachedRow, HeadKeys>, i: nat)
    requires m.Valid() && MetaReadable(m, c) && i < m.Reqs()
  {
    m.QueryLen(i) <= m.seqLens[i] && forall j: nat :: j < m.seqLens[i] ==> StoredAt(k, l, c, m.tables[i], j)
  }

  predicate StoredAt(k: Knobs, l: Layer, c: Cache<CachedRow, HeadKeys>, table: seq<int>, j: nat)
  {
    && c.block > 0 && Names(c, table, j)
    && var r := c.pages[table[j / c.block]][j % c.block];
       r.Packed? == k.nvfp4 && Stored(l, r)
  }

  predicate QueriesOk(l: Layer, q: seq<HeadRow>) { forall row :: 0 <= row < |q| ==> QueryOk(l, q[row]) }

  lemma ServedFits(k: Knobs, l: Layer, m: Meta, c: Cache<CachedRow, HeadKeys>, width: nat, q: seq<HeadRow>)
    requires Served(k, l, m, c, width) && QueriesOk(l, q) && |q| == m.Tokens()
    ensures m.Valid() && MetaReadable(m, c) && Fits(l, m, c, q)
  {
    forall i: nat | i < m.Reqs()
      ensures RequestFits(l, m, c, i)
    {
      assert RequestServed(k, l, m, c, i) && Readable(c, m.tables[i], m.seqLens[i]);
      forall j: nat | j < m.seqLens[i]
        ensures KeyOk(l, KeyAt(c, m.tables[i], j))
      {
        assert StoredAt(k, l, c, m.tables[i], j);
        hide KeyOk, Stored, Decode;
      }
    }
  }

  lemma ServedHolds(k: Knobs, l: Layer, m: Meta, c: Cache<CachedRow, HeadKeys>, width: nat)
    requires Served(k, l, m, c, width) && !k.nvfp4
    ensures m.Valid() && MetaReadable(m, c) && HoldsNumbers(l, m, c)
  {
    hide Stored, Decode;
    forall i: nat, j: nat | i < m.Reqs() && j < m.seqLens[i]
      ensures c.block > 0 && Names(c, m.tables[i], j) && NumbersAt(l, c, m.tables[i], j)
    {
      assert RequestServed(k, l, m, c, i);
      assert StoredAt(k, l, c, m.tables[i], j);
    }
  }

  /** Changing the descales changes nothing about what is stored. */
  lemma DescaledServed(k: Knobs, l: Layer, path: Path, m: Meta, c: Cache<CachedRow, HeadKeys>, width: nat,
                       q: seq<HeadRow>)
    requires Served(k, l, m, c, width) && QueriesOk(l, q)
    ensures Served(k, Descaled(k, l, path), m, c, width) && QueriesOk(Descaled(k, l, path), q)
  {
    var d := Descaled(k, l, path);
    assert forall r: CachedRow :: Stored(d, r) == Stored(l, r);
    assert forall r: CachedRow :: Decode(d, r) == Decode(l, r);
    hide Stored, Decode;
    forall i: nat | i < m.Reqs()
      ensures RequestServed(k, d, m, c, i)
    {
      assert RequestServed(k, l, m, c, i);
      assert forall j: nat :: StoredAt(k, l, c, m.tables[i], j) == StoredAt(k, d, c, m.tables[i], j);
    }
  }

  lemma PartsServed(k: Knobs, l: Layer, m: Meta, n: nat, c: Cache<CachedRow, HeadKeys>, width: nat)
    requires Served(k, l, m, c, width) && n <= m.Reqs()
    ensures Served(k, l, DecodePart(m, n), c, width) && Served(k, l, PrefillPart(m, n), c, width)
  {
    PartsRunnable(m, n, c, width);
    var d, p := DecodePart(m, n), PrefillPart(m, n);
    hide StoredAt, Uniform;
    forall i: nat | i < d.Reqs()
      ensures RequestServed(k, l, d, c, i)
    {
      assert RequestServed(k, l, m, c, i) && d.QueryLen(i) == m.QueryLen(i);
    }
    forall i: nat | i < p.Reqs()
      ensures RequestServed(k, l, p, c, i)
    {
      assert RequestServed(k, l, m, c, n + i) && p.QueryLen(i) == m.QueryLen(n + i);
    }
  }

  lemma PlanServed(k: Knobs, l: Layer, m: Meta, plan: Plan, capacity: nat, threshold: nat,
                   c: Cache<CachedRow, HeadKeys>, width: nat)
    requires Served(k, l, m, c, width) && PlanOf(m, plan, capacity, threshold)
    ensures var parts := PartsOf(m, plan);
            && (forall j :: 0 <= j < |parts| ==> Served(k, l, parts[j], c, width))
            && plan.hostOffsets == parts[|parts| - 1].offsets && TokensBefore(parts, |parts|) == m.Tokens()
  {
    ServedRuns(k, l, m, c, width);
    hide *;
    PlanParts(m, plan, capacity, threshold, c, width);
    if |PartsOf(m, plan)| != 1 {
      PartsServed(k, l, m, Decodes(m, threshold, 0), c, width);
    }
  }

  lemma ServedRuns(k: Knobs, l: Layer, m: Meta, c: Cache<CachedRow, HeadKeys>, width: nat)
    requires Served(k, l, m, c, width)
    ensures Runnable(m, c, width) && m.Valid() && MetaReadable(m, c)
  {
  }

  // ----- the scratch path

  /** The dequantized blocks as a cache: pages of decoded rows, read as they are. */
  function ScratchCache(scratch: array2<HeadKeys>): (s: Cache<HeadKeys, HeadKeys>)
    reads scratch
    ensures |s.pages| == scratch.Length0 && s.block == scratch.Length1 && forall x :: s.decode(x) == x
    ensures forall b, t :: 0 <= b < scratch.Length0 && 0 <= t < scratch.Length1 ==>
              |s.pages[b]| == scratch.Length1 && s.pages[b][t] == scratch[b, t]
  {
    Cache(seq(scratch.Length0, b requires 0 <= b < scratch.Length0 reads scratch =>
                seq(scratch.Length1, t requires 0 <= t < scratch.Length1 reads scratch => scratch[b, t])),
          scratch.Length1, x => x)
  }

  /** Every block the flattened tables name is a page of the cache. */
  lemma SourcesExist<R, K>(m: Meta, c: Cache<R, K>, width: nat)
    requires m.Valid() && c.block > 0 && Uniform(m, c, width)
    ensures var src := SourceBlocks(m.tables, UsedWidth(m, c.block, width));
            forall b :: 0 <= b < |src| ==> src[b] < |c.pages| && |c.pages[src[b]]| == c.block
  {
    var w := UsedWidth(m, c.block, width);
    forall b: nat | b < |m.tables| * w
      ensures SourceBlock(m.tables, w, b) < |c.pages|
    {
      FlatOf(b, |m.tables|, w);
    }
  }

  lemma ScratchServes(l: Layer, m: Meta, c: Cache<CachedRow, HeadKeys>, width: nat, s: Cache<HeadKeys, HeadKeys>,
                      q: seq<HeadRow>)
    requires Runnable(m, c, width) && ScratchOf(m, c, width, s) && Fits(l, m, c, q)
    ensures var m' := OnScratch(m, c.block, width); m'.Valid() && MetaReadable(m', s) && Fits(l, m', s, q)
  {
    var m' := OnScratch(m, c.block, width);
    ScratchReadable(m, c, width, s);
    hide ScratchOf, Uniform, Renumbered, UsedWidth, KeyOk;
    forall i: nat | i < m.Reqs()
      ensures RequestFits(l, m', s, i)
    {
      assert RequestFits(l, m, c, i) && m'.QueryLen(i) == m.QueryLen(i);
      assert Readable(c, m.tables[i], m.seqLens[i]) && Readable(s, m'.tables[i], m.seqLens[i]);
      forall j: nat | j < m.seqLens[i]
        ensures KeyOk(l, KeyAt(s, m'.tables[i], j))
      {
        assert Keys(s, m'.tables[i], m.seqLens[i])[j] == Keys(c, m.tables[i], m.seqLens[i])[j];
      }
    }
  }

  /** Dequantize the blocks the partition touches once, then launch on the scratch. */
  method RunScratch(e: Exponential, l: Layer, u: Setup, m: Meta, c: Cache<CachedRow, HeadKeys>, width: nat,
                    q: seq<HeadRow>, scratch: SplitKv.Scratch, output: array<HeadRow>, start: nat)
    requires Runnable(m, c, width) && Fits(l, m, c, q) && u.Valid() && u.Allocated(l, scratch)
    requires start + m.Tokens() <= output.Length
    modifies output, scratch.maxes, scratch.sums, scratch.outs
    ensures OthersKept(output, start, m.Tokens())
    ensures Attended(m, c, DenseAttend(e, l), q, output[start..start + m.Tokens()])
  {
    var w := UsedWidth(m, c.block, width);
    SourcesExist(m, c, width);
    var blocks := DequantBlocks(c, SourceBlocks(m.tables, w));
    var s := ScratchCache(blocks);
    assert ScratchOf(m, c, width, s);
    ScratchServes(l, m, c, width, s, q);
    var m' := OnScratch(m, c.block, width);
    hide *;
    RunDirect(e, l, u, m', s, q, scratch, output, start);
    ScratchRefines(m, c, width, s, DenseAttend(e, l), q, output[start..start + m.Tokens()]);
  }

  // ----- forward

  /** One partition's slice of the output, by whichever path the layer takes. */
  method RunPartition(exp2: Exponential, k: Knobs, l: Layer, u: Setup, m: Meta, c: Cache<CachedRow, HeadKeys>,
                      width: nat, sight: Sight, last: bool, hostOffsets: seq<nat>, q: seq<HeadRow>,
                      scratch: SplitKv.Scratch,
                      output: array<HeadRow>, start: nat)
    requires Served(k, l, m, c, width) && QueriesOk(l, q) && |q| == m.Tokens()
    requires u.Valid() && u.Allocated(l, scratch) && Faithful(sight)
    requires start + m.Tokens() <= output.Length && (last ==> hostOffsets == m.offsets)
    modifies output, scratch.maxes, scratch.sums, scratch.outs
    ensures OthersKept(output, start, m.Tokens())
    ensures Attended(m, c, DenseAttend(PrefillKernel.Natural(exp2), Descaled(k, l, Direct)), q,
                     output[start..start + m.Tokens()])
  {
    var e, path := PrefillKernel.Natural(exp2), ChoosePath(k, l, m, c.block, width, last);
    var d := Descaled(k, l, path);
    SameDescales(k, l, m, c.block, width, last);
    DescaledServed(k, l, path, m, c, width, q);
    ServedFits(k, d, m, c, width, q);
    match path {
      case Custom =>
        ServedHolds(k, d, m, c, width);
        RunCustom(exp2, d, m, c, q, sight, hostOffsets, output, start);
      case Dequantized => RunScratch(e, d, u, m, c, width, q, scratch, output, start);
      case Direct => RunDirect(e, d, u, m, c, q, scratch, output, start);
    }
  }

  /** One iteration of forward's loop: the next part is done, and the parts before it stay done. */
  method RunPart(exp2: Exponential, k: Knobs, l: Layer, u: Setup, parts: seq<Meta>, p: nat,
                 c: Cache<CachedRow, HeadKeys>, width: nat, sight: Sight, hostOffsets: seq<nat>, q: seq<HeadRow>,
                 scratch: SplitKv.Scratch,
                 output: array<HeadRow>, start: nat)
    requires p < |parts| && Served(k, l, parts[p], c, width) && QueriesOk(l, q)
    requires u.Valid() && u.Allocated(l, scratch) && Faithful(sight) && start == TokensBefore(parts, p)
    requires TokensBefore(parts, p + 1) <= |q| == output.Length && hostOffsets == parts[|parts| - 1].offsets
    requires FirstPartsDone(parts, p, c, DenseAttend(PrefillKernel.Natural(exp2), Descaled(k, l, Direct)), q,
                            output[..])
    modifies output, scratch.maxes, scratch.sums, scratch.outs
    ensures FirstPartsDone(parts, p + 1, c, DenseAttend(PrefillKernel.Natural(exp2), Descaled(k, l, Direct)), q,
                           output[..])
  {
    ghost var before, attend := output[..], DenseAttend(PrefillKernel.Natural(exp2), Descaled(k, l, Direct));
    var end := start + parts[p].Tokens();
    assert end <= |q|;
    RunnableParts(parts[p], c, width);
    hide Attended, Served, QueryOk, Descaled, DenseAttend, Faithful;
    RunPartition(exp2, k, l, u, parts[p], c, width, sight, p == |parts| - 1, hostOffsets, q[start..end], scratch,
                 output, start);
    assert output[..][start..end] == output[start..start + parts[p].Tokens()];
    assert PartDone(parts, p, c, attend, q, output[..]);
    KeepParts(parts, p, c, attend, q, before, output[..]);
  }

  /** The partition loop. */
  method RunParts(exp2: Exponential, k: Knobs, l: Layer, u: Setup, parts: seq<Meta>, c: Cache<CachedRow, HeadKeys>,
                  width: nat, sight: Sight, hostOffsets: seq<nat>, q: seq<HeadRow>, scratch: SplitKv.Scratch,
                  output: array<HeadRow>)
    requires |parts| > 0 && (forall j :: 0 <= j < |parts| ==> Served(k, l, parts[j], c, width))
    requires QueriesOk(l, q) && u.Valid() && u.Allocated(l, scratch) && Faithful(sight)
    requires TokensBefore(parts, |parts|) == |q| == output.Length && hostOffsets == parts[|parts| - 1].offsets
    modifies output, scratch.maxes, scratch.sums, scratch.outs
    ensures FirstPartsDone(parts, |parts|, c, DenseAttend(PrefillKernel.Natural(exp2), Descaled(k, l, Direct)), q,
                           output[..])
  {
    ghost var attend := DenseAttend(PrefillKernel.Natural(exp2), Descaled(k, l, Direct));
    NoPartsDone(parts, c, attend, q, output[..]);
    hide *;
    var p, tokenStart := 0, 0;
    while p < |parts|
      invariant 0 <= p <= |parts| && tokenStart == TokensBefore(parts, p)
      invariant FirstPartsDone(parts, p, c, attend, q, output[..])
    {
      TokensBeforeGrows(parts, p + 1, |parts|);
      TokensBeforeStep(parts, p);
      RunPart(exp2, k, l, u, parts, p, c, width, sight, hostOffsets, q, scratch, output, tokenStart);
      tokenStart := tokenStart + parts[p].Tokens();
      p := p + 1;
    }
  }

  lemma NoPartsDone<Q, R, K, O>(parts: seq<Meta>, c: Cache<R, K>, attend: Attend<Q, K, O>, q: seq<Q>, out: seq<O>)
    ensures TokensBefore(parts, 0) == 0 && FirstPartsDone(parts, 0, c, attend, q, out)
  {
  }

  /** forward(): whatever paths the partitions take, every output row holds dense attention of its request's keys. */
  method Forward(exp2: Exponential, k: Knobs, l: Layer, u: Setup, m: Meta, c: Cache<CachedRow, HeadKeys>, width: nat,
                 sight: Sight, plan: Plan, ghost capacity: nat, ghost threshold: nat, q: seq<HeadRow>,
                 scratch: SplitKv.Scratch, output: array<HeadRow>)
    requires Served(k, l, m, c, width) && QueriesOk(l, q)
    requires u.Valid() && u.Allocated(l, scratch) && Faithful(sight)
    requires |q| == m.Tokens() == output.Length && PlanOf(m, plan, capacity, threshold)
    modifies output, scratch.maxes, scratch.sums, scratch.outs
    ensures Attended(m, c, DenseAttend(PrefillKernel.Natural(exp2), Descaled(k, l, Direct)), q, output[..])
  {
    ServedRuns(k, l, m, c, width);
    hide *;
    PlanServed(k, l, m, plan, capacity, threshold, c, width);
    RunParts(exp2, k, l, u, PartsOf(m, plan), c, width, sight, plan.hostOffsets, q, scratch, output);
    Combine(m, plan, capacity, threshold, c, width, DenseAttend(PrefillKernel.Natural(exp2), Descaled(k, l, Direct)),
            q, output[..]);
  }
}
