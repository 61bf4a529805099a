/** Launch arithmetic of the DiffKV kernel: which program computes which output
    row, and which launch shape is chosen. */
module LaunchGrid {
  import opened IndexMath

  /** A varlen batch: offsets[i] is the first query row of sequence i, and the last entry the number of rows. */
  datatype Batch = Batch(offsets: seq<nat>)
  {
    ghost predicate Valid() {
      && |offsets| > 0
      && offsets[0] == 0
      && forall i, j :: 0 <= i <= j < |offsets| ==> offsets[i] <= offsets[j]
    }

    function Count(): nat
      requires |offsets| > 0
    {
      |offsets| - 1
    }

    function Tokens(): nat
      requires |offsets| > 0
    {
      offsets[|offsets| - 1]
    }

    ghost function QueryLen(i: nat): nat
      requires Valid() && i + 1 < |offsets|
    {
      offsets[i + 1] - offsets[i]
    }
  }

  /** First q-block of sequence i in the one-dimensional grid. */
  function BlockStart(b: Batch, blockQ: nat, i: nat): nat
    requires blockQ > 0 && i < |b.offsets|
  {
    b.offsets[i] / blockQ + i
  }

  function GridSize(b: Batch, blockQ: nat): nat
    requires blockQ > 0 && |b.offsets| > 0
  {
    b.Tokens() / blockQ + b.Count()
  }

  lemma DivGrows(x: nat, y: nat, c: nat)
    requires c > 0
    ensures (x + y) / c >= x / c + y / c
    ensures CeilDiv(y, c) <= y / c + 1
    ensures y >= 0 ==> y / c >= 0
  {
    DivBounds(x, c);
    DivBounds(y, c);
    DivBounds(x + y, c);
    var q := x / c + y / c;
    assert q * c == x / c * c + y / c * c;
    MulOrder(q, (x + y) / c, c);
    MulOrder((x + y) / c + 1, q, c);
    DivBounds(y + c - 1, c);
    MulOrder(y / c + 2, CeilDiv(y, c), c);
    assert (y / c + 2) * c == (y / c + 1) * c + c;
  }

  /** The slots of sequence i's q-blocks end before the next sequence's begin. */
  lemma BlocksFit(b: Batch, blockQ: nat, i: nat)
    requires b.Valid() && blockQ > 0 && i < b.Count()
    ensures BlockStart(b, blockQ, i) + CeilDiv(b.QueryLen(i), blockQ) <= BlockStart(b, blockQ, i + 1)
    ensures BlockStart(b, blockQ, i) < BlockStart(b, blockQ, i + 1)
  {
    assert b.offsets[i] <= b.offsets[i + 1];
    DivGrows(b.offsets[i], b.QueryLen(i), blockQ);
  }

  lemma {:induction false} BlockStartsIncrease(b: Batch, blockQ: nat, i: nat, j: nat)
    requires b.Valid() && blockQ > 0 && i < j < |b.offsets|
    ensures BlockStart(b, blockQ, i) < BlockStart(b, blockQ, j)
    decreases j - i
  {
    BlocksFit(b, blockQ, j - 1);
    if i < j - 1 {
      BlockStartsIncrease(b, blockQ, i, j - 1);
    }
  }

  ghost function NeededBlocks(b: Batch, blockQ: nat, n: nat): nat
    requires b.Valid() && blockQ > 0 && n <= b.Count()
  {
    if n == 0 then 0
    else NeededBlocks(b, blockQ, n - 1) + CeilDiv(b.QueryLen(n - 1), blockQ)
  }

  /** The grid has room for every sequence's q-blocks. */
  lemma GridHoldsBlocks(b: Batch, blockQ: nat)
    requires b.Valid() && blockQ > 0
    ensures NeededBlocks(b, blockQ, b.Count()) <= GridSize(b, blockQ)
  {
    PrefixHoldsBlocks(b, blockQ, b.Count());
  }

  lemma {:induction false} PrefixHoldsBlocks(b: Batch, blockQ: nat, n: nat)
    requires b.Valid() && blockQ > 0 && n <= b.Count()
    ensures NeededBlocks(b, blockQ, n) <= BlockStart(b, blockQ, n)
  {
    if n > 0 {
      PrefixHoldsBlocks(b, blockQ, n - 1);
      BlocksFit(b, blockQ, n - 1);
    }
  }

  /** Binary search for the sequence a q-block index belongs to. */
  method FindSeq(b: Batch, blockQ: nat, g: nat) returns (i: nat)
    requires b.Valid() && blockQ > 0 && g < GridSize(b, blockQ)
    ensures i < b.Count() && BlockStart(b, blockQ, i) <= g < BlockStart(b, blockQ, i + 1)
  {
    var left, right := 0, b.Count();
    while left < right
      invariant 0 <= left <= right <= b.Count()
      invariant forall k :: 0 <= k < left ==> BlockStart(b, blockQ, k) <= g
      invariant forall k :: right <= k <= b.Count() ==> g < BlockStart(b, blockQ, k)
    {
      var mid := (left + right) / 2;
      if BlockStart(b, blockQ, mid) <= g {
        forall k | 0 <= k < mid
          ensures BlockStart(b, blockQ, k) <= g
        {
          BlockStartsIncrease(b, blockQ, k, mid);
        }
        left := mid + 1;
      } else {
        forall k | mid < k <= b.Count()
          ensures g < BlockStart(b, blockQ, k)
        {
          BlockStartsIncrease(b, blockQ, mid, k);
        }
        right := mid;
      }
    }
    assert BlockStart(b, blockQ, 0) == 0;
    i := left - 1;
  }

  /** Query rows grouped per KV head, and rows per program. */
  datatype Shape = Shape(kvHeads: nat, gqa: nat, blockM: nat)
  {
    predicate Valid() { 0 < gqa <= blockM && kvHeads > 0 }

    function BlockQ(): nat
      requires Valid()
    {
      blockM / gqa
    }

    function Heads(): nat { kvHeads * gqa }
  }

  lemma BlockQPositive(s: Shape)
    requires s.Valid()
    ensures s.BlockQ() > 0 && s.BlockQ() * s.gqa <= s.blockM < (s.BlockQ() + 1) * s.gqa
    ensures s.blockM % s.gqa == 0 ==> s.BlockQ() * s.gqa == s.blockM
  {
  }

  /** Lane m of program (g, kvHead), g being block `local` of sequence i, stores output (row, head). */
  ghost predicate Lane(b: Batch, s: Shape, i: nat, g: nat, kvHead: nat, m: nat, row: nat, head: nat)
    requires b.Valid() && s.Valid()
  {
    BlockQPositive(s);
    && i < b.Count() && kvHead < s.kvHeads && m < s.blockM
    && BlockStart(b, s.BlockQ(), i) <= g < BlockStart(b, s.BlockQ(), i + 1)
    && var local := g - BlockStart(b, s.BlockQ(), i);
    && local * s.BlockQ() < b.QueryLen(i)              // the program does not return early
    && local * s.BlockQ() + m / s.gqa < b.QueryLen(i)  // query_mask_0
    && row == b.offsets[i] + local * s.BlockQ() + m / s.gqa
    && head == kvHead * s.gqa + m % s.gqa
  }

  /** The canonical program and lane for an output row and head. */
  ghost function Producer(b: Batch, s: Shape, i: nat, row: nat, head: nat): (nat, nat, nat)
    requires b.Valid() && s.Valid() && i < b.Count() && b.offsets[i] <= row
  {
    BlockQPositive(s);
    var (block, x), (kvHead, y) := SplitAt(row - b.offsets[i], s.BlockQ()), SplitAt(head, s.gqa);
    (BlockStart(b, s.BlockQ(), i) + block, kvHead, FlatIndex(x, y, s.gqa))
  }

  lemma LaneIndex(x: nat, y: nat, c: nat)
    requires y < c
    ensures (x * c + y) / c == x && (x * c + y) % c == y
  {
    DivBounds(x * c + y, c);
    var q := (x * c + y) / c;
    MulOrder(x + 1, q, c);
    MulOrder(q + 1, x, c);
    assert (x + 1) * c == x * c + c;
  }

  /** Position and head split into block, lane and KV head. */
  lemma SplitRow(s: Shape, pos: nat, head: nat)
    requires s.Valid() && head < s.Heads()
    ensures s.BlockQ() > 0
    ensures var m := pos % s.BlockQ() * s.gqa + head % s.gqa;
            m < s.blockM && m / s.gqa == pos % s.BlockQ() && m % s.gqa == head % s.gqa
    ensures pos == pos / s.BlockQ() * s.BlockQ() + pos % s.BlockQ()
    ensures head / s.gqa < s.kvHeads && head == head / s.gqa * s.gqa + head % s.gqa
  {
    BlockQPositive(s);
    var q, r := s.BlockQ(), pos % s.BlockQ();
    BlockOf(pos, q, 0);
    BlockOf(head, s.gqa, s.kvHeads);
    assert q * s.gqa <= s.blockM;
    hide *;
    LaneIndex(r, head % s.gqa, s.gqa);
    MulGap(r, q, s.gqa);
  }

  /** The q-block of position pos of sequence i is inside the grid and before the next sequence's blocks. */
  lemma BlockInGrid(b: Batch, q: nat, i: nat, pos: nat)
    requires b.Valid() && q > 0 && i < b.Count() && pos < b.QueryLen(i)
    ensures BlockStart(b, q, i) + pos / q < BlockStart(b, q, i + 1) <= GridSize(b, q)
  {
    BlocksFit(b, q, i);
    DivBounds(b.QueryLen(i) + q - 1, q);
    DivBounds(pos, q);
    assert (CeilDiv(b.QueryLen(i), q) + 1) * q == CeilDiv(b.QueryLen(i), q) * q + q;
    MulOrder(CeilDiv(b.QueryLen(i), q), pos / q, q);
    if i + 1 < b.Count() {
      BlockStartsIncrease(b, q, i + 1, b.Count());
    }
  }

  /** Some lane of some program in the grid stores (row, head). */
  lemma EveryRowProduced(b: Batch, s: Shape, i: nat, row: nat, head: nat)
    requires b.Valid() && s.Valid() && head < s.Heads()
    requires i < b.Count() && b.offsets[i] <= row < b.offsets[i + 1]
    ensures var (g, kvHead, m) := Producer(b, s, i, row, head);
            s.BlockQ() > 0 && g < GridSize(b, s.BlockQ()) && Lane(b, s, i, g, kvHead, m, row, head)
  {
    var pos := row - b.offsets[i];
    SplitRow(s, pos, head);
    BlockInGrid(b, s.BlockQ(), i, pos);
    assert pos / s.BlockQ() * s.BlockQ() <= pos;
  }

  /** The sequence a row belongs to. */
  lemma OwnerOf(b: Batch, row: nat) returns (i: nat)
    requires b.Valid() && row < b.Tokens()
    ensures i < b.Count() && b.offsets[i] <= row < b.offsets[i + 1]
  {
    i := 0;
    while b.offsets[i + 1] <= row
      invariant i < b.Count() && b.offsets[i] <= row
      decreases b.Count() - i
    {
      i := i + 1;
    }
  }

  /** Some program of the grid stores the output. */
  ghost predicate Produced(b: Batch, s: Shape, row: nat, head: nat)
    requires b.Valid() && s.Valid()
  {
    exists i: nat, g: nat, kvHead: nat, m: nat ::
      s.BlockQ() > 0 && g < GridSize(b, s.BlockQ()) && Lane(b, s, i, g, kvHead, m, row, head)
  }

  ghost predicate AtMostOnce(b: Batch, s: Shape)
    requires b.Valid() && s.Valid()
  {
    forall i, g, kvHead, m, i', g', kvHead', m', row, head ::
      Lane(b, s, i, g, kvHead, m, row, head) && Lane(b, s, i', g', kvHead', m', row, head) ==>
        i == i' && g == g' && kvHead == kvHead' && m == m'
  }

  /** Every output is stored by one lane, and by one only. */
  ghost predicate ExactlyOnce(b: Batch, s: Shape)
    requires b.Valid() && s.Valid()
  {
    AtMostOnce(b, s) && forall row: nat, head: nat :: row < b.Tokens() && head < s.Heads() ==> Produced(b, s, row, head)
  }

  ghost predicate NoOverlap(b: Batch, s: Shape)
    requires b.Valid() && s.Valid()
  {
    s.blockM % s.gqa == 0 || forall i: nat :: i < b.Count() ==> b.QueryLen(i) <= s.BlockQ()
  }

  /** When blocks do not overlap, a storing lane is the canonical one. */
  lemma LaneIsProducer(b: Batch, s: Shape, i: nat, g: nat, kvHead: nat, m: nat, row: nat, head: nat)
    requires b.Valid() && s.Valid() && NoOverlap(b, s) && Lane(b, s, i, g, kvHead, m, row, head)
    ensures i < b.Count() && b.offsets[i] <= row < b.offsets[i + 1]
    ensures (g, kvHead, m) == Producer(b, s, i, row, head)
  {
    hide *;
    LaneRow(b, s, i, g, kvHead, m, row, head);
    LaneDecoded(b, s, i, g, kvHead, m, row, head);
    ProducerIs(b, s, i, g - BlockStart(b, s.BlockQ(), i), kvHead, m, row, head);
  }

  lemma LaneRow(b: Batch, s: Shape, i: nat, g: nat, kvHead: nat, m: nat, row: nat, head: nat)
    requires b.Valid() && s.Valid() && Lane(b, s, i, g, kvHead, m, row, head)
    ensures i < b.Count() && i + 1 < |b.offsets| && b.offsets[i] <= row < b.offsets[i + 1]
  {
    BlockQPositive(s);
    hide BlockStart, Shape.BlockQ;
    var local, q := g - BlockStart(b, s.BlockQ(), i), s.BlockQ();
    MulMonotone(0, local, q);
    DivNonNegative(m, s.gqa);
  }

  lemma DivNonNegative(m: nat, c: nat)
    requires c > 0
    ensures m / c >= 0
  {
  }

  lemma LaneDecoded(b: Batch, s: Shape, i: nat, g: nat, kvHead: nat, m: nat, row: nat, head: nat)
    requires b.Valid() && s.Valid() && NoOverlap(b, s) && Lane(b, s, i, g, kvHead, m, row, head)
    requires i < b.Count() && b.offsets[i] <= row
    ensures s.gqa > 0 && s.BlockQ() > 0 && BlockStart(b, s.BlockQ(), i) <= g && m / s.gqa < s.BlockQ()
    ensures row - b.offsets[i] == (g - BlockStart(b, s.BlockQ(), i)) * s.BlockQ() + m / s.gqa
    ensures head == kvHead * s.gqa + m % s.gqa
  {
    BlockQPositive(s);
    hide BlockStart, Shape.BlockQ;
    LaneInBlock(s, g - BlockStart(b, s.BlockQ(), i), m, b.QueryLen(i));
    hide Batch.Valid, NoOverlap;
  }

  lemma ProducerIs(b: Batch, s: Shape, i: nat, local: nat, kvHead: nat, m: nat, row: nat, head: nat)
    requires b.Valid() && s.Valid() && i < b.Count() && b.offsets[i] <= row && m / s.gqa < s.BlockQ()
    requires row - b.offsets[i] == local * s.BlockQ() + m / s.gqa && head == kvHead * s.gqa + m % s.gqa
    ensures (BlockStart(b, s.BlockQ(), i) + local, kvHead, m) == Producer(b, s, i, row, head)
  {
    DecodeLane(local, m, kvHead, s.BlockQ(), s.gqa);
    hide BlockStart, Shape.BlockQ, Batch.Valid;
  }

  lemma DecodeLane(local: nat, m: nat, kvHead: nat, q: nat, c: nat)
    requires c > 0 && m / c < q
    ensures var pos, head := local * q + m / c, kvHead * c + m % c;
            pos / q == local && head / c == kvHead && pos % q * c + head % c == m
  {
    LaneIndex(local, m / c, q);
    LaneIndex(kvHead, m % c, c);
    assert m == m / c * c + m % c;
  }

  lemma LaneInBlock(s: Shape, local: nat, m: nat, queryLen: nat)
    requires s.Valid() && m < s.blockM
    requires s.blockM % s.gqa == 0 || (queryLen <= s.BlockQ() && local * s.BlockQ() + m / s.gqa < queryLen)
    ensures m / s.gqa < s.BlockQ()
  {
  }

  lemma RowOwnerUnique(b: Batch, i: nat, i': nat, row: nat)
    requires b.Valid() && i < b.Count() && i' < b.Count()
    requires b.offsets[i] <= row < b.offsets[i + 1] && b.offsets[i'] <= row < b.offsets[i' + 1]
    ensures i == i'
  {
  }

  lemma AllProduced(b: Batch, s: Shape)
    requires b.Valid() && s.Valid()
    ensures forall row: nat, head: nat :: row < b.Tokens() && head < s.Heads() ==> Produced(b, s, row, head)
  {
    hide Lane, Shape.Heads, GridSize;
    forall row: nat, head: nat | row < b.Tokens() && head < s.Heads()
      ensures Produced(b, s, row, head)
    {
      var i := OwnerOf(b, row);
      EveryRowProduced(b, s, i, row, head);
    }
  }

  lemma AtMostOnceIff(b: Batch, s: Shape)
    requires b.Valid() && s.Valid()
    ensures AtMostOnce(b, s) <==> NoOverlap(b, s)
  {
    if NoOverlap(b, s) {
      hide Lane, NoOverlap, Producer;
      forall i, g, kvHead, m, i', g', kvHead', m', row, head |
        Lane(b, s, i, g, kvHead, m, row, head) && Lane(b, s, i', g', kvHead', m', row, head)
        ensures i == i' && g == g' && kvHead == kvHead' && m == m'
      {
        LaneIsProducer(b, s, i, g, kvHead, m, row, head);
        LaneIsProducer(b, s, i', g', kvHead', m', row, head);
        LaneOwner(b, s, i, g, kvHead, m, row, head);
        LaneOwner(b, s, i', g', kvHead', m', row, head);
        RowOwnerUnique(b, i, i', row);
      }
    } else {
      var i: nat :| i < b.Count() && b.QueryLen(i) > s.BlockQ();
      DoubleStore(b, s, i);
    }
  }

  lemma LaneOwner(b: Batch, s: Shape, i: nat, g: nat, kvHead: nat, m: nat, row: nat, head: nat)
    requires b.Valid() && s.Valid() && Lane(b, s, i, g, kvHead, m, row, head)
    ensures i < b.Count()
  {
  }

  /** Each output is stored exactly once if and only if the GQA group divides
      BLOCK_M or no sequence spans two blocks. */
  lemma ExactlyOnceIff(b: Batch, s: Shape)
    requires b.Valid() && s.Valid()
    ensures ExactlyOnce(b, s) <==> NoOverlap(b, s)
  {
    AllProduced(b, s);
    AtMostOnceIff(b, s);
  }

  /** Otherwise the first row of the second block is also a tail lane of the first. */
  lemma DoubleStore(b: Batch, s: Shape, i: nat)
    requires b.Valid() && s.Valid() && s.blockM % s.gqa != 0 && i < b.Count() && b.QueryLen(i) > s.BlockQ()
    ensures var start := BlockStart(b, s.BlockQ(), i);
            var row := b.offsets[i] + s.BlockQ();
            Lane(b, s, i, start, 0, s.BlockQ() * s.gqa, row, 0) && Lane(b, s, i, start + 1, 0, 0, row, 0)
  {
    BlockQPositive(s);
    var q := s.BlockQ();
    LaneIndex(q, 0, s.gqa);
    LaneIndex(0, 0, s.gqa);
    assert q * s.gqa < s.blockM;
    BlocksFit(b, q, i);
    assert CeilDiv(b.QueryLen(i), q) >= 2 by {
      DivBounds(b.QueryLen(i) + q - 1, q);
      MulOrder(2, CeilDiv(b.QueryLen(i), q), q);
    }
  }

  // ----- choosing the launch shape

  const PREFILL_BLOCK_M: nat := 128
  const PREFILL_MIN_Q: nat := 64
  const SPEC_3D_MAX_Q: nat := 16
  const SPEC_3D_BLOCK_M: nat := 128

  function NextPow2From(n: nat, p: nat): (r: nat)
    requires p > 0
    ensures r >= n && r >= p
    decreases if n > p then n - p else 0
  {
    if p >= n then p else NextPow2From(n, 2 * p)
  }

  function NextPow2(n: nat): (r: nat)
    ensures r >= n && r > 0
  {
    NextPow2From(n, 1)
  }

  /** The launch request: batch sizes and the scratch it was given. */
  datatype Launch = Launch(tokens: nat, seqs: nat, maxQueryLen: nat, gqa: nat, slidingWindow: nat,
                           seqThreshold: nat, scratchTokens: nat, hasScratch: bool, batchInvariant: bool)
  {
    function Spec3D(): bool {
      1 < maxQueryLen <= SPEC_3D_MAX_Q && slidingWindow == 0 && hasScratch && tokens <= scratchTokens
    }

    function Use3D(): bool {
      hasScratch && !(maxQueryLen > 1 && !Spec3D()) && seqs <= seqThreshold && !batchInvariant
    }

    function BaseBlockM(): nat {
      if gqa <= 16 then 16 else NextPow2(gqa)
    }

    function PrefillBlockM(): nat
      requires gqa > 0
    {
      if maxQueryLen >= PREFILL_MIN_Q && PREFILL_BLOCK_M > BaseBlockM() && PREFILL_BLOCK_M % gqa == 0
      then PREFILL_BLOCK_M else BaseBlockM()
    }

    function BlockM(): nat
      requires gqa > 0
    {
      var bm := PrefillBlockM();
      if Use3D() && Spec3D() && SPEC_3D_BLOCK_M > bm then
        var spec := Min(SPEC_3D_BLOCK_M, NextPow2(maxQueryLen * gqa));
        if spec > bm && spec % gqa == 0 then spec else bm
      else bm
    }
  }

  predicate IsPow2(n: nat)
  {
    n == 1 || (n > 0 && n % 2 == 0 && IsPow2(n / 2))
  }

  /** The least power of two not below n. */
  lemma NextPow2Is(n: nat)
    ensures IsPow2(NextPow2(n)) && n <= NextPow2(n) && (NextPow2(n) == 1 || NextPow2(n) < 2 * n)
  {
    Pow2FromIs(n, 1);
  }

  lemma {:induction false} Pow2FromIs(n: nat, p: nat)
    requires p > 0 && IsPow2(p)
    ensures IsPow2(NextPow2From(n, p)) && (NextPow2From(n, p) == p || NextPow2From(n, p) < 2 * n)
    decreases if n > p then n - p else 0
  {
    if p < n {
      assert IsPow2(2 * p);
      Pow2FromIs(n, 2 * p);
    }
  }

  /** The split-KV grid is taken exactly when its buffers are there, the batch need not be invariant, there are few
      sequences, and either every query is one token, or all are at most 16 of a global layer and fit the buffers. */
  lemma SplitIff(l: Launch)
    ensures l.Use3D() <==>
              && l.hasScratch && !l.batchInvariant && l.seqs <= l.seqThreshold
              && (l.maxQueryLen <= 1
                  || (l.maxQueryLen <= 16 && l.slidingWindow == 0 && l.tokens <= l.scratchTokens))
  {
  }

  /** The rows of a block: 16, or the least power of two that holds a larger group; 128 for queries of 64 tokens or
      more, and in a split launch of several tokens the least power of two that holds a request's rows, at most 128, if
      these are more and whole groups. */
  lemma BlockMIs(l: Launch)
    requires l.gqa > 0
    ensures var base, held := if l.gqa <= 16 then 16 else NextPow2(l.gqa), NextPow2(l.maxQueryLen * l.gqa);
            var spec := if held <= 128 then held else 128;
            && (l.maxQueryLen >= 64 ==> l.BlockM() == if base < 128 && 128 % l.gqa == 0 then 128 else base)
            && (l.maxQueryLen < 64 && l.maxQueryLen > 1 && l.Use3D() ==>
                  l.BlockM() == if base < spec && spec % l.gqa == 0 then spec else base)
            && (l.maxQueryLen < 64 && (l.maxQueryLen <= 1 || !l.Use3D()) ==> l.BlockM() == base)
  {
    hide NextPow2;
  }

  /** Every program holds at least one whole GQA group; groups that are powers of two always divide the block. */
  lemma BlockHoldsGroup(l: Launch)
    requires l.gqa > 0
    ensures l.gqa <= l.BlockM()
    ensures l.gqa == NextPow2(l.gqa) ==> l.BlockM() % l.gqa == 0
  {
    hide NextPow2;
    assert l.BlockM() == l.BaseBlockM() || (l.BlockM() > l.BaseBlockM() && l.BlockM() % l.gqa == 0);
    if l.gqa == NextPow2(l.gqa) {
      if l.gqa <= 16 {
        SmallPowers(l.gqa);
      } else {
        assert l.gqa % l.gqa == 0;
      }
    }
  }

  lemma SmallPowers(n: nat)
    requires 0 < n <= 16 && n == NextPow2(n)
    ensures 16 % n == 0
  {
    var p2 := NextPow2From(n, 2);
    var p4 := NextPow2From(n, 4);
    var p8 := NextPow2From(n, 8);
    var p16 := NextPow2From(n, 16);
    assert n == 1 || n == p2;
    assert n <= 2 || p2 == p4;
    assert n <= 4 || p4 == p8;
    assert n <= 8 || p8 == p16;
    assert n <= 16 ==> p16 == 16;
  }

  /** A split-KV launch never indexes past the scratch rows its builder allocated. */
  lemma SplitFitsScratch(l: Launch)
    requires l.gqa > 0 && l.tokens <= l.seqs * l.maxQueryLen && l.scratchTokens == l.seqThreshold && l.Use3D()
    ensures l.tokens <= l.scratchTokens
  {
  }
}
