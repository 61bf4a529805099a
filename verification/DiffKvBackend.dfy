/** The DiffKV attention backend's bookkeeping: batch partition, prefill q-blocks, and the dequantized NVFP4 scratch. */
module DiffKvBackend {
  import opened IndexMath

  /** Batch metadata: one entry per request, offsets with one entry more. */
  datatype Meta = Meta(offsets: seq<nat>, seqLens: seq<nat>, tables: seq<seq<int>>, slots: seq<int>,
                       maxQueryLen: nat, maxSeqLen: nat)
  {
    ghost predicate Valid() {
      && |offsets| == |seqLens| + 1 == |tables| + 1
      && offsets[0] == 0
      && (forall i, j :: 0 <= i <= j < |offsets| ==> offsets[i] <= offsets[j])
      && |slots| == Tokens()
      && (forall i :: 0 <= i < |seqLens| ==> QueryLen(i) <= maxQueryLen && seqLens[i] <= maxSeqLen)
    }

    function Reqs(): nat { |seqLens| }

    function Tokens(): nat { if |offsets| == 0 then 0 else offsets[|offsets| - 1] }

    function QueryLen(i: nat): int
      requires i + 1 < |offsets|
    {
      offsets[i + 1] as int - offsets[i] as int
    }
  }

  // ----- building the partitions

  /** Requests up to the first one whose query is longer than the threshold. */
  function Decodes(m: Meta, threshold: nat, i: nat): (n: nat)
    requires i <= m.Reqs() && |m.offsets| == m.Reqs() + 1
    ensures i <= n <= m.Reqs()
    ensures forall k :: i <= k < n ==> m.QueryLen(k) <= threshold
    ensures n < m.Reqs() ==> m.QueryLen(n) > threshold
    decreases m.Reqs() - i
  {
    if i == m.Reqs() || m.QueryLen(i) > threshold then i else Decodes(m, threshold, i + 1)
  }

  function MaxQuery(m: Meta, n: nat): (r: int)
    requires n <= m.Reqs() && |m.offsets| == m.Reqs() + 1
    ensures forall i :: 0 <= i < n ==> m.QueryLen(i) <= r
    ensures r >= 0
  {
    if n == 0 then 0
    else
      var r := MaxQuery(m, n - 1);
      if m.QueryLen(n - 1) > r then m.QueryLen(n - 1) else r
  }

  function Rebased(offsets: seq<nat>, n: nat): (r: seq<nat>)
    requires n < |offsets| && forall i :: n <= i < |offsets| ==> offsets[i] >= offsets[n]
    ensures |r| == |offsets| - n
    ensures forall i :: 0 <= i < |r| ==> r[i] == offsets[n + i] - offsets[n]
  {
    seq(|offsets| - n, i requires 0 <= i < |offsets| - n => offsets[n + i] - offsets[n])
  }

  function DecodePart(m: Meta, n: nat): Meta
    requires m.Valid() && n <= m.Reqs()
  {
    m.(offsets := m.offsets[..n + 1], seqLens := m.seqLens[..n], tables := m.tables[..n],
       slots := m.slots[..m.offsets[n]], maxQueryLen := MaxQuery(m, n))
  }

  function PrefillPart(m: Meta, n: nat): Meta
    requires m.Valid() && n <= m.Reqs()
  {
    m.(offsets := Rebased(m.offsets, n), seqLens := m.seqLens[n..], tables := m.tables[n..],
       slots := m.slots[m.offsets[n]..])
  }

  /** What forward dispatches on: the partitions, and the host offsets for the custom prefill kernel. */
  datatype Plan = Plan(partitions: seq<Meta>, hostOffsets: seq<nat>, hostReqs: int)

  /** build(): split a mixed batch into its decode prefix and prefill suffix, when
      the prefix fits the split-KV scratch. */
  method Build(m: Meta, capacity: nat, threshold: nat) returns (plan: Plan)
    requires m.Valid()
    ensures PlanOf(m, plan, capacity, threshold)
  {
    plan := Plan([], m.offsets, -1);
    if m.Tokens() <= capacity || m.maxQueryLen <= threshold {
      return;
    }
    var n := Decodes(m, threshold, 0);
    var decodeTokens := m.offsets[n];
    var prefillTokens := m.Tokens() - decodeTokens;
    if !(0 < decodeTokens <= capacity && prefillTokens > 0) {
      return;
    }
    plan := Plan([DecodePart(m, n), PrefillPart(m, n)], Rebased(m.offsets, n), m.Reqs() - n);
  }

  /** Either nothing is split, or the split is the longest decode prefix: non-empty,
      within capacity, with prefill left. */
  ghost predicate PlanOf(m: Meta, plan: Plan, capacity: nat, threshold: nat)
    requires m.Valid()
  {
    var n := Decodes(m, threshold, 0);
    var split := m.Tokens() > capacity && m.maxQueryLen > threshold && 0 < m.offsets[n] <= capacity
        && m.offsets[n] < m.Tokens();
    if split then
      plan.partitions == [DecodePart(m, n), PrefillPart(m, n)] && plan.hostOffsets == PrefillPart(m, n).offsets
      && plan.hostReqs == PrefillPart(m, n).Reqs()
    else plan.partitions == [] && plan.hostOffsets == m.offsets && plan.hostReqs == -1
  }

  /** The parts' lists joined are the batch's lists. */
  lemma PartsJoin(m: Meta, n: nat)
    requires m.Valid() && n <= m.Reqs()
    ensures var d, p := DecodePart(m, n), PrefillPart(m, n);
            d.seqLens + p.seqLens == m.seqLens && d.tables + p.tables == m.tables && d.slots + p.slots == m.slots
  {
  }

  /** Each request keeps its query rows: the same offsets in the prefix, rebased ones in the suffix. */
  lemma PartsKeepRows(m: Meta, n: nat)
    requires m.Valid() && n <= m.Reqs()
    ensures var d, p := DecodePart(m, n), PrefillPart(m, n);
            && |d.offsets| == n + 1 && |p.offsets| == m.Reqs() - n + 1
            && (forall i :: 0 <= i < n ==> d.offsets[i] == m.offsets[i] && d.QueryLen(i) == m.QueryLen(i))
            && (forall i :: 0 <= i < m.Reqs() - n ==>
                  p.offsets[i] + m.offsets[n] == m.offsets[n + i] && p.QueryLen(i) == m.QueryLen(n + i))
  {
  }

  /** The split's parts are well formed, their counts add up to the batch's, and the decode queries are all short. */
  lemma PartsCoverBatch(m: Meta, threshold: nat)
    requires m.Valid()
    ensures var n := Decodes(m, threshold, 0);
            var d, p := DecodePart(m, n), PrefillPart(m, n);
            && d.Valid() && p.Valid()
            && d.Reqs() + p.Reqs() == m.Reqs() && d.Tokens() + p.Tokens() == m.Tokens()
            && d.maxQueryLen <= threshold
  {
    var n := Decodes(m, threshold, 0);
    MaxQueryBelow(m, n, threshold);
    PartsValid(m, n);
  }

  lemma {:induction false} MaxQueryBelow(m: Meta, n: nat, bound: nat)
    requires n <= m.Reqs() && |m.offsets| == m.Reqs() + 1
    requires forall i :: 0 <= i < n ==> m.QueryLen(i) <= bound
    ensures MaxQuery(m, n) <= bound
  {
    if n > 0 {
      MaxQueryBelow(m, n - 1, bound);
    }
  }

  lemma PartsValid(m: Meta, n: nat)
    requires m.Valid() && n <= m.Reqs()
    ensures DecodePart(m, n).Valid() && PrefillPart(m, n).Valid()
    ensures DecodePart(m, n).Tokens() == m.offsets[n]
    ensures PrefillPart(m, n).Tokens() == m.Tokens() - m.offsets[n]
  {
    var d, p := DecodePart(m, n), PrefillPart(m, n);
    forall i | 0 <= i < d.Reqs()
      ensures d.QueryLen(i) <= d.maxQueryLen
    {
      assert d.QueryLen(i) == m.QueryLen(i);
    }
    forall i | 0 <= i < p.Reqs()
      ensures p.QueryLen(i) <= p.maxQueryLen
    {
      assert p.QueryLen(i) == m.QueryLen(n + i);
    }
  }

  // ----- prefill q-blocks

  /** (request, first row) of each 8-row block of rows [lo, hi). */
  function BlocksOf(i: nat, lo: nat, hi: nat): seq<(nat, nat)>
    decreases if hi > lo then hi - lo else 0
  {
    if lo >= hi then [] else [(i, lo)] + BlocksOf(i, lo + 8, hi)
  }

  function AllBlocks(offsets: seq<nat>, n: nat): seq<(nat, nat)>
    requires n < |offsets|
  {
    if n == 0 then [] else AllBlocks(offsets, n - 1) + BlocksOf(n - 1, offsets[n - 1], offsets[n])
  }

  /** The host loop that builds the two index lists. */
  method PfQblocks(offsets: seq<nat>, reqs: nat) returns (seqs: seq<nat>, starts: seq<nat>)
    requires reqs < |offsets|
    ensures |seqs| == |starts| == |AllBlocks(offsets, reqs)|
    ensures forall b :: 0 <= b < |seqs| ==> (seqs[b], starts[b]) == AllBlocks(offsets, reqs)[b]
  {
    seqs, starts := [], [];
    var i := 0;
    while i < reqs
      invariant 0 <= i <= reqs
      invariant |seqs| == |starts| == |AllBlocks(offsets, i)|
      invariant forall b :: 0 <= b < |seqs| ==> (seqs[b], starts[b]) == AllBlocks(offsets, i)[b]
    {
      ghost var done := AllBlocks(offsets, i);
      var r := offsets[i];
      ghost var here := [];
      while r < offsets[i + 1]
        invariant here + BlocksOf(i, r, offsets[i + 1]) == BlocksOf(i, offsets[i], offsets[i + 1])
        invariant |seqs| == |starts| == |done + here|
        invariant forall b :: 0 <= b < |seqs| ==> (seqs[b], starts[b]) == (done + here)[b]
        decreases offsets[i + 1] as int - r as int
      {
        seqs, starts := seqs + [i], starts + [r];
        here := here + [(i, r)];
        assert here + BlocksOf(i, r + 8, offsets[i + 1])
               == here[..|here| - 1] + ([(i, r)] + BlocksOf(i, r + 8, offsets[i + 1]));
        r := r + 8;
      }
      assert here == BlocksOf(i, offsets[i], offsets[i + 1]);
      i := i + 1;
    }
  }

  /** The block's eight rows, cut at the end of its request. */
  predicate Covers(offsets: seq<nat>, block: (nat, nat), row: nat)
  {
    block.0 + 1 < |offsets| && block.1 <= row < block.1 + 8 && row < offsets[block.0 + 1]
  }

  function CoverCount(offsets: seq<nat>, blocks: seq<(nat, nat)>, row: nat): nat
  {
    if |blocks| == 0 then 0
    else (if Covers(offsets, blocks[0], row) then 1 else 0) + CoverCount(offsets, blocks[1..], row)
  }

  lemma {:induction false} CoverCountConcat(offsets: seq<nat>, a: seq<(nat, nat)>, b: seq<(nat, nat)>, row: nat)
    ensures CoverCount(offsets, a + b, row) == CoverCount(offsets, a, row) + CoverCount(offsets, b, row)
  {
    if |a| == 0 {
      assert a + b == b;
    } else {
      assert (a + b)[1..] == a[1..] + b;
      CoverCountConcat(offsets, a[1..], b, row);
    }
  }

  lemma CoverCountOne(offsets: seq<nat>, block: (nat, nat), row: nat)
    ensures CoverCount(offsets, [block], row) == if Covers(offsets, block, row) then 1 else 0
  {
    assert [block][1..] == [];
  }

  lemma {:induction false} RequestBlocksOnce(offsets: seq<nat>, i: nat, lo: nat, row: nat)
    requires i + 1 < |offsets|
    ensures CoverCount(offsets, BlocksOf(i, lo, offsets[i + 1]), row) == if lo <= row < offsets[i + 1] then 1 else 0
    decreases if offsets[i + 1] > lo then offsets[i + 1] - lo else 0
  {
    if lo < offsets[i + 1] {
      var rest := BlocksOf(i, lo + 8, offsets[i + 1]);
      assert BlocksOf(i, lo, offsets[i + 1]) == [(i, lo)] + rest;
      RequestBlocksOnce(offsets, i, lo + 8, row);
      CoverCountOne(offsets, (i, lo), row);
      hide BlocksOf, CoverCount;
      CoverCountConcat(offsets, [(i, lo)], rest, row);
    }
  }

  /** Every query row of the first n requests lies in exactly one q-block, and no other row in any. */
  lemma {:induction false} QblocksCoverOnce(offsets: seq<nat>, n: nat, row: nat)
    requires n < |offsets| && forall i, j :: 0 <= i <= j < |offsets| ==> offsets[i] <= offsets[j]
    ensures CoverCount(offsets, AllBlocks(offsets, n), row) == if offsets[0] <= row < offsets[n] then 1 else 0
  {
    if n > 0 {
      QblocksCoverOnce(offsets, n - 1, row);
      CoverCountConcat(offsets, AllBlocks(offsets, n - 1), BlocksOf(n - 1, offsets[n - 1], offsets[n]), row);
      RequestBlocksOnce(offsets, n - 1, offsets[n - 1], row);
      assert offsets[0] <= offsets[n - 1] <= offsets[n];
    }
  }

  lemma {:induction false} SomeBlockCovers(offsets: seq<nat>, blocks: seq<(nat, nat)>, row: nat) returns (b: nat)
    requires CoverCount(offsets, blocks, row) > 0
    ensures b < |blocks| && Covers(offsets, blocks[b], row)
  {
    if Covers(offsets, blocks[0], row) {
      b := 0;
    } else {
      b := SomeBlockCovers(offsets, blocks[1..], row);
      b := b + 1;
    }
  }

  lemma {:induction false} BlocksInsideRequests(offsets: seq<nat>, n: nat)
    requires n < |offsets|
    ensures forall b :: 0 <= b < |AllBlocks(offsets, n)| ==>
              var (i, start) := AllBlocks(offsets, n)[b]; i < n && offsets[i] <= start < offsets[i + 1]
  {
    if n > 0 {
      BlocksInsideRequests(offsets, n - 1);
      BlocksInside(n - 1, offsets[n - 1], offsets[n]);
    }
  }

  lemma {:induction false} BlocksInside(i: nat, lo: nat, hi: nat)
    ensures forall b :: 0 <= b < |BlocksOf(i, lo, hi)| ==>
              BlocksOf(i, lo, hi)[b].0 == i && lo <= BlocksOf(i, lo, hi)[b].1 < hi
    decreases if hi > lo then hi - lo else 0
  {
    if lo < hi {
      BlocksInside(i, lo + 8, hi);
    }
  }

  // ----- attention over the paged cache

  /** Pages of cached rows in their stored form, and what a row decodes to. */
  datatype Cache<!R, !K> = Cache(pages: seq<seq<R>>, block: nat, decode: R -> K)

  /** Position j of a block table names a row the cache has. */
  predicate Names<R, K>(c: Cache<R, K>, table: seq<int>, j: nat)
    requires c.block > 0
  {
    && j / c.block < |table| && 0 <= table[j / c.block] < |c.pages|
    && j % c.block < |c.pages[table[j / c.block]]|
  }

  predicate Readable<R, K>(c: Cache<R, K>, table: seq<int>, n: nat)
  {
    c.block > 0 && forall j: nat :: j < n ==> Names(c, table, j)
  }

  function KeyAt<R, K>(c: Cache<R, K>, table: seq<int>, j: nat): K
    requires c.block > 0 && Names(c, table, j)
  {
    c.decode(c.pages[table[j / c.block]][j % c.block])
  }

  /** The first n keys a block table names. */
  function Keys<R, K>(c: Cache<R, K>, table: seq<int>, n: nat): seq<K>
    requires Readable(c, table, n)
  {
    seq(n, j requires 0 <= j < n => KeyAt(c, table, j))
  }

  /** Attention of one query row: its content, its position in the request, the query length, and the keys. */
  type Attend<!Q, !K, !O> = (Q, nat, nat, seq<K>) -> O

  predicate MetaReadable<R, K>(m: Meta, c: Cache<R, K>)
  {
    |m.tables| == |m.seqLens| && forall i :: 0 <= i < m.Reqs() ==> Readable(c, m.tables[i], m.seqLens[i])
  }

  predicate InRequest(m: Meta, i: nat, row: nat)
    requires |m.offsets| == m.Reqs() + 1
  {
    i < m.Reqs() && m.offsets[i] <= row < m.offsets[i + 1]
  }

  /** Row `row` of request i holds its attention. */
  ghost predicate RowDone<Q, R, K, O>(m: Meta, c: Cache<R, K>, attend: Attend<Q, K, O>, q: seq<Q>, i: nat, row: nat,
                                      o: O)
    requires m.Valid() && MetaReadable(m, c) && InRequest(m, i, row) && |q| == m.Tokens()
  {
    assert row < |q|;
    o == attend(q[row], row - m.offsets[i], m.QueryLen(i), Keys(c, m.tables[i], m.seqLens[i]))
  }

  /** Every row of the batch holds its attention: what one launch over the whole batch leaves. */
  ghost predicate Attended<Q, R, K, O>(m: Meta, c: Cache<R, K>, attend: Attend<Q, K, O>, q: seq<Q>, out: seq<O>)
    requires m.Valid() && MetaReadable(m, c) && |q| == |out| == m.Tokens()
  {
    forall i: nat, row: nat :: InRequest(m, i, row) ==>
      row < |out| && RowDone(m, c, attend, q, i, row, out[row])
  }

  /** Attending the two parts separately attends the batch. */
  lemma PartsAttendBatch<Q, R, K, O>(m: Meta, n: nat, c: Cache<R, K>, attend: Attend<Q, K, O>, q: seq<Q>, out: seq<O>)
    requires m.Valid() && MetaReadable(m, c) && |q| == |out| == m.Tokens() && n <= m.Reqs()
    requires DecodePart(m, n).Valid() && PrefillPart(m, n).Valid()
    requires DecodePart(m, n).Tokens() == m.offsets[n] <= m.Tokens()
    requires PrefillPart(m, n).Tokens() == m.Tokens() - m.offsets[n]
    requires MetaReadable(DecodePart(m, n), c) && MetaReadable(PrefillPart(m, n), c)
    requires Attended(DecodePart(m, n), c, attend, q[..m.offsets[n]], out[..m.offsets[n]])
    requires Attended(PrefillPart(m, n), c, attend, q[m.offsets[n]..], out[m.offsets[n]..])
    ensures Attended(m, c, attend, q, out)
  {
    forall i: nat, row: nat | InRequest(m, i, row)
      ensures row < |out| && RowDone(m, c, attend, q, i, row, out[row])
    {
      assert m.offsets[i + 1] <= m.offsets[|m.offsets| - 1];
      hide Attended, DecodePart, PrefillPart;
      if i < n {
        DecodeRow(m, n, c, attend, q, out, i, row);
      } else {
        PrefillRow(m, n, c, attend, q, out, i, row);
      }
    }
  }

  lemma DecodeRow<Q, R, K, O>(m: Meta, n: nat, c: Cache<R, K>, attend: Attend<Q, K, O>, q: seq<Q>, out: seq<O>, i: nat,
                              row: nat)
    requires m.Valid() && MetaReadable(m, c) && |q| == |out| == m.Tokens() && n <= m.Reqs()
    requires m.offsets[n] <= m.Tokens() && DecodePart(m, n).Valid() && DecodePart(m, n).Tokens() == m.offsets[n]
    requires MetaReadable(DecodePart(m, n), c)
    requires Attended(DecodePart(m, n), c, attend, q[..m.offsets[n]], out[..m.offsets[n]])
    requires InRequest(m, i, row) && i < n && row < |out|
    ensures RowDone(m, c, attend, q, i, row, out[row])
  {
    var d, t := DecodePart(m, n), m.offsets[n];
    assert m.offsets[i + 1] <= t && InRequest(d, i, row);
    assert RowDone(d, c, attend, q[..t], i, row, out[..t][row]);
    assert d.QueryLen(i) == m.QueryLen(i);
  }

  lemma PrefillRow<Q, R, K, O>(m: Meta, n: nat, c: Cache<R, K>, attend: Attend<Q, K, O>, q: seq<Q>, out: seq<O>,
                               i: nat, row: nat)
    requires m.Valid() && MetaReadable(m, c) && |q| == |out| == m.Tokens() && n <= m.Reqs()
    requires m.offsets[n] <= m.Tokens()
    requires PrefillPart(m, n).Valid() && PrefillPart(m, n).Tokens() == m.Tokens() - m.offsets[n]
    requires MetaReadable(PrefillPart(m, n), c)
    requires Attended(PrefillPart(m, n), c, attend, q[m.offsets[n]..], out[m.offsets[n]..])
    requires InRequest(m, i, row) && n <= i && row < |out|
    ensures RowDone(m, c, attend, q, i, row, out[row])
  {
    var p, t := PrefillPart(m, n), m.offsets[n];
    assert t <= m.offsets[i];
    var k, r := i - n, row - t;
    assert InRequest(p, k, r);
    assert RowDone(p, c, attend, q[t..], k, r, out[t..][r]);
    assert p.QueryLen(k) == m.QueryLen(i);
    assert p.tables[k] == m.tables[i] && p.seqLens[k] == m.seqLens[i] && q[t..][r] == q[row];
  }

  /** Everything outside [start, start + count) is as it was. */
  twostate predicate OthersKept<O>(output: array<O>, start: nat, count: nat)
    reads output
  {
    forall k :: 0 <= k < output.Length && !(start <= k < start + count) ==> output[k] == old(output[k])
  }

  lemma ShowAttended<Q, R, K, O>(m: Meta, c: Cache<R, K>, attend: Attend<Q, K, O>, q: seq<Q>, out: seq<O>)
    requires m.Valid() && MetaReadable(m, c) && |q| == |out| == m.Tokens()
    requires forall i: nat, row: nat {:trigger InRequest(m, i, row)} :: InRequest(m, i, row) ==>
               row < |q| && row < |out| && RowDone(m, c, attend, q, i, row, out[row])
    ensures Attended(m, c, attend, q, out)
  {
  }

  lemma RequestRow(m: Meta, i: nat, row: nat)
    requires m.Valid() && InRequest(m, i, row)
    ensures row < m.Tokens()
  {
    assert m.offsets[i + 1] <= m.offsets[|m.offsets| - 1];
  }

  lemma SameRequest(m: Meta, i: nat, i': nat, row: nat)
    requires m.Valid() && InRequest(m, i, row) && InRequest(m, i', row)
    ensures i == i'
  {
  }

  // ----- q-blocks one after another

  /** The rows of one q-block, starting at `start` in the output, hold their attention. */
  ghost predicate BlockDone<Q, R, K, O>(m: Meta, c: Cache<R, K>, attend: Attend<Q, K, O>, q: seq<Q>, out: seq<O>,
                                        start: nat, block: (nat, nat))
    requires m.Valid() && MetaReadable(m, c) && |q| == m.Tokens() && start + m.Tokens() <= |out|
  {
    forall row: nat {:trigger Covers(m.offsets, block, row)} :: Covers(m.offsets, block, row) ==>
      InRequest(m, block.0, row) && row < m.Tokens() && RowDone(m, c, attend, q, block.0, row, out[start + row])
  }

  /** Only rows of the q-block changed. */
  ghost predicate KeptOutside<O>(before: seq<O>, after: seq<O>, start: nat, m: Meta, block: (nat, nat))
  {
    |after| == |before| && forall k :: 0 <= k < |before| ==>
      after[k] == before[k] || (start <= k < start + m.Tokens() && Covers(m.offsets, block, k - start))
  }

  /** The first b blocks are done and nothing outside the slice changed. */
  ghost predicate BlocksDone<Q, R, K, O>(m: Meta, c: Cache<R, K>, attend: Attend<Q, K, O>, q: seq<Q>, before: seq<O>,
                                         out: seq<O>, start: nat, blocks: seq<(nat, nat)>, b: nat)
    requires m.Valid() && MetaReadable(m, c) && |q| == m.Tokens() && start + m.Tokens() <= |out| && b <= |blocks|
  {
    && |out| == |before|
    && (forall a :: 0 <= a < b ==> BlockDone(m, c, attend, q, out, start, blocks[a]))
    && forall k :: 0 <= k < |out| && !(start <= k < start + m.Tokens()) ==> out[k] == before[k]
  }

  lemma NoBlocksDone<Q, R, K, O>(m: Meta, c: Cache<R, K>, attend: Attend<Q, K, O>, q: seq<Q>, out: seq<O>, start: nat,
                                 blocks: seq<(nat, nat)>)
    requires m.Valid() && MetaReadable(m, c) && |q| == m.Tokens() && start + m.Tokens() <= |out|
    ensures BlocksDone(m, c, attend, q, out, out, start, blocks, 0)
  {
    hide MetaReadable, BlockDone;
  }

  /** A block done earlier stays done when another one runs: rows they share are done again. */
  lemma BlockKept<Q, R, K, O>(m: Meta, c: Cache<R, K>, attend: Attend<Q, K, O>, q: seq<Q>, mid: seq<O>, out: seq<O>,
                              start: nat, block: (nat, nat), other: (nat, nat))
    requires m.Valid() && MetaReadable(m, c) && |q| == m.Tokens() && start + m.Tokens() <= |mid| == |out|
    requires BlockDone(m, c, attend, q, mid, start, block) && BlockDone(m, c, attend, q, out, start, other)
    requires KeptOutside(mid, out, start, m, other)
    ensures BlockDone(m, c, attend, q, out, start, block)
  {
    hide MetaReadable, RowDone, Covers;
    forall row: nat | Covers(m.offsets, block, row)
      ensures InRequest(m, block.0, row) && row < m.Tokens() && RowDone(m, c, attend, q, block.0, row, out[start + row])
    {
      if Covers(m.offsets, other, row) {
        SameRequest(m, block.0, other.0, row);
      } else {
        assert out[start + row] == mid[start + row];
      }
    }
  }

  lemma OneMoreBlock<Q, R, K, O>(m: Meta, c: Cache<R, K>, attend: Attend<Q, K, O>, q: seq<Q>, before: seq<O>,
                                 mid: seq<O>, out: seq<O>, start: nat, blocks: seq<(nat, nat)>, b: nat)
    requires m.Valid() && MetaReadable(m, c) && |q| == m.Tokens() && start + m.Tokens() <= |mid| == |out|
             && b < |blocks|
    requires BlocksDone(m, c, attend, q, before, mid, start, blocks, b)
    requires BlockDone(m, c, attend, q, out, start, blocks[b]) && KeptOutside(mid, out, start, m, blocks[b])
    ensures BlocksDone(m, c, attend, q, before, out, start, blocks, b + 1)
  {
    hide MetaReadable, BlockDone, Covers, Meta.Valid;
    forall a | 0 <= a < b
      ensures BlockDone(m, c, attend, q, out, start, blocks[a])
    {
      BlockKept(m, c, attend, q, mid, out, start, blocks[a], blocks[b]);
    }
  }

  /** All blocks done: the partition is attended. */
  lemma AllBlocksDone<Q, R, K, O>(m: Meta, c: Cache<R, K>, attend: Attend<Q, K, O>, q: seq<Q>, before: seq<O>,
                                  out: seq<O>, start: nat)
    requires m.Valid() && MetaReadable(m, c) && |q| == m.Tokens() && start + m.Tokens() <= |out|
    requires var blocks := AllBlocks(m.offsets, m.Reqs());
             BlocksDone(m, c, attend, q, before, out, start, blocks, |blocks|)
    ensures Attended(m, c, attend, q, out[start..start + m.Tokens()])
  {
    var blocks := AllBlocks(m.offsets, m.Reqs());
    hide MetaReadable, RowDone, Covers, AllBlocks;
    forall k: nat, row: nat | InRequest(m, k, row)
      ensures row < m.Tokens() && RowDone(m, c, attend, q, k, row, out[start..start + m.Tokens()][row])
    {
      RequestRow(m, k, row);
      QblocksCoverOnce(m.offsets, m.Reqs(), row);
      var a := SomeBlockCovers(m.offsets, blocks, row);
      assert BlockDone(m, c, attend, q, out, start, blocks[a]);
      SameRequest(m, k, blocks[a].0, row);
    }
    ShowAttended(m, c, attend, q, out[start..start + m.Tokens()]);
  }

  // ----- NVFP4 prefill scratch

  /** Grid of the block-dequant kernel: program pid handles token pid % block of scratch block pid / block. */
  method DequantBlocks<R, K(0)>(c: Cache<R, K>, src: seq<nat>) returns (scratch: array2<K>)
    requires c.block > 0
    requires forall b :: 0 <= b < |src| ==> src[b] < |c.pages| && |c.pages[src[b]]| == c.block
    ensures fresh(scratch) && scratch.Length0 == |src| && scratch.Length1 == c.block
    ensures forall b, t :: 0 <= b < |src| && 0 <= t < c.block ==> scratch[b, t] == c.decode(c.pages[src[b]][t])
  {
    scratch := new K[|src|, c.block];
    var pid := 0;
    while pid < |src| * c.block
      invariant 0 <= pid <= |src| * c.block
      invariant forall b: nat, t: nat :: b < |src| && t < c.block && FlatIndex(b, t, c.block) < pid ==>
                  scratch[b, t] == c.decode(c.pages[src[b]][t])
    {
      FlatOf(pid, |src|, c.block);
      var b, t := pid / c.block, pid % c.block;
      hide FlatIndex;
      scratch[b, t] := c.decode(c.pages[src[b]][t]);
      forall b': nat, t': nat | b' < |src| && t' < c.block && FlatIndex(b', t', c.block) == pid
        ensures b' == b && t' == t
      {
        FlatInverse(b', t', c.block);
      }
      pid := pid + 1;
    }
    forall b: nat, t: nat | b < |src| && t < c.block
      ensures FlatIndex(b, t, c.block) < |src| * c.block
    {
      FlatInRange(b, t, |src|, c.block);
    }
  }

  /** Width of the tables the launch uses. */
  function UsedWidth(m: Meta, block: nat, width: nat): nat
    requires block > 0
  {
    var used := CeilDiv(m.maxSeqLen, block);
    if used <= width then used else width
  }

  /** As many columns as the longest sequence has blocks, or all of a narrower table. */
  lemma UsedWidthIs(m: Meta, block: nat, width: nat)
    requires block > 0
    ensures var w := UsedWidth(m, block, width);
            w <= width && (w < width ==> m.maxSeqLen <= w * block) && (w > 0 ==> (w - 1) * block < m.maxSeqLen)
  {
    var used := CeilDiv(m.maxSeqLen, block);
    CeilCovers(m.maxSeqLen, block);
    hide CeilDiv;
    if UsedWidth(m, block, width) > 0 {
      MulMonotone(UsedWidth(m, block, width) - 1, used - 1, block);
    }
  }

  /** Entry b of the flattened first w columns, clamped at 0. */
  function SourceBlock(tables: seq<seq<int>>, w: nat, b: nat): nat
  {
    if w > 0 && b / w < |tables| && b % w < |tables[b / w]| && tables[b / w][b % w] > 0 then tables[b / w][b % w] else 0
  }

  function SourceBlocks(tables: seq<seq<int>>, w: nat): (src: seq<nat>)
    ensures |src| == |tables| * w && forall b :: 0 <= b < |src| ==> src[b] == SourceBlock(tables, w, b)
  {
    seq(|tables| * w, b requires 0 <= b < |tables| * w => SourceBlock(tables, w, b))
  }

  /** The renumbered tables: row i of width w holds i * w, i * w + 1, ... */
  function Renumbered(n: nat, w: nat): (r: seq<seq<int>>)
    ensures |r| == n && forall i, k :: 0 <= i < n && 0 <= k < w ==> |r[i]| == w && r[i][k] == FlatIndex(i, k, w)
  {
    seq(n, i requires 0 <= i < n => seq(w, k requires 0 <= k < w => FlatIndex(i, k, w)))
  }

  ghost predicate Uniform<R, K>(m: Meta, c: Cache<R, K>, width: nat)
  {
    && (forall i :: 0 <= i < |m.tables| ==> |m.tables[i]| == width)
    && (forall i, k :: 0 <= i < |m.tables| && 0 <= k < width ==> m.tables[i][k] < |c.pages|)
    && (forall p :: 0 <= p < |c.pages| ==> |c.pages[p]| == c.block)
    && (width > 0 && |m.tables| > 0 ==> |c.pages| > 0)
  }

  ghost predicate ScratchOf<R, K(!new)>(m: Meta, c: Cache<R, K>, width: nat, s: Cache<K, K>)
    requires c.block > 0 && Uniform(m, c, width)
  {
    var w := UsedWidth(m, c.block, width);
    var src := SourceBlocks(m.tables, w);
    && s.block == c.block && |s.pages| == |src| && (forall k :: s.decode(k) == k)
    && (forall b :: 0 <= b < |src| ==> |s.pages[b]| == c.block && src[b] < |c.pages|)
    && (forall b, t :: 0 <= b < |src| && 0 <= t < c.block ==> s.pages[b][t] == c.decode(c.pages[src[b]][t]))
  }

  /** A key read through the renumbered table is the key the original table names. */
  lemma ScratchKey<R, K(!new)>(m: Meta, c: Cache<R, K>, width: nat, s: Cache<K, K>, i: nat, j: nat)
    requires m.Valid() && MetaReadable(m, c) && c.block > 0 && Uniform(m, c, width) && ScratchOf(m, c, width, s)
    requires i < m.Reqs() && j < m.seqLens[i]
    ensures var t := Renumbered(m.Reqs(), UsedWidth(m, c.block, width))[i];
            Names(s, t, j) && Names(c, m.tables[i], j) && KeyAt(s, t, j) == KeyAt(c, m.tables[i], j)
  {
    var w := UsedWidth(m, c.block, width);
    assert Readable(c, m.tables[i], m.seqLens[i]) && Names(c, m.tables[i], j);
    var k := j / c.block;
    BelowCeil(j, m.maxSeqLen, c.block);
    FlatInRange(i, k, m.Reqs(), w);
    FlatInverse(i, k, w);
    assert SourceBlocks(m.tables, w)[FlatIndex(i, k, w)] == m.tables[i][k];
  }

  /** The partition with its tables renumbered. */
  function OnScratch(m: Meta, block: nat, width: nat): Meta
    requires block > 0
  {
    m.(tables := Renumbered(m.Reqs(), UsedWidth(m, block, width)))
  }

  /** The renumbered partition reads its keys from the scratch, and they are the keys of the packed cache. */
  lemma ScratchReadable<R, K(!new)>(m: Meta, c: Cache<R, K>, width: nat, s: Cache<K, K>)
    requires m.Valid() && MetaReadable(m, c) && c.block > 0 && Uniform(m, c, width) && ScratchOf(m, c, width, s)
    ensures var m' := OnScratch(m, c.block, width);
            m'.Valid() && MetaReadable(m', s)
            && forall i :: 0 <= i < m.Reqs() ==>
                 Keys(s, m'.tables[i], m.seqLens[i]) == Keys(c, m.tables[i], m.seqLens[i])
  {
    var m' := OnScratch(m, c.block, width);
    forall i: nat, j: nat | i < m.Reqs() && j < m.seqLens[i]
      ensures Names(s, m'.tables[i], j) && Names(c, m.tables[i], j)
              && KeyAt(s, m'.tables[i], j) == KeyAt(c, m.tables[i], j)
    {
      ScratchKey(m, c, width, s, i, j);
    }
    hide ScratchOf, Uniform, Names, Renumbered, UsedWidth;
    assert m'.Valid() by {
      assert forall i :: 0 <= i < m.Reqs() ==> m'.QueryLen(i) == m.QueryLen(i);
    }
    assert MetaReadable(m', s);
  }

  /** Attention through the scratch is attention through the packed cache. */
  lemma ScratchRefines<Q, R, K(!new), O>(m: Meta, c: Cache<R, K>, width: nat, s: Cache<K, K>, attend: Attend<Q, K, O>,
                                   q: seq<Q>, out: seq<O>)
    requires m.Valid() && MetaReadable(m, c) && c.block > 0 && Uniform(m, c, width) && ScratchOf(m, c, width, s)
    requires |q| == |out| == m.Tokens()
    ensures var m' := OnScratch(m, c.block, width);
            m'.Valid() && MetaReadable(m', s) && (Attended(m', s, attend, q, out) ==> Attended(m, c, attend, q, out))
  {
    var m' := OnScratch(m, c.block, width);
    ScratchReadable(m, c, width, s);
    hide ScratchOf, Uniform, Keys, MetaReadable, Renumbered, UsedWidth;
    if Attended(m', s, attend, q, out) {
      forall i: nat, row: nat | InRequest(m, i, row)
        ensures row < |q| && row < |out| && RowDone(m, c, attend, q, i, row, out[row])
      {
        RequestRow(m, i, row);
        assert InRequest(m', i, row) && RowDone(m', s, attend, q, i, row, out[row]);
        assert m'.QueryLen(i) == m.QueryLen(i);
      }
      ShowAttended(m, c, attend, q, out);
    }
  }

  // ----- the partitions in sequence

  ghost function TokensBefore(parts: seq<Meta>, k: nat): nat
    requires k <= |parts|
  {
    if k == 0 then 0 else TokensBefore(parts, k - 1) + parts[k - 1].Tokens()
  }

  ghost predicate Runnable<R, K>(m: Meta, c: Cache<R, K>, width: nat)
  {
    m.Valid() && MetaReadable(m, c) && c.block > 0 && Uniform(m, c, width)
  }

  lemma PartsRunnable<R, K>(m: Meta, n: nat, c: Cache<R, K>, width: nat)
    requires Runnable(m, c, width) && n <= m.Reqs()
    ensures Runnable(DecodePart(m, n), c, width) && Runnable(PrefillPart(m, n), c, width)
  {
    PartsValid(m, n);
    hide *;
    DecodeRunnable(m, n, c, width);
    PrefillRunnable(m, n, c, width);
  }

  lemma DecodeRunnable<R, K>(m: Meta, n: nat, c: Cache<R, K>, width: nat)
    requires Runnable(m, c, width) && n <= m.Reqs() && DecodePart(m, n).Valid()
    ensures Runnable(DecodePart(m, n), c, width)
  {
    var d := DecodePart(m, n);
    assert d.tables == m.tables[..n] && d.seqLens == m.seqLens[..n];
    hide DecodePart, Meta.Valid, Readable;
  }

  lemma PrefillRunnable<R, K>(m: Meta, n: nat, c: Cache<R, K>, width: nat)
    requires Runnable(m, c, width) && n <= m.Reqs() && PrefillPart(m, n).Valid()
    ensures Runnable(PrefillPart(m, n), c, width)
  {
    var p := PrefillPart(m, n);
    assert p.tables == m.tables[n..] && p.seqLens == m.seqLens[n..];
    hide PrefillPart, Meta.Valid, Readable;
    assert forall i :: 0 <= i < p.Reqs() ==> p.tables[i] == m.tables[n + i] && p.seqLens[i] == m.seqLens[n + i];
  }

  ghost predicate PartDone<Q, R, K, O>(parts: seq<Meta>, k: nat, c: Cache<R, K>, attend: Attend<Q, K, O>, q: seq<Q>,
                                       out: seq<O>)
    requires k < |parts|
  {
    var a, b := TokensBefore(parts, k), TokensBefore(parts, k + 1);
    && a <= b <= |q| == |out| && parts[k].Valid() && MetaReadable(parts[k], c) && b - a == parts[k].Tokens()
    && Attended(parts[k], c, attend, q[a..b], out[a..b])
  }

  lemma TokensBeforeStep(parts: seq<Meta>, k: nat)
    ensures TokensBefore(parts, 0) == 0
    ensures k < |parts| ==> TokensBefore(parts, k + 1) == TokensBefore(parts, k) + parts[k].Tokens()
  {
  }

  lemma {:induction false} TokensBeforeGrows(parts: seq<Meta>, j: nat, k: nat)
    requires j <= k <= |parts|
    ensures TokensBefore(parts, j) <= TokensBefore(parts, k)
    decreases k
  {
    if j < k {
      TokensBeforeGrows(parts, j, k - 1);
    }
  }

  /** What forward runs: the partitions, or the batch itself when there are none. */
  function PartsOf(m: Meta, plan: Plan): (parts: seq<Meta>)
    ensures |parts| > 0
  {
    if |plan.partitions| == 0 then [m] else plan.partitions
  }

  /** What forward runs: the whole batch, or the two parts; host offsets always belong to the last of them. */
  lemma PlanParts<R, K>(m: Meta, plan: Plan, capacity: nat, threshold: nat, c: Cache<R, K>, width: nat)
    requires Runnable(m, c, width) && PlanOf(m, plan, capacity, threshold)
    ensures var parts := PartsOf(m, plan);
            && (forall k :: 0 <= k < |parts| ==> Runnable(parts[k], c, width))
            && plan.hostOffsets == parts[|parts| - 1].offsets
            && TokensBefore(parts, |parts|) == m.Tokens()
            && (|parts| == 1 ==> parts == [m])
            && (|parts| != 1 ==>
                  && parts == [DecodePart(m, Decodes(m, threshold, 0)), PrefillPart(m, Decodes(m, threshold, 0))]
                  && TokensBefore(parts, 1) == m.offsets[Decodes(m, threshold, 0)])
  {
    var n := Decodes(m, threshold, 0);
    PartsRunnable(m, n, c, width);
    PartsValid(m, n);
    var parts := PartsOf(m, plan);
    assert TokensBefore(parts, 1) == parts[0].Tokens();
    if |parts| == 2 {
      assert TokensBefore(parts, 2) == TokensBefore(parts, 1) + parts[1].Tokens();
    }
  }

  /** Running the next part leaves the earlier parts' slices alone. */
  lemma KeepParts<Q, R, K, O>(parts: seq<Meta>, k: nat, c: Cache<R, K>, attend: Attend<Q, K, O>, q: seq<Q>,
                              before: seq<O>, after: seq<O>)
    requires k <= |parts| && |before| == |after| >= TokensBefore(parts, k)
    requires forall j :: 0 <= j < TokensBefore(parts, k) ==> after[j] == before[j]
    requires FirstPartsDone(parts, k, c, attend, q, before)
    ensures FirstPartsDone(parts, k, c, attend, q, after)
  {
    forall j | 0 <= j < k
      ensures PartDone(parts, j, c, attend, q, after)
    {
      TokensBeforeGrows(parts, j + 1, k);
      assert PartDone(parts, j, c, attend, q, before);
      var a, b := TokensBefore(parts, j), TokensBefore(parts, j + 1);
      assert after[a..b] == before[a..b];
    }
  }

  ghost predicate FirstPartsDone<Q, R, K, O>(parts: seq<Meta>, k: nat, c: Cache<R, K>, attend: Attend<Q, K, O>,
                                             q: seq<Q>, out: seq<O>)
    requires k <= |parts|
  {
    forall j :: 0 <= j < k ==> PartDone(parts, j, c, attend, q, out)
  }

  lemma RunnableParts<R, K>(m: Meta, c: Cache<R, K>, width: nat)
    requires Runnable(m, c, width)
    ensures m.Valid() && MetaReadable(m, c)
  {
  }

  lemma Combine<Q, R, K, O>(m: Meta, plan: Plan, capacity: nat, threshold: nat, c: Cache<R, K>, width: nat,
                            attend: Attend<Q, K, O>, q: seq<Q>, out: seq<O>)
    requires Runnable(m, c, width) && |q| == m.Tokens() == |out| && PlanOf(m, plan, capacity, threshold)
    requires var parts := PartsOf(m, plan);
             FirstPartsDone(parts, |parts|, c, attend, q, out)
    ensures Attended(m, c, attend, q, out)
  {
    PlanParts(m, plan, capacity, threshold, c, width);
    var parts := PartsOf(m, plan);
    RunnableParts(m, c, width);
    hide Attended, PlanOf, Runnable;
    if |parts| == 1 {
      TokensBeforeStep(parts, 0);
      assert PartDone(parts, 0, c, attend, q, out);
      assert q[0..m.Tokens()] == q && out[0..m.Tokens()] == out;
    } else {
      CombineTwo(m, Decodes(m, threshold, 0), c, width, attend, q, out);
    }
  }

  lemma CombineTwo<Q, R, K, O>(m: Meta, n: nat, c: Cache<R, K>, width: nat, attend: Attend<Q, K, O>, q: seq<Q>,
                               out: seq<O>)
    requires Runnable(m, c, width) && |q| == m.Tokens() == |out| && n <= m.Reqs()
    requires FirstPartsDone([DecodePart(m, n), PrefillPart(m, n)], 2, c, attend, q, out)
    ensures Attended(m, c, attend, q, out)
  {
    var d, p, t := DecodePart(m, n), PrefillPart(m, n), m.offsets[n];
    var parts := [d, p];
    PartsValid(m, n);
    PartsRunnable(m, n, c, width);
    RunnableParts(d, c, width);
    RunnableParts(p, c, width);
    TokensBeforeStep(parts, 0);
    TokensBeforeStep(parts, 1);
    assert PartDone(parts, 0, c, attend, q, out) && PartDone(parts, 1, c, attend, q, out);
    hide Attended, DecodePart, PrefillPart, Runnable, FirstPartsDone;
    assert q[0..t] == q[..t] && out[0..t] == out[..t];
    assert q[t..m.Tokens()] == q[t..] && out[t..m.Tokens()] == out[t..];
    PartsAttendBatch(m, n, c, attend, q, out);
  }
}
