/** The NVFP4 cache end to end: a batch is written, forward runs, and attention is dense over the quantized tokens. */
module ServedCache {
  import opened IndexMath
  import opened Softmax
  import opened UnifiedAttention
  import opened Nvfp4
  import opened Nvfp4Cache
  import opened CachedRows
  import Backend = DiffKvBackend
  import Rows = ModelRows
  import Forwarding = BackendForward
  import Triton = TritonPath
  import Cuda = CudaPath
  import PrefillKernel
  import SplitKv

  /** The bytes of a cell's rows, one row per KV head. */
  function CellRow(l: Layout, s: seq<byte>, page: nat, off: nat): (r: CachedRow)
    requires l.Valid(|s|) && page < l.pages && off < l.blockSize
    ensures r.Packed? && |r.bytes| == l.heads
    ensures forall h :: 0 <= h < l.heads ==>
              && l.Row(page, h, off) + l.Payload() <= |s|
              && r.bytes[h] == s[l.Row(page, h, off)..l.Row(page, h, off) + l.Payload()]
  {
    CellInCache(l, |s|, page, off);
    Packed(seq(l.heads, h requires 0 <= h < l.heads => s[l.Row(page, h, off)..l.Row(page, h, off) + l.Payload()]))
  }

  lemma CellInCache(l: Layout, length: nat, page: nat, off: nat)
    requires l.Valid(length) && page < l.pages && off < l.blockSize
    ensures forall h: nat :: h < l.heads ==> l.Row(page, h, off) + l.Payload() <= length
  {
    hide Layout.Row, Layout.Payload;
    assert l.Valid(length);
    hide Layout.Valid;
    forall h: nat | h < l.heads
      ensures l.Row(page, h, off) + l.Payload() <= length
    {
      RowInCache(l, length, page, h, off);
    }
  }

  /** The byte tensor as the backend's cache of packed rows. */
  function CacheOf(ml: Rows.Layer, l: Layout, s: seq<byte>): (c: Backend.Cache<CachedRow, Rows.HeadKeys>)
    requires l.Valid(|s|)
    ensures |c.pages| == l.pages && c.block == l.blockSize
    ensures forall p :: 0 <= p < l.pages ==> |c.pages[p]| == l.blockSize
    ensures forall p, o :: 0 <= p < l.pages && 0 <= o < l.blockSize ==> c.pages[p][o] == CellRow(l, s, p, o)
    ensures forall r: CachedRow :: c.decode(r) == Decode(ml, r)
  {
    Backend.Cache(seq(l.pages, p requires 0 <= p < l.pages =>
                        seq(l.blockSize, o requires 0 <= o < l.blockSize => CellRow(l, s, p, o))),
                  l.blockSize, r => Decode(ml, r))
  }

  /** A token's keys as the kernels see them: every element quantized within its group. */
  function QuantizedKeys(enc: real -> byte, ml: Rows.Layer, k: seq<seq<real>>, v: seq<seq<real>>): (keys: Rows.HeadKeys)
    requires Sized(ml, k, v)
    ensures |keys| == ml.kvHeads
    ensures forall h :: 0 <= h < ml.kvHeads ==> keys[h] == Key(QuantizedRow(enc, k[h]), QuantizedRow(enc, v[h]))
  {
    seq(ml.kvHeads, h requires 0 <= h < ml.kvHeads => Key(QuantizedRow(enc, k[h]), QuantizedRow(enc, v[h])))
  }

  function QuantizedRow(enc: real -> byte, xs: seq<real>): (r: seq<real>)
    requires |xs| % 16 == 0
    ensures |r| == |xs| && forall d :: 0 <= d < |r| ==> r[d] == Quantized(enc, xs, d)
  {
    seq(|xs|, d requires 0 <= d < |xs| => Quantized(enc, xs, d))
  }

  /** One key and one value vector of the layer's sizes per KV head. */
  predicate Sized(ml: Rows.Layer, k: seq<seq<real>>, v: seq<seq<real>>)
  {
    && ml.hqk % 16 == 0 && ml.hv % 16 == 0 && |k| == ml.kvHeads == |v|
    && forall h :: 0 <= h < ml.kvHeads ==> |k[h]| == ml.hqk && |v[h]| == ml.hv
  }

  predicate Matches(ml: Rows.Layer, l: Layout) { l.heads == ml.kvHeads && l.hqk == ml.hqk && l.hv == ml.hv }

  /** Every head's row of a cell holds the token. */
  ghost predicate CellHolds(enc: real -> byte, l: Layout, s: seq<byte>, page: nat, off: nat, k: seq<seq<real>>,
                            v: seq<seq<real>>)
  {
    |k| == l.heads == |v| && forall h: nat :: h < l.heads ==> RowHolds(enc, l, s, l.Row(page, h, off), k[h], v[h])
  }

  lemma CellSized(enc: real -> byte, ml: Rows.Layer, l: Layout, s: seq<byte>, page: nat, off: nat, k: seq<seq<real>>,
                  v: seq<seq<real>>)
    requires l.hqk % 16 == 0 && l.hv % 16 == 0 && Matches(ml, l) && CellHolds(enc, l, s, page, off, k, v)
    ensures Sized(ml, k, v)
  {
    hide SideHolds, Layout.Row, Layout.Payload;
    forall h: nat | h < l.heads
      ensures |k[h]| == ml.hqk && |v[h]| == ml.hv
    {
      assert RowHolds(enc, l, s, l.Row(page, h, off), k[h], v[h]);
    }
  }

  /** A cell that holds a token decodes to the token's quantized key and value in every head. */
  lemma CellDecodes(enc: real -> byte, ml: Rows.Layer, l: Layout, s: seq<byte>, page: nat, off: nat,
                    k: seq<seq<real>>, v: seq<seq<real>>)
    requires l.Valid(|s|) && page < l.pages && off < l.blockSize && Matches(ml, l)
    requires CellHolds(enc, l, s, page, off, k, v)
    ensures Sized(ml, k, v) && Decode(ml, CellRow(l, s, page, off)) == QuantizedKeys(enc, ml, k, v)
  {
    hide Layout.Row, Layout.Payload, RowHolds, CellRow, Quantized, UnpackedKey, PayloadBytes, Stored, QuantizedKeys;
    assert l.hqk % 16 == 0 && l.hv % 16 == 0;
    assert l.Valid(|s|);
    hide Layout.Valid;
    CellSized(enc, ml, l, s, page, off, k, v);
    StoredCell(ml, l, s, page, off);
    var r := CellRow(l, s, page, off);
    forall h: nat | h < ml.kvHeads
      ensures Decode(ml, r)[h] == QuantizedKeys(enc, ml, k, v)[h]
    {
      RowDecodes(enc, l, s, l.Row(page, h, off), k[h], v[h]);
    }
  }

  lemma StoredCell(ml: Rows.Layer, l: Layout, s: seq<byte>, page: nat, off: nat)
    requires l.Valid(|s|) && page < l.pages && off < l.blockSize && Matches(ml, l)
    ensures Stored(ml, CellRow(l, s, page, off))
  {
    hide Layout.Row, PayloadBytes, CellRow;
  }

  lemma RowDecodes(enc: real -> byte, l: Layout, s: seq<byte>, row: nat, k: seq<real>, v: seq<real>)
    requires l.hqk % 16 == 0 && l.hv % 16 == 0 && RowHolds(enc, l, s, row, k, v)
    ensures row + l.Payload() <= |s| && |k| == l.hqk && |v| == l.hv
    ensures UnpackedKey(l.hqk, l.hv, s[row..row + l.Payload()]) == Key(QuantizedRow(enc, k), QuantizedRow(enc, v))
  {
    WrittenRowDecodes(enc, l, s, row, k, v);
    assert |k| == l.hqk && |v| == l.hv && row + l.Payload() <= |s|;
    hide *;
    var key := UnpackedKey(l.hqk, l.hv, s[row..row + l.Payload()]);
    assert key.k == QuantizedRow(enc, k);
    assert key.v == QuantizedRow(enc, v);
  }

  // ----- after the batch is written

  /** One token's key and value, a vector per KV head. */
  datatype Token = Token(k: seq<seq<real>>, v: seq<seq<real>>)

  /** What WriteBatch leaves: the rows of the batch, and every other byte as it was. */
  ghost predicate Wrote(enc: real -> byte, l: Layout, b: Batch, s: seq<byte>, s': seq<byte>)
    requires l.blockSize > 0 && b.Valid(l)
  {
    && |s'| == |s|
    && (forall t: nat, h: nat :: h < l.heads && t < |b.slots| && b.slots[t] >= 0 ==>
          RowHolds(enc, l, s', b.At(l, t, h), b.k[t][h], b.v[t][h]))
    && (forall i :: 0 <= i < |s| && !Written(l, b, i) ==> s'[i] == s[i])
  }

  /** The batch writes the token to the slot, or leaves the slot alone and the token is there already. */
  ghost predicate Placed(enc: real -> byte, l: Layout, b: Batch, s: seq<byte>, slot: nat, x: Token)
    requires l.blockSize > 0 && b.Valid(l)
  {
    || (exists t: nat :: t < |b.slots| && b.slots[t] == slot && b.k[t] == x.k && b.v[t] == x.v)
    || (slot !in b.slots && CellHolds(enc, l, s, l.Page(slot), l.Off(slot), x.k, x.v))
  }

  lemma PlacedHolds(enc: real -> byte, l: Layout, b: Batch, s: seq<byte>, s': seq<byte>, slot: nat, x: Token)
    requires l.Valid(|s|) && b.Valid(l) && l.HasSlot(slot) && Wrote(enc, l, b, s, s') && Placed(enc, l, b, s, slot, x)
    ensures CellHolds(enc, l, s', l.Page(slot), l.Off(slot), x.k, x.v)
  {
    hide RowHolds, Layout.Row, Layout.Page, Layout.Off, Written;
    if t: nat :| t < |b.slots| && b.slots[t] == slot && b.k[t] == x.k && b.v[t] == x.v {
      assert forall h: nat :: h < l.heads ==> b.At(l, t, h) == l.SlotRow(slot, h);
    } else {
      hide Batch.Valid, Layout.Valid;
      forall h: nat | h < l.heads
        ensures RowHolds(enc, l, s', l.Row(l.Page(slot), h, l.Off(slot)), x.k[h], x.v[h])
      {
        UntouchedRow(enc, l, b, s, s', slot, h, x);
      }
    }
  }

  lemma UntouchedRow(enc: real -> byte, l: Layout, b: Batch, s: seq<byte>, s': seq<byte>, slot: nat, h: nat, x: Token)
    requires l.Valid(|s|) && b.Valid(l) && l.HasSlot(slot) && Wrote(enc, l, b, s, s') && slot !in b.slots && h < l.heads
    requires CellHolds(enc, l, s, l.Page(slot), l.Off(slot), x.k, x.v)
    ensures RowHolds(enc, l, s', l.SlotRow(slot, h), x.k[h], x.v[h])
  {
    var row := l.SlotRow(slot, h);
    assert RowHolds(enc, l, s, row, x.k[h], x.v[h]);
    SlotInCache(l, |s|, slot, h);
    forall i | row <= i < row + l.Payload()
      ensures s'[i] == s[i]
    {
      NotWritten(l, b, |s|, slot, h, i);
    }
    hide RowHolds, Layout.SlotRow, Layout.Payload, Wrote;
    RowFrame(enc, l, s, s', row, x.k[h], x.v[h]);
  }

  lemma NotWritten(l: Layout, b: Batch, length: nat, slot: nat, h: nat, i: int)
    requires l.Valid(length) && b.Valid(l) && l.HasSlot(slot) && slot !in b.slots && h < l.heads
    requires l.SlotRow(slot, h) <= i < l.SlotRow(slot, h) + l.Payload()
    ensures !Written(l, b, i)
  {
    hide Layout.SlotRow, Layout.Payload, Layout.HasSlot;
    forall t: nat, h': nat | h' < l.heads && t < |b.slots| && b.slots[t] >= 0
      ensures !(b.At(l, t, h') <= i < b.At(l, t, h') + l.Payload())
    {
      assert b.slots[t] in b.slots;
      SlotsDisjoint(l, length, slot, h, b.slots[t], h');
    }
  }

  // ----- the batch reads the cache through its block tables

  /** Tables of one width naming pages of the cache, and query rows that are the last of their requests. */
  ghost predicate Addresses(m: Backend.Meta, l: Layout, width: nat)
  {
    && m.Valid() && l.blockSize > 0 && (width > 0 && m.Reqs() > 0 ==> l.pages > 0)
    && (forall i :: 0 <= i < m.Reqs() ==> |m.tables[i]| == width && m.QueryLen(i) <= m.seqLens[i])
    && (forall i, p :: 0 <= i < m.Reqs() && 0 <= p < width ==> m.tables[i][p] < l.pages)
    && forall i: nat, j: nat :: i < m.Reqs() && j < m.seqLens[i] ==> Named(m, l, i, j)
  }

  predicate Named(m: Backend.Meta, l: Layout, i: nat, j: nat)
    requires l.blockSize > 0 && i < |m.tables|
  {
    j / l.blockSize < |m.tables[i]| && 0 <= m.tables[i][j / l.blockSize] < l.pages
  }

  /** The slot of position j of request i. */
  function SlotAt(m: Backend.Meta, l: Layout, i: nat, j: nat): (slot: nat)
    requires l.blockSize > 0 && i < |m.tables| && Named(m, l, i, j)
    ensures l.HasSlot(slot) && l.Page(slot) == m.tables[i][j / l.blockSize] && l.Off(slot) == j % l.blockSize
  {
    FlatInverse(m.tables[i][j / l.blockSize], j % l.blockSize, l.blockSize);
    FlatInRange(m.tables[i][j / l.blockSize], j % l.blockSize, l.pages, l.blockSize);
    FlatIndex(m.tables[i][j / l.blockSize], j % l.blockSize, l.blockSize)
  }

  lemma CellServes(k: Forwarding.Knobs, ml: Rows.Layer, l: Layout, s: seq<byte>, m: Backend.Meta, i: nat, j: nat)
    requires k.nvfp4 && Matches(ml, l) && l.Valid(|s|) && l.blockSize > 0 && i < |m.tables| && Named(m, l, i, j)
    ensures Backend.Names(CacheOf(ml, l, s), m.tables[i], j)
    ensures Forwarding.StoredAt(k, ml, CacheOf(ml, l, s), m.tables[i], j)
  {
    StoredCell(ml, l, s, m.tables[i][j / l.blockSize], j % l.blockSize);
    hide Stored, CacheOf, CellRow, Layout.Valid, Matches;
  }

  lemma CacheRuns(ml: Rows.Layer, l: Layout, s: seq<byte>, m: Backend.Meta, width: nat)
    requires l.Valid(|s|) && Addresses(m, l, width)
    requires forall i: nat, j: nat :: i < m.Reqs() && j < m.seqLens[i] ==>
               Backend.Names(CacheOf(ml, l, s), m.tables[i], j)
    ensures Backend.Runnable(m, CacheOf(ml, l, s), width)
  {
    hide Backend.Names, CacheOf, Layout.Valid, Named;
  }

  lemma CacheDecodes(ml: Rows.Layer, l: Layout, s: seq<byte>)
    requires l.Valid(|s|)
    ensures forall r: CachedRow :: CacheOf(ml, l, s).decode(r) == Decode(ml, r)
  {
    hide CacheOf, Decode, Layout.Valid;
  }

  /** Whatever the bytes are, the cache serves the batch. */
  lemma CacheServes(k: Forwarding.Knobs, ml: Rows.Layer, l: Layout, s: seq<byte>, m: Backend.Meta, width: nat)
    requires k.nvfp4 && ml.Valid() && Matches(ml, l) && l.Valid(|s|) && Addresses(m, l, width)
    ensures Forwarding.Served(k, ml, m, CacheOf(ml, l, s), width)
  {
    forall i: nat, j: nat | i < m.Reqs() && j < m.seqLens[i]
      ensures Backend.Names(CacheOf(ml, l, s), m.tables[i], j)
      ensures Forwarding.StoredAt(k, ml, CacheOf(ml, l, s), m.tables[i], j)
    {
      assert Named(m, l, i, j);
      hide *;
      CellServes(k, ml, l, s, m, i, j);
    }
    CacheRuns(ml, l, s, m, width);
    CacheDecodes(ml, l, s);
    hide Forwarding.StoredAt, Layout.Valid, CacheOf, Backend.Names, Decode, Backend.Runnable, Named, Matches;
  }

  /** The quantized keys of the first n tokens. */
  function QuantizedTokens(enc: real -> byte, ml: Rows.Layer, xs: nat -> Token, n: nat): (keys: seq<Rows.HeadKeys>)
    requires forall j: nat :: j < n ==> Sized(ml, xs(j).k, xs(j).v)
    ensures |keys| == n && forall j: nat :: j < n ==> keys[j] == QuantizedKeys(enc, ml, xs(j).k, xs(j).v)
  {
    seq(n, j requires 0 <= j < n => QuantizedKeys(enc, ml, xs(j).k, xs(j).v))
  }

  /** Every position of request i is placed. */
  ghost predicate RequestPlaced(enc: real -> byte, l: Layout, b: Batch, s: seq<byte>, m: Backend.Meta, i: nat,
                                xs: nat -> Token)
    requires l.blockSize > 0 && b.Valid(l) && i < |m.tables| == |m.seqLens|
  {
    forall j: nat :: j < m.seqLens[i] ==> Named(m, l, i, j) && Placed(enc, l, b, s, SlotAt(m, l, i, j), xs(j))
  }

  lemma KeysRead(enc: real -> byte, ml: Rows.Layer, l: Layout, b: Batch, s: seq<byte>, s': seq<byte>, m: Backend.Meta,
                 i: nat, xs: nat -> Token)
    requires Matches(ml, l) && l.Valid(|s|) && b.Valid(l) && Wrote(enc, l, b, s, s') && i < |m.tables| == |m.seqLens|
    requires RequestPlaced(enc, l, b, s, m, i, xs)
    ensures l.Valid(|s'|) && Backend.Readable(CacheOf(ml, l, s'), m.tables[i], m.seqLens[i])
    ensures forall j: nat :: j < m.seqLens[i] ==> Sized(ml, xs(j).k, xs(j).v)
    ensures Backend.Keys(CacheOf(ml, l, s'), m.tables[i], m.seqLens[i]) == QuantizedTokens(enc, ml, xs, m.seqLens[i])
  {
    var c := CacheOf(ml, l, s');
    assert l.blockSize > 0;
    forall j: nat | j < m.seqLens[i]
      ensures Backend.Names(c, m.tables[i], j) && Sized(ml, xs(j).k, xs(j).v)
      ensures Backend.KeyAt(c, m.tables[i], j) == QuantizedKeys(enc, ml, xs(j).k, xs(j).v)
    {
      KeyRead(enc, ml, l, b, s, s', m, i, j, xs(j));
    }
    hide Backend.KeyAt, Backend.Names, Sized, CacheOf, Wrote, Placed, Batch.Valid, Layout.Valid;
  }

  lemma KeyRead(enc: real -> byte, ml: Rows.Layer, l: Layout, b: Batch, s: seq<byte>, s': seq<byte>, m: Backend.Meta,
                i: nat, j: nat, x: Token)
    requires Matches(ml, l) && l.Valid(|s|) && b.Valid(l) && Wrote(enc, l, b, s, s') && i < |m.tables|
    requires Named(m, l, i, j) && Placed(enc, l, b, s, SlotAt(m, l, i, j), x)
    ensures l.Valid(|s'|) && Sized(ml, x.k, x.v)
    ensures Backend.Names(CacheOf(ml, l, s'), m.tables[i], j)
    ensures Backend.KeyAt(CacheOf(ml, l, s'), m.tables[i], j) == QuantizedKeys(enc, ml, x.k, x.v)
  {
    var slot := SlotAt(m, l, i, j);
    PlacedHolds(enc, l, b, s, s', slot, x);
    assert l.Valid(|s'|);
    hide Wrote, Placed, Batch.Valid, Layout.Valid, CellHolds, Sized, CellRow, CacheOf, QuantizedKeys, Decode;
    CellDecodes(enc, ml, l, s', l.Page(slot), l.Off(slot), x.k, x.v);
  }

  // ----- the composition

  /** Row `row` of request i holds dense attention over the quantized tokens of its request. */
  ghost predicate RowServed(e: Exponential, enc: real -> byte, ml: Rows.Layer, m: Backend.Meta, q: Rows.HeadRow,
                                   i: nat, row: nat, xs: nat -> Token, o: Rows.HeadRow)
    requires m.Valid() && Backend.InRequest(m, i, row)
  {
    && (forall j: nat :: j < m.seqLens[i] ==> Sized(ml, xs(j).k, xs(j).v))
    && var keys, d := QuantizedTokens(enc, ml, xs, m.seqLens[i]), ml.(kDescale := 1.0, vDescale := 1.0);
       Rows.RowOk(d, q, row - m.offsets[i], m.QueryLen(i), keys)
       && o == Rows.DenseRow(e, d, q, row - m.offsets[i], m.QueryLen(i), keys)
  }

  /** do_kv_cache_update() and then forward(): whatever the cache held, whichever paths the parts take and in whatever
      order the programs run, every output row is dense attention over its request's quantized keys and values. */
  method WriteThenForward(enc: real -> byte, exp2: Exponential, k: Forwarding.Knobs, ml: Rows.Layer, l: Layout,
                          b: Batch, cache: array<byte>, order: seq<(nat, nat)>, u: Triton.Setup, m: Backend.Meta,
                          width: nat, sight: Cuda.Sight, plan: Backend.Plan, ghost capacity: nat, ghost threshold: nat,
                          q: seq<Rows.HeadRow>, scratch: SplitKv.Scratch, output: array<Rows.HeadRow>,
                          ghost tokens: nat -> nat -> Token)
    requires l.Valid(cache.Length) && b.Valid(l) && Grid(l, b, order)
    requires k.nvfp4 && ml.Valid() && Matches(ml, l) && Addresses(m, l, width) && Forwarding.QueriesOk(ml, q)
    requires forall i: nat :: i < m.Reqs() ==> RequestPlaced(enc, l, b, cache[..], m, i, tokens(i))
    requires u.Valid() && u.Allocated(ml, scratch) && Cuda.Faithful(sight)
    requires |q| == m.Tokens() == output.Length && Backend.PlanOf(m, plan, capacity, threshold)
    modifies cache, output, scratch.maxes, scratch.sums, scratch.outs
    ensures forall i: nat, row: nat :: Backend.InRequest(m, i, row) ==>
              row < |q| && RowServed(PrefillKernel.Natural(exp2), enc, ml, m, q[row], i, row, tokens(i), output[row])
  {
    ghost var s := cache[..];
    WriteBatch(enc, l, b, cache, order);
    var c := CacheOf(ml, l, cache[..]);
    ghost var s' := cache[..];
    assert Wrote(enc, l, b, s, s');
    assert m.Valid();
    hide *;
    CacheServes(k, ml, l, s', m, width);
    Forwarding.Forward(exp2, k, ml, u, m, c, width, sight, plan, capacity, threshold, q, scratch, output);
    forall i: nat, row: nat | Backend.InRequest(m, i, row)
      ensures row < |q| && RowServed(PrefillKernel.Natural(exp2), enc, ml, m, q[row], i, row, tokens(i), output[row])
    {
      Backend.RequestRow(m, i, row);
      KeysRead(enc, ml, l, b, s, s', m, i, tokens(i));
      RowOfQuantized(exp2, enc, k, ml, l, s', m, width, q, i, row, tokens(i), output[row]);
    }
  }

  /** A row done over the cache is done over the quantized tokens the cache holds. */
  lemma RowOfQuantized(exp2: Exponential, enc: real -> byte, k: Forwarding.Knobs, ml: Rows.Layer, l: Layout,
                       s: seq<byte>, m: Backend.Meta, width: nat, q: seq<Rows.HeadRow>, i: nat, row: nat,
                       xs: nat -> Token, o: Rows.HeadRow)
    requires k.nvfp4 && l.Valid(|s|) && Forwarding.Served(k, ml, m, CacheOf(ml, l, s), width)
    requires Forwarding.QueriesOk(ml, q) && |q| == m.Tokens() && Backend.InRequest(m, i, row) && row < |q|
    requires var d := Forwarding.Descaled(k, ml, Forwarding.Direct);
             Backend.RowDone(m, CacheOf(ml, l, s), Rows.DenseAttend(PrefillKernel.Natural(exp2), d), q, i, row, o)
    requires forall j: nat :: j < m.seqLens[i] ==> Sized(ml, xs(j).k, xs(j).v)
    requires Backend.Keys(CacheOf(ml, l, s), m.tables[i], m.seqLens[i]) == QuantizedTokens(enc, ml, xs, m.seqLens[i])
    ensures RowServed(PrefillKernel.Natural(exp2), enc, ml, m, q[row], i, row, xs, o)
  {
    var keys := QuantizedTokens(enc, ml, xs, m.seqLens[i]);
    assert forall j: nat :: j < |keys| ==> Rows.KeyOk(ml, keys[j]);
    assert Forwarding.RequestServed(k, ml, m, CacheOf(ml, l, s), i);
    hide QuantizedTokens, QuantizedKeys, CacheOf, Rows.DenseRow, Sized;
  }
}
