/** The paged NVFP4 cache: where rows lie, the launch that writes a batch, and what each reader finds there. */
module Nvfp4Cache {
  import opened IndexMath
  import opened Nvfp4

  function Product(x: nat, y: nat): nat { x * y }

  /** A [pages, heads, blockSize, ROW] byte tensor with its strides; a page or a row may carry padding. */
  datatype Layout = Layout(pages: nat, heads: nat, blockSize: nat, hqk: nat, hv: nat, s0: nat, s1: nat, s2: nat) {
    predicate Valid(length: nat) {
      && blockSize > 0 && hqk % 16 == 0 && hv % 16 == 0
      && RowBytes(hqk, hv) <= s2 && Product(blockSize, s2) <= s1 && Product(heads, s1) <= s0
           && Product(pages, s0) <= length
    }

    predicate Has(page: nat, head: nat, off: nat) {
      page < pages && head < heads && off < blockSize
    }

    /** Byte address of a row. */
    function Row(page: nat, head: nat, off: nat): nat {
      Product(page, s0) + Product(head, s1) + Product(off, s2)
    }

    function SlotRow(slot: nat, head: nat): nat
      requires blockSize > 0
    {
      Row(Page(slot), head, Off(slot))
    }

    function Page(slot: nat): nat
      requires blockSize > 0
    {
      slot / blockSize
    }

    function Off(slot: nat): nat
      requires blockSize > 0
    {
      slot % blockSize
    }

    predicate HasSlot(slot: int) { slot < pages * blockSize }

    function Payload(): nat { PayloadBytes(hqk, hv) }
  }

  lemma Step(x: nat, y: nat, stride: nat)
    requires x < y
    ensures Product(x, stride) + stride <= Product(y, stride)
  {
    MulGap(x, y, stride);
  }

  lemma RowInPage(l: Layout, length: nat, head: nat, off: nat)
    requires l.Valid(length) && head < l.heads && off < l.blockSize
    ensures Product(off, l.s2) + l.Payload() <= l.s1
    ensures Product(head, l.s1) + Product(off, l.s2) + l.Payload() <= l.s0
  {
    Step(off, l.blockSize, l.s2);
    Step(head, l.heads, l.s1);
    RegionsFit(l.hqk, l.hv);
    hide Product, RowBytes, PayloadBytes;
  }

  lemma RowInCache(l: Layout, length: nat, page: nat, head: nat, off: nat)
    requires l.Valid(length) && l.Has(page, head, off)
    ensures l.Row(page, head, off) + l.Payload() <= length
  {
    RowInPage(l, length, head, off);
    Step(page, l.pages, l.s0);
    hide Product;
  }

  lemma RowBefore(l: Layout, length: nat, p: nat, h: nat, o: nat, p': nat, h': nat, o': nat)
    requires l.Valid(length) && l.Has(p, h, o) && l.Has(p', h', o')
    requires p < p' || (p == p' && (h < h' || (h == h' && o < o')))
    ensures l.Row(p, h, o) + l.Payload() <= l.Row(p', h', o')
  {
    RowInPage(l, length, h, o);
    RegionsFit(l.hqk, l.hv);
    if p < p' {
      Step(p, p', l.s0);
    } else if h < h' {
      Step(h, h', l.s1);
    } else {
      Step(o, o', l.s2);
    }
    hide Product, RowBytes, PayloadBytes;
  }

  /** Distinct cells have disjoint rows, whatever padding the strides leave. */
  lemma RowsDisjoint(l: Layout, length: nat, p: nat, h: nat, o: nat, p': nat, h': nat, o': nat)
    requires l.Valid(length) && l.Has(p, h, o) && l.Has(p', h', o') && (p, h, o) != (p', h', o')
    ensures l.Row(p, h, o) + l.Payload() <= l.Row(p', h', o') || l.Row(p', h', o') + l.Payload() <= l.Row(p, h, o)
  {
    hide Product, Layout.Row;
    if p < p' || (p == p' && (h < h' || (h == h' && o < o'))) {
      RowBefore(l, length, p, h, o, p', h', o');
    } else {
      RowBefore(l, length, p', h', o', p, h, o);
    }
  }

  // ----- the writer

  /** New keys and values by [token][head], and the slot of each token (negative: not cached). */
  datatype Batch = Batch(k: seq<seq<seq<real>>>, v: seq<seq<seq<real>>>, slots: seq<int>) {
    ghost predicate Valid(l: Layout) {
      && |k| == |slots| && |v| == |slots|
      && (forall t {:trigger k[t]} :: 0 <= t < |slots| ==> |k[t]| == l.heads && forall h :: 0 <= h < l.heads ==>
           |k[t][h]| == l.hqk)
      && (forall t {:trigger v[t]} :: 0 <= t < |slots| ==> |v[t]| == l.heads && forall h :: 0 <= h < l.heads ==>
           |v[t][h]| == l.hv)
      && (forall t :: 0 <= t < |slots| ==> l.HasSlot(slots[t]))
      && (forall t, t' :: 0 <= t < t' < |slots| && slots[t] >= 0 ==> slots[t] != slots[t'])
    }

    predicate Cached(t: nat) { t < |slots| && slots[t] >= 0 }

    function At(l: Layout, t: nat, head: nat): nat
      requires l.blockSize > 0 && Cached(t)
    {
      l.SlotRow(slots[t], head)
    }
  }

  ghost predicate RowHolds(enc: real -> byte, l: Layout, s: seq<byte>, row: nat, k: seq<real>, v: seq<real>)
  {
    && row + l.Payload() <= |s| && |k| == l.hqk && |v| == l.hv
    && SideHolds(enc, s, row, row + KScaleOff(l.hqk), k)
    && SideHolds(enc, s, row + VDataOff(l.hqk), row + VScaleOff(l.hqk, l.hv), v)
  }

  ghost predicate SameOn(s: seq<byte>, s': seq<byte>, lo: nat, hi: nat)
  {
    |s| == |s'| && hi <= |s| && forall i :: lo <= i < hi ==> s'[i] == s[i]
  }

  ghost predicate SameOff(s: seq<byte>, s': seq<byte>, lo: nat, hi: nat)
  {
    |s| == |s'| && forall i :: 0 <= i < |s| && !(lo <= i < hi) ==> s'[i] == s[i]
  }

  lemma SideFrame(enc: real -> byte, s: seq<byte>, s': seq<byte>, data: nat, scales: nat, xs: seq<real>)
    requires SideHolds(enc, s, data, scales, xs)
    requires SameOn(s, s', data, data + |xs| / 2) && SameOn(s, s', scales, scales + |xs| / 16)
    ensures SideHolds(enc, s', data, scales, xs)
  {
    hide DataByte, ScaleByte;
  }

  lemma Regions(l: Layout)
    ensures KScaleOff(l.hqk) == l.hqk / 2 && VDataOff(l.hqk) == KScaleOff(l.hqk) + l.hqk / 16
    ensures VScaleOff(l.hqk, l.hv) == VDataOff(l.hqk) + l.hv / 2 && l.Payload() == VScaleOff(l.hqk, l.hv) + l.hv / 16
  {
  }

  lemma RowFrame(enc: real -> byte, l: Layout, s: seq<byte>, s': seq<byte>, row: nat, k: seq<real>, v: seq<real>)
    requires l.hqk % 16 == 0 && l.hv % 16 == 0
    requires RowHolds(enc, l, s, row, k, v) && SameOn(s, s', row, row + l.Payload())
    ensures RowHolds(enc, l, s', row, k, v)
  {
  }

  /** One side of a row: scale bytes, then data bytes, each a parallel masked store. */
  method WriteSide(enc: real -> byte, cache: array<byte>, data: nat, scales: nat, xs: seq<real>)
    requires |xs| % 16 == 0 && scales == data + |xs| / 2 && scales + |xs| / 16 <= cache.Length
    modifies cache
    ensures SideHolds(enc, cache[..], data, scales, xs)
    ensures SameOff(old(cache[..]), cache[..], data, scales + |xs| / 16)
  {
    hide DataByte, ScaleByte;
    forall g | 0 <= g < |xs| / 16 {
      cache[scales + g] := ScaleByte(enc, xs, g);
    }
    forall i | 0 <= i < |xs| / 2 {
      cache[data + i] := DataByte(enc, xs, i);
    }
  }

  method WriteRow(enc: real -> byte, l: Layout, cache: array<byte>, row: nat, k: seq<real>, v: seq<real>)
    requires l.hqk % 16 == 0 && l.hv % 16 == 0 && |k| == l.hqk && |v| == l.hv && row + l.Payload() <= cache.Length
    modifies cache
    ensures RowHolds(enc, l, cache[..], row, k, v)
    ensures SameOff(old(cache[..]), cache[..], row, row + l.Payload())
  {
    Regions(l);
    hide SideHolds, KScaleOff, VDataOff, VScaleOff, PayloadBytes;
    WriteSide(enc, cache, row, row + KScaleOff(l.hqk), k);
    ghost var mid := cache[..];
    WriteSide(enc, cache, row + VDataOff(l.hqk), row + VScaleOff(l.hqk, l.hv), v);
    SideFrame(enc, mid, cache[..], row, row + KScaleOff(l.hqk), k);
  }

  /** One program of the launch: token `t`, one KV head. A negative slot writes nothing. */
  method WriteProgram(enc: real -> byte, l: Layout, b: Batch, cache: array<byte>, t: nat, head: nat)
    requires l.Valid(cache.Length) && b.Valid(l) && t < |b.slots| && head < l.heads
    modifies cache
    ensures b.slots[t] < 0 ==> cache[..] == old(cache[..])
    ensures b.slots[t] >= 0 ==> RowHolds(enc, l, cache[..], b.At(l, t, head), b.k[t][head], b.v[t][head])
    ensures b.slots[t] >= 0 ==> SameOff(old(cache[..]), cache[..], b.At(l, t, head), b.At(l, t, head) + l.Payload())
  {
    if b.slots[t] >= 0 {
      SlotInCache(l, cache.Length, b.slots[t], head);
      hide SameOff, RowHolds, Layout.SlotRow, Layout.Payload;
      WriteRow(enc, l, cache, l.SlotRow(b.slots[t], head), b.k[t][head], b.v[t][head]);
    }
  }

  lemma SlotInCache(l: Layout, length: nat, slot: nat, head: nat)
    requires l.Valid(length) && l.HasSlot(slot) && head < l.heads
    ensures l.Has(l.Page(slot), head, l.Off(slot))
    ensures l.SlotRow(slot, head) + l.Payload() <= length
  {
    FlatOf(slot, l.pages, l.blockSize);
    hide Layout.Valid, Layout.Row, Layout.Payload;
    RowInCache(l, length, l.Page(slot), head, l.Off(slot));
  }

  /** The address of a slot's row, in strides. */
  lemma SlotAddress(l: Layout, slot: nat, head: nat)
    requires l.blockSize > 0
    ensures l.SlotRow(slot, head) == slot / l.blockSize * l.s0 + head * l.s1 + slot % l.blockSize * l.s2
  {
  }

  lemma SlotCells(l: Layout, slot: nat, slot': nat)
    requires l.blockSize > 0 && slot != slot'
    ensures l.Page(slot) != l.Page(slot') || l.Off(slot) != l.Off(slot')
  {
  }

  lemma SlotsDisjoint(l: Layout, length: nat, slot: nat, head: nat, slot': nat, head': nat)
    requires l.Valid(length) && head < l.heads && head' < l.heads && (slot, head) != (slot', head')
    requires l.HasSlot(slot) && l.HasSlot(slot')
    ensures l.SlotRow(slot, head) + l.Payload() <= l.SlotRow(slot', head')
            || l.SlotRow(slot', head') + l.Payload() <= l.SlotRow(slot, head)
  {
    hide Layout.Has, Layout.Row, Layout.Payload, Layout.HasSlot, Layout.Page, Layout.Off;
    SlotInCache(l, length, slot, head);
    SlotInCache(l, length, slot', head');
    if slot != slot' {
      SlotCells(l, slot, slot');
    }
    RowsDisjoint(l, length, l.Page(slot), head, l.Off(slot), l.Page(slot'), head', l.Off(slot'));
  }

  // ----- the launch

  /** Each program once, in any order. */
  ghost predicate Grid(l: Layout, b: Batch, order: seq<(nat, nat)>)
  {
    && (forall j :: 0 <= j < |order| ==> order[j].0 < |b.slots| && order[j].1 < l.heads)
    && (forall i, j :: 0 <= i < j < |order| ==> order[i] != order[j])
    && (forall t: nat, h: nat :: t < |b.slots| && h < l.heads ==> (t, h) in order)
  }

  /** The row of program p holds its token's key and value. */
  ghost predicate Done(enc: real -> byte, l: Layout, b: Batch, s: seq<byte>, p: (nat, nat))
    requires l.blockSize > 0 && b.Valid(l) && p.0 < |b.slots| && p.1 < l.heads
  {
    b.Cached(p.0) ==> RowHolds(enc, l, s, b.At(l, p.0, p.1), b.k[p.0][p.1], b.v[p.0][p.1])
  }

  ghost predicate Written(l: Layout, b: Batch, i: int)
    requires l.blockSize > 0
  {
    exists t: nat, h: nat :: h < l.heads && t < |b.slots| && b.slots[t] >= 0
                             && b.At(l, t, h) <= i < b.At(l, t, h) + l.Payload()
  }

  lemma DoneKept(enc: real -> byte, l: Layout, b: Batch, s: seq<byte>, s': seq<byte>, p: (nat, nat), p': (nat, nat))
    requires l.Valid(|s|) && b.Valid(l) && p.0 < |b.slots| && p.1 < l.heads && p'.0 < |b.slots| && p'.1 < l.heads
             && p != p'
    requires Done(enc, l, b, s, p)
    requires if b.Cached(p'.0) then SameOff(s, s', b.At(l, p'.0, p'.1), b.At(l, p'.0, p'.1) + l.Payload()) else s' == s
    ensures Done(enc, l, b, s', p)
  {
    if b.Cached(p.0) && b.Cached(p'.0) {
      SlotsDisjoint(l, |s|, b.slots[p.0], p.1, b.slots[p'.0], p'.1);
      SlotInCache(l, |s|, b.slots[p.0], p.1);
      var row := b.At(l, p.0, p.1);
      assert SameOn(s, s', row, row + l.Payload()) by {
        hide RowHolds, Batch.Valid, Layout.Valid, Layout.SlotRow, Layout.Payload;
      }
      hide RowHolds, Batch.Valid, Layout.SlotRow, Layout.Payload, SameOff, SameOn;
      RowFrame(enc, l, s, s', row, b.k[p.0][p.1], b.v[p.0][p.1]);
    }
  }

  /** The whole launch: every cached token's rows are written, and no other byte changes. */
  method WriteBatch(enc: real -> byte, l: Layout, b: Batch, cache: array<byte>, order: seq<(nat, nat)>)
    requires l.Valid(cache.Length) && b.Valid(l) && Grid(l, b, order)
    modifies cache
    ensures forall t: nat, h: nat :: h < l.heads && t < |b.slots| && b.slots[t] >= 0 ==>
              RowHolds(enc, l, cache[..], b.At(l, t, h), b.k[t][h], b.v[t][h])
    ensures forall i :: 0 <= i < cache.Length && !Written(l, b, i) ==> cache[i] == old(cache[i])
  {
    var n := 0;
    while n < |order|
      invariant 0 <= n <= |order|
      invariant forall j :: 0 <= j < n ==> Done(enc, l, b, cache[..], order[j])
      invariant forall i :: 0 <= i < cache.Length && !Written(l, b, i) ==> cache[i] == old(cache[i])
    {
      var p := order[n];
      hide RowHolds, Batch.Valid, Layout.Valid, Batch.At, Layout.Payload, Done;
      ghost var s := cache[..];
      WriteProgram(enc, l, b, cache, p.0, p.1);
      assert Done(enc, l, b, cache[..], p);
      forall j | 0 <= j < n
        ensures Done(enc, l, b, cache[..], order[j])
      {
        DoneKept(enc, l, b, s, cache[..], order[j], p);
      }
      n := n + 1;
    }
    forall t: nat, h: nat | h < l.heads && t < |b.slots| && b.slots[t] >= 0
      ensures RowHolds(enc, l, cache[..], b.At(l, t, h), b.k[t][h], b.v[t][h])
    {
      assert (t, h) in order;
      assert Done(enc, l, b, cache[..], (t, h));
    }
  }

  // ----- the readers

  /** Element d of the key in a row, as the attention kernel and the block dequantizer decode it. */
  function KernelKey(l: Layout, s: seq<byte>, row: nat, d: nat): real
    requires l.hqk % 16 == 0 && d < l.hqk && row + l.Payload() <= |s|
  {
    KernelRead(s, row, row + KScaleOff(l.hqk), d)
  }

  function KernelVal(l: Layout, s: seq<byte>, row: nat, d: nat): real
    requires l.hqk % 16 == 0 && l.hv % 16 == 0 && d < l.hv && row + l.Payload() <= |s|
  {
    Regions(l);
    KernelRead(s, row + VDataOff(l.hqk), row + VScaleOff(l.hqk, l.hv), d)
  }

  /** The torch reference's slices of a row. */
  function TorchKey(l: Layout, s: seq<byte>, row: nat, d: nat): real
    requires l.hqk % 16 == 0 && d < l.hqk && row + l.Payload() <= |s|
  {
    TorchAt(s[row..row + KScaleOff(l.hqk)], s[row + KScaleOff(l.hqk)..row + VDataOff(l.hqk)], d)
  }

  function TorchVal(l: Layout, s: seq<byte>, row: nat, d: nat): real
    requires l.hqk % 16 == 0 && l.hv % 16 == 0 && d < l.hv && row + l.Payload() <= |s|
  {
    TorchAt(s[row + VDataOff(l.hqk)..row + VScaleOff(l.hqk, l.hv)],
            s[row + VScaleOff(l.hqk, l.hv)..row + VScaleOff(l.hqk, l.hv) + l.hv / 16], d)
  }

  /** Write then read: every reader returns the same decoded element at every position of the row. */
  lemma WriteThenRead(enc: real -> byte, l: Layout, s: seq<byte>, row: nat, k: seq<real>, v: seq<real>)
    requires l.hqk % 16 == 0 && l.hv % 16 == 0 && RowHolds(enc, l, s, row, k, v)
    ensures forall d: nat :: d < l.hqk ==> KernelKey(l, s, row, d) == TorchKey(l, s, row, d) == Quantized(enc, k, d)
    ensures forall d: nat :: d < l.hv ==> KernelVal(l, s, row, d) == TorchVal(l, s, row, d) == Quantized(enc, v, d)
  {
    Regions(l);
    hide SideHolds, KScaleOff, VDataOff, VScaleOff, PayloadBytes, TorchAt, KernelRead, Quantized;
    forall d: nat | d < l.hqk
      ensures KernelKey(l, s, row, d) == TorchKey(l, s, row, d) == Quantized(enc, k, d)
    {
      KernelAgrees(enc, s, row, row + KScaleOff(l.hqk), k, d);
      TorchAgrees(enc, s, row, row + KScaleOff(l.hqk), k, d);
    }
    forall d: nat | d < l.hv
      ensures KernelVal(l, s, row, d) == TorchVal(l, s, row, d) == Quantized(enc, v, d)
    {
      KernelAgrees(enc, s, row + VDataOff(l.hqk), row + VScaleOff(l.hqk, l.hv), v, d);
      TorchAgrees(enc, s, row + VDataOff(l.hqk), row + VScaleOff(l.hqk, l.hv), v, d);
    }
  }
}
