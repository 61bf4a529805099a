/** The two stored forms of a cached token, and what the kernels read from them. */
module CachedRows {
  import opened UnifiedAttention
  import opened ModelRows
  import opened Nvfp4
  import Nvfp4Cache

  /** Per KV head: K then V as numbers, or a packed NVFP4 row. */
  datatype CachedRow = Numbers(heads: seq<seq<real>>) | Packed(bytes: seq<seq<byte>>)

  /** A row of the layer's shape in the layer's form. */
  predicate Stored(l: Layer, r: CachedRow)
  {
    match r
    case Numbers(heads) => |heads| == l.kvHeads && forall h :: 0 <= h < |heads| ==> |heads[h]| == l.hqk + l.hv
    case Packed(bytes) =>
      && l.hqk % 16 == 0 && l.hv % 16 == 0 && |bytes| == l.kvHeads
      && forall h :: 0 <= h < |bytes| ==> |bytes[h]| == PayloadBytes(l.hqk, l.hv)
  }

  /** K and V of a packed row, element by element as the attention kernel decodes them. */
  function UnpackedKey(hqk: nat, hv: nat, row: seq<byte>): (k: Key)
    requires hqk % 16 == 0 && hv % 16 == 0 && |row| == PayloadBytes(hqk, hv)
    ensures |k.k| == hqk && |k.v| == hv
  {
    InRow(hqk, hv);
    Key(seq(hqk, d requires 0 <= d < hqk => KernelRead(row, 0, KScaleOff(hqk), d)),
        seq(hv, d requires 0 <= d < hv => KernelRead(row, VDataOff(hqk), VScaleOff(hqk, hv), d)))
  }

  lemma InRow(hqk: nat, hv: nat)
    requires hqk % 16 == 0 && hv % 16 == 0
    ensures forall d: nat :: d < hqk ==>
              d / 2 < PayloadBytes(hqk, hv) && KScaleOff(hqk) + d / 16 < PayloadBytes(hqk, hv)
    ensures forall d: nat :: d < hv ==>
              VDataOff(hqk) + d / 2 < PayloadBytes(hqk, hv) && VScaleOff(hqk, hv) + d / 16 < PayloadBytes(hqk, hv)
  {
    Nvfp4Cache.Regions(Nvfp4Cache.Layout(0, 0, 1, hqk, hv, 0, 0, 0));
    forall d: nat | d < hqk
      ensures d / 2 < hqk / 2 && d / 16 < hqk / 16
    {
      Halves(d, hqk);
    }
    forall d: nat | d < hv
      ensures d / 2 < hv / 2 && d / 16 < hv / 16
    {
      Halves(d, hv);
    }
  }

  /** What the kernels see of a cached token; a row of another shape is never read. */
  function Decode(l: Layer, r: CachedRow): (k: HeadKeys)
    ensures Stored(l, r) ==> KeyOk(l, k)
  {
    if !Stored(l, r) then []
    else
      match r
      case Numbers(heads) =>
        seq(l.kvHeads, h requires 0 <= h < l.kvHeads => Key(heads[h][..l.hqk], heads[h][l.hqk..]))
      case Packed(bytes) =>
        seq(l.kvHeads, h requires 0 <= h < l.kvHeads => UnpackedKey(l.hqk, l.hv, bytes[h]))
  }

  /** A packed row cut out of the cache decodes to the quantized key and value that were written there. */
  lemma WrittenRowDecodes(enc: real -> byte, l: Nvfp4Cache.Layout, s: seq<byte>, row: nat, k: seq<real>, v: seq<real>)
    requires l.hqk % 16 == 0 && l.hv % 16 == 0 && Nvfp4Cache.RowHolds(enc, l, s, row, k, v)
    ensures row + l.Payload() <= |s|
    ensures var key := UnpackedKey(l.hqk, l.hv, s[row..row + l.Payload()]);
            && (forall d: nat :: d < l.hqk ==> key.k[d] == Quantized(enc, k, d))
            && (forall d: nat :: d < l.hv ==> key.v[d] == Quantized(enc, v, d))
  {
    Nvfp4Cache.WriteThenRead(enc, l, s, row, k, v);
    InRow(l.hqk, l.hv);
    assert row + l.Payload() <= |s|;
    hide *;
    var cut := s[row..row + l.Payload()];
    forall d: nat | d < l.hqk
      ensures UnpackedKey(l.hqk, l.hv, cut).k[d] == Quantized(enc, k, d)
    {
      KeyElement(l, s, row, d);
    }
    forall d: nat | d < l.hv
      ensures UnpackedKey(l.hqk, l.hv, cut).v[d] == Quantized(enc, v, d)
    {
      ValueElement(l, s, row, d);
    }
  }

  lemma KeyElement(l: Nvfp4Cache.Layout, s: seq<byte>, row: nat, d: nat)
    requires l.hqk % 16 == 0 && l.hv % 16 == 0 && row + l.Payload() <= |s| && d < l.hqk
    ensures UnpackedKey(l.hqk, l.hv, s[row..row + l.Payload()]).k[d] == Nvfp4Cache.KernelKey(l, s, row, d)
  {
    hide PayloadBytes, KScaleOff, VDataOff, VScaleOff, KernelRead;
    InRow(l.hqk, l.hv);
    ReadInCut(s, row, l.Payload(), 0, KScaleOff(l.hqk), d);
  }

  lemma ValueElement(l: Nvfp4Cache.Layout, s: seq<byte>, row: nat, d: nat)
    requires l.hqk % 16 == 0 && l.hv % 16 == 0 && row + l.Payload() <= |s| && d < l.hv
    ensures UnpackedKey(l.hqk, l.hv, s[row..row + l.Payload()]).v[d] == Nvfp4Cache.KernelVal(l, s, row, d)
  {
    hide PayloadBytes, KScaleOff, VDataOff, VScaleOff, KernelRead;
    InRow(l.hqk, l.hv);
    ReadInCut(s, row, l.Payload(), VDataOff(l.hqk), VScaleOff(l.hqk, l.hv), d);
  }

  /** Reading a row in place and reading it cut out give the same element. */
  lemma ReadInCut(s: seq<byte>, row: nat, size: nat, data: nat, scales: nat, d: nat)
    requires row + size <= |s| && data + d / 2 < size && scales + d / 16 < size
    ensures KernelRead(s[row..row + size], data, scales, d) == KernelRead(s, row + data, row + scales, d)
  {
    var cut := s[row..row + size];
    assert cut[data + d / 2] == s[row + data + d / 2];
    assert cut[scales + d / 16] == s[row + scales + d / 16];
    hide Nibble, HalfValue, E2m1Bits, ScaleOf, Scaled;
  }
}
