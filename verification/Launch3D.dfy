/** A whole split-KV launch: segment programs of every row in any order on shared scratch, then the reducer grid. */
module Launch3D {
  import opened Softmax
  import opened UnifiedAttention
  import opened SplitKv
  import opened LaunchGrid
  import opened Launch2D

  /** Segment `seg` of lane `m` of program (g, kvHead): the share of one (row, head) that one program handles. */
  datatype Work = Work(i: nat, g: nat, kvHead: nat, m: nat, row: nat, head: nat, seg: nat)

  ghost predicate IsWork(b: Batch, s: Shape, segments: nat, w: Work)
    requires b.Valid() && s.Valid()
  {
    w.seg < segments && Lane(b, s, w.i, w.g, w.kvHead, w.m, w.row, w.head)
  }

  /** All the unmasked lanes of all programs and segments of the grid, in any order. */
  ghost predicate Schedule(b: Batch, s: Shape, segments: nat, order: seq<Work>)
    requires b.Valid() && s.Valid()
  {
    && (forall j :: 0 <= j < |order| ==> IsWork(b, s, segments, order[j]))
    && (forall w: Work :: IsWork(b, s, segments, w) && s.BlockQ() > 0 && w.g < GridSize(b, s.BlockQ()) ==> w in order)
  }

  ghost predicate Roomy(b: Batch, s: Shape, segments: nat, scratch: Scratch)
    requires b.Valid() && s.Valid()
  {
    && scratch.maxes.Length == scratch.sums.Length == scratch.outs.Length
    && b.Tokens() * (s.Heads() * segments) <= scratch.maxes.Length
  }

  function Base(s: Shape, segments: nat, row: nat, head: nat): nat { SlotBase(row, head, s.Heads(), segments) }

  lemma BaseFits(b: Batch, s: Shape, segments: nat, scratch: Scratch, row: nat, head: nat)
    requires b.Valid() && s.Valid() && Roomy(b, s, segments, scratch) && row < b.Tokens() && head < s.Heads()
    ensures scratch.Holds(Base(s, segments, row, head), segments)
  {
    SlotFlat(row, head, b.Tokens(), s.Heads(), segments);
    hide SlotBase, Shape.Heads;
  }

  /** Different (row, head, segment) triples use different slots. */
  lemma SlotsApart(b: Batch, s: Shape, segments: nat, row: nat, head: nat, seg: nat, row': nat, head': nat, seg': nat)
    requires b.Valid() && s.Valid() && row < b.Tokens() && row' < b.Tokens() && head < s.Heads() && head' < s.Heads()
    requires seg < segments && seg' < segments && (row, head, seg) != (row', head', seg')
    ensures Base(s, segments, row, head) + seg != Base(s, segments, row', head') + seg'
  {
    if (row, head) != (row', head') {
      SlotsDisjoint(row, head, row', head', b.Tokens(), s.Heads(), segments);
    }
    hide SlotBase, Shape.Heads;
  }

  /** The partial of a work item is in its slot, if its segment is active. */
  ghost predicate InSlot(e: Exponential, b: Batch, s: Shape, tile: nat, rows: Rows, segments: nat, scratch: Scratch,
                         row: nat, head: nat, seg: nat)
    requires b.Valid() && s.Valid() && tile > 0 && Roomy(b, s, segments, scratch)
    requires row < b.Tokens() && head < s.Heads() && seg < segments
    reads scratch.maxes, scratch.sums, scratch.outs
  {
    BaseFits(b, s, segments, scratch, row, head);
    rows(row, head).Valid()
    && (seg < ActiveSegments(|rows(row, head).keys|, segments, tile) ==>
          scratch.Stored(e, rows(row, head), Base(s, segments, row, head), segments, tile, seg))
  }

  /** A work item is a segment below the count, for a row and head of the tensor that its block holds. */
  lemma WorkBlock(b: Batch, s: Shape, tile: nat, rows: Rows, segments: nat, w: Work)
    requires b.Valid() && s.Valid() && tile > 0 && RowsOf(b, s, rows) && IsWork(b, s, segments, w)
    ensures w.row < b.Tokens() && w.head < s.Heads() && w.seg < segments && w.i < |b.offsets|
    ensures s.BlockQ() > 0 && w.g >= BlockStart(b, s.BlockQ(), w.i)
    ensures var p, blk := rows(w.row, w.head), Block(tile, s.blockM, s.gqa, w.g - BlockStart(b, s.BlockQ(), w.i));
            p.Valid() && blk.Valid() && blk.Holds(p) && blk.tile == tile
  {
    hide Lane, RowsOf, BlockStart, Shape.BlockQ, Shape.Heads, Batch.Valid, Batch.Tokens;
    LaneInTensor(b, s, w.i, w.g, w.kvHead, w.m, w.row, w.head);
    RowOfTensor(b, s, rows, w.i, w.row, w.head);
    LaneHolds(b, s, w.i, w.g, w.kvHead, w.m, w.row, w.head, tile, rows(w.row, w.head));
  }

  lemma RowOfTensor(b: Batch, s: Shape, rows: Rows, i: nat, row: nat, head: nat)
    requires b.Valid() && s.Valid() && RowsOf(b, s, rows) && i < b.Count() && b.offsets[i] <= row < b.offsets[i + 1]
    requires head < s.Heads()
    ensures rows(row, head).Valid() && rows(row, head).queryPos == row - b.offsets[i]
  {
    hide Shape.Heads;
  }

  /** One work item: its own slot is filled, every other slot keeps what it had. */
  method RunWork(e: Exponential, b: Batch, s: Shape, tile: nat, rows: Rows, segments: nat, scratch: Scratch, w: Work)
    requires b.Valid() && s.Valid() && tile > 0 && RowsOf(b, s, rows) && Roomy(b, s, segments, scratch)
    requires IsWork(b, s, segments, w)
    modifies scratch.maxes, scratch.sums, scratch.outs
    ensures w.row < b.Tokens() && w.head < s.Heads()
    ensures InSlot(e, b, s, tile, rows, segments, scratch, w.row, w.head, w.seg)
    ensures forall row: nat, head: nat, seg: nat :: row < b.Tokens() && head < s.Heads() && seg < segments ==>
              old(InSlot(e, b, s, tile, rows, segments, scratch, row, head, seg)) ==>
              InSlot(e, b, s, tile, rows, segments, scratch, row, head, seg)
  {
    hide Base, ActiveSegments, Partial, Shape.Heads, Roomy, IsWork, RowsOf, BlockStart;
    WorkBlock(b, s, tile, rows, segments, w);
    var p := rows(w.row, w.head);
    BaseFits(b, s, segments, scratch, w.row, w.head);
    var blk := Block(tile, s.blockM, s.gqa, w.g - BlockStart(b, s.BlockQ(), w.i));
    label Before:
    SegmentProgram(e, p, blk, segments, w.seg, scratch, Base(s, segments, w.row, w.head));
    forall row: nat, head: nat, seg: nat | row < b.Tokens() && head < s.Heads() && seg < segments
      && old(InSlot(e, b, s, tile, rows, segments, scratch, row, head, seg))
      ensures InSlot(e, b, s, tile, rows, segments, scratch, row, head, seg)
    {
      if (row, head, seg) != (w.row, w.head, w.seg) {
        BaseFits(b, s, segments, scratch, row, head);
        SlotsApart(b, s, segments, row, head, seg, w.row, w.head, w.seg);
      }
    }
  }

  /** Every segment program of the launch has run. */
  method RunSegments(e: Exponential, b: Batch, s: Shape, tile: nat, rows: Rows, segments: nat, scratch: Scratch,
                     order: seq<Work>)
    requires b.Valid() && s.Valid() && tile > 0 && RowsOf(b, s, rows) && Roomy(b, s, segments, scratch)
    requires Schedule(b, s, segments, order)
    modifies scratch.maxes, scratch.sums, scratch.outs
    ensures forall row: nat, head: nat, seg: nat :: row < b.Tokens() && head < s.Heads() && seg < segments ==>
              InSlot(e, b, s, tile, rows, segments, scratch, row, head, seg)
  {
    hide InSlot, Roomy, RowsOf, Shape.Heads;
    var j := 0;
    while j < |order|
      invariant 0 <= j <= |order|
      invariant forall k :: 0 <= k < j ==>
                  && order[k].row < b.Tokens() && order[k].head < s.Heads()
                  && InSlot(e, b, s, tile, rows, segments, scratch, order[k].row, order[k].head, order[k].seg)
    {
      RunWork(e, b, s, tile, rows, segments, scratch, order[j]);
      j := j + 1;
    }
    forall row: nat, head: nat, seg: nat | row < b.Tokens() && head < s.Heads() && seg < segments
      ensures InSlot(e, b, s, tile, rows, segments, scratch, row, head, seg)
    {
      var w := SomeWork(b, s, segments, row, head, seg);
      assert w in order;
    }
  }

  /** Some work item of the grid handles each (row, head, segment). */
  lemma SomeWork(b: Batch, s: Shape, segments: nat, row: nat, head: nat, seg: nat) returns (w: Work)
    requires b.Valid() && s.Valid() && row < b.Tokens() && head < s.Heads() && seg < segments
    ensures IsWork(b, s, segments, w) && s.BlockQ() > 0 && w.g < GridSize(b, s.BlockQ())
    ensures w.row == row && w.head == head && w.seg == seg
  {
    var i := OwnerOf(b, row);
    EveryRowProduced(b, s, i, row, head);
    var (g, kvHead, m) := Producer(b, s, i, row, head);
    hide Producer, Lane;
    w := Work(i, g, kvHead, m, row, head, seg);
  }

  /** The reducer program of one (row, head). */
  method ReduceRow(e: Exponential, b: Batch, s: Shape, tile: nat, rows: Rows, segments: nat, scratch: Scratch,
                   row: nat, head: nat)
    returns (o: seq<real>)
    requires b.Valid() && s.Valid() && tile > 0 && segments > 0 && Roomy(b, s, segments, scratch)
    requires row < b.Tokens() && head < s.Heads()
    requires forall seg: nat :: seg < segments ==> InSlot(e, b, s, tile, rows, segments, scratch, row, head, seg)
    ensures Correct(e, rows(row, head), o)
  {
    BaseFits(b, s, segments, scratch, row, head);
    assert InSlot(e, b, s, tile, rows, segments, scratch, row, head, 0);
    hide Base, Roomy, Shape.Heads, ActiveSegments, Partial;
    assert rows(row, head).Valid();
    forall seg: nat | seg < segments && seg < ActiveSegments(|rows(row, head).keys|, segments, tile)
      ensures scratch.Stored(e, rows(row, head), Base(s, segments, row, head), segments, tile, seg)
    {
      assert InSlot(e, b, s, tile, rows, segments, scratch, row, head, seg);
    }
    hide InSlot;
    o := Reduce(e, rows(row, head), segments, tile, scratch, Base(s, segments, row, head));
  }

  ghost predicate AllInSlots(e: Exponential, b: Batch, s: Shape, tile: nat, rows: Rows, segments: nat, scratch: Scratch)
    requires b.Valid() && s.Valid() && tile > 0 && Roomy(b, s, segments, scratch)
    reads scratch.maxes, scratch.sums, scratch.outs
  {
    forall row: nat, head: nat, seg: nat :: row < b.Tokens() && head < s.Heads() && seg < segments ==>
      InSlot(e, b, s, tile, rows, segments, scratch, row, head, seg)
  }

  /** The reducer grid. */
  method ReduceAll(e: Exponential, b: Batch, s: Shape, tile: nat, rows: Rows, segments: nat, scratch: Scratch,
                   out: array2<seq<real>>)
    requires b.Valid() && s.Valid() && tile > 0 && segments > 0 && Roomy(b, s, segments, scratch)
    requires out.Length0 == b.Tokens() && out.Length1 == s.Heads()
    requires AllInSlots(e, b, s, tile, rows, segments, scratch)
    requires out !in {scratch.outs as object, scratch.maxes, scratch.sums}
    modifies out
    ensures forall row: nat, head: nat :: row < out.Length0 && head < out.Length1 ==>
              Correct(e, rows(row, head), out[row, head])
  {
    hide Correct, Roomy, InSlot, Shape.Heads;
    var row := 0;
    while row < out.Length0
      invariant 0 <= row <= out.Length0
      invariant AllInSlots(e, b, s, tile, rows, segments, scratch)
      invariant forall r: nat, h: nat :: r < row && h < out.Length1 ==> Correct(e, rows(r, h), out[r, h])
    {
      var head := 0;
      while head < out.Length1
        invariant 0 <= head <= out.Length1
        invariant AllInSlots(e, b, s, tile, rows, segments, scratch)
        invariant forall r: nat, h: nat :: (r < row || (r == row && h < head)) && h < out.Length1 ==>
                    Correct(e, rows(r, h), out[r, h])
      {
        var o := ReduceRow(e, b, s, tile, rows, segments, scratch, row, head);
        hide AllInSlots;
        out[row, head] := o;
        head := head + 1;
      }
      row := row + 1;
    }
  }

  /** The launch: segment programs in any order on uninitialized scratch, then one reducer per (row, head). */
  method Launch(e: Exponential, b: Batch, s: Shape, tile: nat, rows: Rows, segments: nat, scratch: Scratch,
                order: seq<Work>, out: array2<seq<real>>)
    requires b.Valid() && s.Valid() && tile > 0 && segments > 0 && RowsOf(b, s, rows) && Roomy(b, s, segments, scratch)
    requires Schedule(b, s, segments, order) && out.Length0 == b.Tokens() && out.Length1 == s.Heads()
    requires out !in {scratch.outs as object, scratch.maxes, scratch.sums}
    modifies scratch.maxes, scratch.sums, scratch.outs, out
    ensures forall row: nat, head: nat :: row < out.Length0 && head < out.Length1 ==>
              Correct(e, rows(row, head), out[row, head])
  {
    RunSegments(e, b, s, tile, rows, segments, scratch, order);
    hide Correct, InSlot, Schedule, RowsOf;
    ReduceAll(e, b, s, tile, rows, segments, scratch, out);
  }
}
