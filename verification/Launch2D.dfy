/** A whole 2D launch: every program of the grid, and the output tensor it leaves. */
module Launch2D {
  import opened Softmax
  import opened IndexMath
  import opened UnifiedAttention
  import opened SplitKv
  import opened LaunchGrid

  /** The query row behind each output (row, head). */
  type Rows = (nat, nat) -> Query

  /** Each output row is the row of its own sequence: the query length and position the offsets give. */
  ghost predicate RowsOf(b: Batch, s: Shape, rows: Rows)
    requires b.Valid() && s.Valid()
  {
    forall i: nat, row: nat, head: nat {:trigger rows(row, head), b.offsets[i]} ::
      i < b.Count() && b.offsets[i] <= row < b.offsets[i + 1] && head < s.Heads() ==>
        && rows(row, head).Valid()
        && rows(row, head).queryLen == b.QueryLen(i)
        && rows(row, head).queryPos == row - b.offsets[i]
  }

  ghost predicate Correct(e: Exponential, p: Query, out: seq<real>)
  {
    p.Valid() && |out| == p.headSizeV && forall d :: 0 <= d < p.headSizeV ==> out[d] == Attention(e, p, d)
  }

  /** Nothing is lost: an entry is either as it was or correct. */
  ghost predicate KeptOrCorrect(e: Exponential, rows: Rows, row: nat, head: nat, before: seq<real>, after: seq<real>)
  {
    after == before || Correct(e, rows(row, head), after)
  }

  lemma LaneHolds(b: Batch, s: Shape, i: nat, g: nat, kvHead: nat, m: nat, row: nat, head: nat, tile: nat, p: Query)
    requires b.Valid() && s.Valid() && tile > 0 && Lane(b, s, i, g, kvHead, m, row, head)
    requires p.queryPos == row - b.offsets[i]
    ensures s.BlockQ() > 0 && g >= BlockStart(b, s.BlockQ(), i)
    ensures var blk := Block(tile, s.blockM, s.gqa, g - BlockStart(b, s.BlockQ(), i)); blk.Valid() && blk.Holds(p)
  {
    BlockQPositive(s);
    hide BlockStart, Shape.BlockQ;
    DivMonotone(m, s.blockM - 1, s.gqa);
  }

  lemma DivMonotone(x: nat, y: nat, c: nat)
    requires x <= y && c > 0
    ensures x / c <= y / c
  {
    DivBounds(x, c);
    DivBounds(y, c);
    MulOrder(y / c + 1, x / c, c);
  }

  lemma HeadBelow(kvHead: nat, kvHeads: nat, r: nat, c: nat)
    requires kvHead < kvHeads && r < c
    ensures kvHead * c + r < kvHeads * c
  {
    MulGap(kvHead, kvHeads, c);
  }

  /** A lane stores inside the tensor. */
  lemma LaneInTensor(b: Batch, s: Shape, i: nat, g: nat, kvHead: nat, m: nat, row: nat, head: nat)
    requires b.Valid() && s.Valid() && Lane(b, s, i, g, kvHead, m, row, head)
    ensures i < b.Count() && b.offsets[i] <= row < b.offsets[i + 1] <= b.Tokens() && head < s.Heads()
  {
    BlockQPositive(s);
    hide BlockStart, Shape.BlockQ;
    HeadBelow(kvHead, s.kvHeads, m % s.gqa, s.gqa);
    LaneOffset(g - BlockStart(b, s.BlockQ(), i), s.BlockQ(), m, s.gqa);
  }

  lemma LaneOffset(local: nat, q: nat, m: nat, c: nat)
    requires c > 0
    ensures local * q + m / c >= 0
  {
  }

  /** Past the sequence's last q-block a program has no lane. */
  lemma NoLanes(b: Batch, s: Shape, i: nat, g: nat, kvHead: nat)
    requires b.Valid() && s.Valid() && s.BlockQ() > 0 && i < b.Count()
    requires BlockStart(b, s.BlockQ(), i) <= g < BlockStart(b, s.BlockQ(), i + 1)
    requires (g - BlockStart(b, s.BlockQ(), i)) * s.BlockQ() >= b.QueryLen(i)
    ensures forall i': nat, m: nat, row: nat, head: nat :: !Lane(b, s, i', g, kvHead, m, row, head)
  {
    forall i': nat, m: nat, row: nat, head: nat
      ensures !Lane(b, s, i', g, kvHead, m, row, head)
    {
      if Lane(b, s, i', g, kvHead, m, row, head) {
        OneSequence(b, s.BlockQ(), i, i', g);
      }
    }
  }

  /** One unmasked lane: the row's attention goes to its own output entry and nowhere else. */
  method StoreLane(e: Exponential, b: Batch, s: Shape, tile: nat, rows: Rows, i: nat, g: nat, kvHead: nat, m: nat,
                   row: nat, head: nat, out: array2<seq<real>>)
    requires b.Valid() && s.Valid() && tile > 0 && RowsOf(b, s, rows) && Lane(b, s, i, g, kvHead, m, row, head)
    requires out.Length0 == b.Tokens() && out.Length1 == s.Heads()
    modifies out
    ensures row < out.Length0 && head < out.Length1 && Correct(e, rows(row, head), out[row, head])
    ensures forall r: nat, h: nat :: r < out.Length0 && h < out.Length1 && (r, h) != (row, head) ==>
              out[r, h] == old(out[r, h])
  {
    LaneInTensor(b, s, i, g, kvHead, m, row, head);
    var p := rows(row, head);
    assert p.Valid() && p.queryPos == row - b.offsets[i];
    LaneHolds(b, s, i, g, kvHead, m, row, head, tile, p);
    hide BlockStart, Shape.BlockQ, Lane, RowsOf, Attention;
    var o := Attend2D(e, p, Block(tile, s.blockM, s.gqa, g - BlockStart(b, s.BlockQ(), i)));
    out[row, head] := o;
  }

  /** query_pos of lane m in q-block `local`. */
  function LanePos(s: Shape, local: nat, m: nat): nat
    requires s.Valid()
  {
    local * s.BlockQ() + m / s.gqa
  }

  /** Query head of lane m. */
  function LaneHead(s: Shape, kvHead: nat, m: nat): nat
    requires s.Valid()
  {
    kvHead * s.gqa + m % s.gqa
  }

  /** What a lane of a running program stores: at most one output, when its position is inside the query. */
  lemma LaneTarget(b: Batch, s: Shape, i: nat, g: nat, kvHead: nat, m: nat, row: nat, head: nat)
    requires b.Valid() && s.Valid() && s.BlockQ() > 0 && i < b.Count() && kvHead < s.kvHeads && m < s.blockM
    requires BlockStart(b, s.BlockQ(), i) <= g < BlockStart(b, s.BlockQ(), i + 1)
    requires (g - BlockStart(b, s.BlockQ(), i)) * s.BlockQ() < b.QueryLen(i)
    ensures var pos := LanePos(s, g - BlockStart(b, s.BlockQ(), i), m);
            Lane(b, s, i, g, kvHead, m, row, head) <==>
            pos < b.QueryLen(i) && row == b.offsets[i] + pos && head == LaneHead(s, kvHead, m)
  {
  }

  /** Lane m of a program: masked lanes store nothing, the others the attention of their row and head. */
  method LaneProgram(e: Exponential, b: Batch, s: Shape, tile: nat, rows: Rows, i: nat, g: nat, kvHead: nat, m: nat,
                     out: array2<seq<real>>)
    requires b.Valid() && s.Valid() && tile > 0 && RowsOf(b, s, rows)
    requires s.BlockQ() > 0 && i < b.Count() && kvHead < s.kvHeads && m < s.blockM
    requires BlockStart(b, s.BlockQ(), i) <= g < BlockStart(b, s.BlockQ(), i + 1)
    requires (g - BlockStart(b, s.BlockQ(), i)) * s.BlockQ() < b.QueryLen(i)
    requires out.Length0 == b.Tokens() && out.Length1 == s.Heads()
    modifies out
    ensures forall row: nat, head: nat :: row < out.Length0 && head < out.Length1 ==>
              KeptOrCorrect(e, rows, row, head, old(out[row, head]), out[row, head])
    ensures forall row: nat, head: nat :: Lane(b, s, i, g, kvHead, m, row, head) ==>
              row < out.Length0 && head < out.Length1 && Correct(e, rows(row, head), out[row, head])
  {
    hide BlockStart, Shape.BlockQ, Correct, RowsOf, Lane, LanePos, LaneHead;
    var pos, head := LanePos(s, g - BlockStart(b, s.BlockQ(), i), m), LaneHead(s, kvHead, m);
    forall row: nat, h: nat
      ensures Lane(b, s, i, g, kvHead, m, row, h) <==> pos < b.QueryLen(i) && row == b.offsets[i] + pos && h == head
    {
      LaneTarget(b, s, i, g, kvHead, m, row, h);
    }
    assert b.offsets[i] <= b.offsets[i + 1];
    if pos < b.offsets[i + 1] - b.offsets[i] {
      var row := b.offsets[i] + pos;
      StoreLane(e, b, s, tile, rows, i, g, kvHead, m, row, head, out);
    }
  }

  /** One program of the grid: find its sequence, maybe return early, then run every lane. */
  method Program(e: Exponential, b: Batch, s: Shape, tile: nat, rows: Rows, g: nat, kvHead: nat, out: array2<seq<real>>)
    requires b.Valid() && s.Valid() && tile > 0 && RowsOf(b, s, rows)
    requires s.BlockQ() > 0 && g < GridSize(b, s.BlockQ()) && kvHead < s.kvHeads
    requires out.Length0 == b.Tokens() && out.Length1 == s.Heads()
    modifies out
    ensures forall row: nat, head: nat :: row < out.Length0 && head < out.Length1 ==>
              KeptOrCorrect(e, rows, row, head, old(out[row, head]), out[row, head])
    ensures forall i: nat, m: nat, row: nat, head: nat :: Lane(b, s, i, g, kvHead, m, row, head) ==>
              row < out.Length0 && head < out.Length1 && Correct(e, rows(row, head), out[row, head])
  {
    var i := FindSeq(b, s.BlockQ(), g);
    hide Correct, BlockStart, Shape.BlockQ, Lane, RowsOf;
    var local := g - BlockStart(b, s.BlockQ(), i);
    assert b.offsets[i] <= b.offsets[i + 1];
    if local * s.BlockQ() >= b.offsets[i + 1] - b.offsets[i] {
      NoLanes(b, s, i, g, kvHead);
      return;
    }
    var m := 0;
    while m < s.blockM
      invariant 0 <= m <= s.blockM
      invariant forall row: nat, head: nat :: row < out.Length0 && head < out.Length1 ==>
                  KeptOrCorrect(e, rows, row, head, old(out[row, head]), out[row, head])
      invariant forall m': nat, row: nat, head: nat :: m' < m && Lane(b, s, i, g, kvHead, m', row, head) ==>
                  row < out.Length0 && head < out.Length1 && Correct(e, rows(row, head), out[row, head])
    {
      LaneProgram(e, b, s, tile, rows, i, g, kvHead, m, out);
      m := m + 1;
    }
    forall i': nat, m: nat, row: nat, head: nat | Lane(b, s, i', g, kvHead, m, row, head)
      ensures i' == i && m < s.blockM
    {
      LaneSequence(b, s, i, i', g, kvHead, m, row, head);
    }
  }

  lemma LaneSequence(b: Batch, s: Shape, i: nat, i': nat, g: nat, kvHead: nat, m: nat, row: nat, head: nat)
    requires b.Valid() && s.Valid() && s.BlockQ() > 0 && i < b.Count()
    requires BlockStart(b, s.BlockQ(), i) <= g < BlockStart(b, s.BlockQ(), i + 1)
    requires Lane(b, s, i', g, kvHead, m, row, head)
    ensures i' == i && m < s.blockM
  {
    OneSequence(b, s.BlockQ(), i, i', g);
  }

  lemma OneSequence(b: Batch, blockQ: nat, i: nat, i': nat, g: nat)
    requires b.Valid() && blockQ > 0 && i < b.Count() && i' < b.Count()
    requires BlockStart(b, blockQ, i) <= g < BlockStart(b, blockQ, i + 1)
    requires BlockStart(b, blockQ, i') <= g < BlockStart(b, blockQ, i' + 1)
    ensures i == i'
  {
    if i + 1 < i' {
      BlockStartsIncrease(b, blockQ, i + 1, i');
    } else if i' + 1 < i {
      BlockStartsIncrease(b, blockQ, i' + 1, i);
    }
  }

  /** Every program of the grid runs at least once, in any order. */
  ghost predicate CoversGrid(b: Batch, s: Shape, order: seq<(nat, nat)>)
    requires b.Valid() && s.Valid()
  {
    s.BlockQ() > 0
    && (forall j :: 0 <= j < |order| ==> order[j].0 < GridSize(b, s.BlockQ()) && order[j].1 < s.kvHeads)
    && forall g: nat, k: nat :: g < GridSize(b, s.BlockQ()) && k < s.kvHeads ==> (g, k) in order
  }

  /** The launch leaves dense attention in every row and head of the output, whatever it held before and in whatever
      order its programs run. */
  method Launch(e: Exponential, b: Batch, s: Shape, tile: nat, rows: Rows, order: seq<(nat, nat)>,
                out: array2<seq<real>>)
    requires b.Valid() && s.Valid() && tile > 0 && RowsOf(b, s, rows) && CoversGrid(b, s, order)
    requires out.Length0 == b.Tokens() && out.Length1 == s.Heads()
    modifies out
    ensures forall row: nat, head: nat :: row < out.Length0 && head < out.Length1 ==>
              Correct(e, rows(row, head), out[row, head])
  {
    BlockQPositive(s);
    hide Correct, Shape.Heads, Shape.BlockQ;
    var j := 0;
    while j < |order|
      invariant 0 <= j <= |order|
      invariant forall p: nat, i: nat, m: nat, row: nat, head: nat ::
                  p < j && Lane(b, s, i, order[p].0, order[p].1, m, row, head) ==>
                    row < out.Length0 && head < out.Length1 && Correct(e, rows(row, head), out[row, head])
    {
      hide Lane;
      Program(e, b, s, tile, rows, order[j].0, order[j].1, out);
      j := j + 1;
    }
    forall row: nat, head: nat | row < out.Length0 && head < out.Length1
      ensures Correct(e, rows(row, head), out[row, head])
    {
      var i := OwnerOf(b, row);
      EveryRowProduced(b, s, i, row, head);
      var (g, kvHead, m) := Producer(b, s, i, row, head);
      LaneKvHead(b, s, i, g, kvHead, m, row, head);
      hide Lane, Producer;
      assert (g, kvHead) in order;
    }
  }

  lemma LaneKvHead(b: Batch, s: Shape, i: nat, g: nat, kvHead: nat, m: nat, row: nat, head: nat)
    requires b.Valid() && s.Valid() && Lane(b, s, i, g, kvHead, m, row, head)
    ensures kvHead < s.kvHeads
  {
  }
}
