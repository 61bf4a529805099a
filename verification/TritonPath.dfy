/** The generic launch of a partition: the 2D or the split-KV kernel, on the keys its block tables name. */
module TritonPath {
  import opened Softmax
  import opened IndexMath
  import opened UnifiedAttention
  import opened Launch2D
  import opened DiffKvBackend
  import opened ModelRows
  import LaunchGrid
  import Launch3D
  import SplitKv

  /** Tiles, segments and the scratch the builder allocated; the orders in which a grid's programs run. */
  datatype Setup = Setup(tile2D: nat, tile3D: nat, segments: nat, seqThreshold: nat, hasScratch: bool,
                         batchInvariant: bool, order2D: (LaunchGrid.Batch, LaunchGrid.Shape) -> seq<(nat, nat)>,
                         order3D: (LaunchGrid.Batch, LaunchGrid.Shape, nat) -> seq<Launch3D.Work>)
  {
    /** Any orders will do, as long as every program of a grid runs. */
    ghost predicate Valid() {
      && tile2D > 0 && tile3D > 0 && segments > 0
      && (forall b: LaunchGrid.Batch, s: LaunchGrid.Shape :: b.Valid() && s.Valid() ==> CoversGrid(b, s, order2D(b, s)))
      && (forall b: LaunchGrid.Batch, s: LaunchGrid.Shape :: b.Valid() && s.Valid() ==>
            Launch3D.Schedule(b, s, segments, order3D(b, s, segments)))
    }

    /** The scratch has one slot per (sequence of the threshold, query head, segment). */
    ghost predicate Allocated(l: Layer, scratch: SplitKv.Scratch) {
      && scratch.maxes.Length == scratch.sums.Length == scratch.outs.Length
      && seqThreshold * (l.Heads() * segments) <= scratch.maxes.Length
    }
  }

  /** Every request's query rows are the last of its keys, and its keys and query rows have the layer's sizes. */
  ghost predicate Fits<R>(l: Layer, m: Meta, c: Cache<R, HeadKeys>, q: seq<HeadRow>)
    requires m.Valid() && MetaReadable(m, c)
  {
    && l.Valid() && |q| == m.Tokens() && (forall row :: 0 <= row < |q| ==> QueryOk(l, q[row]))
    && forall i: nat :: i < m.Reqs() ==> RequestFits(l, m, c, i)
  }

  ghost predicate RequestFits<R>(l: Layer, m: Meta, c: Cache<R, HeadKeys>, i: nat)
    requires m.Valid() && MetaReadable(m, c) && i < m.Reqs()
  {
    m.QueryLen(i) <= m.seqLens[i] && forall j: nat :: j < m.seqLens[i] ==> KeyOk(l, KeyAt(c, m.tables[i], j))
  }

  /** The request a row belongs to. */
  function Owner(m: Meta, row: nat, i: nat): (r: nat)
    requires |m.offsets| == m.Reqs() + 1 && i <= m.Reqs()
    ensures i <= r <= m.Reqs() && (r < m.Reqs() ==> row < m.offsets[r + 1]) && forall k :: i < k <= r ==>
              m.offsets[k] <= row
    decreases m.Reqs() - i
  {
    if i == m.Reqs() || row < m.offsets[i + 1] then i else Owner(m, row, i + 1)
  }

  lemma OwnerIs(m: Meta, i: nat, row: nat)
    requires m.Valid() && InRequest(m, i, row)
    ensures Owner(m, row, 0) == i
  {
    var r := Owner(m, row, 0);
  }

  /** What the grid computes for (row, head): the row's query against its own request's keys. */
  function RowAt<R>(l: Layer, m: Meta, c: Cache<R, HeadKeys>, q: seq<HeadRow>, row: nat, head: nat): Query
    requires |m.offsets| == m.Reqs() + 1 && MetaReadable(m, c)
  {
    var i := Owner(m, row, 0);
    if i < m.Reqs() && m.offsets[i] <= row < |q| && m.offsets[i] <= m.offsets[i + 1] && head < l.Heads()
       && RowOk(l, q[row], row - m.offsets[i], m.QueryLen(i), Keys(c, m.tables[i], m.seqLens[i]))
    then RowQuery(l, q[row], row - m.offsets[i], m.QueryLen(i), Keys(c, m.tables[i], m.seqLens[i]), head)
    else Query([], [], 0, 0.0, 0.0, 0.0, NoBias, NegInf, 0, 0, 0)
  }

  lemma RowFits<R>(l: Layer, m: Meta, c: Cache<R, HeadKeys>, q: seq<HeadRow>, i: nat, row: nat)
    requires m.Valid() && MetaReadable(m, c) && Fits(l, m, c, q) && InRequest(m, i, row)
    ensures row < |q| && RowOk(l, q[row], row - m.offsets[i], m.QueryLen(i), Keys(c, m.tables[i], m.seqLens[i]))
  {
    RequestRow(m, i, row);
    assert RequestFits(l, m, c, i);
    hide KeyOk, QueryOk, KeyAt;
  }

  /** The grid's rows are the partition's rows. */
  lemma RowAtIs<R>(l: Layer, m: Meta, c: Cache<R, HeadKeys>, q: seq<HeadRow>, i: nat, row: nat, head: nat)
    requires m.Valid() && MetaReadable(m, c) && Fits(l, m, c, q) && InRequest(m, i, row) && head < l.Heads()
    ensures row < |q| && RowOk(l, q[row], row - m.offsets[i], m.QueryLen(i), Keys(c, m.tables[i], m.seqLens[i]))
    ensures RowAt(l, m, c, q, row, head)
            == RowQuery(l, q[row], row - m.offsets[i], m.QueryLen(i), Keys(c, m.tables[i], m.seqLens[i]), head)
  {
    RowFits(l, m, c, q, i, row);
    OwnerIs(m, i, row);
    hide RowOk, RowQuery, Keys, Fits;
  }

  lemma GridRows<R>(l: Layer, m: Meta, c: Cache<R, HeadKeys>, q: seq<HeadRow>, s: LaunchGrid.Shape, rows: Rows)
    requires m.Valid() && MetaReadable(m, c) && Fits(l, m, c, q)
    requires s.Valid() && s.kvHeads == l.kvHeads && s.gqa == l.gqa
    requires forall row: nat, head: nat :: rows(row, head) == RowAt(l, m, c, q, row, head)
    ensures LaunchGrid.Batch(m.offsets).Valid() && RowsOf(LaunchGrid.Batch(m.offsets), s, rows)
  {
    var b := LaunchGrid.Batch(m.offsets);
    hide RowAt, RowQuery, RowOk, Fits, Keys, MetaReadable, Query.Valid;
    forall i: nat, row: nat, head: nat | i < b.Count() && b.offsets[i] <= row < b.offsets[i + 1] && head < s.Heads()
      ensures rows(row, head).Valid() && rows(row, head).queryLen == b.QueryLen(i)
              && rows(row, head).queryPos == row - b.offsets[i]
    {
      assert InRequest(m, i, row);
      RowAtIs(l, m, c, q, i, row, head);
    }
  }

  /** Outputs that are correct for every (row, head) make an attended partition. */
  lemma OutputsAttend<R>(e: Exponential, l: Layer, m: Meta, c: Cache<R, HeadKeys>, q: seq<HeadRow>, out: seq<HeadRow>)
    requires m.Valid() && MetaReadable(m, c) && Fits(l, m, c, q) && |out| == m.Tokens()
    requires forall row :: 0 <= row < |out| ==> |out[row]| == l.Heads()
    requires forall row: nat, head: nat :: row < |out| && head < l.Heads() ==>
               Correct(e, RowAt(l, m, c, q, row, head), out[row][head])
    ensures Attended(m, c, DenseAttend(e, l), q, out)
  {
    hide Correct, Layer.Heads;
    forall i: nat, row: nat | InRequest(m, i, row)
      ensures row < |q| && row < |out| && RowDone(m, c, DenseAttend(e, l), q, i, row, out[row])
    {
      RequestRow(m, i, row);
      OutputRow(e, l, m, c, q, out[row], i, row);
    }
    ShowAttended(m, c, DenseAttend(e, l), q, out);
  }

  lemma OutputRow<R>(e: Exponential, l: Layer, m: Meta, c: Cache<R, HeadKeys>, q: seq<HeadRow>, o: HeadRow, i: nat,
                     row: nat)
    requires m.Valid() && MetaReadable(m, c) && Fits(l, m, c, q) && InRequest(m, i, row) && |o| == l.Heads()
    requires forall head: nat :: head < l.Heads() ==> Correct(e, RowAt(l, m, c, q, row, head), o[head])
    ensures RowDone(m, c, DenseAttend(e, l), q, i, row, o)
  {
    RowFits(l, m, c, q, i, row);
    var keys := Keys(c, m.tables[i], m.seqLens[i]);
    var want := DenseRow(e, l, q[row], row - m.offsets[i], m.QueryLen(i), keys);
    hide Correct, RowAt, RowOk, RowQuery, DenseOut, Fits, Layer.Heads;
    forall head: nat | head < |o|
      ensures o[head] == want[head]
    {
      RowAtIs(l, m, c, q, i, row, head);
      CorrectIsDense(e, RowAt(l, m, c, q, row, head), o[head]);
    }
    assert o == want;
  }

  /** The launch request of a partition. */
  function Request(l: Layer, u: Setup, m: Meta): LaunchGrid.Launch
  {
    LaunchGrid.Launch(m.Tokens(), m.Reqs(), m.maxQueryLen, l.gqa, l.window, u.seqThreshold, u.seqThreshold,
                      u.hasScratch,
                      u.batchInvariant)
  }

  /** No request has more query rows than the longest query. */
  lemma {:induction false} TokensBound(m: Meta, n: nat)
    requires m.Valid() && n <= m.Reqs()
    ensures m.offsets[n] <= n * m.maxQueryLen
  {
    if n > 0 {
      TokensBound(m, n - 1);
      assert m.QueryLen(n - 1) <= m.maxQueryLen;
      assert n * m.maxQueryLen == (n - 1) * m.maxQueryLen + m.maxQueryLen;
    }
  }

  /** A split-KV launch has room for its tokens in the scratch. */
  lemma ScratchFits(l: Layer, u: Setup, m: Meta, s: LaunchGrid.Shape, scratch: SplitKv.Scratch)
    requires m.Valid() && l.Valid() && u.Allocated(l, scratch) && Request(l, u, m).Use3D()
    requires s.Valid() && s.kvHeads == l.kvHeads && s.gqa == l.gqa && LaunchGrid.Batch(m.offsets).Valid()
    ensures Launch3D.Roomy(LaunchGrid.Batch(m.offsets), s, u.segments, scratch)
  {
    TokensBound(m, m.Reqs());
    LaunchGrid.SplitFitsScratch(Request(l, u, m));
    assert s.Heads() == l.Heads();
    MulMonotone(m.Tokens(), u.seqThreshold, l.Heads() * u.segments);
  }

  /** The launch: 3D when the request and the scratch allow it, 2D otherwise; its output is dense attention. */
  method LaunchRows<R>(e: Exponential, l: Layer, u: Setup, m: Meta, c: Cache<R, HeadKeys>, q: seq<HeadRow>,
                       scratch: SplitKv.Scratch) returns (out: array2<seq<real>>)
    requires m.Valid() && MetaReadable(m, c) && Fits(l, m, c, q) && u.Valid() && u.Allocated(l, scratch)
    modifies scratch.maxes, scratch.sums, scratch.outs
    ensures fresh(out) && out.Length0 == m.Tokens() && out.Length1 == l.Heads()
    ensures forall row: nat, head: nat :: row < out.Length0 && head < out.Length1 ==>
              Correct(e, RowAt(l, m, c, q, row, head), out[row, head])
  {
    var b, request := LaunchGrid.Batch(m.offsets), Request(l, u, m);
    LaunchGrid.BlockHoldsGroup(request);
    var s := LaunchGrid.Shape(l.kvHeads, l.gqa, request.BlockM());
    var rows: Rows := (row: nat, head: nat) => RowAt(l, m, c, q, row, head);
    out := new seq<real>[m.Tokens(), l.Heads()];
    GridRows(l, m, c, q, s, rows);
    if request.Use3D() {
      ScratchFits(l, u, m, s, scratch);
      hide Correct, RowAt, Fits, RowsOf, Launch3D.Roomy, Launch3D.Schedule;
      Launch3D.Launch(e, b, s, u.tile3D, rows, u.segments, scratch, u.order3D(b, s, u.segments), out);
    } else {
      hide Correct, RowAt, Fits, RowsOf, CoversGrid;
      Launch2D.Launch(e, b, s, u.tile2D, rows, u.order2D(b, s), out);
    }
  }

  /** The generic launch into the partition's slice of the output. */
  method RunDirect<R>(e: Exponential, l: Layer, u: Setup, m: Meta, c: Cache<R, HeadKeys>, q: seq<HeadRow>,
                      scratch: SplitKv.Scratch, output: array<HeadRow>, start: nat)
    requires m.Valid() && MetaReadable(m, c) && Fits(l, m, c, q) && u.Valid() && u.Allocated(l, scratch)
    requires start + m.Tokens() <= output.Length
    modifies output, scratch.maxes, scratch.sums, scratch.outs
    ensures OthersKept(output, start, m.Tokens())
    ensures Attended(m, c, DenseAttend(e, l), q, output[start..start + m.Tokens()])
  {
    var out := LaunchRows(e, l, u, m, c, q, scratch);
    var tensor := seq(m.Tokens(), row requires 0 <= row < m.Tokens() reads out =>
                        seq(l.Heads(), head requires 0 <= head < l.Heads() reads out => out[row, head]));
    OutputsAttend(e, l, m, c, q, tensor);
    hide *;
    forall row | 0 <= row < |tensor| {
      output[start + row] := tensor[row];
    }
    assert output[start..start + m.Tokens()] == tensor;
  }
}
