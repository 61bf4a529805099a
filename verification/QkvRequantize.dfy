/** A rank's fp8 shard: its slice, or its rows dequantized with their own scales and quantized again. */
module QkvRequantize {
  import opened IndexMath
  import opened QkvShard
  import opened Requantize

  /** One checkpoint row times its scales, each held for a block of columns. */
  function Dequantized<W>(value: W -> real, row: seq<W>, scales: seq<real>, block: nat): (x: seq<real>)
    requires block > 0 && |row| % block == 0 && |scales| == |row| / block
    ensures |x| == |row| && forall j :: 0 <= j < |row| ==>
              j / block < |scales| && x[j] == value(row[j]) * scales[j / block]
  {
    WholeBlocksOf(|row|, block);
    seq(|row|, j requires 0 <= j < |row| => value(row[j]) * scales[j / block])
  }

  ghost predicate Tensors<W>(c: Shape, w: seq<seq<W>>, s: seq<seq<real>>, cols: nat)
  {
    && c.block > 0 && cols % c.block == 0
    && (forall i :: 0 <= i < |w| ==> |w[i]| == cols) && forall i :: 0 <= i < |s| ==> |s[i]| == cols / c.block
  }

  /** Row x is the rank's checkpoint row at position x, dequantized with that row's own scales. */
  ghost predicate RowIs<W>(value: W -> real, c: Shape, g: Grid, rank: nat, w: seq<seq<W>>, s: seq<seq<real>>, cols: nat,
                           rows: seq<seq<real>>, x: nat)
    requires c.Divides() && rank < c.tp && x < c.Rank().Total() && Tensors(c, w, s, cols)
  {
    && x < |rows| && InTensors(c, g, rank, |w|, |s|, x)
    && rows[x] == Dequantized(value, w[IndexAt(c, rank, x)], s[ScaleIndex(c, g, IndexAt(c, rank, x))], c.block)
  }

  /** w and s are the rows, coded block by block under scales taken from the rows. */
  ghost predicate Requantized<W>(q: Quantizer<W>, rows: seq<seq<real>>, cols: nat, block: nat, w: seq<seq<W>>,
                                 s: seq<seq<real>>)
    requires block > 0 && cols % block == 0 && Rect(rows, cols)
  {
    && |w| == |rows| && |s| == CeilDiv(|rows|, block)
    && (forall b: nat, k: nat :: b < |s| && k < cols / block ==> ScaleRight(q, rows, cols, block, s, b, k))
    && forall i: nat, j: nat :: i < |w| && j < cols ==> CodeRight(q, rows, block, w, s, i, j)
  }

  /** Shard the checkpoint's fp8 projection for one rank. */
  method ShardFp8<W>(value: W -> real, q: Quantizer<W>, c: Shape, rank: nat, w: seq<seq<W>>, s: seq<seq<real>>,
                     cols: nat)
    returns (r: Outcome<(seq<seq<W>>, seq<seq<real>>)>, ghost rows: seq<seq<real>>)
    requires c.Given() && rank < c.tp && c.heads > 0 && Tensors(c, w, s, cols)
    ensures var plan := Plan(c, |w|, |s|);
            if plan.Fail? then r == Fail(plan.error)
            else if TakesSlice(c, plan.value) then
              var piece := Piece(c, rank, w, s);
              if piece.Fail? then r == Fail(piece.error) else r == Ok((piece.value.w, piece.value.s))
            else
              && r.Ok? && |rows| == c.Rank().Total() && Rect(rows, cols)
              && (forall x: nat :: x < |rows| ==> RowIs(value, c, plan.value, rank, w, s, cols, rows, x))
              && Requantized(q, rows, cols, c.block, r.value.0, r.value.1)
  {
    rows := [];
    hide Plan, Regroups, Shape.Rank, Widths.Total, RowRight;
    var shard := ShardQkv(c, rank, w, s);
    match shard {
      case Fail(error) => r := Fail(error);
      case Ok(Slice(weights, scales)) => r := Ok((weights, scales));
      case Ok(Regrouped(pairs)) =>
        var g := Plan(c, |w|, |s|).value;
        PairsFit(c, g, rank, w, s, cols, pairs);
        var grouped := seq(|pairs|, x requires 0 <= x < |pairs| => Dequantized(value, pairs[x].0, pairs[x].1, c.block));
        rows := grouped;
        forall x: nat | x < |rows|
          ensures RowIs(value, c, g, rank, w, s, cols, rows, x)
        {
          PairIs(value, c, g, rank, w, s, cols, pairs, grouped, x);
        }
        var codes, scales := Requantize.Requantize(q, grouped, cols, c.block);
        r := Ok((codes, scales));
    }
  }

  lemma PairsFit<W>(c: Shape, g: Grid, rank: nat, w: seq<seq<W>>, s: seq<seq<real>>, cols: nat,
                    pairs: seq<(seq<W>, seq<real>)>)
    requires c.Divides() && rank < c.tp && Tensors(c, w, s, cols) && Regroups(c, g, rank, w, s, Regrouped(pairs))
    ensures |pairs| == c.Rank().Total()
    ensures forall x :: 0 <= x < |pairs| ==> |pairs[x].0| == cols && |pairs[x].1| == cols / c.block
  {
    hide IndexAt, ScaleIndex, Shape.Rank, Widths.Total, Shape.Divides, Shape.ChunkRows;
    forall x: nat | x < |pairs|
      ensures |pairs[x].0| == cols && |pairs[x].1| == cols / c.block
    {
      assert RowRight(c, g, rank, w, s, Regrouped(pairs), x);
    }
  }

  lemma PairIs<W>(value: W -> real, c: Shape, g: Grid, rank: nat, w: seq<seq<W>>, s: seq<seq<real>>, cols: nat,
                  pairs: seq<(seq<W>, seq<real>)>, rows: seq<seq<real>>, x: nat)
    requires c.Divides() && rank < c.tp && Tensors(c, w, s, cols) && Regroups(c, g, rank, w, s, Regrouped(pairs))
    requires x < |pairs| == |rows| && x < c.Rank().Total() && |pairs[x].0| == cols && |pairs[x].1| == cols / c.block
    requires rows[x] == Dequantized(value, pairs[x].0, pairs[x].1, c.block)
    ensures RowIs(value, c, g, rank, w, s, cols, rows, x)
  {
    assert RowRight(c, g, rank, w, s, Regrouped(pairs), x);
    hide IndexAt, ScaleIndex, Shape.Rank, Widths.Total, Shape.Divides, Shape.ChunkRows, Dequantized;
  }
}
