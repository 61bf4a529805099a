/** Block requantization of a rank's rows: the zero padding and what it does to the scales. */
module Requantize {
  import opened IndexMath
  import opened RealMath

  /** Largest magnitude in columns lo .. hi of a row. */
  function RowMax(row: seq<real>, lo: nat, hi: nat): (m: real)
    requires lo <= hi <= |row|
    ensures m >= 0.0
  {
    if lo == hi then 0.0 else MaxReal(RowMax(row, lo, hi - 1), Abs(row[hi - 1]))
  }

  /** Largest magnitude in columns lo .. hi of some rows. */
  function Amax(rows: seq<seq<real>>, lo: nat, hi: nat): (m: real)
    requires lo <= hi && forall i :: 0 <= i < |rows| ==> hi <= |rows[i]|
    ensures m >= 0.0
  {
    if rows == [] then 0.0 else MaxReal(Amax(rows[..|rows| - 1], lo, hi), RowMax(rows[|rows| - 1], lo, hi))
  }

  lemma {:induction false} RowMaxIsMax(row: seq<real>, lo: nat, hi: nat)
    requires lo <= hi <= |row|
    ensures forall j :: lo <= j < hi ==> -RowMax(row, lo, hi) <= row[j] <= RowMax(row, lo, hi)
    ensures RowMax(row, lo, hi) > 0.0 ==>
              exists j :: lo <= j < hi && (row[j] == RowMax(row, lo, hi) || row[j] == -RowMax(row, lo, hi))
  {
    if lo < hi {
      RowMaxIsMax(row, lo, hi - 1);
    }
  }

  /** The amax bounds every magnitude in the columns and, when not 0, is one of them. */
  lemma {:induction false} AmaxIsMax(rows: seq<seq<real>>, lo: nat, hi: nat)
    requires lo <= hi && forall i :: 0 <= i < |rows| ==> hi <= |rows[i]|
    ensures forall i, j :: 0 <= i < |rows| && lo <= j < hi ==> -Amax(rows, lo, hi) <= rows[i][j] <= Amax(rows, lo, hi)
    ensures Amax(rows, lo, hi) > 0.0 ==>
              exists i, j :: 0 <= i < |rows| && lo <= j < hi
                             && (rows[i][j] == Amax(rows, lo, hi) || rows[i][j] == -Amax(rows, lo, hi))
  {
    if rows != [] {
      var n := |rows| - 1;
      AmaxIsMax(rows[..n], lo, hi);
      RowMaxIsMax(rows[n], lo, hi);
      var a, b, m := Amax(rows[..n], lo, hi), RowMax(rows[n], lo, hi), Amax(rows, lo, hi);
      hide RowMax, Amax;
      assert a <= m && b <= m && (m == a || m == b);
      if m > 0.0 && m == b {
        var j :| lo <= j < hi && (rows[n][j] == b || rows[n][j] == -b);
        assert rows[n][j] == m || rows[n][j] == -m;
      } else if m > 0.0 {
        var i, j :| 0 <= i < n && lo <= j < hi && (rows[..n][i][j] == a || rows[..n][i][j] == -a);
        assert rows[i][j] == m || rows[i][j] == -m;
      }
      forall i, j | 0 <= i < |rows| && lo <= j < hi
        ensures -m <= rows[i][j] <= m
      {
        if i < n {
          assert rows[..n][i][j] == rows[i][j];
        }
      }
    }
  }

  function ZeroRow(cols: nat): (z: seq<real>)
    ensures |z| == cols && forall j :: 0 <= j < cols ==> z[j] == 0.0
  {
    seq(cols, j => 0.0)
  }

  /** The rows with all-zero rows appended up to a whole number of blocks. */
  function Padded(rows: seq<seq<real>>, cols: nat, block: nat): (p: seq<seq<real>>)
    requires block > 0
  {
    CeilCovers(|rows|, block);
    rows + seq(CeilDiv(|rows|, block) * block - |rows|, i => ZeroRow(cols))
  }

  ghost predicate Rect(rows: seq<seq<real>>, cols: nat) { forall i :: 0 <= i < |rows| ==> |rows[i]| == cols }

  lemma ZeroRowMax(row: seq<real>, lo: nat, hi: nat)
    requires lo <= hi <= |row| && forall j :: 0 <= j < |row| ==> row[j] == 0.0
    ensures RowMax(row, lo, hi) == 0.0
  {
  }

  /** Zero rows cannot raise an amax. */
  lemma {:induction false} ZeroRowsKeepAmax(rows: seq<seq<real>>, zeros: seq<seq<real>>, cols: nat, lo: nat, hi: nat)
    requires Rect(rows, cols) && Rect(zeros, cols) && lo <= hi <= cols
    requires forall i, j :: 0 <= i < |zeros| && 0 <= j < cols ==> zeros[i][j] == 0.0
    ensures Rect(rows + zeros, cols) && Amax(rows + zeros, lo, hi) == Amax(rows, lo, hi)
  {
    if zeros == [] {
      assert rows + zeros == rows;
    } else {
      var n := |zeros| - 1;
      ZeroRowsKeepAmax(rows, zeros[..n], cols, lo, hi);
      assert (rows + zeros)[..|rows + zeros| - 1] == rows + zeros[..n];
      ZeroRowMax(zeros[n], lo, hi);
    }
  }

  /** Rows of block b that exist without the padding. */
  function BlockRows(rows: seq<seq<real>>, block: nat, b: nat): seq<seq<real>>
  {
    rows[Min(b * block, |rows|)..Min((b + 1) * block, |rows|)]
  }

  /** Padding leaves the number of scale rows and every block's amax as they were. */
  lemma PaddingKeepsScales(rows: seq<seq<real>>, cols: nat, block: nat, b: nat, lo: nat, hi: nat)
    requires block > 0 && Rect(rows, cols) && lo <= hi <= cols && b < CeilDiv(|rows|, block)
    ensures |Padded(rows, cols, block)| == CeilDiv(|rows|, block) * block
    ensures b * block <= (b + 1) * block <= |Padded(rows, cols, block)| && Rect(Padded(rows, cols, block), cols)
    ensures Amax(Padded(rows, cols, block)[b * block..(b + 1) * block], lo, hi)
            == Amax(BlockRows(rows, block, b), lo, hi)
  {
    var p := Padded(rows, cols, block);
    CeilCovers(|rows|, block);
    MulGap(b, CeilDiv(|rows|, block), block);
    PaddedRows(rows, cols, block);
    BlockStarts(|rows|, block, b);
    hide CeilDiv, Padded;
    var from, to := b * block, (b + 1) * block;
    assert to == from + block;
    hide *;
    var mid := if to <= |rows| then to else |rows|;
    assert Min(from, |rows|) == from && Min(to, |rows|) == mid by {
      MinIs(from, |rows|);
      MinIs(to, |rows|);
    }
    assert p[from..to] == p[from..mid] + p[mid..to];
    assert p[from..mid] == rows[from..mid];
    assert BlockRows(rows, block, b) == rows[from..mid] by {
      BlockRowsIs(rows, block, b);
    }
    RectParts(rows, p, cols, from, mid, to);
    ZeroRowsKeepAmax(rows[from..mid], p[mid..to], cols, lo, hi);
  }

  lemma MinIs(x: int, y: int)
    ensures Min(x, y) == if x <= y then x else y
  {
  }

  lemma BlockRowsIs(rows: seq<seq<real>>, block: nat, b: nat)
    ensures Min(b * block, |rows|) >= 0 && Min(b * block, |rows|) <= Min((b + 1) * block, |rows|) <= |rows|
    ensures BlockRows(rows, block, b) == rows[Min(b * block, |rows|)..Min((b + 1) * block, |rows|)]
  {
    MulMonotone(b, b + 1, block);
  }

  lemma RectParts(rows: seq<seq<real>>, p: seq<seq<real>>, cols: nat, from: nat, mid: nat, to: nat)
    requires Rect(rows, cols) && Rect(p, cols) && from <= mid <= to <= |p| && mid <= |rows|
    ensures Rect(rows[from..mid], cols) && Rect(p[mid..to], cols)
  {
  }

  lemma BlockStarts(n: nat, block: nat, b: nat)
    requires block > 0 && b < CeilDiv(n, block)
    ensures b * block < n
  {
    CeilCovers(n, block);
    MulMonotone(b, CeilDiv(n, block) - 1, block);
  }

  lemma PaddedRows(rows: seq<seq<real>>, cols: nat, block: nat)
    requires block > 0 && Rect(rows, cols)
    ensures var p := Padded(rows, cols, block);
            && |p| == CeilDiv(|rows|, block) * block && |rows| <= |p| && Rect(p, cols)
            && (forall i :: 0 <= i < |rows| ==> p[i] == rows[i])
            && forall i, j :: |rows| <= i < |p| && 0 <= j < cols ==> p[i][j] == 0.0
  {
  }

  /** The quantizer the call relies on: one scale per block from its amax, for whole blocks only. */
  datatype Quantizer<W> = Quantizer(scale: real -> real, encode: (real, real) -> W)

  lemma BlockFits(n: nat, block: nat, b: nat)
    requires block > 0 && b < n / block
    ensures b * block <= (b + 1) * block <= n
  {
    DivBounds(n, block);
    MulGap(b, n / block, block);
    MulMonotone(b, b + 1, block);
    assert (b + 1) * block == b * block + block;
  }

  function BlockScale<W>(q: Quantizer<W>, p: seq<seq<real>>, cols: nat, block: nat, b: nat, c: nat): real
    requires block > 0 && b < |p| / block && c < cols / block && forall i :: 0 <= i < |p| ==> |p[i]| == cols
  {
    BlockFits(|p|, block, b);
    BlockFits(cols, block, c);
    q.scale(Amax(p[b * block..(b + 1) * block], c * block, (c + 1) * block))
  }

  /** Row b of the scales. */
  function ScaleLine<W>(q: Quantizer<W>, p: seq<seq<real>>, cols: nat, block: nat, b: nat): (line: seq<real>)
    requires block > 0 && b < |p| / block && forall i :: 0 <= i < |p| ==> |p[i]| == cols
    ensures |line| == cols / block && forall c :: 0 <= c < |line| ==> line[c] == BlockScale(q, p, cols, block, b, c)
  {
    seq(cols / block, c requires 0 <= c < cols / block => BlockScale(q, p, cols, block, b, c))
  }

  /** Codes of one row under its block row's scales. */
  function CodeLine<W>(q: Quantizer<W>, row: seq<real>, line: seq<real>, block: nat): (codes: seq<W>)
    requires block > 0 && |row| % block == 0 && |line| == |row| / block
    ensures |codes| == |row| && forall j :: 0 <= j < |row| ==>
              j / block < |line| && codes[j] == q.encode(row[j], line[j / block])
  {
    WholeBlocksOf(|row|, block);
    seq(|row|, j requires 0 <= j < |row| => q.encode(row[j], line[j / block]))
  }

  lemma WholeBlocksOf(n: nat, block: nat)
    requires block > 0 && n % block == 0
    ensures forall i: nat :: i < n ==> i / block < n / block
  {
  }

  /** The quantizer on whole blocks: scales, then codes. */
  method ScaledQuantize<W>(q: Quantizer<W>, p: seq<seq<real>>, cols: nat, block: nat)
    returns (w: seq<seq<W>>, s: seq<seq<real>>)
    requires block > 0 && |p| % block == 0 && cols % block == 0 && forall i :: 0 <= i < |p| ==> |p[i]| == cols
    ensures |s| == |p| / block && forall b :: 0 <= b < |s| ==>
              |s[b]| == cols / block && s[b] == ScaleLine(q, p, cols, block, b)
    ensures |w| == |p| && forall i :: 0 <= i < |w| ==> i / block < |s| && w[i] == CodeLine(q, p[i], s[i / block], block)
  {
    WholeBlocksOf(|p|, block);
    hide BlockScale, ScaleLine, CodeLine;
    var lines := seq(|p| / block, b requires 0 <= b < |p| / block => ScaleLine(q, p, cols, block, b));
    s := lines;
    w := seq(|p|, i requires 0 <= i < |p| => CodeLine(q, p[i], lines[i / block], block));
  }

  /** Pad, quantize and drop the padding: as many rows as given, and every scale from the given rows alone. */
  method Requantize<W>(q: Quantizer<W>, rows: seq<seq<real>>, cols: nat, block: nat)
    returns (w: seq<seq<W>>, s: seq<seq<real>>)
    requires block > 0 && cols % block == 0 && Rect(rows, cols)
    ensures |w| == |rows| && |s| == CeilDiv(|rows|, block)
    ensures forall b: nat, c: nat :: b < |s| && c < cols / block ==> ScaleRight(q, rows, cols, block, s, b, c)
    ensures forall i: nat, j: nat :: i < |w| && j < cols ==> CodeRight(q, rows, block, w, s, i, j)
  {
    hide *;
    PaddedFacts(rows, cols, block);
    var p := Padded(rows, cols, block);
    var codes, scales := ScaledQuantize(q, p, cols, block);
    w, s := codes[..|rows|], scales;
    ScalesRight(q, rows, cols, block, s);
    CodesRight(q, rows, cols, block, w, s);
  }

  lemma PaddedFacts(rows: seq<seq<real>>, cols: nat, block: nat)
    requires block > 0 && Rect(rows, cols)
    ensures var p := Padded(rows, cols, block);
            && |p| % block == 0 && |p| / block == CeilDiv(|rows|, block) && |rows| <= |p|
            && (forall i :: 0 <= i < |p| ==> |p[i]| == cols) && forall i :: 0 <= i < |rows| ==> p[i] == rows[i]
  {
    PaddedRows(rows, cols, block);
    FlatInverse(CeilDiv(|rows|, block), 0, block);
    hide CeilDiv;
  }

  lemma ScalesRight<W>(q: Quantizer<W>, rows: seq<seq<real>>, cols: nat, block: nat, s: seq<seq<real>>)
    requires block > 0 && cols % block == 0 && Rect(rows, cols)
    requires var p := Padded(rows, cols, block);
             && |s| == |p| / block == CeilDiv(|rows|, block) && (forall i :: 0 <= i < |p| ==> |p[i]| == cols)
             && forall b :: 0 <= b < |s| ==> |s[b]| == cols / block && s[b] == ScaleLine(q, p, cols, block, b)
    ensures forall b: nat, c: nat :: b < |s| && c < cols / block ==> ScaleRight(q, rows, cols, block, s, b, c)
  {
    var p := Padded(rows, cols, block);
    assert Rect(p, cols);
    hide *;
    forall b: nat, c: nat | b < |s| && c < cols / block
      ensures ScaleRight(q, rows, cols, block, s, b, c)
    {
      LineScale(q, p, cols, block, b, c);
      ScaleKept(q, rows, cols, block, s, b, c);
    }
  }

  lemma CodesRight<W>(q: Quantizer<W>, rows: seq<seq<real>>, cols: nat, block: nat, w: seq<seq<W>>, s: seq<seq<real>>)
    requires block > 0 && cols % block == 0 && Rect(rows, cols) && |w| == |rows|
    requires forall b :: 0 <= b < |s| ==> |s[b]| == cols / block
    requires forall i :: 0 <= i < |w| ==>
               i / block < |s| && |rows[i]| == cols && w[i] == CodeLine(q, rows[i], s[i / block], block)
    ensures forall i: nat, j: nat :: i < |w| && j < cols ==> CodeRight(q, rows, block, w, s, i, j)
  {
    hide *;
    forall i: nat, j: nat | i < |w| && j < cols
      ensures CodeRight(q, rows, block, w, s, i, j)
    {
      CodeKept(q, rows, block, w, s, i, j);
    }
  }

  lemma LineScale<W>(q: Quantizer<W>, p: seq<seq<real>>, cols: nat, block: nat, b: nat, c: nat)
    requires block > 0 && Rect(p, cols) && b < |p| / block && c < cols / block
    ensures forall i :: 0 <= i < |p| ==> |p[i]| == cols
    ensures ScaleLine(q, p, cols, block, b)[c] == BlockScale(q, p, cols, block, b, c)
  {
    hide BlockScale;
  }

  lemma CodeKept<W>(q: Quantizer<W>, rows: seq<seq<real>>, block: nat, w: seq<seq<W>>, s: seq<seq<real>>, i: nat,
                    j: nat)
    requires block > 0 && i < |w| == |rows| && j < |rows[i]| && i / block < |s| && |rows[i]| % block == 0
    requires |s[i / block]| == |rows[i]| / block && w[i] == CodeLine(q, rows[i], s[i / block], block)
    ensures CodeRight(q, rows, block, w, s, i, j)
  {
  }

  lemma ScaleKept<W>(q: Quantizer<W>, rows: seq<seq<real>>, cols: nat, block: nat, s: seq<seq<real>>, b: nat, c: nat)
    requires block > 0 && Rect(rows, cols) && c < cols / block && b < CeilDiv(|rows|, block) == |s| && c < |s[b]|
    requires var p := Padded(rows, cols, block);
             b < |p| / block && Rect(p, cols) && s[b][c] == BlockScale(q, p, cols, block, b, c)
    ensures ScaleRight(q, rows, cols, block, s, b, c)
  {
    AmaxOfBlock(rows, cols, block, b, c);
    BlockFits(cols, block, c);
    hide Padded, CeilDiv, Amax, IsBlockMax, BlockRows;
    PaddingKeepsScales(rows, cols, block, b, c * block, (c + 1) * block);
  }

  /** m is the largest magnitude among the elements of block (b, c), 0 if they are all 0. */
  ghost predicate IsBlockMax(rows: seq<seq<real>>, cols: nat, block: nat, b: nat, c: nat, m: real)
    requires block > 0 && Rect(rows, cols)
  {
    && m >= 0.0
    && (forall i: nat, j: nat :: InBlock(rows, cols, block, b, c, i, j) ==> -m <= rows[i][j] <= m)
    && (m > 0.0 ==>
          exists i: nat, j: nat :: InBlock(rows, cols, block, b, c, i, j) && (rows[i][j] == m || rows[i][j] == -m))
  }

  predicate InBlock(rows: seq<seq<real>>, cols: nat, block: nat, b: nat, c: nat, i: nat, j: nat)
    requires block > 0
  {
    i < |rows| && j < cols && i / block == b && j / block == c
  }

  lemma InBlockIff(n: nat, block: nat, b: nat, i: nat)
    requires block > 0 && Min(b * block, n) <= Min((b + 1) * block, n)
    ensures i < n && i / block == b <==> Min(b * block, n) <= i < Min((b + 1) * block, n)
  {
    BlockOf(i, block, b);
    BlockOf(i, block, b + 1);
  }

  /** The amax of a block's rows and columns is the largest magnitude in the block. */
  lemma AmaxOfBlock(rows: seq<seq<real>>, cols: nat, block: nat, b: nat, c: nat)
    requires block > 0 && Rect(rows, cols) && c < cols / block
    ensures c * block <= (c + 1) * block <= cols && 0 <= Min(b * block, |rows|) <= Min((b + 1) * block, |rows|)
    ensures forall i :: 0 <= i < |BlockRows(rows, block, b)| ==> |BlockRows(rows, block, b)[i]| == cols
    ensures IsBlockMax(rows, cols, block, b, c, Amax(BlockRows(rows, block, b), c * block, (c + 1) * block))
  {
    BlockFits(cols, block, c);
    BlockRowsIs(rows, block, b);
    var part, lo, hi := BlockRows(rows, block, b), c * block, (c + 1) * block;
    var from, to := Min(b * block, |rows|), Min((b + 1) * block, |rows|);
    AmaxIsMax(part, lo, hi);
    forall i: nat, j: nat
      ensures InBlock(rows, cols, block, b, c, i, j) <==> from <= i < to && lo <= j < hi
    {
      InBlockIff(|rows|, block, b, i);
      MinIs(lo, cols);
      MinIs(hi, cols);
      InBlockIff(cols, block, c, j);
    }
    hide Amax, InBlock, Min, BlockRows;
    PartMax(rows, cols, block, b, c, part, from, to, lo, hi, Amax(part, lo, hi));
  }

  lemma PartMax(rows: seq<seq<real>>, cols: nat, block: nat, b: nat, c: nat, part: seq<seq<real>>, from: nat, to: nat,
                lo: nat, hi: nat, m: real)
    requires block > 0 && Rect(rows, cols) && m >= 0.0 && from <= to <= |rows| && hi <= cols && part == rows[from..to]
    requires forall i: nat, j: nat :: InBlock(rows, cols, block, b, c, i, j) <==> from <= i < to && lo <= j < hi
    requires forall i, j :: 0 <= i < |part| && lo <= j < hi ==> -m <= part[i][j] <= m
    requires m > 0.0 ==> exists i, j :: 0 <= i < |part| && lo <= j < hi && (part[i][j] == m || part[i][j] == -m)
    ensures IsBlockMax(rows, cols, block, b, c, m)
  {
    hide InBlock;
    forall i: nat, j: nat | InBlock(rows, cols, block, b, c, i, j)
      ensures -m <= rows[i][j] <= m
    {
      assert part[i - from][j] == rows[i][j];
    }
    if m > 0.0 {
      var i, j :| 0 <= i < |part| && lo <= j < hi && (part[i][j] == m || part[i][j] == -m);
      assert InBlock(rows, cols, block, b, c, from + i, j) && rows[from + i][j] == part[i][j];
    }
  }

  /** Scale (b, c) is the quantizer's for the largest magnitude of the given rows in block (b, c). */
  ghost predicate ScaleRight<W>(q: Quantizer<W>, rows: seq<seq<real>>, cols: nat, block: nat, s: seq<seq<real>>,
                                b: nat, c: nat)
    requires block > 0 && Rect(rows, cols) && c < cols / block && b < |s|
  {
    c < |s[b]| && exists m :: IsBlockMax(rows, cols, block, b, c, m) && s[b][c] == q.scale(m)
  }

  /** Code (i, j) is element (i, j) under its block's scale. */
  ghost predicate CodeRight<W>(q: Quantizer<W>, rows: seq<seq<real>>, block: nat, w: seq<seq<W>>, s: seq<seq<real>>,
                               i: nat, j: nat)
    requires block > 0 && i < |rows| && j < |rows[i]|
  {
    && i < |w| && j < |w[i]| && i / block < |s| && j / block < |s[i / block]|
    && w[i][j] == q.encode(rows[i][j], s[i / block][j / block])
  }
}
