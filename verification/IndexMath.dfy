/** Integer arithmetic of blocks, tiles and flattened indices. */
module IndexMath {

  function Min(x: int, y: int): int { if x <= y then x else y }

  function Max(x: int, y: int): int { if x >= y then x else y }

  function CeilDiv(x: int, y: int): int
    requires y > 0
  {
    (x + y - 1) / y
  }

  lemma DivBounds(x: int, c: int)
    requires c > 0
    ensures x / c * c <= x < (x / c + 1) * c
  {
  }

  lemma MulOrder(i: int, j: int, c: int)
    requires c > 0
    ensures i <= j ==> i * c <= j * c
    ensures i * c < j * c ==> i < j
  {
  }

  lemma MulMonotone(x: nat, y: nat, c: nat)
    requires x <= y
    ensures x * c <= y * c
  {
  }

  lemma MulGap(x: nat, y: nat, c: nat)
    requires x < y
    ensures x * c + c <= y * c
  {
    assert y * c == (x + 1) * c + (y - x - 1) * c;
    assert (x + 1) * c == x * c + c;
  }

  /** Which block an index falls in, against any block boundary k. */
  lemma BlockOf(i: nat, block: nat, k: nat)
    requires block > 0
    ensures i == i / block * block + i % block && i % block < block
    ensures i < k * block <==> i / block < k
    ensures k * block <= i <==> k <= i / block
  {
    var q := i / block;
    assert i == q * block + i % block;
    if q < k {
      MulGap(q, k, block);
    } else {
      MulMonotone(k, q, block);
    }
  }

  /** Which block of c an index falls in, and where. */
  function SplitAt(x: nat, c: nat): (r: (nat, nat))
    requires c > 0
    ensures x == r.0 * c + r.1 && r.1 < c
  {
    BlockOf(x, c, 0);
    (x / c, x % c)
  }

  /** Row-major index. */
  function FlatIndex(row: nat, col: nat, cols: nat): nat
  {
    row * cols + col
  }

  lemma FlatInRange(row: nat, col: nat, rows: nat, cols: nat)
    requires row < rows && col < cols
    ensures FlatIndex(row, col, cols) < rows * cols
  {
    MulGap(row, rows, cols);
  }

  lemma FlatInverse(row: nat, col: nat, cols: nat)
    requires col < cols
    ensures FlatIndex(row, col, cols) / cols == row && FlatIndex(row, col, cols) % cols == col
  {
    var x := FlatIndex(row, col, cols);
    BlockOf(x, cols, row);
    BlockOf(x, cols, row + 1);
    assert (row + 1) * cols == row * cols + cols;
  }

  lemma FlatOf(x: nat, rows: nat, cols: nat)
    requires cols > 0
    ensures x == FlatIndex(x / cols, x % cols, cols)
    ensures x < rows * cols <==> x / cols < rows
  {
    BlockOf(x, cols, rows);
  }

  /** Enough blocks of c cover n, and one fewer does not. */
  lemma CeilCovers(n: nat, c: nat)
    requires c > 0
    ensures n <= CeilDiv(n, c) * c
    ensures n > 0 ==> CeilDiv(n, c) > 0 && (CeilDiv(n, c) - 1) * c < n
  {
  }

  lemma BelowCeil(j: nat, n: nat, c: nat)
    requires c > 0 && j < n
    ensures j / c < CeilDiv(n, c)
  {
  }
}
