/** Resharding the fused fp8 QKV projection: which checkpoint rows a rank gets, in which order, with which scales. */
module QkvShard {
  import opened IndexMath

  datatype Part = Q | K | V

  /** Row `row` of head `head` of one part. */
  datatype Cell = Cell(part: Part, head: nat, row: nat)

  // ----- one [Q | K | V] block of rows

  datatype Widths = Widths(q: nat, kv: nat, dk: nat, dv: nat) {
    function Heads(p: Part): nat { if p.Q? then q else kv }

    function Dim(p: Part): nat { if p.V? then dv else dk }

    function Size(p: Part): nat { Heads(p) * Dim(p) }

    function Off(p: Part): nat {
      match p
      case Q => 0
      case K => Size(Q)
      case V => Size(Q) + Size(K)
    }

    function Total(): nat { Size(Q) + Size(K) + Size(V) }

    predicate Has(c: Cell) { c.head < Heads(c.part) && c.row < Dim(c.part) }

    function Place(c: Cell): nat { Off(c.part) + FlatIndex(c.head, c.row, Dim(c.part)) }

    function PartAt(x: nat): Part { if x < Off(K) then Q else if x < Off(V) then K else V }

    /** Which cell lies at offset x. */
    function Find(x: nat): Cell
      requires x < Total()
    {
      var p := PartAt(x);
      if Dim(p) == 0 then Cell(p, 0, 0)
      else Cell(p, (x - Off(p)) / Dim(p), (x - Off(p)) % Dim(p))
    }
  }

  lemma PlaceInPart(w: Widths, c: Cell)
    requires w.Has(c)
    ensures FlatIndex(c.head, c.row, w.Dim(c.part)) < w.Size(c.part)
    ensures w.Place(c) < w.Total() && w.PartAt(w.Place(c)) == c.part
  {
    FlatInRange(c.head, c.row, w.Heads(c.part), w.Dim(c.part));
    hide FlatIndex, Widths.Size;
  }

  lemma FindPlace(w: Widths, c: Cell)
    requires w.Has(c)
    ensures w.Place(c) < w.Total() && w.Find(w.Place(c)) == c
  {
    PlaceInPart(w, c);
    FlatInverse(c.head, c.row, w.Dim(c.part));
    hide FlatIndex, Widths.Size, Widths.PartAt, Widths.Dim, Widths.Off;
  }

  lemma PlaceFind(w: Widths, x: nat)
    requires x < w.Total()
    ensures w.Has(w.Find(x)) && w.Place(w.Find(x)) == x
  {
    var p := w.PartAt(x);
    assert w.Off(p) <= x < w.Off(p) + w.Size(p);
    assert w.Dim(p) > 0;
    FlatOf(x - w.Off(p), w.Heads(p), w.Dim(p));
  }

  // ----- the checkpoint and a rank

  /** The layer's shape, the tensor-parallel size and the number of chunks the checkpoint is pre-sharded into. */
  datatype Shape = Shape(heads: nat, kvHeads: nat, headDim: nat, vDim: nat, tp: nat, ckpt: nat, block: nat) {
    predicate Given() { kvHeads > 0 && headDim > 0 && tp > 0 && block > 0 }

    predicate Divides() {
      && Given() && ckpt > 0 && heads % tp == 0 && heads % ckpt == 0 && kvHeads % ckpt == 0
      && (if tp <= kvHeads then kvHeads % tp == 0 else tp % kvHeads == 0)
    }

    function Heads(p: Part): nat { if p.Q? then heads else kvHeads }

    function Dim(p: Part): nat { if p.V? then vDim else headDim }

    predicate Has(c: Cell) { c.head < Heads(c.part) && c.row < Dim(c.part) }

    function Chunk(): Widths
      requires ckpt > 0
    {
      Widths(heads / ckpt, kvHeads / ckpt, headDim, vDim)
    }

    function ChunkRows(): nat
      requires ckpt > 0
    {
      Chunk().Total()
    }

    /** Row of the checkpoint tensor that holds a cell. */
    function Addr(c: Cell): nat
      requires ckpt > 0 && Chunk().Heads(c.part) > 0
    {
      var n := Chunk().Heads(c.part);
      FlatIndex(c.head / n, Chunk().Place(Cell(c.part, c.head % n, c.row)), ChunkRows())
    }

    function CellAt(row: nat): Cell
      requires ckpt > 0 && row < ckpt * ChunkRows()
    {
      if ChunkRows() == 0 then Cell(Q, 0, 0)
      else
        var (chunk, x) := SplitAt(row, ChunkRows());
        var c := Chunk().Find(x);
        Cell(c.part, FlatIndex(chunk, c.head, Chunk().Heads(c.part)), c.row)
    }

    // A rank's heads: consecutive, KV heads replicated when there are fewer of them than ranks.
    function Count(p: Part): nat
      requires Given()
    {
      if p.Q? then heads / tp else if tp <= kvHeads then kvHeads / tp else 1
    }

    function First(p: Part, rank: nat): nat
      requires Divides()
    {
      if p.Q? then rank * (heads / tp)
      else if tp <= kvHeads then rank * (kvHeads / tp)
      else DivPositive(tp, kvHeads); rank / (tp / kvHeads)
    }

    predicate Owns(p: Part, rank: nat, head: nat)
      requires Divides()
    {
      First(p, rank) <= head < First(p, rank) + Count(p)
    }

    function Rank(): Widths
      requires Given()
    {
      Widths(Count(Q), Count(K), headDim, vDim)
    }
  }

  lemma DivPositive(a: nat, b: nat)
    requires b > 0 && a % b == 0 && a > 0
    ensures a / b > 0 && a == b * (a / b)
  {
    DivBounds(a, b);
  }

  lemma ChunkHasHeads(c: Shape, cell: Cell)
    requires c.Divides() && c.Has(cell)
    ensures c.Chunk().Heads(cell.part) > 0 && c.Heads(cell.part) == c.ckpt * c.Chunk().Heads(cell.part)
  {
    DivPositive(c.Heads(cell.part), c.ckpt);
  }

  /** Every cell has a row of the checkpoint, in the region of its own part and head. */
  lemma CellOfAddr(c: Shape, cell: Cell)
    requires c.Divides() && c.Has(cell)
    ensures c.Chunk().Heads(cell.part) > 0
    ensures c.Addr(cell) < c.ckpt * c.ChunkRows() && c.CellAt(c.Addr(cell)) == cell
  {
    ChunkHasHeads(c, cell);
    var w := c.Chunk();
    var n := w.Heads(cell.part);
    FlatOf(cell.head, c.ckpt, n);
    var inner := Cell(cell.part, cell.head % n, cell.row);
    assert cell.head == FlatIndex(cell.head / n, cell.head % n, n);
    assert w.Has(inner) && cell.head / n < c.ckpt;
    hide FlatIndex, Widths.Place, Widths.Find, Widths.Total, Shape.Chunk, Widths.Heads;
    FindPlace(w, inner);
    FlatInRange(cell.head / n, w.Place(inner), c.ckpt, c.ChunkRows());
    FlatInverse(cell.head / n, w.Place(inner), c.ChunkRows());
  }

  /** Every checkpoint row is one cell. */
  lemma AddrOfCell(c: Shape, row: nat)
    requires c.Divides() && row < c.ckpt * c.ChunkRows()
    ensures c.Has(c.CellAt(row)) && c.Chunk().Heads(c.CellAt(row).part) > 0 && c.Addr(c.CellAt(row)) == row
  {
    var w := c.Chunk();
    var rows := c.ChunkRows();
    FlatOf(row, c.ckpt, rows);
    PlaceFind(w, row % rows);
    var inner := w.Find(row % rows);
    var n := w.Heads(inner.part);
    FlatInverse(row / rows, inner.head, n);
    FlatInRange(row / rows, inner.head, c.ckpt, n);
    DivPositive(c.Heads(inner.part), c.ckpt);
    hide FlatIndex, Widths.Place, Widths.Find, Widths.Total;
  }

  // ----- the gather index

  /** Checkpoint row at position x of a rank's [Q | K | V] rows. */
  function IndexAt(c: Shape, rank: nat, x: nat): nat
    requires c.Divides() && rank < c.tp && x < c.Rank().Total()
  {
    var at := c.Rank().Find(x);
    var cell := Cell(at.part, c.First(at.part, rank) + at.head, at.row);
    RankCell(c, rank, x);
    ChunkHasHeads(c, cell);
    c.Addr(cell)
  }

  lemma RankHeads(c: Shape, p: Part, rank: nat)
    requires c.Divides() && rank < c.tp
    ensures c.First(p, rank) + c.Count(p) <= c.Heads(p)
  {
    if p.Q? {
      MulGap(rank, c.tp, c.heads / c.tp);
      DivBounds(c.heads, c.tp);
    } else if c.tp <= c.kvHeads {
      MulGap(rank, c.tp, c.kvHeads / c.tp);
      DivBounds(c.kvHeads, c.tp);
    } else {
      DivPositive(c.tp, c.kvHeads);
      BlockOf(rank, c.tp / c.kvHeads, c.kvHeads);
    }
  }

  lemma RankCell(c: Shape, rank: nat, x: nat)
    requires c.Divides() && rank < c.tp && x < c.Rank().Total()
    ensures var at := c.Rank().Find(x);
            && c.Rank().Has(at) && c.Rank().Place(at) == x
            && c.Has(Cell(at.part, c.First(at.part, rank) + at.head, at.row))
  {
    PlaceFind(c.Rank(), x);
    RankHeads(c, c.Rank().Find(x).part, rank);
    hide Widths.Find, Widths.Place, Widths.Total, Shape.First, Shape.Count;
  }

  /** A gathered row belongs to a head the rank owns, in the same part and at the same row of the head. */
  lemma IndexOwned(c: Shape, rank: nat, x: nat)
    requires c.Divides() && rank < c.tp && x < c.Rank().Total()
    ensures IndexAt(c, rank, x) < c.ckpt * c.ChunkRows()
    ensures var at, cell := c.Rank().Find(x), c.CellAt(IndexAt(c, rank, x));
            cell == Cell(at.part, c.First(at.part, rank) + at.head, at.row) && c.Owns(cell.part, rank, cell.head)
  {
    var at := c.Rank().Find(x);
    RankCell(c, rank, x);
    CellOfAddr(c, Cell(at.part, c.First(at.part, rank) + at.head, at.row));
    hide Widths.Find, Widths.Place, Widths.Total, Shape.First, Shape.Count, Shape.Addr, Shape.CellAt, Shape.ChunkRows,
         Shape.Divides;
  }

  /** Local head a of a rank is checkpoint head `head`: the rank's run of heads in order; a replicated KV head serves a
      run of ranks. */
  predicate IsLocal(c: Shape, p: Part, rank: nat, a: nat, head: nat)
    requires c.tp > 0 && c.kvHeads > 0
  {
    if p.Q? then a < c.heads / c.tp && head == rank * (c.heads / c.tp) + a
    else if c.tp <= c.kvHeads then a < c.kvHeads / c.tp && head == rank * (c.kvHeads / c.tp) + a
    else a == 0 && head * (c.tp / c.kvHeads) <= rank < (head + 1) * (c.tp / c.kvHeads)
  }

  /** The gather in closed form: row r of local head a, at its place in the rank's [Q | K | V], is row r of that head in
      the checkpoint, where head k * n + b of a part is head b of the part in chunk k. */
  lemma RowFormula(c: Shape, p: Part, rank: nat, a: nat, r: nat, k: nat, b: nat)
    requires c.Divides() && rank < c.tp && r < (if p.V? then c.vDim else c.headDim)
    requires var n := (if p.Q? then c.heads else c.kvHeads) / c.ckpt; b < n && IsLocal(c, p, rank, a, k * n + b)
    ensures var q, kv := c.heads / c.tp, if c.tp <= c.kvHeads then c.kvHeads / c.tp else 1;
            var cq, ckv := c.heads / c.ckpt, c.kvHeads / c.ckpt;
            var rows := cq * c.headDim + ckv * c.headDim + ckv * c.vDim;
            var (x, y) := match p
                case Q => (a * c.headDim + r, b * c.headDim + r)
                case K => (q * c.headDim + a * c.headDim + r, cq * c.headDim + b * c.headDim + r)
                case V => (q * c.headDim + kv * c.headDim + a * c.vDim + r,
                           cq * c.headDim + ckv * c.headDim + b * c.vDim + r);
            x < c.Rank().Total() && IndexAt(c, rank, x) == k * rows + y
  {
    var n := c.Chunk().Heads(p);
    var head := k * n + b;
    LocalIs(c, p, rank, a, head);
    var at := Cell(p, a, r);
    FindPlace(c.Rank(), at);
    FlatInverse(k, b, n);
    assert FlatIndex(k, b, n) == head;
    hide Widths.Find;
    assert IndexAt(c, rank, c.Rank().Place(at)) == c.Addr(Cell(p, head, r));
  }

  lemma LocalIs(c: Shape, p: Part, rank: nat, a: nat, head: nat)
    requires c.Divides() && rank < c.tp && IsLocal(c, p, rank, a, head)
    ensures a < c.Count(p) && c.First(p, rank) + a == head
  {
    if !p.Q? && c.tp > c.kvHeads {
      DivPositive(c.tp, c.kvHeads);
      BlockOf(rank, c.tp / c.kvHeads, head);
      BlockOf(rank, c.tp / c.kvHeads, head + 1);
    }
  }

  /** A rank gathers no row twice. */
  lemma IndexInjective(c: Shape, rank: nat, x: nat, y: nat)
    requires c.Divides() && rank < c.tp && x < c.Rank().Total() && y < c.Rank().Total()
    requires IndexAt(c, rank, x) == IndexAt(c, rank, y)
    ensures x == y
  {
    IndexOwned(c, rank, x);
    IndexOwned(c, rank, y);
    PlaceFind(c.Rank(), x);
    PlaceFind(c.Rank(), y);
    hide Widths.Find, Widths.Place, Widths.Total, Shape.First, Shape.Count, Shape.CellAt, IndexAt, Shape.Divides,
         Shape.Owns;
  }

  /** A rank gathers exactly the rows of the heads it owns. */
  lemma GathersWhatItOwns(c: Shape, rank: nat, row: nat)
    requires c.Divides() && rank < c.tp && row < c.ckpt * c.ChunkRows()
    ensures (exists x: nat :: x < c.Rank().Total() && IndexAt(c, rank, x) == row) <==>
            c.Owns(c.CellAt(row).part, rank, c.CellAt(row).head)
  {
    var cell := c.CellAt(row);
    if c.Owns(cell.part, rank, cell.head) {
      AddrOfCell(c, row);
      var at := Cell(cell.part, cell.head - c.First(cell.part, rank), cell.row);
      FindPlace(c.Rank(), at);
      assert IndexAt(c, rank, c.Rank().Place(at)) == row;
    }
    hide IndexAt, Shape.Owns, Shape.CellAt, Widths.Total;
    forall x: nat | x < c.Rank().Total() && IndexAt(c, rank, x) == row
      ensures c.Owns(cell.part, rank, cell.head)
    {
      IndexOwned(c, rank, x);
    }
  }

  /** Each Q head, and each KV head that is not replicated, is owned by exactly one rank. */
  lemma OneOwner(c: Shape, p: Part, head: nat, rank: nat)
    requires c.Divides() && head < c.Heads(p) && rank < c.tp && (p.Q? || c.tp <= c.kvHeads)
    ensures c.Count(p) > 0 && head / c.Count(p) < c.tp
    ensures c.Owns(p, rank, head) <==> rank == head / c.Count(p)
  {
    var n := c.Count(p);
    DivPositive(c.Heads(p), c.tp);
    BlockOf(head, n, c.tp);
    BlockOf(head, n, rank);
    BlockOf(head, n, rank + 1);
    assert (rank + 1) * n == rank * n + n;
  }

  /** With fewer KV heads than ranks each is owned by the same number of ranks, a run of tp / kvHeads of them. */
  lemma ReplicatedOwners(c: Shape, p: Part, head: nat, rank: nat)
    requires c.Divides() && !p.Q? && head < c.kvHeads < c.tp && rank < c.tp
    ensures var n := c.tp / c.kvHeads;
            n > 0 && (head + 1) * n <= c.tp && (c.Owns(p, rank, head) <==> head * n <= rank < (head + 1) * n)
  {
    var n := c.tp / c.kvHeads;
    DivPositive(c.tp, c.kvHeads);
    BlockOf(rank, n, head);
    BlockOf(rank, n, head + 1);
    MulMonotone(head + 1, c.kvHeads, n);
  }

  /** Over all ranks every Q row, and every KV row when KV heads are not replicated, is gathered exactly once. */
  lemma GatheredOnce(c: Shape, row: nat) returns (rank: nat, x: nat)
    requires c.Divides() && row < c.ckpt * c.ChunkRows() && (c.CellAt(row).part.Q? || c.tp <= c.kvHeads)
    ensures rank < c.tp && x < c.Rank().Total() && IndexAt(c, rank, x) == row
    ensures forall r: nat, y: nat :: r < c.tp && y < c.Rank().Total() && IndexAt(c, r, y) == row ==> r == rank && y == x
  {
    AddrOfCell(c, row);
    var cell := c.CellAt(row);
    OneOwner(c, cell.part, cell.head, 0);
    rank := cell.head / c.Count(cell.part);
    OneOwner(c, cell.part, cell.head, rank);
    GathersWhatItOwns(c, rank, row);
    hide IndexAt, Shape.CellAt, Shape.Owns, Shape.Count, Widths.Total, Shape.ChunkRows, Shape.Divides, Shape.Has;
    x :| x < c.Rank().Total() && IndexAt(c, rank, x) == row;
    forall r: nat, y: nat | r < c.tp && y < c.Rank().Total() && IndexAt(c, r, y) == row
      ensures r == rank && y == x
    {
      GathersWhatItOwns(c, r, row);
      OneOwner(c, cell.part, cell.head, r);
      IndexInjective(c, rank, x, y);
    }
  }

  /** With fewer KV heads than ranks every K or V row is gathered by exactly tp / kvHeads ranks, once by each. */
  lemma GatheredByReplicas(c: Shape, row: nat, rank: nat)
    requires c.Divides() && row < c.ckpt * c.ChunkRows() && !c.CellAt(row).part.Q? && c.kvHeads < c.tp && rank < c.tp
    ensures var n, head := c.tp / c.kvHeads, c.CellAt(row).head;
            && n > 0 && (head + 1) * n <= c.tp
            && ((exists x: nat :: x < c.Rank().Total() && IndexAt(c, rank, x) == row) <==>
                 head * n <= rank < (head + 1) * n)
  {
    AddrOfCell(c, row);
    ReplicatedOwners(c, c.CellAt(row).part, c.CellAt(row).head, rank);
    GathersWhatItOwns(c, rank, row);
    hide IndexAt, Shape.CellAt, Shape.Owns, Widths.Total, Shape.ChunkRows;
  }

  /** Q head firstQ + a attends to KV head (firstQ + a) / group: it is one of the rank's nk KV heads from firstK on,
      and the one grouped attention over the rank's nq Q heads picks for its local head a. */
  predicate Grouped(group: nat, nq: nat, nk: nat, firstQ: nat, firstK: nat, a: nat)
  {
    && group > 0 && nk > 0 && nq % nk == 0 && nq / nk > 0
    && (firstQ + a) / group == firstK + a / (nq / nk)
    && firstK <= (firstQ + a) / group < firstK + nk
  }

  /** The KV head that local Q head a attends to sits on the same rank, at the place grouped attention looks for it. */
  lemma KvHeadOnRank(c: Shape, rank: nat, a: nat)
    requires c.Divides() && c.heads > 0 && c.heads % c.kvHeads == 0 && rank < c.tp && a < c.Count(Q)
    ensures Grouped(c.heads / c.kvHeads, c.Count(Q), c.Count(K), c.First(Q, rank), c.First(K, rank), a)
  {
    var group, nq := c.heads / c.kvHeads, c.heads / c.tp;
    Exact(c.heads, c.kvHeads);
    Exact(c.heads, c.tp);
    assert c.Count(Q) == nq && c.First(Q, rank) == rank * nq;
    if c.tp <= c.kvHeads {
      var nk := c.kvHeads / c.tp;
      Exact(c.kvHeads, c.tp);
      assert c.Count(K) == nk && c.First(K, rank) == rank * nk;
      hide *;
      KvSplit(rank, a, c.heads, c.kvHeads, c.tp, nk, group, nq);
    } else {
      var n := c.tp / c.kvHeads;
      Exact(c.tp, c.kvHeads);
      assert c.Count(K) == 1 && c.First(K, rank) == rank / n;
      hide *;
      KvShared(rank, a, c.heads, c.kvHeads, c.tp, n, nq, group);
    }
  }

  lemma Exact(a: nat, b: nat)
    requires b > 0 && a % b == 0 && a > 0
    ensures a / b > 0 && a == b * (a / b)
  {
    DivPositive(a, b);
  }

  lemma KvSplit(rank: nat, a: nat, heads: nat, kv: nat, tp: nat, nk: nat, group: nat, nq: nat)
    requires tp > 0 && nk > 0 && group > 0 && heads == kv * group && heads == tp * nq && kv == tp * nk && a < nq
    ensures Grouped(group, nq, nk, rank * nq, rank * nk, a)
  {
    SplitGroups(tp, nk, group, nq);
    SplitHead(rank, a, nk, group);
    assert rank * nq == rank * nk * group;
  }

  lemma SplitHead(rank: nat, a: nat, nk: nat, group: nat)
    requires nk > 0 && group > 0 && a < nk * group
    ensures (rank * nk * group + a) / group == rank * nk + a / group && a / group < nk
  {
    ShiftedDiv(rank * nk, a, group);
    BlockOf(a, group, nk);
    hide *;
  }

  lemma KvShared(rank: nat, a: nat, heads: nat, kv: nat, tp: nat, n: nat, nq: nat, group: nat)
    requires kv > 0 && n > 0 && nq > 0 && a < nq && heads == kv * group && heads == tp * nq && tp == kv * n
    ensures Grouped(group, nq, 1, rank * nq, rank / n, a)
  {
    SplitGroups(kv, n, nq, group);
    SharedHead(rank, a, n, nq, group);
    DivByOne(nq);
  }

  lemma SharedHead(rank: nat, a: nat, n: nat, nq: nat, group: nat)
    requires n > 0 && nq > 0 && a < nq && group == n * nq
    ensures group > 0 && (rank * nq + a) / group == rank / n && a / nq == 0
  {
    FlatInverse(rank, a, nq);
    NestedDiv(rank * nq + a, n, nq, group);
    BlockOf(a, nq, 1);
    assert FlatIndex(rank, a, nq) == rank * nq + a;
    hide *;
  }

  lemma DivByOne(x: nat)
    ensures x / 1 == x && x % 1 == 0
  {
  }

  lemma Cancel(t: nat, x: nat, y: nat)
    requires t > 0 && x * t == y * t
    ensures x == y
  {
  }

  lemma SplitGroups(t: nat, n: nat, g: nat, q: nat)
    requires t > 0 && n > 0 && g > 0 && t * n * g == t * q
    ensures q == n * g && q % n == 0 && q / n == g
  {
    assert n * g * t == q * t by {
      assert t * n * g == n * g * t;
    }
    Cancel(t, n * g, q);
    FlatInverse(g, 0, n);
    assert FlatIndex(g, 0, n) == q;
    hide *;
  }

  lemma ShiftedDiv(k: nat, a: nat, g: nat)
    requires g > 0
    ensures (k * g + a) / g == k + a / g
  {
    BlockOf(a, g, 0);
    FlatInverse(k + a / g, a % g, g);
    assert FlatIndex(k + a / g, a % g, g) == k * g + a by {
      assert (k + a / g) * g == k * g + a / g * g;
    }
    hide *;
  }

  predicate IsProduct(p: nat, n: nat, q: nat) { p == n * q }

  lemma NestedDiv(x: nat, n: nat, q: nat, p: nat)
    requires n > 0 && q > 0 && IsProduct(p, n, q)
    ensures p > 0 && x / p == x / q / n
  {
    hide IsProduct;
    var y := x / q;
    var k := y / n;
    ProductPositive(p, n, q);
    InBlock(y, n, k);
    Nested(x, n, q, p, k);
    Nested(x, n, q, p, k + 1);
    QuotientIs(x, p, k);
  }

  lemma ProductPositive(p: nat, n: nat, q: nat)
    requires n > 0 && q > 0 && IsProduct(p, n, q)
    ensures p > 0
  {
    MulGap(0, n, q);
  }

  lemma InBlock(y: nat, n: nat, k: nat)
    requires n > 0 && k == y / n
    ensures !(y < k * n) && y < (k + 1) * n
  {
    BlockOf(y, n, k);
    BlockOf(y, n, k + 1);
  }

  lemma QuotientIs(x: nat, p: nat, k: nat)
    requires p > 0 && k * p <= x < (k + 1) * p
    ensures x / p == k
  {
    BlockOf(x, p, k);
    BlockOf(x, p, k + 1);
  }

  /** x is below k blocks of n blocks of q exactly when its block is below k blocks of n. */
  lemma Nested(x: nat, n: nat, q: nat, p: nat, k: nat)
    requires n > 0 && q > 0 && IsProduct(p, n, q)
    ensures x < k * p <==> x / q < k * n
  {
    BlockOf(x, q, k * n);
    assert k * n * q == k * p;
  }

  // ----- scales and the checks

  datatype Grid = PerChunk | Continuous

  datatype Error = HeadsOverRanks | HeadsOverChunks | KvOverRanks | RowCount | ScaleCount | NoSuchChunk

  datatype Outcome<T> = Ok(value: T) | Fail(error: Error)

  function ScaleRows(c: Shape): nat
    requires c.block > 0 && c.ckpt > 0
  {
    CeilDiv(c.ChunkRows(), c.block)
  }

  /** The checks made before anything is gathered, in order. */
  function Plan(c: Shape, wRows: nat, sRows: nat): (r: Outcome<Grid>)
    requires c.Given()
    ensures r.Ok? ==> c.ckpt > 0 && c.Divides()
  {
    if c.heads % c.tp != 0 then Fail(HeadsOverRanks)
    else if c.ckpt == 0 || c.heads % c.ckpt != 0 || c.kvHeads % c.ckpt != 0 then Fail(HeadsOverChunks)
    else if (if c.tp <= c.kvHeads then c.kvHeads % c.tp else c.tp % c.kvHeads) != 0 then Fail(KvOverRanks)
    else if c.ChunkRows() != wRows / c.ckpt then Fail(RowCount)
    else if sRows == c.ckpt * ScaleRows(c) then Ok(PerChunk)
    else if sRows == CeilDiv(wRows, c.block) then Ok(Continuous)
    else Fail(ScaleCount)
  }

  /** What is accepted: every count divides, the rows make whole chunks rounded down, and the scale rows fit a grid. */
  lemma AcceptedIff(c: Shape, wRows: nat, sRows: nat)
    requires c.Given()
    ensures Plan(c, wRows, sRows).Ok? <==>
            && c.Divides() && wRows / c.ckpt == c.ChunkRows()
            && (sRows == c.ckpt * ScaleRows(c) || sRows == CeilDiv(wRows, c.block))
    ensures Plan(c, wRows, sRows) == Ok(PerChunk) ==> sRows == c.ckpt * ScaleRows(c)
    ensures Plan(c, wRows, sRows) == Ok(Continuous) ==> sRows == CeilDiv(wRows, c.block) != c.ckpt * ScaleRows(c)
  {
    hide Shape.ChunkRows, ScaleRows, CeilDiv;
  }

  /** Scale row of a weight row when each run of n rows has its own q scale rows. */
  function GridIndex(row: nat, n: nat, q: nat, b: nat): nat
    requires n > 0 && b > 0
  {
    FlatIndex(row / n, row % n / b, q)
  }

  function ScaleIndex(c: Shape, g: Grid, row: nat): nat
    requires c.ckpt > 0 && c.block > 0 && c.ChunkRows() > 0
  {
    if g.PerChunk? then GridIndex(row, c.ChunkRows(), ScaleRows(c), c.block) else row / c.block
  }

  /** An accepted checkpoint has a row and a scale row for every position of every rank. */
  lemma ScaleInRange(c: Shape, wRows: nat, sRows: nat, row: nat)
    requires c.Given() && Plan(c, wRows, sRows).Ok? && row < c.ckpt * c.ChunkRows()
    ensures c.ChunkRows() > 0 && row < wRows && ScaleIndex(c, Plan(c, wRows, sRows).value, row) < sRows
  {
    var n := c.ChunkRows();
    FlatOf(row, c.ckpt, n);
    DivBounds(wRows, c.ckpt);
    BelowCeil(row % n, n, c.block);
    BelowCeil(row, wRows, c.block);
    FlatInRange(row / n, row % n / c.block, c.ckpt, ScaleRows(c));
    hide Shape.ChunkRows, FlatIndex, CeilDiv;
  }

  lemma CeilOf(n: nat, b: nat)
    requires b > 0
    ensures n % b == 0 ==> CeilDiv(n, b) == n / b
    ensures n % b != 0 ==> CeilDiv(n, b) == n / b + 1
  {
    var k, r := n / b, n % b;
    BlockOf(n, b, k);
    if r == 0 {
      FlatInverse(k, b - 1, b);
    } else {
      FlatInverse(k + 1, r - 1, b);
      assert (k + 1) * b == k * b + b;
    }
  }

  lemma WholeBlocks(row: nat, n: nat, b: nat)
    requires b > 0 && n > 0 && n % b == 0
    ensures GridIndex(row, n, n / b, b) == row / b
  {
    DivPositive(n, b);
    var j, r, k := row / n, row % n, n / b;
    BlockOf(row, n, 0);
    assert j * n == j * k * b;
    ShiftedDiv(j * k, r, b);
  }

  lemma OneChunk(row: nat, n: nat, q: nat, b: nat)
    requires b > 0 && n > 0 && row < n
    ensures GridIndex(row, n, q, b) == row / b
  {
    assert row / n == 0 && row % n == row by {
      BlockOf(row, n, 1);
    }
  }

  lemma SecondChunk(n: nat, b: nat)
    requires b > 0 && n > 0 && n % b != 0
    ensures GridIndex(n, n, CeilDiv(n, b), b) != n / b
  {
  }

  /** The two grids index alike exactly when a chunk is whole blocks, or there is one chunk. */
  lemma GridsCoincideIff(c: Shape)
    requires c.ckpt > 0 && c.block > 0 && c.ChunkRows() > 0
    ensures (forall row: nat :: row < c.ckpt * c.ChunkRows() ==>
               ScaleIndex(c, PerChunk, row) == ScaleIndex(c, Continuous, row))
            <==> c.ChunkRows() % c.block == 0 || c.ckpt == 1
  {
    var n := c.ChunkRows();
    CeilOf(n, c.block);
    hide Shape.ChunkRows, GridIndex, CeilDiv;
    if n % c.block == 0 || c.ckpt == 1 {
      forall row: nat | row < c.ckpt * n
        ensures ScaleIndex(c, PerChunk, row) == ScaleIndex(c, Continuous, row)
      {
        if n % c.block == 0 {
          WholeBlocks(row, n, c.block);
        } else {
          OneChunk(row, n, ScaleRows(c), c.block);
        }
      }
    } else {
      MulGap(1, c.ckpt, n);
      SecondChunk(n, c.block);
      assert ScaleIndex(c, PerChunk, n) != ScaleIndex(c, Continuous, n);
    }
  }

  /** Row y of chunk k: the scale row of its block in its own chunk's grid, or in the one grid of all rows. */
  lemma ScaleRowIs(c: Shape, k: nat, y: nat)
    requires c.ckpt > 0 && c.block > 0 && y < c.ChunkRows()
    ensures ScaleIndex(c, PerChunk, k * c.ChunkRows() + y) == k * CeilDiv(c.ChunkRows(), c.block) + y / c.block
    ensures ScaleIndex(c, Continuous, k * c.ChunkRows() + y) == (k * c.ChunkRows() + y) / c.block
  {
    FlatInverse(k, y, c.ChunkRows());
    hide Shape.ChunkRows, CeilDiv;
  }

  /** Rows by which whole blocks exceed the chunks, all chunks together. */
  function Tails(c: Shape): int
    requires c.ckpt > 0 && c.block > 0
  {
    c.ckpt * (ScaleRows(c) * c.block - c.ChunkRows())
  }

  /** The two grids have equally many scale rows exactly when the row count lies in the last block of the per-chunk
      grid, that is when the rest beyond whole chunks fits the tails and leaves less than a block of them. */
  lemma CountsAgreeIff(c: Shape, wRows: nat)
    requires c.ckpt > 0 && c.block > 0 && wRows / c.ckpt == c.ChunkRows()
    ensures var p, rest := c.ckpt * ScaleRows(c), wRows % c.ckpt;
            && (p == CeilDiv(wRows, c.block) <==> (p - 1) * c.block < wRows <= p * c.block)
            && (p == CeilDiv(wRows, c.block) <==> rest <= Tails(c) < c.block + rest)
  {
    var k, n, q := c.ckpt, c.ChunkRows(), ScaleRows(c);
    BlockOf(wRows, k, 0);
    hide Shape.ChunkRows, ScaleRows, CeilDiv;
    CeilUnique(wRows, k * q, c.block);
    TailsOf(k, n, q, c.block);
  }

  lemma TailsOf(k: nat, n: nat, q: nat, b: nat)
    ensures k * (q * b - n) == k * q * b - n * k && (k * q - 1) * b == k * q * b - b
  {
  }

  lemma CeilUnique(x: nat, p: nat, b: nat)
    requires b > 0
    ensures p == CeilDiv(x, b) <==> (p - 1) * b < x <= p * b
  {
    var m := CeilDiv(x, b);
    CeilCovers(x, b);
    hide CeilDiv;
    if p < m {
      MulOrder(p, m - 1, b);
    } else if m < p {
      MulOrder(m, p - 1, b);
    } else {
      assert (m - 1) * b == m * b - b;
    }
  }

  /** The scale-row count fits both grids, and some row of a head has a different scale in each. */
  ghost predicate Ambiguous(c: Shape, wRows: nat, sRows: nat)
    requires c.ckpt > 0 && c.block > 0 && c.ChunkRows() > 0
  {
    && sRows == c.ckpt * ScaleRows(c) == CeilDiv(wRows, c.block)
    && exists row: nat :: row < c.ckpt * c.ChunkRows()
                          && ScaleIndex(c, PerChunk, row) != ScaleIndex(c, Continuous, row)
  }

  /** When an accepted checkpoint leaves open which grid it has, to a difference: several chunks that are not whole
      blocks, and tails that add up to less than a block and the rest of the rows. */
  lemma AmbiguousIff(c: Shape, wRows: nat, sRows: nat)
    requires c.Given() && c.heads > 0 && Plan(c, wRows, sRows).Ok?
    ensures c.ckpt > 0 && c.ChunkRows() > 0
    ensures Ambiguous(c, wRows, sRows) <==>
              && sRows == c.ckpt * ScaleRows(c) && c.ckpt > 1 && c.ChunkRows() % c.block != 0
              && Tails(c) < c.block + wRows % c.ckpt
  {
    AcceptedIff(c, wRows, sRows);
    SomeRows(c);
    CountsAgreeIff(c, wRows);
    GridsCoincideIff(c);
    hide Plan, Shape.Divides, Shape.ChunkRows, ScaleRows, CeilDiv, ScaleIndex, Tails;
    if c.ChunkRows() % c.block != 0 {
      TailsPositive(c, wRows);
    }
  }

  lemma TailsPositive(c: Shape, wRows: nat)
    requires c.ckpt > 0 && c.block > 0 && c.ChunkRows() % c.block != 0
    ensures wRows % c.ckpt <= Tails(c)
  {
    var n, q := c.ChunkRows(), ScaleRows(c);
    CeilCovers(n, c.block);
    BlockOf(n, c.block, q);
    FlatInverse(q, 0, c.block);
    BlockOf(wRows, c.ckpt, 0);
    assert q * c.block - n >= 1;
    hide Shape.ChunkRows, ScaleRows, CeilDiv;
    MulMonotone(1, q * c.block - n, c.ckpt);
  }

  /** Two chunks of 255 rows in blocks of 128: both grids have 4 scale rows, yet row
      255 has a different scale in each. */
  lemma CountIsAmbiguous()
    ensures var c := Shape(2, 2, 85, 85, 1, 2, 128);
            && Plan(c, 510, 4) == Ok(PerChunk) && CeilDiv(510, 128) == 4
            && ScaleIndex(c, PerChunk, 255) == 2 && ScaleIndex(c, Continuous, 255) == 1
  {
  }

  /** So it is with two chunks of 192 rows and one row more, and row 192. */
  lemma RestIsAmbiguous()
    ensures var c := Shape(2, 2, 64, 64, 1, 2, 128);
            && Plan(c, 385, 4) == Ok(PerChunk) && CeilDiv(385, 128) == 4
            && ScaleIndex(c, PerChunk, 192) == 2 && ScaleIndex(c, Continuous, 192) == 1
  {
  }

  // ----- the loops

  /** Positions before x of a rank's rows. */
  ghost predicate GatheredTo(c: Shape, rank: nat, index: seq<nat>, x: nat)
    requires c.Divides() && rank < c.tp && x <= c.Rank().Total()
  {
    |index| == x && forall y: nat :: y < x ==> index[y] == IndexAt(c, rank, y)
  }

  /** Position of row 0 of local head a. */
  function Start(w: Widths, p: Part, a: nat): nat { w.Place(Cell(p, a, 0)) }

  lemma StartStep(w: Widths, p: Part, a: nat)
    ensures Start(w, p, 0) == w.Off(p) && Start(w, p, w.Heads(p)) == w.Off(p) + w.Size(p) <= w.Total()
    ensures Start(w, p, a + 1) == Start(w, p, a) + w.Dim(p)
    ensures a <= w.Heads(p) ==> Start(w, p, a) <= w.Total()
  {
    PartInTotal(w, p);
    StartIs(w, p, 0);
    StartIs(w, p, a);
    StartIs(w, p, a + 1);
    StartIs(w, p, w.Heads(p));
    Distributes(a, w.Dim(p));
    if a <= w.Heads(p) {
      MulMonotone(a, w.Heads(p), w.Dim(p));
    }
    assert w.Size(p) == w.Heads(p) * w.Dim(p);
    hide *;
  }

  lemma StartIs(w: Widths, p: Part, a: nat)
    ensures Start(w, p, a) == w.Off(p) + a * w.Dim(p)
  {
    hide Widths.Off;
  }

  lemma PartInTotal(w: Widths, p: Part)
    ensures w.Off(p) + w.Size(p) <= w.Total()
  {
    hide Widths.Size;
  }

  lemma HeadRow(c: Shape, p: Part, rank: nat, a: nat, i: nat)
    requires c.Divides() && rank < c.tp && a < c.Count(p) && i < c.Dim(p) && c.Chunk().Heads(p) > 0
    ensures Start(c.Rank(), p, a) + i < c.Rank().Total()
    ensures IndexAt(c, rank, Start(c.Rank(), p, a) + i) == c.Addr(Cell(p, c.First(p, rank) + a, 0)) + i
  {
    var at := Cell(p, a, i);
    assert Start(c.Rank(), p, a) + i == c.Rank().Place(at);
    FindPlace(c.Rank(), at);
    hide Widths.Total, Widths.Find, Shape.First;
    assert IndexAt(c, rank, c.Rank().Place(at)) == c.Addr(Cell(p, c.First(p, rank) + a, i));
  }

  lemma AppendHead(c: Shape, p: Part, rank: nat, a: nat, index: seq<nat>, rows: seq<nat>)
    requires c.Divides() && rank < c.tp && a < c.Count(p) && c.Chunk().Heads(p) > 0
    requires Start(c.Rank(), p, a) <= c.Rank().Total() && GatheredTo(c, rank, index, Start(c.Rank(), p, a))
    requires |rows| == c.Dim(p) && forall i :: 0 <= i < |rows| ==>
               rows[i] == c.Addr(Cell(p, c.First(p, rank) + a, 0)) + i
    ensures Start(c.Rank(), p, a + 1) <= c.Rank().Total()
            && GatheredTo(c, rank, index + rows, Start(c.Rank(), p, a + 1))
  {
    StartStep(c.Rank(), p, a);
    StartStep(c.Rank(), p, a + 1);
    hide Start, IndexAt, Shape.Addr, Widths.Total, Shape.First, Shape.Divides, Shape.Chunk;
    forall y: nat | y < |index + rows|
      ensures y < c.Rank().Total() && (index + rows)[y] == IndexAt(c, rank, y)
    {
      if y >= |index| {
        HeadRow(c, p, rank, a, y - |index|);
      }
    }
  }

  /** Append the rows of one part, head by head. */
  method AppendPart(c: Shape, p: Part, rank: nat, before: seq<nat>) returns (index: seq<nat>)
    requires c.Divides() && rank < c.tp && GatheredTo(c, rank, before, c.Rank().Off(p))
    ensures GatheredTo(c, rank, index, c.Rank().Off(p) + c.Rank().Size(p))
  {
    index := before;
    var a := 0;
    StartStep(c.Rank(), p, 0);
    RankHeads(c, p, rank);
    hide Start, IndexAt, GatheredTo, Shape.Addr, Shape.First, Widths.Size, Widths.Total;
    while a < c.Rank().Heads(p)
      invariant 0 <= a <= c.Rank().Heads(p) && Start(c.Rank(), p, a) <= c.Rank().Total()
      invariant GatheredTo(c, rank, index, Start(c.Rank(), p, a))
    {
      DivPositive(c.Heads(p), c.ckpt);
      var base := c.Addr(Cell(p, c.First(p, rank) + a, 0));
      var rows := seq(c.Dim(p), i requires 0 <= i < c.Dim(p) => base + i);
      AppendHead(c, p, rank, a, index, rows);
      index := index + rows;
      a := a + 1;
    }
  }

  /** The rank's gather index: Q, then K, then V. */
  method GatherIndex(c: Shape, rank: nat) returns (index: seq<nat>)
    requires c.Divides() && rank < c.tp
    ensures |index| == c.Rank().Total()
    ensures forall x: nat :: x < |index| ==> index[x] == IndexAt(c, rank, x)
  {
    index := AppendPart(c, Q, rank, []);
    index := AppendPart(c, K, rank, index);
    index := AppendPart(c, V, rank, index);
  }

  // ----- the whole call

  /** Rows of piece r when a tensor of `len` rows is cut into pieces of ceil(len / n). */
  function PieceLo(len: nat, n: nat, r: nat): nat
    requires n > 0
  {
    r * CeilDiv(len, n)
  }

  function PieceHi(len: nat, n: nat, r: nat): nat
    requires n > 0
  {
    Min((r + 1) * CeilDiv(len, n), len)
  }

  /** What a rank gets: a slice of both tensors, or (weight row, scale row) pairs to dequantize and requantize. */
  datatype Shard<W, S> = Slice(w: seq<W>, s: seq<S>) | Regrouped(rows: seq<(W, S)>)

  /** Position x of the shard is this weight row under this scale row. */
  predicate HoldsAt<W(==), S(==)>(sh: Shard<W, S>, block: nat, x: nat, row: W, scale: S)
    requires block > 0
  {
    if sh.Slice? then x < |sh.w| && x / block < |sh.s| && sh.w[x] == row && sh.s[x / block] == scale
    else x < |sh.rows| && sh.rows[x] == (row, scale)
  }

  function Length<W, S>(sh: Shard<W, S>): nat { if sh.Slice? then |sh.w| else |sh.rows| }

  /** Position x of a rank has a weight row and a scale row in the tensors. */
  ghost predicate InTensors(c: Shape, g: Grid, rank: nat, wRows: nat, sRows: nat, x: nat)
    requires c.Divides() && rank < c.tp && x < c.Rank().Total()
  {
    IndexAt(c, rank, x) < wRows && c.ChunkRows() > 0 && ScaleIndex(c, g, IndexAt(c, rank, x)) < sRows
  }

  /** Position x holds the rank's checkpoint row with that row's own scale. */
  ghost predicate RowRight<W, S>(c: Shape, g: Grid, rank: nat, w: seq<W>, s: seq<S>, sh: Shard<W, S>, x: nat)
    requires c.Divides() && rank < c.tp && x < c.Rank().Total()
  {
    && InTensors(c, g, rank, |w|, |s|, x)
    && HoldsAt(sh, c.block, x, w[IndexAt(c, rank, x)], s[ScaleIndex(c, g, IndexAt(c, rank, x))])
  }

  /** The shard holds the rank's rows, in order, each with its own scale. */
  ghost predicate Regroups<W, S>(c: Shape, g: Grid, rank: nat, w: seq<W>, s: seq<S>, sh: Shard<W, S>)
    requires c.Divides() && rank < c.tp
  {
    && Length(sh) == c.Rank().Total()
    && (sh.Slice? ==> |sh.s| == CeilDiv(|sh.w|, c.block))
    && forall x: nat :: x < c.Rank().Total() ==> RowRight(c, g, rank, w, s, sh, x)
  }

  lemma RowRightIf<W, S>(c: Shape, g: Grid, rank: nat, w: seq<W>, s: seq<S>, sh: Shard<W, S>, x: nat, i: nat, j: nat)
    requires c.Divides() && rank < c.tp && x < c.Rank().Total() && InTensors(c, g, rank, |w|, |s|, x)
    requires i == IndexAt(c, rank, x) && j == ScaleIndex(c, g, i) && HoldsAt(sh, c.block, x, w[i], s[j])
    ensures RowRight(c, g, rank, w, s, sh, x)
  {
    hide IndexAt, ScaleIndex, Shape.ChunkRows, Shape.Rank, Widths.Total, InTensors, HoldsAt;
  }

  lemma AllInTensors(c: Shape, g: Grid, rank: nat, wRows: nat, sRows: nat, x: nat)
    requires c.Given() && Plan(c, wRows, sRows) == Ok(g) && rank < c.tp && x < c.Rank().Total()
    ensures InTensors(c, g, rank, wRows, sRows, x)
  {
    IndexOwned(c, rank, x);
    hide Plan, IndexAt, ScaleIndex, Shape.CellAt, Shape.Owns, Shape.First, Shape.ChunkRows, Widths.Find, Widths.Total;
    ScaleInRange(c, wRows, sRows, IndexAt(c, rank, x));
  }

  /** With as many ranks as chunks a rank's rows are one chunk, in order. */
  lemma RankIsChunk(c: Shape, rank: nat, x: nat)
    requires c.Divides() && rank < c.tp && c.tp == c.ckpt && c.heads > 0 && x < c.Rank().Total()
    ensures c.Rank() == c.Chunk() && IndexAt(c, rank, x) == rank * c.ChunkRows() + x
  {
    DivPositive(c.heads, c.tp);
    DivPositive(c.kvHeads, c.ckpt);
    assert c.tp <= c.kvHeads by {
      if c.kvHeads < c.tp {
        MulMonotone(1, c.kvHeads / c.ckpt, c.ckpt);
      }
    }
    assert c.Rank() == c.Chunk();
    PlaceFind(c.Rank(), x);
    var at := c.Rank().Find(x);
    var n := c.Rank().Heads(at.part);
    FlatInverse(rank, at.head, n);
    hide FlatIndex, Widths.Find, Widths.Place, Widths.Total;
    assert c.First(at.part, rank) + at.head == FlatIndex(rank, at.head, n);
    assert IndexAt(c, rank, x) == FlatIndex(rank, x, c.ChunkRows());
    assert FlatIndex(rank, x, c.ChunkRows()) == rank * c.ChunkRows() + x by {
      FlatIndexIs(rank, x, c.ChunkRows());
    }
  }

  lemma FlatIndexIs(row: nat, col: nat, cols: nat)
    ensures FlatIndex(row, col, cols) == row * cols + col
  {
  }

  /** Piece `rank` of the tensor is the rank's rows, in order. */
  ghost predicate PieceIsRank(c: Shape, wRows: nat, rank: nat)
    requires c.Divides() && c.ckpt > 0 && rank < c.tp
  {
    && PieceHi(wRows, c.ckpt, rank) - PieceLo(wRows, c.ckpt, rank) == c.Rank().Total()
    && forall x: nat :: x < c.Rank().Total() ==> PieceLo(wRows, c.ckpt, rank) + x == IndexAt(c, rank, x)
  }

  /** The slice path returns the gather path's rows exactly when the row count is a multiple of the chunk count. */
  lemma SliceIsGatherIff(c: Shape, wRows: nat, sRows: nat, rank: nat)
    requires c.Given() && Plan(c, wRows, sRows).Ok? && rank < c.tp && c.tp == c.ckpt && c.heads > 0
    ensures PieceIsRank(c, wRows, rank) <==> wRows % c.ckpt == 0
  {
    var base := rank * c.ChunkRows();
    PieceBounds(c, wRows, sRows, rank);
    SomeRows(c);
    TotalIsRows(c);
    assert (rank + 1) * c.ChunkRows() == base + c.ChunkRows() by {
      Distributes(rank, c.ChunkRows());
    }
    hide *;
    forall x: nat | x < c.Rank().Total()
      ensures IndexAt(c, rank, x) == base + x
    {
      RankIsChunk(c, rank, x);
    }
    PieceFrom(c, wRows, rank, base, c.ChunkRows());
  }

  lemma PieceFrom(c: Shape, wRows: nat, rank: nat, base: nat, n: nat)
    requires c.Divides() && c.ckpt > 0 && rank < c.tp && c.Rank().Total() == n > 0
    requires forall x: nat :: x < c.Rank().Total() ==> IndexAt(c, rank, x) == base + x
    ensures PieceIsRank(c, wRows, rank) <==>
              PieceLo(wRows, c.ckpt, rank) == base && PieceHi(wRows, c.ckpt, rank) == base + n
  {
    hide PieceLo, PieceHi, IndexAt, Widths.Total, Shape.Rank, Shape.Divides;
    assert IndexAt(c, rank, 0) == base;
  }

  lemma TotalIsRows(c: Shape)
    requires c.Divides() && c.tp == c.ckpt
    ensures c.Rank().Total() == c.ChunkRows()
  {
    ChunkIsRank(c);
  }

  lemma PieceBounds(c: Shape, wRows: nat, sRows: nat, rank: nat)
    requires c.Given() && Plan(c, wRows, sRows).Ok? && rank < c.tp && c.tp == c.ckpt && c.heads > 0
    ensures PieceLo(wRows, c.ckpt, rank) == rank * c.ChunkRows()
            && PieceHi(wRows, c.ckpt, rank) == (rank + 1) * c.ChunkRows()
            <==> wRows % c.ckpt == 0
  {
    PiecesIff(wRows, c.ckpt, rank);
  }

  lemma PiecesIff(len: nat, k: nat, r: nat)
    requires k > 0 && r < k
    ensures PieceLo(len, k, r) == r * (len / k) && PieceHi(len, k, r) == (r + 1) * (len / k) <==> len % k == 0
  {
    var n := len / k;
    CeilOf(len, k);
    BlockOf(len, k, 0);
    if len % k == 0 {
      WholePieces(len, n, k, r);
    } else {
      OddPieces(len, n, k, r);
    }
  }

  lemma WholePieces(len: nat, n: nat, k: nat, r: nat)
    requires r < k && len == n * k && CeilDiv(len, k) == n
    ensures PieceLo(len, k, r) == r * n && PieceHi(len, k, r) == (r + 1) * n
  {
    hide CeilDiv;
    MulMonotone(r + 1, k, n);
    assert k * n == len;
  }

  /** With a remainder the pieces are one row longer: piece 0 ends too late, every other one starts too late. */
  lemma OddPieces(len: nat, n: nat, k: nat, r: nat)
    requires r < k && n * k < len && CeilDiv(len, k) == n + 1
    ensures r == 0 ==> PieceHi(len, k, r) != (r + 1) * n
    ensures r > 0 ==> PieceLo(len, k, r) != r * n
  {
    hide CeilDiv;
    if r == 0 {
      MulMonotone(1, k, n);
    } else {
      assert r * (n + 1) == r * n + r;
    }
  }

  predicate TakesSlice(c: Shape, g: Grid) { c.tp == c.ckpt && g.PerChunk? }

  lemma SliceScale(rank: nat, n: nat, x: nat, q: nat, b: nat)
    requires x < n && b > 0 && q == CeilDiv(n, b)
    ensures GridIndex(rank * n + x, n, q, b) == rank * q + x / b && x / b < q
  {
    FlatInverse(rank, x, n);
    BelowCeil(x, n, b);
  }

  /** Where a rank's slices of the weights and the scales start. */
  ghost predicate SliceAt(c: Shape, rank: nat, lo: nat, slo: nat)
    requires c.ckpt > 0 && c.block > 0
  {
    lo == rank * c.ChunkRows() && slo == rank * ScaleRows(c)
  }

  lemma SliceRow(c: Shape, rank: nat, wRows: nat, sRows: nat, lo: nat, slo: nat, x: nat)
    requires c.Given() && c.heads > 0 && Plan(c, wRows, sRows) == Ok(PerChunk) && rank < c.tp == c.ckpt
             && x < c.Rank().Total()
    requires SliceAt(c, rank, lo, slo)
    ensures InTensors(c, PerChunk, rank, wRows, sRows, x)
    ensures IndexAt(c, rank, x) == lo + x && ScaleIndex(c, PerChunk, IndexAt(c, rank, x)) == slo + x / c.block
  {
    RankIsChunk(c, rank, x);
    AllInTensors(c, PerChunk, rank, wRows, sRows, x);
    hide Shape.ChunkRows, CeilDiv, Plan, IndexAt, GridIndex;
    SliceScale(rank, c.ChunkRows(), x, ScaleRows(c), c.block);
  }

  lemma SliceHolds<W, S>(sh: Shard<W, S>, w: seq<W>, s: seq<S>, lo: nat, slo: nat, block: nat, x: nat)
    requires sh.Slice? && lo + |sh.w| <= |w| && slo + |sh.s| <= |s| && block > 0
    requires sh.w == w[lo..lo + |sh.w|] && sh.s == s[slo..slo + |sh.s|] && |sh.s| == CeilDiv(|sh.w|, block)
             && x < |sh.w|
    ensures x / block < |sh.s| && HoldsAt(sh, block, x, w[lo + x], s[slo + x / block])
  {
    BelowCeil(x, |sh.w|, block);
  }

  lemma SliceRegroups<W, S>(c: Shape, rank: nat, w: seq<W>, s: seq<S>, sh: Shard<W, S>, lo: nat, slo: nat)
    requires c.Given() && c.heads > 0 && Plan(c, |w|, |s|) == Ok(PerChunk) && rank < c.tp == c.ckpt
             && SliceAt(c, rank, lo, slo)
    requires sh.Slice? && |sh.w| == c.ChunkRows() && |sh.s| == ScaleRows(c) && lo + |sh.w| <= |w| && slo + |sh.s| <= |s|
    requires sh.w == w[lo..lo + |sh.w|] && sh.s == s[slo..slo + |sh.s|]
    ensures Regroups(c, PerChunk, rank, w, s, sh)
  {
    ChunkIsRank(c);
    assert c.ChunkRows() == c.Rank().Total();
    assert ScaleRows(c) == CeilDiv(c.ChunkRows(), c.block);
    hide RowRight, Plan, Shape.ChunkRows, ScaleRows, Widths.Total, CeilDiv, Shape.Rank, Shape.Divides, SliceAt,
         IndexAt, ScaleIndex, InTensors, HoldsAt;
    forall x: nat | x < c.Rank().Total()
      ensures RowRight(c, PerChunk, rank, w, s, sh, x)
    {
      SliceHolds(sh, w, s, lo, slo, c.block, x);
      SliceRow(c, rank, |w|, |s|, lo, slo, x);
      assert RowRight(c, PerChunk, rank, w, s, sh, x) by {
        RowRightIf(c, PerChunk, rank, w, s, sh, x, lo + x, slo + x / c.block);
      }
    }
  }

  lemma ChunkIsRank(c: Shape)
    requires c.Divides() && c.tp == c.ckpt
    ensures c.Rank() == c.Chunk()
  {
  }

  /** Shard the fused projection for one rank. */
  method ShardQkv<W, S>(c: Shape, rank: nat, w: seq<W>, s: seq<S>) returns (r: Outcome<Shard<W, S>>)
    requires c.Given() && rank < c.tp && c.heads > 0
    ensures var plan := Plan(c, |w|, |s|);
            if plan.Fail? then r == Fail(plan.error)
            else (c.tp == c.ckpt && plan.value.PerChunk? ==> |w| % c.ckpt == 0) ==>
              && r.Ok? && Regroups(c, plan.value, rank, w, s, r.value)
              && (r.value.Slice? <==> c.tp == c.ckpt && plan.value.PerChunk?)
    ensures var plan := Plan(c, |w|, |s|);
            plan.Ok? && c.tp == c.ckpt && plan.value.PerChunk? ==> r == Piece(c, rank, w, s)
  {
    hide Plan, Regroups;
    var plan := Plan(c, |w|, |s|);
    if plan.Fail? {
      return Fail(plan.error);
    }
    if TakesSlice(c, plan.value) {
      r := SliceQkv(c, rank, w, s);
    } else {
      r := GatherQkv(c, plan.value, rank, w, s);
    }
  }

  /** Weight and scale rows at the gathered indices. */
  function TakeRows<W, S>(c: Shape, g: Grid, w: seq<W>, s: seq<S>, index: seq<nat>): (rows: seq<(W, S)>)
    requires c.ckpt > 0 && c.block > 0 && c.ChunkRows() > 0
    requires forall x :: 0 <= x < |index| ==> index[x] < |w| && ScaleIndex(c, g, index[x]) < |s|
    ensures |rows| == |index| && forall x :: 0 <= x < |index| ==>
              rows[x] == (w[index[x]], s[ScaleIndex(c, g, index[x])])
  {
    if index == [] then [] else [(w[index[0]], s[ScaleIndex(c, g, index[0])])] + TakeRows(c, g, w, s, index[1..])
  }

  method GatherQkv<W, S>(c: Shape, g: Grid, rank: nat, w: seq<W>, s: seq<S>) returns (r: Outcome<Shard<W, S>>)
    requires c.Given() && c.heads > 0 && Plan(c, |w|, |s|) == Ok(g) && rank < c.tp
    ensures r.Ok? && r.value.Regrouped? && Regroups(c, g, rank, w, s, r.value)
  {
    var index := GatherIndex(c, rank);
    SomeRows(c);
    forall x: nat | x < |index|
      ensures InTensors(c, g, rank, |w|, |s|, x) && IndexAt(c, rank, x) < |w|
              && ScaleIndex(c, g, IndexAt(c, rank, x)) < |s|
    {
      AllInTensors(c, g, rank, |w|, |s|, x);
      hide ScaleIndex, IndexAt;
    }
    hide Plan, IndexAt, ScaleIndex, Widths.Total, Shape.ChunkRows, RowRight, Shape.Rank, Shape.Divides, InTensors;
    var rows := TakeRows(c, g, w, s, index);
    forall x: nat | x < |index|
      ensures RowRight(c, g, rank, w, s, Regrouped(rows), x)
    {
      RowRightIf(c, g, rank, w, s, Regrouped(rows), x, index[x], ScaleIndex(c, g, index[x]));
    }
    r := Ok(Regrouped(rows));
  }

  lemma SomeRows(c: Shape)
    requires c.Divides() && c.heads > 0
    ensures c.ChunkRows() > 0
  {
    DivPositive(c.heads, c.ckpt);
    assert c.Chunk().Size(Q) > 0;
  }

  /** The rank's piece of both tensors, when each has that many pieces. */
  function Piece<W, S>(c: Shape, rank: nat, w: seq<W>, s: seq<S>): Outcome<Shard<W, S>>
    requires c.ckpt > 0
  {
    var lo, slo := PieceLo(|w|, c.ckpt, rank), PieceLo(|s|, c.ckpt, rank);
    var hi, shi := PieceHi(|w|, c.ckpt, rank), PieceHi(|s|, c.ckpt, rank);
    if lo >= hi || slo >= shi then Fail(NoSuchChunk) else Ok(Slice(w[lo..hi], s[slo..shi]))
  }

  /** The rank's piece: from its share on, as many rows as a share, or those that are left; there is none when the
      shares before it take all rows of a tensor. */
  lemma PieceIs<W, S>(c: Shape, rank: nat, w: seq<W>, s: seq<S>)
    requires c.ckpt > 0
    ensures var n, m := CeilDiv(|w|, c.ckpt), CeilDiv(|s|, c.ckpt);
            && (Piece(c, rank, w, s) == Fail(NoSuchChunk) <==> rank * n >= |w| || rank * m >= |s|)
            && (Piece(c, rank, w, s).Ok? ==>
                  && Piece(c, rank, w, s).value.Slice?
                  && IsRun(Piece(c, rank, w, s).value.w, w, rank * n, n)
                  && IsRun(Piece(c, rank, w, s).value.s, s, rank * m, m))
  {
    var n, m := CeilDiv(|w|, c.ckpt), CeilDiv(|s|, c.ckpt);
    CeilCovers(|w|, c.ckpt);
    CeilCovers(|s|, c.ckpt);
    assert (rank + 1) * n == rank * n + n && (rank + 1) * m == rank * m + m;
    assert n == 0 ==> |w| == 0;
    assert m == 0 ==> |s| == 0;
    hide CeilDiv;
  }

  /** The n rows from `lo` on, or the rest of them. */
  predicate IsRun<T(==)>(part: seq<T>, all: seq<T>, lo: nat, n: nat)
  {
    && |part| == (if lo + n <= |all| then n else |all| - lo)
    && forall i :: 0 <= i < |part| ==> part[i] == all[lo + i]
  }

  method SliceQkv<W, S>(c: Shape, rank: nat, w: seq<W>, s: seq<S>) returns (r: Outcome<Shard<W, S>>)
    requires c.Given() && c.heads > 0 && Plan(c, |w|, |s|) == Ok(PerChunk) && rank < c.tp == c.ckpt
    ensures |w| % c.ckpt == 0 ==> r.Ok? && r.value.Slice? && Regroups(c, PerChunk, rank, w, s, r.value)
    ensures r == Piece(c, rank, w, s)
  {
    var lo, slo := PieceLo(|w|, c.ckpt, rank), PieceLo(|s|, c.ckpt, rank);
    var hi, shi := PieceHi(|w|, c.ckpt, rank), PieceHi(|s|, c.ckpt, rank);
    if |w| % c.ckpt == 0 {
      SliceBounds(c, rank, |w|, |s|, lo, hi, slo, shi);
    }
    hide Plan, PieceLo, PieceHi, Shape.ChunkRows, ScaleRows, Regroups, SliceAt, Shape.Divides, Shape.Given;
    if lo >= hi || slo >= shi {
      return Fail(NoSuchChunk);
    }
    r := Ok(Slice(w[lo..hi], s[slo..shi]));
    if |w| % c.ckpt == 0 {
      SliceRegroups(c, rank, w, s, r.value, lo, slo);
    }
  }

  lemma SliceBounds(c: Shape, rank: nat, wRows: nat, sRows: nat, lo: nat, hi: nat, slo: nat, shi: nat)
    requires c.Given() && c.heads > 0 && Plan(c, wRows, sRows) == Ok(PerChunk) && rank < c.tp == c.ckpt
             && wRows % c.ckpt == 0
    requires lo == PieceLo(wRows, c.ckpt, rank) && hi == PieceHi(wRows, c.ckpt, rank)
    requires slo == PieceLo(sRows, c.ckpt, rank) && shi == PieceHi(sRows, c.ckpt, rank)
    ensures SliceAt(c, rank, lo, slo) && hi == lo + c.ChunkRows() <= wRows && shi == slo + ScaleRows(c) <= sRows
    ensures c.ChunkRows() > 0 && ScaleRows(c) > 0
  {
    PieceBounds(c, wRows, sRows, rank);
    ScaleSlice(c, rank, wRows, sRows);
    SomeRows(c);
    hide Plan, Shape.ChunkRows, ScaleRows, CeilDiv;
    Distributes(rank, c.ChunkRows());
    Distributes(rank, ScaleRows(c));
  }

  lemma Distributes(r: nat, n: nat)
    ensures (r + 1) * n == r * n + n
  {
  }

  lemma ScaleSlice(c: Shape, rank: nat, wRows: nat, sRows: nat)
    requires c.Given() && Plan(c, wRows, sRows) == Ok(PerChunk) && rank < c.ckpt && c.heads > 0
    ensures sRows == c.ckpt * ScaleRows(c) && ScaleRows(c) > 0
    ensures PieceLo(sRows, c.ckpt, rank) == rank * ScaleRows(c)
            && PieceHi(sRows, c.ckpt, rank) == (rank + 1) * ScaleRows(c) <= sRows
  {
    assert ScaleRows(c) > 0 by {
      SomeRows(c);
      CeilCovers(c.ChunkRows(), c.block);
    }
    FlatInverse(ScaleRows(c), 0, c.ckpt);
    CeilOf(sRows, c.ckpt);
    MulMonotone(rank + 1, c.ckpt, ScaleRows(c));
  }
}
