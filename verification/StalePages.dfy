/**
 The drafter's sliding-window block table over a shared page pool: pages wholly below the window are freed and reused
 by other layers while the worker's row keeps their ids. The redirect points those entries at the first in-window page.
 */
module StalePages {
  import opened IndexMath

  /** A cached value read as fp8: any number, or NaN. */
  datatype Cell = NaN | Num(x: real)

  /** NaN survives multiplication by a zero weight. */
  function Mul(w: real, c: Cell): Cell
  {
    if c.NaN? then NaN else Num(w * c.x)
  }

  function Add(c: Cell, d: Cell): Cell
  {
    if c.NaN? || d.NaN? then NaN else Num(c.x + d.x)
  }

  /** Block size, window, draft rows per request, and the reader's tile, all in tokens. */
  datatype Geometry = Geometry(block: nat, window: nat, rows: nat, tile: nat)
  {
    predicate Valid() { block > 0 && window > 0 && rows > 0 && tile > 0 }
  }

  datatype Owner = Free | Draft(req: nat, index: nat) | Other

  /** One request of the drafter: its row of page ids, and what it wrote at each position so far. */
  datatype Request = Request(table: seq<nat>, kv: seq<real>, computed: nat, freed: nat)

  datatype State = State(owner: seq<Owner>, cells: seq<seq<Cell>>, reqs: seq<Request>)

  // ----- the protocol

  ghost predicate Init(s: State, g: Geometry)
  {
    && |s.owner| == |s.cells|
    && (forall p :: 0 <= p < |s.owner| ==> s.owner[p] == Free && |s.cells[p]| == g.block)
    && forall r :: 0 <= r < |s.reqs| ==> s.reqs[r] == Request([], [], 0, 0)
  }

  /** The scheduler gives request r more pages from the free list; they keep whatever bytes they held. */
  ghost predicate Grow(s: State, s': State, r: nat, pages: seq<nat>)
  {
    && r < |s.reqs|
    && (forall i :: 0 <= i < |pages| ==> pages[i] < |s.owner| && s.owner[pages[i]] == Free)
    && (forall i, j :: 0 <= i < j < |pages| ==> pages[i] != pages[j])
    && |s'.owner| == |s.owner|
    && (forall i :: 0 <= i < |pages| ==> s'.owner[pages[i]] == Draft(r, |s.reqs[r].table| + i))
    && (forall p: nat :: p < |s.owner| && p !in pages ==> s'.owner[p] == s.owner[p])
    && s'.cells == s.cells
    && s'.reqs == s.reqs[r := s.reqs[r].(table := s.reqs[r].table + pages)]
  }

  /** The drafter writes the positions from `from` on (uncommitted ones may be overwritten after a rejection). */
  ghost predicate Write(s: State, s': State, g: Geometry, r: nat, from: nat, xs: seq<real>)
    requires g.Valid()
  {
    && r < |s.reqs|
    && var q := s.reqs[r];
    && q.computed <= from <= |q.kv| && from + |xs| <= |q.table| * g.block
    && s'.owner == s.owner && |s'.cells| == |s.cells|
    && s'.reqs == s.reqs[r := q.(kv := q.kv[..from] + xs)]
    && (forall p: nat {:trigger CellAt(s', g, q.table, p)} :: from <= p < from + |xs| ==>
          CellAt(s', g, q.table, p) == Num(xs[p - from]))
    && forall p: nat :: p < |s.cells| ==>
         && |s'.cells[p]| == |s.cells[p]|
         && forall o: nat {:trigger s'.cells[p][o]} :: o < |s.cells[p]| && !Hit(g, q.table, from, from + |xs|, p, o) ==>
              s'.cells[p][o] == s.cells[p][o]
  }

  /** Some position in [lo, hi) is stored at offset o of page p. */
  ghost predicate Hit(g: Geometry, table: seq<nat>, lo: nat, hi: nat, p: nat, o: nat)
    requires g.Valid()
  {
    exists i: nat {:trigger PageOf(g, table, i)} :: lo <= i < hi && PageOf(g, table, i) == p && i % g.block == o
  }

  function PageOf(g: Geometry, table: seq<nat>, i: nat): nat
    requires g.Valid()
  {
    if i / g.block < |table| then table[i / g.block] else 0
  }

  /** What a reader finds for position i through a row of page ids. */
  function CellAt(s: State, g: Geometry, table: seq<nat>, i: nat): Cell
    requires g.Valid()
  {
    var p := PageOf(g, table, i);
    if p < |s.cells| && i % g.block < |s.cells[p]| then s.cells[p][i % g.block] else NaN
  }

  ghost predicate Commit(s: State, s': State, r: nat, to: nat)
  {
    r < |s.reqs| && s.reqs[r].computed <= to <= |s.reqs[r].kv|
        && s' == s.(reqs := s.reqs[r := s.reqs[r].(computed := to)])
  }

  /** The scheduler frees r's oldest page once it is wholly below the window of the next token; the row keeps its id. */
  ghost predicate FreeOldest(s: State, s': State, g: Geometry, r: nat)
  {
    && r < |s.reqs|
    && var q := s.reqs[r];
    && q.freed < |q.table| && q.table[q.freed] < |s.owner|
    && (q.freed + 1) * g.block + (g.window - 1) <= q.computed
    && s' == s.(owner := s.owner[q.table[q.freed] := Free], reqs := s.reqs[r := q.(freed := q.freed + 1)])
  }

  /** Another layer takes a free page, or rewrites one it holds, with any bytes at all. */
  ghost predicate OtherWrites(s: State, s': State, g: Geometry, p: nat, bytes: seq<Cell>)
  {
    && p < |s.owner| == |s.cells| && (s.owner[p] == Free || s.owner[p] == Other) && |bytes| == g.block
    && s' == s.(owner := s.owner[p := Other], cells := s.cells[p := bytes])
  }

  ghost predicate OtherFrees(s: State, s': State, p: nat)
  {
    p < |s.owner| && s.owner[p] == Other && s' == s.(owner := s.owner[p := Free])
  }

  datatype Move =
    | MGrow(r: nat, pages: seq<nat>)
    | MWrite(r: nat, from: nat, xs: seq<real>)
    | MCommit(r: nat, to: nat)
    | MFree(r: nat)
    | MOtherWrites(page: nat, bytes: seq<Cell>)
    | MOtherFrees(page: nat)

  ghost predicate Step(s: State, s': State, g: Geometry, m: Move)
    requires g.Valid()
  {
    match m
    case MGrow(r, pages) => Grow(s, s', r, pages)
    case MWrite(r, from, xs) => Write(s, s', g, r, from, xs)
    case MCommit(r, to) => Commit(s, s', r, to)
    case MFree(r) => FreeOldest(s, s', g, r)
    case MOtherWrites(p, bytes) => OtherWrites(s, s', g, p, bytes)
    case MOtherFrees(p) => OtherFrees(s, s', p)
  }

  ghost predicate Run(run: seq<State>, moves: seq<Move>, g: Geometry)
    requires g.Valid()
  {
    && |run| == |moves| + 1 && Init(run[0], g)
    && forall i :: 0 <= i < |moves| ==> Step(run[i], run[i + 1], g, moves[i])
  }

  ghost predicate Reachable(s: State, g: Geometry)
    requires g.Valid()
  {
    exists run, moves :: Run(run, moves, g) && run[|run| - 1] == s
  }

  // ----- invariant

  ghost predicate RequestOk(s: State, g: Geometry, r: nat)
    requires g.Valid() && r < |s.reqs|
  {
    var q := s.reqs[r];
    && (forall b :: 0 <= b < |q.table| ==> q.table[b] < |s.owner|)
    && q.freed <= |q.table|
    && (q.freed > 0 ==> q.freed * g.block + (g.window - 1) <= q.computed)
    && q.computed <= |q.kv| <= |q.table| * g.block
    && (forall b :: q.freed <= b < |q.table| ==> s.owner[q.table[b]] == Draft(r, b))
    && forall i: nat {:trigger CellAt(s, g, q.table, i)} :: q.freed * g.block <= i < |q.kv| ==>
         CellAt(s, g, q.table, i) == Num(q.kv[i])
  }

  ghost predicate Inv(s: State, g: Geometry)
    requires g.Valid()
  {
    && |s.owner| == |s.cells|
    && (forall p :: 0 <= p < |s.cells| ==> |s.cells[p]| == g.block)
    && forall r :: 0 <= r < |s.reqs| ==> RequestOk(s, g, r)
  }

  /** A live position of request r lies on a page r owns. */
  lemma LivePage(s: State, g: Geometry, r: nat, i: nat)
    requires g.Valid() && Inv(s, g) && r < |s.reqs|
    requires s.reqs[r].freed * g.block <= i < |s.reqs[r].table| * g.block
    ensures PageOf(g, s.reqs[r].table, i) < |s.owner|
    ensures s.owner[PageOf(g, s.reqs[r].table, i)] == Draft(r, i / g.block)
  {
    assert RequestOk(s, g, r);
    BlockOf(i, g.block, s.reqs[r].freed);
    BlockOf(i, g.block, |s.reqs[r].table|);
  }

  /** Written positions keep their page when a row grows at its end. */
  lemma GrownRow(s: State, s': State, g: Geometry, table: seq<nat>, more: seq<nat>, i: nat)
    requires g.Valid() && s'.cells == s.cells && i < |table| * g.block
    ensures CellAt(s', g, table + more, i) == CellAt(s, g, table, i)
  {
    BlockOf(i, g.block, |table|);
  }

  lemma GrowKeepsInv(s: State, s': State, g: Geometry, r: nat, pages: seq<nat>)
    requires g.Valid() && Inv(s, g) && Grow(s, s', r, pages)
    ensures Inv(s', g)
  {
    forall k | 0 <= k < |s'.reqs|
      ensures RequestOk(s', g, k)
    {
      GrownRequest(s, s', g, r, pages, k);
    }
  }

  lemma GrownRequest(s: State, s': State, g: Geometry, r: nat, pages: seq<nat>, k: nat)
    requires g.Valid() && Inv(s, g) && Grow(s, s', r, pages) && k < |s.reqs|
    ensures RequestOk(s', g, k)
  {
    assert RequestOk(s, g, k);
    var q, q' := s.reqs[k], s'.reqs[k];
    var more := if k == r then pages else [];
    assert q'.table == q.table + more;
    GrownOwners(s, s', g, r, pages, k);
    hide CellAt, Grow, Inv;
    MulMonotone(|q.table|, |q'.table|, g.block);
    forall i: nat | q.freed * g.block <= i < |q.kv|
      ensures CellAt(s', g, q'.table, i) == Num(q.kv[i])
    {
      assert CellAt(s, g, q.table, i) == Num(q.kv[i]);
      GrownRow(s, s', g, q.table, more, i);
    }
  }

  lemma GrownOwners(s: State, s': State, g: Geometry, r: nat, pages: seq<nat>, k: nat)
    requires g.Valid() && k < |s.reqs| && RequestOk(s, g, k) && Grow(s, s', r, pages)
    ensures forall b :: 0 <= b < |s'.reqs[k].table| ==> s'.reqs[k].table[b] < |s'.owner|
    ensures forall b :: s'.reqs[k].freed <= b < |s'.reqs[k].table| ==> s'.owner[s'.reqs[k].table[b]] == Draft(k, b)
  {
    var q, q' := s.reqs[k], s'.reqs[k];
    assert q'.freed == q.freed <= |q.table| && |s'.owner| == |s.owner|;
    assert q'.table == q.table + if k == r then pages else [];
    forall b | 0 <= b < |q'.table|
      ensures q'.table[b] < |s'.owner| && (q'.freed <= b ==> s'.owner[q'.table[b]] == Draft(k, b))
    {
      hide CellAt;
      if b < |q.table| {
        assert q'.table[b] == q.table[b];
        if q.freed <= b {
          KeptOwner(s, s', r, pages, q.table[b]);
        }
      } else {
        assert k == r && q'.table[b] == pages[b - |q.table|];
      }
    }
  }

  /** A page that is not free is not handed out. */
  lemma KeptOwner(s: State, s': State, r: nat, pages: seq<nat>, p: nat)
    requires Grow(s, s', r, pages) && p < |s.owner| && s.owner[p] != Free
    ensures s'.owner[p] == s.owner[p]
  {
  }

  /** Positions of two live requests, or two positions of one, never share a cell. */
  lemma NoOverlap(s: State, g: Geometry, r: nat, i: nat, r': nat, i': nat)
    requires g.Valid() && Inv(s, g) && r < |s.reqs| && r' < |s.reqs|
    requires s.reqs[r].freed * g.block <= i < |s.reqs[r].table| * g.block
    requires s.reqs[r'].freed * g.block <= i' < |s.reqs[r'].table| * g.block
    requires PageOf(g, s.reqs[r].table, i) == PageOf(g, s.reqs[r'].table, i') && i % g.block == i' % g.block
    ensures r == r' && i == i'
  {
    LivePage(s, g, r, i);
    LivePage(s, g, r', i');
    BlockOf(i, g.block, 0);
    BlockOf(i', g.block, 0);
  }

  lemma WriteKeepsInv(s: State, s': State, g: Geometry, r: nat, from: nat, xs: seq<real>)
    requires g.Valid() && Inv(s, g) && Write(s, s', g, r, from, xs)
    ensures Inv(s', g)
  {
    var w := s.reqs[r];
    assert RequestOk(s, g, r);
    forall k | 0 <= k < |s'.reqs|
      ensures RequestOk(s', g, k)
    {
      assert RequestOk(s, g, k);
      var q, q' := s.reqs[k], s'.reqs[k];
      assert q'.freed == q.freed && q'.table == q.table;
      forall i: nat | q.freed * g.block <= i < |q'.kv|
        ensures CellAt(s', g, q.table, i) == Num(q'.kv[i])
      {
        if k == r && from <= i < from + |xs| {
          assert CellAt(s', g, w.table, i) == Num(xs[i - from]);
        } else {
          UntouchedCell(s, s', g, r, from, xs, k, i);
        }
      }
    }
  }

  lemma UntouchedCell(s: State, s': State, g: Geometry, r: nat, from: nat, xs: seq<real>, k: nat, i: nat)
    requires g.Valid() && Inv(s, g) && Write(s, s', g, r, from, xs) && k < |s.reqs|
    requires s.reqs[k].freed * g.block <= i < |s.reqs[k].kv| && !(k == r && from <= i < from + |xs|)
    ensures CellAt(s', g, s.reqs[k].table, i) == Num(s.reqs[k].kv[i])
  {
    assert RequestOk(s, g, k) && RequestOk(s, g, r);
    var q, w := s.reqs[k], s.reqs[r];
    LivePage(s, g, k, i);
    var p, o := PageOf(g, q.table, i), i % g.block;
    BlockOf(i, g.block, 0);
    assert CellAt(s, g, q.table, i) == Num(q.kv[i]);
    if Hit(g, w.table, from, from + |xs|, p, o) {
      var j: nat :| from <= j < from + |xs| && PageOf(g, w.table, j) == p && j % g.block == o;
      assert w.freed * g.block <= from;
      NoOverlap(s, g, k, i, r, j);
    }
    assert !Hit(g, w.table, from, from + |xs|, p, o);
    assert s'.cells[p][o] == s.cells[p][o];
  }

  lemma FreeKeepsInv(s: State, s': State, g: Geometry, r: nat)
    requires g.Valid() && Inv(s, g) && FreeOldest(s, s', g, r)
    ensures Inv(s', g)
  {
    assert RequestOk(s, g, r);
    var page := s.reqs[r].table[s.reqs[r].freed];
    assert s.owner[page] == Draft(r, s.reqs[r].freed);
    forall k | 0 <= k < |s'.reqs|
      ensures RequestOk(s', g, k)
    {
      assert RequestOk(s, g, k);
      var q, q' := s.reqs[k], s'.reqs[k];
      assert q'.table == q.table && q'.kv == q.kv;
      forall b | q'.freed <= b < |q.table|
        ensures s'.owner[q.table[b]] == Draft(k, b)
      {
        assert s.owner[q.table[b]] == Draft(k, b);
      }
      MulMonotone(q.freed, q'.freed, g.block);
      forall i: nat | q'.freed * g.block <= i < |q.kv|
        ensures CellAt(s', g, q.table, i) == Num(q.kv[i])
      {
        assert CellAt(s, g, q.table, i) == Num(q.kv[i]);
      }
    }
  }

  lemma OtherWritesKeepsInv(s: State, s': State, g: Geometry, p: nat, bytes: seq<Cell>)
    requires g.Valid() && Inv(s, g) && OtherWrites(s, s', g, p, bytes)
    ensures Inv(s', g)
  {
    forall k | 0 <= k < |s'.reqs|
      ensures RequestOk(s', g, k)
    {
      assert RequestOk(s, g, k);
      var q := s.reqs[k];
      forall i: nat | q.freed * g.block <= i < |q.kv|
        ensures CellAt(s', g, q.table, i) == Num(q.kv[i])
      {
        assert CellAt(s, g, q.table, i) == Num(q.kv[i]);
        LivePage(s, g, k, i);
      }
    }
  }

  lemma SmallStepsKeepInv(s: State, s': State, g: Geometry, r: nat, n: nat)
    requires g.Valid() && Inv(s, g)
    requires Commit(s, s', r, n) || OtherFrees(s, s', n)
    ensures Inv(s', g)
  {
    forall k | 0 <= k < |s'.reqs|
      ensures RequestOk(s', g, k)
    {
      assert RequestOk(s, g, k);
      var q := s.reqs[k];
      forall i: nat | q.freed * g.block <= i < |q.kv|
        ensures CellAt(s', g, q.table, i) == Num(q.kv[i])
      {
        assert CellAt(s, g, q.table, i) == Num(q.kv[i]);
      }
    }
  }

  lemma StepKeepsInv(s: State, s': State, g: Geometry, m: Move)
    requires g.Valid() && Inv(s, g) && Step(s, s', g, m)
    ensures Inv(s', g)
  {
    match m {
      case MGrow(r, pages) => GrowKeepsInv(s, s', g, r, pages);
      case MWrite(r, from, xs) => WriteKeepsInv(s, s', g, r, from, xs);
      case MCommit(r, to) => SmallStepsKeepInv(s, s', g, r, to);
      case MFree(r) => FreeKeepsInv(s, s', g, r);
      case MOtherWrites(p, bytes) => OtherWritesKeepsInv(s, s', g, p, bytes);
      case MOtherFrees(p) => SmallStepsKeepInv(s, s', g, 0, p);
    }
  }

  lemma {:induction false} RunKeepsInv(run: seq<State>, moves: seq<Move>, g: Geometry)
    requires g.Valid() && Run(run, moves, g)
    ensures Inv(run[|run| - 1], g)
  {
    hide Step, Inv;
    if |moves| == 0 {
      InitInv(run[0], g);
    } else {
      var n := |moves| - 1;
      RunKeepsInv(run[..n + 1], moves[..n], g);
      StepKeepsInv(run[n], run[n + 1], g, moves[n]);
    }
  }

  lemma InitInv(s: State, g: Geometry)
    requires g.Valid() && Init(s, g)
    ensures Inv(s, g)
  {
  }

  // ----- the redirect

  function Clamp(x: int, lo: int, hi: int): int
  {
    if x < lo then lo else if x > hi then hi else x
  }

  /** Index of the block holding the first draft row's earliest visible position, clamped to the row's width. */
  function FirstInWindow(g: Geometry, seqLen: int, width: nat): nat
    requires g.Valid() && width > 0
  {
    Clamp((seqLen - g.rows - (g.window - 1)) / g.block, 0, width - 1)
  }

  /** The row after the redirect: entries below the first in-window block name that block's page. */
  function Redirected(g: Geometry, row: seq<nat>, seqLen: int, width: nat): (r: seq<nat>)
    requires g.Valid() && 0 < width <= |row|
    ensures |r| == |row|
    ensures forall c :: 0 <= c < |row| ==> r[c] == if c < FirstInWindow(g, seqLen, width)
            then row[FirstInWindow(g, seqLen, width)] else row[c]
  {
    var n := FirstInWindow(g, seqLen, width);
    seq(|row|, c requires 0 <= c < |row| => if c < n then row[n] else row[c])
  }

  /** Redirecting a redirected row changes nothing more. */
  lemma RedirectIdempotent(g: Geometry, row: seq<nat>, seqLen: int, width: nat)
    requires g.Valid() && 0 < width <= |row|
    ensures Redirected(g, Redirected(g, row, seqLen, width), seqLen, width) == Redirected(g, row, seqLen, width)
  {
  }

  function RowOf(table: array2<nat>, r: nat): (row: seq<nat>)
    requires r < table.Length0
    reads table
    ensures |row| == table.Length1 && forall c :: 0 <= c < |row| ==> row[c] == table[r, c]
  {
    seq(table.Length1, c requires 0 <= c < table.Length1 reads table => table[r, c])
  }

  /** Row r of a gathered table after the update: redirected over the columns in
      use, rows past the batch as they were. */
  function UpdatedRow(g: Geometry, row: seq<nat>, r: nat, seqLens: seq<int>, numReqs: nat, maxSeqLen: nat): seq<nat>
    requires g.Valid() && numReqs <= |seqLens|
  {
    var width := Min(|row|, CeilDiv(maxSeqLen, g.block));
    if r < numReqs && width > 0 then Redirected(g, row, seqLens[r], width) else row
  }

  /** With the earliest position any draft row attends in block f: entries of the blocks before it name the page of
      block f, all others are as they were. */
  lemma UpdatedRowIs(g: Geometry, row: seq<nat>, r: nat, seqLens: seq<int>, numReqs: nat, maxSeqLen: nat, f: nat)
    requires g.Valid() && r < numReqs <= |seqLens| && f < |row| && f * g.block < maxSeqLen
    requires f * g.block <= seqLens[r] - g.rows - (g.window - 1) < (f + 1) * g.block
    ensures var updated := UpdatedRow(g, row, r, seqLens, numReqs, maxSeqLen);
            |updated| == |row| && forall c :: 0 <= c < |row| ==> updated[c] == if c < f then row[f] else row[c]
  {
    var first := seqLens[r] - g.rows - (g.window - 1);
    BlockOf(first, g.block, f);
    BlockOf(first, g.block, f + 1);
    CeilCovers(maxSeqLen, g.block);
    MulOrder(f, CeilDiv(maxSeqLen, g.block), g.block);
    hide CeilDiv;
  }

  /** A window that reaches back to the start, and a row past the batch, leave the row as it was. */
  lemma RowKept(g: Geometry, row: seq<nat>, r: nat, seqLens: seq<int>, numReqs: nat, maxSeqLen: nat)
    requires g.Valid() && numReqs <= |seqLens| && (r < numReqs ==> seqLens[r] - g.rows - (g.window - 1) < g.block)
    ensures UpdatedRow(g, row, r, seqLens, numReqs, maxSeqLen) == row
  {
    if r < numReqs {
      var first := seqLens[r] - g.rows - (g.window - 1);
      DivBounds(first, g.block);
      assert first / g.block <= 0;
    }
  }

  /** One group's in-place update of the gathered table: gather the target column, then overwrite every row. */
  method RedirectGroup(table: array2<nat>, g: Geometry, seqLens: seq<int>, numReqs: nat, maxSeqLen: nat)
    requires g.Valid() && numReqs <= table.Length0 && numReqs <= |seqLens|
    modifies table
    ensures forall r: nat :: r < table.Length0 ==>
              RowOf(table, r) == UpdatedRow(g, old(RowOf(table, r)), r, seqLens, numReqs, maxSeqLen)
  {
    var width := Min(table.Length1, CeilDiv(maxSeqLen, g.block));
    if width <= 0 {
      return;
    }
    var n := seq(numReqs, r requires 0 <= r < numReqs => FirstInWindow(g, seqLens[r], width));
    var target := seq(numReqs, r requires 0 <= r < numReqs reads table => table[r, n[r]]);
    forall r, c | 0 <= r < numReqs && 0 <= c < width {
      table[r, c] := if c < n[r] then target[r] else table[r, c];
    }
    forall r: nat | r < table.Length0
      ensures RowOf(table, r) == UpdatedRow(g, old(RowOf(table, r)), r, seqLens, numReqs, maxSeqLen)
    {
    }
  }

  /** The whole patch: every sliding-window group's own table, when enabled and there are requests. */
  method RedirectAll(enabled: bool, tables: seq<array2<nat>>, gs: seq<Geometry>, seqLens: seq<int>, numReqs: nat,
                     maxSeqLen: nat)
    requires |tables| == |gs| && numReqs <= |seqLens|
    requires forall k :: 0 <= k < |gs| ==> gs[k].Valid() && numReqs <= tables[k].Length0
    requires forall j, k :: 0 <= j < k < |tables| ==> tables[j] != tables[k]
    modifies tables
    ensures forall k, r: nat :: 0 <= k < |tables| && r < tables[k].Length0 ==>
              RowOf(tables[k], r) ==
                if enabled then UpdatedRow(gs[k], old(RowOf(tables[k], r)), r, seqLens, numReqs, maxSeqLen)
                else old(RowOf(tables[k], r))
  {
    if !enabled || numReqs <= 0 {
      return;
    }
    hide UpdatedRow;
    for i := 0 to |tables|
      invariant forall k, r: nat :: 0 <= k < i && r < tables[k].Length0 ==>
                  RowOf(tables[k], r) == UpdatedRow(gs[k], old(RowOf(tables[k], r)), r, seqLens, numReqs, maxSeqLen)
      invariant forall k :: i <= k < |tables| ==> forall r, c ::
                  0 <= r < tables[k].Length0 && 0 <= c < tables[k].Length1 ==>
                  tables[k][r, c] == old(tables[k][r, c])
    {
      forall r: nat | r < tables[i].Length0
        ensures RowOf(tables[i], r) == old(RowOf(tables[i], r))
      {
      }
      RedirectGroup(tables[i], gs[i], seqLens, numReqs, maxSeqLen);
    }
  }

  // ----- the reader

  /** First position the reader loads: the tile holding the earliest visible position of the first draft row. */
  function LoadStart(g: Geometry, seqLen: int): int
    requires g.Valid()
  {
    var first := seqLen - g.rows - (g.window - 1);
    if first <= 0 then 0 else first / g.tile * g.tile
  }

  /** P V over the loaded positions: masked positions have weight 0 but are multiplied all the same. */
  function ReadSum(s: State, g: Geometry, row: seq<nat>, weight: int -> real, lo: nat, hi: nat): Cell
    requires g.Valid()
    decreases hi - lo
  {
    if lo >= hi then Num(0.0)
    else Add(ReadSum(s, g, row, weight, lo, hi - 1), Mul(weight(hi - 1), CellAt(s, g, row, hi - 1)))
  }

  /** The exact windowed sum over what the drafter wrote. */
  function ExactSum(kv: seq<real>, weight: int -> real, lo: nat, hi: nat): real
    requires hi <= |kv|
    decreases hi - lo
  {
    if lo >= hi then 0.0 else ExactSum(kv, weight, lo, hi - 1) + weight(hi - 1) * kv[hi - 1]
  }

  /** A draft step: its rows start at or after the committed tokens, and all their positions are written. */
  predicate DraftStep(s: State, g: Geometry, r: nat, seqLen: nat)
  {
    r < |s.reqs| && s.reqs[r].computed + g.rows <= seqLen <= |s.reqs[r].kv|
  }

  /** Weights of one draft row: zero below its window. */
  ghost predicate WindowWeights(g: Geometry, seqLen: nat, weight: int -> real)
  {
    forall i {:trigger weight(i)} :: i < seqLen - g.rows - (g.window - 1) ==> weight(i) == 0.0
  }

  /** A reachable draft step of request r, its gathered row (valid up to the row's
      own length), and one row's weights. */
  ghost predicate Scenario(s: State, g: Geometry, r: nat, seqLen: nat, row: seq<nat>, width: nat, weight: int -> real)
    requires g.Valid()
  {
    && Reachable(s, g) && DraftStep(s, g, r, seqLen)
    && 0 < width <= |row| && seqLen <= width * g.block
    && (forall b :: 0 <= b < |row| && b < |s.reqs[r].table| ==> row[b] == s.reqs[r].table[b])
    && WindowWeights(g, seqLen, weight)
  }

  ghost predicate ReadsExactly(s: State, g: Geometry, r: nat, seqLen: nat, row: seq<nat>, weight: int -> real)
    requires g.Valid() && DraftStep(s, g, r, seqLen)
  {
    LoadStartBelow(g, seqLen);
    ReadSum(s, g, row, weight, LoadStart(g, seqLen), seqLen)
    == Num(ExactSum(s.reqs[r].kv, weight, Clamp(seqLen - g.rows - (g.window - 1), 0, seqLen), seqLen))
  }

  lemma LoadStartBelow(g: Geometry, seqLen: nat)
    requires g.Valid()
    ensures 0 <= LoadStart(g, seqLen) <= Clamp(seqLen - g.rows - (g.window - 1), 0, seqLen)
    ensures var first := seqLen - g.rows - (g.window - 1); first > 0 ==> LoadStart(g, seqLen) == first - first % g.tile
  {
  }

  /** Every read of the redirected table is exact, in every run. */
  ghost predicate RedirectSafe(g: Geometry)
    requires g.Valid()
  {
    forall s: State, r: nat, seqLen: nat, row: seq<nat>, width: nat, weight: int -> real ::
        Scenario(s, g, r, seqLen, row, width, weight) ==>
      ReadsExactly(s, g, r, seqLen, Redirected(g, row, seqLen, width), weight)
  }

  /** Every read of the table as gathered is exact, in every run. */
  ghost predicate PlainSafe(g: Geometry)
    requires g.Valid()
  {
    forall s: State, r: nat, seqLen: nat, row: seq<nat>, width: nat, weight: int -> real ::
        Scenario(s, g, r, seqLen, row, width, weight) ==>
      ReadsExactly(s, g, r, seqLen, row, weight)
  }

  lemma ReachableInv(s: State, g: Geometry)
    requires g.Valid() && Reachable(s, g)
    ensures Inv(s, g)
  {
    var run, moves :| Run(run, moves, g) && run[|run| - 1] == s;
    RunKeepsInv(run, moves, g);
  }

  /** The reader loads nothing of a block below the window when tiles divide blocks. */
  lemma AlignedLoads(g: Geometry, first: nat, i: nat)
    requires g.Valid() && g.block % g.tile == 0 && first - first % g.tile <= i
    ensures first / g.block <= i / g.block
  {
    var n, k := first / g.block, g.block / g.tile;
    BlockOf(first, g.block, n);
    BlockOf(i, g.block, n);
    assert g.block == k * g.tile by {
      BlockOf(g.block, g.tile, 0);
    }
    assert n * g.block == (n * k) * g.tile;
    BlockOf(first, g.tile, n * k);
    MulMonotone(n * k, first / g.tile, g.tile);
  }

  /** A position at or above the first in-window block is live, on a page the request owns. */
  lemma LiveTerm(s: State, g: Geometry, r: nat, seqLen: nat, i: nat)
    requires g.Valid() && Inv(s, g) && DraftStep(s, g, r, seqLen) && i < seqLen
    requires var first := seqLen - g.rows - (g.window - 1); first <= 0 || first / g.block <= i / g.block
    ensures CellAt(s, g, s.reqs[r].table, i) == Num(s.reqs[r].kv[i])
    ensures i / g.block < |s.reqs[r].table| && PageOf(g, s.reqs[r].table, i) < |s.owner|
    ensures s.owner[PageOf(g, s.reqs[r].table, i)] == Draft(r, i / g.block)
  {
    assert RequestOk(s, g, r);
    var q := s.reqs[r];
    var first := seqLen - g.rows - (g.window - 1);
    if q.freed > 0 {
      BlockOf(first, g.block, q.freed);
      BlockOf(i, g.block, q.freed);
    }
    assert q.freed * g.block <= i;
    BlockOf(i, g.block, |q.table|);
    LivePage(s, g, r, i);
  }

  /** The reader's condition for redirected entries: the target page is fully
      written, or tiles never straddle a block. */
  predicate Covered(g: Geometry)
    requires g.Valid()
  {
    g.block <= g.window - 1 + g.rows || g.block % g.tile == 0
  }

  /** Every position the reader loads through the redirected row lands on a page the request still owns. */
  lemma RedirectedOwned(s: State, g: Geometry, r: nat, seqLen: nat, row: seq<nat>, width: nat, weight: int -> real,
                        i: nat)
    requires g.Valid() && Scenario(s, g, r, seqLen, row, width, weight) && i < seqLen
    ensures var page := PageOf(g, Redirected(g, row, seqLen, width), i);
            page < |s.owner| && s.owner[page].Draft? && s.owner[page].req == r
  {
    hide *;
    ScenarioFacts(s, g, r, seqLen, row, width, weight);
    var first := seqLen - g.rows - (g.window - 1);
    WindowBlock(g, seqLen, width);
    BlockOf(i, g.block, width);
    RedirectedPage(g, row, seqLen, width, i);
    var p := if i / g.block >= FirstInWindow(g, seqLen, width) then i else first;
    LiveTerm(s, g, r, seqLen, p);
    PageIs(g, s.reqs[r].table, p);
  }

  /** What a scenario says, part by part. */
  lemma ScenarioFacts(s: State, g: Geometry, r: nat, seqLen: nat, row: seq<nat>, width: nat, weight: int -> real)
    requires g.Valid() && Scenario(s, g, r, seqLen, row, width, weight)
    ensures g.block > 0 && g.tile > 0 && 0 < width <= |row| && seqLen <= width * g.block
    ensures Inv(s, g) && DraftStep(s, g, r, seqLen) && r < |s.reqs|
    ensures forall b :: 0 <= b < |row| && b < |s.reqs[r].table| ==> row[b] == s.reqs[r].table[b]
    ensures forall i {:trigger weight(i)} :: i < seqLen - g.rows - (g.window - 1) ==> weight(i) == 0.0
  {
    ReachableInv(s, g);
  }

  lemma PageIs(g: Geometry, table: seq<nat>, i: nat)
    requires g.Valid() && i / g.block < |table|
    ensures PageOf(g, table, i) == table[i / g.block]
  {
  }

  /** The first in-window block is the one of the first in-window position. */
  lemma WindowBlock(g: Geometry, seqLen: nat, width: nat)
    requires g.Valid() && 0 < width && seqLen <= width * g.block
    ensures var first := seqLen - g.rows - (g.window - 1);
            && FirstInWindow(g, seqLen, width) == (if first <= 0 then 0 else first / g.block)
            && (first > 0 ==> first < seqLen && first / g.block < width)
  {
    var first := seqLen - g.rows - (g.window - 1);
    if first > 0 {
      BlockOf(first, g.block, width);
    } else {
      NotAbove(first, g.block);
    }
  }

  lemma NotAbove(x: int, c: nat)
    requires x <= 0 && c > 0
    ensures x / c <= 0
  {
    DivBounds(x, c);
    MulOrder(1, x / c, c);
  }

  lemma RedirectedPage(g: Geometry, row: seq<nat>, seqLen: nat, width: nat, i: nat)
    requires g.Valid() && 0 < width <= |row| && i / g.block < |row|
    ensures var n := FirstInWindow(g, seqLen, width);
            n < |row| && PageOf(g, Redirected(g, row, seqLen, width), i) == if i / g.block < n then row[n]
                else row[i / g.block]
  {
  }

  /** A position in a redirected entry is below the window. */
  lemma BelowFirst(g: Geometry, seqLen: nat, width: nat, i: nat)
    requires g.Valid() && 0 < width && seqLen <= width * g.block && i / g.block < FirstInWindow(g, seqLen, width)
    ensures var first := seqLen - g.rows - (g.window - 1);
            first > 0 && i < first && FirstInWindow(g, seqLen, width) == first / g.block && first / g.block < width
  {
    var first := seqLen - g.rows - (g.window - 1);
    WindowBlock(g, seqLen, width);
    assert first > 0;
    hide *;
    BlockBelow(i, first, g.block);
  }

  /** A loaded one also shows that tiles straddle blocks. */
  lemma BelowFacts(g: Geometry, seqLen: nat, width: nat, i: nat)
    requires g.Valid() && 0 < width && seqLen <= width * g.block
    requires LoadStart(g, seqLen) <= i < seqLen && i / g.block < FirstInWindow(g, seqLen, width)
    ensures var first := seqLen - g.rows - (g.window - 1);
            first > 0 && i < first && FirstInWindow(g, seqLen, width) == first / g.block && first / g.block < width
    ensures g.block % g.tile != 0
  {
    var first := seqLen - g.rows - (g.window - 1);
    hide FirstInWindow, LoadStart, Clamp;
    BelowFirst(g, seqLen, width, i);
    LoadStartBelow(g, seqLen);
    if g.block % g.tile == 0 {
      AlignedLoads(g, first, i);
    }
  }

  lemma BlockBelow(i: nat, j: nat, block: nat)
    requires block > 0 && i / block < j / block
    ensures i < j
  {
    BlockOf(i, block, j / block);
    BlockOf(j, block, j / block);
  }

  /** An entry below the first in-window block: its positions are masked, and they read written cells. */
  lemma RedirectedBelow(s: State, g: Geometry, r: nat, seqLen: nat, row: seq<nat>, width: nat, weight: int -> real,
                        i: nat)
    requires g.Valid() && Covered(g) && Scenario(s, g, r, seqLen, row, width, weight)
    requires LoadStart(g, seqLen) <= i < seqLen && i / g.block < FirstInWindow(g, seqLen, width)
    ensures weight(i) == 0.0 && CellAt(s, g, Redirected(g, row, seqLen, width), i).Num?
  {
    hide *;
    ScenarioFacts(s, g, r, seqLen, row, width, weight);
    CoveredBelow(g, seqLen, width, i);
    BelowFirst(g, seqLen, width, i);
    var first := seqLen - g.rows - (g.window - 1);
    LiveTerm(s, g, r, seqLen, first);
    BelowWindowTerm(s, g, r, seqLen, Redirected(g, row, seqLen, width), first / g.block, i);
  }

  lemma CoveredBelow(g: Geometry, seqLen: nat, width: nat, i: nat)
    requires g.Valid() && Covered(g) && 0 < width && seqLen <= width * g.block
    requires LoadStart(g, seqLen) <= i < seqLen && i / g.block < FirstInWindow(g, seqLen, width)
    ensures g.block <= g.window - 1 + g.rows
  {
    BelowFacts(g, seqLen, width, i);
    hide FirstInWindow, LoadStart;
  }

  /** A redirected entry reads a written position of the first in-window page. */
  lemma BelowWindowTerm(s: State, g: Geometry, r: nat, seqLen: nat, row': seq<nat>, n: nat, i: nat)
    requires g.Valid() && Inv(s, g) && DraftStep(s, g, r, seqLen) && g.block <= g.window - 1 + g.rows
    requires var first := seqLen - g.rows - (g.window - 1); first > 0 && n == first / g.block
    requires i / g.block < n < |s.reqs[r].table| && i / g.block < |row'| && row'[i / g.block] == s.reqs[r].table[n]
    ensures CellAt(s, g, row', i).Num?
  {
    hide Inv;
    var first := seqLen - g.rows - (g.window - 1);
    var j := n * g.block + i % g.block;
    BlockOf(first, g.block, n);
    BlockOf(i, g.block, 0);
    SameOffset(n, i, g.block);
    assert j < seqLen;
    LiveTerm(s, g, r, seqLen, j);
  }

  lemma SameOffset(n: nat, i: nat, block: nat)
    requires block > 0
    ensures (n * block + i % block) / block == n && (n * block + i % block) % block == i % block
  {
    FlatInverse(n, i % block, block);
  }

  lemma RedirectedTerm(s: State, g: Geometry, r: nat, seqLen: nat, row: seq<nat>, width: nat, weight: int -> real,
                       i: nat)
    requires g.Valid() && Covered(g) && Scenario(s, g, r, seqLen, row, width, weight)
    requires LoadStart(g, seqLen) <= i < seqLen
    ensures Mul(weight(i), CellAt(s, g, Redirected(g, row, seqLen, width), i)) == Num(weight(i) * s.reqs[r].kv[i])
  {
    var first := seqLen - g.rows - (g.window - 1);
    var n := FirstInWindow(g, seqLen, width);
    if i / g.block < n {
      RedirectedBelow(s, g, r, seqLen, row, width, weight, i);
      hide *;
      ZeroTerm(weight(i), s.reqs[r].kv[i]);
      ZeroTerm(weight(i), CellAt(s, g, Redirected(g, row, seqLen, width), i).x);
    } else {
      ReachableInv(s, g);
      if first > 0 {
        BlockOf(first, g.block, width);
      }
      BlockOf(i, g.block, width);
      LiveTerm(s, g, r, seqLen, i);
      assert PageOf(g, Redirected(g, row, seqLen, width), i) == PageOf(g, s.reqs[r].table, i);
    }
  }

  lemma ZeroTerm(w: real, x: real)
    requires w == 0.0
    ensures w * x == 0.0
  {
  }

  lemma {:induction false} SumOfTerms(s: State, g: Geometry, row: seq<nat>, kv: seq<real>, weight: int -> real,
                                      lo: nat, hi: nat)
    requires g.Valid() && lo <= hi <= |kv|
    requires forall i: nat {:trigger CellAt(s, g, row, i)} :: lo <= i < hi ==>
               Mul(weight(i), CellAt(s, g, row, i)) == Num(weight(i) * kv[i])
    ensures ReadSum(s, g, row, weight, lo, hi) == Num(ExactSum(kv, weight, lo, hi))
    decreases hi - lo
  {
    if lo < hi {
      SumOfTerms(s, g, row, kv, weight, lo, hi - 1);
      assert Mul(weight(hi - 1), CellAt(s, g, row, hi - 1)) == Num(weight(hi - 1) * kv[hi - 1]);
    }
  }

  /** Positions below the window have weight zero, so starting the exact sum earlier changes nothing. */
  lemma {:induction false} ExactSumFromWindow(kv: seq<real>, weight: int -> real, lo: nat, mid: nat, hi: nat)
    requires lo <= mid <= hi <= |kv| && forall i {:trigger weight(i)} :: lo <= i < mid ==> weight(i) == 0.0
    ensures ExactSum(kv, weight, lo, hi) == ExactSum(kv, weight, mid, hi)
    decreases hi
  {
    if lo < hi {
      if mid < hi {
        ExactSumFromWindow(kv, weight, lo, mid, hi - 1);
      } else {
        ExactSumFromWindow(kv, weight, lo, hi - 1, hi - 1);
        assert weight(hi - 1) == 0.0;
      }
    }
  }

  lemma ExactFromTerms(s: State, g: Geometry, r: nat, seqLen: nat, row: seq<nat>, weight: int -> real)
    requires g.Valid() && DraftStep(s, g, r, seqLen) && WindowWeights(g, seqLen, weight)
    requires forall i: nat {:trigger CellAt(s, g, row, i)} :: LoadStart(g, seqLen) <= i < seqLen ==>
               Mul(weight(i), CellAt(s, g, row, i)) == Num(weight(i) * s.reqs[r].kv[i])
    ensures ReadsExactly(s, g, r, seqLen, row, weight)
  {
    LoadStartBelow(g, seqLen);
    var kv := s.reqs[r].kv;
    SumOfTerms(s, g, row, kv, weight, LoadStart(g, seqLen), seqLen);
    ExactSumFromWindow(kv, weight, LoadStart(g, seqLen), Clamp(seqLen - g.rows - (g.window - 1), 0, seqLen), seqLen);
  }

  lemma RedirectedExact(s: State, g: Geometry, r: nat, seqLen: nat, row: seq<nat>, width: nat, weight: int -> real)
    requires g.Valid() && Covered(g) && Scenario(s, g, r, seqLen, row, width, weight)
    ensures ReadsExactly(s, g, r, seqLen, Redirected(g, row, seqLen, width), weight)
  {
    var row' := Redirected(g, row, seqLen, width);
    forall i: nat | LoadStart(g, seqLen) <= i < seqLen
      ensures Mul(weight(i), CellAt(s, g, row', i)) == Num(weight(i) * s.reqs[r].kv[i])
    {
      RedirectedTerm(s, g, r, seqLen, row, width, weight, i);
    }
    ExactFromTerms(s, g, r, seqLen, row', weight);
  }

  lemma PlainExact(s: State, g: Geometry, r: nat, seqLen: nat, row: seq<nat>, width: nat, weight: int -> real)
    requires g.Valid() && g.block % g.tile == 0 && Scenario(s, g, r, seqLen, row, width, weight)
    ensures ReadsExactly(s, g, r, seqLen, row, weight)
  {
    ReachableInv(s, g);
    LoadStartBelow(g, seqLen);
    var first := seqLen - g.rows - (g.window - 1);
    forall i: nat | LoadStart(g, seqLen) <= i < seqLen
      ensures Mul(weight(i), CellAt(s, g, row, i)) == Num(weight(i) * s.reqs[r].kv[i])
    {
      if first > 0 {
        AlignedLoads(g, first, i);
      }
      LiveTerm(s, g, r, seqLen, i);
      BlockOf(i, g.block, width);
      assert PageOf(g, row, i) == PageOf(g, s.reqs[r].table, i);
    }
    ExactFromTerms(s, g, r, seqLen, row, weight);
  }

  // ----- where exactness fails

  /** One loaded NaN makes the whole sum NaN. */
  lemma {:induction false} OneNaNPoisons(s: State, g: Geometry, row: seq<nat>, weight: int -> real, lo: nat, hi: nat,
                                         i: nat)
    requires g.Valid() && lo <= i < hi && CellAt(s, g, row, i).NaN?
    ensures ReadSum(s, g, row, weight, lo, hi).NaN?
    decreases hi - lo
  {
    if i < hi - 1 {
      OneNaNPoisons(s, g, row, weight, lo, hi - 1, i);
    }
  }

  function Ids(n: nat): (r: seq<nat>)
    ensures |r| == n && forall i :: 0 <= i < n ==> r[i] == i
  {
    seq(n, i => i)
  }

  function Zeros(n: nat): (r: seq<real>)
    ensures |r| == n && forall i :: 0 <= i < n ==> r[i] == 0.0
  {
    seq(n, _ => 0.0)
  }

  /** A run of one request over n pages that all start out holding NaN bytes: allocate, write, commit, free, reuse. */
  function Stage(g: Geometry, n: nat, seqLen: nat, committed: nat, k: nat): State
    requires g.Valid()
  {
    var nans := seq(g.block, _ => NaN);
    var ids := Ids(n);
    var owned := seq(n, (i: nat) => Draft(0, i));
    var blank := seq(n, _ => nans);
    var written := seq(n, p => seq(g.block, o => if p * g.block + o < seqLen then Num(0.0) else NaN));
    var kv := Zeros(seqLen);
    if k == 0 then State(seq(n, _ => Free), blank, [Request([], [], 0, 0)])
    else if k == 1 then State(owned, blank, [Request(ids, [], 0, 0)])
    else if k == 2 then State(owned, written, [Request(ids, kv, 0, 0)])
    else if k == 3 || n == 0 then State(owned, written, [Request(ids, kv, committed, 0)])
    else if k == 4 then State(owned[0 := Free], written, [Request(ids, kv, committed, 1)])
    else State(owned[0 := Other], written[0 := nans], [Request(ids, kv, committed, 1)])
  }

  function StageMove(g: Geometry, n: nat, seqLen: nat, committed: nat, k: nat): Move
    requires g.Valid()
  {
    if k == 0 then MGrow(0, Ids(n))
    else if k == 1 then MWrite(0, 0, Zeros(seqLen))
    else if k == 2 then MCommit(0, committed)
    else if k == 3 then MFree(0)
    else MOtherWrites(0, seq(g.block, _ => NaN))
  }

  lemma StageWritten(g: Geometry, n: nat, seqLen: nat, committed: nat, p: nat)
    requires g.Valid() && p < seqLen <= n
    ensures CellAt(Stage(g, n, seqLen, committed, 2), g, Ids(n), p) == Num(0.0)
  {
  }

  lemma StageUnwritten(g: Geometry, n: nat, seqLen: nat, committed: nat, p: nat, o: nat)
    requires g.Valid() && p < n && o < g.block && !Hit(g, Ids(n), 0, seqLen, p, o)
    ensures Stage(g, n, seqLen, committed, 2).cells[p][o] == NaN
  {
    IdsHit(g, n, seqLen, p, o);
    hide Hit;
  }

  lemma IdsHit(g: Geometry, n: nat, seqLen: nat, p: nat, o: nat)
    requires g.Valid() && p < n && o < g.block
    ensures p * g.block + o < seqLen ==> Hit(g, Ids(n), 0, seqLen, p, o)
  {
    var j := FlatIndex(p, o, g.block);
    FlatInverse(p, o, g.block);
    assert j == p * g.block + o;
    hide FlatIndex;
    assert PageOf(g, Ids(n), j) == p;
  }

  lemma StageWrites(g: Geometry, n: nat, seqLen: nat, committed: nat)
    requires g.Valid() && seqLen <= n
    ensures Write(Stage(g, n, seqLen, committed, 1), Stage(g, n, seqLen, committed, 2), g, 0, 0, Zeros(seqLen))
  {
    var s, s' := Stage(g, n, seqLen, committed, 1), Stage(g, n, seqLen, committed, 2);
    var ids, xs := Ids(n), Zeros(seqLen);
    assert s.reqs[0] == Request(ids, [], 0, 0);
    assert s.reqs[0].kv[..0] + xs == xs;
    MulMonotone(1, g.block, n);
    forall p: nat | p < seqLen
      ensures CellAt(s', g, ids, p) == Num(xs[p])
    {
      StageWritten(g, n, seqLen, committed, p);
    }
    forall p: nat, o: nat | p < n && o < g.block && !Hit(g, ids, 0, seqLen, p, o)
      ensures s'.cells[p][o] == s.cells[p][o]
    {
      StageUnwritten(g, n, seqLen, committed, p, o);
    }
    hide CellAt;
  }

  lemma StageGrows(g: Geometry, n: nat, seqLen: nat, committed: nat)
    requires g.Valid()
    ensures Grow(Stage(g, n, seqLen, committed, 0), Stage(g, n, seqLen, committed, 1), 0, Ids(n))
  {
    var s, s' := Stage(g, n, seqLen, committed, 0), Stage(g, n, seqLen, committed, 1);
    var ids := Ids(n);
    assert s.reqs == [Request([], [], 0, 0)] && s'.reqs == [Request(ids, [], 0, 0)];
    assert [] + ids == ids;
    assert |s.owner| == n == |s'.owner| && s.cells == s'.cells;
    assert forall i :: 0 <= i < n ==> s.owner[i] == Free && s'.owner[i] == Draft(0, i);
    hide Stage, Ids;
    forall p: nat | p < n
      ensures p in ids
    {
      assert ids[p] == p;
    }
  }

  lemma StageStep(g: Geometry, n: nat, seqLen: nat, committed: nat, k: nat)
    requires g.Valid() && 0 < seqLen <= n && committed <= seqLen && k < 5
    requires k >= 3 ==> g.block + (g.window - 1) <= committed
    ensures Step(Stage(g, n, seqLen, committed, k), Stage(g, n, seqLen, committed, k + 1), g,
                 StageMove(g, n, seqLen, committed, k))
  {
    if k == 0 {
      StageGrows(g, n, seqLen, committed);
    } else if k == 1 {
      StageWrites(g, n, seqLen, committed);
    }
  }

  lemma StageReachable(g: Geometry, n: nat, seqLen: nat, committed: nat, k: nat)
    requires g.Valid() && 0 < seqLen <= n && committed <= seqLen && k <= 5
    requires k > 3 ==> g.block + (g.window - 1) <= committed
    ensures Reachable(Stage(g, n, seqLen, committed, k), g)
  {
    var run := seq(k + 1, (i: nat) => Stage(g, n, seqLen, committed, i));
    var moves := seq(k, (i: nat) => StageMove(g, n, seqLen, committed, i));
    forall i | 0 <= i < k
      ensures Step(run[i], run[i + 1], g, moves[i])
    {
      StageStep(g, n, seqLen, committed, i);
    }
    assert Run(run, moves, g);
  }

  /** Straddling tiles and blocks longer than the window and its draft rows:
      redirecting itself reads unwritten cells. */
  lemma RedirectPoisons(g: Geometry)
    requires g.Valid() && !Covered(g)
    ensures !RedirectSafe(g)
  {
    var seqLen := g.block + g.window - 1 + g.rows;
    var n := seqLen + 1;
    var s := Stage(g, n, seqLen, seqLen - g.rows, 3);
    var ids := Ids(n);
    StageReachable(g, n, seqLen, seqLen - g.rows, 3);
    MulMonotone(1, g.block, n);
    var w := (_: int) => 0.0;
    assert Scenario(s, g, 0, seqLen, ids, n, w);
    var row' := Redirected(g, ids, seqLen, n);
    var i := g.block - 1;
    LoadStartBelow(g, seqLen);
    EdgeIsNaN(g);
    hide Stage, Redirected, CellAt, Scenario, LoadStart;
    OneNaNPoisons(s, g, row', w, LoadStart(g, seqLen), seqLen, i);
    assert !ReadsExactly(s, g, 0, seqLen, row', w);
  }

  /** The last position of block 0 is read from page 1, which is not written that far. */
  lemma EdgeIsNaN(g: Geometry)
    requires g.Valid() && !Covered(g)
    ensures var seqLen := g.block + g.window - 1 + g.rows;
            CellAt(Stage(g, seqLen + 1, seqLen, seqLen - g.rows, 3), g,
                   Redirected(g, Ids(seqLen + 1), seqLen, seqLen + 1), g.block - 1).NaN?
  {
    var seqLen := g.block + g.window - 1 + g.rows;
    var row', i := Redirected(g, Ids(seqLen + 1), seqLen, seqLen + 1), g.block - 1;
    BlockOf(g.block, g.block, 1);
    BlockOf(i, g.block, 1);
    assert FirstInWindow(g, seqLen, seqLen + 1) == 1;
    assert i / g.block == 0 && i % g.block == i;
    hide FirstInWindow;
    assert PageOf(g, row', i) == 1;
    hide Redirected;
    assert 1 * g.block + i >= seqLen;
  }

  /** Without the redirect every geometry whose tiles straddle blocks has a run that reads another layer's NaN. */
  lemma PlainPoisons(g: Geometry)
    requires g.Valid() && g.block % g.tile != 0
    ensures !PlainSafe(g)
  {
    var seqLen := g.block + g.window - 1 + g.rows;
    var n := seqLen + 1;
    var s := Stage(g, n, seqLen, seqLen - g.rows, 5);
    var ids := Ids(n);
    StageReachable(g, n, seqLen, seqLen - g.rows, 5);
    MulMonotone(1, g.block, n);
    var w := (_: int) => 0.0;
    assert Scenario(s, g, 0, seqLen, ids, n, w);
    var i := g.block - 1;
    BlockOf(i, g.block, 1);
    assert i / g.block == 0 && i % g.block == i;
    assert CellAt(s, g, ids, i).NaN?;
    LoadStartBelow(g, seqLen);
    OneNaNPoisons(s, g, ids, w, LoadStart(g, seqLen), seqLen, i);
    assert !ReadsExactly(s, g, 0, seqLen, ids, w);
  }

  /** The redirect makes every read exact iff the target page is always fully
      written, or tiles never straddle a block. */
  lemma RedirectSafeIff(g: Geometry)
    requires g.Valid()
    ensures RedirectSafe(g) <==> g.block <= g.window - 1 + g.rows || g.block % g.tile == 0
  {
    if Covered(g) {
      forall s: State, r: nat, seqLen: nat, row: seq<nat>, width: nat, weight: int -> real |
        Scenario(s, g, r, seqLen, row, width, weight)
        ensures ReadsExactly(s, g, r, seqLen, Redirected(g, row, seqLen, width), weight)
      {
        RedirectedExact(s, g, r, seqLen, row, width, weight);
      }
    } else {
      RedirectPoisons(g);
    }
  }

  /** Without it, only geometries whose tiles never straddle a block are safe. */
  lemma PlainSafeIff(g: Geometry)
    requires g.Valid()
    ensures PlainSafe(g) <==> g.block % g.tile == 0
  {
    if g.block % g.tile == 0 {
      forall s: State, r: nat, seqLen: nat, row: seq<nat>, width: nat, weight: int -> real |
        Scenario(s, g, r, seqLen, row, width, weight)
        ensures ReadsExactly(s, g, r, seqLen, row, weight)
      {
        PlainExact(s, g, r, seqLen, row, width, weight);
      }
    } else {
      PlainPoisons(g);
    }
  }
}
