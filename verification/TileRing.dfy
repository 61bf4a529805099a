/**
 The shared-memory ring of the prefill kernel as a transition system. Warps fill, read and meet at barriers in any
 interleaving; a barrier is the only synchronization. Epoch 2k is "store tile k into stage k % 2" (nothing when k is
 past the last tile), epoch 2k + 1 is "read tile k from stage k % 2"; a barrier ends every epoch.
 */
module TileRing {

  const WARPS: nat := 8
  const THREADS: nat := 256
  const CHUNKS: nat := 1280  // 64 keys x 20 chunks of 16 elements

  /** The warp whose threads load and store chunk c: thread c % 256, pass c / 256. */
  function Owner(c: nat): nat
  {
    c % THREADS / 32
  }

  predicate IsChunk(c: nat) { c < CHUNKS }

  ghost function AllChunks(): set<nat>
  {
    set c: nat | c < CHUNKS && IsChunk(c)
  }

  ghost function OwnChunks(w: nat): set<nat>
  {
    set c: nat | c < CHUNKS && Owner(c) == w
  }

  /** Every chunk of a tile is stored by exactly one warp, in exactly one (thread, pass). */
  lemma OneOwner(c: nat, tid: nat, pass: nat)
    requires c < CHUNKS && tid < THREADS
    ensures Owner(c) < WARPS && c / THREADS < CHUNKS / THREADS
    ensures tid + THREADS * pass == c <==> tid == c % THREADS && pass == c / THREADS
    ensures tid + 256 * pass == c ==> Owner(c) == tid / 32 && pass < 5
  {
  }

  /** Shared-memory half-word address of element x of chunk c inside a stage: K rows
      stride 200, then V rows stride 136. */
  function Address(c: nat, x: nat): nat
  {
    var row, e0 := c / 20, c % 20 * 16;
    if e0 < 192 then row * 200 + e0 + x else 64 * 200 + row * 136 + (e0 - 192) + x
  }

  /** Different chunks, or different elements of one chunk, never share an address, and a stage holds them all. */
  lemma AddressesDisjoint(c: nat, x: nat, c': nat, x': nat)
    requires c < CHUNKS && c' < CHUNKS && x < 16 && x' < 16 && (c, x) != (c', x')
    ensures Address(c, x) != Address(c', x')
    ensures Address(c, x) < 64 * (200 + 136)
  {
    hide Address;
    var (row, e) := Place(c, x);
    var (row', e') := Place(c', x');
    AddressOfPlace(c, x);
    AddressOfPlace(c', x');
    assert row < row' ==> row * 200 + 200 <= row' * 200 && row * 136 + 136 <= row' * 136;
    assert row' < row ==> row' * 200 + 200 <= row * 200 && row' * 136 + 136 <= row * 136;
  }

  /** Key row and element inside the row. */
  function Place(c: nat, x: nat): (nat, nat)
  {
    (c / 20, c % 20 * 16 + x)
  }

  lemma AddressOfPlace(c: nat, x: nat)
    requires c < CHUNKS && x < 16
    ensures var (row, e) := Place(c, x);
            row < 64 && e < 320 && Address(c, x) == if e < 192 then row * 200 + e else 12800 + row * 136 + e - 192
  {
  }

  /** What warp w still has to do, and what it holds. */
  datatype Warp<V> = Warp(
    epoch: nat,
    arrived: bool,           // waiting at the barrier that ends the epoch
    todo: set<nat>,          // chunks of this epoch not yet stored (even) or read (odd)
    regs: nat,               // the tile held in registers
    got: map<nat, V>,        // chunks read so far in this epoch
    seen: seq<map<nat, V>>)  // what the warp read, tile by tile

  datatype State<V> = State(warps: seq<Warp<V>>, stages: seq<seq<V>>)

  /** The paged cache as tiles: data(k, c) is chunk c of tile k. */
  type Source<V> = (nat, nat) -> V

  ghost function FullTile<V>(data: Source<V>, k: nat): map<nat, V>
  {
    map c: nat | c < CHUNKS :: data(k, c)
  }

  ghost function Duty(w: nat, epoch: nat, tiles: nat): set<nat>
  {
    if epoch / 2 >= tiles then {} else if epoch % 2 == 0 then OwnChunks(w) else AllChunks()
  }

  ghost predicate Init<V>(s: State<V>, tiles: nat)
  {
    && |s.warps| == WARPS
    && |s.stages| == 2 && |s.stages[0]| == CHUNKS && |s.stages[1]| == CHUNKS
    && forall w :: 0 <= w < WARPS ==> s.warps[w] == Warp(0, false, Duty(w, 0, tiles), 0, map[], [])
  }

  /** Warp w stores chunk c of the tile in its registers into stage k % 2. */
  ghost predicate Store<V>(s: State<V>, s': State<V>, data: Source<V>, tiles: nat, w: nat, c: nat)
    requires w < |s.warps| && |s.stages| == 2
  {
    var p := s.warps[w];
    var x := p.epoch / 2 % 2;
    && p.epoch % 2 == 0 && p.epoch / 2 < tiles && !p.arrived && c in p.todo && c < |s.stages[x]|
    && s' == s.(warps := s.warps[w := p.(todo := p.todo - {c})],
                stages := s.stages[x := s.stages[x][c := data(p.regs, c)]])
  }

  /** Warp w reads chunk c of stage k % 2. */
  ghost predicate Read<V>(s: State<V>, s': State<V>, tiles: nat, w: nat, c: nat)
    requires w < |s.warps| && |s.stages| == 2
  {
    var p := s.warps[w];
    var x := p.epoch / 2 % 2;
    && p.epoch % 2 == 1 && p.epoch / 2 < tiles && !p.arrived && c in p.todo && c < |s.stages[x]|
    && s' == s.(warps := s.warps[w := p.(todo := p.todo - {c}, got := p.got[c := s.stages[x][c]])])
  }

  /** Warp w reaches the barrier, its work of the epoch done; after a read epoch it has consumed the tile. */
  ghost predicate Arrive<V>(s: State<V>, s': State<V>, tiles: nat, w: nat)
    requires w < |s.warps|
  {
    var p := s.warps[w];
    && !p.arrived && p.todo == {} && p.epoch < 2 * tiles + 1
    && s' == s.(warps := s.warps[w := p.(arrived := true,
                                         seen := if p.epoch % 2 == 1 then p.seen + [p.got] else p.seen,
                                         got := map[])])
  }

  /** Warp w leaves the barrier once every warp has reached it; a read epoch starts by loading the next tile. */
  ghost predicate Leave<V>(s: State<V>, s': State<V>, tiles: nat, w: nat)
    requires w < |s.warps|
  {
    var p := s.warps[w];
    && p.arrived
    && (forall v :: 0 <= v < |s.warps| ==>
          s.warps[v].epoch > p.epoch || (s.warps[v].epoch == p.epoch && s.warps[v].arrived))
    && var next := p.epoch + 1;
       s' == s.(warps := s.warps[w := p.(epoch := next, arrived := false, todo := Duty(w, next, tiles),
                                         regs := if next % 2 == 1 && next / 2 + 1 < tiles then next / 2 + 1
                                             else p.regs)])
  }

  ghost predicate Step<V>(s: State<V>, s': State<V>, data: Source<V>, tiles: nat, w: nat, c: nat)
    requires w < |s.warps| && |s.stages| == 2
  {
    Store(s, s', data, tiles, w, c) || Read(s, s', tiles, w, c) || Arrive(s, s', tiles, w) || Leave(s, s', tiles, w)
  }

  ghost predicate Next<V>(s: State<V>, s': State<V>, data: Source<V>, tiles: nat)
    requires |s.stages| == 2
  {
    exists w: nat, c: nat :: w < |s.warps| && Step(s, s', data, tiles, w, c)
  }

  ghost predicate Done<V>(p: Warp<V>, tiles: nat)
  {
    p.epoch == 2 * tiles + 1
  }

  // ----- the invariant

  ghost predicate Shape<V>(s: State<V>)
  {
    |s.warps| == WARPS && |s.stages| == 2 && |s.stages[0]| == CHUNKS && |s.stages[1]| == CHUNKS
  }

  /** How many tiles a warp has consumed. */
  ghost function Consumed<V>(p: Warp<V>): nat
  {
    if p.epoch % 2 == 1 && p.arrived then p.epoch / 2 + 1 else p.epoch / 2
  }

  /** One warp's own bookkeeping: what it read is exactly what the cache holds, tile after tile. */
  ghost predicate WarpOk<V>(w: nat, p: Warp<V>, data: Source<V>, tiles: nat)
  {
    && p.epoch <= 2 * tiles + 1
    && p.todo <= Duty(w, p.epoch, tiles)
    && (p.arrived ==> p.todo == {} && p.epoch < 2 * tiles + 1)
    && (p.epoch % 2 == 0 && p.epoch / 2 < tiles ==> p.regs == p.epoch / 2)
    && (p.epoch % 2 == 1 && p.epoch / 2 + 1 < tiles ==> p.regs == p.epoch / 2 + 1)
    && (p.epoch % 2 == 1 && p.epoch / 2 < tiles && !p.arrived ==>
          p.got.Keys == AllChunks() - p.todo && forall c :: c in p.got ==> p.got[c] == data(p.epoch / 2, c))
    && (p.epoch % 2 == 0 || p.epoch / 2 >= tiles || p.arrived ==> p.got == map[])
    && |p.seen| == Consumed(p)
    && forall k :: 0 <= k < |p.seen| ==> p.seen[k] == FullTile(data, k)
  }

  /** No warp is more than one barrier ahead of another, and a warp left behind is waiting at that barrier. */
  ghost predicate Synced<V>(p: Warp<V>, q: Warp<V>)
  {
    p.epoch <= q.epoch || (p.epoch == q.epoch + 1 && q.arrived)
  }

  /** A filling warp's stored chunks, and every chunk a reading warp may look at, hold the tile of its epoch. */
  ghost predicate StageOk<V>(w: nat, p: Warp<V>, stages: seq<seq<V>>, data: Source<V>, tiles: nat)
    requires |stages| == 2 && |stages[0]| == CHUNKS && |stages[1]| == CHUNKS
  {
    var k := p.epoch / 2;
    k < tiles ==>
      forall c: nat {:trigger stages[k % 2][c]} ::
          c < CHUNKS && (p.epoch % 2 == 1 || (Owner(c) == w && c !in p.todo)) ==>
        stages[k % 2][c] == data(k, c)
  }

  ghost predicate Inv<V>(s: State<V>, data: Source<V>, tiles: nat)
  {
    && Shape(s)
    && (forall w :: 0 <= w < WARPS ==> WarpOk(w, s.warps[w], data, tiles))
    && (forall v, w :: 0 <= v < WARPS && 0 <= w < WARPS ==> Synced(s.warps[v], s.warps[w]))
    && (forall w :: 0 <= w < WARPS ==> StageOk(w, s.warps[w], s.stages, data, tiles))
  }

  lemma InitInv<V>(s: State<V>, data: Source<V>, tiles: nat)
    requires Init(s, tiles) && tiles > 0
    ensures Inv(s, data, tiles)
  {
  }

  lemma StoreKeepsInv<V>(s: State<V>, s': State<V>, data: Source<V>, tiles: nat, w: nat, c: nat)
    requires Inv(s, data, tiles) && w < WARPS && Store(s, s', data, tiles, w, c)
    ensures Inv(s', data, tiles)
  {
    var p := s.warps[w];
    var k := p.epoch / 2;
    assert c in Duty(w, p.epoch, tiles);
    forall v | 0 <= v < WARPS
      ensures StageOk(v, s'.warps[v], s'.stages, data, tiles)
    {
      assert StageOk(v, s.warps[v], s.stages, data, tiles);
      assert Synced(s.warps[v], p) && Synced(p, s.warps[v]);
      if v != w {
        assert s'.warps[v] == s.warps[v];
      }
    }
    forall v, u | 0 <= v < WARPS && 0 <= u < WARPS
      ensures Synced(s'.warps[v], s'.warps[u])
    {
      assert Synced(s.warps[v], s.warps[u]);
    }
  }

  lemma ReadKeepsInv<V>(s: State<V>, s': State<V>, data: Source<V>, tiles: nat, w: nat, c: nat)
    requires Inv(s, data, tiles) && w < WARPS && Read(s, s', tiles, w, c)
    ensures Inv(s', data, tiles)
  {
  }

  lemma ArriveKeepsInv<V>(s: State<V>, s': State<V>, data: Source<V>, tiles: nat, w: nat)
    requires Inv(s, data, tiles) && w < WARPS && Arrive(s, s', tiles, w)
    ensures Inv(s', data, tiles)
  {
    var p, p' := s.warps[w], s'.warps[w];
    assert WarpOk(w, p, data, tiles);
    if p.epoch % 2 == 1 {
      assert p.got == FullTile(data, p.epoch / 2);
    }
    assert WarpOk(w, p', data, tiles);
    assert StageOk(w, p, s.stages, data, tiles);
    forall v, u | 0 <= v < WARPS && 0 <= u < WARPS
      ensures Synced(s'.warps[v], s'.warps[u])
    {
      assert Synced(s.warps[v], s.warps[u]);
    }
  }

  /** Leaving the barrier after a fill epoch: every chunk's owner has stored it. */
  lemma LeaveKeepsInv<V>(s: State<V>, s': State<V>, data: Source<V>, tiles: nat, w: nat)
    requires Inv(s, data, tiles) && w < WARPS && Leave(s, s', tiles, w)
    ensures Inv(s', data, tiles)
  {
    var p, p' := s.warps[w], s'.warps[w];
    assert WarpOk(w, p, data, tiles);
    assert WarpOk(w, p', data, tiles);
    forall v, u | 0 <= v < WARPS && 0 <= u < WARPS
      ensures Synced(s'.warps[v], s'.warps[u])
    {
      assert Synced(s.warps[v], s.warps[u]) && Synced(s.warps[v], p) && Synced(p, s.warps[u]);
    }
    if p'.epoch % 2 == 1 && p'.epoch / 2 < tiles {
      forall c: nat | c < CHUNKS
        ensures s.stages[p'.epoch / 2 % 2][c] == data(p'.epoch / 2, c)
      {
        OneOwner(c, 0, 0);
        var o := s.warps[Owner(c)];
        assert StageOk(Owner(c), o, s.stages, data, tiles) && Synced(o, p) && WarpOk(Owner(c), o, data, tiles);
        assert o.epoch > p.epoch || (o.epoch == p.epoch && o.arrived);
      }
    }
    assert StageOk(w, p', s.stages, data, tiles);
  }

  /** A run: it starts in an initial state and every move is one warp's step, in any order. */
  ghost predicate Run<V>(run: seq<State<V>>, data: Source<V>, tiles: nat)
  {
    && |run| > 0 && Init(run[0], tiles)
    && (forall i :: 0 <= i < |run| ==> |run[i].stages| == 2)
    && forall i :: 0 <= i < |run| - 1 ==> Next(run[i], run[i + 1], data, tiles)
  }

  lemma {:induction false} RunKeepsInv<V>(run: seq<State<V>>, data: Source<V>, tiles: nat)
    requires Run(run, data, tiles) && tiles > 0
    ensures Inv(run[|run| - 1], data, tiles)
  {
    if |run| == 1 {
      InitInv(run[0], data, tiles);
    } else {
      var prefix := run[..|run| - 1];
      RunKeepsInv(prefix, data, tiles);
      var s, s' := run[|run| - 2], run[|run| - 1];
      assert Next(s, s', data, tiles);
      var w: nat, c: nat :| w < |s.warps| && Step(s, s', data, tiles, w, c);
      if Store(s, s', data, tiles, w, c) {
        StoreKeepsInv(s, s', data, tiles, w, c);
      } else if Read(s, s', tiles, w, c) {
        ReadKeepsInv(s, s', data, tiles, w, c);
      } else if Arrive(s, s', tiles, w) {
        ArriveKeepsInv(s, s', data, tiles, w);
      } else {
        LeaveKeepsInv(s, s', data, tiles, w);
      }
    }
  }

  // ----- what the protocol guarantees

  ghost predicate MayStore<V>(p: Warp<V>, stage: nat, tiles: nat)
  {
    p.epoch % 2 == 0 && p.epoch / 2 < tiles && p.todo != {} && p.epoch / 2 % 2 == stage
  }

  ghost predicate MayRead<V>(p: Warp<V>, stage: nat, tiles: nat)
  {
    p.epoch % 2 == 1 && p.epoch / 2 < tiles && p.todo != {} && p.epoch / 2 % 2 == stage
  }

  /** No warp can store into a stage while another may still read it. */
  lemma NoRace<V>(run: seq<State<V>>, data: Source<V>, tiles: nat, v: nat, w: nat, stage: nat)
    requires Run(run, data, tiles) && tiles > 0 && v < WARPS && w < WARPS && stage < 2
    ensures var s := run[|run| - 1];
            |s.warps| == WARPS && !(MayStore(s.warps[v], stage, tiles) && MayRead(s.warps[w], stage, tiles))
  {
    RunKeepsInv(run, data, tiles);
    var s := run[|run| - 1];
    assert Synced(s.warps[v], s.warps[w]) && Synced(s.warps[w], s.warps[v]);
    assert WarpOk(v, s.warps[v], data, tiles) && WarpOk(w, s.warps[w], data, tiles);
  }

  /** Whatever the interleaving, a finished warp has read every tile, in order and complete. */
  lemma FinishedWarpSawEverything<V>(run: seq<State<V>>, data: Source<V>, tiles: nat, w: nat)
    requires Run(run, data, tiles) && tiles > 0 && w < WARPS
    ensures var s := run[|run| - 1];
            |s.warps| == WARPS &&
            (Done(s.warps[w], tiles) ==>
               |s.warps[w].seen| == tiles && forall k :: 0 <= k < tiles ==> s.warps[w].seen[k] == FullTile(data, k))
  {
    RunKeepsInv(run, data, tiles);
    var s := run[|run| - 1];
    assert WarpOk(w, s.warps[w], data, tiles);
  }

  ghost predicate CanStep<V(!new)>(s: State<V>, data: Source<V>, tiles: nat)
    requires |s.stages| == 2
  {
    exists s' :: Next(s, s', data, tiles)
  }

  /** The barriers cannot deadlock: while some warp is unfinished, some warp has a step. */
  lemma NoDeadlock<V(!new)>(run: seq<State<V>>, data: Source<V>, tiles: nat, w: nat)
    requires Run(run, data, tiles) && tiles > 0 && w < WARPS
    requires var s := run[|run| - 1]; w < |s.warps| && !Done(s.warps[w], tiles)
    ensures CanStep(run[|run| - 1], data, tiles)
  {
    RunKeepsInv(run, data, tiles);
    Progress(run[|run| - 1], data, tiles, w);
  }

  lemma Progress<V(!new)>(s: State<V>, data: Source<V>, tiles: nat, w: nat)
    requires Inv(s, data, tiles) && w < WARPS && !Done(s.warps[w], tiles)
    ensures CanStep(s, data, tiles)
  {
    var v := Slowest(s, w);
    var p := s.warps[v];
    assert WarpOk(v, p, data, tiles) && WarpOk(w, s.warps[w], data, tiles);
    if !p.arrived && p.todo != {} {
      var c :| c in p.todo;
      assert c in Duty(v, p.epoch, tiles);
      var x := p.epoch / 2 % 2;
      if p.epoch % 2 == 0 {
        var s' := s.(warps := s.warps[v := p.(todo := p.todo - {c})],
                     stages := s.stages[x := s.stages[x][c := data(p.regs, c)]]);
        assert Step(s, s', data, tiles, v, c) && Next(s, s', data, tiles);
      } else {
        var s' := s.(warps := s.warps[v := p.(todo := p.todo - {c}, got := p.got[c := s.stages[x][c]])]);
        assert Step(s, s', data, tiles, v, c) && Next(s, s', data, tiles);
      }
    } else if !p.arrived {
      var s' := s.(warps := s.warps[v := p.(arrived := true,
                                            seen := if p.epoch % 2 == 1 then p.seen + [p.got] else p.seen,
                                            got := map[])]);
      assert Arrive(s, s', tiles, v);
      assert Step(s, s', data, tiles, v, 0) && Next(s, s', data, tiles);
    } else {
      forall u | 0 <= u < WARPS
        ensures s.warps[u].epoch > p.epoch || (s.warps[u].epoch == p.epoch && s.warps[u].arrived)
      {
      }
      var next := p.epoch + 1;
      var s' := s.(warps := s.warps[v := p.(epoch := next, arrived := false, todo := Duty(v, next, tiles),
                                            regs := if next % 2 == 1 && next / 2 + 1 < tiles then next / 2 + 1
                                                else p.regs)]);
      assert Step(s, s', data, tiles, v, 0) && Next(s, s', data, tiles);
    }
  }

  /** A warp of the lowest epoch, not yet at the barrier if any such warp exists. */
  lemma Slowest<V>(s: State<V>, w: nat) returns (v: nat)
    requires Shape(s) && w < WARPS
    ensures v < WARPS && s.warps[v].epoch <= s.warps[w].epoch
    ensures forall u :: 0 <= u < WARPS ==>
              s.warps[v].epoch < s.warps[u].epoch
              || (s.warps[v].epoch == s.warps[u].epoch && (s.warps[v].arrived ==> s.warps[u].arrived))
  {
    v := w;
    var i := 0;
    while i < WARPS
      invariant 0 <= i <= WARPS && v < WARPS && s.warps[v].epoch <= s.warps[w].epoch
      invariant forall u :: 0 <= u < i ==>
                  s.warps[v].epoch < s.warps[u].epoch
                  || (s.warps[v].epoch == s.warps[u].epoch && (s.warps[v].arrived ==> s.warps[u].arrived))
    {
      if s.warps[i].epoch < s.warps[v].epoch || (s.warps[i].epoch == s.warps[v].epoch && !s.warps[i].arrived) {
        v := i;
      }
      i := i + 1;
    }
  }

  // ----- every run is finite

  ghost function Work<V>(p: Warp<V>, tiles: nat): int
  {
    (2 * tiles + 1 - p.epoch) * (CHUNKS + 2) + |p.todo| + if p.arrived then 0 else 1
  }

  ghost function TotalWork<V>(ws: seq<Warp<V>>, tiles: nat): int
  {
    if |ws| == 0 then 0 else TotalWork(ws[..|ws| - 1], tiles) + Work(ws[|ws| - 1], tiles)
  }

  lemma {:induction false} WorkUpdate<V>(ws: seq<Warp<V>>, tiles: nat, w: nat, p: Warp<V>)
    requires w < |ws|
    ensures TotalWork(ws[w := p], tiles) == TotalWork(ws, tiles) - Work(ws[w], tiles) + Work(p, tiles)
  {
    hide Work;
    var n := |ws| - 1;
    if w < n {
      WorkUpdate(ws[..n], tiles, w, p);
      assert ws[w := p][..n] == ws[..n][w := p];
    } else {
      assert ws[w := p][..n] == ws[..n];
    }
  }

  lemma {:induction false} RangeSize(s: set<nat>, n: nat)
    requires forall c :: c in s ==> c < n
    ensures |s| <= n
    decreases n
  {
    if n > 0 {
      RangeSize(s - {n - 1}, n - 1);
    } else {
      assert s == {};
    }
  }

  lemma StepDoesWork<V>(s: State<V>, s': State<V>, data: Source<V>, tiles: nat, w: nat, c: nat)
    requires Inv(s, data, tiles) && w < WARPS && Step(s, s', data, tiles, w, c)
    ensures TotalWork(s'.warps, tiles) < TotalWork(s.warps, tiles)
  {
    hide WarpOk, StageOk, Synced;
    var p, p' := s.warps[w], s'.warps[w];
    assert s'.warps == s.warps[w := p'];
    WorkUpdate(s.warps, tiles, w, p');
    if Leave(s, s', tiles, w) {
      RangeSize(Duty(w, p'.epoch, tiles), CHUNKS);
      assert Work(p', tiles) == (2 * tiles + 1 - p.epoch) * (CHUNKS + 2) - (CHUNKS + 2) + |p'.todo| + 1;
    }
  }

  lemma {:induction false} WorkNonNegative<V>(ws: seq<Warp<V>>, tiles: nat)
    requires forall w :: 0 <= w < |ws| ==> ws[w].epoch <= 2 * tiles + 1
    ensures TotalWork(ws, tiles) >= 0
  {
    if |ws| > 0 {
      WorkNonNegative(ws[..|ws| - 1], tiles);
      assert (2 * tiles + 1 - ws[|ws| - 1].epoch) * (CHUNKS + 2) >= 0;
    }
  }

  /** Every run is at most as long as its initial work: with NoDeadlock, every maximal run finishes all warps. */
  lemma {:induction false} RunsAreFinite<V>(run: seq<State<V>>, data: Source<V>, tiles: nat)
    requires Run(run, data, tiles) && tiles > 0
    ensures |run| - 1 <= TotalWork(run[0].warps, tiles) - TotalWork(run[|run| - 1].warps, tiles)
    ensures |run| - 1 <= TotalWork(run[0].warps, tiles)
  {
    hide TotalWork, Work, Step;
    if |run| > 1 {
      var prefix := run[..|run| - 1];
      RunsAreFinite(prefix, data, tiles);
      RunKeepsInv(prefix, data, tiles);
      var s, s' := run[|run| - 2], run[|run| - 1];
      assert Next(s, s', data, tiles);
      var w: nat, c: nat :| w < |s.warps| && Step(s, s', data, tiles, w, c);
      StepDoesWork(s, s', data, tiles, w, c);
    }
    RunKeepsInv(run, data, tiles);
    var last := run[|run| - 1];
    forall w | 0 <= w < WARPS
      ensures last.warps[w].epoch <= 2 * tiles + 1
    {
      assert WarpOk(w, last.warps[w], data, tiles);
    }
    WorkNonNegative(last.warps, tiles);
  }
}
