/** The orders and interleavings the launches are proved for exist, for every batch, shape and CTA. */
module Schedules {
  import opened IndexMath
  import opened LaunchGrid
  import Launch2D
  import Launch3D
  import TritonPath
  import PrefillKernel
  import CudaPath
  import TileRing

  /** The 2D grid, q-block by q-block. */
  function RowMajor(blocks: nat, kvHeads: nat): (order: seq<(nat, nat)>)
    ensures |order| == blocks * kvHeads
    ensures forall j :: 0 <= j < |order| && kvHeads > 0 ==> order[j] == SplitAt(j, kvHeads)
  {
    seq(blocks * kvHeads, j requires 0 <= j < blocks * kvHeads => if kvHeads > 0 then SplitAt(j, kvHeads) else (0, 0))
  }

  lemma RowMajorCovers(b: Batch, s: Shape)
    requires b.Valid() && s.Valid()
    ensures s.BlockQ() > 0 && Launch2D.CoversGrid(b, s, RowMajor(GridSize(b, s.BlockQ()), s.kvHeads))
  {
    BlockQPositive(s);
    var n := GridSize(b, s.BlockQ());
    var order := RowMajor(n, s.kvHeads);
    hide GridSize, Batch.Valid, Shape.BlockQ;
    forall j: nat | j < |order|
      ensures order[j].0 < n && order[j].1 < s.kvHeads
    {
      FlatOf(j, n, s.kvHeads);
    }
    forall g: nat, k: nat | g < n && k < s.kvHeads
      ensures (g, k) in order
    {
      FlatInRange(g, k, n, s.kvHeads);
      FlatInverse(g, k, s.kvHeads);
      assert order[FlatIndex(g, k, s.kvHeads)] == (g, k);
    }
  }

  /** The work of a split-KV grid. */
  ghost function AllWork(b: Batch, s: Shape, segments: nat): set<Launch3D.Work>
    requires b.Valid() && s.Valid() && s.BlockQ() > 0
  {
    set i: nat, g: nat, k: nat, m: nat, row: nat, head: nat, seg: nat
      {:trigger Launch3D.Work(i, g, k, m, row, head, seg)} |
      && i < b.Count() && g < GridSize(b, s.BlockQ()) && k < s.kvHeads && m < s.blockM
      && row < b.Tokens() && head < s.Heads()
      && seg < segments && Launch3D.IsWork(b, s, segments, Launch3D.Work(i, g, k, m, row, head, seg))
      :: Launch3D.Work(i, g, k, m, row, head, seg)
  }

  ghost function Listed<T(!new)>(s: set<T>): (q: seq<T>)
    ensures forall x :: x in q <==> x in s
  {
    if s == {} then []
    else
      var x :| x in s;
      [x] + Listed(s - {x})
  }

  lemma ScheduleExists(b: Batch, s: Shape, segments: nat)
    requires b.Valid() && s.Valid()
    ensures s.BlockQ() > 0 && Launch3D.Schedule(b, s, segments, Listed(AllWork(b, s, segments)))
  {
    BlockQPositive(s);
    var all := AllWork(b, s, segments);
    assert forall w :: w in all ==> Launch3D.IsWork(b, s, segments, w);
    hide *;
    forall w: Launch3D.Work | Launch3D.IsWork(b, s, segments, w) && w.g < GridSize(b, s.BlockQ())
      ensures w in all
    {
      WorkListed(b, s, segments, w);
    }
    ShowSchedule(b, s, segments, Listed(all));
  }

  lemma WorkListed(b: Batch, s: Shape, segments: nat, w: Launch3D.Work)
    requires b.Valid() && s.Valid() && s.BlockQ() > 0 && Launch3D.IsWork(b, s, segments, w)
             && w.g < GridSize(b, s.BlockQ())
    ensures w in AllWork(b, s, segments)
  {
    Launch2D.LaneInTensor(b, s, w.i, w.g, w.kvHead, w.m, w.row, w.head);
    assert w.i < b.Count() && w.kvHead < s.kvHeads && w.m < s.blockM && w.seg < segments;
    hide GridSize, Lane, Launch3D.IsWork, Batch.Valid, Shape.BlockQ, Shape.Heads;
    assert w == Launch3D.Work(w.i, w.g, w.kvHead, w.m, w.row, w.head, w.seg);
  }

  lemma ShowSchedule(b: Batch, s: Shape, segments: nat, order: seq<Launch3D.Work>)
    requires b.Valid() && s.Valid() && s.BlockQ() > 0
    requires forall w: Launch3D.Work :: w in order ==> Launch3D.IsWork(b, s, segments, w)
    requires forall w: Launch3D.Work :: Launch3D.IsWork(b, s, segments, w) && w.g < GridSize(b, s.BlockQ()) ==>
               w in order
    ensures Launch3D.Schedule(b, s, segments, order)
  {
    hide GridSize, Launch3D.IsWork;
  }

  /** Row-major programs and any listing of the work make a valid setup. */
  lemma SomeSetup(tile2D: nat, tile3D: nat, segments: nat, seqThreshold: nat, hasScratch: bool, batchInvariant: bool)
    returns (u: TritonPath.Setup)
    requires tile2D > 0 && tile3D > 0 && segments > 0
    ensures u.Valid()
  {
    var order2D := (b: Batch, s: Shape) =>
      if b.Valid() && s.Valid() && s.BlockQ() > 0 then RowMajor(GridSize(b, s.BlockQ()), s.kvHeads) else [];
    var order3D := (b: Batch, s: Shape, n: nat) =>
      if b.Valid() && s.Valid() && s.BlockQ() > 0 then Listed(AllWork(b, s, n)) else [];
    u := TritonPath.Setup(tile2D, tile3D, segments, seqThreshold, hasScratch, batchInvariant, order2D, order3D);
    hide Launch2D.CoversGrid, Launch3D.Schedule, GridSize, AllWork, Batch.Valid, Shape.Valid;
    forall b: Batch, s: Shape | b.Valid() && s.Valid()
      ensures Launch2D.CoversGrid(b, s, u.order2D(b, s)) && Launch3D.Schedule(b, s, segments, u.order3D(b, s, segments))
    {
      RowMajorCovers(b, s);
      ScheduleExists(b, s, segments);
    }
  }

  /** From a run with an unfinished warp some step goes on, and no run is endless: some run finishes every warp. */
  lemma SomeFinishedRun<V(!new)>(data: TileRing.Source<V>, tiles: nat) returns (run: seq<TileRing.State<V>>)
    requires tiles > 0
    ensures TileRing.Run(run, data, tiles) && |run[|run| - 1].warps| == TileRing.WARPS
    ensures forall w: nat :: w < TileRing.WARPS ==> Finished(run, w, tiles)
  {
    var stage := seq(TileRing.CHUNKS, _ => data(0, 0));
    var warps: seq<TileRing.Warp<V>> :=
      seq(TileRing.WARPS, w requires 0 <= w < TileRing.WARPS =>
            TileRing.Warp(0, false, TileRing.Duty(w, 0, tiles), 0, map[], []));
    var init := TileRing.State(warps, [stage, stage]);
    assert TileRing.Init(init, tiles);
    run := [init];
    while exists w: nat :: w < TileRing.WARPS && !Finished(run, w, tiles)
      invariant TileRing.Run(run, data, tiles) && run[0] == init
      decreases TileRing.TotalWork(warps, tiles) - |run|
    {
      var w: nat :| w < TileRing.WARPS && !Finished(run, w, tiles);
      RunWarps(run, data, tiles);
      TileRing.NoDeadlock(run, data, tiles, w);
      run := OneMore(run, data, tiles);
      TileRing.RunsAreFinite(run, data, tiles);
    }
    RunWarps(run, data, tiles);
  }

  ghost predicate Finished<V>(run: seq<TileRing.State<V>>, w: nat, tiles: nat)
  {
    |run| > 0 && w < |run[|run| - 1].warps| && TileRing.Done(run[|run| - 1].warps[w], tiles)
  }

  lemma RunWarps<V>(run: seq<TileRing.State<V>>, data: TileRing.Source<V>, tiles: nat)
    requires TileRing.Run(run, data, tiles) && tiles > 0
    ensures |run[|run| - 1].warps| == TileRing.WARPS
  {
    TileRing.RunKeepsInv(run, data, tiles);
  }

  lemma OneMore<V(!new)>(run: seq<TileRing.State<V>>, data: TileRing.Source<V>, tiles: nat)
    returns (longer: seq<TileRing.State<V>>)
    requires TileRing.Run(run, data, tiles) && TileRing.CanStep(run[|run| - 1], data, tiles)
    ensures TileRing.Run(longer, data, tiles) && longer[0] == run[0] && |longer| == |run| + 1
  {
    var s :| TileRing.Next(run[|run| - 1], s, data, tiles);
    longer := run + [s];
  }

  /** What the warps see in some finished runs: a sight for every CTA. */
  ghost function SomeSight(): (sight: CudaPath.Sight)
    ensures CudaPath.Faithful(sight)
  {
    (a: PrefillKernel.Cta, w: nat) => if a.Valid() && w < TileRing.WARPS then SeenBy(a, w) else []
  }

  ghost function SeenBy(a: PrefillKernel.Cta, w: nat): (seen: seq<map<nat, seq<real>>>)
    requires a.Valid() && w < TileRing.WARPS
    ensures CudaPath.Executed(a, w, seen)
  {
    SightExists(a, w);
    var seen :| CudaPath.Executed(a, w, seen);
    seen
  }

  lemma SightExists(a: PrefillKernel.Cta, w: nat)
    requires a.Valid() && w < TileRing.WARPS
    ensures exists seen :: CudaPath.Executed(a, w, seen)
  {
    PrefillKernel.TokenFacts(a, a.first);
    hide PrefillKernel.Cta.Valid;
    var run := SomeFinishedRun(a.Source(), a.Tiles());
    assert Finished(run, w, a.Tiles());
    assert CudaPath.Finished(a, w, run[|run| - 1].warps[w].seen, run);
    assert CudaPath.Executed(a, w, run[|run| - 1].warps[w].seen);
  }
}
