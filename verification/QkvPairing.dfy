/** Pairing each layer's fp8 QKV weight with its scale, whatever order and calls they arrive in. */
module QkvPairing {
  import opened Options

  datatype Kind = Weight | Scale

  /** One tensor of the stream: a layer's fused QKV weight or its scale. */
  datatype Half<T> = Half(layer: string, kind: Kind, tensor: T)

  /** The halves of a layer seen so far. */
  datatype Entry<T> = Entry(weight: Option<T>, scale: Option<T>) {
    function With(k: Kind, t: T): Entry<T> { if k.Weight? then this.(weight := Some(t)) else this.(scale := Some(t)) }

    predicate Complete() { weight.Some? && scale.Some? }
  }

  /** Layers of this pipeline rank, how a pair is sharded, and the row count of each parameter. */
  datatype Env<!T, R> = Env(local: set<string>, shard: (string, T, T, Kind) -> seq<R>, rows: (string, Kind) -> nat) {
    /** What is copied into a parameter: the shard, cut to the parameter's rows. */
    function Written(l: string, w: T, s: T, k: Kind): (r: seq<R>) {
      var t := shard(l, w, s, k);
      if |t| > rows(l, k) then t[..rows(l, k)] else t
    }
  }

  /** Pending halves, parameter contents, and the layers written, in order. */
  datatype State<T, R> = State(pending: map<string, Entry<T>>, params: map<(string, Kind), seq<R>>,
                               writes: seq<string>) {
    function EntryOf(l: string): Entry<T> { if l in pending then pending[l] else Entry(None, None) }
  }

  /** Take one half. */
  function Step<T, R>(env: Env<T, R>, s: State<T, R>, h: Half<T>): State<T, R>
  {
    if h.layer !in env.local then s
    else
      var e := s.EntryOf(h.layer).With(h.kind, h.tensor);
      if !e.Complete() then s.(pending := s.pending[h.layer := e])
      else
        var params := s.params[(h.layer, Weight) := env.Written(h.layer, e.weight.value, e.scale.value, Weight)];
        State(s.pending - {h.layer},
              params[(h.layer, Scale) := env.Written(h.layer, e.weight.value, e.scale.value, Scale)],
              s.writes + [h.layer])
  }

  function Run<T, R>(env: Env<T, R>, s: State<T, R>, stream: seq<Half<T>>): State<T, R>
  {
    if stream == [] then s else Step(env, Run(env, s, stream[..|stream| - 1]), stream[|stream| - 1])
  }

  // ----- the loader

  class Loader<T, R> {
    const env: Env<T, R>
    var pending: map<string, Entry<T>>
    var params: map<(string, Kind), seq<R>>
    ghost var writes: seq<string>

    constructor (env: Env<T, R>, params: map<(string, Kind), seq<R>>)
      ensures this.env == env && Now() == State(map[], params, [])
    {
      this.env, this.params := env, params;
      pending, writes := map[], [];
    }

    ghost function Now(): State<T, R>
      reads this
    {
      State(pending, params, writes)
    }

    /** Consume one half; write the layer's parameters when its pair is complete. */
    method TryLoad(h: Half<T>, before: set<(string, Kind)>) returns (loaded: set<(string, Kind)>)
      modifies this
      ensures Now() == Step(env, old(Now()), h)
      ensures loaded == before + if |writes| > |old(writes)| then {(h.layer, Weight), (h.layer, Scale)} else {}
    {
      loaded := before;
      if h.layer !in env.local {
        return;
      }
      var e := if h.layer in pending then pending[h.layer] else Entry(None, None);
      e := e.With(h.kind, h.tensor);
      pending := pending[h.layer := e];
      if e.weight.None? || e.scale.None? {
        return;
      }
      pending := pending - {h.layer};
      writes := writes + [h.layer];
      var kinds := [Weight, Scale];
      for i := 0 to 2
        invariant pending == old(pending) - {h.layer} && writes == old(writes) + [h.layer]
        invariant params == if i == 0 then old(params)
                            else if i == 1 then
                              old(params)[(h.layer, Weight) :=
                                            env.Written(h.layer, e.weight.value, e.scale.value, Weight)]
                            else Step(env, old(Now()), h).params
        invariant loaded == before + if i == 0 then {} else if i == 1 then {(h.layer, Weight)}
                  else {(h.layer, Weight), (h.layer, Scale)}
      {
        var t := env.shard(h.layer, e.weight.value, e.scale.value, kinds[i]);
        if |t| > env.rows(h.layer, kinds[i]) {
          t := t[..env.rows(h.layer, kinds[i])];
        }
        params := params[(h.layer, kinds[i]) := t];
        loaded := loaded + {(h.layer, kinds[i])};
      }
    }

    /** One call; the pending halves outlive it. */
    method LoadWeights(call: seq<Half<T>>) returns (loaded: set<(string, Kind)>)
      modifies this
      ensures Now() == Run(env, old(Now()), call)
      ensures old(writes) <= writes
      ensures forall l, k :: (l, k) in loaded <==> l in writes[|old(writes)|..]
    {
      loaded := {};
      for i := 0 to |call|
        invariant Now() == Run(env, old(Now()), call[..i])
        invariant old(writes) <= writes
        invariant forall l, k :: (l, k) in loaded <==> l in writes[|old(writes)|..]
      {
        ghost var had := writes;
        assert call[..i + 1][..i] == call[..i] && call[..i + 1][i] == call[i];
        loaded := TryLoad(call[i], loaded);
        assert writes == had || writes == had + [call[i].layer];
        assert writes == had || writes[|old(writes)|..] == had[|old(writes)|..] + [call[i].layer];
        if writes != had {
          forall l, k
            ensures (l, k) in loaded <==> l in writes[|old(writes)|..]
          {
            assert k == Weight || k == Scale;
          }
        }
      }
      assert call[..|call|] == call;
    }
  }

  // ----- what a stream leaves behind

  /** Each half arrives at most once. */
  ghost predicate Once<T(!new)>(stream: seq<Half<T>>)
  {
    forall i, j :: 0 <= i < j < |stream| ==> stream[i].layer != stream[j].layer || stream[i].kind != stream[j].kind
  }

  /** The tensor of a half, if it is in the stream. */
  function Find<T>(stream: seq<Half<T>>, l: string, k: Kind): Option<T>
  {
    if stream == [] then None
    else
      var h := stream[|stream| - 1];
      if h.layer == l && h.kind == k then Some(h.tensor) else Find(stream[..|stream| - 1], l, k)
  }

  function Both<T>(stream: seq<Half<T>>, l: string): Entry<T> { Entry(Find(stream, l, Weight), Find(stream, l, Scale)) }

  /** From state s0 the stream leaves layer l as its halves say: written from its own pair, waiting, or untouched. */
  ghost predicate LeftAs<T, R>(env: Env<T, R>, s0: State<T, R>, s: State<T, R>, e: Entry<T>, l: string)
  {
    var done := l in env.local && e.Complete();
    && (l in s.pending <==> l in env.local && !e.Complete() && e != Entry(None, None))
    && (l in s.pending ==> s.pending[l] == e)
    && multiset(s.writes)[l] == multiset(s0.writes)[l] + (if done then 1 else 0)
    && forall k :: ParamLeft(env, s0, s, e, l, k)
  }

  /** The first n rows of the shard, or all of a shorter one. */
  ghost predicate IsCut<R>(param: seq<R>, shard: seq<R>, n: nat)
  {
    |param| == (if |shard| <= n then |shard| else n) && forall i :: 0 <= i < |param| ==> param[i] == shard[i]
  }

  ghost predicate ParamLeft<T, R>(env: Env<T, R>, s0: State<T, R>, s: State<T, R>, e: Entry<T>, l: string, k: Kind)
  {
    if l in env.local && e.Complete() then
      (l, k) in s.params && IsCut(s.params[(l, k)], env.shard(l, e.weight.value, e.scale.value, k), env.rows(l, k))
    else
      && ((l, k) in s.params <==> (l, k) in s0.params)
      && ((l, k) in s0.params ==> s.params[(l, k)] == s0.params[(l, k)])
  }

  lemma {:induction false} FindIn<T(!new)>(stream: seq<Half<T>>, l: string, k: Kind)
    ensures Find(stream, l, k).Some? ==> Half(l, k, Find(stream, l, k).value) in stream
    ensures Find(stream, l, k).None? ==> forall i :: 0 <= i < |stream| ==> stream[i].layer != l || stream[i].kind != k
  {
    if stream != [] {
      FindIn(stream[..|stream| - 1], l, k);
    }
  }

  /** Whatever the order, each layer is left as its own two halves say, and a complete layer is written once. */
  lemma {:induction false} RunLeaves<T(!new), R>(env: Env<T, R>, s0: State<T, R>, stream: seq<Half<T>>, l: string)
    requires Once(stream) && s0.pending == map[]
    ensures LeftAs(env, s0, Run(env, s0, stream), Both(stream, l), l)
  {
    if stream != [] {
      var n := |stream| - 1;
      var h := stream[n];
      RunLeaves(env, s0, stream[..n], l);
      FindIn(stream[..n], l, h.kind);
      assert h.layer == l ==> Find(stream[..n], l, h.kind).None?;
      assert Both(stream, l) == if h.layer == l then Both(stream[..n], l).With(h.kind, h.tensor)
          else Both(stream[..n], l);
      StepLeaves(env, s0, Run(env, s0, stream[..n]), Both(stream[..n], l), h, l);
    }
  }

  lemma StepLeaves<T, R>(env: Env<T, R>, s0: State<T, R>, s: State<T, R>, e: Entry<T>, h: Half<T>, l: string)
    requires LeftAs(env, s0, s, e, l)
    requires h.layer == l ==> (if h.kind.Weight? then e.weight.None? else e.scale.None?)
    ensures LeftAs(env, s0, Step(env, s, h), if h.layer == l then e.With(h.kind, h.tensor) else e, l)
  {
    var s', e' := Step(env, s, h), if h.layer == l then e.With(h.kind, h.tensor) else e;
    assert multiset(s.writes + [h.layer]) == multiset(s.writes) + multiset{h.layer};
    assert h.layer == l && l in env.local ==> s.EntryOf(l) == e;
    forall k
      ensures ParamLeft(env, s0, s', e', l, k)
    {
      assert ParamLeft(env, s0, s, e, l, k);
      assert k == Weight || k == Scale;
    }
  }

  // ----- order and grouping do not matter

  function Flatten<T>(calls: seq<seq<Half<T>>>): seq<Half<T>>
  {
    if calls == [] then [] else Flatten(calls[..|calls| - 1]) + calls[|calls| - 1]
  }

  /** Successive calls with the dict kept on the instance. */
  function RunCalls<T, R>(env: Env<T, R>, s: State<T, R>, calls: seq<seq<Half<T>>>): State<T, R>
  {
    if calls == [] then s else Run(env, RunCalls(env, s, calls[..|calls| - 1]), calls[|calls| - 1])
  }

  lemma {:induction false} RunAppend<T, R>(env: Env<T, R>, s: State<T, R>, a: seq<Half<T>>, b: seq<Half<T>>)
    ensures Run(env, s, a + b) == Run(env, Run(env, s, a), b)
  {
    if b == [] {
      assert a + b == a;
    } else {
      var n := |b| - 1;
      RunAppend(env, s, a, b[..n]);
      assert (a + b)[..|a + b| - 1] == a + b[..n];
    }
  }

  /** Any split into calls acts as one call on the whole stream. */
  lemma {:induction false} GroupingDoesNotMatter<T, R>(env: Env<T, R>, s: State<T, R>, calls: seq<seq<Half<T>>>)
    ensures RunCalls(env, s, calls) == Run(env, s, Flatten(calls))
  {
    if calls != [] {
      GroupingDoesNotMatter(env, s, calls[..|calls| - 1]);
      RunAppend(env, s, Flatten(calls[..|calls| - 1]), calls[|calls| - 1]);
    }
  }

  lemma SameFind<T(!new)>(a: seq<Half<T>>, b: seq<Half<T>>, l: string, k: Kind)
    requires Once(a) && Once(b) && forall h :: h in a <==> h in b
    ensures Find(a, l, k) == Find(b, l, k)
  {
    FindIn(a, l, k);
    FindIn(b, l, k);
  }

  /** Two streams of the same halves, in any orders and any splits into calls, end in the same pending halves and
      parameters, having written the same layers the same number of times. */
  lemma Confluent<T(!new), R>(env: Env<T, R>, s0: State<T, R>, a: seq<seq<Half<T>>>, b: seq<seq<Half<T>>>)
    requires s0.pending == map[] && Once(Flatten(a)) && Once(Flatten(b)) && forall h :: h in Flatten(a) <==>
               h in Flatten(b)
    ensures var x, y := RunCalls(env, s0, a), RunCalls(env, s0, b);
            x.pending == y.pending && x.params == y.params && multiset(x.writes) == multiset(y.writes)
  {
    var x, y := RunCalls(env, s0, a), RunCalls(env, s0, b);
    GroupingDoesNotMatter(env, s0, a);
    GroupingDoesNotMatter(env, s0, b);
    forall l
      ensures SameAt(s0, x, y, l)
    {
      SameFind(Flatten(a), Flatten(b), l, Weight);
      SameFind(Flatten(a), Flatten(b), l, Scale);
      RunLeaves(env, s0, Flatten(a), l);
      RunLeaves(env, s0, Flatten(b), l);
      LeftAlike(env, s0, x, y, Both(Flatten(a), l), l);
    }
    hide *;
    Alike(s0, x, y);
  }

  ghost predicate SameAt<T, R>(s0: State<T, R>, x: State<T, R>, y: State<T, R>, l: string)
  {
    && (l in x.pending <==> l in y.pending) && (l in x.pending ==> x.pending[l] == y.pending[l])
    && multiset(x.writes)[l] == multiset(y.writes)[l]
    && forall k :: SameParam(x, y, l, k)
  }

  ghost predicate SameParam<T, R>(x: State<T, R>, y: State<T, R>, l: string, k: Kind)
  {
    ((l, k) in x.params <==> (l, k) in y.params) && ((l, k) in x.params ==> x.params[(l, k)] == y.params[(l, k)])
  }

  lemma LeftAlike<T, R>(env: Env<T, R>, s0: State<T, R>, x: State<T, R>, y: State<T, R>, e: Entry<T>, l: string)
    requires LeftAs(env, s0, x, e, l) && LeftAs(env, s0, y, e, l)
    ensures SameAt(s0, x, y, l)
  {
    forall k
      ensures SameParam(x, y, l, k)
    {
      assert ParamLeft(env, s0, x, e, l, k) && ParamLeft(env, s0, y, e, l, k);
      if l in env.local && e.Complete() {
        assert x.params[(l, k)] == y.params[(l, k)];
      }
    }
  }

  lemma Alike<T, R>(s0: State<T, R>, x: State<T, R>, y: State<T, R>)
    requires forall l :: SameAt(s0, x, y, l)
    ensures x.pending == y.pending && x.params == y.params && multiset(x.writes) == multiset(y.writes)
  {
    forall l
      ensures (l in x.pending <==> l in y.pending) && (l in x.pending ==> x.pending[l] == y.pending[l])
      ensures multiset(x.writes)[l] == multiset(y.writes)[l]
    {
      assert SameAt(s0, x, y, l);
    }
    forall p: (string, Kind)
      ensures (p in x.params <==> p in y.params) && (p in x.params ==> x.params[p] == y.params[p])
    {
      assert SameAt(s0, x, y, p.0);
      assert SameParam(x, y, p.0, p.1);
    }
  }

  // ----- the dict per call, before the patch

  /** A dict made afresh by each call; what it still holds is lost. */
  function StockCalls<T, R>(env: Env<T, R>, s: State<T, R>, calls: seq<seq<Half<T>>>): State<T, R>
  {
    if calls == [] then s
    else Run(env, StockCalls(env, s, calls[..|calls| - 1]).(pending := map[]), calls[|calls| - 1])
  }

  /** Some call carries both halves of the layer. */
  ghost predicate Together<T>(calls: seq<seq<Half<T>>>, l: string)
  {
    exists i :: 0 <= i < |calls| && Both(calls[i], l).Complete()
  }

  lemma TogetherStep<T>(calls: seq<seq<Half<T>>>, l: string)
    requires calls != []
    ensures Together(calls, l) <==> Together(calls[..|calls| - 1], l) || Both(calls[|calls| - 1], l).Complete()
  {
  }

  /** With a dict per call a layer is written exactly when some call carries both its halves. */
  lemma {:induction false} StockWritesIff<T(!new), R>(env: Env<T, R>, s0: State<T, R>, calls: seq<seq<Half<T>>>,
                                                      l: string)
    requires Once(Flatten(calls)) && l !in s0.writes
    ensures l in StockCalls(env, s0, calls).writes <==> l in env.local && Together(calls, l)
  {
    if calls != [] {
      var n := |calls| - 1;
      var s := StockCalls(env, s0, calls[..n]).(pending := map[]);
      assert Flatten(calls) == Flatten(calls[..n]) + calls[n];
      OncePart(Flatten(calls[..n]), calls[n]);
      StockWritesIff(env, s0, calls[..n], l);
      RunLeaves(env, s, calls[n], l);
      TogetherStep(calls, l);
      InMultiset(s.writes, l);
      InMultiset(Run(env, s, calls[n]).writes, l);
    }
  }

  lemma InMultiset(s: seq<string>, l: string)
    ensures l in s <==> multiset(s)[l] > 0
  {
    assert l in s <==> l in multiset(s);
  }

  lemma OncePart<T(!new)>(a: seq<Half<T>>, b: seq<Half<T>>)
    requires Once(a + b)
    ensures Once(a) && Once(b)
  {
    forall i, j | 0 <= i < j < |a|
      ensures a[i].layer != a[j].layer || a[i].kind != a[j].kind
    {
      assert (a + b)[i] == a[i] && (a + b)[j] == a[j];
    }
    forall i, j | 0 <= i < j < |b|
      ensures b[i].layer != b[j].layer || b[i].kind != b[j].kind
    {
      assert (a + b)[|a| + i] == b[i] && (a + b)[|a| + j] == b[j];
    }
  }

  /** What the patch changes: the layers it writes and the dict per call does not are those whose pair was split. */
  lemma PatchRestoresSplitPairs<T(!new), R>(env: Env<T, R>, s0: State<T, R>, calls: seq<seq<Half<T>>>, l: string)
    requires Once(Flatten(calls)) && s0.pending == map[] && l !in s0.writes
    ensures l in RunCalls(env, s0, calls).writes <==> l in env.local && Both(Flatten(calls), l).Complete()
    ensures l in RunCalls(env, s0, calls).writes && l !in StockCalls(env, s0, calls).writes
            <==> l in env.local && Both(Flatten(calls), l).Complete() && !Together(calls, l)
    ensures l in StockCalls(env, s0, calls).writes ==> l in RunCalls(env, s0, calls).writes
  {
    GroupingDoesNotMatter(env, s0, calls);
    RunLeaves(env, s0, Flatten(calls), l);
    InMultiset(s0.writes, l);
    InMultiset(RunCalls(env, s0, calls).writes, l);
    StockWritesIff(env, s0, calls, l);
    if Together(calls, l) {
      TogetherIsComplete(calls, l);
    }
  }

  lemma {:induction false} TogetherIsComplete<T(!new)>(calls: seq<seq<Half<T>>>, l: string)
    requires Together(calls, l)
    ensures Both(Flatten(calls), l).Complete()
  {
    var n := |calls| - 1;
    TogetherStep(calls, l);
    if !Both(calls[n], l).Complete() {
      TogetherIsComplete(calls[..n], l);
    }
    FindAppend(Flatten(calls[..n]), calls[n], l, Weight);
    FindAppend(Flatten(calls[..n]), calls[n], l, Scale);
  }

  lemma {:induction false} FindAppend<T>(a: seq<Half<T>>, b: seq<Half<T>>, l: string, k: Kind)
    ensures Find(a + b, l, k) == if Find(b, l, k).Some? then Find(b, l, k) else Find(a, l, k)
  {
    if b == [] {
      assert a + b == a;
    } else {
      assert (a + b)[..|a + b| - 1] == a + b[..|b| - 1];
      FindAppend(a, b[..|b| - 1], l, k);
    }
  }
}
