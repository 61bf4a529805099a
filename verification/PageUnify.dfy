/** Choosing the common KV page and giving it to every layer. */
module PageUnify {
  import opened IndexMath
  import opened Options

  datatype Kind = Mamba | Attention | Mla | Other

  /** A layer's cache: `unit` bytes per token of a block, or per page for Mamba; a page may be padded. */
  datatype Spec = Spec(kind: Kind, blockSize: nat, unit: nat, padded: Option<nat>) {
    function Content(): nat { if kind.Mamba? then unit else blockSize * unit }

    function Page(): nat { if padded.Some? then padded.value else Content() }

    predicate Valid() { Page() > 0 && Content() <= Page() }
  }

  datatype Layer = Layer(name: string, spec: Spec)

  ghost predicate ValidLayers(layers: seq<Layer>)
  {
    && (forall i :: 0 <= i < |layers| ==> layers[i].spec.Valid())
    && forall i, j :: 0 <= i < j < |layers| ==> layers[i].name != layers[j].name
  }

  // ----- pages by layer count

  /** Pages of the layers that are not Mamba. */
  function Pages(layers: seq<Layer>): (ps: seq<nat>)
    ensures forall i :: 0 <= i < |layers| && !layers[i].spec.kind.Mamba? ==> layers[i].spec.Page() in ps
    ensures forall p :: p in ps ==> exists i :: 0 <= i < |layers| && layers[i].spec.Page() == p
  {
    if layers == [] then []
    else
      var rest, l := Pages(layers[..|layers| - 1]), layers[|layers| - 1];
      if l.spec.kind.Mamba? then rest else rest + [l.spec.Page()]
  }

  function MaxPage(layers: seq<Layer>): (m: nat)
    ensures forall i :: 0 <= i < |layers| ==> layers[i].spec.Page() <= m
    ensures layers != [] ==> exists i :: 0 <= i < |layers| && layers[i].spec.Page() == m
  {
    if layers == [] then 0
    else
      var m, p := MaxPage(layers[..|layers| - 1]), layers[|layers| - 1].spec.Page();
      if p >= m then p else m
  }

  /** More layers first; among equals the larger page. */
  predicate Before(ps: seq<nat>, p: nat, q: nat)
  {
    multiset(ps)[p] > multiset(ps)[q] || (multiset(ps)[p] == multiset(ps)[q] && p > q)
  }

  ghost predicate Ranked(ps: seq<nat>, pages: seq<nat>)
  {
    forall i, j :: 0 <= i < j < |pages| ==> Before(ps, pages[i], pages[j])
  }

  function Insert(ps: seq<nat>, pages: seq<nat>, p: nat): (r: seq<nat>)
    ensures forall q :: q in r <==> q == p || q in pages
    ensures Ranked(ps, pages) ==> Ranked(ps, r)
  {
    if pages == [] then [p]
    else if pages[0] == p then pages
    else if Before(ps, p, pages[0]) then [p] + pages
    else
      var rest := Insert(ps, pages[1..], p);
      assert forall i :: 0 <= i < |rest| ==> rest[i] in rest;
      assert Ranked(ps, pages) ==> Ranked(ps, pages[1..]);
      assert forall q :: q in pages[1..] ==> exists i :: 1 <= i < |pages| && pages[i] == q;
      [pages[0]] + rest
  }

  /** The distinct pages, in order of layer count. */
  function Rank(ps: seq<nat>, n: nat): (r: seq<nat>)
    requires n <= |ps|
    ensures Ranked(ps, r) && forall q :: q in r <==> q in ps[..n]
  {
    if n == 0 then []
    else
      assert ps[..n] == ps[..n - 1] + [ps[n - 1]];
      Insert(ps, Rank(ps, n - 1), ps[n - 1])
  }

  // ----- the chain

  /** The page joins the chain when it divides it or is a multiple of it. */
  predicate Joins(chain: nat, page: nat)
  {
    chain == 0 || page == 0 || chain % page == 0 || page % chain == 0
  }

  function Extend(chain: nat, page: nat): nat
  {
    if chain == 0 then page
    else if page == 0 || chain % page == 0 then chain
    else if page % chain == 0 then page
    else chain
  }

  /** The chain after the first pages of the ranking (0 before any). */
  function Chain(pages: seq<nat>): nat
  {
    if pages == [] then 0 else Extend(Chain(pages[..|pages| - 1]), pages[|pages| - 1])
  }

  /** Page i was accepted when it was reached. */
  predicate Accepted(pages: seq<nat>, i: nat)
    requires i < |pages|
  {
    Joins(Chain(pages[..i]), pages[i])
  }

  ghost predicate Positive(pages: seq<nat>) { forall i :: 0 <= i < |pages| ==> pages[i] > 0 }

  lemma DividesTrans(a: nat, b: nat, c: nat)
    requires a > 0 && b > 0 && b % a == 0 && c % b == 0
    ensures c % a == 0
  {
    var x, y := b / a, c / b;
    BlockOf(b, a, 0);
    BlockOf(c, b, 0);
    assert c == y * x * a;
    FlatInverse(y * x, 0, a);
  }

  lemma ExtendChooses(chain: nat, page: nat)
    requires page > 0
    ensures Extend(chain, page) > 0
    ensures Extend(chain, page) == chain || (Joins(chain, page) && Extend(chain, page) == page)
  {
  }

  /** The chain is one of the accepted pages. */
  lemma {:induction false} ChainPositive(pages: seq<nat>)
    requires Positive(pages) && pages != []
    ensures Chain(pages) > 0
    ensures exists i :: 0 <= i < |pages| && Accepted(pages, i) && pages[i] == Chain(pages)
  {
    var n := |pages| - 1;
    ExtendChooses(Chain(pages[..n]), pages[n]);
    ChainStep(pages);
    hide Extend, Joins;
    if n > 0 && Chain(pages) == Chain(pages[..n]) {
      ChainPositive(pages[..n]);
      hide Chain;
      var i :| 0 <= i < n && Accepted(pages[..n], i) && pages[..n][i] == Chain(pages[..n]);
      assert pages[..n][..i] == pages[..i];
      assert Accepted(pages, i);
    } else {
      assert Accepted(pages, n);
    }
  }

  lemma ExtendMultiple(chain: nat, page: nat)
    requires chain > 0 && page > 0
    ensures Extend(chain, page) % chain == 0
  {
    SelfDivides(chain);
  }

  lemma LastDivides(chain: nat, page: nat)
    requires page > 0 && Joins(chain, page)
    ensures Extend(chain, page) % page == 0
  {
    SelfDivides(page);
  }

  lemma SelfDivides(x: nat)
    requires x > 0
    ensures x % x == 0
  {
  }

  lemma ChainStep(pages: seq<nat>)
    requires pages != []
    ensures Chain(pages) == Extend(Chain(pages[..|pages| - 1]), pages[|pages| - 1])
  {
  }

  /** Every accepted page divides the chain it ends with. */
  lemma {:induction false} AcceptedDivides(pages: seq<nat>, i: nat)
    requires Positive(pages) && i < |pages| && Accepted(pages, i)
    ensures Chain(pages) > 0 && Chain(pages) % pages[i] == 0
  {
    var n := |pages| - 1;
    ChainPositive(pages);
    if i == n {
      LastDivides(Chain(pages[..n]), pages[n]);
    } else {
      assert pages[..n][..i] == pages[..i];
      AcceptedDivides(pages[..n], i);
      ExtendMultiple(Chain(pages[..n]), pages[n]);
      hide Extend, Chain;
      DividesTrans(pages[i], Chain(pages[..n]), Extend(Chain(pages[..n]), pages[n]));
      assert Chain(pages) == Extend(Chain(pages[..n]), pages[n]) by {
        ChainStep(pages);
      }
    }
  }

  // ----- the common page

  /** The least multiple of c that is at least n. */
  function RoundUp(n: nat, c: nat): nat
    requires c > 0
  {
    CeilDiv(n, c) * c
  }

  function Ranking(layers: seq<Layer>): seq<nat> { Rank(Pages(layers), |Pages(layers)|) }

  function Common(layers: seq<Layer>): nat
  {
    var chain := Chain(Ranking(layers));
    if chain == 0 then MaxPage(layers) else RoundUp(MaxPage(layers), chain)
  }

  /** Walk the ranking, keeping the largest page of the chain. */
  method BuildChain(pages: seq<nat>) returns (chain: nat)
    requires Positive(pages)
    ensures chain == Chain(pages)
  {
    chain := 0;
    for i := 0 to |pages|
      invariant chain == Chain(pages[..i])
    {
      assert pages[..i + 1][..i] == pages[..i];
      ChainStep(pages[..i + 1]);
      hide Chain;
      if chain == 0 || chain % pages[i] == 0 {
        chain := if chain == 0 then pages[i] else chain;
      } else if pages[i] % chain == 0 {
        chain := pages[i];
      }
    }
    assert pages[..|pages|] == pages;
  }

  /** The page every layer should take; None leaves the choice to the stock code. */
  method CommonPage(enabled: bool, layers: seq<Layer>) returns (r: Option<nat>)
    requires ValidLayers(layers)
    ensures r == if !enabled || |Ranking(layers)| <= 1 || Common(layers) == MaxPage(layers) then None
            else Some(Common(layers))
  {
    if !enabled {
      return None;
    }
    var pages := Ranking(layers);
    if |pages| <= 1 {
      return None;
    }
    RankPositive(layers);
    ChainPositive(pages);
    hide Ranking, MaxPage, Chain, RoundUp;
    var maxPage := MaxPage(layers);
    var chain := BuildChain(pages);
    var common := RoundUp(maxPage, chain);
    if common == maxPage {
      return None;
    }
    r := Some(common);
  }

  lemma RankPositive(layers: seq<Layer>)
    requires ValidLayers(layers)
    ensures Positive(Ranking(layers))
  {
    var ps := Pages(layers);
    var r := Rank(ps, |ps|);
    assert ps[..|ps|] == ps;
    forall i | 0 <= i < |r|
      ensures r[i] > 0
    {
      assert r[i] in r;
    }
  }

  /** On the enabled path with several pages, None means exactly that the largest page,
      the stock choice, is already common. */
  lemma NoneIsStock(layers: seq<Layer>)
    requires ValidLayers(layers) && Pages(layers) != []
    ensures var chain := Chain(Ranking(layers));
            chain > 0 && (Common(layers) == MaxPage(layers) <==> MaxPage(layers) % chain == 0)
  {
    var ps := Pages(layers);
    var r := Rank(ps, |ps|);
    assert ps[0] in ps[..|ps|];
    RankPositive(layers);
    ChainPositive(r);
    RoundUpLeast(MaxPage(layers), Chain(r));
  }

  lemma RoundUpLeast(n: nat, c: nat)
    requires c > 0
    ensures n <= RoundUp(n, c) < n + c && RoundUp(n, c) % c == 0
    ensures RoundUp(n, c) == n <==> n % c == 0
    ensures forall m: nat :: m % c == 0 && n <= m ==> RoundUp(n, c) <= m
  {
    CeilCovers(n, c);
    FlatInverse(CeilDiv(n, c), 0, c);
    assert (CeilDiv(n, c) - 1) * c == CeilDiv(n, c) * c - c;
    assert n == 0 ==> (CeilDiv(n, c) - 1) * c < n;
    if n % c == 0 {
      BlockOf(n, c, 0);
      FlatInverse(n / c, c - 1, c);
    }
    hide FlatIndex, CeilDiv;
    forall m: nat | m % c == 0 && n <= m
      ensures RoundUp(n, c) <= m
    {
      LeastMultiple(n, CeilDiv(n, c), m, c);
    }
  }

  lemma LeastMultiple(n: nat, q: nat, m: nat, c: nat)
    requires c > 0 && m % c == 0 && n <= m && (q - 1) * c < n
    ensures q * c <= m
  {
    BlockOf(m, c, 0);
    MulOrder(q - 1, m / c, c);
    MulMonotone(q, m / c, c);
  }

  /** Every page of the chain divides the common page, which is the least such page not below the largest. */
  lemma CommonIsLeast(layers: seq<Layer>, m: nat)
    requires ValidLayers(layers) && Pages(layers) != []
    ensures MaxPage(layers) <= Common(layers)
    ensures forall i :: 0 <= i < |Ranking(layers)| && Accepted(Ranking(layers), i) ==>
              Ranking(layers)[i] > 0 && Common(layers) % Ranking(layers)[i] == 0
    ensures MaxPage(layers) <= m
            && (forall i :: 0 <= i < |Ranking(layers)| && Accepted(Ranking(layers), i) ==>
                 Ranking(layers)[i] > 0 && m % Ranking(layers)[i] == 0)
            ==> Common(layers) <= m
  {
    var r := Ranking(layers);
    NoneIsStock(layers);
    RankPositive(layers);
    RoundUpLeast(MaxPage(layers), Chain(r));
    assert r != [];
    ChainPositive(r);
    hide Ranking, MaxPage, Chain, RoundUp, Accepted;
    forall i | 0 <= i < |r| && Accepted(r, i)
      ensures Common(layers) % r[i] == 0
    {
      AcceptedDivides(r, i);
      DividesTrans(r[i], Chain(r), Common(layers));
    }
  }

  // ----- the ranking and the chain, in counts and remainders

  /** The number of layers, Mamba ones aside, with a page. */
  function LayersWith(layers: seq<Layer>, p: nat): nat
  {
    |set i | 0 <= i < |layers| && !layers[i].spec.kind.Mamba? && layers[i].spec.Page() == p|
  }

  lemma {:induction false} PagesCount(layers: seq<Layer>, p: nat)
    ensures multiset(Pages(layers))[p] == LayersWith(layers, p)
  {
    if layers != [] {
      var n := |layers| - 1;
      PagesCount(layers[..n], p);
      OneMoreLayer(layers, p);
      hide LayersWith, Spec.Page;
      assert Pages(layers) == Pages(layers[..n]) + if layers[n].spec.kind.Mamba? then [] else [layers[n].spec.Page()];
    }
  }

  lemma OneMoreLayer(layers: seq<Layer>, p: nat)
    requires layers != []
    ensures var l := layers[|layers| - 1];
            LayersWith(layers, p)
            == LayersWith(layers[..|layers| - 1], p) + if !l.spec.kind.Mamba? && l.spec.Page() == p then 1 else 0
  {
    var n := |layers| - 1;
    var before := set i | 0 <= i < n && !layers[..n][i].spec.kind.Mamba? && layers[..n][i].spec.Page() == p;
    var all := set i | 0 <= i < |layers| && !layers[i].spec.kind.Mamba? && layers[i].spec.Page() == p;
    var last := !layers[n].spec.kind.Mamba? && layers[n].spec.Page() == p;
    hide Spec.Page;
    assert all == if last then before + {n} else before;
  }

  /** The ranking holds each page of a layer that is not Mamba once: those of more layers first, and of two pages of
      equally many layers the larger first. */
  lemma RankingIs(layers: seq<Layer>)
    ensures var r := Ranking(layers);
            && (forall p :: p in r <==> exists i :: 0 <= i < |layers| && !layers[i].spec.kind.Mamba?
                                                    && layers[i].spec.Page() == p)
            && forall i, j :: 0 <= i < j < |r| ==>
                 || LayersWith(layers, r[i]) > LayersWith(layers, r[j])
                 || (LayersWith(layers, r[i]) == LayersWith(layers, r[j]) && r[i] > r[j])
  {
    var ps, r := Pages(layers), Ranking(layers);
    assert ps[..|ps|] == ps;
    hide Ranking, Rank, Pages, LayersWith;
    forall i, j | 0 <= i < j < |r|
      ensures LayersWith(layers, r[i]) > LayersWith(layers, r[j])
              || (LayersWith(layers, r[i]) == LayersWith(layers, r[j]) && r[i] > r[j])
    {
      PagesCount(layers, r[i]);
      PagesCount(layers, r[j]);
      assert Before(ps, r[i], r[j]);
    }
    forall p
      ensures p in r <==> exists i :: 0 <= i < |layers| && !layers[i].spec.kind.Mamba? && layers[i].spec.Page() == p
    {
      PagesCount(layers, p);
      HasLayer(layers, p);
      assert p in ps <==> p in multiset(ps);
    }
  }

  lemma HasLayer(layers: seq<Layer>, p: nat)
    ensures LayersWith(layers, p) > 0 <==>
              exists i :: 0 <= i < |layers| && !layers[i].spec.kind.Mamba? && layers[i].spec.Page() == p
  {
    var all := set i | 0 <= i < |layers| && !layers[i].spec.kind.Mamba? && layers[i].spec.Page() == p;
    if i :| 0 <= i < |layers| && !layers[i].spec.kind.Mamba? && layers[i].spec.Page() == p {
      assert i in all;
    }
    if all != {} {
      var i :| i in all;
    }
  }

  /** The chain starts as the first page; a multiple of it takes its place, and any other page leaves it. Accepted is
      every page that is a multiple of the chain reached before it, or divides it. */
  lemma ChainRule(pages: seq<nat>, i: nat)
    requires Positive(pages) && i < |pages|
    ensures i == 0 ==> Chain(pages[..1]) == pages[0] && Accepted(pages, 0)
    ensures i > 0 ==>
              var c, p := Chain(pages[..i]), pages[i];
              c > 0 && (Accepted(pages, i) <==> c % p == 0 || p % c == 0)
    ensures i > 0 ==>
              var c, p := Chain(pages[..i]), pages[i];
              && c > 0
              && Chain(pages[..i + 1]) == if p % c == 0 then p else c
  {
    assert pages[..i + 1][..i] == pages[..i];
    ChainStep(pages[..i + 1]);
    if i > 0 {
      ChainPositive(pages[..i]);
      var c, p := Chain(pages[..i]), pages[i];
      hide Chain;
      if c % p == 0 && p % c == 0 {
        DivideEachOther(c, p);
      }
    } else {
      assert pages[..1][..0] == [];
    }
  }

  lemma DivideEachOther(x: nat, y: nat)
    requires x > 0 && y > 0 && x % y == 0 && y % x == 0
    ensures x == y
  {
    BlockOf(x, y, 0);
    BlockOf(y, x, 0);
    MulMonotone(1, x / y, y);
    MulMonotone(1, y / x, x);
  }

  /** A page that divides the chain reached before it, or is a multiple of it, divides the final chain; the first page
      does so too. */
  lemma ReachedDivides(pages: seq<nat>, i: nat)
    requires Positive(pages) && i < |pages|
    requires i == 0 || Chain(pages[..i]) % pages[i] == 0 || pages[i] % Chain(pages[..i]) == 0
    ensures Chain(pages) > 0 && Chain(pages) % pages[i] == 0
  {
    if i > 0 {
      ChainRule(pages, i);
    } else {
      assert pages[..0] == [];
    }
    AcceptedDivides(pages, i);
  }

  // ----- giving every layer the common page

  datatype Outcome<T> = Ok(value: T) | NotSupported(name: string)

  /** How a layer is brought to the page: kept, padded or scaled; None when none of these applies. */
  function Unified(s: Spec, common: nat): Option<Spec>
    requires s.Valid()
  {
    if s.Page() == common then Some(s)
    else if s.kind.Mamba? then Some(s.(padded := Some(common)))
    else if common % s.Page() == 0 && s.padded.None? then Some(s.(blockSize := s.blockSize * (common / s.Page())))
    else if s.kind.Attention? then Some(s.(padded := Some(common)))
    else None
  }

  /** A unified layer has exactly the common page and still fits its content; scaling keeps the bytes per token. */
  lemma UnifiedPage(s: Spec, common: nat)
    requires s.Valid() && s.Page() <= common && Unified(s, common).Some?
    ensures var t := Unified(s, common).value;
            && t.Page() == common && t.Valid() && t.kind == s.kind && t.unit == s.unit
            && (s.padded.None? && !s.kind.Mamba? && common % s.Page() == 0 ==>
                  t.padded.None? && t.blockSize * s.Page() == s.blockSize * common)
  {
  }

  /** Only a layer that is neither Mamba nor plain attention can fail: its page does not divide the common one, or is
      padded already. A layer at the common page is kept, and padding changes nothing but the page. */
  lemma UnifiedIff(s: Spec, common: nat)
    requires s.Valid()
    ensures Unified(s, common).None? <==>
              && s.Page() != common && (s.kind.Mla? || s.kind.Other?) && (common % s.Page() != 0 || s.padded.Some?)
    ensures s.Page() == common ==> Unified(s, common) == Some(s)
    ensures s.Page() != common && (s.kind.Mamba? || (s.kind.Attention? && (common % s.Page() != 0 || s.padded.Some?)))
            ==> Unified(s, common) == Some(Spec(s.kind, s.blockSize, s.unit, Some(common)))
  {
  }

  /** Every layer unified, or the first layer that cannot be. */
  method UnifyTo(layers: seq<Layer>, common: nat) returns (r: Outcome<map<string, Spec>>)
    requires ValidLayers(layers) && MaxPage(layers) <= common
    ensures r.Ok? <==> forall i :: 0 <= i < |layers| ==> Unified(layers[i].spec, common).Some?
    ensures r.Ok? ==> r.value.Keys == set i | 0 <= i < |layers| :: layers[i].name
    ensures r.Ok? ==> forall i :: 0 <= i < |layers| ==>
              r.value[layers[i].name] == Unified(layers[i].spec, common).value
                  && r.value[layers[i].name].Page() == common
    ensures r.NotSupported? ==>
              exists i :: 0 <= i < |layers| && layers[i].name == r.name && Unified(layers[i].spec, common).None?
                          && forall j :: 0 <= j < i ==> Unified(layers[j].spec, common).Some?
  {
    var result: map<string, Spec> := map[];
    assert FirstUnified(layers, common, 0, result);
    for i := 0 to |layers|
      invariant FirstUnified(layers, common, i, result)
    {
      hide FirstUnified, MaxPage, Unified, Spec.Page;
      assert layers[i].spec.Page() <= common;
      var unified := UnifyOne(layers[i].spec, common);
      if unified.None? {
        FirstHasIt(layers, common, i, result);
        return NotSupported(layers[i].name);
      }
      OneMoreUnified(layers, common, i, result, unified.value);
      result := result[layers[i].name := unified.value];
    }
    r := Ok(result);
  }

  /** One layer: kept, padded or scaled. */
  method UnifyOne(spec: Spec, common: nat) returns (r: Option<Spec>)
    requires spec.Valid() && spec.Page() <= common
    ensures r == Unified(spec, common) && (r.Some? ==> r.value.Page() == common)
  {
    if spec.Page() == common {
      r := Some(spec);
    } else if spec.kind.Mamba? {
      r := Some(spec.(padded := Some(common)));
    } else if common % spec.Page() == 0 && spec.padded.None? {
      UnifiedPage(spec, common);
      r := Some(spec.(blockSize := spec.blockSize * (common / spec.Page())));
    } else if spec.kind.Attention? {
      r := Some(spec.(padded := Some(common)));
    } else {
      r := None;
    }
  }

  /** The first n layers are unified. */
  ghost predicate FirstUnified(layers: seq<Layer>, common: nat, n: nat, result: map<string, Spec>)
    requires ValidLayers(layers) && n <= |layers|
  {
    && result.Keys == (set j | 0 <= j < n :: layers[j].name)
    && (forall j :: 0 <= j < n ==> Unified(layers[j].spec, common).Some?)
    && forall j :: 0 <= j < n ==>
         result[layers[j].name] == Unified(layers[j].spec, common).value && result[layers[j].name].Page() == common
  }

  lemma FirstHasIt(layers: seq<Layer>, common: nat, n: nat, result: map<string, Spec>)
    requires ValidLayers(layers) && n <= |layers| && FirstUnified(layers, common, n, result)
    ensures forall j :: 0 <= j < n ==> Unified(layers[j].spec, common).Some?
  {
  }

  lemma OneMoreUnified(layers: seq<Layer>, common: nat, n: nat, result: map<string, Spec>, unified: Spec)
    requires ValidLayers(layers) && n < |layers| && FirstUnified(layers, common, n, result)
    requires Unified(layers[n].spec, common) == Some(unified) && unified.Page() == common
    ensures FirstUnified(layers, common, n + 1, result[layers[n].name := unified])
  {
    hide Unified, Spec.Page, Spec.Valid;
  }

  /** Layers on an accepted page that carry no padding are only scaled: no byte per token is added. */
  lemma AcceptedOnlyScaled(layers: seq<Layer>, i: nat, k: nat)
    requires ValidLayers(layers) && i < |layers| && !layers[i].spec.kind.Mamba? && layers[i].spec.padded.None?
    requires k < |Ranking(layers)| && Ranking(layers)[k] == layers[i].spec.Page() && Accepted(Ranking(layers), k)
    ensures var s := layers[i].spec;
            && Unified(s, Common(layers)).Some? && Unified(s, Common(layers)).value.padded.None?
            && Unified(s, Common(layers)).value.blockSize * s.Page() == s.blockSize * Common(layers)
            && Unified(s, Common(layers)).value.unit == s.unit
  {
    var s := layers[i].spec;
    assert s.Page() in Pages(layers);
    CommonIsLeast(layers, 0);
    hide Ranking, MaxPage, Common, Pages, Accepted;
    UnifiedPage(s, Common(layers));
  }

  /** The page carried by most layers (the largest of them on a tie) is never padded. */
  lemma MajorityOnlyScaled(layers: seq<Layer>, i: nat)
    requires ValidLayers(layers) && i < |layers| && !layers[i].spec.kind.Mamba? && layers[i].spec.padded.None?
    requires forall j :: 0 <= j < |layers| && !layers[j].spec.kind.Mamba? ==>
               var p, q := layers[i].spec.Page(), layers[j].spec.Page();
               p == q || LayersWith(layers, p) > LayersWith(layers, q)
               || (LayersWith(layers, p) == LayersWith(layers, q) && p > q)
    ensures var s := layers[i].spec;
            && Unified(s, Common(layers)).Some? && Unified(s, Common(layers)).value.padded.None?
            && Unified(s, Common(layers)).value.blockSize * s.Page() == s.blockSize * Common(layers)
  {
    var ps, r, p := Pages(layers), Ranking(layers), layers[i].spec.Page();
    assert ps[..|ps|] == ps;
    assert p in r;
    RankingIs(layers);
    var k :| 0 <= k < |r| && r[k] == p;
    assert r[0] in r;
    var j :| 0 <= j < |layers| && !layers[j].spec.kind.Mamba? && layers[j].spec.Page() == r[0];
    assert Accepted(r, 0);
    hide Ranking, Pages, Unified, LayersWith;
    assert k == 0;
    AcceptedOnlyScaled(layers, i, 0);
  }

  // ----- the served model

  /** 16 tokens of 360, 720 and 1,024 bytes: pages of 5,760, 11,520 and 16,384 bytes. */
  const FULL: Spec := Spec(Attention, 16, 360, None)
  const WINDOW: Spec := Spec(Attention, 16, 720, None)
  const DRAFTER: Spec := Spec(Attention, 16, 1024, None)

  function Count(layers: seq<Layer>, s: Spec): nat
  {
    if layers == [] then 0
    else Count(layers[..|layers| - 1], s) + if layers[|layers| - 1].spec == s then 1 else 0
  }

  /** More window layers than full ones and more full ones than drafter layers (39, 9 and 5), in any order. */
  ghost predicate Served(layers: seq<Layer>)
  {
    && ValidLayers(layers)
    && (forall i :: 0 <= i < |layers| ==>
          layers[i].spec == FULL || layers[i].spec == WINDOW || layers[i].spec == DRAFTER)
    && Count(layers, WINDOW) > Count(layers, FULL) > Count(layers, DRAFTER) > 0
  }

  lemma {:induction false} ServedPages(layers: seq<Layer>)
    requires forall i :: 0 <= i < |layers| ==>
               layers[i].spec == FULL || layers[i].spec == WINDOW || layers[i].spec == DRAFTER
    ensures var ps := multiset(Pages(layers));
            ps[5760] == Count(layers, FULL) && ps[11520] == Count(layers, WINDOW) && ps[16384] == Count(layers, DRAFTER)
    ensures forall p :: p in Pages(layers) ==> p == 5760 || p == 11520 || p == 16384
  {
    if layers != [] {
      var n := |layers| - 1;
      ServedPages(layers[..n]);
      assert Pages(layers) == Pages(layers[..n]) + [layers[n].spec.Page()];
    }
  }

  lemma ServedRanking(layers: seq<Layer>)
    requires Served(layers)
    ensures Ranking(layers) == [11520, 5760, 16384]
  {
    var ps, r := Pages(layers), Ranking(layers);
    ServedPages(layers);
    assert ps[..|ps|] == ps;
    assert 5760 in ps && 11520 in ps && 16384 in ps;
    hide Pages, Rank, Ranking, ValidLayers;
    RankedThree(ps, r);
  }

  /** Three pages ordered by their counts. */
  lemma RankedThree(ps: seq<nat>, r: seq<nat>)
    requires multiset(ps)[11520] > multiset(ps)[5760] > multiset(ps)[16384]
    requires Ranked(ps, r) && forall q :: q in r <==> q == 11520 || q == 5760 || q == 16384
    ensures r == [11520, 5760, 16384]
  {
    assert 11520 in r && 5760 in r && 16384 in r;
    var i :| 0 <= i < |r| && r[i] == 11520;
    var j :| 0 <= j < |r| && r[j] == 5760;
    var k :| 0 <= k < |r| && r[k] == 16384;
    assert Before(ps, 11520, 5760) && Before(ps, 5760, 16384) && Before(ps, 11520, 16384);
    assert i < j < k;
    forall x | 0 <= x < |r|
      ensures r[x] in r && (x == i || x == j || x == k)
    {
      assert r[x] in r;
      assert !Before(ps, r[x], r[x]);
    }
    assert r[0] in r && r[1] in r && r[2] in r && r[|r| - 1] in r;
  }

  lemma ServedChain()
    ensures Chain([11520, 5760, 16384]) == 11520 && RoundUp(16384, 11520) == 23040
  {
    var p := [11520, 5760, 16384];
    assert p[..2][..1] == p[..1];
    assert p[..1][..0] == [];
    assert Chain(p[..1]) == 11520;
    assert Chain(p[..2]) == 11520;
  }

  lemma ServedMax(layers: seq<Layer>)
    requires Served(layers)
    ensures MaxPage(layers) == 16384
  {
    ServedPages(layers);
    assert layers != [];
    assert 16384 in Pages(layers);
    hide Pages, Count;
  }

  /** What the served model's layers become: larger blocks for the target's layers, padding for the drafter's. */
  function ServedSpec(s: Spec): Spec
  {
    if s == FULL then s.(blockSize := 64) else if s == WINDOW then s.(blockSize := 32) else s.(padded := Some(23040))
  }

  /** The served model meets at 23,040 bytes: 64-token full blocks, 32-token window
      blocks, and only the drafter padded. */
  method ServedModel(layers: seq<Layer>) returns (page: Option<nat>, r: Outcome<map<string, Spec>>)
    requires Served(layers)
    ensures page == Some(23040) && r.Ok? && r.value.Keys == set i | 0 <= i < |layers| :: layers[i].name
    ensures forall i :: 0 <= i < |layers| ==> r.value[layers[i].name] == ServedSpec(layers[i].spec)
  {
    ServedCommon(layers);
    hide Ranking, MaxPage, Common, Count;
    page := CommonPage(true, layers);
    forall i | 0 <= i < |layers|
      ensures Unified(layers[i].spec, 23040) == Some(ServedSpec(layers[i].spec))
    {
      ServedUnified(layers[i].spec);
    }
    hide Unified, ServedSpec, ValidLayers;
    r := UnifyTo(layers, page.value);
  }

  lemma ServedCommon(layers: seq<Layer>)
    requires Served(layers)
    ensures |Ranking(layers)| == 3 && MaxPage(layers) == 16384 && Common(layers) == 23040
  {
    ServedRanking(layers);
    ServedMax(layers);
    ServedChain();
    hide Ranking, MaxPage, Chain, RoundUp, Served;
  }

  lemma ServedUnified(s: Spec)
    requires s == FULL || s == WINDOW || s == DRAFTER
    ensures Unified(s, 23040) == Some(ServedSpec(s))
  {
  }
}
