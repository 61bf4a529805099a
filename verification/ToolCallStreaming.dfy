/** What stays while a call streams in: parsed arguments, raw values, and the values the converter stores. */
module ToolCallStreaming {
  import opened ToolCalls
  import opened ToolCallTheorems

  // ----- raw values

  /** No </parameter> of a that is not real in a can become real later, unless only white space followed it. */
  lemma RealCloseGrows(a: Tokens, b: Tokens)
    ensures FirstRealClose(a + b) >= FirstRealClose(a)
    ensures var r := FirstRealClose(a);
            r < |a| && !AllSpace(a[r + 1..]) ==> FirstRealClose(a + b) == r
  {
    var r := FirstRealClose(a);
    hide FirstRealClose, AllSpace;
    forall k | 0 <= k < r
      ensures !RealCloseAt(a + b, k)
    {
      assert !RealCloseAt(a, k);
      RealCloseConcat(a, b, k);
      if AllSpace(a[k + 1..]) {
        SpacesAreTail(a[k + 1..]);
      }
    }
    if r < |a| {
      RealCloseConcat(a, b, r);
    }
    var q := FirstRealClose(a + b);
  }

  /** An argument of a growing text: the same as before, or one whose </parameter> turned out to be part of its
      value, or one still open whose value grew. */
  ghost predicate Grew(c: Arg, d: Arg)
  {
    d == c || (d.name == c.name && ((c.ending == Closed && c.raw + [Close] <= d.raw)
        || (c.ending == Unclosed && c.raw <= d.raw)))
  }

  /** How the next argument cut from a growing text can change: only its last value can, and only by growing. */
  lemma CutGrows(name: string, a: Tokens, b: Tokens)
    ensures var c, d := CutBody(name, a), CutBody(name, a + b);
            && d.arg.name == c.arg.name
            && c.arg.raw <= d.arg.raw
            && (c.arg.ending == NextOpen ==> d == c)
            && (c.arg.ending == Closed && !AllSpace(a[c.next..]) ==> d == c)
            && (c.arg.ending == Unclosed ==> c.next == |a|)
            && (c.arg.ending == NextOpen ==> c.next < |a| && a[c.next].Open?)
            && Grew(c.arg, d.arg)
  {
    FirstOpenConcat(a, b);
    FirstCloseConcat(a, b);
    RealCloseGrows(a, b);
    var n, f, r := FirstOpen(a), FirstClose(a), FirstRealClose(a);
    hide FirstOpen, FirstClose, FirstRealClose, AtLineStart, AllSpace, RealCloseAt;
    var n', r' := FirstOpen(a + b), FirstRealClose(a + b);
    if n < |a| {
      TakePrefix(a, b, n);
    }
    TakeGrows(a, b, if n' <= |a + b| then n' else 0);
    TakeGrows(a, b, r');
    if r < |a| {
      CloseBeforeReal(a);
      TakePrefix(a, b, r);
      TakeMonotone(a + b, r, r');
      ClosedGrew(a, b, r);
    }
  }

  lemma ClosedGrew(a: Tokens, b: Tokens, r: nat)
    requires r < |a| && a[r].Close?
    ensures forall n :: r < n <= |a + b| ==> a[..r] + [Close] <= (a + b)[..n]
    ensures a[..r] + [Close] <= a + b
  {
    assert (a + b)[..r + 1] == a[..r] + [Close];
  }

  lemma TakePrefix(a: Tokens, b: Tokens, n: nat)
    requires n <= |a|
    ensures (a + b)[..n] == a[..n]
  {
  }

  lemma TakeGrows(a: Tokens, b: Tokens, n: nat)
    requires n <= |a + b|
    ensures n >= |a| ==> a <= (a + b)[..n]
  {
  }

  lemma TakeMonotone(s: Tokens, m: nat, n: nat)
    requires m <= n <= |s|
    ensures s[..m] <= s[..n]
  {
  }

  lemma CloseBeforeReal(a: Tokens)
    requires FirstRealClose(a) < |a|
    ensures FirstClose(a) <= FirstRealClose(a) && a[FirstRealClose(a)].Close?
  {
    assert RealCloseAt(a, FirstRealClose(a));
  }

  lemma SpacesHaveNoArgs(s: Tokens)
    requires AllSpace(s)
    ensures Parse(s) == []
  {
    FirstOpenIs(s, |s|);
  }

  /** Every argument but the last is final, and the last value so far is a prefix of what it becomes. */
  ghost predicate Extends(p: seq<Arg>, q: seq<Arg>)
  {
    && |p| <= |q|
    && (forall i :: 0 <= i < |p| - 1 ==> p[i] == q[i])
    && (|p| > 0 ==>
          && Grew(p[|p| - 1], q[|p| - 1]) && p[|p| - 1].name == q[|p| - 1].name
          && p[|p| - 1].raw <= q[|p| - 1].raw)
  }

  lemma ExtendsCons(a: Arg, p: seq<Arg>, q: seq<Arg>)
    requires Extends(p, q)
    ensures Extends([a] + p, [a] + q)
  {
    assert forall i :: 0 < i < |[a] + p| ==> ([a] + p)[i] == p[i - 1] && ([a] + q)[i] == q[i - 1];
  }

  lemma ExtendsLast(a: Arg, b: Arg, rest: seq<Arg>)
    requires Grew(a, b)
    ensures Extends([a], [b] + rest)
  {
  }

  lemma ExtendsNothing(q: seq<Arg>)
    ensures Extends([], q)
  {
  }

  /** Prefix stability: however the text goes on, parsed arguments stay and the value in progress only grows. */
  lemma {:induction false} PrefixStable(a: Tokens, b: Tokens)
    ensures Extends(Parse(a), Parse(a + b))
    decreases |a|, 1
  {
    hide *;
    FirstOpenConcat(a, b);
    var o := FirstOpen(a);
    if o == |a| {
      ParseNone(a);
      ExtendsNothing(Parse(a + b));
    } else {
      var body, name := a[o + 1..], a[o].name;
      DropOfConcat(a, b, o + 1);
      assert (a + b)[o] == a[o];
      StableBody(a, b, body, name);
    }
  }

  lemma {:induction false} StableBody(a: Tokens, b: Tokens, body: Tokens, name: string)
    requires var o := FirstOpen(a); o < |a| && body == a[o + 1..] && name == a[o].name
    requires var o := FirstOpen(a);
             o == FirstOpen(a + b) && o < |a + b| && (a + b)[o + 1..] == body + b && (a + b)[o] == a[o]
    ensures Extends(Parse(a), Parse(a + b))
    decreases |a|, 0
  {
    hide *;
    CutGrows(name, body, b);
    var c, d := CutBody(name, body), CutBody(name, body + b);
    ParseSome(a, body, body[c.next..]);
    ParseSome(a + b, body + b, (body + b)[d.next..]);
    if d == c {
      DropOfConcat(body, b, c.next);
      PrefixStable(body[c.next..], b);
      ExtendsCons(c.arg, Parse(body[c.next..]), Parse(body[c.next..] + b));
    } else {
      NoMoreArgs(body, c);
      assert [c.arg] + [] == [c.arg];
      ExtendsLast(c.arg, d.arg, Parse((body + b)[d.next..]));
    }
  }

  lemma NoMoreArgs(body: Tokens, c: Cut)
    requires c.Cut? && c.next <= |body| && (c.next == |body| || AllSpace(body[c.next..]))
    ensures Parse(body[c.next..]) == []
  {
    SpacesHaveNoArgs(body[c.next..]);
  }

  lemma DropOfConcat(a: Tokens, b: Tokens, n: nat)
    requires n <= |a|
    ensures (a + b)[n..] == a[n..] + b
  {
  }

  // ----- stored values

  /** Drop one newline at the start and then one at the end. */
  function TrimNewlines(v: Tokens): Tokens
  {
    var w := if |v| > 0 && v[0].Newline? then v[1..] else v;
    if |w| > 0 && w[|w| - 1].Newline? then w[..|w| - 1] else w
  }

  /** A value is trimmed of one newline at each end and of nothing else. */
  lemma TrimIs(v: Tokens)
    requires |v| > 0 ==> !v[0].Newline? && !v[|v| - 1].Newline?
    ensures TrimNewlines(v) == TrimNewlines([Newline] + v) == TrimNewlines(v + [Newline]) == v
    ensures TrimNewlines([Newline] + v + [Newline]) == v
    ensures TrimNewlines([Newline, Newline] + v + [Newline, Newline]) ==
            if v == [] then [Newline, Newline] else [Newline] + v + [Newline]
  {
    var one, two := [Newline] + v + [Newline], [Newline, Newline] + v + [Newline, Newline];
    assert one[1..] == v + [Newline] && two[1..] == [Newline] + v + [Newline, Newline];
    assert ([Newline] + v)[1..] == v && (v + [Newline])[..|v|] == v;
    assert two[1..][..|v| + 2] == [Newline] + v + [Newline];
    if v == [] {
      assert v + [Newline] == [Newline];
      assert [Newline] + v + [Newline] == [Newline, Newline];
    }
  }

  /** A longer value keeps the shorter one's trimmed form as a prefix. */
  lemma TrimGrows(x: Tokens, y: Tokens)
    requires x <= y
    ensures TrimNewlines(x) <= TrimNewlines(y)
  {
  }

  /** What the converter stores for a value in progress, and for an argument. */
  function Shown(v: Tokens): Tokens { TrimNewlines(StripTrailingFunc(v)) }

  function Stored(a: Arg): Tokens { if a.ending.Unclosed? then Shown(a.raw) else TrimNewlines(a.raw) }

  /** That is what the converter's dict gets, for a named argument (a nameless one in progress is not stored). */
  lemma StoredIsAssigned(d: seq<(string, Tokens)>, a: Arg)
    requires a.name != ""
    ensures Assign(d, a, TrimNewlines) == Put(d, a.name, Stored(a))
  {
  }

  /** Whatever follows, still open or closed by then, keeps what is shown now as a prefix. */
  ghost predicate ShownStable(v: Tokens)
  {
    forall b: Tokens :: Shown(v) <= Shown(v + b) && Shown(v) <= TrimNewlines(v + b)
  }

  /** v ends in a blank, or in two newlines after something. */
  predicate EndsLoosely(v: Tokens)
  {
    |v| > 0 && (v[|v| - 1].Blank? || (|v| > 2 && v[|v| - 1].Newline? && v[|v| - 2].Newline?))
  }

  /** A value in progress stays a prefix of all its later forms iff it does not end
      loosely, or ends in a stripped line. */
  lemma ShownStableIff(v: Tokens)
    ensures ShownStable(v) <==> HasTrailingFunc(v) || !EndsLoosely(v)
  {
    if HasTrailingFunc(v) || !EndsLoosely(v) {
      forall b: Tokens
        ensures Shown(v) <= Shown(v + b) && Shown(v) <= TrimNewlines(v + b)
      {
        ShownGrows(v, b);
      }
    } else {
      ShownShrinks(v);
    }
  }

  /** A loose end followed by </function>: the blank, or the second newline, that was shown is taken back. */
  lemma ShownShrinks(v: Tokens)
    requires !HasTrailingFunc(v) && EndsLoosely(v)
    ensures !(Shown(v) <= Shown(v + [FuncEnd])) && !ShownStable(v)
  {
    StripAtFunc(v);
    LooseEndShows(v, StripTrailingFunc(v + [FuncEnd]));
    hide StripTrailingFunc, HasTrailingFunc, TrimNewlines, EndsLoosely;
    assert |Shown(v + [FuncEnd])| < |Shown(v)|;
  }

  /** A loose end shows more than what is left without its last token. */
  lemma LooseEndShows(v: Tokens, w: Tokens)
    requires EndsLoosely(v) && w <= v && |w| < |v| && (v[|v| - 1].Newline? ==> w == v[..|v| - 1])
    ensures |TrimNewlines(w)| < |TrimNewlines(v)|
  {
  }

  /** </function> right after v takes back v's last token when that is a blank or a newline. */
  lemma StripAtFunc(v: Tokens)
    requires |v| > 0 && (v[|v| - 1].Blank? || v[|v| - 1].Newline?)
    ensures var w := StripTrailingFunc(v + [FuncEnd]);
            w <= v && |w| < |v| && (v[|v| - 1].Newline? ==> w == v[..|v| - 1])
  {
    var w := v + [FuncEnd];
    TrimmedEndIs(w, |w|);
    assert w[..|w| - 1] == v;
    assert w[..TrailStart(w)] == v[..TrailStart(w)];
  }

  lemma ShownGrows(v: Tokens, b: Tokens)
    requires HasTrailingFunc(v) || !EndsLoosely(v)
    ensures Shown(v) <= Shown(v + b) && Shown(v) <= TrimNewlines(v + b)
  {
    hide TrimNewlines;
    if HasTrailingFunc(v) || |v| == 0 || !(v[|v| - 1].Blank? || v[|v| - 1].Newline?) {
      StripGrows(v, b);
      TrimGrows(StripTrailingFunc(v), StripTrailingFunc(v + b));
      assert StripTrailingFunc(v) <= v <= v + b;
      TrimGrows(StripTrailingFunc(v), v + b);
    } else {
      NewlineGrows(v, b);
    }
  }

  /** A single newline at the end was not shown, so losing it shows nothing less. */
  lemma NewlineGrows(v: Tokens, b: Tokens)
    requires !HasTrailingFunc(v) && !EndsLoosely(v) && |v| > 0 && v[|v| - 1].Newline?
    ensures Shown(v) <= Shown(v + b) && Shown(v) <= TrimNewlines(v + b)
  {
    var q := v[..|v| - 1];
    LastNewline(v);
    StripKeeps(v, b);
    hide HasTrailingFunc, TrimNewlines, StripTrailingFunc;
    TrimGrows(v, v + b);
    TrimGrows(q, StripTrailingFunc(v + b));
  }

  lemma LastNewline(v: Tokens)
    requires !EndsLoosely(v) && |v| > 0 && v[|v| - 1].Newline?
    ensures TrimNewlines(v) <= TrimNewlines(v[..|v| - 1])
  {
  }

  /** Stripping reaches at most the newline that ends v. */
  lemma StripKeeps(v: Tokens, b: Tokens)
    requires !HasTrailingFunc(v) && |v| > 0 && v[|v| - 1].Newline?
    ensures StripTrailingFunc(v) == v && v[..|v| - 1] <= StripTrailingFunc(v + b)
  {
    var w := v + b;
    if HasTrailingFunc(w) {
      var f := TrimmedEnd(w) - 1;
      if f < |v| {
        SameTrail(v, b, f);
      } else {
        assert w[..f][|v| - 1] == v[|v| - 1];
        assert BlankStart(w[..f]) >= |v|;
        assert TrailStart(w) >= |v| - 1;
        PrefixOfTake(v, b, TrailStart(w));
      }
    }
  }

  lemma PrefixOfTake(v: Tokens, b: Tokens, n: nat)
    requires |v| > 0 && |v| - 1 <= n <= |v + b|
    ensures v[..|v| - 1] <= (v + b)[..n]
  {
  }

  lemma StripGrows(v: Tokens, b: Tokens)
    requires HasTrailingFunc(v) || |v| == 0 || !(v[|v| - 1].Blank? || v[|v| - 1].Newline?)
    ensures StripTrailingFunc(v) <= StripTrailingFunc(v + b)
  {
    if HasTrailingFunc(v + b) {
      var f := TrimmedEnd(v + b) - 1;
      if f < |v| {
        SameTrail(v, b, f);
      } else {
        TrailAfter(v, b, f);
      }
    }
  }

  /** Nothing but white space was added after v's own </function> line. */
  lemma SameTrail(v: Tokens, b: Tokens, f: nat)
    requires HasTrailingFunc(v + b) && f == TrimmedEnd(v + b) - 1 && f < |v|
    ensures HasTrailingFunc(v) && StripTrailingFunc(v) == StripTrailingFunc(v + b)
  {
    var w := v + b;
    TrimmedPrefix(v, b, f);
    hide TrimmedEnd, AllSpace, BlankStart;
    assert v[..f] == w[..f];
    assert v[..TrailStart(v)] == w[..TrailStart(v)];
  }

  lemma TrimmedPrefix(v: Tokens, b: Tokens, f: nat)
    requires TrimmedEnd(v + b) == f + 1 <= |v|
    ensures TrimmedEnd(v) == f + 1
  {
    var w := v + b;
    assert forall i :: f + 1 <= i < |v| ==> v[i] == w[f + 1..][i - f - 1];
    TrimmedEndIs(v, f + 1);
  }

  /** A later </function> line starts no earlier than the last token of v that is neither blank nor newline. */
  lemma TrailAfter(v: Tokens, b: Tokens, f: nat)
    requires HasTrailingFunc(v) || |v| == 0 || !(v[|v| - 1].Blank? || v[|v| - 1].Newline?)
    requires HasTrailingFunc(v + b) && f == TrimmedEnd(v + b) - 1 && f >= |v|
    ensures StripTrailingFunc(v) <= StripTrailingFunc(v + b)
  {
    var w := v + b;
    var e := if HasTrailingFunc(v) then TrimmedEnd(v) else |v|;
    var s := BlankStart(w[..f]);
    assert TrimmedEnd(v) <= |v|;
    hide TrimmedEnd, BlankStart, AllSpace;
    assert e <= f && (e > 0 ==> w[..f][e - 1] == v[e - 1]);
    assert s >= e;
    assert s == e && e > 0 ==> !w[s - 1].Newline?;
    assert TrailStart(w) >= e;
  }

  // ----- the whole converter

  /** A value in progress without a name is not stored. */
  predicate IsStored(a: Arg) { a.ending != Unclosed || a.name != "" }

  /** The names and all stored values but the last are final; a last value that is stored stays so and is a prefix of
      what it becomes. */
  ghost predicate StoredExtends(p: seq<Arg>, q: seq<Arg>)
  {
    && |p| <= |q|
    && (forall i :: 0 <= i < |p| ==> q[i].name == p[i].name)
    && (forall i :: 0 <= i < |p| - 1 ==> IsStored(q[i]) == IsStored(p[i]) && Stored(q[i]) == Stored(p[i]))
    && (|p| > 0 && IsStored(p[|p| - 1]) ==> IsStored(q[|p| - 1]) && Stored(p[|p| - 1]) <= Stored(q[|p| - 1]))
  }

  lemma GrewStored(c: Arg, d: Arg)
    requires Grew(c, d) && (c.ending == Unclosed ==> ShownStable(c.raw))
    ensures Stored(c) <= Stored(d)
  {
    hide TrimNewlines, StripTrailingFunc;
    if d != c && c.ending == Closed {
      ClosedStored(c.raw, d.raw);
    } else if d != c {
      assert c.raw + d.raw[|c.raw|..] == d.raw;
    }
  }

  lemma ClosedStored(v: Tokens, w: Tokens)
    requires v + [Close] <= w
    ensures TrimNewlines(v) <= Shown(w) && TrimNewlines(v) <= TrimNewlines(w)
  {
    var c := v + [Close];
    assert c + w[|c|..] == w;
    TrimmedEndIs(c, |c|);
    StripGrows(c, w[|c|..]);
    TrimGrows(v, w);
    hide HasTrailingFunc;
    assert v <= StripTrailingFunc(w);
    hide *;
    TrimGrows(v, StripTrailingFunc(w));
    ShownIs(w);
  }

  lemma ShownIs(w: Tokens)
    ensures Shown(w) == TrimNewlines(StripTrailingFunc(w))
  {
  }

  /** A value left open stays open, one token longer, when </function> follows. */
  lemma FuncEndStaysInside(name: string, body: Tokens)
    requires CutBody(name, body).arg.ending == Unclosed
    ensures CutBody(name, body + [FuncEnd]).arg == Arg(name, body + [FuncEnd], Unclosed)
  {
    var b := [FuncEnd];
    FirstOpenIs(b, 1);
    FirstCloseIs(b, 1);
    FirstOpenConcat(body, b);
    FirstCloseConcat(body, b);
    forall k | 0 <= k < |body + b|
      ensures !RealCloseAt(body + b, k)
    {
      NoNewRealClose(body, k);
    }
    FirstRealCloseIs(body + b, |body + b|);
    hide FirstRealClose, RealCloseAt;
    if FirstOpen(body) < |body| {
      TakePrefix(body, b, FirstOpen(body));
    }
  }

  lemma NoNewRealClose(body: Tokens, k: nat)
    requires FirstRealClose(body) == |body| && k <= |body|
    ensures !RealCloseAt(body + [FuncEnd], k)
  {
    if k < |body| {
      assert !RealCloseAt(body, k);
      RealCloseConcat(body, [FuncEnd], k);
      if AllSpace(body[k + 1..]) {
        SpacesAreTail(body[k + 1..]);
      }
    }
  }

  /** The last argument of a text, when it is still open, takes a following </function> into its value. */
  lemma {:induction false} FuncEndJoinsLast(a: Tokens)
    requires |Parse(a)| > 0 && Parse(a)[|Parse(a)| - 1].ending == Unclosed
    ensures var p, q := Parse(a), Parse(a + [FuncEnd]);
            && |q| == |p| && q[|p| - 1] == Arg(p[|p| - 1].name, p[|p| - 1].raw + [FuncEnd], Unclosed)
    decreases |a|
  {
    hide *;
    var o, b := FirstOpen(a), [FuncEnd];
    if o == |a| {
      ParseNone(a);
    } else {
      var body, name := a[o + 1..], a[o].name;
      FirstOpenConcat(a, b);
      DropOfConcat(a, b, o + 1);
      CutGrows(name, body, b);
      var c, d := CutBody(name, body), CutBody(name, body + b);
      ParseSome(a, body, body[c.next..]);
      ParseSome(a + b, body + b, (body + b)[d.next..]);
      if c.arg.ending == Unclosed {
        FuncEndStaysInside(name, body);
        OpenTakesAll(name, body);
        OpenTakesAll(name, body + b);
        assert body[c.next..] == [] && (body + b)[d.next..] == [];
        NothingParses();
      } else {
        if d != c {
          NoMoreArgs(body, c);
        }
        DropOfConcat(body, b, c.next);
        FuncEndJoinsLast(body[c.next..]);
      }
    }
  }

  lemma OpenTakesAll(name: string, body: Tokens)
    requires CutBody(name, body).arg.ending == Unclosed
    ensures CutBody(name, body).next == |body| && CutBody(name, body).arg.raw == body
            && CutBody(name, body).arg.name == name
  {
  }

  lemma NothingParses()
    ensures Parse([]) == []
  {
  }

  /** What follows the last argument. */
  function Rest(a: Tokens): Tokens
    decreases |a|
  {
    if FirstOpen(a) == |a| then a else Rest(AfterFirst(a))
  }

  lemma RestStep(a: Tokens)
    ensures FirstOpen(a) == |a| ==> Rest(a) == a && Parse(a) == []
    ensures FirstOpen(a) < |a| ==>
              Rest(a) == Rest(AfterFirst(a)) && Parse(a) == [FirstCut(a).arg] + Parse(AfterFirst(a))
  {
    hide FirstOpen, FirstCut, AfterFirst;
  }

  lemma NoArgs(s: Tokens)
    requires Parse(s) == []
    ensures FirstOpen(s) == |s| && Rest(s) == s
  {
    hide FirstOpen, FirstCut, AfterFirst;
  }

  /** Cutting the first argument of a longer text: body and cut of both, and what is left. */
  lemma Cuts(a: Tokens, b: Tokens)
    requires FirstOpen(a) < |a|
    ensures FirstOpen(a + b) < |a + b|
    ensures var c, d := FirstCut(a), FirstCut(a + b);
            && d.arg.name == c.arg.name
            && (c.arg.ending == NextOpen ==> d.arg == c.arg && AfterFirst(a + b) == AfterFirst(a) + b)
            && (c.arg.ending == Closed && !AllSpace(AfterFirst(a)) ==>
                  d.arg == c.arg && AfterFirst(a + b) == AfterFirst(a) + b)
            && (c.arg.ending == Unclosed ==> AfterFirst(a) == [])
  {
    hide FirstOpen, CutBody, AllSpace, Grew;
    var o := FirstOpen(a);
    FirstOpenConcat(a, b);
    DropOfConcat(a, b, o + 1);
    CutGrows(a[o].name, a[o + 1..], b);
    DropOfConcat(a[o + 1..], b, FirstCut(a).next);
  }

  /** A last argument with more than white space after its </parameter> is final. */
  lemma {:induction false} ClosedStays(a: Tokens, b: Tokens)
    requires |Parse(a)| > 0 && Parse(a)[|Parse(a)| - 1].ending == Closed && !AllSpace(Rest(a))
    ensures var p, q := Parse(a), Parse(a + b); |q| >= |p| && q[|p| - 1] == p[|p| - 1]
    decreases |a|
  {
    hide *;
    RestStep(a);
    RestStep(a + b);
    Cuts(a, b);
    var after := AfterFirst(a);
    if Parse(after) == [] {
      NoArgs(after);
    } else {
      if AllSpace(after) {
        SpacesHaveNoArgs(after);
      }
      NothingParses();
      ClosedStays(after, b);
    }
  }

  /** Text after a last </parameter> that only white space followed makes it part of the value, which is open again. */
  lemma {:induction false} TextReopens(a: Tokens)
    requires |Parse(a)| > 0 && Parse(a)[|Parse(a)| - 1].ending == Closed && AllSpace(Rest(a))
    ensures var p, q := Parse(a), Parse(a + [Text('x')]);
            |q| == |p| && q[|p| - 1].ending == Unclosed && q[|p| - 1].name == p[|p| - 1].name
    decreases |a|
  {
    hide *;
    var b := [Text('x')];
    RestStep(a);
    RestStep(a + b);
    Cuts(a, b);
    var after := AfterFirst(a);
    if Parse(after) == [] {
      NoArgs(after);
      CutReopens(a);
      NothingParses();
    } else {
      if AllSpace(after) {
        SpacesHaveNoArgs(after);
      }
      NothingParses();
      TextReopens(after);
    }
  }

  lemma CutReopens(a: Tokens)
    requires FirstOpen(a) < |a| && FirstCut(a).arg.ending == Closed && AllSpace(AfterFirst(a))
    ensures var w := a + [Text('x')];
            FirstOpen(w) < |w| && FirstCut(w).arg.ending == Unclosed && AfterFirst(w) == []
  {
    hide FirstOpen, CutBody, AllSpace;
    var b, o := [Text('x')], FirstOpen(a);
    FirstOpenConcat(a, b);
    DropOfConcat(a, b, o + 1);
    TextInValue(a[o].name, a[o + 1..]);
  }

  lemma TextInValue(name: string, body: Tokens)
    requires var c := CutBody(name, body); c.arg.ending == Closed && AllSpace(body[c.next..])
    ensures CutBody(name, body + [Text('x')]) == Cut(Arg(name, body + [Text('x')], Unclosed), |body| + 1)
  {
    var b := [Text('x')];
    FirstOpenIs(b, 1);
    FirstCloseIs(b, 1);
    FirstOpenConcat(body, b);
    FirstCloseConcat(body, b);
    forall k | 0 <= k < |body + b|
      ensures !RealCloseAt(body + b, k)
    {
      TextBreaksClose(body, FirstRealClose(body), k);
    }
    FirstRealCloseIs(body + b, |body + b|);
    hide FirstRealClose, RealCloseAt;
    if FirstOpen(body) < |body| {
      TakePrefix(body, b, FirstOpen(body));
    }
  }

  lemma TextBreaksClose(body: Tokens, r: nat, k: nat)
    requires FirstRealClose(body) == r < |body| && AllSpace(body[r + 1..]) && k <= |body|
    ensures !RealCloseAt(body + [Text('x')], k)
  {
    var b := [Text('x')];
    if k < r {
      assert !RealCloseAt(body, k);
      RealCloseConcat(body, b, k);
      if AllSpace(body[k + 1..]) {
        SpacesAreTail(body[k + 1..]);
      }
    } else if k == r {
      SpacesThenText(body[r + 1..]);
      assert (body + b)[r + 1..] == body[r + 1..] + b;
    } else if k < |body| {
      assert body[k] == body[r + 1..][k - r - 1];
    }
  }

  lemma {:induction false} SpacesThenText(s: Tokens)
    requires AllSpace(s)
    ensures !RealTail(s + [Text('x')])
  {
    if |s| > 0 {
      SpacesThenText(s[1..]);
      assert (s + [Text('x')])[1..] == s[1..] + [Text('x')];
    }
  }

  lemma NotStoredAnyMore(p: seq<Arg>, q: seq<Arg>)
    requires |p| == |q| > 0 && IsStored(p[|p| - 1]) && !IsStored(q[|p| - 1])
    ensures !StoredExtends(p, q)
  {
    hide Stored;
  }

  lemma SameLast(p: seq<Arg>, q: seq<Arg>)
    requires Extends(p, q) && |p| > 0 && q[|p| - 1] == p[|p| - 1]
    ensures StoredExtends(p, q)
  {
    hide Stored;
  }

  /** The last argument does not end at a next one. */
  lemma {:induction false} LastEnds(a: Tokens)
    requires |Parse(a)| > 0
    ensures Parse(a)[|Parse(a)| - 1].ending != NextOpen
    decreases |a|
  {
    hide *;
    RestStep(a);
    CutNext(a);
    var after := AfterFirst(a);
    if Parse(after) == [] {
      NoArgs(after);
    } else {
      LastEnds(after);
    }
  }

  lemma CutNext(a: Tokens)
    requires FirstOpen(a) < |a|
    ensures FirstCut(a).arg.ending == NextOpen ==> AfterFirst(a) != [] && FirstOpen(AfterFirst(a)) == 0
  {
    hide AtLineStart, FirstRealClose, FirstClose;
  }

  lemma UnclosedStored(a: Arg)
    requires a.ending == Unclosed
    ensures Stored(a) == Shown(a.raw)
  {
  }
}
