/** What the patched parser guarantees for rendered calls: round trips, and no value left open by a closed call. */
module ToolCallTheorems {
  import opened ToolCalls

  // ----- searches over concatenations

  lemma FirstOpenIs(s: Tokens, i: nat)
    requires i <= |s| && (i < |s| ==> s[i].Open?) && forall k :: 0 <= k < i ==> !s[k].Open?
    ensures FirstOpen(s) == i
  {
  }

  lemma FirstCloseIs(s: Tokens, i: nat)
    requires i <= |s| && (i < |s| ==> s[i].Close?) && forall k :: 0 <= k < i ==> !s[k].Close?
    ensures FirstClose(s) == i
  {
  }

  lemma FirstRealCloseIs(s: Tokens, i: nat)
    requires i <= |s| && (i < |s| ==> RealCloseAt(s, i)) && forall k :: 0 <= k < i ==> !RealCloseAt(s, k)
    ensures FirstRealClose(s) == i
  {
  }

  lemma FirstOpenConcat(a: Tokens, b: Tokens)
    ensures FirstOpen(a + b) == if FirstOpen(a) < |a| then FirstOpen(a) else |a| + FirstOpen(b)
  {
    var i := if FirstOpen(a) < |a| then FirstOpen(a) else |a| + FirstOpen(b);
    hide FirstOpen;
    forall k | 0 <= k < i
      ensures !(a + b)[k].Open?
    {
      if k >= |a| {
        assert (a + b)[k] == b[k - |a|];
      }
    }
    FirstOpenIs(a + b, i);
  }

  lemma FirstCloseConcat(a: Tokens, b: Tokens)
    ensures FirstClose(a + b) == if FirstClose(a) < |a| then FirstClose(a) else |a| + FirstClose(b)
  {
    var i := if FirstClose(a) < |a| then FirstClose(a) else |a| + FirstClose(b);
    hide FirstClose;
    forall k | 0 <= k < i
      ensures !(a + b)[k].Close?
    {
      if k >= |a| {
        assert (a + b)[k] == b[k - |a|];
      }
    }
    FirstCloseIs(a + b, i);
  }

  /** The tail test looks past white space only. */
  lemma {:induction false} RealTailConcat(a: Tokens, b: Tokens)
    ensures RealTail(a + b) == if AllSpace(a) then RealTail(b) else RealTail(a)
  {
    if |a| == 0 {
      assert a + b == b;
    } else {
      assert (a + b)[1..] == a[1..] + b;
      if IsSpace(a[0]) {
        RealTailConcat(a[1..], b);
        assert AllSpace(a) <==> AllSpace(a[1..]) by {
          assert forall i :: 0 < i < |a| ==> a[i] == a[1..][i - 1];
        }
      }
    }
  }

  lemma {:induction false} SpacesAreTail(a: Tokens)
    requires AllSpace(a)
    ensures RealTail(a)
  {
    RealTailConcat(a, []);
    assert a + [] == a;
  }

  lemma RealCloseConcat(a: Tokens, b: Tokens, i: nat)
    requires i < |a|
    ensures RealCloseAt(a + b, i) == (a[i].Close? && if AllSpace(a[i + 1..]) then RealTail(b) else RealTail(a[i + 1..]))
  {
    assert (a + b)[i + 1..] == a[i + 1..] + b;
    RealTailConcat(a[i + 1..], b);
  }

  lemma TrimmedEndIs(s: Tokens, n: nat)
    requires n <= |s| && AllSpace(s[n..]) && (n > 0 ==> !IsSpace(s[n - 1]))
    ensures TrimmedEnd(s) == n
  {
  }

  lemma BlankStartIs(s: Tokens, n: nat)
    requires n <= |s| && (forall i :: n <= i < |s| ==> s[i].Blank?) && (n > 0 ==> !s[n - 1].Blank?)
    ensures BlankStart(s) == n
  {
  }

  // ----- which values survive a round trip

  /** Only white space between positions a and b. */
  predicate SpaceBetween(v: Tokens, a: int, b: int)
    requires -1 <= a && b <= |v|
  {
    forall k :: a < k < b ==> v[k].Newline? || v[k].Blank? || v[k].OtherSpace?
  }

  /** A newline with only blanks between it and position b. */
  predicate LineBefore(v: Tokens, b: int)
    requires b <= |v|
  {
    exists n :: 0 <= n < b && v[n].Newline? && forall k :: n < k < b ==> v[k].Blank?
  }

  /** A </parameter> in v is followed, after white space, by an opening tag or </function>. */
  predicate QuotesAnEnd(v: Tokens)
  {
    exists i, j :: 0 <= i < j < |v| && v[i].Close? && (v[j].Open? || v[j].FuncEnd?) && SpaceBetween(v, i, j)
  }

  /** v's first tag of the two kinds is an opening tag at the start of a line. */
  predicate OpensALine(v: Tokens)
  {
    exists o :: 0 <= o < |v| && v[o].Open? && (forall k :: 0 <= k < o ==> !v[k].Open? && !v[k].Close?)
                && LineBefore(v, o)
  }

  /** A </function> on its own line in v is followed, after white space, by </tool_call>. */
  predicate QuotesACallEnd(v: Tokens)
  {
    exists f, i :: 0 <= f < i < |v| && v[f].FuncEnd? && v[i].ToolEnd? && SpaceBetween(v, f, i) && LineBefore(v, f)
  }

  /** The parser's line test finds that newline. */
  lemma {:induction false} LineStartIff(s: Tokens)
    ensures AtLineStart(s) <==> LineBefore(s, |s|)
  {
    if |s| > 0 {
      var n := |s| - 1;
      var rest := s[..n];
      LineStartIff(rest);
      if s[n].Blank? {
        if LineBefore(rest, n) {
          var k :| 0 <= k < n && rest[k].Newline? && forall i :: k < i < n ==> rest[i].Blank?;
          assert s[k].Newline? && forall i :: k < i < n ==> s[i] == rest[i];
        }
        if LineBefore(s, |s|) {
          var k :| 0 <= k < |s| && s[k].Newline? && forall i :: k < i < |s| ==> s[i].Blank?;
          assert rest[k].Newline? && forall i :: k < i < n ==> rest[i] == s[i];
        }
      } else if LineBefore(s, |s|) {
        var k :| 0 <= k < |s| && s[k].Newline? && forall i :: k < i < |s| ==> s[i].Blank?;
        assert k == n;
      }
    }
  }

  lemma LineOfTake(v: Tokens, b: nat)
    requires b <= |v|
    ensures LineBefore(v[..b], b) <==> LineBefore(v, b)
  {
    if LineBefore(v[..b], b) {
      var n :| 0 <= n < b && v[..b][n].Newline? && forall k :: n < k < b ==> v[..b][k].Blank?;
      assert v[n].Newline? && forall k :: n < k < b ==> v[k] == v[..b][k];
    }
    if LineBefore(v, b) {
      var n :| 0 <= n < b && v[n].Newline? && forall k :: n < k < b ==> v[k].Blank?;
      assert v[..b][n].Newline? && forall k :: n < k < b ==> v[..b][k] == v[k];
    }
  }

  lemma OpensALineIff(v: Tokens)
    ensures OpensALine(v) <==>
              FirstOpen(v) < |v| && FirstOpen(v) < FirstClose(v) && AtLineStart(v[..FirstOpen(v)])
  {
    hide AtLineStart, FirstOpen, FirstClose, LineBefore;
    var o := FirstOpen(v);
    LineStartIff(v[..o]);
    LineOfTake(v, o);
    if OpensALine(v) {
      var p :| 0 <= p < |v| && v[p].Open? && (forall k :: 0 <= k < p ==> !v[k].Open? && !v[k].Close?)
               && LineBefore(v, p);
      FirstOpenIs(v, p);
      assert p <= FirstClose(v) && p != FirstClose(v);
    }
  }

  /** The tail test finds the first token that is not white space, if there is one. */
  lemma {:induction false} RealTailIff(s: Tokens)
    ensures RealTail(s) <==>
              exists k :: 0 <= k <= |s| && SpaceBetween(s, -1, k) && (k == |s| || s[k].Open? || s[k].FuncEnd?)
  {
    if |s| > 0 && IsSpace(s[0]) {
      var rest := s[1..];
      RealTailIff(rest);
      if RealTail(rest) {
        var k :| 0 <= k <= |rest| && SpaceBetween(rest, -1, k) && (k == |rest| || rest[k].Open? || rest[k].FuncEnd?);
        assert forall i :: 0 < i < k + 1 ==> s[i] == rest[i - 1];
        assert SpaceBetween(s, -1, k + 1);
      }
      if k :| 0 <= k <= |s| && SpaceBetween(s, -1, k) && (k == |s| || s[k].Open? || s[k].FuncEnd?) {
        assert k > 0 && forall i :: 0 <= i < k - 1 ==> rest[i] == s[i + 1];
        assert SpaceBetween(rest, -1, k - 1);
      }
    } else {
      assert SpaceBetween(s, -1, 0);
      if k :| 0 <= k <= |s| && SpaceBetween(s, -1, k) && (k == |s| || s[k].Open? || s[k].FuncEnd?) {
        assert k == 0;
      }
    }
  }

  lemma QuotesAnEndIff(v: Tokens)
    ensures QuotesAnEnd(v) <==>
              exists i {:trigger v[i]} :: 0 <= i < |v| && v[i].Close? && !AllSpace(v[i + 1..]) && RealTail(v[i + 1..])
  {
    forall i | 0 <= i < |v|
      ensures QuotedAt(v, i) <==> !AllSpace(v[i + 1..]) && RealTail(v[i + 1..])
    {
      QuotedTail(v, i);
    }
    hide AllSpace, RealTail, SpaceBetween;
    if QuotesAnEnd(v) {
      var i, j :| 0 <= i < j < |v| && v[i].Close? && (v[j].Open? || v[j].FuncEnd?) && SpaceBetween(v, i, j);
      assert QuotedAt(v, i);
    }
    if i :| 0 <= i < |v| && v[i].Close? && !AllSpace(v[i + 1..]) && RealTail(v[i + 1..]) {
      assert QuotedAt(v, i);
    }
  }

  predicate QuotedAt(v: Tokens, i: nat)
    requires i < |v|
  {
    exists j :: i < j < |v| && (v[j].Open? || v[j].FuncEnd?) && SpaceBetween(v, i, j)
  }

  lemma QuotedTail(v: Tokens, i: nat)
    requires i < |v|
    ensures QuotedAt(v, i) <==> !AllSpace(v[i + 1..]) && RealTail(v[i + 1..])
  {
    var t := v[i + 1..];
    RealTailIff(t);
    hide RealTail;
    assert forall k :: 0 <= k < |t| ==> t[k] == v[i + 1 + k];
    if QuotedAt(v, i) {
      var j :| i < j < |v| && (v[j].Open? || v[j].FuncEnd?) && SpaceBetween(v, i, j);
      assert t[j - i - 1] == v[j] && SpaceBetween(t, -1, j - i - 1);
    }
    if !AllSpace(t) && RealTail(t) {
      var k :| 0 <= k <= |t| && SpaceBetween(t, -1, k) && (k == |t| || t[k].Open? || t[k].FuncEnd?);
      assert k < |t|;
      assert forall x :: i < x < i + 1 + k ==> v[x] == t[x - i - 1];
      assert SpaceBetween(v, i, i + 1 + k);
    }
  }

  /** u ends in a </function> alone on its line, after a newline of its own. */
  predicate EndsInnerFuncLine(u: Tokens)
  {
    HasTrailingFunc(u) && StartsInnerLine(u, TrimmedEnd(u) - 1)
  }

  predicate StartsInnerLine(u: Tokens, m: nat)
    requires m <= |u|
  {
    var b := BlankStart(u[..m]);
    b > 0 && u[b - 1].Newline?
  }

  lemma InnerLineIff(u: Tokens, m: nat)
    requires m <= |u|
    ensures StartsInnerLine(u, m) <==> LineBefore(u, m)
  {
    var b := BlankStart(u[..m]);
    hide BlankStart;
    assert forall k :: b <= k < m ==> u[k] == u[..m][k];
    assert b > 0 ==> u[b - 1] == u[..m][b - 1];
    if LineBefore(u, m) {
      var n :| 0 <= n < m && u[n].Newline? && forall k :: n < k < m ==> u[k].Blank?;
      assert n == b - 1;
    }
  }

  lemma QuotesACallEndIff(v: Tokens)
    ensures QuotesACallEnd(v) <==>
              exists i {:trigger v[i]} :: 0 <= i < |v| && v[i].ToolEnd? && EndsInnerFuncLine(v[..i])
  {
    forall i | 0 <= i < |v|
      ensures EndsInnerFuncLine(v[..i]) <==> CallEndAt(v, i)
    {
      InnerFuncLineIff(v, i);
    }
    hide EndsInnerFuncLine, SpaceBetween, LineBefore;
    if QuotesACallEnd(v) {
      var f, i :| 0 <= f < i < |v| && v[f].FuncEnd? && v[i].ToolEnd? && SpaceBetween(v, f, i) && LineBefore(v, f);
      assert CallEndAt(v, i);
    }
  }

  predicate CallEndAt(v: Tokens, i: nat)
    requires i <= |v|
  {
    exists f :: 0 <= f < i && v[f].FuncEnd? && SpaceBetween(v, f, i) && LineBefore(v, f)
  }

  lemma TrimmedTail(s: Tokens)
    ensures forall k :: TrimmedEnd(s) <= k < |s| ==> IsSpace(s[k])
  {
    var n := TrimmedEnd(s);
    hide TrimmedEnd, IsSpace;
    forall k | n <= k < |s|
      ensures IsSpace(s[k])
    {
      assert s[n..][k - n] == s[k];
    }
  }

  lemma InnerFuncLineIff(v: Tokens, i: nat)
    requires i <= |v|
    ensures EndsInnerFuncLine(v[..i]) <==> CallEndAt(v, i)
  {
    var u := v[..i];
    var f := TrimmedEnd(u) - 1;
    assert forall k :: 0 <= k < i ==> u[k] == v[k];
    TrimmedTail(u);
    hide TrimmedEnd, LineBefore, StartsInnerLine;
    if f >= 0 {
      InnerLineIff(u, f);
      LineOfTake(u, f);
      LineOfTake(v, f);
      assert u[..f] == v[..f];
    }
    if CallEndAt(v, i) {
      var g :| 0 <= g < i && v[g].FuncEnd? && SpaceBetween(v, g, i) && LineBefore(v, g);
      assert g == f;
    }
  }

  predicate Clean(v: Tokens)
  {
    !QuotesAnEnd(v) && !OpensALine(v) && !QuotesACallEnd(v)
  }

  datatype Param = Param(name: string, value: Tokens, sep: Tokens)

  predicate Spaced(ps: seq<Param>)
  {
    forall i :: 0 <= i < |ps| ==> AllSpace(ps[i].sep)
  }

  function RenderOne(p: Param): Tokens
  {
    [Open(p.name)] + (p.value + ([Close] + p.sep))
  }

  function Render(ps: seq<Param>): Tokens
  {
    if |ps| == 0 then [] else RenderOne(ps[0]) + Render(ps[1..])
  }

  function Args(ps: seq<Param>): (r: seq<Arg>)
    ensures |r| == |ps| && forall i :: 0 <= i < |ps| ==> r[i] == Arg(ps[i].name, ps[i].value, Closed)
  {
    seq(|ps|, i requires 0 <= i < |ps| => Arg(ps[i].name, ps[i].value, Closed))
  }

  // ----- converter on one rendered argument

  /** After a value comes its own </parameter>, white space, and then the end or another argument. */
  lemma TailAfterValue(sep: Tokens, rest: Tokens)
    requires AllSpace(sep) && (|rest| == 0 || rest[0].Open?)
    ensures RealTail(sep + rest)
  {
    RealTailConcat(sep, rest);
  }

  lemma CutRendered(name: string, v: Tokens, sep: Tokens, rest: Tokens)
    requires AllSpace(sep) && (|rest| == 0 || rest[0].Open?)
    ensures var c := CutBody(name, v + ([Close] + (sep + rest)));
            if Parses(v) then c == Cut(Arg(name, v, Closed), |v| + 1) else |c.arg.raw| < |v|
  {
    var w := [Close] + (sep + rest);
    if OpensALine(v) {
      CutAtOpen(name, v, w);
    } else if QuotesAnEnd(v) {
      CutAtQuote(name, v, w);
    } else {
      TailAfterValue(sep, rest);
      assert w[1..] == sep + rest;
      CutWhole(name, v, w);
    }
  }

  /** An opening tag that starts a line of the value ends it there. */
  lemma CutAtOpen(name: string, v: Tokens, w: Tokens)
    requires OpensALine(v) && |w| > 0 && w[0].Close?
    ensures |CutBody(name, v + w).arg.raw| < |v|
  {
    var body := v + w;
    OpensALineIff(v);
    FirstOpenConcat(v, w);
    FirstCloseConcat(v, w);
    assert body[..FirstOpen(body)] == v[..FirstOpen(v)];
    hide OpensALine, AtLineStart;
  }

  /** So does a quoted closing tag that passes for the real one. */
  lemma CutAtQuote(name: string, v: Tokens, w: Tokens)
    requires !OpensALine(v) && QuotesAnEnd(v) && |w| > 0 && w[0].Close?
    ensures |CutBody(name, v + w).arg.raw| < |v|
  {
    OpenNotFirst(v, w);
    QuotesAnEndIff(v);
    var i :| 0 <= i < |v| && v[i].Close? && !AllSpace(v[i + 1..]) && RealTail(v[i + 1..]);
    RealCloseConcat(v, w, i);
    hide RealTail, AllSpace, AtLineStart;
  }

  /** Otherwise the value ends where the rendered closing tag stands. */
  lemma CutWhole(name: string, v: Tokens, w: Tokens)
    requires Parses(v) && |w| > 0 && w[0].Close? && RealTail(w[1..])
    ensures CutBody(name, v + w) == Cut(Arg(name, v, Closed), |v| + 1)
  {
    var body := v + w;
    OpenNotFirst(v, w);
    RealCloseOfRendered(v, w);
    assert body[|v| + 1..] == w[1..];
    assert RealCloseAt(body, |v|);
    FirstRealCloseIs(body, |v|);
    assert body[..|v|] == v;
    hide RealTail, AtLineStart, RealCloseAt, QuotesAnEnd, OpensALine;
  }

  /** Unless v opens a line, no opening tag of the body starts the next argument. */
  lemma OpenNotFirst(v: Tokens, w: Tokens)
    requires !OpensALine(v) && |w| > 0 && w[0].Close?
    ensures var body := v + w;
            !(FirstOpen(body) < |body| && FirstOpen(body) < FirstClose(body) && AtLineStart(body[..FirstOpen(body)]))
  {
    OpensALineIff(v);
    hide OpensALine, AtLineStart;
    FirstOpenConcat(v, w);
    FirstCloseConcat(v, w);
    FirstCloseIs(w, 0);
    if FirstOpen(v) < |v| {
      assert (v + w)[..FirstOpen(v)] == v[..FirstOpen(v)];
    }
  }

  /** No </parameter> inside v is the real one. */
  lemma RealCloseOfRendered(v: Tokens, w: Tokens)
    requires !QuotesAnEnd(v) && |w| > 0 && w[0].Close?
    ensures forall i :: 0 <= i < |v| ==> !RealCloseAt(v + w, i)
  {
    QuotesAnEndIff(v);
    hide QuotesAnEnd;
    forall i | 0 <= i < |v|
      ensures !RealCloseAt(v + w, i)
    {
      RealCloseConcat(v, w, i);
    }
  }

  predicate Parses(v: Tokens)
  {
    !QuotesAnEnd(v) && !OpensALine(v)
  }

  lemma RenderStartsOpen(ps: seq<Param>)
    ensures |Render(ps)| == 0 || Render(ps)[0].Open?
  {
  }

  /** The text of a rendered call around its first argument. */
  lemma FirstBody(lead: Tokens, ps: seq<Param>)
    requires AllSpace(lead) && |ps| > 0
    ensures var body := ps[0].value + ([Close] + (ps[0].sep + Render(ps[1..])));
            var s := lead + Render(ps);
            FirstOpen(s) == |lead| < |s| && s[|lead|] == Open(ps[0].name) && s[|lead| + 1..] == body
  {
    var body := ps[0].value + ([Close] + (ps[0].sep + Render(ps[1..])));
    RenderOneConcat(ps[0], Render(ps[1..]));
    AfterLead(lead, Open(ps[0].name), body);
    FirstOpenIs(lead + ([Open(ps[0].name)] + body), |lead|);
  }

  lemma RenderOneConcat(p: Param, rest: Tokens)
    ensures RenderOne(p) + rest == [Open(p.name)] + (p.value + ([Close] + (p.sep + rest)))
  {
    Associate(p.value, [Close] + p.sep, rest);
  }

  lemma Associate(a: Tokens, b: Tokens, c: Tokens)
    ensures (a + b) + c == a + (b + c)
  {
  }

  lemma AfterLead(lead: Tokens, c: Token, body: Tokens)
    ensures var s := lead + ([c] + body);
            s[|lead|] == c && s[|lead| + 1..] == body && forall k :: 0 <= k < |lead| ==> s[k] == lead[k]
  {
  }

  /** Parsing after leading white space: the first rendered argument is cut, and parsing resumes after its end tag. */
  lemma ParseFirst(lead: Tokens, ps: seq<Param>)
    requires AllSpace(lead) && |ps| > 0 && Spaced(ps)
    ensures if Parses(ps[0].value)
            then Parse(lead + Render(ps)) == [Arg(ps[0].name, ps[0].value, Closed)] + Parse(ps[0].sep + Render(ps[1..]))
            else |Parse(lead + Render(ps))| > 0 && Parse(lead + Render(ps))[0].raw != ps[0].value
  {
    var p, rest := ps[0], Render(ps[1..]);
    var body := p.value + ([Close] + (p.sep + rest));
    FirstBody(lead, ps);
    RenderStartsOpen(ps[1..]);
    assert AllSpace(p.sep);
    hide *;
    CutRendered(p.name, p.value, p.sep, rest);
    ParseSome(lead + Render(ps), body, body[CutBody(p.name, body).next..]);
    DropValue(p.value, p.sep + rest);
  }

  lemma DropValue(v: Tokens, w: Tokens)
    ensures (v + ([Close] + w))[|v| + 1..] == w
  {
  }

  lemma SameHead<T>(a: T, t: seq<T>, u: seq<T>)
    ensures [a] + t == [a] + u <==> t == u
  {
    assert ([a] + t)[1..] == t && ([a] + u)[1..] == u;
  }

  lemma ArgsCons(ps: seq<Param>)
    requires |ps| > 0
    ensures Args(ps) == [Arg(ps[0].name, ps[0].value, Closed)] + Args(ps[1..])
    ensures Args(ps)[0].raw == ps[0].value
  {
  }

  predicate AllParse(ps: seq<Param>)
  {
    forall i :: 0 <= i < |ps| ==> Parses(ps[i].value)
  }

  lemma AllParseCons(ps: seq<Param>)
    requires |ps| > 0
    ensures AllParse(ps) <==> Parses(ps[0].value) && AllParse(ps[1..])
  {
  }

  /** Parsing a rendered call gives back its arguments exactly when every value parses. */
  lemma {:induction false} ParseRenderIff(lead: Tokens, ps: seq<Param>)
    requires AllSpace(lead) && Spaced(ps)
    ensures Parse(lead + Render(ps)) == Args(ps) <==> AllParse(ps)
    decreases |ps|
  {
    if |ps| == 0 {
      FirstOpenIs(lead + Render(ps), |lead|);
      assert Parse(lead + Render(ps)) == [] == Args(ps);
    } else {
      ParseFirst(lead, ps);
      ArgsCons(ps);
      AllParseCons(ps);
      assert Spaced(ps[1..]);
      ParseRenderIff(ps[0].sep, ps[1..]);
      hide Parse, Render, Parses, AllParse, Args;
      SameHead(Arg(ps[0].name, ps[0].value, Closed), Parse(ps[0].sep + Render(ps[1..])), Args(ps[1..]));
    }
  }

  // ----- the guard over a rendered call

  /** No token of t closes a call whose argument text before t is x. */
  predicate Stays(x: Tokens, t: Tokens)
  {
    forall i {:trigger t[i]} :: 0 <= i < |t| ==> !Closes(x + t[..i], t[i])
  }

  lemma LeftIndex(a: Tokens, b: Tokens, i: nat)
    requires i < |a|
    ensures (a + b)[i] == a[i] && (a + b)[..i] == a[..i]
  {
  }

  lemma RightIndex(x: Tokens, a: Tokens, b: Tokens, i: nat)
    requires i < |b|
    ensures (a + b)[|a| + i] == b[i] && x + (a + b)[..|a| + i] == (x + a) + b[..i]
  {
    assert (a + b)[..|a| + i] == a + b[..i];
  }

  lemma StaysConcat(x: Tokens, a: Tokens, b: Tokens)
    ensures Stays(x, a + b) <==> Stays(x, a) && Stays(x + a, b)
  {
    hide Closes;
    if Stays(x, a + b) {
      StaysSplit(x, a, b);
    }
    if Stays(x, a) && Stays(x + a, b) {
      forall i | 0 <= i < |a + b|
        ensures !Closes(x + (a + b)[..i], (a + b)[i])
      {
        if i < |a| {
          LeftIndex(a, b, i);
          assert !Closes(x + a[..i], a[i]);
        } else {
          RightIndex(x, a, b, i - |a|);
          assert !Closes((x + a) + b[..i - |a|], b[i - |a|]);
        }
      }
    }
  }

  lemma StaysSplit(x: Tokens, a: Tokens, b: Tokens)
    requires Stays(x, a + b)
    ensures Stays(x, a) && Stays(x + a, b)
  {
    hide Closes;
    forall i | 0 <= i < |a|
      ensures !Closes(x + a[..i], a[i])
    {
      LeftIndex(a, b, i);
      assert !Closes(x + (a + b)[..i], (a + b)[i]);
    }
    forall i | 0 <= i < |b|
      ensures !Closes((x + a) + b[..i], b[i])
    {
      RightIndex(x, a, b, i);
      assert !Closes(x + (a + b)[..|a| + i], (a + b)[|a| + i]);
    }
  }

  lemma StaysOne(x: Tokens, c: Token)
    ensures Stays(x, [c]) <==> !Closes(x, c)
  {
    hide Closes;
    assert x + [c][..0] == x;
    assert [c][0] == c;
  }

  /** Fed inside a call: everything is argument text, or the call closed on the way with less than that. */
  lemma {:induction false} FeedInside(t: Tokens)
    ensures Stays([], t) ==> AdvanceAll(START, t) == Stream(true, t, [])
    ensures !Stays([], t) ==> !AdvanceAll(START, t).inArgs && |AdvanceAll(START, t).args| < |t|
  {
    if |t| > 0 {
      var a, c := t[..|t| - 1], t[|t| - 1];
      assert t == a + [c] && [] + a == a;
      assert AdvanceAll(START, t) == Advance(AdvanceAll(START, a), c);
      hide Closes, Stays, AdvanceAll;
      FeedInside(a);
      StaysConcat([], a, [c]);
      StaysOne(a, c);
    }
  }

  /** Trimming what follows an opening tag never reaches past the tag. */
  lemma TrimAfterOpen(x: Tokens, name: string, u: Tokens)
    ensures var s := x + [Open(name)] + u;
            TrimmedEnd(s) == |x| + 1 + TrimmedEnd(u)
    ensures HasTrailingFunc(x + [Open(name)] + u) <==> HasTrailingFunc(u)
    ensures EndsClosed(x + [Open(name)] + u) <==> EndsClosed(u)
  {
    var s, n := x + [Open(name)] + u, TrimmedEnd(u);
    assert s[|x| + 1 + n..] == u[n..];
    TrimmedEndIs(s, |x| + 1 + n);
  }

  lemma BlanksAfterOpen(x: Tokens, name: string, u: Tokens)
    ensures BlankStart(x + [Open(name)] + u) == |x| + 1 + BlankStart(u)
  {
    var s, n := x + [Open(name)] + u, BlankStart(u);
    assert forall i :: |x| + 1 + n <= i < |s| ==> s[i] == u[i - |x| - 1];
    BlankStartIs(s, |x| + 1 + n);
  }

  /** Inside a value, the guard's tests see the value only. */
  lemma GuardSeesValue(x: Tokens, name: string, u: Tokens)
    ensures FuncEndCloses(x + [Open(name)] + u) <==> EndsClosed(u)
    ensures EndsFuncLine(x + [Open(name)] + u) <==> EndsInnerFuncLine(u)
  {
    var s := x + [Open(name)] + u;
    assert s[|x|] == Open(name);
    assert !AllSpace(s);
    TrimAfterOpen(x, name, u);
    hide TrimmedEnd, BlankStart, EndsClosed, HasTrailingFunc, AllSpace, StartsLine, StartsInnerLine;
    if HasTrailingFunc(u) {
      LineSeesValue(x, name, u, TrimmedEnd(u) - 1);
    }
  }

  lemma LineSeesValue(x: Tokens, name: string, u: Tokens, m: nat)
    requires m <= |u|
    ensures StartsLine(x + [Open(name)] + u, |x| + 1 + m) <==> StartsInnerLine(u, m)
  {
    hide BlankStart;
    PrefixAfterOpen(x, name, u, m);
    BlanksAfterOpen(x, name, u[..m]);
    var b := BlankStart(u[..m]);
    if b == 0 {
      assert (x + [Open(name)] + u)[|x|] == Open(name);
    } else {
      assert (x + [Open(name)] + u)[|x| + b] == u[b - 1];
    }
  }

  lemma PrefixAfterOpen(x: Tokens, name: string, u: Tokens, n: nat)
    requires n <= |u|
    ensures (x + [Open(name)] + u)[..|x| + 1 + n] == x + [Open(name)] + u[..n]
  {
  }

  /** A </function> that closes a call inside a value means the value quotes an argument's end. */
  lemma FuncEndAfterClose(v: Tokens, i: nat)
    requires i < |v| && v[i].FuncEnd? && EndsClosed(v[..i])
    ensures QuotesAnEnd(v)
  {
    hide QuotesAnEnd, AllSpace, TrimmedEnd;
    var e := TrimmedEnd(v[..i]);
    TakeDrop(v, e, i);
    RealTailConcat(v[e..i], v[i..]);
    NotSpaceAt(v[e..], i - e);
    assert v[i..][0] == v[i] && v[e - 1] == v[..i][e - 1];
    ShowQuotesAnEnd(v, e - 1);
  }

  lemma TakeDrop(v: Tokens, e: nat, i: nat)
    requires e <= i <= |v|
    ensures v[..i][e..] == v[e..i] && v[e..] == v[e..i] + v[i..]
  {
  }

  lemma NotSpaceAt(s: Tokens, k: nat)
    requires k < |s| && !IsSpace(s[k])
    ensures !AllSpace(s)
  {
  }

  lemma ShowQuotesAnEnd(v: Tokens, i: nat)
    requires i < |v| && v[i].Close? && !AllSpace(v[i + 1..]) && RealTail(v[i + 1..])
    ensures QuotesAnEnd(v)
  {
    QuotesAnEndIff(v);
    hide QuotesAnEnd, AllSpace, RealTail;
  }

  /** A clean value stays inside the call; a value that quotes the call's end does not. */
  lemma ValueStays(x: Tokens, name: string, v: Tokens)
    ensures Clean(v) ==> Stays(x + [Open(name)], v)
    ensures Stays(x + [Open(name)], v) ==> !QuotesACallEnd(v)
  {
    forall i | 0 <= i < |v|
      ensures Closes(x + [Open(name)] + v[..i], v[i]) <==>
              (v[i].FuncEnd? && EndsClosed(v[..i])) || (v[i].ToolEnd? && EndsInnerFuncLine(v[..i]))
    {
      GuardSeesValue(x, name, v[..i]);
    }
    QuotesACallEndIff(v);
    hide Closes, EndsInnerFuncLine, EndsClosed, QuotesAnEnd, OpensALine, QuotesACallEnd;
    if Clean(v) {
      forall i | 0 <= i < |v|
        ensures !Closes(x + [Open(name)] + v[..i], v[i])
      {
        if v[i].FuncEnd? && EndsClosed(v[..i]) {
          FuncEndAfterClose(v, i);
        }
      }
    }
  }

  lemma OneStays(x: Tokens, p: Param)
    requires AllSpace(p.sep)
    ensures Stays(x, RenderOne(p)) <==> Stays(x + [Open(p.name)], p.value)
  {
    StaysConcat(x, [Open(p.name)], p.value + ([Close] + p.sep));
    StaysConcat(x + [Open(p.name)], p.value, [Close] + p.sep);
  }

  /** The guard keeps a rendered call open when all values are clean; if it does, no value quotes the call's end. */
  lemma {:induction false} RenderStays(x: Tokens, ps: seq<Param>)
    requires Spaced(ps)
    ensures (forall i :: 0 <= i < |ps| ==> Clean(ps[i].value)) ==> Stays(x, Render(ps))
    ensures Stays(x, Render(ps)) ==> forall i :: 0 <= i < |ps| ==> !QuotesACallEnd(ps[i].value)
    decreases |ps|
  {
    if |ps| > 0 {
      assert Render(ps) == RenderOne(ps[0]) + Render(ps[1..]);
      hide Closes, RenderOne, Render, Clean, QuotesACallEnd, Stays;
      StaysConcat(x, RenderOne(ps[0]), Render(ps[1..]));
      OneStays(x, ps[0]);
      ValueStays(x, ps[0].name, ps[0].value);
      assert Spaced(ps[1..]);
      RenderStays(x + RenderOne(ps[0]), ps[1..]);
      assert forall i :: 0 < i < |ps| ==> ps[i] == ps[1..][i - 1];
    }
  }

  lemma OneCloses(x: Tokens, p: Param)
    requires AllSpace(p.sep)
    ensures FuncEndCloses(x + RenderOne(p))
  {
    var y := x + RenderOne(p);
    var n := |y| - |p.sep|;
    assert y[n..] == p.sep && y[n - 1] == Close;
    TrimmedEndIs(y, n);
  }

  /** The call's own </function> closes it. */
  lemma {:induction false} RenderCloses(x: Tokens, ps: seq<Param>)
    requires Spaced(ps) && FuncEndCloses(x)
    ensures FuncEndCloses(x + Render(ps))
    decreases |ps|
  {
    if |ps| == 0 {
      assert x + Render(ps) == x;
    } else {
      assert x + Render(ps) == (x + RenderOne(ps[0])) + Render(ps[1..]);
      assert Spaced(ps[1..]);
      hide Render, RenderOne, FuncEndCloses;
      OneCloses(x, ps[0]);
      RenderCloses(x + RenderOne(ps[0]), ps[1..]);
    }
  }

  /** Feeding a rendered call and its </function>, then parsing the argument text: nothing leaks, nothing is lost. */
  predicate RoundTrips(lead: Tokens, ps: seq<Param>)
  {
    var text := lead + Render(ps);
    AdvanceAll(START, text + [FuncEnd]) == Stream(false, text, []) && Parse(text) == Args(ps)
  }

  /** A call round-trips exactly when every value is clean, for any names, separators and number of arguments. */
  lemma RoundTripIff(lead: Tokens, ps: seq<Param>)
    requires AllSpace(lead) && Spaced(ps)
    ensures RoundTrips(lead, ps) <==> forall i :: 0 <= i < |ps| ==> Clean(ps[i].value)
  {
    var text := lead + Render(ps);
    FeedInside(text);
    assert (text + [FuncEnd])[..|text|] == text;
    StaysConcat([], lead, Render(ps));
    assert [] + lead == lead;
    assert Stays([], lead);
    RenderStays(lead, ps);
    RenderCloses(lead, ps);
    ParseRenderIff(lead, ps);
    assert (forall i :: 0 <= i < |ps| ==> Clean(ps[i].value)) <==>
           AllParse(ps) && forall i :: 0 <= i < |ps| ==> !QuotesACallEnd(ps[i].value) by {
      hide QuotesAnEnd, OpensALine, QuotesACallEnd;
    }
    hide Render, Parse, Stays, Clean, AllParse, QuotesACallEnd, AllSpace, EndsClosed, EndsFuncLine;
    assert AdvanceAll(START, text + [FuncEnd]) == Advance(AdvanceAll(START, text), FuncEnd);
  }

  // ----- calls that </function> closed

  /** The first cut of a text that ends closed is not left open, and what follows it ends closed again. */
  lemma CutOfClosed(name: string, body: Tokens)
    requires EndsClosed(body)
    ensures var c := CutBody(name, body);
            c.arg.ending != Unclosed && FuncEndCloses(body[c.next..])
  {
    LastCloseIsReal(body);
    var c := CutBody(name, body);
    if c.arg.ending == NextOpen {
      EndsClosedSuffix(body, c.next, c.next);
    } else {
      ClosesAfterReal(body, c.next);
    }
  }

  /** A call that </function> closed never leaves a value unclosed. */
  lemma {:induction false} ClosedCallHasNoOpenValue(s: Tokens)
    requires FuncEndCloses(s)
    ensures forall i :: 0 <= i < |Parse(s)| ==> Parse(s)[i].ending != Unclosed
    decreases |s|
  {
    hide *;
    var o := FirstOpen(s);
    if o == |s| {
      ParseNone(s);
    } else {
      var body := s[o + 1..];
      NotAllSpace(s, o);
      EndsClosedSuffix(s, o, o + 1);
      CutOfClosed(s[o].name, body);
      var c := CutBody(s[o].name, body);
      ParseSome(s, body, body[c.next..]);
      ClosedCallHasNoOpenValue(body[c.next..]);
    }
  }

  lemma NotAllSpace(s: Tokens, k: nat)
    requires k < |s| && s[k].Open? && FuncEndCloses(s)
    ensures EndsClosed(s) && !IsSpace(s[k])
  {
  }

  /** Cutting at or after a non-space, non-closing token keeps the closing end. */
  lemma EndsClosedSuffix(s: Tokens, k: nat, n: nat)
    requires EndsClosed(s) && k < |s| && !IsSpace(s[k]) && !s[k].Close? && k <= n <= k + 1
    ensures n <= |s| && EndsClosed(s[n..])
  {
  }

  /** The </parameter> that ends a text is real. */
  lemma LastCloseIsReal(s: Tokens)
    requires EndsClosed(s)
    ensures FirstRealClose(s) < |s|
  {
    var e := TrimmedEnd(s);
    SpacesAreTail(s[e..]);
    assert RealCloseAt(s, e - 1);
  }

  /** What follows a real close still ends closed, or is only white space. */
  lemma ClosesAfterReal(s: Tokens, n: nat)
    requires EndsClosed(s) && 0 < n <= |s| && s[n - 1].Close?
    ensures FuncEndCloses(s[n..])
  {
  }

  // ----- what the parser's tests and cuts are, by positions

  /** An opening tag at o starts a line of the body, before any other tag of the two kinds. */
  predicate OpensAt(body: Tokens, o: int)
  {
    0 <= o < |body| && body[o].Open? && (forall k :: 0 <= k < o ==> !body[k].Open? && !body[k].Close?)
    && LineBefore(body, o)
  }

  /** After the closing tag at i comes, white space aside, an opening tag, </function> or nothing. */
  predicate EndsAt(body: Tokens, i: int)
  {
    && 0 <= i < |body| && body[i].Close?
    && exists k :: i < k <= |body| && SpaceBetween(body, i, k) && (k == |body| || body[k].Open? || body[k].FuncEnd?)
  }

  lemma EndsAtIff(body: Tokens, i: nat)
    requires i < |body|
    ensures RealCloseAt(body, i) <==> EndsAt(body, i)
  {
    var t := body[i + 1..];
    RealTailIff(t);
    hide RealTail;
    assert forall k :: 0 <= k < |t| ==> t[k] == body[i + 1 + k];
    if k :| i < k <= |body| && SpaceBetween(body, i, k) && (k == |body| || body[k].Open? || body[k].FuncEnd?) {
      assert SpaceBetween(t, -1, k - i - 1);
      assert k < |body| ==> t[k - i - 1] == body[k];
    }
    if k :| 0 <= k <= |t| && SpaceBetween(t, -1, k) && (k == |t| || t[k].Open? || t[k].FuncEnd?) {
      assert forall x :: i < x < i + 1 + k ==> body[x] == t[x - i - 1];
      assert SpaceBetween(body, i, i + 1 + k);
      assert k < |t| ==> body[i + 1 + k] == t[k];
    }
  }

  /** Where a value ends: at an opening tag that starts a line before any </parameter>; else at the first closing tag
      that really ends a value; else nowhere. */
  lemma CutIs(name: string, body: Tokens)
    ensures forall o :: OpensAt(body, o) ==> CutBody(name, body) == Cut(Arg(name, body[..o], NextOpen), o)
    ensures forall i :: EndsAt(body, i) && (forall k :: 0 <= k < i ==> !EndsAt(body, k))
                        && (forall o :: !OpensAt(body, o)) ==>
              CutBody(name, body) == Cut(Arg(name, body[..i], Closed), i + 1)
    ensures (forall i :: !EndsAt(body, i)) && (forall o :: !OpensAt(body, o)) ==>
              CutBody(name, body) == Cut(Arg(name, body, Unclosed), |body|)
  {
    OpensALineIff(body);
    forall i: nat | i < |body|
      ensures RealCloseAt(body, i) <==> EndsAt(body, i)
    {
      EndsAtIff(body, i);
    }
    hide RealCloseAt, EndsAt, LineBefore, AtLineStart;
    forall o | OpensAt(body, o)
      ensures CutBody(name, body) == Cut(Arg(name, body[..o], NextOpen), o)
    {
      FirstOpenIs(body, o);
    }
    assert OpensALine(body) ==> OpensAt(body, FirstOpen(body));
    forall i | EndsAt(body, i) && (forall k :: 0 <= k < i ==> !EndsAt(body, k))
      ensures FirstRealClose(body) == i
    {
      assert 0 <= i < |body| by {
        EndsInside(body, i);
      }
      FirstRealCloseIs(body, i);
    }
  }

  lemma EndsInside(body: Tokens, i: int)
    requires EndsAt(body, i)
    ensures 0 <= i < |body|
  {
  }

  /** What closes the call: </function> when the text before it is white space, or ends in </parameter> and white
      space; </tool_call> when it ends in a </function> that starts a line or the text, and white space. */
  lemma ClosesIff(args: Tokens, t: Token)
    ensures Closes(args, t) <==>
              || (t.FuncEnd? && SpaceBetween(args, -1, |args|))
              || (t.FuncEnd? && exists c :: 0 <= c < |args| && args[c].Close? && SpaceBetween(args, c, |args|))
              || (t.ToolEnd? && exists f :: 0 <= f < |args| && args[f].FuncEnd? && SpaceBetween(args, f, |args|)
                                            && (LineBefore(args, f) || forall k :: 0 <= k < f ==> args[k].Blank?))
  {
    var e := TrimmedEnd(args) - 1;
    TrimmedTail(args);
    hide TrimmedEnd, LineBefore, StartsLine;
    assert e >= 0 ==> SpaceBetween(args, e, |args|);
    forall f: nat | f < |args|
      ensures StartsLine(args, f) <==> LineBefore(args, f) || forall k :: 0 <= k < f ==> args[k].Blank?
    {
      StartsLineIff(args, f);
    }
    if c :| 0 <= c < |args| && args[c].Close? && SpaceBetween(args, c, |args|) {
      assert c == e;
    }
    if f :| 0 <= f < |args| && args[f].FuncEnd? && SpaceBetween(args, f, |args|) {
      assert f == e;
    }
  }

  lemma StartsLineIff(s: Tokens, m: nat)
    requires m <= |s|
    ensures StartsLine(s, m) <==> LineBefore(s, m) || forall k :: 0 <= k < m ==> s[k].Blank?
  {
    InnerLineIff(s, m);
    var b := BlankStart(s[..m]);
    hide BlankStart, LineBefore;
    assert forall k :: 0 <= k < m ==> s[k] == s[..m][k];
  }

  /** What is stripped from an unclosed value: a </function> that only white space follows, that white space, the blanks
      before the tag and at most one newline before these. */
  lemma StripIs(s: Tokens, f: nat, b: nat)
    requires b <= f < |s| && s[f].FuncEnd? && SpaceBetween(s, f, |s|)
    requires (forall k :: b <= k < f ==> s[k].Blank?) && (b > 0 ==> !s[b - 1].Blank?)
    ensures StripTrailingFunc(s) == s[..if b > 0 && s[b - 1].Newline? then b - 1 else b]
  {
    TrimmedEndIs(s, f + 1);
    assert s[..f + 1 - 1] == s[..f];
    BlankStartIs(s[..f], b);
  }

  /** Nothing is stripped from a value without such a tag. */
  lemma StripNothing(s: Tokens)
    requires forall f :: 0 <= f < |s| && s[f].FuncEnd? ==> !SpaceBetween(s, f, |s|)
    ensures StripTrailingFunc(s) == s
  {
    TrimmedTail(s);
    var e := TrimmedEnd(s) - 1;
    if HasTrailingFunc(s) {
      assert SpaceBetween(s, e, |s|);
    }
  }

  // ----- the dict a caller gets

  ghost predicate DistinctNames(ps: seq<Param>)
  {
    forall i, j :: 0 <= i < j < |ps| ==> ps[i].name != ps[j].name
  }

  function Values(ps: seq<Param>, trim: Trim): (r: seq<(string, Tokens)>)
    ensures |r| == |ps| && forall i :: 0 <= i < |ps| ==> r[i] == (ps[i].name, trim(ps[i].value))
  {
    seq(|ps|, i requires 0 <= i < |ps| => (ps[i].name, trim(ps[i].value)))
  }

  lemma {:induction false} PutNew(d: seq<(string, Tokens)>, name: string, value: Tokens)
    requires forall i :: 0 <= i < |d| ==> d[i].0 != name
    ensures Put(d, name, value) == d + [(name, value)]
  {
    if |d| > 0 {
      PutNew(d[1..], name, value);
    }
  }

  lemma DistinctStep(done: seq<Param>, ps: seq<Param>, trim: Trim)
    requires |ps| > 0 && DistinctNames(done + ps)
    ensures forall i :: 0 <= i < |done| ==> Values(done, trim)[i].0 != ps[0].name
    ensures (done + [ps[0]]) + ps[1..] == done + ps
    ensures Values(done + [ps[0]], trim) == Values(done, trim) + [(ps[0].name, trim(ps[0].value))]
  {
    forall i | 0 <= i < |done|
      ensures done[i].name != ps[0].name
    {
      assert (done + ps)[i] == done[i] && (done + ps)[|done|] == ps[0];
    }
  }

  lemma {:induction false} DictOfArgs(done: seq<Param>, ps: seq<Param>, trim: Trim)
    requires DistinctNames(done + ps)
    ensures ToDict(Values(done, trim), Args(ps), trim) == Values(done + ps, trim)
    decreases |ps|
  {
    hide *;
    if |ps| == 0 {
      assert done + ps == done && Args(ps) == [];
      ToDictNil(Values(done, trim), trim);
    } else {
      var p := ps[0];
      ArgsCons(ps);
      DistinctStep(done, ps, trim);
      PutNew(Values(done, trim), p.name, trim(p.value));
      ToDictCons(Values(done, trim), Arg(p.name, p.value, Closed), Args(ps[1..]), trim);
      AssignCases(Values(done, trim), p.name, p.value, trim);
      DictOfArgs(done + [p], ps[1..], trim);
    }
  }

  /** A rendered call with clean values and distinct names, fed to the engine and
      converted: exactly its arguments come back. */
  method HandleCall(lead: Tokens, ps: seq<Param>, trim: Trim) returns (params: seq<(string, Tokens)>, leaked: Tokens)
    requires AllSpace(lead) && Spaced(ps) && DistinctNames(ps)
    requires forall i :: 0 <= i < |ps| ==> Clean(ps[i].value)
    ensures params == Values(ps, trim) && leaked == []
  {
    var engine := new Engine();
    var text := lead + Render(ps);
    engine.Feed(text + [FuncEnd]);
    RoundTripIff(lead, ps);
    hide Render, Parse, Clean, AdvanceAll;
    params := Convert(engine.argsText, trim);
    leaked := engine.outside;
    assert [] + ps == ps && Values([], trim) == [];
    DictOfArgs([], ps, trim);
  }
}
