/** The dictionary a growing text shows: what every continuation keeps, and what a repeated name does to it. */
module ToolCallDict {
  import opened ToolCalls
  import opened ToolCallTheorems
  import opened ToolCallStreaming

  type Dict = seq<(string, Tokens)>

  /** What the converter returns for parsed arguments. */
  function DictOf(p: seq<Arg>): Dict { ToDict([], p, TrimNewlines) }

  // ----- dictionaries

  function Names(d: Dict): (r: seq<string>)
    ensures |r| == |d| && forall i :: 0 <= i < |d| ==> r[i] == d[i].0
  {
    if d == [] then [] else [d[0].0] + Names(d[1..])
  }

  /** The value under a name; nothing when there is none. */
  function Value(d: Dict, n: string): Tokens
  {
    if d == [] then [] else if d[0].0 == n then d[0].1 else Value(d[1..], n)
  }

  predicate OnePerName(d: Dict)
  {
    d == [] || (d[0].0 !in Names(d[1..]) && OnePerName(d[1..]))
  }

  lemma {:induction false} ValueAt(d: Dict, i: nat)
    requires OnePerName(d) && i < |d|
    ensures Value(d, d[i].0) == d[i].1
  {
    if i > 0 {
      assert d[1..][i - 1] == d[i] && Names(d[1..])[i - 1] == d[i].0;
      ValueAt(d[1..], i - 1);
    }
  }

  lemma ConsEntry(e: (string, Tokens), d: Dict, m: string)
    ensures Names([e] + d) == [e.0] + Names(d)
    ensures OnePerName([e] + d) <==> e.0 !in Names(d) && OnePerName(d)
    ensures Value([e] + d, m) == if e.0 == m then e.1 else Value(d, m)
  {
    assert ([e] + d)[1..] == d;
  }

  /** Assigning keeps the place of a name that is there and appends a new one. */
  lemma {:induction false} PutEffect(d: Dict, n: string, v: Tokens, m: string)
    requires OnePerName(d)
    ensures OnePerName(Put(d, n, v)) && Value(Put(d, n, v), m) == if m == n then v else Value(d, m)
    ensures Names(Put(d, n, v)) == if n in Names(d) then Names(d) else Names(d) + [n]
  {
    if d == [] {
      ConsEntry((n, v), [], m);
      assert [(n, v)] + [] == [(n, v)];
    } else {
      var e, rest := d[0], d[1..];
      assert [e] + rest == d;
      PutCons(e, rest, n, v);
      hide OnePerName, Names, Value, Put;
      ConsEntry(e, rest, m);
      if e.0 == n {
        ConsEntry((n, v), rest, m);
      } else {
        PutEffect(rest, n, v, m);
        ConsEntry(e, Put(rest, n, v), m);
      }
    }
  }

  lemma PutCons(e: (string, Tokens), d: Dict, n: string, v: Tokens)
    ensures Put([e] + d, n, v) == if e.0 == n then [(n, v)] + d else [e] + Put(d, n, v)
  {
    assert ([e] + d)[1..] == d;
  }

  lemma {:induction false} ToDictSnoc(d: Dict, p: seq<Arg>, a: Arg, trim: Trim)
    ensures ToDict(d, p + [a], trim) == Assign(ToDict(d, p, trim), a, trim)
    decreases |p|
  {
    if |p| == 0 {
      assert p + [a] == [a] + [];
      ToDictCons(d, a, [], trim);
    } else {
      assert p + [a] == [p[0]] + (p[1..] + [a]) && p == [p[0]] + p[1..];
      ToDictCons(d, p[0], p[1..] + [a], trim);
      ToDictCons(d, p[0], p[1..], trim);
      ToDictSnoc(Assign(d, p[0], trim), p[1..], a, trim);
    }
  }

  // ----- the dictionary of a list of arguments

  /** The stored names in the order of their first appearance. */
  function FirstNames(p: seq<Arg>): seq<string>
  {
    if p == [] then [] else WithName(FirstNames(p[..|p| - 1]), p[|p| - 1])
  }

  function WithName(names: seq<string>, a: Arg): seq<string>
  {
    if IsStored(a) && a.name !in names then names + [a.name] else names
  }

  /** The value last stored under a name. */
  function LastValue(p: seq<Arg>, n: string): Tokens
  {
    if p == [] then []
    else
      var l := p[|p| - 1];
      if IsStored(l) && l.name == n then Stored(l) else LastValue(p[..|p| - 1], n)
  }

  lemma AssignStored(d: Dict, a: Arg)
    ensures Assign(d, a, TrimNewlines) == if IsStored(a) then Put(d, a.name, Stored(a)) else d
  {
  }

  /** The dictionary has each stored name once, where it first appeared, with the value last stored under it. */
  lemma {:induction false} DictIs(p: seq<Arg>, n: string)
    ensures OnePerName(DictOf(p)) && Names(DictOf(p)) == FirstNames(p) && Value(DictOf(p), n) == LastValue(p, n)
  {
    if p != [] {
      var m := |p| - 1;
      DictIs(p[..m], n);
      ToDictSnoc([], p[..m], p[m], TrimNewlines);
      assert p[..m] + [p[m]] == p;
      AssignStored(DictOf(p[..m]), p[m]);
      hide ToDict, Assign, Stored, OnePerName, Names, Value, Put;
      if IsStored(p[m]) {
        PutEffect(DictOf(p[..m]), p[m].name, Stored(p[m]), n);
      }
    }
  }

  /** The same names in the same places, earlier values equal, the last one a prefix: the shown text only grows. */
  predicate DictExtends(d: Dict, d': Dict)
  {
    && |d| <= |d'|
    && (forall i :: 0 <= i < |d| ==> d'[i].0 == d[i].0)
    && (forall i :: 0 <= i < |d| - 1 ==> d'[i].1 == d[i].1)
    && (|d| > 0 ==> d[|d| - 1].1 <= d'[|d| - 1].1)
  }

  /** Every name keeps its value, the last one up to growth. */
  ghost predicate KeepsValues(p: seq<Arg>, q: seq<Arg>)
  {
    var names := FirstNames(p);
    forall i :: 0 <= i < |names| ==>
      && LastValue(p, names[i]) <= LastValue(q, names[i])
      && (i < |names| - 1 ==> LastValue(p, names[i]) == LastValue(q, names[i]))
  }

  lemma DictEntry(p: seq<Arg>, i: nat)
    requires i < |FirstNames(p)|
    ensures |DictOf(p)| == |FirstNames(p)| && DictOf(p)[i] == (FirstNames(p)[i], LastValue(p, FirstNames(p)[i]))
  {
    DictIs(p, FirstNames(p)[i]);
    assert Names(DictOf(p))[i] == DictOf(p)[i].0;
    ValueAt(DictOf(p), i);
    hide ToDict, FirstNames, LastValue, Value, OnePerName;
  }

  lemma DictSize(p: seq<Arg>)
    ensures |DictOf(p)| == |FirstNames(p)|
  {
    DictIs(p, "");
  }

  lemma DictExtendsIff(p: seq<Arg>, q: seq<Arg>)
    ensures DictExtends(DictOf(p), DictOf(q)) <==> FirstNames(p) <= FirstNames(q) && KeepsValues(p, q)
  {
    DictSize(p);
    DictSize(q);
    hide ToDict, FirstNames, LastValue, DictOf;
    var names := FirstNames(p);
    forall i | 0 <= i < |names|
      ensures DictOf(p)[i] == (names[i], LastValue(p, names[i]))
    {
      DictEntry(p, i);
    }
    forall i | 0 <= i < |FirstNames(q)|
      ensures DictOf(q)[i] == (FirstNames(q)[i], LastValue(q, FirstNames(q)[i]))
    {
      DictEntry(q, i);
    }
  }

  // ----- names keep their places

  /** Only the last argument can be open. */
  predicate OpenLast(p: seq<Arg>) { forall i :: 0 <= i < |p| - 1 ==> p[i].ending != Unclosed }

  lemma {:induction false} ParseOpenLast(a: Tokens)
    ensures OpenLast(Parse(a))
    decreases |a|
  {
    hide *;
    RestStep(a);
    if FirstOpen(a) < |a| {
      Cuts(a, []);
      NothingParses();
      ParseOpenLast(AfterFirst(a));
      OpenLastCons(FirstCut(a).arg, Parse(AfterFirst(a)));
    } else {
      OpenLastNone();
    }
  }

  lemma OpenLastNone()
    ensures OpenLast([])
  {
  }

  lemma OpenLastCons(a: Arg, p: seq<Arg>)
    requires OpenLast(p) && (a.ending == Unclosed ==> p == [])
    ensures OpenLast([a] + p)
  {
  }

  lemma {:induction false} FirstNamesPrefix(q: seq<Arg>, k: nat)
    requires k <= |q|
    ensures FirstNames(q[..k]) <= FirstNames(q)
  {
    if k < |q| {
      FirstNamesPrefix(q[..|q| - 1], k);
      assert q[..|q| - 1][..k] == q[..k];
    } else {
      assert q[..k] == q;
    }
  }

  /** The last argument was stored under a name of its own, and is not stored any more. */
  predicate DropsName(p: seq<Arg>, q: seq<Arg>)
  {
    && 0 < |p| <= |q| && IsStored(p[|p| - 1]) && !IsStored(q[|p| - 1])
    && p[|p| - 1].name !in FirstNames(p[..|p| - 1])
  }

  lemma NamesKeptIff(p: seq<Arg>, q: seq<Arg>)
    requires Extends(p, q) && OpenLast(q)
    ensures FirstNames(p) <= FirstNames(q) <==> !DropsName(p, q)
  {
    hide FirstNames, Grew, Stored;
    if |p| > 0 {
      var m := |p| - 1;
      SamePrefix(p, q);
      FirstNamesPrefix(q, m + 1);
      FirstNamesStep(p[..m], p[m]);
      FirstNamesStep(p[..m], q[m]);
    } else {
      FirstNamesPrefix(q, 0);
    }
  }

  lemma FirstNamesStep(p: seq<Arg>, a: Arg)
    ensures FirstNames(p + [a]) == WithName(FirstNames(p), a)
  {
    assert (p + [a])[..|p + [a]| - 1] == p;
  }

  lemma SamePrefix(p: seq<Arg>, q: seq<Arg>)
    requires Extends(p, q) && |p| > 0
    ensures var m := |p| - 1; p[..m] + [p[m]] == p && p[..m] + [q[m]] == q[..m + 1]
    ensures OpenLast(q) && q[|p| - 1].ending == Unclosed ==> q[..|p|] == q
  {
    hide Grew;
    assert p[..|p| - 1] == q[..|p| - 1];
  }

  /** What one continuation keeps, repeated names or not: the dictionary is extended exactly when the last argument's
      name is not dropped and, under every name, the value last stored before is the one last stored after (the last
      name's a prefix of it). */
  lemma KeptIff(a: Tokens, b: Tokens)
    ensures var p, q := Parse(a), Parse(a + b);
            DictExtends(DictOf(p), DictOf(q)) <==> !DropsName(p, q) && KeepsValues(p, q)
  {
    var p, q := Parse(a), Parse(a + b);
    hide *;
    PrefixStable(a, b);
    ParseOpenLast(a + b);
    NamesKeptIff(p, q);
    DictExtendsIff(p, q);
  }

  // ----- names that do not repeat

  predicate DistinctArgs(p: seq<Arg>) { forall i, j :: 0 <= i < j < |p| ==> p[i].name != p[j].name }

  /** Without repeated names each stored argument is its own entry. */
  lemma {:induction false} DistinctEntries(p: seq<Arg>, i: nat)
    requires DistinctArgs(p) && OpenLast(p)
    ensures |FirstNames(p)| == if |p| > 0 && !IsStored(p[|p| - 1]) then |p| - 1 else |p|
    ensures forall k :: 0 <= k < |FirstNames(p)| ==> FirstNames(p)[k] == p[k].name
    ensures i < |p| && IsStored(p[i]) ==> LastValue(p, p[i].name) == Stored(p[i])
  {
    if |p| > 0 {
      var m := |p| - 1;
      hide Stored;
      DistinctEntries(p[..m], i);
      var r := FirstNames(p[..m]);
      assert m > 0 ==> IsStored(p[..m][m - 1]);
      assert |r| == m;
      assert p[m].name !in r;
      if i < m {
        assert p[..m][i] == p[i];
      }
    }
  }

  /** The entries of arguments whose names do not repeat: all of them, but a last one that is not stored. */
  function Entries(p: seq<Arg>): (d: Dict)
    ensures |d| == if |p| > 0 && !IsStored(p[|p| - 1]) then |p| - 1 else |p|
    ensures forall i :: 0 <= i < |d| ==> d[i].0 == p[i].name && d[i].1 == Stored(p[i])
  {
    seq(if |p| > 0 && !IsStored(p[|p| - 1]) then |p| - 1 else |p|, i requires 0 <= i < |p| => (p[i].name, Stored(p[i])))
  }

  lemma DistinctDict(p: seq<Arg>)
    requires DistinctArgs(p) && OpenLast(p)
    ensures DictOf(p) == Entries(p)
  {
    hide *;
    DistinctEntries(p, 0);
    DictSize(p);
    forall i: nat | i < |DictOf(p)|
      ensures DictOf(p)[i] == Entries(p)[i]
    {
      DictEntry(p, i);
      DistinctEntry(p, i);
    }
  }

  lemma DistinctEntry(p: seq<Arg>, i: nat)
    requires DistinctArgs(p) && OpenLast(p) && i < |FirstNames(p)|
    ensures i < |Entries(p)| && Entries(p)[i] == (FirstNames(p)[i], LastValue(p, FirstNames(p)[i]))
  {
    hide Stored, DistinctArgs, FirstNames, LastValue, Entries;
    DistinctEntries(p, i);
  }

  lemma StoredIsDict(p: seq<Arg>, q: seq<Arg>)
    requires Extends(p, q) && DistinctArgs(q) && OpenLast(p) && OpenLast(q)
    ensures StoredExtends(p, q) <==> DictExtends(DictOf(p), DictOf(q))
  {
    hide *;
    SameNames(p, q);
    DistinctDict(p);
    DistinctDict(q);
    EntriesExtend(p, q);
  }

  lemma EntriesExtend(p: seq<Arg>, q: seq<Arg>)
    requires Extends(p, q) && OpenLast(p) && OpenLast(q)
    ensures StoredExtends(p, q) <==> DictExtends(Entries(p), Entries(q))
  {
    hide Stored, Grew, Entries;
    assert forall i :: 0 <= i < |p| - 1 ==> q[i] == p[i] && IsStored(p[i]);
  }

  lemma SameNames(p: seq<Arg>, q: seq<Arg>)
    requires Extends(p, q)
    ensures forall i :: 0 <= i < |p| ==> q[i].name == p[i].name
    ensures DistinctArgs(q) ==> DistinctArgs(p)
    ensures |q| == |p| && DistinctArgs(p) ==> DistinctArgs(q)
  {
    hide Grew;
  }

  /** While no name repeats, what a text shows now is kept however it goes on. */
  ghost predicate StreamStable(a: Tokens)
  {
    forall b: Tokens :: DistinctArgs(Parse(a + b)) ==> DictExtends(DictOf(Parse(a)), DictOf(Parse(a + b)))
  }

  lemma StoredKept(a: Tokens, b: Tokens)
    requires DistinctArgs(Parse(a + b))
    ensures StoredExtends(Parse(a), Parse(a + b)) <==> DictExtends(DictOf(Parse(a)), DictOf(Parse(a + b)))
  {
    hide *;
    PrefixStable(a, b);
    ParseOpenLast(a);
    ParseOpenLast(a + b);
    StoredIsDict(Parse(a), Parse(a + b));
  }

  /** A continuation that adds no argument and loses what was stored shows that the text is not stable. */
  lemma Unstable(a: Tokens, b: Tokens)
    requires DistinctArgs(Parse(a)) && |Parse(a + b)| == |Parse(a)| && !StoredExtends(Parse(a), Parse(a + b))
    ensures !StreamStable(a)
  {
    PrefixStable(a, b);
    SameNames(Parse(a), Parse(a + b));
    StoredKept(a, b);
    hide Parse, DictOf, DictExtends, DistinctArgs, StoredExtends;
  }

  /** What a text shows now is kept by every continuation without repeated names iff it repeats a name already (then
      there is no such continuation), has no argument yet, or has a last one that is named and closed, or named and
      without a loose end that is not in a stripped line, or nameless and either open (then it is not shown) or followed
      by more than white space. */
  lemma StreamStableIff(a: Tokens)
    ensures var p := Parse(a);
            StreamStable(a) <==>
              !DistinctArgs(p) || |p| == 0
              || (if p[|p| - 1].name == "" then p[|p| - 1].ending != Closed || !AllSpace(Rest(a))
                  else p[|p| - 1].ending != Unclosed || HasTrailingFunc(p[|p| - 1].raw) || !EndsLoosely(p[|p| - 1].raw))
  {
    var p := Parse(a);
    hide *;
    if !DistinctArgs(p) {
      RepeatsAlready(a);
    } else if |p| == 0 {
      KeptBy(a);
    } else if p[|p| - 1].name == "" {
      NamelessIff(a);
    } else {
      NamedIff(a);
    }
  }

  lemma RepeatsAlready(a: Tokens)
    requires !DistinctArgs(Parse(a))
    ensures StreamStable(a)
  {
    hide Parse, DictOf, DictExtends, DistinctArgs;
    forall b: Tokens
      ensures !DistinctArgs(Parse(a + b))
    {
      PrefixStable(a, b);
      SameNames(Parse(a), Parse(a + b));
    }
  }

  /** With a last argument that only grows in its stored form, everything is kept. */
  lemma KeptBy(a: Tokens)
    requires var p := Parse(a);
             |p| > 0 && IsStored(p[|p| - 1]) ==>
               p[|p| - 1].name != "" && (p[|p| - 1].ending == Unclosed ==> ShownStable(p[|p| - 1].raw))
    ensures StreamStable(a)
  {
    var p := Parse(a);
    hide Parse, Stored, ShownStable, DictOf, DictExtends, DistinctArgs;
    forall b: Tokens | DistinctArgs(Parse(a + b))
      ensures DictExtends(DictOf(p), DictOf(Parse(a + b)))
    {
      PrefixStable(a, b);
      if |p| > 0 && IsStored(p[|p| - 1]) {
        GrewStored(p[|p| - 1], Parse(a + b)[|p| - 1]);
      }
      StoredKept(a, b);
    }
  }

  lemma NamedIff(a: Tokens)
    requires DistinctArgs(Parse(a)) && |Parse(a)| > 0 && Parse(a)[|Parse(a)| - 1].name != ""
    ensures var l := Parse(a)[|Parse(a)| - 1];
            StreamStable(a) <==> l.ending != Unclosed || HasTrailingFunc(l.raw) || !EndsLoosely(l.raw)
  {
    var p := Parse(a);
    hide *;
    ShownStableIff(p[|p| - 1].raw);
    if p[|p| - 1].ending == Unclosed && !ShownStable(p[|p| - 1].raw) {
      FuncEndJoinsLast(a);
      ShownShrinks(p[|p| - 1].raw);
      LostValue(p, Parse(a + [FuncEnd]));
      Unstable(a, [FuncEnd]);
    } else {
      NamedIsStored(p[|p| - 1]);
      KeptBy(a);
    }
  }

  lemma NamedIsStored(a: Arg)
    requires a.name != ""
    ensures IsStored(a)
  {
  }

  lemma LostValue(p: seq<Arg>, q: seq<Arg>)
    requires |p| == |q| > 0 && p[|p| - 1].ending == q[|p| - 1].ending == Unclosed && p[|p| - 1].name != ""
    requires !(Shown(p[|p| - 1].raw) <= Shown(q[|p| - 1].raw))
    ensures !StoredExtends(p, q)
  {
    UnclosedStored(p[|p| - 1]);
    UnclosedStored(q[|p| - 1]);
    hide Stored, Shown;
  }

  lemma NamelessIff(a: Tokens)
    requires DistinctArgs(Parse(a)) && |Parse(a)| > 0 && Parse(a)[|Parse(a)| - 1].name == ""
    ensures var l := Parse(a)[|Parse(a)| - 1]; StreamStable(a) <==> l.ending != Closed || !AllSpace(Rest(a))
  {
    var p := Parse(a);
    hide *;
    LastEnds(a);
    if p[|p| - 1].ending == Unclosed {
      NotStoredYet(p[|p| - 1]);
      KeptBy(a);
    } else if AllSpace(Rest(a)) {
      TextReopens(a);
      NamelessDropped(p, Parse(a + [Text('x')]));
      Unstable(a, [Text('x')]);
    } else {
      Final(a);
    }
  }

  lemma NotStoredYet(a: Arg)
    requires a.name == "" && a.ending == Unclosed
    ensures !IsStored(a)
  {
  }

  lemma NamelessDropped(p: seq<Arg>, q: seq<Arg>)
    requires |p| == |q| > 0 && p[|p| - 1].ending == Closed && q[|p| - 1].ending == Unclosed && q[|p| - 1].name == ""
    ensures !StoredExtends(p, q) && IsStored(p[|p| - 1]) && !IsStored(q[|p| - 1])
  {
    NotStoredAnyMore(p, q);
  }

  lemma Final(a: Tokens)
    requires var p := Parse(a); |p| > 0 && p[|p| - 1].ending == Closed && !AllSpace(Rest(a))
    ensures StreamStable(a)
  {
    var p := Parse(a);
    hide Parse, AllSpace, Rest, StoredExtends, Extends, DictOf, DictExtends, DistinctArgs;
    forall b: Tokens | DistinctArgs(Parse(a + b))
      ensures DictExtends(DictOf(p), DictOf(Parse(a + b)))
    {
      PrefixStable(a, b);
      ClosedStays(a, b);
      SameLast(p, Parse(a + b));
      StoredKept(a, b);
    }
  }

  // ----- names that repeat

  /** The tokens that end whatever is open and store one character under a name. */
  function Again(n: string, c: char): Tokens { [Close, Open(n), Text(c), Close] }

  lemma AgainAlone(n: string, c: char)
    ensures Parse([Open(n), Text(c), Close]) == [Arg(n, [Text(c)], Closed)]
  {
    var s := [Open(n), Text(c), Close];
    FirstOpenIs(s, 0);
    assert s[1..] == [Text(c), Close];
    AgainCut(n, c);
    hide *;
    ParseSome(s, [Text(c), Close], []);
    NothingParses();
  }

  lemma DropPast(a: Tokens, b: Tokens, i: nat)
    requires i < |b|
    ensures (a + b)[|a| + i] == b[i] && (a + b)[|a| + i..] == b[i..] && (a + b)[|a| + i + 1..] == b[i + 1..]
  {
  }

  /** After any text they are its last argument. */
  lemma {:induction false} AgainLast(a: Tokens, n: string, c: char)
    ensures LastIs(Parse(a + Again(n, c)), Arg(n, [Text(c)], Closed))
    decreases |a|
  {
    hide *;
    var w, x := a + Again(n, c), Arg(n, [Text(c)], Closed);
    if FirstOpen(a) == |a| {
      AgainFirst(a, n, c);
      OneIsLast(x);
    } else {
      var s := AgainCuts(a, n, c);
      RestStep(w);
      if AfterFirst(w) == [Open(n), Text(c), Close] {
        AgainAlone(n, c);
        OneIsLast(x);
      } else {
        AgainLast(s, n, c);
      }
      LastCons(FirstCut(w).arg, Parse(AfterFirst(w)), x);
    }
  }

  /** Cutting the first argument leaves them whole, or ends at their closing tag. */
  lemma AgainCuts(a: Tokens, n: string, c: char) returns (s: Tokens)
    requires FirstOpen(a) < |a|
    ensures var w := a + Again(n, c);
            && FirstOpen(w) < |w|
            && (AfterFirst(w) == [Open(n), Text(c), Close] || (|s| < |a| && AfterFirst(w) == s + Again(n, c)))
  {
    hide FirstOpen, CutBody, Again;
    var b, o := Again(n, c), FirstOpen(a);
    var body := a[o + 1..];
    AgainRest(n, c);
    FirstOpenAgain(a, n, c);
    DropOfConcat(a, b, o + 1);
    CutBeforeAgain(a[o].name, body, n, c);
    var d := CutBody(a[o].name, body + b);
    s := [];
    if d.next <= |body| {
      DropOfConcat(body, b, d.next);
      s := body[d.next..];
    } else {
      DropPast(body, b, 1);
    }
  }

  predicate LastIs(q: seq<Arg>, x: Arg) { |q| > 0 && q[|q| - 1] == x }

  lemma OneIsLast(x: Arg)
    ensures LastIs([x], x)
  {
  }

  lemma LastCons(a: Arg, q: seq<Arg>, x: Arg)
    requires LastIs(q, x)
    ensures LastIs([a] + q, x)
  {
  }

  lemma AgainRest(n: string, c: char)
    ensures |Again(n, c)| == 4 && Again(n, c)[1] == Open(n)
    ensures Again(n, c)[1..] == [Open(n), Text(c), Close] && Again(n, c)[2..] == [Text(c), Close]
  {
  }

  lemma FirstOpenAgain(a: Tokens, n: string, c: char)
    ensures FirstOpen(a + Again(n, c)) == if FirstOpen(a) < |a| then FirstOpen(a) else |a| + 1
    ensures FirstOpen(a) < |a| ==> (a + Again(n, c))[FirstOpen(a)] == a[FirstOpen(a)]
  {
    FirstOpenConcat(a, Again(n, c));
    FirstOpenIs(Again(n, c), 1);
    hide FirstOpen;
  }

  /** Without an argument before them: the stray closing tag is skipped. */
  lemma AgainFirst(a: Tokens, n: string, c: char)
    requires FirstOpen(a) == |a|
    ensures Parse(a + Again(n, c)) == [Arg(n, [Text(c)], Closed)]
  {
    var b := Again(n, c);
    assert |b| == 4;
    FirstOpenAgain(a, n, c);
    AgainCut(n, c);
    hide *;
    DropPast(a, b, 1);
    AgainRest(n, c);
    ParseSome(a + b, [Text(c), Close], []);
    NothingParses();
  }

  lemma AgainCut(n: string, c: char)
    ensures CutBody(n, [Text(c), Close]) == Cut(Arg(n, [Text(c)], Closed), 2) && [Text(c), Close][2..] == []
  {
    var v := [Text(c)];
    OneCharacterParses(c);
    CutRendered(n, v, [], []);
    assert v + ([Close] + ([] + [])) == [Text(c), Close];
  }

  lemma OneCharacterParses(c: char)
    ensures Parses([Text(c)])
  {
    FirstOpenIs([Text(c)], 1);
  }

  /** A value open before them ends at their closing tag or earlier. */
  lemma CutBeforeAgain(name: string, body: Tokens, n: string, c: char)
    ensures CutBody(name, body + Again(n, c)).next <= |body| + 1
  {
    var b := Again(n, c);
    FirstOpenConcat(body, b);
    FirstCloseConcat(body, b);
    FirstOpenIs(b, 1);
    FirstCloseIs(b, 0);
    assert (body + b)[|body|] == Close && (body + b)[|body| + 1..] == b[1..];
    assert RealCloseAt(body + b, |body|);
    hide FirstOpen, FirstClose, AtLineStart, RealCloseAt;
  }

  /** A name that comes again replaces the value stored first: what was shown is not a prefix of what is. */
  lemma RepeatReplaces(n: string)
    ensures var a, b := [Open(n), Text('x'), Close], [Open(n), Text('y'), Close];
            && DictOf(Parse(a)) == [(n, [Text('x')])] && DictOf(Parse(a + b)) == [(n, [Text('y')])]
            && !DictExtends(DictOf(Parse(a)), DictOf(Parse(a + b)))
  {
    var a, b := [Open(n), Text('x'), Close], [Open(n), Text('y'), Close];
    AgainAlone(n, 'x');
    AgainAlone(n, 'y');
    TwoParsed(n);
    hide Parse;
    var x, y := Arg(n, [Text('x')], Closed), Arg(n, [Text('y')], Closed);
    OneEntry(n, 'x');
    assert [x] + [y] == [x, y];
    ToDictSnoc([], [x], y, TrimNewlines);
  }

  lemma OneEntry(n: string, c: char)
    ensures DictOf([Arg(n, [Text(c)], Closed)]) == [(n, [Text(c)])]
  {
    var x := Arg(n, [Text(c)], Closed);
    assert [] + [x] == [x];
    ToDictSnoc([], [], x, TrimNewlines);
  }

  lemma TwoParsed(n: string)
    ensures Parse([Open(n), Text('x'), Close] + [Open(n), Text('y'), Close])
            == [Arg(n, [Text('x')], Closed), Arg(n, [Text('y')], Closed)]
  {
    hide *;
    var b := [Open(n), Text('y'), Close];
    var s := [Open(n), Text('x'), Close] + b;
    TwoOpens(n);
    TwoCut(n);
    AgainAlone(n, 'y');
    ParseSome(s, [Text('x'), Close] + b, b);
  }

  lemma TwoOpens(n: string)
    ensures FirstOpen([Open(n), Text('x'), Close] + [Open(n), Text('y'), Close]) == 0
    ensures ([Open(n), Text('x'), Close] + [Open(n), Text('y'), Close])[0] == Open(n)
  {
    FirstOpenIs([Open(n), Text('x'), Close] + [Open(n), Text('y'), Close], 0);
  }

  lemma TwoCut(n: string)
    ensures var b := [Open(n), Text('y'), Close];
            var body := [Text('x'), Close] + b;
            && ([Open(n), Text('x'), Close] + b)[1..] == body && body[2..] == b
            && CutBody(n, body) == Cut(Arg(n, [Text('x')], Closed), 2)
  {
    hide CutBody, Parses;
    var v, b := [Text('x')], [Open(n), Text('y'), Close];
    assert b[0] == Open(n) && |b| == 3;
    OneCharacterParses('x');
    CutRendered(n, v, [], b);
    FlatBody(v, b);
    FirstTail(Open(n), Text('x'), b);
  }

  lemma FlatBody(v: Tokens, b: Tokens)
    ensures v + ([Close] + ([] + b)) == v + [Close] + b
  {
    assert [] + b == b;
  }

  lemma FirstTail(t: Token, u: Token, b: Tokens)
    ensures ([t, u, Close] + b)[1..] == [u, Close] + b && ([u, Close] + b)[2..] == b && [u] + [Close] == [u, Close]
  {
  }

  /** What a text shows now is kept however it goes on, repeated names or not. */
  ghost predicate EverStable(a: Tokens)
  {
    forall b: Tokens :: DictExtends(DictOf(Parse(a)), DictOf(Parse(a + b)))
  }

  /** What is shown survives every continuation, repeated names included, exactly while it is nothing, or one empty
      value whose name stays. */
  lemma EverStableIff(a: Tokens)
    ensures var p, d := Parse(a), DictOf(Parse(a));
            EverStable(a) <==>
              |d| == 0 || (|d| == 1 && d[0].1 == [] && (d[0].0 != "" || |p| > 1 || !AllSpace(Rest(a))))
  {
    var p, d := Parse(a), DictOf(Parse(a));
    hide *;
    if |d| == 0 {
      NothingShown(a);
    } else if |d| > 1 || d[0].1 != [] {
      ShownReplaced(a);
    } else if d[0].0 != "" || |p| > 1 || !AllSpace(Rest(a)) {
      EmptyKept(a);
    } else {
      EmptyDropped(a);
    }
  }

  lemma NothingShown(a: Tokens)
    requires DictOf(Parse(a)) == []
    ensures EverStable(a)
  {
    hide DictOf, Parse;
  }

  /** A character that the value is not a prefix of. */
  function Other(v: Tokens): (c: char)
    ensures v != [Text(c)] && (v != [] ==> !(v <= [Text(c)]))
  {
    if v == [Text('x')] then 'y' else 'x'
  }

  lemma ShownReplaced(a: Tokens)
    requires var d := DictOf(Parse(a)); |d| > 1 || (|d| == 1 && d[0].1 != [])
    ensures !EverStable(a)
  {
    var d := DictOf(Parse(a));
    var n, c := d[0].0, Other(d[0].1);
    var q := Parse(a + Again(n, c));
    hide *;
    AgainLast(a, n, c);
    LastStored(q, n, c);
    DictIs(q, n);
    Replaced(d, DictOf(q), c);
    NotEver(a, Again(n, c));
  }

  lemma NotEver(a: Tokens, b: Tokens)
    requires !DictExtends(DictOf(Parse(a)), DictOf(Parse(a + b)))
    ensures !EverStable(a)
  {
    hide DictOf, Parse, DictExtends;
  }

  lemma LastStored(q: seq<Arg>, n: string, c: char)
    requires LastIs(q, Arg(n, [Text(c)], Closed))
    ensures LastValue(q, n) == [Text(c)]
  {
  }

  /** The first entry lost its value. */
  lemma Replaced(d: Dict, d': Dict, c: char)
    requires |d| > 1 || (|d| == 1 && d[0].1 != [])
    requires OnePerName(d') && c == Other(d[0].1) && Value(d', d[0].0) == [Text(c)]
    ensures !DictExtends(d, d')
  {
    if |d'| > 0 && d'[0].0 == d[0].0 {
      ValueAt(d', 0);
    }
  }

  lemma EmptyKept(a: Tokens)
    requires var d := DictOf(Parse(a)); |d| == 1 && d[0].1 == []
    requires DictOf(Parse(a))[0].0 != "" || |Parse(a)| > 1 || !AllSpace(Rest(a))
    ensures EverStable(a)
  {
    var p := Parse(a);
    hide *;
    DictSize(p);
    DictEntry(p, 0);
    forall b: Tokens
      ensures DictExtends(DictOf(p), DictOf(Parse(a + b)))
    {
      PrefixStable(a, b);
      ParseOpenLast(a);
      OneNameKept(a, b);
      EmptyValueKept(p, Parse(a + b));
      KeptIff(a, b);
    }
    ShowEverStable(a);
  }

  lemma ShowEverStable(a: Tokens)
    requires forall b: Tokens :: DictExtends(DictOf(Parse(a)), DictOf(Parse(a + b)))
    ensures EverStable(a)
  {
    hide DictOf, Parse, DictExtends;
  }

  lemma EmptyValueKept(p: seq<Arg>, q: seq<Arg>)
    requires |FirstNames(p)| == 1 && LastValue(p, FirstNames(p)[0]) == []
    ensures KeepsValues(p, q)
  {
    hide FirstNames, LastValue;
  }

  /** The one name shown stays: it is named, or stored before the last argument, or final. */
  lemma OneNameKept(a: Tokens, b: Tokens)
    requires var p := Parse(a);
             |FirstNames(p)| == 1 && OpenLast(p) && (FirstNames(p)[0] != "" || |p| > 1 || !AllSpace(Rest(a)))
    ensures !DropsName(Parse(a), Parse(a + b))
  {
    var p, q := Parse(a), Parse(a + b);
    if DropsName(p, q) {
      PrefixStable(a, b);
      NamelessLast(p, q);
      if |p| > 1 {
        EarlierStored(p);
      } else {
        LastEnds(a);
        ClosedStays(a, b);
      }
    }
  }

  lemma NamelessLast(p: seq<Arg>, q: seq<Arg>)
    requires DropsName(p, q) && Extends(p, q)
    ensures p[|p| - 1].name == "" && p[|p| - 1].ending != Unclosed && "" in FirstNames(p)
  {
    hide Grew, Stored;
  }

  /** With one name in all, the first argument has it. */
  lemma EarlierStored(p: seq<Arg>)
    requires OpenLast(p) && |p| > 1 && |FirstNames(p)| == 1
    ensures FirstNames(p[..|p| - 1]) == FirstNames(p)
  {
    FirstNamesPrefix(p, |p| - 1);
    FirstStored(p[..|p| - 1]);
  }

  lemma {:induction false} FirstStored(p: seq<Arg>)
    requires |p| > 0 && forall i :: 0 <= i < |p| ==> p[i].ending != Unclosed
    ensures |FirstNames(p)| > 0
  {
    if |p| > 1 {
      FirstStored(p[..|p| - 1]);
    }
  }

  lemma EmptyDropped(a: Tokens)
    requires var d := DictOf(Parse(a)); |d| == 1 && d[0].0 == ""
    requires |Parse(a)| <= 1 && AllSpace(Rest(a))
    ensures !EverStable(a)
  {
    var p, q := Parse(a), Parse(a + [Text('x')]);
    hide *;
    DictSize(p);
    DictEntry(p, 0);
    OnlyArgument(p);
    LastEnds(a);
    TextReopens(a);
    OneDropped(p, q);
    KeptIff(a, [Text('x')]);
    NotEver(a, [Text('x')]);
  }

  lemma OnlyArgument(p: seq<Arg>)
    requires |FirstNames(p)| == 1 && |p| <= 1 && FirstNames(p)[0] == ""
    ensures |p| == 1 && IsStored(p[0]) && p[0].name == "" && p[0].ending != Unclosed
  {
    hide Stored;
  }

  lemma OneDropped(p: seq<Arg>, q: seq<Arg>)
    requires |p| == |q| == 1 && IsStored(p[0]) && q[0].ending == Unclosed && q[0].name == ""
    ensures DropsName(p, q)
  {
  }
}
