/** The patched qwen3 tool-call parser over lexed tokens: the streaming guard and the argument converter. */
module ToolCalls {

  datatype Token =
    | Open(name: string)  // <parameter=NAME>
    | Close               // </parameter>
    | FuncEnd             // </function>
    | ToolEnd             // </tool_call>
    | Newline
    | Blank               // space or tab
    | OtherSpace          // any other white space
    | Text(c: char)

  type Tokens = seq<Token>

  predicate IsSpace(t: Token) { t.Newline? || t.Blank? || t.OtherSpace? }

  predicate AllSpace(s: Tokens) { forall i :: 0 <= i < |s| ==> IsSpace(s[i]) }

  // ----- searches from the start of a text; the length means "not found"

  function FirstOpen(s: Tokens): (i: nat)
    ensures i <= |s| && (i < |s| ==> s[i].Open?)
    ensures forall k :: 0 <= k < i ==> !s[k].Open?
  {
    if |s| == 0 || s[0].Open? then 0 else 1 + FirstOpen(s[1..])
  }

  function FirstClose(s: Tokens): (i: nat)
    ensures i <= |s| && (i < |s| ==> s[i].Close?)
    ensures forall k :: 0 <= k < i ==> !s[k].Close?
  {
    if |s| == 0 || s[0].Close? then 0 else 1 + FirstClose(s[1..])
  }

  /** The text after a closing tag lets it count: once blanks are skipped, the next
      argument, the call's end or nothing. */
  predicate RealTail(s: Tokens)
  {
    if |s| == 0 then true
    else if IsSpace(s[0]) then RealTail(s[1..])
    else s[0].Open? || s[0].FuncEnd?
  }

  predicate RealCloseAt(s: Tokens, i: nat)
    requires i < |s|
  {
    s[i].Close? && RealTail(s[i + 1..])
  }

  function FirstRealClose(s: Tokens): (i: nat)
    ensures i <= |s| && (i < |s| ==> RealCloseAt(s, i))
    ensures forall k :: 0 <= k < i ==> !RealCloseAt(s, k)
  {
    if |s| == 0 then 0
    else if RealCloseAt(s, 0) then 0
    else
      var r := FirstRealClose(s[1..]);
      assert forall k :: 0 < k < |s| ==> s[k + 1..] == s[1..][k..] && RealCloseAt(s, k) == RealCloseAt(s[1..], k - 1);
      1 + r
  }

  /** s ends in a newline followed only by blanks: what comes next starts a line. */
  predicate AtLineStart(s: Tokens)
  {
    if |s| == 0 then false
    else if s[|s| - 1].Blank? then AtLineStart(s[..|s| - 1])
    else s[|s| - 1].Newline?
  }

  // ----- the converter

  datatype Ending = Closed | NextOpen | Unclosed

  datatype Arg = Arg(name: string, raw: Tokens, ending: Ending)

  /** The first argument of a text, and where the search for the next one resumes. */
  datatype Cut = NoArg | Cut(arg: Arg, next: nat)

  function CutBody(name: string, body: Tokens): (c: Cut)
    ensures c.Cut? && c.next <= |body|
  {
    var nxt := FirstOpen(body);
    var end := FirstRealClose(body);
    if nxt < |body| && nxt < FirstClose(body) && AtLineStart(body[..nxt])
        then Cut(Arg(name, body[..nxt], NextOpen), nxt)
    else if end < |body| then Cut(Arg(name, body[..end], Closed), end + 1)
    else Cut(Arg(name, body, Unclosed), |body|)
  }

  /** The first argument and where the search goes on. */
  function FirstCut(s: Tokens): (c: Cut)
    requires FirstOpen(s) < |s|
    ensures c.Cut? && c.next <= |s| - FirstOpen(s) - 1
  {
    CutBody(s[FirstOpen(s)].name, s[FirstOpen(s) + 1..])
  }

  function AfterFirst(s: Tokens): (r: Tokens)
    requires FirstOpen(s) < |s|
    ensures |r| < |s|
  {
    s[FirstOpen(s) + 1..][FirstCut(s).next..]
  }

  /** The arguments of a call, in order, with their raw values. */
  function Parse(s: Tokens): seq<Arg>
    decreases |s|
  {
    if FirstOpen(s) == |s| then []
    else
      [FirstCut(s).arg] + Parse(AfterFirst(s))
  }

  /** End of s without its trailing white space. */
  function TrimmedEnd(s: Tokens): (n: nat)
    ensures n <= |s| && AllSpace(s[n..]) && (n > 0 ==> !IsSpace(s[n - 1]))
  {
    if |s| == 0 || !IsSpace(s[|s| - 1]) then |s| else TrimmedEnd(s[..|s| - 1])
  }

  /** Start of the run of blanks that ends s. */
  function BlankStart(s: Tokens): (n: nat)
    ensures n <= |s| && (forall i :: n <= i < |s| ==> s[i].Blank?) && (n > 0 ==> !s[n - 1].Blank?)
  {
    if |s| == 0 || !s[|s| - 1].Blank? then |s| else BlankStart(s[..|s| - 1])
  }

  predicate HasTrailingFunc(s: Tokens)
  {
    TrimmedEnd(s) > 0 && s[TrimmedEnd(s) - 1].FuncEnd?
  }

  /** Where the trailing </function> line starts: an optional newline and blanks before the tag. */
  function TrailStart(s: Tokens): (n: nat)
    requires HasTrailingFunc(s)
    ensures n < TrimmedEnd(s)
  {
    var b := BlankStart(s[..TrimmedEnd(s) - 1]);
    if b > 0 && s[b - 1].Newline? then b - 1 else b
  }

  function StripTrailingFunc(s: Tokens): Tokens
  {
    if HasTrailingFunc(s) then s[..TrailStart(s)] else s
  }

  type Trim = Tokens -> Tokens

  /** A Python dict in insertion order: assigning an existing name keeps its place. */
  function Put(d: seq<(string, Tokens)>, name: string, value: Tokens): seq<(string, Tokens)>
  {
    if |d| == 0 then [(name, value)]
    else if d[0].0 == name then [(name, value)] + d[1..]
    else [d[0]] + Put(d[1..], name, value)
  }

  function Assign(d: seq<(string, Tokens)>, a: Arg, trim: Trim): seq<(string, Tokens)>
  {
    if a.ending != Unclosed then Put(d, a.name, trim(a.raw))
    else if a.name != "" then Put(d, a.name, trim(StripTrailingFunc(a.raw)))
    else d
  }

  function ToDict(d: seq<(string, Tokens)>, args: seq<Arg>, trim: Trim): seq<(string, Tokens)>
    decreases |args|
  {
    if |args| == 0 then d else ToDict(Assign(d, args[0], trim), args[1..], trim)
  }

  lemma DropDrop(s: Tokens, p: nat, a: nat)
    requires p + a <= |s|
    ensures s[p..][a..] == s[p + a..]
  {
  }

  lemma DropTake(s: Tokens, p: nat, a: nat)
    requires p + a <= |s|
    ensures s[p..][..a] == s[p..p + a]
  {
  }

  lemma ParseNone(s: Tokens)
    requires FirstOpen(s) == |s|
    ensures Parse(s) == []
  {
  }

  lemma ParseSome(s: Tokens, body: Tokens, rest: Tokens)
    requires FirstOpen(s) < |s| && body == s[FirstOpen(s) + 1..]
    requires rest == body[CutBody(s[FirstOpen(s)].name, body).next..]
    ensures Parse(s) == [CutBody(s[FirstOpen(s)].name, body).arg] + Parse(rest)
  {
    hide Parse, CutBody, FirstOpen;
    ParseStep(s);
  }

  lemma ParseStep(s: Tokens)
    requires FirstOpen(s) < |s|
    ensures Parse(s) == [FirstCut(s).arg] + Parse(AfterFirst(s))
  {
    hide FirstCut, AfterFirst, FirstOpen;
  }

  // The searches of the loop, in positions of the whole text: from `start` on.

  function OpenFrom(raw: Tokens, start: nat): (i: nat)
    requires start <= |raw|
    ensures start <= i <= |raw| && (i < |raw| ==> raw[i].Open?)
  {
    start + FirstOpen(raw[start..])
  }

  function CloseFrom(raw: Tokens, start: nat): (i: nat)
    requires start <= |raw|
    ensures start <= i <= |raw|
  {
    start + FirstClose(raw[start..])
  }

  function RealCloseFrom(raw: Tokens, start: nat): (i: nat)
    requires start <= |raw|
    ensures start <= i <= |raw|
  {
    start + FirstRealClose(raw[start..])
  }

  lemma OpenFromIs(raw: Tokens, pos: nat)
    requires pos <= |raw|
    ensures OpenFrom(raw, pos) == pos + FirstOpen(raw[pos..])
    ensures OpenFrom(raw, pos) < |raw| ==> raw[OpenFrom(raw, pos)] == raw[pos..][FirstOpen(raw[pos..])]
  {
    hide FirstOpen;
  }

  /** One iteration: searching from pos is searching the suffix. */
  lemma ParseFrom(raw: Tokens, pos: nat)
    requires pos <= |raw|
    ensures var o := OpenFrom(raw, pos);
            Parse(raw[pos..]) ==
              if o == |raw| then []
              else
                var c := CutBody(raw[o].name, raw[o + 1..]);
                [c.arg] + Parse(raw[o + 1 + c.next..])
  {
    hide *;
    OpenFromIs(raw, pos);
    var o := OpenFrom(raw, pos);
    var s := raw[pos..];
    var k := FirstOpen(s);
    if k < |s| {
      DropDrop(raw, pos, k + 1);
      var body := raw[o + 1..];
      var c := CutBody(raw[o].name, body);
      DropDrop(raw, o + 1, c.next);
      ParseSome(s, body, body[c.next..]);
    } else {
      ParseNone(s);
    }
  }

  /** CutBody in positions of the whole text. */
  lemma CutAt(raw: Tokens, start: nat, name: string)
    requires start <= |raw|
    ensures var nxt, end := OpenFrom(raw, start), RealCloseFrom(raw, start);
            CutBody(name, raw[start..]) ==
              if nxt < |raw| && nxt < CloseFrom(raw, start) && AtLineStart(raw[start..nxt]) then
                Cut(Arg(name, raw[start..nxt], NextOpen), nxt - start)
              else if end < |raw| then Cut(Arg(name, raw[start..end], Closed), end + 1 - start)
              else Cut(Arg(name, raw[start..], Unclosed), |raw| - start)
  {
    hide AtLineStart, RealCloseAt;
    DropTake(raw, start, FirstOpen(raw[start..]));
    DropTake(raw, start, FirstRealClose(raw[start..]));
  }

  lemma ToDictCons(d: seq<(string, Tokens)>, a: Arg, rest: seq<Arg>, trim: Trim)
    ensures ToDict(d, [a] + rest, trim) == ToDict(Assign(d, a, trim), rest, trim)
  {
    assert ([a] + rest)[1..] == rest;
  }

  lemma AssignCases(d: seq<(string, Tokens)>, name: string, raw: Tokens, trim: Trim)
    ensures Assign(d, Arg(name, raw, NextOpen), trim) == Put(d, name, trim(raw))
    ensures Assign(d, Arg(name, raw, Closed), trim) == Put(d, name, trim(raw))
    ensures Assign(d, Arg(name, raw, Unclosed), trim) == if name == "" then d
            else Put(d, name, trim(StripTrailingFunc(raw)))
  {
  }

  lemma ToDictNil(d: seq<(string, Tokens)>, trim: Trim)
    ensures ToDict(d, [], trim) == d
  {
  }

  /** What one search from pos does to the dictionary: nothing is left, the value ends at a tag, or it never ends. */
  lemma OneSearch(raw: Tokens, pos: nat, d: seq<(string, Tokens)>, trim: Trim)
    requires pos <= |raw|
    ensures var o := OpenFrom(raw, pos);
            var all := ToDict(d, Parse(raw[pos..]), trim);
            if o == |raw| then all == d
            else
              var name, start := raw[o].name, o + 1;
              var nxt, end := OpenFrom(raw, start), RealCloseFrom(raw, start);
              if nxt < |raw| && nxt < CloseFrom(raw, start) && AtLineStart(raw[start..nxt]) then
                all == ToDict(Put(d, name, trim(raw[start..nxt])), Parse(raw[nxt..]), trim)
              else if end < |raw| then all == ToDict(Put(d, name, trim(raw[start..end])), Parse(raw[end + 1..]), trim)
              else all == if name == "" then d else Put(d, name, trim(StripTrailingFunc(raw[start..])))
  {
    hide *;
    var o := OpenFrom(raw, pos);
    if o == |raw| {
      ParseFrom(raw, pos);
      ToDictNil(d, trim);
    } else {
      var name, start := raw[o].name, o + 1;
      var nxt, end := OpenFrom(raw, start), RealCloseFrom(raw, start);
      var c := CutBody(name, raw[start..]);
      OneArgument(raw, pos, d, trim);
      CutAt(raw, start, name);
      if nxt < |raw| && nxt < CloseFrom(raw, start) && AtLineStart(raw[start..nxt]) {
        AssignCases(d, name, raw[start..nxt], trim);
      } else if end < |raw| {
        AssignCases(d, name, raw[start..end], trim);
      } else {
        NothingAfter(raw, Assign(d, c.arg, trim), trim);
        AssignCases(d, name, raw[start..], trim);
      }
    }
  }

  lemma OneArgument(raw: Tokens, pos: nat, d: seq<(string, Tokens)>, trim: Trim)
    requires pos <= |raw| && OpenFrom(raw, pos) < |raw|
    ensures var o := OpenFrom(raw, pos);
            var c := CutBody(raw[o].name, raw[o + 1..]);
            ToDict(d, Parse(raw[pos..]), trim) == ToDict(Assign(d, c.arg, trim), Parse(raw[o + 1 + c.next..]), trim)
  {
    hide *;
    var o := OpenFrom(raw, pos);
    var c := CutBody(raw[o].name, raw[o + 1..]);
    ParseFrom(raw, pos);
    ToDictCons(d, c.arg, Parse(raw[o + 1 + c.next..]), trim);
  }

  lemma NothingAfter(raw: Tokens, d: seq<(string, Tokens)>, trim: Trim)
    ensures ToDict(d, Parse(raw[|raw|..]), trim) == d
  {
    ParseEmpty(raw);
    ToDictNil(d, trim);
  }

  /** The converter's loop: search for the next tag from pos, decide how its value ends, and move on. */
  method Convert(raw: Tokens, trim: Trim) returns (params: seq<(string, Tokens)>)
    ensures params == ToDict([], Parse(raw), trim)
  {
    hide *;
    params := [];
    var pos := 0;
    assert raw[0..] == raw;
    while true
      invariant 0 <= pos <= |raw|
      invariant ToDict([], Parse(raw), trim) == ToDict(params, Parse(raw[pos..]), trim)
      decreases |raw| - pos
    {
      OneSearch(raw, pos, params, trim);
      var o := OpenFrom(raw, pos);
      if o == |raw| {
        return;
      }
      var name, start := raw[o].name, o + 1;
      var firstClose := CloseFrom(raw, start);
      var realClose := RealCloseFrom(raw, start);
      var nxt := OpenFrom(raw, start);
      if nxt < |raw| && nxt < firstClose && AtLineStart(raw[start..nxt]) {
        params := Put(params, name, trim(raw[start..nxt]));
        pos := nxt;
        continue;
      }
      if realClose < |raw| {
        params := Put(params, name, trim(raw[start..realClose]));
        pos := realClose + 1;
        continue;
      }
      var value := StripTrailingFunc(raw[start..]);
      if name != "" {
        params := Put(params, name, trim(value));
      }
      return;
    }
  }

  lemma ParseEmpty(raw: Tokens)
    ensures Parse(raw[|raw|..]) == []
  {
  }

  // ----- the streaming guard

  /** s ends in </parameter> and white space. */
  predicate EndsClosed(s: Tokens)
  {
    TrimmedEnd(s) > 0 && s[TrimmedEnd(s) - 1].Close?
  }

  /** A function end is taken as the call's own when no argument has begun yet or the last one has been closed. */
  predicate FuncEndCloses(args: Tokens)
  {
    AllSpace(args) || EndsClosed(args)
  }

  /** Position m starts a line of s, blanks aside, or s itself. */
  predicate StartsLine(s: Tokens, m: nat)
    requires m <= |s|
  {
    var b := BlankStart(s[..m]);
    b == 0 || s[b - 1].Newline?
  }

  /** args ends in a </function> on its own line (or at the very start) and white space. */
  predicate EndsFuncLine(args: Tokens)
  {
    HasTrailingFunc(args) && StartsLine(args, TrimmedEnd(args) - 1)
  }

  predicate Closes(args: Tokens, t: Token)
  {
    (t.FuncEnd? && FuncEndCloses(args)) || (t.ToolEnd? && EndsFuncLine(args))
  }

  datatype Stream = Stream(inArgs: bool, args: Tokens, outside: Tokens)

  const START := Stream(true, [], [])

  function Advance(st: Stream, t: Token): Stream
  {
    if !st.inArgs then st.(outside := st.outside + [t])
    else if Closes(st.args, t) then st.(inArgs := false)
    else st.(args := st.args + [t])
  }

  function AdvanceAll(st: Stream, ts: Tokens): Stream
  {
    if |ts| == 0 then st else Advance(AdvanceAll(st, ts[..|ts| - 1]), ts[|ts| - 1])
  }

  /** The engine inside one tool call: it starts in TOOL_ARGS with empty argument text. */
  class Engine {
    var inArgs: bool
    var argsText: Tokens
    var outside: Tokens  // what went anywhere but the call's arguments

    ghost function State(): Stream
      reads this
    {
      Stream(inArgs, argsText, outside)
    }

    constructor ()
      ensures State() == START
    {
      inArgs, argsText, outside := true, [], [];
    }

    /** One token from the lexer. */
    method OnTerminal(t: Token)
      modifies this
      ensures State() == Advance(old(State()), t)
    {
      if !inArgs {
        outside := outside + [t];
        return;
      }
      if t.FuncEnd? || t.ToolEnd? {
        if t.FuncEnd? && !FuncEndCloses(argsText) {
          argsText := argsText + [t];
          return;
        }
        if t.ToolEnd? && EndsFuncLine(argsText) {
          inArgs := false;
          return;
        }
      }
      if t.FuncEnd? {
        inArgs := false;
      } else {
        argsText := argsText + [t];
      }
    }

    method Feed(ts: Tokens)
      modifies this
      ensures State() == AdvanceAll(old(State()), ts)
    {
      var i := 0;
      while i < |ts|
        invariant 0 <= i <= |ts|
        invariant State() == AdvanceAll(old(State()), ts[..i])
      {
        OnTerminal(ts[i]);
        assert ts[..i + 1][..i] == ts[..i];
        i := i + 1;
      }
      assert ts[..i] == ts;
    }
  }
}
