/** Smart indenting of the script pane: reflowing the whole script in two passes, and
    indenting each new line as it is typed. */
module Reflow {
  import opened Scanner
  import opened Profiles

  // ----- leading blanks -----

  predicate IsBlank(ch: char) {
    ch == ' ' || ch == '\t'
  }

  /** A line without its leading blanks. */
  function Body(line: string): (body: string)
    ensures body == [] || !IsBlank(body[0])
  {
    if line == [] || !IsBlank(line[0]) then line else Body(line[1..])
  }

  /** The column reached by the leading blanks of what follows column col.  Tabs stop at
      every fifth column. */
  function ColumnsFrom(line: string, col: nat): (r: nat)
    ensures r >= col
    decreases |line|
  {
    if line == [] || !IsBlank(line[0]) then col
    else ColumnsFrom(line[1..], if line[0] == '\t' then col - col % 5 + 5 else col + 1)
  }

  /** The indentation of a line, in columns. */
  function Columns(line: string): nat {
    ColumnsFrom(line, 0)
  }

  /** A blank is one column, and a tab goes on to the next fifth column. */
  lemma {:induction false} TabStops(blanks: nat, line: string)
    requires blanks < 5 && line != [] && !IsBlank(line[0])
    ensures Columns(seq(blanks, _ => ' ') + line) == blanks
    ensures Columns(seq(blanks, _ => ' ') + ("\t" + line)) == 5
  {
    BlanksCount(blanks, line, 0);
    BlanksCount(blanks, "\t" + line, 0);
    assert ("\t" + line)[1..] == line;
  }

  lemma {:induction false} BlanksCount(blanks: nat, rest: string, col: nat)
    ensures ColumnsFrom(seq(blanks, _ => ' ') + rest, col) == ColumnsFrom(rest, col + blanks)
    decreases blanks
  {
    var line := seq(blanks, _ => ' ') + rest;
    if blanks == 0 {
      assert line == rest;
    } else {
      assert line[1..] == seq(blanks - 1, _ => ' ') + rest;
      BlanksCount(blanks - 1, rest, col + 1);
    }
  }

  function Indentation(n: nat): (s: string)
    ensures forall ch :: ch in s ==> IsBlank(ch)
  {
    if n >= 5 then "\t" + Indentation(n - 5) else if n > 0 then " " + Indentation(n - 1) else ""
  }

  /** The line with its leading blanks replaced by n columns. */
  function Reindented(line: string, n: nat): string {
    Indentation(n) + Body(line)
  }

  lemma {:induction false} BodyBehind(blanks: string, body: string)
    requires forall ch :: ch in blanks ==> IsBlank(ch)
    requires body == [] || !IsBlank(body[0])
    ensures Body(blanks + body) == body
  {
    if blanks == [] {
      assert blanks + body == body;
    } else {
      assert blanks[0] in blanks && (blanks + body)[0] == blanks[0];
      assert (blanks + body)[1..] == blanks[1..] + body;
      BodyBehind(blanks[1..], body);
    }
  }

  lemma BlankBefore(blank: string, blanks: string, body: string)
    requires |blank| == 1
    ensures var line := blank + blanks + body; line[0] == blank[0] && line[1..] == blanks + body
  {
  }

  lemma {:induction false} ColumnsBehind(n: nat, col: nat, body: string)
    requires body == [] || !IsBlank(body[0])
    requires n >= 5 ==> col % 5 == 0
    ensures ColumnsFrom(Indentation(n) + body, col) == col + n
    decreases n
  {
    var line := Indentation(n) + body;
    if n >= 5 {
      BlankBefore("\t", Indentation(n - 5), body);
      ColumnsBehind(n - 5, col + 5, body);
    } else if n > 0 {
      BlankBefore(" ", Indentation(n - 1), body);
      ColumnsBehind(n - 1, col + 1, body);
    } else {
      assert line == body;
    }
  }

  /** Setting the indentation of a line does just that: it keeps what follows the blanks,
      and the line then reads as indented by that many columns. */
  lemma IndentationIsSet(line: string, n: nat)
    ensures Body(Reindented(line, n)) == Body(line)
    ensures Columns(Reindented(line, n)) == n
  {
    BodyBehind(Indentation(n), Body(line));
    ColumnsBehind(n, 0, Body(line));
  }

  /** Leading blanks make no difference to the scan of a line. */
  lemma {:induction false} BlanksDoNotMatter(line: string, inBlockComment: bool)
    ensures SameRest(LineStart(inBlockComment), line, LineStart(inBlockComment), Body(line))
  {
    if line != [] && IsBlank(line[0]) {
      var m := LineStart(inBlockComment);
      assert Next(m, line[0]) == m && Weightless(m, line[0]);
      BlanksDoNotMatter(line[1..], inBlockComment);
    }
  }

  // ----- a document -----

  ghost predicate IsDocument(lines: seq<string>) {
    |lines| > 0 && forall k :: 0 <= k < |lines| ==> '\n' !in lines[k]
  }

  /** Whether line k starts inside a block comment. */
  function StartsInBlock(lines: seq<string>, k: nat): bool
    requires k <= |lines|
  {
    k > 0 && InBlock(Run(LineStart(StartsInBlock(lines, k - 1)), lines[k - 1]))
  }

  /** How many more brackets each line opens than it closes. */
  function Rises(lines: seq<string>): seq<int> {
    seq(|lines|, k requires 0 <= k < |lines| => Rise(LineStart(StartsInBlock(lines, k)), lines[k]))
  }

  function Reflowed(lines: seq<string>): seq<string> {
    seq(|lines|, k requires 0 <= k < |lines| => Reindented(lines[k], Indent(Rises(lines), k)))
  }

  /** The indentation a new line is given behind this one, which is scanned as if no block
      comment were open. */
  function IndentBehind(line: string): nat {
    var indent := Columns(line) + InColumns(Rise(Code, line));
    if indent < 0 then 0 else indent
  }

  // ----- what the scan of a document means -----

  /** The first k lines as one text. */
  function Text(lines: seq<string>, k: nat): string
    requires k <= |lines|
  {
    if k == 0 then "" else Text(lines, k - 1) + (lines[k - 1] + "\n")
  }

  lemma LineEnd(m: Mode, line: string)
    ensures Run(m, line + "\n") == LineStart(InBlock(Run(m, line)))
    ensures forall kind :: Sum(kind, m, line + "\n") == Sum(kind, m, line)
  {
    RunAppend(m, line, "\n");
    var end := Run(m, line);
    assert Run(end, "\n") == Run(Next(end, '\n'), "");
    forall kind ensures Sum(kind, m, line + "\n") == Sum(kind, m, line) {
      SumAppend(kind, m, line, "\n");
      assert Sum(kind, end, "\n") == Weight(kind, end, '\n') + Sum(kind, Next(end, '\n'), "");
    }
  }

  /** How many brackets of a kind the automaton has seen open when line k starts. */
  function Seen(kind: BracketKind, lines: seq<string>, k: nat): int
    requires k <= |lines|
  {
    Sum(kind, Code, Text(lines, k))
  }

  function OpenAt(lines: seq<string>, k: nat): int
    requires k <= |lines|
  {
    Seen(Curly, lines, k) + Seen(Round, lines, k) + Seen(Square, lines, k)
  }

  /** The comment flag handed from line to line is the state of one automaton run over the
      whole text before the line, and the depth is the brackets it has seen. */
  lemma {:induction false} LinesAreOneText(lines: seq<string>, k: nat)
    requires k <= |lines|
    ensures Run(Code, Text(lines, k)) == LineStart(StartsInBlock(lines, k))
    ensures OpenAt(lines, k) == Depth(Rises(lines), k)
  {
    if k > 0 {
      LinesAreOneText(lines, k - 1);
      TextStep(lines, k);
    }
  }

  lemma TextStep(lines: seq<string>, k: nat)
    requires 0 < k <= |lines|
    requires Run(Code, Text(lines, k - 1)) == LineStart(StartsInBlock(lines, k - 1))
    ensures Run(Code, Text(lines, k)) == LineStart(StartsInBlock(lines, k))
    ensures forall kind :: Seen(kind, lines, k) == Seen(kind, lines, k - 1) + Sum(kind, LineStart(StartsInBlock(lines, k - 1)), lines[k - 1])
    ensures OpenAt(lines, k) == OpenAt(lines, k - 1) + Rises(lines)[k - 1]
  {
    var start, line := LineStart(StartsInBlock(lines, k - 1)), lines[k - 1];
    RunAppend(Code, Text(lines, k - 1), line + "\n");
    LineEnd(start, line);
    forall kind ensures Seen(kind, lines, k) == Seen(kind, lines, k - 1) + Sum(kind, start, line) {
      SumAppend(kind, Code, Text(lines, k - 1), line + "\n");
    }
  }

  /** Documents that differ in leading blanks only. */
  ghost predicate SameBodies(a: seq<string>, b: seq<string>) {
    |a| == |b| && forall k :: 0 <= k < |a| ==> Body(a[k]) == Body(b[k])
  }

  lemma SameLine(a: string, b: string, inBlockComment: bool)
    requires Body(a) == Body(b)
    ensures SameRest(LineStart(inBlockComment), a, LineStart(inBlockComment), b)
  {
    BlanksDoNotMatter(a, inBlockComment);
    BlanksDoNotMatter(b, inBlockComment);
  }

  lemma {:induction false} SameBodiesSameFlags(a: seq<string>, b: seq<string>, k: nat)
    requires SameBodies(a, b) && k <= |a|
    ensures StartsInBlock(a, k) == StartsInBlock(b, k)
  {
    if k > 0 {
      SameBodiesSameFlags(a, b, k - 1);
      SameLine(a[k - 1], b[k - 1], StartsInBlock(a, k - 1));
    }
  }

  lemma SameBodiesSameRises(a: seq<string>, b: seq<string>)
    requires SameBodies(a, b)
    ensures Rises(a) == Rises(b)
  {
    forall k | 0 <= k < |a| ensures Rises(a)[k] == Rises(b)[k] {
      SameBodiesSameFlags(a, b, k);
      SameLine(a[k], b[k], StartsInBlock(a, k));
    }
  }

  lemma ReflowedLine(lines: seq<string>, k: nat)
    requires k < |lines|
    ensures Body(Reflowed(lines)[k]) == Body(lines[k]) && Columns(Reflowed(lines)[k]) == Indent(Rises(lines), k)
  {
    IndentationIsSet(lines[k], Indent(Rises(lines), k));
  }

  /** Reflowing keeps each line but for its leading blanks, and indents it by what its depth
      is above that of the lowest line. */
  lemma ReflowKeepsBodies(lines: seq<string>)
    ensures SameBodies(lines, Reflowed(lines))
    ensures forall k :: 0 <= k < |lines| ==> Columns(Reflowed(lines)[k]) == Indent(Rises(lines), k)
  {
    forall k | 0 <= k < |lines|
      ensures Body(lines[k]) == Body(Reflowed(lines)[k]) && Columns(Reflowed(lines)[k]) == Indent(Rises(lines), k)
    {
      ReflowedLine(lines, k);
    }
  }

  /** How a script happens to be indented makes no difference to its reflowed form. */
  lemma BlanksMakeNoDifference(a: seq<string>, b: seq<string>)
    requires SameBodies(a, b)
    ensures Reflowed(a) == Reflowed(b)
  {
    SameBodiesSameRises(a, b);
  }

  /** Reflowing a reflowed script changes nothing. */
  lemma ReflowIdempotent(lines: seq<string>)
    ensures Reflowed(Reflowed(lines)) == Reflowed(lines)
  {
    ReflowKeepsBodies(lines);
    BlanksMakeNoDifference(lines, Reflowed(lines));
  }

  /** Some line of a reflowed script is not indented. */
  lemma SomeLineAtZero(lines: seq<string>) returns (k: nat)
    requires lines != []
    ensures k < |lines| && Columns(Reflowed(lines)[k]) == 0
  {
    k := LowestReached(Rises(lines), |lines|);
    ReflowedLine(lines, k);
  }

  /** Every line of a reflowed script is indented by five columns for each bracket open as
      it starts if and only if no line starts with more brackets closed than opened. */
  lemma ReflowedIndents(lines: seq<string>)
    ensures (forall k :: 0 <= k < |lines| ==> Columns(Reflowed(lines)[k]) == 5 * OpenAt(lines, k)) <==>
            (forall k :: 0 <= k < |lines| ==> OpenAt(lines, k) >= 0)
  {
    var rises := Rises(lines);
    forall k | 0 <= k < |lines|
      ensures Columns(Reflowed(lines)[k]) == Indent(rises, k) && OpenAt(lines, k) == Depth(rises, k)
    {
      ReflowedLine(lines, k);
      LinesAreOneText(lines, k);
    }
    IndentIsDepth(rises);
  }

  // ----- typing and reflowing -----

  /** A new line behind a line that is indented by n columns. */
  lemma IndentBehindIs(line: string, n: nat, body: string)
    requires Columns(line) == n && Body(line) == Body(body)
    ensures IndentBehind(line) == var indent := n + InColumns(Rise(Code, body)); if indent < 0 then 0 else indent
  {
    SameLine(line, body, false);
  }

  /** Indenting a line of a reflowed script by n leaves the script as it is if and only if
      the line is indented by n already. */
  lemma IndentedAgain(lines: seq<string>, k: nat, n: nat)
    requires k < |lines|
    ensures var r := Reflowed(lines); r[k := Reindented(r[k], n)] == r <==> n == Indent(Rises(lines), k)
  {
    var r := Reflowed(lines);
    var t := r[k := Reindented(r[k], n)];
    ReflowedLine(lines, k);
    IndentationIsSet(r[k], n);
    if n == Indent(Rises(lines), k) {
      assert t[k] == r[k];
    } else {
      assert Columns(t[k]) != Columns(r[k]);
    }
  }

  /** In a reflowed script, the indentation given to a line when it is started anew is
      exactly the one it has, provided the line before it starts outside a block comment. */
  lemma IncrementalIsBatch(lines: seq<string>, k: nat)
    requires 0 < k < |lines| && !StartsInBlock(lines, k - 1)
    ensures var r := Reflowed(lines); r[k := Reindented(r[k], IndentBehind(r[k - 1]))] == r
  {
    IncrementalExactly(lines, k);
  }

  /** Without that proviso it is the same if and only if the line before it counts for as
      much when taken for code - or for less, and this line is at zero either way. */
  lemma IncrementalExactly(lines: seq<string>, k: nat)
    requires 0 < k < |lines|
    ensures var r := Reflowed(lines);
            var asCode, asIs := Rise(Code, lines[k - 1]), Rise(LineStart(StartsInBlock(lines, k - 1)), lines[k - 1]);
            r[k := Reindented(r[k], IndentBehind(r[k - 1]))] == r <==>
              asCode == asIs || (asCode < asIs && Columns(r[k]) == 0)
  {
    ReflowedLine(lines, k - 1);
    ReflowedLine(lines, k);
    IndentBehindIs(Reflowed(lines)[k - 1], Indent(Rises(lines), k - 1), lines[k - 1]);
    IndentedAgain(lines, k, IndentBehind(Reflowed(lines)[k - 1]));
    IndentStep(Rises(lines), k);
  }

  /** The case does occur: a bracket in a comment that began on an earlier line. */
  lemma CommentMisleads()
    ensures var lines := ["/*", "{", "*/"];
            var r := Reflowed(lines);
            StartsInBlock(lines, 1) && r[2 := Reindented(r[2], IndentBehind(r[1]))] != r
  {
    var lines := ["/*", "{", "*/"];
    assert Run(Code, "/*") == Block by {
      assert "/*"[1..] == "*" && "*"[1..] == "";
      assert Run(Slash, "*") == Run(Block, "");
    }
    assert !StartsInBlock(lines, 0);
    assert InBlock(Run(LineStart(StartsInBlock(lines, 0)), lines[0]));
    assert StartsInBlock(lines, 1);
    OneBracket();
    IncrementalExactly(lines, 2);
  }

  lemma OneBracket()
    ensures Rise(Code, "{") == 1 && Rise(Block, "{") == 0
  {
    assert "{"[1..] == "";
  }

  /** A script typed in, line by line, each line without leading blanks of its own. */
  function Typed(bodies: seq<string>): (lines: seq<string>)
    ensures |lines| == |bodies|
  {
    if bodies == [] then []
    else
      var n := |bodies| - 1;
      var before := Typed(bodies[..n]);
      before + [Reindented(bodies[n], if n == 0 then 0 else IndentBehind(before[n - 1]))]
  }

  /** How many more brackets each line opens than it closes when taken for code. */
  function CodeRises(lines: seq<string>): (codes: seq<int>)
    ensures Coded(lines, codes)
  {
    seq(|lines|, k requires 0 <= k < |lines| => Rise(Code, lines[k]))
  }

  ghost predicate Coded(lines: seq<string>, codes: seq<int>) {
    |codes| == |lines| && forall k {:trigger Rise(Code, lines[k])} :: 0 <= k < |lines| ==> codes[k] == Rise(Code, lines[k])
  }

  /** Lines 0 to n are typed in already. */
  ghost predicate TypedSoFar(bodies: seq<string>, codes: seq<int>, lines: seq<string>, n: nat)
    requires n <= |lines| <= |bodies| == |codes|
  {
    forall k :: 0 <= k < n ==> lines[k] == Reindented(bodies[k], TypedIndent(codes, k))
  }

  lemma {:induction false} TypedLines(bodies: seq<string>, codes: seq<int>, n: nat, lines: seq<string>)
    requires n <= |bodies| && Coded(bodies, codes) && lines == Typed(bodies[..n])
    ensures TypedSoFar(bodies, codes, lines, n)
  {
    if n > 0 {
      var before := Typed(bodies[..n - 1]);
      TypedLines(bodies, codes, n - 1, before);
      TypedStep(bodies, codes, n, before, lines);
    }
  }

  lemma TypedStep(bodies: seq<string>, codes: seq<int>, n: nat, before: seq<string>, lines: seq<string>)
    requires 0 < n <= |bodies| && Coded(bodies, codes) && before == Typed(bodies[..n - 1]) && lines == Typed(bodies[..n])
    requires TypedSoFar(bodies, codes, before, n - 1)
    ensures TypedSoFar(bodies, codes, lines, n)
  {
    TypedNext(bodies, n - 1, before);
    NextIndent(bodies, codes, n - 1, before);
    TypedOneMore(bodies, codes, n - 1, before, lines, TypedIndent(codes, n - 1));
  }

  lemma NextIndent(bodies: seq<string>, codes: seq<int>, n: nat, before: seq<string>)
    requires n == |before| < |bodies| && Coded(bodies, codes) && TypedSoFar(bodies, codes, before, n)
    ensures (if n == 0 then 0 else IndentBehind(before[n - 1])) == TypedIndent(codes, n)
  {
    if n > 0 {
      IndentBehindTyped(bodies, codes, n - 1, before[n - 1]);
    }
  }

  lemma TypedOneMore(bodies: seq<string>, codes: seq<int>, n: nat, before: seq<string>, lines: seq<string>, indent: nat)
    requires n == |before| < |bodies| == |codes| && TypedSoFar(bodies, codes, before, n)
    requires indent == TypedIndent(codes, n) && lines == before + [Reindented(bodies[n], indent)]
    ensures TypedSoFar(bodies, codes, lines, n + 1)
  {
  }

  lemma TypedNext(bodies: seq<string>, n: nat, before: seq<string>)
    requires n < |bodies| && before == Typed(bodies[..n])
    ensures Typed(bodies[..n + 1]) == before + [Reindented(bodies[n], if n == 0 then 0 else IndentBehind(before[n - 1]))]
  {
    assert bodies[..n + 1][..n] == bodies[..n];
  }

  lemma IndentBehindTyped(bodies: seq<string>, codes: seq<int>, k: nat, line: string)
    requires k < |bodies| && Coded(bodies, codes) && line == Reindented(bodies[k], TypedIndent(codes, k))
    ensures IndentBehind(line) == TypedIndent(codes, k + 1)
  {
    IndentationIsSet(bodies[k], TypedIndent(codes, k));
    IndentBehindIs(line, TypedIndent(codes, k), bodies[k]);
  }

  lemma SameIndentSameLine(line: string, m: nat, n: nat)
    ensures Reindented(line, m) == Reindented(line, n) <==> m == n
  {
    IndentationIsSet(line, m);
    IndentationIsSet(line, n);
  }

  /** The line before line k counts for as much when taken for code - or for less, and line k
      starts with no bracket open. */
  ghost predicate CodeCounts(bodies: seq<string>, k: nat)
    requires 0 < k < |bodies|
  {
    var asCode, asIs := Rise(Code, bodies[k - 1]), Rise(LineStart(StartsInBlock(bodies, k - 1)), bodies[k - 1]);
    asCode == asIs || (asCode < asIs && OpenAt(bodies, k) == 0)
  }

  lemma SameLines(bodies: seq<string>, codes: seq<int>, rises: seq<int>, typed: seq<string>)
    requires codes == CodeRises(bodies) && rises == Rises(bodies)
    requires |typed| == |bodies| && TypedSoFar(bodies, codes, typed, |bodies|)
    ensures typed == Reflowed(bodies) <==> forall k :: 0 <= k < |rises| ==> TypedIndent(codes, k) == Indent(rises, k)
  {
    var reflowed := Reflowed(bodies);
    forall k | 0 <= k < |bodies|
      ensures typed[k] == reflowed[k] <==> TypedIndent(codes, k) == Indent(rises, k)
    {
      SameIndentSameLine(bodies[k], TypedIndent(codes, k), Indent(rises, k));
    }
  }

  lemma CodesCount(bodies: seq<string>, codes: seq<int>, rises: seq<int>)
    requires codes == CodeRises(bodies) && rises == Rises(bodies)
    ensures (forall k :: 0 < k < |bodies| ==> CodeCounts(bodies, k)) <==> forall k :: 0 < k < |rises| ==> StepAgrees(codes, rises, k)
  {
    forall k | 0 < k < |bodies| ensures CodeCounts(bodies, k) <==> StepAgrees(codes, rises, k) {
      LinesAreOneText(bodies, k);
    }
  }

  lemma NeverClosed(bodies: seq<string>, rises: seq<int>)
    requires rises == Rises(bodies)
    ensures (forall k :: 0 <= k < |bodies| ==> OpenAt(bodies, k) >= 0) <==> NeverNegative(rises)
  {
    forall k | 0 <= k < |bodies| ensures OpenAt(bodies, k) == Depth(rises, k) {
      LinesAreOneText(bodies, k);
    }
  }

  lemma TypedExactly(bodies: seq<string>, codes: seq<int>, rises: seq<int>)
    requires codes == CodeRises(bodies) && rises == Rises(bodies)
    ensures Typed(bodies) == Reflowed(bodies) <==>
            NeverNegative(rises) && forall k :: 0 < k < |rises| ==> StepAgrees(codes, rises, k)
  {
    assert bodies[..|bodies|] == bodies;
    TypedLines(bodies, codes, |bodies|, Typed(bodies));
    SameLines(bodies, codes, rises, Typed(bodies));
    TypedIsReflowed(codes, rises);
  }

  /** Typing a script and reflowing it come to the same if and only if no line starts with
      more brackets closed than opened and none that starts inside a block comment misleads. */
  lemma TypingIsReflowing(bodies: seq<string>)
    ensures Typed(bodies) == Reflowed(bodies) <==>
            (forall k :: 0 <= k < |bodies| ==> OpenAt(bodies, k) >= 0) && forall k :: 0 < k < |bodies| ==> CodeCounts(bodies, k)
  {
    var codes, rises := CodeRises(bodies), Rises(bodies);
    NeverClosed(bodies, rises);
    CodesCount(bodies, codes, rises);
    TypedExactly(bodies, codes, rises);
  }
}
