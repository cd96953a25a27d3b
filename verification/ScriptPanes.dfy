/** The script pane, whose lines are indented in place. */
module ScriptPanes {
  import opened Scanner
  import opened Profiles
  import opened Reflow

  /** What a reflow reports: a kind of bracket opened more often than closed (or, if the excess is
      negative, the other way about), and two kinds that may have been confused. */
  datatype Finding = Imbalance(kind: BracketKind, excess: int) | Confusion(one: BracketKind, other: BracketKind)

  /** Two kinds look confused if one is short of closing brackets and the other of opening
      ones.  (Curly comes before round and round before square.) */
  predicate LooksConfused(d: BraceDelta, one: BracketKind, other: BracketKind) {
    && ((one.Curly? && !other.Curly?) || (one.Round? && other.Square?))
    && ((Count(d, one) > 0 && Count(d, other) < 0) || (Count(d, one) < 0 && Count(d, other) > 0))
  }

  /** A report says everything there is to say about the brackets of a script. */
  ghost predicate Reports(report: seq<Finding>, d: BraceDelta) {
    && (forall kind, excess :: Imbalance(kind, excess) in report <==> excess == Count(d, kind) != 0)
    && (forall one, other :: Confusion(one, other) in report <==> LooksConfused(d, one, other))
  }

  /** Nothing is reported if and only if every kind of bracket balances. */
  lemma SilentMeansBalanced(report: seq<Finding>, d: BraceDelta)
    requires Reports(report, d)
    ensures report == [] <==> forall kind :: Count(d, kind) == 0
  {
    if report == [] {
      forall kind ensures Count(d, kind) == 0 {
        assert Imbalance(kind, Count(d, kind)) !in report;
      }
    } else {
      match report[0]
      case Imbalance(kind, excess) => assert Imbalance(kind, excess) in report;
      case Confusion(one, other) => assert Confusion(one, other) in report;
    }
  }

  /** The sign of an imbalance as -1, 0 or 1. */
  function Sign(n: int): int {
    (if n > 0 then 1 else 0) - (if n < 0 then 1 else 0)
  }

  class ScriptPane {
    var lines: seq<string>

    ghost predicate Valid()
      reads this
    {
      IsDocument(lines)
    }

    constructor (lines: seq<string>)
      requires IsDocument(lines)
      ensures Valid() && this.lines == lines
    {
      this.lines := lines;
    }

    method SetLineIndentation(line: nat, columns: nat)
      requires Valid() && line < |lines|
      modifies this
      ensures Valid() && lines == old(lines)[line := Reindented(old(lines)[line], columns)]
    {
      NoLineEnds(lines[line], columns);
      lines := lines[line := Reindented(lines[line], columns)];
    }

    method Report(d: BraceDelta) returns (report: seq<Finding>)
      ensures Reports(report, d)
    {
      report := [];
      if d.curly != 0 { report := report + [Imbalance(Curly, d.curly)]; }
      if d.round != 0 { report := report + [Imbalance(Round, d.round)]; }
      if d.square != 0 { report := report + [Imbalance(Square, d.square)]; }
      var csign, rsign, ssign := Sign(d.curly), Sign(d.round), Sign(d.square);
      if csign != 0 && csign == -rsign { report := report + [Confusion(Curly, Round)]; }
      if csign != 0 && csign == -ssign { report := report + [Confusion(Curly, Square)]; }
      if rsign != 0 && rsign == -ssign { report := report + [Confusion(Round, Square)]; }
    }

    /** Reflow the whole script: first the raw indents, which can go negative, and their
        minimum; then every line is moved by that minimum.  The report is on the whole. */
    method FormatIndentation() returns (report: seq<Finding>)
      requires Valid()
      modifies this
      ensures Valid() && lines == Reflowed(old(lines))
      ensures exists d :: Reports(report, d) && Tallied(d, old(lines), |old(lines)|)
    {
      ghost var script := lines;
      var lineIndent, minIndent, overall := RawIndents(lines);
      report := Report(overall);
      var offset := -minIndent;
      var line := 0;
      while line < |lines|
        invariant line <= |lines| == |script| && Valid() && lineIndent.Length == |script|
        invariant forall k :: 0 <= k < |script| ==> lineIndent[k] + offset == Indent(Rises(script), k)
        invariant forall k :: 0 <= k < line ==> lines[k] == Reflowed(script)[k]
        invariant forall k :: line <= k < |script| ==> lines[k] == script[k]
      {
        var finalIndent := lineIndent[line] + offset;
        if finalIndent < 0 {
          finalIndent := 0;
        }
        SetLineIndentation(line, finalIndent);
        line := line + 1;
      }
    }

    /** A character has been typed; a line end indents the line it has started. */
    method OnScriptCharAdded(key: char, currentLine: nat)
      requires Valid() && currentLine < |lines|
      modifies this
      ensures Valid()
      ensures lines == if key != '\n' || currentLine == 0 then old(lines)
                       else old(lines)[currentLine := Reindented(old(lines)[currentLine], IndentBehind(old(lines)[currentLine - 1]))]
    {
      if key == '\n' {
        if currentLine == 0 {
          return;
        }
        var indent := Columns(lines[currentLine - 1]);
        var deltas, inBlockComment := CountBraceDelta(lines[currentLine - 1], false);
        RiseIs(Code, lines[currentLine - 1], deltas);
        indent := indent + InColumns(deltas.curly + deltas.round + deltas.square);
        if indent < 0 {
          indent := 0;
        }
        SetLineIndentation(currentLine, indent);
      }
    }

    /** The user starts a new last line and types it, without blanks at its start. */
    method TypeLine(body: string)
      requires Valid() && '\n' !in body && Body(body) == body
      modifies this
      ensures Valid() && lines == old(lines) + [Reindented(body, IndentBehind(old(lines)[|old(lines)| - 1]))]
      ensures forall bodies :: old(lines) == Typed(bodies) ==> lines == Typed(bodies + [body])
    {
      ghost var before := lines;
      var n := |lines|;
      lines := lines + [""];
      OnScriptCharAdded('\n', n);
      ghost var indent := IndentBehind(before[n - 1]);
      NoLineEnds(body, indent);
      assert Reindented("", indent) + body == Reindented(body, indent);
      lines := lines[n := lines[n] + body];
      forall bodies | before == Typed(bodies) ensures lines == Typed(bodies + [body]) {
        TypedAppend(bodies, body);
      }
    }
  }

  lemma TypedAppend(bodies: seq<string>, body: string)
    requires bodies != []
    ensures Typed(bodies + [body]) == Typed(bodies) + [Reindented(body, IndentBehind(Typed(bodies)[|bodies| - 1]))]
  {
    assert (bodies + [body])[..|bodies|] == bodies;
  }

  /** d has all brackets of the first k lines. */
  ghost predicate Tallied(d: BraceDelta, lines: seq<string>, k: nat)
    requires k <= |lines|
  {
    d.curly == Seen(Curly, lines, k) && d.round == Seen(Round, lines, k) && d.square == Seen(Square, lines, k)
  }

  /** The first pass: the raw indent of each line, their minimum and all brackets. */
  method RawIndents(lines: seq<string>) returns (lineIndent: array<int>, minIndent: int, overall: BraceDelta)
    requires forall k :: 0 <= k < |lines| ==> '\n' !in lines[k]
    ensures fresh(lineIndent) && lineIndent.Length == |lines|
    ensures forall k :: 0 <= k < |lines| ==> lineIndent[k] - minIndent == Indent(Rises(lines), k)
    ensures Tallied(overall, lines, |lines|)
  {
    ghost var rises := Rises(lines);
    lineIndent := new int[|lines|];
    overall := NoBrackets();
    minIndent := 0;
    var indent, inBlockComment, line := 0, false, 0;
    NothingTallied(overall, lines);
    while line < |lines|
      invariant line <= |lines| && indent == InColumns(Depth(rises, line)) && minIndent == InColumns(Lowest(rises, line))
      invariant lineIndent[..line] == RawList(rises, line)
      invariant inBlockComment == StartsInBlock(lines, line) && Tallied(overall, lines, line)
    {
      lineIndent[line] := indent;
      assert lineIndent[..line + 1] == lineIndent[..line] + [indent];
      if indent < minIndent {
        minIndent := indent;
      }
      var rise;
      rise, inBlockComment, overall := ScanLine(lines, line, inBlockComment, overall, rises);
      indent := indent + InColumns(rise);
      line := line + 1;
    }
    assert lineIndent[..] == lineIndent[..line];
    RawToFinal(lineIndent[..], rises, minIndent);
  }

  /** One line of the first pass. */
  method ScanLine(lines: seq<string>, line: nat, inBlockComment: bool, overall: BraceDelta, ghost rises: seq<int>)
    returns (rise: int, stillInBlock: bool, total: BraceDelta)
    requires line < |lines| && '\n' !in lines[line] && rises == Rises(lines)
    requires inBlockComment == StartsInBlock(lines, line) && Tallied(overall, lines, line)
    ensures stillInBlock == StartsInBlock(lines, line + 1) && rise == rises[line] && Tallied(total, lines, line + 1)
  {
    var deltas;
    deltas, stillInBlock := CountBraceDelta(lines[line], inBlockComment);
    rise := deltas.curly + deltas.round + deltas.square;
    total := Add(overall, deltas);
    LinesAreOneText(lines, line);
    TextStep(lines, line + 1);
    RiseIs(LineStart(inBlockComment), lines[line], deltas);
    OneMoreLine(overall, deltas, total, lines, line);
  }

  /** The raw indents of the first k lines. */
  function RawList(rises: seq<int>, k: nat): (r: seq<int>)
    requires k <= |rises|
    ensures |r| == k
  {
    if k == 0 then [] else RawList(rises, k - 1) + [InColumns(Depth(rises, k - 1))]
  }

  lemma {:induction false} RawListAt(rises: seq<int>, n: nat, k: nat)
    requires k < n <= |rises|
    ensures RawList(rises, n)[k] == InColumns(Depth(rises, k))
  {
    if k < n - 1 {
      RawListAt(rises, n - 1, k);
    }
  }

  /** The raw indents, moved by their minimum, are the final ones. */
  lemma RawToFinal(raw: seq<int>, rises: seq<int>, minIndent: int)
    requires raw == RawList(rises, |rises|) && minIndent == InColumns(Lowest(rises, |rises|))
    ensures forall k :: 0 <= k < |rises| ==> raw[k] - minIndent == Indent(rises, k)
  {
    forall k | 0 <= k < |rises| ensures raw[k] - minIndent == Indent(rises, k) {
      RawListAt(rises, |rises|, k);
    }
  }

  lemma NothingTallied(d: BraceDelta, lines: seq<string>)
    requires forall kind :: Count(d, kind) == 0
    ensures Tallied(d, lines, 0)
  {
    assert Count(d, Curly) == 0 && Count(d, Round) == 0 && Count(d, Square) == 0;
  }

  lemma OneMoreLine(overall: BraceDelta, deltas: BraceDelta, total: BraceDelta, lines: seq<string>, k: nat)
    requires k < |lines| && Tallied(overall, lines, k)
    requires forall kind :: Count(total, kind) == Count(overall, kind) + Count(deltas, kind)
    requires forall kind :: Seen(kind, lines, k + 1) == Seen(kind, lines, k) + Count(deltas, kind)
    ensures Tallied(total, lines, k + 1)
  {
    assert Count(total, Curly) == total.curly && Count(total, Round) == total.round && Count(total, Square) == total.square;
  }

  method Add(d: BraceDelta, e: BraceDelta) returns (sum: BraceDelta)
    ensures forall kind :: Count(sum, kind) == Count(d, kind) + Count(e, kind)
  {
    sum := BraceDelta(d.curly + e.curly, d.round + e.round, d.square + e.square);
  }

  lemma RiseIs(m: Mode, line: string, d: BraceDelta)
    requires forall kind :: Count(d, kind) == Sum(kind, m, line)
    ensures d.curly + d.round + d.square == Rise(m, line)
  {
    assert Count(d, Curly) == Sum(Curly, m, line) && Count(d, Round) == Sum(Round, m, line) && Count(d, Square) == Sum(Square, m, line);
  }

  lemma NoLineEnds(line: string, columns: nat)
    requires '\n' !in line
    ensures '\n' !in Reindented(line, columns)
  {
    PartOf(line);
  }

  lemma {:induction false} PartOf(line: string)
    ensures forall ch :: ch in Body(line) ==> ch in line
  {
    if line != [] && IsBlank(line[0]) {
      PartOf(line[1..]);
    }
  }

}
