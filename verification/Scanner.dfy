/** The scanner behind smart indenting: one line of script, skipped and peeked at by index,
    against an automaton that takes one character at a time. */
module Scanner {
  datatype BracketKind = Curly | Round | Square

  /** How many more brackets of each kind were opened than closed. */
  datatype BraceDelta = BraceDelta(curly: int, round: int, square: int)

  function Count(d: BraceDelta, kind: BracketKind): int {
    match kind
    case Curly => d.curly
    case Round => d.round
    case Square => d.square
  }

  /** Slash: code, the last character being a slash.  BlockStar: a block comment, the last
      character being a star that may start its end. */
  datatype Mode = Code | Slash | Str(quote: char) | LineComment | Block | BlockStar

  predicate InBlock(m: Mode) {
    m.Block? || m.BlockStar?
  }

  function InCode(ch: char): Mode {
    if ch == '\n' then Code
    else if ch == '/' then Slash
    else if ch == '"' || ch == '\'' then Str(ch)
    else Code
  }

  /** The automaton.  Only a block comment goes on past the end of a line. */
  function Next(m: Mode, ch: char): Mode {
    match m
    case Code => InCode(ch)
    case Slash => if ch == '*' then Block else if ch == '/' then LineComment else InCode(ch)
    case Str(q) => if ch == '\n' || ch == q then Code else m
    case LineComment => if ch == '\n' then Code else LineComment
    case Block => if ch == '*' then BlockStar else Block
    case BlockStar => if ch == '/' then Code else if ch == '*' then BlockStar else Block
  }

  /** What a character counts for among the brackets of one kind. */
  function Bracket(kind: BracketKind, ch: char): int {
    match kind
    case Curly => if ch == '{' then 1 else if ch == '}' then -1 else 0
    case Round => if ch == '(' then 1 else if ch == ')' then -1 else 0
    case Square => if ch == '[' then 1 else if ch == ']' then -1 else 0
  }

  /** The same for a character met in mode m. */
  function Weight(kind: BracketKind, m: Mode, ch: char): int {
    if m.Code? || m.Slash? then Bracket(kind, ch) else 0
  }

  ghost predicate Weightless(m: Mode, ch: char) {
    forall kind :: Weight(kind, m, ch) == 0
  }

  /** The mode after a text. */
  function Run(m: Mode, text: string): Mode
    decreases |text|
  {
    if text == [] then m else Run(Next(m, text[0]), text[1..])
  }

  /** All brackets of one kind in a text that are code. */
  function Sum(kind: BracketKind, m: Mode, text: string): int
    decreases |text|
  {
    if text == [] then 0 else Weight(kind, m, text[0]) + Sum(kind, Next(m, text[0]), text[1..])
  }

  /** All brackets that are code. */
  function Rise(m: Mode, text: string): int {
    Sum(Curly, m, text) + Sum(Round, m, text) + Sum(Square, m, text)
  }

  lemma {:induction false} RunAppend(m: Mode, s: string, t: string)
    ensures Run(m, s + t) == Run(Run(m, s), t)
    decreases |s|
  {
    if s == [] {
      assert s + t == t;
    } else {
      RunAppend(Next(m, s[0]), s[1..], t);
      assert (s + t)[0] == s[0] && (s + t)[1..] == s[1..] + t;
    }
  }

  lemma {:induction false} SumAppend(kind: BracketKind, m: Mode, s: string, t: string)
    ensures Sum(kind, m, s + t) == Sum(kind, m, s) + Sum(kind, Run(m, s), t)
    decreases |s|
  {
    if s == [] {
      assert s + t == t;
    } else {
      SumAppend(kind, Next(m, s[0]), s[1..], t);
      assert (s + t)[0] == s[0] && (s + t)[1..] == s[1..] + t;
    }
  }

  /** The mode in which a line starts. */
  function LineStart(inBlockComment: bool): Mode {
    if inBlockComment then Block else Code
  }

  /** The state of the scanning loop, as the automaton sees it. */
  function ModeOf(inBlockComment: bool, inString: bool, stringChar: char): Mode {
    if inBlockComment then Block else if inString then Str(stringChar) else Code
  }

  /** From these two places the rest of a line counts the same and leaves the same comment
      flag. */
  ghost predicate SameRest(m: Mode, s: string, n: Mode, t: string) {
    InBlock(Run(m, s)) == InBlock(Run(n, t)) && forall kind :: Sum(kind, m, s) == Sum(kind, n, t)
  }

  /** A slash that starts no comment makes no difference to the rest of the line. */
  lemma SlashIsCode(text: string)
    requires text == [] || (text[0] != '/' && text[0] != '*')
    ensures SameRest(Slash, text, Code, text)
  {
  }

  /** Nor does a star that ends no comment. */
  lemma StarIsBlock(text: string)
    requires text == [] || text[0] != '/'
    ensures SameRest(BlockStar, text, Block, text)
  {
  }

  /** Nothing in a line comment counts. */
  lemma {:induction false} RestIsComment(text: string)
    requires '\n' !in text
    ensures Run(LineComment, text) == LineComment && forall kind :: Sum(kind, LineComment, text) == 0
  {
    if text != [] {
      assert text[0] in text;
      RestIsComment(text[1..]);
    }
  }

  /** What is left after position i, where d has been counted so far. */
  ghost predicate Through(start: Mode, text: string, d: BraceDelta, m: Mode, i: nat) {
    && i <= |text| && InBlock(Run(start, text)) == InBlock(Run(m, text[i..]))
    && forall kind :: Sum(kind, start, text) == Count(d, kind) + Sum(kind, m, text[i..])
  }

  /** The loop takes one character; a slash or star that proves harmless is forgotten. */
  lemma OneChar(start: Mode, text: string, d: BraceDelta, m: Mode, i: nat, n: Mode, d': BraceDelta)
    requires Through(start, text, d, m, i) && i < |text|
    requires forall kind :: Count(d', kind) == Count(d, kind) + Weight(kind, m, text[i])
    requires var next := Next(m, text[i]);
             || n == next
             || (next == Slash && n == Code && (i + 1 == |text| || (text[i + 1] != '/' && text[i + 1] != '*')))
             || (next == BlockStar && n == Block && (i + 1 == |text| || text[i + 1] != '/'))
    ensures Through(start, text, d', n, i + 1)
  {
    assert text[i..][0] == text[i] && text[i..][1..] == text[i + 1..];
    if n != Next(m, text[i]) {
      if n == Code { SlashIsCode(text[i + 1..]); } else { StarIsBlock(text[i + 1..]); }
    }
  }

  /** The loop takes the two characters that start or end a comment. */
  lemma TwoChars(start: Mode, text: string, d: BraceDelta, m: Mode, i: nat, n: Mode)
    requires Through(start, text, d, m, i) && i + 1 < |text|
    requires Weightless(m, text[i]) && Weightless(Next(m, text[i]), text[i + 1])
    requires n == Next(Next(m, text[i]), text[i + 1])
    ensures Through(start, text, d, n, i + 2)
  {
    OneChar(start, text, d, m, i, Next(m, text[i]), d);
    OneChar(start, text, d, Next(m, text[i]), i + 1, n, d);
  }

  method NoBrackets() returns (d: BraceDelta)
    ensures forall kind :: Count(d, kind) == 0
  {
    d := BraceDelta(0, 0, 0);
  }

  method CountBracket(deltas: BraceDelta, ch: char) returns (d: BraceDelta)
    ensures forall kind :: Count(d, kind) == Count(deltas, kind) + Bracket(kind, ch)
  {
    d := deltas;
    if ch == '{' {
      d := d.(curly := d.curly + 1);
    } else if ch == '}' {
      d := d.(curly := d.curly - 1);
    } else if ch == '(' {
      d := d.(round := d.round + 1);
    } else if ch == ')' {
      d := d.(round := d.round - 1);
    } else if ch == '[' {
      d := d.(square := d.square + 1);
    } else if ch == ']' {
      d := d.(square := d.square - 1);
    }
  }

  /** CountBraceDelta: the brackets in one line, and whether the next line starts inside a
      block comment. */
  method CountBraceDelta(text: string, inBlockComment: bool) returns (deltas: BraceDelta, stillInBlock: bool)
    requires '\n' !in text
    ensures forall kind :: Count(deltas, kind) == Sum(kind, LineStart(inBlockComment), text)
    ensures stillInBlock == InBlock(Run(LineStart(inBlockComment), text))
  {
    ghost var start := LineStart(inBlockComment);
    var inString, stringChar := false, '\0';
    deltas := NoBrackets();
    stillInBlock := inBlockComment;
    var i := 0;
    assert text[0..] == text;
    while i < |text|
      invariant 0 <= i <= |text| && !(stillInBlock && inString)
      invariant inString ==> stringChar == '"' || stringChar == '\''
      invariant Through(start, text, deltas, ModeOf(stillInBlock, inString, stringChar), i)
    {
      var ch := text[i];
      assert ch in text;
      var next := if i + 1 < |text| then text[i + 1] else '\0';
      if stillInBlock {
        if ch == '*' && next == '/' {
          TwoChars(start, text, deltas, Block, i, Code);
          stillInBlock := false;
          i := i + 2;
        } else {
          OneChar(start, text, deltas, Block, i, Block, deltas);
          i := i + 1;
        }
        continue;
      }
      if !inString && ch == '/' && next == '*' {
        TwoChars(start, text, deltas, Code, i, Block);
        stillInBlock := true;
        i := i + 2;
        continue;
      }
      if !inString && ch == '/' && next == '/' {
        TwoChars(start, text, deltas, Code, i, LineComment);
        RestIsComment(text[i + 2..]);
        return;
      }
      if ch == '"' || ch == '\'' {
        if !inString {
          OneChar(start, text, deltas, Code, i, Str(ch), deltas);
          inString, stringChar := true, ch;
        } else {
          OneChar(start, text, deltas, Str(stringChar), i, if ch == stringChar then Code else Str(stringChar), deltas);
          if ch == stringChar {
            inString := false;
          }
        }
        i := i + 1;
        continue;
      }
      if inString {
        OneChar(start, text, deltas, Str(stringChar), i, Str(stringChar), deltas);
        i := i + 1;
        continue;
      }
      var counted := CountBracket(deltas, ch);
      OneChar(start, text, deltas, Code, i, Code, counted);
      deltas := counted;
      i := i + 1;
    }
  }
}
