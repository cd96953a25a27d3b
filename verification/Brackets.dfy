/** What the automaton of the scanner counts, in terms of the text alone. */
module Brackets {
  import opened Scanner

  function Opening(kind: BracketKind): char {
    match kind
    case Curly => '{'
    case Round => '('
    case Square => '['
  }

  function Closing(kind: BracketKind): char {
    match kind
    case Curly => '}'
    case Round => ')'
    case Square => ']'
  }

  /** No quote, and no slash with a slash or star behind it. */
  ghost predicate Plain(text: string) {
    && (forall i :: 0 <= i < |text| ==> text[i] != '"' && text[i] != '\'')
    && (forall i :: 0 <= i < |text| - 1 && text[i] == '/' ==> text[i + 1] != '/' && text[i + 1] != '*')
  }

  /** In plain text all brackets count, and nothing else does. */
  lemma {:induction false} PlainCounts(text: string, m: Mode, kind: BracketKind)
    requires Plain(text) && (m == Code || (m == Slash && (text == [] || (text[0] != '/' && text[0] != '*'))))
    ensures Sum(kind, m, text) == multiset(text)[Opening(kind)] as int - multiset(text)[Closing(kind)] as int
    ensures Run(m, text) == Code || Run(m, text) == Slash
    decreases |text|
  {
    if text != [] {
      assert text == [text[0]] + text[1..];
      assert multiset(text) == multiset{text[0]} + multiset(text[1..]);
      PlainCounts(text[1..], Next(m, text[0]), kind);
    }
  }

  /** A text between quotes of one sort, with no such quote and no line end in it, counts for
      nothing, whatever else it may have. */
  lemma QuotedCounts(q: char, text: string, kind: BracketKind)
    requires (q == '"' || q == '\'') && q !in text && '\n' !in text
    ensures Sum(kind, Code, [q] + text + [q]) == 0 && Run(Code, [q] + text + [q]) == Code
  {
    var all := [q] + text + [q];
    assert all == [q] + (text + [q]);
    assert all[1..] == text + [q];
    InQuotes(q, text, kind);
  }

  lemma {:induction false} InQuotes(q: char, text: string, kind: BracketKind)
    requires q !in text && '\n' !in text
    ensures Sum(kind, Str(q), text + [q]) == 0 && Run(Str(q), text + [q]) == Code
    decreases |text|
  {
    if text == [] {
      assert text + [q] == [q] && [q][1..] == [];
    } else {
      assert (text + [q])[1..] == text[1..] + [q];
      InQuotes(q, text[1..], kind);
    }
  }

  /** No star with a slash behind it. */
  ghost predicate EndsNoBlock(text: string) {
    forall i :: 0 <= i < |text| - 1 && text[i] == '*' ==> text[i + 1] != '/'
  }

  /** A block comment counts for nothing, on however many lines. */
  lemma BlockCounts(text: string, kind: BracketKind)
    requires EndsNoBlock(text)
    ensures Sum(kind, Code, "/*" + text + "*/") == 0 && Run(Code, "/*" + text + "*/") == Code
  {
    var all := "/*" + text + "*/";
    assert all[1..] == "*" + (text + "*/") && all[1..][1..] == text + "*/";
    InBlockComment(text, Block, kind);
  }

  lemma {:induction false} InBlockComment(text: string, m: Mode, kind: BracketKind)
    requires EndsNoBlock(text) && (m == Block || (m == BlockStar && (text == [] || text[0] != '/')))
    ensures Sum(kind, m, text + "*/") == 0 && Run(m, text + "*/") == Code
    decreases |text|
  {
    if text == [] {
      assert text + "*/" == "*/" && "*/"[1..] == "/" && "/"[1..] == "";
      assert Run(BlockStar, "/") == Run(Code, "");
      assert Sum(kind, BlockStar, "/") == 0;
    } else {
      assert (text + "*/")[1..] == text[1..] + "*/";
      InBlockComment(text[1..], Next(m, text[0]), kind);
    }
  }

  /** Nor does the rest of a line behind two slashes. */
  lemma LineCommentCounts(text: string, kind: BracketKind)
    requires '\n' !in text
    ensures Sum(kind, Code, "//" + text) == 0 && Run(Code, "//" + text + "\n") == Code
  {
    var all := "//" + text;
    assert all[1..] == "/" + text && all[1..][1..] == text;
    InLineComment(text, kind);
    assert ("//" + text + "\n")[1..] == "/" + (text + "\n") && ("/" + (text + "\n"))[1..] == text + "\n";
  }

  lemma {:induction false} InLineComment(text: string, kind: BracketKind)
    requires '\n' !in text
    ensures Sum(kind, LineComment, text) == 0 && Run(LineComment, text + "\n") == Code
    decreases |text|
  {
    if text == [] {
      assert text + "\n" == "\n" && "\n"[1..] == "";
    } else {
      assert (text + "\n")[1..] == text[1..] + "\n";
      InLineComment(text[1..], kind);
    }
  }
}
