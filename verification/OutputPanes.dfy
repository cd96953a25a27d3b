/** The output pane, which keeps the latest 100000 characters or so, from the start of a line
    if one starts near the top, below a note that says so. */
module OutputPanes {
  const NOTE := "<Text has been deleted>\n"

  lemma NoteEndsInLineEnd()
    ensures |NOTE| == 24 && NOTE[23] == '\n' && forall i :: 0 <= i < 23 ==> NOTE[i] != '\n'
  {
  }

  /** The position of the first line end, or the length of the text. */
  function LineEnd(text: string): (p: nat)
    ensures p <= |text|
    ensures p < |text| ==> text[p] == '\n'
    ensures forall i :: 0 <= i < p ==> text[i] != '\n'
  {
    if text == [] || text[0] == '\n' then 0 else 1 + LineEnd(text[1..])
  }

  /** The text from its first line on that starts in the first hundred characters, or else
      from where it is. */
  function FromLineStart(text: string): string
    requires |text| >= 100
  {
    var p := LineEnd(text[..100]);
    if p < 100 then text[p + 1..] else text
  }

  function Limited(text: string): string {
    if |text| <= 100000 then text else NOTE + FromLineStart(text[|text| - 100000..])
  }

  lemma LimitedLong(text: string, kept: string, lines: string)
    requires |text| > 100000 && kept == text[|text| - 100000..] && lines == FromLineStart(kept)
    ensures Limited(text) == NOTE + lines
  {
  }

  class OutputPane {
    var text: string

    constructor ()
      ensures text == ""
    {
      text := "";
    }

    method DeleteRange(start: nat, length: nat)
      requires start + length <= |text|
      modifies this
      ensures text == old(text)[..start] + old(text)[start + length..]
    {
      text := text[..start] + text[start + length..];
    }

    method InsertText(position: nat, more: string)
      requires position <= |text|
      modifies this
      ensures text == old(text)[..position] + more + old(text)[position..]
    {
      text := text[..position] + more + text[position..];
    }

    /** The first line end between two positions, or -1. */
    method FindLineEnd(start: nat, end: nat) returns (p: int)
      requires start <= end <= |text|
      ensures p == if LineEnd(text[start..end]) < end - start then start + LineEnd(text[start..end]) else -1
    {
      var i := start;
      while i < end
        invariant start <= i <= end && forall k :: start <= k < i ==> text[k] != '\n'
      {
        if text[i] == '\n' {
          assert text[start..end][i - start] == '\n';
          return i;
        }
        i := i + 1;
      }
      p := -1;
    }

    method DeleteTop(length: nat)
      requires length <= |text|
      modifies this
      ensures text == old(text)[length..]
    {
      DeleteRange(0, length);
      assert text == old(text)[length..];
    }

    method InsertAtTop(more: string)
      modifies this
      ensures text == more + old(text)
    {
      InsertText(0, more);
      assert text == more + old(text);
    }

    /** Delete up to the first line start in the first hundred characters. */
    method DeleteToLineStart()
      requires |text| >= 100
      modifies this
      ensures text == FromLineStart(old(text))
    {
      assert text[0..100] == text[..100];
      var newlinePos := FindLineEnd(0, 100);
      if newlinePos != -1 {
        DeleteTop(newlinePos + 1);
      }
    }

    method LimitOutput()
      modifies this
      ensures text == Limited(old(text))
    {
      var maxLength := 100000;
      var textLength := |text|;
      if textLength > maxLength {
        DeleteTop(textLength - maxLength);
        ghost var kept := text;
        DeleteToLineStart();
        ghost var lines := text;
        InsertAtTop(NOTE);
        LimitedLong(old(text), kept, lines);
      }
    }

    /** Text is put out. */
    method AppendText(more: string)
      modifies this
      ensures text == Limited(old(text) + more)
    {
      text := text + more;
      LimitOutput();
    }
  }

  /** Text over the limit is cut to its last 100000 characters, and then to what follows the first
      line end if one is among the first hundred of these - otherwise not. */
  lemma LimitedExactly(text: string) returns (d: nat)
    requires |text| > 100000
    ensures d <= 100 && Limited(text) == "<Text has been deleted>\n" + text[|text| - 100000 + d..]
    ensures var top := text[|text| - 100000..|text| - 99900];
            if d == 0 then '\n' !in top else top[d - 1] == '\n' && '\n' !in top[..d - 1]
  {
    var kept := text[|text| - 100000..];
    assert kept[..100] == text[|text| - 100000..|text| - 99900];
    var p := LineEnd(kept[..100]);
    d := if p < 100 then p + 1 else 0;
    assert kept[d..] == text[|text| - 100000 + d..];
  }

  // ----- any number of appends -----

  function All(appends: seq<string>): string {
    if appends == [] then "" else All(appends[..|appends| - 1]) + appends[|appends| - 1]
  }

  function Shown(appends: seq<string>): string {
    if appends == [] then "" else Limited(Shown(appends[..|appends| - 1]) + appends[|appends| - 1])
  }

  function Last(text: string, n: nat): string
    requires n <= |text|
  {
    text[|text| - n..]
  }

  /** The pane shows the note and then exactly the last n characters of the text. */
  ghost predicate ShowsLast(shown: string, all: string, n: nat) {
    n <= |all| && shown == NOTE + Last(all, n)
  }

  /** The last n characters start with a line, or with a hundred characters without a line end. */
  ghost predicate StartsWell(all: string, n: nat) {
    100 <= n < |all| && (all[|all| - n - 1] == '\n' || '\n' !in Last(all, n)[..100])
  }

  lemma StartsOn(all: string, n: nat, more: string)
    requires StartsWell(all, n)
    ensures Last(all + more, n + |more|) == Last(all, n) + more && StartsWell(all + more, n + |more|)
  {
  }

  lemma ShownWithMore(shown: string, all: string, n: nat, more: string)
    requires ShowsLast(shown, all, n)
    ensures ShowsLast(shown + more, all + more, n + |more|)
  {
    LastWithMore(all, n, more);
    assert shown + more == NOTE + (Last(all, n) + more);
  }

  lemma LastWithMore(all: string, n: nat, more: string)
    requires n <= |all|
    ensures Last(all + more, n + |more|) == Last(all, n) + more
  {
  }

  /** One more append to a pane that has been cut already: the note in it goes as a whole,
      even if the cut leaves part of it. */
  lemma CutAgain(shown: string, all: string, n: nat, more: string) returns (m: nat)
    requires ShowsLast(shown, all, n) && 99900 <= n && StartsWell(all, n)
    ensures 99900 <= m && ShowsLast(Limited(shown + more), all + more, m) && StartsWell(all + more, m)
    ensures |Limited(shown + more)| <= 100024
  {
    ShownWithMore(shown, all, n, more);
    StartsOn(all, n, more);
    m := LimitedAgain(shown + more, all + more, n + |more|);
  }

  lemma LimitedAgain(shown: string, all: string, n: nat) returns (m: nat)
    requires 99900 <= n && StartsWell(all, n) && ShowsLast(shown, all, n)
    ensures 99900 <= m && ShowsLast(Limited(shown), all, m) && StartsWell(all, m)
    ensures |Limited(shown)| <= 100024
  {
    NoteEndsInLineEnd();
    if n + 24 <= 100000 {
      m := n;
    } else {
      m := CutNote(all, n);
    }
  }

  lemma CutNote(all: string, n: nat) returns (m: nat)
    requires StartsWell(all, n) && n + 24 > 100000
    ensures 99900 <= m && ShowsLast(Limited(NOTE + Last(all, n)), all, m) && StartsWell(all, m) && m <= 100000
  {
    NoteEndsInLineEnd();
    var shownText := Last(all, n);
    var text := NOTE + shownText;
    var cut := |text| - 100000;
    var kept := text[cut..];
    if cut < 24 {
      NoteGoes(shownText, cut, kept);
      m := n;
    } else {
      assert kept == Last(all, 100000);
      m := KeptIsLast(all, kept);
    }
  }

  lemma NoteGoes(shownText: string, cut: nat, kept: string)
    requires 0 < cut < 24 && |NOTE + shownText| == 100000 + cut && kept == (NOTE + shownText)[cut..]
    ensures FromLineStart(kept) == shownText
  {
    NoteEndsInLineEnd();
    var p: nat := 23 - cut;
    assert kept[..100][p] == '\n';
    assert forall i :: 0 <= i < p ==> kept[..100][i] == NOTE[cut + i];
    assert LineEnd(kept[..100]) == p;
    assert kept[p + 1..] == shownText;
  }

  /** What is left of a cut text from its first line start on. */
  lemma KeptIsLast(all: string, kept: string) returns (m: nat)
    requires |kept| == 100000 < |all| && kept == Last(all, 100000)
    ensures 99900 <= m <= 100000 && FromLineStart(kept) == Last(all, m) && StartsWell(all, m)
  {
    var p := LineEnd(kept[..100]);
    m := if p < 100 then 100000 - (p + 1) else 100000;
    assert FromLineStart(kept) == Last(all, m);
    if p < 100 {
      assert all[|all| - m - 1] == kept[..100][p];
    }
  }

  lemma CutFirst(all: string) returns (n: nat)
    requires |all| > 100000
    ensures 99900 <= n && ShowsLast(Limited(all), all, n) && StartsWell(all, n) && |Limited(all)| <= 100024
  {
    NoteEndsInLineEnd();
    n := KeptIsLast(all, all[|all| - 100000..]);
  }

  /** Over any sequence of appends: all of the text is shown as long as it is no more than
      100000 characters; after that the note is, and then exactly the last so many characters,
      which are 99900 at least, from the start of a line unless no line ends in the first hundred
      of them; and the pane never holds more than 100024. */
  lemma {:induction false} ShownIs(appends: seq<string>) returns (n: nat)
    ensures |Shown(appends)| <= 100024
    ensures if |All(appends)| <= 100000 then Shown(appends) == All(appends)
            else 99900 <= n && ShowsLast(Shown(appends), All(appends), n) && StartsWell(All(appends), n)
  {
    n := 0;
    if appends != [] {
      var before, more := appends[..|appends| - 1], appends[|appends| - 1];
      n := ShownIs(before);
      if |All(before)| > 100000 {
        n := CutAgain(Shown(before), All(before), n, more);
      } else if |All(appends)| > 100000 {
        n := CutFirst(All(appends));
      }
    }
  }
}
