/** The arithmetic of indentation.  rises[k] is how many more brackets line k opens than it
    closes; the scanning that finds this out does not matter here. */
module Profiles {
  /** Bracket levels in columns; the pane indents by 5. */
  function InColumns(levels: int): int {
    5 * levels
  }

  /** How many brackets are open as line k starts; negative if more were closed. */
  function Depth(rises: seq<int>, k: nat): int
    requires k <= |rises|
  {
    if k == 0 then 0 else Depth(rises, k - 1) + rises[k - 1]
  }

  /** The lowest depth at which one of the first k lines starts, or 0 if there are none. */
  function Lowest(rises: seq<int>, k: nat): (low: int)
    requires k <= |rises|
    ensures low <= 0
  {
    if k == 0 then 0
    else
      var low, d := Lowest(rises, k - 1), Depth(rises, k - 1);
      if d < low then d else low
  }

  lemma {:induction false} LowestBelow(rises: seq<int>, k: nat, j: nat)
    requires j < k <= |rises|
    ensures Lowest(rises, k) <= Lowest(rises, j + 1) <= Depth(rises, j)
  {
    if j + 1 < k {
      LowestBelow(rises, k - 1, j);
    }
  }

  lemma {:induction false} LowestReached(rises: seq<int>, k: nat) returns (j: nat)
    requires 0 < k <= |rises|
    ensures j < k && Lowest(rises, k) == Depth(rises, j)
  {
    if k == 1 || Depth(rises, k - 1) < Lowest(rises, k - 1) {
      j := k - 1;
    } else {
      j := LowestReached(rises, k - 1);
    }
  }

  /** The indentation a reflow gives line k: its depth, measured from the lowest line. */
  function Indent(rises: seq<int>, k: nat): nat
    requires k < |rises|
  {
    LowestBelow(rises, |rises|, k);
    InColumns(Depth(rises, k) - Lowest(rises, |rises|))
  }

  lemma IndentStep(rises: seq<int>, k: nat)
    requires 0 < k < |rises|
    ensures Indent(rises, k) == Indent(rises, k - 1) + InColumns(rises[k - 1])
  {
  }

  /** The indentation typing gives line k: that of the line before, and its rise. */
  function TypedIndent(rises: seq<int>, k: nat): nat
    requires k <= |rises|
  {
    if k == 0 then 0
    else
      var n := TypedIndent(rises, k - 1) + InColumns(rises[k - 1]);
      if n < 0 then 0 else n
  }

  ghost predicate NeverNegative(rises: seq<int>) {
    forall k :: 0 <= k < |rises| ==> Depth(rises, k) >= 0
  }

  lemma {:induction false} NeverNegativeLowest(rises: seq<int>, k: nat)
    requires k <= |rises| && NeverNegative(rises)
    ensures Lowest(rises, k) == 0
  {
    if k > 0 {
      NeverNegativeLowest(rises, k - 1);
      assert Depth(rises, k - 1) >= 0;
    }
  }

  lemma NegativeLowest(rises: seq<int>)
    requires !NeverNegative(rises)
    ensures rises != [] && Lowest(rises, |rises|) < 0 && Lowest(rises, 1) == 0
  {
    var k :| 0 <= k < |rises| && Depth(rises, k) < 0;
    LowestBelow(rises, |rises|, k);
    assert Depth(rises, 0) == 0 && Lowest(rises, 0) == 0;
  }

  /** Each line is indented by five columns for each open bracket if and only if no line
      starts with more brackets closed than opened. */
  lemma IndentIsDepth(rises: seq<int>)
    ensures (forall k :: 0 <= k < |rises| ==> Indent(rises, k) == InColumns(Depth(rises, k))) <==> NeverNegative(rises)
  {
    if NeverNegative(rises) {
      NeverNegativeLowest(rises, |rises|);
    } else {
      NegativeLowest(rises);
      assert Indent(rises, 0) > InColumns(Depth(rises, 0));
    }
  }

  /** Typing measures the depth of a line from the lowest line so far. */
  lemma {:induction false} TypedIndentIs(rises: seq<int>, k: nat)
    requires k < |rises|
    ensures TypedIndent(rises, k) == InColumns(Depth(rises, k) - Lowest(rises, k + 1))
  {
    if k > 0 {
      TypedIndentIs(rises, k - 1);
    }
  }

  /** Line k is indented by as much when the line before it counts for codes as when it counts
      for rises. */
  ghost predicate StepAgrees(codes: seq<int>, rises: seq<int>, k: nat)
    requires 0 < k < |rises| == |codes|
  {
    codes[k - 1] == rises[k - 1] || (codes[k - 1] < rises[k - 1] && Depth(rises, k) == 0)
  }

  lemma StepTyped(codes: seq<int>, rises: seq<int>, k: nat)
    requires 0 < k < |rises| == |codes| && NeverNegative(rises)
    requires TypedIndent(codes, k - 1) == InColumns(Depth(rises, k - 1))
    ensures TypedIndent(codes, k) == InColumns(Depth(rises, k)) <==> StepAgrees(codes, rises, k)
  {
    assert Depth(rises, k) >= 0;
  }

  lemma {:induction false} AllTyped(codes: seq<int>, rises: seq<int>, k: nat)
    requires k < |rises| == |codes| && NeverNegative(rises)
    requires forall j :: 0 < j <= k ==> StepAgrees(codes, rises, j)
    ensures TypedIndent(codes, k) == InColumns(Depth(rises, k))
  {
    if k > 0 {
      AllTyped(codes, rises, k - 1);
      StepTyped(codes, rises, k);
    }
  }

  /** Typing, which counts codes, and reflowing, which counts rises, agree on every line if and
      only if no line starts with more brackets closed than opened and each line counts for as
      much either way - or for less when typed, and the next line is at zero. */
  lemma TypedIsReflowed(codes: seq<int>, rises: seq<int>)
    requires |codes| == |rises|
    ensures (forall k :: 0 <= k < |rises| ==> TypedIndent(codes, k) == Indent(rises, k)) <==>
            NeverNegative(rises) && forall k :: 0 < k < |rises| ==> StepAgrees(codes, rises, k)
  {
    if NeverNegative(rises) {
      NeverNegativeLowest(rises, |rises|);
      if forall k :: 0 < k < |rises| ==> StepAgrees(codes, rises, k) {
        forall k | 0 <= k < |rises| ensures TypedIndent(codes, k) == Indent(rises, k) {
          AllTyped(codes, rises, k);
        }
      } else {
        var k :| 0 < k < |rises| && !StepAgrees(codes, rises, k);
        if TypedIndent(codes, k - 1) == Indent(rises, k - 1) {
          StepTyped(codes, rises, k);
        }
      }
    } else {
      NegativeLowest(rises);
      assert TypedIndent(codes, 0) != Indent(rises, 0);
    }
  }
}
