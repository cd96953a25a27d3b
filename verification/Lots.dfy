/** The arithmetic of the parking row: lots of given widths, each one separation after the
    right edge of the one before. */
module Lots {
  /** The left edge of lot i, measured from that of the first. */
  function Offset(widths: seq<int>, sep: int, i: nat): int
    requires i <= |widths|
  {
    if i == 0 then 0 else Offset(widths, sep, i - 1) + widths[i - 1] + sep
  }

  ghost predicate Increasing(xs: seq<int>) {
    forall i, j :: 0 <= i < j < |xs| ==> xs[i] < xs[j]
  }

  ghost predicate Ascending(xs: seq<int>) {
    forall i, j :: 0 <= i < j < |xs| ==> xs[i] <= xs[j]
  }

  /** Lots at these places and of these widths stand packed from firstX on. */
  ghost predicate Packed(xs: seq<int>, widths: seq<int>, firstX: int, sep: int) {
    |xs| == |widths| && forall i :: 0 <= i < |xs| ==> xs[i] == firstX + Offset(widths, sep, i)
  }

  ghost predicate Roomy(widths: seq<int>, sep: int) {
    forall i :: 0 <= i < |widths| ==> widths[i] + sep > 0
  }

  lemma {:induction false} OffsetIncreases(widths: seq<int>, sep: int, i: nat, j: nat)
    requires i < j <= |widths| && Roomy(widths, sep)
    ensures Offset(widths, sep, i) + widths[i] + sep <= Offset(widths, sep, j)
  {
    if i + 1 < j {
      OffsetIncreases(widths, sep, i, j - 1);
    }
  }

  /** Packed lots do not overlap: the next starts a separation after the edge of each. */
  lemma PackedApart(xs: seq<int>, widths: seq<int>, firstX: int, sep: int)
    requires Packed(xs, widths, firstX, sep) && Roomy(widths, sep)
    ensures Increasing(xs) && forall i, j :: 0 <= i < j < |xs| ==> xs[i] + widths[i] + sep <= xs[j]
  {
    forall i, j | 0 <= i < j < |xs| ensures xs[i] < xs[j] {
      PackedPair(xs, widths, firstX, sep, i, j);
    }
    forall i, j | 0 <= i < j < |xs| ensures xs[i] + widths[i] + sep <= xs[j] {
      PackedPair(xs, widths, firstX, sep, i, j);
    }
  }

  lemma PackedPair(xs: seq<int>, widths: seq<int>, firstX: int, sep: int, i: nat, j: nat)
    requires Packed(xs, widths, firstX, sep) && Roomy(widths, sep) && i < j < |xs|
    ensures xs[i] < xs[i] + widths[i] + sep <= xs[j]
  {
    OffsetIncreases(widths, sep, i, j);
  }

  lemma {:induction false} SamePrefix(v: seq<int>, w: seq<int>, sep: int, i: nat)
    requires i <= |v| && i <= |w| && v[..i] == w[..i]
    ensures Offset(v, sep, i) == Offset(w, sep, i)
  {
    if i > 0 {
      assert v[..i - 1] == v[..i][..i - 1] == w[..i][..i - 1] == w[..i - 1];
      SamePrefix(v, w, sep, i - 1);
      assert v[i - 1] == v[..i][i - 1] == w[..i][i - 1] == w[i - 1];
    }
  }

  /** One more lot behind the last one leaves a packed row packed. */
  lemma PackedBehind(xs: seq<int>, widths: seq<int>, firstX: int, sep: int, x: int, w: int)
    requires Packed(xs, widths, firstX, sep)
    requires x == if xs == [] then firstX else xs[|xs| - 1] + widths[|xs| - 1] + sep
    ensures Packed(xs + [x], widths + [w], firstX, sep)
  {
    forall i | 0 <= i <= |xs| ensures (xs + [x])[i] == firstX + Offset(widths + [w], sep, i) {
      SamePrefix(widths, widths + [w], sep, i);
    }
  }

  lemma {:induction false} OffsetFromFirst(widths: seq<int>, sep: int, i: nat)
    requires 0 < i <= |widths|
    ensures Offset(widths, sep, i) == widths[0] + sep + Offset(widths[1..], sep, i - 1)
  {
    if i > 1 {
      OffsetFromFirst(widths, sep, i - 1);
      assert widths[1..][i - 2] == widths[i - 1];
    }
  }

  lemma {:induction false} FromFirst(widths: seq<int>, sep: int, i: nat)
    requires i <= |widths| && Roomy(widths, sep)
    ensures Offset(widths, sep, i) >= 0
  {
    if i > 0 {
      FromFirst(widths, sep, i - 1);
    }
  }
}
