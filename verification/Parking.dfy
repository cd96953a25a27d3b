/** Parked consoles stand in a row.  A console parked for the first time is put behind the
    last one; reviewParking packs the row again after something has gone. */
module Parking {
  import opened Sequences
  import opened Lots

  datatype Place = Place(x: int, y: int, w: int)

  /** A console as a window. */
  datatype Window = Window(
    at: Place,           // where the window is
    minWidth: int,       // its width when parked
    parked: bool,
    slotSet: bool,       // whether it has a lot, which it keeps when no longer parked
    slot: Place,
    homeSet: bool,       // where it goes when no longer parked
    home: Place)

  datatype Handle = Handle(number: int)

  /** The consoles by their window handles. */
  type Windows = map<Handle, Window>

  /** isParked: a window found four or more off its lot counts as parked no longer. */
  predicate InPlace(c: Window) {
    c.parked && -4 < c.at.y - c.slot.y < 4
  }

  ghost predicate Known(ws: Windows, s: seq<Handle>) {
    forall i :: 0 <= i < |s| ==> s[i] in ws
  }

  function Xs(ws: Windows, s: seq<Handle>): seq<int>
    requires Known(ws, s)
  {
    seq(|s|, i requires 0 <= i < |s| => ws[s[i]].slot.x)
  }

  function Widths(ws: Windows, s: seq<Handle>): seq<int>
    requires Known(ws, s)
  {
    seq(|s|, i requires 0 <= i < |s| => ws[s[i]].slot.w)
  }

  /** Exactly the consoles that have a lot, each once. */
  ghost predicate Lists(ws: Windows, s: seq<Handle>) {
    && Distinct(s) && Known(ws, s)
    && (forall id :: id in s ==> ws[id].slotSet) && (forall id :: id in ws && ws[id].slotSet ==> id in s)
  }

  /** A list of the consoles that have a lot, sorted by place.  Equal places leave it open. */
  ghost predicate Sorted(ws: Windows, s: seq<Handle>) {
    Lists(ws, s) && Ascending(Xs(ws, s))
  }

  /** The console moved to the lot that now starts at x. */
  function Moved(c: Window, x: int, level: int): Window {
    var slot := c.slot.(x := x, y := level);
    c.(slot := slot, at := if c.parked then slot else c.at)
  }

  /** Packing the row again, in this order, from x on. */
  function Repack(ws: Windows, order: seq<Handle>, x: int, sep: int, level: int): (r: Windows)
    requires Known(ws, order)
    ensures r.Keys == ws.Keys
    decreases |order|
  {
    if order == [] then ws
    else
      var c := ws[order[0]];
      Repack(ws[order[0] := Moved(c, x, level)], order[1..], x + c.slot.w + sep, sep, level)
  }

  lemma {:induction false} RepackElsewhere(ws: Windows, order: seq<Handle>, x: int, sep: int, level: int, id: Handle)
    requires Known(ws, order) && id in ws && id !in order
    ensures Repack(ws, order, x, sep, level)[id] == ws[id]
    decreases |order|
  {
    if order != [] {
      var c := ws[order[0]];
      assert order[0] in order;
      RepackElsewhere(ws[order[0] := Moved(c, x, level)], order[1..], x + c.slot.w + sep, sep, level, id);
    }
  }

  /** Each lot is moved to the end of those before it. */
  lemma {:induction false} RepackAt(ws: Windows, order: seq<Handle>, x: int, sep: int, level: int, i: nat)
    requires Known(ws, order) && Distinct(order) && i < |order|
    ensures Repack(ws, order, x, sep, level)[order[i]] == Moved(ws[order[i]], x + Offset(Widths(ws, order), sep, i), level)
    decreases |order|
  {
    var id, c := order[0], ws[order[0]];
    var ws' := ws[id := Moved(c, x, level)];
    DistinctTail(order);
    if i == 0 {
      RepackElsewhere(ws', order[1..], x + c.slot.w + sep, sep, level, id);
    } else {
      RepackAt(ws', order[1..], x + c.slot.w + sep, sep, level, i - 1);
      assert Widths(ws', order[1..]) == Widths(ws, order)[1..];
      OffsetFromFirst(Widths(ws, order), sep, i);
    }
  }

  lemma DistinctTail(s: seq<Handle>)
    requires s != [] && Distinct(s)
    ensures s[0] !in s[1..] && Distinct(s[1..])
  {
  }

  // ----- sorted lists -----

  /** When no two lots are at the same place there is only one sorted list. */
  lemma {:induction false} OneOrder(ws: Windows, s: seq<Handle>, t: seq<Handle>)
    requires Known(ws, s) && Known(ws, t) && Distinct(t) && Increasing(Xs(ws, s)) && Ascending(Xs(ws, t))
    requires (forall id :: id in s ==> id in t) && (forall id :: id in t ==> id in s)
    ensures s == t
  {
    BothEmpty(s, t);
    if s != [] {
      var id := s[0];
      assert id in s && id in t;
      FirstIsFirst(ws, s, t);
      SameTail(s, t);
      assert Xs(ws, s[1..]) == Xs(ws, s)[1..] && Xs(ws, t[1..]) == Xs(ws, t)[1..];
      IncreasingDistinct(ws, s);
      OneOrder(ws, s[1..], t[1..]);
      assert s == [s[0]] + s[1..] && t == [t[0]] + t[1..];
    }
  }

  lemma BothEmpty(s: seq<Handle>, t: seq<Handle>)
    requires (forall id :: id in s ==> id in t) && (forall id :: id in t ==> id in s)
    ensures s == [] <==> t == []
  {
    if s != [] {
      assert s[0] in s;
    }
    if t != [] {
      assert t[0] in t;
    }
  }

  lemma FirstIsFirst(ws: Windows, s: seq<Handle>, t: seq<Handle>)
    requires Known(ws, s) && Known(ws, t) && Increasing(Xs(ws, s)) && Ascending(Xs(ws, t))
    requires s != [] && t != [] && s[0] in t && t[0] in s
    ensures s[0] == t[0]
  {
    var i :| 0 <= i < |t| && t[i] == s[0];
    var j :| 0 <= j < |s| && s[j] == t[0];
    assert Xs(ws, t)[0] <= Xs(ws, t)[i];
    assert Xs(ws, s)[j] >= Xs(ws, s)[0];
  }

  lemma IncreasingDistinct(ws: Windows, s: seq<Handle>)
    requires Known(ws, s) && Increasing(Xs(ws, s))
    ensures Distinct(s)
  {
    forall i, j | 0 <= i < j < |s| ensures s[i] != s[j] {
      assert Xs(ws, s)[i] < Xs(ws, s)[j];
    }
  }

  lemma SameTail(s: seq<Handle>, t: seq<Handle>)
    requires s != [] && t != [] && s[0] == t[0] && (forall id :: id in s ==> id in t) && (forall id :: id in t ==> id in s)
    requires Distinct(t)
    ensures forall id :: id in t[1..] ==> id in s[1..]
    ensures Distinct(s) ==> forall id :: id in s[1..] ==> id in t[1..]
  {
    forall id | id in t[1..] ensures id in s[1..] {
      var i :| 1 <= i < |t| && t[i] == id;
      assert id in s && id != s[0];
    }
    if Distinct(s) {
      forall id | id in s[1..] ensures id in t[1..] {
        var i :| 1 <= i < |s| && s[i] == id;
        assert id in t && id != t[0];
      }
    }
  }

  // ----- packing -----

  /** The consoles that have a lot stand packed, in this order. */
  ghost predicate PackedRow(ws: Windows, row: seq<Handle>, firstX: int, sep: int) {
    Lists(ws, row) && Packed(Xs(ws, row), Widths(ws, row), firstX, sep)
  }

  /** Packing keeps the lots, their widths and their order; and the row is then packed. */
  lemma RepackedRow(ws: Windows, order: seq<Handle>, firstX: int, sep: int, level: int)
    requires Lists(ws, order)
    ensures var ws' := Repack(ws, order, firstX, sep, level);
            PackedRow(ws', order, firstX, sep) && Widths(ws', order) == Widths(ws, order)
  {
    var ws' := Repack(ws, order, firstX, sep, level);
    forall i | 0 <= i < |order|
      ensures ws'[order[i]] == Moved(ws[order[i]], firstX + Offset(Widths(ws, order), sep, i), level)
    {
      RepackAt(ws, order, firstX, sep, level, i);
    }
    forall id | id in order ensures ws'[id].slotSet {
      var i :| 0 <= i < |order| && order[i] == id;
      assert ws[order[i]].slotSet;
    }
    forall id | id in ws' && ws'[id].slotSet ensures id in order {
      if id !in order {
        RepackElsewhere(ws, order, firstX, sep, level, id);
      }
    }
    assert Widths(ws', order) == Widths(ws, order);
  }

  lemma PackedSorted(ws: Windows, row: seq<Handle>, firstX: int, sep: int)
    requires PackedRow(ws, row, firstX, sep) && Roomy(Widths(ws, row), sep)
    ensures Increasing(Xs(ws, row)) && Sorted(ws, row)
  {
    PackedApart(Xs(ws, row), Widths(ws, row), firstX, sep);
  }

  /** A row that is packed already, level and with its parked windows in place is left as it
      is. */
  lemma ReviewOfPacked(ws: Windows, row: seq<Handle>, order: seq<Handle>, firstX: int, sep: int, level: int)
    requires PackedRow(ws, row, firstX, sep) && Roomy(Widths(ws, row), sep) && Sorted(ws, order)
    requires forall id :: id in row ==> ws[id].slot.y == level && (ws[id].parked ==> ws[id].at == ws[id].slot)
    ensures order == row && Repack(ws, order, firstX, sep, level) == ws
  {
    PackedSorted(ws, row, firstX, sep);
    OneOrder(ws, row, order);
    var ws' := Repack(ws, row, firstX, sep, level);
    forall id | id in ws ensures ws'[id] == ws[id] {
      if id in row {
        var i :| 0 <= i < |row| && row[i] == id;
        RepackAt(ws, row, firstX, sep, level, i);
        assert Xs(ws, row)[i] == firstX + Offset(Widths(ws, row), sep, i);
      } else {
        RepackElsewhere(ws, row, firstX, sep, level, id);
      }
    }
  }

  /** Packing again, for whichever sorted lists the two sorts come up with, changes nothing
      further: neither the lots nor where any window is. */
  lemma ReviewIdempotent(ws: Windows, order: seq<Handle>, again: seq<Handle>, firstX: int, sep: int, level: int)
    requires Sorted(ws, order) && Roomy(Widths(ws, order), sep)
    requires Sorted(Repack(ws, order, firstX, sep, level), again)
    ensures again == order
    ensures var ws' := Repack(ws, order, firstX, sep, level); Repack(ws', again, firstX, sep, level) == ws'
  {
    var ws' := Repack(ws, order, firstX, sep, level);
    RepackedRow(ws, order, firstX, sep, level);
    forall id | id in order ensures ws'[id].slot.y == level && (ws'[id].parked ==> ws'[id].at == ws'[id].slot) {
      var i :| 0 <= i < |order| && order[i] == id;
      RepackAt(ws, order, firstX, sep, level, i);
    }
    ReviewOfPacked(ws', order, again, firstX, sep, level);
  }

  /** A review keeps the width of each lot and takes each console said to be parked to its
      lot, wherever it may have been dragged; a console without a lot is left alone. */
  lemma ReviewMoves(ws: Windows, order: seq<Handle>, firstX: int, sep: int, level: int, id: Handle)
    requires Lists(ws, order) && id in ws
    ensures var c, c' := ws[id], Repack(ws, order, firstX, sep, level)[id];
            if c.slotSet then
              && c' == c.(slot := c'.slot, at := c'.at) && c'.slot.w == c.slot.w && c'.slot.y == level
              && c'.at == (if c.parked then c'.slot else c.at)
            else c' == c
  {
    if id in order {
      var i :| 0 <= i < |order| && order[i] == id;
      RepackAt(ws, order, firstX, sep, level, i);
    } else {
      RepackElsewhere(ws, order, firstX, sep, level, id);
    }
  }

  /** The lots of a packed row: the first is at the inset, and each starts exactly one
      separation after the edge of the one before. */
  lemma PackedMeans(ws: Windows, row: seq<Handle>, firstX: int, sep: int, i: nat)
    requires PackedRow(ws, row, firstX, sep) && i < |row|
    ensures ws[row[i]].slot.x == if i == 0 then firstX else ws[row[i - 1]].slot.x + ws[row[i - 1]].slot.w + sep
  {
    assert Xs(ws, row)[i] == firstX + Offset(Widths(ws, row), sep, i);
    if i > 0 {
      assert Xs(ws, row)[i - 1] == firstX + Offset(Widths(ws, row), sep, i - 1);
    }
  }

  /** Wherever the windows are, reviewing a packed row leaves every lot at its place. */
  lemma ReviewKeepsPackedLots(ws: Windows, row: seq<Handle>, order: seq<Handle>, firstX: int, sep: int, level: int, id: Handle)
    requires PackedRow(ws, row, firstX, sep) && Roomy(Widths(ws, row), sep) && Sorted(ws, order) && id in ws
    ensures var c, c' := ws[id], Repack(ws, order, firstX, sep, level)[id];
            c'.slotSet == c.slotSet && c'.slot.x == c.slot.x && c'.slot.w == c.slot.w
  {
    PackedSorted(ws, row, firstX, sep);
    OneOrder(ws, row, order);
    if id in row {
      var i :| 0 <= i < |row| && row[i] == id;
      RepackAt(ws, row, firstX, sep, level, i);
      assert Xs(ws, row)[i] == firstX + Offset(Widths(ws, row), sep, i);
    } else {
      RepackElsewhere(ws, row, firstX, sep, level, id);
    }
  }

  // ----- the row -----

  /** A parked console has a lot, and is at it unless it has been moved off the row. */
  ghost predicate Sound(c: Window) {
    && c.minWidth > 0 && (c.parked ==> c.slotSet) && (c.slotSet ==> c.slot.w == c.minWidth)
    && (InPlace(c) ==> c.at.x == c.slot.x && c.at.w == c.slot.w)
  }

  ghost predicate AllSound(ws: Windows) {
    forall id :: id in ws ==> Sound(ws[id])
  }

  /** The windows that may differ by what isParked has noticed. */
  ghost predicate Noticed(c: Window, c': Window) {
    c' == c || c' == c.(parked := InPlace(c))
  }

  function Without(row: seq<Handle>, id: Handle): (r: seq<Handle>)
    ensures forall other :: other in r <==> other in row && other != id
  {
    if row == [] then [] else if row[0] == id then Without(row[1..], id) else [row[0]] + Without(row[1..], id)
  }

  lemma RoomyRow(ws: Windows, row: seq<Handle>, sep: int)
    requires AllSound(ws) && Lists(ws, row) && sep >= 0
    ensures Roomy(Widths(ws, row), sep)
  {
    forall i | 0 <= i < |row| ensures Widths(ws, row)[i] + sep > 0 {
      assert row[i] in row;
      assert Sound(ws[row[i]]);
    }
  }

  /** What a review does to a row that is in order but not packed. */
  lemma AfterReview(ws: Windows, row: seq<Handle>, order: seq<Handle>, firstX: int, sep: int, level: int)
    requires Lists(ws, row) && Increasing(Xs(ws, row)) && Sorted(ws, order)
    ensures var ws' := Repack(ws, order, firstX, sep, level);
            && order == row && PackedRow(ws', row, firstX, sep) && Widths(ws', row) == Widths(ws, row)
            && forall id :: id in ws && Sound(ws[id]) ==> Sound(ws'[id])
  {
    OneOrder(ws, row, order);
    RepackedRow(ws, row, firstX, sep, level);
    var ws' := Repack(ws, order, firstX, sep, level);
    forall id | id in ws && Sound(ws[id]) ensures Sound(ws'[id]) {
      if id in row {
        var i :| 0 <= i < |row| && row[i] == id;
        RepackAt(ws, row, firstX, sep, level, i);
      } else {
        RepackElsewhere(ws, row, firstX, sep, level, id);
      }
    }
  }

  /** A console that a review has passed: it keeps its flags, the width of its lot and its home;
      if it is parked it is at its lot, and otherwise where it was. */
  ghost predicate Reviewed(c: Window, c': Window, level: int) {
    && c'.minWidth == c.minWidth && c'.parked == c.parked && c'.slotSet == c.slotSet
    && c'.homeSet == c.homeSet && c'.home == c.home
    && if c.slotSet then c'.slot.w == c.slot.w && c'.slot.y == level && c'.at == (if c.parked then c'.slot else c.at)
       else c'.slot == c.slot && c'.at == c.at
  }

  lemma AllReviewed(ws: Windows, order: seq<Handle>, firstX: int, sep: int, level: int)
    requires Lists(ws, order)
    ensures var ws' := Repack(ws, order, firstX, sep, level); forall id :: id in ws ==> Reviewed(ws[id], ws'[id], level)
  {
    forall id | id in ws ensures Reviewed(ws[id], Repack(ws, order, firstX, sep, level)[id], level) {
      ReviewMoves(ws, order, firstX, sep, level, id);
    }
  }

  /** A row of which one lot has been given up is still in order. */
  lemma {:induction false} WithoutInOrder(ws: Windows, row: seq<Handle>, id: Handle)
    requires Known(ws, row) && Increasing(Xs(ws, row))
    ensures var rest := Without(row, id); Known(ws, rest) && Increasing(Xs(ws, rest))
  {
    if row != [] {
      assert Xs(ws, row)[1..] == Xs(ws, row[1..]);
      WithoutInOrder(ws, row[1..], id);
      var rest := Without(row[1..], id);
      forall i | 0 <= i < |rest| ensures rest[i] in ws && ws[row[0]].slot.x < ws[rest[i]].slot.x {
        assert rest[i] in rest;
        var j :| 0 <= j < |row[1..]| && row[1..][j] == rest[i];
        assert Xs(ws, row)[0] < Xs(ws, row)[j + 1];
      }
      if row[0] != id {
        assert Xs(ws, [row[0]] + rest) == [ws[row[0]].slot.x] + Xs(ws, rest);
      }
    }
  }

  /** Windows of which the lots' places and widths are the same. */
  ghost predicate SameLots(ws: Windows, ws': Windows) {
    && ws'.Keys == ws.Keys
    && forall id :: id in ws ==> ws'[id].slotSet == ws[id].slotSet && ws'[id].slot.x == ws[id].slot.x && ws'[id].slot.w == ws[id].slot.w
  }

  lemma SameLotsSameRow(ws: Windows, ws': Windows, row: seq<Handle>, firstX: int, sep: int)
    requires PackedRow(ws, row, firstX, sep) && SameLots(ws, ws')
    ensures PackedRow(ws', row, firstX, sep)
  {
    assert Xs(ws', row) == Xs(ws, row) && Widths(ws', row) == Widths(ws, row);
  }

  ghost predicate AllNoticed(ws: Windows, ws': Windows) {
    ws'.Keys == ws.Keys && forall id :: id in ws ==> Noticed(ws[id], ws'[id])
  }

  lemma NoticedKeeps(ws: Windows, ws': Windows, row: seq<Handle>, firstX: int, sep: int)
    requires AllSound(ws) && PackedRow(ws, row, firstX, sep) && AllNoticed(ws, ws')
    ensures AllSound(ws') && PackedRow(ws', row, firstX, sep)
  {
    forall id | id in ws ensures Sound(ws'[id]) {
      assert Sound(ws[id]) && Noticed(ws[id], ws'[id]);
    }
    SameLotsSameRow(ws, ws', row, firstX, sep);
  }

  lemma OneNoticed(was: Windows, ws: Windows, id: Handle)
    requires AllSound(was) && AllNoticed(was, ws) && id in ws
    ensures Sound(ws[id]) && ws[id].slotSet == was[id].slotSet && Edge(ws[id]) == Edge(was[id])
    ensures AllNoticed(was, ws[id := ws[id].(parked := InPlace(ws[id]))])
  {
    assert Sound(was[id]) && Noticed(was[id], ws[id]);
  }

  /** The right edge of a lot. */
  function Edge(c: Window): int {
    c.slot.x + c.slot.w
  }

  /** The edge of the last lot is the rightmost. */
  lemma LastEdge(ws: Windows, row: seq<Handle>, firstX: int, sep: int, id: Handle)
    requires AllSound(ws) && PackedRow(ws, row, firstX, sep) && firstX >= 0 && sep >= 0 && id in row
    ensures var last := row[|row| - 1]; last in ws && 0 < Edge(ws[id]) <= Edge(ws[last])
  {
    RoomyRow(ws, row, sep);
    var i :| 0 <= i < |row| && row[i] == id;
    var n := |row| - 1;
    assert row[n] in row;
    assert Sound(ws[id]) && Sound(ws[row[n]]);
    EdgesAscend(Xs(ws, row), Widths(ws, row), firstX, sep, i, ws[id].slot.x, ws[id].slot.w, ws[row[n]].slot.x, ws[row[n]].slot.w);
  }

  lemma EdgesAscend(xs: seq<int>, widths: seq<int>, firstX: int, sep: int, i: nat, x: int, w: int, lastX: int, lastW: int)
    requires Packed(xs, widths, firstX, sep) && Roomy(widths, sep) && i < |xs| && firstX >= 0 && sep >= 0
    requires x == xs[i] && w == widths[i] > 0 && lastX == xs[|xs| - 1] && lastW == widths[|xs| - 1] > 0
    ensures 0 < x + w <= lastX + lastW
  {
    FromFirst(widths, sep, i);
    if i < |xs| - 1 {
      PackedPair(xs, widths, firstX, sep, i, |xs| - 1);
    }
  }

  /** Where a console parked for the first time is put. */
  function NextX(ws: Windows, row: seq<Handle>, firstX: int, sep: int): int
    requires Known(ws, row)
  {
    if row == [] then firstX else Edge(ws[row[|row| - 1]]) + sep
  }

  /** A first lot behind the last one leaves the row packed. */
  lemma FirstLot(ws: Windows, row: seq<Handle>, firstX: int, sep: int, id: Handle, c: Window)
    requires AllSound(ws) && PackedRow(ws, row, firstX, sep) && id in ws && !ws[id].slotSet
    requires Sound(c) && c.slotSet && c.slot.x == NextX(ws, row, firstX, sep)
    ensures AllSound(ws[id := c]) && PackedRow(ws[id := c], row + [id], firstX, sep)
  {
    var ws' := ws[id := c];
    assert id !in row;
    PackedBehind(Xs(ws, row), Widths(ws, row), firstX, sep, c.slot.x, c.slot.w);
    assert Known(ws', row + [id]);
    assert Xs(ws', row + [id]) == Xs(ws, row) + [c.slot.x];
    assert Widths(ws', row + [id]) == Widths(ws, row) + [c.slot.w];
  }

  /** The same lot, but for how high it is. */
  lemma SameLot(ws: Windows, row: seq<Handle>, firstX: int, sep: int, id: Handle, c: Window)
    requires AllSound(ws) && PackedRow(ws, row, firstX, sep) && id in ws && Sound(c)
    requires c.slotSet == ws[id].slotSet && c.slot.x == ws[id].slot.x && c.slot.w == ws[id].slot.w
    ensures AllSound(ws[id := c]) && PackedRow(ws[id := c], row, firstX, sep)
  {
    SameLotsSameRow(ws, ws[id := c], row, firstX, sep);
  }

  /** A lot is given up, and the row is in order without it. */
  lemma LotGiven(ws: Windows, row: seq<Handle>, firstX: int, sep: int, id: Handle, ws': Windows)
    requires AllSound(ws) && PackedRow(ws, row, firstX, sep) && sep >= 0 && id in ws
    requires forall other :: other in ws' && other != id ==> other in ws && ws'[other] == ws[other]
    requires forall other :: other in ws && other != id ==> other in ws'
    requires id in ws' ==> !ws'[id].slotSet
    ensures Lists(ws', Without(row, id)) && Increasing(Xs(ws', Without(row, id)))
  {
    RoomyRow(ws, row, sep);
    PackedSorted(ws, row, firstX, sep);
    WithoutInOrder(ws, row, id);
    var rest := Without(row, id);
    forall i | 0 <= i < |rest| ensures rest[i] in ws' && ws'[rest[i]] == ws[rest[i]] {
      assert rest[i] in rest;
    }
    IncreasingDistinct(ws, rest);
    assert Xs(ws', rest) == Xs(ws, rest);
  }

  class ParkingRow {
    const firstX: int
    const sep: int
    const level: int
    const newHome: Place     // where a console goes that has never been anywhere else
    var windows: Windows
    ghost var row: seq<Handle>  // the consoles that have a lot, from left to right

    ghost predicate Valid()
      reads this
    {
      firstX >= 0 && sep >= 0 && AllSound(windows) && PackedRow(windows, row, firstX, sep)
    }

    constructor (firstX: int, sep: int, level: int, newHome: Place)
      requires firstX >= 0 && sep >= 0
      ensures Valid() && windows == map[] && row == []
    {
      this.firstX, this.sep, this.level, this.newHome, windows, row := firstX, sep, level, newHome, map[], [];
    }

    // ----- packing the row again -----

    /** The consoles that have a lot, in whatever order they are met. */
    method Slotted() returns (lots: seq<Handle>)
      ensures Lists(windows, lots)
    {
      lots := [];
      var rest := windows.Keys;
      while rest != {}
        invariant rest <= windows.Keys && Distinct(lots) && Known(windows, lots)
        invariant forall id :: id in lots ==> id !in rest && windows[id].slotSet
        invariant forall id :: id in windows && windows[id].slotSet && id !in rest ==> id in lots
        decreases |rest|
      {
        var id :| id in rest;
        rest := rest - {id};
        if windows[id].slotSet {
          lots := lots + [id];
        }
      }
    }

    /** std::sort, of which it is only certain that it sorts. */
    method Sort(lots: seq<Handle>) returns (sorted: seq<Handle>)
      requires Lists(windows, lots)
      ensures Sorted(windows, sorted)
    {
      var rest := set id | id in lots;
      sorted := [];
      while rest != {}
        invariant rest <= windows.Keys && Distinct(sorted) && Known(windows, sorted)
        invariant forall id :: id in sorted ==> id in lots && id !in rest
        invariant forall id :: id in lots ==> id in sorted || id in rest
        invariant forall id :: id in rest ==> id in lots
        invariant Ascending(Xs(windows, sorted))
        invariant forall c, d :: c in sorted && d in rest ==> windows[c].slot.x <= windows[d].slot.x
        decreases |rest|
      {
        LowestExists(windows, rest);
        var id :| id in rest && forall d :: d in rest ==> windows[id].slot.x <= windows[d].slot.x;
        SortedBehind(windows, sorted, id);
        sorted, rest := sorted + [id], rest - {id};
      }
    }

    /** reviewParking: each lot in turn is moved up to the one before it, and a console said
        to be parked goes with its lot, wherever it is. */
    method ReviewParking() returns (ghost order: seq<Handle>)
      modifies this`windows
      ensures Sorted(old(windows), order) && windows == Repack(old(windows), order, firstX, sep, level)
    {
      var lots := Slotted();
      order := lots;
      if |lots| < 1 {
        return;
      }
      var sorted := Sort(lots);
      order := sorted;
      var xPos, i := firstX, 0;
      while i < |sorted|
        invariant 0 <= i <= |sorted| && Known(windows, sorted)
        invariant Repack(windows, sorted[i..], xPos, sep, level) == Repack(old(windows), sorted, firstX, sep, level)
      {
        var id := sorted[i];
        var c := windows[id].(slot := windows[id].slot.(x := xPos));
        xPos := xPos + c.slot.w + sep;
        c := c.(slot := c.slot.(y := level));
        if c.parked {
          c := c.(at := c.slot);
        }
        assert sorted[i..][0] == id && sorted[i..][1..] == sorted[i + 1..];
        windows := windows[id := c];
        i := i + 1;
      }
    }

    // ----- what the user does -----

    method AddConsole(id: Handle, c: Window)
      requires Valid() && id !in windows && c.minWidth > 0 && !c.parked && !c.slotSet
      modifies this`windows
      ensures Valid() && windows == old(windows)[id := c] && row == old(row)
    {
      windows := windows[id := c];
      assert Xs(windows, row) == old(Xs(windows, row)) && Widths(windows, row) == old(Widths(windows, row));
    }

    /** A window is dragged; if it stays in the row, not sideways. */
    method Drag(id: Handle, x: int, y: int)
      requires Valid() && id in windows
      requires var c := windows[id]; InPlace(c.(at := c.at.(y := y))) ==> x == c.slot.x && c.at.w == c.slot.w
      modifies this`windows
      ensures Valid() && row == old(row)
      ensures windows == old(windows)[id := old(windows)[id].(at := old(windows)[id].at.(x := x, y := y))]
    {
      windows := windows[id := windows[id].(at := windows[id].at.(x := x, y := y))];
      SameLotsSameRow(old(windows), windows, row, firstX, sep);
    }

    method IsParked(id: Handle) returns (r: bool)
      requires id in windows
      modifies this`windows
      ensures var c := old(windows)[id];
              r == (c.parked && c.at.y < c.slot.y + 4 && c.slot.y < c.at.y + 4) && windows == old(windows)[id := c.(parked := r)]
      ensures SameLots(old(windows), windows)
    {
      r := InPlace(windows[id]);
      windows := windows[id := windows[id].(parked := r)];
    }

    /** The right edge of the last lot, found by looking at all consoles but this one.  A
        parked console is taken to be where its window is. */
    method Rightmost(id: Handle) returns (found: bool, rightMost: int)
      requires Valid() && id in windows && !windows[id].slotSet
      modifies this`windows
      ensures Valid() && row == old(row) && AllNoticed(old(windows), windows) && windows[id] == old(windows)[id]
      ensures found <==> row != []
      ensures found ==> row[|row| - 1] in old(windows) && rightMost == Edge(old(windows)[row[|row| - 1]])
    {
      found, rightMost := false, 0;
      ghost var furthest, was := id, windows;
      var rest := windows.Keys - {id};
      while rest != {}
        invariant rest <= windows.Keys - {id} && AllNoticed(was, windows) && windows[id] == was[id]
        invariant forall other :: other in row && other !in rest ==> found && Edge(was[other]) <= rightMost
        invariant if found then furthest in row && Edge(was[furthest]) == rightMost else rightMost == 0
        decreases |rest|
      {
        var other :| other in rest;
        rest := rest - {other};
        OneNoticed(was, windows, other);
        if other in row {
          LastEdge(was, row, firstX, sep, other);
        }
        var slotted, rhe := LookAt(other);
        if slotted {
          found := true;
        }
        if rhe > rightMost {
          rightMost, furthest := rhe, other;
        }
      }
      NoticedKeeps(was, windows, row, firstX, sep);
      if row != [] {
        var last := row[|row| - 1];
        assert last in row && last !in rest;
        LastEdge(was, row, firstX, sep, furthest);
      }
    }

    /** Park a console: in its lot if it has one, otherwise behind the last one. */
    method Park(id: Handle)
      requires Valid() && id in windows
      modifies this`windows, this`row
      ensures Valid() && windows.Keys == old(windows).Keys
      ensures row == if old(windows)[id].slotSet then old(row) else old(row) + [id]
      ensures ParkedFrom(old(windows)[id], windows[id], level)
      ensures forall other :: other in windows && other != id ==> Noticed(old(windows)[other], windows[other])
    {
      ghost var was := windows;
      assert Sound(was[id]);
      var c := windows[id].(parked := InPlace(windows[id]));
      if c.parked {
        c := c.(at := c.slot);
      } else {
        c := c.(homeSet := true, home := c.at);
        c := c.(at := c.at.(w := c.minWidth));
        if c.slotSet {
          c := c.(slot := c.slot.(w := c.at.w));
          c := c.(at := c.slot, parked := true);
        }
      }
      SameLot(was, row, firstX, sep, id, c);
      windows := windows[id := c];
      if !c.slotSet {
        FirstPark(id);
      }
    }

    method FirstPark(id: Handle)
      requires Valid() && id in windows && !windows[id].slotSet && windows[id].at.w == windows[id].minWidth
      modifies this`windows, this`row
      ensures Valid() && windows.Keys == old(windows).Keys && row == old(row) + [id]
      ensures var c, c' := old(windows)[id], windows[id];
              && c'.slot.y == level && c'.slot.w == c.at.w && c'.slot.x == NextX(old(windows), old(row), firstX, sep)
              && c' == c.(parked := true, slotSet := true, slot := c'.slot, at := c'.slot)
      ensures forall other :: other in windows && other != id ==> Noticed(old(windows)[other], windows[other])
    {
      var found, rightMost := Rightmost(id);
      var newX := if found then rightMost + sep else firstX;
      ghost var ws := windows;
      assert NextX(ws, row, firstX, sep) == newX by {
        if row != [] {
          assert Noticed(old(windows)[row[|row| - 1]], ws[row[|row| - 1]]);
        }
      }
      var slot := Place(newX, level, windows[id].at.w);
      assert Sound(windows[id]);
      windows := windows[id := windows[id].(slot := slot, slotSet := true, at := slot, parked := true)];
      FirstLot(ws, row, firstX, sep, id, windows[id]);
      row := row + [id];
    }

    /** Whether a console has a lot, and where it ends. */
    method LookAt(other: Handle) returns (slotted: bool, rhe: int)
      requires other in windows && Sound(windows[other])
      modifies this`windows
      ensures windows == old(windows)[other := old(windows)[other].(parked := InPlace(old(windows)[other]))]
      ensures slotted == windows[other].slotSet
      ensures rhe == if slotted then Edge(windows[other]) else 0
    {
      slotted, rhe := false, 0;
      var parked := IsParked(other);
      if parked {
        slotted, rhe := true, windows[other].at.x + windows[other].minWidth;
      } else if windows[other].slotSet {
        slotted, rhe := true, windows[other].slot.x + windows[other].slot.w;
      }
    }

    /** Take a console out of the row.  It keeps its lot unless shift is down. */
    method UnPark(id: Handle, shift: bool)
      requires Valid() && id in windows
      modifies this`windows, this`row
      ensures Valid() && windows.Keys == old(windows).Keys && !windows[id].parked
      ensures var c, c' := old(windows)[id], windows[id];
              if !InPlace(c) then row == old(row) && windows == old(windows)[id := c.(parked := false)]
              else
                && c'.homeSet && c'.home == (if c.homeSet then c.home else newHome) && c'.at == c'.home
                && c'.minWidth == c.minWidth && (!shift ==> c'.slot == c.at)
                && c'.slotSet == !shift && row == (if shift then Without(old(row), id) else old(row))
                && (shift ==> forall other :: other in windows && other != id ==> Reviewed(old(windows)[other], windows[other], level))
                && (!shift ==> windows == old(windows)[id := c'])
    {
      assert Sound(windows[id]);
      var c := windows[id].(parked := InPlace(windows[id]));
      if !c.parked {
        SameLot(windows, row, firstX, sep, id, c);
        windows := windows[id := c];
        return;
      }
      c := c.(slotSet := true, slot := c.at);
      if !c.homeSet {
        c := c.(homeSet := true, home := newHome);
      }
      c := c.(at := c.home);
      if shift {
        ghost var was := windows;
        windows := windows[id := c.(slotSet := false)];
        Vacate(id, was);
        NoLonger(windows, row, firstX, sep, id);
        windows := windows[id := windows[id].(parked := false)];
      } else {
        c := c.(parked := false);
        SameLot(windows, row, firstX, sep, id, c);
        windows := windows[id := c];
      }
    }

    /** The lot of a console has gone: close up the row. */
    method Vacate(id: Handle, ghost was: Windows)
      requires firstX >= 0 && sep >= 0 && AllSound(was) && PackedRow(was, row, firstX, sep) && id in was
      requires windows == was - {id} || (windows.Keys == was.Keys && windows == was[id := windows[id]] && !windows[id].slotSet)
      modifies this`windows, this`row
      ensures windows.Keys == old(windows).Keys && row == Without(old(row), id) && PackedRow(windows, row, firstX, sep)
      ensures forall other :: other in windows && other != id ==> Sound(windows[other])
      ensures id in windows ==> windows[id] == old(windows)[id]
      ensures forall other :: other in windows && other != id ==> Reviewed(was[other], windows[other], level)
    {
      ghost var ws := windows;
      LotGiven(was, row, firstX, sep, id, ws);
      ghost var order := ReviewParking();
      AfterReview(ws, Without(row, id), order, firstX, sep, level);
      if id in ws {
        RepackElsewhere(ws, order, firstX, sep, level, id);
      }
      AllReviewed(ws, order, firstX, sep, level);
      row := Without(row, id);
    }

    /** Remove a console, unless it is the only one or is busy. */
    method DeleteMe(id: Handle, busy: bool) returns (refused: bool)
      requires Valid() && id in windows
      modifies this`windows, this`row
      ensures Valid() && refused == (|old(windows)| < 2 || busy)
      ensures refused ==> windows == old(windows) && row == old(row)
      ensures !refused ==> windows.Keys == old(windows).Keys - {id} && row == Without(old(row), id)
      ensures !refused ==> forall other :: other in windows ==> Reviewed(old(windows)[other], windows[other], level)
    {
      if |windows| < 2 || busy {
        return true;
      }
      ghost var was := windows;
      windows := windows - {id};
      Vacate(id, was);
      refused := false;
    }

    /** A console gets a new name, and with it a new width in the row. */
    method Rename(id: Handle, newMinWidth: int)
      requires Valid() && id in windows && newMinWidth > 0
      modifies this`windows
      ensures Valid() && windows.Keys == old(windows).Keys && row == old(row)
      ensures var c, c' := old(windows)[id], windows[id];
              && c'.minWidth == newMinWidth && c'.parked == InPlace(c) && c'.slotSet == c.slotSet
              && c'.homeSet == c.homeSet && c'.home == c.home && c'.at == (if c'.parked then c'.slot else c.at)
              && if c.slotSet then c'.slot.w == newMinWidth && c'.slot.y == level else c'.slot == c.slot
      ensures forall other :: other in windows && other != id ==> Reviewed(old(windows)[other], windows[other], level)
    {
      ghost var was := windows;
      assert Sound(was[id]);
      var c := windows[id].(minWidth := newMinWidth);
      if c.slotSet {
        c := c.(slot := c.slot.(w := newMinWidth));
      }
      c := c.(parked := InPlace(c));
      if c.parked {
        c := c.(at := c.at.(w := newMinWidth));
      }
      windows := windows[id := c];
      ghost var ws := windows;
      NewWidth(was, row, firstX, sep, id, c);
      ghost var order := ReviewParking();
      AfterReview(ws, row, order, firstX, sep, level);
      AllReviewed(ws, order, firstX, sep, level);
    }
  }

  /** A lot gets a new width where it is; the row is still in order. */
  lemma NewWidth(ws: Windows, row: seq<Handle>, firstX: int, sep: int, id: Handle, c: Window)
    requires AllSound(ws) && PackedRow(ws, row, firstX, sep) && sep >= 0 && id in ws && Sound(c)
    requires c.slotSet == ws[id].slotSet && c.slot.x == ws[id].slot.x
    ensures AllSound(ws[id := c]) && Lists(ws[id := c], row) && Increasing(Xs(ws[id := c], row))
  {
    RoomyRow(ws, row, sep);
    PackedSorted(ws, row, firstX, sep);
    assert Xs(ws[id := c], row) == Xs(ws, row);
  }

  /** A console without a lot stops counting as parked. */
  lemma NoLonger(ws: Windows, row: seq<Handle>, firstX: int, sep: int, id: Handle)
    requires PackedRow(ws, row, firstX, sep) && id in ws && !ws[id].slotSet && ws[id].minWidth > 0
    requires forall other :: other in ws && other != id ==> Sound(ws[other])
    ensures var ws' := ws[id := ws[id].(parked := false)]; AllSound(ws') && PackedRow(ws', row, firstX, sep)
  {
    SameLotsSameRow(ws, ws[id := ws[id].(parked := false)], row, firstX, sep);
  }

  /** What parking comes to for the console itself. */
  ghost predicate ParkedFrom(c: Window, c': Window, level: int) {
    && c'.parked && c'.slotSet && c'.at == c'.slot && c'.minWidth == c.minWidth
    && (if c.slotSet then c'.slot.x == c.slot.x && c'.slot.y == c.slot.y else c'.slot.y == level)
    && (if InPlace(c) then c'.homeSet == c.homeSet && c'.home == c.home else c'.homeSet && c'.home == c.at)
  }

  lemma {:induction false} LowestExists(ws: Windows, s: set<Handle>)
    requires s != {} && s <= ws.Keys
    ensures exists id :: id in s && forall d :: d in s ==> ws[id].slot.x <= ws[d].slot.x
    decreases |s|
  {
    var id :| id in s;
    if s - {id} == {} {
      assert s == {id};
    } else {
      LowestExists(ws, s - {id});
      var low :| low in s - {id} && forall d :: d in s - {id} ==> ws[low].slot.x <= ws[d].slot.x;
      var lowest := if ws[id].slot.x < ws[low].slot.x then id else low;
      assert forall d :: d in s ==> ws[lowest].slot.x <= ws[d].slot.x;
    }
  }

  lemma SortedBehind(ws: Windows, s: seq<Handle>, id: Handle)
    requires Known(ws, s) && Ascending(Xs(ws, s)) && id in ws
    requires forall c :: c in s ==> ws[c].slot.x <= ws[id].slot.x
    ensures Ascending(Xs(ws, s + [id]))
  {
    assert Xs(ws, s + [id]) == Xs(ws, s) + [ws[id].slot.x];
    forall i | 0 <= i < |s| ensures Xs(ws, s)[i] <= ws[id].slot.x {
      assert s[i] in s;
    }
  }
}
