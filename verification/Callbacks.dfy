/** The callback registry of one console: the entries, and every way in which
    entries are looked up and removed (one entry, one kind, a whole menu family). */
module Callbacks {
  import opened Wrappers

  datatype CallbackType =
    | Timer | Message | ContextMenu | ContextSubmenu | Notification | N0183 | N2K
    | Socket | CloseButton | Navigation | ActiveLeg | AIS | Dialogue | ConsoleReply | MouseEvents

  datatype MouseEvent = LeftDown | LeftUp | RightDown | RightUp | MiddleDown | MiddleUp | Dragging

  /** The stored JavaScript function: none (the owner of a submenu), something that can
      be called, or a value that turns out not to be callable. */
  datatype Handler = Missing | Callable | NotCallable

  datatype Entry = Entry(
    id: int,
    kind: CallbackType,
    persistent: bool,
    handler: Handler,
    subMenuIds: seq<int>,        // for the owner of a submenu
    parentId: int,               // for a submenu entry
    ident: string,               // for NMEA 0183: the sentence awaited, "" for all
    mouseMask: set<MouseEvent>)  // for mouse events: those awaited

  const MAX_CALLBACKS: nat := 500

  predicate OwnsSubmenu(e: Entry) {
    e.kind == ContextMenu && e.handler == Missing
  }

  // ----- looking up and removing -----

  function RemoveAt(reg: seq<Entry>, i: nat): seq<Entry>
    requires i < |reg|
  {
    reg[..i] + reg[i + 1..]
  }

  /** The position of the first entry with this id, or the length if there is none. */
  function IndexOf(reg: seq<Entry>, id: int): (i: nat)
    ensures i <= |reg|
    ensures i < |reg| ==> reg[i].id == id
    ensures forall k :: 0 <= k < i ==> reg[k].id != id
  {
    if reg == [] then 0
    else if reg[0].id == id then 0
    else 1 + IndexOf(reg[1..], id)
  }

  /** The position of the first entry of this kind, or the length if there is none. */
  function IndexOfKind(reg: seq<Entry>, kind: CallbackType): (i: nat)
    ensures i <= |reg|
    ensures i < |reg| ==> reg[i].kind == kind
    ensures forall k :: 0 <= k < i ==> reg[k].kind != kind
  {
    if reg == [] then 0
    else if reg[0].kind == kind then 0
    else 1 + IndexOfKind(reg[1..], kind)
  }

  function TakeOut(reg: seq<Entry>, i: nat, forceErase: bool): (seq<Entry>, Option<Entry>)
    requires i <= |reg|
  {
    if i == |reg| then (reg, None)
    else if !reg[i].persistent || forceErase then (RemoveAt(reg, i), Some(reg[i]))
    else (reg, Some(reg[i]))
  }

  /** getCallbackEntry: the entry with this id, taken out unless it is to stay. */
  function Get(reg: seq<Entry>, id: int, forceErase: bool): (seq<Entry>, Option<Entry>) {
    TakeOut(reg, IndexOf(reg, id), forceErase)
  }

  /** getCallbackEntryByType: the first entry of this kind, taken out unless it is to stay. */
  function GetByType(reg: seq<Entry>, kind: CallbackType, forceErase: bool): (seq<Entry>, Option<Entry>) {
    TakeOut(reg, IndexOfKind(reg, kind), forceErase)
  }

  function ReleaseIds(reg: seq<Entry>, ids: seq<int>): (r: seq<Entry>)
    ensures |r| <= |reg|
    decreases |ids|
  {
    if ids == [] then reg else ReleaseIds(Get(reg, ids[0], true).0, ids[1..])
  }

  /** What the deleter does to the registry when the last reference to an entry goes: the
      owner of a submenu takes its submenu entries with it.  (Those have no dependents.) */
  function Release(reg: seq<Entry>, e: Entry): (r: seq<Entry>)
    ensures |r| <= |reg|
  {
    if OwnsSubmenu(e) then ReleaseIds(reg, e.subMenuIds) else reg
  }

  function ReleaseHeld(reg: seq<Entry>, held: Option<Entry>): (r: seq<Entry>)
    ensures |r| <= |reg|
  {
    if held.Some? then Release(reg, held.value) else reg
  }

  /** Cancelling by kind.  One reference, held, is kept from one pass of the loop to the
      next, so each entry is released only after the following lookup. */
  function CancelLoop(reg: seq<Entry>, kind: CallbackType, held: Option<Entry>): seq<Entry>
    decreases |reg|
  {
    var (rest, found) := GetByType(reg, kind, true);
    if found.None? then ReleaseHeld(rest, held)
    else CancelLoop(ReleaseHeld(rest, held), kind, found)
  }

  function CancelType(reg: seq<Entry>, kind: CallbackType): seq<Entry> {
    CancelLoop(reg, kind, None)
  }

  /** Cancelling one id. */
  function CancelId(reg: seq<Entry>, id: int): seq<Entry> {
    var (rest, found) := Get(reg, id, true);
    ReleaseHeld(rest, found)
  }

  /** Choosing a context menu item: the item is taken out unless persistent; when that
      item is a one-shot submenu entry its owner is taken out as well, and with the owner
      all of its submenu entries. */
  function ChooseMenuItem(reg: seq<Entry>, id: int): (seq<Entry>, Option<Entry>) {
    var (rest, found) := Get(reg, id, false);
    if found.Some? && found.value.kind == ContextSubmenu && !found.value.persistent then
      (CancelId(rest, found.value.parentId), found)
    else
      (rest, found)
  }

  // ----- what these leave behind -----

  /** The entries whose id is not in gone, in their order. */
  function Keep(reg: seq<Entry>, gone: set<int>): (r: seq<Entry>)
    ensures forall e :: e in r <==> e in reg && e.id !in gone
    ensures |r| <= |reg|
  {
    if reg == [] then []
    else if reg[0].id in gone then Keep(reg[1..], gone)
    else [reg[0]] + Keep(reg[1..], gone)
  }

  ghost predicate UniqueIds(reg: seq<Entry>) {
    forall i, j :: 0 <= i < j < |reg| ==> reg[i].id != reg[j].id
  }

  lemma {:induction false} KeepUnique(reg: seq<Entry>, gone: set<int>)
    requires UniqueIds(reg)
    ensures UniqueIds(Keep(reg, gone))
  {
    if reg != [] {
      KeepUnique(reg[1..], gone);
      var rest := Keep(reg[1..], gone);
      forall j | 0 <= j < |rest| ensures rest[j].id != reg[0].id {
        assert rest[j] in rest;
        assert rest[j] in reg[1..];
      }
    }
  }

  lemma {:induction false} KeepTwice(reg: seq<Entry>, a: set<int>, b: set<int>)
    ensures Keep(Keep(reg, a), b) == Keep(reg, a + b)
  {
    if reg != [] {
      KeepTwice(reg[1..], a, b);
      if reg[0].id !in a {
        assert ([reg[0]] + Keep(reg[1..], a))[1..] == Keep(reg[1..], a);
      }
    }
  }

  lemma {:induction false} KeepAll(reg: seq<Entry>, gone: set<int>)
    requires forall e :: e in reg ==> e.id !in gone
    ensures Keep(reg, gone) == reg
  {
    if reg != [] {
      KeepAll(reg[1..], gone);
    }
  }

  lemma {:induction false} KeepConcat(front: seq<Entry>, back: seq<Entry>, gone: set<int>)
    ensures Keep(front + back, gone) == Keep(front, gone) + Keep(back, gone)
  {
    if front == [] {
      assert front + back == back;
    } else {
      assert (front + back)[1..] == front[1..] + back;
      KeepConcat(front[1..], back, gone);
    }
  }

  lemma OthersDiffer(reg: seq<Entry>, i: nat)
    requires UniqueIds(reg) && i < |reg|
    ensures forall e :: e in reg[..i] || e in reg[i + 1..] ==> e.id !in {reg[i].id}
  {
  }

  lemma FirstGone(e: Entry, back: seq<Entry>)
    ensures Keep([e] + back, {e.id}) == Keep(back, {e.id})
  {
    assert ([e] + back)[1..] == back;
  }

  lemma SplitAt(reg: seq<Entry>, i: nat)
    requires i < |reg|
    ensures reg == reg[..i] + ([reg[i]] + reg[i + 1..])
  {
  }

  /** With distinct ids, removing at a position is keeping all other ids. */
  lemma RemoveAtKeeps(reg: seq<Entry>, i: nat)
    requires UniqueIds(reg) && i < |reg|
    ensures RemoveAt(reg, i) == Keep(reg, {reg[i].id})
  {
    SplitAt(reg, i);
    OthersDiffer(reg, i);
    OneGone(reg[..i], reg[i], reg[i + 1..]);
  }

  lemma OneGone(front: seq<Entry>, e: Entry, back: seq<Entry>)
    requires forall d :: d in front || d in back ==> d.id !in {e.id}
    ensures Keep(front + ([e] + back), {e.id}) == front + back
  {
    KeepConcat(front, [e] + back, {e.id});
    FirstGone(e, back);
    KeepAll(front, {e.id});
    KeepAll(back, {e.id});
  }

  /** A forced lookup by id leaves exactly the other ids, whether or not it finds one. */
  lemma GetForcedKeeps(reg: seq<Entry>, id: int)
    requires UniqueIds(reg)
    ensures Get(reg, id, true).0 == Keep(reg, {id})
  {
    var i := IndexOf(reg, id);
    if i < |reg| {
      RemoveAtKeeps(reg, i);
    } else {
      forall e | e in reg ensures e.id !in {id} {
        var j :| 0 <= j < |reg| && reg[j] == e;
      }
      KeepAll(reg, {id});
    }
  }

  function IdSet(ids: seq<int>): set<int> {
    set x | x in ids
  }

  lemma {:induction false} ReleaseIdsKeeps(reg: seq<Entry>, ids: seq<int>)
    requires UniqueIds(reg)
    ensures ReleaseIds(reg, ids) == Keep(reg, IdSet(ids))
    decreases |ids|
  {
    if ids == [] {
      KeepAll(reg, {});
      assert IdSet(ids) == {};
    } else {
      GetForcedKeeps(reg, ids[0]);
      KeepUnique(reg, {ids[0]});
      ReleaseIdsKeeps(Keep(reg, {ids[0]}), ids[1..]);
      KeepTwice(reg, {ids[0]}, IdSet(ids[1..]));
      assert {ids[0]} + IdSet(ids[1..]) == IdSet(ids);
    }
  }

  /** The ids that go with an entry when it is released. */
  function Dependents(e: Entry): set<int> {
    if OwnsSubmenu(e) then IdSet(e.subMenuIds) else {}
  }

  lemma ReleaseHeldKeeps(reg: seq<Entry>, held: Option<Entry>)
    requires UniqueIds(reg)
    ensures ReleaseHeld(reg, held) == Keep(reg, if held.Some? then Dependents(held.value) else {})
  {
    if held.Some? && OwnsSubmenu(held.value) {
      ReleaseIdsKeeps(reg, held.value.subMenuIds);
    } else {
      KeepAll(reg, {});
    }
  }

  /** Everything that cancelling a kind is to take away: the entries of that kind, and
      the submenu entries owned by one of them. */
  function Cancelled(reg: seq<Entry>, kind: CallbackType): set<int> {
    (set e | e in reg && e.kind == kind :: e.id) +
    (set e, x | e in reg && e.kind == kind && x in Dependents(e) :: x)
  }

  /** Submenu entries are not of the kind being cancelled. */
  ghost predicate DependentsDiffer(reg: seq<Entry>, kind: CallbackType) {
    forall e :: e in reg && e.kind == kind ==> NoneOfKind(reg, Dependents(e), kind)
  }

  ghost predicate NoneOfKind(reg: seq<Entry>, ids: set<int>, kind: CallbackType) {
    forall d :: d in reg && d.id in ids ==> d.kind != kind
  }

  ghost function HeldDependents(held: Option<Entry>): set<int> {
    if held.Some? then Dependents(held.value) else {}
  }

  /** One pass of the cancelling loop. */
  lemma CancelPass(reg: seq<Entry>, i: nat, held: Option<Entry>)
    requires UniqueIds(reg) && i < |reg|
    ensures ReleaseHeld(RemoveAt(reg, i), held) == Keep(reg, {reg[i].id} + HeldDependents(held))
    ensures UniqueIds(ReleaseHeld(RemoveAt(reg, i), held))
  {
    RemoveAtKeeps(reg, i);
    KeepUnique(reg, {reg[i].id});
    ReleaseHeldKeeps(Keep(reg, {reg[i].id}), held);
    KeepTwice(reg, {reg[i].id}, HeldDependents(held));
    KeepUnique(reg, {reg[i].id} + HeldDependents(held));
  }

  /** What the next pass of the cancelling loop finds. */
  lemma NextPass(reg: seq<Entry>, kind: CallbackType, held: Option<Entry>, i: nat, next: seq<Entry>)
    requires UniqueIds(reg) && DependentsDiffer(reg, kind)
    requires i == IndexOfKind(reg, kind) < |reg|
    requires next == ReleaseHeld(RemoveAt(reg, i), held)
    ensures UniqueIds(next) && DependentsDiffer(next, kind) && |next| < |reg|
    ensures NoneOfKind(next, Dependents(reg[i]), kind)
    ensures next == Keep(reg, {reg[i].id} + HeldDependents(held))
    ensures CancelLoop(reg, kind, held) == CancelLoop(next, kind, Some(reg[i]))
  {
    CancelPass(reg, i, held);
    assert GetByType(reg, kind, true) == (RemoveAt(reg, i), Some(reg[i]));
  }

  lemma LastPass(reg: seq<Entry>, kind: CallbackType, held: Option<Entry>)
    requires UniqueIds(reg) && IndexOfKind(reg, kind) == |reg|
    ensures CancelLoop(reg, kind, held) == Keep(reg, Cancelled(reg, kind) + HeldDependents(held))
  {
    ReleaseHeldKeeps(reg, held);
    NothingCancelled(reg, kind);
    assert Cancelled(reg, kind) + HeldDependents(held) == HeldDependents(held);
  }

  lemma NothingCancelled(reg: seq<Entry>, kind: CallbackType)
    requires IndexOfKind(reg, kind) == |reg|
    ensures Cancelled(reg, kind) == {}
  {
    forall e | e in reg ensures e.kind != kind {
      var j :| 0 <= j < |reg| && reg[j] == e;
    }
  }

  /** The cancelling loop removes exactly the entries of the kind and their dependents, and
      keeps all others in order, although it frees each entry one pass late. */
  lemma {:induction false} CancelLoopKeeps(reg: seq<Entry>, kind: CallbackType, held: Option<Entry>)
    requires UniqueIds(reg) && DependentsDiffer(reg, kind)
    requires NoneOfKind(reg, HeldDependents(held), kind)
    ensures CancelLoop(reg, kind, held) == Keep(reg, Cancelled(reg, kind) + HeldDependents(held))
    decreases |reg|
  {
    var i := IndexOfKind(reg, kind);
    if i == |reg| {
      LastPass(reg, kind, held);
    } else {
      var e, gone := reg[i], HeldDependents(held);
      var next := ReleaseHeld(RemoveAt(reg, i), held);
      NextPass(reg, kind, held, i, next);
      CancelLoopKeeps(next, kind, Some(e));
      var more := Cancelled(next, kind) + Dependents(e);
      KeepTwice(reg, {e.id} + gone, more);
      CancelledStep(reg, kind, e, gone, next);
    }
  }

  lemma CancelledStep(reg: seq<Entry>, kind: CallbackType, e: Entry, gone: set<int>, next: seq<Entry>)
    requires UniqueIds(reg) && e in reg && e.kind == kind
    requires next == Keep(reg, {e.id} + gone)
    requires NoneOfKind(reg, gone, kind)
    ensures {e.id} + gone + (Cancelled(next, kind) + Dependents(e)) == Cancelled(reg, kind) + gone
  {
    forall f | f in reg && f.kind == kind ensures f in next || f == e {
      if f !in next {
        assert f.id == e.id;
        IndexOfUnique(reg, e);
        IndexOfUnique(reg, f);
      }
    }
    var lhs := {e.id} + gone + (Cancelled(next, kind) + Dependents(e));
    var rhs := Cancelled(reg, kind) + gone;
    forall x | x in lhs ensures x in rhs {
      if x in Cancelled(next, kind) {
        var f :| f in next && f.kind == kind && (x == f.id || x in Dependents(f));
        assert f in reg;
      }
    }
    forall x | x in rhs ensures x in lhs {
      if x in Cancelled(reg, kind) {
        var f :| f in reg && f.kind == kind && (x == f.id || x in Dependents(f));
        assert f in next || f == e;
      }
    }
  }

  /** Cancel-by-type terminates (its specification is a total function) and removes
      exactly the entries of that kind plus the submenu entries they own. */
  lemma CancelTypeExact(reg: seq<Entry>, kind: CallbackType)
    requires UniqueIds(reg) && DependentsDiffer(reg, kind)
    ensures CancelType(reg, kind) == Keep(reg, Cancelled(reg, kind))
    ensures forall e :: e in CancelType(reg, kind) ==> e.kind != kind
  {
    CancelLoopKeeps(reg, kind, None);
    assert Cancelled(reg, kind) + HeldDependents(None) == Cancelled(reg, kind);
  }

  /** Every submenu entry hangs from the owner that lists it, and an owner lists nothing
      else that is registered. */
  ghost predicate FamiliesMatch(reg: seq<Entry>) {
    forall p, s :: p in reg && s in reg && OwnsSubmenu(p) ==>
      (s.id in p.subMenuIds <==> s.kind == ContextSubmenu && s.parentId == p.id)
  }

  lemma FamiliesDiffer(reg: seq<Entry>, kind: CallbackType)
    requires FamiliesMatch(reg)
    ensures DependentsDiffer(reg, kind)
  {
  }

  /** A forced lookup followed by the release of what it found. */
  lemma CancelIdKeeps(reg: seq<Entry>, e: Entry)
    requires UniqueIds(reg) && e in reg
    ensures CancelId(reg, e.id) == Keep(reg, {e.id} + Dependents(e))
  {
    IndexOfUnique(reg, e);
    CancelPass(reg, IndexOf(reg, e.id), Some(e));
  }

  /** Firing a one-shot submenu entry removes its whole family - itself, its owner and its
      siblings - and nothing else. */
  lemma OneShotFamilyGoes(reg: seq<Entry>, s: Entry, p: Entry)
    requires UniqueIds(reg) && FamiliesMatch(reg)
    requires s in reg && s.kind == ContextSubmenu && !s.persistent
    requires p in reg && OwnsSubmenu(p) && s.parentId == p.id
    ensures ChooseMenuItem(reg, s.id).1 == Some(s)
    ensures ChooseMenuItem(reg, s.id).0 ==
            Keep(reg, {p.id} + set e | e in reg && e.kind == ContextSubmenu && e.parentId == p.id :: e.id)
  {
    IndexOfUnique(reg, s);
    RemoveAtKeeps(reg, IndexOf(reg, s.id));
    KeepUnique(reg, {s.id});
    DistinctIds(reg, s, p);
    CancelIdKeeps(Keep(reg, {s.id}), p);
    KeepTwice(reg, {s.id}, {p.id} + Dependents(p));
    KeepSame(reg, {s.id} + ({p.id} + Dependents(p)),
             {p.id} + set e | e in reg && e.kind == ContextSubmenu && e.parentId == p.id :: e.id);
  }

  lemma DistinctIds(reg: seq<Entry>, e: Entry, f: Entry)
    requires UniqueIds(reg) && e in reg && f in reg && e != f
    ensures e.id != f.id
  {
    IndexOfUnique(reg, e);
    IndexOfUnique(reg, f);
  }

  lemma IndexOfUnique(reg: seq<Entry>, e: Entry)
    requires UniqueIds(reg) && e in reg
    ensures IndexOf(reg, e.id) < |reg| && reg[IndexOf(reg, e.id)] == e
  {
    var j :| 0 <= j < |reg| && reg[j] == e;
    var i := IndexOf(reg, e.id);
    assert i <= j;
  }

  /** Only the ids that occur in the registry matter to Keep. */
  lemma {:induction false} KeepSame(reg: seq<Entry>, a: set<int>, b: set<int>)
    requires forall e :: e in reg ==> (e.id in a <==> e.id in b)
    ensures Keep(reg, a) == Keep(reg, b)
  {
    if reg != [] {
      assert reg[0] in reg;
      KeepSame(reg[1..], a, b);
    }
  }
}
