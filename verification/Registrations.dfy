/** What every script and every event keeps about control ids: they are never shared or
    reused, no one-shot entry fires twice, and no registration is answered twice. */
module Registrations {
  import opened Wrappers
  import opened Callbacks
  import opened Lifecycle
  import opened Protocol
  import opened Events

  // ----- one registry -----

  predicate EntryOk(e: Entry, next: int) {
    && 0 < e.id < next
    && (e.handler == Missing ==> e.kind in {ContextMenu, ContextSubmenu})
    && (e.kind == ContextSubmenu ==> e.parentId < next)
    && (forall x :: x in e.subMenuIds ==> x < next)
  }

  ghost predicate RegistryOk(reg: seq<Entry>, next: int) {
    && (forall e :: e in reg ==> EntryOk(e, next))
    && UniqueIds(reg) && |reg| <= MAX_CALLBACKS && FamiliesMatch(reg)
  }

  /** What of an entry never changes while it is registered. */
  datatype Signature = Signature(id: int, kind: CallbackType, persistent: bool, handler: Handler, ident: string)

  function SignatureOf(e: Entry): Signature {
    Signature(e.id, e.kind, e.persistent, e.handler, e.ident)
  }

  function Signatures(reg: seq<Entry>): set<Signature> {
    set e | e in reg :: SignatureOf(e)
  }

  /** Nothing is new but what has a new id. */
  ghost predicate Evolves(old_: seq<Entry>, new_: seq<Entry>, next: int) {
    forall s :: s in Signatures(new_) && s.id < next ==> s in Signatures(old_)
  }

  /** What is new has a handler that can be called, or none. */
  ghost predicate NewCallable(reg: seq<Entry>, next: int) {
    forall s :: s in Signatures(reg) && s.id >= next ==> s.handler != NotCallable
  }

  /** What is new and has an activity bit has it among these. */
  ghost predicate NewActive(reg: seq<Entry>, next: int, bits: set<CallbackType>) {
    forall s :: s in Signatures(reg) && s.id >= next && SetsActive(s.kind, s.ident) ==> s.kind in bits
  }

  lemma EvolvesOn(a: seq<Entry>, b: seq<Entry>, c: seq<Entry>, next: int, next': int)
    requires Evolves(a, b, next) && Evolves(b, c, next') && next <= next'
    ensures Evolves(a, c, next)
    ensures NewCallable(b, next) && NewCallable(c, next') ==> NewCallable(c, next)
    ensures forall bits :: NewActive(b, next, bits) && NewActive(c, next', bits) ==> NewActive(c, next, bits)
  {
  }

  lemma SubRegistry(reg: seq<Entry>, part: seq<Entry>, next: int)
    requires RegistryOk(reg, next) && UniqueIds(part) && |part| <= |reg|
    requires forall e :: e in part ==> e in reg
    ensures RegistryOk(part, next) && Evolves(reg, part, next)
  {
  }

  lemma Wider(reg: seq<Entry>, next: int, next': int)
    requires RegistryOk(reg, next) && next <= next'
    ensures RegistryOk(reg, next')
  {
  }

  lemma AppendOk(reg: seq<Entry>, e: Entry, next: int)
    requires RegistryOk(reg, next) && |reg| < MAX_CALLBACKS && 0 < next
    requires e.id == next && e.kind != ContextSubmenu && e.subMenuIds == [] && (e.handler == Missing ==> e.kind == ContextMenu)
    ensures RegistryOk(reg + [e], next + 1) && Evolves(reg, reg + [e], next)
  {
    forall f | f in reg + [e] ensures EntryOk(f, next + 1) {
      if f in reg { assert EntryOk(f, next); }
    }
    forall p, s | p in reg + [e] && s in reg + [e] && OwnsSubmenu(p)
      ensures s.id in p.subMenuIds <==> s.kind == ContextSubmenu && s.parentId == p.id
    {
      if p in reg { assert EntryOk(p, next); }
      if s in reg { assert EntryOk(s, next); }
    }
    assert forall f :: f in reg ==> f.id < next;
  }

  function Listed(e: Entry, owner: int, id: int): Entry {
    if e.id == owner then e.(subMenuIds := e.subMenuIds + [id]) else e
  }

  /** The entry of the old registry that an entry other than the new item comes from. */
  lemma Origin(reg: seq<Entry>, item: Entry, owner: int, f: Entry) returns (e: Entry)
    requires f in ListWithOwner(reg + [item], owner, item.id) && owner != item.id && f != item
    ensures e in reg && f == Listed(e, owner, item.id)
  {
    var reg' := ListWithOwner(reg + [item], owner, item.id);
    var k :| 0 <= k < |reg'| && reg'[k] == f;
    e := (reg + [item])[k];
  }

  lemma ItemFamilies(reg: seq<Entry>, item: Entry, owner: int, next: int, p': Entry, s': Entry)
    requires RegistryOk(reg, next) && item.id == next && owner < next
    requires item.kind == ContextSubmenu && item.parentId == owner
    requires var reg' := ListWithOwner(reg + [item], owner, next); p' in reg' && s' in reg' && OwnsSubmenu(p')
    ensures s'.id in p'.subMenuIds <==> s'.kind == ContextSubmenu && s'.parentId == p'.id
  {
    var p := Origin(reg, item, owner, p');
    assert EntryOk(p, next);
    if s' != item {
      var s := Origin(reg, item, owner, s');
      assert EntryOk(s, next);
    }
  }

  /** What an entry of the new registry is: the new item, or an old entry but for its list. */
  lemma ItemOrOld(reg: seq<Entry>, owner: int, item: Entry, next: int, f: Entry)
    requires RegistryOk(reg, next) && 0 < next && owner < next && item.id == next && f in ListWithOwner(reg + [item], owner, next)
    requires item.kind == ContextSubmenu && item.parentId == owner && item.subMenuIds == [] && item.handler != NotCallable
    ensures EntryOk(f, next + 1) && (f.id < next ==> SignatureOf(f) in Signatures(reg))
    ensures f.id >= next ==> f.handler != NotCallable && f.kind == ContextSubmenu
  {
    if f != item {
      var e := Origin(reg, item, owner, f);
      assert EntryOk(e, next);
      assert SignatureOf(f) == SignatureOf(e);
    }
  }

  lemma ItemUnique(reg: seq<Entry>, owner: int, item: Entry, next: int)
    requires RegistryOk(reg, next) && item.id == next
    ensures UniqueIds(ListWithOwner(reg + [item], owner, next))
  {
    var mid := reg + [item];
    var reg' := ListWithOwner(mid, owner, next);
    forall i, j | 0 <= i < j < |reg'| ensures reg'[i].id != reg'[j].id {
      assert reg'[i].id == mid[i].id && reg'[j].id == mid[j].id;
      assert reg[i] in reg && EntryOk(reg[i], next);
    }
  }

  lemma ItemOk(reg: seq<Entry>, owner: int, persistent: bool, callable: bool, next: int)
    requires RegistryOk(reg, next) && |reg| < MAX_CALLBACKS && 0 < next && owner < next
    ensures var reg' := ListWithOwner(reg + [SubmenuEntry(next, owner, persistent, callable)], owner, next);
            RegistryOk(reg', next + 1) && Evolves(reg, reg', next) && NewCallable(reg', next) && NewActive(reg', next, {})
  {
    var item := SubmenuEntry(next, owner, persistent, callable);
    var reg' := ListWithOwner(reg + [item], owner, next);
    forall f | f in reg'
      ensures EntryOk(f, next + 1) && (f.id < next ==> SignatureOf(f) in Signatures(reg)) && (f.id >= next ==> f.handler != NotCallable && f.kind == ContextSubmenu)
    {
      ItemOrOld(reg, owner, item, next, f);
    }
    ItemUnique(reg, owner, item, next);
    forall p', s' | p' in reg' && s' in reg' && OwnsSubmenu(p')
      ensures s'.id in p'.subMenuIds <==> s'.kind == ContextSubmenu && s'.parentId == p'.id
    {
      ItemFamilies(reg, item, owner, next, p', s');
    }
  }

  lemma MoveToEndOk(reg: seq<Entry>, i: nat, next: int)
    requires RegistryOk(reg, next) && i < |reg|
    ensures RegistryOk(RemoveAt(reg, i) + [reg[i]], next) && Evolves(reg, RemoveAt(reg, i) + [reg[i]], next)
  {
    RemoveAtKeeps(reg, i);
    KeepUnique(reg, {reg[i].id});
    var moved := RemoveAt(reg, i) + [reg[i]];
    assert forall e :: e in RemoveAt(reg, i) ==> e.id != reg[i].id;
    SubRegistry(reg, moved, next);
  }

  lemma RemoveAtOk(reg: seq<Entry>, i: nat, next: int)
    requires RegistryOk(reg, next) && i < |reg|
    ensures RegistryOk(RemoveAt(reg, i), next) && Evolves(reg, RemoveAt(reg, i), next)
    ensures forall e :: e in RemoveAt(reg, i) ==> e in reg && e.id != reg[i].id
  {
    RemoveAtKeeps(reg, i);
    KeepUnique(reg, {reg[i].id});
    SubRegistry(reg, RemoveAt(reg, i), next);
  }

  lemma KeepOk(reg: seq<Entry>, gone: set<int>, next: int)
    requires RegistryOk(reg, next)
    ensures RegistryOk(Keep(reg, gone), next) && Evolves(reg, Keep(reg, gone), next)
  {
    KeepUnique(reg, gone);
    SubRegistry(reg, Keep(reg, gone), next);
  }

  lemma CancelTypeOk(reg: seq<Entry>, kind: CallbackType, next: int)
    requires RegistryOk(reg, next)
    ensures RegistryOk(CancelType(reg, kind), next) && Evolves(reg, CancelType(reg, kind), next)
  {
    FamiliesDiffer(reg, kind);
    CancelTypeExact(reg, kind);
    KeepOk(reg, Cancelled(reg, kind), next);
  }

  lemma CancelIdOk(reg: seq<Entry>, id: int, next: int)
    requires RegistryOk(reg, next)
    ensures RegistryOk(CancelId(reg, id), next) && Evolves(reg, CancelId(reg, id), next)
    ensures forall e :: e in CancelId(reg, id) ==> e in reg
  {
    var i := IndexOf(reg, id);
    if i < |reg| {
      CancelIdKeeps(reg, reg[i]);
      KeepOk(reg, {id} + Dependents(reg[i]), next);
    }
  }

  // ----- one call by a script -----

  lemma OldIds(reg: seq<Entry>, next: int)
    requires RegistryOk(reg, next)
    ensures forall s :: s in Signatures(reg) ==> s.id < next
    ensures NewCallable(reg, next) && forall bits :: NewActive(reg, next, bits)
  {
    forall e | e in reg ensures e.id < next { assert EntryOk(e, next); }
  }

  lemma NewOk(c: ConsoleState, e: Entry, next: int)
    requires RegistryOk(c.callbacks, next) && 0 < next
    requires e.id == next && e.kind != ContextSubmenu && e.subMenuIds == [] && (e.handler == Missing ==> e.kind == ContextMenu)
    ensures var o := NewCallbackEntry(c, e, next);
            && RegistryOk(o.c.callbacks, o.nextId) && Evolves(c.callbacks, o.c.callbacks, next)
            && (e.handler != NotCallable ==> NewCallable(o.c.callbacks, next))
            && NewActive(o.c.callbacks, next, if !o.threw && SetsActive(e.kind, e.ident) then {e.kind} else {})
  {
    if |c.callbacks| < MAX_CALLBACKS {
      AppendOk(c.callbacks, e, next);
      OldIds(c.callbacks, next);
    }
  }

  lemma {:induction false} AddItemsOk(c: ConsoleState, owner: int, persistent: bool, items: seq<bool>, next: int)
    requires RegistryOk(c.callbacks, next) && 0 < next && owner < next
    ensures var o := AddItems(c, owner, persistent, items, next);
            && RegistryOk(o.c.callbacks, o.nextId) && Evolves(c.callbacks, o.c.callbacks, next) && NewCallable(o.c.callbacks, next)
            && NewActive(o.c.callbacks, next, {})
    decreases |items|
  {
    if items == [] || |c.callbacks| >= MAX_CALLBACKS {
      OldIds(c.callbacks, next);
    } else {
      ItemOk(c.callbacks, owner, persistent, items[0], next);
      var r := NewCallbackEntry(c, SubmenuEntry(next, owner, persistent, items[0]), next);
      var c1 := r.c.(callbacks := ListWithOwner(r.c.callbacks, owner, next));
      if items[0] {
        AddItemsOk(c1, owner, persistent, items[1..], next + 1);
        var o := AddItems(c1, owner, persistent, items[1..], next + 1);
        EvolvesOn(c.callbacks, c1.callbacks, o.c.callbacks, next, next + 1);
        assert AddItems(c, owner, persistent, items, next) == o;
      }
    }
  }

  lemma MenuOk(c: ConsoleState, persistent: bool, items: seq<bool>, next: int)
    requires RegistryOk(c.callbacks, next) && 0 < next
    ensures var o := RegisterMenu(c, persistent, items, next);
            && RegistryOk(o.c.callbacks, o.nextId) && Evolves(c.callbacks, o.c.callbacks, next) && NewCallable(o.c.callbacks, next)
            && NewActive(o.c.callbacks, next, {})
  {
    OldIds(c.callbacks, next);
    if InExit !in c.status {
      var r := NewCallbackEntry(c, MenuOwner(next, persistent), next);
      NewOk(c, MenuOwner(next, persistent), next);
      if !r.threw {
        AddItemsOk(r.c, next, persistent, items, r.nextId);
        var o := AddItems(r.c, next, persistent, items, r.nextId);
        EvolvesOn(c.callbacks, r.c.callbacks, o.c.callbacks, next, r.nextId);
      }
    }
  }

  lemma ReadBackOk(c: ConsoleState, id: int, next: int)
    requires RegistryOk(c.callbacks, next)
    ensures var o := ReadBack(c, id, next);
            o.nextId == next && RegistryOk(o.c.callbacks, o.nextId) && Evolves(c.callbacks, o.c.callbacks, next)
  {
    var i := IndexOf(c.callbacks, id);
    if i < |c.callbacks| && !c.callbacks[i].persistent {
      MoveToEndOk(c.callbacks, i, next);
    }
  }

  lemma RegisterOk(c: ConsoleState, e: Entry, next: int)
    requires RegistryOk(c.callbacks, next) && 0 < next
    requires e.id == next && e.subMenuIds == [] && e.handler == Callable
    ensures var o := RegisterEntry(c, e, next);
            && RegistryOk(o.c.callbacks, o.nextId) && Evolves(c.callbacks, o.c.callbacks, next) && NewCallable(o.c.callbacks, next)
            && NewActive(o.c.callbacks, next, if !o.threw && SetsActive(e.kind, e.ident) then {e.kind} else {})
  {
    if InExit in c.status || e.kind in {ContextSubmenu, ConsoleReply} {
      OldIds(c.callbacks, next);
    } else {
      NewOk(c, e, next);
      var o := NewCallbackEntry(c, e, next);
      assert RegisterEntry(c, e, next).c.callbacks == o.c.callbacks;
    }
  }

  lemma CancelOk(c: ConsoleState, kind: CallbackType, rest: seq<Entry>, next: int)
    requires RegistryOk(c.callbacks, next) && RegistryOk(rest, next) && Evolves(c.callbacks, rest, next)
    ensures var o := Cancel(c, kind, rest, next);
            o.nextId == next && RegistryOk(o.c.callbacks, o.nextId) && Evolves(c.callbacks, o.c.callbacks, next)
  {
  }

  predicate EditsRegistry(a: Act) {
    a.Register? || a.Menu? || a.CancelByType? || a.CancelById? || a.ReadDialogue?
  }

  /** All other calls leave the registry as it is or empty it. */
  lemma OtherwiseKept(c: ConsoleState, a: Act, next: int)
    requires IsLocal(a) && !EditsRegistry(a)
    ensures Perform(c, a, next).c.callbacks in {c.callbacks, []} && Perform(c, a, next).nextId == next
  {
    match a
    case MessageBox(answer) => match answer { case Accepted => case Declined => case ClosedByOther => }
    case StopScript =>
    case Chain(readable, hasBrief) =>
    case _ =>
  }

  lemma PerformOk(c: ConsoleState, a: Act, next: int, o: Outcome)
    requires IsLocal(a) && RegistryOk(c.callbacks, next) && 0 < next && o == Perform(c, a, next)
    ensures RegistryOk(o.c.callbacks, o.nextId) && Evolves(c.callbacks, o.c.callbacks, next)
    ensures NewCallable(o.c.callbacks, next) && NewActive(o.c.callbacks, next, BitsSet(a, o))
  {
    if a.Register? {
      RegisterOk(c, Entry(next, a.kind, a.persistent, Callable, [], 0, a.ident, a.mouseMask), next);
    } else if a.Menu? {
      MenuOk(c, a.persistent, a.itemsCallable, next);
    } else if a.CancelByType? {
      CancelTypeOk(c.callbacks, a.kind, next);
      CancelOk(c, a.kind, CancelType(c.callbacks, a.kind), next);
      OldIds(o.c.callbacks, next);
    } else if a.CancelById? {
      CancelIdOk(c.callbacks, a.id, next);
      CancelOk(c, a.kind, CancelId(c.callbacks, a.id), next);
      OldIds(o.c.callbacks, next);
    } else if a.ReadDialogue? {
      ReadBackOk(c, a.id, next);
      OldIds(o.c.callbacks, next);
    } else {
      OtherwiseKept(c, a, next);
      SubRegistry(c.callbacks, o.c.callbacks, next);
      OldIds(o.c.callbacks, next);
    }
  }
}
