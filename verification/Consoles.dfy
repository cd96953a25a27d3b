/** The console object: the methods that update its fields, each proved to do what the
    functions of Lifecycle and Callbacks say. */
module Consoles {
  import opened Wrappers
  import opened Callbacks
  import L = Lifecycle
  import opened Lifecycle

  class Console {
    const name: string
    var ctx: bool
    var callbacks: seq<Entry>
    var cached: bool
    var waiting: bool
    var runningMain: bool
    var status: set<Completion>
    var alert: bool
    var msgBox: bool
    var exitHandler: Handler
    var brief: Brief
    var button: ButtonLabel

    ghost function View(): ConsoleState
      reads this
    {
      ConsoleState(ctx, callbacks, cached, waiting, runningMain, status, alert, msgBox, exitHandler, brief, button)
    }

    constructor (name: string)
      ensures this.name == name && View() == NEW_CONSOLE
    {
      this.name := name;
      ctx, callbacks, cached, waiting, runningMain, status := false, [], false, false, false, {};
      alert, msgBox, exitHandler, brief, button := false, false, Missing, Brief(0, "", false), Run;
    }

    // ----- the registry -----

    method NewCallbackEntry(e: Entry, ghost nextId: int) returns (threw: bool)
      modifies this
      ensures var o := L.NewCallbackEntry(old(View()), e, nextId); View() == o.c && threw == o.threw
    {
      threw := |callbacks| >= MAX_CALLBACKS;
      if threw {
        ClearCallbacks();
        runningMain := false;
      } else {
        callbacks := callbacks + [e];
      }
    }

    method GetCallbackEntry(id: int, forceErase: bool) returns (found: Option<Entry>)
      modifies this`callbacks
      ensures (callbacks, found) == Get(old(callbacks), id, forceErase)
    {
      var i := 0;
      while i < |callbacks|
        invariant 0 <= i <= |callbacks| && callbacks == old(callbacks)
        invariant forall k :: 0 <= k < i ==> callbacks[k].id != id
      {
        if callbacks[i].id == id {
          found := Some(callbacks[i]);
          if !callbacks[i].persistent || forceErase {
            callbacks := RemoveAt(callbacks, i);
          }
          return;
        }
        i := i + 1;
      }
      found := None;
    }

    method GetCallbackEntryByType(kind: CallbackType, forceErase: bool) returns (found: Option<Entry>)
      modifies this`callbacks
      ensures (callbacks, found) == GetByType(old(callbacks), kind, forceErase)
    {
      var i := 0;
      while i < |callbacks|
        invariant 0 <= i <= |callbacks| && callbacks == old(callbacks)
        invariant forall k :: 0 <= k < i ==> callbacks[k].kind != kind
      {
        if callbacks[i].kind == kind {
          found := Some(callbacks[i]);
          if !callbacks[i].persistent || forceErase {
            callbacks := RemoveAt(callbacks, i);
          }
          return;
        }
        i := i + 1;
      }
      found := None;
    }

    /** The deleter of an entry whose last reference goes. */
    method Release(held: Option<Entry>)
      modifies this`callbacks
      ensures callbacks == ReleaseHeld(old(callbacks), held)
    {
      if held.Some? && OwnsSubmenu(held.value) {
        var ids, i := held.value.subMenuIds, 0;
        while i < |ids|
          invariant 0 <= i <= |ids|
          invariant ReleaseIds(callbacks, ids[i..]) == ReleaseIds(old(callbacks), ids)
        {
          var waste := GetCallbackEntry(ids[i], true);
          assert ids[i..][1..] == ids[i + 1..];
          i := i + 1;
        }
      }
    }

    method CancelCallbacksByType(kind: CallbackType)
      modifies this`callbacks
      ensures callbacks == CancelType(old(callbacks), kind)
    {
      var held: Option<Entry> := None;
      while true
        invariant CancelLoop(callbacks, kind, held) == CancelType(old(callbacks), kind)
        decreases |callbacks|
      {
        var found := GetCallbackEntryByType(kind, true);
        Release(held);
        held := found;
        if held.None? {
          break;
        }
      }
    }

    method CancelCallback(id: int)
      modifies this`callbacks
      ensures callbacks == CancelId(old(callbacks), id)
    {
      var found := GetCallbackEntry(id, true);
      Release(found);
    }

    /** A context menu item is chosen: the entry, its owner and its siblings as the case may be. */
    method TakeMenuItem(id: int) returns (found: Option<Entry>)
      modifies this`callbacks
      ensures (callbacks, found) == ChooseMenuItem(old(callbacks), id)
    {
      found := GetCallbackEntry(id, false);
      if found.Some? && found.value.kind == ContextSubmenu && !found.value.persistent {
        CancelCallback(found.value.parentId);
      }
    }

    // ----- waiting -----

    method IsWaiting() returns (r: bool)
      modifies this`cached, this`waiting
      ensures (View(), r) == L.IsWaiting(old(View()))
    {
      if cached {
        return waiting;
      }
      waiting := |callbacks| > 0 || msgBox || alert;
      cached := true;
      return waiting;
    }

    method IsBusy() returns (r: bool)
      modifies this`cached, this`waiting
      ensures (View(), r) == L.IsBusy(old(View()))
    {
      if runningMain {
        return true;
      }
      r := IsWaiting();
    }

    // ----- clearing down -----

    method ClearAlert()
      modifies this
      ensures View() == L.ClearAlert(old(View()))
    {
      if alert {
        alert, cached := false, false;
      }
    }

    method ClearCallbacks()
      modifies this
      ensures View() == L.ClearCallbacks(old(View()))
    {
      callbacks := [];
      ClearAlert();
      runningMain := false;
      if msgBox {
        msgBox := false;
      }
      cached := false;
      button := Run;
    }

    method Cleanup()
      modifies this
      ensures View() == L.Cleanup(old(View()))
    {
      ClearCallbacks();
      ctx := false;
    }

    method ConsoleReset()
      modifies this
      ensures View() == L.ConsoleReset(old(View()))
    {
      ctx, runningMain, status, cached := false, false, {}, false;
      alert, msgBox, exitHandler, button := false, false, Missing, Run;
    }

    // ----- after JavaScript -----

    method Afterwards(succeeded: bool) returns (outcome: Completion)
      modifies this
      ensures (View(), outcome) == L.Afterwards(old(View()), succeeded)
    {
      waiting, cached := false, true;
      if TimedOut in status { return TimedOut; }
      if Closing in status { return Closing; }
      if Stopped in status { return Stopped; }
      if ToChain in status { return ToChain; }
      if !succeeded {
        status := status + {HadError};
        return HadError;
      }
      cached := false;
      outcome := Done;
      var more := IsWaiting();
      if more {
        outcome := MoreToDo;
      }
    }

    // ----- the calls a script makes that concern this console alone -----

    method PrepForThrow()
      modifies this`runningMain
      ensures View() == L.PrepForThrow(old(View()))
    {
      runningMain := false;
    }

    method Register(e: Entry, ghost nextId: int) returns (threw: bool)
      requires e.id == nextId
      modifies this
      ensures var o := L.RegisterEntry(old(View()), e, nextId); View() == o.c && threw == o.threw
    {
      if InExit in status || e.kind in {ContextSubmenu, ConsoleReply} {
        PrepForThrow();
        return true;
      }
      threw := NewCallbackEntry(e, nextId);
      if !threw && !KeepsCache(e.kind) {
        cached := false;
      }
    }

    /** One item of a submenu; it stays registered even if it cannot be called. */
    method AddMenuItem(owner: int, persistent: bool, callable: bool, id: int) returns (threw: bool)
      modifies this
      ensures var r := L.NewCallbackEntry(old(View()), SubmenuEntry(id, owner, persistent, callable), id);
              if r.threw then threw && View() == r.c
              else
                var c := r.c.(callbacks := ListWithOwner(r.c.callbacks, owner, id));
                threw == !callable && View() == if callable then c else L.PrepForThrow(c)
    {
      threw := NewCallbackEntry(SubmenuEntry(id, owner, persistent, callable), id);
      if !threw {
        callbacks := ListWithOwner(callbacks, owner, id);
        if !callable {
          PrepForThrow();
          threw := true;
        }
      }
    }

    method AddMenuItems(owner: int, persistent: bool, items: seq<bool>, firstId: int) returns (threw: bool, nextId: int)
      modifies this
      ensures Outcome(View(), threw, nextId) == AddItems(old(View()), owner, persistent, items, firstId)
    {
      nextId, threw := firstId, false;
      var i := 0;
      ghost var target := AddItems(old(View()), owner, persistent, items, firstId);
      assert items[0..] == items;
      while i < |items|
        invariant 0 <= i <= |items|
        invariant AddItems(View(), owner, persistent, items[i..], nextId) == target
      {
        assert items[i..][0] == items[i] && items[i..][1..] == items[i + 1..];
        threw := AddMenuItem(owner, persistent, items[i], nextId);
        nextId := nextId + 1;
        if threw {
          return;
        }
        i := i + 1;
      }
      cached := false;
      threw := false;
    }

    method AddMenu(persistent: bool, items: seq<bool>, firstId: int) returns (threw: bool, nextId: int)
      modifies this
      ensures var o := L.RegisterMenu(old(View()), persistent, items, firstId);
              View() == o.c && threw == o.threw && nextId == o.nextId
    {
      if InExit in status {
        PrepForThrow();
        return true, firstId;
      }
      threw := NewCallbackEntry(MenuOwner(firstId, persistent), firstId);
      nextId := firstId + 1;
      if !threw {
        threw, nextId := AddMenuItems(firstId, persistent, items, nextId);
      }
    }

    method ReadDialogue(id: int) returns (threw: bool)
      modifies this
      ensures forall nextId :: var o := L.ReadBack(old(View()), id, nextId); View() == o.c && threw == o.threw
    {
      var found := GetCallbackEntry(id, false);
      if found.None? {
        ClearCallbacks();
        PrepForThrow();
        return true;
      }
      if !found.value.persistent {
        callbacks := callbacks + [found.value];
      }
      threw := false;
    }

    method StopScript() returns (threw: bool)
      modifies this
      ensures forall nextId :: var o := L.StopOwnScript(old(View()), nextId); View() == o.c && threw == o.threw
    {
      var inExit := InExit in status;
      status := status + {Stopped};
      if inExit {
        PrepForThrow();
      } else {
        ClearCallbacks();
      }
      threw := true;
    }

    /** Any one call of a script that concerns this console alone. */
    method Perform(a: Act, firstId: int) returns (threw: bool, nextId: int)
      requires IsLocal(a)
      modifies this
      ensures Outcome(View(), threw, nextId) == L.Perform(old(View()), a, firstId)
    {
      nextId, threw := firstId, false;
      match a
      case Register(kind, persistent, ident, mask) =>
        var registers := InExit !in status && kind !in {ContextSubmenu, ConsoleReply};
        threw := Register(Entry(firstId, kind, persistent, Callable, [], 0, ident, mask), firstId);
        if registers {
          nextId := firstId + 1;
        }
      case Menu(persistent, items) =>
        threw, nextId := AddMenu(persistent, items, firstId);
      case CancelByType(kind) =>
        if InExit in status && CancelRefusedInExit(kind) {
          PrepForThrow();
          threw := true;
        } else {
          CancelCallbacksByType(kind);
        }
      case CancelById(kind, id) =>
        if InExit in status && CancelRefusedInExit(kind) {
          PrepForThrow();
          threw := true;
        } else {
          CancelCallback(id);
        }
      case ReadDialogue(id) =>
        threw := ReadDialogue(id);
      case ShowAlert =>
        alert, cached, waiting := true, true, true;
      case CancelAlert =>
        ClearAlert();
      case MessageBox(answer) =>
        threw := MessageBox(answer);
      case StopScript =>
        threw := StopScript();
      case Chain(readable, hasBrief) =>
        if readable {
          brief := brief.(hasBrief := hasBrief);
          status := status + {ToChain};
        } else {
          PrepForThrow();
        }
        threw := true;
      case OnExit(handler) =>
        if InExit in status {
          PrepForThrow();
          threw := true;
        } else {
          exitHandler := handler;
        }
      case GetBrief =>
        if brief.hasBrief {
          brief := brief.(hasBrief := false);
        } else {
          PrepForThrow();
          threw := true;
        }
      case Fail(prepared) =>
        if prepared {
          PrepForThrow();
        }
        threw := true;
    }

    method MessageBox(answer: MessageAnswer) returns (threw: bool)
      modifies this
      ensures forall nextId :: var o := L.ShowMessageBox(old(View()), answer, nextId); View() == o.c && threw == o.threw
    {
      msgBox := true;
      match answer
      case Accepted =>
        msgBox := false;
        status := status - {TimedOut};
        threw := false;
      case Declined =>
        PrepForThrow();
        threw := true;
      case ClosedByOther =>
        status := status + {Closing};
        PrepForThrow();
        threw := true;
    }
  }
}
