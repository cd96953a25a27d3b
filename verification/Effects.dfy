/** What the calls a script makes leave behind, each in its own terms. */
module Effects {
  import opened Wrappers
  import opened Callbacks
  import opened Lifecycle
  import opened Protocol
  import opened Outcomes

  // ----- menus -----

  /** A submenu entry with so many items, as it is registered from this id on: the owner, which
      lists its items, and the items, which name their owner. */
  function MenuEntries(id: int, persistent: bool, count: nat): (reg: seq<Entry>)
    ensures |reg| == 1 + count
  {
    [Entry(id, ContextMenu, persistent, Missing, seq(count, i => id + 1 + i), 0, "", {})]
    + seq(count, i => Entry(id + 1 + i, ContextSubmenu, persistent, Callable, [], id, "", {}))
  }

  lemma OneMoreItem(front: seq<Entry>, id: int, persistent: bool, count: nat)
    requires forall e :: e in front ==> e.id < id
    ensures ListWithOwner(front + MenuEntries(id, persistent, count) + [SubmenuEntry(id + 1 + count, id, persistent, true)], id, id + 1 + count)
            == front + MenuEntries(id, persistent, count + 1)
  {
    var before := front + MenuEntries(id, persistent, count) + [SubmenuEntry(id + 1 + count, id, persistent, true)];
    var after := front + MenuEntries(id, persistent, count + 1);
    var listed := ListWithOwner(before, id, id + 1 + count);
    assert seq(count, i => id + 1 + i) + [id + 1 + count] == seq(count + 1, i => id + 1 + i);
    forall k | 0 <= k < |after| ensures listed[k] == after[k] {
      if k < |front| {
        assert before[k] == front[k] && front[k] in front;
      }
    }
  }

  lemma {:induction false} ItemsLeave(c: ConsoleState, front: seq<Entry>, id: int, persistent: bool, count: nat, items: seq<bool>)
    requires c.callbacks == front + MenuEntries(id, persistent, count) && forall e :: e in front ==> e.id < id
    requires |c.callbacks| + |items| <= 500 && forall i :: 0 <= i < |items| ==> items[i]
    ensures AddItems(c, id, persistent, items, id + 1 + count) ==
            Outcome(c.(callbacks := front + MenuEntries(id, persistent, count + |items|), cached := false), false, id + 1 + count + |items|)
    decreases |items|
  {
    if items != [] {
      var next := id + 1 + count;
      var r := NewCallbackEntry(c, SubmenuEntry(next, id, persistent, items[0]), next);
      var c1 := r.c.(callbacks := ListWithOwner(r.c.callbacks, id, next));
      OneMoreItem(front, id, persistent, count);
      assert c1 == c.(callbacks := front + MenuEntries(id, persistent, count + 1));
      ItemsLeave(c1, front, id, persistent, count + 1, items[1..]);
    }
  }

  /** A menu whose items can all be called. */
  lemma MenuLeaves(c: ConsoleState, persistent: bool, items: seq<bool>, next: int)
    requires InExit !in c.status && |c.callbacks| + 1 + |items| <= 500 && forall i :: 0 <= i < |items| ==> items[i]
    requires forall e :: e in c.callbacks ==> e.id < next
    ensures RegisterMenu(c, persistent, items, next) ==
            Outcome(c.(callbacks := c.callbacks + MenuEntries(next, persistent, |items|), cached := false), false, next + 1 + |items|)
  {
    var r := NewCallbackEntry(c, MenuOwner(next, persistent), next);
    assert MenuEntries(next, persistent, 0) == [MenuOwner(next, persistent)];
    ItemsLeave(r.c, c.callbacks, next, persistent, 0, items);
  }

  // ----- all calls -----

  /** What a call that raises no error does, s being where it leads. */
  ghost predicate Does(sys: System, n: string, a: Act, s: System)
    requires n in sys.cons && n in s.cons
  {
    var c, c', id := sys.cons[n], s.cons[n], sys.nextId;
    match a
    case Register(kind, persistent, ident, mask) =>
      && c' == c.(callbacks := c.callbacks + [Entry(id, kind, persistent, Callable, [], 0, ident, mask)],
                  cached := c.cached && (kind == Message || kind == MouseEvents))
      && s == With(sys, n, c').(nextId := id + 1, active := s.active)
      && s.active == sys.active + if kind in {AIS, ActiveLeg, MouseEvents} || (kind == N0183 && ident == "") then {kind} else {}
    case Menu(persistent, items) =>
      && c' == c.(callbacks := c.callbacks + MenuEntries(id, persistent, |items|), cached := false)
      && s == With(sys, n, c').(nextId := id + 1 + |items|)
    case CancelByType(kind) => s == With(sys, n, c.(callbacks := CancelType(c.callbacks, kind)))
    case CancelById(_, id) => s == With(sys, n, c.(callbacks := CancelId(c.callbacks, id)))
    case ReadDialogue(id) =>
      exists e :: e in c.callbacks && e.id == id &&
        s == With(sys, n, c.(callbacks := if e.persistent then c.callbacks else Keep(c.callbacks, {id}) + [e]))
    case ShowAlert => s == With(sys, n, c.(alert := true, cached := true, waiting := true))
    case CancelAlert => s == With(sys, n, c.(alert := false, cached := c.cached && !c.alert))
    case MessageBox(_) => s == With(sys, n, c.(msgBox := false, status := c.status - {TimedOut}))
    case OnExit(handler) => s == With(sys, n, c.(exitHandler := handler))
    case GetBrief => c.brief.hasBrief && s == With(sys, n, c.(brief := c.brief.(hasBrief := false)))
    case AwaitResult(target, callable, hasBrief) =>
      && c' == c.(callbacks := c.callbacks + [Entry(id, ConsoleReply, false, if callable then Callable else NotCallable, [], 0, "", {})],
                  cached := c.cached, waiting := c.waiting)
      && s.nextId == id + 1 && s.pending == sys.pending + [(target, Brief(id, n, hasBrief))]
    case RunConsole(target, hasBrief) =>
      && target in sys.cons && target != n && !sys.cons[target].ctx
      && var brief := sys.cons[target].brief.(hasBrief := hasBrief || sys.cons[target].brief.hasBrief);
         s == With(sys, target, sys.cons[target].(brief := brief)).(pending := sys.pending + [(target, brief)])
    case ConsoleBusy(target) =>
      target in sys.cons && target in s.cons && s == With(sys, target, sys.cons[target].(cached := s.cons[target].cached, waiting := s.cons[target].waiting))
    case _ => false
  }

  lemma RegisterDoes(sys: System, n: string, a: Act)
    requires n in sys.cons && a.Register? && !Throws(sys, n, a)
    ensures Does(sys, n, a, PerformIn(sys, n, a).0)
  {
  }

  lemma MenuDoes(sys: System, n: string, a: Act)
    requires n in sys.cons && a.Menu? && !Throws(sys, n, a) && forall e :: e in sys.cons[n].callbacks ==> e.id < sys.nextId
    ensures Does(sys, n, a, PerformIn(sys, n, a).0)
  {
    MenuLeaves(sys.cons[n], a.persistent, a.itemsCallable, sys.nextId);
    assert sys.active + {} == sys.active;
  }

  lemma ReadDoes(sys: System, n: string, a: Act)
    requires n in sys.cons && a.ReadDialogue? && !Throws(sys, n, a) && UniqueIds(sys.cons[n].callbacks)
    ensures Does(sys, n, a, PerformIn(sys, n, a).0)
  {
    var reg := sys.cons[n].callbacks;
    var i := IndexOf(reg, a.id);
    var e := reg[i];
    assert e in reg && e.id == a.id;
    RemoveAtKeeps(reg, i);
    assert sys.active + {} == sys.active;
  }

  lemma SimpleDoes(sys: System, n: string, a: Act)
    requires n in sys.cons && IsLocal(a) && !a.Register? && !a.Menu? && !a.ReadDialogue? && !Throws(sys, n, a)
    ensures Does(sys, n, a, PerformIn(sys, n, a).0)
  {
    assert sys.active + {} == sys.active;
  }

  lemma AwaitDoes(sys: System, n: string, a: Act)
    requires n in sys.cons && a.AwaitResult? && !Throws(sys, n, a)
    ensures Does(sys, n, a, PerformIn(sys, n, a).0)
  {
    var o := NewCallbackEntry(sys.cons[n], AwaitEntry(sys.nextId, a.callable), sys.nextId);
    var t := With(sys, n, o.c).(nextId := o.nextId);
    AskThrows(t, n, a.target, Brief(sys.nextId, n, a.hasBrief));
  }

  lemma OtherDoes(sys: System, n: string, a: Act)
    requires n in sys.cons && (a.RunConsole? || a.ConsoleBusy?) && !Throws(sys, n, a)
    ensures Does(sys, n, a, PerformIn(sys, n, a).0)
  {
  }

  /** Every call that raises no error does just what it is for. */
  lemma CallDoes(sys: System, n: string, a: Act)
    requires n in sys.cons && !Throws(sys, n, a) && UniqueIds(sys.cons[n].callbacks)
    requires forall e :: e in sys.cons[n].callbacks ==> e.id < sys.nextId
    ensures Does(sys, n, a, PerformIn(sys, n, a).0)
  {
    if a.Register? {
      RegisterDoes(sys, n, a);
    } else if a.Menu? {
      MenuDoes(sys, n, a);
    } else if a.ReadDialogue? {
      ReadDoes(sys, n, a);
    } else if a.AwaitResult? {
      AwaitDoes(sys, n, a);
    } else if IsLocal(a) {
      SimpleDoes(sys, n, a);
    } else {
      OtherDoes(sys, n, a);
    }
  }

  /** The console with nothing more to wait for, and the button saying so. */
  function Emptied(c: ConsoleState): ConsoleState {
    c.(callbacks := [], alert := false, msgBox := false, cached := false, runningMain := false, button := Run)
  }

  /** What a call does that raises an error on purpose, or because there is no room or no such
      dialogue. */
  lemma ThrowDoes(sys: System, n: string, a: Act)
    requires n in sys.cons && IsLocal(a)
    ensures var c, c' := sys.cons[n], PerformIn(sys, n, a).0.cons[n];
            match a
            case StopScript =>
              var c1 := c.(status := c.status + {Stopped});
              c' == if InExit in c.status then c1.(runningMain := false) else Emptied(c1)
            case Chain(readable, hasBrief) =>
              c' == if readable then c.(brief := c.brief.(hasBrief := hasBrief), status := c.status + {ToChain}) else c.(runningMain := false)
            case MessageBox(answer) =>
              answer != Accepted ==>
                c' == c.(msgBox := true, runningMain := false, status := if answer == Declined then c.status else c.status + {Closing})
            case ReadDialogue(id) => Throws(sys, n, a) ==> c' == Emptied(c)
            case Register(kind, _, _, _) =>
              InExit !in c.status && kind != ContextSubmenu && kind != ConsoleReply && |c.callbacks| >= 500 ==> c' == Emptied(c)
            case _ => true
  {
    match a
    case ReadDialogue(id) =>
      assert IndexOf(sys.cons[n].callbacks, id) < |sys.cons[n].callbacks| ==> !Throws(sys, n, a);
    case MessageBox(answer) =>
    case Register(_, _, _, _) =>
    case StopScript =>
    case _ =>
  }
}
