/** Between events every console is either idle, with the button saying Run, or waiting for
    something, with the button saying Stop - and exactly when a script can break this. */
module Quiescence {
  import opened Wrappers
  import opened Callbacks
  import opened Lifecycle
  import opened Protocol
  import opened Events
  import opened Uniform
  import opened Registrations
  import opened OneShot
  import opened Runs

  // ----- the calls that clear a console under a running script -----

  /** How many entries registering these submenu items adds before it stops. */
  function MenuNeeds(items: seq<bool>): nat {
    if items == [] then 0 else if !items[0] then 1 else 1 + MenuNeeds(items[1..])
  }

  predicate Overflows(c: ConsoleState, a: Act) {
    InExit !in c.status &&
    match a
    case Register(kind, _, _, _) => kind !in {ContextSubmenu, ConsoleReply} && |c.callbacks| >= MAX_CALLBACKS
    case Menu(_, items) => |c.callbacks| + 1 + MenuNeeds(items) > MAX_CALLBACKS
    case AwaitResult(_, _, _) => |c.callbacks| >= MAX_CALLBACKS
    case _ => false
  }

  predicate ReadsUnknown(c: ConsoleState, a: Act) {
    a.ReadDialogue? && IndexOf(c.callbacks, a.id) == |c.callbacks|
  }

  predicate Clears(c: ConsoleState, a: Act) {
    Overflows(c, a) || ReadsUnknown(c, a)
  }

  /** Some call in this execution goes over the limit or reads an unknown dialogue. */
  predicate ClearsWithin(sys: System, n: string, attempts: seq<Attempt>)
    requires n in sys.cons
    decreases |attempts|
  {
    attempts != [] &&
    (Clears(sys.cons[n], attempts[0].act) ||
     var (s, threw) := PerformIn(sys, n, attempts[0].act);
     (!threw || attempts[0].caught) && ClearsWithin(s, n, attempts[1..]))
  }

  /** What a call does to the button and the status. */
  ghost predicate ButtonStep(c: ConsoleState, a: Act, c': ConsoleState, threw: bool) {
    && (c.button == Run ==> c'.button == Run)
    && c.status - {TimedOut} <= c'.status
    && (forall r :: r in {HadError, InExit} ==> (r in c.status <==> r in c'.status))
    && (Clears(c, a) ==> threw && c'.button == Run)
    && (c.button == Stop && !Clears(c, a) && Stopped !in c'.status ==> c'.button == Stop)
  }

  /** One submenu entry more, and no limit exceeded. */
  function OneItem(c: ConsoleState, owner: int, persistent: bool, next: int): (c': ConsoleState)
    ensures c'.status == c.status && c'.button == c.button && |c'.callbacks| == |c.callbacks| + 1
  {
    c.(callbacks := ListWithOwner(c.callbacks + [SubmenuEntry(next, owner, persistent, true)], owner, next))
  }

  ghost predicate ItemsButton(c: ConsoleState, items: seq<bool>, o: Outcome) {
    && o.c.status == c.status
    && (if |c.callbacks| + MenuNeeds(items) > MAX_CALLBACKS then o.threw && o.c.button == Run else o.c.button == c.button)
  }

  lemma NoItemButton(c: ConsoleState, owner: int, persistent: bool, items: seq<bool>, next: int)
    requires |c.callbacks| <= MAX_CALLBACKS && (items == [] || |c.callbacks| == MAX_CALLBACKS || !items[0])
    ensures ItemsButton(c, items, AddItems(c, owner, persistent, items, next))
  {
    if items != [] {
      if |c.callbacks| == MAX_CALLBACKS {
        assert AddItems(c, owner, persistent, items, next) == Outcome(PrepForThrow(ClearCallbacks(c)), true, next + 1);
      } else {
        BadItemButton(c, owner, persistent, items, next);
      }
    }
  }

  lemma BadItemButton(c: ConsoleState, owner: int, persistent: bool, items: seq<bool>, next: int)
    requires |c.callbacks| < MAX_CALLBACKS && items != [] && !items[0]
    ensures ItemsButton(c, items, AddItems(c, owner, persistent, items, next))
  {
  }

  lemma {:induction false} AddItemsButton(c: ConsoleState, owner: int, persistent: bool, items: seq<bool>, next: int)
    requires |c.callbacks| <= MAX_CALLBACKS
    ensures ItemsButton(c, items, AddItems(c, owner, persistent, items, next))
    decreases |items|
  {
    if items != [] && |c.callbacks| < MAX_CALLBACKS && items[0] {
      var c1 := OneItem(c, owner, persistent, next);
      AddItemsButton(c1, owner, persistent, items[1..], next + 1);
      assert AddItems(c, owner, persistent, items, next) == AddItems(c1, owner, persistent, items[1..], next + 1);
    } else {
      NoItemButton(c, owner, persistent, items, next);
    }
  }

  lemma MenuButton(c: ConsoleState, persistent: bool, items: seq<bool>, next: int)
    requires |c.callbacks| <= MAX_CALLBACKS
    ensures var o := RegisterMenu(c, persistent, items, next);
            ButtonStep(c, Menu(persistent, items), o.c, o.threw)
  {
    var r := NewCallbackEntry(c, MenuOwner(next, persistent), next);
    if InExit !in c.status && !r.threw {
      AddItemsButton(r.c, next, persistent, items, r.nextId);
    }
  }

  lemma RegisterButton(c: ConsoleState, e: Entry, next: int, a: Act)
    requires e.id == next && a.Register? && a.kind == e.kind
    ensures var o := RegisterEntry(c, e, next); ButtonStep(c, a, o.c, o.threw)
  {
    if InExit !in c.status && e.kind !in {ContextSubmenu, ConsoleReply} {
      EntryButton(c, e, next, a);
    }
  }

  lemma EntryButton(c: ConsoleState, e: Entry, next: int, a: Act)
    requires InExit !in c.status && e.id == next && a.Register? && a.kind == e.kind && e.kind !in {ContextSubmenu, ConsoleReply}
    ensures var o := AddEntry(c, e, next); ButtonStep(c, a, o.c, o.threw)
  {
  }

  lemma CancelButton(c: ConsoleState, kind: CallbackType, rest: seq<Entry>, next: int, a: Act)
    requires a.CancelByType? || a.CancelById?
    ensures var o := Cancel(c, kind, rest, next); ButtonStep(c, a, o.c, o.threw)
  {
  }

  lemma ReadButton(c: ConsoleState, id: int, next: int)
    ensures var o := ReadBack(c, id, next); ButtonStep(c, ReadDialogue(id), o.c, o.threw)
  {
  }

  lemma MessageButton(c: ConsoleState, answer: MessageAnswer, next: int)
    ensures var o := ShowMessageBox(c, answer, next); ButtonStep(c, MessageBox(answer), o.c, o.threw)
  {
    match answer { case Accepted => case Declined => case ClosedByOther => }
  }

  lemma StopButton(c: ConsoleState, next: int)
    ensures var o := StopOwnScript(c, next); ButtonStep(c, StopScript, o.c, o.threw)
  {
  }

  lemma ChainButton(c: ConsoleState, readable: bool, hasBrief: bool, next: int)
    ensures var o := ChainScript(c, readable, hasBrief, next); ButtonStep(c, Chain(readable, hasBrief), o.c, o.threw)
  {
  }

  lemma PerformButton(c: ConsoleState, a: Act, next: int)
    requires IsLocal(a) && |c.callbacks| <= MAX_CALLBACKS
    ensures var o := Perform(c, a, next); ButtonStep(c, a, o.c, o.threw)
  {
    if a.Register? {
      RegisterButton(c, Entry(next, a.kind, a.persistent, Callable, [], 0, a.ident, a.mouseMask), next, a);
    } else if a.Menu? {
      MenuButton(c, a.persistent, a.itemsCallable, next);
    } else if a.CancelByType? {
      CancelButton(c, a.kind, CancelType(c.callbacks, a.kind), next, a);
    } else if a.CancelById? {
      CancelButton(c, a.kind, CancelId(c.callbacks, a.id), next, a);
    } else if a.ReadDialogue? {
      ReadButton(c, a.id, next);
    } else if a.MessageBox? {
      MessageButton(c, a.answer, next);
    } else if a.StopScript? {
      StopButton(c, next);
    } else if a.Chain? {
      ChainButton(c, a.readable, a.hasBrief, next);
    }
  }

  lemma AwaitButton(sys: System, n: string, target: string, callable: bool, hasBrief: bool)
    requires n in sys.cons
    ensures var (s, threw) := AwaitIn(sys, n, target, callable, hasBrief);
            ButtonStep(sys.cons[n], AwaitResult(target, callable, hasBrief), s.cons[n], threw)
  {
    var c := sys.cons[n];
    if InExit !in c.status && |c.callbacks| < MAX_CALLBACKS {
      var o := NewCallbackEntry(c, AwaitEntry(sys.nextId, callable), sys.nextId);
      var (s, threw) := AskToRun(With(sys, n, o.c).(nextId := o.nextId), n, target, Brief(sys.nextId, n, hasBrief));
      assert s.cons[n].button == c.button && s.cons[n].status == c.status;
    }
  }

  lemma OtherButton(sys: System, n: string, a: Act)
    requires n in sys.cons && (a.RunConsole? || a.ConsoleBusy?)
    ensures var (s, threw) := if a.RunConsole? then RunConsoleIn(sys, n, a.target, a.hasBrief) else ConsoleBusyIn(sys, n, a.target);
            ButtonStep(sys.cons[n], a, s.cons[n], threw)
  {
  }

  lemma InstallButton(sys: System, n: string, a: Act, o: Outcome)
    requires n in sys.cons && KeepsIdentity(sys.cons[n], sys.nextId, o) && ButtonStep(sys.cons[n], a, o.c, o.threw)
    ensures var (s, threw) := Install(sys, n, o, BitsSet(a, o)); ButtonStep(sys.cons[n], a, s.cons[n], threw)
  {
  }

  lemma PerformInButton(sys: System, n: string, a: Act)
    requires n in sys.cons && |sys.cons[n].callbacks| <= MAX_CALLBACKS
    ensures var (s, threw) := PerformIn(sys, n, a); ButtonStep(sys.cons[n], a, s.cons[n], threw)
  {
    if a.AwaitResult? {
      AwaitButton(sys, n, a.target, a.callable, a.hasBrief);
    } else if a.RunConsole? || a.ConsoleBusy? {
      OtherButton(sys, n, a);
    } else {
      PerformButton(sys.cons[n], a, sys.nextId);
      InstallButton(sys, n, a, Perform(sys.cons[n], a, sys.nextId));
    }
  }

  lemma {:induction false} AttemptsButton(sys: System, n: string, attempts: seq<Attempt>)
    requires Inv(sys) && n in sys.cons
    ensures var (s, ok) := RunAttempts(sys, n, attempts);
            var c, c' := sys.cons[n], s.cons[n];
            && (c.button == Run ==> c'.button == Run)
            && c.status - {TimedOut} <= c'.status
            && (forall r :: r in {HadError, InExit} ==> (r in c.status <==> r in c'.status))
            && (c.button == Stop && Stopped !in c'.status ==> (c'.button == Stop <==> !ClearsWithin(sys, n, attempts)))
    decreases |attempts|
  {
    if attempts != [] {
      assert RegistryOk(sys.cons[n].callbacks, sys.nextId);
      PerformInButton(sys, n, attempts[0].act);
      PerformInv(sys, n, attempts[0].act);
      var (s, threw) := PerformIn(sys, n, attempts[0].act);
      if !threw || attempts[0].caught {
        AttemptsButton(s, n, attempts[1..]);
      }
    }
  }

  // ----- the exact condition for one call of JavaScript -----

  /** A console in which a handler may run as it should. */
  predicate Ready(c: ConsoleState) {
    c.ctx && !c.runningMain && c.button == Stop && Unspoiled(c)
  }

  /** The system as a handler of console n is entered. */
  function Entered(sys: System, n: string): System
    requires n in sys.cons
  {
    With(sys, n, sys.cons[n].(cached := false, status := sys.cons[n].status - {TimedOut}))
  }

  lemma EnteredInv(sys: System, n: string, s0: System)
    requires Inv(sys) && n in sys.cons && s0 == Entered(sys, n)
    ensures Inv(s0.(clock := s0.clock + 1))
  {
    var c := sys.cons[n].(cached := false, status := sys.cons[n].status - {TimedOut});
    Elsewhere(sys, n, c);
    Fields(With(sys, n, c), sys.active, sys.clock + 1);
  }

  /** If JavaScript called in n from sys leaves n as c with more to do, then c is properly
      waiting if and only if no call made by that JavaScript cleared the console. */
  ghost predicate ExactlyWaiting(sys: System, n: string, js: Scripts, c: ConsoleState, outcome: Completion)
    requires n in sys.cons
  {
    outcome == MoreToDo ==>
      (Waiting(c) <==> !ClearsWithin(sys.(clock := sys.clock + 1), n, js(sys.clock).attempts))
  }

  /** A call in which JavaScript ends without error and leaves something to wait for. */
  lemma RunJsExact(sys: System, n: string, js: Scripts)
    requires n in sys.cons && Inv(sys.(clock := sys.clock + 1)) && sys.cons[n].button == Stop
    requires sys.cons[n].ctx && sys.cons[n].status * {HadError, InExit} == {}
    ensures var (s, ok) := RunJs(sys, n, js);
            var (c, outcome) := Afterwards(s.cons[n].(runningMain := false), ok);
            ExactlyWaiting(sys, n, js, c, outcome)
  {
    var b, s0 := js(sys.clock), sys.(clock := sys.clock + 1);
    AttemptsButton(s0, n, b.attempts);
    var s1 := RunAttempts(s0, n, b.attempts).0;
    RunJsResult(sys, n, js, b, s1);
    var (s, ok) := RunJs(sys, n, js);
    if b.overruns {
      OverrunNeverWaits(s1, n, ok);
    } else {
      MoreToDoWaits(s.cons[n].(runningMain := false), ok);
    }
  }

  lemma OverrunNeverWaits(sys: System, n: string, ok: bool)
    requires n in sys.cons
    ensures Afterwards(Overrun(sys, n).cons[n].(runningMain := false), ok).1 != MoreToDo
  {
  }

  /** Afterwards finds more to do only when no script was stopped; the console is then
      properly waiting if its button still says Stop. */
  lemma MoreToDoWaits(c: ConsoleState, ok: bool)
    requires c.ctx && !c.runningMain && c.status * {HadError, InExit} == {}
    ensures var (c', outcome) := Afterwards(c, ok);
            outcome == MoreToDo ==> Stopped !in c.status && (Waiting(c') <==> c.button == Stop)
  {
  }

  /** A handler that leaves its console with more to do leaves it properly waiting if and
      only if no call in it went over the limit or read an unknown dialogue.  (Such a call
      throws after clearing the console; the script must have caught that.) */
  lemma HandlerExact(sys: System, n: string, js: Scripts)
    requires Inv(sys) && n in sys.cons && Ready(sys.cons[n])
    ensures var (s, outcome) := Execute(sys, n, Callable, js);
            ExactlyWaiting(Entered(sys, n), n, js, s.cons[n], outcome)
  {
    var s0 := Entered(sys, n);
    EnteredInv(sys, n, s0);
    RunJsExact(s0, n, js);
    var (s1, ok) := RunJs(s0, n, js);
    assert s1.cons[n].(runningMain := false) == s1.cons[n];
  }

  /** The same for the main script. */
  lemma MainExact(sys: System, n: string, brief: Brief, js: Scripts)
    requires n in sys.cons && Inv(With(sys, n, sys.cons[n].(brief := brief)))
    ensures var (s, outcome) := RunMain(With(sys, n, sys.cons[n].(brief := brief)), n, js);
            ExactlyWaiting(Started(sys, n, brief), n, js, s.cons[n], outcome)
  {
    StartedInv(sys, n, brief);
    var s0 := Started(sys, n, brief);
    RunJsExact(s0, n, js);
    var (s1, ok) := RunJs(s0, n, js);
    MainUnfolds(sys, n, brief, js, s1, ok);
  }

  lemma MainUnfolds(sys: System, n: string, brief: Brief, js: Scripts, s: System, ok: bool)
    requires n in sys.cons && (s, ok) == RunJs(Started(sys, n, brief), n, js)
    ensures var (c, outcome) := Afterwards(s.cons[n].(runningMain := false), ok);
            var r := RunMain(With(sys, n, sys.cons[n].(brief := brief)), n, js);
            r.0.cons[n] == c && r.1 == outcome
  {
    StartedSame(sys, n, brief);
  }

  lemma StartedInv(sys: System, n: string, brief: Brief)
    requires n in sys.cons && Inv(With(sys, n, sys.cons[n].(brief := brief)))
    ensures Inv(Started(sys, n, brief).(clock := sys.clock + 1))
  {
    var s0 := With(sys, n, sys.cons[n].(brief := brief));
    assert s0.cons[n].brief.callbackId in BriefIds(s0);
    Elsewhere(s0, n, ConsoleReset(s0.cons[n]).(ctx := true, runningMain := true, button := Stop));
    StartedSame(sys, n, brief);
    Fields(Started(sys, n, brief), sys.active, sys.clock + 1);
  }

  // ----- the pointer to a message box -----

  predicate Refuses(a: Act) {
    a.MessageBox? && a.answer != Accepted
  }

  /** Message boxes were shown and the last one was refused. */
  ghost predicate RefusedLast(attempts: seq<Attempt>) {
    exists i :: 0 <= i < |attempts| && Refuses(attempts[i].act) &&
      forall j :: i < j < |attempts| ==> !attempts[j].act.MessageBox?
  }

  ghost predicate NoBox(attempts: seq<Attempt>) {
    forall i :: 0 <= i < |attempts| ==> !attempts[i].act.MessageBox?
  }

  lemma BoxLater(a: Attempt, rest: seq<Attempt>)
    ensures RefusedLast([a] + rest) <==> RefusedLast(rest) || (Refuses(a.act) && NoBox(rest))
    ensures NoBox([a] + rest) <==> NoBox(rest) && !a.act.MessageBox?
  {
    var all := [a] + rest;
    if RefusedLast(rest) {
      var i :| 0 <= i < |rest| && Refuses(rest[i].act) && forall j :: i < j < |rest| ==> !rest[j].act.MessageBox?;
      assert Refuses(all[i + 1].act) && forall j :: i + 1 < j < |all| ==> !all[j].act.MessageBox?;
    }
    if Refuses(a.act) && NoBox(rest) {
      assert Refuses(all[0].act) && forall j :: 0 < j < |all| ==> !all[j].act.MessageBox?;
    }
    if RefusedLast(all) {
      var i :| 0 <= i < |all| && Refuses(all[i].act) && forall j :: i < j < |all| ==> !all[j].act.MessageBox?;
      if i > 0 {
        assert Refuses(rest[i - 1].act);
        forall j | i - 1 < j < |rest| ensures !rest[j].act.MessageBox? {
          assert rest[j] == all[j + 1];
        }
      } else {
        forall j | 0 <= j < |rest| ensures !rest[j].act.MessageBox? {
          assert rest[j] == all[j + 1];
        }
      }
    }
    if NoBox(all) {
      forall j | 0 <= j < |rest| ensures !rest[j].act.MessageBox? {
        assert rest[j] == all[j + 1];
      }
      assert !all[0].act.MessageBox?;
    }
  }

  /** What a call does to the pointer: only a message box that is refused sets it, and nothing
      else touches it, unless the console is cleared or its script stopped. */
  ghost predicate BoxStep(c: ConsoleState, a: Act, c': ConsoleState, threw: bool) {
    && (c'.msgBox ==> c.msgBox || (a.MessageBox? && threw))
    && (!Clears(c, a) && Stopped !in c'.status ==>
         if a.MessageBox? then (c'.msgBox <==> Refuses(a)) && (threw <==> Refuses(a)) else c'.msgBox == c.msgBox)
  }

  lemma {:induction false} ItemsBox(c: ConsoleState, owner: int, persistent: bool, items: seq<bool>, next: int)
    ensures var c' := AddItems(c, owner, persistent, items, next).c;
            (c'.msgBox ==> c.msgBox) && (|c.callbacks| + MenuNeeds(items) <= MAX_CALLBACKS ==> c'.msgBox == c.msgBox)
    decreases |items|
  {
    if items != [] && items[0] {
      var r := NewCallbackEntry(c, SubmenuEntry(next, owner, persistent, items[0]), next);
      ItemsBox(r.c.(callbacks := ListWithOwner(r.c.callbacks, owner, next)), owner, persistent, items[1..], r.nextId);
    }
  }

  lemma MenuBox(c: ConsoleState, persistent: bool, items: seq<bool>, next: int)
    ensures var o := RegisterMenu(c, persistent, items, next); BoxStep(c, Menu(persistent, items), o.c, o.threw)
  {
    if InExit !in c.status {
      var r := NewCallbackEntry(c, MenuOwner(next, persistent), next);
      ItemsBox(r.c, next, persistent, items, r.nextId);
    }
  }

  lemma LocalBox(c: ConsoleState, a: Act, next: int)
    requires IsLocal(a)
    ensures var o := Perform(c, a, next); BoxStep(c, a, o.c, o.threw)
  {
    if a.Register? {
      RegisterBox(c, Entry(next, a.kind, a.persistent, Callable, [], 0, a.ident, a.mouseMask), next, a);
    } else if a.Menu? {
      MenuBox(c, a.persistent, a.itemsCallable, next);
    } else if a.ReadDialogue? {
      ReadBox(c, a.id, next);
    }
  }

  lemma RegisterBox(c: ConsoleState, e: Entry, next: int, a: Act)
    requires e.id == next && a.Register? && a.kind == e.kind
    ensures var o := RegisterEntry(c, e, next); BoxStep(c, a, o.c, o.threw)
  {
  }

  lemma ReadBox(c: ConsoleState, id: int, next: int)
    ensures var o := ReadBack(c, id, next); BoxStep(c, ReadDialogue(id), o.c, o.threw)
  {
  }

  lemma AskToRunBox(sys: System, n: string, target: string, brief: Brief)
    requires n in sys.cons
    ensures AskToRun(sys, n, target, brief).0.cons[n].msgBox == sys.cons[n].msgBox
  {
  }

  lemma AwaitBox(sys: System, n: string, target: string, callable: bool, hasBrief: bool)
    requires n in sys.cons
    ensures var (s, threw) := AwaitIn(sys, n, target, callable, hasBrief);
            BoxStep(sys.cons[n], AwaitResult(target, callable, hasBrief), s.cons[n], threw)
  {
    var c := sys.cons[n];
    if InExit !in c.status && |c.callbacks| < MAX_CALLBACKS {
      var o := NewCallbackEntry(c, AwaitEntry(sys.nextId, callable), sys.nextId);
      AskToRunBox(With(sys, n, o.c).(nextId := o.nextId), n, target, Brief(sys.nextId, n, hasBrief));
    }
  }

  lemma PerformBox(sys: System, n: string, a: Act)
    requires n in sys.cons
    ensures var (s, threw) := PerformIn(sys, n, a); BoxStep(sys.cons[n], a, s.cons[n], threw)
  {
    if a.AwaitResult? {
      AwaitBox(sys, n, a.target, a.callable, a.hasBrief);
    } else if IsLocal(a) {
      LocalBox(sys.cons[n], a, sys.nextId);
    }
  }

  /** After a script that ran to its end without having been stopped, and without having had
      its console cleared, the pointer to a message box is set exactly if the last box it
      showed was refused, or it showed none and the pointer was set before. */
  lemma {:induction false} PointerExactly(sys: System, n: string, attempts: seq<Attempt>)
    requires Inv(sys) && n in sys.cons && RunAttempts(sys, n, attempts).1 && !ClearsWithin(sys, n, attempts)
    requires Stopped !in RunAttempts(sys, n, attempts).0.cons[n].status
    ensures RunAttempts(sys, n, attempts).0.cons[n].msgBox <==> RefusedLast(attempts) || (NoBox(attempts) && sys.cons[n].msgBox)
    decreases |attempts|
  {
    if attempts != [] {
      assert RegistryOk(sys.cons[n].callbacks, sys.nextId);
      var s := PerformIn(sys, n, attempts[0].act).0;
      PerformInv(sys, n, attempts[0].act);
      AttemptsButton(s, n, attempts[1..]);
      PerformBox(sys, n, attempts[0].act);
      PointerExactly(s, n, attempts[1..]);
      PointerOn(attempts, sys.cons[n].msgBox, s.cons[n].msgBox, RunAttempts(s, n, attempts[1..]).0.cons[n].msgBox);
    }
  }

  lemma PointerOn(attempts: seq<Attempt>, before: bool, then_: bool, after: bool)
    requires attempts != [] && (after <==> RefusedLast(attempts[1..]) || (NoBox(attempts[1..]) && then_))
    requires then_ == if attempts[0].act.MessageBox? then Refuses(attempts[0].act) else before
    ensures after <==> RefusedLast(attempts) || (NoBox(attempts) && before)
  {
    assert attempts == [attempts[0]] + attempts[1..];
    BoxLater(attempts[0], attempts[1..]);
  }

  // ----- scripts that do not catch those errors -----

  /** Whether the errors of registering and of reading a dialogue are let through, and
      whether the error of a message box that is refused is. */
  datatype Manners = Manners(tame: bool, polite: bool)

  /** Such a console between events. */
  predicate Rests(c: ConsoleState, m: Manners) {
    Idle(c) || (Lingering(c) && (m.tame ==> c.button == Stop) && (m.polite ==> !c.msgBox))
  }

  /** Such a console as a handler is about to be called in it. */
  predicate Prepared(c: ConsoleState, m: Manners) {
    c.ctx && !c.runningMain && Unspoiled(c) && (m.tame ==> c.button == Stop) && (m.polite ==> !c.msgBox)
  }

  /** A function is passed where a result is to be reported to, and errors are let through as
      these manners ask. */
  predicate Mannered(t: Attempt, m: Manners) {
    && (t.act.AwaitResult? ==> t.act.callable)
    && (m.tame && (t.act.Register? || t.act.Menu? || t.act.AwaitResult? || t.act.ReadDialogue?) ==> !t.caught)
    && (m.polite && t.act.MessageBox? ==> !t.caught)
  }

  ghost function WithManners(m: Manners): Attempt -> bool {
    (t: Attempt) => Mannered(t, m)
  }

  lemma {:induction false} TameClearsNothing(sys: System, n: string, attempts: seq<Attempt>, m: Manners)
    requires Inv(sys) && n in sys.cons && m.tame
    requires forall i :: 0 <= i < |attempts| ==> Mannered(attempts[i], m)
    ensures RunAttempts(sys, n, attempts).1 ==> !ClearsWithin(sys, n, attempts)
    decreases |attempts|
  {
    if attempts != [] {
      assert RegistryOk(sys.cons[n].callbacks, sys.nextId);
      assert Mannered(attempts[0], m);
      PerformInButton(sys, n, attempts[0].act);
      PerformInv(sys, n, attempts[0].act);
      var (s, threw) := PerformIn(sys, n, attempts[0].act);
      if !threw || attempts[0].caught {
        TameClearsNothing(s, n, attempts[1..], m);
      }
    }
  }

  lemma {:induction false} PoliteAttempts(sys: System, n: string, attempts: seq<Attempt>, m: Manners)
    requires n in sys.cons && m.polite && forall i :: 0 <= i < |attempts| ==> Mannered(attempts[i], m)
    ensures var (s, ok) := RunAttempts(sys, n, attempts); ok && s.cons[n].msgBox ==> sys.cons[n].msgBox
    decreases |attempts|
  {
    if attempts != [] {
      assert Mannered(attempts[0], m);
      PerformBox(sys, n, attempts[0].act);
      PoliteAttempts(PerformIn(sys, n, attempts[0].act).0, n, attempts[1..], m);
    }
  }

  /** Afterwards finds more to do only when the script was not spoiled; the console then
      lingers. */
  lemma MoreToDoLingers(c: ConsoleState, ok: bool)
    requires c.ctx && !c.runningMain && c.status * {HadError, InExit} == {}
    ensures var (c', outcome) := Afterwards(c, ok);
            outcome == MoreToDo ==> ok && Stopped !in c.status && Lingering(c') && c'.button == c.button && c'.msgBox == c.msgBox
  {
  }

  /** A script with these manners that runs to its end without having been stopped. */
  lemma AttemptsRest(sys: System, n: string, attempts: seq<Attempt>, m: Manners)
    requires n in sys.cons && Inv(sys) && forall i :: 0 <= i < |attempts| ==> Mannered(attempts[i], m)
    requires (m.tame ==> sys.cons[n].button == Stop) && (m.polite ==> !sys.cons[n].msgBox)
    requires sys.cons[n].status * {HadError, InExit} == {}
    ensures var (s, ok) := RunAttempts(sys, n, attempts);
            var c := s.cons[n];
            && c.status * {HadError, InExit} == {}
            && (ok && Stopped !in c.status ==> (m.tame ==> c.button == Stop) && (m.polite ==> !c.msgBox))
  {
    AttemptsButton(sys, n, attempts);
    if m.tame {
      TameClearsNothing(sys, n, attempts, m);
    }
    if m.polite {
      PoliteAttempts(sys, n, attempts, m);
    }
  }

  /** A console as JavaScript that behaves so leaves it, c being what its calls led to. */
  function CutOffConsole(c: ConsoleState, b: Behaviour): ConsoleState {
    if b.overruns then c.(status := c.status + {TimedOut}) else c
  }

  lemma RunJsEnd(sys: System, n: string, js: Scripts, b: Behaviour, r: (System, bool))
    requires n in sys.cons && b == js(sys.clock) && r == RunAttempts(sys.(clock := sys.clock + 1), n, b.attempts)
    ensures var (s, ok) := RunJs(sys, n, js);
            s.cons[n] == CutOffConsole(r.0.cons[n], b) && ok == (!b.overruns && r.1 && b.completes)
  {
  }

  lemma EndLingers(c: ConsoleState, b: Behaviour, done: bool)
    requires c.ctx && c.status * {HadError, InExit} == {}
    ensures var (c', outcome) := Afterwards(CutOffConsole(c, b).(runningMain := false), !b.overruns && done && b.completes);
            outcome == MoreToDo ==> done && Stopped !in c.status && Lingering(c') && c'.button == c.button && c'.msgBox == c.msgBox
  {
    if !b.overruns {
      MoreToDoLingers(c.(runningMain := false), done && b.completes);
    }
  }

  /** A call of JavaScript with these manners that leaves more to do. */
  lemma RunJsRests(sys: System, n: string, js: Scripts, m: Manners)
    requires n in sys.cons && Inv(sys.(clock := sys.clock + 1)) && Makes(js, WithManners(m)) && sys.cons[n].ctx
    requires (m.tame ==> sys.cons[n].button == Stop) && (m.polite ==> !sys.cons[n].msgBox)
    requires sys.cons[n].status * {HadError, InExit} == {}
    ensures var (s, ok) := RunJs(sys, n, js);
            var (c, outcome) := Afterwards(s.cons[n].(runningMain := false), ok);
            outcome == MoreToDo ==> Lingering(c) && Rests(c, m)
  {
    var b, s0 := js(sys.clock), sys.(clock := sys.clock + 1);
    var may := WithManners(m);
    forall i | 0 <= i < |b.attempts| ensures Mannered(b.attempts[i], m) {
      assert may(b.attempts[i]);
    }
    AttemptsRest(s0, n, b.attempts, m);
    var r := RunAttempts(s0, n, b.attempts);
    RunJsEnd(sys, n, js, b, r);
    EndLingers(r.0.cons[n], b, r.1);
  }

  lemma HandlerRests(sys: System, n: string, js: Scripts, m: Manners)
    requires Inv(sys) && n in sys.cons && Prepared(sys.cons[n], m) && Makes(js, WithManners(m))
    ensures var (s, outcome) := Execute(sys, n, Callable, js); outcome == MoreToDo ==> Lingering(s.cons[n]) && Rests(s.cons[n], m)
  {
    var s0 := Entered(sys, n);
    EnteredInv(sys, n, s0);
    RunJsRests(s0, n, js, m);
    var (s1, ok) := RunJs(s0, n, js);
    assert s1.cons[n].(runningMain := false) == s1.cons[n];
  }

  lemma MainRests(sys: System, n: string, js: Scripts, m: Manners)
    requires n in sys.cons && Inv(sys) && Makes(js, WithManners(m))
    ensures var (s, outcome) := RunMain(sys, n, js); outcome == MoreToDo ==> Lingering(s.cons[n]) && Rests(s.cons[n], m)
  {
    var brief := sys.cons[n].brief;
    assert With(sys, n, sys.cons[n].(brief := brief)) == sys by {
      assert sys.cons[n].(brief := brief) == sys.cons[n];
    }
    StartedInv(sys, n, brief);
    RunJsRests(Started(sys, n, brief), n, js, m);
    var (s, ok) := RunJs(Started(sys, n, brief), n, js);
    MainUnfolds(sys, n, brief, js, s, ok);
  }

  /** The console c, left by these calls, has the pointer to a message box set exactly if the
      last box shown was refused, or none was shown and the pointer was set before. */
  ghost predicate PointerTells(before: bool, attempts: seq<Attempt>, c: ConsoleState, outcome: Completion) {
    outcome == MoreToDo ==> (c.msgBox <==> RefusedLast(attempts) || (NoBox(attempts) && before))
  }

  lemma RunJsPointer(sys: System, n: string, js: Scripts, b: Behaviour)
    requires n in sys.cons && Inv(sys.(clock := sys.clock + 1)) && sys.cons[n].ctx && sys.cons[n].status * {HadError, InExit} == {}
    requires b == js(sys.clock) && !ClearsWithin(sys.(clock := sys.clock + 1), n, b.attempts)
    ensures var (s, ok) := RunJs(sys, n, js);
            var (c, outcome) := Afterwards(s.cons[n].(runningMain := false), ok);
            PointerTells(sys.cons[n].msgBox, b.attempts, c, outcome)
  {
    var s0 := sys.(clock := sys.clock + 1);
    AttemptsButton(s0, n, b.attempts);
    var r := RunAttempts(s0, n, b.attempts);
    RunJsEnd(sys, n, js, b, r);
    EndLingers(r.0.cons[n], b, r.1);
    if r.1 && Stopped !in r.0.cons[n].status {
      PointerExactly(s0, n, b.attempts);
    }
  }

  lemma ExecuteEnd(sys: System, n: string, js: Scripts)
    requires n in sys.cons && !sys.cons[n].runningMain && Unspoiled(sys.cons[n])
    ensures Entered(sys, n).cons[n].status * {HadError, InExit} == {}
    ensures var (s1, ok) := RunJs(Entered(sys, n), n, js);
            var (s, outcome) := Execute(sys, n, Callable, js);
            (s.cons[n], outcome) == Afterwards(s1.cons[n].(runningMain := false), ok)
  {
    var bad := {HadError, TimedOut, Stopped, ToChain, Closing, InExit};
    assert HadError !in sys.cons[n].status * bad && InExit !in sys.cons[n].status * bad;
    var (s1, ok) := RunJs(Entered(sys, n), n, js);
    assert s1.cons[n].(runningMain := false) == s1.cons[n];
  }

  /** A handler that leaves more to do without a call of it having cleared its console. */
  lemma PointerAfterHandler(sys: System, n: string, js: Scripts, s0: System, b: Behaviour)
    requires Inv(sys) && n in sys.cons && sys.cons[n].ctx && !sys.cons[n].runningMain && Unspoiled(sys.cons[n])
    requires s0 == Entered(sys, n) && b == js(s0.clock) && !ClearsWithin(s0.(clock := s0.clock + 1), n, b.attempts)
    ensures var (s, outcome) := Execute(sys, n, Callable, js); PointerTells(sys.cons[n].msgBox, b.attempts, s.cons[n], outcome)
  {
    EnteredInv(sys, n, s0);
    ExecuteEnd(sys, n, js);
    RunJsPointer(s0, n, js, b);
  }
}
