/** The plugin object that holds the consoles, with the methods that involve several of
    them.  Each is proved to do to the whole system what Protocol and Events say. */
module Plugin {
  import opened Wrappers
  import opened Callbacks
  import opened Lifecycle
  import opened Consoles
  import P = Protocol
  import E = Events
  import opened Protocol

  class Plugin {
    const consoles: seq<Console>
    var nextId: int
    var pending: seq<(string, Brief)>
    var active: set<CallbackType>
    var clock: nat
    ghost var log: seq<Note>

    ghost const byName: map<string, Console>
    ghost const order: seq<string>

    /** The plugin as it starts, with consoles none of which has run. */
    constructor (consoles: seq<Console>)
      requires forall c, d :: c in consoles && d in consoles && c.name == d.name ==> c == d
      requires forall c :: c in consoles ==> c.View() == NEW_CONSOLE
      ensures Valid() && this.consoles == consoles && View() == E.Start(Names(consoles))
    {
      this.consoles := consoles;
      byName := map c | c in consoles :: c.name := c;
      order := Names(consoles);
      nextId, pending, active, clock, log := 1, [], {}, 0, [];
      new;
      assert forall n :: n in Names(consoles) <==> n in byName by {
        forall c | c in consoles ensures c.name in Names(consoles) {
          var i :| 0 <= i < |consoles| && consoles[i] == c;
          assert Names(consoles)[i] == c.name;
        }
      }
    }

    /** No two consoles have the same name.  (Nothing that this depends on ever changes.) */
    ghost predicate Valid() {
      && (forall c :: c in consoles ==> c.name in byName && byName[c.name] == c)
      && (forall n :: n in byName ==> byName[n] in consoles && byName[n].name == n)
      && |order| == |consoles| && (forall i :: 0 <= i < |order| ==> order[i] == consoles[i].name)
    }

    ghost function View(): System
      requires Valid()
      reads this, consoles
    {
      System(map n | n in byName :: byName[n].View(), order, nextId, pending, active, clock, log)
    }

    static ghost function Names(cs: seq<Console>): seq<string> {
      seq(|cs|, i requires 0 <= i < |cs| => cs[i].name)
    }

    /** When only console c has changed, the system is the old one with c as it is now. */
    twostate lemma OnlyChanged(c: Console)
      requires Valid() && c in consoles && unchanged(this)
      requires forall d :: d in consoles && d != c ==> unchanged(d)
      ensures View() == With(old(View()), c.name, c.View())
    {
    }

    lemma Viewed(c: Console)
      requires Valid() && c in consoles
      ensures c.name in View().cons && View().cons[c.name] == c.View()
    {
    }

    method FindConsoleByName(name: string) returns (c: Console?)
      requires Valid()
      ensures View() == old(View()) && (c == null <==> name !in View().cons)
      ensures c != null ==> c in consoles && c.name == name
    {
      var i := 0;
      while i < |consoles|
        invariant 0 <= i <= |consoles|
        invariant forall k :: 0 <= k < i ==> consoles[k].name != name
      {
        if consoles[i].name == name {
          return consoles[i];
        }
        i := i + 1;
      }
      assert name !in byName;
      c := null;
    }

    // ----- calls made by the script of console c -----

    method Refuse(c: Console)
      requires Valid() && c in consoles
      modifies c
      ensures View() == Refused(old(View()), c.name).0
    {
      c.PrepForThrow();
      OnlyChanged(c);
    }

    /** Ask for a run of doRunCommand once control is back in the event loop. */
    method CallAfter(target: string, brief: Brief)
      requires Valid()
      modifies this`pending
      ensures View() == old(View()).(pending := old(View()).pending + [(target, brief)])
    {
      pending := pending + [(target, brief)];
    }

    method AskBusy(c: Console) returns (busy: bool)
      requires Valid() && c in consoles
      modifies c
      ensures (View(), busy) == P.AskBusy(old(View()), c.name)
    {
      Viewed(c);
      busy := c.IsBusy();
      OnlyChanged(c);
    }

    method AskToRun(c: Console, target: string, brief: Brief) returns (threw: bool)
      requires Valid() && c in consoles
      modifies this`pending, consoles
      ensures (View(), threw) == P.AskToRun(old(View()), c.name, target, brief)
    {
      var t := FindConsoleByName(target);
      if t == null {
        Refuse(c);
        return true;
      }
      threw := AskBusy(t);
      if threw {
        Refuse(c);
      } else {
        CallAfter(target, brief);
      }
    }

    /** A new entry with the next free id. */
    method Enroll(c: Console, e: Entry) returns (threw: bool)
      requires Valid() && c in consoles
      modifies this`nextId, c
      ensures var sys := old(View());
              var o := NewCallbackEntry(sys.cons[c.name], e, sys.nextId);
              View() == With(sys, c.name, o.c).(nextId := o.nextId) && threw == o.threw
    {
      threw := Append(c, e);
      CountId();
    }

    method Append(c: Console, e: Entry) returns (threw: bool)
      requires Valid() && c in consoles
      modifies c
      ensures var sys := old(View());
              var o := NewCallbackEntry(sys.cons[c.name], e, sys.nextId);
              View() == With(sys, c.name, o.c) && threw == o.threw
    {
      Viewed(c);
      threw := c.NewCallbackEntry(e, nextId);
      OnlyChanged(c);
    }

    method CountId()
      requires Valid()
      modifies this`nextId
      ensures View() == old(View()).(nextId := old(View()).nextId + 1)
    {
      nextId := nextId + 1;
    }

    method AwaitResult(c: Console, target: string, callable: bool, hasBrief: bool) returns (threw: bool)
      requires Valid() && c in consoles
      modifies this`nextId, this`pending, consoles
      ensures (View(), threw) == AwaitIn(old(View()), c.name, target, callable, hasBrief)
    {
      Viewed(c);
      if InExit in c.status {
        Refuse(c);
        return true;
      }
      var id := nextId;
      threw := Enroll(c, AwaitEntry(id, callable));
      if !threw {
        threw := AskToRun(c, target, Brief(id, c.name, hasBrief));
      }
    }

    method GiveBrief(t: Console)
      requires Valid() && t in consoles
      modifies t
      ensures var sys := old(View());
              View() == With(sys, t.name, sys.cons[t.name].(brief := sys.cons[t.name].brief.(hasBrief := true)))
    {
      Viewed(t);
      t.brief := t.brief.(hasBrief := true);
      OnlyChanged(t);
    }

    method RunConsole(c: Console, target: string, hasBrief: bool) returns (threw: bool)
      requires Valid() && c in consoles
      modifies this`pending, consoles
      ensures (View(), threw) == RunConsoleIn(old(View()), c.name, target, hasBrief)
    {
      var t := FindConsoleByName(target);
      if t == null || t == c {
        Refuse(c);
        return true;
      }
      Viewed(t);
      if t.ctx {
        Refuse(c);
        return true;
      }
      if hasBrief {
        GiveBrief(t);
      } else {
        SameView(t);
      }
      Viewed(t);
      CallAfter(target, t.brief);
      threw := false;
    }

    lemma SameView(c: Console)
      requires Valid() && c in consoles
      ensures var sys := View(); c.name in sys.cons && With(sys, c.name, sys.cons[c.name].(brief := sys.cons[c.name].brief)) == sys
    {
    }

    method ConsoleBusy(c: Console, target: string) returns (threw: bool)
      requires Valid() && c in consoles
      modifies consoles
      ensures (View(), threw) == ConsoleBusyIn(old(View()), c.name, target)
    {
      var t := FindConsoleByName(target);
      if t == null {
        Refuse(c);
        return true;
      }
      var busy := AskBusy(t);
      threw := false;
    }

    method Record(next: int, bits: set<CallbackType>)
      requires Valid()
      modifies this`nextId, this`active
      ensures View() == old(View()).(nextId := next, active := old(View()).active + bits)
    {
      nextId := next;
      active := active + bits;
    }

    method PerformLocal(c: Console, a: Act) returns (threw: bool)
      requires Valid() && c in consoles && IsLocal(a)
      modifies this`nextId, this`active, c
      ensures var sys := old(View());
              var o := Perform(sys.cons[c.name], a, sys.nextId);
              (View(), threw) == Install(sys, c.name, o, BitsSet(a, o))
    {
      Viewed(c);
      var next;
      threw, next := c.Perform(a, nextId);
      OnlyChanged(c);
      Record(next, if a.Register? && !threw && SetsActive(a.kind, a.ident) then {a.kind} else {});
    }

    method PerformCall(c: Console, a: Act) returns (threw: bool)
      requires Valid() && c in consoles
      modifies this`nextId, this`active, this`pending, consoles
      ensures (View(), threw) == PerformIn(old(View()), c.name, a)
    {
      if a.AwaitResult? {
        threw := AwaitResult(c, a.target, a.callable, a.hasBrief);
      } else if a.RunConsole? {
        threw := RunConsole(c, a.target, a.hasBrief);
      } else if a.ConsoleBusy? {
        threw := ConsoleBusy(c, a.target);
      } else {
        threw := PerformLocal(c, a);
      }
    }

    /** A script, call by call, up to the first error it does not catch. */
    method RunAttempts(c: Console, attempts: seq<Attempt>) returns (completed: bool)
      requires Valid() && c in consoles
      modifies this`nextId, this`active, this`pending, consoles
      ensures (View(), completed) == P.RunAttempts(old(View()), c.name, attempts)
    {
      ghost var target := P.RunAttempts(View(), c.name, attempts);
      var i := 0;
      assert attempts[0..] == attempts;
      while i < |attempts|
        invariant 0 <= i <= |attempts| 
        invariant c.name in View().cons && P.RunAttempts(View(), c.name, attempts[i..]) == target
      {
        assert attempts[i..][0] == attempts[i] && attempts[i..][1..] == attempts[i + 1..];
        var threw := PerformCall(c, attempts[i].act);
        if threw && !attempts[i].caught {
          return false;
        }
        i := i + 1;
      }
      completed := true;
    }

    // ----- running JavaScript -----

    method RunJs(c: Console, js: Scripts) returns (succeeded: bool)
      requires Valid() && c in consoles
      modifies this`nextId, this`active, this`pending, this`clock, consoles
      ensures (View(), succeeded) == P.RunJs(old(View()), c.name, js)
    {
      var b := js(clock);
      ghost var goal := P.RunJs(View(), c.name, js);
      Tick();
      Viewed(c);
      var completed := RunAttempts(c, b.attempts);
      succeeded := CutOff(c, completed, b, goal);
    }

    /** The timeout callback, if the script ran for too long, and its effect. */
    method CutOff(c: Console, completed: bool, b: Behaviour, ghost goal: (System, bool)) returns (succeeded: bool)
      requires Valid() && c in consoles && c.name in View().cons && goal == P.CutOff((View(), completed), c.name, b)
      modifies c
      ensures (View(), succeeded) == goal
    {
      Viewed(c);
      succeeded := completed && b.completes;
      if b.overruns {
        Overrun(c);
        succeeded := false;
      }
    }

    method Tick()
      requires Valid()
      modifies this`clock
      ensures View() == old(View()).(clock := old(View()).clock + 1)
    {
      clock := clock + 1;
    }

    method Overrun(c: Console)
      requires Valid() && c in consoles
      modifies c
      ensures View() == P.Overrun(old(View()), c.name)
    {
      Viewed(c);
      c.status := c.status + {TimedOut};
      OnlyChanged(c);
    }

    method Conclude(c: Console, succeeded: bool) returns (outcome: Completion)
      requires Valid() && c in consoles
      modifies c
      ensures (View(), outcome) == P.Conclude(old(View()), c.name, succeeded)
    {
      Viewed(c);
      outcome := c.Afterwards(succeeded);
      OnlyChanged(c);
    }

    method MakeReady(c: Console)
      requires Valid() && c in consoles
      modifies c
      ensures var sys := old(View());
              var was := sys.cons[c.name];
              View() == With(sys, c.name, was.(cached := false, status := was.status - {TimedOut}))
    {
      Viewed(c);
      c.cached := false;
      c.status := c.status - {TimedOut};
      OnlyChanged(c);
    }

    method ExecuteCallable(c: Console, handler: Handler, js: Scripts) returns (outcome: Completion)
      requires Valid() && c in consoles
      modifies this`nextId, this`active, this`pending, this`clock, consoles
      ensures (View(), outcome) == P.Execute(old(View()), c.name, handler, js)
    {
      Viewed(c);
      if HadError in c.status || handler != Callable {
        return HadError;
      }
      MakeReady(c);
      var succeeded := RunJs(c, js);
      outcome := Conclude(c, succeeded);
    }

    method EnterMain(c: Console)
      requires Valid() && c in consoles
      modifies c
      ensures var sys := old(View());
              View() == With(sys, c.name, ConsoleReset(sys.cons[c.name]).(ctx := true, runningMain := true, button := Stop))
    {
      Viewed(c);
      c.ConsoleReset();
      c.ctx, c.runningMain, c.button := true, true, Stop;
      OnlyChanged(c);
    }

    method LeaveMain(c: Console)
      requires Valid() && c in consoles
      modifies c
      ensures var sys := old(View());
              View() == With(sys, c.name, sys.cons[c.name].(runningMain := false))
    {
      Viewed(c);
      c.runningMain := false;
      OnlyChanged(c);
    }

    method RunMain(c: Console, js: Scripts) returns (outcome: Completion)
      requires Valid() && c in consoles
      modifies this`nextId, this`active, this`pending, this`clock, consoles
      ensures (View(), outcome) == P.RunMain(old(View()), c.name, js)
    {
      EnterMain(c);
      var succeeded := RunJs(c, js);
      LeaveMain(c);
      outcome := Conclude(c, succeeded);
    }

    // ----- wrapping up and replying -----

    method SetStatus(c: Console, status: set<Completion>)
      requires Valid() && c in consoles
      modifies c
      ensures var sys := old(View());
              View() == With(sys, c.name, sys.cons[c.name].(status := status))
    {
      Viewed(c);
      c.status := status;
      OnlyChanged(c);
    }

    method TakeDown(c: Console)
      requires Valid() && c in consoles
      modifies c
      ensures View() == Down(old(View()), c.name)
    {
      Viewed(c);
      c.Cleanup();
      OnlyChanged(c);
    }

    method RunExit(c: Console, js: Scripts) returns (ended: Completion)
      requires Valid() && c in consoles && SettledBut(View(), c.name)
      modifies this`nextId, this`active, this`pending, this`clock, consoles
      ensures (View(), ended) == P.RunExit(old(View()), c.name, js)
    {
      Viewed(c);
      SetStatus(c, c.status - {Done} + {InExit});
      ended := ExecuteCallable(c, c.exitHandler, js);
      Viewed(c);
      SetStatus(c, c.status - {InExit});
    }

    method WrapUp(c: Console, reason: Completion, js: Scripts)
      requires Valid() && c in consoles && c.ctx && SettledBut(View(), c.name)
      modifies this`nextId, this`active, this`pending, this`clock, this`log, consoles
      ensures View() == P.WrapUp(old(View()), c.name, reason, js)
      decreases |Live(View())|, 1
    {
      Viewed(c);
      ghost var s := WithReason(View(), c.name, reason);
      DownIsDead(s, c.name);
      SetStatus(c, c.status - {MoreToDo} + {reason});
      assert View() == s;
      Viewed(c);
      if reason == TimedOut {
        DropAndReply(c, TimedOut, js);
      } else if reason == Closing {
        DropAndReply(c, Closed, js);
      } else if reason == HadError {
        DropAndReply(c, HadError, js);
      } else if reason != MoreToDo {
        WrapNormally(c, reason, js);
      }
    }

    method DropAndReply(c: Console, reason: Completion, js: Scripts)
      requires Valid() && c in consoles && c.ctx && SettledBut(View(), c.name)
      modifies this`nextId, this`active, this`pending, this`clock, this`log, consoles
      ensures c.name in old(View()).cons && SettledBut(old(View()), c.name)
      ensures AllSettled(Down(old(View()), c.name)) && View() == P.Reply(Down(old(View()), c.name), c.name, reason, js)
      decreases |Live(View())|, 0
    {
      Viewed(c);
      DownIsDead(View(), c.name);
      TakeDown(c);
      Reply(c, reason, js);
    }

    method WrapNormally(c: Console, reason: Completion, js: Scripts)
      requires Valid() && c in consoles && c.ctx && SettledBut(View(), c.name)
      modifies this`nextId, this`active, this`pending, this`clock, this`log, consoles
      ensures View() == NormalEnd(old(View()), c.name, reason, js)
      decreases |Live(View())|, 1, 0
    {
      Viewed(c);
      if !WrapsNormally(reason) || c.exitHandler == Missing {
        Finish(c, reason, js);
      } else {
        var ended := RunExit(c, js);
        assert c.name in Live(View());
        Viewed(c);
        if ended == TimedOut || ended == HadError {
          DropAndReply(c, ended, js);
        } else {
          Finish(c, reason, js);
        }
      }
    }

    method ClearDown(c: Console)
      requires Valid() && c in consoles
      modifies c
      ensures var sys := old(View());
              View() == With(sys, c.name, IsBusy(Cleanup(sys.cons[c.name])).0)
    {
      Viewed(c);
      c.Cleanup();
      var busy := c.IsBusy();
      OnlyChanged(c);
    }

    method Finish(c: Console, reason: Completion, js: Scripts)
      requires Valid() && c in consoles && c.ctx && SettledBut(View(), c.name)
      modifies this`nextId, this`active, this`pending, this`clock, this`log, consoles
      ensures View() == P.Finish(old(View()), c.name, reason, js)
      decreases |Live(View())|, 0
    {
      Viewed(c);
      DownIsDead(View(), c.name);
      ghost var dead := Down(View(), c.name);
      ClearDown(c);
      assert Live(View()) == Live(dead);
      Viewed(c);
      if reason == ToChain {
        SetStatus(c, c.status - {ToChain});
        Viewed(c);
        CallAfter(c.name, c.brief);
      } else {
        Reply(c, reason, js);
      }
    }

    method Collect(c: Console) returns (caller: Console?, found: Option<Entry>)
      requires Valid() && c in consoles && Idle(c.View()) && AllSettled(View())
      modifies consoles
      ensures c.name in old(View()).cons && (View(), found) == P.Collect(old(View()), c.name)
      ensures found.Some? ==> caller != null && caller in consoles && caller.name == old(View()).cons[c.name].brief.caller
    {
      Viewed(c);
      ghost var sys := View();
      var id := c.brief.callbackId;
      caller := FindConsoleByName(c.brief.caller);
      found := None;
      if caller != null {
        Viewed(caller);
        var waiting := caller.IsWaiting();
        OnlyChanged(caller);
        if waiting {
          ghost var s1 := View();
          label Asked:
          found := caller.GetCallbackEntry(id, true);
          OnlyChanged@Asked(caller);
          assert View() == With(s1, caller.name, caller.View());
        }
      }
    }

    method Answer(c: Console, caller: Console, e: Entry, js: Scripts) returns (busy: bool, outcome: Completion)
      requires Valid() && c in consoles && caller in consoles && c.brief.caller == caller.name
      requires c.name in View().cons && caller.name in View().cons
      requires Idle(View().cons[c.name]) && AllSettled(View()) && View().cons[c.name].brief.caller == caller.name && View().cons[caller.name].ctx
      modifies this`nextId, this`active, this`pending, this`clock, consoles
      ensures (View(), busy, outcome) == P.Answer(old(View()), c.name, e, js)
    {
      outcome := ExecuteCallable(caller, e.handler, js);
      NothingDue(c);
      busy := AskBusy(caller);
    }

    method NothingDue(c: Console)
      requires Valid() && c in consoles
      modifies c
      ensures View() == ReplyDone(old(View()), c.name)
    {
      Viewed(c);
      c.brief := c.brief.(callbackId := 0);
      OnlyChanged(c);
    }

    ghost method Log(notes: seq<Note>)
      requires Valid()
      modifies this`log
      ensures View() == Noted(old(View()), notes)
    {
      log := log + notes;
    }

    method Reply(c: Console, reason: Completion, js: Scripts)
      requires Valid() && c in consoles && AllSettled(View()) && c.name in View().cons && !View().cons[c.name].ctx
      modifies this`nextId, this`active, this`pending, this`clock, this`log, consoles
      ensures View() == P.Reply(old(View()), c.name, reason, js)
      decreases |Live(View())|, 3
    {
      Viewed(c);
      var id := c.brief.callbackId;
      if id != 0 {
        var caller, found := Collect(c);
        Viewed(c);
        if found.None? {
          Log([Replied(c.name, id, reason, false)]);
        } else {
          HandOver(c, caller, reason, found.value, js);
        }
      }
    }

    method HandOver(c: Console, caller: Console, reason: Completion, e: Entry, js: Scripts)
      requires Valid() && c in consoles && caller in consoles && AllSettled(View())
      requires c.name in View().cons && Idle(View().cons[c.name])
      requires View().cons[c.name].brief.caller == caller.name && caller.name in View().cons && View().cons[caller.name].ctx
      modifies this`nextId, this`active, this`pending, this`clock, this`log, consoles
      ensures View() == P.HandOver(old(View()), c.name, reason, e, js)
      decreases |Live(View())|, 2
    {
      Viewed(c);
      ghost var sys := View();
      Log(ReplyNotes(c.name, c.brief, reason, e));
      assert Live(View()) == Live(sys);
      Viewed(c);
      var busy, outcome := Answer(c, caller, e, js);
      Viewed(caller);
      if !busy {
        assert caller.name in Live(View());
        WrapUp(caller, outcome, js);
      }
    }

    // ----- events -----

    /** Once control is back from a handler: unless the console is busy, wrap it up. */
    method Tail(c: Console, outcome: Completion, js: Scripts) returns (wrapped: bool)
      requires Valid() && c in consoles && c.ctx && SettledBut(View(), c.name)
      requires IsBusy(c.View()).1 ==> Settled(IsBusy(c.View()).0)
      requires !IsBusy(c.View()).1 ==> outcome != MoreToDo
      modifies this`nextId, this`active, this`pending, this`clock, this`log, consoles
      ensures (View(), wrapped) == E.Tail(old(View()), c.name, outcome, js)
    {
      Viewed(c);
      var busy := AskBusy(c);
      Viewed(c);
      if !busy {
        WrapUp(c, outcome, js);
      }
      wrapped := !busy;
    }

    method CallHandler(c: Console, e: Entry, js: Scripts) returns (wrapped: bool)
      requires Valid() && c in consoles && c.name in View().cons && View().cons[c.name].ctx && E.AllSettledBarring(View(), c.name)
      modifies this`nextId, this`active, this`pending, this`clock, this`log, consoles
      ensures (View(), wrapped) == E.Call(old(View()), c.name, e, js)
    {
      Viewed(c);
      ghost var sys := View();
      Log([Fired(c.name, e.id, e.persistent)]);
      ghost var s1 := View();
      assert Live(s1) == Live(sys);
      var outcome := ExecuteCallable(c, e.handler, js);
      CarriesSettled(s1, View(), c.name);
      AfterExecute(s1, c.name, e.handler, js);
      Viewed(c);
      wrapped := Tail(c, outcome, js);
    }

    /** A lookup by id in the registry of c. */
    method Take(c: Console, id: int) returns (found: Option<Entry>)
      requires Valid() && c in consoles
      modifies c
      ensures var sys := old(View());
              && c.name in sys.cons && found == Get(sys.cons[c.name].callbacks, id, false).1
              && View() == With(sys, c.name, sys.cons[c.name].(callbacks := Get(sys.cons[c.name].callbacks, id, false).0))
    {
      Viewed(c);
      found := c.GetCallbackEntry(id, false);
      OnlyChanged(c);
    }

    /** A timer, message or other listener of c reports for the entry with this id. */
    method HandleListener(c: Console, id: int, js: Scripts)
      requires Valid() && c in consoles && c.name in View().cons && AllSettled(View())
      modifies this`nextId, this`active, this`pending, this`clock, this`log, consoles
      ensures View() == E.FireEntry(old(View()), c.name, id, js)
    {
      Viewed(c);
      ghost var sys := View();
      var found := Take(c, id);
      if found.Some? {
        assert View() == E.TakeEntry(sys, c.name, Get(sys.cons[c.name].callbacks, id, false).0);
        var wrapped := CallHandler(c, found.value, js);
      } else {
        Nothing(sys, c.name, View());
      }
    }

    lemma Nothing(sys: System, n: string, s: System)
      requires n in sys.cons && s == With(sys, n, sys.cons[n].(callbacks := sys.cons[n].callbacks))
      ensures s == sys
    {
    }

    method OnButton(c: Console, id: int, js: Scripts)
      requires Valid() && c in consoles && c.name in View().cons && AllSettled(View())
      modifies this`nextId, this`active, this`pending, this`clock, this`log, consoles
      ensures View() == E.PressButton(old(View()), c.name, id, js)
    {
      Viewed(c);
      ghost var sys := View();
      if !c.ctx {
        return;
      }
      var found := Take(c, id);
      if found.Some? {
        assert View() == E.TakeEntry(sys, c.name, Get(sys.cons[c.name].callbacks, id, false).0);
        CallAndWrap(c, found.value, js);
      } else {
        Nothing(sys, c.name, View());
      }
    }

    method CallAndWrap(c: Console, e: Entry, js: Scripts)
      requires Valid() && c in consoles && c.name in View().cons && View().cons[c.name].ctx && E.AllSettledBarring(View(), c.name)
      modifies this`nextId, this`active, this`pending, this`clock, this`log, consoles
      ensures View() == E.CallAndWrap(old(View()), c.name, e, js)
    {
      Viewed(c);
      ghost var sys := View();
      Log([Fired(c.name, e.id, e.persistent)]);
      ghost var s1 := View();
      assert Live(s1) == Live(sys);
      var outcome := ExecuteCallable(c, e.handler, js);
      CarriesSettled(s1, View(), c.name);
      E.ExecuteMoreToDo(s1, c.name, e.handler, js);
      Viewed(c);
      WrapUp(c, outcome, js);
    }

    method OnDismissAlert(c: Console, js: Scripts)
      requires Valid() && c in consoles && c.name in View().cons && AllSettled(View())
      modifies this`nextId, this`active, this`pending, this`clock, this`log, consoles
      ensures View() == E.DismissAlert(old(View()), c.name, js)
    {
      Viewed(c);
      ghost var sys := View();
      if c.alert {
        c.ClearAlert();
        var waiting := c.IsWaiting();
        OnlyChanged(c);
        LiveWith(sys, c.name, c.View());
        if !waiting {
          WrapUp(c, Done, js);
        }
      }
    }

    method SetBrief(c: Console, brief: Brief)
      requires Valid() && c in consoles
      modifies c
      ensures var sys := old(View());
              && c.name in sys.cons && View() == With(sys, c.name, sys.cons[c.name].(brief := brief))
    {
      Viewed(c);
      c.brief := brief;
      OnlyChanged(c);
    }

    method StartScript(c: Console, brief: Brief, js: Scripts)
      requires Valid() && c in consoles && c.name in View().cons && AllSettled(View())
      modifies this`nextId, this`active, this`pending, this`clock, this`log, consoles
      ensures View() == E.StartScript(old(View()), c.name, brief, js)
    {
      SetBrief(c, brief);
      RunToEnd(c, js);
    }

    method RunToEnd(c: Console, js: Scripts)
      requires Valid() && c in consoles && c.name in View().cons && SettledBut(View(), c.name)
      modifies this`nextId, this`active, this`pending, this`clock, this`log, consoles
      ensures View() == E.RunToEnd(old(View()), c.name, js)
    {
      ghost var sys := View();
      var outcome := RunMain(c, js);
      E.MainEnds(sys, c.name, js, View(), outcome);
      Viewed(c);
      var wrapped := Tail(c, outcome, js);
    }

    method StopPressed(c: Console, js: Scripts)
      requires Valid() && c in consoles && c.name in View().cons && AllSettled(View()) && View().cons[c.name].ctx
      modifies this`nextId, this`active, this`pending, this`clock, this`log, consoles
      ensures View() == E.StopPressed(old(View()), c.name, js)
    {
      Viewed(c);
      LiveWith(View(), c.name, View().cons[c.name].(status := {}));
      SetStatus(c, {});
      Viewed(c);
      WrapUp(c, Stopped, js);
    }

    method DoRunCommand(c: Console, brief: Brief, js: Scripts)
      requires Valid() && c in consoles && c.name in View().cons && AllSettled(View())
      modifies this`nextId, this`active, this`pending, this`clock, this`log, consoles
      ensures View() == E.DoRunCommand(old(View()), c.name, brief, js)
    {
      Viewed(c);
      if c.button == Run {
        StartScript(c, brief, js);
      } else {
        StopPressed(c, js);
      }
    }

    method OnRun(c: Console, js: Scripts)
      requires Valid() && c in consoles && c.name in View().cons && AllSettled(View())
      modifies this`nextId, this`active, this`pending, this`clock, this`log, consoles
      ensures View() == E.PressRun(old(View()), c.name, js)
    {
      Viewed(c);
      ghost var sys := View();
      LiveWith(sys, c.name, sys.cons[c.name].(brief := c.brief.(hasBrief := false)));
      SetBrief(c, c.brief.(hasBrief := false));
      Viewed(c);
      DoRunCommand(c, c.brief, js);
    }

    /** The first run asked for with CallAfter comes up. */
    method RunNext(js: Scripts)
      requires Valid() && AllSettled(View())
      modifies this`nextId, this`active, this`pending, this`clock, this`log, consoles
      ensures View() == E.RunPending(old(View()), js)
    {
      if pending != [] {
        TakeNext(js);
      }
    }

    method TakeNext(js: Scripts)
      requires Valid() && AllSettled(View()) && pending != []
      modifies this`nextId, this`active, this`pending, this`clock, this`log, consoles
      ensures old(View()).pending != []
      ensures var sys := old(View()); View() == E.RunFor(sys.(pending := sys.pending[1..]), sys.pending[0].0, sys.pending[0].1, js)
    {
      var (n, brief) := pending[0];
      Unqueue();
      RunNamed(n, brief, js);
    }

    method RunNamed(n: string, brief: Brief, js: Scripts)
      requires Valid() && AllSettled(View())
      modifies this`nextId, this`active, this`pending, this`clock, this`log, consoles
      ensures View() == E.RunFor(old(View()), n, brief, js)
    {
      var c := FindConsoleByName(n);
      RunFor(c, n, brief, js);
    }

    method RunFor(c: Console?, n: string, brief: Brief, js: Scripts)
      requires Valid() && AllSettled(View()) && (c == null <==> n !in View().cons) && (c != null ==> c in consoles && c.name == n)
      modifies this`nextId, this`active, this`pending, this`clock, this`log, consoles
      ensures View() == E.RunFor(old(View()), n, brief, js)
    {
      if c != null {
        DoRunCommand(c, brief, js);
      }
    }

    method Unqueue()
      requires Valid() && pending != []
      modifies this`pending
      ensures old(View()).pending != []
      ensures View() == old(View()).(pending := old(View()).pending[1..])
    {
      pending := pending[1..];
    }

    method AskWaiting(c: Console) returns (waiting: bool)
      requires Valid() && c in consoles
      modifies c
      ensures var sys := old(View());
              && c.name in sys.cons && waiting == IsWaiting(sys.cons[c.name]).1
              && View() == With(sys, c.name, IsWaiting(sys.cons[c.name]).0)
    {
      Viewed(c);
      waiting := c.IsWaiting();
      OnlyChanged(c);
    }

    /** The context menu item with this id, if console c has it.  No menu item is bound to
        the owner of a submenu, so the id of one is never reported. */
    method OnMenuItem(c: Console, id: int, js: Scripts)
      requires Valid() && c in consoles && c.name in View().cons && AllSettled(View())
      modifies this`nextId, this`active, this`pending, this`clock, this`log, consoles
      ensures View() == E.MenuItemIn(old(View()), c.name, id, js)
    {
      LiveWith(View(), c.name, IsWaiting(View().cons[c.name]).0);
      var waiting := AskWaiting(c);
      Viewed(c);
      if waiting && !IsOwner(c.callbacks, id) {
        Choose(c, id, js);
      }
    }

    method Choose(c: Console, id: int, js: Scripts)
      requires Valid() && c in consoles && c.name in View().cons && View().cons[c.name].ctx && E.AllSettledBarring(View(), c.name)
      modifies this`nextId, this`active, this`pending, this`clock, this`log, consoles
      ensures var sys := old(View());
              var (rest, found) := ChooseMenuItem(sys.cons[c.name].callbacks, id);
              View() == if found.Some? then E.Call(E.TakeEntry(sys, c.name, rest), c.name, found.value, js).0 else sys
    {
      Viewed(c);
      ghost var sys := View();
      var found := c.TakeMenuItem(id);
      OnlyChanged(c);
      if found.Some? {
        assert View() == E.TakeEntry(sys, c.name, c.callbacks);
        var wrapped := CallHandler(c, found.value, js);
      } else {
        Nothing(sys, c.name, View());
      }
    }

    static predicate IsOwner(reg: seq<Entry>, id: int) {
      var found := ChooseMenuItem(reg, id).1;
      found.Some? && found.value.handler == Missing
    }

    method OnContextMenuItem(id: int, js: Scripts)
      requires Valid() && AllSettled(View())
      modifies this`nextId, this`active, this`pending, this`clock, this`log, consoles
      ensures View() == E.ChooseMenu(old(View()), old(View()).order, id, js)
    {
      ghost var goal := E.ChooseMenu(View(), order, id, js);
      assert order[0..] == order;
      var i := 0;
      while i < |consoles|
        invariant 0 <= i <= |consoles| && AllSettled(View())
        invariant goal == E.ChooseMenu(View(), order[i..], id, js)
      {
        MenuNext(i, id, js, goal);
        i := i + 1;
      }
    }

    method MenuNext(i: nat, id: int, js: Scripts, ghost goal: System)
      requires Valid() && AllSettled(View()) && i < |consoles| && goal == E.ChooseMenu(View(), order[i..], id, js)
      modifies this`nextId, this`active, this`pending, this`clock, this`log, consoles
      ensures AllSettled(View()) && goal == E.ChooseMenu(View(), order[i + 1..], id, js)
    {
      ghost var before := View();
      Viewed(consoles[i]);
      OnMenuItem(consoles[i], id, js);
      E.MenuNext(before, order, i, id, js, goal, View());
    }

    // ----- dispatch to every listener of one kind -----

    method Mark(kind: CallbackType)
      requires Valid()
      modifies this`active
      ensures View() == E.Mark(old(View()), kind)
    {
      active := active + {kind};
    }

    method FireAt(c: Console, i: nat, js: Scripts) returns (wrapped: bool)
      requires Valid() && c in consoles && c.name in View().cons && AllSettled(View()) && c.ctx && i < |c.callbacks|
      modifies this`nextId, this`active, this`pending, this`clock, this`log, consoles
      ensures i < |old(View()).cons[c.name].callbacks|
      ensures (View(), wrapped) == E.FireAt(old(View()), c.name, i, js)
    {
      Viewed(c);
      ghost var sys := View();
      var e := c.callbacks[i];
      EraseOneShot(c, i);
      wrapped := CallHandler(c, e, js);
    }

    method EraseOneShot(c: Console, i: nat)
      requires Valid() && c in consoles && c.name in View().cons && i < |c.callbacks|
      modifies c
      ensures var sys := old(View()); var reg := sys.cons[c.name].callbacks;
              i < |reg| && View() == E.TakeEntry(sys, c.name, if reg[i].persistent then reg else RemoveAt(reg, i))
    {
      Viewed(c);
      if !c.callbacks[i].persistent {
        c.callbacks := RemoveAt(c.callbacks, i);
        OnlyChanged(c);
      } else {
        Nothing(View(), c.name, With(View(), c.name, View().cons[c.name].(callbacks := c.callbacks)));
      }
    }

    /** One pass of the loop over the entries of a console. */
    method Pass(c: Console, i: nat, kind: CallbackType, mouse: set<MouseEvent>, js: Scripts) returns (next: nat, wrapped: bool)
      requires Valid() && c in consoles && c.name in View().cons && AllSettled(View()) && c.ctx && i < |c.callbacks|
      modifies this`nextId, this`active, this`pending, this`clock, this`log, consoles
      ensures i < |old(View()).cons[c.name].callbacks|
      ensures (View(), next, wrapped) == E.Pass(old(View()), c.name, i, kind, mouse, js)
    {
      Viewed(c);
      var e := c.callbacks[i];
      next, wrapped := i + 1, false;
      if E.Listens(e, kind) {
        Mark(kind);
        if E.Wants(e, kind, mouse) {
          Viewed(c);
          wrapped := FireAt(c, i, js);
          if !e.persistent {
            next := i;
          }
        }
      }
    }

    /** The same, with what is left of the passes granted and of the work to do. */
    method Turn(c: Console, i: nat, kind: CallbackType, mouse: set<MouseEvent>, js: Scripts, passes: nat, ghost goal: (System, nat, bool))
      returns (next: nat, left: nat, wrapped: bool)
      requires Valid() && c in consoles && c.name in View().cons && AllSettled(View()) && c.ctx && i < |c.callbacks|
      requires View().cons[c.name] == c.View() && (E.Wants(c.callbacks[i], kind, mouse) ==> passes > 0)
      requires goal == E.DispatchFrom(View(), c.name, i, kind, mouse, js, passes)
      modifies this`nextId, this`active, this`pending, this`clock, this`log, consoles
      ensures c.name in View().cons && View().cons[c.name] == c.View() && AllSettled(View())
      ensures left < passes || (left == passes && next == i + 1 && c.callbacks == old(c.callbacks))
      ensures if wrapped then goal == (View(), left, true)
              else c.ctx && goal == E.DispatchFrom(View(), c.name, next, kind, mouse, js, left)
    {
      ghost var before := View();
      left := if E.Wants(c.callbacks[i], kind, mouse) then passes - 1 else passes;
      next, wrapped := Pass(c, i, kind, mouse, js);
      Viewed(c);
      E.DispatchPass(before, c.name, i, kind, mouse, js, passes, goal, (View(), next, wrapped));
    }

    /** The loop over the entries of one console.  passes stands for how long one is
        prepared to watch: the loop itself has no such bound. */
    method DispatchIn(c: Console, kind: CallbackType, mouse: set<MouseEvent>, js: Scripts, passes: nat) returns (left: nat, ended: bool)
      requires Valid() && c in consoles && c.name in View().cons && AllSettled(View()) && View().cons[c.name].ctx
      modifies this`nextId, this`active, this`pending, this`clock, this`log, consoles
      ensures (View(), left, ended) == E.DispatchFrom(old(View()), c.name, 0, kind, mouse, js, passes)
    {
      ghost var goal := E.DispatchFrom(View(), c.name, 0, kind, mouse, js, passes);
      var i: nat, wrapped := 0, false;
      left, ended := passes, true;
      Viewed(c);
      while i < |c.callbacks|
        invariant c.name in View().cons && View().cons[c.name] == c.View() && c.ctx && AllSettled(View())
        invariant ended && goal == E.DispatchFrom(View(), c.name, i, kind, mouse, js, left)
        decreases left, |c.callbacks| - i
      {
        if E.Wants(c.callbacks[i], kind, mouse) && left == 0 {
          return 0, false;
        }
        i, left, wrapped := Turn(c, i, kind, mouse, js, left, goal);
        if wrapped {
          return;
        }
      }
    }

    method DispatchAll(kind: CallbackType, mouse: set<MouseEvent>, js: Scripts, passes: nat) returns (ended: bool)
      requires Valid() && AllSettled(View())
      modifies this`nextId, this`active, this`pending, this`clock, this`log, consoles
      ensures (View(), ended) == E.Dispatch(old(View()), kind, mouse, js, passes)
    {
      if !E.IsDispatched(kind) || kind !in active {
        return true;
      }
      Unmark(kind);
      var left;
      left, ended := DispatchOver(kind, mouse, js, passes);
    }

    method Unmark(kind: CallbackType)
      requires Valid()
      modifies this`active
      ensures View() == old(View()).(active := old(View()).active - {kind})
    {
      active := active - {kind};
    }

    method DispatchOver(kind: CallbackType, mouse: set<MouseEvent>, js: Scripts, passes: nat) returns (left: nat, ended: bool)
      requires Valid() && AllSettled(View())
      modifies this`nextId, this`active, this`pending, this`clock, this`log, consoles
      ensures (View(), left, ended) == E.DispatchTo(old(View()), old(View()).order, kind, mouse, js, passes)
    {
      ghost var goal := E.DispatchTo(View(), order, kind, mouse, js, passes);
      ghost var leads := (s: System, names: seq<string>, p: nat) => AllSettled(s) && goal == E.DispatchTo(s, names, kind, mouse, js, p);
      left, ended := DispatchEach(kind, mouse, js, passes, goal, leads);
    }

    method DispatchEach(kind: CallbackType, mouse: set<MouseEvent>, js: Scripts, passes: nat, ghost goal: (System, nat, bool),
                        ghost leads: (System, seq<string>, nat) -> bool) returns (left: nat, ended: bool)
      requires Valid() && E.LeadsTo(leads, goal, kind, mouse, js) && AllSettled(View()) && leads(View(), order, passes)
      modifies this`nextId, this`active, this`pending, this`clock, this`log, consoles
      ensures (View(), left, ended) == goal
    {
      assert order[0..] == order;
      var i := 0;
      left, ended := passes, true;
      while i < |consoles|
        invariant 0 <= i <= |consoles| && ended && AllSettled(View()) && leads(View(), order[i..], left)
      {
        left, ended := DispatchNext(i, kind, mouse, js, left, goal, leads);
        if !ended {
          return;
        }
        i := i + 1;
      }
      E.LedTo(View(), kind, mouse, js, left, goal, leads);
    }

    method DispatchNext(i: nat, kind: CallbackType, mouse: set<MouseEvent>, js: Scripts, passes: nat, ghost goal: (System, nat, bool),
                        ghost leads: (System, seq<string>, nat) -> bool) returns (left: nat, ended: bool)
      requires Valid() && i < |consoles| && AllSettled(View())
      requires E.LeadsTo(leads, goal, kind, mouse, js) && leads(View(), order[i..], passes)
      modifies this`nextId, this`active, this`pending, this`clock, this`log, consoles
      ensures AllSettled(View())
      ensures if ended then leads(View(), order[i + 1..], left) else goal == (View(), left, ended)
    {
      ghost var before := View();
      assert goal == E.DispatchTo(before, order[i..], kind, mouse, js, passes);
      Viewed(consoles[i]);
      left, ended := DispatchOne(consoles[i], kind, mouse, js, passes);
      E.DispatchNext(before, order, i, kind, mouse, js, passes, goal, (View(), left, ended));
    }

    method DispatchOne(c: Console, kind: CallbackType, mouse: set<MouseEvent>, js: Scripts, passes: nat) returns (left: nat, ended: bool)
      requires Valid() && c in consoles && c.name in View().cons && AllSettled(View())
      modifies this`nextId, this`active, this`pending, this`clock, this`log, consoles
      ensures (View(), left, ended) == E.DispatchIn(old(View()), c.name, kind, mouse, js, passes)
    {
      LiveWith(View(), c.name, IsWaiting(View().cons[c.name]).0);
      var waiting := AskWaiting(c);
      left, ended := passes, true;
      if waiting {
        left, ended := DispatchIn(c, kind, mouse, js, passes);
      }
    }
  }
}
