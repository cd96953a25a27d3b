/** What the events do: whose handler is called, in what state it finds its console, what it
    comes to, and what follows from that. */
module Handling {
  import opened Wrappers
  import opened Callbacks
  import opened Lifecycle
  import opened Protocol
  import opened Events
  import opened Walks
  import opened Uniform
  import opened Registrations
  import opened Quiescence
  import opened Dichotomy
  import opened Replies
  import opened Dispatching
  import opened Outcomes

  // ----- what follows a call -----

  /** JavaScript has left console n in state s with this outcome, and t is what this leads to:
      nothing if there is more to do, and otherwise the end of the script. */
  ghost function Handled(s: System, n: string, outcome: Completion, js: Scripts): System -> bool
    requires Amid(s, n)
  {
    (t: System) =>
      if outcome == MoreToDo then t == s
      else n in t.cons && Idle(t.cons[n]) && Sends(s, n, Reported(outcome, ExitOutcome(s, n, outcome, js)))(t)
  }

  lemma SendsOn(s: System, t: System, n: string, reported: Completion)
    requires n in s.cons && n in t.cons && Sends(s, n, reported)(t)
    ensures s.log <= t.log
  {
    if reported != ToChain {
      AnswersOn(s.log, n, DebtOf(s, n), reported, t.log);
    } else {
      assert Queues(s.log, s.pending, n, DebtOf(s, n), t);
    }
  }

  lemma TailHandled(s: System, n: string, outcome: Completion, js: Scripts)
    requires Amid(s, n) && !s.cons[n].runningMain && IsBusy(s.cons[n]) == (s.cons[n], outcome == MoreToDo)
    ensures Settled(s.cons[n]) || outcome != MoreToDo
    ensures Handled(s, n, outcome, js)(Tail(s, n, outcome, js).0)
    ensures s.log <= Tail(s, n, outcome, js).0.log && s.clock <= Tail(s, n, outcome, js).0.clock
  {
    AskBusySame(s, n, outcome == MoreToDo);
    TailLater(s, n, outcome, js);
    if outcome != MoreToDo {
      WrapUpAnswers(s, n, outcome, js);
      SendsOn(s, WrapUp(s, n, outcome, js), n, Reported(outcome, ExitOutcome(s, n, outcome, js)));
    }
  }

  // ----- listeners -----

  /** Console n of sys, as the handler of its entry e finds it, the registry being rest. */
  ghost predicate Finds(sys: System, n: string, e: Entry, rest: seq<Entry>, s0: System)
    requires n in sys.cons
  {
    && n in s0.cons
    && var c, c0 := sys.cons[n], s0.cons[n];
       && s0 == With(sys, n, c0).(log := sys.log + [Fired(n, e.id, e.persistent)])
       && c0 == c.(callbacks := rest, cached := false, waiting := c0.waiting, status := c.status - {TimedOut})
  }

  lemma Found(reg: seq<Entry>, e: Entry)
    requires UniqueIds(reg) && e in reg
    ensures Get(reg, e.id, false) == (if e.persistent then reg else Keep(reg, {e.id}), Some(e))
  {
    var i := IndexOf(reg, e.id);
    var j :| 0 <= j < |reg| && reg[j] == e;
    assert i == j;
    RemoveAtKeeps(reg, i);
  }

  /** The handler of e is called, and finds console n like this. */
  lemma HandlerCalled(sys: System, n: string, e: Entry, rest: seq<Entry>, js: Scripts) returns (s0: System, s1: System, outcome: Completion)
    requires n in sys.cons && sys.cons[n].ctx && AllSettledBarring(TakeEntry(sys, n, rest), n)
    requires e.handler == Callable && HadError !in sys.cons[n].status
    ensures Finds(sys, n, e, rest, s0) && Carries(s0, s1, n) && s1.clock == sys.clock + 1 && Amid(s1, n)
    ensures Results(s0, n, js, s1.cons[n], outcome)
    ensures (s1, outcome) == Execute(FiredOff(sys, n, e, rest), n, Callable, js)
    ensures IsBusy(s1.cons[n]) == (s1.cons[n], outcome == MoreToDo) && !s1.cons[n].runningMain
  {
    var t := FiredOff(sys, n, e, rest);
    s0 := Entered(t, n);
    var r := Execute(t, n, Callable, js);
    s1, outcome := r.0, r.1;
    HandlerResults(t, n, Callable, js);
    HandlerBusy(t, n, js);
    ExecuteFrom(t, n, js);
    CarriesSettled(t, s1, n);
    FindsEntered(sys, n, e, rest, s0);
  }

  lemma FindsEntered(sys: System, n: string, e: Entry, rest: seq<Entry>, s0: System)
    requires n in sys.cons && s0 == Entered(FiredOff(sys, n, e, rest), n)
    ensures Finds(sys, n, e, rest, s0)
  {
    assert s0.cons == sys.cons[n := s0.cons[n]];
  }

  lemma ExecuteFrom(t: System, n: string, js: Scripts)
    requires n in t.cons && HadError !in t.cons[n].status
    ensures Carries(Entered(t, n), Execute(t, n, Callable, js).0, n)
  {
    var s0 := Entered(t, n);
    var s1 := RunJs(s0, n, js).0;
    assert Execute(t, n, Callable, js) == Conclude(s1, n, RunJs(s0, n, js).1);
    CarriesOn(s0, s1, Conclude(s1, n, RunJs(s0, n, js).1).0, n);
  }

  lemma CallHandled(sys: System, n: string, e: Entry, rest: seq<Entry>, js: Scripts) returns (s0: System, s1: System, outcome: Completion)
    requires n in sys.cons && sys.cons[n].ctx && AllSettledBarring(TakeEntry(sys, n, rest), n)
    requires e.handler == Callable && HadError !in sys.cons[n].status
    ensures Finds(sys, n, e, rest, s0) && Carries(s0, s1, n) && s1.clock == sys.clock + 1 && Amid(s1, n)
    ensures Results(s0, n, js, s1.cons[n], outcome)
    ensures var t := Call(TakeEntry(sys, n, rest), n, e, js).0;
            Handled(s1, n, outcome, js)(t) && s1.log <= t.log && s1.clock <= t.clock
  {
    s0, s1, outcome := HandlerCalled(sys, n, e, rest, js);
    TailHandled(s1, n, outcome, js);
    CallIsTail(sys, n, e, rest, js);
  }

  lemma CallIsTail(sys: System, n: string, e: Entry, rest: seq<Entry>, js: Scripts)
    requires n in sys.cons && sys.cons[n].ctx && AllSettledBarring(TakeEntry(sys, n, rest), n) && e.handler == Callable
    ensures var (s, outcome) := Execute(FiredOff(sys, n, e, rest), n, Callable, js);
            && Amid(s, n) && (IsBusy(s.cons[n]).1 ==> Settled(IsBusy(s.cons[n]).0)) && (!IsBusy(s.cons[n]).1 ==> outcome != MoreToDo)
            && Call(TakeEntry(sys, n, rest), n, e, js) == Tail(s, n, outcome, js)
  {
    var t := FiredOff(sys, n, e, rest);
    CarriesSettled(t, Execute(t, n, Callable, js).0, n);
    AfterExecute(t, n, Callable, js);
  }

  /** A timer, message or other listener reports for an entry that is registered: its handler is
      called, and finds the registry without the entry exactly if the entry is one-shot. */
  lemma ListenerCalled(sys: System, n: string, e: Entry, js: Scripts) returns (s0: System, s1: System, outcome: Completion)
    requires AllSettled(sys) && n in sys.cons && UniqueIds(sys.cons[n].callbacks) && e in sys.cons[n].callbacks
    requires e.handler == Callable && HadError !in sys.cons[n].status
    ensures Finds(sys, n, e, if e.persistent then sys.cons[n].callbacks else Keep(sys.cons[n].callbacks, {e.id}), s0)
    ensures Carries(s0, s1, n) && s1.clock == sys.clock + 1 && Amid(s1, n) && Results(s0, n, js, s1.cons[n], outcome)
    ensures var t := FireEntry(sys, n, e.id, js);
            Handled(s1, n, outcome, js)(t) && sys.log + [Fired(n, e.id, e.persistent)] <= t.log && sys.clock < t.clock
  {
    var reg := sys.cons[n].callbacks;
    Found(reg, e);
    var rest := if e.persistent then reg else Keep(reg, {e.id});
    ListenerIs(sys, n, e, rest, js);
    s0, s1, outcome := CallHandled(sys, n, e, rest, js);
  }

  lemma ListenerIs(sys: System, n: string, e: Entry, rest: seq<Entry>, js: Scripts)
    requires AllSettled(sys) && n in sys.cons && e in sys.cons[n].callbacks && Get(sys.cons[n].callbacks, e.id, false) == (rest, Some(e))
    ensures sys.cons[n].ctx && AllSettledBarring(TakeEntry(sys, n, rest), n)
    ensures FireEntry(sys, n, e.id, js) == Call(TakeEntry(sys, n, rest), n, e, js).0
  {
  }

  /** A button of a dialogue: the same, but the console is wrapped up with whatever outcome. */
  lemma ButtonCalled(sys: System, n: string, e: Entry, js: Scripts) returns (s0: System, s1: System, outcome: Completion)
    requires AllSettled(sys) && n in sys.cons && UniqueIds(sys.cons[n].callbacks) && e in sys.cons[n].callbacks
    requires e.handler == Callable && HadError !in sys.cons[n].status
    ensures Finds(sys, n, e, if e.persistent then sys.cons[n].callbacks else Keep(sys.cons[n].callbacks, {e.id}), s0)
    ensures Carries(s0, s1, n) && s1.clock == sys.clock + 1 && Amid(s1, n) && Results(s0, n, js, s1.cons[n], outcome)
    ensures var t := PressButton(sys, n, e.id, js);
            && (if outcome == MoreToDo then t == With(s1, n, s1.cons[n].(status := s1.cons[n].status + {MoreToDo}))
                else Handled(s1, n, outcome, js)(t))
            && sys.log + [Fired(n, e.id, e.persistent)] <= t.log && sys.clock < t.clock
  {
    var reg := sys.cons[n].callbacks;
    Found(reg, e);
    var rest := Get(reg, e.id, false).0;
    s0, s1, outcome := HandlerCalled(sys, n, e, rest, js);
    assert PressButton(sys, n, e.id, js) == WrapUp(s1, n, outcome, js);
    WrapUpHandled(s1, n, outcome, js);
  }

  lemma WrapUpHandled(s: System, n: string, outcome: Completion, js: Scripts)
    requires Amid(s, n)
    ensures var t := WrapUp(s, n, outcome, js);
            s.log <= t.log && s.clock <= t.clock && (outcome != MoreToDo ==> Handled(s, n, outcome, js)(t))
  {
    LaterSteps(s.clock, js);
    WrapsUniformly(LaterThan(s.clock), Any(), js);
    if outcome != MoreToDo {
      WrapUpWalk(Always(LaterThan(s.clock)), s, n, outcome, js);
      WrapUpAnswers(s, n, outcome, js);
    }
  }

  /** A context menu item is chosen that console n has registered. */
  lemma ItemCalled(sys: System, n: string, e: Entry, js: Scripts) returns (s0: System, s1: System, outcome: Completion)
    requires AllSettled(sys) && n in sys.cons && UniqueIds(sys.cons[n].callbacks) && e in sys.cons[n].callbacks
    requires e.handler == Callable && HadError !in sys.cons[n].status
    ensures var rest := ChooseMenuItem(sys.cons[n].callbacks, e.id).0; Finds(sys, n, e, rest, s0)
    ensures Carries(s0, s1, n) && s1.clock == sys.clock + 1 && Amid(s1, n) && Results(s0, n, js, s1.cons[n], outcome)
    ensures var t := MenuItemIn(sys, n, e.id, js);
            Handled(s1, n, outcome, js)(t) && sys.log + [Fired(n, e.id, e.persistent)] <= t.log && sys.clock < t.clock
  {
    var reg := sys.cons[n].callbacks;
    Found(reg, e);
    var a := Asked(sys, n);
    ItemIs(sys, a, n, e, js);
    s0, s1, outcome := CallHandled(a, n, e, ChooseMenuItem(reg, e.id).0, js);
    FindsAsked(sys, a, n, e, ChooseMenuItem(reg, e.id).0, s0);
  }

  lemma ItemIs(sys: System, a: System, n: string, e: Entry, js: Scripts)
    requires AllSettled(sys) && n in sys.cons && e in sys.cons[n].callbacks && a == Asked(sys, n) && e.handler == Callable
    requires Get(sys.cons[n].callbacks, e.id, false).1 == Some(e)
    ensures var rest := ChooseMenuItem(sys.cons[n].callbacks, e.id).0;
            && a.cons[n].ctx && AllSettledBarring(TakeEntry(a, n, rest), n) && a.clock == sys.clock && a.log == sys.log
            && a.cons[n].status == sys.cons[n].status
            && MenuItemIn(sys, n, e.id, js) == Call(TakeEntry(a, n, rest), n, e, js).0
  {
    assert WaitingNow(sys.cons[n]);
  }

  lemma FindsAsked(sys: System, a: System, n: string, e: Entry, rest: seq<Entry>, s0: System)
    requires n in sys.cons && a == Asked(sys, n) && Finds(a, n, e, rest, s0)
    ensures Finds(sys, n, e, rest, s0)
  {
    assert a.cons[n := s0.cons[n]] == sys.cons[n := s0.cons[n]];
  }

  /** An item is chosen that console n alone has registered: all consoles are asked in turn, and its
      handler is called. */
  lemma {:induction false} ItemChosen(sys: System, names: seq<string>, n: string, e: Entry, js: Scripts)
    requires AllSettled(sys) && n in sys.cons && n in names && UniqueIds(sys.cons[n].callbacks) && e in sys.cons[n].callbacks
    requires e.handler == Callable && HadError !in sys.cons[n].status
    requires forall m :: m in sys.cons && m != n ==> forall f :: f in sys.cons[m].callbacks ==> f.id != e.id
    ensures var t := ChooseMenu(sys, names, e.id, js); sys.log + [Fired(n, e.id, e.persistent)] <= t.log
    decreases |names|
  {
    if names[0] == n {
      var s0, s1, outcome := ItemCalled(sys, n, e, js);
    } else if names[0] in sys.cons {
      NotItsItem(sys, names[0], e.id, js);
      ItemChosen(Asked(sys, names[0]), names[1..], n, e, js);
    } else {
      ItemChosen(sys, names[1..], n, e, js);
    }
  }

  lemma NotItsItem(sys: System, m: string, id: int, js: Scripts)
    requires AllSettled(sys) && m in sys.cons && forall f :: f in sys.cons[m].callbacks ==> f.id != id
    ensures MenuItemIn(sys, m, id, js) == Asked(sys, m)
  {
    var reg := sys.cons[m].callbacks;
    forall k | 0 <= k < |reg| ensures reg[k].id != id {
      assert reg[k] in reg;
    }
  }

  /** As an event: a listener, a button and a menu item of console n each reach their own handler. */
  lemma Reports(sys: System, n: string, e: Entry, js: Scripts)
    requires AllSettled(sys) && n in sys.cons && UniqueIds(sys.cons[n].callbacks) && e in sys.cons[n].callbacks && e.handler == Callable
    ensures Step(sys, Listener(n, e.id), js) == Some(FireEntry(sys, n, e.id, js))
    ensures Step(sys, DialogueButton(n, e.id), js) == Some(PressButton(sys, n, e.id, js))
    ensures Step(sys, MenuChosen(e.id), js) == Some(ChooseMenu(sys, sys.order, e.id, js))
  {
    Found(sys.cons[n].callbacks, e);
    ListenerReports(sys, n, e.id, js);
    ButtonReports(sys, n, e.id, js);
    ItemReports(sys, e.id, js);
  }

  lemma ListenerReports(sys: System, n: string, id: int, js: Scripts)
    requires AllSettled(sys) && n in sys.cons && Bound(sys.cons[n].callbacks, id)
    ensures Step(sys, Listener(n, id), js) == Some(FireEntry(sys, n, id, js))
  {
  }

  lemma ButtonReports(sys: System, n: string, id: int, js: Scripts)
    requires AllSettled(sys) && n in sys.cons && Bound(sys.cons[n].callbacks, id)
    ensures Step(sys, DialogueButton(n, id), js) == Some(PressButton(sys, n, id, js))
  {
  }

  lemma ItemReports(sys: System, id: int, js: Scripts)
    requires AllSettled(sys)
    ensures Step(sys, MenuChosen(id), js) == Some(ChooseMenu(sys, sys.order, id, js))
  {
  }

  // ----- alerts -----

  /** The alert is dismissed; the console is wrapped up if and only if nothing else is waited for. */
  lemma AlertDismissedExactly(sys: System, n: string, js: Scripts)
    requires AllSettled(sys) && n in sys.cons && sys.cons[n].alert
    ensures var c, t := sys.cons[n], DismissAlert(sys, n, js);
            if |c.callbacks| > 0 || c.msgBox then t == With(sys, n, c.(alert := false, cached := true, waiting := true))
            else
              var s := With(sys, n, c.(alert := false, cached := true, waiting := false));
              Amid(s, n) && Handled(s, n, Done, js)(t)
  {
    var c := sys.cons[n];
    if |c.callbacks| == 0 && !c.msgBox {
      var s := With(sys, n, c.(alert := false, cached := true, waiting := false));
      WrapUpHandled(s, n, Done, js);
    }
  }

  // ----- scripts -----

  /** Console n as its main script finds it. */
  function Begun(c: ConsoleState, brief: Brief): ConsoleState {
    c.(brief := brief, ctx := true, runningMain := true, status := {}, cached := false, alert := false, msgBox := false,
       exitHandler := Missing, button := Stop)
  }

  lemma MainHandled(sys: System, n: string, js: Scripts) returns (s1: System, outcome: Completion)
    requires n in sys.cons && SettledBut(sys, n)
    ensures var s0 := With(sys, n, Begun(sys.cons[n], sys.cons[n].brief));
            Carries(s0, s1, n) && s1.clock == sys.clock + 1 && Results(s0, n, js, s1.cons[n], outcome)
    ensures (s1, outcome) == RunMain(sys, n, js) && Amid(s1, n) && Handled(s1, n, outcome, js)(RunToEnd(sys, n, js))
  {
    var r := RunMain(sys, n, js);
    s1, outcome := r.0, r.1;
    MainResults(sys, n, js);
    assert ConsoleReset(sys.cons[n]).(ctx := true, runningMain := true, button := Stop) == Begun(sys.cons[n], sys.cons[n].brief);
    MainBusy(sys, n, js);
    MainEnds(sys, n, js, s1, outcome);
    TailHandled(s1, n, outcome, js);
    MainBegun(sys, n, js);
  }

  /** A script is started with a brief. */
  lemma ScriptStarted(sys: System, n: string, brief: Brief, js: Scripts) returns (s1: System, outcome: Completion)
    requires AllSettled(sys) && n in sys.cons
    ensures var s0 := With(sys, n, Begun(sys.cons[n], brief));
            Carries(s0, s1, n) && s1.clock == sys.clock + 1 && Results(s0, n, js, s1.cons[n], outcome)
    ensures Amid(s1, n) && Handled(s1, n, outcome, js)(StartScript(sys, n, brief, js))
  {
    var t := With(sys, n, sys.cons[n].(brief := brief));
    s1, outcome := MainHandled(t, n, js);
    BegunTwice(sys, n, brief);
  }

  lemma BegunTwice(sys: System, n: string, brief: Brief)
    requires n in sys.cons
    ensures var t := With(sys, n, sys.cons[n].(brief := brief)); With(t, n, Begun(t.cons[n], brief)) == With(sys, n, Begun(sys.cons[n], brief))
  {
  }

  /** doRunCommand: a console whose button says Run starts its script; one whose button says Stop
      is stopped, and its end reported as such unless its exit handler fails. */
  lemma CommandHandled(sys: System, n: string, brief: Brief, js: Scripts) returns (s1: System, outcome: Completion)
    requires AllSettled(sys) && n in sys.cons
    ensures var s0 := With(sys, n, Begun(sys.cons[n], brief));
            sys.cons[n].button == Run ==> Carries(s0, s1, n) && s1.clock == sys.clock + 1 && Results(s0, n, js, s1.cons[n], outcome)
    ensures sys.cons[n].button == Stop ==> outcome == Stopped && s1 == With(sys, n, sys.cons[n].(status := {}))
    ensures Amid(s1, n) && Handled(s1, n, outcome, js)(DoRunCommand(sys, n, brief, js))
  {
    if sys.cons[n].button == Run {
      s1, outcome := ScriptStarted(sys, n, brief, js);
    } else {
      s1, outcome := With(sys, n, sys.cons[n].(status := {})), Stopped;
      WrapUpHandled(s1, n, Stopped, js);
    }
  }

  /** The run button: the brief of the console is used again, but its text only once. */
  lemma RunPressed(sys: System, n: string, js: Scripts) returns (s1: System, outcome: Completion)
    requires AllSettled(sys) && n in sys.cons
    ensures var brief := sys.cons[n].brief.(hasBrief := false);
            var s0 := With(sys, n, Begun(sys.cons[n], brief));
            && (sys.cons[n].button == Run ==> Carries(s0, s1, n) && s1.clock == sys.clock + 1 && Results(s0, n, js, s1.cons[n], outcome))
            && (sys.cons[n].button == Stop ==> outcome == Stopped && s1 == With(sys, n, sys.cons[n].(brief := brief, status := {})))
    ensures Amid(s1, n) && Handled(s1, n, outcome, js)(PressRun(sys, n, js))
  {
    var brief := sys.cons[n].brief.(hasBrief := false);
    var t := With(sys, n, sys.cons[n].(brief := brief));
    s1, outcome := CommandHandled(t, n, brief, js);
    BegunTwice(sys, n, brief);
    StoppedTwice(sys, n, brief);
    PressIs(sys, n, js);
  }

  lemma PressIs(sys: System, n: string, js: Scripts)
    requires AllSettled(sys) && n in sys.cons
    ensures var brief := sys.cons[n].brief.(hasBrief := false);
            var t := With(sys, n, sys.cons[n].(brief := brief));
            AllSettled(t) && PressRun(sys, n, js) == DoRunCommand(t, n, brief, js)
  {
  }

  lemma StoppedTwice(sys: System, n: string, brief: Brief)
    requires n in sys.cons
    ensures var t := With(sys, n, sys.cons[n].(brief := brief));
            With(t, n, t.cons[n].(status := {})) == With(sys, n, sys.cons[n].(brief := brief, status := {}))
  {
  }

  /** A run that was asked for comes up: the first one, with the brief it was asked for with. */
  lemma PendingHandled(sys: System, js: Scripts) returns (s1: System, outcome: Completion)
    requires AllSettled(sys) && sys.pending != [] && sys.pending[0].0 in sys.cons
    ensures var (n, brief) := sys.pending[0];
            var t := sys.(pending := sys.pending[1..]);
            var s0 := With(t, n, Begun(sys.cons[n], brief));
            && (sys.cons[n].button == Run ==> Carries(s0, s1, n) && s1.clock == sys.clock + 1 && Results(s0, n, js, s1.cons[n], outcome))
            && (sys.cons[n].button == Stop ==> outcome == Stopped && s1 == With(t, n, sys.cons[n].(status := {})))
            && Amid(s1, n) && Handled(s1, n, outcome, js)(RunPending(sys, js))
  {
    var (n, brief) := sys.pending[0];
    var t := sys.(pending := sys.pending[1..]);
    s1, outcome := CommandHandled(t, n, brief, js);
    assert RunPending(sys, js) == DoRunCommand(t, n, brief, js);
  }

  // ----- chaining -----

  /** These calls end with one that chains, which the script does not catch. */
  predicate EndsInChain(made: seq<Attempt>, hasBrief: bool) {
    made != [] && made[|made| - 1] == Attempt(Chain(true, hasBrief), false)
  }

  /** Some of these calls set an exit handler. */
  predicate SetsExit(made: seq<Attempt>) {
    made != [] && (made[0].act.OnExit? || SetsExit(made[1..]))
  }

  lemma {:induction false} ChainedBrief(sys: System, n: string, attempts: seq<Attempt>, hasBrief: bool)
    requires n in sys.cons && EndsInChain(attempts[..RanTo(sys, n, attempts)], hasBrief)
    ensures RunAttempts(sys, n, attempts).0.cons[n].brief == sys.cons[n].brief.(hasBrief := hasBrief)
    decreases |attempts|
  {
    var (s, threw) := PerformIn(sys, n, attempts[0].act);
    if !(threw && !attempts[0].caught) {
      var k := RanTo(s, n, attempts[1..]);
      assert k > 0;
      assert attempts[1..][k - 1] == attempts[k];
      ChainedBrief(s, n, attempts[1..], hasBrief);
    }
  }

  lemma {:induction false} ChainMarks(made: seq<Attempt>, hasBrief: bool)
    requires EndsInChain(made, hasBrief)
    ensures Marked(made, ToChain)
  {
    if |made| > 1 {
      ChainMarks(made[1..], hasBrief);
    }
  }

  lemma PerformKeepsExit(sys: System, n: string, a: Act)
    requires n in sys.cons && !a.OnExit?
    ensures PerformIn(sys, n, a).0.cons[n].exitHandler == sys.cons[n].exitHandler
  {
    if IsLocal(a) {
      LocalKeepsExit(sys.cons[n], a, sys.nextId);
    } else if a.AwaitResult? {
      AwaitKeepsExit(sys, n, a.target, a.callable, a.hasBrief);
    }
  }

  lemma AwaitKeepsExit(sys: System, n: string, target: string, callable: bool, hasBrief: bool)
    requires n in sys.cons
    ensures AwaitIn(sys, n, target, callable, hasBrief).0.cons[n].exitHandler == sys.cons[n].exitHandler
  {
    var o := NewCallbackEntry(sys.cons[n], AwaitEntry(sys.nextId, callable), sys.nextId);
    assert o.c.exitHandler == sys.cons[n].exitHandler;
    AskKeepsExit(With(sys, n, o.c).(nextId := o.nextId), n, target, Brief(sys.nextId, n, hasBrief));
  }

  lemma AskKeepsExit(sys: System, n: string, target: string, brief: Brief)
    requires n in sys.cons
    ensures AskToRun(sys, n, target, brief).0.cons[n].exitHandler == sys.cons[n].exitHandler
  {
    if target in sys.cons {
      assert AskBusy(sys, target).0.cons[n].exitHandler == sys.cons[n].exitHandler;
    }
  }

  lemma LocalKeepsExit(c: ConsoleState, a: Act, next: int)
    requires IsLocal(a) && !a.OnExit?
    ensures Perform(c, a, next).c.exitHandler == c.exitHandler
  {
    match a
    case Menu(persistent, items) => MenuKeepsExit(c, persistent, items, next);
    case Register(kind, persistent, ident, mask) => RegisterKeepsExit(c, Entry(next, kind, persistent, Callable, [], 0, ident, mask), next);
    case ReadDialogue(id) => ReadKeepsExit(c, id, next);
    case StopScript => StopKeepsExit(c, next);
    case _ =>
  }

  lemma ReadKeepsExit(c: ConsoleState, id: int, next: int)
    ensures ReadBack(c, id, next).c.exitHandler == c.exitHandler
  {
  }

  lemma StopKeepsExit(c: ConsoleState, next: int)
    ensures StopOwnScript(c, next).c.exitHandler == c.exitHandler
  {
  }

  lemma RegisterKeepsExit(c: ConsoleState, e: Entry, next: int)
    requires e.id == next
    ensures RegisterEntry(c, e, next).c.exitHandler == c.exitHandler
  {
  }

  lemma {:induction false} ItemsKeepExit(c: ConsoleState, owner: int, persistent: bool, items: seq<bool>, next: int)
    ensures AddItems(c, owner, persistent, items, next).c.exitHandler == c.exitHandler
    decreases |items|
  {
    if items != [] {
      var r := NewCallbackEntry(c, SubmenuEntry(next, owner, persistent, items[0]), next);
      assert r.c.exitHandler == c.exitHandler;
      if items[0] && !r.threw {
        ItemsKeepExit(r.c.(callbacks := ListWithOwner(r.c.callbacks, owner, next)), owner, persistent, items[1..], r.nextId);
      }
    }
  }

  lemma MenuKeepsExit(c: ConsoleState, persistent: bool, items: seq<bool>, next: int)
    ensures RegisterMenu(c, persistent, items, next).c.exitHandler == c.exitHandler
  {
    if InExit !in c.status {
      var r := NewCallbackEntry(c, MenuOwner(next, persistent), next);
      assert r.c.exitHandler == c.exitHandler;
      if !r.threw {
        ItemsKeepExit(r.c, next, persistent, items, r.nextId);
      }
    }
  }

  lemma {:induction false} AttemptsKeepExit(sys: System, n: string, attempts: seq<Attempt>)
    requires n in sys.cons && !SetsExit(attempts[..RanTo(sys, n, attempts)])
    ensures RunAttempts(sys, n, attempts).0.cons[n].exitHandler == sys.cons[n].exitHandler
    decreases |attempts|
  {
    if attempts != [] {
      var made := attempts[..RanTo(sys, n, attempts)];
      PerformKeepsExit(sys, n, attempts[0].act);
      var (s, threw) := PerformIn(sys, n, attempts[0].act);
      if !(threw && !attempts[0].caught) {
        assert made[1..] == attempts[1..][..RanTo(s, n, attempts[1..])];
        AttemptsKeepExit(s, n, attempts[1..]);
      }
    }
  }

  /** A main script whose calls end with one that chains, none of them before that closing or
      stopping it or setting an exit handler: nothing is sent, and the next script of this console
      is queued behind whatever the script has queued, for the same registration of the same
      console, with a brief exactly if the call gave one. */
  lemma ChainQueued(sys: System, n: string, js: Scripts, hasBrief: bool, s0: System, made: seq<Attempt>)
    requires n in sys.cons && SettledBut(sys, n) && s0 == With(sys, n, Begun(sys.cons[n], sys.cons[n].brief)).(clock := sys.clock + 1)
    requires made == js(sys.clock).attempts[..Made(s0, n, js(sys.clock).attempts)] && !js(sys.clock).overruns
    requires EndsInChain(made, hasBrief) && !Marked(made, Closing) && !Marked(made, Stopped) && !SetsExit(made)
    ensures var queued := RunAttempts(s0, n, js(sys.clock).attempts).0.pending;
            var t := RunToEnd(sys, n, js);
            && n in t.cons && Idle(t.cons[n]) && t.log == sys.log && sys.pending <= queued
            && t.pending == queued + [(n, sys.cons[n].brief.(hasBrief := hasBrief))]
  {
    var b := js(sys.clock);
    ChainResults(sys, n, js, hasBrief, s0, made);
    MadeIs(s0, n, b.attempts);
    ChainedBrief(s0, n, b.attempts, hasBrief);
    AttemptsKeepExit(s0, n, b.attempts);
    ChainGoes(sys, n, js, hasBrief, s0, RunAttempts(s0, n, b.attempts).0, RunMain(sys, n, js));
  }

  lemma ChainResults(sys: System, n: string, js: Scripts, hasBrief: bool, s0: System, made: seq<Attempt>)
    requires n in sys.cons && s0 == With(sys, n, Begun(sys.cons[n], sys.cons[n].brief)).(clock := sys.clock + 1)
    requires made == js(sys.clock).attempts[..Made(s0, n, js(sys.clock).attempts)] && !js(sys.clock).overruns
    requires EndsInChain(made, hasBrief) && !Marked(made, Closing) && !Marked(made, Stopped)
    ensures RunMain(sys, n, js).1 == ToChain
  {
    MainBegun(sys, n, js);
    ChainMarks(made, hasBrief);
  }

  lemma MainBegun(sys: System, n: string, js: Scripts)
    requires n in sys.cons
    ensures var r := RunMain(sys, n, js); Results(With(sys, n, Begun(sys.cons[n], sys.cons[n].brief)), n, js, r.0.cons[n], r.1)
  {
    MainResults(sys, n, js);
    assert ConsoleReset(sys.cons[n]).(ctx := true, runningMain := true, button := Stop) == Begun(sys.cons[n], sys.cons[n].brief);
  }

  lemma ChainGoes(sys: System, n: string, js: Scripts, hasBrief: bool, s0: System, u: System, r: (System, Completion))
    requires n in sys.cons && SettledBut(sys, n) && s0 == With(sys, n, Begun(sys.cons[n], sys.cons[n].brief)).(clock := sys.clock + 1)
    requires u == RunAttempts(s0, n, js(sys.clock).attempts).0 && !js(sys.clock).overruns && n in u.cons
    requires u.cons[n].brief == sys.cons[n].brief.(hasBrief := hasBrief) && u.cons[n].exitHandler == Missing
    requires r == RunMain(sys, n, js) && r.1 == ToChain
    ensures var t := RunToEnd(sys, n, js);
            && n in t.cons && Idle(t.cons[n]) && t.log == sys.log && sys.pending <= u.pending
            && t.pending == u.pending + [(n, sys.cons[n].brief.(hasBrief := hasBrief))]
  {
    ChainLeaves(sys, n, js, s0, u, r.0);
    MainEnds(sys, n, js, r.0, r.1);
    ChainWraps(r.0, n, js);
    MainChains(sys, n, js, r.0);
  }

  lemma ChainLeaves(sys: System, n: string, js: Scripts, s0: System, u: System, s1: System)
    requires n in sys.cons && s0 == With(sys, n, Begun(sys.cons[n], sys.cons[n].brief)).(clock := sys.clock + 1) && !js(sys.clock).overruns
    requires u == RunAttempts(s0, n, js(sys.clock).attempts).0 && s1 == RunMain(sys, n, js).0
    ensures n in u.cons && s1.cons[n].brief == u.cons[n].brief && s1.cons[n].exitHandler == u.cons[n].exitHandler
    ensures s1.pending == u.pending && s1.log == sys.log && sys.pending <= u.pending
  {
    var z := With(sys, n, Begun(sys.cons[n], sys.cons[n].brief));
    assert z.(clock := z.clock + 1) == s0;
    RunJsKeeps(z, n, js, u);
    assert z == With(sys, n, ConsoleReset(sys.cons[n]).(ctx := true, runningMain := true, button := Stop));
    MainOf(sys, n, js, z, RunJs(z, n, js));
  }

  lemma RunJsKeeps(z: System, n: string, js: Scripts, u: System)
    requires n in z.cons && !js(z.clock).overruns && u == RunAttempts(z.(clock := z.clock + 1), n, js(z.clock).attempts).0
    ensures RunJs(z, n, js).0 == u
  {
    RunJsResult(z, n, js, js(z.clock), u);
  }

  lemma MainOf(sys: System, n: string, js: Scripts, s0: System, r: (System, bool))
    requires n in sys.cons && s0 == With(sys, n, ConsoleReset(sys.cons[n]).(ctx := true, runningMain := true, button := Stop)) && r == RunJs(s0, n, js)
    ensures var s1, c := RunMain(sys, n, js).0, r.0.cons[n];
            s1.cons[n].brief == c.brief && s1.cons[n].exitHandler == c.exitHandler && s1.pending == r.0.pending && s1.log == r.0.log
  {
    MainIsConclude(sys, n, js, s0, r);
    ConcludeKeeps(With(r.0, n, r.0.cons[n].(runningMain := false)), n, r.1);
  }

  lemma MainIsConclude(sys: System, n: string, js: Scripts, s0: System, r: (System, bool))
    requires n in sys.cons && s0 == With(sys, n, ConsoleReset(sys.cons[n]).(ctx := true, runningMain := true, button := Stop)) && r == RunJs(s0, n, js)
    ensures RunMain(sys, n, js) == Conclude(With(r.0, n, r.0.cons[n].(runningMain := false)), n, r.1)
  {
  }

  lemma ConcludeKeeps(s: System, n: string, ok: bool)
    requires n in s.cons
    ensures var t, c := Conclude(s, n, ok).0, s.cons[n];
            t.cons[n].brief == c.brief && t.cons[n].exitHandler == c.exitHandler && t.pending == s.pending && t.log == s.log
  {
  }

  lemma ChainWraps(s: System, n: string, js: Scripts)
    requires Amid(s, n) && s.cons[n].exitHandler == Missing
    ensures var t := WrapUp(s, n, ToChain, js);
            t.log == s.log && t.pending == s.pending + [(n, s.cons[n].brief)]
  {
    var r := WithReason(s, n, ToChain);
    WrapsToNormalEnd(s, r, n, ToChain, js);
    NormalEndOnly(r, n, ToChain, js);
    FinishAnswers(r, n, ToChain, js);
  }

  lemma MainChains(sys: System, n: string, js: Scripts, s1: System)
    requires n in sys.cons && SettledBut(sys, n) && RunMain(sys, n, js) == (s1, ToChain) && Amid(s1, n)
    ensures RunToEnd(sys, n, js) == WrapUp(s1, n, ToChain, js)
  {
    MainBusy(sys, n, js);
    MainEnds(sys, n, js, s1, ToChain);
    AskBusySame(s1, n, false);
  }
}
