/** Short runs worked out step by step. */
module Scenarios {
  import opened Wrappers
  import opened Callbacks
  import opened Lifecycle
  import opened Protocol
  import opened Events
  import opened Walks
  import opened Uniform
  import opened Quiescence
  import opened Dichotomy

  // ----- scripts of no, one or two calls -----

  function Ticked(sys: System): System {
    sys.(clock := sys.clock + 1)
  }

  lemma NoAttempt(sys: System, n: string, js: Scripts)
    requires n in sys.cons && js(sys.clock) == Behaviour([], true, false)
    ensures RunJs(sys, n, js) == (Ticked(sys), true)
  {
    assert RunAttempts(Ticked(sys), n, []) == (Ticked(sys), true);
  }

  lemma CallsOn(sys: System, n: string, attempts: seq<Attempt>, s: System, threw: bool)
    requires n in sys.cons && attempts != [] && PerformIn(sys, n, attempts[0].act) == (s, threw) && (threw ==> attempts[0].caught)
    ensures n in s.cons && RunAttempts(sys, n, attempts) == RunAttempts(s, n, attempts[1..])
  {
  }

  lemma OneCall(sys: System, n: string, attempts: seq<Attempt>, s: System, threw: bool)
    requires n in sys.cons && |attempts| == 1 && PerformIn(sys, n, attempts[0].act) == (s, threw) && (threw ==> attempts[0].caught)
    ensures RunAttempts(sys, n, attempts) == (s, true)
  {
    CallsOn(sys, n, attempts, s, threw);
    NoCall(s, n, attempts[1..]);
  }

  lemma NoCall(s: System, n: string, attempts: seq<Attempt>)
    requires n in s.cons && attempts == []
    ensures RunAttempts(s, n, attempts) == (s, true)
  {
  }

  lemma OneAttempt(sys: System, n: string, js: Scripts, t: Attempt, s: System, threw: bool)
    requires n in sys.cons && js(sys.clock) == Behaviour([t], true, false)
    requires PerformIn(Ticked(sys), n, t.act) == (s, threw) && (threw ==> t.caught)
    ensures RunJs(sys, n, js) == (s, true)
  {
    OneCall(Ticked(sys), n, [t], s, threw);
  }

  lemma TwoAttempts(sys: System, n: string, js: Scripts, t: Attempt, u: Attempt, m: System, threw: bool, s: System, threw': bool)
    requires n in sys.cons && js(sys.clock) == Behaviour([t, u], true, false)
    requires PerformIn(Ticked(sys), n, t.act) == (m, threw) && (threw ==> t.caught)
    requires n in m.cons && PerformIn(m, n, u.act) == (s, threw') && (threw' ==> u.caught)
    ensures RunJs(sys, n, js) == (s, true)
  {
    assert [t, u][1..] == [u];
    CallsOn(Ticked(sys), n, [t, u], m, threw);
    OneCall(m, n, [u], s, threw');
  }

  /** A call that concerns its console alone and sets no activity bit. */
  lemma LocalCall(sys: System, n: string, a: Act, o: Outcome, s: System)
    requires IsLocal(a) && n in sys.cons && o == Perform(sys.cons[n], a, sys.nextId) && BitsSet(a, o) == {}
    requires s == With(sys, n, o.c).(nextId := o.nextId)
    ensures PerformIn(sys, n, a) == (s, o.threw)
  {
    assert sys.active + {} == sys.active;
  }

  // ----- a main script -----

  /** The main script of console n, s being what its calls have led to. */
  lemma MainIs(sys: System, n: string, brief: Brief, js: Scripts, s: System, ok: bool)
    requires n in sys.cons && (s, ok) == RunJs(Started(sys, n, brief), n, js)
    ensures n in s.cons
    ensures var (c, outcome) := Afterwards(s.cons[n].(runningMain := false), ok);
            RunMain(WithBrief(sys, n, brief), n, js) == (With(s, n, c), outcome)
  {
    StartedSame(sys, n, brief);
    var c2 := s.cons[n].(runningMain := false);
    var (c, outcome) := Afterwards(c2, ok);
    assert s.cons[n := c2][n := c] == s.cons[n := c];
  }

  /** It leaves more to do. */
  lemma StaysBusy(sys: System, n: string, brief: Brief, js: Scripts, s: System)
    requires AllSettled(sys) && n in sys.cons && (s, true) == RunJs(Started(sys, n, brief), n, js) && n in s.cons
    requires Afterwards(s.cons[n].(runningMain := false), true).1 == MoreToDo
    ensures StartScript(sys, n, brief, js) == With(s, n, Afterwards(s.cons[n].(runningMain := false), true).0)
  {
    MainIs(sys, n, brief, js, s, true);
    var (c, outcome) := Afterwards(s.cons[n].(runningMain := false), true);
    BusyIsMoreToDo(s.cons[n].(runningMain := false), true);
    AskBusySame(With(s, n, c), n, true);
  }

  /** Pressing the button of a console that has never run: from s0, its script leads to s with
      more to do, and so to t. */
  lemma FirstPress(sys: System, n: string, js: Scripts, s0: System, s: System, c: ConsoleState, t: System)
    requires AllSettled(sys) && n in sys.cons && sys.cons[n].brief == Brief(0, "", false) && sys.cons[n].button == Run
    requires s0 == Started(sys, n, Brief(0, "", false)) && (s, true) == RunJs(s0, n, js) && n in s.cons
    requires Afterwards(s.cons[n].(runningMain := false), true) == (c, MoreToDo) && t == With(s, n, c)
    ensures Step(sys, RunButton(n), js) == Some(t)
  {
    PressIs(sys, n, js);
    StaysBusy(sys, n, Brief(0, "", false), js, s);
  }

  /** The run that comes up finds its console idle. */
  lemma PendingIs(sys: System, n: string, brief: Brief, js: Scripts)
    requires AllSettled(sys) && sys.pending != [] && sys.pending[0] == (n, brief) && n in sys.cons && sys.cons[n].button == Run
    ensures RunPending(sys, js) == RunToEnd(WithBrief(Popped(sys), n, brief), n, js)
  {
  }

  /** It ends with nothing more to do, and the reply is due. */
  lemma ComesUp(sys: System, n: string, brief: Brief, js: Scripts, s: System, d: System)
    requires AllSettled(sys) && sys.pending != [] && sys.pending[0] == (n, brief) && n in sys.cons && sys.cons[n].button == Run
    requires RunMain(WithBrief(Popped(sys), n, brief), n, js) == (s, Done) && Amid(s, n) && IsBusy(s.cons[n]) == (s.cons[n], false)
    requires Due(d, n) && WrapUp(s, n, Done, js) == Reply(d, n, Done, js)
    ensures RunPending(sys, js) == Reply(d, n, Done, js)
  {
    PendingIs(sys, n, brief, js);
    EndsAtOnce(WithBrief(Popped(sys), n, brief), n, js, s);
  }

  lemma StepPending(sys: System, js: Scripts)
    requires AllSettled(sys)
    ensures Step(sys, PendingRun, js) == Some(RunPending(sys, js))
  {
  }

  /** A main script that ends with nothing more to do. */
  lemma EndsAtOnce(sys: System, n: string, js: Scripts, s: System)
    requires n in sys.cons && SettledBut(sys, n) && RunMain(sys, n, js) == (s, Done) && Amid(s, n)
    requires IsBusy(s.cons[n]) == (s.cons[n], false)
    ensures RunToEnd(sys, n, js) == WrapUp(s, n, Done, js)
  {
    AskBusySame(s, n, false);
  }

  lemma PressIs(sys: System, n: string, js: Scripts)
    requires AllSettled(sys) && n in sys.cons && !sys.cons[n].brief.hasBrief && sys.cons[n].button == Run
    ensures PressRun(sys, n, js) == StartScript(sys, n, sys.cons[n].brief, js)
  {
    assert sys.cons[n].(brief := sys.cons[n].brief.(hasBrief := false)) == sys.cons[n];
    assert With(sys, n, sys.cons[n]) == sys;
  }

  lemma OneEvent(sys: System, e: Event, js: Scripts)
    requires AllSettled(sys)
    ensures RunEvents(sys, [e], js) == Step(sys, e, js)
  {
    assert [e][1..] == [];
    var s := Step(sys, e, js);
    if s.Some? {
      assert RunEvents(s.value, [], js) == s;
    }
  }

  lemma TwoEvents(sys: System, d: Event, e: Event, js: Scripts, s: System)
    requires AllSettled(sys) && Step(sys, d, js) == Some(s) && AllSettled(s)
    ensures RunEvents(sys, [d, e], js) == Step(s, e, js)
  {
    assert [d, e][1..] == [e];
    OneEvent(s, e, js);
  }

  lemma ThreeEvents(sys: System, c: Event, d: Event, e: Event, js: Scripts, s: System, t: System)
    requires AllSettled(sys) && Step(sys, c, js) == Some(s) && AllSettled(s) && Step(s, d, js) == Some(t) && AllSettled(t)
    ensures RunEvents(sys, [c, d, e], js) == Step(t, e, js)
  {
    assert [c, d, e][1..] == [d, e];
    TwoEvents(s, d, e, js, t);
  }

  // ----- a console on its own -----

  /** The only console, as the first press of its button starts its script. */
  function Alone(clock: nat, c: ConsoleState): System {
    System(map["A" := c], ["A"], 1, [], {}, clock, [])
  }

  const STARTED := NEW_CONSOLE.(ctx := true, runningMain := true, button := Stop)

  lemma AloneBegins()
    ensures var sys := Start(["A"]); "A" in sys.cons && sys.cons["A"] == NEW_CONSOLE && Started(sys, "A", Brief(0, "", false)) == Alone(0, STARTED)
  {
    assert Started(Start(["A"]), "A", Brief(0, "", false)).cons == Alone(0, STARTED).cons;
  }

  // ----- A awaits the result of B -----

  /** The console that has awaited the result of another, with more to do. */
  function Awaiting(callable: bool): ConsoleState {
    NEW_CONSOLE.(ctx := true, callbacks := [AwaitEntry(1, callable)], cached := true, waiting := true, button := Stop)
  }

  /** What the first press of the button of A leads to, its script awaiting the result of B. */
  function AwaitingSystem(callable: bool): System {
    System(map["A" := Awaiting(callable), "B" := NEW_CONSOLE.(cached := true)], ["A", "B"], 2, [("B", Brief(1, "A", false))], {}, 1, [])
  }

  /** In the middle of that script, before and after its call. */
  function AwaitBegun(clock: nat): System {
    System(map["A" := NEW_CONSOLE.(ctx := true, runningMain := true, button := Stop), "B" := NEW_CONSOLE], ["A", "B"], 1, [], {}, clock, [])
  }

  function AwaitCalled(callable: bool): System {
    AwaitingSystem(callable).(cons := map["A" := Awaiting(callable).(cached := false, waiting := false, runningMain := true),
                                          "B" := NEW_CONSOLE.(cached := true)])
  }

  lemma FirstAwait(callable: bool, js: Scripts)
    requires js(0) == Behaviour([Attempt(AwaitResult("B", callable, false), false)], true, false)
    ensures Step(Start(["A", "B"]), RunButton("A"), js) == Some(AwaitingSystem(callable))
  {
    AwaitBegins();
    AwaitJs(callable, js, AwaitBegun(0), AwaitCalled(callable));
    AwaitEnds(callable);
    FirstPress(Start(["A", "B"]), "A", js, AwaitBegun(0), AwaitCalled(callable), Awaiting(callable), AwaitingSystem(callable));
  }

  lemma AwaitBegins()
    ensures var sys := Start(["A", "B"]); "A" in sys.cons && sys.cons["A"] == NEW_CONSOLE && Started(sys, "A", Brief(0, "", false)) == AwaitBegun(0)
  {
    assert Started(Start(["A", "B"]), "A", Brief(0, "", false)).cons == AwaitBegun(0).cons;
  }

  lemma AwaitJs(callable: bool, js: Scripts, s0: System, s1: System)
    requires js(0) == Behaviour([Attempt(AwaitResult("B", callable, false), false)], true, false)
    requires s0 == AwaitBegun(0) && s1 == AwaitCalled(callable)
    ensures "A" in s0.cons && RunJs(s0, "A", js) == (s1, true)
  {
    FirstAwaitCall(Ticked(s0), callable, s1);
    OneAttempt(s0, "A", js, Attempt(AwaitResult("B", callable, false), false), s1, false);
  }

  lemma AwaitEnds(callable: bool)
    ensures var c := AwaitCalled(callable).cons["A"].(runningMain := false);
            && Afterwards(c, true) == (Awaiting(callable), MoreToDo)
            && With(AwaitCalled(callable), "A", Awaiting(callable)) == AwaitingSystem(callable)
  {
    assert AwaitCalled(callable).cons["A" := Awaiting(callable)] == AwaitingSystem(callable).cons;
  }

  lemma FirstAwaitCall(s: System, callable: bool, s': System)
    requires s == AwaitBegun(1) && s' == AwaitCalled(callable)
    ensures PerformIn(s, "A", AwaitResult("B", callable, false)) == (s', false)
  {
    var c := s.cons["A"];
    var e := AwaitEntry(1, callable);
    assert c.callbacks + [e] == [e];
    var o := NewCallbackEntry(c, e, 1);
    var s1 := With(s, "A", o.c).(nextId := 2);
    var b := s1.cons["B"];
    assert IsBusy(b) == (b.(cached := true), false);
    assert With(s1, "B", b.(cached := true)).cons == s'.cons;
    assert s1.pending + [("B", Brief(1, "A", false))] == s'.pending;
    assert AskToRun(s1, "A", "B", Brief(1, "A", false)) == (s', false);
  }
}
