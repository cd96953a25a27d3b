/** How scripts break what is otherwise kept between events, each by a run from the start, and
    exactly when. */
module Exceptions {
  import opened Wrappers
  import opened Callbacks
  import opened Lifecycle
  import opened Protocol
  import opened Events
  import opened Walks
  import opened Uniform
  import opened Carriers
  import opened Replies
  import opened Dropped
  import opened Obligations
  import opened Quiescence
  import opened Dichotomy
  import opened Scenarios

  // ----- a caught error that clears the console -----

  /** A script that reads a dialogue that does not exist, catches the error and raises an
      alert. */
  function CatchingScript(k: nat): Behaviour {
    Behaviour([Attempt(ReadDialogue(7), true), Attempt(ShowAlert, false)], true, false)
  }

  lemma AloneCall(clock: nat, c: ConsoleState, a: Act, o: Outcome)
    requires IsLocal(a) && o == Perform(c, a, 1) && o.nextId == 1 && BitsSet(a, o) == {}
    ensures PerformIn(Alone(clock, c), "A", a) == (Alone(clock, o.c), o.threw)
  {
    assert Alone(clock, c).cons["A" := o.c] == Alone(clock, o.c).cons;
    LocalCall(Alone(clock, c), "A", a, o, Alone(clock, o.c));
  }

  lemma AlonePress(js: Scripts, c: ConsoleState, c': ConsoleState)
    requires RunJs(Alone(0, STARTED), "A", js) == (Alone(1, c), true)
    requires Afterwards(c.(runningMain := false), true) == (c', MoreToDo)
    ensures Step(Start(["A"]), RunButton("A"), js) == Some(Alone(1, c'))
  {
    AloneBegins();
    assert Alone(1, c).cons["A" := c'] == Alone(1, c').cons;
    FirstPress(Start(["A"]), "A", js, Alone(0, STARTED), Alone(1, c), c', Alone(1, c'));
  }

  lemma AloneFirst(js: Scripts, c: ConsoleState, c': ConsoleState)
    requires RunJs(Alone(0, STARTED), "A", js) == (Alone(1, c), true)
    requires Afterwards(c.(runningMain := false), true) == (c', MoreToDo)
    ensures RunEvents(Start(["A"]), [RunButton("A")], js) == Some(Alone(1, c'))
  {
    AlonePress(js, c, c');
    OneEvent(Start(["A"]), RunButton("A"), js);
  }

  /** It leaves its console waiting, with a live context, but with the button saying Run: the
      next press starts the script over instead of stopping it. */
  lemma CaughtErrorLeavesRunButton()
    ensures var r := RunEvents(Start(["A"]), [RunButton("A")], CatchingScript);
            && r.Some? && "A" in r.value.cons
            && var c := r.value.cons["A"];
               Lingering(c) && c.button == Run && !Idle(c) && !Waiting(c)
  {
    var c1 := STARTED;
    var c2 := PrepForThrow(ClearCallbacks(c1));
    var c3 := c2.(alert := true, cached := true, waiting := true);
    AloneCall(1, c1, ReadDialogue(7), ReadBack(c1, 7, 1));
    AloneCall(1, c2, ShowAlert, Outcome(c3, false, 1));
    TwoAttempts(Alone(0, c1), "A", CatchingScript, Attempt(ReadDialogue(7), true), Attempt(ShowAlert, false), Alone(1, c2), true, Alone(1, c3), false);
    AloneFirst(CatchingScript, c3, c3);
  }

  // ----- a caught refusal of a message box -----

  /** A script that shows a message box, which is refused, and catches the error. */
  function RefusedScript(k: nat): Behaviour {
    Behaviour([Attempt(MessageBox(Declined), true)], true, false)
  }

  /** It leaves its console waiting, although no box is open, nothing is registered and no
      alert is on display: no listener, dialogue or alert can wake it. */
  lemma RefusedBoxStrands()
    ensures var r := RunEvents(Start(["A"]), [RunButton("A")], RefusedScript);
            && r.Some? && "A" in r.value.cons
            && Waiting(r.value.cons["A"]) && !CanWake(r.value.cons["A"])
            && Step(r.value, AlertDismissed("A"), RefusedScript) == r
            && forall id :: Step(r.value, Listener("A", id), RefusedScript) == r && Step(r.value, DialogueButton("A", id), RefusedScript) == r
  {
    var c := STARTED.(msgBox := true, runningMain := false);
    AloneCall(1, STARTED, MessageBox(Declined), Outcome(c, true, 1));
    OneAttempt(Alone(0, STARTED), "A", RefusedScript, Attempt(MessageBox(Declined), true), Alone(1, c), true);
    AloneFirst(RefusedScript, c, c.(cached := true, waiting := true));
    NothingHappens(Alone(1, c.(cached := true, waiting := true)), "A", RefusedScript);
  }

  lemma NothingHappens(sys: System, n: string, js: Scripts)
    requires AllSettled(sys) && n in sys.cons && !CanWake(sys.cons[n])
    ensures Step(sys, AlertDismissed(n), js) == Some(sys)
    ensures forall id :: Step(sys, Listener(n, id), js) == Some(sys) && Step(sys, DialogueButton(n, id), js) == Some(sys)
  {
  }

  // ----- a reply to something that cannot be called -----

  /** The reply to a registration whose stored value is not callable takes the entry from the
      console that registered but leaves its cached answer that it is waiting; that console is
      as it should be if and only if it had something else to wait for. */
  lemma UncallableReply(sys: System, n: string, reason: Completion, js: Scripts)
    requires Due(sys, n) && sys.cons[n].brief.caller in sys.cons && Waiting(sys.cons[sys.cons[n].brief.caller])
    requires Collect(sys, n).1.Some? && Collect(sys, n).1.value.handler != Callable
    ensures var caller := sys.cons[n].brief.caller;
            var before, after := sys.cons[caller], Reply(sys, n, reason, js).cons[caller];
            && |after.callbacks| == |before.callbacks| - 1 && after.ctx && after.cached && after.waiting
            && (Quiescent(after) <==> |before.callbacks| > 1 || before.alert || before.msgBox)
  {
    var caller := sys.cons[n].brief.caller;
    var t := Delivered(sys, n, reason);
    var e := Collect(sys, n).1.value;
    assert Execute(t, caller, e.handler, js) == (t, HadError);
    AskBusySame(ReplyDone(t, n), caller, true);
    HandOverUnfolds(sys, n, reason, js);
  }

  /** A awaits the result of B with something that is no function; B does nothing. */
  function UncallableScripts(k: nat): Behaviour {
    if k == 0 then Behaviour([Attempt(AwaitResult("B", false, false), false)], true, false) else Behaviour([], true, false)
  }

  /** A awaits the result of B, of which B has been told. */
  function Told(b: ConsoleState, clock: nat): System {
    System(map["A" := Awaiting(false), "B" := b], ["A", "B"], 2, [], {}, clock, [])
  }

  const TOLD_BRIEF := Brief(1, "A", false)

  lemma ToldBegins()
    ensures "B" in AwaitingSystem(false).cons && Started(Popped(AwaitingSystem(false)), "B", TOLD_BRIEF) == Told(STARTED.(brief := TOLD_BRIEF), 1)
  {
    assert Started(Popped(AwaitingSystem(false)), "B", TOLD_BRIEF).cons == Told(STARTED.(brief := TOLD_BRIEF), 1).cons;
  }

  /** The script of B runs and ends. */
  lemma ToldRuns(js: Scripts, b: ConsoleState)
    requires js(1) == Behaviour([], true, false) && b == STARTED.(brief := TOLD_BRIEF, runningMain := false, cached := true)
    ensures "B" in AwaitingSystem(false).cons
    ensures RunMain(WithBrief(Popped(AwaitingSystem(false)), "B", TOLD_BRIEF), "B", js) == (Told(b, 2), Done)
  {
    ToldBegins();
    var c := STARTED.(brief := TOLD_BRIEF);
    NoAttempt(Told(c, 1), "B", js);
    MainIs(Popped(AwaitingSystem(false)), "B", TOLD_BRIEF, js, Told(c, 2), true);
    assert Afterwards(c.(runningMain := false), true) == (b, Done);
    assert Told(c, 2).cons["B" := b] == Told(b, 2).cons;
  }

  /** B is wrapped up and its reply is due. */
  lemma ToldEnds(js: Scripts, b: ConsoleState, d: ConsoleState)
    requires b == STARTED.(brief := TOLD_BRIEF, runningMain := false, cached := true)
    requires d == NEW_CONSOLE.(brief := TOLD_BRIEF, cached := true, status := {Done})
    ensures Due(Told(d, 2), "B")
    ensures Amid(Told(b, 2), "B") && WrapUp(Told(b, 2), "B", Done, js) == Reply(Told(d, 2), "B", Done, js)
  {
    var s := Told(b, 2);
    EndsQuietly(s, "B", Done, js);
    ToldDown(s, b, d);
  }

  lemma ToldDown(s: System, b: ConsoleState, d: ConsoleState)
    requires b == STARTED.(brief := TOLD_BRIEF, runningMain := false, cached := true) && s == Told(b, 2)
    requires d == NEW_CONSOLE.(brief := TOLD_BRIEF, cached := true, status := {Done})
    ensures AskBusy(Down(WithReason(s, "B", Done), "B"), "B").0 == Told(d, 2)
  {
    var t := WithReason(s, "B", Done);
    assert t.cons["B"].status == {Done};
    assert AskBusy(Down(t, "B"), "B").0.cons == Told(d, 2).cons;
  }

  lemma AwaitReady()
    ensures var m := AwaitingSystem(false);
            AllSettled(m) && m.pending != [] && m.pending[0] == ("B", TOLD_BRIEF) && "B" in m.cons && m.cons["B"].button == Run
  {
  }

  lemma ToldComesUp(js: Scripts, d: ConsoleState)
    requires js(1) == Behaviour([], true, false) && d == NEW_CONSOLE.(brief := TOLD_BRIEF, cached := true, status := {Done})
    ensures Due(Told(d, 2), "B") && RunPending(AwaitingSystem(false), js) == Reply(Told(d, 2), "B", Done, js)
  {
    var b := STARTED.(brief := TOLD_BRIEF, runningMain := false, cached := true);
    ToldRuns(js, b);
    ToldEnds(js, b, d);
    AwaitReady();
    ComesUp(AwaitingSystem(false), "B", TOLD_BRIEF, js, Told(b, 2), Told(d, 2));
  }

  /** Such a run: A is left alive with nothing to wait for, while its cached answer is still
      that it is waiting, so that nothing will ever wrap it up but its button. */
  lemma UncallableRun()
    ensures var r := RunEvents(Start(["A", "B"]), [RunButton("A"), PendingRun], UncallableScripts);
            && r.Some? && "A" in r.value.cons
            && var c := r.value.cons["A"];
               c.ctx && !WaitingNow(c) && c.cached && c.waiting && !Quiescent(c)
  {
    var d := NEW_CONSOLE.(brief := TOLD_BRIEF, cached := true, status := {Done});
    UncallableEvents(d);
    Uncalled(d);
  }

  lemma Uncalled(d: ConsoleState)
    requires d == NEW_CONSOLE.(brief := TOLD_BRIEF, cached := true, status := {Done})
    ensures Due(Told(d, 2), "B") && "A" in Reply(Told(d, 2), "B", Done, UncallableScripts).cons
    ensures var c := Reply(Told(d, 2), "B", Done, UncallableScripts).cons["A"];
            c.ctx && !WaitingNow(c) && c.cached && c.waiting && !Quiescent(c)
  {
    ToldFound(d);
    UncallableReply(Told(d, 2), "B", Done, UncallableScripts);
  }

  lemma UncallableEvents(d: ConsoleState)
    requires d == NEW_CONSOLE.(brief := TOLD_BRIEF, cached := true, status := {Done})
    ensures Due(Told(d, 2), "B")
    ensures RunEvents(Start(["A", "B"]), [RunButton("A"), PendingRun], UncallableScripts) == Some(Reply(Told(d, 2), "B", Done, UncallableScripts))
  {
    FirstAwait(false, UncallableScripts);
    TwoEvents(Start(["A", "B"]), RunButton("A"), PendingRun, UncallableScripts, AwaitingSystem(false));
    ToldComesUp(UncallableScripts, d);
    StepPending(AwaitingSystem(false), UncallableScripts);
  }

  lemma ToldFound(d: ConsoleState)
    requires d == NEW_CONSOLE.(brief := TOLD_BRIEF, cached := true, status := {Done})
    ensures Due(Told(d, 2), "B") && Waiting(Told(d, 2).cons["A"]) && |Told(d, 2).cons["A"].callbacks| == 1
    ensures Collect(Told(d, 2), "B").1 == Some(AwaitEntry(1, false))
  {
  }

  /** Wrapping up normally a console without an exit handler. */
  lemma EndsQuietly(sys: System, n: string, reason: Completion, js: Scripts)
    requires Amid(sys, n) && reason in {Done, Stopped} && sys.cons[n].exitHandler == Missing
    ensures Amid(WithReason(sys, n, reason), n)
    ensures var d := AskBusy(Down(WithReason(sys, n, reason), n), n).0;
            Downed(d, n) && WrapUp(sys, n, reason, js) == Reply(d, n, reason, js)
  {
    var s := WithReason(sys, n, reason);
    FinishUnfolds(s, n, reason, js);
    GoesToFinish(sys, s, n, reason, js);
  }

  lemma GoesToFinish(sys: System, s: System, n: string, reason: Completion, js: Scripts)
    requires Amid(sys, n) && reason in {Done, Stopped} && sys.cons[n].exitHandler == Missing && s == WithReason(sys, n, reason)
    ensures Amid(s, n) && WrapUp(sys, n, reason, js) == Finish(s, n, reason, js)
  {
    WrapsToNormalEnd(sys, s, n, reason, js);
    NormalEndOnly(s, n, reason, js);
  }

  // ----- a reply that is lost -----

  /** A awaits the result of B with a function; B sets a timer. */
  function LosingScripts(k: nat): Behaviour {
    if k == 0 then Behaviour([Attempt(AwaitResult("B", true, false), false)], true, false)
    else Behaviour([Attempt(Register(Timer, false, "", {}), false)], true, false)
  }

  const TIMER_ENTRY := Entry(2, Timer, false, Callable, [], 0, "", {})

  /** What pressing the button of B leads to, before its pending run has come up. */
  function BothBusy(): System {
    System(map["A" := Awaiting(true), "B" := STARTED.(callbacks := [TIMER_ENTRY], runningMain := false, cached := true, waiting := true)],
           ["A", "B"], 3, [("B", Brief(1, "A", false))], {}, 2, [])
  }

  lemma TimerBegins()
    ensures var sys := AwaitingSystem(true); Started(sys, "B", Brief(0, "", false)) == BothBusy().(cons := map["A" := Awaiting(true), "B" := STARTED], nextId := 2, clock := 1)
  {
    assert Started(AwaitingSystem(true), "B", Brief(0, "", false)).cons == map["A" := Awaiting(true), "B" := STARTED];
  }

  /** In the middle of the script of B. */
  function TimerCalled(): System {
    BothBusy().(cons := map["A" := Awaiting(true), "B" := STARTED.(callbacks := [TIMER_ENTRY])])
  }

  lemma SecondPress(js: Scripts)
    requires js(1) == LosingScripts(1)
    ensures Step(AwaitingSystem(true), RunButton("B"), js) == Some(BothBusy())
  {
    var sys := AwaitingSystem(true);
    var s0 := Started(sys, "B", Brief(0, "", false));
    TimerSet(Ticked(s0), TimerCalled());
    OneAttempt(s0, "B", js, Attempt(Register(Timer, false, "", {}), false), TimerCalled(), false);
    assert TimerCalled().cons["B" := BothBusy().cons["B"]] == BothBusy().cons;
    FirstPress(sys, "B", js, s0, TimerCalled(), BothBusy().cons["B"], BothBusy());
  }

  lemma TimerSet(s: System, s': System)
    requires s == Ticked(Started(AwaitingSystem(true), "B", Brief(0, "", false)))
    requires s' == TimerCalled()
    ensures PerformIn(s, "B", Register(Timer, false, "", {})) == (s', false)
  {
    TimerBegins();
    assert STARTED.callbacks + [TIMER_ENTRY] == [TIMER_ENTRY];
    var o := Perform(STARTED, Register(Timer, false, "", {}), 2);
    assert o == Outcome(STARTED.(callbacks := [TIMER_ENTRY]), false, 3);
    assert With(s, "B", o.c).cons == s'.cons;
    LocalCall(s, "B", Register(Timer, false, "", {}), o, s');
  }

  /** The run of B that comes up is dropped, and B is stopped. */
  lemma ThirdEvent(js: Scripts)
    ensures Step(BothBusy(), PendingRun, js) == Some(RunPending(BothBusy(), js)) && Forgotten(RunPending(BothBusy(), js), 1)
  {
    var sys := BothBusy();
    assert forall a :: a in Carrying(sys) ==> a in {("A", 0), ("B", 0), ("B", 1)};
    PendingLoses(sys, js, 1);
  }

  lemma OtherUntouched(js: Scripts)
    ensures "A" in RunPending(BothBusy(), js).cons && RunPending(BothBusy(), js).cons["A"] == Awaiting(true)
  {
    var s := Stopping(Popped(BothBusy()), "B");
    EndsQuietly(s, "B", Stopped, js);
  }

  /** A awaits the result of B; before the run of B that A has asked for comes up, the user
      runs B.  When it comes up, B is stopped and the brief forgotten: A waits on with its
      registration, which nobody will ever answer, whatever happens later. */
  lemma LostReply(later: seq<Event>, js: Scripts)
    requires js(0) == LosingScripts(0) && js(1) == LosingScripts(1)
    ensures var r := RunEvents(Start(["A", "B"]), [RunButton("A"), RunButton("B"), PendingRun], js);
            && r.Some? && "A" in r.value.cons && r.value.cons["A"] == Awaiting(true)
            && var t := RunEvents(r.value, later, js);
               t.Some? ==> Forgotten(t.value, 1)
  {
    FirstAwait(true, js);
    SecondPress(js);
    ThreeEvents(Start(["A", "B"]), RunButton("A"), RunButton("B"), PendingRun, js, AwaitingSystem(true), BothBusy());
    ThirdEvent(js);
    OtherUntouched(js);
    RunForgets(RunPending(BothBusy(), js), later, js, 1);
  }
}
