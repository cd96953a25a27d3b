/** A reply as the console sees it that has been waiting for it. */
module Answering {
  import opened Wrappers
  import opened Callbacks
  import opened Lifecycle
  import opened Protocol
  import opened Events
  import opened Walks
  import opened Uniform
  import opened Registrations
  import opened Quiescence
  import opened Dichotomy
  import opened Replies
  import opened Outcomes
  import opened Handling

  /** A run that has been asked for comes up while its console is idle.  If it ends for good and does
      not chain, the reply it owes is attempted with the reason it has ended for: delivered, the
      handler registered for it being called, if the console that has asked for it still has its
      registration, and otherwise in vain. */
  lemma ReplyArrives(sys: System, js: Scripts, s0: System) returns (s1: System, outcome: Completion)
    requires AllSettled(sys) && sys.pending != [] && sys.pending[0].0 in sys.cons && sys.cons[sys.pending[0].0].button == Run
    requires var (n, brief) := sys.pending[0]; s0 == With(sys.(pending := sys.pending[1..]), n, Begun(sys.cons[n], brief))
    ensures var n := sys.pending[0].0;
            && Carries(s0, s1, n) && Results(s0, n, js, s1.cons[n], outcome) && Amid(s1, n)
            && var reported := Reported(outcome, ExitOutcome(s1, n, outcome, js));
               outcome != MoreToDo && reported != ToChain ==> Answers(sys.log, n, DebtOf(s0, n), reported)(RunPending(sys, js).log)
  {
    var n := sys.pending[0].0;
    s1, outcome := PendingHandled(sys, js);
    CarriesDebt(s0, s1, n);
    var reported := Reported(outcome, ExitOutcome(s1, n, outcome, js));
    if outcome != MoreToDo && reported != ToChain {
      HandledAnswers(s1, n, outcome, js, RunPending(sys, js));
    }
  }

  lemma HandledAnswers(s: System, n: string, outcome: Completion, js: Scripts, t: System)
    requires Amid(s, n) && Handled(s, n, outcome, js)(t) && outcome != MoreToDo
    requires Reported(outcome, ExitOutcome(s, n, outcome, js)) != ToChain
    ensures Answers(s.log, n, DebtOf(s, n), Reported(outcome, ExitOutcome(s, n, outcome, js)))(t.log)
  {
    assert Sends(s, n, Reported(outcome, ExitOutcome(s, n, outcome, js)))(t);
  }

  // ----- the handler of a reply -----

  /** A reply is due and the registration still there: the handler of the registration is called,
      its console having lost the registration, and what follows is as for every other handler. */
  lemma ReplyCalled(sys: System, n: string, reason: Completion, js: Scripts, e: Entry) returns (s0: System, s1: System, outcome: Completion)
    requires Due(sys, n) && Collect(sys, n).1 == Some(e) && e.handler == Callable && UniqueIds(sys.cons[sys.cons[n].brief.caller].callbacks)
    requires HadError !in sys.cons[sys.cons[n].brief.caller].status
    ensures var caller := sys.cons[n].brief.caller;
            && caller in s0.cons && s0.cons[caller].callbacks == Keep(sys.cons[caller].callbacks, {sys.cons[n].brief.callbackId})
            && s0.log == sys.log + [Replied(n, sys.cons[n].brief.callbackId, reason, true), Fired(caller, e.id, e.persistent)]
            && s1.clock == sys.clock + 1 && Carries(s0, s1, caller) && Results(s0, caller, js, s1.cons[caller], outcome)
            && n in s1.cons && var t := ReplyDone(s1, n);
               Amid(t, caller) && Handled(t, caller, outcome, js)(Reply(sys, n, reason, js))
  {
    var caller := sys.cons[n].brief.caller;
    var d := Delivered(sys, n, reason);
    DeliveredRegistry(sys, n, reason, e);
    s0 := Entered(d, caller);
    var r := Execute(d, caller, Callable, js);
    s1, outcome := r.0, r.1;
    HandlerResults(d, caller, Callable, js);
    ExecuteFrom(d, caller, js);
    AnswerHandled(d, n, e, js, s1, outcome);
    HandOverGoes(sys, n, reason, e, js, s1, outcome);
  }

  lemma DeliveredRegistry(sys: System, n: string, reason: Completion, e: Entry)
    requires Due(sys, n) && Collect(sys, n).1 == Some(e) && UniqueIds(sys.cons[sys.cons[n].brief.caller].callbacks)
    ensures var caller, d := sys.cons[n].brief.caller, Delivered(sys, n, reason);
            && d.cons[caller].callbacks == Keep(sys.cons[caller].callbacks, {sys.cons[n].brief.callbackId})
            && d.cons[caller].status == sys.cons[caller].status && !d.cons[caller].runningMain && d.clock == sys.clock
            && d.log == sys.log + [Replied(n, sys.cons[n].brief.callbackId, reason, true), Fired(caller, e.id, e.persistent)]
  {
    var caller := sys.cons[n].brief.caller;
    GetForcedKeeps(sys.cons[caller].callbacks, sys.cons[n].brief.callbackId);
  }

  /** The handler has been called from state d on, which has led to s1. */
  lemma AnswerHandled(d: System, n: string, e: Entry, js: Scripts, s1: System, outcome: Completion)
    requires Downed(d, n) && d.cons[n].brief.caller in d.cons && d.cons[d.cons[n].brief.caller].ctx && e.handler == Callable
    requires HadError !in d.cons[d.cons[n].brief.caller].status && !d.cons[d.cons[n].brief.caller].runningMain
    requires (s1, outcome) == Execute(d, d.cons[n].brief.caller, Callable, js)
    ensures var caller, t := d.cons[n].brief.caller, ReplyDone(s1, n);
            && Amid(t, caller) && !t.cons[caller].runningMain && IsBusy(t.cons[caller]) == (t.cons[caller], outcome == MoreToDo)
            && Answer(d, n, e, js) == (t, outcome == MoreToDo, outcome)
  {
    var caller := d.cons[n].brief.caller;
    HandlerBusy(d, caller, js);
    CarriesSettled(d, s1, caller);
    assert Touched(d.cons[n], s1.cons[n]);
    AskBusySame(ReplyDone(s1, n), caller, outcome == MoreToDo);
  }

  lemma HandOverGoes(sys: System, n: string, reason: Completion, e: Entry, js: Scripts, s1: System, outcome: Completion)
    requires Due(sys, n) && Collect(sys, n).1 == Some(e) && n in s1.cons && sys.cons[n].brief.caller in s1.cons
    requires Amid(ReplyDone(s1, n), sys.cons[n].brief.caller)
    requires Answer(Delivered(sys, n, reason), n, e, js) == (ReplyDone(s1, n), outcome == MoreToDo, outcome)
    ensures Handled(ReplyDone(s1, n), sys.cons[n].brief.caller, outcome, js)(Reply(sys, n, reason, js))
  {
    var t, caller := ReplyDone(s1, n), sys.cons[n].brief.caller;
    HandOverUnfolds(sys, n, reason, js);
    if outcome != MoreToDo {
      WrapUpHandled(t, caller, outcome, js);
    }
  }

  // ----- exit handlers -----

  /** The exit handler of a console that ends normally finds its console as it was, the status
      saying why it ends and that it is in its exit handler; what it comes to is read off its calls
      as for every other handler. */
  lemma ExitFound(sys: System, n: string, reason: Completion, js: Scripts, s0: System)
    requires Amid(sys, n) && reason in {Done, Stopped, ToChain} && sys.cons[n].exitHandler == Callable && HadError !in sys.cons[n].status
    requires var c := sys.cons[n];
             s0 == With(sys, n, c.(cached := false, status := c.status - {MoreToDo} + {reason} - {Done, TimedOut} + {InExit}))
    ensures var o := ExitOutcome(sys, n, reason, js);
            o.Some? && Results(s0, n, js, RunExit(WithReason(sys, n, reason), n, js).0.cons[n], o.value)
  {
    var s := WithReason(sys, n, reason);
    ReasonThen(sys, n, reason, s0.cons[n]);
    ExitFrom(s, n, js, s0);
    ExitOutcomeIs(sys, n, reason, js);
  }

  lemma ExitOutcomeIs(sys: System, n: string, reason: Completion, js: Scripts)
    requires Amid(sys, n) && reason in {Done, Stopped, ToChain} && sys.cons[n].exitHandler == Callable
    ensures Amid(WithReason(sys, n, reason), n) && ExitOutcome(sys, n, reason, js) == Some(RunExit(WithReason(sys, n, reason), n, js).1)
  {
  }

  lemma ExitFrom(s: System, n: string, js: Scripts, s0: System)
    requires Amid(s, n) && HadError !in s.cons[n].status && s.cons[n].exitHandler == Callable
    requires s0 == With(s, n, s.cons[n].(cached := false, status := s.cons[n].status - {Done, TimedOut} + {InExit}))
    ensures var (t, o) := RunExit(s, n, js); Results(s0, n, js, t.cons[n], o)
  {
    ExitResults(s, n, js);
  }

  lemma ReasonThen(sys: System, n: string, reason: Completion, c: ConsoleState)
    requires n in sys.cons
    requires c == sys.cons[n].(cached := false, status := sys.cons[n].status - {MoreToDo} + {reason} - {Done, TimedOut} + {InExit})
    ensures var s := WithReason(sys, n, reason);
            && c == s.cons[n].(cached := false, status := s.cons[n].status - {Done, TimedOut} + {InExit})
            && With(s, n, c) == With(sys, n, c) && s.clock == sys.clock
  {
    var s := WithReason(sys, n, reason);
    assert s.cons[n := c] == sys.cons[n := c];
  }
}
