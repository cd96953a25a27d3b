/** What is kept at every moment alike: the single steps that are left to prove of it. */
module Uniform {
  import opened Wrappers
  import opened Callbacks
  import opened Lifecycle
  import opened Protocol
  import opened Events
  import opened Walks

  /** The same registrations, owed to and by the same consoles. */
  predicate SameStake(c: ConsoleState, c': ConsoleState) {
    c'.callbacks == c.callbacks && c'.brief.callbackId == c.brief.callbackId && c'.brief.caller == c.brief.caller
  }

  /** Nothing has changed that anyone has registered, owes or has noted. */
  ghost predicate Retold(s: System, s': System) {
    && s'.cons.Keys == s.cons.Keys && s'.order == s.order && s'.nextId == s.nextId && s'.pending == s.pending
    && s'.log == s.log && s.active <= s'.active && s.clock <= s'.clock
    && forall n :: n in s.cons ==> SameStake(s.cons[n], s'.cons[n])
  }

  /** All the attempts scripts make are of this sort. */
  ghost predicate Makes(js: Scripts, may: Attempt -> bool) {
    forall k: nat, i :: 0 <= i < |js(k).attempts| ==> may(js(k).attempts[i])
  }

  /** Scripts that may do anything. */
  ghost function Any(): Attempt -> bool {
    (t: Attempt) => true
  }

  // ----- the single steps -----

  /** The registration at i of the console that n owes an answer to is taken and noted. */
  function HandedOver(sys: System, n: string, reason: Completion, i: nat): System
    requires n in sys.cons && sys.cons[n].brief.caller in sys.cons && i < |sys.cons[sys.cons[n].brief.caller].callbacks|
  {
    var brief := sys.cons[n].brief;
    var reg := sys.cons[brief.caller].callbacks;
    Noted(TakeEntry(sys, brief.caller, RemoveAt(reg, i)), ReplyNotes(n, brief, reason, reg[i]))
  }

  ghost predicate Due(sys: System, n: string) {
    Downed(sys, n) && sys.cons[n].brief.callbackId != 0
  }

  /** The registration that this brief is to answer is the one at i. */
  predicate Registers(sys: System, brief: Brief, i: nat) {
    && brief.caller in sys.cons && i < |sys.cons[brief.caller].callbacks|
    && sys.cons[brief.caller].callbacks[i].id == brief.callbackId
  }

  function GivenUp(sys: System, n: string, reason: Completion): System
    requires n in sys.cons
  {
    Noted(sys, [Replied(n, sys.cons[n].brief.callbackId, reason, false)])
  }

  ghost predicate CallSteps(p: System -> bool, may: Attempt -> bool) {
    && (forall s, s' {:trigger Retold(s, s')} :: p(s) && Retold(s, s') ==> p(s'))
    && (forall s, n, t {:trigger p(PerformIn(s, n, t.act).0), may(t)} :: p(s) && n in s.cons && may(t) ==> p(PerformIn(s, n, t.act).0))
  }

  ghost predicate ReplySteps(p: System -> bool) {
    && (forall s, n {:trigger p(Down(s, n))} :: p(s) && n in s.cons ==> p(Down(s, n)))
    && (forall s, n, reason {:trigger p(GivenUp(s, n, reason))} :: p(s) && Due(s, n) ==> p(GivenUp(s, n, reason)))
    && (forall s, n, reason, i: nat {:trigger p(HandedOver(s, n, reason, i))} ::
         p(s) && Due(s, n) && Registers(s, s.cons[n].brief, i) ==> p(HandedOver(s, n, reason, i)))
    && (forall s, n {:trigger p(ReplyDone(s, n))} :: p(s) && n in s.cons && !s.cons[n].ctx ==> p(ReplyDone(s, n)))
    && (forall s, n {:trigger p(Chained(s, n))} :: p(s) && Downed(s, n) ==> p(Chained(s, n)))
  }

  ghost predicate EventSteps(p: System -> bool) {
    && (forall s, n, e, rest {:trigger p(FiredOff(s, n, e, rest))} ::
         p(s) && AllSettled(s) && n in s.cons && TakenFrom(s.cons[n].callbacks, e, rest) ==> p(FiredOff(s, n, e, rest)))
    && (forall s {:trigger p(Popped(s))} :: p(s) && s.pending != [] ==> p(Popped(s)))
    && (forall s {:trigger Popped(s)} :: p(s) && s.pending != [] && s.pending[0].0 in s.cons ==>
         p(WithBrief(Popped(s), s.pending[0].0, s.pending[0].1)))
  }

  // ----- calls of JavaScript -----

  lemma Told(p: System -> bool, may: Attempt -> bool, s: System, s': System)
    requires CallSteps(p, may) && p(s) && Retold(s, s')
    ensures p(s')
  {
  }

  lemma Retells(sys: System, n: string, c: ConsoleState)
    requires n in sys.cons && SameStake(sys.cons[n], c)
    ensures Retold(sys, With(sys, n, c))
  {
  }

  lemma ConcludeRetells(sys: System, n: string, ok: bool)
    requires n in sys.cons
    ensures Retold(sys, Conclude(sys, n, ok).0)
  {
    Retells(sys, n, Afterwards(sys.cons[n], ok).0);
  }

  lemma {:induction false} AttemptsKeep(p: System -> bool, may: Attempt -> bool, sys: System, n: string, attempts: seq<Attempt>)
    requires CallSteps(p, may) && p(sys) && n in sys.cons
    requires forall i :: 0 <= i < |attempts| ==> may(attempts[i])
    ensures p(RunAttempts(sys, n, attempts).0)
    decreases |attempts|
  {
    if attempts != [] {
      assert may(attempts[0]);
      assert p(PerformIn(sys, n, attempts[0].act).0);
      AttemptsKeep(p, may, PerformIn(sys, n, attempts[0].act).0, n, attempts[1..]);
    }
  }

  lemma RunJsKeeps(p: System -> bool, may: Attempt -> bool, sys: System, n: string, js: Scripts)
    requires CallSteps(p, may) && Makes(js, may) && p(sys) && n in sys.cons
    ensures p(RunJs(sys, n, js).0)
  {
    var s0, b := sys.(clock := sys.clock + 1), js(sys.clock);
    Told(p, may, sys, s0);
    AttemptsKeep(p, may, s0, n, b.attempts);
    var s1 := RunAttempts(s0, n, b.attempts).0;
    RunJsResult(sys, n, js, b, s1);
    Told(p, may, s1, Overrun(s1, n));
  }

  lemma ExecuteKeeps(p: System -> bool, may: Attempt -> bool, sys: System, n: string, handler: Handler, js: Scripts)
    requires CallSteps(p, may) && Makes(js, may) && p(sys) && n in sys.cons
    ensures p(Execute(sys, n, handler, js).0)
  {
    var c := sys.cons[n];
    if HadError !in c.status && handler == Callable {
      var s0 := With(sys, n, c.(cached := false, status := c.status - {TimedOut}));
      Retells(sys, n, s0.cons[n]);
      RunJsKeeps(p, may, s0, n, js);
      var (s1, ok) := RunJs(s0, n, js);
      ConcludeRetells(s1, n, ok);
    }
  }

  lemma MainKeeps(p: System -> bool, may: Attempt -> bool, sys: System, n: string, js: Scripts)
    requires CallSteps(p, may) && Makes(js, may) && p(sys) && n in sys.cons
    ensures p(RunMain(sys, n, js).0)
  {
    var s0 := With(sys, n, ConsoleReset(sys.cons[n]).(ctx := true, runningMain := true, button := Stop));
    Retells(sys, n, s0.cons[n]);
    RunJsKeeps(p, may, s0, n, js);
    var (s1, ok) := RunJs(s0, n, js);
    var s2 := With(s1, n, s1.cons[n].(runningMain := false));
    Retells(s1, n, s2.cons[n]);
    ConcludeRetells(s2, n, ok);
  }

  lemma RunExitKeeps(p: System -> bool, may: Attempt -> bool, sys: System, n: string, js: Scripts)
    requires CallSteps(p, may) && Makes(js, may) && p(sys) && n in sys.cons && SettledBut(sys, n)
    ensures p(RunExit(sys, n, js).0)
  {
    var s1 := EnterExit(sys, n);
    Retells(sys, n, s1.cons[n]);
    ExecuteKeeps(p, may, s1, n, s1.cons[n].exitHandler, js);
    var s2 := Execute(s1, n, s1.cons[n].exitHandler, js).0;
    Retells(s2, n, s2.cons[n].(status := s2.cons[n].status - {InExit}));
  }

  // ----- wrapping up and replying -----

  lemma UnansweredKeeps(p: System -> bool, may: Attempt -> bool, sys: System, n: string, reason: Completion)
    requires CallSteps(p, may) && ReplySteps(p) && p(sys) && Due(sys, n) && Collect(sys, n).1.None?
    ensures p(Unanswered(sys, n, reason))
  {
    var s := Collect(sys, n).0;
    assert s.cons[n].brief == sys.cons[n].brief;
    Told(p, may, sys, s);
    assert p(GivenUp(s, n, reason));
  }

  lemma DeliveredKeeps(p: System -> bool, may: Attempt -> bool, sys: System, n: string, reason: Completion)
    requires CallSteps(p, may) && ReplySteps(p) && p(sys) && Due(sys, n) && Collect(sys, n).1.Some?
    ensures p(Delivered(sys, n, reason))
  {
    var id, caller := sys.cons[n].brief.callbackId, sys.cons[n].brief.caller;
    var s := Asked(sys, caller);
    assert n != caller;
    Told(p, may, sys, s);
    var i := IndexOf(s.cons[caller].callbacks, id);
    assert p(HandedOver(s, n, reason, i));
    assert Delivered(sys, n, reason) == HandedOver(s, n, reason, i);
  }

  lemma AnsweredKeeps(p: System -> bool, may: Attempt -> bool, sys: System, n: string, reason: Completion, js: Scripts)
    requires CallSteps(p, may) && ReplySteps(p) && Makes(js, may) && p(sys) && Due(sys, n) && Collect(sys, n).1.Some?
    ensures p(Answered(sys, n, reason, js).0)
  {
    DeliveredKeeps(p, may, sys, n, reason);
    AnswerKeeps(p, may, Delivered(sys, n, reason), n, Collect(sys, n).1.value, js);
  }

  lemma AnswerKeeps(p: System -> bool, may: Attempt -> bool, sys: System, n: string, e: Entry, js: Scripts)
    requires CallSteps(p, may) && ReplySteps(p) && Makes(js, may) && p(sys) && Downed(sys, n)
    requires sys.cons[n].brief.caller in sys.cons && sys.cons[sys.cons[n].brief.caller].ctx
    ensures p(Answer(sys, n, e, js).0)
  {
    var caller := sys.cons[n].brief.caller;
    ExecuteKeeps(p, may, sys, caller, e.handler, js);
    var s1 := Execute(sys, caller, e.handler, js).0;
    assert p(ReplyDone(s1, n));
    Told(p, may, ReplyDone(s1, n), AskBusy(ReplyDone(s1, n), caller).0);
  }

  // ----- the principle -----

  /** The same predicate at every moment. */
  ghost function Always(p: System -> bool): Kept {
    Kept((s, n) => p(s), (s, n) => p(s), p)
  }

  ghost predicate UniformSteps(p: System -> bool, may: Attempt -> bool, js: Scripts) {
    CallSteps(p, may) && ReplySteps(p) && EventSteps(p) && Makes(js, may)
  }

  lemma WrapsUniformly(p: System -> bool, may: Attempt -> bool, js: Scripts)
    requires CallSteps(p, may) && ReplySteps(p) && Makes(js, may)
    ensures WrapSteps(Always(p), js)
  {
    var k := Always(p);
    forall s, n, reason {:trigger k.but(WithReason(s, n, reason), n)} | Amid(s, n) && k.but(s, n) ensures k.but(WithReason(s, n, reason), n) {
      Told(p, may, s, WithReason(s, n, reason));
    }
    forall s, n {:trigger k.due(Down(s, n), n)} | Amid(s, n) && k.but(s, n) ensures k.due(Down(s, n), n) {
      assert p(Down(s, n));
    }
    forall s, n {:trigger k.but(RunExit(s, n, js).0, n)} | Amid(s, n) && k.but(s, n) ensures k.but(RunExit(s, n, js).0, n) {
      RunExitKeeps(p, may, s, n, js);
    }
    forall s, n {:trigger k.due(AskBusy(s, n).0, n)} | Downed(s, n) && k.due(s, n) ensures k.due(AskBusy(s, n).0, n) {
      Told(p, may, s, AskBusy(s, n).0);
    }
    forall s, n {:trigger k.all(Chained(s, n))} | Downed(s, n) && k.due(s, n) ensures k.all(Chained(s, n)) {
      assert p(Chained(s, n));
    }
    forall s, n, reason {:trigger k.all(Unanswered(s, n, reason))} |
        Downed(s, n) && k.due(s, n) && s.cons[n].brief.callbackId != 0 && Collect(s, n).1.None?
      ensures k.all(Unanswered(s, n, reason))
    {
      UnansweredKeeps(p, may, s, n, reason);
    }
    forall s, n, reason {:trigger Answered(s, n, reason, js)} |
        Downed(s, n) && k.due(s, n) && s.cons[n].brief.callbackId != 0 && Collect(s, n).1.Some?
      ensures p(Answered(s, n, reason, js).0)
    {
      AnsweredKeeps(p, may, s, n, reason, js);
    }
  }

  lemma LandsUniformly(p: System -> bool, may: Attempt -> bool, s: System, n: string, outcome: Completion)
    requires CallSteps(p, may) && p(s) && n in s.cons
    ensures Lands(Always(p), s, n, outcome)
  {
    Told(p, may, s, AskBusy(s, n).0);
    Told(p, may, s, WithReason(s, n, MoreToDo));
  }

  lemma FiresUniformly(p: System -> bool, may: Attempt -> bool, js: Scripts)
    requires UniformSteps(p, may, js)
    ensures FireSteps(Always(p), js)
  {
    var k := Always(p);
    forall n, s, e, rest {:trigger Execute(FiredOff(s, n, e, rest), n, e.handler, js)} |
        k.all(s) && AllSettled(s) && n in s.cons && TakenFrom(s.cons[n].callbacks, e, rest)
      ensures var r := Execute(FiredOff(s, n, e, rest), n, e.handler, js); Lands(k, r.0, n, r.1)
    {
      assert p(FiredOff(s, n, e, rest));
      ExecuteKeeps(p, may, FiredOff(s, n, e, rest), n, e.handler, js);
      var r := Execute(FiredOff(s, n, e, rest), n, e.handler, js);
      LandsUniformly(p, may, r.0, n, r.1);
    }
  }

  lemma HandledUniformly(p: System -> bool, may: Attempt -> bool, js: Scripts)
    requires UniformSteps(p, may, js)
    ensures HandSteps(Always(p), js) && PendingSteps(Always(p)) && MarkSteps(Always(p))
  {
    var k := Always(p);
    forall s, n {:trigger k.all(Asked(s, n))} | k.all(s) && n in s.cons ensures k.all(Asked(s, n)) {
      Told(p, may, s, Asked(s, n));
    }
    forall s, n {:trigger AlertGone(s, n)} | k.all(s) && n in s.cons ensures p(AlertGone(s, n)) {
      Told(p, may, s, AlertGone(s, n));
    }
    forall s, n {:trigger k.all(Unbriefed(s, n))} | k.all(s) && n in s.cons ensures k.all(Unbriefed(s, n)) {
      Told(p, may, s, Unbriefed(s, n));
    }
    forall s, n {:trigger RunMain(s, n, js)} | k.all(s) && n in s.cons ensures var r := RunMain(s, n, js); Lands(k, r.0, n, r.1) {
      MainKeeps(p, may, s, n, js);
      var r := RunMain(s, n, js);
      LandsUniformly(p, may, r.0, n, r.1);
    }
    forall s, n {:trigger k.but(Stopping(s, n), n)} | k.all(s) && n in s.cons ensures k.but(Stopping(s, n), n) {
      Told(p, may, s, Stopping(s, n));
    }
    forall s, kind {:trigger k.all(Mark(s, kind))} | k.all(s) ensures k.all(Mark(s, kind)) {
      Told(p, may, s, Mark(s, kind));
    }
    forall s {:trigger k.all(Popped(s))} | k.all(s) && s.pending != [] ensures k.all(Popped(s)) {
      assert p(Popped(s));
    }
  }

  lemma WrapUpUniformly(p: System -> bool, may: Attempt -> bool, sys: System, n: string, reason: Completion, js: Scripts)
    requires CallSteps(p, may) && ReplySteps(p) && Makes(js, may) && p(sys) && Amid(sys, n)
    ensures p(WrapUp(sys, n, reason, js))
  {
    WrapsUniformly(p, may, js);
    Told(p, may, sys, WithReason(sys, n, MoreToDo));
    WrapUpWalk(Always(p), sys, n, reason, js);
  }

  lemma StepUniformly(p: System -> bool, may: Attempt -> bool, sys: System, e: Event, js: Scripts)
    requires UniformSteps(p, may, js) && UnmarkSteps(Always(p)) && p(sys) && AllSettled(sys)
    ensures var r := Step(sys, e, js); r.Some? ==> p(r.value)
  {
    WrapsUniformly(p, may, js);
    FiresUniformly(p, may, js);
    HandledUniformly(p, may, js);
    StepWalk(Always(p), sys, e, js);
  }

  lemma RunUniformly(p: System -> bool, may: Attempt -> bool, sys: System, events: seq<Event>, js: Scripts)
    requires UniformSteps(p, may, js) && UnmarkSteps(Always(p)) && p(sys) && AllSettled(sys)
    ensures var r := RunEvents(sys, events, js); r.Some? ==> p(r.value)
  {
    WrapsUniformly(p, may, js);
    FiresUniformly(p, may, js);
    HandledUniformly(p, may, js);
    RunWalk(Always(p), sys, events, js);
  }
}
