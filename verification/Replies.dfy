/** The obligation to answer: an id that some console or pending run carries is carried on,
    through any chain of scripts, until a reply to it has been attempted. */
module Replies {
  import opened Wrappers
  import opened Callbacks
  import opened Lifecycle
  import opened Protocol
  import opened Events
  import opened Walks
  import opened Uniform

  /** A reply to this id has been tried, successfully or not. */
  ghost predicate Attempted(log: seq<Note>, id: int) {
    exists k :: 0 <= k < |log| && log[k].Replied? && log[k].id == id
  }

  ghost predicate IsPending(sys: System, id: int) {
    exists k :: 0 <= k < |sys.pending| && sys.pending[k].1.callbackId == id
  }

  /** Someone is still to answer id: a console with a context, or a run yet to come up. */
  ghost predicate Owed(sys: System, id: int) {
    IsPending(sys, id) || exists n :: n in sys.cons && sys.cons[n].ctx && sys.cons[n].brief.callbackId == id
  }

  /** An answer to id is still owed, or has been attempted. */
  ghost predicate Accounted(sys: System, id: int) {
    Owed(sys, id) || Attempted(sys.log, id)
  }

  lemma AttemptedOn(log: seq<Note>, log': seq<Note>, id: int)
    requires log <= log' && Attempted(log, id)
    ensures Attempted(log', id)
  {
    var k :| 0 <= k < |log| && log[k].Replied? && log[k].id == id;
    assert log'[k] == log[k];
  }

  lemma PendingOn(sys: System, sys': System, id: int)
    requires sys.pending <= sys'.pending && IsPending(sys, id)
    ensures IsPending(sys', id)
  {
    var k :| 0 <= k < |sys.pending| && sys.pending[k].1.callbackId == id;
    assert sys'.pending[k] == sys.pending[k];
  }

  /** No console that is alive has died or changed its id, and nothing pending or noted is
      lost, console n left out of account. */
  ghost predicate DebtorsBut(sys: System, sys': System, n: string) {
    && sys'.cons.Keys == sys.cons.Keys && sys.pending <= sys'.pending && sys.log <= sys'.log
    && forall m :: m in sys.cons && m != n && sys.cons[m].ctx ==> sys'.cons[m].ctx && sys'.cons[m].brief.callbackId == sys.cons[m].brief.callbackId
  }

  ghost predicate Debtors(sys: System, sys': System) {
    && sys'.cons.Keys == sys.cons.Keys && sys.pending <= sys'.pending && sys.log <= sys'.log
    && forall m :: m in sys.cons && sys.cons[m].ctx ==> sys'.cons[m].ctx && sys'.cons[m].brief.callbackId == sys.cons[m].brief.callbackId
  }

  lemma AccountedBut(sys: System, sys': System, n: string, id: int)
    requires DebtorsBut(sys, sys', n) && Accounted(sys, id)
    ensures Accounted(sys', id) || (n in sys.cons && sys.cons[n].ctx && sys.cons[n].brief.callbackId == id)
  {
    if Attempted(sys.log, id) {
      AttemptedOn(sys.log, sys'.log, id);
    } else if IsPending(sys, id) {
      PendingOn(sys, sys', id);
    } else {
      var m :| m in sys.cons && sys.cons[m].ctx && sys.cons[m].brief.callbackId == id;
      assert m != n ==> sys'.cons[m].ctx;
    }
  }

  lemma StillAccounted(sys: System, sys': System, id: int)
    requires Debtors(sys, sys') && Accounted(sys, id)
    ensures Accounted(sys', id)
  {
    if !Attempted(sys.log, id) && !IsPending(sys, id) {
      var m :| m in sys.cons && sys.cons[m].ctx && sys.cons[m].brief.callbackId == id;
      assert sys'.cons[m].ctx;
    } else if Attempted(sys.log, id) {
      AttemptedOn(sys.log, sys'.log, id);
    } else {
      PendingOn(sys, sys', id);
    }
  }

  /** Running JavaScript loses no obligation, whatever it does. */
  lemma CarriesDebtors(sys: System, sys': System, n: string)
    requires Carries(sys, sys', n)
    ensures Debtors(sys, sys')
  {
    forall m | m in sys.cons && m != n ensures sys'.cons[m].ctx == sys.cons[m].ctx && sys'.cons[m].brief.callbackId == sys.cons[m].brief.callbackId {
      assert Touched(sys.cons[m], sys'.cons[m]);
    }
  }

  lemma RunExitDebtors(sys: System, n: string, js: Scripts)
    requires n in sys.cons && SettledBut(sys, n)
    ensures Debtors(sys, RunExit(sys, n, js).0)
    ensures sys.pending <= RunExit(sys, n, js).0.pending
    ensures RunExit(sys, n, js).0.cons[n].brief.callbackId == sys.cons[n].brief.callbackId
  {
    var s1 := EnterExit(sys, n);
    var s2 := Execute(s1, n, s1.cons[n].exitHandler, js).0;
    CarriesDebtors(s1, s2, n);
  }

  // ----- the single steps -----

  /** While console n is down and its reply is due, its own id is not lost. */
  ghost function Accounting(id: int): Kept {
    Kept((s, n) => Accounted(s, id), (s: System, n) => n in s.cons && (Accounted(s, id) || s.cons[n].brief.callbackId == id), s => Accounted(s, id))
  }

  lemma NotedAttempted(log: seq<Note>, notes: seq<Note>, id: int)
    requires notes != [] && notes[0].Replied? && notes[0].id == id
    ensures Attempted(log + notes, id)
  {
    assert (log + notes)[|log|] == notes[0];
  }

  lemma UnansweredAccounts(sys: System, n: string, reason: Completion, id: int)
    requires Due(sys, n) && Collect(sys, n).1.None? && (Accounted(sys, id) || sys.cons[n].brief.callbackId == id)
    ensures Accounted(Unanswered(sys, n, reason), id)
  {
    var s := Unanswered(sys, n, reason);
    if sys.cons[n].brief.callbackId == id {
      NotedAttempted(Collect(sys, n).0.log, [Replied(n, id, reason, false)], id);
    } else {
      StillAccounted(sys, s, id);
    }
  }

  lemma DeliveredAccounts(sys: System, n: string, reason: Completion, id: int)
    requires Due(sys, n) && Collect(sys, n).1.Some? && (Accounted(sys, id) || sys.cons[n].brief.callbackId == id)
    ensures Accounted(Delivered(sys, n, reason), id)
  {
    var s := Delivered(sys, n, reason);
    if sys.cons[n].brief.callbackId == id {
      NotedAttempted(Collect(sys, n).0.log, ReplyNotes(n, sys.cons[n].brief, reason, Collect(sys, n).1.value), id);
    } else {
      StillAccounted(sys, s, id);
    }
  }

  lemma AnswerAccounts(sys: System, n: string, e: Entry, js: Scripts, id: int)
    requires Downed(sys, n) && Accounted(sys, id)
    requires sys.cons[n].brief.caller in sys.cons && sys.cons[sys.cons[n].brief.caller].ctx
    ensures Accounted(Answer(sys, n, e, js).0, id)
  {
    var caller := sys.cons[n].brief.caller;
    var s1 := Execute(sys, caller, e.handler, js).0;
    CarriesDebtors(sys, s1, caller);
    StillAccounted(sys, s1, id);
    var s2 := ReplyDone(s1, n);
    assert !s1.cons[n].ctx by { assert Touched(sys.cons[n], s1.cons[n]); }
    StillAccounted(s1, s2, id);
    StillAccounted(s2, AskBusy(s2, caller).0, id);
  }

  lemma ChainAccounts(sys: System, n: string, id: int)
    requires Downed(sys, n) && (Accounted(sys, id) || sys.cons[n].brief.callbackId == id)
    ensures Accounted(Chained(sys, n), id)
  {
    var s := Chained(sys, n);
    assert s.pending[|sys.pending|].1.callbackId == sys.cons[n].brief.callbackId;
    if sys.cons[n].brief.callbackId == id {
      assert IsPending(s, id);
    } else {
      StillAccounted(sys, s, id);
    }
  }

  lemma WrapsAccount(id: int, js: Scripts)
    requires id != 0
    ensures WrapSteps(Accounting(id), js)
  {
    var k := Accounting(id);
    forall s, n, reason {:trigger k.but(WithReason(s, n, reason), n)} | Amid(s, n) && k.but(s, n) ensures k.but(WithReason(s, n, reason), n) {
      StillAccounted(s, WithReason(s, n, reason), id);
    }
    forall s, n {:trigger k.due(Down(s, n), n)} | Amid(s, n) && k.but(s, n) ensures k.due(Down(s, n), n) {
      AccountedBut(s, Down(s, n), n, id);
    }
    forall s, n {:trigger k.but(RunExit(s, n, js).0, n)} | Amid(s, n) && k.but(s, n) ensures k.but(RunExit(s, n, js).0, n) {
      RunExitDebtors(s, n, js);
      StillAccounted(s, RunExit(s, n, js).0, id);
    }
    forall s, n {:trigger k.due(AskBusy(s, n).0, n)} | Downed(s, n) && k.due(s, n) ensures k.due(AskBusy(s, n).0, n) {
      if Accounted(s, id) {
        StillAccounted(s, AskBusy(s, n).0, id);
      }
    }
    forall s, n {:trigger k.all(Chained(s, n))} | Downed(s, n) && k.due(s, n) ensures k.all(Chained(s, n)) {
      ChainAccounts(s, n, id);
    }
    forall s, n, reason {:trigger k.all(Unanswered(s, n, reason))} |
        Downed(s, n) && k.due(s, n) && s.cons[n].brief.callbackId != 0 && Collect(s, n).1.None?
      ensures k.all(Unanswered(s, n, reason))
    {
      UnansweredAccounts(s, n, reason, id);
    }
    forall s, n, reason {:trigger Answered(s, n, reason, js)} |
        Downed(s, n) && k.due(s, n) && s.cons[n].brief.callbackId != 0 && Collect(s, n).1.Some?
      ensures Accounted(Answered(s, n, reason, js).0, id)
    {
      DeliveredAccounts(s, n, reason, id);
      AnswerAccounts(Delivered(s, n, reason), n, Collect(s, n).1.value, js, id);
    }
  }

  /** A wrap-up, whatever the reason, loses no obligation: the id its console carries is
      still carried if there is more to do, goes with the next script if it chains, and has
      otherwise been attempted. */
  lemma WrapUpKeeps(sys: System, n: string, reason: Completion, js: Scripts, id: int)
    requires n in sys.cons && sys.cons[n].ctx && SettledBut(sys, n) && id != 0 && Accounted(sys, id)
    ensures Accounted(WrapUp(sys, n, reason, js), id)
  {
    WrapsAccount(id, js);
    StillAccounted(sys, WithReason(sys, n, MoreToDo), id);
    WrapUpWalk(Accounting(id), sys, n, reason, js);
  }

  // ----- what exactly is sent -----

  /** The reply that console n owes: to which registration (0 for none), of which console, and
      whether that still has it. */
  datatype Debt = Debt(id: int, caller: string, reaches: bool)

  function DebtOf(sys: System, n: string): Debt
    requires n in sys.cons
  {
    var brief := sys.cons[n].brief;
    Debt(brief.callbackId, brief.caller,
         brief.caller != n && brief.caller in sys.cons &&
         IndexOf(sys.cons[brief.caller].callbacks, brief.callbackId) < |sys.cons[brief.caller].callbacks|)
  }

  lemma SameDebt(sys: System, s: System, n: string)
    requires n in sys.cons && s.cons.Keys == sys.cons.Keys
    requires forall m :: m in sys.cons && m != n ==> s.cons[m].callbacks == sys.cons[m].callbacks
    requires s.cons[n].brief.callbackId == sys.cons[n].brief.callbackId && s.cons[n].brief.caller == sys.cons[n].brief.caller
    ensures DebtOf(s, n) == DebtOf(sys, n)
  {
  }

  /** If a reply is owed, the log goes on with the note that console n has answered it for this
      reason, and if the registration is still there its handler is called next.  Nothing further
      happens if it is not, and nothing at all if no reply is owed. */
  ghost function Answers(log: seq<Note>, n: string, debt: Debt, reason: Completion): seq<Note> -> bool {
    (log': seq<Note>) =>
      var replied := log + [Replied(n, debt.id, reason, debt.reaches)];
      if debt.id == 0 then log' == log
      else if debt.reaches then exists persistent :: replied + [Fired(debt.caller, debt.id, persistent)] <= log'
      else log' == replied
  }

  lemma AnswersOn(log: seq<Note>, n: string, debt: Debt, reason: Completion, log': seq<Note>)
    requires Answers(log, n, debt, reason)(log')
    ensures log <= log'
  {
    var replied := log + [Replied(n, debt.id, reason, debt.reaches)];
    if debt.id != 0 && debt.reaches {
      var persistent :| replied + [Fired(debt.caller, debt.id, persistent)] <= log';
      assert log <= replied + [Fired(debt.caller, debt.id, persistent)];
    }
  }

  lemma ReplyAnswers(sys: System, n: string, reason: Completion, js: Scripts)
    requires Downed(sys, n)
    ensures Answers(sys.log, n, DebtOf(sys, n), reason)(Reply(sys, n, reason, js).log)
  {
    var brief := sys.cons[n].brief;
    if brief.callbackId != 0 {
      CollectReaches(sys, n);
      var (s, found) := Collect(sys, n);
      if found.Some? {
        HandOverLog(s, n, reason, found.value, js);
        HandedOver(sys.log, n, DebtOf(sys, n), brief, reason, found.value, Reply(sys, n, reason, js).log);
      } else {
        NotHandedOver(sys.log, n, DebtOf(sys, n), reason);
      }
    }
  }

  lemma HandedOver(log: seq<Note>, n: string, debt: Debt, brief: Brief, reason: Completion, e: Entry, log': seq<Note>)
    requires debt.id != 0 && debt.reaches && brief.callbackId == debt.id == e.id && brief.caller == debt.caller
    requires log + ReplyNotes(n, brief, reason, e) <= log'
    ensures Answers(log, n, debt, reason)(log')
  {
    var fired := Fired(debt.caller, debt.id, e.persistent);
    assert log + ReplyNotes(n, brief, reason, e) == log + [Replied(n, debt.id, reason, true)] + [fired];
  }

  lemma NotHandedOver(log: seq<Note>, n: string, debt: Debt, reason: Completion)
    requires debt.id != 0 && !debt.reaches
    ensures Answers(log, n, debt, reason)(log + [Replied(n, debt.id, reason, false)])
  {
  }

  lemma CollectReaches(sys: System, n: string)
    requires Downed(sys, n)
    ensures Collect(sys, n).1.Some? <==> DebtOf(sys, n).reaches
    ensures Collect(sys, n).1.Some? ==> Collect(sys, n).1.value.id == sys.cons[n].brief.callbackId
  {
    var id, caller := sys.cons[n].brief.callbackId, sys.cons[n].brief.caller;
    if caller in sys.cons {
      assert IndexOf(sys.cons[caller].callbacks, id) < |sys.cons[caller].callbacks| ==> WaitingNow(sys.cons[caller]);
    }
  }

  lemma HandOverLog(sys: System, n: string, reason: Completion, e: Entry, js: Scripts)
    requires n in sys.cons && Idle(sys.cons[n]) && AllSettled(sys)
    requires sys.cons[n].brief.caller in sys.cons && sys.cons[sys.cons[n].brief.caller].ctx
    ensures sys.log + ReplyNotes(n, sys.cons[n].brief, reason, e) <= HandOver(sys, n, reason, e, js).log
  {
    var s := Noted(sys, ReplyNotes(n, sys.cons[n].brief, reason, e));
    assert Live(s) == Live(sys);
    var (s1, busy, outcome) := Answer(s, n, e, js);
    assert s1.log == s.log;
  }

  /** The reason that is reported, given how the exit handler ended (if one was run). */
  function Reported(reason: Completion, exit: Option<Completion>): Completion {
    if reason == Closing then Closed
    else if exit == Some(TimedOut) || exit == Some(HadError) then exit.value
    else reason
  }

  function ExitOutcome(sys: System, n: string, reason: Completion, js: Scripts): Option<Completion>
    requires n in sys.cons && SettledBut(sys, n)
  {
    if reason in {TimedOut, Closing, HadError, MoreToDo} || !WrapsNormally(reason) || sys.cons[n].exitHandler == Missing then None
    else Some(RunExit(WithReason(sys, n, reason), n, js).1)
  }

  /** Console n has queued its next script, for the same registration of the same console, and
      nothing has been noted. */
  ghost predicate Queues(log: seq<Note>, pending: seq<(string, Brief)>, n: string, debt: Debt, s: System) {
    && s.log == log && |s.pending| > |pending| && pending <= s.pending && n in s.cons
    && var (m, brief) := s.pending[|s.pending| - 1];
       m == n && brief.callbackId == debt.id && brief.caller == debt.caller && s.cons[n].brief == brief
  }

  /** From sys on, console n has been finally wrapped up and the reason reported is this: if it
      is that n chains, the next script is queued; otherwise a reply that was owed has been
      attempted - successfully exactly if the registration is still there. */
  ghost function Sends(sys: System, n: string, reported: Completion): System -> bool
    requires n in sys.cons
  {
    (s: System) =>
      if reported == ToChain then Queues(sys.log, sys.pending, n, DebtOf(sys, n), s)
      else Answers(sys.log, n, DebtOf(sys, n), reported)(s.log)
  }

  /** A final wrap-up either chains, sending nothing, or attempts the reply that is due. */
  lemma WrapUpAnswers(sys: System, n: string, reason: Completion, js: Scripts)
    requires Amid(sys, n) && reason != MoreToDo
    ensures Sends(sys, n, Reported(reason, ExitOutcome(sys, n, reason, js)))(WrapUp(sys, n, reason, js))
  {
    var s := WithReason(sys, n, reason);
    SameDebt(sys, s, n);
    if reason == TimedOut || reason == Closing || reason == HadError {
      FailureAnswers(sys, s, n, reason, js);
    } else if !WrapsNormally(reason) || s.cons[n].exitHandler == Missing {
      EndAnswers(sys, s, n, reason, js);
    } else {
      ExitSends(sys, s, n, reason, js);
    }
  }

  lemma FailureAnswers(sys: System, s: System, n: string, reason: Completion, js: Scripts)
    requires Amid(sys, n) && reason in {TimedOut, Closing, HadError} && s == WithReason(sys, n, reason) && DebtOf(s, n) == DebtOf(sys, n)
    ensures Answers(sys.log, n, DebtOf(sys, n), Reported(reason, None))(WrapUp(sys, n, reason, js).log)
  {
    DownIsDead(s, n);
    SameDebt(s, Down(s, n), n);
    ReplyAnswers(Down(s, n), n, Reported(reason, None), js);
    FailureReplies(sys, s, n, reason, js);
  }

  lemma FailureReplies(sys: System, s: System, n: string, reason: Completion, js: Scripts)
    requires Amid(sys, n) && reason in {TimedOut, Closing, HadError} && s == WithReason(sys, n, reason) && AllSettled(Down(s, n))
    ensures WrapUp(sys, n, reason, js) == Reply(Down(s, n), n, Reported(reason, None), js)
  {
  }

  lemma EndAnswers(sys: System, s: System, n: string, reason: Completion, js: Scripts)
    requires Amid(sys, n) && s == WithReason(sys, n, reason) && DebtOf(s, n) == DebtOf(sys, n)
    requires reason !in {TimedOut, Closing, HadError, MoreToDo} && (!WrapsNormally(reason) || s.cons[n].exitHandler == Missing)
    ensures Sends(sys, n, Reported(reason, ExitOutcome(sys, n, reason, js)))(WrapUp(sys, n, reason, js))
  {
    EndIs(sys, s, n, reason, js);
    FinishSends(sys, s, n, reason, js, Finish(s, n, reason, js));
  }

  lemma EndIs(sys: System, s: System, n: string, reason: Completion, js: Scripts)
    requires Amid(sys, n) && s == WithReason(sys, n, reason)
    requires reason !in {TimedOut, Closing, HadError, MoreToDo} && (!WrapsNormally(reason) || s.cons[n].exitHandler == Missing)
    ensures Amid(s, n) && WrapUp(sys, n, reason, js) == Finish(s, n, reason, js) && ExitOutcome(sys, n, reason, js) == None
  {
  }

  lemma FinishSends(sys: System, s: System, n: string, reason: Completion, js: Scripts, t: System)
    requires n in sys.cons && Amid(s, n) && t == Finish(s, n, reason, js) && DebtOf(s, n) == DebtOf(sys, n)
    requires s.log == sys.log && sys.pending <= s.pending
    ensures Sends(sys, n, reason)(t)
  {
    FinishAnswers(s, n, reason, js);
    if reason == ToChain {
      LastQueued(sys.log, sys.pending, n, DebtOf(sys, n), s, t);
    }
  }

  lemma LastQueued(log: seq<Note>, pending: seq<(string, Brief)>, n: string, debt: Debt, s: System, t: System)
    requires n in s.cons && n in t.cons && debt == DebtOf(s, n) && pending <= s.pending
    requires t.log == log && t.pending == s.pending + [(n, s.cons[n].brief)] && t.cons[n].brief == s.cons[n].brief
    ensures Queues(log, pending, n, debt, t)
  {
    assert t.pending[|t.pending| - 1] == (n, s.cons[n].brief);
  }

  lemma ExitSends(sys: System, s: System, n: string, reason: Completion, js: Scripts)
    requires Amid(sys, n) && s == WithReason(sys, n, reason) && DebtOf(s, n) == DebtOf(sys, n)
    requires reason !in {TimedOut, Closing, HadError, MoreToDo} && WrapsNormally(reason) && s.cons[n].exitHandler != Missing
    ensures Sends(sys, n, Reported(reason, ExitOutcome(sys, n, reason, js)))(WrapUp(sys, n, reason, js))
  {
    var r := RunExit(s, n, js);
    ExitUnfolds(sys, s, n, reason, js);
    ExitKeepsDebt(s, n, js);
    assert ExitOutcome(sys, n, reason, js) == Some(r.1);
    ExitGoes(sys, r.0, n, reason, js, r.1, WrapUp(sys, n, reason, js));
  }

  lemma ExitUnfolds(sys: System, s: System, n: string, reason: Completion, js: Scripts)
    requires Amid(sys, n) && s == WithReason(sys, n, reason)
    requires WrapsNormally(reason) && reason !in {TimedOut, Closing, HadError, MoreToDo} && sys.cons[n].exitHandler != Missing
    ensures var (t, ended) := RunExit(s, n, js);
            && Amid(t, n) && AllSettled(Down(t, n))
            && WrapUp(sys, n, reason, js) ==
               if ended == TimedOut || ended == HadError then Reply(Down(t, n), n, ended, js) else Finish(t, n, reason, js)
  {
    var (t, ended) := RunExit(s, n, js);
    assert n in Live(t);
    DownIsDead(t, n);
  }

  lemma ExitGoes(sys: System, t: System, n: string, reason: Completion, js: Scripts, ended: Completion, u: System)
    requires n in sys.cons && Amid(t, n) && AllSettled(Down(t, n)) && DebtOf(t, n) == DebtOf(sys, n)
    requires t.log == sys.log && sys.pending <= t.pending && reason != Closing
    requires u == if ended == TimedOut || ended == HadError then Reply(Down(t, n), n, ended, js) else Finish(t, n, reason, js)
    ensures Sends(sys, n, Reported(reason, Some(ended)))(u)
  {
    if ended == TimedOut || ended == HadError {
      DownSends(sys, t, n, ended, js);
    } else {
      FinishSends(sys, t, n, reason, js, u);
    }
  }

  lemma DownSends(sys: System, s: System, n: string, reason: Completion, js: Scripts)
    requires n in sys.cons && Amid(s, n) && AllSettled(Down(s, n)) && DebtOf(s, n) == DebtOf(sys, n) && s.log == sys.log && reason != ToChain
    ensures Sends(sys, n, reason)(Reply(Down(s, n), n, reason, js))
  {
    DownIsDead(s, n);
    SameDebt(s, Down(s, n), n);
    ReplyAnswers(Down(s, n), n, reason, js);
  }

  lemma ExitKeepsDebt(s: System, n: string, js: Scripts)
    requires Amid(s, n)
    ensures var t := RunExit(s, n, js).0; DebtOf(t, n) == DebtOf(s, n) && t.log == s.log && s.pending <= t.pending
  {
    var s1 := EnterExit(s, n);
    var s2 := Execute(s1, n, s1.cons[n].exitHandler, js).0;
    CarriesDebt(s1, s2, n);
    SameDebt(s, s1, n);
    SameDebt(s2, LeaveExit(s2, n), n);
  }

  lemma CarriesDebt(s: System, t: System, n: string)
    requires Carries(s, t, n)
    ensures DebtOf(t, n) == DebtOf(s, n)
  {
    forall m | m in s.cons && m != n ensures t.cons[m].callbacks == s.cons[m].callbacks {
      assert Touched(s.cons[m], t.cons[m]);
    }
    SameDebt(s, t, n);
  }

  /** The end of a normal wrap-up. */
  lemma FinishAnswers(sys: System, n: string, reason: Completion, js: Scripts)
    requires Amid(sys, n)
    ensures var s := Finish(sys, n, reason, js);
            if reason == ToChain then s.log == sys.log && s.pending == sys.pending + [(n, sys.cons[n].brief)] && s.cons[n].brief == sys.cons[n].brief
            else Answers(sys.log, n, DebtOf(sys, n), reason)(s.log)
  {
    DownIsDead(sys, n);
    var s := With(sys, n, IsBusy(Cleanup(sys.cons[n])).0);
    assert Live(s) == Live(Down(sys, n));
    if reason != ToChain {
      SameDebt(sys, s, n);
      ReplyAnswers(s, n, reason, js);
      assert Finish(sys, n, reason, js) == Reply(s, n, reason, js);
    }
  }

  // ----- a console without an exit handler -----

  lemma WrapsToNormalEnd(sys: System, s: System, n: string, reason: Completion, js: Scripts)
    requires Amid(sys, n) && reason in {Done, Stopped, ToChain} && s == WithReason(sys, n, reason)
    ensures Amid(s, n) && s.cons[n].exitHandler == sys.cons[n].exitHandler && WrapUp(sys, n, reason, js) == NormalEnd(s, n, reason, js)
  {
    WrapsOtherwise(sys, s, n, reason, js);
  }

  lemma WrapsOtherwise(sys: System, s: System, n: string, reason: Completion, js: Scripts)
    requires Amid(sys, n) && reason != TimedOut && reason != Closing && reason != HadError && reason != MoreToDo && s == WithReason(sys, n, reason)
    ensures Amid(s, n) && WrapUp(sys, n, reason, js) == NormalEnd(s, n, reason, js)
  {
  }

  lemma NormalEndOnly(s: System, n: string, reason: Completion, js: Scripts)
    requires Amid(s, n) && s.cons[n].exitHandler == Missing
    ensures NormalEnd(s, n, reason, js) == Finish(s, n, reason, js)
  {
  }
}
