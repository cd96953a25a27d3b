/** Between events every console is idle or has something to wait for, and its cached answer
    is the true one, whatever errors scripts catch; and its button says Stop exactly while it
    waits, and something can always wake it, if they let certain errors end them. */
module Dichotomy {
  import opened Wrappers
  import opened Callbacks
  import opened Lifecycle
  import opened Protocol
  import opened Events
  import opened Walks
  import opened Uniform
  import opened Registrations
  import opened OneShot
  import opened Runs
  import opened Quiescence

  ghost predicate AllCallable(sys: System) {
    forall s :: s in AllSignatures(sys) ==> s.handler != NotCallable
  }

  ghost predicate CalmBut(sys: System, n: string, m: Manners) {
    Inv(sys) && AllCallable(sys) && forall k :: k in sys.cons && k != n ==> Rests(sys.cons[k], m)
  }

  ghost predicate Calm(sys: System, m: Manners) {
    Inv(sys) && AllCallable(sys) && forall k :: k in sys.cons ==> Rests(sys.cons[k], m)
  }

  // ----- what is registered can be called -----

  lemma CallableGrow(sys: System, sys': System, n: string)
    requires Registered(sys) && GrowsIn(sys, sys', n) && AllCallable(sys)
    requires NewCallable(sys'.cons[n].callbacks, sys.nextId)
    ensures AllCallable(sys')
  {
    OldSignatures(sys, sys', n);
    forall s | s in AllSignatures(sys') && s.id >= sys.nextId ensures s.handler != NotCallable {
      var m :| m in sys'.cons && s in Signatures(sys'.cons[m].callbacks);
      if m != n {
        SignatureBound(sys, m, s);
      }
    }
  }

  lemma FewerCallable(sys: System, sys': System)
    requires FewerEntries(sys, sys') && AllCallable(sys)
    ensures AllCallable(sys')
  {
    FewerSignatures(sys, sys');
  }

  lemma AwaitCallable(sys: System, n: string, target: string, hasBrief: bool)
    requires Inv(sys) && AllCallable(sys) && n in sys.cons
    ensures AllCallable(AwaitIn(sys, n, target, true, hasBrief).0)
  {
    if InExit in sys.cons[n].status {
      FewerCallable(sys, AwaitIn(sys, n, target, true, hasBrief).0);
    } else {
      var e := AwaitEntry(sys.nextId, true);
      var o := NewCallbackEntry(sys.cons[n], e, sys.nextId);
      NewOk(sys.cons[n], e, sys.nextId);
      var s := With(sys, n, o.c).(nextId := o.nextId);
      CallableGrow(sys, s, n);
      if !o.threw {
        FewerCallable(s, AskToRun(s, n, target, Brief(sys.nextId, n, hasBrief)).0);
      }
    }
  }

  lemma InstallCallable(sys: System, n: string, a: Act, o: Outcome)
    requires Inv(sys) && AllCallable(sys) && n in sys.cons && IsLocal(a) && o == Perform(sys.cons[n], a, sys.nextId)
    ensures AllCallable(Install(sys, n, o, BitsSet(a, o)).0)
  {
    PerformOk(sys.cons[n], a, sys.nextId, o);
    CallableGrow(sys, Install(sys, n, o, BitsSet(a, o)).0, n);
  }

  lemma PerformCallable(sys: System, n: string, a: Act)
    requires Inv(sys) && AllCallable(sys) && n in sys.cons && (a.AwaitResult? ==> a.callable)
    ensures AllCallable(PerformIn(sys, n, a).0)
  {
    if a.AwaitResult? {
      AwaitCallable(sys, n, a.target, a.hasBrief);
    } else if a.RunConsole? {
      FewerCallable(sys, RunConsoleIn(sys, n, a.target, a.hasBrief).0);
    } else if a.ConsoleBusy? {
      FewerCallable(sys, ConsoleBusyIn(sys, n, a.target).0);
    } else {
      InstallCallable(sys, n, a, Perform(sys.cons[n], a, sys.nextId));
    }
  }

  ghost function CallableOnly(): System -> bool {
    (s: System) => AllCallable(s)
  }

  ghost function CallableKept(): System -> bool {
    InvAnd(CallableOnly())
  }

  lemma CallableBreak(m: Manners)
    ensures OnlyNewBreaks(CallableOnly(), WithManners(m))
  {
    var q, may := CallableOnly(), WithManners(m);
    forall s, s' {:trigger FewerEntries(s, s')} | q(s) && FewerEntries(s, s') ensures q(s') {
      FewerCallable(s, s');
    }
    forall s, n, t: Attempt {:trigger q(PerformIn(s, n, t.act).0), may(t)} | Inv(s) && q(s) && n in s.cons && may(t)
      ensures q(PerformIn(s, n, t.act).0)
    {
      PerformCallable(s, n, t.act);
    }
  }

  lemma CallableSteps(m: Manners, js: Scripts)
    requires Makes(js, WithManners(m))
    ensures UniformSteps(CallableKept(), WithManners(m), js)
  {
    CallableBreak(m);
    StepsBreak(CallableOnly(), WithManners(m), js);
  }

  lemma KnownKind(sys: System, n: string, e: Entry)
    requires Inv(sys) && AllCallable(sys) && n in sys.cons && e in sys.cons[n].callbacks
    ensures e.handler != NotCallable
    ensures e.id in BriefIds(sys) ==> e.kind == ConsoleReply && e.handler == Callable
    ensures e.handler == Missing ==> e.kind in {ContextMenu, ContextSubmenu}
  {
    assert SignatureOf(e) in Signatures(sys.cons[n].callbacks);
    assert SignatureOf(e) in AllSignatures(sys);
    assert RegistryOk(sys.cons[n].callbacks, sys.nextId);
    assert EntryOk(e, sys.nextId);
    if e.id in BriefIds(sys) {
      assert BriefIdOk(sys, e.id);
    }
  }

  // ----- the others, while JavaScript runs in one console -----

  lemma TouchedRests(c: ConsoleState, c': ConsoleState, m: Manners)
    requires Touched(c, c') && Rests(c, m)
    ensures Rests(c', m)
  {
  }

  lemma OthersRest(sys: System, sys': System, n: string, m: Manners)
    requires Carries(sys, sys', n) && CalmBut(sys, n, m) && Inv(sys') && AllCallable(sys')
    ensures CalmBut(sys', n, m)
  {
    forall k | k in sys'.cons && k != n ensures Rests(sys'.cons[k], m) {
      TouchedRests(sys.cons[k], sys'.cons[k], m);
    }
  }

  lemma ExecuteCalm(sys: System, n: string, handler: Handler, js: Scripts, m: Manners)
    requires CalmBut(sys, n, m) && n in sys.cons && Makes(js, WithManners(m))
    ensures CalmBut(Execute(sys, n, handler, js).0, n, m)
  {
    CallableSteps(m, js);
    ExecuteKeeps(CallableKept(), WithManners(m), sys, n, handler, js);
    OthersRest(sys, Execute(sys, n, handler, js).0, n, m);
  }

  lemma HandlerBusy(sys: System, n: string, js: Scripts)
    requires n in sys.cons && !sys.cons[n].runningMain && HadError !in sys.cons[n].status
    ensures var (s, outcome) := Execute(sys, n, Callable, js); IsBusy(s.cons[n]) == (s.cons[n], outcome == MoreToDo)
  {
    var s0 := Entered(sys, n);
    var (s1, ok) := RunJs(s0, n, js);
    BusyIsMoreToDo(s1.cons[n], ok);
    assert Execute(sys, n, Callable, js) == Conclude(s1, n, ok);
  }

  lemma AskBusySame(sys: System, n: string, busy: bool)
    requires n in sys.cons && IsBusy(sys.cons[n]) == (sys.cons[n], busy)
    ensures AskBusy(sys, n) == (sys, busy)
  {
    assert With(sys, n, sys.cons[n]) == sys;
  }

  lemma MainBusy(sys: System, n: string, js: Scripts)
    requires n in sys.cons
    ensures var (s, outcome) := RunMain(sys, n, js); IsBusy(s.cons[n]) == (s.cons[n], outcome == MoreToDo) && s.cons[n].ctx
  {
    var s0 := With(sys, n, ConsoleReset(sys.cons[n]).(ctx := true, runningMain := true, button := Stop));
    var (s1, ok) := RunJs(s0, n, js);
    BusyIsMoreToDo(s1.cons[n].(runningMain := false), ok);
    assert RunMain(sys, n, js) == Conclude(With(s1, n, s1.cons[n].(runningMain := false)), n, ok);
  }

  /** Where a call of JavaScript in an otherwise calm system leads. */
  lemma LandsCalmly(s: System, n: string, outcome: Completion, m: Manners)
    requires CalmBut(s, n, m) && n in s.cons && IsBusy(s.cons[n]) == (s.cons[n], outcome == MoreToDo)
    requires outcome == MoreToDo ==> Lingering(s.cons[n]) && Rests(s.cons[n], m)
    ensures Lands(Calmly(m), s, n, outcome)
  {
    AskBusySame(s, n, outcome == MoreToDo);
    if outcome == MoreToDo {
      ChangedCalm(s, n, WithReason(s, n, MoreToDo).cons[n], m);
    }
  }

  lemma HandlerCalm(sys: System, n: string, js: Scripts, m: Manners)
    requires CalmBut(sys, n, m) && n in sys.cons && Prepared(sys.cons[n], m) && Makes(js, WithManners(m))
    ensures var (s, outcome) := Execute(sys, n, Callable, js);
            && CalmBut(s, n, m) && n in s.cons && IsBusy(s.cons[n]) == (s.cons[n], outcome == MoreToDo)
            && (outcome == MoreToDo ==> Lingering(s.cons[n]) && Rests(s.cons[n], m))
  {
    HandlerRests(sys, n, js, m);
    ExecuteCalm(sys, n, Callable, js, m);
    assert HadError !in sys.cons[n].status * {HadError, TimedOut, Stopped, ToChain, Closing, InExit};
    HandlerBusy(sys, n, js);
  }

  ghost function Calmly(m: Manners): Kept {
    Kept((s, n) => CalmBut(s, n, m), (s, n) => Calm(s, m), s => Calm(s, m))
  }

  // ----- the single steps of wrapping up -----

  /** Console n changes, but not in what it has registered or owes. */
  lemma ChangedCalm(s: System, n: string, c: ConsoleState, m: Manners)
    requires CalmBut(s, n, m) && n in s.cons && SameStake(s.cons[n], c)
    ensures CalmBut(With(s, n, c), n, m) && (Rests(c, m) ==> Calm(With(s, n, c), m))
  {
    RetoldInv(s, With(s, n, c));
    FewerCallable(s, With(s, n, c));
  }

  lemma DownCalm(sys: System, n: string, m: Manners)
    requires CalmBut(sys, n, m) && n in sys.cons
    ensures Calm(Down(sys, n), m)
  {
    DownInv(sys, n);
    FewerCallable(sys, Down(sys, n));
  }

  lemma RunExitCalm(sys: System, n: string, js: Scripts, m: Manners)
    requires Amid(sys, n) && CalmBut(sys, n, m) && Makes(js, WithManners(m))
    ensures CalmBut(RunExit(sys, n, js).0, n, m)
  {
    var s1 := EnterExit(sys, n);
    ChangedCalm(sys, n, s1.cons[n], m);
    ExecuteCalm(s1, n, s1.cons[n].exitHandler, js, m);
    var s2 := Execute(s1, n, s1.cons[n].exitHandler, js).0;
    ChangedCalm(s2, n, s2.cons[n].(status := s2.cons[n].status - {InExit}), m);
  }

  lemma ChainCalm(sys: System, n: string, m: Manners)
    requires n in sys.cons && Calm(sys, m) && Idle(sys.cons[n])
    ensures Calm(Chained(sys, n), m)
  {
    ChainInv(sys, n);
    FewerCallable(sys, Chained(sys, n));
  }

  lemma UnansweredCalm(sys: System, n: string, reason: Completion, m: Manners, js: Scripts)
    requires Calm(sys, m) && Due(sys, n) && Collect(sys, n).1.None? && Makes(js, WithManners(m))
    ensures Calm(Unanswered(sys, n, reason), m)
  {
    CallableSteps(m, js);
    UnansweredKeeps(CallableKept(), WithManners(m), sys, n, reason);
  }

  lemma CollectFinds(sys: System, n: string, m: Manners)
    requires Calm(sys, m) && Due(sys, n) && Collect(sys, n).1.Some?
    ensures Collect(sys, n).1.value.handler == Callable
  {
    var id, caller := sys.cons[n].brief.callbackId, sys.cons[n].brief.caller;
    assert id in BriefIds(sys);
    assert Collect(sys, n).1.value in sys.cons[caller].callbacks;
    KnownKind(sys, caller, Collect(sys, n).1.value);
  }

  /** Taking the registration changes only the console that holds it, which lingers. */
  lemma DeliveredOthers(sys: System, n: string, reason: Completion, m: Manners)
    requires Due(sys, n) && Collect(sys, n).1.Some? && forall k :: k in sys.cons ==> Rests(sys.cons[k], m)
    ensures var s, caller := Delivered(sys, n, reason), sys.cons[n].brief.caller;
            && s.cons.Keys == sys.cons.Keys && caller in s.cons && Prepared(s.cons[caller], m)
            && forall k :: k in sys.cons && k != caller ==> s.cons[k] == sys.cons[k]
  {
  }

  /** The registration a reply is due to is taken from a console that lingers, and what is
      found can be called. */
  lemma DeliveredCalm(sys: System, n: string, reason: Completion, m: Manners, js: Scripts)
    requires Calm(sys, m) && Due(sys, n) && Collect(sys, n).1.Some? && Makes(js, WithManners(m))
    ensures var s, caller := Delivered(sys, n, reason), sys.cons[n].brief.caller;
            CalmBut(s, caller, m) && caller in s.cons && Prepared(s.cons[caller], m) && Collect(sys, n).1.value.handler == Callable
  {
    CallableSteps(m, js);
    DeliveredKeeps(CallableKept(), WithManners(m), sys, n, reason);
    CollectFinds(sys, n, m);
    DeliveredOthers(sys, n, reason, m);
  }

  lemma AnsweredCalm(sys: System, n: string, reason: Completion, m: Manners, js: Scripts)
    requires Calm(sys, m) && Due(sys, n) && Collect(sys, n).1.Some? && Makes(js, WithManners(m))
    ensures var r := Answered(sys, n, reason, js);
            if r.1 then Calm(r.0, m) else CalmBut(r.0, sys.cons[n].brief.caller, m)
  {
    DeliveredCalm(sys, n, reason, m, js);
    AnswerCalm(Delivered(sys, n, reason), n, Collect(sys, n).1.value, m, js);
  }

  lemma AnswerCalm(sys: System, n: string, e: Entry, m: Manners, js: Scripts)
    requires Downed(sys, n) && Makes(js, WithManners(m)) && e.handler == Callable
    requires var caller := sys.cons[n].brief.caller;
             caller in sys.cons && CalmBut(sys, caller, m) && Prepared(sys.cons[caller], m)
    ensures var (s, busy, outcome) := Answer(sys, n, e, js);
            if busy then Calm(s, m) else CalmBut(s, sys.cons[n].brief.caller, m)
  {
    var caller := sys.cons[n].brief.caller;
    HandlerCalm(sys, caller, js, m);
    var (s1, outcome) := Execute(sys, caller, Callable, js);
    assert Touched(sys.cons[n], s1.cons[n]);
    ReplyDoneCalm(s1, n, caller, m);
    AskBusySame(ReplyDone(s1, n), caller, outcome == MoreToDo);
  }

  lemma ReplyDoneCalm(sys: System, n: string, caller: string, m: Manners)
    requires CalmBut(sys, caller, m) && n in sys.cons && caller in sys.cons && n != caller && Idle(sys.cons[n])
    ensures CalmBut(ReplyDone(sys, n), caller, m) && ReplyDone(sys, n).cons[caller] == sys.cons[caller]
  {
    ReplyDoneInv(sys, n);
    FewerCallable(sys, ReplyDone(sys, n));
  }

  lemma WrapsCalmly(m: Manners, js: Scripts)
    requires Makes(js, WithManners(m))
    ensures WrapSteps(Calmly(m), js)
  {
    var k := Calmly(m);
    forall s, n, reason {:trigger k.but(WithReason(s, n, reason), n)} | Amid(s, n) && k.but(s, n) ensures k.but(WithReason(s, n, reason), n) {
      ChangedCalm(s, n, WithReason(s, n, reason).cons[n], m);
    }
    forall s, n {:trigger k.due(Down(s, n), n)} | Amid(s, n) && k.but(s, n) ensures k.due(Down(s, n), n) {
      DownCalm(s, n, m);
    }
    forall s, n {:trigger k.but(RunExit(s, n, js).0, n)} | Amid(s, n) && k.but(s, n) ensures k.but(RunExit(s, n, js).0, n) {
      RunExitCalm(s, n, js, m);
    }
    forall s, n {:trigger k.due(AskBusy(s, n).0, n)} | Downed(s, n) && k.due(s, n) ensures k.due(AskBusy(s, n).0, n) {
      ChangedCalm(s, n, AskBusy(s, n).0.cons[n], m);
    }
    forall s, n {:trigger k.all(Chained(s, n))} | Downed(s, n) && k.due(s, n) ensures k.all(Chained(s, n)) {
      ChainCalm(s, n, m);
    }
    forall s, n, reason {:trigger k.all(Unanswered(s, n, reason))} |
        Downed(s, n) && k.due(s, n) && s.cons[n].brief.callbackId != 0 && Collect(s, n).1.None?
      ensures k.all(Unanswered(s, n, reason))
    {
      UnansweredCalm(s, n, reason, m, js);
    }
    forall s, n, reason {:trigger Answered(s, n, reason, js)} |
        Downed(s, n) && k.due(s, n) && s.cons[n].brief.callbackId != 0 && Collect(s, n).1.Some?
      ensures var r := Answered(s, n, reason, js);
              if r.1 then k.all(r.0) else k.but(r.0, s.cons[n].brief.caller)
    {
      AnsweredCalm(s, n, reason, m, js);
    }
  }

  // ----- the single steps of events -----

  lemma FiredCalm(s: System, n: string, e: Entry, rest: seq<Entry>, m: Manners)
    requires Calm(s, m) && AllSettled(s) && n in s.cons && TakenFrom(s.cons[n].callbacks, e, rest)
    requires e.handler != Missing || IsDispatched(e.kind)
    ensures var t := FiredOff(s, n, e, rest); CalmBut(t, n, m) && Prepared(t.cons[n], m) && e.handler == Callable
  {
    FiredOffInv(s, n, e, rest);
    FiredOffFewer(s, n, e, rest);
    FewerCallable(s, FiredOff(s, n, e, rest));
    KnownKind(s, n, e);
  }

  lemma FiresCalmly(m: Manners, js: Scripts)
    requires Makes(js, WithManners(m))
    ensures FireSteps(Calmly(m), js)
  {
    var k := Calmly(m);
    forall n, s, e, rest {:trigger Execute(FiredOff(s, n, e, rest), n, e.handler, js)} |
        && k.all(s) && AllSettled(s) && n in s.cons && TakenFrom(s.cons[n].callbacks, e, rest)
        && (e.handler != Missing || IsDispatched(e.kind))
      ensures var r := Execute(FiredOff(s, n, e, rest), n, e.handler, js); Lands(k, r.0, n, r.1)
    {
      FiredCalm(s, n, e, rest, m);
      HandlerCalm(FiredOff(s, n, e, rest), n, js, m);
      var r := Execute(FiredOff(s, n, e, rest), n, e.handler, js);
      LandsCalmly(r.0, n, r.1, m);
    }
  }

  /** A fresh run of the main script. */
  lemma MainCalm(sys: System, n: string, js: Scripts, m: Manners)
    requires CalmBut(sys, n, m) && n in sys.cons && Makes(js, WithManners(m))
    ensures var r := RunMain(sys, n, js); Lands(Calmly(m), r.0, n, r.1)
  {
    CallableSteps(m, js);
    MainKeeps(CallableKept(), WithManners(m), sys, n, js);
    MainRests(sys, n, js, m);
    MainBusy(sys, n, js);
    var r := RunMain(sys, n, js);
    var s0 := With(sys, n, ConsoleReset(sys.cons[n]).(ctx := true, runningMain := true, button := Stop));
    ChangedCalm(sys, n, s0.cons[n], m);
    OthersRest(s0, r.0, n, m);
    LandsCalmly(r.0, n, r.1, m);
  }

  lemma HandledCalmly(m: Manners, js: Scripts)
    requires Makes(js, WithManners(m))
    ensures HandSteps(Calmly(m), js)
  {
    var k := Calmly(m);
    forall s, n {:trigger k.all(Asked(s, n))} | k.all(s) && n in s.cons ensures k.all(Asked(s, n)) {
      ChangedCalm(s, n, Asked(s, n).cons[n], m);
    }
    forall s, n {:trigger AlertGone(s, n)} | k.all(s) && n in s.cons && s.cons[n].alert
      ensures if IsWaiting(ClearAlert(s.cons[n])).1 then k.all(AlertGone(s, n)) else k.but(AlertGone(s, n), n)
    {
      ChangedCalm(s, n, AlertGone(s, n).cons[n], m);
    }
    forall s, n {:trigger k.all(Unbriefed(s, n))} | k.all(s) && n in s.cons ensures k.all(Unbriefed(s, n)) {
      ChangedCalm(s, n, Unbriefed(s, n).cons[n], m);
    }
    forall s, n {:trigger RunMain(s, n, js)} | k.all(s) && n in s.cons ensures var r := RunMain(s, n, js); Lands(k, r.0, n, r.1) {
      MainCalm(s, n, js, m);
    }
    forall s, n {:trigger k.but(Stopping(s, n), n)} | k.all(s) && n in s.cons ensures k.but(Stopping(s, n), n) {
      ChangedCalm(s, n, Stopping(s, n).cons[n], m);
    }
  }

  lemma BookedCalmly(m: Manners)
    ensures PendingSteps(Calmly(m)) && MarkSteps(Calmly(m)) && UnmarkSteps(Calmly(m))
  {
    var k := Calmly(m);
    forall s {:trigger k.all(Popped(s))} | k.all(s) && s.pending != [] ensures k.all(Popped(s)) {
      PoppedInv(s);
      FewerCallable(s, Popped(s));
    }
    forall s {:trigger Popped(s)} | k.all(s) && s.pending != [] && s.pending[0].0 in s.cons
      ensures k.all(WithBrief(Popped(s), s.pending[0].0, s.pending[0].1))
    {
      var t := WithBrief(Popped(s), s.pending[0].0, s.pending[0].1);
      BriefFromPending(s, s.pending[0].0, s.pending[0].1);
      FewerCallable(s, t);
    }
    forall s, kind {:trigger k.all(Mark(s, kind))} | k.all(s) ensures k.all(Mark(s, kind)) {
      BitsCalm(s, Mark(s, kind).active, m);
    }
    forall s, kind {:trigger k.all(Unmarked(s, kind))} | k.all(s) ensures k.all(Unmarked(s, kind)) {
      BitsCalm(s, Unmarked(s, kind).active, m);
    }
  }

  lemma BitsCalm(sys: System, active: set<CallbackType>, m: Manners)
    requires Calm(sys, m)
    ensures Calm(sys.(active := active), m)
  {
    Fields(sys, active, sys.clock);
    SameSignatures(sys, sys.(active := active));
  }

  lemma CalmSteps(m: Manners, js: Scripts)
    requires Makes(js, WithManners(m))
    ensures AllSteps(Calmly(m), js)
  {
    WrapsCalmly(m, js);
    FiresCalmly(m, js);
    HandledCalmly(m, js);
    BookedCalmly(m);
  }

  // ----- over runs -----

  lemma WrapUpCalm(sys: System, n: string, reason: Completion, js: Scripts, m: Manners)
    requires n in sys.cons && sys.cons[n].ctx && CalmBut(sys, n, m) && SettledBut(sys, n) && Makes(js, WithManners(m))
    requires reason == MoreToDo ==> Lingering(sys.cons[n]) && Rests(sys.cons[n], m)
    ensures Calm(WrapUp(sys, n, reason, js), m)
  {
    WrapsCalmly(m, js);
    ChangedCalm(sys, n, WithReason(sys, n, MoreToDo).cons[n], m);
    WrapUpWalk(Calmly(m), sys, n, reason, js);
  }

  lemma RunCalm(sys: System, events: seq<Event>, js: Scripts, m: Manners)
    requires Calm(sys, m) && AllSettled(sys) && Makes(js, WithManners(m))
    ensures var r := RunEvents(sys, events, js); r.Some? ==> Calm(r.value, m)
  {
    CalmSteps(m, js);
    RunWalk(Calmly(m), sys, events, js);
  }

  /** The same, with a name for where the run leads. */
  lemma RunIsCalm(sys: System, events: seq<Event>, js: Scripts, m: Manners, s: System)
    requires Calm(sys, m) && AllSettled(sys) && Makes(js, WithManners(m)) && RunEvents(sys, events, js) == Some(s)
    ensures Calm(s, m) && AllSettled(s)
  {
    RunCalm(sys, events, js, m);
  }

  lemma StartCalm(names: seq<string>, m: Manners)
    ensures Calm(Start(names), m)
  {
    StartInv(names);
    assert AllSignatures(Start(names)) == {};
  }

  /** Whatever errors scripts catch, as long as a function is passed where a result is to be
      reported to: after any run of events every console is idle, or alive with something to
      wait for, in which case it waits as it should exactly if its button says Stop; and a
      cached answer about waiting is the true one. */
  lemma IdleOrLingering(names: seq<string>, events: seq<Event>, js: Scripts)
    requires Makes(js, WithManners(Manners(false, false)))
    ensures var r := RunEvents(Start(names), events, js);
            r.Some? ==> forall n :: n in r.value.cons ==>
              var c := r.value.cons[n];
              && (Idle(c) || Lingering(c)) && (Waiting(c) <==> c.button == Stop)
              && (c.cached ==> c.waiting == WaitingNow(c))
  {
    var m := Manners(false, false);
    StartCalm(names, m);
    RunCalm(Start(names), events, js, m);
  }

  /** The dichotomy: if scripts also let the errors of registering and of reading a dialogue
      end them, then after any run of events every console is idle (no context, nothing
      registered, no alert or message box, button Run) or waiting (live context, something to
      wait for, button Stop). */
  lemma IdleOrWaiting(names: seq<string>, events: seq<Event>, js: Scripts)
    requires Makes(js, WithManners(Manners(true, false)))
    ensures var r := RunEvents(Start(names), events, js);
            r.Some? ==> forall n :: n in r.value.cons ==>
              var c := r.value.cons[n];
              (Idle(c) || Waiting(c)) && (c.cached ==> c.waiting == WaitingNow(c))
  {
    var m := Manners(true, false);
    StartCalm(names, m);
    RunCalm(Start(names), events, js, m);
  }

  /** If they let the error of a message box that is refused end them, every console that is
      not idle has something registered or an alert on display. */
  lemma NothingStranded(names: seq<string>, events: seq<Event>, js: Scripts)
    requires Makes(js, WithManners(Manners(false, true)))
    ensures var r := RunEvents(Start(names), events, js);
            r.Some? ==> forall n :: n in r.value.cons ==> Idle(r.value.cons[n]) || CanWake(r.value.cons[n])
  {
    var m := Manners(false, true);
    StartCalm(names, m);
    RunCalm(Start(names), events, js, m);
  }
}
