/** The induction over wrapping up and replying, over events and over whole runs, once for
    all: what is to be kept is an argument, and only the single steps are left to prove. */
module Walks {
  import opened Wrappers
  import opened Callbacks
  import opened Lifecycle
  import opened Protocol
  import opened Events

  /** What is kept: while console n is in the middle of something, while console n is down and
      its reply is still due, and when control is back in the event loop. */
  datatype Kept = Kept(but: (System, string) -> bool, due: (System, string) -> bool, all: System -> bool)

  // ----- the single steps of wrapping up -----

  ghost predicate Amid(sys: System, n: string) {
    n in sys.cons && sys.cons[n].ctx && SettledBut(sys, n)
  }

  ghost predicate Downed(sys: System, n: string) {
    n in sys.cons && Idle(sys.cons[n]) && AllSettled(sys)
  }

  /** No registration was found to answer. */
  function Unanswered(sys: System, n: string, reason: Completion): System
    requires Downed(sys, n)
  {
    Noted(Collect(sys, n).0, [Replied(n, sys.cons[n].brief.callbackId, reason, false)])
  }

  /** The registration has been found, taken and noted as answered. */
  function Delivered(sys: System, n: string, reason: Completion): (s: System)
    requires Downed(sys, n) && Collect(sys, n).1.Some?
    ensures Downed(s, n) && s.cons[n].brief == sys.cons[n].brief
    ensures sys.cons[n].brief.caller in s.cons && s.cons[sys.cons[n].brief.caller].ctx
    ensures Live(s) == Live(sys)
  {
    var (s, found) := Collect(sys, n);
    var t := Noted(s, ReplyNotes(n, s.cons[n].brief, reason, found.value));
    assert Live(t) == Live(s);
    t
  }

  /** Its handler has been called. */
  function Answered(sys: System, n: string, reason: Completion, js: Scripts): (r: (System, bool, Completion))
    requires Downed(sys, n) && Collect(sys, n).1.Some?
    ensures Amid(r.0, sys.cons[n].brief.caller) && Live(r.0) == Live(sys)
    ensures !r.1 ==> r.2 != MoreToDo
  {
    var r := Answer(Delivered(sys, n, reason), n, Collect(sys, n).1.value, js);
    assert sys.cons[n].brief.caller in Live(r.0);
    r
  }

  ghost predicate WrapSteps(k: Kept, js: Scripts) {
    && (forall s, n, reason {:trigger k.but(WithReason(s, n, reason), n)} ::
         Amid(s, n) && k.but(s, n) ==> k.but(WithReason(s, n, reason), n))
    && (forall s, n {:trigger k.due(Down(s, n), n)} :: Amid(s, n) && k.but(s, n) ==> k.due(Down(s, n), n))
    && (forall s, n {:trigger k.but(RunExit(s, n, js).0, n)} :: Amid(s, n) && k.but(s, n) ==> k.but(RunExit(s, n, js).0, n))
    && (forall s, n {:trigger k.due(AskBusy(s, n).0, n)} :: Downed(s, n) && k.due(s, n) ==> k.due(AskBusy(s, n).0, n))
    && (forall s, n {:trigger k.all(Chained(s, n))} :: Downed(s, n) && k.due(s, n) ==> k.all(Chained(s, n)))
    && (forall s, n {:trigger k.due(s, n)} :: Downed(s, n) && k.due(s, n) && s.cons[n].brief.callbackId == 0 ==> k.all(s))
    && (forall s, n, reason {:trigger k.all(Unanswered(s, n, reason))} ::
         Downed(s, n) && k.due(s, n) && s.cons[n].brief.callbackId != 0 && Collect(s, n).1.None? ==> k.all(Unanswered(s, n, reason)))
    && (forall s, n, reason {:trigger Answered(s, n, reason, js)} ::
         Downed(s, n) && k.due(s, n) && s.cons[n].brief.callbackId != 0 && Collect(s, n).1.Some? ==>
           var r := Answered(s, n, reason, js);
           if r.1 then k.all(r.0) else k.but(r.0, s.cons[n].brief.caller))
  }

  // ----- wrapping up -----

  lemma {:induction false} WrapUpWalk(k: Kept, sys: System, n: string, reason: Completion, js: Scripts)
    requires WrapSteps(k, js) && Amid(sys, n) && k.but(sys, n)
    requires reason == MoreToDo ==> k.all(WithReason(sys, n, MoreToDo))
    ensures k.all(WrapUp(sys, n, reason, js))
    decreases |Live(sys)|, 1
  {
    var s := WithReason(sys, n, reason);
    assert k.but(s, n);
    DownIsDead(s, n);
    if reason == TimedOut || reason == Closing || reason == HadError {
      assert k.due(Down(s, n), n);
      ReplyWalk(k, Down(s, n), n, if reason == Closing then Closed else reason, js);
    } else if reason != MoreToDo {
      NormalEndWalk(k, s, n, reason, js);
    }
  }

  lemma {:induction false} NormalEndWalk(k: Kept, sys: System, n: string, reason: Completion, js: Scripts)
    requires WrapSteps(k, js) && Amid(sys, n) && k.but(sys, n)
    ensures k.all(NormalEnd(sys, n, reason, js))
    decreases |Live(sys)|, 1, 0
  {
    if !WrapsNormally(reason) || sys.cons[n].exitHandler == Missing {
      FinishWalk(k, sys, n, reason, js);
    } else {
      var (s, ended) := RunExit(sys, n, js);
      assert k.but(RunExit(sys, n, js).0, n);
      assert n in Live(s);
      DownIsDead(s, n);
      if ended == TimedOut || ended == HadError {
        assert k.due(Down(s, n), n);
        ReplyWalk(k, Down(s, n), n, ended, js);
      } else {
        FinishWalk(k, s, n, reason, js);
      }
    }
  }

  lemma {:induction false} FinishWalk(k: Kept, sys: System, n: string, reason: Completion, js: Scripts)
    requires WrapSteps(k, js) && Amid(sys, n) && k.but(sys, n)
    ensures k.all(Finish(sys, n, reason, js))
    decreases |Live(sys)|, 0
  {
    DownIsDead(sys, n);
    var d := Down(sys, n);
    assert k.due(d, n);
    var s := AskBusy(d, n).0;
    assert k.due(AskBusy(d, n).0, n);
    FinishUnfolds(sys, n, reason, js);
    if reason == ToChain {
      assert k.all(Chained(s, n));
    } else {
      ReplyWalk(k, s, n, reason, js);
    }
  }

  lemma FinishUnfolds(sys: System, n: string, reason: Completion, js: Scripts)
    requires Amid(sys, n)
    ensures var s := AskBusy(Down(sys, n), n).0;
            && Downed(s, n) && Live(s) == Live(sys) - {n}
            && Finish(sys, n, reason, js) == if reason == ToChain then Chained(s, n) else Reply(s, n, reason, js)
  {
    DownIsDead(sys, n);
    assert AskBusy(Down(sys, n), n).0 == With(sys, n, IsBusy(Cleanup(sys.cons[n])).0);
  }

  lemma {:induction false} ReplyWalk(k: Kept, sys: System, n: string, reason: Completion, js: Scripts)
    requires WrapSteps(k, js) && Downed(sys, n) && k.due(sys, n)
    ensures k.all(Reply(sys, n, reason, js))
    decreases |Live(sys)|, 3
  {
    if sys.cons[n].brief.callbackId == 0 {
      assert k.all(sys);
    } else if Collect(sys, n).1.None? {
      assert k.all(Unanswered(sys, n, reason));
    } else {
      var (s, busy, outcome) := Answered(sys, n, reason, js);
      HandOverUnfolds(sys, n, reason, js);
      if !busy {
        WrapUpWalk(k, s, sys.cons[n].brief.caller, outcome, js);
      }
    }
  }

  lemma HandOverUnfolds(sys: System, n: string, reason: Completion, js: Scripts)
    requires Downed(sys, n) && sys.cons[n].brief.callbackId != 0 && Collect(sys, n).1.Some?
    ensures var (s, busy, outcome) := Answered(sys, n, reason, js);
            Reply(sys, n, reason, js) == if busy then s else WrapUp(s, sys.cons[n].brief.caller, outcome, js)
  {
  }

  // ----- the single steps of events -----

  /** The registry without what stands at i, unless that is persistent. */
  function After(reg: seq<Entry>, i: nat): seq<Entry>
    requires i < |reg|
  {
    if reg[i].persistent then reg else RemoveAt(reg, i)
  }

  /** The ways in which the entry to be called is taken from its registry. */
  ghost predicate TakenFrom(reg: seq<Entry>, e: Entry, rest: seq<Entry>) {
    exists i :: 0 <= i < |reg| && reg[i] == e &&
      (rest == After(reg, i) || (e.kind == ContextSubmenu && rest == CancelId(After(reg, i), e.parentId)))
  }

  lemma GetTakes(reg: seq<Entry>, id: int)
    ensures var (rest, found) := Get(reg, id, false);
            if found.Some? then found.value.id == id && TakenFrom(reg, found.value, rest) else rest == reg
  {
    var i := IndexOf(reg, id);
    if i < |reg| {
      assert Get(reg, id, false).0 == After(reg, i);
    }
  }

  lemma ChosenTakes(reg: seq<Entry>, id: int)
    ensures var (rest, found) := ChooseMenuItem(reg, id); found.Some? ==> TakenFrom(reg, found.value, rest)
  {
    var i := IndexOf(reg, id);
    if i < |reg| {
      assert Get(reg, id, false).0 == After(reg, i);
    }
  }

  /** The entry e of console n has been taken out and noted as called. */
  function FiredOff(sys: System, n: string, e: Entry, rest: seq<Entry>): (s: System)
    requires n in sys.cons
    ensures Live(s) == Live(sys)
  {
    var s := Noted(TakeEntry(sys, n, rest), [Fired(n, e.id, e.persistent)]);
    assert Live(s) == Live(TakeEntry(sys, n, rest));
    s
  }

  lemma FiredOffAmid(sys: System, n: string, e: Entry, rest: seq<Entry>)
    requires n in sys.cons && AllSettled(sys) && TakenFrom(sys.cons[n].callbacks, e, rest)
    ensures sys.cons[n].ctx && Amid(FiredOff(sys, n, e, rest), n)
    ensures AllSettledBarring(FiredOff(sys, n, e, rest), n) && AllSettledBarring(TakeEntry(sys, n, rest), n)
  {
  }

  /** Console n has been asked whether it is waiting. */
  function Asked(sys: System, n: string): (s: System)
    requires n in sys.cons
    ensures Live(s) == Live(sys) && (AllSettled(sys) ==> AllSettled(s))
  {
    LiveWith(sys, n, IsWaiting(sys.cons[n]).0);
    With(sys, n, IsWaiting(sys.cons[n]).0)
  }

  function AlertGone(sys: System, n: string): (s: System)
    requires n in sys.cons
    ensures Live(s) == Live(sys)
  {
    LiveWith(sys, n, IsWaiting(ClearAlert(sys.cons[n])).0);
    With(sys, n, IsWaiting(ClearAlert(sys.cons[n])).0)
  }

  function WithBrief(sys: System, n: string, brief: Brief): (s: System)
    requires n in sys.cons
    ensures Live(s) == Live(sys) && (AllSettled(sys) ==> AllSettled(s))
  {
    LiveWith(sys, n, sys.cons[n].(brief := brief));
    With(sys, n, sys.cons[n].(brief := brief))
  }

  /** The text of the brief is forgotten. */
  function Unbriefed(sys: System, n: string): System
    requires n in sys.cons
  {
    WithBrief(sys, n, sys.cons[n].brief.(hasBrief := false))
  }

  function Stopping(sys: System, n: string): (s: System)
    requires n in sys.cons
    ensures Live(s) == Live(sys)
  {
    LiveWith(sys, n, sys.cons[n].(status := {}));
    With(sys, n, sys.cons[n].(status := {}))
  }

  function Popped(sys: System): (s: System)
    requires sys.pending != []
    ensures Live(s) == Live(sys) && (AllSettled(sys) ==> AllSettled(s))
  {
    sys.(pending := sys.pending[1..])
  }

  function Unmarked(sys: System, kind: CallbackType): (s: System)
    ensures Live(s) == Live(sys) && (AllSettled(sys) ==> AllSettled(s))
  {
    sys.(active := sys.active - {kind})
  }

  /** A call of JavaScript in console n has led to s. */
  ghost predicate Lands(k: Kept, s: System, n: string, outcome: Completion) {
    && n in s.cons && k.but(s, n)
    && (if IsBusy(s.cons[n]).1 then k.all(AskBusy(s, n).0) else k.but(AskBusy(s, n).0, n))
    && (outcome == MoreToDo ==> k.all(WithReason(s, n, MoreToDo)))
  }

  /** Calling the handler of an entry of console n. */
  ghost predicate FireStepsIn(k: Kept, js: Scripts, n: string) {
    forall s, e, rest {:trigger Execute(FiredOff(s, n, e, rest), n, e.handler, js)} ::
      && k.all(s) && AllSettled(s) && n in s.cons && TakenFrom(s.cons[n].callbacks, e, rest)
      && (e.handler != Missing || IsDispatched(e.kind)) ==>
        var r := Execute(FiredOff(s, n, e, rest), n, e.handler, js);
        Lands(k, r.0, n, r.1)
  }

  ghost predicate FireSteps(k: Kept, js: Scripts) {
    forall n {:trigger FireStepsIn(k, js, n)} :: FireStepsIn(k, js, n)
  }

  ghost predicate AskSteps(k: Kept) {
    forall s, n {:trigger k.all(Asked(s, n))} :: k.all(s) && AllSettled(s) && n in s.cons ==> k.all(Asked(s, n))
  }

  /** Everything else that happens to a console from outside. */
  ghost predicate HandSteps(k: Kept, js: Scripts) {
    && AskSteps(k)
    && (forall s, n {:trigger AlertGone(s, n)} :: k.all(s) && AllSettled(s) && n in s.cons && s.cons[n].alert ==>
         if IsWaiting(ClearAlert(s.cons[n])).1 then k.all(AlertGone(s, n)) else k.but(AlertGone(s, n), n))
    && (forall s, n {:trigger k.all(Unbriefed(s, n))} :: k.all(s) && AllSettled(s) && n in s.cons ==> k.all(Unbriefed(s, n)))
    && (forall s, n {:trigger RunMain(s, n, js)} :: k.all(s) && AllSettled(s) && n in s.cons ==>
         var r := RunMain(s, n, js); Lands(k, r.0, n, r.1))
    && (forall s, n {:trigger k.but(Stopping(s, n), n)} :: k.all(s) && AllSettled(s) && n in s.cons && s.cons[n].ctx ==>
         k.but(Stopping(s, n), n))
  }

  ghost predicate PendingSteps(k: Kept) {
    && (forall s {:trigger k.all(Popped(s))} :: k.all(s) && s.pending != [] ==> k.all(Popped(s)))
    && (forall s {:trigger Popped(s)} :: k.all(s) && s.pending != [] && s.pending[0].0 in s.cons ==>
         k.all(WithBrief(Popped(s), s.pending[0].0, s.pending[0].1)))
  }

  ghost predicate MarkSteps(k: Kept) {
    && (forall s, kind {:trigger k.all(Mark(s, kind))} :: k.all(s) ==> k.all(Mark(s, kind)))
  }

  ghost predicate UnmarkSteps(k: Kept) {
    forall s, kind {:trigger k.all(Unmarked(s, kind))} :: k.all(s) ==> k.all(Unmarked(s, kind))
  }

  // ----- events -----

  lemma TailWalk(k: Kept, sys: System, n: string, outcome: Completion, js: Scripts)
    requires WrapSteps(k, js) && Amid(sys, n) && Lands(k, sys, n, outcome)
    requires IsBusy(sys.cons[n]).1 ==> Settled(IsBusy(sys.cons[n]).0)
    requires !IsBusy(sys.cons[n]).1 ==> outcome != MoreToDo
    ensures k.all(Tail(sys, n, outcome, js).0)
  {
    var (s, busy) := AskBusy(sys, n);
    if !busy {
      WrapUpWalk(k, s, n, outcome, js);
    }
  }

  lemma CallWalk(k: Kept, sys: System, n: string, e: Entry, rest: seq<Entry>, js: Scripts)
    requires WrapSteps(k, js) && FireStepsIn(k, js, n) && k.all(sys) && AllSettled(sys) && n in sys.cons && sys.cons[n].ctx
    requires TakenFrom(sys.cons[n].callbacks, e, rest) && (e.handler != Missing || IsDispatched(e.kind))
    ensures AllSettledBarring(TakeEntry(sys, n, rest), n)
    ensures k.all(Call(TakeEntry(sys, n, rest), n, e, js).0)
  {
    FiredOffAmid(sys, n, e, rest);
    var s1 := FiredOff(sys, n, e, rest);
    var (s2, outcome) := Execute(FiredOff(sys, n, e, rest), n, e.handler, js);
    assert Lands(k, s2, n, outcome);
    CarriesSettled(s1, s2, n);
    AfterExecute(s1, n, e.handler, js);
    TailWalk(k, s2, n, outcome, js);
  }

  lemma FireEntryWalk(k: Kept, sys: System, n: string, id: int, js: Scripts)
    requires WrapSteps(k, js) && FireStepsIn(k, js, n) && k.all(sys) && AllSettled(sys) && n in sys.cons
    requires Bound(sys.cons[n].callbacks, id)
    ensures k.all(FireEntry(sys, n, id, js))
  {
    GetTakes(sys.cons[n].callbacks, id);
    var (rest, found) := Get(sys.cons[n].callbacks, id, false);
    if found.Some? {
      FiredOffAmid(sys, n, found.value, rest);
      CallWalk(k, sys, n, found.value, rest, js);
    }
  }

  lemma CallAndWrapWalk(k: Kept, sys: System, n: string, e: Entry, rest: seq<Entry>, js: Scripts)
    requires WrapSteps(k, js) && FireStepsIn(k, js, n) && k.all(sys) && AllSettled(sys) && n in sys.cons && sys.cons[n].ctx
    requires TakenFrom(sys.cons[n].callbacks, e, rest) && e.handler != Missing
    ensures AllSettledBarring(TakeEntry(sys, n, rest), n)
    ensures k.all(CallAndWrap(TakeEntry(sys, n, rest), n, e, js))
  {
    FiredOffAmid(sys, n, e, rest);
    var s1 := FiredOff(sys, n, e, rest);
    var (s2, outcome) := Execute(FiredOff(sys, n, e, rest), n, e.handler, js);
    assert Lands(k, s2, n, outcome);
    CarriesSettled(s1, s2, n);
    WrapUpWalk(k, s2, n, outcome, js);
  }

  lemma PressButtonWalk(k: Kept, sys: System, n: string, id: int, js: Scripts)
    requires WrapSteps(k, js) && FireStepsIn(k, js, n) && k.all(sys) && AllSettled(sys) && n in sys.cons
    requires Bound(sys.cons[n].callbacks, id)
    ensures k.all(PressButton(sys, n, id, js))
  {
    GetTakes(sys.cons[n].callbacks, id);
    var (rest, found) := Get(sys.cons[n].callbacks, id, false);
    if sys.cons[n].ctx && found.Some? {
      CallAndWrapWalk(k, sys, n, found.value, rest, js);
    }
  }

  lemma DismissAlertWalk(k: Kept, sys: System, n: string, js: Scripts)
    requires WrapSteps(k, js) && HandSteps(k, js) && k.all(sys) && AllSettled(sys) && n in sys.cons
    ensures k.all(DismissAlert(sys, n, js))
  {
    if sys.cons[n].alert {
      var s := AlertGone(sys, n);
      if !IsWaiting(ClearAlert(sys.cons[n])).1 {
        WrapUpWalk(k, s, n, Done, js);
      }
    }
  }

  /** The main script of console n, and what follows. */
  lemma RunToEndWalk(k: Kept, sys: System, n: string, js: Scripts)
    requires WrapSteps(k, js) && n in sys.cons && SettledBut(sys, n)
    requires var r := RunMain(sys, n, js); Lands(k, r.0, n, r.1)
    ensures k.all(RunToEnd(sys, n, js))
  {
    var (t, outcome) := RunMain(sys, n, js);
    MainEnds(sys, n, js, t, outcome);
    TailWalk(k, t, n, outcome, js);
  }

  lemma StopPressedWalk(k: Kept, sys: System, n: string, js: Scripts)
    requires WrapSteps(k, js) && HandSteps(k, js) && k.all(sys) && AllSettled(sys) && n in sys.cons && sys.cons[n].ctx
    ensures k.all(StopPressed(sys, n, js))
  {
    assert k.but(Stopping(sys, n), n);
    WrapUpWalk(k, Stopping(sys, n), n, Stopped, js);
  }

  lemma DoRunCommandWalk(k: Kept, sys: System, n: string, brief: Brief, js: Scripts)
    requires WrapSteps(k, js) && HandSteps(k, js) && k.all(sys) && AllSettled(sys) && n in sys.cons
    requires k.all(WithBrief(sys, n, brief))
    ensures k.all(DoRunCommand(sys, n, brief, js))
  {
    if sys.cons[n].button == Run {
      RunToEndWalk(k, WithBrief(sys, n, brief), n, js);
    } else {
      StopPressedWalk(k, sys, n, js);
    }
  }

  lemma PressRunWalk(k: Kept, sys: System, n: string, js: Scripts)
    requires WrapSteps(k, js) && HandSteps(k, js) && k.all(sys) && AllSettled(sys) && n in sys.cons
    ensures k.all(PressRun(sys, n, js))
  {
    var s, brief := Unbriefed(sys, n), sys.cons[n].brief.(hasBrief := false);
    assert k.all(Unbriefed(sys, n));
    BriefedTwice(sys, n, brief);
    DoRunCommandWalk(k, s, n, brief, js);
  }

  lemma BriefedTwice(sys: System, n: string, brief: Brief)
    requires n in sys.cons
    ensures WithBrief(WithBrief(sys, n, brief), n, brief) == WithBrief(sys, n, brief)
  {
    var c := sys.cons[n].(brief := brief);
    assert c.(brief := brief) == c;
    assert sys.cons[n := c][n := c] == sys.cons[n := c];
  }

  lemma RunPendingWalk(k: Kept, sys: System, js: Scripts)
    requires WrapSteps(k, js) && HandSteps(k, js) && PendingSteps(k) && k.all(sys) && AllSettled(sys)
    ensures k.all(RunPending(sys, js))
  {
    if sys.pending != [] {
      var (n, brief) := sys.pending[0];
      assert k.all(Popped(sys));
      if n in sys.cons {
        DoRunCommandWalk(k, Popped(sys), n, brief, js);
      }
    }
  }

  lemma MenuItemWalk(k: Kept, sys: System, n: string, id: int, js: Scripts)
    requires WrapSteps(k, js) && HandSteps(k, js) && FireStepsIn(k, js, n) && k.all(sys) && AllSettled(sys) && n in sys.cons
    ensures k.all(MenuItemIn(sys, n, id, js))
  {
    var s := Asked(sys, n);
    assert k.all(Asked(sys, n));
    ChosenTakes(s.cons[n].callbacks, id);
    var (rest, found) := ChooseMenuItem(s.cons[n].callbacks, id);
    if IsWaiting(sys.cons[n]).1 && found.Some? && found.value.handler != Missing {
      FiredOffAmid(s, n, found.value, rest);
      CallWalk(k, s, n, found.value, rest, js);
    }
  }

  lemma {:induction false} ChooseMenuWalk(k: Kept, sys: System, names: seq<string>, id: int, js: Scripts)
    requires WrapSteps(k, js) && HandSteps(k, js) && FireSteps(k, js) && k.all(sys) && AllSettled(sys)
    ensures k.all(ChooseMenu(sys, names, id, js))
    decreases |names|
  {
    if names != [] {
      if names[0] in sys.cons {
        assert FireStepsIn(k, js, names[0]);
        MenuItemWalk(k, sys, names[0], id, js);
        ChooseMenuWalk(k, MenuItemIn(sys, names[0], id, js), names[1..], id, js);
      } else {
        ChooseMenuWalk(k, sys, names[1..], id, js);
      }
    }
  }

  lemma FireAtWalk(k: Kept, sys: System, n: string, i: nat, js: Scripts)
    requires WrapSteps(k, js) && FireStepsIn(k, js, n) && k.all(sys) && AllSettled(sys) && n in sys.cons && sys.cons[n].ctx
    requires i < |sys.cons[n].callbacks| && IsDispatched(sys.cons[n].callbacks[i].kind)
    ensures k.all(FireAt(sys, n, i, js).0)
  {
    var reg := sys.cons[n].callbacks;
    assert TakenFrom(reg, reg[i], After(reg, i));
    CallWalk(k, sys, n, reg[i], After(reg, i), js);
  }

  lemma PassWalk(k: Kept, sys: System, n: string, i: nat, kind: CallbackType, mouse: set<MouseEvent>, js: Scripts)
    requires WrapSteps(k, js) && FireStepsIn(k, js, n) && MarkSteps(k) && k.all(sys) && AllSettled(sys) && n in sys.cons && sys.cons[n].ctx
    requires i < |sys.cons[n].callbacks| && IsDispatched(kind)
    ensures k.all(Pass(sys, n, i, kind, mouse, js).0)
  {
    assert k.all(Mark(sys, kind));
    if Wants(sys.cons[n].callbacks[i], kind, mouse) {
      FireAtWalk(k, Mark(sys, kind), n, i, js);
    }
  }

  lemma {:induction false} DispatchFromWalk(k: Kept, sys: System, n: string, i: nat, kind: CallbackType, mouse: set<MouseEvent>, js: Scripts,
                                            passes: nat)
    requires WrapSteps(k, js) && FireStepsIn(k, js, n) && MarkSteps(k) && k.all(sys) && AllSettled(sys) && n in sys.cons && sys.cons[n].ctx
    requires IsDispatched(kind)
    ensures k.all(DispatchFrom(sys, n, i, kind, mouse, js, passes).0)
    decreases passes, |sys.cons[n].callbacks| - i
  {
    if i < |sys.cons[n].callbacks| {
      var fires := Wants(sys.cons[n].callbacks[i], kind, mouse);
      if !fires || passes > 0 {
        PassWalk(k, sys, n, i, kind, mouse, js);
        var (s, j, wrapped) := Pass(sys, n, i, kind, mouse, js);
        if !wrapped {
          DispatchFromWalk(k, s, n, j, kind, mouse, js, if fires then passes - 1 else passes);
        }
      }
    }
  }

  lemma DispatchInWalk(k: Kept, sys: System, n: string, kind: CallbackType, mouse: set<MouseEvent>, js: Scripts, passes: nat)
    requires WrapSteps(k, js) && AskSteps(k) && FireStepsIn(k, js, n) && MarkSteps(k) && k.all(sys) && AllSettled(sys) && IsDispatched(kind)
    ensures k.all(DispatchIn(sys, n, kind, mouse, js, passes).0)
  {
    if n in sys.cons {
      assert k.all(Asked(sys, n));
      if IsWaiting(sys.cons[n]).1 {
        DispatchFromWalk(k, Asked(sys, n), n, 0, kind, mouse, js, passes);
      }
    }
  }

  lemma {:induction false} DispatchToWalk(k: Kept, sys: System, names: seq<string>, kind: CallbackType, mouse: set<MouseEvent>, js: Scripts,
                                          passes: nat)
    requires WrapSteps(k, js) && AskSteps(k) && (forall n :: n in names ==> FireStepsIn(k, js, n)) && MarkSteps(k) && k.all(sys) && AllSettled(sys) && IsDispatched(kind)
    ensures k.all(DispatchTo(sys, names, kind, mouse, js, passes).0)
    decreases |names|
  {
    if names != [] {
      DispatchInWalk(k, sys, names[0], kind, mouse, js, passes);
      var (s, left, ended) := DispatchIn(sys, names[0], kind, mouse, js, passes);
      if ended {
        DispatchToWalk(k, s, names[1..], kind, mouse, js, left);
      }
    }
  }

  lemma DispatchWalk(k: Kept, sys: System, kind: CallbackType, mouse: set<MouseEvent>, js: Scripts, passes: nat)
    requires WrapSteps(k, js) && HandSteps(k, js) && FireSteps(k, js) && MarkSteps(k) && UnmarkSteps(k) && k.all(sys) && AllSettled(sys)
    ensures k.all(Dispatch(sys, kind, mouse, js, passes).0)
  {
    if IsDispatched(kind) && kind in sys.active {
      assert k.all(Unmarked(sys, kind));
      assert forall n :: n in sys.order ==> FireStepsIn(k, js, n);
      DispatchToWalk(k, Unmarked(sys, kind), sys.order, kind, mouse, js, passes);
    }
  }

  ghost predicate AllSteps(k: Kept, js: Scripts) {
    WrapSteps(k, js) && FireSteps(k, js) && HandSteps(k, js) && MarkSteps(k) && UnmarkSteps(k) && PendingSteps(k)
  }

  /** Any event but an arrival or a run that comes up. */
  lemma QuietStepWalk(k: Kept, sys: System, e: Event, js: Scripts)
    requires WrapSteps(k, js) && FireSteps(k, js) && HandSteps(k, js) && k.all(sys) && AllSettled(sys)
    requires !e.Arrival? && !e.PendingRun?
    ensures Step(sys, e, js).Some? && k.all(Step(sys, e, js).value)
  {
    if Addressed(sys, e) {
      match e
      case RunButton(n) => PressRunWalk(k, sys, n, js);
      case Listener(n, id) =>
        assert FireStepsIn(k, js, n);
        FireEntryWalk(k, sys, n, id, js);
      case DialogueButton(n, id) =>
        assert FireStepsIn(k, js, n);
        PressButtonWalk(k, sys, n, id, js);
      case AlertDismissed(n) => DismissAlertWalk(k, sys, n, js);
      case MenuChosen(id) => ChooseMenuWalk(k, sys, sys.order, id, js);
    }
  }

  lemma StepWalk(k: Kept, sys: System, e: Event, js: Scripts)
    requires AllSteps(k, js) && k.all(sys) && AllSettled(sys)
    ensures var r := Step(sys, e, js); r.Some? ==> k.all(r.value)
  {
    if e.Arrival? {
      DispatchWalk(k, sys, e.kind, e.mouse, js, e.passes);
    } else if e.PendingRun? {
      RunPendingWalk(k, sys, js);
    } else {
      QuietStepWalk(k, sys, e, js);
    }
  }

  lemma {:induction false} RunWalk(k: Kept, sys: System, events: seq<Event>, js: Scripts)
    requires AllSteps(k, js) && k.all(sys) && AllSettled(sys)
    ensures var r := RunEvents(sys, events, js); r.Some? ==> k.all(r.value)
    decreases |events|
  {
    if events != [] {
      StepWalk(k, sys, events[0], js);
      var s := Step(sys, events[0], js);
      if s.Some? {
        RunWalk(k, s.value, events[1..], js);
      }
    }
  }
}
