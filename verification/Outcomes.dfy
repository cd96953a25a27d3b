/** What a call of JavaScript comes to, read off what the script does. */
module Outcomes {
  import opened Wrappers
  import opened Callbacks
  import opened Lifecycle
  import opened Protocol
  import opened Events
  import opened Walks
  import opened Quiescence
  import opened Dispatching

  // ----- which calls raise an error -----

  /** What counts as busy when a script of console n asks; an await registers first. */
  predicate Engaged(sys: System, n: string, target: string, registered: bool)
    requires n in sys.cons && target in sys.cons
  {
    var c := sys.cons[target];
    c.runningMain || if c.cached then c.waiting else |c.callbacks| > 0 || c.msgBox || c.alert || (registered && target == n)
  }

  predicate Throws(sys: System, n: string, a: Act)
    requires n in sys.cons
  {
    var c := sys.cons[n];
    var exiting := InExit in c.status;
    match a
    case Register(kind, _, _, _) => exiting || kind == ContextSubmenu || kind == ConsoleReply || |c.callbacks| >= 500
    case Menu(_, items) => exiting || (exists i :: 0 <= i < |items| && !items[i]) || |c.callbacks| + 1 + |items| > 500
    case CancelByType(kind) => exiting && kind in {AIS, Navigation, ActiveLeg, ContextMenu, ConsoleReply, Dialogue}
    case CancelById(kind, _) => exiting && kind in {AIS, Navigation, ActiveLeg, ContextMenu, ConsoleReply, Dialogue}
    case ReadDialogue(id) => forall i :: 0 <= i < |c.callbacks| ==> c.callbacks[i].id != id
    case ShowAlert => false
    case CancelAlert => false
    case MessageBox(answer) => answer != Accepted
    case StopScript => true
    case Chain(_, _) => true
    case OnExit(_) => exiting
    case GetBrief => !c.brief.hasBrief
    case Fail(_) => true
    case AwaitResult(target, _, _) => exiting || |c.callbacks| >= 500 || target !in sys.cons || Engaged(sys, n, target, true)
    case RunConsole(target, _) => target == n || target !in sys.cons || sys.cons[target].ctx
    case ConsoleBusy(target) => target !in sys.cons
  }

  lemma {:induction false} ItemsThrow(c: ConsoleState, owner: int, persistent: bool, items: seq<bool>, next: int)
    requires |c.callbacks| <= 500
    ensures AddItems(c, owner, persistent, items, next).threw <==>
            (exists i :: 0 <= i < |items| && !items[i]) || |c.callbacks| + |items| > 500
    decreases |items|
  {
    if items != [] && items[0] && |c.callbacks| < 500 {
      var r := NewCallbackEntry(c, SubmenuEntry(next, owner, persistent, items[0]), next);
      var c1 := r.c.(callbacks := ListWithOwner(r.c.callbacks, owner, next));
      ItemsThrow(c1, owner, persistent, items[1..], next + 1);
      assert (exists i :: 0 <= i < |items| && !items[i]) <==> exists i :: 0 <= i < |items[1..]| && !items[1..][i] by {
        if i :| 0 <= i < |items| && !items[i] {
          assert !items[1..][i - 1];
        }
      }
    }
  }

  lemma MenuThrows(sys: System, n: string, a: Act)
    requires n in sys.cons && a.Menu?
    ensures RegisterMenu(sys.cons[n], a.persistent, a.itemsCallable, sys.nextId).threw <==> Throws(sys, n, a)
  {
    var c := sys.cons[n];
    if InExit !in c.status && |c.callbacks| < 500 {
      var r := NewCallbackEntry(c, MenuOwner(sys.nextId, a.persistent), sys.nextId);
      ItemsThrow(r.c, sys.nextId, a.persistent, a.itemsCallable, r.nextId);
    }
  }

  lemma LocalThrows(sys: System, n: string, a: Act)
    requires n in sys.cons && IsLocal(a)
    ensures Perform(sys.cons[n], a, sys.nextId).threw <==> Throws(sys, n, a)
  {
    match a
    case Menu(_, _) => MenuThrows(sys, n, a);
    case Register(_, _, _, _) =>
    case ReadDialogue(id) =>
    case _ =>
  }

  lemma AskThrows(sys: System, n: string, target: string, brief: Brief)
    requires n in sys.cons
    ensures AskToRun(sys, n, target, brief).1 <==> target !in sys.cons || Engaged(sys, n, target, false)
  {
  }

  lemma AwaitThrows(sys: System, n: string, a: Act)
    requires n in sys.cons && a.AwaitResult?
    ensures PerformIn(sys, n, a).1 <==> Throws(sys, n, a)
  {
    var c := sys.cons[n];
    if InExit !in c.status && |c.callbacks| < 500 {
      var o := NewCallbackEntry(c, AwaitEntry(sys.nextId, a.callable), sys.nextId);
      AskThrows(With(sys, n, o.c).(nextId := o.nextId), n, a.target, Brief(sys.nextId, n, a.hasBrief));
    }
  }

  /** A call raises an error in exactly these cases. */
  lemma ThrowsExactly(sys: System, n: string, a: Act)
    requires n in sys.cons
    ensures PerformIn(sys, n, a).1 <==> Throws(sys, n, a)
  {
    if a.AwaitResult? {
      AwaitThrows(sys, n, a);
    } else if IsLocal(a) {
      LocalThrows(sys, n, a);
    }
  }

  // ----- which calls are made, and how they end -----

  /** How many of the calls are made: up to the first that raises an error not caught. */
  function Made(sys: System, n: string, attempts: seq<Attempt>): (k: nat)
    requires n in sys.cons
    ensures k <= |attempts|
    decreases |attempts|
  {
    if attempts == [] then 0
    else if Throws(sys, n, attempts[0].act) && !attempts[0].caught then 1
    else 1 + Made(PerformIn(sys, n, attempts[0].act).0, n, attempts[1..])
  }

  /** One of them raises an error that is not caught. */
  predicate Breaks(sys: System, n: string, attempts: seq<Attempt>)
    requires n in sys.cons
    decreases |attempts|
  {
    attempts != [] &&
    ((Throws(sys, n, attempts[0].act) && !attempts[0].caught) || Breaks(PerformIn(sys, n, attempts[0].act).0, n, attempts[1..]))
  }

  /** The calls that mark their console to be closed, to be stopped or to chain. */
  predicate Marks(a: Act, r: Completion) {
    match r
    case Closing => a.MessageBox? && a.answer == ClosedByOther
    case Stopped => a.StopScript?
    case ToChain => a.Chain? && a.readable
    case _ => false
  }

  predicate Marked(attempts: seq<Attempt>, r: Completion) {
    attempts != [] && (Marks(attempts[0].act, r) || Marked(attempts[1..], r))
  }

  lemma {:induction false} MarkedMeans(attempts: seq<Attempt>, r: Completion)
    ensures Marked(attempts, r) <==> exists i :: 0 <= i < |attempts| && Marks(attempts[i].act, r)
  {
    if attempts != [] {
      MarkedMeans(attempts[1..], r);
      if i :| 0 <= i < |attempts| && Marks(attempts[i].act, r) {
        assert i > 0 ==> Marks(attempts[1..][i - 1].act, r);
      }
    }
  }

  /** What is on record after a call. */
  function StatusAfter(status: set<Completion>, a: Act): set<Completion> {
    match a
    case MessageBox(Accepted) => status - {TimedOut}
    case MessageBox(ClosedByOther) => status + {Closing}
    case StopScript => status + {Stopped}
    case Chain(readable, _) => if readable then status + {ToChain} else status
    case _ => status
  }

  lemma {:induction false} ItemsStatus(c: ConsoleState, owner: int, persistent: bool, items: seq<bool>, next: int)
    ensures AddItems(c, owner, persistent, items, next).c.status == c.status
    decreases |items|
  {
    if items != [] {
      var r := NewCallbackEntry(c, SubmenuEntry(next, owner, persistent, items[0]), next);
      assert r.c.status == c.status;
      if items[0] && !r.threw {
        ItemsStatus(r.c.(callbacks := ListWithOwner(r.c.callbacks, owner, next)), owner, persistent, items[1..], r.nextId);
      }
    }
  }

  lemma MenuStatus(c: ConsoleState, persistent: bool, items: seq<bool>, next: int)
    ensures RegisterMenu(c, persistent, items, next).c.status == c.status
  {
    if InExit !in c.status {
      var r := NewCallbackEntry(c, MenuOwner(next, persistent), next);
      ItemsStatus(r.c, next, persistent, items, r.nextId);
    }
  }

  lemma BoxStatus(c: ConsoleState, answer: MessageAnswer, next: int)
    ensures ShowMessageBox(c, answer, next).c.status == StatusAfter(c.status, MessageBox(answer))
  {
  }

  lemma LocalStatus(c: ConsoleState, a: Act, next: int)
    requires IsLocal(a)
    ensures Perform(c, a, next).c.status == StatusAfter(c.status, a)
  {
    match a
    case Menu(persistent, items) => MenuStatus(c, persistent, items, next);
    case MessageBox(answer) => BoxStatus(c, answer, next);
    case Register(kind, persistent, ident, mask) => RegisterStatus(c, Entry(next, kind, persistent, Callable, [], 0, ident, mask), next);
    case ReadDialogue(id) => ReadStatus(c, id, next);
    case StopScript => StopStatus(c, next);
    case _ =>
  }

  lemma RegisterStatus(c: ConsoleState, e: Entry, next: int)
    requires e.id == next
    ensures RegisterEntry(c, e, next).c.status == c.status
  {
  }

  lemma ReadStatus(c: ConsoleState, id: int, next: int)
    ensures ReadBack(c, id, next).c.status == c.status
  {
  }

  lemma StopStatus(c: ConsoleState, next: int)
    ensures StopOwnScript(c, next).c.status == c.status + {Stopped}
  {
  }

  lemma PerformStatus(sys: System, n: string, a: Act)
    requires n in sys.cons
    ensures PerformIn(sys, n, a).0.cons[n].status == StatusAfter(sys.cons[n].status, a)
  {
    if IsLocal(a) {
      LocalStatus(sys.cons[n], a, sys.nextId);
    } else if a.AwaitResult? {
      AwaitStatus(sys, n, a.target, a.callable, a.hasBrief);
    }
  }

  lemma AwaitStatus(sys: System, n: string, target: string, callable: bool, hasBrief: bool)
    requires n in sys.cons
    ensures AwaitIn(sys, n, target, callable, hasBrief).0.cons[n].status == sys.cons[n].status
  {
    var o := NewCallbackEntry(sys.cons[n], AwaitEntry(sys.nextId, callable), sys.nextId);
    assert o.c.status == sys.cons[n].status;
  }

  /** Besides a time-out that a message box takes back, exactly these calls have left their mark. */
  ghost function StatusStep(status: set<Completion>, attempts: seq<Attempt>): set<Completion> -> bool {
    (status': set<Completion>) =>
      && status' - {TimedOut, Closing, Stopped, ToChain} == status - {TimedOut, Closing, Stopped, ToChain}
      && (TimedOut in status' ==> TimedOut in status)
      && (Closing in status' <==> Closing in status || Marked(attempts, Closing))
      && (Stopped in status' <==> Stopped in status || Marked(attempts, Stopped))
      && (ToChain in status' <==> ToChain in status || Marked(attempts, ToChain))
  }

  lemma PerformMarks(status: set<Completion>, t: Attempt, status': set<Completion>)
    requires status' == StatusAfter(status, t.act)
    ensures StatusStep(status, [t])(status')
  {
    assert [t][1..] == [];
    forall r ensures Marked([t], r) <==> Marks(t.act, r) {
    }
    OneMark(status, t.act);
  }

  lemma OneMark(status: set<Completion>, a: Act)
    ensures var status' := StatusAfter(status, a);
            && status' - {TimedOut, Closing, Stopped, ToChain} == status - {TimedOut, Closing, Stopped, ToChain}
            && (TimedOut in status' ==> TimedOut in status)
            && (Closing in status' <==> Closing in status || Marks(a, Closing))
            && (Stopped in status' <==> Stopped in status || Marks(a, Stopped))
            && (ToChain in status' <==> ToChain in status || Marks(a, ToChain))
  {
  }

  lemma {:induction false} AttemptsBreak(sys: System, n: string, attempts: seq<Attempt>)
    requires n in sys.cons
    ensures RunAttempts(sys, n, attempts).1 <==> !Breaks(sys, n, attempts)
    decreases |attempts|
  {
    if attempts != [] {
      ThrowsExactly(sys, n, attempts[0].act);
      AttemptsBreak(PerformIn(sys, n, attempts[0].act).0, n, attempts[1..]);
    }
  }

  /** How far the script was seen to run. */
  function RanTo(sys: System, n: string, attempts: seq<Attempt>): (k: nat)
    requires n in sys.cons
    ensures k <= |attempts|
    decreases |attempts|
  {
    if attempts == [] then 0
    else
      var (s, threw) := PerformIn(sys, n, attempts[0].act);
      if threw && !attempts[0].caught then 1 else 1 + RanTo(s, n, attempts[1..])
  }

  lemma {:induction false} MadeIs(sys: System, n: string, attempts: seq<Attempt>)
    requires n in sys.cons
    ensures Made(sys, n, attempts) == RanTo(sys, n, attempts)
    decreases |attempts|
  {
    if attempts != [] {
      ThrowsExactly(sys, n, attempts[0].act);
      MadeIs(PerformIn(sys, n, attempts[0].act).0, n, attempts[1..]);
    }
  }

  /** The calls made, and no others, leave their marks. */
  lemma {:induction false} AttemptsMark(sys: System, n: string, attempts: seq<Attempt>)
    requires n in sys.cons
    ensures StatusStep(sys.cons[n].status, attempts[..RanTo(sys, n, attempts)])(RunAttempts(sys, n, attempts).0.cons[n].status)
    decreases |attempts|
  {
    if attempts != [] {
      var t := attempts[0];
      PerformStatus(sys, n, t.act);
      var (s, threw) := PerformIn(sys, n, t.act);
      PerformMarks(sys.cons[n].status, t, s.cons[n].status);
      if threw && !t.caught {
        assert attempts[..1] == [t];
      } else {
        AttemptsMark(s, n, attempts[1..]);
        MarksOn(sys.cons[n], s.cons[n], RunAttempts(s, n, attempts[1..]).0.cons[n], attempts, 1 + RanTo(s, n, attempts[1..]));
      }
    }
  }

  lemma MarksOn(a: ConsoleState, b: ConsoleState, c: ConsoleState, attempts: seq<Attempt>, k: nat)
    requires 0 < k <= |attempts| && StatusStep(a.status, [attempts[0]])(b.status) && StatusStep(b.status, attempts[1..][..k - 1])(c.status)
    ensures StatusStep(a.status, attempts[..k])(c.status)
  {
    var made := attempts[..k];
    assert made[1..] == attempts[1..][..k - 1];
    forall r ensures Marked(made, r) <==> Marked([attempts[0]], r) || Marked(made[1..], r) {
      MarkedFirst(made, r);
    }
  }

  lemma MarkedFirst(attempts: seq<Attempt>, r: Completion)
    requires attempts != []
    ensures Marked(attempts, r) <==> Marked([attempts[0]], r) || Marked(attempts[1..], r)
  {
    assert [attempts[0]][1..] == [];
  }

  // ----- what it comes to -----

  /** A call of a script that was to do this, in a console with this status, and that has made
      these calls and left the console like this, has come to this. */
  ghost function ComesTo(b: Behaviour, status: set<Completion>, made: seq<Attempt>, broke: bool): (ConsoleState, Completion) -> bool {
    (c: ConsoleState, outcome: Completion) =>
      var overran := b.overruns;
      var closed := Closing in status || Marked(made, Closing);
      var stopped := Stopped in status || Marked(made, Stopped);
      var chains := ToChain in status || Marked(made, ToChain);
      var marked := overran || closed || stopped || chains;
      && (outcome == TimedOut <==> overran)
      && (outcome == Closing <==> !overran && closed)
      && (outcome == Stopped <==> !overran && !closed && stopped)
      && (outcome == ToChain <==> !overran && !closed && !stopped && chains)
      && (outcome == HadError <==> !marked && (broke || !b.completes))
      && (outcome == MoreToDo <==> !marked && !broke && b.completes && (|c.callbacks| > 0 || c.msgBox || c.alert))
      && (outcome == Done <==> !marked && !broke && b.completes && |c.callbacks| == 0 && !c.msgBox && !c.alert)
  }

  lemma AfterwardsComesTo(b: Behaviour, before: ConsoleState, made: seq<Attempt>, broke: bool, c: ConsoleState)
    requires TimedOut !in before.status && StatusStep(before.status, made)(c.status)
    ensures var (c', outcome) := Afterwards(CutOffConsole(c, b), !b.overruns && !broke && b.completes);
            ComesTo(b, before.status, made, broke)(c', outcome)
  {
    var c1 := CutOffConsole(c, b);
    assert TimedOut in c1.status <==> b.overruns;
  }

  /** What the calls made from state s0 on, the clock having ticked, come to. */
  ghost predicate Results(s0: System, n: string, js: Scripts, c: ConsoleState, outcome: Completion)
    requires n in s0.cons
  {
    var b, s := js(s0.clock), s0.(clock := s0.clock + 1);
    ComesTo(b, s0.cons[n].status, b.attempts[..Made(s, n, b.attempts)], Breaks(s, n, b.attempts))(c, outcome)
  }

  lemma RunJsResults(s0: System, n: string, js: Scripts)
    requires n in s0.cons && TimedOut !in s0.cons[n].status
    ensures var (s, ok) := RunJs(s0, n, js);
            var (c, outcome) := Afterwards(s.cons[n], ok);
            Results(s0, n, js, c, outcome)
  {
    var b, s := js(s0.clock), s0.(clock := s0.clock + 1);
    RunJsEnd(s0, n, js, b, RunAttempts(s, n, b.attempts));
    var (t, ok) := RunJs(s0, n, js);
    var (c, outcome) := Afterwards(t.cons[n], ok);
    var made, broke := b.attempts[..Made(s, n, b.attempts)], Breaks(s, n, b.attempts);
    AttemptsResult(s, n, b, made, broke);
  }

  lemma AttemptsResult(s: System, n: string, b: Behaviour, made: seq<Attempt>, broke: bool)
    requires n in s.cons && TimedOut !in s.cons[n].status
    requires made == b.attempts[..Made(s, n, b.attempts)] && broke == Breaks(s, n, b.attempts)
    ensures var (u, ok) := RunAttempts(s, n, b.attempts);
            var (c, outcome) := Afterwards(CutOffConsole(u.cons[n], b), !b.overruns && ok && b.completes);
            ComesTo(b, s.cons[n].status, made, broke)(c, outcome)
  {
    AttemptsMark(s, n, b.attempts);
    MadeIs(s, n, b.attempts);
    AttemptsBreak(s, n, b.attempts);
    AfterwardsComesTo(b, s.cons[n], made, broke, RunAttempts(s, n, b.attempts).0.cons[n]);
  }

  /** What a handler comes to: which outcome, if and only if which calls it made. */
  lemma HandlerResults(sys: System, n: string, handler: Handler, js: Scripts)
    requires n in sys.cons
    ensures var (s, outcome) := Execute(sys, n, handler, js);
            if HadError in sys.cons[n].status || handler != Callable then s == sys && outcome == HadError
            else
              var c := sys.cons[n];
              var s0 := With(sys, n, c.(cached := false, status := c.status - {TimedOut}));
              s.clock == sys.clock + 1 && Results(s0, n, js, s.cons[n], outcome)
  {
    if HadError !in sys.cons[n].status && handler == Callable {
      var s0 := Entered(sys, n);
      RunJsResults(s0, n, js);
      ExecuteClock(sys, n, handler, js);
      assert Execute(sys, n, Callable, js) == Conclude(RunJs(s0, n, js).0, n, RunJs(s0, n, js).1);
    }
  }

  /** The same for the main script, which starts from a console that has been reset. */
  lemma MainResults(sys: System, n: string, js: Scripts)
    requires n in sys.cons
    ensures var (s, outcome) := RunMain(sys, n, js);
            var c := sys.cons[n];
            var begun := c.(ctx := true, runningMain := true, status := {}, cached := false, alert := false, msgBox := false,
                            exitHandler := Missing, button := Stop);
            s.clock == sys.clock + 1 && Results(With(sys, n, begun), n, js, s.cons[n], outcome)
  {
    var c := sys.cons[n];
    var s0 := With(sys, n, c.(ctx := true, runningMain := true, status := {}, cached := false, alert := false, msgBox := false,
                              exitHandler := Missing, button := Stop));
    assert s0 == With(sys, n, ConsoleReset(c).(ctx := true, runningMain := true, button := Stop));
    RunJsResults(s0, n, js);
    RunJsClock(s0, n, js);
    MainConcludes(sys, n, js, s0, RunJs(s0, n, js));
  }

  lemma AfterwardsInMain(c: ConsoleState, ok: bool)
    ensures Afterwards(c.(runningMain := false), ok) == (Afterwards(c, ok).0.(runningMain := false), Afterwards(c, ok).1)
  {
  }

  lemma MainConcludes(sys: System, n: string, js: Scripts, s0: System, r: (System, bool))
    requires n in sys.cons && s0 == With(sys, n, ConsoleReset(sys.cons[n]).(ctx := true, runningMain := true, button := Stop))
    requires r == RunJs(s0, n, js)
    ensures var (s, outcome) := RunMain(sys, n, js);
            var (c, o) := Afterwards(r.0.cons[n], r.1);
            s.clock == r.0.clock && outcome == o && s.cons[n] == c.(runningMain := false)
  {
    var t := With(r.0, n, r.0.cons[n].(runningMain := false));
    AfterwardsInMain(r.0.cons[n], r.1);
    assert RunMain(sys, n, js) == Conclude(t, n, r.1);
  }

  lemma ExitBegins(sys: System, n: string, s0: System)
    requires n in sys.cons
    requires s0 == With(sys, n, sys.cons[n].(cached := false, status := sys.cons[n].status - {Done, TimedOut} + {InExit}))
    ensures Entered(EnterExit(sys, n), n) == s0
  {
    ExitStatus(sys.cons[n].status);
    var c := sys.cons[n].(status := sys.cons[n].status - {Done} + {InExit});
    EnteredTwice(sys, n, c, s0.cons[n]);
  }

  lemma ExitStatus(status: set<Completion>)
    ensures status - {Done} + {InExit} - {TimedOut} == status - {Done, TimedOut} + {InExit}
  {
  }

  lemma EnteredTwice(sys: System, n: string, c: ConsoleState, c': ConsoleState)
    requires n in sys.cons && c' == c.(cached := false, status := c.status - {TimedOut})
    ensures Entered(With(sys, n, c), n) == With(sys, n, c')
  {
    assert Entered(With(sys, n, c), n).cons == With(sys, n, c').cons;
  }

  /** The same for an exit handler: it runs with the status saying so, and many calls are refused. */
  lemma ExitResults(sys: System, n: string, js: Scripts)
    requires n in sys.cons && SettledBut(sys, n) && HadError !in sys.cons[n].status && sys.cons[n].exitHandler == Callable
    ensures var (s, outcome) := RunExit(sys, n, js);
            var c := sys.cons[n];
            var s0 := With(sys, n, c.(cached := false, status := c.status - {Done, TimedOut} + {InExit}));
            s.clock == sys.clock + 1 && Results(s0, n, js, s.cons[n], outcome)
  {
    var c := sys.cons[n];
    var s0 := With(sys, n, c.(cached := false, status := c.status - {Done, TimedOut} + {InExit}));
    ExitBegins(sys, n, s0);
    var s1 := EnterExit(sys, n);
    HandlerResults(s1, n, Callable, js);
    ExitLeaves(s0, n, js, Execute(s1, n, Callable, js));
    assert RunExit(sys, n, js) == (LeaveExit(Execute(s1, n, Callable, js).0, n), Execute(s1, n, Callable, js).1);
  }

  lemma ExitLeaves(s0: System, n: string, js: Scripts, r: (System, Completion))
    requires n in s0.cons && n in r.0.cons && Results(s0, n, js, r.0.cons[n], r.1)
    ensures Results(s0, n, js, LeaveExit(r.0, n).cons[n], r.1)
  {
  }
}
