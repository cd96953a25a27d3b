/** All consoles together: running scripts and handlers, wrapping a console up, and
    answering the console that is waiting for the result.  Scripts are not interpreted:
    js gives, for each call of JavaScript in turn, an arbitrary behaviour. */
module Protocol {
  import opened Wrappers
  import opened Callbacks
  import opened Lifecycle

  /** One call made by a script, and whether the script catches an error it raises. */
  datatype Attempt = Attempt(act: Act, caught: bool)

  /** A script or handler: the calls it makes, whether it then completes, and whether it
      overran its time. */
  datatype Behaviour = Behaviour(attempts: seq<Attempt>, completes: bool, overruns: bool)

  type Scripts = nat -> Behaviour

  datatype Note =
    | Fired(console: string, id: int, persistent: bool)
    | Replied(sender: string, id: int, reason: Completion, delivered: bool)

  datatype System = System(
    cons: map<string, ConsoleState>,
    order: seq<string>,                // the consoles in their order of creation
    nextId: int,                       // the next control id
    pending: seq<(string, Brief)>,     // runs asked for with CallAfter
    active: set<CallbackType>,         // activity bits
    clock: nat,                        // how often JavaScript has been called
    log: seq<Note>)

  function With(sys: System, n: string, c: ConsoleState): System {
    sys.(cons := sys.cons[n := c])
  }

  function Noted(sys: System, notes: seq<Note>): System {
    sys.(log := sys.log + notes)
  }

  function Live(sys: System): set<string> {
    set n | n in sys.cons && sys.cons[n].ctx
  }

  // ----- what one call of JavaScript leaves alone -----

  /** Another console may have its cached answer refreshed and be given a brief. */
  ghost predicate Touched(c: ConsoleState, c': ConsoleState) {
    && c'.brief.callbackId == c.brief.callbackId && c'.brief.caller == c.brief.caller
    && c' == c.(brief := c'.brief, cached := c'.cached, waiting := c'.waiting)
    && ((c'.cached == c.cached && c'.waiting == c.waiting) || (c'.cached && c'.waiting == WaitingNow(c)))
  }

  ghost predicate Carries(sys: System, sys': System, n: string) {
    && sys'.cons.Keys == sys.cons.Keys && n in sys.cons
    && sys'.order == sys.order && sys'.clock >= sys.clock && sys'.log == sys.log
    && sys'.nextId >= sys.nextId && sys.pending <= sys'.pending && sys.active <= sys'.active
    && (forall m :: m in sys.cons && m != n ==> Touched(sys.cons[m], sys'.cons[m]))
    && sys'.cons[n].ctx == sys.cons[n].ctx
    && sys'.cons[n].brief.callbackId == sys.cons[n].brief.callbackId
    && sys'.cons[n].brief.caller == sys.cons[n].brief.caller
    && (sys'.cons[n].runningMain ==> sys.cons[n].runningMain)
  }

  /** Every console is settled, except perhaps n, which is in the middle of something. */
  ghost predicate SettledBut(sys: System, n: string) {
    forall m :: m in sys.cons && m != n ==> Settled(sys.cons[m])
  }

  ghost predicate AllSettled(sys: System) {
    forall m :: m in sys.cons ==> Settled(sys.cons[m])
  }

  // ----- running JavaScript in console n -----

  function Refused(sys: System, n: string): (System, bool)
    requires n in sys.cons
  {
    (With(sys, n, PrepForThrow(sys.cons[n])), true)
  }

  function AwaitEntry(id: int, callable: bool): Entry {
    Entry(id, ConsoleReply, false, if callable then Callable else NotCallable, [], 0, "", {})
  }

  /** onConsoleResult: register for the result of another console and have it run.  The
      registration stays even when the target turns out to be unknown or busy. */
  function AwaitIn(sys: System, n: string, target: string, callable: bool, hasBrief: bool): (r: (System, bool))
    requires n in sys.cons
    ensures Carries(sys, r.0, n)
  {
    if InExit in sys.cons[n].status then Refused(sys, n)
    else
      var o := NewCallbackEntry(sys.cons[n], AwaitEntry(sys.nextId, callable), sys.nextId);
      var s := With(sys, n, o.c).(nextId := o.nextId);
      if o.threw then (s, true) else AskToRun(s, n, target, Brief(sys.nextId, n, hasBrief))
  }

  /** Being asked whether it is busy changes no more of a console than its cached answer. */
  lemma AskedCarries(sys: System, n: string, target: string)
    requires n in sys.cons && target in sys.cons
    ensures var s := AskBusy(sys, target).0;
            && Carries(sys, s, n) && s.nextId == sys.nextId && s.pending == sys.pending
            && s.cons[n].button == sys.cons[n].button && s.cons[n].status == sys.cons[n].status
            && forall m :: m in sys.cons ==> s.cons[m].callbacks == sys.cons[m].callbacks
  {
  }

  function AskToRun(sys: System, n: string, target: string, brief: Brief): (r: (System, bool))
    requires n in sys.cons
    ensures Carries(sys, r.0, n) && r.0.nextId == sys.nextId
    ensures forall m :: m in sys.cons ==> r.0.cons[m].callbacks == sys.cons[m].callbacks
    ensures r.0.cons[n].button == sys.cons[n].button && r.0.cons[n].status == sys.cons[n].status
    ensures r.0.pending in {sys.pending, sys.pending + [(target, brief)]}
  {
    if target !in sys.cons then Refused(sys, n)
    else
      AskedCarries(sys, n, target);
      var (s, busy) := AskBusy(sys, target);
      if busy then Refused(s, n) else (s.(pending := s.pending + [(target, brief)]), false)
  }

  /** consoleRun: have an inactive console run, handing on whatever brief it holds. */
  function RunConsoleIn(sys: System, n: string, target: string, hasBrief: bool): (r: (System, bool))
    requires n in sys.cons
    ensures Carries(sys, r.0, n)
    ensures r.0.cons[n].callbacks == sys.cons[n].callbacks && r.0.cons[n].status == sys.cons[n].status
  {
    if target == n || target !in sys.cons || sys.cons[target].ctx then Refused(sys, n)
    else
      var t := sys.cons[target];
      var brief := if hasBrief then t.brief.(hasBrief := true) else t.brief;
      (With(sys, target, t.(brief := brief)).(pending := sys.pending + [(target, brief)]), false)
  }

  function ConsoleBusyIn(sys: System, n: string, target: string): (r: (System, bool))
    requires n in sys.cons
    ensures Carries(sys, r.0, n)
    ensures r.0.cons[n].callbacks == sys.cons[n].callbacks && r.0.cons[n].status == sys.cons[n].status
  {
    if target !in sys.cons then Refused(sys, n)
    else (With(sys, target, IsBusy(sys.cons[target]).0), false)
  }

  /** One call by the script of console n; the flag says whether it threw. */
  function PerformIn(sys: System, n: string, a: Act): (r: (System, bool))
    requires n in sys.cons
    ensures Carries(sys, r.0, n)
  {
    if a.AwaitResult? then AwaitIn(sys, n, a.target, a.callable, a.hasBrief)
    else if a.RunConsole? then RunConsoleIn(sys, n, a.target, a.hasBrief)
    else if a.ConsoleBusy? then ConsoleBusyIn(sys, n, a.target)
    else
      var o := Perform(sys.cons[n], a, sys.nextId);
      Install(sys, n, o, BitsSet(a, o))
  }

  function BitsSet(a: Act, o: Outcome): set<CallbackType> {
    if a.Register? && !o.threw && SetsActive(a.kind, a.ident) then {a.kind} else {}
  }

  /** Record the outcome of a call that concerned console n alone. */
  function Install(sys: System, n: string, o: Outcome, bits: set<CallbackType>): (r: (System, bool))
    requires n in sys.cons && KeepsIdentity(sys.cons[n], sys.nextId, o)
    ensures Carries(sys, r.0, n)
  {
    (With(sys, n, o.c).(nextId := o.nextId, active := sys.active + bits), o.threw)
  }

  /** The calls a script makes, up to the first error it does not catch. */
  function RunAttempts(sys: System, n: string, attempts: seq<Attempt>): (r: (System, bool))
    requires n in sys.cons
    ensures Carries(sys, r.0, n)
    decreases |attempts|
  {
    if attempts == [] then (sys, true)
    else
      var (s, threw) := PerformIn(sys, n, attempts[0].act);
      if threw && !attempts[0].caught then (s, false) else RunAttempts(s, n, attempts[1..])
  }

  /** A call of JavaScript, from the first statement until control is back in the plugin. */
  function RunJs(sys: System, n: string, js: Scripts): (r: (System, bool))
    requires n in sys.cons
    ensures Carries(sys, r.0, n)
    ensures r == CutOff(RunAttempts(sys.(clock := sys.clock + 1), n, js(sys.clock).attempts), n, js(sys.clock))
  {
    var s := sys.(clock := sys.clock + 1);
    var after := RunAttempts(s, n, js(sys.clock).attempts);
    var r := CutOff(after, n, js(sys.clock));
    CarriesOn(s, after.0, r.0, n);
    r
  }

  /** The script has come to its end, or the timeout callback to it. */
  function CutOff(after: (System, bool), n: string, b: Behaviour): (r: (System, bool))
    requires n in after.0.cons
    ensures Carries(after.0, r.0, n)
  {
    if b.overruns then (Overrun(after.0, n), false) else (after.0, after.1 && b.completes)
  }

  function Overrun(sys: System, n: string): (s: System)
    requires n in sys.cons
    ensures Carries(sys, s, n)
  {
    With(sys, n, sys.cons[n].(status := sys.cons[n].status + {TimedOut}))
  }

  lemma RunJsResult(sys: System, n: string, js: Scripts, b: Behaviour, s: System)
    requires n in sys.cons && b == js(sys.clock) && s == RunAttempts(sys.(clock := sys.clock + 1), n, b.attempts).0
    ensures RunJs(sys, n, js).0 == if b.overruns then Overrun(s, n) else s
  {
  }

  function Conclude(sys: System, n: string, succeeded: bool): (r: (System, Completion))
    requires n in sys.cons
    ensures Carries(sys, r.0, n)
  {
    var (c, outcome) := Afterwards(sys.cons[n], succeeded);
    (With(sys, n, c), outcome)
  }

  /** executeCallableNargs: nothing is called if an error is on record or the stored value
      is not callable; otherwise the cached answer is dropped and the handler runs. */
  function Execute(sys: System, n: string, handler: Handler, js: Scripts): (r: (System, Completion))
    requires n in sys.cons
    ensures Carries(sys, r.0, n)
  {
    var c := sys.cons[n];
    if HadError in c.status || handler != Callable then (sys, HadError)
    else
      var s0 := With(sys, n, c.(cached := false, status := c.status - {TimedOut}));
      var (s1, succeeded) := RunJs(s0, n, js);
      var r := Conclude(s1, n, succeeded);
      EnteredCarries(sys, n);
      CarriesThrough(sys, s0, s1, r.0, n);
      r
  }

  lemma EnteredCarries(sys: System, n: string)
    requires n in sys.cons
    ensures Carries(sys, With(sys, n, sys.cons[n].(cached := false, status := sys.cons[n].status - {TimedOut})), n)
  {
  }

  lemma CarriesThrough(a: System, b: System, c: System, d: System, n: string)
    requires Carries(a, b, n) && Carries(b, c, n) && Carries(c, d, n)
    ensures Carries(a, d, n)
  {
    CarriesOn(a, b, c, n);
    CarriesOn(a, c, d, n);
  }

  lemma CarriesOn(a: System, b: System, c: System, n: string)
    requires Carries(a, b, n) && Carries(b, c, n)
    ensures Carries(a, c, n)
  {
  }

  /** run: a fresh context and the main script. */
  function RunMain(sys: System, n: string, js: Scripts): (r: (System, Completion))
    requires n in sys.cons
    ensures Carries(With(sys, n, ConsoleReset(sys.cons[n]).(ctx := true, runningMain := true, button := Stop)), r.0, n)
    ensures !r.0.cons[n].runningMain
  {
    var s0 := With(sys, n, ConsoleReset(sys.cons[n]).(ctx := true, runningMain := true, button := Stop));
    var (s1, succeeded) := RunJs(s0, n, js);
    var s2 := With(s1, n, s1.cons[n].(runningMain := false));
    var r := Conclude(s2, n, succeeded);
    CarriesOn(s0, s1, s2, n);
    CarriesOn(s0, s2, r.0, n);
    r
  }

  // ----- wrapping up and replying -----

  function Down(sys: System, n: string): System
    requires n in sys.cons
  {
    With(sys, n, Cleanup(sys.cons[n]))
  }

  lemma DownIsDead(sys: System, n: string)
    requires n in sys.cons && SettledBut(sys, n)
    ensures AllSettled(Down(sys, n)) && Idle(Down(sys, n).cons[n])
    ensures Live(Down(sys, n)) == Live(sys) - {n}
    ensures sys.cons[n].ctx ==> |Live(Down(sys, n))| < |Live(sys)|
  {
    if sys.cons[n].ctx {
      assert n in Live(sys);
    }
  }

  lemma LiveWith(sys: System, n: string, c: ConsoleState)
    requires n in sys.cons && c.ctx == sys.cons[n].ctx
    ensures Live(With(sys, n, c)) == Live(sys)
  {
  }

  /** What wrapping up and replying keep, and what they never bring to life. */
  ghost predicate Quietens(sys: System, sys': System) {
    && sys'.cons.Keys == sys.cons.Keys && sys'.order == sys.order
    && Live(sys') <= Live(sys) && sys.log <= sys'.log
  }

  lemma CarriesSettled(sys: System, sys': System, n: string)
    requires Carries(sys, sys', n) && SettledBut(sys, n)
    ensures SettledBut(sys', n) && Live(sys') == Live(sys)
  {
    forall m | m in sys'.cons && m != n ensures Settled(sys'.cons[m]) {
      assert Touched(sys.cons[m], sys'.cons[m]);
    }
    forall m ensures m in Live(sys) <==> m in Live(sys') {
      if m in sys.cons && m != n {
        assert Touched(sys.cons[m], sys'.cons[m]);
      }
    }
  }

  function EnterExit(sys: System, n: string): (s: System)
    requires n in sys.cons
    ensures Live(s) == Live(sys) && s.log == sys.log
  {
    var c := sys.cons[n].(status := sys.cons[n].status - {Done} + {InExit});
    LiveWith(sys, n, c);
    With(sys, n, c)
  }

  function LeaveExit(sys: System, n: string): (s: System)
    requires n in sys.cons
    ensures Live(s) == Live(sys) && s.log == sys.log
  {
    var c := sys.cons[n].(status := sys.cons[n].status - {InExit});
    LiveWith(sys, n, c);
    With(sys, n, c)
  }

  /** The exit handler, run with the status saying so. */
  function RunExit(sys: System, n: string, js: Scripts): (r: (System, Completion))
    requires n in sys.cons && SettledBut(sys, n)
    ensures r.0.cons.Keys == sys.cons.Keys && r.0.order == sys.order
    ensures Live(r.0) == Live(sys) && SettledBut(r.0, n) && r.0.log == sys.log
  {
    var s1 := EnterExit(sys, n);
    var (s2, ended) := Execute(s1, n, s1.cons[n].exitHandler, js);
    CarriesSettled(s1, s2, n);
    (LeaveExit(s2, n), ended)
  }

  /** The status with the reason for wrapping up recorded. */
  function WithReason(sys: System, n: string, reason: Completion): (s: System)
    requires n in sys.cons
    ensures Live(s) == Live(sys)
  {
    var c := sys.cons[n].(status := sys.cons[n].status - {MoreToDo} + {reason});
    LiveWith(sys, n, c);
    With(sys, n, c)
  }

  /** wrapUp: according to the reason, clear the console down, run its exit handler, chain
      to the next script or reply to the console that is waiting. */
  function WrapUp(sys: System, n: string, reason: Completion, js: Scripts): (r: System)
    requires n in sys.cons && sys.cons[n].ctx && SettledBut(sys, n)
    ensures Quietens(sys, r) && SettledBut(r, n)
    ensures reason != MoreToDo ==> Idle(r.cons[n])
    ensures reason == MoreToDo ==> r == With(sys, n, sys.cons[n].(status := sys.cons[n].status + {MoreToDo}))
    decreases |Live(sys)|, 1
  {
    var c := sys.cons[n];
    var s := WithReason(sys, n, reason);
    DownIsDead(s, n);
    if reason == TimedOut then Reply(Down(s, n), n, TimedOut, js)
    else if reason == Closing then Reply(Down(s, n), n, Closed, js)
    else if reason == HadError then Reply(Down(s, n), n, HadError, js)
    else if reason == MoreToDo then
      assert c.status - {MoreToDo} + {reason} == c.status + {MoreToDo};
      s
    else NormalEnd(s, n, reason, js)
  }

  /** Any other reason: the exit handler is run first, if there is one and the bit test
      lets this reason through. */
  function NormalEnd(sys: System, n: string, reason: Completion, js: Scripts): (r: System)
    requires n in sys.cons && sys.cons[n].ctx && SettledBut(sys, n)
    ensures Quietens(sys, r) && SettledBut(r, n) && Idle(r.cons[n])
    decreases |Live(sys)|, 1, 0
  {
    if !WrapsNormally(reason) || sys.cons[n].exitHandler == Missing then Finish(sys, n, reason, js)
    else
      var (s, ended) := RunExit(sys, n, js);
      assert n in Live(s);
      DownIsDead(s, n);
      if ended == TimedOut || ended == HadError then Reply(Down(s, n), n, ended, js)
      else Finish(s, n, reason, js)
  }

  /** The next script, already loaded, is to be run with the brief as it stands. */
  function Chained(sys: System, n: string): (s: System)
    requires n in sys.cons
    ensures Live(s) == Live(sys)
  {
    var c := sys.cons[n].(status := sys.cons[n].status - {ToChain});
    LiveWith(sys, n, c);
    With(sys, n, c).(pending := sys.pending + [(n, sys.cons[n].brief)])
  }

  /** The end of a normal wrap-up. */
  function Finish(sys: System, n: string, reason: Completion, js: Scripts): (r: System)
    requires n in sys.cons && sys.cons[n].ctx && SettledBut(sys, n)
    ensures Quietens(sys, r) && SettledBut(r, n) && Idle(r.cons[n])
    decreases |Live(sys)|, 0
  {
    DownIsDead(sys, n);
    var s := With(sys, n, IsBusy(Cleanup(sys.cons[n])).0);
    assert Live(s) == Live(Down(sys, n));
    if reason == ToChain then
      Chained(s, n)
    else
      Reply(s, n, reason, js)
  }

  /** The reply is due to a console that is waiting: take out the entry registered for it. */
  function Collect(sys: System, n: string): (r: (System, Option<Entry>))
    requires n in sys.cons && Idle(sys.cons[n]) && AllSettled(sys)
    ensures r.0.cons.Keys == sys.cons.Keys && r.0.order == sys.order && Live(r.0) == Live(sys) && AllSettled(r.0) && r.0.log == sys.log
    ensures Idle(r.0.cons[n]) && r.0.cons[n].brief == sys.cons[n].brief
    ensures r.1.Some? ==> sys.cons[n].brief.caller in sys.cons && r.0.cons[sys.cons[n].brief.caller].ctx
  {
    var id, caller := sys.cons[n].brief.callbackId, sys.cons[n].brief.caller;
    if caller !in sys.cons then (sys, None)
    else
      var (o, waiting) := IsWaiting(sys.cons[caller]);
      var s1 := With(sys, caller, o);
      assert Live(s1) == Live(sys);
      if !waiting then (s1, None)
      else
        var (rest, found) := Get(o.callbacks, id, true);
        var s2 := With(s1, caller, o.(callbacks := rest));
        assert Live(s2) == Live(sys);
        if found.None? then (s1, None) else (s2, found)
  }

  /** Whether the console counts as busy, with the cached answer this leaves behind. */
  function AskBusy(sys: System, n: string): (r: (System, bool))
    requires n in sys.cons
    ensures Live(r.0) == Live(sys) && r.1 == IsBusy(sys.cons[n]).1
    ensures r.0 == With(sys, n, IsBusy(sys.cons[n]).0)
  {
    var (c, busy) := IsBusy(sys.cons[n]);
    LiveWith(sys, n, c);
    (With(sys, n, c), busy)
  }

  /** The reply itself: the handler is called, after which no reply is due any more.  The
      flag says whether the other console is then still busy. */
  function Answer(sys: System, n: string, e: Entry, js: Scripts): (r: (System, bool, Completion))
    requires n in sys.cons && Idle(sys.cons[n]) && AllSettled(sys)
    requires sys.cons[n].brief.caller in sys.cons && sys.cons[sys.cons[n].brief.caller].ctx
    ensures r.0.cons.Keys == sys.cons.Keys && r.0.order == sys.order && Live(r.0) == Live(sys) && r.0.log == sys.log
    ensures Idle(r.0.cons[n]) && SettledBut(r.0, sys.cons[n].brief.caller)
    ensures if r.1 then AllSettled(r.0) else r.2 != MoreToDo
  {
    var caller := sys.cons[n].brief.caller;
    var (s1, outcome) := Execute(sys, caller, e.handler, js);
    CarriesSettled(sys, s1, caller);
    AfterExecute(sys, caller, e.handler, js);
    assert Touched(sys.cons[n], s1.cons[n]);
    var s2 := ReplyDone(s1, n);
    var (s3, busy) := AskBusy(s2, caller);
    (s3, busy, outcome)
  }

  function ReplyDone(sys: System, n: string): (s: System)
    requires n in sys.cons
    ensures Live(s) == Live(sys)
  {
    var c := sys.cons[n].(brief := sys.cons[n].brief.(callbackId := 0));
    LiveWith(sys, n, c);
    With(sys, n, c)
  }

  /** replyToConsole: if a reply is due, hand the result to the handler registered for it in
      the other console, and wrap that console up if this leaves it with nothing to do. */
  function Reply(sys: System, n: string, reason: Completion, js: Scripts): (r: System)
    requires n in sys.cons && !sys.cons[n].ctx && AllSettled(sys)
    ensures Quietens(sys, r) && AllSettled(r) && Idle(r.cons[n])
    decreases |Live(sys)|, 3
  {
    if sys.cons[n].brief.callbackId == 0 then sys
    else
      var (s, found) := Collect(sys, n);
      if found.None? then Noted(s, [Replied(n, sys.cons[n].brief.callbackId, reason, false)])
      else HandOver(s, n, reason, found.value, js)
  }

  function ReplyNotes(n: string, brief: Brief, reason: Completion, e: Entry): seq<Note> {
    [Replied(n, brief.callbackId, reason, true), Fired(brief.caller, e.id, e.persistent)]
  }

  function HandOver(sys: System, n: string, reason: Completion, e: Entry, js: Scripts): (r: System)
    requires n in sys.cons && Idle(sys.cons[n]) && AllSettled(sys)
    requires sys.cons[n].brief.caller in sys.cons && sys.cons[sys.cons[n].brief.caller].ctx
    ensures Quietens(sys, r) && AllSettled(r) && Idle(r.cons[n])
    decreases |Live(sys)|, 2
  {
    var caller := sys.cons[n].brief.caller;
    var s := Noted(sys, ReplyNotes(n, sys.cons[n].brief, reason, e));
    assert Live(s) == Live(sys);
    var (s1, busy, outcome) := Answer(s, n, e, js);
    if busy then s1
    else
      var s2 := WrapUp(s1, caller, outcome, js);
      StillIdle(s1, s2, n, caller);
      s2
  }

  lemma StillIdle(sys: System, sys': System, n: string, m: string)
    requires Quietens(sys, sys') && SettledBut(sys', m) && m in sys'.cons && Idle(sys'.cons[m])
    requires n in sys.cons && Idle(sys.cons[n])
    ensures AllSettled(sys') && Idle(sys'.cons[n])
  {
    assert n !in Live(sys');
  }

  /** After a handler has run, a console that still counts as busy is settled; one that does
      not is about to be wrapped up, and never with the outcome that there is more to do. */
  lemma AfterExecute(sys: System, n: string, handler: Handler, js: Scripts)
    requires n in sys.cons && sys.cons[n].ctx && !sys.cons[n].runningMain
    requires sys.cons[n].cached && WaitingNow(sys.cons[n]) ==> sys.cons[n].waiting
    ensures var (s, outcome) := Execute(sys, n, handler, js);
            && (IsBusy(s.cons[n]).1 ==> Settled(IsBusy(s.cons[n]).0))
            && (!IsBusy(s.cons[n]).1 ==> outcome != MoreToDo)
  {
  }
}
