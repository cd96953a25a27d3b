/** The dispatch loop of one console exactly, for handlers that do not edit registries. */
module Dispatching {
  import opened Wrappers
  import opened Callbacks
  import opened Lifecycle
  import opened Protocol
  import opened Events
  import opened Walks
  import opened Loops
  import opened Uniform
  import opened Firings
  import opened Registrations
  import opened OneShot
  import opened Runs
  import opened Quiescence
  import opened Dichotomy

  /** A call of JavaScript that registers, cancels and moves nothing.  (It may stop, chain,
      fail, overrun, raise alerts and so on.) */
  ghost predicate QuietCall(b: Behaviour) {
    forall i :: 0 <= i < |b.attempts| ==> QuietAct(b.attempts[i].act)
  }

  predicate QuietAct(a: Act) {
    !EditsRegistry(a) && !a.AwaitResult?
  }

  /** The next so many calls of JavaScript are quiet. */
  ghost predicate QuietFor(js: Scripts, from: nat, count: nat) {
    forall k :: from <= k < from + count ==> QuietCall(js(k))
  }

  // ----- a quiet handler leaves the registry alone, or its console is wrapped up -----

  lemma PerformQuiet(sys: System, n: string, a: Act)
    requires n in sys.cons && QuietAct(a)
    ensures var c := PerformIn(sys, n, a).0.cons[n];
            && (Stopped in sys.cons[n].status ==> Stopped in c.status)
            && (c.callbacks == sys.cons[n].callbacks || Stopped in c.status)
  {
    if IsLocal(a) {
      LocalQuiet(sys.cons[n], a, sys.nextId);
    }
  }

  lemma LocalQuiet(c: ConsoleState, a: Act, next: int)
    requires IsLocal(a) && !EditsRegistry(a)
    ensures var o := Perform(c, a, next);
            && (Stopped in c.status ==> Stopped in o.c.status)
            && (o.c.callbacks == c.callbacks || Stopped in o.c.status)
  {
    match a
    case MessageBox(answer) => BoxQuiet(c, answer, next);
    case StopScript => StopQuiet(c, next);
    case _ =>
  }

  lemma BoxQuiet(c: ConsoleState, answer: MessageAnswer, next: int)
    ensures var o := Perform(c, MessageBox(answer), next);
            && (Stopped in c.status ==> Stopped in o.c.status)
            && (o.c.callbacks == c.callbacks || Stopped in o.c.status)
  {
    match answer { case Accepted => case Declined => case ClosedByOther => }
  }

  lemma StopQuiet(c: ConsoleState, next: int)
    ensures Stopped in Perform(c, StopScript, next).c.status
  {
  }

  lemma {:induction false} AttemptsQuiet(sys: System, n: string, attempts: seq<Attempt>)
    requires n in sys.cons && forall i :: 0 <= i < |attempts| ==> QuietAct(attempts[i].act)
    ensures var c := RunAttempts(sys, n, attempts).0.cons[n];
            && (Stopped in sys.cons[n].status ==> Stopped in c.status)
            && (c.callbacks == sys.cons[n].callbacks || Stopped in c.status)
    decreases |attempts|
  {
    if attempts != [] {
      assert QuietAct(attempts[0].act);
      PerformQuiet(sys, n, attempts[0].act);
      var (s, threw) := PerformIn(sys, n, attempts[0].act);
      if !threw || attempts[0].caught {
        AttemptsQuiet(s, n, attempts[1..]);
      }
    }
  }

  lemma PerformClock(sys: System, n: string, a: Act)
    requires n in sys.cons
    ensures PerformIn(sys, n, a).0.clock == sys.clock
  {
  }

  lemma {:induction false} AttemptsClock(sys: System, n: string, attempts: seq<Attempt>)
    requires n in sys.cons
    ensures RunAttempts(sys, n, attempts).0.clock == sys.clock
    decreases |attempts|
  {
    if attempts != [] {
      PerformClock(sys, n, attempts[0].act);
      AttemptsClock(PerformIn(sys, n, attempts[0].act).0, n, attempts[1..]);
    }
  }

  lemma RunJsQuiet(sys: System, n: string, js: Scripts)
    requires n in sys.cons && QuietCall(js(sys.clock))
    ensures var s := RunJs(sys, n, js).0;
            s.clock == sys.clock + 1 && (s.cons[n].callbacks == sys.cons[n].callbacks || Stopped in s.cons[n].status)
  {
    var b, s0 := js(sys.clock), sys.(clock := sys.clock + 1);
    AttemptsQuiet(s0, n, b.attempts);
    AttemptsClock(s0, n, b.attempts);
    RunJsResult(sys, n, js, b, RunAttempts(s0, n, b.attempts).0);
  }

  lemma AfterwardsQuiet(c: ConsoleState, ok: bool)
    ensures var (c', outcome) := Afterwards(c, ok);
            c'.callbacks == c.callbacks && (outcome == MoreToDo ==> Stopped !in c.status)
  {
  }

  lemma ExecuteQuiet(sys: System, n: string, js: Scripts)
    requires n in sys.cons && QuietCall(js(sys.clock)) && HadError !in sys.cons[n].status
    ensures var (s, outcome) := Execute(sys, n, Callable, js);
            s.clock == sys.clock + 1 && (outcome == MoreToDo ==> s.cons[n].callbacks == sys.cons[n].callbacks)
  {
    var s0 := Entered(sys, n);
    RunJsQuiet(s0, n, js);
    var (s1, ok) := RunJs(s0, n, js);
    AfterwardsQuiet(s1.cons[n], ok);
    assert Execute(sys, n, Callable, js) == Conclude(s1, n, ok);
  }

  // ----- the loop of the source -----

  /** A console at rest whose entry at i is about to be called. */
  lemma ReadyToCall(sys: System, n: string, i: nat, m: Manners)
    requires Calm(sys, m) && Alive(sys, n) && i < |sys.cons[n].callbacks| && IsDispatched(sys.cons[n].callbacks[i].kind)
    ensures var reg := sys.cons[n].callbacks;
            var t := TakeEntry(sys, n, After(reg, i));
            var c := t.cons[n];
            && reg[i].handler == Callable && |reg| <= MAX_CALLBACKS
            && AllSettledBarring(t, n) && c.ctx && c.callbacks == After(reg, i) && t.clock == sys.clock && t.log == sys.log
            && !c.runningMain && Unspoiled(c) && HadError !in c.status
  {
    var reg := sys.cons[n].callbacks;
    var e, rest := reg[i], After(reg, i);
    assert TakenFrom(reg, e, rest);
    FiredCalm(sys, n, e, rest, m);
    FiredOffAmid(sys, n, e, rest);
    assert RegistryOk(reg, sys.nextId);
    assert HadError !in FiredOff(sys, n, e, rest).cons[n].status * {HadError, TimedOut, Stopped, ToChain, Closing, InExit};
  }

  lemma CallQuiet(t: System, n: string, e: Entry, js: Scripts, f: (System, bool))
    requires n in t.cons && t.cons[n].ctx && AllSettledBarring(t, n) && e.handler == Callable
    requires !t.cons[n].runningMain && HadError !in t.cons[n].status && QuietCall(js(t.clock)) && f == Call(t, n, e, js)
    ensures var note := Fired(n, e.id, e.persistent);
            && FiredElsewhere(t.log + [note], f.0.log, n)
            && (!f.1 ==> f.0.clock == t.clock + 1 && f.0.log == t.log + [note] && f.0.cons[n].callbacks == t.cons[n].callbacks)
  {
    var s1 := Noted(t, [Fired(n, e.id, e.persistent)]);
    ExecuteQuiet(s1, n, js);
    HandlerBusy(s1, n, js);
    CallUnfolds(t, n, e, js);
  }

  lemma FireAtQuiet(sys: System, n: string, i: nat, js: Scripts, m: Manners, f: (System, bool))
    requires Calm(sys, m) && AllSettled(sys) && n in sys.cons && sys.cons[n].ctx
    requires i < |sys.cons[n].callbacks| && IsDispatched(sys.cons[n].callbacks[i].kind) && QuietCall(js(sys.clock))
    requires f == FireAt(sys, n, i, js)
    ensures FiredAt(sys, n, i)(f.0, f.1) && (!f.1 ==> f.0.clock == sys.clock + 1)
  {
    ReadyToCall(sys, n, i, m);
    var reg := sys.cons[n].callbacks;
    CallQuiet(TakeEntry(sys, n, After(reg, i)), n, reg[i], js, f);
  }

  lemma FireAtCalm(sys: System, n: string, i: nat, js: Scripts, m: Manners)
    requires Calm(sys, m) && AllSettled(sys) && Makes(js, WithManners(m)) && n in sys.cons && sys.cons[n].ctx
    requires i < |sys.cons[n].callbacks| && IsDispatched(sys.cons[n].callbacks[i].kind)
    ensures Calm(FireAt(sys, n, i, js).0, m)
  {
    WrapsCalmly(m, js);
    FiresCalmly(m, js);
    assert FireStepsIn(Calmly(m), js, n);
    FireAtWalk(Calmly(m), sys, n, i, js);
  }

  lemma CallUnfolds(sys: System, n: string, e: Entry, js: Scripts)
    requires n in sys.cons && sys.cons[n].ctx && AllSettledBarring(sys, n)
    requires var s1 := Noted(sys, [Fired(n, e.id, e.persistent)]);
             var (s, outcome) := Execute(s1, n, e.handler, js);
             IsBusy(s.cons[n]) == (s.cons[n], outcome == MoreToDo)
    ensures var s1 := Noted(sys, [Fired(n, e.id, e.persistent)]);
            var (s, outcome) := Execute(s1, n, e.handler, js);
            var (t, wrapped) := Call(sys, n, e, js);
            && wrapped == (outcome != MoreToDo) && FiredElsewhere(s1.log, t.log, n)
            && (!wrapped ==> t == s)
  {
    var s1 := Noted(sys, [Fired(n, e.id, e.persistent)]);
    assert Live(s1) == Live(sys);
    var (s, outcome) := Execute(s1, n, e.handler, js);
    CarriesSettled(s1, s, n);
    AfterExecute(s1, n, e.handler, js);
    AskBusySame(s, n, outcome == MoreToDo);
    assert Call(sys, n, e, js) == Tail(s, n, outcome, js);
    if outcome != MoreToDo {
      WrapUpFires(s, n, outcome, js);
    }
  }

  /** The loop over the entries of console n, what its passes lead to, and what its calls. */
  ghost function RunOf(n: string, kind: CallbackType, mouse: set<MouseEvent>, js: Scripts): (System, nat, nat) -> (System, nat, bool) {
    (s: System, i: nat, passes: nat) => if Alive(s, n) then DispatchFrom(s, n, i, kind, mouse, js, passes) else (s, 0, false)
  }

  ghost function SkipOf(n: string, kind: CallbackType, js: Scripts): (System, nat) -> System {
    (s: System, i: nat) => if Alive(s, n) && i < |s.cons[n].callbacks| && Listens(s.cons[n].callbacks[i], kind) then Mark(s, kind) else s
  }

  ghost function FireOf(n: string, kind: CallbackType, js: Scripts): (System, nat) -> (System, bool) {
    (s: System, i: nat) => if Alive(s, n) && i < |s.cons[n].callbacks| then FireAt(Mark(s, kind), n, i, js) else (s, false)
  }

  ghost function LawOf(n: string, kind: CallbackType, mouse: set<MouseEvent>, js: Scripts): (System, nat, nat) -> bool {
    LoopLaw(RunOf(n, kind, mouse, js), SkipOf(n, kind, js), FireOf(n, kind, js), n, kind, mouse)
  }

  lemma LawHolds(s: System, n: string, i: nat, kind: CallbackType, mouse: set<MouseEvent>, js: Scripts, passes: nat, law: (System, nat, nat) -> bool)
    requires law == LawOf(n, kind, mouse, js)
    ensures law(s, i, passes)
  {
    if Alive(s, n) {
      if i >= |s.cons[n].callbacks| {
        DoneLaw(s, n, i, kind, mouse, js, passes, law);
      } else if Wants(s.cons[n].callbacks[i], kind, mouse) {
        FireLaw(s, n, i, kind, mouse, js, passes, law);
      } else {
        SkipLaw(s, n, i, kind, mouse, js, passes, law);
      }
    }
  }

  lemma DoneLaw(s: System, n: string, i: nat, kind: CallbackType, mouse: set<MouseEvent>, js: Scripts, passes: nat, law: (System, nat, nat) -> bool)
    requires Alive(s, n) && i >= |s.cons[n].callbacks| && law == LawOf(n, kind, mouse, js)
    ensures law(s, i, passes)
  {
  }

  lemma SkipPass(s: System, n: string, i: nat, kind: CallbackType, mouse: set<MouseEvent>, js: Scripts, passes: nat, t: System)
    requires Alive(s, n) && i < |s.cons[n].callbacks| && !Wants(s.cons[n].callbacks[i], kind, mouse) && t == SkipOf(n, kind, js)(s, i)
    ensures AllSettled(t) && t.cons == s.cons && t.log == s.log && t.clock == s.clock
    ensures RunOf(n, kind, mouse, js)(s, i, passes) == RunOf(n, kind, mouse, js)(t, i + 1, passes)
  {
  }

  lemma SkipLaw(s: System, n: string, i: nat, kind: CallbackType, mouse: set<MouseEvent>, js: Scripts, passes: nat, law: (System, nat, nat) -> bool)
    requires Alive(s, n) && i < |s.cons[n].callbacks| && !Wants(s.cons[n].callbacks[i], kind, mouse) && law == LawOf(n, kind, mouse, js)
    ensures law(s, i, passes)
  {
    var run, skip := RunOf(n, kind, mouse, js), SkipOf(n, kind, js);
    SkipPass(s, n, i, kind, mouse, js, passes, skip(s, i));
    SkipMeans(run, skip, FireOf(n, kind, js), s, n, i, kind, mouse, passes, law);
  }

  lemma SkipMeans(run: (System, nat, nat) -> (System, nat, bool), skip: (System, nat) -> System, fire: (System, nat) -> (System, bool),
                  s: System, n: string, i: nat, kind: CallbackType, mouse: set<MouseEvent>, passes: nat, law: (System, nat, nat) -> bool)
    requires Alive(s, n) && i < |s.cons[n].callbacks| && !Wants(s.cons[n].callbacks[i], kind, mouse)
    requires law == LoopLaw(run, skip, fire, n, kind, mouse)
    requires var t := skip(s, i);
             AllSettled(t) && t.cons == s.cons && t.log == s.log && t.clock == s.clock && run(s, i, passes) == run(t, i + 1, passes)
    ensures law(s, i, passes)
  {
  }

  lemma FirePass(s: System, n: string, i: nat, kind: CallbackType, mouse: set<MouseEvent>, js: Scripts, passes: nat, f: (System, bool))
    requires Alive(s, n) && i < |s.cons[n].callbacks| && Wants(s.cons[n].callbacks[i], kind, mouse) && f == FireOf(n, kind, js)(s, i)
    ensures passes == 0 ==> RunOf(n, kind, mouse, js)(s, i, passes) == (s, 0, false)
    ensures passes > 0 && f.1 ==> RunOf(n, kind, mouse, js)(s, i, passes) == (f.0, passes - 1, true)
    ensures passes > 0 && !f.1 ==>
              Alive(f.0, n) && RunOf(n, kind, mouse, js)(s, i, passes) == RunOf(n, kind, mouse, js)(f.0, Next(s.cons[n].callbacks, i), passes - 1)
  {
  }

  lemma FireLaw(s: System, n: string, i: nat, kind: CallbackType, mouse: set<MouseEvent>, js: Scripts, passes: nat, law: (System, nat, nat) -> bool)
    requires Alive(s, n) && i < |s.cons[n].callbacks| && Wants(s.cons[n].callbacks[i], kind, mouse) && law == LawOf(n, kind, mouse, js)
    ensures law(s, i, passes)
  {
    var run, fire := RunOf(n, kind, mouse, js), FireOf(n, kind, js);
    FirePass(s, n, i, kind, mouse, js, passes, fire(s, i));
    FireMeans(run, SkipOf(n, kind, js), fire, s, n, i, kind, mouse, passes, law);
  }

  lemma FireMeans(run: (System, nat, nat) -> (System, nat, bool), skip: (System, nat) -> System, fire: (System, nat) -> (System, bool),
                  s: System, n: string, i: nat, kind: CallbackType, mouse: set<MouseEvent>, passes: nat, law: (System, nat, nat) -> bool)
    requires Alive(s, n) && i < |s.cons[n].callbacks| && Wants(s.cons[n].callbacks[i], kind, mouse)
    requires law == LoopLaw(run, skip, fire, n, kind, mouse)
    requires passes == 0 ==> run(s, i, passes) == (s, 0, false)
    requires passes > 0 && fire(s, i).1 ==> run(s, i, passes) == (fire(s, i).0, passes - 1, true)
    requires passes > 0 && !fire(s, i).1 ==>
               Alive(fire(s, i).0, n) && run(s, i, passes) == run(fire(s, i).0, Next(s.cons[n].callbacks, i), passes - 1)
    ensures law(s, i, passes)
  {
  }

  // ----- quiet handlers keep the loop steady -----

  ghost function Quietly(js: Scripts, m: Manners): (System, nat) -> bool {
    (s: System, more: nat) => Calm(s, m) && AllSettled(s) && QuietFor(js, s.clock, more)
  }

  lemma QuietIsSteady(n: string, kind: CallbackType, mouse: set<MouseEvent>, js: Scripts, m: Manners, s: System, i: nat, more: nat,
                      steady: (System, nat, nat) -> bool)
    requires IsDispatched(kind) && Makes(js, WithManners(m))
    requires steady == SteadyAt(Quietly(js, m), SkipOf(n, kind, js), FireOf(n, kind, js), n, kind, mouse)
    ensures steady(s, i, more)
  {
    if Calm(s, m) && QuietFor(js, s.clock, more) && Alive(s, n) && i < |s.cons[n].callbacks| {
      if !Wants(s.cons[n].callbacks[i], kind, mouse) {
        SkipsQuietly(n, kind, mouse, js, m, s, i, more, steady);
      } else if more > 0 {
        FiresQuietly(n, kind, mouse, js, m, s, i, more, steady);
      }
    }
  }

  lemma SkipsQuietly(n: string, kind: CallbackType, mouse: set<MouseEvent>, js: Scripts, m: Manners, s: System, i: nat, more: nat,
                     steady: (System, nat, nat) -> bool)
    requires Calm(s, m) && QuietFor(js, s.clock, more) && Alive(s, n) && i < |s.cons[n].callbacks| && !Wants(s.cons[n].callbacks[i], kind, mouse)
    requires steady == SteadyAt(Quietly(js, m), SkipOf(n, kind, js), FireOf(n, kind, js), n, kind, mouse)
    ensures steady(s, i, more)
  {
    BitsCalm(s, Mark(s, kind).active, m);
    var t := SkipOf(n, kind, js)(s, i);
    assert t == s || t == Mark(s, kind);
  }

  lemma FiresQuietly(n: string, kind: CallbackType, mouse: set<MouseEvent>, js: Scripts, m: Manners, s: System, i: nat, more: nat,
                     steady: (System, nat, nat) -> bool)
    requires Calm(s, m) && QuietFor(js, s.clock, more) && Alive(s, n) && i < |s.cons[n].callbacks| && Wants(s.cons[n].callbacks[i], kind, mouse)
    requires IsDispatched(kind) && Makes(js, WithManners(m)) && more > 0
    requires steady == SteadyAt(Quietly(js, m), SkipOf(n, kind, js), FireOf(n, kind, js), n, kind, mouse)
    ensures steady(s, i, more)
  {
    assert QuietCall(js(s.clock));
    var f := FireOf(n, kind, js)(s, i);
    FireMarked(s, n, i, kind, js, m, f);
    if !f.1 {
      assert Quietly(js, m)(f.0, more - 1);
    }
  }

  lemma FireMarked(sys: System, n: string, i: nat, kind: CallbackType, js: Scripts, m: Manners, f: (System, bool))
    requires Calm(sys, m) && AllSettled(sys) && Makes(js, WithManners(m)) && n in sys.cons && sys.cons[n].ctx
    requires i < |sys.cons[n].callbacks| && IsDispatched(sys.cons[n].callbacks[i].kind) && QuietCall(js(sys.clock))
    requires f == FireAt(Mark(sys, kind), n, i, js)
    ensures Calm(f.0, m) && FiredAt(sys, n, i)(f.0, f.1) && (!f.1 ==> f.0.clock == sys.clock + 1)
  {
    BitsCalm(sys, Mark(sys, kind).active, m);
    FireAtQuiet(Mark(sys, kind), n, i, js, m, f);
    FireAtCalm(Mark(sys, kind), n, i, js, m);
  }

  lemma LeftWithin(n: string, kind: CallbackType, mouse: set<MouseEvent>, js: Scripts)
    ensures forall s, j: nat, p: nat {:trigger RunOf(n, kind, mouse, js)(s, j, p)} :: RunOf(n, kind, mouse, js)(s, j, p).1 <= p
  {
  }

  /** With handlers that do not edit registries - asked only of the calls the loop makes - and
      as many passes as there are listeners, the loop of console n ends.  Either each listener
      that wants the arrival has been called exactly once, in order, and exactly the persistent
      ones and the others remain, in order - or exactly the first k were called, the last of
      these leaving nothing to wait for, and the console has been wrapped up. */
  lemma DispatchExact(sys: System, n: string, i: nat, kind: CallbackType, mouse: set<MouseEvent>, js: Scripts, passes: nat, m: Manners)
    returns (k: nat)
    requires Calm(sys, m) && AllSettled(sys) && Makes(js, WithManners(m)) && IsDispatched(kind)
    requires n in sys.cons && sys.cons[n].ctx && i <= |sys.cons[n].callbacks|
    requires QuietFor(js, sys.clock, passes - DispatchFrom(sys, n, i, kind, mouse, js, passes).1)
    requires passes >= |Wanted(sys.cons[n].callbacks[i..], kind, mouse)|
    ensures var r := DispatchFrom(sys, n, i, kind, mouse, js, passes);
            r.2 && r.1 == passes - k && n in r.0.cons && Dispatched(sys, r.0, n, i, kind, mouse, k)
  {
    var good, run, skip, fire := Quietly(js, m), RunOf(n, kind, mouse, js), SkipOf(n, kind, js), FireOf(n, kind, js);
    var steady, law := SteadyAt(good, skip, fire, n, kind, mouse), LoopLaw(run, skip, fire, n, kind, mouse);
    forall s, j: nat, more: nat ensures steady(s, j, more) && law(s, j, more) {
      QuietIsSteady(n, kind, mouse, js, m, s, j, more, steady);
      LawHolds(s, n, j, kind, mouse, js, more, law);
    }
    LeftWithin(n, kind, mouse, js);
    k := LoopSteady(good, steady, law, run, skip, fire, sys, n, i, kind, mouse, passes, passes - run(sys, i, passes).1);
  }

  // ----- calls take time -----

  ghost function LaterThan(from: nat): System -> bool {
    (s: System) => from <= s.clock
  }

  lemma LaterSteps(from: nat, js: Scripts)
    ensures UniformSteps(LaterThan(from), Any(), js)
  {
    var p := LaterThan(from);
    forall s, n, t: Attempt {:trigger p(PerformIn(s, n, t.act).0), Any()(t)} | p(s) && n in s.cons ensures p(PerformIn(s, n, t.act).0) {
      PerformClock(s, n, t.act);
    }
  }

  lemma RunJsClock(sys: System, n: string, js: Scripts)
    requires n in sys.cons
    ensures RunJs(sys, n, js).0.clock == sys.clock + 1
  {
    var s0, b := sys.(clock := sys.clock + 1), js(sys.clock);
    AttemptsClock(s0, n, b.attempts);
    RunJsResult(sys, n, js, b, RunAttempts(s0, n, b.attempts).0);
  }

  lemma ExecuteClock(sys: System, n: string, handler: Handler, js: Scripts)
    requires n in sys.cons
    ensures Execute(sys, n, handler, js).0.clock == sys.clock + if HadError !in sys.cons[n].status && handler == Callable then 1 else 0
  {
    if HadError !in sys.cons[n].status && handler == Callable {
      RunJsClock(Entered(sys, n), n, js);
      assert Execute(sys, n, Callable, js) == Conclude(RunJs(Entered(sys, n), n, js).0, n, RunJs(Entered(sys, n), n, js).1);
    }
  }

  lemma CallTicks(t: System, n: string, e: Entry, js: Scripts)
    requires n in t.cons && t.cons[n].ctx && AllSettledBarring(t, n) && e.handler == Callable && HadError !in t.cons[n].status
    ensures t.clock < Call(t, n, e, js).0.clock
  {
    var s1 := Noted(t, [Fired(n, e.id, e.persistent)]);
    assert Live(s1) == Live(t);
    var (s, outcome) := Execute(s1, n, e.handler, js);
    ExecuteClock(s1, n, e.handler, js);
    CarriesSettled(s1, s, n);
    AfterExecute(s1, n, e.handler, js);
    assert Call(t, n, e, js) == Tail(s, n, outcome, js);
    TailLater(s, n, outcome, js);
  }

  lemma TailLater(s: System, n: string, outcome: Completion, js: Scripts)
    requires Amid(s, n) && (IsBusy(s.cons[n]).1 ==> Settled(IsBusy(s.cons[n]).0)) && (!IsBusy(s.cons[n]).1 ==> outcome != MoreToDo)
    ensures s.clock <= Tail(s, n, outcome, js).0.clock
  {
    LaterSteps(s.clock, js);
    WrapsUniformly(LaterThan(s.clock), Any(), js);
    TailWalk(Always(LaterThan(s.clock)), s, n, outcome, js);
  }

  ghost function Calmed(m: Manners): System -> bool {
    (s: System) => Calm(s, m) && AllSettled(s)
  }

  lemma FireAtTicks(n: string, kind: CallbackType, mouse: set<MouseEvent>, js: Scripts, m: Manners, s: System, i: nat)
    requires IsDispatched(kind) && Makes(js, WithManners(m)) && Calm(s, m) && Alive(s, n) && i < |s.cons[n].callbacks|
    requires s.cons[n].callbacks[i].kind == kind
    ensures var f := FireAt(Mark(s, kind), n, i, js); s.clock < f.0.clock && Calm(f.0, m)
  {
    BitsCalm(s, Mark(s, kind).active, m);
    ReadyToCall(Mark(s, kind), n, i, m);
    CallTicks(TakeEntry(Mark(s, kind), n, After(s.cons[n].callbacks, i)), n, s.cons[n].callbacks[i], js);
    FireAtCalm(Mark(s, kind), n, i, js, m);
  }

  lemma FireTimes(n: string, kind: CallbackType, mouse: set<MouseEvent>, js: Scripts, m: Manners, s: System, i: nat)
    requires IsDispatched(kind) && Makes(js, WithManners(m)) && Calm(s, m) && Alive(s, n) && i < |s.cons[n].callbacks|
    requires Wants(s.cons[n].callbacks[i], kind, mouse)
    ensures var f := FireOf(n, kind, js)(s, i); s.clock < f.0.clock && Calmed(m)(f.0)
  {
    FireAtTicks(n, kind, mouse, js, m, s, i);
  }

  lemma SkipTimes(n: string, kind: CallbackType, js: Scripts, m: Manners, s: System, i: nat)
    requires Calm(s, m) && Alive(s, n) && i < |s.cons[n].callbacks|
    ensures Calmed(m)(SkipOf(n, kind, js)(s, i))
  {
    BitsCalm(s, Mark(s, kind).active, m);
    var t := SkipOf(n, kind, js)(s, i);
    assert t == s || t == Mark(s, kind);
  }

  lemma TickingLoop(n: string, kind: CallbackType, mouse: set<MouseEvent>, js: Scripts, m: Manners, s: System, i: nat, good: System -> bool,
                    skip: (System, nat) -> System, fire: (System, nat) -> (System, bool), ticks: (System, nat) -> bool)
    requires IsDispatched(kind) && Makes(js, WithManners(m))
    requires good == Calmed(m) && skip == SkipOf(n, kind, js) && fire == FireOf(n, kind, js) && ticks == TicksAt(good, skip, fire, n, kind, mouse)
    ensures ticks(s, i)
  {
    if good(s) && Alive(s, n) && i < |s.cons[n].callbacks| {
      if Wants(s.cons[n].callbacks[i], kind, mouse) {
        FireTimes(n, kind, mouse, js, m, s, i);
        FireTicks(good, ticks, skip, fire, s, n, i, kind, mouse);
      } else {
        SkipTimes(n, kind, js, m, s, i);
        SkipTicks(good, ticks, skip, fire, s, n, i, kind, mouse);
      }
    } else {
      IdleTicks(good, ticks, skip, fire, s, n, i, kind, mouse);
    }
  }

  lemma RunTicks(sys: System, n: string, i: nat, kind: CallbackType, mouse: set<MouseEvent>, js: Scripts, passes: nat, m: Manners,
                 run: (System, nat, nat) -> (System, nat, bool))
    requires Calm(sys, m) && Alive(sys, n) && Makes(js, WithManners(m)) && IsDispatched(kind) && run == RunOf(n, kind, mouse, js)
    ensures run(sys, i, passes).0.clock - sys.clock >= passes - run(sys, i, passes).1
  {
    var good, skip, fire := Calmed(m), SkipOf(n, kind, js), FireOf(n, kind, js);
    var ticks, law := TicksAt(good, skip, fire, n, kind, mouse), LoopLaw(run, skip, fire, n, kind, mouse);
    forall s, j: nat ensures ticks(s, j) {
      TickingLoop(n, kind, mouse, js, m, s, j, good, skip, fire, ticks);
    }
    forall s, j: nat, more: nat ensures law(s, j, more) {
      LawHolds(s, n, j, kind, mouse, js, more, law);
    }
    LoopTicks(good, ticks, law, run, skip, fire, sys, n, i, kind, mouse, passes);
  }

  /** The loop of console n makes no more calls than time passes. */
  lemma DispatchTicks(sys: System, n: string, i: nat, kind: CallbackType, mouse: set<MouseEvent>, js: Scripts, passes: nat, m: Manners)
    requires Calm(sys, m) && AllSettled(sys) && Makes(js, WithManners(m)) && IsDispatched(kind) && n in sys.cons && sys.cons[n].ctx
    ensures var r := DispatchFrom(sys, n, i, kind, mouse, js, passes); r.0.clock - sys.clock >= passes - r.1
  {
    RunTicks(sys, n, i, kind, mouse, js, passes, m, RunOf(n, kind, mouse, js));
  }
}
