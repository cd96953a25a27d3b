/** The dispatch loop with handlers that register for the same kind of arrival again: exactly
    when it ends. */
module Relistening {
  import opened Wrappers
  import opened Callbacks
  import opened Lifecycle
  import opened Protocol
  import opened Events
  import opened Walks
  import opened Uniform
  import opened Registrations
  import opened OneShot
  import opened Runs
  import opened Quiescence
  import opened Dichotomy
  import opened Scenarios
  import opened Firings
  import opened Loops
  import opened Dispatching

  /** A call that registers, one-shot, for the very arrival. */
  predicate Repeats(t: Attempt, kind: CallbackType, mouse: set<MouseEvent>) {
    && !t.caught && t.act.Register? && t.act.kind == kind && !t.act.persistent
    && (kind == N0183 ==> t.act.ident == "") && (kind == MouseEvents ==> t.act.mouseMask * mouse != {})
  }

  /** A handler that does nothing else, any number of times, and then ends well or not. */
  ghost predicate Repeating(b: Behaviour, kind: CallbackType, mouse: set<MouseEvent>) {
    forall i :: 0 <= i < |b.attempts| ==> Repeats(b.attempts[i], kind, mouse)
  }

  predicate Fails(b: Behaviour) {
    !b.completes || b.overruns
  }

  // ----- counting -----

  /** How often the next so many calls register. */
  function Renewals(js: Scripts, from: nat, calls: nat): nat
    decreases calls
  {
    if calls == 0 then 0 else |js(from).attempts| + Renewals(js, from + 1, calls - 1)
  }

  /** How many entries so many calls erase: those of the entries called that are one-shot, all
      entries registered later being one-shot. */
  function Erased(wanted: seq<Entry>, calls: nat): nat
    decreases calls
  {
    if calls == 0 then 0
    else if wanted == [] then calls
    else (if wanted[0].persistent then 0 else 1) + Erased(wanted[1..], calls - 1)
  }

  /** The loop ends with this call at the latest: everyone who wants the arrival has been
      called by then, or this call has failed, or it has gone over the limit of the registry,
      which had so many entries. */
  predicate EndedBy(size: nat, wanted: seq<Entry>, js: Scripts, from: nat, calls: nat) {
    || |wanted| + Renewals(js, from, calls) <= calls
    || (calls > 0 && (Fails(js(from + calls - 1)) || size + Renewals(js, from, calls) - Erased(wanted, calls) > MAX_CALLBACKS))
  }

  ghost predicate EndsWithin(size: nat, wanted: seq<Entry>, js: Scripts, from: nat, calls: nat) {
    exists k: nat :: k <= calls && EndedBy(size, wanted, js, from, k)
  }

  // ----- one call more or less -----

  lemma NobodyLeft(size: nat, js: Scripts, from: nat, calls: nat)
    ensures EndsWithin(size, [], js, from, calls)
  {
    assert EndedBy(size, [], js, from, 0);
  }

  lemma NoCallGranted(size: nat, wanted: seq<Entry>, js: Scripts, from: nat)
    requires wanted != []
    ensures !EndsWithin(size, wanted, js, from, 0)
  {
  }

  lemma EndsAtOnce(size: nat, wanted: seq<Entry>, js: Scripts, from: nat, calls: nat)
    requires wanted != [] && calls > 0
    requires Fails(js(from)) || size - (if wanted[0].persistent then 0 else 1) + |js(from).attempts| > MAX_CALLBACKS
             || (|wanted| == 1 && js(from).attempts == [])
    ensures EndsWithin(size, wanted, js, from, calls)
  {
    assert Renewals(js, from, 1) == |js(from).attempts| + Renewals(js, from + 1, 0);
    assert Erased(wanted, 1) == (if wanted[0].persistent then 0 else 1) + Erased(wanted[1..], 0);
    assert EndedBy(size, wanted, js, from, 1);
  }

  lemma {:induction false} ErasedWith(wanted: seq<Entry>, more: seq<Entry>, calls: nat)
    requires forall e :: e in more ==> !e.persistent
    ensures Erased(wanted + more, calls) == Erased(wanted, calls)
    decreases |wanted| + |more|, calls
  {
    if calls > 0 {
      if wanted != [] {
        assert (wanted + more)[1..] == wanted[1..] + more;
        ErasedWith(wanted[1..], more, calls - 1);
      } else if more != [] {
        assert [] + more == more && [] + more[1..] == more[1..];
        ErasedWith([], more[1..], calls - 1);
        ErasedNone(calls - 1);
      } else {
        assert wanted + more == [];
      }
    }
  }

  lemma {:induction false} ErasedNone(calls: nat)
    ensures Erased([], calls) == calls
  {
  }

  /** After one call that neither fails nor goes over the limit, the question is the same for
      what is left. */
  lemma OneCallLater(size: nat, wanted: seq<Entry>, more: seq<Entry>, js: Scripts, from: nat, calls: nat, size': nat)
    requires wanted != [] && calls > 0 && !Fails(js(from)) && |more| == |js(from).attempts|
    requires forall e :: e in more ==> !e.persistent
    requires size' == size - (if wanted[0].persistent then 0 else 1) + |js(from).attempts| <= MAX_CALLBACKS
    ensures EndsWithin(size, wanted, js, from, calls) <==> EndsWithin(size', wanted[1..] + more, js, from + 1, calls - 1)
  {
    if EndsWithin(size, wanted, js, from, calls) {
      var k: nat :| k <= calls && EndedBy(size, wanted, js, from, k);
      assert k > 0;
      OneCallLaterAt(size, wanted, more, js, from, k - 1, size');
    }
    if EndsWithin(size', wanted[1..] + more, js, from + 1, calls - 1) {
      var k: nat :| k <= calls - 1 && EndedBy(size', wanted[1..] + more, js, from + 1, k);
      OneCallLaterAt(size, wanted, more, js, from, k, size');
    }
  }

  lemma OneCallLaterAt(size: nat, wanted: seq<Entry>, more: seq<Entry>, js: Scripts, from: nat, k: nat, size': nat)
    requires wanted != [] && !Fails(js(from)) && |more| == |js(from).attempts| && forall e :: e in more ==> !e.persistent
    requires size' == size - (if wanted[0].persistent then 0 else 1) + |js(from).attempts| <= MAX_CALLBACKS
    ensures EndedBy(size, wanted, js, from, k + 1) <==> EndedBy(size', wanted[1..] + more, js, from + 1, k)
  {
    ErasedWith(wanted[1..], more, k);
    assert Renewals(js, from, k + 1) == |js(from).attempts| + Renewals(js, from + 1, k);
    assert Erased(wanted, k + 1) == (if wanted[0].persistent then 0 else 1) + Erased(wanted[1..], k);
    assert k == 0 ==> Renewals(js, from + 1, k) == 0 && Erased(wanted[1..], k) == 0;
  }

  // ----- the loop -----

  /** A registry to which so many entries have been added that want the arrival. */
  ghost predicate Grown(reg: seq<Entry>, reg': seq<Entry>, count: nat, kind: CallbackType, mouse: set<MouseEvent>) {
    && |reg'| == |reg| + count && reg <= reg'
    && forall k :: |reg| <= k < |reg'| ==> Wants(reg'[k], kind, mouse) && !reg'[k].persistent
  }

  /** Calling the entry at i, whose handler does b, has led to f: it has failed, or there is
      nothing to wait for, or all is good for one call less and the registry has grown. */
  ghost function CallGrows(good: (System, nat) -> bool, n: string, rest: seq<Entry>, clock: nat, more: nat, b: Behaviour, kind: CallbackType,
                           mouse: set<MouseEvent>): (System, bool) -> bool
    requires more > 0
  {
    (t: System, wrapped: bool) =>
      if Fails(b) || |rest| + |b.attempts| > MAX_CALLBACKS then wrapped
      else if wrapped then rest == [] && b.attempts == []
      else good(t, more - 1) && t.clock == clock + 1 && n in t.cons && Grown(rest, t.cons[n].callbacks, |b.attempts|, kind, mouse)
  }

  /** Whatever it is that makes a system good for so many calls more: the handler of the entry
      at i, if it wants the arrival, is one that registers for it again. */
  ghost function GrowsAt(good: (System, nat) -> bool, skip: (System, nat) -> System, fire: (System, nat) -> (System, bool), js: Scripts,
                         n: string, kind: CallbackType, mouse: set<MouseEvent>): (System, nat, nat) -> bool
  {
    (s: System, i: nat, more: nat) =>
      good(s, more) && Alive(s, n) && i < |s.cons[n].callbacks| ==>
        if !Wants(s.cons[n].callbacks[i], kind, mouse) then good(skip(s, i), more)
        else more > 0 ==> CallGrows(good, n, After(s.cons[n].callbacks, i), s.clock, more, js(s.clock), kind, mouse)(fire(s, i).0, fire(s, i).1)
  }

  lemma {:induction false} WantedBoth(a: seq<Entry>, b: seq<Entry>, kind: CallbackType, mouse: set<MouseEvent>)
    ensures Wanted(a + b, kind, mouse) == Wanted(a, kind, mouse) + Wanted(b, kind, mouse)
  {
    if a == [] {
      assert a + b == b;
    } else {
      assert (a + b)[0] == a[0] && (a + b)[1..] == a[1..] + b;
      WantedBoth(a[1..], b, kind, mouse);
    }
  }

  lemma {:induction false} AllWanted(a: seq<Entry>, kind: CallbackType, mouse: set<MouseEvent>)
    requires forall k :: 0 <= k < |a| ==> Wants(a[k], kind, mouse)
    ensures Wanted(a, kind, mouse) == a
  {
    if a != [] {
      AllWanted(a[1..], kind, mouse);
    }
  }

  /** What is left to call after the call of the entry at i. */
  lemma GrownWanted(reg: seq<Entry>, i: nat, reg': seq<Entry>, count: nat, kind: CallbackType, mouse: set<MouseEvent>) returns (more: seq<Entry>)
    requires i < |reg| && Grown(After(reg, i), reg', count, kind, mouse)
    ensures |more| == count && forall e :: e in more ==> !e.persistent
    ensures Next(reg, i) <= |reg'| && Wanted(reg'[Next(reg, i)..], kind, mouse) == Wanted(reg[i + 1..], kind, mouse) + more
  {
    AfterFrom(reg, i);
    var rest := After(reg, i);
    more := reg'[|rest|..];
    AllWanted(more, kind, mouse);
    assert reg'[Next(reg, i)..] == rest[Next(reg, i)..] + more;
    WantedBoth(rest[Next(reg, i)..], more, kind, mouse);
  }

  lemma {:induction false} LoopEnds(good: (System, nat) -> bool, grows: (System, nat, nat) -> bool, law: (System, nat, nat) -> bool,
                                    run: (System, nat, nat) -> (System, nat, bool), skip: (System, nat) -> System,
                                    fire: (System, nat) -> (System, bool), js: Scripts, sys: System, n: string, i: nat,
                                    kind: CallbackType, mouse: set<MouseEvent>, calls: nat)
    requires law == LoopLaw(run, skip, fire, n, kind, mouse) && Everywhere(law)
    requires grows == GrowsAt(good, skip, fire, js, n, kind, mouse) && Everywhere(grows)
    requires Alive(sys, n) && i <= |sys.cons[n].callbacks| && good(sys, calls)
    ensures run(sys, i, calls).2 <==> EndsWithin(|sys.cons[n].callbacks|, Wanted(sys.cons[n].callbacks[i..], kind, mouse), js, sys.clock, calls)
    decreases calls, |sys.cons[n].callbacks| - i
  {
    var reg := sys.cons[n].callbacks;
    assert law(sys, i, calls);
    if i == |reg| {
      NobodyLeft(|reg|, js, sys.clock, calls);
    } else {
      WantedStep(reg, i, kind, mouse);
      assert grows(sys, i, calls);
      if !Wants(reg[i], kind, mouse) {
        LoopEnds(good, grows, law, run, skip, fire, js, skip(sys, i), n, i + 1, kind, mouse, calls);
      } else if calls == 0 {
        NoCallGranted(|reg|, Wanted(reg[i..], kind, mouse), js, sys.clock);
      } else {
        var f := fire(sys, i);
        assert CallGrows(good, n, After(reg, i), sys.clock, calls, js(sys.clock), kind, mouse)(f.0, f.1);
        if f.1 {
          WrappedEnds(sys, n, i, kind, mouse, js, calls);
        } else {
          GoesOnAlike(reg, f.0.cons[n].callbacks, i, kind, mouse, js, sys.clock, calls);
          LoopEnds(good, grows, law, run, skip, fire, js, f.0, n, Next(reg, i), kind, mouse, calls - 1);
        }
      }
    }
  }

  lemma WrappedEnds(sys: System, n: string, i: nat, kind: CallbackType, mouse: set<MouseEvent>, js: Scripts, calls: nat)
    requires n in sys.cons && i < |sys.cons[n].callbacks| && Wants(sys.cons[n].callbacks[i], kind, mouse) && calls > 0
    requires var b, rest := js(sys.clock), After(sys.cons[n].callbacks, i);
             Fails(b) || |rest| + |b.attempts| > MAX_CALLBACKS || (rest == [] && b.attempts == [])
    ensures var reg := sys.cons[n].callbacks; EndsWithin(|reg|, Wanted(reg[i..], kind, mouse), js, sys.clock, calls)
  {
    var reg := sys.cons[n].callbacks;
    WantedStep(reg, i, kind, mouse);
    if After(reg, i) == [] {
      assert reg[i + 1..] == [];
    }
    EndsAtOnce(|reg|, Wanted(reg[i..], kind, mouse), js, sys.clock, calls);
  }

  lemma GoesOnAlike(reg: seq<Entry>, reg': seq<Entry>, i: nat, kind: CallbackType, mouse: set<MouseEvent>, js: Scripts, from: nat, calls: nat)
    requires i < |reg| && Wants(reg[i], kind, mouse) && calls > 0 && !Fails(js(from))
    requires Grown(After(reg, i), reg', |js(from).attempts|, kind, mouse) && |reg'| <= MAX_CALLBACKS
    ensures Next(reg, i) <= |reg'|
    ensures EndsWithin(|reg|, Wanted(reg[i..], kind, mouse), js, from, calls) <==>
            EndsWithin(|reg'|, Wanted(reg'[Next(reg, i)..], kind, mouse), js, from + 1, calls - 1)
  {
    var more := GrownWanted(reg, i, reg', |js(from).attempts|, kind, mouse);
    WantedStep(reg, i, kind, mouse);
    var wanted := Wanted(reg[i..], kind, mouse);
    assert wanted[1..] == Wanted(reg[i + 1..], kind, mouse);
    OneCallLater(|reg|, wanted, more, js, from, calls, |reg'|);
  }

  // ----- handlers that register again -----

  lemma RepeatEntry(c: ConsoleState, a: Act, next: int, kind: CallbackType, mouse: set<MouseEvent>)
    requires Repeats(Attempt(a, false), kind, mouse) && IsDispatched(kind) && InExit !in c.status
    ensures IsLocal(a)
    ensures var o := Perform(c, a, next);
            if |c.callbacks| >= MAX_CALLBACKS then o.threw
            else !o.threw && o.c == c.(callbacks := o.c.callbacks, cached := o.c.cached) && Grown(c.callbacks, o.c.callbacks, 1, kind, mouse)
  {
  }

  lemma RepeatCall(sys: System, n: string, t: Attempt, kind: CallbackType, mouse: set<MouseEvent>)
    requires n in sys.cons && Repeats(t, kind, mouse) && IsDispatched(kind) && InExit !in sys.cons[n].status
    ensures var c, (s, threw) := sys.cons[n], PerformIn(sys, n, t.act);
            if |c.callbacks| >= MAX_CALLBACKS then threw
            else !threw && s.cons[n] == c.(callbacks := s.cons[n].callbacks, cached := s.cons[n].cached)
                 && Grown(c.callbacks, s.cons[n].callbacks, 1, kind, mouse)
  {
    RepeatEntry(sys.cons[n], t.act, sys.nextId, kind, mouse);
    var o := Perform(sys.cons[n], t.act, sys.nextId);
    LocalIs(sys, n, t.act, o);
  }

  lemma LocalIs(sys: System, n: string, a: Act, o: Outcome)
    requires n in sys.cons && IsLocal(a) && o == Perform(sys.cons[n], a, sys.nextId)
    ensures PerformIn(sys, n, a).0.cons[n] == o.c && PerformIn(sys, n, a).1 == o.threw
  {
  }

  lemma GrownOn(a: seq<Entry>, b: seq<Entry>, c: seq<Entry>, i: nat, j: nat, kind: CallbackType, mouse: set<MouseEvent>)
    requires Grown(a, b, i, kind, mouse) && Grown(b, c, j, kind, mouse)
    ensures Grown(a, c, i + j, kind, mouse)
  {
    forall k | |a| <= k < |c| ensures Wants(c[k], kind, mouse) && !c[k].persistent {
      assert k < |b| ==> c[k] == b[k];
    }
  }

  /** All its calls succeed, or one goes over the limit. */
  lemma {:induction false} RepeatCalls(sys: System, n: string, attempts: seq<Attempt>, kind: CallbackType, mouse: set<MouseEvent>)
    requires n in sys.cons && IsDispatched(kind) && InExit !in sys.cons[n].status && |sys.cons[n].callbacks| <= MAX_CALLBACKS
    requires forall i :: 0 <= i < |attempts| ==> Repeats(attempts[i], kind, mouse)
    ensures var c, (s, ok) := sys.cons[n], RunAttempts(sys, n, attempts);
            if |c.callbacks| + |attempts| > MAX_CALLBACKS then !ok
            else ok && s.cons[n] == c.(callbacks := s.cons[n].callbacks, cached := s.cons[n].cached)
                 && Grown(c.callbacks, s.cons[n].callbacks, |attempts|, kind, mouse)
    decreases |attempts|
  {
    if attempts != [] {
      RepeatCall(sys, n, attempts[0], kind, mouse);
      var (s, threw) := PerformIn(sys, n, attempts[0].act);
      if !threw {
        RepeatCalls(s, n, attempts[1..], kind, mouse);
        if |sys.cons[n].callbacks| + |attempts| <= MAX_CALLBACKS {
          GrownOn(sys.cons[n].callbacks, s.cons[n].callbacks, RunAttempts(s, n, attempts[1..]).0.cons[n].callbacks, 1, |attempts| - 1, kind, mouse);
        }
      }
    }
  }

  /** What such a handler leaves of its console. */
  lemma RepeatAfterwards(c: ConsoleState, b: Behaviour, done: bool)
    requires !c.runningMain && Unspoiled(c)
    ensures var (c', outcome) := Afterwards(CutOffConsole(c, b), !b.overruns && done && b.completes);
            && c'.callbacks == c.callbacks
            && (Fails(b) || !done ==> outcome != MoreToDo)
            && (!Fails(b) && done && outcome != MoreToDo ==> c.callbacks == [])
  {
    var bad := {HadError, TimedOut, Stopped, ToChain, Closing, InExit};
    forall r | r in bad ensures r !in c.status {
      assert r in c.status ==> r in c.status * bad;
    }
  }

  /** Such a handler ends badly, or leaves nothing to wait for, or leaves the registry grown. */
  ghost predicate RepeatsTo(reg: seq<Entry>, b: Behaviour, c: ConsoleState, outcome: Completion, kind: CallbackType, mouse: set<MouseEvent>) {
    if Fails(b) || |reg| + |b.attempts| > MAX_CALLBACKS then outcome != MoreToDo
    else Grown(reg, c.callbacks, |b.attempts|, kind, mouse) && (outcome != MoreToDo ==> c.callbacks == [])
  }

  lemma CallsRepeat(sys: System, n: string, b: Behaviour, kind: CallbackType, mouse: set<MouseEvent>, r: (System, bool))
    requires n in sys.cons && IsDispatched(kind) && !sys.cons[n].runningMain && Unspoiled(sys.cons[n]) && |sys.cons[n].callbacks| <= MAX_CALLBACKS
    requires Repeating(b, kind, mouse) && r == RunAttempts(sys, n, b.attempts)
    ensures var (c, outcome) := Afterwards(CutOffConsole(r.0.cons[n], b), !b.overruns && r.1 && b.completes);
            RepeatsTo(sys.cons[n].callbacks, b, c, outcome, kind, mouse)
  {
    assert InExit !in sys.cons[n].status * {HadError, TimedOut, Stopped, ToChain, Closing, InExit};
    RepeatCalls(sys, n, b.attempts, kind, mouse);
    if r.1 {
      RepeatAfterwards(r.0.cons[n], b, true);
    } else {
      NotDone(r.0.cons[n], b);
    }
  }

  lemma NotDone(c: ConsoleState, b: Behaviour)
    ensures Afterwards(CutOffConsole(c, b), false).1 != MoreToDo
  {
  }

  lemma ExecuteRepeats(sys: System, n: string, js: Scripts, b: Behaviour, kind: CallbackType, mouse: set<MouseEvent>)
    requires n in sys.cons && IsDispatched(kind) && !sys.cons[n].runningMain && Unspoiled(sys.cons[n]) && |sys.cons[n].callbacks| <= MAX_CALLBACKS
    requires b == js(sys.clock) && Repeating(b, kind, mouse)
    ensures var (s, outcome) := Execute(sys, n, Callable, js);
            s.clock == sys.clock + 1 && RepeatsTo(sys.cons[n].callbacks, b, s.cons[n], outcome, kind, mouse)
  {
    var s0 := Entered(sys, n);
    var t0 := s0.(clock := s0.clock + 1);
    EnteredUnspoiled(sys.cons[n]);
    CallsRepeat(t0, n, b, kind, mouse, RunAttempts(t0, n, b.attempts));
    RunJsEnd(s0, n, js, b, RunAttempts(t0, n, b.attempts));
    RunJsClock(s0, n, js);
    ExecuteFrom(sys, n, js, RunJs(s0, n, js));
  }

  lemma EnteredUnspoiled(c: ConsoleState)
    requires Unspoiled(c)
    ensures Unspoiled(c.(cached := false, status := c.status - {TimedOut}))
  {
  }

  lemma ExecuteFrom(sys: System, n: string, js: Scripts, r: (System, bool))
    requires n in sys.cons && !sys.cons[n].runningMain && Unspoiled(sys.cons[n]) && r == RunJs(Entered(sys, n), n, js)
    ensures var (s, outcome) := Execute(sys, n, Callable, js);
            s.clock == r.0.clock && (s.cons[n], outcome) == Afterwards(r.0.cons[n], r.1)
  {
    assert HadError !in sys.cons[n].status * {HadError, TimedOut, Stopped, ToChain, Closing, InExit};
  }

  lemma CallRepeats(t: System, n: string, e: Entry, kind: CallbackType, mouse: set<MouseEvent>, js: Scripts, f: (System, bool),
                    good: (System, nat) -> bool, more: nat)
    requires n in t.cons && t.cons[n].ctx && AllSettledBarring(t, n) && e.handler == Callable && IsDispatched(kind)
    requires !t.cons[n].runningMain && Unspoiled(t.cons[n]) && HadError !in t.cons[n].status && |t.cons[n].callbacks| <= MAX_CALLBACKS
    requires Repeating(js(t.clock), kind, mouse) && f == Call(t, n, e, js) && more > 0
    requires f.0.clock == t.clock + 1 ==> good(f.0, more - 1)
    ensures CallGrows(good, n, t.cons[n].callbacks, t.clock, more, js(t.clock), kind, mouse)(f.0, f.1)
  {
    var s1 := Noted(t, [Fired(n, e.id, e.persistent)]);
    ExecuteRepeats(s1, n, js, js(t.clock), kind, mouse);
    HandlerBusy(s1, n, js);
    CallUnfolds(t, n, e, js);
  }

  lemma FireAtRepeats(sys: System, n: string, i: nat, kind: CallbackType, mouse: set<MouseEvent>, js: Scripts, m: Manners, f: (System, bool),
                      good: (System, nat) -> bool, more: nat)
    requires Calm(sys, m) && Alive(sys, n) && IsDispatched(kind) && i < |sys.cons[n].callbacks| && sys.cons[n].callbacks[i].kind == kind
    requires Repeating(js(sys.clock), kind, mouse) && f == FireAt(sys, n, i, js) && more > 0
    requires f.0.clock == sys.clock + 1 ==> good(f.0, more - 1)
    ensures CallGrows(good, n, After(sys.cons[n].callbacks, i), sys.clock, more, js(sys.clock), kind, mouse)(f.0, f.1)
  {
    ReadyToCall(sys, n, i, m);
    var reg := sys.cons[n].callbacks;
    CallRepeats(TakeEntry(sys, n, After(reg, i)), n, reg[i], kind, mouse, js, f, good, more);
  }

  ghost function Repeatedly(js: Scripts, m: Manners, kind: CallbackType, mouse: set<MouseEvent>): (System, nat) -> bool {
    (s: System, more: nat) =>
      Calm(s, m) && AllSettled(s) && forall k :: s.clock <= k < s.clock + more ==> Repeating(js(k), kind, mouse)
  }

  lemma GoodAgain(js: Scripts, m: Manners, kind: CallbackType, mouse: set<MouseEvent>, s: System, t: System, more: nat)
    requires Repeatedly(js, m, kind, mouse)(s, more) && more > 0 && Calm(t, m) && AllSettled(t) && t.clock == s.clock + 1
    ensures Repeatedly(js, m, kind, mouse)(t, more - 1)
  {
  }

  lemma GoodAfter(n: string, i: nat, kind: CallbackType, mouse: set<MouseEvent>, js: Scripts, m: Manners, s: System, u: System, more: nat, f: (System, bool))
    requires Repeatedly(js, m, kind, mouse)(s, more) && more > 0 && Makes(js, WithManners(m))
    requires Calm(u, m) && Alive(u, n) && i < |u.cons[n].callbacks| && IsDispatched(u.cons[n].callbacks[i].kind) && f == FireAt(u, n, i, js)
    ensures f.0.clock == s.clock + 1 ==> Repeatedly(js, m, kind, mouse)(f.0, more - 1)
  {
    FireAtCalm(u, n, i, js, m);
    if f.0.clock == s.clock + 1 {
      GoodAgain(js, m, kind, mouse, s, f.0, more);
    }
  }

  lemma Grows(n: string, kind: CallbackType, mouse: set<MouseEvent>, js: Scripts, m: Manners, s: System, i: nat, more: nat,
              grows: (System, nat, nat) -> bool)
    requires IsDispatched(kind) && Makes(js, WithManners(m))
    requires grows == GrowsAt(Repeatedly(js, m, kind, mouse), SkipOf(n, kind, js), FireOf(n, kind, js), js, n, kind, mouse)
    ensures grows(s, i, more)
  {
    if Repeatedly(js, m, kind, mouse)(s, more) && Alive(s, n) && i < |s.cons[n].callbacks| {
      if !Wants(s.cons[n].callbacks[i], kind, mouse) {
        GrowsOver(n, kind, mouse, js, m, s, i, more, grows);
      } else if more > 0 {
        GrowsFiring(n, kind, mouse, js, m, s, i, more, grows, FireOf(n, kind, js)(s, i));
      }
    }
  }

  lemma GrowsOver(n: string, kind: CallbackType, mouse: set<MouseEvent>, js: Scripts, m: Manners, s: System, i: nat, more: nat,
                  grows: (System, nat, nat) -> bool)
    requires grows == GrowsAt(Repeatedly(js, m, kind, mouse), SkipOf(n, kind, js), FireOf(n, kind, js), js, n, kind, mouse)
    requires Repeatedly(js, m, kind, mouse)(s, more) && Alive(s, n) && i < |s.cons[n].callbacks| && !Wants(s.cons[n].callbacks[i], kind, mouse)
    ensures grows(s, i, more)
  {
    BitsCalm(s, Mark(s, kind).active, m);
    var t := SkipOf(n, kind, js)(s, i);
    assert t == s || t == Mark(s, kind);
  }

  lemma GrowsFiring(n: string, kind: CallbackType, mouse: set<MouseEvent>, js: Scripts, m: Manners, s: System, i: nat, more: nat,
                    grows: (System, nat, nat) -> bool, f: (System, bool))
    requires IsDispatched(kind) && Makes(js, WithManners(m)) && more > 0 && f == FireOf(n, kind, js)(s, i)
    requires grows == GrowsAt(Repeatedly(js, m, kind, mouse), SkipOf(n, kind, js), FireOf(n, kind, js), js, n, kind, mouse)
    requires Repeatedly(js, m, kind, mouse)(s, more) && Alive(s, n) && i < |s.cons[n].callbacks| && Wants(s.cons[n].callbacks[i], kind, mouse)
    ensures grows(s, i, more)
  {
    BitsCalm(s, Mark(s, kind).active, m);
    GoodAfter(n, i, kind, mouse, js, m, s, Mark(s, kind), more, f);
    RepeatsNow(js, m, kind, mouse, s, more);
    FiringGrows(n, kind, mouse, js, m, s, i, more, f, Repeatedly(js, m, kind, mouse));
  }

  lemma RepeatsNow(js: Scripts, m: Manners, kind: CallbackType, mouse: set<MouseEvent>, s: System, more: nat)
    requires Repeatedly(js, m, kind, mouse)(s, more) && more > 0
    ensures Repeating(js(s.clock), kind, mouse)
  {
  }

  lemma FiringGrows(n: string, kind: CallbackType, mouse: set<MouseEvent>, js: Scripts, m: Manners, s: System, i: nat, more: nat, f: (System, bool),
                    good: (System, nat) -> bool)
    requires Calm(s, m) && Alive(s, n) && IsDispatched(kind) && i < |s.cons[n].callbacks| && Wants(s.cons[n].callbacks[i], kind, mouse)
    requires Repeating(js(s.clock), kind, mouse) && f == FireAt(Mark(s, kind), n, i, js) && more > 0
    requires f.0.clock == s.clock + 1 ==> good(f.0, more - 1)
    ensures CallGrows(good, n, After(s.cons[n].callbacks, i), s.clock, more, js(s.clock), kind, mouse)(f.0, f.1)
  {
    BitsCalm(s, Mark(s, kind).active, m);
    FireAtRepeats(Mark(s, kind), n, i, kind, mouse, js, m, f, good, more);
  }

  /** If the next so many calls each only register again for the very arrival, any number of
      times, and end well or not, the loop of console n ends within so many calls if and only
      if after some number of them everyone who wanted the arrival, and everyone who has
      registered since, has been called - or that call fails, or goes over the limit. */
  lemma DispatchEndsExactly(sys: System, n: string, i: nat, kind: CallbackType, mouse: set<MouseEvent>, js: Scripts, calls: nat, m: Manners)
    requires Calm(sys, m) && AllSettled(sys) && Makes(js, WithManners(m)) && IsDispatched(kind)
    requires n in sys.cons && sys.cons[n].ctx && i <= |sys.cons[n].callbacks|
    requires forall k :: sys.clock <= k < sys.clock + calls ==> Repeating(js(k), kind, mouse)
    ensures DispatchFrom(sys, n, i, kind, mouse, js, calls).2 <==>
            EndsWithin(|sys.cons[n].callbacks|, Wanted(sys.cons[n].callbacks[i..], kind, mouse), js, sys.clock, calls)
  {
    var good, run, skip, fire := Repeatedly(js, m, kind, mouse), RunOf(n, kind, mouse, js), SkipOf(n, kind, js), FireOf(n, kind, js);
    var grows, law := GrowsAt(good, skip, fire, js, n, kind, mouse), LoopLaw(run, skip, fire, n, kind, mouse);
    forall s, j: nat, more: nat ensures grows(s, j, more) && law(s, j, more) {
      Grows(n, kind, mouse, js, m, s, j, more, grows);
      LawHolds(s, n, j, kind, mouse, js, more, law);
    }
    LoopEnds(good, grows, law, run, skip, fire, js, sys, n, i, kind, mouse, calls);
  }

  // ----- the usual idiom, of a handler that registers once again -----

  lemma {:induction false} OneForOne(wanted: seq<Entry>, js: Scripts, from: nat, calls: nat)
    requires forall e :: e in wanted ==> !e.persistent
    requires forall k :: from <= k < from + calls ==> |js(k).attempts| == 1
    ensures Renewals(js, from, calls) == calls && Erased(wanted, calls) == calls
    decreases calls
  {
    if calls > 0 {
      OneForOne(if wanted == [] then [] else wanted[1..], js, from + 1, calls - 1);
    }
  }

  /** One-shot listeners whose handlers each register exactly once again: however many calls
      are granted, the loop does not end. */
  lemma RenewedForever(size: nat, wanted: seq<Entry>, js: Scripts, from: nat, calls: nat)
    requires wanted != [] && size <= MAX_CALLBACKS && forall e :: e in wanted ==> !e.persistent
    requires forall k :: from <= k < from + calls ==> |js(k).attempts| == 1 && !Fails(js(k))
    ensures !EndsWithin(size, wanted, js, from, calls)
  {
    forall k: nat | k <= calls ensures !EndedBy(size, wanted, js, from, k) {
      OneForOne(wanted, js, from, k);
    }
  }

  /** One one-shot listener, with handlers that register at most once again: the loop ends if
      and only if one of the calls granted does not register again, or fails. */
  lemma OneListenerEnds(size: nat, e: Entry, js: Scripts, from: nat, calls: nat)
    requires size <= MAX_CALLBACKS && !e.persistent && forall k :: from <= k < from + calls ==> |js(k).attempts| <= 1
    ensures EndsWithin(size, [e], js, from, calls) <==>
            exists k :: from <= k < from + calls && (js(k).attempts == [] || Fails(js(k)))
  {
    if k :| from <= k < from + calls && (js(k).attempts == [] || Fails(js(k))) {
      AtMostOne(js, from, k - from + 1);
      if js(k).attempts == [] {
        FewerRenewals(js, from, k);
      }
      assert EndedBy(size, [e], js, from, k - from + 1);
    } else {
      forall k: nat | from <= k < from + calls ensures |js(k).attempts| == 1 && !Fails(js(k)) {
      }
      RenewedForever(size, [e], js, from, calls);
    }
  }

  lemma {:induction false} AtMostOne(js: Scripts, from: nat, calls: nat)
    requires forall k :: from <= k < from + calls ==> |js(k).attempts| <= 1
    ensures Renewals(js, from, calls) <= calls
    decreases calls
  {
    if calls > 0 {
      AtMostOne(js, from + 1, calls - 1);
    }
  }

  lemma {:induction false} FewerRenewals(js: Scripts, from: nat, k: nat)
    requires from <= k && js(k).attempts == [] && forall j :: from <= j <= k ==> |js(j).attempts| <= 1
    ensures Renewals(js, from, k - from + 1) <= k - from
    decreases k - from
  {
    if from < k {
      FewerRenewals(js, from + 1, k);
    } else {
      assert Renewals(js, from, 1) == |js(from).attempts| + Renewals(js, from + 1, 0);
    }
  }

  /** A script that registers for any NMEA 0183 sentence, as does its handler. */
  function Again(k: nat): Behaviour {
    Behaviour([Attempt(Register(N0183, false, "", {}), false)], true, false)
  }

  const LISTENER := Entry(1, N0183, false, Callable, [], 0, "", {})

  const LISTENING := NEW_CONSOLE.(ctx := true, callbacks := [LISTENER], cached := true, waiting := true, button := Stop)

  /** The console in this state, the activity bits being these. */
  function Heard(c: ConsoleState, active: set<CallbackType>): System {
    System(map["A" := c], ["A"], 2, [], active, 1, [])
  }

  lemma FirstListens()
    ensures RunEvents(Start(["A"]), [RunButton("A")], Again) == Some(Heard(LISTENING, {N0183}))
  {
    AloneBegins();
    var c := STARTED.(callbacks := [LISTENER]);
    var s1, t := Heard(c, {N0183}), Heard(LISTENING, {N0183});
    ListenerSet(Alone(1, STARTED), s1);
    OneAttempt(Alone(0, STARTED), "A", Again, Attempt(Register(N0183, false, "", {}), false), s1, false);
    assert Afterwards(c.(runningMain := false), true) == (LISTENING, MoreToDo);
    assert s1.cons["A" := LISTENING] == t.cons;
    FirstPress(Start(["A"]), "A", Again, Alone(0, STARTED), s1, LISTENING, t);
    OneEvent(Start(["A"]), RunButton("A"), Again);
  }

  lemma ListenerSet(s: System, s': System)
    requires s == Alone(1, STARTED) && s' == Heard(STARTED.(callbacks := [LISTENER]), {N0183})
    ensures PerformIn(s, "A", Register(N0183, false, "", {})) == (s', false)
  {
    assert STARTED.callbacks + [LISTENER] == [LISTENER];
    var o := Perform(STARTED, Register(N0183, false, "", {}), 1);
    assert o == Outcome(STARTED.(callbacks := [LISTENER]), false, 2);
    assert s.cons["A" := o.c] == s'.cons;
    assert s.active + {N0183} == {N0183};
  }

  /** The loop does not end, however many calls are granted. */
  lemma ListensForever(s: System, passes: nat, mouse: set<MouseEvent>)
    requires s == Heard(LISTENING, {}) && Calm(s, Manners(false, false)) && AllSettled(s)
    ensures !DispatchFrom(s, "A", 0, N0183, mouse, Again, passes).2
  {
    OneWanted(mouse);
    DispatchEndsExactly(s, "A", 0, N0183, mouse, Again, passes, Manners(false, false));
    RenewedForever(1, [LISTENER], Again, s.clock, passes);
  }

  lemma OneWanted(mouse: set<MouseEvent>)
    ensures Wanted([LISTENER][0..], N0183, mouse) == [LISTENER]
  {
    assert [LISTENER][0..] == [LISTENER] && [LISTENER][1..] == [];
    assert Wanted([LISTENER], N0183, mouse) == [LISTENER] + Wanted([], N0183, mouse);
  }

  /** The turn of a console whose cached answer is that it is waiting. */
  lemma TurnOf(sys: System, n: string, kind: CallbackType, mouse: set<MouseEvent>, js: Scripts, passes: nat)
    requires Alive(sys, n) && sys.cons[n].cached && sys.cons[n].waiting
    ensures DispatchIn(sys, n, kind, mouse, js, passes) == DispatchFrom(sys, n, 0, kind, mouse, js, passes)
  {
    assert With(sys, n, sys.cons[n]) == sys;
  }

  lemma AgainMannered(m: Manners)
    ensures Makes(Again, WithManners(m))
  {
  }

  lemma HeardCalm(m: Manners, s: System)
    requires RunEvents(Start(["A"]), [RunButton("A")], Again) == Some(s)
    ensures Calm(s, m) && AllSettled(s)
  {
    AgainMannered(m);
    StartCalm(["A"], m);
    RunIsCalm(Start(["A"]), [RunButton("A")], Again, m, s);
  }

  /** In a run from the start: a console whose script and handlers register once again is met
      by the loop again and again, with the same sentence, and control never returns. */
  lemma NeverReturns(passes: nat, mouse: set<MouseEvent>)
    ensures var s := RunEvents(Start(["A"]), [RunButton("A")], Again);
            s.Some? && Step(s.value, Arrival(N0183, mouse, passes), Again) == None
  {
    FirstListens();
    var s := Heard(LISTENING, {});
    HeardCalm(Manners(false, false), Heard(LISTENING, {N0183}));
    BitsCalm(Heard(LISTENING, {N0183}), {}, Manners(false, false));
    ListensForever(s, passes, mouse);
    TurnOf(s, "A", N0183, mouse, Again, passes);
    StepNever(Heard(LISTENING, {N0183}), s, "A", N0183, mouse, Again, passes);
  }

  lemma StepNever(sys: System, s: System, n: string, kind: CallbackType, mouse: set<MouseEvent>, js: Scripts, passes: nat)
    requires AllSettled(sys) && kind in sys.active && IsDispatched(kind) && s == Unmarked(sys, kind) && s.order == [n]
    requires !DispatchIn(s, n, kind, mouse, js, passes).2
    ensures Step(sys, Arrival(kind, mouse, passes), js) == None
  {
  }
}
