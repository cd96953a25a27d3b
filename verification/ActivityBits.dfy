/** The activity bits that let an arrival be ignored without looking: whatever scripts do,
    whenever control is back in the event loop, a registered listener has its bit on. */
module ActivityBits {
  import opened Wrappers
  import opened Callbacks
  import opened Lifecycle
  import opened Protocol
  import opened Events
  import opened Walks
  import opened Uniform
  import opened Registrations
  import opened OneShot
  import opened Runs

  /** Every registered entry that has an activity bit, but for one kind, has it on. */
  ghost predicate BitsBut(sys: System, kind: CallbackType) {
    forall s :: s in AllSignatures(sys) && SetsActive(s.kind, s.ident) && s.kind != kind ==> s.kind in sys.active
  }

  ghost predicate AllBits(sys: System) {
    forall s :: s in AllSignatures(sys) && SetsActive(s.kind, s.ident) ==> s.kind in sys.active
  }

  /** From sys to sys' no bit is lost, whichever kind is left out of account. */
  ghost predicate KeepsBits(sys: System, sys': System) {
    && sys.active <= sys'.active
    && forall kind :: BitsBut(sys, kind) ==> BitsBut(sys', kind)
  }

  lemma KeepsBitsOn(a: System, b: System, c: System)
    requires KeepsBits(a, b) && KeepsBits(b, c)
    ensures KeepsBits(a, c)
  {
  }

  lemma FewerBits(sys: System, sys': System)
    requires FewerEntries(sys, sys')
    ensures KeepsBits(sys, sys')
  {
    FewerSignatures(sys, sys');
  }

  lemma GrowBits(sys: System, sys': System, n: string)
    requires Registered(sys) && GrowsIn(sys, sys', n) && sys.active <= sys'.active
    requires NewActive(sys'.cons[n].callbacks, sys.nextId, sys'.active)
    ensures KeepsBits(sys, sys')
  {
    OldSignatures(sys, sys', n);
    forall x | x in AllSignatures(sys') && x !in AllSignatures(sys) && SetsActive(x.kind, x.ident) ensures x.kind in sys'.active {
      var m :| m in sys'.cons && x in Signatures(sys'.cons[m].callbacks);
      if m != n {
        SignatureBound(sys, m, x);
      }
    }
  }

  // ----- running JavaScript -----

  lemma AwaitBits(sys: System, n: string, target: string, callable: bool, hasBrief: bool)
    requires Inv(sys) && n in sys.cons
    ensures KeepsBits(sys, AwaitIn(sys, n, target, callable, hasBrief).0)
  {
    if InExit in sys.cons[n].status {
      FewerBits(sys, AwaitIn(sys, n, target, callable, hasBrief).0);
    } else {
      var e := AwaitEntry(sys.nextId, callable);
      var o := NewCallbackEntry(sys.cons[n], e, sys.nextId);
      NewOk(sys.cons[n], e, sys.nextId);
      var s := With(sys, n, o.c).(nextId := o.nextId);
      GrowBits(sys, s, n);
      if !o.threw {
        var t := AskToRun(s, n, target, Brief(sys.nextId, n, hasBrief)).0;
        FewerBits(s, t);
        KeepsBitsOn(sys, s, t);
      }
    }
  }

  lemma InstallBits(sys: System, n: string, a: Act, o: Outcome)
    requires Inv(sys) && n in sys.cons && IsLocal(a) && o == Perform(sys.cons[n], a, sys.nextId)
    ensures KeepsBits(sys, Install(sys, n, o, BitsSet(a, o)).0)
  {
    PerformOk(sys.cons[n], a, sys.nextId, o);
    GrowBits(sys, Install(sys, n, o, BitsSet(a, o)).0, n);
  }

  lemma OthersBits(sys: System, n: string, a: Act)
    requires n in sys.cons && (a.RunConsole? || a.ConsoleBusy?)
    ensures a.RunConsole? ==> KeepsBits(sys, RunConsoleIn(sys, n, a.target, a.hasBrief).0)
    ensures a.ConsoleBusy? ==> KeepsBits(sys, ConsoleBusyIn(sys, n, a.target).0)
  {
    if a.RunConsole? {
      FewerBits(sys, RunConsoleIn(sys, n, a.target, a.hasBrief).0);
    } else {
      FewerBits(sys, ConsoleBusyIn(sys, n, a.target).0);
    }
  }

  lemma PerformBits(sys: System, n: string, a: Act)
    requires Inv(sys) && n in sys.cons
    ensures KeepsBits(sys, PerformIn(sys, n, a).0)
  {
    if a.AwaitResult? {
      AwaitBits(sys, n, a.target, a.callable, a.hasBrief);
    } else if a.RunConsole? || a.ConsoleBusy? {
      OthersBits(sys, n, a);
    } else {
      InstallBits(sys, n, a, Perform(sys.cons[n], a, sys.nextId));
    }
  }

  // ----- every other step -----

  ghost function BitsSince(s0: System): System -> bool {
    (s: System) => KeepsBits(s0, s)
  }

  ghost function BitsKept(s0: System): System -> bool {
    InvAnd(BitsSince(s0))
  }

  lemma BitsBreak(s0: System)
    ensures OnlyNewBreaks(BitsSince(s0), Any())
  {
    var q, may := BitsSince(s0), Any();
    forall s, s' {:trigger FewerEntries(s, s')} | q(s) && FewerEntries(s, s') ensures q(s') {
      FewerBits(s, s');
      KeepsBitsOn(s0, s, s');
    }
    forall s, n, t: Attempt {:trigger q(PerformIn(s, n, t.act).0), may(t)} | Inv(s) && q(s) && n in s.cons
      ensures q(PerformIn(s, n, t.act).0)
    {
      PerformBits(s, n, t.act);
      KeepsBitsOn(s0, s, PerformIn(s, n, t.act).0);
    }
  }

  lemma BitsSteps(s0: System, js: Scripts)
    ensures var k := Always(BitsKept(s0)); WrapSteps(k, js) && FireSteps(k, js) && HandSteps(k, js) && PendingSteps(k) && MarkSteps(k)
  {
    BitsBreak(s0);
    StepsBreak(BitsSince(s0), Any(), js);
    WrapsUniformly(BitsKept(s0), Any(), js);
    FiresUniformly(BitsKept(s0), Any(), js);
    HandledUniformly(BitsKept(s0), Any(), js);
  }

  // ----- dispatch, which clears the bit before it looks -----

  /** Nobody in this part of this registry listens for the kind. */
  ghost predicate NoListener(reg: seq<Entry>, i: nat, kind: CallbackType) {
    forall k :: i <= k < |reg| ==> !Listens(reg[k], kind)
  }

  lemma FromBits(sys: System, n: string, i: nat, kind: CallbackType, mouse: set<MouseEvent>, js: Scripts, passes: nat)
    requires Inv(sys) && n in sys.cons && sys.cons[n].ctx && AllSettled(sys) && IsDispatched(kind)
    ensures var s := DispatchFrom(sys, n, i, kind, mouse, js, passes).0; Inv(s) && KeepsBits(sys, s)
  {
    BitsSteps(sys, js);
    assert FireStepsIn(Always(BitsKept(sys)), js, n);
    DispatchFromWalk(Always(BitsKept(sys)), sys, n, i, kind, mouse, js, passes);
  }

  lemma InBits(sys: System, n: string, kind: CallbackType, mouse: set<MouseEvent>, js: Scripts, passes: nat)
    requires Inv(sys) && AllSettled(sys) && IsDispatched(kind)
    ensures var s := DispatchIn(sys, n, kind, mouse, js, passes).0; Inv(s) && KeepsBits(sys, s)
  {
    BitsSteps(sys, js);
    assert FireStepsIn(Always(BitsKept(sys)), js, n);
    DispatchInWalk(Always(BitsKept(sys)), sys, n, kind, mouse, js, passes);
  }

  lemma ToBits(sys: System, names: seq<string>, kind: CallbackType, mouse: set<MouseEvent>, js: Scripts, passes: nat)
    requires Inv(sys) && AllSettled(sys) && IsDispatched(kind)
    ensures var s := DispatchTo(sys, names, kind, mouse, js, passes).0; Inv(s) && KeepsBits(sys, s)
  {
    BitsSteps(sys, js);
    assert forall n :: n in names ==> FireStepsIn(Always(BitsKept(sys)), js, n);
    DispatchToWalk(Always(BitsKept(sys)), sys, names, kind, mouse, js, passes);
  }

  lemma PassBits(sys: System, n: string, i: nat, kind: CallbackType, mouse: set<MouseEvent>, js: Scripts)
    requires Inv(sys) && n in sys.cons && sys.cons[n].ctx && AllSettled(sys) && IsDispatched(kind)
    requires i < |sys.cons[n].callbacks| && Listens(sys.cons[n].callbacks[i], kind)
    ensures var s := Pass(sys, n, i, kind, mouse, js).0; Inv(s) && kind in s.active
  {
    var s := Mark(sys, kind);
    Fields(sys, s.active, s.clock);
    if Wants(sys.cons[n].callbacks[i], kind, mouse) {
      BitsSteps(s, js);
      assert FireStepsIn(Always(BitsKept(s)), js, n);
      FireAtWalk(Always(BitsKept(s)), s, n, i, js);
    }
  }

  /** A loop that meets a listener, and ends, leaves the bit on. */
  lemma ListenerSeen(sys: System, n: string, i: nat, kind: CallbackType, mouse: set<MouseEvent>, js: Scripts, passes: nat)
    requires Inv(sys) && n in sys.cons && sys.cons[n].ctx && AllSettled(sys) && IsDispatched(kind)
    requires i < |sys.cons[n].callbacks| && Listens(sys.cons[n].callbacks[i], kind)
    requires DispatchFrom(sys, n, i, kind, mouse, js, passes).2
    ensures kind in DispatchFrom(sys, n, i, kind, mouse, js, passes).0.active
  {
    var fires := Wants(sys.cons[n].callbacks[i], kind, mouse);
    PassBits(sys, n, i, kind, mouse, js);
    var (s, j, wrapped) := Pass(sys, n, i, kind, mouse, js);
    if !wrapped {
      FromBits(s, n, j, kind, mouse, js, if fires then passes - 1 else passes);
    }
  }

  /** When the loop ends with the bit off, nothing has happened, and nobody in the rest of
      the registry listens. */
  lemma {:induction false} DispatchFromQuiet(sys: System, n: string, i: nat, kind: CallbackType, mouse: set<MouseEvent>, js: Scripts, passes: nat)
    requires Inv(sys) && n in sys.cons && sys.cons[n].ctx && AllSettled(sys) && IsDispatched(kind)
    requires DispatchFrom(sys, n, i, kind, mouse, js, passes).2
    requires kind !in DispatchFrom(sys, n, i, kind, mouse, js, passes).0.active
    ensures DispatchFrom(sys, n, i, kind, mouse, js, passes).0 == sys && NoListener(sys.cons[n].callbacks, i, kind)
    decreases |sys.cons[n].callbacks| - i
  {
    if i < |sys.cons[n].callbacks| {
      if Listens(sys.cons[n].callbacks[i], kind) {
        ListenerSeen(sys, n, i, kind, mouse, js, passes);
      } else {
        SkipNonListener(sys, n, i, kind, mouse, js, passes);
        DispatchFromQuiet(sys, n, i + 1, kind, mouse, js, passes);
      }
    }
  }

  lemma SkipNonListener(sys: System, n: string, i: nat, kind: CallbackType, mouse: set<MouseEvent>, js: Scripts, passes: nat)
    requires n in sys.cons && sys.cons[n].ctx && AllSettled(sys)
    requires i < |sys.cons[n].callbacks| && !Listens(sys.cons[n].callbacks[i], kind)
    ensures DispatchFrom(sys, n, i, kind, mouse, js, passes) == DispatchFrom(sys, n, i + 1, kind, mouse, js, passes)
  {
    assert Pass(sys, n, i, kind, mouse, js) == (sys, i + 1, false);
  }

  lemma AskedInv(sys: System, n: string)
    requires Inv(sys) && AllSettled(sys) && n in sys.cons
    ensures Inv(Asked(sys, n)) && forall m :: m in sys.cons ==> Asked(sys, n).cons[m].callbacks == sys.cons[m].callbacks
    ensures !IsWaiting(sys.cons[n]).1 ==> sys.cons[n].callbacks == []
  {
    RetoldInv(sys, Asked(sys, n));
  }

  /** The registries are as they were, and nobody in these consoles listens. */
  ghost predicate NothingMissed(sys: System, s: System, names: seq<string>, kind: CallbackType) {
    && s.cons.Keys == sys.cons.Keys
    && (forall m :: m in sys.cons ==> s.cons[m].callbacks == sys.cons[m].callbacks)
    && (forall m :: m in names && m in sys.cons ==> NoListener(sys.cons[m].callbacks, 0, kind))
  }

  lemma NothingMissedOn(sys: System, s1: System, s: System, names: seq<string>, kind: CallbackType)
    requires names != [] && NothingMissed(s1, s, names[1..], kind) && s1.cons.Keys == sys.cons.Keys
    requires forall m :: m in sys.cons ==> s1.cons[m].callbacks == sys.cons[m].callbacks
    requires names[0] in sys.cons ==> NoListener(sys.cons[names[0]].callbacks, 0, kind)
    ensures NothingMissed(sys, s, names, kind)
  {
    forall m | m in names && m in sys.cons ensures NoListener(sys.cons[m].callbacks, 0, kind) {
      if m != names[0] {
        assert m in names[1..];
        assert NoListener(s1.cons[m].callbacks, 0, kind);
      }
    }
  }

  /** What the bit does not show after the loop over the consoles is nowhere in them. */
  lemma {:induction false} DispatchToQuiet(sys: System, names: seq<string>, kind: CallbackType, mouse: set<MouseEvent>, js: Scripts, passes: nat)
    requires Inv(sys) && AllSettled(sys) && IsDispatched(kind)
    requires var (s, left, ended) := DispatchTo(sys, names, kind, mouse, js, passes); ended && kind !in s.active
    ensures NothingMissed(sys, DispatchTo(sys, names, kind, mouse, js, passes).0, names, kind)
    decreases |names|
  {
    if names != [] {
      var (s, left, ended) := DispatchIn(sys, names[0], kind, mouse, js, passes);
      InBits(sys, names[0], kind, mouse, js, passes);
      ToBits(s, names[1..], kind, mouse, js, left);
      assert s.active <= DispatchTo(s, names[1..], kind, mouse, js, left).0.active;
      DispatchInQuiet(sys, names[0], kind, mouse, js, passes);
      DispatchToQuiet(s, names[1..], kind, mouse, js, left);
      NothingMissedOn(sys, s, DispatchTo(s, names[1..], kind, mouse, js, left).0, names, kind);
    }
  }

  lemma DispatchInQuiet(sys: System, n: string, kind: CallbackType, mouse: set<MouseEvent>, js: Scripts, passes: nat)
    requires Inv(sys) && AllSettled(sys) && IsDispatched(kind)
    requires var (s, left, ended) := DispatchIn(sys, n, kind, mouse, js, passes); ended && kind !in s.active
    ensures var s := DispatchIn(sys, n, kind, mouse, js, passes).0;
            && s.cons.Keys == sys.cons.Keys && (forall m :: m in sys.cons ==> s.cons[m].callbacks == sys.cons[m].callbacks)
            && (n in sys.cons ==> NoListener(sys.cons[n].callbacks, 0, kind))
  {
    if n in sys.cons {
      AskedInv(sys, n);
      if IsWaiting(sys.cons[n]).1 {
        DispatchFromQuiet(Asked(sys, n), n, 0, kind, mouse, js, passes);
      }
    }
  }

  ghost predicate OrderCovers(sys: System) {
    forall n :: n in sys.cons ==> n in sys.order
  }

  lemma DispatchBits(sys: System, kind: CallbackType, mouse: set<MouseEvent>, js: Scripts, passes: nat)
    requires Inv(sys) && AllSettled(sys) && AllBits(sys) && OrderCovers(sys)
    ensures Dispatch(sys, kind, mouse, js, passes).1 ==> AllBits(Dispatch(sys, kind, mouse, js, passes).0)
  {
    if IsDispatched(kind) && kind in sys.active {
      var s0 := sys.(active := sys.active - {kind});
      Fields(sys, s0.active, s0.clock);
      assert Live(s0) == Live(sys);
      SameSignatures(sys, s0);
      assert BitsBut(s0, kind);
      DispatchedBits(s0, kind, mouse, js, passes);
    }
  }

  lemma DispatchedBits(sys: System, kind: CallbackType, mouse: set<MouseEvent>, js: Scripts, passes: nat)
    requires Inv(sys) && AllSettled(sys) && BitsBut(sys, kind) && OrderCovers(sys) && IsDispatched(kind)
    ensures var (s, left, ended) := DispatchTo(sys, sys.order, kind, mouse, js, passes); ended ==> AllBits(s)
  {
    ToBits(sys, sys.order, kind, mouse, js, passes);
    var (s, left, ended) := DispatchTo(sys, sys.order, kind, mouse, js, passes);
    if ended && kind !in s.active {
      DispatchToQuiet(sys, sys.order, kind, mouse, js, passes);
      forall x | x in AllSignatures(s) && SetsActive(x.kind, x.ident) ensures x.kind != kind {
        NobodyListens(sys, s, kind, x);
      }
    }
  }

  lemma NobodyListens(sys: System, s: System, kind: CallbackType, x: Signature)
    requires NothingMissed(sys, s, sys.order, kind) && OrderCovers(sys) && x in AllSignatures(s)
    requires SetsActive(x.kind, x.ident) && IsDispatched(kind)
    ensures x.kind != kind
  {
    var m :| m in s.cons && x in Signatures(s.cons[m].callbacks);
    var reg := sys.cons[m].callbacks;
    var e :| e in reg && x == SignatureOf(e);
    var k :| 0 <= k < |reg| && reg[k] == e;
    assert NoListener(reg, 0, kind);
    assert !Listens(reg[k], kind);
  }

  lemma KeepsAllBits(sys: System, sys': System)
    requires KeepsBits(sys, sys') && AllBits(sys)
    ensures AllBits(sys')
  {
    assert BitsBut(sys, AIS) && BitsBut(sys, N0183);
    assert BitsBut(sys', AIS) && BitsBut(sys', N0183);
  }

  lemma StepBits(sys: System, e: Event, js: Scripts)
    requires Inv(sys) && AllSettled(sys) && AllBits(sys) && OrderCovers(sys)
    ensures var r := Step(sys, e, js); r.Some? ==> AllBits(r.value)
  {
    if Addressed(sys, e) {
      if e.Arrival? {
        DispatchBits(sys, e.kind, e.mouse, js, e.passes);
      } else {
        StepKeepsBits(sys, e, js);
        KeepsAllBits(sys, Step(sys, e, js).value);
      }
    }
  }

  lemma StepKeepsBits(sys: System, e: Event, js: Scripts)
    requires Inv(sys) && AllSettled(sys) && Addressed(sys, e) && !e.Arrival?
    ensures Step(sys, e, js).Some? && KeepsBits(sys, Step(sys, e, js).value)
  {
    BitsSteps(sys, js);
    if e.PendingRun? {
      RunPendingWalk(Always(BitsKept(sys)), sys, js);
    } else {
      QuietStepWalk(Always(BitsKept(sys)), sys, e, js);
    }
  }

  lemma {:induction false} RunBits(sys: System, events: seq<Event>, js: Scripts)
    requires Inv(sys) && AllSettled(sys) && AllBits(sys) && OrderCovers(sys)
    ensures var r := RunEvents(sys, events, js); r.Some? ==> AllBits(r.value)
    decreases |events|
  {
    if events != [] {
      StepBits(sys, events[0], js);
      StepInv(sys, events[0], js);
      var s := Step(sys, events[0], js);
      if s.Some? {
        RunBits(s.value, events[1..], js);
      }
    }
  }

  /** Over any run, with scripts that do whatever they like: whenever an entry that has an
      activity bit is registered anywhere, its bit is on; an arrival is never ignored while
      somebody listens. */
  lemma NoArrivalIgnored(names: seq<string>, events: seq<Event>, js: Scripts)
    ensures var r := RunEvents(Start(names), events, js);
            r.Some? ==> forall n, e :: n in r.value.cons && e in r.value.cons[n].callbacks && SetsActive(e.kind, e.ident) ==>
              e.kind in r.value.active
  {
    StartInv(names);
    assert AllSignatures(Start(names)) == {};
    RunBits(Start(names), events, js);
    var r := RunEvents(Start(names), events, js);
    if r.Some? {
      forall n, e | n in r.value.cons && e in r.value.cons[n].callbacks && SetsActive(e.kind, e.ident) ensures e.kind in r.value.active {
        assert SignatureOf(e) in Signatures(r.value.cons[n].callbacks);
        assert SignatureOf(e) in AllSignatures(r.value);
      }
    }
  }
}
