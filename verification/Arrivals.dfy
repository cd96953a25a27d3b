/** What an arrival leads to in all consoles together, with handlers that edit no registries. */
module Arrivals {
  import opened Wrappers
  import opened Sequences
  import opened Callbacks
  import opened Lifecycle
  import opened Protocol
  import opened Events
  import opened Walks
  import opened Uniform
  import opened Registrations
  import opened OneShot
  import opened Runs
  import opened Quiescence
  import opened Dichotomy
  import opened Firings
  import opened Loops
  import opened Dispatching
  import opened ActivityBits

  // ----- what the calls in other consoles do to a console -----

  /** The ids of its registrations for the results of other consoles. */
  function ReplyIds(reg: seq<Entry>): set<int> {
    set e | e in reg && e.kind == ConsoleReply :: e.id
  }

  /** Since this log no handler of console n has been called but for replies. */
  ghost predicate OnlyAnswered(log: seq<Note>, log': seq<Note>, n: string, ids: set<int>) {
    log <= log' && forall k :: |log| <= k < |log'| && log'[k].Fired? && log'[k].console == n ==> log'[k].id in ids
  }

  /** A console that had these entries has been wrapped up, or has lost only registrations that
      have been answered. */
  ghost predicate Keeping(reg: seq<Entry>, c: ConsoleState) {
    Idle(c) || (c.ctx && exists gone :: gone <= ReplyIds(reg) && c.callbacks == Keep(reg, gone))
  }

  ghost predicate QuietBetween(js: Scripts, from: nat, to: nat) {
    forall k :: from <= k < to ==> QuietCall(js(k))
  }

  ghost predicate Aside(n: string, reg: seq<Entry>, log: seq<Note>, from: nat, s: System) {
    n in s.cons && Inv(s) && from <= s.clock && OnlyAnswered(log, s.log, n, ReplyIds(reg))
  }

  /** Console n, while things happen in others, up to this time; it may itself be in the middle
      of something. */
  ghost function AsideKept(n: string, reg: seq<Entry>, log: seq<Note>, from: nat, to: nat): Kept {
    Kept((s: System, m: string) => s.clock <= to ==> Aside(n, reg, log, from, s) && (m != n ==> Keeping(reg, s.cons[n])),
         (s: System, m: string) => s.clock <= to ==> Aside(n, reg, log, from, s) && Keeping(reg, s.cons[n]),
         (s: System) => s.clock <= to ==> Aside(n, reg, log, from, s) && Keeping(reg, s.cons[n]))
  }

  lemma TouchedKeeping(reg: seq<Entry>, c: ConsoleState, c': ConsoleState)
    requires Touched(c, c') && Keeping(reg, c)
    ensures Keeping(reg, c')
  {
  }

  lemma MoreAnswered(log: seq<Note>, log': seq<Note>, notes: seq<Note>, n: string, ids: set<int>)
    requires OnlyAnswered(log, log', n, ids)
    requires forall k :: 0 <= k < |notes| && notes[k].Fired? && notes[k].console == n ==> notes[k].id in ids
    ensures OnlyAnswered(log, log' + notes, n, ids)
  {
  }

  /** JavaScript has run in another console. */
  lemma ElsewhereAside(n: string, reg: seq<Entry>, log: seq<Note>, from: nat, s: System, s': System, m: string)
    requires Aside(n, reg, log, from, s) && Carries(s, s', m) && Inv(s')
    ensures Aside(n, reg, log, from, s') && (m != n && Keeping(reg, s.cons[n]) ==> Keeping(reg, s'.cons[n]))
  {
    if m != n && Keeping(reg, s.cons[n]) {
      TouchedKeeping(reg, s.cons[n], s'.cons[n]);
    }
  }

  lemma RunExitAside(n: string, reg: seq<Entry>, log: seq<Note>, from: nat, s: System, m: string, js: Scripts)
    requires Amid(s, m) && Aside(n, reg, log, from, s)
    ensures var t := RunExit(s, m, js).0; Aside(n, reg, log, from, t) && (m != n && Keeping(reg, s.cons[n]) ==> Keeping(reg, t.cons[n]))
  {
    InvCalls();
    RunExitKeeps(InvKept(), Any(), s, m, js);
    var s1 := EnterExit(s, m);
    Retells(s, m, s1.cons[m]);
    RetoldInv(s, s1);
    ExecuteInv(s1, m, s1.cons[m].exitHandler, js);
    ElsewhereAside(n, reg, log, from, s1, Execute(s1, m, s1.cons[m].exitHandler, js).0, m);
  }

  // ----- a reply to console n itself -----

  /** A registration of console n that is answered was one for a reply. */
  lemma AnsweredIsReply(s: System, m: string, reg: seq<Entry>, n: string)
    requires Inv(s) && Due(s, m) && Collect(s, m).1.Some? && s.cons[m].brief.caller == n && n in s.cons && Keeping(reg, s.cons[n])
    ensures Collect(s, m).1.value.id == s.cons[m].brief.callbackId && Collect(s, m).1.value.id in ReplyIds(reg)
  {
    var e := Collect(s, m).1.value;
    assert e in s.cons[n].callbacks;
    assert SignatureOf(e) in Signatures(s.cons[n].callbacks);
    assert SignatureOf(e) in AllSignatures(s);
    assert s.cons[m].brief.callbackId in BriefIds(s);
    assert BriefIdOk(s, e.id);
    var gone :| gone <= ReplyIds(reg) && s.cons[n].callbacks == Keep(reg, gone);
    assert e in reg;
  }

  lemma DeliveredFrom(s: System, m: string, reason: Completion, n: string)
    requires Due(s, m) && Collect(s, m).1.Some? && s.cons[m].brief.caller == n && n in s.cons
    ensures var here := s.cons[n].callbacks;
            var i := IndexOf(here, s.cons[m].brief.callbackId);
            var c := Delivered(s, m, reason).cons[n];
            i < |here| && c.ctx && c.callbacks == RemoveAt(here, i)
  {
  }

  lemma OneLess(reg: seq<Entry>, here: seq<Entry>, gone: set<int>, i: nat)
    requires UniqueIds(here) && here == Keep(reg, gone) && i < |here| && here[i].id in ReplyIds(reg) && gone <= ReplyIds(reg)
    ensures RemoveAt(here, i) == Keep(reg, gone + {here[i].id}) && gone + {here[i].id} <= ReplyIds(reg)
  {
    RemoveAtKeeps(here, i);
    KeepTwice(reg, gone, {here[i].id});
  }

  lemma DeliveredKeeping(s: System, m: string, reason: Completion, reg: seq<Entry>, n: string)
    requires Inv(s) && Due(s, m) && Collect(s, m).1.Some? && s.cons[m].brief.caller == n && n in s.cons && Keeping(reg, s.cons[n])
    ensures var c := Delivered(s, m, reason).cons[n]; c.ctx && Keeping(reg, c)
  {
    AnsweredIsReply(s, m, reg, n);
    DeliveredFrom(s, m, reason, n);
    var here := s.cons[n].callbacks;
    var gone :| gone <= ReplyIds(reg) && here == Keep(reg, gone);
    assert RegistryOk(here, s.nextId);
    OneLess(reg, here, gone, IndexOf(here, s.cons[m].brief.callbackId));
  }

  /** The handler of a reply to console n is quiet like all others. */
  lemma AnswerKeeping(s: System, m: string, e: Entry, js: Scripts, reg: seq<Entry>, n: string)
    requires Downed(s, m) && s.cons[m].brief.caller == n && n in s.cons && s.cons[n].ctx && Keeping(reg, s.cons[n])
    requires s.clock < Answer(s, m, e, js).0.clock ==> QuietCall(js(s.clock))
    ensures var r := Answer(s, m, e, js); r.1 ==> Keeping(reg, r.0.cons[n])
  {
    var (s1, outcome) := Execute(s, n, e.handler, js);
    ExecuteClock(s, n, e.handler, js);
    if HadError !in s.cons[n].status && e.handler == Callable {
      ExecuteQuiet(s, n, js);
      HandlerBusy(s, n, js);
    }
    assert IsBusy(s1.cons[n]).0.callbacks == s1.cons[n].callbacks;
  }

  lemma DeliveredElsewhere(s: System, m: string, reason: Completion, reg: seq<Entry>, n: string)
    requires Due(s, m) && Collect(s, m).1.Some? && s.cons[m].brief.caller != n && n in s.cons && Keeping(reg, s.cons[n])
    ensures n in Delivered(s, m, reason).cons && Keeping(reg, Delivered(s, m, reason).cons[n])
  {
  }

  /** A reply has been handed over, to console n or to another. */
  lemma DeliveredKeepsInv(s: System, m: string, reason: Completion)
    requires Due(s, m) && Collect(s, m).1.Some? && Inv(s)
    ensures Inv(Delivered(s, m, reason))
  {
    InvCalls();
    InvReplies();
    DeliveredKeeps(InvKept(), Any(), s, m, reason);
  }

  lemma DeliveredLog(n: string, reg: seq<Entry>, log: seq<Note>, s: System, m: string, reason: Completion)
    requires Due(s, m) && Collect(s, m).1.Some? && Inv(s) && n in s.cons && Keeping(reg, s.cons[n]) && OnlyAnswered(log, s.log, n, ReplyIds(reg))
    ensures var t := Delivered(s, m, reason); OnlyAnswered(log, t.log, n, ReplyIds(reg)) && t.clock == s.clock && n in t.cons
  {
    var brief, e := s.cons[m].brief, Collect(s, m).1.value;
    if brief.caller == n {
      AnsweredIsReply(s, m, reg, n);
    }
    MoreAnswered(log, s.log, ReplyNotes(m, brief, reason, e), n, ReplyIds(reg));
  }

  lemma DeliveredAside(n: string, reg: seq<Entry>, log: seq<Note>, from: nat, s: System, m: string, reason: Completion)
    requires Due(s, m) && Collect(s, m).1.Some? && Aside(n, reg, log, from, s) && Keeping(reg, s.cons[n])
    ensures var t := Delivered(s, m, reason); Aside(n, reg, log, from, t) && Keeping(reg, t.cons[n]) && t.clock == s.clock
  {
    DeliveredKeepsInv(s, m, reason);
    DeliveredLog(n, reg, log, s, m, reason);
    if s.cons[m].brief.caller == n {
      DeliveredKeeping(s, m, reason, reg, n);
    } else {
      DeliveredElsewhere(s, m, reason, reg, n);
    }
  }

  lemma AnsweredAside(n: string, reg: seq<Entry>, log: seq<Note>, from: nat, s: System, m: string, reason: Completion, js: Scripts)
    requires Due(s, m) && Collect(s, m).1.Some? && Aside(n, reg, log, from, s) && Keeping(reg, s.cons[n])
    requires QuietBetween(js, from, Answered(s, m, reason, js).0.clock)
    ensures var r := Answered(s, m, reason, js);
            Aside(n, reg, log, from, r.0) && (r.1 || s.cons[m].brief.caller != n ==> Keeping(reg, r.0.cons[n]))
  {
    DeliveredAside(n, reg, log, from, s, m, reason);
    var t, caller := Delivered(s, m, reason), s.cons[m].brief.caller;
    InvCalls();
    InvReplies();
    AnsweredKeeps(InvKept(), Any(), s, m, reason, js);
    if caller == n {
      AnswerKeeping(t, m, Collect(s, m).1.value, js, reg, n);
    } else {
      AnswerElsewhere(t, m, Collect(s, m).1.value, js, reg, n);
    }
    AnswerLog(t, m, Collect(s, m).1.value, js);
  }

  lemma AnswerElsewhere(s: System, m: string, e: Entry, js: Scripts, reg: seq<Entry>, n: string)
    requires Downed(s, m) && s.cons[m].brief.caller != n && n in s.cons && Keeping(reg, s.cons[n])
    requires s.cons[m].brief.caller in s.cons && s.cons[s.cons[m].brief.caller].ctx
    ensures Keeping(reg, Answer(s, m, e, js).0.cons[n])
  {
    var s1 := Execute(s, s.cons[m].brief.caller, e.handler, js).0;
    TouchedKeeping(reg, s.cons[n], s1.cons[n]);
    assert ReplyDone(s1, m).cons[n].callbacks == s1.cons[n].callbacks;
  }

  lemma AnswerLog(s: System, m: string, e: Entry, js: Scripts)
    requires Downed(s, m) && s.cons[m].brief.caller in s.cons && s.cons[s.cons[m].brief.caller].ctx
    ensures var t := Answer(s, m, e, js).0; t.log == s.log && s.clock <= t.clock && t.cons.Keys == s.cons.Keys
  {
  }

  // ----- the single steps -----

  /** Console m changes, but not in what it has registered or owes. */
  lemma ChangedAside(n: string, reg: seq<Entry>, log: seq<Note>, from: nat, s: System, m: string, c: ConsoleState)
    requires Aside(n, reg, log, from, s) && m in s.cons && SameStake(s.cons[m], c)
    ensures Aside(n, reg, log, from, With(s, m, c))
    ensures Keeping(reg, s.cons[n]) && (m == n ==> c.ctx == s.cons[n].ctx && (Idle(s.cons[n]) ==> Idle(c))) ==> Keeping(reg, With(s, m, c).cons[n])
  {
    RetoldInv(s, With(s, m, c));
  }

  lemma WrapsAside(n: string, reg: seq<Entry>, log: seq<Note>, from: nat, to: nat, js: Scripts)
    requires QuietBetween(js, from, to)
    ensures WrapSteps(AsideKept(n, reg, log, from, to), js)
  {
    var k := AsideKept(n, reg, log, from, to);
    forall s, m, reason {:trigger k.but(WithReason(s, m, reason), m)} | Amid(s, m) && k.but(s, m) ensures k.but(WithReason(s, m, reason), m) {
      if s.clock <= to {
        ChangedAside(n, reg, log, from, s, m, WithReason(s, m, reason).cons[m]);
      }
    }
    forall s, m {:trigger k.due(Down(s, m), m)} | Amid(s, m) && k.but(s, m) ensures k.due(Down(s, m), m) {
      if s.clock <= to {
        DownInv(s, m);
      }
    }
    forall s, m {:trigger k.but(RunExit(s, m, js).0, m)} | Amid(s, m) && k.but(s, m) ensures k.but(RunExit(s, m, js).0, m) {
      RunExitKept(n, reg, log, from, to, s, m, js, k);
    }
    forall s, m {:trigger k.due(AskBusy(s, m).0, m)} | Downed(s, m) && k.due(s, m) ensures k.due(AskBusy(s, m).0, m) {
      if s.clock <= to {
        ChangedAside(n, reg, log, from, s, m, AskBusy(s, m).0.cons[m]);
      }
    }
    forall s, m {:trigger k.all(Chained(s, m))} | Downed(s, m) && k.due(s, m) ensures k.all(Chained(s, m)) {
      if s.clock <= to {
        ChainInv(s, m);
      }
    }
    forall s, m, reason {:trigger k.all(Unanswered(s, m, reason))} |
        Downed(s, m) && k.due(s, m) && s.cons[m].brief.callbackId != 0 && Collect(s, m).1.None?
      ensures k.all(Unanswered(s, m, reason))
    {
      UnansweredKept(n, reg, log, from, to, s, m, reason, k);
    }
    forall s, m, reason {:trigger Answered(s, m, reason, js)} |
        Downed(s, m) && k.due(s, m) && s.cons[m].brief.callbackId != 0 && Collect(s, m).1.Some?
      ensures var r := Answered(s, m, reason, js); if r.1 then k.all(r.0) else k.but(r.0, s.cons[m].brief.caller)
    {
      AnsweredKept(n, reg, log, from, to, s, m, reason, js, k);
    }
  }

  lemma UnansweredKept(n: string, reg: seq<Entry>, log: seq<Note>, from: nat, to: nat, s: System, m: string, reason: Completion, k: Kept)
    requires k == AsideKept(n, reg, log, from, to) && k.due(s, m) && Due(s, m) && Collect(s, m).1.None?
    ensures k.all(Unanswered(s, m, reason))
  {
    if s.clock <= to {
      UnansweredAside(n, reg, log, from, s, m, reason);
    }
  }

  lemma AnsweredKept(n: string, reg: seq<Entry>, log: seq<Note>, from: nat, to: nat, s: System, m: string, reason: Completion, js: Scripts, k: Kept)
    requires k == AsideKept(n, reg, log, from, to) && QuietBetween(js, from, to)
    requires k.due(s, m) && Due(s, m) && Collect(s, m).1.Some?
    ensures var r := Answered(s, m, reason, js); if r.1 then k.all(r.0) else k.but(r.0, s.cons[m].brief.caller)
  {
    AnsweredLater(s, m, reason, js);
    if Answered(s, m, reason, js).0.clock <= to {
      AnsweredAside(n, reg, log, from, s, m, reason, js);
    }
  }

  lemma RunExitKept(n: string, reg: seq<Entry>, log: seq<Note>, from: nat, to: nat, s: System, m: string, js: Scripts, k: Kept)
    requires k == AsideKept(n, reg, log, from, to) && Amid(s, m) && k.but(s, m)
    ensures k.but(RunExit(s, m, js).0, m)
  {
    RunExitLater(s, m, js);
    if RunExit(s, m, js).0.clock <= to {
      RunExitAside(n, reg, log, from, s, m, js);
    }
  }

  lemma RunExitLater(s: System, m: string, js: Scripts)
    requires Amid(s, m)
    ensures s.clock <= RunExit(s, m, js).0.clock
  {
    var s1 := EnterExit(s, m);
    ExecuteClock(s1, m, s1.cons[m].exitHandler, js);
  }

  lemma AnsweredLater(s: System, m: string, reason: Completion, js: Scripts)
    requires Due(s, m) && Collect(s, m).1.Some?
    ensures s.clock <= Answered(s, m, reason, js).0.clock
  {
    AnswerLog(Delivered(s, m, reason), m, Collect(s, m).1.value, js);
  }

  lemma UnansweredAside(n: string, reg: seq<Entry>, log: seq<Note>, from: nat, s: System, m: string, reason: Completion)
    requires Due(s, m) && Collect(s, m).1.None? && Aside(n, reg, log, from, s) && Keeping(reg, s.cons[n])
    ensures var t := Unanswered(s, m, reason); Aside(n, reg, log, from, t) && Keeping(reg, t.cons[n])
  {
    InvCalls();
    InvReplies();
    UnansweredKeeps(InvKept(), Any(), s, m, reason);
    MoreAnswered(log, s.log, [Replied(m, s.cons[m].brief.callbackId, reason, false)], n, ReplyIds(reg));
  }

  /** Calling a handler in another console. */
  lemma FiresAside(n: string, reg: seq<Entry>, log: seq<Note>, from: nat, to: nat, js: Scripts, m: string)
    requires m != n
    ensures FireStepsIn(AsideKept(n, reg, log, from, to), js, m)
  {
    var k := AsideKept(n, reg, log, from, to);
    forall s, e, rest {:trigger Execute(FiredOff(s, m, e, rest), m, e.handler, js)} |
        k.all(s) && AllSettled(s) && m in s.cons && TakenFrom(s.cons[m].callbacks, e, rest)
      ensures var r := Execute(FiredOff(s, m, e, rest), m, e.handler, js); Lands(k, r.0, m, r.1)
    {
      var t := FiredOff(s, m, e, rest);
      var r := Execute(FiredOff(s, m, e, rest), m, e.handler, js);
      if s.clock <= to {
        FiredAside(n, reg, log, from, s, m, e, rest);
        ExecuteInv(t, m, e.handler, js);
        ElsewhereAside(n, reg, log, from, t, r.0, m);
      }
      LandsAside(n, reg, log, from, to, r.0, m, r.1);
    }
  }

  lemma FiredAside(n: string, reg: seq<Entry>, log: seq<Note>, from: nat, s: System, m: string, e: Entry, rest: seq<Entry>)
    requires m != n && AllSettled(s) && m in s.cons && TakenFrom(s.cons[m].callbacks, e, rest)
    requires Aside(n, reg, log, from, s) && Keeping(reg, s.cons[n])
    ensures Aside(n, reg, log, from, FiredOff(s, m, e, rest)) && Keeping(reg, FiredOff(s, m, e, rest).cons[n])
  {
    FiredOffInv(s, m, e, rest);
    MoreAnswered(log, s.log, [Fired(m, e.id, e.persistent)], n, ReplyIds(reg));
  }

  lemma LandsAside(n: string, reg: seq<Entry>, log: seq<Note>, from: nat, to: nat, s: System, m: string, outcome: Completion)
    requires m != n && m in s.cons && (s.clock <= to ==> Aside(n, reg, log, from, s) && Keeping(reg, s.cons[n]))
    ensures Lands(AsideKept(n, reg, log, from, to), s, m, outcome)
  {
    if s.clock <= to {
      ChangedAside(n, reg, log, from, s, m, AskBusy(s, m).0.cons[m]);
      ChangedAside(n, reg, log, from, s, m, WithReason(s, m, MoreToDo).cons[m]);
    }
  }

  lemma AsksAside(n: string, reg: seq<Entry>, log: seq<Note>, from: nat, to: nat)
    ensures AskSteps(AsideKept(n, reg, log, from, to)) && MarkSteps(AsideKept(n, reg, log, from, to))
  {
    var k := AsideKept(n, reg, log, from, to);
    forall s, m {:trigger k.all(Asked(s, m))} | k.all(s) && m in s.cons ensures k.all(Asked(s, m)) {
      if s.clock <= to {
        RetoldInv(s, Asked(s, m));
      }
    }
    forall s, kind {:trigger k.all(Mark(s, kind))} | k.all(s) ensures k.all(Mark(s, kind)) {
      if s.clock <= to {
        RetoldInv(s, Mark(s, kind));
      }
    }
  }

  /** The loops over other consoles. */
  lemma OthersAside(n: string, sys: System, names: seq<string>, kind: CallbackType, mouse: set<MouseEvent>, js: Scripts, passes: nat, to: nat, reg: seq<Entry>)
    requires Inv(sys) && AllSettled(sys) && IsDispatched(kind) && QuietBetween(js, sys.clock, to) && n !in names && n in sys.cons
    requires Keeping(reg, sys.cons[n]) && DispatchTo(sys, names, kind, mouse, js, passes).0.clock <= to
    ensures var s := DispatchTo(sys, names, kind, mouse, js, passes).0;
            Aside(n, reg, sys.log, sys.clock, s) && Keeping(reg, s.cons[n])
  {
    var k := AsideKept(n, reg, sys.log, sys.clock, to);
    WrapsAside(n, reg, sys.log, sys.clock, to, js);
    forall m | m in names ensures FireStepsIn(k, js, m) {
      FiresAside(n, reg, sys.log, sys.clock, to, js, m);
    }
    AsksAside(n, reg, sys.log, sys.clock, to);
    DispatchToWalk(k, sys, names, kind, mouse, js, passes);
  }

  lemma OneAside(n: string, sys: System, m: string, kind: CallbackType, mouse: set<MouseEvent>, js: Scripts, passes: nat, to: nat, reg: seq<Entry>)
    requires Inv(sys) && AllSettled(sys) && IsDispatched(kind) && QuietBetween(js, sys.clock, to) && n != m && n in sys.cons
    requires Keeping(reg, sys.cons[n]) && DispatchIn(sys, m, kind, mouse, js, passes).0.clock <= to
    ensures var s := DispatchIn(sys, m, kind, mouse, js, passes).0; n in s.cons && Keeping(reg, s.cons[n])
  {
    WrapsAside(n, reg, sys.log, sys.clock, to, js);
    FiresAside(n, reg, sys.log, sys.clock, to, js, m);
    AsksAside(n, reg, sys.log, sys.clock, to);
    DispatchInWalk(AsideKept(n, reg, sys.log, sys.clock, to), sys, m, kind, mouse, js, passes);
  }

  // ----- what is as it should be -----

  lemma LaterAndCalm(sys: System, names: seq<string>, kind: CallbackType, mouse: set<MouseEvent>, js: Scripts, passes: nat, m: Manners)
    requires Calm(sys, m) && AllSettled(sys) && Makes(js, WithManners(m)) && IsDispatched(kind)
    ensures var s := DispatchTo(sys, names, kind, mouse, js, passes).0; Calm(s, m) && sys.clock <= s.clock
  {
    var k := Always(LaterThan(sys.clock));
    LaterSteps(sys.clock, js);
    WrapsUniformly(LaterThan(sys.clock), Any(), js);
    FiresUniformly(LaterThan(sys.clock), Any(), js);
    HandledUniformly(LaterThan(sys.clock), Any(), js);
    assert forall n :: n in names ==> FireStepsIn(k, js, n);
    DispatchToWalk(k, sys, names, kind, mouse, js, passes);
    CalmSteps(m, js);
    assert forall n :: n in names ==> FireStepsIn(Calmly(m), js, n);
    DispatchToWalk(Calmly(m), sys, names, kind, mouse, js, passes);
  }

  lemma InIsTo(sys: System, n: string, kind: CallbackType, mouse: set<MouseEvent>, js: Scripts, passes: nat)
    requires AllSettled(sys)
    ensures DispatchTo(sys, [n], kind, mouse, js, passes) == DispatchIn(sys, n, kind, mouse, js, passes)
  {
    assert [n][1..] == [];
    var (s, left, ended) := DispatchIn(sys, n, kind, mouse, js, passes);
    assert DispatchTo(s, [], kind, mouse, js, left) == (s, left, true);
  }

  // ----- the turn of one console -----

  ghost function Ids(entries: seq<Entry>): set<int> {
    set e | e in entries :: e.id
  }

  /** The calls of the handlers of console n for entries with these ids, in order. */
  ghost function CallsOf(log: seq<Note>, n: string, ids: set<int>): seq<Note> {
    if log == [] then []
    else (if log[0].Fired? && log[0].console == n && log[0].id in ids then [log[0]] else []) + CallsOf(log[1..], n, ids)
  }

  lemma {:induction false} CallsOfBoth(a: seq<Note>, b: seq<Note>, n: string, ids: set<int>)
    ensures CallsOf(a + b, n, ids) == CallsOf(a, n, ids) + CallsOf(b, n, ids)
  {
    if a == [] {
      assert a + b == b;
    } else {
      assert (a + b)[0] == a[0] && (a + b)[1..] == a[1..] + b;
      CallsOfBoth(a[1..], b, n, ids);
    }
  }

  lemma {:induction false} NoCallsOf(log: seq<Note>, n: string, ids: set<int>)
    requires forall k :: 0 <= k < |log| && log[k].Fired? && log[k].console == n ==> log[k].id !in ids
    ensures CallsOf(log, n, ids) == []
  {
    if log != [] {
      NoCallsOf(log[1..], n, ids);
    }
  }

  lemma {:induction false} AllCallsOf(n: string, entries: seq<Entry>, ids: set<int>)
    requires Ids(entries) <= ids
    ensures CallsOf(FiredNotes(n, entries), n, ids) == FiredNotes(n, entries)
  {
    if entries != [] {
      AllCallsOf(n, entries[1..], ids);
      assert entries[0].id in Ids(entries);
      assert FiredNotes(n, entries)[1..] == FiredNotes(n, entries[1..]);
    }
  }

  // ----- registries with answered registrations gone -----

  lemma {:induction false} WantedKept(reg: seq<Entry>, gone: set<int>, kind: CallbackType, mouse: set<MouseEvent>)
    requires gone !! Ids(Wanted(reg, kind, mouse))
    ensures Wanted(Keep(reg, gone), kind, mouse) == Wanted(reg, kind, mouse)
  {
    if reg != [] {
      var rest := Wanted(reg[1..], kind, mouse);
      assert forall e :: e in rest ==> e in Wanted(reg, kind, mouse);
      WantedKept(reg[1..], gone, kind, mouse);
      if Wants(reg[0], kind, mouse) {
        assert reg[0] in Wanted(reg, kind, mouse);
        assert reg[0].id in Ids(Wanted(reg, kind, mouse));
      }
    }
  }

  lemma {:induction false} SurvivorsKept(reg: seq<Entry>, gone: set<int>, kind: CallbackType, mouse: set<MouseEvent>)
    ensures Survivors(Keep(reg, gone), kind, mouse) == Keep(Survivors(reg, kind, mouse), gone)
  {
    if reg != [] {
      SurvivorsKept(reg[1..], gone, kind, mouse);
    }
  }

  lemma {:induction false} WantedFrom(reg: seq<Entry>, kind: CallbackType, mouse: set<MouseEvent>)
    ensures forall e :: e in Wanted(reg, kind, mouse) ==> e in reg && Wants(e, kind, mouse)
    ensures forall e :: e in Survivors(reg, kind, mouse) ==> e in reg
  {
    if reg != [] {
      WantedFrom(reg[1..], kind, mouse);
    }
  }

  /** No entry that wants the arrival is a registration for a reply. */
  lemma WantedNotReplies(reg: seq<Entry>, kind: CallbackType, mouse: set<MouseEvent>)
    requires UniqueIds(reg) && IsDispatched(kind)
    ensures ReplyIds(reg) !! Ids(Wanted(reg, kind, mouse))
  {
    WantedFrom(reg, kind, mouse);
    forall e, f | e in reg && f in Wanted(reg, kind, mouse) && e.kind == ConsoleReply ensures e.id != f.id {
      if e.id == f.id {
        SameId(reg, e, f);
      }
    }
  }

  lemma KeepingWanted(reg: seq<Entry>, c: ConsoleState, kind: CallbackType, mouse: set<MouseEvent>)
    requires UniqueIds(reg) && IsDispatched(kind) && Keeping(reg, c)
    ensures Wanted(c.callbacks, kind, mouse) == if Idle(c) then [] else Wanted(reg, kind, mouse)
  {
    if !Idle(c) {
      var gone :| gone <= ReplyIds(reg) && c.callbacks == Keep(reg, gone);
      WantedNotReplies(reg, kind, mouse);
      WantedKept(reg, gone, kind, mouse);
    }
  }

  // ----- its turn, and the turns of the others -----

  /** What the loop over the entries of console n has come to. */
  ghost predicate Turn(t: System, s: System, n: string, kind: CallbackType, mouse: set<MouseEvent>, k: nat)
    requires n in t.cons && n in s.cons
  {
    var reg := t.cons[n].callbacks;
    var wanted := Wanted(reg, kind, mouse);
    && k <= |wanted| && FiredElsewhere(t.log + FiredNotes(n, wanted[..k]), s.log, n)
    && if s.cons[n].ctx then k == |wanted| && s.cons[n].callbacks == Survivors(reg, kind, mouse) else Idle(s.cons[n])
  }

  lemma OwnTurn(t: System, n: string, kind: CallbackType, mouse: set<MouseEvent>, js: Scripts, passes: nat, m: Manners, r: (System, nat, bool))
    returns (k: nat)
    requires Calm(t, m) && AllSettled(t) && Makes(js, WithManners(m)) && IsDispatched(kind) && n in t.cons
    requires passes >= |Wanted(t.cons[n].callbacks, kind, mouse)|
    requires r == DispatchIn(t, n, kind, mouse, js, passes) && QuietBetween(js, t.clock, r.0.clock)
    ensures r.2 && r.1 == passes - k && n in r.0.cons && Turn(t, r.0, n, kind, mouse, k)
  {
    var a := Asked(t, n);
    if IsWaiting(t.cons[n]).1 {
      ChangedCalm(t, n, a.cons[n], m);
      TurnIs(t, a, n, kind, mouse, js, passes);
      k := LoopTurn(t, a, n, kind, mouse, js, passes, m, r);
    } else {
      k := 0;
      NoTurn(t, a, n, kind, mouse);
    }
  }

  lemma TurnIs(t: System, a: System, n: string, kind: CallbackType, mouse: set<MouseEvent>, js: Scripts, passes: nat)
    requires AllSettled(t) && n in t.cons && IsWaiting(t.cons[n]).1 && a == Asked(t, n)
    ensures a.cons[n].ctx && a.cons[n].callbacks == t.cons[n].callbacks && a.log == t.log && a.clock == t.clock
    ensures DispatchIn(t, n, kind, mouse, js, passes) == DispatchFrom(a, n, 0, kind, mouse, js, passes)
  {
  }

  lemma LoopTurn(t: System, a: System, n: string, kind: CallbackType, mouse: set<MouseEvent>, js: Scripts, passes: nat, m: Manners,
                 r: (System, nat, bool)) returns (k: nat)
    requires Calm(a, m) && AllSettled(a) && Makes(js, WithManners(m)) && IsDispatched(kind) && n in t.cons && n in a.cons && a.cons[n].ctx
    requires a.cons[n].callbacks == t.cons[n].callbacks && a.log == t.log && passes >= |Wanted(t.cons[n].callbacks, kind, mouse)|
    requires r == DispatchFrom(a, n, 0, kind, mouse, js, passes) && QuietBetween(js, a.clock, r.0.clock)
    ensures r.2 && r.1 == passes - k && n in r.0.cons && Turn(t, r.0, n, kind, mouse, k)
  {
    assert a.cons[n].callbacks[0..] == t.cons[n].callbacks;
    DispatchTicks(a, n, 0, kind, mouse, js, passes, m);
    k := DispatchExact(a, n, 0, kind, mouse, js, passes, m);
    WholeTurn(t, a, r.0, n, kind, mouse, k);
  }

  lemma WholeTurn(t: System, a: System, s: System, n: string, kind: CallbackType, mouse: set<MouseEvent>, k: nat)
    requires n in t.cons && n in a.cons && n in s.cons && a.cons[n].callbacks == t.cons[n].callbacks && a.log == t.log
    requires Dispatched(a, s, n, 0, kind, mouse, k)
    ensures Turn(t, s, n, kind, mouse, k)
  {
    assert a.cons[n].callbacks[0..] == t.cons[n].callbacks && a.cons[n].callbacks[..0] == [];
  }

  lemma NoTurn(t: System, a: System, n: string, kind: CallbackType, mouse: set<MouseEvent>)
    requires n in t.cons && n in a.cons && Idle(a.cons[n]) && t.cons[n].callbacks == [] && a.log == t.log
    ensures Turn(t, a, n, kind, mouse, 0)
  {
    assert FiredNotes(n, []) == [] && t.log + [] == t.log;
  }

  /** How many handlers want the arrival in these consoles. */
  function Total(sys: System, names: seq<string>, kind: CallbackType, mouse: set<MouseEvent>): nat {
    if names == [] then 0
    else (if names[0] in sys.cons then |Wanted(sys.cons[names[0]].callbacks, kind, mouse)| else 0) + Total(sys, names[1..], kind, mouse)
  }

  lemma {:induction false} TotalShrinks(sys: System, s: System, names: seq<string>, kind: CallbackType, mouse: set<MouseEvent>)
    requires Inv(sys) && IsDispatched(kind) && s.cons.Keys == sys.cons.Keys
    requires forall n :: n in names && n in sys.cons ==> Keeping(sys.cons[n].callbacks, s.cons[n])
    ensures Total(s, names, kind, mouse) <= Total(sys, names, kind, mouse)
  {
    if names != [] {
      if names[0] in sys.cons {
        assert RegistryOk(sys.cons[names[0]].callbacks, sys.nextId);
        KeepingWanted(sys.cons[names[0]].callbacks, s.cons[names[0]], kind, mouse);
      }
      TotalShrinks(sys, s, names[1..], kind, mouse);
    }
  }

  lemma KeepingAll(c: ConsoleState)
    requires Settled(c)
    ensures Keeping(c.callbacks, c)
  {
    KeepAll(c.callbacks, {});
    if !Idle(c) {
      assert {} <= ReplyIds(c.callbacks) && c.callbacks == Keep(c.callbacks, {});
    }
  }

  /** After the turn of one console, the others want no more than before. */
  lemma OneTurn(sys: System, n: string, rest: seq<string>, kind: CallbackType, mouse: set<MouseEvent>, js: Scripts, passes: nat, to: nat, s: System)
    requires Inv(sys) && AllSettled(sys) && IsDispatched(kind) && QuietBetween(js, sys.clock, to) && n !in rest
    requires s == DispatchIn(sys, n, kind, mouse, js, passes).0 && s.clock <= to
    ensures Total(s, rest, kind, mouse) <= Total(sys, rest, kind, mouse)
  {
    forall m | m in rest && m in sys.cons ensures Keeping(sys.cons[m].callbacks, s.cons[m]) {
      KeepingAll(sys.cons[m]);
      OneAside(m, sys, n, kind, mouse, js, passes, to, sys.cons[m].callbacks);
    }
    TotalShrinks(sys, s, rest, kind, mouse);
  }

  /** The loop over these consoles ends, having called at most as many handlers as want the
      arrival at its beginning. */
  lemma {:induction false} DispatchToEnds(sys: System, names: seq<string>, kind: CallbackType, mouse: set<MouseEvent>, js: Scripts, passes: nat, to: nat, m: Manners)
    requires Calm(sys, m) && AllSettled(sys) && Makes(js, WithManners(m)) && IsDispatched(kind)
    requires QuietBetween(js, sys.clock, to) && DispatchTo(sys, names, kind, mouse, js, passes).0.clock <= to
    requires Distinct(names) && passes >= Total(sys, names, kind, mouse)
    ensures var r := DispatchTo(sys, names, kind, mouse, js, passes); r.2 && r.1 >= passes - Total(sys, names, kind, mouse)
    decreases |names|
  {
    if names != [] {
      var n, rest := names[0], names[1..];
      var (s, left, ended) := DispatchIn(sys, n, kind, mouse, js, passes);
      InIsTo(sys, n, kind, mouse, js, passes);
      LaterAndCalm(sys, [n], kind, mouse, js, passes, m);
      LaterAndCalm(s, rest, kind, mouse, js, left, m);
      if n in sys.cons {
        var k := OwnTurn(sys, n, kind, mouse, js, passes, m, (s, left, ended));
      }
      OneTurn(sys, n, rest, kind, mouse, js, passes, to, s);
      DispatchToEnds(s, rest, kind, mouse, js, left, to, m);
    }
  }

  lemma {:induction false} DispatchToSplits(sys: System, names: seq<string>, a: seq<string>, b: seq<string>, kind: CallbackType, mouse: set<MouseEvent>,
                                            js: Scripts, passes: nat)
    requires AllSettled(sys) && names == a + b && DispatchTo(sys, names, kind, mouse, js, passes).2
    ensures var r := DispatchTo(sys, a, kind, mouse, js, passes);
            r.2 && DispatchTo(sys, names, kind, mouse, js, passes) == DispatchTo(r.0, b, kind, mouse, js, r.1)
    decreases |a|
  {
    if a == [] {
      assert a + b == b;
    } else {
      assert (a + b)[0] == a[0] && (a + b)[1..] == a[1..] + b;
      var (s, left, ended) := DispatchIn(sys, a[0], kind, mouse, js, passes);
      DispatchToSplits(s, names[1..], a[1..], b, kind, mouse, js, left);
    }
  }

  // ----- all together -----

  /** Of the handlers that console n had registered for the arrival exactly the first k have
      been called, each once and in order, and no other but for replies.  If n is still alive
      these are all of them, and of its entries exactly the others and the persistent ones remain,
      in order, but for registrations that have been answered meanwhile; and otherwise n is idle. */
  ghost predicate Served(sys: System, s: System, n: string, kind: CallbackType, mouse: set<MouseEvent>, k: nat)
    requires n in sys.cons && n in s.cons
  {
    var reg := sys.cons[n].callbacks;
    var wanted := Wanted(reg, kind, mouse);
    && k <= |wanted| && sys.log <= s.log
    && CallsOf(s.log[|sys.log|..], n, Ids(wanted)) == FiredNotes(n, wanted[..k])
    && OnlyAnswered(sys.log, s.log, n, Ids(wanted) + ReplyIds(reg))
    && if s.cons[n].ctx then
         k == |wanted| && exists gone :: gone <= ReplyIds(reg) && s.cons[n].callbacks == Keep(Survivors(reg, kind, mouse), gone)
       else Idle(s.cons[n])
  }

  /** Apart from the notes that the turn of console n itself has left, none concerns it. */
  lemma CallsInOrder(log: seq<Note>, log1: seq<Note>, log2: seq<Note>, log3: seq<Note>, n: string, called: seq<Entry>, ids: set<int>, replies: set<int>)
    requires replies !! ids && Ids(called) <= ids
    requires OnlyAnswered(log, log1, n, replies) && FiredElsewhere(log1 + FiredNotes(n, called), log2, n) && OnlyAnswered(log2, log3, n, replies)
    ensures log <= log3 && CallsOf(log3[|log|..], n, ids) == FiredNotes(n, called)
  {
    var a, b, c := log1[|log|..], log2[|log1| + |called|..], log3[|log2|..];
    assert log3[|log|..] == a + (FiredNotes(n, called) + (b + c));
    NoCallsOf(a, n, ids);
    NoCallsOf(b, n, ids);
    NoCallsOf(c, n, ids);
    AllCallsOf(n, called, ids);
    CallsOfBoth(b, c, n, ids);
    CallsOfBoth(FiredNotes(n, called), b + c, n, ids);
    CallsOfBoth(a, FiredNotes(n, called) + (b + c), n, ids);
  }

  lemma NoOthersCalled(log: seq<Note>, log1: seq<Note>, log2: seq<Note>, log3: seq<Note>, n: string, called: seq<Entry>, ids: set<int>, replies: set<int>)
    requires Ids(called) <= ids
    requires OnlyAnswered(log, log1, n, replies) && FiredElsewhere(log1 + FiredNotes(n, called), log2, n) && OnlyAnswered(log2, log3, n, replies)
    ensures OnlyAnswered(log, log3, n, ids + replies)
  {
    forall k | |log| <= k < |log3| && log3[k].Fired? && log3[k].console == n ensures log3[k].id in ids + replies {
      if |log1| <= k < |log1| + |called| {
        assert log3[k] == FiredNotes(n, called)[k - |log1|];
        assert called[k - |log1|].id in Ids(called);
      }
    }
  }

  /** The turns of others before, its own turn, and the turns of others after that. */
  lemma ServedFrom(sys: System, s1: System, s2: System, s3: System, n: string, kind: CallbackType, mouse: set<MouseEvent>, k: nat)
    requires n in sys.cons && n in s1.cons && n in s2.cons && n in s3.cons && UniqueIds(sys.cons[n].callbacks) && IsDispatched(kind)
    requires OnlyAnswered(sys.log, s1.log, n, ReplyIds(sys.cons[n].callbacks)) && Keeping(sys.cons[n].callbacks, s1.cons[n])
    requires Turn(s1, s2, n, kind, mouse, k)
    requires OnlyAnswered(s2.log, s3.log, n, ReplyIds(s2.cons[n].callbacks)) && Keeping(s2.cons[n].callbacks, s3.cons[n])
    requires (s2.cons[n].ctx ==> s1.cons[n].ctx) && (s3.cons[n].ctx ==> s2.cons[n].ctx)
    ensures Served(sys, s3, n, kind, mouse, k)
  {
    var reg, reg1, reg2 := sys.cons[n].callbacks, s1.cons[n].callbacks, s2.cons[n].callbacks;
    var wanted := Wanted(reg, kind, mouse);
    KeepingWanted(reg, s1.cons[n], kind, mouse);
    WantedNotReplies(reg, kind, mouse);
    assert wanted[..k] == Wanted(reg1, kind, mouse)[..k];
    WantedFrom(reg1, kind, mouse);
    assert ReplyIds(reg2) <= ReplyIds(reg1) <= ReplyIds(reg);
    CallsInOrder(sys.log, s1.log, s2.log, s3.log, n, wanted[..k], Ids(wanted), ReplyIds(reg));
    NoOthersCalled(sys.log, s1.log, s2.log, s3.log, n, wanted[..k], Ids(wanted), ReplyIds(reg));
    if s3.cons[n].ctx {
      LeftOver(reg, s1.cons[n], s3.cons[n], kind, mouse);
    }
  }

  lemma LeftOver(reg: seq<Entry>, c1: ConsoleState, c3: ConsoleState, kind: CallbackType, mouse: set<MouseEvent>)
    requires Keeping(reg, c1) && c1.ctx && c3.ctx && Keeping(Survivors(c1.callbacks, kind, mouse), c3)
    ensures exists gone :: gone <= ReplyIds(reg) && c3.callbacks == Keep(Survivors(reg, kind, mouse), gone)
  {
    var g1 :| g1 <= ReplyIds(reg) && c1.callbacks == Keep(reg, g1);
    SurvivorsKept(reg, g1, kind, mouse);
    var left := Survivors(reg, kind, mouse);
    var g2 :| g2 <= ReplyIds(Keep(left, g1)) && c3.callbacks == Keep(Keep(left, g1), g2);
    KeepTwice(left, g1, g2);
    WantedFrom(reg, kind, mouse);
    assert g1 + g2 <= ReplyIds(reg);
  }

  lemma {:induction false} TotalSplits(sys: System, a: seq<string>, b: seq<string>, kind: CallbackType, mouse: set<MouseEvent>)
    ensures Total(sys, a + b, kind, mouse) == Total(sys, a, kind, mouse) + Total(sys, b, kind, mouse)
  {
    if a == [] {
      assert a + b == b;
    } else {
      assert (a + b)[0] == a[0] && (a + b)[1..] == a[1..] + b;
      TotalSplits(sys, a[1..], b, kind, mouse);
    }
  }

  /** The turns of the consoles before n. */
  lemma BeforeTurn(sys: System, a: seq<string>, n: string, kind: CallbackType, mouse: set<MouseEvent>, js: Scripts, passes: nat, to: nat, m: Manners,
                   r: (System, nat, bool))
    requires Calm(sys, m) && AllSettled(sys) && Makes(js, WithManners(m)) && IsDispatched(kind) && n in sys.cons && n !in a
    requires QuietBetween(js, sys.clock, to) && r.0.clock <= to && Distinct(a)
    requires passes >= Total(sys, a, kind, mouse) + |Wanted(sys.cons[n].callbacks, kind, mouse)|
    requires r == DispatchTo(sys, a, kind, mouse, js, passes)
    ensures n in r.0.cons && Calm(r.0, m) && AllSettled(r.0) && sys.clock <= r.0.clock
    ensures OnlyAnswered(sys.log, r.0.log, n, ReplyIds(sys.cons[n].callbacks)) && Keeping(sys.cons[n].callbacks, r.0.cons[n])
    ensures r.1 >= |Wanted(r.0.cons[n].callbacks, kind, mouse)|
  {
    DispatchToEnds(sys, a, kind, mouse, js, passes, to, m);
    LaterAndCalm(sys, a, kind, mouse, js, passes, m);
    KeepingAll(sys.cons[n]);
    OthersAside(n, sys, a, kind, mouse, js, passes, to, sys.cons[n].callbacks);
    assert RegistryOk(sys.cons[n].callbacks, sys.nextId);
    KeepingWanted(sys.cons[n].callbacks, r.0.cons[n], kind, mouse);
  }

  /** Its own turn, and those of the consoles after it. */
  lemma FromTurn(s: System, n: string, b: seq<string>, kind: CallbackType, mouse: set<MouseEvent>, js: Scripts, passes: nat, m: Manners,
                 r: (System, nat, bool), t: System) returns (k: nat)
    requires Calm(s, m) && AllSettled(s) && Makes(js, WithManners(m)) && IsDispatched(kind) && n in s.cons && n !in b
    requires QuietBetween(js, s.clock, t.clock) && passes >= |Wanted(s.cons[n].callbacks, kind, mouse)|
    requires r == DispatchIn(s, n, kind, mouse, js, passes) && t == DispatchTo(r.0, b, kind, mouse, js, r.1).0
    ensures r.2 && n in r.0.cons && Turn(s, r.0, n, kind, mouse, k) && n in t.cons
    ensures (r.0.cons[n].ctx ==> s.cons[n].ctx) && (t.cons[n].ctx ==> r.0.cons[n].ctx)
    ensures OnlyAnswered(r.0.log, t.log, n, ReplyIds(r.0.cons[n].callbacks)) && Keeping(r.0.cons[n].callbacks, t.cons[n])
  {
    InIsTo(s, n, kind, mouse, js, passes);
    LaterAndCalm(s, [n], kind, mouse, js, passes, m);
    LaterAndCalm(r.0, b, kind, mouse, js, r.1, m);
    k := OwnTurn(s, n, kind, mouse, js, passes, m, r);
    KeepingAll(r.0.cons[n]);
    OthersAside(n, r.0, b, kind, mouse, js, r.1, t.clock, r.0.cons[n].callbacks);
    NotRevived(s, r.0, n);
    NotRevived(r.0, t, n);
  }

  lemma NotRevived(s: System, t: System, n: string)
    requires Quietens(s, t) && n in t.cons
    ensures t.cons[n].ctx ==> s.cons[n].ctx
  {
    assert n in Live(t) ==> n in Live(s);
  }

  lemma DistinctParts(a: seq<string>, n: string, b: seq<string>)
    requires Distinct(a + ([n] + b))
    ensures Distinct(a) && n !in a && n !in b
  {
    var all := a + ([n] + b);
    assert all[|a|] == n && forall i :: 0 <= i < |a| ==> all[i] == a[i];
    assert forall i :: 0 <= i < |b| ==> all[|a| + 1 + i] == b[i];
  }

  /** With handlers that edit no registries, and as many passes as there are handlers that want
      the arrival, the loop over all consoles ends, and each console has been served. */
  lemma AllServed(sys: System, names: seq<string>, n: string, kind: CallbackType, mouse: set<MouseEvent>, js: Scripts, passes: nat, m: Manners,
                  r: (System, nat, bool)) returns (k: nat)
    requires Calm(sys, m) && AllSettled(sys) && Makes(js, WithManners(m)) && IsDispatched(kind) && n in sys.cons
    requires n in names && Distinct(names) && passes >= Total(sys, names, kind, mouse)
    requires r == DispatchTo(sys, names, kind, mouse, js, passes) && QuietBetween(js, sys.clock, r.0.clock)
    ensures r.2 && n in r.0.cons && Served(sys, r.0, n, kind, mouse, k)
  {
    var i := PlaceOf(names, n);
    k := ServedAmong(sys, names, names[..i], n, names[i + 1..], kind, mouse, js, passes, m, r);
  }

  lemma PlaceOf(names: seq<string>, n: string) returns (i: nat)
    requires n in names
    ensures i < |names| && names == names[..i] + ([n] + names[i + 1..])
  {
    i :| 0 <= i < |names| && names[i] == n;
  }

  lemma ServedAmong(sys: System, names: seq<string>, a: seq<string>, n: string, b: seq<string>, kind: CallbackType, mouse: set<MouseEvent>, js: Scripts,
                    passes: nat, m: Manners, r: (System, nat, bool)) returns (k: nat)
    requires Calm(sys, m) && AllSettled(sys) && Makes(js, WithManners(m)) && IsDispatched(kind) && n in sys.cons
    requires names == a + ([n] + b) && Distinct(names) && passes >= Total(sys, names, kind, mouse)
    requires r == DispatchTo(sys, names, kind, mouse, js, passes) && QuietBetween(js, sys.clock, r.0.clock)
    ensures r.2 && n in r.0.cons && Served(sys, r.0, n, kind, mouse, k)
  {
    DistinctParts(a, n, b);
    TotalSplits(sys, a, [n] + b, kind, mouse);
    assert ([n] + b)[1..] == b;
    DispatchToEnds(sys, names, kind, mouse, js, passes, r.0.clock, m);
    DispatchToSplits(sys, names, a, [n] + b, kind, mouse, js, passes);
    k := ServedThen(sys, a, n, b, kind, mouse, js, passes, m, DispatchTo(sys, a, kind, mouse, js, passes), r);
  }

  lemma ServedThen(sys: System, a: seq<string>, n: string, b: seq<string>, kind: CallbackType, mouse: set<MouseEvent>, js: Scripts, passes: nat,
                   m: Manners, r1: (System, nat, bool), r: (System, nat, bool)) returns (k: nat)
    requires Calm(sys, m) && AllSettled(sys) && Makes(js, WithManners(m)) && IsDispatched(kind) && n in sys.cons
    requires n !in a && n !in b && Distinct(a) && passes >= Total(sys, a, kind, mouse) + |Wanted(sys.cons[n].callbacks, kind, mouse)|
    requires r1 == DispatchTo(sys, a, kind, mouse, js, passes) && AllSettled(r1.0) && r == DispatchTo(r1.0, [n] + b, kind, mouse, js, r1.1)
    requires QuietBetween(js, sys.clock, r.0.clock)
    ensures n in r.0.cons && Served(sys, r.0, n, kind, mouse, k)
  {
    LaterAndCalm(sys, a, kind, mouse, js, passes, m);
    LaterAndCalm(r1.0, [n] + b, kind, mouse, js, r1.1, m);
    BeforeTurn(sys, a, n, kind, mouse, js, passes, r.0.clock, m, r1);
    k := ServedAfter(sys, r1.0, n, b, kind, mouse, js, r1.1, m, r);
  }

  lemma ServedAfter(sys: System, s: System, n: string, b: seq<string>, kind: CallbackType, mouse: set<MouseEvent>, js: Scripts, passes: nat, m: Manners,
                    r: (System, nat, bool)) returns (k: nat)
    requires Inv(sys) && n in sys.cons && IsDispatched(kind)
    requires OnlyAnswered(sys.log, s.log, n, ReplyIds(sys.cons[n].callbacks)) && n in s.cons && Keeping(sys.cons[n].callbacks, s.cons[n])
    requires Calm(s, m) && AllSettled(s) && Makes(js, WithManners(m)) && n !in b
    requires r == DispatchTo(s, [n] + b, kind, mouse, js, passes)
    requires QuietBetween(js, s.clock, r.0.clock) && passes >= |Wanted(s.cons[n].callbacks, kind, mouse)|
    ensures n in r.0.cons && Served(sys, r.0, n, kind, mouse, k)
  {
    var r2 := DispatchIn(s, n, kind, mouse, js, passes);
    FirstTurn(s, n, b, kind, mouse, js, passes, m, r2, r);
    k := FromTurn(s, n, b, kind, mouse, js, passes, m, r2, r.0);
    assert RegistryOk(sys.cons[n].callbacks, sys.nextId);
    ServedFrom(sys, s, r2.0, r.0, n, kind, mouse, k);
  }

  lemma FirstTurn(s: System, n: string, b: seq<string>, kind: CallbackType, mouse: set<MouseEvent>, js: Scripts, passes: nat, m: Manners,
                  r2: (System, nat, bool), r: (System, nat, bool))
    requires Calm(s, m) && AllSettled(s) && Makes(js, WithManners(m)) && IsDispatched(kind) && n in s.cons
    requires passes >= |Wanted(s.cons[n].callbacks, kind, mouse)| && r2 == DispatchIn(s, n, kind, mouse, js, passes)
    requires r == DispatchTo(s, [n] + b, kind, mouse, js, passes) && QuietBetween(js, s.clock, r.0.clock)
    ensures AllSettled(r2.0) && r == DispatchTo(r2.0, b, kind, mouse, js, r2.1)
  {
    assert ([n] + b)[0] == n && ([n] + b)[1..] == b;
    if !r2.2 {
      var k := OwnTurn(s, n, kind, mouse, js, passes, m, r2);
    }
  }

  // ----- in a run -----

  lemma {:induction false} NobodyWants(reg: seq<Entry>, kind: CallbackType, mouse: set<MouseEvent>)
    requires forall e :: e in reg ==> !Listens(e, kind)
    ensures Wanted(reg, kind, mouse) == [] && Survivors(reg, kind, mouse) == reg
  {
    if reg != [] {
      assert !Listens(reg[0], kind);
      assert forall e :: e in reg[1..] ==> e in reg;
      NobodyWants(reg[1..], kind, mouse);
    }
  }

  /** An arrival that is not looked at since its activity bit is off. */
  lemma ServedByNobody(sys: System, n: string, kind: CallbackType, mouse: set<MouseEvent>)
    requires AllSettled(sys) && AllBits(sys) && n in sys.cons && IsDispatched(kind) && kind !in sys.active
    ensures Served(sys, sys, n, kind, mouse, 0)
  {
    var reg := sys.cons[n].callbacks;
    forall e | e in reg ensures !Listens(e, kind) {
      assert SignatureOf(e) in Signatures(reg);
      assert SignatureOf(e) in AllSignatures(sys);
    }
    NobodyWants(reg, kind, mouse);
    KeepAll(reg, {});
    assert {} <= ReplyIds(reg) && reg == Keep(reg, {});
  }

  lemma ArrivalServed(sys: System, js: Scripts, kind: CallbackType, mouse: set<MouseEvent>, passes: nat, n: string, m: Manners) returns (k: nat)
    requires Calm(sys, m) && AllSettled(sys) && Makes(js, WithManners(m)) && IsDispatched(kind) && AllBits(sys)
    requires n in sys.cons && n in sys.order && Distinct(sys.order)
    requires QuietBetween(js, sys.clock, Dispatch(sys, kind, mouse, js, passes).0.clock) && passes >= Total(sys, sys.order, kind, mouse)
    ensures var r := Dispatch(sys, kind, mouse, js, passes); r.1 && n in r.0.cons && Served(sys, r.0, n, kind, mouse, k)
  {
    if kind in sys.active {
      var s := Unmarked(sys, kind);
      BitsCalm(sys, s.active, m);
      TotalOf(sys, s, sys.order, kind, mouse);
      k := AllServed(s, sys.order, n, kind, mouse, js, passes, m, DispatchTo(s, sys.order, kind, mouse, js, passes));
    } else {
      k := 0;
      ServedByNobody(sys, n, kind, mouse);
    }
  }

  lemma {:induction false} TotalOf(sys: System, s: System, names: seq<string>, kind: CallbackType, mouse: set<MouseEvent>)
    requires s.cons == sys.cons
    ensures Total(s, names, kind, mouse) == Total(sys, names, kind, mouse)
  {
    if names != [] {
      TotalOf(sys, s, names[1..], kind, mouse);
    }
  }

  /** An arrival at any point of any run of scripts that pass functions where results are to be
      reported to, if no call made during it registers, cancels or moves anything: the event ends,
      if it is granted as many passes as there are handlers that want the arrival, and every
      console has been served: each of its handlers for the arrival has been called exactly once,
      in order - or exactly the first k, and the console has been wrapped up. */
  lemma ArrivalInRun(names: seq<string>, before: seq<Event>, js: Scripts, kind: CallbackType, mouse: set<MouseEvent>, passes: nat, n: string)
    returns (k: nat)
    requires Distinct(names) && n in names && IsDispatched(kind) && Makes(js, WithManners(Manners(false, false)))
    requires var m := RunEvents(Start(names), before, js);
             && m.Some? && QuietBetween(js, m.value.clock, Dispatch(m.value, kind, mouse, js, passes).0.clock)
             && passes >= Total(m.value, names, kind, mouse)
    ensures var m := RunEvents(Start(names), before, js).value;
            var r := Step(m, Arrival(kind, mouse, passes), js);
            r.Some? && n in m.cons && n in r.value.cons && Served(m, r.value, n, kind, mouse, k)
  {
    Reached(names, before, js);
    k := ArrivalStep(RunEvents(Start(names), before, js).value, js, kind, mouse, passes, n, Manners(false, false));
  }

  lemma ArrivalStep(sys: System, js: Scripts, kind: CallbackType, mouse: set<MouseEvent>, passes: nat, n: string, m: Manners) returns (k: nat)
    requires Calm(sys, m) && AllSettled(sys) && Makes(js, WithManners(m)) && IsDispatched(kind) && AllBits(sys)
    requires n in sys.cons && n in sys.order && Distinct(sys.order)
    requires QuietBetween(js, sys.clock, Dispatch(sys, kind, mouse, js, passes).0.clock) && passes >= Total(sys, sys.order, kind, mouse)
    ensures var r := Step(sys, Arrival(kind, mouse, passes), js);
            r.Some? && n in r.value.cons && Served(sys, r.value, n, kind, mouse, k)
  {
    k := ArrivalServed(sys, js, kind, mouse, passes, n, m);
    StepArrives(sys, kind, mouse, passes, js, Dispatch(sys, kind, mouse, js, passes));
  }

  lemma StepArrives(sys: System, kind: CallbackType, mouse: set<MouseEvent>, passes: nat, js: Scripts, r: (System, bool))
    requires AllSettled(sys) && r == Dispatch(sys, kind, mouse, js, passes) && r.1
    ensures Step(sys, Arrival(kind, mouse, passes), js) == Some(r.0)
  {
  }

  lemma Reached(names: seq<string>, before: seq<Event>, js: Scripts)
    requires Makes(js, WithManners(Manners(false, false))) && RunEvents(Start(names), before, js).Some?
    ensures var s := RunEvents(Start(names), before, js).value;
            Calm(s, Manners(false, false)) && AllSettled(s) && AllBits(s) && s.order == names && forall n :: n in names ==> n in s.cons
  {
    StartCalm(names, Manners(false, false));
    RunCalm(Start(names), before, js, Manners(false, false));
    StartBits(names);
    RunBits(Start(names), before, js);
  }

  lemma StartBits(names: seq<string>)
    ensures var sys := Start(names); Inv(sys) && AllBits(sys) && OrderCovers(sys) && sys.order == names && forall n :: n in names ==> n in sys.cons
  {
    StartInv(names);
    assert AllSignatures(Start(names)) == {};
  }
}
