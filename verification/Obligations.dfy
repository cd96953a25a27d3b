/** The obligation to answer over whole runs, and exactly when it is lost. */
module Obligations {
  import opened Wrappers
  import opened Callbacks
  import opened Lifecycle
  import opened Protocol
  import opened Events
  import opened Walks
  import opened Uniform
  import opened Carriers
  import opened Replies
  import opened Dropped

  // ----- the single steps of events -----

  lemma LandsAccounted(s: System, n: string, outcome: Completion, id: int)
    requires n in s.cons && Accounted(s, id)
    ensures Lands(Accounting(id), s, n, outcome)
  {
    StillAccounted(s, AskBusy(s, n).0, id);
    StillAccounted(s, WithReason(s, n, MoreToDo), id);
  }

  lemma FiresAccount(id: int, js: Scripts)
    ensures FireSteps(Accounting(id), js)
  {
    var k := Accounting(id);
    forall n, s, e, rest {:trigger Execute(FiredOff(s, n, e, rest), n, e.handler, js)} |
        k.all(s) && AllSettled(s) && n in s.cons && TakenFrom(s.cons[n].callbacks, e, rest)
      ensures var r := Execute(FiredOff(s, n, e, rest), n, e.handler, js); Lands(k, r.0, n, r.1)
    {
      var t := FiredOff(s, n, e, rest);
      StillAccounted(s, t, id);
      var r := Execute(FiredOff(s, n, e, rest), n, e.handler, js);
      CarriesDebtors(t, r.0, n);
      StillAccounted(t, r.0, id);
      LandsAccounted(r.0, n, r.1, id);
    }
  }

  lemma MainAccounts(sys: System, n: string, js: Scripts, id: int)
    requires n in sys.cons
    requires Accounted(With(sys, n, ConsoleReset(sys.cons[n]).(ctx := true, runningMain := true, button := Stop)), id)
    ensures var r := RunMain(sys, n, js); Lands(Accounting(id), r.0, n, r.1)
  {
    var s0 := With(sys, n, ConsoleReset(sys.cons[n]).(ctx := true, runningMain := true, button := Stop));
    var r := RunMain(sys, n, js);
    CarriesDebtors(s0, r.0, n);
    StillAccounted(s0, r.0, id);
    LandsAccounted(r.0, n, r.1, id);
  }

  lemma HandledAccounts(id: int, js: Scripts)
    ensures var k := Accounting(id); HandSteps(k, js) && MarkSteps(k) && UnmarkSteps(k)
  {
    var k := Accounting(id);
    forall s, n {:trigger k.all(Asked(s, n))} | k.all(s) && n in s.cons ensures k.all(Asked(s, n)) {
      StillAccounted(s, Asked(s, n), id);
    }
    forall s, n {:trigger AlertGone(s, n)} | k.all(s) && n in s.cons ensures Accounted(AlertGone(s, n), id) {
      StillAccounted(s, AlertGone(s, n), id);
    }
    forall s, n {:trigger k.all(Unbriefed(s, n))} | k.all(s) && n in s.cons ensures k.all(Unbriefed(s, n)) {
      StillAccounted(s, Unbriefed(s, n), id);
    }
    forall s, n {:trigger RunMain(s, n, js)} | k.all(s) && n in s.cons ensures var r := RunMain(s, n, js); Lands(k, r.0, n, r.1) {
      StillAccounted(s, With(s, n, ConsoleReset(s.cons[n]).(ctx := true, runningMain := true, button := Stop)), id);
      MainAccounts(s, n, js, id);
    }
    forall s, n {:trigger k.but(Stopping(s, n), n)} | k.all(s) && n in s.cons ensures k.but(Stopping(s, n), n) {
      StillAccounted(s, Stopping(s, n), id);
    }
    forall s, kind {:trigger k.all(Mark(s, kind))} | k.all(s) ensures k.all(Mark(s, kind)) {
      StillAccounted(s, Mark(s, kind), id);
    }
    forall s, kind {:trigger k.all(Unmarked(s, kind))} | k.all(s) ensures k.all(Unmarked(s, kind)) {
      StillAccounted(s, Unmarked(s, kind), id);
    }
  }

  // ----- the one event that can lose an obligation -----

  /** A run that comes up loses this id: it is carried by that run, which is dropped since its
      console is busy, or by its console, which is alive although its button says Run and now
      carries the id of the run instead - and in either case by nobody else, and nobody has
      tried to answer it. */
  predicate LostBy(sys: System, id: int) {
    && sys.pending != [] && sys.pending[0].0 in sys.cons
    && (forall k :: 1 <= k < |sys.pending| ==> sys.pending[k].1.callbackId != id)
    && (forall k :: 0 <= k < |sys.log| && sys.log[k].Replied? ==> sys.log[k].id != id)
    && var (n, brief) := sys.pending[0];
       var c := sys.cons[n];
       if c.button == Stop then brief.callbackId == id && c.brief.callbackId != id
       else c.ctx && c.brief.callbackId == id && brief.callbackId != id
  }

  /** A dropped run takes no id with it that someone else carries. */
  lemma StoppedAccounts(sys: System, n: string, brief: Brief, id: int)
    requires AllSettled(sys) && sys.pending != [] && sys.pending[0] == (n, brief) && n in sys.cons && sys.cons[n].button == Stop
    requires Accounted(sys, id) && !LostBy(sys, id)
    ensures Accounted(Popped(sys), id)
  {
    var p := Popped(sys);
    if !Attempted(sys.log, id) {
      if k :| 1 <= k < |sys.pending| && sys.pending[k].1.callbackId == id {
        assert p.pending[k - 1] == sys.pending[k];
      } else if m :| m in sys.cons && sys.cons[m].ctx && sys.cons[m].brief.callbackId == id {
        assert p.cons[m] == sys.cons[m];
      }
    }
  }

  /** A run that is given to its console hands over its id, and loses none that is carried by
      anyone but that console. */
  lemma StartedAccounts(sys: System, n: string, brief: Brief, id: int)
    requires sys.pending != [] && sys.pending[0] == (n, brief) && n in sys.cons && sys.cons[n].button == Run
    requires Accounted(sys, id) && !LostBy(sys, id)
    ensures Accounted(Started(Popped(sys), n, brief), id)
  {
    var s := Started(Popped(sys), n, brief);
    if !Attempted(sys.log, id) {
      if k :| 1 <= k < |sys.pending| && sys.pending[k].1.callbackId == id {
        assert s.pending[k - 1] == sys.pending[k];
      } else if brief.callbackId == id {
        assert s.cons[n].ctx;
      } else {
        var m :| m in sys.cons && sys.cons[m].ctx && sys.cons[m].brief.callbackId == id;
        assert m != n;
        assert s.cons[m] == sys.cons[m];
      }
    }
  }

  lemma PendingAccounts(sys: System, js: Scripts, id: int)
    requires AllSettled(sys) && OneCarrier(sys) && id != 0 && Accounted(sys, id) && !LostBy(sys, id)
    ensures Accounted(RunPending(sys, js), id)
  {
    if sys.pending != [] {
      var (n, brief) := sys.pending[0];
      PendingCarries(sys, 0);
      WrapsAccount(id, js);
      if sys.cons[n].button == Stop {
        StoppedAccounts(sys, n, brief, id);
        HandledAccounts(id, js);
        StopPressedWalk(Accounting(id), Popped(sys), n, js);
      } else {
        StartedAccounts(sys, n, brief, id);
        StartedSame(Popped(sys), n, brief);
        MainAccounts(WithBrief(Popped(sys), n, brief), n, js, id);
        RunToEndWalk(Accounting(id), WithBrief(Popped(sys), n, brief), n, js);
      }
    }
  }

  /** Once its last carrier has let go of it, nobody carries it. */
  lemma LostIsForgotten(sys: System, n: string, brief: Brief, id: int)
    requires OneCarrier(sys) && id != 0 && LostBy(sys, id) && sys.pending[0] == (n, brief)
    ensures Forgotten(if sys.cons[n].button == Stop then Popped(sys) else WithBrief(Popped(sys), n, brief), id)
  {
    var s := if sys.cons[n].button == Stop then Popped(sys) else WithBrief(Popped(sys), n, brief);
    forall a | a in Carrying(s) ensures a.1 != id {
      StillCarried(sys, s, n, brief, id, a);
    }
  }

  lemma StillCarried(sys: System, s: System, n: string, brief: Brief, id: int, a: (string, int))
    requires OneCarrier(sys) && id != 0 && LostBy(sys, id) && sys.pending[0] == (n, brief)
    requires s == (if sys.cons[n].button == Stop then Popped(sys) else WithBrief(Popped(sys), n, brief)) && a in Carrying(s)
    ensures a.1 != id
  {
    PendingCarries(sys, 0);
    Carries1(sys, n);
    assert (n, id) in Carrying(sys);
    if m :| m in s.cons && a == (m, s.cons[m].brief.callbackId) {
      Carries1(sys, m);
      assert Together((m, sys.cons[m].brief.callbackId), (n, id));
    } else {
      var k :| 0 <= k < |s.pending| && a == (s.pending[k].0, s.pending[k].1.callbackId);
      assert s.pending[k] == sys.pending[k + 1];
    }
  }

  lemma PendingLoses(sys: System, js: Scripts, id: int)
    requires AllSettled(sys) && OneCarrier(sys) && id != 0 && LostBy(sys, id)
    ensures Forgotten(RunPending(sys, js), id)
  {
    var (n, brief) := sys.pending[0];
    var p := ForgottenKept(id);
    LostIsForgotten(sys, n, brief, id);
    ForgottenSteps(id, js);
    WrapsUniformly(p, Any(), js);
    if sys.cons[n].button == Stop {
      HandledUniformly(p, Any(), js);
      StopPressedWalk(Always(p), Popped(sys), n, js);
    } else {
      var s := WithBrief(Popped(sys), n, brief);
      MainKeeps(p, Any(), s, n, js);
      var r := RunMain(s, n, js);
      LandsUniformly(p, Any(), r.0, n, r.1);
      RunToEndWalk(Always(p), s, n, js);
    }
  }

  // ----- over runs -----

  /** One event, whatever scripts do. */
  lemma StepExactly(sys: System, e: Event, js: Scripts, id: int)
    requires AllSettled(sys) && OneCarrier(sys) && id != 0 && Accounted(sys, id)
    ensures var r := Step(sys, e, js);
            r.Some? ==> if e.PendingRun? && LostBy(sys, id) then Forgotten(r.value, id) else Accounted(r.value, id)
  {
    var k := Accounting(id);
    if e.PendingRun? {
      if LostBy(sys, id) {
        PendingLoses(sys, js, id);
      } else {
        PendingAccounts(sys, js, id);
      }
    } else {
      WrapsAccount(id, js);
      FiresAccount(id, js);
      HandledAccounts(id, js);
      if e.Arrival? {
        DispatchWalk(k, sys, e.kind, e.mouse, js, e.passes);
      } else {
        QuietStepWalk(k, sys, e, js);
      }
    }
  }

  /** In the course of these events a run that comes up loses the id. */
  predicate LostWithin(sys: System, events: seq<Event>, js: Scripts, id: int)
    requires AllSettled(sys)
    decreases |events|
  {
    events != [] &&
    ((events[0].PendingRun? && LostBy(sys, id)) ||
     var s := Step(sys, events[0], js); s.Some? && LostWithin(s.value, events[1..], js, id))
  }

  lemma {:induction false} RunExactly(sys: System, events: seq<Event>, js: Scripts, id: int)
    requires AllSettled(sys) && OneCarrier(sys) && id != 0 && Accounted(sys, id)
    ensures var r := RunEvents(sys, events, js);
            r.Some? ==> if LostWithin(sys, events, js, id) then Forgotten(r.value, id) else Accounted(r.value, id)
    decreases |events|
  {
    if events != [] {
      StepExactly(sys, events[0], js, id);
      StepCarries(sys, events[0], js);
      var s := Step(sys, events[0], js);
      if s.Some? {
        if events[0].PendingRun? && LostBy(sys, id) {
          RunForgets(s.value, events[1..], js, id);
        } else {
          RunExactly(s.value, events[1..], js, id);
        }
      }
    }
  }

  /** From any point of a run on, whatever scripts do: what is owed then is at the end still
      owed, or a reply to it has been attempted - through any number of chained scripts - if
      and only if no run that came up on the way has lost it. */
  lemma RepliesExactly(names: seq<string>, before: seq<Event>, after: seq<Event>, js: Scripts, id: int)
    requires var m := RunEvents(Start(names), before, js); m.Some? && id != 0 && Owed(m.value, id)
    ensures var m := RunEvents(Start(names), before, js).value;
            var r := RunEvents(m, after, js);
            r.Some? ==> (Owed(r.value, id) || Attempted(r.value.log, id) <==> !LostWithin(m, after, js, id))
  {
    OneCarrierRuns(names, before, js);
    var m := RunEvents(Start(names), before, js).value;
    RunExactly(m, after, js, id);
    var r := RunEvents(m, after, js);
    if r.Some? && LostWithin(m, after, js, id) {
      NobodyOwes(r.value, id);
    }
  }
}
