/** What can happen to the plugin from outside, and runs made of such events. */
module Events {
  import opened Wrappers
  import opened Callbacks
  import opened Lifecycle
  import opened Protocol

  // ----- calling one handler -----

  /** Call a handler and, unless the console is then still busy, wrap it up.  The flag says
      whether it was wrapped up. */
  function Call(sys: System, n: string, e: Entry, js: Scripts): (r: (System, bool))
    requires n in sys.cons && sys.cons[n].ctx && AllSettledBarring(sys, n)
    ensures Quietens(sys, r.0) && AllSettled(r.0)
    ensures if r.1 then Idle(r.0.cons[n]) else r.0.cons[n].ctx
  {
    var s1 := Noted(sys, [Fired(n, e.id, e.persistent)]);
    assert Live(s1) == Live(sys);
    var (s2, outcome) := Execute(s1, n, e.handler, js);
    CarriesSettled(s1, s2, n);
    AfterExecute(s1, n, e.handler, js);
    Tail(s2, n, outcome, js)
  }

  /** Settled, but for what an entry just taken out may do to the cached answer. */
  ghost predicate AllSettledBarring(sys: System, n: string)
    requires n in sys.cons
  {
    && SettledBut(sys, n) && !sys.cons[n].runningMain
    && (sys.cons[n].cached && WaitingNow(sys.cons[n]) ==> sys.cons[n].waiting)
  }

  /** What follows every call of JavaScript: unless the console is busy, wrap it up. */
  function Tail(sys: System, n: string, outcome: Completion, js: Scripts): (r: (System, bool))
    requires n in sys.cons && sys.cons[n].ctx && SettledBut(sys, n)
    requires IsBusy(sys.cons[n]).1 ==> Settled(IsBusy(sys.cons[n]).0)
    requires !IsBusy(sys.cons[n]).1 ==> outcome != MoreToDo
    ensures Quietens(sys, r.0) && AllSettled(r.0)
    ensures if r.1 then Idle(r.0.cons[n]) else r.0.cons[n].ctx
  {
    var (s, busy) := AskBusy(sys, n);
    if busy then (s, false) else (WrapUp(s, n, outcome, js), true)
  }

  function TakeEntry(sys: System, n: string, rest: seq<Entry>): (s: System)
    requires n in sys.cons
    ensures Live(s) == Live(sys)
  {
    LiveWith(sys, n, sys.cons[n].(callbacks := rest));
    With(sys, n, sys.cons[n].(callbacks := rest))
  }

  // ----- events -----

  /** Something has been bound to the entry with this id, if there is one: nothing is to the
      owner of a submenu. */
  predicate Bound(reg: seq<Entry>, id: int) {
    var found := Get(reg, id, false).1;
    found.Some? ==> found.value.handler != Missing
  }

  /** A timer, message or other listener of console n reports for the entry with this id. */
  function FireEntry(sys: System, n: string, id: int, js: Scripts): (s: System)
    requires n in sys.cons && AllSettled(sys)
    ensures Quietens(sys, s) && AllSettled(s)
  {
    var (rest, found) := Get(sys.cons[n].callbacks, id, false);
    if found.None? then sys
    else Call(TakeEntry(sys, n, rest), n, found.value, js).0
  }

  /** A button of a dialogue: here the console is wrapped up with whatever outcome. */
  function PressButton(sys: System, n: string, id: int, js: Scripts): (s: System)
    requires n in sys.cons && AllSettled(sys)
    ensures Quietens(sys, s) && AllSettled(s)
  {
    var (rest, found) := Get(sys.cons[n].callbacks, id, false);
    if !sys.cons[n].ctx || found.None? then sys
    else CallAndWrap(TakeEntry(sys, n, rest), n, found.value, js)
  }

  function CallAndWrap(sys: System, n: string, e: Entry, js: Scripts): (s: System)
    requires n in sys.cons && sys.cons[n].ctx && AllSettledBarring(sys, n)
    ensures Quietens(sys, s) && AllSettled(s)
  {
    var s1 := Noted(sys, [Fired(n, e.id, e.persistent)]);
    assert Live(s1) == Live(sys);
    var (s2, outcome) := Execute(s1, n, e.handler, js);
    CarriesSettled(s1, s2, n);
    ExecuteMoreToDo(s1, n, e.handler, js);
    WrapUp(s2, n, outcome, js)
  }

  lemma ExecuteMoreToDo(sys: System, n: string, handler: Handler, js: Scripts)
    requires n in sys.cons && sys.cons[n].ctx && !sys.cons[n].runningMain
    ensures var (s, outcome) := Execute(sys, n, handler, js);
            outcome == MoreToDo ==> Settled(s.cons[n].(status := s.cons[n].status + {MoreToDo}))
  {
  }

  /** The dismiss button of an alert that is on display. */
  function DismissAlert(sys: System, n: string, js: Scripts): (s: System)
    requires n in sys.cons && AllSettled(sys)
    ensures Quietens(sys, s) && AllSettled(s)
  {
    if !sys.cons[n].alert then sys
    else
      var (c, waiting) := IsWaiting(ClearAlert(sys.cons[n]));
      LiveWith(sys, n, c);
      if waiting then With(sys, n, c) else WrapUp(With(sys, n, c), n, Done, js)
  }

  /** The console reset and given a context, its script about to run. */
  function Started(sys: System, n: string, brief: Brief): System
    requires n in sys.cons
  {
    With(sys, n, ConsoleReset(sys.cons[n]).(brief := brief, ctx := true, runningMain := true, button := Stop))
  }

  function StartScript(sys: System, n: string, brief: Brief, js: Scripts): (s: System)
    requires n in sys.cons && AllSettled(sys)
    ensures s.cons.Keys == sys.cons.Keys && s.order == sys.order && AllSettled(s)
  {
    RunToEnd(With(sys, n, sys.cons[n].(brief := brief)), n, js)
  }

  /** Run the main script and, unless the console is then busy, wrap it up. */
  function RunToEnd(sys: System, n: string, js: Scripts): (s: System)
    requires n in sys.cons && SettledBut(sys, n)
    ensures s.cons.Keys == sys.cons.Keys && s.order == sys.order && AllSettled(s)
  {
    var (s1, outcome) := RunMain(sys, n, js);
    MainEnds(sys, n, js, s1, outcome);
    Tail(s1, n, outcome, js).0
  }

  lemma MainEnds(sys: System, n: string, js: Scripts, s: System, outcome: Completion)
    requires n in sys.cons && SettledBut(sys, n) && (s, outcome) == RunMain(sys, n, js)
    ensures s.cons.Keys == sys.cons.Keys && s.order == sys.order && s.cons[n].ctx && SettledBut(s, n)
    ensures IsBusy(s.cons[n]).1 ==> Settled(IsBusy(s.cons[n]).0)
    ensures !IsBusy(s.cons[n]).1 ==> outcome != MoreToDo
  {
    CarriesSettled(With(sys, n, ConsoleReset(sys.cons[n]).(ctx := true, runningMain := true, button := Stop)), s, n);
    AfterMain(sys, n, js);
  }

  lemma StartedSame(sys: System, n: string, brief: Brief)
    requires n in sys.cons
    ensures var s0 := With(sys, n, sys.cons[n].(brief := brief));
            With(s0, n, ConsoleReset(s0.cons[n]).(ctx := true, runningMain := true, button := Stop)) == Started(sys, n, brief)
  {
  }

  function StopPressed(sys: System, n: string, js: Scripts): (s: System)
    requires n in sys.cons && AllSettled(sys) && sys.cons[n].ctx
    ensures s.cons.Keys == sys.cons.Keys && s.order == sys.order && AllSettled(s)
  {
    LiveWith(sys, n, sys.cons[n].(status := {}));
    WrapUp(With(sys, n, sys.cons[n].(status := {})), n, Stopped, js)
  }

  /** doRunCommand: what the button says decides whether this runs the script with the
      given brief or stops what is running. */
  function DoRunCommand(sys: System, n: string, brief: Brief, js: Scripts): (s: System)
    requires n in sys.cons && AllSettled(sys)
    ensures s.cons.Keys == sys.cons.Keys && s.order == sys.order && AllSettled(s)
  {
    if sys.cons[n].button == Run then StartScript(sys, n, brief, js) else StopPressed(sys, n, js)
  }

  lemma AfterMain(sys: System, n: string, js: Scripts)
    requires n in sys.cons
    ensures var (s, outcome) := RunMain(sys, n, js);
            && (IsBusy(s.cons[n]).1 ==> Settled(IsBusy(s.cons[n]).0))
            && (!IsBusy(s.cons[n]).1 ==> outcome != MoreToDo)
  {
  }

  /** The run button. */
  function PressRun(sys: System, n: string, js: Scripts): (s: System)
    requires n in sys.cons && AllSettled(sys)
    ensures s.cons.Keys == sys.cons.Keys && s.order == sys.order && AllSettled(s)
  {
    var brief := sys.cons[n].brief.(hasBrief := false);
    LiveWith(sys, n, sys.cons[n].(brief := brief));
    DoRunCommand(With(sys, n, sys.cons[n].(brief := brief)), n, brief, js)
  }

  /** The first run asked for with CallAfter comes up. */
  function RunPending(sys: System, js: Scripts): (s: System)
    requires AllSettled(sys)
    ensures s.cons.Keys == sys.cons.Keys && s.order == sys.order && AllSettled(s)
  {
    if sys.pending == [] then sys
    else
      var (n, brief) := sys.pending[0];
      RunFor(sys.(pending := sys.pending[1..]), n, brief, js)
  }

  function RunFor(sys: System, n: string, brief: Brief, js: Scripts): (s: System)
    requires AllSettled(sys)
    ensures s.cons.Keys == sys.cons.Keys && s.order == sys.order && AllSettled(s)
  {
    if n in sys.cons then DoRunCommand(sys, n, brief, js) else sys
  }

  /** A context menu item is chosen and console n is asked for its id, if n is waiting. */
  function MenuItemIn(sys: System, n: string, id: int, js: Scripts): (s: System)
    requires n in sys.cons && AllSettled(sys)
    ensures Quietens(sys, s) && AllSettled(s)
  {
    var (c, waiting) := IsWaiting(sys.cons[n]);
    LiveWith(sys, n, c);
    var s1 := With(sys, n, c);
    if !waiting then s1
    else
      var (rest, found) := ChooseMenuItem(c.callbacks, id);
      if found.None? || found.value.handler == Missing then s1
      else Call(TakeEntry(s1, n, rest), n, found.value, js).0
  }

  /** A context menu item: every console is asked. */
  function ChooseMenu(sys: System, names: seq<string>, id: int, js: Scripts): (s: System)
    requires AllSettled(sys)
    ensures Quietens(sys, s) && AllSettled(s)
    decreases |names|
  {
    if names == [] then sys
    else ChooseMenu(if names[0] in sys.cons then MenuItemIn(sys, names[0], id, js) else sys, names[1..], id, js)
  }

  // ----- dispatch to every listener of one kind -----

  predicate Listens(e: Entry, kind: CallbackType) {
    e.kind == kind && (kind == N0183 ==> e.ident == "")
  }

  predicate Wants(e: Entry, kind: CallbackType, mouse: set<MouseEvent>) {
    Listens(e, kind) && (kind == MouseEvents ==> e.mouseMask * mouse != {})
  }

  /** Set the activity bit of a kind. */
  function Mark(sys: System, kind: CallbackType): (s: System)
    ensures Live(s) == Live(sys) && s.cons == sys.cons && s.order == sys.order
    ensures AllSettled(sys) ==> AllSettled(s)
  {
    sys.(active := sys.active + {kind})
  }

  /** Call the handler of the entry at position i, which is erased first if it is one-shot. */
  function FireAt(sys: System, n: string, i: nat, js: Scripts): (r: (System, bool))
    requires n in sys.cons && sys.cons[n].ctx && AllSettled(sys) && i < |sys.cons[n].callbacks|
    ensures Quietens(sys, r.0) && AllSettled(r.0)
    ensures if r.1 then Idle(r.0.cons[n]) else r.0.cons[n].ctx
  {
    var reg := sys.cons[n].callbacks;
    Call(TakeEntry(sys, n, if reg[i].persistent then reg else RemoveAt(reg, i)), n, reg[i], js)
  }

  /** One pass of the loop over the entries of a console: what it leads to, the index for
      the next pass and whether the console was wrapped up. */
  function Pass(sys: System, n: string, i: nat, kind: CallbackType, mouse: set<MouseEvent>, js: Scripts): (r: (System, nat, bool))
    requires n in sys.cons && sys.cons[n].ctx && AllSettled(sys) && i < |sys.cons[n].callbacks|
    ensures Quietens(sys, r.0) && AllSettled(r.0) && (!r.2 ==> r.0.cons[n].ctx)
    ensures !Wants(sys.cons[n].callbacks[i], kind, mouse) ==> r.0.cons == sys.cons && r.1 == i + 1 && !r.2
  {
    var e := sys.cons[n].callbacks[i];
    if !Listens(e, kind) then (sys, i + 1, false)
    else if !Wants(e, kind, mouse) then (Mark(sys, kind), i + 1, false)
    else
      var (s, wrapped) := FireAt(Mark(sys, kind), n, i, js);
      (s, if e.persistent then i + 1 else i, wrapped)
  }

  /** The loop over the entries of one console.  A one-shot entry is erased where it stands
      and the index held back.  The loop reads the registry afresh in every pass, so it
      need not end; passes bounds the handlers called, and the flag says whether it ended. */
  function DispatchFrom(sys: System, n: string, i: nat, kind: CallbackType, mouse: set<MouseEvent>, js: Scripts, passes: nat):
    (r: (System, nat, bool))
    requires n in sys.cons && sys.cons[n].ctx && AllSettled(sys)
    ensures Quietens(sys, r.0) && AllSettled(r.0) && r.1 <= passes
    decreases passes, |sys.cons[n].callbacks| - i
  {
    if i >= |sys.cons[n].callbacks| then (sys, passes, true)
    else
      var fires := Wants(sys.cons[n].callbacks[i], kind, mouse);
      if fires && passes == 0 then (sys, 0, false)
      else
        var left := if fires then passes - 1 else passes;
        var (s, j, wrapped) := Pass(sys, n, i, kind, mouse, js);
        if wrapped then (s, left, true) else DispatchFrom(s, n, j, kind, mouse, js, left)
  }

  /** One console, which is passed over unless it is waiting. */
  function DispatchIn(sys: System, n: string, kind: CallbackType, mouse: set<MouseEvent>, js: Scripts, passes: nat):
    (r: (System, nat, bool))
    requires AllSettled(sys)
    ensures Quietens(sys, r.0) && AllSettled(r.0) && r.1 <= passes
  {
    if n !in sys.cons then (sys, passes, true)
    else
      var (c, waiting) := IsWaiting(sys.cons[n]);
      LiveWith(sys, n, c);
      if !waiting then (With(sys, n, c), passes, true)
      else DispatchFrom(With(sys, n, c), n, 0, kind, mouse, js, passes)
  }

  function DispatchTo(sys: System, names: seq<string>, kind: CallbackType, mouse: set<MouseEvent>, js: Scripts, passes: nat):
    (r: (System, nat, bool))
    requires AllSettled(sys)
    ensures Quietens(sys, r.0) && AllSettled(r.0) && r.1 <= passes
    decreases |names|
  {
    if names == [] then (sys, passes, true)
    else
      var (s, left, ended) := DispatchIn(sys, names[0], kind, mouse, js, passes);
      if !ended then (s, left, false) else DispatchTo(s, names[1..], kind, mouse, js, left)
  }

  // ----- the loops, one turn at a time -----

  lemma MenuNext(sys: System, names: seq<string>, i: nat, id: int, js: Scripts, goal: System, s: System)
    requires AllSettled(sys) && i < |names| && names[i] in sys.cons && goal == ChooseMenu(sys, names[i..], id, js)
    requires s == MenuItemIn(sys, names[i], id, js)
    ensures AllSettled(s) && s.order == sys.order && goal == ChooseMenu(s, names[i + 1..], id, js)
  {
    assert names[i..][0] == names[i] && names[i..][1..] == names[i + 1..];
  }

  /** What the loop over some consoles, with so many passes granted, still leads to. */
  ghost predicate LeadsTo(leads: (System, seq<string>, nat) -> bool, goal: (System, nat, bool), kind: CallbackType, mouse: set<MouseEvent>,
                          js: Scripts) {
    forall s, names, passes {:trigger DispatchTo(s, names, kind, mouse, js, passes)} ::
      leads(s, names, passes) <==> AllSettled(s) && goal == DispatchTo(s, names, kind, mouse, js, passes)
  }

  lemma LedTo(s: System, kind: CallbackType, mouse: set<MouseEvent>, js: Scripts, passes: nat, goal: (System, nat, bool),
              leads: (System, seq<string>, nat) -> bool)
    requires LeadsTo(leads, goal, kind, mouse, js) && leads(s, [], passes) && AllSettled(s)
    ensures goal == (s, passes, true)
  {
    assert goal == DispatchTo(s, [], kind, mouse, js, passes);
  }

  lemma DispatchNext(sys: System, names: seq<string>, i: nat, kind: CallbackType, mouse: set<MouseEvent>, js: Scripts, passes: nat,
                     goal: (System, nat, bool), r: (System, nat, bool))
    requires AllSettled(sys) && i < |names| && goal == DispatchTo(sys, names[i..], kind, mouse, js, passes)
    requires r == DispatchIn(sys, names[i], kind, mouse, js, passes)
    ensures AllSettled(r.0) && r.0.order == sys.order
    ensures if r.2 then goal == DispatchTo(r.0, names[i + 1..], kind, mouse, js, r.1) else goal == r
  {
    assert names[i..][0] == names[i] && names[i..][1..] == names[i + 1..];
  }

  lemma DispatchPass(sys: System, n: string, i: nat, kind: CallbackType, mouse: set<MouseEvent>, js: Scripts, passes: nat,
                     goal: (System, nat, bool), r: (System, nat, bool))
    requires n in sys.cons && sys.cons[n].ctx && AllSettled(sys) && i < |sys.cons[n].callbacks|
    requires Wants(sys.cons[n].callbacks[i], kind, mouse) ==> passes > 0
    requires goal == DispatchFrom(sys, n, i, kind, mouse, js, passes)
    requires r == Pass(sys, n, i, kind, mouse, js)
    ensures var left := if Wants(sys.cons[n].callbacks[i], kind, mouse) then passes - 1 else passes;
            && AllSettled(r.0) && r.0.order == sys.order && n in r.0.cons && (!r.2 ==> r.0.cons[n].ctx)
            && if r.2 then goal == (r.0, left, true) else goal == DispatchFrom(r.0, n, r.1, kind, mouse, js, left)
  {
  }

  predicate IsDispatched(kind: CallbackType) {
    kind in {N0183, AIS, MouseEvents}
  }

  /** Something arrived for all listeners of a kind.  If the activity bit is off nobody is
      looked at; otherwise it is cleared, and set again at the first listener met. */
  function Dispatch(sys: System, kind: CallbackType, mouse: set<MouseEvent>, js: Scripts, passes: nat): (r: (System, bool))
    requires AllSettled(sys)
    ensures Quietens(sys, r.0) && AllSettled(r.0)
  {
    if !IsDispatched(kind) || kind !in sys.active then (sys, true)
    else
      var s := sys.(active := sys.active - {kind});
      assert Live(s) == Live(sys);
      var (t, left, ended) := DispatchTo(s, s.order, kind, mouse, js, passes);
      (t, ended)
  }

  // ----- runs -----

  datatype Event =
    | RunButton(n: string)
    | PendingRun
    | Listener(n: string, id: int)
    | DialogueButton(n: string, id: int)
    | AlertDismissed(n: string)
    | MenuChosen(id: int)
    | Arrival(kind: CallbackType, mouse: set<MouseEvent>, passes: nat)

  predicate Addressed(sys: System, e: Event) {
    match e
    case RunButton(n) => n in sys.cons
    case Listener(n, id) => n in sys.cons && Bound(sys.cons[n].callbacks, id)
    case DialogueButton(n, id) => n in sys.cons && Bound(sys.cons[n].callbacks, id)
    case AlertDismissed(n) => n in sys.cons
    case _ => true
  }

  /** One event handled to its end, or None if the handling did not end within the passes
      granted (control then never returns to the event loop, or not yet). */
  function Step(sys: System, e: Event, js: Scripts): (r: Option<System>)
    requires AllSettled(sys)
    ensures r.Some? ==> AllSettled(r.value) && r.value.cons.Keys == sys.cons.Keys && r.value.order == sys.order
  {
    if !Addressed(sys, e) then Some(sys)
    else
      match e
      case RunButton(n) => Some(PressRun(sys, n, js))
      case PendingRun => Some(RunPending(sys, js))
      case Listener(n, id) => Some(FireEntry(sys, n, id, js))
      case DialogueButton(n, id) => Some(PressButton(sys, n, id, js))
      case AlertDismissed(n) => Some(DismissAlert(sys, n, js))
      case MenuChosen(id) => Some(ChooseMenu(sys, sys.order, id, js))
      case Arrival(kind, mouse, passes) =>
        var (s, ended) := Dispatch(sys, kind, mouse, js, passes);
        if ended then Some(s) else None
  }

  /** A run.  Whatever scripts do, at the end of every event each console either has no
      context and nothing to wait for, or has a context and no cached answer hides what it
      waits for. */
  function RunEvents(sys: System, events: seq<Event>, js: Scripts): (r: Option<System>)
    requires AllSettled(sys)
    ensures r.Some? ==> AllSettled(r.value) && r.value.cons.Keys == sys.cons.Keys && r.value.order == sys.order
    decreases |events|
  {
    if events == [] then Some(sys)
    else
      var s := Step(sys, events[0], js);
      if s.None? then None else RunEvents(s.value, events[1..], js)
  }

  /** The plugin as it starts: the given consoles, none of which has run. */
  function Start(names: seq<string>): (sys: System)
    ensures AllSettled(sys)
  {
    System(map n | n in names :: NEW_CONSOLE, names, 1, [], {}, 0, [])
  }
}
