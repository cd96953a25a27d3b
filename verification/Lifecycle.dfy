/** One console: its state, and the steps that touch only that console. */
module Lifecycle {
  import opened Wrappers
  import opened Callbacks

  /** How a piece of JavaScript ended, or what a console's status records. */
  datatype Completion =
    | HadError | TimedOut | Done | InExit | Stopped | MoreToDo | InMain | ToChain | Closed | Closing

  /** The position of a completion in the source's enumeration. */
  function Ordinal(r: Completion): bv8 {
    match r
    case HadError => 0 case TimedOut => 1 case Done => 2 case InExit => 3 case Stopped => 4
    case MoreToDo => 5 case InMain => 6 case ToChain => 7 case Closed => 8 case Closing => 9
  }

  /** The source tests for normal wrapping up with a bit mask made of three ordinals, so
      the test admits every completion but two. */
  predicate WrapsNormally(r: Completion)
    ensures WrapsNormally(r) <==> r != HadError && r != Closed
  {
    Ordinal(r) & (Ordinal(Stopped) | Ordinal(ToChain) | Ordinal(Done)) != 0
  }

  datatype ButtonLabel = Run | Stop

  /** What a console was started with: the id of the registration to be answered (0 for
      none), the console that holds it, and whether a brief is still to be collected. */
  datatype Brief = Brief(callbackId: int, caller: string, hasBrief: bool)

  datatype ConsoleState = ConsoleState(
    ctx: bool,                 // there is a live JavaScript context
    callbacks: seq<Entry>,
    cached: bool,              // waiting is valid
    waiting: bool,
    runningMain: bool,
    status: set<Completion>,
    alert: bool,               // an alert is on display
    msgBox: bool,              // the pointer to a message box is set
    exitHandler: Handler,
    brief: Brief,
    button: ButtonLabel)       // what the run button says

  const NEW_CONSOLE := ConsoleState(
    false, [], false, false, false, {}, false, false, Missing, Brief(0, "", false), Run)

  // ----- waiting -----

  /** What there is to wait for, looked at afresh. */
  predicate WaitingNow(c: ConsoleState) {
    |c.callbacks| > 0 || c.msgBox || c.alert
  }

  function IsWaiting(c: ConsoleState): (ConsoleState, bool) {
    if c.cached then (c, c.waiting)
    else (c.(waiting := WaitingNow(c), cached := true), WaitingNow(c))
  }

  function IsBusy(c: ConsoleState): (ConsoleState, bool) {
    if c.runningMain then (c, true) else IsWaiting(c)
  }

  // ----- clearing down -----

  function ClearAlert(c: ConsoleState): ConsoleState {
    if c.alert then c.(alert := false, cached := false) else c
  }

  function ClearCallbacks(c: ConsoleState): ConsoleState {
    ClearAlert(c.(callbacks := [])).(runningMain := false, msgBox := false, cached := false, button := Run)
  }

  function Cleanup(c: ConsoleState): ConsoleState {
    ClearCallbacks(c).(ctx := false)
  }

  function ConsoleReset(c: ConsoleState): ConsoleState {
    c.(ctx := false, runningMain := false, status := {}, cached := false, alert := false,
       msgBox := false, exitHandler := Missing, button := Run)
  }

  // ----- the two settled states, and what holds of every console between events -----

  predicate Idle(c: ConsoleState) {
    && !c.ctx && c.callbacks == [] && !c.alert && !c.msgBox && !c.runningMain && c.button == Run
    && (c.cached ==> !c.waiting)
  }

  /** The status says nothing that would keep a handler from running as it should. */
  predicate Unspoiled(c: ConsoleState) {
    c.status * {HadError, TimedOut, Stopped, ToChain, Closing, InExit} == {}
  }

  /** Alive, with something to wait for, whatever the button says. */
  predicate Lingering(c: ConsoleState) {
    c.ctx && WaitingNow(c) && !c.runningMain && (c.cached ==> c.waiting) && Unspoiled(c)
  }

  predicate Waiting(c: ConsoleState) {
    Lingering(c) && c.button == Stop
  }

  /** Something can still happen to it: a message box is answered before the script goes on,
      so none is open between events, although the pointer to one may be set. */
  predicate CanWake(c: ConsoleState) {
    |c.callbacks| > 0 || c.alert
  }

  predicate Quiescent(c: ConsoleState) {
    Idle(c) || Waiting(c)
  }

  /** Weaker than Quiescent, and kept by every script whatever it does: a console without a
      context is idle, and a cached answer never hides something to wait for. */
  predicate Settled(c: ConsoleState) {
    Idle(c) || (c.ctx && !c.runningMain && (c.cached && WaitingNow(c) ==> c.waiting))
  }

  // ----- what a script can do -----

  datatype MessageAnswer = Accepted | Declined | ClosedByOther

  /** The calls a script can make that matter to the life of consoles. */
  datatype Act =
    | Register(kind: CallbackType, persistent: bool, ident: string, mouseMask: set<MouseEvent>)
    | Menu(persistent: bool, itemsCallable: seq<bool>)
    | CancelByType(kind: CallbackType)
    | CancelById(kind: CallbackType, id: int)
    | ReadDialogue(id: int)
    | ShowAlert
    | CancelAlert
    | MessageBox(answer: MessageAnswer)
    | StopScript
    | Chain(readable: bool, hasBrief: bool)
    | OnExit(handler: Handler)
    | GetBrief
    | Fail(prepared: bool)                       // any other error, from the plugin or from JavaScript
    | AwaitResult(target: string, callable: bool, hasBrief: bool)
    | RunConsole(target: string, hasBrief: bool)
    | ConsoleBusy(target: string)

  predicate IsLocal(a: Act) {
    !a.AwaitResult? && !a.RunConsole? && !a.ConsoleBusy?
  }

  /** The console afterwards, whether the call threw, and the next free id. */
  datatype Outcome = Outcome(c: ConsoleState, threw: bool, nextId: int)

  /** No call destroys or creates the context, changes who is to be answered, or makes the
      main script count as running. */
  predicate KeepsIdentity(c: ConsoleState, nextId: int, o: Outcome) {
    && o.nextId >= nextId && o.c.ctx == c.ctx && (o.c.runningMain ==> c.runningMain)
    && o.c.brief.callbackId == c.brief.callbackId && o.c.brief.caller == c.brief.caller
  }

  /** prep_for_throw, whatever its message. */
  function PrepForThrow(c: ConsoleState): ConsoleState {
    c.(runningMain := false)
  }

  /** newCallbackEntry: append, or at the limit clear everything and throw. */
  function NewCallbackEntry(c: ConsoleState, e: Entry, nextId: int): Outcome {
    if |c.callbacks| >= MAX_CALLBACKS then Outcome(PrepForThrow(ClearCallbacks(c)), true, nextId + 1)
    else Outcome(c.(callbacks := c.callbacks + [e]), false, nextId + 1)
  }

  /** Registrations of these kinds leave the cached answer as it is. */
  predicate KeepsCache(kind: CallbackType) {
    kind in {Message, MouseEvents, ConsoleReply}
  }

  function AddEntry(c: ConsoleState, e: Entry, nextId: int): Outcome {
    var r := NewCallbackEntry(c, e, nextId);
    if r.threw || KeepsCache(e.kind) then r else r.(c := r.c.(cached := false))
  }

  function SubmenuEntry(id: int, owner: int, persistent: bool, callable: bool): Entry {
    Entry(id, ContextSubmenu, persistent, if callable then Callable else Missing, [], owner, "", {})
  }

  function MenuOwner(id: int, persistent: bool): Entry {
    Entry(id, ContextMenu, persistent, Missing, [], 0, "", {})
  }

  /** Record a submenu entry with its owner. */
  function ListWithOwner(reg: seq<Entry>, owner: int, id: int): (r: seq<Entry>)
    ensures |r| == |reg|
    ensures forall k :: 0 <= k < |reg| ==>
      r[k] == if reg[k].id == owner then reg[k].(subMenuIds := reg[k].subMenuIds + [id]) else reg[k]
  {
    seq(|reg|, k requires 0 <= k < |reg| =>
      if reg[k].id == owner then reg[k].(subMenuIds := reg[k].subMenuIds + [id]) else reg[k])
  }

  /** The items of a submenu are registered one by one; an item that cannot be called stays
      registered, without a handler, when the error is thrown. */
  function AddItems(c: ConsoleState, owner: int, persistent: bool, items: seq<bool>, nextId: int): (o: Outcome)
    ensures KeepsIdentity(c, nextId, o)
    decreases |items|
  {
    if items == [] then Outcome(c.(cached := false), false, nextId)
    else
      var r := NewCallbackEntry(c, SubmenuEntry(nextId, owner, persistent, items[0]), nextId);
      if r.threw then r
      else
        var c1 := r.c.(callbacks := ListWithOwner(r.c.callbacks, owner, nextId));
        if !items[0] then Outcome(PrepForThrow(c1), true, r.nextId)
        else AddItems(c1, owner, persistent, items[1..], r.nextId)
  }

  /** Cancelling is refused inside an exit handler for these kinds only. */
  predicate CancelRefusedInExit(kind: CallbackType) {
    kind in {AIS, Navigation, ActiveLeg, ContextMenu, ConsoleReply, Dialogue}
  }

  function Throw(c: ConsoleState, nextId: int): Outcome {
    Outcome(PrepForThrow(c), true, nextId)
  }

  function RegisterEntry(c: ConsoleState, e: Entry, nextId: int): (o: Outcome)
    requires e.id == nextId
    ensures KeepsIdentity(c, nextId, o)
  {
    if InExit in c.status || e.kind in {ContextSubmenu, ConsoleReply} then Throw(c, nextId)
    else AddEntry(c, e, nextId)
  }

  function RegisterMenu(c: ConsoleState, persistent: bool, items: seq<bool>, nextId: int): (o: Outcome)
    ensures KeepsIdentity(c, nextId, o)
  {
    if InExit in c.status then Throw(c, nextId)
    else
      var r := NewCallbackEntry(c, MenuOwner(nextId, persistent), nextId);
      if r.threw then r else AddItems(r.c, nextId, persistent, items, r.nextId)
  }

  function Cancel(c: ConsoleState, kind: CallbackType, rest: seq<Entry>, nextId: int): (o: Outcome)
    ensures KeepsIdentity(c, nextId, o)
  {
    if InExit in c.status && CancelRefusedInExit(kind) then Throw(c, nextId)
    else Outcome(c.(callbacks := rest), false, nextId)
  }

  /** readDialogue: the lookup takes a one-shot entry out, so it is put back at the end; an
      unknown id clears everything and throws. */
  function ReadBack(c: ConsoleState, id: int, nextId: int): (o: Outcome)
    ensures KeepsIdentity(c, nextId, o)
  {
    var (rest, found) := Get(c.callbacks, id, false);
    if found.None? then Throw(ClearCallbacks(c), nextId)
    else Outcome(c.(callbacks := if found.value.persistent then rest else rest + [found.value]), false, nextId)
  }

  function ShowMessageBox(c: ConsoleState, answer: MessageAnswer, nextId: int): (o: Outcome)
    ensures KeepsIdentity(c, nextId, o)
  {
    match answer
    case Accepted => Outcome(c.(msgBox := false, status := c.status - {TimedOut}), false, nextId)
    case Declined => Throw(c.(msgBox := true), nextId)
    case ClosedByOther => Throw(c.(msgBox := true, status := c.status + {Closing}), nextId)
  }

  function StopOwnScript(c: ConsoleState, nextId: int): (o: Outcome)
    ensures KeepsIdentity(c, nextId, o)
  {
    var c1 := c.(status := c.status + {Stopped});
    if InExit in c.status then Throw(c1, nextId) else Outcome(ClearCallbacks(c1), true, nextId)
  }

  function ChainScript(c: ConsoleState, readable: bool, hasBrief: bool, nextId: int): (o: Outcome)
    ensures KeepsIdentity(c, nextId, o)
  {
    if !readable then Throw(c, nextId)
    else Outcome(c.(brief := c.brief.(hasBrief := hasBrief), status := c.status + {ToChain}), true, nextId)
  }

  function Perform(c: ConsoleState, a: Act, nextId: int): (o: Outcome)
    requires IsLocal(a)
    ensures KeepsIdentity(c, nextId, o)
  {
    match a
    case Register(kind, persistent, ident, mask) =>
      RegisterEntry(c, Entry(nextId, kind, persistent, Callable, [], 0, ident, mask), nextId)
    case Menu(persistent, items) => RegisterMenu(c, persistent, items, nextId)
    case CancelByType(kind) => Cancel(c, kind, CancelType(c.callbacks, kind), nextId)
    case CancelById(kind, id) => Cancel(c, kind, CancelId(c.callbacks, id), nextId)
    case ReadDialogue(id) => ReadBack(c, id, nextId)
    case ShowAlert => Outcome(c.(alert := true, cached := true, waiting := true), false, nextId)
    case CancelAlert => Outcome(ClearAlert(c), false, nextId)
    case MessageBox(answer) => ShowMessageBox(c, answer, nextId)
    case StopScript => StopOwnScript(c, nextId)
    case Chain(readable, hasBrief) => ChainScript(c, readable, hasBrief, nextId)
    case OnExit(handler) =>
      if InExit in c.status then Throw(c, nextId) else Outcome(c.(exitHandler := handler), false, nextId)
    case GetBrief =>
      if c.brief.hasBrief then Outcome(c.(brief := c.brief.(hasBrief := false)), false, nextId)
      else Throw(c, nextId)
    case Fail(prepared) => if prepared then Throw(c, nextId) else Outcome(c, true, nextId)
  }

  /** The kinds for which the plugin keeps an activity bit. */
  predicate SetsActive(kind: CallbackType, ident: string) {
    (kind == N0183 && ident == "") || kind in {AIS, ActiveLeg, MouseEvents}
  }

  /** afterwards: what a call of JavaScript came to.  On all but the last two outcomes the
      cached answer is forced to "not waiting". */
  function Afterwards(c: ConsoleState, succeeded: bool): (ConsoleState, Completion) {
    var c1 := c.(waiting := false, cached := true);
    if TimedOut in c.status then (c1, TimedOut)
    else if Closing in c.status then (c1, Closing)
    else if Stopped in c.status then (c1, Stopped)
    else if ToChain in c.status then (c1, ToChain)
    else if !succeeded then (c1.(status := c1.status + {HadError}), HadError)
    else
      var (c2, w) := IsWaiting(c1.(cached := false));
      (c2, if w then MoreToDo else Done)
  }

  /** After a call, a console that is not running its main script counts as busy exactly
      when the outcome is that there is more to do. */
  lemma BusyIsMoreToDo(c: ConsoleState, succeeded: bool)
    requires !c.runningMain
    ensures var (c', outcome) := Afterwards(c, succeeded); IsBusy(c') == (c', outcome == MoreToDo)
    ensures Afterwards(c, succeeded).1 == MoreToDo ==> WaitingNow(Afterwards(c, succeeded).0)
  {
  }
}
