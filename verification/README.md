# JavaScript plugin for OpenCPN: consoles, scripts and stores

This project models the parts of the plugin that hold state machines, loops and arithmetic,
and proves what they keep.

- **Consoles.** A console runs a script, may be left waiting on registered callbacks, fires
  them, and is wrapped up with one of ten completion codes; it may chain into another script
  or answer the console that launched it. `Callbacks` is one registry, `Lifecycle` one
  console, `Protocol` all consoles together with the mutual recursion of wrapping up and
  replying, `Events` what arrives from outside and runs made of such events. JavaScript is
  not interpreted: `js` gives, for each call of JavaScript in turn, an arbitrary behaviour
  (which calls it makes, which errors it catches, whether it fails or overruns its time), and
  every theorem is for all of them. `Consoles` and `Plugin` are the objects of the program,
  whose methods update their fields in place; each method is proved to do what these
  functions say, so that the theorems about the functions are theorems about the methods.
- **What calls and events do.** `Outcomes` reads off the calls a script makes which of them raise
  an error and what the script comes to, `Effects` what each call leaves behind. `Handling` is
  what events do - whose handler is called, in what state it finds its console, and what follows -
  and how a script queues the next; `Answering` is the same for replies and exit handlers.
- **What runs keep.** `Walks` is the induction over all of this, once: whatever is kept by
  the single steps of wrapping up and replying, by calls of JavaScript and by what comes from
  outside is kept by every event and every run; `Uniform` is the case of one and the same
  statement throughout. On these stand `OneShot` and `Runs` (ids, registry limit, one-shot
  safety, answers at most once), `Quiescence` and `Dichotomy` (idle or waiting, the waiting
  cache, the pointer to a message box, and exactly when scripts break this), `Carriers`,
  `Replies`, `Obligations` and `Dropped` (who owes which reply, and exactly which replies are
  lost), `ActivityBits` (the bits that short-circuit dispatch) and `Firings` (whose handlers are
  called). `Exceptions` has the runs in which scripts break things, worked out with `Scenarios`.
- **Dispatch.** `Loops` is a loop that erases entries of the registry it goes through, whatever
  the handlers do; `Dispatching` is what it does to one console when handlers leave registries
  alone, `Arrivals` the same for all consoles together and at any point of a run, `Listeners` who
  is reached by it and who is not, and `Relistening` when it ends at all if handlers register
  again.
- **Smart indent.** `Scanner` is the per-line lexer against a character automaton, `Brackets`
  what that automaton counts,
  `Profiles` the arithmetic of indents, `Reflow` and `ScriptPanes` the two-pass reflow and
  the indenting of lines as they are typed.
- **Parking.** `Lots` and `Parking`: the row of parked consoles, its incremental allocator
  and its batch re-packer.
- **Stores and codecs.** `OutputPanes`, `FileLists`, `ConfigNames`, `Nmea`.

Where the code does something one might not expect, the model does the same:

- The test for wrapping up normally (`src/JavaScriptgui_impl.h:840`) combines positions in an
  enumeration as if they were bits; it admits every completion but two (`Lifecycle.WrapsNormally`).
- A script that catches the error of a 501st registration or of reading an unknown dialogue
  leaves its console waiting with a button that says Run (`Exceptions.CaughtErrorLeavesRunButton`;
  exactly then: `Quiescence.HandlerExact`, `Quiescence.MainExact`).
- A script that catches the error of a message box that was refused leaves the pointer to the
  box set, so that its console counts as waiting with nothing to wake it
  (`Exceptions.RefusedBoxStrands`; exactly then: `Quiescence.PointerExactly`).
- `onConsoleResult` stores its handler without looking whether it can be called; a reply to
  one that cannot leaves the other console stuck unless it had something else to wait for
  (`Exceptions.UncallableReply`, and a run in which it happens: `Exceptions.UncallableRun`).
- A handler that registers for the next arrival of the kind it is being called for is met
  again by the loop that is calling it, with the same arrival; in a run of a script that always
  does so control never comes back (`Relistening.NeverReturns`), and in general it does exactly
  if the handlers called fall behind, fail or go over the limit (`Relistening.DispatchEndsExactly`).
- A run asked for while a console was idle, that comes up when it is busy, stops it and
  forgets the brief, and with it a reply that somebody waits for (`Exceptions.LostReply`);
  where the button wrongly says Run it starts the script over and forgets the brief of that. No
  reply is lost in any other way (`Obligations.StepExactly`, `Obligations.RepliesExactly`).
- Indenting a new line takes the line before it for code even inside a block comment
  (`Reflow.IncrementalExactly`, `Reflow.CommentMisleads`).
- A review of the parking row goes by the stored flag and not by where a window is, so it
  fetches back a console that was dragged off the row (`Parking.ReviewMoves`).
- Text of fewer than seven characters whose first star is its last character passes the
  NMEA check (`Nmea.ShortVerifies`).
- A comment says that names are compared ignoring case (`src/functions.cpp:475`); the code
  compares them exactly, and so does `ConfigNames.CheckConsoleName`.

## Model

| member | source | states |
|---|---|---|
| Callbacks.CancelTypeExact | src/functions.cpp:66-74 | cancelling a kind ends and removes exactly the entries of that kind and the submenu entries they own, keeping the rest in order |
| Callbacks.CancelLoopKeeps | src/functions.cpp:66-74 | the same from any pass of the loop on, although each entry is freed one pass after it was found |
| Callbacks.CancelIdKeeps | src/functions.cpp:75-84 | cancelling one id removes that entry and its dependents and nothing else |
| Callbacks.ReleaseIdsKeeps | src/JavaScriptgui_impl.h:576-588 | the deleter of a menu owner removes exactly the entries with the ids it lists |
| Callbacks.GetForcedKeeps | src/JavaScriptgui_impl.h:628-646 | a forced lookup leaves exactly the other ids, whether or not it finds one |
| Callbacks.OneShotFamilyGoes | src/JavaScript_pi.cpp:613-621 | choosing a one-shot submenu item removes it, its owner and all its siblings, and nothing else |
| Lifecycle.WrapsNormally | src/JavaScriptgui_impl.h:840 | the bit test for a normal wrap-up lets through every completion but HAD_ERROR and CLOSED |
| Lifecycle.BusyIsMoreToDo | src/JavaScriptgui_impl.h:745-786 | after a call of JavaScript the console counts as busy if and only if the outcome is MORETODO, and then there is something to wait for |
| Outcomes.ThrowsExactly | src/JSExtensions.cpp:535-575 | a call of a script raises an error in exactly these cases: inside an exit handler where it is refused there, at 500 entries, for an unknown dialogue, a message box that is not accepted, a brief that is not there, a console that is unknown or busy, a menu item that cannot be called, and always for stopping, chaining and failing |
| Outcomes.HandlerResults | src/JavaScriptgui_impl.h:500-527 | what a handler comes to, one if and only if for each outcome, read off the calls it made up to the first error it did not catch: overrun, closed by another console, stopped, chaining, failed, more to do (exactly if something is registered, a box pointed to or an alert on display), done |
| Outcomes.MarkedMeans | src/JavaScriptgui_impl.h:762-770 | a script is closed, stopped or chaining exactly if one of the calls it made was such a call |
| Outcomes.MainResults | src/JavaScriptgui_impl.h:749-786 | the same for the main script, which starts with no status, no alert, no message box and no exit handler |
| Outcomes.ExitResults | src/JavaScriptgui_impl.h:843-849 | the same for an exit handler, in which the status says so |
| Effects.CallDoes | src/JSExtensions.cpp:535-575 | every call that raises no error does just what it is for, to its own console, to the ids, to the activity bits and to the runs asked for |
| Effects.ThrowDoes | src/JSExtensions.cpp:329-354 | what is left by a call that stops, chains or shows a box that is refused, and that over-full registries and unknown dialogues empty the console |
| Effects.MenuLeaves | src/OPCNapis.cpp:648-673 | the loop over the items of a submenu leaves one owner that lists exactly its items, in order, and items that name it |
| Handling.ListenerCalled | src/JavaScriptgui_impl.cpp:345-362 | a timer or other listener that reports has its handler called, which finds the registry without the entry exactly if that is one-shot; if more is to be done nothing else happens, and otherwise the console is wrapped up and its reply sent |
| Handling.ButtonCalled | src/JSdialog.cpp:138-177 | the same for a dialogue button, after which the console is wrapped up with whatever outcome |
| Handling.ItemCalled | src/JavaScript_pi.cpp:607-652 | the same for a context menu item |
| Handling.ItemChosen | src/JavaScript_pi.cpp:607-652 | wherever its console stands in the order in which consoles are asked |
| Handling.Reports | src/JavaScriptgui_impl.cpp:345-362 | an event of each of these three sorts for an entry that can be called is not lost but handled as its sort is |
| Handling.AlertDismissedExactly | src/JSExtensions.cpp:144-153 | dismissing an alert takes it away, and wraps the console up with DONE if and only if nothing is registered and no box is pointed to |
| Handling.RunPressed | src/JavaScriptgui_impl.cpp:206-225 | the button starts the script of a console where it says Run, and where it says Stop ends it, to be reported as STOPPED |
| Handling.PendingHandled | src/JavaScriptgui_impl.h:482-498 | the first run that was asked for comes up, with the brief it was asked for with, and with the same two cases |
| Handling.ChainQueued | src/JavaScriptgui_impl.h:891-896 | a main script that ends in a call that chains sends nothing; the next script is queued behind the runs it has asked for, for the same registration of the same console, with a brief exactly if the call gave one |
| Answering.ReplyArrives | src/JavaScriptgui_impl.h:907-940 | a run that was asked for and that ends for good answers with the reason it has ended for: delivered, with the handler called, exactly if the console that asked still has its registration |
| Answering.ReplyCalled | src/JavaScriptgui_impl.h:919-938 | the handler of a reply finds its console without the registration, and what follows is as for every other handler |
| Answering.ExitFound | src/JavaScriptgui_impl.h:843-849 | the exit handler finds its console as it was, with the reason for its end on record |
| Protocol.RunAttempts | src/JavaScriptgui_impl.h:500-527 | whatever a script does, it leaves other consoles alone but for their cached answer and brief text, drops no pending run, no activity bit and no context, and never sets mRunningMain |
| Protocol.DownIsDead | src/JavaScriptgui_impl.h:797-802 | clearing down leaves the console idle and the number of live contexts strictly smaller, which is why the recursion of wrapping up and replying ends |
| Protocol.WrapUp | src/JavaScriptgui_impl.h:793-905 | ends (by the number of live contexts); no console comes to life, the others stay settled, and this one is idle afterwards unless the reason was MORETODO, when only its status changes |
| Protocol.Finish | src/JavaScriptgui_impl.h:889-905 | the end of a normal wrap-up leaves the console idle and everything settled |
| Protocol.Reply | src/JavaScriptgui_impl.h:907-940 | ends, with everything settled and the console that replied still idle |
| Protocol.AfterExecute | src/JavaScriptgui_impl.h:500-527 | after a handler, a console still busy is settled, and one that is not is never wrapped up with MORETODO |
| Events.Step | src/JavaScriptgui_impl.h:482-498 | after every event that ends, with any scripts, each console without a context has nothing to wait for and no cached answer hides something to wait for |
| Events.RunEvents | src/JavaScriptgui_impl.h:482-498 | the same after any run |
| Registrations.PerformOk | src/JavaScriptgui_impl.h:592-646 | every call of a script keeps the registry within 500 entries, its ids distinct and its menu families matched, and gives new ids to new entries only, even reading a dialogue, which takes its entry out and puts it back |
| OneShot.WrapUpInv | src/JavaScriptgui_impl.h:793-940 | wrapping up keeps the invariant over all consoles: distinct ids, no one-shot entry fired twice, no registration answered twice |
| OneShot.DeliveredInv | src/JavaScriptgui_impl.h:919-938 | a delivered reply uses up the registration it answers |
| Runs.OneShotRuns | src/JavaScriptgui_impl.h:592-646 | over any run of any scripts: no one-shot entry fires twice, no registration is answered twice, no registry exceeds its limit and no two entries share an id |
| Walks.WrapUpWalk | src/JavaScriptgui_impl.h:793-940 | whatever the single steps of wrapping up and replying keep is kept by wrapping up, through all the replies and further wrap-ups it sets off; what holds of all consoles may fail for the one in the middle of something |
| Walks.StepWalk | src/JavaScriptgui_impl.h:482-498 | the same for every event |
| Walks.RunWalk | src/JavaScriptgui_impl.h:482-498 | the same for every run |
| Quiescence.HandlerExact | src/JavaScriptgui_impl.h:680-700 | a handler that leaves more to do leaves its console properly waiting if and only if no call in it went over the limit or read an unknown dialogue |
| Quiescence.MainExact | src/JavaScriptgui_impl.h:450-480 | the same for the main script |
| Quiescence.PointerExactly | src/JSExtensions.cpp:325-358 | after a script that was not stopped and did not clear its console, the pointer to a message box is set if and only if the last box it showed was refused, or it showed none and the pointer was set before |
| Quiescence.PointerAfterHandler | src/JSExtensions.cpp:325-358 | so a handler that leaves more to do leaves it set exactly then |
| Dichotomy.IdleOrLingering | src/JavaScriptgui_impl.h:680-786 | after any run of scripts that pass functions where results are to be reported to, whatever errors they catch, every console is idle (no context, nothing to wait for, button Run) or alive with something to wait for, and then it waits as it should if and only if its button says Stop; a cached waiting answer is the true one |
| Dichotomy.IdleOrWaiting | src/JavaScriptgui_impl.h:680-786 | if the scripts also let the two errors that clear a console end them, every console is idle or waiting (context, something to wait for, button Stop) |
| Dichotomy.NothingStranded | src/JSExtensions.cpp:325-358 | if they let the refusal of a message box end them, every console that is not idle has something registered or an alert on display |
| Dichotomy.WrapUpCalm | src/JavaScriptgui_impl.h:793-905 | wrapping a console up, with all the replies this sets off, leaves every console idle or waiting |
| Exceptions.CaughtErrorLeavesRunButton | src/JSdialog.cpp:774-794 | a script that catches the error of reading an unknown dialogue and raises an alert ends neither idle nor waiting |
| Exceptions.UncallableReply | src/optional.cpp:298-300 | a reply to a registration that cannot be called leaves the other console as it should be if and only if that console had another registration, an alert or a message box before |
| Exceptions.UncallableRun | src/optional.cpp:284-327 | a run from the start in which it had not: the console is left alive, with nothing to wait for and the cached answer that it is waiting |
| Exceptions.RefusedBoxStrands | src/JSExtensions.cpp:325-358 | a run that leaves a console waiting with no box open, nothing registered and no alert, in which no listener, dialogue or alert does anything any more |
| Replies.WrapUpAnswers | src/JavaScriptgui_impl.h:889-940 | a final wrap-up that chains sends nothing and queues the next script for the same registration; any other attempts the reply that is due first, with the reason as changed by closing or by the exit handler, successfully exactly if the registration is still there, when its handler is called next; nothing is noted if no reply is due |
| Replies.WrapUpKeeps | src/JavaScriptgui_impl.h:793-940 | wrapping up loses no obligation of another console |
| Carriers.OneCarrierRuns | src/JavaScriptgui_impl.h:895-940 | after any run of any scripts, the id of a registration is carried by or for one console only, by its brief or by runs it has been asked for |
| Obligations.StepExactly | src/JavaScriptgui_impl.h:482-498 | after one event a reply that was accounted for is so still - unless the event is a pending run that finds its console alive, and stops it, or starts it over where its button wrongly says Run, and the run, or the console, was the last to carry it; then nobody carries it any more and no reply has been attempted |
| Obligations.RepliesExactly | src/JavaScriptgui_impl.h:482-498 | from any point of a run on, whatever scripts do, a reply that is owed is at the end still owed or has been attempted, through any number of chained scripts, if and only if no such pending run came up on the way |
| Dropped.RunForgets | src/JavaScriptgui_impl.h:793-940 | a reply that has been lost is never attempted later, whatever happens |
| Exceptions.LostReply | src/JavaScriptgui_impl.h:482-498 | A awaits the result of B, the user runs B, and then the run of B that A asked for comes up: B is stopped, and A waits for a reply that no later run attempts |
| ActivityBits.NoArrivalIgnored | src/JavaScript_pi.cpp:511-591 | over any run of any scripts, whenever an entry with an activity bit is registered anywhere its bit is on |
| ActivityBits.DispatchedBits | src/JavaScript_pi.cpp:677-757 | the loops that clear a bit first and set it again at the first listener leave it right, also when handlers register meanwhile |
| Firings.WrapUpFires | src/JavaScriptgui_impl.h:793-940 | while a console is wrapped up handlers are called only in other consoles, and only in ones that had a context |
| Dispatching.DispatchExact | src/JavaScript_pi.cpp:524-549 | if the calls that the loop makes edit no registry, it ends; each of these listeners was called exactly once in order and exactly the others and the persistent ones remain in order, or exactly the first k were called and the console has been wrapped up |
| Dispatching.DispatchTicks | src/JavaScript_pi.cpp:524-549 | the loop makes no more calls than JavaScript is called in its course |
| Loops.LoopSteady | src/JavaScript_pi.cpp:524-549 | the same from any index on, for whatever keeps the registry unedited |
| Arrivals.AllServed | src/JavaScript_pi.cpp:511-550 | the same for the loop over all consoles, in which the turn of one console can call reply handlers in another |
| Arrivals.ArrivalInRun | src/JavaScript_pi.cpp:511-591 | an arrival at any point of any run of scripts that pass functions where results are to be reported to, if no call made in its course edits a registry: the event ends, and in every console each handler registered for it has been called exactly once in order, the others and the persistent ones remain in order, except for registrations answered meanwhile - or exactly the first k have been called and the console is idle |
| Listeners.ArrivalReaches | src/JavaScript_pi.cpp:511-591 | in the same runs, for each entry that is not one for a reply: if it is of another kind, for another sentence, or for mouse events none of which has occurred, its handler is not called and it stays; if it is for the arrival its handler is called once, and it stays exactly if it is persistent - unless the console is wrapped up, when it is called once or not at all |
| Listeners.ServedReaches | src/JavaScript_pi.cpp:677-757 | the same for one console and one arrival, whatever led there |
| Listeners.BitGoesOff | src/JavaScript_pi.cpp:517-518 | an arrival for which nobody listens calls nobody and leaves its activity bit off |
| Relistening.DispatchEndsExactly | src/JavaScript_pi.cpp:524-549 | if the next calls only register again for the very arrival, any number of times, and end well or not: for any registry and any number of calls granted, the loop ends within them if and only if after some number of calls there are no more to make for those who wanted it and those who registered since, or the call fails or goes over the limit |
| Relistening.OneListenerEnds | src/JavaScript_pi.cpp:524-549 | one one-shot listener whose handlers register at most once again: the loop ends if and only if one of the calls does not, or fails |
| Relistening.RenewedForever | src/JavaScript_pi.cpp:524-549 | one-shot listeners whose handlers all register once again: it does not end |
| Relistening.NeverReturns | src/JavaScript_pi.cpp:511-550 | a run from the start after which the arrival of a sentence is an event that does not end, however many calls it is granted |
| Consoles.Console.NewCallbackEntry | src/JavaScriptgui_impl.h:592-626 | appends the entry, or at 500 entries clears the console and throws |
| Consoles.Console.GetCallbackEntry | src/JavaScriptgui_impl.h:628-646 | finds the first entry with the id and takes it out unless it is to stay |
| Consoles.Console.GetCallbackEntryByType | src/JavaScriptgui_impl.h:648-667 | the same by kind |
| Consoles.Console.CancelCallbacksByType | src/functions.cpp:66-74 | the do-while loop, with the entry held from pass to pass, is the loop that Callbacks.CancelTypeExact is about |
| Consoles.Console.CancelCallback | src/functions.cpp:75-84 | cancelling one id, of which Callbacks.CancelIdKeeps tells |
| Consoles.Console.TakeMenuItem | src/JavaScript_pi.cpp:616-621 | the lookup of a chosen item, of which Callbacks.OneShotFamilyGoes tells |
| Consoles.Console.IsWaiting | src/JavaScriptgui_impl.h:720-743 | answers from the cache if that is valid and otherwise looks and caches |
| Consoles.Console.ClearCallbacks | src/JavaScriptgui_impl.h:680-700 | everything to wait for goes, and the button says Run |
| Consoles.Console.Afterwards | src/JavaScriptgui_impl.h:749-786 | the order of precedence of the outcomes, and what each leaves in the cache |
| Consoles.Console.AddMenuItems | src/OPCNapis.cpp:648-673 | items are registered with their owner one by one up to the first that cannot be called |
| Consoles.Console.ReadDialogue | src/JSdialog.cpp:774-794 | the entry of a dialogue is taken out and put back at the end, or the console is cleared and an error thrown |
| Consoles.Console.Perform | src/JSExtensions.cpp:535-575 | any one call of a script that concerns its own console alone |
| Plugin.Plugin.AwaitResult | src/optional.cpp:284-327 | onConsoleResult: registers, and keeps the registration even when it then throws because the target is unknown or busy |
| Plugin.Plugin.RunConsole | src/optional.cpp:249-282 | consoleRun: hands on whatever brief the target holds |
| Plugin.Plugin.ExecuteCallable | src/JavaScriptgui_impl.h:500-527 | a handler is called unless an error is on record or it cannot be called |
| Plugin.Plugin.RunMain | src/JavaScriptgui_impl.h:450-480 | a fresh context and the main script |
| Plugin.Plugin.WrapUp | src/JavaScriptgui_impl.h:793-905 | the method ends, and leaves all consoles as Protocol.WrapUp says |
| Plugin.Plugin.Finish | src/JavaScriptgui_impl.h:889-905 | the same for the end of a normal wrap-up |
| Plugin.Plugin.Reply | src/JavaScriptgui_impl.h:907-940 | the same for the reply |
| Plugin.Plugin.DoRunCommand | src/JavaScriptgui_impl.h:482-498 | the label of the button decides between running and stopping |
| Plugin.Plugin.HandleListener | src/JavaScriptgui_impl.cpp:345-362 | a timer or other listener fires its entry and wraps the console up unless it is busy |
| Plugin.Plugin.OnButton | src/JSdialog.cpp:138-177 | a dialogue button fires its entry and wraps the console up with whatever outcome |
| Plugin.Plugin.OnDismissAlert | src/JSExtensions.cpp:144-153 | dismissing an alert wraps the console up unless it waits for something else |
| Plugin.Plugin.OnContextMenuItem | src/JavaScript_pi.cpp:607-652 | every waiting console is asked for the chosen item |
| Plugin.Plugin.DispatchIn | src/JavaScript_pi.cpp:524-549 | the loop that erases one-shot entries where they stand and holds the index back is the one that Dispatching.DispatchExact is about |
| Plugin.Plugin.DispatchAll | src/JavaScript_pi.cpp:511-550 | nothing is looked at if the activity bit is off; otherwise it is cleared and every waiting console is gone through |
| Scanner.CountBraceDelta | src/JavaScriptgui_impl.cpp:551-592 | the scanning loop, with its skips, its lookahead and its early end, counts the brackets that the automaton meets in code, of each kind, and leaves the comment flag in which the automaton ends |
| Scanner.OneChar | src/JavaScriptgui_impl.cpp:557-590 | one step of the loop is one step of the automaton, but for a slash or star that proves harmless |
| Scanner.RestIsComment | src/JavaScriptgui_impl.cpp:573-574 | nothing behind a line comment counts, so the loop may end there |
| Brackets.PlainCounts | src/JavaScriptgui_impl.cpp:584-590 | in text without quotes or comments the count of each kind is the number of its opening less the number of its closing brackets |
| Brackets.QuotedCounts | src/JavaScriptgui_impl.cpp:575-583 | a text in quotes of one sort, with no such quote or line end in it, counts for nothing, and code goes on after it |
| Brackets.BlockCounts | src/JavaScriptgui_impl.cpp:561-572 | so does a block comment, on however many lines |
| Brackets.LineCommentCounts | src/JavaScriptgui_impl.cpp:573-574 | and a comment to the end of the line |
| Reflow.LinesAreOneText | src/JavaScriptgui_impl.cpp:605-615 | the comment flag handed from line to line and the depth added up are those of one automaton run over the whole text before the line |
| Reflow.TabStops | src/JavaScriptgui.cpp:95-97 | a blank is one column and a tab goes on to the next fifth |
| Reflow.BlanksDoNotMatter | src/JavaScriptgui_impl.cpp:551-592 | leading blanks change neither the deltas of a line nor its outgoing flag |
| Reflow.ReflowKeepsBodies | src/JavaScriptgui_impl.cpp:635-643 | a reflow keeps every line behind its leading blanks and gives it the final indent |
| Reflow.BlanksMakeNoDifference | src/JavaScriptgui_impl.cpp:594-643 | the reflowed form does not depend on how the script was indented |
| Reflow.ReflowIdempotent | src/JavaScriptgui_impl.cpp:594-643 | reflowing a reflowed script changes nothing |
| Reflow.SomeLineAtZero | src/JavaScriptgui_impl.cpp:635-643 | some line of a reflowed script is not indented |
| Reflow.ReflowedIndents | src/JavaScriptgui_impl.cpp:605-643 | every line is indented by five columns for each open bracket if and only if no line starts with more brackets closed than opened |
| Reflow.IncrementalIsBatch | src/JavaScriptgui_impl.cpp:656-669 | in a reflowed script, indenting a line as a new one gives it the indent it has, if the line before it starts outside a block comment |
| Reflow.IncrementalExactly | src/JavaScriptgui_impl.cpp:656-669 | otherwise if and only if the line before counts the same as code, or for less and this line is at zero |
| Reflow.CommentMisleads | src/JavaScriptgui_impl.cpp:662-664 | a bracket in a comment begun earlier does make a difference |
| Reflow.TypingIsReflowing | src/JavaScriptgui_impl.cpp:594-669 | a script typed line by line is its reflowed form if and only if no line starts with more brackets closed than opened, and each line counts the same when taken for code, or for less and the next one starts with none open |
| Profiles.TypedIndentIs | src/JavaScriptgui_impl.cpp:661-666 | typing, which cuts off at zero line by line, measures each depth from the lowest so far |
| ScriptPanes.RawIndents | src/JavaScriptgui_impl.cpp:605-615 | the first pass: each raw indent less the minimum is the final indent, and the brackets counted are those of the whole text |
| ScriptPanes.ScriptPane.FormatIndentation | src/JavaScriptgui_impl.cpp:594-643 | the two passes give the reflowed form and a report on all brackets |
| ScriptPanes.ScriptPane.OnScriptCharAdded | src/JavaScriptgui_impl.cpp:656-669 | a line end indents the line it started, any other character changes nothing |
| ScriptPanes.ScriptPane.TypeLine | src/JavaScriptgui_impl.cpp:656-669 | a further line typed in continues what Reflow.TypingIsReflowing is about |
| ScriptPanes.SilentMeansBalanced | src/JavaScriptgui_impl.cpp:617-633 | a reflow reports nothing if and only if every kind of bracket balances |
| ScriptPanes.ScriptPane.Report | src/JavaScriptgui_impl.cpp:617-633 | exactly the kinds that do not balance, and exactly the pairs of kinds out of balance in opposite directions |
| Lots.PackedApart | src/functions.cpp:500-509 | packed lots are in order and do not overlap |
| Parking.PackedMeans | src/functions.cpp:500-509 | the first lot is at the inset and each next one starts exactly a separation after the edge of the one before |
| Parking.RepackedRow | src/functions.cpp:483-510 | a review keeps the lots, their widths and their order, and leaves the row packed |
| Parking.ReviewMoves | src/functions.cpp:500-509 | every console flagged as parked goes to its lot, wherever it is; a console without a lot is left alone |
| Parking.ReviewIdempotent | src/functions.cpp:483-510 | a second review changes nothing, whichever sorted lists the two sorts return |
| Parking.ReviewOfPacked | src/functions.cpp:483-510 | a packed row, level and with its parked windows in place, is left exactly as it is |
| Parking.ReviewKeepsPackedLots | src/functions.cpp:483-510 | wherever the windows are, reviewing a packed row leaves every lot where it is |
| Parking.FirstLot | src/JavaScriptgui_impl.h:1056-1080 | a lot given to a console parked for the first time leaves the row packed, as the batch re-packer would have it |
| Parking.ParkingRow.ReviewParking | src/functions.cpp:483-510 | the row in some order sorted by place, each lot moved up to the one before |
| Parking.ParkingRow.Rightmost | src/JavaScriptgui_impl.h:1056-1073 | looking at all other consoles in any order finds the right edge of the last lot |
| Parking.ParkingRow.Park | src/JavaScriptgui_impl.h:1027-1085 | the row stays packed, longer by this console if it had no lot; the console is at its lot, and its old place is remembered |
| Parking.ParkingRow.UnPark | src/JavaScriptgui_impl.h:1087-1110 | the console goes home and keeps its lot; if shift is down it loses the lot, the row is packed without it, and the others are as after every review |
| Parking.ParkingRow.DeleteMe | src/JavaScriptgui_impl.h:1126-1141 | refused for the only console or a busy one; otherwise the row is closed up, and of the others each keeps its flags, home and width and is at its lot if it is parked and where it was otherwise |
| Parking.ParkingRow.Rename | src/JSExtensions.cpp:688-700 | the row stays packed with the new width, in the same order; the console is still parked exactly if it was found in place, and is then at its lot; the others are as after every review |
| Parking.ParkingRow.IsParked | src/JavaScriptgui_impl.h:1112-1125 | a window four or more off its lot counts as parked no longer |
| OutputPanes.OutputPane.LimitOutput | src/JSExtensions.cpp:61-81 | text over the limit is cut to its end, from a line start if there is one near the top, below the note |
| OutputPanes.LimitedExactly | src/JSExtensions.cpp:61-81 | of the last 100000 characters exactly those up to the first line end among the first hundred are dropped, and none if there is no line end there |
| OutputPanes.ShownIs | src/JSExtensions.cpp:61-81 | after any appends the pane shows all of the text if that is within the limit, and otherwise the note and exactly the last so many characters, at least 99900, from a line start unless no line ends in the first hundred of them; it never holds more than 100024 |
| OutputPanes.CutAgain | src/JSExtensions.cpp:66-72 | a cut through the note of an earlier cut always removes the rest of it |
| FileLists.FileLists.UpdateRecentFiles | src/JavaScriptgui_impl.cpp:33-43 | the update in place; recents stay distinct, at most ten and no favourites |
| FileLists.FileLists.Promote | src/fileOrganiser.cpp:188-193 | a recent file becomes a favourite, and both lists stay as they should |
| FileLists.FileLists.DropFavourite | src/fileOrganiser.cpp:185-187 | a favourite is dropped, and both lists stay as they should |
| FileLists.RecentsAreFirstTen | src/JavaScriptgui_impl.cpp:33-43 | for given favourites, the list is the first ten of the unlimited list of accesses |
| FileLists.UnlimitedElements | src/JavaScriptgui_impl.cpp:33-43 | that list has every file ever accessed that is no favourite, once |
| FileLists.UnlimitedByAge | src/JavaScriptgui_impl.cpp:33-43 | with the most recently accessed first |
| FileLists.AddSorted | src/JavaScript_pi.h:167 | adding to the sorted array keeps it sorted and adds just the one |
| FileLists.LessMeans | src/JavaScript_pi.h:167 | the order is that of the first characters that differ, the beginning of a name coming before the name |
| ConfigNames.CheckConsoleName | src/functions.cpp:463-481 | accepts exactly the names of 1 to 14 characters a to z, A to Z, 0 to 9 and underscore that no other console has |
| ConfigNames.SaveNames | src/JavaScript_pi.cpp:460-465 | the list as the names with colons between |
| ConfigNames.LoadNames | src/JavaScript_pi.cpp:336-342 | the tokens of the list |
| ConfigNames.NamesComeBack | src/JavaScript_pi.cpp:336-342 | the list comes back if and only if no name has a colon and the last is not empty |
| ConfigNames.CheckedNamesComeBack | src/functions.cpp:463-481 | so names that were checked come back |
| ConfigNames.KeyInjective | src/JavaScript_pi.cpp:463-465 | the keys of two settings are equal only if console and field are |
| ConfigNames.SettingsComeBack | src/JavaScript_pi.cpp:460-503 | every setting of every console reads back as written |
| Nmea.NMEAchecksum | src/functions.cpp:372-384 | the loop computes the sum over what is behind the first character and before the first star; there is none if the star comes first |
| Nmea.CheckNMEAsum | src/functions.cpp:386-392 | the check as the code makes it, with its trimming and its short cases |
| Nmea.HexIsNumber | src/functions.cpp:384 | the two characters are the hexadecimal digits of the sum, the high one first |
| Nmea.XorIsParity | src/functions.cpp:381-383 | a bit of the sum is set exactly if an odd number of characters have it |
| Nmea.TrimExactly | src/functions.cpp:387 | trimming drops exactly the white space at the end |
| Nmea.SumVerifies | src/functions.cpp:372-392 | a star-free sentence of seven or more characters with its sum behind it verifies |
| Nmea.OneChange | src/functions.cpp:372-392 | after one character but the first has been changed it verifies if and only if the low bytes are the same |
| Nmea.ChangeNoticed | src/functions.cpp:372-392 | so every change of one eight-bit character is noticed |
| Nmea.ShortVerifies | src/functions.cpp:375-391 | of texts shorter than seven characters exactly those whose first star is their last character verify |

## Left out

- Dichotomy.IdleOrWaiting: speaks of scripts that do not catch the two errors which clear a console; for all others there is `Dichotomy.IdleOrLingering`, and for what leaves the button wrong `Quiescence.HandlerExact` and `Quiescence.MainExact`.
- Dichotomy.IdleOrLingering: speaks of scripts that pass functions to `onConsoleResult`; what happens otherwise is `Exceptions.UncallableReply`.
- Dispatching.DispatchExact: is about calls that do not register, cancel or read dialogues; for those that register for the same arrival there is `Relistening.DispatchEndsExactly`, and for all others `Plugin.Plugin.DispatchIn` gives the loop and `ActivityBits.NoArrivalIgnored` and `Runs.OneShotRuns` still hold.
- Plugin.Plugin.DispatchIn: takes a number of passes it is granted, since the loop of the source need not end; an event that does not end within them is not an event of a run.
- Plugin.Plugin.OnMenuItem: nothing is bound to the owner of a submenu, and its id is passed over; for the same reason no event of a run names the id of one, although `Plugin.Plugin.HandleListener` and `Plugin.Plugin.OnButton` do with it what the source would.
- Plugin.Plugin.RunConsole: an unknown name throws in the model; the source goes on with a null console.
- Nmea.NMEAchecksum: of a text of seven or more characters that starts with a star the sum is undefined in the model; the source then steps past the end of an empty string.
- Parking.ParkingRow.Drag: a window that stays in the row is not dragged sideways; resizing is not modelled.
- Parking.ParkingRow.Park: heights and the scaling between physical and device-independent pixels are not modelled; the window takes its minimum width exactly, and the inset and separation are not negative.
- ScriptPanes.ScriptPane.SetLineIndentation: always rewrites the leading blanks; the editor component leaves them alone if they amount to the same columns.
- Modal message boxes and dialogues during which further events arrive; a message box is answered at once.
- Control ids come from one counter; the platform reuses none that is in use.
- The texts of briefs, results and messages, timers' intervals, the arguments handlers are called with, and whether a mouse event is passed through.
- Creating, closing and renaming consoles while scripts run; consoles are created before a run of events. Closing the last console and the closing of the whole program.
- An empty main script, failure to create a JavaScript heap, and running out of memory.
- The alerts that saving the configuration clears away.
- Deleters that run again while a registry is being cleared as a whole.
- Widgets, lexer colouring, file dialogs, the clipboard, sockets, IPC, downloads and process execution: library calls without a state of their own here.
- The editor component under `scintilla/` and the JavaScript interpreter, which are libraries.
- NMEA 2000 payloads, the version comparison of the update script, and the sample scripts.
