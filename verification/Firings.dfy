/** Whose handlers are called while a console is wrapped up. */
module Firings {
  import opened Wrappers
  import opened Callbacks
  import opened Lifecycle
  import opened Protocol
  import opened Walks

  /** Since this log only handlers of these consoles have been called. */
  ghost predicate FiredWithin(log: seq<Note>, log': seq<Note>, names: set<string>) {
    log <= log' && forall k :: |log| <= k < |log'| && log'[k].Fired? ==> log'[k].console in names
  }

  /** Only handlers of these consoles have been called, and only these are alive, the console
      in the middle of something left out of account. */
  ghost function Firing(log: seq<Note>, names: set<string>): Kept {
    Kept((s, n) => Live(s) - {n} <= names && FiredWithin(log, s.log, names),
         (s, n) => Live(s) <= names && FiredWithin(log, s.log, names),
         (s: System) => FiredWithin(log, s.log, names))
  }

  lemma MoreFired(log: seq<Note>, log': seq<Note>, notes: seq<Note>, names: set<string>)
    requires FiredWithin(log, log', names) && forall k :: 0 <= k < |notes| && notes[k].Fired? ==> notes[k].console in names
    ensures FiredWithin(log, log' + notes, names)
  {
  }

  lemma AnsweredFires(log: seq<Note>, names: set<string>, sys: System, n: string, reason: Completion, js: Scripts)
    requires Downed(sys, n) && Collect(sys, n).1.Some? && Live(sys) <= names && FiredWithin(log, sys.log, names)
    ensures var s := Answered(sys, n, reason, js).0; Live(s) <= names && FiredWithin(log, s.log, names)
  {
    var brief := sys.cons[n].brief;
    var t := Delivered(sys, n, reason);
    assert brief.caller in Live(t);
    MoreFired(log, sys.log, ReplyNotes(n, brief, reason, Collect(sys, n).1.value), names);
  }

  lemma FiringSteps(log: seq<Note>, names: set<string>, js: Scripts)
    ensures WrapSteps(Firing(log, names), js)
  {
    var k := Firing(log, names);
    forall s, n {:trigger k.due(Down(s, n), n)} | Amid(s, n) && k.but(s, n) ensures k.due(Down(s, n), n) {
      DownIsDead(s, n);
    }
    forall s, n {:trigger k.all(Chained(s, n))} | Downed(s, n) && k.due(s, n) ensures k.all(Chained(s, n)) {
    }
    forall s, n, reason {:trigger k.all(Unanswered(s, n, reason))} |
        Downed(s, n) && k.due(s, n) && s.cons[n].brief.callbackId != 0 && Collect(s, n).1.None?
      ensures k.all(Unanswered(s, n, reason))
    {
      MoreFired(log, s.log, [Replied(n, s.cons[n].brief.callbackId, reason, false)], names);
    }
    forall s, n, reason {:trigger Answered(s, n, reason, js)} |
        Downed(s, n) && k.due(s, n) && s.cons[n].brief.callbackId != 0 && Collect(s, n).1.Some?
      ensures var r := Answered(s, n, reason, js); if r.1 then k.all(r.0) else k.but(r.0, s.cons[n].brief.caller)
    {
      AnsweredFires(log, names, s, n, reason, js);
    }
  }

  /** While console n is wrapped up, handlers are called only in consoles that were alive, and
      in n itself none any more. */
  lemma WrapUpFires(sys: System, n: string, reason: Completion, js: Scripts)
    requires n in sys.cons && sys.cons[n].ctx && SettledBut(sys, n)
    ensures FiredWithin(sys.log, WrapUp(sys, n, reason, js).log, Live(sys) - {n})
  {
    FiringSteps(sys.log, Live(sys) - {n}, js);
    WrapUpWalk(Firing(sys.log, Live(sys) - {n}), sys, n, reason, js);
  }
}
