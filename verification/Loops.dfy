/** A loop over the registry of one console that reads the registry afresh in every pass: how
    it goes, apart from what the handlers it calls do. */
module Loops {
  import opened Wrappers
  import opened Callbacks
  import opened Lifecycle
  import opened Protocol
  import opened Events
  import opened Walks

  /** The entries that are called, in their order. */
  function Wanted(reg: seq<Entry>, kind: CallbackType, mouse: set<MouseEvent>): (r: seq<Entry>)
    ensures |r| <= |reg|
  {
    if reg == [] then []
    else if Wants(reg[0], kind, mouse) then [reg[0]] + Wanted(reg[1..], kind, mouse)
    else Wanted(reg[1..], kind, mouse)
  }

  /** The entries that stay: all but those that are called and are one-shot. */
  function Survivors(reg: seq<Entry>, kind: CallbackType, mouse: set<MouseEvent>): seq<Entry> {
    if reg == [] then []
    else if Wants(reg[0], kind, mouse) && !reg[0].persistent then Survivors(reg[1..], kind, mouse)
    else [reg[0]] + Survivors(reg[1..], kind, mouse)
  }

  function FiredNotes(n: string, entries: seq<Entry>): seq<Note> {
    seq(|entries|, k requires 0 <= k < |entries| => Fired(n, entries[k].id, entries[k].persistent))
  }

  /** Since this log no handler of console n has been called. */
  ghost predicate FiredElsewhere(log: seq<Note>, log': seq<Note>, n: string) {
    log <= log' && forall k :: |log| <= k < |log'| && log'[k].Fired? ==> log'[k].console != n
  }

  function Next(reg: seq<Entry>, i: nat): nat
    requires i < |reg|
  {
    if reg[i].persistent then i + 1 else i
  }

  /** The entry at i has been called: the console has been wrapped up, or it goes on with the
      rest of its registry. */
  ghost function FiredAt(sys: System, n: string, i: nat): (System, bool) -> bool
    requires n in sys.cons && i < |sys.cons[n].callbacks|
  {
    (t: System, wrapped: bool) =>
      var reg := sys.cons[n].callbacks;
      var note := Fired(n, reg[i].id, reg[i].persistent);
      && AllSettled(t) && n in t.cons && FiredElsewhere(sys.log + [note], t.log, n)
      && if wrapped then Idle(t.cons[n]) else t.cons[n].ctx && t.log == sys.log + [note] && t.cons[n].callbacks == After(reg, i)
  }

  lemma AfterFrom(reg: seq<Entry>, i: nat)
    requires i < |reg|
    ensures var j := Next(reg, i);
            |After(reg, i)| - j == |reg| - i - 1 && After(reg, i)[j..] == reg[i + 1..]
  {
  }

  ghost predicate Alive(s: System, n: string) {
    n in s.cons && s.cons[n].ctx && AllSettled(s)
  }

  /** How the loop goes from state s and position i with so many calls granted: skip is what a
      pass leads to that calls nobody, fire what a call leads to. */
  ghost function LoopLaw(run: (System, nat, nat) -> (System, nat, bool), skip: (System, nat) -> System, fire: (System, nat) -> (System, bool),
                         n: string, kind: CallbackType, mouse: set<MouseEvent>): (System, nat, nat) -> bool
  {
    (s: System, i: nat, passes: nat) =>
      Alive(s, n) ==>
        var reg := s.cons[n].callbacks;
        if i >= |reg| then run(s, i, passes) == (s, passes, true)
        else if !Wants(reg[i], kind, mouse) then
          var t := skip(s, i);
          AllSettled(t) && t.cons == s.cons && t.log == s.log && t.clock == s.clock && run(s, i, passes) == run(t, i + 1, passes)
        else if passes == 0 then run(s, i, passes) == (s, 0, false)
        else
          var f := fire(s, i);
          if f.1 then run(s, i, passes) == (f.0, passes - 1, true)
          else Alive(f.0, n) && run(s, i, passes) == run(f.0, Next(reg, i), passes - 1)
  }

  ghost predicate Everywhere(law: (System, nat, nat) -> bool) {
    forall s, i: nat, k: nat {:trigger law(s, i, k)} :: law(s, i, k)
  }

  /** What the loop does to console n from position i on, the first k of the entries that
      want the arrival having been called, and no other. */
  ghost predicate Dispatched(sys: System, s: System, n: string, i: nat, kind: CallbackType, mouse: set<MouseEvent>, k: nat)
    requires n in sys.cons && i <= |sys.cons[n].callbacks| && n in s.cons
  {
    var reg := sys.cons[n].callbacks;
    var wanted := Wanted(reg[i..], kind, mouse);
    && k <= |wanted| && FiredElsewhere(sys.log + FiredNotes(n, wanted[..k]), s.log, n)
    && if s.cons[n].ctx then
         && k == |wanted| && s.log == sys.log + FiredNotes(n, wanted)
         && s.cons[n].callbacks == reg[..i] + Survivors(reg[i..], kind, mouse)
       else Idle(s.cons[n]) && 1 <= k
  }

  lemma SkippedOne(sys: System, t: System, s: System, n: string, i: nat, kind: CallbackType, mouse: set<MouseEvent>, k: nat)
    requires n in sys.cons && i < |sys.cons[n].callbacks| && n in s.cons
    requires !Wants(sys.cons[n].callbacks[i], kind, mouse) && t.cons == sys.cons && t.log == sys.log
    requires Dispatched(t, s, n, i + 1, kind, mouse, k)
    ensures Dispatched(sys, s, n, i, kind, mouse, k)
  {
    var reg := sys.cons[n].callbacks;
    assert reg[i..][1..] == reg[i + 1..] && reg[i..][0] == reg[i];
    assert Wanted(reg[i..], kind, mouse) == Wanted(reg[i + 1..], kind, mouse);
    assert reg[..i + 1] + Survivors(reg[i + 1..], kind, mouse) == reg[..i] + ([reg[i]] + Survivors(reg[i + 1..], kind, mouse));
  }

  lemma MoreNotes(n: string, e: Entry, rest: seq<Entry>, log: seq<Note>)
    ensures log + FiredNotes(n, [e] + rest) == log + [Fired(n, e.id, e.persistent)] + FiredNotes(n, rest)
  {
    assert FiredNotes(n, [e] + rest) == [Fired(n, e.id, e.persistent)] + FiredNotes(n, rest);
  }

  lemma SurvivorsStep(reg: seq<Entry>, i: nat, kind: CallbackType, mouse: set<MouseEvent>)
    requires i < |reg| && Wants(reg[i], kind, mouse)
    ensures Wanted(reg[i..], kind, mouse) == [reg[i]] + Wanted(reg[i + 1..], kind, mouse)
    ensures var reg' := After(reg, i);
            var j := Next(reg, i);
            reg'[j..] == reg[i + 1..] &&
            reg'[..j] + Survivors(reg[i + 1..], kind, mouse) == reg[..i] + Survivors(reg[i..], kind, mouse)
  {
    assert reg[i..][1..] == reg[i + 1..] && reg[i..][0] == reg[i];
    if reg[i].persistent {
      assert reg[..i + 1] + Survivors(reg[i + 1..], kind, mouse) == reg[..i] + ([reg[i]] + Survivors(reg[i + 1..], kind, mouse));
    } else {
      assert RemoveAt(reg, i)[..i] == reg[..i];
    }
  }

  /** The entry at i has been called, t being the outcome, and then k of the later ones. */
  lemma FiredOne(sys: System, t: System, s: System, n: string, i: nat, j: nat, kind: CallbackType, mouse: set<MouseEvent>, k: nat)
    requires n in sys.cons && i < |sys.cons[n].callbacks| && n in s.cons && n in t.cons
    requires var reg := sys.cons[n].callbacks;
             && Wants(reg[i], kind, mouse)
             && t.log == sys.log + [Fired(n, reg[i].id, reg[i].persistent)]
             && t.cons[n].callbacks == After(reg, i)
             && j == Next(reg, i)
    requires Dispatched(t, s, n, j, kind, mouse, k)
    ensures Dispatched(sys, s, n, i, kind, mouse, k + 1)
  {
    var reg := sys.cons[n].callbacks;
    var e, rest := reg[i], Wanted(reg[i + 1..], kind, mouse);
    SurvivorsStep(reg, i, kind, mouse);
    assert ([e] + rest)[..k + 1] == [e] + rest[..k];
    MoreNotes(n, e, rest[..k], sys.log);
    if k == |rest| {
      assert rest[..k] == rest && ([e] + rest)[..k + 1] == [e] + rest;
    }
  }

  lemma WrappedNow(sys: System, s: System, n: string, i: nat, kind: CallbackType, mouse: set<MouseEvent>)
    requires n in sys.cons && i < |sys.cons[n].callbacks| && n in s.cons && Idle(s.cons[n])
    requires var e := sys.cons[n].callbacks[i];
             Wants(e, kind, mouse) && FiredElsewhere(sys.log + [Fired(n, e.id, e.persistent)], s.log, n)
    ensures Dispatched(sys, s, n, i, kind, mouse, 1)
  {
    var reg := sys.cons[n].callbacks;
    assert reg[i..][0] == reg[i];
    var wanted := Wanted(reg[i..], kind, mouse);
    assert FiredNotes(n, wanted[..1]) == [Fired(n, reg[i].id, reg[i].persistent)];
  }

  /** Whatever it is that makes a system good for so many calls more: calling the handler of
      the entry at i of console n, if it wants the arrival, keeps it so, for one call less, and
      does not edit the registry; and passing over an entry keeps it so. */
  ghost function SteadyAt(good: (System, nat) -> bool, skip: (System, nat) -> System, fire: (System, nat) -> (System, bool),
                          n: string, kind: CallbackType, mouse: set<MouseEvent>): (System, nat, nat) -> bool
  {
    (s: System, i: nat, more: nat) =>
      good(s, more) && Alive(s, n) && i < |s.cons[n].callbacks| ==>
        if !Wants(s.cons[n].callbacks[i], kind, mouse) then good(skip(s, i), more)
        else more > 0 ==> var f := fire(s, i); FiredAt(s, n, i)(f.0, f.1) && (!f.1 ==> good(f.0, more - 1))
  }

  /** What the loop from position i on, with so many passes granted, has come to. */
  ghost function Through(sys: System, n: string, i: nat, kind: CallbackType, mouse: set<MouseEvent>, passes: nat): ((System, nat, bool), nat) -> bool
    requires n in sys.cons && i <= |sys.cons[n].callbacks|
  {
    (r: (System, nat, bool), k: nat) =>
      r.2 && r.1 == passes - k && n in r.0.cons && Dispatched(sys, r.0, n, i, kind, mouse, k)
  }

  lemma NothingLeft(sys: System, n: string, i: nat, kind: CallbackType, mouse: set<MouseEvent>)
    requires n in sys.cons && sys.cons[n].ctx && i == |sys.cons[n].callbacks|
    ensures Dispatched(sys, sys, n, i, kind, mouse, 0)
  {
    var reg := sys.cons[n].callbacks;
    assert reg[..i] + Survivors(reg[i..], kind, mouse) == reg;
    assert FiredNotes(n, []) == [] && sys.log + [] == sys.log;
  }

  lemma WantedStep(reg: seq<Entry>, i: nat, kind: CallbackType, mouse: set<MouseEvent>)
    requires i < |reg|
    ensures Wanted(reg[i..], kind, mouse) == if Wants(reg[i], kind, mouse) then [reg[i]] + Wanted(reg[i + 1..], kind, mouse) else Wanted(reg[i + 1..], kind, mouse)
  {
    assert reg[i..][1..] == reg[i + 1..] && reg[i..][0] == reg[i];
  }

  /** As long as handlers keep the registry as SteadyAt says, for as many calls as the loop
      makes, it goes through the entries that want the arrival, in order, until it has called
      them all or the console has been wrapped up. */
  lemma {:induction false} LoopSteady(good: (System, nat) -> bool, steady: (System, nat, nat) -> bool, law: (System, nat, nat) -> bool,
                                      run: (System, nat, nat) -> (System, nat, bool), skip: (System, nat) -> System,
                                      fire: (System, nat) -> (System, bool), sys: System, n: string, i: nat, kind: CallbackType,
                                      mouse: set<MouseEvent>, passes: nat, more: nat) returns (k: nat)
    requires law == LoopLaw(run, skip, fire, n, kind, mouse) && Everywhere(law)
    requires steady == SteadyAt(good, skip, fire, n, kind, mouse) && Everywhere(steady)
    requires forall s, j: nat, p: nat {:trigger run(s, j, p)} :: run(s, j, p).1 <= p
    requires Alive(sys, n) && i <= |sys.cons[n].callbacks| && good(sys, more)
    requires passes >= |Wanted(sys.cons[n].callbacks[i..], kind, mouse)| && more == passes - run(sys, i, passes).1
    ensures Through(sys, n, i, kind, mouse, passes)(run(sys, i, passes), k)
    decreases |sys.cons[n].callbacks| - i, 1
  {
    var reg := sys.cons[n].callbacks;
    assert law(sys, i, passes);
    if i == |reg| {
      k := 0;
      DoneThrough(sys, n, i, kind, mouse, passes);
    } else {
      WantedStep(reg, i, kind, mouse);
      assert steady(sys, i, more);
      if !Wants(reg[i], kind, mouse) {
        var t := skip(sys, i);
        k := LoopSteady(good, steady, law, run, skip, fire, t, n, i + 1, kind, mouse, passes, more);
        SkipThrough(sys, t, n, i, kind, mouse, passes, run(t, i + 1, passes), k);
      } else {
        k := LoopCalls(good, steady, law, run, skip, fire, sys, n, i, kind, mouse, passes, more);
      }
    }
  }

  /** The same, where an entry that wants the arrival is next. */
  lemma {:induction false} LoopCalls(good: (System, nat) -> bool, steady: (System, nat, nat) -> bool, law: (System, nat, nat) -> bool,
                                     run: (System, nat, nat) -> (System, nat, bool), skip: (System, nat) -> System,
                                     fire: (System, nat) -> (System, bool), sys: System, n: string, i: nat, kind: CallbackType,
                                     mouse: set<MouseEvent>, passes: nat, more: nat) returns (k: nat)
    requires law == LoopLaw(run, skip, fire, n, kind, mouse) && Everywhere(law)
    requires steady == SteadyAt(good, skip, fire, n, kind, mouse) && Everywhere(steady)
    requires forall s, j: nat, p: nat {:trigger run(s, j, p)} :: run(s, j, p).1 <= p
    requires Alive(sys, n) && i < |sys.cons[n].callbacks| && Wants(sys.cons[n].callbacks[i], kind, mouse) && good(sys, more)
    requires passes >= |Wanted(sys.cons[n].callbacks[i..], kind, mouse)| && more == passes - run(sys, i, passes).1
    ensures Through(sys, n, i, kind, mouse, passes)(run(sys, i, passes), k)
    decreases |sys.cons[n].callbacks| - i, 0
  {
    var reg := sys.cons[n].callbacks;
    WantedStep(reg, i, kind, mouse);
    assert law(sys, i, passes) && steady(sys, i, more);
    var f := fire(sys, i);
    if f.1 {
      k := 1;
      LastThrough(sys, f.0, n, i, kind, mouse, passes);
    } else {
      var j := Next(reg, i);
      assert more == 1 + (passes - 1 - run(f.0, j, passes - 1).1);
      FiredFrom(sys, f.0, n, i, j);
      k := LoopSteady(good, steady, law, run, skip, fire, f.0, n, j, kind, mouse, passes - 1, more - 1);
      NextThrough(sys, f.0, n, i, j, kind, mouse, passes, run(f.0, j, passes - 1), k);
      k := k + 1;
    }
  }

  lemma FiredFrom(sys: System, t: System, n: string, i: nat, j: nat)
    requires n in sys.cons && i < |sys.cons[n].callbacks| && FiredAt(sys, n, i)(t, false)
    requires j == Next(sys.cons[n].callbacks, i)
    ensures |t.cons[n].callbacks| - j == |sys.cons[n].callbacks| - i - 1 && t.cons[n].callbacks[j..] == sys.cons[n].callbacks[i + 1..]
  {
    AfterFrom(sys.cons[n].callbacks, i);
  }

  lemma LastThrough(sys: System, t: System, n: string, i: nat, kind: CallbackType, mouse: set<MouseEvent>, passes: nat)
    requires n in sys.cons && i < |sys.cons[n].callbacks| && Wants(sys.cons[n].callbacks[i], kind, mouse) && passes > 0
    requires FiredAt(sys, n, i)(t, true)
    ensures Through(sys, n, i, kind, mouse, passes)((t, passes - 1, true), 1)
  {
    WrappedNow(sys, t, n, i, kind, mouse);
  }

  lemma SkipThrough(sys: System, t: System, n: string, i: nat, kind: CallbackType, mouse: set<MouseEvent>, passes: nat, r: (System, nat, bool), k: nat)
    requires n in sys.cons && i < |sys.cons[n].callbacks| && !Wants(sys.cons[n].callbacks[i], kind, mouse)
    requires t.cons == sys.cons && t.log == sys.log && Through(t, n, i + 1, kind, mouse, passes)(r, k)
    ensures Through(sys, n, i, kind, mouse, passes)(r, k)
  {
    SkippedOne(sys, t, r.0, n, i, kind, mouse, k);
  }

  lemma DoneThrough(sys: System, n: string, i: nat, kind: CallbackType, mouse: set<MouseEvent>, passes: nat)
    requires Alive(sys, n) && i == |sys.cons[n].callbacks|
    ensures Through(sys, n, i, kind, mouse, passes)((sys, passes, true), 0)
  {
    NothingLeft(sys, n, i, kind, mouse);
  }

  lemma NextThrough(sys: System, t: System, n: string, i: nat, j: nat, kind: CallbackType, mouse: set<MouseEvent>, passes: nat,
                    r: (System, nat, bool), k: nat)
    requires n in sys.cons && i < |sys.cons[n].callbacks| && Wants(sys.cons[n].callbacks[i], kind, mouse) && passes > 0
    requires FiredAt(sys, n, i)(t, false) && j == Next(sys.cons[n].callbacks, i)
    requires j <= |t.cons[n].callbacks| && Through(t, n, j, kind, mouse, passes - 1)(r, k)
    ensures Through(sys, n, i, kind, mouse, passes)(r, k + 1)
  {
    FiredOne(sys, t, r.0, n, i, j, kind, mouse, k);
  }

  // ----- time -----

  /** Each call takes time, and what is good for passes and calls stays so. */
  ghost function TicksAt(good: System -> bool, skip: (System, nat) -> System, fire: (System, nat) -> (System, bool), n: string, kind: CallbackType,
                         mouse: set<MouseEvent>): (System, nat) -> bool
  {
    (s: System, i: nat) =>
      good(s) && Alive(s, n) && i < |s.cons[n].callbacks| ==>
        if !Wants(s.cons[n].callbacks[i], kind, mouse) then good(skip(s, i))
        else var f := fire(s, i); s.clock < f.0.clock && (!f.1 ==> good(f.0))
  }

  /** The loop makes no more calls than time passes. */
  lemma {:induction false} LoopTicks(good: System -> bool, ticks: (System, nat) -> bool, law: (System, nat, nat) -> bool,
                                     run: (System, nat, nat) -> (System, nat, bool), skip: (System, nat) -> System,
                                     fire: (System, nat) -> (System, bool), s: System, n: string, i: nat, kind: CallbackType,
                                     mouse: set<MouseEvent>, passes: nat)
    requires law == LoopLaw(run, skip, fire, n, kind, mouse) && Everywhere(law)
    requires ticks == TicksAt(good, skip, fire, n, kind, mouse) && forall t, j: nat {:trigger ticks(t, j)} :: ticks(t, j)
    requires Alive(s, n) && good(s)
    ensures run(s, i, passes).0.clock - s.clock >= passes - run(s, i, passes).1
    decreases passes, if n in s.cons then |s.cons[n].callbacks| - i else 0
  {
    assert law(s, i, passes);
    if i < |s.cons[n].callbacks| {
      assert ticks(s, i);
      if !Wants(s.cons[n].callbacks[i], kind, mouse) {
        LoopTicks(good, ticks, law, run, skip, fire, skip(s, i), n, i + 1, kind, mouse, passes);
      } else if passes > 0 && !fire(s, i).1 {
        LoopTicks(good, ticks, law, run, skip, fire, fire(s, i).0, n, Next(s.cons[n].callbacks, i), kind, mouse, passes - 1);
      }
    }
  }

  lemma SkipTicks(good: System -> bool, ticks: (System, nat) -> bool, skip: (System, nat) -> System, fire: (System, nat) -> (System, bool),
                  s: System, n: string, i: nat, kind: CallbackType, mouse: set<MouseEvent>)
    requires ticks == TicksAt(good, skip, fire, n, kind, mouse)
    requires good(s) && Alive(s, n) && i < |s.cons[n].callbacks| && !Wants(s.cons[n].callbacks[i], kind, mouse) && good(skip(s, i))
    ensures ticks(s, i)
  {
  }

  lemma FireTicks(good: System -> bool, ticks: (System, nat) -> bool, skip: (System, nat) -> System, fire: (System, nat) -> (System, bool),
                  s: System, n: string, i: nat, kind: CallbackType, mouse: set<MouseEvent>)
    requires ticks == TicksAt(good, skip, fire, n, kind, mouse)
    requires good(s) && Alive(s, n) && i < |s.cons[n].callbacks| && Wants(s.cons[n].callbacks[i], kind, mouse)
    requires s.clock < fire(s, i).0.clock && good(fire(s, i).0)
    ensures ticks(s, i)
  {
  }

  lemma IdleTicks(good: System -> bool, ticks: (System, nat) -> bool, skip: (System, nat) -> System, fire: (System, nat) -> (System, bool),
                  s: System, n: string, i: nat, kind: CallbackType, mouse: set<MouseEvent>)
    requires ticks == TicksAt(good, skip, fire, n, kind, mouse)
    requires !(good(s) && Alive(s, n) && i < |s.cons[n].callbacks|)
    ensures ticks(s, i)
  {
  }
}
