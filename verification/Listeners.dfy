/** Which listeners an arrival reaches, by what they have registered for: their kind, and the mask
    of mouse events or the sentence identifier. */
module Listeners {
  import opened Wrappers
  import opened Sequences
  import opened Callbacks
  import opened Lifecycle
  import opened Protocol
  import opened Events
  import opened Walks
  import opened Uniform
  import opened Registrations
  import opened OneShot
  import opened Quiescence
  import opened Dichotomy
  import opened Loops
  import opened Arrivals

  /** The entry is for this arrival: it is of that kind, if for NMEA 0183 then for any sentence, and
      if for mouse events then for one of those that have occurred. */
  predicate IsFor(e: Entry, kind: CallbackType, mouse: set<MouseEvent>) {
    match kind
    case N0183 => e.kind == N0183 && |e.ident| == 0
    case AIS => e.kind == AIS
    case MouseEvents => e.kind == MouseEvents && exists m :: m in e.mouseMask && m in mouse
    case _ => false
  }

  lemma WantsIsFor(e: Entry, kind: CallbackType, mouse: set<MouseEvent>)
    requires IsDispatched(kind)
    ensures Wants(e, kind, mouse) <==> IsFor(e, kind, mouse)
  {
    if m :| m in e.mouseMask && m in mouse {
      assert m in e.mouseMask * mouse;
    }
    if m :| m in e.mouseMask * mouse {
      assert m in e.mouseMask && m in mouse;
    }
  }

  lemma {:induction false} InWanted(reg: seq<Entry>, kind: CallbackType, mouse: set<MouseEvent>, e: Entry)
    requires IsDispatched(kind)
    ensures e in Wanted(reg, kind, mouse) <==> e in reg && IsFor(e, kind, mouse)
    ensures e in Survivors(reg, kind, mouse) <==> e in reg && !(IsFor(e, kind, mouse) && !e.persistent)
  {
    if reg != [] {
      InWanted(reg[1..], kind, mouse, e);
      WantsIsFor(reg[0], kind, mouse);
      assert e in reg <==> e == reg[0] || e in reg[1..];
    }
  }

  lemma {:induction false} WantedUnique(reg: seq<Entry>, kind: CallbackType, mouse: set<MouseEvent>)
    requires UniqueIds(reg)
    ensures UniqueIds(Wanted(reg, kind, mouse))
  {
    if reg != [] {
      WantedUnique(reg[1..], kind, mouse);
      WantedFrom(reg[1..], kind, mouse);
      var rest := Wanted(reg[1..], kind, mouse);
      forall j | 0 <= j < |rest| ensures rest[j].id != reg[0].id {
        assert rest[j] in rest;
      }
    }
  }

  // ----- the calls of one handler -----

  lemma {:induction false} CallsOfSome(log: seq<Note>, n: string, ids: set<int>, some: set<int>)
    requires some <= ids
    ensures CallsOf(CallsOf(log, n, ids), n, some) == CallsOf(log, n, some)
  {
    if log != [] {
      CallsOfSome(log[1..], n, ids, some);
      var first := if log[0].Fired? && log[0].console == n && log[0].id in ids then [log[0]] else [];
      CallsOfBoth(first, CallsOf(log[1..], n, ids), n, some);
      if first != [] {
        assert first[1..] == [];
      }
    }
  }

  lemma CallsOfOthers(n: string, entries: seq<Entry>, id: int)
    requires forall f :: f in entries ==> f.id != id
    ensures CallsOf(FiredNotes(n, entries), n, {id}) == []
  {
    var notes := FiredNotes(n, entries);
    forall k | 0 <= k < |notes| ensures notes[k].id !in {id} {
      assert entries[k] in entries;
    }
    NoCallsOf(notes, n, {id});
  }

  lemma CallsOfOne(n: string, entries: seq<Entry>, j: nat)
    requires UniqueIds(entries) && j < |entries|
    ensures CallsOf(FiredNotes(n, entries), n, {entries[j].id}) == [Fired(n, entries[j].id, entries[j].persistent)]
  {
    var e, a, b := entries[j], entries[..j], entries[j + 1..];
    assert FiredNotes(n, entries) == FiredNotes(n, a) + (FiredNotes(n, [e]) + FiredNotes(n, b));
    CallsOfOthers(n, a, e.id);
    CallsOfOthers(n, b, e.id);
    AllCallsOf(n, [e], {e.id});
    CallsOfBoth(FiredNotes(n, [e]), FiredNotes(n, b), n, {e.id});
    CallsOfBoth(FiredNotes(n, a), FiredNotes(n, [e]) + FiredNotes(n, b), n, {e.id});
    assert FiredNotes(n, [e]) == [Fired(n, e.id, e.persistent)];
  }

  // ----- who is reached -----

  /** What an arrival has done with an entry e that console n had registered for something other
      than a reply: if it is not for e, then e has not been called and is still there; if it is,
      then e has been called once, and is still there exactly if it is persistent - unless n has
      been wrapped up, when it has been called at most once. */
  ghost predicate Treated(sys: System, s: System, n: string, e: Entry, kind: CallbackType, mouse: set<MouseEvent>)
    requires n in s.cons && sys.log <= s.log
  {
    var calls, one := CallsOf(s.log[|sys.log|..], n, {e.id}), [Fired(n, e.id, e.persistent)];
    if !IsFor(e, kind, mouse) then calls == [] && (s.cons[n].ctx ==> e in s.cons[n].callbacks)
    else if s.cons[n].ctx then calls == one && (e in s.cons[n].callbacks <==> e.persistent)
    else calls == one || calls == []
  }

  lemma ServedReaches(sys: System, s: System, n: string, kind: CallbackType, mouse: set<MouseEvent>, k: nat, e: Entry)
    requires n in sys.cons && n in s.cons && Served(sys, s, n, kind, mouse, k) && IsDispatched(kind)
    requires UniqueIds(sys.cons[n].callbacks) && e in sys.cons[n].callbacks && e.kind != ConsoleReply
    ensures Treated(sys, s, n, e, kind, mouse)
  {
    var reg := sys.cons[n].callbacks;
    InWanted(reg, kind, mouse, e);
    NotAReply(reg, e);
    if IsFor(e, kind, mouse) {
      WantedCalled(sys, s, n, kind, mouse, k, e);
    } else {
      NotWanted(reg, kind, mouse, e);
      NoCallsOf(s.log[|sys.log|..], n, {e.id});
    }
    if s.cons[n].ctx {
      var gone :| gone <= ReplyIds(reg) && s.cons[n].callbacks == Keep(Survivors(reg, kind, mouse), gone);
      assert e in s.cons[n].callbacks <==> e in Survivors(reg, kind, mouse);
    }
  }

  lemma NotAReply(reg: seq<Entry>, e: Entry)
    requires UniqueIds(reg) && e in reg && e.kind != ConsoleReply
    ensures e.id !in ReplyIds(reg)
  {
    forall f | f in reg && f.kind == ConsoleReply ensures f.id != e.id {
      if f.id == e.id {
        SameId(reg, e, f);
      }
    }
  }

  lemma NotWanted(reg: seq<Entry>, kind: CallbackType, mouse: set<MouseEvent>, e: Entry)
    requires UniqueIds(reg) && e in reg && IsDispatched(kind) && !IsFor(e, kind, mouse)
    ensures e.id !in Ids(Wanted(reg, kind, mouse))
  {
    forall f | f in Wanted(reg, kind, mouse) ensures f.id != e.id {
      InWanted(reg, kind, mouse, f);
      if f.id == e.id {
        SameId(reg, e, f);
      }
    }
  }

  lemma WantedCalled(sys: System, s: System, n: string, kind: CallbackType, mouse: set<MouseEvent>, k: nat, e: Entry)
    requires n in sys.cons && n in s.cons && Served(sys, s, n, kind, mouse, k)
    requires UniqueIds(sys.cons[n].callbacks) && e in Wanted(sys.cons[n].callbacks, kind, mouse)
    ensures var calls := CallsOf(s.log[|sys.log|..], n, {e.id});
            calls == [Fired(n, e.id, e.persistent)] || (calls == [] && !s.cons[n].ctx)
  {
    var wanted := Wanted(sys.cons[n].callbacks, kind, mouse);
    WantedUnique(sys.cons[n].callbacks, kind, mouse);
    assert e.id in Ids(wanted);
    CallsOfSome(s.log[|sys.log|..], n, Ids(wanted), {e.id});
    var j :| 0 <= j < |wanted| && wanted[j] == e;
    if j < k {
      CallsOfOne(n, wanted[..k], j);
    } else {
      CallsOfOthers(n, wanted[..k], e.id);
    }
  }

  /** So it is in every run: an arrival at any point of it, during which no call edits a registry,
      calls exactly those that it is for. */
  lemma ArrivalReaches(names: seq<string>, before: seq<Event>, js: Scripts, kind: CallbackType, mouse: set<MouseEvent>, passes: nat, n: string, e: Entry)
    requires Distinct(names) && n in names && IsDispatched(kind) && Makes(js, WithManners(Manners(false, false)))
    requires var m := RunEvents(Start(names), before, js);
             && m.Some? && QuietBetween(js, m.value.clock, Dispatch(m.value, kind, mouse, js, passes).0.clock)
             && passes >= Total(m.value, names, kind, mouse)
             && n in m.value.cons && e in m.value.cons[n].callbacks && e.kind != ConsoleReply
    ensures var m := RunEvents(Start(names), before, js).value;
            var r := Step(m, Arrival(kind, mouse, passes), js);
            r.Some? && n in r.value.cons && m.log <= r.value.log && Treated(m, r.value, n, e, kind, mouse)
  {
    var m := RunEvents(Start(names), before, js).value;
    var k := ArrivalInRun(names, before, js, kind, mouse, passes, n);
    RunRegistry(names, before, js, n);
    ServedReaches(m, Step(m, Arrival(kind, mouse, passes), js).value, n, kind, mouse, k, e);
  }

  lemma RunRegistry(names: seq<string>, before: seq<Event>, js: Scripts, n: string)
    requires Makes(js, WithManners(Manners(false, false))) && RunEvents(Start(names), before, js).Some?
    ensures var m := RunEvents(Start(names), before, js).value; n in m.cons ==> UniqueIds(m.cons[n].callbacks)
  {
    Reached(names, before, js);
    var m := RunEvents(Start(names), before, js).value;
    if n in m.cons {
      assert RegistryOk(m.cons[n].callbacks, m.nextId);
    }
  }

  // ----- nobody listens -----

  /** No console has registered for this kind (if for NMEA 0183, for any sentence). */
  ghost predicate NobodyFor(sys: System, kind: CallbackType) {
    forall n :: n in sys.cons ==> forall e :: e in sys.cons[n].callbacks ==> e.kind != kind || (kind == N0183 && |e.ident| > 0)
  }

  lemma {:induction false} NobodyIn(sys: System, n: string, i: nat, kind: CallbackType, mouse: set<MouseEvent>, js: Scripts, passes: nat)
    requires AllSettled(sys) && n in sys.cons && sys.cons[n].ctx && NobodyFor(sys, kind)
    ensures DispatchFrom(sys, n, i, kind, mouse, js, passes) == (sys, passes, true)
    decreases |sys.cons[n].callbacks| - i
  {
    if i < |sys.cons[n].callbacks| {
      var e := sys.cons[n].callbacks[i];
      assert e in sys.cons[n].callbacks;
      assert !Listens(e, kind);
      NobodyIn(sys, n, i + 1, kind, mouse, js, passes);
    }
  }

  lemma NobodyTurn(sys: System, n: string, kind: CallbackType, mouse: set<MouseEvent>, js: Scripts, passes: nat)
    requires AllSettled(sys) && n in sys.cons && NobodyFor(sys, kind)
    ensures NobodyFor(Asked(sys, n), kind) && DispatchIn(sys, n, kind, mouse, js, passes) == (Asked(sys, n), passes, true)
  {
    if IsWaiting(sys.cons[n]).1 {
      NobodyIn(Asked(sys, n), n, 0, kind, mouse, js, passes);
    }
  }

  lemma {:induction false} NobodyAmong(sys: System, names: seq<string>, kind: CallbackType, mouse: set<MouseEvent>, js: Scripts, passes: nat)
    requires AllSettled(sys) && NobodyFor(sys, kind)
    ensures var (s, left, ended) := DispatchTo(sys, names, kind, mouse, js, passes);
            ended && s.active == sys.active && s.log == sys.log && s.clock == sys.clock
    decreases |names|
  {
    if names != [] {
      var n := names[0];
      if n in sys.cons {
        NobodyTurn(sys, n, kind, mouse, js, passes);
        NobodyAmong(Asked(sys, n), names[1..], kind, mouse, js, passes);
      } else {
        NobodyAmong(sys, names[1..], kind, mouse, js, passes);
      }
    }
  }

  /** An arrival for which nobody listens calls nobody, and leaves its activity bit off. */
  lemma BitGoesOff(sys: System, kind: CallbackType, mouse: set<MouseEvent>, js: Scripts, passes: nat)
    requires AllSettled(sys) && NobodyFor(sys, kind) && IsDispatched(kind)
    ensures var (s, ended) := Dispatch(sys, kind, mouse, js, passes);
            ended && s.active == sys.active - {kind} && s.log == sys.log && s.clock == sys.clock
  {
    if kind in sys.active {
      NobodyAmong(Unmarked(sys, kind), sys.order, kind, mouse, js, passes);
    }
  }
}
