/** Over any run, whatever the scripts do: ids stay distinct, registries stay within their
    limit, a one-shot entry fires at most once and a registration for another console's
    result is answered at most once. */
module OneShot {
  import opened Wrappers
  import opened Callbacks
  import opened Lifecycle
  import opened Protocol
  import opened Events
  import opened Walks
  import opened Uniform
  import opened Registrations

  ghost function AllSignatures(sys: System): set<Signature> {
    set n, s | n in sys.cons && s in Signatures(sys.cons[n].callbacks) :: s
  }

  ghost predicate Registered(sys: System) {
    && 0 < sys.nextId
    && (forall n :: n in sys.cons ==> RegistryOk(sys.cons[n].callbacks, sys.nextId))
    && (forall n, m :: n in sys.cons && m in sys.cons && n != m ==> Apart(sys.cons[n].callbacks, sys.cons[m].callbacks))
  }

  ghost predicate Apart(a: seq<Entry>, b: seq<Entry>) {
    forall s, t :: s in Signatures(a) && t in Signatures(b) ==> s.id != t.id
  }

  /** The ids of registrations that some console or pending run carries in its brief. */
  ghost function BriefIds(sys: System): set<int> {
    (set n | n in sys.cons :: sys.cons[n].brief.callbackId) +
    (set k | 0 <= k < |sys.pending| :: sys.pending[k].1.callbackId)
  }

  ghost predicate BriefIdOk(sys: System, id: int) {
    id < sys.nextId && forall s :: s in AllSignatures(sys) && s.id == id ==> s.kind == ConsoleReply
  }

  ghost predicate NoteOk(sys: System, note: Note) {
    match note
    case Fired(_, id, persistent) =>
      id < sys.nextId && forall s :: s in AllSignatures(sys) && s.id == id ==> persistent && s.persistent
    case Replied(_, id, _, delivered) =>
      delivered ==> id < sys.nextId && forall s :: s in AllSignatures(sys) ==> s.id != id
  }

  /** No id fires twice unless its entry is persistent. */
  ghost predicate FiredOnce(log: seq<Note>) {
    forall i, j :: 0 <= i < j < |log| && log[i].Fired? && log[j].Fired? && log[i].id == log[j].id ==>
      log[i].persistent && log[j].persistent
  }

  /** No registration is answered twice. */
  ghost predicate AnsweredOnce(log: seq<Note>) {
    forall i, j :: 0 <= i < j < |log| && log[i].Replied? && log[j].Replied? && log[i].id == log[j].id ==>
      !(log[i].delivered && log[j].delivered)
  }

  ghost predicate Inv(sys: System) {
    && Registered(sys)
    && (forall id :: id in BriefIds(sys) ==> BriefIdOk(sys, id))
    && (forall k :: 0 <= k < |sys.log| ==> NoteOk(sys, sys.log[k]))
    && FiredOnce(sys.log) && AnsweredOnce(sys.log)
  }

  // ----- steps that add nothing to the log -----

  /** Console n's registry evolves, all others keep theirs. */
  ghost predicate GrowsIn(sys: System, sys': System, n: string) {
    && sys'.cons.Keys == sys.cons.Keys && n in sys.cons && sys'.log == sys.log && sys.nextId <= sys'.nextId
    && (forall m :: m in sys.cons && m != n ==> sys'.cons[m].callbacks == sys.cons[m].callbacks)
    && RegistryOk(sys'.cons[n].callbacks, sys'.nextId)
    && Evolves(sys.cons[n].callbacks, sys'.cons[n].callbacks, sys.nextId)
  }

  lemma OldSignatures(sys: System, sys': System, n: string)
    requires GrowsIn(sys, sys', n) && Registered(sys)
    ensures Registered(sys')
    ensures forall s :: s in AllSignatures(sys') && s.id < sys.nextId ==> s in AllSignatures(sys)
  {
    forall m | m in sys'.cons && m != n ensures RegistryOk(sys'.cons[m].callbacks, sys'.nextId) {
      Wider(sys.cons[m].callbacks, sys.nextId, sys'.nextId);
    }
    forall m, s | m in sys.cons && s in Signatures(sys.cons[m].callbacks) ensures s.id < sys.nextId {
      var e :| e in sys.cons[m].callbacks && s == SignatureOf(e);
      assert EntryOk(e, sys.nextId);
    }
    forall s | s in AllSignatures(sys') && s.id < sys.nextId ensures s in AllSignatures(sys) {
      var m :| m in sys'.cons && s in Signatures(sys'.cons[m].callbacks);
      assert s in Signatures(sys.cons[m].callbacks);
    }
  }

  lemma Grow(sys: System, sys': System, n: string)
    requires Inv(sys) && GrowsIn(sys, sys', n)
    requires forall id :: id in BriefIds(sys') && id !in BriefIds(sys) ==> BriefIdOk(sys', id)
    ensures Inv(sys')
  {
    OldSignatures(sys, sys', n);
    forall id | id in BriefIds(sys') && id in BriefIds(sys) ensures BriefIdOk(sys', id) {
      assert BriefIdOk(sys, id);
    }
    forall k | 0 <= k < |sys'.log| ensures NoteOk(sys', sys'.log[k]) {
      assert NoteOk(sys, sys.log[k]);
    }
  }

  /** A console changes in anything but its registry and the id in its brief. */
  lemma Elsewhere(sys: System, n: string, c: ConsoleState)
    requires Inv(sys) && n in sys.cons && c.callbacks == sys.cons[n].callbacks
    requires c.brief.callbackId in BriefIds(sys) + {0}
    ensures Inv(With(sys, n, c))
  {
    Shrink(sys, n, c);
  }

  /** A console loses entries. */
  lemma Shrink(sys: System, n: string, c: ConsoleState)
    requires Inv(sys) && n in sys.cons && RegistryOk(c.callbacks, sys.nextId)
    requires Evolves(sys.cons[n].callbacks, c.callbacks, sys.nextId)
    requires c.brief.callbackId in BriefIds(sys) + {0}
    ensures Inv(With(sys, n, c))
  {
    var sys' := With(sys, n, c);
    forall id | id in BriefIds(sys') && id !in BriefIds(sys) ensures BriefIdOk(sys', id) {
      assert id == 0;
      forall s | s in AllSignatures(sys') ensures s.id != 0 {
        var m :| m in sys'.cons && s in Signatures(sys'.cons[m].callbacks);
        var e :| e in sys'.cons[m].callbacks && s == SignatureOf(e);
        assert EntryOk(e, sys.nextId);
      }
    }
    Grow(sys, sys', n);
  }

  /** Bookkeeping fields do not matter. */
  lemma Fields(sys: System, active: set<CallbackType>, clock: nat)
    requires Inv(sys)
    ensures Inv(sys.(active := active, clock := clock))
  {
    var sys' := sys.(active := active, clock := clock);
    assert BriefIds(sys') == BriefIds(sys);
    assert AllSignatures(sys') == AllSignatures(sys);
    forall id | id in BriefIds(sys') ensures BriefIdOk(sys', id) {
      assert BriefIdOk(sys, id);
    }
    forall k | 0 <= k < |sys'.log| ensures NoteOk(sys', sys'.log[k]) {
      assert NoteOk(sys, sys.log[k]);
    }
  }

  // ----- one call of JavaScript -----

  lemma SignatureBound(sys: System, m: string, s: Signature)
    requires Registered(sys) && m in sys.cons && s in Signatures(sys.cons[m].callbacks)
    ensures 0 < s.id < sys.nextId
  {
    var e :| e in sys.cons[m].callbacks && s == SignatureOf(e);
    assert RegistryOk(sys.cons[m].callbacks, sys.nextId);
    assert EntryOk(e, sys.nextId);
  }

  lemma FreshBrief(sys: System, sys': System, n: string, e: Entry)
    requires Registered(sys) && GrowsIn(sys, sys', n) && e.id == sys.nextId < sys'.nextId && e.kind == ConsoleReply
    requires sys'.cons[n].callbacks == sys.cons[n].callbacks + [e]
    ensures BriefIdOk(sys', e.id)
  {
    forall s | s in AllSignatures(sys') && s.id == e.id ensures s.kind == ConsoleReply {
      var m :| m in sys'.cons && s in Signatures(sys'.cons[m].callbacks);
      if s in Signatures(sys.cons[m].callbacks) {
        SignatureBound(sys, m, s);
      } else {
        assert s == SignatureOf(e);
      }
    }
  }

  lemma AskToRunInv(base: System, sys: System, n: string, target: string, brief: Brief)
    requires Inv(base) && GrowsIn(base, sys, n) && n in sys.cons
    requires forall m :: m in sys.cons ==> sys.cons[m].brief == base.cons[m].brief
    requires sys.pending == base.pending
    requires BriefIdOk(sys, brief.callbackId)
    ensures Inv(AskToRun(sys, n, target, brief).0)
  {
    var s := AskToRun(sys, n, target, brief).0;
    assert forall m :: m in sys.cons && m != n ==> Touched(sys.cons[m], s.cons[m]);
    SameSignatures(sys, s);
    assert GrowsIn(base, s, n);
    forall id | id in BriefIds(s) && id !in BriefIds(base) ensures BriefIdOk(s, id) {
      NewBriefIds(base, s, id, brief.callbackId);
    }
    Grow(base, s, n);
  }

  lemma SameSignatures(sys: System, sys': System)
    requires sys'.cons.Keys == sys.cons.Keys
    requires forall m :: m in sys.cons ==> sys'.cons[m].callbacks == sys.cons[m].callbacks
    ensures AllSignatures(sys') == AllSignatures(sys)
  {
  }

  lemma AwaitInv(sys: System, n: string, target: string, callable: bool, hasBrief: bool)
    requires Inv(sys) && n in sys.cons
    ensures Inv(AwaitIn(sys, n, target, callable, hasBrief).0)
  {
    if InExit in sys.cons[n].status {
      Elsewhere(sys, n, PrepForThrow(sys.cons[n]));
    } else {
      var o := NewCallbackEntry(sys.cons[n], AwaitEntry(sys.nextId, callable), sys.nextId);
      EnrolledInv(sys, n, AwaitEntry(sys.nextId, callable), o);
      if !o.threw {
        var s := With(sys, n, o.c).(nextId := o.nextId);
        AskToRunInv(sys, s, n, target, Brief(sys.nextId, n, hasBrief));
      }
    }
  }

  lemma EnrolledInv(sys: System, n: string, e: Entry, o: Outcome)
    requires Inv(sys) && n in sys.cons && e.kind == ConsoleReply && e.id == sys.nextId && e.subMenuIds == [] && e.handler != Missing
    requires o == NewCallbackEntry(sys.cons[n], e, sys.nextId)
    ensures var s := With(sys, n, o.c).(nextId := o.nextId); GrowsIn(sys, s, n) && if o.threw then Inv(s) else BriefIdOk(s, e.id)
  {
    NewOk(sys.cons[n], e, sys.nextId);
    var s := With(sys, n, o.c).(nextId := o.nextId);
    assert GrowsIn(sys, s, n);
    if o.threw {
      assert BriefIds(s) == BriefIds(sys);
      Grow(sys, s, n);
    } else {
      FreshBrief(sys, s, n, e);
    }
  }

  /** A brief is carried on, or is the one just made. */
  lemma NewBriefIds(sys: System, sys': System, id: int, made: int)
    requires sys'.cons.Keys == sys.cons.Keys && id in BriefIds(sys')
    requires forall m :: m in sys.cons ==> sys'.cons[m].brief.callbackId == sys.cons[m].brief.callbackId
    requires sys.pending <= sys'.pending && |sys'.pending| <= |sys.pending| + 1
    requires |sys'.pending| > |sys.pending| ==> sys'.pending[|sys.pending|].1.callbackId in BriefIds(sys) + {made}
    ensures id in BriefIds(sys) || (id == made && |sys'.pending| > |sys.pending|)
  {
    if m: string :| m in sys'.cons && sys'.cons[m].brief.callbackId == id {
      assert sys.cons[m].brief.callbackId == id;
    } else {
      var k :| 0 <= k < |sys'.pending| && sys'.pending[k].1.callbackId == id;
      if k < |sys.pending| {
        assert sys.pending[k] == sys'.pending[k];
      }
    }
  }

  lemma RunConsoleInv(sys: System, n: string, target: string, hasBrief: bool)
    requires Inv(sys) && n in sys.cons
    ensures Inv(RunConsoleIn(sys, n, target, hasBrief).0)
  {
    var s := RunConsoleIn(sys, n, target, hasBrief).0;
    if target == n || target !in sys.cons || sys.cons[target].ctx {
      Elsewhere(sys, n, PrepForThrow(sys.cons[n]));
    } else {
      assert sys.cons[target].brief.callbackId in BriefIds(sys);
      forall id | id in BriefIds(s) ensures id in BriefIds(sys) {
        NewBriefIds(sys, s, id, sys.cons[target].brief.callbackId);
      }
      Wider(sys.cons[n].callbacks, sys.nextId, s.nextId);
      Grow(sys, s, n);
    }
  }

  lemma PerformInv(sys: System, n: string, a: Act)
    requires Inv(sys) && n in sys.cons
    ensures Inv(PerformIn(sys, n, a).0)
  {
    if a.AwaitResult? {
      AwaitInv(sys, n, a.target, a.callable, a.hasBrief);
    } else if a.RunConsole? {
      RunConsoleInv(sys, n, a.target, a.hasBrief);
    } else if a.ConsoleBusy? {
      if a.target in sys.cons {
        Elsewhere(sys, a.target, IsBusy(sys.cons[a.target]).0);
      } else {
        Elsewhere(sys, n, PrepForThrow(sys.cons[n]));
      }
    } else {
      InstallInv(sys, n, a, Perform(sys.cons[n], a, sys.nextId));
    }
  }

  lemma InstallInv(sys: System, n: string, a: Act, o: Outcome)
    requires Inv(sys) && n in sys.cons && IsLocal(a) && o == Perform(sys.cons[n], a, sys.nextId)
    ensures Inv(Install(sys, n, o, BitsSet(a, o)).0)
  {
    PerformOk(sys.cons[n], a, sys.nextId, o);
    var s := Install(sys, n, o, BitsSet(a, o)).0;
    forall id | id in BriefIds(s) ensures id in BriefIds(sys) {
      NewBriefIds(sys, s, id, id);
    }
    Grow(sys, s, n);
  }

  // ----- firing and answering -----

  /** What remains of a registry when e is fired: no entry that was not there, and not e
      itself unless it is persistent. */
  ghost predicate Leaves(reg: seq<Entry>, e: Entry, rest: seq<Entry>, next: int) {
    && e in reg && RegistryOk(rest, next)
    && (forall f :: f in rest ==> f in reg)
    && (!e.persistent ==> forall f :: f in rest ==> f.id != e.id)
  }

  function Taken(sys: System, n: string, rest: seq<Entry>): System
    requires n in sys.cons
  {
    With(sys, n, sys.cons[n].(callbacks := rest))
  }

  lemma TakenInv(sys: System, n: string, e: Entry, rest: seq<Entry>)
    requires Inv(sys) && n in sys.cons && Leaves(sys.cons[n].callbacks, e, rest, sys.nextId)
    ensures Inv(Taken(sys, n, rest))
    ensures forall s :: s in AllSignatures(Taken(sys, n, rest)) && s.id == e.id ==> s == SignatureOf(e)
    ensures (forall f :: f in rest ==> f.id != e.id) ==> forall s :: s in AllSignatures(Taken(sys, n, rest)) ==> s.id != e.id
  {
    var c := sys.cons[n];
    assert c.brief.callbackId in BriefIds(sys);
    Shrink(sys, n, c.(callbacks := rest));
    forall s | s in AllSignatures(Taken(sys, n, rest)) && s.id == e.id
      ensures s == SignatureOf(e) && exists f :: f in rest && f.id == e.id
    {
      SignatureOrigin(sys, n, e, rest, s);
    }
  }

  lemma SignatureOrigin(sys: System, n: string, e: Entry, rest: seq<Entry>, s: Signature)
    requires Registered(sys) && n in sys.cons && Leaves(sys.cons[n].callbacks, e, rest, sys.nextId)
    requires s in AllSignatures(Taken(sys, n, rest)) && s.id == e.id
    ensures s == SignatureOf(e) && exists f :: f in rest && f.id == e.id
  {
    var sys' := Taken(sys, n, rest);
    var m :| m in sys'.cons && s in Signatures(sys'.cons[m].callbacks);
    assert SignatureOf(e) in Signatures(sys.cons[n].callbacks);
    if m != n {
      NotShared(sys, m, n, s, SignatureOf(e));
    } else {
      var f :| f in rest && s == SignatureOf(f);
      SameId(sys.cons[n].callbacks, e, f);
    }
  }

  lemma NotShared(sys: System, m: string, n: string, s: Signature, t: Signature)
    requires Registered(sys) && m in sys.cons && n in sys.cons && m != n
    requires s in Signatures(sys.cons[m].callbacks) && t in Signatures(sys.cons[n].callbacks)
    ensures s.id != t.id
  {
    assert Apart(sys.cons[m].callbacks, sys.cons[n].callbacks);
  }

  lemma SameId(reg: seq<Entry>, e: Entry, f: Entry)
    requires UniqueIds(reg) && e in reg && f in reg && e.id == f.id
    ensures e == f
  {
    if e != f {
      DistinctIds(reg, e, f);
    }
  }

  lemma EntryNotes(sys: System, n: string, e: Entry)
    requires Inv(sys) && n in sys.cons && e in sys.cons[n].callbacks
    ensures SignatureOf(e) in AllSignatures(sys) && e.id < sys.nextId
    ensures forall k :: 0 <= k < |sys.log| && sys.log[k].Fired? && sys.log[k].id == e.id ==> sys.log[k].persistent && e.persistent
    ensures forall k :: 0 <= k < |sys.log| && sys.log[k].Replied? && sys.log[k].id == e.id ==> !sys.log[k].delivered
  {
    assert SignatureOf(e) in Signatures(sys.cons[n].callbacks);
    assert SignatureOf(e) in AllSignatures(sys);
    SignatureBound(sys, n, SignatureOf(e));
    forall k | 0 <= k < |sys.log| ensures NoteOk(sys, sys.log[k]) {}
  }

  lemma FiredInv(sys: System, n: string, e: Entry, rest: seq<Entry>)
    requires Inv(sys) && n in sys.cons && Leaves(sys.cons[n].callbacks, e, rest, sys.nextId)
    ensures Inv(Noted(Taken(sys, n, rest), [Fired(n, e.id, e.persistent)]))
  {
    EntryNotes(sys, n, e);
    TakenInv(sys, n, e, rest);
    AddNote(Taken(sys, n, rest), Fired(n, e.id, e.persistent));
  }

  /** A note may be added that agrees with the registries and with the log. */
  lemma AddNote(sys: System, note: Note)
    requires Inv(sys) && NoteOk(sys, note)
    requires note.Fired? ==> forall k :: 0 <= k < |sys.log| && sys.log[k].Fired? && sys.log[k].id == note.id ==> sys.log[k].persistent && note.persistent
    requires note.Replied? && note.delivered ==> forall k :: 0 <= k < |sys.log| && sys.log[k].Replied? && sys.log[k].id == note.id ==> !sys.log[k].delivered
    ensures Inv(Noted(sys, [note]))
  {
    var sys' := Noted(sys, [note]);
    SameSignatures(sys, sys');
    assert BriefIds(sys') == BriefIds(sys);
    forall id | id in BriefIds(sys') ensures BriefIdOk(sys', id) {
      assert BriefIdOk(sys, id);
    }
    forall k | 0 <= k < |sys'.log| ensures NoteOk(sys', sys'.log[k]) {
      assert k < |sys.log| ==> sys'.log[k] == sys.log[k] && NoteOk(sys, sys.log[k]);
    }
  }

  /** The reply is delivered: the entry is gone for good, answered and fired. */
  lemma DeliveredInv(sys: System, n: string, e: Entry, rest: seq<Entry>, sender: string, reason: Completion)
    requires Inv(sys) && n in sys.cons && Leaves(sys.cons[n].callbacks, e, rest, sys.nextId)
    requires forall f :: f in rest ==> f.id != e.id
    ensures Inv(Noted(Taken(sys, n, rest), [Replied(sender, e.id, reason, true), Fired(n, e.id, e.persistent)]))
  {
    EntryNotes(sys, n, e);
    TakenInv(sys, n, e, rest);
    var s1 := Taken(sys, n, rest);
    var a, b := Replied(sender, e.id, reason, true), Fired(n, e.id, e.persistent);
    AddNote(s1, a);
    var s2 := Noted(s1, [a]);
    SameSignatures(s1, s2);
    AddNote(s2, b);
    assert Noted(s2, [b]) == Noted(s1, [a, b]) by {
      assert s1.log + [a] + [b] == s1.log + [a, b];
    }
  }

  // ----- the single steps -----

  lemma DownInv(sys: System, n: string)
    requires n in sys.cons && Inv(sys)
    ensures Inv(Down(sys, n))
  {
    var c := sys.cons[n];
    assert c.brief.callbackId in BriefIds(sys);
    SubRegistry(c.callbacks, [], sys.nextId);
    Shrink(sys, n, Cleanup(c));
  }

  lemma ChainInv(sys: System, n: string)
    requires n in sys.cons && Inv(sys)
    ensures Inv(Chained(sys, n))
  {
    var t := Chained(sys, n);
    assert sys.cons[n].brief.callbackId in BriefIds(sys);
    forall id | id in BriefIds(t) ensures id in BriefIds(sys) {
      NewBriefIds(sys, t, id, sys.cons[n].brief.callbackId);
    }
    Grow(sys, t, n);
  }

  lemma RetoldInv(sys: System, sys': System)
    requires Inv(sys) && Retold(sys, sys')
    ensures Inv(sys')
  {
    SameSignatures(sys, sys');
    assert BriefIds(sys') == BriefIds(sys);
    forall id | id in BriefIds(sys') ensures BriefIdOk(sys', id) {
      assert BriefIdOk(sys, id);
    }
    forall k | 0 <= k < |sys'.log| ensures NoteOk(sys', sys'.log[k]) {
      assert NoteOk(sys, sys.log[k]);
    }
  }

  lemma HandedOverInv(sys: System, n: string, reason: Completion, i: nat)
    requires Inv(sys) && Due(sys, n) && Registers(sys, sys.cons[n].brief, i)
    ensures Inv(HandedOver(sys, n, reason, i))
  {
    var caller := sys.cons[n].brief.caller;
    var reg := sys.cons[caller].callbacks;
    assert RegistryOk(reg, sys.nextId);
    RemoveAtOk(reg, i, sys.nextId);
    DeliveredInv(sys, caller, reg[i], RemoveAt(reg, i), n, reason);
  }

  lemma ReplyDoneInv(sys: System, n: string)
    requires Inv(sys) && n in sys.cons
    ensures Inv(ReplyDone(sys, n))
  {
    Elsewhere(sys, n, sys.cons[n].(brief := sys.cons[n].brief.(callbackId := 0)));
  }

  lemma TakenLeaves(reg: seq<Entry>, e: Entry, rest: seq<Entry>, next: int)
    requires RegistryOk(reg, next) && TakenFrom(reg, e, rest)
    ensures Leaves(reg, e, rest, next)
  {
    var i :| 0 <= i < |reg| && reg[i] == e &&
             (rest == After(reg, i) || (e.kind == ContextSubmenu && rest == CancelId(After(reg, i), e.parentId)));
    RemoveAtOk(reg, i, next);
    CancelIdOk(After(reg, i), e.parentId, next);
  }

  lemma FiredOffInv(sys: System, n: string, e: Entry, rest: seq<Entry>)
    requires Inv(sys) && n in sys.cons && TakenFrom(sys.cons[n].callbacks, e, rest)
    ensures Inv(FiredOff(sys, n, e, rest))
  {
    assert RegistryOk(sys.cons[n].callbacks, sys.nextId);
    TakenLeaves(sys.cons[n].callbacks, e, rest, sys.nextId);
    FiredInv(sys, n, e, rest);
  }

  lemma PoppedInv(sys: System)
    requires Inv(sys) && sys.pending != []
    ensures Inv(Popped(sys))
  {
    var s := Popped(sys);
    SameSignatures(sys, s);
    forall id | id in BriefIds(s) ensures id in BriefIds(sys) && BriefIdOk(s, id) {
      if !exists m :: m in s.cons && s.cons[m].brief.callbackId == id {
        var k :| 0 <= k < |s.pending| && s.pending[k].1.callbackId == id;
        assert sys.pending[k + 1].1.callbackId == id;
      }
      assert BriefIdOk(sys, id);
    }
    forall k | 0 <= k < |s.log| ensures NoteOk(s, s.log[k]) {
      assert NoteOk(sys, sys.log[k]);
    }
  }

  /** The brief of a pending run may be given to its console. */
  lemma BriefFromPending(sys: System, n: string, brief: Brief)
    requires Inv(sys) && sys.pending != [] && sys.pending[0] == (n, brief) && n in sys.cons
    ensures Inv(WithBrief(Popped(sys), n, brief))
  {
    PoppedInv(sys);
    var s, t := Popped(sys), WithBrief(Popped(sys), n, brief);
    assert brief.callbackId in BriefIds(sys);
    assert BriefIdOk(sys, brief.callbackId);
    SameSignatures(sys, t);
    forall id | id in BriefIds(t) && id !in BriefIds(s) ensures BriefIdOk(t, id) {
      assert id == brief.callbackId;
    }
    Grow(s, t, n);
  }

  // ----- the invariant at every moment -----

  ghost function InvKept(): System -> bool {
    (s: System) => Inv(s)
  }

  lemma InvCalls()
    ensures CallSteps(InvKept(), Any())
  {
    var p, may := InvKept(), Any();
    forall s, s' {:trigger Retold(s, s')} | p(s) && Retold(s, s') ensures p(s') {
      RetoldInv(s, s');
    }
    forall s, n, t: Attempt {:trigger p(PerformIn(s, n, t.act).0), may(t)} | p(s) && n in s.cons ensures p(PerformIn(s, n, t.act).0) {
      PerformInv(s, n, t.act);
    }
  }

  lemma InvReplies()
    ensures ReplySteps(InvKept())
  {
    var p := InvKept();
    forall s, n {:trigger p(Down(s, n))} | p(s) && n in s.cons ensures p(Down(s, n)) {
      DownInv(s, n);
    }
    forall s, n, reason {:trigger p(GivenUp(s, n, reason))} | p(s) && Due(s, n) ensures p(GivenUp(s, n, reason)) {
      AddNote(s, Replied(n, s.cons[n].brief.callbackId, reason, false));
    }
    forall s, n, reason, i: nat {:trigger p(HandedOver(s, n, reason, i))} | p(s) && Due(s, n) && Registers(s, s.cons[n].brief, i)
      ensures p(HandedOver(s, n, reason, i))
    {
      HandedOverInv(s, n, reason, i);
    }
    forall s, n {:trigger p(ReplyDone(s, n))} | p(s) && n in s.cons && !s.cons[n].ctx ensures p(ReplyDone(s, n)) {
      ReplyDoneInv(s, n);
    }
    forall s, n {:trigger p(Chained(s, n))} | p(s) && Downed(s, n) ensures p(Chained(s, n)) {
      ChainInv(s, n);
    }
  }

  lemma InvEvents()
    ensures EventSteps(InvKept()) && UnmarkSteps(Always(InvKept()))
  {
    var p, k := InvKept(), Always(InvKept());
    forall s, n, e, rest {:trigger p(FiredOff(s, n, e, rest))} |
        p(s) && AllSettled(s) && n in s.cons && TakenFrom(s.cons[n].callbacks, e, rest)
      ensures p(FiredOff(s, n, e, rest))
    {
      FiredOffInv(s, n, e, rest);
    }
    forall s {:trigger p(Popped(s))} | p(s) && s.pending != [] ensures p(Popped(s)) {
      PoppedInv(s);
    }
    forall s {:trigger Popped(s)} | p(s) && s.pending != [] && s.pending[0].0 in s.cons
      ensures p(WithBrief(Popped(s), s.pending[0].0, s.pending[0].1))
    {
      BriefFromPending(s, s.pending[0].0, s.pending[0].1);
    }
    forall s, kind {:trigger k.all(Unmarked(s, kind))} | k.all(s) ensures k.all(Unmarked(s, kind)) {
      Fields(s, s.active - {kind}, s.clock);
    }
  }

  lemma InvSteps(js: Scripts)
    ensures UniformSteps(InvKept(), Any(), js) && UnmarkSteps(Always(InvKept()))
  {
    InvCalls();
    InvReplies();
    InvEvents();
  }

  // ----- what only new entries can break -----

  /** Nothing is registered that was not, and no activity bit is lost. */
  ghost predicate FewerEntries(sys: System, sys': System) {
    && sys.active <= sys'.active && sys'.cons.Keys == sys.cons.Keys
    && forall m, e :: m in sys.cons && e in sys'.cons[m].callbacks ==> e in sys.cons[m].callbacks
  }

  lemma FewerSignatures(sys: System, sys': System)
    requires FewerEntries(sys, sys')
    ensures AllSignatures(sys') <= AllSignatures(sys)
  {
    forall x | x in AllSignatures(sys') ensures x in AllSignatures(sys) {
      var m :| m in sys'.cons && x in Signatures(sys'.cons[m].callbacks);
      assert x in Signatures(sys.cons[m].callbacks);
    }
  }

  ghost function InvAnd(q: System -> bool): System -> bool {
    (s: System) => Inv(s) && q(s)
  }

  ghost predicate OnlyNewBreaks(q: System -> bool, may: Attempt -> bool) {
    && (forall s, s' {:trigger FewerEntries(s, s')} :: q(s) && FewerEntries(s, s') ==> q(s'))
    && (forall s, n, t {:trigger q(PerformIn(s, n, t.act).0), may(t)} ::
         Inv(s) && q(s) && n in s.cons && may(t) ==> q(PerformIn(s, n, t.act).0))
  }

  lemma HandedOverFewer(sys: System, n: string, reason: Completion, i: nat)
    requires n in sys.cons && Registers(sys, sys.cons[n].brief, i)
    ensures FewerEntries(sys, HandedOver(sys, n, reason, i))
  {
  }

  lemma FiredOffFewer(sys: System, n: string, e: Entry, rest: seq<Entry>)
    requires Inv(sys) && n in sys.cons && TakenFrom(sys.cons[n].callbacks, e, rest)
    ensures FewerEntries(sys, FiredOff(sys, n, e, rest))
  {
    assert RegistryOk(sys.cons[n].callbacks, sys.nextId);
    TakenLeaves(sys.cons[n].callbacks, e, rest, sys.nextId);
  }

  lemma CallsBreak(q: System -> bool, may: Attempt -> bool)
    requires OnlyNewBreaks(q, may)
    ensures CallSteps(InvAnd(q), may)
  {
    var p := InvAnd(q);
    forall s, s' {:trigger Retold(s, s')} | p(s) && Retold(s, s') ensures p(s') {
      RetoldInv(s, s');
      assert FewerEntries(s, s');
    }
    forall s, n, t: Attempt {:trigger p(PerformIn(s, n, t.act).0), may(t)} | p(s) && n in s.cons && may(t)
      ensures p(PerformIn(s, n, t.act).0)
    {
      PerformInv(s, n, t.act);
      assert q(PerformIn(s, n, t.act).0);
    }
  }

  lemma RepliesBreak(q: System -> bool, may: Attempt -> bool)
    requires OnlyNewBreaks(q, may)
    ensures ReplySteps(InvAnd(q))
  {
    InvReplies();
    var p, inv := InvAnd(q), InvKept();
    forall s, n {:trigger p(Down(s, n))} | p(s) && n in s.cons ensures p(Down(s, n)) {
      assert inv(Down(s, n)) && FewerEntries(s, Down(s, n));
    }
    forall s, n, reason {:trigger p(GivenUp(s, n, reason))} | p(s) && Due(s, n) ensures p(GivenUp(s, n, reason)) {
      assert inv(GivenUp(s, n, reason)) && FewerEntries(s, GivenUp(s, n, reason));
    }
    forall s, n, reason, i: nat {:trigger p(HandedOver(s, n, reason, i))} | p(s) && Due(s, n) && Registers(s, s.cons[n].brief, i)
      ensures p(HandedOver(s, n, reason, i))
    {
      assert inv(HandedOver(s, n, reason, i));
      HandedOverFewer(s, n, reason, i);
    }
    forall s, n {:trigger p(ReplyDone(s, n))} | p(s) && n in s.cons && !s.cons[n].ctx ensures p(ReplyDone(s, n)) {
      assert inv(ReplyDone(s, n)) && FewerEntries(s, ReplyDone(s, n));
    }
    forall s, n {:trigger p(Chained(s, n))} | p(s) && Downed(s, n) ensures p(Chained(s, n)) {
      assert inv(Chained(s, n)) && FewerEntries(s, Chained(s, n));
    }
  }

  lemma EventsBreak(q: System -> bool, may: Attempt -> bool)
    requires OnlyNewBreaks(q, may)
    ensures EventSteps(InvAnd(q))
  {
    InvEvents();
    var p, inv := InvAnd(q), InvKept();
    forall s, n, e, rest {:trigger p(FiredOff(s, n, e, rest))} |
        p(s) && AllSettled(s) && n in s.cons && TakenFrom(s.cons[n].callbacks, e, rest)
      ensures p(FiredOff(s, n, e, rest))
    {
      assert inv(FiredOff(s, n, e, rest));
      FiredOffFewer(s, n, e, rest);
    }
    forall s {:trigger p(Popped(s))} | p(s) && s.pending != [] ensures p(Popped(s)) {
      assert inv(Popped(s)) && FewerEntries(s, Popped(s));
    }
    forall s {:trigger Popped(s)} | p(s) && s.pending != [] && s.pending[0].0 in s.cons
      ensures p(WithBrief(Popped(s), s.pending[0].0, s.pending[0].1))
    {
      BriefFromPending(s, s.pending[0].0, s.pending[0].1);
      assert FewerEntries(s, WithBrief(Popped(s), s.pending[0].0, s.pending[0].1));
    }
  }

  lemma StepsBreak(q: System -> bool, may: Attempt -> bool, js: Scripts)
    requires OnlyNewBreaks(q, may) && Makes(js, may)
    ensures UniformSteps(InvAnd(q), may, js)
  {
    CallsBreak(q, may);
    RepliesBreak(q, may);
    EventsBreak(q, may);
  }

  lemma ExecuteInv(sys: System, n: string, handler: Handler, js: Scripts)
    requires Inv(sys) && n in sys.cons
    ensures Inv(Execute(sys, n, handler, js).0)
  {
    InvCalls();
    ExecuteKeeps(InvKept(), Any(), sys, n, handler, js);
  }

  lemma WrapUpInv(sys: System, n: string, reason: Completion, js: Scripts)
    requires n in sys.cons && sys.cons[n].ctx && SettledBut(sys, n) && Inv(sys)
    ensures Inv(WrapUp(sys, n, reason, js))
  {
    InvSteps(js);
    WrapUpUniformly(InvKept(), Any(), sys, n, reason, js);
  }
}
