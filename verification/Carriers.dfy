/** Who carries the id of a registration that is to be answered: it is only ever carried by
    one console, or by runs that are to come up in that console. */
module Carriers {
  import opened Wrappers
  import opened Callbacks
  import opened Lifecycle
  import opened Protocol
  import opened Events
  import opened Walks
  import opened Uniform

  /** The console, or the console of a pending run, and the id it carries. */
  ghost function Carrying(sys: System): set<(string, int)> {
    (set n | n in sys.cons :: (n, sys.cons[n].brief.callbackId)) +
    (set k | 0 <= k < |sys.pending| :: (sys.pending[k].0, sys.pending[k].1.callbackId))
  }

  ghost predicate Together(a: (string, int), b: (string, int)) {
    a.1 == b.1 && a.1 != 0 ==> a.0 == b.0
  }

  /** No id is carried by or for two consoles, none is yet to be handed out, and runs are
      pending only for consoles there are. */
  ghost predicate OneCarrier(sys: System) {
    && 0 < sys.nextId
    && (forall a, b :: a in Carrying(sys) && b in Carrying(sys) ==> Together(a, b))
    && (forall a :: a in Carrying(sys) ==> 0 <= a.1 < sys.nextId && a.0 in sys.cons)
  }

  lemma Carries1(sys: System, n: string)
    requires n in sys.cons
    ensures (n, sys.cons[n].brief.callbackId) in Carrying(sys)
  {
  }

  lemma PendingCarries(sys: System, k: nat)
    requires k < |sys.pending|
    ensures (sys.pending[k].0, sys.pending[k].1.callbackId) in Carrying(sys)
  {
  }

  ghost predicate Carried(sys: System, id: int) {
    exists a :: a in Carrying(sys) && a.1 == id
  }

  /** From sys to sys' nothing new is carried but perhaps an id just handed out, and that by or
      for one console; and only ids that are carried are answered. */
  ghost predicate Follows(sys: System, sys': System) {
    && sys'.cons.Keys == sys.cons.Keys && sys.nextId <= sys'.nextId && sys.log <= sys'.log
    && (forall a :: a in Carrying(sys') && a !in Carrying(sys) ==> a.0 in sys.cons && (a.1 == 0 || a.1 == sys.nextId < sys'.nextId))
    && (forall a, b :: a in Carrying(sys') && b in Carrying(sys') && a !in Carrying(sys) && b !in Carrying(sys) ==> Together(a, b))
    && (forall k :: |sys.log| <= k < |sys'.log| && sys'.log[k].Replied? ==> Carried(sys, sys'.log[k].id))
  }

  lemma FollowsOne(sys: System, sys': System)
    requires OneCarrier(sys) && Follows(sys, sys')
    ensures OneCarrier(sys')
  {
    forall a, b | a in Carrying(sys') && b in Carrying(sys') ensures Together(a, b) {
      if a in Carrying(sys) && b in Carrying(sys) {
        assert Together(a, b);
      }
    }
  }

  /** Consoles keep their ids, and at most one run more is pending. */
  ghost predicate OneMorePending(sys: System, sys': System) {
    && sys'.cons.Keys == sys.cons.Keys && sys.nextId <= sys'.nextId
    && (forall m :: m in sys.cons ==> sys'.cons[m].brief.callbackId == sys.cons[m].brief.callbackId)
    && sys.pending <= sys'.pending && |sys'.pending| <= |sys.pending| + 1
  }

  lemma CarriedBefore(sys: System, sys': System, a: (string, int))
    requires OneMorePending(sys, sys') && a in Carrying(sys')
    ensures a in Carrying(sys) ||
            (|sys'.pending| > |sys.pending| && a == (sys'.pending[|sys.pending|].0, sys'.pending[|sys.pending|].1.callbackId))
  {
    if n :| n in sys'.cons && a == (n, sys'.cons[n].brief.callbackId) {
      Carries1(sys, n);
    } else {
      var k :| 0 <= k < |sys'.pending| && a == (sys'.pending[k].0, sys'.pending[k].1.callbackId);
      if k < |sys.pending| {
        assert sys'.pending[k] == sys.pending[k];
        PendingCarries(sys, k);
      }
    }
  }

  // ----- the single steps -----

  /** What one call adds to the pending runs: a run that carries what its console carries, or
      the id just handed out. */
  lemma PendingGrowth(sys: System, n: string, a: Act)
    requires n in sys.cons
    ensures var s := PerformIn(sys, n, a).0;
            && OneMorePending(sys, s)
            && (|s.pending| > |sys.pending| ==>
                 var (m, brief) := s.pending[|sys.pending|];
                 && m in sys.cons
                 && (brief.callbackId == sys.cons[m].brief.callbackId || brief.callbackId == sys.nextId < s.nextId))
  {
    var s := PerformIn(sys, n, a).0;
    forall m | m in sys.cons ensures s.cons[m].brief.callbackId == sys.cons[m].brief.callbackId {
      if m != n {
        assert Touched(sys.cons[m], s.cons[m]);
      }
    }
    if a.AwaitResult? {
      AwaitGrowth(sys, n, a.target, a.callable, a.hasBrief);
    }
  }

  lemma AwaitGrowth(sys: System, n: string, target: string, callable: bool, hasBrief: bool)
    requires n in sys.cons
    ensures var s := AwaitIn(sys, n, target, callable, hasBrief).0;
            s.pending == sys.pending ||
            (target in sys.cons && s.nextId > sys.nextId && s.pending == sys.pending + [(target, Brief(sys.nextId, n, hasBrief))])
  {
  }

  lemma PerformFollows(sys: System, n: string, a: Act)
    requires n in sys.cons
    ensures Follows(sys, PerformIn(sys, n, a).0)
  {
    PendingGrowth(sys, n, a);
    GrowthFollows(sys, PerformIn(sys, n, a).0);
  }

  lemma GrowthFollows(sys: System, s: System)
    requires OneMorePending(sys, s) && s.log == sys.log
    requires |s.pending| > |sys.pending| ==>
               var (m, brief) := s.pending[|sys.pending|];
               && m in sys.cons
               && (brief.callbackId == sys.cons[m].brief.callbackId || brief.callbackId == sys.nextId < s.nextId)
    ensures Follows(sys, s)
  {
    forall x | x in Carrying(s) && x !in Carrying(sys)
      ensures x.1 == sys.nextId < s.nextId && x.0 in sys.cons && x.0 == s.pending[|sys.pending|].0
    {
      CarriedBefore(sys, s, x);
      Carries1(sys, x.0);
    }
  }

  lemma SameFollows(sys: System, sys': System)
    requires sys'.cons.Keys == sys.cons.Keys && sys.nextId <= sys'.nextId && sys'.pending == sys.pending && sys.log <= sys'.log
    requires forall m :: m in sys.cons ==> sys'.cons[m].brief.callbackId in {sys.cons[m].brief.callbackId, 0}
    requires forall k :: |sys.log| <= k < |sys'.log| && sys'.log[k].Replied? ==> Carried(sys, sys'.log[k].id)
    ensures Follows(sys, sys')
  {
    forall a | a in Carrying(sys') && a !in Carrying(sys) ensures a.1 == 0 && a.0 in sys.cons {
      if n :| n in sys'.cons && a == (n, sys'.cons[n].brief.callbackId) {
        Carries1(sys, n);
      }
    }
  }

  lemma ChainFollows(sys: System, n: string)
    requires n in sys.cons
    ensures Follows(sys, Chained(sys, n))
  {
    var s := Chained(sys, n);
    forall a | a in Carrying(s) ensures a in Carrying(sys) {
      CarriedBefore(sys, s, a);
      Carries1(sys, n);
    }
  }

  lemma PoppedFollows(sys: System)
    requires sys.pending != []
    ensures Follows(sys, Popped(sys)) && Carrying(Popped(sys)) <= Carrying(sys)
  {
    var s := Popped(sys);
    forall a | a in Carrying(s) ensures a in Carrying(sys) {
      if n :| n in s.cons && a == (n, s.cons[n].brief.callbackId) {
        Carries1(sys, n);
      } else {
        var k :| 0 <= k < |s.pending| && a == (s.pending[k].0, s.pending[k].1.callbackId);
        PendingCarries(sys, k + 1);
      }
    }
  }

  lemma BriefedFollows(sys: System, n: string, brief: Brief)
    requires sys.pending != [] && sys.pending[0] == (n, brief) && n in sys.cons
    ensures Follows(sys, WithBrief(Popped(sys), n, brief))
  {
    var s := WithBrief(Popped(sys), n, brief);
    forall a | a in Carrying(s) ensures a in Carrying(sys) {
      if m :| m in s.cons && a == (m, s.cons[m].brief.callbackId) {
        if m == n {
          PendingCarries(sys, 0);
        } else {
          Carries1(sys, m);
        }
      } else {
        var k :| 0 <= k < |s.pending| && a == (s.pending[k].0, s.pending[k].1.callbackId);
        PendingCarries(sys, k + 1);
      }
    }
  }

  // ----- what follows at every moment -----

  ghost predicate KeptByFollowing(p: System -> bool) {
    forall s, s' {:trigger Follows(s, s')} :: p(s) && Follows(s, s') ==> p(s')
  }

  lemma FollowCalls(p: System -> bool)
    requires KeptByFollowing(p)
    ensures CallSteps(p, Any())
  {
    var may := Any();
    forall s, s' {:trigger Retold(s, s')} | p(s) && Retold(s, s') ensures p(s') {
      SameFollows(s, s');
    }
    forall s, n, t: Attempt {:trigger p(PerformIn(s, n, t.act).0), may(t)} | p(s) && n in s.cons ensures p(PerformIn(s, n, t.act).0) {
      PerformFollows(s, n, t.act);
    }
  }

  lemma FollowReplies(p: System -> bool)
    requires KeptByFollowing(p)
    ensures ReplySteps(p)
  {
    forall s, n {:trigger p(Down(s, n))} | p(s) && n in s.cons ensures p(Down(s, n)) {
      SameFollows(s, Down(s, n));
    }
    forall s, n, reason {:trigger p(GivenUp(s, n, reason))} | p(s) && Due(s, n) ensures p(GivenUp(s, n, reason)) {
      Carries1(s, n);
      SameFollows(s, GivenUp(s, n, reason));
    }
    forall s, n, reason, i: nat {:trigger p(HandedOver(s, n, reason, i))} | p(s) && Due(s, n) && Registers(s, s.cons[n].brief, i)
      ensures p(HandedOver(s, n, reason, i))
    {
      Carries1(s, n);
      SameFollows(s, HandedOver(s, n, reason, i));
    }
    forall s, n {:trigger p(ReplyDone(s, n))} | p(s) && n in s.cons && !s.cons[n].ctx ensures p(ReplyDone(s, n)) {
      SameFollows(s, ReplyDone(s, n));
    }
    forall s, n {:trigger p(Chained(s, n))} | p(s) && Downed(s, n) ensures p(Chained(s, n)) {
      ChainFollows(s, n);
    }
  }

  lemma FollowEvents(p: System -> bool)
    requires KeptByFollowing(p)
    ensures EventSteps(p) && UnmarkSteps(Always(p))
  {
    var k := Always(p);
    forall s, n, e, rest {:trigger p(FiredOff(s, n, e, rest))} |
        p(s) && AllSettled(s) && n in s.cons && TakenFrom(s.cons[n].callbacks, e, rest)
      ensures p(FiredOff(s, n, e, rest))
    {
      SameFollows(s, FiredOff(s, n, e, rest));
    }
    forall s {:trigger p(Popped(s))} | p(s) && s.pending != [] ensures p(Popped(s)) {
      PoppedFollows(s);
    }
    forall s {:trigger Popped(s)} | p(s) && s.pending != [] && s.pending[0].0 in s.cons
      ensures p(WithBrief(Popped(s), s.pending[0].0, s.pending[0].1))
    {
      BriefedFollows(s, s.pending[0].0, s.pending[0].1);
    }
    forall s, kind {:trigger k.all(Unmarked(s, kind))} | k.all(s) ensures k.all(Unmarked(s, kind)) {
      SameFollows(s, Unmarked(s, kind));
    }
  }

  lemma FollowSteps(p: System -> bool, js: Scripts)
    requires KeptByFollowing(p)
    ensures UniformSteps(p, Any(), js) && UnmarkSteps(Always(p))
  {
    FollowCalls(p);
    FollowReplies(p);
    FollowEvents(p);
  }

  // ----- one carrier -----

  ghost function CarriersKept(): System -> bool {
    (s: System) => OneCarrier(s)
  }

  lemma CarriersSteps(js: Scripts)
    ensures UniformSteps(CarriersKept(), Any(), js) && UnmarkSteps(Always(CarriersKept()))
  {
    var p := CarriersKept();
    forall s, s' {:trigger Follows(s, s')} | p(s) && Follows(s, s') ensures p(s') {
      FollowsOne(s, s');
    }
    FollowSteps(p, js);
  }

  lemma StepCarries(sys: System, e: Event, js: Scripts)
    requires OneCarrier(sys) && AllSettled(sys)
    ensures var r := Step(sys, e, js); r.Some? ==> OneCarrier(r.value)
  {
    CarriersSteps(js);
    StepUniformly(CarriersKept(), Any(), sys, e, js);
  }

  /** After any run of any scripts, no id of a registration is carried by or for two consoles. */
  lemma OneCarrierRuns(names: seq<string>, events: seq<Event>, js: Scripts)
    ensures var r := RunEvents(Start(names), events, js); r.Some? ==> OneCarrier(r.value)
  {
    var sys := Start(names);
    assert forall a :: a in Carrying(sys) ==> a.1 == 0 && a.0 in sys.cons;
    CarriersSteps(js);
    RunUniformly(CarriersKept(), Any(), sys, events, js);
  }
}
