/** An id that nobody carries any more, and that nobody has tried to answer, never will be
    carried or answered again. */
module Dropped {
  import opened Wrappers
  import opened Callbacks
  import opened Lifecycle
  import opened Protocol
  import opened Events
  import opened Walks
  import opened Uniform
  import opened Carriers
  import opened Replies

  /** An id handed out earlier that nobody carries and nobody has tried to answer. */
  ghost predicate Forgotten(sys: System, id: int) {
    0 < id < sys.nextId && !Carried(sys, id) && !Attempted(sys.log, id)
  }

  lemma FollowsForgotten(sys: System, sys': System, id: int)
    requires Forgotten(sys, id) && Follows(sys, sys')
    ensures Forgotten(sys', id)
  {
    assert forall k :: 0 <= k < |sys.log| ==> sys'.log[k] == sys.log[k];
  }

  ghost function ForgottenKept(id: int): System -> bool {
    (s: System) => Forgotten(s, id)
  }

  lemma ForgottenSteps(id: int, js: Scripts)
    ensures UniformSteps(ForgottenKept(id), Any(), js) && UnmarkSteps(Always(ForgottenKept(id)))
  {
    var p := ForgottenKept(id);
    forall s, s' {:trigger Follows(s, s')} | p(s) && Follows(s, s') ensures p(s') {
      FollowsForgotten(s, s', id);
    }
    FollowSteps(p, js);
  }

  lemma StepForgets(sys: System, e: Event, js: Scripts, id: int)
    requires Forgotten(sys, id) && AllSettled(sys)
    ensures var r := Step(sys, e, js); r.Some? ==> Forgotten(r.value, id)
  {
    ForgottenSteps(id, js);
    StepUniformly(ForgottenKept(id), Any(), sys, e, js);
  }

  /** Whatever happens and whatever scripts do, it stays forgotten. */
  lemma RunForgets(sys: System, events: seq<Event>, js: Scripts, id: int)
    requires Forgotten(sys, id) && AllSettled(sys)
    ensures var r := RunEvents(sys, events, js); r.Some? ==> Forgotten(r.value, id)
  {
    ForgottenSteps(id, js);
    RunUniformly(ForgottenKept(id), Any(), sys, events, js);
  }

  lemma NobodyOwes(sys: System, id: int)
    requires Forgotten(sys, id)
    ensures !Accounted(sys, id)
  {
    forall n | n in sys.cons ensures sys.cons[n].brief.callbackId != id {
      Carries1(sys, n);
    }
    forall k | 0 <= k < |sys.pending| ensures sys.pending[k].1.callbackId != id {
      PendingCarries(sys, k);
    }
  }
}
