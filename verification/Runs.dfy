/** The one-shot and answered-once guarantees over whole runs of events. */
module Runs {
  import opened Wrappers
  import opened Callbacks
  import opened Lifecycle
  import opened Protocol
  import opened Events
  import opened Walks
  import opened Uniform
  import opened Registrations
  import opened OneShot

  lemma StartInv(names: seq<string>)
    ensures Inv(Start(names))
  {
    var sys := Start(names);
    assert AllSignatures(sys) == {};
  }

  lemma StepInv(sys: System, e: Event, js: Scripts)
    requires Inv(sys) && AllSettled(sys)
    ensures var r := Step(sys, e, js); r.Some? ==> Inv(r.value)
  {
    InvSteps(js);
    StepUniformly(InvKept(), Any(), sys, e, js);
  }

  lemma RunInv(sys: System, events: seq<Event>, js: Scripts)
    requires Inv(sys) && AllSettled(sys)
    ensures var r := RunEvents(sys, events, js); r.Some? ==> Inv(r.value)
  {
    InvSteps(js);
    RunUniformly(InvKept(), Any(), sys, events, js);
  }

  /** For any consoles, any events and any behaviour of the scripts: no one-shot entry fires
      twice, no registration is answered twice, no registry exceeds its limit and no two
      entries, of whatever consoles, share an id. */
  lemma OneShotRuns(names: seq<string>, events: seq<Event>, js: Scripts)
    ensures var r := RunEvents(Start(names), events, js);
            r.Some? ==>
              && FiredOnce(r.value.log) && AnsweredOnce(r.value.log)
              && (forall n :: n in r.value.cons ==>
                   |r.value.cons[n].callbacks| <= MAX_CALLBACKS && UniqueIds(r.value.cons[n].callbacks)
                   && FamiliesMatch(r.value.cons[n].callbacks))
              && (forall n, m :: n in r.value.cons && m in r.value.cons && n != m ==>
                   Apart(r.value.cons[n].callbacks, r.value.cons[m].callbacks))
  {
    StartInv(names);
    RunInv(Start(names), events, js);
  }
}
