/**
 What no later call can undo: a passed step, a recorded verdict, a consumed observation. Also which ids are
 consumed, who may move a session on, and which terminal sessions can be reopened.
 */
module GuidedEvolution {
  import opened Wrappers
  import opened GuidedModels
  import opened GuidedSteps
  import opened GuidedTransitions
  import opened GuidedRuns

  /** A result only grows: PASSED is final, and within one attempt verdict and samples are never withdrawn. */
  ghost predicate Evolves(r: StepResult, q: StepResult) {
    && (r.status.Passed? ==> q == r)
    && r.attempt <= q.attempt
    && (q.attempt == r.attempt ==>
          && (r.manualVerdict.Some? ==> q.manualVerdict == r.manualVerdict)
          && r.tally.samples <= q.tally.samples)
  }

  ghost predicate SessionEvolves(s: Session, t: Session) {
    |s.results| == |t.results| && forall i :: 0 <= i < |s.results| ==> Evolves(s.results[i], t.results[i])
  }

  lemma EvolvesTransitive(s: Session, t: Session, u: Session)
    requires SessionEvolves(s, t) && SessionEvolves(t, u)
    ensures SessionEvolves(s, u)
  {
    forall i | 0 <= i < |s.results| ensures Evolves(s.results[i], u.results[i]) {
      assert Evolves(s.results[i], t.results[i]) && Evolves(t.results[i], u.results[i]);
    }
  }

  lemma InstallEvolves(s: Session, v: Live, id: SessionId)
    requires s.currentStepIndex < |s.results| && Evolves(Current(s), v.result)
    ensures SessionEvolves(s, Install(s, v, id))
  {
  }

  lemma AdvanceEvolves(step: ScenarioStep, oracle: TelemetryOracle, v: Live, k: Ticks)
    requires v.result.status.Active?
    ensures Evolves(v.result, Advance(step, oracle, v, k).0.result)
    ensures Advance(step, oracle, v, k).0.result.tally == v.result.tally
    ensures Advance(step, oracle, v, k).0.result.attempt == v.result.attempt
    ensures Advance(step, oracle, v, k).0.result.manualVerdict == v.result.manualVerdict
  {
  }

  lemma ConsumeEvolves(step: ScenarioStep, oracle: TelemetryOracle, v: Live, o: Observation, k: Ticks, defer: bool)
    requires v.result.status.Active? || v.result.status.AwaitingFeedback?
    ensures Evolves(v.result, Consume(step, oracle, v, o, k, defer).result)
    ensures Consume(step, oracle, v, o, k, defer).result.tally.observationIds
            == v.result.tally.observationIds + [o.id]
  {
    hide Violation, OracleSatisfied;
    var j := Judge(oracle, Absorb(v.result, o, k.accept), o);
    if v.result.status.Active? {
      AdvanceEvolves(step, oracle, v.(result := j), k);
      hide Advance;
    }
  }

  lemma PerformEvolves(plan: seq<ScenarioStep>, s: Session, action: Action, t: int, id: SessionId)
    requires WellFormed(plan, s)
    ensures var out := Perform(plan, s, action, t, id);
            out.Ok? ==> SessionEvolves(s, out.value)
  {
    hide FinalStatus, RetryIds, FinishTiming, FinishEvidence;
  }

  lemma AcceptEvolves(plan: seq<ScenarioStep>, s: Session, o: Observation, k: Ticks, defer: bool, id: SessionId)
    requires WellFormed(plan, s)
    ensures SessionEvolves(s, AcceptObservation(plan, s, o, k, defer, id))
  {
    hide Consume;
    var step, r := plan[s.currentStepIndex], Current(s);
    if (r.status.Active? || r.status.AwaitingFeedback?) && step.oracle.Some? {
      ConsumeEvolves(step, step.oracle.value, CurrentLive(s), o, k, defer);
    }
  }

  lemma TimeoutEvolves(step: ScenarioStep, r: StepResult, t: int)
    requires r.status.Active?
    ensures Evolves(r, Timeout(step, r, t).result)
  {
  }

  lemma RefreshEvolves(plan: seq<ScenarioStep>, d: Desk, k: Ticks, id: SessionId)
    requires WellFormed(plan, d.session)
    ensures SessionEvolves(d.session, Refresh(plan, d, k, id).session)
  {
    hide Advance, Elapsed, Timeout, Install;
    var s := d.session;
    var step, r := plan[s.currentStepIndex], Current(s);
    if r.status.Active? {
      if step.oracle.Some? {
        AdvanceEvolves(step, step.oracle.value, CurrentLive(s), k);
        InstallEvolves(s, Advance(step, step.oracle.value, CurrentLive(s), k).0, id);
      }
      TimeoutEvolves(step, r, k.finish);
      InstallEvolves(s, Timeout(step, r, k.finish), id);
    }
  }

  lemma CloseBatchEvolves(plan: seq<ScenarioStep>, s: Session, k: Ticks, id: SessionId)
    requires WellFormed(plan, s)
    ensures SessionEvolves(s, CloseBatch(plan, s, k, id))
  {
    hide Advance;
    var step, r := plan[s.currentStepIndex], Current(s);
    if r.status.Active? && step.oracle.Some? {
      AdvanceEvolves(step, step.oracle.value, CurrentLive(s), k);
    }
  }

  lemma {:induction false} IngestEvolves(plan: seq<ScenarioStep>, a: Intake, items: seq<Timed>, id: SessionId)
    requires WellFormed(plan, a.session)
    ensures SessionEvolves(a.session, IngestAll(plan, a, items, id).session)
  {
    hide AcceptObservation;
    if items != [] {
      var init, last := items[..|items| - 1], items[|items| - 1];
      IngestEvolves(plan, a, init, id);
      var b := IngestAll(plan, a, init, id);
      AcceptEvolves(plan, b.session, last.observation, last.ticks, true, id);
      EvolvesTransitive(a.session, b.session, IngestAll(plan, a, items, id).session);
    }
  }

  lemma BatchEvolves(plan: seq<ScenarioStep>, d: Desk, items: seq<Timed>, k: Ticks, id: SessionId)
    requires WellFormed(plan, d.session)
    ensures SessionEvolves(d.session, ObserveBatch(plan, d, items, k, id).0.session)
  {
    hide CloseBatch, IngestAll, Evolves;
    var start := Intake(d.session, d.observations, 0, 0);
    var a := IngestAll(plan, start, items, id);
    IngestEvolves(plan, start, items, id);
    CloseBatchEvolves(plan, a.session, k, id);
    EvolvesTransitive(d.session, a.session, CloseBatch(plan, a.session, k, id));
    SelfEvolves(d.session);
  }

  lemma SelfEvolves(s: Session)
    ensures SessionEvolves(s, s)
  {
  }

  lemma AnswerEvolves(step: ScenarioStep, hasObserver: bool, v: Live, verdict: Verdict, t: int)
    ensures var out := SubmitVerdict(step, hasObserver, v, verdict, t);
            out.Ok? ==> Evolves(v.result, out.value.result)
  {
  }

  lemma FeedbackEvolves(plan: seq<ScenarioStep>, d: Desk, verdict: Verdict, token: Option<string>, t: int, id: SessionId)
    requires WellFormed(plan, d.session)
    ensures SessionEvolves(d.session, Feedback(plan, d, verdict, token, t, id).desk.session)
  {
    hide SubmitVerdict, Install, Evolves;
    var s := d.session;
    var step := plan[s.currentStepIndex];
    SelfEvolves(s);
    AnswerEvolves(step, s.hasObserver, CurrentLive(s), verdict, t);
    var out := SubmitVerdict(step, s.hasObserver, CurrentLive(s), verdict, t);
    if out.Ok? { InstallEvolves(s, out.value, id); }
  }

  lemma ServeEvolves(plan: seq<ScenarioStep>, d: Desk, e: Event)
    requires WellFormed(plan, d.session)
    ensures SessionEvolves(d.session, Serve(plan, d, e).session)
  {
    hide Perform, AcceptObservation, ObserveBatch, Feedback, Evolves;
    SelfEvolves(d.session);
    match e.request
    case Act(action, _, _) => PerformEvolves(plan, d.session, action, e.act.finish, e.retestId);
    case Answer(verdict, token) => FeedbackEvolves(plan, d, verdict, token, e.act.finish, e.retestId);
    case Report(o) => AcceptEvolves(plan, d.session, o, e.act, false, e.retestId);
    case ReportBatch(items) => BatchEvolves(plan, d, items, e.act, e.retestId);
    case _ =>
  }

  lemma StepEvolves(plan: seq<ScenarioStep>, d: Desk, e: Event)
    requires WellFormed(plan, d.session)
    ensures SessionEvolves(d.session, Step(plan, d, e).session)
  {
    hide Serve, Refresh;
    var f := Refresh(plan, d, e.refresh, e.retestId);
    RefreshEvolves(plan, d, e.refresh, e.retestId);
    ServeEvolves(plan, f, e);
    ServeEvolves(plan, d, e);
    EvolvesTransitive(d.session, f.session, Serve(plan, f, e).session);
  }

  /** Over any run a passed step keeps its whole record and a verdict stands for the rest of its attempt. */
  lemma {:induction false} RunEvolves(plan: seq<ScenarioStep>, d: Desk, events: seq<Event>)
    requires WellFormed(plan, d.session)
    ensures SessionEvolves(d.session, Run(plan, d, events).session)
  {
    hide Step;
    if events != [] {
      var init := events[..|events| - 1];
      RunEvolves(plan, d, init);
      StepEvolves(plan, Run(plan, d, init), events[|events| - 1]);
      EvolvesTransitive(d.session, Run(plan, d, init).session, Run(plan, d, events).session);
    }
  }
}
