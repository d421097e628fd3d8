/**
 Conservation of observation ids: whatever is batched, retried or reported twice, no stored observation is
 consumed more than once, across all steps and all their attempts.
 */
module GuidedLedger {
  import opened Wrappers
  import opened GuidedModels
  import opened GuidedSteps
  import opened GuidedTransitions
  import opened GuidedRuns
  import opened GuidedEvolution

  /** How often `results` consumed the observation with this id. */
  function Uses(results: seq<StepResult>, id: string): nat {
    if results == [] then 0 else
      Uses(results[..|results| - 1], id) + multiset(results[|results| - 1].tally.observationIds)[id]
  }

  /** Every consumed id is a stored observation, consumed once, counting the retired attempts too. */
  ghost predicate ConsumedOnce(s: Session, retired: seq<StepResult>, stored: set<string>) {
    forall x :: Uses(s.results, x) + Uses(retired, x) <= if x in stored then 1 else 0
  }

  lemma {:induction false} UsesUpdate(rs: seq<StepResult>, i: nat, r: StepResult, x: string)
    requires i < |rs|
    ensures Uses(rs[i := r], x) + multiset(rs[i].tally.observationIds)[x]
            == Uses(rs, x) + multiset(r.tally.observationIds)[x]
  {
    var n := |rs| - 1;
    if i < n {
      UsesUpdate(rs[..n], i, r, x);
      assert rs[i := r][..n] == rs[..n][i := r];
    } else {
      assert rs[i := r][..n] == rs[..n];
    }
  }

  lemma {:induction false} UsesSame(rs: seq<StepResult>, qs: seq<StepResult>, x: string)
    requires |rs| == |qs|
    requires forall i :: 0 <= i < |rs| ==> rs[i].tally.observationIds == qs[i].tally.observationIds
    ensures Uses(rs, x) == Uses(qs, x)
  {
    if rs != [] {
      UsesSame(rs[..|rs| - 1], qs[..|qs| - 1], x);
    }
  }

  lemma UsesAppend(rs: seq<StepResult>, r: StepResult, x: string)
    ensures Uses(rs + [r], x) == Uses(rs, x) + multiset(r.tally.observationIds)[x]
  {
    assert (rs + [r])[..|rs|] == rs;
  }

  lemma InstallResult(s: Session, v: Live, id: SessionId)
    requires s.currentStepIndex < |s.results|
    ensures Install(s, v, id).results == s.results[s.currentStepIndex := v.result]
  {
  }

  /** A transition that leaves the current result's ids alone consumes nothing. */
  lemma InstallUses(s: Session, v: Live, id: SessionId, x: string)
    requires s.currentStepIndex < |s.results|
    requires v.result.tally.observationIds == Current(s).tally.observationIds
    ensures Uses(Install(s, v, id).results, x) == Uses(s.results, x)
  {
    hide Install;
    InstallResult(s, v, id);
    UsesUpdate(s.results, s.currentStepIndex, v.result, x);
  }

  /** The step takes telemetry: what is accepted now is consumed, anything else is only noted. */
  predicate Listens(plan: seq<ScenarioStep>, s: Session)
    requires WellFormed(plan, s)
  {
    && (s.status.Running? || s.status.AwaitingFeedback?)
    && (Current(s).status.Active? || Current(s).status.AwaitingFeedback?)
    && plan[s.currentStepIndex].oracle.Some?
  }

  lemma AcceptUses(plan: seq<ScenarioStep>, s: Session, o: Observation, k: Ticks, defer: bool, id: SessionId, x: string)
    requires WellFormed(plan, s)
    ensures Uses(AcceptObservation(plan, s, o, k, defer, id).results, x)
            == Uses(s.results, x) + (if x == o.id && Listens(plan, s) then 1 else 0)
  {
    hide Consume, Install;
    var step, r := plan[s.currentStepIndex], Current(s);
    if Listens(plan, s) {
      var v := Consume(step, step.oracle.value, CurrentLive(s), o, k, defer);
      ConsumeEvolves(step, step.oracle.value, CurrentLive(s), o, k, defer);
      InstallResult(s.(lastObservationAt := Some(k.accept)), v, id);
      UsesUpdate(s.results, s.currentStepIndex, v.result, x);
    }
  }

  lemma PerformUses(plan: seq<ScenarioStep>, s: Session, action: Action, t: int, id: SessionId, x: string)
    requires WellFormed(plan, s)
    requires Perform(plan, s, action, t, id).Ok?
    ensures Uses(Perform(plan, s, action, t, id).value.results, x)
            + (if action.Retry? then multiset(Current(s).tally.observationIds)[x] else 0) == Uses(s.results, x)
  {
    hide Install, Uses, FreshResult, AbortAll, GuidedSteps.Activate, GuidedSteps.Pause, GuidedSteps.Resume, GuidedSteps.Block;
    var step, r := plan[s.currentStepIndex], Current(s);
    match action
    case Retry => RetryUses(step, s, id, x);
    case Activate(confirmed) =>
      SameTally(step, r, confirmed, t);
      InstallUses(s, GuidedSteps.Activate(r, confirmed, t), id, x);
    case Pause =>
      SameTally(step, r, {}, t);
      InstallUses(s, GuidedSteps.Pause(r, t), id, x);
    case Resume =>
      SameTally(step, r, {}, t);
      InstallUses(s, GuidedSteps.Resume(r, t), id, x);
    case Block =>
      SameTally(step, r, {}, t);
      InstallUses(s, GuidedSteps.Block(step, r, t), id, x);
    case Abort => AbortUses(s.results, x);
    case _ =>
  }

  /** A retry drops exactly the ids of the attempt it replaces. */
  lemma RetryUses(step: ScenarioStep, s: Session, id: SessionId, x: string)
    requires s.currentStepIndex < |s.results|
    ensures Uses(Install(s, Live(Ready, FreshResult(step, Current(s).attempt + 1)), id).results, x)
            + multiset(Current(s).tally.observationIds)[x] == Uses(s.results, x)
  {
    hide Install, Uses;
    var again := FreshResult(step, Current(s).attempt + 1);
    InstallResult(s, Live(Ready, again), id);
    UsesUpdate(s.results, s.currentStepIndex, again, x);
  }

  lemma AbortUses(rs: seq<StepResult>, x: string)
    ensures Uses(AbortAll(rs), x) == Uses(rs, x)
  {
    UsesSame(AbortAll(rs), rs, x);
  }

  lemma SameTally(step: ScenarioStep, r: StepResult, confirmed: set<string>, t: int)
    ensures GuidedSteps.Activate(r, confirmed, t).result.tally == r.tally
    ensures GuidedSteps.Pause(r, t).result.tally == r.tally
    ensures r.timing.pausedAt.Some? ==> GuidedSteps.Resume(r, t).result.tally == r.tally
    ensures GuidedSteps.Block(step, r, t).result.tally == r.tally
  {
  }

  lemma AdvanceInstallUses(plan: seq<ScenarioStep>, s: Session, k: Ticks, id: SessionId, x: string)
    requires WellFormed(plan, s) && Current(s).status.Active? && plan[s.currentStepIndex].oracle.Some?
    ensures var v := Advance(plan[s.currentStepIndex], plan[s.currentStepIndex].oracle.value, CurrentLive(s), k).0;
            Uses(Install(s, v, id).results, x) == Uses(s.results, x)
  {
    hide Advance;
    var step := plan[s.currentStepIndex];
    AdvanceEvolves(step, step.oracle.value, CurrentLive(s), k);
    InstallUses(s, Advance(step, step.oracle.value, CurrentLive(s), k).0, id, x);
  }

  lemma RefreshUses(plan: seq<ScenarioStep>, d: Desk, k: Ticks, id: SessionId, x: string)
    requires WellFormed(plan, d.session)
    ensures Uses(Refresh(plan, d, k, id).session.results, x) == Uses(d.session.results, x)
  {
    hide Advance, Install, Elapsed, Timeout;
    var s := d.session;
    var step, r := plan[s.currentStepIndex], Current(s);
    if r.status.Active? && step.oracle.Some? {
      AdvanceInstallUses(plan, s, k, id, x);
    }
    TimeoutTally(step, r, k.finish);
    InstallUses(s, Timeout(step, r, k.finish), id, x);
  }

  lemma TimeoutTally(step: ScenarioStep, r: StepResult, t: int)
    ensures Timeout(step, r, t).result.tally == r.tally
  {
  }

  lemma RefreshKeepsTables(plan: seq<ScenarioStep>, d: Desk, k: Ticks, id: SessionId)
    requires WellFormed(plan, d.session)
    ensures Refresh(plan, d, k, id).retired == d.retired
    ensures Refresh(plan, d, k, id).observations == d.observations
  {
    hide Advance, Install, Elapsed, Timeout;
  }

  ghost predicate IdsInv(d: Desk) {
    ConsumedOnce(d.session, d.retired, d.observations)
  }

  lemma AcceptOnce(plan: seq<ScenarioStep>, s: Session, retired: seq<StepResult>, stored: set<string>,
                   o: Observation, k: Ticks, defer: bool, id: SessionId)
    requires WellFormed(plan, s)
    requires ConsumedOnce(s, retired, stored) && o.id !in stored
    ensures ConsumedOnce(AcceptObservation(plan, s, o, k, defer, id), retired, stored + {o.id})
  {
    hide AcceptObservation;
    forall x
      ensures Uses(AcceptObservation(plan, s, o, k, defer, id).results, x) + Uses(retired, x)
              <= if x in stored + {o.id} then 1 else 0
    {
      AcceptUses(plan, s, o, k, defer, id, x);
    }
  }

  lemma {:induction false} IngestOnce(plan: seq<ScenarioStep>, a: Intake, retired: seq<StepResult>, items: seq<Timed>,
                                      id: SessionId)
    requires WellFormed(plan, a.session)
    requires ConsumedOnce(a.session, retired, a.observations)
    ensures var b := IngestAll(plan, a, items, id);
            ConsumedOnce(b.session, retired, b.observations)
  {
    hide AcceptObservation, ConsumedOnce;
    if items != [] {
      var init, last := items[..|items| - 1], items[|items| - 1];
      IngestOnce(plan, a, retired, init, id);
      var b := IngestAll(plan, a, init, id);
      if last.observation.id !in b.observations {
        AcceptOnce(plan, b.session, retired, b.observations, last.observation, last.ticks, true, id);
      }
    }
  }

  lemma ObserveOnce(plan: seq<ScenarioStep>, d: Desk, o: Observation, k: Ticks, id: SessionId)
    requires WellFormed(plan, d.session) && IdsInv(d)
    ensures IdsInv(Observe(plan, d, o, k, id))
  {
    hide AcceptObservation;
    if o.id !in d.observations {
      AcceptOnce(plan, d.session, d.retired, d.observations, o, k, false, id);
    }
  }

  lemma CloseBatchOnce(plan: seq<ScenarioStep>, s: Session, retired: seq<StepResult>, stored: set<string>,
                       k: Ticks, id: SessionId)
    requires WellFormed(plan, s) && ConsumedOnce(s, retired, stored)
    ensures ConsumedOnce(CloseBatch(plan, s, k, id), retired, stored)
  {
    hide Advance, Install;
    forall x ensures Uses(CloseBatch(plan, s, k, id).results, x) == Uses(s.results, x) {
      if Current(s).status.Active? && plan[s.currentStepIndex].oracle.Some? {
        AdvanceInstallUses(plan, s, k, id, x);
      }
    }
  }

  lemma BatchOnce(plan: seq<ScenarioStep>, d: Desk, items: seq<Timed>, k: Ticks, id: SessionId)
    requires WellFormed(plan, d.session) && IdsInv(d)
    ensures IdsInv(ObserveBatch(plan, d, items, k, id).0)
  {
    hide IngestAll, CloseBatch;
    var start := Intake(d.session, d.observations, 0, 0);
    IngestOnce(plan, start, d.retired, items, id);
    var a := IngestAll(plan, start, items, id);
    CloseBatchOnce(plan, a.session, d.retired, a.observations, k, id);
  }

  lemma PerformOnce(plan: seq<ScenarioStep>, d: Desk, action: Action, t: int, id: SessionId)
    requires WellFormed(plan, d.session) && IdsInv(d)
    requires Perform(plan, d.session, action, t, id).Ok?
    ensures ConsumedOnce(Perform(plan, d.session, action, t, id).value,
                         if action.Retry? then d.retired + [Current(d.session)] else d.retired, d.observations)
  {
    hide Perform;
    forall x
      ensures Uses(Perform(plan, d.session, action, t, id).value.results, x)
              + Uses(if action.Retry? then d.retired + [Current(d.session)] else d.retired, x)
              == Uses(d.session.results, x) + Uses(d.retired, x)
    {
      PerformUses(plan, d.session, action, t, id, x);
      UsesAppend(d.retired, Current(d.session), x);
    }
  }

  lemma ControlOnce(plan: seq<ScenarioStep>, d: Desk, action: Action, token: Option<string>, expected: Option<nat>,
                    t: int, id: SessionId)
    requires WellFormed(plan, d.session) && IdsInv(d)
    ensures IdsInv(Control(plan, d, action, token, expected, t, id).desk)
  {
    hide Perform, Uses;
    if Perform(plan, d.session, action, t, id).Ok? {
      PerformOnce(plan, d, action, t, id);
    }
  }

  lemma FeedbackOnce(plan: seq<ScenarioStep>, d: Desk, verdict: Verdict, token: Option<string>, t: int, id: SessionId)
    requires WellFormed(plan, d.session) && IdsInv(d)
    ensures IdsInv(Feedback(plan, d, verdict, token, t, id).desk)
  {
    hide Install;
    var s := d.session;
    var out := SubmitVerdict(plan[s.currentStepIndex], s.hasObserver, CurrentLive(s), verdict, t);
    if out.Ok? {
      forall x ensures Uses(Install(s, out.value, id).results, x) == Uses(s.results, x) {
        InstallUses(s, out.value, id, x);
      }
    }
  }

  lemma RefreshOnce(plan: seq<ScenarioStep>, d: Desk, k: Ticks, id: SessionId)
    requires WellFormed(plan, d.session) && IdsInv(d)
    ensures IdsInv(Refresh(plan, d, k, id))
  {
    hide Refresh;
    RefreshKeepsTables(plan, d, k, id);
    forall x ensures Uses(Refresh(plan, d, k, id).session.results, x) == Uses(d.session.results, x) {
      RefreshUses(plan, d, k, id, x);
    }
  }

  lemma ServeOnce(plan: seq<ScenarioStep>, d: Desk, e: Event)
    requires WellFormed(plan, d.session) && IdsInv(d)
    ensures IdsInv(Serve(plan, d, e))
  {
    hide Control, Feedback, Observe, ObserveBatch;
    match e.request
    case Act(action, token, expected) => ControlOnce(plan, d, action, token, expected, e.act.finish, e.retestId);
    case Answer(verdict, token) => FeedbackOnce(plan, d, verdict, token, e.act.finish, e.retestId);
    case Report(o) => ObserveOnce(plan, d, o, e.act, e.retestId);
    case ReportBatch(items) => BatchOnce(plan, d, items, e.act, e.retestId);
    case _ =>
  }

  /** Over any run, across steps, batches and retries, every stored observation is consumed at most once. */
  lemma {:induction false} RunConsumesOnce(plan: seq<ScenarioStep>, d: Desk, events: seq<Event>)
    requires WellFormed(plan, d.session) && IdsInv(d)
    ensures IdsInv(Run(plan, d, events))
  {
    hide Serve, Refresh, IdsInv;
    if events != [] {
      var before, e := Run(plan, d, events[..|events| - 1]), events[|events| - 1];
      RunConsumesOnce(plan, d, events[..|events| - 1]);
      RefreshOnce(plan, before, e.refresh, e.retestId);
      ServeOnce(plan, Refresh(plan, before, e.refresh, e.retestId), e);
      ServeOnce(plan, before, e);
    }
  }
}
