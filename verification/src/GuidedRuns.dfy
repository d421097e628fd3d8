/**
 Safety over whole runs: the coupling of session and step status, and the step invariant of every result,
 hold after any sequence of public calls, in any order, on a clock that never steps back.
 */
module GuidedRuns {
  import opened Wrappers
  import opened GuidedModels
  import opened GuidedSteps
  import opened GuidedStepLaws
  import opened GuidedTelemetryLaws
  import opened GuidedTransitions

  ghost predicate ValidPlan(plan: seq<ScenarioStep>) {
    plan != [] && forall i :: 0 <= i < |plan| ==> plan[i].Valid()
  }

  ghost predicate StepsInv(plan: seq<ScenarioStep>, s: Session, now: int) {
    && |plan| == |s.results|
    && forall i :: 0 <= i < |plan| ==> StepInv(plan[i], s.hasObserver, s.results[i], now)
  }

  ghost predicate AllTerminal(results: seq<StepResult>) {
    forall i :: 0 <= i < |results| ==> results[i].Terminal()
  }

  /** How the session status, the index and the step statuses fit together. */
  ghost predicate Coupling(s: Session) {
    && s.currentStepIndex < |s.results|
    && Coupled(s.status, Current(s))
    && (s.status.StepComplete? ==> s.currentStepIndex + 1 < |s.results|)
    && (forall i :: 0 <= i < s.currentStepIndex ==> s.results[i].Terminal())
    && (forall i :: s.currentStepIndex < i < |s.results| ==> !s.results[i].Live())
    && (s.Terminal() ==> AllTerminal(s.results))
    && (s.status.Completed? || s.status.Failed? || s.status.Blocked? ==>
          s.status == FinalStatus(s.results) && s.currentStepIndex + 1 == |s.results|)
  }

  ghost predicate SessionInv(plan: seq<ScenarioStep>, s: Session, now: int) {
    ValidPlan(plan) && StepsInv(plan, s, now) && Coupling(s)
  }

  lemma SoundIsWellFormed(plan: seq<ScenarioStep>, s: Session, now: int)
    requires SessionInv(plan, s, now)
    ensures WellFormed(plan, s)
  {
    hide StepInv;
  }

  lemma NewSessionKeeps(plan: seq<ScenarioStep>, hasObserver: bool, parent: Option<SessionId>, attempt: nat, now: int)
    requires ValidPlan(plan)
    ensures SessionInv(plan, NewSession(plan, hasObserver, parent, attempt), now)
  {
    hide StepInv;
    forall i | 0 <= i < |plan|
      ensures StepInv(plan[i], hasObserver, NewSession(plan, hasObserver, parent, attempt).results[i], now)
    {
      FreshKeeps(plan[i], hasObserver, 1, now);
    }
  }

  lemma LaterSession(plan: seq<ScenarioStep>, s: Session, now: int, t: int)
    requires SessionInv(plan, s, now) && now <= t
    ensures SessionInv(plan, s, t)
  {
    forall i | 0 <= i < |plan| ensures StepInv(plan[i], s.hasObserver, s.results[i], t) {
      LaterKeeps(plan[i], s.hasObserver, s.results[i], now, t);
    }
  }

  /** Every finalization finds all steps terminal, so its fallback branch is never taken. */
  lemma FinalizeDecides(results: seq<StepResult>)
    requires AllTerminal(results)
    ensures FinalStatus(results).Completed? <==> forall i :: 0 <= i < |results| ==> results[i].status.Passed?
    ensures FinalStatus(results).Failed? <==> exists i :: 0 <= i < |results| && results[i].status.Failed?
    ensures FinalStatus(results).Blocked? <==>
            && (exists i :: 0 <= i < |results| && results[i].status.Blocked?)
            && (forall i :: 0 <= i < |results| ==> !results[i].status.Failed?)
  {
    if forall i :: 0 <= i < |results| ==> !results[i].status.Failed? && !results[i].status.Blocked? {
      assert forall i :: 0 <= i < |results| ==> results[i].Terminal() && results[i].status.Passed?;
    }
  }

  lemma FinalizeKeeps(plan: seq<ScenarioStep>, s: Session, now: int, id: SessionId)
    requires ValidPlan(plan) && StepsInv(plan, s, now)
    requires s.currentStepIndex + 1 == |s.results| && AllTerminal(s.results)
    ensures SessionInv(plan, Finalize(s, id), now)
  {
    hide StepInv;
    FinalizeDecides(s.results);
  }

  lemma InstallKeeps(plan: seq<ScenarioStep>, s: Session, v: Live, id: SessionId, now: int, t: int)
    requires SessionInv(plan, s, now) && now <= t
    requires StepInv(plan[s.currentStepIndex], s.hasObserver, v.result, t) && Coupled(v.status, v.result)
    requires v.status.Ready? || v.status.Running? || v.status.Paused? || v.status.AwaitingFeedback?
             || v.status.StepComplete?
    ensures SessionInv(plan, Install(s, v, id), t)
  {
    hide StepInv;
    var next := s.(status := v.status, results := s.results[s.currentStepIndex := v.result]);
    forall i | 0 <= i < |plan| ensures StepInv(plan[i], s.hasObserver, next.results[i], t) {
      LaterKeeps(plan[i], s.hasObserver, s.results[i], now, t);
    }
    if v.status.StepComplete? && s.currentStepIndex + 1 >= |s.results| {
      FinalizeKeeps(plan, next, t, id);
    }
  }

  lemma AbortKeepsSession(plan: seq<ScenarioStep>, s: Session, now: int)
    requires SessionInv(plan, s, now)
    ensures SessionInv(plan, s.(results := AbortAll(s.results), status := Aborted), now)
  {
    hide StepInv;
    forall i | 0 <= i < |plan| ensures StepInv(plan[i], s.hasObserver, AbortAll(s.results)[i], now) {
      AbortKeeps(plan[i], s.hasObserver, s.results[i], now);
    }
  }

  /** Where the controls on a step leave session and step. */
  lemma ControlStatuses(step: ScenarioStep, r: StepResult, confirmed: set<string>, t: int)
    ensures var v := GuidedSteps.Activate(r, confirmed, t); v.status.Running? && v.result.status.Active?
    ensures var v := GuidedSteps.Pause(r, t); v.status.Paused? && v.result.status.Paused?
    ensures r.timing.pausedAt.Some? ==>
              var v := GuidedSteps.Resume(r, t); v.status.Running? && v.result.status.Active?
    ensures var v := GuidedSteps.Block(step, r, t); v.status.StepComplete? && v.result.status.Blocked?
    ensures FreshResult(step, r.attempt + 1).status.Pending?
  {
    hide FinishTiming, FinishEvidence;
  }

  /** The controls on the session as a whole. */
  lemma MoveOnKeeps(plan: seq<ScenarioStep>, s: Session, action: Action, now: int, t: int, id: SessionId)
    requires SessionInv(plan, s, now) && now <= t && (action.Approve? || action.Next? || action.Abort?)
    ensures WellFormed(plan, s)
    ensures var out := Perform(plan, s, action, t, id);
            out.Ok? ==> SessionInv(plan, out.value, t)
  {
    hide StepInv, FinalStatus, AbortAll, RetryIds;
    LaterSession(plan, s, now, t);
    match action
    case Next =>
      if s.currentStepIndex + 1 >= |s.results| && Current(s).Terminal() {
        FinalizeKeeps(plan, s, t, id);
      }
    case Abort => AbortKeepsSession(plan, s, t);
    case _ =>
  }

  /** The controls on the current step. */
  lemma StepControlKeeps(plan: seq<ScenarioStep>, s: Session, action: Action, now: int, t: int, id: SessionId)
    requires SessionInv(plan, s, now) && now <= t && !(action.Approve? || action.Next? || action.Abort?)
    ensures WellFormed(plan, s)
    ensures var out := Perform(plan, s, action, t, id);
            out.Ok? ==> SessionInv(plan, out.value, t)
  {
    hide SessionInv, StepInv, Install, FreshResult, GuidedSteps.Activate, GuidedSteps.Pause, GuidedSteps.Resume,
      GuidedSteps.Block;
    SoundCurrent(plan, s, now);
    var step, r, ob := plan[s.currentStepIndex], Current(s), s.hasObserver;
    ControlStatuses(step, r, if action.Activate? then action.confirmed else {}, t);
    if Perform(plan, s, action, t, id).Ok? {
      match action
      case Activate(confirmed) =>
        ActivateKeeps(step, ob, r, confirmed, now, t);
        InstallKeeps(plan, s, GuidedSteps.Activate(r, confirmed, t), id, now, t);
      case Retry =>
        FreshKeeps(step, ob, r.attempt + 1, t);
        InstallKeeps(plan, s, Live(Ready, FreshResult(step, r.attempt + 1)), id, now, t);
      case Pause =>
        PauseKeeps(step, ob, r, now, t);
        InstallKeeps(plan, s, GuidedSteps.Pause(r, t), id, now, t);
      case Resume =>
        ResumeKeeps(step, ob, r, now, t);
        InstallKeeps(plan, s, GuidedSteps.Resume(r, t), id, now, t);
      case Block =>
        BlockKeeps(step, ob, r, now, t);
        InstallKeeps(plan, s, GuidedSteps.Block(step, r, t), id, now, t);
    }
  }

  lemma SoundCurrent(plan: seq<ScenarioStep>, s: Session, now: int)
    requires SessionInv(plan, s, now)
    ensures WellFormed(plan, s) && plan[s.currentStepIndex].Valid()
    ensures StepInv(plan[s.currentStepIndex], s.hasObserver, Current(s), now) && Coupled(s.status, Current(s))
  {
    hide StepInv;
  }

  lemma PerformKeeps(plan: seq<ScenarioStep>, s: Session, action: Action, now: int, t: int, id: SessionId)
    requires SessionInv(plan, s, now) && now <= t
    ensures var out := Perform(plan, s, action, t, id);
            out.Ok? ==> SessionInv(plan, out.value, t)
  {
    hide SessionInv, Perform;
    if action.Approve? || action.Next? || action.Abort? {
      MoveOnKeeps(plan, s, action, now, t, id);
    } else {
      StepControlKeeps(plan, s, action, now, t, id);
    }
  }

  lemma SeenKeeps(plan: seq<ScenarioStep>, s: Session, t: int, now: int)
    requires SessionInv(plan, s, now)
    ensures SessionInv(plan, s.(lastObservationAt := Some(t)), now)
  {
    hide StepInv;
  }

  lemma AcceptKeeps(plan: seq<ScenarioStep>, s: Session, o: Observation, now: int, k: Ticks, defer: bool, id: SessionId)
    requires SessionInv(plan, s, now) && k.From(now)
    ensures SessionInv(plan, AcceptObservation(plan, s, o, k, defer, id), k.finish)
  {
    hide StepInv, Consume, Install;
    var seen := s.(lastObservationAt := Some(k.accept));
    SeenKeeps(plan, s, k.accept, now);
    var step, r := plan[s.currentStepIndex], Current(s);
    if (s.status.Running? || s.status.AwaitingFeedback?) && step.oracle.Some? {
      ConsumeKeeps(step, s.hasObserver, step.oracle.value, CurrentLive(s), o, now, k, defer);
      ConsumeStatus(step, step.oracle.value, CurrentLive(s), o, k, defer);
      InstallKeeps(plan, seen, Consume(step, step.oracle.value, CurrentLive(s), o, k, defer), id, now, k.finish);
    } else {
      LaterSession(plan, seen, now, k.finish);
    }
  }

  lemma AdvanceStatus(step: ScenarioStep, oracle: TelemetryOracle, v: Live, k: Ticks)
    requires v.status.Running?
    ensures var w := Advance(step, oracle, v, k).0;
            w.status.Running? || w.status.AwaitingFeedback? || w.status.StepComplete?
  {
  }

  lemma ConsumeStatus(step: ScenarioStep, oracle: TelemetryOracle, v: Live, o: Observation, k: Ticks, defer: bool)
    requires Coupled(v.status, v.result) && (v.result.status.Active? || v.result.status.AwaitingFeedback?)
    ensures var w := Consume(step, oracle, v, o, k, defer);
            w.status.Running? || w.status.AwaitingFeedback? || w.status.StepComplete?
  {
    var j := Judge(oracle, Absorb(v.result, o, k.accept), o);
    if v.status.Running? {
      AdvanceStatus(step, oracle, v.(result := j), k);
    }
  }

  lemma AdvanceSessionKeeps(plan: seq<ScenarioStep>, s: Session, now: int, k: Ticks, id: SessionId)
    requires SessionInv(plan, s, now) && k.From(now)
    requires Current(s).status.Active? && plan[s.currentStepIndex].oracle.Some?
    ensures var v := Advance(plan[s.currentStepIndex], plan[s.currentStepIndex].oracle.value, CurrentLive(s), k).0;
            SessionInv(plan, Install(s, v, id), k.finish)
  {
    var step := plan[s.currentStepIndex];
    AdvanceKeeps(step, s.hasObserver, step.oracle.value, CurrentLive(s), now, k);
    AdvanceStatus(step, step.oracle.value, CurrentLive(s), k);
    InstallKeeps(plan, s, Advance(step, step.oracle.value, CurrentLive(s), k).0, id, now, k.finish);
  }

  lemma TimeoutSessionKeeps(plan: seq<ScenarioStep>, s: Session, now: int, t: int, id: SessionId)
    requires SessionInv(plan, s, now) && Current(s).status.Active? && now <= t
    ensures SessionInv(plan, Install(s, Timeout(plan[s.currentStepIndex], Current(s), t), id), t)
  {
    hide StepInv;
    TimeoutKeeps(plan[s.currentStepIndex], s.hasObserver, Current(s), now, t);
    InstallKeeps(plan, s, Timeout(plan[s.currentStepIndex], Current(s), t), id, now, t);
  }

  lemma RefreshKeeps(plan: seq<ScenarioStep>, d: Desk, now: int, k: Ticks, id: SessionId)
    requires SessionInv(plan, d.session, now) && k.From(now)
    ensures SessionInv(plan, Refresh(plan, d, k, id).session, k.finish)
  {
    hide StepInv, Install, Advance, Timeout, Elapsed;
    var s := d.session;
    var step, r := plan[s.currentStepIndex], Current(s);
    if s.status.Running? {
      if step.oracle.Some? {
        AdvanceSessionKeeps(plan, s, now, k, id);
      }
      TimeoutSessionKeeps(plan, s, now, k.finish, id);
    }
    LaterSession(plan, s, now, k.finish);
  }

  lemma BatchTimesPrefix(now: int, items: seq<Timed>)
    requires BatchTimes(now, items) && items != []
    ensures BatchTimes(now, items[..|items| - 1])
    ensures items[|items| - 1].ticks.From(BatchEnd(now, items[..|items| - 1]))
  {
    var init := items[..|items| - 1];
    assert forall i :: 0 <= i < |init| ==> init[..i] == items[..i];
  }

  lemma IngestOneKeeps(plan: seq<ScenarioStep>, a: Intake, x: Timed, now: int, id: SessionId)
    requires SessionInv(plan, a.session, now) && x.ticks.From(now)
    ensures WellFormed(plan, a.session) && SessionInv(plan, Ingest(plan, a, x, id).session, x.ticks.finish)
  {
    hide SessionInv, AcceptObservation;
    SoundIsWellFormed(plan, a.session, now);
    AcceptKeeps(plan, a.session, x.observation, now, x.ticks, true, id);
    LaterSession(plan, a.session, now, x.ticks.finish);
  }

  lemma {:induction false} IngestKeeps(plan: seq<ScenarioStep>, a: Intake, items: seq<Timed>, now: int, id: SessionId)
    requires SessionInv(plan, a.session, now) && BatchTimes(now, items)
    ensures SessionInv(plan, IngestAll(plan, a, items, id).session, BatchEnd(now, items))
  {
    hide SessionInv, Ingest, BatchTimes;
    if items != [] {
      var init := items[..|items| - 1];
      BatchTimesPrefix(now, items);
      SoundIsWellFormed(plan, a.session, now);
      IngestKeeps(plan, a, init, now, id);
      IngestOneKeeps(plan, IngestAll(plan, a, init, id), items[|items| - 1], BatchEnd(now, init), id);
    }
  }

  lemma CloseBatchKeeps(plan: seq<ScenarioStep>, s: Session, now: int, k: Ticks, id: SessionId)
    requires SessionInv(plan, s, now) && k.From(now)
    ensures WellFormed(plan, s) && SessionInv(plan, CloseBatch(plan, s, k, id), k.finish)
  {
    hide StepInv, Advance, Install;
    if Current(s).status.Active? && plan[s.currentStepIndex].oracle.Some? {
      AdvanceSessionKeeps(plan, s, now, k, id);
    }
    LaterSession(plan, s, now, k.finish);
  }

  /** Saving raises the revision, which the invariant does not read. */
  lemma SavedKeeps(plan: seq<ScenarioStep>, s: Session, now: int)
    requires SessionInv(plan, s, now)
    ensures SessionInv(plan, s.(revision := s.revision + 2), now)
  {
    hide StepInv;
  }

  lemma ObserveBatchKeeps(plan: seq<ScenarioStep>, d: Desk, items: seq<Timed>, now: int, k: Ticks, id: SessionId)
    requires SessionInv(plan, d.session, now) && BatchTimes(now, items) && k.From(BatchEnd(now, items))
    requires now <= k.finish
    ensures SessionInv(plan, ObserveBatch(plan, d, items, k, id).0.session, k.finish)
  {
    hide SessionInv, IngestAll, CloseBatch, BatchTimes;
    LaterSession(plan, d.session, now, k.finish);
    SoundIsWellFormed(plan, d.session, now);
    var a := IngestAll(plan, Intake(d.session, d.observations, 0, 0), items, id);
    IngestKeeps(plan, Intake(d.session, d.observations, 0, 0), items, now, id);
    CloseBatchKeeps(plan, a.session, BatchEnd(now, items), k, id);
    SavedKeeps(plan, CloseBatch(plan, a.session, k, id), k.finish);
  }

  lemma AnswerKeeps(plan: seq<ScenarioStep>, s: Session, verdict: Verdict, now: int, t: int, id: SessionId)
    requires SessionInv(plan, s, now) && now <= t
    ensures var out := SubmitVerdict(plan[s.currentStepIndex], s.hasObserver, CurrentLive(s), verdict, t);
            out.Ok? ==> SessionInv(plan, Install(s, out.value, id), t)
  {
    hide StepInv, SubmitVerdict, Install;
    var step := plan[s.currentStepIndex];
    SubmitVerdictKeeps(step, s.hasObserver, CurrentLive(s), verdict, now, t);
    var out := SubmitVerdict(step, s.hasObserver, CurrentLive(s), verdict, t);
    if out.Ok? {
      VerdictStatus(step, s.hasObserver, CurrentLive(s), verdict, t);
      InstallKeeps(plan, s, out.value, id, now, t);
    }
  }

  lemma VerdictStatus(step: ScenarioStep, hasObserver: bool, v: Live, verdict: Verdict, t: int)
    ensures var out := SubmitVerdict(step, hasObserver, v, verdict, t);
            out.Ok? ==> out.value.status.Running? || out.value.status.StepComplete?
  {
  }

  lemma FeedbackKeeps(plan: seq<ScenarioStep>, d: Desk, verdict: Verdict, token: Option<string>, now: int, t: int,
                      id: SessionId)
    requires SessionInv(plan, d.session, now) && now <= t
    ensures SessionInv(plan, Feedback(plan, d, verdict, token, t, id).desk.session, t)
  {
    hide StepInv, SubmitVerdict, Install;
    LaterSession(plan, d.session, now, t);
    AnswerKeeps(plan, d.session, verdict, now, t, id);
  }

  lemma {:induction false} BatchEndLater(now: int, items: seq<Timed>)
    requires BatchTimes(now, items)
    ensures now <= BatchEnd(now, items)
  {
    if items != [] {
      hide BatchTimes;
      BatchTimesPrefix(now, items);
      BatchEndLater(now, items[..|items| - 1]);
    }
  }

  lemma ServeKeeps(plan: seq<ScenarioStep>, d: Desk, e: Event, now: int)
    requires SessionInv(plan, d.session, now)
    requires if e.request.ReportBatch? then BatchTimes(now, e.request.items) && e.act.From(BatchEnd(now, e.request.items))
             else e.act.From(now)
    ensures SessionInv(plan, Serve(plan, d, e).session, e.act.finish)
  {
    hide StepInv, Install, Perform, AcceptObservation, ObserveBatch, Feedback;
    match e.request
    case Act(action, _, _) =>
      LaterSession(plan, d.session, now, e.act.finish);
      PerformKeeps(plan, d.session, action, now, e.act.finish, e.retestId);
    case Answer(verdict, token) =>
      FeedbackKeeps(plan, d, verdict, token, now, e.act.finish, e.retestId);
    case Report(o) =>
      LaterSession(plan, d.session, now, e.act.finish);
      AcceptKeeps(plan, d.session, o, now, e.act, false, e.retestId);
    case ReportBatch(items) =>
      BatchEndLater(now, items);
      ObserveBatchKeeps(plan, d, items, now, e.act, e.retestId);
    case _ =>
      LaterSession(plan, d.session, now, e.act.finish);
  }

  lemma StepKeeps(plan: seq<ScenarioStep>, d: Desk, e: Event, now: int)
    requires SessionInv(plan, d.session, now) && TimesFrom(now, e)
    ensures SessionInv(plan, Step(plan, d, e).session, e.act.finish)
  {
    RefreshKeeps(plan, d, now, e.refresh, e.retestId);
    if e.request.OpenRunner? || e.request.RestartProcess? {
      LaterSession(plan, d.session, now, e.refresh.finish);
      ServeKeeps(plan, d, e, e.refresh.finish);
    } else {
      ServeKeeps(plan, Refresh(plan, d, e.refresh, e.retestId), e, e.refresh.finish);
    }
  }

  // ---- whole runs ----

  function LastReading(start: int, events: seq<Event>): int {
    if events == [] then start else events[|events| - 1].act.finish
  }

  ghost predicate Timeline(start: int, events: seq<Event>) {
    forall i :: 0 <= i < |events| ==> TimesFrom(LastReading(start, events[..i]), events[i])
  }

  function Run(plan: seq<ScenarioStep>, d: Desk, events: seq<Event>): (r: Desk)
    requires WellFormed(plan, d.session)
    ensures WellFormed(plan, r.session)
  {
    if events == [] then d
    else Step(plan, Run(plan, d, events[..|events| - 1]), events[|events| - 1])
  }

  /** How a session was opened: its observer, parent, attempt and first attestation. */
  datatype Opening = Opening(hasObserver: bool, parent: Option<SessionId>, attempt: nat, token: string)

  function OpenDesk(plan: seq<ScenarioStep>, o: Opening): Desk {
    Desk(NewSession(plan, o.hasObserver, o.parent, o.attempt), {}, Some(o.token), Some(o.token), [])
  }

  /** The desk reached by a run of public calls on a newly opened session. */
  function Reached(plan: seq<ScenarioStep>, o: Opening, events: seq<Event>): (d: Desk)
    requires plan != []
    ensures WellFormed(plan, d.session)
  {
    Run(plan, OpenDesk(plan, o), events)
  }

  lemma TimelinePrefix(start: int, events: seq<Event>)
    requires Timeline(start, events) && events != []
    ensures Timeline(start, events[..|events| - 1])
    ensures TimesFrom(LastReading(start, events[..|events| - 1]), events[|events| - 1])
  {
    var init := events[..|events| - 1];
    assert forall i :: 0 <= i < |init| ==> init[..i] == events[..i];
  }

  /** Every reachable session satisfies the invariant. */
  lemma {:induction false} RunKeeps(plan: seq<ScenarioStep>, d: Desk, events: seq<Event>, start: int)
    requires SessionInv(plan, d.session, start) && Timeline(start, events)
    ensures SessionInv(plan, Run(plan, d, events).session, LastReading(start, events))
  {
    if events != [] {
      TimelinePrefix(start, events);
      RunKeeps(plan, d, events[..|events| - 1], start);
      StepKeeps(plan, Run(plan, d, events[..|events| - 1]), events[|events| - 1],
                LastReading(start, events[..|events| - 1]));
    }
  }

  lemma ReachedKeeps(plan: seq<ScenarioStep>, o: Opening, events: seq<Event>, start: int)
    requires ValidPlan(plan) && Timeline(start, events)
    ensures SessionInv(plan, Reached(plan, o, events).session, LastReading(start, events))
  {
    hide StepInv;
    NewSessionKeeps(plan, o.hasObserver, o.parent, o.attempt, start);
    RunKeeps(plan, OpenDesk(plan, o), events, start);
  }
}
