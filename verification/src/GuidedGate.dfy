/**
 The gate of a guided session: each step becomes one test result, the quality gate decides, and a pass that
 rests on human evidence is downgraded to manual review. It never recommends a release.
 */
module GuidedGate {
  import opened Wrappers
  import opened GuidedModels
  import opened GuidedSteps
  import opened GuidedStepLaws
  import opened GuidedTransitions
  import opened GuidedRuns
  import opened GuidedTheorems
  import Q = QualityGate

  function KindName(k: StepKind): string {
    match k
    case Manual => "manual"
    case Hybrid => "hybrid"
    case Telemetry => "telemetry"
  }

  /** An unfinished step counts as BLOCKED. */
  function NormalStatus(s: StepStatus): Q.ResultStatus {
    match s
    case Passed => Q.ResultStatus.Passed
    case Failed => Q.ResultStatus.Failed
    case _ => Q.ResultStatus.Blocked
  }

  function Normalize(step: ScenarioStep, r: StepResult): Q.TestResult {
    Q.TestResult(
      r.stepId,
      if step.testType == "guided-user" then "guided-user-" + KindName(step.kind) else step.testType,
      NormalStatus(r.status), step.severity, step.criticalFlow, None, None,
      if r.tally.observationCount == 0 then None else Some(r.tally.observationCount),
      r.timing.endedAt.Some?,
      Some(match r.evidenceClass
           case SelfReported => "self-report:user"
           case ObserverReported => "observer-report:human"
           case HybridEvidence => "hybrid:human+telemetry"
           case _ => if step.oracle.Some? then "telemetry" else "human-verdict-pending"),
      r.evidenceClass.TelemetryOnly?)
  }

  function NormalizeAll(plan: seq<ScenarioStep>, results: seq<StepResult>): seq<Q.TestResult>
    requires |plan| == |results|
  {
    seq(|plan|, i requires 0 <= i < |plan| => Normalize(plan[i], results[i]))
  }

  function Request(plan: seq<ScenarioStep>, s: Session, mode: Q.TestMode): Q.GateRequest
    requires |plan| == |s.results|
  {
    var results := NormalizeAll(plan, s.results);
    Q.GateRequest(mode, results, Q.Types(results), {}, {})
  }

  predicate HumanEvidence(r: StepResult) {
    && r.status.Passed?
    && (r.evidenceClass.SelfReported? || r.evidenceClass.ObserverReported? || r.evidenceClass.HybridEvidence?)
  }

  /** The response stored on the session: decision, and whether a release is recommended. */
  function SessionGate(plan: seq<ScenarioStep>, s: Session, mode: Q.TestMode): (Q.Decision, bool)
    requires |plan| == |s.results|
  {
    var decision := Q.Gate(Request(plan, s, mode)).decision;
    var human := exists i :: 0 <= i < |s.results| && HumanEvidence(s.results[i]);
    (if human && (decision.Pass? || decision.PassWithWarning?) then Q.ManualReview else decision, false)
  }

  function PassedSteps(results: seq<StepResult>): nat {
    if results == [] then 0
    else PassedSteps(results[..|results| - 1]) + (if results[|results| - 1].status.Passed? then 1 else 0)
  }

  lemma NormalMeets(step: ScenarioStep, r: StepResult)
    ensures Q.Meets(Normalize(step, r), Q.Status(Q.ResultStatus.Passed)) == r.status.Passed?
    ensures Q.Meets(Normalize(step, r), Q.Eligible)
    ensures !Q.Meets(Normalize(step, r), Q.Status(Q.Flaky))
  {
  }

  lemma {:induction false} NormalCounts(plan: seq<ScenarioStep>, results: seq<StepResult>)
    requires |plan| == |results|
    ensures Q.Count(NormalizeAll(plan, results), Q.Status(Q.ResultStatus.Passed)) == PassedSteps(results)
    ensures Q.Count(NormalizeAll(plan, results), Q.Eligible) == |results|
    ensures Q.Count(NormalizeAll(plan, results), Q.Status(Q.Flaky)) == 0
  {
    if results != [] {
      var n := |results| - 1;
      var all := NormalizeAll(plan, results);
      assert all[..n] == NormalizeAll(plan[..n], results[..n]);
      assert forall c :: Q.Count(all, c) == Q.Count(all[..n], c) + (if Q.Meets(all[n], c) then 1 else 0);
      hide Normalize, Q.Meets, Q.Count;
      NormalCounts(plan[..n], results[..n]);
      NormalMeets(plan[n], results[n]);
    }
  }

  /** The step passed, or failed where the gate tolerates a failure. */
  ghost predicate StepAcceptable(step: ScenarioStep, r: StepResult) {
    && (r.status.Passed? || r.status.Failed?)
    && (r.status.Failed? ==> !step.severity.Critical? && !step.severity.High? && !step.criticalFlow)
  }

  /** What a raw gate PASS says about the steps, before human evidence is looked at. */
  ghost predicate StepsAcceptable(plan: seq<ScenarioStep>, results: seq<StepResult>, mode: Q.TestMode)
    requires |plan| == |results|
  {
    && (forall i :: 0 <= i < |plan| ==> StepAcceptable(plan[i], results[i]))
    && 20_000 * PassedSteps(results) >= (if mode.Strict? || mode.ReleaseGate? then 19_599 else 17_999) * |results|
  }

  lemma CleanMeansAcceptable(plan: seq<ScenarioStep>, s: Session, mode: Q.TestMode)
    requires |plan| == |s.results|
    ensures var q := Request(plan, s, mode);
            (forall r :: r in q.results ==> Q.Clean(q, r)) <==>
            (forall i :: 0 <= i < |plan| ==> StepAcceptable(plan[i], s.results[i]))
  {
    var q := Request(plan, s, mode);
    forall i | 0 <= i < |plan| ensures Q.Clean(q, q.results[i]) <==> StepAcceptable(plan[i], s.results[i]) {
    }
    assert forall i :: 0 <= i < |plan| ==> q.results[i] in q.results;
  }

  lemma RawPassMeans(plan: seq<ScenarioStep>, s: Session, mode: Q.TestMode)
    requires |plan| == |s.results| > 0
    ensures Q.DecisionOf(Request(plan, s, mode)).Pass? <==> StepsAcceptable(plan, s.results, mode)
    ensures !Q.DecisionOf(Request(plan, s, mode)).PassWithWarning?
    ensures !Q.DecisionOf(Request(plan, s, mode)).ManualReview?
  {
    hide Q.Blockers, Q.PassRate, Q.Clean, StepAcceptable, NormalizeAll, Q.Count, PassedSteps;
    var q := Request(plan, s, mode);
    Q.PassMeans(q);
    CleanMeansAcceptable(plan, s, mode);
    NormalCounts(plan, s.results);
    Q.RoundedRateAgrees(PassedSteps(s.results), |s.results|);
  }

  /**
   End to end: no reachable session is recommended for release, and its gate says PASS exactly when every step
   is passed, or failed without being critical, high or on a critical flow; enough steps passed; and every
   passed step is a telemetry step that took no human verdict.
   */
  lemma GuidedPassMeans(plan: seq<ScenarioStep>, o: Opening, events: seq<Event>, start: int, mode: Q.TestMode)
    requires ValidPlan(plan) && Timeline(start, events)
    ensures var s := Reached(plan, o, events).session;
            && !SessionGate(plan, s, mode).1
            && (SessionGate(plan, s, mode).0.Pass? <==>
                  && StepsAcceptable(plan, s.results, mode)
                  && (forall i :: 0 <= i < |plan| && s.results[i].status.Passed? ==> plan[i].Unattended()))
            && !SessionGate(plan, s, mode).0.PassWithWarning?
  {
    hide Q.DecisionOf, StepsAcceptable, Reached, Request, Justified;
    var s := Reached(plan, o, events).session;
    assert |plan| == |s.results| > 0;
    RawPassMeans(plan, s, mode);
    forall i | 0 <= i < |plan| && s.results[i].status.Passed?
      ensures HumanEvidence(s.results[i]) <==> !plan[i].Unattended()
    {
      PassesAreJustified(plan, o, events, start, i);
      EvidenceOfPass(plan[i], s.hasObserver, s.results[i]);
    }
  }

  lemma EvidenceOfPass(step: ScenarioStep, hasObserver: bool, r: StepResult)
    requires Justified(step, hasObserver, r) && r.status.Passed?
    ensures HumanEvidence(r) <==> !step.Unattended()
  {
  }

  /** Some step neither passed nor failed: it was blocked, or is not finished. */
  predicate SomeUndecided(results: seq<StepResult>) {
    exists i :: 0 <= i < |results| && !results[i].status.Passed? && !results[i].status.Failed?
  }

  lemma UndecidedIsBlocked(plan: seq<ScenarioStep>, s: Session, mode: Q.TestMode)
    requires |plan| == |s.results|
    ensures var q := Request(plan, s, mode);
            Q.SomeStopped(q.results) <==> SomeUndecided(s.results)
  {
    var q := Request(plan, s, mode);
    assert forall i :: 0 <= i < |plan| ==>
             (q.results[i].status.Blocked? <==> !s.results[i].status.Passed? && !s.results[i].status.Failed?)
             && !q.results[i].status.InfraError?;
    if SomeUndecided(s.results) {
      var i :| 0 <= i < |s.results| && !s.results[i].status.Passed? && !s.results[i].status.Failed?;
      assert q.results[i] in q.results;
    }
  }

  /** The raw decision: PASS for acceptable steps, else BLOCKED if some step is undecided, else FAIL. */
  lemma RawDecision(plan: seq<ScenarioStep>, s: Session, mode: Q.TestMode)
    requires |plan| == |s.results| > 0
    ensures Q.Gate(Request(plan, s, mode)).decision
            == if StepsAcceptable(plan, s.results, mode) then Q.Pass
               else if SomeUndecided(s.results) then Q.Decision.Blocked else Q.Fail
  {
    RawPassMeans(plan, s, mode);
    UndecidedIsBlocked(plan, s, mode);
    Q.GateMeans(Request(plan, s, mode));
    assert Q.Gate(Request(plan, s, mode)).decision == Q.DecisionOf(Request(plan, s, mode));
    hide Request, StepsAcceptable, SomeUndecided, Q.Clear, Q.DecisionOf, Q.StatusAt, Q.SomeStopped;
  }

  /**
   Over every run, the decision of the session: acceptable steps pass, unless a person's word is behind one of them,
   which leaves it to manual review; otherwise an undecided step makes it BLOCKED and a failed one FAIL.
   */
  lemma GuidedDecision(plan: seq<ScenarioStep>, o: Opening, events: seq<Event>, start: int, mode: Q.TestMode)
    requires ValidPlan(plan) && Timeline(start, events)
    ensures var s := Reached(plan, o, events).session;
            var attended := exists i :: 0 <= i < |plan| && s.results[i].status.Passed?
                                        && !(plan[i].kind.Telemetry? && !plan[i].feedbackRequired);
            SessionGate(plan, s, mode).0
            == if StepsAcceptable(plan, s.results, mode) then (if attended then Q.ManualReview else Q.Pass)
               else if SomeUndecided(s.results) then Q.Decision.Blocked else Q.Fail
  {
    hide StepsAcceptable, SomeUndecided, Reached, Request, Justified, Q.Gate;
    var s := Reached(plan, o, events).session;
    RawDecision(plan, s, mode);
    forall i | 0 <= i < |plan| && s.results[i].status.Passed?
      ensures HumanEvidence(s.results[i]) <==> !(plan[i].kind.Telemetry? && !plan[i].feedbackRequired)
    {
      PassesAreJustified(plan, o, events, start, i);
      EvidenceOfPass(plan[i], s.hasObserver, s.results[i]);
    }
  }

  /** So a guided PASS rests on telemetry alone, and on telemetry that met its contract. */
  lemma GuidedPassMetContracts(plan: seq<ScenarioStep>, o: Opening, events: seq<Event>, start: int, mode: Q.TestMode,
                               i: nat)
    requires ValidPlan(plan) && Timeline(start, events) && i < |plan|
    requires SessionGate(plan, Reached(plan, o, events).session, mode).0.Pass?
    requires Reached(plan, o, events).session.results[i].status.Passed?
    ensures var r := Reached(plan, o, events).session.results[i];
            && r.evidenceClass.TelemetryOnly? && r.manualVerdict.None? && plan[i].oracle.Some?
            && MeetsContract(plan[i].oracle.value, r.tally.samples)
  {
    hide SessionGate, MeetsContract, Reached;
    GuidedPassMeans(plan, o, events, start, mode);
    assert plan[i].Unattended() && plan[i].Valid();
    PassesAreJustified(plan, o, events, start, i);
    PassedStepMetContract(plan, o, events, start, i);
  }
}
