/**
 What each transition of the guided service does to the session status and the current step result.
 Every clock reading is a parameter: `Ticks` holds the readings one operation takes, in order.
 */
module GuidedSteps {
  import opened Wrappers
  import opened GuidedModels
  import Percentiles

  const LATENCY_WINDOW: nat := 20_000

  /** The readings of one call: on arrival, for the settle window, for the time limit, and when a step is finished. */
  datatype Ticks = Ticks(accept: int, check: int, limit: int, finish: int) {
    predicate From(now: int) {
      now <= accept <= check <= limit <= finish
    }
  }

  /** The status of the session next to the result of its current step. */
  datatype Live = Live(status: SessionStatus, result: StepResult)

  function Elapsed(c: Timing, t: int): int {
    if c.startedAt.None? then 0
    else
      var currentPause := if c.pausedAt.Some? then t - c.pausedAt.value else 0;
      Max(0, t - c.startedAt.value - c.accumulatedPauseMs - currentPause)
  }

  function EventCount(counts: map<string, nat>, event: string): nat {
    if event in counts then counts[event] else 0
  }

  // ---- finishing a step ----

  function FinishTiming(c: Timing, t: int): Timing {
    var unpaused :=
      if c.pausedAt.Some? then c.(accumulatedPauseMs := c.accumulatedPauseMs + (t - c.pausedAt.value), pausedAt := None)
      else c;
    unpaused.(endedAt := Some(t), durationMs := Elapsed(unpaused, t),
              intervals := if c.openedAt.Some? then c.intervals + [Interval(c.openedAt.value, t)] else c.intervals,
              openedAt := None)
  }

  function FinishEvidence(step: ScenarioStep, r: StepResult): EvidenceClass {
    if step.oracle.None? || r.tally.observationCount == 0 then r.evidenceClass
    else if r.manualVerdict.Some? then HybridEvidence
    else if r.evidenceClass.Unknown? then TelemetryOnly
    else r.evidenceClass
  }

  function Finish(step: ScenarioStep, r: StepResult, status: StepStatus, codes: set<FailureCode>, t: int): Live {
    Live(SessionStatus.StepComplete,
         r.(status := status, timing := FinishTiming(r.timing, t), failureCodes := codes,
            evidenceClass := FinishEvidence(step, r)))
  }

  // ---- controls on the current step ----

  function Activate(r: StepResult, conditions: set<string>, t: int): Live {
    Live(SessionStatus.Running,
         r.(status := Active, confirmedConditions := conditions,
            timing := r.timing.(startedAt := Some(t), openedAt := Some(t))))
  }

  function Pause(r: StepResult, t: int): Live {
    var c := r.timing;
    Live(SessionStatus.Paused,
         r.(status := StepStatus.Paused,
            timing := c.(pausedAt := Some(t), openedAt := None,
                         intervals := if c.openedAt.Some? then c.intervals + [Interval(c.openedAt.value, t)]
                                      else c.intervals)))
  }

  function Shift(reading: Option<int>, delta: int): Option<int> {
    if reading.Some? then Some(reading.value + delta) else None
  }

  function Resume(r: StepResult, t: int): Live
    requires r.timing.pausedAt.Some?
  {
    var paused := t - r.timing.pausedAt.value;
    Live(SessionStatus.Running,
         r.(status := Active,
            timing := r.timing.(pausedAt := None, openedAt := Some(t),
                                accumulatedPauseMs := r.timing.accumulatedPauseMs + paused),
            settle := r.settle.(startedAt := Shift(r.settle.startedAt, paused),
                                deadline := Shift(r.settle.deadline, paused))))
  }

  function SelfReportedIfUnknown(e: EvidenceClass): EvidenceClass {
    if e.Unknown? then SelfReported else e
  }

  function Block(step: ScenarioStep, r: StepResult, t: int): Live {
    Finish(step, r.(evidenceClass := SelfReportedIfUnknown(r.evidenceClass)), StepStatus.Blocked, {UserBlocked}, t)
  }

  /** Aborting a session blocks its open steps without reading the clock or closing their timing. */
  function AbortResult(r: StepResult): StepResult {
    if r.Terminal() then r
    else r.(status := StepStatus.Blocked, failureCodes := {UserBlocked},
            evidenceClass := SelfReportedIfUnknown(r.evidenceClass))
  }

  // ---- telemetry ----

  function Absorb(r: StepResult, o: Observation, t: int): StepResult {
    var y := r.tally;
    var initial := if y.initialDrops.None? then o.drops else y.initialDrops.value;
    var latencies :=
      if o.latency.None? then y.latencySamples else LastOf(y.latencySamples + [o.latency.value], LATENCY_WINDOW);
    r.(tally := y.(
       observationIds := y.observationIds + [o.id],
       observationCount := y.observationCount + 1,
       initialDrops := Some(initial),
       dropDelta := Max(y.dropDelta, o.drops - initial),
       eventCounts := if o.event.Some? && o.event.value != ""
                      then y.eventCounts[o.event.value := EventCount(y.eventCounts, o.event.value) + 1]
                      else y.eventCounts,
       latencySamples := latencies,
       p95Latency := if o.latency.None? then y.p95Latency else Percentiles.P95(latencies),
       samples := y.samples + [Sample(o, Elapsed(r.timing, t))]))
  }

  function LastOf<T>(s: seq<T>, n: nat): seq<T> {
    if |s| <= n then s else s[|s| - n..]
  }

  predicate ExactExceeded(oracle: TelemetryOracle, y: Tally) {
    exists e :: e in oracle.exactEventCounts && EventCount(y.eventCounts, e) > oracle.exactEventCounts[e]
  }

  predicate MaximumExceeded(oracle: TelemetryOracle, y: Tally) {
    exists e :: e in oracle.maxEventCounts && EventCount(y.eventCounts, e) > oracle.maxEventCounts[e]
  }

  predicate RequiredMissing(oracle: TelemetryOracle, y: Tally) {
    exists e :: e in oracle.requiredEvents && EventCount(y.eventCounts, e) < oracle.requiredEvents[e]
  }

  predicate ExactMissed(oracle: TelemetryOracle, y: Tally) {
    exists e :: e in oracle.exactEventCounts && EventCount(y.eventCounts, e) != oracle.exactEventCounts[e]
  }

  predicate LatencyWithin(oracle: TelemetryOracle, y: Tally) {
    oracle.maxP95Latency.None? || (y.p95Latency.Some? && y.p95Latency.value <= oracle.maxP95Latency.value)
  }

  function EventLimitFailures(oracle: TelemetryOracle, y: Tally): set<FailureCode> {
    (if ExactExceeded(oracle, y) then {ExactEventCountMismatch} else {})
    + (if MaximumExceeded(oracle, y) then {MaxEventCountExceeded} else {})
  }

  predicate LatencyExceededNow(oracle: TelemetryOracle, y: Tally) {
    && y.observationCount >= oracle.minObservations
    && y.p95Latency.Some?
    && !LatencyWithin(oracle, y)
  }

  predicate OracleSatisfied(oracle: TelemetryOracle, y: Tally, elapsed: int) {
    && y.observationCount >= oracle.minObservations
    && elapsed >= oracle.minObservationMs
    && y.matchingObservations >= oracle.minMatchingObservations
    && (oracle.minConsecutiveMatches != 0 ==> y.consecutiveMatches >= oracle.minConsecutiveMatches)
    && !RequiredMissing(oracle, y)
    && !ExactMissed(oracle, y)
    && !MaximumExceeded(oracle, y)
    && y.dropDelta <= oracle.maxDropDelta
    && LatencyWithin(oracle, y)
  }

  /** Does this observation restart a settle window that is open? */
  predicate Disturbs(oracle: TelemetryOracle, o: Observation) {
    !Matches(oracle, o) || (o.event.Some? && o.event.value in ConstrainedEvents(oracle))
  }

  function JudgeTally(oracle: TelemetryOracle, y: Tally, o: Observation): Tally {
    if Matches(oracle, o) then
      y.(matchingObservations := y.matchingObservations + 1,
         consecutiveMatches := y.consecutiveMatches + 1,
         peakConsecutiveMatches := Max(y.peakConsecutiveMatches, y.consecutiveMatches + 1),
         judged := y.judged + 1)
    else
      y.(mismatches := y.mismatches + 1, consecutiveMatches := 0, judged := y.judged + 1)
  }

  function Judge(oracle: TelemetryOracle, r: StepResult, o: Observation): StepResult {
    var settleWasActive := r.settle.startedAt.Some? && !r.settle.satisfied;
    r.(tally := JudgeTally(oracle, r.tally, o),
       settle := if settleWasActive && Disturbs(oracle, o) then r.settle.(startedAt := None, deadline := None)
                 else r.settle)
  }

  /** What disqualifies the step right after counting an observation, in the order the source asks. */
  function Violation(oracle: TelemetryOracle, y: Tally, o: Observation): set<FailureCode> {
    if o.event.Some? && o.event.value in oracle.forbiddenEvents then {ForbiddenEvent}
    else if EventLimitFailures(oracle, y) != {} then EventLimitFailures(oracle, y)
    else if y.dropDelta > oracle.maxDropDelta then {EvidenceDropped}
    else if LatencyExceededNow(oracle, y) then {LatencyExceeded}
    else {}
  }

  function Consume(step: ScenarioStep, oracle: TelemetryOracle, v: Live, o: Observation, k: Ticks, defer: bool): Live {
    var r := Absorb(v.result, o, k.accept);
    var codes := Violation(oracle, r.tally, o);
    if codes != {} then Finish(step, r, StepStatus.Failed, codes, k.finish)
    else if r.status.AwaitingFeedback? then v.(result := r)
    else
      var j := Judge(oracle, r, o);
      if j.tally.mismatches > oracle.maxMismatches then Finish(step, j, StepStatus.Failed, {PredicateMismatch}, k.finish)
      else if defer then v.(result := j)
      else Advance(step, oracle, v.(result := j), k).0
  }

  function CompleteTelemetryPhase(step: ScenarioStep, r: StepResult, t: int): Live {
    if step.Unattended() then
      Finish(step, r.(evidenceClass := TelemetryOnly), StepStatus.Passed, {}, t)
    else if r.manualVerdict.Some? && r.manualVerdict.value.outcome.Passed? then
      Finish(step, r.(evidenceClass := HybridEvidence), StepStatus.Passed, {}, t)
    else
      Live(SessionStatus.AwaitingFeedback, r.(status := StepStatus.AwaitingFeedback))
  }

  /** The settle window: opens when the oracle holds, closes when it stops holding, ends the phase at its deadline. */
  function Advance(step: ScenarioStep, oracle: TelemetryOracle, v: Live, k: Ticks): (Live, bool) {
    var r := v.result;
    if r.settle.satisfied then (v, false)
    else if !OracleSatisfied(oracle, r.tally, Elapsed(r.timing, k.check)) then
      (v.(result := r.(settle := r.settle.(startedAt := None, deadline := None))),
       r.settle.startedAt.Some? || r.settle.deadline.Some?)
    else
      var opens := r.settle.startedAt.None?;
      var w := if opens then r.settle.(startedAt := Some(k.check), deadline := Some(k.check + oracle.settleWindowMs))
               else r.settle;
      if w.deadline.Some? && k.check < w.deadline.value then (v.(result := r.(settle := w)), opens)
      else
        var s := w.(satisfied := true, satisfiedAt := Elapsed(r.timing, k.check));
        (CompleteTelemetryPhase(step, r.(settle := s), k.finish), true)
  }

  function TimeoutCodes(step: ScenarioStep, r: StepResult): set<FailureCode> {
    {TimeLimitExceeded} +
    if step.oracle.None? then {} else
      var oracle, y := step.oracle.value, r.tally;
      (if y.matchingObservations < oracle.minMatchingObservations then {OracleNotSatisfied} else {})
      + (if RequiredMissing(oracle, y) then {RequiredEventMissing} else {})
      + (if ExactMissed(oracle, y) then {ExactEventCountMismatch} else {})
      + (if MaximumExceeded(oracle, y) then {MaxEventCountExceeded} else {})
      + (if r.settle.startedAt.Some? && !r.settle.satisfied then {SettleWindowIncomplete} else {})
      + (if !LatencyWithin(oracle, y) then {LatencyExceeded} else {})
  }

  function Timeout(step: ScenarioStep, r: StepResult, t: int): Live {
    if r.tally.observationCount == 0 then Finish(step, r, StepStatus.Blocked, {NoTelemetry}, t)
    else Finish(step, r, StepStatus.Failed, TimeoutCodes(step, r), t)
  }

  // ---- human verdicts ----

  predicate Admitted(step: ScenarioStep, hasObserver: bool, v: Verdict) {
    && (step.verdictAuthority.Only? ==> v.reporter == step.verdictAuthority.role)
    && (v.reporter.Observer? ==> hasObserver)
  }

  function ReportedClass(v: Verdict): EvidenceClass {
    if v.reporter.Observer? then ObserverReported else SelfReported
  }

  /** The checks on an incoming verdict, all reported as the same error. */
  predicate TakesVerdict(step: ScenarioStep, hasObserver: bool, r: StepResult, verdict: Verdict) {
    && (r.status.Active? || r.status.AwaitingFeedback?)
    && !step.Unattended()
    && r.manualVerdict.None?
    && Admitted(step, hasObserver, verdict)
  }

  function Record(r: StepResult, verdict: Verdict): StepResult {
    r.(manualVerdict := Some(verdict), evidenceClass := ReportedClass(verdict))
  }

  /** What a recorded verdict does to the step. */
  function DecideVerdict(step: ScenarioStep, r: StepResult, verdict: Verdict, t: int): Live {
    match verdict.outcome
    case Blocked => Finish(step, r, StepStatus.Blocked, {UserBlocked}, t)
    case Failed =>
      Finish(step, r, StepStatus.Failed, {if verdict.reporter.Observer? then ObserverFailed else UserFailed}, t)
    case Passed =>
      if step.kind.Manual? then Finish(step, r, StepStatus.Passed, {}, t)
      else if r.settle.satisfied then Finish(step, r.(evidenceClass := HybridEvidence), StepStatus.Passed, {}, t)
      else Live(SessionStatus.Running, r.(status := Active))
  }

  function SubmitVerdict(step: ScenarioStep, hasObserver: bool, v: Live, verdict: Verdict, t: int)
    : Result<Live, GuidedError>
  {
    if TakesVerdict(step, hasObserver, v.result, verdict) then
      Ok(DecideVerdict(step, Record(v.result, verdict), verdict, t))
    else Err(InvalidTransition)
  }
}
