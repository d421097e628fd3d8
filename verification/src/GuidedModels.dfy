/**
 Entities of a guided session: the scenario contract, one observation, one step result and the session.
 Times are clock readings in milliseconds; latencies are in microseconds.
 */
module GuidedModels {
  import opened Wrappers

  datatype StepKind = Manual | Hybrid | Telemetry

  datatype StepStatus = Pending | Active | Paused | AwaitingFeedback | Passed | Failed | Blocked

  datatype SessionStatus =
    | Prepared | Ready | Running | Paused | AwaitingFeedback | StepComplete
    | Completed | Failed | Blocked | Aborted

  datatype EvidenceClass = Unknown | SelfReported | ObserverReported | TelemetryOnly | HybridEvidence

  datatype Severity = Critical | High | Medium | Low | Info

  datatype Role = User | Observer

  datatype Authority = Only(role: Role) | Either

  datatype Outcome = Passed | Failed | Blocked

  datatype Verdict = Verdict(outcome: Outcome, reporter: Role)

  datatype FailureCode =
    | NoTelemetry | OracleNotSatisfied | PredicateMismatch | RequiredEventMissing | ExactEventCountMismatch
    | MaxEventCountExceeded | SettleWindowIncomplete | ForbiddenEvent | LatencyExceeded | EvidenceDropped
    | TimeLimitExceeded | UserFailed | ObserverFailed | UserBlocked

  /** A predicate is opaque: its name stands for path, operator and expected value. */
  type PredicateName = string

  datatype TelemetryOracle = TelemetryOracle(
    minObservations: nat,
    minObservationMs: nat,
    predicates: seq<PredicateName>,
    minMatchingObservations: nat,
    minConsecutiveMatches: nat,
    maxMismatches: nat,
    requiredEvents: map<string, nat>,
    exactEventCounts: map<string, nat>,
    maxEventCounts: map<string, nat>,
    forbiddenEvents: set<string>,
    settleWindowMs: nat,
    maxP95Latency: Option<nat>,
    maxDropDelta: nat)

  datatype ScenarioStep = ScenarioStep(
    id: string,
    kind: StepKind,
    testType: string,
    severity: Severity,
    criticalFlow: bool,
    timeoutMs: nat,
    requiredConditions: set<string>,
    verdictAuthority: Authority,
    feedbackRequired: bool,
    oracle: Option<TelemetryOracle>)
  {
    /** What the scenario validator demands of a step and the laws below rely on. */
    predicate Valid() {
      && (!kind.Manual? ==> oracle.Some?)
      && (kind.Manual? ==> !feedbackRequired)
    }

    /** The step passes on telemetry alone and takes no human verdict. */
    predicate Unattended() {
      kind.Telemetry? && !feedbackRequired
    }
  }

  /** `holding` names the predicates that evaluate to true on this observation's document. */
  datatype Observation = Observation(
    id: string,
    event: Option<string>,
    latency: Option<nat>,
    drops: nat,
    holding: set<PredicateName>)

  predicate Matches(oracle: TelemetryOracle, o: Observation) {
    forall p :: p in oracle.predicates ==> p in o.holding
  }

  /** The events whose arrival restarts an open settle window. */
  function ConstrainedEvents(oracle: TelemetryOracle): set<string> {
    oracle.requiredEvents.Keys + oracle.exactEventCounts.Keys + oracle.maxEventCounts.Keys
  }

  /** A consumed observation and the unpaused time of its step when it arrived. */
  datatype Sample = Sample(observation: Observation, elapsed: int)

  datatype Interval = Interval(from: int, to: int)

  /** `intervals` and `openedAt` log the unpaused stretches; no transition branches on them. */
  datatype Timing = Timing(
    startedAt: Option<int>,
    endedAt: Option<int>,
    pausedAt: Option<int>,
    accumulatedPauseMs: int,
    durationMs: int,
    intervals: seq<Interval>,
    openedAt: Option<int>)

  /** `samples` and `judged` log what was consumed, and how much of it reached the predicates. */
  datatype Tally = Tally(
    observationIds: seq<string>,
    observationCount: nat,
    matchingObservations: nat,
    mismatches: nat,
    consecutiveMatches: nat,
    peakConsecutiveMatches: nat,
    eventCounts: map<string, nat>,
    latencySamples: seq<nat>,
    p95Latency: Option<nat>,
    initialDrops: Option<nat>,
    dropDelta: nat,
    samples: seq<Sample>,
    judged: nat)

  /** `satisfiedAt` logs the unpaused time at which the oracle was declared satisfied. */
  datatype Settle = Settle(satisfied: bool, startedAt: Option<int>, deadline: Option<int>, satisfiedAt: int)

  datatype StepResult = StepResult(
    stepId: string,
    kind: StepKind,
    status: StepStatus,
    attempt: nat,
    timing: Timing,
    tally: Tally,
    settle: Settle,
    manualVerdict: Option<Verdict>,
    evidenceClass: EvidenceClass,
    failureCodes: set<FailureCode>,
    confirmedConditions: set<string>)
  {
    predicate Terminal() {
      status.Passed? || status.Failed? || status.Blocked?
    }

    predicate Live() {
      status.Active? || status.Paused? || status.AwaitingFeedback?
    }
  }

  type SessionId = string

  datatype Session = Session(
    status: SessionStatus,
    currentStepIndex: nat,
    results: seq<StepResult>,
    attempt: nat,
    hasObserver: bool,
    parentSessionId: Option<SessionId>,
    approvedAt: Option<int>,
    lastObservationAt: Option<int>,
    revision: nat,
    retestSessionId: Option<SessionId>)
  {
    predicate Terminal() {
      status.Completed? || status.Failed? || status.Blocked? || status.Aborted?
    }
  }

  datatype GuidedError =
    | InvalidTransition
    | ConditionsNotConfirmed
    | HumanAttestationRequired
    | RevisionConflict

  const NO_TIMING := Timing(None, None, None, 0, 0, [], None)
  const NO_TALLY := Tally([], 0, 0, 0, 0, 0, map[], [], None, None, 0, [], 0)
  const NO_SETTLE := Settle(false, None, None, 0)

  function FreshResult(step: ScenarioStep, attempt: nat): StepResult {
    StepResult(step.id, step.kind, StepStatus.Pending, attempt, NO_TIMING, NO_TALLY, NO_SETTLE,
               None, Unknown, {}, {})
  }

  function NewSession(plan: seq<ScenarioStep>, hasObserver: bool, parent: Option<SessionId>, attempt: nat): Session {
    Session(SessionStatus.Prepared, 0, seq(|plan|, i requires 0 <= i < |plan| => FreshResult(plan[i], 1)),
            attempt, hasObserver, parent, None, None, 0, None)
  }
}
