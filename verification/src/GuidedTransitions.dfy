/**
 The public operations of the guided service as functions of one session, its observation table and its
 human attestation. `plan` is the scenario step of each selected result, in order.
 */
module GuidedTransitions {
  import opened Wrappers
  import opened GuidedModels
  import opened GuidedSteps

  datatype Action =
    | Approve | Activate(confirmed: set<string>) | Next | Retry | Pause | Resume | Block | Abort
  {
    predicate NeedsHuman() {
      Approve? || Activate? || Resume? || Block? || Abort?
    }
  }

  predicate WellFormed(plan: seq<ScenarioStep>, s: Session) {
    |plan| == |s.results| && s.currentStepIndex < |s.results|
  }

  function Current(s: Session): StepResult
    requires s.currentStepIndex < |s.results|
  {
    s.results[s.currentStepIndex]
  }

  function CurrentLive(s: Session): Live
    requires s.currentStepIndex < |s.results|
  {
    Live(s.status, Current(s))
  }

  /** The ids of failed and blocked steps, in session order. */
  function RetryIds(results: seq<StepResult>): seq<string> {
    if results == [] then [] else
      var last := results[|results| - 1];
      RetryIds(results[..|results| - 1])
      + (if last.status.Failed? || last.status.Blocked? then [last.stepId] else [])
  }

  function EnsureRetest(s: Session, retestId: SessionId): Session {
    if RetryIds(s.results) != [] && s.retestSessionId.None? then s.(retestSessionId := Some(retestId)) else s
  }

  function FinalStatus(results: seq<StepResult>): SessionStatus {
    if exists i :: 0 <= i < |results| && results[i].status.Failed? then SessionStatus.Failed
    else if exists i :: 0 <= i < |results| && results[i].status.Blocked? then SessionStatus.Blocked
    else if forall i :: 0 <= i < |results| ==> results[i].status.Passed? then Completed
    else SessionStatus.Blocked
  }

  function Finalize(s: Session, retestId: SessionId): Session {
    EnsureRetest(s.(status := FinalStatus(s.results)), retestId)
  }

  /** Puts the outcome of a step transition back; finishing the last step finalizes the session. */
  function Install(s: Session, v: Live, retestId: SessionId): (t: Session)
    requires s.currentStepIndex < |s.results|
    ensures |t.results| == |s.results| && t.currentStepIndex == s.currentStepIndex
  {
    var next := s.(status := v.status, results := s.results[s.currentStepIndex := v.result]);
    if v.status.StepComplete? && v.result.Terminal() && s.currentStepIndex + 1 >= |s.results| then Finalize(next, retestId)
    else next
  }

  function AbortAll(results: seq<StepResult>): seq<StepResult> {
    seq(|results|, i requires 0 <= i < |results| => AbortResult(results[i]))
  }

  function Perform(plan: seq<ScenarioStep>, s: Session, action: Action, t: int, retestId: SessionId)
    : (out: Result<Session, GuidedError>)
    requires WellFormed(plan, s)
    ensures out.Ok? ==> WellFormed(plan, out.value)
  {
    var step, r := plan[s.currentStepIndex], Current(s);
    match action
    case Approve =>
      if !s.status.Prepared? then Err(InvalidTransition)
      else Ok(s.(approvedAt := Some(t), status := Ready))
    case Activate(confirmed) =>
      if !s.status.Ready? || !r.status.Pending? then Err(InvalidTransition)
      else if !(step.requiredConditions <= confirmed) then Err(ConditionsNotConfirmed)
      else Ok(Install(s, GuidedSteps.Activate(r, confirmed, t), retestId))
    case Next =>
      if !r.Terminal() then Err(InvalidTransition)
      else if s.currentStepIndex + 1 >= |s.results| then Ok(Finalize(s, retestId))
      else Ok(s.(currentStepIndex := s.currentStepIndex + 1, status := Ready))
    case Retry =>
      if !(r.status.Failed? || r.status.Blocked?) then Err(InvalidTransition)
      else Ok(Install(s, Live(Ready, FreshResult(step, r.attempt + 1)), retestId))
    case Pause =>
      if !s.status.Running? || !r.status.Active? then Err(InvalidTransition)
      else Ok(Install(s, GuidedSteps.Pause(r, t), retestId))
    case Resume =>
      if !s.status.Paused? || !r.status.Paused? || r.timing.pausedAt.None? then Err(InvalidTransition)
      else Ok(Install(s, GuidedSteps.Resume(r, t), retestId))
    case Block =>
      if r.Terminal() then Err(InvalidTransition)
      else Ok(Install(s, GuidedSteps.Block(step, r, t), retestId))
    case Abort =>
      if s.Terminal() then Err(InvalidTransition)
      else Ok(EnsureRetest(s.(results := AbortAll(s.results), status := Aborted), retestId))
  }

  function AcceptObservation(plan: seq<ScenarioStep>, s: Session, o: Observation, k: Ticks, defer: bool,
                             retestId: SessionId): Session
    requires WellFormed(plan, s)
  {
    var seen := s.(lastObservationAt := Some(k.accept));
    var step, r := plan[s.currentStepIndex], Current(s);
    if !(s.status.Running? || s.status.AwaitingFeedback?) then seen
    else if !(r.status.Active? || r.status.AwaitingFeedback?) || step.oracle.None? then seen
    else Install(seen, Consume(step, step.oracle.value, CurrentLive(s), o, k, defer), retestId)
  }

  // ---- the stored session and its neighbours ----

  /** `observations` is the primary key of the observation table; `retired` the evidence of retried attempts. */
  datatype Desk = Desk(
    session: Session,
    observations: set<string>,
    attestation: Option<string>,
    heldToken: Option<string>,
    retired: seq<StepResult>)

  function Persist(d: Desk): Desk {
    var saved := d.(session := d.session.(revision := d.session.revision + 2));
    if d.session.Terminal() then saved.(attestation := None, heldToken := None) else saved
  }

  function Save(d: Desk, s: Session): Desk {
    Persist(d.(session := s))
  }

  /** Settle window first, then the time limit; saves only when one of them changed the session. */
  function Refresh(plan: seq<ScenarioStep>, d: Desk, k: Ticks, retestId: SessionId): (f: Desk)
    requires WellFormed(plan, d.session)
    ensures WellFormed(plan, f.session)
  {
    var s := d.session;
    var step, r := plan[s.currentStepIndex], Current(s);
    if s.status.Running? && r.status.Active? && step.oracle.Some?
       && Advance(step, step.oracle.value, CurrentLive(s), k).1 then
      Save(d, Install(s, Advance(step, step.oracle.value, CurrentLive(s), k).0, retestId))
    else if s.status.Running? && r.status.Active? && !step.kind.Manual? && Elapsed(r.timing, k.limit) >= step.timeoutMs then
      Save(d, Install(s, Timeout(step, r, k.finish), retestId))
    else d
  }

  datatype Reply = Reply(desk: Desk, error: Option<GuidedError>)

  predicate Attested(d: Desk, token: Option<string>) {
    d.attestation.Some? && d.attestation == token
  }

  /** An accepted control is saved, and a retry sets the evidence of its attempt aside. */
  function CarriedOut(plan: seq<ScenarioStep>, d: Desk, action: Action, t: int, retestId: SessionId): (r: Reply)
    requires WellFormed(plan, d.session)
    ensures WellFormed(plan, r.desk.session)
  {
    var out := Perform(plan, d.session, action, t, retestId);
    if out.Err? then Reply(d, Some(out.error))
    else
      var archived := if action.Retry? then d.(retired := d.retired + [Current(d.session)]) else d;
      Reply(Save(archived, out.value), None)
  }

  function Control(plan: seq<ScenarioStep>, d: Desk, action: Action, token: Option<string>, expected: Option<nat>,
                   t: int, retestId: SessionId): (r: Reply)
    requires WellFormed(plan, d.session)
    ensures WellFormed(plan, r.desk.session)
  {
    if action.NeedsHuman() && !Attested(d, token) then Reply(d, Some(HumanAttestationRequired))
    else if expected.Some? && expected.value != d.session.revision then Reply(d, Some(RevisionConflict))
    else CarriedOut(plan, d, action, t, retestId)
  }

  function Feedback(plan: seq<ScenarioStep>, d: Desk, verdict: Verdict, token: Option<string>, t: int,
                    retestId: SessionId): (r: Reply)
    requires WellFormed(plan, d.session)
    ensures WellFormed(plan, r.desk.session)
  {
    if !Attested(d, token) then Reply(d, Some(HumanAttestationRequired))
    else
      var s := d.session;
      var out := SubmitVerdict(plan[s.currentStepIndex], s.hasObserver, CurrentLive(s), verdict, t);
      if out.Err? then Reply(d, Some(out.error)) else Reply(Save(d, Install(s, out.value, retestId)), None)
  }

  predicate TakesNoInput(s: Session) {
    s.Terminal() || s.status.Prepared? || s.status.Ready?
  }

  function Observe(plan: seq<ScenarioStep>, d: Desk, o: Observation, k: Ticks, retestId: SessionId): (r: Desk)
    requires WellFormed(plan, d.session)
    ensures WellFormed(plan, r.session)
  {
    if TakesNoInput(d.session) || o.id in d.observations then d
    else
      Save(d.(observations := d.observations + {o.id}),
           AcceptObservation(plan, d.session, o, k, false, retestId))
  }

  datatype Timed = Timed(observation: Observation, ticks: Ticks)

  datatype Intake = Intake(session: Session, observations: set<string>, accepted: nat, duplicates: nat)

  function Ingest(plan: seq<ScenarioStep>, a: Intake, x: Timed, retestId: SessionId): (r: Intake)
    requires WellFormed(plan, a.session)
    ensures WellFormed(plan, r.session)
  {
    if a.session.Terminal() then a
    else if x.observation.id in a.observations then a.(duplicates := a.duplicates + 1)
    else
      a.(accepted := a.accepted + 1, observations := a.observations + {x.observation.id},
         session := AcceptObservation(plan, a.session, x.observation, x.ticks, true, retestId))
  }

  function IngestAll(plan: seq<ScenarioStep>, a: Intake, items: seq<Timed>, retestId: SessionId): (r: Intake)
    requires WellFormed(plan, a.session)
    ensures WellFormed(plan, r.session)
  {
    if items == [] then a
    else Ingest(plan, IngestAll(plan, a, items[..|items| - 1], retestId), items[|items| - 1], retestId)
  }

  /** After a batch the settle window is looked at once, with everything counted. */
  function CloseBatch(plan: seq<ScenarioStep>, s: Session, k: Ticks, retestId: SessionId): Session
    requires WellFormed(plan, s)
  {
    var step, r := plan[s.currentStepIndex], Current(s);
    if s.Terminal() || !r.status.Active? || step.oracle.None? then s
    else Install(s, Advance(step, step.oracle.value, CurrentLive(s), k).0, retestId)
  }

  datatype Receipt = Receipt(accepted: nat, duplicates: nat)

  function ObserveBatch(plan: seq<ScenarioStep>, d: Desk, items: seq<Timed>, k: Ticks, retestId: SessionId)
    : (r: (Desk, Receipt))
    requires WellFormed(plan, d.session)
    ensures WellFormed(plan, r.0.session)
  {
    if d.session.Terminal() then (d, Receipt(0, |items|))
    else if d.session.status.Prepared? || d.session.status.Ready? then (d, Receipt(0, 0))
    else
      var a := IngestAll(plan, Intake(d.session, d.observations, 0, 0), items, retestId);
      var receipt := Receipt(a.accepted, a.duplicates);
      if a.accepted == 0 then (d, receipt)
      else (Save(d.(observations := a.observations), CloseBatch(plan, a.session, k, retestId)), receipt)
  }

  /** The runner page hands out the token of an open session, minting one when memory and table disagree. */
  function RunnerToken(d: Desk, minted: string): Desk {
    if d.session.Terminal() || (d.heldToken.Some? && d.heldToken == d.attestation) then d
    else d.(attestation := Some(minted), heldToken := Some(minted))
  }

  // ---- runs ----

  datatype Request =
    | Get
    | Act(action: Action, token: Option<string>, expected: Option<nat>)
    | Answer(verdict: Verdict, token: Option<string>)
    | Report(observation: Observation)
    | ReportBatch(items: seq<Timed>)
    | OpenRunner(minted: string)
    | RestartProcess

  /** One public call with the clock readings it takes and the id a retest would get. */
  datatype Event = Event(request: Request, refresh: Ticks, act: Ticks, retestId: SessionId)

  function BatchEnd(now: int, items: seq<Timed>): int {
    if items == [] then now else items[|items| - 1].ticks.finish
  }

  ghost predicate BatchTimes(now: int, items: seq<Timed>) {
    && (forall i :: 0 <= i < |items| ==> items[i].ticks.From(BatchEnd(now, items[..i])))
  }

  /** The readings of an event are taken one after the other from a clock that never steps back. */
  ghost predicate TimesFrom(now: int, e: Event) {
    && e.refresh.From(now)
    && if e.request.ReportBatch? then
         BatchTimes(e.refresh.finish, e.request.items) && e.act.From(BatchEnd(e.refresh.finish, e.request.items))
       else e.act.From(e.refresh.finish)
  }

  /** The part of a call that follows the refresh. */
  function Serve(plan: seq<ScenarioStep>, d: Desk, e: Event): (r: Desk)
    requires WellFormed(plan, d.session)
    ensures WellFormed(plan, r.session)
  {
    match e.request
    case Act(action, token, expected) => Control(plan, d, action, token, expected, e.act.finish, e.retestId).desk
    case Answer(verdict, token) => Feedback(plan, d, verdict, token, e.act.finish, e.retestId).desk
    case Report(o) => Observe(plan, d, o, e.act, e.retestId)
    case ReportBatch(items) => ObserveBatch(plan, d, items, e.act, e.retestId).0
    case OpenRunner(minted) => RunnerToken(d, minted)
    case RestartProcess => d.(heldToken := None)
    case Get => d
  }

  function Step(plan: seq<ScenarioStep>, d: Desk, e: Event): (r: Desk)
    requires WellFormed(plan, d.session)
    ensures WellFormed(plan, r.session)
  {
    if e.request.OpenRunner? || e.request.RestartProcess? then Serve(plan, d, e)
    else Serve(plan, Refresh(plan, d, e.refresh, e.retestId), e)
  }
}
