/**
 What each public call on a guided session answers and leaves, said on statuses, samples and readings: when a control
 or a verdict is accepted and what it is refused with, what it does, and how observations, refreshes and batches end.
 */
module GuidedAnswers {
  import opened Wrappers
  import opened GuidedModels
  import opened GuidedSteps
  import opened GuidedStepLaws
  import opened GuidedTelemetryLaws
  import opened GuidedTransitions
  import opened GuidedRuns
  import opened GuidedOutcomes

  predicate SomeFailed(results: seq<StepResult>) {
    exists i :: 0 <= i < |results| && results[i].status.Failed?
  }

  predicate SomeBlocked(results: seq<StepResult>) {
    exists i :: 0 <= i < |results| && results[i].status.Blocked?
  }

  /** The session when all its steps have ended: FAILED, else BLOCKED, else COMPLETED, with a retest if one is due. */
  predicate Concluded(s: Session, t: Session, id: SessionId) {
    && t.status == (if SomeFailed(t.results) then SessionStatus.Failed
                    else if SomeBlocked(t.results) then SessionStatus.Blocked else Completed)
    && t.retestSessionId == (if s.retestSessionId.None? && (SomeFailed(t.results) || SomeBlocked(t.results)) then Some(id)
                             else s.retestSessionId)
  }

  /** The current step has ended: STEP_COMPLETE, or on the last one the whole session is concluded. */
  predicate StepEnded(s: Session, t: Session, id: SessionId) {
    if t.currentStepIndex + 1 < |t.results| then t.status.StepComplete? && t.retestSessionId == s.retestSessionId
    else Concluded(s, t, id)
  }

  /** Only the current result, and what hangs on it, may differ. */
  predicate OnlyCurrent(s: Session, t: Session) {
    && |t.results| == |s.results| && t.currentStepIndex == s.currentStepIndex < |s.results|
    && (forall i :: 0 <= i < |s.results| && i != s.currentStepIndex ==> t.results[i] == s.results[i])
    && t.attempt == s.attempt && t.hasObserver == s.hasObserver && t.parentSessionId == s.parentSessionId
    && t.approvedAt == s.approvedAt && t.revision == s.revision
  }

  lemma SomeNext(results: seq<StepResult>)
    requires results != []
    ensures var init, last := results[..|results| - 1], results[|results| - 1];
            && (SomeFailed(results) <==> SomeFailed(init) || last.status.Failed?)
            && (SomeBlocked(results) <==> SomeBlocked(init) || last.status.Blocked?)
  {
    assert forall i :: 0 <= i < |results| - 1 ==> results[..|results| - 1][i] == results[i];
  }

  lemma {:induction false} RetryIdsEmpty(results: seq<StepResult>)
    ensures RetryIds(results) != [] <==> SomeFailed(results) || SomeBlocked(results)
  {
    if results != [] {
      var init, last := results[..|results| - 1], results[|results| - 1];
      SomeNext(results);
      assert RetryIds(results)
          == RetryIds(init) + if last.status.Failed? || last.status.Blocked? then [last.stepId] else [];
      hide SomeFailed, SomeBlocked, RetryIds;
      RetryIdsEmpty(init);
    }
  }

  lemma FinalizeConcludes(s: Session, id: SessionId)
    requires AllTerminal(s.results)
    ensures Concluded(s, Finalize(s, id), id) && Finalize(s, id).results == s.results
  {
    RetryIdsEmpty(s.results);
    FinalizeDecides(s.results);
    hide RetryIds;
  }

  /** Putting a step's outcome back: an open one changes the session's status, an ended one ends it as it should. */
  lemma InstallAnswers(plan: seq<ScenarioStep>, s: Session, v: Live, id: SessionId, now: int)
    requires SessionInv(plan, s, now) && (v.status.StepComplete? ==> v.result.Terminal())
    ensures var t := Install(s, v, id);
            && OnlyCurrent(s, t) && t.results[s.currentStepIndex] == v.result
            && t.lastObservationAt == s.lastObservationAt
            && if v.status.StepComplete? then StepEnded(s, t, id)
               else t.status == v.status && t.retestSessionId == s.retestSessionId
  {
    hide StepInv, Concluded, Finalize;
    if v.status.StepComplete? && s.currentStepIndex + 1 >= |s.results| {
      var next := s.(status := v.status, results := s.results[s.currentStepIndex := v.result]);
      FinalizeConcludes(next, id);
      FinalizeFrames(next, id);
      LinkCarried(s, next, Finalize(next, id), id);
    }
  }

  lemma LinkCarried(s: Session, next: Session, t: Session, id: SessionId)
    requires Concluded(next, t, id) && s.retestSessionId == next.retestSessionId
    ensures Concluded(s, t, id)
  {
  }

  lemma FinalizeFrames(s: Session, id: SessionId)
    ensures var t := Finalize(s, id);
            t == s.(status := t.status, retestSessionId := t.retestSessionId)
  {
    hide RetryIds, FinalStatus;
  }

  // ---- observations ----

  /** An accepted observation: noted on any session, consumed exactly by an open step that has a telemetry contract. */
  lemma ObservationAnswer(plan: seq<ScenarioStep>, s: Session, o: Observation, k: Ticks, defer: bool, id: SessionId, now: int)
    requires SessionInv(plan, s, now) && k.From(now)
    ensures WellFormed(plan, s)
    ensures var t, i := AcceptObservation(plan, s, o, k, defer, id), s.currentStepIndex;
            && OnlyCurrent(s, t) && t.lastObservationAt == Some(k.accept)
            && if (s.results[i].status.Active? || s.results[i].status.AwaitingFeedback?) && plan[i].oracle.Some? then
                 && Observed(plan[i], plan[i].oracle.value, s.results[i], o, k, defer, t.results[i])
                 && StatusFollows(s, t, id)
               else t == s.(lastObservationAt := t.lastObservationAt)
  {
    hide StepInv, Consume, Install, Observed;
    var step, i := plan[s.currentStepIndex], s.currentStepIndex;
    var seen := s.(lastObservationAt := Some(k.accept));
    SeenKeeps(plan, s, k.accept, now);
    if (s.results[i].status.Active? || s.results[i].status.AwaitingFeedback?) && step.oracle.Some? {
      ConsumeOutcome(step, s.hasObserver, step.oracle.value, CurrentLive(s), o, now, k, defer);
      var v := Consume(step, step.oracle.value, CurrentLive(s), o, k, defer);
      ConsumeCouples(plan, s, o, k, defer, now);
      InstallAnswers(plan, seen, v, id, now);
    }
  }

  /** The session's status after its current step changed: that of an open step, or the end of it. */
  predicate StatusFollows(s: Session, t: Session, id: SessionId)
    requires t.currentStepIndex < |t.results|
  {
    match t.results[t.currentStepIndex].status
    case Active => t.status.Running? && t.retestSessionId == s.retestSessionId
    case Paused => t.status.Paused? && t.retestSessionId == s.retestSessionId
    case AwaitingFeedback => t.status.AwaitingFeedback? && t.retestSessionId == s.retestSessionId
    case Pending => t.status.Ready? && t.retestSessionId == s.retestSessionId
    case _ => StepEnded(s, t, id)
  }

  lemma ConsumeCouples(plan: seq<ScenarioStep>, s: Session, o: Observation, k: Ticks, defer: bool, now: int)
    requires SessionInv(plan, s, now) && k.From(now)
    requires Current(s).status.Active? || Current(s).status.AwaitingFeedback?
    requires plan[s.currentStepIndex].oracle.Some?
    ensures var v := Consume(plan[s.currentStepIndex], plan[s.currentStepIndex].oracle.value, CurrentLive(s), o, k, defer);
            && Coupled(v.status, v.result)
            && (v.status.Running? || v.status.AwaitingFeedback? || v.status.StepComplete?)
            && (v.result.Terminal() ==> v.status.StepComplete?) && !v.result.status.Pending?
  {
    hide StepInv, Consume;
    var step := plan[s.currentStepIndex];
    ConsumeKeeps(step, s.hasObserver, step.oracle.value, CurrentLive(s), o, now, k, defer);
    ConsumeStatus(step, step.oracle.value, CurrentLive(s), o, k, defer);
    NeverPending(step, step.oracle.value, CurrentLive(s), o, k, defer);
  }

  lemma NeverPending(step: ScenarioStep, oracle: TelemetryOracle, v: Live, o: Observation, k: Ticks, defer: bool)
    requires v.result.status.Active? || v.result.status.AwaitingFeedback?
    ensures !Consume(step, oracle, v, o, k, defer).result.status.Pending?
  {
    hide Violation, OracleSatisfied, JudgeTally, Elapsed, FinishTiming;
  }

  // ---- looking at the window, and the time limit ----

  lemma LookAnswer(plan: seq<ScenarioStep>, s: Session, k: Ticks, id: SessionId, now: int)
    requires SessionInv(plan, s, now) && k.From(now)
    ensures WellFormed(plan, s)
    ensures var i := s.currentStepIndex;
            s.results[i].status.Active? && plan[i].oracle.Some? ==>
              var r, oracle := s.results[i], plan[i].oracle.value;
              var t := Install(s, Advance(plan[i], oracle, CurrentLive(s), k).0, id);
              && OnlyCurrent(s, t) && t.results[i].tally == r.tally && t.lastObservationAt == s.lastObservationAt
              && Looked(plan[i], oracle, r.tally.samples, Elapsed(r.timing, k.check), r.settle, r.manualVerdict, k.check,
                        t.results[i])
              && StatusFollows(s, t, id)
  {
    hide StepInv, Advance, Install, Looked;
    var i := s.currentStepIndex;
    if s.results[i].status.Active? && plan[i].oracle.Some? {
      var step, oracle := plan[i], plan[i].oracle.value;
      OpenStep(step, s.hasObserver, oracle, s.results[i], now);
      AdvanceLooks(step, oracle, CurrentLive(s), k);
      AdvanceKeeps(step, s.hasObserver, oracle, CurrentLive(s), now, k);
      AdvanceStatus(step, oracle, CurrentLive(s), k);
      AdvanceCouples(step, oracle, CurrentLive(s), k);
      InstallAnswers(plan, s, Advance(step, oracle, CurrentLive(s), k).0, id, now);
    }
  }

  lemma AdvanceCouples(step: ScenarioStep, oracle: TelemetryOracle, v: Live, k: Ticks)
    requires v.status.Running? && v.result.status.Active?
    ensures var w := Advance(step, oracle, v, k).0;
            && (w.result.Terminal() ==> w.status.StepComplete?) && !w.result.status.Pending?
  {
    hide OracleSatisfied, Elapsed, FinishTiming;
  }

  /** After a batch the window is looked at once, if the step is still active. */
  lemma EndBatchAnswer(plan: seq<ScenarioStep>, s: Session, k: Ticks, id: SessionId, now: int)
    requires SessionInv(plan, s, now) && k.From(now)
    ensures WellFormed(plan, s)
    ensures var t, i := CloseBatch(plan, s, k, id), s.currentStepIndex;
            if s.results[i].status.Active? && plan[i].oracle.Some? then
              var r, oracle := s.results[i], plan[i].oracle.value;
              && OnlyCurrent(s, t) && t.results[i].tally == r.tally
              && Looked(plan[i], oracle, r.tally.samples, Elapsed(r.timing, k.check), r.settle, r.manualVerdict, k.check,
                        t.results[i])
              && StatusFollows(s, t, id)
            else t == s
  {
    hide StepInv, Advance, Install, Looked, StatusFollows;
    LookAnswer(plan, s, k, id, now);
  }

  /** Two saves, and no attestation left for a closed session. */
  predicate Persisted(d: Desk, f: Desk) {
    && f.session.revision == d.session.revision + 2
    && f.attestation == (if f.session.Terminal() then None else d.attestation)
    && f.heldToken == (if f.session.Terminal() then None else d.heldToken)
  }

  /** A look at the window would change something. */
  ghost predicate Stirs(oracle: TelemetryOracle, r: StepResult, check: int) {
    if !ContractHolds(oracle, r.tally.samples, Elapsed(r.timing, check)) then r.settle.startedAt.Some?
    else r.settle.startedAt.None? || check - r.settle.startedAt.value >= oracle.settleWindowMs
  }

  lemma AdvanceStirs(step: ScenarioStep, oracle: TelemetryOracle, v: Live, k: Ticks)
    requires Folded(oracle, v.result.tally) && v.result.tally.judged == |v.result.tally.samples|
    requires !v.result.settle.satisfied && WindowShape(oracle, v.result.settle)
    ensures Advance(step, oracle, v, k).1 <==> Stirs(oracle, v.result, k.check)
  {
    SatisfiedIff(oracle, v.result.tally, Elapsed(v.result.timing, k.check));
    hide Folded, OracleSatisfied, ContractHolds, Elapsed, CompleteTelemetryPhase;
  }

  /**
   A refresh looks at the window first and saves if that changes something; otherwise, and never for a manual step, it
   ends an active step whose unpaused time has reached its limit; otherwise it changes nothing.
   */
  lemma RefreshAnswer(plan: seq<ScenarioStep>, d: Desk, k: Ticks, id: SessionId, now: int)
    requires SessionInv(plan, d.session, now) && k.From(now)
    ensures WellFormed(plan, d.session)
    ensures var f, s, i := Refresh(plan, d, k, id), d.session, d.session.currentStepIndex;
            var r, step := s.results[i], plan[i];
            if r.status.Active? && step.oracle.Some? && Stirs(step.oracle.value, r, k.check) then
              && Persisted(d, f) && OnlyCurrent(s, f.session.(revision := s.revision))
              && Looked(step, step.oracle.value, r.tally.samples, Elapsed(r.timing, k.check), r.settle, r.manualVerdict,
                        k.check, f.session.results[i])
              && StatusFollows(s, f.session, id)
            else if r.status.Active? && !step.kind.Manual? && Elapsed(r.timing, k.limit) >= step.timeoutMs then
              && Persisted(d, f) && OnlyCurrent(s, f.session.(revision := s.revision))
              && TimedOut(step, r, f.session.results[i]) && StatusFollows(s, f.session, id)
            else f == d
  {
    hide SessionInv, Advance, Timeout, Install, Elapsed, Looked, TimedOut, StatusFollows, Stirs, Save, Persisted;
    var s, i := d.session, d.session.currentStepIndex;
    SoundCurrent(plan, s, now);
    RefreshIs(plan, d, k, id, now);
    if s.results[i].status.Active? {
      if plan[i].oracle.Some? {
        LookAnswer(plan, s, k, id, now);
        SavePersists(d, Install(s, Advance(plan[i], plan[i].oracle.value, CurrentLive(s), k).0, id), id);
      }
      TimeoutAnswer(plan, s, k.finish, id, now);
      SavePersists(d, Install(s, Timeout(plan[i], s.results[i], k.finish), id), id);
    }
  }

  lemma RefreshIs(plan: seq<ScenarioStep>, d: Desk, k: Ticks, id: SessionId, now: int)
    requires SessionInv(plan, d.session, now)
    ensures WellFormed(plan, d.session)
    ensures var f, s, i := Refresh(plan, d, k, id), d.session, d.session.currentStepIndex;
            var r, step := s.results[i], plan[i];
            if r.status.Active? && step.oracle.Some? && Stirs(step.oracle.value, r, k.check) then
              f == Save(d, Install(s, Advance(step, step.oracle.value, CurrentLive(s), k).0, id))
            else if r.status.Active? && !step.kind.Manual? && Elapsed(r.timing, k.limit) >= step.timeoutMs then
              f == Save(d, Install(s, Timeout(step, r, k.finish), id))
            else f == d
  {
    hide StepInv, Advance, Timeout, Install, Elapsed, Stirs, Save;
    var s, i := d.session, d.session.currentStepIndex;
    if s.results[i].status.Active? && plan[i].oracle.Some? {
      OpenStep(plan[i], s.hasObserver, plan[i].oracle.value, s.results[i], now);
      AdvanceStirs(plan[i], plan[i].oracle.value, CurrentLive(s), k);
    }
  }

  lemma SavePersists(d: Desk, t: Session, id: SessionId)
    requires OnlyCurrent(d.session, t) && StatusFollows(d.session, t, id)
    ensures var f := Save(d, t);
            && Persisted(d, f) && OnlyCurrent(d.session, f.session.(revision := d.session.revision))
            && StatusFollows(d.session, f.session, id) && f.session.results == t.results
            && f.observations == d.observations && f.retired == d.retired
  {
    hide StatusFollows;
    FollowsRevision(d.session, t, id);
    var u := t.(revision := t.revision + 2);
    assert StatusFollows(d.session, u, id);
  }

  lemma FollowsRevision(s: Session, t: Session, id: SessionId)
    requires t.currentStepIndex < |t.results|
    ensures forall n :: StatusFollows(s, t.(revision := n), id) == StatusFollows(s, t, id)
  {
    hide SomeFailed, SomeBlocked;
  }

  lemma TimeoutAnswer(plan: seq<ScenarioStep>, s: Session, t: int, id: SessionId, now: int)
    requires SessionInv(plan, s, now) && Current(s).status.Active?
    ensures var step, r := plan[s.currentStepIndex], Current(s);
            var u := Install(s, Timeout(step, r, t), id);
            OnlyCurrent(s, u) && TimedOut(step, r, u.results[s.currentStepIndex]) && StatusFollows(s, u, id)
  {
    hide StepInv, Install, StepEnded, FinishTiming, TimeoutCodes;
    var step, r := plan[s.currentStepIndex], Current(s);
    TimeoutOutcome(step, s.hasObserver, r, now, t);
    InstallAnswers(plan, s, Timeout(step, r, t), id, now);
    hide TimedOut;
  }

  // ---- verdicts ----

  /** When the current step takes this verdict. */
  predicate Takes(step: ScenarioStep, hasObserver: bool, r: StepResult, v: Verdict) {
    && (r.status.Active? || r.status.AwaitingFeedback?)
    && !(step.kind.Telemetry? && !step.feedbackRequired)
    && r.manualVerdict.None?
    && (step.verdictAuthority.Either? || step.verdictAuthority.role == v.reporter)
    && (v.reporter.Observer? ==> hasObserver)
  }

  /** What a taken verdict makes of the step. */
  predicate Judged(step: ScenarioStep, r: StepResult, v: Verdict, after: StepResult) {
    && after.manualVerdict == Some(v) && after.tally == r.tally && after.settle == r.settle
    && (after.status.Failed? <==> v.outcome.Failed?)
    && (after.status.Blocked? <==> v.outcome.Blocked?)
    && (after.status.Passed? <==> v.outcome.Passed? && (step.kind.Manual? || r.status.AwaitingFeedback?))
    && (!after.status.Failed? && !after.status.Blocked? && !after.status.Passed? ==> after.status.Active?)
    && (v.outcome.Failed? ==> after.failureCodes == {if v.reporter.Observer? then ObserverFailed else UserFailed})
    && (v.outcome.Blocked? ==> after.failureCodes == {UserBlocked})
    && (after.status.Passed? ==> after.failureCodes == {})
    && after.evidenceClass == (if !after.status.Active? && r.tally.samples != [] then HybridEvidence
                               else if after.status.Passed? && !step.kind.Manual? then HybridEvidence
                               else if v.reporter.Observer? then ObserverReported else SelfReported)
  }

  lemma VerdictDecides(step: ScenarioStep, hasObserver: bool, r: StepResult, v: Verdict, now: int, t: int)
    requires StepInv(step, hasObserver, r, now) && Takes(step, hasObserver, r, v)
    ensures var w := DecideVerdict(step, Record(r, v), v, t);
            && Judged(step, r, v, w.result)
            && (if w.result.Terminal() then w.status.StepComplete? else w.status.Running? && w.result.status.Active?)
  {
    VerdictFacts(step, hasObserver, r, now);
    VerdictEvidence(step, r, v);
    hide StepInv, Judged, DecideVerdict;
    if v.outcome.Passed? {
      PassDecides(step, r, v, t);
    } else {
      DownDecides(step, r, v, t);
    }
  }

  lemma DownDecides(step: ScenarioStep, r: StepResult, v: Verdict, t: int)
    requires !v.outcome.Passed?
    requires FinishEvidence(step, Record(r, v))
             == if r.tally.samples != [] then HybridEvidence
                else if v.reporter.Observer? then ObserverReported else SelfReported
    ensures var w := DecideVerdict(step, Record(r, v), v, t);
            Judged(step, r, v, w.result) && w.result.Terminal() && w.status.StepComplete?
  {
    hide FinishTiming, FinishEvidence;
  }

  lemma PassDecides(step: ScenarioStep, r: StepResult, v: Verdict, t: int)
    requires v.outcome.Passed? && (r.status.Active? || r.status.AwaitingFeedback?)
    requires step.kind.Manual? || (r.settle.satisfied <==> r.status.AwaitingFeedback?)
    requires FinishEvidence(step, Record(r, v))
             == if r.tally.samples != [] then HybridEvidence
                else if v.reporter.Observer? then ObserverReported else SelfReported
    requires FinishEvidence(step, Record(r, v).(evidenceClass := HybridEvidence)) == HybridEvidence
    ensures var w := DecideVerdict(step, Record(r, v), v, t);
            && Judged(step, r, v, w.result)
            && (if w.result.Terminal() then w.status.StepComplete? else w.status.Running? && w.result.status.Active?)
  {
    hide FinishTiming, FinishEvidence;
  }

  lemma VerdictEvidence(step: ScenarioStep, r: StepResult, v: Verdict)
    requires step.oracle.None? ==> r.tally.samples == []
    requires step.oracle.Some? ==> r.tally.observationCount == |r.tally.samples|
    ensures FinishEvidence(step, Record(r, v))
            == if r.tally.samples != [] then HybridEvidence else if v.reporter.Observer? then ObserverReported else SelfReported
    ensures FinishEvidence(step, Record(r, v).(evidenceClass := HybridEvidence)) == HybridEvidence
  {
  }

  /** On an open step the oracle is satisfied exactly while a verdict is awaited, and samples need a contract. */
  lemma VerdictFacts(step: ScenarioStep, hasObserver: bool, r: StepResult, now: int)
    requires StepInv(step, hasObserver, r, now) && (r.status.Active? || r.status.AwaitingFeedback?)
    ensures r.status.Active? ==> step.oracle.Some? ==> !r.settle.satisfied
    ensures step.oracle.None? ==> r.tally.samples == [] && !r.settle.satisfied
    ensures r.status.AwaitingFeedback? ==> r.settle.satisfied
    ensures step.oracle.Some? ==> r.tally.observationCount == |r.tally.samples|
  {
    hide FoldsMeasures, FoldsMarks, CountsEvents, Lawful, OracleSatisfied, QuietSince, TimingInv, VerdictInv;
  }

  /**
   A verdict: refused without the attestation, refused when the step does not take it, and otherwise it decides the step
   by its outcome. A pass of a step whose telemetry is still open lets it run on.
   */
  lemma FeedbackAnswer(plan: seq<ScenarioStep>, d: Desk, v: Verdict, token: Option<string>, t: int, id: SessionId, now: int)
    requires SessionInv(plan, d.session, now)
    ensures WellFormed(plan, d.session)
    ensures var reply, s, i := Feedback(plan, d, v, token, t, id), d.session, d.session.currentStepIndex;
            var step, r := plan[i], s.results[i];
            if d.attestation.None? || d.attestation != token then reply == Reply(d, Some(HumanAttestationRequired))
            else if !Takes(step, s.hasObserver, r, v) then reply == Reply(d, Some(InvalidTransition))
            else
              && reply.error.None? && Persisted(d, reply.desk)
              && OnlyCurrent(s, reply.desk.session.(revision := s.revision))
              && Judged(step, r, v, reply.desk.session.results[i]) && StatusFollows(s, reply.desk.session, id)
  {
    hide StepInv, Install, Save, Persisted, DecideVerdict, Judged, StatusFollows, StepEnded;
    SoundCurrent(plan, d.session, now);
    var s := d.session;
    var step, r := plan[s.currentStepIndex], Current(s);
    TakesIff(step, s.hasObserver, r, v);
    hide TakesVerdict, Takes;
    if TakesVerdict(step, s.hasObserver, r, v) {
      VerdictInstalls(plan, s, v, t, id, now);
      SavePersists(d, Install(s, DecideVerdict(step, Record(r, v), v, t), id), id);
    }
  }

  lemma VerdictInstalls(plan: seq<ScenarioStep>, s: Session, v: Verdict, t: int, id: SessionId, now: int)
    requires SessionInv(plan, s, now) && Takes(plan[s.currentStepIndex], s.hasObserver, Current(s), v)
    ensures var step, r := plan[s.currentStepIndex], Current(s);
            var u := Install(s, DecideVerdict(step, Record(r, v), v, t), id);
            OnlyCurrent(s, u) && Judged(step, r, v, u.results[s.currentStepIndex]) && StatusFollows(s, u, id)
  {
    hide StepInv, Install, DecideVerdict, StepEnded;
    var step, r := plan[s.currentStepIndex], Current(s);
    VerdictDecides(step, s.hasObserver, r, v, now, t);
    InstallAnswers(plan, s, DecideVerdict(step, Record(r, v), v, t), id, now);
    hide Judged;
  }

  lemma TakesIff(step: ScenarioStep, hasObserver: bool, r: StepResult, v: Verdict)
    ensures TakesVerdict(step, hasObserver, r, v) <==> Takes(step, hasObserver, r, v)
  {
  }

  // ---- controls ----

  /** What a control is refused with, or nothing if it is accepted. */
  function Refusal(step: ScenarioStep, s: SessionStatus, r: StepStatus, action: Action): Option<GuidedError> {
    match action
    case Approve => if s.Prepared? then None else Some(InvalidTransition)
    case Activate(confirmed) =>
      if !s.Ready? || !r.Pending? then Some(InvalidTransition)
      else if exists c :: c in step.requiredConditions && c !in confirmed then Some(ConditionsNotConfirmed)
      else None
    case Next => if r.Passed? || r.Failed? || r.Blocked? then None else Some(InvalidTransition)
    case Retry => if r.Failed? || r.Blocked? then None else Some(InvalidTransition)
    case Pause => if s.Running? && r.Active? then None else Some(InvalidTransition)
    case Resume => if s.Paused? && r.Paused? then None else Some(InvalidTransition)
    case Block =>
      if r.Pending? || r.Active? || r.Paused? || r.AwaitingFeedback? then None else Some(InvalidTransition)
    case Abort =>
      if s.Completed? || s.Failed? || s.Blocked? || s.Aborted? then Some(InvalidTransition) else None
  }

  /** What aborting makes of one result. */
  predicate AbortedTo(r: StepResult, q: StepResult) {
    if r.status.Passed? || r.status.Failed? || r.status.Blocked? then q == r
    else
      && q.status.Blocked? && q.failureCodes == {UserBlocked} && q.tally == r.tally && q.timing == r.timing
      && q.manualVerdict == r.manualVerdict
      && q.evidenceClass == if r.evidenceClass.Unknown? then SelfReported else r.evidenceClass
  }

  predicate ActivatedTo(r: StepResult, confirmed: set<string>, at: int, q: StepResult) {
    && q.status.Active? && q.confirmedConditions == confirmed && q.timing.startedAt == Some(at)
    && q.attempt == r.attempt && q.tally == r.tally
  }

  predicate Renewed(step: ScenarioStep, r: StepResult, q: StepResult) {
    && q.status.Pending? && q.attempt == r.attempt + 1 && q.stepId == step.id && q.timing.startedAt.None?
    && q.tally.samples == [] && q.manualVerdict.None? && q.failureCodes == {} && q.evidenceClass.Unknown?
  }

  predicate PausedAt(r: StepResult, at: int, q: StepResult) {
    && q.status.Paused? && q.timing.pausedAt == Some(at)
    && q.tally == r.tally && q.settle == r.settle && q.manualVerdict == r.manualVerdict
  }

  predicate ResumedAt(r: StepResult, at: int, q: StepResult) {
    && q.status.Active? && q.timing.pausedAt.None? && r.timing.pausedAt.Some?
    && q.timing.accumulatedPauseMs == r.timing.accumulatedPauseMs + (at - r.timing.pausedAt.value)
    && q.tally == r.tally && q.manualVerdict == r.manualVerdict
  }

  /** Evidence of a step that was blocked by hand: its samples and its verdict's reporter, or the operator's word. */
  predicate BlockedAt(r: StepResult, at: int, q: StepResult) {
    && q.status.Blocked? && q.failureCodes == {UserBlocked} && q.tally == r.tally && q.timing.endedAt == Some(at)
    && q.evidenceClass == match r.manualVerdict
                          case None => SelfReported
                          case Some(v) =>
                            if r.tally.samples != [] then HybridEvidence
                            else if v.reporter.Observer? then ObserverReported else SelfReported
  }

  /** What an accepted control does. */
  predicate Carried(step: ScenarioStep, s: Session, action: Action, at: int, id: SessionId, t: Session)
    requires s.currentStepIndex < |s.results|
  {
    var i, r := s.currentStepIndex, s.results[s.currentStepIndex];
    match action
    case Approve => t == s.(status := Ready, approvedAt := Some(at))
    case Next =>
      if i + 1 < |s.results| then t == s.(status := Ready, currentStepIndex := i + 1)
      else Concluded(s, t, id) && t == s.(status := t.status, retestSessionId := t.retestSessionId)
    case Abort =>
      && |t.results| == |s.results| && t.status.Aborted?
      && (forall j :: 0 <= j < |s.results| ==> AbortedTo(s.results[j], t.results[j]))
      && t.retestSessionId == (if s.retestSessionId.None? && (SomeFailed(t.results) || SomeBlocked(t.results)) then Some(id)
                               else s.retestSessionId)
      && t == s.(results := t.results, status := t.status, retestSessionId := t.retestSessionId)
    case Activate(confirmed) =>
      OnlyCurrent(s, t) && StatusFollows(s, t, id) && ActivatedTo(r, confirmed, at, t.results[i])
    case Retry => OnlyCurrent(s, t) && StatusFollows(s, t, id) && Renewed(step, r, t.results[i])
    case Pause => OnlyCurrent(s, t) && StatusFollows(s, t, id) && PausedAt(r, at, t.results[i])
    case Resume => OnlyCurrent(s, t) && StatusFollows(s, t, id) && ResumedAt(r, at, t.results[i])
    case Block => OnlyCurrent(s, t) && StatusFollows(s, t, id) && BlockedAt(r, at, t.results[i])
  }

  predicate Meets(out: Result<Session, GuidedError>, step: ScenarioStep, s: Session, action: Action, t: int, id: SessionId)
    requires s.currentStepIndex < |s.results|
  {
    var refusal := Refusal(step, s.status, s.results[s.currentStepIndex].status, action);
    if refusal.Some? then out == Err(refusal.value) else out.Ok? && Carried(step, s, action, t, id, out.value)
  }

  lemma SessionControlAnswer(plan: seq<ScenarioStep>, s: Session, action: Action, t: int, id: SessionId, now: int)
    requires SessionInv(plan, s, now) && WellFormed(plan, s) && (action.Approve? || action.Next? || action.Abort?)
    ensures Meets(Perform(plan, s, action, t, id), plan[s.currentStepIndex], s, action, t, id)
  {
    hide StepInv, Concluded, Finalize, RetryIds, AbortAll, AbortedTo, OnlyCurrent;
    match action
    case Next => NextAnswer(plan, s, id, now);
    case Abort => AbortAnswer(s, id);
    case _ =>
  }

  /** A control on the current step leaves the session as its outcome says. */
  lemma StepControlled(plan: seq<ScenarioStep>, s: Session, v: Live, id: SessionId, now: int)
    requires SessionInv(plan, s, now)
    requires || (v.status.Running? && v.result.status.Active?) || (v.status.Paused? && v.result.status.Paused?)
             || (v.status.Ready? && v.result.status.Pending?) || (v.status.StepComplete? && v.result.status.Blocked?)
    ensures var t := Install(s, v, id);
            OnlyCurrent(s, t) && StatusFollows(s, t, id) && t.results[s.currentStepIndex] == v.result
  {
    hide SessionInv, Install, StepEnded;
    InstallAnswers(plan, s, v, id, now);
  }

  lemma ActivateIs(plan: seq<ScenarioStep>, s: Session, confirmed: set<string>, t: int, id: SessionId)
    requires WellFormed(plan, s)
    ensures Perform(plan, s, Action.Activate(confirmed), t, id)
            == if !s.status.Ready? || !Current(s).status.Pending? then Err(InvalidTransition)
               else if !(plan[s.currentStepIndex].requiredConditions <= confirmed) then Err(ConditionsNotConfirmed)
               else Ok(Install(s, GuidedSteps.Activate(Current(s), confirmed, t), id))
  {
  }

  lemma ActivateAnswer(plan: seq<ScenarioStep>, s: Session, confirmed: set<string>, t: int, id: SessionId, now: int)
    requires SessionInv(plan, s, now) && WellFormed(plan, s)
    ensures Meets(Perform(plan, s, Action.Activate(confirmed), t, id), plan[s.currentStepIndex], s,
                  Action.Activate(confirmed), t, id)
  {
    ConditionsIff(plan[s.currentStepIndex], confirmed);
    ActivateIs(plan, s, confirmed, t, id);
    hide SessionInv, Install, StatusFollows, OnlyCurrent, Concluded, Perform;
    StepControlled(plan, s, GuidedSteps.Activate(Current(s), confirmed, t), id, now);
  }

  lemma PauseAnswer(plan: seq<ScenarioStep>, s: Session, t: int, id: SessionId, now: int)
    requires SessionInv(plan, s, now) && WellFormed(plan, s)
    ensures Meets(Perform(plan, s, Action.Pause, t, id), plan[s.currentStepIndex], s, Action.Pause, t, id)
  {
    hide SessionInv, Install, StatusFollows, OnlyCurrent, Concluded;
    StepControlled(plan, s, GuidedSteps.Pause(Current(s), t), id, now);
  }

  lemma ResumeIs(plan: seq<ScenarioStep>, s: Session, t: int, id: SessionId)
    requires WellFormed(plan, s)
    ensures Perform(plan, s, Action.Resume, t, id)
            == if !s.status.Paused? || !Current(s).status.Paused? || Current(s).timing.pausedAt.None?
               then Err(InvalidTransition) else Ok(Install(s, GuidedSteps.Resume(Current(s), t), id))
  {
  }

  lemma ResumeAnswer(plan: seq<ScenarioStep>, s: Session, t: int, id: SessionId, now: int)
    requires SessionInv(plan, s, now) && WellFormed(plan, s)
    ensures Meets(Perform(plan, s, Action.Resume, t, id), plan[s.currentStepIndex], s, Action.Resume, t, id)
  {
    hide SessionInv, StepInv, Install, StatusFollows, OnlyCurrent, Concluded, Perform;
    SoundCurrent(plan, s, now);
    PausedSince(plan[s.currentStepIndex], s.hasObserver, Current(s), now);
    ResumeIs(plan, s, t, id);
    if Current(s).timing.pausedAt.Some? {
      StepControlled(plan, s, GuidedSteps.Resume(Current(s), t), id, now);
    }
  }

  lemma RetryAnswer(plan: seq<ScenarioStep>, s: Session, t: int, id: SessionId, now: int)
    requires SessionInv(plan, s, now) && WellFormed(plan, s)
    ensures Meets(Perform(plan, s, Action.Retry, t, id), plan[s.currentStepIndex], s, Action.Retry, t, id)
  {
    hide SessionInv, Install, StatusFollows, OnlyCurrent;
    StepControlled(plan, s, Live(Ready, FreshResult(plan[s.currentStepIndex], Current(s).attempt + 1)), id, now);
  }

  lemma BlockIs(plan: seq<ScenarioStep>, s: Session, t: int, id: SessionId)
    requires WellFormed(plan, s)
    ensures Perform(plan, s, Action.Block, t, id)
            == if Current(s).Terminal() then Err(InvalidTransition)
               else Ok(Install(s, GuidedSteps.Block(plan[s.currentStepIndex], Current(s), t), id))
  {
  }

  lemma BlockAnswer(plan: seq<ScenarioStep>, s: Session, t: int, id: SessionId, now: int)
    requires SessionInv(plan, s, now) && WellFormed(plan, s)
    ensures Meets(Perform(plan, s, Action.Block, t, id), plan[s.currentStepIndex], s, Action.Block, t, id)
  {
    hide SessionInv, StepInv, Install, Perform, StatusFollows, OnlyCurrent, GuidedSteps.Block, BlockedAt;
    SoundCurrent(plan, s, now);
    BlockIs(plan, s, t, id);
    if !Current(s).Terminal() {
      BlockedEvidence(plan[s.currentStepIndex], s.hasObserver, Current(s), now, t);
      StepControlled(plan, s, GuidedSteps.Block(plan[s.currentStepIndex], Current(s), t), id, now);
    }
  }

  /** Each control is refused exactly as the table says, and otherwise does what is said of it. */
  lemma PerformAnswer(plan: seq<ScenarioStep>, s: Session, action: Action, t: int, id: SessionId, now: int)
    requires SessionInv(plan, s, now)
    ensures WellFormed(plan, s)
    ensures var out, refusal := Perform(plan, s, action, t, id),
                                Refusal(plan[s.currentStepIndex], s.status, Current(s).status, action);
            if refusal.Some? then out == Err(refusal.value)
            else out.Ok? && Carried(plan[s.currentStepIndex], s, action, t, id, out.value)
  {
    SoundIsWellFormed(plan, s, now);
    hide SessionInv, Perform, Carried, Refusal;
    match action
    case Approve => SessionControlAnswer(plan, s, action, t, id, now);
    case Next => SessionControlAnswer(plan, s, action, t, id, now);
    case Abort => SessionControlAnswer(plan, s, action, t, id, now);
    case Retry => RetryAnswer(plan, s, t, id, now);
    case Block => BlockAnswer(plan, s, t, id, now);
    case Activate(confirmed) => ActivateAnswer(plan, s, confirmed, t, id, now);
    case Pause => PauseAnswer(plan, s, t, id, now);
    case Resume => ResumeAnswer(plan, s, t, id, now);
  }

  lemma ConditionsIff(step: ScenarioStep, confirmed: set<string>)
    ensures step.requiredConditions <= confirmed <==> !exists c :: c in step.requiredConditions && c !in confirmed
  {
  }

  lemma PausedSince(step: ScenarioStep, hasObserver: bool, r: StepResult, now: int)
    requires StepInv(step, hasObserver, r, now)
    ensures r.status.Paused? ==> r.timing.pausedAt.Some?
  {
    hide TallyInv, SettleInv, VerdictInv;
  }

  lemma NextAnswer(plan: seq<ScenarioStep>, s: Session, id: SessionId, now: int)
    requires SessionInv(plan, s, now)
    ensures s.currentStepIndex + 1 >= |s.results| && Current(s).Terminal() ==>
              var t := Finalize(s, id);
              Concluded(s, t, id) && t == s.(status := t.status, retestSessionId := t.retestSessionId)
  {
    hide StepInv, Concluded, Finalize;
    if s.currentStepIndex + 1 >= |s.results| && Current(s).Terminal() {
      FinalizeConcludes(s, id);
      FinalizeFrames(s, id);
    }
  }

  lemma BlockedEvidence(step: ScenarioStep, hasObserver: bool, r: StepResult, now: int, t: int)
    requires StepInv(step, hasObserver, r, now) && !r.Terminal()
    ensures var v := GuidedSteps.Block(step, r, t);
            v.status.StepComplete? && v.result.status.Blocked? && BlockedAt(r, t, v.result)
  {
    SamplesNeedContract(step, hasObserver, r, now);
    hide StepInv;
  }

  lemma SamplesNeedContract(step: ScenarioStep, hasObserver: bool, r: StepResult, now: int)
    requires StepInv(step, hasObserver, r, now)
    ensures step.oracle.None? ==> r.tally.samples == []
    ensures step.oracle.Some? ==> r.tally.observationCount == |r.tally.samples|
    ensures !r.Terminal() && r.manualVerdict.None? ==> r.evidenceClass.Unknown?
    ensures !r.Terminal() && r.manualVerdict.Some? ==>
              r.evidenceClass == if r.manualVerdict.value.reporter.Observer? then ObserverReported else SelfReported
  {
    hide FoldsMeasures, FoldsMarks, CountsEvents, Lawful, SettleInv, TimingInv, Justified;
  }

  lemma AbortAnswer(s: Session, id: SessionId)
    ensures var t := EnsureRetest(s.(results := AbortAll(s.results), status := Aborted), id);
            && |t.results| == |s.results| && t.status.Aborted?
            && (forall j :: 0 <= j < |s.results| ==> AbortedTo(s.results[j], t.results[j]))
            && t.retestSessionId == (if s.retestSessionId.None? && (SomeFailed(t.results) || SomeBlocked(t.results))
                                     then Some(id) else s.retestSessionId)
            && t == s.(results := t.results, status := t.status, retestSessionId := t.retestSessionId)
  {
    RetryIdsEmpty(AbortAll(s.results));
    hide RetryIds, SomeFailed, SomeBlocked;
  }

  /**
   A control call after its refresh: first the attestation, for exactly the actions a person must take, then the expected
   revision, then the table of transitions; an accepted one is saved, and a retry sets its attempt aside.
   */
  lemma ControlAnswer(plan: seq<ScenarioStep>, d: Desk, action: Action, token: Option<string>, expected: Option<nat>, t: int,
                      id: SessionId, now: int)
    requires SessionInv(plan, d.session, now)
    ensures WellFormed(plan, d.session)
    ensures var reply, s := Control(plan, d, action, token, expected, t, id), d.session;
            var step, r := plan[s.currentStepIndex], Current(s);
            var refusal := Refusal(step, s.status, r.status, action);
            if (action.Approve? || action.Activate? || action.Resume? || action.Block? || action.Abort?)
               && (d.attestation.None? || d.attestation != token)
            then reply == Reply(d, Some(HumanAttestationRequired))
            else if expected.Some? && expected.value != s.revision then reply == Reply(d, Some(RevisionConflict))
            else if refusal.Some? then reply == Reply(d, refusal)
            else
              && reply.error.None? && Persisted(d, reply.desk) && reply.desk.observations == d.observations
              && Carried(step, s, action, t, id, reply.desk.session.(revision := s.revision))
              && reply.desk.retired == d.retired + if action.Retry? then [r] else []
  {
    hide SessionInv, Perform, Carried, Refusal, CarriedOut;
    SoundIsWellFormed(plan, d.session, now);
    PerformAnswer(plan, d.session, action, t, id, now);
    CarriedOutIs(plan, d, action, t, id);
  }

  lemma CarriedOutIs(plan: seq<ScenarioStep>, d: Desk, action: Action, t: int, id: SessionId)
    requires WellFormed(plan, d.session)
    ensures var out, reply := Perform(plan, d.session, action, t, id), CarriedOut(plan, d, action, t, id);
            if out.Err? then reply == Reply(d, Some(out.error))
            else
              && reply.error.None? && Persisted(d, reply.desk) && reply.desk.observations == d.observations
              && reply.desk.session.(revision := d.session.revision) == out.value
              && reply.desk.retired == d.retired + if action.Retry? then [Current(d.session)] else []
  {
    hide Perform;
    CarriedRevision(plan, d.session, action, t, id);
  }

  lemma CarriedRevision(plan: seq<ScenarioStep>, s: Session, action: Action, t: int, id: SessionId)
    requires WellFormed(plan, s)
    ensures var out := Perform(plan, s, action, t, id);
            out.Ok? ==> out.value.revision == s.revision
  {
    hide RetryIds, FinalStatus, FinishTiming, FinishEvidence, FreshResult;
  }

  // ---- reported observations ----

  /** The statuses in which a session takes observations. */
  predicate TakesReports(s: SessionStatus) {
    s.Running? || s.Paused? || s.AwaitingFeedback? || s.StepComplete?
  }

  /** A single report: early, late and repeated ones change nothing; any other is stored, noted and saved. */
  lemma ObserveAnswer(plan: seq<ScenarioStep>, d: Desk, o: Observation, k: Ticks, id: SessionId, now: int)
    requires SessionInv(plan, d.session, now) && k.From(now)
    ensures WellFormed(plan, d.session)
    ensures var f, s, i := Observe(plan, d, o, k, id), d.session, d.session.currentStepIndex;
            if !TakesReports(s.status) || o.id in d.observations then f == d
            else
              && f.observations == d.observations + {o.id} && f.retired == d.retired && Persisted(d, f)
              && OnlyCurrent(s, f.session.(revision := s.revision)) && f.session.lastObservationAt == Some(k.accept)
              && if (s.results[i].status.Active? || s.results[i].status.AwaitingFeedback?) && plan[i].oracle.Some? then
                   && Observed(plan[i], plan[i].oracle.value, s.results[i], o, k, false, f.session.results[i])
                   && StatusFollows(s, f.session, id)
                 else f.session.results == s.results && f.session.status == s.status
  {
    hide SessionInv, AcceptObservation, Observed, StatusFollows;
    SoundIsWellFormed(plan, d.session, now);
    ObservationAnswer(plan, d.session, o, k, false, id, now);
    FollowsRevision(d.session, AcceptObservation(plan, d.session, o, k, false, id), id);
  }

  function Ids(items: seq<Timed>): set<string> {
    set x | x in items :: x.observation.id
  }

  /** Of a batch, `n` items with the ids `ids` were looked at: all stored, and counted as new or repeated. */
  ghost predicate Counted(a: Intake, b: Intake, ids: set<string>, n: nat) {
    && b.observations == a.observations + ids
    && b.accepted + b.duplicates == a.accepted + a.duplicates + n
    && b.accepted - a.accepted == |b.observations| - |a.observations|
  }

  /** Of a batch the first `n` items are looked at, all of them unless they close the session. */
  lemma {:induction false} IngestCounts(plan: seq<ScenarioStep>, a: Intake, items: seq<Timed>, id: SessionId)
    returns (n: nat)
    requires WellFormed(plan, a.session)
    ensures n <= |items|
    ensures Counted(a, IngestAll(plan, a, items, id), Ids(items[..n]), n)
    ensures n < |items| ==> IngestAll(plan, a, items, id).session.Terminal()
  {
    if items == [] {
      n := 0;
      IdsOfNothing();
    } else {
      var m := |items| - 1;
      IngestNext(plan, a, items, id);
      hide AcceptObservation, Ids, IngestAll, Ingest, Counted;
      n := IngestCounts(plan, a, items[..m], id);
      assert items[..m][..n] == items[..n];
      var c := IngestAll(plan, a, items[..m], id);
      if !c.session.Terminal() {
        CountedNext(a, c, IngestAll(plan, a, items, id), Ids(items[..m]), m, items[m].observation.id);
        IdsNext(items);
        n := m + 1;
        assert items[..n] == items;
      }
    }
  }

  predicate Took(c: Intake, b: Intake, x: string) {
    && b.observations == c.observations + {x}
    && if x in c.observations then b.duplicates == c.duplicates + 1 && b.accepted == c.accepted
       else b.accepted == c.accepted + 1 && b.duplicates == c.duplicates
  }

  lemma CountedNext(a: Intake, c: Intake, b: Intake, ids: set<string>, n: nat, x: string)
    requires Counted(a, c, ids, n) && Took(c, b, x)
    ensures Counted(a, b, ids + {x}, n + 1)
  {
    if x in c.observations {
      assert c.observations + {x} == c.observations;
    }
  }

  /** The last item of a batch is dropped, counted as a repetition, or stored, after all before it. */
  lemma IngestNext(plan: seq<ScenarioStep>, a: Intake, items: seq<Timed>, id: SessionId)
    requires WellFormed(plan, a.session) && items != []
    ensures var m := |items| - 1;
            var c, b := IngestAll(plan, a, items[..m], id), IngestAll(plan, a, items, id);
            if c.session.Terminal() then b == c
            else
              && Took(c, b, items[m].observation.id)
              && b.session == if items[m].observation.id in c.observations then c.session
                              else AcceptObservation(plan, c.session, items[m].observation, items[m].ticks, true, id)
  {
    hide AcceptObservation;
    var c, x := IngestAll(plan, a, items[..|items| - 1], id), items[|items| - 1];
    assert IngestAll(plan, a, items, id) == Ingest(plan, c, x, id);
    hide IngestAll;
  }

  lemma IdsNext(items: seq<Timed>)
    requires items != []
    ensures Ids(items) == Ids(items[..|items| - 1]) + {items[|items| - 1].observation.id}
  {
    assert items == items[..|items| - 1] + [items[|items| - 1]];
  }

  lemma IdsOfNothing()
    ensures Ids([]) == {}
  {
  }

  /**
   A batch: answered without a look on a session that takes no reports; otherwise the receipt counts the new and the
   repeated observations among those looked at, and a batch that brought nothing new saves nothing.
   */
  lemma BatchAnswer(plan: seq<ScenarioStep>, d: Desk, items: seq<Timed>, k: Ticks, id: SessionId) returns (n: nat)
    requires WellFormed(plan, d.session)
    ensures n <= |items|
    ensures var s, f, receipt := d.session, ObserveBatch(plan, d, items, k, id).0, ObserveBatch(plan, d, items, k, id).1;
            var b := IngestAll(plan, Intake(s, d.observations, 0, 0), items, id);
            if s.status.Prepared? || s.status.Ready? then f == d && receipt == Receipt(0, 0)
            else if !TakesReports(s.status) then f == d && receipt == Receipt(0, |items|)
            else
              && (n < |items| ==> b.session.Terminal())
              && receipt.accepted == |d.observations + Ids(items[..n])| - |d.observations|
              && receipt.accepted + receipt.duplicates == n
              && if Ids(items[..n]) <= d.observations then f == d
                 else f.observations == d.observations + Ids(items[..n])
                      && f.session == CloseBatch(plan, b.session, k, id).(revision := f.session.revision)
                      && Persisted(d.(session := CloseBatch(plan, b.session, k, id)), f)
  {
    hide IngestAll, CloseBatch, Ids;
    n := IngestCounts(plan, Intake(d.session, d.observations, 0, 0), items, id);
    NothingNew(d.observations, Ids(items[..n]));
  }

  lemma NothingNew(seen: set<string>, more: set<string>)
    ensures |seen + more| == |seen| <==> more <= seen
  {
    if more <= seen {
      assert seen + more == seen;
    } else {
      var x :| x in more && x !in seen;
      assert seen + more == (seen + {x}) + (more - seen);
      assert |seen + more| == |seen| + |more - seen| && x in more - seen;
    }
  }

  /** The runner page hands out the held token of an open session if it is the stored one, and otherwise a new one. */
  lemma RunnerAnswer(d: Desk, minted: string)
    ensures var f, s := RunnerToken(d, minted), d.session.status;
            if (s.Completed? || s.Failed? || s.Blocked? || s.Aborted?) || (d.heldToken.Some? && d.heldToken == d.attestation)
            then f == d
            else f == d.(attestation := Some(minted), heldToken := Some(minted))
  {
  }

  // ---- every closed session has the retest it is due ----

  predicate RetestDue(s: Session) {
    s.Terminal() && (SomeFailed(s.results) || SomeBlocked(s.results)) ==> s.retestSessionId.Some?
  }

  lemma EnsureIsDue(s: Session, id: SessionId)
    ensures RetestDue(EnsureRetest(s, id))
  {
    RetryIdsEmpty(s.results);
    hide RetryIds;
  }

  lemma InstallIsDue(s: Session, v: Live, id: SessionId)
    requires s.currentStepIndex < |s.results| && OpenStatus(v.status)
    ensures RetestDue(Install(s, v, id))
  {
    hide EnsureRetest, FinalStatus;
    var next := s.(status := v.status, results := s.results[s.currentStepIndex := v.result]);
    EnsureIsDue(next.(status := FinalStatus(next.results)), id);
  }

  predicate OpenStatus(s: SessionStatus) {
    !s.Completed? && !s.Failed? && !s.Blocked? && !s.Aborted?
  }

  lemma AdvanceStaysOpen(step: ScenarioStep, oracle: TelemetryOracle, v: Live, k: Ticks)
    requires OpenStatus(v.status)
    ensures OpenStatus(Advance(step, oracle, v, k).0.status)
  {
    hide OracleSatisfied, Elapsed, FinishTiming;
  }

  lemma ConsumeStaysOpen(step: ScenarioStep, oracle: TelemetryOracle, v: Live, o: Observation, k: Ticks, defer: bool)
    requires OpenStatus(v.status)
    ensures OpenStatus(Consume(step, oracle, v, o, k, defer).status)
  {
    hide Advance, Violation, FinishTiming;
    AdvanceStaysOpen(step, oracle, v.(result := Judge(oracle, Absorb(v.result, o, k.accept), o)), k);
  }

  lemma AcceptIsDue(plan: seq<ScenarioStep>, s: Session, o: Observation, k: Ticks, defer: bool, id: SessionId)
    requires WellFormed(plan, s) && RetestDue(s)
    ensures RetestDue(AcceptObservation(plan, s, o, k, defer, id))
  {
    hide Consume, Install, SomeFailed, SomeBlocked;
    var step := plan[s.currentStepIndex];
    if step.oracle.Some? && (s.status.Running? || s.status.AwaitingFeedback?) {
      ConsumeStaysOpen(step, step.oracle.value, CurrentLive(s), o, k, defer);
      InstallIsDue(s.(lastObservationAt := Some(k.accept)), Consume(step, step.oracle.value, CurrentLive(s), o, k, defer), id);
    }
  }

  lemma PerformIsDue(plan: seq<ScenarioStep>, s: Session, action: Action, t: int, id: SessionId)
    requires WellFormed(plan, s) && RetestDue(s) && Perform(plan, s, action, t, id).Ok?
    ensures RetestDue(Perform(plan, s, action, t, id).value)
  {
    hide Install, EnsureRetest, SomeFailed, SomeBlocked, FinalStatus, AbortAll, FinishTiming, FinishEvidence, FreshResult;
    var step, r := plan[s.currentStepIndex], Current(s);
    match action
    case Activate(confirmed) => InstallIsDue(s, GuidedSteps.Activate(r, confirmed, t), id);
    case Next => EnsureIsDue(s.(status := FinalStatus(s.results)), id);
    case Retry => InstallIsDue(s, Live(Ready, FreshResult(step, r.attempt + 1)), id);
    case Pause => InstallIsDue(s, GuidedSteps.Pause(r, t), id);
    case Resume => InstallIsDue(s, GuidedSteps.Resume(r, t), id);
    case Block => InstallIsDue(s, GuidedSteps.Block(step, r, t), id);
    case Abort => EnsureIsDue(s.(results := AbortAll(s.results), status := Aborted), id);
    case _ =>
  }

  lemma {:induction false} IngestIsDue(plan: seq<ScenarioStep>, a: Intake, items: seq<Timed>, id: SessionId)
    requires WellFormed(plan, a.session) && RetestDue(a.session)
    ensures RetestDue(IngestAll(plan, a, items, id).session)
  {
    hide AcceptObservation, RetestDue;
    if items != [] {
      var init, last := items[..|items| - 1], items[|items| - 1];
      IngestIsDue(plan, a, init, id);
      AcceptIsDue(plan, IngestAll(plan, a, init, id).session, last.observation, last.ticks, true, id);
    }
  }

  lemma LookIsDue(plan: seq<ScenarioStep>, s: Session, k: Ticks, id: SessionId)
    requires WellFormed(plan, s) && OpenStatus(s.status)
    ensures plan[s.currentStepIndex].oracle.Some? ==>
              var step := plan[s.currentStepIndex];
              RetestDue(Install(s, Advance(step, step.oracle.value, CurrentLive(s), k).0, id))
  {
    hide Advance, Install, RetestDue;
    var step := plan[s.currentStepIndex];
    if step.oracle.Some? {
      AdvanceStaysOpen(step, step.oracle.value, CurrentLive(s), k);
      InstallIsDue(s, Advance(step, step.oracle.value, CurrentLive(s), k).0, id);
    }
  }

  lemma SavedIsDue(d: Desk, s: Session)
    requires RetestDue(s)
    ensures RetestDue(Save(d, s).session)
  {
  }

  lemma RefreshIsDue(plan: seq<ScenarioStep>, d: Desk, k: Ticks, id: SessionId)
    requires WellFormed(plan, d.session) && RetestDue(d.session)
    ensures RetestDue(Refresh(plan, d, k, id).session)
  {
    hide Advance, Install, Timeout, Elapsed, RetestDue, Save;
    var s := d.session;
    var step, r := plan[s.currentStepIndex], Current(s);
    if s.status.Running? {
      LookIsDue(plan, s, k, id);
      TimeoutStaysOpen(step, r, k.finish);
      InstallIsDue(s, Timeout(step, r, k.finish), id);
      SavedIsDue(d, Install(s, Timeout(step, r, k.finish), id));
      if step.oracle.Some? {
        SavedIsDue(d, Install(s, Advance(step, step.oracle.value, CurrentLive(s), k).0, id));
      }
    }
  }

  lemma TimeoutStaysOpen(step: ScenarioStep, r: StepResult, t: int)
    ensures OpenStatus(Timeout(step, r, t).status)
  {
    hide TimeoutCodes, FinishTiming;
  }

  lemma ServeIsDue(plan: seq<ScenarioStep>, d: Desk, e: Event)
    requires WellFormed(plan, d.session) && RetestDue(d.session)
    ensures RetestDue(Serve(plan, d, e).session)
  {
    hide Perform, AcceptObservation, IngestAll, Install, Advance, SubmitVerdict, RetestDue, Save;
    var s := d.session;
    match e.request
    case Act(action, _, _) =>
      var out := Perform(plan, s, action, e.act.finish, e.retestId);
      if out.Ok? {
        PerformIsDue(plan, s, action, e.act.finish, e.retestId);
        forall x: Desk ensures RetestDue(Save(x, out.value).session) { SavedIsDue(x, out.value); }
      }
    case Answer(verdict, _) =>
      var out := SubmitVerdict(plan[s.currentStepIndex], s.hasObserver, CurrentLive(s), verdict, e.act.finish);
      if out.Ok? {
        VerdictStatus(plan[s.currentStepIndex], s.hasObserver, CurrentLive(s), verdict, e.act.finish);
        InstallIsDue(s, out.value, e.retestId);
        SavedIsDue(d, Install(s, out.value, e.retestId));
      }
    case Report(o) =>
      AcceptIsDue(plan, s, o, e.act, false, e.retestId);
      SavedIsDue(d.(observations := d.observations + {o.id}), AcceptObservation(plan, s, o, e.act, false, e.retestId));
    case ReportBatch(items) => BatchIsDue(plan, d, items, e.act, e.retestId);
    case _ =>
  }

  lemma BatchIsDue(plan: seq<ScenarioStep>, d: Desk, items: seq<Timed>, k: Ticks, id: SessionId)
    requires WellFormed(plan, d.session) && RetestDue(d.session)
    ensures RetestDue(ObserveBatch(plan, d, items, k, id).0.session)
  {
    hide IngestAll, Install, Advance, RetestDue, Save;
    var a := IngestAll(plan, Intake(d.session, d.observations, 0, 0), items, id);
    IngestIsDue(plan, Intake(d.session, d.observations, 0, 0), items, id);
    if !a.session.Terminal() {
      LookIsDue(plan, a.session, k, id);
    }
    SavedIsDue(d.(observations := a.observations), CloseBatch(plan, a.session, k, id));
  }

  /** Over every run: a closed session in which a step failed or was blocked has a retest. */
  lemma {:induction false} ClosedSessionHasRetest(plan: seq<ScenarioStep>, o: Opening, events: seq<Event>)
    requires plan != []
    ensures RetestDue(Reached(plan, o, events).session)
  {
    if events != [] {
      hide Serve, Refresh, RetestDue;
      var d, e := Reached(plan, o, events[..|events| - 1]), events[|events| - 1];
      ClosedSessionHasRetest(plan, o, events[..|events| - 1]);
      RefreshIsDue(plan, d, e.refresh, e.retestId);
      ServeIsDue(plan, Refresh(plan, d, e.refresh, e.retestId), e);
      ServeIsDue(plan, d, e);
    }
  }
}
