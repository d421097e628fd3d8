/**
 The guided session as the service holds it: mutable records updated field by field. Every method is proved
 against the transition function of the same name; ghost fields carry the logs those functions keep.
 */
module GuidedObjects {
  import opened Wrappers
  import opened GuidedModels
  import opened GuidedSteps
  import opened GuidedTransitions
  import Percentiles

  /** One step result; its clock, counters and settle window are rewritten in place by the methods below. */
  class StepRecord {
    const stepId: string
    const kind: StepKind
    var status: StepStatus
    var attempt: nat
    var timing: Timing
    var tally: Tally
    var settle: Settle
    var manualVerdict: Option<Verdict>
    var evidenceClass: EvidenceClass
    var failureCodes: set<FailureCode>
    var confirmedConditions: set<string>

    function View(): StepResult
      reads this
    {
      StepResult(stepId, kind, status, attempt, timing, tally, settle, manualVerdict, evidenceClass, failureCodes,
                 confirmedConditions)
    }

    constructor Load(r: StepResult)
      ensures View() == r
    {
      stepId, kind, status, attempt := r.stepId, r.kind, r.status, r.attempt;
      timing, tally, settle := r.timing, r.tally, r.settle;
      manualVerdict, evidenceClass, failureCodes := r.manualVerdict, r.evidenceClass, r.failureCodes;
      confirmedConditions := r.confirmedConditions;
    }

    method ElapsedMs(t: int) returns (ms: int)
      ensures ms == Elapsed(timing, t)
    {
      if timing.startedAt.None? { return 0; }
      var currentPause := if timing.pausedAt.Some? then t - timing.pausedAt.value else 0;
      ms := Max(0, t - timing.startedAt.value - timing.accumulatedPauseMs - currentPause);
    }

    /** Ends the running stretch in the log. */
    method EndStretch(t: int)
      modifies this`timing
      ensures timing == old(timing).(
                openedAt := None,
                intervals := if old(timing).openedAt.Some? then old(timing).intervals + [Interval(old(timing).openedAt.value, t)]
                             else old(timing).intervals)
    {
      if timing.openedAt.Some? {
        timing := timing.(intervals := timing.intervals + [Interval(timing.openedAt.value, t)]);
      }
      timing := timing.(openedAt := None);
    }

    method StartActive(conditions: set<string>, t: int)
      modifies this
      ensures View() == GuidedSteps.Activate(old(View()), conditions, t).result
    {
      status := Active;
      timing := timing.(startedAt := Some(t), openedAt := Some(t));
      confirmedConditions := conditions;
    }

    method Suspend(t: int)
      modifies this
      ensures View() == GuidedSteps.Pause(old(View()), t).result
    {
      status := StepStatus.Paused;
      timing := timing.(pausedAt := Some(t));
      EndStretch(t);
    }

    method Continue(t: int)
      requires timing.pausedAt.Some?
      modifies this
      ensures View() == GuidedSteps.Resume(old(View()), t).result
    {
      var paused := t - timing.pausedAt.value;
      timing := timing.(accumulatedPauseMs := timing.accumulatedPauseMs + paused);
      if settle.startedAt.Some? {
        settle := settle.(startedAt := Some(settle.startedAt.value + paused));
      }
      if settle.deadline.Some? {
        settle := settle.(deadline := Some(settle.deadline.value + paused));
      }
      timing := timing.(pausedAt := None, openedAt := Some(t));
      status := Active;
    }

    /** The clock of a step that ends: an open pause is accounted for, then the duration is taken. */
    method StopClock(t: int)
      modifies this`timing
      ensures timing == FinishTiming(old(timing), t)
    {
      hide Elapsed;
      if timing.pausedAt.Some? {
        timing := timing.(accumulatedPauseMs := timing.accumulatedPauseMs + (t - timing.pausedAt.value));
        timing := timing.(pausedAt := None);
      }
      ElapsedWhenEnded(timing, t);
      timing := timing.(endedAt := Some(t));
      var duration := ElapsedMs(t);
      timing := timing.(durationMs := duration);
      EndStretch(t);
    }

    /** The part of finishing a step that writes its record. */
    method Close(step: ScenarioStep, outcome: StepStatus, codes: set<FailureCode>, t: int)
      modifies this
      ensures View() == Finish(step, old(View()), outcome, codes, t).result
    {
      hide FinishTiming;
      StopClock(t);
      status := outcome;
      failureCodes := codes;
      if step.oracle.Some? && tally.observationCount > 0 {
        if manualVerdict.Some? {
          evidenceClass := HybridEvidence;
        } else if evidenceClass.Unknown? {
          evidenceClass := TelemetryOnly;
        }
      }
    }

    /** Counting an observation, before anything is decided about it. */
    method Count(o: Observation, t: int)
      modifies this
      ensures View() == Absorb(old(View()), o, t)
    {
      hide Percentiles.P95, LastOf, Elapsed, EventCount;
      var elapsed := ElapsedMs(t);
      tally := tally.(observationIds := tally.observationIds + [o.id], samples := tally.samples + [Sample(o, elapsed)]);
      tally := tally.(observationCount := tally.observationCount + 1);
      if tally.initialDrops.None? {
        tally := tally.(initialDrops := Some(o.drops));
      }
      tally := tally.(dropDelta := Max(tally.dropDelta, o.drops - tally.initialDrops.value));
      if o.event.Some? && o.event.value != "" {
        tally := tally.(eventCounts :=
          tally.eventCounts[o.event.value := EventCount(tally.eventCounts, o.event.value) + 1]);
      }
      if o.latency.Some? {
        tally := tally.(latencySamples := LastOf(tally.latencySamples + [o.latency.value], LATENCY_WINDOW));
        tally := tally.(p95Latency := Percentiles.P95(tally.latencySamples));
      }
    }

    /** Predicate bookkeeping; an observation that disturbs an open settle window closes it. */
    method Match(oracle: TelemetryOracle, o: Observation)
      modifies this
      ensures View() == Judge(oracle, old(View()), o)
    {
      var settleWasActive := settle.startedAt.Some? && !settle.satisfied;
      var matched := Matches(oracle, o);
      if matched {
        tally := tally.(matchingObservations := tally.matchingObservations + 1);
        tally := tally.(consecutiveMatches := tally.consecutiveMatches + 1);
        tally := tally.(peakConsecutiveMatches := Max(tally.peakConsecutiveMatches, tally.consecutiveMatches));
      } else {
        tally := tally.(mismatches := tally.mismatches + 1, consecutiveMatches := 0);
      }
      tally := tally.(judged := tally.judged + 1);
      if settleWasActive && (!matched || (o.event.Some? && o.event.value in ConstrainedEvents(oracle))) {
        settle := settle.(startedAt := None, deadline := None);
      }
    }

    /** Aborting blocks an open step in place. */
    method BlockOpen()
      modifies this
      ensures View() == AbortResult(old(View()))
    {
      if status.Pending? || status.Active? || status.Paused? || status.AwaitingFeedback? {
        status := StepStatus.Blocked;
        failureCodes := {UserBlocked};
        if evidenceClass.Unknown? { evidenceClass := SelfReported; }
      }
    }
  }

  function Views(records: seq<StepRecord>): seq<StepResult>
    reads records
  {
    seq(|records|, i requires 0 <= i < |records| reads records => records[i].View())
  }

  class SessionRecord {
    var status: SessionStatus
    var currentStepIndex: nat
    var results: seq<StepRecord>
    var attempt: nat
    var hasObserver: bool
    var parentSessionId: Option<SessionId>
    var approvedAt: Option<int>
    var lastObservationAt: Option<int>
    var revision: nat
    var retestSessionId: Option<SessionId>

    ghost predicate Valid()
      reads this
    {
      && currentStepIndex < |results|
      && forall i, j :: 0 <= i < j < |results| ==> results[i] != results[j]
    }

    function View(): Session
      reads this, results
    {
      Session(status, currentStepIndex, Views(results), attempt, hasObserver, parentSessionId, approvedAt,
              lastObservationAt, revision, retestSessionId)
    }

    /** Everything but the step results. */
    function Heading(): Session
      reads this
    {
      Session(status, currentStepIndex, [], attempt, hasObserver, parentSessionId, approvedAt, lastObservationAt, revision,
              retestSessionId)
    }

    /** Loading a stored session allocates its records afresh. */
    constructor Load(s: Session)
      requires s.currentStepIndex < |s.results|
      ensures Valid() && View() == s && fresh(results)
    {
      status, currentStepIndex, results := s.status, s.currentStepIndex, [];
      attempt, hasObserver, parentSessionId := s.attempt, s.hasObserver, s.parentSessionId;
      approvedAt, lastObservationAt := s.approvedAt, s.lastObservationAt;
      revision, retestSessionId := s.revision, s.retestSessionId;
      new;
      for i := 0 to |s.results|
        invariant |results| == i && fresh(results)
        invariant forall j, k :: 0 <= j < k < i ==> results[j] != results[k]
        invariant forall j :: 0 <= j < i ==> results[j].View() == s.results[j]
        invariant Heading() == s.(results := [])
      {
        var r := new StepRecord.Load(s.results[i]);
        results := results + [r];
      }
      assert Views(results) == s.results;
    }

    function Current(): StepRecord
      requires Valid()
      reads this
    {
      results[currentStepIndex]
    }

    /** Writing only the current record changes only its entry of the view. */
    twostate lemma OnlyCurrentChanged()
      requires old(Valid()) && results == old(results) && currentStepIndex == old(currentStepIndex)
      requires forall i :: 0 <= i < |results| && i != currentStepIndex ==> unchanged(results[i])
      ensures Views(results) == old(Views(results))[currentStepIndex := Current().View()]
    {
      forall i | 0 <= i < |results|
        ensures Views(results)[i] == old(Views(results))[currentStepIndex := Current().View()][i]
      {
        if i != currentStepIndex {
          assert results[i].View() == old(results[i].View());
        }
      }
    }

    method RetryList() returns (ids: seq<string>)
      ensures ids == RetryIds(Views(results))
    {
      ids := [];
      for i := 0 to |results|
        invariant ids == RetryIds(Views(results)[..i])
      {
        assert Views(results)[..i + 1][..i] == Views(results)[..i];
        if results[i].status.Failed? || results[i].status.Blocked? {
          ids := ids + [results[i].stepId];
        }
      }
      assert Views(results)[..|results|] == Views(results);
    }

    method PrepareRetest(retestId: SessionId)
      modifies this
      ensures results == old(results) && currentStepIndex == old(currentStepIndex)
      ensures View() == EnsureRetest(old(View()), retestId)
    {
      var ids := RetryList();
      if ids != [] && retestSessionId.None? {
        retestSessionId := Some(retestId);
      }
    }

    method DecideStatus() returns (decided: SessionStatus)
      ensures decided == FinalStatus(Views(results))
    {
      ghost var vs := Views(results);
      assert forall i :: 0 <= i < |results| ==> vs[i].status == results[i].status;
      if exists i :: 0 <= i < |results| && results[i].status.Failed? {
        decided := SessionStatus.Failed;
      } else if exists i :: 0 <= i < |results| && results[i].status.Blocked? {
        decided := SessionStatus.Blocked;
      } else if forall i :: 0 <= i < |results| ==> results[i].status.Passed? {
        decided := Completed;
      } else {
        decided := SessionStatus.Blocked;
      }
    }

    method Conclude(retestId: SessionId)
      modifies this
      ensures results == old(results) && currentStepIndex == old(currentStepIndex)
      ensures View() == Finalize(old(View()), retestId)
    {
      hide FinalStatus, RetryIds;
      status := DecideStatus();
      assert Views(results) == old(Views(results));
      PrepareRetest(retestId);
    }

    /** Finishing the current step; the last one concludes the session. */
    method FinishStep(step: ScenarioStep, outcome: StepStatus, codes: set<FailureCode>, t: int, retestId: SessionId)
      requires Valid() && (outcome.Passed? || outcome.Failed? || outcome.Blocked?)
      modifies this, Current()
      ensures Valid() && results == old(results)
      ensures View() == Install(old(View()), Finish(step, old(Current().View()), outcome, codes, t), retestId)
    {
      var r := Current();
      r.Close(step, outcome, codes, t);
      OnlyCurrentChanged();
      status := SessionStatus.StepComplete;
      if currentStepIndex + 1 >= |results| {
        Conclude(retestId);
      }
    }

    // ---- controls: each reports the error the transition function gives, or ends in the state it gives ----

    method Approve(plan: seq<ScenarioStep>, t: int, retestId: SessionId) returns (error: Option<GuidedError>)
      requires Valid() && |plan| == |results|
      modifies this
      ensures Valid() && results == old(results)
      ensures Performed(Perform(plan, old(View()), Action.Approve, t, retestId), old(View()), View(), error)
    {
      if !status.Prepared? { return Some(InvalidTransition); }
      approvedAt := Some(t);
      status := Ready;
      error := None;
    }

    method Activate(plan: seq<ScenarioStep>, confirmed: set<string>, t: int, retestId: SessionId)
      returns (error: Option<GuidedError>)
      requires Valid() && |plan| == |results|
      modifies this, Current()
      ensures Valid() && results == old(results)
      ensures Performed(Perform(plan, old(View()), Action.Activate(confirmed), t, retestId), old(View()), View(), error)
    {
      if !status.Ready? { return Some(InvalidTransition); }
      var r := Current();
      if !r.status.Pending? { return Some(InvalidTransition); }
      if !(plan[currentStepIndex].requiredConditions <= confirmed) { return Some(ConditionsNotConfirmed); }
      r.StartActive(confirmed, t);
      OnlyCurrentChanged();
      status := Running;
      error := None;
    }

    method Next(plan: seq<ScenarioStep>, t: int, retestId: SessionId) returns (error: Option<GuidedError>)
      requires Valid() && |plan| == |results|
      modifies this
      ensures Valid() && results == old(results)
      ensures Performed(Perform(plan, old(View()), Action.Next, t, retestId), old(View()), View(), error)
    {
      var r := Current();
      if !(r.status.Passed? || r.status.Failed? || r.status.Blocked?) { return Some(InvalidTransition); }
      error := None;
      if currentStepIndex + 1 >= |results| {
        Conclude(retestId);
        return;
      }
      currentStepIndex := currentStepIndex + 1;
      status := Ready;
    }

    /** The failed attempt's record is replaced by a new one, not rewritten. */
    method Retry(plan: seq<ScenarioStep>, t: int, retestId: SessionId) returns (error: Option<GuidedError>)
      requires Valid() && |plan| == |results|
      modifies this
      ensures Valid() && (forall r :: r in results ==> r in old(results) || fresh(r))
      ensures Performed(Perform(plan, old(View()), Action.Retry, t, retestId), old(View()), View(), error)
    {
      hide Install, Finalize;
      var r := Current();
      if !(r.status.Failed? || r.status.Blocked?) { return Some(InvalidTransition); }
      var again := new StepRecord.Load(FreshResult(plan[currentStepIndex], r.attempt + 1));
      ghost var before := Views(results);
      results := results[currentStepIndex := again];
      assert Views(results) == before[currentStepIndex := again.View()];
      InstallOpen(old(View()), Ready, again.View(), retestId);
      status := Ready;
      error := None;
    }

    method Pause(plan: seq<ScenarioStep>, t: int, retestId: SessionId) returns (error: Option<GuidedError>)
      requires Valid() && |plan| == |results|
      modifies this, Current()
      ensures Valid() && results == old(results)
      ensures Performed(Perform(plan, old(View()), Action.Pause, t, retestId), old(View()), View(), error)
    {
      if !status.Running? { return Some(InvalidTransition); }
      var r := Current();
      if !r.status.Active? { return Some(InvalidTransition); }
      r.Suspend(t);
      OnlyCurrentChanged();
      status := SessionStatus.Paused;
      error := None;
    }

    method Resume(plan: seq<ScenarioStep>, t: int, retestId: SessionId) returns (error: Option<GuidedError>)
      requires Valid() && |plan| == |results|
      modifies this, Current()
      ensures Valid() && results == old(results)
      ensures Performed(Perform(plan, old(View()), Action.Resume, t, retestId), old(View()), View(), error)
    {
      if !status.Paused? { return Some(InvalidTransition); }
      var r := Current();
      if !r.status.Paused? || r.timing.pausedAt.None? { return Some(InvalidTransition); }
      r.Continue(t);
      OnlyCurrentChanged();
      status := Running;
      error := None;
    }

    method Block(plan: seq<ScenarioStep>, t: int, retestId: SessionId) returns (error: Option<GuidedError>)
      requires Valid() && |plan| == |results|
      modifies this, Current()
      ensures Valid() && results == old(results)
      ensures Performed(Perform(plan, old(View()), Action.Block, t, retestId), old(View()), View(), error)
    {
      hide Finish, Install;
      var r := Current();
      if !(r.status.Pending? || r.status.Active? || r.status.Paused? || r.status.AwaitingFeedback?) {
        return Some(InvalidTransition);
      }
      if r.evidenceClass.Unknown? { r.evidenceClass := SelfReported; }
      OnlyCurrentChanged();
      InstallOverwrites(old(View()), Current().View(),
                        Finish(plan[currentStepIndex], Current().View(), StepStatus.Blocked, {UserBlocked}, t), retestId);
      FinishStep(plan[currentStepIndex], StepStatus.Blocked, {UserBlocked}, t, retestId);
      error := None;
    }

    method Abort(plan: seq<ScenarioStep>, t: int, retestId: SessionId) returns (error: Option<GuidedError>)
      requires Valid() && |plan| == |results|
      modifies this, results
      ensures Valid() && results == old(results)
      ensures Performed(Perform(plan, old(View()), Action.Abort, t, retestId), old(View()), View(), error)
    {
      if status.Completed? || status.Failed? || status.Blocked? || status.Aborted? { return Some(InvalidTransition); }
      for i := 0 to |results|
        invariant results == old(results) && unchanged(this)
        invariant forall j :: 0 <= j < i ==> results[j].View() == AbortResult(old(results[j].View()))
        invariant forall j :: i <= j < |results| ==> unchanged(results[j])
      {
        results[i].BlockOpen();
      }
      assert Views(results) == AbortAll(old(Views(results)));
      status := Aborted;
      PrepareRetest(retestId);
      error := None;
    }

    /** Dispatches a control request. */
    method Carry(plan: seq<ScenarioStep>, action: Action, t: int, retestId: SessionId) returns (error: Option<GuidedError>)
      requires Valid() && |plan| == |results|
      modifies this, results
      ensures Performed(Perform(plan, old(View()), action, t, retestId), old(View()), View(), error)
    {
      hide Perform, Performed;
      match action {
        case Approve => error := Approve(plan, t, retestId);
        case Activate(confirmed) => error := Activate(plan, confirmed, t, retestId);
        case Next => error := Next(plan, t, retestId);
        case Retry => error := Retry(plan, t, retestId);
        case Pause => error := Pause(plan, t, retestId);
        case Resume => error := Resume(plan, t, retestId);
        case Block => error := Block(plan, t, retestId);
        case Abort => error := Abort(plan, t, retestId);
      }
    }

    // ---- telemetry ----

    method CompleteTelemetry(step: ScenarioStep, t: int, retestId: SessionId)
      requires Valid()
      modifies this, Current()
      ensures Valid() && results == old(results)
      ensures View() == Install(old(View()), CompleteTelemetryPhase(step, old(Current().View()), t), retestId)
    {
      var r := Current();
      if step.kind.Telemetry? && !step.feedbackRequired {
        r.evidenceClass := TelemetryOnly;
        OnlyCurrentChanged();
        InstallOverwrites(old(View()), r.View(), Finish(step, r.View(), StepStatus.Passed, {}, t), retestId);
        FinishStep(step, StepStatus.Passed, {}, t, retestId);
      } else if r.manualVerdict.Some? && r.manualVerdict.value.outcome.Passed? {
        r.evidenceClass := HybridEvidence;
        OnlyCurrentChanged();
        InstallOverwrites(old(View()), r.View(), Finish(step, r.View(), StepStatus.Passed, {}, t), retestId);
        FinishStep(step, StepStatus.Passed, {}, t, retestId);
      } else {
        r.status := StepStatus.AwaitingFeedback;
        OnlyCurrentChanged();
        status := SessionStatus.AwaitingFeedback;
      }
    }

    method AdvanceSettleWindow(step: ScenarioStep, oracle: TelemetryOracle, k: Ticks, retestId: SessionId)
      returns (changed: bool)
      requires Valid() && Current().status.Active?
      modifies this, Current()
      ensures Valid() && results == old(results)
      ensures View() == Install(old(View()), Advance(step, oracle, CurrentLive(old(View())), k).0, retestId)
      ensures changed == Advance(step, oracle, CurrentLive(old(View())), k).1
    {
      hide OracleSatisfied, Elapsed, CompleteTelemetryPhase, Finalize;
      var r := Current();
      assert CurrentLive(View()) == Live(status, r.View());
      if r.settle.satisfied {
        OnlyCurrentChanged();
        return false;
      }
      var elapsed := r.ElapsedMs(k.check);
      if !OracleSatisfied(oracle, r.tally, elapsed) {
        changed := r.settle.startedAt.Some? || r.settle.deadline.Some?;
        r.settle := r.settle.(startedAt := None, deadline := None);
        OnlyCurrentChanged();
        return;
      }
      changed := false;
      if r.settle.startedAt.None? {
        r.settle := r.settle.(startedAt := Some(k.check), deadline := Some(k.check + oracle.settleWindowMs));
        changed := true;
      }
      if r.settle.deadline.Some? && k.check < r.settle.deadline.value {
        OnlyCurrentChanged();
        return;
      }
      r.settle := r.settle.(satisfied := true, satisfiedAt := elapsed);
      OnlyCurrentChanged();
      InstallOverwrites(old(View()), r.View(), CompleteTelemetryPhase(step, r.View(), k.finish), retestId);
      CompleteTelemetry(step, k.finish, retestId);
      changed := true;
    }

    method ConsumeTelemetry(step: ScenarioStep, oracle: TelemetryOracle, o: Observation, k: Ticks, defer: bool,
                            retestId: SessionId)
      requires Valid() && (Current().status.Active? || Current().status.AwaitingFeedback?)
      modifies this, Current()
      ensures Valid() && results == old(results)
      ensures View() == Install(old(View()), Consume(step, oracle, CurrentLive(old(View())), o, k, defer), retestId)
    {
      hide Advance, Install;
      var r := Current();
      assert CurrentLive(View()) == Live(status, r.View());
      r.Count(o, k.accept);
      OnlyCurrentChanged();
      var codes := {};
      if o.event.Some? && o.event.value in oracle.forbiddenEvents {
        codes := {ForbiddenEvent};
      } else if EventLimitFailures(oracle, r.tally) != {} {
        codes := EventLimitFailures(oracle, r.tally);
      } else if r.tally.dropDelta > oracle.maxDropDelta {
        codes := {EvidenceDropped};
      } else if LatencyExceededNow(oracle, r.tally) {
        codes := {LatencyExceeded};
      }
      if codes != {} {
        InstallOverwrites(old(View()), r.View(), Finish(step, r.View(), StepStatus.Failed, codes, k.finish), retestId);
        FinishStep(step, StepStatus.Failed, codes, k.finish, retestId);
        return;
      }
      if r.status.AwaitingFeedback? {
        InstallOpen(old(View()), status, r.View(), retestId);
        return;
      }
      r.Match(oracle, o);
      OnlyCurrentChanged();
      if r.tally.mismatches > oracle.maxMismatches {
        InstallOverwrites(old(View()), r.View(), Finish(step, r.View(), StepStatus.Failed, {PredicateMismatch}, k.finish),
                          retestId);
        FinishStep(step, StepStatus.Failed, {PredicateMismatch}, k.finish, retestId);
        return;
      }
      InstallOpen(old(View()), status, r.View(), retestId);
      if !defer {
        InstallOverwrites(old(View()), r.View(), Advance(step, oracle, Live(status, r.View()), k).0, retestId);
        assert CurrentLive(View()) == Live(status, r.View());
        var _ := AdvanceSettleWindow(step, oracle, k, retestId);
      }
    }

    method Accept(plan: seq<ScenarioStep>, o: Observation, k: Ticks, defer: bool, retestId: SessionId)
      requires Valid() && |plan| == |results|
      modifies this, Current()
      ensures Valid() && results == old(results)
      ensures View() == AcceptObservation(plan, old(View()), o, k, defer, retestId)
    {
      hide Consume, Install;
      lastObservationAt := Some(k.accept);
      if !(status.Running? || status.AwaitingFeedback?) { return; }
      var r, step := Current(), plan[currentStepIndex];
      if !(r.status.Active? || r.status.AwaitingFeedback?) || step.oracle.None? { return; }
      assert CurrentLive(View()) == CurrentLive(old(View()));
      ConsumeTelemetry(step, step.oracle.value, o, k, defer, retestId);
    }

    /** After a batch the settle window is looked at once, with everything counted. */
    method EndBatch(plan: seq<ScenarioStep>, k: Ticks, retestId: SessionId)
      requires Valid() && |plan| == |results|
      modifies this, Current()
      ensures Valid() && results == old(results)
      ensures View() == CloseBatch(plan, old(View()), k, retestId)
    {
      hide Advance, Install;
      if status.Completed? || status.Failed? || status.Blocked? || status.Aborted? { return; }
      var r, step := Current(), plan[currentStepIndex];
      if r.status.Active? && step.oracle.Some? {
        var _ := AdvanceSettleWindow(step, step.oracle.value, k, retestId);
      }
    }

    method TimeOut(step: ScenarioStep, t: int, retestId: SessionId)
      requires Valid()
      modifies this, Current()
      ensures Valid() && results == old(results)
      ensures View() == Install(old(View()), Timeout(step, old(Current().View()), t), retestId)
    {
      var r := Current();
      if r.tally.observationCount == 0 {
        FinishStep(step, StepStatus.Blocked, {NoTelemetry}, t, retestId);
      } else {
        FinishStep(step, StepStatus.Failed, TimeoutCodes(step, r.View()), t, retestId);
      }
    }

    method Decide(step: ScenarioStep, verdict: Verdict, t: int, retestId: SessionId)
      requires Valid()
      modifies this, Current()
      ensures Valid() && results == old(results)
      ensures View() == Install(old(View()), DecideVerdict(step, old(Current().View()), verdict, t), retestId)
    {
      hide Finish, Install;
      var r := Current();
      if verdict.outcome.Blocked? {
        FinishStep(step, StepStatus.Blocked, {UserBlocked}, t, retestId);
      } else if verdict.outcome.Failed? {
        FinishStep(step, StepStatus.Failed, {if verdict.reporter.Observer? then ObserverFailed else UserFailed}, t, retestId);
      } else if step.kind.Manual? {
        FinishStep(step, StepStatus.Passed, {}, t, retestId);
      } else if r.settle.satisfied {
        r.evidenceClass := HybridEvidence;
        OnlyCurrentChanged();
        InstallOverwrites(old(View()), r.View(), Finish(step, r.View(), StepStatus.Passed, {}, t), retestId);
        FinishStep(step, StepStatus.Passed, {}, t, retestId);
      } else {
        r.status := Active;
        OnlyCurrentChanged();
        InstallOpen(old(View()), Running, r.View(), retestId);
        status := Running;
      }
    }

    method Feedback(step: ScenarioStep, verdict: Verdict, t: int, retestId: SessionId)
      returns (error: Option<GuidedError>)
      requires Valid()
      modifies this, Current()
      ensures Valid() && results == old(results)
      ensures var out := SubmitVerdict(step, old(hasObserver), CurrentLive(old(View())), verdict, t);
              if out.Err? then error == Some(out.error) && View() == old(View())
              else error == None && View() == Install(old(View()), out.value, retestId)
    {
      hide DecideVerdict, Install, Admitted;
      var r := Current();
      assert CurrentLive(View()) == Live(status, r.View());
      if !(r.status.Active? || r.status.AwaitingFeedback?) { return Some(InvalidTransition); }
      if step.kind.Telemetry? && !step.feedbackRequired { return Some(InvalidTransition); }
      if r.manualVerdict.Some? { return Some(InvalidTransition); }
      if !Admitted(step, hasObserver, verdict) { return Some(InvalidTransition); }
      r.manualVerdict := Some(verdict);
      r.evidenceClass := ReportedClass(verdict);
      OnlyCurrentChanged();
      InstallOverwrites(old(View()), r.View(), DecideVerdict(step, r.View(), verdict, t), retestId);
      Decide(step, verdict, t, retestId);
      error := None;
    }
  }

  /** An accepted control gives the state of the transition function; a refused one leaves the session alone. */
  ghost predicate Performed(out: Result<Session, GuidedError>, before: Session, after: Session, error: Option<GuidedError>) {
    if out.Err? then error == Some(out.error) && after == before else error == None && after == out.value
  }

  lemma ElapsedWhenEnded(c: Timing, t: int)
    ensures Elapsed(c.(endedAt := Some(t)), t) == Elapsed(c, t)
  {
  }

  /** What an operation writes into the current record before finishing it is overwritten by the outcome. */
  lemma InstallOverwrites(s: Session, r: StepResult, v: Live, id: SessionId)
    requires s.currentStepIndex < |s.results|
    ensures Install(s.(results := s.results[s.currentStepIndex := r]), v, id) == Install(s, v, id)
  {
    assert s.results[s.currentStepIndex := r][s.currentStepIndex := v.result] == s.results[s.currentStepIndex := v.result];
  }

  lemma InstallOpen(s: Session, status: SessionStatus, r: StepResult, id: SessionId)
    requires s.currentStepIndex < |s.results| && !r.Terminal()
    ensures Install(s, Live(status, r), id) == s.(status := status, results := s.results[s.currentStepIndex := r])
  {
  }
}
