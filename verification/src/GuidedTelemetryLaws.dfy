/**
 Consuming telemetry, the settle window and human verdicts keep the step invariant. The core is oracle
 stability: once satisfied, the oracle can only stop holding by failing the step.
 */
module GuidedTelemetryLaws {
  import opened Wrappers
  import opened GuidedModels
  import opened GuidedSteps
  import opened GuidedStepLaws

  /** Counting an observation that violates nothing cannot undo a satisfied oracle. */
  lemma OracleStable(oracle: TelemetryOracle, r: StepResult, o: Observation, t: int, elapsed: int)
    requires OracleSatisfied(oracle, r.tally, elapsed)
    requires Violation(oracle, Absorb(r, o, t).tally, o) == {}
    ensures OracleSatisfied(oracle, Absorb(r, o, t).tally, elapsed)
  {
    var y, z := r.tally, Absorb(r, o, t).tally;
    assert forall e :: EventCount(z.eventCounts, e) >= EventCount(y.eventCounts, e);
    assert EventLimitFailures(oracle, z) == {};
    assert ExactEventCountMismatch !in EventLimitFailures(oracle, z);
    assert MaxEventCountExceeded !in EventLimitFailures(oracle, z);
    forall e | e in oracle.exactEventCounts
      ensures EventCount(z.eventCounts, e) == oracle.exactEventCounts[e]
    {
      assert EventCount(y.eventCounts, e) == oracle.exactEventCounts[e];
    }
    assert !RequiredMissing(oracle, z);
    if o.latency.Some? {
      assert z.latencySamples != [];
    }
  }

  function Opened(oracle: TelemetryOracle, s: Settle, t: int): Settle {
    if s.startedAt.None? then s.(startedAt := Some(t), deadline := Some(t + oracle.settleWindowMs)) else s
  }

  lemma OpenKeeps(step: ScenarioStep, hasObserver: bool, oracle: TelemetryOracle, r: StepResult, now: int, t: int)
    requires step.oracle == Some(oracle) && StepInv(step, hasObserver, r, now)
    requires r.status.Active? && now <= t
    ensures StepInv(step, hasObserver, r.(settle := Opened(oracle, r.settle, t)), t)
  {
    ElapsedRunning(r.timing, now, t);
    OpenWindowIsQuiet(step, hasObserver, oracle, r, now, t);
    LaterKeeps(step, hasObserver, r, now, t);
  }

  /** At its deadline the window has been quiet for its full length of unpaused time. */
  lemma DeadlineSatisfies(step: ScenarioStep, hasObserver: bool, oracle: TelemetryOracle, r: StepResult, t: int)
    requires step.oracle == Some(oracle) && StepInv(step, hasObserver, r, t)
    requires r.status.Active? && r.settle.deadline.Some? && r.settle.deadline.value <= t
    requires OracleSatisfied(oracle, r.tally, Elapsed(r.timing, t))
    ensures SettleInv(step, StepStatus.AwaitingFeedback, r.timing, r.tally,
                      r.settle.(satisfied := true, satisfiedAt := Elapsed(r.timing, t)), t)
  {
    ElapsedRunning(r.timing, t, t);
  }

  lemma CloseKeeps(step: ScenarioStep, hasObserver: bool, r: StepResult, now: int, t: int)
    requires StepInv(step, hasObserver, r, now) && r.status.Active? && now <= t
    ensures StepInv(step, hasObserver, r.(settle := r.settle.(startedAt := None, deadline := None)), t)
  {
    LaterKeeps(step, hasObserver, r, now, t);
  }

  /** The oracle holds: the window opens or runs on, and at its deadline the telemetry phase completes. */
  lemma HoldingKeeps(step: ScenarioStep, hasObserver: bool, oracle: TelemetryOracle, r: StepResult, now: int, k: Ticks)
    requires step.Valid() && step.oracle == Some(oracle)
    requires StepInv(step, hasObserver, r, now) && r.status.Active? && k.From(now)
    requires OracleSatisfied(oracle, r.tally, Elapsed(r.timing, k.check))
    ensures var w := r.(settle := Opened(oracle, r.settle, k.check));
            var s := w.settle.(satisfied := true, satisfiedAt := Elapsed(r.timing, k.check));
            if k.check < w.settle.deadline.value then StepInv(step, hasObserver, w, k.finish)
            else
              && StepInv(step, hasObserver, CompleteTelemetryPhase(step, r.(settle := s), k.finish).result, k.finish)
              && Coupled(CompleteTelemetryPhase(step, r.(settle := s), k.finish).status,
                         CompleteTelemetryPhase(step, r.(settle := s), k.finish).result)
  {
    OpenKeeps(step, hasObserver, oracle, r, now, k.check);
    var w := r.(settle := Opened(oracle, r.settle, k.check));
    if k.check < w.settle.deadline.value {
      LaterKeeps(step, hasObserver, w, k.check, k.finish);
    } else {
      DeadlineSatisfies(step, hasObserver, oracle, w, k.check);
      var s := w.settle.(satisfied := true, satisfiedAt := Elapsed(r.timing, k.check));
      CompleteKeeps(step, hasObserver, oracle, r.(settle := s), k.check, k.finish);
    }
  }

  lemma NotYetSatisfied(step: ScenarioStep, hasObserver: bool, oracle: TelemetryOracle, r: StepResult, now: int)
    requires step.oracle == Some(oracle) && StepInv(step, hasObserver, r, now) && r.status.Active?
    ensures !r.settle.satisfied && r.settle.startedAt.Some? == r.settle.deadline.Some?
  {
    hide TimingInv, TallyInv, VerdictInv, QuietSince, OracleSatisfied;
  }

  lemma AdvanceKeeps(step: ScenarioStep, hasObserver: bool, oracle: TelemetryOracle, v: Live, now: int, k: Ticks)
    requires step.Valid() && step.oracle == Some(oracle)
    requires StepInv(step, hasObserver, v.result, now)
    requires v.status.Running? && v.result.status.Active?
    requires k.From(now)
    ensures StepInv(step, hasObserver, Advance(step, oracle, v, k).0.result, k.finish)
    ensures Coupled(Advance(step, oracle, v, k).0.status, Advance(step, oracle, v, k).0.result)
  {
    hide StepInv, OracleSatisfied, CompleteTelemetryPhase, Elapsed;
    NotYetSatisfied(step, hasObserver, oracle, v.result, now);
    if !OracleSatisfied(oracle, v.result.tally, Elapsed(v.result.timing, k.check)) {
      CloseKeeps(step, hasObserver, v.result, now, k.finish);
    } else {
      HoldingKeeps(step, hasObserver, oracle, v.result, now, k);
    }
  }

  /** A look at the window that reports no change has changed nothing, so not saving it loses nothing. */
  lemma AdvanceUnchanged(step: ScenarioStep, oracle: TelemetryOracle, v: Live, k: Ticks)
    requires !Advance(step, oracle, v, k).1
    ensures Advance(step, oracle, v, k).0 == v
  {
  }

  /** Every judged sample precedes an opening window, in unpaused time. */
  lemma OpenWindowIsQuiet(step: ScenarioStep, hasObserver: bool, oracle: TelemetryOracle, r: StepResult,
                          now: int, t: int)
    requires step.oracle == Some(oracle) && StepInv(step, hasObserver, r, now)
    requires r.status.Active? && now <= t
    ensures QuietSince(oracle, r.tally, Elapsed(r.timing, t))
  {
    ElapsedRunning(r.timing, now, now);
    ElapsedRunning(r.timing, now, t);
  }

  lemma CompleteKeeps(step: ScenarioStep, hasObserver: bool, oracle: TelemetryOracle, r: StepResult, now: int, t: int)
    requires step.Valid() && step.oracle == Some(oracle)
    requires r.stepId == step.id && r.kind == step.kind && r.status.Active? && now <= t
    requires TimingInv(r.status, r.timing, now) && TallyInv(step, r.status, r.tally)
    requires SettleInv(step, StepStatus.AwaitingFeedback, r.timing, r.tally, r.settle, now)
    requires VerdictInv(step, hasObserver, r) && ConditionsInv(step, r) && VerdictStands(r)
    ensures StepInv(step, hasObserver, CompleteTelemetryPhase(step, r, t).result, t)
    ensures Coupled(CompleteTelemetryPhase(step, r, t).status, CompleteTelemetryPhase(step, r, t).result)
  {
    if step.Unattended() {
      FinishPassedKeeps(step, hasObserver, r.(evidenceClass := TelemetryOnly), now, t);
    } else if r.manualVerdict.Some? {
      FinishPassedKeeps(step, hasObserver, r.(evidenceClass := HybridEvidence), now, t);
    } else {
      LaterKeeps(step, hasObserver, r.(status := StepStatus.AwaitingFeedback), now, t);
    }
  }

  lemma JudgeStaysLawful(oracle: TelemetryOracle, y: Tally, o: Observation)
    requires Lawful(oracle, y) && JudgeTally(oracle, y, o).mismatches <= oracle.maxMismatches
    ensures Lawful(oracle, JudgeTally(oracle, y, o))
  {
  }

  lemma JudgeKeepsTally(step: ScenarioStep, oracle: TelemetryOracle, r: StepResult, o: Observation, t: int)
    requires step.oracle == Some(oracle) && TallyInv(step, Active, r.tally)
    requires Violation(oracle, Absorb(r, o, t).tally, o) == {}
    requires Judge(oracle, Absorb(r, o, t), o).tally.mismatches <= oracle.maxMismatches
    ensures TallyInv(step, Active, Judge(oracle, Absorb(r, o, t), o).tally)
  {
    hide Folded, Lawful, Violation;
    AbsorbKeepsFold(oracle, r, o, t);
    UnviolatedStaysLawful(oracle, r, o, t);
    JudgeKeepsFold(oracle, Absorb(r, o, t).tally, o);
    JudgeStaysLawful(oracle, Absorb(r, o, t).tally, o);
  }

  /** A disturbing observation closes an open window, so what stays open stays quiet. */
  lemma JudgeKeepsSettle(step: ScenarioStep, oracle: TelemetryOracle, r: StepResult, o: Observation, now: int, t: int)
    requires step.oracle == Some(oracle) && now <= t
    requires TimingInv(Active, r.timing, now) && r.tally.judged == |r.tally.samples|
    requires SettleInv(step, Active, r.timing, r.tally, r.settle, now)
    ensures var j := Judge(oracle, Absorb(r, o, t), o);
            SettleInv(step, Active, j.timing, j.tally, j.settle, t)
  {
    ElapsedRunning(r.timing, now, now);
    ElapsedRunning(r.timing, now, t);
    var y, z := r.tally, Judge(oracle, Absorb(r, o, t), o).tally;
    assert z.samples == y.samples + [Sample(o, Elapsed(r.timing, t))];
  }

  lemma JudgeKeeps(step: ScenarioStep, hasObserver: bool, oracle: TelemetryOracle, r: StepResult, o: Observation,
                   now: int, t: int)
    requires step.oracle == Some(oracle) && StepInv(step, hasObserver, r, now)
    requires r.status.Active? && now <= t
    requires Violation(oracle, Absorb(r, o, t).tally, o) == {}
    requires Judge(oracle, Absorb(r, o, t), o).tally.mismatches <= oracle.maxMismatches
    ensures StepInv(step, hasObserver, Judge(oracle, Absorb(r, o, t), o), t)
  {
    JudgeKeepsTally(step, oracle, r, o, t);
    JudgeKeepsSettle(step, oracle, r, o, now, t);
  }

  /** Awaiting a verdict, events and evidence are still counted, and the satisfied oracle stays satisfied. */
  lemma AwaitingKeepsSettle(step: ScenarioStep, oracle: TelemetryOracle, r: StepResult, o: Observation,
                            now: int, t: int)
    requires step.oracle == Some(oracle) && now <= t
    requires SettleInv(step, StepStatus.AwaitingFeedback, r.timing, r.tally, r.settle, now)
    requires Elapsed(r.timing, now) <= Elapsed(r.timing, t)
    requires Violation(oracle, Absorb(r, o, t).tally, o) == {}
    ensures SettleInv(step, StepStatus.AwaitingFeedback, r.timing, Absorb(r, o, t).tally, r.settle, t)
  {
    hide OracleSatisfied, Violation;
    OracleStable(oracle, r, o, t, r.settle.satisfiedAt);
    var y, z := r.tally, Absorb(r, o, t).tally;
    assert forall i :: 0 <= i < y.judged ==> z.samples[i] == y.samples[i];
  }

  lemma AwaitingAbsorbKeeps(step: ScenarioStep, hasObserver: bool, oracle: TelemetryOracle, r: StepResult,
                            o: Observation, now: int, t: int)
    requires step.oracle == Some(oracle) && StepInv(step, hasObserver, r, now)
    requires r.status.AwaitingFeedback? && now <= t
    requires Violation(oracle, Absorb(r, o, t).tally, o) == {}
    ensures StepInv(step, hasObserver, Absorb(r, o, t), t)
  {
    hide Folded, Lawful, OracleSatisfied, Violation, QuietSince, SettleInv;
    AbsorbKeepsFold(oracle, r, o, t);
    UnviolatedStaysLawful(oracle, r, o, t);
    ElapsedRunning(r.timing, now, now);
    ElapsedRunning(r.timing, now, t);
    AwaitingKeepsSettle(step, oracle, r, o, now, t);
  }

  /** Failing right after counting an observation, before or after judging it. */
  lemma FailKeeps(step: ScenarioStep, hasObserver: bool, oracle: TelemetryOracle, r: StepResult, o: Observation,
                  codes: set<FailureCode>, now: int, k: Ticks)
    requires step.oracle == Some(oracle) && StepInv(step, hasObserver, r, now)
    requires r.status.Active? || r.status.AwaitingFeedback?
    requires k.From(now)
    ensures var a := Absorb(r, o, k.accept);
            StepInv(step, hasObserver, Finish(step, a, StepStatus.Failed, codes, k.finish).result, k.finish)
    ensures var j := Judge(oracle, Absorb(r, o, k.accept), o);
            r.status.Active? ==>
              StepInv(step, hasObserver, Finish(step, j, StepStatus.Failed, codes, k.finish).result, k.finish)
  {
    hide Folded, Lawful, OracleSatisfied, QuietSince, FinishTiming;
    var a := Absorb(r, o, k.accept);
    AbsorbKeepsFold(oracle, r, o, k.accept);
    FinishDownKeeps(step, hasObserver, a, StepStatus.Failed, codes, now, k.finish);
    if r.status.Active? {
      JudgeKeepsFold(oracle, a.tally, o);
      FinishDownKeeps(step, hasObserver, Judge(oracle, a, o), StepStatus.Failed, codes, now, k.finish);
    }
  }

  /** One observation, deferred or not, keeps the invariant of the step that consumes it. */
  lemma ConsumeKeeps(step: ScenarioStep, hasObserver: bool, oracle: TelemetryOracle, v: Live, o: Observation,
                     now: int, k: Ticks, defer: bool)
    requires step.Valid() && step.oracle == Some(oracle)
    requires StepInv(step, hasObserver, v.result, now) && Coupled(v.status, v.result)
    requires v.result.status.Active? || v.result.status.AwaitingFeedback?
    requires k.From(now)
    ensures StepInv(step, hasObserver, Consume(step, oracle, v, o, k, defer).result, k.finish)
    ensures Coupled(Consume(step, oracle, v, o, k, defer).status, Consume(step, oracle, v, o, k, defer).result)
  {
    hide StepInv, Violation, JudgeTally, Advance;
    var r := Absorb(v.result, o, k.accept);
    var codes := Violation(oracle, r.tally, o);
    var j := Judge(oracle, r, o);
    if codes != {} {
      FailKeeps(step, hasObserver, oracle, v.result, o, codes, now, k);
    } else if r.status.AwaitingFeedback? {
      AwaitingAbsorbKeeps(step, hasObserver, oracle, v.result, o, now, k.accept);
      LaterKeeps(step, hasObserver, r, k.accept, k.finish);
    } else if j.tally.mismatches > oracle.maxMismatches {
      FailKeeps(step, hasObserver, oracle, v.result, o, {PredicateMismatch}, now, k);
    } else {
      JudgeKeeps(step, hasObserver, oracle, v.result, o, now, k.accept);
      if defer {
        LaterKeeps(step, hasObserver, j, k.accept, k.finish);
      } else {
        AdvanceKeeps(step, hasObserver, oracle, v.(result := j), k.accept, k);
      }
    }
  }

  /** An admitted verdict keeps the invariant; a refused one changes nothing. */
  lemma SubmitVerdictKeeps(step: ScenarioStep, hasObserver: bool, v: Live, verdict: Verdict, now: int, t: int)
    requires step.Valid() && StepInv(step, hasObserver, v.result, now) && Coupled(v.status, v.result) && now <= t
    ensures var out := SubmitVerdict(step, hasObserver, v, verdict, t);
            out.Ok? ==>
              && StepInv(step, hasObserver, out.value.result, t)
              && Coupled(out.value.status, out.value.result)
  {
    hide StepInv, DecideVerdict, Coupled;
    if TakesVerdict(step, hasObserver, v.result, verdict) {
      DecideKeeps(step, hasObserver, v.result, verdict, now, t);
    }
  }

  lemma DecideKeeps(step: ScenarioStep, hasObserver: bool, r: StepResult, verdict: Verdict, now: int, t: int)
    requires step.Valid() && StepInv(step, hasObserver, r, now) && now <= t
    requires TakesVerdict(step, hasObserver, r, verdict)
    ensures var v := DecideVerdict(step, Record(r, verdict), verdict, t);
            StepInv(step, hasObserver, v.result, t) && Coupled(v.status, v.result)
  {
    hide Folded, Lawful, QuietSince, OracleSatisfied, FinishTiming, FinishEvidence, Elapsed, Ledger;
    var w := Record(r, verdict);
    match verdict.outcome
    case Blocked => FinishDownKeeps(step, hasObserver, w, StepStatus.Blocked, {UserBlocked}, now, t);
    case Failed =>
      FinishDownKeeps(step, hasObserver, w, StepStatus.Failed,
                      {if verdict.reporter.Observer? then ObserverFailed else UserFailed}, now, t);
    case Passed => PassKeeps(step, hasObserver, r, verdict, now, t);
  }

  lemma PassKeeps(step: ScenarioStep, hasObserver: bool, r: StepResult, verdict: Verdict, now: int, t: int)
    requires step.Valid() && StepInv(step, hasObserver, r, now) && now <= t
    requires TakesVerdict(step, hasObserver, r, verdict) && verdict.outcome.Passed?
    ensures var v := DecideVerdict(step, Record(r, verdict), verdict, t);
            StepInv(step, hasObserver, v.result, t) && Coupled(v.status, v.result)
  {
    hide Folded, Lawful, QuietSince, OracleSatisfied, FinishTiming, FinishEvidence, Elapsed, Ledger;
    var w := Record(r, verdict);
    if step.kind.Manual? {
      FinishPassedKeeps(step, hasObserver, w, now, t);
    } else if r.settle.satisfied {
      FinishPassedKeeps(step, hasObserver, w.(evidenceClass := HybridEvidence), now, t);
    } else {
      LaterKeeps(step, hasObserver, w.(status := Active), now, t);
    }
  }
}
