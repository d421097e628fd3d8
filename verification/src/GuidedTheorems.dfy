/**
 The guarantees of the guided service, stated for every run of public calls on a newly opened session.
 */
module GuidedTheorems {
  import opened Wrappers
  import opened GuidedModels
  import opened GuidedSteps
  import opened GuidedStepLaws
  import opened GuidedTransitions
  import opened GuidedRuns
  import opened GuidedEvolution
  import opened GuidedLedger
  import GuidedOutcomes
  import Percentiles

  /** What the telemetry contract promises, in terms of the consumed samples only. */
  ghost predicate MeetsContract(oracle: TelemetryOracle, samples: seq<Sample>) {
    && |samples| >= oracle.minObservations
    && (forall e :: e in oracle.requiredEvents && e != "" ==>
          multiset(Events(samples))[Some(e)] >= oracle.requiredEvents[e])
    && (forall e :: e in oracle.exactEventCounts && e != "" ==>
          multiset(Events(samples))[Some(e)] == oracle.exactEventCounts[e])
    && (forall e :: e in oracle.maxEventCounts && e != "" ==>
          multiset(Events(samples))[Some(e)] <= oracle.maxEventCounts[e])
    && (forall i :: 0 <= i < |samples| && samples[i].observation.event.Some? ==>
          samples[i].observation.event.value !in oracle.forbiddenEvents)
    && (forall i :: 0 <= i < |samples| ==>
          samples[i].observation.drops - samples[0].observation.drops <= oracle.maxDropDelta)
    && (oracle.maxP95Latency.Some? ==>
          var p := Percentiles.P95(LastOf(Latencies(samples), 20_000));
          p.Some? && p.value <= oracle.maxP95Latency.value)
  }

  lemma SatisfiedMeetsContract(oracle: TelemetryOracle, y: Tally, elapsed: int)
    requires Folded(oracle, y) && Lawful(oracle, y) && OracleSatisfied(oracle, y, elapsed)
    ensures MeetsContract(oracle, y.samples)
  {
    forall e | e != ""
      ensures EventCount(y.eventCounts, e) == multiset(Events(y.samples))[Some(e)]
    {
    }
    forall e | e in oracle.exactEventCounts
      ensures EventCount(y.eventCounts, e) == oracle.exactEventCounts[e]
    {
      assert !ExactMissed(oracle, y);
    }
  }

  /** A passed hybrid or telemetry step of a sound session met the whole contract over everything it consumed. */
  lemma SoundPassMetContract(plan: seq<ScenarioStep>, s: Session, i: nat, now: int)
    requires SessionInv(plan, s, now) && i < |plan|
    requires !plan[i].kind.Manual? && s.results[i].status.Passed?
    ensures plan[i].oracle.Some?
    ensures var r := s.results[i];
            && MeetsContract(plan[i].oracle.value, r.tally.samples)
            && OracleSatisfied(plan[i].oracle.value, r.tally, r.timing.durationMs)
  {
    hide MeetsContract, Folded, Lawful;
    var r := s.results[i];
    assert plan[i].Valid();
    assert StepInv(plan[i], s.hasObserver, r, now);
    SatisfiedMeetsContract(plan[i].oracle.value, r.tally, r.settle.satisfiedAt);
  }

  /** The counters of a sound session are the folds of what its steps consumed. */
  lemma SoundCounters(plan: seq<ScenarioStep>, s: Session, i: nat, now: int)
    requires SessionInv(plan, s, now) && i < |plan| && plan[i].oracle.Some?
    ensures var r := s.results[i];
            && Folded(plan[i].oracle.value, r.tally)
            && (r.status.Active? || r.status.Paused? ==>
                  r.tally.matchingObservations + r.tally.mismatches == r.tally.observationCount)
  {
    hide Folded, Lawful, OracleSatisfied;
    var r := s.results[i];
    assert StepInv(plan[i], s.hasObserver, r, now);
    if r.status.Active? || r.status.Paused? {
      JudgedSamplesSplit(plan[i].oracle.value, r.tally);
    }
  }

  /**
   Oracle stability: a passed hybrid or telemetry step met the whole contract over everything it consumed,
   up to the moment it passed, under every interleaving of observations, verdicts, pauses and refreshes.
   */
  lemma PassedStepMetContract(plan: seq<ScenarioStep>, o: Opening, events: seq<Event>, start: int, i: nat)
    requires ValidPlan(plan) && Timeline(start, events) && i < |plan|
    requires !plan[i].kind.Manual?
    requires Reached(plan, o, events).session.results[i].status.Passed?
    ensures var r := Reached(plan, o, events).session.results[i];
            && MeetsContract(plan[i].oracle.value, r.tally.samples)
            && OracleSatisfied(plan[i].oracle.value, r.tally, r.timing.durationMs)
  {
    hide MeetsContract, SessionInv, OracleSatisfied;
    ReachedKeeps(plan, o, events, start);
    SoundPassMetContract(plan, Reached(plan, o, events).session, i, LastReading(start, events));
  }

  /** While a verdict is awaited the oracle holds at the latest reading, whatever arrived since it was satisfied. */
  lemma AwaitingStepMeetsContract(plan: seq<ScenarioStep>, o: Opening, events: seq<Event>, start: int)
    requires ValidPlan(plan) && Timeline(start, events)
    requires Reached(plan, o, events).session.status.AwaitingFeedback?
    ensures var s := Reached(plan, o, events).session;
            var r, step := Current(s), plan[s.currentStepIndex];
            && r.settle.satisfied && r.manualVerdict.None? && step.oracle.Some?
            && MeetsContract(step.oracle.value, r.tally.samples)
            && OracleSatisfied(step.oracle.value, r.tally, Elapsed(r.timing, LastReading(start, events)))
  {
    hide MeetsContract, Folded, Lawful;
    ReachedKeeps(plan, o, events, start);
    var s := Reached(plan, o, events).session;
    assert StepInv(plan[s.currentStepIndex], s.hasObserver, Current(s), LastReading(start, events));
    SatisfiedMeetsContract(plan[s.currentStepIndex].oracle.value, Current(s).tally, Current(s).settle.satisfiedAt);
  }

  /**
   Settle window: when the oracle was declared satisfied, the full window of unpaused time had passed since the
   last judged sample that mismatched a predicate or carried a constrained event. The recorded window always
   has the contract's length, through every pause, reset and batch.
   */
  lemma SettleWindowWasQuiet(plan: seq<ScenarioStep>, o: Opening, events: seq<Event>, start: int, i: nat)
    requires ValidPlan(plan) && Timeline(start, events) && i < |plan| && plan[i].oracle.Some?
    ensures var r, oracle := Reached(plan, o, events).session.results[i], plan[i].oracle.value;
            && r.settle.startedAt.Some? == r.settle.deadline.Some?
            && (r.settle.startedAt.Some? ==>
                  r.settle.deadline.value - r.settle.startedAt.value == oracle.settleWindowMs)
            && (r.settle.satisfied && (r.status.AwaitingFeedback? || r.status.Passed?) ==>
                  && r.tally.judged <= |r.tally.samples|
                  && forall j :: 0 <= j < r.tally.judged
                                 && GuidedOutcomes.Unsettles(oracle, r.tally.samples[j].observation) ==>
                       r.settle.satisfiedAt - r.tally.samples[j].elapsed >= oracle.settleWindowMs)
  {
    hide Folded, Lawful, OracleSatisfied, Disturbs, GuidedOutcomes.Unsettles;
    forall o: Observation ensures Disturbs(plan[i].oracle.value, o) <==> GuidedOutcomes.Unsettles(plan[i].oracle.value, o) {
      GuidedOutcomes.DisturbsIff(plan[i].oracle.value, o);
    }
    ReachedKeeps(plan, o, events, start);
    var s := Reached(plan, o, events).session;
    assert StepInv(plan[i], s.hasObserver, s.results[i], LastReading(start, events));
  }

  /** Every incremental counter of every step is the fold of what that step consumed. */
  lemma CountersAreFolds(plan: seq<ScenarioStep>, o: Opening, events: seq<Event>, start: int, i: nat)
    requires ValidPlan(plan) && Timeline(start, events) && i < |plan| && plan[i].oracle.Some?
    ensures var r := Reached(plan, o, events).session.results[i];
            && Folded(plan[i].oracle.value, r.tally)
            && (r.status.Active? || r.status.Paused? ==>
                  r.tally.matchingObservations + r.tally.mismatches == r.tally.observationCount)
  {
    hide Folded, SessionInv;
    ReachedKeeps(plan, o, events, start);
    SoundCounters(plan, Reached(plan, o, events).session, i, LastReading(start, events));
  }

  /** Session status, index and step statuses stay coupled, and no run reaches the fallback of finalization. */
  lemma StatusesStayCoupled(plan: seq<ScenarioStep>, o: Opening, events: seq<Event>, start: int)
    requires ValidPlan(plan) && Timeline(start, events)
    ensures Coupling(Reached(plan, o, events).session)
  {
    hide StepInv;
    ReachedKeeps(plan, o, events, start);
  }

  /** A passed step has the human verdict, the satisfied telemetry, or both, that its kind demands. */
  lemma PassesAreJustified(plan: seq<ScenarioStep>, o: Opening, events: seq<Event>, start: int, i: nat)
    requires ValidPlan(plan) && Timeline(start, events) && i < |plan|
    requires Reached(plan, o, events).session.results[i].status.Passed?
    ensures Justified(plan[i], Reached(plan, o, events).session.hasObserver, Reached(plan, o, events).session.results[i])
  {
    hide Justified, TimingInv, TallyInv, SettleInv;
    ReachedKeeps(plan, o, events, start);
    var s := Reached(plan, o, events).session;
    assert StepInv(plan[i], s.hasObserver, s.results[i], LastReading(start, events));
  }

  /** No step runs unless its required conditions were confirmed, and what was confirmed stays on its record. */
  lemma StartedStepsWereConfirmed(plan: seq<ScenarioStep>, o: Opening, events: seq<Event>, start: int, i: nat)
    requires ValidPlan(plan) && Timeline(start, events) && i < |plan|
    ensures var r := Reached(plan, o, events).session.results[i];
            && (r.timing.startedAt.Some? ==> plan[i].requiredConditions <= r.confirmedConditions)
            && (r.status.Active? || r.status.Paused? || r.status.AwaitingFeedback? || r.status.Passed? ==>
                  r.timing.startedAt.Some?)
  {
    hide TallyInv, SettleInv, VerdictInv;
    ReachedKeeps(plan, o, events, start);
    var s := Reached(plan, o, events).session;
    assert StepInv(plan[i], s.hasObserver, s.results[i], LastReading(start, events));
    assert Ledger(s.results[i].timing, LastReading(start, events));
  }

  /** A failed or blocked verdict is what its step ends with, over every run, under the code of its reporter. */
  lemma VerdictsDecideTheirStep(plan: seq<ScenarioStep>, o: Opening, events: seq<Event>, start: int, i: nat)
    requires ValidPlan(plan) && Timeline(start, events) && i < |plan|
    requires Reached(plan, o, events).session.results[i].manualVerdict.Some?
    ensures var r := Reached(plan, o, events).session.results[i];
            var v := r.manualVerdict.value;
            && (v.outcome.Failed? ==>
                  r.status.Failed? && r.failureCodes == {if v.reporter.Observer? then ObserverFailed else UserFailed})
            && (v.outcome.Blocked? ==> r.status.Blocked? && r.failureCodes == {UserBlocked})
  {
    hide TimingInv, TallyInv, SettleInv, VerdictInv;
    ReachedKeeps(plan, o, events, start);
    var s := Reached(plan, o, events).session;
    assert StepInv(plan[i], s.hasObserver, s.results[i], LastReading(start, events));
  }

  /**
   Pause accounting: the duration of a finished step is the total length of its unpaused stretches, which
   follow each other in time, for any number of pauses and also when it was blocked while paused.
   */
  lemma DurationIsUnpausedTime(plan: seq<ScenarioStep>, o: Opening, events: seq<Event>, start: int, i: nat)
    requires ValidPlan(plan) && Timeline(start, events) && i < |plan|
    requires Reached(plan, o, events).session.results[i].timing.endedAt.Some?
    ensures var c := Reached(plan, o, events).session.results[i].timing;
            c.durationMs == Total(c.intervals) && Consecutive(c.intervals, LastReading(start, events))
  {
    hide TallyInv, SettleInv, VerdictInv;
    ReachedKeeps(plan, o, events, start);
    var s := Reached(plan, o, events).session;
    assert StepInv(plan[i], s.hasObserver, s.results[i], LastReading(start, events));
  }

  /** No observation id is consumed twice, across steps, batches and retried attempts. */
  lemma ObservationsConsumedOnce(plan: seq<ScenarioStep>, o: Opening, events: seq<Event>)
    requires plan != []
    ensures IdsInv(Reached(plan, o, events))
  {
    var d := OpenDesk(plan, o);
    forall x ensures Uses(d.session.results, x) == 0 {
      FreshUses(d.session.results, x);
    }
    RunConsumesOnce(plan, d, events);
  }

  lemma {:induction false} FreshUses(rs: seq<StepResult>, x: string)
    requires forall i :: 0 <= i < |rs| ==> rs[i].tally == NO_TALLY
    ensures Uses(rs, x) == 0
  {
    if rs != [] {
      FreshUses(rs[..|rs| - 1], x);
    }
  }

  // ---- terminal sessions ----

  lemma AllPassedStays(results: seq<StepResult>)
    requires FinalStatus(results).Completed?
    ensures forall i :: 0 <= i < |results| ==> results[i].status.Passed?
    ensures RetryIds(results) == []
  {
    NothingToRetry(results);
  }

  lemma {:induction false} NothingToRetry(results: seq<StepResult>)
    requires forall i :: 0 <= i < |results| ==> results[i].status.Passed?
    ensures RetryIds(results) == []
  {
    if results != [] {
      NothingToRetry(results[..|results| - 1]);
    }
  }

  /** COMPLETED is absorbing: no call changes anything but the revision. */
  lemma CompletedAbsorbs(plan: seq<ScenarioStep>, d: Desk, e: Event, now: int)
    requires SessionInv(plan, d.session, now) && d.session.status.Completed?
    ensures var t := Step(plan, d, e).session;
            t == d.session.(revision := t.revision)
  {
    hide StepInv, Consume;
    AllPassedStays(d.session.results);
    assert Current(d.session).status.Passed?;
  }
}
