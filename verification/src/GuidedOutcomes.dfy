/**
 What an observation, a look at the settle window and the time limit do to a step, said on the consumed samples: the
 exact causes of a failure with their codes, when the window opens, closes and ends, and what a timeout reports.
 */
module GuidedOutcomes {
  import opened Wrappers
  import opened GuidedModels
  import opened GuidedSteps
  import opened GuidedStepLaws
  import opened GuidedTelemetryLaws
  import opened GuidedTransitions
  import opened GuidedRuns
  import Percentiles

  // ---- the contract on samples ----

  /** How often an event was reported; the empty event is never counted. */
  function Occurrences(q: seq<Sample>, e: string): nat {
    if e == "" then 0 else multiset(Events(q))[Some(e)]
  }

  ghost predicate Fits(oracle: TelemetryOracle, o: Observation) {
    forall p :: p in oracle.predicates ==> p in o.holding
  }

  /** The samples on which every predicate holds, and those on which one does not, as positions. */
  ghost function Hits(oracle: TelemetryOracle, q: seq<Sample>): set<int> {
    set i | 0 <= i < |q| && Fits(oracle, q[i].observation)
  }

  ghost function Misses(oracle: TelemetryOracle, q: seq<Sample>): set<int> {
    set i | 0 <= i < |q| && !Fits(oracle, q[i].observation)
  }

  /** The 95th percentile of the latest latencies, and whether it keeps its bound. */
  ghost predicate FastEnough(oracle: TelemetryOracle, q: seq<Sample>) {
    oracle.maxP95Latency.Some? ==>
      var p := Percentiles.P95(LastOf(Latencies(q), 20_000));
      p.Some? && p.value <= oracle.maxP95Latency.value
  }

  ghost predicate TooSlow(oracle: TelemetryOracle, q: seq<Sample>) {
    && |q| >= oracle.minObservations && oracle.maxP95Latency.Some?
    && var p := Percentiles.P95(LastOf(Latencies(q), 20_000));
       p.Some? && p.value > oracle.maxP95Latency.value
  }

  ghost predicate AboveExact(oracle: TelemetryOracle, q: seq<Sample>) {
    exists e :: e in oracle.exactEventCounts && Occurrences(q, e) > oracle.exactEventCounts[e]
  }

  ghost predicate AboveMaximum(oracle: TelemetryOracle, q: seq<Sample>) {
    exists e :: e in oracle.maxEventCounts && Occurrences(q, e) > oracle.maxEventCounts[e]
  }

  ghost predicate OffExact(oracle: TelemetryOracle, q: seq<Sample>) {
    exists e :: e in oracle.exactEventCounts && Occurrences(q, e) != oracle.exactEventCounts[e]
  }

  ghost predicate BelowRequired(oracle: TelemetryOracle, q: seq<Sample>) {
    exists e :: e in oracle.requiredEvents && Occurrences(q, e) < oracle.requiredEvents[e]
  }

  ghost predicate Dropping(oracle: TelemetryOracle, q: seq<Sample>) {
    exists i :: 0 <= i < |q| && q[i].observation.drops - q[0].observation.drops > oracle.maxDropDelta
  }

  /** The last `n` samples all match. */
  ghost predicate EndsInMatches(oracle: TelemetryOracle, q: seq<Sample>, n: nat) {
    n <= |q| && forall i :: |q| - n <= i < |q| ==> Fits(oracle, q[i].observation)
  }

  /** The whole contract on the samples, with `elapsed` unpaused time gone. */
  ghost predicate ContractHolds(oracle: TelemetryOracle, q: seq<Sample>, elapsed: int) {
    && |q| >= oracle.minObservations && elapsed >= oracle.minObservationMs
    && |Hits(oracle, q)| >= oracle.minMatchingObservations
    && EndsInMatches(oracle, q, oracle.minConsecutiveMatches)
    && !BelowRequired(oracle, q) && !OffExact(oracle, q) && !AboveMaximum(oracle, q)
    && !Dropping(oracle, q) && FastEnough(oracle, q)
  }

  lemma {:induction false} HitsAreMarks(oracle: TelemetryOracle, q: seq<Sample>)
    ensures |Hits(oracle, q)| == multiset(Marks(oracle, q))[true]
    ensures |Misses(oracle, q)| == multiset(Marks(oracle, q))[false]
  {
    if q == [] {
      assert Hits(oracle, q) == {} && Misses(oracle, q) == {};
      assert Marks(oracle, q) == [];
    } else {
      var n := |q| - 1;
      var init, last := q[..n], q[n];
      HitsAreMarks(oracle, init);
      MarksAppend(oracle, init, last);
      assert init + [last] == q;
      HitsNext(oracle, q);
      MarksCount(Marks(oracle, init), Matches(oracle, last.observation));
    }
  }

  lemma HitsNext(oracle: TelemetryOracle, q: seq<Sample>)
    requires q != []
    ensures var n := |q| - 1;
            && |Hits(oracle, q)| == |Hits(oracle, q[..n])| + (if Matches(oracle, q[n].observation) then 1 else 0)
            && |Misses(oracle, q)| == |Misses(oracle, q[..n])| + (if Matches(oracle, q[n].observation) then 0 else 1)
  {
    var n := |q| - 1;
    assert Matches(oracle, q[n].observation) == Fits(oracle, q[n].observation);
    HitsSnoc(oracle, q);
    hide Matches, Fits, Hits, Misses;
  }

  lemma HitsSnoc(oracle: TelemetryOracle, q: seq<Sample>)
    requires q != []
    ensures var n := |q| - 1;
            && n !in Hits(oracle, q[..n]) && n !in Misses(oracle, q[..n])
            && Hits(oracle, q) == Hits(oracle, q[..n]) + (if Fits(oracle, q[n].observation) then {n} else {})
            && Misses(oracle, q) == Misses(oracle, q[..n]) + (if Fits(oracle, q[n].observation) then {} else {n})
  {
    hide Fits;
    var n := |q| - 1;
    forall i: int ensures i in Hits(oracle, q) <==> i in Hits(oracle, q[..n]) || (i == n && Fits(oracle, q[n].observation)) {
      assert 0 <= i < n ==> q[..n][i] == q[i];
    }
    forall i: int
      ensures i in Misses(oracle, q) <==> i in Misses(oracle, q[..n]) || (i == n && !Fits(oracle, q[n].observation))
    {
      assert 0 <= i < n ==> q[..n][i] == q[i];
    }
  }

  lemma MarksCount(marks: seq<bool>, b: bool)
    ensures multiset(marks + [b])[true] == multiset(marks)[true] + (if b then 1 else 0)
    ensures multiset(marks + [b])[false] == multiset(marks)[false] + (if b then 0 else 1)
  {
  }

  lemma CountedEvents(y: Tally, e: string)
    requires FoldsCounts(y)
    ensures EventCount(y.eventCounts, e) == Occurrences(y.samples, e)
  {
  }

  lemma EventsAreCounted(oracle: TelemetryOracle, y: Tally)
    requires FoldsCounts(y)
    ensures ExactExceeded(oracle, y) <==> AboveExact(oracle, y.samples)
    ensures MaximumExceeded(oracle, y) <==> AboveMaximum(oracle, y.samples)
    ensures RequiredMissing(oracle, y) <==> BelowRequired(oracle, y.samples)
    ensures ExactMissed(oracle, y) <==> OffExact(oracle, y.samples)
  {
    forall e ensures EventCount(y.eventCounts, e) == Occurrences(y.samples, e) {
      CountedEvents(y, e);
    }
    hide EventCount, Occurrences, FoldsCounts;
  }

  lemma MeasuresAreSamples(oracle: TelemetryOracle, y: Tally)
    requires FoldsMeasures(y) && y.observationCount == |y.samples|
    ensures y.dropDelta > oracle.maxDropDelta <==> Dropping(oracle, y.samples)
    ensures LatencyWithin(oracle, y) <==> FastEnough(oracle, y.samples)
    ensures LatencyExceededNow(oracle, y) <==> TooSlow(oracle, y.samples)
  {
    hide Latencies, LastOf, Percentiles.P95;
  }

  /** With every sample judged, the counters say exactly what the samples say. */
  lemma SatisfiedIff(oracle: TelemetryOracle, y: Tally, elapsed: int)
    requires Folded(oracle, y) && y.judged == |y.samples|
    ensures OracleSatisfied(oracle, y, elapsed) <==> ContractHolds(oracle, y.samples, elapsed)
    ensures y.matchingObservations == |Hits(oracle, y.samples)| && y.mismatches == |Misses(oracle, y.samples)|
  {
    assert y.samples[..y.judged] == y.samples;
    EventsAreCounted(oracle, y);
    MeasuresAreSamples(oracle, y);
    HitsAreMarks(oracle, y.samples);
    RunEndsLog(oracle, y.samples, y.consecutiveMatches, oracle.minConsecutiveMatches);
    hide ExactExceeded, MaximumExceeded, RequiredMissing, ExactMissed, LatencyWithin, Hits, Misses, AboveExact,
      AboveMaximum, OffExact, BelowRequired, Dropping, FastEnough, EndsInMatches, FoldsMeasures, Marks, IsSuffixRun,
      IsLongestRun;
  }

  lemma RunEndsLog(oracle: TelemetryOracle, q: seq<Sample>, k: nat, n: nat)
    requires IsSuffixRun(Marks(oracle, q), k)
    ensures EndsInMatches(oracle, q, n) <==> n <= k
  {
    var marks := Marks(oracle, q);
    assert forall i :: 0 <= i < |q| ==> marks[i] == Fits(oracle, q[i].observation);
    if n > k && n <= |q| {
      assert !marks[|marks| - k - 1];
    }
  }

  // ---- what one observation does ----

  /** The first cause for which a consumed observation fails its step, with the codes it is reported under. */
  ghost function Cause(oracle: TelemetryOracle, q: seq<Sample>, o: Observation, active: bool): Option<set<FailureCode>> {
    if o.event.Some? && o.event.value in oracle.forbiddenEvents then Some({ForbiddenEvent})
    else if AboveExact(oracle, q) && AboveMaximum(oracle, q) then Some({ExactEventCountMismatch, MaxEventCountExceeded})
    else if AboveExact(oracle, q) then Some({ExactEventCountMismatch})
    else if AboveMaximum(oracle, q) then Some({MaxEventCountExceeded})
    else if Dropping(oracle, q) then Some({EvidenceDropped})
    else if TooSlow(oracle, q) then Some({LatencyExceeded})
    else if active && |Misses(oracle, q)| > oracle.maxMismatches then Some({PredicateMismatch})
    else None
  }

  /** A mismatch, or an event that some count of the contract is about. */
  ghost predicate Unsettles(oracle: TelemetryOracle, o: Observation) {
    || !Fits(oracle, o)
    || (o.event.Some?
        && (|| o.event.value in oracle.requiredEvents || o.event.value in oracle.exactEventCounts
            || o.event.value in oracle.maxEventCounts))
  }

  /** An open window stays open unless the observation unsettles it. */
  ghost function Kept(oracle: TelemetryOracle, w: Settle, o: Observation): Settle {
    if w.startedAt.Some? && !w.satisfied && Unsettles(oracle, o) then w.(startedAt := None, deadline := None) else w
  }

  /** The end of the telemetry phase: a pass where the kind or an earlier verdict allows it, else a verdict is awaited. */
  ghost predicate PhaseEnded(step: ScenarioStep, verdict: Option<Verdict>, after: StepResult) {
    if step.kind.Telemetry? && !step.feedbackRequired then
      after.status.Passed? && after.evidenceClass.TelemetryOnly? && after.failureCodes == {}
    else if verdict.Some? && verdict.value.outcome.Passed? then
      after.status.Passed? && after.evidenceClass.HybridEvidence? && after.failureCodes == {}
    else after.status.AwaitingFeedback?
  }

  /**
   A look at the window of an active step: while the contract does not hold the window is closed; once it holds the
   window opens, and when the full window has passed since it opened the telemetry phase is over.
   */
  ghost predicate Looked(step: ScenarioStep, oracle: TelemetryOracle, q: seq<Sample>, elapsed: int, w: Settle,
                         verdict: Option<Verdict>, check: int, after: StepResult) {
    if !ContractHolds(oracle, q, elapsed) then
      after.status.Active? && !after.settle.satisfied && after.settle.startedAt.None? && after.settle.deadline.None?
    else
      var openedAt := if w.startedAt.Some? then w.startedAt.value else check;
      if check - openedAt < oracle.settleWindowMs then
        && after.status.Active? && !after.settle.satisfied
        && after.settle.startedAt == Some(openedAt)
        && after.settle.deadline == Some(openedAt + oracle.settleWindowMs)
      else
        after.settle.satisfied && after.settle.satisfiedAt == elapsed && PhaseEnded(step, verdict, after)
  }

  lemma DisturbsIff(oracle: TelemetryOracle, o: Observation)
    ensures Disturbs(oracle, o) <==> Unsettles(oracle, o)
  {
  }

  lemma CountedFold(oracle: TelemetryOracle, r: StepResult, o: Observation, t: int)
    requires Folded(oracle, r.tally)
    ensures var y := Absorb(r, o, t).tally;
            && Folded(oracle, y) && y.samples == r.tally.samples + [Sample(o, Elapsed(r.timing, t))]
            && y.observationCount == |y.samples| && y.judged == r.tally.judged
  {
    hide Folded, Elapsed, Percentiles.P95, LastOf, EventCount;
    AbsorbKeepsFold(oracle, r, o, t);
    FoldCounts(oracle, Absorb(r, o, t).tally);
  }

  lemma FoldCounts(oracle: TelemetryOracle, y: Tally)
    requires Folded(oracle, y)
    ensures y.observationCount == |y.samples| && FoldsCounts(y) && FoldsMeasures(y)
  {
    hide FoldsMeasures, FoldsMarks, CountsEvents;
  }

  lemma ViolationIs(oracle: TelemetryOracle, y: Tally, o: Observation)
    requires Folded(oracle, y)
    ensures var c := Cause(oracle, y.samples, o, false);
            Violation(oracle, y, o) == if c.Some? then c.value else {}
    ensures Violation(oracle, y, o) == {} <==> Cause(oracle, y.samples, o, false).None?
  {
    FoldCounts(oracle, y);
    EventsAreCounted(oracle, y);
    MeasuresAreSamples(oracle, y);
    hide Folded, FoldsCounts, FoldsMeasures, ExactExceeded, MaximumExceeded, LatencyExceededNow, AboveExact, AboveMaximum,
      Dropping, TooSlow, Misses;
    var c := EventLimitFailures(oracle, y);
    assert ExactExceeded(oracle, y) ==> ExactEventCountMismatch in c;
    assert MaximumExceeded(oracle, y) ==> MaxEventCountExceeded in c;
  }

  /** Judging the last sample: what is left to fail for is the number of mismatches. */
  lemma JudgedFold(oracle: TelemetryOracle, r: StepResult, o: Observation)
    requires Folded(oracle, r.tally) && r.tally.judged + 1 == |r.tally.samples|
    requires r.tally.samples[r.tally.judged].observation == o
    ensures var j := Judge(oracle, r, o);
            && Folded(oracle, j.tally) && j.tally.judged == |j.tally.samples| && j.tally.samples == r.tally.samples
            && j.tally.mismatches == |Misses(oracle, r.tally.samples)|
            && j.settle == Kept(oracle, r.settle, o)
            && j.status == r.status && j.timing == r.timing && j.manualVerdict == r.manualVerdict
            && j.evidenceClass == r.evidenceClass
  {
    hide Folded, Matches, Misses, Disturbs, Unsettles;
    DisturbsIff(oracle, o);
    JudgeKeepsFold(oracle, r.tally, o);
    SatisfiedIff(oracle, Judge(oracle, r, o).tally, 0);
  }

  /** The look itself, on a step whose samples are all judged. */
  lemma AdvanceLooks(step: ScenarioStep, oracle: TelemetryOracle, v: Live, k: Ticks)
    requires step.oracle == Some(oracle) && v.result.status.Active?
    requires Folded(oracle, v.result.tally) && v.result.tally.judged == |v.result.tally.samples|
    requires !v.result.settle.satisfied && WindowShape(oracle, v.result.settle)
    requires step.Unattended() ==> v.result.manualVerdict.None?
    ensures var r, after := v.result, Advance(step, oracle, v, k).0.result;
            && Looked(step, oracle, r.tally.samples, Elapsed(r.timing, k.check), r.settle, r.manualVerdict, k.check, after)
            && after.tally == r.tally
  {
    var r := v.result;
    var e := Elapsed(r.timing, k.check);
    SatisfiedIff(oracle, r.tally, e);
    hide Folded, OracleSatisfied, ContractHolds, Elapsed, CompleteTelemetryPhase, PhaseEnded;
    if OracleSatisfied(oracle, r.tally, e) {
      HoldingLooks(step, oracle, v, k);
    }
  }

  lemma HoldingLooks(step: ScenarioStep, oracle: TelemetryOracle, v: Live, k: Ticks)
    requires v.result.status.Active? && !v.result.settle.satisfied && WindowShape(oracle, v.result.settle)
    requires var e := Elapsed(v.result.timing, k.check);
             OracleSatisfied(oracle, v.result.tally, e) && ContractHolds(oracle, v.result.tally.samples, e)
    requires step.Unattended() ==> v.result.manualVerdict.None?
    ensures var r, after := v.result, Advance(step, oracle, v, k).0.result;
            && Looked(step, oracle, r.tally.samples, Elapsed(r.timing, k.check), r.settle, r.manualVerdict, k.check, after)
            && after.tally == r.tally
  {
    hide OracleSatisfied, ContractHolds, Elapsed, CompleteTelemetryPhase, PhaseEnded;
    var r := v.result;
    var openedAt := if r.settle.startedAt.Some? then r.settle.startedAt.value else k.check;
    if k.check - openedAt >= oracle.settleWindowMs {
      var w := Settle(true, Some(openedAt), Some(openedAt + oracle.settleWindowMs), Elapsed(r.timing, k.check));
      CompletedPhase(step, r.(settle := w), k.finish);
    }
  }

  lemma CompletedPhase(step: ScenarioStep, r: StepResult, t: int)
    requires step.Unattended() ==> r.manualVerdict.None?
    ensures var after := CompleteTelemetryPhase(step, r, t).result;
            PhaseEnded(step, r.manualVerdict, after) && after.settle == r.settle && after.tally == r.tally
  {
    hide FinishTiming;
  }

  /** All that consuming an observation does to an open step. */
  ghost predicate Observed(step: ScenarioStep, oracle: TelemetryOracle, r: StepResult, o: Observation, k: Ticks, defer: bool,
                           after: StepResult) {
    var q := r.tally.samples + [Sample(o, Elapsed(r.timing, k.accept))];
    var cause, w := Cause(oracle, q, o, r.status.Active?), Kept(oracle, r.settle, o);
    && after.tally.samples == q
    && (after.status.Failed? <==> cause.Some?)
    && (cause.Some? ==>
          && after.failureCodes == cause.value
          && after.evidenceClass == if r.manualVerdict.Some? then HybridEvidence else TelemetryOnly)
    && (cause.None? && r.status.AwaitingFeedback? ==>
          after.status.AwaitingFeedback? && after.settle == r.settle && after.manualVerdict.None?)
    && (cause.None? && r.status.Active? && defer ==> after.status.Active? && after.settle == w)
    && (cause.None? && r.status.Active? && !defer ==>
          Looked(step, oracle, q, Elapsed(r.timing, k.check), w, r.manualVerdict, k.check, after))
  }

  /** What the invariant says of an open step, in the terms used here. */
  lemma OpenStep(step: ScenarioStep, hasObserver: bool, oracle: TelemetryOracle, r: StepResult, now: int)
    requires step.oracle == Some(oracle) && StepInv(step, hasObserver, r, now)
    requires r.status.Active? || r.status.AwaitingFeedback?
    ensures Folded(oracle, r.tally) && WindowShape(oracle, r.settle)
    ensures r.status.Active? ==> r.tally.judged == |r.tally.samples| && !r.settle.satisfied
    ensures r.manualVerdict.None? ==> r.evidenceClass.Unknown?
    ensures step.Unattended() || r.status.AwaitingFeedback? ==> r.manualVerdict.None?
  {
    hide Folded, Lawful, OracleSatisfied, QuietSince, Arrived, TimingInv, Justified;
  }

  lemma FailedAs(step: ScenarioStep, r: StepResult, codes: set<FailureCode>, t: int)
    requires step.oracle.Some? && r.tally.observationCount > 0 && (r.manualVerdict.None? ==> r.evidenceClass.Unknown?)
    ensures var after := Finish(step, r, StepStatus.Failed, codes, t).result;
            && after.status.Failed? && after.failureCodes == codes && after.tally == r.tally
            && after.evidenceClass == if r.manualVerdict.Some? then HybridEvidence else TelemetryOnly
  {
    hide FinishTiming;
  }

  lemma ConsumeOutcome(step: ScenarioStep, hasObserver: bool, oracle: TelemetryOracle, v: Live, o: Observation, now: int,
                       k: Ticks, defer: bool)
    requires step.oracle == Some(oracle) && StepInv(step, hasObserver, v.result, now)
    requires v.result.status.Active? || v.result.status.AwaitingFeedback?
    ensures Observed(step, oracle, v.result, o, k, defer, Consume(step, oracle, v, o, k, defer).result)
  {
    hide StepInv, Folded, Observed, Violation, Advance, Finish, Judge, Absorb;
    OpenStep(step, hasObserver, oracle, v.result, now);
    AbsorbKeepsStatus(v.result, o, k.accept);
    if Violation(oracle, Absorb(v.result, o, k.accept).tally, o) != {} {
      ViolatedOutcome(step, oracle, v.result, o, k, defer);
    } else if v.result.status.AwaitingFeedback? {
      AwaitingOutcome(step, oracle, v.result, o, k, defer);
    } else {
      JudgedOutcome(step, oracle, v, o, k, defer);
    }
  }

  lemma AbsorbKeepsStatus(r: StepResult, o: Observation, t: int)
    ensures Absorb(r, o, t).status == r.status
  {
  }

  lemma ViolatedOutcome(step: ScenarioStep, oracle: TelemetryOracle, r: StepResult, o: Observation, k: Ticks, defer: bool)
    requires step.oracle == Some(oracle) && Folded(oracle, r.tally)
    requires r.manualVerdict.None? ==> r.evidenceClass.Unknown?
    requires Violation(oracle, Absorb(r, o, k.accept).tally, o) != {}
    ensures var a := Absorb(r, o, k.accept);
            Observed(step, oracle, r, o, k, defer,
                     Finish(step, a, StepStatus.Failed, Violation(oracle, a.tally, o), k.finish).result)
  {
    var a := Absorb(r, o, k.accept);
    CountedFold(oracle, r, o, k.accept);
    ViolationIs(oracle, a.tally, o);
    CauseSplits(oracle, a.tally.samples, o);
    FailedAs(step, a, Violation(oracle, a.tally, o), k.finish);
    hide Folded, Violation, Looked, Kept, Finish, Elapsed, Misses, Cause;
  }

  lemma AwaitingOutcome(step: ScenarioStep, oracle: TelemetryOracle, r: StepResult, o: Observation, k: Ticks, defer: bool)
    requires Folded(oracle, r.tally) && r.status.AwaitingFeedback? && r.manualVerdict.None?
    requires Violation(oracle, Absorb(r, o, k.accept).tally, o) == {}
    ensures Observed(step, oracle, r, o, k, defer, Absorb(r, o, k.accept))
  {
    CountedFold(oracle, r, o, k.accept);
    ViolationIs(oracle, Absorb(r, o, k.accept).tally, o);
    hide Folded, Violation, Looked, Kept, Elapsed, Misses, Cause;
  }

  lemma JudgedOutcome(step: ScenarioStep, oracle: TelemetryOracle, v: Live, o: Observation, k: Ticks, defer: bool)
    requires step.oracle == Some(oracle) && Folded(oracle, v.result.tally) && WindowShape(oracle, v.result.settle)
    requires v.result.status.Active? && v.result.tally.judged == |v.result.tally.samples| && !v.result.settle.satisfied
    requires v.result.manualVerdict.None? ==> v.result.evidenceClass.Unknown?
    requires step.Unattended() ==> v.result.manualVerdict.None?
    requires Violation(oracle, Absorb(v.result, o, k.accept).tally, o) == {}
    ensures Observed(step, oracle, v.result, o, k, defer, Consume(step, oracle, v, o, k, defer).result)
  {
    hide Folded, Violation, Advance, Looked, Kept, WindowShape, Finish, Judge, Absorb, Elapsed, Misses, Cause;
    var j := Judge(oracle, Absorb(v.result, o, k.accept), o);
    AbsorbKeepsStatus(v.result, o, k.accept);
    JudgedStart(oracle, v.result, o, k.accept);
    KeptShape(oracle, v.result.settle, o);
    if j.tally.mismatches > oracle.maxMismatches {
      FailedAs(step, j, {PredicateMismatch}, k.finish);
    } else if !defer {
      AdvanceLooks(step, oracle, v.(result := j), k);
      LookNeverFails(step, oracle, j.tally.samples, Elapsed(j.timing, k.check), j.settle, j.manualVerdict, k.check,
                     Advance(step, oracle, v.(result := j), k).0.result);
    }
  }

  /** An active step after counting and judging an observation that violates nothing. */
  lemma JudgedStart(oracle: TelemetryOracle, r: StepResult, o: Observation, t: int)
    requires Folded(oracle, r.tally) && r.status.Active? && r.tally.judged == |r.tally.samples|
    requires Violation(oracle, Absorb(r, o, t).tally, o) == {}
    ensures var j, q := Judge(oracle, Absorb(r, o, t), o), r.tally.samples + [Sample(o, Elapsed(r.timing, t))];
            && Folded(oracle, j.tally) && j.tally.judged == |j.tally.samples| && j.tally.samples == q
            && j.tally.observationCount > 0 && j.tally.mismatches == |Misses(oracle, q)|
            && j.settle == Kept(oracle, r.settle, o)
            && j.status == r.status && j.timing == r.timing && j.manualVerdict == r.manualVerdict
            && j.evidenceClass == r.evidenceClass
            && Cause(oracle, q, o, true)
               == if |Misses(oracle, q)| > oracle.maxMismatches then Some({PredicateMismatch}) else None
  {
    var a := Absorb(r, o, t);
    CountedFold(oracle, r, o, t);
    ViolationIs(oracle, a.tally, o);
    CauseSplits(oracle, a.tally.samples, o);
    hide Folded, Violation, Kept, Judge, Elapsed, Misses, Cause;
    JudgedFold(oracle, a, o);
    JudgeCounts(oracle, a, o);
  }

  lemma JudgeCounts(oracle: TelemetryOracle, r: StepResult, o: Observation)
    ensures Judge(oracle, r, o).tally.observationCount == r.tally.observationCount
  {
  }

  lemma LookNeverFails(step: ScenarioStep, oracle: TelemetryOracle, q: seq<Sample>, elapsed: int, w: Settle,
                       verdict: Option<Verdict>, check: int, after: StepResult)
    requires Looked(step, oracle, q, elapsed, w, verdict, check, after)
    ensures !after.status.Failed?
  {
    hide ContractHolds;
  }

  /** Mismatches come last among the causes, and only for an active step. */
  lemma CauseSplits(oracle: TelemetryOracle, q: seq<Sample>, o: Observation)
    ensures Cause(oracle, q, o, false).Some? ==> Cause(oracle, q, o, true) == Cause(oracle, q, o, false)
    ensures Cause(oracle, q, o, false).None? ==>
              Cause(oracle, q, o, true)
              == if |Misses(oracle, q)| > oracle.maxMismatches then Some({PredicateMismatch}) else None
  {
    hide AboveExact, AboveMaximum, Dropping, TooSlow, Misses;
  }

  lemma KeptShape(oracle: TelemetryOracle, w: Settle, o: Observation)
    requires WindowShape(oracle, w)
    ensures WindowShape(oracle, Kept(oracle, w, o)) && Kept(oracle, w, o).satisfied == w.satisfied
  {
    hide Unsettles;
  }

  // ---- the time limit ----

  /** What a step that ran out of time is reported to lack. */
  ghost predicate Lacks(step: ScenarioStep, r: StepResult, c: FailureCode) {
    var q := r.tally.samples;
    match c
    case TimeLimitExceeded => true
    case OracleNotSatisfied => step.oracle.Some? && |Hits(step.oracle.value, q)| < step.oracle.value.minMatchingObservations
    case RequiredEventMissing => step.oracle.Some? && BelowRequired(step.oracle.value, q)
    case ExactEventCountMismatch => step.oracle.Some? && OffExact(step.oracle.value, q)
    case MaxEventCountExceeded => step.oracle.Some? && AboveMaximum(step.oracle.value, q)
    case SettleWindowIncomplete => step.oracle.Some? && r.settle.startedAt.Some?
    case LatencyExceeded => step.oracle.Some? && !FastEnough(step.oracle.value, q)
    case _ => false
  }

  /** Out of time: BLOCKED if nothing was consumed, otherwise FAILED with exactly the codes of what is lacking. */
  ghost predicate TimedOut(step: ScenarioStep, r: StepResult, after: StepResult) {
    && after.tally == r.tally
    && if r.tally.samples == [] then
         after.status.Blocked? && after.failureCodes == {NoTelemetry} && after.evidenceClass == r.evidenceClass
       else
         && after.status.Failed? && (forall c :: c in after.failureCodes <==> Lacks(step, r, c))
         && after.evidenceClass == if r.manualVerdict.Some? then HybridEvidence else TelemetryOnly
  }

  lemma TimeoutOutcome(step: ScenarioStep, hasObserver: bool, r: StepResult, now: int, t: int)
    requires StepInv(step, hasObserver, r, now) && r.status.Active?
    ensures TimedOut(step, r, Timeout(step, r, t).result)
  {
    if step.oracle.Some? {
      OpenStep(step, hasObserver, step.oracle.value, r, now);
      FoldCounts(step.oracle.value, r.tally);
      if r.tally.samples != [] {
        TimeoutCodesMean(step, r);
        FailedAs(step, r, TimeoutCodes(step, r), t);
      }
      hide StepInv, Folded, TimeoutCodes, Lacks, FinishTiming;
    } else {
      NoContract(step, hasObserver, r, now);
      hide StepInv, TimeoutCodes, Lacks, FinishTiming;
    }
  }

  lemma NoContract(step: ScenarioStep, hasObserver: bool, r: StepResult, now: int)
    requires StepInv(step, hasObserver, r, now) && step.oracle.None?
    ensures r.tally == NO_TALLY
  {
    hide TimingInv, SettleInv, VerdictInv;
  }

  lemma TimeoutCodesMean(step: ScenarioStep, r: StepResult)
    requires step.oracle.Some? && Folded(step.oracle.value, r.tally) && !r.settle.satisfied
    requires r.tally.judged == |r.tally.samples|
    ensures forall c :: c in TimeoutCodes(step, r) <==> Lacks(step, r, c)
  {
    hide Folded, RequiredMissing, ExactMissed, MaximumExceeded, LatencyWithin, BelowRequired, OffExact, AboveMaximum,
      FastEnough, Hits, TimeoutCodes;
    forall c ensures c in TimeoutCodes(step, r) <==> Lacks(step, r, c) {
      CodeByCode(step, r, c);
    }
  }

  lemma CodeByCode(step: ScenarioStep, r: StepResult, c: FailureCode)
    requires step.oracle.Some? && Folded(step.oracle.value, r.tally) && !r.settle.satisfied
    requires r.tally.judged == |r.tally.samples|
    ensures c in TimeoutCodes(step, r) <==> Lacks(step, r, c)
  {
    hide Folded, RequiredMissing, ExactMissed, MaximumExceeded, LatencyWithin, BelowRequired, OffExact, AboveMaximum,
      FastEnough, Hits, TimeoutCodes;
    TimeoutCodesAre(step, r, c);
    CountersSay(step.oracle.value, r.tally);
  }

  lemma CountersSay(oracle: TelemetryOracle, y: Tally)
    requires Folded(oracle, y) && y.judged == |y.samples|
    ensures y.matchingObservations == |Hits(oracle, y.samples)|
    ensures RequiredMissing(oracle, y) <==> BelowRequired(oracle, y.samples)
    ensures ExactMissed(oracle, y) <==> OffExact(oracle, y.samples)
    ensures MaximumExceeded(oracle, y) <==> AboveMaximum(oracle, y.samples)
    ensures LatencyWithin(oracle, y) <==> FastEnough(oracle, y.samples)
  {
    hide Folded, FoldsCounts, FoldsMeasures, OracleSatisfied, ContractHolds, Hits, Misses;
    FoldCounts(oracle, y);
    EventsAreCounted(oracle, y);
    MeasuresAreSamples(oracle, y);
    SatisfiedIff(oracle, y, 0);
  }

  lemma TimeoutCodesAre(step: ScenarioStep, r: StepResult, c: FailureCode)
    requires step.oracle.Some? && !r.settle.satisfied
    ensures var oracle, y := step.oracle.value, r.tally;
            c in TimeoutCodes(step, r) <==>
            || c.TimeLimitExceeded?
            || (c.OracleNotSatisfied? && y.matchingObservations < oracle.minMatchingObservations)
            || (c.RequiredEventMissing? && RequiredMissing(oracle, y))
            || (c.ExactEventCountMismatch? && ExactMissed(oracle, y))
            || (c.MaxEventCountExceeded? && MaximumExceeded(oracle, y))
            || (c.SettleWindowIncomplete? && r.settle.startedAt.Some?)
            || (c.LatencyExceeded? && !LatencyWithin(oracle, y))
  {
    hide RequiredMissing, ExactMissed, MaximumExceeded, LatencyWithin;
  }
}
