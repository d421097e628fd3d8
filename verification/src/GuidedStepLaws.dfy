/**
 What every transition keeps true of one step result: its pause ledger, its telemetry state as a fold of the
 consumed samples, the limits an open or passed step respects, its settle window and why it passed.
 */
module GuidedStepLaws {
  import opened Wrappers
  import opened GuidedModels
  import opened GuidedSteps
  import Percentiles

  // ---- the pause ledger ----

  function Total(xs: seq<Interval>): int {
    if xs == [] then 0 else Total(xs[..|xs| - 1]) + (xs[|xs| - 1].to - xs[|xs| - 1].from)
  }

  /** The unpaused stretches follow each other and end by `bound`. */
  ghost predicate Consecutive(xs: seq<Interval>, bound: int) {
    && (forall i :: 0 <= i < |xs| ==> xs[i].from <= xs[i].to <= bound)
    && (forall i, j :: 0 <= i < j < |xs| ==> xs[i].to <= xs[j].from)
  }

  /** Running total, pause account and log agree, whether the step runs, is paused, or never started. */
  ghost predicate Ledger(c: Timing, now: int) {
    && Consecutive(c.intervals, if c.openedAt.Some? then c.openedAt.value else now)
    && (c.startedAt.None? ==>
          c.intervals == [] && c.openedAt.None? && c.pausedAt.None? && c.accumulatedPauseMs == 0)
    && (c.openedAt.Some? ==>
          && c.startedAt.Some? && c.pausedAt.None? && c.openedAt.value <= now
          && c.startedAt.value + c.accumulatedPauseMs + Total(c.intervals) == c.openedAt.value)
    && (c.pausedAt.Some? ==>
          && c.startedAt.Some? && c.openedAt.None? && c.pausedAt.value <= now
          && c.startedAt.value + c.accumulatedPauseMs + Total(c.intervals) == c.pausedAt.value)
  }

  ghost predicate TimingInv(status: StepStatus, c: Timing, now: int) {
    && Ledger(c, now)
    && (status.Pending? ==> c == NO_TIMING)
    && (status.Active? || status.AwaitingFeedback? ==> c.openedAt.Some? && c.endedAt.None?)
    && (status.Paused? ==> c.pausedAt.Some? && c.endedAt.None?)
    && (c.endedAt.Some? ==> c.openedAt.None? && c.pausedAt.None? && c.durationMs == Total(c.intervals))
  }

  lemma {:induction false} TotalNonNegative(xs: seq<Interval>, bound: int)
    requires Consecutive(xs, bound)
    ensures Total(xs) >= 0
  {
    if xs != [] {
      TotalNonNegative(xs[..|xs| - 1], bound);
    }
  }

  lemma TotalAppend(xs: seq<Interval>, x: Interval)
    ensures Total(xs + [x]) == Total(xs) + (x.to - x.from)
  {
    assert (xs + [x])[..|xs|] == xs;
  }

  /** While a step runs, the elapsed time is what the log adds up to; the clamp at zero never acts. */
  lemma ElapsedRunning(c: Timing, now: int, t: int)
    requires Ledger(c, now) && c.openedAt.Some? && now <= t
    ensures Elapsed(c, t) == Total(c.intervals) + (t - c.openedAt.value)
    ensures Elapsed(c, t) == t - c.startedAt.value - c.accumulatedPauseMs
  {
    TotalNonNegative(c.intervals, c.openedAt.value);
  }

  /** While a step is paused the elapsed time does not move, and resuming leaves it where it was. */
  lemma ElapsedFrozenByPause(c: Timing, r: StepResult, now: int, t: int)
    requires Ledger(c, now) && c.pausedAt.Some? && now <= t && r.timing == c
    ensures Elapsed(c, t) == Total(c.intervals) == Elapsed(c, c.pausedAt.value)
    ensures Elapsed(Resume(r, t).result.timing, t) == Elapsed(c, t)
  {
    TotalNonNegative(c.intervals, now);
  }

  lemma LedgerActivate(r: StepResult, t: int)
    requires r.timing == NO_TIMING
    ensures forall cs :: TimingInv(Active, Activate(r, cs, t).result.timing, t)
  {
  }

  lemma LedgerPause(r: StepResult, now: int, t: int)
    requires TimingInv(Active, r.timing, now) && now <= t
    ensures TimingInv(StepStatus.Paused, Pause(r, t).result.timing, t)
  {
    TotalAppend(r.timing.intervals, Interval(r.timing.openedAt.value, t));
  }

  lemma LedgerResume(r: StepResult, now: int, t: int)
    requires TimingInv(StepStatus.Paused, r.timing, now) && now <= t
    ensures TimingInv(Active, Resume(r, t).result.timing, t)
  {
  }

  /** Finishing while running, paused or never started: the duration is the sum of the unpaused stretches. */
  lemma LedgerFinish(status: StepStatus, c: Timing, now: int, t: int)
    requires Ledger(c, now) && now <= t
    requires c.startedAt.None? || c.openedAt.Some? || c.pausedAt.Some?
    requires status.Passed? || status.Failed? || status.Blocked?
    ensures TimingInv(status, FinishTiming(c, t), t)
    ensures FinishTiming(c, t).endedAt == Some(t)
    ensures FinishTiming(c, t).durationMs == Elapsed(c, t)
  {
    TotalNonNegative(c.intervals, if c.openedAt.Some? then c.openedAt.value else now);
    if c.openedAt.Some? {
      TotalAppend(c.intervals, Interval(c.openedAt.value, t));
    }
  }

  // ---- telemetry as a fold ----

  function Events(samples: seq<Sample>): seq<Option<string>> {
    seq(|samples|, i requires 0 <= i < |samples| => samples[i].observation.event)
  }

  function Marks(oracle: TelemetryOracle, samples: seq<Sample>): seq<bool> {
    seq(|samples|, i requires 0 <= i < |samples| => Matches(oracle, samples[i].observation))
  }

  function Latencies(samples: seq<Sample>): seq<nat> {
    if samples == [] then [] else
      var last := samples[|samples| - 1].observation.latency;
      Latencies(samples[..|samples| - 1]) + (if last.Some? then [last.value] else [])
  }

  ghost predicate Window(marks: seq<bool>, from: nat, length: nat) {
    from + length <= |marks| && forall i :: from <= i < from + length ==> marks[i]
  }

  /** `k` is the length of the run of matches that ends the log. */
  ghost predicate IsSuffixRun(marks: seq<bool>, k: nat) {
    k <= |marks| && Window(marks, |marks| - k, k) && (k == |marks| || !marks[|marks| - k - 1])
  }

  /** `k` is the length of the longest run of matches anywhere in the log. */
  ghost predicate IsLongestRun(marks: seq<bool>, k: nat) {
    && (exists from: nat :: Window(marks, from, k))
    && (forall from: nat, n: nat :: Window(marks, from, n) ==> n <= k)
  }

  /** `d` is the largest growth of the drop counter over its first reading, never negative. */
  ghost predicate IsDropDelta(samples: seq<Sample>, d: int) {
    && d >= 0
    && (forall i :: 0 <= i < |samples| ==> samples[i].observation.drops - samples[0].observation.drops <= d)
    && (d != 0 ==>
          exists i :: 0 <= i < |samples| && samples[i].observation.drops - samples[0].observation.drops == d)
  }

  ghost predicate CountsEvents(y: Tally) {
    forall e: string :: EventCount(y.eventCounts, e) == if e == "" then 0 else multiset(Events(y.samples))[Some(e)]
  }

  ghost predicate FoldsCounts(y: Tally) {
    && |y.observationIds| == y.observationCount == |y.samples|
    && (forall i :: 0 <= i < |y.samples| ==> y.observationIds[i] == y.samples[i].observation.id)
    && CountsEvents(y)
  }

  ghost predicate FoldsMeasures(y: Tally) {
    && y.initialDrops == (if y.samples == [] then None else Some(y.samples[0].observation.drops))
    && IsDropDelta(y.samples, y.dropDelta)
    && y.latencySamples == LastOf(Latencies(y.samples), LATENCY_WINDOW)
    && y.p95Latency == Percentiles.P95(y.latencySamples)
  }

  ghost predicate FoldsMarks(y: Tally, marks: seq<bool>) {
    && y.matchingObservations == multiset(marks)[true]
    && y.mismatches == multiset(marks)[false]
    && IsSuffixRun(marks, y.consecutiveMatches)
    && IsLongestRun(marks, y.peakConsecutiveMatches)
  }

  /** Every incremental counter equals its recomputation from the consumed samples. */
  ghost predicate Folded(oracle: TelemetryOracle, y: Tally) {
    && FoldsCounts(y)
    && FoldsMeasures(y)
    && y.judged <= |y.samples|
    && FoldsMarks(y, Marks(oracle, y.samples[..y.judged]))
  }

  lemma FoldEmpty(oracle: TelemetryOracle)
    ensures Folded(oracle, NO_TALLY)
  {
    var marks := Marks(oracle, NO_TALLY.samples[..0]);
    assert marks == [];
    assert Window(marks, 0, 0);
  }

  /** The last `n` elements, or all of a shorter list. */
  lemma LastOfIsTail<T>(s: seq<T>, n: nat)
    ensures |LastOf(s, n)| == (if |s| < n then |s| else n) && s[..|s| - |LastOf(s, n)|] + LastOf(s, n) == s
  {
  }

  lemma LastOfAppend<T>(s: seq<T>, x: T, n: nat)
    ensures LastOf(LastOf(s, n) + [x], n) == LastOf(s + [x], n)
  {
  }

  lemma AbsorbFoldsCounts(r: StepResult, o: Observation, t: int)
    requires FoldsCounts(r.tally)
    ensures FoldsCounts(Absorb(r, o, t).tally)
  {
    var y, z := r.tally, Absorb(r, o, t).tally;
    assert Events(z.samples) == Events(y.samples) + [o.event];
  }

  lemma LatenciesAppend(samples: seq<Sample>, x: Sample)
    ensures Latencies(samples + [x]) ==
            Latencies(samples) + (if x.observation.latency.Some? then [x.observation.latency.value] else [])
  {
    assert (samples + [x])[..|samples|] == samples;
  }

  lemma DropDeltaAppend(samples: seq<Sample>, x: Sample, d: int)
    requires IsDropDelta(samples, d)
    ensures var first := if samples == [] then x.observation.drops else samples[0].observation.drops;
            IsDropDelta(samples + [x], Max(d, x.observation.drops - first))
  {
    var next := samples + [x];
    assert next[|samples|] == x;
    assert forall i :: 0 <= i < |samples| ==> next[i] == samples[i];
    if d != 0 {
      var i :| 0 <= i < |samples| && samples[i].observation.drops - samples[0].observation.drops == d;
      assert next[i] == samples[i];
    }
  }

  lemma AbsorbFoldsMeasures(r: StepResult, o: Observation, t: int)
    requires FoldsMeasures(r.tally)
    ensures FoldsMeasures(Absorb(r, o, t).tally)
  {
    hide IsDropDelta, Latencies, LastOf, Percentiles.P95, Elapsed;
    var y, x := r.tally, Sample(o, Elapsed(r.timing, t));
    LatenciesAppend(y.samples, x);
    DropDeltaAppend(y.samples, x, y.dropDelta);
    FewLatencies(y.samples);
    if o.latency.Some? {
      LastOfAppend(Latencies(y.samples), o.latency.value, LATENCY_WINDOW);
    }
  }

  lemma FewLatencies(samples: seq<Sample>)
    ensures Latencies(samples) + [] == Latencies(samples)
  {
  }

  lemma AbsorbKeepsFold(oracle: TelemetryOracle, r: StepResult, o: Observation, t: int)
    requires Folded(oracle, r.tally)
    ensures Folded(oracle, Absorb(r, o, t).tally)
  {
    var y, z := r.tally, Absorb(r, o, t).tally;
    AbsorbFoldsCounts(r, o, t);
    AbsorbFoldsMeasures(r, o, t);
    assert z.samples[..z.judged] == y.samples[..y.judged];
  }

  lemma RunsAfterMatch(marks: seq<bool>, suffix: nat, peak: nat)
    requires IsSuffixRun(marks, suffix) && IsLongestRun(marks, peak)
    ensures IsSuffixRun(marks + [true], suffix + 1)
    ensures IsLongestRun(marks + [true], Max(peak, suffix + 1))
  {
    var next := marks + [true];
    var from: nat :| Window(marks, from, peak);
    assert Window(next, from, peak);
    assert Window(next, |marks| - suffix, suffix + 1);
    forall f: nat, n: nat | Window(next, f, n) ensures n <= Max(peak, suffix + 1) {
      if f + n <= |marks| {
        assert forall i :: f <= i < f + n ==> marks[i] == next[i];
        assert Window(marks, f, n);
      } else if suffix < |marks| {
        assert !next[|marks| - suffix - 1];
      }
    }
  }

  lemma RunsAfterMismatch(marks: seq<bool>, peak: nat)
    requires IsLongestRun(marks, peak)
    ensures IsSuffixRun(marks + [false], 0)
    ensures IsLongestRun(marks + [false], peak)
  {
    var next := marks + [false];
    var from: nat :| Window(marks, from, peak);
    assert Window(next, from, peak);
    assert !next[|marks|];
    forall f: nat, n: nat | Window(next, f, n) ensures n <= peak {
      if f + n <= |marks| {
        assert forall i :: f <= i < f + n ==> marks[i] == next[i];
        assert Window(marks, f, n);
      }
    }
  }

  lemma MarksAppend(oracle: TelemetryOracle, samples: seq<Sample>, x: Sample)
    ensures Marks(oracle, samples + [x]) == Marks(oracle, samples) + [Matches(oracle, x.observation)]
  {
  }

  lemma JudgeFoldsMarks(oracle: TelemetryOracle, y: Tally, o: Observation, marks: seq<bool>)
    requires FoldsMarks(y, marks)
    ensures FoldsMarks(JudgeTally(oracle, y, o), marks + [Matches(oracle, o)])
  {
    if Matches(oracle, o) {
      RunsAfterMatch(marks, y.consecutiveMatches, y.peakConsecutiveMatches);
    } else {
      RunsAfterMismatch(marks, y.peakConsecutiveMatches);
    }
  }

  lemma JudgeLeavesMeasures(oracle: TelemetryOracle, y: Tally, o: Observation)
    requires FoldsCounts(y) && FoldsMeasures(y)
    ensures FoldsCounts(JudgeTally(oracle, y, o)) && FoldsMeasures(JudgeTally(oracle, y, o))
    ensures JudgeTally(oracle, y, o).judged == y.judged + 1 && JudgeTally(oracle, y, o).samples == y.samples
  {
    hide Matches, IsDropDelta, Latencies, LastOf, Percentiles.P95;
  }

  lemma JudgeKeepsFold(oracle: TelemetryOracle, y: Tally, o: Observation)
    requires Folded(oracle, y)
    requires y.judged + 1 == |y.samples| && y.samples[y.judged].observation == o
    ensures Folded(oracle, JudgeTally(oracle, y, o))
  {
    hide FoldsCounts, FoldsMeasures, FoldsMarks, Marks, Matches;
    var z := JudgeTally(oracle, y, o);
    var marks := Marks(oracle, y.samples[..y.judged]);
    JudgeLeavesMeasures(oracle, y, o);
    JudgeFoldsMarks(oracle, y, o, marks);
    MarksAppend(oracle, y.samples[..y.judged], y.samples[y.judged]);
    assert z.samples[..z.judged] == y.samples[..y.judged] + [y.samples[y.judged]];
  }

  /** As long as every sample was judged, each one is either a match or a mismatch. */
  lemma JudgedSamplesSplit(oracle: TelemetryOracle, y: Tally)
    requires Folded(oracle, y) && y.judged == |y.samples|
    ensures y.matchingObservations + y.mismatches == y.observationCount
  {
    var marks := Marks(oracle, y.samples[..y.judged]);
    MarksSplit(marks);
  }

  lemma {:induction false} MarksSplit(marks: seq<bool>)
    ensures multiset(marks)[true] + multiset(marks)[false] == |marks|
  {
    if marks != [] {
      var rest := marks[..|marks| - 1];
      MarksSplit(rest);
      var last := marks[|marks| - 1];
      assert marks == rest + [last];
      assert multiset(marks) == multiset(rest) + multiset{last};
    }
  }

  // ---- the limits of an open or passed step ----

  ghost predicate Lawful(oracle: TelemetryOracle, y: Tally) {
    && !ExactExceeded(oracle, y)
    && !MaximumExceeded(oracle, y)
    && y.dropDelta <= oracle.maxDropDelta
    && !LatencyExceededNow(oracle, y)
    && y.mismatches <= oracle.maxMismatches
    && (forall i :: 0 <= i < |y.samples| ==>
          !(y.samples[i].observation.event.Some?
            && y.samples[i].observation.event.value in oracle.forbiddenEvents))
  }

  ghost predicate TallyInv(step: ScenarioStep, status: StepStatus, y: Tally) {
    && (status.Pending? || step.oracle.None? ==> y == NO_TALLY)
    && (step.oracle.Some? ==>
          && Folded(step.oracle.value, y)
          && (status.Pending? || status.Active? || status.Paused? ==> y.judged == |y.samples|)
          && (!status.Failed? && !status.Blocked? ==> Lawful(step.oracle.value, y)))
  }

  /** An observation that is no violation leaves the limits intact. */
  lemma UnviolatedStaysLawful(oracle: TelemetryOracle, r: StepResult, o: Observation, t: int)
    requires Lawful(oracle, r.tally)
    requires Violation(oracle, Absorb(r, o, t).tally, o) == {}
    ensures Lawful(oracle, Absorb(r, o, t).tally)
  {
    var z := Absorb(r, o, t).tally;
    assert EventLimitFailures(oracle, z) == {};
    assert ExactEventCountMismatch !in EventLimitFailures(oracle, z);
    assert MaxEventCountExceeded !in EventLimitFailures(oracle, z);
  }

  // ---- the settle window ----

  /** No judged sample that restarts the window arrived after unpaused time `e`. */
  ghost predicate QuietSince(oracle: TelemetryOracle, y: Tally, e: int)
    requires y.judged <= |y.samples|
  {
    forall i :: 0 <= i < y.judged && Disturbs(oracle, y.samples[i].observation) ==> y.samples[i].elapsed <= e
  }

  /** Every consumed sample arrived by unpaused time `e`. */
  ghost predicate Arrived(y: Tally, e: int) {
    forall i :: 0 <= i < |y.samples| ==> y.samples[i].elapsed <= e
  }

  ghost predicate WindowShape(oracle: TelemetryOracle, s: Settle) {
    && s.startedAt.Some? == s.deadline.Some?
    && (s.startedAt.Some? ==> s.deadline.value - s.startedAt.value == oracle.settleWindowMs)
  }

  ghost predicate SettleInv(step: ScenarioStep, status: StepStatus, c: Timing, y: Tally, s: Settle, now: int) {
    && (status.Pending? || step.oracle.None? ==> s == NO_SETTLE)
    && (step.oracle.Some? ==>
          var oracle := step.oracle.value;
          && y.judged <= |y.samples|
          && WindowShape(oracle, s)
          && (status.Active? || status.Paused? ==>
                && !s.satisfied
                && Arrived(y, Elapsed(c, now))
                && (s.startedAt.Some? ==>
                      && c.startedAt.Some?
                      && QuietSince(oracle, y, s.startedAt.value - c.startedAt.value - c.accumulatedPauseMs)))
          && (s.satisfied && (status.AwaitingFeedback? || status.Passed?) ==>
                && OracleSatisfied(oracle, y, s.satisfiedAt)
                && QuietSince(oracle, y, s.satisfiedAt - oracle.settleWindowMs)
                && s.satisfiedAt <= if status.Passed? then c.durationMs else Elapsed(c, now)))
    && (status.AwaitingFeedback? ==> step.oracle.Some? && s.satisfied)
  }

  // ---- why a step passed ----

  ghost predicate Justified(step: ScenarioStep, hasObserver: bool, r: StepResult) {
    && (r.manualVerdict.Some? ==>
          r.manualVerdict.value.outcome.Passed? && Admitted(step, hasObserver, r.manualVerdict.value))
    && if step.kind.Manual? then
         && r.manualVerdict.Some?
         && (r.evidenceClass.HybridEvidence? || r.evidenceClass == ReportedClass(r.manualVerdict.value))
       else if step.Unattended() then
         r.settle.satisfied && r.manualVerdict.None? && r.evidenceClass.TelemetryOnly?
       else
         r.settle.satisfied && r.manualVerdict.Some? && r.evidenceClass.HybridEvidence?
  }

  ghost predicate VerdictInv(step: ScenarioStep, hasObserver: bool, r: StepResult) {
    && (r.status.Pending? || r.status.AwaitingFeedback? ==> r.manualVerdict.None?)
    && (!r.Terminal() && r.manualVerdict.None? ==> r.evidenceClass.Unknown?)
    && (!r.Terminal() && r.manualVerdict.Some? ==>
          && r.manualVerdict.value.outcome.Passed?
          && Admitted(step, hasObserver, r.manualVerdict.value)
          && r.evidenceClass == ReportedClass(r.manualVerdict.value)
          && !step.kind.Manual?)
    && (step.Unattended() ==> r.manualVerdict.None? && !r.status.AwaitingFeedback?)
    && (r.status.Passed? ==> Justified(step, hasObserver, r))
  }

  /** A step that was ever started had all its required conditions confirmed, and no step passes without a start. */
  ghost predicate ConditionsInv(step: ScenarioStep, r: StepResult) {
    && (r.timing.startedAt.Some? ==> step.requiredConditions <= r.confirmedConditions)
    && (r.status.Passed? ==> r.timing.startedAt.Some?)
  }

  /** A failed or blocked verdict decides its step, with the code of whoever reported it. */
  ghost predicate VerdictStands(r: StepResult) {
    r.manualVerdict.Some? ==>
      var v := r.manualVerdict.value;
      && (v.outcome.Failed? ==>
            r.status.Failed? && r.failureCodes == {if v.reporter.Observer? then ObserverFailed else UserFailed})
      && (v.outcome.Blocked? ==> r.status.Blocked? && r.failureCodes == {UserBlocked})
  }

  ghost predicate StepInv(step: ScenarioStep, hasObserver: bool, r: StepResult, now: int) {
    && r.stepId == step.id && r.kind == step.kind
    && TimingInv(r.status, r.timing, now)
    && TallyInv(step, r.status, r.tally)
    && SettleInv(step, r.status, r.timing, r.tally, r.settle, now)
    && VerdictInv(step, hasObserver, r)
    && ConditionsInv(step, r)
    && VerdictStands(r)
  }

  /** Session status and current step status move together. */
  ghost predicate Coupled(status: SessionStatus, r: StepResult) {
    && (status.Running? <==> r.status.Active?)
    && (status.Paused? <==> r.status.Paused?)
    && (status.AwaitingFeedback? <==> r.status.AwaitingFeedback?)
    && (status.StepComplete? ==> r.Terminal())
    && (status.Prepared? ==> r.status.Pending?)
  }

  // ---- every transition keeps the invariant ----

  lemma FreshKeeps(step: ScenarioStep, hasObserver: bool, attempt: nat, now: int)
    ensures StepInv(step, hasObserver, FreshResult(step, attempt), now)
  {
    if step.oracle.Some? {
      FoldEmpty(step.oracle.value);
    }
  }

  lemma LaterKeeps(step: ScenarioStep, hasObserver: bool, r: StepResult, now: int, t: int)
    requires StepInv(step, hasObserver, r, now) && now <= t
    ensures StepInv(step, hasObserver, r, t)
  {
    hide TallyInv, VerdictInv, QuietSince, OracleSatisfied, Total;
    if r.status.AwaitingFeedback? || r.status.Active? {
      ElapsedRunning(r.timing, now, now);
      ElapsedRunning(r.timing, now, t);
    }
  }

  lemma ActivateKeeps(step: ScenarioStep, hasObserver: bool, r: StepResult, cs: set<string>, now: int, t: int)
    requires StepInv(step, hasObserver, r, now) && r.status.Pending? && now <= t
    requires step.requiredConditions <= cs
    ensures StepInv(step, hasObserver, Activate(r, cs, t).result, t)
  {
    LedgerActivate(r, t);
  }

  lemma PauseKeeps(step: ScenarioStep, hasObserver: bool, r: StepResult, now: int, t: int)
    requires StepInv(step, hasObserver, r, now) && r.status.Active? && now <= t
    ensures StepInv(step, hasObserver, Pause(r, t).result, t)
  {
    LedgerPause(r, now, t);
    ElapsedRunning(r.timing, now, now);
    ElapsedFrozenByPause(Pause(r, t).result.timing, Pause(r, t).result, t, t);
    TotalAppend(r.timing.intervals, Interval(r.timing.openedAt.value, t));
  }

  lemma ResumeKeeps(step: ScenarioStep, hasObserver: bool, r: StepResult, now: int, t: int)
    requires StepInv(step, hasObserver, r, now) && r.status.Paused? && now <= t
    ensures StepInv(step, hasObserver, Resume(r, t).result, t)
  {
    LedgerResume(r, now, t);
    ElapsedFrozenByPause(r.timing, r, now, t);
  }

  lemma AbortKeeps(step: ScenarioStep, hasObserver: bool, r: StepResult, now: int)
    requires StepInv(step, hasObserver, r, now)
    ensures StepInv(step, hasObserver, AbortResult(r), now)
  {
  }

  /** A step may end FAILED or BLOCKED from any open state, whatever its limits and verdict say. */
  lemma FinishDownKeeps(step: ScenarioStep, hasObserver: bool, r: StepResult, status: StepStatus,
                        codes: set<FailureCode>, now: int, t: int)
    requires r.stepId == step.id && r.kind == step.kind && !r.Terminal() && now <= t
    requires TimingInv(r.status, r.timing, now)
    requires step.oracle.None? ==> r.tally == NO_TALLY && r.settle == NO_SETTLE
    requires step.oracle.Some? ==> Folded(step.oracle.value, r.tally) && WindowShape(step.oracle.value, r.settle)
    requires step.Unattended() ==> r.manualVerdict.None?
    requires ConditionsInv(step, r)
    requires r.manualVerdict.Some? ==> VerdictStands(r.(status := status, failureCodes := codes))
    requires status.Failed? || status.Blocked?
    ensures StepInv(step, hasObserver, Finish(step, r, status, codes, t).result, t)
  {
    LedgerFinish(status, r.timing, now, t);
  }

  /** A step may end PASSED from a lawful running state that the verdict and the oracle justify. */
  lemma FinishPassedKeeps(step: ScenarioStep, hasObserver: bool, r: StepResult, now: int, t: int)
    requires step.Valid()
    requires r.stepId == step.id && r.kind == step.kind && now <= t
    requires r.status.Active? || r.status.AwaitingFeedback?
    requires TimingInv(r.status, r.timing, now)
    requires TallyInv(step, r.status, r.tally)
    requires SettleInv(step, StepStatus.AwaitingFeedback, r.timing, r.tally, r.settle, now)
             || (!r.settle.satisfied && SettleInv(step, r.status, r.timing, r.tally, r.settle, now))
    requires Justified(step, hasObserver, r) && ConditionsInv(step, r)
    ensures StepInv(step, hasObserver, Finish(step, r, StepStatus.Passed, {}, t).result, t)
  {
    hide Folded, Lawful, QuietSince, OracleSatisfied, Total;
    LedgerFinish(StepStatus.Passed, r.timing, now, t);
    ElapsedRunning(r.timing, now, now);
    ElapsedRunning(r.timing, now, t);
  }

  lemma BlockKeeps(step: ScenarioStep, hasObserver: bool, r: StepResult, now: int, t: int)
    requires StepInv(step, hasObserver, r, now) && !r.Terminal() && now <= t
    ensures StepInv(step, hasObserver, Block(step, r, t).result, t)
  {
    FinishDownKeeps(step, hasObserver, r.(evidenceClass := SelfReportedIfUnknown(r.evidenceClass)),
                    StepStatus.Blocked, {UserBlocked}, now, t);
  }

  lemma TimeoutKeeps(step: ScenarioStep, hasObserver: bool, r: StepResult, now: int, t: int)
    requires StepInv(step, hasObserver, r, now) && !r.Terminal() && now <= t
    ensures StepInv(step, hasObserver, Timeout(step, r, t).result, t)
  {
    if r.tally.observationCount == 0 {
      FinishDownKeeps(step, hasObserver, r, StepStatus.Blocked, {NoTelemetry}, now, t);
    } else {
      FinishDownKeeps(step, hasObserver, r, StepStatus.Failed, TimeoutCodes(step, r), now, t);
    }
  }
}
