/**
 The quality gate: which results block a release, the rounded pass-rate test, and the decision.
 Rates are exact: a rate is held in hundredths of a percent, rounded half to even.
 */
module QualityGate {
  import opened Permutations
  import opened Wrappers
  import GuidedModels

  datatype ResultStatus = Passed | Failed | Flaky | Blocked | Skipped | NotApplicable | InfraError

  datatype TestMode =
    | Quick | Development | Integration | Standard | Strict | ReleaseGate | ProductionSafe | Maintenance
    | ExploratoryAi
  {
    predicate Demanding() {
      Strict? || ReleaseGate?
    }
  }

  datatype Decision = Pass | PassWithWarning | ManualReview | Fail | Blocked

  /** `coverage` is in hundredths of a percent; `evidenced` says that both path and digest are present. */
  datatype TestResult = TestResult(
    testId: string,
    testType: string,
    status: ResultStatus,
    severity: GuidedModels.Severity,
    criticalFlow: bool,
    mismatchCount: Option<nat>,
    coverage: Option<nat>,
    sampleCount: Option<nat>,
    evidenced: bool,
    oracle: Option<string>,
    deterministic: bool)

  /** `compatibilityTypes` is empty unless an emulator is gated; `fullCoverageTypes` demand complete coverage. */
  datatype GateRequest = GateRequest(
    mode: TestMode,
    results: seq<TestResult>,
    requiredTypes: set<string>,
    compatibilityTypes: set<string>,
    fullCoverageTypes: set<string>)

  datatype Blocker =
    | MissingTypes(types: set<string>)
    | CriticalFailures(n: nat)
    | HighFailures(n: nat)
    | CriticalFlowFailures(n: nat)
    | ExecutionBlocked
    | NoMismatchEvidence(id: string)
    | Mismatches(id: string)
    | NoSampleEvidence(id: string)
    | NoCoverageEvidence(id: string)
    | CoverageIncomplete(id: string)
    | NoEvidence(id: string)
    | NoIndependentOracle(id: string)
    | NotDeterministic(id: string)
    | PassRateBelow(rate: int)

  datatype GateResponse = GateResponse(
    decision: Decision,
    passRate: int,
    counts: map<ResultStatus, nat>,
    blockers: seq<Blocker>,
    flakyWarning: bool,
    releaseRecommended: bool,
    humanApprovalRequired: bool)

  // ---- counting ----

  /** What a result is counted for. */
  datatype Criterion = Eligible | CriticalFailure | HighFailure | CriticalFlowMiss | Status(status: ResultStatus)

  predicate Meets(r: TestResult, c: Criterion) {
    match c
    case Eligible => !r.status.Skipped? && !r.status.NotApplicable?
    case CriticalFailure => r.status.Failed? && r.severity.Critical?
    case HighFailure => r.status.Failed? && r.severity.High?
    case CriticalFlowMiss => r.criticalFlow && !r.status.Passed?
    case Status(s) => r.status == s
  }

  function Count(results: seq<TestResult>, c: Criterion): nat {
    if results == [] then 0
    else Count(results[..|results| - 1], c) + (if Meets(results[|results| - 1], c) then 1 else 0)
  }

  function PassRate(passed: nat, eligible: nat): int {
    if eligible == 0 then 0 else RoundHalfEven(10_000 * passed, eligible)
  }

  /** The minimum pass rate, in hundredths of a percent. */
  function Minimum(mode: TestMode): int {
    if mode.Demanding() then 9_800 else 9_000
  }

  // ---- what blocks ----

  /** The compatibility evidence one passed result fails to bring. */
  function CompatibilityBlockers(q: GateRequest, r: TestResult): seq<Blocker> {
    if !r.status.Passed? then []
    else
      (if r.mismatchCount.None? then [NoMismatchEvidence(r.testId)]
       else if r.mismatchCount.value != 0 then [Mismatches(r.testId)] else [])
      + (if r.sampleCount.None? || r.sampleCount.value == 0 then [NoSampleEvidence(r.testId)] else [])
      + (if r.testType !in q.fullCoverageTypes then []
         else if r.coverage.None? then [NoCoverageEvidence(r.testId)]
         else if r.coverage.value < 10_000 then [CoverageIncomplete(r.testId)] else [])
      + (if q.mode.Demanding() && !r.evidenced then [NoEvidence(r.testId)] else [])
      + (if r.testType == "differential-oracle" && (r.oracle.None? || r.oracle.value == "")
         then [NoIndependentOracle(r.testId)] else [])
      + (if r.testType == "deterministic-replay" && !r.deterministic then [NotDeterministic(r.testId)] else [])
  }

  function AllCompatibilityBlockers(q: GateRequest, results: seq<TestResult>): seq<Blocker> {
    if results == [] then [] else
      var last := results[|results| - 1];
      AllCompatibilityBlockers(q, results[..|results| - 1])
      + (if last.testType in q.compatibilityTypes then CompatibilityBlockers(q, last) else [])
  }

  /** No missing, ambiguous or incomplete compatibility evidence on this result. */
  predicate CompatibilityProven(q: GateRequest, r: TestResult) {
    r.testType in q.compatibilityTypes && r.status.Passed? ==>
      && r.mismatchCount == Some(0)
      && r.sampleCount.Some? && r.sampleCount.value > 0
      && (r.testType in q.fullCoverageTypes ==> r.coverage.Some? && r.coverage.value >= 10_000)
      && (q.mode.Demanding() ==> r.evidenced)
      && (r.testType == "differential-oracle" ==> r.oracle.Some? && r.oracle.value != "")
      && (r.testType == "deterministic-replay" ==> r.deterministic)
  }

  /** The compatibility loop: every affected result adds its blockers in turn. */
  method CollectCompatibility(q: GateRequest) returns (blockers: seq<Blocker>)
    ensures blockers == AllCompatibilityBlockers(q, q.results)
  {
    blockers := [];
    for i := 0 to |q.results|
      invariant blockers == AllCompatibilityBlockers(q, q.results[..i])
    {
      assert q.results[..i + 1][..i] == q.results[..i];
      if q.results[i].testType in q.compatibilityTypes {
        blockers := blockers + CompatibilityBlockers(q, q.results[i]);
      }
    }
    assert q.results[..|q.results|] == q.results;
  }

  /** The gate as the source computes it: blockers collected in order, then the decision. */
  method Evaluate(q: GateRequest) returns (r: GateResponse)
    ensures r == Gate(q)
  {
    hide CompatibilityBlockers, Count, PassRate, StatusCounts, MissingTypesOf, AllCompatibilityBlockers;
    var blockers: seq<Blocker> := [];
    var passRate := RateOf(q);
    var missing := MissingTypesOf(q);
    if missing != {} { blockers := blockers + [MissingTypes(missing)]; }
    var critical := Count(q.results, CriticalFailure);
    if critical > 0 { blockers := blockers + [CriticalFailures(critical)]; }
    var high := Count(q.results, HighFailure);
    if high > 0 { blockers := blockers + [HighFailures(high)]; }
    var flow := Count(q.results, CriticalFlowMiss);
    if flow > 0 { blockers := blockers + [CriticalFlowFailures(flow)]; }
    var stopped := Stopped(q);
    if stopped { blockers := blockers + [ExecutionBlocked]; }
    var compatibility := CollectCompatibility(q);
    blockers := blockers + compatibility;
    if passRate < Minimum(q.mode) { blockers := blockers + [PassRateBelow(passRate)]; }
    assert blockers == Blockers(q);
    var flaky := Count(q.results, Status(Flaky)) > 0;
    var decision;
    if blockers != [] {
      decision := if stopped then Decision.Blocked else Fail;
    } else if flaky && q.mode.Demanding() {
      decision := ManualReview;
    } else if flaky {
      decision := PassWithWarning;
    } else {
      decision := Pass;
    }
    var manual := decision == ManualReview || q.mode.ReleaseGate?;
    r := GateResponse(decision, passRate, StatusCounts(q.results), blockers, flaky, decision == Pass && !manual, manual);
  }

  function Types(results: seq<TestResult>): set<string> {
    set r | r in results :: r.testType
  }

  function MissingTypesOf(q: GateRequest): set<string> {
    (q.requiredTypes + q.compatibilityTypes) - Types(q.results)
  }

  function StatusCounts(results: seq<TestResult>): map<ResultStatus, nat> {
    map s | s in (set r | r in results :: r.status) :: Count(results, Status(s))
  }

  predicate Stopped(q: GateRequest) {
    Count(q.results, Status(ResultStatus.Blocked)) > 0 || Count(q.results, Status(InfraError)) > 0
  }

  function RateOf(q: GateRequest): int {
    PassRate(Count(q.results, Status(Passed)), Count(q.results, Eligible))
  }

  function Raise(blockers: seq<Blocker>, condition: bool, b: Blocker): seq<Blocker> {
    if condition then blockers + [b] else blockers
  }

  function Blockers(q: GateRequest): seq<Blocker> {
    var b0 := Raise([], MissingTypesOf(q) != {}, MissingTypes(MissingTypesOf(q)));
    var b1 := Raise(b0, Count(q.results, CriticalFailure) > 0, CriticalFailures(Count(q.results, CriticalFailure)));
    var b2 := Raise(b1, Count(q.results, HighFailure) > 0, HighFailures(Count(q.results, HighFailure)));
    var b3 := Raise(b2, Count(q.results, CriticalFlowMiss) > 0, CriticalFlowFailures(Count(q.results, CriticalFlowMiss)));
    var b4 := Raise(b3, Stopped(q), ExecutionBlocked);
    var b5 := b4 + AllCompatibilityBlockers(q, q.results);
    Raise(b5, RateOf(q) < Minimum(q.mode), PassRateBelow(RateOf(q)))
  }

  function DecisionOf(q: GateRequest): Decision {
    var flaky := Count(q.results, Status(Flaky)) > 0;
    if Blockers(q) != [] then (if Stopped(q) then Decision.Blocked else Fail)
    else if flaky && q.mode.Demanding() then ManualReview
    else if flaky then PassWithWarning
    else Pass
  }

  function Gate(q: GateRequest): GateResponse {
    var manual := DecisionOf(q) == ManualReview || q.mode.ReleaseGate?;
    GateResponse(DecisionOf(q), RateOf(q), StatusCounts(q.results), Blockers(q), Count(q.results, Status(Flaky)) > 0,
                 DecisionOf(q) == Pass && !manual, manual)
  }

  // ---- what the decision means ----

  lemma {:induction false} CountZero(results: seq<TestResult>, c: Criterion)
    ensures Count(results, c) == 0 <==> forall r :: r in results ==> !Meets(r, c)
  {
    if results != [] {
      var init, last := results[..|results| - 1], results[|results| - 1];
      CountZero(init, c);
      assert results == init + [last];
    }
  }

  lemma CompatibilityBlockersEmpty(q: GateRequest, r: TestResult)
    requires r.testType in q.compatibilityTypes
    ensures CompatibilityBlockers(q, r) == [] <==> CompatibilityProven(q, r)
  {
  }

  lemma {:induction false} AllCompatibilityBlockersEmpty(q: GateRequest, results: seq<TestResult>)
    ensures AllCompatibilityBlockers(q, results) == [] <==> forall r :: r in results ==> CompatibilityProven(q, r)
  {
    if results != [] {
      var init, last := results[..|results| - 1], results[|results| - 1];
      AllCompatibilityBlockersEmpty(q, init);
      assert results == init + [last];
      if last.testType in q.compatibilityTypes {
        CompatibilityBlockersEmpty(q, last);
      }
    }
  }

  /** The rounded ninety-percent test is an exact linear test on the counts. */
  lemma RoundedRateAccepts(passed: nat, eligible: nat, minimum: int)
    requires eligible > 0 && minimum % 2 == 0
    ensures PassRate(passed, eligible) >= minimum <==> 20_000 * passed >= (2 * minimum - 1) * eligible
  {
    var n, q, r := eligible, 10_000 * passed / eligible, 10_000 * passed % eligible;
    assert 10_000 * passed == q * n + r;
    if q >= minimum {
      assert q * n >= minimum * n by { MulMonotone(minimum, q, n); }
      assert (2 * minimum - 1) * n == 2 * (minimum * n) - n;
    } else if q == minimum - 1 {
      assert q * n == minimum * n - n;
      assert (2 * minimum - 1) * n == 2 * (minimum * n) - n;
    } else {
      assert q * n <= minimum * n - 2 * n by { MulMonotone(q, minimum - 2, n); }
      assert (2 * minimum - 1) * n == 2 * (minimum * n) - n;
    }
  }

  lemma MulMonotone(a: int, b: int, n: nat)
    requires a <= b
    ensures a * n <= b * n
  {
  }

  /** The rounded test agrees with the exact ratio on every suite below two thousand, respectively four hundred. */
  lemma RoundedRateAgrees(passed: nat, eligible: nat)
    requires eligible > 0
    ensures PassRate(passed, eligible) >= 9_000 <==> 20_000 * passed >= 17_999 * eligible
    ensures PassRate(passed, eligible) >= 9_800 <==> 20_000 * passed >= 19_599 * eligible
    ensures eligible < 2_000 ==> (PassRate(passed, eligible) >= 9_000 <==> 10 * passed >= 9 * eligible)
    ensures eligible < 400 ==> (PassRate(passed, eligible) >= 9_800 <==> 50 * passed >= 49 * eligible)
  {
    RoundedRateAccepts(passed, eligible, 9_000);
    RoundedRateAccepts(passed, eligible, 9_800);
  }

  /** Above that size rounding does accept suites below the stated rate: 1808 of 2009 is under ninety percent. */
  lemma RoundedRateTooLenient()
    ensures PassRate(1_808, 2_009) >= 9_000 && 10 * 1_808 < 9 * 2_009
  {
    RoundedRateAccepts(1_808, 2_009, 9_000);
  }

  lemma NoBlockers(q: GateRequest)
    ensures Blockers(q) == [] <==>
            && MissingTypesOf(q) == {}
            && Count(q.results, CriticalFailure) == 0
            && Count(q.results, HighFailure) == 0
            && Count(q.results, CriticalFlowMiss) == 0
            && !Stopped(q)
            && AllCompatibilityBlockers(q, q.results) == []
            && RateOf(q) >= Minimum(q.mode)
  {
    hide AllCompatibilityBlockers, Count, RateOf, MissingTypesOf;
  }

  /** Nothing about this result stands in the way of a plain PASS. */
  predicate Clean(q: GateRequest, r: TestResult) {
    && !(r.status.Failed? && (r.severity.Critical? || r.severity.High?))
    && (r.criticalFlow ==> r.status.Passed?)
    && !r.status.Blocked? && !r.status.InfraError? && !r.status.Flaky?
    && CompatibilityProven(q, r)
  }

  /** PASS, exactly: nothing missing, failed badly, missed, stopped or flaky, and enough passed. */
  lemma PassMeans(q: GateRequest)
    ensures DecisionOf(q) == Pass <==>
            && q.requiredTypes + q.compatibilityTypes <= Types(q.results)
            && (forall r :: r in q.results ==> Clean(q, r))
            && RateOf(q) >= Minimum(q.mode)
  {
    hide CompatibilityProven, RateOf, Blockers, AllCompatibilityBlockers;
    NoBlockers(q);
    var needed := q.requiredTypes + q.compatibilityTypes;
    assert MissingTypesOf(q) == {} <==> needed <= Types(q.results) by {
      assert needed <= Types(q.results) + MissingTypesOf(q);
    }
    CountZero(q.results, CriticalFailure);
    CountZero(q.results, HighFailure);
    CountZero(q.results, CriticalFlowMiss);
    CountZero(q.results, Status(ResultStatus.Blocked));
    CountZero(q.results, Status(InfraError));
    CountZero(q.results, Status(Flaky));
    AllCompatibilityBlockersEmpty(q, q.results);
  }

  // ---- every answer, on the results ----

  /** The results that passed, that count for the rate, and that have one status, by position. */
  ghost function PassedAt(results: seq<TestResult>): set<int> {
    set i | 0 <= i < |results| && results[i].status.Passed?
  }

  ghost function CountedAt(results: seq<TestResult>): set<int> {
    set i | 0 <= i < |results| && !results[i].status.Skipped? && !results[i].status.NotApplicable?
  }

  ghost function StatusAt(results: seq<TestResult>, s: ResultStatus): set<int> {
    set i | 0 <= i < |results| && results[i].status == s
  }

  ghost function CriticalAt(results: seq<TestResult>): set<int> {
    set i | 0 <= i < |results| && results[i].status.Failed? && results[i].severity.Critical?
  }

  ghost function HighAt(results: seq<TestResult>): set<int> {
    set i | 0 <= i < |results| && results[i].status.Failed? && results[i].severity.High?
  }

  ghost function FlowMissedAt(results: seq<TestResult>): set<int> {
    set i | 0 <= i < |results| && results[i].criticalFlow && !results[i].status.Passed?
  }

  ghost function MeetingAt(results: seq<TestResult>, c: Criterion): set<int> {
    set i | 0 <= i < |results| && Meets(results[i], c)
  }

  lemma {:induction false} CountIsSize(results: seq<TestResult>, c: Criterion)
    ensures Count(results, c) == |MeetingAt(results, c)|
  {
    if results == [] {
      assert MeetingAt(results, c) == {};
    } else {
      var n := |results| - 1;
      var init, last := results[..n], results[n];
      assert Count(results, c) == Count(init, c) + (if Meets(last, c) then 1 else 0);
      hide Count;
      CountIsSize(init, c);
      MeetingNext(results, c);
    }
  }

  lemma MeetingNext(results: seq<TestResult>, c: Criterion)
    requires results != []
    ensures var n := |results| - 1;
            && n !in MeetingAt(results[..n], c)
            && MeetingAt(results, c) == MeetingAt(results[..n], c) + (if Meets(results[n], c) then {n} else {})
  {
    hide Meets;
    var n := |results| - 1;
    forall i: int ensures i in MeetingAt(results, c) <==> i in MeetingAt(results[..n], c) || (i == n && Meets(results[n], c)) {
      assert 0 <= i < n ==> results[..n][i] == results[i];
    }
  }

  /** Each count is the size of the set it is named after. */
  lemma CountsAre(results: seq<TestResult>)
    ensures Count(results, Status(Passed)) == |PassedAt(results)| && Count(results, Eligible) == |CountedAt(results)|
    ensures Count(results, CriticalFailure) == |CriticalAt(results)| && Count(results, HighFailure) == |HighAt(results)|
    ensures Count(results, CriticalFlowMiss) == |FlowMissedAt(results)|
    ensures forall s :: Count(results, Status(s)) == |StatusAt(results, s)|
  {
    forall c: Criterion ensures Count(results, c) == |MeetingAt(results, c)| {
      CountIsSize(results, c);
    }
    hide Count;
    assert MeetingAt(results, Status(Passed)) == PassedAt(results);
    assert MeetingAt(results, Eligible) == CountedAt(results);
    assert MeetingAt(results, CriticalFailure) == CriticalAt(results);
    assert MeetingAt(results, HighFailure) == HighAt(results);
    assert MeetingAt(results, CriticalFlowMiss) == FlowMissedAt(results);
    forall s ensures Count(results, Status(s)) == |StatusAt(results, s)| {
      assert MeetingAt(results, Status(s)) == StatusAt(results, s);
    }
  }

  /** Rounding gives a nearest integer, the even one of two. */
  lemma RoundedIsNearest(num: int, den: int)
    requires den > 0
    ensures var q := RoundHalfEven(num, den);
            && -den <= 2 * (num - q * den) <= den
            && (2 * (num - q * den) == den || 2 * (num - q * den) == -den ==> q % 2 == 0)
  {
    var q, r := num / den, num % den;
    assert num == q * den + r;
    assert (q + 1) * den == q * den + den;
  }

  /** Nothing about this result blocks, spelled out. */
  predicate Harmless(q: GateRequest, r: TestResult) {
    && !(r.status.Failed? && (r.severity.Critical? || r.severity.High?))
    && !(r.criticalFlow && !r.status.Passed?)
    && !r.status.Blocked? && !r.status.InfraError?
    && (r.testType in q.compatibilityTypes && r.status.Passed? ==>
          && r.mismatchCount == Some(0) && r.sampleCount.Some? && r.sampleCount.value > 0
          && (r.testType in q.fullCoverageTypes ==> r.coverage.Some? && r.coverage.value >= 10_000)
          && (q.mode.Strict? || q.mode.ReleaseGate? ==> r.evidenced)
          && (r.testType == "differential-oracle" ==> r.oracle.Some? && r.oracle.value != "")
          && (r.testType == "deterministic-replay" ==> r.deterministic))
  }

  /** Some result was blocked or hit the infrastructure. */
  predicate SomeStopped(results: seq<TestResult>) {
    exists r :: r in results && (r.status.Blocked? || r.status.InfraError?)
  }

  /** Every needed type was submitted, no result blocks, and enough of those that count passed. */
  ghost predicate Clear(q: GateRequest) {
    && (forall t :: t in q.requiredTypes || t in q.compatibilityTypes ==> exists r :: r in q.results && r.testType == t)
    && (forall r :: r in q.results ==> Harmless(q, r))
    && |CountedAt(q.results)| > 0
    && 20_000 * |PassedAt(q.results)|
       >= (if q.mode.Strict? || q.mode.ReleaseGate? then 19_599 else 17_999) * |CountedAt(q.results)|
  }

  lemma NeededTypes(q: GateRequest)
    ensures MissingTypesOf(q) == {} <==>
            forall t :: t in q.requiredTypes || t in q.compatibilityTypes ==> exists r :: r in q.results && r.testType == t
  {
    forall t ensures t in Types(q.results) <==> exists r :: r in q.results && r.testType == t {
    }
    if MissingTypesOf(q) == {} {
      forall t | t in q.requiredTypes || t in q.compatibilityTypes ensures t in Types(q.results) {
        assert t !in MissingTypesOf(q);
      }
    }
  }

  lemma RateSuffices(q: GateRequest)
    ensures RateOf(q) >= Minimum(q.mode) <==>
            && |CountedAt(q.results)| > 0
            && 20_000 * |PassedAt(q.results)|
               >= (if q.mode.Strict? || q.mode.ReleaseGate? then 19_599 else 17_999) * |CountedAt(q.results)|
  {
    CountsAre(q.results);
    hide Count, RoundHalfEven;
    if |CountedAt(q.results)| > 0 {
      RoundedRateAgrees(|PassedAt(q.results)|, |CountedAt(q.results)|);
    }
  }

  lemma BlockersEmptyIff(q: GateRequest)
    ensures Blockers(q) == [] <==> Clear(q)
  {
    hide RateOf, Blockers, AllCompatibilityBlockers, Count, CountedAt, PassedAt;
    NoBlockers(q);
    NeededTypes(q);
    RateSuffices(q);
    CountZero(q.results, CriticalFailure);
    CountZero(q.results, HighFailure);
    CountZero(q.results, CriticalFlowMiss);
    CountZero(q.results, Status(ResultStatus.Blocked));
    CountZero(q.results, Status(InfraError));
    AllCompatibilityBlockersEmpty(q, q.results);
    forall r ensures Harmless(q, r) <==>
      && !Meets(r, CriticalFailure) && !Meets(r, HighFailure) && !Meets(r, CriticalFlowMiss)
      && !Meets(r, Status(ResultStatus.Blocked)) && !Meets(r, Status(InfraError)) && CompatibilityProven(q, r)
    {
    }
    hide Harmless, Meets, CompatibilityProven, MissingTypesOf;
  }

  /**
   The whole answer. Without a clear request the decision is BLOCKED if some result was blocked or hit the
   infrastructure, and FAIL otherwise; a clear one with a flaky result is left to a person in the demanding modes and
   passes with a warning in the others; a release is recommended exactly for a PASS outside the release gate.
   */
  lemma GateMeans(q: GateRequest)
    ensures var g := Gate(q);
            var flaky := exists r :: r in q.results && r.status.Flaky?;
            && g.decision == (if !Clear(q) then
                                if SomeStopped(q.results) then Decision.Blocked else Fail
                              else if flaky then
                                if q.mode.Strict? || q.mode.ReleaseGate? then ManualReview else PassWithWarning
                              else Pass)
            && (g.flakyWarning <==> flaky)
            && (g.humanApprovalRequired <==> g.decision.ManualReview? || q.mode.ReleaseGate?)
            && (g.releaseRecommended <==> g.decision.Pass? && !q.mode.ReleaseGate?)
            && (forall s :: s in g.counts <==> exists r :: r in q.results && r.status == s)
            && (forall s :: s in g.counts ==> g.counts[s] == |StatusAt(q.results, s)|)
  {
    BlockersEmptyIff(q);
    CountZero(q.results, Status(Flaky));
    CountZero(q.results, Status(ResultStatus.Blocked));
    CountZero(q.results, Status(InfraError));
    CountsAre(q.results);
    StoppedMeans(q);
    hide Blockers, Clear, RateOf, Count, StatusAt;
  }

  lemma StoppedMeans(q: GateRequest)
    ensures Stopped(q) <==> SomeStopped(q.results)
  {
    CountZero(q.results, Status(ResultStatus.Blocked));
    CountZero(q.results, Status(InfraError));
    hide Count;
  }

  /** The reported rate is the nearest hundredth of a percent, the even one of two; 0 if nothing counts. */
  lemma RateMeans(q: GateRequest)
    ensures var p, e, rate := |PassedAt(q.results)|, |CountedAt(q.results)|, Gate(q).passRate;
            if e == 0 then rate == 0
            else
              && -e <= 2 * (10_000 * p - rate * e) <= e
              && (2 * (10_000 * p - rate * e) == e || 2 * (10_000 * p - rate * e) == -e ==> rate % 2 == 0)
  {
    CountsAre(q.results);
    hide Count, Blockers, DecisionOf, StatusCounts, RoundHalfEven;
    if |CountedAt(q.results)| > 0 {
      RoundedIsNearest(10_000 * |PassedAt(q.results)|, |CountedAt(q.results)|);
    }
  }

  /** What each kind of blocker stands for. */
  ghost predicate Warranted(q: GateRequest, b: Blocker) {
    match b
    case MissingTypes(types) => types != {} && AreMissing(q, types)
    case CriticalFailures(n) => n == |CriticalAt(q.results)| > 0
    case HighFailures(n) => n == |HighAt(q.results)| > 0
    case CriticalFlowFailures(n) => n == |FlowMissedAt(q.results)| > 0
    case ExecutionBlocked => SomeStopped(q.results)
    case PassRateBelow(rate) =>
      rate == Gate(q).passRate < if q.mode.Strict? || q.mode.ReleaseGate? then 9_800 else 9_000
    case _ => SomeLacks(q, q.results, b)
  }

  /** These are the types that were required, or that compatibility asks for, and that no result has. */
  ghost predicate AreMissing(q: GateRequest, types: set<string>) {
    forall t :: t in types <==>
      (t in q.requiredTypes || t in q.compatibilityTypes) && forall r :: r in q.results ==> r.testType != t
  }

  /** A passed result of a compatibility type lacks this evidence. */
  ghost predicate SomeLacks(q: GateRequest, results: seq<TestResult>, b: Blocker) {
    exists r :: r in results && r.testType in q.compatibilityTypes && r.status.Passed? && Lacks(q, r, b)
  }

  /** The compatibility evidence that a passed result does not bring. */
  predicate Lacks(q: GateRequest, r: TestResult, b: Blocker) {
    match b
    case NoMismatchEvidence(id) => id == r.testId && r.mismatchCount.None?
    case Mismatches(id) => id == r.testId && r.mismatchCount.Some? && r.mismatchCount.value > 0
    case NoSampleEvidence(id) => id == r.testId && (r.sampleCount.None? || r.sampleCount.value == 0)
    case NoCoverageEvidence(id) => id == r.testId && r.testType in q.fullCoverageTypes && r.coverage.None?
    case CoverageIncomplete(id) =>
      id == r.testId && r.testType in q.fullCoverageTypes && r.coverage.Some? && r.coverage.value < 10_000
    case NoEvidence(id) => id == r.testId && (q.mode.Strict? || q.mode.ReleaseGate?) && !r.evidenced
    case NoIndependentOracle(id) =>
      id == r.testId && r.testType == "differential-oracle" && (r.oracle.None? || r.oracle.value == "")
    case NotDeterministic(id) => id == r.testId && r.testType == "deterministic-replay" && !r.deterministic
    case _ => false
  }

  lemma LacksIff(q: GateRequest, r: TestResult, b: Blocker)
    ensures b in CompatibilityBlockers(q, r) <==> r.status.Passed? && Lacks(q, r, b)
  {
  }

  lemma SomeLacksNext(q: GateRequest, results: seq<TestResult>, b: Blocker)
    requires results != []
    ensures var init, last := results[..|results| - 1], results[|results| - 1];
            SomeLacks(q, results, b) <==>
            SomeLacks(q, init, b) || (last.testType in q.compatibilityTypes && last.status.Passed? && Lacks(q, last, b))
  {
    hide Lacks;
    assert results == results[..|results| - 1] + [results[|results| - 1]];
  }

  lemma CompatibilityNext(q: GateRequest, results: seq<TestResult>)
    requires results != []
    ensures var init, last := results[..|results| - 1], results[|results| - 1];
            AllCompatibilityBlockers(q, results)
            == AllCompatibilityBlockers(q, init)
               + if last.testType in q.compatibilityTypes then CompatibilityBlockers(q, last) else []
  {
  }

  lemma {:induction false} CompatibilityMeans(q: GateRequest, results: seq<TestResult>, b: Blocker)
    ensures b in AllCompatibilityBlockers(q, results) <==> SomeLacks(q, results, b)
  {
    if results != [] {
      var init, last := results[..|results| - 1], results[|results| - 1];
      CompatibilityNext(q, results);
      SomeLacksNext(q, results, b);
      LacksIff(q, last, b);
      hide AllCompatibilityBlockers, CompatibilityBlockers, Lacks, SomeLacks;
      CompatibilityMeans(q, init, b);
    }
  }

  lemma BlockersList(q: GateRequest, b: Blocker)
    ensures b in Blockers(q) <==>
            || (MissingTypesOf(q) != {} && b == MissingTypes(MissingTypesOf(q)))
            || (Count(q.results, CriticalFailure) > 0 && b == CriticalFailures(Count(q.results, CriticalFailure)))
            || (Count(q.results, HighFailure) > 0 && b == HighFailures(Count(q.results, HighFailure)))
            || (Count(q.results, CriticalFlowMiss) > 0 && b == CriticalFlowFailures(Count(q.results, CriticalFlowMiss)))
            || (Stopped(q) && b == ExecutionBlocked)
            || b in AllCompatibilityBlockers(q, q.results)
            || (RateOf(q) < Minimum(q.mode) && b == PassRateBelow(RateOf(q)))
  {
    hide AllCompatibilityBlockers, Count, RateOf, MissingTypesOf, Stopped, Minimum;
  }

  lemma MissingMeans(q: GateRequest, types: set<string>)
    ensures types == MissingTypesOf(q) <==> AreMissing(q, types)
  {
    forall t ensures t in MissingTypesOf(q) <==>
      (t in q.requiredTypes || t in q.compatibilityTypes) && forall r :: r in q.results ==> r.testType != t
    {
    }
  }

  /** The blockers that stand for a count, a set or a state of the whole request. */
  lemma GeneralBlockersMean(q: GateRequest, b: Blocker)
    requires b.MissingTypes? || b.CriticalFailures? || b.HighFailures? || b.CriticalFlowFailures? || b.ExecutionBlocked?
             || b.PassRateBelow?
    ensures b in Gate(q).blockers <==> Warranted(q, b)
  {
    BlockersList(q, b);
    CountsAre(q.results);
    StoppedMeans(q);
    CompatibilityMeans(q, q.results, b);
    if b.MissingTypes? {
      MissingMeans(q, b.types);
    }
    NothingElseLacks(q, b);
    hide AreMissing, SomeStopped, PassedAt, CountedAt, StatusAt, AllCompatibilityBlockers, Count, RateOf,
      MissingTypesOf, Stopped, Blockers, CriticalAt, HighAt, FlowMissedAt, DecisionOf, StatusCounts, SomeLacks;
  }

  lemma NothingElseLacks(q: GateRequest, b: Blocker)
    requires b.MissingTypes? || b.CriticalFailures? || b.HighFailures? || b.CriticalFlowFailures? || b.ExecutionBlocked?
             || b.PassRateBelow?
    ensures !SomeLacks(q, q.results, b)
  {
  }

  /** The list holds exactly the blockers that are warranted. */
  lemma BlockersMean(q: GateRequest, b: Blocker)
    ensures b in Gate(q).blockers <==> Warranted(q, b)
  {
    hide AllCompatibilityBlockers, Count, RateOf, MissingTypesOf, Stopped, Blockers, SomeLacks, DecisionOf, StatusCounts,
      CriticalAt, HighAt, FlowMissedAt;
    match b
    case NoMismatchEvidence(_) => EvidenceBlockersMean(q, b);
    case Mismatches(_) => EvidenceBlockersMean(q, b);
    case NoSampleEvidence(_) => EvidenceBlockersMean(q, b);
    case NoCoverageEvidence(_) => EvidenceBlockersMean(q, b);
    case CoverageIncomplete(_) => EvidenceBlockersMean(q, b);
    case NoEvidence(_) => EvidenceBlockersMean(q, b);
    case NoIndependentOracle(_) => EvidenceBlockersMean(q, b);
    case NotDeterministic(_) => EvidenceBlockersMean(q, b);
    case _ => GeneralBlockersMean(q, b);
  }

  lemma EvidenceBlockersMean(q: GateRequest, b: Blocker)
    requires !b.MissingTypes? && !b.CriticalFailures? && !b.HighFailures? && !b.CriticalFlowFailures?
             && !b.ExecutionBlocked? && !b.PassRateBelow?
    ensures b in Gate(q).blockers <==> SomeLacks(q, q.results, b)
  {
    BlockersList(q, b);
    CompatibilityMeans(q, q.results, b);
    hide AllCompatibilityBlockers, Count, RateOf, MissingTypesOf, Stopped, Blockers, SomeLacks, DecisionOf, StatusCounts;
  }

  // ---- order does not matter ----

  lemma {:induction false} CountRemove(results: seq<TestResult>, i: nat, c: Criterion)
    requires i < |results|
    ensures Count(results, c) == Count(results[..i] + results[i + 1..], c) + (if Meets(results[i], c) then 1 else 0)
  {
    var n := |results| - 1;
    if i < n {
      var rest := results[..i] + results[i + 1..];
      assert rest[..n - 1] == results[..n][..i] + results[..n][i + 1..];
      assert |rest| == n && rest[n - 1] == results[n];
      assert Count(rest, c) == Count(rest[..n - 1], c) + (if Meets(results[n], c) then 1 else 0);
      assert Count(results, c) == Count(results[..n], c) + (if Meets(results[n], c) then 1 else 0);
      hide Count, Meets;
      CountRemove(results[..n], i, c);
    } else {
      assert results[..i] + results[i + 1..] == results[..n];
    }
  }

  lemma {:induction false} CountPermutes(a: seq<TestResult>, b: seq<TestResult>, c: Criterion)
    requires multiset(a) == multiset(b)
    ensures Count(a, c) == Count(b, c)
  {
    if a == [] {
      BothEmpty(b);
    } else {
      var i := MatchLast(a, b);
      CountPermutes(a[..|a| - 1], Without(b, i), c);
      CountRemove(b, i, c);
    }
  }

  /** Listing the results in another order changes neither rate, nor counts, nor decision. */
  lemma OrderIsIrrelevant(q: GateRequest, results: seq<TestResult>)
    requires multiset(results) == multiset(q.results)
    ensures RateOf(q.(results := results)) == RateOf(q)
    ensures StatusCounts(results) == StatusCounts(q.results)
    ensures DecisionOf(q.(results := results)) == DecisionOf(q)
  {
    hide Count, AllCompatibilityBlockers, CompatibilityProven, Blockers;
    var p := q.(results := results);
    SameMembers(results, q.results);
    forall c: Criterion ensures Count(results, c) == Count(q.results, c) {
      CountPermutes(results, q.results, c);
    }
    assert Types(results) == Types(q.results);
    AllCompatibilityBlockersEmpty(q, q.results);
    AllCompatibilityBlockersEmpty(p, results);
    forall r ensures CompatibilityProven(q, r) == CompatibilityProven(p, r) {
      SameProof(q, results, r);
    }
    NoBlockers(q);
    NoBlockers(p);
  }

  lemma SameProof(q: GateRequest, results: seq<TestResult>, r: TestResult)
    ensures CompatibilityProven(q, r) == CompatibilityProven(q.(results := results), r)
  {
  }
}
