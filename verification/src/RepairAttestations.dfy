/**
 The one-use attestation between evaluating a failure and applying its repair. Times are in microseconds; digests of
 canonical documents stand for the documents.
 */
module RepairAttestations {
  import opened Wrappers
  import opened RepairExecution

  const SECOND := 1_000_000
  const SKEW := 30 * SECOND
  const MAX_LIFETIME_SECONDS := 240

  /** The fields an evaluation is bound to. */
  datatype Context = Context(
    projectId: string,
    environment: string,
    production: bool,
    provider: string,
    model: string,
    failureFingerprint: string,
    failureSummary: string,
    evidencePaths: seq<string>)

  datatype Attestation = Attestation(
    id: string,
    projectId: string,
    failureFingerprint: string,
    evidence: string,
    issuedAt: int,
    expiresAt: int)

  datatype Request = Request(
    context: Context,
    wantsApply: bool,
    explicitApply: bool,
    attestation: Option<Attestation>)

  datatype Capability = Capability(
    automaticApplyAllowed: bool,
    requiresFreshEvalAttestation: bool,
    maxAttestationAgeSeconds: nat)
  {
    predicate Valid() {
      automaticApplyAllowed ==> requiresFreshEvalAttestation
    }
  }

  type Records = map<string, (Attestation, Context)>

  /** A presented attestation is taken out as soon as it is recognized, whatever else is wrong with it. */
  predicate Recognized(records: Records, a: Attestation) {
    a.id in records && records[a.id].0 == a
  }

  function Remaining(records: Records, a: Attestation): Records {
    if Recognized(records, a) then records - {a.id} else records
  }

  predicate Verifies(records: Records, a: Attestation, c: Context, now: int) {
    Recognized(records, a) && now < a.expiresAt && records[a.id].1 == c
  }

  class AttestationStore {
    var records: Records

    constructor ()
      ensures records == map[]
    {
      records := map[];
    }

    method Issue(a: Attestation, c: Context)
      modifies this
      ensures records == old(records)[a.id := (a, c)]
    {
      records := records[a.id := (a, c)];
    }

    method VerifyAndConsume(a: Attestation, c: Context, now: int) returns (ok: bool)
      modifies this
      ensures ok == Verifies(old(records), a, c, now)
      ensures ok <==> a.id in old(records) && old(records)[a.id] == (a, c) && now < a.expiresAt
      ensures records == Remaining(old(records), a)
      ensures records == if a.id in old(records) && old(records)[a.id].0 == a then old(records) - {a.id} else old(records)
    {
      if a.id !in records { return false; }
      var record := records[a.id];
      if record.0 != a { return false; }
      records := records - {a.id};
      ok := now < a.expiresAt && record.1 == c;
    }
  }

  datatype Reason =
    | ProposalOnlyCapability | NotExplicit | Missing | WrongProject | WrongFingerprint | FromTheFuture | Stale | Expired
    | NotAuthentic

  method AttestationReasons(c: Context, cap: Capability, a: Attestation, now: int) returns (reasons: seq<Reason>)
    ensures reasons == [] <==> AgeOk(cap, a, now) && a.projectId == c.projectId && a.failureFingerprint == c.failureFingerprint
    ensures WrongProject in reasons <==> a.projectId != c.projectId
    ensures WrongFingerprint in reasons <==> a.failureFingerprint != c.failureFingerprint
    ensures Stale in reasons <==> now - a.issuedAt > cap.maxAttestationAgeSeconds * 1_000_000
    ensures FromTheFuture in reasons <==> a.issuedAt > now + 30_000_000
    ensures Expired in reasons <==> a.expiresAt <= now
  {
    reasons := [];
    if a.projectId != c.projectId { reasons := reasons + [WrongProject]; }
    if a.failureFingerprint != c.failureFingerprint { reasons := reasons + [WrongFingerprint]; }
    if a.issuedAt > now + SKEW { reasons := reasons + [FromTheFuture]; }
    if now - a.issuedAt > cap.maxAttestationAgeSeconds * SECOND { reasons := reasons + [Stale]; }
    if a.expiresAt <= now { reasons := reasons + [Expired]; }
  }

  predicate AgeOk(cap: Capability, a: Attestation, now: int) {
    && a.issuedAt <= now + SKEW
    && now - a.issuedAt <= cap.maxAttestationAgeSeconds * SECOND
    && now < a.expiresAt
  }

  /** What grants automatic application, apart from the store's word. */
  predicate MayAsk(r: Request, cap: Capability, now: int) {
    && cap.automaticApplyAllowed && r.explicitApply && r.attestation.Some?
    && AgeOk(cap, r.attestation.value, now)
    && r.attestation.value.projectId == r.context.projectId
    && r.attestation.value.failureFingerprint == r.context.failureFingerprint
  }

  /** The service installs the store as verifier. The policy reads its clock before the store reads its own. */
  method ApplyReasons(store: AttestationStore, r: Request, cap: Capability, policyNow: int, storeNow: int)
    returns (reasons: seq<Reason>)
    requires cap.Valid()
    modifies store
    ensures reasons == [] <==>
              MayAsk(r, cap, policyNow) && Verifies(old(store.records), r.attestation.value, r.context, storeNow)
    ensures store.records == if r.attestation.Some? then Remaining(old(store.records), r.attestation.value)
                             else old(store.records)
  {
    reasons := [];
    if !cap.automaticApplyAllowed { reasons := reasons + [ProposalOnlyCapability]; }
    if !r.explicitApply { reasons := reasons + [NotExplicit]; }
    if cap.requiresFreshEvalAttestation {
      if r.attestation.None? {
        reasons := reasons + [Missing];
      } else {
        var more := AttestationReasons(r.context, cap, r.attestation.value, policyNow);
        reasons := reasons + more;
      }
    }
    if r.attestation.Some? {
      var ok := store.VerifyAndConsume(r.attestation.value, r.context, storeNow);
      if !ok { reasons := reasons + [NotAuthentic]; }
    }
  }

  /** The gates in front of everything else: flag, environment, allowlists, root and a clean worktree. */
  datatype Gates = Gates(
    flagOn: bool,
    capabilityListed: bool,
    proposalAllowed: bool,
    projectEnabled: bool,
    environmentAllowed: bool,
    rootValid: bool,
    worktreeClean: bool)
  {
    predicate Open(c: Context) {
      && flagOn && !c.production && c.environment == "local" && capabilityListed && proposalAllowed
      && projectEnabled && environmentAllowed && rootValid && worktreeClean
    }
  }

  function Granted(records: Records, r: Request, g: Gates, cap: Capability, policyNow: int, storeNow: int): Authorization {
    if !g.Open(r.context) then Refused
    else if r.wantsApply && MayAsk(r, cap, policyNow) && Verifies(records, r.attestation.value, r.context, storeNow)
    then MayApply
    else ProposalOnly
  }

  /** Only an apply request that got past the gates shows its attestation to the store. */
  function Left(records: Records, r: Request, g: Gates): Records {
    if g.Open(r.context) && r.wantsApply && r.attestation.Some? then Remaining(records, r.attestation.value) else records
  }

  method Authorize(store: AttestationStore, r: Request, g: Gates, cap: Capability, policyNow: int, storeNow: int)
    returns (mode: Authorization)
    requires cap.Valid()
    modifies store
    ensures mode == Granted(old(store.records), r, g, cap, policyNow, storeNow)
    ensures store.records == Left(old(store.records), r, g)
    // every gate, by name
    ensures mode.Refused? <==>
              || !g.flagOn || r.context.production || r.context.environment != "local"
              || !g.capabilityListed || !g.proposalAllowed || !g.projectEnabled || !g.environmentAllowed
              || !g.rootValid || !g.worktreeClean
    // past the gates, application needs everything at once
    ensures !mode.Refused? ==>
              (mode.MayApply? <==>
                 && r.wantsApply && r.explicitApply && cap.automaticApplyAllowed && r.attestation.Some?
                 && var a := r.attestation.value;
                    && a.projectId == r.context.projectId && a.failureFingerprint == r.context.failureFingerprint
                    && a.issuedAt <= policyNow + 30_000_000
                    && policyNow - a.issuedAt <= cap.maxAttestationAgeSeconds * 1_000_000
                    && policyNow < a.expiresAt && storeNow < a.expiresAt
                    && a.id in old(store.records) && old(store.records)[a.id] == (a, r.context))
    // an attestation that is shown and recognized is gone, whatever the answer
    ensures store.records ==
            if !mode.Refused? && r.wantsApply && r.attestation.Some?
               && r.attestation.value.id in old(store.records)
               && old(store.records)[r.attestation.value.id].0 == r.attestation.value
            then old(store.records) - {r.attestation.value.id} else old(store.records)
  {
    if !g.flagOn { return Refused; }
    if r.context.production || r.context.environment != "local" { return Refused; }
    if !g.capabilityListed || !g.proposalAllowed { return Refused; }
    if !g.projectEnabled { return Refused; }
    if !g.environmentAllowed { return Refused; }
    if !g.rootValid || !g.worktreeClean { return Refused; }
    mode := ProposalOnly;
    if r.wantsApply {
      var reasons := ApplyReasons(store, r, cap, policyNow, storeNow);
      if reasons == [] { mode := MayApply; }
    }
  }

  // ---- evaluation ----

  datatype Risk = Low | Elevated

  /** What the evaluator answered, or nothing if it failed. */
  datatype Decision = Decision(eligible: bool, risk: Risk, safeClass: bool)

  predicate Certifies(d: Option<Decision>) {
    d.Some? && d.value.eligible && d.value.risk.Low? && d.value.safeClass
  }

  function Fresh(id: string, c: Context, evidence: string, cap: Capability, now: int): Attestation {
    Attestation(id, c.projectId, c.failureFingerprint, evidence, now,
                now + Min(MAX_LIFETIME_SECONDS, cap.maxAttestationAgeSeconds) * SECOND)
  }

  /** An attestation is issued exactly for a request past the gates whose evaluation certifies it. */
  method Evaluate(store: AttestationStore, c: Context, g: Gates, cap: Capability, d: Option<Decision>, id: string,
                  evidence: string, now: int) returns (issued: Option<Attestation>)
    modifies store
    ensures issued == if g.Open(c) && c.provider == "codex-agent" && Certifies(d)
                      then Some(Fresh(id, c, evidence, cap, now)) else None
    ensures issued.Some? <==>
              && g.flagOn && !c.production && c.environment == "local" && g.capabilityListed && g.proposalAllowed
              && g.projectEnabled && g.environmentAllowed && g.rootValid && g.worktreeClean
              && c.provider == "codex-agent"
              && d.Some? && d.value.eligible && d.value.risk.Low? && d.value.safeClass
    ensures issued.Some? ==>
              && issued.value.id == id && issued.value.evidence == evidence
              && issued.value.projectId == c.projectId && issued.value.failureFingerprint == c.failureFingerprint
              && issued.value.issuedAt == now
              && issued.value.expiresAt
                 == now + (if cap.maxAttestationAgeSeconds < 240 then cap.maxAttestationAgeSeconds else 240) * 1_000_000
    ensures store.records == if issued.Some? then old(store.records)[id := (issued.value, c)] else old(store.records)
  {
    var probe := Request(c, false, false, None);
    if !g.Open(probe.context) { return None; }
    if c.provider != "codex-agent" { return None; }
    if d.None? { return None; }
    var eligible := d.value.eligible && d.value.risk.Low? && d.value.safeClass;
    if !eligible { return None; }
    var lifetime := if cap.maxAttestationAgeSeconds < MAX_LIFETIME_SECONDS then cap.maxAttestationAgeSeconds
                    else MAX_LIFETIME_SECONDS;
    var a := Attestation(id, c.projectId, c.failureFingerprint, evidence, now, now + lifetime * SECOND);
    store.Issue(a, c);
    issued := Some(a);
  }

  /**
   The age checks pass an evaluator's attestation from thirty seconds before its issue until its expiry and at no
   other time: the lifetime never reaches past what the capability calls stale.
   */
  lemma AgeWindowIsExact(id: string, c: Context, evidence: string, cap: Capability, issued: int, now: int)
    ensures AgeOk(cap, Fresh(id, c, evidence, cap, issued), now)
            <==> issued - 30_000_000 <= now < Fresh(id, c, evidence, cap, issued).expiresAt
  {
    var lifetime := Min(MAX_LIFETIME_SECONDS, cap.maxAttestationAgeSeconds);
    assert lifetime * SECOND <= cap.maxAttestationAgeSeconds * SECOND;
  }

  /** Presented while its record is there, it grants application exactly for the evaluated context, until expiry. */
  lemma FreshGrantsExactly(records: Records, id: string, c: Context, evidence: string, cap: Capability, issued: int,
                           r: Request, g: Gates, policyNow: int, storeNow: int)
    requires cap.Valid() && cap.automaticApplyAllowed && g.Open(r.context) && r.wantsApply && r.explicitApply
    requires var a := Fresh(id, c, evidence, cap, issued);
             r.attestation == Some(a) && id in records && records[id] == (a, c)
    requires issued <= policyNow <= storeNow
    ensures Granted(records, r, g, cap, policyNow, storeNow).MayApply?
            <==> r.context == c
                 && storeNow
                    < issued + (if cap.maxAttestationAgeSeconds < 240 then cap.maxAttestationAgeSeconds else 240) * 1_000_000
  {
    AgeWindowIsExact(id, c, evidence, cap, issued, policyNow);
  }

  // ---- runs ----

  /** Calls in the order in which they take the store's lock. */
  datatype Event =
    | Issue(attestation: Attestation, context: Context)
    | Present(attestation: Attestation, context: Context, now: int)
    | Execute(request: Request, gates: Gates, capability: Capability, policyNow: int, storeNow: int)

  function After(events: seq<Event>): Records {
    if events == [] then map[] else
      var records, e := After(events[..|events| - 1]), events[|events| - 1];
      match e
      case Issue(a, c) => records[a.id := (a, c)]
      case Present(a, _, _) => Remaining(records, a)
      case Execute(r, g, _, _, _) => Left(records, r, g)
  }

  function Issues(events: seq<Event>, id: string): nat {
    if events == [] then 0 else
      var e := events[|events| - 1];
      Issues(events[..|events| - 1], id) + if e.Issue? && e.attestation.id == id then 1 else 0
  }

  /** How often an attestation of this id was accepted: by the verifier directly, or as a permission to apply. */
  function Accepted(events: seq<Event>, id: string): nat {
    if events == [] then 0 else
      var records, e := After(events[..|events| - 1]), events[|events| - 1];
      Accepted(events[..|events| - 1], id)
      + (match e
         case Issue(_, _) => 0
         case Present(a, c, now) => if a.id == id && Verifies(records, a, c, now) then 1 else 0
         case Execute(r, g, cap, policyNow, storeNow) =>
           if Granted(records, r, g, cap, policyNow, storeNow).MayApply? && r.attestation.value.id == id then 1 else 0)
  }

  /** Every acceptance uses up an issue, and what is still in the store has not been accepted yet. */
  lemma {:induction false} AcceptedAtMostIssued(events: seq<Event>, id: string)
    ensures Accepted(events, id) + (if id in After(events) then 1 else 0) <= Issues(events, id)
  {
    if events != [] {
      AcceptedAtMostIssued(events[..|events| - 1], id);
    }
  }

  function Applies(events: seq<Event>): nat {
    if events == [] then 0 else
      var records, e := After(events[..|events| - 1]), events[|events| - 1];
      Applies(events[..|events| - 1])
      + if e.Execute? && Granted(records, e.request, e.gates, e.capability, e.policyNow, e.storeNow).MayApply? then 1 else 0
  }

  function AllIssues(events: seq<Event>): nat {
    if events == [] then 0 else AllIssues(events[..|events| - 1]) + if events[|events| - 1].Issue? then 1 else 0
  }

  /** However evaluations, replays and executions interleave, runs that may write never outnumber evaluations. */
  lemma {:induction false} AppliesAtMostIssues(events: seq<Event>)
    ensures Applies(events) + |After(events)| <= AllIssues(events)
  {
    if events != [] {
      var records := After(events[..|events| - 1]);
      AppliesAtMostIssues(events[..|events| - 1]);
      match events[|events| - 1]
      case Issue(a, c) => InsertSize(records, a.id, (a, c));
      case Present(a, _, _) => RemainingSize(records, a);
      case Execute(r, g, _, _, _) =>
        if r.attestation.Some? { RemainingSize(records, r.attestation.value); }
    }
  }

  lemma InsertSize(records: Records, id: string, v: (Attestation, Context))
    ensures |records[id := v]| <= |records| + 1
  {
    assert records[id := v].Keys == records.Keys + {id};
    assert |records[id := v]| == |records[id := v].Keys| && |records| == |records.Keys|;
  }

  lemma RemainingSize(records: Records, a: Attestation)
    ensures |Remaining(records, a)| == |records| - if Recognized(records, a) then 1 else 0
  {
    if Recognized(records, a) {
      assert Remaining(records, a).Keys == records.Keys - {a.id};
      assert |Remaining(records, a)| == |Remaining(records, a).Keys| && |records| == |records.Keys|;
    }
  }
}
