/**
 Who may move a session: the calls that leave PREPARED, with or without approval, those that reopen a terminal
 session, and the attestation without which nothing moves, over every run of public calls.
 */
module GuidedAdmission {
  import opened Wrappers
  import opened GuidedModels
  import opened GuidedSteps
  import opened GuidedStepLaws
  import opened GuidedTransitions
  import opened GuidedRuns

  /** The checks that come before a control: the attestation if a human is needed, then the revision. */
  predicate Heard(d: Desk, action: Action, token: Option<string>, expected: Option<nat>) {
    && (action.NeedsHuman() ==> Attested(d, token))
    && (expected.Some? ==> expected.value == d.session.revision)
  }

  // ---- leaving PREPARED ----

  predicate Approves(d: Desk, e: Event) {
    && e.request.Act? && e.request.action.Approve?
    && Heard(d, e.request.action, e.request.token, e.request.expected)
  }

  predicate Dismisses(d: Desk, e: Event) {
    && e.request.Act? && (e.request.action.Block? || e.request.action.Abort?)
    && Heard(d, e.request.action, e.request.token, e.request.expected)
  }

  ghost predicate Untouched(s: Session) {
    && Coupling(s) && s.status.Prepared? && s.approvedAt.None?
  }

  /** Once a session has left PREPARED it never returns, and whether it was approved stays as it is. */
  ghost predicate Decided(s: Session, t: Session) {
    !t.status.Prepared? && t.approvedAt == s.approvedAt
  }

  lemma InstallDecided(s: Session, v: Live, id: SessionId)
    requires s.currentStepIndex < |s.results| && !v.status.Prepared?
    ensures Decided(s, Install(s, v, id))
  {
  }

  /** A prepared session is moved by nothing but an accepted approve, block or abort. */
  lemma PreparedControl(plan: seq<ScenarioStep>, d: Desk, e: Event)
    requires WellFormed(plan, d.session) && Untouched(d.session) && e.request.Act?
    ensures var t := Serve(plan, d, e).session;
            if Approves(d, e) then !t.status.Prepared? && t.approvedAt.Some?
            else if Dismisses(d, e) then !t.status.Prepared? && t.approvedAt.None?
            else t == d.session
  {
    hide Install, FinishTiming, RetryIds, AbortAll;
    var s := d.session;
    InstallDecided(s, GuidedSteps.Block(plan[s.currentStepIndex], Current(s), e.act.finish), e.retestId);
  }

  lemma PreparedStep(plan: seq<ScenarioStep>, d: Desk, e: Event)
    requires WellFormed(plan, d.session) && Untouched(d.session)
    ensures var t := Step(plan, d, e).session;
            if Approves(d, e) then !t.status.Prepared? && t.approvedAt.Some?
            else if Dismisses(d, e) then !t.status.Prepared? && t.approvedAt.None?
            else t == d.session
  {
    hide Serve;
    if e.request.Act? {
      PreparedControl(plan, d, e);
    } else {
      PreparedInput(plan, d, e);
    }
  }

  lemma PreparedInput(plan: seq<ScenarioStep>, d: Desk, e: Event)
    requires WellFormed(plan, d.session) && Untouched(d.session) && !e.request.Act?
    ensures Serve(plan, d, e).session == d.session
  {
  }

  lemma AdvanceLeaves(step: ScenarioStep, oracle: TelemetryOracle, v: Live, k: Ticks)
    requires !v.status.Prepared?
    ensures !Advance(step, oracle, v, k).0.status.Prepared?
  {
  }

  lemma ConsumeLeaves(step: ScenarioStep, oracle: TelemetryOracle, v: Live, o: Observation, k: Ticks, defer: bool)
    requires !v.status.Prepared?
    ensures !Consume(step, oracle, v, o, k, defer).status.Prepared?
  {
    hide Advance, Violation;
    AdvanceLeaves(step, oracle, v.(result := Judge(oracle, Absorb(v.result, o, k.accept), o)), k);
  }

  lemma AcceptDecided(plan: seq<ScenarioStep>, s: Session, o: Observation, k: Ticks, defer: bool, id: SessionId)
    requires WellFormed(plan, s) && !s.status.Prepared?
    ensures Decided(s, AcceptObservation(plan, s, o, k, defer, id))
  {
    hide Consume, Install;
    var step := plan[s.currentStepIndex];
    if step.oracle.Some? {
      ConsumeLeaves(step, step.oracle.value, CurrentLive(s), o, k, defer);
      InstallDecided(s.(lastObservationAt := Some(k.accept)),
                     Consume(step, step.oracle.value, CurrentLive(s), o, k, defer), id);
    }
  }

  lemma PerformDecided(plan: seq<ScenarioStep>, s: Session, action: Action, t: int, id: SessionId)
    requires WellFormed(plan, s) && !s.status.Prepared?
    requires Perform(plan, s, action, t, id).Ok?
    ensures Decided(s, Perform(plan, s, action, t, id).value)
  {
  }

  lemma {:induction false} IngestDecided(plan: seq<ScenarioStep>, a: Intake, items: seq<Timed>, id: SessionId)
    requires WellFormed(plan, a.session) && !a.session.status.Prepared?
    ensures Decided(a.session, IngestAll(plan, a, items, id).session)
  {
    hide AcceptObservation;
    if items != [] {
      var init, last := items[..|items| - 1], items[|items| - 1];
      IngestDecided(plan, a, init, id);
      AcceptDecided(plan, IngestAll(plan, a, init, id).session, last.observation, last.ticks, true, id);
    }
  }

  lemma CloseBatchDecided(plan: seq<ScenarioStep>, s: Session, k: Ticks, id: SessionId)
    requires WellFormed(plan, s) && !s.status.Prepared?
    ensures Decided(s, CloseBatch(plan, s, k, id))
  {
    hide Advance, Install;
    var step := plan[s.currentStepIndex];
    if step.oracle.Some? {
      AdvanceLeaves(step, step.oracle.value, CurrentLive(s), k);
      InstallDecided(s, Advance(step, step.oracle.value, CurrentLive(s), k).0, id);
    }
  }

  lemma RefreshDecided(plan: seq<ScenarioStep>, d: Desk, k: Ticks, id: SessionId)
    requires WellFormed(plan, d.session) && !d.session.status.Prepared?
    ensures Decided(d.session, Refresh(plan, d, k, id).session)
  {
    hide Advance, Install, Timeout, Elapsed;
    var s := d.session;
    var step := plan[s.currentStepIndex];
    if step.oracle.Some? {
      AdvanceLeaves(step, step.oracle.value, CurrentLive(s), k);
      InstallDecided(s, Advance(step, step.oracle.value, CurrentLive(s), k).0, id);
    }
    TimeoutLeaves(step, Current(s), k.finish);
    InstallDecided(s, Timeout(step, Current(s), k.finish), id);
  }

  lemma TimeoutLeaves(step: ScenarioStep, r: StepResult, t: int)
    ensures !Timeout(step, r, t).status.Prepared?
  {
    hide TimeoutCodes, FinishTiming;
  }

  lemma FeedbackDecided(plan: seq<ScenarioStep>, d: Desk, verdict: Verdict, token: Option<string>, t: int, id: SessionId)
    requires WellFormed(plan, d.session) && !d.session.status.Prepared?
    ensures Decided(d.session, Feedback(plan, d, verdict, token, t, id).desk.session)
  {
    hide Install, FinishTiming;
    var s := d.session;
    var out := SubmitVerdict(plan[s.currentStepIndex], s.hasObserver, CurrentLive(s), verdict, t);
    if out.Ok? {
      InstallDecided(s, out.value, id);
    }
  }

  lemma ServeDecided(plan: seq<ScenarioStep>, d: Desk, e: Event)
    requires WellFormed(plan, d.session) && !d.session.status.Prepared?
    ensures Decided(d.session, Serve(plan, d, e).session)
  {
    hide Perform, AcceptObservation, IngestAll, CloseBatch, Feedback;
    var s := d.session;
    match e.request
    case Act(action, _, _) =>
      if Perform(plan, s, action, e.act.finish, e.retestId).Ok? {
        PerformDecided(plan, s, action, e.act.finish, e.retestId);
      }
    case Answer(verdict, token) => FeedbackDecided(plan, d, verdict, token, e.act.finish, e.retestId);
    case Report(o) => AcceptDecided(plan, s, o, e.act, false, e.retestId);
    case ReportBatch(items) =>
      var start := Intake(s, d.observations, 0, 0);
      IngestDecided(plan, start, items, e.retestId);
      CloseBatchDecided(plan, IngestAll(plan, start, items, e.retestId).session, e.act, e.retestId);
    case _ =>
  }

  lemma StepDecided(plan: seq<ScenarioStep>, d: Desk, e: Event)
    requires WellFormed(plan, d.session) && !d.session.status.Prepared?
    ensures Decided(d.session, Step(plan, d, e).session)
  {
    hide Serve, Refresh;
    var f := Refresh(plan, d, e.refresh, e.retestId);
    RefreshDecided(plan, d, e.refresh, e.retestId);
    ServeDecided(plan, f, e);
    ServeDecided(plan, d, e);
  }

  /** Event `i` of the run is the one that approves the session. */
  predicate ApprovedBy(plan: seq<ScenarioStep>, o: Opening, events: seq<Event>, i: nat)
    requires plan != [] && i < |events|
  {
    var d := Reached(plan, o, events[..i]);
    d.session.status.Prepared? && Approves(d, events[i])
  }

  /** Event `i` of the run blocks or aborts the session while it is still prepared. */
  predicate DismissedBy(plan: seq<ScenarioStep>, o: Opening, events: seq<Event>, i: nat)
    requires plan != [] && i < |events|
  {
    var d := Reached(plan, o, events[..i]);
    d.session.status.Prepared? && Dismisses(d, events[i])
  }

  lemma ReachedNext(plan: seq<ScenarioStep>, o: Opening, events: seq<Event>)
    requires plan != [] && events != []
    ensures Reached(plan, o, events)
            == Step(plan, Reached(plan, o, events[..|events| - 1]), events[|events| - 1])
  {
    hide Step;
  }

  ghost predicate EverApproved(plan: seq<ScenarioStep>, o: Opening, events: seq<Event>)
    requires plan != []
  {
    exists i :: 0 <= i < |events| && ApprovedBy(plan, o, events, i)
  }

  ghost predicate EverDismissed(plan: seq<ScenarioStep>, o: Opening, events: seq<Event>)
    requires plan != []
  {
    exists i :: 0 <= i < |events| && DismissedBy(plan, o, events, i)
  }

  lemma DecisionsNext(plan: seq<ScenarioStep>, o: Opening, events: seq<Event>)
    requires plan != [] && events != []
    ensures var n := |events| - 1;
            && (EverApproved(plan, o, events) <==>
                  EverApproved(plan, o, events[..n]) || ApprovedBy(plan, o, events, n))
            && (EverDismissed(plan, o, events) <==>
                  EverDismissed(plan, o, events[..n]) || DismissedBy(plan, o, events, n))
  {
    hide Reached, Approves, Dismisses;
    var n := |events| - 1;
    forall i | 0 <= i < n
      ensures ApprovedBy(plan, o, events, i) == ApprovedBy(plan, o, events[..n], i)
      ensures DismissedBy(plan, o, events, i) == DismissedBy(plan, o, events[..n], i)
    {
      assert events[..n][..i] == events[..i];
    }
  }

  /**
   Leaving PREPARED, over every run: a session that was not approved or dismissed is still exactly as it was
   opened; it carries an approval exactly when one call approved it while it was prepared; and it has moved on
   without approval exactly when one call blocked or aborted it while it was prepared.
   */
  lemma {:induction false} LeavesPreparedExactly(plan: seq<ScenarioStep>, o: Opening, events: seq<Event>)
    requires ValidPlan(plan)
    ensures var s := Reached(plan, o, events).session;
            && (s.status.Prepared? ==> s == OpenDesk(plan, o).session)
            && (s.approvedAt.Some? <==> EverApproved(plan, o, events))
            && (!s.status.Prepared? && s.approvedAt.None? <==> EverDismissed(plan, o, events))
  {
    if events != [] {
      hide Step, Reached, OpenDesk, Approves, Dismisses, Coupling, EverApproved, EverDismissed;
      var n := |events| - 1;
      var d, e := Reached(plan, o, events[..n]), events[n];
      LeavesPreparedExactly(plan, o, events[..n]);
      ReachedNext(plan, o, events);
      DecisionsNext(plan, o, events);
      if d.session.status.Prepared? {
        OpeningIsUntouched(plan, o);
        PreparedStep(plan, d, e);
      } else {
        StepDecided(plan, d, e);
      }
    }
  }

  lemma OpeningIsUntouched(plan: seq<ScenarioStep>, o: Opening)
    requires plan != []
    ensures Untouched(OpenDesk(plan, o).session)
  {
  }

  // ---- the attestation ----

  predicate HumanCall(e: Event) {
    match e.request
    case Answer(_, _) => true
    case Act(action, _, _) =>
      action.Approve? || action.Activate? || action.Resume? || action.Block? || action.Abort?
    case _ => false
  }

  function TokenOf(e: Event): Option<string> {
    match e.request
    case Act(_, token, _) => token
    case Answer(_, token) => token
    case _ => None
  }

  /** The tokens handed out for a session: the first one, and one whenever the runner page mints another. */
  function Issued(o: Opening, events: seq<Event>): set<string> {
    {o.token} + set i | 0 <= i < |events| && events[i].request.OpenRunner? :: events[i].request.minted
  }

  /** A call that needs a human changes nothing past the refresh unless it carries the stored attestation. */
  lemma HumanActionsNeedToken(plan: seq<ScenarioStep>, d: Desk, e: Event)
    requires WellFormed(plan, d.session)
    requires HumanCall(e) && !Attested(Refresh(plan, d, e.refresh, e.retestId), TokenOf(e))
    ensures Step(plan, d, e) == Refresh(plan, d, e.refresh, e.retestId)
  {
    hide Refresh;
  }

  /** A terminal session holds no attestation. */
  ghost predicate ClosedHoldsNoToken(d: Desk) {
    d.session.Terminal() ==> d.attestation.None?
  }

  lemma RefreshAttestation(plan: seq<ScenarioStep>, d: Desk, k: Ticks, id: SessionId)
    requires WellFormed(plan, d.session)
    ensures var f := Refresh(plan, d, k, id);
            && (f.attestation.None? || f.attestation == d.attestation)
            && (ClosedHoldsNoToken(d) ==> ClosedHoldsNoToken(f))
  {
    hide Install, Advance, Timeout, Elapsed;
  }

  lemma ServeAttestation(plan: seq<ScenarioStep>, d: Desk, e: Event)
    requires WellFormed(plan, d.session)
    ensures var f := Serve(plan, d, e);
            && (f.attestation.None? || f.attestation == d.attestation
                || (e.request.OpenRunner? && f.attestation == Some(e.request.minted)))
            && (ClosedHoldsNoToken(d) ==> ClosedHoldsNoToken(f))
  {
    hide Perform, AcceptObservation, Install, SubmitVerdict, IngestAll, CloseBatch;
  }

  lemma StepAttestation(plan: seq<ScenarioStep>, d: Desk, e: Event)
    requires WellFormed(plan, d.session)
    ensures var f := Step(plan, d, e);
            && (f.attestation.None? || f.attestation == d.attestation
                || (e.request.OpenRunner? && f.attestation == Some(e.request.minted)))
            && (ClosedHoldsNoToken(d) ==> ClosedHoldsNoToken(f))
  {
    hide Refresh, Serve;
    RefreshAttestation(plan, d, e.refresh, e.retestId);
    ServeAttestation(plan, Refresh(plan, d, e.refresh, e.retestId), e);
    ServeAttestation(plan, d, e);
  }

  /** What is stored as attestation was issued for this session. */
  lemma {:induction false} StoredWasIssued(plan: seq<ScenarioStep>, o: Opening, events: seq<Event>)
    requires plan != []
    ensures var a := Reached(plan, o, events).attestation;
            a.Some? ==> a.value in Issued(o, events)
  {
    if events != [] {
      hide Step, Reached;
      var n := |events| - 1;
      StoredWasIssued(plan, o, events[..n]);
      IssuedGrows(o, events);
      ReachedNext(plan, o, events);
      StepAttestation(plan, Reached(plan, o, events[..n]), events[n]);
    }
  }

  lemma IssuedGrows(o: Opening, events: seq<Event>)
    requires events != []
    ensures Issued(o, events[..|events| - 1]) <= Issued(o, events)
    ensures events[|events| - 1].request.OpenRunner? ==> events[|events| - 1].request.minted in Issued(o, events)
  {
    var init := events[..|events| - 1];
    forall x | x in Issued(o, init) ensures x in Issued(o, events) {
      if x != o.token {
        var i :| 0 <= i < |init| && init[i].request.OpenRunner? && init[i].request.minted == x;
        assert events[i] == init[i];
      }
    }
  }

  /**
   Nothing moves without a human: after any run in which no call that needs one carries a token that was issued
   for the session, the session is exactly as it was opened, whatever else was called, reported or timed out.
   */
  lemma {:induction false} NothingMovesWithoutToken(plan: seq<ScenarioStep>, o: Opening, events: seq<Event>)
    requires ValidPlan(plan)
    requires forall i :: 0 <= i < |events| && HumanCall(events[i]) ==>
               TokenOf(events[i]).None? || TokenOf(events[i]).value !in Issued(o, events)
    ensures Reached(plan, o, events).session == OpenDesk(plan, o).session
  {
    if events != [] {
      hide Step, Reached, OpenDesk, Issued, Coupling;
      var n := |events| - 1;
      var d, e := Reached(plan, o, events[..n]), events[n];
      IssuedGrows(o, events);
      assert forall i :: 0 <= i < n ==> events[..n][i] == events[i];
      NothingMovesWithoutToken(plan, o, events[..n]);
      ReachedNext(plan, o, events);
      StoredWasIssued(plan, o, events[..n]);
      OpeningIsUntouched(plan, o);
      PreparedStep(plan, d, e);
    }
  }

  lemma {:induction false} RunClosesToken(plan: seq<ScenarioStep>, o: Opening, events: seq<Event>)
    requires plan != []
    ensures ClosedHoldsNoToken(Reached(plan, o, events))
  {
    hide Step;
    if events != [] {
      RunClosesToken(plan, o, events[..|events| - 1]);
      StepAttestation(plan, Reached(plan, o, events[..|events| - 1]), events[|events| - 1]);
    }
  }

  // ---- reopening ----

  /** The calls that take a terminal session up again; none of them needs a human. */
  predicate Reopens(d: Desk, e: Event)
    requires d.session.currentStepIndex < |d.session.results|
  {
    var s := d.session;
    && e.request.Act?
    && Heard(d, e.request.action, e.request.token, e.request.expected)
    && (|| (e.request.action.Retry? && !Current(s).status.Passed?)
        || (e.request.action.Next? && s.currentStepIndex + 1 < |s.results|))
  }

  lemma ControlReopens(plan: seq<ScenarioStep>, s: Session, action: Action, t: int, id: SessionId)
    requires WellFormed(plan, s) && Coupling(s) && s.Terminal()
    ensures var out := Perform(plan, s, action, t, id);
            (out.Ok? && !out.value.Terminal()) <==>
            || (action.Retry? && !Current(s).status.Passed?)
            || (action.Next? && s.currentStepIndex + 1 < |s.results|)
  {
    FinalizeDecides(s.results);
  }

  /**
   FAILED, BLOCKED and ABORTED are not absorbing: from any sound terminal session a call leads to an open one
   exactly when it retries a failed or blocked current step, or moves on from a step that is not the last.
   */
  lemma TerminalReopensExactly(plan: seq<ScenarioStep>, d: Desk, e: Event, now: int)
    requires SessionInv(plan, d.session, now) && d.session.Terminal()
    ensures !Step(plan, d, e).session.Terminal() <==> Reopens(d, e)
  {
    hide StepInv, Perform;
    if e.request.Act? {
      ControlReopens(plan, d.session, e.request.action, e.act.finish, e.retestId);
    } else {
      TerminalTakesNothing(plan, d, e);
    }
  }

  lemma TerminalTakesNothing(plan: seq<ScenarioStep>, d: Desk, e: Event)
    requires WellFormed(plan, d.session) && Coupling(d.session) && d.session.Terminal() && !e.request.Act?
    ensures Step(plan, d, e).session == d.session
  {
  }

  /**
   Such sessions are reached: every session can be aborted before it is approved, and then retried by anyone, after
   which it waits READY for activation although nobody ever approved it.
   */
  lemma UnapprovedSessionBecomesReady(plan: seq<ScenarioStep>, o: Opening, abort: Event, retry: Event)
    requires ValidPlan(plan)
    requires abort.request == Request.Act(Abort, Some(o.token), None)
    requires retry.request == Request.Act(Action.Retry, None, None)
    ensures Reached(plan, o, [abort]).session.status.Aborted?
    ensures var s := Reached(plan, o, [abort, retry]).session;
            s.status.Ready? && s.approvedAt.None? && Current(s).attempt == 2
  {
    hide Step;
    ReachedNext(plan, o, [abort]);
    ReachedNext(plan, o, [abort, retry]);
    assert [abort][..0] == [] && [abort, retry][..1] == [abort];
    OpeningIsUntouched(plan, o);
    AbortUnapproved(plan, OpenDesk(plan, o), abort);
    RetryBlocked(plan, Reached(plan, o, [abort]), retry);
  }

  lemma AbortUnapproved(plan: seq<ScenarioStep>, d: Desk, e: Event)
    requires WellFormed(plan, d.session) && d.session.status.Prepared? && d.session.approvedAt.None?
    requires d.attestation.Some? && e.request == Request.Act(Abort, d.attestation, None)
    requires Current(d.session).status.Pending? && Current(d.session).attempt == 1
    ensures var s := Step(plan, d, e).session;
            s.status.Aborted? && s.approvedAt.None? && Current(s).status.Blocked? && Current(s).attempt == 1
  {
    hide RetryIds;
  }

  lemma RetryBlocked(plan: seq<ScenarioStep>, d: Desk, e: Event)
    requires WellFormed(plan, d.session) && d.session.status.Aborted? && Current(d.session).status.Blocked?
    requires e.request == Request.Act(Action.Retry, None, None)
    ensures var s := Step(plan, d, e).session;
            && s.status.Ready? && s.approvedAt == d.session.approvedAt
            && Current(s).attempt == Current(d.session).attempt + 1
  {
  }
}
