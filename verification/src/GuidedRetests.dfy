/**
 The sessions of the guided service together: starting a session, calling one, and the retests that failed or
 blocked sessions leave behind. Parent chains are finite and their step sets never grow.
 */
module GuidedRetests {
  import opened Wrappers
  import opened GuidedModels
  import opened GuidedSteps
  import opened GuidedStepLaws
  import opened GuidedTransitions
  import opened GuidedRuns

  datatype Entry = Entry(scenarioId: string, plan: seq<ScenarioStep>, desk: Desk)

  type Store = map<SessionId, Entry>

  function StepIds(plan: seq<ScenarioStep>): set<string> {
    set step | step in plan :: step.id
  }

  // ---- which steps a retest holds ----

  predicate NeedsRetest(r: StepResult) {
    r.status.Failed? || r.status.Blocked?
  }

  /** The plan of an automatic retest: the steps whose results failed or were blocked, in order. */
  function RetestPlan(plan: seq<ScenarioStep>, results: seq<StepResult>): seq<ScenarioStep>
    requires |plan| == |results|
  {
    if plan == [] then [] else
      var n := |plan| - 1;
      RetestPlan(plan[..n], results[..n]) + (if NeedsRetest(results[n]) then [plan[n]] else [])
  }

  /** `at` lists, in order and without repetition, the positions that need a retest and no others. */
  ghost predicate FailingAt(results: seq<StepResult>, at: seq<nat>) {
    && (forall j :: 0 <= j < |at| ==> at[j] < |results| && NeedsRetest(results[at[j]]))
    && (forall j, k :: 0 <= j < k < |at| ==> at[j] < at[k])
    && (forall i :: 0 <= i < |results| && NeedsRetest(results[i]) ==> i in at)
  }

  /** The retest holds exactly the failed and blocked steps, each once, in the order of the session. */
  lemma {:induction false} RetestHoldsExactly(plan: seq<ScenarioStep>, results: seq<StepResult>) returns (at: seq<nat>)
    requires |plan| == |results|
    ensures FailingAt(results, at)
    ensures |RetestPlan(plan, results)| == |at|
    ensures forall j :: 0 <= j < |at| ==> at[j] < |plan| && RetestPlan(plan, results)[j] == plan[at[j]]
  {
    at := [];
    if plan != [] {
      hide RetestPlan, FailingAt, NeedsRetest;
      var n := |plan| - 1;
      var front := RetestHoldsExactly(plan[..n], results[..n]);
      FailingAtNext(results, front);
      RetestPlanNext(plan, results);
      PicksNext(plan, RetestPlan(plan[..n], results[..n]), front, NeedsRetest(results[n]));
      at := if NeedsRetest(results[n]) then front + [n] else front;
    }
  }

  lemma PicksNext(plan: seq<ScenarioStep>, picked: seq<ScenarioStep>, front: seq<nat>, more: bool)
    requires plan != [] && |picked| == |front|
    requires forall j :: 0 <= j < |front| ==> front[j] < |plan| - 1 && picked[j] == plan[..|plan| - 1][front[j]]
    ensures var n := |plan| - 1;
            var at, next := if more then front + [n] else front, picked + if more then [plan[n]] else [];
            && |next| == |at|
            && forall j :: 0 <= j < |at| ==> at[j] < |plan| && next[j] == plan[at[j]]
  {
  }

  lemma RetestPlanNext(plan: seq<ScenarioStep>, results: seq<StepResult>)
    requires |plan| == |results| > 0
    ensures var n := |plan| - 1;
            RetestPlan(plan, results)
            == RetestPlan(plan[..n], results[..n]) + (if NeedsRetest(results[n]) then [plan[n]] else [])
  {
  }

  lemma FailingAtNext(results: seq<StepResult>, front: seq<nat>)
    requires results != [] && FailingAt(results[..|results| - 1], front)
    ensures var n := |results| - 1;
            && FailingAt(results, if NeedsRetest(results[n]) then front + [n] else front)
            && forall j :: 0 <= j < |front| ==> front[j] < n
  {
    var n := |results| - 1;
    var at := if NeedsRetest(results[n]) then front + [n] else front;
    forall i | 0 <= i < |results| && NeedsRetest(results[i]) ensures i in at {
      if i == n {
        assert at[|front|] == n;
      } else {
        assert results[..n][i] == results[i];
        var j :| 0 <= j < |front| && front[j] == i;
        assert at[j] == i;
      }
    }
    forall j | 0 <= j < |front| ensures front[j] < n && NeedsRetest(results[front[j]]) {
      assert results[..n][front[j]] == results[front[j]];
    }
  }

  lemma {:induction false} RetestPlanIds(plan: seq<ScenarioStep>, results: seq<StepResult>)
    requires |plan| == |results|
    requires forall i :: 0 <= i < |plan| ==> results[i].stepId == plan[i].id
    ensures RetryIds(results) == seq(|RetestPlan(plan, results)|,
                                     i requires 0 <= i < |RetestPlan(plan, results)| => RetestPlan(plan, results)[i].id)
  {
    if plan != [] {
      RetestPlanIds(plan[..|plan| - 1], results[..|plan| - 1]);
    }
  }

  // ---- what a call leaves alone ----

  /** Identity, attempt, parent and an existing retest link stay; a new link belongs to a closed session. */
  ghost predicate Framed(s: Session, t: Session, id: SessionId) {
    && t.attempt == s.attempt && t.parentSessionId == s.parentSessionId && t.hasObserver == s.hasObserver
    && (s.retestSessionId.Some? ==> t.retestSessionId == s.retestSessionId)
    && (s.retestSessionId.None? && t.retestSessionId.Some? ==>
          t.retestSessionId.value == id && RetryIds(t.results) != [] && t.Terminal())
  }

  lemma InstallFrames(s: Session, v: Live, id: SessionId)
    requires s.currentStepIndex < |s.results|
    ensures Framed(s, Install(s, v, id), id)
  {
  }

  lemma PerformFrames(plan: seq<ScenarioStep>, s: Session, action: Action, t: int, id: SessionId)
    requires WellFormed(plan, s)
    ensures var out := Perform(plan, s, action, t, id);
            out.Ok? ==> Framed(s, out.value, id)
  {
    hide RetryIds, FinishTiming, FinishEvidence, FreshResult, AbortResult;
  }

  lemma AcceptFrames(plan: seq<ScenarioStep>, s: Session, o: Observation, k: Ticks, defer: bool, id: SessionId)
    requires WellFormed(plan, s)
    ensures Framed(s, AcceptObservation(plan, s, o, k, defer, id), id)
  {
    hide Consume, Install;
    var step := plan[s.currentStepIndex];
    if step.oracle.Some? {
      InstallFrames(s.(lastObservationAt := Some(k.accept)), Consume(step, step.oracle.value, CurrentLive(s), o, k, defer), id);
    }
  }

  lemma RefreshFrames(plan: seq<ScenarioStep>, d: Desk, k: Ticks, id: SessionId)
    requires WellFormed(plan, d.session)
    ensures Framed(d.session, Refresh(plan, d, k, id).session, id)
  {
    hide Advance, Timeout, Elapsed, Install;
    var s := d.session;
    var step := plan[s.currentStepIndex];
    if step.oracle.Some? {
      InstallFrames(s, Advance(step, step.oracle.value, CurrentLive(s), k).0, id);
    }
    InstallFrames(s, Timeout(step, Current(s), k.finish), id);
  }

  lemma {:induction false} IngestFrames(plan: seq<ScenarioStep>, a: Intake, items: seq<Timed>, id: SessionId)
    requires WellFormed(plan, a.session)
    ensures Framed(a.session, IngestAll(plan, a, items, id).session, id)
  {
    hide AcceptObservation;
    if items != [] {
      var init, last := items[..|items| - 1], items[|items| - 1];
      IngestFrames(plan, a, init, id);
      AcceptFrames(plan, IngestAll(plan, a, init, id).session, last.observation, last.ticks, true, id);
    }
  }

  lemma CloseBatchFrames(plan: seq<ScenarioStep>, s: Session, k: Ticks, id: SessionId)
    requires WellFormed(plan, s)
    ensures Framed(s, CloseBatch(plan, s, k, id), id)
    ensures s.Terminal() ==> CloseBatch(plan, s, k, id) == s
  {
    hide Advance, Install;
    var step := plan[s.currentStepIndex];
    if step.oracle.Some? {
      InstallFrames(s, Advance(step, step.oracle.value, CurrentLive(s), k).0, id);
    }
  }

  lemma ServeFrames(plan: seq<ScenarioStep>, d: Desk, e: Event)
    requires WellFormed(plan, d.session)
    ensures Framed(d.session, Serve(plan, d, e).session, e.retestId)
  {
    hide Perform, AcceptObservation, IngestAll, CloseBatch, Install, SubmitVerdict, RetryIds;
    var s := d.session;
    match e.request
    case Act(action, _, _) => PerformFrames(plan, s, action, e.act.finish, e.retestId);
    case Answer(verdict, _) =>
      var out := SubmitVerdict(plan[s.currentStepIndex], s.hasObserver, CurrentLive(s), verdict, e.act.finish);
      if out.Ok? {
        InstallFrames(s, out.value, e.retestId);
      }
    case Report(o) => AcceptFrames(plan, s, o, e.act, false, e.retestId);
    case ReportBatch(items) =>
      IngestFrames(plan, Intake(s, d.observations, 0, 0), items, e.retestId);
      CloseBatchFrames(plan, IngestAll(plan, Intake(s, d.observations, 0, 0), items, e.retestId).session, e.act, e.retestId);
    case _ =>
  }

  // ---- the service ----

  /** The automatic retest of session `id`, prepared from the results that failed or were blocked. */
  function Child(entry: Entry, id: SessionId, d: Desk, token: string): Entry
    requires |entry.plan| == |d.session.results|
  {
    var plan := RetestPlan(entry.plan, d.session.results);
    Entry(entry.scenarioId, plan,
          OpenDesk(plan, Opening(d.session.hasObserver, Some(id), d.session.attempt + 1, token)))
  }

  /** Stores what one part of a call did to session `id`; a new retest link inserts the retest it names. */
  function Settle(store: Store, id: SessionId, d: Desk, token: string): Store
    requires id in store && WellFormed(store[id].plan, d.session)
  {
    var before, saved := store[id].desk.session, store[id := store[id].(desk := d)];
    if before.retestSessionId.None? && d.session.retestSessionId.Some? then
      saved[d.session.retestSessionId.value := Child(store[id], id, d, token)]
    else saved
  }

  function CallRefresh(store: Store, id: SessionId, e: Event, token: string): Store
    requires id in store && WellFormed(store[id].plan, store[id].desk.session)
  {
    Settle(store, id, Refresh(store[id].plan, store[id].desk, e.refresh, e.retestId), token)
  }

  function CallServe(store: Store, id: SessionId, e: Event, token: string): Store
    requires id in store && WellFormed(store[id].plan, store[id].desk.session)
  {
    Settle(store, id, Serve(store[id].plan, store[id].desk, e), token)
  }

  /** Every session is sound, and every parent link leads to a session of the previous attempt with all its steps. */
  ghost predicate Linked(store: Store, id: SessionId)
    requires id in store
  {
    var p := store[id].desk.session.parentSessionId;
    p.Some? ==>
      && p.value in store
      && store[p.value].desk.session.attempt + 1 == store[id].desk.session.attempt
      && StepIds(store[id].plan) <= StepIds(store[p.value].plan)
  }

  /** A retest link names a session that has this one as its parent. */
  ghost predicate RetestLinked(store: Store, id: SessionId)
    requires id in store
  {
    var t := store[id].desk.session.retestSessionId;
    t.Some? ==> t.value in store && store[t.value].desk.session.parentSessionId == Some(id)
  }

  ghost predicate StoreInv(store: Store, now: int) {
    forall id :: id in store ==>
      && SessionInv(store[id].plan, store[id].desk.session, now)
      && Linked(store, id)
      && RetestLinked(store, id)
  }

  lemma {:induction false} RetestPlanSubset(plan: seq<ScenarioStep>, results: seq<StepResult>)
    requires |plan| == |results|
    ensures forall step :: step in RetestPlan(plan, results) ==> step in plan
  {
    if plan != [] {
      RetestPlanSubset(plan[..|plan| - 1], results[..|plan| - 1]);
    }
  }

  lemma RetestPlanValid(plan: seq<ScenarioStep>, s: Session, now: int)
    requires SessionInv(plan, s, now) && RetryIds(s.results) != []
    ensures ValidPlan(RetestPlan(plan, s.results))
    ensures StepIds(RetestPlan(plan, s.results)) <= StepIds(plan)
  {
    hide RetryIds, RetestPlan, TimingInv, TallyInv, SettleInv, VerdictInv;
    RetestPlanIds(plan, s.results);
    RetestPlanSubset(plan, s.results);
    var r := RetestPlan(plan, s.results);
    forall i | 0 <= i < |r| ensures r[i].Valid() {
      assert r[i] in plan;
    }
  }

  /** The id offered for a retest is unused, unless the session already has its retest. */
  predicate FreshRetest(store: Store, id: SessionId, e: Event)
    requires id in store
  {
    e.retestId !in store || store[id].desk.session.retestSessionId.Some?
  }

  /** Rewriting one session in place keeps the store sound if its links do. */
  lemma UpdateKeeps(store: Store, id: SessionId, d: Desk, now: int, t: int)
    requires StoreInv(store, now) && id in store && now <= t
    requires SessionInv(store[id].plan, d.session, t)
    requires d.session.attempt == store[id].desk.session.attempt
    requires d.session.parentSessionId == store[id].desk.session.parentSessionId
    requires RetestLinked(store[id := store[id].(desk := d)], id)
    ensures StoreInv(store[id := store[id].(desk := d)], t)
  {
    hide SessionInv;
    var after := store[id := store[id].(desk := d)];
    forall x | x in after
      ensures SessionInv(after[x].plan, after[x].desk.session, t) && Linked(after, x) && RetestLinked(after, x)
    {
      assert Linked(store, x) && RetestLinked(store, x);
      if x != id {
        LaterSession(store[x].plan, store[x].desk.session, now, t);
      }
    }
  }

  /** A new session without a retest of its own joins a sound store. */
  lemma InsertKeeps(store: Store, id: SessionId, entry: Entry, now: int)
    requires StoreInv(store, now) && id !in store
    requires SessionInv(entry.plan, entry.desk.session, now) && entry.desk.session.retestSessionId.None?
    requires Linked(store[id := entry], id)
    ensures StoreInv(store[id := entry], now)
  {
    hide SessionInv;
    var after := store[id := entry];
    forall x | x in after
      ensures SessionInv(after[x].plan, after[x].desk.session, now) && Linked(after, x) && RetestLinked(after, x)
    {
      if x != id {
        assert Linked(store, x) && RetestLinked(store, x);
      }
    }
  }

  lemma SpawnKeeps(store: Store, id: SessionId, d: Desk, child: SessionId, token: string, now: int, t: int)
    requires StoreInv(store, now) && id in store && now <= t && child !in store
    requires SessionInv(store[id].plan, d.session, t) && RetryIds(d.session.results) != []
    requires d.session.attempt == store[id].desk.session.attempt
    requires d.session.parentSessionId == store[id].desk.session.parentSessionId
    requires d.session.retestSessionId == Some(child)
    requires WellFormed(store[id].plan, d.session)
    ensures StoreInv(store[id := store[id].(desk := d)][child := Child(store[id], id, d, token)], t)
  {
    hide SessionInv, RetestPlan, RetryIds, StoreInv;
    var plan, s := store[id].plan, d.session;
    var c := Child(store[id], id, d, token);
    RetestPlanValid(plan, s, t);
    NewSessionKeeps(c.plan, s.hasObserver, Some(id), s.attempt + 1, now);
    InsertKeeps(store, child, c, now);
    UpdateKeeps(store[child := c], id, d, now, t);
    assert store[child := c][id := store[id].(desk := d)] == store[id := store[id].(desk := d)][child := c];
  }

  /** One part of a call keeps the store sound, given a fresh id for a retest it may create. */
  lemma SettleKeeps(store: Store, id: SessionId, d: Desk, e: Event, token: string, now: int, t: int)
    requires StoreInv(store, now) && id in store && now <= t
    requires SessionInv(store[id].plan, d.session, t)
    requires Framed(store[id].desk.session, d.session, e.retestId)
    requires FreshRetest(store, id, e)
    ensures WellFormed(store[id].plan, d.session) && StoreInv(Settle(store, id, d, token), t)
  {
    SoundIsWellFormed(store[id].plan, d.session, t);
    hide SessionInv, RetestPlan, RetryIds, StoreInv, OpenDesk, Child, Linked;
    if store[id].desk.session.retestSessionId.None? && d.session.retestSessionId.Some? {
      SpawnKeeps(store, id, d, e.retestId, token, now, t);
    } else {
      RelinkedKeeps(store, id, d, now, t);
    }
  }

  lemma RelinkedKeeps(store: Store, id: SessionId, d: Desk, now: int, t: int)
    requires StoreInv(store, now) && id in store && now <= t
    requires SessionInv(store[id].plan, d.session, t)
    requires d.session.attempt == store[id].desk.session.attempt
    requires d.session.parentSessionId == store[id].desk.session.parentSessionId
    requires d.session.retestSessionId == store[id].desk.session.retestSessionId
    ensures StoreInv(store[id := store[id].(desk := d)], t)
  {
    hide SessionInv, StoreInv, Linked;
    LinksOf(store, id, now);
    UpdateKeeps(store, id, d, now, t);
  }

  lemma LinksOf(store: Store, id: SessionId, now: int)
    requires StoreInv(store, now) && id in store
    ensures SessionInv(store[id].plan, store[id].desk.session, now) && Linked(store, id) && RetestLinked(store, id)
  {
  }

  /** A refresh keeps the whole store sound, also when it times a last step out and so prepares a retest. */
  lemma CallRefreshKeeps(store: Store, id: SessionId, e: Event, token: string, now: int)
    requires StoreInv(store, now) && id in store && FreshRetest(store, id, e)
    requires e.refresh.From(now)
    ensures StoreInv(CallRefresh(store, id, e, token), e.refresh.finish)
  {
    hide SessionInv, Refresh, Settle, Framed;
    assert SessionInv(store[id].plan, store[id].desk.session, now);
    SoundIsWellFormed(store[id].plan, store[id].desk.session, now);
    RefreshKeeps(store[id].plan, store[id].desk, now, e.refresh, e.retestId);
    RefreshFrames(store[id].plan, store[id].desk, e.refresh, e.retestId);
    SettleKeeps(store, id, Refresh(store[id].plan, store[id].desk, e.refresh, e.retestId), e, token, now, e.refresh.finish);
  }

  lemma CallServeKeeps(store: Store, id: SessionId, e: Event, token: string, now: int)
    requires StoreInv(store, now) && id in store && FreshRetest(store, id, e)
    requires if e.request.ReportBatch? then BatchTimes(now, e.request.items) && e.act.From(BatchEnd(now, e.request.items))
             else e.act.From(now)
    ensures StoreInv(CallServe(store, id, e, token), e.act.finish)
  {
    hide SessionInv, Serve, Settle, Framed;
    assert SessionInv(store[id].plan, store[id].desk.session, now);
    SoundIsWellFormed(store[id].plan, store[id].desk.session, now);
    ServeKeeps(store[id].plan, store[id].desk, e, now);
    ServeFrames(store[id].plan, store[id].desk, e);
    if e.request.ReportBatch? {
      BatchEndLater(now, e.request.items);
    }
    SettleKeeps(store, id, Serve(store[id].plan, store[id].desk, e), e, token, now, e.act.finish);
  }

  /** Each session has at most one automatic retest: its link, once set, is never changed by a call. */
  lemma OneRetestOnly(store: Store, id: SessionId, e: Event, token: string)
    requires id in store && WellFormed(store[id].plan, store[id].desk.session)
    requires store[id].desk.session.retestSessionId.Some?
    ensures CallRefresh(store, id, e, token)[id].desk.session.retestSessionId == store[id].desk.session.retestSessionId
    ensures CallServe(store, id, e, token)[id].desk.session.retestSessionId == store[id].desk.session.retestSessionId
    ensures CallRefresh(store, id, e, token).Keys == CallServe(store, id, e, token).Keys == store.Keys
  {
    hide Refresh, Serve;
    RefreshFrames(store[id].plan, store[id].desk, e.refresh, e.retestId);
    ServeFrames(store[id].plan, store[id].desk, e);
  }

  // ---- starting a session ----

  datatype StartError =
    | UnknownStep | DuplicateStep | NoStep | ObserverMissing | UnknownParent | ForeignParent | NotRetestable

  function Find(steps: seq<ScenarioStep>, id: string): Option<ScenarioStep> {
    if steps == [] then None else if steps[0].id == id then Some(steps[0]) else Find(steps[1..], id)
  }

  function IdsOf(steps: seq<ScenarioStep>): seq<string> {
    seq(|steps|, i requires 0 <= i < |steps| => steps[i].id)
  }

  predicate Distinct(ids: seq<string>) {
    forall i, j :: 0 <= i < j < |ids| ==> ids[i] != ids[j]
  }

  predicate Retestable(results: seq<StepResult>, id: string) {
    exists i :: 0 <= i < |results| && results[i].stepId == id && NeedsRetest(results[i])
  }

  predicate AllRetestable(results: seq<StepResult>, ids: seq<string>) {
    forall i :: 0 <= i < |ids| ==> Retestable(results, ids[i])
  }

  predicate Known(steps: seq<ScenarioStep>, ids: seq<string>) {
    forall i :: 0 <= i < |ids| ==> Find(steps, ids[i]).Some?
  }

  function PlanFor(steps: seq<ScenarioStep>, ids: seq<string>): seq<ScenarioStep>
    requires Known(steps, ids)
  {
    seq(|ids|, i requires 0 <= i < |ids| => Find(steps, ids[i]).value)
  }

  predicate AsksObserver(plan: seq<ScenarioStep>) {
    exists i :: 0 <= i < |plan| && plan[i].verdictAuthority == Only(Observer)
  }

  /** Checks in the order of the source; an empty selection means every step of the scenario. */
  function Start(store: Store, scenarioId: string, steps: seq<ScenarioStep>, selected: seq<string>,
                 hasObserver: bool, parent: Option<SessionId>, token: string): Result<Entry, StartError>
  {
    var ids := if selected == [] then IdsOf(steps) else selected;
    if !Known(steps, ids) then Err(UnknownStep)
    else if !Distinct(ids) then Err(DuplicateStep)
    else if ids == [] then Err(NoStep)
    else
      var plan := PlanFor(steps, ids);
      if AsksObserver(plan) && !hasObserver then Err(ObserverMissing)
      else if parent.None? then
        Ok(Entry(scenarioId, plan, OpenDesk(plan, Opening(hasObserver, None, 1, token))))
      else if parent.value !in store then Err(UnknownParent)
      else if store[parent.value].scenarioId != scenarioId then Err(ForeignParent)
      else
        var p := store[parent.value].desk.session;
        if !AllRetestable(p.results, ids) then Err(NotRetestable)
        else Ok(Entry(scenarioId, plan, OpenDesk(plan, Opening(hasObserver, parent, p.attempt + 1, token))))
  }

  lemma {:induction false} FindFinds(steps: seq<ScenarioStep>, id: string)
    ensures Find(steps, id).Some? ==> Find(steps, id).value.id == id && Find(steps, id).value in steps
  {
    if steps != [] {
      FindFinds(steps[1..], id);
    }
  }

  lemma PlanIsValid(steps: seq<ScenarioStep>, ids: seq<string>)
    requires Known(steps, ids)
    requires forall i :: 0 <= i < |steps| ==> steps[i].Valid()
    ensures forall i :: 0 <= i < |ids| ==> PlanFor(steps, ids)[i].id == ids[i] && PlanFor(steps, ids)[i].Valid()
  {
    forall i | 0 <= i < |ids| ensures PlanFor(steps, ids)[i].id == ids[i] && PlanFor(steps, ids)[i].Valid() {
      FindFinds(steps, ids[i]);
    }
  }

  /** A session as it is opened for these steps: prepared, nothing started, consumed or decided, and one token issued. */
  predicate OpenedFor(e: Entry, ids: seq<string>, hasObserver: bool, parent: Option<SessionId>, attempt: nat, token: string) {
    var s := e.desk.session;
    && |e.plan| == |ids| == |s.results|
    && (forall i :: 0 <= i < |ids| ==>
          var r := s.results[i];
          && e.plan[i].id == ids[i] == r.stepId && r.kind == e.plan[i].kind && r.status.Pending? && r.attempt == 1
          && r.timing.startedAt.None? && r.tally.samples == [] && r.manualVerdict.None? && r.failureCodes == {}
          && r.evidenceClass.Unknown?)
    && s.status.Prepared? && s.currentStepIndex == 0 && s.attempt == attempt && s.hasObserver == hasObserver
    && s.parentSessionId == parent && s.approvedAt.None? && s.retestSessionId.None? && s.revision == 0
    && e.desk.attestation == Some(token) && e.desk.heldToken == Some(token)
    && e.desk.observations == {} && e.desk.retired == []
  }

  lemma OpenedAs(scenarioId: string, plan: seq<ScenarioStep>, ids: seq<string>, hasObserver: bool, parent: Option<SessionId>,
                 attempt: nat, token: string)
    requires |plan| == |ids| && forall i :: 0 <= i < |ids| ==> plan[i].id == ids[i]
    ensures OpenedFor(Entry(scenarioId, plan, OpenDesk(plan, Opening(hasObserver, parent, attempt, token))), ids, hasObserver,
                   parent, attempt, token)
  {
  }

  /** The automatic retest of a session is opened for its failed and blocked steps, one attempt later. */
  lemma ChildIsOpened(entry: Entry, id: SessionId, d: Desk, token: string)
    requires |entry.plan| == |d.session.results|
    requires forall i :: 0 <= i < |entry.plan| ==> d.session.results[i].stepId == entry.plan[i].id
    ensures OpenedFor(Child(entry, id, d, token), RetryIds(d.session.results), d.session.hasObserver, Some(id),
                   d.session.attempt + 1, token)
    ensures Child(entry, id, d, token).scenarioId == entry.scenarioId
  {
    hide RetestPlan, RetryIds, OpenedFor, OpenDesk;
    RetestPlanIds(entry.plan, d.session.results);
    OpenedAs(entry.scenarioId, RetestPlan(entry.plan, d.session.results), RetryIds(d.session.results), d.session.hasObserver,
             Some(id), d.session.attempt + 1, token);
  }

  /** The scenario has a step of this id. */
  predicate Offers(steps: seq<ScenarioStep>, x: string) {
    exists step :: step in steps && step.id == x
  }

  predicate OffersAll(steps: seq<ScenarioStep>, ids: seq<string>) {
    forall x :: x in ids ==> Offers(steps, x)
  }

  predicate SomeTwice(ids: seq<string>) {
    exists i, j :: 0 <= i < j < |ids| && ids[i] == ids[j]
  }

  /** Some chosen step takes its verdict from the observer alone. */
  predicate ForObserver(steps: seq<ScenarioStep>, ids: seq<string>) {
    exists step :: step in steps && step.id in ids && step.verdictAuthority == Only(Observer)
  }

  /** Every chosen step failed or was blocked in these results. */
  predicate AllFailedThere(results: seq<StepResult>, ids: seq<string>) {
    forall x :: x in ids ==> FailedThere(results, x)
  }

  predicate FailedThere(results: seq<StepResult>, x: string) {
    exists r :: r in results && r.stepId == x && (r.status.Failed? || r.status.Blocked?)
  }

  lemma {:induction false} FindIff(steps: seq<ScenarioStep>, id: string)
    ensures Find(steps, id).Some? <==> Offers(steps, id)
  {
    if steps != [] {
      FindIff(steps[1..], id);
      assert steps == [steps[0]] + steps[1..];
    }
  }

  lemma KnownIff(steps: seq<ScenarioStep>, ids: seq<string>)
    ensures Known(steps, ids) <==> OffersAll(steps, ids)
  {
    forall x ensures Find(steps, x).Some? <==> Offers(steps, x) {
      FindIff(steps, x);
    }
    hide Find, Offers;
    if Known(steps, ids) {
      forall x | x in ids ensures Offers(steps, x) {
        var i :| 0 <= i < |ids| && ids[i] == x;
      }
    }
  }

  /** With unique step ids, an observer is demanded exactly if some chosen step is the observer's alone. */
  lemma ObserverDemanded(steps: seq<ScenarioStep>, ids: seq<string>)
    requires Known(steps, ids)
    requires forall i, j :: 0 <= i < j < |steps| ==> steps[i].id != steps[j].id
    ensures AsksObserver(PlanFor(steps, ids)) <==> ForObserver(steps, ids)
  {
    var plan := PlanFor(steps, ids);
    forall i | 0 <= i < |ids| ensures plan[i] in steps && plan[i].id == ids[i] {
      FindFinds(steps, ids[i]);
    }
    hide Find;
    if ForObserver(steps, ids) {
      var step :| step in steps && step.id in ids && step.verdictAuthority == Only(Observer);
      var i :| 0 <= i < |ids| && ids[i] == step.id;
      var j :| 0 <= j < |steps| && steps[j] == step;
      var k :| 0 <= k < |steps| && steps[k] == plan[i];
      assert steps[j].id == steps[k].id;
      assert plan[i].verdictAuthority == Only(Observer);
    }
  }

  /**
   Starting a session, every refusal with the checks in order: a step the scenario does not have, one chosen twice, none
   at all, one for an observer without an observer, an unknown parent, one of another scenario, a step that neither
   failed nor was blocked there. Otherwise it is opened for the chosen steps, one attempt after its parent.
   */
  lemma StartMeans(store: Store, scenarioId: string, steps: seq<ScenarioStep>, selected: seq<string>, hasObserver: bool,
                   parent: Option<SessionId>, token: string)
    requires forall i, j :: 0 <= i < j < |steps| ==> steps[i].id != steps[j].id
    ensures var out := Start(store, scenarioId, steps, selected, hasObserver, parent, token);
            var ids := if selected == [] then IdsOf(steps) else selected;
            if !OffersAll(steps, ids) then out == Err(UnknownStep)
            else if SomeTwice(ids) then out == Err(DuplicateStep)
            else if ids == [] then out == Err(NoStep)
            else if !hasObserver && ForObserver(steps, ids) then out == Err(ObserverMissing)
            else if parent.None? then
              out.Ok? && out.value.scenarioId == scenarioId && OpenedFor(out.value, ids, hasObserver, None, 1, token)
            else if parent.value !in store then out == Err(UnknownParent)
            else if store[parent.value].scenarioId != scenarioId then out == Err(ForeignParent)
            else
              var p := store[parent.value].desk.session;
              if !AllFailedThere(p.results, ids) then out == Err(NotRetestable)
              else out.Ok? && out.value.scenarioId == scenarioId
                   && OpenedFor(out.value, ids, hasObserver, parent, p.attempt + 1, token)
    ensures var out := Start(store, scenarioId, steps, selected, hasObserver, parent, token);
            out.Ok? ==> forall step :: step in out.value.plan ==> step in steps
  {
    hide Known, PlanFor, OpenedFor, OpenDesk, AllRetestable, OffersAll, ForObserver, SomeTwice, Distinct,
      AllFailedThere, IdsOf, AsksObserver;
    var ids := if selected == [] then IdsOf(steps) else selected;
    KnownIff(steps, ids);
    DistinctIff(ids);
    if Known(steps, ids) {
      ObserverDemanded(steps, ids);
      ChosenSteps(steps, ids);
      var plan := PlanFor(steps, ids);
      OpenedAs(scenarioId, plan, ids, hasObserver, None, 1, token);
      if parent.Some? && parent.value in store {
        var p := store[parent.value].desk.session;
        RetestableIff(p.results, ids);
        OpenedAs(scenarioId, plan, ids, hasObserver, parent, p.attempt + 1, token);
      }
    }
  }

  lemma DistinctIff(ids: seq<string>)
    ensures Distinct(ids) <==> !SomeTwice(ids)
  {
  }

  lemma ChosenSteps(steps: seq<ScenarioStep>, ids: seq<string>)
    requires Known(steps, ids)
    ensures |PlanFor(steps, ids)| == |ids|
    ensures forall i :: 0 <= i < |ids| ==> PlanFor(steps, ids)[i].id == ids[i]
    ensures forall step :: step in PlanFor(steps, ids) ==> step in steps
  {
    forall i | 0 <= i < |ids| ensures PlanFor(steps, ids)[i].id == ids[i] && PlanFor(steps, ids)[i] in steps {
      FindFinds(steps, ids[i]);
    }
    hide Find;
  }

  lemma RetestableIff(results: seq<StepResult>, ids: seq<string>)
    ensures AllRetestable(results, ids) <==> AllFailedThere(results, ids)
  {
    forall x: string ensures Retestable(results, x) <==> FailedThere(results, x) {
      FailedThereIff(results, x);
    }
    hide Retestable, FailedThere;
    if AllRetestable(results, ids) {
      forall x | x in ids ensures FailedThere(results, x) {
        var i :| 0 <= i < |ids| && ids[i] == x;
      }
    }
  }

  lemma FailedThereIff(results: seq<StepResult>, x: string)
    ensures Retestable(results, x) <==> FailedThere(results, x)
  {
    if FailedThere(results, x) {
      var r :| r in results && r.stepId == x && (r.status.Failed? || r.status.Blocked?);
      var j :| 0 <= j < |results| && results[j] == r;
      assert NeedsRetest(results[j]);
    }
  }

  /** A started session joins a sound store: its parent is one attempt earlier and has all its steps. */
  lemma StartKeeps(store: Store, scenarioId: string, steps: seq<ScenarioStep>, selected: seq<string>,
                   hasObserver: bool, parent: Option<SessionId>, id: SessionId, token: string, now: int)
    requires StoreInv(store, now) && id !in store
    requires forall i :: 0 <= i < |steps| ==> steps[i].Valid()
    requires Start(store, scenarioId, steps, selected, hasObserver, parent, token).Ok?
    ensures StoreInv(store[id := Start(store, scenarioId, steps, selected, hasObserver, parent, token).value], now)
  {
    hide SessionInv, StoreInv, NewSession;
    var ids := if selected == [] then IdsOf(steps) else selected;
    var plan := PlanFor(steps, ids);
    PlanIsValid(steps, ids);
    if parent.None? {
      NewSessionKeeps(plan, hasObserver, None, 1, now);
      FreshLinks(plan, hasObserver, None, 1);
      InsertKeeps(store, id, Entry(scenarioId, plan, OpenDesk(plan, Opening(hasObserver, None, 1, token))), now);
    } else {
      var p := store[parent.value].desk.session;
      LinksOf(store, parent.value, now);
      assert IdsOf(plan) == ids;
      ParentHasSteps(plan, store[parent.value].plan, p, now);
      NewSessionKeeps(plan, hasObserver, parent, p.attempt + 1, now);
      FreshLinks(plan, hasObserver, parent, p.attempt + 1);
      InsertKeeps(store, id, Entry(scenarioId, plan, OpenDesk(plan, Opening(hasObserver, parent, p.attempt + 1, token))), now);
    }
  }

  lemma FreshLinks(plan: seq<ScenarioStep>, hasObserver: bool, parent: Option<SessionId>, attempt: nat)
    ensures var s := NewSession(plan, hasObserver, parent, attempt);
            s.parentSessionId == parent && s.attempt == attempt && s.retestSessionId.None?
  {
  }

  lemma ParentHasSteps(plan: seq<ScenarioStep>, parentPlan: seq<ScenarioStep>, p: Session, now: int)
    requires SessionInv(parentPlan, p, now)
    requires AllRetestable(p.results, IdsOf(plan))
    ensures StepIds(plan) <= StepIds(parentPlan)
  {
    hide TimingInv, TallyInv, SettleInv, VerdictInv;
    forall x | x in StepIds(plan) ensures x in StepIds(parentPlan) {
      var i :| 0 <= i < |plan| && plan[i].id == x;
      assert Retestable(p.results, IdsOf(plan)[i]);
      var j :| 0 <= j < |p.results| && p.results[j].stepId == x && NeedsRetest(p.results[j]);
      assert parentPlan[j].id == x && parentPlan[j] in parentPlan;
    }
  }

  // ---- runs of the whole service ----

  datatype ServiceCall =
    | Begin(scenarioId: string, steps: seq<ScenarioStep>, selected: seq<string>, hasObserver: bool,
            parent: Option<SessionId>, id: SessionId, token: string)
    | On(id: SessionId, event: Event, token: string)

  predicate Callable(store: Store, id: SessionId) {
    id in store && WellFormed(store[id].plan, store[id].desk.session)
  }

  /** A call on an unknown session, and a refused start, change nothing. */
  function ServiceStep(store: Store, c: ServiceCall): Store {
    match c
    case Begin(scenarioId, steps, selected, hasObserver, parent, id, token) =>
      var out := Start(store, scenarioId, steps, selected, hasObserver, parent, token);
      if out.Err? || id in store then store else store[id := out.value]
    case On(id, e, token) =>
      if !Callable(store, id) then store
      else
        var refreshed := if e.request.OpenRunner? || e.request.RestartProcess? then store
                         else CallRefresh(store, id, e, token);
        if Callable(refreshed, id) then CallServe(refreshed, id, e, token) else refreshed
  }

  /** Validated scenarios, fresh ids, and readings that follow the clock. */
  ghost predicate ProperCall(store: Store, c: ServiceCall, now: int) {
    match c
    case Begin(_, steps, _, _, _, _, _) => forall i :: 0 <= i < |steps| ==> steps[i].Valid()
    case On(id, e, _) => e.retestId !in store && TimesFrom(now, e)
  }

  function TimeAfter(c: ServiceCall, now: int): int {
    if c.On? then c.event.act.finish else now
  }

  ghost predicate ProperRun(store: Store, calls: seq<ServiceCall>, now: int)
    decreases |calls|
  {
    calls == [] || (ProperCall(store, calls[0], now)
                    && ProperRun(ServiceStep(store, calls[0]), calls[1..], TimeAfter(calls[0], now)))
  }

  function ServiceRun(store: Store, calls: seq<ServiceCall>): Store
    decreases |calls|
  {
    if calls == [] then store else ServiceRun(ServiceStep(store, calls[0]), calls[1..])
  }

  function RunEnd(calls: seq<ServiceCall>, now: int): int {
    if calls == [] then now else RunEnd(calls[1..], TimeAfter(calls[0], now))
  }

  lemma StoreLater(store: Store, now: int, t: int)
    requires StoreInv(store, now) && now <= t
    ensures StoreInv(store, t)
  {
    hide SessionInv;
    forall x | x in store
      ensures SessionInv(store[x].plan, store[x].desk.session, t) && Linked(store, x) && RetestLinked(store, x)
    {
      LinksOf(store, x, now);
      LaterSession(store[x].plan, store[x].desk.session, now, t);
    }
  }

  lemma EventEndsLater(e: Event, now: int)
    requires TimesFrom(now, e)
    ensures now <= e.refresh.finish <= e.act.finish
  {
    if e.request.ReportBatch? {
      BatchEndLater(e.refresh.finish, e.request.items);
    }
  }

  /** What a refresh adds to the store, it adds under the offered id. */
  lemma RefreshStaysFresh(store: Store, id: SessionId, e: Event, token: string)
    requires Callable(store, id) && e.retestId !in store
    ensures id in CallRefresh(store, id, e, token)
    ensures FreshRetest(CallRefresh(store, id, e, token), id, e)
  {
    hide Refresh;
    RefreshFrames(store[id].plan, store[id].desk, e.refresh, e.retestId);
  }

  lemma OnKeeps(store: Store, c: ServiceCall, now: int)
    requires StoreInv(store, now) && c.On? && ProperCall(store, c, now)
    ensures StoreInv(ServiceStep(store, c), c.event.act.finish)
  {
    var id, e := c.id, c.event;
    EventEndsLater(e, now);
    hide StoreInv, CallRefresh, CallServe, Callable, TimesFrom;
    StoreLater(store, now, e.act.finish);
    if Callable(store, id) {
      assert id in store by { CallableIn(store, id); }
      if e.request.OpenRunner? || e.request.RestartProcess? {
        UnrefreshedKeeps(store, id, e, c.token, now);
      } else {
        RefreshedKeeps(store, id, e, c.token, now);
      }
    }
  }

  lemma UnrefreshedKeeps(store: Store, id: SessionId, e: Event, token: string, now: int)
    requires StoreInv(store, now) && Callable(store, id) && e.retestId !in store && TimesFrom(now, e)
    requires e.request.OpenRunner? || e.request.RestartProcess?
    ensures StoreInv(CallServe(store, id, e, token), e.act.finish)
  {
    hide StoreInv, CallServe;
    StoreLater(store, now, e.refresh.finish);
    CallServeKeeps(store, id, e, token, e.refresh.finish);
  }

  lemma RefreshedKeeps(store: Store, id: SessionId, e: Event, token: string, now: int)
    requires StoreInv(store, now) && Callable(store, id) && e.retestId !in store && TimesFrom(now, e)
    ensures var refreshed := CallRefresh(store, id, e, token);
            && StoreInv(refreshed, e.act.finish)
            && (Callable(refreshed, id) ==> StoreInv(CallServe(refreshed, id, e, token), e.act.finish))
  {
    hide StoreInv, CallRefresh, CallServe;
    var refreshed := CallRefresh(store, id, e, token);
    EventEndsLater(e, now);
    CallRefreshKeeps(store, id, e, token, now);
    RefreshStaysFresh(store, id, e, token);
    if Callable(refreshed, id) {
      CallServeKeeps(refreshed, id, e, token, e.refresh.finish);
    }
    StoreLater(refreshed, e.refresh.finish, e.act.finish);
  }

  lemma CallableIn(store: Store, id: SessionId)
    requires Callable(store, id)
    ensures id in store
  {
  }

  /**
   The whole service, from any sound store: after any run of starts and calls on any sessions, every session is
   sound and every parent and retest link is right.
   */
  lemma {:induction false} ServiceRunKeeps(store: Store, calls: seq<ServiceCall>, now: int)
    requires StoreInv(store, now) && ProperRun(store, calls, now)
    ensures StoreInv(ServiceRun(store, calls), RunEnd(calls, now))
    decreases |calls|
  {
    hide StoreInv, Start;
    if calls != [] {
      var c := calls[0];
      if c.On? {
        OnKeeps(store, c, now);
      } else if c.id !in store
                && Start(store, c.scenarioId, c.steps, c.selected, c.hasObserver, c.parent, c.token).Ok? {
        StartKeeps(store, c.scenarioId, c.steps, c.selected, c.hasObserver, c.parent, c.id, c.token, now);
      }
      ServiceRunKeeps(ServiceStep(store, c), calls[1..], TimeAfter(c, now));
    }
  }

  // ---- chains of retests ----

  /** The session, its parent, the parent of that, and so on: defined because attempts fall by one each time. */
  ghost function Chain(store: Store, id: SessionId, now: int): seq<SessionId>
    requires StoreInv(store, now) && id in store
    decreases store[id].desk.session.attempt
  {
    var p := store[id].desk.session.parentSessionId;
    assert Linked(store, id);
    if p.None? then [id] else [id] + Chain(store, p.value, now)
  }

  /** Along a chain attempts fall one by one, so no session repeats, and earlier sessions hold all later steps. */
  lemma {:induction false} ChainsAreFinite(store: Store, id: SessionId, now: int)
    requires StoreInv(store, now) && id in store
    ensures var c := Chain(store, id, now);
            && (forall i :: 0 <= i < |c| ==>
                  && c[i] in store
                  && store[c[i]].desk.session.attempt + i == store[id].desk.session.attempt
                  && StepIds(store[id].plan) <= StepIds(store[c[i]].plan))
            && (forall i, j :: 0 <= i < j < |c| ==> c[i] != c[j])
            && |c| <= store[id].desk.session.attempt + 1
    decreases store[id].desk.session.attempt
  {
    hide SessionInv;
    var p := store[id].desk.session.parentSessionId;
    assert Linked(store, id);
    var c := Chain(store, id, now);
    if p.Some? {
      ChainsAreFinite(store, p.value, now);
      var rest := Chain(store, p.value, now);
      assert forall i :: 1 <= i < |c| ==> c[i] == rest[i - 1];
    }
    assert store[c[|c| - 1]].desk.session.attempt + (|c| - 1) == store[id].desk.session.attempt;
  }
}
