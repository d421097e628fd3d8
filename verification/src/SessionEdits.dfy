/**
 What a service call does to the copy of a session it loaded, as a list of edits, and what replaying such a list
 keeps: the session invariant, the evolution of results, the retest link, and how often ids are consumed.
 */
module SessionEdits {
  import opened Wrappers
  import opened GuidedModels
  import opened GuidedSteps
  import opened GuidedStepLaws
  import opened GuidedTransitions
  import opened GuidedRuns
  import opened GuidedEvolution
  import opened GuidedLedger
  import opened GuidedRetests

  /** One change to a loaded copy; a refused one leaves it alone. */
  datatype Edit =
    | LookAtWindow(k: Ticks)
    | EnforceLimit(k: Ticks)
    | Command(action: Action, t: int)
    | Decide(verdict: Verdict, t: int)
    | Take(observation: Observation, k: Ticks, defer: bool)

  /** An edit and the id a retest would get that it prepares. */
  datatype Deed = Deed(edit: Edit, retestId: SessionId)

  function Apply(plan: seq<ScenarioStep>, s: Session, d: Deed): (t: Session)
    requires WellFormed(plan, s)
    ensures WellFormed(plan, t)
  {
    var step, r := plan[s.currentStepIndex], Current(s);
    match d.edit
    case LookAtWindow(k) => CloseBatch(plan, s, k, d.retestId)
    case EnforceLimit(k) =>
      if s.status.Running? && r.status.Active? && !step.kind.Manual? && Elapsed(r.timing, k.limit) >= step.timeoutMs then
        Install(s, Timeout(step, r, k.finish), d.retestId)
      else s
    case Command(action, t) =>
      var out := Perform(plan, s, action, t, d.retestId);
      if out.Ok? then out.value else s
    case Decide(verdict, t) =>
      var out := SubmitVerdict(step, s.hasObserver, CurrentLive(s), verdict, t);
      if out.Ok? then Install(s, out.value, d.retestId) else s
    case Take(o, k, defer) => AcceptObservation(plan, s, o, k, defer, d.retestId)
  }

  /** The deeds done one after the other on one copy. */
  function Replay(plan: seq<ScenarioStep>, s: Session, deeds: seq<Deed>): (t: Session)
    requires WellFormed(plan, s)
    ensures WellFormed(plan, t)
  {
    if deeds == [] then s
    else Apply(plan, Replay(plan, s, deeds[..|deeds| - 1]), deeds[|deeds| - 1])
  }

  lemma ReplayNext(plan: seq<ScenarioStep>, s: Session, deeds: seq<Deed>, d: Deed)
    requires WellFormed(plan, s)
    ensures Replay(plan, s, deeds + [d]) == Apply(plan, Replay(plan, s, deeds), d)
  {
    hide Apply;
    assert (deeds + [d])[..|deeds|] == deeds;
  }

  lemma {:induction false} ReplayJoins(plan: seq<ScenarioStep>, s: Session, first: seq<Deed>, more: seq<Deed>)
    requires WellFormed(plan, s)
    ensures Replay(plan, s, first + more) == Replay(plan, Replay(plan, s, first), more)
  {
    hide Apply;
    if more == [] {
      assert first + more == first;
    } else {
      ReplayJoins(plan, s, first, more[..|more| - 1]);
      assert (first + more)[..|first + more| - 1] == first + more[..|more| - 1];
    }
  }

  // ---- the revision plays no part ----

  lemma InstallRevision(s: Session, n: nat, v: Live, id: SessionId)
    requires s.currentStepIndex < |s.results|
    ensures Install(s.(revision := n), v, id) == Install(s, v, id).(revision := n)
    ensures Install(s, v, id).revision == s.revision
  {
    hide RetryIds, FinalStatus;
  }

  lemma PerformRevision(plan: seq<ScenarioStep>, s: Session, n: nat, action: Action, t: int, id: SessionId)
    requires WellFormed(plan, s)
    ensures var a, b := Perform(plan, s.(revision := n), action, t, id), Perform(plan, s, action, t, id);
            if b.Err? then a == b else a.Ok? && a.value == b.value.(revision := n) && b.value.revision == s.revision
  {
    hide Install, RetryIds, FinalStatus, AbortAll, FreshResult, GuidedSteps.Activate, GuidedSteps.Pause,
      GuidedSteps.Resume, GuidedSteps.Block;
    var step, r := plan[s.currentStepIndex], Current(s);
    match action
    case Activate(confirmed) => InstallRevision(s, n, GuidedSteps.Activate(r, confirmed, t), id);
    case Retry => InstallRevision(s, n, Live(Ready, FreshResult(step, r.attempt + 1)), id);
    case Pause => InstallRevision(s, n, GuidedSteps.Pause(r, t), id);
    case Resume =>
      if r.timing.pausedAt.Some? {
        InstallRevision(s, n, GuidedSteps.Resume(r, t), id);
      }
    case Block => InstallRevision(s, n, GuidedSteps.Block(step, r, t), id);
    case _ =>
  }

  lemma ApplyRevision(plan: seq<ScenarioStep>, s: Session, n: nat, d: Deed)
    requires WellFormed(plan, s)
    ensures Apply(plan, s.(revision := n), d) == Apply(plan, s, d).(revision := n)
    ensures Apply(plan, s, d).revision == s.revision
  {
    hide Install, Perform, Timeout, SubmitVerdict, Consume, Advance, Elapsed;
    var step, r := plan[s.currentStepIndex], Current(s);
    match d.edit
    case LookAtWindow(k) =>
      if step.oracle.Some? {
        InstallRevision(s, n, Advance(step, step.oracle.value, CurrentLive(s), k).0, d.retestId);
      }
    case EnforceLimit(k) => InstallRevision(s, n, Timeout(step, r, k.finish), d.retestId);
    case Command(action, t) => PerformRevision(plan, s, n, action, t, d.retestId);
    case Decide(verdict, t) =>
      var out := SubmitVerdict(step, s.hasObserver, CurrentLive(s), verdict, t);
      if out.Ok? {
        InstallRevision(s, n, out.value, d.retestId);
      }
    case Take(o, k, defer) =>
      if step.oracle.Some? {
        InstallRevision(s.(lastObservationAt := Some(k.accept)), n,
                        Consume(step, step.oracle.value, CurrentLive(s), o, k, defer), d.retestId);
      }
  }

  lemma {:induction false} ReplayRevision(plan: seq<ScenarioStep>, s: Session, n: nat, deeds: seq<Deed>)
    requires WellFormed(plan, s)
    ensures Replay(plan, s.(revision := n), deeds) == Replay(plan, s, deeds).(revision := n)
    ensures Replay(plan, s, deeds).revision == s.revision
  {
    hide Apply;
    if deeds != [] {
      var init := deeds[..|deeds| - 1];
      ReplayRevision(plan, s, n, init);
      ApplyRevision(plan, Replay(plan, s, init), n, deeds[|deeds| - 1]);
    }
  }

  // ---- evolution and links ----

  lemma ApplyEvolves(plan: seq<ScenarioStep>, s: Session, d: Deed)
    requires WellFormed(plan, s)
    ensures SessionEvolves(s, Apply(plan, s, d))
  {
    hide Perform, Install, CloseBatch, AcceptObservation, Timeout, SubmitVerdict, Elapsed, Evolves;
    var step, r := plan[s.currentStepIndex], Current(s);
    SelfEvolves(s);
    match d.edit
    case LookAtWindow(k) => CloseBatchEvolves(plan, s, k, d.retestId);
    case EnforceLimit(k) =>
      if r.status.Active? {
        TimeoutEvolves(step, r, k.finish);
        InstallEvolves(s, Timeout(step, r, k.finish), d.retestId);
      }
    case Command(action, t) => PerformEvolves(plan, s, action, t, d.retestId);
    case Decide(verdict, t) =>
      AnswerEvolves(step, s.hasObserver, CurrentLive(s), verdict, t);
      var out := SubmitVerdict(step, s.hasObserver, CurrentLive(s), verdict, t);
      if out.Ok? {
        InstallEvolves(s, out.value, d.retestId);
      }
    case Take(o, k, defer) => AcceptEvolves(plan, s, o, k, defer, d.retestId);
  }

  lemma {:induction false} ReplayEvolves(plan: seq<ScenarioStep>, s: Session, deeds: seq<Deed>)
    requires WellFormed(plan, s)
    ensures SessionEvolves(s, Replay(plan, s, deeds))
  {
    hide Apply, SessionEvolves;
    if deeds == [] {
      SelfEvolves(s);
    } else {
      var init := deeds[..|deeds| - 1];
      ReplayEvolves(plan, s, init);
      ApplyEvolves(plan, Replay(plan, s, init), deeds[|deeds| - 1]);
      EvolvesTransitive(s, Replay(plan, s, init), Replay(plan, s, deeds));
    }
  }

  lemma ApplyFrames(plan: seq<ScenarioStep>, s: Session, d: Deed)
    requires WellFormed(plan, s)
    ensures Framed(s, Apply(plan, s, d), d.retestId)
  {
    hide Perform, Install, CloseBatch, AcceptObservation, Timeout, SubmitVerdict, Elapsed, RetryIds;
    var step, r := plan[s.currentStepIndex], Current(s);
    match d.edit
    case LookAtWindow(k) => CloseBatchFrames(plan, s, k, d.retestId);
    case EnforceLimit(k) => InstallFrames(s, Timeout(step, r, k.finish), d.retestId);
    case Command(action, t) => PerformFrames(plan, s, action, t, d.retestId);
    case Decide(verdict, t) =>
      var out := SubmitVerdict(step, s.hasObserver, CurrentLive(s), verdict, t);
      if out.Ok? {
        InstallFrames(s, out.value, d.retestId);
      }
    case Take(o, k, defer) => AcceptFrames(plan, s, o, k, defer, d.retestId);
  }

  lemma {:induction false} ReplayKeepsLink(plan: seq<ScenarioStep>, s: Session, deeds: seq<Deed>)
    requires WellFormed(plan, s)
    ensures s.retestSessionId.Some? ==> Replay(plan, s, deeds).retestSessionId == s.retestSessionId
  {
    hide Apply;
    if deeds != [] {
      var init := deeds[..|deeds| - 1];
      ReplayKeepsLink(plan, s, init);
      ApplyFrames(plan, Replay(plan, s, init), deeds[|deeds| - 1]);
    }
  }

  // ---- the session invariant ----

  ghost predicate EditFrom(now: int, e: Edit) {
    match e
    case LookAtWindow(k) => k.From(now)
    case EnforceLimit(k) => k.From(now)
    case Command(_, t) => now <= t
    case Decide(_, t) => now <= t
    case Take(_, k, _) => k.From(now)
  }

  function EditEnd(e: Edit): int {
    match e
    case LookAtWindow(k) => k.finish
    case EnforceLimit(k) => k.finish
    case Command(_, t) => t
    case Decide(_, t) => t
    case Take(_, k, _) => k.finish
  }

  function DeedsEnd(start: int, deeds: seq<Deed>): int {
    if deeds == [] then start else EditEnd(deeds[|deeds| - 1].edit)
  }

  /** The readings of each deed follow those of the deeds it builds on. */
  ghost predicate Clocked(start: int, deeds: seq<Deed>) {
    forall i :: 0 <= i < |deeds| ==> EditFrom(DeedsEnd(start, deeds[..i]), deeds[i].edit)
  }

  lemma ClockedPrefix(start: int, deeds: seq<Deed>)
    requires Clocked(start, deeds) && deeds != []
    ensures Clocked(start, deeds[..|deeds| - 1])
    ensures EditFrom(DeedsEnd(start, deeds[..|deeds| - 1]), deeds[|deeds| - 1].edit)
  {
    hide EditFrom, DeedsEnd;
    var init := deeds[..|deeds| - 1];
    assert forall i :: 0 <= i < |init| ==> init[..i] == deeds[..i];
  }

  lemma ApplyKeeps(plan: seq<ScenarioStep>, s: Session, d: Deed, now: int)
    requires SessionInv(plan, s, now) && EditFrom(now, d.edit)
    ensures WellFormed(plan, s) && SessionInv(plan, Apply(plan, s, d), EditEnd(d.edit))
  {
    hide StepInv, Perform, Install, AcceptObservation, Timeout, Advance, SubmitVerdict, Elapsed;
    var step := plan[s.currentStepIndex];
    LaterSession(plan, s, now, EditEnd(d.edit));
    match d.edit
    case LookAtWindow(k) =>
      if Current(s).status.Active? && step.oracle.Some? {
        AdvanceSessionKeeps(plan, s, now, k, d.retestId);
      }
    case EnforceLimit(k) =>
      if Current(s).status.Active? {
        TimeoutSessionKeeps(plan, s, now, k.finish, d.retestId);
      }
    case Command(action, t) => PerformKeeps(plan, s, action, now, t, d.retestId);
    case Decide(verdict, t) => AnswerKeeps(plan, s, verdict, now, t, d.retestId);
    case Take(o, k, defer) => AcceptKeeps(plan, s, o, now, k, defer, d.retestId);
  }

  lemma {:induction false} ReplayKeeps(plan: seq<ScenarioStep>, s: Session, deeds: seq<Deed>, now: int)
    requires WellFormed(plan, s) && SessionInv(plan, s, now) && Clocked(now, deeds)
    ensures SessionInv(plan, Replay(plan, s, deeds), DeedsEnd(now, deeds))
  {
    hide Apply, SessionInv, Clocked, EditFrom;
    if deeds != [] {
      var init := deeds[..|deeds| - 1];
      ClockedPrefix(now, deeds);
      ReplayKeeps(plan, s, init, now);
      ApplyKeeps(plan, Replay(plan, s, init), deeds[|deeds| - 1], DeedsEnd(now, init));
    }
  }

  lemma RevisionKeeps(plan: seq<ScenarioStep>, s: Session, n: nat, now: int)
    requires SessionInv(plan, s, now)
    ensures SessionInv(plan, s.(revision := n), now)
  {
    hide StepInv;
  }

  // ---- consumption ----

  /** The ids of the observations the deeds took, in order. */
  function Takes(deeds: seq<Deed>): seq<string> {
    if deeds == [] then [] else
      var e := deeds[|deeds| - 1].edit;
      Takes(deeds[..|deeds| - 1]) + (if e.Take? then [e.observation.id] else [])
  }

  function TimesTaken(deeds: seq<Deed>, x: string): nat {
    multiset(Takes(deeds))[x]
  }

  predicate Taken(d: Deed, x: string) {
    d.edit.Take? && d.edit.observation.id == x
  }

  /** The deed takes the observation while the current step is open to telemetry. */
  predicate Consumes(plan: seq<ScenarioStep>, s: Session, d: Deed, x: string)
    requires WellFormed(plan, s)
  {
    Taken(d, x) && Listens(plan, s)
  }

  function TimesConsumed(plan: seq<ScenarioStep>, s: Session, deeds: seq<Deed>, x: string): nat
    requires WellFormed(plan, s)
  {
    if deeds == [] then 0 else
      var init := deeds[..|deeds| - 1];
      TimesConsumed(plan, s, init, x)
      + if Consumes(plan, Replay(plan, s, init), deeds[|deeds| - 1], x) then 1 else 0
  }

  /** Deed `i` of the list consumes the observation. */
  predicate ConsumedBy(plan: seq<ScenarioStep>, s: Session, deeds: seq<Deed>, i: nat, x: string)
    requires WellFormed(plan, s) && i < |deeds|
  {
    Consumes(plan, Replay(plan, s, deeds[..i]), deeds[i], x)
  }

  /** Some deed of the list consumes the observation. */
  ghost predicate EverConsumed(plan: seq<ScenarioStep>, s: Session, deeds: seq<Deed>, x: string)
    requires WellFormed(plan, s)
  {
    exists i :: 0 <= i < |deeds| && ConsumedBy(plan, s, deeds, i, x)
  }

  lemma {:induction false} ConsumedWasTaken(plan: seq<ScenarioStep>, s: Session, deeds: seq<Deed>, x: string)
    requires WellFormed(plan, s)
    ensures TimesConsumed(plan, s, deeds, x) <= TimesTaken(deeds, x)
    ensures TimesConsumed(plan, s, deeds, x) > 0 <==> EverConsumed(plan, s, deeds, x)
  {
    hide Replay, Listens, TimesTaken, EverConsumed;
    EverConsumedNext(plan, s, deeds, x);
    if deeds != [] {
      var n := |deeds| - 1;
      TimesTakenNext(deeds[..n], deeds[n], x);
      assert deeds[..n] + [deeds[n]] == deeds;
      ConsumedWasTaken(plan, s, deeds[..n], x);
    }
  }

  lemma EverConsumedNext(plan: seq<ScenarioStep>, s: Session, deeds: seq<Deed>, x: string)
    requires WellFormed(plan, s)
    ensures EverConsumed(plan, s, deeds, x) <==>
            deeds != [] && var n := |deeds| - 1;
            EverConsumed(plan, s, deeds[..n], x) || ConsumedBy(plan, s, deeds, n, x)
  {
    hide Replay, Consumes;
    if deeds != [] {
      var n := |deeds| - 1;
      forall i | 0 <= i < n ensures ConsumedBy(plan, s, deeds, i, x) == ConsumedBy(plan, s, deeds[..n], i, x) {
        assert deeds[..n][..i] == deeds[..i];
      }
    }
  }

  lemma TimesTakenNext(deeds: seq<Deed>, d: Deed, x: string)
    ensures TimesTaken(deeds + [d], x) == TimesTaken(deeds, x) + if Taken(d, x) then 1 else 0
  {
    assert (deeds + [d])[..|deeds|] == deeds;
  }

  lemma {:induction false} TimesTakenJoins(first: seq<Deed>, more: seq<Deed>, x: string)
    ensures TimesTaken(first + more, x) == TimesTaken(first, x) + TimesTaken(more, x)
  {
    hide TimesTaken;
    if more == [] {
      assert first + more == first;
      NothingTaken(x);
    } else {
      var init, last := more[..|more| - 1], more[|more| - 1];
      TimesTakenJoins(first, init, x);
      TimesTakenNext(first + init, last, x);
      TimesTakenNext(init, last, x);
      assert first + more == first + init + [last] && more == init + [last];
    }
  }

  lemma NothingTaken(x: string)
    ensures TimesTaken([], x) == 0
  {
  }

  /** The attempt that a deed retires, if it is an accepted retry. */
  function Dropped(plan: seq<ScenarioStep>, s: Session, d: Deed): seq<StepResult>
    requires WellFormed(plan, s)
  {
    if d.edit.Command? && d.edit.action.Retry? && Perform(plan, s, d.edit.action, d.edit.t, d.retestId).Ok? then [Current(s)]
    else []
  }

  /** All attempts that the deeds retired. */
  function Retired(plan: seq<ScenarioStep>, s: Session, deeds: seq<Deed>): seq<StepResult>
    requires WellFormed(plan, s)
  {
    if deeds == [] then [] else
      var init := deeds[..|deeds| - 1];
      Retired(plan, s, init) + Dropped(plan, Replay(plan, s, init), deeds[|deeds| - 1])
  }

  lemma ApplyUses(plan: seq<ScenarioStep>, s: Session, d: Deed, x: string)
    requires WellFormed(plan, s)
    ensures Uses(Apply(plan, s, d).results, x) + Uses(Dropped(plan, s, d), x)
            == Uses(s.results, x) + if Consumes(plan, s, d, x) then 1 else 0
  {
    hide Perform, Install, AcceptObservation, Timeout, Advance, SubmitVerdict, Elapsed, Uses, Listens;
    var step, r := plan[s.currentStepIndex], Current(s);
    NoneUses(x);
    match d.edit
    case LookAtWindow(k) =>
      if r.status.Active? && step.oracle.Some? {
        AdvanceInstallUses(plan, s, k, d.retestId, x);
      }
    case EnforceLimit(k) =>
      TimeoutTally(step, r, k.finish);
      InstallUses(s, Timeout(step, r, k.finish), d.retestId, x);
    case Command(action, t) =>
      if Perform(plan, s, action, t, d.retestId).Ok? {
        PerformUses(plan, s, action, t, d.retestId, x);
      }
    case Decide(verdict, t) =>
      var out := SubmitVerdict(step, s.hasObserver, CurrentLive(s), verdict, t);
      if out.Ok? {
        VerdictTally(step, s.hasObserver, CurrentLive(s), verdict, t);
        InstallUses(s, out.value, d.retestId, x);
      }
    case Take(o, k, defer) => AcceptUses(plan, s, o, k, defer, d.retestId, x);
  }

  lemma NoneUses(x: string)
    ensures Uses([], x) == 0
    ensures forall r: StepResult :: Uses([r], x) == multiset(r.tally.observationIds)[x]
  {
    forall r: StepResult ensures Uses([r], x) == multiset(r.tally.observationIds)[x] {
      assert [r][..0] == [];
    }
  }

  lemma VerdictTally(step: ScenarioStep, hasObserver: bool, v: Live, verdict: Verdict, t: int)
    requires SubmitVerdict(step, hasObserver, v, verdict, t).Ok?
    ensures SubmitVerdict(step, hasObserver, v, verdict, t).value.result.tally == v.result.tally
  {
  }

  lemma {:induction false} UsesJoins(rs: seq<StepResult>, qs: seq<StepResult>, x: string)
    ensures Uses(rs + qs, x) == Uses(rs, x) + Uses(qs, x)
  {
    if qs == [] {
      assert rs + qs == rs;
    } else {
      UsesJoins(rs, qs[..|qs| - 1], x);
      assert (rs + qs)[..|rs + qs| - 1] == rs + qs[..|qs| - 1];
    }
  }

  /** Counting retired attempts too, an id is consumed as often as a deed took it for an open step. */
  lemma {:induction false} ReplayUses(plan: seq<ScenarioStep>, s: Session, deeds: seq<Deed>, x: string)
    requires WellFormed(plan, s)
    ensures Uses(Replay(plan, s, deeds).results, x) + Uses(Retired(plan, s, deeds), x)
            == Uses(s.results, x) + TimesConsumed(plan, s, deeds, x)
  {
    hide Apply, Dropped, Uses, Consumes;
    if deeds == [] {
      NoneUses(x);
    } else {
      var init, d := deeds[..|deeds| - 1], deeds[|deeds| - 1];
      ReplayUses(plan, s, init, x);
      ApplyUses(plan, Replay(plan, s, init), d, x);
      UsesJoins(Retired(plan, s, init), Dropped(plan, Replay(plan, s, init), d), x);
    }
  }
}
