/**
 The public calls of the guided service on one stored session: load, refresh, act on the loaded record, save.
 A refused call drops the loaded record, so only the refresh that preceded it may have been saved.
 */
module GuidedService {
  import opened Wrappers
  import opened GuidedModels
  import opened GuidedSteps
  import opened GuidedTransitions
  import opened GuidedObjects
  import opened GuidedTelemetryLaws

  class Service {
    var row: Session
    var observations: set<string>
    var attestation: Option<string>
    var heldToken: Option<string>
    var retired: seq<StepResult>

    function Stored(): Desk
      reads this
    {
      Desk(row, observations, attestation, heldToken, retired)
    }

    constructor (d: Desk)
      ensures Stored() == d
    {
      row, observations, attestation, heldToken, retired :=
        d.session, d.observations, d.attestation, d.heldToken, d.retired;
    }

    /** Two saves, each raising the revision; closing a session revokes its attestation. */
    method SaveRecord(s: Session)
      modifies this
      ensures Stored() == Save(old(Stored()), s)
      ensures row == s.(revision := s.revision + 2) && observations == old(observations) && retired == old(retired)
      ensures if s.status.Completed? || s.status.Failed? || s.status.Blocked? || s.status.Aborted?
              then attestation.None? && heldToken.None?
              else attestation == old(attestation) && heldToken == old(heldToken)
    {
      row := s.(revision := s.revision + 1);
      row := row.(revision := row.revision + 1);
      if s.Terminal() {
        attestation, heldToken := None, None;
      }
    }

    method RefreshRow(plan: seq<ScenarioStep>, k: Ticks, retestId: SessionId)
      requires WellFormed(plan, row)
      modifies this
      ensures Stored() == Refresh(plan, old(Stored()), k, retestId)
    {
      hide Advance, Install, Timeout;
      var record := new SessionRecord.Load(row);
      var step, r := plan[record.currentStepIndex], record.Current();
      assert r.View() == Current(row);
      if record.status.Running? && r.status.Active? {
        if step.oracle.Some? {
          var changed := record.AdvanceSettleWindow(step, step.oracle.value, k, retestId);
          if changed {
            SaveRecord(record.View());
            return;
          }
          AdvanceUnchanged(step, step.oracle.value, CurrentLive(row), k);
          InstallSame(row, retestId);
          assert r.View() == Current(record.View());
        }
        var elapsed := r.ElapsedMs(k.limit);
        if !step.kind.Manual? && elapsed >= step.timeoutMs {
          record.TimeOut(step, k.finish, retestId);
          SaveRecord(record.View());
        }
      }
    }

    /** Carries an admitted control out on a loaded copy; a refused one saves nothing. */
    method CarryOut(plan: seq<ScenarioStep>, action: Action, t: int, retestId: SessionId)
      returns (error: Option<GuidedError>)
      requires WellFormed(plan, row)
      modifies this
      ensures Reply(Stored(), error) == GuidedTransitions.CarriedOut(plan, old(Stored()), action, t, retestId)
    {
      hide Perform, Save;
      var record := new SessionRecord.Load(row);
      error := record.Carry(plan, action, t, retestId);
      if error.Some? { return; }
      if action.Retry? {
        retired := retired + [row.results[row.currentStepIndex]];
      }
      SaveRecord(record.View());
    }

    /** A refused control has saved at most the refresh before it. */
    method Control(plan: seq<ScenarioStep>, action: Action, token: Option<string>, expected: Option<nat>,
                   refresh: Ticks, t: int, retestId: SessionId) returns (error: Option<GuidedError>)
      requires WellFormed(plan, row)
      modifies this
      ensures Reply(Stored(), error)
              == GuidedTransitions.Control(plan, Refresh(plan, old(Stored()), refresh, retestId), action, token, expected,
                                           t, retestId)
    {
      hide Refresh, CarriedOut;
      RefreshRow(plan, refresh, retestId);
      if action.NeedsHuman() && !(attestation.Some? && attestation == token) { return Some(HumanAttestationRequired); }
      if expected.Some? && expected.value != row.revision { return Some(RevisionConflict); }
      error := CarryOut(plan, action, t, retestId);
    }

    method Feedback(plan: seq<ScenarioStep>, verdict: Verdict, token: Option<string>, refresh: Ticks, t: int,
                    retestId: SessionId) returns (error: Option<GuidedError>)
      requires WellFormed(plan, row)
      modifies this
      ensures Reply(Stored(), error)
              == GuidedTransitions.Feedback(plan, Refresh(plan, old(Stored()), refresh, retestId), verdict, token, t,
                                            retestId)
    {
      hide Refresh, SubmitVerdict, Install;
      RefreshRow(plan, refresh, retestId);
      if !(attestation.Some? && attestation == token) { return Some(HumanAttestationRequired); }
      var record := new SessionRecord.Load(row);
      error := record.Feedback(plan[record.currentStepIndex], verdict, t, retestId);
      if error.None? {
        SaveRecord(record.View());
      }
    }

    method Observe(plan: seq<ScenarioStep>, o: Observation, refresh: Ticks, k: Ticks, retestId: SessionId)
      requires WellFormed(plan, row)
      modifies this
      ensures Stored() == GuidedTransitions.Observe(plan, Refresh(plan, old(Stored()), refresh, retestId), o, k, retestId)
    {
      hide Refresh, AcceptObservation;
      RefreshRow(plan, refresh, retestId);
      if row.Terminal() || row.status.Prepared? || row.status.Ready? || o.id in observations { return; }
      observations := observations + {o.id};
      var record := new SessionRecord.Load(row);
      record.Accept(plan, o, k, false, retestId);
      SaveRecord(record.View());
    }

    /** Inserts the rows of a batch one by one and counts them in the loaded record; a closed session stops it. */
    method IngestRows(plan: seq<ScenarioStep>, record: SessionRecord, items: seq<Timed>, retestId: SessionId)
      returns (receipt: Receipt)
      requires record.Valid() && |plan| == |record.results|
      modifies this`observations, record, record.results
      ensures record.Valid() && record.results == old(record.results)
      ensures Intake(record.View(), observations, receipt.accepted, receipt.duplicates)
              == IngestAll(plan, Intake(old(record.View()), old(observations), 0, 0), items, retestId)
      ensures receipt.accepted == 0 ==> observations == old(observations)
    {
      hide AcceptObservation;
      ghost var before := Intake(record.View(), observations, 0, 0);
      var accepted, duplicates := 0, 0;
      assert items[..|items|] == items;
      for i := 0 to |items|
        invariant record.Valid() && record.results == old(record.results)
        invariant accepted == 0 ==> observations == old(observations)
        invariant Intake(record.View(), observations, accepted, duplicates)
                  == IngestAll(plan, before, items[..i], retestId)
      {
        assert items[..i + 1][..i] == items[..i];
        if record.View().Terminal() {
          IngestStops(plan, before, items, i, retestId);
          break;
        }
        var x := items[i];
        if x.observation.id in observations {
          duplicates := duplicates + 1;
        } else {
          observations := observations + {x.observation.id};
          record.Accept(plan, x.observation, x.ticks, true, retestId);
          accepted := accepted + 1;
        }
      }
      receipt := Receipt(accepted, duplicates);
    }

    /** A batch with no new row saves no session. */
    method ObserveBatch(plan: seq<ScenarioStep>, items: seq<Timed>, refresh: Ticks, k: Ticks, retestId: SessionId)
      returns (receipt: Receipt)
      requires WellFormed(plan, row)
      modifies this
      ensures (Stored(), receipt)
              == GuidedTransitions.ObserveBatch(plan, Refresh(plan, old(Stored()), refresh, retestId), items, k, retestId)
    {
      hide Refresh, IngestAll, Advance, Install, Persist;
      RefreshRow(plan, refresh, retestId);
      if row.Terminal() { return Receipt(0, |items|); }
      if row.status.Prepared? || row.status.Ready? { return Receipt(0, 0); }
      var record := new SessionRecord.Load(row);
      receipt := IngestRows(plan, record, items, retestId);
      if receipt.accepted == 0 { return; }
      record.EndBatch(plan, k, retestId);
      SaveRecord(record.View());
    }

    /** The runner page: an open session gets the held token, or a new one when memory and table disagree. */
    method OpenRunner(minted: string)
      modifies this
      ensures Stored() == RunnerToken(old(Stored()), minted)
      ensures row == old(row) && observations == old(observations) && retired == old(retired)
      ensures if row.status.Completed? || row.status.Failed? || row.status.Blocked? || row.status.Aborted?
                 || (old(heldToken).Some? && old(heldToken) == old(attestation))
              then attestation == old(attestation) && heldToken == old(heldToken)
              else attestation == Some(minted) && heldToken == Some(minted)
    {
      if row.Terminal() { return; }
      if heldToken.Some? && heldToken == attestation { return; }
      attestation, heldToken := Some(minted), Some(minted);
    }
  }

  lemma InstallSame(s: Session, retestId: SessionId)
    requires s.currentStepIndex < |s.results| && Current(s).status.Active?
    ensures Install(s, CurrentLive(s), retestId) == s
  {
    assert s.results[s.currentStepIndex := Current(s)] == s.results;
  }

  /** Once a batch has closed the session, the rest of its rows is not looked at. */
  lemma {:induction false} IngestStops(plan: seq<ScenarioStep>, a: Intake, items: seq<Timed>, n: nat, retestId: SessionId)
    requires WellFormed(plan, a.session) && n <= |items|
    requires IngestAll(plan, a, items[..n], retestId).session.Terminal()
    ensures IngestAll(plan, a, items, retestId) == IngestAll(plan, a, items[..n], retestId)
  {
    if n == |items| {
      assert items[..n] == items;
    } else {
      var m := |items| - 1;
      assert items[..m][..n] == items[..n];
      IngestStops(plan, a, items[..m], n, retestId);
    }
  }
}
