/**
 The session table: rows guarded by a revision, saved by compare-and-swap. The methods rewrite the stored maps in
 place; the functions beside them say what a statement does to the rows.
 */
module SessionTable {
  import opened Wrappers
  import opened GuidedModels

  /** What a row stores as JSON: the session, its id and the scenario steps it selected. */
  datatype Body = Body(id: SessionId, plan: seq<ScenarioStep>, session: Session)

  datatype Row = Row(revision: nat, body: Body)

  type Rows = map<SessionId, Row>

  datatype StorageError = NotFound | Conflict | Duplicate

  function Bumped(b: Body): Body {
    b.(session := b.session.(revision := b.session.revision + 1))
  }

  /** The update statement matches a row only where id and revision are those of the body being saved. */
  predicate Matched(rows: Rows, b: Body) {
    b.id in rows && rows[b.id].revision == b.session.revision
  }

  function Inserted(rows: Rows, b: Body): Rows {
    if b.id in rows then rows else rows[b.id := Row(b.session.revision, b)]
  }

  function Saved(rows: Rows, b: Body): Rows {
    if Matched(rows, b) then rows[b.id := Row(b.session.revision + 1, Bumped(b))] else rows
  }

  class Database {
    var rows: Rows
    var observations: map<(SessionId, string), Observation>

    constructor ()
      ensures rows == map[] && observations == map[]
    {
      rows, observations := map[], map[];
    }

    method CreateSession(b: Body) returns (error: Option<StorageError>)
      modifies this`rows
      ensures rows == Inserted(old(rows), b)
      ensures error == if b.id in old(rows) then Some(Duplicate) else None
      ensures b.id in old(rows) ==> rows == old(rows)
      ensures b.id !in old(rows) ==> rows == old(rows)[b.id := Row(b.session.revision, b)]
    {
      if b.id in rows { return Some(Duplicate); }
      rows := rows[b.id := Row(b.session.revision, b)];
      error := None;
    }

    /** The caller goes on with the returned body, whose revision is the stored one. */
    method SaveSession(b: Body) returns (saved: Result<Body, StorageError>)
      modifies this`rows
      ensures rows == Saved(old(rows), b)
      ensures saved.Ok? == Matched(old(rows), b)
      ensures saved.Ok? ==> b.id in rows && saved.value == rows[b.id].body == Bumped(b)
      ensures saved.Err? ==> saved.error == Conflict
      ensures saved.Ok? <==> b.id in old(rows) && old(rows)[b.id].revision == b.session.revision
      ensures saved.Err? ==> rows == old(rows)
      ensures saved.Ok? ==>
                var n := b.session.revision + 1;
                && saved.value == b.(session := b.session.(revision := n))
                && rows == old(rows)[b.id := Row(n, saved.value)]
    {
      var previous := b.session.revision;
      var updated := b.(session := b.session.(revision := previous + 1));
      if !(updated.id in rows && rows[updated.id].revision == previous) { return Err(Conflict); }
      rows := rows[updated.id := Row(previous + 1, updated)];
      saved := Ok(updated);
    }

    method LoadSession(id: SessionId) returns (loaded: Result<Body, StorageError>)
      ensures loaded == if id in rows then Ok(rows[id].body) else Err(NotFound)
    {
      if id !in rows { return Err(NotFound); }
      loaded := Ok(rows[id].body);
    }

    /** The key of an observation is taken once; a later row under it is ignored and the first one stays. */
    method AppendObservation(id: SessionId, o: Observation) returns (accepted: Result<bool, StorageError>)
      modifies this`observations
      ensures id !in rows ==> accepted == Err(NotFound) && observations == old(observations)
      ensures id in rows ==> accepted == Ok((id, o.id) !in old(observations))
      ensures id in rows && (id, o.id) !in old(observations) ==> observations == old(observations)[(id, o.id) := o]
      ensures (id, o.id) in old(observations) ==> observations == old(observations)
    {
      if id !in rows { return Err(NotFound); }
      if (id, o.id) in observations { return Ok(false); }
      observations := observations[(id, o.id) := o];
      accepted := Ok(true);
    }
  }
}
