/**
 Several processes working on one session table. Each loads a body, works on its copy and saves it; observations
 and automatic retests are inserted at once. The history lists what was committed for each session, the body it
 was computed from and the deeds that led from one to the other.
 */
module SessionHistory {
  import opened Wrappers
  import opened GuidedModels
  import opened GuidedTransitions
  import opened GuidedRetests
  import opened SessionEdits
  import opened SessionTable

  type Worker = nat

  /** A worker's copy, the committed body it loaded, and what it has done to it since. */
  datatype Copy = Copy(base: Body, body: Body, deeds: seq<Deed>)

  /** `stored` is the primary key of the observation table. */
  datatype World = World(rows: Rows, stored: set<(SessionId, string)>, copies: map<Worker, Copy>,
                         history: map<SessionId, seq<Copy>>)

  datatype Move =
    | Create(id: SessionId, plan: seq<ScenarioStep>, hasObserver: bool, parent: Option<SessionId>, attempt: nat)
    | Load(worker: Worker, id: SessionId)
    | Work(worker: Worker, deed: Deed)
    | Write(worker: Worker)

  const START := World(map[], {}, map[], map[])

  predicate Storable(b: Body) {
    WellFormed(b.plan, b.session)
  }

  function Opened(id: SessionId, plan: seq<ScenarioStep>, hasObserver: bool, parent: Option<SessionId>, attempt: nat)
    : Body
  {
    Body(id, plan, NewSession(plan, hasObserver, parent, attempt))
  }

  /** Inserts the row of a new session under an unused id. */
  function Begun(w: World, b: Body): World {
    w.(rows := Inserted(w.rows, b), history := w.history[b.id := [Copy(b, b, [])]])
  }

  /** The automatic retest that session `b` prepares. */
  function RetestOf(b: Body, id: SessionId): Body
    requires Storable(b)
  {
    Opened(id, RetestPlan(b.plan, b.session.results), b.session.hasObserver, Some(b.id), b.session.attempt + 1)
  }

  function Edited(c: Copy, deed: Deed): Copy
    requires Storable(c.body)
  {
    Copy(c.base, c.body.(session := Apply(c.body.plan, c.body.session, deed)), c.deeds + [deed])
  }

  predicate Links(c: Copy, deed: Deed)
    requires Storable(c.body)
  {
    c.body.session.retestSessionId.None? && Edited(c, deed).body.session.retestSessionId.Some?
  }

  /** A deed that prepares a retest inserts it at once, before its own copy is saved; a taken id ends the call. */
  function Done(w: World, worker: Worker, deed: Deed): World
    requires worker in w.copies && Storable(w.copies[worker].body)
  {
    var c := w.copies[worker];
    var worked := w.(copies := w.copies[worker := Edited(c, deed)]);
    if !Links(c, deed) then worked
    else if deed.retestId in w.rows then w.(copies := w.copies - {worker})
    else Begun(worked, RetestOf(Edited(c, deed).body, deed.retestId))
  }

  function Moved(w: World, m: Move): World {
    match m
    case Create(id, plan, hasObserver, parent, attempt) =>
      if id in w.rows || plan == [] then w else Begun(w, Opened(id, plan, hasObserver, parent, attempt))
    case Load(worker, id) =>
      if id !in w.rows then w
      else w.(copies := w.copies[worker := Copy(w.rows[id].body, w.rows[id].body, [])])
    case Work(worker, deed) =>
      if worker !in w.copies || !Storable(w.copies[worker].body) then w
      else if !deed.edit.Take? then Done(w, worker, deed)
      else
        var b, key := w.copies[worker].body, (w.copies[worker].body.id, deed.edit.observation.id);
        if TakesNoInput(b.session) || key in w.stored then w
        else Done(w.(stored := w.stored + {key}), worker, deed)
    case Write(worker) =>
      if worker !in w.copies then w
      else
        var c := w.copies[worker];
        if !Matched(w.rows, c.body) then w.(copies := w.copies - {worker})
        else
          var saved := Bumped(c.body);
          w.(rows := Saved(w.rows, c.body), copies := w.copies[worker := Copy(saved, saved, [])],
             history := w.history[saved.id := Committed(w, Copy(c.base, saved, c.deeds))])
  }

  function Committed(w: World, c: Copy): seq<Copy> {
    (if c.body.id in w.history then w.history[c.body.id] else []) + [c]
  }

  function After(w: World, moves: seq<Move>): World {
    if moves == [] then w else Moved(After(w, moves[..|moves| - 1]), moves[|moves| - 1])
  }

  // ---- what one committed body owes to the one before ----

  /** The body is what the deeds make of the loaded one. */
  ghost predicate Worked(c: Copy) {
    && c.body.id == c.base.id && c.body.plan == c.base.plan && Storable(c.base)
    && c.body.session == Replay(c.base.plan, c.base.session, c.deeds)
  }

  /** The body is what the deeds make of the loaded one, under the next revision. */
  ghost predicate Landed(c: Copy) {
    && c.body.id == c.base.id && c.body.plan == c.base.plan && Storable(c.base)
    && c.body.session
       == Replay(c.base.plan, c.base.session, c.deeds).(revision := c.base.session.revision + 1)
  }

  ghost predicate IsOpening(c: Copy) {
    var s := c.body.session;
    && c.base == c.body && c.deeds == [] && Storable(c.body)
    && s == NewSession(c.body.plan, s.hasObserver, s.parentSessionId, s.attempt)
  }

  /** An opening, then commits each computed from its immediate predecessor. */
  ghost predicate Chained(h: seq<Copy>) {
    && h != [] && IsOpening(h[0])
    && (forall i :: 0 < i < |h| ==> h[i].base == h[i - 1].body && Landed(h[i]))
    && (forall i :: 0 <= i < |h| ==> h[i].body.session.revision == i)
  }

  ghost predicate RowOk(id: SessionId, row: Row, h: seq<Copy>) {
    && Chained(h)
    && row.body == h[|h| - 1].body && row.body.id == id
    && row.revision == row.body.session.revision
  }

  ghost predicate CopyOk(c: Copy, h: seq<Copy>) {
    && c.base.session.revision == c.body.session.revision < |h|
    && c.base == h[c.base.session.revision].body
    && Worked(c)
  }

  ghost predicate WorldInv(w: World) {
    && w.rows.Keys == w.history.Keys
    && (forall id :: id in w.rows ==> RowOk(id, w.rows[id], w.history[id]))
    && (forall k :: k in w.copies ==> w.copies[k].body.id in w.rows && CopyOk(w.copies[k], w.history[w.copies[k].body.id]))
  }

  lemma BeginKeeps(w: World, b: Body)
    requires WorldInv(w) && b.id !in w.rows && IsOpening(Copy(b, b, [])) && b.session.revision == 0
    ensures WorldInv(Begun(w, b))
  {
    hide CopyOk, Chained;
    assert Chained([Copy(b, b, [])]) by { OneChains(b); }
  }

  lemma OneChains(b: Body)
    requires IsOpening(Copy(b, b, [])) && b.session.revision == 0
    ensures Chained([Copy(b, b, [])])
  {
  }

  lemma OpenedIsOpening(id: SessionId, plan: seq<ScenarioStep>, hasObserver: bool, parent: Option<SessionId>, attempt: nat)
    requires plan != []
    ensures var b := Opened(id, plan, hasObserver, parent, attempt);
            IsOpening(Copy(b, b, [])) && b.session.revision == 0 && b.id == id
  {
  }

  lemma LoadKeeps(w: World, worker: Worker, id: SessionId)
    requires WorldInv(w) && id in w.rows
    ensures WorldInv(Moved(w, Load(worker, id)))
  {
    hide CopyOk, RowOk;
    RowLoads(id, w.rows[id], w.history[id]);
  }

  lemma RowLoads(id: SessionId, row: Row, h: seq<Copy>)
    requires RowOk(id, row, h)
    ensures row.body.id == id && CopyOk(Copy(row.body, row.body, []), h)
  {
    hide Landed, IsOpening, Replay;
    ChainStorable(h, |h| - 1);
    ReplayNothing(row.body);
  }

  lemma ReplayNothing(b: Body)
    requires Storable(b)
    ensures Replay(b.plan, b.session, []) == b.session
  {
  }

  lemma ChainStorable(h: seq<Copy>, i: nat)
    requires Chained(h) && i < |h|
    ensures Storable(h[i].body)
  {
    hide Replay;
  }

  lemma EditWorks(c: Copy, deed: Deed)
    requires Worked(c) && Storable(c.body)
    ensures Worked(Edited(c, deed)) && Edited(c, deed).body.session.revision == c.body.session.revision
    ensures Edited(c, deed).body.id == c.body.id && Edited(c, deed).base == c.base && Storable(Edited(c, deed).body)
  {
    hide Apply, Replay;
    ReplayNext(c.base.plan, c.base.session, c.deeds, deed);
    ApplyRevision(c.body.plan, c.body.session, 0, deed);
  }

  lemma {:induction false} RetestHasSteps(plan: seq<ScenarioStep>, results: seq<StepResult>)
    requires |plan| == |results|
    ensures |RetestPlan(plan, results)| == |RetryIds(results)|
  {
    if plan != [] {
      RetestHasSteps(plan[..|plan| - 1], results[..|plan| - 1]);
    }
  }

  lemma LinkIsDeeds(c: Copy, deed: Deed)
    requires Storable(c.body)
    ensures Links(c, deed) ==>
              var b := Edited(c, deed).body;
              b.session.retestSessionId == Some(deed.retestId) && RetestPlan(b.plan, b.session.results) != []
    ensures !Links(c, deed) ==> Edited(c, deed).body.session.retestSessionId == c.body.session.retestSessionId
  {
    hide Apply, RetestPlan, RetryIds;
    ApplyFrames(c.body.plan, c.body.session, deed);
    RetestHasSteps(c.body.plan, Edited(c, deed).body.session.results);
  }

  lemma DoneKeeps(w: World, worker: Worker, deed: Deed)
    requires WorldInv(w) && worker in w.copies && Storable(w.copies[worker].body)
    ensures WorldInv(Done(w, worker, deed))
  {
    hide Worked, RowOk, Opened, RetestPlan, Edited, IsOpening;
    var c := w.copies[worker];
    EditWorks(c, deed);
    LinkIsDeeds(c, deed);
    var worked := w.(copies := w.copies[worker := Edited(c, deed)]);
    assert WorldInv(worked);
    if Links(c, deed) && deed.retestId !in w.rows {
      var b := Edited(c, deed).body;
      OpenedIsOpening(deed.retestId, RetestPlan(b.plan, b.session.results), b.session.hasObserver, Some(b.id),
                      b.session.attempt + 1);
      BeginKeeps(worked, RetestOf(b, deed.retestId));
    }
  }

  lemma MoveKeeps(w: World, m: Move)
    requires WorldInv(w)
    ensures WorldInv(Moved(w, m))
  {
    hide RowOk, CopyOk, IsOpening, Opened, Done, Begun;
    match m
    case Create(id, plan, hasObserver, parent, attempt) =>
      if id !in w.rows && plan != [] {
        OpenedIsOpening(id, plan, hasObserver, parent, attempt);
        BeginKeeps(w, Opened(id, plan, hasObserver, parent, attempt));
      }
    case Load(worker, id) =>
      if id in w.rows {
        LoadKeeps(w, worker, id);
      }
    case Work(worker, deed) =>
      if worker in w.copies && Storable(w.copies[worker].body) {
        DoneKeeps(w, worker, deed);
        if deed.edit.Take? {
          DoneKeeps(w.(stored := w.stored + {(w.copies[worker].body.id, deed.edit.observation.id)}), worker, deed);
        }
      }
    case Write(worker) =>
      if worker in w.copies && Matched(w.rows, w.copies[worker].body) {
        SaveKeeps(w, worker);
      }
  }

  lemma SaveKeeps(w: World, worker: Worker)
    requires WorldInv(w) && worker in w.copies && Matched(w.rows, w.copies[worker].body)
    ensures WorldInv(Moved(w, Write(worker)))
  {
    hide Worked, Landed, IsOpening, Chained;
    var c := w.copies[worker];
    var id, saved := c.body.id, Bumped(c.body);
    var more := Copy(c.base, saved, c.deeds);
    CommitExtends(w.history[id], w.rows[id], id, c);
    assert Committed(w, more) == w.history[id] + [more];
    var n := Moved(w, Write(worker));
    forall k | k in n.copies
      ensures n.copies[k].body.id in n.rows && CopyOk(n.copies[k], n.history[n.copies[k].body.id])
    {
      if k != worker && n.copies[k].body.id == id {
        EarlierStays(w.copies[k], w.history[id], more);
      }
    }
  }

  lemma CommitExtends(h: seq<Copy>, row: Row, id: SessionId, c: Copy)
    requires RowOk(id, row, h) && CopyOk(c, h) && row.revision == c.body.session.revision && c.body.id == id
    ensures var saved := Bumped(c.body);
            && RowOk(id, Row(row.revision + 1, saved), h + [Copy(c.base, saved, c.deeds)])
            && CopyOk(Copy(saved, saved, []), h + [Copy(c.base, saved, c.deeds)])
  {
    hide Replay, IsOpening;
    var saved := Bumped(c.body);
    var g := h + [Copy(c.base, saved, c.deeds)];
    assert c.base == h[|h| - 1].body;
    assert Storable(saved);
    ReplayNothing(saved);
    forall i | 0 < i < |g| ensures g[i].base == g[i - 1].body && Landed(g[i]) {
      if i < |h| { assert g[i] == h[i] && g[i - 1] == h[i - 1]; }
    }
  }

  lemma EarlierStays(c: Copy, h: seq<Copy>, more: Copy)
    requires CopyOk(c, h)
    ensures CopyOk(c, h + [more])
  {
    hide Worked;
  }

  lemma {:induction false} ReachableInv(moves: seq<Move>)
    ensures WorldInv(After(START, moves))
  {
    hide Moved, WorldInv;
    if moves == [] {
      StartInv();
    } else {
      ReachableInv(moves[..|moves| - 1]);
      MoveKeeps(After(START, moves[..|moves| - 1]), moves[|moves| - 1]);
    }
  }

  lemma StartInv()
    ensures WorldInv(START)
  {
  }

  // ---- main results ----

  /**
   No lost update: however the workers interleave, the commits of a session carry revisions 0, 1, 2, ..., each is
   computed from the one just before it, and the row holds the last one under its own revision.
   */
  lemma NoLostUpdate(moves: seq<Move>, id: SessionId)
    requires id in After(START, moves).rows
    ensures var w := After(START, moves);
            && id in w.history && w.history[id] != []
            && (forall i :: 0 <= i < |w.history[id]| ==> w.history[id][i].body.session.revision == i)
            && (forall i :: 0 < i < |w.history[id]| ==> w.history[id][i].base == w.history[id][i - 1].body)
            && w.rows[id].body == w.history[id][|w.history[id]| - 1].body
            && w.rows[id].revision == w.rows[id].body.session.revision == |w.history[id]| - 1
  {
    hide After, Landed, IsOpening;
    ReachableInv(moves);
  }

  /** All deeds of the commits, in order. */
  function DeedsOf(h: seq<Copy>): seq<Deed> {
    if h == [] then [] else DeedsOf(h[..|h| - 1]) + h[|h| - 1].deeds
  }

  lemma {:induction false} ChainIsSerial(h: seq<Copy>, j: nat)
    requires Chained(h) && j < |h|
    ensures Storable(h[0].body) && h[j].body.id == h[0].body.id && h[j].body.plan == h[0].body.plan
    ensures h[j].body.session
            == Replay(h[0].body.plan, h[0].body.session, DeedsOf(h[..j + 1])).(revision := j)
  {
    hide Replay;
    if j == 0 {
      assert DeedsOf(h[..1]) == [] by { assert h[..1][..0] == [] && DeedsOf([]) == []; }
      ReplayNothing(h[0].body);
    } else {
      ChainIsSerial(h, j - 1);
      var b, before := h[0].body, DeedsOf(h[..j]);
      assert h[..j + 1][..j] == h[..j];
      ReplayJoins(b.plan, b.session, before, h[j].deeds);
      ReplayRevision(b.plan, Replay(b.plan, b.session, before), j - 1, h[j].deeds);
      ReplayRevision(b.plan, Replay(b.plan, b.session, before), j, h[j].deeds);
      SerialStep(h, j, b, before);
    }
  }

  lemma SerialStep(h: seq<Copy>, j: nat, b: Body, before: seq<Deed>)
    requires Chained(h) && 0 < j < |h| && Storable(b)
    requires h[j - 1].body.plan == b.plan
    requires h[j - 1].body.session == Replay(b.plan, b.session, before).(revision := j - 1)
    requires Replay(b.plan, Replay(b.plan, b.session, before).(revision := j - 1), h[j].deeds)
             == Replay(b.plan, Replay(b.plan, b.session, before), h[j].deeds).(revision := j - 1)
    ensures h[j].body.session
            == Replay(b.plan, Replay(b.plan, b.session, before), h[j].deeds).(revision := j)
  {
    hide Replay, IsOpening;
    assert Landed(h[j]);
  }

  /**
   Commits are serial: whatever the processes did in between, each committed body is what the deeds of the
   accepted saves, done one after the other on the session as it was opened, make of it. The work of a refused
   save leaves no trace in any body.
   */
  lemma CommitsAreSerial(moves: seq<Move>, id: SessionId, j: nat)
    requires id in After(START, moves).history && j < |After(START, moves).history[id]|
    ensures var h := After(START, moves).history[id];
            var b := h[0].body;
            && Storable(b) && b.id == id
            && b.session == NewSession(b.plan, b.session.hasObserver, b.session.parentSessionId, b.session.attempt)
            && h[j].body.id == id && h[j].body.plan == b.plan
            && h[j].body.session == Replay(b.plan, b.session, DeedsOf(h[..j + 1])).(revision := j)
  {
    hide After, Replay, DeedsOf, NewSession, Chained;
    ReachableInv(moves);
    var w := After(START, moves);
    RowOpens(id, w.rows[id], w.history[id]);
    ChainIsSerial(w.history[id], j);
  }

  lemma RowOpens(id: SessionId, row: Row, h: seq<Copy>)
    requires RowOk(id, row, h)
    ensures Chained(h)
    ensures var b := h[0].body;
            && b.id == id
            && b.session == NewSession(b.plan, b.session.hasObserver, b.session.parentSessionId, b.session.attempt)
  {
    hide Replay, NewSession;
    ChainIsSerial(h, |h| - 1);
  }

  predicate Reloads(m: Move, worker: Worker) {
    m.Load? && m.worker == worker
  }

  /** A copy older than its row cannot be saved, and stays that way until its worker loads again. */
  ghost predicate Stale(w: World, worker: Worker) {
    worker in w.copies ==>
      w.copies[worker].body.id in w.rows
      && w.copies[worker].body.session.revision < w.rows[w.copies[worker].body.id].revision
  }

  lemma DoneStays(w: World, k: Worker, deed: Deed, worker: Worker)
    requires k in w.copies && Storable(w.copies[k].body) && Stale(w, worker)
    ensures Stale(Done(w, k, deed), worker)
  {
    hide Apply, RetestPlan, NewSession;
    ApplyRevision(w.copies[k].body.plan, w.copies[k].body.session, 0, deed);
  }

  lemma StaleStays(w: World, m: Move, worker: Worker)
    requires Stale(w, worker) && !Reloads(m, worker)
    ensures Stale(Moved(w, m), worker)
  {
    hide Done, NewSession;
    match m
    case Work(k, deed) =>
      if k in w.copies && Storable(w.copies[k].body) {
        DoneStays(w, k, deed, worker);
        if deed.edit.Take? {
          DoneStays(w.(stored := w.stored + {(w.copies[k].body.id, deed.edit.observation.id)}), k, deed, worker);
        }
      }
    case _ =>
  }

  lemma {:induction false} StaleRun(w: World, moves: seq<Move>, worker: Worker)
    requires Stale(w, worker)
    requires forall m :: m in moves ==> !Reloads(m, worker)
    ensures Stale(After(w, moves), worker)
  {
    hide Moved, Stale;
    if moves != [] {
      var init := moves[..|moves| - 1];
      assert forall m :: m in init ==> m in moves;
      StaleRun(w, init, worker);
      StaleStays(After(w, init), moves[|moves| - 1], worker);
    }
  }

  lemma FirstSaveOutdates(w: World, first: Worker, second: Worker)
    requires first != second && first in w.copies && second in w.copies
    requires w.copies[first].body.id == w.copies[second].body.id
    requires w.copies[first].body.session.revision == w.copies[second].body.session.revision
    requires Matched(w.rows, w.copies[first].body)
    ensures Stale(Moved(w, Write(first)), second)
  {
  }

  lemma StaleSaveChangesNothing(w: World, worker: Worker)
    requires Stale(w, worker)
    ensures Moved(w, Write(worker)).rows == w.rows && Moved(w, Write(worker)).history == w.history
  {
  }

  /**
   Of two workers holding the same revision at most one commits: once `first` has saved, whatever anyone does,
   `second` cannot change a row until it loads again.
   */
  lemma SecondSaverIsRefused(w: World, first: Worker, second: Worker, between: seq<Move>)
    requires first != second && first in w.copies && second in w.copies
    requires w.copies[first].body.id == w.copies[second].body.id
    requires w.copies[first].body.session.revision == w.copies[second].body.session.revision
    requires Matched(w.rows, w.copies[first].body)
    requires forall m :: m in between ==> !Reloads(m, second)
    ensures var v := After(Moved(w, Write(first)), between);
            Moved(v, Write(second)).rows == v.rows && Moved(v, Write(second)).history == v.history
  {
    hide Moved, Stale;
    FirstSaveOutdates(w, first, second);
    StaleRun(Moved(w, Write(first)), between, second);
    StaleSaveChangesNothing(After(Moved(w, Write(first)), between), second);
  }
}
