/**
 The guarantees of the guided service for every interleaving of several processes: what committed bodies owe to
 the scenario's contract, to the reported observations, and to the retests that were inserted beside them.
 */
module SessionTheorems {
  import opened Wrappers
  import opened GuidedModels
  import opened GuidedSteps
  import opened GuidedStepLaws
  import opened GuidedTransitions
  import opened GuidedRuns
  import opened GuidedEvolution
  import opened GuidedLedger
  import opened GuidedRetests
  import opened GuidedTheorems
  import opened SessionEdits
  import opened SessionTable
  import opened SessionHistory

  /** The body that commit `j` of session `id` stored. */
  function Commit(moves: seq<Move>, id: SessionId, j: nat): Body
    requires id in After(START, moves).history && j < |After(START, moves).history[id]|
  {
    After(START, moves).history[id][j].body
  }

  /** The deeds of all accepted saves of session `id` up to commit `j`. */
  function DeedsTo(moves: seq<Move>, id: SessionId, j: nat): seq<Deed>
    requires id in After(START, moves).history && j < |After(START, moves).history[id]|
  {
    DeedsOf(After(START, moves).history[id][..j + 1])
  }

  // ---- what commits keep from one to the next ----

  lemma ReachedChain(moves: seq<Move>, id: SessionId)
    requires id in After(START, moves).history
    ensures Chained(After(START, moves).history[id])
  {
    hide After, Chained;
    ReachableInv(moves);
    var w := After(START, moves);
    RowOpens(id, w.rows[id], w.history[id]);
  }

  lemma {:induction false} ChainEvolves(h: seq<Copy>, i: nat, j: nat)
    requires Chained(h) && i <= j < |h|
    ensures SessionEvolves(h[i].body.session, h[j].body.session)
    ensures h[i].body.session.retestSessionId.Some? ==>
              h[j].body.session.retestSessionId == h[i].body.session.retestSessionId
    decreases j
  {
    hide SessionEvolves, Replay, IsOpening;
    if i == j {
      SelfEvolves(h[i].body.session);
    } else {
      ChainEvolves(h, i, j - 1);
      assert Landed(h[j]);
      var s := h[j - 1].body.session;
      ReplayEvolves(h[j].base.plan, s, h[j].deeds);
      ReplayKeepsLink(h[j].base.plan, s, h[j].deeds);
      RevisionEvolves(s, Replay(h[j].base.plan, s, h[j].deeds), h[j].body.session.revision);
      EvolvesTransitive(h[i].body.session, s, h[j].body.session);
    }
  }

  lemma RevisionEvolves(s: Session, t: Session, n: nat)
    requires SessionEvolves(s, t)
    ensures SessionEvolves(s, t.(revision := n))
  {
  }

  /** Across processes too: once a step is committed as passed, every later commit has that same record. */
  lemma CommittedPassStands(moves: seq<Move>, id: SessionId, i: nat, j: nat, n: nat)
    requires id in After(START, moves).history && i <= j < |After(START, moves).history[id]|
    requires n < |Commit(moves, id, i).session.results| && Commit(moves, id, i).session.results[n].status.Passed?
    ensures n < |Commit(moves, id, j).session.results|
    ensures Commit(moves, id, j).session.results[n] == Commit(moves, id, i).session.results[n]
  {
    hide After, Chained;
    ReachedChain(moves, id);
    ChainEvolves(After(START, moves).history[id], i, j);
  }

  /** A committed retest link is never changed: of all retests that processes insert, one at most is ever linked. */
  lemma CommittedLinkStands(moves: seq<Move>, id: SessionId, i: nat, j: nat)
    requires id in After(START, moves).history && i <= j < |After(START, moves).history[id]|
    requires Commit(moves, id, i).session.retestSessionId.Some?
    ensures Commit(moves, id, j).session.retestSessionId == Commit(moves, id, i).session.retestSessionId
  {
    hide After, Chained;
    ReachedChain(moves, id);
    ChainEvolves(After(START, moves).history[id], i, j);
  }

  // ---- the session invariant, and what follows from it ----

  /**
   Every committed body is sound, however many processes worked on the session, if the readings of each accepted
   save follow those of the saves it builds on: a process loads a body after it was committed.
   */
  lemma CommittedKeeps(moves: seq<Move>, id: SessionId, j: nat, start: int)
    requires id in After(START, moves).history && j < |After(START, moves).history[id]|
    requires ValidPlan(Commit(moves, id, 0).plan) && Clocked(start, DeedsTo(moves, id, j))
    ensures var b := Commit(moves, id, j);
            SessionInv(b.plan, b.session, DeedsEnd(start, DeedsTo(moves, id, j)))
  {
    hide After, SessionInv, NewSession, Replay, Clocked, DeedsEnd, DeedsOf;
    CommitsAreSerial(moves, id, j);
    var b, deeds := Commit(moves, id, 0), DeedsTo(moves, id, j);
    NewSessionKeeps(b.plan, b.session.hasObserver, b.session.parentSessionId, b.session.attempt, start);
    ReplayKeeps(b.plan, b.session, deeds, start);
    RevisionKeeps(b.plan, Replay(b.plan, b.session, deeds), j, DeedsEnd(start, deeds));
  }

  /** Oracle stability across processes: a step that any commit shows as passed met its whole contract. */
  lemma CommittedPassMetContract(moves: seq<Move>, id: SessionId, j: nat, start: int, i: nat)
    requires id in After(START, moves).history && j < |After(START, moves).history[id]|
    requires ValidPlan(Commit(moves, id, 0).plan) && Clocked(start, DeedsTo(moves, id, j))
    requires i < |Commit(moves, id, j).plan| == |Commit(moves, id, j).session.results|
    requires !Commit(moves, id, j).plan[i].kind.Manual? && Commit(moves, id, j).session.results[i].status.Passed?
    ensures Commit(moves, id, j).plan[i].oracle.Some?
    ensures var r, oracle := Commit(moves, id, j).session.results[i], Commit(moves, id, j).plan[i].oracle.value;
            MeetsContract(oracle, r.tally.samples) && OracleSatisfied(oracle, r.tally, r.timing.durationMs)
  {
    hide After, SessionInv, Clocked, DeedsEnd, DeedsOf, MeetsContract, OracleSatisfied;
    CommittedKeeps(moves, id, j, start);
    var b := Commit(moves, id, j);
    SoundPassMetContract(b.plan, b.session, i, DeedsEnd(start, DeedsTo(moves, id, j)));
  }

  /** Every counter of every committed step is the fold of the samples it consumed. */
  lemma CommittedCountersAreFolds(moves: seq<Move>, id: SessionId, j: nat, start: int, i: nat)
    requires id in After(START, moves).history && j < |After(START, moves).history[id]|
    requires ValidPlan(Commit(moves, id, 0).plan) && Clocked(start, DeedsTo(moves, id, j))
    requires i < |Commit(moves, id, j).plan| == |Commit(moves, id, j).session.results|
    requires Commit(moves, id, j).plan[i].oracle.Some?
    ensures Folded(Commit(moves, id, j).plan[i].oracle.value, Commit(moves, id, j).session.results[i].tally)
  {
    hide After, SessionInv, Clocked, DeedsEnd, DeedsOf, Folded;
    CommittedKeeps(moves, id, j, start);
    var b := Commit(moves, id, j);
    SoundCounters(b.plan, b.session, i, DeedsEnd(start, DeedsTo(moves, id, j)));
  }

  // ---- each observation once ----

  function Quota(w: World, id: SessionId, x: string): nat {
    if (id, x) in w.stored then 1 else 0
  }

  function CommittedTakes(w: World, id: SessionId, x: string): nat {
    if id in w.history then TimesTaken(DeedsOf(w.history[id]), x) else 0
  }

  function PendingTakes(w: World, k: Worker, x: string): nat
    requires k in w.copies
  {
    TimesTaken(w.copies[k].deeds, x)
  }

  predicate Holds(w: World, k: Worker, id: SessionId) {
    k in w.copies && w.copies[k].body.id == id
  }

  /** Only the process that inserted an observation has taken it, and only once. */
  ghost predicate TakenOnce(w: World, id: SessionId, x: string) {
    && CommittedTakes(w, id, x) <= Quota(w, id, x)
    && (forall k :: Holds(w, k, id) ==> CommittedTakes(w, id, x) + PendingTakes(w, k, x) <= Quota(w, id, x))
    && (forall k, l :: k != l && Holds(w, k, id) && Holds(w, l, id) ==> PendingTakes(w, k, x) + PendingTakes(w, l, x) <= 1)
  }

  /** A worker takes nothing, or an observation that was not stored before. */
  lemma DoneTakesOnce(w: World, k: Worker, deed: Deed, id: SessionId, x: string, stored: set<(SessionId, string)>)
    requires WorldInv(w) && TakenOnce(w, id, x) && k in w.copies && Storable(w.copies[k].body)
    requires !Taken(deed, x) || w.copies[k].body.id != id ==> (((id, x) in stored) == ((id, x) in w.stored))
    requires Taken(deed, x) && w.copies[k].body.id == id ==> (id, x) !in w.stored && (id, x) in stored
    ensures TakenOnce(Done(w.(stored := stored), k, deed), id, x)
  {
    hide Apply, WorldInv, TimesTaken, RetestPlan, Opened, Links, DeedsOf;
    var c := w.copies[k];
    var v := Done(w.(stored := stored), k, deed);
    TimesTakenNext(c.deeds, deed, x);
    DoneHistory(w, k, deed, id, x, stored);
    forall l | Holds(v, l, id)
      ensures Holds(w, l, id) && v.copies[l].deeds == if l == k then c.deeds + [deed] else w.copies[l].deeds
    {
    }
  }

  lemma DoneHistory(w: World, k: Worker, deed: Deed, id: SessionId, x: string, stored: set<(SessionId, string)>)
    requires WorldInv(w) && k in w.copies && Storable(w.copies[k].body)
    ensures CommittedTakes(Done(w.(stored := stored), k, deed), id, x) == CommittedTakes(w, id, x)
  {
    hide Apply, RowOk, CopyOk, RetestPlan, NewSession, Links, TimesTaken, DeedsOf;
    OpeningTakes(RetestOf(Edited(w.copies[k], deed).body, deed.retestId), x);
  }

  lemma OpeningTakes(b: Body, x: string)
    ensures TimesTaken(DeedsOf([Copy(b, b, [])]), x) == 0
  {
    assert [Copy(b, b, [])][..0] == [] && DeedsOf([]) == [];
  }

  lemma BumpedIdentity(b: Body)
    ensures Bumped(b).id == b.id
  {
  }

  /** What a save does to the session saved and to the copies of the other workers. */
  lemma SaveCommits(w: World, k: Worker)
    requires WorldInv(w) && k in w.copies && Matched(w.rows, w.copies[k].body)
    ensures var v, c := Moved(w, Write(k)), w.copies[k];
            && v.stored == w.stored && c.body.id in w.history
            && v.history == w.history[c.body.id := w.history[c.body.id] + [Copy(c.base, Bumped(c.body), c.deeds)]]
            && v.copies == w.copies[k := Copy(Bumped(c.body), Bumped(c.body), [])]
  {
    hide RowOk, CopyOk;
  }

  lemma SaveTakesOnce(w: World, k: Worker, id: SessionId, x: string)
    requires WorldInv(w) && TakenOnce(w, id, x) && k in w.copies && Matched(w.rows, w.copies[k].body)
    ensures TakenOnce(Moved(w, Write(k)), id, x)
  {
    hide WorldInv, TimesTaken, DeedsOf, Bumped, Moved;
    var c, v := w.copies[k], Moved(w, Write(k));
    SaveCommits(w, k);
    BumpedIdentity(c.body);
    NothingTaken(x);
    if c.body.id == id {
      DeedsOfNext(w.history[id], Copy(c.base, Bumped(c.body), c.deeds));
      TimesTakenJoins(DeedsOf(w.history[id]), c.deeds, x);
      assert Holds(w, k, id);
    }
    forall l | Holds(v, l, id) && l != k ensures Holds(w, l, id) && v.copies[l] == w.copies[l] {
    }
  }

  lemma DeedsOfNext(h: seq<Copy>, c: Copy)
    ensures DeedsOf(h + [c]) == DeedsOf(h) + c.deeds
  {
    assert (h + [c])[..|h|] == h;
  }

  lemma BeginTakesOnce(w: World, b: Body, id: SessionId, x: string)
    requires WorldInv(w) && TakenOnce(w, id, x) && b.id !in w.rows
    ensures TakenOnce(Begun(w, b), id, x)
  {
    hide RowOk, CopyOk, TimesTaken, DeedsOf;
    OpeningTakes(b, x);
    var v := Begun(w, b);
    forall l | Holds(v, l, id) ensures Holds(w, l, id) {
    }
  }

  lemma RefusedTakesOnce(w: World, k: Worker, id: SessionId, x: string)
    requires TakenOnce(w, id, x) && k in w.copies && !Matched(w.rows, w.copies[k].body)
    ensures TakenOnce(Moved(w, Write(k)), id, x)
  {
    hide TimesTaken, DeedsOf;
    var v := Moved(w, Write(k));
    forall l | Holds(v, l, id) ensures Holds(w, l, id) && v.copies[l] == w.copies[l] {
    }
  }

  lemma LoadTakesOnce(w: World, k: Worker, loaded: SessionId, id: SessionId, x: string)
    requires WorldInv(w) && TakenOnce(w, id, x) && loaded in w.rows
    ensures TakenOnce(Moved(w, Load(k, loaded)), id, x)
  {
    hide RowOk, CopyOk, TimesTaken, DeedsOf;
    var v := Moved(w, Load(k, loaded));
    NothingTaken(x);
    forall l | Holds(v, l, id) && l != k ensures Holds(w, l, id) && v.copies[l] == w.copies[l] {
    }
  }

  lemma MoveTakesOnce(w: World, m: Move, id: SessionId, x: string)
    requires WorldInv(w) && TakenOnce(w, id, x)
    ensures TakenOnce(Moved(w, m), id, x)
  {
    hide RowOk, CopyOk, Done, TakesNoInput, NewSession, TimesTaken, DeedsOf;
    match m
    case Create(made, plan, hasObserver, parent, attempt) =>
      if made !in w.rows && plan != [] {
        BeginTakesOnce(w, Opened(made, plan, hasObserver, parent, attempt), id, x);
      }
    case Load(worker, loaded) =>
      if loaded in w.rows {
        LoadTakesOnce(w, worker, loaded, id, x);
      }
    case Work(k, deed) =>
      if k in w.copies && Storable(w.copies[k].body) {
        var b := w.copies[k].body;
        if !deed.edit.Take? {
          assert w.(stored := w.stored) == w;
          DoneTakesOnce(w, k, deed, id, x, w.stored);
        } else if !TakesNoInput(b.session) && (b.id, deed.edit.observation.id) !in w.stored {
          DoneTakesOnce(w, k, deed, id, x, w.stored + {(b.id, deed.edit.observation.id)});
        }
      }
    case Write(k) =>
      if k in w.copies {
        if Matched(w.rows, w.copies[k].body) {
          SaveTakesOnce(w, k, id, x);
        } else {
          RefusedTakesOnce(w, k, id, x);
        }
      }
  }

  lemma {:induction false} RunTakesOnce(moves: seq<Move>, id: SessionId, x: string)
    ensures TakenOnce(After(START, moves), id, x)
  {
    hide Moved, TakenOnce;
    if moves == [] {
      NobodyTookYet(id, x);
    } else {
      var init := moves[..|moves| - 1];
      RunTakesOnce(init, id, x);
      ReachableInv(init);
      MoveTakesOnce(After(START, init), moves[|moves| - 1], id, x);
    }
  }

  lemma NobodyTookYet(id: SessionId, x: string)
    ensures TakenOnce(START, id, x)
  {
  }

  lemma {:induction false} TakenUpTo(h: seq<Copy>, j: nat, x: string)
    requires j <= |h|
    ensures TimesTaken(DeedsOf(h[..j]), x) <= TimesTaken(DeedsOf(h), x)
    decreases |h| - j
  {
    hide TimesTaken, DeedsOf;
    if j == |h| {
      assert h[..j] == h;
    } else {
      assert h[..j + 1] == h[..j] + [h[j]];
      DeedsOfNext(h[..j], h[j]);
      TimesTakenJoins(DeedsOf(h[..j]), h[j].deeds, x);
      TakenUpTo(h, j + 1, x);
    }
  }

  /**
   No double counting across processes: in every committed body an observation is consumed at most once, over all
   steps and all attempts that accepted retries retired, and only if it is stored. It is consumed exactly when a
   process took it while the current step of its copy was open to telemetry and that copy was saved.
   */
  lemma CommittedConsumeOnce(moves: seq<Move>, id: SessionId, j: nat, x: string)
    requires id in After(START, moves).history && j < |After(START, moves).history[id]|
    ensures var b, deeds := Commit(moves, id, 0), DeedsTo(moves, id, j);
            && Storable(b)
            && var uses := Uses(Commit(moves, id, j).session.results, x) + Uses(Retired(b.plan, b.session, deeds), x);
               && uses <= (if (id, x) in After(START, moves).stored then 1 else 0)
               && (uses == 1 <==> EverConsumed(b.plan, b.session, deeds, x))
  {
    hide After, Uses, Retired, TimesTaken, TimesConsumed, EverConsumed, DeedsOf, Replay, NewSession;
    var w := After(START, moves);
    CommitsAreSerial(moves, id, j);
    RunTakesOnce(moves, id, x);
    TakenUpTo(w.history[id], j + 1, x);
    var b := Commit(moves, id, 0);
    ReplayUses(b.plan, b.session, DeedsTo(moves, id, j), x);
    ConsumedWasTaken(b.plan, b.session, DeedsTo(moves, id, j), x);
    NewUses(b.plan, b.session.hasObserver, b.session.parentSessionId, b.session.attempt, x);
  }

  lemma NewUses(plan: seq<ScenarioStep>, hasObserver: bool, parent: Option<SessionId>, attempt: nat, x: string)
    ensures Uses(NewSession(plan, hasObserver, parent, attempt).results, x) == 0
  {
    FreshUses(NewSession(plan, hasObserver, parent, attempt).results, x);
  }

  // ---- retests and the saves they depend on ----

  predicate LinksTo(b: Body, child: SessionId) {
    b.session.retestSessionId == Some(child)
  }

  /** Some committed body names `child` as its retest. */
  ghost predicate LinkedInHistory(w: World, child: SessionId) {
    exists id, i :: id in w.history && 0 <= i < |w.history[id]| && LinksTo(w.history[id][i].body, child)
  }

  ghost predicate NobodyLinks(w: World, child: SessionId) {
    !LinkedInHistory(w, child) && forall k :: k in w.copies ==> !LinksTo(w.copies[k].body, child)
  }

  /** `child` was inserted as the retest of session `id`. */
  ghost predicate IsRetestOf(w: World, child: SessionId, id: SessionId) {
    && child in w.history && w.history[child] != []
    && w.history[child][0].body.session.parentSessionId == Some(id)
  }

  /** The unsaved deeds of the worker inserted `child`. */
  predicate Prepared(w: World, k: Worker, child: SessionId) {
    k in w.copies && !LinksTo(w.copies[k].base, child) && LinksTo(w.copies[k].body, child)
  }

  /** A retest not yet linked is known to the copy whose deeds inserted it and to no other. */
  ghost predicate KnownToOne(w: World, k: Worker, child: SessionId)
    requires k in w.copies
  {
    && !LinkedInHistory(w, child)
    && (forall l :: l in w.copies && l != k ==> !LinksTo(w.copies[l].body, child))
    && child in w.rows && IsRetestOf(w, child, w.copies[k].body.id)
  }

  ghost predicate LinksKnown(w: World, child: SessionId) {
    && (child !in w.rows ==> NobodyLinks(w, child))
    && (forall k :: Prepared(w, k, child) ==> KnownToOne(w, k, child))
  }

  /** What a deed does to rows, history and copies, as far as links are concerned. */
  lemma DoneLinks(w: World, k: Worker, deed: Deed, child: SessionId)
    requires WorldInv(w) && k in w.copies && Storable(w.copies[k].body)
    ensures var v := Done(w, k, deed);
            && (LinkedInHistory(v, child) ==> LinkedInHistory(w, child))
            && (forall l :: l in v.copies && l != k ==> l in w.copies && v.copies[l] == w.copies[l])
            && (k in v.copies ==>
                  && v.copies[k].base == w.copies[k].base && v.copies[k].body.id == w.copies[k].body.id
                  && (LinksTo(v.copies[k].body, child) && !LinksTo(w.copies[k].body, child) ==>
                        child !in w.rows && child in v.rows && IsRetestOf(v, child, w.copies[k].body.id)))
  {
    hide RowOk, CopyOk, Apply, RetestPlan;
    var c := w.copies[k];
    LinkIsDeeds(c, deed);
    var v := Done(w, k, deed);
    forall id, i | id in v.history && 0 <= i < |v.history[id]| && LinksTo(v.history[id][i].body, child)
      ensures LinkedInHistory(w, child)
    {
      assert id in w.history && v.history[id] == w.history[id];
    }
  }

  lemma DoneGrows(w: World, k: Worker, deed: Deed, id: SessionId)
    requires WorldInv(w) && k in w.copies && Storable(w.copies[k].body) && id in w.history
    ensures id in Done(w, k, deed).history && Done(w, k, deed).history[id] == w.history[id]
  {
    hide RowOk, CopyOk, Apply, RetestPlan, Links;
  }

  lemma WorkGrows(w: World, k: Worker, deed: Deed, id: SessionId)
    requires WorldInv(w) && id in w.history
    ensures id in Moved(w, Work(k, deed)).history && Moved(w, Work(k, deed)).history[id] == w.history[id]
  {
    hide RowOk, CopyOk, Done, TakesNoInput;
    if k in w.copies && Storable(w.copies[k].body) {
      DoneGrows(w, k, deed, id);
      if deed.edit.Take? {
        DoneGrows(w.(stored := w.stored + {(w.copies[k].body.id, deed.edit.observation.id)}), k, deed, id);
      }
    }
  }

  /** Histories are only added to. */
  lemma MoveGrows(w: World, m: Move, id: SessionId)
    requires WorldInv(w) && id in w.history
    ensures id in Moved(w, m).history && w.history[id] <= Moved(w, m).history[id]
  {
    hide RowOk, CopyOk, Done, NewSession, Replay;
    match m
    case Work(k, deed) =>
      hide Moved;
      WorkGrows(w, k, deed, id);
    case _ =>
  }

  lemma RowIsLast(w: World, id: SessionId, child: SessionId)
    requires WorldInv(w) && id in w.rows && LinksTo(w.rows[id].body, child)
    ensures LinkedInHistory(w, child)
  {
    hide CopyOk, Landed, IsOpening;
    assert RowOk(id, w.rows[id], w.history[id]);
    assert LinksTo(w.history[id][|w.history[id]| - 1].body, child);
  }

  lemma SaveLinks(w: World, k: Worker, child: SessionId)
    requires WorldInv(w) && k in w.copies && Matched(w.rows, w.copies[k].body)
    ensures LinkedInHistory(Moved(w, Write(k)), child) <==> LinkedInHistory(w, child) || LinksTo(w.copies[k].body, child)
  {
    hide WorldInv, Moved;
    SaveCommits(w, k);
    var c := w.copies[k];
    var v, id := Moved(w, Write(k)), c.body.id;
    var h := w.history[id];
    assert v.history[id][|h|].body == Bumped(c.body);
    if LinkedInHistory(w, child) {
      var x, i :| x in w.history && 0 <= i < |w.history[x]| && LinksTo(w.history[x][i].body, child);
      assert x in v.history && LinksTo(v.history[x][i].body, child);
    }
    if LinkedInHistory(v, child) {
      var x, i :| x in v.history && 0 <= i < |v.history[x]| && LinksTo(v.history[x][i].body, child);
      assert x in w.history && (i < |w.history[x]| ==> LinksTo(w.history[x][i].body, child));
    }
  }

  lemma CreateLinks(w: World, m: Move, child: SessionId)
    requires WorldInv(w) && m.Create? && m.id !in w.rows
    ensures LinkedInHistory(Moved(w, m), child) ==> LinkedInHistory(w, child)
  {
    hide RowOk, CopyOk;
    var v := Moved(w, m);
    forall id, i | id in v.history && 0 <= i < |v.history[id]| && LinksTo(v.history[id][i].body, child)
      ensures LinkedInHistory(w, child)
    {
      assert id in w.history && LinksTo(w.history[id][i].body, child);
    }
  }

  /** Where nobody links `child`, no move makes anyone link it, unless the move inserts it. */
  lemma NobodyStays(w: World, m: Move, child: SessionId)
    requires WorldInv(w) && NobodyLinks(w, child)
    requires child in w.rows || child !in Moved(w, m).rows
    ensures NobodyLinks(Moved(w, m), child)
  {
    hide RowOk, CopyOk, Done, NewSession, LinkedInHistory, LinksTo;
    match m
    case Create(id, _, _, _, _) =>
      if id !in w.rows { CreateLinks(w, m, child); }
    case Load(_, id) =>
      if id in w.rows && LinksTo(w.rows[id].body, child) { RowIsLast(w, id, child); }
      SameHistory(w, Moved(w, m), child);
    case Work(k, deed) => WorkLinks(w, k, deed, child);
    case Write(k) =>
      if k in w.copies && Matched(w.rows, w.copies[k].body) {
        SaveLinks(w, k, child);
        BumpedLinks(w.copies[k].body, child);
      } else {
        SameHistory(w, Moved(w, m), child);
      }
  }

  lemma BumpedLinks(b: Body, child: SessionId)
    ensures LinksTo(Bumped(b), child) == LinksTo(b, child)
  {
  }

  lemma SameHistory(w: World, v: World, child: SessionId)
    requires w.history == v.history
    ensures LinkedInHistory(w, child) == LinkedInHistory(v, child)
  {
  }

  /** The same for the whole move, which may first store an observation. */
  lemma WorkLinks(w: World, k: Worker, deed: Deed, child: SessionId)
    requires WorldInv(w)
    ensures var v := Moved(w, Work(k, deed));
            && (LinkedInHistory(v, child) ==> LinkedInHistory(w, child))
            && (forall l :: l in v.copies && l != k ==> l in w.copies && v.copies[l] == w.copies[l])
            && (k in v.copies ==>
                  && k in w.copies
                  && v.copies[k].base == w.copies[k].base && v.copies[k].body.id == w.copies[k].body.id
                  && (LinksTo(v.copies[k].body, child) && !LinksTo(w.copies[k].body, child) ==>
                        child !in w.rows && child in v.rows && IsRetestOf(v, child, w.copies[k].body.id)))
  {
    hide RowOk, CopyOk, Done, LinksTo, IsRetestOf, LinkedInHistory, TakesNoInput;
    if k in w.copies && Storable(w.copies[k].body) {
      DoneLinks(w, k, deed, child);
      if deed.edit.Take? {
        var stored := w.(stored := w.stored + {(w.copies[k].body.id, deed.edit.observation.id)});
        SameHistory(w, stored, child);
        DoneLinks(stored, k, deed, child);
      }
    }
  }

  lemma RetestStays(w: World, m: Move, child: SessionId, id: SessionId)
    requires WorldInv(w) && IsRetestOf(w, child, id)
    ensures IsRetestOf(Moved(w, m), child, id)
  {
    hide RowOk, CopyOk, Moved;
    MoveGrows(w, m, child);
  }

  /** A copy that prepared `child` stays the only one to know it, whatever another worker or it itself does. */
  lemma KnownStays(w: World, m: Move, k: Worker, child: SessionId)
    requires WorldInv(w) && Prepared(w, k, child) && KnownToOne(w, k, child)
    requires Prepared(Moved(w, m), k, child)
    ensures KnownToOne(Moved(w, m), k, child)
  {
    hide RowOk, CopyOk, Done, NewSession, LinkedInHistory, IsRetestOf;
    RowsGrow(w, m, child);
    RetestStays(w, m, child, w.copies[k].body.id);
    match m
    case Create(id, _, _, _, _) =>
      if id !in w.rows { CreateLinks(w, m, child); }
    case Load(_, id) =>
      if id in w.rows && LinksTo(w.rows[id].body, child) { RowIsLast(w, id, child); }
      SameHistory(w, Moved(w, m), child);
    case Work(l, deed) => WorkLinks(w, l, deed, child);
    case Write(l) =>
      if l in w.copies && Matched(w.rows, w.copies[l].body) {
        SaveLinks(w, l, child);
        BumpedLinks(w.copies[l].body, child);
      } else {
        SameHistory(w, Moved(w, m), child);
      }
  }

  /** A copy that comes to know `child` without loading it has just inserted it. */
  lemma KnownStarts(w: World, m: Move, k: Worker, child: SessionId)
    requires WorldInv(w) && LinksKnown(w, child) && !Prepared(w, k, child) && Prepared(Moved(w, m), k, child)
    ensures KnownToOne(Moved(w, m), k, child)
  {
    hide RowOk, CopyOk, Done, NewSession, LinkedInHistory, IsRetestOf;
    match m
    case Work(l, deed) => WorkLinks(w, l, deed, child);
    case _ =>
  }

  lemma MoveKnown(w: World, m: Move, child: SessionId)
    requires WorldInv(w) && LinksKnown(w, child)
    ensures LinksKnown(Moved(w, m), child)
  {
    hide WorldInv, Moved, NobodyLinks, KnownToOne, Prepared;
    var v := Moved(w, m);
    if child in w.rows {
      RowsGrow(w, m, child);
    } else if child !in v.rows {
      NobodyStays(w, m, child);
    }
    forall k | Prepared(v, k, child) ensures k in v.copies && KnownToOne(v, k, child) {
      PreparedHolds(v, k, child);
      if Prepared(w, k, child) {
        PreparedHolds(w, k, child);
        KnownStays(w, m, k, child);
      } else {
        KnownStarts(w, m, k, child);
      }
    }
  }

  lemma PreparedHolds(w: World, k: Worker, child: SessionId)
    requires Prepared(w, k, child)
    ensures k in w.copies
  {
  }

  lemma RowsGrow(w: World, m: Move, id: SessionId)
    requires WorldInv(w) && id in w.rows
    ensures id in Moved(w, m).rows
  {
    hide Moved, RowOk, CopyOk;
    MoveKeeps(w, m);
    MoveGrows(w, m, id);
  }

  lemma {:induction false} RunKnown(moves: seq<Move>, child: SessionId)
    ensures LinksKnown(After(START, moves), child)
  {
    hide Moved, LinksKnown;
    if moves == [] {
      NobodyKnowsYet(child);
    } else {
      var init := moves[..|moves| - 1];
      RunKnown(init, child);
      ReachableInv(init);
      MoveKnown(After(START, init), moves[|moves| - 1], child);
    }
  }

  lemma NobodyKnowsYet(child: SessionId)
    ensures LinksKnown(START, child)
  {
  }

  /** What later moves keep: the retest itself, a committed link, and the absence of any link. */
  lemma {:induction false} LinksSettle(w: World, more: seq<Move>, child: SessionId, id: SessionId)
    requires WorldInv(w) && IsRetestOf(w, child, id) && id in w.history
    ensures var v := After(w, more);
            && WorldInv(v) && IsRetestOf(v, child, id)
            && id in v.history && w.history[id] <= v.history[id]
            && (NobodyLinks(w, child) ==> NobodyLinks(v, child))
  {
    hide Moved, WorldInv, IsRetestOf, NobodyLinks;
    if more != [] {
      var init, m := more[..|more| - 1], more[|more| - 1];
      LinksSettle(w, init, child, id);
      var u := After(w, init);
      MoveKeeps(u, m);
      MoveGrows(u, m, id);
      RetestStays(u, m, child, id);
      RetestHasRow(u, child, id);
      if NobodyLinks(u, child) {
        NobodyStays(u, m, child);
      }
    }
  }

  lemma RetestHasRow(w: World, child: SessionId, id: SessionId)
    requires WorldInv(w) && IsRetestOf(w, child, id)
    ensures child in w.rows
  {
    hide RowOk, CopyOk;
  }

  /** The row of a session links what any of its commits linked. */
  lemma RowKeepsLink(w: World, id: SessionId, i: nat, child: SessionId)
    requires WorldInv(w) && id in w.history && i < |w.history[id]| && LinksTo(w.history[id][i].body, child)
    ensures id in w.rows && LinksTo(w.rows[id].body, child)
  {
    hide CopyOk, Landed, IsOpening, SessionEvolves;
    var h := w.history[id];
    assert RowOk(id, w.rows[id], h);
    ChainEvolves(h, i, |h| - 1);
  }

  lemma PreparedSave(w: World, k: Worker, child: SessionId)
    requires WorldInv(w) && Prepared(w, k, child) && KnownToOne(w, k, child)
    ensures var v, c := Moved(w, Write(k)), w.copies[k];
            && WorldInv(v) && IsRetestOf(v, child, c.body.id)
            && c.body.id in w.history && c.body.id in v.history
            && if Matched(w.rows, c.body) then
                 && |v.history[c.body.id]| == |w.history[c.body.id]| + 1
                 && LinksTo(v.history[c.body.id][|w.history[c.body.id]|].body, child)
               else NobodyLinks(v, child)
  {
    hide RowOk, CopyOk, LinkedInHistory;
    var c := w.copies[k];
    MoveKeeps(w, Write(k));
    RetestStays(w, Write(k), child, c.body.id);
    if !Matched(w.rows, c.body) {
      SameHistory(w, Moved(w, Write(k)), child);
    }
  }

  /**
   A retest is inserted before the session that prepared it is saved. Whatever other processes do before and after,
   the retest stays, and it is linked by its session, then and for ever, exactly when that save is accepted; when
   the save is refused no session ever links it.
   */
  lemma RetestIsLinkedIff(moves: seq<Move>, k: Worker, child: SessionId, more: seq<Move>)
    requires Prepared(After(START, moves), k, child)
    ensures var w := After(START, moves);
            var v, c := After(Moved(w, Write(k)), more), w.copies[k];
            && IsRetestOf(v, child, c.body.id)
            && c.body.id in v.rows
            && (LinksTo(v.rows[c.body.id].body, child) <==> Matched(w.rows, c.body))
            && (LinkedInHistory(v, child) <==> Matched(w.rows, c.body))
  {
    hide After, Moved, Chained, RowOk, CopyOk, LinksTo, LinkedInHistory, IsRetestOf, Matched;
    ReachableInv(moves);
    RunKnown(moves, child);
    var w := After(START, moves);
    var id, u := w.copies[k].body.id, Moved(w, Write(k));
    PreparedSave(w, k, child);
    LinksSettle(u, more, child, id);
    var v := After(u, more);
    if Matched(w.rows, w.copies[k].body) {
      var n := |w.history[id]|;
      assert v.history[id][n] == u.history[id][n];
      RowKeepsLink(v, id, n, child);
      RowIsLast(v, id, child);
    } else if LinksTo(v.rows[id].body, child) {
      RowIsLast(v, id, child);
    }
  }

  // ---- two processes, two retests ----

  /**
   Two processes that close the same revision of a session each insert a retest. The one that saves first links its
   own; the retest of the other stays in the table as an orphan that no session ever links.
   */
  lemma SecondRetestIsOrphan(moves: seq<Move>, k: Worker, l: Worker, first: SessionId, second: SessionId, more: seq<Move>)
    requires k != l && Prepared(After(START, moves), k, first) && Prepared(After(START, moves), l, second)
    requires var w := After(START, moves);
             && Matched(w.rows, w.copies[k].body)
             && w.copies[k].body.id == w.copies[l].body.id
             && w.copies[k].body.session.revision == w.copies[l].body.session.revision
    ensures var w := After(START, moves);
            var v, id := After(Moved(Moved(w, Write(k)), Write(l)), more), w.copies[k].body.id;
            && IsRetestOf(v, first, id) && IsRetestOf(v, second, id)
            && LinkedInHistory(v, first) && !LinkedInHistory(v, second)
  {
    hide After, Moved, Chained, RowOk, CopyOk, LinksTo, LinkedInHistory, IsRetestOf;
    var w := After(START, moves);
    AfterNext(START, moves, Write(k));
    AfterFirst(Moved(w, Write(k)), Write(l), more);
    RetestIsLinkedIff(moves, k, first, [Write(l)] + more);
    SaveLeavesOthers(w, k, l);
    RetestIsLinkedIff(moves + [Write(k)], l, second, more);
  }

  lemma AfterNext(w: World, moves: seq<Move>, m: Move)
    ensures After(w, moves + [m]) == Moved(After(w, moves), m)
  {
    hide Moved;
    assert (moves + [m])[..|moves|] == moves;
  }

  lemma {:induction false} AfterFirst(w: World, m: Move, more: seq<Move>)
    ensures After(w, [m] + more) == After(Moved(w, m), more)
  {
    hide Moved;
    if more == [] {
      assert [m] + more == [] + [m];
      AfterNext(w, [], m);
    } else {
      AfterFirst(w, m, more[..|more| - 1]);
      assert ([m] + more)[..|more|] == [m] + more[..|more| - 1];
    }
  }

  lemma SaveLeavesOthers(w: World, k: Worker, l: Worker)
    requires k != l && k in w.copies && l in w.copies && Matched(w.rows, w.copies[k].body)
    requires w.copies[k].body.id == w.copies[l].body.id
    requires w.copies[k].body.session.revision == w.copies[l].body.session.revision
    ensures var v := Moved(w, Write(k));
            l in v.copies && v.copies[l] == w.copies[l] && !Matched(v.rows, v.copies[l].body)
  {
  }

  lemma {:induction false} AbortLeavesRetries(results: seq<StepResult>)
    requires results != [] && !results[0].Terminal()
    ensures RetryIds(AbortAll(results)) != []
  {
    if |results| > 1 {
      AbortLeavesRetries(results[..|results| - 1]);
      assert AbortAll(results)[..|results| - 1] == AbortAll(results[..|results| - 1]);
    }
  }

  lemma AbortPrepares(w: World, k: Worker, b: Body, t: int, child: SessionId)
    requires k in w.copies && w.copies[k] == Copy(b, b, []) && Storable(b) && child !in w.rows
    requires b.session.status.Prepared? && b.session.retestSessionId.None? && !b.session.results[0].Terminal()
    ensures var v := Moved(w, Work(k, Deed(Edit.Command(Abort, t), child)));
            && Prepared(v, k, child) && v.copies[k].body.id == b.id
            && v.copies[k].body.session.revision == b.session.revision
            && (forall l :: l != k && l in w.copies ==> l in v.copies && v.copies[l] == w.copies[l])
            && v.rows.Keys == w.rows.Keys + {child}
            && (b.id in w.rows ==> v.rows[b.id] == w.rows[b.id])
  {
    hide RetryIds, RetestPlan, NewSession, AbortResult;
    AbortLeavesRetries(b.session.results);
  }

  /** Such processes are reached: both abort a session that has just been started. */
  lemma TwoProcessesPrepare(id: SessionId, plan: seq<ScenarioStep>, t: int, first: SessionId, second: SessionId)
    requires plan != [] && first != second && first != id && second != id
    ensures var w := After(START, [Create(id, plan, false, None, 1), Load(0, id), Load(1, id)]
                                  + [Work(0, Deed(Edit.Command(Abort, t), first))]
                                  + [Work(1, Deed(Edit.Command(Abort, t), second))]);
            && Prepared(w, 0, first) && Prepared(w, 1, second)
            && Matched(w.rows, w.copies[0].body)
            && w.copies[0].body.id == w.copies[1].body.id == id
            && w.copies[0].body.session.revision == w.copies[1].body.session.revision
  {
    hide After, Moved;
    var loads := [Create(id, plan, false, None, 1), Load(0, id), Load(1, id)];
    var b := Opened(id, plan, false, None, 1);
    TwoProcessesLoad(id, plan);
    AfterNext(START, loads, Work(0, Deed(Edit.Command(Abort, t), first)));
    AfterNext(START, loads + [Work(0, Deed(Edit.Command(Abort, t), first))], Work(1, Deed(Edit.Command(Abort, t), second)));
    var w := After(START, loads);
    AbortPrepares(w, 0, b, t, first);
    AbortPrepares(Moved(w, Work(0, Deed(Edit.Command(Abort, t), first))), 1, b, t, second);
  }

  lemma TwoProcessesLoad(id: SessionId, plan: seq<ScenarioStep>)
    requires plan != []
    ensures var w, b := After(START, [Create(id, plan, false, None, 1), Load(0, id), Load(1, id)]),
                        Opened(id, plan, false, None, 1);
            && w.rows == map[id := Row(0, b)] && w.copies == map[0 := Copy(b, b, []), 1 := Copy(b, b, [])]
  {
    hide After, NewSession;
    var create := Create(id, plan, false, None, 1);
    AfterNothing();
    AfterNext(START, [], create);
    AfterNext(START, [create], Load(0, id));
    AfterNext(START, [create, Load(0, id)], Load(1, id));
    assert [] + [create] == [create] && [create] + [Load(0, id)] == [create, Load(0, id)];
    assert [create, Load(0, id)] + [Load(1, id)] == [create, Load(0, id), Load(1, id)];
    OpenedIsOpening(id, plan, false, None, 1);
  }

  lemma AfterNothing()
    ensures After(START, []) == START
  {
  }
}
