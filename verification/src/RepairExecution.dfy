/**
 The bounded attempt loop: plan, checkpoint, apply, verify, and roll back what did not pass. Each record is proved
 to tell the truth about the worktree at the moment it was written.
 */
module RepairExecution {
  import opened Wrappers
  import opened RepairPlans
  import opened RepairSplice
  import opened RepairOrchestrator

  datatype Proposal = Rejected | Crashed | Edits(edits: seq<FileRepair>)

  /** All an attempt meets that it does not decide: what the planner does to the tree and proposes, and each fault. */
  datatype Surprise = Surprise(
    planned: Tree,
    proposal: Proposal,
    checkpointFault: Option<nat>,
    writeFaults: seq<Fault>,
    runs: seq<CommandRun>,
    gitFails: bool,
    auditFails: bool,
    undoFaults: seq<Fault>,
    lastGitFails: bool)
  {
    predicate Valid() {
      proposal.Edits? ==> proposal.edits != [] && forall e :: e in proposal.edits ==> e.Valid()
    }
  }

  datatype RecordStatus = PlanRejected | Proposed | RolledBack | Applied | Failed

  datatype AttemptRecord = AttemptRecord(
    attempt: nat,
    status: RecordStatus,
    changedFiles: seq<Path>,
    preimages: map<Path, Digest>,
    postimages: map<Path, Digest>,
    rollbackVerified: Option<bool>)

  function PathList(files: seq<PreparedFile>): seq<Path> {
    seq(|files|, i requires 0 <= i < |files| => files[i].path)
  }

  function Record(n: nat, status: RecordStatus, files: seq<PreparedFile>, postimages: map<Path, Digest>,
                  rollbackVerified: Option<bool>): AttemptRecord {
    AttemptRecord(n, status, PathList(files), Digests(Images(files, false)), postimages, rollbackVerified)
  }

  function Contents(m: map<Path, Digest>): Tree {
    map p | p in m :: m[p].of
  }

  predicate Holds(t: Tree, m: map<Path, Digest>) {
    forall p :: p in m ==> p in t && Sha256(t[p]) == m[p]
  }

  /**
   What a record says of the worktree. APPLIED: the visible tree is the committed one with exactly the planned files
   changed, each at its postimage. ROLLED_BACK: the visible tree is the committed one and each file is back.
   */
  ghost predicate Truthful(repo: Repo, a: AttemptRecord, t: Tree) {
    && (a.status.Applied? ==>
          && a.rollbackVerified.None?
          && Visible(repo, t) == repo.head + Contents(a.postimages)
          && a.postimages.Keys == (set p | p in a.changedFiles)
          && Holds(t, a.postimages)
          && (forall p :: p in a.postimages && p in repo.head ==> Sha256(repo.head[p]) != a.postimages[p]))
    && (a.status.RolledBack? ==>
          && Visible(repo, t) == repo.head
          && a.preimages.Keys == (set p | p in a.changedFiles)
          && Holds(t, a.preimages))
    && (a.rollbackVerified == Some(true) <==> a.status.RolledBack?)
  }

  lemma ListedPaths(files: seq<PreparedFile>)
    ensures (set p | p in PathList(files)) == Paths(files)
  {
    forall p ensures p in PathList(files) <==> p in Paths(files) {
      if p in PathList(files) {
        var i :| 0 <= i < |files| && PathList(files)[i] == p;
        assert files[i] in files;
      }
      if p in Paths(files) {
        var f :| f in files && f.path == p;
        var i :| 0 <= i < |files| && files[i] == f;
        assert PathList(files)[i] == p;
      }
    }
  }

  lemma ImagesHold(t: Tree, files: seq<PreparedFile>, post: bool)
    requires Distinct(files) && AllAt(t, files, post)
    ensures Holds(t, Digests(Images(files, post)))
    ensures Digests(Images(files, post)).Keys == Paths(files)
    ensures Contents(Digests(Images(files, post))) == Images(files, post)
  {
    ImagesAt(files, post);
    forall p | p in Images(files, post) ensures p in t && t[p] == Images(files, post)[p] {
      var f :| f in files && f.path == p;
    }
  }

  lemma AppliedIsTruthful(repo: Repo, t: Tree, n: nat, files: seq<PreparedFile>)
    requires Distinct(files) && AppliedIn(repo, t, files)
    ensures Truthful(repo, Record(n, Applied, files, Digests(Images(files, true)), None), t)
  {
    ListedPaths(files);
    ImagesHold(t, files, true);
    ImagesAt(files, true);
    forall p | p in Images(files, true) && p in repo.head ensures repo.head[p] != Images(files, true)[p] {
      var f :| f in files && f.path == p;
    }
  }

  lemma RestoredIsTruthful(repo: Repo, t: Tree, n: nat, files: seq<PreparedFile>, posts: map<Path, Digest>)
    requires Distinct(files) && RestoredIn(repo, t, files)
    ensures Truthful(repo, Record(n, RolledBack, files, posts, Some(true)), t)
  {
    ListedPaths(files);
    ImagesHold(t, files, false);
  }

  // ---- one attempt ----

  /** The tree verification leaves once the plan is written. */
  function Verified(t: Tree, files: seq<PreparedFile>, runs: seq<CommandRun>): Tree {
    TreeAfter(t + Images(files, true), runs)
  }

  predicate AllLand(files: seq<PreparedFile>, faults: seq<Fault>) {
    LandTo(files, faults, |files|)
  }

  /** When an attempt passes: every file lands, every command succeeds, and git reports exactly the planned files. */
  ghost predicate Passes(repo: Repo, t: Tree, files: seq<PreparedFile>, s: Surprise) {
    && AllLand(files, s.writeFaults)
    && (forall i :: 0 <= i < |s.runs| ==> s.runs[i].end == Exited(0))
    && !s.gitFails
    && AllAt(Verified(t, files, s.runs), files, true)
    && Changed(repo, Verified(t, files, s.runs)) == Paths(files)
  }

  /** When verification raises: every file lands, and the first command that does not succeed has undecodable output. */
  predicate Raises(files: seq<PreparedFile>, s: Surprise) {
    && AllLand(files, s.writeFaults)
    && exists i :: 0 <= i < |s.runs| && s.runs[i].end.Undecodable?
                   && forall j :: 0 <= j < i ==> s.runs[j].end == Exited(0)
  }

  lemma RaisesIfEscapes(files: seq<PreparedFile>, s: Surprise)
    ensures Raises(files, s) <==> AllLand(files, s.writeFaults) && Escapes(s.runs)
  {
    hide AllLand;
    RunCountStops(s.runs);
    forall i | 0 <= i < |s.runs| && s.runs[i].end.Undecodable? && forall j :: 0 <= j < i ==> s.runs[j].end == Exited(0)
      ensures Escapes(s.runs)
    {
      RunCountIs(s.runs, i);
    }
  }

  /** What trying a plan leaves of the worktree and of the checkpoint, whether it passes or not. */
  function TreeLeft(t: Tree, files: seq<PreparedFile>, s: Surprise): Tree {
    if AllLand(files, s.writeFaults) then Verified(t, files, s.runs) else TornTree(t, files, s.writeFaults)
  }

  function SavedLeft(saved: Tree, files: seq<PreparedFile>, s: Surprise): Tree {
    if AllLand(files, s.writeFaults) then SavedAfter(saved, s.runs) else saved
  }

  datatype Trial = Passed | NotPassed | Escaped

  /** Errors of the operating system and of the policy are caught here; undecodable output of a command is not. */
  method TryPlan(w: Worktree, files: seq<PreparedFile>, s: Surprise)
    returns (trial: Trial, postimages: map<Path, Digest>)
    requires Distinct(files) && AllAt(w.tree, files, false)
    modifies w
    ensures trial.Passed? <==> Passes(w.repo, old(w.tree), files, s)
    ensures trial.Escaped? <==> Raises(files, s)
    ensures w.tree == TreeLeft(old(w.tree), files, s) && w.saved == SavedLeft(old(w.saved), files, s)
    ensures trial.Passed? ==> AppliedIn(w.repo, w.tree, files)
    ensures postimages == if AllLand(files, s.writeFaults) then Digests(Images(files, true)) else map[]
    ensures AllSoft(s.writeFaults, |files|) && !AllLand(files, s.writeFaults) ==>
              Torn(old(w.tree), w.tree, files) && w.saved == old(w.saved)
  {
    hide Images, Distinct, Torn, AppliedIn, Changed, RunCount, AllAt, Paths, TornTree, Raises, Escapes, TreeAfter,
         SavedAfter, Digests, LandTo, AllSoft, FaultAt, StopsAt;
    RaisesIfEscapes(files, s);
    NotBoth(w.repo, w.tree, files, s);
    trial, postimages := NotPassed, map[];
    var failure := w.Apply(files, s.writeFaults);
    if failure.Some? { return; }
    Overlaid(old(w.tree), files, true);
    var first := w.VerifyPostimages(files);
    if first.Err? { return; }
    postimages := first.value;
    RunCountStops(s.runs);
    var verification := w.RunVerification(s.runs);
    if verification.Err? {
      trial := Escaped;
      return;
    }
    if exists i :: 0 <= i < |verification.value| && !verification.value[i].Succeeds() {
      return;
    }
    assert AllSucceed(s.runs);
    var second := w.VerifyPostimages(files);
    if second.Err? { return; }
    var changed := w.GitChangedPaths(s.gitFails);
    if changed.Err? { return; }
    if changed.value == Paths(files) {
      trial := Passed;
      ReportedIsApplied(w.repo, w.tree, files);
    }
  }

  /** The rollback and the question to git after it: the tree left, and the verdict or the error raised. */
  function UndoOf(repo: Repo, t: Tree, saved: Tree, files: seq<PreparedFile>, s: Surprise): (Tree, Result<bool, Failure>) {
    var back := BackFrom(t, saved, files, s.undoFaults, 0);
    if back.1 != Ok(true) then back
    else if s.lastGitFails then (back.0, Err(Policy))
    else (back.0, Ok(Changed(repo, back.0) == {}))
  }

  /** Rolls back and asks git; a policy error from either is not caught. */
  method Undo(w: Worktree, files: seq<PreparedFile>, s: Surprise) returns (r: Result<bool, Failure>)
    requires Distinct(files)
    modifies w`tree
    ensures (w.tree, r) == UndoOf(w.repo, old(w.tree), w.saved, files, s)
    ensures r == Ok(true) ==> RestoredIn(w.repo, w.tree, files)
    ensures r.Err? ==> r.error.Policy? && (s.lastGitFails || exists i :: 0 <= i < |files| && FaultAt(s.undoFaults, i).Unsafe?)
    ensures forall p :: p in old(w.tree) ==> p in w.tree
    ensures forall p :: p in old(w.tree) && w.tree[p] != old(w.tree)[p] ==>
              exists i :: 0 <= i < |files| && PutBack(old(w.tree), w.tree, files[i], FaultAt(s.undoFaults, i), p)
  {
    hide Images, Distinct, Visible, Changed, BackFrom;
    r := w.Rollback(files, s.undoFaults);
    if r != Ok(true) { return; }
    var changed := w.GitChangedPaths(s.lastGitFails);
    if changed.Err? { return Err(changed.error); }
    UnchangedIsHead(w.repo, w.tree);
    r := Ok(changed.value == {});
  }

  /**
   The verdict of undoing when the first `n` files can be put back and the next one, if any, cannot. It raises exactly
   when the next one became unsafe while it still held one of its images, or when all files are back and git cannot be
   asked; it is verified exactly when all are back, also from what others wrote, and the committed tree shows.
   */
  lemma UndoVerdict(repo: Repo, t: Tree, saved: Tree, files: seq<PreparedFile>, s: Surprise, n: nat)
    requires Distinct(files) && n <= |files|
    requires forall j :: 0 <= j < n ==> Restores(t, saved, files[j], FaultAt(s.undoFaults, j))
    requires n < |files| ==> !Restores(t, saved, files[n], FaultAt(s.undoFaults, n))
    ensures var undo := UndoOf(repo, t, saved, files, s);
            var back := n == |files| && forall j :: 0 <= j < n && FaultAt(s.undoFaults, j).Garbled? ==>
                                                    FaultAt(s.undoFaults, j).content == files[j].preimage;
            && (undo.1.Err? <==>
                  || (n < |files| && FaultAt(s.undoFaults, n).Unsafe? && files[n].path in t
                      && (t[files[n].path] == files[n].preimage || t[files[n].path] == files[n].postimage))
                  || (back && s.lastGitFails))
            && (undo.1.Err? ==> undo.1.error.Policy?)
            && (undo.1 == Ok(true) <==> back && !s.lastGitFails && Visible(repo, undo.0) == repo.head)
  {
    RollbackVerdict(t, saved, files, s.undoFaults, n);
    hide Distinct, Visible, Changed, BackFrom, Restores;
    UnchangedIsHead(repo, BackFrom(t, saved, files, s.undoFaults, 0).0);
  }

  /** With nothing in the way and a clean tree underneath, undoing succeeds and says so. */
  lemma UndoableIsVerified(repo: Repo, t: Tree, saved: Tree, files: seq<PreparedFile>, s: Surprise)
    requires Distinct(files) && Undoable(t, saved, files, s.undoFaults) && !s.lastGitFails
    requires Visible(repo, t + Images(files, false)) == repo.head
    ensures UndoOf(repo, t, saved, files, s) == (t + Images(files, false), Ok(true))
  {
    hide Images, Distinct, Visible, Changed, BackFrom, Undoable;
    assert files[..0] == [];
    UndoableIsUndone(t, saved, files, s.undoFaults, 0);
    UnchangedIsHead(repo, t + Images(files, false));
  }

  /** Nothing goes wrong during the rollback and the question to git after it. */
  predicate CalmUndo(files: seq<PreparedFile>, s: Surprise) {
    !s.lastGitFails && forall i :: 0 <= i < |files| ==> FaultAt(s.undoFaults, i).NoFault?
  }

  /** A torn write over a clean tree is undone to the tree it started from. */
  lemma TornIsUndone(repo: Repo, t: Tree, u: Tree, saved: Tree, files: seq<PreparedFile>, s: Surprise)
    requires Distinct(files)
    ensures Torn(t, u, files) && Visible(repo, t) == repo.head && CalmUndo(files, s) && saved == Images(files, false) ==>
              UndoOf(repo, u, saved, files, s) == (t, Ok(true))
  {
    hide Images, Distinct, Visible, UndoOf;
    if Torn(t, u, files) && Visible(repo, t) == repo.head && CalmUndo(files, s) && saved == Images(files, false) {
      UndoableIsVerified(repo, u, saved, files, s);
    }
  }

  datatype Next = GoOn | Stop | Accept | Offer | Raise(failure: Failure)

  /** The shape of what one attempt writes down. */
  ghost predicate Logged(repo: Repo, n: nat, records: seq<AttemptRecord>, marks: seq<Tree>, next: Next, t: Tree) {
    && |records| == |marks| <= 2
    && (forall i :: 0 <= i < |records| ==>
          && records[i].attempt == n && Truthful(repo, records[i], marks[i])
          && (records[i].status.Proposed? ==> next.Offer?))
    && (|records| == 2 ==> records[0].status.Applied? && records[1].rollbackVerified.Some?)
    && (next.Accept? ==> |records| == 1)
    && (next.Offer? ==> |records| == 1 && records[0].status.Proposed?)
    && (!next.Raise? ==>
          && records != [] && marks[|marks| - 1] == t
          && var last := records[|records| - 1];
             && (next.Accept? <==> last.status.Applied?)
             && (next.Stop? <==> last.rollbackVerified == Some(false)))
  }

  /** The checkpoint can be written: no file twice, no fault before it is in place. */
  predicate Checkpointed(files: seq<PreparedFile>, s: Surprise) {
    Distinct(files) && (s.checkpointFault.None? || s.checkpointFault.value > |files|)
  }

  /** The rollback of an attempt on tree `t`: from what trying the plan left of the worktree and of the checkpoint. */
  function Undoing(repo: Repo, t: Tree, files: seq<PreparedFile>, s: Surprise): (Tree, Result<bool, Failure>) {
    UndoOf(repo, TreeLeft(t, files, s), SavedLeft(Images(files, false), files, s), files, s)
  }

  /** The record of the rollback, with its verdict. */
  ghost predicate IsUndo(repo: Repo, t: Tree, n: nat, files: seq<PreparedFile>, s: Surprise, a: AttemptRecord) {
    var verdict := Undoing(repo, t, files, s).1;
    && verdict.Ok?
    && a == Record(n, if verdict.value then RolledBack else Failed, files,
                   if AllLand(files, s.writeFaults) then Digests(Images(files, true)) else map[], Some(verdict.value))
  }

  /** An attempt whose rollback ends in a policy error. */
  ghost predicate Stuck(repo: Repo, t: Tree, files: seq<PreparedFile>, s: Surprise) {
    && Checkpointed(files, s) && !Raises(files, s) && !(Passes(repo, t, files, s) && !s.auditFails)
    && Undoing(repo, t, files, s).1.Err?
  }

  /** What an attempt on tree `t` writes down: no checkpoint, applied, applied and rolled back, or rolled back. */
  ghost predicate Reported(repo: Repo, t: Tree, n: nat, files: seq<PreparedFile>, s: Surprise, g: seq<AttemptRecord>) {
    if !Checkpointed(files, s) then g == [Record(n, Failed, files, map[], None)]
    else if Passes(repo, t, files, s) then
      && |g| == (if s.auditFails then 2 else 1)
      && g[0] == Record(n, Applied, files, Digests(Images(files, true)), None)
      && (s.auditFails ==> IsUndo(repo, t, n, files, s, g[1]))
    else |g| == 1 && IsUndo(repo, t, n, files, s, g[0])
  }

  /**
   From the checkpoint on. A soft fault at any write, with nothing in the way of the rollback, leaves the tree as it
   was and says so. An attempt is accepted exactly when it passes and its audit can be stored; when the audit cannot,
   the applied changes are rolled back under the record that calls them applied. Exactly when verification raises the
   attempt ends with the planned files written, no rollback and no record.
   */
  method RunAttempt(w: Worktree, n: nat, files: seq<PreparedFile>, s: Surprise)
    returns (records: seq<AttemptRecord>, ghost marks: seq<Tree>, next: Next)
    requires AllAt(w.tree, files, false)
    modifies w
    ensures Logged(w.repo, n, records, marks, next, w.tree)
    ensures next.Accept? <==> Checkpointed(files, s) && Passes(w.repo, old(w.tree), files, s) && !s.auditFails
    ensures next == Raise(Decode) <==> Checkpointed(files, s) && Raises(files, s)
    ensures next == Raise(Decode) ==> records == [] && w.tree == Verified(old(w.tree), files, s.runs)
    ensures next == Raise(Policy) <==> Stuck(w.repo, old(w.tree), files, s)
    ensures next.Raise? ==> next.failure.Decode? || next.failure.Policy?
    ensures !next.Raise? ==> Reported(w.repo, old(w.tree), n, files, s, records)
    ensures !next.Offer?
    ensures Checkpointed(files, s) && !next.Accept? && next != Raise(Decode) ==>
              w.tree == Undoing(w.repo, old(w.tree), files, s).0
    ensures Checkpointed(files, s) && Visible(w.repo, old(w.tree)) == w.repo.head
            && AllSoft(s.writeFaults, |files|) && !AllLand(files, s.writeFaults) && CalmUndo(files, s)
            ==> next.GoOn? && |records| == 1 && records[0].status.RolledBack? && w.tree == old(w.tree)
    ensures !Distinct(files) ==> next.GoOn? && w.tree == old(w.tree)
  {
    hide Images, Distinct, Passes, Truthful, Visible, AllAt, AppliedIn, RestoredIn, Digests, PathList, UndoOf, Raises,
         AllLand, Verified, SavedAfter, AllSoft, Torn, Undoable, CalmUndo, Logged, TreeLeft, SavedLeft;
    var ok := w.CreateCheckpoint(files, s.checkpointFault);
    if !ok {
      UnclaimingIsTruthful(w.repo, w.tree, n, files, map[], None);
      LoggedOne(w.repo, n, Record(n, Failed, files, map[], None), GoOn, w.tree);
      return [Record(n, Failed, files, map[], None)], [w.tree], GoOn;
    }
    NotBoth(w.repo, w.tree, files, s);
    WhatIsLeft(w.tree, files, s);
    var trial, postimages := TryPlan(w, files, s);
    records, marks := [], [];
    LoggedRaise(w.repo, n, Decode, w.tree);
    if trial.Escaped? { return records, marks, Raise(Decode); }
    if trial.Passed? {
      records, marks := [Record(n, Applied, files, postimages, None)], [w.tree];
      AppliedIsTruthful(w.repo, w.tree, n, files);
      LoggedOne(w.repo, n, records[0], Accept, w.tree);
      if !s.auditFails { return records, marks, Accept; }
    } else {
      TornIsUndone(w.repo, old(w.tree), w.tree, w.saved, files, s);
    }
    var undone := RecordUndo(w, n, files, s, postimages);
    if undone.Err? {
      LoggedAndRaised(w.repo, n, records, marks, undone.error, w.tree);
      return records, marks, Raise(undone.error);
    }
    next := if undone.value.rollbackVerified == Some(true) then GoOn else Stop;
    LoggedUndo(w.repo, n, records, marks, undone.value, next, w.tree);
    records, marks := records + [undone.value], marks + [w.tree];
  }

  lemma WhatIsLeft(t: Tree, files: seq<PreparedFile>, s: Surprise)
    ensures AllLand(files, s.writeFaults) ==> TreeLeft(t, files, s) == Verified(t, files, s.runs)
  {
  }

  /** The log of an attempt that wrote one record and ends with it. */
  lemma LoggedOne(repo: Repo, n: nat, a: AttemptRecord, next: Next, t: Tree)
    requires a.attempt == n && Truthful(repo, a, t) && !a.status.Proposed? && !next.Offer? && !next.Raise?
    requires (next.Accept? <==> a.status.Applied?) && (next.Stop? <==> a.rollbackVerified == Some(false))
    ensures Logged(repo, n, [a], [t], next, t)
  {
    hide Truthful;
  }

  lemma LoggedRaise(repo: Repo, n: nat, failure: Failure, t: Tree)
    ensures Logged(repo, n, [], [], Raise(failure), t)
  {
  }

  /** At most an application comes before a rollback, whether the rollback ends in a record or in an error. */
  predicate Overruled(n: nat, records: seq<AttemptRecord>) {
    records == [] || (|records| == 1 && records[0].status.Applied? && records[0].attempt == n)
  }

  lemma LoggedAndRaised(repo: Repo, n: nat, records: seq<AttemptRecord>, marks: seq<Tree>, failure: Failure, t: Tree)
    requires Overruled(n, records) && |marks| == |records| && (records != [] ==> Truthful(repo, records[0], marks[0]))
    ensures Logged(repo, n, records, marks, Raise(failure), t)
  {
    hide Truthful;
  }

  lemma LoggedUndo(repo: Repo, n: nat, records: seq<AttemptRecord>, marks: seq<Tree>, a: AttemptRecord, next: Next, t: Tree)
    requires Overruled(n, records) && |marks| == |records| && (records != [] ==> Truthful(repo, records[0], marks[0]))
    requires a.attempt == n && Truthful(repo, a, t) && a.rollbackVerified.Some? && !a.status.Proposed? && !a.status.Applied?
    requires next == if a.rollbackVerified.value then GoOn else Stop
    ensures Logged(repo, n, records + [a], marks + [t], next, t)
  {
    hide Truthful;
  }

  /** Undoes what was written and records whether that could be verified. */
  method RecordUndo(w: Worktree, n: nat, files: seq<PreparedFile>, s: Surprise, postimages: map<Path, Digest>)
    returns (r: Result<AttemptRecord, Failure>)
    requires Distinct(files)
    modifies w`tree
    ensures var undo := UndoOf(w.repo, old(w.tree), w.saved, files, s);
            && w.tree == undo.0
            && if undo.1.Err? then r == Err(Policy)
               else r.Ok? && Truthful(w.repo, r.value, w.tree)
                    && r.value == Record(n, if undo.1.value then RolledBack else Failed, files, postimages, Some(undo.1.value))
  {
    hide Images, Distinct, Truthful, Visible, RestoredIn, Digests, PathList, UndoOf;
    var undone := Undo(w, files, s);
    if undone.Err? { return Err(undone.error); }
    if undone.value {
      RestoredIsTruthful(w.repo, w.tree, n, files, postimages);
    } else {
      UnclaimingIsTruthful(w.repo, w.tree, n, files, postimages, Some(false));
    }
    var status := if undone.value then RolledBack else Failed;
    r := Ok(Record(n, status, files, postimages, Some(undone.value)));
  }

  /** An attempt that passes writes every file, and one that raises does not pass. */
  lemma NotBoth(repo: Repo, t: Tree, files: seq<PreparedFile>, s: Surprise)
    ensures Passes(repo, t, files, s) ==> AllLand(files, s.writeFaults) && !Raises(files, s)
    ensures Raises(files, s) ==> AllLand(files, s.writeFaults)
  {
    hide AllLand, Verified, AllAt, Changed;
  }

  lemma UnclaimingIsTruthful(repo: Repo, t: Tree, n: nat, files: seq<PreparedFile>, posts: map<Path, Digest>,
                             verified: Option<bool>)
    requires verified != Some(true)
    ensures Truthful(repo, Record(n, Failed, files, posts, verified), t)
  {
  }

  // ---- the loop ----

  datatype ResponseStatus = Denied | Proposal | AppliedPlan | RolledBackPlan | FailedPlan

  datatype Response = Response(status: ResponseStatus, attempts: seq<AttemptRecord>)

  datatype Outcome = Returned(response: Response) | Raised(failure: Failure)

  datatype Authorization = Refused | ProposalOnly | MayApply

  /** What may stand next to what: a later attempt, or the rollback of an applied plan whose audit failed. */
  ghost predicate Follows(a: AttemptRecord, b: AttemptRecord) {
    || (a.attempt < b.attempt && !a.status.Applied? && a.rollbackVerified != Some(false))
    || (a.attempt == b.attempt && a.status.Applied? && b.rollbackVerified.Some?)
  }

  /** The log after `n` attempts. */
  ghost predicate Log(repo: Repo, attempts: seq<AttemptRecord>, marks: seq<Tree>, n: nat) {
    && |attempts| == |marks|
    && (forall i :: 0 <= i < |attempts| ==> 1 <= attempts[i].attempt <= n && Truthful(repo, attempts[i], marks[i]))
    && (forall i :: 0 <= i < |attempts| - 1 ==> Follows(attempts[i], attempts[i + 1]))
  }

  /** Another attempt may come after this log. */
  ghost predicate Open(attempts: seq<AttemptRecord>) {
    attempts != [] ==>
      var last := attempts[|attempts| - 1]; !last.status.Applied? && last.rollbackVerified != Some(false)
  }

  lemma LogGrows(repo: Repo, attempts: seq<AttemptRecord>, marks: seq<Tree>, n: nat, records: seq<AttemptRecord>,
                 more: seq<Tree>, next: Next, t: Tree)
    requires Log(repo, attempts, marks, n) && Open(attempts)
    requires Logged(repo, n + 1, records, more, next, t)
    ensures Log(repo, attempts + records, marks + more, n + 1)
    ensures next.GoOn? ==> Open(attempts + records)
  {
    hide Truthful;
  }

  predicate SomeRolledBack(attempts: seq<AttemptRecord>) {
    exists i :: 0 <= i < |attempts| && attempts[i].status.RolledBack?
  }

  /** What a caller may conclude from a response about the worktree it gets back. */
  ghost predicate Honest(repo: Repo, mode: Authorization, limits: Limits, r: Response, marks: seq<Tree>, t: Tree) {
    && Log(repo, r.attempts, marks, limits.maxAttempts)
    && (r.status.Denied? <==> mode.Refused?)
    && (r.status.Denied? ==> r.attempts == [])
    && (r.status.Proposal? ==> mode.ProposalOnly?)
    && (r.status.AppliedPlan? <==> r.attempts != [] && r.attempts[|r.attempts| - 1].status.Applied?)
    && LastIsNow(r.attempts, marks, t)
    && (r.status.RolledBackPlan? ==> SomeRolledBack(r.attempts))
    && (r.status.FailedPlan? ==> !SomeRolledBack(r.attempts))
    && (!mode.MayApply? ==> NothingWritten(r.attempts))
  }

  lemma LogWithin(repo: Repo, attempts: seq<AttemptRecord>, marks: seq<Tree>, n: nat, max: nat)
    requires Log(repo, attempts, marks, n) && n <= max
    ensures Log(repo, attempts, marks, max)
  {
  }

  predicate NothingWritten(attempts: seq<AttemptRecord>) {
    forall i :: 0 <= i < |attempts| ==> !attempts[i].status.Applied? && attempts[i].rollbackVerified.None?
  }

  ghost predicate LastIsNow(attempts: seq<AttemptRecord>, marks: seq<Tree>, t: Tree)
    requires |attempts| == |marks|
  {
    attempts != [] ==>
      var last := attempts[|attempts| - 1];
      last.status.Applied? || last.rollbackVerified.Some? ==> marks[|marks| - 1] == t
  }

  function Finish(status: ResponseStatus, attempts: seq<AttemptRecord>, auditFails: bool): Outcome {
    if auditFails then Raised(Io) else Returned(Response(status, attempts))
  }

  lemma PreparedFilesAreThere(tree: Tree, tools: Tools, limits: Limits, edits: seq<FileRepair>, p: PreparedPlan)
    requires PreparesAll(tree, tools, limits, edits, p)
    ensures AllAt(tree, p.files, false)
  {
    forall f | f in p.files ensures f.path in tree && tree[f.path] == f.preimage {
      var i :| 0 <= i < |p.files| && p.files[i] == f;
      assert Prepares(tree, tools, limits, edits[i], p.files[i]);
    }
  }

  /** The planner's part of an attempt: files to write, or the record of why there are none. */
  method Plan(tree: Tree, tools: Tools, limits: Limits, n: nat, proposal: Proposal)
    returns (planned: Option<seq<PreparedFile>>, a: AttemptRecord)
    requires proposal.Edits? ==> forall e :: e in proposal.edits ==> e.Valid()
    ensures planned.Some? ==> AllAt(tree, planned.value, false) && a == Record(n, Proposed, planned.value, map[], None)
    ensures planned.None? ==> a == AttemptRecord(n, if proposal.Crashed? then Failed else PlanRejected, [], map[], map[], None)
    ensures planned.Some? ==> proposal.Edits?
    ensures planned.Some? ==> exists p :: PreparesAll(tree, tools, limits, proposal.edits, p) && p.files == planned.value
    ensures planned.None? && proposal.Edits? ==> forall p :: !PreparesAll(tree, tools, limits, proposal.edits, p)
  {
    planned := None;
    a := AttemptRecord(n, if proposal.Crashed? then Failed else PlanRejected, [], map[], map[], None);
    if !proposal.Edits? { return; }
    var prepared := PreparePlan(tree, tools, limits, proposal.edits);
    if prepared.Err? { return; }
    PreparedFilesAreThere(tree, tools, limits, proposal.edits, prepared.value);
    planned := Some(prepared.value.files);
    a := Record(n, Proposed, prepared.value.files, map[], None);
  }

  function Flatten(groups: seq<seq<AttemptRecord>>): seq<AttemptRecord> {
    if groups == [] then [] else Flatten(groups[..|groups| - 1]) + groups[|groups| - 1]
  }

  /** The records an attempt owes to what it met: a refusal if no plan could be prepared, else the plan's fate. */
  ghost predicate Described(repo: Repo, mode: Authorization, tools: Tools, limits: Limits, s: Surprise, n: nat,
                            g: seq<AttemptRecord>) {
    || (&& g == [AttemptRecord(n, if s.proposal.Crashed? then Failed else PlanRejected, [], map[], map[], None)]
        && (s.proposal.Edits? ==> forall p :: !PreparesAll(s.planned, tools, limits, s.proposal.edits, p)))
    || (&& s.proposal.Edits?
        && exists p :: && PreparesAll(s.planned, tools, limits, s.proposal.edits, p)
                       && if mode.MayApply? then Reported(repo, s.planned, n, p.files, s, g)
                          else g == [Record(n, Proposed, p.files, map[], None)])
  }

  /** Every attempt is accounted for, and the loop ended for a reason. */
  ghost predicate Accounted(repo: Repo, mode: Authorization, tools: Tools, limits: Limits, surprises: seq<Surprise>,
                            r: Response, groups: seq<seq<AttemptRecord>>) {
    && |groups| <= limits.maxAttempts && |groups| <= |surprises|
    && r.attempts == Flatten(groups)
    && (forall i :: 0 <= i < |groups| ==> Described(repo, mode, tools, limits, surprises[i], i + 1, groups[i]))
    && (forall i :: 0 <= i < |r.attempts| && r.attempts[i].status.Proposed? ==> i == |r.attempts| - 1 && r.status.Proposal?)
    && (r.status.Proposal? ==> r.attempts != [] && r.attempts[|r.attempts| - 1].status.Proposed?)
    && (r.status.RolledBackPlan? || r.status.FailedPlan? ==>
          || |groups| == limits.maxAttempts
          || (r.attempts != [] && r.attempts[|r.attempts| - 1].rollbackVerified == Some(false)))
  }

  predicate NoneProposed(attempts: seq<AttemptRecord>) {
    forall i :: 0 <= i < |attempts| ==> !attempts[i].status.Proposed?
  }

  lemma OneMoreGroup(groups: seq<seq<AttemptRecord>>, g: seq<AttemptRecord>)
    ensures Flatten(groups + [g]) == Flatten(groups) + g
  {
    assert (groups + [g])[..|groups|] == groups;
  }

  /** The loop after `n` attempts, all of which left it open. */
  ghost predicate Going(repo: Repo, mode: Authorization, tools: Tools, limits: Limits, surprises: seq<Surprise>, n: nat,
                        attempts: seq<AttemptRecord>, marks: seq<Tree>, groups: seq<seq<AttemptRecord>>, t: Tree) {
    && Log(repo, attempts, marks, n) && Open(attempts) && LastIsNow(attempts, marks, t)
    && (!mode.MayApply? ==> NothingWritten(attempts))
    && NoneProposed(attempts)
    && |groups| == n <= |surprises| && attempts == Flatten(groups)
    && (forall i :: 0 <= i < n ==> Described(repo, mode, tools, limits, surprises[i], i + 1, groups[i]))
  }

  /** An attempt that lets the loop go on. */
  lemma GoesOn(repo: Repo, mode: Authorization, tools: Tools, limits: Limits, surprises: seq<Surprise>, n: nat,
               attempts: seq<AttemptRecord>, marks: seq<Tree>, groups: seq<seq<AttemptRecord>>, t: Tree,
               records: seq<AttemptRecord>, more: seq<Tree>, next: Next, u: Tree)
    requires n < |surprises| && Going(repo, mode, tools, limits, surprises, n, attempts, marks, groups, t)
    requires Logged(repo, n + 1, records, more, next, u) && next.GoOn?
    requires Described(repo, mode, tools, limits, surprises[n], n + 1, records)
    requires !mode.MayApply? ==> NothingWritten(records)
    ensures Going(repo, mode, tools, limits, surprises, n + 1, attempts + records, marks + more, groups + [records], u)
  {
    hide Truthful, Described, Flatten;
    LogGrows(repo, attempts, marks, n, records, more, next, u);
    LastLogged(repo, n + 1, attempts, marks, records, more, next, u);
    OneMoreGroup(groups, records);
  }

  function StatusOf(next: Next, attempts: seq<AttemptRecord>): ResponseStatus {
    match next
    case Accept => AppliedPlan
    case Offer => Proposal
    case _ => if SomeRolledBack(attempts) then RolledBackPlan else FailedPlan
  }

  /** An attempt that ends the loop: the response it leads to is honest and accounted for. */
  lemma Ends(repo: Repo, mode: Authorization, tools: Tools, limits: Limits, surprises: seq<Surprise>, n: nat,
             attempts: seq<AttemptRecord>, marks: seq<Tree>, groups: seq<seq<AttemptRecord>>, t: Tree,
             records: seq<AttemptRecord>, more: seq<Tree>, next: Next, u: Tree)
    requires n < |surprises| && n < limits.maxAttempts && !mode.Refused?
    requires Going(repo, mode, tools, limits, surprises, n, attempts, marks, groups, t)
    requires Logged(repo, n + 1, records, more, next, u) && (next.Accept? || next.Offer? || next.Stop?)
    requires Described(repo, mode, tools, limits, surprises[n], n + 1, records)
    requires !mode.MayApply? ==> NothingWritten(records)
    requires next.Offer? ==> mode.ProposalOnly?
    ensures var r := Response(StatusOf(next, attempts + records), attempts + records);
            && Honest(repo, mode, limits, r, marks + more, u)
            && Accounted(repo, mode, tools, limits, surprises, r, groups + [records])
  {
    hide Truthful, Described, Flatten;
    LogGrows(repo, attempts, marks, n, records, more, next, u);
    LastLogged(repo, n + 1, attempts, marks, records, more, next, u);
    OneMoreGroup(groups, records);
    LogWithin(repo, attempts + records, marks + more, n + 1, limits.maxAttempts);
  }

  /** All attempts used up. */
  lemma RunsOut(repo: Repo, mode: Authorization, tools: Tools, limits: Limits, surprises: seq<Surprise>,
                attempts: seq<AttemptRecord>, marks: seq<Tree>, groups: seq<seq<AttemptRecord>>, t: Tree)
    requires Going(repo, mode, tools, limits, surprises, limits.maxAttempts, attempts, marks, groups, t) && !mode.Refused?
    ensures var r := Response(StatusOf(GoOn, attempts), attempts);
            && Honest(repo, mode, limits, r, marks, t)
            && Accounted(repo, mode, tools, limits, surprises, r, groups)
  {
    hide Truthful, Described, Flatten;
  }

  /** Verification of a prepared and checkpointed plan raised: `t` is what the raising command left, not rolled back. */
  ghost predicate LeftBehind(tools: Tools, limits: Limits, s: Surprise, t: Tree) {
    && s.proposal.Edits?
    && exists p :: PreparesAll(s.planned, tools, limits, s.proposal.edits, p) && Checkpointed(p.files, s)
                   && Raises(p.files, s) && t == Verified(s.planned, p.files, s.runs)
  }

  /** The plan of this attempt is prepared and checkpointed, and its verification raises. */
  ghost predicate RaisesOn(tools: Tools, limits: Limits, s: Surprise) {
    && s.proposal.Edits?
    && exists p :: PreparesAll(s.planned, tools, limits, s.proposal.edits, p) && Checkpointed(p.files, s)
                   && Raises(p.files, s)
  }

  /** The plan of this attempt is prepared, does not succeed, and its rollback ends in a policy error. */
  ghost predicate StuckOn(repo: Repo, tools: Tools, limits: Limits, s: Surprise) {
    && s.proposal.Edits?
    && exists p :: PreparesAll(s.planned, tools, limits, s.proposal.edits, p) && Stuck(repo, s.planned, p.files, s)
  }

  lemma RaisesIfItsPlanDoes(repo: Repo, tools: Tools, limits: Limits, s: Surprise, files: seq<PreparedFile>)
    requires s.proposal.Edits?
    requires exists p :: PreparesAll(s.planned, tools, limits, s.proposal.edits, p) && p.files == files
    ensures RaisesOn(tools, limits, s) <==> Checkpointed(files, s) && Raises(files, s)
    ensures StuckOn(repo, tools, limits, s) <==> Stuck(repo, s.planned, files, s)
  {
    hide PreparesAll, Checkpointed, Raises, Stuck;
    var p :| PreparesAll(s.planned, tools, limits, s.proposal.edits, p) && p.files == files;
    forall q | PreparesAll(s.planned, tools, limits, s.proposal.edits, q) ensures q == p {
      OnePlan(s.planned, tools, limits, s.proposal.edits, p, q);
    }
  }

  /** The loop goes on after this log: nothing was offered or applied, and no rollback is unverified. */
  predicate Ongoing(log: seq<AttemptRecord>) {
    log != [] ==>
      var last := log[|log| - 1]; !last.status.Proposed? && !last.status.Applied? && last.rollbackVerified != Some(false)
  }

  lemma GoingIsOngoing(repo: Repo, mode: Authorization, tools: Tools, limits: Limits, surprises: seq<Surprise>, n: nat,
                       attempts: seq<AttemptRecord>, marks: seq<Tree>, groups: seq<seq<AttemptRecord>>, t: Tree)
    requires Going(repo, mode, tools, limits, surprises, n, attempts, marks, groups, t)
    ensures Ongoing(Flatten(groups)) && attempts == Flatten(groups) && |groups| == n
    ensures forall i :: 0 <= i < n ==> Described(repo, mode, tools, limits, surprises[i], i + 1, groups[i])
  {
    hide Log, Described, Flatten;
  }

  /** What an attempt that ends the loop does to the log. */
  lemma EndsLog(repo: Repo, mode: Authorization, tools: Tools, limits: Limits, surprises: seq<Surprise>, n: nat,
                attempts: seq<AttemptRecord>, marks: seq<Tree>, groups: seq<seq<AttemptRecord>>, t: Tree,
                records: seq<AttemptRecord>, more: seq<Tree>, next: Next, u: Tree)
    requires n < |surprises| && Going(repo, mode, tools, limits, surprises, n, attempts, marks, groups, t)
    requires Logged(repo, n + 1, records, more, next, u) && (next.Accept? || next.Offer? || next.Stop?)
    requires Described(repo, mode, tools, limits, surprises[n], n + 1, records)
    ensures var log := Flatten(groups + [records]);
            && log == attempts + records && log != [] && !Ongoing(log)
            && (log[|log| - 1].status.Applied? <==> next.Accept?)
            && (log[|log| - 1].status.Proposed? <==> next.Offer?)
    ensures forall i :: 0 <= i <= n ==>
              Described(repo, mode, tools, limits, surprises[i], i + 1, (groups + [records])[i])
  {
    hide Truthful, Described, Flatten, Log;
    OneMoreGroup(groups, records);
    assert (attempts + records)[|attempts + records| - 1] == records[|records| - 1];
  }

  /** One pass of the loop: the planner acts on the tree and proposes; what can be prepared is offered or tried. */
  method Attempt(w: Worktree, tools: Tools, limits: Limits, mode: Authorization, n: nat, s: Surprise)
    returns (records: seq<AttemptRecord>, ghost more: seq<Tree>, next: Next)
    requires s.Valid() && !mode.Refused?
    modifies w
    ensures Logged(w.repo, n, records, more, next, w.tree)
    ensures !next.Raise? ==> Described(w.repo, mode, tools, limits, s, n, records)
    ensures !mode.MayApply? ==> NothingWritten(records) && w.tree == s.planned && !next.Raise?
    ensures next.Offer? ==> mode.ProposalOnly?
    ensures next == Raise(Decode) <==> mode.MayApply? && RaisesOn(tools, limits, s)
    ensures next == Raise(Policy) <==> mode.MayApply? && StuckOn(w.repo, tools, limits, s)
    ensures next.Raise? ==> next.failure.Decode? || next.failure.Policy?
    ensures next == Raise(Decode) ==> LeftBehind(tools, limits, s, w.tree)
  {
    hide PreparesAll, AllAt, Images, Digests, Described, Reported, PathList, Stuck, Passes, Raises;
    w.tree := s.planned;
    var planned, a := Plan(w.tree, tools, limits, n, s.proposal);
    if planned.None? || mode.ProposalOnly? {
      PlannedIsDescribed(w.repo, mode, tools, limits, s, n, planned, a);
      return [a], [w.tree], if planned.None? then GoOn else Offer;
    }
    records, more, next := RunAttempt(w, n, planned.value, s);
    RaisesIfItsPlanDoes(w.repo, tools, limits, s, planned.value);
    if !next.Raise? {
      AttemptIsDescribed(w.repo, mode, tools, limits, s, n, planned.value, records);
    }
  }

  /** The finished attempts: each wrote what it owes and did not raise. */
  ghost predicate Finished(repo: Repo, mode: Authorization, tools: Tools, limits: Limits, surprises: seq<Surprise>,
                           groups: seq<seq<AttemptRecord>>) {
    && |groups| <= limits.maxAttempts && |groups| <= |surprises|
    && forall i :: 0 <= i < |groups| ==>
         && Described(repo, mode, tools, limits, surprises[i], i + 1, groups[i])
         && !(mode.MayApply? && (RaisesOn(tools, limits, surprises[i]) || StuckOn(repo, tools, limits, surprises[i])))
  }

  lemma OneMoreFinished(repo: Repo, mode: Authorization, tools: Tools, limits: Limits, surprises: seq<Surprise>,
                        groups: seq<seq<AttemptRecord>>, g: seq<AttemptRecord>)
    requires Finished(repo, mode, tools, limits, surprises, groups)
    requires |groups| < limits.maxAttempts && |groups| < |surprises|
    requires Described(repo, mode, tools, limits, surprises[|groups|], |groups| + 1, g)
    requires mode.MayApply? ==>
               && !RaisesOn(tools, limits, surprises[|groups|])
               && !StuckOn(repo, tools, limits, surprises[|groups|])
    ensures Finished(repo, mode, tools, limits, surprises, groups + [g])
  {
    hide Described, RaisesOn, StuckOn;
  }

  /** The loop: attempts until one ends it, raises, or none is left. */
  method Attempts(w: Worktree, tools: Tools, limits: Limits, mode: Authorization, surprises: seq<Surprise>)
    returns (attempts: seq<AttemptRecord>, ghost marks: seq<Tree>, ghost groups: seq<seq<AttemptRecord>>, next: Next)
    requires |surprises| >= limits.maxAttempts && forall s :: s in surprises ==> s.Valid()
    requires !mode.Refused?
    modifies w
    ensures Finished(w.repo, mode, tools, limits, surprises, groups) && attempts == Flatten(groups)
    ensures next.Raise? <==> Ongoing(attempts) && |groups| < limits.maxAttempts
    ensures next.Raise? ==>
              && mode.MayApply?
              && if RaisesOn(tools, limits, surprises[|groups|]) then next == Raise(Decode)
                 else StuckOn(w.repo, tools, limits, surprises[|groups|]) && next == Raise(Policy)
    ensures next == Raise(Decode) ==> LeftBehind(tools, limits, surprises[|groups|], w.tree)
    ensures next.Accept? <==> attempts != [] && attempts[|attempts| - 1].status.Applied?
    ensures next.Offer? <==> attempts != [] && attempts[|attempts| - 1].status.Proposed?
    ensures !next.Raise? ==>
              var r := Response(StatusOf(next, attempts), attempts);
              Honest(w.repo, mode, limits, r, marks, w.tree) && Accounted(w.repo, mode, tools, limits, surprises, r, groups)
    ensures !mode.MayApply? ==> w.tree == old(w.tree) || exists i :: 0 <= i < |surprises| && w.tree == surprises[i].planned
  {
    attempts, marks, groups := [], [], [];
    NoGroups();
    hide Honest, Accounted, Going, Logged, Described, NothingWritten, LeftBehind, Flatten, RaisesOn, StuckOn, Ongoing,
         Finished, StatusOf;
    NothingYet(w.repo, mode, tools, limits, surprises, w.tree);
    NoneFinished(w.repo, mode, tools, limits, surprises);
    for n := 0 to limits.maxAttempts
      invariant Going(w.repo, mode, tools, limits, surprises, n, attempts, marks, groups, w.tree)
      invariant Finished(w.repo, mode, tools, limits, surprises, groups) && |groups| == n
      invariant !mode.MayApply? ==> w.tree == old(w.tree) || exists i :: 0 <= i < |surprises| && w.tree == surprises[i].planned
    {
      assert surprises[n] in surprises;
      ghost var t := w.tree;
      GoingIsOngoing(w.repo, mode, tools, limits, surprises, n, attempts, marks, groups, t);
      OngoingEnds(attempts);
      var records: seq<AttemptRecord>;
      ghost var more: seq<Tree>;
      records, more, next := Attempt(w, tools, limits, mode, n + 1, surprises[n]);
      if next.Raise? { return; }
      OneMoreFinished(w.repo, mode, tools, limits, surprises, groups, records);
      if !next.GoOn? {
        Ends(w.repo, mode, tools, limits, surprises, n, attempts, marks, groups, t, records, more, next, w.tree);
        EndsLog(w.repo, mode, tools, limits, surprises, n, attempts, marks, groups, t, records, more, next, w.tree);
        attempts, marks, groups := attempts + records, marks + more, groups + [records];
        return;
      }
      GoesOn(w.repo, mode, tools, limits, surprises, n, attempts, marks, groups, t, records, more, next, w.tree);
      attempts, marks, groups := attempts + records, marks + more, groups + [records];
    }
    GoingIsOngoing(w.repo, mode, tools, limits, surprises, limits.maxAttempts, attempts, marks, groups, w.tree);
    OngoingEnds(attempts);
    RunsOut(w.repo, mode, tools, limits, surprises, attempts, marks, groups, w.tree);
    next := GoOn;
  }

  /**
   At most `maxAttempts` attempts, each with the records it owes, and none after an unverified rollback. Every record
   was true when it was written, and the last one is true of the worktree the caller gets back. Without permission to
   apply, only the planner can have touched the worktree.
   */
  method Execute(w: Worktree, tools: Tools, limits: Limits, mode: Authorization, surprises: seq<Surprise>,
                 auditFails: bool)
    returns (outcome: Outcome, ghost marks: seq<Tree>, ghost groups: seq<seq<AttemptRecord>>)
    requires |surprises| >= limits.maxAttempts && forall s :: s in surprises ==> s.Valid()
    modifies w
    ensures outcome.Returned? ==> Honest(w.repo, mode, limits, outcome.response, marks, w.tree)
    ensures outcome.Returned? ==> Accounted(w.repo, mode, tools, limits, surprises, outcome.response, groups)
    ensures !mode.MayApply? ==> w.tree == old(w.tree) || exists i :: 0 <= i < |surprises| && w.tree == surprises[i].planned
    ensures outcome == Raised(Decode) ==> exists i :: 0 <= i < |surprises| && LeftBehind(tools, limits, surprises[i], w.tree)
    // without permission nothing is tried
    ensures mode.Refused? ==> groups == [] && outcome == if auditFails then Raised(Io) else Returned(Response(Denied, []))
    ensures Finished(w.repo, mode, tools, limits, surprises, groups)
    // attempts are left and none ended the loop exactly when the next one raised, and then its error escapes
    ensures !mode.Refused? && Ongoing(Flatten(groups)) && |groups| < limits.maxAttempts ==>
              && mode.MayApply?
              && if RaisesOn(tools, limits, surprises[|groups|]) then outcome == Raised(Decode)
                 else StuckOn(w.repo, tools, limits, surprises[|groups|]) && outcome == Raised(Policy)
    // otherwise an applied plan is answered as it is, and anything else exactly if the final audit can be stored
    ensures !mode.Refused? && !(Ongoing(Flatten(groups)) && |groups| < limits.maxAttempts) ==>
              var log := Flatten(groups);
              if log != [] && log[|log| - 1].status.Applied? then outcome == Returned(Response(AppliedPlan, log))
              else if auditFails then outcome == Raised(Io)
              else if log != [] && log[|log| - 1].status.Proposed? then outcome == Returned(Response(Proposal, log))
              else if exists i :: 0 <= i < |log| && log[i].status.RolledBack?
              then outcome == Returned(Response(RolledBackPlan, log))
              else outcome == Returned(Response(FailedPlan, log))
    ensures !auditFails
            && (forall i :: 0 <= i < limits.maxAttempts ==>
                  !RaisesOn(tools, limits, surprises[i]) && !StuckOn(w.repo, tools, limits, surprises[i]))
            ==> outcome.Returned?
  {
    hide Honest, Accounted, Described, LeftBehind, Flatten, RaisesOn, StuckOn, Ongoing;
    if mode.Refused? {
      RefusedIsHonest(w.repo, mode, tools, limits, surprises, w.tree);
      return Finish(Denied, [], auditFails), [], [];
    }
    hide Finished;
    var attempts: seq<AttemptRecord>;
    var next: Next;
    attempts, marks, groups, next := Attempts(w, tools, limits, mode, surprises);
    match next {
      case Raise(failure) => outcome := Raised(failure);
      case Accept => outcome := Returned(Response(AppliedPlan, attempts));
      case Offer => outcome := Finish(Proposal, attempts, auditFails);
      case _ => outcome := Finish(if SomeRolledBack(attempts) then RolledBackPlan else FailedPlan, attempts, auditFails);
    }
  }

  lemma RefusedIsHonest(repo: Repo, mode: Authorization, tools: Tools, limits: Limits, surprises: seq<Surprise>, t: Tree)
    requires mode.Refused?
    ensures var r := Response(Denied, []);
            Honest(repo, mode, limits, r, [], t) && Accounted(repo, mode, tools, limits, surprises, r, [])
  {
    NoGroups();
  }

  lemma NoneFinished(repo: Repo, mode: Authorization, tools: Tools, limits: Limits, surprises: seq<Surprise>)
    ensures Finished(repo, mode, tools, limits, surprises, [])
  {
  }

  lemma OngoingEnds(log: seq<AttemptRecord>)
    requires Ongoing(log)
    ensures log != [] ==> !log[|log| - 1].status.Applied? && !log[|log| - 1].status.Proposed?
  {
  }

  lemma NothingYet(repo: Repo, mode: Authorization, tools: Tools, limits: Limits, surprises: seq<Surprise>, t: Tree)
    ensures Going(repo, mode, tools, limits, surprises, 0, [], [], [], t)
  {
  }

  lemma NoGroups()
    ensures Flatten([]) == []
  {
  }

  lemma PlannedIsDescribed(repo: Repo, mode: Authorization, tools: Tools, limits: Limits, s: Surprise, n: nat,
                           planned: Option<seq<PreparedFile>>, a: AttemptRecord)
    requires planned.None? || mode.ProposalOnly?
    requires planned.Some? ==> s.proposal.Edits? && a == Record(n, Proposed, planned.value, map[], None)
    requires planned.Some? ==>
               exists p :: PreparesAll(s.planned, tools, limits, s.proposal.edits, p) && p.files == planned.value
    requires planned.None? ==>
               a == AttemptRecord(n, if s.proposal.Crashed? then Failed else PlanRejected, [], map[], map[], None)
    requires planned.None? && s.proposal.Edits? ==>
               forall p :: !PreparesAll(s.planned, tools, limits, s.proposal.edits, p)
    ensures Described(repo, mode, tools, limits, s, n, [a])
  {
    hide PreparesAll, Reported, Record;
  }

  lemma AttemptIsDescribed(repo: Repo, mode: Authorization, tools: Tools, limits: Limits, s: Surprise, n: nat,
                           files: seq<PreparedFile>, records: seq<AttemptRecord>)
    requires mode.MayApply? && s.proposal.Edits?
    requires exists p :: PreparesAll(s.planned, tools, limits, s.proposal.edits, p) && p.files == files
    requires Reported(repo, s.planned, n, files, s, records)
    ensures Described(repo, mode, tools, limits, s, n, records)
  {
    hide PreparesAll, Reported, Record;
  }

  lemma LastLogged(repo: Repo, n: nat, attempts: seq<AttemptRecord>, marks: seq<Tree>, records: seq<AttemptRecord>,
                   more: seq<Tree>, next: Next, t: Tree)
    requires |attempts| == |marks| && Logged(repo, n, records, more, next, t) && !next.Raise?
    ensures records != [] && |records| == |more|
    ensures LastIsNow(attempts + records, marks + more, t)
    ensures next.Accept? <==> (attempts + records)[|attempts + records| - 1].status.Applied?
    ensures next.Stop? ==> (attempts + records)[|attempts + records| - 1].rollbackVerified == Some(false)
  {
    hide Truthful;
  }

  // ---- what a caller may conclude ----

  /** APPLIED answers for the returned worktree: the committed tree with exactly the recorded files changed. */
  lemma AppliedResponseMeans(repo: Repo, mode: Authorization, limits: Limits, r: Response, marks: seq<Tree>, t: Tree)
    requires Honest(repo, mode, limits, r, marks, t) && r.status.AppliedPlan?
    ensures mode.MayApply? && r.attempts != []
    ensures var last := r.attempts[|r.attempts| - 1];
            && Visible(repo, t) == repo.head + Contents(last.postimages)
            && last.postimages.Keys == (set p | p in last.changedFiles)
            && forall p :: p in last.postimages && p in repo.head ==> repo.head[p] != last.postimages[p].of
  {
    assert Truthful(repo, r.attempts[|r.attempts| - 1], marks[|marks| - 1]);
  }

  /**
   A record of an applied plan is the last one, and then it stands for the returned worktree, or its audit could not be
   stored and the record of a rollback of the same attempt follows.
   */
  lemma AppliedRecordIsLastOrUndone(repo: Repo, mode: Authorization, limits: Limits, r: Response, marks: seq<Tree>, t: Tree,
                                    i: nat)
    requires Honest(repo, mode, limits, r, marks, t) && i < |r.attempts| && r.attempts[i].status.Applied?
    ensures i == |r.attempts| - 1 ==> r.status.AppliedPlan? && Truthful(repo, r.attempts[i], t)
    ensures i < |r.attempts| - 1 ==>
              && r.attempts[i + 1].attempt == r.attempts[i].attempt
              && r.attempts[i + 1].rollbackVerified.Some?
  {
    assert Truthful(repo, r.attempts[i], marks[i]);
    hide Truthful;
    assert i < |r.attempts| - 1 ==> Follows(r.attempts[i], r.attempts[i + 1]);
  }

  /** The visible tree and every recorded file are in `u` as they were in `t`. */
  ghost predicate LeftAsWas(repo: Repo, a: AttemptRecord, t: Tree, u: Tree) {
    Visible(repo, u) == Visible(repo, t) && forall p :: p in a.changedFiles ==> p in t && p in u && u[p] == t[p]
  }

  /**
   After the rollback that follows it, a record of an applied plan still holds exactly when that rollback is unverified
   and left the recorded files and the visible tree as they were; so never after a verified one.
   */
  lemma OverruledRecordStandsIff(repo: Repo, mode: Authorization, limits: Limits, r: Response, marks: seq<Tree>, t: Tree,
                                 i: nat)
    requires Honest(repo, mode, limits, r, marks, t)
    requires i < |r.attempts| - 1 && r.attempts[i].status.Applied? && r.attempts[i].changedFiles != []
    ensures Truthful(repo, r.attempts[i], marks[i + 1]) <==>
            r.attempts[i + 1].rollbackVerified == Some(false) && LeftAsWas(repo, r.attempts[i], marks[i], marks[i + 1])
    ensures r.attempts[i + 1].rollbackVerified == Some(true) ==> !Truthful(repo, r.attempts[i], marks[i + 1])
  {
    var a, b := r.attempts[i], r.attempts[i + 1];
    AppliedRecordIsLastOrUndone(repo, mode, limits, r, marks, t, i);
    assert Truthful(repo, a, marks[i]) && Truthful(repo, b, marks[i + 1]);
    hide Honest, Visible, LeftAsWas;
    AppliedElsewhere(repo, a, marks[i], marks[i + 1]);
    if b.rollbackVerified.value {
      AppliedIsNotClean(repo, a, marks[i + 1]);
    }
  }

  /** A record of an applied plan that changed a file is never true of a clean worktree. */
  lemma AppliedIsNotClean(repo: Repo, a: AttemptRecord, t: Tree)
    requires a.status.Applied? && a.changedFiles != [] && Visible(repo, t) == repo.head
    ensures !Truthful(repo, a, t)
  {
    var p := a.changedFiles[0];
    assert p in (set q | q in a.changedFiles);
    if Truthful(repo, a, t) {
      OverlayShows(repo.head, Contents(a.postimages), p);
    }
  }

  lemma OverlayShows(t: Tree, m: Tree, p: Path)
    requires p in m && (p in t ==> t[p] != m[p])
    ensures t + m != t
  {
    assert (t + m)[p] == m[p];
  }

  /** True of one tree, such a record is true of exactly the trees that look the same to it. */
  lemma AppliedElsewhere(repo: Repo, a: AttemptRecord, t: Tree, u: Tree)
    requires a.status.Applied? && Truthful(repo, a, t)
    ensures Truthful(repo, a, u) <==> LeftAsWas(repo, a, t, u)
  {
    hide Visible;
    forall p ensures p in a.changedFiles <==> p in a.postimages {
      assert p in a.changedFiles <==> p in (set q | q in a.changedFiles);
    }
  }

  /**
   When an audit fails: if verification left the checkpoint intact, the committed tree shows once the preimages are back
   and nothing goes wrong while undoing, then the planned files are put back, the second record says so, and the first
   one, of the applied plan, is false. If the commands left the tree alone, it is the tree the attempt started from.
   */
  lemma AuditFailureOverrules(repo: Repo, t: Tree, n: nat, files: seq<PreparedFile>, s: Surprise)
    requires files != [] && Checkpointed(files, s) && AllAt(t, files, false) && Passes(repo, t, files, s) && CalmUndo(files, s)
    requires SavedAfter(Images(files, false), s.runs) == Images(files, false)
    requires Visible(repo, Verified(t, files, s.runs) + Images(files, false)) == repo.head
    ensures var back := Verified(t, files, s.runs) + Images(files, false);
            && UndoOf(repo, Verified(t, files, s.runs), SavedAfter(Images(files, false), s.runs), files, s) == (back, Ok(true))
            && !Truthful(repo, Record(n, Applied, files, Digests(Images(files, true)), None), back)
            && (Verified(t, files, s.runs) == t + Images(files, true) ==> back == t)
  {
    var u := Verified(t, files, s.runs);
    assert Undoable(u, Images(files, false), files, s.undoFaults);
    hide Images, Distinct, Visible, Verified, UndoOf, Passes, Undoable, SavedAfter, Truthful;
    UndoableIsVerified(repo, u, Images(files, false), files, s);
    assert PathList(files)[0] == files[0].path;
    AppliedIsNotClean(repo, Record(n, Applied, files, Digests(Images(files, true)), None), u + Images(files, false));
    BackAndForth(t, files);
  }

  lemma BackAndForth(t: Tree, files: seq<PreparedFile>)
    requires Distinct(files) && AllAt(t, files, false)
    ensures t + Images(files, true) + Images(files, false) == t
  {
    ImagesAt(files, true);
    ImagesAt(files, false);
    Overlaid(t, files, false);
    hide Images;
    assert t + Images(files, true) + Images(files, false) == t + Images(files, false);
  }

  /** Only a run whose last word is a verified rollback vouches for a clean worktree. */
  lemma VerifiedRollbackMeans(repo: Repo, mode: Authorization, limits: Limits, r: Response, marks: seq<Tree>, t: Tree)
    requires Honest(repo, mode, limits, r, marks, t)
    requires r.attempts != [] && r.attempts[|r.attempts| - 1].rollbackVerified == Some(true)
    ensures r.status.RolledBackPlan? && Visible(repo, t) == repo.head
    ensures Holds(t, r.attempts[|r.attempts| - 1].preimages)
  {
    assert Truthful(repo, r.attempts[|r.attempts| - 1], marks[|marks| - 1]);
  }

  /** Once a rollback cannot be verified nothing more is tried. */
  lemma UnverifiedRollbackIsLast(repo: Repo, mode: Authorization, limits: Limits, r: Response, marks: seq<Tree>, t: Tree,
                                 i: nat)
    requires Honest(repo, mode, limits, r, marks, t) && i < |r.attempts|
    requires r.attempts[i].rollbackVerified == Some(false)
    ensures i == |r.attempts| - 1
  {
    assert Truthful(repo, r.attempts[i], marks[i]);
    assert i < |r.attempts| - 1 ==> Follows(r.attempts[i], r.attempts[i + 1]);
  }

  lemma {:induction false} RecordsPerAttempt(repo: Repo, a: seq<AttemptRecord>, marks: seq<Tree>, n: nat, i: nat)
    requires Log(repo, a, marks, n) && i < |a|
    ensures i < 2 * a[i].attempt
    ensures (i > 0 ==> a[i - 1].attempt < a[i].attempt) ==> i < 2 * a[i].attempt - 1
  {
    if i > 0 {
      RecordsPerAttempt(repo, a, marks, n, i - 1);
      assert Follows(a[i - 1], a[i]);
      assert Truthful(repo, a[i - 1], marks[i - 1]);
      if i > 1 { assert Follows(a[i - 2], a[i - 1]); }
    }
  }

  /** The log is bounded by the attempt budget: two records an attempt at most. */
  lemma LogIsBounded(repo: Repo, mode: Authorization, limits: Limits, r: Response, marks: seq<Tree>, t: Tree)
    requires Honest(repo, mode, limits, r, marks, t)
    ensures |r.attempts| <= 2 * limits.maxAttempts
  {
    if r.attempts != [] {
      RecordsPerAttempt(repo, r.attempts, marks, limits.maxAttempts, |r.attempts| - 1);
    }
  }

  /** A plan that is prepared, checkpointed, passes all checks, and whose audit is stored. */
  ghost predicate Succeeds(repo: Repo, tools: Tools, limits: Limits, s: Surprise) {
    && s.proposal.Edits?
    && !s.auditFails
    && exists p :: PreparesAll(s.planned, tools, limits, s.proposal.edits, p) && Checkpointed(p.files, s)
                   && Passes(repo, s.planned, p.files, s)
  }

  lemma GroupEndsApplied(repo: Repo, mode: Authorization, tools: Tools, limits: Limits, s: Surprise, n: nat,
                         g: seq<AttemptRecord>)
    requires mode.MayApply? && Described(repo, mode, tools, limits, s, n, g)
    ensures g != [] && (g[|g| - 1].status.Applied? <==> Succeeds(repo, tools, limits, s))
  {
    hide PreparesAll, Passes, Checkpointed, PathList, Digests, Images;
    if s.proposal.Edits? {
      if p :| && PreparesAll(s.planned, tools, limits, s.proposal.edits, p)
              && Reported(repo, s.planned, n, p.files, s, g)
      {
        forall q | PreparesAll(s.planned, tools, limits, s.proposal.edits, q) ensures q == p {
          OnePlan(s.planned, tools, limits, s.proposal.edits, p, q);
        }
      }
    }
  }

  lemma OnePlan(tree: Tree, tools: Tools, limits: Limits, edits: seq<FileRepair>, p: PreparedPlan, q: PreparedPlan)
    requires PreparesAll(tree, tools, limits, edits, p) && PreparesAll(tree, tools, limits, edits, q)
    ensures p == q
  {
    PreparedAllOnce(tree, tools, limits, edits, p.files, q.files);
  }

  /** A run that may write answers APPLIED exactly when its last attempt succeeds. */
  lemma AppliedExactly(repo: Repo, mode: Authorization, tools: Tools, limits: Limits, surprises: seq<Surprise>,
                       r: Response, marks: seq<Tree>, t: Tree, groups: seq<seq<AttemptRecord>>)
    requires Honest(repo, mode, limits, r, marks, t) && mode.MayApply?
    requires Accounted(repo, mode, tools, limits, surprises, r, groups)
    ensures r.status.AppliedPlan? <==> groups != [] && Succeeds(repo, tools, limits, surprises[|groups| - 1])
  {
    hide Described, Log, Succeeds;
    if groups != [] {
      var n := |groups| - 1;
      GroupEndsApplied(repo, mode, tools, limits, surprises[n], n + 1, groups[n]);
    }
  }

  // ---- concrete attempts whose audit cannot be stored ----

  predicate NeverIgnored(t: Tree, p: Path) {
    false
  }

  const ONE_FILE_REPO := Repo(map["a" := [1]], NeverIgnored)
  const ONE_FILE_PLAN := [PreparedFile("a", [1], [2], 1)]

  /** One command that succeeds and leaves everything alone; the audit cannot be stored. */
  const AUDIT_FAILS := Surprise(
    map["a" := [1]],
    Edits([FileRepair("a", Sha256([1]), [Replacement("x", "y")])]),
    None, [], [CommandRun(map["a" := [2]], map["a" := [1]], Exited(0))], false, true, [], false)

  function AppliedRecord(): AttemptRecord {
    Record(1, Applied, ONE_FILE_PLAN, Digests(Images(ONE_FILE_PLAN, true)), None)
  }

  lemma OneFilePasses(s: Surprise)
    requires s == AUDIT_FAILS.(undoFaults := s.undoFaults)
    ensures Checkpointed(ONE_FILE_PLAN, s)
    ensures Images(ONE_FILE_PLAN, false) == map["a" := [1]] && Images(ONE_FILE_PLAN, true) == map["a" := [2]]
    ensures Verified(map["a" := [1]], ONE_FILE_PLAN, s.runs) == map["a" := [2]]
    ensures SavedAfter(Images(ONE_FILE_PLAN, false), s.runs) == map["a" := [1]]
    ensures Passes(ONE_FILE_REPO, map["a" := [1]], ONE_FILE_PLAN, s)
  {
    var f := ONE_FILE_PLAN[0];
    assert ONE_FILE_PLAN[..0] == [];
    assert Images(ONE_FILE_PLAN[..0], false) == map[] && Images(ONE_FILE_PLAN[..0], true) == map[];
    RunCountIs(s.runs, 1);
    assert Paths(ONE_FILE_PLAN) == {"a"} by { assert f in ONE_FILE_PLAN; }
    assert Changed(ONE_FILE_REPO, map["a" := [2]]) == {"a"};
  }

  /** The plan is applied and recorded so, the audit fails, and the verified rollback makes that record false. */
  lemma OverruledRecordExists()
    ensures Checkpointed(ONE_FILE_PLAN, AUDIT_FAILS)
    ensures Passes(ONE_FILE_REPO, ONE_FILE_REPO.head, ONE_FILE_PLAN, AUDIT_FAILS) && AUDIT_FAILS.auditFails
    ensures UndoOf(ONE_FILE_REPO, map["a" := [2]], map["a" := [1]], ONE_FILE_PLAN, AUDIT_FAILS)
            == (ONE_FILE_REPO.head, Ok(true))
    ensures !Truthful(ONE_FILE_REPO, AppliedRecord(), ONE_FILE_REPO.head)
  {
    var t: Tree := map["a" := [1]];
    OneFilePasses(AUDIT_FAILS);
    assert map["a" := [2]] + t == t;
    assert Visible(ONE_FILE_REPO, t) == t;
    hide Images, Passes, Verified, SavedAfter, UndoOf, Visible, Truthful, Digests;
    AuditFailureOverrules(ONE_FILE_REPO, t, 1, ONE_FILE_PLAN, AUDIT_FAILS);
  }

  /** If the first write of the rollback fails cleanly, the rollback is unverified and the earlier record still true. */
  lemma SurvivingRecordExists()
    ensures var s := AUDIT_FAILS.(undoFaults := [CleanError]);
            && Checkpointed(ONE_FILE_PLAN, s) && Passes(ONE_FILE_REPO, ONE_FILE_REPO.head, ONE_FILE_PLAN, s)
            && UndoOf(ONE_FILE_REPO, map["a" := [2]], map["a" := [1]], ONE_FILE_PLAN, s) == (map["a" := [2]], Ok(false))
            && Truthful(ONE_FILE_REPO, AppliedRecord(), map["a" := [2]])
  {
    var s := AUDIT_FAILS.(undoFaults := [CleanError]);
    OneFilePasses(s);
    assert BackOne(map["a" := [2]], map["a" := [1]], ONE_FILE_PLAN[0], Paths(ONE_FILE_PLAN), CleanError)
        == (map["a" := [2]], Ok(false));
    ReportedIsApplied(ONE_FILE_REPO, map["a" := [2]], ONE_FILE_PLAN);
    AppliedIsTruthful(ONE_FILE_REPO, map["a" := [2]], 1, ONE_FILE_PLAN);
  }
}
