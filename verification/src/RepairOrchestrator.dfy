/**
 Applying a prepared plan to a worktree that can fail at any write and whose verification commands may do anything,
 and undoing it from a checkpoint. What the outside does is a parameter; the worktree is changed in place.
 */
module RepairOrchestrator {
  import opened Wrappers
  import opened RepairPlans

  /** `head` is the committed tree. Untracked files may be ignored, by rules that are themselves files. */
  datatype Repo = Repo(head: Tree, ignored: (Tree, Path) -> bool)

  predicate Tracks(repo: Repo, t: Tree, p: Path) {
    p in repo.head || (p in t && !repo.ignored(t, p))
  }

  /** The paths git reports: tracked files that differ or are gone, and untracked files that are not ignored. */
  function Changed(repo: Repo, t: Tree): set<Path> {
    set p | p in repo.head.Keys + t.Keys
            && if p in repo.head then p !in t || t[p] != repo.head[p] else !repo.ignored(t, p)
  }

  function Visible(repo: Repo, t: Tree): Tree {
    map p | p in t && Tracks(repo, t, p) :: t[p]
  }

  /** The exceptions that can leave a run: a policy error, an operating-system error, output that is not text. */
  datatype Failure = Policy | Io | Decode

  /** What can go wrong while one file is checked and atomically replaced. */
  datatype Fault =
    | NoFault
    | Unsafe                                  // the target turned out to be a link or to be hard-linked
    | CleanError                              // nothing was written
    | StrayError(temp: Path, content: Bytes)  // nothing was replaced, but the temporary file stayed behind
    | LateError                               // replaced, and then an error
    | Garbled(content: Bytes)                 // someone else wrote the target right after it was replaced

  function FaultAt(faults: seq<Fault>, i: nat): Fault {
    if i < |faults| then faults[i] else NoFault
  }

  /** Faults that leave each target with its old or its new content and no other file behind. */
  predicate Soft(f: Fault) {
    !f.StrayError? && !f.Garbled?
  }

  // ---- plans as maps ----

  function Images(files: seq<PreparedFile>, post: bool): Tree {
    if files == [] then map[] else
      var f := files[|files| - 1];
      Images(files[..|files| - 1], post)[f.path := if post then f.postimage else f.preimage]
  }

  predicate Distinct(files: seq<PreparedFile>) {
    forall i, j :: 0 <= i < j < |files| ==> files[i].path != files[j].path
  }

  function Paths(files: seq<PreparedFile>): set<Path> {
    set f | f in files :: f.path
  }

  predicate AllAt(t: Tree, files: seq<PreparedFile>, post: bool) {
    forall f :: f in files ==> f.path in t && t[f.path] == if post then f.postimage else f.preimage
  }

  predicate AtEither(t: Tree, f: PreparedFile) {
    f.path in t && (t[f.path] == f.preimage || t[f.path] == f.postimage)
  }

  function Digests(t: Tree): map<Path, Digest> {
    map p | p in t :: Sha256(t[p])
  }

  lemma PathsStep(files: seq<PreparedFile>, i: nat)
    requires i < |files|
    ensures files[..i + 1] == files[..i] + [files[i]]
    ensures Paths(files[..i + 1]) == Paths(files[..i]) + {files[i].path}
    ensures Distinct(files[..i + 1]) <==> Distinct(files[..i]) && files[i].path !in Paths(files[..i])
  {
    var init, f := files[..i], files[i];
    assert files[..i + 1] == init + [f];
    forall g | g in init + [f] ensures g in init || g == f {
    }
    if f.path in Paths(init) {
      var j :| 0 <= j < i && files[j].path == f.path;
      assert (init + [f])[j].path == (init + [f])[i].path;
    } else {
      assert forall j :: 0 <= j < i ==> init[j] in init && init[j].path != f.path;
    }
    if Distinct(init + [f]) {
      assert forall j :: 0 <= j < i ==> (init + [f])[j] == init[j];
    }
  }

  lemma {:induction false} ImagesAt(files: seq<PreparedFile>, post: bool)
    requires Distinct(files)
    ensures Images(files, post).Keys == Paths(files)
    ensures AllAt(Images(files, post), files, post)
  {
    if files != [] {
      var n := |files| - 1;
      PathsStep(files, n);
      assert files[..n + 1] == files;
      ImagesAt(files[..n], post);
      hide Images, Distinct, AllAt;
      ImagesInit(files, post);
      OneMoreAt(Images(files[..n], post), files, n, post);
    }
  }

  lemma OneMoreAt(m: Tree, files: seq<PreparedFile>, i: nat, post: bool)
    requires i < |files| && AllAt(m, files[..i], post) && files[i].path !in Paths(files[..i])
    ensures AllAt(m[files[i].path := if post then files[i].postimage else files[i].preimage], files[..i + 1], post)
  {
    forall g | g in files[..i + 1] ensures g == files[i] || (g in files[..i] && g.path in Paths(files[..i])) {
      var j :| 0 <= j <= i && files[j] == g;
      if j < i { assert files[..i][j] == g; }
    }
  }

  lemma ImagesInit(files: seq<PreparedFile>, post: bool)
    requires files != []
    ensures var f := files[|files| - 1];
            Images(files, post) == Images(files[..|files| - 1], post)[f.path := if post then f.postimage else f.preimage]
  {
  }

  /** Overlaying the images puts every planned file there and touches no other. */
  lemma Overlaid(t: Tree, files: seq<PreparedFile>, post: bool)
    requires Distinct(files)
    ensures AllAt(t + Images(files, post), files, post)
    ensures AllAt(t, files, post) ==> t + Images(files, post) == t
  {
    ImagesAt(files, post);
    if AllAt(t, files, post) {
      forall p | p in Images(files, post) ensures p in t && t[p] == Images(files, post)[p] {
        var f :| f in files && f.path == p;
      }
    }
  }

  /** Writing planned paths only is forgotten once the preimages are laid over. */
  lemma PreimagesCover(t: Tree, u: Tree, files: seq<PreparedFile>)
    requires Distinct(files)
    requires forall p :: p !in Paths(files) ==> (p in t <==> p in u) && (p in t ==> t[p] == u[p])
    ensures t + Images(files, false) == u + Images(files, false)
  {
    ImagesAt(files, false);
  }

  // ---- what a record claims about the worktree it was written for ----

  ghost predicate AppliedIn(repo: Repo, t: Tree, files: seq<PreparedFile>) {
    && AllAt(t, files, true)
    && Visible(repo, t) == repo.head + Images(files, true)
    && forall f :: f in files ==> f.path !in repo.head || repo.head[f.path] != f.postimage
  }

  ghost predicate RestoredIn(repo: Repo, t: Tree, files: seq<PreparedFile>) {
    AllAt(t, files, false) && Visible(repo, t) == repo.head
  }

  lemma UnchangedIsHead(repo: Repo, t: Tree)
    ensures Changed(repo, t) == {} <==> Visible(repo, t) == repo.head
  {
    if Changed(repo, t) == {} {
      forall p | p in repo.head.Keys + t.Keys ensures p in Visible(repo, t) <==> p in repo.head {
        assert p !in Changed(repo, t);
      }
      forall p | p in repo.head ensures p in t && t[p] == repo.head[p] {
        assert p !in Changed(repo, t);
      }
    } else {
      var p :| p in Changed(repo, t);
      assert p in Visible(repo, t) ==> p in repo.head ==> Visible(repo, t)[p] != repo.head[p];
    }
  }

  /** If git reports exactly the planned paths and each holds its postimage, the visible tree is head plus the plan. */
  lemma ReportedIsApplied(repo: Repo, t: Tree, files: seq<PreparedFile>)
    requires Distinct(files) && AllAt(t, files, true) && Changed(repo, t) == Paths(files)
    ensures AppliedIn(repo, t, files)
  {
    ImagesAt(files, true);
    var want := repo.head + Images(files, true);
    forall p ensures p in Visible(repo, t) <==> p in want {
      assert p in Changed(repo, t) <==> p in Paths(files);
    }
    forall p | p in want ensures p in t && t[p] == want[p] {
      assert p in Changed(repo, t) <==> p in Paths(files);
      if p in Paths(files) {
        var f :| f in files && f.path == p;
      }
    }
    forall f | f in files ensures f.path !in repo.head || repo.head[f.path] != f.postimage {
      assert f.path in Paths(files);
      assert f.path in Changed(repo, t);
    }
  }

  // ---- the worktree ----

  /** How a verification command ends; output that cannot be decoded raises out of the call that runs it. */
  datatype CommandEnd = Exited(code: int) | TimedOut | NotStarted | Undecodable

  /** What a command leaves of the worktree and of the checkpoint, and how it ends. */
  datatype CommandRun = CommandRun(tree: Tree, saved: Tree, end: CommandEnd) {
    predicate Succeeds() {
      end == Exited(0)
    }
  }

  /** How many commands are run: up to and including the first that does not succeed. */
  function RunCount(runs: seq<CommandRun>): (n: nat)
    ensures n <= |runs|
  {
    if runs == [] then 0
    else if runs[0].Succeeds() then 1 + RunCount(runs[1..])
    else 1
  }

  predicate AllSucceed(runs: seq<CommandRun>) {
    forall i :: 0 <= i < |runs| ==> runs[i].Succeeds()
  }

  /** The last command run raises. */
  predicate Escapes(runs: seq<CommandRun>) {
    RunCount(runs) > 0 && runs[RunCount(runs) - 1].end.Undecodable?
  }

  function TreeAfter(t: Tree, runs: seq<CommandRun>): Tree {
    if RunCount(runs) == 0 then t else runs[RunCount(runs) - 1].tree
  }

  function SavedAfter(t: Tree, runs: seq<CommandRun>): Tree {
    if RunCount(runs) == 0 then t else runs[RunCount(runs) - 1].saved
  }

  /** Every command before the last one run succeeded; if all were run and the last succeeded too, all did. */
  lemma {:induction false} RunCountStops(runs: seq<CommandRun>)
    ensures AllSucceed(runs) ==> RunCount(runs) == |runs|
    ensures forall i :: 0 <= i < RunCount(runs) - 1 ==> runs[i].Succeeds()
    ensures !AllSucceed(runs) ==> RunCount(runs) > 0 && !runs[RunCount(runs) - 1].Succeeds()
  {
    if runs != [] && runs[0].Succeeds() {
      RunCountStops(runs[1..]);
      assert forall i :: 1 <= i < |runs| ==> runs[i] == runs[1..][i - 1];
      if AllSucceed(runs[1..]) {
        assert AllSucceed(runs);
      }
    }
  }

  /** The first command that does not exit with code 0 is the last one run. */
  lemma {:induction false} RunCountIs(runs: seq<CommandRun>, n: nat)
    requires n <= |runs| && forall i :: 0 <= i < n ==> runs[i].end == Exited(0)
    ensures n == |runs| ==> RunCount(runs) == n
    ensures n < |runs| && runs[n].end != Exited(0) ==> RunCount(runs) == n + 1
  {
    if n > 0 {
      RunCountIs(runs[1..], n - 1);
    }
  }

  /** The first command that does not exit with code 0 is the only one with nothing but successes before it. */
  lemma StopsOnce(runs: seq<CommandRun>, i: nat)
    requires i < |runs| && forall j :: 0 <= j < i ==> runs[j].end == Exited(0)
    ensures runs[i].end != Exited(0) ==>
              forall n :: 0 <= n < |runs| && runs[n].end != Exited(0) && (forall j :: 0 <= j < n ==> runs[j].end == Exited(0))
                          ==> n == i
  {
  }

  class Worktree {
    const repo: Repo
    var tree: Tree
    var saved: Tree

    constructor (r: Repo, t: Tree)
      ensures repo == r && tree == t && saved == map[]
    {
      repo, tree, saved := r, t, map[];
    }

    /**
     The checkpoint is staged file by file and renamed into place. Two edits of one file under different spellings
     end here: the second copy finds its name taken.
     */
    method CreateCheckpoint(files: seq<PreparedFile>, faultAt: Option<nat>) returns (ok: bool)
      modifies this`saved
      ensures ok <==> Distinct(files) && (faultAt.None? || faultAt.value > |files|)
      ensures saved == if ok then Images(files, false) else old(saved)
    {
      hide Images, Distinct, Paths;
      var staging: Tree := map[];
      ImagesStep(files, 0, false);
      NoPaths();
      for i := 0 to |files|
        invariant saved == old(saved)
        invariant faultAt.None? || faultAt.value >= i
        invariant Distinct(files[..i])
        invariant staging == Images(files[..i], false)
      {
        ImagesAt(files[..i], false);
        PathsStep(files, i);
        ImagesStep(files, i, false);
        var f := files[i];
        if faultAt == Some(i) { return false; }
        if f.path in staging {
          if Distinct(files) { PrefixDistinct(files, i + 1); }
          return false;
        }
        staging := staging[f.path := f.preimage];
      }
      assert files[..|files|] == files;
      if faultAt == Some(|files|) { return false; }
      saved := staging;
      ok := true;
    }

    /** The last look at a file before it is written. */
    method RequireSafe(path: Path, expected: Digest, fault: Fault) returns (failure: Option<Failure>)
      ensures failure.None? <==> path in tree && !fault.Unsafe? && Sha256(tree[path]) == expected
      ensures failure == Some(Io) <==> path !in tree
      ensures failure == Some(Policy) <==> path in tree && (fault.Unsafe? || Sha256(tree[path]) != expected)
    {
      if path !in tree { return Some(Io); }
      if fault.Unsafe? || Sha256(tree[path]) != expected { return Some(Policy); }
      failure := None;
    }

    method ReplaceBytes(path: Path, value: Bytes, planned: set<Path>, fault: Fault) returns (failed: bool)
      requires path in planned
      modifies this`tree
      ensures path in old(tree) ==> path in tree
      ensures forall p :: p in planned - {path} ==> (p in tree <==> p in old(tree))
      ensures forall p :: p in old(tree) && p != path ==> p in tree && tree[p] == old(tree)[p]
      ensures Soft(fault) ==> tree == old(tree) || (path in old(tree) && tree == old(tree)[path := value])
      ensures (tree, failed) == Replaced(old(tree), path, value, planned, fault)
      ensures !fault.Garbled? && path in old(tree) ==> tree[path] == old(tree)[path] || tree[path] == value
      ensures !failed ==> path in old(tree)
      ensures !failed ==> tree == old(tree)[path := if fault.Garbled? then fault.content else value]
      ensures failed <==> path !in old(tree) || fault.CleanError? || fault.StrayError? || fault.LateError?
      ensures path !in old(tree) || fault.CleanError? ==> tree == old(tree)
      ensures path in old(tree) && fault.LateError? ==> tree == old(tree)[path := value]
      ensures path in old(tree) && fault.StrayError? ==>
                tree == if fault.temp in old(tree) || fault.temp in planned then old(tree)
                        else old(tree)[fault.temp := fault.content]
    {
      if path !in tree { return true; }
      match fault {
        case CleanError => failed := true;
        case StrayError(temp, content) =>
          if temp !in tree && temp !in planned {
            tree := tree[temp := content];
          }
          failed := true;
        case LateError =>
          tree := tree[path := value];
          failed := true;
        case Garbled(content) =>
          tree := tree[path := content];
          failed := false;
        case _ =>
          tree := tree[path := value];
          failed := false;
      }
    }

    /** One file of the plan: checked, replaced, read back. */
    method ApplyOne(f: PreparedFile, planned: set<Path>, fault: Fault) returns (failure: Option<Failure>)
      requires f.path in planned && f.path in tree && tree[f.path] == f.preimage
      modifies this`tree
      ensures failure.None? <==> Lands(f, fault)
      ensures failure.None? ==> tree == old(tree)[f.path := f.postimage]
      ensures tree == Struck(old(tree), f, planned, fault)
      ensures Soft(fault) ==> tree == old(tree) || tree == old(tree)[f.path := f.postimage]
      ensures Kept(old(tree), tree, f.path)
    {
      failure := RequireSafe(f.path, Sha256(f.preimage), fault);
      if failure.Some? { return; }
      var failed := ReplaceBytes(f.path, f.postimage, planned, fault);
      if failed { return Some(Io); }
      if Sha256(tree[f.path]) != Sha256(f.postimage) { return Some(Policy); }
      failure := None;
    }

    /**
     Writes the postimages in order and stops at the first failure. Whatever happens, no unplanned file that was
     there is changed; soft faults leave every planned file with its old or its new content and nothing else.
     */
    method Apply(files: seq<PreparedFile>, faults: seq<Fault>) returns (failure: Option<Failure>)
      requires Distinct(files) && AllAt(tree, files, false)
      modifies this`tree
      ensures failure.None? ==> tree == old(tree) + Images(files, true)
      ensures forall p :: p in old(tree) && p !in Paths(files) ==> p in tree && tree[p] == old(tree)[p]
      ensures AllSoft(faults, |files|) ==> Torn(old(tree), tree, files)
      ensures failure.None? <==> LandTo(files, faults, |files|)
      ensures failure.Some? && AllSoft(faults, |files|) ==> exists i :: StopsAt(old(tree), tree, files, faults, i)
      ensures failure.Some? ==> tree == TornTree(old(tree), files, faults)
    {
      hide Images, Distinct, AllAt, Torn, Halfway, Paths, StopsAt, AllSoft, LandTo, Kept, Lands, Struck, TornTree;
      ghost var was := tree;
      NothingApplied(was, files);
      NoneLanded(files, faults);
      for i := 0 to |files|
        invariant Halfway(was, tree, files, i) && LandTo(files, faults, i)
      {
        PlannedPath(files, i);
        HalfwayNext(was, tree, files, i);
        ghost var before := tree;
        failure := ApplyOne(files[i], Paths(files), FaultAt(faults, i));
        OneLands(files, faults, i);
        if failure.Some? {
          StoppedAt(was, before, tree, files, faults, i);
          StruckTree(was, before, files, faults, i);
          return;
        }
        HalfwayStep(was, before, files, i);
      }
      AllWritten(was, tree, files);
      failure := None;
    }

    method VerifyPostimages(files: seq<PreparedFile>) returns (r: Result<map<Path, Digest>, Failure>)
      ensures r.Ok? <==> AllAt(tree, files, true)
      ensures r.Ok? ==> r.value == Digests(Images(files, true))
    {
      var hashes: map<Path, Digest> := map[];
      for i := 0 to |files|
        invariant AllAt(tree, files[..i], true)
        invariant hashes == Digests(Images(files[..i], true))
      {
        assert files[..i + 1][..i] == files[..i];
        var f := files[i];
        assert f in files;
        if f.path !in tree { return Err(Io); }
        if Sha256(tree[f.path]) != Sha256(f.postimage) { return Err(Policy); }
        hashes := hashes[f.path := Sha256(tree[f.path])];
      }
      assert files[..|files|] == files;
      r := Ok(hashes);
    }

    /**
     Commands run in order until one fails. Each may leave any worktree and any checkpoint behind, and one whose output
     cannot be decoded raises out of the loop.
     */
    method RunVerification(runs: seq<CommandRun>) returns (r: Result<seq<CommandRun>, Failure>)
      modifies this
      ensures r == if Escapes(runs) then Err(Decode) else Ok(runs[..RunCount(runs)])
      ensures tree == TreeAfter(old(tree), runs) && saved == SavedAfter(old(saved), runs)
      ensures runs == [] ==> tree == old(tree) && saved == old(saved)
      ensures forall n :: 0 <= n < |runs| && runs[n].end != Exited(0) && (forall i :: 0 <= i < n ==> runs[i].end == Exited(0))
                ==> tree == runs[n].tree && saved == runs[n].saved && (r == Err(Decode) <==> runs[n].end.Undecodable?)
      ensures runs != [] && (forall i :: 0 <= i < |runs| ==> runs[i].end == Exited(0)) ==>
                r == Ok(runs) && tree == runs[|runs| - 1].tree && saved == runs[|runs| - 1].saved
    {
      var results: seq<CommandRun> := [];
      for i := 0 to |runs|
        invariant results == runs[..i] && forall j :: 0 <= j < i ==> runs[j].Succeeds()
        invariant i == 0 ==> tree == old(tree) && saved == old(saved)
        invariant i > 0 ==> tree == runs[i - 1].tree && saved == runs[i - 1].saved
      {
        RunCountIs(runs, i);
        StopsOnce(runs, i);
        tree, saved := runs[i].tree, runs[i].saved;
        if runs[i].end.Undecodable? { return Err(Decode); }
        results := results + [runs[i]];
        assert results == runs[..i + 1];
        if !runs[i].Succeeds() { return Ok(results); }
      }
      RunCountIs(runs, |runs|);
      assert runs[..|runs|] == runs;
      r := Ok(results);
    }

    /** Puts one file back, but only over its own preimage or postimage and only from an intact checkpoint. */
    method RollBackOne(f: PreparedFile, planned: set<Path>, fault: Fault) returns (r: Result<bool, Failure>)
      requires f.path in planned
      modifies this`tree
      ensures (tree, r) == BackOne(old(tree), saved, f, planned, fault)
      ensures r == Ok(true) ==> AtEither(old(tree), f)
      ensures r == Ok(true) ==> tree == old(tree)[f.path := if fault.Garbled? then fault.content else f.preimage]
      ensures Kept(old(tree), tree, f.path)
      ensures f.path in old(tree) && tree[f.path] != old(tree)[f.path] ==> AtEither(old(tree), f)
      ensures AtEither(old(tree), f) && f.path in saved && saved[f.path] == f.preimage && fault.NoFault? ==> r == Ok(true)
      ensures f.path in old(tree) && tree[f.path] != old(tree)[f.path] ==> tree[f.path] == f.preimage || fault.Garbled?
      ensures r.Err? ==> r.error.Policy? && fault.Unsafe? && tree == old(tree)
    {
      if f.path !in tree { return Ok(false); }
      var current := Sha256(tree[f.path]);
      if current != Sha256(f.preimage) && current != Sha256(f.postimage) { return Ok(false); }
      var failure := RequireSafe(f.path, current, fault);
      if failure == Some(Policy) { return Err(Policy); }
      if f.path !in saved { return Ok(false); }
      var preimage := saved[f.path];
      if Sha256(preimage) != Sha256(f.preimage) { return Ok(false); }
      var failed := ReplaceBytes(f.path, preimage, planned, fault);
      r := Ok(!failed);
    }

    method AllRestored(files: seq<PreparedFile>) returns (all: bool)
      ensures all == AllAt(tree, files, false)
    {
      for i := 0 to |files|
        invariant forall j :: 0 <= j < i ==> files[j].path in tree && tree[files[j].path] == files[j].preimage
      {
        if files[i].path !in tree || Sha256(tree[files[i].path]) != Sha256(files[i].preimage) {
          assert files[i] in files;
          return false;
        }
      }
      all := true;
    }

    /**
     Undoes a plan file by file. It says so only if every planned file is back; it never writes over a file that
     holds neither its preimage nor its postimage; without faults and with the checkpoint intact it succeeds. A
     target that became a link raises a policy error, which is not caught here.
     */
    method Rollback(files: seq<PreparedFile>, faults: seq<Fault>) returns (r: Result<bool, Failure>)
      requires Distinct(files)
      modifies this`tree
      ensures (tree, r) == BackFrom(old(tree), saved, files, faults, 0)
      ensures r == Ok(true) ==> AllAt(tree, files, false) && tree == old(tree) + Images(files, false)
      ensures forall p :: p in old(tree) ==> p in tree
      ensures forall p :: p in old(tree) && tree[p] != old(tree)[p] ==>
                exists i :: 0 <= i < |files| && PutBack(old(tree), tree, files[i], FaultAt(faults, i), p)
      ensures Undoable(old(tree), saved, files, faults) ==> r == Ok(true)
      ensures r.Err? ==> r.error.Policy? && exists i :: 0 <= i < |files| && FaultAt(faults, i).Unsafe?
    {
      hide Images, Distinct;
      ghost var was := tree;
      ImagesAt(files, false);
      for i := 0 to |files|
        invariant PartlyBack(was, tree, files, faults, i)
        invariant BackFrom(was, saved, files, faults, 0) == BackFrom(tree, saved, files, faults, i)
        invariant Undoable(was, saved, files, faults) ==> AllAt(tree, files[..i], false)
      {
        var f := files[i];
        assert f in files && f.path in Paths(files);
        label Before:
        OwnTurn(was, tree, files, faults, i);
        r := RollBackOne(f, Paths(files), FaultAt(faults, i));
        if r != Ok(true) {
          WhatWasPutBack(was, old@Before(tree), tree, files, faults, i);
          return;
        }
        BackStep(was, old@Before(tree), tree, files, faults, i);
        if Undoable(was, saved, files, faults) {
          PathsStep(files, i);
          PrefixDistinct(files, i + 1);
          OneMoreAt(old@Before(tree), files, i, false);
        }
      }
      assert files[..|files|] == files;
      AllPutBack(was, tree, files, faults);
      var all := AllRestored(files);
      if all { PreimagesCover(was, tree, files); Overlaid(tree, files, false); }
      r := Ok(all);
    }

    method GitChangedPaths(fails: bool) returns (r: Result<set<Path>, Failure>)
      ensures r == if fails then Err(Policy) else Ok(Changed(repo, tree))
    {
      if fails { return Err(Policy); }
      r := Ok(Changed(repo, tree));
    }
  }

  lemma NoPaths()
    ensures Distinct([]) && Paths([]) == {}
  {
  }

  lemma PrefixDistinct(files: seq<PreparedFile>, n: nat)
    requires n <= |files| && Distinct(files)
    ensures Distinct(files[..n])
  {
  }

  /** Nothing but `path` may differ among the files that were there; others may have appeared. */
  ghost predicate Kept(t: Tree, u: Tree, path: Path) {
    (path in t ==> path in u) && forall p :: p in t && p != path ==> p in u && u[p] == t[p]
  }

  predicate AllSoft(faults: seq<Fault>, n: nat) {
    forall i :: 0 <= i < n ==> Soft(FaultAt(faults, i))
  }

  /** The file is written and read back as planned. */
  predicate Lands(f: PreparedFile, fault: Fault) {
    fault.NoFault? || fault == Garbled(f.postimage)
  }

  /** The first `n` files land. */
  predicate LandTo(files: seq<PreparedFile>, faults: seq<Fault>, n: nat)
    requires n <= |files|
  {
    forall i :: 0 <= i < n ==> Lands(files[i], FaultAt(faults, i))
  }

  /** How many files land before the first that does not. */
  function LandedCount(files: seq<PreparedFile>, faults: seq<Fault>, i: nat): (n: nat)
    requires i <= |files|
    ensures i <= n <= |files|
    ensures forall j :: i <= j < n ==> Lands(files[j], FaultAt(faults, j))
    ensures n < |files| ==> !Lands(files[n], FaultAt(faults, n))
    decreases |files| - i
  {
    if i < |files| && Lands(files[i], FaultAt(faults, i)) then LandedCount(files, faults, i + 1) else i
  }

  /** The tree after one file was checked and replaced under a fault. */
  function Struck(t: Tree, f: PreparedFile, planned: set<Path>, fault: Fault): Tree {
    if fault.Unsafe? then t else Replaced(t, f.path, f.postimage, planned, fault).0
  }

  /** The tree that applying leaves: all files up to the first that does not land, and what its fault left. */
  function TornTree(t: Tree, files: seq<PreparedFile>, faults: seq<Fault>): Tree {
    var n := LandedCount(files, faults, 0);
    if n == |files| then t + Images(files, true)
    else Struck(t + Images(files[..n], true), files[n], Paths(files), FaultAt(faults, n))
  }

  lemma StruckTree(t: Tree, u: Tree, files: seq<PreparedFile>, faults: seq<Fault>, i: nat)
    requires i < |files| && LandTo(files, faults, i) && !Lands(files[i], FaultAt(faults, i))
    requires Halfway(t, u, files, i)
    ensures Struck(u, files[i], Paths(files), FaultAt(faults, i)) == TornTree(t, files, faults)
  {
    hide Images, AllAt, Lands;
    assert LandedCount(files, faults, 0) == i;
  }

  lemma NoneLanded(files: seq<PreparedFile>, faults: seq<Fault>)
    ensures LandTo(files, faults, 0)
  {
  }

  lemma OneLands(files: seq<PreparedFile>, faults: seq<Fault>, i: nat)
    requires i < |files| && LandTo(files, faults, i)
    ensures LandTo(files, faults, i + 1) <==> Lands(files[i], FaultAt(faults, i))
    ensures !Lands(files[i], FaultAt(faults, i)) ==> !LandTo(files, faults, |files|)
  {
  }

  lemma PlannedPath(files: seq<PreparedFile>, i: nat)
    requires i < |files|
    ensures files[i].path in Paths(files)
  {
    assert files[i] in files;
  }

  /** Atomic replacement under a fault: the tree it leaves, and whether it raised. */
  function Replaced(t: Tree, path: Path, value: Bytes, planned: set<Path>, fault: Fault): (Tree, bool) {
    if path !in t then (t, true)
    else
      match fault
      case CleanError => (t, true)
      case StrayError(temp, content) => (if temp !in t && temp !in planned then t[temp := content] else t, true)
      case LateError => (t[path := value], true)
      case Garbled(content) => (t[path := content], false)
      case _ => (t[path := value], false)
  }

  /** Putting one file back: the tree it leaves, and whether the rollback goes on. */
  function BackOne(t: Tree, saved: Tree, f: PreparedFile, planned: set<Path>, fault: Fault): (Tree, Result<bool, Failure>) {
    if !AtEither(t, f) then (t, Ok(false))
    else if fault.Unsafe? then (t, Err(Policy))
    else if f.path !in saved || saved[f.path] != f.preimage then (t, Ok(false))
    else var u := Replaced(t, f.path, f.preimage, planned, fault); (u.0, Ok(!u.1))
  }

  /** The rollback from file `i` on: the tree it leaves, and its verdict or the error it raises. */
  function BackFrom(t: Tree, saved: Tree, files: seq<PreparedFile>, faults: seq<Fault>, i: nat): (Tree, Result<bool, Failure>)
    requires i <= |files|
    decreases |files| - i
  {
    if i == |files| then (t, Ok(AllAt(t, files, false)))
    else
      var one := BackOne(t, saved, files[i], Paths(files), FaultAt(faults, i));
      if one.1 != Ok(true) then one else BackFrom(one.0, saved, files, faults, i + 1)
  }

  /** This file can be put back: it holds one of its images, its checkpoint is intact and nothing fails. */
  predicate Restores(t: Tree, saved: Tree, f: PreparedFile, fault: Fault) {
    && f.path in t && (t[f.path] == f.preimage || t[f.path] == f.postimage)
    && f.path in saved && saved[f.path] == f.preimage
    && (fault.NoFault? || fault.Garbled?)
  }

  /**
   The verdict of a rollback whose first `n` files can be put back and whose next one, if any, cannot: a policy error
   exactly when that one still holds one of its images but turned out unsafe; success exactly when there is none and
   nobody wrote anything but a preimage over the files put back. Each of the `n` files holds what was last written.
   */
  lemma RollbackVerdict(t: Tree, saved: Tree, files: seq<PreparedFile>, faults: seq<Fault>, n: nat)
    requires Distinct(files) && n <= |files|
    requires forall j :: 0 <= j < n ==> Restores(t, saved, files[j], FaultAt(faults, j))
    requires n < |files| ==> !Restores(t, saved, files[n], FaultAt(faults, n))
    ensures var back := BackFrom(t, saved, files, faults, 0);
            && back.1 == (if n < |files| then
                            if files[n].path in t
                               && (t[files[n].path] == files[n].preimage || t[files[n].path] == files[n].postimage)
                               && FaultAt(faults, n).Unsafe?
                            then Err(Policy) else Ok(false)
                          else Ok(forall j :: 0 <= j < n && FaultAt(faults, j).Garbled? ==>
                                            FaultAt(faults, j).content == files[j].preimage))
            && (forall j :: 0 <= j < n ==>
                  && files[j].path in back.0
                  && back.0[files[j].path] == if FaultAt(faults, j).Garbled? then FaultAt(faults, j).content
                                              else files[j].preimage)
  {
    hide BackFrom;
    BackReaches(t, saved, files, faults, n, 0, t);
  }

  /** The rollback at file `i`, with `u` the tree so far: files before `i` are written, later ones untouched. */
  lemma {:induction false} BackReaches(t: Tree, saved: Tree, files: seq<PreparedFile>, faults: seq<Fault>, n: nat, i: nat,
                                       u: Tree)
    requires Distinct(files) && i <= n <= |files|
    requires forall j :: 0 <= j < n ==> Restores(t, saved, files[j], FaultAt(faults, j))
    requires n < |files| ==> !Restores(t, saved, files[n], FaultAt(faults, n))
    requires WrittenTo(u, files, faults, i)
    requires forall j :: i <= j < |files| ==>
               (files[j].path in u <==> files[j].path in t) && (files[j].path in t ==> u[files[j].path] == t[files[j].path])
    ensures var back := BackFrom(u, saved, files, faults, i);
            && back.1 == (if n < |files| then
                            if AtEither(t, files[n]) && FaultAt(faults, n).Unsafe? then Err(Policy) else Ok(false)
                          else Ok(CleanlyGarbled(files, faults, n)))
            && WrittenTo(back.0, files, faults, n)
    decreases n - i
  {
    hide Distinct, Paths;
    if i < n {
      var w := BackOne(u, saved, files[i], Paths(files), FaultAt(faults, i)).0;
      OneBack(t, saved, u, files, faults, i);
      BackReaches(t, saved, files, faults, n, i + 1, w);
    } else if n < |files| {
      BackStops(t, saved, u, files, faults, n);
    } else {
      AllBack(u, files, faults);
    }
  }

  /** The first `n` files hold what the rollback, or someone right after it, wrote. */
  ghost predicate WrittenTo(u: Tree, files: seq<PreparedFile>, faults: seq<Fault>, n: nat)
    requires n <= |files|
  {
    forall j :: 0 <= j < n ==>
      && files[j].path in u
      && u[files[j].path] == if FaultAt(faults, j).Garbled? then FaultAt(faults, j).content else files[j].preimage
  }

  predicate CleanlyGarbled(files: seq<PreparedFile>, faults: seq<Fault>, n: nat)
    requires n <= |files|
  {
    forall j :: 0 <= j < n && FaultAt(faults, j).Garbled? ==> FaultAt(faults, j).content == files[j].preimage
  }

  lemma OneBack(t: Tree, saved: Tree, u: Tree, files: seq<PreparedFile>, faults: seq<Fault>, i: nat)
    requires Distinct(files) && i < |files| && Restores(t, saved, files[i], FaultAt(faults, i))
    requires WrittenTo(u, files, faults, i)
    requires forall j :: i <= j < |files| ==>
               (files[j].path in u <==> files[j].path in t) && (files[j].path in t ==> u[files[j].path] == t[files[j].path])
    ensures var w := BackOne(u, saved, files[i], Paths(files), FaultAt(faults, i));
            && w.1 == Ok(true) && WrittenTo(w.0, files, faults, i + 1)
            && forall j :: i < j < |files| ==>
                 && (files[j].path in w.0 <==> files[j].path in t)
                 && (files[j].path in t ==> w.0[files[j].path] == t[files[j].path])
  {
    hide Paths;
  }

  lemma BackStops(t: Tree, saved: Tree, u: Tree, files: seq<PreparedFile>, faults: seq<Fault>, n: nat)
    requires Distinct(files) && n < |files| && !Restores(t, saved, files[n], FaultAt(faults, n))
    requires WrittenTo(u, files, faults, n)
    requires files[n].path in u <==> files[n].path in t
    requires files[n].path in t ==> u[files[n].path] == t[files[n].path]
    ensures var w := BackOne(u, saved, files[n], Paths(files), FaultAt(faults, n));
            && w.1 == (if AtEither(t, files[n]) && FaultAt(faults, n).Unsafe? then Err(Policy) else Ok(false))
            && WrittenTo(w.0, files, faults, n)
  {
    hide Paths;
  }

  lemma AllBack(u: Tree, files: seq<PreparedFile>, faults: seq<Fault>)
    requires WrittenTo(u, files, faults, |files|)
    ensures AllAt(u, files, false) <==> CleanlyGarbled(files, faults, |files|)
  {
    if AllAt(u, files, false) {
      forall j | 0 <= j < |files| && FaultAt(faults, j).Garbled? ensures FaultAt(faults, j).content == files[j].preimage {
        assert files[j] in files;
      }
    }
  }

  /** With nothing in the way, the rollback puts every preimage back and says so. */
  lemma {:induction false} UndoableIsUndone(t: Tree, saved: Tree, files: seq<PreparedFile>, faults: seq<Fault>, i: nat)
    requires Distinct(files) && i <= |files| && Undoable(t, saved, files, faults)
    requires AllAt(t, files[..i], false)
    ensures BackFrom(t, saved, files, faults, i) == (t + Images(files, false), Ok(true))
    decreases |files| - i
  {
    hide Images, Distinct;
    ImagesAt(files, false);
    if i == |files| {
      assert files[..i] == files;
      Overlaid(t, files, false);
    } else {
      var f := files[i];
      assert f in files && f.path in Paths(files);
      PathsStep(files, i);
      PrefixDistinct(files, i + 1);
      OneMoreAt(t, files, i, false);
      var u := t[f.path := f.preimage];
      PreimagesCover(t, u, files);
      StillUndoable(t, saved, files, faults, i);
      UndoableIsUndone(u, saved, files, faults, i + 1);
    }
  }

  lemma StillUndoable(t: Tree, saved: Tree, files: seq<PreparedFile>, faults: seq<Fault>, i: nat)
    requires i < |files| && Distinct(files) && Undoable(t, saved, files, faults)
    ensures Undoable(t[files[i].path := files[i].preimage], saved, files, faults)
  {
    hide Images;
    forall g | g in files ensures AtEither(t[files[i].path := files[i].preimage], g) {
      var j :| 0 <= j < |files| && files[j] == g;
    }
  }

  /** Nothing stands in the way of putting the preimages back. */
  ghost predicate Undoable(t: Tree, saved: Tree, files: seq<PreparedFile>, faults: seq<Fault>) {
    && saved == Images(files, false)
    && (forall f :: f in files ==> AtEither(t, f))
    && forall i :: 0 <= i < |files| ==> FaultAt(faults, i).NoFault?
  }

  /** File `f` at path `p` was found at its preimage or postimage and overwritten with its preimage. */
  ghost predicate PutBack(t: Tree, u: Tree, f: PreparedFile, fault: Fault, p: Path) {
    f.path == p && AtEither(t, f) && p in u && (u[p] == f.preimage || fault.Garbled?)
  }

  /** The first `i` files, each found at its preimage or postimage, are put back; nothing else is touched. */
  ghost predicate PartlyBack(t: Tree, u: Tree, files: seq<PreparedFile>, faults: seq<Fault>, i: nat)
    requires i <= |files|
  {
    && t.Keys == u.Keys
    && (forall j :: 0 <= j < i ==> PutBack(t, u, files[j], FaultAt(faults, j), files[j].path))
    && (forall p :: p in t && (forall j :: 0 <= j < i ==> files[j].path != p) ==> u[p] == t[p])
  }

  lemma OwnTurn(t: Tree, u: Tree, files: seq<PreparedFile>, faults: seq<Fault>, i: nat)
    requires i < |files| && Distinct(files) && PartlyBack(t, u, files, faults, i)
    ensures files[i].path in t <==> files[i].path in u
    ensures files[i].path in t ==> u[files[i].path] == t[files[i].path]
  {
  }

  lemma BackStep(t: Tree, u: Tree, v: Tree, files: seq<PreparedFile>, faults: seq<Fault>, i: nat)
    requires i < |files| && Distinct(files) && PartlyBack(t, u, files, faults, i)
    requires AtEither(u, files[i]) && v.Keys == u.Keys
    requires v[files[i].path] == files[i].preimage || FaultAt(faults, i).Garbled?
    requires forall p :: p in u && p != files[i].path ==> v[p] == u[p]
    ensures PartlyBack(t, v, files, faults, i + 1)
  {
    OwnTurn(t, u, files, faults, i);
  }

  lemma AllPutBack(t: Tree, u: Tree, files: seq<PreparedFile>, faults: seq<Fault>)
    requires PartlyBack(t, u, files, faults, |files|)
    ensures forall p :: p in t && u[p] != t[p] ==>
              exists i :: 0 <= i < |files| && PutBack(t, u, files[i], FaultAt(faults, i), p)
  {
  }

  /** Stopping in the middle: what differs was put back, the last file perhaps by an attempt that then failed. */
  lemma WhatWasPutBack(t: Tree, u: Tree, v: Tree, files: seq<PreparedFile>, faults: seq<Fault>, i: nat)
    requires i < |files| && Distinct(files) && PartlyBack(t, u, files, faults, i)
    requires Kept(u, v, files[i].path)
    requires files[i].path in u && v[files[i].path] != u[files[i].path] ==>
               AtEither(u, files[i]) && (v[files[i].path] == files[i].preimage || FaultAt(faults, i).Garbled?)
    ensures forall p :: p in t && v[p] != t[p] ==>
              exists j :: 0 <= j < |files| && PutBack(t, v, files[j], FaultAt(faults, j), p)
  {
    OwnTurn(t, u, files, faults, i);
    forall p | p in t && v[p] != t[p]
      ensures exists j :: 0 <= j < |files| && PutBack(t, v, files[j], FaultAt(faults, j), p)
    {
      if p == files[i].path {
        assert PutBack(t, v, files[i], FaultAt(faults, i), p);
      } else {
        assert u[p] != t[p];
        var j :| 0 <= j < i && files[j].path == p;
        assert PutBack(t, v, files[j], FaultAt(faults, j), p);
      }
    }
  }

  /** File `i` is the first that does not land: those before it are written, and it may be, but none after it. */
  ghost predicate StopsAt(t: Tree, u: Tree, files: seq<PreparedFile>, faults: seq<Fault>, i: nat) {
    && i < |files| && !Lands(files[i], FaultAt(faults, i)) && LandTo(files, faults, i)
    && (u == t + Images(files[..i], true) || u == t + Images(files[..i + 1], true))
  }

  /** Each planned file has its old or its new content; laying the preimages over gives the tree back. */
  ghost predicate Torn(t: Tree, u: Tree, files: seq<PreparedFile>) {
    u + Images(files, false) == t && forall f :: f in files ==> AtEither(u, f)
  }

  /** The first `i` files are written, the others are as they were. */
  ghost predicate Halfway(t: Tree, u: Tree, files: seq<PreparedFile>, i: nat)
    requires i <= |files|
  {
    && AllAt(t, files, false)
    && u == t + Images(files[..i], true)
    && AllAt(u, files[i..], false) && AllAt(u, files[..i], true)
    && (forall p :: p !in Paths(files) ==> (p in t <==> p in u) && (p in t ==> u[p] == t[p]))
  }

  lemma NothingApplied(t: Tree, files: seq<PreparedFile>)
    requires AllAt(t, files, false)
    ensures Halfway(t, t, files, 0)
  {
    assert files[..0] == [] && files[0..] == files;
    assert t + Images([], true) == t;
  }

  lemma HalfwayNext(t: Tree, u: Tree, files: seq<PreparedFile>, i: nat)
    requires i < |files| && Halfway(t, u, files, i)
    ensures files[i].path in u && u[files[i].path] == files[i].preimage
  {
    hide Images;
    assert files[i..][0] == files[i];
    assert files[i] in files[i..];
  }

  lemma HalfwayStep(t: Tree, u: Tree, files: seq<PreparedFile>, i: nat)
    requires i < |files| && Distinct(files) && Halfway(t, u, files, i)
    ensures Halfway(t, u[files[i].path := files[i].postimage], files, i + 1)
  {
    hide Images, AllAt, Distinct;
    var f := files[i];
    assert f.path in Paths(files) by { assert f in files; }
    ImagesStep(files, i, true);
    assert u[f.path := f.postimage] == t + Images(files[..i], true)[f.path := f.postimage];
    RestStays(u, files, i);
    PrefixDistinct(files, i + 1);
    PathsStep(files, i);
    OneMoreAt(u, files, i, true);
  }

  lemma RestStays(u: Tree, files: seq<PreparedFile>, i: nat)
    requires i < |files| && Distinct(files) && AllAt(u, files[i..], false)
    ensures AllAt(u[files[i].path := files[i].postimage], files[i + 1..], false)
  {
    forall g | g in files[i + 1..] ensures g in files[i..] && g.path != files[i].path {
      var j :| 0 <= j < |files[i + 1..]| && files[i + 1..][j] == g;
      assert files[i + 1 + j] == g && files[i..][1 + j] == g;
    }
  }

  lemma AllWritten(t: Tree, u: Tree, files: seq<PreparedFile>)
    requires Distinct(files) && Halfway(t, u, files, |files|)
    ensures u == t + Images(files, true) && Torn(t, u, files)
    ensures forall p :: p in t && p !in Paths(files) ==> p in u && u[p] == t[p]
  {
    assert files[..|files|] == files;
    hide Images;
    PreimagesCover(t, u, files);
    Overlaid(t, files, false);
  }

  /** A failure at file `i`: unplanned files stay, and with nothing or the postimage written the tree is torn at most. */
  lemma StoppedAt(t: Tree, u: Tree, v: Tree, files: seq<PreparedFile>, faults: seq<Fault>, i: nat)
    requires i < |files| && Distinct(files) && Halfway(t, u, files, i) && LandTo(files, faults, i)
    requires Kept(u, v, files[i].path) && !Lands(files[i], FaultAt(faults, i))
    requires Soft(FaultAt(faults, i)) ==> v == u || v == u[files[i].path := files[i].postimage]
    ensures forall p :: p in t && p !in Paths(files) ==> p in v && v[p] == t[p]
    ensures AllSoft(faults, |files|) ==> Torn(t, v, files) && StopsAt(t, v, files, faults, i)
  {
    hide Images, LandTo;
    assert files[i] in files && files[i].path in Paths(files);
    if AllSoft(faults, |files|) {
      TornAt(t, u, v, files, i);
      ImagesStep(files, i, true);
    }
  }

  lemma TornAt(t: Tree, u: Tree, v: Tree, files: seq<PreparedFile>, i: nat)
    requires i < |files| && Distinct(files) && Halfway(t, u, files, i)
    requires v == u || v == u[files[i].path := files[i].postimage]
    ensures Torn(t, v, files)
  {
    hide Images;
    assert files[i] in files && files[i].path in Paths(files);
    PreimagesCover(t, v, files);
    Overlaid(t, files, false);
    forall g | g in files ensures AtEither(v, g) {
      var j :| 0 <= j < |files| && files[j] == g;
      EitherHalfway(t, u, files, i, i);
      EitherHalfway(t, u, files, i, j);
    }
  }

  lemma EitherHalfway(t: Tree, u: Tree, files: seq<PreparedFile>, i: nat, j: nat)
    requires i < |files| && j < |files| && Halfway(t, u, files, i)
    ensures AtEither(u, files[j])
  {
    hide Images;
    if j < i { assert files[..i][j] == files[j]; } else { assert files[i..][j - i] == files[j]; }
  }

  lemma ImagesStep(files: seq<PreparedFile>, i: nat, post: bool)
    requires i < |files| || (i == 0 && files == [])
    ensures Images(files[..0], post) == map[]
    ensures i < |files| ==>
              Images(files[..i + 1], post)
              == Images(files[..i], post)[files[i].path := if post then files[i].postimage else files[i].preimage]
  {
    if i < |files| {
      assert files[..i + 1][..i] == files[..i];
    }
  }
}
