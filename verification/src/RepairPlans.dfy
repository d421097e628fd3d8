/**
 Turning a planner's proposal into the bytes to write: every file is looked up, checked against its expected digest
 and edited, and the whole plan is held against the limits.
 */
module RepairPlans {
  import opened Wrappers
  import opened RepairSplice

  /** A file is named by its normalized path relative to the project root. */
  type Path = string

  type Tree = map<Path, Bytes>

  datatype FileRepair = FileRepair(path: string, expected: Digest, replacements: seq<Replacement>) {
    predicate Valid() {
      replacements != [] && forall r :: r in replacements ==> r.Valid()
    }
  }

  datatype Limits = Limits(maxAttempts: nat, maxFiles: nat, maxChangedLines: nat, maxTotalBytes: nat)

  /**
   What the policy asks of the outside: which regular, unlinked, unprotected file a supplied path names; the UTF-8
   codec; the line differ; the pattern for apparent secrets.
   */
  datatype Tools = Tools(
    resolve: (Tree, string) -> Option<Path>,
    decode: Bytes -> Option<Text>,
    encode: Text -> Bytes,
    changedLines: (Text, Text) -> nat,
    secret: Text -> bool)

  datatype PreparedFile = PreparedFile(path: Path, preimage: Bytes, postimage: Bytes, changedLines: nat)

  datatype PreparedPlan = PreparedPlan(files: seq<PreparedFile>, changedLines: nat, totalBytes: nat)

  /** A policy error refuses a plan; its message is not kept. */
  datatype PolicyError = PolicyError

  predicate NoSecrets(tools: Tools, rs: seq<Replacement>) {
    forall r :: r in rs ==> !tools.secret(r.find) && !tools.secret(r.put)
  }

  /** Everything one file must satisfy, and what it is then prepared to become. */
  ghost predicate Prepares(tree: Tree, tools: Tools, limits: Limits, e: FileRepair, f: PreparedFile) {
    && e.Valid()
    && tools.resolve(tree, e.path) == Some(f.path)
    && f.path in tree && tree[f.path] == f.preimage
    && |f.preimage| <= limits.maxTotalBytes && 0 !in f.preimage
    && e.expected == Sha256(f.preimage)
    && tools.decode(f.preimage).Some?
    && var original := tools.decode(f.preimage).value;
    && !tools.secret(original)
    && (forall r :: r in e.replacements ==> !tools.secret(r.find) && !tools.secret(r.put))
    && Edited(original, e.replacements).Ok?
    && var updated := Edited(original, e.replacements).value;
    && f.postimage == tools.encode(updated)
    && f.changedLines == tools.changedLines(original, updated)
  }

  method PrepareFile(tree: Tree, tools: Tools, limits: Limits, e: FileRepair) returns (r: Result<PreparedFile, PolicyError>)
    requires e.Valid()
    ensures r.Ok? ==> Prepares(tree, tools, limits, e, r.value)
    ensures r.Err? ==> forall f :: !Prepares(tree, tools, limits, e, f)
  {
    var path := tools.resolve(tree, e.path);
    if path.None? || path.value !in tree { return Err(PolicyError); }
    var preimage := tree[path.value];
    if |preimage| > limits.maxTotalBytes || 0 in preimage { return Err(PolicyError); }
    var original := tools.decode(preimage);
    if original.None? || tools.secret(original.value) { return Err(PolicyError); }
    if Sha256(preimage) != e.expected { return Err(PolicyError); }
    if !NoSecrets(tools, e.replacements) { return Err(PolicyError); }
    var updated := EditFile(original.value, e.replacements);
    if updated.Err? { return Err(PolicyError); }
    var changed := tools.changedLines(original.value, updated.value);
    r := Ok(PreparedFile(path.value, preimage, tools.encode(updated.value), changed));
  }

  function TotalLines(files: seq<PreparedFile>): nat {
    if files == [] then 0 else TotalLines(files[..|files| - 1]) + files[|files| - 1].changedLines
  }

  function Footprint(f: PreparedFile): nat {
    Max(|f.preimage|, |f.postimage|)
  }

  function TotalBytes(files: seq<PreparedFile>): nat {
    if files == [] then 0 else TotalBytes(files[..|files| - 1]) + Footprint(files[|files| - 1])
  }

  /** The plan the policy accepts for these edits on this tree. */
  ghost predicate PreparesAll(tree: Tree, tools: Tools, limits: Limits, edits: seq<FileRepair>, p: PreparedPlan) {
    && |edits| <= limits.maxFiles
    && |p.files| == |edits|
    && (forall i :: 0 <= i < |edits| ==> Prepares(tree, tools, limits, edits[i], p.files[i]))
    && p.changedLines == TotalLines(p.files) <= limits.maxChangedLines
    && p.totalBytes == TotalBytes(p.files) <= limits.maxTotalBytes
  }

  lemma PreparedOnce(tree: Tree, tools: Tools, limits: Limits, e: FileRepair, f: PreparedFile, g: PreparedFile)
    requires Prepares(tree, tools, limits, e, f) && Prepares(tree, tools, limits, e, g)
    ensures f == g
  {
  }

  /** The accepted plan is the only one, so a refusal after the sums means there is none. */
  lemma PreparedAllOnce(tree: Tree, tools: Tools, limits: Limits, edits: seq<FileRepair>, fs: seq<PreparedFile>,
                        gs: seq<PreparedFile>)
    requires |fs| == |gs| == |edits|
    requires forall i :: 0 <= i < |edits| ==>
               Prepares(tree, tools, limits, edits[i], fs[i]) && Prepares(tree, tools, limits, edits[i], gs[i])
    ensures fs == gs
  {
    forall i | 0 <= i < |edits| ensures fs[i] == gs[i] {
      PreparedOnce(tree, tools, limits, edits[i], fs[i], gs[i]);
    }
  }

  method PreparePlan(tree: Tree, tools: Tools, limits: Limits, edits: seq<FileRepair>)
    returns (r: Result<PreparedPlan, PolicyError>)
    requires forall e :: e in edits ==> e.Valid()
    ensures r.Ok? ==> PreparesAll(tree, tools, limits, edits, r.value)
    ensures r.Err? ==> forall p :: !PreparesAll(tree, tools, limits, edits, p)
  {
    hide Prepares;
    if |edits| > limits.maxFiles { return Err(PolicyError); }
    var files: seq<PreparedFile> := [];
    var lines, bytes := 0, 0;
    for i := 0 to |edits|
      invariant |files| == i
      invariant forall j :: 0 <= j < i ==> Prepares(tree, tools, limits, edits[j], files[j])
      invariant lines == TotalLines(files) && bytes == TotalBytes(files)
    {
      var f := PrepareFile(tree, tools, limits, edits[i]);
      if f.Err? { return Err(PolicyError); }
      assert (files + [f.value])[..i] == files;
      files := files + [f.value];
      lines, bytes := lines + f.value.changedLines, bytes + Footprint(f.value);
    }
    forall p | PreparesAll(tree, tools, limits, edits, p) ensures p.files == files {
      PreparedAllOnce(tree, tools, limits, edits, p.files, files);
    }
    if lines > limits.maxChangedLines || bytes > limits.maxTotalBytes { return Err(PolicyError); }
    r := Ok(PreparedPlan(files, lines, bytes));
  }

  lemma {:induction false} SumsBoundEach(files: seq<PreparedFile>, i: nat)
    requires i < |files|
    ensures Footprint(files[i]) <= TotalBytes(files) && files[i].changedLines <= TotalLines(files)
  {
    if i < |files| - 1 {
      SumsBoundEach(files[..|files| - 1], i);
    }
  }

  /** What a plan of one file sums up to; by `SumsAppend` that settles the sums of every plan. */
  lemma SumsOfOne(f: PreparedFile)
    ensures TotalLines([f]) == f.changedLines && TotalBytes([f]) >= |f.preimage| && TotalBytes([f]) >= |f.postimage|
    ensures TotalBytes([f]) == |f.preimage| || TotalBytes([f]) == |f.postimage|
  {
    assert [f][..0] == [];
    assert TotalLines([]) == 0 && TotalBytes([]) == 0;
  }

  lemma {:induction false} SumsAppend(a: seq<PreparedFile>, b: seq<PreparedFile>)
    ensures TotalBytes(a + b) == TotalBytes(a) + TotalBytes(b)
    ensures TotalLines(a + b) == TotalLines(a) + TotalLines(b)
  {
    if b == [] {
      assert a + b == a;
    } else {
      assert (a + b)[..|a + b| - 1] == a + b[..|b| - 1];
      SumsAppend(a, b[..|b| - 1]);
    }
  }

  lemma SliceWithinLimits(limits: Limits, files: seq<PreparedFile>, a: nat, b: nat)
    requires a <= b <= |files|
    ensures TotalBytes(files[a..b]) <= TotalBytes(files) && TotalLines(files[a..b]) <= TotalLines(files)
  {
    hide TotalBytes, TotalLines;
    assert files == (files[..a] + files[a..b]) + files[b..];
    SumsAppend(files[..a] + files[a..b], files[b..]);
    SumsAppend(files[..a], files[a..b]);
  }

  /**
   An accepted plan reads back: each postimage is the text of its file with all its replacements put in at once,
   and neither a file nor any group of files exceeds what the whole plan may use.
   */
  lemma AcceptedPlanMeans(tree: Tree, tools: Tools, limits: Limits, edits: seq<FileRepair>, p: PreparedPlan, i: nat,
                          a: nat, b: nat)
    requires PreparesAll(tree, tools, limits, edits, p)
    requires i < |edits| && a <= b <= |edits|
    ensures tools.decode(p.files[i].preimage).Some? && ReadsAsSubstitution(tools, edits[i], p.files[i])
    ensures var f := p.files[i];
            && tools.resolve(tree, edits[i].path) == Some(f.path) && f.path in tree && tree[f.path] == f.preimage
            && edits[i].expected == Sha256(f.preimage) && 0 !in f.preimage && !tools.secret(tools.decode(f.preimage).value)
            && forall r :: r in edits[i].replacements ==> !tools.secret(r.find) && !tools.secret(r.put)
    ensures TotalBytes(p.files[a..b]) <= limits.maxTotalBytes && TotalLines(p.files[a..b]) <= limits.maxChangedLines
    ensures |p.files[i].preimage| <= limits.maxTotalBytes && |p.files[i].postimage| <= limits.maxTotalBytes
  {
    hide TotalBytes, TotalLines;
    assert Prepares(tree, tools, limits, edits[i], p.files[i]);
    PreparedTextMeans(tree, tools, limits, edits[i], p.files[i]);
    SliceWithinLimits(limits, p.files, a, b);
    SumsBoundEach(p.files, i);
  }

  lemma PreparedTextMeans(tree: Tree, tools: Tools, limits: Limits, e: FileRepair, f: PreparedFile)
    requires Prepares(tree, tools, limits, e, f)
    ensures ReadsAsSubstitution(tools, e, f)
  {
    hide Edited, IsSubstitution;
    var original := tools.decode(f.preimage).value;
    EditMeans(original, e.replacements, Edited(original, e.replacements).value);
  }

  ghost predicate ReadsAsSubstitution(tools: Tools, e: FileRepair, f: PreparedFile) {
    && tools.decode(f.preimage).Some?
    && var original := tools.decode(f.preimage).value;
    && Locatable(original, e.replacements)
    && exists updated ::
         IsSubstitution(original, SpansOf(original, e.replacements), updated) && updated != []
         && f.postimage == tools.encode(updated)
  }
}
