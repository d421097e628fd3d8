/**
 Backing up the runtime directories into an archive with a manifest, verifying such an archive, and restoring it.
 Digests stand for contents; JSON encoding and SQLite snapshots are parameters.
 */
module RuntimeBackup {
  import opened Wrappers
  import opened ArchivePaths

  /** Regular files by path components. */
  type Files = map<Parts, Bytes>

  const ALLOWED_ROOTS: seq<Parts> := [
    ["data", "sessions"], ["data", "guided"], ["artifacts", "runs"], ["artifacts", "guided-runs"], ["profiles"], ["output"]]

  const DENIED_NAMES := [".env", ".env.router", ".env.private", "auth.json"]
  const DENIED_WORDS := ["token", "secret", "credential"]
  const DENIED_ENDS := ["-wal", "-shm", ".tmp"]

  const MANIFEST := "manifest.json"

  predicate FoundAt(s: string, word: string, i: nat) {
    i + |word| <= |s| && s[i..i + |word|] == word
  }

  predicate Contains(s: string, word: string) {
    exists i :: 0 <= i <= |s| && FoundAt(s, word, i)
  }

  predicate EndsWith(s: string, end: string) {
    |end| <= |s| && s[|s| - |end|..] == end
  }

  predicate IsAllowed(lower: string -> string, p: Parts)
    requires p != []
  {
    var name := p[|p| - 1];
    && lower(name) !in DENIED_NAMES
    && (forall w :: w in DENIED_WORDS ==> !Contains(lower(name), w))
    && (forall e :: e in DENIED_ENDS ==> !EndsWith(name, e))
  }

  /** What the outside computes: lower-casing, the bytes of a consistent SQLite snapshot, and the manifest's JSON. */
  datatype Tools = Tools(
    lower: string -> string,
    snapshot: (Parts, Bytes) -> Bytes,
    encode: seq<Entry> -> Bytes,
    decode: Bytes -> Option<seq<Entry>>)
  {
    ghost predicate Valid() {
      forall m :: decode(encode(m)) == Some(m)
    }
  }

  datatype Entry = Entry(path: string, size: nat, sha256: Digest)

  datatype Member = Member(name: string, data: Bytes)

  type Archive = seq<Member>

  /** The suffix of a path is ".sqlite3"; a name that is nothing else has no suffix. */
  predicate IsDatabase(p: Parts) {
    p != [] && EndsWith(p[|p| - 1], ".sqlite3") && |p[|p| - 1]| > |".sqlite3"|
  }

  function FileBytes(tools: Tools, p: Parts, b: Bytes): Bytes {
    if IsDatabase(p) then tools.snapshot(p, b) else b
  }

  // ---- which files ----

  predicate Selected(tools: Tools, root: Parts, p: Parts) {
    root < p && IsAllowed(tools.lower, p)
  }

  predicate InScope(tools: Tools, p: Parts) {
    exists i :: 0 <= i < |ALLOWED_ROOTS| && Selected(tools, ALLOWED_ROOTS[i], p)
  }

  /** A text that contains another, or ends with it. */
  ghost predicate Has(s: string, word: string) {
    exists a, b :: s == a + word + b
  }

  ghost predicate Ends(s: string, end: string) {
    exists a :: s == a + end
  }

  /** Which files a backup may pack, spelled out. */
  ghost predicate Packable(lower: string -> string, p: Parts) {
    && (|| ["data", "sessions"] < p || ["data", "guided"] < p || ["artifacts", "runs"] < p
        || ["artifacts", "guided-runs"] < p || ["profiles"] < p || ["output"] < p)
    && var name := p[|p| - 1];
    && lower(name) !in {".env", ".env.router", ".env.private", "auth.json"}
    && !Has(lower(name), "token") && !Has(lower(name), "secret") && !Has(lower(name), "credential")
    && !Ends(name, "-wal") && !Ends(name, "-shm") && !Ends(name, ".tmp")
  }

  lemma ContainsIff(s: string, word: string)
    ensures Contains(s, word) <==> Has(s, word)
  {
    if i :| 0 <= i <= |s| && FoundAt(s, word, i) {
      assert s == s[..i] + word + s[i + |word|..];
    }
    if Has(s, word) {
      var a, b :| s == a + word + b;
      assert FoundAt(s, word, |a|);
    }
  }

  lemma EndsIff(s: string, end: string)
    ensures EndsWith(s, end) <==> Ends(s, end)
  {
    if EndsWith(s, end) {
      assert s == s[..|s| - |end|] + end;
    }
  }

  lemma UnderARoot(p: Parts)
    ensures (exists i :: 0 <= i < |ALLOWED_ROOTS| && ALLOWED_ROOTS[i] < p)
            <==> || ["data", "sessions"] < p || ["data", "guided"] < p || ["artifacts", "runs"] < p
                 || ["artifacts", "guided-runs"] < p || ["profiles"] < p || ["output"] < p
  {
    assert ALLOWED_ROOTS[0] == ["data", "sessions"] && ALLOWED_ROOTS[1] == ["data", "guided"];
    assert ALLOWED_ROOTS[2] == ["artifacts", "runs"] && ALLOWED_ROOTS[3] == ["artifacts", "guided-runs"];
    assert ALLOWED_ROOTS[4] == ["profiles"] && ALLOWED_ROOTS[5] == ["output"];
  }

  lemma AllowedIff(lower: string -> string, p: Parts)
    requires p != []
    ensures var name := p[|p| - 1];
            IsAllowed(lower, p) <==>
            && lower(name) !in {".env", ".env.router", ".env.private", "auth.json"}
            && !Has(lower(name), "token") && !Has(lower(name), "secret") && !Has(lower(name), "credential")
            && !Ends(name, "-wal") && !Ends(name, "-shm") && !Ends(name, ".tmp")
  {
    var name := p[|p| - 1];
    ContainsIff(lower(name), "token");
    ContainsIff(lower(name), "secret");
    ContainsIff(lower(name), "credential");
    EndsIff(name, "-wal");
    EndsIff(name, "-shm");
    EndsIff(name, ".tmp");
    hide Contains, Has, EndsWith, Ends;
  }

  /** The selection is exactly that. */
  lemma InScopeMeans(tools: Tools, p: Parts)
    ensures InScope(tools, p) <==> Packable(tools.lower, p)
  {
    UnderARoot(p);
    if p != [] {
      AllowedIff(tools.lower, p);
    }
    hide IsAllowed, Has, Ends;
  }

  /** The name ends in ".sqlite3" and is more than that. */
  ghost predicate IsNamedDatabase(p: Parts) {
    p != [] && Ends(p[|p| - 1], ".sqlite3") && p[|p| - 1] != ".sqlite3"
  }

  /** What a backup of `files` holds: databases as snapshots, everything else byte for byte. */
  ghost predicate IsCopy(tools: Tools, files: Files, t: Files) {
    && (forall p :: p in t <==> p in files && Packable(tools.lower, p))
    && (forall p :: p in t ==>
          t[p] == if IsNamedDatabase(p) then tools.snapshot(p, files[p]) else files[p])
  }

  predicate NoRepeats<T(==)>(s: seq<T>) {
    forall i, j :: 0 <= i < j < |s| ==> s[i] != s[j]
  }

  /** A listing names every file once; a file is not also a directory. */
  ghost predicate Lists(listing: seq<Parts>, files: Files) {
    && NoRepeats(listing)
    && (forall p :: p in listing <==> p in files)
    && (forall p :: p in files ==> Relative(p))
    && (forall p, q :: p in files && q in files ==> !(p < q))
  }

  /** The sorted listing is walked once for every allowed root. */
  method SourceFiles(tools: Tools, listing: seq<Parts>) returns (found: seq<Parts>)
    requires NoRepeats(listing)
    ensures forall p :: p in found <==> p in listing && InScope(tools, p)
    ensures forall p :: p in found <==> p in listing && Packable(tools.lower, p)
    ensures NoRepeats(found)
  {
    hide Packable;
    forall p ensures InScope(tools, p) <==> Packable(tools.lower, p) {
      InScopeMeans(tools, p);
    }
    found := [];
    for i := 0 to |ALLOWED_ROOTS|
      invariant forall p :: p in found <==> p in listing && exists k :: 0 <= k < i && Selected(tools, ALLOWED_ROOTS[k], p)
      invariant NoRepeats(found)
    {
      ghost var before := found;
      for j := 0 to |listing|
        invariant NoRepeats(found) && before <= found
        invariant forall p :: p in found <==> p in before || (p in listing[..j] && Selected(tools, ALLOWED_ROOTS[i], p))
      {
        assert listing[..j + 1] == listing[..j] + [listing[j]];
        if Selected(tools, ALLOWED_ROOTS[i], listing[j]) {
          assert listing[j] !in before by { RootsDisjoint(tools, listing[j], i); }
          found := found + [listing[j]];
        }
      }
      assert listing[..|listing|] == listing;
    }
  }

  /** No allowed root lies inside another, so no file is met twice. */
  lemma RootsDisjoint(tools: Tools, p: Parts, i: nat)
    requires i < |ALLOWED_ROOTS| && Selected(tools, ALLOWED_ROOTS[i], p)
    ensures forall k :: 0 <= k < i ==> !Selected(tools, ALLOWED_ROOTS[k], p)
  {
    forall k | 0 <= k < i ensures !(ALLOWED_ROOTS[k] < p) {
      assert ALLOWED_ROOTS[i][0] == p[0];
      assert |ALLOWED_ROOTS[i]| > 1 ==> ALLOWED_ROOTS[i][1] == p[1];
    }
  }

  // ---- archives ----

  /** Reading a name gives its last member: later ones hide earlier ones. */
  function Read(a: Archive, name: string): Option<Bytes> {
    if a == [] then None
    else if a[|a| - 1].name == name then Some(a[|a| - 1].data)
    else Read(a[..|a| - 1], name)
  }

  function Names(a: Archive): set<string> {
    set m | m in a && m.name != MANIFEST :: m.name
  }

  /** The manifest as a dictionary: a path listed twice counts with its last entry. */
  function Expected(entries: seq<Entry>): map<string, Entry> {
    if entries == [] then map[] else
      var e := entries[|entries| - 1];
      Expected(entries[..|entries| - 1])[e.path := e]
  }

  predicate SafeMember(name: string) {
    !Absolute(name) && ".." !in PartsOf(name) && name != MANIFEST
  }

  predicate Matches(a: Archive, name: string, e: Entry) {
    && SafeMember(name)
    && Read(a, name).Some?
    && |Read(a, name).value| == e.size && Sha256(Read(a, name).value) == e.sha256
  }

  /** Names, sizes and digests agree with the manifest, and every name is safe. */
  predicate Accepted(tools: Tools, a: Archive) {
    && Read(a, MANIFEST).Some?
    && tools.decode(Read(a, MANIFEST).value).Some?
    && var expected := Expected(tools.decode(Read(a, MANIFEST).value).value);
    && Names(a) == expected.Keys
    && forall n :: n in expected ==> Matches(a, n, expected[n])
  }

  datatype BackupError = NoManifest | EntriesDiffer | Mismatch | Escapes | Io

  method VerifyBackup(tools: Tools, a: Archive) returns (r: Result<nat, BackupError>)
    ensures r.Ok? <==> Accepted(tools, a)
    ensures r.Ok? ==> r.value == |Names(a)|
  {
    var body := Read(a, MANIFEST);
    if body.None? { return Err(NoManifest); }
    var entries := tools.decode(body.value);
    if entries.None? { return Err(NoManifest); }
    var expected: map<string, Entry> := map[];
    for i := 0 to |entries.value|
      invariant expected == Expected(entries.value[..i])
    {
      assert entries.value[..i + 1][..i] == entries.value[..i];
      expected := expected[entries.value[i].path := entries.value[i]];
    }
    assert entries.value[..|entries.value|] == entries.value;
    if Names(a) != expected.Keys { return Err(EntriesDiffer); }
    var left := expected.Keys;
    while left != {}
      invariant left <= expected.Keys
      invariant forall n :: n in expected && n !in left ==> Matches(a, n, expected[n])
      decreases |left|
    {
      var n :| n in left;
      if !Matches(a, n, expected[n]) { return Err(Mismatch); }
      left := left - {n};
    }
    r := Ok(|expected.Keys|);
  }

  function MemberFor(tools: Tools, files: Files, p: Parts): Member
    requires p in files
  {
    Member(Join(p), FileBytes(tools, p, files[p]))
  }

  function EntryFor(tools: Tools, files: Files, p: Parts): Entry
    requires p in files
  {
    var data := FileBytes(tools, p, files[p]);
    Entry(Join(p), |data|, Sha256(data))
  }

  /** An archive holding exactly the files in scope, each under its own name, and then the manifest. */
  ghost predicate IsBackup(tools: Tools, files: Files, a: Archive, packed: seq<Parts>) {
    && NoRepeats(packed)
    && (forall p :: p in packed <==> p in files && InScope(tools, p))
    && |a| == |packed| + 1
    && (forall i :: 0 <= i < |packed| ==> a[i] == MemberFor(tools, files, packed[i]))
    && a[|packed|] == Member(MANIFEST, tools.encode(Entries(tools, files, packed)))
  }

  function Entries(tools: Tools, files: Files, packed: seq<Parts>): seq<Entry>
    requires forall p :: p in packed ==> p in files
  {
    seq(|packed|, i requires 0 <= i < |packed| => EntryFor(tools, files, packed[i]))
  }

  /**
   What the walk sees. The archive is opened first, so one placed inside the root is already there, and reading it gives
   whatever part of it has been written.
   */
  function AtWalk(files: Files, output: Option<Parts>, partial: Bytes): Files {
    if output.Some? then files[output.value := partial] else files
  }

  /** The same archive, member by member: each file's own bytes or its snapshot, then the list of sizes and digests. */
  ghost predicate Packs(tools: Tools, files: Files, a: Archive, packed: seq<Parts>) {
    && |a| == |packed| + 1
    && (forall i :: 0 <= i < |packed| ==>
          packed[i] in files && Packable(tools.lower, packed[i]) && a[i].name == Join(packed[i]))
    && (forall i :: 0 <= i < |packed| ==>
          a[i].data == if IsNamedDatabase(packed[i]) then tools.snapshot(packed[i], files[packed[i]]) else files[packed[i]])
    && a[|packed|].name == "manifest.json"
    && exists es: seq<Entry> ::
         && a[|packed|].data == tools.encode(es) && |es| == |packed|
         && forall i :: 0 <= i < |packed| ==> es[i] == Entry(a[i].name, |a[i].data|, Sha256(a[i].data))
  }

  lemma DatabaseIff(p: Parts)
    ensures IsDatabase(p) <==> IsNamedDatabase(p)
  {
    if p != [] {
      EndsIff(p[|p| - 1], ".sqlite3");
    }
  }

  lemma BackupPacks(tools: Tools, files: Files, a: Archive, packed: seq<Parts>)
    requires IsBackup(tools, files, a, packed)
    ensures Packs(tools, files, a, packed)
  {
    hide Packable, InScope, Join, IsDatabase, IsNamedDatabase;
    forall i | 0 <= i < |packed|
      ensures packed[i] in files && Packable(tools.lower, packed[i])
      ensures IsDatabase(packed[i]) <==> IsNamedDatabase(packed[i])
    {
      assert packed[i] in packed;
      InScopeMeans(tools, packed[i]);
      DatabaseIff(packed[i]);
    }
    var es := Entries(tools, files, packed);
    assert forall i :: 0 <= i < |packed| ==> es[i] == Entry(a[i].name, |a[i].data|, Sha256(a[i].data));
  }

  method CreateBackup(tools: Tools, listing: seq<Parts>, before: Files, output: Option<Parts>, partial: Bytes)
    returns (a: Archive)
    requires Lists(listing, AtWalk(before, output, partial))
    ensures exists packed ::
              && IsBackup(tools, AtWalk(before, output, partial), a, packed)
              && Packs(tools, if output.Some? then before[output.value := partial] else before, a, packed)
  {
    hide FileBytes, Join, InScope, Packs, Packable;
    var files := AtWalk(before, output, partial);
    var found := SourceFiles(tools, listing);
    a := [];
    var entries: seq<Entry> := [];
    for i := 0 to |found|
      invariant |a| == |entries| == i
      invariant forall j :: 0 <= j < i ==> a[j] == MemberFor(tools, files, found[j])
      invariant forall j :: 0 <= j < i ==> entries[j] == EntryFor(tools, files, found[j])
    {
      assert found[i] in found;
      var data := FileBytes(tools, found[i], files[found[i]]);
      a := a + [Member(Join(found[i]), data)];
      entries := entries + [Entry(Join(found[i]), |data|, Sha256(data))];
    }
    assert entries == Entries(tools, files, found);
    a := a + [Member(MANIFEST, tools.encode(entries))];
    assert IsBackup(tools, files, a, found);
    BackupPacks(tools, files, a, found);
  }

  // ---- restoring ----

  /** A file where a directory is needed, or a directory where the file goes. */
  predicate Blocked(t: Files, p: Parts) {
    exists q :: q in t && (q < p || p < q)
  }

  function Restored(a: Archive, n: nat): Files
    requires n <= |a|
  {
    if n == 0 then map[]
    else if a[n - 1].name == MANIFEST || Read(a, a[n - 1].name).None? then Restored(a, n - 1)
    else Restored(a, n - 1)[PartsOf(a[n - 1].name) := Read(a, a[n - 1].name).value]
  }

  predicate InsideTarget(p: Parts) {
    p != [] && ".." !in p
  }

  class Directory {
    var files: Files

    constructor ()
      ensures files == map[]
    {
      files := map[];
    }

    /**
     Writes the members of a verified archive. On success the directory has exactly the archive's files on top of its
     own; a refused archive writes nothing; and no write ever lands outside the directory.
     */
    method RestoreBackup(tools: Tools, a: Archive) returns (r: Result<nat, BackupError>)
      modifies this
      ensures r.Ok? ==> Accepted(tools, a) && files == old(files) + Restored(a, |a|) && r.value == |Names(a)|
      ensures !Accepted(tools, a) ==> r.Err? && files == old(files)
      ensures exists n :: 0 <= n <= |a| && files == old(files) + Restored(a, n)
      ensures forall p :: p in files && (p !in old(files) || files[p] != old(files)[p]) ==> InsideTarget(p)
      ensures Accepted(tools, a) && Fits(a) && old(files) == map[] ==> r.Ok?
    {
      hide Accepted, Fits, Restored, Read, PartsOf, InsideTarget, Blocked, IsTarget, Names;
      r := VerifyBackup(tools, a);
      NothingRestored(a);
      if r.Err? { return; }
      for i := 0 to |a|
        invariant files == old(files) + Restored(a, i)
        invariant forall p :: p in Restored(a, i) ==> InsideTarget(p) && IsTarget(a, p)
      {
        RestoreStep(tools, a, i);
        if a[i].name == MANIFEST { continue; }
        var p := PartsOf(a[i].name);
        if p == [] {
          NoTargetIsEmpty(a, i);
          return Err(Escapes);
        }
        if Blocked(files, p) {
          if old(files) == map[] { BlockedDoesNotFit(a, i); }
          return Err(Io);
        }
        files := files[p := Read(a, a[i].name).value];
      }
    }
  }

  lemma NothingRestored(a: Archive)
    ensures Restored(a, 0) == map[]
  {
  }

  lemma RestoreStep(tools: Tools, a: Archive, i: nat)
    requires Accepted(tools, a) && i < |a|
    ensures a[i].name == MANIFEST ==> Restored(a, i + 1) == Restored(a, i)
    ensures a[i].name != MANIFEST ==>
              && Read(a, a[i].name).Some?
              && Restored(a, i + 1) == Restored(a, i)[PartsOf(a[i].name) := Read(a, a[i].name).value]
              && IsTarget(a, PartsOf(a[i].name))
              && (PartsOf(a[i].name) != [] ==> InsideTarget(PartsOf(a[i].name)))
  {
    hide Read, PartsOf, Expected;
    if a[i].name != MANIFEST {
      assert a[i] in a && a[i].name in Names(a);
      var expected := Expected(tools.decode(Read(a, MANIFEST).value).value);
      assert Matches(a, a[i].name, expected[a[i].name]);
    }
  }

  lemma NoTargetIsEmpty(a: Archive, i: nat)
    requires i < |a| && a[i].name != MANIFEST && PartsOf(a[i].name) == []
    ensures !Fits(a)
  {
    assert IsTarget(a, PartsOf(a[i].name));
  }

  lemma BlockedDoesNotFit(a: Archive, i: nat)
    requires i < |a| && a[i].name != MANIFEST
    requires forall p :: p in Restored(a, i) ==> IsTarget(a, p)
    requires Blocked(map[] + Restored(a, i), PartsOf(a[i].name))
    ensures !Fits(a)
  {
    hide Restored, PartsOf;
    assert IsTarget(a, PartsOf(a[i].name));
  }

  predicate IsTarget(a: Archive, p: Parts) {
    exists i :: 0 <= i < |a| && a[i].name != MANIFEST && PartsOf(a[i].name) == p
  }

  /** The members can all be files of one directory. */
  ghost predicate Fits(a: Archive) {
    forall p, q :: IsTarget(a, p) && IsTarget(a, q) ==> p != [] && !(p < q)
  }

  // ---- the round trip ----

  lemma WantedIsCopy(tools: Tools, files: Files)
    ensures IsCopy(tools, files, Wanted(tools, files))
  {
    hide Packable, InScope, IsDatabase, IsNamedDatabase;
    forall p ensures InScope(tools, p) <==> Packable(tools.lower, p) {
      InScopeMeans(tools, p);
    }
    forall p ensures IsDatabase(p) <==> IsNamedDatabase(p) {
      DatabaseIff(p);
    }
  }

  /** What a backup is supposed to hold. */
  function Wanted(tools: Tools, files: Files): Files {
    map p | p in files && InScope(tools, p) :: FileBytes(tools, p, files[p])
  }

  lemma PackedName(tools: Tools, files: Files, a: Archive, packed: seq<Parts>, listing: seq<Parts>, i: nat)
    requires Lists(listing, files) && IsBackup(tools, files, a, packed) && i < |packed|
    ensures i < |a| && PartsOf(a[i].name) == packed[i] && a[i].name != MANIFEST && !Absolute(a[i].name)
  {
    assert packed[i] in packed && Relative(packed[i]);
    NameReadsBack(packed[i]);
    InScopeIsDeep(tools, packed[i]);
    NameReadsBack([MANIFEST]);
    assert Join([MANIFEST]) == MANIFEST;
  }

  /** Distinct packed files have distinct names, none of them the manifest's. */
  lemma NamesAreDistinct(tools: Tools, files: Files, a: Archive, packed: seq<Parts>, listing: seq<Parts>)
    requires Lists(listing, files) && IsBackup(tools, files, a, packed)
    ensures forall i :: 0 <= i < |packed| ==> PartsOf(a[i].name) == packed[i] && a[i].name != MANIFEST && !Absolute(a[i].name)
    ensures forall i, j :: 0 <= i < j < |a| ==> a[i].name != a[j].name
  {
    hide PartsOf, Join, InScope, Lists, Absolute, FileBytes;
    forall i | 0 <= i < |packed| ensures PartsOf(a[i].name) == packed[i] && a[i].name != MANIFEST && !Absolute(a[i].name) {
      PackedName(tools, files, a, packed, listing, i);
    }
  }

  /** Every allowed root is at least one directory down, so a packed file never takes the manifest's name. */
  lemma InScopeIsDeep(tools: Tools, p: Parts)
    requires InScope(tools, p)
    ensures |p| >= 2
  {
    var i :| 0 <= i < |ALLOWED_ROOTS| && Selected(tools, ALLOWED_ROOTS[i], p);
    assert |ALLOWED_ROOTS[i]| >= 1;
  }

  lemma {:induction false} ReadDistinct(a: Archive, i: nat)
    requires i < |a| && forall j, k :: 0 <= j < k < |a| ==> a[j].name != a[k].name
    ensures Read(a, a[i].name) == Some(a[i].data)
  {
    if i < |a| - 1 {
      ReadDistinct(a[..|a| - 1], i);
    }
  }

  lemma {:induction false} ExpectedAt(entries: seq<Entry>, i: nat)
    requires forall i, j :: 0 <= i < j < |entries| ==> entries[i].path != entries[j].path
    requires i < |entries|
    ensures entries[i].path in Expected(entries) && Expected(entries)[entries[i].path] == entries[i]
  {
    var n := |entries| - 1;
    if i < n {
      ExpectedAt(entries[..n], i);
    }
  }

  lemma {:induction false} ExpectedPaths(entries: seq<Entry>, path: string)
    ensures path in Expected(entries) <==> exists i :: 0 <= i < |entries| && entries[i].path == path
  {
    if entries != [] {
      var n := |entries| - 1;
      ExpectedPaths(entries[..n], path);
      assert forall i :: 0 <= i < n ==> entries[..n][i] == entries[i];
    }
  }

  lemma PackedMember(tools: Tools, listing: seq<Parts>, files: Files, a: Archive, packed: seq<Parts>, i: nat)
    requires Lists(listing, files) && IsBackup(tools, files, a, packed) && i < |packed|
    ensures var e := Entries(tools, files, packed)[i];
            e.path == a[i].name && Matches(a, a[i].name, e)
    ensures Read(a, a[i].name) == Some(FileBytes(tools, packed[i], files[packed[i]]))
  {
    NamesAreDistinct(tools, files, a, packed, listing);
    hide PartsOf, Read, Join;
    ReadDistinct(a, i);
    assert packed[i] in packed && Relative(packed[i]);
    forall c | c in packed[i] ensures c != ".." {
      assert Plain(c);
    }
  }

  lemma ManifestIsRead(tools: Tools, listing: seq<Parts>, files: Files, a: Archive, packed: seq<Parts>)
    requires Lists(listing, files) && IsBackup(tools, files, a, packed)
    ensures Read(a, MANIFEST) == Some(tools.encode(Entries(tools, files, packed)))
  {
    NamesAreDistinct(tools, files, a, packed, listing);
    hide PartsOf, Join, Entries, InScope;
    ReadDistinct(a, |packed|);
  }

  lemma EntriesMatch(tools: Tools, listing: seq<Parts>, files: Files, a: Archive, packed: seq<Parts>)
    requires Lists(listing, files) && IsBackup(tools, files, a, packed)
    ensures var expected := Expected(Entries(tools, files, packed));
            Names(a) == expected.Keys && forall n :: n in expected ==> Matches(a, n, expected[n])
  {
    NamesAreDistinct(tools, files, a, packed, listing);
    var entries := Entries(tools, files, packed);
    forall i | 0 <= i < |packed| ensures entries[i].path == a[i].name && Matches(a, a[i].name, entries[i]) {
      PackedMember(tools, listing, files, a, packed, i);
    }
    hide PartsOf, Read, Join, Matches, Expected, InScope, IsBackup, Lists, Entries;
    assert |a| == |entries| + 1 && a[|entries|].name == MANIFEST by { MembersCount(tools, files, a, packed); }
    NamesMatchEntries(a, entries);
    forall n | n in Expected(entries) ensures Matches(a, n, Expected(entries)[n]) {
      ExpectedPaths(entries, n);
      var i :| 0 <= i < |entries| && entries[i].path == n;
      ExpectedAt(entries, i);
    }
  }

  lemma MembersCount(tools: Tools, files: Files, a: Archive, packed: seq<Parts>)
    requires IsBackup(tools, files, a, packed)
    ensures |Entries(tools, files, packed)| == |packed| && |a| == |packed| + 1 && a[|packed|].name == MANIFEST
  {
  }

  /** Verification accepts every archive that a backup makes. */
  lemma BackupVerifies(tools: Tools, listing: seq<Parts>, files: Files, a: Archive, packed: seq<Parts>)
    requires tools.Valid() && Lists(listing, files) && IsBackup(tools, files, a, packed)
    ensures Accepted(tools, a)
  {
    ManifestIsRead(tools, listing, files, a, packed);
    EntriesMatch(tools, listing, files, a, packed);
    hide PartsOf, Read, Matches, Expected, InScope, IsBackup, Lists, Entries, Names;
    var entries := Entries(tools, files, packed);
    assert tools.decode(tools.encode(entries)) == Some(entries);
  }

  lemma NamesMatchEntries(a: Archive, entries: seq<Entry>)
    requires |a| == |entries| + 1 && a[|entries|].name == MANIFEST
    requires forall i :: 0 <= i < |entries| ==> entries[i].path == a[i].name != MANIFEST
    ensures Names(a) == Expected(entries).Keys
  {
    hide Expected, Names;
    forall n ensures n in Names(a) <==> n in Expected(entries) {
      ExpectedPaths(entries, n);
      NameOfMember(a, n);
    }
  }

  lemma NameOfMember(a: Archive, n: string)
    ensures n in Names(a) <==> n != MANIFEST && exists i :: 0 <= i < |a| && a[i].name == n
  {
    if i :| 0 <= i < |a| && a[i].name == n {
      assert a[i] in a;
    }
  }

  lemma RestoredOneMore(tools: Tools, listing: seq<Parts>, files: Files, a: Archive, packed: seq<Parts>, n: nat)
    requires Lists(listing, files) && IsBackup(tools, files, a, packed) && n < |packed|
    ensures packed[n] in files
    ensures Restored(a, n + 1) == Restored(a, n)[packed[n] := FileBytes(tools, packed[n], files[packed[n]])]
  {
    NamesAreDistinct(tools, files, a, packed, listing);
    PackedMember(tools, listing, files, a, packed, n);
    assert packed[n] in packed;
    hide PartsOf, Read, Join, FileBytes, Lists, IsBackup, InScope;
  }

  lemma {:induction false} RestoredUpTo(tools: Tools, listing: seq<Parts>, files: Files, a: Archive, packed: seq<Parts>,
                                        n: nat)
    requires Lists(listing, files) && IsBackup(tools, files, a, packed) && n <= |packed|
    ensures forall p :: p in Restored(a, n) <==> p in packed[..n]
    ensures forall p :: p in Restored(a, n) ==> p in files && Restored(a, n)[p] == FileBytes(tools, p, files[p])
  {
    hide FileBytes, Lists, IsBackup, Restored;
    PackedCount(tools, files, a, packed);
    if n == 0 {
      NothingRestored(a);
    } else {
      RestoredUpTo(tools, listing, files, a, packed, n - 1);
      RestoredOneMore(tools, listing, files, a, packed, n - 1);
      OneMoreFile(packed, n - 1, Restored(a, n - 1), Restored(a, n));
    }
  }

  lemma OneMoreFile(packed: seq<Parts>, n: nat, t: Files, u: Files)
    requires n < |packed| && u.Keys == t.Keys + {packed[n]} && forall q :: q in t <==> q in packed[..n]
    ensures forall q :: q in u <==> q in packed[..n + 1]
  {
    assert packed[..n + 1] == packed[..n] + [packed[n]];
  }

  lemma PackedCount(tools: Tools, files: Files, a: Archive, packed: seq<Parts>)
    requires IsBackup(tools, files, a, packed)
    ensures |a| == |packed| + 1
  {
  }

  lemma TargetIsFile(tools: Tools, listing: seq<Parts>, files: Files, a: Archive, packed: seq<Parts>, p: Parts)
    requires Lists(listing, files) && IsBackup(tools, files, a, packed) && IsTarget(a, p)
    ensures p in files && p != []
  {
    NamesAreDistinct(tools, files, a, packed, listing);
    hide PartsOf, Join, InScope;
    var i :| 0 <= i < |a| && a[i].name != MANIFEST && PartsOf(a[i].name) == p;
    assert p == packed[i] && packed[i] in packed && Relative(p);
  }

  lemma BackupFits(tools: Tools, listing: seq<Parts>, files: Files, a: Archive, packed: seq<Parts>)
    requires Lists(listing, files) && IsBackup(tools, files, a, packed)
    ensures Fits(a)
  {
    hide IsTarget, IsBackup;
    forall p | IsTarget(a, p) ensures p in files && p != [] {
      TargetIsFile(tools, listing, files, a, packed, p);
    }
  }

  /**
   Backing up and restoring into an empty directory gives exactly the files in scope with the bytes that were packed:
   the archive verifies, its members fit together, and what is restored is what was wanted.
   */
  lemma RoundTrip(tools: Tools, listing: seq<Parts>, files: Files, a: Archive, packed: seq<Parts>)
    requires tools.Valid() && Lists(listing, files) && IsBackup(tools, files, a, packed)
    ensures Accepted(tools, a) && Fits(a)
    ensures IsCopy(tools, files, Restored(a, |a|))
    ensures Restored(a, |a|) == Wanted(tools, files)
  {
    hide Accepted, Fits, Lists, FileBytes, Wanted, InScope, IsBackup, Restored, IsCopy;
    WantedIsCopy(tools, files);
    BackupVerifies(tools, listing, files, a, packed);
    BackupFits(tools, listing, files, a, packed);
    PackedCount(tools, files, a, packed);
    RestoredUpTo(tools, listing, files, a, packed, |packed|);
    assert packed[..|packed|] == packed;
    PackedAreInScope(tools, files, a, packed);
    RestoredIsWanted(tools, files, packed, Restored(a, |packed|));
    ManifestIsNotRestored(tools, files, a, packed);
  }

  lemma PackedAreInScope(tools: Tools, files: Files, a: Archive, packed: seq<Parts>)
    requires IsBackup(tools, files, a, packed)
    ensures forall p :: p in packed <==> p in files && InScope(tools, p)
  {
  }

  lemma ManifestIsNotRestored(tools: Tools, files: Files, a: Archive, packed: seq<Parts>)
    requires IsBackup(tools, files, a, packed)
    ensures Restored(a, |a|) == Restored(a, |packed|)
  {
  }

  lemma RestoredIsWanted(tools: Tools, files: Files, packed: seq<Parts>, t: Files)
    requires forall p :: p in packed <==> p in files && InScope(tools, p)
    requires forall p :: p in t <==> p in packed
    requires forall p :: p in t ==> p in files && t[p] == FileBytes(tools, p, files[p])
    ensures t == Wanted(tools, files)
  {
    hide InScope, FileBytes;
  }

  /** An archive placed under an allowed root under an allowed name packs a part of itself; any other does not. */
  lemma WantedAtWalk(tools: Tools, files: Files, output: Option<Parts>, partial: Bytes)
    ensures Wanted(tools, AtWalk(files, output, partial)) ==
            if output.Some? && InScope(tools, output.value)
            then Wanted(tools, files)[output.value := FileBytes(tools, output.value, partial)]
            else Wanted(tools, files)
  {
    hide InScope, FileBytes;
  }

  /** A backup, restored into an empty directory. */
  method BackupAndRestore(tools: Tools, listing: seq<Parts>, files: Files, output: Option<Parts>, partial: Bytes,
                          d: Directory) returns (r: Result<nat, BackupError>)
    requires tools.Valid() && Lists(listing, AtWalk(files, output, partial)) && d.files == map[]
    modifies d
    ensures r.Ok? && IsCopy(tools, if output.Some? then files[output.value := partial] else files, d.files)
  {
    hide Lists, IsBackup, Accepted, Fits, Restored, Wanted, IsCopy;
    var a := CreateBackup(tools, listing, files, output, partial);
    ghost var packed :| IsBackup(tools, AtWalk(files, output, partial), a, packed);
    RoundTrip(tools, listing, AtWalk(files, output, partial), a, packed);
    r := d.RestoreBackup(tools, a);
    assert map[] + Restored(a, |a|) == Restored(a, |a|);
  }
}
