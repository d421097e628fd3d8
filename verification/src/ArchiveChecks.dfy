/**
 What verification accepts and what restoring writes, said on the members and entries themselves: the last member of a
 name, the last entry of a path, and the characters of a name.
 */
module ArchiveChecks {
  import opened Wrappers
  import opened ArchivePaths
  import opened RuntimeBackup

  /** Member `i` is the last one of its name, so it is the one that is read. */
  predicate LastMember(a: Archive, name: string, i: nat) {
    i < |a| && a[i].name == name && forall j :: i < j < |a| ==> a[j].name != name
  }

  predicate LastEntry(entries: seq<Entry>, path: string, i: nat) {
    i < |entries| && entries[i].path == path && forall j :: i < j < |entries| ==> entries[j].path != path
  }

  lemma {:induction false} ReadIsLast(a: Archive, name: string) returns (i: nat)
    ensures Read(a, name).Some? <==> exists j :: 0 <= j < |a| && a[j].name == name
    ensures Read(a, name).Some? ==> LastMember(a, name, i) && Read(a, name) == Some(a[i].data)
  {
    i := 0;
    if a != [] {
      var n := |a| - 1;
      if a[n].name == name {
        i := n;
      } else {
        i := ReadIsLast(a[..n], name);
        assert forall j :: 0 <= j < n ==> a[..n][j] == a[j];
      }
    }
  }

  lemma {:induction false} ExpectedIsLast(entries: seq<Entry>, path: string) returns (i: nat)
    ensures path in Expected(entries) ==> LastEntry(entries, path, i) && Expected(entries)[path] == entries[i]
  {
    i := 0;
    if entries != [] {
      var n := |entries| - 1;
      if entries[n].path == path {
        i := n;
      } else {
        i := ExpectedIsLast(entries[..n], path);
        assert forall j :: 0 <= j < n ==> entries[..n][j] == entries[j];
      }
    }
  }

  lemma OneLast(a: Archive, name: string, i: nat, j: nat)
    requires LastMember(a, name, i) && LastMember(a, name, j)
    ensures i == j
  {
  }

  lemma OneLastEntry(entries: seq<Entry>, path: string, i: nat, j: nat)
    requires LastEntry(entries, path, i) && LastEntry(entries, path, j)
    ensures i == j
  {
  }

  // ---- names that stay inside ----

  /** The component `..` occurs between slashes or the ends of the text. */
  ghost predicate ClimbsUp(name: string) {
    exists a, b :: Around(a, b) && name == a + ".." + b
  }

  /** What may stand before and after a whole component. */
  predicate Around(a: string, b: string) {
    (a == "" || a[|a| - 1] == '/') && (b == "" || b[0] == '/')
  }

  lemma SplitNext(s: string)
    requires s != ""
    ensures Split(s) == if s[0] == '/' then [""] + Split(s[1..])
                        else [[s[0]] + Split(s[1..])[0]] + Split(s[1..])[1..]
  {
  }

  /** The parts of a name are read off from the left: a text that ends in a slash adds its own, at least one. */
  lemma {:induction false} PartBefore(a: string, s: string) returns (before: seq<string>)
    requires a == "" || a[|a| - 1] == '/'
    ensures Split(a + s) == before + Split(s) && (a != "" ==> before != [])
  {
    if a == "" {
      assert a + s == s;
      before := [];
    } else {
      SplitNext(a + s);
      hide Split;
      var rest := PartBefore(a[1..], s);
      assert (a + s)[1..] == a[1..] + s && (a + s)[0] == a[0];
      if a[0] == '/' {
        before := [""] + rest;
      } else {
        before := [[a[0]] + rest[0]] + rest[1..];
        LongerFirst(a[0], rest, Split(s));
      }
    }
  }

  lemma LongerFirst(c: char, rest: seq<string>, more: seq<string>)
    requires rest != []
    ensures [[c] + (rest + more)[0]] + (rest + more)[1..] == [[c] + rest[0]] + rest[1..] + more
  {
    assert (rest + more)[1..] == rest[1..] + more;
  }

  lemma ClimbsIfSpelled(a: string, b: string)
    requires Around(a, b)
    ensures ".." in Split(a + ".." + b)
  {
    var before := PartBefore(a, ".." + b);
    assert a + ".." + b == a + (".." + b);
    if b == "" {
      SplitComponent("..", "");
      assert ".." + b == "..";
    } else {
      SplitComponent("..", b[1..]);
      assert ".." + b == ".." + [SLASH] + b[1..];
    }
    assert Split(".." + b)[0] == "..";
    assert (before + Split(".." + b))[|before|] == "..";
  }

  /** Every part of a text stands between slashes or the ends. */
  lemma {:induction false} PartIsThere(s: string, k: nat) returns (a: string, b: string)
    requires k < |Split(s)|
    ensures s == a + Split(s)[k] + b && Around(a, b)
    ensures k == 0 <==> a == ""
  {
    if s == "" {
      a, b := "", "";
    } else if s[0] == SLASH {
      if k == 0 {
        a, b := "", s;
      } else {
        a, b := PartIsThere(s[1..], k - 1);
        assert s == [SLASH] + s[1..];
        a := [SLASH] + a;
      }
    } else {
      a, b := PartIsThere(s[1..], k);
      assert s == [s[0]] + s[1..];
      if k > 0 {
        a := [s[0]] + a;
      }
    }
  }

  lemma {:induction false} NamedKeepsDots(parts: seq<string>)
    ensures ".." in Named(parts) <==> ".." in parts
  {
    if parts != [] {
      NamedKeepsDots(parts[1..]);
      assert parts == [parts[0]] + parts[1..];
    }
  }

  /** A name is safe exactly if it is not absolute, has no component `..` and is not the manifest's. */
  lemma SafeMeans(name: string)
    ensures SafeMember(name) <==> (name == "" || name[0] != '/') && !ClimbsUp(name) && name != "manifest.json"
  {
    NamedKeepsDots(Split(name));
    hide Split, Named;
    if ".." in Split(name) {
      var k :| 0 <= k < |Split(name)| && Split(name)[k] == "..";
      var a, b := PartIsThere(name, k);
      assert name == a + ".." + b;
    }
    if ClimbsUp(name) {
      var a, b :| Around(a, b) && name == a + ".." + b;
      ClimbsIfSpelled(a, b);
    }
  }

  // ---- what is accepted ----

  /** The manifest's entry for a name agrees with the member that is read under it. */
  ghost predicate Agrees(a: Archive, entries: seq<Entry>, name: string) {
    && (name == "" || name[0] != '/') && !ClimbsUp(name)
    && exists i: nat, j: nat ::
         LastMember(a, name, i) && LastEntry(entries, name, j)
         && |a[i].data| == entries[j].size && Sha256(a[i].data) == entries[j].sha256
  }

  /** The archive has a readable manifest that lists exactly its other names, and each entry agrees. */
  ghost predicate Sound(tools: Tools, a: Archive) {
    exists k: nat ::
      && LastMember(a, "manifest.json", k) && tools.decode(a[k].data).Some?
      && SoundFor(a, tools.decode(a[k].data).value)
  }

  ghost predicate SoundFor(a: Archive, entries: seq<Entry>) {
    && (forall m :: m in a && m.name != "manifest.json" ==> Listed(entries, m.name))
    && (forall e :: e in entries ==> Agrees(a, entries, e.path) && e.path != "manifest.json")
  }

  lemma MatchesMeans(a: Archive, entries: seq<Entry>, name: string)
    requires name in Expected(entries)
    ensures Matches(a, name, Expected(entries)[name]) <==> Agrees(a, entries, name) && name != "manifest.json"
  {
    SafeMeans(name);
    var i := ReadIsLast(a, name);
    var j := ExpectedIsLast(entries, name);
    hide SafeMember, ClimbsUp, Read, Expected;
    if Matches(a, name, Expected(entries)[name]) {
      assert LastMember(a, name, i) && LastEntry(entries, name, j);
    }
    if Agrees(a, entries, name) {
      AgreesOn(a, entries, name, i, j);
    }
  }

  lemma AgreesOn(a: Archive, entries: seq<Entry>, name: string, i: nat, j: nat)
    requires Agrees(a, entries, name)
    requires (exists k :: 0 <= k < |a| && a[k].name == name) ==> LastMember(a, name, i)
    requires LastEntry(entries, name, j)
    ensures LastMember(a, name, i) && |a[i].data| == entries[j].size && Sha256(a[i].data) == entries[j].sha256
    ensures exists k :: 0 <= k < |a| && a[k].name == name
  {
    var i': nat, j': nat :| LastMember(a, name, i') && LastEntry(entries, name, j')
      && |a[i'].data| == entries[j'].size && Sha256(a[i'].data) == entries[j'].sha256;
    assert a[i'].name == name;
    OneLast(a, name, i, i');
    OneLastEntry(entries, name, j, j');
  }

  lemma SoundForMeans(a: Archive, entries: seq<Entry>)
    ensures Names(a) == Expected(entries).Keys && (forall n :: n in Expected(entries) ==> Matches(a, n, Expected(entries)[n]))
            <==> SoundFor(a, entries)
  {
    forall n ensures n in Expected(entries) <==> Listed(entries, n) {
      ExpectedPaths(entries, n);
      if i :| 0 <= i < |entries| && entries[i].path == n {
        assert entries[i] in entries;
      }
    }
    forall n | n in Expected(entries)
      ensures Matches(a, n, Expected(entries)[n]) <==> Agrees(a, entries, n) && n != "manifest.json"
    {
      MatchesMeans(a, entries, n);
    }
    hide Matches, Expected, Agrees;
    NamesMean(a, entries);
  }

  /** Some entry has this path. */
  ghost predicate Listed(entries: seq<Entry>, path: string) {
    exists e :: e in entries && e.path == path
  }

  lemma NamesMean(a: Archive, entries: seq<Entry>)
    requires forall n :: n in Expected(entries) <==> Listed(entries, n)
    requires forall n :: n in Expected(entries) ==>
               (Matches(a, n, Expected(entries)[n]) <==> Agrees(a, entries, n) && n != "manifest.json")
    ensures Names(a) == Expected(entries).Keys && (forall n :: n in Expected(entries) ==> Matches(a, n, Expected(entries)[n]))
            <==> SoundFor(a, entries)
  {
    hide Matches, Expected, Agrees;
    if Names(a) == Expected(entries).Keys && forall n :: n in Expected(entries) ==> Matches(a, n, Expected(entries)[n]) {
      MatchedIsSound(a, entries);
    }
    if SoundFor(a, entries) {
      SoundIsMatched(a, entries);
    }
  }

  lemma MatchedIsSound(a: Archive, entries: seq<Entry>)
    requires forall n :: n in Names(a) <==> Listed(entries, n)
    requires forall n :: Listed(entries, n) ==> Agrees(a, entries, n) && n != "manifest.json"
    ensures SoundFor(a, entries)
  {
    hide Agrees;
    forall m | m in a && m.name != "manifest.json" ensures Listed(entries, m.name) {
      assert m.name in Names(a);
    }
    forall e | e in entries ensures Agrees(a, entries, e.path) && e.path != "manifest.json" {
      assert Listed(entries, e.path);
    }
  }

  lemma SoundIsMatched(a: Archive, entries: seq<Entry>)
    requires SoundFor(a, entries)
    ensures forall n :: n in Names(a) <==> Listed(entries, n)
    ensures forall n :: Listed(entries, n) ==> Agrees(a, entries, n) && n != "manifest.json"
  {
    hide ClimbsUp;
    forall n ensures n in Names(a) ==> Listed(entries, n) {
      if n in Names(a) {
        var m :| m in a && m.name != "manifest.json" && m.name == n;
      }
    }
    forall n | Listed(entries, n) ensures Agrees(a, entries, n) && n != "manifest.json" && n in Names(a) {
      AgreedIsNamed(a, entries, n);
    }
  }

  lemma AgreedIsNamed(a: Archive, entries: seq<Entry>, n: string)
    requires SoundFor(a, entries) && Listed(entries, n)
    ensures Agrees(a, entries, n) && n != "manifest.json" && n in Names(a)
  {
    hide ClimbsUp;
    var e :| e in entries && e.path == n;
    assert Agrees(a, entries, e.path);
    var i: nat, j: nat :| LastMember(a, n, i) && LastEntry(entries, n, j)
      && |a[i].data| == entries[j].size && Sha256(a[i].data) == entries[j].sha256;
    assert a[i] in a;
  }

  /** Verification accepts exactly the sound archives. */
  lemma AcceptedMeans(tools: Tools, a: Archive)
    ensures Accepted(tools, a) <==> Sound(tools, a)
  {
    var k := ReadIsLast(a, "manifest.json");
    if Read(a, "manifest.json").Some? && tools.decode(a[k].data).Some? {
      SoundForMeans(a, tools.decode(a[k].data).value);
    }
    hide Read, Matches, SoundFor, Names, Expected;
    if Sound(tools, a) {
      var i: nat :| LastMember(a, "manifest.json", i) && tools.decode(a[i].data).Some?
        && SoundFor(a, tools.decode(a[i].data).value);
      OneLast(a, "manifest.json", i, k);
    }
  }

  // ---- what is restored ----

  /** Member `i` is written to place `p`: any member but the manifest. */
  predicate GoesTo(a: Archive, p: Parts, i: nat) {
    i < |a| && a[i].name != "manifest.json" && PartsOf(a[i].name) == p
  }

  predicate SomeGoesTo(a: Archive, n: nat, p: Parts) {
    exists i :: 0 <= i < n && GoesTo(a, p, i)
  }

  predicate LastGoesTo(a: Archive, n: nat, p: Parts, i: nat) {
    i < n && GoesTo(a, p, i) && forall j :: i < j < n ==> !GoesTo(a, p, j)
  }

  lemma RestoredNext(a: Archive, n: nat, p: Parts)
    requires 0 < n <= |a| && (a[n - 1].name != "manifest.json" ==> Read(a, a[n - 1].name).Some?)
    ensures SomeGoesTo(a, n, p) <==> SomeGoesTo(a, n - 1, p) || GoesTo(a, p, n - 1)
    ensures p in Restored(a, n) <==> p in Restored(a, n - 1) || GoesTo(a, p, n - 1)
    ensures GoesTo(a, p, n - 1) ==> Read(a, a[n - 1].name) == Some(Restored(a, n)[p])
    ensures p in Restored(a, n - 1) && !GoesTo(a, p, n - 1) ==> Restored(a, n)[p] == Restored(a, n - 1)[p]
  {
    hide PartsOf, Read;
    assert Restored(a, n)
        == if a[n - 1].name == MANIFEST then Restored(a, n - 1)
           else Restored(a, n - 1)[PartsOf(a[n - 1].name) := Read(a, a[n - 1].name).value];
    hide Restored;
  }

  lemma LastNext(a: Archive, n: nat, p: Parts, i: nat)
    requires n > 0
    ensures GoesTo(a, p, n - 1) ==> LastGoesTo(a, n, p, n - 1)
    ensures !GoesTo(a, p, n - 1) && LastGoesTo(a, n - 1, p, i) ==> LastGoesTo(a, n, p, i)
  {
    hide GoesTo;
  }

  ghost predicate AllRead(a: Archive) {
    forall m :: m in a && m.name != "manifest.json" ==> Read(a, m.name).Some?
  }

  lemma ReadAt(a: Archive, i: nat)
    requires AllRead(a) && i < |a|
    ensures a[i].name != "manifest.json" ==> Read(a, a[i].name).Some?
  {
    hide Read;
    assert a[i] in a;
  }

  lemma NothingGoes(a: Archive, p: Parts)
    ensures p !in Restored(a, 0) && !SomeGoesTo(a, 0, p)
  {
    NothingRestored(a);
  }

  /** Restoring an accepted archive writes every member but the manifest, the last one for each place. */
  lemma {:induction false} RestoredMeans(a: Archive, n: nat, p: Parts) returns (i: nat)
    requires n <= |a| && AllRead(a)
    ensures p in Restored(a, n) <==> SomeGoesTo(a, n, p)
    ensures p in Restored(a, n) ==> LastGoesTo(a, n, p, i) && i < |a| && Read(a, a[i].name) == Some(Restored(a, n)[p])
  {
    hide PartsOf, Read, Restored, SomeGoesTo, GoesTo, AllRead, LastGoesTo;
    i := 0;
    if n == 0 {
      NothingGoes(a, p);
    } else {
      ReadAt(a, n - 1);
      RestoredNext(a, n, p);
      i := RestoredMeans(a, n - 1, p);
      LastNext(a, n, p, i);
      if GoesTo(a, p, n - 1) {
        i := n - 1;
      }
    }
  }

  lemma AcceptedIsRead(tools: Tools, a: Archive)
    requires Accepted(tools, a)
    ensures AllRead(a)
  {
    hide Read, Expected, PartsOf;
    forall m | m in a && m.name != "manifest.json" ensures Read(a, m.name).Some? {
      var expected := Expected(tools.decode(Read(a, MANIFEST).value).value);
      assert m.name in Names(a);
      assert Matches(a, m.name, expected[m.name]);
    }
  }
}
