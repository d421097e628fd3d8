/** Slash-separated archive names and their path components. */
module ArchivePaths {

  type Parts = seq<string>

  const SLASH := '/'

  function Split(s: string): (parts: seq<string>)
    ensures parts != []
  {
    if s == "" then [""]
    else if s[0] == SLASH then [""] + Split(s[1..])
    else var rest := Split(s[1..]); [[s[0]] + rest[0]] + rest[1..]
  }

  function Join(parts: Parts): string {
    if parts == [] then ""
    else if |parts| == 1 then parts[0]
    else parts[0] + [SLASH] + Join(parts[1..])
  }

  function Named(parts: seq<string>): Parts {
    if parts == [] then []
    else (if parts[0] == "" || parts[0] == "." then [] else [parts[0]]) + Named(parts[1..])
  }

  /** Empty and single-dot components do not count. */
  function PartsOf(name: string): Parts {
    Named(Split(name))
  }

  predicate Absolute(name: string) {
    name != "" && name[0] == SLASH
  }

  predicate Plain(component: string) {
    component != "" && component != "." && component != ".." && SLASH !in component
  }

  predicate Relative(parts: Parts) {
    parts != [] && forall c :: c in parts ==> Plain(c)
  }

  lemma {:induction false} SplitComponent(c: string, s: string)
    requires SLASH !in c
    ensures Split(c + [SLASH] + s) == [c] + Split(s)
    ensures Split(c) == [c]
  {
    if c == "" {
      assert "" + [SLASH] + s == [SLASH] + s;
      assert ([SLASH] + s)[1..] == s;
    } else {
      SplitComponent(c[1..], s);
      assert (c + [SLASH] + s)[1..] == c[1..] + [SLASH] + s;
      assert [c[0]] + c[1..] == c;
    }
  }

  lemma {:induction false} SplitJoin(parts: Parts)
    requires Relative(parts)
    ensures Split(Join(parts)) == parts
  {
    assert parts[0] in parts;
    if |parts| == 1 {
      SplitComponent(parts[0], "");
    } else {
      assert forall c :: c in parts[1..] ==> c in parts;
      SplitJoin(parts[1..]);
      SplitComponent(parts[0], Join(parts[1..]));
    }
  }

  lemma {:induction false} NamedKeepsPlain(parts: Parts)
    requires forall c :: c in parts ==> Plain(c)
    ensures Named(parts) == parts
  {
    if parts != [] {
      assert parts[0] in parts;
      assert forall c :: c in parts[1..] ==> c in parts;
      NamedKeepsPlain(parts[1..]);
    }
  }

  /** Exactly the empty and the single-dot components are dropped; the others stay as they are, in order. */
  lemma {:induction false} NamedMeans(parts: seq<string>, more: seq<string>, c: string)
    ensures Named([c]) == if c == "" || c == "." then [] else [c]
    ensures Named(parts + more) == Named(parts) + Named(more)
  {
    if parts == [] {
      assert parts + more == more;
    } else {
      assert (parts + more)[1..] == parts[1..] + more;
      NamedMeans(parts[1..], more, c);
    }
  }

  /** A relative path reads back from its name, so different paths have different names. */
  lemma NameReadsBack(parts: Parts)
    requires Relative(parts)
    ensures PartsOf(Join(parts)) == parts && !Absolute(Join(parts))
  {
    SplitJoin(parts);
    NamedKeepsPlain(parts);
    assert parts[0] in parts;
    if |parts| > 1 {
      assert Join(parts)[0] == parts[0][0];
    }
    assert parts[0][0] in parts[0];
  }
}
