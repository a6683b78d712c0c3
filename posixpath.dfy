/** The parts of Python's `os.path` (POSIX flavour) the downloader uses. */
module PosixPath {
  import opened Text

  /** `os.path.join(a, b)`: an absolute `b` wins; otherwise one '/' separates
      them. (`PathJoinAt` carries the definition one step down, so that a
      joined path stays folded wherever only its identity matters.) */
  function PathJoin(a: string, b: string): (r: string)
    ensures StartsWith(b, "/") ==> r == b
    ensures !StartsWith(b, "/") ==> EndsWith(r, b)
  {
    PathJoinAt(a, b, |b| + 1)
  }

  function PathJoinAt(a: string, b: string, depth: nat): (r: string)
    ensures StartsWith(b, "/") ==> r == b
    ensures !StartsWith(b, "/") ==> EndsWith(r, b)
    decreases depth
  {
    if depth > |b| then PathJoinAt(a, b, |b|)
    else if StartsWith(b, "/") then b
    else if a == "" || EndsWith(a, "/") then a + b
    else a + "/" + b
  }

  lemma PathJoinDef(a: string, b: string)
    ensures PathJoin(a, b) == if StartsWith(b, "/") then b else if a == "" || EndsWith(a, "/") then a + b else a + "/" + b
  {
    assert PathJoin(a, b) == PathJoinAt(a, b, |b|);
  }

  /** `os.path.basename(p)`: what follows the last '/'. */
  function BaseName(p: string): (r: string)
    ensures '/' !in r
  {
    AfterLast(p, '/')
  }

  predicate AllChars(s: string, c: char) {
    forall k :: 0 <= k < |s| ==> s[k] == c
  }

  /** `s.rstrip('/')`. */
  function RStripSlashes(s: string): (r: string)
    ensures |r| <= |s| && r == s[..|r|]
    ensures !EndsWith(r, "/")
  {
    if |s| > 0 && s[|s| - 1] == '/' then RStripSlashes(s[..|s| - 1]) else s
  }

  /** `os.path.split(p)[0]`: everything before the last component, trailing
      slashes removed unless the head is nothing but slashes. */
  function DirName(p: string): string
  {
    var head := p[..LastIndex(p, '/') + 1];
    if head != "" && !AllChars(head, '/') then RStripSlashes(head) else head
  }

  /** `os.path.splitext(b)[1]` for a base name `b` (no '/'): the text from the
      last '.', unless only dots precede it (a leading-dot name has no extension). */
  function Ext(b: string): (r: string)
    ensures r == "" || r[0] == '.'
  {
    var d := LastIndex(b, '.');
    if d > 0 && !AllChars(b[..d], '.') then b[d..] else ""
  }

  /** Joining a directory and a plain entry name, then taking the base name,
      gives the entry back. */
  lemma BaseNameOfJoin(dir: string, name: string)
    requires '/' !in name
    ensures BaseName(PathJoin(dir, name)) == name
  {
    assert !StartsWith(name, "/") by {
      if |name| >= 1 { assert name[..1][0] == name[0]; }
    }
    PathJoinDef(dir, name);
    var p := PathJoin(dir, name);
    var i := LastIndex(p, '/');
    if dir == "" {
      assert p == name;
      assert i == -1;
    } else if EndsWith(dir, "/") {
      assert p == dir + name;
      assert p[|dir| - 1] == '/';
      assert forall k :: |dir| <= k < |p| ==> p[k] == name[k - |dir|];
      assert i == |dir| - 1;
      assert p[i + 1..] == name;
    } else {
      assert p == dir + "/" + name;
      assert p[|dir|] == '/';
      assert forall k :: |dir| + 1 <= k < |p| ==> p[k] == name[k - |dir| - 1];
      assert i == |dir|;
      assert p[i + 1..] == name;
    }
  }

  /** A name that does not start with a dot and ends in `"." + x`, with no dot
      in `x`, has extension `"." + x`. */
  lemma ExtOfSuffix(b: string, x: string)
    requires '.' !in x
    requires EndsWith(b, "." + x) && |b| > |x| + 1
    requires b[0] != '.'
    ensures Ext(b) == "." + x
  {
    var d := |b| - |x| - 1;
    assert b[d] == '.' by { assert b[d..] == "." + x; }
    forall k | d < k < |b| ensures b[k] != '.' {
      assert b[k] == x[k - d - 1] by { assert b[d..] == "." + x; }
    }
    assert LastIndex(b, '.') == d;
    assert b[..d][0] != '.';
  }
}
