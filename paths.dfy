/**
 * The POSIX path functions of Python's `os.path` that the program calls:
 * `splitext`, `basename`, `dirname` and `join`, written as functions on
 * strings with '/' as the only separator.
 */
module Paths {
  import opened Text

  /** `s.rfind(c)`: the index of the last c in s, or -1 when there is none. */
  function RFind(s: string, c: char): (i: int)
    ensures -1 <= i < |s|
    ensures 0 <= i ==> s[i] == c
    ensures forall j :: i < j < |s| ==> s[j] != c
  {
    if |s| == 0 then -1
    else if s[|s| - 1] == c then |s| - 1
    else RFind(s[..|s| - 1], c)
  }

  /** The last occurrence of c is determined by the two facts above. */
  lemma RFindUnique(s: string, c: char, i: int)
    requires -1 <= i < |s|
    requires 0 <= i ==> s[i] == c
    requires forall j :: i < j < |s| ==> s[j] != c
    ensures RFind(s, c) == i
  {
    var k := RFind(s, c);
    assert 0 <= i ==> s[i] == c;
    assert 0 <= k ==> s[k] == c;
  }

  /** d is the dot where the extension of p starts: the last '.' of p, in
      the last path component, with a character other than '.' before it in
      that component (so ".mp3" and "dir/..mp3" have no extension). */
  ghost predicate IsExtensionDot(p: string, d: int) {
    && 0 <= d < |p| && p[d] == '.'
    && (forall j :: d < j < |p| ==> p[j] != '.' && p[j] != '/')
    && (exists i :: 0 <= i < d && p[i] != '.' && p[i] != '/' && forall j :: i < j < d ==> p[j] != '/')
  }

  /** Where `os.path.splitext` cuts p: the extension dot, or |p| when p has no extension. */
  function ExtStart(p: string): (k: nat)
    ensures k <= |p|
  {
    var sep := RFind(p, '/');
    var dot := RFind(p, '.');
    if sep < dot && exists i :: sep < i < dot && p[i] != '.' then dot else |p|
  }

  /** An extension dot is where splitext cuts. */
  lemma ExtensionDotIsExtStart(p: string, d: int)
    requires IsExtensionDot(p, d)
    ensures ExtStart(p) == d
  {
    RFindUnique(p, '.', d);
    var i :| 0 <= i < d && p[i] != '.' && p[i] != '/' && forall j :: i < j < d ==> p[j] != '/';
    var sep := RFind(p, '/');
    assert forall j :: i <= j < |p| ==> p[j] != '/';
    assert 0 <= sep ==> p[sep] == '/';
    assert sep < i;
  }

  /** splitext cuts at the extension dot when there is one and nowhere otherwise. */
  lemma ExtStartIsExtensionDot(p: string)
    ensures ExtStart(p) < |p| ==> IsExtensionDot(p, ExtStart(p))
    ensures forall d :: IsExtensionDot(p, d) ==> ExtStart(p) == d
  {
    var sep := RFind(p, '/');
    var dot := RFind(p, '.');
    if ExtStart(p) < |p| {
      var i :| sep < i < dot && p[i] != '.';
      assert forall j :: i < j < dot ==> p[j] != '/';
    }
    forall d | IsExtensionDot(p, d) ensures ExtStart(p) == d {
      ExtensionDotIsExtStart(p, d);
    }
  }

  /** `os.path.splitext(p)`: (root, ext) with ext empty or starting at the extension dot. */
  function SplitExt(p: string): (string, string) {
    var k := ExtStart(p);
    (p[..k], p[k..])
  }

  function Root(p: string): string { SplitExt(p).0 }

  function Ext(p: string): string { SplitExt(p).1 }

  /** splitext loses nothing: root + ext is the path again, and ext is a
      '.' followed by characters that are neither '.' nor '/'. */
  lemma SplitExtParts(p: string)
    ensures Root(p) + Ext(p) == p
    ensures Ext(p) == [] || (Ext(p)[0] == '.' && forall j :: 0 < j < |Ext(p)| ==> Ext(p)[j] != '.' && Ext(p)[j] != '/')
  {
    ExtStartIsExtensionDot(p);
    var k := ExtStart(p);
    if k < |p| {
      assert forall j :: 0 < j < |p| - k ==> Ext(p)[j] == p[k + j];
    }
  }

  /** `os.path.basename(p)`: what follows the last '/'. */
  function Basename(p: string): (b: string)
    ensures '/' !in b
  {
    p[RFind(p, '/') + 1..]
  }

  predicate AllSlashes(s: string) {
    forall i :: 0 <= i < |s| ==> s[i] == '/'
  }

  /** `s.rstrip('/')`. */
  function StripTrailingSlashes(s: string): (r: string)
    ensures |r| <= |s| && r == s[..|r|]
    ensures r == [] || r[|r| - 1] != '/'
    ensures AllSlashes(s[|r|..])
  {
    if |s| == 0 || s[|s| - 1] != '/' then s
    else StripTrailingSlashes(s[..|s| - 1])
  }

  /** `os.path.dirname(p)`: up to the last '/', without trailing slashes
      unless it is made of slashes only. */
  function Dirname(p: string): string {
    var head := p[..RFind(p, '/') + 1];
    if head != [] && !AllSlashes(head) then StripTrailingSlashes(head) else head
  }

  /** The root of a base name has no '/' either. */
  lemma RootOfBasename(p: string)
    ensures '/' !in Root(Basename(p))
  {
    var b := Basename(p);
    assert Root(b) == b[..ExtStart(b)];
    assert forall i :: 0 <= i < |Root(b)| ==> Root(b)[i] == b[i];
  }

  /** The prefix that `os.path.join(a, b)` puts before a relative b. */
  function JoinPrefix(a: string): string {
    if a == [] || a[|a| - 1] == '/' then a else a + "/"
  }

  /** `os.path.join(a, b)`. */
  function Join(a: string, b: string): string {
    if 0 < |b| && b[0] == '/' then b else JoinPrefix(a) + b
  }

  lemma RFindAppend(a: string, b: string, c: char)
    ensures RFind(a + b, c) == if 0 <= RFind(b, c) then |a| + RFind(b, c) else RFind(a, c)
  {
    var i := if 0 <= RFind(b, c) then |a| + RFind(b, c) else RFind(a, c);
    assert forall j :: |a| <= j < |a + b| ==> (a + b)[j] == b[j - |a|];
    RFindUnique(a + b, c, i);
  }

  /** A name without '/' after a prefix that is empty or ends in '/' keeps
      its extension: splitext looks at the last component only. */
  lemma ExtStartAfterSlash(pre: string, name: string)
    requires pre == [] || pre[|pre| - 1] == '/'
    requires '/' !in name
    ensures ExtStart(pre + name) == |pre| + ExtStart(name)
  {
    var p := pre + name;
    assert forall j :: |pre| <= j < |p| ==> p[j] == name[j - |pre|];
    RFindAppend(pre, name, '/');
    RFindAppend(pre, name, '.');
    var sep := RFind(p, '/');
    assert RFind(name, '/') == -1;
    assert sep == |pre| - 1 by {
      if pre == [] { assert RFind(pre, '/') == -1; }
    }
    var dotN := RFind(name, '.');
    if 0 <= dotN {
      var c1 := exists i :: sep < i < |pre| + dotN && p[i] != '.';
      var c2 := exists i :: -1 < i < dotN && name[i] != '.';
      assert c1 == c2 by {
        if c1 { var i :| sep < i < |pre| + dotN && p[i] != '.'; assert name[i - |pre|] != '.'; }
        if c2 { var i :| -1 < i < dotN && name[i] != '.'; assert p[i + |pre|] != '.'; }
      }
    } else {
      assert RFind(p, '.') == RFind(pre, '.');
    }
  }

  lemma BasenameAfterSlash(pre: string, name: string)
    requires pre == [] || pre[|pre| - 1] == '/'
    requires '/' !in name
    ensures Basename(pre + name) == name
  {
    var p := pre + name;
    RFindAppend(pre, name, '/');
    assert RFind(name, '/') == -1;
    assert RFind(p, '/') == |pre| - 1 by {
      if pre == [] { assert RFind(pre, '/') == -1; }
    }
    assert p[|pre|..] == name;
  }

  lemma SplitAfterSlash(pre: string, name: string)
    requires pre == [] || pre[|pre| - 1] == '/'
    requires '/' !in name
    ensures Ext(pre + name) == Ext(name)
    ensures Root(pre + name) == pre + Root(name)
  {
    var p := pre + name;
    ExtStartAfterSlash(pre, name);
    var k := ExtStart(name);
    assert p[|pre| + k..] == name[k..];
    assert p[..|pre| + k] == pre + name[..k];
  }

  /** Joining a name without '/' to a directory leaves its base name and its
      extension as they were. */
  lemma JoinName(dir: string, name: string)
    requires '/' !in name
    ensures Join(dir, name) == JoinPrefix(dir) + name
    ensures Basename(Join(dir, name)) == name
    ensures Ext(Join(dir, name)) == Ext(name)
    ensures Root(Join(dir, name)) == JoinPrefix(dir) + Root(name)
  {
    assert |name| > 0 ==> name[0] != '/';
    assert Join(dir, name) == JoinPrefix(dir) + name;
    assert JoinPrefix(dir) == [] || JoinPrefix(dir)[|JoinPrefix(dir)| - 1] == '/';
    BasenameAfterSlash(JoinPrefix(dir), name);
    SplitAfterSlash(JoinPrefix(dir), name);
  }

  /** p and q have their '.' and '/' at the same places. */
  ghost predicate SameSeparators(p: string, q: string) {
    |p| == |q| && forall i :: 0 <= i < |p| ==> (p[i] == '.' <==> q[i] == '.') && (p[i] == '/' <==> q[i] == '/')
  }

  /** splitext looks at nothing but where the '.' and '/' are. */
  lemma ExtStartSameSeparators(p: string, q: string)
    requires SameSeparators(p, q)
    ensures ExtStart(p) == ExtStart(q)
  {
    RFindUnique(q, '.', RFind(p, '.'));
    RFindUnique(q, '/', RFind(p, '/'));
    var sep, dot := RFind(p, '/'), RFind(p, '.');
    var cp := exists i :: sep < i < dot && p[i] != '.';
    var cq := exists i :: sep < i < dot && q[i] != '.';
    assert cp == cq by {
      if cp { var i :| sep < i < dot && p[i] != '.'; assert q[i] != '.'; }
      if cq { var i :| sep < i < dot && q[i] != '.'; assert p[i] != '.'; }
    }
  }
}
