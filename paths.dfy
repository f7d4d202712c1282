/**
 * The POSIX path helpers the phishing-page code relies on: `os.path.join` of
 * two components, `os.path.dirname`, `os.path.basename`, `str.lower` on ASCII
 * text and `str.endswith`. Paths are plain strings; nothing is normalised.
 */
module Paths {

  type Path = string

  predicate NoSlash(s: string) {
    forall i :: 0 <= i < |s| ==> s[i] != '/'
  }

  predicate AllSlashes(s: string) {
    forall i :: 0 <= i < |s| ==> s[i] == '/'
  }

  predicate EndsWith(s: string, suffix: string) {
    |suffix| <= |s| && s[|s| - |suffix|..] == suffix
  }

  /** `os.path.join(a, b)`: an absolute `b` replaces `a`; otherwise one separator
      is put between them unless `a` is empty or already ends with one. */
  function Join(a: Path, b: Path): (r: Path)
  {
    if |b| > 0 && b[0] == '/' then b
    else if a == [] || a[|a| - 1] == '/' then a + b
    else a + "/" + b
  }

  /** The prefix of `p` up to and including its last separator (empty when it has none). */
  function Head(p: Path): (r: Path)
    ensures |r| <= |p| && p[..|r|] == r
    ensures r == [] || r[|r| - 1] == '/'
    ensures NoSlash(p[|r|..])
  {
    if p == [] then []
    else if p[|p| - 1] == '/' then p
    else
      var h := Head(p[..|p| - 1]);
      assert p[|h|..] == p[..|p| - 1][|h|..] + [p[|p| - 1]];
      h
  }

  /** `s` without its trailing separators. */
  function StripSlashes(s: string): (r: string)
    ensures |r| <= |s| && s[..|r|] == r
    ensures AllSlashes(s[|r|..])
    ensures r == [] || r[|r| - 1] != '/'
  {
    if s != [] && s[|s| - 1] == '/' then
      var r := StripSlashes(s[..|s| - 1]);
      assert s[|r|..] == s[..|s| - 1][|r|..] + [s[|s| - 1]];
      r
    else s
  }

  /** `os.path.dirname(p)`: the head, with trailing separators removed unless it
      consists of separators only. */
  function Dirname(p: Path): (r: Path)
    ensures |r| <= |p| && p[..|r|] == r
    ensures r == [] || r[|r| - 1] != '/' || AllSlashes(r)
  {
    var h := Head(p);
    if h != [] && !AllSlashes(h) then StripSlashes(h) else h
  }

  /** `os.path.basename(p)`: what follows the last separator. */
  function Basename(p: Path): (r: Path)
    ensures NoSlash(r)
    ensures Head(p) + r == p
  {
    p[|Head(p)|..]
  }

  function LowerChar(c: char): char {
    if 'A' <= c <= 'Z' then (c as int + 32) as char else c
  }

  /** `str.lower()` on ASCII text. */
  function Lower(s: string): (r: string)
    ensures |r| == |s|
    ensures forall i :: 0 <= i < |s| ==> r[i] == LowerChar(s[i])
  {
    if s == [] then [] else [LowerChar(s[0])] + Lower(s[1..])
  }

  /** Appending a component without separators does not move the last separator. */
  lemma {:induction false} HeadAppend(x: Path, f: string)
    requires NoSlash(f)
    ensures Head(x + f) == Head(x)
    decreases |f|
  {
    if f != [] {
      var g := f[..|f| - 1];
      assert (x + f)[..|x + f| - 1] == x + g;
      HeadAppend(x, g);
    } else {
      assert x + f == x;
    }
  }

  /** The head of a path that is empty or ends with a separator is the path itself. */
  lemma HeadOfDirectory(x: Path, f: string)
    requires NoSlash(f)
    requires x == [] || x[|x| - 1] == '/'
    ensures Head(x + f) == x
  {
    HeadAppend(x, f);
  }

  /** Joining a bare file name and taking the base name gives the file name back. */
  lemma BasenameJoin(d: Path, f: string)
    requires NoSlash(f)
    ensures Basename(Join(d, f)) == f
  {
    var x := if d == [] || d[|d| - 1] == '/' then d else d + "/";
    assert Join(d, f) == x + f;
    HeadOfDirectory(x, f);
  }

  /** A directory as `Dirname` returns it: empty, not ending with a separator, or the root. */
  predicate DirShaped(d: Path) {
    d == [] || d[|d| - 1] != '/' || AllSlashes(d)
  }

  /** Joining a bare file name to a directory and taking the directory name gives
      the directory back. */
  lemma DirnameJoin(d: Path, f: string)
    requires NoSlash(f)
    requires DirShaped(d)
    ensures Dirname(Join(d, f)) == d
  {
    if d == [] || d[|d| - 1] == '/' {
      assert Join(d, f) == d + f;
      HeadOfDirectory(d, f);
    } else {
      var x := d + "/";
      assert Join(d, f) == x + f;
      HeadOfDirectory(x, f);
      assert x[|x| - 2] != '/';
      assert x[..|x| - 1] == d;
    }
  }

  /** Replacing the file name of a path is idempotent: doing it twice with the same
      bare file name gives what doing it once gives. */
  lemma ReplaceFileNameIdempotent(p: Path, f: string)
    requires NoSlash(f)
    ensures Join(Dirname(Join(Dirname(p), f)), f) == Join(Dirname(p), f)
    ensures Basename(Join(Dirname(p), f)) == f
  {
    DirnameJoin(Dirname(p), f);
    BasenameJoin(Dirname(p), f);
  }

  /** Gluing a bare file name onto a directory path with no separator (as
      `static_path + filename` does) yields a file that sits NEXT TO that
      directory, named by the directory's last component followed by the file name. */
  lemma GluedName(parent: Path, last: string, f: string)
    requires NoSlash(f) && NoSlash(last) && last != []
    requires parent != [] && parent[|parent| - 1] != '/'
    ensures Dirname(Join(parent, last) + f) == parent
    ensures Basename(Join(parent, last) + f) == last + f
  {
    assert NoSlash(last + f);
    assert Join(parent, last) + f == Join(parent, last + f);
    DirnameJoin(parent, last + f);
    BasenameJoin(parent, last + f);
  }
}
