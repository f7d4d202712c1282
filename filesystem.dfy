/**
 * An in-memory filesystem: a map from path to node. A directory node carries
 * its listing in the order `os.listdir` returns it; a file node carries the
 * descriptor sections that `ConfigParser.read` would find in it (a file that is
 * not a descriptor has no sections).
 */
module FileSystem {
  import opened Wrappers
  import opened Paths

  /** One descriptor section: option name to value. */
  type Section = map<string, string>
  /** A whole descriptor: section name to section. */
  type Ini = map<string, Section>

  datatype Node = File(sections: Ini) | Dir(entries: seq<string>)

  type Tree = map<Path, Node>

  predicate IsFile(t: Tree, p: Path) {
    p in t && t[p].File?
  }

  predicate IsDir(t: Tree, p: Path) {
    p in t && t[p].Dir?
  }

  /** `os.listdir(p)`: the entries of a directory; `None` stands for the OSError
      raised on anything else. */
  function Listing(t: Tree, p: Path): (r: Option<seq<string>>)
    ensures r.Some? <==> IsDir(t, p)
    ensures r.Some? ==> r.value == t[p].entries
  {
    if IsDir(t, p) then Some(t[p].entries) else None
  }

  /** `ConfigParser.read(p)`: the sections of the file, none when it cannot be read. */
  function ReadIni(t: Tree, p: Path): (r: Ini)
    ensures IsFile(t, p) ==> r == t[p].sections
    ensures !IsFile(t, p) ==> r == map[]
  {
    if IsFile(t, p) then t[p].sections else map[]
  }

  /** `open(p, 'w')` succeeds: `p` is an existing file, or a new name in an existing directory. */
  predicate Writable(t: Tree, p: Path) {
    IsFile(t, p) || (p !in t && IsDir(t, Dirname(p)))
  }

  /** `entries` without any occurrence of `name`. */
  function Without(entries: seq<string>, name: string): (r: seq<string>)
    ensures forall x :: x in r <==> x in entries && x != name
  {
    if entries == [] then []
    else if entries[0] == name then Without(entries[1..], name)
    else [entries[0]] + Without(entries[1..], name)
  }

  /** Stores `node` at `p`; a new name is appended to its directory's listing. */
  function Put(t: Tree, p: Path, node: Node): (r: Tree)
    ensures p in r && r[p] == node
    ensures forall q :: q in r <==> q in t || q == p
    ensures forall q :: q in t && q != p && q != Dirname(p) ==> r[q] == t[q]
    ensures forall q :: q in t && q != p ==> (r[q].File? <==> t[q].File?) && (t[q].File? ==> r[q] == t[q])
    ensures Dirname(p) != p && IsDir(t, Dirname(p)) ==>
      && IsDir(r, Dirname(p))
      && forall x :: x in r[Dirname(p)].entries <==> x in t[Dirname(p)].entries || (p !in t && x == Basename(p))
  {
    var parent := Dirname(p);
    var u := t[p := node];
    if p !in t && parent != p && IsDir(t, parent) then
      u[parent := Dir(t[parent].entries + [Basename(p)])]
    else u
  }

  /** Removes the node at `p` and its name from its directory's listing. */
  function Delete(t: Tree, p: Path): (r: Tree)
    ensures forall q :: q in r <==> q in t && q != p
    ensures forall q :: q in r && q != Dirname(p) ==> r[q] == t[q]
    ensures forall q :: q in r ==> (r[q].File? <==> t[q].File?) && (t[q].File? ==> r[q] == t[q])
    ensures forall q :: q in r && r[q].Dir? ==> forall x :: x in r[q].entries ==> x in t[q].entries
    ensures forall q, x :: q in r && r[q].Dir? && x in t[q].entries && x !in r[q].entries ==>
      q == Dirname(p) && x == Basename(p)
  {
    var parent := Dirname(p);
    var u := t - {p};
    if parent in u && u[parent].Dir? then
      u[parent := Dir(Without(u[parent].entries, Basename(p)))]
    else u
  }

  /** `shutil.copyfile(src, dst)`. */
  function CopyFile(t: Tree, src: Path, dst: Path): (r: Result<Tree>)
    ensures r.Ok? <==> IsFile(t, src) && src != dst && Writable(t, dst)
    ensures r.Ok? ==> dst in r.value && r.value[dst] == t[src]
    ensures r.Ok? ==> forall q :: q in r.value <==> q in t || q == dst
    ensures r.Ok? ==> forall q :: q in t && q != dst ==>
      (r.value[q].File? <==> t[q].File?) && (t[q].File? ==> r.value[q] == t[q])
    ensures r.Ok? ==> forall q :: q in t && q != dst && q != Dirname(dst) ==> r.value[q] == t[q]
    ensures r.Ok? && Dirname(dst) != dst && IsDir(t, Dirname(dst)) ==>
      && IsDir(r.value, Dirname(dst))
      && forall x :: x in r.value[Dirname(dst)].entries <==> x in t[Dirname(dst)].entries || (dst !in t && x == Basename(dst))
  {
    if src == dst && IsFile(t, src) then Err(ShutilError(src))
    else if !IsFile(t, src) then Err(IOError(src))
    else if !Writable(t, dst) then Err(IOError(dst))
    else Ok(Put(t, dst, t[src]))
  }

  /** Writing a descriptor to `p` with `open(p, 'wb')` and `RawConfigParser.write`. */
  function WriteIni(t: Tree, p: Path, ini: Ini): (r: Result<Tree>)
    ensures r.Ok? <==> Writable(t, p)
    ensures r.Ok? ==> ReadIni(r.value, p) == ini
  {
    if Writable(t, p) then Ok(Put(t, p, File(ini))) else Err(IOError(p))
  }

  /**
   * `u` is `t` after deleting exactly those paths of `ps` that were files, and
   * nothing else: no other path appears or disappears, no file is changed, and
   * directories stay directories whose listings lose only the names of the
   * deleted files they held.
   */
  ghost predicate DeletedOnly(t: Tree, u: Tree, ps: set<Path>) {
    && (forall q :: q in u <==> q in t && !(q in ps && IsFile(t, q)))
    && (forall q :: q in u ==> (u[q].File? <==> t[q].File?) && (t[q].File? ==> u[q] == t[q]))
    && (forall q :: q in u && u[q].Dir? ==> forall x :: x in u[q].entries ==> x in t[q].entries)
    && (forall q, x :: q in u && u[q].Dir? && x in t[q].entries && x !in u[q].entries ==>
          exists p :: p in ps && IsFile(t, p) && Dirname(p) == q && Basename(p) == x)
  }

  /** `if os.path.isfile(p): os.remove(p)`. */
  function RemoveIfFile(t: Tree, p: Path): (r: Tree)
    ensures DeletedOnly(t, r, {p})
    ensures !IsFile(r, p)
  {
    if IsFile(t, p) then Delete(t, p) else t
  }

  /** The tree after `RemoveIfFile` on each path of `ps`, first to last. */
  function RemoveListed(t: Tree, ps: seq<Path>): (r: Tree)
    ensures DeletedOnly(t, r, set p | p in ps)
    ensures forall p :: p in ps ==> !IsFile(r, p)
    decreases |ps|
  {
    if ps == [] then t
    else
      var front := ps[..|ps| - 1];
      var u := RemoveListed(t, front);
      var r := RemoveIfFile(u, ps[|ps| - 1]);
      DeletedOnlyTrans(t, u, r, set p | p in front, {ps[|ps| - 1]});
      assert (set p | p in ps) == (set p | p in front) + {ps[|ps| - 1]} by {
        assert ps == front + [ps[|ps| - 1]];
      }
      assert forall p :: p in ps ==> p in front || p == ps[|ps| - 1] by {
        assert ps == front + [ps[|ps| - 1]];
      }
      r
  }

  /** Two rounds of deletions are one round deleting what either named. */
  lemma DeletedOnlyTrans(a: Tree, b: Tree, c: Tree, r1: set<Path>, r2: set<Path>)
    requires DeletedOnly(a, b, r1) && DeletedOnly(b, c, r2)
    ensures DeletedOnly(a, c, r1 + r2)
  {
  }

  /** Removing paths none of which is a file changes nothing. */
  lemma {:induction false} RemoveListedNoFiles(t: Tree, ps: seq<Path>)
    requires forall p :: p in ps ==> !IsFile(t, p)
    ensures RemoveListed(t, ps) == t
    decreases |ps|
  {
    if ps != [] {
      var front := ps[..|ps| - 1];
      assert forall p :: p in front ==> p in ps;
      RemoveListedNoFiles(t, front);
      assert ps[|ps| - 1] in ps;
    }
  }

  /** A second round of the same removals deletes nothing. */
  lemma RemoveListedIdempotent(t: Tree, ps: seq<Path>)
    ensures RemoveListed(RemoveListed(t, ps), ps) == RemoveListed(t, ps)
  {
    RemoveListedNoFiles(RemoveListed(t, ps), ps);
  }

  /** The mutable filesystem the phishing-page code reads and writes through `os`. */
  class Disk {
    var tree: Tree

    constructor (t: Tree)
      ensures tree == t
    {
      tree := t;
    }

    method Copy(src: Path, dst: Path) returns (r: Outcome)
      modifies this
      ensures var c := CopyFile(old(tree), src, dst);
        if c.Ok? then r == Pass && tree == c.value
        else r == Fail(c.error) && tree == old(tree)
    {
      var c := CopyFile(tree, src, dst);
      if c.Ok? {
        tree := c.value;
        r := Pass;
      } else {
        r := Fail(c.error);
      }
    }

    /** `os.remove(p)`. */
    method Remove(p: Path) returns (r: Outcome)
      modifies this
      ensures IsFile(old(tree), p) ==> r == Pass && tree == Delete(old(tree), p)
      ensures !IsFile(old(tree), p) ==> r == Fail(OSError(p)) && tree == old(tree)
    {
      if IsFile(tree, p) {
        tree := Delete(tree, p);
        r := Pass;
      } else {
        r := Fail(OSError(p));
      }
    }

    method Write(p: Path, ini: Ini) returns (r: Outcome)
      modifies this
      ensures var w := WriteIni(old(tree), p, ini);
        if w.Ok? then r == Pass && tree == w.value
        else r == Fail(w.error) && tree == old(tree)
    {
      var w := WriteIni(tree, p, ini);
      if w.Ok? {
        tree := w.value;
        r := Pass;
      } else {
        r := Fail(w.error);
      }
    }
  }
}
