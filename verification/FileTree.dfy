/** Directory trees: a map from paths, relative to a root, to what is there. */
module FileTree {

  type Path = seq<string>

  /** `Other` is neither a regular file nor a directory, a symbolic link say. */
  datatype Node = Dir | File(size: nat, time: int, bytes: string) | Other

  type Tree = map<Path, Node>

  function Parent(p: Path): Path
    requires p != []
  {
    p[..|p| - 1]
  }

  function Name(p: Path): string
    requires p != []
  {
    p[|p| - 1]
  }

  predicate IsDir(t: Tree, p: Path) { p in t && t[p].Dir? }

  /** The root, when it is there, is a directory, and so is the parent of everything. */
  predicate WellFormed(t: Tree) {
    forall p :: p in t ==> if p == [] then t[p].Dir? else IsDir(t, Parent(p))
  }

  /** The names in a directory. */
  function Names(t: Tree, d: Path): set<string> {
    set p | p in t && p != [] && Parent(p) == d :: Name(p)
  }

  lemma NamesAreEntries(t: Tree, d: Path, n: string)
    ensures n in Names(t, d) <==> d + [n] in t
  {
    assert Parent(d + [n]) == d && Name(d + [n]) == n;
    if n in Names(t, d) {
      var p :| p in t && p != [] && Parent(p) == d && Name(p) == n;
      assert p == d + [n];
    }
  }

  /** What every path above one in the tree is. */
  lemma {:induction false} AncestorsAreDirs(t: Tree, p: Path, n: nat)
    requires WellFormed(t) && p in t && n < |p|
    ensures IsDir(t, p[..n])
    decreases |p|
  {
    assert IsDir(t, Parent(p));
    if n < |p| - 1 {
      AncestorsAreDirs(t, Parent(p), n);
      assert Parent(p)[..n] == p[..n];
    } else {
      assert p[..n] == Parent(p);
    }
  }
}
