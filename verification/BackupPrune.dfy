/** Removing from a directory the files a copy did not see, and the directories that
    leaves empty; then what a copy and this together leave. */
module BackupPrune {
  import opened FileTree
  import opened BackupCopy

  /** Some file to keep is at the path or below it. */
  ghost predicate Holds(t: Tree, keep: set<Path>, p: Path) { exists q :: KeepsAt(t, keep, p, q) }

  predicate KeepsAt(t: Tree, keep: set<Path>, p: Path, q: Path) { q in t && p <= q && !t[q].Dir? && q in keep }

  /** What is below a directory. */
  function Content(t: Tree, d: Path): set<Path> { set p | p in t && d < p }

  predicate Within(t': Tree, t: Tree) { forall p :: p in t' ==> p in t && t'[p] == t[p] }

  /** Below `d`, but for the entries `left`, only what holds a file to keep stays. */
  ghost predicate Stays(t: Tree, d: Path, left: set<string>, keep: set<Path>, p: Path) {
    d < p && p[|d|] !in left ==> Holds(t, keep, p)
  }

  ghost predicate Pruned(t: Tree, t': Tree, d: Path, left: set<string>, keep: set<Path>) {
    Within(t', t) && forall p :: p in t ==> (p in t' <==> Stays(t, d, left, keep, p))
  }

  function Gone(t: Tree, t': Tree): set<Path> { set p | p in t && !t[p].Dir? && p !in t' }

  /** Nothing that is to be kept has gone. */
  predicate KeepsFiles(t: Tree, t': Tree, keep: set<Path>) {
    Within(t', t) && forall p :: p in t && !t[p].Dir? && p in keep ==> p in t'
  }

  lemma BelowChild(d: Path, n: string, p: Path)
    ensures d + [n] <= p <==> d < p && p[|d|] == n
    ensures d + [n] < p ==> d < p
  {
    if d < p && p[|d|] == n {
      assert p[..|d| + 1] == d + [n];
    }
  }

  /** An entry that is no directory has nothing below it. */
  lemma NothingBelowAFile(t: Tree, p: Path)
    requires WellFormed(t) && p in t && !t[p].Dir?
    ensures Content(t, p) == {}
  {
    if q :| q in t && p < q {
      assert q[..|p|] == p;
      AncestorsAreDirs(t, q, |p|);
    }
  }

  lemma HoldsLocally(t: Tree, t1: Tree, keep: set<Path>, c: Path, p: Path)
    requires Within(t1, t) && c <= p && forall q :: q in t && c <= q ==> q in t1
    ensures Holds(t, keep, p) <==> Holds(t1, keep, p)
  {
    if Holds(t, keep, p) {
      var q :| KeepsAt(t, keep, p, q);
      assert KeepsAt(t1, keep, p, q);
    }
    if Holds(t1, keep, p) {
      var q :| KeepsAt(t1, keep, p, q);
      assert KeepsAt(t, keep, p, q);
    }
  }

  /** A directory pruned below holds a file to keep exactly when something is left. */
  lemma HoldsWhatIsLeft(t1: Tree, t2: Tree, c: Path, keep: set<Path>)
    requires IsDir(t1, c) && Pruned(t1, t2, c, {}, keep)
    ensures Holds(t1, keep, c) <==> Content(t2, c) != {}
  {
    if Holds(t1, keep, c) {
      var q :| KeepsAt(t1, keep, c, q);
      assert KeepsAt(t1, keep, q, q);
      assert Stays(t1, c, {}, keep, q) && q in t2;
      assert q != c && c < q;
      assert q in Content(t2, c);
    } else if Content(t2, c) != {} {
      var p :| p in Content(t2, c);
      assert Stays(t1, c, {}, keep, p);
      var q :| KeepsAt(t1, keep, p, q);
      assert KeepsAt(t1, keep, c, q);
    }
  }

  lemma EntryUntouched(t: Tree, t1: Tree, d: Path, n: string, left: set<string>, keep: set<Path>, q: Path)
    requires n in left && Pruned(t, t1, d, left, keep) && q in t && d + [n] <= q
    ensures q in t1
  {
    BelowChild(d, n, q);
    assert Stays(t, d, left, keep, q);
  }

  lemma DirectoryPrunedAt(t: Tree, t1: Tree, t2: Tree, d: Path, n: string, left: set<string>, keep: set<Path>, p: Path)
    requires IsDir(t, d + [n]) && n in left && Pruned(t, t1, d, left, keep) && Pruned(t1, t2, d + [n], {}, keep) && p in t
    requires forall q :: q in t && d + [n] <= q ==> q in t1
    ensures p != d + [n] ==> (p in t2 <==> Stays(t, d, left - {n}, keep, p))
    ensures p == d + [n] ==> p in t2 && (Stays(t, d, left - {n}, keep, p) <==> Content(t2, p) != {})
  {
    var c := d + [n];
    BelowChild(d, n, p);
    if c <= p {
      HoldsLocally(t, t1, keep, c, p);
      HoldsWhatIsLeft(t1, t2, c, keep);
      assert p in t2 <==> Stays(t1, c, {}, keep, p);
      assert p != c ==> c < p;
    } else {
      assert Stays(t, d, left - {n}, keep, p) == Stays(t, d, left, keep, p);
      assert p in t1 ==> Stays(t1, c, {}, keep, p);
    }
  }

  /** After the directory `n` in `d` was pruned itself, and removed when bare. */
  lemma DirectoryPruned(t: Tree, t1: Tree, t2: Tree, d: Path, n: string, left: set<string>, keep: set<Path>, t': Tree)
    requires IsDir(t, d + [n]) && n in left && Pruned(t, t1, d, left, keep) && Pruned(t1, t2, d + [n], {}, keep)
    requires t' == if Content(t2, d + [n]) == {} then t2 - {d + [n]} else t2
    ensures Pruned(t, t', d, left - {n}, keep)
  {
    forall q | q in t && d + [n] <= q ensures q in t1 {
      EntryUntouched(t, t1, d, n, left, keep, q);
    }
    forall p | p in t ensures p in t' <==> Stays(t, d, left - {n}, keep, p) {
      DirectoryPrunedAt(t, t1, t2, d, n, left, keep, p);
    }
  }

  /** After the file `n` in `d` was left, or removed. */
  lemma FilePruned(t: Tree, t1: Tree, d: Path, n: string, left: set<string>, keep: set<Path>, t': Tree)
    requires WellFormed(t) && d + [n] in t && !t[d + [n]].Dir? && n in left && Pruned(t, t1, d, left, keep)
    requires t' == if d + [n] in keep then t1 else t1 - {d + [n]}
    ensures Pruned(t, t', d, left - {n}, keep)
  {
    var c := d + [n];
    NothingBelowAFile(t, c);
    EntryUntouched(t, t1, d, n, left, keep, c);
    forall q | q in t && c <= q ensures q == c {
      assert q != c ==> q in Content(t, c);
    }
    forall p | p in t ensures p in t' <==> Stays(t, d, left - {n}, keep, p) {
      BelowChild(d, n, p);
      if c <= p {
        assert KeepsAt(t, keep, c, c) <==> c in keep;
        assert Holds(t, keep, c) <==> c in keep;
      } else {
        assert Stays(t, d, left - {n}, keep, p) == Stays(t, d, left, keep, p);
      }
    }
  }

  lemma AllNamed(t: Tree, d: Path, keep: set<Path>)
    requires WellFormed(t)
    ensures forall p :: p in Content(t, d) ==> p[|d|] in Names(t, d)
    ensures Pruned(t, t, d, Names(t, d), keep)
  {
    forall p | p in Content(t, d) ensures p[|d|] in Names(t, d) {
      BelowChild(d, p[|d|], p);
      var c := d + [p[|d|]];
      if c != p {
        AncestorsAreDirs(t, p, |c|);
        assert p[..|c|] == c;
      }
      NamesAreEntries(t, d, p[|d|]);
    }
  }

  lemma ContentShrinks(t: Tree, d: Path, n: string)
    requires d + [n] in t
    ensures d + [n] in Content(t, d) && Content(t, d + [n]) <= Content(t, d) - {d + [n]}
  {
    forall p | p in Content(t, d + [n]) ensures p in Content(t, d) {
      BelowChild(d, n, p);
    }
  }

  lemma GoneAdds(t: Tree, t1: Tree, t2: Tree)
    requires Within(t1, t) && Within(t2, t1)
    ensures |Gone(t, t2)| == |Gone(t, t1)| + |Gone(t1, t2)|
  {
    assert Gone(t, t2) == Gone(t, t1) + Gone(t1, t2);
  }

  lemma StillKeeps(t: Tree, t1: Tree, t2: Tree, keep: set<Path>)
    requires KeepsFiles(t, t1, keep) && KeepsFiles(t1, t2, keep)
    ensures KeepsFiles(t, t2, keep)
  {
  }

  /** An empty directory, or a file. */
  method Remove(dst: Destination, c: Path, keep: set<Path>) returns (ok: bool)
    requires WellFormed(dst.t) && c in dst.t && c != [] && Content(dst.t, c) == {} && (c !in keep || dst.t[c].Dir?)
    modifies dst
    ensures WellFormed(dst.t) && KeepsFiles(old(dst.t), dst.t, keep)
    ensures dst.t == if ok then old(dst.t) - {c} else old(dst.t)
  {
    ghost var before := dst.t;
    assert forall p :: p in before && p != [] && Parent(p) == c ==> p in Content(before, c);
    ok := Call();
    if ok {
      dst.t := dst.t - {c};
    }
  }

  /** One entry of the directory `d`; `empty` when nothing of it is left. */
  method WalkEntry(dst: Destination, d: Path, n: string, keep: set<Path>, ghost left: set<string>, ghost scope: set<Path>)
    returns (ok: bool, empty: bool, removed: nat)
    requires WellFormed(dst.t) && IsDir(dst.t, d) && Content(dst.t, d) <= scope && d + [n] in dst.t
    modifies dst
    decreases scope, 0
    ensures WellFormed(dst.t) && KeepsFiles(old(dst.t), dst.t, keep)
    ensures ok && IsDir(old(dst.t), d + [n]) ==>
      exists t2 :: Pruned(old(dst.t), t2, d + [n], {}, keep) &&
        dst.t == (if Content(t2, d + [n]) == {} then t2 - {d + [n]} else t2) && (empty <==> Content(t2, d + [n]) == {})
    ensures ok && !IsDir(old(dst.t), d + [n]) ==>
      dst.t == (if d + [n] in keep then old(dst.t) else old(dst.t) - {d + [n]}) && (empty <==> d + [n] !in keep)
    ensures ok ==> removed == |Gone(old(dst.t), dst.t)|
  {
    var c := d + [n];
    ghost var t1 := dst.t;
    ok, empty, removed := true, true, 0;
    if dst.t[c].Dir? {
      ContentShrinks(t1, d, n);
      ok, empty, removed := Walk(dst, c, keep, scope - {c});
      if ok && empty {
        ghost var t2 := dst.t;
        ok := Remove(dst, c, keep);
        StillKeeps(t1, t2, dst.t, keep);
        GoneAdds(t1, t2, dst.t);
        assert ok ==> Gone(t2, dst.t) == {};
      }
    } else if c in keep {
      empty := false;
      assert Gone(t1, dst.t) == {};
    } else {
      NothingBelowAFile(t1, c);
      ok := Remove(dst, c, keep);
      removed := 1;
      assert ok ==> Gone(t1, dst.t) == {c};
    }
  }

  /** What one entry's walk means for the directory. */
  lemma EntryWalked(before: Tree, t1: Tree, t': Tree, d: Path, n: string, left: set<string>, keep: set<Path>, empty: bool)
    requires WellFormed(before) && WellFormed(t1) && n in left && d + [n] in before && Pruned(before, t1, d, left, keep)
    requires IsDir(t1, d + [n]) ==>
      exists t2 :: Pruned(t1, t2, d + [n], {}, keep) &&
        t' == (if Content(t2, d + [n]) == {} then t2 - {d + [n]} else t2) && (empty <==> Content(t2, d + [n]) == {})
    requires !IsDir(t1, d + [n]) ==> t' == (if d + [n] in keep then t1 else t1 - {d + [n]}) && (empty <==> d + [n] !in keep)
    ensures Pruned(before, t', d, left - {n}, keep)
    ensures empty <==> forall p :: p in t' ==> !(d + [n] <= p)
  {
    var c := d + [n];
    EntryUntouched(before, t1, d, n, left, keep, c);
    if IsDir(t1, c) {
      var t2 :| Pruned(t1, t2, c, {}, keep) && t' == (if Content(t2, c) == {} then t2 - {c} else t2) && (empty <==> Content(t2, c) == {});
      DirectoryPruned(before, t1, t2, d, n, left, keep, t');
      forall p | p in t' && c <= p ensures !empty {
        assert p != c ==> p in Content(t2, c);
      }
    } else {
      FilePruned(before, t1, d, n, left, keep, t');
      NothingBelowAFile(t1, c);
      forall p | p in t' && c <= p ensures !empty {
        assert p != c ==> p in Content(t1, c);
      }
    }
  }

  /** Everything below the directory is in an entry that is left. */
  predicate OnlyIn(t: Tree, d: Path, left: set<string>) { forall p :: p in Content(t, d) ==> p[|d|] in left }

  lemma BeforeEntry(before: Tree, t1: Tree, d: Path, n: string, left: set<string>, keep: set<Path>)
    requires IsDir(before, d) && Pruned(before, t1, d, left, keep) && n in left && left <= Names(before, d)
    ensures IsDir(t1, d) && Content(t1, d) <= Content(before, d) && d + [n] in before && d + [n] in t1
  {
    NamesAreEntries(before, d, n);
    EntryUntouched(before, t1, d, n, left, keep, d + [n]);
    assert Stays(before, d, left, keep, d);
  }

  lemma StillOnlyIn(t1: Tree, t': Tree, d: Path, n: string, left: set<string>)
    requires Within(t', t1) && n in left
    requires forall p :: p in t1 && !(d + [n] <= p) ==> p in t'
    ensures OnlyIn(t', d, left - {n}) <==> OnlyIn(t1, d, left) && forall p :: p in t' ==> !(d + [n] <= p)
  {
    forall p | p in t1 ensures d + [n] <= p <==> d < p && p[|d|] == n {
      BelowChild(d, n, p);
    }
  }

  /** How far a directory's walk has come. */
  ghost predicate Walking(before: Tree, t: Tree, d: Path, left: set<string>, keep: set<Path>, empty: bool, removed: nat) {
    WellFormed(t) && KeepsFiles(before, t, keep) && left <= Names(before, d) && Pruned(before, t, d, left, keep) &&
    (empty <==> OnlyIn(t, d, left)) && removed == |Gone(before, t)|
  }

  lemma EntryDone(before: Tree, t1: Tree, t': Tree, d: Path, n: string, left: set<string>, keep: set<Path>,
                  empty: bool, removed: nat, here: bool, count: nat)
    requires WellFormed(before) && IsDir(before, d) && n in left && Walking(before, t1, d, left, keep, empty, removed)
    requires WellFormed(t') && KeepsFiles(t1, t', keep) && count == |Gone(t1, t')|
    requires IsDir(t1, d + [n]) ==>
      exists t2 :: Pruned(t1, t2, d + [n], {}, keep) &&
        t' == (if Content(t2, d + [n]) == {} then t2 - {d + [n]} else t2) && (here <==> Content(t2, d + [n]) == {})
    requires !IsDir(t1, d + [n]) ==> t' == (if d + [n] in keep then t1 else t1 - {d + [n]}) && (here <==> d + [n] !in keep)
    ensures Walking(before, t', d, left - {n}, keep, empty && here, removed + count)
  {
    BeforeEntry(before, t1, d, n, left, keep);
    StillKeeps(before, t1, t', keep);
    EntryWalked(before, t1, t', d, n, left, keep, here);
    GoneAdds(before, t1, t');
    forall p | p in t1 && !(d + [n] <= p) ensures p in t' {
      NotBelow(t1, t', d + [n], keep, p);
    }
    StillOnlyIn(t1, t', d, n, left);
  }

  lemma NotBelow(t1: Tree, t': Tree, c: Path, keep: set<Path>, p: Path)
    requires p in t1 && !(c <= p)
    requires (exists t2 :: Pruned(t1, t2, c, {}, keep) && (t' == t2 - {c} || t' == t2)) || t' == t1 || t' == t1 - {c}
    ensures p in t'
  {
    if t2 :| Pruned(t1, t2, c, {}, keep) && (t' == t2 - {c} || t' == t2) {
      assert Stays(t1, c, {}, keep, p);
    }
  }

  /** `scope` bounds what is below `d`, which is why the recursion ends. */
  method Walk(dst: Destination, d: Path, keep: set<Path>, ghost scope: set<Path>) returns (ok: bool, empty: bool, removed: nat)
    requires WellFormed(dst.t) && IsDir(dst.t, d) && Content(dst.t, d) <= scope
    modifies dst
    decreases scope, 1
    ensures WellFormed(dst.t) && KeepsFiles(old(dst.t), dst.t, keep)
    ensures ok ==> Pruned(old(dst.t), dst.t, d, {}, keep)
    ensures ok ==> (empty <==> Content(dst.t, d) == {}) && removed == |Gone(old(dst.t), dst.t)|
  {
    ok, empty, removed := true, true, 0;
    var left := Names(dst.t, d);
    ghost var before := dst.t;
    AllNamed(before, d, keep);
    while left != {}
      invariant Walking(before, dst.t, d, left, keep, empty, removed)
      decreases left
    {
      var n :| n in left;
      ghost var t1 := dst.t;
      BeforeEntry(before, t1, d, n, left, keep);
      var here, count;
      ok, here, count := WalkEntry(dst, d, n, keep, left, scope);
      if !ok {
        StillKeeps(before, t1, dst.t, keep);
        return;
      }
      EntryDone(before, t1, dst.t, d, n, left, keep, empty, removed, here, count);
      empty, removed := empty && here, removed + count;
      left := left - {n};
    }
  }

  /** Leaves of a directory exactly the files to keep and the directories that lead to
      one; ends for every tree. */
  method Prune(dst: Destination, keep: set<Path>) returns (ok: bool, removed: nat)
    requires WellFormed(dst.t)
    modifies dst
    ensures WellFormed(dst.t) && KeepsFiles(old(dst.t), dst.t, keep)
    ensures ok ==> forall p :: p in dst.t && !dst.t[p].Dir? <==> p in old(dst.t) && !old(dst.t)[p].Dir? && p in keep
    ensures ok ==> forall p :: p in dst.t && p != [] ==> Holds(dst.t, keep, p)
    ensures ok ==> removed == |Gone(old(dst.t), dst.t)|
  {
    ok, removed := true, 0;
    ghost var before := dst.t;
    if [] in dst.t {
      var empty;
      ok, empty, removed := Walk(dst, [], keep, Content(dst.t, []));
      if ok {
        OnlyKept(before, dst.t, keep);
      }
    } else {
      NoRoot(before);
      assert Gone(before, dst.t) == {};
    }
  }

  lemma NoRoot(t: Tree)
    requires WellFormed(t) && [] !in t
    ensures t == map[]
  {
    if p :| p in t {
      AncestorsAreDirs(t, p, 0);
    }
  }

  lemma HoldsItself(t: Tree, keep: set<Path>, p: Path)
    requires WellFormed(t) && p in t && !t[p].Dir?
    ensures Holds(t, keep, p) <==> p in keep
  {
    if Holds(t, keep, p) {
      var q :| KeepsAt(t, keep, p, q);
      NothingBelowAFile(t, p);
      assert q != p ==> q in Content(t, p);
    }
    assert p in keep ==> KeepsAt(t, keep, p, p);
  }

  lemma FileStays(before: Tree, t: Tree, keep: set<Path>, p: Path)
    requires WellFormed(before) && Pruned(before, t, [], {}, keep) && p in before && !before[p].Dir?
    ensures p in t <==> p in keep
  {
    HoldsItself(before, keep, p);
    assert Stays(before, [], {}, keep, p) <==> Holds(before, keep, p);
  }

  lemma OnlyKept(before: Tree, t: Tree, keep: set<Path>)
    requires WellFormed(before) && Pruned(before, t, [], {}, keep)
    ensures forall p :: p in t && !t[p].Dir? <==> p in before && !before[p].Dir? && p in keep
    ensures forall p :: p in t && p != [] ==> Holds(t, keep, p)
  {
    forall p | p in before && !before[p].Dir? ensures p in t <==> p in keep {
      FileStays(before, t, keep, p);
    }
    forall p | p in t && p != [] ensures Holds(t, keep, p) {
      assert Stays(before, [], {}, keep, p);
      var q :| KeepsAt(before, keep, p, q);
      FileStays(before, t, keep, q);
      assert KeepsAt(t, keep, p, q);
    }
  }

  // ---- A copy and a pruning together ----

  /** The files are those that belong in the copy, each of the size and time it has in
      the source, and of its bytes unless it was left alone with others; every
      directory leads to a file. */
  ghost predicate Mirrors(src: Tree, skip: set<string>, before: Tree, t: Tree, existing: Existing) {
    WellFormed(t) &&
    (forall p :: p in t && !t[p].Dir? <==> Kept(src, skip, p)) &&
    (forall p :: Kept(src, skip, p) ==> SameFile(src[p], t, p)) &&
    (forall p :: Kept(src, skip, p) ==> (t[p] == src[p] <==> Copies(src[p], before, p, existing) || before[p] == src[p])) &&
    (forall p :: p in t && p != [] ==> Holds(t, KeptFiles(src, skip), p))
  }

  lemma CopyThenPrune(src: Tree, skip: set<string>, before: Tree, t1: Tree, t2: Tree, existing: Existing, seen: set<Path>)
    requires seen == KeptFiles(src, skip) && CopiedInto(src, before, t1, seen, existing) && KeepsFiles(t1, t2, seen) && WellFormed(t2)
    requires forall p :: p in t2 && !t2[p].Dir? <==> p in t1 && !t1[p].Dir? && p in seen
    requires forall p :: p in t2 && p != [] ==> Holds(t2, seen, p)
    ensures Mirrors(src, skip, before, t2, existing)
  {
    forall p | Kept(src, skip, p) ensures p in t2 && t2[p] == t1[p] && t2[p].File? {
      assert p in seen;
    }
  }

  /** Under `Replace` always, and under `KeepUnchanged` when equal size and time mean
      equal bytes, the destination ends as an exact mirror. */
  method Mirror(src: Tree, skip: set<string>, dst: Destination, existing: Existing) returns (ok: bool, copied: nat)
    requires WellFormed(src) && WellFormed(dst.t)
    modifies dst
    ensures ok ==> Mirrors(src, skip, old(dst.t), dst.t, existing)
    ensures ok ==> copied == |set p | p in src && Kept(src, skip, p) && Copies(src[p], old(dst.t), p, existing)|
  {
    var out;
    ok, out := CopyTree(src, skip, dst, existing);
    copied := out.copied;
    if ok {
      assert out.newly == set p | p in src && Kept(src, skip, p) && Copies(src[p], old(dst.t), p, existing);
      ghost var t1 := dst.t;
      var removed;
      ok, removed := Prune(dst, out.seen);
      if ok {
        CopyThenPrune(src, skip, old(dst.t), t1, dst.t, existing, out.seen);
      }
    }
  }

  /** A backup repeated over an unchanged store. */
  method MirrorTwice(src: Tree, skip: set<string>, dst: Destination, first: Existing) returns (ok: bool, copied: nat)
    requires WellFormed(src) && WellFormed(dst.t)
    modifies dst
    ensures ok ==> copied == 0 && Mirrors(src, skip, old(dst.t), dst.t, first)
  {
    ok, copied := Mirror(src, skip, dst, first);
    if ok {
      ghost var t1 := dst.t;
      ok, copied := Mirror(src, skip, dst, KeepUnchanged);
      if ok {
        assert (set p | p in src && Kept(src, skip, p) && Copies(src[p], t1, p, KeepUnchanged)) == {};
      }
    }
  }
}
