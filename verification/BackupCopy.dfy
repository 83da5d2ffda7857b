/** Copying a tree into a directory that may hold an older copy, and removing what the
    tree no longer has. */
module BackupCopy {
  import opened Options
  import opened FileTree

  datatype Existing = KeepUnchanged | Replace

  predicate EndsWith(s: string, suffix: string) { |suffix| <= |s| && s[|s| - |suffix|..] == suffix }

  predicate IsTemp(name: string) { EndsWith(name, ".tmp") || EndsWith(name, ".backup-tmp") }

  /** The directories the copy visits. */
  predicate Visits(src: Tree, skip: set<string>, d: Path) { IsDir(src, d) && (d != [] ==> d[0] !in skip) }

  /** The files that belong in the copy. */
  predicate Kept(src: Tree, skip: set<string>, p: Path) {
    p in src && src[p].File? && p != [] && !IsTemp(Name(p)) && Visits(src, skip, Parent(p))
  }

  function KeptFiles(src: Tree, skip: set<string>): set<Path> { set p | p in src && Kept(src, skip, p) }

  /** Whether the destination already holds a file of that size and time. */
  predicate SameFile(file: Node, t: Tree, p: Path)
    requires file.File?
  {
    p in t && t[p].File? && t[p].size == file.size && t[p].time == file.time
  }

  predicate Copies(file: Node, t: Tree, p: Path, existing: Existing)
    requires file.File?
  {
    existing.Replace? || !SameFile(file, t, p)
  }

  /** The destination after the files `seen` were copied into what it held before. */
  ghost predicate CopiedInto(src: Tree, before: Tree, t: Tree, seen: set<Path>, existing: Existing) {
    (forall p :: p in seen ==>
      p in src && src[p].File? && p in t && t[p] == if Copies(src[p], before, p, existing) then src[p] else before[p]) &&
    (forall p :: p in before && p !in seen ==> p in t && t[p] == before[p]) &&
    (forall p :: p in t && p !in before && p !in seen ==> IsDir(src, p) && t[p].Dir?)
  }

  datatype TreeCopy = TreeCopy(seen: set<Path>, newly: set<Path>, files: nat, bytes: nat, copied: nat, copiedBytes: nat)

  function SizeOf(src: Tree, p: Path): nat { if p in src && src[p].File? then src[p].size else 0 }

  ghost function AnyOf(ps: set<Path>): (p: Path)
    requires ps != {}
    ensures p in ps
  {
    var p :| p in ps; p
  }

  ghost function TotalSize(src: Tree, ps: set<Path>): nat {
    if ps == {} then 0 else SizeOf(src, AnyOf(ps)) + TotalSize(src, ps - {AnyOf(ps)})
  }

  lemma {:induction false} SizeWithout(src: Tree, ps: set<Path>, p: Path)
    requires p in ps
    ensures TotalSize(src, ps) == SizeOf(src, p) + TotalSize(src, ps - {p})
    decreases ps
  {
    var q := AnyOf(ps);
    if q != p {
      SizeWithout(src, ps - {q}, p);
      SizeWithout(src, ps - {p}, q);
      assert ps - {q} - {p} == ps - {p} - {q};
    }
  }

  lemma SizeWith(src: Tree, ps: set<Path>, p: Path)
    requires p !in ps
    ensures TotalSize(src, ps + {p}) == TotalSize(src, ps) + SizeOf(src, p)
  {
    SizeWithout(src, ps + {p}, p);
    assert ps + {p} - {p} == ps;
  }

  ghost predicate Counts(src: Tree, before: Tree, existing: Existing, out: TreeCopy) {
    (forall p :: p in out.newly <==> p in out.seen && p in src && src[p].File? && Copies(src[p], before, p, existing)) &&
    out.files == |out.seen| && out.bytes == TotalSize(src, out.seen) &&
    out.copied == |out.newly| && out.copiedBytes == TotalSize(src, out.newly)
  }

  method Call() returns (ok: bool) {
    ok := *;
  }

  class Destination {
    var t: Tree

    constructor (t: Tree)
      ensures this.t == t
    {
      this.t := t;
    }

    /** Creates one directory whose parent exists; fails on anything else there. */
    method CreateDir(p: Path) returns (ok: bool)
      requires WellFormed(t) && (p == [] || IsDir(t, Parent(p)))
      modifies this
      ensures WellFormed(t)
      ensures ok ==> t == old(t)[p := Dir]
      ensures p in old(t) && !old(t)[p].Dir? ==> !ok
      ensures !ok ==> t == old(t)
    {
      ok := Call();
      if p in t && !t[p].Dir? {
        ok := false;
      } else if ok {
        ghost var before := t;
        t := t[p := Dir];
        forall q | q in t && q != [] ensures IsDir(t, Parent(q)) {
          assert q != p ==> IsDir(before, Parent(q));
        }
      }
    }

    /** Through a temp file and a rename, keeping the time; fails on a directory. */
    method CopyFile(file: Node, p: Path) returns (ok: bool)
      requires WellFormed(t) && file.File? && p != [] && IsDir(t, Parent(p))
      modifies this
      ensures WellFormed(t)
      ensures ok ==> t == old(t)[p := file] && !IsDir(old(t), p)
      ensures !ok ==> t == old(t)
    {
      ok := Call();
      if p in t && t[p].Dir? {
        ok := false;
      } else if ok {
        t := t[p := file];
        forall q | q in t && q != [] ensures IsDir(t, Parent(q)) {
          assert q in old(t) || q == p;
        }
      }
    }
  }

  /** The files found in the directories `done`, and in `d` but for the names `left`. */
  ghost predicate Seen(src: Tree, skip: set<string>, done: set<Path>, d: Path, left: set<string>, seen: set<Path>) {
    forall p :: p in seen <==> Kept(src, skip, p) && (Parent(p) in done || (Parent(p) == d && Name(p) !in left))
  }

  /** The stack holds the directories found and not yet visited, each once. */
  ghost predicate Stacked(src: Tree, skip: set<string>, done: set<Path>, d: Path, left: set<string>, stack: seq<Path>, t: Tree) {
    (forall i :: 0 <= i < |stack| ==>
      Visits(src, skip, stack[i]) && IsDir(t, stack[i]) && stack[i] !in done && stack[i] != d &&
      (stack[i] != [] ==> Parent(stack[i]) in done || (Parent(stack[i]) == d && Name(stack[i]) !in left))) &&
    (forall i, j :: 0 <= i < j < |stack| ==> stack[i] != stack[j]) &&
    (forall c :: Visits(src, skip, c) && (c == [] || Parent(c) in done || (Parent(c) == d && Name(c) !in left)) ==>
      c in done || c == d || c in stack)
  }

  lemma OneChild(d: Path, n: string, p: Path)
    ensures p != [] && Parent(p) == d && Name(p) == n <==> p == d + [n]
    ensures d + [n] != [] && (d + [n])[0] == (if d == [] then n else d[0])
  {
  }

  /** One name less is left, whether its entry belongs in the copy or not. */
  lemma SeenOneMore(src: Tree, skip: set<string>, done: set<Path>, d: Path, left: set<string>, n: string, seen: set<Path>)
    requires Visits(src, skip, d) && d !in done && n in left && Seen(src, skip, done, d, left, seen)
    ensures Kept(src, skip, d + [n]) ==> Seen(src, skip, done, d, left - {n}, seen + {d + [n]}) && d + [n] !in seen
    ensures !Kept(src, skip, d + [n]) ==> Seen(src, skip, done, d, left - {n}, seen)
  {
    var child := d + [n];
    OneChild(d, n, child);
    forall p ensures Kept(src, skip, p) && Parent(p) == d && Name(p) !in left - {n} <==>
        (Kept(src, skip, p) && Parent(p) == d && Name(p) !in left) || (p == child && Kept(src, skip, p))
    {
      if p != [] {
        OneChild(d, n, p);
      }
    }
  }

  lemma StackOneMore(src: Tree, skip: set<string>, done: set<Path>, d: Path, left: set<string>, n: string, stack: seq<Path>, t: Tree)
    requires d !in done && n in left && Stacked(src, skip, done, d, left, stack, t)
    ensures Visits(src, skip, d + [n]) && d + [n] !in done && IsDir(t, d + [n]) ==>
      Stacked(src, skip, done, d, left - {n}, stack + [d + [n]], t)
    ensures !Visits(src, skip, d + [n]) ==> Stacked(src, skip, done, d, left - {n}, stack, t)
  {
    var child := d + [n];
    OneChild(d, n, child);
    assert child !in stack;
    forall c | c != [] && Parent(c) == d && Name(c) !in left - {n} ensures c == child || Name(c) !in left {
      OneChild(d, n, c);
    }
  }

  lemma StackInLargerTree(src: Tree, skip: set<string>, done: set<Path>, d: Path, left: set<string>, stack: seq<Path>, t: Tree, t': Tree)
    requires Stacked(src, skip, done, d, left, stack, t) && forall p :: IsDir(t, p) ==> IsDir(t', p)
    ensures Stacked(src, skip, done, d, left, stack, t')
  {
  }

  lemma CopiedOneMore(src: Tree, before: Tree, t: Tree, t': Tree, seen: set<Path>, existing: Existing, child: Path)
    requires CopiedInto(src, before, t, seen, existing) && child in src && src[child].File? && child !in seen
    requires if Copies(src[child], before, child, existing) then t' == t[child := src[child]] && !IsDir(t, child) else t' == t
    ensures CopiedInto(src, before, t', seen + {child}, existing)
  {
    assert Copies(src[child], before, child, existing) || child in before;
    forall p | p in t' && p !in before && p !in seen + {child} ensures IsDir(src, p) && t'[p].Dir? {
      assert p in t;
    }
  }

  /** The counters after one more file. */
  function Counted(src: Tree, out: TreeCopy, child: Path, copied: bool): TreeCopy {
    var size := SizeOf(src, child);
    var found := out.(seen := out.seen + {child}, files := out.files + 1, bytes := out.bytes + size);
    if copied then found.(newly := out.newly + {child}, copied := out.copied + 1, copiedBytes := out.copiedBytes + size) else found
  }

  lemma CountsOneMore(src: Tree, before: Tree, existing: Existing, out: TreeCopy, child: Path)
    requires Counts(src, before, existing, out) && child in src && src[child].File? && child !in out.seen
    ensures Counts(src, before, existing, Counted(src, out, child, Copies(src[child], before, child, existing)))
  {
    assert child !in out.newly;
    SizeWith(src, out.seen, child);
    SizeWith(src, out.newly, child);
  }

  lemma DecidedAsBefore(src: Tree, before: Tree, t: Tree, seen: set<Path>, existing: Existing, child: Path)
    requires CopiedInto(src, before, t, seen, existing) && child in src && src[child].File? && child !in seen
    ensures Copies(src[child], t, child, existing) == Copies(src[child], before, child, existing)
  {
    assert child in t && child !in before ==> IsDir(t, child);
  }

  lemma OneMoreFile(src: Tree, before: Tree, t: Tree, t': Tree, out: TreeCopy, existing: Existing, child: Path)
    requires CopiedInto(src, before, t, out.seen, existing) && Counts(src, before, existing, out)
    requires child in src && src[child].File? && child !in out.seen
    requires if Copies(src[child], t, child, existing) then t' == t[child := src[child]] && !IsDir(t, child) else t' == t
    ensures var out' := Counted(src, out, child, Copies(src[child], t, child, existing));
      CopiedInto(src, before, t', out'.seen, existing) && Counts(src, before, existing, out') && out'.seen == out.seen + {child}
  {
    DecidedAsBefore(src, before, t, out.seen, existing, child);
    CopiedOneMore(src, before, t, t', out.seen, existing, child);
    CountsOneMore(src, before, existing, out, child);
  }

  /** The next file of the copy. */
  method CopyOne(src: Tree, dst: Destination, existing: Existing, child: Path, out: TreeCopy, ghost before: Tree)
    returns (ok: bool, out': TreeCopy)
    requires WellFormed(dst.t) && child in src && src[child].File? && child != [] && IsDir(dst.t, Parent(child)) && child !in out.seen
    requires CopiedInto(src, before, dst.t, out.seen, existing) && Counts(src, before, existing, out)
    modifies dst
    ensures WellFormed(dst.t) && forall p :: IsDir(old(dst.t), p) ==> IsDir(dst.t, p)
    ensures ok ==> CopiedInto(src, before, dst.t, out'.seen, existing) && Counts(src, before, existing, out')
    ensures ok ==> out'.seen == out.seen + {child}
  {
    ok, out' := true, out;
    ghost var t := dst.t;
    var copied := existing.Replace? || !SameFile(src[child], dst.t, child);
    if copied {
      ok := dst.CopyFile(src[child], child);
      if !ok {
        return;
      }
    }
    out' := Counted(src, out, child, copied);
    OneMoreFile(src, before, t, dst.t, out, existing, child);
  }

  /** One entry of the directory `d`. */
  method CopyEntry(src: Tree, skip: set<string>, dst: Destination, existing: Existing, d: Path, n: string,
                   out: TreeCopy, stack: seq<Path>, ghost before: Tree, ghost done: set<Path>, ghost left: set<string>)
    returns (ok: bool, out': TreeCopy, stack': seq<Path>)
    requires WellFormed(src) && WellFormed(dst.t) && Visits(src, skip, d) && IsDir(dst.t, d) && d !in done
    requires d + [n] in src && n in left && d + [n] !in done
    requires CopiedInto(src, before, dst.t, out.seen, existing) && Counts(src, before, existing, out)
    requires Seen(src, skip, done, d, left, out.seen) && Stacked(src, skip, done, d, left, stack, dst.t)
    modifies dst
    ensures WellFormed(dst.t) && IsDir(dst.t, d)
    ensures ok ==> CopiedInto(src, before, dst.t, out'.seen, existing) && Counts(src, before, existing, out')
    ensures ok ==> Seen(src, skip, done, d, left - {n}, out'.seen) && Stacked(src, skip, done, d, left - {n}, stack', dst.t)
  {
    var child := d + [n];
    OneChild(d, n, child);
    SeenOneMore(src, skip, done, d, left, n, out.seen);
    ok, out', stack' := true, out, stack;
    ghost var t := dst.t;
    if src[child].Dir? {
      if d != [] || n !in skip {
        ok := dst.CreateDir(child);
        stack' := stack + [child];
      }
    } else if src[child].File? && !IsTemp(n) {
      ok, out' := CopyOne(src, dst, existing, child, out, before);
    }
    StackInLargerTree(src, skip, done, d, left, stack, t, dst.t);
    StackOneMore(src, skip, done, d, left, n, stack, dst.t);
  }

  function Dirs(src: Tree): set<Path> { set p | p in src && src[p].Dir? }

  /** All entries of the directory `d`. */
  method CopyDirectory(src: Tree, skip: set<string>, dst: Destination, existing: Existing, d: Path, out: TreeCopy, stack: seq<Path>,
                       ghost before: Tree, ghost done: set<Path>)
    returns (ok: bool, out': TreeCopy, stack': seq<Path>)
    requires WellFormed(src) && WellFormed(dst.t) && Visits(src, skip, d) && IsDir(dst.t, d) && d !in done
    requires forall c :: c in done && c != [] ==> Parent(c) in done
    requires CopiedInto(src, before, dst.t, out.seen, existing) && Counts(src, before, existing, out)
    requires Seen(src, skip, done, d, Names(src, d), out.seen) && Stacked(src, skip, done, d, Names(src, d), stack, dst.t)
    modifies dst
    ensures ok ==> WellFormed(dst.t)
    ensures ok ==> CopiedInto(src, before, dst.t, out'.seen, existing) && Counts(src, before, existing, out')
    ensures ok ==> Seen(src, skip, done, d, {}, out'.seen) && Stacked(src, skip, done, d, {}, stack', dst.t)
  {
    ok, out', stack' := true, out, stack;
    var left := Names(src, d);
    while left != {}
      invariant WellFormed(dst.t) && IsDir(dst.t, d) && left <= Names(src, d)
      invariant CopiedInto(src, before, dst.t, out'.seen, existing) && Counts(src, before, existing, out')
      invariant Seen(src, skip, done, d, left, out'.seen) && Stacked(src, skip, done, d, left, stack', dst.t)
      decreases left
    {
      var n :| n in left;
      NamesAreEntries(src, d, n);
      OneChild(d, n, d + [n]);
      ok, out', stack' := CopyEntry(src, skip, dst, existing, d, n, out', stack', before, done, left);
      if !ok {
        return;
      }
      left := left - {n};
    }
  }

  /** The stack holds the directories found and not yet visited, each once. */
  ghost predicate Waiting(src: Tree, skip: set<string>, done: set<Path>, stack: seq<Path>, t: Tree) {
    (forall c :: c in done ==> Visits(src, skip, c) && (c != [] ==> Parent(c) in done)) &&
    (forall i :: 0 <= i < |stack| ==>
      Visits(src, skip, stack[i]) && IsDir(t, stack[i]) && stack[i] !in done && (stack[i] != [] ==> Parent(stack[i]) in done)) &&
    (forall i, j :: 0 <= i < j < |stack| ==> stack[i] != stack[j]) &&
    (forall c :: Visits(src, skip, c) && (c == [] || Parent(c) in done) ==> c in done || c in stack)
  }

  lemma PopDirectory(src: Tree, skip: set<string>, done: set<Path>, stack: seq<Path>, d: Path, t: Tree)
    requires Waiting(src, skip, done, stack + [d], t)
    ensures Visits(src, skip, d) && IsDir(t, d) && d !in done
    ensures Stacked(src, skip, done, d, Names(src, d), stack, t)
  {
    var whole := stack + [d];
    assert whole[|stack|] == d;
    forall i | 0 <= i < |stack| ensures whole[i] == stack[i] {}
    forall c | Visits(src, skip, c) && c != [] && Parent(c) == d ensures Name(c) in Names(src, d) {
      NamesAreEntries(src, d, Name(c));
      OneChild(d, Name(c), c);
    }
  }

  lemma DirectoryDone(src: Tree, skip: set<string>, done: set<Path>, stack: seq<Path>, d: Path, t: Tree)
    requires Stacked(src, skip, done, d, {}, stack, t) && Visits(src, skip, d) && (d != [] ==> Parent(d) in done)
    requires forall c :: c in done ==> Visits(src, skip, c) && (c != [] ==> Parent(c) in done)
    ensures Waiting(src, skip, done + {d}, stack, t)
  {
  }

  /** Every directory the copy visits is reached from the root. */
  lemma {:induction false} AllReached(src: Tree, skip: set<string>, done: set<Path>, d: Path)
    requires WellFormed(src) && Visits(src, skip, d) && [] in done
    requires forall c :: Visits(src, skip, c) && c != [] && Parent(c) in done ==> c in done
    ensures d in done
    decreases |d|
  {
    if d != [] {
      assert IsDir(src, Parent(d));
      assert Parent(d) != [] ==> Parent(d)[0] == d[0];
      AllReached(src, skip, done, Parent(d));
    }
  }

  /** Where the copy stands once it has visited the directories `done`. */
  ghost predicate Standing(src: Tree, skip: set<string>, existing: Existing, before: Tree, t: Tree,
                           done: set<Path>, stack: seq<Path>, out: TreeCopy)
  {
    WellFormed(t) && CopiedInto(src, before, t, out.seen, existing) && Counts(src, before, existing, out) &&
    (forall p :: p in out.seen <==> Kept(src, skip, p) && Parent(p) in done) && Waiting(src, skip, done, stack, t)
  }

  lemma RootAdded(src: Tree, existing: Existing, before: Tree)
    requires WellFormed(before) && IsDir(src, []) && ([] in before ==> before[[]].Dir?)
    ensures WellFormed(before[[] := Dir]) && CopiedInto(src, before, before[[] := Dir], {}, existing)
  {
    forall q | q in before[[] := Dir] && q != [] ensures IsDir(before[[] := Dir], Parent(q)) {
      assert IsDir(before, Parent(q));
    }
  }

  lemma RootWaits(src: Tree, skip: set<string>, t: Tree)
    requires IsDir(src, []) && IsDir(t, [])
    ensures Waiting(src, skip, {}, [[]], t)
  {
  }

  lemma Starts(src: Tree, skip: set<string>, existing: Existing, before: Tree)
    requires WellFormed(src) && WellFormed(before) && IsDir(src, []) && ([] in before ==> before[[]].Dir?)
    ensures Standing(src, skip, existing, before, before[[] := Dir], {}, [[]], TreeCopy({}, {}, 0, 0, 0, 0))
  {
    RootAdded(src, existing, before);
    RootWaits(src, skip, before[[] := Dir]);
  }

  lemma NothingSeenHere(src: Tree, skip: set<string>, done: set<Path>, d: Path, seen: set<Path>)
    requires d !in done && forall p :: p in seen <==> Kept(src, skip, p) && Parent(p) in done
    ensures Seen(src, skip, done, d, Names(src, d), seen)
  {
    forall p | Kept(src, skip, p) && Parent(p) == d ensures Name(p) in Names(src, d) {
      NamesAreEntries(src, d, Name(p));
      OneChild(d, Name(p), p);
    }
  }

  /** Before the directory on top of the stack. */
  lemma NextStarts(src: Tree, skip: set<string>, existing: Existing, before: Tree, t: Tree, done: set<Path>, rest: seq<Path>, d: Path,
                   out: TreeCopy)
    requires Standing(src, skip, existing, before, t, done, rest + [d], out)
    ensures Visits(src, skip, d) && IsDir(t, d) && d !in done && (d != [] ==> Parent(d) in done)
    ensures Stacked(src, skip, done, d, Names(src, d), rest, t) && Seen(src, skip, done, d, Names(src, d), out.seen)
    ensures forall c :: c in done ==> Visits(src, skip, c) && (c != [] ==> Parent(c) in done)
  {
    PopDirectory(src, skip, done, rest, d, t);
    NothingSeenHere(src, skip, done, d, out.seen);
    assert (rest + [d])[|rest|] == d;
  }

  /** And after it. */
  lemma NextStands(src: Tree, skip: set<string>, existing: Existing, before: Tree, t: Tree, done: set<Path>, stack: seq<Path>, d: Path,
                   out: TreeCopy)
    requires Visits(src, skip, d) && (d != [] ==> Parent(d) in done)
    requires forall c :: c in done ==> Visits(src, skip, c) && (c != [] ==> Parent(c) in done)
    requires WellFormed(t) && CopiedInto(src, before, t, out.seen, existing) && Counts(src, before, existing, out)
    requires Seen(src, skip, done, d, {}, out.seen) && Stacked(src, skip, done, d, {}, stack, t)
    ensures Standing(src, skip, existing, before, t, done + {d}, stack, out)
  {
    DirectoryDone(src, skip, done, stack, d, t);
  }

  /** The directory on top of the stack. */
  method CopyNext(src: Tree, skip: set<string>, dst: Destination, existing: Existing, out: TreeCopy, stack: seq<Path>,
                  ghost before: Tree, ghost done: set<Path>)
    returns (ok: bool, out': TreeCopy, stack': seq<Path>)
    requires WellFormed(src) && stack != [] && Standing(src, skip, existing, before, dst.t, done, stack, out)
    modifies dst
    ensures Visits(src, skip, stack[|stack| - 1]) && stack[|stack| - 1] !in done
    ensures ok ==> Standing(src, skip, existing, before, dst.t, done + {stack[|stack| - 1]}, stack', out')
  {
    var d, rest := stack[|stack| - 1], stack[..|stack| - 1];
    assert stack == rest + [d];
    NextStarts(src, skip, existing, before, dst.t, done, rest, d, out);
    ok, out', stack' := CopyDirectory(src, skip, dst, existing, d, out, rest, before, done);
    if ok {
      NextStands(src, skip, existing, before, dst.t, done, stack', d, out');
    }
  }

  lemma EverythingSeen(src: Tree, skip: set<string>, existing: Existing, before: Tree, t: Tree, done: set<Path>, out: TreeCopy)
    requires WellFormed(src) && Standing(src, skip, existing, before, t, done, [], out)
    ensures out.seen == KeptFiles(src, skip)
  {
    assert forall c :: Visits(src, skip, c) && (c == [] || Parent(c) in done) ==> c in done;
    forall d | Visits(src, skip, d) ensures d in done {
      if d != [] {
        AncestorsAreDirs(src, d, 0);
        assert d[..0] == [];
      }
      assert Visits(src, skip, []);
      AllReached(src, skip, done, d);
    }
  }

  lemma NothingToKeep(src: Tree, skip: set<string>)
    requires WellFormed(src) && [] !in src
    ensures KeptFiles(src, skip) == {}
  {
    if p :| p in src && Kept(src, skip, p) {
      AncestorsAreDirs(src, p, 0);
    }
  }

  /** Makes every file that belongs in the copy exist in the destination; what is
      there already stays as it is, or is replaced. Ends for every tree. */
  method CopyTree(src: Tree, skip: set<string>, dst: Destination, existing: Existing) returns (ok: bool, out: TreeCopy)
    requires WellFormed(src) && WellFormed(dst.t)
    modifies dst
    ensures ok ==> WellFormed(dst.t) && CopiedInto(src, old(dst.t), dst.t, out.seen, existing)
    ensures ok ==> out.seen == KeptFiles(src, skip) && Counts(src, old(dst.t), existing, out)
  {
    out := TreeCopy({}, {}, 0, 0, 0, 0);
    if [] !in src {
      NothingToKeep(src, skip);
      return true, out;
    }
    ok := dst.CreateDir([]);
    if !ok {
      return;
    }
    var stack: seq<Path> := [[]];
    ghost var before, done := old(dst.t), {};
    Starts(src, skip, existing, before);
    while stack != []
      invariant Standing(src, skip, existing, before, dst.t, done, stack, out)
      decreases Dirs(src) - done
    {
      ghost var d := stack[|stack| - 1];
      ok, out, stack := CopyNext(src, skip, dst, existing, out, stack, before, done);
      if !ok {
        return;
      }
      done := done + {d};
    }
    EverythingSeen(src, skip, existing, before, dst.t, done, out);
  }
}
