/** The operations that go over many versions or blobs, as loops: removing versions
    from a feed, removing a feed, and the two sweeps. Any call may fail; `failed`
    counts the failures that are logged and passed over. */
module Sweeps {
  import opened Options
  import opened Store
  import opened Operations
  import opened StoreInvariants
  import opened Indexing

  /** The blob store after a sweep that made no error. */
  ghost function Referenced(w: World): set<Blob> {
    set b | b in w.blobs && w.References(b) != {}
  }

  ghost predicate AllFilesStored(w: World) { forall v :: FilesStored(w, v) }

  /** Versions some feed holds are as they were. */
  ghost predicate HeldKept(w: World, w': World) {
    forall v :: w.At(v).Held() ==> w'.At(v) == w.At(v)
  }

  /** Nothing is held that was not. */
  ghost predicate NoneNew(w: World, w': World) {
    forall v, f :: f in w'.At(v).members ==> f in w.At(v).members && w'.At(v).members[f] == w.At(v).members[f]
  }

  /** A version another feed holds keeps everything but this feed's membership. */
  ghost predicate Keeps(x: Version, x': Version, f: Feed) {
    forall g :: g != f && g in x.members ==> x' == x.(members := x'.members) && g in x'.members
  }

  ghost predicate OthersKeep(w: World, w': World, f: Feed) { forall v :: Keeps(w.At(v), w'.At(v), f) }

  /** The feed's membership is gone, and with the last one the row. */
  predicate Dropped(x: Version, f: Feed) { f !in x.members && (!x.Held() ==> x.row.None?) }

  class Sweeper {
    var w: World

    constructor (w: World)
      ensures this.w == w
    {
      this.w := w;
    }

    /** Deletes the listed blobs that nothing references. */
    method SweepUnreferencedBlobs() returns (removed: nat, failed: nat)
      requires AllFilesStored(w)
      modifies this
      ensures w.versions == old(w).versions && AllFilesStored(w)
      ensures Referenced(old(w)) <= w.blobs <= old(w).blobs && removed == |old(w).blobs| - |w.blobs|
      ensures failed == 0 ==> w.blobs == Referenced(old(w))
    {
      removed, failed := 0, 0;
      var listed := Call();
      if !listed { return 0, 1; }
      ghost var was := w;
      var todo := w.blobs;
      while todo != {}
        invariant w.versions == was.versions && AllFilesStored(w) && todo <= w.blobs
        invariant Referenced(was) <= w.blobs <= was.blobs && removed + |w.blobs| == |was.blobs|
        invariant failed == 0 ==> w.blobs - todo <= Referenced(was)
      {
        var b :| b in todo;
        todo := todo - {b};
        SameReferences(was, w, b);
        var counted := Call();
        if !counted { failed := failed + 1; }
        else if |w.References(b)| == 0 {
          var deleted := Call();
          if deleted {
            DeleteUnreferenced(w, b);
            w := w.(blobs := w.blobs - {b});
            removed := removed + 1;
          } else {
            failed := failed + 1;
          }
        }
      }
    }

    /** Removes a version from a feed, and its global data with the last feed. */
    method PurgeLocked(f: Feed, v: Ver) returns (ok: bool)
      requires AllFilesStored(w)
      modifies this
      ensures AllFilesStored(w) && forall u :: u != v ==> w.At(u) == old(w).At(u)
      ensures ok ==> var x := old(w).At(v);
        w.At(v) == if x.members.Keys <= {f} then Absent else x.(members := x.members - {f})
      ensures !ok ==> w.At(v) == old(w).At(v) || (!w.At(v).Held() && old(w).At(v).members.Keys <= {f}) ||
                      w.At(v) == old(w).At(v).(members := old(w).At(v).members - {f})
    {
      ok := Call();
      if !ok { return; }
      ghost var was := w;
      w := w.Put(v, w.At(v).(members := w.At(v).members - {f}));
      FewerHeld(was, w, v);
      ok := Call();
      if ok && !w.At(v).Held() {
        var x := new LockedVersion(w, v, Purge(f, v), Erasing(EraseSymbols, Finish));
        ok := x.PurgeGlobalData(Purge(f, v), Finish);
        w := x.w;
      }
    }

    /** The same for a cleanup, unless the membership has gone, or was pinned or
        withheld, since the plan was made. */
    method PurgePlanned(f: Feed, v: Ver) returns (ok: bool, removed: bool)
      requires AllFilesStored(w)
      modifies this
      ensures AllFilesStored(w) && forall u :: u != v ==> w.At(u) == old(w).At(u)
      ensures var x := old(w).At(v); if f in x.members && x.members[f].Prunable()
        then removed ==> w.At(v) == if x.members.Keys == {f} then Absent else x.(members := x.members - {f})
        else !removed && w == old(w)
      ensures f in old(w).At(v).members && old(w).At(v).members[f].Prunable() ==> removed == ok
    {
      removed := false;
      ok := Call();
      if !ok || f !in w.At(v).members || !w.At(v).members[f].Prunable() { return; }
      ok := PurgeLocked(f, v);
      removed := ok;
    }

    /** Finishes off the listed versions whose global data no feed holds. */
    method SweepOrphans(orphans: set<Ver>) returns (removed: nat, failed: nat)
      requires AllFilesStored(w)
      modifies this
      ensures AllFilesStored(w) && HeldKept(old(w), w) && NoneNew(old(w), w)
      ensures forall v :: v !in orphans ==> w.At(v) == old(w).At(v)
      ensures failed == 0 ==> forall v :: v in orphans && !w.At(v).Held() ==> w.At(v).row.None?
    {
      removed, failed := 0, 0;
      ghost var was := w;
      var todo := orphans;
      while todo != {}
        invariant AllFilesStored(w) && HeldKept(was, w) && NoneNew(was, w) && todo <= orphans
        invariant forall v :: v !in orphans || v in todo ==> w.At(v) == was.At(v)
        invariant failed == 0 ==> forall v :: v in orphans - todo && !w.At(v).Held() ==> w.At(v).row.None?
      {
        var v :| v in todo;
        todo := todo - {v};
        var checked := Call();
        if !checked { failed := failed + 1; }
        else if !w.At(v).Held() && w.At(v).row.Some? {
          var x := new LockedVersion(w, v, SweepOrphan(v), Erasing(EraseSymbols, Finish));
          var ok := x.PurgeGlobalData(SweepOrphan(v), Finish);
          w := x.w;
          if ok { removed := removed + 1; } else { failed := failed + 1; }
        }
      }
    }

    /** Drops every membership of a feed, and the global data of each version no other
        feed holds, stopping at the first failure. */
    method RemoveFeed(f: Feed, listed: set<Ver>) returns (ok: bool)
      requires AllFilesStored(w)
      requires forall v :: f in w.At(v).members ==> v in listed
      modifies this
      ensures AllFilesStored(w) && NoneNew(old(w), w)
      ensures OthersKeep(old(w), w, f)
      ensures ok ==> forall v :: f !in w.At(v).members && (v in listed && !w.At(v).Held() ==> w.At(v).row.None?)
    {
      ok := true;
      ghost var was := w;
      var todo := listed;
      while ok && todo != {}
        invariant AllFilesStored(w) && NoneNew(was, w) && todo <= listed
        invariant forall v :: v in todo || v !in listed ==> w.At(v) == was.At(v)
        invariant OthersKeep(was, w, f)
        invariant ok ==> forall v :: v in listed && v !in todo ==> Dropped(w.At(v), f)
        decreases |todo|
      {
        var v :| v in todo;
        todo := todo - {v};
        ghost var before := w;
        ok := RemoveMember(f, v);
        KeepsOn(was, before, w, f, v);
      }
    }

    method RemoveMember(f: Feed, v: Ver) returns (ok: bool)
      requires AllFilesStored(w)
      modifies this
      ensures AllFilesStored(w) && NoneNew(old(w), w) && forall u :: u != v ==> w.At(u) == old(w).At(u)
      ensures Keeps(old(w).At(v), w.At(v), f)
      ensures ok ==> Dropped(w.At(v), f)
    {
      ok := Call();
      if !ok { return; }
      ghost var was := w;
      w := w.Put(v, w.At(v).(members := w.At(v).members - {f}));
      FewerHeld(was, w, v);
      ok := Call();
      if ok && !w.At(v).Held() && w.At(v).row.Some? {
        var x := new LockedVersion(w, v, Operations.RemoveFeed(f, v), Erasing(EraseSymbols, Finish));
        ok := x.PurgeGlobalData(Operations.RemoveFeed(f, v), Finish);
        w := x.w;
      }
    }
  }

  lemma KeepsOn(was: World, before: World, w: World, f: Feed, v: Ver)
    requires OthersKeep(was, before, f) && Keeps(before.At(v), w.At(v), f) && forall u :: u != v ==> w.At(u) == before.At(u)
    ensures OthersKeep(was, w, f)
  {
    forall u ensures Keeps(was.At(u), w.At(u), f) {
      assert Keeps(was.At(u), before.At(u), f);
    }
  }

  lemma FewerHeld(w: World, w': World, v: Ver)
    requires AllFilesStored(w) && w'.blobs == w.blobs && (w'.At(v).Held() ==> w.At(v).Held())
    requires w'.At(v).files == w.At(v).files && forall u :: u != v ==> w'.At(u) == w.At(u)
    ensures AllFilesStored(w')
  {
    forall u ensures FilesStored(w', u) { assert FilesStored(w, u); }
  }
}
