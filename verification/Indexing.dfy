/** A push from its first call to its last under the version's lock, with what it
    undoes when a call fails. Any call may fail, without effect. */
module Indexing {
  import opened Options
  import opened Store
  import opened Operations
  import opened Server
  import opened StoreInvariants
  import opened Traces

  /** The row describes the pushed content, but an earlier overwrite has left other bytes
      that it could not replace by the row's. */
  predicate Masked(x: Version, job: Job)
    requires job.Push?
  {
    x.Held() && x.row == Some(Sha512(job.build)) && x.payload.Some? && x.payload != Some(job.build)
  }

  /** The push did what it was asked for: the row and the membership are the pushed
      build's, and so are the bytes that clients get, unless `Masked` bytes stay. */
  predicate Recorded(x: Version, x': Version, job: Job)
    requires job.Push?
  {
    job.feed in x'.members && x'.row == Some(Sha512(job.build)) && (x'.payload == Some(job.build) <==> !Masked(x, job))
  }

  /** What a refused or failed push leaves of a version that feeds hold: everything as
      it was, the payload too unless it could not be put back. */
  predicate Unchanged(x: Version, x': Version) {
    x'.row == x.row && x'.members == x.members && x'.files == x.files &&
    (!x'.unrestored ==> x'.payload == x.payload) && (x.unrestored ==> x'.unrestored)
  }

  /** A version with one more membership. */
  function Joined(x: Version, row: Digest, f: Feed, m: Member): Version {
    x.(row := Some(x.row.GetOr(row)), members := x.members[f := m])
  }

  /** The choice of a call that is no loop's. */
  function Outcome(ok: bool): Choice { Choice(ok, Sha256("")) }

  lemma PutTwice(w: World, v: Ver, x: Version, y: Version)
    ensures w.Put(v, x).Put(v, y) == w.Put(v, y) && w.Put(v, x).At(v) == x
  {
    assert w.Put(v, x).Put(v, y).versions == w.Put(v, y).versions;
  }

  lemma PutReferences(w: World, v: Ver, b: Blob)
    ensures w.Put(v, w.At(v)).References(b) == w.References(b)
  {
  }

  /** The storage and database calls for one version whose lock is held. `trace` is
      what the machine's operation would have called. */
  class LockedVersion {
    const ver: Ver
    var w: World
    ghost var trace: Trace

    function X(): Version
      reads `w
    {
      w.At(ver)
    }

    ghost function Here(): World
      reads `w
    {
      w.Put(ver, X())
    }

    /** The operation of the machine would now make the call `pc`. */
    ghost predicate On(job: Job, pc: Pc)
      reads this
    {
      trace.job == job && !job.SweepBlob? && job.ver == ver && trace.End() == Some((Here(), pc))
    }

    constructor (w: World, ver: Ver, ghost job: Job, ghost pc: Pc)
      requires PcFits(job, pc) && !job.SweepBlob? && job.ver == ver
      ensures this.w == w && this.ver == ver && On(job, pc) && trace == Begin(Here(), job, pc)
    {
      this.w, this.ver, trace := w, ver, Begin(w.Put(ver, w.At(ver)), job, pc);
    }

    /** The machine's call that has just been made. */
    ghost method Made(job: Job, was: World, pc: Pc, c: Choice, next: Pc)
      requires trace.job == job && !job.SweepBlob? && job.ver == ver && trace.End() == Some((was, pc))
      requires Traces.Made(job, (was, pc), c, (Here(), next))
      modifies this`trace
      ensures On(job, next) && trace.First() == old(trace.First())
    {
      ThenAt(trace, was, pc, c, (Here(), next));
      trace := trace.Then(c, (Here(), next));
    }

    /** The same for a call of a push on the version's rows or payload. */
    ghost method Pushed(job: Job, was: World, p: PushPc, ok: bool, next: Pc)
      requires job.Push? && trace.job == job && job.ver == ver && trace.End() == Some((was.Put(ver, was.At(ver)), Pushing(p)))
      requires PushStep(was.At(ver), job, p, ok) == (X(), next) && Here() == was.Put(ver, X())
      modifies this`trace
      ensures On(job, next) && trace.First() == old(trace.First())
    {
      PutTwice(was, ver, was.At(ver), X());
      Made(job, was.Put(ver, was.At(ver)), Pushing(p), Outcome(ok), next);
    }

    /** A call of a push that touches nothing kept here. */
    method Look(job: Job, ghost p: PushPc) returns (ok: bool)
      requires job.Push? && On(job, Pushing(p)) && PushStep(X(), job, p, true).0 == X() == PushStep(X(), job, p, false).0
      modifies this`trace
      ensures On(job, PushStep(X(), job, p, ok).1) && trace.First() == old(trace.First())
    {
      ok := *;
      Pushed(job, w, p, ok, PushStep(X(), job, p, ok).1);
    }

    /** A call of a push that makes the version `x`, or nothing. */
    method Update(x: Version, job: Job, ghost p: PushPc) returns (ok: bool)
      requires job.Push? && On(job, Pushing(p))
      requires PushStep(X(), job, p, true).0 == x && PushStep(X(), job, p, false).0 == X()
      modifies this
      ensures w == if ok then old(w).Put(ver, x) else old(w)
      ensures On(job, PushStep(old(X()), job, p, ok).1) && trace.First() == old(trace.First())
    {
      ghost var was := w;
      ok := *;
      if ok { Set(x); }
      Pushed(job, was, p, ok, PushStep(was.At(ver), job, p, ok).1);
    }

    method Set(x: Version)
      modifies this
      ensures w == old(w).Put(ver, x) && trace == old(trace)
    {
      w := w.Put(ver, x);
    }

    method StorePackage(b: Build) returns (ok: bool)
      modifies this
      ensures w == (if ok then old(w).Put(ver, old(X()).(payload := Some(b))) else old(w)) && trace == old(trace)
    {
      ok := *;
      if ok { Set(X().(payload := Some(b))); }
    }

    method DeletePayload() returns (ok: bool)
      modifies this
      ensures w == (if ok then old(w).Put(ver, old(X()).(payload := None)) else old(w)) && trace == old(trace)
    {
      ok := *;
      if ok { Set(X().(payload := None)); }
    }

    method DeletePackageData() returns (ok: bool)
      modifies this
      ensures trace == old(trace)
      ensures w == if ok then old(w).Put(ver, old(X()).(row := None, members := map[], files := map[], unrestored := false)) else old(w)
    {
      ok := *;
      if ok { Set(X().(row := None, members := map[], files := map[], unrestored := false)); }
    }

    method DeleteBlob(b: Blob) returns (ok: bool)
      modifies this
      ensures w == (if ok then old(w).(blobs := old(w).blobs - {b}) else old(w)) && trace == old(trace)
    {
      ok := *;
      if ok { w := w.(blobs := w.blobs - {b}); }
    }

    /** Deletes the blobs of the version's files that no other version references.
        The version is held by no feed. */
    method PurgeFileBlobs(ghost job: Job, ghost after: Operations.After) returns (ok: bool)
      requires !X().Held() && (forall u :: FilesStored(w, u)) && On(job, Erasing(EraseFiles, after))
      modifies this
      ensures w.versions == old(w).versions && forall u :: FilesStored(w, u)
      ensures old(w).blobs - OwnBlobs(old(w), ver) <= w.blobs <= old(w).blobs
      ensures ok ==> w.blobs == old(w).blobs - OwnBlobs(old(w), ver)
      ensures On(job, if ok then Erasing(ErasePayload, after) else Done(false)) && trace.First() == old(trace.First())
    {
      ghost var start := Here();
      ok := Call();
      ghost var files0 := X().files;
      Made(job, start, Erasing(EraseFiles, after), Outcome(ok),
           if ok then Erasing(EraseNext(files0, BlobsOf(files0)), after) else Done(false));
      if !ok { return; }
      ghost var was := w;
      var files := X().files;
      var todo := BlobsOf(files);
      while todo != {}
        invariant w.versions == was.versions && files == X().files && todo <= BlobsOf(files)
        invariant forall u :: FilesStored(w, u)
        invariant w.blobs == was.blobs - (OwnBlobs(was, ver) - todo)
        invariant On(job, Erasing(EraseNext(files, todo), after)) && trace.First() == old(trace.First())
      {
        var b :| b in todo;
        ghost var before := w;
        ok := PurgeOne(b, files, todo, job, after);
        todo := todo - {b};
        OwnCount(was, ver, b);
        SameReferences(was, before, b);
        if !ok { return; }
      }
      Made(job, Here(), Erasing(EraseNext(files, todo), after), Outcome(true), Erasing(ErasePayload, after));
    }

    /** One of the blobs: counted, and deleted when all references are the version's own. */
    method PurgeOne(b: Blob, files: map<string, FileRow>, ghost todo: set<Blob>, ghost job: Job, ghost after: Operations.After)
      returns (ok: bool)
      requires !X().Held() && files == X().files && b in todo && forall u :: FilesStored(w, u)
      requires On(job, Erasing(EraseNext(files, todo), after))
      modifies this
      ensures w.versions == old(w).versions && forall u :: FilesStored(w, u)
      ensures var own := |old(w).References(b)| <= |OwnReferences(files, b)|;
        w.blobs == old(w).blobs - (if ok && own then {b} else {})
      ensures On(job, if ok then Erasing(EraseNext(files, todo - {b}), after) else Done(false)) && trace.First() == old(trace.First())
    {
      ghost var left := todo - {b};
      Made(job, Here(), Erasing(EraseNext(files, todo), after), Choice(true, b), Erasing(EraseWait(b, files, left), after));
      Made(job, Here(), Erasing(EraseWait(b, files, left), after), Outcome(true), Erasing(EraseCount(b, files, left), after));
      ok := Call();
      PutReferences(w, ver, b);
      ghost var few := |w.References(b)| <= |OwnReferences(files, b)|;
      Made(job, Here(), Erasing(EraseCount(b, files, left), after), Outcome(ok),
           if !ok then Done(false) else Erasing(if few then EraseBlob(b, files, left) else EraseNext(files, left), after));
      if !ok { return; }
      if |w.References(b)| <= |OwnReferences(files, b)| {
        OnlyOwnReferences(w, ver, b);
        DeleteUnreferenced(w, b);
        ghost var here := Here();
        ok := DeleteBlob(b);
        Made(job, here, Erasing(EraseBlob(b, files, left), after), Outcome(ok),
             if ok then Erasing(EraseNext(files, left), after) else Done(false));
      }
    }

    /** Deletes what all feeds share: files first and rows last, so that a run that
        stops leaves the rows that say what there is to delete. */
    method PurgeGlobalData(ghost job: Job, ghost after: Operations.After) returns (ok: bool)
      requires !X().Held() && (forall u :: FilesStored(w, u)) && On(job, Erasing(EraseSymbols, after))
      modifies this
      ensures forall u :: u != ver ==> w.At(u) == old(w).At(u)
      ensures forall u :: FilesStored(w, u)
      ensures ok ==> X() == Absent && w.blobs == old(w).blobs - OwnBlobs(old(w), ver)
      ensures !ok ==> X().row == old(X()).row && X().files == old(X()).files && !X().Held()
      ensures On(job, if ok then Resume(after) else Done(false)) && trace.First() == old(trace.First())
    {
      ghost var start := Here();
      ok := Call();
      Made(job, start, Erasing(EraseSymbols, after), Outcome(ok), if ok then Erasing(EraseFiles, after) else Done(false));
      if !ok { return; }
      ok := PurgeFileBlobs(job, after);
      if !ok { return; }
      ghost var mid := w;
      ok := DeletePayload();
      UnheldKeepsFiles(mid, w, ver);
      PutTwice(mid, ver, mid.At(ver), X());
      PutTwice(mid, ver, X(), X());
      Made(job, mid.Put(ver, mid.At(ver)), Erasing(ErasePayload, after), Outcome(ok),
           if ok then Erasing(EraseRow, after) else Done(false));
      if !ok { return; }
      ghost var last := w;
      ok := DeletePackageData();
      UnheldKeepsFiles(mid, w, ver);
      PutTwice(last, ver, last.At(ver), X());
      PutTwice(last, ver, X(), X());
      Made(job, last.Put(ver, last.At(ver)), Erasing(EraseRow, after), Outcome(ok), if ok then Resume(after) else Done(false));
    }

    /** Deletes the blobs among `todo` that nothing references any more; a failure
        only leaves a blob behind. */
    method DeleteUnreferencedBlobs(todo: set<Blob>, ghost job: Job, ghost symbols: bool)
      requires (forall u :: FilesStored(w, u)) && On(job, Freed(todo, symbols))
      modifies this
      ensures w.versions == old(w).versions && forall u :: FilesStored(w, u)
      ensures w.blobs <= old(w).blobs
      ensures forall b :: b in old(w).blobs - w.blobs ==> b in todo && old(w).References(b) == {}
      ensures On(job, Freed({}, symbols)) && trace.First() == old(trace.First())
    {
      ghost var was := w;
      var left := todo;
      while left != {}
        invariant w.versions == was.versions && (forall u :: FilesStored(w, u)) && left <= todo
        invariant w.blobs <= was.blobs && forall b :: b in was.blobs - w.blobs ==> b in todo && was.References(b) == {}
        invariant On(job, if todo == {} then Freed({}, symbols) else Freeing(FreeNext, left, symbols))
        invariant trace.First() == old(trace.First())
      {
        var b :| b in left;
        ghost var before := w;
        FreeOne(b, left, job, symbols);
        left := left - {b};
        SameReferences(was, before, b);
      }
      if todo != {} {
        Made(job, Here(), Freeing(FreeNext, left, symbols), Outcome(true), Freed({}, symbols));
      }
    }

    /** One of the blobs: counted, and deleted when nothing references it. */
    method FreeOne(b: Blob, ghost left: set<Blob>, ghost job: Job, ghost symbols: bool)
      requires b in left && (forall u :: FilesStored(w, u)) && On(job, Freeing(FreeNext, left, symbols))
      modifies this
      ensures w.versions == old(w).versions && forall u :: FilesStored(w, u)
      ensures w.blobs == old(w).blobs || (w.blobs == old(w).blobs - {b} && old(w).References(b) == {})
      ensures On(job, Freeing(FreeNext, left - {b}, symbols)) && trace.First() == old(trace.First())
    {
      ghost var rest := left - {b};
      Made(job, Here(), Freeing(FreeNext, left, symbols), Choice(true, b), Freeing(FreeWait(b), rest, symbols));
      Made(job, Here(), Freeing(FreeWait(b), rest, symbols), Outcome(true), Freeing(FreeCount(b), rest, symbols));
      PutReferences(w, ver, b);
      var counted := Call();
      ghost var none := counted && |w.References(b)| == 0;
      Made(job, Here(), Freeing(FreeCount(b), rest, symbols), Outcome(counted),
           Freeing(if none then FreeBlob(b) else FreeNext, rest, symbols));
      if counted && |w.References(b)| == 0 {
        DeleteUnreferenced(w, b);
        ghost var here := Here();
        var ok := DeleteBlob(b);
        Made(job, here, Freeing(FreeBlob(b), rest, symbols), Outcome(ok), Freeing(FreeNext, rest, symbols));
      }
    }

    /** Replaces the stored build by the pushed one and swaps the rows, or puts the
        previous build back. */
    method Overwrite(job: Job, existing: Digest, next: Member) returns (ok: bool, dropped: set<Blob>)
      requires job.Push? && X().row == Some(existing) && job.feed in X().members && RowFirst(X()) && Settled(X())
      requires On(job, Pushing(KeepAside(existing, next)))
      modifies this
      ensures w.blobs == old(w).blobs && forall u :: u != ver ==> w.At(u) == old(w).At(u)
      ensures ok ==> !SwapRefused(job, old(X()), existing)
      ensures ok ==> X() == SwapTo(job, old(X()), existing, next).0.(payload := Some(job.build), unrestored := false)
      ensures ok ==> dropped == BlobsOf(old(X()).files - X().files.Keys)
      ensures !ok ==> Unchanged(old(X()), X()) && X().payload.Some?
      ensures On(job, if ok then Freed(dropped, job.Changes(existing)) else Done(false)) && trace.First() == old(trace.First())
    {
      dropped := {};
      ghost var was := X();
      var kept := Look(job, KeepAside(existing, next));
      var backup := if kept then X().payload else None;
      ok := Update(X().(payload := Some(job.build)), job, StoreOver(existing, next, backup));
      if !ok { return; }
      assert SwapRefused(job, X(), existing) == SwapRefused(job, was, existing);
      ok, dropped := SwapOrPutBack(job, existing, next, backup);
    }

    /** The sidecars and the rows of a build that is stored, or the previous build again. */
    method SwapOrPutBack(job: Job, existing: Digest, next: Member, backup: Option<Build>) returns (ok: bool, dropped: set<Blob>)
      requires job.Push? && On(job, Pushing(SidecarsOver(existing, next, backup)))
      modifies this
      ensures w.blobs == old(w).blobs && forall u :: u != ver ==> w.At(u) == old(w).At(u)
      ensures ok ==> !SwapRefused(job, old(X()), existing) && X() == SwapTo(job, old(X()), existing, next).0.(unrestored := false)
      ensures ok ==> dropped == BlobsOf(old(X()).files - X().files.Keys)
      ensures !ok ==> X() == old(X()).(unrestored := true) || (backup.Some? && X() == old(X()).(payload := backup))
      ensures On(job, if ok then Freed(dropped, job.Changes(existing)) else Done(false)) && trace.First() == old(trace.First())
    {
      dropped := {};
      ok := Look(job, SidecarsOver(existing, next, backup));
      if ok { ok, dropped := SwapStored(job, existing, next, backup); }
      if !ok { PutBack(job, existing, backup); }
    }

    /** The swap of the rows for a build that is stored. */
    method SwapStored(job: Job, existing: Digest, next: Member, ghost backup: Option<Build>) returns (ok: bool, dropped: set<Blob>)
      requires job.Push? && On(job, Pushing(SwapRows(existing, next, backup)))
      modifies this
      ensures w.blobs == old(w).blobs && forall u :: u != ver ==> w.At(u) == old(w).At(u)
      ensures ok ==> !SwapRefused(job, old(X()), existing) && X() == SwapTo(job, old(X()), existing, next).0.(unrestored := false)
      ensures ok ==> dropped == BlobsOf(old(X()).files - X().files.Keys)
      ensures !ok ==> X() == old(X())
      ensures On(job, if ok then Freed(dropped, job.Changes(existing)) else Pushing(Restore(existing, backup)))
      ensures trace.First() == old(trace.First())
    {
      ghost var before := w;
      ok, dropped := Replace(job, existing, next);
      if ok {
        Set(X().(unrestored := false));
        PutTwice(before, ver, SwapTo(job, before.At(ver), existing, next).0, X());
      }
      SwapFrees(job, before.At(ver), existing, next);
      Pushed(job, before, SwapRows(existing, next, backup), ok,
             if ok then Freed(dropped, job.Changes(existing)) else Pushing(Restore(existing, backup)));
    }

    /** Best effort: the version is marked when the previous build cannot be put back. */
    method PutBack(job: Job, existing: Digest, backup: Option<Build>)
      requires job.Push? && On(job, Pushing(Restore(existing, backup)))
      modifies this
      ensures w.blobs == old(w).blobs && forall u :: u != ver ==> w.At(u) == old(w).At(u)
      ensures X() == old(X()).(unrestored := true) || (backup.Some? && X() == old(X()).(payload := backup))
      ensures On(job, Done(false)) && trace.First() == old(trace.First())
    {
      ghost var before := w;
      var restored := false;
      if backup.Some? { restored := StorePackage(backup.value); }
      if !restored { Set(X().(unrestored := true)); }
      Pushed(job, before, Restore(existing, backup), restored, Done(false));
    }

    /** The swap of the rows, in one transaction that may refuse. */
    method Replace(job: Job, existing: Digest, next: Member) returns (ok: bool, dropped: set<Blob>)
      requires job.Push?
      modifies this
      ensures ok ==> !SwapRefused(job, old(X()), existing) && w == old(w).Put(ver, SwapTo(job, old(X()), existing, next).0)
      ensures ok ==> dropped == BlobsOf(old(X()).files - X().files.Keys)
      ensures (!ok ==> w == old(w)) && trace == old(trace)
    {
      ok, dropped := *, {};
      if SwapRefused(job, X(), existing) { ok := false; }
      if ok {
        var next := SwapTo(job, X(), existing, next).0;
        dropped := BlobsOf(X().files - next.files.Keys);
        Set(next);
      }
    }

    /** A version new to the server: payload, then rows, or neither. */
    method IndexNew(job: Job) returns (ok: bool)
      requires job.Push? && X().row.None? && !X().Held() && RowFirst(X()) && On(job, Pushing(StoreNew))
      modifies this
      ensures w.blobs == old(w).blobs && forall u :: u != ver ==> w.At(u) == old(w).At(u)
      ensures RowFirst(X()) && Settled(X()) && (ok ==> Recorded(old(X()), X(), job)) && (!ok ==> X().row.None? && !X().Held())
      ensures X().files == map[]
      ensures On(job, Done(ok)) && trace.First() == old(trace.First())
    {
      ok := Update(X().(payload := Some(job.build)), job, StoreNew);
      if !ok { return; }
      ok := Look(job, SidecarsNew);
      if !ok { return; }
      assert job.feed !in X().members;
      ok := Update(Joined(X(), Sha512(job.build), job.feed, Arrival(job)), job, RecordNew);
      if !ok {
        var counted := Look(job, RecordFailed);
        if !counted || !X().Held() {
          UndoNew(job);
        }
      }
    }

    method UndoNew(job: Job)
      requires job.Push? && X().row.None? && !X().Held() && RowFirst(X()) && On(job, Pushing(UndoRow))
      modifies this
      ensures w.blobs == old(w).blobs && forall u :: u != ver ==> w.At(u) == old(w).At(u)
      ensures RowFirst(X()) && X().row.None? && !X().Held() && X().files == map[]
      ensures On(job, Done(false)) && trace.First() == old(trace.First())
    {
      var gone := Update(X().(row := None, members := map[], files := map[], unrestored := false), job, UndoRow);
      gone := Update(X().(payload := None), job, UndoPayload);
    }

    /** A version new to the feed, which other feeds hold: only the same content may
        join, and it puts back a payload that is missing. */
    method IndexJoin(job: Job, existing: Digest) returns (ok: bool)
      requires job.Push? && X().row == Some(existing) && On(job, Decide(job, X(), existing, None))
      modifies this
      ensures w.blobs == old(w).blobs && forall u :: u != ver ==> w.At(u) == old(w).At(u)
      ensures ok ==> !job.Changes(existing) && X() == old(X()).(
        payload := Some(old(X()).payload.GetOr(job.build)), members := old(X()).members[job.feed := Arrival(job)])
      ensures ok || X() == old(X()) ||
        (old(X()).payload.None? && !job.Changes(existing) && X() == old(X()).(payload := Some(job.build)))
      ensures On(job, Done(ok)) && trace.First() == old(trace.First())
    {
      if job.Changes(existing) { return false; }
      if X().payload.None? {
        ok := Rejoin(job, existing);
        if !ok { return; }
      }
      if job.feed in X().members {
        // The membership is there already.
        ok := Look(job, RecordJoin(existing));
        return false;
      }
      ok := Update(Joined(X(), existing, job.feed, Arrival(job)), job, RecordJoin(existing));
    }

    /** Puts a missing payload back. */
    method Rejoin(job: Job, existing: Digest) returns (ok: bool)
      requires job.Push? && On(job, Pushing(StoreMissing(existing)))
      modifies this
      ensures w == old(w) || w == old(w).Put(ver, old(X()).(payload := Some(job.build)))
      ensures ok ==> w == old(w).Put(ver, old(X()).(payload := Some(job.build)))
      ensures On(job, if ok then Pushing(RecordJoin(existing)) else Done(false)) && trace.First() == old(trace.First())
    {
      ok := Update(X().(payload := Some(job.build)), job, StoreMissing(existing));
      if !ok { return; }
      ok := Look(job, SidecarsMissing(existing));
    }

    /** A version the feed already holds: the overwrite policy decides. */
    method IndexOver(job: Job, existing: Digest, previous: Member) returns (ok: bool)
      requires job.Push? && X().row == Some(existing) && job.feed in X().members && X().members[job.feed] == previous
      requires RowFirst(X()) && Settled(X()) && forall u :: FilesStored(w, u)
      requires On(job, Decide(job, X(), existing, Some(previous)))
      modifies this
      ensures forall u :: u != ver ==> w.At(u) == old(w).At(u)
      ensures RowFirst(X()) && Settled(X()) && forall u :: FilesStored(w, u)
      ensures Overwritten(old(X()), X(), job, existing, Successor(job, existing, previous), ok)
      ensures On(job, Done(ok)) && trace.First() == old(trace.First())
    {
      if job.mode.PendingOnly? {
        ok := Look(job, ReadApproved(existing, previous));
        if !ok || X().Approved() { return false; }
      } else if !job.mode.Allows(job.prerelease) {
        return false;
      } else if job.Changes(existing) {
        ok := Look(job, CountHolders(existing, previous));
        if !ok || |X().members.Keys| > 1 { return false; }
      }
      OneHolder(X().members.Keys, job.feed);
      ok := ReplaceBuild(job, existing, previous);
    }

    /** The same bytes only refresh the rows; anything else replaces the build, and
        with it the files and symbols that belong to it. */
    method ReplaceBuild(job: Job, existing: Digest, previous: Member) returns (ok: bool)
      requires job.Push? && X().row == Some(existing) && job.feed in X().members && MayOverwrite(job, X(), existing)
      requires RowFirst(X()) && Settled(X()) && forall u :: FilesStored(w, u)
      requires On(job, Operations.Replace(job, X(), existing, previous))
      modifies this
      ensures forall u :: u != ver ==> w.At(u) == old(w).At(u)
      ensures RowFirst(X()) && Settled(X()) && forall u :: FilesStored(w, u)
      ensures Overwritten(old(X()), X(), job, existing, Successor(job, existing, previous), ok)
      ensures On(job, Done(ok)) && trace.First() == old(trace.First())
    {
      var next := Successor(job, existing, previous);
      if !job.Changes(existing) && X().payload.Some? {
        ghost var was := w;
        ok := Refresh(job, existing, next);
        ShrunkFilesStored(was, w, ver);
      } else {
        ok := OverwriteAndFree(job, existing, next);
      }
    }

    /** Other bytes: the build is replaced, and what belonged to it freed. */
    method OverwriteAndFree(job: Job, existing: Digest, next: Member) returns (ok: bool)
      requires job.Push? && X().row == Some(existing) && job.feed in X().members && MayOverwrite(job, X(), existing)
      requires RowFirst(X()) && Settled(X()) && forall u :: FilesStored(w, u)
      requires (job.Changes(existing) || X().payload.None?) && On(job, Pushing(KeepAside(existing, next)))
      modifies this
      ensures forall u :: u != ver ==> w.At(u) == old(w).At(u)
      ensures RowFirst(X()) && Settled(X()) && forall u :: FilesStored(w, u)
      ensures Overwritten(old(X()), X(), job, existing, next, ok)
      ensures On(job, Done(ok)) && trace.First() == old(trace.First())
    {
      ghost var was := w;
      var dropped;
      ok, dropped := Overwrite(job, existing, next);
      if ok { SwappedIsOverwritten(job, was.At(ver), X(), existing, next); }
      ShrunkFilesStored(was, w, ver);
      if ok { ok := FreeDropped(dropped, job, job.Changes(existing)); }
    }

    /** The blobs of dropped files, and the symbols of a build that is gone. */
    method FreeDropped(dropped: set<Blob>, job: Job, symbols: bool) returns (ok: bool)
      requires job.Push? && (forall u :: FilesStored(w, u)) && On(job, Freed(dropped, symbols))
      modifies this
      ensures w.versions == old(w).versions && forall u :: FilesStored(w, u)
      ensures On(job, Done(ok)) && trace.First() == old(trace.First())
    {
      DeleteUnreferencedBlobs(dropped, job, symbols);
      ok := true;
      if symbols {
        ok := Look(job, DropSymbols);
      }
    }

    /** The rows alone, for bytes that are there. */
    method Refresh(job: Job, existing: Digest, next: Member) returns (ok: bool)
      requires job.Push? && X().row == Some(existing) && !job.Changes(existing) && On(job, Pushing(SwapSame(existing, next)))
      modifies this
      ensures w == if ok then old(w).Put(ver, old(X()).(members := old(X()).members[job.feed := next])) else old(w)
      ensures On(job, Done(ok)) && trace.First() == old(trace.First())
    {
      if SwapRefused(job, X(), existing) {
        ok := Look(job, SwapSame(existing, next));
        return false;
      }
      ok := Update(X().(members := X().members[job.feed := next]), job, SwapSame(existing, next));
    }

    /** The push under the version's lock: first whatever a failed purge left behind is
        finished off, then the version is new to the server, new to the feed, or
        already there. Its calls are those of the machine's push, in their order. */
    method IndexInner(job: Job) returns (ok: bool)
      requires job.Push? && RowFirst(X()) && Settled(X()) && (forall u :: FilesStored(w, u)) && On(job, Pushing(ReadRow))
      modifies this
      ensures forall u :: u != ver ==> w.At(u) == old(w).At(u)
      ensures RowFirst(X()) && Settled(X()) && forall u :: FilesStored(w, u)
      ensures ok ==> Recorded(old(X()), X(), job)
      ensures !ok ==> if old(X()).Held() then Unchanged(old(X()), X()) || Recorded(old(X()), X(), job) else !X().Held()
      ensures old(X()).Held() && X().row != old(X()).row ==>
        job.feed in old(X()).members && MayOverwrite(job, old(X()), old(X()).row.value)
      ensures old(X()).Held() && job.feed !in old(X()).members && ok ==>
        X() == old(X()).(members := old(X()).members[job.feed := Arrival(job)])
      ensures On(job, Done(ok)) && trace.First() == old(trace.First())
    {
      var existing, previous := X().row, Holder(job.feed, X());
      ok := Look(job, ReadRow);
      if !ok { return; }
      ok := Look(job, ReadMember(existing));
      if !ok { return; }
      if existing.Some? {
        ok := Look(job, CountFeeds(existing.value, previous));
        if !ok { return; }
      }
      ok := IndexFound(job, existing, previous);
    }

    /** What was found decides. */
    method IndexFound(job: Job, found: Option<Digest>, previous: Option<Member>) returns (ok: bool)
      requires job.Push? && RowFirst(X()) && Settled(X()) && forall u :: FilesStored(w, u)
      requires found == X().row && previous == Holder(job.feed, X())
      requires On(job, if found.None? then Pushing(StoreNew)
                       else if !X().Held() then Erasing(EraseSymbols, PushNow(previous))
                       else Decide(job, X(), found.value, previous))
      modifies this
      ensures forall u :: u != ver ==> w.At(u) == old(w).At(u)
      ensures RowFirst(X()) && Settled(X()) && forall u :: FilesStored(w, u)
      ensures ok ==> Recorded(old(X()), X(), job)
      ensures !ok ==> if old(X()).Held() then Unchanged(old(X()), X()) || Recorded(old(X()), X(), job) else !X().Held()
      ensures old(X()).Held() && X().row != old(X()).row ==>
        job.feed in old(X()).members && MayOverwrite(job, old(X()), old(X()).row.value)
      ensures old(X()).Held() && job.feed !in old(X()).members && ok ==>
        X() == old(X()).(members := old(X()).members[job.feed := Arrival(job)])
      ensures On(job, Done(ok)) && trace.First() == old(trace.First())
    {
      var existing := found;
      ghost var was := w;
      if existing.Some? && !X().Held() {
        ok := PurgeGlobalData(job, PushNow(previous));
        if !ok { return; }
        existing := None;
      }
      if existing.None? {
        // No membership can be left without its row.
        assert !X().Held();
        ghost var mid := w;
        ok := IndexNew(job);
        forall u ensures FilesStored(w, u) { assert FilesStored(mid, u); }
      } else if previous.None? {
        ok := IndexJoin(job, existing.value);
        forall u ensures FilesStored(w, u) { assert FilesStored(was, u); }
      } else {
        ok := IndexOver(job, existing.value, previous.value);
      }
    }
  }

  /** What follows once these blobs are to be freed. */
  function Freed(dropped: set<Blob>, symbols: bool): Pc {
    if dropped != {} then Freeing(FreeNext, dropped, symbols) else if symbols then Pushing(DropSymbols) else Done(true)
  }

  lemma SwapFrees(job: Job, x: Version, existing: Digest, next: Member)
    requires job.Push?
    ensures SwapTo(job, x.(unrestored := false), existing, next).0 == SwapTo(job, x, existing, next).0.(unrestored := false)
    ensures var (x', pc') := SwapTo(job, x.(unrestored := false), existing, next);
      pc' == Freed(BlobsOf(x.files - x'.files.Keys), job.Changes(existing))
  {
    var dropped := if job.mode.PendingOnly? && job.Changes(existing) then x.files else map[];
    assert x.files - (x.files - dropped.Keys).Keys == dropped;
    if n :| n in dropped {
      assert dropped[n].blob in BlobsOf(dropped);
    }
  }

  /** What a push of a version the feed holds comes to: the new build with the
      membership that keeps the operator's decisions, even when the last call failed,
      or everything as it was. */
  predicate Overwritten(x: Version, x': Version, job: Job, existing: Digest, next: Member, ok: bool)
    requires job.Push?
  {
    (Recorded(x, x', job) && x'.members == x.members[job.feed := next] && MayOverwrite(job, x, existing)) ||
    (!ok && Unchanged(x, x'))
  }

  /** Whether the overwrite policy lets a push replace what a held version has. */
  predicate MayOverwrite(job: Job, x: Version, existing: Digest)
    requires job.Push?
  {
    if job.mode.PendingOnly? then !x.Approved()
    else job.mode.Allows(job.prerelease) && (job.Changes(existing) ==> x.members.Keys == {job.feed})
  }

  lemma SwappedIsOverwritten(job: Job, x: Version, x': Version, existing: Digest, next: Member)
    requires job.Push? && x.row == Some(existing) && job.feed in x.members && MayOverwrite(job, x, existing)
    requires job.Changes(existing) || x.payload.None?
    requires x' == SwapTo(job, x, existing, next).0.(payload := Some(job.build), unrestored := false)
    ensures Recorded(x, x', job) && x'.members == x.members[job.feed := next] && FilesShrink(x, x')
    ensures RowFirst(x') && Settled(x')
  {
  }

  lemma OneHolder(fs: set<Feed>, f: Feed)
    requires f in fs
    ensures |fs| > 1 || fs == {f}
  {
    if g :| g in fs && g != f {
      assert {f, g} <= fs;
      NoFewer({f, g}, fs);
    }
  }

  lemma NoFewer<T>(small: set<T>, big: set<T>)
    requires small <= big
    ensures |small| <= |big|
  {
    assert |big - small| == |big| - |small|;
  }

  lemma UnheldKeepsFiles(w: World, w': World, v: Ver)
    requires (forall u :: FilesStored(w, u)) && !w'.At(v).Held() && w'.blobs == w.blobs
    requires forall u :: u != v ==> w'.At(u) == w.At(u)
    ensures forall u :: FilesStored(w', u)
  {
    forall u ensures FilesStored(w', u) { assert FilesStored(w, u); }
  }

  lemma ShrunkFilesStored(w: World, w': World, v: Ver)
    requires (forall u :: FilesStored(w, u)) && w.At(v).Held() && w'.blobs == w.blobs
    requires FilesShrink(w.At(v), w'.At(v)) && forall u :: u != v ==> w'.At(u) == w.At(u)
    ensures forall u :: FilesStored(w', u)
  {
    forall u ensures FilesStored(w', u) { assert FilesStored(w, u); }
  }

  method Call() returns (ok: bool)
  {
    ok := *;
  }

  /** The blobs of a version's files that only its own rows reference. */
  ghost function OwnBlobs(w: World, v: Ver): set<Blob> {
    set b | b in BlobsOf(w.At(v).files) && forall r :: r in w.References(b) ==> r.0 == v
  }

  lemma SameReferences(w: World, w': World, b: Blob)
    requires w'.versions == w.versions
    ensures w'.References(b) == w.References(b)
  {
  }

  lemma OwnCount(w: World, v: Ver, b: Blob)
    ensures |w.References(b)| <= |OwnReferences(w.At(v).files, b)| <==> forall r :: r in w.References(b) ==> r.0 == v
  {
    if |w.References(b)| <= |OwnReferences(w.At(v).files, b)| {
      OnlyOwnReferences(w, v, b);
    }
    if forall r :: r in w.References(b) ==> r.0 == v {
      var own := OwnReferences(w.At(v).files, b);
      PairsCount(v, own);
      assert w.References(b) == set n | n in own :: (v, n);
    }
  }
}
