/** Every operation on the package store as the sequence of storage and database
    calls it makes. A program counter names the next call and carries the local
    variables that are still needed; a call either succeeds or fails without
    effect. Calls that touch nothing kept here (sidecar files, symbol rows) are
    steps that can only fail. */
module Operations {
  import opened Options
  import opened Store

  datatype Overwrite = Disabled | Enabled | PrereleaseOnly | PendingOnly {
    predicate Allows(prerelease: bool) {
      match this
      case Enabled => true
      case PrereleaseOnly => prerelease
      case _ => false
    }
  }

  /** What a task was asked to do. Loops over versions or blobs (the sweeps, the
      removal of a feed) are one task per element, and a task may be spawned for
      any element, not only for those a listing returned. `blocking` are the other
      feeds whose license policy refuses the pushed build; `holding` and
      `overrides` are the feeds whose approvals keep a version's files as they
      are, and those the caller may set aside. */
  datatype Job =
    | Push(feed: Feed, ver: Ver, build: Build, mode: Overwrite, prerelease: bool,
           pending: bool, unlisted: bool, blocking: set<Feed>)
    | Purge(feed: Feed, ver: Ver)
    | Prune(feed: Feed, ver: Ver)
    | RemoveFeed(feed: Feed, ver: Ver)
    | SweepOrphan(ver: Ver)
    | SweepBlob(blob: Blob)
    | Attach(feed: Feed, ver: Ver, name: string, blob: Blob, holding: set<Feed>, overrides: set<Feed>)
    | Detach(feed: Feed, ver: Ver, name: string, holding: set<Feed>, overrides: set<Feed>)
    | Transfer(feed: Feed, target: Feed, ver: Ver, move: bool, gated: bool, refused: bool)
  {
    /** Whether the pushed build is not the one the row describes. */
    predicate Changes(row: Digest)
      requires Push?
    {
      row != Sha512(build)
    }
  }

  /** What follows the purge of a version's global data. */
  datatype After = PushNow(previous: Option<Member>) | Finish

  datatype PushPc =
      // What is there, and the remains of an unfinished purge.
    | ReadRow
    | ReadMember(found: Option<Digest>)
    | CountFeeds(existing: Digest, member: Option<Member>)
    | DropStray
      // A version new to the server.
    | StoreNew
    | SidecarsNew
    | RecordNew
    | RecordFailed
    | UndoRow
    | UndoPayload
      // A version new to the feed.
    | StoreMissing(existing: Digest)
    | SidecarsMissing(existing: Digest)
    | RecordJoin(existing: Digest)
      // A version the feed already holds.
    | ReadApproved(existing: Digest, previous: Member)
    | CountHolders(existing: Digest, previous: Member)
    | SwapSame(existing: Digest, next: Member)
    | KeepAside(existing: Digest, next: Member)
    | StoreOver(existing: Digest, next: Member, backup: Option<Build>)
    | SidecarsOver(existing: Digest, next: Member, backup: Option<Build>)
    | SwapRows(existing: Digest, next: Member, backup: Option<Build>)
    | Restore(existing: Digest, backup: Option<Build>)
    | DropSymbols

  /** Deleting blobs nothing references, failures only logged. */
  datatype FreePc =
    | FreeNext
    | FreeWait(blob: Blob)
    | FreeCount(blob: Blob)
    | FreeBlob(blob: Blob)

  /** Deleting the data all feeds share, stopping at the first failure. */
  datatype ErasePc =
    | EraseSymbols
    | EraseFiles
    | EraseNext(files: map<string, FileRow>, todo: set<Blob>)
    | EraseWait(blob: Blob, files: map<string, FileRow>, todo: set<Blob>)
    | EraseCount(blob: Blob, files: map<string, FileRow>, todo: set<Blob>)
    | EraseBlob(blob: Blob, files: map<string, FileRow>, todo: set<Blob>)
    | ErasePayload
    | EraseRow

  /** Removing a version from a feed, and what the sweeps check. */
  datatype DropPc = ReadPlanned | DropMember | CountLeft | ExistsLeft

  datatype AttachPc =
    | AttachCheck | AttachFind | AttachApproved | AttachWait
    | AttachStore | AttachRecord | AttachUndoCount | AttachUndoBlob

  datatype DetachPc = DetachCheck | DetachApproved | DetachRow

  datatype TransferPc =
    | TransferRead | TransferHere | TransferExists(here: Member) | TransferAdd(here: Member) | TransferDrop

  datatype Pc =
    | Start
    | Done(ok: bool)
    | Pushing(p: PushPc)
    | Freeing(f: FreePc, left: set<Blob>, symbols: bool)
    | Erasing(e: ErasePc, after: After)
    | Dropping(d: DropPc)
    | Attaching(a: AttachPc)
    | Detaching(t: DetachPc)
    | Transferring(r: TransferPc)

  /** The program counters each kind of job can be at. */
  predicate PcFits(job: Job, pc: Pc) {
    match pc
    case Pushing(_) => job.Push?
    case Freeing(_, _, symbols) => job.Push? || (!symbols && (job.Detach? || job.SweepBlob?))
    case Erasing(_, after) =>
      if after.PushNow? then job.Push? else job.Purge? || job.Prune? || job.RemoveFeed? || job.SweepOrphan?
    case Dropping(d) =>
      (match d
       case ReadPlanned => job.Prune?
       case DropMember => job.Purge? || job.Prune? || job.RemoveFeed?
       case CountLeft => job.Purge? || job.Prune? || job.RemoveFeed? || job.SweepOrphan?
       case ExistsLeft => job.RemoveFeed? || job.SweepOrphan?)
    case Attaching(_) => job.Attach?
    case Detaching(_) => job.Detach?
    case Transferring(_) => job.Transfer?
    case _ => true
  }

  /** The first call after the lock a job starts with is held. */
  function Entry(job: Job): (pc: Pc)
    ensures PcFits(job, pc)
  {
    match job
    case Push(_, _, _, _, _, _, _, _) => Pushing(ReadRow)
    case Purge(_, _) => Dropping(DropMember)
    case Prune(_, _) => Dropping(ReadPlanned)
    case RemoveFeed(_, _) => Dropping(DropMember)
    case SweepOrphan(_) => Dropping(CountLeft)
    case SweepBlob(b) => Freeing(FreeCount(b), {}, false)
    case Attach(_, _, _, _, _, _) => Attaching(AttachCheck)
    case Detach(_, _, _, _, _) => Detaching(DetachCheck)
    case Transfer(_, _, _, _, _, _) => Transferring(TransferRead)
  }

  function Resume(after: After): Pc {
    match after
    case PushNow(previous) => Pushing(if previous.Some? then DropStray else StoreNew)
    case Finish => Done(true)
  }

  function Holder(f: Feed, s: Version): Option<Member> {
    if f in s.members then Some(s.members[f]) else None
  }

  /** The membership of a version new to the feed. */
  function Arrival(job: Job): Member
    requires job.Push?
  {
    Member(!job.unlisted, true, job.pending, false)
  }

  /** The membership an overwrite writes: the operator's decisions as they were
      read, pending again only for new bytes in a gated feed. */
  function Successor(job: Job, existing: Digest, previous: Member): Member
    requires job.Push?
  {
    previous.(pending := previous.pending || (job.pending && job.Changes(existing)))
  }

  /** Where a push goes once it knows what the version already has. */
  function Decide(job: Job, s: Version, existing: Digest, previous: Option<Member>): Pc
    requires job.Push?
  {
    match previous
    case None =>
      if job.Changes(existing) then Done(false)
      else Pushing(if s.payload.Some? then RecordJoin(existing) else StoreMissing(existing))
    case Some(m) =>
      if job.mode.PendingOnly? then Pushing(ReadApproved(existing, m))
      else if !job.mode.Allows(job.prerelease) then Done(false)
      else if job.Changes(existing) then Pushing(CountHolders(existing, m))
      else Replace(job, s, existing, m)
  }

  function Replace(job: Job, s: Version, existing: Digest, previous: Member): Pc
    requires job.Push?
  {
    var next := Successor(job, existing, previous);
    Pushing(if !job.Changes(existing) && s.payload.Some? then SwapSame(existing, next) else KeepAside(existing, next))
  }

  /** Whether the swap of the rows is refused inside its transaction. */
  predicate SwapRefused(job: Job, s: Version, existing: Digest)
    requires job.Push?
  {
    job.mode.PendingOnly? &&
    (s.Approved() || (job.Changes(existing) && (s.members.Keys - {job.feed}) * job.blocking != {}))
  }

  /** The swap of the rows. Under pending-only the files of the replaced build go
      with it; any other overwrite keeps them. */
  function SwapTo(job: Job, s: Version, existing: Digest, next: Member): (Version, Pc)
    requires job.Push?
  {
    var dropped := if job.mode.PendingOnly? && job.Changes(existing) then s.files else map[];
    (s.(row := Some(Sha512(job.build)),
        members := s.members[job.feed := next],
        files := s.files - dropped.Keys),
     if dropped.Keys != {} then Freeing(FreeNext, BlobsOf(dropped), job.Changes(existing))
     else if job.Changes(existing) then Pushing(DropSymbols)
     else Done(true))
  }

  function PushStep(s: Version, job: Job, p: PushPc, ok: bool): (Version, Pc)
    requires job.Push?
  {
    match p
    case ReadRow => (s, if ok then Pushing(ReadMember(s.row)) else Done(false))
    case ReadMember(found) =>
      var previous := Holder(job.feed, s);
      (s, if !ok then Done(false)
          else if found.Some? then Pushing(CountFeeds(found.value, previous))
          else Resume(PushNow(previous)))
    case CountFeeds(existing, previous) =>
      (s, if !ok then Done(false)
          else if !s.Held() then Erasing(EraseSymbols, PushNow(previous))
          else Decide(job, s, existing, previous))
    case DropStray =>
      if ok then (s.(members := s.members - {job.feed}), Pushing(StoreNew)) else (s, Done(false))

    case StoreNew =>
      if ok then (s.(payload := Some(job.build)), Pushing(SidecarsNew)) else (s, Done(false))
    case SidecarsNew => (s, if ok then Pushing(RecordNew) else Done(false))
    case RecordNew =>
      if ok && job.feed !in s.members
      then (s.(row := Some(s.row.GetOr(Sha512(job.build))), members := s.members[job.feed := Arrival(job)]), Done(true))
      else (s, Pushing(RecordFailed))
    case RecordFailed =>
      // A count that fails is taken for zero.
      (s, if ok && s.Held() then Done(false) else Pushing(UndoRow))
    case UndoRow =>
      (if ok then s.(row := None, members := map[], files := map[], unrestored := false) else s, Pushing(UndoPayload))
    case UndoPayload => (if ok then s.(payload := None) else s, Done(false))

    case StoreMissing(existing) =>
      if ok then (s.(payload := Some(job.build)), Pushing(SidecarsMissing(existing))) else (s, Done(false))
    case SidecarsMissing(existing) => (s, if ok then Pushing(RecordJoin(existing)) else Done(false))
    case RecordJoin(existing) =>
      if ok && job.feed !in s.members
      then (s.(row := Some(s.row.GetOr(existing)), members := s.members[job.feed := Arrival(job)]), Done(true))
      else (s, Done(false))

    case ReadApproved(existing, previous) =>
      (s, if !ok || s.Approved() then Done(false) else Replace(job, s, existing, previous))
    case CountHolders(existing, previous) =>
      (s, if !ok || |s.members.Keys| > 1 then Done(false) else Replace(job, s, existing, previous))
    case SwapSame(existing, next) =>
      if ok && !SwapRefused(job, s, existing)
      then (s.(row := Some(existing), members := s.members[job.feed := next]), Done(true))
      else (s, Done(false))
    case KeepAside(existing, next) =>
      (s, Pushing(StoreOver(existing, next, if ok then s.payload else None)))
    case StoreOver(existing, next, backup) =>
      if ok then (s.(payload := Some(job.build)), Pushing(SidecarsOver(existing, next, backup))) else (s, Done(false))
    case SidecarsOver(existing, next, backup) =>
      (s, Pushing(if ok then SwapRows(existing, next, backup) else Restore(existing, backup)))
    case SwapRows(existing, next, backup) =>
      if ok && !SwapRefused(job, s, existing) then SwapTo(job, s.(unrestored := false), existing, next)
      else (s, Pushing(Restore(existing, backup)))
    case Restore(_, backup) =>
      (if ok && backup.Some? then s.(payload := backup) else s.(unrestored := true), Done(false))
    case DropSymbols => (s, Done(ok))
  }

  function DropStep(s: Version, job: Job, d: DropPc, ok: bool): (Version, Pc)
    requires PcFits(job, Dropping(d))
  {
    match d
    case ReadPlanned =>
      // Nothing to do when the membership is gone, pinned or withheld by now.
      (s, if !ok then Done(false)
          else if job.feed in s.members && s.members[job.feed].Prunable() then Dropping(DropMember)
          else Done(true))
    case DropMember =>
      if ok then (s.(members := s.members - {job.feed}), Dropping(CountLeft)) else (s, Done(false))
    case CountLeft =>
      (s, if !ok then Done(false)
          else if s.Held() then Done(true)
          else if job.RemoveFeed? || job.SweepOrphan? then Dropping(ExistsLeft)
          else Erasing(EraseSymbols, Finish))
    case ExistsLeft =>
      (s, if !ok then Done(false) else if s.row.Some? then Erasing(EraseSymbols, Finish) else Done(true))
  }

  /** The approvals that hold a version's files and that the caller may not set
      aside. */
  predicate FilesHeld(s: Version, holding: set<Feed>, overrides: set<Feed>) {
    exists f :: s.ApprovedIn(f) && f in holding && f !in overrides
  }

  function DetachStep(s: Version, job: Job, t: DetachPc, ok: bool): (Version, Pc)
    requires job.Detach?
  {
    match t
    case DetachCheck => (s, if ok && job.feed in s.members then Detaching(DetachApproved) else Done(false))
    case DetachApproved =>
      (s, if ok && !FilesHeld(s, job.holding, job.overrides) then Detaching(DetachRow) else Done(false))
    case DetachRow =>
      if ok && job.name in s.files
      then (s.(files := s.files - {job.name}), Freeing(FreeNext, {s.files[job.name].blob}, false))
      else (s, Done(false))
  }

  function TransferStep(s: Version, job: Job, r: TransferPc, ok: bool): (Version, Pc)
    requires job.Transfer?
  {
    match r
    case TransferRead => (s, if ok && s.row.Some? && !job.refused then Transferring(TransferHere) else Done(false))
    case TransferHere =>
      (s, if ok && job.feed in s.members then Transferring(TransferExists(s.members[job.feed])) else Done(false))
    case TransferExists(here) => (s, if ok && s.row.Some? then Transferring(TransferAdd(here)) else Done(false))
    case TransferAdd(here) =>
      if !ok || s.row.None? then (s, Done(false))
      else
        var arrival := Member(here.listed, here.enabled, job.gated || here.pending, job.move && here.pinned);
        (if job.target in s.members then s else s.(members := s.members[job.target := arrival]),
         if job.move then Transferring(TransferDrop) else Done(true))
    case TransferDrop =>
      if ok then (s.(members := s.members - {job.feed}), Done(true)) else (s, Done(false))
  }

  /** The environment's part in one step: whether the call succeeds, and which of
      the remaining blobs a loop takes next. */
  datatype Choice = Choice(ok: bool, pick: Blob)

  function FreeStep(w: World, f: FreePc, left: set<Blob>, symbols: bool, c: Choice): (World, Pc) {
    match f
    case FreeNext =>
      (w, if c.pick in left then Freeing(FreeWait(c.pick), left - {c.pick}, symbols)
          else if symbols then Pushing(DropSymbols) else Done(true))
    case FreeWait(b) => (w, Freeing(FreeCount(b), left, symbols))
    case FreeCount(b) =>
      (w, Freeing(if c.ok && |w.References(b)| == 0 then FreeBlob(b) else FreeNext, left, symbols))
    case FreeBlob(b) =>
      (if c.ok then w.(blobs := w.blobs - {b}) else w, Freeing(FreeNext, left, symbols))
  }

  function EraseStep(w: World, v: Ver, e: ErasePc, after: After, c: Choice): (World, Pc) {
    var s := w.At(v);
    match e
    case EraseSymbols => (w, if c.ok then Erasing(EraseFiles, after) else Done(false))
    case EraseFiles => (w, if c.ok then Erasing(EraseNext(s.files, BlobsOf(s.files)), after) else Done(false))
    case EraseNext(files, todo) =>
      (w, Erasing(if c.pick in todo then EraseWait(c.pick, files, todo - {c.pick}) else ErasePayload, after))
    case EraseWait(b, files, todo) => (w, Erasing(EraseCount(b, files, todo), after))
    case EraseCount(b, files, todo) =>
      (w, if !c.ok then Done(false)
          else Erasing(if |w.References(b)| <= |OwnReferences(files, b)| then EraseBlob(b, files, todo)
                       else EraseNext(files, todo), after))
    case EraseBlob(b, files, todo) =>
      if c.ok then (w.(blobs := w.blobs - {b}), Erasing(EraseNext(files, todo), after)) else (w, Done(false))
    case ErasePayload =>
      if c.ok then (w.Put(v, s.(payload := None)), Erasing(EraseRow, after)) else (w, Done(false))
    case EraseRow =>
      if c.ok then (w.Put(v, s.(row := None, members := map[], files := map[], unrestored := false)), Resume(after))
      else (w, Done(false))
  }

  function AttachStep(w: World, job: Job, a: AttachPc, ok: bool): (World, Pc)
    requires job.Attach?
  {
    var s := w.At(job.ver);
    match a
    case AttachCheck => (w, if ok && job.feed in s.members && s.row.Some? then Attaching(AttachFind) else Done(false))
    case AttachFind =>
      (w, if !ok then Done(false)
          else if job.name in s.files then Done(s.files[job.name].blob == job.blob)
          else Attaching(AttachApproved))
    case AttachApproved =>
      (w, if ok && !FilesHeld(s, job.holding, job.overrides) then Attaching(AttachWait) else Done(false))
    case AttachWait => (w, Attaching(AttachStore))
    case AttachStore =>
      if ok then (w.(blobs := w.blobs + {job.blob}), Attaching(AttachRecord)) else (w, Done(false))
    case AttachRecord =>
      if ok && s.row.Some? && job.name !in s.files
      then (w.Put(job.ver, s.(files := s.files[job.name := FileRow(job.blob, s.row.value)])), Done(true))
      else (w, Attaching(AttachUndoCount))
    case AttachUndoCount =>
      // A count that fails is taken for one.
      (w, if ok && |w.References(job.blob)| == 0 then Attaching(AttachUndoBlob) else Done(false))
    case AttachUndoBlob => (if ok then w.(blobs := w.blobs - {job.blob}) else w, Done(false))
  }

  /** A call that touches only the locked version. */
  function OnVersion(w: World, v: Ver, r: (Version, Pc)): (World, Pc) {
    (w.Put(v, r.0), r.1)
  }

  /** One step of a task that has the locks its program counter needs. */
  function Exec(w: World, job: Job, pc: Pc, c: Choice): (World, Pc)
    requires PcFits(job, pc)
  {
    match pc
    case Start => (w, Entry(job))
    case Done(_) => (w, pc)
    case Pushing(p) => OnVersion(w, job.ver, PushStep(w.At(job.ver), job, p, c.ok))
    case Freeing(f, left, symbols) => FreeStep(w, f, left, symbols, c)
    case Erasing(e, after) => EraseStep(w, job.ver, e, after, c)
    case Dropping(d) => OnVersion(w, job.ver, DropStep(w.At(job.ver), job, d, c.ok))
    case Attaching(a) => AttachStep(w, job, a, c.ok)
    case Detaching(t) => OnVersion(w, job.ver, DetachStep(w.At(job.ver), job, t, c.ok))
    case Transferring(r) => OnVersion(w, job.ver, TransferStep(w.At(job.ver), job, r, c.ok))
  }
}
