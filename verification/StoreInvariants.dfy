/** The invariants of the package store and their preservation by every step. */
module StoreInvariants {
  import opened Options
  import opened Store
  import opened Operations
  import opened Server

  // ---- What holds of a version whoever works on it ----

  predicate RowFirst(s: Version) {
    (s.row.None? ==> !s.Held() && s.files == map[] && !s.unrestored) && (s.Held() ==> s.payload.Some?)
  }

  /** The row describes the bytes on disk. */
  predicate Settled(s: Version) {
    s.Held() && !s.unrestored ==> s.row.Some? && s.payload.Some? && s.row.value == Sha512(s.payload.value)
  }

  /** An overwrite is between storing the new payload and swapping the rows. */
  predicate InFlux(pc: Pc) {
    pc.Pushing? && (pc.p.SidecarsOver? || pc.p.SwapRows? || pc.p.Restore?)
  }

  /** What a task knows about the version it has locked. */
  predicate Knows(s: Version, job: Job, pc: Pc)
    requires PcFits(job, pc)
  {
    match pc
    case Pushing(p) => PushKnows(s, job, p)
    case Erasing(e, _) =>
      !s.Held() && (e.EraseNext? || e.EraseWait? || e.EraseCount? || e.EraseBlob? ==> e.files == s.files)
    case Dropping(ExistsLeft) => !s.Held()
    case Attaching(a) => a.AttachCheck? || (job.feed in s.members && s.row.Some?)
    case Transferring(r) =>
      (r.TransferHere? ==> s.row.Some?) &&
      (r.TransferExists? || r.TransferAdd? ==> s.row.Some? && job.feed in s.members)
    case _ => true
  }

  predicate PushKnows(s: Version, job: Job, p: PushPc)
    requires job.Push?
  {
    match p
    case ReadRow => true
    case ReadMember(found) => found == s.row
    case CountFeeds(existing, previous) => s.row == Some(existing) && (previous.Some? <==> job.feed in s.members)
    case DropStray => s.row.None?
    case StoreNew => s.row.None?
    case SidecarsNew => s.row.None? && s.payload == Some(job.build)
    case RecordNew => s.row.None? && s.payload == Some(job.build)
    case RecordFailed => s.row.None?
    case UndoRow => s.row.None?
    case UndoPayload => s.row.None?
    case StoreMissing(existing) => s.row == Some(existing) && s.Held() && !job.Changes(existing)
    case SidecarsMissing(existing) => s.row == Some(existing) && s.Held() && !job.Changes(existing)
    case RecordJoin(existing) => s.row == Some(existing) && s.Held()
    case ReadApproved(existing, _) => s.row == Some(existing) && job.feed in s.members
    case CountHolders(existing, _) => s.row == Some(existing) && job.feed in s.members
    case SwapSame(existing, _) => s.row == Some(existing) && job.feed in s.members
    case KeepAside(existing, _) => s.row == Some(existing) && job.feed in s.members
    case StoreOver(existing, _, backup) => s.row == Some(existing) && job.feed in s.members && KeptAside(s, existing, backup)
    case SidecarsOver(existing, _, backup) =>
      s.row == Some(existing) && job.feed in s.members && s.payload == Some(job.build) && KeptAside(s, existing, backup)
    case SwapRows(existing, _, backup) =>
      s.row == Some(existing) && job.feed in s.members && s.payload == Some(job.build) && KeptAside(s, existing, backup)
    case Restore(existing, backup) =>
      s.row == Some(existing) && job.feed in s.members && KeptAside(s, existing, backup)
    case DropSymbols => true
  }

  /** What is kept aside is the build the row describes. */
  predicate KeptAside(s: Version, existing: Digest, backup: Option<Build>) {
    backup.Some? && !s.unrestored ==> existing == Sha512(backup.value)
  }

  /** What a task knows about the blob it has locked. */
  predicate KnowsBlob(w: World, t: Task) {
    match t.pc
    case Freeing(FreeBlob(b), _, _) => w.References(b) == {}
    case Erasing(EraseBlob(b, _, _), _) => t.job.SweepBlob? || forall r :: r in w.References(b) ==> r.0 == t.job.ver
    case Attaching(AttachRecord) => t.job.Attach? ==> t.job.blob in w.blobs
    case Attaching(AttachUndoBlob) => t.job.Attach? ==> w.References(t.job.blob) == {}
    case _ => true
  }

  /** Every file row of a version some feed holds has its blob. */
  predicate FilesStored(w: World, v: Ver) {
    w.At(v).Held() ==> forall n :: n in w.At(v).files ==> w.At(v).files[n].blob in w.blobs
  }

  predicate Exclusive(s: Sys) {
    forall i, j :: i in s.tasks && j in s.tasks && i != j ==>
      (s.tasks[i].Version().Some? ==> s.tasks[i].Version() != s.tasks[j].Version()) &&
      (s.tasks[i].BlobLock().Some? ==> s.tasks[i].BlobLock() != s.tasks[j].BlobLock())
  }

  predicate TaskOk(w: World, t: Task) {
    t.Fits() && (t.Version().Some? ==> Knows(w.At(t.job.ver), t.job, t.pc)) && KnowsBlob(w, t)
  }

  /** Some task holds the version and is in the middle of an overwrite. */
  predicate Overwriting(s: Sys, v: Ver) {
    exists i :: i in s.tasks && s.tasks[i].Version() == Some(v) && InFlux(s.tasks[i].pc)
  }

  predicate VersionOk(s: Sys, v: Ver) {
    RowFirst(s.w.At(v)) && (Settled(s.w.At(v)) || Overwriting(s, v)) && FilesStored(s.w, v)
  }

  ghost predicate Inv(s: Sys) {
    Exclusive(s) &&
    (forall i :: i in s.tasks ==> TaskOk(s.w, s.tasks[i])) &&
    (forall v :: VersionOk(s, v))
  }

  // ---- One step on the version it has locked ----

  /** What one step must re-establish for its own version. */
  predicate StepOk(s': Version, job: Job, pc': Pc) {
    PcFits(job, pc') && Knows(s', job, pc') && RowFirst(s') && (Settled(s') || InFlux(pc'))
  }

  lemma PushLookOk(s: Version, job: Job, p: PushPc, ok: bool)
    requires job.Push? && PushKnows(s, job, p) && RowFirst(s) && Settled(s)
    requires p.ReadRow? || p.ReadMember? || p.CountFeeds? || p.ReadApproved? || p.CountHolders? || p.DropSymbols?
    ensures var (s', pc') := PushStep(s, job, p, ok); StepOk(s', job, pc')
  {
  }

  lemma PushNewOk(s: Version, job: Job, p: PushPc, ok: bool)
    requires job.Push? && PushKnows(s, job, p) && RowFirst(s) && Settled(s)
    requires p.DropStray? || p.StoreNew? || p.SidecarsNew? || p.RecordNew? || p.RecordFailed? || p.UndoRow? || p.UndoPayload?
    ensures var (s', pc') := PushStep(s, job, p, ok); StepOk(s', job, pc')
  {
  }

  lemma PushJoinOk(s: Version, job: Job, p: PushPc, ok: bool)
    requires job.Push? && PushKnows(s, job, p) && RowFirst(s) && Settled(s)
    requires p.StoreMissing? || p.SidecarsMissing? || p.RecordJoin?
    ensures var (s', pc') := PushStep(s, job, p, ok); StepOk(s', job, pc')
  {
  }

  lemma PushOverOk(s: Version, job: Job, p: PushPc, ok: bool)
    requires job.Push? && PushKnows(s, job, p) && RowFirst(s) && (Settled(s) || InFlux(Pushing(p)))
    requires p.SwapSame? || p.KeepAside? || p.StoreOver? || p.SidecarsOver? || p.SwapRows? || p.Restore?
    ensures var (s', pc') := PushStep(s, job, p, ok); StepOk(s', job, pc')
  {
  }

  lemma PushStepOk(s: Version, job: Job, p: PushPc, ok: bool)
    requires job.Push? && PushKnows(s, job, p) && RowFirst(s) && (Settled(s) || InFlux(Pushing(p)))
    ensures var (s', pc') := PushStep(s, job, p, ok); StepOk(s', job, pc')
  {
    if p.ReadRow? || p.ReadMember? || p.CountFeeds? || p.ReadApproved? || p.CountHolders? || p.DropSymbols? {
      PushLookOk(s, job, p, ok);
    } else if p.StoreMissing? || p.SidecarsMissing? || p.RecordJoin? {
      PushJoinOk(s, job, p, ok);
    } else if p.SwapSame? || p.KeepAside? || p.StoreOver? || p.SidecarsOver? || p.SwapRows? || p.Restore? {
      PushOverOk(s, job, p, ok);
    } else {
      PushNewOk(s, job, p, ok);
    }
  }

  lemma DropStepOk(s: Version, job: Job, d: DropPc, ok: bool)
    requires PcFits(job, Dropping(d)) && Knows(s, job, Dropping(d)) && RowFirst(s) && Settled(s)
    ensures var (s', pc') := DropStep(s, job, d, ok); StepOk(s', job, pc')
  {
  }

  lemma DetachStepOk(s: Version, job: Job, t: DetachPc, ok: bool)
    requires job.Detach? && RowFirst(s) && Settled(s)
    ensures var (s', pc') := DetachStep(s, job, t, ok); StepOk(s', job, pc')
  {
  }

  lemma TransferStepOk(s: Version, job: Job, r: TransferPc, ok: bool)
    requires job.Transfer? && Knows(s, job, Transferring(r)) && RowFirst(s) && Settled(s)
    ensures var (s', pc') := TransferStep(s, job, r, ok); StepOk(s', job, pc')
  {
  }

  /** What a step that touches one version only may do to its files: rows go, none
      comes, and a version only becomes held when it has none. */
  predicate FilesShrink(s: Version, s': Version) {
    (forall n :: n in s'.files ==> n in s.files && s'.files[n] == s.files[n]) &&
    (s'.Held() ==> s.Held() || s'.files == map[])
  }

  lemma LocalFilesShrink(s: Version, job: Job, pc: Pc, ok: bool)
    requires PcFits(job, pc) && Knows(s, job, pc) && RowFirst(s)
    ensures pc.Pushing? ==> FilesShrink(s, PushStep(s, job, pc.p, ok).0)
    ensures pc.Dropping? ==> FilesShrink(s, DropStep(s, job, pc.d, ok).0)
    ensures pc.Detaching? ==> FilesShrink(s, DetachStep(s, job, pc.t, ok).0)
    ensures pc.Transferring? ==> FilesShrink(s, TransferStep(s, job, pc.r, ok).0)
  {
  }

  lemma PushStepLocks(s: Version, job: Job, p: PushPc, ok: bool)
    requires job.Push?
    ensures Task(job, PushStep(s, job, p, ok).1).BlobLock().None?
  {
  }

  lemma DropStepLocks(s: Version, job: Job, d: DropPc, ok: bool)
    requires PcFits(job, Dropping(d))
    ensures Task(job, DropStep(s, job, d, ok).1).BlobLock().None?
  {
  }

  lemma DetachStepLocks(s: Version, job: Job, t: DetachPc, ok: bool)
    requires job.Detach?
    ensures Task(job, DetachStep(s, job, t, ok).1).BlobLock().None?
  {
  }

  lemma TransferStepLocks(s: Version, job: Job, r: TransferPc, ok: bool)
    requires job.Transfer?
    ensures Task(job, TransferStep(s, job, r, ok).1).BlobLock().None?
  {
  }

  // ---- One step on the whole store ----

  /** What the step from `t` to `t'` may do to the store: it changes at most the
      version whose lock is held, takes away or references only the blob whose lock
      is held, and keeps every blob that is needed. */
  ghost predicate Effect(w: World, t: Task, w': World, t': Task) {
    t'.job == t.job && t'.Fits() && KnowsBlob(w', t') &&
    (forall v :: t.Version() != Some(v) ==> w'.At(v) == w.At(v)) &&
    (forall v :: FilesStored(w', v)) &&
    (forall b :: t.BlobLock() != Some(b) ==> w'.References(b) <= w.References(b) && (b in w.blobs ==> b in w'.blobs)) &&
    (t'.Version().Some? || t.Version().Some? ==> StepOk(w'.At(t.job.ver), t.job, t'.pc))
  }

  ghost predicate Ready(w: World, t: Task) {
    TaskOk(w, t) && !t.Finished() && (forall v :: FilesStored(w, v)) &&
    (!t.job.SweepBlob? ==> RowFirst(w.At(t.job.ver)) && (Settled(w.At(t.job.ver)) || InFlux(t.pc)))
  }

  lemma PutEffect(w: World, t: Task, s': Version, pc': Pc)
    requires Ready(w, t) && t.Version().Some?
    requires FilesShrink(w.At(t.job.ver), s') && StepOk(s', t.job, pc')
    requires Task(t.job, pc').BlobLock().None?
    ensures Effect(w, t, w.Put(t.job.ver, s'), Task(t.job, pc'))
  {
    var v, w' := t.job.ver, w.Put(t.job.ver, s');
    forall u ensures FilesStored(w', u) {
      assert FilesStored(w, u);
    }
    forall b ensures w'.References(b) <= w.References(b) {
      forall r | r in w'.References(b) ensures r in w.References(b) {
        if r.0 == v {
          assert r.1 in w.At(v).files;
        }
      }
    }
  }

  lemma PushEffect(w: World, t: Task, c: Choice)
    requires Ready(w, t) && t.pc.Pushing?
    ensures var (w', pc') := Exec(w, t.job, t.pc, c); Effect(w, t, w', Task(t.job, pc'))
  {
    var s := w.At(t.job.ver);
    var r := PushStep(s, t.job, t.pc.p, c.ok);
    LocalFilesShrink(s, t.job, t.pc, c.ok);
    PushStepOk(s, t.job, t.pc.p, c.ok);
    PushStepLocks(s, t.job, t.pc.p, c.ok);
    PutEffect(w, t, r.0, r.1);
  }

  lemma DropEffect(w: World, t: Task, c: Choice)
    requires Ready(w, t) && t.pc.Dropping?
    ensures var (w', pc') := Exec(w, t.job, t.pc, c); Effect(w, t, w', Task(t.job, pc'))
  {
    var s := w.At(t.job.ver);
    var r := DropStep(s, t.job, t.pc.d, c.ok);
    LocalFilesShrink(s, t.job, t.pc, c.ok);
    DropStepOk(s, t.job, t.pc.d, c.ok);
    DropStepLocks(s, t.job, t.pc.d, c.ok);
    PutEffect(w, t, r.0, r.1);
  }

  lemma DetachEffect(w: World, t: Task, c: Choice)
    requires Ready(w, t) && t.pc.Detaching?
    ensures var (w', pc') := Exec(w, t.job, t.pc, c); Effect(w, t, w', Task(t.job, pc'))
  {
    var s := w.At(t.job.ver);
    var r := DetachStep(s, t.job, t.pc.t, c.ok);
    LocalFilesShrink(s, t.job, t.pc, c.ok);
    DetachStepOk(s, t.job, t.pc.t, c.ok);
    DetachStepLocks(s, t.job, t.pc.t, c.ok);
    PutEffect(w, t, r.0, r.1);
  }

  lemma TransferEffect(w: World, t: Task, c: Choice)
    requires Ready(w, t) && t.pc.Transferring?
    ensures var (w', pc') := Exec(w, t.job, t.pc, c); Effect(w, t, w', Task(t.job, pc'))
  {
    var s := w.At(t.job.ver);
    var r := TransferStep(s, t.job, t.pc.r, c.ok);
    LocalFilesShrink(s, t.job, t.pc, c.ok);
    TransferStepOk(s, t.job, t.pc.r, c.ok);
    TransferStepLocks(s, t.job, t.pc.r, c.ok);
    PutEffect(w, t, r.0, r.1);
  }

  /** A blob nothing references can go. */
  lemma DeleteUnreferenced(w: World, b: Blob)
    requires forall v :: FilesStored(w, v)
    requires forall r :: r in w.References(b) ==> !w.At(r.0).Held()
    ensures forall v :: FilesStored(w.(blobs := w.blobs - {b}), v)
    ensures forall x :: w.(blobs := w.blobs - {b}).References(x) == w.References(x)
  {
    var w' := w.(blobs := w.blobs - {b});
    forall v ensures FilesStored(w', v) {
      assert FilesStored(w, v);
      assert w'.At(v) == w.At(v);
      forall n | w.At(v).Held() && n in w.At(v).files ensures w.At(v).files[n].blob in w'.blobs {
        assert w.At(v).files[n].blob == b ==> (v, n) in w.References(b);
      }
    }
  }

  lemma FreeEffect(w: World, t: Task, c: Choice)
    requires Ready(w, t) && t.pc.Freeing?
    ensures var (w', pc') := Exec(w, t.job, t.pc, c); Effect(w, t, w', Task(t.job, pc'))
  {
    if t.pc.f.FreeBlob? {
      DeleteUnreferenced(w, t.pc.f.blob);
    }
  }

  /** As many references as own rows means that all references are own rows. */
  lemma {:induction false} PairsCount(v: Ver, ns: set<string>)
    ensures |set n | n in ns :: (v, n)| == |ns|
    decreases |ns|
  {
    var ps := set n | n in ns :: (v, n);
    if ns == {} {
      assert ps == {};
    } else {
      var n :| n in ns;
      PairsCount(v, ns - {n});
      assert ps == (set m | m in ns - {n} :: (v, m)) + {(v, n)};
    }
  }

  lemma NoMore<T>(small: set<T>, big: set<T>)
    requires small <= big && |big| <= |small|
    ensures small == big
  {
    assert |big - small| == |big| - |small|;
  }

  lemma OnlyOwnReferences(w: World, v: Ver, b: Blob)
    requires |w.References(b)| <= |OwnReferences(w.At(v).files, b)|
    ensures forall r :: r in w.References(b) ==> r.0 == v
  {
    var own := OwnReferences(w.At(v).files, b);
    var pairs := set n | n in own :: (v, n);
    PairsCount(v, own);
    assert pairs <= w.References(b);
    NoMore(pairs, w.References(b));
  }

  lemma EraseBlobEffect(w: World, t: Task, c: Choice)
    requires Ready(w, t) && t.pc.Erasing? && !t.pc.e.ErasePayload? && !t.pc.e.EraseRow?
    ensures var (w', pc') := Exec(w, t.job, t.pc, c); Effect(w, t, w', Task(t.job, pc'))
  {
    var v := t.job.ver;
    match t.pc.e {
      case EraseCount(b, files, todo) =>
        if |w.References(b)| <= |OwnReferences(files, b)| {
          OnlyOwnReferences(w, v, b);
        }
      case EraseBlob(b, _, _) =>
        DeleteUnreferenced(w, b);
      case _ =>
    }
  }

  lemma EraseEffect(w: World, t: Task, c: Choice)
    requires Ready(w, t) && t.pc.Erasing?
    ensures var (w', pc') := Exec(w, t.job, t.pc, c); Effect(w, t, w', Task(t.job, pc'))
  {
    var s := w.At(t.job.ver);
    if t.pc.e.ErasePayload? {
      if c.ok { PutEffect(w, t, s.(payload := None), Erasing(EraseRow, t.pc.after)); }
    } else if t.pc.e.EraseRow? {
      if c.ok {
        PutEffect(w, t, s.(row := None, members := map[], files := map[], unrestored := false), Resume(t.pc.after));
      }
    } else {
      EraseBlobEffect(w, t, c);
    }
  }

  lemma AttachEffect(w: World, t: Task, c: Choice)
    requires Ready(w, t) && t.pc.Attaching?
    ensures var (w', pc') := Exec(w, t.job, t.pc, c); Effect(w, t, w', Task(t.job, pc'))
  {
    var (w', pc') := Exec(w, t.job, t.pc, c);
    match t.pc.a {
      case AttachStore =>
        forall v ensures FilesStored(w', v) { assert FilesStored(w, v); assert w'.At(v) == w.At(v); }
      case AttachRecord =>
        forall v ensures FilesStored(w', v) { assert FilesStored(w, v); }
        forall b | b != t.job.blob ensures w'.References(b) <= w.References(b) {
          forall r | r in w'.References(b) ensures r in w.References(b) {
            if r.0 == t.job.ver { assert r.1 in w.At(r.0).files; }
          }
        }
      case AttachUndoBlob =>
        DeleteUnreferenced(w, t.job.blob);
      case _ =>
    }
  }

  lemma ExecEffect(w: World, t: Task, c: Choice)
    requires Ready(w, t)
    ensures var (w', pc') := Exec(w, t.job, t.pc, c); Effect(w, t, w', Task(t.job, pc'))
  {
    match t.pc {
      case Start =>
      case Freeing(_, _, _) => FreeEffect(w, t, c);
      case Erasing(_, _) => EraseEffect(w, t, c);
      case Attaching(_) => AttachEffect(w, t, c);
      case Pushing(_) => PushEffect(w, t, c);
      case Dropping(_) => DropEffect(w, t, c);
      case Detaching(_) => DetachEffect(w, t, c);
      case Transferring(_) => TransferEffect(w, t, c);
    }
  }

  /** A step hands over no lock it was not given. */
  lemma ExecLocks(w: World, t: Task, c: Choice)
    requires t.Fits()
    ensures var t' := Task(t.job, Exec(w, t.job, t.pc, c).1);
      (t'.Version() == t.Version() || t'.Version() == t.WantsVersion() || t'.Version().None?) &&
      (t'.BlobLock() == t.BlobLock() || t'.BlobLock() == t.WantsBlob() || t'.BlobLock().None?)
  {
    match t.pc {
      case Pushing(p) => PushStepLocks(w.At(t.job.ver), t.job, p, c.ok);
      case Dropping(d) => DropStepLocks(w.At(t.job.ver), t.job, d, c.ok);
      case Detaching(d) => DetachStepLocks(w.At(t.job.ver), t.job, d, c.ok);
      case Transferring(r) => TransferStepLocks(w.At(t.job.ver), t.job, r, c.ok);
      case _ =>
    }
  }

  /** What a task knows survives the steps of tasks that hold other locks. */
  lemma OthersKnow(w: World, t: Task, w': World, t': Task, u: Task)
    requires Effect(w, t, w', t') && TaskOk(w, u)
    requires u.Version().Some? ==> u.Version() != t.Version()
    requires u.BlobLock().Some? ==> u.BlobLock() != t.BlobLock()
    ensures TaskOk(w', u)
  {
  }

  // ---- The invariant of the running server ----

  lemma StepReady(s: Sys, i: nat, c: Choice)
    requires Inv(s) && Possible(s, Step(i, c))
    ensures Ready(s.w, s.tasks[i])
  {
    var t := s.tasks[i];
    if !t.job.SweepBlob? {
      assert VersionOk(s, t.job.ver);
      if Overwriting(s, t.job.ver) {
        var j :| j in s.tasks && s.tasks[j].Version() == Some(t.job.ver) && InFlux(s.tasks[j].pc);
        assert j == i;
      }
    }
    forall v ensures FilesStored(s.w, v) { assert VersionOk(s, v); }
  }

  /** A step of task `i` and what it does, without how. */
  ghost predicate Stepped(s: Sys, i: nat, s': Sys) {
    i in s.tasks && i in s'.tasks && s'.tasks == s.tasks[i := s'.tasks[i]] &&
    Ready(s.w, s.tasks[i]) && Effect(s.w, s.tasks[i], s'.w, s'.tasks[i])
  }

  lemma StepTasks(s: Sys, i: nat, s': Sys)
    requires Exclusive(s) && (forall j :: j in s.tasks ==> TaskOk(s.w, s.tasks[j]))
    requires Stepped(s, i, s')
    ensures forall j :: j in s'.tasks ==> TaskOk(s'.w, s'.tasks[j])
  {
    forall j | j in s'.tasks ensures TaskOk(s'.w, s'.tasks[j]) {
      if j != i {
        OthersKnow(s.w, s.tasks[i], s'.w, s'.tasks[i], s.tasks[j]);
      }
    }
  }

  lemma StepVersions(s: Sys, i: nat, s': Sys)
    requires Stepped(s, i, s') && forall v :: VersionOk(s, v)
    ensures forall v :: VersionOk(s', v)
  {
    var t, t' := s.tasks[i], s'.tasks[i];
    forall v ensures VersionOk(s', v) {
      assert VersionOk(s, v);
      if t'.Version() == Some(v) || t.Version() == Some(v) {
        if InFlux(t'.pc) { assert i in s'.tasks && s'.tasks[i].Version() == Some(v); }
      } else if Overwriting(s, v) {
        var j :| j in s.tasks && s.tasks[j].Version() == Some(v) && InFlux(s.tasks[j].pc);
        assert s'.tasks[j] == s.tasks[j];
      }
    }
  }

  lemma StepExclusive(s: Sys, i: nat, s': Sys)
    requires Exclusive(s) && s.CanStep(i) && i in s'.tasks && s'.tasks == s.tasks[i := s'.tasks[i]]
    requires var t, t' := s.tasks[i], s'.tasks[i];
      (t'.Version() == t.Version() || t'.Version() == t.WantsVersion() || t'.Version().None?) &&
      (t'.BlobLock() == t.BlobLock() || t'.BlobLock() == t.WantsBlob() || t'.BlobLock().None?)
    ensures Exclusive(s')
  {
  }

  lemma StepKeeps(s: Sys, i: nat, c: Choice)
    requires Inv(s) && Possible(s, Step(i, c))
    ensures Inv(Do(s, Step(i, c)))
    ensures Stepped(s, i, Do(s, Step(i, c)))
  {
    var s' := Do(s, Step(i, c));
    StepReady(s, i, c);
    ExecEffect(s.w, s.tasks[i], c);
    ExecLocks(s.w, s.tasks[i], c);
    StepTasks(s, i, s');
    StepVersions(s, i, s');
    StepExclusive(s, i, s');
  }

  lemma FlagTasks(s: Sys, f: Feed, v: Ver, flag: Flag)
    requires Possible(s, SetFlag(f, v, flag)) && forall j :: j in s.tasks ==> TaskOk(s.w, s.tasks[j])
    ensures var s' := Do(s, SetFlag(f, v, flag)); forall j :: j in s'.tasks ==> TaskOk(s'.w, s'.tasks[j])
  {
    var s' := Do(s, SetFlag(f, v, flag));
    assert s'.w.At(v).members.Keys == s.w.At(v).members.Keys;
    forall b ensures s'.w.References(b) == s.w.References(b) {
      assert forall u, n :: (u, n) in s'.w.References(b) <==> (u, n) in s.w.References(b);
    }
  }

  lemma FlagKeeps(s: Sys, f: Feed, v: Ver, flag: Flag)
    requires Inv(s) && Possible(s, SetFlag(f, v, flag))
    ensures Inv(Do(s, SetFlag(f, v, flag)))
  {
    var s' := Do(s, SetFlag(f, v, flag));
    FlagTasks(s, f, v, flag);
    assert s'.w.At(v).members.Keys == s.w.At(v).members.Keys;
    forall u ensures VersionOk(s', u) {
      assert VersionOk(s, u);
      if Overwriting(s, u) {
        var j :| j in s.tasks && s.tasks[j].Version() == Some(u) && InFlux(s.tasks[j].pc);
        assert s'.tasks[j] == s.tasks[j];
      }
    }
  }

  lemma SpawnKeeps(s: Sys, i: nat, job: Job)
    requires Inv(s) && Possible(s, Spawn(i, job))
    ensures Inv(Do(s, Spawn(i, job)))
  {
    var s' := Do(s, Spawn(i, job));
    forall j | j in s'.tasks ensures TaskOk(s'.w, s'.tasks[j]) {
      if j != i { assert TaskOk(s.w, s.tasks[j]); }
    }
    forall u ensures VersionOk(s', u) {
      assert VersionOk(s, u);
      if Overwriting(s, u) {
        var j :| j in s.tasks && s.tasks[j].Version() == Some(u) && InFlux(s.tasks[j].pc);
        assert s'.tasks[j] == s.tasks[j];
      }
    }
  }

  lemma DoKeeps(s: Sys, a: Action)
    requires Inv(s) && Possible(s, a)
    ensures Inv(Do(s, a))
  {
    match a
    case Spawn(i, job) => SpawnKeeps(s, i, job);
    case Step(i, c) => StepKeeps(s, i, c);
    case SetFlag(f, v, flag) => FlagKeeps(s, f, v, flag);
  }

  lemma {:induction false} RunKeeps(s: Sys, run: seq<Action>)
    requires Inv(s) && Runs(s, run)
    ensures Inv(Server.After(s, run))
    decreases |run|
  {
    if run != [] {
      DoKeeps(s, run[0]);
      RunKeeps(Do(s, run[0]), run[1..]);
    }
  }
}
