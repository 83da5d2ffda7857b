/** Which file rows a task will drop from its version, if its calls succeed and nobody
    changes the version meanwhile, and that it drops them in one call. */
module FileDrops {
  import opened Options
  import opened Store
  import opened Operations
  import opened Server
  import opened StoreInvariants

  /** Whether a task deletes all data of its version, counting references before it drops
      its own, when its calls succeed and nobody changes the version meanwhile. */
  predicate ErasesFrom(job: Job, pc: Pc, x: Version) {
    match pc
    case Pushing(ReadRow) => x.row.Some? && !x.Held()
    case Pushing(ReadMember(found)) => found.Some? && !x.Held()
    case Pushing(CountFeeds(_, _)) => !x.Held()
    case Erasing(_, _) => true
    case Dropping(ReadPlanned) =>
      job.Prune? && job.feed in x.members && x.members[job.feed].Prunable() && x.members.Keys == {job.feed}
    case Dropping(DropMember) =>
      (job.Purge? || job.Prune? || (job.RemoveFeed? && x.row.Some?)) && x.members.Keys <= {job.feed}
    case Dropping(CountLeft) => !x.Held() && (job.RemoveFeed? || job.SweepOrphan? ==> x.row.Some?)
    case Dropping(ExistsLeft) => x.row.Some?
    case _ => false
  }

  function Begun(t: Task): Pc { if t.pc.Start? then Entry(t.job) else t.pc }

  predicate Erases(t: Task, x: Version) { ErasesFrom(t.job, Begun(t), x) }

  /** Whether a push goes on to swap its build in for another, and drops the files that
      were attached to that one. */
  predicate Replaces(job: Job, x: Version, existing: Digest)
    requires job.Push?
  {
    job.mode.PendingOnly? && job.Changes(existing) && !SwapRefused(job, x, existing)
  }

  predicate ReplacesFrom(job: Job, p: PushPc, x: Version)
    requires job.Push?
  {
    match p
    case ReadRow => x.Held() && job.feed in x.members && x.row.Some? && Replaces(job, x, x.row.value)
    case ReadMember(found) => x.Held() && job.feed in x.members && found.Some? && Replaces(job, x, found.value)
    case CountFeeds(existing, previous) => x.Held() && previous.Some? && Replaces(job, x, existing)
    case ReadApproved(existing, _) => Replaces(job, x, existing)
    case CountHolders(existing, _) => |x.members.Keys| <= 1 && Replaces(job, x, existing)
    case KeepAside(existing, _) => Replaces(job, x, existing)
    case StoreOver(existing, _, _) => Replaces(job, x, existing)
    case SidecarsOver(existing, _, _) => Replaces(job, x, existing)
    case SwapRows(existing, _, _) => Replaces(job, x, existing)
    case _ => false
  }

  predicate DetachesFrom(job: Job, d: DetachPc, x: Version)
    requires job.Detach?
  {
    match d
    case DetachCheck => job.feed in x.members && !FilesHeld(x, job.holding, job.overrides)
    case DetachApproved => !FilesHeld(x, job.holding, job.overrides)
    case DetachRow => true
  }

  /** The names of the file rows a task will drop from its version. */
  function Drops(t: Task, x: Version): set<string>
    requires t.Fits()
  {
    if Erases(t, x) then x.files.Keys
    else
      match Begun(t)
      case Pushing(p) => if ReplacesFrom(t.job, p, x) then x.files.Keys else {}
      case Detaching(d) => if DetachesFrom(t.job, d, x) && t.job.name in x.files then {t.job.name} else {}
      case _ => {}
  }

  /** What one successful call does to the file rows: nothing, or it drops all that the
      task was to drop. */
  ghost predicate DropsOnce(t: Task, x: Version, t': Task, x': Version)
    requires t.Fits() && t'.Fits()
  {
    (x'.files == x.files && Drops(t', x') == Drops(t, x) && (Drops(t, x) != {} ==> (Erases(t', x') <==> Erases(t, x)))) ||
    (x'.files == x.files - Drops(t, x) && Drops(t', x') == {} && (AtLastRow(t) || FreesAfter(t, x, t')))
  }

  predicate AtLastRow(t: Task) { t.pc.Erasing? && t.pc.e.EraseRow? }

  predicate FreesAfter(t: Task, x: Version, t': Task)
    requires t.Fits()
  {
    !Erases(t, x) && t'.pc.Freeing? && t'.pc.f.FreeNext? &&
    forall n :: n in Drops(t, x) && n in x.files ==> x.files[n].blob in t'.pc.left
  }

  predicate Reads(p: PushPc) { p.ReadRow? || p.ReadMember? || p.CountFeeds? || p.ReadApproved? || p.CountHolders? }

  predicate Stores(p: PushPc) { p.KeepAside? || p.StoreOver? || p.SidecarsOver? }

  lemma CountDropsOnce(x: Version, job: Job, p: PushPc)
    requires job.Push? && PushKnows(x, job, p) && RowFirst(x) && p.CountFeeds?
    ensures var (x', pc') := PushStep(x, job, p, true); DropsOnce(Task(job, Pushing(p)), x, Task(job, pc'), x')
  {
  }

  lemma ReadDropsOnce(x: Version, job: Job, p: PushPc)
    requires job.Push? && PushKnows(x, job, p) && RowFirst(x) && (p.ReadRow? || p.ReadMember?)
    ensures var (x', pc') := PushStep(x, job, p, true); DropsOnce(Task(job, Pushing(p)), x, Task(job, pc'), x')
  {
  }

  lemma CheckDropsOnce(x: Version, job: Job, p: PushPc)
    requires job.Push? && PushKnows(x, job, p) && RowFirst(x) && (p.ReadApproved? || p.CountHolders?)
    ensures var (x', pc') := PushStep(x, job, p, true); DropsOnce(Task(job, Pushing(p)), x, Task(job, pc'), x')
  {
  }

  lemma LookDropsOnce(x: Version, job: Job, p: PushPc)
    requires job.Push? && PushKnows(x, job, p) && RowFirst(x)
    requires Reads(p)
    ensures var (x', pc') := PushStep(x, job, p, true); DropsOnce(Task(job, Pushing(p)), x, Task(job, pc'), x')
  {
    if p.CountFeeds? {
      CountDropsOnce(x, job, p);
    } else if p.ReadRow? || p.ReadMember? {
      ReadDropsOnce(x, job, p);
    } else {
      CheckDropsOnce(x, job, p);
    }
  }

  lemma PayloadDropsOnce(x: Version, job: Job, p: PushPc)
    requires job.Push? && PushKnows(x, job, p) && RowFirst(x) && p.StoreOver?
    ensures var (x', pc') := PushStep(x, job, p, true); DropsOnce(Task(job, Pushing(p)), x, Task(job, pc'), x')
  {
    var x' := PushStep(x, job, p, true).0;
    assert x'.Approved() == x.Approved();
  }

  lemma StoreDropsOnce(x: Version, job: Job, p: PushPc)
    requires job.Push? && PushKnows(x, job, p) && RowFirst(x)
    requires Stores(p)
    ensures var (x', pc') := PushStep(x, job, p, true); DropsOnce(Task(job, Pushing(p)), x, Task(job, pc'), x')
  {
    if p.StoreOver? {
      PayloadDropsOnce(x, job, p);
    }
  }

  lemma SwapDropsOnce(x: Version, job: Job, p: PushPc)
    requires job.Push? && PushKnows(x, job, p) && RowFirst(x) && p.SwapRows?
    ensures var (x', pc') := PushStep(x, job, p, true); DropsOnce(Task(job, Pushing(p)), x, Task(job, pc'), x')
  {
    var t, t' := Task(job, Pushing(p)), Task(job, PushStep(x, job, p, true).1);
    if SwapRefused(job, x, p.existing) {
      assert Drops(t, x) == {} && Drops(t', x) == {};
    }
  }

  lemma OtherDropsOnce(x: Version, job: Job, p: PushPc)
    requires job.Push? && PushKnows(x, job, p) && RowFirst(x) && !Reads(p) && !Stores(p) && !p.SwapRows?
    ensures var (x', pc') := PushStep(x, job, p, true); DropsOnce(Task(job, Pushing(p)), x, Task(job, pc'), x')
  {
    var (x', pc') := PushStep(x, job, p, true);
    assert Drops(Task(job, Pushing(p)), x) == {} && Drops(Task(job, pc'), x') == {} && x'.files == x.files;
  }

  lemma PushDropsOnce(x: Version, job: Job, p: PushPc)
    requires job.Push? && PushKnows(x, job, p) && RowFirst(x)
    ensures var (x', pc') := PushStep(x, job, p, true); DropsOnce(Task(job, Pushing(p)), x, Task(job, pc'), x')
  {
    if Reads(p) {
      LookDropsOnce(x, job, p);
    } else if Stores(p) {
      StoreDropsOnce(x, job, p);
    } else if p.SwapRows? {
      SwapDropsOnce(x, job, p);
    } else {
      OtherDropsOnce(x, job, p);
    }
  }

  lemma DropDropsOnce(x: Version, job: Job, d: DropPc)
    requires PcFits(job, Dropping(d)) && Knows(x, job, Dropping(d)) && RowFirst(x)
    ensures var (x', pc') := DropStep(x, job, d, true); DropsOnce(Task(job, Dropping(d)), x, Task(job, pc'), x')
  {
  }

  lemma DetachDropsOnce(x: Version, job: Job, d: DetachPc)
    requires job.Detach? && RowFirst(x)
    ensures var (x', pc') := DetachStep(x, job, d, true); DropsOnce(Task(job, Detaching(d)), x, Task(job, pc'), x')
  {
  }

  lemma TransferDropsOnce(x: Version, job: Job, r: TransferPc)
    requires job.Transfer? && Knows(x, job, Transferring(r)) && RowFirst(x)
    ensures var (x', pc') := TransferStep(x, job, r, true); DropsOnce(Task(job, Transferring(r)), x, Task(job, pc'), x')
  {
  }

  lemma EraseDropsOnce(w: World, job: Job, e: ErasePc, after: Operations.After, c: Choice)
    requires c.ok && PcFits(job, Erasing(e, after)) && !job.Attach? && !job.SweepBlob?
    ensures var (w', pc') := EraseStep(w, job.ver, e, after, c);
      DropsOnce(Task(job, Erasing(e, after)), w.At(job.ver), Task(job, pc'), w'.At(job.ver))
  {
  }

  lemma FreeDropsOnce(w: World, job: Job, f: FreePc, left: set<Blob>, symbols: bool, c: Choice)
    requires c.ok && PcFits(job, Freeing(f, left, symbols)) && !job.SweepBlob?
    ensures var (w', pc') := FreeStep(w, f, left, symbols, c);
      DropsOnce(Task(job, Freeing(f, left, symbols)), w.At(job.ver), Task(job, pc'), w'.At(job.ver))
  {
  }

  lemma PushCallDropsOnce(w: World, t: Task, c: Choice)
    requires t.pc.Pushing? && t.job.Push? && TaskOk(w, t) && RowFirst(w.At(t.job.ver)) && c.ok
    ensures var (w', pc') := Exec(w, t.job, t.pc, c);
      PcFits(t.job, pc') && DropsOnce(t, w.At(t.job.ver), Task(t.job, pc'), w'.At(t.job.ver))
  {
    PushDropsOnce(w.At(t.job.ver), t.job, t.pc.p);
  }

  lemma OneVersionDropsOnce(w: World, t: Task, c: Choice)
    requires t.pc.Pushing? || t.pc.Dropping? || t.pc.Detaching? || t.pc.Transferring?
    requires !t.job.Attach? && !t.job.SweepBlob?
    requires TaskOk(w, t) && RowFirst(w.At(t.job.ver)) && c.ok
    ensures var (w', pc') := Exec(w, t.job, t.pc, c);
      PcFits(t.job, pc') && DropsOnce(t, w.At(t.job.ver), Task(t.job, pc'), w'.At(t.job.ver))
  {
    var x := w.At(t.job.ver);
    if t.pc.Pushing? {
      PushCallDropsOnce(w, t, c);
    } else if t.pc.Dropping? {
      DropDropsOnce(x, t.job, t.pc.d);
    } else if t.pc.Detaching? {
      DetachDropsOnce(x, t.job, t.pc.t);
    } else {
      TransferDropsOnce(x, t.job, t.pc.r);
    }
  }

  /** A call that succeeds drops nothing, or at once all that its task was to drop. */
  lemma LocalDropsOnce(w: World, t: Task, c: Choice)
    requires !t.job.Attach? && !t.job.SweepBlob?
    requires TaskOk(w, t) && RowFirst(w.At(t.job.ver)) && c.ok && !t.Finished()
    ensures var (w', pc') := Exec(w, t.job, t.pc, c);
      PcFits(t.job, pc') && DropsOnce(t, w.At(t.job.ver), Task(t.job, pc'), w'.At(t.job.ver))
  {
    if t.pc.Freeing? {
      FreeDropsOnce(w, t.job, t.pc.f, t.pc.left, t.pc.symbols, c);
    } else if t.pc.Erasing? {
      EraseDropsOnce(w, t.job, t.pc.e, t.pc.after, c);
    } else if !t.pc.Start? {
      OneVersionDropsOnce(w, t, c);
    }
  }
}
