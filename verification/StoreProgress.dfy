/** No deadlock, and no task that goes on forever. */
module StoreProgress {
  import opened Options
  import opened Store
  import opened Operations
  import opened Server
  import opened StoreInvariants

  /** A choice that lets a loop go on. */
  ghost function Going(t: Task): (c: Choice)
    ensures t.Picks(c.pick)
  {
    Choice(true, AnyLeft(t))
  }

  ghost function AnyLeft(t: Task): (b: Blob)
    ensures t.Picks(b)
  {
    match t.pc
    case Freeing(FreeNext, left, _) => if left == {} then Sha256("") else (var b :| b in left; b)
    case Erasing(EraseNext(_, todo), _) => if todo == {} then Sha256("") else (var b :| b in todo; b)
    case _ => Sha256("")
  }

  /** In every reachable state some unfinished task can make its next call: a task
      that holds a blob lock waits for nothing, one that waits for a blob lock holds
      at most a version lock, and one that waits for a version lock holds nothing. */
  lemma SomeTaskCanStep(s: Sys, i: nat)
    requires Inv(s) && i in s.tasks && !s.tasks[i].Finished()
    ensures exists j, c :: Possible(s, Step(j, c))
  {
    var j := Runnable(s, i);
    assert Possible(s, Step(j, Going(s.tasks[j])));
  }

  lemma Runnable(s: Sys, i: nat) returns (j: nat)
    requires Inv(s) && i in s.tasks && !s.tasks[i].Finished()
    ensures s.CanStep(j)
  {
    if b :| b in s.tasks && s.tasks[b].BlobLock().Some? {
      j := b;
    } else if v :| v in s.tasks && s.tasks[v].Version().Some? {
      j := v;
    } else {
      j := i;
    }
    assert TaskOk(s.w, s.tasks[j]);
  }

  // ---- Every task ends ----

  /** How far a task is from its end: the phase it is in, how many blobs its loop
      has left, and where it is in the loop. */
  datatype Rank = Rank(phase: nat, blobs: nat, at: nat) {
    predicate Below(r: Rank) {
      phase < r.phase || (phase == r.phase && (blobs < r.blobs || (blobs == r.blobs && at < r.at)))
    }
  }

  function PushPhase(p: PushPc): nat {
    match p
    case ReadRow => 40
    case ReadMember(_) => 39
    case CountFeeds(_, _) => 38
    case DropStray => 20
    case StoreNew => 19
    case SidecarsNew => 18
    case RecordNew => 17
    case RecordFailed => 16
    case UndoRow => 15
    case UndoPayload => 14
    case StoreMissing(_) => 19
    case SidecarsMissing(_) => 18
    case RecordJoin(_) => 17
    case ReadApproved(_, _) => 20
    case CountHolders(_, _) => 20
    case SwapSame(_, _) => 19
    case KeepAside(_, _) => 18
    case StoreOver(_, _, _) => 17
    case SidecarsOver(_, _, _) => 16
    case SwapRows(_, _, _) => 15
    case Restore(_, _) => 14
    case DropSymbols => 1
  }

  function RankOf(t: Task): Rank {
    match t.pc
    case Start => Rank(50, 0, 0)
    case Done(_) => Rank(0, 0, 0)
    case Pushing(p) => Rank(PushPhase(p), 0, 0)
    case Freeing(f, left, _) =>
      (match f
       case FreeNext => Rank(10, |left|, 0)
       case FreeWait(_) => Rank(10, |left|, 3)
       case FreeCount(_) => Rank(10, |left|, 2)
       case FreeBlob(_) => Rank(10, |left|, 1))
    case Erasing(e, _) =>
      (match e
       case EraseSymbols => Rank(37, 0, 0)
       case EraseFiles => Rank(36, 0, 0)
       case EraseNext(_, todo) => Rank(35, |todo|, 0)
       case EraseWait(_, _, todo) => Rank(35, |todo|, 3)
       case EraseCount(_, _, todo) => Rank(35, |todo|, 2)
       case EraseBlob(_, _, todo) => Rank(35, |todo|, 1)
       case ErasePayload => Rank(34, 0, 0)
       case EraseRow => Rank(33, 0, 0))
    case Dropping(d) =>
      (match d case ReadPlanned => Rank(41, 0, 0) case DropMember => Rank(40, 0, 0)
               case CountLeft => Rank(39, 0, 0) case ExistsLeft => Rank(38, 0, 0))
    case Attaching(a) =>
      (match a case AttachCheck => Rank(8, 0, 0) case AttachFind => Rank(7, 0, 0) case AttachApproved => Rank(6, 0, 0)
               case AttachWait => Rank(5, 0, 0) case AttachStore => Rank(4, 0, 0) case AttachRecord => Rank(3, 0, 0)
               case AttachUndoCount => Rank(2, 0, 0) case AttachUndoBlob => Rank(1, 0, 0))
    case Detaching(d) =>
      (match d case DetachCheck => Rank(13, 0, 0) case DetachApproved => Rank(12, 0, 0) case DetachRow => Rank(11, 0, 0))
    case Transferring(r) =>
      (match r case TransferRead => Rank(5, 0, 0) case TransferHere => Rank(4, 0, 0) case TransferExists(_) => Rank(3, 0, 0)
               case TransferAdd(_) => Rank(2, 0, 0) case TransferDrop => Rank(1, 0, 0))
  }

  predicate Early(p: PushPc) {
    p.ReadRow? || p.ReadMember? || p.CountFeeds? || p.DropStray? || p.StoreNew? || p.SidecarsNew? || p.RecordNew? ||
    p.RecordFailed? || p.UndoRow? || p.UndoPayload?
  }

  lemma EarlyPushRank(s: Version, job: Job, p: PushPc, ok: bool)
    requires job.Push? && Early(p)
    ensures RankOf(Task(job, PushStep(s, job, p, ok).1)).Below(RankOf(Task(job, Pushing(p))))
  {
  }

  lemma SwapRank(s: Version, job: Job, existing: Digest, next: Member)
    requires job.Push?
    ensures RankOf(Task(job, SwapTo(job, s, existing, next).1)).phase <= 10
  {
  }

  lemma ReplaceRank(s: Version, job: Job, existing: Digest, previous: Member)
    requires job.Push?
    ensures RankOf(Task(job, Replace(job, s, existing, previous))).phase <= 19
  {
  }

  lemma LatePushRank(s: Version, job: Job, p: PushPc, ok: bool)
    requires job.Push? && !Early(p)
    ensures RankOf(Task(job, PushStep(s, job, p, ok).1)).phase < PushPhase(p)
  {
    if p.SwapRows? {
      SwapRank(s.(unrestored := false), job, p.existing, p.next);
    } else if p.ReadApproved? || p.CountHolders? {
      ReplaceRank(s, job, p.existing, p.previous);
    }
  }

  lemma FreeRank(w: World, job: Job, f: FreePc, left: set<Blob>, symbols: bool, c: Choice)
    ensures RankOf(Task(job, FreeStep(w, f, left, symbols, c).1)).Below(RankOf(Task(job, Freeing(f, left, symbols))))
  {
  }

  lemma EraseRank(w: World, job: Job, v: Ver, e: ErasePc, after: Operations.After, c: Choice)
    ensures RankOf(Task(job, EraseStep(w, v, e, after, c).1)).Below(RankOf(Task(job, Erasing(e, after))))
  {
  }

  lemma OtherRank(w: World, job: Job, pc: Pc, c: Choice)
    requires PcFits(job, pc) && !pc.Pushing? && !pc.Freeing? && !pc.Erasing? && !pc.Done?
    ensures RankOf(Task(job, Exec(w, job, pc, c).1)).Below(RankOf(Task(job, pc)))
  {
  }

  /** Every call brings its task closer to its end, whatever the call's outcome, and
      leaves every other task where it is. */
  lemma EveryStepIsProgress(s: Sys, i: nat, c: Choice)
    requires Possible(s, Step(i, c))
    ensures var s' := Do(s, Step(i, c));
      RankOf(s'.tasks[i]).Below(RankOf(s.tasks[i])) && s'.tasks.Keys == s.tasks.Keys &&
      forall j :: j in s.tasks && j != i ==> s'.tasks[j] == s.tasks[j]
  {
    var t := s.tasks[i];
    if t.pc.Pushing? {
      if Early(t.pc.p) {
        EarlyPushRank(s.w.At(t.job.ver), t.job, t.pc.p, c.ok);
      } else {
        LatePushRank(s.w.At(t.job.ver), t.job, t.pc.p, c.ok);
      }
    } else if t.pc.Freeing? {
      FreeRank(s.w, t.job, t.pc.f, t.pc.left, t.pc.symbols, c);
    } else if t.pc.Erasing? {
      EraseRank(s.w, t.job, t.job.ver, t.pc.e, t.pc.after, c);
    } else {
      OtherRank(s.w, t.job, t.pc, c);
    }
  }
}
