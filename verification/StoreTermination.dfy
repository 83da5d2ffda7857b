/** Tasks that are joined by no new ones all end: whatever is interleaved with what and
    whichever calls fail, they make at most so many calls, and when no call can be
    made any more every one of them has finished. */
module StoreTermination {
  import opened Options
  import opened Store
  import opened Operations
  import opened Server
  import opened StoreInvariants
  import opened StoreProgress

  // ---- Sums over the tasks ----

  ghost function AnyTask(tasks: map<nat, Task>): (i: nat)
    requires tasks != map[]
    ensures i in tasks
  {
    var i :| i in tasks; i
  }

  lemma OneLess(tasks: map<nat, Task>, i: nat)
    requires i in tasks
    ensures |tasks - {i}| < |tasks|
  {
    assert (tasks - {i}).Keys == tasks.Keys - {i};
    assert |tasks| == |tasks.Keys| && |tasks - {i}| == |(tasks - {i}).Keys|;
  }

  ghost function Sum(tasks: map<nat, Task>, f: Task -> nat): nat
    decreases |tasks|
  {
    if tasks == map[] then 0
    else
      var i := AnyTask(tasks);
      OneLess(tasks, i);
      f(tasks[i]) + Sum(tasks - {i}, f)
  }

  lemma {:induction false} SumOf(tasks: map<nat, Task>, f: Task -> nat, i: nat)
    requires i in tasks
    ensures Sum(tasks, f) == f(tasks[i]) + Sum(tasks - {i}, f)
    decreases |tasks|
  {
    var j := AnyTask(tasks);
    if j != i {
      OneLess(tasks, j);
      OneLess(tasks, i);
      SumOf(tasks - {j}, f, i);
      SumOf(tasks - {i}, f, j);
      assert tasks - {j} - {i} == tasks - {i} - {j};
    }
  }

  lemma SumWith(tasks: map<nat, Task>, f: Task -> nat, i: nat, t: Task)
    requires i in tasks
    ensures Sum(tasks[i := t], f) + f(tasks[i]) == Sum(tasks, f) + f(t)
  {
    SumOf(tasks, f, i);
    SumOf(tasks[i := t], f, i);
    assert tasks[i := t] - {i} == tasks - {i};
  }

  // ---- File rows, which bound the loops over blobs ----

  function FileRows(w: World): set<(Ver, string)> {
    set v, n | v in w.versions && n in w.versions[v].files :: (v, n)
  }

  lemma Fewer<T>(small: set<T>, big: set<T>)
    requires small <= big
    ensures |small| <= |big|
  {
    assert |big - small| == |big| - |small|;
  }

  lemma {:induction false} BlobsAreFewer(files: map<string, FileRow>)
    ensures |BlobsOf(files)| <= |files|
    decreases |files|
  {
    if files == map[] {
      assert BlobsOf(files) == {};
    } else {
      var n :| n in files;
      var rest := files - {n};
      assert rest.Keys == files.Keys - {n} && |rest| == |rest.Keys| && |files| == |files.Keys|;
      BlobsAreFewer(rest);
      assert BlobsOf(files) == BlobsOf(rest) + {files[n].blob};
    }
  }

  lemma RowsOfOne(w: World, v: Ver)
    ensures |w.At(v).files| <= |FileRows(w)| && |BlobsOf(w.At(v).files)| <= |FileRows(w)|
  {
    var names := w.At(v).files.Keys;
    PairsCount(v, names);
    Fewer(set n | n in names :: (v, n), FileRows(w));
    BlobsAreFewer(w.At(v).files);
  }

  lemma PutRows(w: World, v: Ver, s: Version)
    requires forall n :: n in s.files ==> n in w.At(v).files
    ensures FileRows(w.Put(v, s)) <= FileRows(w)
  {
  }

  /** Only recording an attached file adds a row, and with it the task is done. */
  lemma StepRows(w: World, t: Task, c: Choice)
    requires Ready(w, t)
    ensures var (w', pc') := Exec(w, t.job, t.pc, c);
      FileRows(w') <= FileRows(w) ||
      (t.job.Attach? && pc'.Done? && FileRows(w') <= FileRows(w) + {(t.job.ver, t.job.name)})
  {
    match t.pc {
      case Pushing(p) =>
        LocalFilesShrink(w.At(t.job.ver), t.job, t.pc, c.ok);
        PutRows(w, t.job.ver, PushStep(w.At(t.job.ver), t.job, p, c.ok).0);
      case Dropping(d) =>
        LocalFilesShrink(w.At(t.job.ver), t.job, t.pc, c.ok);
        PutRows(w, t.job.ver, DropStep(w.At(t.job.ver), t.job, d, c.ok).0);
      case Detaching(d) =>
        LocalFilesShrink(w.At(t.job.ver), t.job, t.pc, c.ok);
        PutRows(w, t.job.ver, DetachStep(w.At(t.job.ver), t.job, d, c.ok).0);
      case Transferring(r) =>
        LocalFilesShrink(w.At(t.job.ver), t.job, t.pc, c.ok);
        PutRows(w, t.job.ver, TransferStep(w.At(t.job.ver), t.job, r, c.ok).0);
      case _ =>
    }
  }

  function AttachUnit(t: Task): nat { if t.job.Attach? && !t.Finished() then 1 else 0 }

  /** The rows there are, and those that attaches may still add. */
  ghost function Budget(s: Sys): nat { |FileRows(s.w)| + Sum(s.tasks, AttachUnit) }

  lemma StepBudget(s: Sys, i: nat, c: Choice)
    requires Inv(s) && Possible(s, Step(i, c))
    ensures Budget(Do(s, Step(i, c))) <= Budget(s)
  {
    var t, s' := s.tasks[i], Do(s, Step(i, c));
    StepReady(s, i, c);
    StepRows(s.w, t, c);
    SumWith(s.tasks, AttachUnit, i, s'.tasks[i]);
    if FileRows(s'.w) <= FileRows(s.w) {
      Fewer(FileRows(s'.w), FileRows(s.w));
    } else {
      Fewer(FileRows(s'.w), FileRows(s.w) + {(t.job.ver, t.job.name)});
    }
  }

  // ---- A bound on the calls that are left ----

  /** No loop of any task is over more than `b` blobs, now or later. */
  ghost predicate Within(s: Sys, b: nat) {
    Budget(s) <= b && forall i :: i in s.tasks ==> RankOf(s.tasks[i]).blobs <= b
  }

  function Number(r: Rank, row: nat): nat { r.phase * row + 4 * r.blobs + r.at }

  lemma MoreRows(low: nat, high: nat, row: nat)
    requires low < high
    ensures low * row + row <= high * row
  {
    assert high * row == low * row + row + (high - low - 1) * row;
  }

  lemma NumberFalls(r: Rank, r': Rank, row: nat)
    requires r'.Below(r) && 4 * r'.blobs + 4 <= row && r'.at <= 3
    ensures Number(r', row) < Number(r, row)
  {
    if r'.phase < r.phase {
      MoreRows(r'.phase, r.phase, row);
    }
  }

  function WeightWithin(b: nat): Task -> nat { t => Number(RankOf(t), 4 * b + 4) }

  lemma LoopsHaveFourParts(t: Task)
    ensures RankOf(t).at <= 3
  {
  }

  lemma PushLoop(s: Version, job: Job, p: PushPc, ok: bool, b: nat)
    requires job.Push? && |BlobsOf(s.files)| <= b
    ensures RankOf(Task(job, PushStep(s, job, p, ok).1)).blobs <= b
  {
  }

  lemma DetachLoop(s: Version, job: Job, d: DetachPc, ok: bool, b: nat)
    requires job.Detach? && |s.files| <= b
    ensures RankOf(Task(job, DetachStep(s, job, d, ok).1)).blobs <= b
  {
    if d.DetachRow? && job.name in s.files {
      assert {job.name} <= s.files.Keys;
      Fewer({job.name}, s.files.Keys);
    }
  }

  lemma FreeLoop(w: World, job: Job, f: FreePc, left: set<Blob>, symbols: bool, c: Choice)
    ensures RankOf(Task(job, FreeStep(w, f, left, symbols, c).1)).blobs <= |left|
  {
  }

  lemma EraseLoop(w: World, job: Job, v: Ver, e: ErasePc, after: Operations.After, c: Choice, b: nat)
    requires RankOf(Task(job, Erasing(e, after))).blobs <= b && |BlobsOf(w.At(v).files)| <= b
    ensures RankOf(Task(job, EraseStep(w, v, e, after, c).1)).blobs <= b
  {
  }

  lemma DropLoop(s: Version, job: Job, d: DropPc, ok: bool)
    requires PcFits(job, Dropping(d))
    ensures RankOf(Task(job, DropStep(s, job, d, ok).1)).blobs == 0
  {
  }

  lemma LoopsStayWithin(w: World, t: Task, c: Choice, b: nat)
    requires t.Fits() && RankOf(t).blobs <= b && |FileRows(w)| <= b
    ensures RankOf(Task(t.job, Exec(w, t.job, t.pc, c).1)).blobs <= b
  {
    match t.pc {
      case Pushing(p) =>
        RowsOfOne(w, t.job.ver);
        PushLoop(w.At(t.job.ver), t.job, p, c.ok, b);
      case Detaching(d) =>
        RowsOfOne(w, t.job.ver);
        DetachLoop(w.At(t.job.ver), t.job, d, c.ok, b);
      case Erasing(e, after) =>
        RowsOfOne(w, t.job.ver);
        EraseLoop(w, t.job, t.job.ver, e, after, c, b);
      case Freeing(f, left, symbols) => FreeLoop(w, t.job, f, left, symbols, c);
      case Dropping(d) => DropLoop(w.At(t.job.ver), t.job, d, c.ok);
      case _ =>
    }
  }

  lemma StepStaysWithin(s: Sys, i: nat, c: Choice, b: nat)
    requires Inv(s) && Possible(s, Step(i, c)) && Within(s, b)
    ensures Within(Do(s, Step(i, c)), b)
  {
    var t, s' := s.tasks[i], Do(s, Step(i, c));
    StepBudget(s, i, c);
    LoopsStayWithin(s.w, t, c, b);
    forall j | j in s'.tasks ensures RankOf(s'.tasks[j]).blobs <= b {
      assert j != i ==> s'.tasks[j] == s.tasks[j];
    }
  }

  /** One call less is left. */
  lemma StepWithin(s: Sys, i: nat, c: Choice, b: nat)
    requires Inv(s) && Possible(s, Step(i, c)) && Within(s, b)
    ensures var s' := Do(s, Step(i, c)); Within(s', b) && Sum(s'.tasks, WeightWithin(b)) < Sum(s.tasks, WeightWithin(b))
  {
    var t', s' := Do(s, Step(i, c)).tasks[i], Do(s, Step(i, c));
    StepStaysWithin(s, i, c, b);
    EveryStepIsProgress(s, i, c);
    LoopsHaveFourParts(t');
    NumberFalls(RankOf(s.tasks[i]), RankOf(t'), 4 * b + 4);
    SumWith(s.tasks, WeightWithin(b), i, t');
  }

  lemma FlagWithin(s: Sys, f: Feed, v: Ver, flag: Flag, b: nat)
    requires Possible(s, SetFlag(f, v, flag)) && Within(s, b)
    ensures var s' := Do(s, SetFlag(f, v, flag)); Within(s', b) && s'.tasks == s.tasks
  {
    var s' := Do(s, SetFlag(f, v, flag));
    PutRows(s.w, v, s'.w.At(v));
    Fewer(FileRows(s'.w), FileRows(s.w));
  }

  predicate NoNewTasks(run: seq<Action>) { forall a :: a in run ==> !a.Spawn? }

  function Steps(run: seq<Action>): nat {
    if run == [] then 0 else (if run[0].Step? then 1 else 0) + Steps(run[1..])
  }

  lemma {:induction false} StepsAreBounded(s: Sys, run: seq<Action>, b: nat)
    requires Inv(s) && Within(s, b) && Runs(s, run) && NoNewTasks(run)
    ensures Inv(Server.After(s, run)) && Within(Server.After(s, run), b)
    ensures Steps(run) + Sum(Server.After(s, run).tasks, WeightWithin(b)) <= Sum(s.tasks, WeightWithin(b))
    decreases |run|
  {
    if run != [] {
      DoKeeps(s, run[0]);
      assert !run[0].Spawn?;
      match run[0] {
        case Step(i, c) => StepWithin(s, i, c, b);
        case SetFlag(f, v, flag) => FlagWithin(s, f, v, flag, b);
        case _ =>
      }
      StepsAreBounded(Do(s, run[0]), run[1..], b);
    }
  }

  function BlobsLeft(t: Task): nat { RankOf(t).blobs }

  /** At most so many blobs are left for any loop. */
  ghost function Blobs(s: Sys): nat { Budget(s) + Sum(s.tasks, BlobsLeft) }

  lemma BlobsSuffice(s: Sys)
    ensures Within(s, Blobs(s))
  {
    forall i | i in s.tasks ensures RankOf(s.tasks[i]).blobs <= Blobs(s) {
      SumOf(s.tasks, BlobsLeft, i);
    }
  }

  /** How many calls the tasks of a state can still make, together. */
  ghost function StepLimit(s: Sys): nat { Sum(s.tasks, WeightWithin(Blobs(s))) }

  predicate AllFinished(s: Sys) { forall i :: i in s.tasks ==> s.tasks[i].Finished() }

  ghost predicate NoStepLeft(s: Sys) { forall i, c :: !Possible(s, Step(i, c)) }

  /** Any unfinished tasks can finish, by calls of theirs alone. */
  lemma {:induction false} CanFinish(s: Sys, b: nat) returns (run: seq<Action>)
    requires Inv(s) && Within(s, b)
    ensures Runs(s, run) && AllFinished(Server.After(s, run)) && forall a :: a in run ==> a.Step?
    decreases Sum(s.tasks, WeightWithin(b))
  {
    if AllFinished(s) {
      run := [];
    } else {
      var i :| i in s.tasks && !s.tasks[i].Finished();
      SomeTaskCanStep(s, i);
      var j, c :| Possible(s, Step(j, c));
      StepKeeps(s, j, c);
      StepWithin(s, j, c, b);
      var rest := CanFinish(Do(s, Step(j, c)), b);
      run := [Step(j, c)] + rest;
      assert run[1..] == rest;
    }
  }

  /** From any reachable state, as long as no task is added and whatever flags are set
      meanwhile: the tasks make at most `StepLimit` calls, have all finished once no
      call is possible, and can always still finish. */
  lemma EveryTaskFinishes(before: seq<Action>, run: seq<Action>) returns (more: seq<Action>)
    requires Runs(Fresh, before) && Runs(Server.After(Fresh, before), run) && NoNewTasks(run)
    ensures var s := Server.After(Fresh, before);
      var s' := Server.After(s, run);
      Steps(run) <= StepLimit(s) && (NoStepLeft(s') ==> AllFinished(s')) &&
      Runs(s', more) && AllFinished(Server.After(s', more)) && forall a :: a in more ==> a.Step?
  {
    var s := Server.After(Fresh, before);
    var s' := Server.After(s, run);
    RunKeeps(Fresh, before);
    BlobsSuffice(s);
    StepsAreBounded(s, run, Blobs(s));
    if i :| i in s'.tasks && !s'.tasks[i].Finished() {
      SomeTaskCanStep(s', i);
    }
    more := CanFinish(s', Blobs(s));
  }
}
