/** When tasks that drop references to a blob, every call of theirs succeeding, leave it
    behind: stored, with nothing that references it, until a sweep finds it. A purge
    counts the references before it drops its own; a detach and an overwrite that
    replaces a pending build drop theirs first. */
module BlobLeak {
  import opened Options
  import opened Store
  import opened Operations
  import opened Server
  import opened StoreInvariants
  import opened StoreProgress
  import opened StoreTermination
  import opened FileDrops

  /** The tasks are of different versions, since tasks of one version take turns, and
      none adds references or sweeps. */
  predicate Apart(s: Sys) {
    (forall i :: i in s.tasks ==> s.tasks[i].Fits() && !s.tasks[i].job.Attach? && !s.tasks[i].job.SweepBlob?) &&
    forall i, j :: i in s.tasks && j in s.tasks && i != j ==> s.tasks[i].job.ver != s.tasks[j].job.ver
  }

  predicate ErasesIn(s: Sys, i: nat)
    requires Apart(s) && i in s.tasks
  {
    Erases(s.tasks[i], s.w.At(s.tasks[i].job.ver))
  }

  function DropsIn(s: Sys, i: nat): set<string>
    requires Apart(s) && i in s.tasks
  {
    Drops(s.tasks[i], s.w.At(s.tasks[i].job.ver))
  }

  /** Some task will drop this reference. */
  predicate Doomed(s: Sys, r: (Ver, string))
    requires Apart(s)
  {
    exists i :: i in s.tasks && s.tasks[i].job.ver == r.0 && r.1 in DropsIn(s, i)
  }

  predicate Mine(s: Sys, i: nat, r: (Ver, string))
    requires Apart(s) && i in s.tasks
  {
    s.tasks[i].job.ver == r.0
  }

  /** A task that erases its version has one of the references. */
  predicate HasOne(s: Sys, i: nat, b: Blob)
    requires Apart(s) && i in s.tasks
  {
    exists r :: r in s.w.References(b) && Mine(s, i, r)
  }

  predicate HasAll(s: Sys, i: nat, b: Blob)
    requires Apart(s) && i in s.tasks
  {
    forall r :: r in s.w.References(b) ==> Mine(s, i, r)
  }

  /** The blob is stored, its references will all be dropped, and some of them, not all,
      by a task that counts before it drops. */
  predicate Endangered(s: Sys, b: Blob)
    requires Apart(s)
  {
    b in s.w.blobs && (forall r :: r in s.w.References(b) ==> Doomed(s, r)) &&
    exists i :: i in s.tasks && ErasesIn(s, i) && HasOne(s, i, b) && !HasAll(s, i, b)
  }

  // ---- One successful call ----

  predicate Succeeds(a: Action) { a.Step? && a.choice.ok }

  /** What the call of task `i` may do to references and blobs. */
  ghost predicate Called(s: Sys, i: nat, s': Sys)
    requires Apart(s) && Apart(s') && i in s.tasks && i in s'.tasks
  {
    s'.tasks == s.tasks[i := s'.tasks[i]] && s'.tasks[i].job == s.tasks[i].job &&
    (forall u :: u != s.tasks[i].job.ver ==> s'.w.At(u) == s.w.At(u)) &&
    DropsOnce(s.tasks[i], s.w.At(s.tasks[i].job.ver), s'.tasks[i], s'.w.At(s.tasks[i].job.ver)) &&
    s'.w.blobs <= s.w.blobs
  }

  lemma ApartStays(s: Sys, i: nat, c: Choice)
    requires Inv(s) && Apart(s) && Possible(s, Step(i, c))
    ensures Inv(Do(s, Step(i, c))) && Apart(Do(s, Step(i, c)))
  {
    var s' := Do(s, Step(i, c));
    StepKeeps(s, i, c);
    forall j | j in s'.tasks ensures s'.tasks[j].Fits() && s'.tasks[j].job == s.tasks[j].job {
      assert TaskOk(s'.w, s'.tasks[j]);
    }
  }

  lemma BlobsGo(w: World, t: Task, c: Choice)
    requires t.Fits() && !t.job.Attach?
    ensures Exec(w, t.job, t.pc, c).0.blobs <= w.blobs
  {
  }

  lemma CallDoes(s: Sys, i: nat, c: Choice)
    requires Inv(s) && Apart(s) && Possible(s, Step(i, c)) && c.ok
    ensures var s' := Do(s, Step(i, c)); Inv(s') && Apart(s') && Called(s, i, s')
  {
    var t, s' := s.tasks[i], Do(s, Step(i, c));
    ApartStays(s, i, c);
    StepKeeps(s, i, c);
    assert TaskOk(s.w, t) && VersionOk(s, t.job.ver);
    LocalDropsOnce(s.w, t, c);
    BlobsGo(s.w, t, c);
  }

  /** References only go, and only those the task was to drop. */
  lemma ReferencesGo(s: Sys, i: nat, s': Sys, b: Blob)
    requires Apart(s) && Apart(s') && i in s.tasks && i in s'.tasks && Called(s, i, s')
    ensures s'.w.References(b) <= s.w.References(b)
    ensures forall r :: r in s.w.References(b) && r !in s'.w.References(b) ==> Mine(s, i, r) && r.1 in DropsIn(s, i)
  {
    var v := s.tasks[i].job.ver;
    forall r | r in s'.w.References(b) ensures r in s.w.References(b) {
      assert r.1 in s'.w.At(r.0).files;
      assert r.1 in s.w.At(r.0).files;
    }
    forall r | r in s.w.References(b) && (r.0 != v || r.1 !in DropsIn(s, i)) ensures r in s'.w.References(b) {
      assert r.1 in s.w.At(r.0).files;
      assert r.1 in s'.w.At(r.0).files;
    }
  }

  /** What was to be dropped has been, or still will be. */
  lemma DoomedStays(s: Sys, i: nat, s': Sys, b: Blob, r: (Ver, string))
    requires Apart(s) && Apart(s') && i in s.tasks && i in s'.tasks && Called(s, i, s') && r in s'.w.References(b)
    ensures r in s.w.References(b) && (Doomed(s', r) <==> Doomed(s, r))
  {
    ReferencesGo(s, i, s', b);
    var v := s.tasks[i].job.ver;
    if r.0 == v {
      assert r.1 in s'.w.At(v).files;
      assert r.1 in DropsIn(s', i) <==> r.1 in DropsIn(s, i);
      forall j | j in s.tasks && s.tasks[j].job.ver == r.0 ensures j == i {}
    } else {
      forall j | j in s.tasks && s.tasks[j].job.ver == r.0 ensures DropsIn(s', j) == DropsIn(s, j) {}
    }
  }

  // ---- No leak ----

  /** The task is going to count the references of the blob, having dropped its own. */
  predicate Attends(t: Task, b: Blob) {
    t.pc.Freeing? &&
    (b in t.pc.left || t.pc.f == FreeWait(b) || t.pc.f == FreeCount(b) || t.pc.f == FreeBlob(b))
  }

  ghost predicate Attended(s: Sys, b: Blob) { exists i :: i in s.tasks && Attends(s.tasks[i], b) }

  /** An erasing task has not yet decided about the blob, or has decided to delete it. */
  predicate Undecided(pc: Pc, b: Blob) {
    !pc.Erasing? ||
    match pc.e
    case EraseSymbols => true
    case EraseFiles => true
    case EraseNext(_, todo) => b in todo
    case EraseWait(c, _, todo) => c == b || b in todo
    case EraseCount(c, _, todo) => c == b || b in todo
    case EraseBlob(c, _, todo) => c == b || b in todo
    case _ => false
  }

  ghost predicate Watched(s: Sys, b: Blob)
    requires Apart(s)
  {
    (s.w.References(b) == {} ==> Attended(s, b)) &&
    forall i :: i in s.tasks && ErasesIn(s, i) && HasOne(s, i, b) ==> HasAll(s, i, b) && Undecided(s.tasks[i].pc, b)
  }

  /** The blob is gone, or has a reference nobody drops, or the last to drop one will see
      that there is none. */
  ghost predicate Safe(s: Sys, b: Blob)
    requires Apart(s)
  {
    b !in s.w.blobs || (exists r :: r in s.w.References(b) && !Doomed(s, r)) || Watched(s, b)
  }

  lemma SafeAtStart(s: Sys, b: Blob)
    requires Apart(s) && (forall i :: i in s.tasks ==> s.tasks[i].pc.Start?)
    requires s.w.References(b) != {} && !Endangered(s, b)
    ensures Safe(s, b)
  {
  }

  /** The references of a blob that all are its version's, as many as its rows. */
  lemma AllOwn(w: World, v: Ver, b: Blob)
    requires forall r :: r in w.References(b) ==> r.0 == v
    ensures |w.References(b)| <= |OwnReferences(w.At(v).files, b)|
  {
    var own := OwnReferences(w.At(v).files, b);
    PairsCount(v, own);
    forall r | r in w.References(b) ensures r in (set n | n in own :: (v, n)) {
      assert r.1 in own;
    }
    Fewer(w.References(b), set n | n in own :: (v, n));
  }

  /** A call of an erasing task that has all references of the blob. */
  lemma UndecidedStays(w: World, t: Task, c: Choice, b: Blob)
    requires TaskOk(w, t) && t.Picks(c.pick) && c.ok && !t.job.SweepBlob? && !t.job.Attach?
    requires Erases(t, w.At(t.job.ver)) && (forall r :: r in w.References(b) ==> r.0 == t.job.ver)
    requires w.References(b) != {} && Undecided(t.pc, b)
    ensures var (w', pc') := Exec(w, t.job, t.pc, c);
      Undecided(pc', b) || b !in w'.blobs
  {
    var v := t.job.ver;
    AllOwn(w, v, b);
    if t.pc.Erasing? && t.pc.e.EraseFiles? {
      var r :| r in w.References(b);
      assert r.1 in w.At(v).files && b in BlobsOf(w.At(v).files);
    }
  }

  lemma AttendsStays(w: World, t: Task, c: Choice, b: Blob)
    requires t.Fits() && t.Picks(c.pick) && c.ok && Attends(t, b) && w.References(b) == {}
    ensures var (w', pc') := Exec(w, t.job, t.pc, c);
      Attends(Task(t.job, pc'), b) || b !in w'.blobs
  {
  }

  lemma KeptStays(s: Sys, i: nat, s': Sys, b: Blob)
    requires Apart(s) && Apart(s') && i in s.tasks && i in s'.tasks && Called(s, i, s')
    ensures (exists r :: r in s.w.References(b) && !Doomed(s, r)) ==> exists r :: r in s'.w.References(b) && !Doomed(s', r)
  {
    if r :| r in s.w.References(b) && !Doomed(s, r) {
      ReferencesGo(s, i, s', b);
      assert r in s'.w.References(b);
      DoomedStays(s, i, s', b, r);
    }
  }

  /** The last reference to a watched blob goes by a call after which its task attends it. */
  lemma LastGoes(s: Sys, i: nat, s': Sys, b: Blob)
    requires Apart(s) && Apart(s') && i in s.tasks && i in s'.tasks && Called(s, i, s')
    requires Watched(s, b) && s.w.References(b) != {} && s'.w.References(b) == {}
    ensures Attends(s'.tasks[i], b)
  {
    var v := s.tasks[i].job.ver;
    var r :| r in s.w.References(b);
    ReferencesGo(s, i, s', b);
    assert r.1 in s.w.At(v).files && r.1 in DropsIn(s, i) && Mine(s, i, r);
    assert HasOne(s, i, b);
  }

  lemma WatchedCall(s: Sys, i: nat, c: Choice, b: Blob)
    requires Inv(s) && Apart(s) && Possible(s, Step(i, c)) && c.ok && Watched(s, b)
    requires Apart(Do(s, Step(i, c))) && b in Do(s, Step(i, c)).w.blobs && Called(s, i, Do(s, Step(i, c)))
    ensures Do(s, Step(i, c)).w.References(b) == {} ==> Attended(Do(s, Step(i, c)), b)
  {
    var s' := Do(s, Step(i, c));
    if s'.w.References(b) == {} {
      if s.w.References(b) != {} {
        LastGoes(s, i, s', b);
      } else {
        var j :| j in s.tasks && Attends(s.tasks[j], b);
        if j == i {
          AttendsStays(s.w, s.tasks[i], c, b);
        } else {
          assert Attends(s'.tasks[j], b);
        }
      }
    }
  }

  /** What an erasing task with a reference was before the call. */
  lemma ErasesBefore(s: Sys, i: nat, s': Sys, j: nat, b: Blob)
    requires Apart(s) && Apart(s') && i in s.tasks && i in s'.tasks && Called(s, i, s')
    requires j in s'.tasks && ErasesIn(s', j) && HasOne(s', j, b)
    ensures j in s.tasks && ErasesIn(s, j) && HasOne(s, j, b) && (HasAll(s, j, b) ==> HasAll(s', j, b))
  {
    ReferencesGo(s, i, s', b);
    var r :| r in s'.w.References(b) && Mine(s', j, r);
    assert r in s.w.References(b) && Mine(s, j, r);
    assert r.1 in s'.w.At(r.0).files;
  }

  lemma WatchedStays(s: Sys, i: nat, c: Choice, b: Blob)
    requires Inv(s) && Apart(s) && Possible(s, Step(i, c)) && c.ok && Watched(s, b)
    requires Apart(Do(s, Step(i, c))) && b in Do(s, Step(i, c)).w.blobs && Called(s, i, Do(s, Step(i, c)))
    ensures Watched(Do(s, Step(i, c)), b)
  {
    var s' := Do(s, Step(i, c));
    WatchedCall(s, i, c, b);
    forall j | j in s'.tasks && ErasesIn(s', j) && HasOne(s', j, b) ensures HasAll(s', j, b) && Undecided(s'.tasks[j].pc, b) {
      ErasesBefore(s, i, s', j, b);
      if j == i {
        var r :| r in s.w.References(b) && Mine(s, i, r);
        assert TaskOk(s.w, s.tasks[i]);
        UndecidedStays(s.w, s.tasks[i], c, b);
      }
    }
  }

  lemma SafeStays(s: Sys, i: nat, c: Choice, b: Blob)
    requires Inv(s) && Apart(s) && Possible(s, Step(i, c)) && c.ok && Safe(s, b)
    ensures Inv(Do(s, Step(i, c))) && Apart(Do(s, Step(i, c))) && Safe(Do(s, Step(i, c)), b)
  {
    CallDoes(s, i, c);
    var s' := Do(s, Step(i, c));
    KeptStays(s, i, s', b);
    if Watched(s, b) && b in s'.w.blobs {
      WatchedStays(s, i, c, b);
    }
  }

  predicate AllSucceed(run: seq<Action>) { forall a :: a in run ==> Succeeds(a) }

  lemma {:induction false} SafeRun(s: Sys, run: seq<Action>, b: Blob)
    requires Inv(s) && Apart(s) && Runs(s, run) && AllSucceed(run) && Safe(s, b)
    ensures Apart(Server.After(s, run)) && Safe(Server.After(s, run), b)
    decreases |run|
  {
    if run != [] {
      assert Succeeds(run[0]);
      SafeStays(s, run[0].id, run[0].choice, b);
      SafeRun(Do(s, run[0]), run[1..], b);
    }
  }

  /** Blobs that something referenced are deleted or still referenced. */
  ghost predicate NothingLeft(w: World, w': World) {
    forall b :: b in w'.blobs && w.References(b) != {} ==> w'.References(b) != {}
  }

  predicate AtStart(s: Sys) { forall i :: i in s.tasks ==> s.tasks[i].pc.Start? }

  lemma NoneEndangeredNoneLeft(s: Sys, run: seq<Action>)
    requires Inv(s) && Apart(s) && AtStart(s) && (forall b :: !Endangered(s, b))
    requires Runs(s, run) && AllSucceed(run) && AllFinished(Server.After(s, run))
    ensures NothingLeft(s.w, Server.After(s, run).w)
  {
    var s' := Server.After(s, run);
    forall b | b in s'.w.blobs && s.w.References(b) != {} ensures s'.w.References(b) != {} {
      SafeAtStart(s, b);
      SafeRun(s, run, b);
    }
  }

  // ---- A leak ----

  /** Task `i` erases its version, has a reference to the stored blob and not the only
      one, and all others are dropped by other tasks. */
  ghost predicate Leaking(s: Sys, i: nat, b: Blob)
    requires Apart(s)
  {
    i in s.tasks && ErasesIn(s, i) && HasOne(s, i, b) && b in s.w.blobs &&
    forall r :: r in s.w.References(b) && !Mine(s, i, r) ==> Doomed(s, r)
  }

  /** Whichever task's call: the blob is not deleted as long as task `i` and some other
      version reference it; nor by others as long as task `i`'s version does. */
  lemma StaysStored(s: Sys, i: nat, j: nat, c: Choice, b: Blob)
    requires Inv(s) && Apart(s) && Possible(s, Step(j, c)) && i in s.tasks && HasOne(s, i, b) && b in s.w.blobs
    requires j == i ==> !HasAll(s, i, b)
    ensures b in Do(s, Step(j, c)).w.blobs
  {
    var r :| r in s.w.References(b) && Mine(s, i, r);
    var t := s.tasks[j];
    assert TaskOk(s.w, t);
    assert KnowsBlob(s.w, t);
  }

  lemma OthersLeak(s: Sys, i: nat, j: nat, c: Choice, b: Blob)
    requires Inv(s) && Apart(s) && Possible(s, Step(j, c)) && c.ok && Leaking(s, i, b) && j != i
    ensures var s' := Do(s, Step(j, c)); Inv(s') && Apart(s') && Leaking(s', i, b) && s'.tasks[i] == s.tasks[i]
  {
    var s' := Do(s, Step(j, c));
    CallDoes(s, j, c);
    StaysStored(s, i, j, c, b);
    ReferencesGo(s, j, s', b);
    var own :| own in s.w.References(b) && Mine(s, i, own);
    assert own in s'.w.References(b) && Mine(s', i, own);
    forall r | r in s'.w.References(b) && !Mine(s', i, r) ensures Doomed(s', r) {
      DoomedStays(s, j, s', b, r);
    }
  }

  predicate Counted(pc: Pc) { pc.Erasing? && (pc.e.ErasePayload? || pc.e.EraseRow?) }

  lemma SameFilesSameReferences(s: Sys, i: nat, s': Sys, b: Blob)
    requires Apart(s) && Apart(s') && i in s.tasks && i in s'.tasks && Called(s, i, s')
    requires s'.w.At(s.tasks[i].job.ver).files == s.w.At(s.tasks[i].job.ver).files
    ensures s'.w.References(b) == s.w.References(b)
  {
    ReferencesGo(s, i, s', b);
    forall r | r in s.w.References(b) ensures r in s'.w.References(b) {
      assert r.1 in s.w.At(r.0).files && s'.w.At(r.0).files == s.w.At(r.0).files;
    }
  }

  lemma OwnCallLeaks(s: Sys, i: nat, c: Choice, b: Blob)
    requires Inv(s) && Apart(s) && Possible(s, Step(i, c)) && c.ok && Leaking(s, i, b)
    requires !HasAll(s, i, b) && !Counted(s.tasks[i].pc)
    ensures var s' := Do(s, Step(i, c)); Inv(s') && Apart(s') && Leaking(s', i, b) && !HasAll(s', i, b)
    ensures Do(s, Step(i, c)).tasks == s.tasks[i := Do(s, Step(i, c)).tasks[i]]
  {
    var s' := Do(s, Step(i, c));
    CallDoes(s, i, c);
    StaysStored(s, i, i, c, b);
    SameFilesSameReferences(s, i, s', b);
    var own :| own in s.w.References(b) && Mine(s, i, own);
    assert own.1 in s.w.At(own.0).files && Mine(s', i, own);
    forall r | r in s'.w.References(b) && !Mine(s', i, r) ensures Doomed(s', r) {
      DoomedStays(s, i, s', b, r);
    }
  }

  predicate OthersAtStart(s: Sys, i: nat) { forall j :: j in s.tasks && j != i ==> s.tasks[j].pc.Start? }

  lemma FirstCanStep(s: Sys, i: nat)
    requires Inv(s) && i in s.tasks && !s.tasks[i].Finished() && OthersAtStart(s, i)
    ensures Possible(s, Step(i, Going(s.tasks[i])))
  {
    assert TaskOk(s.w, s.tasks[i]);
  }

  /** The task counts all its blobs, and skips the shared one, before any other begins. */
  lemma {:induction false} CountsFirst(s: Sys, i: nat, b: Blob) returns (run: seq<Action>)
    requires Inv(s) && Apart(s) && Leaking(s, i, b) && !HasAll(s, i, b)
    requires OthersAtStart(s, i)
    ensures Runs(s, run) && AllSucceed(run)
    ensures var s' := Server.After(s, run); Inv(s') && Apart(s') && Leaking(s', i, b) && Counted(s'.tasks[i].pc)
    decreases RankOf(s.tasks[i]).phase, RankOf(s.tasks[i]).blobs, RankOf(s.tasks[i]).at
  {
    if Counted(s.tasks[i].pc) {
      return [];
    }
    var c := Going(s.tasks[i]);
    FirstCanStep(s, i);
    OwnCallLeaks(s, i, c, b);
    EveryStepIsProgress(s, i, c);
    var rest := CountsFirst(Do(s, Step(i, c)), i, b);
    run := [Step(i, c)] + rest;
    assert run[1..] == rest;
  }

  lemma OtherRunnable(s: Sys, i: nat, j: nat) returns (k: nat)
    requires Inv(s) && Apart(s) && i in s.tasks && Counted(s.tasks[i].pc)
    requires j in s.tasks && j != i && !s.tasks[j].Finished()
    ensures s.CanStep(k) && k != i
  {
    k := j;
    if b :| b in s.tasks && s.tasks[b].BlobLock().Some? {
      k := b;
    }
    assert TaskOk(s.w, s.tasks[k]);
  }

  /** Then all others run to their end. */
  lemma {:induction false} OthersFinish(s: Sys, i: nat, b: Blob, bound: nat) returns (run: seq<Action>)
    requires Inv(s) && Apart(s) && Within(s, bound) && Leaking(s, i, b) && Counted(s.tasks[i].pc)
    ensures Runs(s, run) && AllSucceed(run)
    ensures var s' := Server.After(s, run);
      Inv(s') && Apart(s') && Leaking(s', i, b) && Counted(s'.tasks[i].pc) && forall j :: j in s'.tasks && j != i ==> s'.tasks[j].Finished()
    decreases Sum(s.tasks, WeightWithin(bound))
  {
    if forall j :: j in s.tasks && j != i ==> s.tasks[j].Finished() {
      return [];
    }
    var j :| j in s.tasks && j != i && !s.tasks[j].Finished();
    var k := OtherRunnable(s, i, j);
    var c := Going(s.tasks[k]);
    OthersLeak(s, i, k, c, b);
    StepWithin(s, k, c, bound);
    var rest := OthersFinish(Do(s, Step(k, c)), i, b, bound);
    run := [Step(k, c)] + rest;
    assert run[1..] == rest;
  }

  /** Nothing references the stored blob any more, and nobody will count. */
  ghost predicate Left(s: Sys, i: nat, b: Blob) {
    Apart(s) && i in s.tasks && b in s.w.blobs && s.w.References(b) == {} &&
    (forall j :: j in s.tasks && j != i ==> s.tasks[j].Finished()) &&
    (s.tasks[i].Finished() || Leaves(s.tasks[i], s.w.At(s.tasks[i].job.ver)))
  }

  predicate Leaves(t: Task, x: Version) {
    (t.pc.Erasing? && (t.pc.e.ErasePayload? || t.pc.e.EraseRow?) && x.files == map[]) ||
    (t.pc.Pushing? && x.files == map[] && x.members == map[] &&
     (t.pc.p.DropStray? || t.pc.p.StoreNew? || t.pc.p.SidecarsNew? || t.pc.p.RecordNew?))
  }

  lemma LeavesStays(w: World, t: Task, c: Choice)
    requires !t.job.SweepBlob? && t.Fits() && c.ok && Leaves(t, w.At(t.job.ver))
    requires TaskOk(w, t)
    ensures var (w', pc') := Exec(w, t.job, t.pc, c);
      w'.blobs == w.blobs && w'.At(t.job.ver).files == map[] && (pc'.Done? || Leaves(Task(t.job, pc'), w'.At(t.job.ver)))
  {
  }

  lemma LeftStays(s: Sys, i: nat, c: Choice, b: Blob)
    requires Inv(s) && Left(s, i, b) && Possible(s, Step(i, c)) && c.ok
    ensures var s' := Do(s, Step(i, c)); Inv(s') && Left(s', i, b)
  {
    var s' := Do(s, Step(i, c));
    CallDoes(s, i, c);
    ReferencesGo(s, i, s', b);
    assert TaskOk(s.w, s.tasks[i]);
    LeavesStays(s.w, s.tasks[i], c);
  }

  lemma {:induction false} LeftForGood(s: Sys, i: nat, b: Blob) returns (run: seq<Action>)
    requires Inv(s) && Left(s, i, b)
    ensures Runs(s, run) && AllSucceed(run)
    ensures var s' := Server.After(s, run); AllFinished(s') && b in s'.w.blobs && s'.w.References(b) == {}
    decreases RankOf(s.tasks[i]).phase, RankOf(s.tasks[i]).blobs, RankOf(s.tasks[i]).at
  {
    if s.tasks[i].Finished() {
      return [];
    }
    var c := Going(s.tasks[i]);
    assert TaskOk(s.w, s.tasks[i]);
    LeftStays(s, i, c, b);
    EveryStepIsProgress(s, i, c);
    var rest := LeftForGood(Do(s, Step(i, c)), i, b);
    run := [Step(i, c)] + rest;
    assert run[1..] == rest;
  }

  predicate OthersDone(s: Sys, i: nat) { forall j :: j in s.tasks && j != i ==> s.tasks[j].Finished() }

  lemma PayloadGoes(s: Sys, i: nat, c: Choice, b: Blob)
    requires Inv(s) && Apart(s) && Leaking(s, i, b) && OthersDone(s, i) && Possible(s, Step(i, c)) && c.ok
    requires s.tasks[i].pc.Erasing? && s.tasks[i].pc.e.ErasePayload?
    ensures var s' := Do(s, Step(i, c));
      Inv(s') && Apart(s') && Leaking(s', i, b) && OthersDone(s', i) && s'.tasks[i].pc.Erasing? && s'.tasks[i].pc.e.EraseRow?
  {
    var s' := Do(s, Step(i, c));
    CallDoes(s, i, c);
    var own :| own in s.w.References(b) && Mine(s, i, own);
    assert own.1 in s.w.At(own.0).files && own.1 in s'.w.At(own.0).files;
    assert own in s'.w.References(b) && Mine(s', i, own);
    ReferencesGo(s, i, s', b);
    forall r | r in s'.w.References(b) && !Mine(s', i, r) ensures Doomed(s', r) {
      DoomedStays(s, i, s', b, r);
    }
  }

  lemma OnlyItsOwn(s: Sys, i: nat, b: Blob)
    requires Apart(s) && Leaking(s, i, b) && OthersDone(s, i)
    ensures HasAll(s, i, b)
  {
  }

  /** The task that counted first drops the last references. */
  lemma LastRowsGo(s: Sys, i: nat, c: Choice, b: Blob)
    requires Inv(s) && Apart(s) && Leaking(s, i, b) && OthersDone(s, i) && Possible(s, Step(i, c)) && c.ok
    requires s.tasks[i].pc.Erasing? && s.tasks[i].pc.e.EraseRow?
    ensures var s' := Do(s, Step(i, c)); Inv(s') && Left(s', i, b)
  {
    var s' := Do(s, Step(i, c));
    CallDoes(s, i, c);
    OnlyItsOwn(s, i, b);
    ReferencesGo(s, i, s', b);
    assert s'.w.At(s.tasks[i].job.ver) == Absent.(payload := s.w.At(s.tasks[i].job.ver).payload);
    forall r | r in s'.w.References(b) ensures r.1 in s'.w.At(r.0).files && Mine(s, i, r) {}
  }

  lemma CountedCanStep(s: Sys, i: nat)
    requires Inv(s) && Apart(s) && i in s.tasks && Counted(s.tasks[i].pc)
    ensures Possible(s, Step(i, Going(s.tasks[i])))
  {
    assert TaskOk(s.w, s.tasks[i]);
  }

  lemma DropsLast(s: Sys, i: nat, b: Blob) returns (run: seq<Action>)
    requires Inv(s) && Apart(s) && Leaking(s, i, b) && OthersDone(s, i) && Counted(s.tasks[i].pc)
    ensures Runs(s, run) && AllSucceed(run)
    ensures var s' := Server.After(s, run); AllFinished(s') && b in s'.w.blobs && s'.w.References(b) == {}
    decreases s.tasks[i].pc.e.ErasePayload?
  {
    var c := Going(s.tasks[i]);
    CountedCanStep(s, i);
    var rest;
    if s.tasks[i].pc.e.ErasePayload? {
      PayloadGoes(s, i, c, b);
      rest := DropsLast(Do(s, Step(i, c)), i, b);
    } else {
      LastRowsGo(s, i, c, b);
      rest := LeftForGood(Do(s, Step(i, c)), i, b);
    }
    run := [Step(i, c)] + rest;
    assert run[1..] == rest;
  }

  lemma {:induction false} Joined(s: Sys, a: seq<Action>, b: seq<Action>)
    requires Runs(s, a) && Runs(Server.After(s, a), b) && AllSucceed(a) && AllSucceed(b)
    ensures Runs(s, a + b) && Server.After(s, a + b) == Server.After(Server.After(s, a), b) && AllSucceed(a + b)
    decreases |a|
  {
    if a == [] {
      assert a + b == b;
    } else {
      Joined(Do(s, a[0]), a[1..], b);
      assert (a + b)[1..] == a[1..] + b && (a + b)[0] == a[0];
    }
  }

  /** An endangered blob is left behind by some run: the task that counts before it drops
      counts first and drops last. */
  lemma AnEndangeredBlobCanBeLeft(s: Sys, b: Blob) returns (run: seq<Action>)
    requires Inv(s) && Apart(s) && AtStart(s) && Endangered(s, b)
    ensures Runs(s, run) && AllSucceed(run)
    ensures var s' := Server.After(s, run); AllFinished(s') && b in s'.w.blobs && s'.w.References(b) == {}
  {
    var i :| i in s.tasks && ErasesIn(s, i) && HasOne(s, i, b) && !HasAll(s, i, b);
    var first := CountsFirst(s, i, b);
    var s1 := Server.After(s, first);
    BlobsSuffice(s1);
    var others := OthersFinish(s1, i, b, Blobs(s1));
    Joined(s, first, others);
    var s2 := Server.After(s1, others);
    var last := DropsLast(s2, i, b);
    Joined(s, first + others, last);
    run := first + others + last;
  }

  /** Tasks of different versions, none of which has begun, whose calls all succeed: in
      every interleaving they leave every blob deleted or referenced exactly when no
      stored blob has all its references dropped by them, some but not all by a task
      that erases its version. */
  lemma NothingIsLeftExactly(s: Sys)
    requires Inv(s) && Apart(s) && AtStart(s)
    ensures (forall run :: Runs(s, run) && AllSucceed(run) && AllFinished(Server.After(s, run)) ==>
                            NothingLeft(s.w, Server.After(s, run).w))
            <==> forall b :: !Endangered(s, b)
  {
    if b :| Endangered(s, b) {
      var run := AnEndangeredBlobCanBeLeft(s, b);
      assert !NothingLeft(s.w, Server.After(s, run).w);
    } else {
      forall run | Runs(s, run) && AllSucceed(run) && AllFinished(Server.After(s, run))
        ensures NothingLeft(s.w, Server.After(s, run).w)
      {
        NoneEndangeredNoneLeft(s, run);
      }
    }
  }

  // ---- The cases ----

  /** Version `v` is held by one feed only, which purges it. */
  predicate LastPurge(s: Sys, i: nat, f: Feed, v: Ver) {
    i in s.tasks && s.tasks[i] == Task(Purge(f, v), Start) && s.w.At(v).members.Keys == {f}
  }

  /** The blob is stored and two file rows reference it. */
  predicate SharedBy(w: World, b: Blob, v: Ver, n: string, u: Ver, m: string) {
    b in w.blobs && u != v && w.References(b) == {(v, n), (u, m)}
  }

  lemma PurgeEndangers(s: Sys, f: Feed, v: Ver, n: string, u: Ver, m: string, b: Blob)
    requires Inv(s) && Apart(s) && LastPurge(s, 0, f, v) && SharedBy(s.w, b, v, n, u, m) && Doomed(s, (u, m))
    ensures Endangered(s, b)
  {
    assert (v, n) in s.w.References(b) && (u, m) in s.w.References(b);
    assert Mine(s, 0, (v, n)) && !Mine(s, 0, (u, m));
    assert n in s.w.At(v).files && n in DropsIn(s, 0) && Doomed(s, (v, n));
  }

  /** Two purges: each sees the reference of the other. */
  lemma TwoPurgesCanLeakABlob(s: Sys, f: Feed, v: Ver, n: string, g: Feed, u: Ver, m: string, b: Blob) returns (run: seq<Action>)
    requires Inv(s) && Apart(s) && AtStart(s) && LastPurge(s, 0, f, v) && LastPurge(s, 1, g, u) && SharedBy(s.w, b, v, n, u, m)
    ensures Runs(s, run) && AllSucceed(run)
    ensures var s' := Server.After(s, run); AllFinished(s') && b in s'.w.blobs && s'.w.References(b) == {}
  {
    assert (u, m) in s.w.References(b);
    assert m in s.w.At(u).files && m in DropsIn(s, 1);
    PurgeEndangers(s, f, v, n, u, m, b);
    run := AnEndangeredBlobCanBeLeft(s, b);
  }

  /** A purge and a detach. */
  lemma APurgeAndADetachCanLeakABlob(s: Sys, f: Feed, v: Ver, n: string, detach: Job, u: Ver, m: string, b: Blob)
    returns (run: seq<Action>)
    requires Inv(s) && Apart(s) && AtStart(s) && LastPurge(s, 0, f, v) && SharedBy(s.w, b, v, n, u, m)
    requires detach.Detach? && detach.ver == u && detach.name == m && 1 in s.tasks && s.tasks[1] == Task(detach, Start)
    requires detach.feed in s.w.At(u).members && !FilesHeld(s.w.At(u), detach.holding, detach.overrides)
    ensures Runs(s, run) && AllSucceed(run)
    ensures var s' := Server.After(s, run); AllFinished(s') && b in s'.w.blobs && s'.w.References(b) == {}
  {
    assert (u, m) in s.w.References(b);
    assert m in s.w.At(u).files && m in DropsIn(s, 1);
    PurgeEndangers(s, f, v, n, u, m, b);
    run := AnEndangeredBlobCanBeLeft(s, b);
  }

  /** A purge and an overwrite that replaces a pending build and drops its files. */
  lemma APurgeAndAReplacementCanLeakABlob(s: Sys, f: Feed, v: Ver, n: string, push: Job, u: Ver, m: string, b: Blob)
    returns (run: seq<Action>)
    requires Inv(s) && Apart(s) && AtStart(s) && LastPurge(s, 0, f, v) && SharedBy(s.w, b, v, n, u, m)
    requires push.Push? && push.ver == u && 1 in s.tasks && s.tasks[1] == Task(push, Start)
    requires var x := s.w.At(u); push.feed in x.members && x.row.Some? && Replaces(push, x, x.row.value)
    ensures Runs(s, run) && AllSucceed(run)
    ensures var s' := Server.After(s, run); AllFinished(s') && b in s'.w.blobs && s'.w.References(b) == {}
  {
    assert (u, m) in s.w.References(b);
    assert m in s.w.At(u).files && m in DropsIn(s, 1);
    PurgeEndangers(s, f, v, n, u, m, b);
    run := AnEndangeredBlobCanBeLeft(s, b);
  }

  /** Detaches and replacements alone leave nothing behind: the last of them to drop its
      reference counts none. */
  lemma WithoutErasingNothingIsLeft(s: Sys, run: seq<Action>)
    requires Inv(s) && Apart(s) && AtStart(s) && forall i :: i in s.tasks ==> !ErasesIn(s, i)
    requires Runs(s, run) && AllSucceed(run) && AllFinished(Server.After(s, run))
    ensures NothingLeft(s.w, Server.After(s, run).w)
  {
    NoneEndangeredNoneLeft(s, run);
  }
}
