/** What the protocol of pushes, purges, sweeps and attachments guarantees over
    every interleaving and every pattern of failing calls. */
module StoreTheorems {
  import opened Options
  import opened Store
  import opened Operations
  import opened Server
  import opened StoreInvariants

  // ---- Rows, payloads and blobs ----

  /** No operation has the version locked, and none logged that it could not put
      the previous payload back. */
  predicate Quiet(s: Sys, v: Ver) { s.VersionFree(v) && !s.w.At(v).unrestored }

  /** Every version some feed holds has its row, its payload and the blobs of its
      files, and between operations the row describes the payload, unless an
      overwrite logged that it could not put the previous payload back. */
  lemma HeldVersionsAreIntact(run: seq<Action>, v: Ver)
    requires Runs(Fresh, run) && Server.After(Fresh, run).w.At(v).Held()
    ensures var s := Server.After(Fresh, run); var x := s.w.At(v);
      x.row.Some? && x.payload.Some? &&
      (forall n :: n in x.files ==> x.files[n].blob in s.w.blobs) &&
      (Quiet(s, v) ==> x.row.value == Sha512(x.payload.value))
  {
    RunKeeps(Fresh, run);
    assert VersionOk(Server.After(Fresh, run), v);
  }

  // ---- What one step changes about a version ----

  /** Every attached file was attached to the build the row describes. */
  predicate FilesMatch(s: Version) {
    forall n :: n in s.files ==> s.row == Some(s.files[n].madeFor)
  }

  /** An approval that is still there still approves the same build. */
  predicate ApprovalsStand(s: Version, s': Version) {
    forall f :: s.ApprovedIn(f) && f in s'.members ==> s'.ApprovedIn(f) && s'.row == s.row
  }

  predicate Marks(s: Version, s': Version) { s'.unrestored && !s.unrestored }

  predicate RestoreFails(pc: Pc, ok: bool) {
    pc.Pushing? && pc.p.Restore? && (pc.p.backup.None? || !ok)
  }

  lemma PushStepFacts(s: Version, job: Job, p: PushPc, ok: bool)
    requires job.Push? && PushKnows(s, job, p) && RowFirst(s)
    ensures var s' := PushStep(s, job, p, ok).0;
      (Marks(s, s') ==> RestoreFails(Pushing(p), ok)) &&
      (job.mode.PendingOnly? ==> ApprovalsStand(s, s') && (FilesMatch(s) ==> FilesMatch(s')))
  {
  }

  lemma OtherStepFacts(w: World, job: Job, pc: Pc, c: Choice)
    requires PcFits(job, pc) && !pc.Pushing? && !job.SweepBlob? && Knows(w.At(job.ver), job, pc) && RowFirst(w.At(job.ver))
    ensures var s, s' := w.At(job.ver), Exec(w, job, pc, c).0.At(job.ver);
      !Marks(s, s') && ApprovalsStand(s, s') && (FilesMatch(s) ==> FilesMatch(s'))
  {
  }

  ghost predicate PendingOnlyPushes(s: Sys) {
    forall i :: i in s.tasks && s.tasks[i].job.Push? ==> s.tasks[i].job.mode.PendingOnly?
  }

  /** One action, seen at one version. */
  lemma ActionFacts(s: Sys, a: Action, v: Ver)
    requires Inv(s) && Possible(s, a)
    ensures var x, x' := s.w.At(v), Do(s, a).w.At(v);
      (Marks(x, x') ==> a.Step? && s.tasks[a.id].job.Push? && s.tasks[a.id].job.ver == v &&
                        RestoreFails(s.tasks[a.id].pc, a.choice.ok)) &&
      (PendingOnlyPushes(s) ==> ApprovalsStand(x, x') && (FilesMatch(x) ==> FilesMatch(x')))
  {
    if a.Step? {
      StepKeeps(s, a.id, a.choice);
      var t := s.tasks[a.id];
      if t.Version() == Some(v) {
        assert TaskOk(s.w, t) && VersionOk(s, v);
        if t.pc.Pushing? {
          PushStepFacts(s.w.At(v), t.job, t.pc.p, a.choice.ok);
        } else {
          OtherStepFacts(s.w, t.job, t.pc, a.choice);
        }
      }
    }
  }

  /** A version is marked only by a restore that fails or has nothing kept aside. */
  lemma OnlyAFailedRestoreMarks(run: seq<Action>, a: Action, v: Ver)
    requires Runs(Fresh, run) && Possible(Server.After(Fresh, run), a)
    requires Marks(Server.After(Fresh, run).w.At(v), Do(Server.After(Fresh, run), a).w.At(v))
    ensures a.Step? && Server.After(Fresh, run).tasks[a.id].job.ver == v
    ensures RestoreFails(Server.After(Fresh, run).tasks[a.id].pc, a.choice.ok)
  {
    RunKeeps(Fresh, run);
    ActionFacts(Server.After(Fresh, run), a, v);
  }

  // ---- Every feed on pending-only ----

  /** Every push in the run is under pending-only. */
  predicate PendingOnlyRun(run: seq<Action>) {
    forall k :: 0 <= k < |run| && run[k].Spawn? && run[k].job.Push? ==> run[k].job.mode.PendingOnly?
  }

  ghost predicate BuildsMatch(s: Sys) {
    Inv(s) && PendingOnlyPushes(s) && forall v :: FilesMatch(s.w.At(v))
  }

  lemma BuildsMatchKept(s: Sys, a: Action)
    requires BuildsMatch(s) && Possible(s, a) && PendingOnlyRun([a])
    ensures BuildsMatch(Do(s, a))
  {
    DoKeeps(s, a);
    forall v ensures FilesMatch(Do(s, a).w.At(v)) {
      ActionFacts(s, a, v);
    }
    if a.Spawn? { assert [a][0] == a; }
  }

  lemma {:induction false} BuildsMatchRun(s: Sys, run: seq<Action>)
    requires BuildsMatch(s) && Runs(s, run) && PendingOnlyRun(run)
    ensures BuildsMatch(Server.After(s, run))
    decreases |run|
  {
    if run != [] {
      BuildsMatchKept(s, run[0]);
      BuildsMatchRun(Do(s, run[0]), run[1..]);
    }
  }

  /** The one build a version consists of. */
  predicate OneBuild(x: Version, b: Build) {
    x.payload == Some(b) && x.row == Some(Sha512(b)) && forall n :: n in x.files ==> x.files[n].madeFor == Sha512(b)
  }

  /** With every feed on pending-only, whenever no operation has a held version
      locked its bytes, its row and its attached files are one build. */
  lemma BytesRowAndFilesAreOneBuild(run: seq<Action>, v: Ver)
    requires Runs(Fresh, run) && PendingOnlyRun(run)
    requires var s := Server.After(Fresh, run); s.w.At(v).Held() && Quiet(s, v)
    ensures var x := Server.After(Fresh, run).w.At(v); x.payload.Some? && OneBuild(x, x.payload.value)
  {
    BuildsMatchRun(Fresh, run);
    HeldVersionsAreIntact(run, v);
    assert FilesMatch(Server.After(Fresh, run).w.At(v));
  }

  /** The feed holds the version in every state of the run. */
  predicate HeldThroughout(s: Sys, run: seq<Action>, f: Feed, v: Ver)
    requires Runs(s, run)
    decreases |run|
  {
    f in s.w.At(v).members && (run != [] ==> HeldThroughout(Do(s, run[0]), run[1..], f, v))
  }

  // ---- Approvals, whatever the other feeds allow ----

  /** A push that is replacing the build of a version, other than under pending-only, has
      made sure that its feed alone holds it. */
  predicate Sole(t: Task, x: Version) {
    t.job.Push? && t.pc.Pushing? && !t.job.mode.PendingOnly? ==>
      !t.pc.p.ReadApproved? && (Replacing(t.pc.p) && t.job.Changes(t.pc.p.existing) ==> x.members.Keys == {t.job.feed})
  }

  predicate Replacing(p: PushPc) { p.KeepAside? || p.StoreOver? || p.SidecarsOver? || p.SwapRows? || p.Restore? }

  ghost predicate AllSole(s: Sys) {
    forall i :: i in s.tasks && !s.tasks[i].job.SweepBlob? ==> Sole(s.tasks[i], s.w.At(s.tasks[i].job.ver))
  }

  lemma OneHolder(fs: set<Feed>, f: Feed)
    requires f in fs && |fs| <= 1
    ensures fs == {f}
  {
    assert |fs - {f}| == |fs| - 1;
    assert fs - {f} == {};
  }

  lemma ReplacingStaysSole(x: Version, job: Job, p: PushPc, ok: bool)
    requires job.Push? && PushKnows(x, job, p) && Sole(Task(job, Pushing(p)), x) && Replacing(p)
    ensures var (x', pc') := PushStep(x, job, p, ok); Sole(Task(job, pc'), x')
  {
  }

  lemma PushStaysSole(x: Version, job: Job, p: PushPc, ok: bool)
    requires job.Push? && PushKnows(x, job, p) && RowFirst(x) && Sole(Task(job, Pushing(p)), x)
    ensures var (x', pc') := PushStep(x, job, p, ok); Sole(Task(job, pc'), x')
  {
    if Replacing(p) {
      ReplacingStaysSole(x, job, p, ok);
    } else if p.CountHolders? && |x.members.Keys| <= 1 {
      OneHolder(x.members.Keys, job.feed);
    }
  }

  lemma LoopStaysSole(w: World, t: Task, c: Choice)
    requires t.Fits() && !t.pc.Pushing? && !t.job.SweepBlob?
    ensures var (w', pc') := Exec(w, t.job, t.pc, c); Sole(Task(t.job, pc'), w'.At(t.job.ver))
  {
  }

  lemma OwnStepStaysSole(s: Sys, i: nat, c: Choice)
    requires Inv(s) && AllSole(s) && Possible(s, Step(i, c)) && !s.tasks[i].job.SweepBlob?
    ensures var s' := Do(s, Step(i, c)); Sole(s'.tasks[i], s'.w.At(s.tasks[i].job.ver))
  {
    var t := s.tasks[i];
    assert TaskOk(s.w, t) && VersionOk(s, t.job.ver) && Sole(t, s.w.At(t.job.ver));
    if t.pc.Pushing? {
      PushStaysSole(s.w.At(t.job.ver), t.job, t.pc.p, c.ok);
    } else {
      LoopStaysSole(s.w, t, c);
    }
  }

  lemma StepStaysSole(s: Sys, i: nat, c: Choice)
    requires Inv(s) && AllSole(s) && Possible(s, Step(i, c))
    ensures AllSole(Do(s, Step(i, c)))
  {
    var s' := Do(s, Step(i, c));
    StepKeeps(s, i, c);
    forall j | j in s'.tasks && !s'.tasks[j].job.SweepBlob? ensures Sole(s'.tasks[j], s'.w.At(s'.tasks[j].job.ver)) {
      if j != i {
        assert Sole(s.tasks[j], s.w.At(s.tasks[j].job.ver));
      } else {
        OwnStepStaysSole(s, i, c);
      }
    }
  }

  lemma SoleStays(s: Sys, a: Action)
    requires Inv(s) && AllSole(s) && Possible(s, a)
    ensures AllSole(Do(s, a))
  {
    match a
    case Step(i, c) => StepStaysSole(s, i, c);
    case SetFlag(f, v, flag) =>
      var s' := Do(s, a);
      assert s'.w.At(v).members.Keys == s.w.At(v).members.Keys;
      forall i | i in s'.tasks && !s'.tasks[i].job.SweepBlob? ensures Sole(s'.tasks[i], s'.w.At(s'.tasks[i].job.ver)) {
        assert Sole(s.tasks[i], s.w.At(s.tasks[i].job.ver));
      }
    case Spawn(_, _) =>
  }

  lemma {:induction false} SoleRun(s: Sys, run: seq<Action>)
    requires Inv(s) && AllSole(s) && Runs(s, run)
    ensures Inv(Server.After(s, run)) && AllSole(Server.After(s, run))
    decreases |run|
  {
    if run != [] {
      DoKeeps(s, run[0]);
      SoleStays(s, run[0]);
      SoleRun(Do(s, run[0]), run[1..]);
    }
  }

  /** Whether a push may change the row of a version that feeds hold. */
  predicate MayChangeRow(job: Job, x: Version) {
    job.Push? && job.feed in x.members && if job.mode.PendingOnly? then !x.Approved() else x.members.Keys == {job.feed}
  }

  predicate RowKept(x: Version, x': Version) { x.Held() && x'.Held() ==> x'.row == x.row }

  lemma PushRow(x: Version, job: Job, p: PushPc, ok: bool)
    requires job.Push? && PushKnows(x, job, p) && RowFirst(x) && Sole(Task(job, Pushing(p)), x)
    ensures var x' := PushStep(x, job, p, ok).0; RowKept(x, x') || MayChangeRow(job, x)
  {
  }

  lemma OtherRow(w: World, job: Job, pc: Pc, c: Choice)
    requires PcFits(job, pc) && !pc.Pushing? && !job.SweepBlob? && Knows(w.At(job.ver), job, pc) && RowFirst(w.At(job.ver))
    ensures RowKept(w.At(job.ver), Exec(w, job, pc, c).0.At(job.ver))
  {
  }

  lemma ActionRow(s: Sys, a: Action, v: Ver)
    requires Inv(s) && AllSole(s) && Possible(s, a)
    ensures RowKept(s.w.At(v), Do(s, a).w.At(v)) ||
            (a.Step? && MayChangeRow(s.tasks[a.id].job, s.w.At(v)) && s.tasks[a.id].job.ver == v)
  {
    if a.Step? {
      StepKeeps(s, a.id, a.choice);
      var t := s.tasks[a.id];
      if t.Version() == Some(v) {
        assert TaskOk(s.w, t) && VersionOk(s, v) && Sole(t, s.w.At(v));
        if t.pc.Pushing? {
          PushRow(s.w.At(v), t.job, t.pc.p, a.choice.ok);
        } else {
          OtherRow(s.w, t.job, t.pc, a.choice);
        }
      }
    }
  }

  /** In every run the row of a version that feeds hold changes only by a push into a feed
      that holds it: one under pending-only while no feed approves the version, or one
      under another mode into the only feed that holds it. */
  lemma OnlySuchPushesChangeTheRow(run: seq<Action>, a: Action, v: Ver)
    requires Runs(Fresh, run) && Possible(Server.After(Fresh, run), a)
    requires var x, x' := Server.After(Fresh, run).w.At(v), Do(Server.After(Fresh, run), a).w.At(v);
      x.Held() && x'.Held() && x'.row != x.row
    ensures a.Step? && Server.After(Fresh, run).tasks[a.id].job.ver == v
    ensures MayChangeRow(Server.After(Fresh, run).tasks[a.id].job, Server.After(Fresh, run).w.At(v))
  {
    SoleRun(Fresh, run);
    ActionRow(Server.After(Fresh, run), a, v);
  }

  /** Every push of the run into the feed is under pending-only; other feeds' pushes may
      be under any mode. */
  predicate FeedPendingOnly(run: seq<Action>, f: Feed) {
    forall k :: 0 <= k < |run| && run[k].Spawn? && run[k].job.Push? && run[k].job.feed == f ==> run[k].job.mode.PendingOnly?
  }

  ghost predicate FeedPushes(s: Sys, f: Feed) {
    forall i :: i in s.tasks && s.tasks[i].job.Push? && s.tasks[i].job.feed == f ==> s.tasks[i].job.mode.PendingOnly?
  }

  /** What stands of an approval as long as the feed holds the version. */
  predicate Stands(x: Version, x': Version, f: Feed) {
    x.ApprovedIn(f) && f in x'.members ==> x'.ApprovedIn(f) && x'.row == x.row && (FilesMatch(x) ==> FilesMatch(x'))
  }

  lemma PushApproval(x: Version, job: Job, p: PushPc, ok: bool, f: Feed)
    requires job.Push? && PushKnows(x, job, p) && RowFirst(x) && Sole(Task(job, Pushing(p)), x)
    requires job.feed == f ==> job.mode.PendingOnly?
    ensures Stands(x, PushStep(x, job, p, ok).0, f)
  {
    LocalFilesShrink(x, job, Pushing(p), ok);
    PushRow(x, job, p, ok);
    var x' := PushStep(x, job, p, ok).0;
    if x.ApprovedIn(f) && f in x'.members {
      assert x.Approved() && x.Held() && x'.Held();
      assert x'.row == x.row;
    }
  }

  lemma ActionApproval(s: Sys, a: Action, f: Feed, v: Ver)
    requires Inv(s) && AllSole(s) && FeedPushes(s, f) && Possible(s, a)
    ensures Stands(s.w.At(v), Do(s, a).w.At(v), f)
  {
    if a.Step? {
      StepKeeps(s, a.id, a.choice);
      var t := s.tasks[a.id];
      if t.Version() == Some(v) {
        assert TaskOk(s.w, t) && VersionOk(s, v) && Sole(t, s.w.At(v));
        if t.pc.Pushing? {
          PushApproval(s.w.At(v), t.job, t.pc.p, a.choice.ok, f);
        } else {
          OtherStepFacts(s.w, t.job, t.pc, a.choice);
        }
      }
    }
  }

  lemma FeedPushesStay(s: Sys, a: Action, f: Feed)
    requires Possible(s, a) && FeedPushes(s, f) && FeedPendingOnly([a], f)
    ensures FeedPushes(Do(s, a), f)
  {
    if a.Spawn? {
      assert [a][0] == a;
    }
  }

  lemma {:induction false} FeedPushesRun(s: Sys, run: seq<Action>, f: Feed)
    requires Runs(s, run) && FeedPushes(s, f) && FeedPendingOnly(run, f)
    ensures FeedPushes(Server.After(s, run), f)
    decreases |run|
  {
    if run != [] {
      FeedPushesStay(s, run[0], f);
      FeedPushesRun(Do(s, run[0]), run[1..], f);
    }
  }

  lemma {:induction false} ApprovalStandsRun(s: Sys, run: seq<Action>, f: Feed, v: Ver)
    requires Inv(s) && AllSole(s) && FeedPushes(s, f) && Runs(s, run) && FeedPendingOnly(run, f)
    requires s.w.At(v).ApprovedIn(f) && HeldThroughout(s, run, f, v)
    ensures var x, x' := s.w.At(v), Server.After(s, run).w.At(v);
      x'.ApprovedIn(f) && x'.row == x.row && (FilesMatch(x) ==> FilesMatch(x'))
    decreases |run|
  {
    if run != [] {
      ActionApproval(s, run[0], f, v);
      DoKeeps(s, run[0]);
      SoleStays(s, run[0]);
      FeedPushesStay(s, run[0], f);
      ApprovalStandsRun(Do(s, run[0]), run[1..], f, v);
    }
  }

  /** Once a feed that takes pushes under pending-only approves a build, the one the row
      describes, and for as long as it holds the version, no interleaving of pushes,
      sweeps and attachments changes that build, whatever modes the other feeds are
      under: an approval wins over an overwrite at whatever step it lands, files that
      belong to the build stay its own, and once the version is free again the bytes are
      the approved build's. */
  lemma AnApprovedBuildNeverChanges(before: seq<Action>, run: seq<Action>, f: Feed, v: Ver)
    requires Runs(Fresh, before) && FeedPendingOnly(before, f)
    requires Runs(Server.After(Fresh, before), run) && FeedPendingOnly(run, f)
    requires var s := Server.After(Fresh, before); s.w.At(v).ApprovedIn(f) && HeldThroughout(s, run, f, v)
    ensures var s := Server.After(Fresh, before); var x, x' := s.w.At(v), Server.After(s, run).w.At(v);
      x.row.Some? && x'.ApprovedIn(f) && x'.row == x.row && (FilesMatch(x) ==> FilesMatch(x')) &&
      (Quiet(Server.After(s, run), v) ==> x'.payload == Some(x.row.value.of))
  {
    var s := Server.After(Fresh, before);
    SoleRun(Fresh, before);
    FeedPushesRun(Fresh, before, f);
    ApprovalStandsRun(s, run, f, v);
    SoleRun(s, run);
    assert VersionOk(s, v) && VersionOk(Server.After(s, run), v);
  }

  /** With every feed on pending-only, the files are the approved build's as well. */
  lemma AnApprovedBuildIsOneBuild(before: seq<Action>, run: seq<Action>, f: Feed, v: Ver)
    requires Runs(Fresh, before) && PendingOnlyRun(before) && Runs(Server.After(Fresh, before), run) && PendingOnlyRun(run)
    requires var s := Server.After(Fresh, before); s.w.At(v).ApprovedIn(f) && HeldThroughout(s, run, f, v)
    ensures var s := Server.After(Fresh, before); var x, x' := s.w.At(v), Server.After(s, run).w.At(v);
      x.row.Some? && x'.ApprovedIn(f) && x'.row == x.row && FilesMatch(x') &&
      (Quiet(Server.After(s, run), v) ==> OneBuild(x', x.row.value.of))
  {
    AnApprovedBuildNeverChanges(before, run, f, v);
    BuildsMatchRun(Fresh, before);
    assert FilesMatch(Server.After(Fresh, before).w.At(v));
  }

  /** Seen from a state in which the version is free: the bytes that are served are the
      same at both ends. */
  lemma AnApprovedBuildStaysServed(before: seq<Action>, run: seq<Action>, f: Feed, v: Ver)
    requires Runs(Fresh, before) && PendingOnlyRun(before) && Runs(Server.After(Fresh, before), run) && PendingOnlyRun(run)
    requires var s := Server.After(Fresh, before);
      s.w.At(v).ApprovedIn(f) && HeldThroughout(s, run, f, v) && Quiet(s, v) && Quiet(Server.After(s, run), v)
    ensures var s := Server.After(Fresh, before); var x, x' := s.w.At(v), Server.After(s, run).w.At(v);
      x.payload.Some? && OneBuild(x, x.payload.value) && OneBuild(x', x.payload.value)
  {
    BytesRowAndFilesAreOneBuild(before, v);
    AnApprovedBuildIsOneBuild(before, run, f, v);
  }
}
