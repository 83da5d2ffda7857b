/** An approval holds a version's attached files: nothing attaches, detaches or drops
    one while it stands, but for callers who may set it aside. */
module FileTheorems {
  import opened Options
  import opened Store
  import opened Operations
  import opened Server
  import opened StoreInvariants

  /** The call after the check that no approval holds the files, up to the one that
      changes them. */
  predicate PastCheck(t: Task, v: Ver) {
    !t.job.SweepBlob? && t.job.ver == v &&
    match t.pc
    case Attaching(a) => a.AttachWait? || a.AttachStore? || a.AttachRecord?
    case Detaching(d) => d.DetachRow?
    case _ => false
  }

  /** Its feed is one whose approvals hold files, and the caller may not set it aside. */
  predicate Bound(job: Job, f: Feed) {
    job.Attach? || job.Detach? ==> f in job.holding && f !in job.overrides
  }

  predicate AllBound(s: Sys, f: Feed) { forall i :: i in s.tasks ==> Bound(s.tasks[i].job, f) }

  predicate NonePastCheck(s: Sys, v: Ver) { forall i :: i in s.tasks ==> !PastCheck(s.tasks[i], v) }

  lemma PushKeepsFiles(s: Version, job: Job, p: PushPc, ok: bool)
    requires job.Push? && PushKnows(s, job, p) && RowFirst(s) && s.Approved()
    ensures PushStep(s, job, p, ok).0.files == s.files
  {
  }

  /** A step of an operation that has the version locked. */
  lemma OwnStepKeepsFiles(w: World, t: Task, c: Choice, f: Feed)
    requires t.Fits() && t.Version().Some? && Knows(w.At(t.job.ver), t.job, t.pc) && RowFirst(w.At(t.job.ver))
    requires w.At(t.job.ver).ApprovedIn(f) && Bound(t.job, f) && !PastCheck(t, t.job.ver)
    ensures var (w', pc') := Exec(w, t.job, t.pc, c);
      w'.At(t.job.ver).files == w.At(t.job.ver).files && !PastCheck(Task(t.job, pc'), t.job.ver)
  {
    var s := w.At(t.job.ver);
    assert s.Approved() && s.Held();
    if t.pc.Pushing? {
      PushKeepsFiles(s, t.job, t.pc.p, c.ok);
    } else if t.job.Attach? || t.job.Detach? {
      assert FilesHeld(s, t.job.holding, t.job.overrides);
    }
  }

  /** One action, seen at one approved version. */
  lemma ActionKeepsFiles(s: Sys, a: Action, f: Feed, v: Ver)
    requires Inv(s) && Possible(s, a) && s.w.At(v).ApprovedIn(f) && AllBound(s, f) && NonePastCheck(s, v)
    requires a.Spawn? ==> Bound(a.job, f)
    ensures Do(s, a).w.At(v).files == s.w.At(v).files && NonePastCheck(Do(s, a), v) && AllBound(Do(s, a), f)
  {
    if a.Step? {
      var t := s.tasks[a.id];
      assert TaskOk(s.w, t) && VersionOk(s, v);
      if t.Version() == Some(v) {
        OwnStepKeepsFiles(s.w, t, a.choice, f);
      } else {
        OtherStepKeepsFiles(s.w, t, a.choice, v);
      }
      forall i | i in s.tasks && i != a.id ensures Do(s, a).tasks[i] == s.tasks[i] {}
    }
  }

  lemma OtherStepKeepsFiles(w: World, t: Task, c: Choice, v: Ver)
    requires t.Fits() && t.Version() != Some(v) && !PastCheck(t, v)
    ensures var (w', pc') := Exec(w, t.job, t.pc, c); w'.At(v).files == w.At(v).files && !PastCheck(Task(t.job, pc'), v)
  {
  }

  /** The feed has the version approved in every state of the run, and every attach and
      detach in it is bound by that. */
  predicate ApprovedThroughout(s: Sys, run: seq<Action>, f: Feed, v: Ver)
    requires Runs(s, run)
    decreases |run|
  {
    s.w.At(v).ApprovedIn(f) &&
    (run != [] ==> (run[0].Spawn? ==> Bound(run[0].job, f)) && ApprovedThroughout(Do(s, run[0]), run[1..], f, v))
  }

  lemma {:induction false} FilesStayRun(s: Sys, run: seq<Action>, f: Feed, v: Ver)
    requires Inv(s) && Runs(s, run) && AllBound(s, f) && NonePastCheck(s, v) && ApprovedThroughout(s, run, f, v)
    ensures Server.After(s, run).w.At(v).files == s.w.At(v).files
    decreases |run|
  {
    if run != [] {
      ActionKeepsFiles(s, run[0], f, v);
      DoKeeps(s, run[0]);
      FilesStayRun(Do(s, run[0]), run[1..], f, v);
    }
  }

  /** From an approval that finds the version unlocked, and for as long as it stands,
      the attached files stay what they are, under every overwrite mode and in every
      interleaving. */
  lemma AnApprovalHoldsTheFiles(before: seq<Action>, run: seq<Action>, f: Feed, v: Ver)
    requires Runs(Fresh, before) && Runs(Server.After(Fresh, before), run)
    requires var s := Server.After(Fresh, before); s.VersionFree(v) && AllBound(s, f) && ApprovedThroughout(s, run, f, v)
    ensures var s := Server.After(Fresh, before); Server.After(s, run).w.At(v).files == s.w.At(v).files
  {
    RunKeeps(Fresh, before);
    var s := Server.After(Fresh, before);
    forall i | i in s.tasks ensures !PastCheck(s.tasks[i], v) {
      assert s.tasks[i].Version() != Some(v);
    }
    FilesStayRun(s, run, f, v);
  }
}
