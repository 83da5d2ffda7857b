/** When a listing, a disable or a pin that an administrator sets outlives the pushes that
    are going on. An overwrite writes back the flags it read, and setting a flag takes no
    version lock. */
module FlagTheorems {
  import opened Options
  import opened Store
  import opened Operations
  import opened Server
  import opened StoreInvariants
  import opened StoreProgress
  import opened CleanupTheorems

  /** What an administrator sets without the version lock, but for approvals. */
  function Flags(m: Member): (bool, bool, bool) { (m.listed, m.enabled, m.pinned) }

  function HolderFlags(x: Version, f: Feed): Option<(bool, bool, bool)> {
    if f in x.members then Some(Flags(x.members[f])) else None
  }

  /** The membership that a push has read and may write back. */
  function Carried(p: PushPc): Option<Member> {
    match p
    case CountFeeds(_, previous) => previous
    case ReadApproved(_, previous) => Some(previous)
    case CountHolders(_, previous) => Some(previous)
    case SwapSame(_, next) => Some(next)
    case KeepAside(_, next) => Some(next)
    case StoreOver(_, next, _) => Some(next)
    case SidecarsOver(_, next, _) => Some(next)
    case SwapRows(_, next, _) => Some(next)
    case _ => None
  }

  /** Whether the push will swap the rows, if its calls succeed. */
  predicate WillSwap(job: Job, p: PushPc, x: Version)
    requires job.Push?
  {
    match p
    case CountFeeds(existing, previous) =>
      x.Held() && previous.Some? && !SwapRefused(job, x, existing) &&
      (job.mode.PendingOnly? || (job.mode.Allows(job.prerelease) && (job.Changes(existing) ==> |x.members.Keys| <= 1)))
    case ReadApproved(existing, _) => !x.Approved() && !SwapRefused(job, x, existing)
    case CountHolders(existing, _) => |x.members.Keys| <= 1 && !SwapRefused(job, x, existing)
    case SwapSame(existing, _) => !SwapRefused(job, x, existing)
    case KeepAside(existing, _) => !SwapRefused(job, x, existing)
    case StoreOver(existing, _, _) => !SwapRefused(job, x, existing)
    case SidecarsOver(existing, _, _) => !SwapRefused(job, x, existing)
    case SwapRows(existing, _, _) => !SwapRefused(job, x, existing)
    case _ => false
  }

  /** A push into the feed that has read other flags and will write them back. */
  predicate Stale(t: Task, x: Version, f: Feed, v: Ver) {
    t.job.Push? && t.job.feed == f && t.job.ver == v && t.pc.Pushing? &&
    Carried(t.pc.p).Some? && Some(Flags(Carried(t.pc.p).value)) != HolderFlags(x, f) && WillSwap(t.job, t.pc.p, x)
  }

  ghost predicate SomeStale(s: Sys, f: Feed, v: Ver) { exists i :: i in s.tasks && Stale(s.tasks[i], s.w.At(v), f, v) }

  /** Only pushes change the flags. */
  predicate OnlyPushes(s: Sys, run: seq<Action>, f: Feed, v: Ver)
    requires Runs(s, run)
    decreases |run|
  {
    run == [] ||
    (((run[0].Step? && s.tasks[run[0].id].job.Push?) || HolderFlags(Do(s, run[0]).w.At(v), f) == HolderFlags(s.w.At(v), f)) &&
     OnlyPushes(Do(s, run[0]), run[1..], f, v))
  }

  // ---- One call of a push on its version ----

  /** The call keeps the flags, and its push carries no others that it will write. */
  predicate KeepsFlags(x: Version, t: Task, x': Version, t': Task, f: Feed)
    requires t.job.Push?
  {
    HolderFlags(x', f) == HolderFlags(x, f) && !Stale(t', x', f, t.job.ver)
  }

  predicate Looks(p: PushPc) { p.ReadRow? || p.ReadMember? || p.CountFeeds? || p.ReadApproved? || p.CountHolders? }

  predicate Overwrites(p: PushPc) { p.SwapSame? || p.KeepAside? || p.StoreOver? || p.SidecarsOver? || p.SwapRows? }

  lemma ReadingKeepsFlags(x: Version, job: Job, p: PushPc, ok: bool, f: Feed)
    requires job.Push? && PushKnows(x, job, p) && RowFirst(x) && f in x.members
    requires Looks(p)
    requires !Stale(Task(job, Pushing(p)), x, f, job.ver)
    ensures var (x', pc') := PushStep(x, job, p, ok); KeepsFlags(x, Task(job, Pushing(p)), x', Task(job, pc'), f)
  {
  }

  lemma SwappingKeepsFlags(x: Version, job: Job, p: PushPc, ok: bool, f: Feed)
    requires job.Push? && PushKnows(x, job, p) && RowFirst(x) && f in x.members
    requires Overwrites(p)
    requires !Stale(Task(job, Pushing(p)), x, f, job.ver)
    ensures var (x', pc') := PushStep(x, job, p, ok); KeepsFlags(x, Task(job, Pushing(p)), x', Task(job, pc'), f)
  {
    var x' := PushStep(x, job, p, ok).0;
    assert x'.members == x.members ==> x'.Approved() == x.Approved();
  }

  lemma OtherCallsKeepFlags(x: Version, job: Job, p: PushPc, ok: bool, f: Feed)
    requires job.Push? && PushKnows(x, job, p) && RowFirst(x) && f in x.members
    requires !Looks(p) && !Overwrites(p)
    ensures var (x', pc') := PushStep(x, job, p, ok); KeepsFlags(x, Task(job, Pushing(p)), x', Task(job, pc'), f)
  {
  }

  lemma PushKeepsFlags(x: Version, job: Job, p: PushPc, ok: bool, f: Feed)
    requires job.Push? && PushKnows(x, job, p) && RowFirst(x) && f in x.members
    requires !Stale(Task(job, Pushing(p)), x, f, job.ver)
    ensures var (x', pc') := PushStep(x, job, p, ok); KeepsFlags(x, Task(job, Pushing(p)), x', Task(job, pc'), f)
  {
    if Looks(p) {
      ReadingKeepsFlags(x, job, p, ok, f);
    } else if Overwrites(p) {
      SwappingKeepsFlags(x, job, p, ok, f);
    } else {
      OtherCallsKeepFlags(x, job, p, ok, f);
    }
  }

  /** A call of a push that is not `Pushing` on a version that is held. */
  lemma LoopsKeepFlags(w: World, t: Task, c: Choice, f: Feed)
    requires t.job.Push? && TaskOk(w, t) && !t.pc.Pushing? && f in w.At(t.job.ver).members
    ensures var (w', pc') := Exec(w, t.job, t.pc, c);
      KeepsFlags(w.At(t.job.ver), t, w'.At(t.job.ver), Task(t.job, pc'), f)
  {
  }

  // ---- Every action ----

  lemma StepKeepsFlags(s: Sys, i: nat, c: Choice, f: Feed, v: Ver)
    requires Inv(s) && Possible(s, Step(i, c)) && f in s.w.At(v).members && !SomeStale(s, f, v)
    requires s.tasks[i].job.Push? || HolderFlags(Do(s, Step(i, c)).w.At(v), f) == HolderFlags(s.w.At(v), f)
    ensures var s' := Do(s, Step(i, c));
      HolderFlags(s'.w.At(v), f) == HolderFlags(s.w.At(v), f) && !Stale(s'.tasks[i], s'.w.At(v), f, v)
  {
    var t, s' := s.tasks[i], Do(s, Step(i, c));
    StepKeeps(s, i, c);
    assert TaskOk(s.w, t) && VersionOk(s, v) && !Stale(t, s.w.At(v), f, v);
    if t.job.Push? && t.job.ver == v {
      if t.pc.Pushing? {
        PushKeepsFlags(s.w.At(v), t.job, t.pc.p, c.ok, f);
      } else {
        LoopsKeepFlags(s.w, t, c, f);
      }
    }
  }

  lemma OthersStayFresh(s: Sys, i: nat, c: Choice, f: Feed, v: Ver, j: nat)
    requires Inv(s) && Possible(s, Step(i, c)) && !SomeStale(s, f, v) && j in s.tasks && j != i
    requires HolderFlags(Do(s, Step(i, c)).w.At(v), f) == HolderFlags(s.w.At(v), f)
    ensures !Stale(s.tasks[j], Do(s, Step(i, c)).w.At(v), f, v)
  {
    StepKeeps(s, i, c);
    assert !Stale(s.tasks[j], s.w.At(v), f, v);
  }

  lemma FlagStaysFresh(s: Sys, g: Feed, u: Ver, flag: Flag, f: Feed, v: Ver)
    requires Possible(s, SetFlag(g, u, flag)) && !SomeStale(s, f, v)
    requires HolderFlags(Do(s, SetFlag(g, u, flag)).w.At(v), f) == HolderFlags(s.w.At(v), f)
    ensures !SomeStale(Do(s, SetFlag(g, u, flag)), f, v)
  {
    var x, x' := s.w.At(v), Do(s, SetFlag(g, u, flag)).w.At(v);
    assert x'.members.Keys == x.members.Keys;
    assert x.Approved() ==> x'.Approved() by {
      if h :| h in x.members && !x.members[h].pending {
        assert h in x'.members && !x'.members[h].pending;
      }
    }
    forall i | i in s.tasks ensures !Stale(s.tasks[i], x', f, v) {
      assert !Stale(s.tasks[i], x, f, v);
    }
  }

  lemma ActionKeepsFlags(s: Sys, a: Action, f: Feed, v: Ver)
    requires Inv(s) && Possible(s, a) && f in s.w.At(v).members && !SomeStale(s, f, v)
    requires (a.Step? && s.tasks[a.id].job.Push?) || HolderFlags(Do(s, a).w.At(v), f) == HolderFlags(s.w.At(v), f)
    ensures HolderFlags(Do(s, a).w.At(v), f) == HolderFlags(s.w.At(v), f) && !SomeStale(Do(s, a), f, v)
  {
    var s' := Do(s, a);
    match a {
      case Step(i, c) =>
        StepKeepsFlags(s, i, c, f, v);
        forall j | j in s'.tasks ensures !Stale(s'.tasks[j], s'.w.At(v), f, v) {
          if j != i {
            OthersStayFresh(s, i, c, f, v, j);
          }
        }
      case SetFlag(g, u, flag) => FlagStaysFresh(s, g, u, flag, f, v);
      case Spawn(_, _) =>
        forall j | j in s'.tasks ensures !Stale(s'.tasks[j], s'.w.At(v), f, v) {}
    }
  }

  lemma {:induction false} FlagsStand(s: Sys, run: seq<Action>, f: Feed, v: Ver)
    requires Inv(s) && Runs(s, run) && f in s.w.At(v).members && !SomeStale(s, f, v) && OnlyPushes(s, run, f, v)
    ensures HolderFlags(Server.After(s, run).w.At(v), f) == HolderFlags(s.w.At(v), f)
    decreases |run|
  {
    if run != [] {
      ActionKeepsFlags(s, run[0], f, v);
      DoKeeps(s, run[0]);
      FlagsStand(Do(s, run[0]), run[1..], f, v);
    }
  }

  // ---- A stale push ----

  /** One successful call further, the push has written the flags it read or will. */
  predicate WritesOrWill(x: Version, job: Job, p: PushPc, x': Version, pc': Pc, f: Feed)
    requires job.Push? && Carried(p).Some?
  {
    HolderFlags(x', f) == Some(Flags(Carried(p).value)) ||
    (HolderFlags(x', f) == HolderFlags(x, f) && Stale(Task(job, pc'), x', f, job.ver) && PushPhase(pc'.p) < PushPhase(p))
  }

  lemma StaleLook(x: Version, job: Job, p: PushPc, f: Feed)
    requires job.Push? && PushKnows(x, job, p) && RowFirst(x) && Stale(Task(job, Pushing(p)), x, f, job.ver) && Looks(p)
    ensures var (x', pc') := PushStep(x, job, p, true); WritesOrWill(x, job, p, x', pc', f)
  {
  }

  lemma StaleWrite(x: Version, job: Job, p: PushPc, f: Feed)
    requires job.Push? && PushKnows(x, job, p) && RowFirst(x) && Stale(Task(job, Pushing(p)), x, f, job.ver) && Overwrites(p)
    ensures var (x', pc') := PushStep(x, job, p, true); WritesOrWill(x, job, p, x', pc', f)
  {
    var x' := PushStep(x, job, p, true).0;
    assert x'.members == x.members ==> x'.Approved() == x.Approved();
  }

  lemma {:induction false} AStalePushWritesBack(s: Sys, i: nat, f: Feed, v: Ver) returns (run: seq<Action>)
    requires Inv(s) && i in s.tasks && Stale(s.tasks[i], s.w.At(v), f, v)
    ensures Runs(s, run) && OnlyPushes(s, run, f, v)
    ensures HolderFlags(Server.After(s, run).w.At(v), f) != HolderFlags(s.w.At(v), f)
    decreases PushPhase(s.tasks[i].pc.p)
  {
    var c := Choice(true, Sha256(""));
    var s' := Do(s, Step(i, c));
    assert TaskOk(s.w, s.tasks[i]) && VersionOk(s, v);
    StepKeeps(s, i, c);
    if Looks(s.tasks[i].pc.p) {
      StaleLook(s.w.At(v), s.tasks[i].job, s.tasks[i].pc.p, f);
    } else {
      StaleWrite(s.w.At(v), s.tasks[i].job, s.tasks[i].pc.p, f);
    }
    var rest := [];
    if HolderFlags(s'.w.At(v), f) == HolderFlags(s.w.At(v), f) {
      rest := AStalePushWritesBack(s', i, f, v);
    }
    run := [Step(i, c)] + rest;
    assert run[1..] == rest;
  }

  /** The listing, disable and pin of a membership stand in every continuation in which
      only pushes could change them exactly when no push into the feed has read others
      and will write them back. */
  lemma FlagsStandExactly(s: Sys, f: Feed, v: Ver)
    requires Inv(s) && f in s.w.At(v).members
    ensures (forall run :: Runs(s, run) && OnlyPushes(s, run, f, v) ==>
                            HolderFlags(Server.After(s, run).w.At(v), f) == HolderFlags(s.w.At(v), f))
            <==> !SomeStale(s, f, v)
  {
    if i :| i in s.tasks && Stale(s.tasks[i], s.w.At(v), f, v) {
      var run := AStalePushWritesBack(s, i, f, v);
      assert HolderFlags(Server.After(s, run).w.At(v), f) != HolderFlags(s.w.At(v), f);
    } else {
      forall run | Runs(s, run) && OnlyPushes(s, run, f, v)
        ensures HolderFlags(Server.After(s, run).w.At(v), f) == HolderFlags(s.w.At(v), f)
      {
        FlagsStand(s, run, f, v);
      }
    }
  }

  /** Had the flag been set under the version lock, it would stand. */
  lemma AnUnlockedVersionHasNoStalePush(s: Sys, f: Feed, v: Ver)
    requires s.VersionFree(v)
    ensures !SomeStale(s, f, v)
  {
    forall i | i in s.tasks ensures !Stale(s.tasks[i], s.w.At(v), f, v) {
      assert s.tasks[i].Version() != Some(v);
    }
  }

  // ---- A run ----

  /** A second push of the same content that has found the row. */
  lemma PushedAgain(push: Job) returns (s: Sys, run: seq<Action>)
    requires push.Push?
    ensures Reaches(run, s) && Alone(s, 1) && s.tasks[1] == Task(push, Pushing(ReadMember(Some(Sha512(push.build)))))
    ensures var x := s.w.At(push.ver);
      x.members == map[push.feed := Arrival(push)] && x.row == Some(Sha512(push.build)) && x.payload == Some(push.build)
  {
    s, run := Pushed(push);
    s, run := Play(s, run, Spawn(1, push));
    s, run := PlayAlone(s, run, 1);
    s, run := PlayAlone(s, run, 1);
  }

  /** It has read the membership too and is about to refresh the rows. */
  lemma AboutToRefresh(push: Job) returns (s: Sys, run: seq<Action>)
    requires push.Push? && push.mode.Enabled?
    ensures Reaches(run, s) && Alone(s, 1) && s.w.At(push.ver).members == map[push.feed := Arrival(push)]
    ensures s.tasks[1] == Task(push, Pushing(SwapSame(Sha512(push.build), Arrival(push))))
  {
    s, run := PushedAgain(push);
    s, run := PlayAlone(s, run, 1);
    assert s.tasks[1].pc == Pushing(CountFeeds(Sha512(push.build), Some(Arrival(push))));
    s, run := PlayAlone(s, run, 1);
  }

  lemma PinnedAway(s: Sys, push: Job)
    requires push.Push? && push.mode.Enabled? && Alone(s, 1)
    requires s.w.At(push.ver).members == map[push.feed := Arrival(push)]
    requires s.tasks[1] == Task(push, Pushing(SwapSame(Sha512(push.build), Arrival(push))))
    ensures Possible(s, SetFlag(push.feed, push.ver, SetPinned(true)))
    ensures var s' := Do(s, SetFlag(push.feed, push.ver, SetPinned(true)));
      var a := Step(1, Choice(true, Sha256("")));
      s'.tasks == s.tasks && push.feed in s'.w.At(push.ver).members && s'.w.At(push.ver).members[push.feed].pinned &&
      Possible(s', a) && push.feed in Do(s', a).w.At(push.ver).members &&
      !Do(s', a).w.At(push.ver).members[push.feed].pinned && Do(s', a).tasks[1].pc == Done(true)
  {
  }

  /** A push, a second one of the same bytes that has read the membership, then the pin:
      the version is pinned, and the next call of the push succeeds and unpins it. */
  lemma APushCanUndoAPin() returns (run: seq<Action>, f: Feed, v: Ver, a: Action)
    ensures Runs(Fresh, run) && Possible(Server.After(Fresh, run), a)
    ensures var s := Server.After(Fresh, run);
      a.Step? && a.id in s.tasks && s.tasks[a.id].job.Push? && f in s.w.At(v).members && s.w.At(v).members[f].pinned &&
      f in Do(s, a).w.At(v).members && !Do(s, a).w.At(v).members[f].pinned && Do(s, a).tasks[a.id].pc == Done(true)
  {
    f, v := Feed("prod"), Ver("pkg", "1.0.0");
    a := Step(1, Choice(true, Sha256("")));
    var s, push := Fresh, Push(f, v, Build("one"), Enabled, false, false, false, {});
    s, run := AboutToRefresh(push);
    var pinned := Do(s, SetFlag(f, v, SetPinned(true)));
    PinnedAway(s, push);
    s, run := Play(s, run, SetFlag(f, v, SetPinned(true)));
    assert s == pinned;
  }
}
