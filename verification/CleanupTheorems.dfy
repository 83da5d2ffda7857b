/** Which deletions of a cleanup an administrator's pin or disable can stop. */
module CleanupTheorems {
  import opened Options
  import opened Store
  import opened Operations
  import opened Server
  import opened StoreInvariants

  /** Some cleanup has read the membership, found it prunable, and deletes next. */
  predicate PastCheck(s: Sys, f: Feed, v: Ver) {
    exists i :: i in s.tasks && s.tasks[i] == Task(Prune(f, v), Dropping(DropMember))
  }

  /** Nothing but cleanups touches the membership. */
  predicate OthersLeave(s: Sys, run: seq<Action>, f: Feed, v: Ver)
    requires Runs(s, run)
    decreases |run|
  {
    run == [] ||
    (((run[0].Step? && s.tasks[run[0].id].job.Prune?) || Holder(f, Do(s, run[0]).w.At(v)) == Holder(f, s.w.At(v))) &&
     OthersLeave(Do(s, run[0]), run[1..], f, v))
  }

  predicate Withheld(s: Sys, f: Feed, v: Ver) {
    f in s.w.At(v).members && !s.w.At(v).members[f].Prunable()
  }

  lemma CleanupStep(s: Sys, a: Action, f: Feed, v: Ver)
    requires Inv(s) && Possible(s, a) && Withheld(s, f, v) && !PastCheck(s, f, v)
    requires (a.Step? && s.tasks[a.id].job.Prune?) || Holder(f, Do(s, a).w.At(v)) == Holder(f, s.w.At(v))
    ensures Holder(f, Do(s, a).w.At(v)) == Holder(f, s.w.At(v)) && !PastCheck(Do(s, a), f, v)
  {
    var s' := Do(s, a);
    if a.Step? {
      var t := s.tasks[a.id];
      assert TaskOk(s.w, t);
      forall i | i in s'.tasks && i != a.id ensures s'.tasks[i] == s.tasks[i] {}
    }
  }

  lemma {:induction false} WithheldStays(s: Sys, run: seq<Action>, f: Feed, v: Ver)
    requires Inv(s) && Runs(s, run) && Withheld(s, f, v) && !PastCheck(s, f, v) && OthersLeave(s, run, f, v)
    ensures Holder(f, Server.After(s, run).w.At(v)) == Holder(f, s.w.At(v))
    decreases |run|
  {
    if run != [] {
      CleanupStep(s, run[0], f, v);
      DoKeeps(s, run[0]);
      WithheldStays(Do(s, run[0]), run[1..], f, v);
    }
  }

  lemma PastCheckDeletes(s: Sys, f: Feed, v: Ver) returns (run: seq<Action>)
    requires Inv(s) && PastCheck(s, f, v)
    ensures Runs(s, run) && OthersLeave(s, run, f, v) && Holder(f, Server.After(s, run).w.At(v)).None?
  {
    var i :| i in s.tasks && s.tasks[i] == Task(Prune(f, v), Dropping(DropMember));
    assert TaskOk(s.w, s.tasks[i]);
    var a := Step(i, Choice(true, Sha256("")));
    Extend(s, [], a);
    run := [] + [a];
    assert run[0] == a && run[1..] == [] && Server.After(s, run) == Do(s, a);
  }

  /** A version that is pinned, disabled or pending in a feed survives every cleanup
      exactly when none of them is past its check at that moment. The comment on
      `purge_planned` promises it always, since the check is made under the version
      lock; but pinning and disabling do not take that lock. */
  lemma CleanupsSpareExactlyBeforeTheirCheck(s: Sys, f: Feed, v: Ver)
    requires Inv(s) && Withheld(s, f, v)
    ensures (forall run :: Runs(s, run) && OthersLeave(s, run, f, v) ==>
                            Holder(f, Server.After(s, run).w.At(v)) == Holder(f, s.w.At(v)))
            <==> !PastCheck(s, f, v)
  {
    if PastCheck(s, f, v) {
      var run := PastCheckDeletes(s, f, v);
      assert Holder(f, Server.After(s, run).w.At(v)) != Holder(f, s.w.At(v));
    } else {
      forall run | Runs(s, run) && OthersLeave(s, run, f, v)
        ensures Holder(f, Server.After(s, run).w.At(v)) == Holder(f, s.w.At(v))
      {
        WithheldStays(s, run, f, v);
      }
    }
  }

  /** Had the pin taken the version lock, it would never come too late. */
  lemma AnUnlockedVersionIsNotPastCheck(s: Sys, f: Feed, v: Ver)
    requires s.VersionFree(v)
    ensures !PastCheck(s, f, v)
  {
  }

  predicate Reaches(run: seq<Action>, s: Sys) { Runs(Fresh, run) && Server.After(Fresh, run) == s }

  /** Task `i` is the only one that is not finished. */
  predicate Alone(s: Sys, i: nat) {
    i in s.tasks && s.tasks[i].Fits() && forall j :: j in s.tasks && j != i ==> s.tasks[j].Finished()
  }

  lemma Play(s: Sys, run: seq<Action>, a: Action) returns (s': Sys, run': seq<Action>)
    requires Reaches(run, s) && Possible(s, a)
    ensures Reaches(run', s') && s' == Do(s, a)
  {
    Extend(Fresh, run, a);
    s', run' := Do(s, a), run + [a];
  }

  lemma PlayAlone(s: Sys, run: seq<Action>, i: nat) returns (s': Sys, run': seq<Action>)
    requires Reaches(run, s) && Alone(s, i) && !s.tasks[i].Finished()
    requires !s.tasks[i].pc.Freeing? && !s.tasks[i].pc.Erasing?
    ensures Reaches(run', s') && i in s'.tasks && s'.tasks == s.tasks[i := s'.tasks[i]] && s'.tasks[i].job == s.tasks[i].job
    ensures (s'.w, s'.tasks[i].pc) == Exec(s.w, s.tasks[i].job, s.tasks[i].pc, Choice(true, Sha256("")))
  {
    s', run' := Play(s, run, Step(i, Choice(true, Sha256(""))));
  }

  /** The first push of a version, up to where it knows that nothing is there. */
  lemma NothingFound(push: Job) returns (s: Sys, run: seq<Action>)
    requires push.Push?
    ensures Reaches(run, s) && s.tasks == map[0 := Task(push, Pushing(ReadMember(None)))] && s.w.At(push.ver) == Absent
  {
    s, run := Play(Fresh, [], Spawn(0, push));
    assert s == Sys(World(map[], {}), map[0 := Task(push, Start)]);
    s, run := PlayAlone(s, run, 0);
    s, run := PlayAlone(s, run, 0);
  }

  /** Up to where its payload is stored. */
  lemma PayloadStored(push: Job) returns (s: Sys, run: seq<Action>)
    requires push.Push?
    ensures Reaches(run, s) && s.tasks == map[0 := Task(push, Pushing(SidecarsNew))]
    ensures s.w.At(push.ver) == Absent.(payload := Some(push.build))
  {
    s, run := NothingFound(push);
    s, run := PlayAlone(s, run, 0);
    assert s.w.At(push.ver) == Absent && s.tasks == map[0 := Task(push, Pushing(StoreNew))];
    s, run := PlayAlone(s, run, 0);
  }

  /** The first push of a version, all of whose calls succeed. */
  lemma Pushed(push: Job) returns (s: Sys, run: seq<Action>)
    requires push.Push?
    ensures Reaches(run, s) && s.tasks.Keys == {0} && s.tasks[0].Finished()
    ensures s.w.At(push.ver) ==
            Version(Some(push.build), Some(Sha512(push.build)), map[push.feed := Arrival(push)], map[], false)
  {
    s, run := PayloadStored(push);
    s, run := PlayAlone(s, run, 0);
    assert s.tasks == map[0 := Task(push, Pushing(RecordNew))] && s.w.At(push.ver).members == map[];
    s, run := PlayAlone(s, run, 0);
  }

  /** A cleanup has read the version's membership and is about to remove it. */
  lemma CleanupPastCheck(f: Feed, v: Ver) returns (s: Sys, run: seq<Action>)
    ensures Reaches(run, s) && Alone(s, 1) && s.tasks[1] == Task(Prune(f, v), Dropping(DropMember)) && f in s.w.At(v).members
  {
    s, run := Pushed(Push(f, v, Build("one"), Disabled, false, false, false, {}));
    s, run := Play(s, run, Spawn(1, Prune(f, v)));
    s, run := PlayAlone(s, run, 1);
    s, run := PlayAlone(s, run, 1);
  }

  /** A push into one feed, a cleanup that has read the version, then the pin: the
      version is pinned and the next call of the cleanup deletes it. */
  lemma APinCanComeTooLate() returns (run: seq<Action>, f: Feed, v: Ver, a: Action)
    ensures Runs(Fresh, run) && Possible(Server.After(Fresh, run), a)
    ensures var s := Server.After(Fresh, run);
      f in s.w.At(v).members && s.w.At(v).members[f].pinned &&
      a.Step? && s.tasks[a.id].job == Prune(f, v) && f !in Do(s, a).w.At(v).members
  {
    f, v := Feed("prod"), Ver("pkg", "1.0.0");
    a := Step(1, Choice(true, Sha256("")));
    var s;
    s, run := CleanupPastCheck(f, v);
    s, run := Play(s, run, SetFlag(f, v, SetPinned(true)));
  }
}
