/** What a restore that fails leaves behind, and what a later push makes of it. */
module MarkTheorems {
  import opened Options
  import opened Store
  import opened Operations
  import opened Server
  import opened StoreInvariants
  import opened CleanupTheorems

  const PROD := Feed("prod")
  const V := Ver("pkg", "1.0.0")
  const ONE := Build("one")
  const TWO := Build("two")

  function PushOf(b: Build): Job { Push(PROD, V, b, Enabled, false, false, false, {}) }

  function OneMember(): map<Feed, Member> { map[PROD := Arrival(PushOf(ONE))] }

  /** The row describes the first build and the bytes are `b`. */
  predicate Stands(x: Version, b: Build, marked: bool) {
    x == Version(Some(b), Some(Sha512(ONE)), OneMember(), map[], marked)
  }

  lemma Failing(s: Sys, run: seq<Action>, i: nat) returns (s': Sys, run': seq<Action>)
    requires Reaches(run, s) && Alone(s, i) && !s.tasks[i].Finished() && s.tasks[i].pc.Pushing?
    ensures Reaches(run', s') && i in s'.tasks && s'.tasks == s.tasks[i := s'.tasks[i]] && s'.tasks[i].job == s.tasks[i].job
    ensures (s'.w, s'.tasks[i].pc) == Exec(s.w, s.tasks[i].job, s.tasks[i].pc, Choice(false, Sha256("")))
  {
    s', run' := Play(s, run, Step(i, Choice(false, Sha256(""))));
  }

  predicate At(s: Sys, i: nat, b: Build, p: PushPc) { i in s.tasks && s.tasks[i] == Task(PushOf(b), Pushing(p)) }

  /** A push has found the row. */
  lemma RowFound(s0: Sys, run0: seq<Action>, i: nat, b: Build, kept: Build, marked: bool) returns (s: Sys, run: seq<Action>)
    requires Reaches(run0, s0) && i !in s0.tasks && (forall j :: j in s0.tasks ==> s0.tasks[j].Finished())
    requires Stands(s0.w.At(V), kept, marked)
    ensures Reaches(run, s) && Alone(s, i) && Stands(s.w.At(V), kept, marked) && s.tasks.Keys == s0.tasks.Keys + {i}
    ensures At(s, i, b, ReadMember(Some(Sha512(ONE))))
  {
    s, run := Play(s0, run0, Spawn(i, PushOf(b)));
    s, run := PlayAlone(s, run, i);
    assert At(s, i, b, ReadRow);
    s, run := PlayAlone(s, run, i);
  }

  /** It has found the membership too. */
  lemma Found(s0: Sys, run0: seq<Action>, i: nat, b: Build, kept: Build, marked: bool) returns (s: Sys, run: seq<Action>)
    requires Reaches(run0, s0) && i !in s0.tasks && (forall j :: j in s0.tasks ==> s0.tasks[j].Finished())
    requires Stands(s0.w.At(V), kept, marked)
    ensures Reaches(run, s) && Alone(s, i) && Stands(s.w.At(V), kept, marked) && s.tasks.Keys == s0.tasks.Keys + {i}
    ensures At(s, i, b, CountFeeds(Sha512(ONE), Some(Arrival(PushOf(ONE)))))
  {
    s, run := RowFound(s0, run0, i, b, kept, marked);
    s, run := PlayAlone(s, run, i);
  }

  /** The overwrite may begin: one feed holds the version. */
  lemma MayReplace(s0: Sys, run0: seq<Action>) returns (s: Sys, run: seq<Action>)
    requires Reaches(run0, s0) && Alone(s0, 1) && Stands(s0.w.At(V), ONE, false)
    requires At(s0, 1, TWO, CountFeeds(Sha512(ONE), Some(Arrival(PushOf(ONE)))))
    ensures Reaches(run, s) && Alone(s, 1) && Stands(s.w.At(V), ONE, false) && s.tasks.Keys == s0.tasks.Keys
    ensures At(s, 1, TWO, KeepAside(Sha512(ONE), Arrival(PushOf(ONE))))
  {
    assert ONE != TWO && OneMember().Keys == {PROD};
    s, run := PlayAlone(s0, run0, 1);
    assert At(s, 1, TWO, CountHolders(Sha512(ONE), Arrival(PushOf(ONE))));
    s, run := PlayAlone(s, run, 1);
  }

  /** The second build is stored over the first, which could not be kept aside. */
  lemma StoredOver(s0: Sys, run0: seq<Action>) returns (s: Sys, run: seq<Action>)
    requires Reaches(run0, s0) && Alone(s0, 1) && Stands(s0.w.At(V), ONE, false)
    requires At(s0, 1, TWO, KeepAside(Sha512(ONE), Arrival(PushOf(ONE))))
    ensures Reaches(run, s) && Alone(s, 1) && Stands(s.w.At(V), TWO, false) && s.tasks.Keys == s0.tasks.Keys
    ensures At(s, 1, TWO, SidecarsOver(Sha512(ONE), Arrival(PushOf(ONE)), None))
  {
    s, run := Failing(s0, run0, 1);
    assert At(s, 1, TWO, StoreOver(Sha512(ONE), Arrival(PushOf(ONE)), None));
    s, run := PlayAlone(s, run, 1);
  }

  /** Its sidecars cannot be written, and there is nothing to restore. */
  lemma NotRestored(s0: Sys, run0: seq<Action>) returns (s: Sys, run: seq<Action>)
    requires Reaches(run0, s0) && Alone(s0, 1) && Stands(s0.w.At(V), TWO, false)
    requires At(s0, 1, TWO, SidecarsOver(Sha512(ONE), Arrival(PushOf(ONE)), None))
    ensures Reaches(run, s) && Alone(s, 1) && Stands(s.w.At(V), TWO, true) && s.tasks.Keys == s0.tasks.Keys && s.tasks[1].Finished()
  {
    s, run := Failing(s0, run0, 1);
    assert At(s, 1, TWO, Restore(Sha512(ONE), None));
    s, run := PlayAlone(s, run, 1);
  }

  /** A first push, then an overwrite that cannot keep the first build aside and cannot
      write its sidecars. */
  lemma Marked() returns (s: Sys, run: seq<Action>)
    ensures Reaches(run, s) && s.tasks.Keys == {0, 1} && (forall i :: i in s.tasks ==> s.tasks[i].Finished())
    ensures Stands(s.w.At(V), TWO, true)
  {
    s, run := Pushed(PushOf(ONE));
    s, run := Found(s, run, 1, TWO, ONE, false);
    s, run := MayReplace(s, run);
    s, run := StoredOver(s, run);
    s, run := NotRestored(s, run);
  }

  /** A version that a feed holds, at rest, whose row does not describe its bytes. */
  lemma AFailedRestoreLeavesOtherBytes() returns (run: seq<Action>, v: Ver)
    ensures Runs(Fresh, run)
    ensures var s := Server.After(Fresh, run); var x := s.w.At(v);
      x.Held() && s.VersionFree(v) && (forall i :: i in s.tasks ==> s.tasks[i].Finished()) &&
      x.unrestored && x.row.Some? && x.payload.Some? && x.row.value != Sha512(x.payload.value)
  {
    v := V;
    var s;
    s, run := Marked();
    assert PROD in s.w.At(V).members;
  }

  lemma Refreshed(s0: Sys, run0: seq<Action>) returns (s: Sys, run: seq<Action>)
    requires Reaches(run0, s0) && Alone(s0, 2) && Stands(s0.w.At(V), TWO, true)
    requires At(s0, 2, ONE, CountFeeds(Sha512(ONE), Some(Arrival(PushOf(ONE)))))
    ensures Reaches(run, s) && Alone(s, 2) && Stands(s.w.At(V), TWO, true) && s.tasks[2] == Task(PushOf(ONE), Done(true))
  {
    s, run := PlayAlone(s0, run0, 2);
    assert At(s, 2, ONE, SwapSame(Sha512(ONE), Arrival(PushOf(ONE))));
    s, run := PlayAlone(s, run, 2);
  }

  /** Pushing the content of the row again succeeds and leaves those other bytes served. */
  lemma PushingAgainDoesNotHeal() returns (run: seq<Action>, v: Ver, i: nat)
    ensures Runs(Fresh, run)
    ensures var s := Server.After(Fresh, run); var x := s.w.At(v);
      i in s.tasks && s.tasks[i].job.Push? && s.tasks[i].job.ver == v && s.tasks[i].pc == Done(true) &&
      x.row == Some(Sha512(s.tasks[i].job.build)) && x.payload.Some? && x.payload.value != s.tasks[i].job.build
  {
    v, i := V, 2;
    var s;
    s, run := Marked();
    s, run := Found(s, run, 2, ONE, TWO, true);
    s, run := Refreshed(s, run);
    assert ONE != TWO;
  }
}
