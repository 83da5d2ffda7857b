/** What a push leaves when any of its calls fail and those of its undo succeed. */
module StoreUndo {
  import opened Options
  import opened Store
  import opened Operations
  import opened StoreInvariants

  /** The calls of a push on its version, with the outcome of each. */
  function Calls(s: Version, job: Job, pc: Pc, outcomes: seq<bool>): (Version, Pc)
    requires job.Push?
    decreases |outcomes|
  {
    if outcomes == [] || !pc.Pushing? then (s, pc)
    else
      var (s', pc') := PushStep(s, job, pc.p, outcomes[0]);
      Calls(s', job, pc', outcomes[1..])
  }

  /** The calls whose success an undo needs: keeping the previous payload aside, putting
      it back, and taking a recorded version away again. */
  predicate Undoing(p: PushPc) { p.KeepAside? || p.Restore? || p.UndoRow? || p.UndoPayload? }

  predicate UndoWorks(s: Version, job: Job, pc: Pc, outcomes: seq<bool>)
    requires job.Push?
    decreases |outcomes|
  {
    outcomes == [] || !pc.Pushing? ||
    ((Undoing(pc.p) ==> outcomes[0]) &&
     var (s', pc') := PushStep(s, job, pc.p, outcomes[0]); UndoWorks(s', job, pc', outcomes[1..]))
  }

  /** The push ran to where it leaves its own calls, and its undo could do its part. */
  predicate RunsOut(s: Version, job: Job, pc: Pc, outcomes: seq<bool>)
    requires job.Push?
  {
    UndoWorks(s, job, pc, outcomes) && !Calls(s, job, pc, outcomes).1.Pushing?
  }

  lemma OneOutcome(s: Version, job: Job, p: PushPc, outcomes: seq<bool>)
    requires job.Push? && RunsOut(s, job, Pushing(p), outcomes)
    ensures outcomes != [] && (Undoing(p) ==> outcomes[0])
    ensures var (s', pc') := PushStep(s, job, p, outcomes[0]);
      RunsOut(s', job, pc', outcomes[1..]) && Calls(s, job, Pushing(p), outcomes) == Calls(s', job, pc', outcomes[1..])
  {
  }

  // ---- A version new to the server ----

  lemma RowAndPayloadGo(s: Version, job: Job, outcomes: seq<bool>)
    requires job.Push? && RunsOut(s, job, Pushing(UndoRow), outcomes)
    ensures Calls(s, job, Pushing(UndoRow), outcomes) == (Absent, Done(false))
  {
    OneOutcome(s, job, UndoRow, outcomes);
    OneOutcome(Absent.(payload := s.payload), job, UndoPayload, outcomes[1..]);
  }

  lemma RecordedOrGone(s: Version, job: Job, outcomes: seq<bool>)
    requires job.Push? && s.row.None? && RowFirst(s) && RunsOut(s, job, Pushing(RecordNew), outcomes)
    ensures outcomes != []
    ensures Calls(s, job, Pushing(RecordNew), outcomes) ==
            if outcomes[0] then (s.(row := Some(Sha512(job.build)), members := map[job.feed := Arrival(job)]), Done(true))
            else (Absent, Done(false))
  {
    OneOutcome(s, job, RecordNew, outcomes);
    if outcomes[0] {
      assert s.members == map[];
      assert s.members[job.feed := Arrival(job)] == map[job.feed := Arrival(job)];
    } else {
      OneOutcome(s, job, RecordFailed, outcomes[1..]);
      RowAndPayloadGo(s, job, outcomes[2..]);
      assert outcomes[1..][1..] == outcomes[2..];
    }
  }

  /** Whatever calls of a first push fail, with an undo whose calls succeed: the version
      is recorded with its payload, or untouched when the payload could not be stored,
      or left with a payload and no rows when its sidecars could not, or nothing of it
      is left. */
  lemma AFirstPushIsAllOrNothing(s: Version, job: Job, outcomes: seq<bool>)
    requires job.Push? && s.row.None? && RowFirst(s) && RunsOut(s, job, Pushing(StoreNew), outcomes)
    ensures outcomes != [] && (outcomes[0] ==> |outcomes| > 1 && (outcomes[1] ==> |outcomes| > 2))
    ensures var stored := s.(payload := Some(job.build));
      Calls(s, job, Pushing(StoreNew), outcomes) ==
        if !outcomes[0] then (s, Done(false))
        else if !outcomes[1] then (stored, Done(false))
        else if !outcomes[2] then (Absent, Done(false))
        else (stored.(row := Some(Sha512(job.build)), members := map[job.feed := Arrival(job)]), Done(true))
  {
    OneOutcome(s, job, StoreNew, outcomes);
    if outcomes[0] {
      var stored := s.(payload := Some(job.build));
      OneOutcome(stored, job, SidecarsNew, outcomes[1..]);
      if outcomes[1] {
        assert outcomes[1..][1..] == outcomes[2..];
        RecordedOrGone(stored, job, outcomes[2..]);
      }
    }
  }

  // ---- An overwrite ----

  lemma PutBack(s: Version, job: Job, existing: Digest, outcomes: seq<bool>)
    requires job.Push? && s.payload.Some?
    requires RunsOut(s.(payload := Some(job.build)), job, Pushing(Restore(existing, s.payload)), outcomes)
    ensures Calls(s.(payload := Some(job.build)), job, Pushing(Restore(existing, s.payload)), outcomes) == (s, Done(false))
  {
    OneOutcome(s.(payload := Some(job.build)), job, Restore(existing, s.payload), outcomes);
  }

  lemma AfterSwap(s: Version, job: Job, existing: Digest, next: Member, outcomes: seq<bool>)
    requires job.Push? && RunsOut(SwapTo(job, s, existing, next).0, job, SwapTo(job, s, existing, next).1, outcomes)
    ensures var (s', pc') := SwapTo(job, s, existing, next); Calls(s', job, pc', outcomes).0 == s'
  {
    var (s', pc') := SwapTo(job, s, existing, next);
    if pc'.Pushing? {
      OneOutcome(s', job, DropSymbols, outcomes);
    }
  }

  lemma SwappedOrPutBack(s: Version, job: Job, existing: Digest, next: Member, outcomes: seq<bool>)
    requires job.Push? && s.payload.Some?
    requires RunsOut(s.(payload := Some(job.build)), job, Pushing(SwapRows(existing, next, s.payload)), outcomes)
    ensures outcomes != []
    ensures var stored := s.(payload := Some(job.build));
      var (s', pc') := Calls(stored, job, Pushing(SwapRows(existing, next, s.payload)), outcomes);
      if outcomes[0] && !SwapRefused(job, s, existing) then s' == SwapTo(job, stored.(unrestored := false), existing, next).0
      else (s', pc') == (s, Done(false))
  {
    var stored := s.(payload := Some(job.build));
    OneOutcome(stored, job, SwapRows(existing, next, s.payload), outcomes);
    assert SwapRefused(job, stored, existing) == SwapRefused(job, s, existing);
    if outcomes[0] && !SwapRefused(job, s, existing) {
      AfterSwap(stored.(unrestored := false), job, existing, next, outcomes[1..]);
    } else {
      PutBack(s, job, existing, outcomes[1..]);
    }
  }

  /** Whatever calls of an overwrite fail, with an undo whose calls succeed: its rows are
      swapped, which is when the payload and the sidecars were stored and the swap
      neither failed nor was refused, or the version is exactly as it was. */
  lemma AnOverwriteIsAllOrNothing(s: Version, job: Job, existing: Digest, next: Member, outcomes: seq<bool>)
    requires job.Push? && s.payload.Some? && RunsOut(s, job, Pushing(KeepAside(existing, next)), outcomes)
    ensures var stored := s.(payload := Some(job.build), unrestored := false);
      var (s', pc') := Calls(s, job, Pushing(KeepAside(existing, next)), outcomes);
      if |outcomes| > 3 && outcomes[1] && outcomes[2] && outcomes[3] && !SwapRefused(job, s, existing)
      then s' == SwapTo(job, stored, existing, next).0
      else (s', pc') == (s, Done(false))
  {
    var stored := s.(payload := Some(job.build));
    OneOutcome(s, job, KeepAside(existing, next), outcomes);
    OneOutcome(s, job, StoreOver(existing, next, s.payload), outcomes[1..]);
    if outcomes[1] {
      assert outcomes[1..][1..] == outcomes[2..] && outcomes[2..][1..] == outcomes[3..];
      OneOutcome(stored, job, SidecarsOver(existing, next, s.payload), outcomes[2..]);
      if outcomes[2] {
        SwappedOrPutBack(s, job, existing, next, outcomes[3..]);
      } else {
        PutBack(s, job, existing, outcomes[3..]);
      }
    }
  }
}
