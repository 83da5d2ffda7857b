/** Admission of writes to a volume: promise first, then check, then take what is
    written off the promise, with every atomic operation a step of its own. */
module Space {

  const U64: nat := 0x1_0000_0000_0000_0000
  const I64_MAX: nat := 0x7FFF_FFFF_FFFF_FFFF

  function Min(a: nat, b: nat): nat { if a < b then a else b }

  function Max(a: nat, b: nat): nat { if a < b then b else a }

  function Saturated(n: nat): nat { Min(n, U64 - 1) }

  /** `Measured` has read the free space, `since` bytes were written since. */
  datatype Phase = Reserved | Measured(available: nat, since: nat) | Admitted | Dropped

  /** `wrote` bytes are on disk and not yet off the share, `releasing` are off the
      share and not yet off the total. */
  datatype Upload = Upload(incoming: nat, phase: Phase, held: nat, wrote: nat, releasing: nat) {
    predicate Idle() { wrote == 0 && releasing == 0 }

    /** What an admitted upload may still write within its share. */
    function Claim(): nat { if phase.Admitted? then held - Min(wrote, held) else 0 }
  }

  /** `slack`, `over` and `blind` are history: the most that was written between the
      measurement and the decision of one admission, what was written beyond declared
      sizes, and whether an admission was decided without seeing all that counts. */
  datatype Volume = Volume(free: nat, reserve: nat, promised: nat, uploads: seq<Upload>, slack: nat, over: nat, blind: bool)

  datatype Action =
    | Reserve(incoming: nat)
    | Measure(i: nat)
    | Unmeasurable(i: nat)
    | Decide(i: nat, resumable: nat)
    | Write(i: nat, n: nat)
    | TakeOff(i: nat)
    | Release(i: nat)
    | Drop(i: nat)
      // Something on the volume was deleted.
    | Freed(n: nat)

  predicate Possible(v: Volume, a: Action) {
    match a
    case Reserve(_) => true
    case Measure(i) => i < |v.uploads| && v.uploads[i].phase.Reserved? && v.reserve > 0
    case Unmeasurable(i) => i < |v.uploads| && v.uploads[i].phase.Reserved?
    case Decide(i, _) => i < |v.uploads| && v.uploads[i].phase.Measured?
    case Write(i, n) => i < |v.uploads| && v.uploads[i].phase.Admitted? && v.uploads[i].Idle() && n <= v.free
    case TakeOff(i) => i < |v.uploads| && v.uploads[i].phase.Admitted? && v.uploads[i].releasing == 0
    case Release(i) => i < |v.uploads| && v.uploads[i].releasing > 0
    case Drop(i) => i < |v.uploads| && !v.uploads[i].phase.Dropped? && v.uploads[i].Idle()
    case Freed(n) => v.free + n <= I64_MAX
  }

  function Needed(v: Volume, incoming: nat, resumable: nat): nat {
    Saturated(Saturated(Max(v.promised, incoming) + resumable) + v.reserve)
  }

  function Dropping(u: Upload): Upload { u.(phase := Dropped, held := 0, releasing := u.held) }

  /** A write makes every measurement not yet used older. */
  function Aged(uploads: seq<Upload>, n: nat): (r: seq<Upload>)
    ensures |r| == |uploads|
  {
    seq(|uploads|, i requires 0 <= i < |uploads| =>
      if uploads[i].phase.Measured? then uploads[i].(phase := Measured(uploads[i].phase.available, uploads[i].phase.since + n))
      else uploads[i])
  }

  function Do(v: Volume, a: Action): Volume
    requires Possible(v, a)
  {
    match a
    case Reserve(incoming) =>
      var bytes := Min(incoming, I64_MAX);
      v.(promised := (v.promised + bytes) % U64, uploads := v.uploads + [Upload(incoming, Reserved, bytes, 0, 0)])
    case Measure(i) => v.(uploads := v.uploads[i := v.uploads[i].(phase := Measured(v.free, 0))])
    case Unmeasurable(i) => v.(uploads := v.uploads[i := v.uploads[i].(phase := Admitted)], blind := true)
    case Decide(i, resumable) =>
      var u := v.uploads[i];
      if u.phase.available < Needed(v, u.incoming, resumable) then v.(uploads := v.uploads[i := Dropping(u)])
      else v.(uploads := v.uploads[i := u.(phase := Admitted)], slack := Max(v.slack, u.phase.since),
              blind := v.blind || Promises(v.uploads) >= U64)
    case Write(i, n) =>
      var u := v.uploads[i];
      v.(free := v.free - n, over := v.over + (n - Min(n, u.held)), uploads := Aged(v.uploads[i := u.(wrote := n)], n))
    case TakeOff(i) =>
      var u := v.uploads[i];
      var take := Min(u.wrote, u.held);
      v.(uploads := v.uploads[i := u.(held := u.held - take, wrote := 0, releasing := take)])
    case Release(i) =>
      var u := v.uploads[i];
      v.(promised := (v.promised - u.releasing) % U64, uploads := v.uploads[i := u.(releasing := 0)])
    case Drop(i) => v.(uploads := v.uploads[i := Dropping(v.uploads[i])])
    case Freed(n) => v.(free := v.free + n)
  }

  predicate Runs(v: Volume, run: seq<Action>)
    decreases |run|
  {
    run == [] || (Possible(v, run[0]) && Runs(Do(v, run[0]), run[1..]))
  }

  function After(v: Volume, run: seq<Action>): Volume
    requires Runs(v, run)
    decreases |run|
  {
    if run == [] then v else After(Do(v, run[0]), run[1..])
  }

  // ---- Sums over the uploads ----

  /** Everything promised: shares held and shares being released. */
  function Promises(uploads: seq<Upload>): nat {
    if uploads == [] then 0 else Promises(uploads[..|uploads| - 1]) + uploads[|uploads| - 1].held + uploads[|uploads| - 1].releasing
  }

  /** What the admitted uploads may still write. */
  function Claims(uploads: seq<Upload>): nat {
    if uploads == [] then 0 else Claims(uploads[..|uploads| - 1]) + uploads[|uploads| - 1].Claim()
  }

  lemma {:induction false} UpdateSums(uploads: seq<Upload>, i: nat, u: Upload)
    requires i < |uploads|
    ensures Promises(uploads[i := u]) == Promises(uploads) - uploads[i].held - uploads[i].releasing + u.held + u.releasing
    ensures Claims(uploads[i := u]) == Claims(uploads) - uploads[i].Claim() + u.Claim()
  {
    var last := |uploads| - 1;
    if i == last {
      assert uploads[i := u][..last] == uploads[..last];
    } else {
      UpdateSums(uploads[..last], i, u);
      assert uploads[i := u][..last] == uploads[..last][i := u];
    }
  }

  lemma {:induction false} AgedSums(uploads: seq<Upload>, n: nat)
    ensures Promises(Aged(uploads, n)) == Promises(uploads) && Claims(Aged(uploads, n)) == Claims(uploads)
  {
    if uploads != [] {
      AgedSums(uploads[..|uploads| - 1], n);
      assert Aged(uploads, n)[..|uploads| - 1] == Aged(uploads[..|uploads| - 1], n);
    }
  }

  lemma {:induction false} ClaimsArePromised(uploads: seq<Upload>, i: nat)
    ensures Claims(uploads) <= Promises(uploads)
    ensures i < |uploads| && !uploads[i].phase.Admitted? ==> Claims(uploads) + uploads[i].held <= Promises(uploads)
  {
    if uploads != [] {
      ClaimsArePromised(uploads[..|uploads| - 1], i);
    }
  }

  // ---- What every step keeps ----

  /** The total is what is held and what is being released, as a 64-bit counter. */
  predicate Counted(v: Volume) { v.promised == Promises(v.uploads) % U64 }

  predicate SomeAdmitted(v: Volume) { exists i :: 0 <= i < |v.uploads| && v.uploads[i].phase.Admitted? }

  /** The free space covers the reserve and every admitted share, up to what was not
      visible to an admission. */
  predicate Covered(v: Volume) {
    SomeAdmitted(v) && !v.blind ==> v.free + v.slack + v.over >= v.reserve + Claims(v.uploads)
  }

  /** A measurement is at most as much too high as was written since. */
  predicate Current(v: Volume) {
    v.free <= I64_MAX &&
    forall i :: 0 <= i < |v.uploads| && v.uploads[i].phase.Measured? ==>
      v.uploads[i].phase.available <= v.free + v.uploads[i].phase.since && v.uploads[i].phase.available <= I64_MAX
  }

  predicate Shaped(u: Upload) {
    (u.wrote > 0 ==> u.phase.Admitted? && u.releasing == 0) &&
    (u.phase.Reserved? || u.phase.Measured? ==> u.Idle()) &&
    (u.phase.Dropped? ==> u.held == 0)
  }

  predicate Inv(v: Volume) {
    v.reserve > 0 && Counted(v) && Covered(v) && Current(v) && forall i :: 0 <= i < |v.uploads| ==> Shaped(v.uploads[i])
  }

  function Start(free: nat, reserve: nat): Volume { Volume(free, reserve, 0, [], 0, 0, false) }

  lemma CountWraps(p: nat, d: int)
    ensures (p % U64 + d) % U64 == (p + d) % U64
  {
  }

  /** A pass means the free space, as measured, covers everything promised. */
  lemma AdmissionCovers(v: Volume, i: nat, resumable: nat)
    requires Inv(v) && Possible(v, Decide(i, resumable))
    requires v.uploads[i].phase.available >= Needed(v, v.uploads[i].incoming, resumable) && Promises(v.uploads) < U64
    ensures v.free + v.uploads[i].phase.since >= v.reserve + Claims(v.uploads) + v.uploads[i].held
  {
    ClaimsArePromised(v.uploads, i);
    assert v.promised == Promises(v.uploads);
    assert v.uploads[i].phase.available >= v.promised + v.reserve;
  }

  /** A step of one upload that claims no more than before. */
  lemma OneStepKeeps(v: Volume, i: nat, u: Upload, promised: nat)
    requires Inv(v) && i < |v.uploads| && Shaped(u)
    requires u.phase.Admitted? ==> v.uploads[i].phase.Admitted? && u.Claim() <= v.uploads[i].Claim()
    requires u.phase.Measured? ==> u.phase == Measured(v.free, 0)
    requires promised == (Promises(v.uploads) - v.uploads[i].held - v.uploads[i].releasing + u.held + u.releasing) % U64
    ensures Inv(v.(promised := promised, uploads := v.uploads[i := u]))
  {
    UpdateSums(v.uploads, i, u);
    var v' := v.(promised := promised, uploads := v.uploads[i := u]);
    assert SomeAdmitted(v') ==> SomeAdmitted(v);
  }

  lemma DecideKeeps(v: Volume, i: nat, resumable: nat)
    requires Inv(v) && Possible(v, Decide(i, resumable))
    ensures Inv(Do(v, Decide(i, resumable)))
  {
    var u := v.uploads[i];
    if u.phase.available < Needed(v, u.incoming, resumable) {
      OneStepKeeps(v, i, Dropping(u), v.promised);
    } else {
      UpdateSums(v.uploads, i, u.(phase := Admitted));
      if !v.blind && Promises(v.uploads) < U64 {
        AdmissionCovers(v, i, resumable);
      }
    }
  }

  lemma WriteKeeps(v: Volume, i: nat, n: nat)
    requires Inv(v) && Possible(v, Write(i, n))
    ensures Inv(Do(v, Write(i, n)))
  {
    var u := v.uploads[i];
    UpdateSums(v.uploads, i, u.(wrote := n));
    AgedSums(v.uploads[i := u.(wrote := n)], n);
  }

  lemma ReserveKeeps(v: Volume, incoming: nat)
    requires Inv(v)
    ensures Inv(Do(v, Reserve(incoming)))
  {
    var u := Upload(incoming, Reserved, Min(incoming, I64_MAX), 0, 0);
    assert (v.uploads + [u])[..|v.uploads|] == v.uploads;
    CountWraps(Promises(v.uploads), u.held);
    var v' := Do(v, Reserve(incoming));
    if i :| 0 <= i < |v'.uploads| && v'.uploads[i].phase.Admitted? {
      assert v.uploads[i].phase.Admitted?;
    }
  }

  lemma UnmeasurableKeeps(v: Volume, i: nat)
    requires Inv(v) && Possible(v, Unmeasurable(i))
    ensures Inv(Do(v, Unmeasurable(i)))
  {
    UpdateSums(v.uploads, i, v.uploads[i].(phase := Admitted));
  }

  lemma DoKeeps(v: Volume, a: Action)
    requires Inv(v) && Possible(v, a)
    ensures Inv(Do(v, a))
  {
    match a
    case Reserve(incoming) => ReserveKeeps(v, incoming);
    case Measure(i) => OneStepKeeps(v, i, v.uploads[i].(phase := Measured(v.free, 0)), v.promised);
    case Unmeasurable(i) => UnmeasurableKeeps(v, i);
    case Decide(i, resumable) => DecideKeeps(v, i, resumable);
    case Write(i, n) => WriteKeeps(v, i, n);
    case TakeOff(i) => OneStepKeeps(v, i, Do(v, a).uploads[i], v.promised);
    case Release(i) =>
      CountWraps(Promises(v.uploads), -(v.uploads[i].releasing as int));
      OneStepKeeps(v, i, v.uploads[i].(releasing := 0), Do(v, a).promised);
    case Drop(i) => OneStepKeeps(v, i, Dropping(v.uploads[i]), v.promised);
    case Freed(n) =>
  }

  lemma {:induction false} RunKeeps(v: Volume, run: seq<Action>)
    requires Inv(v) && Runs(v, run)
    ensures Inv(After(v, run))
    decreases |run|
  {
    if run != [] {
      DoKeeps(v, run[0]);
      RunKeeps(Do(v, run[0]), run[1..]);
    }
  }

  // ---- What that gives ----

  /** Writers that were admitted never take the free space below the reserve, by more
      than what was written between a measurement and the decision it led to, and
      beyond declared sizes, unless an admission was decided blind. */
  lemma TheReserveIsKept(free: nat, reserve: nat, run: seq<Action>, i: nat, n: nat)
    requires reserve > 0 && free <= I64_MAX && Runs(Start(free, reserve), run)
    requires Possible(After(Start(free, reserve), run), Write(i, n))
    ensures var v := Do(After(Start(free, reserve), run), Write(i, n));
      !v.blind ==> v.free + v.slack + v.over >= reserve + Claims(v.uploads)
  {
    RunKeeps(Start(free, reserve), run);
    var v := After(Start(free, reserve), run);
    ReserveStays(Start(free, reserve), run);
    DoKeeps(v, Write(i, n));
    assert Do(v, Write(i, n)).uploads[i].phase.Admitted?;
  }

  lemma {:induction false} ReserveStays(v: Volume, run: seq<Action>)
    requires Runs(v, run)
    ensures After(v, run).reserve == v.reserve
    decreases |run|
  {
    if run != [] {
      ReserveStays(Do(v, run[0]), run[1..]);
    }
  }

  /** Each admission is decided at once after its measurement, every upload writes
      within its size, and every volume could be measured. */
  predicate Strict(v: Volume, run: seq<Action>)
    requires Runs(v, run)
    decreases |run|
  {
    run == [] ||
    (!run[0].Unmeasurable? &&
     (run[0].Decide? ==> v.uploads[run[0].i].phase.since == 0 && Promises(v.uploads) < U64) &&
     (run[0].Write? ==> run[0].n <= v.uploads[run[0].i].held) &&
     Strict(Do(v, run[0]), run[1..]))
  }

  lemma {:induction false} StrictLeavesNoSlack(v: Volume, run: seq<Action>)
    requires Runs(v, run) && Strict(v, run) && v.slack == v.over == 0 && !v.blind
    ensures var v' := After(v, run); v'.slack == v'.over == 0 && !v'.blind
    decreases |run|
  {
    if run != [] {
      StrictLeavesNoSlack(Do(v, run[0]), run[1..]);
    }
  }

  /** Then the reserve is kept to the byte. */
  lemma TheReserveIsKeptExactly(free: nat, reserve: nat, run: seq<Action>, i: nat, n: nat)
    requires reserve > 0 && free <= I64_MAX && Runs(Start(free, reserve), run) && Strict(Start(free, reserve), run)
    requires Possible(After(Start(free, reserve), run), Write(i, n)) && n <= After(Start(free, reserve), run).uploads[i].held
    ensures Do(After(Start(free, reserve), run), Write(i, n)).free >= reserve
  {
    TheReserveIsKept(free, reserve, run, i, n);
    StrictLeavesNoSlack(Start(free, reserve), run);
  }

  lemma {:induction false} NothingHeld(uploads: seq<Upload>)
    requires forall i :: 0 <= i < |uploads| ==> uploads[i].held == uploads[i].releasing == 0
    ensures Promises(uploads) == 0
  {
    if uploads != [] {
      NothingHeld(uploads[..|uploads| - 1]);
    }
  }

  /** The total is the sum of the shares held and the shares being released, whatever
      steps interleave, and nothing once every upload has ended. */
  lemma TheTotalIsTheSum(free: nat, reserve: nat, run: seq<Action>)
    requires reserve > 0 && free <= I64_MAX && Runs(Start(free, reserve), run)
    ensures var v := After(Start(free, reserve), run);
      v.promised == Promises(v.uploads) % U64 &&
      ((forall i :: 0 <= i < |v.uploads| ==> v.uploads[i].phase.Dropped? && v.uploads[i].Idle()) ==> v.promised == 0)
  {
    RunKeeps(Start(free, reserve), run);
    var v := After(Start(free, reserve), run);
    if forall i :: 0 <= i < |v.uploads| ==> v.uploads[i].phase.Dropped? && v.uploads[i].Idle() {
      NothingHeld(v.uploads);
    }
  }

  /** One upload's step takes nothing off the share of another. */
  lemma SharesAreTheirOwn(v: Volume, a: Action, j: nat)
    requires Possible(v, a) && j < |v.uploads| && (a.Reserve? || a.Freed? || j != a.i)
    ensures var v' := Do(v, a);
      j < |v'.uploads| && v'.uploads[j].held == v.uploads[j].held && v'.uploads[j].releasing == v.uploads[j].releasing
  {
  }

  lemma {:induction false} Extend(v: Volume, run: seq<Action>, a: Action)
    requires Runs(v, run) && Possible(After(v, run), a)
    ensures Runs(v, run + [a]) && After(v, run + [a]) == Do(After(v, run), a)
    decreases |run|
  {
    if run == [] {
      assert [a][1..] == [] && Runs(Do(v, a), []);
    } else {
      Extend(Do(v, run[0]), run[1..], a);
      assert (run + [a])[1..] == run[1..] + [a];
    }
  }

  // ---- How far the reserve can be missed ----

  predicate Leads(free: nat, reserve: nat, run: seq<Action>, v: Volume) {
    Runs(Start(free, reserve), run) && After(Start(free, reserve), run) == v
  }

  lemma Play(free: nat, reserve: nat, run: seq<Action>, v: Volume, a: Action) returns (run': seq<Action>, v': Volume)
    requires Leads(free, reserve, run, v) && Possible(v, a)
    ensures Leads(free, reserve, run', v') && v' == Do(v, a)
  {
    Extend(Start(free, reserve), run, a);
    run', v' := run + [a], Do(v, a);
  }

  lemma OneSum(u: Upload)
    ensures Promises([u]) == u.held + u.releasing
  {
    assert [u][..0] == [];
  }

  lemma TwoSums(u: Upload, x: Upload)
    ensures Promises([u, x]) == u.held + u.releasing + x.held + x.releasing
  {
    assert [u, x][..1] == [u];
    OneSum(u);
  }

  lemma FirstMeasured(reserve: nat, size: nat) returns (run: seq<Action>, v: Volume)
    requires 0 < reserve && reserve + size <= I64_MAX
    ensures Leads(reserve + size, reserve, run, v)
    ensures v == Volume(reserve + size, reserve, size, [Upload(size, Measured(reserve + size, 0), size, 0, 0)], 0, 0, false)
  {
    var free := reserve + size;
    run, v := Play(free, reserve, [], Start(free, reserve), Reserve(size));
    assert v == Volume(free, reserve, size, [Upload(size, Reserved, size, 0, 0)], 0, 0, false);
    run, v := Play(free, reserve, run, v, Measure(0));
    assert v.uploads == [Upload(size, Measured(free, 0), size, 0, 0)];
  }

  /** The decision on an upload for which there is just enough space. */
  lemma JustEnough(v: Volume, reserve: nat, size: nat)
    requires reserve + size <= I64_MAX
    requires v == Volume(reserve + size, reserve, size, [Upload(size, Measured(reserve + size, 0), size, 0, 0)], 0, 0, false)
    ensures Possible(v, Decide(0, 0))
    ensures Do(v, Decide(0, 0)) == Volume(reserve + size, reserve, size, [Upload(size, Admitted, size, 0, 0)], 0, 0, false)
  {
    OneSum(v.uploads[0]);
    assert Needed(v, size, 0) == size + reserve;
  }

  /** An upload of `size` bytes that is admitted on a volume with just enough space. */
  lemma FirstAdmitted(reserve: nat, size: nat) returns (run: seq<Action>, v: Volume)
    requires 0 < reserve && reserve + size <= I64_MAX
    ensures Leads(reserve + size, reserve, run, v)
    ensures v == Volume(reserve + size, reserve, size, [Upload(size, Admitted, size, 0, 0)], 0, 0, false)
  {
    run, v := FirstMeasured(reserve, size);
    JustEnough(v, reserve, size);
    run, v := Play(reserve + size, reserve, run, v, Decide(0, 0));
  }

  /** A second upload of that size has measured and not yet decided. */
  lemma SecondMeasured(reserve: nat, size: nat) returns (run: seq<Action>, v: Volume)
    requires 0 < reserve && reserve + size <= I64_MAX
    ensures Leads(reserve + size, reserve, run, v)
    ensures v == Volume(reserve + size, reserve, size + size,
                        [Upload(size, Admitted, size, 0, 0), Upload(size, Measured(reserve + size, 0), size, 0, 0)], 0, 0, false)
  {
    var free := reserve + size;
    run, v := FirstAdmitted(reserve, size);
    run, v := Play(free, reserve, run, v, Reserve(size));
    assert v.uploads == [Upload(size, Admitted, size, 0, 0), Upload(size, Reserved, size, 0, 0)];
    run, v := Play(free, reserve, run, v, Measure(1));
    assert v.uploads == [Upload(size, Admitted, size, 0, 0), Upload(size, Measured(free, 0), size, 0, 0)];
  }

  /** The first writes all of its size, and it goes off its share and the total. */
  lemma FirstWritten(reserve: nat, size: nat) returns (run: seq<Action>, v: Volume)
    requires 0 < reserve && 0 < size && reserve + size <= I64_MAX
    ensures Leads(reserve + size, reserve, run, v)
    ensures v == Volume(reserve, reserve, size,
                        [Upload(size, Admitted, 0, 0, 0), Upload(size, Measured(reserve + size, size), size, 0, 0)], 0, 0, false)
  {
    var free := reserve + size;
    run, v := SecondMeasured(reserve, size);
    run, v := Play(free, reserve, run, v, Write(0, size));
    assert v.uploads == [Upload(size, Admitted, size, size, 0), Upload(size, Measured(free, size), size, 0, 0)];
    run, v := Play(free, reserve, run, v, TakeOff(0));
    assert v.uploads == [Upload(size, Admitted, 0, 0, size), Upload(size, Measured(free, size), size, 0, 0)];
    run, v := Play(free, reserve, run, v, Release(0));
    assert v.uploads == [Upload(size, Admitted, 0, 0, 0), Upload(size, Measured(free, size), size, 0, 0)];
  }

  /** An admitted upload that is about to write, with a slack that is all that was written
      between its measurement and its decision. */
  lemma AdmittedLate(reserve: nat, slack: nat) returns (run: seq<Action>, v: Volume, i: nat)
    requires 0 < reserve && reserve + slack <= I64_MAX
    ensures Leads(reserve + slack, reserve, run, v) && i < |v.uploads|
    ensures v.reserve == reserve && v.free == reserve && v.slack == slack && v.over == 0 && !v.blind
    ensures v.uploads[i].phase.Admitted? && v.uploads[i].Idle() && v.uploads[i].held == slack
  {
    if slack == 0 {
      run, v := FirstAdmitted(reserve, 0);
      i := 0;
    } else {
      run, v := FirstWritten(reserve, slack);
      TwoSums(v.uploads[0], v.uploads[1]);
      run, v := Play(reserve + slack, reserve, run, v, Decide(1, 0));
      i := 1;
    }
  }

  /** The bound is tight: for every slack and every excess over declared sizes there is a
      run whose last write takes the free space below the reserve by exactly both. */
  lemma TheReserveCanBeMissedBy(reserve: nat, slack: nat, over: nat) returns (run: seq<Action>, i: nat, n: nat)
    requires 0 < reserve && reserve + slack <= I64_MAX && slack + over <= reserve
    ensures Runs(Start(reserve + slack, reserve), run) && Possible(After(Start(reserve + slack, reserve), run), Write(i, n))
    ensures var v := Do(After(Start(reserve + slack, reserve), run), Write(i, n));
      v.slack == slack && v.over == over && !v.blind && v.free + slack + over == reserve
  {
    var v;
    run, v, i := AdmittedLate(reserve, slack);
    n := slack + over;
  }

  /** Without a measurement nothing is kept at all: an upload can write into all of the
      reserve, within its size and with nothing between measurement and decision. */
  lemma ABlindAdmissionKeepsNothing(reserve: nat) returns (run: seq<Action>, i: nat, n: nat)
    requires 0 < reserve <= I64_MAX
    ensures Runs(Start(reserve, reserve), run) && Possible(After(Start(reserve, reserve), run), Write(i, n))
    ensures var v := Do(After(Start(reserve, reserve), run), Write(i, n));
      v.slack == v.over == 0 && v.blind && v.free == 0
  {
    var v;
    i, n := 0, reserve;
    run, v := Play(reserve, reserve, [], Start(reserve, reserve), Reserve(reserve));
    assert v == Volume(reserve, reserve, reserve, [Upload(reserve, Reserved, reserve, 0, 0)], 0, 0, false);
    run, v := Play(reserve, reserve, run, v, Unmeasurable(0));
    assert v.uploads == [Upload(reserve, Admitted, reserve, 0, 0)];
  }

  /** What a write of a run that stays within these bounds leaves. */
  ghost predicate WritesKeep(reserve: nat, slack: nat, over: nat, blind: bool) {
    forall free: nat, run, i: nat, n: nat ::
      free <= I64_MAX && Runs(Start(free, reserve), run) && Possible(After(Start(free, reserve), run), Write(i, n)) ==>
      var v := Do(After(Start(free, reserve), run), Write(i, n));
      v.slack <= slack && v.over <= over && (v.blind ==> blind) ==> v.free >= reserve
  }

  lemma SomeWriteMisses(reserve: nat, slack: nat, over: nat, blind: bool)
    requires 0 < reserve < I64_MAX && (slack > 0 || over > 0 || blind)
    ensures !WritesKeep(reserve, slack, over, blind)
  {
    var free, run, i, n;
    if blind {
      free := reserve;
      run, i, n := ABlindAdmissionKeepsNothing(reserve);
    } else if slack > 0 {
      free := reserve + 1;
      run, i, n := TheReserveCanBeMissedBy(reserve, 1, 0);
    } else {
      free := reserve;
      run, i, n := TheReserveCanBeMissedBy(reserve, 0, 1);
    }
    assert Runs(Start(free, reserve), run) && Possible(After(Start(free, reserve), run), Write(i, n));
    assert Do(After(Start(free, reserve), run), Write(i, n)).free < reserve;
  }

  /** No write of an admitted upload takes the free space below the reserve, in any run,
      exactly when nothing is written between a measurement and the decision it leads
      to, nothing beyond declared sizes, and no admission is decided blind. */
  lemma TheReserveIsKeptExactlyThen(reserve: nat, slack: nat, over: nat, blind: bool)
    requires 0 < reserve < I64_MAX
    ensures WritesKeep(reserve, slack, over, blind) <==> slack == 0 && over == 0 && !blind
  {
    if slack == 0 && over == 0 && !blind {
      forall free: nat, run, i: nat, n: nat | free <= I64_MAX && Runs(Start(free, reserve), run) &&
          Possible(After(Start(free, reserve), run), Write(i, n))
        ensures var v := Do(After(Start(free, reserve), run), Write(i, n));
          v.slack <= slack && v.over <= over && (v.blind ==> blind) ==> v.free >= reserve
      {
        TheReserveIsKept(free, reserve, run, i, n);
      }
    } else {
      SomeWriteMisses(reserve, slack, over, blind);
    }
  }
}
