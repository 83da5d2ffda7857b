/** A cleanup that deletes exactly what an administrator was shown: the plan is computed
    again and run only when it has the fingerprint sent back, while flags may change
    between any two deletions. */
module Retention {
  import opened Ascii
  import opened Fingerprint
  import opened Options
  import Planner
  import PlannerTheorems
  import Server
  import opened Store
  import opened StoreInvariants
  import opened Sweeps

  // ---- The plan of a feed ----

  /** A version as its row has it: `rank` is its place among the versions of its id. */
  datatype Entry = Entry(id: string, version: string, rank: Planner.Version, added: int) {
    function Version(): Ver { Ver(Lower(id), version) }

    function Shown(): Planned { Planned(id, version) }
  }

  /** The versions of one id. */
  predicate ValidPackage(es: seq<Entry>) {
    (forall e :: e in es ==> e.Shown().Clean() && Lower(e.id) == Lower(es[0].id)) &&
    forall i, j :: 0 <= i < j < |es| ==> es[i].rank.order != es[j].rank.order && es[i].version != es[j].version
  }

  /** A version with its membership in the feed. */
  datatype FeedVersion = FeedVersion(entry: Entry, member: Member) {
    function Candidate(): Planner.Candidate {
      Planner.Candidate(entry.rank, member.pinned, member.enabled && !member.pending, entry.added)
    }
  }

  predicate IsMember(w: World, f: Feed, v: FeedVersion) {
    var x := w.At(v.entry.Version()); f in x.members && x.members[f] == v.member
  }

  function HeldBy(w: World, f: Feed, es: seq<Entry>): (r: seq<FeedVersion>)
    ensures forall v :: v in r ==> v.entry in es && IsMember(w, f, v)
  {
    if es == [] then []
    else
      var last := es[|es| - 1];
      var x := w.At(last.Version());
      assert es == es[..|es| - 1] + [last];
      HeldBy(w, f, es[..|es| - 1]) + if f in x.members then [FeedVersion(last, x.members[f])] else []
  }

  function Candidates(held: seq<FeedVersion>): seq<Planner.Candidate> {
    seq(|held|, i requires 0 <= i < |held| => held[i].Candidate())
  }

  function Find(held: seq<FeedVersion>, version: Planner.Version): (r: Option<FeedVersion>)
    ensures r.Some? ==> r.value in held && r.value.entry.rank == version
    ensures r.None? ==> forall v :: v in held ==> v.entry.rank != version
  {
    if held == [] then None else if held[0].entry.rank == version then Some(held[0]) else Find(held[1..], version)
  }

  function Found(held: seq<FeedVersion>, plan: seq<Planner.Pruned>): seq<Planned> {
    if plan == [] then []
    else
      var v := Find(held, plan[|plan| - 1].version);
      Found(held, plan[..|plan| - 1]) + if v.Some? then [v.value.entry.Shown()] else []
  }

  function PackagePlan(held: seq<FeedVersion>, policy: Planner.Policy, clock: Planner.Clock): seq<Planned> {
    if held == [] then [] else Found(held, Planner.Plan(held[0].entry.id, Candidates(held), policy, clock))
  }

  function Previewed(w: World, f: Feed, packages: seq<seq<Entry>>, policy: Planner.Policy, clock: Planner.Clock): seq<Planned> {
    if packages == [] then []
    else
      var last := |packages| - 1;
      Previewed(w, f, packages[..last], policy, clock) + PackagePlan(HeldBy(w, f, packages[last]), policy, clock)
  }

  method FindAll(held: seq<FeedVersion>, pruned: seq<Planner.Pruned>) returns (found: seq<Planned>)
    ensures found == Found(held, pruned)
  {
    found := [];
    for j := 0 to |pruned|
      invariant found == Found(held, pruned[..j])
    {
      assert pruned[..j + 1][..j] == pruned[..j];
      var v := Find(held, pruned[j].version);
      if v.Some? {
        found := found + [v.value.entry.Shown()];
      }
    }
    assert pruned[..|pruned|] == pruned;
  }

  method PreviewPackage(held: seq<FeedVersion>, policy: Planner.Policy, clock: Planner.Clock) returns (found: seq<Planned>)
    ensures found == PackagePlan(held, policy, clock)
  {
    if held == [] { return []; }
    var pruned := Planner.PrunePlan(held[0].entry.id, Candidates(held), policy, clock);
    found := FindAll(held, pruned);
  }

  method Preview(w: World, f: Feed, packages: seq<seq<Entry>>, policy: Planner.Policy, clock: Planner.Clock)
    returns (plan: seq<Planned>)
    ensures plan == Previewed(w, f, packages, policy, clock)
  {
    plan := [];
    for i := 0 to |packages|
      invariant plan == Previewed(w, f, packages[..i], policy, clock)
    {
      assert packages[..i + 1][..i] == packages[..i];
      var found := PreviewPackage(HeldBy(w, f, packages[i]), policy, clock);
      plan := plan + found;
    }
    assert packages[..|packages|] == packages;
  }

  predicate Ranked(held: seq<FeedVersion>) {
    forall i, j :: 0 <= i < j < |held| ==> held[i].entry.rank.order != held[j].entry.rank.order
  }

  lemma {:induction false} HeldStaysRanked(w: World, f: Feed, es: seq<Entry>)
    requires forall i, j :: 0 <= i < j < |es| ==> es[i].rank.order != es[j].rank.order
    ensures Ranked(HeldBy(w, f, es))
  {
    if es != [] {
      var init, last := es[..|es| - 1], es[|es| - 1];
      HeldStaysRanked(w, f, init);
      var before := HeldBy(w, f, init);
      forall k | 0 <= k < |before| ensures before[k].entry.rank.order != last.rank.order {
        assert before[k] in before;
        var i :| 0 <= i < |init| && init[i] == before[k].entry;
        assert es[i] == init[i];
      }
    }
  }

  lemma {:induction false} FoundAre(held: seq<FeedVersion>, plan: seq<Planner.Pruned>, p: Planned) returns (q: Planner.Pruned)
    requires p in Found(held, plan)
    ensures q in plan && Find(held, q.version).Some? && p == Find(held, q.version).value.entry.Shown()
  {
    q := plan[|plan| - 1];
    if p in Found(held, plan[..|plan| - 1]) {
      q := FoundAre(held, plan[..|plan| - 1], p);
    }
  }

  predicate SomePrunable(held: seq<FeedVersion>, version: Planner.Version) {
    exists i :: 0 <= i < |held| && held[i].entry.rank == version && held[i].member.Prunable()
  }

  lemma PlannedArePrunable(held: seq<FeedVersion>, id: string, policy: Planner.Policy, clock: Planner.Clock, q: Planner.Pruned)
    requires Ranked(held) && q in Planner.Plan(id, Candidates(held), policy, clock)
    ensures SomePrunable(held, q.version)
  {
    var i := PlannerTheorems.PlannedCandidate(id, Candidates(held), policy, clock, q);
    assert held[i].Candidate() == Candidates(held)[i];
  }

  lemma FoundIsPrunable(held: seq<FeedVersion>, plan: seq<Planner.Pruned>, p: Planned) returns (v: FeedVersion)
    requires Ranked(held) && p in Found(held, plan) && forall q :: q in plan ==> SomePrunable(held, q.version)
    ensures v in held && p == v.entry.Shown() && v.member.Prunable()
  {
    var q := FoundAre(held, plan, p);
    v := Find(held, q.version).value;
    var i :| 0 <= i < |held| && held[i].entry.rank == q.version && held[i].member.Prunable();
    var j :| 0 <= j < |held| && held[j] == v;
    assert held[i].entry.rank.order == held[j].entry.rank.order;
  }

  /** Every version planned for an id is one the rules may delete. */
  lemma PackagePlanIsPrunable(held: seq<FeedVersion>, policy: Planner.Policy, clock: Planner.Clock, p: Planned)
    returns (v: FeedVersion)
    requires Ranked(held) && p in PackagePlan(held, policy, clock)
    ensures v in held && p == v.entry.Shown() && v.member.Prunable()
  {
    var id := held[0].entry.id;
    var plan := Planner.Plan(id, Candidates(held), policy, clock);
    forall q | q in plan ensures SomePrunable(held, q.version) {
      PlannedArePrunable(held, id, policy, clock, q);
    }
    v := FoundIsPrunable(held, plan, p);
  }

  predicate ValidCatalog(packages: seq<seq<Entry>>) { forall es :: es in packages ==> ValidPackage(es) }

  /** What is planned for a feed is in the feed, enabled, approved and not pinned. */
  lemma {:induction false} ThePlanIsPrunable(w: World, f: Feed, packages: seq<seq<Entry>>, policy: Planner.Policy, clock: Planner.Clock)
    requires ValidCatalog(packages)
    ensures forall p :: p in Previewed(w, f, packages, policy, clock) ==> p.Clean() && PrunableIn(w, f, p.Version())
  {
    if packages != [] {
      var init, last := packages[..|packages| - 1], packages[|packages| - 1];
      ThePlanIsPrunable(w, f, init, policy, clock);
      assert ValidPackage(last);
      HeldStaysRanked(w, f, last);
      forall p | p in PackagePlan(HeldBy(w, f, last), policy, clock) ensures p.Clean() && PrunableIn(w, f, p.Version()) {
        var v := PackagePlanIsPrunable(HeldBy(w, f, last), policy, clock, p);
        assert v.entry in last;
      }
    }
  }

  // ---- Flags that change meanwhile ----

  predicate PrunableIn(w: World, f: Feed, v: Ver) { MayGo(w.At(v), f) }

  predicate MayGo(x: Version, f: Feed) { f in x.members && x.members[f].Prunable() }

  datatype Change = Change(ver: Ver, flag: Server.Flag)

  function Flagged(x: Version, f: Feed, flag: Server.Flag): Version {
    if f in x.members then x.(members := x.members[f := flag.Apply(x.members[f])]) else x
  }

  function FlaggedAll(w: World, f: Feed, changes: seq<Change>): World {
    if changes == [] then w
    else
      var before, c := FlaggedAll(w, f, changes[..|changes| - 1]), changes[|changes| - 1];
      if f in before.At(c.ver).members then before.Put(c.ver, Flagged(before.At(c.ver), f, c.flag)) else before
  }

  /** The version after those of the changes that are to it. */
  function Meanwhile(x: Version, f: Feed, v: Ver, changes: seq<Change>): Version {
    if changes == [] then x
    else
      var before, c := Meanwhile(x, f, v, changes[..|changes| - 1]), changes[|changes| - 1];
      if c.ver == v then Flagged(before, f, c.flag) else before
  }

  lemma {:induction false} FlagsPerVersion(w: World, f: Feed, changes: seq<Change>)
    requires AllFilesStored(w)
    ensures AllFilesStored(FlaggedAll(w, f, changes))
    ensures forall v :: FlaggedAll(w, f, changes).At(v) == Meanwhile(w.At(v), f, v, changes)
  {
    if changes != [] {
      var init, c := changes[..|changes| - 1], changes[|changes| - 1];
      FlagsPerVersion(w, f, init);
      var before, after := FlaggedAll(w, f, init), FlaggedAll(w, f, changes);
      forall v ensures FilesStored(after, v) && after.At(v) == Meanwhile(w.At(v), f, v, changes) {
        assert FilesStored(before, v) && before.At(v) == Meanwhile(w.At(v), f, v, init);
        if v == c.ver && f in before.At(v).members {
          assert after.At(v).members.Keys == before.At(v).members.Keys;
        }
      }
    }
  }

  lemma {:induction false} FlagsOnNothing(x: Version, f: Feed, v: Ver, changes: seq<Change>)
    ensures f !in x.members ==> Meanwhile(x, f, v, changes) == x
  {
    if changes != [] {
      FlagsOnNothing(x, f, v, changes[..|changes| - 1]);
    }
  }

  lemma {:induction false} FlagsOneAfterTheOther(x: Version, f: Feed, v: Ver, a: seq<Change>, b: seq<Change>)
    ensures Meanwhile(x, f, v, a + b) == Meanwhile(Meanwhile(x, f, v, a), f, v, b)
    decreases |b|
  {
    if b == [] {
      assert a + b == a;
    } else {
      FlagsOneAfterTheOther(x, f, v, a, b[..|b| - 1]);
      assert (a + b)[..|a + b| - 1] == a + b[..|b| - 1];
    }
  }

  /** What has landed before deletion `n`: `changes(i)` land right before deletion `i`. */
  function Landed(changes: nat -> seq<Change>, n: nat): seq<Change> {
    if n == 0 then [] else Landed(changes, n - 1) + changes(n - 1)
  }

  /** At each of its turns among the first `n` the version may not go. */
  predicate Spared(x: Version, f: Feed, v: Ver, plan: seq<Planned>, changes: nat -> seq<Change>, n: nat)
    requires n <= |plan|
  {
    forall i :: 0 <= i < n && plan[i].Version() == v ==> !MayGo(Meanwhile(x, f, v, Landed(changes, i + 1)), f)
  }

  // ---- Running a plan ----

  datatype Run = Busy | Changed(plan: seq<Planned>) | Ran(deleted: nat, errors: nat)

  /** After the first `n` deletions. */
  ghost predicate Progress(w: World, w': World, f: Feed, plan: seq<Planned>, changes: nat -> seq<Change>, n: nat, clean: bool)
    requires n <= |plan|
  {
    forall v ::
      if Spared(w.At(v), f, v, plan, changes, n) then w'.At(v) == Meanwhile(w.At(v), f, v, Landed(changes, n))
      else clean ==> f !in w'.At(v).members
  }

  /** What has landed since, and deletion `n` has not begun. */
  ghost predicate Turn(w: World, w': World, f: Feed, plan: seq<Planned>, changes: nat -> seq<Change>, n: nat, clean: bool)
    requires n <= |plan|
  {
    forall v ::
      if Spared(w.At(v), f, v, plan, changes, n) then w'.At(v) == Meanwhile(w.At(v), f, v, Landed(changes, n + 1))
      else clean ==> f !in w'.At(v).members
  }

  lemma Landing(w: World, w1: World, f: Feed, plan: seq<Planned>, changes: nat -> seq<Change>, n: nat, clean: bool)
    requires n < |plan| && Progress(w, w1, f, plan, changes, n, clean) && AllFilesStored(w1)
    ensures AllFilesStored(FlaggedAll(w1, f, changes(n)))
    ensures Turn(w, FlaggedAll(w1, f, changes(n)), f, plan, changes, n, clean)
  {
    var w2 := FlaggedAll(w1, f, changes(n));
    FlagsPerVersion(w1, f, changes(n));
    forall v
      ensures if Spared(w.At(v), f, v, plan, changes, n) then w2.At(v) == Meanwhile(w.At(v), f, v, Landed(changes, n + 1))
              else clean ==> f !in w2.At(v).members
    {
      FlagsOneAfterTheOther(w.At(v), f, v, Landed(changes, n), changes(n));
      FlagsOnNothing(w1.At(v), f, v, changes(n));
    }
  }

  lemma Deleting(w: World, w2: World, w3: World, f: Feed, plan: seq<Planned>, changes: nat -> seq<Change>, n: nat, clean: bool, ok: bool)
    requires n < |plan| && Turn(w, w2, f, plan, changes, n, clean)
    requires forall u :: u != plan[n].Version() ==> w3.At(u) == w2.At(u)
    requires var x := w2.At(plan[n].Version()); if MayGo(x, f) then ok ==> f !in w3.At(plan[n].Version()).members else w3 == w2
    ensures Progress(w, w3, f, plan, changes, n + 1, clean && ok)
  {
    forall v
      ensures if Spared(w.At(v), f, v, plan, changes, n + 1) then w3.At(v) == Meanwhile(w.At(v), f, v, Landed(changes, n + 1))
              else clean && ok ==> f !in w3.At(v).members
    {
      assert Spared(w.At(v), f, v, plan, changes, n + 1) <==>
        Spared(w.At(v), f, v, plan, changes, n) &&
        (plan[n].Version() == v ==> !MayGo(Meanwhile(w.At(v), f, v, Landed(changes, n + 1)), f));
    }
  }

  lemma NotPlannedIsSpared(x: Version, f: Feed, v: Ver, plan: seq<Planned>, changes: nat -> seq<Change>)
    requires v !in Versions(plan)
    ensures Spared(x, f, v, plan, changes, |plan|)
  {
    forall i | 0 <= i < |plan| ensures plan[i].Version() != v {
      assert plan[i] in plan;
    }
  }

  class RetentionState {
    var running: bool
    var last: Option<(nat, nat)>

    constructor ()
      ensures !running && last == None
    {
      running, last := false, None;
    }

    /** One deletion, and the changes that land before it. */
    method DeletePlanned(sweeper: Sweeper, f: Feed, plan: seq<Planned>, changes: nat -> seq<Change>, n: nat,
                         ghost w: World, ghost clean: bool)
      returns (ok: bool, removed: bool)
      requires AllFilesStored(sweeper.w) && n < |plan| && Progress(w, sweeper.w, f, plan, changes, n, clean)
      modifies sweeper
      ensures AllFilesStored(sweeper.w) && Progress(w, sweeper.w, f, plan, changes, n + 1, clean && ok)
    {
      Landing(w, sweeper.w, f, plan, changes, n, clean);
      sweeper.w := FlaggedAll(sweeper.w, f, changes(n));
      ghost var turn := sweeper.w;
      ok, removed := sweeper.PurgePlanned(f, plan[n].Version());
      Deleting(w, turn, sweeper.w, f, plan, changes, n, clean, ok);
    }

    /** Every version of the plan, each checked again under its lock, while flags change
        in between: a version that may not go at its turn keeps everything, and
        without errors exactly the others are gone from the feed. */
    method Apply(sweeper: Sweeper, f: Feed, plan: seq<Planned>, changes: nat -> seq<Change>) returns (deleted: nat, errors: nat)
      requires AllFilesStored(sweeper.w)
      modifies sweeper
      ensures AllFilesStored(sweeper.w) && deleted + errors <= |plan|
      ensures forall v :: Spared(old(sweeper.w).At(v), f, v, plan, changes, |plan|) ==>
        sweeper.w.At(v) == Meanwhile(old(sweeper.w).At(v), f, v, Landed(changes, |plan|))
      ensures errors == 0 ==> forall v :: !Spared(old(sweeper.w).At(v), f, v, plan, changes, |plan|) ==>
        f !in sweeper.w.At(v).members
    {
      deleted, errors := 0, 0;
      ghost var w := sweeper.w;
      for n := 0 to |plan|
        invariant AllFilesStored(sweeper.w) && deleted + errors <= n
        invariant Progress(w, sweeper.w, f, plan, changes, n, errors == 0)
      {
        var ok, removed := DeletePlanned(sweeper, f, plan, changes, n, w, errors == 0);
        if !ok {
          errors := errors + 1;
        } else if removed {
          deleted := deleted + 1;
        }
      }
    }

    /** `shown` is the fingerprint that the administrator's page sent back: what the plan
        is now runs only when it is the plan that was shown. A shown version that was
        pinned, withheld or removed since then means that nothing runs. */
    method RunShown(sweeper: Sweeper, f: Feed, packages: seq<seq<Entry>>, policy: Planner.Policy, clock: Planner.Clock,
                    shown: Fingerprint.Digest, changes: nat -> seq<Change>) returns (run: Run)
      requires AllFilesStored(sweeper.w) && ValidCatalog(packages)
      modifies this, sweeper
      ensures running == old(running) && (run.Busy? <==> old(running))
      ensures !run.Ran? ==> sweeper.w == old(sweeper.w) && last == old(last)
      ensures var plan := Previewed(old(sweeper.w), f, packages, policy, clock);
        (!old(running) ==> (run == Changed(plan) <==> FingerprintOf(plan) != shown)) &&
        (run.Ran? ==> forall v :: Spared(old(sweeper.w).At(v), f, v, plan, changes, |plan|) ==>
          sweeper.w.At(v) == Meanwhile(old(sweeper.w).At(v), f, v, Landed(changes, |plan|))) &&
        (run.Ran? && run.errors == 0 ==> forall v :: !Spared(old(sweeper.w).At(v), f, v, plan, changes, |plan|) ==>
          f !in sweeper.w.At(v).members)
      ensures run.Ran? ==> last == Some((run.deleted, run.errors))
      ensures run.Ran? ==> forall seen | Clean(seen) && FingerprintOf(seen) == shown ::
        (forall v :: v in Versions(seen) ==> PrunableIn(old(sweeper.w), f, v)) &&
        (forall v :: v !in Versions(seen) ==>
          sweeper.w.At(v) == Meanwhile(old(sweeper.w).At(v), f, v, Landed(changes, |seen|)))
    {
      if running {
        return Busy;
      }
      var plan := Preview(sweeper.w, f, packages, policy, clock);
      if FingerprintOf(plan) != shown {
        return Changed(plan);
      }
      ThePlanIsPrunable(sweeper.w, f, packages, policy, clock);
      running := true;
      var deleted, errors := Apply(sweeper, f, plan, changes);
      last := Some((deleted, errors));
      running := false;
      run := Ran(deleted, errors);
      forall seen | Clean(seen) && FingerprintOf(seen) == shown ensures Versions(seen) == Versions(plan) && |seen| == |plan| {
        SameFingerprintSameVersions(seen, plan);
      }
      forall v | v !in Versions(plan) ensures Spared(old(sweeper.w).At(v), f, v, plan, changes, |plan|) {
        NotPlannedIsSpared(old(sweeper.w).At(v), f, v, plan, changes);
      }
    }
  }
}
