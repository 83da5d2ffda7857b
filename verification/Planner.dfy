/** Which versions of one package a retention policy deletes. */
module Planner {
  import opened Options
  import opened Reserved

  /** `order` is the version's place in the total order of versions. */
  datatype Version = Version(order: int, prerelease: bool)

  datatype Candidate = Candidate(version: Version, pinned: bool, servable: bool, added: int) {
    /** What the rules rank: neither pinned nor withheld. */
    predicate Ranked(pre: bool) { servable && !pinned && version.prerelease == pre }

    predicate Servable(pre: bool) { servable && version.prerelease == pre }
  }

  datatype Policy = Policy(keepStable: Option<nat>, keepPrerelease: Option<nat>, maxAgeDays: Option<nat>, exclude: seq<string>) {
    predicate HasLimits() { keepStable.Some? || keepPrerelease.Some? || maxAgeDays.Some? }

    predicate Excludes(id: string) { exists p :: p in exclude && IdHasPrefix(id, p) }

    function Keep(pre: bool): Option<nat> { if pre then keepPrerelease else keepStable }
  }

  datatype Reason = Reason(beyondNewest: Option<(nat, bool)>, olderThanDays: Option<nat>)

  datatype Pruned = Pruned(version: Version, reason: Reason)

  /** Instants are milliseconds; `earliest` is the first one the clock represents. */
  datatype Clock = Clock(now: int, earliest: int)

  const MS_PER_DAY := 86_400_000
  /** The longest duration, in days, that fits 64-bit milliseconds. */
  const MAX_DURATION_DAYS := 106_751_991_167

  /** The instant before which a version is too old; none when it is out of range. */
  function Cutoff(policy: Policy, clock: Clock): Option<int> {
    match policy.maxAgeDays
    case None => None
    case Some(d) =>
      if d > MAX_DURATION_DAYS || clock.now - d * MS_PER_DAY < clock.earliest then None
      else Some(clock.now - d * MS_PER_DAY)
  }

  function ReasonFor(policy: Policy, clock: Clock, pre: bool, rank: nat, c: Candidate): Reason {
    var keep, cutoff := policy.Keep(pre), Cutoff(policy, clock);
    Reason(if keep.Some? && rank >= keep.value then Some((keep.value, pre)) else None,
           if cutoff.Some? && c.added < cutoff.value then policy.maxAgeDays else None)
  }

  predicate Given(r: Reason) { r.beyondNewest.Some? || r.olderThanDays.Some? }

  // ---- The plan as a list ----

  function Filter(cs: seq<Candidate>, pre: bool): (r: seq<Candidate>)
    ensures forall c :: c in r <==> c in cs && c.Ranked(pre)
  {
    if cs == [] then []
    else (if cs[0].Ranked(pre) then [cs[0]] else []) + Filter(cs[1..], pre)
  }

  predicate NewestFirst(cs: seq<Candidate>) {
    forall i, j :: 0 <= i < j < |cs| ==> cs[i].version.order >= cs[j].version.order
  }

  /** A stable sort, the newest first. */
  function Newest(cs: seq<Candidate>): (r: seq<Candidate>)
    ensures NewestFirst(r) && |r| == |cs| && forall c :: c in r <==> c in cs
  {
    if cs == [] then [] else Insert(cs[0], Newest(cs[1..]))
  }

  function Insert(c: Candidate, cs: seq<Candidate>): (r: seq<Candidate>)
    requires NewestFirst(cs)
    ensures |r| == |cs| + 1 && forall x :: x in r <==> x == c || x in cs
    ensures NewestFirst(r)
  {
    if cs == [] || c.version.order >= cs[0].version.order then [c] + cs
    else
      var rest := Insert(c, cs[1..]);
      assert forall i :: 0 <= i < |rest| ==> rest[i] in rest;
      [cs[0]] + rest
  }

  /** The plan for one channel: its candidates by rank. */
  function Channel(channel: seq<Candidate>, protected: Option<Version>, policy: Policy, clock: Clock, pre: bool): seq<Pruned> {
    if channel == [] then []
    else
      var rank := |channel| - 1;
      var c := channel[rank];
      var reason := ReasonFor(policy, clock, pre, rank, c);
      Channel(channel[..rank], protected, policy, clock, pre) +
      (if protected != Some(c.version) && Given(reason) then [Pruned(c.version, reason)] else [])
  }

  /** The newest version among those a client can get. */
  function NewestServable(cs: seq<Candidate>, pre: bool): (v: Option<Version>)
    ensures v.None? ==> forall c :: c in cs ==> !c.Servable(pre)
    ensures v.Some? ==> exists c :: c in cs && c.Servable(pre) && c.version == v.value
    ensures v.Some? ==> forall c :: c in cs && c.Servable(pre) ==> c.version.order <= v.value.order
  {
    if cs == [] then None
    else
      var c, before := cs[|cs| - 1], NewestServable(cs[..|cs| - 1], pre);
      assert cs == cs[..|cs| - 1] + [c];
      if c.Servable(pre) && (before.None? || before.value.order <= c.version.order) then Some(c.version) else before
  }

  function Protected(cs: seq<Candidate>): Option<Version> {
    var stable := NewestServable(cs, false);
    if stable.Some? then stable else NewestServable(cs, true)
  }

  function Plan(id: string, cs: seq<Candidate>, policy: Policy, clock: Clock): seq<Pruned> {
    if cs == [] || !policy.HasLimits() || policy.Excludes(id) then []
    else
      Channel(Newest(Filter(cs, false)), Protected(cs), policy, clock, false) +
      Channel(Newest(Filter(cs, true)), Protected(cs), policy, clock, true)
  }

  method FindNewest(cs: seq<Candidate>, pre: bool) returns (v: Option<Version>)
    ensures v == NewestServable(cs, pre)
  {
    v := None;
    for i := 0 to |cs|
      invariant v == NewestServable(cs[..i], pre)
    {
      assert cs[..i + 1][..i] == cs[..i];
      if cs[i].Servable(pre) && (v.None? || v.value.order <= cs[i].version.order) {
        v := Some(cs[i].version);
      }
    }
    assert cs[..|cs|] == cs;
  }

  method PlanChannel(ranked: seq<Candidate>, protected: Option<Version>, policy: Policy, clock: Clock, pre: bool)
    returns (plan: seq<Pruned>)
    ensures plan == Channel(ranked, protected, policy, clock, pre)
  {
    plan := [];
    for rank := 0 to |ranked|
      invariant plan == Channel(ranked[..rank], protected, policy, clock, pre)
    {
      assert ranked[..rank + 1][..rank] == ranked[..rank];
      var c := ranked[rank];
      if protected == Some(c.version) { continue; }
      var reason := ReasonFor(policy, clock, pre, rank, c);
      if Given(reason) { plan := plan + [Pruned(c.version, reason)]; }
    }
    assert ranked[..|ranked|] == ranked;
  }

  method PrunePlan(id: string, cs: seq<Candidate>, policy: Policy, clock: Clock) returns (plan: seq<Pruned>)
    ensures plan == Plan(id, cs, policy, clock)
  {
    if cs == [] || !policy.HasLimits() || policy.Excludes(id) { return []; }
    var protected := FindNewest(cs, false);
    if protected.None? { protected := FindNewest(cs, true); }
    var stable := PlanChannel(Newest(Filter(cs, false)), protected, policy, clock, false);
    var pre := PlanChannel(Newest(Filter(cs, true)), protected, policy, clock, true);
    plan := stable + pre;
  }
}
