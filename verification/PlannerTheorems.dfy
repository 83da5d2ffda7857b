/** What the plan is as a set, and how it answers to its inputs. The candidates of a
    feed are distinct versions: version is part of the primary key. */
module PlannerTheorems {
  import opened Options
  import opened Planner

  predicate DistinctSeq(cs: seq<Candidate>) {
    forall i, j :: 0 <= i < j < |cs| ==> cs[i].version.order != cs[j].version.order
  }

  predicate Distinct(s: set<Candidate>) {
    forall c, d :: c in s && d in s && c != d ==> c.version.order != d.version.order
  }

  function Elements(cs: seq<Candidate>): set<Candidate> { set c | c in cs }

  // ---- The plan by counting ----

  /** The ranked candidates of the same channel that are newer. */
  function Newer(s: set<Candidate>, c: Candidate): set<Candidate> {
    set d | d in s && d.Ranked(c.version.prerelease) && d.version.order > c.version.order
  }

  /** The version that must survive: the newest stable one a client can get, or the
      newest pre-release when there is no stable one. */
  predicate MustSurvive(s: set<Candidate>, v: Version) {
    (exists c :: c in s && c.servable && c.version == v) &&
    (forall c :: c in s && c.Servable(v.prerelease) ==> c.version.order <= v.order) &&
    (v.prerelease ==> forall c :: c in s ==> !c.Servable(false))
  }

  function CountedReason(s: set<Candidate>, policy: Policy, clock: Clock, c: Candidate): Reason {
    ReasonFor(policy, clock, c.version.prerelease, |Newer(s, c)|, c)
  }

  predicate Doomed(s: set<Candidate>, policy: Policy, clock: Clock, c: Candidate) {
    c in s && c.servable && !c.pinned && !MustSurvive(s, c.version) && Given(CountedReason(s, policy, clock, c))
  }

  function DoomedSet(s: set<Candidate>, policy: Policy, clock: Clock): set<Candidate> {
    set c | c in s && Doomed(s, policy, clock, c)
  }

  lemma FilterDistinct(cs: seq<Candidate>, pre: bool)
    requires DistinctSeq(cs)
    ensures DistinctSeq(Filter(cs, pre))
  {
    if cs != [] {
      FilterDistinct(cs[1..], pre);
      assert forall c :: c in cs[1..] ==> c.version.order != cs[0].version.order;
    }
  }

  lemma InsertDistinct(c: Candidate, cs: seq<Candidate>)
    requires NewestFirst(cs) && DistinctSeq(cs) && forall x :: x in cs ==> x.version.order != c.version.order
    ensures DistinctSeq(Insert(c, cs))
  {
    if cs != [] && c.version.order < cs[0].version.order {
      InsertDistinct(c, cs[1..]);
      var rest := Insert(c, cs[1..]);
      forall i | 0 <= i < |rest| ensures rest[i].version.order != cs[0].version.order {
        assert rest[i] in rest;
      }
    }
  }

  lemma NewestDistinct(cs: seq<Candidate>)
    requires DistinctSeq(cs)
    ensures DistinctSeq(Newest(cs))
  {
    if cs != [] {
      NewestDistinct(cs[1..]);
      forall x | x in Newest(cs[1..]) ensures x.version.order != cs[0].version.order {
        assert x in cs[1..];
      }
      InsertDistinct(cs[0], Newest(cs[1..]));
    }
  }

  lemma CountDistinct(cs: seq<Candidate>)
    requires DistinctSeq(cs)
    ensures |Elements(cs)| == |cs|
  {
    if cs != [] {
      var last := |cs| - 1;
      CountDistinct(cs[..last]);
      assert cs == cs[..last] + [cs[last]];
      assert Elements(cs) == Elements(cs[..last]) + {cs[last]};
      assert cs[last] !in cs[..last];
    }
  }

  lemma NewerAreBefore(r: seq<Candidate>, s: set<Candidate>, k: nat)
    requires NewestFirst(r) && DistinctSeq(r) && k < |r|
    requires forall c :: c in r <==> c in s && c.Ranked(r[k].version.prerelease)
    ensures Newer(s, r[k]) == Elements(r[..k])
  {
    forall d | d in Newer(s, r[k]) ensures d in r[..k] {
      assert d in r;
      var i :| 0 <= i < |r| && r[i] == d;
      assert i < k;
      assert r[..k][i] == d;
    }
    forall d | d in r[..k] ensures d in Newer(s, r[k]) {
      var i :| 0 <= i < k && r[i] == d;
      assert r[i] in r;
    }
  }

  /** A candidate's rank is the number of newer ones. */
  lemma RankCounts(cs: seq<Candidate>, pre: bool, k: nat)
    requires DistinctSeq(cs) && k < |Newest(Filter(cs, pre))|
    ensures var r := Newest(Filter(cs, pre)); |Newer(Elements(cs), r[k])| == k && r[k] in cs && r[k].Ranked(pre)
  {
    FilterDistinct(cs, pre);
    NewestDistinct(Filter(cs, pre));
    var r := Newest(Filter(cs, pre));
    assert r[k] in r;
    NewerAreBefore(r, Elements(cs), k);
    CountDistinct(r[..k]);
  }

  lemma ChannelMembers(r: seq<Candidate>, protected: Option<Version>, policy: Policy, clock: Clock, pre: bool, p: Pruned)
    ensures p in Channel(r, protected, policy, clock, pre) <==>
      exists k :: 0 <= k < |r| && protected != Some(r[k].version) &&
        Given(ReasonFor(policy, clock, pre, k, r[k])) && p == Pruned(r[k].version, ReasonFor(policy, clock, pre, k, r[k]))
  {
    if r != [] {
      var last := |r| - 1;
      ChannelMembers(r[..last], protected, policy, clock, pre, p);
      assert forall k :: 0 <= k < last ==> r[..last][k] == r[k];
    }
  }

  lemma ProtectedSurvives(cs: seq<Candidate>, c: Candidate)
    requires DistinctSeq(cs) && c in cs && c.servable
    ensures Protected(cs) == Some(c.version) <==> MustSurvive(Elements(cs), c.version)
  {
    var s := Elements(cs);
    if Protected(cs).Some? {
      var v := Protected(cs).value;
      if MustSurvive(s, c.version) {
        assert c.Servable(c.version.prerelease);
        assert v.prerelease == c.version.prerelease;
        assert v.order == c.version.order;
      }
    }
  }

  function PrunedFor(s: set<Candidate>, policy: Policy, clock: Clock, c: Candidate): Pruned {
    Pruned(c.version, CountedReason(s, policy, clock, c))
  }

  lemma DoomedIsPlanned(id: string, cs: seq<Candidate>, policy: Policy, clock: Clock, c: Candidate)
    requires DistinctSeq(cs) && !policy.Excludes(id) && Doomed(Elements(cs), policy, clock, c)
    ensures PrunedFor(Elements(cs), policy, clock, c) in Plan(id, cs, policy, clock)
  {
    var s, pre := Elements(cs), c.version.prerelease;
    var r := Newest(Filter(cs, pre));
    assert c in r;
    var k :| 0 <= k < |r| && r[k] == c;
    RankCounts(cs, pre, k);
    ProtectedSurvives(cs, c);
    ChannelMembers(r, Protected(cs), policy, clock, pre, PrunedFor(s, policy, clock, c));
  }

  lemma PlannedIsDoomed(cs: seq<Candidate>, policy: Policy, clock: Clock, pre: bool, p: Pruned) returns (c: Candidate)
    requires DistinctSeq(cs) && p in Channel(Newest(Filter(cs, pre)), Protected(cs), policy, clock, pre)
    ensures Doomed(Elements(cs), policy, clock, c) && p == PrunedFor(Elements(cs), policy, clock, c)
  {
    var r := Newest(Filter(cs, pre));
    ChannelMembers(r, Protected(cs), policy, clock, pre, p);
    var k :| 0 <= k < |r| && Protected(cs) != Some(r[k].version) &&
      Given(ReasonFor(policy, clock, pre, k, r[k])) && p == Pruned(r[k].version, ReasonFor(policy, clock, pre, k, r[k]));
    c := r[k];
    RankCounts(cs, pre, k);
    ProtectedSurvives(cs, c);
  }

  /** The plan holds exactly the versions that are doomed by counting, each with the
      reason that counting gives. */
  lemma PlanCounts(id: string, cs: seq<Candidate>, policy: Policy, clock: Clock, p: Pruned)
    requires DistinctSeq(cs)
    ensures p in Plan(id, cs, policy, clock) <==>
      (!policy.Excludes(id) && exists c :: Doomed(Elements(cs), policy, clock, c) && p == PrunedFor(Elements(cs), policy, clock, c))
  {
    if p in Plan(id, cs, policy, clock) {
      var pre := p in Channel(Newest(Filter(cs, true)), Protected(cs), policy, clock, true);
      var c := PlannedIsDoomed(cs, policy, clock, pre, p);
    }
    if !policy.Excludes(id) {
      forall c | Doomed(Elements(cs), policy, clock, c)
        ensures PrunedFor(Elements(cs), policy, clock, c) in Plan(id, cs, policy, clock)
      {
        DoomedIsPlanned(id, cs, policy, clock, c);
      }
    }
  }

  /** The candidate that a planned version is. */
  lemma PlannedCandidate(id: string, cs: seq<Candidate>, policy: Policy, clock: Clock, p: Pruned) returns (i: nat)
    requires DistinctSeq(cs) && p in Plan(id, cs, policy, clock)
    ensures i < |cs| && cs[i].version == p.version && cs[i].servable && !cs[i].pinned
  {
    PlanCounts(id, cs, policy, clock, p);
    var c :| Doomed(Elements(cs), policy, clock, c) && p == PrunedFor(Elements(cs), policy, clock, c);
    i :| 0 <= i < |cs| && cs[i] == c;
  }

  /** The order of the input does not matter. */
  lemma PlanIgnoresOrder(id: string, cs: seq<Candidate>, ds: seq<Candidate>, policy: Policy, clock: Clock)
    requires DistinctSeq(cs) && DistinctSeq(ds) && Elements(cs) == Elements(ds)
    ensures (set p | p in Plan(id, cs, policy, clock)) == set p | p in Plan(id, ds, policy, clock)
  {
    forall p ensures p in Plan(id, cs, policy, clock) <==> p in Plan(id, ds, policy, clock) {
      PlanCounts(id, cs, policy, clock, p);
      PlanCounts(id, ds, policy, clock, p);
    }
  }

  // ---- Planning again ----

  lemma Subset<T>(a: set<T>, b: set<T>)
    requires a <= b
    ensures |a| <= |b|
  {
    assert |b - a| == |b| - |a|;
  }

  /** Once what is planned has gone, the same policy at the same time plans nothing. */
  lemma PlanningAgainPlansNothing(s: set<Candidate>, policy: Policy, clock: Clock)
    requires Distinct(s)
    ensures DoomedSet(s - DoomedSet(s, policy, clock), policy, clock) == {}
  {
    var left := s - DoomedSet(s, policy, clock);
    forall c | c in left ensures !Doomed(left, policy, clock, c) {
      if c.servable && !c.pinned {
        if MustSurvive(s, c.version) {
          assert c in left && c.servable;
          assert MustSurvive(left, c.version);
        } else {
          Subset(Newer(left, c), Newer(s, c));
        }
      }
    }
  }

  /** What is left of a list after its plan. */
  lemma LeftOver(id: string, cs: seq<Candidate>, policy: Policy, clock: Clock, c: Candidate)
    requires DistinctSeq(cs) && !policy.Excludes(id) && c in cs
    ensures Doomed(Elements(cs), policy, clock, c) <==> exists p :: p in Plan(id, cs, policy, clock) && p.version == c.version
  {
    var s := Elements(cs);
    if Doomed(s, policy, clock, c) {
      DoomedIsPlanned(id, cs, policy, clock, c);
    }
    if p :| p in Plan(id, cs, policy, clock) && p.version == c.version {
      PlanCounts(id, cs, policy, clock, p);
      var d :| Doomed(s, policy, clock, d) && p == PrunedFor(s, policy, clock, d);
      SameVersion(cs);
    }
  }

  /** Planning the candidates that were not planned, in any order, plans nothing. */
  lemma PrunePlanIsIdempotent(id: string, cs: seq<Candidate>, rest: seq<Candidate>, policy: Policy, clock: Clock)
    requires DistinctSeq(cs) && DistinctSeq(rest)
    requires forall c :: c in rest <==> c in cs && !exists p :: p in Plan(id, cs, policy, clock) && p.version == c.version
    ensures forall p :: p !in Plan(id, rest, policy, clock)
  {
    var s, left := Elements(cs), Elements(rest);
    if !policy.Excludes(id) {
      forall c ensures c in left <==> c in s - DoomedSet(s, policy, clock) {
        if c in cs { LeftOver(id, cs, policy, clock, c); }
      }
      assert left == s - DoomedSet(s, policy, clock);
      SameVersion(cs);
      PlanningAgainPlansNothing(s, policy, clock);
      assert forall c :: Doomed(left, policy, clock, c) ==> c in DoomedSet(left, policy, clock);
    }
    forall p ensures p !in Plan(id, rest, policy, clock) {
      PlanCounts(id, rest, policy, clock, p);
    }
  }

  lemma SameVersion(cs: seq<Candidate>)
    requires DistinctSeq(cs)
    ensures Distinct(Elements(cs))
    ensures forall c, d :: c in cs && d in cs && c.version == d.version ==> c == d
  {
    forall c, d | c in cs && d in cs && c != d ensures c.version.order != d.version.order {
      var i :| 0 <= i < |cs| && cs[i] == c;
      var j :| 0 <= j < |cs| && cs[j] == d;
      if i < j { } else { assert j < i; }
    }
  }

  // ---- What survives ----

  /** Whether a version is shown for a package rather than another. */
  predicate HeadlineBeats(candidate: Version, current: Version) {
    if candidate.prerelease == current.prerelease then candidate.order > current.order else current.prerelease
  }

  /** The version a package is shown with, of those a client can get. */
  function Headline(vs: seq<Version>): (v: Version)
    requires vs != []
    ensures v in vs && forall x :: x in vs ==> v == x || !HeadlineBeats(x, v)
  {
    var last := vs[|vs| - 1];
    if |vs| == 1 then last
    else
      var head := Headline(vs[..|vs| - 1]);
      assert vs == vs[..|vs| - 1] + [last];
      if HeadlineBeats(last, head) then last else head
  }

  /** The headline of the versions a client can get is never planned, whatever the
      policy and whether or not it is pinned. */
  lemma TheHeadlineSurvives(id: string, cs: seq<Candidate>, vs: seq<Version>, policy: Policy, clock: Clock)
    requires DistinctSeq(cs) && vs != []
    requires forall v :: v in vs <==> exists c :: c in cs && c.servable && c.version == v
    ensures forall p :: p in Plan(id, cs, policy, clock) ==> p.version != Headline(vs)
  {
    var h := Headline(vs);
    assert MustSurvive(Elements(cs), h) by {
      forall c | c in cs && c.servable ensures !HeadlineBeats(c.version, h) || c.version == h {
        assert c.version in vs;
      }
    }
    forall p | p in Plan(id, cs, policy, clock) ensures p.version != h {
      PlanCounts(id, cs, policy, clock, p);
    }
  }

  function RankedSet(s: set<Candidate>, pre: bool): set<Candidate> {
    set c | c in s && c.Ranked(pre)
  }

  function Above(r: set<Candidate>, c: Candidate): set<Candidate> {
    set d | d in r && d.version.order > c.version.order
  }

  function FewAbove(r: set<Candidate>, n: nat): set<Candidate> { set c | c in r && |Above(r, c)| < n }

  lemma OldestIsBelowAll(r: set<Candidate>, o: Candidate, n: nat)
    requires Distinct(r) && o in r && forall d :: d in r ==> d.version.order >= o.version.order
    ensures FewAbove(r, n) == FewAbove(r - {o}, n) + if |r| - 1 < n then {o} else {}
  {
    var rest := r - {o};
    assert Above(r, o) == rest;
    forall c | c in rest ensures Above(r, c) == Above(rest, c) {}
  }

  /** Of a channel, exactly `n` candidates have fewer than `n` newer ones, or all of
      them when there are fewer. */
  lemma {:induction false} TopCount(r: set<Candidate>, n: nat)
    requires Distinct(r)
    ensures |FewAbove(r, n)| == Min(n, |r|)
    decreases |r|
  {
    if r == {} {
      assert FewAbove(r, n) == {};
    } else {
      var o := Oldest(r);
      TopCount(r - {o}, n);
      OldestIsBelowAll(r, o, n);
    }
  }

  lemma Oldest(r: set<Candidate>) returns (c: Candidate)
    requires r != {}
    ensures c in r && forall d :: d in r ==> d.version.order >= c.version.order
  {
    c :| c in r;
    var left := r - {c};
    while left != {}
      invariant c in r && left <= r && forall d :: d in r - left ==> d.version.order >= c.version.order
    {
      var d :| d in left;
      left := left - {d};
      if d.version.order < c.version.order { c := d; }
    }
  }

  function Min(a: nat, b: nat): nat { if a < b then a else b }

  /** Whether an unpinned version of the channel is the one that must survive. */
  predicate HoldsSurvivor(s: set<Candidate>, pre: bool) {
    exists c :: c in RankedSet(s, pre) && MustSurvive(s, c.version)
  }

  function Limit(s: set<Candidate>, n: nat, pre: bool): nat {
    if n == 0 && HoldsSurvivor(s, pre) then 1 else n
  }

  function Top(s: set<Candidate>, pre: bool, n: nat): set<Candidate> { FewAbove(RankedSet(s, pre), n) }

  lemma SurvivorIsFirst(s: set<Candidate>, c: Candidate)
    requires c in s && c.servable && MustSurvive(s, c.version)
    ensures Newer(s, c) == {}
  {
  }

  lemma KeptIsTop(s: set<Candidate>, policy: Policy, clock: Clock, pre: bool)
    requires policy.Keep(pre).Some?
    ensures RankedSet(s, pre) - DoomedSet(s, policy, clock) <= Top(s, pre, Limit(s, policy.Keep(pre).value, pre))
  {
    var r := RankedSet(s, pre);
    forall c | c in r - DoomedSet(s, policy, clock) ensures |Above(r, c)| < Limit(s, policy.Keep(pre).value, pre) {
      assert Newer(s, c) == Above(r, c);
      if MustSurvive(s, c.version) { SurvivorIsFirst(s, c); }
    }
  }

  lemma TopIsKept(s: set<Candidate>, policy: Policy, clock: Clock, pre: bool)
    requires Distinct(s) && policy.Keep(pre).Some? && policy.maxAgeDays.None?
    ensures Top(s, pre, Limit(s, policy.Keep(pre).value, pre)) <= RankedSet(s, pre) - DoomedSet(s, policy, clock)
  {
    var r := RankedSet(s, pre);
    forall c | c in Top(s, pre, Limit(s, policy.Keep(pre).value, pre)) ensures !Doomed(s, policy, clock, c) {
      assert Newer(s, c) == Above(r, c);
      if policy.Keep(pre).value == 0 {
        var p :| p in r && MustSurvive(s, p.version);
        assert p != c ==> p in Above(r, c);
      }
    }
  }

  /** A limited channel keeps at most its N newest unpinned versions, or one when N is
      zero and it holds the version that must survive; without an age limit it keeps
      exactly as many as that, or all when it has fewer. */
  lemma CountingKeepsN(s: set<Candidate>, policy: Policy, clock: Clock, pre: bool)
    requires Distinct(s) && policy.Keep(pre).Some?
    ensures var r, n := RankedSet(s, pre), Limit(s, policy.Keep(pre).value, pre);
      |r - DoomedSet(s, policy, clock)| <= n &&
      (policy.maxAgeDays.None? ==> |r - DoomedSet(s, policy, clock)| == Min(n, |r|))
  {
    var r, n := RankedSet(s, pre), Limit(s, policy.Keep(pre).value, pre);
    TopCount(r, n);
    KeptIsTop(s, policy, clock, pre);
    Subset(r - DoomedSet(s, policy, clock), Top(s, pre, n));
    if policy.maxAgeDays.None? {
      TopIsKept(s, policy, clock, pre);
      assert r - DoomedSet(s, policy, clock) == Top(s, pre, n);
    }
  }

  // ---- Monotony ----

  /** Each limit of `q` is at least that of `p`, or absent. */
  predicate Looser(p: Policy, q: Policy) {
    (q.keepStable.Some? ==> p.keepStable.Some? && p.keepStable.value <= q.keepStable.value) &&
    (q.keepPrerelease.Some? ==> p.keepPrerelease.Some? && p.keepPrerelease.value <= q.keepPrerelease.value) &&
    (q.maxAgeDays.Some? ==> p.maxAgeDays.Some? && p.maxAgeDays.value <= q.maxAgeDays.value)
  }

  /** Raising a keep count or the age limit, or dropping a limit, plans nothing new. */
  lemma RaisingLimitsDoomsNothingNew(s: set<Candidate>, p: Policy, q: Policy, clock: Clock)
    requires Looser(p, q)
    ensures DoomedSet(s, q, clock) <= DoomedSet(s, p, clock)
  {
    if Cutoff(q, clock).Some? {
      assert p.maxAgeDays.value * MS_PER_DAY <= q.maxAgeDays.value * MS_PER_DAY;
    }
  }

  /** Pinning a version plans nothing new. */
  lemma PinningDoomsNothingNew(s: set<Candidate>, x: Candidate, policy: Policy, clock: Clock)
    requires Distinct(s) && x in s
    ensures var s' := s - {x} + {x.(pinned := true)};
      DoomedSet(s', policy, clock) <= DoomedSet(s, policy, clock) - {x}
  {
    var s' := s - {x} + {x.(pinned := true)};
    forall c | Doomed(s', policy, clock, c) ensures c in DoomedSet(s, policy, clock) - {x} {
      assert Newer(s', c) <= Newer(s, c);
      Subset(Newer(s', c), Newer(s, c));
      if MustSurvive(s, c.version) { SameProtection(s, x, c.version); }
    }
  }

  lemma SameProtection(s: set<Candidate>, x: Candidate, v: Version)
    requires Distinct(s) && x in s && MustSurvive(s, v)
    ensures MustSurvive(s - {x} + {x.(pinned := true)}, v)
  {
    var c :| c in s && c.servable && c.version == v;
    assert (if c == x then x.(pinned := true) else c) in s - {x} + {x.(pinned := true)};
  }

  /** Withholding a version, pending or disabled, plans nothing new. */
  lemma WithholdingDoomsNothingNew(s: set<Candidate>, x: Candidate, policy: Policy, clock: Clock)
    requires Distinct(s) && x in s
    ensures var s' := s - {x} + {x.(servable := false)};
      DoomedSet(s', policy, clock) <= DoomedSet(s, policy, clock) - {x}
  {
    var s' := s - {x} + {x.(servable := false)};
    forall c | Doomed(s', policy, clock, c) ensures c in DoomedSet(s, policy, clock) - {x} {
      assert c != x && c in s;
      FewerNewer(s, x, c);
      if MustSurvive(s, c.version) { StaysProtected(s, x, c); }
    }
  }

  lemma FewerNewer(s: set<Candidate>, x: Candidate, c: Candidate)
    ensures |Newer(s - {x} + {x.(servable := false)}, c)| <= |Newer(s, c)|
  {
    assert Newer(s - {x} + {x.(servable := false)}, c) <= Newer(s, c);
    Subset(Newer(s - {x} + {x.(servable := false)}, c), Newer(s, c));
  }

  lemma StaysProtected(s: set<Candidate>, x: Candidate, c: Candidate)
    requires c in s && c != x && c.servable && MustSurvive(s, c.version)
    ensures MustSurvive(s - {x} + {x.(servable := false)}, c.version)
  {
  }

  // ---- The same of the plan itself ----

  function PlannedVersions(id: string, cs: seq<Candidate>, policy: Policy, clock: Clock): set<Version> {
    set p | p in Plan(id, cs, policy, clock) :: p.version
  }

  function DoomedVersions(s: set<Candidate>, policy: Policy, clock: Clock): set<Version> {
    set c | c in DoomedSet(s, policy, clock) :: c.version
  }

  lemma PlannedAreDoomed(id: string, cs: seq<Candidate>, policy: Policy, clock: Clock)
    requires DistinctSeq(cs)
    ensures PlannedVersions(id, cs, policy, clock) == if policy.Excludes(id) then {} else DoomedVersions(Elements(cs), policy, clock)
  {
    var s := Elements(cs);
    forall v ensures v in PlannedVersions(id, cs, policy, clock) <==> !policy.Excludes(id) && v in DoomedVersions(s, policy, clock) {
      if p :| p in Plan(id, cs, policy, clock) && p.version == v {
        PlanCounts(id, cs, policy, clock, p);
      }
      if !policy.Excludes(id) && v in DoomedVersions(s, policy, clock) {
        var c :| c in DoomedSet(s, policy, clock) && c.version == v;
        DoomedIsPlanned(id, cs, policy, clock, c);
      }
    }
  }

  /** The channel's candidates that the plan leaves. */
  function Kept(id: string, cs: seq<Candidate>, policy: Policy, clock: Clock, pre: bool): set<Candidate> {
    set c | c in cs && c.Ranked(pre) && c.version !in PlannedVersions(id, cs, policy, clock)
  }

  /** A limited channel keeps at most its N newest unpinned versions, or one when N is
      zero and it holds the version that must survive; without an age limit it keeps
      exactly as many as that, or all when it has fewer. */
  lemma ALimitedChannelKeepsN(id: string, cs: seq<Candidate>, policy: Policy, clock: Clock, pre: bool)
    requires DistinctSeq(cs) && !policy.Excludes(id) && policy.Keep(pre).Some?
    ensures var s, kept := Elements(cs), Kept(id, cs, policy, clock, pre);
      var n := Limit(s, policy.Keep(pre).value, pre);
      |kept| <= n && (policy.maxAgeDays.None? ==> |kept| == Min(n, |RankedSet(s, pre)|))
  {
    var s := Elements(cs);
    SameVersion(cs);
    PlannedAreDoomed(id, cs, policy, clock);
    CountingKeepsN(s, policy, clock, pre);
    forall c | c in cs ensures c.version in DoomedVersions(s, policy, clock) <==> c in DoomedSet(s, policy, clock) {}
    assert Kept(id, cs, policy, clock, pre) == RankedSet(s, pre) - DoomedSet(s, policy, clock);
  }

  lemma FewerDoomed(s: set<Candidate>, p: Policy, t: set<Candidate>, q: Policy, clock: Clock)
    requires DoomedSet(t, q, clock) <= DoomedSet(s, p, clock)
    ensures DoomedVersions(t, q, clock) <= DoomedVersions(s, p, clock)
  {
  }

  /** Raising a keep count or the age limit, dropping a limit, or exempting more ids
      plans nothing new. */
  lemma RaisingLimitsPlansNothingNew(id: string, cs: seq<Candidate>, p: Policy, q: Policy, clock: Clock)
    requires DistinctSeq(cs) && Looser(p, q) && forall x :: x in p.exclude ==> x in q.exclude
    ensures PlannedVersions(id, cs, q, clock) <= PlannedVersions(id, cs, p, clock)
  {
    PlannedAreDoomed(id, cs, p, clock);
    PlannedAreDoomed(id, cs, q, clock);
    RaisingLimitsDoomsNothingNew(Elements(cs), p, q, clock);
    FewerDoomed(Elements(cs), p, Elements(cs), q, clock);
  }

  lemma ReplacedInList(cs: seq<Candidate>, i: nat, x: Candidate)
    requires DistinctSeq(cs) && i < |cs| && x.version == cs[i].version
    ensures DistinctSeq(cs[i := x]) && Elements(cs[i := x]) == Elements(cs) - {cs[i]} + {x}
  {
    forall c ensures c in Elements(cs[i := x]) <==> c in Elements(cs) - {cs[i]} + {x} {
      if c in cs && c != cs[i] {
        var j :| 0 <= j < |cs| && cs[j] == c;
        assert cs[i := x][j] == c;
      }
      assert cs[i := x][i] == x;
    }
  }

  lemma NotItself(s: set<Candidate>, t: set<Candidate>, x: Candidate, policy: Policy, clock: Clock)
    requires Distinct(s) && x in s && DoomedSet(t, policy, clock) <= DoomedSet(s, policy, clock) - {x}
    ensures DoomedVersions(t, policy, clock) <= DoomedVersions(s, policy, clock) - {x.version}
  {
  }

  /** Pinning a version takes at least that version off the plan, and adds none. */
  lemma PinningPlansNothingNew(id: string, cs: seq<Candidate>, i: nat, policy: Policy, clock: Clock)
    requires DistinctSeq(cs) && i < |cs|
    ensures DistinctSeq(cs[i := cs[i].(pinned := true)])
    ensures PlannedVersions(id, cs[i := cs[i].(pinned := true)], policy, clock) <=
            PlannedVersions(id, cs, policy, clock) - {cs[i].version}
  {
    var x := cs[i].(pinned := true);
    ReplacedInList(cs, i, x);
    SameVersion(cs);
    PlannedAreDoomed(id, cs, policy, clock);
    PlannedAreDoomed(id, cs[i := x], policy, clock);
    PinningDoomsNothingNew(Elements(cs), cs[i], policy, clock);
    NotItself(Elements(cs), Elements(cs[i := x]), cs[i], policy, clock);
  }

  /** So does withholding it, pending or disabled. */
  lemma WithholdingPlansNothingNew(id: string, cs: seq<Candidate>, i: nat, policy: Policy, clock: Clock)
    requires DistinctSeq(cs) && i < |cs|
    ensures DistinctSeq(cs[i := cs[i].(servable := false)])
    ensures PlannedVersions(id, cs[i := cs[i].(servable := false)], policy, clock) <=
            PlannedVersions(id, cs, policy, clock) - {cs[i].version}
  {
    var x := cs[i].(servable := false);
    ReplacedInList(cs, i, x);
    SameVersion(cs);
    PlannedAreDoomed(id, cs, policy, clock);
    PlannedAreDoomed(id, cs[i := x], policy, clock);
    WithholdingDoomsNothingNew(Elements(cs), cs[i], policy, clock);
    NotItself(Elements(cs), Elements(cs[i := x]), cs[i], policy, clock);
  }

  lemma WithheldDoNotCount(s: set<Candidate>, t: set<Candidate>, policy: Policy, clock: Clock, c: Candidate)
    requires s <= t && forall x :: x in t - s ==> !x.servable
    ensures Doomed(t, policy, clock, c) <==> Doomed(s, policy, clock, c)
    ensures Doomed(s, policy, clock, c) ==> PrunedFor(t, policy, clock, c) == PrunedFor(s, policy, clock, c)
  {
    forall d | d in t && d.servable ensures d in s {
      assert d !in t - s;
    }
    assert Newer(t, c) == Newer(s, c);
    assert c in s && c.servable ==> (MustSurvive(t, c.version) <==> MustSurvive(s, c.version));
  }

  /** Withheld versions, however many come in and wherever in the list, change neither
      what is planned nor the reasons. */
  lemma WithheldVersionsDoNotCount(id: string, cs: seq<Candidate>, ds: seq<Candidate>, policy: Policy, clock: Clock)
    requires DistinctSeq(cs) && DistinctSeq(ds)
    requires (forall c :: c in cs ==> c in ds) && forall d :: d in ds ==> d in cs || !d.servable
    ensures (set p | p in Plan(id, ds, policy, clock)) == set p | p in Plan(id, cs, policy, clock)
  {
    forall p ensures p in Plan(id, ds, policy, clock) <==> p in Plan(id, cs, policy, clock) {
      PlanCounts(id, ds, policy, clock, p);
      PlanCounts(id, cs, policy, clock, p);
      forall c ensures Doomed(Elements(ds), policy, clock, c) <==> Doomed(Elements(cs), policy, clock, c)
        ensures Doomed(Elements(cs), policy, clock, c) ==>
          PrunedFor(Elements(ds), policy, clock, c) == PrunedFor(Elements(cs), policy, clock, c)
      {
        WithheldDoNotCount(Elements(cs), Elements(ds), policy, clock, c);
      }
    }
  }
}
