/** Package-id prefixes reserved for one feed. */
module Reserved {
  import opened Options
  import opened Ascii

  const MAX_ID_LENGTH := 100

  /** Whether an id falls under a prefix. A prefix ending in a dot also covers the
      bare id before it. */
  predicate IdHasPrefix(id: string, prefix: string) {
    (|id| >= |prefix| && SameIgnoringCase(id[..|prefix|], prefix)) ||
    (prefix != "" && prefix[|prefix| - 1] == '.' && SameIgnoringCase(id, prefix[..|prefix| - 1]))
  }

  datatype FeedConfig = FeedConfig(name: string, reserved: seq<string>, promotesTo: Option<string>, otherwiseValid: bool)

  datatype ReservedPrefix = ReservedPrefix(prefix: string, feed: string) {
    predicate Covers(id: string) { IdHasPrefix(id, prefix) }
  }

  datatype ResolvedFeed = ResolvedFeed(name: string, own: seq<string>, elsewhere: seq<ReservedPrefix>) {
    /** A push of an id under a prefix reserved elsewhere is refused. */
    predicate Refuses(id: string) { exists r :: r in elsewhere && r.Covers(id) }
  }

  predicate IsWord(c: char) { 'a' <= c <= 'z' || 'A' <= c <= 'Z' || '0' <= c <= '9' || c == '_' }

  predicate ValidPrefix(p: string) {
    p != "" && IsWord(p[0]) && (forall c :: c in p ==> IsWord(c) || c == '.' || c == '-') && |p| <= MAX_ID_LENGTH
  }

  /** Two reservations of different feeds that would leave some ids to nobody. */
  predicate Overlap(a: ReservedPrefix, b: ReservedPrefix) {
    a.feed != b.feed && (a.Covers(b.prefix) || b.Covers(a.prefix) || SameIgnoringCase(a.prefix, b.prefix))
  }

  function Trimmed(raw: seq<string>): (r: seq<string>)
    ensures |r| == |raw| && forall i :: 0 <= i < |raw| ==> r[i] == Trim(raw[i])
  {
    seq(|raw|, i requires 0 <= i < |raw| => Trim(raw[i]))
  }

  predicate Reservation(feeds: seq<FeedConfig>, r: ReservedPrefix) {
    exists i :: 0 <= i < |feeds| && feeds[i].name == r.feed && r.prefix in Trimmed(feeds[i].reserved)
  }

  predicate EachValid(feeds: seq<FeedConfig>) {
    forall i :: 0 <= i < |feeds| ==> feeds[i].otherwiseValid && forall p :: p in Trimmed(feeds[i].reserved) ==> ValidPrefix(p)
  }

  predicate NamesDiffer(feeds: seq<FeedConfig>) {
    forall i, j :: 0 <= i < j < |feeds| ==> !SameIgnoringCase(feeds[i].name, feeds[j].name)
  }

  predicate TargetExists(feeds: seq<FeedConfig>, target: Option<string>) {
    target.Some? ==> exists j :: 0 <= j < |feeds| && feeds[j].name == target.value
  }

  /** The one feed of a configuration that names none. */
  const DEFAULT_FEED: ResolvedFeed := ResolvedFeed("default", [], [])

  /** A configuration the server starts with; `defaultValid` says whether the settings of
      the default feed are. */
  ghost predicate Resolvable(feeds: seq<FeedConfig>, defaultValid: bool) {
    if feeds == [] then defaultValid
    else
      EachValid(feeds) && NamesDiffer(feeds) &&
      (forall a, b :: Reservation(feeds, a) && Reservation(feeds, b) ==> !Overlap(a, b)) &&
      (forall i :: 0 <= i < |feeds| ==> TargetExists(feeds, feeds[i].promotesTo))
  }

  /** Each feed with what the others reserved. */
  ghost predicate Resolved(feeds: seq<FeedConfig>, resolved: seq<ResolvedFeed>) {
    if feeds == [] then resolved == [DEFAULT_FEED]
    else |resolved| == |feeds| && forall i :: 0 <= i < |feeds| ==> ResolvedOne(feeds, feeds[i], resolved[i])
  }

  ghost predicate ResolvedOne(feeds: seq<FeedConfig>, f: FeedConfig, r: ResolvedFeed) {
    r.name == f.name && r.own == Trimmed(f.reserved) && forall p :: p in r.elsewhere <==> Reservation(feeds, p) && p.feed != f.name
  }

  /** The feeds of a configuration, or nothing when it is refused. */
  method ResolvedFeeds(feeds: seq<FeedConfig>, defaultValid: bool) returns (r: Option<seq<ResolvedFeed>>)
    ensures r.Some? <==> Resolvable(feeds, defaultValid)
    ensures r.Some? ==> Resolved(feeds, r.value)
  {
    if feeds == [] {
      return if defaultValid then Some([DEFAULT_FEED]) else None;
    }
    var valid := CheckEach(feeds);
    if !valid { return None; }
    var all := AllReservations(feeds);
    var overlap := AnyOverlap(all);
    if overlap {
      var a, b :| a in all && b in all && Overlap(a, b);
      assert Reservation(feeds, a) && Reservation(feeds, b);
      return None;
    }
    var resolved: seq<ResolvedFeed> := [];
    for i := 0 to |feeds|
      invariant |resolved| == i && forall k :: 0 <= k < i ==> ResolvedOne(feeds, feeds[k], resolved[k])
    {
      resolved := resolved + [ResolvedFeed(feeds[i].name, Trimmed(feeds[i].reserved), Others(all, feeds[i].name))];
    }
    for i := 0 to |feeds|
      invariant forall k :: 0 <= k < i ==> TargetExists(feeds, feeds[k].promotesTo)
    {
      if !TargetExists(feeds, feeds[i].promotesTo) { return None; }
    }
    return Some(resolved);
  }

  method CheckEach(feeds: seq<FeedConfig>) returns (ok: bool)
    ensures ok <==> EachValid(feeds) && NamesDiffer(feeds)
  {
    var seen: set<string> := {};
    for i := 0 to |feeds|
      invariant EachValid(feeds[..i]) && NamesDiffer(feeds[..i])
      invariant seen == set k | 0 <= k < i :: Lower(feeds[k].name)
    {
      var f := feeds[i];
      if !f.otherwiseValid || Lower(f.name) in seen { return false; }
      seen := seen + {Lower(f.name)};
      var own := Trimmed(f.reserved);
      for k := 0 to |own|
        invariant forall j :: 0 <= j < k ==> ValidPrefix(own[j])
      {
        if !ValidPrefix(own[k]) { return false; }
      }
    }
    assert feeds[..|feeds|] == feeds;
    return true;
  }

  method AllReservations(feeds: seq<FeedConfig>) returns (all: seq<ReservedPrefix>)
    ensures forall p :: p in all <==> Reservation(feeds, p)
  {
    all := [];
    for i := 0 to |feeds|
      invariant forall p :: p in all <==> exists k :: 0 <= k < i && feeds[k].name == p.feed && p.prefix in Trimmed(feeds[k].reserved)
    {
      var own := Trimmed(feeds[i].reserved);
      var mine := seq(|own|, k requires 0 <= k < |own| => ReservedPrefix(own[k], feeds[i].name));
      forall p ensures p in mine <==> feeds[i].name == p.feed && p.prefix in own {
        if feeds[i].name == p.feed && p.prefix in own {
          var k :| 0 <= k < |own| && own[k] == p.prefix;
          assert mine[k] == p;
        }
      }
      all := all + mine;
    }
  }

  method AnyOverlap(all: seq<ReservedPrefix>) returns (overlap: bool)
    ensures overlap <==> exists a, b :: a in all && b in all && Overlap(a, b)
  {
    for i := 0 to |all|
      invariant forall j, k :: 0 <= j < k < |all| && j < i ==> !Overlap(all[j], all[k])
    {
      for k := i + 1 to |all|
        invariant forall j :: i < j < k ==> !Overlap(all[i], all[j])
      {
        if Overlap(all[i], all[k]) { return true; }
      }
    }
    forall a, b | a in all && b in all ensures !Overlap(a, b) {
      var j :| 0 <= j < |all| && all[j] == a;
      var k :| 0 <= k < |all| && all[k] == b;
      assert j < k ==> !Overlap(all[j], all[k]);
      assert k < j ==> !Overlap(all[k], all[j]);
    }
    return false;
  }

  function Others(all: seq<ReservedPrefix>, name: string): (r: seq<ReservedPrefix>)
    ensures forall p :: p in r <==> p in all && p.feed != name
  {
    if all == [] then []
    else if all[0].feed != name then [all[0]] + Others(all[1..], name)
    else Others(all[1..], name)
  }

  /** An id under two prefixes puts one of the prefixes under the other. */
  lemma CommonIdOverlaps(id: string, a: ReservedPrefix, b: ReservedPrefix)
    requires a.Covers(id) && b.Covers(id) && a.feed != b.feed
    ensures Overlap(a, b)
  {
    if |a.prefix| <= |b.prefix| {
      ShorterCovers(id, a.prefix, b.prefix);
    } else {
      ShorterCovers(id, b.prefix, a.prefix);
    }
  }

  /** The check refuses two reservations exactly when some id falls under both. */
  lemma OverlapIsACommonId(a: ReservedPrefix, b: ReservedPrefix)
    requires a.feed != b.feed
    ensures Overlap(a, b) <==> exists id :: a.Covers(id) && b.Covers(id)
  {
    if Overlap(a, b) {
      assert a.prefix[..|a.prefix|] == a.prefix && b.prefix[..|b.prefix|] == b.prefix;
      assert a.Covers(a.prefix) && b.Covers(b.prefix);
      if SameIgnoringCase(a.prefix, b.prefix) { assert |Lower(a.prefix)| == |Lower(b.prefix)| && b.Covers(a.prefix); }
    }
    if id :| a.Covers(id) && b.Covers(id) {
      CommonIdOverlaps(id, a, b);
    }
  }

  lemma ShorterCovers(id: string, p: string, q: string)
    requires IdHasPrefix(id, p) && IdHasPrefix(id, q) && |p| <= |q|
    ensures IdHasPrefix(q, p)
  {
    var n := if |p| <= |id| then |p| else |id|;
    assert Lower(id[..n]) == Lower(p[..n]) by { Prefixes(id, p, n); }
    assert Lower(id[..n]) == Lower(q[..n]) by { Prefixes(id, q, n); }
    if |p| <= |id| {
      assert p[..n] == p;
    } else {
      assert q[|q| - 1] == '.' && |q| == |p| && p[..n] + ['.'] == p && q[..n] + ['.'] == q;
      assert Lower(p) == Lower(q);
      assert q[..|p|] == q;
    }
  }

  /** Whichever way an id falls under a prefix, the two agree where both reach. */
  lemma Prefixes(id: string, p: string, n: nat)
    requires IdHasPrefix(id, p) && n <= |id| && n <= |p|
    ensures Lower(id[..n]) == Lower(p[..n])
  {
    if |id| >= |p| && SameIgnoringCase(id[..|p|], p) {
      assert forall i :: 0 <= i < n ==> Lower(id[..|p|])[i] == Lower(id[..n])[i] && Lower(p)[i] == Lower(p[..n])[i];
    } else {
      var bare := p[..|p| - 1];
      assert |Lower(id)| == |Lower(bare)|;
      assert forall i :: 0 <= i < n ==> Lower(id)[i] == Lower(id[..n])[i] && Lower(bare)[i] == Lower(p[..n])[i];
    }
  }

  /** When the configuration is accepted, an id under a reserved prefix may be pushed
      into the feed that reserved it and into no other, and an id under none is
      refused nowhere for a reservation. */
  lemma ReservedIdsHaveOneFeed(feeds: seq<FeedConfig>, defaultValid: bool, resolved: seq<ResolvedFeed>, id: string, i: nat)
    requires Resolvable(feeds, defaultValid) && Resolved(feeds, resolved) && i < |resolved|
    ensures resolved[i].Refuses(id) <==> exists r :: Reservation(feeds, r) && r.Covers(id) && r.feed != resolved[i].name
    ensures forall r :: Reservation(feeds, r) && r.Covers(id) ==> (resolved[i].Refuses(id) <==> r.feed != resolved[i].name)
  {
    forall r | Reservation(feeds, r) && r.Covers(id)
      ensures resolved[i].Refuses(id) <==> r.feed != resolved[i].name
    {
      if resolved[i].Refuses(id) {
        var q :| q in resolved[i].elsewhere && q.Covers(id);
        if q.feed != r.feed {
          CommonIdOverlaps(id, q, r);
        }
      }
      if r.feed != resolved[i].name {
        assert r in resolved[i].elsewhere;
      }
    }
    if exists r :: Reservation(feeds, r) && r.Covers(id) && r.feed != resolved[i].name {
      var r :| Reservation(feeds, r) && r.Covers(id) && r.feed != resolved[i].name;
      assert r in resolved[i].elsewhere;
    }
  }
}
