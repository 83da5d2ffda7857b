/** The fingerprint of a plan, which an administrator's page sends back. */
module Fingerprint {
  import opened Ascii
  import Lexical
  import opened Options
  import opened Store

  /** A planned version: its id as displayed, its version in normal form. */
  datatype Planned = Planned(id: string, version: string) {
    predicate Clean() { '\0' !in id && '\n' !in id && '\n' !in version }

    function Key(): string { Lower(id) + "\0" + version }

    function Version(): Ver { Ver(Lower(id), version) }
  }

  /** A hash is a free constructor over what it hashes. */
  datatype Digest = Hash(of: string)

  // ---- Sorting ----

  predicate Sorted(s: seq<string>) {
    s == [] || ((forall x :: x in s[1..] ==> !Lexical.Less(x, s[0])) && Sorted(s[1..]))
  }

  function Insert(s: seq<string>, x: string): seq<string> {
    if s == [] || Lexical.Less(x, s[0]) then [x] + s else [s[0]] + Insert(s[1..], x)
  }

  function Sort(s: seq<string>): seq<string> {
    if s == [] then [] else Insert(Sort(s[..|s| - 1]), s[|s| - 1])
  }

  lemma {:induction false} InsertSorts(s: seq<string>, x: string)
    requires Sorted(s)
    ensures Sorted(Insert(s, x)) && multiset(Insert(s, x)) == multiset(s) + multiset{x}
  {
    if s == [] {
    } else if Lexical.Less(x, s[0]) {
      assert Insert(s, x)[1..] == s;
      forall y | y in s ensures !Lexical.Less(y, x) {
        assert y == s[0] || y in s[1..];
        if Lexical.Less(y, x) {
          Lexical.Transitive(y, x, s[0]);
          Lexical.Irreflexive(s[0]);
        }
      }
    } else {
      InsertSorts(s[1..], x);
      assert Insert(s, x)[1..] == Insert(s[1..], x) && s == [s[0]] + s[1..];
      forall y | y in Insert(s[1..], x) ensures !Lexical.Less(y, s[0]) {
        assert y in multiset(Insert(s[1..], x));
      }
    }
  }

  lemma CountedWithLast(s: seq<string>)
    requires s != []
    ensures multiset(s) == multiset(s[..|s| - 1]) + multiset{s[|s| - 1]}
  {
    assert s == s[..|s| - 1] + [s[|s| - 1]];
  }

  lemma {:induction false} SortSorts(s: seq<string>)
    ensures Sorted(Sort(s)) && multiset(Sort(s)) == multiset(s)
  {
    if s != [] {
      var init, last := s[..|s| - 1], s[|s| - 1];
      SortSorts(init);
      InsertSorts(Sort(init), last);
      CountedWithLast(s);
    }
  }

  lemma FirstIsLeast(a: seq<string>, x: string)
    requires Sorted(a) && a != [] && x in multiset(a)
    ensures !Lexical.Less(x, a[0])
  {
    Lexical.Irreflexive(x);
    assert x == a[0] || x in a[1..];
  }

  lemma WithoutFirst(a: seq<string>)
    requires a != []
    ensures multiset(a) == multiset(a[1..]) + multiset{a[0]} && a[0] in multiset(a)
  {
    assert a == [a[0]] + a[1..];
  }

  /** The same strings are sorted in one way. */
  lemma {:induction false} SortedOnce(a: seq<string>, b: seq<string>)
    requires Sorted(a) && Sorted(b) && multiset(a) == multiset(b)
    ensures a == b
    decreases a
  {
    assert |a| == |multiset(a)| && |b| == |multiset(b)|;
    if a != [] {
      WithoutFirst(a);
      WithoutFirst(b);
      FirstIsLeast(a, b[0]);
      FirstIsLeast(b, a[0]);
      Lexical.Total(a[0], b[0]);
      assert multiset(a[1..]) == multiset(a) - multiset{a[0]} && multiset(b[1..]) == multiset(b) - multiset{b[0]};
      SortedOnce(a[1..], b[1..]);
      assert a == [a[0]] + a[1..] && b == [b[0]] + b[1..];
    }
  }

  // ---- Fingerprints ----

  function Keys(plan: seq<Planned>): seq<string> { seq(|plan|, i requires 0 <= i < |plan| => plan[i].Key()) }

  /** What goes into the hash: every key and a line end. */
  function Lines(keys: seq<string>): string {
    if keys == [] then "" else keys[0] + "\n" + Lines(keys[1..])
  }

  function FingerprintOf(plan: seq<Planned>): Digest { Hash(Lines(Sort(Keys(plan)))) }

  lemma {:induction false} LinesAreTheKeys(a: seq<string>, b: seq<string>)
    requires (forall k :: k in a ==> '\n' !in k) && (forall k :: k in b ==> '\n' !in k) && Lines(a) == Lines(b)
    ensures a == b
  {
    if a != [] && b != [] {
      Lexical.SplitOnce(a[0], Lines(a[1..]), b[0], Lines(b[1..]), '\n');
      LinesAreTheKeys(a[1..], b[1..]);
      assert a == [a[0]] + a[1..] && b == [b[0]] + b[1..];
    } else {
      assert a != [] ==> |Lines(a)| > 0;
      assert b != [] ==> |Lines(b)| > 0;
    }
  }

  lemma KeysAreVersions(p: Planned, q: Planned)
    requires p.Clean() && q.Clean()
    ensures p.Key() == q.Key() <==> p.Version() == q.Version()
  {
    assert '\0' !in Lower(p.id) && '\0' !in Lower(q.id);
    if p.Key() == q.Key() {
      Lexical.SplitOnce(Lower(p.id), p.version, Lower(q.id), q.version, '\0');
    }
  }

  predicate Clean(plan: seq<Planned>) { forall p :: p in plan ==> p.Clean() }

  lemma KeysHaveNoLineEnd(plan: seq<Planned>)
    requires Clean(plan)
    ensures forall k :: k in Sort(Keys(plan)) ==> '\n' !in k
  {
    SortSorts(Keys(plan));
    forall k | k in Sort(Keys(plan)) ensures '\n' !in k {
      assert k in multiset(Keys(plan));
      var i :| 0 <= i < |plan| && k == plan[i].Key();
      assert plan[i] in plan;
    }
  }

  /** Two plans have one fingerprint exactly when they plan the same keys, in whatever
      order. */
  lemma FingerprintsIdentifyPlans(a: seq<Planned>, b: seq<Planned>)
    requires Clean(a) && Clean(b)
    ensures FingerprintOf(a) == FingerprintOf(b) <==> multiset(Keys(a)) == multiset(Keys(b))
  {
    SortSorts(Keys(a));
    SortSorts(Keys(b));
    if FingerprintOf(a) == FingerprintOf(b) {
      KeysHaveNoLineEnd(a);
      KeysHaveNoLineEnd(b);
      LinesAreTheKeys(Sort(Keys(a)), Sort(Keys(b)));
    }
    if multiset(Keys(a)) == multiset(Keys(b)) {
      SortedOnce(Sort(Keys(a)), Sort(Keys(b)));
    }
  }

  function Versions(plan: seq<Planned>): set<Ver> { set p | p in plan :: p.Version() }

  lemma SameFingerprintSameVersions(a: seq<Planned>, b: seq<Planned>)
    requires Clean(a) && Clean(b) && FingerprintOf(a) == FingerprintOf(b)
    ensures Versions(a) == Versions(b) && |a| == |b|
  {
    FingerprintsIdentifyPlans(a, b);
    assert |multiset(Keys(a))| == |Keys(a)| && |multiset(Keys(b))| == |Keys(b)|;
    PlannedInBoth(a, b);
    PlannedInBoth(b, a);
  }

  lemma PlannedInBoth(a: seq<Planned>, b: seq<Planned>)
    requires Clean(a) && Clean(b) && multiset(Keys(a)) == multiset(Keys(b))
    ensures Versions(a) <= Versions(b)
  {
    forall p | p in a ensures p.Version() in Versions(b) {
      var i :| 0 <= i < |a| && a[i] == p;
      assert Keys(a)[i] in multiset(Keys(b));
      var j :| 0 <= j < |b| && Keys(b)[j] == p.Key();
      KeysAreVersions(p, b[j]);
    }
  }
}
