/** The registry of keyed locks: weak entries, swept when the map has grown. */
module LockRegistry {

  /** `strong` counts the handles of each mutex made so far; an entry of the map is
      dead when its mutex has none. `keyOf`, `inserts` and `scanned` are history. */
  datatype Registry = Registry(
    entries: map<string, nat>,
    sweepAt: nat,
    strong: map<nat, nat>,
    next: nat,
    keyOf: map<nat, string>,
    inserts: nat,
    scanned: nat)
  {
    predicate Live(m: nat) { m in strong && strong[m] > 0 }

    function LiveEntries(): map<string, nat> { map k | k in entries && Live(entries[k]) :: entries[k] }
  }

  const Empty: Registry := Registry(map[], 0, map[], 0, map[], 0, 0)

  function Swept(r: Registry): Registry {
    if |r.entries| >= r.sweepAt
    then r.(entries := r.LiveEntries(), sweepAt := |r.LiveEntries()| * 2 + 16, scanned := r.scanned + |r.entries|)
    else r
  }

  function Grant(s: Registry, key: string): (Registry, nat) {
    if key in s.entries && s.Live(s.entries[key])
    then (s.(strong := s.strong[s.entries[key] := s.strong[s.entries[key]] + 1]), s.entries[key])
    else
      (s.(entries := s.entries[key := s.next], strong := s.strong[s.next := 1], next := s.next + 1,
          keyOf := s.keyOf[s.next := key], inserts := s.inserts + 1),
       s.next)
  }

  /** The registry after `acquire`, and the mutex it hands out. */
  function Acquire(r: Registry, key: string): (Registry, nat) { Grant(Swept(r), key) }

  /** One handle is dropped. */
  function Release(r: Registry, m: nat): Registry
    requires r.Live(m)
  {
    r.(strong := r.strong[m := r.strong[m] - 1])
  }

  datatype Call = Acquired(key: string) | Released(mutex: nat)

  predicate Runs(r: Registry, run: seq<Call>)
    decreases |run|
  {
    run == [] ||
    match run[0]
    case Acquired(key) => Runs(Acquire(r, key).0, run[1..])
    case Released(m) => r.Live(m) && Runs(Release(r, m), run[1..])
  }

  function After(r: Registry, run: seq<Call>): Registry
    requires Runs(r, run)
    decreases |run|
  {
    if run == [] then r
    else
      match run[0]
      case Acquired(key) => After(Acquire(r, key).0, run[1..])
      case Released(m) => After(Release(r, m), run[1..])
  }

  // ---- What every call keeps ----

  /** A live mutex is the entry of its key. */
  predicate Tied(r: Registry) {
    r.strong.Keys == r.keyOf.Keys &&
    (forall m :: m in r.strong ==> m < r.next) &&
    (forall k :: k in r.entries ==> r.entries[k] in r.keyOf && r.keyOf[r.entries[k]] == k) &&
    (forall m :: m in r.keyOf && r.Live(m) ==> r.keyOf[m] in r.entries && r.entries[r.keyOf[m]] == m)
  }

  /** `base` entries survived the last sweep. */
  predicate Sized(r: Registry, base: nat) {
    base <= |r.entries| <= r.sweepAt &&
    (r.sweepAt == base * 2 + 16 || (r.sweepAt == 0 == base)) &&
    r.scanned + 2 * (|r.entries| - base) <= 2 * r.inserts
  }

  predicate Inv(r: Registry, base: nat) { Tied(r) && Sized(r, base) }

  lemma {:induction false} SubmapIsSmaller(a: map<string, nat>, b: map<string, nat>)
    requires forall k :: k in a ==> k in b
    ensures |a| <= |b|
    decreases |a|
  {
    if a.Keys != {} {
      var k :| k in a;
      SubmapIsSmaller(a - {k}, b - {k});
      assert (b - {k}).Keys == b.Keys - {k} && (a - {k}).Keys == a.Keys - {k};
    }
  }

  lemma SweepKeeps(r: Registry, base: nat) returns (base': nat)
    requires Inv(r, base)
    ensures Inv(Swept(r), base') && |Swept(r).entries| < Swept(r).sweepAt
  {
    base' := base;
    if |r.entries| >= r.sweepAt {
      SubmapIsSmaller(r.LiveEntries(), r.entries);
      base' := |r.LiveEntries()|;
    }
  }

  lemma GrantTies(s: Registry, key: string)
    requires Tied(s)
    ensures Tied(Grant(s, key).0)
  {
    var (s', m) := Grant(s, key);
    forall n | n in s'.keyOf && s'.Live(n) ensures s'.keyOf[n] in s'.entries && s'.entries[s'.keyOf[n]] == n {
      assert n != m ==> s.Live(n);
    }
  }

  lemma OneEntryMore(m: map<string, nat>, k: string, v: nat)
    ensures |m| <= |m[k := v]| <= |m| + 1
  {
    assert m[k := v].Keys == m.Keys + {k};
    assert k in m.Keys ==> m.Keys + {k} == m.Keys;
  }

  lemma GrantSizes(s: Registry, base: nat, key: string)
    requires Sized(s, base) && |s.entries| < s.sweepAt
    ensures Sized(Grant(s, key).0, base)
  {
    OneEntryMore(s.entries, key, s.next);
  }

  lemma AcquireKeeps(r: Registry, base: nat, key: string) returns (base': nat)
    requires Inv(r, base)
    ensures Inv(Acquire(r, key).0, base')
  {
    base' := SweepKeeps(r, base);
    GrantTies(Swept(r), key);
    GrantSizes(Swept(r), base', key);
  }

  lemma {:induction false} RunKeeps(r: Registry, base: nat, run: seq<Call>) returns (base': nat)
    requires Inv(r, base) && Runs(r, run)
    ensures Inv(After(r, run), base')
    decreases |run|
  {
    base' := base;
    if run != [] {
      match run[0] {
        case Acquired(key) =>
          base' := AcquireKeeps(r, base, key);
          base' := RunKeeps(Acquire(r, key).0, base', run[1..]);
        case Released(m) =>
          base' := RunKeeps(Release(r, m), base, run[1..]);
      }
    }
  }

  // ---- What that gives ----

  /** All live handles of a key are of one mutex, and an acquire hands out that one. */
  lemma OneMutexPerKey(run: seq<Call>, m: nat, n: nat)
    requires Runs(Empty, run)
    ensures var r := After(Empty, run);
      r.Live(m) && r.Live(n) && m in r.keyOf && n in r.keyOf && r.keyOf[m] == r.keyOf[n] ==> m == n
    ensures var r := After(Empty, run);
      r.Live(m) && m in r.keyOf ==> Acquire(r, r.keyOf[m]).1 == m
  {
    var base := RunKeeps(Empty, 0, run);
  }

  /** A mutex serves one key only, and what an acquire hands out is live. */
  lemma OneKeyPerMutex(run: seq<Call>, key: string)
    requires Runs(Empty, run)
    ensures var r := After(Empty, run); var (r', m) := Acquire(r, key);
      r'.Live(m) && m in r'.keyOf && r'.keyOf[m] == key &&
      forall n :: n in r.keyOf ==> n in r'.keyOf && r'.keyOf[n] == r.keyOf[n]
  {
    var base := RunKeeps(Empty, 0, run);
  }

  /** The map stays within its threshold, and all sweeps together look at most twice
      at what was ever inserted. */
  lemma TheMapStaysSmall(run: seq<Call>)
    requires Runs(Empty, run)
    ensures var r := After(Empty, run); |r.entries| <= r.sweepAt && r.scanned <= 2 * r.inserts
  {
    var base := RunKeeps(Empty, 0, run);
  }

  // ---- The registry in place ----

  class Locks {
    var map_: map<string, nat>
    var sweepAt: nat
    var strong: map<nat, nat>
    var next: nat
    ghost var keyOf: map<nat, string>
    ghost var inserts: nat
    ghost var scanned: nat

    ghost function State(): Registry
      reads this
    {
      Registry(map_, sweepAt, strong, next, keyOf, inserts, scanned)
    }

    constructor ()
      ensures State() == Empty
    {
      map_, sweepAt, strong, next := map[], 0, map[], 0;
      keyOf, inserts, scanned := map[], 0, 0;
    }

    method Sweep()
      modifies this
      ensures State() == Swept(old(State()))
    {
      if |map_| >= sweepAt {
        scanned := scanned + |map_|;
        map_ := map k | k in map_ && map_[k] in strong && strong[map_[k]] > 0 :: map_[k];
        sweepAt := |map_| * 2 + 16;
        assert map_ == old(State()).LiveEntries();
      }
    }

    method AcquireLock(key: string) returns (mutex: nat)
      modifies this
      ensures (State(), mutex) == Acquire(old(State()), key)
    {
      Sweep();
      if key in map_ && map_[key] in strong && strong[map_[key]] > 0 {
        mutex := map_[key];
        strong := strong[mutex := strong[mutex] + 1];
      } else {
        mutex := next;
        next := next + 1;
        strong := strong[mutex := 1];
        map_ := map_[key := mutex];
        keyOf, inserts := keyOf[mutex := key], inserts + 1;
      }
    }

    method ReleaseLock(mutex: nat)
      requires State().Live(mutex)
      modifies this
      ensures State() == Release(old(State()), mutex)
    {
      strong := strong[mutex := strong[mutex] - 1];
    }
  }
}
