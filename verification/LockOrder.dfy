/** The order in which every operation takes its locks, and why no set of running
    operations can come to a standstill. */
module LockOrder {
  import Lexical

  /** One feed's cleanup, one package version, one symbol file, one blob. */
  datatype Lock =
    | Cleanup(feed: string)
    | Version(id: string, version: string)
    | Symbol(ssqp: string, file: string)
    | Blob(sha256: string)
  {
    function Kind(): nat {
      match this
      case Cleanup(_) => 0
      case Version(_, _) => 1
      case Symbol(_, _) => 2
      case Blob(_) => 3
    }

    function Name(): (string, string) {
      match this
      case Cleanup(feed) => (feed, "")
      case Version(id, version) => (id, version)
      case Symbol(ssqp, file) => (ssqp, file)
      case Blob(sha256) => (sha256, "")
    }
  }

  predicate Before(a: Lock, b: Lock) {
    a.Kind() < b.Kind() || (a.Kind() == b.Kind() && Lexical.PairLess(a.Name(), b.Name()))
  }

  lemma BeforeIsAnOrder(a: Lock, b: Lock, c: Lock)
    ensures !Before(a, a)
    ensures Before(a, b) && Before(b, c) ==> Before(a, c)
    ensures Before(a, b) || a == b || Before(b, a)
  {
    Lexical.PairOrder(a.Name(), b.Name(), c.Name());
  }

  predicate Ascending(locks: seq<Lock>) {
    forall i, j :: 0 <= i < j < |locks| ==> Before(locks[i], locks[j])
  }

  // ---- Running tasks ----

  /** `Try` gives up when the lock is not free right now. */
  datatype Op = Take(lock: Lock) | Try(lock: Lock) | Drop(lock: Lock) | Work

  datatype Task = Task(held: set<Lock>, rest: seq<Op>)

  type Sys = map<nat, Task>

  /** Spawning a task, its next operation, or its failure, which drops its guards. */
  datatype Action = Spawn(id: nat, operation: Operation) | Step(id: nat) | Fail(id: nat)

  predicate Free(s: Sys, l: Lock) { forall i :: i in s ==> l !in s[i].held }

  predicate CanStep(s: Sys, i: nat) {
    i in s && s[i].rest != [] && (s[i].rest[0].Take? ==> Free(s, s[i].rest[0].lock))
  }

  predicate Possible(s: Sys, a: Action) {
    match a
    case Spawn(i, operation) => i !in s && operation.Valid()
    case Step(i) => CanStep(s, i)
    case Fail(i) => i in s
  }

  function Next(s: Sys, t: Task): Task
    requires t.rest != []
  {
    match t.rest[0]
    case Take(l) => Task(t.held + {l}, t.rest[1..])
    case Try(l) => if Free(s, l) then Task(t.held + {l}, t.rest[1..]) else Task({}, [])
    case Drop(l) => Task(t.held - {l}, t.rest[1..])
    case Work => Task(t.held, t.rest[1..])
  }

  function Do(s: Sys, a: Action): Sys
    requires Possible(s, a)
  {
    match a
    case Spawn(i, operation) => s[i := Task({}, operation.Program())]
    case Step(i) => s[i := Next(s, s[i])]
    case Fail(i) => s[i := Task({}, [])]
  }

  predicate Runs(s: Sys, run: seq<Action>)
    decreases |run|
  {
    run == [] || (Possible(s, run[0]) && Runs(Do(s, run[0]), run[1..]))
  }

  function After(s: Sys, run: seq<Action>): Sys
    requires Runs(s, run)
    decreases |run|
  {
    if run == [] then s else After(Do(s, run[0]), run[1..])
  }

  // ---- The discipline ----

  /** What is waited for comes after everything held, and nothing is held at the end. */
  predicate Disciplined(held: set<Lock>, program: seq<Op>)
    decreases |program|
  {
    if program == [] then held == {}
    else
      match program[0]
      case Take(l) => (forall h :: h in held ==> Before(h, l)) && Disciplined(held + {l}, program[1..])
      case Try(l) => Disciplined(held + {l}, program[1..])
      case Drop(l) => Disciplined(held - {l}, program[1..])
      case Work => Disciplined(held, program[1..])
  }

  ghost predicate Inv(s: Sys) {
    (forall i :: i in s ==> Disciplined(s[i].held, s[i].rest)) &&
    (forall i, j :: i in s && j in s && i != j ==> s[i].held !! s[j].held)
  }

  lemma DoKeeps(s: Sys, a: Action)
    requires Inv(s) && Possible(s, a)
    ensures Inv(Do(s, a))
  {
    if a.Spawn? {
      OperationsAreDisciplined(a.operation);
    }
  }

  lemma {:induction false} RunKeeps(s: Sys, run: seq<Action>)
    requires Inv(s) && Runs(s, run)
    ensures Inv(After(s, run))
    decreases |run|
  {
    if run != [] {
      DoKeeps(s, run[0]);
      RunKeeps(Do(s, run[0]), run[1..]);
    }
  }

  predicate Waits(s: Sys, i: nat) { i in s && s[i].rest != [] && s[i].rest[0].Take? }

  function Wanted(s: Sys, i: nat): Lock
    requires Waits(s, i)
  {
    s[i].rest[0].lock
  }

  /** Of some waiting tasks, one waits for a lock that none of the others' comes after. */
  lemma {:induction false} LastWaiter(s: Sys, ids: set<nat>) returns (last: nat)
    requires ids != {} && forall i :: i in ids ==> Waits(s, i)
    ensures last in ids && forall i :: i in ids ==> !Before(Wanted(s, last), Wanted(s, i))
    decreases |ids|
  {
    var one: nat :| one in ids;
    last := one;
    if ids != {one} {
      var best := LastWaiter(s, ids - {one});
      if Before(Wanted(s, one), Wanted(s, best)) {
        last := best;
      }
      forall i | i in ids ensures !Before(Wanted(s, last), Wanted(s, i)) {
        BeforeIsAnOrder(Wanted(s, one), Wanted(s, best), Wanted(s, i));
        BeforeIsAnOrder(Wanted(s, best), Wanted(s, one), Wanted(s, i));
        BeforeIsAnOrder(Wanted(s, one), Wanted(s, i), Wanted(s, best));
      }
    } else {
      BeforeIsAnOrder(Wanted(s, one), Wanted(s, one), Wanted(s, one));
    }
  }

  lemma AStandstillIsTheEnd(s: Sys)
    requires Inv(s) && forall i :: i in s ==> !CanStep(s, i)
    ensures forall i :: i in s ==> s[i].rest == []
  {
    var waiting := set i | i in s && s[i].rest != [];
    if waiting != {} {
      assert forall i :: i in waiting ==> !CanStep(s, i) && Waits(s, i);
      var last := LastWaiter(s, waiting);
      var l := Wanted(s, last);
      assert !CanStep(s, last) && !Free(s, l);
      var holder: nat :| holder in s && l in s[holder].held;
    }
    assert forall i :: i in s && s[i].rest != [] ==> i in waiting;
  }

  /** In every reachable state some unfinished task can go on. */
  lemma NoDeadlock(run: seq<Action>)
    requires Runs(map[], run)
    ensures var s := After(map[], run);
      (exists i :: i in s && s[i].rest != []) ==> exists i :: CanStep(s, i)
  {
    RunKeeps(map[], run);
    var s := After(map[], run);
    if forall i :: i in s ==> !CanStep(s, i) {
      AStandstillIsTheEnd(s);
    }
  }

  // ---- The operations ----

  /** A version with the blobs its operation counts or stores, one at a time. */
  datatype Job = Job(version: Lock, blobs: seq<Lock>)

  datatype Operation =
      // Push, overwrite, purge, transfer, attach, detach, single approval.
    | OneVersion(job: Job)
    | SymbolPush(version: Lock, symbols: seq<Lock>)
    | BulkApproval(versions: seq<Lock>)
      // Feed removal and the orphan sweep: version after version.
    | ManyVersions(jobs: seq<Job>)
    | BlobSweep(blobs: seq<Lock>)
      // The scheduled cleanup waits for its turn, the manual one does not.
    | Scheduled(cleanup: Lock, jobs: seq<Job>)
    | Manual(cleanup: Lock, jobs: seq<Job>)
  {
    predicate Valid() {
      match this
      case OneVersion(job) => ValidJob(job)
      case SymbolPush(version, symbols) => version.Version? && (forall l :: l in symbols ==> l.Symbol?) && Ascending(symbols)
      case BulkApproval(versions) => (forall l :: l in versions ==> l.Version?) && Ascending(versions)
      case ManyVersions(jobs) => forall job :: job in jobs ==> ValidJob(job)
      case BlobSweep(blobs) => forall l :: l in blobs ==> l.Blob?
      case Scheduled(cleanup, jobs) => cleanup.Cleanup? && forall job :: job in jobs ==> ValidJob(job)
      case Manual(cleanup, jobs) => cleanup.Cleanup? && forall job :: job in jobs ==> ValidJob(job)
    }

    function Program(): seq<Op> {
      match this
      case OneVersion(job) => JobProgram(job)
      case SymbolPush(version, symbols) => [Take(version)] + TakeAll(symbols) + [Work] + DropAll(symbols) + [Drop(version)]
      case BulkApproval(versions) => TakeAll(versions) + [Work] + DropAll(versions)
      case ManyVersions(jobs) => JobPrograms(jobs)
      case BlobSweep(blobs) => OneByOne(blobs)
      case Scheduled(cleanup, jobs) => [Take(cleanup)] + JobPrograms(jobs) + [Drop(cleanup)]
      case Manual(cleanup, jobs) => [Try(cleanup)] + JobPrograms(jobs) + [Drop(cleanup)]
    }
  }

  predicate ValidJob(job: Job) { job.version.Version? && forall l :: l in job.blobs ==> l.Blob? }

  function OneByOne(locks: seq<Lock>): seq<Op> {
    if locks == [] then [] else [Take(locks[0]), Work, Drop(locks[0])] + OneByOne(locks[1..])
  }

  function TakeAll(locks: seq<Lock>): seq<Op> {
    if locks == [] then [] else [Take(locks[0])] + TakeAll(locks[1..])
  }

  function DropAll(locks: seq<Lock>): seq<Op> {
    if locks == [] then [] else [Drop(locks[0])] + DropAll(locks[1..])
  }

  function JobProgram(job: Job): seq<Op> {
    [Take(job.version), Work] + OneByOne(job.blobs) + [Drop(job.version)]
  }

  function JobPrograms(jobs: seq<Job>): seq<Op> {
    if jobs == [] then [] else JobProgram(jobs[0]) + JobPrograms(jobs[1..])
  }

  lemma OneThen(held: set<Lock>, l: Lock, rest: seq<Op>)
    requires (forall h :: h in held ==> Before(h, l)) && Disciplined(held, rest)
    ensures Disciplined(held, [Take(l)] + ([Work] + ([Drop(l)] + rest)))
  {
    BeforeIsAnOrder(l, l, l);
    assert held + {l} - {l} == held;
    assert ([Drop(l)] + rest)[1..] == rest;
    assert ([Work] + ([Drop(l)] + rest))[1..] == [Drop(l)] + rest;
    assert ([Take(l)] + ([Work] + ([Drop(l)] + rest)))[1..] == [Work] + ([Drop(l)] + rest);
  }

  lemma FirstOfMany(locks: seq<Lock>, rest: seq<Op>)
    requires locks != []
    ensures OneByOne(locks) + rest == [Take(locks[0])] + ([Work] + ([Drop(locks[0])] + (OneByOne(locks[1..]) + rest)))
  {
  }

  lemma {:induction false} OneByOneThen(held: set<Lock>, locks: seq<Lock>, rest: seq<Op>)
    requires forall l, h :: l in locks && h in held ==> Before(h, l)
    requires Disciplined(held, rest)
    ensures Disciplined(held, OneByOne(locks) + rest)
    decreases |locks|
  {
    if locks == [] {
      assert OneByOne(locks) + rest == rest;
    } else {
      OneByOneThen(held, locks[1..], rest);
      OneThen(held, locks[0], OneByOne(locks[1..]) + rest);
      FirstOfMany(locks, rest);
    }
  }

  lemma {:induction false} TakeAllThen(held: set<Lock>, locks: seq<Lock>, rest: seq<Op>)
    requires Ascending(locks) && forall l, h :: l in locks && h in held ==> Before(h, l)
    requires Disciplined(held + (set l | l in locks), rest)
    ensures Disciplined(held, TakeAll(locks) + rest)
    decreases |locks|
  {
    if locks == [] {
      assert TakeAll(locks) + rest == rest && held + (set l | l in locks) == held;
    } else {
      assert held + (set l | l in locks) == held + {locks[0]} + (set l | l in locks[1..]);
      TakeAllThen(held + {locks[0]}, locks[1..], rest);
      assert (TakeAll(locks) + rest)[1..] == TakeAll(locks[1..]) + rest;
    }
  }

  lemma {:induction false} DropAllThen(held: set<Lock>, locks: seq<Lock>, rest: seq<Op>)
    requires Disciplined(held - (set l | l in locks), rest)
    ensures Disciplined(held, DropAll(locks) + rest)
    decreases |locks|
  {
    if locks == [] {
      assert DropAll(locks) + rest == rest && held - (set l | l in locks) == held;
    } else {
      assert held - (set l | l in locks) == held - {locks[0]} - (set l | l in locks[1..]);
      DropAllThen(held - {locks[0]}, locks[1..], rest);
      assert (DropAll(locks) + rest)[1..] == DropAll(locks[1..]) + rest;
    }
  }

  lemma AllThen(held: set<Lock>, locks: seq<Lock>, rest: seq<Op>)
    requires Ascending(locks) && forall l, h :: l in locks && h in held ==> Before(h, l)
    requires Disciplined(held, rest)
    ensures Disciplined(held, TakeAll(locks) + ([Work] + DropAll(locks) + rest))
  {
    var all := set l | l in locks;
    forall l | l in locks ensures l !in held {
      BeforeIsAnOrder(l, l, l);
    }
    assert held + all - all == held;
    DropAllThen(held + all, locks, rest);
    assert ([Work] + DropAll(locks) + rest)[1..] == DropAll(locks) + rest;
    TakeAllThen(held, locks, [Work] + DropAll(locks) + rest);
  }

  lemma JobThen(held: set<Lock>, job: Job, rest: seq<Op>)
    requires ValidJob(job) && (forall h :: h in held ==> h.Cleanup?) && Disciplined(held, rest)
    ensures Disciplined(held, JobProgram(job) + rest)
  {
    var v := job.version;
    assert held + {v} - {v} == held;
    assert ([Drop(v)] + rest)[1..] == rest;
    OneByOneThen(held + {v}, job.blobs, [Drop(v)] + rest);
    var body := OneByOne(job.blobs) + ([Drop(v)] + rest);
    assert JobProgram(job) + rest == [Take(v)] + ([Work] + body);
    assert ([Take(v)] + ([Work] + body))[1..] == [Work] + body && ([Work] + body)[1..] == body;
  }

  lemma {:induction false} JobsThen(held: set<Lock>, jobs: seq<Job>, rest: seq<Op>)
    requires (forall job :: job in jobs ==> ValidJob(job)) && (forall h :: h in held ==> h.Cleanup?) && Disciplined(held, rest)
    ensures Disciplined(held, JobPrograms(jobs) + rest)
  {
    if jobs == [] {
      assert JobPrograms(jobs) + rest == rest;
    } else {
      JobsThen(held, jobs[1..], rest);
      JobThen(held, jobs[0], JobPrograms(jobs[1..]) + rest);
      assert JobPrograms(jobs) + rest == JobProgram(jobs[0]) + (JobPrograms(jobs[1..]) + rest);
    }
  }

  lemma CleanupIsDisciplined(first: Op, cleanup: Lock, jobs: seq<Job>)
    requires cleanup.Cleanup? && (first == Take(cleanup) || first == Try(cleanup)) && forall job :: job in jobs ==> ValidJob(job)
    ensures Disciplined({}, [first] + JobPrograms(jobs) + [Drop(cleanup)])
  {
    assert {cleanup} - {cleanup} == {} && {} + {cleanup} == {cleanup};
    JobsThen({cleanup}, jobs, [Drop(cleanup)]);
    assert ([first] + JobPrograms(jobs) + [Drop(cleanup)])[1..] == JobPrograms(jobs) + [Drop(cleanup)];
  }

  lemma SymbolPushIsDisciplined(v: Lock, symbols: seq<Lock>)
    requires SymbolPush(v, symbols).Valid()
    ensures Disciplined({}, SymbolPush(v, symbols).Program())
  {
    var p := SymbolPush(v, symbols).Program();
    assert [Drop(v)][1..] == [] && {v} - {v} == {} && {} + {v} == {v};
    AllThen({v}, symbols, [Drop(v)]);
    var tail := TakeAll(symbols) + ([Work] + DropAll(symbols) + [Drop(v)]);
    assert p == [Take(v)] + tail && p[1..] == tail;
  }

  lemma BulkApprovalIsDisciplined(versions: seq<Lock>)
    requires BulkApproval(versions).Valid()
    ensures Disciplined({}, BulkApproval(versions).Program())
  {
    AllThen({}, versions, []);
    assert BulkApproval(versions).Program() == TakeAll(versions) + ([Work] + DropAll(versions) + []);
  }

  lemma JobsAreDisciplined(jobs: seq<Job>)
    requires forall job :: job in jobs ==> ValidJob(job)
    ensures Disciplined({}, JobPrograms(jobs))
  {
    JobsThen({}, jobs, []);
    assert JobPrograms(jobs) + [] == JobPrograms(jobs);
  }

  lemma OneJobIsDisciplined(job: Job)
    requires ValidJob(job)
    ensures Disciplined({}, JobProgram(job))
  {
    JobThen({}, job, []);
    assert JobProgram(job) + [] == JobProgram(job);
  }

  lemma BlobSweepIsDisciplined(blobs: seq<Lock>)
    requires BlobSweep(blobs).Valid()
    ensures Disciplined({}, OneByOne(blobs))
  {
    OneByOneThen({}, blobs, []);
    assert OneByOne(blobs) + [] == OneByOne(blobs);
  }

  /** Every operation takes its locks in the one order. */
  lemma OperationsAreDisciplined(o: Operation)
    requires o.Valid()
    ensures Disciplined({}, o.Program())
  {
    match o
    case OneVersion(job) => OneJobIsDisciplined(job);
    case SymbolPush(v, symbols) => SymbolPushIsDisciplined(v, symbols);
    case BulkApproval(versions) => BulkApprovalIsDisciplined(versions);
    case ManyVersions(jobs) => JobsAreDisciplined(jobs);
    case BlobSweep(blobs) => BlobSweepIsDisciplined(blobs);
    case Scheduled(cleanup, jobs) => CleanupIsDisciplined(Take(cleanup), cleanup, jobs);
    case Manual(cleanup, jobs) => CleanupIsDisciplined(Try(cleanup), cleanup, jobs);
  }

  /** Without the sorting, two tasks that share two locks can wait for each other. */
  lemma UnsortedTasksCanDeadlock(a: Lock, b: Lock)
    requires a != b
    ensures var s: Sys := map[0 := Task({}, [Take(a), Take(b)]), 1 := Task({}, [Take(b), Take(a)])];
      Runs(s, [Step(0), Step(1)]) &&
      var s' := After(s, [Step(0), Step(1)]); s'[0].rest != [] && !CanStep(s', 0) && !CanStep(s', 1)
  {
    var s: Sys := map[0 := Task({}, [Take(a), Take(b)]), 1 := Task({}, [Take(b), Take(a)])];
    var s1: Sys := s[0 := Task({a}, [Take(b)])];
    var s2: Sys := s1[1 := Task({b}, [Take(a)])];
    assert {} + {a} == {a} && {} + {b} == {b};
    assert [Take(a), Take(b)][1..] == [Take(b)] && [Take(b), Take(a)][1..] == [Take(a)];
    assert CanStep(s, 0) && Do(s, Step(0)) == s1;
    assert CanStep(s1, 1) && Do(s1, Step(1)) == s2;
    assert [Step(0), Step(1)][1..] == [Step(1)] && [Step(1)][1..] == [];
    assert a in s2[0].held && b in s2[1].held;
  }
}
