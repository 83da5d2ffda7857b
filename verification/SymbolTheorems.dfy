/** What holds of symbol files in every interleaving of symbol pushes and purges,
    whichever calls fail. */
module SymbolTheorems {
  import opened Options
  import opened Symbols

  lemma OnlyAVerifiedFileIsClaimed(s: Store, t: Task, c: Choice, k: Key)
    requires t.Fits() && Knows(s, t) && k !in s.rows && k in Exec(s, t, c).0.rows
    ensures t.job.PushSymbols? && exists f :: (t.job.ver, Item(k, f)) in s.verified
  {
    assert t.pc.ClaimRow?;
    assert t.job.items[t.pc.at] == Item(k, t.job.items[t.pc.at].pdb);
  }

  /** A row keeps its owner until a task of that owner drops it; it is created by a
      push that has its key locked, for that push's version, for a file the push
      has verified. */
  lemma ARowKeepsItsOwner(run: seq<Action>, a: Action, k: Key)
    requires Runs(Fresh, run) && Possible(Symbols.After(Fresh, run), a)
    ensures var s, s' := Symbols.After(Fresh, run), Do(Symbols.After(Fresh, run), a);
      (k in s.s.rows && k in s'.s.rows ==> s'.s.rows[k] == s.s.rows[k]) &&
      (k in s.s.rows && k !in s'.s.rows ==> a.Step? && s.tasks[a.id].job.ver == s.s.rows[k]) &&
      (k !in s.s.rows && k in s'.s.rows ==>
        a.Step? && s.tasks[a.id].Fits() && s.tasks[a.id].Holds(k) && s'.s.rows[k] == s.tasks[a.id].job.ver &&
        exists f :: (s'.s.rows[k], Item(k, f)) in s.s.verified)
  {
    RunKeeps(Fresh, run);
    var s := Symbols.After(Fresh, run);
    if a.Step? {
      StepFrame(s.s, s.tasks[a.id], a.choice);
      if k !in s.s.rows && k in Do(s, a).s.rows {
        OnlyAVerifiedFileIsClaimed(s.s, s.tasks[a.id], a.choice, k);
      }
    }
  }

  /** The row is there before and after every action of the run. */
  predicate Stays(s: Sys, run: seq<Action>, k: Key)
    requires Runs(s, run)
    decreases |run|
  {
    k in s.s.rows && (run == [] || Stays(Do(s, run[0]), run[1..], k))
  }

  lemma StepLeavesOwner(s: Sys, a: Action, k: Key)
    requires Inv(s) && Possible(s, a) && k in s.s.rows && k in Do(s, a).s.rows
    ensures Do(s, a).s.rows[k] == s.s.rows[k] && k in s.s.claims && k in Do(s, a).s.claims && Do(s, a).s.claims[k] == s.s.claims[k]
  {
    if a.Step? {
      StepFrame(s.s, s.tasks[a.id], a.choice);
    }
  }

  lemma {:induction false} OneOwner(s: Sys, run: seq<Action>, k: Key)
    requires Inv(s) && Runs(s, run) && Stays(s, run, k)
    ensures var s' := Symbols.After(s, run);
      k in s'.s.rows && s'.s.rows[k] == s.s.rows[k] &&
      k in s.s.claims && k in s'.s.claims && s'.s.claims[k] == s.s.claims[k]
    decreases |run|
  {
    if run != [] {
      DoKeeps(s, run[0]);
      StepLeavesOwner(s, run[0], k);
      OneOwner(Do(s, run[0]), run[1..], k);
    }
  }

  /** From claim to deletion a row has one owner and one file it was claimed for. */
  lemma OneOwnerFromClaimToDeletion(before: seq<Action>, run: seq<Action>, k: Key)
    requires Runs(Fresh, before) && Runs(Symbols.After(Fresh, before), run) && Stays(Symbols.After(Fresh, before), run, k)
    ensures var s, s' := Symbols.After(Fresh, before), Symbols.After(Symbols.After(Fresh, before), run);
      k in s'.s.rows && s'.s.rows[k] == s.s.rows[k] &&
      k in s.s.claims && k in s'.s.claims && s'.s.claims[k] == s.s.claims[k]
  {
    RunKeeps(Fresh, before);
    OneOwner(Symbols.After(Fresh, before), run, k);
  }

  /** Once nobody is settling a key, and no undo logged that it could not take the
      claim back, what is served under it was verified for the version that owns
      the row. */
  lemma ServedBytesWereVerified(run: seq<Action>, k: Key)
    requires Runs(Fresh, run)
    ensures var s := Symbols.After(Fresh, run);
      k in s.s.rows && k in s.s.bytes && k !in s.s.unreleased && !SomeSettling(s, k)
      ==> (s.s.rows[k], Item(k, s.s.bytes[k])) in s.s.verified
  {
    RunKeeps(Fresh, run);
    assert Trusted(Symbols.After(Fresh, run).s, k) || SomeSettling(Symbols.After(Fresh, run), k);
  }

  /** Published bytes may be deleted but are never replaced by others. */
  lemma PublishedBytesNeverChange(run: seq<Action>, a: Action, k: Key)
    requires Runs(Fresh, run) && Possible(Symbols.After(Fresh, run), a)
    ensures var s, s' := Symbols.After(Fresh, run), Do(Symbols.After(Fresh, run), a);
      k in s.s.rows && k in s.s.bytes && k in s'.s.bytes && !SomeSettling(s, k)
      ==> s'.s.bytes[k] == s.s.bytes[k]
  {
    RunKeeps(Fresh, run);
    if a.Step? {
      var s := Symbols.After(Fresh, run);
      assert Settling(s.tasks[a.id], k) ==> SomeSettling(s, k);
    }
  }

  /** The version's pushes never verify two different files for the key. */
  ghost predicate OneFile(s: Store, ver: Ver, k: Key) {
    forall x, y :: (ver, x) in s.verified && (ver, y) in s.verified && x.key == k == y.key ==> x.pdb == y.pdb
  }

  /** Then what is served is exactly what each of them verified, the claimer included. */
  lemma ServedBytesAreTheClaimers(run: seq<Action>, k: Key)
    requires Runs(Fresh, run)
    ensures var s := Symbols.After(Fresh, run).s;
      k in s.rows && k in s.bytes && k !in s.unreleased && !SomeSettling(Symbols.After(Fresh, run), k) && OneFile(s, s.rows[k], k)
      ==> k in s.claims && s.bytes[k] == s.claims[k] && forall x :: (s.rows[k], x) in s.verified && x.key == k ==> s.bytes[k] == x.pdb
  {
    RunKeeps(Fresh, run);
    ServedBytesWereVerified(run, k);
    var s := Symbols.After(Fresh, run).s;
    if k in s.rows && k in s.bytes {
      assert ClaimsAreVerified(s);
    }
  }

  // ---- Exactly when the claimer's bytes are served ----

  lemma {:induction false} Extend(s: Sys, run: seq<Action>, a: Action)
    requires Runs(s, run) && Possible(Symbols.After(s, run), a)
    ensures Runs(s, run + [a]) && Symbols.After(s, run + [a]) == Do(Symbols.After(s, run), a)
    decreases |run|
  {
    if run == [] {
      assert [a][1..] == [] && Runs(Do(s, a), []);
    } else {
      Extend(Do(s, run[0]), run[1..], a);
      assert (run + [a])[1..] == run[1..] + [a];
    }
  }

  /** What the job's push may verify. */
  predicate Confined(job: Job, may: iset<(Ver, Item)>) {
    job.PushSymbols? ==> forall x :: x in job.items ==> (job.ver, x) in may
  }

  predicate Allowed(a: Action, may: iset<(Ver, Item)>) { a.Spawn? ==> Confined(a.job, may) }

  /** No push of the run is of anything but these files of these versions. */
  predicate RunWithin(run: seq<Action>, may: iset<(Ver, Item)>) { forall a :: a in run ==> Allowed(a, may) }

  ghost predicate Within(s: Sys, may: iset<(Ver, Item)>) {
    (forall i :: i in s.tasks ==> Confined(s.tasks[i].job, may)) &&
    (forall p :: p in s.s.verified ==> p in may) &&
    (forall k :: k in s.s.bytes ==> exists v :: (v, Item(k, s.s.bytes[k])) in may)
  }

  lemma StepStaysWithin(s: Sys, i: nat, c: Choice, may: iset<(Ver, Item)>)
    requires Inv(s) && Possible(s, Step(i, c)) && Within(s, may)
    ensures Within(Do(s, Step(i, c)), may)
  {
    var t, s' := s.tasks[i], Do(s, Step(i, c));
    assert Confined(t.job, may);
    forall k | k in s'.s.bytes ensures exists v :: (v, Item(k, s'.s.bytes[k])) in may {
      if k !in s.s.bytes || s'.s.bytes[k] != s.s.bytes[k] {
        assert t.job.items[t.pc.at] == Item(k, s'.s.bytes[k]);
      }
    }
  }

  lemma {:induction false} RunStaysWithin(s: Sys, run: seq<Action>, may: iset<(Ver, Item)>)
    requires Inv(s) && Runs(s, run) && RunWithin(run, may) && Within(s, may)
    ensures Within(Symbols.After(s, run), may)
    decreases |run|
  {
    if run != [] {
      DoKeeps(s, run[0]);
      assert Allowed(run[0], may);
      if run[0].Step? {
        StepStaysWithin(s, run[0].id, run[0].choice, may);
      }
      RunStaysWithin(Do(s, run[0]), run[1..], may);
    }
  }

  predicate Reaches(run: seq<Action>, s: Sys) { Runs(Fresh, run) && Symbols.After(Fresh, run) == s }

  /** A task that nobody else disturbs. */
  predicate Alone(s: Sys, i: nat, job: Job) {
    i in s.tasks && s.tasks[i].job == job && s.tasks[i].Fits() && Knows(s.s, s.tasks[i]) &&
    forall j :: j in s.tasks && j != i ==> s.tasks[j].pc.Done? && s.tasks[j].Fits()
  }

  predicate AllDone(s: Sys) { forall j :: j in s.tasks ==> s.tasks[j].pc.Done? && s.tasks[j].Fits() }

  predicate Playable(s: Sys, i: nat, job: Job, c: Choice) {
    Alone(s, i, job) && !s.tasks[i].pc.Done? &&
    (s.tasks[i].pc.DropBytes? ==> c.pick in s.tasks[i].pc.owned || s.tasks[i].pc.owned == {})
  }

  /** A run within `may` that leads to `s`. */
  predicate Leads(may: iset<(Ver, Item)>, run: seq<Action>, s: Sys) { Reaches(run, s) && RunWithin(run, may) }

  lemma Play(may: iset<(Ver, Item)>, s: Sys, run: seq<Action>, i: nat, job: Job, ok: bool, k: Key) returns (s': Sys, run': seq<Action>)
    requires Leads(may, run, s) && Playable(s, i, job, Choice(ok, k))
    ensures Leads(may, run', s') && Alone(s', i, job) && s'.tasks.Keys == s.tasks.Keys
    ensures (s'.s, s'.tasks[i].pc) == Exec(s.s, s.tasks[i], Choice(ok, k))
  {
    var a := Step(i, Choice(ok, k));
    OwnStep(s.s, s.tasks[i], a.choice);
    Extend(Fresh, run, a);
    s', run' := Do(s, a), run + [a];
  }

  lemma Spawned(may: iset<(Ver, Item)>, s: Sys, run: seq<Action>, i: nat, job: Job) returns (s': Sys, run': seq<Action>)
    requires Leads(may, run, s) && AllDone(s) && i !in s.tasks && Confined(job, may)
    requires job.PushSymbols? ==> DistinctKeys(job.items)
    ensures Leads(may, run', s') && Alone(s', i, job)
    ensures s'.s == s.s && s'.tasks[i].pc.Start? && s'.tasks.Keys == s.tasks.Keys + {i}
  {
    var a := Spawn(i, job);
    Extend(Fresh, run, a);
    s', run' := Do(s, a), run + [a];
  }

  /** A push of one file that has its key locked. */
  lemma Verified(may: iset<(Ver, Item)>, s: Sys, run: seq<Action>, i: nat, ver: Ver, item: Item) returns (s': Sys, run': seq<Action>)
    requires var job := PushSymbols(ver, [item]); Leads(may, run, s) && Alone(s, i, job) && s.tasks[i].pc.Start?
    ensures var job := PushSymbols(ver, [item]); Leads(may, run', s') && Alone(s', i, job) && s'.tasks.Keys == s.tasks.Keys
    ensures s'.tasks[i].pc == FindRow([]) && s'.s == s.s.(verified := s.s.verified + {(ver, item)})
  {
    var job, k := PushSymbols(ver, [item]), item.key;
    assert (set x | x in [item] :: (ver, x)) == {(ver, item)};
    s', run' := Play(may, s, run, i, job, true, k);
    s', run' := Play(may, s', run', i, job, true, k);
    assert s'.tasks[i].pc == Lock(0);
    s', run' := Play(may, s', run', i, job, true, k);
    s', run' := Play(may, s', run', i, job, true, k);
  }

  /** A push that has decided what to do about its one file. */
  lemma Decided(may: iset<(Ver, Item)>, s: Sys, run: seq<Action>, i: nat, ver: Ver, item: Item, plan: Plan)
    returns (s': Sys, run': seq<Action>)
    requires Leads(may, run, s) && AllDone(s) && i !in s.tasks && (ver, item) in may
    requires if item.key in s.s.rows then s.s.rows[item.key] == ver && item.key !in s.s.bytes && plan.Restore? else plan.Claim?
    ensures var job := PushSymbols(ver, [item]); Leads(may, run', s') && Alone(s', i, job) && s'.tasks.Keys == s.tasks.Keys + {i}
    ensures s'.tasks[i].pc == ClaimRow(0, [plan], []) && s'.s == s.s.(verified := s.s.verified + {(ver, item)})
  {
    var job, k := PushSymbols(ver, [item]), item.key;
    s', run' := Spawned(may, s, run, i, job);
    s', run' := Verified(may, s', run', i, ver, item);
    s', run' := Play(may, s', run', i, job, true, k);
    if plan.Restore? {
      assert s'.tasks[i].pc == FindBytes([], ver);
      s', run' := Play(may, s', run', i, job, true, k);
    }
    assert s'.tasks[i].pc == FindRow([plan]);
    s', run' := Play(may, s', run', i, job, true, k);
  }

  lemma Written(may: iset<(Ver, Item)>, s: Sys, run: seq<Action>, i: nat, ver: Ver, item: Item, plan: Plan)
    returns (s': Sys, run': seq<Action>)
    requires var job := PushSymbols(ver, [item]); Leads(may, run, s) && Alone(s, i, job)
    requires s.tasks[i].pc == StoreBytes(0, [plan], if plan.Claim? then [item.key] else [])
    ensures var job := PushSymbols(ver, [item]); Leads(may, run', s') && Alone(s', i, job) && s'.tasks.Keys == s.tasks.Keys
    ensures s'.tasks[i].pc == StorePackage(if plan.Claim? then [item.key] else [])
    ensures s'.s == s.s.(bytes := s.s.bytes[item.key := item.pdb])
  {
    var job, k := PushSymbols(ver, [item]), item.key;
    s', run' := Play(may, s, run, i, job, true, k);
    assert s'.tasks[i].pc == ClaimRow(1, [plan], if plan.Claim? then [k] else []);
    s', run' := Play(may, s', run', i, job, true, k);
  }

  /** A push that is about to store its one file. */
  lemma Claimed(may: iset<(Ver, Item)>, s: Sys, run: seq<Action>, i: nat, ver: Ver, item: Item, plan: Plan)
    returns (s': Sys, run': seq<Action>)
    requires Leads(may, run, s) && AllDone(s) && i !in s.tasks && (ver, item) in may
    requires if item.key in s.s.rows then s.s.rows[item.key] == ver && item.key !in s.s.bytes && plan.Restore? else plan.Claim?
    ensures var job := PushSymbols(ver, [item]); Leads(may, run', s') && Alone(s', i, job) && s'.tasks.Keys == s.tasks.Keys + {i}
    ensures s'.tasks[i].pc == StoreBytes(0, [plan], if plan.Claim? then [item.key] else [])
    ensures s'.s == Store(s.s.rows[item.key := ver], s.s.bytes, s.s.unreleased, s.s.verified + {(ver, item)},
                          if plan.Claim? then s.s.claims[item.key := item.pdb] else s.s.claims)
  {
    var k := item.key;
    s', run' := Decided(may, s, run, i, ver, item, plan);
    assert [] + [k] == [k];
    assert plan.Restore? ==> s.s.rows[k := ver] == s.s.rows;
    s', run' := Play(may, s', run', i, PushSymbols(ver, [item]), true, k);
  }

  function Stored(s: Store, ver: Ver, item: Item, plan: Plan): Store {
    var Item(k, pdb) := item;
    Store(s.rows[k := ver], s.bytes[k := pdb], s.unreleased, s.verified + {(ver, item)},
          if plan.Claim? then s.claims[k := pdb] else s.claims)
  }

  /** A push that has stored its one file and goes on with its symbol package. */
  lemma FileStored(may: iset<(Ver, Item)>, s: Sys, run: seq<Action>, i: nat, ver: Ver, item: Item, plan: Plan)
    returns (s': Sys, run': seq<Action>)
    requires Leads(may, run, s) && AllDone(s) && i !in s.tasks && (ver, item) in may
    requires if item.key in s.s.rows then s.s.rows[item.key] == ver && item.key !in s.s.bytes && plan.Restore? else plan.Claim?
    ensures var job := PushSymbols(ver, [item]); Leads(may, run', s') && Alone(s', i, job) && s'.tasks.Keys == s.tasks.Keys + {i}
    ensures s'.tasks[i].pc == StorePackage(if plan.Claim? then [item.key] else []) && s'.s == Stored(s.s, ver, item, plan)
  {
    s', run' := Claimed(may, s, run, i, ver, item, plan);
    s', run' := Written(may, s', run', i, ver, item, plan);
  }

  lemma Completed(may: iset<(Ver, Item)>, s: Sys, run: seq<Action>, i: nat, ver: Ver, item: Item, plan: Plan)
    returns (s': Sys, run': seq<Action>)
    requires Leads(may, run, s) && AllDone(s) && i !in s.tasks && (ver, item) in may
    requires if item.key in s.s.rows then s.s.rows[item.key] == ver && item.key !in s.s.bytes && plan.Restore? else plan.Claim?
    ensures Leads(may, run', s') && AllDone(s') && s'.tasks.Keys == s.tasks.Keys + {i} && s'.s == Stored(s.s, ver, item, plan)
  {
    s', run' := FileStored(may, s, run, i, ver, item, plan);
    s', run' := Play(may, s', run', i, PushSymbols(ver, [item]), true, item.key);
  }

  lemma OwnedFound(may: iset<(Ver, Item)>, s: Sys, run: seq<Action>, i: nat, ver: Ver, k: Key)
    returns (s': Sys, run': seq<Action>)
    requires Leads(may, run, s) && AllDone(s) && i !in s.tasks && s.s.rows == map[k := ver]
    ensures Leads(may, run', s') && Alone(s', i, PurgeSymbols(ver)) && s'.tasks.Keys == s.tasks.Keys + {i}
    ensures s'.tasks[i].pc == DropBytes({k}) && s'.s == s.s
  {
    var job := PurgeSymbols(ver);
    s', run' := Spawned(may, s, run, i, job);
    s', run' := Play(may, s', run', i, job, true, k);
    assert (set x | x in s.s.rows && s.s.rows[x] == ver) == {k};
    s', run' := Play(may, s', run', i, job, true, k);
  }

  /** A purge that drops the bytes of its version's one file and then fails to drop the row. */
  lemma BytesDropped(may: iset<(Ver, Item)>, s: Sys, run: seq<Action>, i: nat, ver: Ver, k: Key)
    returns (s': Sys, run': seq<Action>)
    requires Leads(may, run, s) && AllDone(s) && i !in s.tasks && s.s.rows == map[k := ver]
    ensures Leads(may, run', s') && AllDone(s') && s'.tasks.Keys == s.tasks.Keys + {i}
    ensures s'.s == s.s.(bytes := s.s.bytes - {k})
  {
    var job := PurgeSymbols(ver);
    s', run' := OwnedFound(may, s, run, i, ver, k);
    s', run' := Play(may, s', run', i, job, true, k);
    assert s'.tasks[i].pc == DropBytes({});
    s', run' := Play(may, s', run', i, job, true, k);
    s', run' := Play(may, s', run', i, job, false, k);
  }

  /** Two different files that pushes of one version verify for one key, and no claim
      that was not released: the first push claims and stores, a purge drops the bytes
      and fails before the row, and what the second push verified fills the gap. */
  lemma AnotherPushCanFillIn(may: iset<(Ver, Item)>, ver: Ver, first: Item, second: Item) returns (run: seq<Action>)
    requires (ver, first) in may && (ver, second) in may && first.key == second.key && first.pdb != second.pdb
    ensures Runs(Fresh, run) && RunWithin(run, may) && AllDone(Symbols.After(Fresh, run))
    ensures var s, k := Symbols.After(Fresh, run).s, first.key;
      s.rows == map[k := ver] && s.bytes == map[k := second.pdb] && s.claims == map[k := first.pdb] && s.unreleased == {}
  {
    var s;
    s, run := Completed(may, Fresh, [], 0, ver, first, Claim);
    s, run := BytesDropped(may, s, run, 1, ver, first.key);
    s, run := Completed(may, s, run, 2, ver, second, Restore);
  }

  function AfterUndo(s: Store, k: Key, row: bool, bytes: bool): Store {
    Store(
      if row then s.rows - {k} else s.rows,
      if bytes then s.bytes - {k} else s.bytes,
      if row then s.unreleased - {k} else s.unreleased + {k},
      s.verified,
      s.claims)
  }

  /** An undo of one claim, whichever of its two deletions succeed. */
  lemma Undone(may: iset<(Ver, Item)>, s: Sys, run: seq<Action>, i: nat, job: Job, k: Key, locked: bool, row: bool, bytes: bool)
    returns (s': Sys, run': seq<Action>)
    requires Leads(may, run, s) && Alone(s, i, job) && s.tasks[i].pc == UndoRow([k], locked)
    ensures Leads(may, run', s') && AllDone(s') && s'.tasks.Keys == s.tasks.Keys && s'.s == AfterUndo(s.s, k, row, bytes)
  {
    s', run' := Play(may, s, run, i, job, row, k);
    assert s'.tasks[i].pc == UndoBytes(k, [], locked);
    s', run' := Play(may, s', run', i, job, bytes, k);
    assert s'.tasks[i].pc == UndoRow([], locked);
    s', run' := Play(may, s', run', i, job, true, k);
  }

  /** A push that stores its file, cannot store its package, gives its row back and
      cannot delete its bytes. */
  lemma BytesLeft(may: iset<(Ver, Item)>, ver: Ver, item: Item) returns (s: Sys, run: seq<Action>)
    requires (ver, item) in may
    ensures Leads(may, run, s) && AllDone(s) && s.tasks.Keys == {0}
    ensures s.s == Store(map[], map[item.key := item.pdb], {}, {(ver, item)}, map[item.key := item.pdb])
  {
    var job, k := PushSymbols(ver, [item]), item.key;
    s, run := FileStored(may, Fresh, [], 0, ver, item, Claim);
    s, run := Play(may, s, run, 0, job, false, k);
    s, run := Undone(may, s, run, 0, job, k, false, true, false);
  }

  /** A push that claims its file, cannot store it and cannot undo anything. */
  lemma ClaimLeft(may: iset<(Ver, Item)>, s: Sys, run: seq<Action>, i: nat, ver: Ver, item: Item) returns (s': Sys, run': seq<Action>)
    requires Leads(may, run, s) && AllDone(s) && i !in s.tasks && (ver, item) in may && item.key !in s.s.rows
    ensures Leads(may, run', s') && AllDone(s')
    ensures var Item(k, pdb) := item;
      s'.s == Store(s.s.rows[k := ver], s.s.bytes, s.s.unreleased + {k}, s.s.verified + {(ver, item)}, s.s.claims[k := pdb])
  {
    var job, k := PushSymbols(ver, [item]), item.key;
    s', run' := Claimed(may, s, run, i, ver, item, Claim);
    s', run' := Play(may, s', run', i, job, false, k);
    s', run' := Undone(may, s', run', i, job, k, true, false, false);
  }

  /** A claim that its undo could not take back serves another version's bytes, which
      that undo had left behind and which the owner's pushes never verified. */
  lemma AnUnreleasedClaimServesOthers(may: iset<(Ver, Item)>, other: Ver, left: Item, ver: Ver, item: Item)
    returns (run: seq<Action>)
    requires (other, left) in may && (ver, item) in may && left.key == item.key
    ensures Runs(Fresh, run) && RunWithin(run, may) && AllDone(Symbols.After(Fresh, run))
    ensures var s, k := Symbols.After(Fresh, run).s, item.key;
      s.rows == map[k := ver] && s.bytes == map[k := left.pdb] && s.claims == map[k := item.pdb] && s.unreleased == {k}
  {
    var s;
    s, run := BytesLeft(may, other, left);
    s, run := ClaimLeft(may, s, run, 1, ver, item);
  }

  /** In every run, what is served under a row whose claim was not left behind, and which
      nobody is settling, is the file its claimer verified. */
  ghost predicate ServesClaims(may: iset<(Ver, Item)>) {
    forall run, k :: Runs(Fresh, run) && RunWithin(run, may) && Settled(Symbols.After(Fresh, run), k) ==>
      ServesClaim(Symbols.After(Fresh, run).s, k)
  }

  ghost predicate Settled(s: Sys, k: Key) { k !in s.s.unreleased && !SomeSettling(s, k) }

  predicate ServesClaim(s: Store, k: Key) { k in s.rows && k in s.bytes ==> k in s.claims && s.bytes[k] == s.claims[k] }

  /** The same of every row in every state. */
  ghost predicate AlwaysServesClaims(may: iset<(Ver, Item)>) {
    forall run, k :: Runs(Fresh, run) && RunWithin(run, may) ==> ServesClaim(Symbols.After(Fresh, run).s, k)
  }

  ghost predicate OneFilePerVersion(may: iset<(Ver, Item)>) {
    forall p, q :: p in may && q in may && p.0 == q.0 && p.1.key == q.1.key ==> p.1.pdb == q.1.pdb
  }

  ghost predicate OneFilePerKey(may: iset<(Ver, Item)>) {
    forall p, q :: p in may && q in may && p.1.key == q.1.key ==> p.1.pdb == q.1.pdb
  }

  lemma OneFileIsServed(may: iset<(Ver, Item)>, run: seq<Action>, k: Key)
    requires OneFilePerVersion(may) && Runs(Fresh, run) && RunWithin(run, may) && Settled(Symbols.After(Fresh, run), k)
    ensures ServesClaim(Symbols.After(Fresh, run).s, k)
  {
    var s := Symbols.After(Fresh, run);
    RunStaysWithin(Fresh, run, may);
    ServedBytesAreTheClaimers(run, k);
    if k in s.s.rows {
      forall x, y | (s.s.rows[k], x) in s.s.verified && (s.s.rows[k], y) in s.s.verified && x.key == k == y.key
        ensures x.pdb == y.pdb
      {
        assert (s.s.rows[k], x) in may && (s.s.rows[k], y) in may;
      }
    }
  }

  /** Over what a server may ever see pushed: settled rows serve what their claimers
      verified in every run exactly when no version is ever pushed with two different
      files for one key. */
  lemma ClaimsAreServedExactly(may: iset<(Ver, Item)>)
    ensures ServesClaims(may) <==> OneFilePerVersion(may)
  {
    if OneFilePerVersion(may) {
      forall run, k | Runs(Fresh, run) && RunWithin(run, may) && Settled(Symbols.After(Fresh, run), k)
        ensures ServesClaim(Symbols.After(Fresh, run).s, k)
      {
        OneFileIsServed(may, run, k);
      }
    } else {
      var p, q :| p in may && q in may && p.0 == q.0 && p.1.key == q.1.key && p.1.pdb != q.1.pdb;
      var run := AnotherPushCanFillIn(may, p.0, p.1, q.1);
      assert Settled(Symbols.After(Fresh, run), p.1.key) && !ServesClaim(Symbols.After(Fresh, run).s, p.1.key);
    }
  }

  lemma OneFilePerKeyIsServed(may: iset<(Ver, Item)>, run: seq<Action>, k: Key)
    requires OneFilePerKey(may) && Runs(Fresh, run) && RunWithin(run, may)
    ensures ServesClaim(Symbols.After(Fresh, run).s, k)
  {
    var s := Symbols.After(Fresh, run);
    RunKeeps(Fresh, run);
    RunStaysWithin(Fresh, run, may);
    if k in s.s.rows && k in s.s.bytes {
      assert (s.s.rows[k], Item(k, s.s.claims[k])) in may;
    }
  }

  /** With claims that were left behind and keys that are being settled: exactly when
      no two pushes at all differ in the file of a key. */
  lemma ClaimsAreAlwaysServedExactly(may: iset<(Ver, Item)>)
    ensures AlwaysServesClaims(may) <==> OneFilePerKey(may)
  {
    if OneFilePerKey(may) {
      forall run, k | Runs(Fresh, run) && RunWithin(run, may) ensures ServesClaim(Symbols.After(Fresh, run).s, k) {
        OneFilePerKeyIsServed(may, run, k);
      }
    } else {
      var p, q :| p in may && q in may && p.1.key == q.1.key && p.1.pdb != q.1.pdb;
      var run := AnUnreleasedClaimServesOthers(may, p.0, p.1, q.0, q.1);
      assert !ServesClaim(Symbols.After(Fresh, run).s, p.1.key);
    }
  }
}
