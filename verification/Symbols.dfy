/** Symbol packages: which version owns a symbol file, and what bytes are served for
    it, while pushes and purges of different versions run side by side. */
module Symbols {
  import opened Options

  datatype Ver = Ver(lowerId: string, normalized: string)
  /** The lookup key and file name, folded as the lock and the table fold them. */
  datatype Key = Key(ssqp: string, file: string)
  datatype Pdb = Pdb(sha256: string)
  datatype Item = Item(key: Key, pdb: Pdb)

  /** `unreleased` are the claims that an undo logged it could not take back. Two history
      variables: `verified` is what each version's pushes have matched to an assembly of
      that version, and `claims` what the push that last claimed a key had matched to it. */
  datatype Store = Store(
    rows: map<Key, Ver>,
    bytes: map<Key, Pdb>,
    unreleased: set<Key>,
    verified: set<(Ver, Item)>,
    claims: map<Key, Pdb>)

  datatype Plan = Claim | Restore | Unchanged

  predicate DistinctKeys(items: seq<Item>) {
    forall i, j :: 0 <= i < j < |items| ==> items[i].key != items[j].key
  }

  datatype Job =
    | PushSymbols(ver: Ver, items: seq<Item>)
    | PurgeSymbols(ver: Ver)

  datatype Pc =
    | Start
    | Done
      // A push, under its version's lock.
    | Verify
    | Lock(n: nat)
    | FindRow(plans: seq<Plan>)
    | FindBytes(plans: seq<Plan>, owner: Ver)
    | ClaimRow(at: nat, plans: seq<Plan>, claimed: seq<Key>)
    | StoreBytes(at: nat, plans: seq<Plan>, claimed: seq<Key>)
    | StorePackage(claimed: seq<Key>)
    | UndoRow(left: seq<Key>, locked: bool)
    | UndoBytes(key: Key, left: seq<Key>, locked: bool)
      // A purge, under its version's lock and no key's.
    | FindOwned
    | DropBytes(owned: set<Key>)
    | DropRows

  datatype Task = Task(job: Job, pc: Pc) {
    predicate Fits() {
      (pc.Start? || pc.Done? || (job.PurgeSymbols? <==> pc.FindOwned? || pc.DropBytes? || pc.DropRows?)) &&
      (job.PushSymbols? ==> DistinctKeys(job.items) && FitsPush(|job.items|))
    }

    predicate FitsPush(count: nat) {
      match pc
      case Lock(n) => n <= count
      case FindRow(plans) => |plans| <= count
      case FindBytes(plans, _) => |plans| < count
      case ClaimRow(at, plans, _) => at <= count == |plans|
      case StoreBytes(at, plans, _) => at < count == |plans|
      case _ => true
    }

    function Version(): Option<Ver> { if pc.Start? || pc.Done? then None else Some(job.ver) }

    /** How many of its keys, in their order, the push has locked. */
    function Locked(): nat
      requires Fits() && job.PushSymbols?
    {
      match pc
      case Lock(n) => n
      case FindRow(_) => |job.items|
      case FindBytes(_, _) => |job.items|
      case ClaimRow(_, _, _) => |job.items|
      case StoreBytes(_, _, _) => |job.items|
      case UndoRow(_, locked) => if locked then |job.items| else 0
      case UndoBytes(_, _, locked) => if locked then |job.items| else 0
      case _ => 0
    }

    predicate Holds(k: Key)
      requires Fits()
    {
      job.PushSymbols? && exists i :: 0 <= i < Locked() && job.items[i].key == k
    }
  }

  datatype Choice = Choice(ok: bool, pick: Key)

  function PlanFor(s: Store, ver: Ver, item: Item, owner: Ver): Option<Plan> {
    if owner.lowerId != ver.lowerId then None
    else if item.key in s.bytes then (if s.bytes[item.key] == item.pdb then Some(Unchanged) else None)
    else if owner == ver then Some(Restore)
    else None
  }

  function Exec(s: Store, t: Task, c: Choice): (Store, Pc)
    requires t.Fits()
  {
    var ver := t.job.ver;
    match t.pc
    case Start => (s, if t.job.PushSymbols? then Verify else FindOwned)
    case Done => (s, Done)
    case Verify =>
      if c.ok then (s.(verified := s.verified + set x | x in t.job.items :: (ver, x)), Lock(0))
      else (s, Done)
    case Lock(n) => (s, if n < |t.job.items| then Lock(n + 1) else FindRow([]))
    case FindRow(plans) =>
      (s, if |plans| == |t.job.items| then ClaimRow(0, plans, [])
          else if !c.ok then Done
          else if t.job.items[|plans|].key in s.rows then FindBytes(plans, s.rows[t.job.items[|plans|].key])
          else FindRow(plans + [Claim]))
    case FindBytes(plans, owner) =>
      var plan := PlanFor(s, ver, t.job.items[|plans|], owner);
      (s, if !c.ok || plan.None? then Done else FindRow(plans + [plan.value]))
    case ClaimRow(i, plans, claimed) =>
      if i == |t.job.items| then (s, StorePackage(claimed))
      else if plans[i].Unchanged? then (s, ClaimRow(i + 1, plans, claimed))
      else if plans[i].Restore? then (s, StoreBytes(i, plans, claimed))
      else if c.ok && t.job.items[i].key !in s.rows
      then
        var Item(k, pdb) := t.job.items[i];
        (s.(rows := s.rows[k := ver], claims := s.claims[k := pdb]), StoreBytes(i, plans, claimed + [k]))
      else (s, UndoRow(claimed, true))
    case StoreBytes(i, plans, claimed) =>
      if c.ok then (s.(bytes := s.bytes[t.job.items[i].key := t.job.items[i].pdb]), ClaimRow(i + 1, plans, claimed))
      else (s, UndoRow(claimed, true))
    case StorePackage(claimed) => (s, if c.ok then Done else UndoRow(claimed, false))
    case UndoRow(left, locked) =>
      if left == [] then (s, Done)
      else (if c.ok then s.(rows := s.rows - {left[0]}, unreleased := s.unreleased - {left[0]})
            else s.(unreleased := s.unreleased + {left[0]}),
            UndoBytes(left[0], left[1..], locked))
    case UndoBytes(k, left, locked) =>
      (if c.ok then s.(bytes := s.bytes - {k}) else s, UndoRow(left, locked))
    case FindOwned => (s, if c.ok then DropBytes(set k | k in s.rows && s.rows[k] == ver) else Done)
    case DropBytes(owned) =>
      if c.pick in owned
      then (if c.ok then (s.(bytes := s.bytes - {c.pick}), DropBytes(owned - {c.pick})) else (s, Done))
      else (s, DropRows)
    case DropRows =>
      if c.ok
      then
        var gone := set k | k in s.rows && s.rows[k] == ver;
        (s.(rows := s.rows - gone, unreleased := s.unreleased - gone), Done)
      else (s, Done)
  }

  datatype Sys = Sys(s: Store, tasks: map<nat, Task>) {
    predicate VersionFree(v: Ver) { forall i :: i in tasks ==> tasks[i].Version() != Some(v) }

    predicate KeyFree(k: Key) { forall i :: i in tasks && tasks[i].Fits() ==> !tasks[i].Holds(k) }

    predicate CanStep(i: nat) {
      i in tasks && tasks[i].Fits() && !tasks[i].pc.Done? &&
      (tasks[i].pc.Start? ==> VersionFree(tasks[i].job.ver)) &&
      (tasks[i].pc.Lock? && tasks[i].pc.n < |tasks[i].job.items| ==> KeyFree(tasks[i].job.items[tasks[i].pc.n].key))
    }
  }

  datatype Action = Spawn(id: nat, job: Job) | Step(id: nat, choice: Choice)

  predicate Possible(s: Sys, a: Action) {
    match a
    case Spawn(i, job) => i !in s.tasks && (job.PushSymbols? ==> DistinctKeys(job.items))
    case Step(i, c) => s.CanStep(i) && (s.tasks[i].pc.DropBytes? ==> c.pick in s.tasks[i].pc.owned || s.tasks[i].pc.owned == {})
  }

  function Do(s: Sys, a: Action): Sys
    requires Possible(s, a)
  {
    match a
    case Spawn(i, job) => s.(tasks := s.tasks[i := Task(job, Start)])
    case Step(i, c) =>
      var (store, pc) := Exec(s.s, s.tasks[i], c);
      Sys(store, s.tasks[i := Task(s.tasks[i].job, pc)])
  }

  predicate Runs(s: Sys, run: seq<Action>)
    decreases |run|
  {
    run == [] || (Possible(s, run[0]) && Runs(Do(s, run[0]), run[1..]))
  }

  function After(s: Sys, run: seq<Action>): Sys
    requires Runs(s, run)
    decreases |run|
  {
    if run == [] then s else After(Do(s, run[0]), run[1..])
  }

  const Fresh: Sys := Sys(Store(map[], map[], {}, {}, map[]), map[])

  // ---- Invariants ----

  /** Claims not yet made are for keys nobody owns; bytes to put back are missing. */
  predicate Pending(s: Store, ver: Ver, item: Item, plan: Plan) {
    (plan.Claim? ==> item.key !in s.rows) &&
    (plan.Restore? ==> item.key in s.rows && s.rows[item.key] == ver && item.key !in s.bytes)
  }

  predicate OwnedAll(s: Store, ver: Ver, keys: seq<Key>) {
    forall i :: 0 <= i < |keys| ==> keys[i] in s.rows && s.rows[keys[i]] == ver
  }

  predicate NoRepeats(keys: seq<Key>) { forall i, j :: 0 <= i < j < |keys| ==> keys[i] != keys[j] }

  predicate Knows(s: Store, t: Task)
    requires t.Fits()
  {
    var ver := t.job.ver;
    (t.job.PushSymbols? && !t.pc.Start? && !t.pc.Done? && !t.pc.Verify? ==>
      forall i :: 0 <= i < |t.job.items| ==> (ver, t.job.items[i]) in s.verified) &&
    match t.pc
    case FindRow(plans) => forall i :: 0 <= i < |plans| ==> Pending(s, ver, t.job.items[i], plans[i])
    case FindBytes(plans, owner) =>
      (forall i :: 0 <= i < |plans| ==> Pending(s, ver, t.job.items[i], plans[i])) &&
      (owner == ver ==> t.job.items[|plans|].key in s.rows && s.rows[t.job.items[|plans|].key] == ver)
    case ClaimRow(at, plans, claimed) =>
      (forall i :: at <= i < |plans| ==> Pending(s, ver, t.job.items[i], plans[i])) && OwnedAll(s, ver, claimed) && NoRepeats(claimed)
    case StoreBytes(at, plans, claimed) =>
      (forall i :: at < i < |plans| ==> Pending(s, ver, t.job.items[i], plans[i])) && OwnedAll(s, ver, claimed) && NoRepeats(claimed) &&
      t.job.items[at].key in s.rows && s.rows[t.job.items[at].key] == ver &&
      (plans[at].Claim? ==> t.job.items[at].key in claimed) && (!plans[at].Claim? ==> t.job.items[at].key !in s.bytes)
    case StorePackage(claimed) => OwnedAll(s, ver, claimed) && NoRepeats(claimed)
    case UndoRow(left, _) => OwnedAll(s, ver, left) && NoRepeats(left)
    case UndoBytes(k, left, _) => OwnedAll(s, ver, left) && NoRepeats(left) && k !in left
    case _ => true
  }

  /** The task has claimed the key and not yet settled what is stored under it. */
  predicate Settling(t: Task, k: Key) {
    (t.pc.StoreBytes? && t.job.PushSymbols? && t.pc.at < |t.job.items| && t.job.items[t.pc.at].key == k) ||
    (t.pc.UndoRow? && k in t.pc.left) || (t.pc.UndoBytes? && k in t.pc.left)
  }

  ghost predicate SomeSettling(s: Sys, k: Key) {
    exists i :: i in s.tasks && Settling(s.tasks[i], k)
  }

  /** Bytes under a row were verified by a push of the version that owns it. */
  predicate Trusted(s: Store, k: Key) {
    k in s.rows && k in s.bytes && k !in s.unreleased ==> (s.rows[k], Item(k, s.bytes[k])) in s.verified
  }

  ghost predicate Informed(s: Sys) {
    forall i :: i in s.tasks ==> s.tasks[i].Fits() && Knows(s.s, s.tasks[i])
  }

  /** A row's claimer had verified the file it claimed the key for. */
  predicate ClaimsAreVerified(s: Store) {
    forall k :: k in s.rows ==> k in s.claims && (s.rows[k], Item(k, s.claims[k])) in s.verified
  }

  predicate Apart(t: Task, u: Task)
    requires t.Fits() && u.Fits()
  {
    (t.Version().Some? ==> t.Version() != u.Version()) &&
    forall i, j :: 0 <= i < (if t.job.PushSymbols? then t.Locked() else 0) && 0 <= j < (if u.job.PushSymbols? then u.Locked() else 0)
      ==> t.job.items[i].key != u.job.items[j].key
  }

  ghost predicate Exclusive(s: Sys)
    requires Informed(s)
  {
    forall i, j :: i in s.tasks && j in s.tasks && i != j ==> Apart(s.tasks[i], s.tasks[j])
  }

  ghost predicate Inv(s: Sys) {
    Informed(s) && Exclusive(s) &&
    (forall k :: Trusted(s.s, k) || SomeSettling(s, k)) &&
    s.s.unreleased <= s.s.rows.Keys && ClaimsAreVerified(s.s)
  }

  /** What a task may change: it claims only keys it has locked and that nobody owns,
      drops only rows of its own version, writes bytes only under a key it has locked
      and owns, and forgets nothing that was verified or claimed. */
  ghost predicate Framed(s: Store, t: Task, s': Store)
    requires t.Fits()
  {
    s.verified <= s'.verified &&
    (forall k :: k in s.rows && k !in s'.rows ==> s.rows[k] == t.job.ver) &&
    (forall k :: k in s.rows && k in s'.rows ==>
      s'.rows[k] == s.rows[k] && (k in s.claims ==> k in s'.claims && s'.claims[k] == s.claims[k])) &&
    (forall k :: k !in s.rows && k in s'.rows ==> t.Holds(k) && s'.rows[k] == t.job.ver) &&
    (forall k :: k in s'.bytes && (k !in s.bytes || s.bytes[k] != s'.bytes[k]) ==> t.Holds(k))
  }

  lemma DecidingStep(s: Store, t: Task, c: Choice)
    requires t.Fits() && Knows(s, t)
    requires !t.pc.ClaimRow? && !t.pc.StoreBytes? && !t.pc.UndoRow? && !t.pc.UndoBytes?
    ensures var (s', pc') := Exec(s, t, c); Task(t.job, pc').Fits() && Knows(s', Task(t.job, pc'))
  {
  }

  lemma WritingStep(s: Store, t: Task, c: Choice)
    requires t.Fits() && Knows(s, t)
    requires t.pc.ClaimRow? || t.pc.StoreBytes?
    ensures var (s', pc') := Exec(s, t, c); Task(t.job, pc').Fits() && Knows(s', Task(t.job, pc'))
  {
    if t.pc.at < |t.job.items| {
      forall i | t.pc.at < i < |t.job.items| ensures t.job.items[i].key != t.job.items[t.pc.at].key {}
    }
  }

  lemma UndoingStep(s: Store, t: Task, c: Choice)
    requires t.Fits() && Knows(s, t)
    requires t.pc.UndoRow? || t.pc.UndoBytes?
    ensures var (s', pc') := Exec(s, t, c); Task(t.job, pc').Fits() && Knows(s', Task(t.job, pc'))
  {
    if t.pc.UndoRow? && t.pc.left != [] {
      assert forall i :: 0 <= i < |t.pc.left[1..]| ==> t.pc.left[1..][i] == t.pc.left[i + 1];
    }
  }

  lemma OwnStep(s: Store, t: Task, c: Choice)
    requires t.Fits() && Knows(s, t)
    ensures var (s', pc') := Exec(s, t, c); Task(t.job, pc').Fits() && Knows(s', Task(t.job, pc'))
  {
    if t.pc.ClaimRow? || t.pc.StoreBytes? {
      WritingStep(s, t, c);
    } else if t.pc.UndoRow? || t.pc.UndoBytes? {
      UndoingStep(s, t, c);
    } else {
      DecidingStep(s, t, c);
    }
  }

  lemma StepFrame(s: Store, t: Task, c: Choice)
    requires t.Fits() && Knows(s, t)
    ensures Framed(s, t, Exec(s, t, c).0)
  {
    if (t.pc.ClaimRow? && t.pc.at < |t.job.items|) || t.pc.StoreBytes? {
      assert t.Holds(t.job.items[t.pc.at].key);
    }
  }

  lemma OthersKnow(s: Store, t: Task, s': Store, u: Task)
    requires t.Fits() && u.Fits() && Framed(s, t, s') && Knows(s, u) && Apart(t, u)
    requires t.job.ver != u.job.ver || u.Version().None?
    ensures Knows(s', u)
  {
    if u.job.PushSymbols? {
      forall i | 0 <= i < u.Locked() ensures !t.Holds(u.job.items[i].key) {}
    }
  }

  /** The one lock a step takes was free. */
  lemma StaysApart(s: Store, t: Task, c: Choice, u: Task)
    requires t.Fits() && u.Fits() && Knows(s, t) && Apart(t, u) && Apart(u, t)
    requires t.pc.Start? ==> u.Version() != Some(t.job.ver)
    requires t.pc.Lock? && t.pc.n < |t.job.items| ==> !u.Holds(t.job.items[t.pc.n].key)
    requires Task(t.job, Exec(s, t, c).1).Fits()
    ensures var t' := Task(t.job, Exec(s, t, c).1); Apart(t', u) && Apart(u, t')
  {
    if t.pc.Lock? && t.pc.n < |t.job.items| && t.job.PushSymbols? && u.job.PushSymbols? {
      forall m | 0 <= m < u.Locked() ensures u.job.items[m].key != t.job.items[t.pc.n].key {
        assert u.Holds(u.job.items[m].key);
      }
    }
  }

  lemma SettledStep(s: Store, t: Task, c: Choice, k: Key)
    requires t.Fits() && Knows(s, t) && (Trusted(s, k) || Settling(t, k))
    ensures var (s', pc') := Exec(s, t, c); Trusted(s', k) || Settling(Task(t.job, pc'), k)
  {
    var (s', pc') := Exec(s, t, c);
    if t.pc.StoreBytes? && c.ok && t.job.items[t.pc.at].key == k {
      assert t.job.items[t.pc.at] == Item(k, s'.bytes[k]);
    }
  }

  lemma ClaimsStayVerified(s: Store, t: Task, c: Choice)
    requires t.Fits() && Knows(s, t) && ClaimsAreVerified(s)
    ensures ClaimsAreVerified(Exec(s, t, c).0)
  {
    if t.pc.ClaimRow? && t.pc.at < |t.job.items| {
      assert t.job.items[t.pc.at] == Item(t.job.items[t.pc.at].key, t.job.items[t.pc.at].pdb);
    }
  }

  lemma UnreleasedAreOwned(s: Store, t: Task, c: Choice)
    requires t.Fits() && Knows(s, t) && s.unreleased <= s.rows.Keys
    ensures Exec(s, t, c).0.unreleased <= Exec(s, t, c).0.rows.Keys
  {
  }

  lemma LocksStayApart(s: Sys, i: nat, c: Choice)
    requires Inv(s) && Possible(s, Step(i, c)) && Informed(Do(s, Step(i, c)))
    ensures Exclusive(Do(s, Step(i, c)))
  {
    var t, s' := s.tasks[i], Do(s, Step(i, c));
    forall j | j in s.tasks && j != i ensures Apart(s'.tasks[i], s.tasks[j]) && Apart(s.tasks[j], s'.tasks[i]) {
      assert Apart(t, s.tasks[j]) && Apart(s.tasks[j], t);
      StaysApart(s.s, t, c, s.tasks[j]);
    }
  }

  lemma StayInformed(s: Sys, i: nat, c: Choice)
    requires Inv(s) && Possible(s, Step(i, c))
    ensures Informed(Do(s, Step(i, c)))
  {
    var t, s' := s.tasks[i], Do(s, Step(i, c));
    OwnStep(s.s, t, c);
    StepFrame(s.s, t, c);
    forall j | j in s.tasks && j != i ensures Knows(s'.s, s.tasks[j]) {
      assert Apart(t, s.tasks[j]) && Apart(s.tasks[j], t);
      OthersKnow(s.s, t, s'.s, s.tasks[j]);
    }
  }

  lemma StepKeeps(s: Sys, i: nat, c: Choice)
    requires Inv(s) && Possible(s, Step(i, c))
    ensures Inv(Do(s, Step(i, c)))
  {
    var t, s' := s.tasks[i], Do(s, Step(i, c));
    StayInformed(s, i, c);
    LocksStayApart(s, i, c);
    UnreleasedAreOwned(s.s, t, c);
    ClaimsStayVerified(s.s, t, c);
    forall k ensures Trusted(s'.s, k) || SomeSettling(s', k) {
      if j :| j in s.tasks && j != i && Settling(s.tasks[j], k) {
        assert Settling(s'.tasks[j], k);
      } else {
        assert SomeSettling(s, k) ==> Settling(t, k);
        SettledStep(s.s, t, c, k);
        assert Settling(s'.tasks[i], k) ==> SomeSettling(s', k);
      }
    }
  }

  lemma SpawnKeeps(s: Sys, i: nat, job: Job)
    requires Inv(s) && Possible(s, Spawn(i, job))
    ensures Inv(Do(s, Spawn(i, job)))
  {
    var s' := Do(s, Spawn(i, job));
    forall k ensures Trusted(s'.s, k) || SomeSettling(s', k) {
      if j :| j in s.tasks && Settling(s.tasks[j], k) {
        assert Settling(s'.tasks[j], k);
      }
    }
  }

  lemma DoKeeps(s: Sys, a: Action)
    requires Inv(s) && Possible(s, a)
    ensures Inv(Do(s, a))
  {
    match a
    case Spawn(i, job) => SpawnKeeps(s, i, job);
    case Step(i, c) => StepKeeps(s, i, c);
  }

  lemma {:induction false} RunKeeps(s: Sys, run: seq<Action>)
    requires Inv(s) && Runs(s, run)
    ensures Inv(After(s, run))
    decreases |run|
  {
    if run != [] {
      DoKeeps(s, run[0]);
      RunKeeps(Do(s, run[0]), run[1..]);
    }
  }
}
