/** The running server: any number of tasks over one store, interleaved call by
    call under the version and blob locks, with administrators changing flags at
    any moment and without a lock. */
module Server {
  import opened Options
  import opened Store
  import opened Operations

  datatype Task = Task(job: Job, pc: Pc) {
    predicate Fits() { PcFits(job, pc) }

    predicate Finished() { pc.Done? }

    /** The version lock it holds. */
    function Version(): Option<Ver> {
      if pc.Start? || pc.Done? || job.SweepBlob? then None else Some(job.ver)
    }

    /** The blob lock it holds. */
    function BlobLock(): Option<Blob> {
      match pc
      case Freeing(FreeCount(b), _, _) => Some(b)
      case Freeing(FreeBlob(b), _, _) => Some(b)
      case Erasing(EraseCount(b, _, _), _) => Some(b)
      case Erasing(EraseBlob(b, _, _), _) => Some(b)
      case Attaching(a) =>
        if job.Attach? && (a.AttachStore? || a.AttachRecord? || a.AttachUndoCount? || a.AttachUndoBlob?) then Some(job.blob)
        else None
      case _ => None
    }

    /** The version lock the next step waits for. */
    function WantsVersion(): Option<Ver> {
      if pc.Start? && !job.SweepBlob? then Some(job.ver) else None
    }

    /** The blob lock the next step waits for. */
    function WantsBlob(): Option<Blob> {
      match pc
      case Start => if job.SweepBlob? then Some(job.blob) else None
      case Freeing(FreeWait(b), _, _) => Some(b)
      case Erasing(EraseWait(b, _, _), _) => Some(b)
      case Attaching(AttachWait) => if job.Attach? then Some(job.blob) else None
      case _ => None
    }

    /** A loop takes one of the blobs that are left. */
    predicate Picks(b: Blob) {
      match pc
      case Freeing(FreeNext, left, _) => left == {} || b in left
      case Erasing(EraseNext(_, todo), _) => todo == {} || b in todo
      case _ => true
    }
  }

  datatype Flag = SetListed(on: bool) | SetEnabled(on: bool) | SetPinned(on: bool) | Approve {
    function Apply(m: Member): Member {
      match this
      case SetListed(on) => m.(listed := on)
      case SetEnabled(on) => m.(enabled := on)
      case SetPinned(on) => m.(pinned := on)
      case Approve => m.(pending := false)
    }
  }

  datatype Sys = Sys(w: World, tasks: map<nat, Task>) {
    predicate VersionFree(v: Ver) { forall i :: i in tasks ==> tasks[i].Version() != Some(v) }

    predicate BlobFree(b: Blob) { forall i :: i in tasks ==> tasks[i].BlobLock() != Some(b) }

    /** Whether task `i` can make its next call now. */
    predicate CanStep(i: nat) {
      i in tasks && !tasks[i].Finished() && tasks[i].Fits() &&
      (tasks[i].WantsVersion().Some? ==> VersionFree(tasks[i].WantsVersion().value)) &&
      (tasks[i].WantsBlob().Some? ==> BlobFree(tasks[i].WantsBlob().value))
    }
  }

  datatype Action =
    | Spawn(id: nat, job: Job)
    | Step(id: nat, choice: Choice)
    | SetFlag(feed: Feed, ver: Ver, flag: Flag)

  predicate Possible(s: Sys, a: Action) {
    match a
    case Spawn(i, _) => i !in s.tasks
    case Step(i, c) => s.CanStep(i) && s.tasks[i].Picks(c.pick)
    case SetFlag(f, v, _) => f in s.w.At(v).members
  }

  function Do(s: Sys, a: Action): Sys
    requires Possible(s, a)
  {
    match a
    case Spawn(i, job) => s.(tasks := s.tasks[i := Task(job, Start)])
    case Step(i, c) =>
      var t := s.tasks[i];
      var (w, pc) := Exec(s.w, t.job, t.pc, c);
      Sys(w, s.tasks[i := Task(t.job, pc)])
    case SetFlag(f, v, flag) =>
      var x := s.w.At(v);
      s.(w := s.w.Put(v, x.(members := x.members[f := flag.Apply(x.members[f])])))
  }

  /** Every action of the run is possible when it is taken. */
  predicate Runs(s: Sys, run: seq<Action>)
    decreases |run|
  {
    run == [] || (Possible(s, run[0]) && Runs(Do(s, run[0]), run[1..]))
  }

  function After(s: Sys, run: seq<Action>): Sys
    requires Runs(s, run)
    decreases |run|
  {
    if run == [] then s else After(Do(s, run[0]), run[1..])
  }

  const Fresh: Sys := Sys(World(map[], {}), map[])

  /** A run one action longer. */
  lemma {:induction false} Extend(s: Sys, run: seq<Action>, a: Action)
    requires Runs(s, run) && Possible(After(s, run), a)
    ensures Runs(s, run + [a]) && After(s, run + [a]) == Do(After(s, run), a)
    decreases |run|
  {
    if run == [] {
      assert [a][1..] == [] && Runs(Do(s, a), []);
    } else {
      Extend(Do(s, run[0]), run[1..], a);
      assert (run + [a])[1..] == run[1..] + [a];
    }
  }
}
