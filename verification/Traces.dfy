/** The calls of one operation on its own: what ties the operations that run from their
    first call to their last to the machine that interleaves them. */
module Traces {
  import opened Options
  import opened Store
  import opened Operations
  import opened Server

  lemma PushFits(x: Version, job: Job, p: PushPc, ok: bool)
    requires job.Push?
    ensures PcFits(job, PushStep(x, job, p, ok).1)
  {
  }

  lemma ExecFits(w: World, job: Job, pc: Pc, c: Choice)
    requires PcFits(job, pc)
    ensures PcFits(job, Exec(w, job, pc, c).1)
  {
    if pc.Pushing? {
      PushFits(w.At(job.ver), job, pc.p, c.ok);
    }
  }

  /** One call: from a store and the call to make to the store and the call after it.
      Loops take what is left, and nothing is called after the end. */
  predicate Made(job: Job, before: (World, Pc), c: Choice, after: (World, Pc)) {
    PcFits(job, before.1) && !before.1.Done? && Task(job, before.1).Picks(c.pick) && after == Exec(before.0, job, before.1, c)
  }

  /** The stores and next calls that an operation has gone through, and what its calls
      came to. */
  datatype Trace = Trace(job: Job, states: seq<(World, Pc)>, calls: seq<Choice>) {

    predicate Valid() {
      |states| == |calls| + 1 &&
      forall k {:trigger calls[k]} :: 0 <= k < |calls| ==> Made(job, states[k], calls[k], states[k + 1])
    }

    function Then(c: Choice, after: (World, Pc)): Trace { Trace(job, states + [after], calls + [c]) }

    /** Where it has led to, when it is one. */
    function End(): Option<(World, Pc)> {
      if Valid() && PcFits(job, states[|calls|].1) then Some(states[|calls|]) else None
    }

    function First(): Option<(World, Pc)> { if states == [] then None else Some(states[0]) }
  }

  function Begin(w: World, job: Job, pc: Pc): (t: Trace)
    requires PcFits(job, pc)
    ensures t.End() == t.First() == Some((w, pc))
  {
    Trace(job, [(w, pc)], [])
  }

  lemma ThenAt(t: Trace, w: World, pc: Pc, c: Choice, after: (World, Pc))
    requires t.End() == Some((w, pc)) && Made(t.job, (w, pc), c, after)
    ensures t.Then(c, after).End() == Some(after) && t.Then(c, after).First() == t.First()
  {
    ExecFits(w, t.job, pc, c);
    var t' := t.Then(c, after);
    forall k {:trigger t'.calls[k]} | 0 <= k < |t'.calls| ensures Made(t.job, t'.states[k], t'.calls[k], t'.states[k + 1]) {
      if k < |t.calls| {
        assert t'.calls[k] == t.calls[k];
      }
    }
  }

  // ---- A trace is a run ----

  function StepsOf(i: nat, calls: seq<Choice>): (r: seq<Action>)
    ensures |r| == |calls|
  {
    seq(|calls|, k requires 0 <= k < |calls| => Step(i, calls[k]))
  }

  /** With nobody else at work, the calls of task `i` are a run of the machine. */
  lemma {:induction false} ATraceIsARun(s: Sys, i: nat, t: Trace)
    requires t.Valid() && i in s.tasks && s.tasks[i] == Task(t.job, t.states[0].1) && s.w == t.states[0].0
    requires forall j :: j in s.tasks && j != i ==> s.tasks[j].Finished()
    ensures Runs(s, StepsOf(i, t.calls))
    ensures var (w, pc) := t.states[|t.calls|]; Server.After(s, StepsOf(i, t.calls)) == Sys(w, s.tasks[i := Task(t.job, pc)])
    decreases |t.calls|
  {
    if t.calls == [] {
      assert s.tasks[i := s.tasks[i]] == s.tasks;
    } else {
      var n := |t.calls| - 1;
      var init := Trace(t.job, t.states[..n + 1], t.calls[..n]);
      forall k {:trigger init.calls[k]} | 0 <= k < n ensures Made(t.job, init.states[k], init.calls[k], init.states[k + 1]) {
        assert init.calls[k] == t.calls[k];
      }
      ATraceIsARun(s, i, init);
      assert StepsOf(i, t.calls) == StepsOf(i, init.calls) + [Step(i, t.calls[n])];
      assert Made(t.job, t.states[n], t.calls[n], t.states[n + 1]);
      Extend(s, StepsOf(i, init.calls), Step(i, t.calls[n]));
    }
  }
}
