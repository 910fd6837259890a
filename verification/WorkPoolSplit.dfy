/** When activeCount and idleCount, each on its own, tell how many workers are active and idle. */
module WorkPoolSplit {
  import opened Counting
  import opened WorkPoolProtocol
  import opened WorkPoolRuns
  import opened TaskHandles

  /** 1 for a worker that activeCount should count: between its two updates of that counter. */
  function Working(w: Worker): int {
    if w.WSetRunning? || w.WTaskStarted? || w.WExecute? || w.WSetCompleted? || w.WCount? || w.WLeaveActive? then 1
    else 0
  }

  /** 1 for a worker that idleCount should count. */
  function Resting(w: Worker): int {
    if w.WCheck? || w.WTake? || w.WSleep? || w.WLeaveIdle? || w.WExit? then 1 else 0
  }

  predicate Split(s: State) {
    s.count.active == Sum(s.workers, Working) && s.count.idle == Sum(s.workers, Resting)
  }

  /** A worker exits, idle as it is, while activeCount is positive: it takes a busy worker's place. */
  predicate StealsActive(s: State, step: Step) {
    step.Work? && step.w < |s.workers| && s.workers[step.w].WExit? && s.count.active > 0
  }

  lemma {:induction false} SplitNext(s: State, w: nat, k: nat, quit: bool, o: Outcome)
    requires w < |s.workers|
    ensures var c, c', pc, next := s.count, CountAfter(s.count, s.workers[w]), s.workers[w], NextOf(s, w, k, quit, o);
            && (c'.active - c.active == Working(next) - Working(pc) <==> !(pc.WExit? && c.active > 0))
            && (!pc.WExit? ==> c'.idle - c.idle == Resting(next) - Resting(pc))
            && (pc.WExit? && c.active <= 0 && c.idle > 0 ==> c'.idle - c.idle == Resting(next) - Resting(pc))
  {}

  /** An exiting worker is one of those idleCount should count. */
  lemma {:induction false} RestingBounds(ws: seq<Worker>)
    ensures Sum(ws, Resting) >= 0
    ensures forall i :: 0 <= i < |ws| && ws[i].WExit? ==> Sum(ws, Resting) > 0
  {
    SumBounds(ws, Resting);
  }

  lemma {:induction false} SplitWorker(s: State, w: nat, k: nat, quit: bool, o: Outcome)
    requires InRange(s) && Split(s) && w < |s.workers|
    ensures Split(StepWorker(s, w, k, quit, o)) <==> !StealsActive(s, Work(w, k, quit, o))
  {
    var next := NextOf(s, w, k, quit, o);
    WorkerShape(s, w, k, quit, o);
    SumUpdate(s.workers, w, next, Working);
    SumUpdate(s.workers, w, next, Resting);
    RestingBounds(s.workers);
    SplitNext(s, w, k, quit, o);
  }

  lemma {:induction false} SplitAdd(s: State)
    requires Split(s)
    ensures Split(AddWorker(s))
  {
    SumAppend(s.workers, WCheck, Working);
    SumAppend(s.workers, WCheck, Resting);
  }

  lemma {:induction false} SubmitterAdds(s: State, i: nat)
    requires i < |s.subs|
    ensures var s' := StepSubmitter(s, i);
            if s.subs[i].UAdd? then s'.workers == AddWorker(s).workers && s'.count == AddWorker(s).count
            else s'.workers == s.workers && s'.count == s.count
  {}

  /** The other threads touch workers and counters only by adding a worker. */
  lemma {:induction false} OthersAdd(s: State, step: Step)
    requires InRange(s) && !step.Work?
    ensures var s' := Apply(s, step);
            || (s'.workers == s.workers && s'.count == s.count)
            || (s'.workers == AddWorker(s).workers && s'.count == AddWorker(s).count)
  {
    match step {
      case Submit(i) => if i < |s.subs| { SubmitterAdds(s, i); }
      case Scale(_) =>
      case Start =>
      case Shutdown(_) =>
      case CancelTask(_) =>
    }
  }

  lemma {:induction false} SplitStep(s: State, step: Step)
    requires InRange(s) && Split(s)
    ensures Split(Apply(s, step)) <==> !StealsActive(s, step)
  {
    if step.Work? {
      if step.w < |s.workers| {
        SplitWorker(s, step.w, step.k, step.quit, step.o);
      }
    } else {
      SplitAdd(s);
      OthersAdd(s, step);
    }
  }

  // ----- Whole runs -----

  /** `P` holds in every state of the run. */
  ghost predicate Always(s: State, steps: seq<Step>, P: State -> bool)
    requires InRange(s)
  {
    forall n :: 0 <= n <= |steps| ==> P(Run(s, steps[..n]))
  }

  /** No step of the run is taken where `Q` holds. */
  ghost predicate Never(s: State, steps: seq<Step>, Q: (State, Step) -> bool)
    requires InRange(s)
  {
    forall n :: 0 <= n < |steps| ==> !Q(Run(s, steps[..n]), steps[n])
  }

  lemma {:induction false} PrefixNext(s: State, steps: seq<Step>, n: nat)
    requires InRange(s) && n < |steps|
    ensures Run(s, steps[..n + 1]) == Apply(Run(s, steps[..n]), steps[n])
  {
    assert steps[..n + 1] == steps[..n] + [steps[n]];
    RunAppend(s, steps[..n], [steps[n]]);
    RunOne(Run(s, steps[..n]), steps[n]);
  }

  lemma {:induction false} SplitUpTo(s: State, steps: seq<Step>, n: nat)
    requires InRange(s) && Split(s) && Never(s, steps, StealsActive) && n <= |steps|
    ensures Split(Run(s, steps[..n]))
  {
    if n > 0 {
      var before, step := Run(s, steps[..n - 1]), steps[n - 1];
      SplitUpTo(s, steps, n - 1);
      assert !StealsActive(before, step);
      SplitStep(before, step);
      PrefixNext(s, steps, n - 1);
    }
  }

  /** For every pool and every schedule: activeCount and idleCount are exact in all states of the run
      if and only if no worker ever exits while activeCount is positive. */
  lemma {:induction false} SplitExact(c: Config, submitters: nat, steps: seq<Step>)
    ensures Always(Init(c, submitters), steps, Split) <==> Never(Init(c, submitters), steps, StealsActive)
  {
    var s := Init(c, submitters);
    if Never(s, steps, StealsActive) {
      forall n | 0 <= n <= |steps| ensures Split(Run(s, steps[..n])) {
        SplitUpTo(s, steps, n);
      }
    }
    if Always(s, steps, Split) {
      forall n | 0 <= n < |steps| ensures !StealsActive(Run(s, steps[..n]), steps[n]) {
        assert Split(Run(s, steps[..n])) && Split(Run(s, steps[..n + 1]));
        PrefixNext(s, steps, n);
        SplitStep(Run(s, steps[..n]), steps[n]);
      }
    }
  }

  // ----- As long as the pool is not being stopped -----

  predicate Unstopped(s: State) { !s.stopClosed && !s.cancelled }

  predicate NobodyExits(s: State) {
    forall w :: 0 <= w < |s.workers| ==> !s.workers[w].WExit?
  }

  lemma {:induction false} NobodyExitsStep(s: State, step: Step)
    requires InRange(s) && NobodyExits(s) && Unstopped(s)
    ensures NobodyExits(Apply(s, step)) && !StealsActive(s, step)
  {
    if step.Work? {
      if step.w < |s.workers| {
        WorkerShape(s, step.w, step.k, step.quit, step.o);
      }
    } else {
      OthersAdd(s, step);
    }
  }

  lemma {:induction false} NobodyExitsUpTo(s: State, steps: seq<Step>, n: nat)
    requires InRange(s) && NobodyExits(s) && Always(s, steps, Unstopped) && n <= |steps|
    ensures NobodyExits(Run(s, steps[..n]))
  {
    if n > 0 {
      NobodyExitsUpTo(s, steps, n - 1);
      PrefixNext(s, steps, n - 1);
      NobodyExitsStep(Run(s, steps[..n - 1]), steps[n - 1]);
    }
  }

  /** A run in which stopCh is never closed and the context never cancelled: nobody exits, and the
      two counters are exact in every state. */
  lemma {:induction false} ExactUntilStopped(c: Config, submitters: nat, steps: seq<Step>)
    requires Always(Init(c, submitters), steps, Unstopped)
    ensures Always(Init(c, submitters), steps, Split)
  {
    var s := Init(c, submitters);
    forall n | 0 <= n < |steps| ensures !StealsActive(Run(s, steps[..n]), steps[n]) {
      NobodyExitsUpTo(s, steps, n);
      NobodyExitsStep(Run(s, steps[..n]), steps[n]);
    }
    SplitExact(c, submitters, steps);
  }
}
