/** Which pools let a worker exit while activeCount is positive: for every configuration, whether the two
    counters stay exact. */
module WorkPoolExits {
  import opened Counting
  import opened TaskHandles
  import opened WorkPoolCalls
  import opened WorkPoolLedgers
  import opened WorkPoolLimits
  import opened WorkPoolProtocol
  import opened WorkPoolRestarts
  import opened WorkPoolRuns
  import opened WorkPoolSplit

  /** In all runs with at most `n` Starts there is no worker, no task, or no second worker. */
  predicate Lonely(c: Config, submitters: nat, n: nat) {
    n == 0 || submitters == 0 || (c.max <= 1 && (n <= 1 || c.initial == 0))
  }

  // ----- No task -----

  predicate Unemployed(w: Worker) { w.WCheck? || w.WTake? || w.WSleep? || w.WExit? || w.WDone? || w.WGone? }

  predicate Workless(s: State) {
    && s.subs == [] && s.queue == []
    && forall w :: 0 <= w < |s.workers| ==> Unemployed(s.workers[w])
  }

  lemma {:induction false} WorklessStep(s: State, step: Step)
    requires InRange(s) && Workless(s)
    ensures Workless(Apply(s, step))
  {
    if step.Work? {
      if step.w < |s.workers| {
        WorkerShape(s, step.w, step.k, step.quit, step.o);
      }
    } else {
      OthersAdd(s, step);
    }
  }

  lemma {:induction false} WorklessUpTo(c: Config, steps: seq<Step>, n: nat)
    requires n <= |steps|
    ensures Workless(Run(Init(c, 0), steps[..n]))
  {
    if n > 0 {
      WorklessUpTo(c, steps, n - 1);
      PrefixNext(Init(c, 0), steps, n - 1);
      WorklessStep(Run(Init(c, 0), steps[..n - 1]), steps[n - 1]);
    }
  }

  // ----- No second worker -----

  /** An exiting worker that is the only live one leaves nobody working. */
  lemma {:induction false} OnlyOne(ws: seq<Worker>, w: nat)
    requires w < |ws| && ws[w].WExit? && Sum(ws, Live) <= 1
    ensures Sum(ws, Working) == 0
  {
    forall v | 0 <= v < |ws| ensures Working(ws[v]) == 0 {
      if v != w && Working(ws[v]) == 1 {
        TwoLive(ws, v, w);
      }
    }
    SumZero(ws, Working);
  }

  lemma {:induction false} TwoLive(ws: seq<Worker>, v: nat, w: nat)
    requires v < |ws| && w < |ws| && v != w && Live(ws[v]) == Live(ws[w]) == 1
    ensures Sum(ws, Live) >= 2
  {
    SumUpdate(ws, v, WGone, Live);
    SumPart(ws[v := WGone], w, Live);
  }

  lemma {:induction false} AtMostOne(c: Config, submitters: nat, n: nat, steps: seq<Step>)
    requires n == 0 || (Normalize(c).max <= 1 && (n <= 1 || Normalize(c).initial == 0))
    requires Run(Init(c, submitters), steps).starts <= n
    ensures Sum(Run(Init(c, submitters), steps).workers, Live) <= 1
  {
    WorkerLedger(c, submitters, steps);
    if n == 0 {
      BoundedRun(Init(c, submitters), steps);
    } else {
      WorkersBounded(c, submitters, n, steps);
    }
  }

  // ----- The counters stay exact -----

  lemma {:induction false} NobodySteals(c: Config, submitters: nat, n: nat, steps: seq<Step>, step: Step)
    requires Lonely(Normalize(c), submitters, n) && Run(Init(c, submitters), steps).starts <= n
    requires Split(Run(Init(c, submitters), steps))
    ensures !StealsActive(Run(Init(c, submitters), steps), step)
  {
    var s := Run(Init(c, submitters), steps);
    if step.Work? && step.w < |s.workers| && s.workers[step.w].WExit? {
      if submitters == 0 {
        WorklessUpTo(c, steps, |steps|);
        assert steps[..|steps|] == steps;
        SumZero(s.workers, Working);
      } else {
        AtMostOne(c, submitters, n, steps);
        OnlyOne(s.workers, step.w);
      }
    }
  }

  lemma {:induction false} LonelyUpTo(c: Config, submitters: nat, n: nat, steps: seq<Step>, m: nat)
    requires Lonely(Normalize(c), submitters, n) && m <= |steps|
    requires Run(Init(c, submitters), steps[..m]).starts <= n
    ensures Split(Run(Init(c, submitters), steps[..m]))
    decreases m
  {
    if m > 0 {
      var s := Run(Init(c, submitters), steps[..m - 1]);
      PrefixNext(Init(c, submitters), steps, m - 1);
      StepGrows(s, steps[m - 1]);
      LonelyUpTo(c, submitters, n, steps, m - 1);
      NobodySteals(c, submitters, n, steps[..m - 1], steps[m - 1]);
      SplitStep(s, steps[m - 1]);
    }
  }

  // ----- A busy worker's place is taken -----

  /** Worker `a` is at work, and worker `b` leaves an idle place of its own, but counts itself out as an
      active one. */
  predicate Robbed(s: State, a: nat, b: nat) {
    && a < |s.workers| && b < |s.workers| && a != b && s.workers[a].WSetRunning? && s.workers[b].WExit?
    && s.count.active == 1
  }

  /** Two idle workers and one task: one worker takes it, the pool is shut down, the other leaves. */
  lemma {:induction false} Rob(c: Config, submitters: nat, s: State, a: nat, b: nat) returns (s': State)
    requires Reached(c, submitters, s) && s.status == Active && !s.statusHeld && s.shutter == HIdle
    requires !s.stopClosed && !s.cancelled && |s.queue| == 1 && s.count.active == 0
    requires a < |s.workers| && b < |s.workers| && a != b && s.workers[a] == s.workers[b] == WCheck
    ensures Reached(c, submitters, s') && s'.starts == s.starts && Robbed(s', a, b)
  {
    var t := TakeTask(c, submitters, s, a);
    CloseStop(c, submitters, t);
    LeaveLoop(c, submitters, Closing(t), b);
    s' := Closing(t).(workers := t.workers[b := WExit]);
  }

  /** Two idle workers of a pool that may have two: of the initial ones, or added by the scaler. */
  lemma {:induction false} TwoIdle(c: Config, submitters: nat) returns (s: State, k: nat)
    requires Normalize(c).max >= 2
    ensures Reached(c, submitters, s) && Rested(s, c, submitters, k) && k >= 2
  {
    k := Normalize(c).initial;
    s := FirstStart(c, submitters);
    while k < 2
      invariant Reached(c, submitters, s) && Rested(s, c, submitters, k)
      invariant Normalize(c).initial <= k
      decreases 2 - k
    {
      s := TickUp(c, submitters, s, k, k + 1);
      k := k + 1;
    }
  }

  /** After a restart: the worker of the second Start, and the one a late submitter added. */
  lemma {:induction false} TwoAfterRestart(c: Config, submitters: nat) returns (s: State)
    requires Normalize(c).initial == 1 && submitters > 0
    ensures Reached(c, submitters, s) && s.status == Active && !s.statusHeld && s.shutter == HIdle
    ensures !s.stopClosed && !s.cancelled && s.queue == [0] && s.count.active == 0 && s.starts == 2
    ensures |s.workers| == 3 && s.workers[1] == s.workers[2] == WCheck
  {
    s := SubmitterOverfills(c, submitters);
    ReachedNext(c, submitters, s, Start);
    s := Apply(s, Start);
    ReachedNext(c, submitters, s, Shutdown(false));
    s := Apply(s, Shutdown(false));
  }

  lemma {:induction false} Robbery(c: Config, submitters: nat, n: nat) returns (s: State, a: nat, b: nat)
    requires !Lonely(Normalize(c), submitters, n)
    ensures Reached(c, submitters, s) && s.starts <= n && Robbed(s, a, b)
  {
    if Normalize(c).max >= 2 {
      var k;
      s, k := TwoIdle(c, submitters);
      s := SubmitBegun(c, submitters, s);
      s := Enqueue(c, submitters, s);
      a, b := 0, 1;
    } else {
      s := TwoAfterRestart(c, submitters);
      a, b := 1, 2;
    }
    s := Rob(c, submitters, s, a, b);
  }

  /** The run has more than `n` Starts, or both counters are exact in all its states. */
  ghost predicate ExactThroughout(c: Config, submitters: nat, n: nat, steps: seq<Step>) {
    Run(Init(c, submitters), steps).starts <= n ==> Always(Init(c, submitters), steps, Split)
  }

  lemma {:induction false} LonelyExact(c: Config, submitters: nat, n: nat, steps: seq<Step>)
    requires Lonely(Normalize(c), submitters, n)
    ensures ExactThroughout(c, submitters, n, steps)
  {
    var s := Init(c, submitters);
    if Run(s, steps).starts <= n {
      forall m | 0 <= m <= |steps| ensures Split(Run(s, steps[..m])) {
        assert steps[..m] + steps[m..] == steps;
        RunAppend(s, steps[..m], steps[m..]);
        StartsGrow(Run(s, steps[..m]), steps[m..]);
        LonelyUpTo(c, submitters, n, steps, m);
      }
    }
  }

  /** For every configuration and number of submitters: activeCount and idleCount are exact in all states
      of all runs with at most `n` successful Starts if and only if there is nothing to run, nobody to
      run it, or never a second worker. */
  lemma {:induction false} ExactForConfig(c: Config, submitters: nat, n: nat)
    ensures (forall steps :: ExactThroughout(c, submitters, n, steps)) <==> Lonely(Normalize(c), submitters, n)
  {
    if Lonely(Normalize(c), submitters, n) {
      forall steps ensures ExactThroughout(c, submitters, n, steps) {
        LonelyExact(c, submitters, n, steps);
      }
    } else {
      var s, a, b := Robbery(c, submitters, n);
      var step := Work(b, 0, false, Error);
      var steps :| Run(Init(c, submitters), steps) == s;
      var longer := steps + [step];
      RunAppend(Init(c, submitters), steps, [step]);
      RunOne(s, step);
      SplitExact(c, submitters, longer);
      assert longer[..|steps|] == steps && longer[|steps|] == step;
      assert Apply(s, step).starts == s.starts;
      assert !ExactThroughout(c, submitters, n, longer);
    }
  }

  // ----- activeCount below zero -----

  /** Worker `w` executes its task, */
  lemma {:induction false} Execute(c: Config, submitters: nat, s: State, w: nat) returns (s': State)
    requires Reached(c, submitters, s) && w < |s.workers| && s.workers[w].WSetRunning?
    ensures Reached(c, submitters, s') && s'.starts == s.starts && s'.count == s.count
    ensures w < |s'.workers| && s'.workers[w].WSetCompleted?
  {
    s' := Labour(c, submitters, s, w);
    s' := Labour(c, submitters, s', w);
    s' := Labour(c, submitters, s', w);
  }

  /** completes it, and counts itself out of the active workers. */
  lemma {:induction false} Complete(c: Config, submitters: nat, s: State, w: nat) returns (s': State)
    requires Reached(c, submitters, s) && w < |s.workers| && s.workers[w].WSetCompleted?
    ensures Reached(c, submitters, s') && s'.starts == s.starts && s'.count.active == s.count.active - 1
  {
    s' := Labour(c, submitters, s, w);
    s' := Labour(c, submitters, s', w);
    s' := Labour(c, submitters, s', w);
  }

  /** A pool that can have a second worker can count one active worker too few. */
  lemma {:induction false} ActiveBelowZero(c: Config, submitters: nat, n: nat) returns (s: State)
    requires !Lonely(Normalize(c), submitters, n)
    ensures Reached(c, submitters, s) && s.starts <= n && s.count.active == -1
  {
    var a, b;
    s, a, b := Robbery(c, submitters, n);
    s := Labour(c, submitters, s, b);
    s := Execute(c, submitters, s, a);
    s := Complete(c, submitters, s, a);
  }

  ghost predicate ActiveFits(c: Config, submitters: nat, n: nat, steps: seq<Step>) {
    var s := Run(Init(c, submitters), steps);
    s.starts <= n ==> s.count.active >= 0
  }

  /** For every configuration and number of submitters: activeCount is never negative, in all runs with at
      most `n` successful Starts, under exactly the same condition. */
  lemma {:induction false} ActiveNonNegativeExact(c: Config, submitters: nat, n: nat)
    ensures (forall steps :: ActiveFits(c, submitters, n, steps)) <==> Lonely(Normalize(c), submitters, n)
  {
    if Lonely(Normalize(c), submitters, n) {
      forall steps ensures ActiveFits(c, submitters, n, steps) {
        LonelyExact(c, submitters, n, steps);
        assert steps[..|steps|] == steps;
        SumBounds(Run(Init(c, submitters), steps).workers, Working);
      }
    } else {
      var s := ActiveBelowZero(c, submitters, n);
      var steps :| Run(Init(c, submitters), steps) == s;
      assert !ActiveFits(c, submitters, n, steps);
    }
  }
}
