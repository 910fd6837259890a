/** The worker counters and the task metrics agree with the threads and the tasks. */
module WorkPoolLedgers {
  import opened Counting
  import opened TaskHandles
  import opened WorkPoolProtocol

  // ----- Worker counters -----

  /** 1 for a worker that workerCount still counts. */
  function Live(w: Worker): int { if w.WDone? || w.WGone? then 0 else 1 }

  /** 1 for a worker between its two counter updates. */
  function Between(w: Worker): int { if w.WEnterActive? || w.WEnterIdle? then 1 else 0 }

  /** workerCount is the number of live workers, and activeCount + idleCount falls short of it by
      exactly the workers between two updates. */
  predicate CountersFit(s: State) {
    && s.count.workers == Sum(s.workers, Live)
    && s.count.active + s.count.idle == s.count.workers - Sum(s.workers, Between)
  }

  /** Workers between two updates are alive, so an exiting worker is not the last one counted. */
  lemma {:induction false} BetweenAreLive(ws: seq<Worker>)
    ensures 0 <= Sum(ws, Between) <= Sum(ws, Live)
    ensures forall i :: 0 <= i < |ws| && ws[i].WExit? ==> Sum(ws, Between) < Sum(ws, Live)
  {
    if ws != [] {
      BetweenAreLive(ws[1..]);
      assert forall i :: 1 <= i < |ws| ==> ws[i] == ws[1..][i - 1];
    }
  }

  /** What a step does to the counters is what it does to the two sums. An exit debits exactly one
      of the two counters when either is positive. */
  lemma {:induction false} CountersNext(s: State, w: nat, k: nat, quit: bool, o: Outcome)
    requires w < |s.workers|
    requires s.workers[w].WExit? ==> s.count.active > 0 || s.count.idle > 0
    ensures var c, c', pc, next := s.count, CountAfter(s.count, s.workers[w]), s.workers[w], NextOf(s, w, k, quit, o);
            && c'.workers - c.workers == Live(next) - Live(pc)
            && (c'.active + c'.idle) - (c.active + c.idle) == (c'.workers - c.workers) - (Between(next) - Between(pc))
  {}

  lemma {:induction false} CountersWorker(s: State, w: nat, k: nat, quit: bool, o: Outcome)
    requires InRange(s) && CountersFit(s) && w < |s.workers|
    ensures CountersFit(StepWorker(s, w, k, quit, o))
  {
    var next := NextOf(s, w, k, quit, o);
    WorkerShape(s, w, k, quit, o);
    SumUpdate(s.workers, w, next, Live);
    SumUpdate(s.workers, w, next, Between);
    BetweenAreLive(s.workers);
    CountersNext(s, w, k, quit, o);
  }

  // ----- Task metrics -----

  function PendingTotal(u: Submitter): int { if u.UTotal? then 1 else 0 }
  function PendingQueued(u: Submitter): int { if u.UTotal? || u.UQueued? then 1 else 0 }

  /** 1 for a worker that has dequeued a task and not yet taken it out of QueuedTasks. */
  function NotStarted(w: Worker): int {
    if w.WLeaveIdle? || w.WEnterActive? || w.WSetRunning? || w.WTaskStarted? then 1 else 0
  }

  /** 1 for a worker whose task is in neither CompletedTasks nor FailedTasks. */
  function Uncounted(w: Worker): int { if Carries(w) || w.WCount? then 1 else 0 }

  /** The three metrics, modulo 2^64, corrected by the updates still to come. QueuedTasks may be
      far above 2^63 for a moment: a worker can start a task before its submission is counted. */
  predicate MetricsFit(s: State) {
    TotalFits(s) && QueuedFits(s) && FinishedFits(s)
  }

  predicate TotalFits(s: State) {
    s.metrics.total == Wrap(|s.tasks| - Sum(s.subs, PendingTotal))
  }

  predicate QueuedFits(s: State) {
    s.metrics.queued == Wrap(|s.queue| - Sum(s.subs, PendingQueued) + Sum(s.workers, NotStarted))
  }

  predicate FinishedFits(s: State) {
    Wrap(s.metrics.completed + s.metrics.failed) == Wrap(|s.tasks| - |s.queue| - Sum(s.workers, Uncounted))
  }

  lemma {:induction false} WrapAdd(x: int, y: int, d: int)
    requires Wrap(x) == Wrap(y)
    ensures Wrap(x + d) == Wrap(y + d)
  {}

  lemma {:induction false} WrapTwice(x: int)
    ensures Wrap(Wrap(x)) == Wrap(x)
  {}

  /** Adding to a counter that stands for `y` makes it stand for `y + d`. */
  lemma {:induction false} WrapCounter(x: nat, y: int, d: int)
    requires x == Wrap(y)
    ensures Wrap(x + d) == Wrap(y + d)
  {
    WrapTwice(y);
    WrapAdd(x, y, d);
  }

  /** The metrics a step touches, and what it takes out of the two sums. */
  lemma {:induction false} MetricsNext(s: State, w: nat, k: nat, quit: bool, o: Outcome)
    requires w < |s.workers|
    ensures var m, m' := s.metrics, MetricsAfter(s.metrics, s.workers[w]);
            var pc, next := s.workers[w], NextOf(s, w, k, quit, o);
            var taken := if Takes(s, pc) then 1 else 0;
            && NotStarted(next) - NotStarted(pc) == taken - (if pc.WTaskStarted? then 1 else 0)
            && Uncounted(next) - Uncounted(pc) == taken - (if pc.WCount? then 1 else 0)
            && m'.total == m.total
            && m'.queued == (if pc.WTaskStarted? then Wrap(m.queued - 1) else m.queued)
            && m'.completed == (if pc.WCount? && pc.ok then Wrap(m.completed + 1) else m.completed)
            && m'.failed == (if pc.WCount? && !pc.ok then Wrap(m.failed + 1) else m.failed)
  {}

  lemma {:induction false} QueuedWorker(s: State, w: nat, k: nat, quit: bool, o: Outcome)
    requires InRange(s) && QueuedFits(s) && w < |s.workers|
    ensures QueuedFits(StepWorker(s, w, k, quit, o))
  {
    WorkerShape(s, w, k, quit, o);
    MetricsNext(s, w, k, quit, o);
    SumUpdate(s.workers, w, NextOf(s, w, k, quit, o), NotStarted);
    if s.workers[w].WTaskStarted? {
      WrapCounter(s.metrics.queued, |s.queue| - Sum(s.subs, PendingQueued) + Sum(s.workers, NotStarted), -1);
    }
  }

  lemma {:induction false} FinishedWorker(s: State, w: nat, k: nat, quit: bool, o: Outcome)
    requires InRange(s) && FinishedFits(s) && w < |s.workers|
    ensures FinishedFits(StepWorker(s, w, k, quit, o))
  {
    WorkerShape(s, w, k, quit, o);
    MetricsNext(s, w, k, quit, o);
    SumUpdate(s.workers, w, NextOf(s, w, k, quit, o), Uncounted);
    var pc, m := s.workers[w], s.metrics;
    if pc.WCount? {
      var one, other := if pc.ok then m.completed else m.failed, if pc.ok then m.failed else m.completed;
      WrapTwice(one + 1);
      WrapAdd(Wrap(one + 1), one + 1, other);
      WrapAdd(m.completed + m.failed, |s.tasks| - |s.queue| - Sum(s.workers, Uncounted), 1);
    }
  }

  lemma {:induction false} TotalSubmitter(s: State, i: nat)
    requires TotalFits(s) && i < |s.subs|
    ensures TotalFits(StepSubmitter(s, i))
  {
    var next := StepSubmitter(s, i).subs[i];
    assert StepSubmitter(s, i).subs == s.subs[i := next];
    SumUpdate(s.subs, i, next, PendingTotal);
    match s.subs[i] {
      case UTotal => WrapCounter(s.metrics.total, |s.tasks| - Sum(s.subs, PendingTotal), 1);
      case UEnqueue => assert PendingTotal(next) == 1;
      case _ => assert PendingTotal(next) == 0;
    }
  }

  lemma {:induction false} QueuedSubmitter(s: State, i: nat)
    requires QueuedFits(s) && i < |s.subs| && !s.subs[i].UAdd?
    ensures QueuedFits(StepSubmitter(s, i))
  {
    var next := StepSubmitter(s, i).subs[i];
    assert StepSubmitter(s, i).subs == s.subs[i := next];
    SumUpdate(s.subs, i, next, PendingQueued);
    if s.subs[i].UQueued? {
      WrapCounter(s.metrics.queued, |s.queue| - Sum(s.subs, PendingQueued) + Sum(s.workers, NotStarted), 1);
    } else {
      assert PendingQueued(next) == if s.subs[i].UEnqueue? then 1 else PendingQueued(s.subs[i]);
    }
  }

  /** Steps of a submitter that add no worker leave the worker counters and the finished tasks alone. */
  lemma {:induction false} FinishedSubmitter(s: State, i: nat)
    requires FinishedFits(s) && CountersFit(s) && i < |s.subs| && !s.subs[i].UAdd?
    ensures FinishedFits(StepSubmitter(s, i)) && CountersFit(StepSubmitter(s, i))
  {
    match s.subs[i] {
      case UEnqueue =>
      case _ =>
    }
  }

  // ----- Whole runs -----

  predicate Fits(s: State) { CountersFit(s) && MetricsFit(s) }

  /** Steps that leave tasks, workers and counters alone. */
  lemma {:induction false} FrameFits(s: State, s': State)
    requires Fits(s)
    requires |s'.tasks| == |s.tasks| && s'.queue == s.queue && s'.workers == s.workers
    requires Sum(s'.subs, PendingTotal) == Sum(s.subs, PendingTotal)
    requires Sum(s'.subs, PendingQueued) == Sum(s.subs, PendingQueued)
    requires s'.count == s.count && s'.metrics == s.metrics
    ensures Fits(s')
  {}

  lemma {:induction false} AddFits(s: State)
    requires Fits(s)
    ensures Fits(AddWorker(s))
  {
    SumAppend(s.workers, WCheck, Live);
    SumAppend(s.workers, WCheck, Between);
    SumAppend(s.workers, WCheck, NotStarted);
    SumAppend(s.workers, WCheck, Uncounted);
  }

  lemma {:induction false} SubmitterFits(s: State, i: nat)
    requires Fits(s) && i < |s.subs|
    ensures Fits(StepSubmitter(s, i))
  {
    var s' := StepSubmitter(s, i);
    if s.subs[i].UAdd? {
      AddFits(s);
      SumUpdate(s.subs, i, UIdle, PendingTotal);
      SumUpdate(s.subs, i, UIdle, PendingQueued);
      FrameFits(AddWorker(s), s');
    } else {
      TotalSubmitter(s, i);
      QueuedSubmitter(s, i);
      FinishedSubmitter(s, i);
    }
  }

  lemma {:induction false} WorkerFits(s: State, w: nat, k: nat, quit: bool, o: Outcome)
    requires InRange(s) && Fits(s) && w < |s.workers|
    ensures Fits(StepWorker(s, w, k, quit, o))
  {
    CountersWorker(s, w, k, quit, o);
    QueuedWorker(s, w, k, quit, o);
    FinishedWorker(s, w, k, quit, o);
  }

  lemma {:induction false} ScalerFits(s: State, load: Load)
    requires Fits(s)
    ensures Fits(StepScaler(s, load))
  {
    AddFits(s);
    var adds := s.scaler.ScAdd? && s.scaler.i < s.scaler.target;
    FrameFits(if adds then AddWorker(s) else s, StepScaler(s, load));
  }

  lemma {:induction false} StarterFits(s: State)
    requires Fits(s)
    ensures Fits(StepStarter(s))
  {
    AddFits(s);
    var adds := s.starter.StAdd? && s.starter.i < s.config.initial;
    FrameFits(if adds then AddWorker(s) else s, StepStarter(s));
  }

  lemma {:induction false} ShutterFits(s: State, giveUp: bool)
    requires Fits(s)
    ensures Fits(StepShutter(s, giveUp))
  {
    var s' := StepShutter(s, giveUp);
    match s.shutter {
      case HIdle => FrameFits(s, s');
      case HPoll => FrameFits(s, s');
      case HWait => FrameFits(s, s');
      case _ => FrameFits(s, s');
    }
  }

  lemma {:induction false} FitsStep(s: State, step: Step)
    requires InRange(s) && Fits(s)
    ensures Fits(Apply(s, step))
  {
    match step {
      case Submit(i) => if i < |s.subs| { SubmitterFits(s, i); }
      case Work(w, k, quit, o) => if w < |s.workers| { WorkerFits(s, w, k, quit, o); }
      case Scale(load) => ScalerFits(s, load);
      case Start => StarterFits(s);
      case Shutdown(giveUp) => ShutterFits(s, giveUp);
      case CancelTask(id) => FrameFits(s, Apply(s, step));
    }
  }

  lemma {:induction false} FitRun(s: State, steps: seq<Step>)
    requires InRange(s) && Fits(s)
    ensures Fits(Run(s, steps))
    decreases |steps|
  {
    if steps != [] {
      FitsStep(s, steps[0]);
      InRangeStep(s, steps[0]);
      FitRun(Apply(s, steps[0]), steps[1..]);
    }
  }

  lemma {:induction false} InitFits(c: Config, submitters: nat)
    ensures Fits(Init(c, submitters))
  {
    SumZero(Init(c, submitters).subs, PendingTotal);
    SumZero(Init(c, submitters).subs, PendingQueued);
  }

  /** In every state of every run workerCount is the number of live workers, and whenever no
      worker is between two updates it is activeCount + idleCount. */
  lemma {:induction false} WorkerLedger(c: Config, submitters: nat, steps: seq<Step>)
    ensures var s := Run(Init(c, submitters), steps);
            && s.count.workers == Sum(s.workers, Live)
            && ((forall w :: 0 <= w < |s.workers| ==> Between(s.workers[w]) == 0) ==>
                  s.count.workers == s.count.active + s.count.idle)
  {
    InitFits(c, submitters);
    FitRun(Init(c, submitters), steps);
    var s := Run(Init(c, submitters), steps);
    if forall w :: 0 <= w < |s.workers| ==> Between(s.workers[w]) == 0 {
      SumZero(s.workers, Between);
    }
  }

  /** No call in flight: submitters are outside Submit, or past its counting, and workers are
      executing or not holding a task. */
  predicate Settled(s: State) {
    && (forall i :: 0 <= i < |s.subs| ==> PendingQueued(s.subs[i]) == 0)
    && (forall w :: 0 <= w < |s.workers| ==> NotStarted(s.workers[w]) == 0 && !s.workers[w].WCount?)
  }

  function Executing(w: Worker): int { if w.WExecute? || w.WSetCompleted? then 1 else 0 }

  lemma {:induction false} SettledWorkers(ws: seq<Worker>)
    requires forall w :: 0 <= w < |ws| ==> NotStarted(ws[w]) == 0 && !ws[w].WCount?
    ensures Sum(ws, NotStarted) == 0 && Sum(ws, Uncounted) == Sum(ws, Executing)
  {
    if ws != [] {
      SettledWorkers(ws[1..]);
    }
  }

  /** Once no call is in flight: QueuedTasks is the length of the queue, and TotalTasks is
      queued + running + completed + failed, all modulo 2^64. */
  lemma {:induction false} TaskLedger(c: Config, submitters: nat, steps: seq<Step>)
    ensures var s := Run(Init(c, submitters), steps);
            Settled(s) ==>
              && s.metrics.queued == Wrap(|s.queue|)
              && s.metrics.total == Wrap(|s.tasks|)
              && s.metrics.total == Wrap(|s.queue| + Sum(s.workers, Executing) + s.metrics.completed + s.metrics.failed)
  {
    InitFits(c, submitters);
    FitRun(Init(c, submitters), steps);
    var s := Run(Init(c, submitters), steps);
    if Settled(s) {
      SettledWorkers(s.workers);
      assert forall i :: 0 <= i < |s.subs| ==> PendingTotal(s.subs[i]) <= PendingQueued(s.subs[i]);
      SumZero(s.subs, PendingQueued);
      SumZero(s.subs, PendingTotal);
      var e := Sum(s.workers, Executing);
      WrapAdd(s.metrics.completed + s.metrics.failed, |s.tasks| - |s.queue| - e, |s.queue| + e);
    }
  }
}
