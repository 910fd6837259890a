/** Graceful shutdown: a Shutdown that returns nil leaves no task behind. */
module WorkPoolShutdown {
  import opened Basics
  import opened Counting
  import opened TaskHandles
  import opened WorkPoolProtocol

  /** A waiting task is in the queue once; a taken one is in the hands of exactly one worker that
      has not completed it; a finished one has been completed. */
  predicate Placed(s: State)
    requires InRange(s)
  {
    && Distinct(s.queue)
    && (forall k :: 0 <= k < |s.queue| ==> s.place[s.queue[k]] == Queued)
    && (forall id :: 0 <= id < |s.place| && s.place[id] == Queued ==> id in s.queue)
    && (forall w :: 0 <= w < |s.workers| && Carries(s.workers[w]) ==> s.place[s.workers[w].id] == Held(w))
    && (forall id :: 0 <= id < |s.place| && s.place[id].Held? ==>
          s.place[id].w < |s.workers| && Carries(s.workers[s.place[id].w]) && s.workers[s.place[id].w].id == id)
  }

  /** Finished tasks have a result, and `done` is closed at most once, by completion at the latest. */
  predicate Handled(s: State)
    requires InRange(s)
  {
    forall id :: 0 <= id < |s.tasks| ==>
      && (s.place[id] == Finished <==> s.tasks[id].outcome.Just?)
      && ClosedOnce(s.tasks[id])
      && (s.tasks[id].outcome.Just? || Terminal(s.tasks[id].status) ==> s.tasks[id].doneClosed)
  }

  /** 1 for a worker the wait group still counts. */
  function Counted(w: Worker): int { if w.WGone? then 0 else 1 }

  predicate Grouped(s: State) { s.count.group == Sum(s.workers, Counted) }

  /** What the caller of Shutdown relies on at each point. */
  predicate Draining(s: State)
    requires InRange(s)
  {
    && s.drained <= |s.tasks|
    && (s.shutter.HClose? || s.shutter.HWait? ==>
          forall id :: 0 <= id < s.drained ==> s.place[id] != Queued)
    && (s.shutter.HStop? || s.shutter.HReturned? ==>
          forall id :: 0 <= id < s.drained ==> s.place[id] == Finished)
  }

  /** The locks around status and stopCh: a shutdown in progress excludes Start, and stopCh is
      open whenever it is about to be closed. */
  predicate Orderly(s: State) {
    && (s.statusHeld <==> !s.starter.StIdle?)
    && (s.statusHeld ==> s.status == Active)
    && (s.shutter.HPoll? || s.shutter.HClose? || s.shutter.HWait? || s.shutter.HStop? ==> s.status == ShuttingDown)
    && (s.status == Idle || s.status == Active || s.shutter.HPoll? || s.shutter.HClose? ==> !s.stopClosed)
  }

  ghost predicate Inv(s: State) {
    InRange(s) && Placed(s) && Handled(s) && Grouped(s) && Draining(s) && Orderly(s)
  }

  /** Steps that leave the tasks, the workers and the shutdown alone. */
  lemma {:induction false} FrameKeeps(s: State, s': State)
    requires Inv(s) && Orderly(s')
    requires s'.queue == s.queue && s'.tasks == s.tasks && s'.place == s.place && s'.workers == s.workers
    requires s'.count == s.count && s'.shutter == s.shutter && s'.drained == s.drained
    ensures Inv(s')
  {}

  // ----- Workers -----

  predicate Distinct(q: seq<nat>) {
    forall i, j :: 0 <= i < j < |q| ==> q[i] != q[j]
  }

  /** A queue of distinct tasks without one of them. */
  lemma {:induction false} WithoutOne(q: seq<nat>, k: nat)
    requires Distinct(q) && k < |q|
    ensures var r := q[..k] + q[k + 1..];
            && Distinct(r)
            && (forall x :: x in r <==> x in q && x != q[k])
  {
    var r := q[..k] + q[k + 1..];
    forall x | x in q && x != q[k] ensures x in r {
      var j :| 0 <= j < |q| && q[j] == x;
      assert r[if j < k then j else j - 1] == x;
    }
  }

  lemma {:induction false} TakePlaced(s: State, w: nat, k: nat, quit: bool, o: Outcome)
    requires InRange(s) && Placed(s) && w < |s.workers| && Takes(s, s.workers[w])
    ensures InRange(StepWorker(s, w, k, quit, o)) && Placed(StepWorker(s, w, k, quit, o))
  {
    InRangeTake(s, w, k, quit, o);
    WithoutOne(s.queue, Chosen(s, k));
    var s' := StepWorker(s, w, k, quit, o);
    forall j | 0 <= j < |s'.queue| ensures s'.place[s'.queue[j]] == Queued {
      assert s'.queue[j] in s'.queue;
    }
  }

  /** A worker goes on with the task it has, or without one. */
  lemma {:induction false} CarryPlaced(s: State, w: nat, next: Worker)
    requires InRange(s) && Placed(s) && w < |s.workers|
    requires Carries(next) == Carries(s.workers[w]) && (Carries(next) ==> next.id == s.workers[w].id)
    ensures var s' := s.(workers := s.workers[w := next]); InRange(s') && Placed(s')
  {}

  lemma {:induction false} FinishPlaced(s: State, w: nat, next: Worker)
    requires InRange(s) && Placed(s) && w < |s.workers| && Carries(s.workers[w]) && !Carries(next)
    ensures var s' := s.(workers := s.workers[w := next], place := s.place[s.workers[w].id := Finished]);
            InRange(s') && Placed(s')
  {}

  /** Placed is about these components only. */
  lemma {:induction false} SamePlaced(s: State, s': State)
    requires InRange(s) && Placed(s) && s'.queue == s.queue && s'.place == s.place && s'.workers == s.workers
    requires |s'.tasks| == |s.tasks|
    ensures InRange(s') && Placed(s')
  {}

  lemma {:induction false} WorkerPlaced(s: State, w: nat, k: nat, quit: bool, o: Outcome)
    requires InRange(s) && Placed(s) && w < |s.workers|
    ensures InRange(StepWorker(s, w, k, quit, o)) && Placed(StepWorker(s, w, k, quit, o))
  {
    var pc, s' := s.workers[w], StepWorker(s, w, k, quit, o);
    if Takes(s, pc) {
      TakePlaced(s, w, k, quit, o);
    } else if pc.WSetCompleted? {
      FinishPlaced(s, w, WCount(pc.o.Value?));
      SamePlaced(s.(workers := s.workers[w := WCount(pc.o.Value?)], place := s.place[pc.id := Finished]), s');
    } else {
      var next := NextWorker(s, pc, quit, o);
      NextCarries(s, pc, quit, o);
      CarryPlaced(s, w, next);
      SamePlaced(s.(workers := s.workers[w := next]), s');
    }
  }

  lemma {:induction false} NextCarries(s: State, pc: Worker, quit: bool, o: Outcome)
    requires !pc.WSetCompleted?
    ensures var next := NextWorker(s, pc, quit, o);
            Carries(next) == Carries(pc) && (Carries(next) ==> next.id == pc.id)
  {}

  /** Completing a task closes its `done`, whatever happened to the task before. */
  lemma {:induction false} CompleteHandled(s: State, w: nat, k: nat, quit: bool, o: Outcome)
    requires InRange(s) && Placed(s) && Handled(s) && w < |s.workers| && s.workers[w].WSetCompleted?
    ensures InRange(StepWorker(s, w, k, quit, o)) && Handled(StepWorker(s, w, k, quit, o))
  {
    InRangeWorker(s, w, k, quit, o);
  }

  lemma {:induction false} WorkerHandled(s: State, w: nat, k: nat, quit: bool, o: Outcome)
    requires InRange(s) && Placed(s) && Handled(s) && w < |s.workers|
    ensures InRange(StepWorker(s, w, k, quit, o)) && Handled(StepWorker(s, w, k, quit, o))
  {
    InRangeWorker(s, w, k, quit, o);
    match s.workers[w] {
      case WTake =>
      case WSetRunning(_) =>
      case WSetCompleted(_, _) => CompleteHandled(s, w, k, quit, o);
      case _ => assert StepWorker(s, w, k, quit, o).tasks == s.tasks;
    }
  }

  /** No place goes back to the queue, and finished tasks stay finished. */
  lemma {:induction false} WorkerDraining(s: State, w: nat, k: nat, quit: bool, o: Outcome)
    requires InRange(s) && Placed(s) && Draining(s) && w < |s.workers|
    ensures InRange(StepWorker(s, w, k, quit, o)) && Draining(StepWorker(s, w, k, quit, o))
  {
    InRangeWorker(s, w, k, quit, o);
    match s.workers[w] {
      case WTake =>
      case WSetCompleted(_, _) =>
      case _ => assert StepWorker(s, w, k, quit, o).place == s.place;
    }
  }

  lemma {:induction false} GroupNext(s: State, w: nat, k: nat, quit: bool, o: Outcome)
    requires w < |s.workers|
    ensures CountAfter(s.count, s.workers[w]).group - s.count.group
            == Counted(NextOf(s, w, k, quit, o)) - Counted(s.workers[w])
  {}

  lemma {:induction false} WorkerGrouped(s: State, w: nat, k: nat, quit: bool, o: Outcome)
    requires InRange(s) && Grouped(s) && w < |s.workers|
    ensures Grouped(StepWorker(s, w, k, quit, o))
  {
    WorkerShape(s, w, k, quit, o);
    GroupNext(s, w, k, quit, o);
    SumUpdate(s.workers, w, NextOf(s, w, k, quit, o), Counted);
  }

  lemma {:induction false} WorkerKeeps(s: State, w: nat, k: nat, quit: bool, o: Outcome)
    requires Inv(s) && w < |s.workers|
    ensures Inv(StepWorker(s, w, k, quit, o))
  {
    WorkerPlaced(s, w, k, quit, o);
    WorkerHandled(s, w, k, quit, o);
    WorkerDraining(s, w, k, quit, o);
    WorkerGrouped(s, w, k, quit, o);
  }

  lemma {:induction false} AddKeeps(s: State)
    requires Inv(s)
    ensures Inv(AddWorker(s))
  {
    InRangeAdd(s);
    SumAppend(s.workers, WCheck, Counted);
  }

  // ----- The other threads -----

  lemma {:induction false} EnqueuePlaced(s: State, i: nat)
    requires InRange(s) && Placed(s) && i < |s.subs| && s.subs[i].UEnqueue?
    ensures InRange(StepSubmitter(s, i)) && Placed(StepSubmitter(s, i))
  {
    InRangeSubmitter(s, i);
    var s' := StepSubmitter(s, i);
    forall id | 0 <= id < |s'.place| && s'.place[id] == Queued ensures id in s'.queue {
      if id == |s.place| {
        assert s'.queue[|s.queue|] == id;
      } else {
        assert id in s.queue;
      }
    }
  }

  lemma {:induction false} EnqueueKeeps(s: State, i: nat)
    requires Inv(s) && i < |s.subs| && s.subs[i].UEnqueue?
    ensures Inv(StepSubmitter(s, i))
  {
    EnqueuePlaced(s, i);
    var s' := StepSubmitter(s, i);
    assert s'.tasks == s.tasks + [NEW] && s'.place == s.place + [Queued];
  }

  lemma {:induction false} SubmitterKeeps(s: State, i: nat)
    requires Inv(s) && i < |s.subs|
    ensures Inv(StepSubmitter(s, i))
  {
    match s.subs[i] {
      case UEnqueue => EnqueueKeeps(s, i);
      case UAdd =>
        AddKeeps(s);
        FrameKeeps(AddWorker(s), StepSubmitter(s, i));
      case _ => FrameKeeps(s, StepSubmitter(s, i));
    }
  }

  lemma {:induction false} ScalerKeeps(s: State, load: Load)
    requires Inv(s)
    ensures Inv(StepScaler(s, load))
  {
    if s.scaler.ScAdd? && s.scaler.i < s.scaler.target {
      AddKeeps(s);
      FrameKeeps(AddWorker(s), StepScaler(s, load));
    } else {
      FrameKeeps(s, StepScaler(s, load));
    }
  }

  lemma {:induction false} StarterKeeps(s: State)
    requires Inv(s)
    ensures Inv(StepStarter(s))
  {
    if s.starter.StAdd? && s.starter.i < s.config.initial {
      AddKeeps(s);
      FrameKeeps(AddWorker(s), StepStarter(s));
    } else {
      FrameKeeps(s, StepStarter(s));
    }
  }

  /** The wait group is empty only when every worker is gone, and then no task is in anybody's
      hands. */
  lemma {:induction false} AllGoneAllFinished(s: State)
    requires Inv(s) && s.shutter.HWait? && s.count.group == 0
    ensures forall id :: 0 <= id < s.drained ==> s.place[id] == Finished
  {
    SumBounds(s.workers, Counted);
    forall w | 0 <= w < |s.workers| ensures s.workers[w].WGone? {
      assert Counted(s.workers[w]) != 1;
    }
  }

  lemma {:induction false} ShutterOrderly(s: State, giveUp: bool)
    requires Orderly(s)
    ensures Orderly(StepShutter(s, giveUp))
  {}

  lemma {:induction false} ChangeShutter(s: State, s': State)
    requires Inv(s) && Orderly(s')
    requires s'.queue == s.queue && s'.tasks == s.tasks && s'.place == s.place && s'.workers == s.workers
    requires s'.count == s.count && s'.drained <= |s.tasks|
    requires s'.shutter.HClose? || s'.shutter.HWait? ==>
               forall id :: 0 <= id < s'.drained ==> s.place[id] != Queued
    requires s'.shutter.HStop? || s'.shutter.HReturned? ==>
               forall id :: 0 <= id < s'.drained ==> s.place[id] == Finished
    ensures Inv(s')
  {}

  lemma {:induction false} ShutterKeeps(s: State, giveUp: bool)
    requires Inv(s)
    ensures Inv(StepShutter(s, giveUp))
  {
    if s.shutter.HWait? && s.count.group == 0 {
      AllGoneAllFinished(s);
    }
    var s' := StepShutter(s, giveUp);
    ShutterOrderly(s, giveUp);
    ChangeShutter(s, s');
  }

  lemma {:induction false} CancelHandled(s: State, id: nat)
    requires InRange(s) && Handled(s) && id < |s.tasks|
    ensures var s' := s.(tasks := s.tasks[id := Do(s.tasks[id], Cancel)]); InRange(s') && Handled(s')
  {}

  lemma {:induction false} CancelKeeps(s: State, id: nat)
    requires Inv(s) && id < |s.tasks|
    ensures Inv(Apply(s, CancelTask(id)))
  {
    CancelHandled(s, id);
    SamePlaced(s, Apply(s, CancelTask(id)));
  }

  lemma {:induction false} InvStep(s: State, step: Step)
    requires Inv(s)
    ensures Inv(Apply(s, step))
  {
    match step {
      case Submit(i) => if i < |s.subs| { SubmitterKeeps(s, i); }
      case Work(w, k, quit, o) =>
        if w < |s.workers| {
          WorkerKeeps(s, w, k, quit, o);
        }
      case Scale(load) => ScalerKeeps(s, load);
      case Start => StarterKeeps(s);
      case Shutdown(giveUp) => ShutterKeeps(s, giveUp);
      case CancelTask(id) => if id < |s.tasks| { CancelKeeps(s, id); }
    }
  }

  lemma {:induction false} InvRun(s: State, steps: seq<Step>)
    requires Inv(s)
    ensures Inv(Run(s, steps))
    decreases |steps|
  {
    if steps != [] {
      InvStep(s, steps[0]);
      InvRun(Apply(s, steps[0]), steps[1..]);
    }
  }

  /** When the Shutdown call that started the shutdown returns nil, every task enqueued before it
      saw the queue empty has been through SetCompleted and has its `done` channel closed. */
  lemma {:induction false} ShutdownCompletesTasks(c: Config, submitters: nat, steps: seq<Step>)
    ensures var s := Run(Init(c, submitters), steps);
            s.shutter.HReturned? ==>
              && s.drained <= |s.tasks|
              && forall id :: 0 <= id < s.drained ==>
                   s.tasks[id].outcome.Just? && s.tasks[id].doneClosed && s.tasks[id].closes == 1
  {
    InvRun(Init(c, submitters), steps);
  }

  /** In every run: each `done` channel is closed at most once whatever cancels race with the
      worker, no task is in two workers' hands, a worker that has left its loop holds none, and
      stopCh is never closed twice. */
  lemma {:induction false} NothingTwice(c: Config, submitters: nat, steps: seq<Step>)
    ensures var s := Run(Init(c, submitters), steps);
            && (forall id :: 0 <= id < |s.tasks| ==> s.tasks[id].closes <= 1)
            && (forall v, w :: 0 <= v < w < |s.workers| && Carries(s.workers[v]) && Carries(s.workers[w]) ==>
                  s.workers[v].id != s.workers[w].id)
            && (forall w, id :: 0 <= w < |s.workers| && 0 <= id < |s.place| && s.place[id] == Held(w) ==>
                  !s.workers[w].WExit? && !s.workers[w].WDone? && !s.workers[w].WGone?)
            && (s.shutter.HClose? ==> !s.stopClosed)
  {
    InvRun(Init(c, submitters), steps);
  }

  // ----- Submissions that overtake the shutdown -----

  /** From the moment Shutdown saw the queue empty until the next Start nothing is enqueued, unless a
      Submit was in flight at that moment. */
  predicate Sealed(s: State) {
    && (s.late ==> s.subs != [])
    && (!s.late && (s.shutter.HClose? || s.shutter.HWait? || s.shutter.HStop?
                    || (s.shutter.HReturned? && s.status == Stopped)) ==>
          s.drained == |s.tasks| && !InFlight(s))
  }

  lemma {:induction false} SealedSubmitter(s: State, i: nat)
    requires Orderly(s) && Sealed(s) && i < |s.subs|
    ensures Sealed(StepSubmitter(s, i))
  {
    var s' := StepSubmitter(s, i);
    if !InFlight(s) && s.status != Active {
      assert forall j :: 0 <= j < |s.subs| ==> !s.subs[j].UEnqueue? && (j != i ==> s'.subs[j] == s.subs[j]);
      assert !InFlight(s');
    }
  }

  /** Nobody else submits. */
  lemma {:induction false} SealedFrame(s: State, s': State)
    requires Sealed(s) && |s'.tasks| == |s.tasks| && s'.subs == s.subs && s'.drained == s.drained && s'.late == s.late
    requires s'.shutter == s.shutter && (s'.status == s.status || s'.status != Stopped)
    ensures Sealed(s')
  {}

  lemma {:induction false} SealedShutter(s: State, giveUp: bool)
    requires Sealed(s)
    ensures Sealed(StepShutter(s, giveUp))
  {
    assert InFlight(StepShutter(s, giveUp)) == InFlight(s);
    assert s.subs == [] ==> !InFlight(s);
  }

  lemma {:induction false} SealedCancel(s: State, id: nat)
    requires InRange(s) && Sealed(s) && id < |s.tasks|
    ensures Sealed(Apply(s, CancelTask(id)))
  {
    SealedFrame(s, Apply(s, CancelTask(id)));
  }

  lemma {:induction false} SealedStep(s: State, step: Step)
    requires Inv(s) && Sealed(s)
    ensures Sealed(Apply(s, step))
  {
    match step {
      case Submit(i) => if i < |s.subs| { SealedSubmitter(s, i); }
      case Work(w, k, quit, o) =>
        if w < |s.workers| {
          WorkerShape(s, w, k, quit, o);
          SealedFrame(s, StepWorker(s, w, k, quit, o));
        }
      case Shutdown(giveUp) => SealedShutter(s, giveUp);
      case Scale(load) => SealedFrame(s, StepScaler(s, load));
      case Start => SealedFrame(s, StepStarter(s));
      case CancelTask(id) => if id < |s.tasks| { SealedCancel(s, id); }
    }
  }

  lemma {:induction false} SameSubmitters(s: State, step: Step)
    requires InRange(s)
    ensures |Apply(s, step).subs| == |s.subs|
  {}

  lemma {:induction false} SealedRun(s: State, steps: seq<Step>)
    requires Inv(s) && Sealed(s)
    ensures Inv(Run(s, steps)) && Sealed(Run(s, steps)) && |Run(s, steps).subs| == |s.subs|
    decreases |steps|
  {
    if steps != [] {
      InvStep(s, steps[0]);
      SealedStep(s, steps[0]);
      SameSubmitters(s, steps[0]);
      SealedRun(Apply(s, steps[0]), steps[1..]);
    }
  }

  /** Every task that was ever accepted has a result. */
  predicate AllFinished(s: State) {
    forall id :: 0 <= id < |s.tasks| ==> s.tasks[id].outcome.Just?
  }

  /** When Shutdown returns nil and no Submit was in flight as it saw the queue empty, no task that was
      ever accepted is left without a result. */
  lemma {:induction false} NothingLeftBehind(c: Config, submitters: nat, steps: seq<Step>)
    ensures var s := Run(Init(c, submitters), steps);
            s.shutter.HReturned? && s.status == Stopped && (!s.late || submitters == 0) ==> AllFinished(s)
  {
    SealedRun(Init(c, submitters), steps);
  }
}
