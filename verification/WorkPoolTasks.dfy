/**
 The life of one task, as an observer of the schedule sees it: the calls made on its handle and what its
 Execute returned; and the metrics that count how tasks ended.
 */
module WorkPoolTasks {
  import opened Basics
  import opened Counting
  import opened TaskHandles
  import opened WorkPoolProtocol
  import opened WorkPoolShutdown
  import opened WorkPoolLedgers

  /** The operations on the handle, in order, and the results of Execute. */
  datatype Life = Life(calls: seq<Op>, results: seq<Outcome>)

  /** What a step adds to the life of task `id`. */
  function LifeAfter(life: Life, s: State, step: Step, id: nat): Life {
    match step
    case CancelTask(j) => if j == id < |s.tasks| then life.(calls := life.calls + [Cancel]) else life
    case Work(w, k, quit, o) =>
      if w >= |s.workers| then life
      else if s.workers[w] == WSetRunning(id) then life.(calls := life.calls + [SetRunning])
      else if s.workers[w] == WExecute(id) then life.(results := life.results + [o])
      else if s.workers[w].WSetCompleted? && s.workers[w].id == id then
        life.(calls := life.calls + [SetCompleted(s.workers[w].o)])
      else life
    case _ => life
  }

  /** The life of task `id` in a run. */
  function LifeOf(life: Life, s: State, steps: seq<Step>, id: nat): Life
    requires InRange(s)
    decreases |steps|
  {
    if steps == [] then life
    else
      InRangeStep(s, steps[0]);
      LifeOf(LifeAfter(life, s, steps[0], id), Apply(s, steps[0]), steps[1..], id)
  }

  /** Only cancels but for one SetRunning between them. */
  ghost predicate Ran(calls: seq<Op>, before: seq<Op>, during: seq<Op>) {
    OnlyCancels(before) && OnlyCancels(during) && calls == before + [SetRunning] + during
  }

  ghost predicate Started(calls: seq<Op>) { exists before, during :: Ran(calls, before, during) }

  /** The worker's order of calls, with any cancels between them. */
  ghost predicate Done(calls: seq<Op>, during: seq<Op>, o: Outcome, after: seq<Op>) {
    Started(during) && OnlyCancels(after) && calls == during + [SetCompleted(o)] + after
  }

  ghost predicate Concluded(calls: seq<Op>, o: Outcome) { exists during, after :: Done(calls, during, o, after) }

  /** What has happened to a task that its worker `pc` holds. */
  ghost predicate LifeInHand(life: Life, pc: Worker) {
    if pc.WTaskStarted? || pc.WExecute? then Started(life.calls) && life.results == []
    else if pc.WSetCompleted? then Started(life.calls) && life.results == [pc.o]
    else OnlyCancels(life.calls) && life.results == []
  }

  /** The life fits where the task is. */
  ghost predicate LifeFits(s: State, id: nat, life: Life)
    requires InRange(s)
  {
    if id >= |s.tasks| then life == Life([], [])
    else
      && s.tasks[id] == DoAll(NEW, life.calls)
      && match s.place[id]
         case Queued => OnlyCancels(life.calls) && life.results == []
         case Held(w) => w < |s.workers| && LifeInHand(life, s.workers[w])
         case Finished => |life.results| == 1 && Concluded(life.calls, life.results[0])
  }

  /** One more call on a handle. */
  lemma {:induction false} OneMoreCall(calls: seq<Op>, op: Op)
    ensures DoAll(NEW, calls + [op]) == Do(DoAll(NEW, calls), op)
  {
    DoAllAppend(NEW, calls, [op]);
    assert [op][1..] == [];
  }

  /** A cancel fits in anywhere. */
  lemma {:induction false} CancelFits(calls: seq<Op>)
    ensures OnlyCancels(calls) ==> OnlyCancels(calls + [Cancel])
    ensures Started(calls) ==> Started(calls + [Cancel])
    ensures forall o :: Concluded(calls, o) ==> Concluded(calls + [Cancel], o)
  {
    if Started(calls) {
      var before, during :| Ran(calls, before, during);
      assert Ran(calls + [Cancel], before, during + [Cancel]);
    }
    forall o | Concluded(calls, o) ensures Concluded(calls + [Cancel], o) {
      var during, after :| Done(calls, during, o, after);
      assert Done(calls + [Cancel], during, o, after + [Cancel]);
    }
  }

  lemma {:induction false} StartedNext(calls: seq<Op>)
    requires OnlyCancels(calls)
    ensures Started(calls + [SetRunning])
  {
    assert Ran(calls + [SetRunning], calls, []);
  }

  lemma {:induction false} ConcludedNext(calls: seq<Op>, o: Outcome)
    requires Started(calls)
    ensures Concluded(calls + [SetCompleted(o)], o)
  {
    assert Done(calls + [SetCompleted(o)], calls, o, []);
  }

  lemma {:induction false} HandCancel(life: Life, pc: Worker)
    requires LifeInHand(life, pc)
    ensures LifeInHand(life.(calls := life.calls + [Cancel]), pc)
  {
    CancelFits(life.calls);
  }

  /** The task itself is cancelled. */
  lemma {:induction false} LifeCancelled(s: State, id: nat, life: Life)
    requires Inv(s) && LifeFits(s, id, life) && id < |s.tasks|
    ensures InRange(Apply(s, CancelTask(id)))
    ensures LifeFits(Apply(s, CancelTask(id)), id, life.(calls := life.calls + [Cancel]))
  {
    OneMoreCall(life.calls, Cancel);
    match s.place[id] {
      case Held(w) => HandCancel(life, s.workers[w]);
      case _ => CancelFits(life.calls);
    }
  }

  lemma {:induction false} LifeCancel(s: State, j: nat, id: nat, life: Life)
    requires Inv(s) && LifeFits(s, id, life)
    ensures InRange(Apply(s, CancelTask(j)))
    ensures LifeFits(Apply(s, CancelTask(j)), id, LifeAfter(life, s, CancelTask(j), id))
  {
    InRangeStep(s, CancelTask(j));
    if j == id < |s.tasks| {
      LifeCancelled(s, id, life);
    }
  }

  /** The worker that holds the task goes on. */
  lemma {:induction false} LifeInHandNext(s: State, w: nat, k: nat, quit: bool, o: Outcome, id: nat, life: Life)
    requires Inv(s) && w < |s.workers| && Carries(s.workers[w]) && s.workers[w].id == id && LifeFits(s, id, life)
    ensures InRange(StepWorker(s, w, k, quit, o))
    ensures LifeFits(StepWorker(s, w, k, quit, o), id, LifeAfter(life, s, Work(w, k, quit, o), id))
  {
    InRangeWorker(s, w, k, quit, o);
    match s.workers[w] {
      case WSetRunning(_) =>
        OneMoreCall(life.calls, SetRunning);
        StartedNext(life.calls);
      case WSetCompleted(_, r) =>
        OneMoreCall(life.calls, SetCompleted(r));
        ConcludedNext(life.calls, r);
      case _ =>
    }
  }

  /** A worker that holds another task, or none. */
  lemma {:induction false} LifeElsewhere(s: State, w: nat, k: nat, quit: bool, o: Outcome, id: nat, life: Life)
    requires Inv(s) && w < |s.workers| && LifeFits(s, id, life)
    requires !(Carries(s.workers[w]) && s.workers[w].id == id)
    ensures InRange(StepWorker(s, w, k, quit, o))
    ensures LifeFits(StepWorker(s, w, k, quit, o), id, LifeAfter(life, s, Work(w, k, quit, o), id))
  {
    InRangeWorker(s, w, k, quit, o);
    var s' := StepWorker(s, w, k, quit, o);
    assert LifeAfter(life, s, Work(w, k, quit, o), id) == life;
    if id < |s.tasks| {
      assert s'.tasks[id] == s.tasks[id];
      assert s.place[id].Held? ==> s.place[id].w != w;
      if Takes(s, s.workers[w]) && s.queue[Chosen(s, k)] == id {
        assert s.place[id] == Queued && s'.place[id] == Held(w);
      } else {
        assert s'.place[id] == s.place[id];
      }
    }
  }

  /** A step that leaves the tasks in being, and the workers that hold them, alone. */
  lemma {:induction false} LifeFrame(s: State, s': State, id: nat, life: Life)
    requires InRange(s) && InRange(s') && LifeFits(s, id, life)
    requires s.tasks <= s'.tasks && s.place <= s'.place && s.workers <= s'.workers
    requires id == |s.tasks| < |s'.tasks| ==> s'.tasks[id] == NEW && s'.place[id] == Queued
    requires |s'.tasks| <= |s.tasks| + 1
    ensures LifeFits(s', id, life)
  {}

  lemma {:induction false} LifeSubmit(s: State, i: nat, id: nat, life: Life)
    requires Inv(s) && i < |s.subs| && LifeFits(s, id, life)
    ensures InRange(StepSubmitter(s, i)) && LifeFits(StepSubmitter(s, i), id, life)
  {
    InRangeSubmitter(s, i);
    LifeFrame(s, StepSubmitter(s, i), id, life);
  }

  /** Workers may be added. */
  lemma {:induction false} LifeGrow(s: State, step: Step, id: nat, life: Life)
    requires Inv(s) && (step.Scale? || step.Start? || step.Shutdown?) && LifeFits(s, id, life)
    ensures InRange(Apply(s, step)) && LifeFits(Apply(s, step), id, life)
  {
    InRangeStep(s, step);
    var s' := Apply(s, step);
    assert s'.tasks == s.tasks && s'.place == s.place && s.workers <= s'.workers;
    LifeFrame(s, s', id, life);
  }

  lemma {:induction false} LifeStep(s: State, step: Step, id: nat, life: Life)
    requires Inv(s) && LifeFits(s, id, life)
    ensures InRange(Apply(s, step)) && LifeFits(Apply(s, step), id, LifeAfter(life, s, step, id))
  {
    InRangeStep(s, step);
    match step {
      case CancelTask(j) => LifeCancel(s, j, id, life);
      case Work(w, k, quit, o) =>
        if w < |s.workers| {
          if Carries(s.workers[w]) && s.workers[w].id == id {
            LifeInHandNext(s, w, k, quit, o, id, life);
          } else {
            LifeElsewhere(s, w, k, quit, o, id, life);
          }
        }
      case Submit(i) => if i < |s.subs| { LifeSubmit(s, i, id, life); }
      case _ => LifeGrow(s, step, id, life);
    }
  }

  lemma {:induction false} LifeRun(s: State, steps: seq<Step>, id: nat, life: Life)
    requires Inv(s) && LifeFits(s, id, life)
    ensures Inv(Run(s, steps)) && LifeFits(Run(s, steps), id, LifeOf(life, s, steps, id))
    decreases |steps|
  {
    if steps != [] {
      InvStep(s, steps[0]);
      LifeStep(s, steps[0], id, life);
      LifeRun(Apply(s, steps[0]), steps[1..], id, LifeAfter(life, s, steps[0], id));
    }
  }

  /** What a handle shows after these calls. */
  lemma {:induction false} CallsDecide(calls: seq<Op>)
    ensures OnlyCancels(calls) ==>
      DoAll(NEW, calls).status == (if calls == [] then Pending else Canceled) && DoAll(NEW, calls).outcome == Nothing
    ensures Started(calls) ==>
      && DoAll(NEW, calls).outcome == Nothing
      && (DoAll(NEW, calls).status == Running || (DoAll(NEW, calls).status == Canceled && Cancel in calls))
    ensures forall o :: Concluded(calls, o) ==>
      var h := DoAll(NEW, calls);
      && h.outcome == Just(o) && h.closes == 1
      && (h.status == Completed <==> o.Value?) && (h.status == Failed <==> o.Error?)
      && (h.status == Canceled <==> o.ContextError?)
  {
    if OnlyCancels(calls) {
      CanceledUnstarted(calls);
    }
    if Started(calls) {
      var before, during :| Ran(calls, before, during);
      CanceledWhileRunning(before, during);
      assert during != [] ==> calls[|calls| - 1] == Cancel;
    }
    forall o | Concluded(calls, o)
      ensures var h := DoAll(NEW, calls);
              && h.outcome == Just(o) && h.closes == 1
              && (h.status == Completed <==> o.Value?) && (h.status == Failed <==> o.Error?)
              && (h.status == Canceled <==> o.ContextError?)
    {
      var most, after :| Done(calls, most, o, after);
      var before, during :| Ran(most, before, during);
      WorkerDecides(before, during, after, o);
    }
  }

  /** Execute is about to be called, or has returned and its result is about to be set. */
  predicate Executes(pc: Worker, id: nat) { pc == WExecute(id) || (pc.WSetCompleted? && pc.id == id) }

  /** Any number of threads, any schedule: the handle is what the calls on it make of it, one at a time, in
      their order. Execute is called at most once for a task; the handle has a result only if it was, and then
      it is what Execute returned: a value makes the status Completed, an ordinary error Failed, a context
      error Canceled, whatever cancels were called and when. While Execute is under way and until its result
      is set, the status is Running, or Canceled if Cancel was called. */
  lemma {:induction false} ResultIsExecuted(c: Config, submitters: nat, steps: seq<Step>, id: nat)
    ensures var s, life := Run(Init(c, submitters), steps), LifeOf(Life([], []), Init(c, submitters), steps, id);
            id < |s.tasks| ==>
              var h := s.tasks[id];
              && h == DoAll(NEW, life.calls) && |life.results| <= 1
              && (h.outcome.Just? ==>
                    && life.results == [h.outcome.value] && h.closes == 1
                    && (h.status == Completed <==> h.outcome.value.Value?)
                    && (h.status == Failed <==> h.outcome.value.Error?)
                    && (h.status == Canceled <==> h.outcome.value.ContextError?))
              && (forall w :: 0 <= w < |s.workers| && Executes(s.workers[w], id) ==>
                    h.outcome == Nothing && (h.status == Running || (h.status == Canceled && Cancel in life.calls)))
  {
    var s0 := Init(c, submitters);
    InitInv(c, submitters);
    LifeRun(s0, steps, id, Life([], []));
    CallsDecide(LifeOf(Life([], []), s0, steps, id).calls);
  }

  lemma {:induction false} InitInv(c: Config, submitters: nat)
    ensures Inv(Init(c, submitters))
  {}

  // ----- How tasks ended, in the metrics -----

  /** 1 for a task whose Execute returned a value, */
  function Succeeded(h: Handle): int { if h.outcome.Just? && h.outcome.value.Value? then 1 else 0 }

  /** and for one whose Execute returned an error. */
  function Erred(h: Handle): int { if h.outcome.Just? && !h.outcome.value.Value? then 1 else 0 }

  /** 1 for a worker that is about to count a task completed, or failed. */
  function CountsOk(w: Worker): int { if w.WCount? && w.ok then 1 else 0 }

  function CountsError(w: Worker): int { if w.WCount? && !w.ok then 1 else 0 }

  predicate OkFits(s: State) { s.metrics.completed == Wrap(Sum(s.tasks, Succeeded) - Sum(s.workers, CountsOk)) }

  predicate ErrorFits(s: State) { s.metrics.failed == Wrap(Sum(s.tasks, Erred) - Sum(s.workers, CountsError)) }

  /** What a worker's step does to its own part of the sums, */
  lemma {:induction false} EndingNext(s: State, w: nat, k: nat, quit: bool, o: Outcome)
    requires w < |s.workers|
    ensures var pc, next := s.workers[w], NextOf(s, w, k, quit, o);
            && CountsOk(next) - CountsOk(pc) ==
                 (if pc.WSetCompleted? && pc.o.Value? then 1 else if pc.WCount? && pc.ok then -1 else 0)
            && CountsError(next) - CountsError(pc) ==
                 (if pc.WSetCompleted? && !pc.o.Value? then 1 else if pc.WCount? && !pc.ok then -1 else 0)
  {}

  /** and to those over the tasks. */
  lemma {:induction false} EndingTasks(tasks: seq<Handle>, pc: Worker)
    requires Carries(pc) ==> pc.id < |tasks|
    requires pc.WSetCompleted? ==> tasks[pc.id].outcome == Nothing
    ensures var tasks' := TasksAfter(tasks, pc);
            && Sum(tasks', Succeeded) - Sum(tasks, Succeeded) == (if pc.WSetCompleted? && pc.o.Value? then 1 else 0)
            && Sum(tasks', Erred) - Sum(tasks, Erred) == (if pc.WSetCompleted? && !pc.o.Value? then 1 else 0)
  {
    if pc.WSetRunning? || pc.WSetCompleted? {
      var h := TasksAfter(tasks, pc)[pc.id];
      SumUpdate(tasks, pc.id, h, Succeeded);
      SumUpdate(tasks, pc.id, h, Erred);
    }
  }

  lemma {:induction false} EndingWorker(s: State, w: nat, k: nat, quit: bool, o: Outcome)
    requires InRange(s) && OkFits(s) && ErrorFits(s) && w < |s.workers|
    requires s.workers[w].WSetCompleted? ==> s.tasks[s.workers[w].id].outcome == Nothing
    ensures OkFits(StepWorker(s, w, k, quit, o)) && ErrorFits(StepWorker(s, w, k, quit, o))
  {
    var next, pc := NextOf(s, w, k, quit, o), s.workers[w];
    WorkerShape(s, w, k, quit, o);
    EndingNext(s, w, k, quit, o);
    EndingTasks(s.tasks, pc);
    SumUpdate(s.workers, w, next, CountsOk);
    SumUpdate(s.workers, w, next, CountsError);
    if pc.WCount? {
      WrapCounter(s.metrics.completed, Sum(s.tasks, Succeeded) - Sum(s.workers, CountsOk), 1);
      WrapCounter(s.metrics.failed, Sum(s.tasks, Erred) - Sum(s.workers, CountsError), 1);
    }
  }

  /** Workers may be added. */
  lemma {:induction false} EndingGrow(s: State, s': State)
    requires OkFits(s) && ErrorFits(s) && s'.metrics == s.metrics && s'.tasks == s.tasks
    requires s'.workers == s.workers || s'.workers == s.workers + [WCheck]
    ensures OkFits(s') && ErrorFits(s')
  {
    SumAppend(s.workers, WCheck, CountsOk);
    SumAppend(s.workers, WCheck, CountsError);
  }

  lemma {:induction false} EndingSubmitter(s: State, i: nat)
    requires InRange(s) && OkFits(s) && ErrorFits(s) && i < |s.subs|
    ensures OkFits(StepSubmitter(s, i)) && ErrorFits(StepSubmitter(s, i))
  {
    SumAppend(s.tasks, NEW, Succeeded);
    SumAppend(s.tasks, NEW, Erred);
    SumAppend(s.workers, WCheck, CountsOk);
    SumAppend(s.workers, WCheck, CountsError);
  }

  lemma {:induction false} EndingCancel(s: State, id: nat)
    requires InRange(s) && OkFits(s) && ErrorFits(s) && id < |s.tasks|
    ensures OkFits(Apply(s, CancelTask(id))) && ErrorFits(Apply(s, CancelTask(id)))
  {
    SumUpdate(s.tasks, id, Do(s.tasks[id], Cancel), Succeeded);
    SumUpdate(s.tasks, id, Do(s.tasks[id], Cancel), Erred);
  }

  lemma {:induction false} EndingStep(s: State, step: Step)
    requires Inv(s) && OkFits(s) && ErrorFits(s)
    ensures OkFits(Apply(s, step)) && ErrorFits(Apply(s, step))
  {
    match step {
      case Work(w, k, quit, o) => if w < |s.workers| { EndingWorker(s, w, k, quit, o); }
      case Submit(i) => if i < |s.subs| { EndingSubmitter(s, i); }
      case CancelTask(id) => if id < |s.tasks| { EndingCancel(s, id); }
      case Scale(load) => EndingGrow(s, StepScaler(s, load));
      case Start => EndingGrow(s, StepStarter(s));
      case Shutdown(giveUp) => EndingGrow(s, StepShutter(s, giveUp));
    }
  }

  lemma {:induction false} EndingRun(s: State, steps: seq<Step>)
    requires Inv(s) && OkFits(s) && ErrorFits(s)
    ensures OkFits(Run(s, steps)) && ErrorFits(Run(s, steps))
    decreases |steps|
  {
    if steps != [] {
      InvStep(s, steps[0]);
      EndingStep(s, steps[0]);
      EndingRun(Apply(s, steps[0]), steps[1..]);
    }
  }

  /** CompletedTasks counts the tasks whose Execute returned a value and FailedTasks those whose Execute
      returned an error, modulo 2^64, but for those that a worker is about to count. */
  lemma {:induction false} OutcomesCounted(c: Config, submitters: nat, steps: seq<Step>)
    ensures var s := Run(Init(c, submitters), steps);
            && s.metrics.completed == Wrap(Sum(s.tasks, Succeeded) - Sum(s.workers, CountsOk))
            && s.metrics.failed == Wrap(Sum(s.tasks, Erred) - Sum(s.workers, CountsError))
  {
    InitInv(c, submitters);
    EndingRun(Init(c, submitters), steps);
  }
}
