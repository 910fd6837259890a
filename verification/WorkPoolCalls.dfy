/** Whole calls on the work pool, put together from their steps, and the states they reach. */
module WorkPoolCalls {
  import opened TaskHandles
  import opened WorkPoolProtocol
  import opened WorkPoolRuns

  ghost predicate Reached(c: Config, submitters: nat, s: State) {
    InRange(s) && exists steps :: Run(Init(c, submitters), steps) == s
  }

  lemma {:induction false} ReachedNext(c: Config, submitters: nat, s: State, step: Step)
    requires Reached(c, submitters, s)
    ensures Reached(c, submitters, Apply(s, step))
  {
    var steps :| Run(Init(c, submitters), steps) == s;
    InRangeStep(s, step);
    RunAppend(Init(c, submitters), steps, [step]);
    RunOne(s, step);
    assert Run(Init(c, submitters), steps + [step]) == Apply(s, step);
  }

  lemma {:induction false} ReachedInit(c: Config, submitters: nat)
    ensures Reached(c, submitters, Init(c, submitters))
  {
    assert Run(Init(c, submitters), []) == Init(c, submitters);
  }

  predicate AllAt(workers: seq<Worker>, from: nat, pc: Worker) {
    forall w :: from <= w < |workers| ==> workers[w] == pc
  }

  // ----- Start -----

  /** `s'` is `s` with `k` workers more. */
  predicate Grown(s: State, s': State, k: nat) {
    var c := s.count;
    && s' == s.(workers := s'.workers, count := Counters(c.workers + k, c.active, c.idle + k, c.group + k))
    && |s'.workers| == |s.workers| + k && s.workers <= s'.workers && AllAt(s'.workers, |s.workers|, WCheck)
  }

  lemma {:induction false} GrownOne(s: State, s': State, k: nat)
    requires Grown(s, s', k)
    ensures Grown(s, AddWorker(s'), k + 1)
  {}

  /** Start has read a worker count of zero. */
  function Starting(s: State): State {
    s.(status := Active, statusHeld := true, stopClosed := false, starter := StAdd(0), starts := s.starts + 1)
  }

  lemma {:induction false} Begin(c: Config, submitters: nat, s: State)
    requires Reached(c, submitters, s) && s.starter.StIdle? && s.status != Active && s.status != ShuttingDown
    requires s.count.workers == 0
    ensures Reached(c, submitters, Starting(s))
  {
    ReachedNext(c, submitters, s, Start);
    var a := Starting(s).(starter := StLoad);
    assert Apply(s, Start) == a;
    ReachedNext(c, submitters, a, Start);
    assert Apply(a, Start) == Starting(s);
  }

  lemma {:induction false} StarterAddsOne(c: Config, submitters: nat, s: State, s': State, k: nat)
    requires Reached(c, submitters, s') && Grown(s.(starter := StAdd(k)), s', k) && k < s.config.initial
    ensures Reached(c, submitters, AddWorker(s').(starter := StAdd(k + 1)))
    ensures Grown(s.(starter := StAdd(k + 1)), AddWorker(s').(starter := StAdd(k + 1)), k + 1)
  {
    ReachedNext(c, submitters, s', Start);
    GrownOne(s.(starter := StAdd(k)), s', k);
    assert Apply(s', Start) == AddWorker(s').(starter := StAdd(k + 1));
  }

  /** It adds its workers. */
  lemma {:induction false} StarterAdds(c: Config, submitters: nat, s: State) returns (s': State)
    requires Reached(c, submitters, s) && s.starter == StAdd(0)
    ensures Reached(c, submitters, s') && Grown(s.(starter := StAdd(s.config.initial)), s', s.config.initial)
  {
    s' := s;
    var k := 0;
    while k < s.config.initial
      invariant k <= s.config.initial && Reached(c, submitters, s') && Grown(s.(starter := StAdd(k)), s', k)
    {
      StarterAddsOne(c, submitters, s, s', k);
      s' := AddWorker(s').(starter := StAdd(k + 1));
      k := k + 1;
    }
  }

  /** A whole Start, but for its return. */
  lemma {:induction false} StartUp(c: Config, submitters: nat, s: State) returns (s': State)
    requires Reached(c, submitters, s) && s.starter.StIdle? && s.status != Active && s.status != ShuttingDown
    requires s.count.workers == 0
    ensures Reached(c, submitters, s')
    ensures Grown(Starting(s).(starter := StAdd(s.config.initial)), s', s.config.initial)
  {
    Begin(c, submitters, s);
    s' := StarterAdds(c, submitters, Starting(s));
  }

  /** A running pool of `k` workers, all of them idle. */
  predicate Rested(s: State, c: Config, submitters: nat, k: nat) {
    && s == Init(c, submitters).(status := Active, starts := 1, workers := s.workers, count := Counters(k, 0, k, k))
    && |s.workers| == k && AllAt(s.workers, 0, WCheck)
  }

  lemma {:induction false} FirstStart(c: Config, submitters: nat) returns (s: State)
    ensures Reached(c, submitters, s) && Rested(s, c, submitters, Normalize(c).initial)
  {
    ReachedInit(c, submitters);
    s := StartUp(c, submitters, Init(c, submitters));
    ReachedNext(c, submitters, s, Start);
    s := Apply(s, Start);
  }

  // ----- Shutdown -----

  /** stopCh has been closed. */
  function Closing(s: State): State {
    s.(status := ShuttingDown, drained := |s.tasks|, late := InFlight(s), stopClosed := true, shutter := HWait)
  }

  lemma {:induction false} CloseStop(c: Config, submitters: nat, s: State)
    requires Reached(c, submitters, s) && s.status == Active && !s.statusHeld && s.queue == [] && s.shutter == HIdle
    ensures Reached(c, submitters, Closing(s))
  {
    var go := Shutdown(false);
    var a := s.(status := ShuttingDown, shutter := HPoll);
    var b := a.(drained := |s.tasks|, late := InFlight(s), shutter := HClose);
    ReachedNext(c, submitters, s, go);
    assert Apply(s, go) == a;
    ReachedNext(c, submitters, a, go);
    assert Apply(a, go) == b;
    ReachedNext(c, submitters, b, go);
    assert Apply(b, go) == Closing(s);
  }

  /** Worker `k`, one of `n` and idle, has left. */
  function Left(s: State, k: nat, n: int): State
    requires k < |s.workers|
  {
    s.(workers := s.workers[k := WGone], count := Counters(n - 1, 0, n - 1, n - 1))
  }

  lemma {:induction false} LeaveLoop(c: Config, submitters: nat, s: State, k: nat)
    requires Reached(c, submitters, s) && k < |s.workers| && s.stopClosed && s.workers[k] == WCheck
    ensures Reached(c, submitters, s.(workers := s.workers[k := WExit]))
  {
    ReachedNext(c, submitters, s, Work(k, 0, false, Error));
    assert Apply(s, Work(k, 0, false, Error)) == s.(workers := s.workers[k := WExit]);
  }

  lemma {:induction false} LeaveCounters(c: Config, submitters: nat, s: State, k: nat, n: nat)
    requires Reached(c, submitters, s) && k < |s.workers| && s.workers[k] == WExit
    requires n > 0 && s.count == Counters(n, 0, n, n)
    ensures Reached(c, submitters, Left(s, k, n))
  {
    var step := Work(k, 0, false, Error);
    ReachedNext(c, submitters, s, step);
    var b := s.(workers := s.workers[k := WDone], count := Counters(n - 1, 0, n - 1, n));
    assert Apply(s, step) == b;
    ReachedNext(c, submitters, b, step);
    assert Apply(b, step) == Left(s, k, n) by {
      assert b.workers[k := WGone] == Left(s, k, n).workers;
    }
  }

  lemma {:induction false} Leave(c: Config, submitters: nat, s: State, k: nat, n: nat)
    requires Reached(c, submitters, s) && k < |s.workers| && s.stopClosed && s.workers[k] == WCheck
    requires n > 0 && s.count == Counters(n, 0, n, n)
    ensures Reached(c, submitters, Left(s, k, n))
  {
    LeaveLoop(c, submitters, s, k);
    LeaveCounters(c, submitters, s.(workers := s.workers[k := WExit]), k, n);
    assert s.workers[k := WExit][k := WGone] == s.workers[k := WGone];
  }

  /** Worker after worker leaves. */
  lemma {:induction false} LeaveAll(c: Config, submitters: nat, s: State) returns (s': State)
    requires Reached(c, submitters, s) && s.stopClosed && AllAt(s.workers, 0, WCheck)
    requires var n := |s.workers|; s.count == Counters(n, 0, n, n)
    ensures Reached(c, submitters, s') && s' == s.(workers := s'.workers, count := Counters(0, 0, 0, 0))
    ensures |s'.workers| == |s.workers| && AllAt(s'.workers, 0, WGone)
  {
    s' := s;
    var k, n := 0, |s.workers|;
    while k < n
      invariant k <= n == |s'.workers| && Reached(c, submitters, s')
      invariant s' == s.(workers := s'.workers, count := Counters(n - k, 0, n - k, n - k))
      invariant AllAt(s'.workers, k, WCheck) && forall w :: 0 <= w < k ==> s'.workers[w] == WGone
    {
      Leave(c, submitters, s', k, n - k);
      s' := Left(s', k, n - k);
      k := k + 1;
    }
  }

  /** All workers are gone, the pool is stopped, and Shutdown has returned nil. */
  predicate Ended(s: State, s': State) {
    && s' == Closing(s).(status := Stopped, shutter := HReturned, workers := s'.workers, count := Counters(0, 0, 0, 0))
    && |s'.workers| == |s.workers| && AllAt(s'.workers, 0, WGone)
  }

  /** A shutdown of an idle pool goes through. */
  lemma {:induction false} Stop(c: Config, submitters: nat, s: State) returns (s': State)
    requires Reached(c, submitters, s) && s.status == Active && !s.statusHeld && s.queue == [] && s.shutter == HIdle
    requires AllAt(s.workers, 0, WCheck)
    requires var n := |s.workers|; s.count == Counters(n, 0, n, n)
    ensures Reached(c, submitters, s') && Ended(s, s')
  {
    var go := Shutdown(false);
    CloseStop(c, submitters, s);
    var a := LeaveAll(c, submitters, Closing(s));
    ReachedNext(c, submitters, a, go);
    var b := a.(shutter := HStop);
    assert Apply(a, go) == b;
    ReachedNext(c, submitters, b, go);
    s' := Apply(b, go);
  }

  // ----- A task -----

  /** Worker `w` takes one step. */
  lemma {:induction false} Labour(c: Config, submitters: nat, s: State, w: nat) returns (s': State)
    requires Reached(c, submitters, s) && w < |s.workers|
    ensures Reached(c, submitters, s')
    ensures s' == s.(workers := s.workers[w := NextOf(s, w, 0, false, Value(0))], queue := s'.queue, place := s'.place,
                     tasks := s'.tasks, count := CountAfter(s.count, s.workers[w]), metrics := s'.metrics)
    ensures s'.queue == if Takes(s, s.workers[w]) then s.queue[1..] else s.queue
  {
    ReachedNext(c, submitters, s, Work(w, 0, false, Value(0)));
    s' := Apply(s, Work(w, 0, false, Value(0)));
    assert s.queue != [] ==> s.queue[..0] + s.queue[1..] == s.queue[1..];
  }

  /** Worker `w` takes the only task, and counts itself active. */
  lemma {:induction false} TakeTask(c: Config, submitters: nat, s: State, w: nat) returns (s': State)
    requires Reached(c, submitters, s) && w < |s.workers| && s.workers[w] == WCheck && |s.queue| == 1
    requires !s.stopClosed && !s.cancelled
    ensures Reached(c, submitters, s')
    ensures s' == s.(workers := s.workers[w := WSetRunning(s.queue[0])], queue := [], place := s'.place,
                     tasks := s'.tasks, metrics := s'.metrics,
                     count := s.count.(idle := s.count.idle - 1, active := s.count.active + 1))
  {
    var id := s.queue[0];
    s' := Labour(c, submitters, s, w);
    s' := Labour(c, submitters, s', w);
    assert s'.workers == s.workers[w := WLeaveIdle(id)];
    s' := Labour(c, submitters, s', w);
    assert s'.workers == s.workers[w := WEnterActive(id)];
    s' := Labour(c, submitters, s', w);
    assert s'.workers == s.workers[w := WSetRunning(id)];
  }

  // ----- Submit -----

  /** Submitter 0 takes one step, which takes no lock. */
  lemma {:induction false} SubmitStep(c: Config, submitters: nat, s: State) returns (s': State)
    requires Reached(c, submitters, s) && s.subs != [] && !s.subs[0].UTryAdd? && !s.subs[0].UAdd?
    ensures Reached(c, submitters, s')
    ensures s' == s.(subs := s.subs[0 := NextSubmitter(s, s.subs[0])], queue := s'.queue, tasks := s'.tasks,
                     place := s'.place, metrics := s'.metrics)
    ensures if s.subs[0].UEnqueue? then
              s'.queue == s.queue + [|s.tasks|] && s'.tasks == s.tasks + [NEW] && s'.place == s.place + [Queued]
            else s'.queue == s.queue && s'.tasks == s.tasks && s'.place == s.place
  {
    ReachedNext(c, submitters, s, Submit(0));
    s' := Apply(s, Submit(0));
  }

  /** Submitter 0 has found the pool running and not yet enqueued its task. */
  lemma {:induction false} SubmitBegun(c: Config, submitters: nat, s: State) returns (s': State)
    requires Reached(c, submitters, s) && s.subs != [] && s.subs[0] == UIdle && !s.statusHeld && s.status == Active
    ensures Reached(c, submitters, s') && s' == s.(subs := s.subs[0 := UEnqueue], metrics := s'.metrics)
  {
    s' := SubmitStep(c, submitters, s);
    s' := SubmitStep(c, submitters, s');
    assert s.subs[0 := UCheck][0 := UEnqueue] == s.subs[0 := UEnqueue];
  }

  /** A submitter enqueues its task and counts it. */
  lemma {:induction false} Enqueue(c: Config, submitters: nat, s: State) returns (s': State)
    requires Reached(c, submitters, s) && s.subs != [] && s.subs[0] == UEnqueue && s.queue == [] && s.tasks == []
    ensures Reached(c, submitters, s') && s'.subs != [] && s'.subs[0] == UCompare
    ensures s' == s.(subs := s'.subs, queue := [0], tasks := [NEW], place := s'.place, metrics := s'.metrics)
  {
    s' := SubmitStep(c, submitters, s);
    s' := SubmitStep(c, submitters, s');
    s' := SubmitStep(c, submitters, s');
  }

  /** The pool has been started and shut down under a submitter that had found it running. */
  lemma {:induction false} LateSubmitter(c: Config, submitters: nat) returns (s: State)
    requires submitters > 0
    ensures Reached(c, submitters, s) && s.config == Normalize(c) && s.status == Stopped && s.starts == 1
    ensures s.shutter == HReturned && s.late && s.starter.StIdle? && !s.statusHeld && s.scaleLock == Free
    ensures s.count == Counters(0, 0, 0, 0) && |s.workers| == s.config.initial && AllAt(s.workers, 0, WGone)
    ensures s.queue == [] && s.tasks == [] && !s.cancelled
    ensures s.subs != [] && s.subs[0] == UEnqueue && s.scaler.ScIdle?
  {
    s := FirstStart(c, submitters);
    s := SubmitBegun(c, submitters, s);
    assert s.subs[0].UEnqueue?;
    s := Stop(c, submitters, s);
  }
}
