/** How many workers restarts can pile up: for every configuration, whether MaxWorkers survives them. */
module WorkPoolRestarts {
  import opened TaskHandles
  import opened WorkPoolCalls
  import opened WorkPoolLedgers
  import opened WorkPoolLimits
  import opened WorkPoolProtocol

  /** No restart can lead beyond the maximum: Start adds nobody, or nobody else does. */
  predicate Harmless(c: Config, submitters: nat) {
    c.initial == 0 || (c.min == c.max && submitters == 0)
  }

  // ----- Harmless configurations, however often started -----

  /** Only lock holders add workers, or only Start does. */
  predicate Contained(s: State) {
    && s.config.min <= s.config.initial <= s.config.max && Harmless(s.config, |s.subs|)
    && s.count.workers <= s.config.max
    && (s.config.initial == 0 ==> Locked(s))
    && (s.config.initial > 0 ==> s.scaler.ScIdle?)
    && (s.config.initial > 0 && s.starter.StAdd? ==> s.count.workers <= s.starter.i)
    && (s.config.initial == 0 && s.starter.StAdd? ==> s.starter.i >= 0)
  }

  lemma {:induction false} ContainedWorker(s: State, w: nat, k: nat, quit: bool, o: Outcome)
    requires InRange(s) && Contained(s) && w < |s.workers|
    ensures Contained(StepWorker(s, w, k, quit, o))
  {
    assert CountAfter(s.count, s.workers[w]).workers <= s.count.workers;
  }

  lemma {:induction false} ContainedTryAdd(s: State, i: nat)
    requires Contained(s) && i < |s.subs| && (s.subs[i].UTryAdd? || s.subs[i].UAdd?)
    ensures Contained(StepSubmitter(s, i))
  {
    match s.subs[i] {
      case UTryAdd =>
      case UAdd =>
    }
  }

  lemma {:induction false} ContainedSubmitter(s: State, i: nat)
    requires Contained(s) && i < |s.subs|
    ensures Contained(StepSubmitter(s, i))
  {
    if s.subs[i].UTryAdd? || s.subs[i].UAdd? {
      ContainedTryAdd(s, i);
    }
  }

  lemma {:induction false} ContainedScaler(s: State, load: Load)
    requires Contained(s)
    ensures Contained(StepScaler(s, load))
  {}

  lemma {:induction false} ContainedStarter(s: State)
    requires Contained(s) && s.count.workers >= 0
    ensures Contained(StepStarter(s))
  {}

  /** A shutdown or a cancellation touches neither workers nor those who add them. */
  lemma {:induction false} ContainedElsewhere(s: State, s': State)
    requires Contained(s) && s'.config == s.config && s'.count == s.count && s'.starter == s.starter
    requires s'.scaler == s.scaler && s'.subs == s.subs && s'.scaleLock == s.scaleLock
    ensures Contained(s')
  {}

  lemma {:induction false} ContainedStep(s: State, step: Step)
    requires InRange(s) && Contained(s) && Fits(s)
    ensures Contained(Apply(s, step))
  {
    match step {
      case Submit(i) => if i < |s.subs| { ContainedSubmitter(s, i); }
      case Work(w, k, quit, o) => if w < |s.workers| { ContainedWorker(s, w, k, quit, o); }
      case Scale(load) => ContainedScaler(s, load);
      case Start =>
        BetweenAreLive(s.workers);
        ContainedStarter(s);
      case Shutdown(giveUp) => ContainedShutter(s, giveUp);
      case CancelTask(_) => ContainedElsewhere(s, Apply(s, step));
    }
  }

  lemma {:induction false} ContainedShutter(s: State, giveUp: bool)
    requires Contained(s)
    ensures Contained(StepShutter(s, giveUp))
  {
    ContainedElsewhere(s, StepShutter(s, giveUp));
  }

  lemma {:induction false} ContainedRun(s: State, steps: seq<Step>)
    requires InRange(s) && Contained(s) && Fits(s)
    ensures Contained(Run(s, steps)) && Run(s, steps).config == s.config
    decreases |steps|
  {
    if steps != [] {
      ContainedStep(s, steps[0]);
      FitsStep(s, steps[0]);
      InRangeStep(s, steps[0]);
      StepGrows(s, steps[0]);
      ContainedRun(Apply(s, steps[0]), steps[1..]);
    }
  }

  // ----- The scaler -----

  /** The scaler has decided on `t` workers and holds the scale lock. */
  function Decided(s: State, t: nat): State { s.(scaler := ScLoad(t), scaleLock := ByScaler) }

  lemma {:induction false} Tick(c: Config, submitters: nat, s: State, load: Load, t: nat)
    requires Reached(c, submitters, s) && s.scaler == ScIdle && s.scaleLock == Free
    requires s.starts > 0 && !s.statusHeld && s.config.min != s.config.max
    requires Target(s.config, s.count.workers, load) == t
    ensures Reached(c, submitters, Decided(s, t))
  {
    ReachedNext(c, submitters, s, Scale(load));
  }

  lemma {:induction false} ScalerAddsOne(c: Config, submitters: nat, s: State, s': State, i: nat, k: nat, t: nat)
    requires Reached(c, submitters, s') && Grown(s.(scaler := ScAdd(i + k, t)), s', k) && i + k < t
    ensures Reached(c, submitters, AddWorker(s').(scaler := ScAdd(i + k + 1, t)))
    ensures Grown(s.(scaler := ScAdd(i + k + 1, t)), AddWorker(s').(scaler := ScAdd(i + k + 1, t)), k + 1)
  {
    ReachedNext(c, submitters, s', Scale(High));
    GrownOne(s.(scaler := ScAdd(i + k, t)), s', k);
    assert Apply(s', Scale(High)) == AddWorker(s').(scaler := ScAdd(i + k + 1, t));
  }

  /** The scaler adds workers, from the number `i` on. */
  lemma {:induction false} ScalerAdds(c: Config, submitters: nat, s: State, i: nat, t: nat) returns (s': State)
    requires Reached(c, submitters, s) && s.scaler == ScAdd(i, t) && i <= t
    ensures Reached(c, submitters, s') && Grown(s.(scaler := ScAdd(t, t)), s', t - i)
  {
    s' := s;
    var k := 0;
    while i + k < t
      invariant i + k <= t && Reached(c, submitters, s') && Grown(s.(scaler := ScAdd(i + k, t)), s', k)
    {
      ScalerAddsOne(c, submitters, s, s', i, k, t);
      s' := AddWorker(s').(scaler := ScAdd(i + k + 1, t));
      k := k + 1;
    }
  }

  /** One tick under high load, from `k` workers to `t`. */
  lemma {:induction false} TickUp(c: Config, submitters: nat, s: State, k: nat, t: nat) returns (s': State)
    requires Reached(c, submitters, s) && Rested(s, c, submitters, k) && s.config.min != s.config.max
    requires Target(s.config, k, High) == t && k <= t
    ensures Reached(c, submitters, s') && Rested(s', c, submitters, t)
  {
    Tick(c, submitters, s, High, t);
    ReachedNext(c, submitters, Decided(s, t), Scale(High));
    var a := Decided(s, t).(scaler := ScAdd(k, t));
    assert Apply(Decided(s, t), Scale(High)) == a;
    s' := ScalerAdds(c, submitters, a, k, t);
    ReachedNext(c, submitters, s', Scale(High));
    s' := Apply(s', Scale(High));
  }

  /** Ticks under high load lead to a decision for the maximum. */
  lemma {:induction false} GrowToMax(c: Config, submitters: nat) returns (s: State)
    requires Normalize(c).initial < Normalize(c).max
    ensures Rested(s, c, submitters, |s.workers|) && Reached(c, submitters, Decided(s, Normalize(c).max))
  {
    var max, k := Normalize(c).max, Normalize(c).initial;
    s := FirstStart(c, submitters);
    while Target(Normalize(c), k, High) < max
      invariant k < max && Reached(c, submitters, s) && Rested(s, c, submitters, k)
      decreases max - k
    {
      var t: nat := Target(Normalize(c), k, High);
      s := TickUp(c, submitters, s, k, t);
      k := t;
    }
    Tick(c, submitters, s, High, max);
  }

  /** A decision of the scaler outlives a shutdown and a restart: Start adds its workers, and the scaler
      adds its own. */
  lemma {:induction false} ScalerOverfills(c: Config, submitters: nat, s: State, t: nat) returns (s': State)
    requires Reached(c, submitters, s) && s.scaler == ScLoad(t) && s.scaleLock == ByScaler
    requires s.status == Stopped && s.starter.StIdle? && s.count.workers == 0
    ensures Reached(c, submitters, s') && s'.starts == s.starts + 1 && s'.count.workers == s.config.initial + t
  {
    var a := s.(scaler := ScAdd(0, t));
    ReachedNext(c, submitters, s, Scale(High));
    assert Apply(s, Scale(High)) == a;
    s' := StartUp(c, submitters, a);
    s' := ScalerAdds(c, submitters, s', 0, t);
  }

  // ----- A submitter -----

  /** It finds fewer workers than the maximum and more tasks than idle workers, and takes the scale lock
      to add one. */
  lemma {:induction false} AboutToAdd(c: Config, submitters: nat, s: State) returns (s': State)
    requires Reached(c, submitters, s) && s.subs != [] && s.subs[0] == UCompare && s.scaleLock == Free
    requires s.count.workers < s.config.max && s.count.idle < |s.queue|
    ensures Reached(c, submitters, s') && s'.subs != [] && s'.subs[0] == UAdd
    ensures s' == s.(subs := s'.subs, metrics := s'.metrics, scaleLock := BySubmitter(0))
  {
    s' := SubmitStep(c, submitters, s);
    s' := SubmitStep(c, submitters, s');
    s' := SubmitStep(c, submitters, s');
    assert s'.subs[0] == UTryAdd;
    ReachedNext(c, submitters, s', Submit(0));
    s' := Apply(s', Submit(0));
  }

  /** It found room in the stopped pool, and adds its worker after the restart has added all of its own. */
  lemma {:induction false} SubmitterOverfills(c: Config, submitters: nat) returns (s: State)
    requires Normalize(c).initial > 0 && submitters > 0
    ensures Reached(c, submitters, s) && s.starts == 2
    ensures var k := Normalize(c).initial;
            && s.starter == StAdd(k) && s.config.initial == k && s.status == Active && s.shutter == HReturned
            && s.count == Counters(k + 1, 0, k + 1, k + 1) && |s.workers| == 2 * k + 1 && AllAt(s.workers, k, WCheck)
            && s.queue == [0] && !s.stopClosed && !s.cancelled
  {
    s := LateSubmitter(c, submitters);
    s := Enqueue(c, submitters, s);
    s := AboutToAdd(c, submitters, s);
    s := StartUp(c, submitters, s);
    ReachedNext(c, submitters, s, Submit(0));
    s := Apply(s, Submit(0));
  }

  // ----- Every configuration -----

  /** Two Starts are enough to exceed the maximum, unless they are harmless. */
  lemma {:induction false} Overfills(c: Config, submitters: nat) returns (s: State)
    requires !Harmless(Normalize(c), submitters)
    ensures Reached(c, submitters, s) && s.starts == 2 && s.count.workers > Normalize(c).max
  {
    var n := Normalize(c);
    if n.initial < n.max {
      s := GrowToMax(c, submitters);
      s := Stop(c, submitters, Decided(s, n.max));
      s := ScalerOverfills(c, submitters, s, n.max);
    } else if n.min < n.max {
      s := FirstStart(c, submitters);
      s := Stop(c, submitters, s);
      Tick(c, submitters, s, High, 1);
      s := ScalerOverfills(c, submitters, Decided(s, 1), 1);
    } else {
      s := SubmitterOverfills(c, submitters);
    }
  }

  /** The run does not show more workers than the maximum, or has more than `n` Starts. */
  ghost predicate WithinMax(c: Config, submitters: nat, n: nat, steps: seq<Step>) {
    var s := Run(Init(c, submitters), steps);
    s.starts <= n ==> s.count.workers <= Normalize(c).max
  }

  lemma {:induction false} WorkersBounded(c: Config, submitters: nat, n: nat, steps: seq<Step>)
    requires n <= 1 || Harmless(Normalize(c), submitters)
    ensures WithinMax(c, submitters, n, steps)
  {
    if Run(Init(c, submitters), steps).starts <= n {
      if n <= 1 {
        BoundedRun(Init(c, submitters), steps);
        StartsGrow(Init(c, submitters), steps);
      } else {
        InitFits(c, submitters);
        ContainedRun(Init(c, submitters), steps);
      }
    }
  }

  /** For every configuration and number of submitters: workerCount stays within maxWorkers in all
      runs with at most `n` successful Starts if and only if `n` is at most one or restarts are harmless:
      no initial workers, or as many as minWorkers and maxWorkers and nobody submitting. */
  lemma {:induction false} WorkersBoundedExact(c: Config, submitters: nat, n: nat)
    ensures (forall steps :: WithinMax(c, submitters, n, steps)) <==> n <= 1 || Harmless(Normalize(c), submitters)
  {
    if n <= 1 || Harmless(Normalize(c), submitters) {
      forall steps ensures WithinMax(c, submitters, n, steps) {
        WorkersBounded(c, submitters, n, steps);
      }
    } else {
      var s := Overfills(c, submitters);
      var steps :| Run(Init(c, submitters), steps) == s;
      assert !WithinMax(c, submitters, n, steps);
    }
  }
}
