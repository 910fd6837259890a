/** The bound on the number of workers, up to the first Start. */
module WorkPoolLimits {
  import opened TaskHandles
  import opened WorkPoolProtocol

  /** Nobody but Start is about to add a worker. */
  predicate Quiet(s: State) {
    && (forall i :: 0 <= i < |s.subs| ==> s.subs[i].UIdle? || s.subs[i].UCheck?)
    && s.scaler.ScIdle? && s.scaleLock.Free?
  }

  /** The scale lock is held by the one thread between its test and its last addition. */
  predicate Locked(s: State) {
    && (forall i :: 0 <= i < |s.subs| ==> (s.subs[i].UAdd? <==> s.scaleLock == BySubmitter(i)))
    && (!s.scaler.ScIdle? <==> s.scaleLock.ByScaler?)
    && (s.scaleLock.BySubmitter? ==> s.scaleLock.i < |s.subs| && s.count.workers < s.config.max)
    && (s.scaler.ScLoad? ==> s.scaler.target <= s.config.max)
    && (s.scaler.ScAdd? ==> s.count.workers <= s.scaler.i && s.scaler.target <= s.config.max)
  }

  /** Up to and including the first Start. */
  predicate Bounded(s: State) {
    && s.config.min <= s.config.initial <= s.config.max
    && (s.statusHeld <==> !s.starter.StIdle?)
    && s.count.workers <= s.config.max
    && Locked(s)
    && (s.starts == 0 ==> Quiet(s) && s.count.workers <= 0 && s.status != Active && s.starter.StIdle?)
    && (s.starts <= 1 && s.starter.StLoad? ==> Quiet(s) && s.count.workers <= 0)
    && (s.starts <= 1 && s.starter.StAdd? ==> Quiet(s) && s.count.workers <= s.starter.i <= s.config.initial)
  }

  lemma {:induction false} BoundedWorker(s: State, w: nat, k: nat, quit: bool, o: Outcome)
    requires InRange(s) && Bounded(s) && s.starts <= 1 && w < |s.workers|
    ensures Bounded(StepWorker(s, w, k, quit, o))
  {
    assert CountAfter(s.count, s.workers[w]).workers <= s.count.workers;
  }

  lemma {:induction false} BoundedTryAdd(s: State, i: nat)
    requires Bounded(s) && s.starts <= 1 && i < |s.subs| && (s.subs[i].UTryAdd? || s.subs[i].UAdd?)
    ensures Bounded(StepSubmitter(s, i))
  {
    match s.subs[i] {
      case UTryAdd =>
      case UAdd =>
    }
  }

  lemma {:induction false} BoundedSubmitter(s: State, i: nat)
    requires Bounded(s) && s.starts <= 1 && i < |s.subs|
    ensures Bounded(StepSubmitter(s, i))
  {
    if s.subs[i].UTryAdd? || s.subs[i].UAdd? {
      BoundedTryAdd(s, i);
    }
  }

  lemma {:induction false} BoundedScaler(s: State, load: Load)
    requires Bounded(s) && s.starts <= 1
    ensures Bounded(StepScaler(s, load))
  {}

  lemma {:induction false} BoundedStarter(s: State)
    requires Bounded(s) && s.starts <= 1 && StepStarter(s).starts <= 1
    ensures Bounded(StepStarter(s))
  {}

  /** A shutdown touches nothing but the status. */
  lemma {:induction false} BoundedStatus(s: State, s': State)
    requires Bounded(s) && (s'.status == s.status || s'.status != Active)
    requires s'.config == s.config && s'.statusHeld == s.statusHeld && s'.starts == s.starts && s'.count == s.count
    requires s'.starter == s.starter && s'.scaler == s.scaler && s'.subs == s.subs && s'.scaleLock == s.scaleLock
    ensures Bounded(s')
  {}

  lemma {:induction false} BoundedShutter(s: State, giveUp: bool)
    requires Bounded(s) && s.starts <= 1
    ensures Bounded(StepShutter(s, giveUp))
  {
    BoundedStatus(s, StepShutter(s, giveUp));
  }

  lemma {:induction false} BoundedStep(s: State, step: Step)
    requires InRange(s) && Bounded(s) && s.starts <= 1 && Apply(s, step).starts <= 1
    ensures Bounded(Apply(s, step))
  {
    match step {
      case Submit(i) => if i < |s.subs| { BoundedSubmitter(s, i); }
      case Work(w, k, quit, o) => if w < |s.workers| { BoundedWorker(s, w, k, quit, o); }
      case Scale(load) => BoundedScaler(s, load);
      case Start => BoundedStarter(s);
      case Shutdown(giveUp) => BoundedShutter(s, giveUp);
      case CancelTask(_) =>
    }
  }

  lemma {:induction false} StepGrows(s: State, step: Step)
    requires InRange(s)
    ensures Apply(s, step).starts >= s.starts && Apply(s, step).config == s.config
  {
    match step {
      case Submit(i) => assert i < |s.subs| ==> StepSubmitter(s, i).starts == s.starts;
      case Work(w, k, quit, o) => assert w < |s.workers| ==> StepWorker(s, w, k, quit, o).starts == s.starts;
      case Scale(_) =>
      case Start =>
      case Shutdown(_) =>
      case CancelTask(_) =>
    }
  }

  lemma {:induction false} StartsGrow(s: State, steps: seq<Step>)
    requires InRange(s)
    ensures Run(s, steps).starts >= s.starts && Run(s, steps).config == s.config
    decreases |steps|
  {
    if steps != [] {
      InRangeStep(s, steps[0]);
      StepGrows(s, steps[0]);
      StartsGrow(Apply(s, steps[0]), steps[1..]);
    }
  }

  lemma {:induction false} BoundedRun(s: State, steps: seq<Step>)
    requires InRange(s) && Bounded(s) && Run(s, steps).starts <= 1
    ensures Bounded(Run(s, steps))
    decreases |steps|
  {
    StartsGrow(s, steps);
    if steps != [] {
      InRangeStep(s, steps[0]);
      StartsGrow(Apply(s, steps[0]), steps[1..]);
      BoundedStep(s, steps[0]);
      BoundedRun(Apply(s, steps[0]), steps[1..]);
    }
  }
}
