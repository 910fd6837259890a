/**
 What each call of Submit, Start and Shutdown, and each tick of the scaler, has done when it is over, as an
 observer of the schedule sees it; and what is left to workers once they are told to stop.
 */
module WorkPoolRequests {
  import opened Basics
  import opened Counting
  import opened TaskHandles
  import opened WorkPoolProtocol
  import opened WorkPoolShutdown

  // ----- Submit -----

  /** One call of Submit: how many tasks and workers its steps have added, the queue length it has loaded,
      whether it found the pool not running, or enough workers, and whether it has returned. */
  datatype Request = Request(tasks: int, workers: int, seen: nat, refused: bool, enough: bool, returned: bool)

  /** The test that a submitter is about to make finds that no worker is needed, or none is allowed. */
  predicate FindsEnough(s: State, pc: Submitter, seen: nat) {
    || ((pc.UCompare? || (pc.UTryAdd? && s.scaleLock == Free)) && s.count.workers >= s.config.max)
    || (pc.UIdlers? && seen <= s.count.idle)
  }

  /** The calls of submitter `i` after a step from `s` to `s'`: an idle submitter begins a call. */
  function RequestsAfter(calls: seq<Request>, s: State, step: Step, s': State, i: nat): seq<Request>
    requires |s'.subs| == |s.subs|
  {
    if !step.Submit? || step.i != i || i >= |s.subs| then calls
    else if s.subs[i].UIdle? then calls + [Request(0, 0, 0, false, false, false)]
    else if calls == [] then calls
    else
      var n, pc := |calls| - 1, s.subs[i];
      var c := calls[n];
      calls[n := Request(c.tasks + |s'.tasks| - |s.tasks|, c.workers + |s'.workers| - |s.workers|,
                         if pc.USize? then |s.queue| else c.seen,
                         c.refused || (pc.UCheck? && !s.statusHeld && s.status != Active),
                         c.enough || FindsEnough(s, pc, c.seen), s'.subs[i].UIdle?)]
  }

  function Requests(calls: seq<Request>, s: State, steps: seq<Step>, i: nat): seq<Request>
    requires InRange(s)
    decreases |steps|
  {
    if steps == [] then calls
    else
      InRangeStep(s, steps[0]);
      SameSubmitters(s, steps[0]);
      var s' := Apply(s, steps[0]);
      Requests(RequestsAfter(calls, s, steps[0], s', i), s', steps[1..], i)
  }

  predicate Answered(c: Request) {
    && c.returned && c.tasks == (if c.refused then 0 else 1)
    && c.workers == (if c.refused || c.enough then 0 else 1)
  }

  predicate UnderWay(c: Request, pc: Submitter) {
    && !c.returned && !c.refused && !c.enough && !pc.UIdle? && c.workers == 0
    && c.tasks == (if pc.UCheck? || pc.UEnqueue? then 0 else 1)
    && (pc.UIdlers? ==> pc.size == c.seen)
  }

  predicate RequestsFit(calls: seq<Request>, pc: Submitter) {
    && (forall k :: 0 <= k < |calls| - 1 ==> Answered(calls[k]))
    && (if calls == [] then pc.UIdle?
        else var c := calls[|calls| - 1]; if pc.UIdle? then Answered(c) else UnderWay(c, pc))
  }

  lemma {:induction false} RequestsStep(calls: seq<Request>, s: State, step: Step, i: nat)
    requires InRange(s) && i < |s.subs| && RequestsFit(calls, s.subs[i])
    ensures var s' := Apply(s, step);
            |s'.subs| == |s.subs| && RequestsFit(RequestsAfter(calls, s, step, s', i), s'.subs[i])
  {
    SameSubmitters(s, step);
  }

  lemma {:induction false} RequestsRun(calls: seq<Request>, s: State, steps: seq<Step>, i: nat)
    requires InRange(s) && i < |s.subs| && RequestsFit(calls, s.subs[i])
    ensures i < |Run(s, steps).subs| && RequestsFit(Requests(calls, s, steps, i), Run(s, steps).subs[i])
    decreases |steps|
  {
    if steps != [] {
      InRangeStep(s, steps[0]);
      RequestsStep(calls, s, steps[0], i);
      var s' := Apply(s, steps[0]);
      RequestsRun(RequestsAfter(calls, s, steps[0], s', i), s', steps[1..], i);
    }
  }

  /** What Answered and UnderWay say of each call. */
  lemma {:induction false} RequestLaws(calls: seq<Request>, pc: Submitter, k: nat)
    requires RequestsFit(calls, pc) && k < |calls|
    ensures calls[k].returned ==> Answered(calls[k])
    ensures !calls[k].returned ==> k == |calls| - 1 && UnderWay(calls[k], pc)
  {}

  /** Any number of threads, any schedule: a Submit that has returned has added exactly one task, if and only
      if it found the pool running; and exactly one worker, if and only if each of its tests then said so:
      fewer workers than the maximum before, more tasks waiting than workers idle, and fewer workers than the
      maximum still, under the lock. */
  lemma {:induction false} EverySubmit(c: Config, submitters: nat, steps: seq<Step>, i: nat)
    requires i < submitters
    ensures var calls := Requests([], Init(c, submitters), steps, i);
            forall k :: 0 <= k < |calls| ==>
              var r := calls[k];
              && (r.returned ==>
                    && r.tasks == (if r.refused then 0 else 1)
                    && r.workers == (if r.refused || r.enough then 0 else 1))
              && (!r.returned ==> k == |calls| - 1 && 0 <= r.tasks <= 1 && r.workers == 0 && !r.refused && !r.enough)
  {
    RequestsRun([], Init(c, submitters), steps, i);
    var calls := Requests([], Init(c, submitters), steps, i);
    forall k | 0 <= k < |calls| ensures calls[k].returned ==> Answered(calls[k])
      ensures !calls[k].returned ==> k == |calls| - 1 && UnderWay(calls[k], Run(Init(c, submitters), steps).subs[i])
    {
      RequestLaws(calls, Run(Init(c, submitters), steps).subs[i], k);
    }
  }

  // ----- Stopping the workers -----

  /** 1 for a worker past its look at stopCh that has not tried the queue yet. */
  function AboutToTake(w: Worker): int { if w.WTake? then 1 else 0 }

  /** How many tasks have ever left the queue. */
  function Taken(s: State): int { |s.tasks| - |s.queue| }

  /** Told to stop for good, or until the next Start. */
  ghost predicate ToldToStop(s: State, steps: seq<Step>) { s.cancelled || (s.stopClosed && Start !in steps) }

  lemma {:induction false} StopWorker(s: State, w: nat, k: nat, quit: bool, o: Outcome)
    requires InRange(s) && (s.stopClosed || s.cancelled) && w < |s.workers|
    ensures var s' := StepWorker(s, w, k, quit, o);
            Taken(s') + Sum(s'.workers, AboutToTake) <= Taken(s) + Sum(s.workers, AboutToTake)
  {
    WorkerShape(s, w, k, quit, o);
    SumUpdate(s.workers, w, NextOf(s, w, k, quit, o), AboutToTake);
  }

  /** Tasks may be added to the queue, and workers that have not looked. */
  lemma {:induction false} StopFrame(s: State, step: Step)
    requires InRange(s) && !step.Work?
    ensures var s' := Apply(s, step);
            Taken(s') == Taken(s) && Sum(s'.workers, AboutToTake) == Sum(s.workers, AboutToTake)
  {
    SumAppend(s.workers, WCheck, AboutToTake);
  }

  lemma {:induction false} StillStopped(s: State, step: Step, rest: seq<Step>)
    requires InRange(s) && ToldToStop(s, [step] + rest)
    ensures ToldToStop(Apply(s, step), rest) && (s.stopClosed || s.cancelled)
  {
    assert step in [step] + rest;
  }

  lemma {:induction false} StopStep(s: State, step: Step)
    requires InRange(s) && (s.stopClosed || s.cancelled)
    ensures var s' := Apply(s, step);
            Taken(s') + Sum(s'.workers, AboutToTake) <= Taken(s) + Sum(s.workers, AboutToTake)
  {
    if step.Work? {
      if step.w < |s.workers| {
        StopWorker(s, step.w, step.k, step.quit, step.o);
      }
    } else {
      StopFrame(s, step);
    }
  }

  lemma {:induction false} StopRun(s: State, steps: seq<Step>)
    requires InRange(s) && ToldToStop(s, steps)
    ensures var s' := Run(s, steps);
            Taken(s') + Sum(s'.workers, AboutToTake) <= Taken(s) + Sum(s.workers, AboutToTake)
    decreases |steps|
  {
    if steps != [] {
      InRangeStep(s, steps[0]);
      assert steps == [steps[0]] + steps[1..];
      StillStopped(s, steps[0], steps[1..]);
      StopStep(s, steps[0]);
      StopRun(Apply(s, steps[0]), steps[1..]);
    }
  }

  /** Once stopCh is closed, until the next Start, and once the context of the pool is cancelled, for ever: a
      schedule takes at most one task from the queue for each worker that had looked before, whatever is
      submitted and however many workers are added. */
  lemma {:induction false} StopTakesFew(s: State, steps: seq<Step>)
    requires InRange(s) && (s.cancelled || (s.stopClosed && Start !in steps))
    ensures Taken(Run(s, steps)) <= Taken(s) + Sum(s.workers, AboutToTake)
  {
    StopRun(s, steps);
    SumPositive(Run(s, steps).workers, AboutToTake);
  }

  /** A worker between two tasks: it leaves exactly when it looks and is told to stop; any of the waiting tasks
      may be the one it takes; and with none it sleeps, and looks again unless its sleep ends with the stop. */
  lemma {:induction false} WorkerLooks(s: State, w: nat, k: nat, quit: bool, o: Outcome)
    requires InRange(s) && w < |s.workers|
    ensures var s', stop := Run(s, [Work(w, k, quit, o)]), s.stopClosed || s.cancelled;
            && |s'.workers| == |s.workers|
            && (s.workers[w].WCheck? ==> s' == s.(workers := s.workers[w := if stop then WExit else WTake]))
            && (s.workers[w].WTake? && s.queue == [] ==> s' == s.(workers := s.workers[w := WSleep]))
            && (s.workers[w].WTake? && k < |s.queue| ==>
                  && s'.workers[w] == WLeaveIdle(s.queue[k]) && s'.queue == s.queue[..k] + s.queue[k + 1..]
                  && s'.tasks == s.tasks)
            && (s.workers[w].WSleep? ==> s' == s.(workers := s.workers[w := if quit && stop then WExit else WCheck]))
  {
    InRangeWorker(s, w, k, quit, o);
    assert [Work(w, k, quit, o)][1..] == [];
  }

  // ----- Start -----

  /** One successful Start: the worker number it has loaded, the workers its steps have added, and whether it
      has returned. */
  datatype Launch = Launch(loaded: Maybe<int>, workers: int, returned: bool)

  function LaunchesAfter(calls: seq<Launch>, s: State, step: Step, s': State): seq<Launch> {
    if !step.Start? then calls
    else if s.starter.StIdle? then
      if s.status == Active || s.status == ShuttingDown then calls else calls + [Launch(Nothing, 0, false)]
    else if calls == [] then calls
    else
      var n := |calls| - 1;
      calls[n := Launch(if s.starter.StLoad? then Just(s.count.workers) else calls[n].loaded,
                        calls[n].workers + |s'.workers| - |s.workers|, s'.starter.StIdle?)]
  }

  function Launches(calls: seq<Launch>, s: State, steps: seq<Step>): seq<Launch>
    requires InRange(s)
    decreases |steps|
  {
    if steps == [] then calls
    else
      InRangeStep(s, steps[0]);
      var s' := Apply(s, steps[0]);
      Launches(LaunchesAfter(calls, s, steps[0], s'), s', steps[1..])
  }

  predicate Launched(c: Launch, initial: int) {
    c.returned && c.loaded.Just? && c.workers == Max(0, initial - c.loaded.value)
  }

  /** The last call matches where Start is. */
  predicate Launching(c: Launch, s: State) {
    match s.starter
    case StIdle => Launched(c, s.config.initial)
    case StLoad => c == Launch(Nothing, 0, false)
    case StAdd(i) =>
      && c.loaded.Just? && !c.returned && c.workers == i - c.loaded.value >= 0
      && (i > c.loaded.value ==> i <= s.config.initial)
  }

  predicate LaunchesFit(calls: seq<Launch>, s: State) {
    && s.starts == |calls|
    && (forall k :: 0 <= k < |calls| - 1 ==> Launched(calls[k], s.config.initial))
    && (if calls == [] then s.starter.StIdle? else Launching(calls[|calls| - 1], s))
  }

  lemma {:induction false} LaunchesStarter(calls: seq<Launch>, s: State)
    requires InRange(s) && LaunchesFit(calls, s)
    ensures LaunchesFit(LaunchesAfter(calls, s, Start, StepStarter(s)), StepStarter(s))
  {}

  lemma {:induction false} LaunchesFrame(calls: seq<Launch>, s: State, step: Step)
    requires InRange(s) && LaunchesFit(calls, s) && !step.Start?
    ensures LaunchesFit(calls, Apply(s, step))
  {}

  lemma {:induction false} LaunchesStep(calls: seq<Launch>, s: State, step: Step)
    requires InRange(s) && LaunchesFit(calls, s)
    ensures LaunchesFit(LaunchesAfter(calls, s, step, Apply(s, step)), Apply(s, step))
  {
    if step.Start? {
      LaunchesStarter(calls, s);
    } else {
      LaunchesFrame(calls, s, step);
    }
  }

  lemma {:induction false} LaunchesRun(calls: seq<Launch>, s: State, steps: seq<Step>)
    requires InRange(s) && LaunchesFit(calls, s)
    ensures LaunchesFit(Launches(calls, s, steps), Run(s, steps)) && Run(s, steps).config == s.config
    decreases |steps|
  {
    if steps != [] {
      InRangeStep(s, steps[0]);
      SameConfig(s, steps[0]);
      LaunchesStep(calls, s, steps[0]);
      var s' := Apply(s, steps[0]);
      LaunchesRun(LaunchesAfter(calls, s, steps[0], s'), s', steps[1..]);
    }
  }

  /** The calls of Start that find the pool neither running nor shutting down are the ones counted; each of
      them that has returned has added as many workers as the worker number it loaded fell short of the
      initial number. New has raised the initial number to the minimum, and the maximum to that. */
  lemma {:induction false} EveryStart(c: Config, submitters: nat, steps: seq<Step>)
    ensures var s, calls := Run(Init(c, submitters), steps), Launches([], Init(c, submitters), steps);
            && s.starts == |calls|
            && s.config == Config(Max(c.initial, c.min), c.min, Max(c.max, Max(c.initial, c.min)))
            && (forall k :: 0 <= k < |calls| ==>
                  if calls[k].returned then
                    calls[k].loaded.Just? && calls[k].workers == Max(0, Max(c.initial, c.min) - calls[k].loaded.value)
                  else k == |calls| - 1 && !s.starter.StIdle?)
  {
    LaunchesRun([], Init(c, submitters), steps);
  }

  /** The first step of Start: refused in a pool that runs or shuts down, it changes nothing; otherwise the
      pool is running from then on, with a new stopCh. */
  lemma {:induction false} StartDecides(s: State)
    requires InRange(s) && s.starter.StIdle?
    ensures var s' := Run(s, [Start]);
            if s.status == Active || s.status == ShuttingDown then s' == s
            else s' == s.(starter := StLoad, status := Active, statusHeld := true, stopClosed := false,
                          starts := s.starts + 1)
  {
    InRangeStep(s, Start);
    assert [Start][1..] == [];
  }

  // ----- Shutdown -----

  /** What a Shutdown that finds the queue empty finds: how many tasks were ever enqueued, and whether some
      Submit is past its status check with its task not yet enqueued. */
  datatype Found = Found(tasks: nat, overtaken: bool)

  /** One call of Shutdown that starts a shutdown: what it has found with the queue empty, and whether it has
      closed stopCh, found the wait group empty, stopped the pool, given up because its context was done, and
      returned. */
  datatype Quit = Quit(emptied: Maybe<Found>, closed: bool, joined: bool, stopped: bool, gaveUp: bool, returned: bool)

  function QuitsAfter(calls: seq<Quit>, s: State, step: Step, s': State): seq<Quit> {
    if !step.Shutdown? then calls
    else if s.shutter.HIdle? then
      if s.statusHeld || s.status == Stopped || s.status == ShuttingDown then calls
      else calls + [Quit(Nothing, false, false, false, false, false)]
    else if calls == [] then calls
    else
      var n, pc := |calls| - 1, s.shutter;
      var c := calls[n];
      calls[n := Quit(if pc.HPoll? && s.queue == [] then Just(Found(|s.tasks|, UEnqueue in s.subs)) else c.emptied,
                      c.closed || (pc.HClose? && s'.stopClosed),
                      c.joined || (pc.HWait? && !step.giveUp && s.count.group == 0),
                      c.stopped || (s.status != Stopped && s'.status == Stopped),
                      c.gaveUp || (step.giveUp && ((pc.HPoll? && s.queue != []) || pc.HWait?)), s'.shutter.HIdle?)]
  }

  function Quits(calls: seq<Quit>, s: State, steps: seq<Step>): seq<Quit>
    requires InRange(s)
    decreases |steps|
  {
    if steps == [] then calls
    else
      InRangeStep(s, steps[0]);
      var s' := Apply(s, steps[0]);
      Quits(QuitsAfter(calls, s, steps[0], s'), s', steps[1..])
  }

  /** How far the call has come. */
  predicate Came(c: Quit, emptied: bool, closed: bool, joined: bool, stopped: bool) {
    c.emptied.Just? == emptied && c.closed == closed && c.joined == joined && c.stopped == stopped
  }

  /** Either everything was done, or the call gave up. */
  predicate Over(c: Quit) {
    && c.returned
    && if c.gaveUp then Came(c, c.closed, c.closed, false, false) else Came(c, true, true, true, true)
  }

  predicate Quitting(c: Quit, pc: Shutter) {
    if pc.HIdle? then Over(c)
    else
      && !c.gaveUp && !c.returned
      && match pc
         case HPoll => Came(c, false, false, false, false)
         case HClose => Came(c, true, false, false, false)
         case HWait => Came(c, true, true, false, false)
         case HStop => Came(c, true, true, true, false)
         case _ => Came(c, true, true, true, true)
  }

  predicate QuitsFit(calls: seq<Quit>, s: State) {
    && (forall k :: 0 <= k < |calls| - 1 ==> Over(calls[k]))
    && (if calls == [] then s.shutter.HIdle? else Quitting(calls[|calls| - 1], s.shutter))
    && (s.shutter.HWait? || s.shutter.HStop? ==> s.stopClosed)
    && (calls != [] && calls[|calls| - 1].emptied.Just? ==>
          calls[|calls| - 1].emptied.value == Found(s.drained, s.late))
  }

  /** The context is cancelled from the first call on that gives up. */
  ghost predicate CancelledBy(calls: seq<Quit>, cancelled: bool) {
    cancelled <==> exists k :: 0 <= k < |calls| && calls[k].gaveUp
  }

  lemma {:induction false} QuitsShutter(calls: seq<Quit>, s: State, giveUp: bool)
    requires Inv(s) && QuitsFit(calls, s)
    ensures QuitsFit(QuitsAfter(calls, s, Shutdown(giveUp), StepShutter(s, giveUp)), StepShutter(s, giveUp))
  {}

  lemma {:induction false} QuitsCancel(calls: seq<Quit>, s: State, giveUp: bool)
    requires InRange(s) && QuitsFit(calls, s) && CancelledBy(calls, s.cancelled)
    ensures var s' := StepShutter(s, giveUp);
            CancelledBy(QuitsAfter(calls, s, Shutdown(giveUp), s'), s'.cancelled)
  {
    var s' := StepShutter(s, giveUp);
    var calls' := QuitsAfter(calls, s, Shutdown(giveUp), s');
    if s.cancelled {
      var k :| 0 <= k < |calls| && calls[k].gaveUp;
      assert calls'[k].gaveUp;
    } else if s'.cancelled {
      assert calls'[|calls'| - 1].gaveUp;
    }
  }

  /** The other steps leave Shutdown alone. */
  lemma {:induction false} QuitsFrame(calls: seq<Quit>, s: State, step: Step)
    requires Inv(s) && QuitsFit(calls, s) && !step.Shutdown?
    ensures QuitsFit(calls, Apply(s, step)) && Apply(s, step).cancelled == s.cancelled
  {}

  lemma {:induction false} QuitsRun(calls: seq<Quit>, s: State, steps: seq<Step>)
    requires Inv(s) && QuitsFit(calls, s) && CancelledBy(calls, s.cancelled)
    ensures var s', calls' := Run(s, steps), Quits(calls, s, steps);
            Inv(s') && QuitsFit(calls', s') && CancelledBy(calls', s'.cancelled)
    decreases |steps|
  {
    if steps != [] {
      InvStep(s, steps[0]);
      if steps[0].Shutdown? {
        QuitsShutter(calls, s, steps[0].giveUp);
        QuitsCancel(calls, s, steps[0].giveUp);
      } else {
        QuitsFrame(calls, s, steps[0]);
      }
      var s' := Apply(s, steps[0]);
      QuitsRun(QuitsAfter(calls, s, steps[0], s'), s', steps[1..]);
    }
  }

  lemma {:induction false} QuitsInit(c: Config, submitters: nat)
    ensures var s := Init(c, submitters); Inv(s) && QuitsFit([], s) && CancelledBy([], s.cancelled)
  {}

  /** A Shutdown that returns nil has found the queue empty, closed stopCh, found the wait group empty and
      stopped the pool; one that returns an error has given up and done neither of the last two. The context
      of the pool is cancelled if and only if some Shutdown has given up; and until its end the pool is
      shutting down. As it returns nil, every task enqueued when it found the queue empty has its result. */
  lemma {:induction false} EveryShutdown(c: Config, submitters: nat, steps: seq<Step>)
    ensures var s, calls := Run(Init(c, submitters), steps), Quits([], Init(c, submitters), steps);
            && (forall k :: 0 <= k < |calls| && calls[k].returned ==>
                  if calls[k].gaveUp then
                    calls[k].emptied.Just? == calls[k].closed && !calls[k].joined && !calls[k].stopped
                  else calls[k].emptied.Just? && calls[k].closed && calls[k].joined && calls[k].stopped)
            && (forall k :: 0 <= k < |calls| && !calls[k].returned ==> k == |calls| - 1)
            && (s.cancelled <==> exists k :: 0 <= k < |calls| && calls[k].gaveUp)
            && (calls != [] && !calls[|calls| - 1].returned && !calls[|calls| - 1].stopped ==> s.status == ShuttingDown)
            && (calls != [] && !calls[|calls| - 1].returned && calls[|calls| - 1].stopped ==>
                  && calls[|calls| - 1].emptied == Just(Found(s.drained, s.late)) && s.drained <= |s.tasks|
                  && forall id :: 0 <= id < s.drained ==> s.tasks[id].outcome.Just?)
  {
    QuitsInit(c, submitters);
    QuitsRun([], Init(c, submitters), steps);
  }

  // ----- The scaler -----

  /** One tick that changes the worker number: the load and the worker number it decides by, the number it
      loads again, the workers its steps have added, and whether it is over. */
  datatype Tick = Tick(load: Load, current: int, loaded: Maybe<int>, workers: int, over: bool)

  function TicksAfter(ticks: seq<Tick>, s: State, step: Step, s': State): seq<Tick> {
    if !step.Scale? then ticks
    else if s.scaler.ScIdle? then
      if s'.scaler.ScIdle? then ticks else ticks + [Tick(step.load, s.count.workers, Nothing, 0, false)]
    else if ticks == [] then ticks
    else
      var n := |ticks| - 1;
      ticks[n := Tick(ticks[n].load, ticks[n].current,
                      if s.scaler.ScLoad? then Just(s.count.workers) else ticks[n].loaded,
                      ticks[n].workers + |s'.workers| - |s.workers|, s'.scaler.ScIdle?)]
  }

  function Ticks(ticks: seq<Tick>, s: State, steps: seq<Step>): seq<Tick>
    requires InRange(s)
    decreases |steps|
  {
    if steps == [] then ticks
    else
      InRangeStep(s, steps[0]);
      var s' := Apply(s, steps[0]);
      Ticks(TicksAfter(ticks, s, steps[0], s'), s', steps[1..])
  }

  /** A quarter of the workers more or less, one at least, within the configured numbers. */
  predicate Aims(c: Config, load: Load, current: int, target: int) {
    var quarter := Max(1, current / 4);
    || (load == High && current < c.max && target == Min(current + quarter, c.max))
    || (load == Low && current > c.min && target == Max(current - quarter, c.min))
  }

  ghost predicate Ticked(t: Tick, c: Config) {
    && t.over && t.loaded.Just?
    && exists target :: Aims(c, t.load, t.current, target) && t.workers == Max(0, target - t.loaded.value)
  }

  ghost predicate Ticking(t: Tick, s: State) {
    match s.scaler
    case ScIdle => Ticked(t, s.config)
    case ScLoad(target) => Aims(s.config, t.load, t.current, target) && t.workers == 0 && !t.over
    case ScAdd(i, target) =>
      && Aims(s.config, t.load, t.current, target) && !t.over
      && t.loaded.Just? && t.workers == i - t.loaded.value >= 0 && (i > t.loaded.value ==> i <= target)
  }

  ghost predicate TicksFit(ticks: seq<Tick>, s: State) {
    && (forall k :: 0 <= k < |ticks| - 1 ==> Ticked(ticks[k], s.config))
    && (if ticks == [] then s.scaler.ScIdle? else Ticking(ticks[|ticks| - 1], s))
  }

  lemma {:induction false} TicksScaler(ticks: seq<Tick>, s: State, load: Load)
    requires InRange(s) && TicksFit(ticks, s)
    ensures TicksFit(TicksAfter(ticks, s, Scale(load), StepScaler(s, load)), StepScaler(s, load))
  {}

  lemma {:induction false} TicksSame(ticks: seq<Tick>, s: State, s': State)
    requires TicksFit(ticks, s) && s'.scaler == s.scaler && s'.config == s.config
    ensures TicksFit(ticks, s')
  {}

  lemma {:induction false} SameScaler(s: State, step: Step)
    requires InRange(s) && !step.Scale?
    ensures Apply(s, step).scaler == s.scaler
  {}

  lemma {:induction false} TicksFrame(ticks: seq<Tick>, s: State, step: Step)
    requires InRange(s) && TicksFit(ticks, s) && !step.Scale?
    ensures TicksFit(ticks, Apply(s, step))
  {
    SameScaler(s, step);
    SameConfig(s, step);
    TicksSame(ticks, s, Apply(s, step));
  }

  lemma {:induction false} TicksStep(ticks: seq<Tick>, s: State, step: Step)
    requires InRange(s) && TicksFit(ticks, s)
    ensures TicksFit(TicksAfter(ticks, s, step, Apply(s, step)), Apply(s, step))
  {
    if step.Scale? {
      TicksScaler(ticks, s, step.load);
    } else {
      TicksFrame(ticks, s, step);
    }
  }

  lemma {:induction false} SameConfig(s: State, step: Step)
    requires InRange(s)
    ensures Apply(s, step).config == s.config
  {}

  lemma {:induction false} TicksRun(ticks: seq<Tick>, s: State, steps: seq<Step>)
    requires InRange(s) && TicksFit(ticks, s)
    ensures TicksFit(Ticks(ticks, s, steps), Run(s, steps)) && Run(s, steps).config == s.config
    decreases |steps|
  {
    if steps != [] {
      InRangeStep(s, steps[0]);
      SameConfig(s, steps[0]);
      TicksStep(ticks, s, steps[0]);
      var s' := Apply(s, steps[0]);
      TicksRun(TicksAfter(ticks, s, steps[0], s'), s', steps[1..]);
    }
  }

  /** A tick that is over has aimed at a quarter of the workers more, for a high load, or less, for a low one,
      within the configured numbers, and has added as many workers as the number it loaded again fell short
      of that aim; so a tick never takes workers away. */
  lemma {:induction false} EveryTick(c: Config, submitters: nat, steps: seq<Step>)
    ensures var s, ticks := Run(Init(c, submitters), steps), Ticks([], Init(c, submitters), steps);
            forall k :: 0 <= k < |ticks| ==>
              if ticks[k].over then Ticked(ticks[k], Normalize(c)) else k == |ticks| - 1 && !s.scaler.ScIdle?
  {
    TicksRun([], Init(c, submitters), steps);
  }

  /** A tick acts if and only if the ticker runs, scaling is configured, the lock is free, and the load and
      the worker number call for it. */
  lemma {:induction false} TickDecides(s: State, load: Load)
    requires InRange(s) && s.scaler.ScIdle? && s.config.min <= s.config.max && s.count.workers >= 0
    ensures var s' := Run(s, [Scale(load)]);
            var ticking := s.starts > 1 || (s.starts == 1 && !s.statusHeld);
            var acts := ticking && s.config.min != s.config.max && s.scaleLock == Free
                        && ((load == High && s.count.workers < s.config.max)
                            || (load == Low && s.count.workers > s.config.min));
            if acts then s'.scaler.ScLoad? && s'.scaleLock == ByScaler else s' == s
  {
    InRangeStep(s, Scale(load));
    assert [Scale(load)][1..] == [];
  }

  // ----- The scale lock -----

  /** The lock is held by the thread that is about to add workers, and by nobody else. */
  predicate Locked(s: State) {
    && (forall i :: 0 <= i < |s.subs| ==> (s.subs[i].UAdd? <==> s.scaleLock == BySubmitter(i)))
    && (s.scaleLock == ByScaler <==> !s.scaler.ScIdle?)
    && (s.scaleLock.BySubmitter? ==> s.scaleLock.i < |s.subs|)
  }

  lemma {:induction false} LockedSubmitter(s: State, i: nat)
    requires InRange(s) && Locked(s) && i < |s.subs|
    ensures Locked(StepSubmitter(s, i))
  {}

  lemma {:induction false} LockedScaler(s: State, load: Load)
    requires InRange(s) && Locked(s)
    ensures Locked(StepScaler(s, load))
  {}

  lemma {:induction false} LockedFrame(s: State, s': State)
    requires Locked(s) && s'.subs == s.subs && s'.scaler == s.scaler && s'.scaleLock == s.scaleLock
    ensures Locked(s')
  {}

  lemma {:induction false} LockedStep(s: State, step: Step)
    requires InRange(s) && Locked(s)
    ensures Locked(Apply(s, step))
  {
    match step {
      case Submit(i) => if i < |s.subs| { LockedSubmitter(s, i); }
      case Scale(load) => LockedScaler(s, load);
      case _ => LockedFrame(s, Apply(s, step));
    }
  }

  lemma {:induction false} LockedRun(s: State, steps: seq<Step>)
    requires InRange(s) && Locked(s)
    ensures Locked(Run(s, steps))
    decreases |steps|
  {
    if steps != [] {
      InRangeStep(s, steps[0]);
      LockedStep(s, steps[0]);
      LockedRun(Apply(s, steps[0]), steps[1..]);
    }
  }

  /** In every run the scale lock is free exactly when no submitter is about to add a worker and no tick is
      under way, and otherwise exactly one of them has it. */
  lemma {:induction false} LockExact(c: Config, submitters: nat, steps: seq<Step>)
    ensures var s := Run(Init(c, submitters), steps);
            && (s.scaleLock == Free <==>
                  s.scaler.ScIdle? && forall i :: 0 <= i < |s.subs| ==> !s.subs[i].UAdd?)
            && (forall i, j :: 0 <= i < j < |s.subs| ==> !(s.subs[i].UAdd? && s.subs[j].UAdd?))
            && (forall i :: 0 <= i < |s.subs| && s.subs[i].UAdd? ==> s.scaler.ScIdle?)
  {
    LockedRun(Init(c, submitters), steps);
  }
}
