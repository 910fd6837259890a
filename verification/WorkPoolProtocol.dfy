/**
 The work pool as interleaved threads: submitters, workers, the scaler, the caller of Start, the
 caller of Shutdown, and clients cancelling tasks. One step is one atomic operation or one locked
 region; adding a worker is one step, and so are the counter updates of an exiting worker.
 */
module WorkPoolProtocol {
  import opened Basics
  import opened TaskHandles

  const TWO_TO_THE_64 := 0x1_0000_0000_0000_0000

  /** An unsigned 64-bit counter. */
  function Wrap(x: int): nat { x % TWO_TO_THE_64 }

  datatype PoolStatus = Idle | Active | ShuttingDown | Stopped

  /** Each constructor names the worker's next operation; `id` is the task in its hands. */
  datatype Worker =
    | WCheck                               // look at stopCh and ctx
    | WTake                                // dequeue
    | WSleep                               // nothing to do: wait
    | WLeaveIdle(id: nat)                  // idleCount -= 1
    | WEnterActive(id: nat)                // activeCount += 1
    | WSetRunning(id: nat)
    | WTaskStarted(id: nat)                // QueuedTasks -= 1
    | WExecute(id: nat)
    | WSetCompleted(id: nat, o: Outcome)
    | WCount(ok: bool)                     // CompletedTasks or FailedTasks += 1
    | WLeaveActive                         // activeCount -= 1
    | WEnterIdle                           // idleCount += 1
    | WExit                                // the counters of an exit
    | WDone                                // workerWg.Done
    | WGone

  /** After a task is enqueued and counted: is workerCount below the maximum (UCompare), how long is the
      queue (USize), is that more than idleCount (UIdlers)? Then a worker may be added. */
  datatype Submitter =
    | UIdle | UCheck | UEnqueue | UTotal | UQueued | UCompare | USize | UIdlers(size: nat) | UTryAdd | UAdd

  datatype Scaler = ScIdle | ScLoad(target: nat) | ScAdd(i: int, target: nat)

  datatype Starter = StIdle | StLoad | StAdd(i: int)

  datatype Shutter = HIdle | HPoll | HClose | HWait | HStop | HReturned

  datatype Lock = Free | BySubmitter(i: nat) | ByScaler

  /** Where a task is: history only, no thread looks at it. */
  datatype Place = Queued | Held(w: nat) | Finished

  /** `initial`, `min`, `max`: the worker numbers of the configuration. */
  datatype Config = Config(initial: nat, min: nat, max: nat)

  datatype Counters = Counters(workers: int, active: int, idle: int, group: int)

  datatype Metrics = Metrics(total: nat, queued: nat, completed: nat, failed: nat)

  /** `starts` counts the successful Starts and `drained` the tasks enqueued before the latest
      Shutdown saw the queue empty; `late`: some Submit was then past its status check, with its task
      not yet in the queue. */
  datatype State = State(
    config: Config, status: PoolStatus, statusHeld: bool, stopClosed: bool, cancelled: bool,
    queue: seq<nat>, tasks: seq<Handle>, place: seq<Place>,
    workers: seq<Worker>, count: Counters, metrics: Metrics,
    subs: seq<Submitter>, scaleLock: Lock, scaler: Scaler, starter: Starter, shutter: Shutter,
    starts: nat, drained: nat, late: bool)

  datatype Load = High | Low | Medium

  datatype Step =
    | Submit(i: nat)
    | Work(w: nat, k: nat, quit: bool, o: Outcome)
    | Scale(load: Load)
    | Start
    | Shutdown(giveUp: bool)
    | CancelTask(id: nat)

  /** The corrections New makes. */
  function Normalize(c: Config): Config {
    var initial := Max(c.initial, c.min);
    Config(initial, c.min, Max(c.max, initial))
  }

  function Init(c: Config, submitters: nat): State {
    State(Normalize(c), Idle, false, false, false, [], [], [], [],
          Counters(0, 0, 0, 0), Metrics(0, 0, 0, 0), seq(submitters, _ => UIdle),
          Free, ScIdle, StIdle, HIdle, 0, 0, false)
  }

  predicate Carries(w: Worker) {
    w.WLeaveIdle? || w.WEnterActive? || w.WSetRunning? || w.WTaskStarted? || w.WExecute? || w.WSetCompleted?
  }

  /** Task numbers are in range. */
  predicate InRange(s: State) {
    && |s.place| == |s.tasks|
    && (forall k :: 0 <= k < |s.queue| ==> s.queue[k] < |s.tasks|)
    && (forall w :: 0 <= w < |s.workers| && Carries(s.workers[w]) ==> s.workers[w].id < |s.tasks|)
  }

  function AddWorker(s: State): State {
    s.(workers := s.workers + [WCheck],
       count := Counters(s.count.workers + 1, s.count.active, s.count.idle + 1, s.count.group + 1))
  }

  /** The worker's next operation, when the one at hand is not a dequeue that finds a task. */
  function NextWorker(s: State, pc: Worker, quit: bool, o: Outcome): Worker {
    var stop := s.stopClosed || s.cancelled;
    match pc
    case WCheck => if stop then WExit else WTake
    case WTake => WSleep
    case WSleep => if quit && stop then WExit else WCheck
    case WLeaveIdle(id) => WEnterActive(id)
    case WEnterActive(id) => WSetRunning(id)
    case WSetRunning(id) => WTaskStarted(id)
    case WTaskStarted(id) => WExecute(id)
    case WExecute(id) => WSetCompleted(id, o)
    case WSetCompleted(id, r) => WCount(r.Value?)
    case WCount(ok) => WLeaveActive
    case WLeaveActive => WEnterIdle
    case WEnterIdle => WCheck
    case WExit => WDone
    case WDone => WGone
    case WGone => WGone
  }

  /** What the operation does to the worker counters. An exit debits activeCount if it can. */
  function CountAfter(c: Counters, pc: Worker): Counters {
    match pc
    case WLeaveIdle(_) => c.(idle := c.idle - 1)
    case WEnterActive(_) => c.(active := c.active + 1)
    case WLeaveActive => c.(active := c.active - 1)
    case WEnterIdle => c.(idle := c.idle + 1)
    case WExit =>
      if c.active > 0 then c.(workers := c.workers - 1, active := c.active - 1)
      else if c.idle > 0 then c.(workers := c.workers - 1, idle := c.idle - 1)
      else c.(workers := c.workers - 1)
    case WDone => c.(group := c.group - 1)
    case _ => c
  }

  function MetricsAfter(m: Metrics, pc: Worker): Metrics {
    match pc
    case WTaskStarted(_) => m.(queued := Wrap(m.queued - 1))
    case WCount(ok) =>
      if ok then m.(completed := Wrap(m.completed + 1)) else m.(failed := Wrap(m.failed + 1))
    case _ => m
  }

  function TasksAfter(tasks: seq<Handle>, pc: Worker): (r: seq<Handle>)
    requires Carries(pc) ==> pc.id < |tasks|
    ensures |r| == |tasks|
  {
    match pc
    case WSetRunning(id) => tasks[id := Do(tasks[id], SetRunning)]
    case WSetCompleted(id, o) => tasks[id := Do(tasks[id], SetCompleted(o))]
    case _ => tasks
  }

  function PlaceAfter(place: seq<Place>, pc: Worker): (r: seq<Place>)
    requires Carries(pc) ==> pc.id < |place|
    ensures |r| == |place|
  {
    if pc.WSetCompleted? then place[pc.id := Finished] else place
  }

  predicate Takes(s: State, pc: Worker) { pc.WTake? && s.queue != [] }

  /** Dequeue may return any waiting task: which one is the business of the priority queue. */
  function Chosen(s: State, k: nat): (j: nat)
    ensures s.queue != [] ==> j < |s.queue|
  {
    if k < |s.queue| then k else 0
  }

  /** What the worker does after this step, whichever step it is. */
  function NextOf(s: State, w: nat, k: nat, quit: bool, o: Outcome): Worker
    requires w < |s.workers|
  {
    if Takes(s, s.workers[w]) then WLeaveIdle(s.queue[Chosen(s, k)]) else NextWorker(s, s.workers[w], quit, o)
  }

  function StepWorker(s: State, w: nat, k: nat, quit: bool, o: Outcome): State
    requires InRange(s) && w < |s.workers|
  {
    var pc, j := s.workers[w], Chosen(s, k);
    s.(workers := s.workers[w := NextOf(s, w, k, quit, o)],
       queue := if Takes(s, pc) then s.queue[..j] + s.queue[j + 1..] else s.queue,
       place := if Takes(s, pc) then s.place[s.queue[j] := Held(w)] else PlaceAfter(s.place, pc),
       tasks := TasksAfter(s.tasks, pc), count := CountAfter(s.count, pc), metrics := MetricsAfter(s.metrics, pc))
  }

  lemma {:induction false} WorkerShape(s: State, w: nat, k: nat, quit: bool, o: Outcome)
    requires InRange(s) && w < |s.workers|
    ensures var s' := StepWorker(s, w, k, quit, o);
            && s'.workers == s.workers[w := NextOf(s, w, k, quit, o)]
            && s'.count == CountAfter(s.count, s.workers[w])
            && s'.metrics == MetricsAfter(s.metrics, s.workers[w])
            && s'.subs == s.subs && |s'.tasks| == |s.tasks|
            && |s'.queue| == |s.queue| - (if Takes(s, s.workers[w]) then 1 else 0)
  {}

  /** The next operation of Submit. */
  function NextSubmitter(s: State, pc: Submitter): Submitter {
    match pc
    case UIdle => UCheck
    case UCheck => if s.statusHeld then UCheck else if s.status == Active then UEnqueue else UIdle
    case UEnqueue => UTotal
    case UTotal => UQueued
    case UQueued => UCompare
    case UCompare => if s.count.workers < s.config.max then USize else UIdle
    case USize => UIdlers(|s.queue|)
    case UIdlers(size) => if size > s.count.idle then UTryAdd else UIdle
    case UTryAdd =>
      if s.scaleLock != Free then UTryAdd else if s.count.workers < s.config.max then UAdd else UIdle
    case UAdd => UIdle
  }

  /** What the operation does to the task metrics, */
  function MetricsSubmitted(m: Metrics, pc: Submitter): Metrics {
    match pc
    case UTotal => m.(total := Wrap(m.total + 1))
    case UQueued => m.(queued := Wrap(m.queued + 1))
    case _ => m
  }

  /** and to the scale lock, which is held from the last test of workerCount to the addition. */
  function LockSubmitted(s: State, i: nat, pc: Submitter): Lock {
    match pc
    case UTryAdd => if s.scaleLock == Free && s.count.workers < s.config.max then BySubmitter(i) else s.scaleLock
    case UAdd => Free
    case _ => s.scaleLock
  }

  function StepSubmitter(s: State, i: nat): State
    requires i < |s.subs|
  {
    var pc := s.subs[i];
    (if pc.UAdd? then AddWorker(s) else s).(
      subs := s.subs[i := NextSubmitter(s, pc)],
      queue := if pc.UEnqueue? then s.queue + [|s.tasks|] else s.queue,
      tasks := if pc.UEnqueue? then s.tasks + [NEW] else s.tasks,
      place := if pc.UEnqueue? then s.place + [Queued] else s.place,
      metrics := MetricsSubmitted(s.metrics, pc), scaleLock := LockSubmitted(s, i, pc))
  }

  /** The new worker number for a number of workers and a load. */
  function Target(c: Config, current: int, load: Load): int {
    if load == High && current < c.max then Min(current + Max(1, current / 4), c.max)
    else if load == Low && current > c.min then Max(current - Max(1, current / 4), c.min)
    else -1
  }

  predicate ScalerGrows(s: State) { s.scaler.ScAdd? && s.scaler.i < s.scaler.target }

  /** The ticker starts at the end of the first Start; what is left in it survives a shutdown, and a
      tick does not look at the status. */
  function NextScaler(s: State, load: Load): Scaler {
    match s.scaler
    case ScIdle =>
      var t := Target(s.config, s.count.workers, load);
      var ticking := s.starts > 1 || (s.starts == 1 && !s.statusHeld);
      if !ticking || s.config.min == s.config.max || s.scaleLock != Free || t < 0 then ScIdle else ScLoad(t)
    case ScLoad(t) => ScAdd(s.count.workers, t)
    case ScAdd(i, t) => if i < t then ScAdd(i + 1, t) else ScIdle
  }

  function StepScaler(s: State, load: Load): State {
    var next := NextScaler(s, load);
    (if ScalerGrows(s) then AddWorker(s) else s).(
      scaler := next,
      scaleLock := if next.ScLoad? then ByScaler else if next.ScIdle? && s.scaler.ScAdd? then Free else s.scaleLock)
  }

  predicate StarterGrows(s: State) { s.starter.StAdd? && s.starter.i < s.config.initial }

  function NextStarter(s: State): Starter {
    match s.starter
    case StIdle => if s.status == Active || s.status == ShuttingDown then StIdle else StLoad
    case StLoad => StAdd(s.count.workers)
    case StAdd(i) => if i < s.config.initial then StAdd(i + 1) else StIdle
  }

  /** Start holds the status lock until its workers are running. */
  function StepStarter(s: State): State {
    var next := NextStarter(s);
    var begins, ends := next.StLoad?, s.starter.StAdd? && next.StIdle?;
    (if StarterGrows(s) then AddWorker(s) else s).(
      starter := next, status := if begins then Active else s.status, statusHeld := begins || (s.statusHeld && !ends),
      stopClosed := s.stopClosed && !begins, starts := s.starts + if begins then 1 else 0)
  }

  /** A Submit has found the pool running and not yet enqueued its task. */
  predicate InFlight(s: State) {
    exists i :: 0 <= i < |s.subs| && s.subs[i].UEnqueue?
  }

  /** `giveUp`: the context of the call is done. HReturned: the call returns nil. */
  function NextShutter(s: State, giveUp: bool): Shutter {
    match s.shutter
    case HIdle => if s.statusHeld || s.status == Stopped || s.status == ShuttingDown then HIdle else HPoll
    case HPoll => if s.queue == [] then HClose else if giveUp then HIdle else HPoll
    case HClose => HWait
    case HWait => if giveUp then HIdle else if s.count.group == 0 then HStop else HWait
    case HStop => HReturned
    case HReturned => HIdle
  }

  function StatusShutting(s: State, next: Shutter): PoolStatus {
    if s.shutter.HIdle? && next.HPoll? then ShuttingDown else if s.shutter.HStop? then Stopped else s.status
  }

  /** A call that gives up cancels the context of the pool. */
  function StepShutter(s: State, giveUp: bool): State {
    var pc, next := s.shutter, NextShutter(s, giveUp);
    s.(shutter := next, status := StatusShutting(s, next), stopClosed := s.stopClosed || pc.HClose?,
       cancelled := s.cancelled || ((pc.HPoll? || pc.HWait?) && next.HIdle?),
       drained := if next.HClose? then |s.tasks| else s.drained,
       late := if next.HClose? then InFlight(s) else s.late)
  }

  function Apply(s: State, step: Step): State
    requires InRange(s)
  {
    match step
    case Submit(i) => if i < |s.subs| then StepSubmitter(s, i) else s
    case Work(w, k, quit, o) => if w < |s.workers| then StepWorker(s, w, k, quit, o) else s
    case Scale(load) => StepScaler(s, load)
    case Start => StepStarter(s)
    case Shutdown(giveUp) => StepShutter(s, giveUp)
    case CancelTask(id) =>
      if id < |s.tasks| then s.(tasks := s.tasks[id := Do(s.tasks[id], Cancel)]) else s
  }

  lemma {:induction false} InRangeTake(s: State, w: nat, k: nat, quit: bool, o: Outcome)
    requires InRange(s) && w < |s.workers| && Takes(s, s.workers[w])
    ensures InRange(StepWorker(s, w, k, quit, o))
  {}

  lemma {:induction false} InRangeWorker(s: State, w: nat, k: nat, quit: bool, o: Outcome)
    requires InRange(s) && w < |s.workers|
    ensures InRange(StepWorker(s, w, k, quit, o))
  {
    if Takes(s, s.workers[w]) {
      InRangeTake(s, w, k, quit, o);
    }
  }

  lemma {:induction false} InRangeAdd(s: State)
    requires InRange(s)
    ensures InRange(AddWorker(s))
  {}

  lemma {:induction false} InRangeSubmitter(s: State, i: nat)
    requires InRange(s) && i < |s.subs|
    ensures InRange(StepSubmitter(s, i))
  {
    InRangeAdd(s);
  }

  lemma {:induction false} InRangeScaler(s: State, load: Load)
    requires InRange(s)
    ensures InRange(StepScaler(s, load))
  {
    InRangeAdd(s);
  }

  lemma {:induction false} InRangeStarter(s: State)
    requires InRange(s)
    ensures InRange(StepStarter(s))
  {
    InRangeAdd(s);
  }

  lemma {:induction false} InRangeStep(s: State, step: Step)
    requires InRange(s)
    ensures InRange(Apply(s, step))
  {
    match step {
      case Work(w, k, quit, o) => if w < |s.workers| { InRangeWorker(s, w, k, quit, o); }
      case Submit(i) => if i < |s.subs| { InRangeSubmitter(s, i); }
      case Scale(load) => InRangeScaler(s, load);
      case Start => InRangeStarter(s);
      case Shutdown(giveUp) =>
      case CancelTask(_) =>
    }
  }

  function Run(s: State, steps: seq<Step>): (s': State)
    requires InRange(s)
    ensures InRange(s')
    decreases |steps|
  {
    if steps == [] then s
    else
      InRangeStep(s, steps[0]);
      Run(Apply(s, steps[0]), steps[1..])
  }
}
