/**
 The BlockingQueue with any number of waiting producers and consumers. Every locked region is one
 step; a waiter gives the lock up inside its wait loop and may be woken at any time, by anything.
 */
module BlockingProtocol {
  import opened Basics
  import opened Counting
  import opened Rings
  import opened QueueSpec

  datatype Producer =
    | PIdle
    | PEnter(item: int)   // about to take the lock
    | PWait(item: int)    // in the wait loop, without the lock
    | PReject             // unlocked after finding the queue closed, about to count the rejection

  datatype Consumer = CIdle | CEnter | CWait

  /** What ended a wait. */
  datatype Wake = Retry | TimedOut | Cancelled

  /** One effect on the queue, with its answer; `waiting` tells Enqueue and Dequeue from
      TryEnqueue and TryDequeue. */
  datatype Event = Event(waiting: bool, op: Op<Cell>, answer: Response<Cell>)

  datatype State = State(
    capacity: nat, ring: Ring<Cell>, closed: bool,
    enqueued: nat, dequeued: nat, rejected: nat, cleared: nat,
    prods: seq<Producer>, cons: seq<Consumer>, log: seq<Event>)

  datatype Step =
    | Produce(i: nat, item: int, wake: Wake)
    | Consume(i: nat, wake: Wake)
    | TryPut(item: int)
    | TryTake
    | ClearAll
    | CloseQueue

  function LimitOf(capacity: nat): Limit { if capacity == 0 then Unbounded else AtMost(capacity) }

  function Init(capacity: nat, producers: nat, consumers: nat): State {
    State(capacity, Ring(seq(if capacity == 0 then 16 else capacity, _ => Cleared), 0, 0, 0),
          false, 0, 0, 0, 0, seq(producers, _ => PIdle), seq(consumers, _ => CIdle), [])
  }

  ghost predicate Valid(s: State) {
    s.ring.Valid() && s.ring.Clean(Cleared) && (s.capacity > 0 ==> |s.ring.data| == s.capacity)
  }

  predicate Full(s: State) {
    if s.capacity == 0 then s.ring.size >= |s.ring.data| else s.ring.size >= s.capacity
  }

  predicate Ready(s: State) {
    && s.ring.Valid()
    && (s.capacity > 0 ==> |s.ring.data| == s.capacity)
  }

  /** Store an item, growing an unbounded array first when it is full. */
  function Insert(s: State, waiting: bool, item: int): State
    requires Ready(s) && (Full(s) ==> s.capacity == 0)
  {
    var ring := if Full(s) then s.ring.Expand(Cleared) else s.ring;
    s.(ring := ring.Put(Holding(item)), enqueued := s.enqueued + 1,
       log := s.log + [Event(waiting, Op.TryEnqueue(Holding(item)), Done)])
  }

  function Remove(s: State, waiting: bool): State
    requires Ready(s) && s.ring.size > 0
  {
    s.(ring := s.ring.Take(Cleared), dequeued := s.dequeued + 1,
       log := s.log + [Event(waiting, Op.TryDequeue, Item(s.ring.data[s.ring.head]))])
  }

  /** An answer that changes nothing in the ring. */
  function Refuse(s: State, waiting: bool, op: Op<Cell>, e: Error): State {
    s.(log := s.log + [Event(waiting, op, Fail(e))])
  }

  /** Enqueue: the first locked region, the regions after each wake-up, and the late count. */
  function StepProducer(s: State, i: nat, item: int, wake: Wake): State
    requires Ready(s) && i < |s.prods|
  {
    match s.prods[i]
    case PIdle => s.(prods := s.prods[i := PEnter(item)])
    case PEnter(x) =>
      if s.closed then
        Refuse(s, true, Op.TryEnqueue(Holding(x)), QueueClosed).(prods := s.prods[i := PReject])
      else if Full(s) && s.capacity > 0 then s.(prods := s.prods[i := PWait(x)])
      else Insert(s, true, x).(prods := s.prods[i := PIdle])
    case PWait(x) =>
      if wake != Retry then s.(prods := s.prods[i := PIdle])
      else if Full(s) && !s.closed then s
      else if s.closed then
        Refuse(s, true, Op.TryEnqueue(Holding(x)), QueueClosed).(prods := s.prods[i := PReject])
      else Insert(s, true, x).(prods := s.prods[i := PIdle])
    case PReject => s.(rejected := s.rejected + 1, prods := s.prods[i := PIdle])
  }

  /** Dequeue: the first locked region, and the regions after each wake-up. */
  function StepConsumer(s: State, i: nat, wake: Wake): State
    requires Ready(s) && i < |s.cons|
  {
    match s.cons[i]
    case CIdle => s.(cons := s.cons[i := CEnter])
    case CEnter =>
      if s.ring.size == 0 then
        if s.closed then Refuse(s, true, Op.TryDequeue, QueueClosed).(cons := s.cons[i := CIdle])
        else s.(cons := s.cons[i := CWait])
      else Remove(s, true).(cons := s.cons[i := CIdle])
    case CWait =>
      if wake != Retry then s.(cons := s.cons[i := CIdle])
      else if s.ring.size == 0 && !s.closed then s
      else if s.ring.size == 0 then
        Refuse(s, true, Op.TryDequeue, if s.closed then QueueClosed else QueueEmpty).(cons := s.cons[i := CIdle])
      else Remove(s, true).(cons := s.cons[i := CIdle])
  }

  function Apply(s: State, step: Step): State
    requires Ready(s)
  {
    match step
    case Produce(i, item, wake) => if i < |s.prods| then StepProducer(s, i, item, wake) else s
    case Consume(i, wake) => if i < |s.cons| then StepConsumer(s, i, wake) else s
    case TryPut(item) =>
      var op := Op.TryEnqueue(Holding(item));
      if s.closed then Refuse(s, false, op, QueueClosed).(rejected := s.rejected + 1)
      else if Full(s) && s.capacity > 0 then Refuse(s, false, op, QueueFull).(rejected := s.rejected + 1)
      else Insert(s, false, item)
    case TryTake =>
      if s.ring.size == 0 then Refuse(s, false, Op.TryDequeue, if s.closed then QueueClosed else QueueEmpty)
      else Remove(s, false)
    case ClearAll =>
      s.(ring := Ring(seq(|s.ring.data|, _ => Cleared), 0, 0, 0), cleared := s.cleared + s.ring.size,
         log := s.log + [Event(false, Op.Clear, Done)])
    case CloseQueue => s.(closed := true, log := s.log + [Event(false, Op.Close, Done)])
  }

  // ----- Refinement of the abstract queue -----

  /** 1 for a rejection that was answered and not yet counted. */
  function Uncounted(p: Producer): int { if p.PReject? then 1 else 0 }

  /** The abstract queue a state stands for; late rejection counts are already in it. */
  ghost function Model(s: State): Queue<Cell>
    requires Ready(s)
    requires Sum(s.prods, Uncounted) >= 0
  {
    Queue(LimitOf(s.capacity), s.capacity, s.ring.Contents(), s.closed,
          s.enqueued, s.dequeued, s.rejected + Sum(s.prods, Uncounted), s.cleared)
  }

  lemma {:induction false} UncountedBounds(s: State)
    ensures 0 <= Sum(s.prods, Uncounted)
  {
    SumBounds(s.prods, Uncounted);
  }

  function Ops(log: seq<Event>): seq<Op<Cell>> { seq(|log|, i requires 0 <= i < |log| => log[i].op) }

  function Answers(log: seq<Event>): seq<Response<Cell>> {
    seq(|log|, i requires 0 <= i < |log| => log[i].answer)
  }

  /** A step either leaves the abstract queue alone or performs one operation on it, with the
      answer it gives. */
  ghost predicate Refines(s: State, s': State)
    requires Ready(s) && Ready(s')
    requires Sum(s.prods, Uncounted) >= 0 && Sum(s'.prods, Uncounted) >= 0
  {
    || (s'.log == s.log && Model(s') == Model(s))
    || (&& |s'.log| == |s.log| + 1 && s.log <= s'.log
        && var e := s'.log[|s.log|];
           Do(Model(s), e.op) == (Model(s'), e.answer))
  }

  lemma {:induction false} InsertRefines(s: State, waiting: bool, item: int)
    requires Valid(s) && !s.closed && (Full(s) ==> s.capacity == 0) && Sum(s.prods, Uncounted) >= 0
    ensures Valid(Insert(s, waiting, item)) && Refines(s, Insert(s, waiting, item))
  {
    ExpandKeeps(s.ring, Cleared);
    PutAppends(if Full(s) then s.ring.Expand(Cleared) else s.ring, Holding(item), Cleared);
  }

  lemma {:induction false} RemoveRefines(s: State, waiting: bool)
    requires Valid(s) && s.ring.size > 0 && Sum(s.prods, Uncounted) >= 0
    ensures Valid(Remove(s, waiting)) && Refines(s, Remove(s, waiting))
  {
    TakeRemoves(s.ring, Cleared);
    assert s.ring.Contents()[1..] == Remove(s, waiting).ring.Contents();
  }

  /** The event a step adds, if any: only ClearAll clears, and a waiting call never gives up
      because the queue is full or empty. */
  predicate EventFits(s: State, step: Step, s': State) {
    |s'.log| == |s.log| + 1 ==>
      var e := s'.log[|s.log|];
      && (e.op.Clear? ==> step == ClearAll)
      && (e.waiting && e.answer.Fail? ==> e.answer.error == QueueClosed)
  }

  ghost predicate StepIsSound(s: State, step: Step, s': State)
    requires Valid(s)
  {
    && EventFits(s, step, s')
    && Valid(s') && s'.capacity == s.capacity
    && 0 <= Sum(s.prods, Uncounted) && 0 <= Sum(s'.prods, Uncounted)
    && Refines(s, s')
  }

  /** Producer `i` goes on as `p`. */
  lemma {:induction false} UncountedSwap(s: State, i: nat, p: Producer)
    requires i < |s.prods|
    ensures 0 <= Sum(s.prods, Uncounted) && 0 <= Sum(s.prods[i := p], Uncounted)
    ensures Sum(s.prods[i := p], Uncounted) == Sum(s.prods, Uncounted) - Uncounted(s.prods[i]) + Uncounted(p)
  {
    SumUpdate(s.prods, i, p, Uncounted);
    UncountedBounds(s);
    SumBounds(s.prods[i := p], Uncounted);
  }

  /** An item goes in. */
  lemma {:induction false} ProducerInserts(s: State, i: nat, step: Step, x: int)
    requires Valid(s) && i < |s.prods| && !s.prods[i].PReject? && !s.closed && (Full(s) ==> s.capacity == 0)
    ensures StepIsSound(s, step, Insert(s, true, x).(prods := s.prods[i := PIdle]))
  {
    UncountedSwap(s, i, PIdle);
    InsertRefines(s, true, x);
  }

  /** A closed queue refuses it; the rejection will be counted later. */
  lemma {:induction false} ProducerRefused(s: State, i: nat, step: Step, x: int)
    requires Valid(s) && i < |s.prods| && !s.prods[i].PReject? && s.closed
    ensures var refused := Refuse(s, true, Op.TryEnqueue(Holding(x)), QueueClosed);
            StepIsSound(s, step, refused.(prods := s.prods[i := PReject]))
  {
    UncountedSwap(s, i, PReject);
  }

  /** The producer goes on without touching the queue. */
  lemma {:induction false} ProducerMoves(s: State, i: nat, step: Step, p: Producer)
    requires Valid(s) && i < |s.prods| && !s.prods[i].PReject? && !p.PReject?
    ensures StepIsSound(s, step, s.(prods := s.prods[i := p]))
  {
    UncountedSwap(s, i, p);
  }

  lemma {:induction false} ProducerCounts(s: State, i: nat, step: Step)
    requires Valid(s) && i < |s.prods| && s.prods[i].PReject?
    ensures StepIsSound(s, step, s.(rejected := s.rejected + 1, prods := s.prods[i := PIdle]))
  {
    UncountedSwap(s, i, PIdle);
  }

  lemma {:induction false} ProducerRefines(s: State, i: nat, item: int, wake: Wake)
    requires Valid(s) && i < |s.prods|
    ensures StepIsSound(s, Produce(i, item, wake), StepProducer(s, i, item, wake))
  {
    var step := Produce(i, item, wake);
    match s.prods[i] {
      case PIdle => ProducerMoves(s, i, step, PEnter(item));
      case PReject => ProducerCounts(s, i, step);
      case PEnter(x) =>
        if s.closed {
          ProducerRefused(s, i, step, x);
        } else if Full(s) && s.capacity > 0 {
          ProducerMoves(s, i, step, PWait(x));
        } else {
          ProducerInserts(s, i, step, x);
        }
      case PWait(x) =>
        if wake != Retry {
          ProducerMoves(s, i, step, PIdle);
        } else if s.closed {
          ProducerRefused(s, i, step, x);
        } else if Full(s) {
          ProducerMoves(s, i, step, PWait(x));
          assert s.prods[i := PWait(x)] == s.prods;
        } else {
          ProducerInserts(s, i, step, x);
        }
    }
  }

  lemma {:induction false} ConsumerRemoves(s: State, i: nat, step: Step)
    requires Valid(s) && i < |s.cons| && s.ring.size > 0
    ensures StepIsSound(s, step, Remove(s, true).(cons := s.cons[i := CIdle]))
  {
    UncountedBounds(s);
    RemoveRefines(s, true);
  }

  /** The queue is empty, or the consumer does not look. */
  lemma {:induction false} ConsumerMoves(s: State, i: nat, wake: Wake)
    requires Valid(s) && i < |s.cons|
    requires s.ring.size == 0 || s.cons[i].CIdle? || (s.cons[i].CWait? && wake != Retry)
    ensures StepIsSound(s, Consume(i, wake), StepConsumer(s, i, wake))
  {
    UncountedBounds(s);
  }

  lemma {:induction false} ConsumerRefines(s: State, i: nat, wake: Wake)
    requires Valid(s) && i < |s.cons|
    ensures StepIsSound(s, Consume(i, wake), StepConsumer(s, i, wake))
  {
    if s.ring.size > 0 && (s.cons[i].CEnter? || (s.cons[i].CWait? && wake == Retry)) {
      ConsumerRemoves(s, i, Consume(i, wake));
    } else {
      ConsumerMoves(s, i, wake);
    }
  }

  lemma {:induction false} StepRefines(s: State, step: Step)
    requires Valid(s)
    ensures StepIsSound(s, step, Apply(s, step))
  {
    UncountedBounds(s);
    var s' := Apply(s, step);
    match step {
      case Produce(i, item, wake) => if i < |s.prods| { ProducerRefines(s, i, item, wake); }
      case Consume(i, wake) => if i < |s.cons| { ConsumerRefines(s, i, wake); }
      case TryPut(item) => if s'.enqueued != s.enqueued { InsertRefines(s, false, item); }
      case TryTake => if s.ring.size > 0 { RemoveRefines(s, false); }
      case ClearAll => assert s'.ring.Contents() == [];
      case CloseQueue =>
    }
  }

  // ----- Whole runs -----

  /** Every schedule has a run: no step ever overwrites a live slot or reads an empty ring. */
  ghost function Run(s: State, steps: seq<Step>): (s': State)
    requires Valid(s)
    ensures Valid(s')
    decreases |steps|
  {
    if steps == [] then s
    else
      StepRefines(s, steps[0]);
      Run(Apply(s, steps[0]), steps[1..])
  }

  /** The concurrent history so far is a history of the abstract queue. */
  ghost predicate Linearized(s: State) {
    && Valid(s) && Sum(s.prods, Uncounted) >= 0
    && DoAll(New<Cell>(LimitOf(s.capacity), s.capacity), Ops(s.log)) == (Model(s), Answers(s.log))
  }

  lemma {:induction false} LinearizedStep(s: State, step: Step, s': State)
    requires Linearized(s) && StepIsSound(s, step, s')
    ensures Linearized(s')
  {
    if s'.log != s.log {
      var e := s'.log[|s.log|];
      assert s'.log == s.log + [e];
      assert Ops(s'.log) == Ops(s.log) + [e.op];
      assert Answers(s'.log) == Answers(s.log) + [e.answer];
      DoAllAppend(New<Cell>(LimitOf(s.capacity), s.capacity), Ops(s.log), e.op);
    }
  }

  lemma {:induction false} LinearizedRun(s: State, steps: seq<Step>)
    requires Linearized(s)
    ensures Linearized(Run(s, steps)) && Run(s, steps).capacity == s.capacity
    decreases |steps|
  {
    if steps != [] {
      var s' := Apply(s, steps[0]);
      assert StepIsSound(s, steps[0], s') by { StepRefines(s, steps[0]); }
      LinearizedStep(s, steps[0], s');
      LinearizedRun(s', steps[1..]);
    }
  }

  lemma {:induction false} InitLinearized(capacity: nat, producers: nat, consumers: nat)
    ensures Linearized(Init(capacity, producers, consumers))
  {
    var s := Init(capacity, producers, consumers);
    SumZero(s.prods, Uncounted);
    assert s.ring.Contents() == [];
    assert Ops(s.log) == [] && Answers(s.log) == [];
  }

  /** Any number of threads, any schedule: the effects, in the order they happen, are answered
      exactly as the abstract queue answers them one at a time, the statistics are its statistics up to
      the rejections still to be counted, and a bounded queue never holds more than its capacity. */
  lemma {:induction false} Linearizable(capacity: nat, producers: nat, consumers: nat, steps: seq<Step>)
    ensures Valid(Init(capacity, producers, consumers))
    ensures var s := Run(Init(capacity, producers, consumers), steps);
            var (q, answers) := DoAll(New<Cell>(LimitOf(capacity), capacity), Ops(s.log));
            && Answers(s.log) == answers
            && s.ring.Contents() == q.items && s.closed == q.closed
            && s.enqueued == q.enqueued && s.dequeued == q.dequeued && s.cleared == q.cleared
            && s.rejected + Sum(s.prods, Uncounted) == q.rejected
            && (capacity > 0 ==> s.ring.size <= capacity)
  {
    InitLinearized(capacity, producers, consumers);
    LinearizedRun(Init(capacity, producers, consumers), steps);
  }

  /** Without Clear: the items handed out, followed by the items still stored, are exactly the
      items let in, in the order they were let in. */
  lemma {:induction false} DeliveredInOrder(capacity: nat, producers: nat, consumers: nat, steps: seq<Step>)
    requires Valid(Init(capacity, producers, consumers))
    requires ClearAll !in steps
    ensures var s := Run(Init(capacity, producers, consumers), steps);
            HandedOut(Ops(s.log), Answers(s.log)) + s.ring.Contents() == LetIn(Ops(s.log), Answers(s.log))
  {
    var s := Init(capacity, producers, consumers);
    Linearizable(capacity, producers, consumers, steps);
    NoClear(s, steps);
    FirstInFirstOut<Cell>(LimitOf(capacity), capacity, Ops(Run(s, steps).log));
  }

  predicate ClearFree(s: State) {
    forall i :: 0 <= i < |s.log| ==> !s.log[i].op.Clear?
  }

  lemma {:induction false} ClearFreeStep(s: State, step: Step, s': State)
    requires Valid(s) && StepIsSound(s, step, s') && step != ClearAll && ClearFree(s)
    ensures ClearFree(s')
  {}

  lemma {:induction false} NoClear(s: State, steps: seq<Step>)
    requires Valid(s) && ClearAll !in steps && ClearFree(s)
    ensures ClearFree(Run(s, steps))
    decreases |steps|
  {
    if steps != [] {
      var s' := Apply(s, steps[0]);
      assert StepIsSound(s, steps[0], s') by { StepRefines(s, steps[0]); }
      ClearFreeStep(s, steps[0], s');
      NoClear(s', steps[1..]);
    }
  }

  /** A waiting call never gives up because the queue is full or empty: Enqueue fails only on a
      closed queue, and Dequeue only on one that is closed and drained. */
  predicate Patient(s: State) {
    forall i :: 0 <= i < |s.log| && s.log[i].waiting && s.log[i].answer.Fail? ==>
      s.log[i].answer.error == QueueClosed
  }

  lemma {:induction false} PatientStep(s: State, step: Step, s': State)
    requires Valid(s) && StepIsSound(s, step, s') && Patient(s)
    ensures Patient(s')
  {}

  lemma {:induction false} WaitersArePatient(s: State, steps: seq<Step>)
    requires Valid(s) && Patient(s)
    ensures Patient(Run(s, steps))
    decreases |steps|
  {
    if steps != [] {
      var s' := Apply(s, steps[0]);
      assert StepIsSound(s, steps[0], s') by { StepRefines(s, steps[0]); }
      PatientStep(s, steps[0], s');
      WaitersArePatient(s', steps[1..]);
    }
  }

  /** `s'` has handed out some of the oldest items of `s` and let nothing in. */
  ghost predicate Drained(s: State, s': State)
    requires Valid(s) && Valid(s')
  {
    var n := s'.dequeued - s.dequeued;
    && s'.closed && s'.enqueued == s.enqueued
    && 0 <= n <= s.ring.size
    && s'.ring.Contents() == s.ring.Contents()[n..]
  }

  lemma {:induction false} ClosedStep(s: State, step: Step, s': State)
    requires Valid(s) && StepIsSound(s, step, s') && s.closed && step != ClearAll
    ensures Drained(s, s')
  {
    assert Model(s).items[0..] == Model(s).items;
    if s'.log != s.log {
      ClosedHandsOutOldest(Model(s), s'.log[|s.log|].op);
    }
  }

  lemma {:induction false} DrainedTransitive(s: State, s1: State, s2: State)
    requires Valid(s) && Valid(s1) && Valid(s2) && Drained(s, s1) && Drained(s1, s2)
    ensures Drained(s, s2)
  {}

  /** After Close no item is let in, by any thread, waiting or not; the items already stored are
      still handed out, oldest first. */
  lemma {:induction false} ClosedDrains(s: State, steps: seq<Step>)
    requires Valid(s) && s.closed && ClearAll !in steps
    ensures Drained(s, Run(s, steps))
    decreases |steps|
  {
    if steps != [] {
      var s' := Apply(s, steps[0]);
      assert StepIsSound(s, steps[0], s') by { StepRefines(s, steps[0]); }
      ClosedStep(s, steps[0], s');
      ClosedDrains(s', steps[1..]);
      DrainedTransitive(s, s', Run(s', steps[1..]));
    }
  }
}
