/**
 The compare-and-swap protocol of the bounded NonBlockingQueue, one step per atomic operation.

 Enqueue claims a slot by moving `tail`, writes the slot, and only then adds to `size`; Dequeue
 reads a slot, claims it by moving `head`, clears it, and only then subtracts from `size`.
 Any schedule of those steps is a run.
 */
module NonBlockingProtocol {
  import opened Basics
  import opened Counting

  /** Where a producer is inside Enqueue; each constructor names its next atomic operation. */
  datatype Producer =
    | PIdle
    | PClosed(item: int)            // load closed
    | PFull(item: int)              // load size, before the loop
    | PTail(item: int)              // load tail
    | PSize(item: int, t: nat)      // load size, inside the loop
    | PSwap(item: int, t: nat)      // compare-and-swap tail
    | PWrite(item: int, t: nat)     // write the claimed slot
    | PAdd(item: int)               // size += 1

  /** Where a consumer is inside Dequeue. */
  datatype Consumer =
    | CIdle
    | CEmpty                        // load size, before the loop
    | CHead                         // load head
    | CSize(h: nat)                 // load size, inside the loop
    | CRead(h: nat)                 // read the slot
    | CSwap(h: nat, found: Cell)    // compare-and-swap head
    | CClear(h: nat, found: Cell)   // clear the slot
    | CSub(found: Cell)             // size -= 1

  /** Shared memory, the threads, and a history: the items in the order their tail swap succeeded
      (`claimed`) and their Enqueue finished (`accepted`), the number of successful head swaps
      (`taken`), and the values Dequeue handed out (`returned`). */
  datatype State = State(
    cap: nat, data: seq<Cell>, head: nat, tail: nat, size: int, closed: bool,
    prods: seq<Producer>, cons: seq<Consumer>,
    claimed: seq<int>, accepted: seq<int>, taken: nat, returned: seq<Cell>)

  /** One scheduling decision; `item` is what an idle producer is called with. */
  datatype Step = Produce(i: nat, item: int) | Consume(i: nat) | Close

  function Init(cap: nat, producers: nat, consumers: nat): State {
    State(cap, seq(cap, _ => Cleared), 0, 0, 0, false,
          seq(producers, _ => PIdle), seq(consumers, _ => CIdle), [], [], 0, [])
  }

  predicate ProducerInRange(p: Producer, cap: nat) {
    p.PSize? || p.PSwap? || p.PWrite? ==> p.t < cap
  }

  predicate ConsumerInRange(c: Consumer, cap: nat) {
    c.CSize? || c.CRead? || c.CSwap? || c.CClear? ==> c.h < cap
  }

  /** Every index a thread holds lies inside the array. */
  predicate InRange(s: State) {
    && s.cap > 0 && |s.data| == s.cap && s.head < s.cap && s.tail < s.cap
    && (forall i :: 0 <= i < |s.prods| ==> ProducerInRange(s.prods[i], s.cap))
    && (forall i :: 0 <= i < |s.cons| ==> ConsumerInRange(s.cons[i], s.cap))
  }

  /** What a producer does after its operation: a swap succeeds when `tail` has not moved. */
  function NextProducer(s: State, p: Producer, item: int): Producer {
    match p
    case PIdle => PClosed(item)
    case PClosed(x) => if s.closed then PIdle else PFull(x)
    case PFull(x) => if s.size >= s.cap then PIdle else PTail(x)
    case PTail(x) => PSize(x, s.tail)
    case PSize(x, t) => if s.size >= s.cap then PIdle else PSwap(x, t)
    case PSwap(x, t) => if s.tail == t then PWrite(x, t) else PTail(x)
    case PWrite(x, t) => PAdd(x)
    case PAdd(x) => PIdle
  }

  predicate Claims(s: State, p: Producer) { p.PSwap? && s.tail == p.t }

  /** The next atomic operation of producer `i`. */
  function StepProducer(s: State, i: nat, item: int): State
    requires InRange(s) && i < |s.prods|
  {
    var p := s.prods[i];
    s.(prods := s.prods[i := NextProducer(s, p, item)],
       tail := if Claims(s, p) then Advance(p.t, s.cap) else s.tail,
       claimed := if Claims(s, p) then s.claimed + [p.item] else s.claimed,
       data := if p.PWrite? then s.data[p.t := Holding(p.item)] else s.data,
       size := if p.PAdd? then s.size + 1 else s.size,
       accepted := if p.PAdd? then s.accepted + [p.item] else s.accepted)
  }

  /** What a consumer does after its operation. The emptiness test is `size == 0`, nothing else. */
  function NextConsumer(s: State, c: Consumer): Consumer
    requires InRange(s) && ConsumerInRange(c, s.cap)
  {
    match c
    case CIdle => CEmpty
    case CEmpty => if s.size == 0 then CIdle else CHead
    case CHead => CSize(s.head)
    case CSize(h) => if s.size == 0 then CIdle else CRead(h)
    case CRead(h) => CSwap(h, s.data[h])
    case CSwap(h, x) => if s.head == h then CClear(h, x) else CHead
    case CClear(h, x) => CSub(x)
    case CSub(x) => CIdle
  }

  predicate Takes(s: State, c: Consumer) { c.CSwap? && s.head == c.h }

  /** The next atomic operation of consumer `i`. */
  function StepConsumer(s: State, i: nat): State
    requires InRange(s) && i < |s.cons|
  {
    var c := s.cons[i];
    s.(cons := s.cons[i := NextConsumer(s, c)],
       head := if Takes(s, c) then Advance(c.h, s.cap) else s.head,
       taken := if Takes(s, c) then s.taken + 1 else s.taken,
       data := if c.CClear? then s.data[c.h := Cleared] else s.data,
       size := if c.CSub? then s.size - 1 else s.size,
       returned := if c.CSub? then s.returned + [c.found] else s.returned)
  }

  /** A step of a thread that does not exist changes nothing. */
  function Apply(s: State, step: Step): (s': State)
    requires InRange(s)
    ensures InRange(s')
    ensures s'.cap == s.cap && |s'.prods| == |s.prods| && |s'.cons| == |s.cons|
  {
    match step
    case Produce(i, item) => if i < |s.prods| then StepProducer(s, i, item) else s
    case Consume(i) => if i < |s.cons| then StepConsumer(s, i) else s
    case Close => s.(closed := true)
  }

  /** The state after a schedule. */
  function Run(s: State, steps: seq<Step>): (s': State)
    requires InRange(s)
    ensures InRange(s')
    ensures s'.cap == s.cap && |s'.prods| == |s.prods| && |s'.cons| == |s.cons|
    decreases |steps|
  {
    if steps == [] then s else Run(Apply(s, steps[0]), steps[1..])
  }

  // ----- Any number of producers and consumers: the counters -----

  /** 1 for a producer that has claimed a slot and not yet added it to `size`. */
  function Claiming(p: Producer): int { if p.PWrite? || p.PAdd? then 1 else 0 }

  /** 1 for a producer that has passed the last fullness test and not yet added to `size`. */
  function Committed(p: Producer): int { if p.PSwap? || p.PWrite? || p.PAdd? then 1 else 0 }

  /** 1 for a consumer that has claimed a slot and not yet subtracted it from `size`. */
  function Taking(c: Consumer): int { if c.CClear? || c.CSub? then 1 else 0 }

  predicate Indices(s: State) {
    && s.cap > 0
    && s.tail == |s.claimed| % s.cap
    && s.head == s.taken % s.cap
  }

  predicate Counts(s: State) {
    && |s.accepted| == |s.claimed| - Sum(s.prods, Claiming)
    && |s.returned| == s.taken - Sum(s.cons, Taking)
    && s.size == |s.accepted| - |s.returned|
    && s.size + Sum(s.prods, Committed) <= s.cap + |s.prods| - 1
  }

  lemma {:induction false} IndicesStep(s: State, step: Step)
    requires InRange(s) && Indices(s)
    ensures Indices(Apply(s, step))
  {
    if step.Produce? && step.i < |s.prods| && s.prods[step.i].PSwap? {
      AdvanceSlot(|s.claimed|, s.cap);
    } else if step.Consume? && step.i < |s.cons| && s.cons[step.i].CSwap? {
      AdvanceSlot(s.taken, s.cap);
    }
  }

  lemma {:induction false} CountsProducer(s: State, i: nat, item: int)
    requires InRange(s) && i < |s.prods| && Counts(s)
    ensures Counts(StepProducer(s, i, item))
  {
    var s' := StepProducer(s, i, item);
    var p := s'.prods[i];
    assert s'.prods == s.prods[i := p];
    SumUpdate(s.prods, i, p, Claiming);
    SumUpdate(s.prods, i, p, Committed);
    match s.prods[i] {
      case PSize(_, _) => SumBounds(s'.prods, Committed);
      case PSwap(_, _) =>
      case PAdd(_) =>
      case _ => assert Claiming(p) == Claiming(s.prods[i]);
    }
  }

  lemma {:induction false} CountsConsumer(s: State, i: nat)
    requires InRange(s) && i < |s.cons| && Counts(s)
    ensures Counts(StepConsumer(s, i))
  {
    var s' := StepConsumer(s, i);
    var c := s'.cons[i];
    assert s'.cons == s.cons[i := c];
    SumUpdate(s.cons, i, c, Taking);
    match s.cons[i] {
      case CSwap(_, _) =>
      case CSub(_) =>
      case _ => assert Taking(c) == Taking(s.cons[i]);
    }
  }

  lemma {:induction false} LedgerRun(s: State, steps: seq<Step>)
    requires InRange(s) && Indices(s) && Counts(s)
    ensures Indices(Run(s, steps)) && Counts(Run(s, steps))
    decreases |steps|
  {
    if steps != [] {
      IndicesStep(s, steps[0]);
      match steps[0] {
        case Produce(i, item) => if i < |s.prods| { CountsProducer(s, i, item); }
        case Consume(i) => if i < |s.cons| { CountsConsumer(s, i); }
        case Close =>
      }
      LedgerRun(Apply(s, steps[0]), steps[1..]);
    }
  }

  lemma {:induction false} LedgerInit(cap: nat, producers: nat, consumers: nat)
    requires cap > 0
    ensures Indices(Init(cap, producers, consumers)) && Counts(Init(cap, producers, consumers))
  {
    var s := Init(cap, producers, consumers);
    SumZero(s.prods, Claiming);
    SumZero(s.prods, Committed);
    SumZero(s.cons, Taking);
    ModUnique(0, cap, 0, 0);
  }

  /** For any number of threads and any schedule: `tail` and `head` are the numbers of successful
      swaps modulo the capacity, `size` is their difference corrected by the claims in flight,
      and it never exceeds the capacity by more than the number of other producers. */
  lemma {:induction false} CountersExact(cap: nat, producers: nat, consumers: nat, steps: seq<Step>)
    requires cap > 0
    ensures var s := Run(Init(cap, producers, consumers), steps);
            && s.tail == |s.claimed| % cap
            && s.head == s.taken % cap
            && s.size == (|s.claimed| - Sum(s.prods, Claiming)) - (s.taken - Sum(s.cons, Taking))
            && s.size <= cap + producers - 1
  {
    LedgerInit(cap, producers, consumers);
    LedgerRun(Init(cap, producers, consumers), steps);
    SumBounds(Run(Init(cap, producers, consumers), steps).prods, Committed);
  }
}
