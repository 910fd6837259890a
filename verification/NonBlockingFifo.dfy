/** With one producer and one consumer the bounded NonBlockingQueue is a FIFO queue. */
module NonBlockingFifo {
  import opened Basics
  import opened Counting
  import opened NonBlockingProtocol
  import opened NonBlockingRuns
  import opened NonBlockingCalls

  /** What Dequeue handed out so far is, value for value, the beginning of what was enqueued. */
  predicate Fifo(s: State) {
    && |s.returned| <= |s.accepted|
    && forall k :: 0 <= k < |s.returned| ==> s.returned[k] == Holding(s.accepted[k])
  }

  /** The counters, with one thread of each kind. */
  predicate Lengths(s: State) {
    && |s.prods| == 1 && |s.cons| == 1
    && |s.claimed| == |s.accepted| + Claiming(s.prods[0])
    && s.taken == |s.returned| + Taking(s.cons[0])
    && s.size == |s.accepted| - |s.returned|
    && s.taken <= |s.accepted|
    && (s.cons[0].CRead? || s.cons[0].CSwap? ==> s.taken < |s.accepted|)
  }

  /** Never more than `cap` items between the last claim and the last completed Dequeue. */
  predicate Room(s: State)
    requires Lengths(s)
  {
    && |s.claimed| - |s.returned| <= s.cap
    && (s.prods[0].PSwap? ==> |s.claimed| - |s.returned| < s.cap)
  }

  /** Every slot index a thread holds is the one its position in the history says. */
  predicate Places(s: State)
    requires Lengths(s) && s.cap > 0
  {
    var p, c := s.prods[0], s.cons[0];
    && s.tail == |s.claimed| % s.cap
    && s.head == s.taken % s.cap
    && (p.PSize? || p.PSwap? ==> p.t == s.tail)
    && (p.PWrite? ==> p.t == (|s.claimed| - 1) % s.cap)
    && (c.CSize? || c.CRead? || c.CSwap? ==> c.h == s.head)
    && (c.CClear? ==> c.h == (s.taken - 1) % s.cap)
  }

  /** How many claimed slots have been written. */
  function Written(s: State): int
    requires Lengths(s)
  {
    |s.claimed| - if s.prods[0].PWrite? then 1 else 0
  }

  /** Every slot written and not yet claimed by the consumer still holds its item. */
  predicate Slots(s: State)
    requires Lengths(s) && InRange(s)
  {
    forall k :: s.taken <= k < Written(s) ==> s.data[k % s.cap] == Holding(s.claimed[k])
  }

  /** The histories agree item by item, and so do the values in the threads' hands. */
  predicate Values(s: State)
    requires Lengths(s)
  {
    var p, c := s.prods[0], s.cons[0];
    && s.accepted <= s.claimed
    && (forall k :: 0 <= k < |s.returned| ==> s.returned[k] == Holding(s.claimed[k]))
    && (p.PWrite? || p.PAdd? ==> p.item == s.claimed[|s.claimed| - 1])
    && (c.CSwap? ==> c.found == Holding(s.claimed[s.taken]))
    && (c.CClear? || c.CSub? ==> c.found == Holding(s.claimed[s.taken - 1]))
  }

  predicate Inv(s: State) {
    InRange(s) && Lengths(s) && Room(s) && Places(s) && Slots(s) && Values(s)
  }

  lemma {:induction false} LengthsProducer(s: State, item: int)
    requires InRange(s) && Lengths(s) && Room(s)
    ensures Lengths(StepProducer(s, 0, item)) && Room(StepProducer(s, 0, item))
  {
    match s.prods[0] {
      case PSwap(_, _) =>
      case PAdd(_) =>
      case _ =>
    }
  }

  lemma {:induction false} LengthsConsumer(s: State)
    requires InRange(s) && Lengths(s) && Room(s)
    ensures Lengths(StepConsumer(s, 0)) && Room(StepConsumer(s, 0))
  {
    match s.cons[0] {
      case CSwap(_, _) =>
      case CSub(_) =>
      case _ =>
    }
  }

  lemma {:induction false} PlacesProducer(s: State, item: int)
    requires InRange(s) && Lengths(s) && Room(s) && Places(s)
    ensures Lengths(StepProducer(s, 0, item)) && Places(StepProducer(s, 0, item))
  {
    LengthsProducer(s, item);
    if s.prods[0].PSwap? {
      AdvanceSlot(|s.claimed|, s.cap);
    }
  }

  lemma {:induction false} PlacesConsumer(s: State)
    requires InRange(s) && Lengths(s) && Room(s) && Places(s)
    ensures Lengths(StepConsumer(s, 0)) && Places(StepConsumer(s, 0))
  {
    LengthsConsumer(s);
    if s.cons[0].CSwap? {
      AdvanceSlot(s.taken, s.cap);
    }
  }

  /** The producer writes a slot that holds no unread item. */
  lemma {:induction false} WriteHitsFreeSlot(s: State, k: nat)
    requires Lengths(s) && Room(s) && s.cap > 0 && Places(s)
    requires s.prods[0].PWrite? && |s.returned| <= k < |s.claimed| - 1
    ensures k % s.cap != s.prods[0].t
  {
    ModDistinct(k, |s.claimed| - 1, s.cap);
  }

  /** The consumer clears a slot that holds no unread item. */
  lemma {:induction false} ClearHitsReadSlot(s: State, k: nat)
    requires Lengths(s) && Room(s) && s.cap > 0 && Places(s)
    requires s.cons[0].CClear? && s.taken <= k < |s.claimed|
    ensures k % s.cap != s.cons[0].h
  {
    ModDistinct(s.taken - 1, k, s.cap);
  }

  lemma {:induction false} SlotsProducer(s: State, item: int)
    requires Inv(s)
    ensures Lengths(StepProducer(s, 0, item)) && Slots(StepProducer(s, 0, item))
  {
    LengthsProducer(s, item);
    var s' := StepProducer(s, 0, item);
    if s.prods[0].PWrite? {
      forall k | s.taken <= k < |s.claimed|
        ensures s'.data[k % s.cap] == Holding(s.claimed[k])
      {
        if k < |s.claimed| - 1 { WriteHitsFreeSlot(s, k); }
      }
    }
  }

  lemma {:induction false} SlotsConsumer(s: State)
    requires Inv(s)
    ensures Lengths(StepConsumer(s, 0)) && Slots(StepConsumer(s, 0))
  {
    LengthsConsumer(s);
    if s.cons[0].CClear? {
      forall k | s.taken <= k < Written(s) ensures k % s.cap != s.cons[0].h {
        ClearHitsReadSlot(s, k);
      }
    }
  }

  lemma {:induction false} ValuesProducer(s: State, item: int)
    requires InRange(s) && Lengths(s) && Room(s) && Values(s)
    ensures Lengths(StepProducer(s, 0, item)) && Values(StepProducer(s, 0, item))
  {
    LengthsProducer(s, item);
    match s.prods[0] {
      case PSwap(_, _) =>
      case PAdd(_) =>
      case _ =>
    }
  }

  lemma {:induction false} ValuesConsumer(s: State)
    requires Inv(s)
    ensures Lengths(StepConsumer(s, 0)) && Values(StepConsumer(s, 0))
  {
    LengthsConsumer(s);
    match s.cons[0] {
      case CRead(h) => assert s.data[s.taken % s.cap] == Holding(s.claimed[s.taken]);
      case CSwap(_, _) =>
      case CSub(_) =>
      case _ =>
    }
  }

  lemma {:induction false} InvStep(s: State, step: Step)
    requires Inv(s)
    ensures Inv(Apply(s, step))
  {
    match step {
      case Produce(i, item) =>
        if i == 0 {
          LengthsProducer(s, item);
          PlacesProducer(s, item);
          SlotsProducer(s, item);
          ValuesProducer(s, item);
        }
      case Consume(i) =>
        if i == 0 {
          LengthsConsumer(s);
          PlacesConsumer(s);
          SlotsConsumer(s);
          ValuesConsumer(s);
        }
      case Close =>
    }
  }

  lemma {:induction false} InvRun(s: State, steps: seq<Step>)
    requires Inv(s)
    ensures Inv(Run(s, steps))
    decreases |steps|
  {
    if steps != [] {
      InvStep(s, steps[0]);
      InvRun(Apply(s, steps[0]), steps[1..]);
    }
  }

  lemma {:induction false} InvInit(cap: nat)
    requires cap > 0
    ensures Inv(Init(cap, 1, 1))
  {
    ModUnique(0, cap, 0, 0);
  }

  /** One producer, one consumer, any schedule: the dequeued items are a prefix of the enqueued
      ones, no cleared slot is handed out, every written slot not yet taken still holds its item,
      0 <= size <= capacity, and from the moment it is closed the queue lets in one more item at most. */
  lemma {:induction false} SingleProducerSingleConsumer(cap: nat, steps: seq<Step>)
    requires cap > 0
    ensures var s := Run(Init(cap, 1, 1), steps);
            && Fifo(s)
            && 0 <= s.size <= cap
            && s.size == |s.accepted| - |s.returned|
            && (forall k :: s.taken <= k < |s.accepted| ==> s.data[k % cap] == Holding(s.accepted[k]))
            && (forall n :: 0 <= n <= |steps| ==>
                  var before := Run(Init(cap, 1, 1), steps[..n]);
                  before.closed ==> |s.claimed| <= |before.claimed| + 1)
  {
    InvInit(cap);
    InvRun(Init(cap, 1, 1), steps);
    forall n | 0 <= n <= |steps|
      ensures var before := Run(Init(cap, 1, 1), steps[..n]);
              before.closed ==> |Run(Init(cap, 1, 1), steps).claimed| <= |before.claimed| + 1
    {
      var before := Run(Init(cap, 1, 1), steps[..n]);
      assert steps[..n] + steps[n..] == steps;
      RunAppend(Init(cap, 1, 1), steps[..n], steps[n..]);
      if before.closed {
        CloseLetsInFew(before, steps[n..]);
        SumBounds(before.prods, PastTest);
      }
    }
  }
}
