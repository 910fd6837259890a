/**
 Exactly when the bounded NonBlockingQueue keeps its promises: its capacity with at most one
 producer, a non-negative size with at most one consumer, and FIFO order with one of each.
 For every other number of threads a schedule that breaks the promise is built.
 */
module NonBlockingLimits {
  import opened Basics
  import opened Counting
  import opened NonBlockingProtocol
  import opened NonBlockingRuns
  import NonBlockingFifo

  // ----- The schedules of whole and half calls -----

  /** Producer `i` runs Enqueue up to and including its tail swap. */
  function Claim(i: nat, item: int): seq<Step> {
    [Produce(i, item), Produce(i, item), Produce(i, item), Produce(i, item), Produce(i, item), Produce(i, item)]
  }

  /** Producer `i` writes its slot and adds to `size`. */
  function Finish(i: nat): seq<Step> { [Produce(i, 0), Produce(i, 0)] }

  /** Consumer `i` runs Dequeue up to, but not including, subtracting from `size`. */
  function Take(i: nat): seq<Step> {
    [Consume(i), Consume(i), Consume(i), Consume(i), Consume(i), Consume(i), Consume(i)]
  }

  /** The four loads of Enqueue. */
  lemma {:induction false} ChecksRun(s: State, i: nat, item: int)
    requires InRange(s) && i < |s.prods| && s.prods[i] == PIdle && !s.closed && s.size < s.cap
    ensures var x := Produce(i, item); Run(s, [x, x] + [x, x]) == s.(prods := s.prods[i := PSize(item, s.tail)])
  {
    var x := Produce(i, item);
    RunAppend(s, [x, x], [x, x]);
    RunTwo(s, x);
    var s2 := Run(s, [x, x]);
    assert s2 == s.(prods := s.prods[i := PFull(item)]);
    RunTwo(s2, x);
  }

  lemma {:induction false} ClaimRun(s: State, i: nat, item: int)
    requires InRange(s) && i < |s.prods| && s.prods[i] == PIdle && !s.closed && s.size < s.cap
    ensures Run(s, Claim(i, item)) ==
            s.(prods := s.prods[i := PWrite(item, s.tail)],
               tail := Advance(s.tail, s.cap),
               claimed := s.claimed + [item])
  {
    var x := Produce(i, item);
    assert Claim(i, item) == ([x, x] + [x, x]) + [x, x];
    RunAppend(s, [x, x] + [x, x], [x, x]);
    ChecksRun(s, i, item);
    RunTwo(Run(s, [x, x] + [x, x]), x);
  }

  lemma {:induction false} FinishRun(s: State, i: nat)
    requires InRange(s) && i < |s.prods| && s.prods[i].PWrite?
    ensures Run(s, Finish(i)) ==
            s.(prods := s.prods[i := PIdle],
               data := s.data[s.prods[i].t := Holding(s.prods[i].item)],
               size := s.size + 1,
               accepted := s.accepted + [s.prods[i].item])
  {
    RunTwo(s, Produce(i, 0));
  }

  /** The loads of Dequeue. */
  lemma {:induction false} LoadsRun(s: State, i: nat)
    requires InRange(s) && i < |s.cons| && s.cons[i] == CIdle && s.size != 0
    ensures var x := Consume(i); Run(s, [x, x] + [x, x]) == s.(cons := s.cons[i := CRead(s.head)])
  {
    var x := Consume(i);
    RunAppend(s, [x, x], [x, x]);
    RunTwo(s, x);
    var s2 := Run(s, [x, x]);
    assert s2 == s.(cons := s.cons[i := CHead]);
    RunTwo(s2, x);
  }

  lemma {:induction false} TakeRun(s: State, i: nat)
    requires InRange(s) && i < |s.cons| && s.cons[i] == CIdle && s.size != 0
    ensures Run(s, Take(i)) ==
            s.(cons := s.cons[i := CSub(s.data[s.head])],
               data := s.data[s.head := Cleared],
               head := Advance(s.head, s.cap),
               taken := s.taken + 1)
  {
    var x := Consume(i);
    assert Take(i) == ([x, x] + [x, x]) + ([x, x] + [x]);
    RunAppend(s, [x, x] + [x, x], [x, x] + [x]);
    LoadsRun(s, i);
    var s4 := Run(s, [x, x] + [x, x]);
    RunAppend(s4, [x, x], [x]);
    RunTwo(s4, x);
    var s6 := Run(s4, [x, x]);
    assert s6 == s.(cons := s.cons[i := CClear(s.head, s.data[s.head])],
                    head := Advance(s.head, s.cap), taken := s.taken + 1);
    RunOne(s6, x);
  }

  lemma {:induction false} SubRun(s: State, i: nat)
    requires InRange(s) && i < |s.cons| && s.cons[i].CSub?
    ensures Run(s, [Consume(i)]) ==
            s.(cons := s.cons[i := CIdle], size := s.size - 1, returned := s.returned + [s.cons[i].found])
  {
    RunOne(s, Consume(i));
  }

  /** A whole Enqueue with nothing else running. */
  lemma {:induction false} EnqueueRun(s: State, i: nat, item: int)
    requires InRange(s) && i < |s.prods| && s.prods[i] == PIdle && !s.closed && s.size < s.cap
    ensures Run(s, Claim(i, item) + Finish(i)) ==
            s.(data := s.data[s.tail := Holding(item)],
               tail := Advance(s.tail, s.cap),
               size := s.size + 1,
               claimed := s.claimed + [item],
               accepted := s.accepted + [item])
  {
    RunAppend(s, Claim(i, item), Finish(i));
    ClaimRun(s, i, item);
    FinishRun(Run(s, Claim(i, item)), i);
    assert s.prods[i := PWrite(item, s.tail)][i := PIdle] == s.prods;
  }

  /** A whole Dequeue with nothing else running. */
  lemma {:induction false} DequeueRun(s: State, i: nat)
    requires InRange(s) && i < |s.cons| && s.cons[i] == CIdle && s.size != 0
    ensures Run(s, Take(i) + [Consume(i)]) ==
            s.(data := s.data[s.head := Cleared],
               head := Advance(s.head, s.cap),
               size := s.size - 1,
               taken := s.taken + 1,
               returned := s.returned + [s.data[s.head]])
  {
    RunAppend(s, Take(i), [Consume(i)]);
    TakeRun(s, i);
    SubRun(Run(s, Take(i)), i);
    assert s.cons[i := CSub(s.data[s.head])][i := CIdle] == s.cons;
  }

  // ----- Capacity: exact for at most one producer -----

  predicate AllIdle(s: State) {
    !s.closed && forall i :: 0 <= i < |s.prods| ==> s.prods[i] == PIdle
  }

  /** A single producer can fill the queue up by `n` items. */
  lemma {:induction false} Fill(s: State, n: nat) returns (steps: seq<Step>)
    requires InRange(s) && AllIdle(s) && |s.prods| > 0 && s.size + n <= s.cap
    ensures AllIdle(Run(s, steps)) && Run(s, steps).size == s.size + n
    decreases n
  {
    if n == 0 {
      steps := [];
    } else {
      var call := Claim(0, 0) + Finish(0);
      EnqueueRun(s, 0, 0);
      var s' := Run(s, call);
      var rest := Fill(s', n - 1);
      steps := call + rest;
      RunAppend(s, call, rest);
    }
  }

  /** With one free place, `n` idle producers can all pass the fullness test and claim. */
  lemma {:induction false} ClaimAll(s: State, n: nat) returns (steps: seq<Step>)
    requires InRange(s) && AllIdle(s) && n <= |s.prods| && s.size < s.cap
    ensures var s' := Run(s, steps);
            && s'.size == s.size && !s'.closed
            && (forall i :: 0 <= i < n ==> s'.prods[i].PWrite?)
            && (forall i :: n <= i < |s'.prods| ==> s'.prods[i] == PIdle)
    decreases n
  {
    if n == 0 {
      steps := [];
    } else {
      var before := ClaimAll(s, n - 1);
      var s' := Run(s, before);
      steps := before + Claim(n - 1, 0);
      RunAppend(s, before, Claim(n - 1, 0));
      ClaimRun(s', n - 1, 0);
    }
  }

  /** Claims in flight all end up in `size`. */
  lemma {:induction false} FinishAll(s: State, n: nat) returns (steps: seq<Step>)
    requires InRange(s) && n <= |s.prods| && forall i :: 0 <= i < n ==> s.prods[i].PWrite?
    ensures Run(s, steps).size == s.size + n
    decreases n
  {
    if n == 0 {
      steps := [];
    } else {
      FinishRun(s, n - 1);
      var rest := FinishAll(Run(s, Finish(n - 1)), n - 1);
      steps := Finish(n - 1) + rest;
      RunAppend(s, Finish(n - 1), rest);
    }
  }

  /** The bound of CountersExact is reached, for every capacity and every number of producers. */
  lemma {:induction false} BoundReached(cap: nat, producers: nat, consumers: nat) returns (steps: seq<Step>)
    requires cap > 0 && producers > 0
    ensures Run(Init(cap, producers, consumers), steps).size == cap + producers - 1
  {
    var s := Init(cap, producers, consumers);
    var fill := Fill(s, cap - 1);
    var full := Run(s, fill);
    var claims := ClaimAll(full, producers);
    var late := Run(full, claims);
    var adds := FinishAll(late, producers);
    steps := fill + (claims + adds);
    RunAppend(s, fill, claims + adds);
    RunAppend(full, claims, adds);
  }

  /** The queue respects its capacity under every schedule exactly when at most one thread
      enqueues. */
  lemma {:induction false} CapacityExact(cap: nat, producers: nat, consumers: nat)
    requires cap > 0
    ensures (forall steps :: Run(Init(cap, producers, consumers), steps).size <= cap) <==> producers <= 1
  {
    if producers <= 1 {
      forall steps ensures Run(Init(cap, producers, consumers), steps).size <= cap {
        CountersExact(cap, producers, consumers, steps);
      }
    } else {
      var steps := BoundReached(cap, producers, consumers);
    }
  }

  // ----- Size: non-negative for at most one consumer -----

  predicate NonNegative(s: State) {
    && |s.cons| <= 1
    && s.size >= 0
    && (|s.cons| == 1 && (s.cons[0].CRead? || s.cons[0].CSwap? || Taking(s.cons[0]) == 1) ==> s.size >= 1)
  }

  lemma {:induction false} NonNegativeRun(s: State, steps: seq<Step>)
    requires InRange(s) && NonNegative(s)
    ensures NonNegative(Run(s, steps))
    decreases |steps|
  {
    if steps != [] {
      NonNegativeRun(Apply(s, steps[0]), steps[1..]);
    }
  }

  /** Two consumers share one item: the second is handed a cleared slot, and `size` drops
      below zero. */
  lemma {:induction false} TwoConsumers(cap: nat, producers: nat, consumers: nat)
    returns (first: seq<Step>, last: seq<Step>)
    requires cap > 0 && producers > 0 && consumers > 1
    ensures Run(Init(cap, producers, consumers), first).returned == [Cleared]
    ensures Run(Init(cap, producers, consumers), first + last).size == -1
  {
    var s0 := Init(cap, producers, consumers);
    var put, get := Claim(0, 7) + Finish(0), Take(1) + [Consume(1)];
    EnqueueRun(s0, 0, 7);
    var s1 := Run(s0, put);
    TakeRun(s1, 0);
    var s2 := Run(s1, Take(0));
    DequeueRun(s2, 1);
    var s3 := Run(s2, get);
    SubRun(s3, 0);
    first, last := put + (Take(0) + get), [Consume(0)];
    RunAppend(s0, put, Take(0) + get);
    RunAppend(s1, Take(0), get);
    RunAppend(s0, first, last);
  }

  /** `size` stays non-negative under every schedule exactly when at most one thread dequeues. */
  lemma {:induction false} NonNegativeExact(cap: nat, producers: nat, consumers: nat)
    requires cap > 0 && producers > 0
    ensures (forall steps :: Run(Init(cap, producers, consumers), steps).size >= 0) <==> consumers <= 1
  {
    if consumers <= 1 {
      forall steps ensures Run(Init(cap, producers, consumers), steps).size >= 0 {
        NonNegativeRun(Init(cap, producers, consumers), steps);
      }
    } else {
      var first, last := TwoConsumers(cap, producers, consumers);
    }
  }

  // ----- Order: FIFO exactly for one producer and one consumer -----

  /** Two producers and room for two: the consumer overtakes the slower one and is handed a slot
      that was claimed but never written. */
  lemma {:induction false} OvertakenProducer(cap: nat, producers: nat, consumers: nat) returns (steps: seq<Step>)
    requires cap > 1 && producers > 1 && consumers > 0
    ensures Run(Init(cap, producers, consumers), steps).returned == [Cleared]
  {
    var s0 := Init(cap, producers, consumers);
    ClaimRun(s0, 0, 7);
    var s1 := Run(s0, Claim(0, 7));
    ClaimRun(s1, 1, 8);
    var s2 := Run(s1, Claim(1, 8));
    FinishRun(s2, 1);
    var s3 := Run(s2, Finish(1));
    DequeueRun(s3, 0);
    var get := Take(0) + [Consume(0)];
    steps := Claim(0, 7) + (Claim(1, 8) + (Finish(1) + get));
    RunAppend(s0, Claim(0, 7), Claim(1, 8) + (Finish(1) + get));
    RunAppend(s1, Claim(1, 8), Finish(1) + get);
    RunAppend(s2, Finish(1), get);
  }

  /** Two producers and room for one: both claim the only slot, */
  lemma {:induction false} BothClaim(producers: nat, consumers: nat) returns (steps: seq<Step>)
    requires producers > 1
    ensures var s0 := Init(1, producers, consumers);
            var s := Run(s0, steps);
            && s.prods[0] == PWrite(7, 0) && s.prods[1] == PWrite(8, 0)
            && s.head == 0 && s.size == 0 && s.cons == s0.cons && s.returned == []
  {
    var s0 := Init(1, producers, consumers);
    ClaimRun(s0, 0, 7);
    var s1 := Run(s0, Claim(0, 7));
    ClaimRun(s1, 1, 8);
    steps := Claim(0, 7) + Claim(1, 8);
    RunAppend(s0, Claim(0, 7), Claim(1, 8));
  }

  /** and both write it. */
  lemma {:induction false} BothWrite(producers: nat, consumers: nat) returns (steps: seq<Step>)
    requires producers > 1 && consumers > 0
    ensures var s := Run(Init(1, producers, consumers), steps);
            && s.size == 2 && s.data[s.head] == Holding(8) && s.cons[0] == CIdle && s.returned == []
  {
    var s0 := Init(1, producers, consumers);
    var claims := BothClaim(producers, consumers);
    var s1 := Run(s0, claims);
    FinishRun(s1, 0);
    FinishRun(Run(s1, Finish(0)), 1);
    steps := claims + (Finish(0) + Finish(1));
    RunAppend(s0, claims, Finish(0) + Finish(1));
    RunAppend(s1, Finish(0), Finish(1));
  }

  /** A consumer takes twice from the only slot. */
  lemma {:induction false} TakeTwice(s: State) returns (steps: seq<Step>)
    requires InRange(s) && s.cap == 1 && s.cons != [] && s.cons[0] == CIdle && s.size == 2
    ensures Run(s, steps).returned == s.returned + [s.data[s.head], Cleared]
  {
    var get := Take(0) + [Consume(0)];
    DequeueRun(s, 0);
    DequeueRun(Run(s, get), 0);
    RunAppend(s, get, get);
    steps := get + get;
  }

  /** So the item written first is lost, and the second Dequeue is handed the cleared slot. */
  lemma {:induction false} OverwrittenSlot(producers: nat, consumers: nat) returns (steps: seq<Step>)
    requires producers > 1 && consumers > 0
    ensures Run(Init(1, producers, consumers), steps).returned == [Holding(8), Cleared]
  {
    var puts := BothWrite(producers, consumers);
    var gets := TakeTwice(Run(Init(1, producers, consumers), puts));
    RunAppend(Init(1, producers, consumers), puts, gets);
    steps := puts + gets;
  }

  /** FIFO order holds under every schedule exactly for one producer and one consumer. */
  lemma {:induction false} FifoExact(cap: nat, producers: nat, consumers: nat)
    requires cap > 0 && producers > 0 && consumers > 0
    ensures (forall steps :: NonBlockingFifo.Fifo(Run(Init(cap, producers, consumers), steps)))
            <==> producers == 1 && consumers == 1
  {
    if producers == 1 && consumers == 1 {
      forall steps ensures NonBlockingFifo.Fifo(Run(Init(cap, producers, consumers), steps)) {
        NonBlockingFifo.SingleProducerSingleConsumer(cap, steps);
      }
    } else if consumers > 1 {
      var first, last := TwoConsumers(cap, producers, consumers);
      var s := Run(Init(cap, producers, consumers), first);
      assert s.returned[0] == Cleared;
      assert !NonBlockingFifo.Fifo(s);
    } else if cap > 1 {
      var steps := OvertakenProducer(cap, producers, consumers);
      var s := Run(Init(cap, producers, consumers), steps);
      assert s.returned[0] == Cleared;
      assert !NonBlockingFifo.Fifo(s);
    } else {
      var steps := OverwrittenSlot(producers, consumers);
      var s := Run(Init(cap, producers, consumers), steps);
      assert s.returned[1] == Cleared;
      assert !NonBlockingFifo.Fifo(s);
    }
  }
}
