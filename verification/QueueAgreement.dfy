/** The two queues are interchangeable for one thread at a time, up to 32-bit capacities. */
module QueueAgreement {
  import opened QueueSpec
  import opened BlockingQueues
  import opened NonBlockingQueues

  method RunBlocking<T>(capacity: nat, zero: T, ops: seq<Op<T>>) returns (answers: seq<Response<T>>)
    ensures answers == DoAll(New<T>(if capacity == 0 then Unbounded else AtMost(capacity), capacity), ops).1
  {
    var q := new BlockingQueue<T>(capacity, zero);
    ghost var start := q.Model();
    answers := [];
    for i := 0 to |ops|
      invariant q.Valid() && fresh(q) && fresh(q.data)
      invariant (q.Model(), answers) == DoAll(start, ops[..i])
    {
      assert ops[..i + 1][..i] == ops[..i];
      var answer := q.Perform(ops[i]);
      answers := answers + [answer];
    }
    assert ops[..|ops|] == ops;
  }

  /** The most items stored at any point of a history. */
  function Peak<T>(q: Queue<T>, ops: seq<Op<T>>): nat
    decreases |ops|
  {
    if ops == [] then |q.items| else PeakAfter(Peak(q, ops[..|ops| - 1]), DoAll(q, ops).0)
  }

  /** Somewhere in the history the non-blocking queue is asked to enqueue after its array has grown
      out of 32 bits. */
  predicate Outgrown<T>(q: Queue<T>, ops: seq<Op<T>>)
    decreases |ops|
  {
    ops != [] &&
      var n := |ops| - 1;
      Outgrown(q, ops[..n]) || Panicking(DoAll(q, ops[..n]).0, Peak(q, ops[..n]), ops[n])
  }

  lemma {:induction false} OutgrownStays<T>(q: Queue<T>, ops: seq<Op<T>>, n: nat)
    requires n <= |ops| && Outgrown(q, ops[..n])
    ensures Outgrown(q, ops)
    decreases |ops| - n
  {
    if n < |ops| {
      assert ops[..n + 1][..n] == ops[..n];
      OutgrownStays(q, ops, n + 1);
    } else {
      assert ops[..n] == ops;
    }
  }

  /** One more operation. */
  lemma {:induction false} HistoryNext<T>(q: Queue<T>, ops: seq<Op<T>>, i: nat)
    requires i < |ops|
    ensures var (before, answers) := DoAll(q, ops[..i]);
            && DoAll(q, ops[..i + 1]) == (Do(before, ops[i]).0, answers + [Do(before, ops[i]).1])
            && Peak(q, ops[..i + 1]) == PeakAfter(Peak(q, ops[..i]), Do(before, ops[i]).0)
            && (Outgrown(q, ops[..i + 1]) <==>
                  Outgrown(q, ops[..i]) || Panicking(before, Peak(q, ops[..i]), ops[i]))
  {
    assert ops[..i + 1][..i] == ops[..i];
  }

  /** The answers up to and including a panic. */
  method RunNonBlocking<T>(capacity: nat, zero: T, ops: seq<Op<T>>) returns (answers: seq<Response<T>>)
    ensures var q := New<T>(EffectiveLimit(capacity), capacity);
            && (!Outgrown(q, ops) ==> answers == DoAll(q, ops).1)
            && (Outgrown(q, ops) ==> answers != [] && answers[|answers| - 1] == Panics)
  {
    var q := new NonBlockingQueue<T>(capacity, zero);
    ghost var start := q.Model();
    answers := [];
    for i := 0 to |ops|
      invariant q.Valid() && fresh(q) && fresh(q.data)
      invariant q.Model() == DoAll(start, ops[..i]).0 && answers == DoAll(start, ops[..i]).1
      invariant q.peak == Peak(start, ops[..i]) && !Outgrown(start, ops[..i])
    {
      HistoryNext(start, ops, i);
      NoPanics(q.Model(), ops[i]);
      var answer := q.Perform(ops[i]);
      answers := answers + [answer];
      if answer == Panics {
        OutgrownStays(start, ops, i + 1);
        return;
      }
    }
    assert ops[..|ops|] == ops;
  }

  lemma {:induction false} NoPanics<T>(q: Queue<T>, op: Op<T>)
    ensures Do(q, op).1 != Panics
  {}

  lemma {:induction false} NeverPanics<T>(q: Queue<T>, ops: seq<Op<T>>)
    ensures Panics !in DoAll(q, ops).1
    decreases |ops|
  {
    if ops != [] {
      NeverPanics(q, ops[..|ops| - 1]);
      NoPanics(DoAll(q, ops[..|ops| - 1]).0, ops[|ops| - 1]);
    }
  }

  /** One history on a new queue of each kind, unbounded or of a capacity that fits in 32 bits: the
      answers are the same if and only if the history never outgrows the non-blocking queue. */
  method RunBoth<T>(capacity: nat, zero: T, ops: seq<Op<T>>)
    returns (blocking: seq<Response<T>>, nonBlocking: seq<Response<T>>)
    ensures blocking == DoAll(New<T>(if capacity == 0 then Unbounded else AtMost(capacity), capacity), ops).1
    ensures capacity <= MAX_INT32 ==>
              (blocking == nonBlocking <==> !Outgrown(New<T>(EffectiveLimit(capacity), capacity), ops))
    ensures 0 < capacity <= MAX_INT32 ==> blocking == nonBlocking
  {
    blocking := RunBlocking(capacity, zero, ops);
    nonBlocking := RunNonBlocking(capacity, zero, ops);
    ghost var q := New<T>(EffectiveLimit(capacity), capacity);
    NeverPanics(q, ops);
    if capacity > 0 {
      BoundedStays(capacity, ops);
    }
  }

  lemma {:induction false} BoundedStays<T>(capacity: nat, ops: seq<Op<T>>)
    requires capacity > 0
    ensures !Outgrown(New<T>(EffectiveLimit(capacity), capacity), ops)
    decreases |ops|
  {
    if ops != [] {
      BoundedStays(capacity, ops[..|ops| - 1]);
      Conservation<T>(EffectiveLimit(capacity), capacity, ops[..|ops| - 1]);
    }
  }

  /** Only a history that once stores more than 2^30 items outgrows the queue. */
  lemma {:induction false} OutgrownOnlyIfLarge<T>(q: Queue<T>, ops: seq<Op<T>>)
    requires forall i :: 0 <= i <= |ops| ==> |DoAll(q, ops[..i]).0.items| <= 0x4000_0000
    ensures Peak(q, ops) <= 0x4000_0000 && !Outgrown(q, ops)
    decreases |ops|
  {
    assert ops[..|ops|] == ops;
    if ops != [] {
      var n := |ops| - 1;
      assert forall i :: 0 <= i <= n ==> ops[..n][..i] == ops[..i];
      OutgrownOnlyIfLarge(q, ops[..n]);
    }
  }

  /** The peak is the most items stored at any point. */
  lemma {:induction false} PeakIsMost<T>(q: Queue<T>, ops: seq<Op<T>>, i: nat)
    requires i <= |ops|
    ensures |DoAll(q, ops[..i]).0.items| <= Peak(q, ops)
    decreases |ops|
  {
    if i < |ops| {
      assert ops[..|ops| - 1][..i] == ops[..i];
      PeakIsMost(q, ops[..|ops| - 1], i);
    } else {
      assert ops[..i] == ops;
    }
  }

  lemma {:induction false} PeakOfRepeat<T>(x: T, n: nat)
    ensures Peak(New<T>(Unbounded, 0), Repeat(x, n)) == n
    decreases n
  {
    FillsUp<T>(Unbounded, 0, x, n);
    if n > 0 {
      assert Repeat(x, n)[..n - 1] == Repeat(x, n - 1);
      PeakOfRepeat(x, n - 1);
    }
  }

  /** `n` items in, one out, and one more in: no more than `n` items are ever stored. */
  lemma {:induction false} OneOutOneIn<T>(x: T, n: nat) returns (ops: seq<Op<T>>)
    requires n > 0
    ensures Peak(New<T>(Unbounded, 0), ops) == n
    ensures n > 0x4000_0000 ==> Outgrown(New<T>(Unbounded, 0), ops)
  {
    var q, full := New<T>(Unbounded, 0), Repeat(x, n);
    FillsUp<T>(Unbounded, 0, x, n);
    PeakOfRepeat(x, n);
    var less := full + [Op<T>.TryDequeue];
    ops := less + [TryEnqueue(x)];
    assert less[..n] == full && ops[..n + 1] == less;
    assert Peak(q, less) == n && |DoAll(q, less).0.items| == n - 1;
  }

  /** For an unbounded queue: a bound on the items stored at any point keeps every history, however long,
      from outgrowing the non-blocking queue if and only if the bound is at most 2^30. */
  lemma {:induction false} OutgrownExact<T>(n: nat, x: T)
    ensures (forall ops: seq<Op<T>> :: Peak(New<T>(Unbounded, 0), ops) <= n ==> !Outgrown(New<T>(Unbounded, 0), ops))
            <==> n <= 0x4000_0000
  {
    var q := New<T>(Unbounded, 0);
    if n <= 0x4000_0000 {
      forall ops: seq<Op<T>> | Peak(q, ops) <= n ensures !Outgrown(q, ops) {
        forall i | 0 <= i <= |ops| ensures |DoAll(q, ops[..i]).0.items| <= 0x4000_0000 {
          PeakIsMost(q, ops, i);
        }
        OutgrownOnlyIfLarge(q, ops);
      }
    } else {
      var ops := OneOutOneIn(x, n);
      assert Outgrown(q, ops);
    }
  }

  /** A bounded queue of the two kinds answers every history alike exactly when its capacity
      fits in 32 bits, sign included. */
  lemma {:induction false} AgreementExact<T>(capacity: nat, x: T)
    requires capacity > 0
    ensures (forall ops: seq<Op<T>> ::
               DoAll(New<T>(AtMost(capacity), capacity), ops).1
               == DoAll(New<T>(EffectiveLimit(capacity), capacity), ops).1)
            <==> capacity <= MAX_INT32
  {
    SameLimit(capacity, EffectiveLimit(capacity).n, capacity, x);
  }
}
