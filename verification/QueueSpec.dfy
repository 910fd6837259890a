/** What both queues promise, called from one thread at a time. */
module QueueSpec {

  datatype Error = QueueClosed | QueueFull | QueueEmpty

  /** How many items a queue may hold. */
  datatype Limit = Unbounded | AtMost(n: nat)

  /** The items, oldest first, and the statistics; `cleared` counts the items Clear threw away. */
  datatype Queue<T> = Queue(limit: Limit, capacity: nat, items: seq<T>, closed: bool,
                            enqueued: nat, dequeued: nat, rejected: nat, cleared: nat)

  datatype Op<T> = TryEnqueue(item: T) | TryDequeue | Peek | Size | Clear | Close | Stats

  datatype Response<T> =
    | Done
    | Item(item: T)
    | Fail(error: Error)
    | Count(n: nat)
    | StatsAre(capacity: nat, size: nat, enqueued: nat, dequeued: nat, rejected: nat)
    | Panics

  function New<T>(limit: Limit, capacity: nat): Queue<T> {
    Queue(limit, capacity, [], false, 0, 0, 0, 0)
  }

  predicate IsFull<T>(q: Queue<T>) {
    q.limit.AtMost? && |q.items| >= q.limit.n
  }

  /** The queue and the answer after one operation. */
  function Do<T>(q: Queue<T>, op: Op<T>): (Queue<T>, Response<T>) {
    match op
    case TryEnqueue(x) =>
      if q.closed then (q.(rejected := q.rejected + 1), Fail(QueueClosed))
      else if IsFull(q) then (q.(rejected := q.rejected + 1), Fail(QueueFull))
      else (q.(items := q.items + [x], enqueued := q.enqueued + 1), Done)
    case TryDequeue =>
      if q.items == [] then (q, Fail(if q.closed then QueueClosed else QueueEmpty))
      else (q.(items := q.items[1..], dequeued := q.dequeued + 1), Item(q.items[0]))
    case Peek =>
      if q.items == [] then (q, Fail(if q.closed then QueueClosed else QueueEmpty))
      else (q, Item(q.items[0]))
    case Size => (q, Count(|q.items|))
    case Clear => (q.(items := [], cleared := q.cleared + |q.items|), Done)
    case Close => (q.(closed := true), Done)
    case Stats => (q, StatsAre(q.capacity, |q.items|, q.enqueued, q.dequeued, q.rejected))
  }

  /** The queue and all the answers after a history. */
  function DoAll<T>(q: Queue<T>, ops: seq<Op<T>>): (r: (Queue<T>, seq<Response<T>>))
    ensures |r.1| == |ops|
    decreases |ops|
  {
    if ops == [] then (q, [])
    else
      var n := |ops| - 1;
      var (before, answers) := DoAll(q, ops[..n]);
      var (after, answer) := Do(before, ops[n]);
      (after, answers + [answer])
  }

  /** One more operation at the end of a history. */
  lemma {:induction false} DoAllAppend<T>(q: Queue<T>, ops: seq<Op<T>>, op: Op<T>)
    ensures var (before, answers) := DoAll(q, ops);
            DoAll(q, ops + [op]) == (Do(before, op).0, answers + [Do(before, op).1])
  {
    assert (ops + [op])[..|ops|] == ops;
  }

  /** Every item that got in was handed out, is still there, or was cleared; and the queue never
      holds more than its limit. */
  lemma {:induction false} Conservation<T>(limit: Limit, capacity: nat, ops: seq<Op<T>>)
    ensures var q := DoAll(New<T>(limit, capacity), ops).0;
            && q.enqueued == q.dequeued + |q.items| + q.cleared
            && q.enqueued + q.rejected <= |ops|
            && q.limit == limit
            && (limit.AtMost? ==> |q.items| <= limit.n)
    decreases |ops|
  {
    if ops != [] {
      Conservation(limit, capacity, ops[..|ops| - 1]);
    }
  }

  /** The items handed out by the answers to TryDequeue, in order. */
  function HandedOut<T>(ops: seq<Op<T>>, answers: seq<Response<T>>): seq<T>
    requires |ops| == |answers|
    decreases |ops|
  {
    if ops == [] then []
    else
      var n := |ops| - 1;
      HandedOut(ops[..n], answers[..n]) +
      (if ops[n].TryDequeue? && answers[n].Item? then [answers[n].item] else [])
  }

  /** The items whose TryEnqueue was answered with success, in order. */
  function LetIn<T>(ops: seq<Op<T>>, answers: seq<Response<T>>): seq<T>
    requires |ops| == |answers|
    decreases |ops|
  {
    if ops == [] then []
    else
      var n := |ops| - 1;
      LetIn(ops[..n], answers[..n]) +
      (if ops[n].TryEnqueue? && answers[n].Done? then [ops[n].item] else [])
  }

  lemma {:induction false} HistoryAppend<T>(ops: seq<Op<T>>, answers: seq<Response<T>>, op: Op<T>, answer: Response<T>)
    requires |ops| == |answers|
    ensures HandedOut(ops + [op], answers + [answer]) ==
            HandedOut(ops, answers) + (if op.TryDequeue? && answer.Item? then [answer.item] else [])
    ensures LetIn(ops + [op], answers + [answer]) ==
            LetIn(ops, answers) + (if op.TryEnqueue? && answer.Done? then [op.item] else [])
  {
    assert (ops + [op])[..|ops|] == ops && (answers + [answer])[..|ops|] == answers;
  }

  /** One operation other than Clear moves items from the front to the caller and from the caller
      to the back. */
  lemma {:induction false} DoKeepsOrder<T>(q: Queue<T>, op: Op<T>, before: seq<T>)
    requires !op.Clear?
    ensures var (q', answer) := Do(q, op);
            before + (if op.TryDequeue? && answer.Item? then [answer.item] else []) + q'.items
            == (before + q.items) + (if op.TryEnqueue? && answer.Done? then [op.item] else [])
  {
    if op.TryDequeue? && q.items != [] {
      assert [q.items[0]] + q.items[1..] == q.items;
    }
  }

  /** As long as nothing is cleared, the items handed out followed by the items still queued are
      exactly the items let in, in order. */
  lemma {:induction false} FirstInFirstOut<T>(limit: Limit, capacity: nat, ops: seq<Op<T>>)
    requires forall i :: 0 <= i < |ops| ==> !ops[i].Clear?
    ensures var (q, answers) := DoAll(New<T>(limit, capacity), ops);
            HandedOut(ops, answers) + q.items == LetIn(ops, answers)
    decreases |ops|
  {
    if ops != [] {
      var n := |ops| - 1;
      FirstInFirstOut(limit, capacity, ops[..n]);
      var (before, answers) := DoAll(New<T>(limit, capacity), ops[..n]);
      assert ops == ops[..n] + [ops[n]];
      HistoryAppend(ops[..n], answers, ops[n], Do(before, ops[n]).1);
      DoKeepsOrder(before, ops[n], HandedOut(ops[..n], answers));
    }
  }

  /** Without Clear, a closed queue can only lose its oldest item. */
  lemma {:induction false} ClosedHandsOutOldest<T>(q: Queue<T>, op: Op<T>)
    requires q.closed && !op.Clear?
    ensures var q' := Do(q, op).0;
            && q'.closed && q'.enqueued == q.enqueued
            && 0 <= q'.dequeued - q.dequeued <= |q.items|
            && q'.items == q.items[q'.dequeued - q.dequeued..]
  {
    assert q.items[0..] == q.items;
  }

  /** The answers of a closed queue: no item is let in any more. */
  lemma {:induction false} ClosedLetsNothingIn<T>(q: Queue<T>, ops: seq<Op<T>>)
    requires q.closed
    ensures var (q', answers) := DoAll(q, ops); q'.closed && LetIn(ops, answers) == []
    decreases |ops|
  {
    if ops != [] {
      var n := |ops| - 1;
      ClosedLetsNothingIn(q, ops[..n]);
      var (before, answers) := DoAll(q, ops[..n]);
      assert (answers + [Do(before, ops[n]).1])[..n] == answers;
    }
  }

  /** The items in the queue, as the answers tell: let in, and neither handed out nor cleared since. */
  function Outstanding<T>(ops: seq<Op<T>>, answers: seq<Response<T>>): seq<T>
    requires |ops| == |answers|
    decreases |ops|
  {
    if ops == [] then []
    else
      var n := |ops| - 1;
      var items := Outstanding(ops[..n], answers[..n]);
      if ops[n].Clear? then []
      else if ops[n].TryEnqueue? && answers[n].Done? then items + [ops[n].item]
      else if ops[n].TryDequeue? && answers[n].Item? && items != [] then items[1..]
      else items
  }

  /** How many items were refused. */
  function Refusals<T>(ops: seq<Op<T>>, answers: seq<Response<T>>): nat
    requires |ops| == |answers|
    decreases |ops|
  {
    if ops == [] then 0
    else
      var n := |ops| - 1;
      Refusals(ops[..n], answers[..n]) + if ops[n].TryEnqueue? && answers[n].Fail? then 1 else 0
  }

  ghost predicate ClosedBy<T>(ops: seq<Op<T>>) { exists i :: 0 <= i < |ops| && ops[i].Close? }

  /** The queue is what the history and its answers say. */
  ghost predicate Tells<T>(limit: Limit, capacity: nat, ops: seq<Op<T>>, answers: seq<Response<T>>, q: Queue<T>)
    requires |ops| == |answers|
  {
    && q.limit == limit && q.capacity == capacity
    && q.items == Outstanding(ops, answers) && q.closed == ClosedBy(ops)
    && q.enqueued == |LetIn(ops, answers)| && q.dequeued == |HandedOut(ops, answers)|
    && q.rejected == Refusals(ops, answers)
  }

  lemma {:induction false} TellsStep<T>(
    limit: Limit, capacity: nat, ops: seq<Op<T>>, answers: seq<Response<T>>, q: Queue<T>, op: Op<T>)
    requires |ops| == |answers| && Tells(limit, capacity, ops, answers, q)
    ensures var (q', answer) := Do(q, op); Tells(limit, capacity, ops + [op], answers + [answer], q')
  {
    var (q', answer) := Do(q, op);
    HistoryAppend(ops, answers, op, answer);
    assert (ops + [op])[..|ops|] == ops && (answers + [answer])[..|ops|] == answers;
    assert (ops + [op])[|ops|] == op;
    assert ClosedBy(ops) ==> ClosedBy(ops + [op]) by {
      if ClosedBy(ops) {
        var i :| 0 <= i < |ops| && ops[i].Close?;
        assert (ops + [op])[i].Close?;
      }
    }
  }

  lemma {:induction false} HistoryTells<T>(limit: Limit, capacity: nat, ops: seq<Op<T>>)
    ensures var (q, answers) := DoAll(New<T>(limit, capacity), ops); Tells(limit, capacity, ops, answers, q)
    decreases |ops|
  {
    if ops != [] {
      var n := |ops| - 1;
      HistoryTells(limit, capacity, ops[..n]);
      var (q, answers) := DoAll(New<T>(limit, capacity), ops[..n]);
      TellsStep(limit, capacity, ops[..n], answers, q, ops[n]);
      assert ops == ops[..n] + [ops[n]];
    }
  }

  /** What the next operation is answered depends on the history and its answers in this way, whatever was
      done before: an item is refused by a closed queue and by one that holds its limit, the oldest item
      outstanding is shown and handed out, Size and Stats count what the answers tell, and nothing is left
      outstanding by Clear. */
  lemma {:induction false} AnswersExact<T>(limit: Limit, capacity: nat, ops: seq<Op<T>>, op: Op<T>)
    ensures var answers := DoAll(New<T>(limit, capacity), ops).1;
            var (q', answers') := DoAll(New<T>(limit, capacity), ops + [op]);
            var items, closed, answer := Outstanding(ops, answers), ClosedBy(ops), answers'[|ops|];
            && (op.TryEnqueue? ==>
                  answer == if closed then Fail(QueueClosed)
                            else if limit.AtMost? && |items| >= limit.n then Fail(QueueFull) else Done)
            && (op.TryDequeue? || op.Peek? ==>
                  answer == if items != [] then Item(items[0]) else Fail(if closed then QueueClosed else QueueEmpty))
            && (op.Size? ==> answer == Count(|items|))
            && (op.Clear? || op.Close? ==> answer == Done)
            && (op.Stats? ==>
                  answer == StatsAre(capacity, |items|, |LetIn(ops, answers)|, |HandedOut(ops, answers)|,
                                     Refusals(ops, answers)))
            && q'.items == Outstanding(ops + [op], answers')
            && (op.Clear? ==> q'.items == [])
            && (op.Peek? || op.Size? || op.Stats? || op.Close? ==> q'.items == items)
  {
    HistoryTells(limit, capacity, ops);
    HistoryTells(limit, capacity, ops + [op]);
    DoAllAppend(New<T>(limit, capacity), ops, op);
  }

  function Repeat<T>(x: T, n: nat): seq<Op<T>> { seq(n, _ => TryEnqueue(x)) }

  /** Enqueueing up to the limit succeeds every time. */
  lemma {:induction false} FillsUp<T>(limit: Limit, capacity: nat, x: T, n: nat)
    requires limit.AtMost? ==> n <= limit.n
    ensures var q := DoAll(New<T>(limit, capacity), Repeat(x, n)).0;
            |q.items| == n && !q.closed && q.limit == limit
    decreases n
  {
    if n > 0 {
      assert Repeat(x, n)[..n - 1] == Repeat(x, n - 1);
      FillsUp(limit, capacity, x, n - 1);
    }
  }

  /** Two queues answer every history alike exactly when they have the same limit. */
  lemma {:induction false} SameLimit<T>(a: nat, b: nat, capacity: nat, x: T)
    ensures (forall ops: seq<Op<T>> ::
               DoAll(New<T>(AtMost(a), capacity), ops).1 == DoAll(New<T>(AtMost(b), capacity), ops).1)
            <==> a == b
  {
    if a != b {
      var n := if a < b then a else b;
      FillsUp(AtMost(a), capacity, x, n);
      FillsUp(AtMost(b), capacity, x, n);
      var ops := Repeat(x, n + 1);
      assert ops[..n] == Repeat(x, n);
      var ra, rb := DoAll(New<T>(AtMost(a), capacity), ops).1, DoAll(New<T>(AtMost(b), capacity), ops).1;
      assert ra[n] != rb[n];
      assert DoAll(New<T>(AtMost(a), capacity), ops).1 != DoAll(New<T>(AtMost(b), capacity), ops).1;
    }
  }
}
