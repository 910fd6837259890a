/** The BlockingQueue, its non-waiting operations: a ring buffer under one lock. */
module BlockingQueues {
  import opened Counting
  import opened Rings
  import opened QueueSpec

  const DEFAULT_LENGTH := 16

  class BlockingQueue<T> {
    const capacity: nat   // 0 for an unbounded queue
    const zero: T
    var data: array<T>
    var head: nat
    var tail: nat
    var size: nat
    var closed: bool
    var enqueued: nat
    var dequeued: nat
    var rejected: nat
    var statsSize: nat
    ghost var cleared: nat

    function View(): Ring<T>
      reads this, data
    {
      Ring(data[..], head, tail, size)
    }

    ghost predicate Valid()
      reads this, data
    {
      && View().Valid() && View().Clean(zero)
      && (capacity > 0 ==> data.Length == capacity)
      && statsSize == size
    }

    /** The abstract queue. */
    ghost function Model(): Queue<T>
      requires Valid()
      reads this, data
    {
      Queue(if capacity == 0 then Unbounded else AtMost(capacity), capacity,
            View().Contents(), closed, enqueued, dequeued, rejected, cleared)
    }

    constructor (requested: int, zero: T)
      ensures Valid() && fresh(data)
      ensures capacity == if requested < 0 then 0 else requested
      ensures Model() == New(if capacity == 0 then Unbounded else AtMost(capacity), capacity)
    {
      this.capacity := if requested < 0 then 0 else requested;
      this.zero := zero;
      data := new T[if requested <= 0 then DEFAULT_LENGTH else requested](_ => zero);
      head, tail, size, closed := 0, 0, 0, false;
      enqueued, dequeued, rejected, statsSize, cleared := 0, 0, 0, 0, 0;
    }

    function IsFull(): bool
      reads this
    {
      if capacity <= 0 then size >= data.Length else size >= capacity
    }

    /** Doubles the array, copying the items in order to its front. */
    method Expand()
      requires Valid()
      modifies this`data, this`head, this`tail
      ensures fresh(data) && View() == old(View()).Expand(zero)
    {
      var newData := new T[2 * data.Length](_ => zero);
      ghost var items := View().Contents();
      for i := 0 to size
        invariant unchanged(this) && unchanged(data) && fresh(newData)
        invariant newData.Length == 2 * data.Length
        invariant newData[..] == items[..i] + seq(2 * data.Length - i, _ => zero)
      {
        SlotIsRemainder(View(), i);
        newData[i] := data[(head + i) % data.Length];
      }
      head, tail := 0, size;
      data := newData;
    }

    method TryEnqueue(item: T) returns (answer: Response<T>)
      requires Valid()
      modifies this, data
      ensures Valid() && (data == old(data) || fresh(data))
      ensures var grows := !old(closed) && capacity == 0 && old(size) == old(data.Length);
              data.Length == (if grows then 2 else 1) * old(data.Length)
      ensures (Model(), answer) == Do(old(Model()), Op.TryEnqueue(item))
    {
      if closed {
        rejected := rejected + 1;
        return Fail(QueueClosed);
      }
      if IsFull() && capacity > 0 {
        rejected := rejected + 1;
        return Fail(QueueFull);
      }
      if IsFull() && capacity == 0 {
        ExpandKeeps(View(), zero);
        Expand();
      }
      Append(item);
      answer := Done;
    }

    /** The part of an enqueue that follows the tests. */
    method Append(item: T)
      requires Valid() && size < data.Length
      modifies this, data
      ensures Valid() && data == old(data)
      ensures Model() == old(Model()).(items := old(Model()).items + [item], enqueued := old(enqueued) + 1)
    {
      PutAppends(View(), item, zero);
      AdvanceIsRemainder(tail, data.Length);
      ghost var ring := View().Put(item);
      data[tail] := item;
      tail := (tail + 1) % data.Length;
      size := size + 1;
      assert View() == ring;
      enqueued := enqueued + 1;
      statsSize := size;
    }

    method TryDequeue() returns (answer: Response<T>)
      requires Valid()
      modifies this, data
      ensures Valid() && data == old(data)
      ensures (Model(), answer) == Do(old(Model()), Op.TryDequeue)
    {
      if size == 0 {
        return Fail(if closed then QueueClosed else QueueEmpty);
      }
      TakeRemoves(View(), zero);
      AdvanceIsRemainder(head, data.Length);
      ghost var ring := View().Take(zero);
      answer := Item(data[head]);
      data[head] := zero;
      head := (head + 1) % data.Length;
      size := size - 1;
      assert View() == ring;
      dequeued := dequeued + 1;
      statsSize := size;
    }

    method Peek() returns (answer: Response<T>)
      requires Valid()
      ensures (Model(), answer) == Do(Model(), Op.Peek)
    {
      if size == 0 {
        return Fail(if closed then QueueClosed else QueueEmpty);
      }
      answer := Item(data[head]);
    }

    method Clear()
      requires Valid()
      modifies this, data
      ensures Valid() && data == old(data)
      ensures (Model(), Done) == Do(old(Model()), Op.Clear)
    {
      ghost var ring := View();
      for i := 0 to size
        invariant unchanged(this)
        invariant forall k :: 0 <= k < i || size <= k < data.Length ==> data[..][ring.Slot(k)] == zero
      {
        SlotIsRemainder(ring, i);
        data[(head + i) % data.Length] := zero;
      }
      LapCovers(ring, data[..], zero);
      cleared := cleared + size;
      head, tail, size := 0, 0, 0;
      statsSize := 0;
    }

    method Close()
      requires Valid()
      modifies this`closed
      ensures Valid() && (Model(), Done) == Do(old(Model()), Op.Close)
    {
      closed := true;
    }

    /** Runs one operation. */
    method Perform(op: Op<T>) returns (answer: Response<T>)
      requires Valid()
      modifies this, data
      ensures Valid() && (data == old(data) || fresh(data))
      ensures (Model(), answer) == Do(old(Model()), op)
    {
      match op {
        case TryEnqueue(item) => answer := TryEnqueue(item);
        case TryDequeue => answer := TryDequeue();
        case Peek => answer := Peek();
        case Size => answer := Count(size);
        case Clear => Clear(); answer := Done;
        case Close => Close(); answer := Done;
        case Stats => answer := StatsAre(capacity, statsSize, enqueued, dequeued, rejected);
      }
    }
  }
}
