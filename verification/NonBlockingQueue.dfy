/** The NonBlockingQueue used by one thread at a time, with its 32-bit sizes and indices. */
module NonBlockingQueues {
  import opened Basics
  import opened Counting
  import opened Rings
  import opened QueueSpec

  const DEFAULT_LENGTH := 16
  const MAX_INT32 := 0x7fff_ffff

  // After this many doublings the array has 2^31 slots, and int32(len(data)) is negative.
  const LAST_DOUBLING := 27

  /** The length of the array of an unbounded queue after `k` doublings. */
  function Doubled(k: nat): nat { if k == 0 then DEFAULT_LENGTH else 2 * Doubled(k - 1) }

  lemma {:induction false} DoubledGrows(j: nat, k: nat)
    requires j <= k
    ensures Doubled(j) <= Doubled(k)
    decreases k
  {
    if j < k {
      DoubledGrows(j, k - 1);
    }
  }

  /** The lengths fit in 32 bits, sign included, up to the last doubling but one. */
  lemma {:induction false} DoubledFits(k: nat)
    requires k <= LAST_DOUBLING
    ensures DEFAULT_LENGTH <= Doubled(k) <= 0x8000_0000
    ensures k < LAST_DOUBLING ==> Doubled(k) <= 0x4000_0000
    ensures k == LAST_DOUBLING ==> Doubled(k) == 0x8000_0000
    ensures ToInt32(2 * Doubled(k)) == 0 <==> k == LAST_DOUBLING
    ensures k == LAST_DOUBLING ==> ToInt32(Doubled(k)) < 0
  {
    assert Doubled(9) == 0x2000;
    assert Doubled(18) == 0x40_0000;
    assert Doubled(26) == 0x4000_0000;
    DoubledGrows(0, k);
    DoubledGrows(k, LAST_DOUBLING);
    if k < LAST_DOUBLING {
      DoubledGrows(k, LAST_DOUBLING - 1);
    }
  }

  /** The conversion int32(n): the low 32 bits, read as a signed number. */
  function ToInt32(n: int): (r: int)
    ensures -0x8000_0000 <= r <= MAX_INT32
    ensures 0 <= n <= MAX_INT32 ==> r == n
  {
    var low := n % 0x1_0000_0000;
    if low <= MAX_INT32 then low else low - 0x1_0000_0000
  }

  /** How many items a queue of this capacity really holds. */
  function EffectiveLimit(capacity: nat): Limit {
    if capacity == 0 then Unbounded
    else if ToInt32(capacity) < 0 then AtMost(0)
    else AtMost(ToInt32(capacity))
  }

  /** A call that panics: an enqueue into an open unbounded queue that has once held more than 2^30
      items. */
  predicate Panicking<T>(q: Queue<T>, peak: nat, op: Op<T>) {
    op.TryEnqueue? && !q.closed && q.limit.Unbounded? && peak > 0x4000_0000
  }

  function PeakAfter<T>(peak: nat, q: Queue<T>): nat { Max(peak, |q.items|) }

  class NonBlockingQueue<T> {
    const capacity: nat   // 0 for an unbounded queue
    const zero: T
    var data: array<T>
    var head: nat
    var tail: nat
    var size: nat
    var closed: bool
    var enqueued: nat
    var dequeued: nat
    var rejected: nat
    ghost var cleared: nat
    ghost var doublings: nat
    /** The most items ever stored. */
    ghost var peak: nat

    /** int32(len(data)) where that is positive. Otherwise either no slot is ever used or, at 2^31
        slots, the remainders are those of the length itself. */
    function Length(): (n: nat)
      reads this
      ensures n <= data.Length
    {
      var n := ToInt32(data.Length);
      if 0 < n <= data.Length then n else data.Length
    }

    function View(): Ring<T>
      reads this, data
    {
      Ring(data[..Length()], head, tail, size)
    }

    /** The queue, if its peak were `p`. */
    ghost predicate Shaped(p: nat)
      reads this, data
    {
      && View().Valid() && View().Clean(zero) && size <= p
      && (capacity > 0 ==> data.Length == capacity && size <= EffectiveLimit(capacity).n)
      && (capacity == 0 ==>
            && doublings <= LAST_DOUBLING && data.Length == Doubled(doublings)
            && p <= data.Length && (doublings > 0 ==> data.Length < 2 * p))
    }

    ghost predicate Valid()
      reads this, data
    {
      Shaped(peak)
    }

    ghost function Model(): Queue<T>
      requires View().Valid()
      reads this, data
    {
      Queue(EffectiveLimit(capacity), capacity,
            View().Contents(), closed, enqueued, dequeued, rejected, cleared)
    }

    constructor (requested: int, zero: T)
      ensures Valid() && fresh(data)
      ensures capacity == if requested < 0 then 0 else requested
      ensures Model() == New(EffectiveLimit(capacity), capacity) && peak == 0
    {
      this.capacity := if requested < 0 then 0 else requested;
      this.zero := zero;
      data := new T[if requested <= 0 then DEFAULT_LENGTH else requested](_ => zero);
      head, tail, size, closed := 0, 0, 0, false;
      enqueued, dequeued, rejected, cleared, doublings, peak := 0, 0, 0, 0, 0, 0;
    }

    /** Doubles the array, copying the items in order to its front. */
    method Expand()
      requires Valid() && capacity == 0 && data.Length <= 0x4000_0000
      modifies this`data, this`head, this`tail
      ensures fresh(data) && Length() == data.Length == 2 * old(data.Length) && View() == old(View()).Expand(zero)
    {
      var newData := new T[2 * data.Length](_ => zero);
      assert data[..Length()] == data[..];
      ghost var items := View().Contents();
      for i := 0 to size
        invariant unchanged(this) && unchanged(data) && fresh(newData)
        invariant newData.Length == 2 * data.Length && |items| == size
        invariant forall k :: 0 <= k < i ==> newData[k] == items[k]
        invariant forall k :: i <= k < newData.Length ==> newData[k] == zero
      {
        SlotIsRemainder(View(), i);
        newData[i] := data[(head + i) % data.Length];
      }
      head, tail := 0, size;
      data := newData;
      assert data[..Length()] == data[..];
    }

    /** With no room left, the array grows. */
    method Grow()
      requires Valid() && capacity == 0 && doublings < LAST_DOUBLING && size == data.Length
      modifies this`data, this`head, this`tail, this`doublings
      ensures fresh(data) && size < Length()
      ensures Shaped(Max(peak, size + 1)) && Model() == old(Model())
    {
      DoubledFits(doublings);
      ExpandKeeps(View(), zero);
      Expand();
      doublings := doublings + 1;
    }

    method Reject()
      requires Valid()
      modifies this`rejected
      ensures Valid() && Model() == old(Model()).(rejected := old(rejected) + 1)
    {
      rejected := rejected + 1;
    }

    /** The growth of an unbounded queue before an enqueue. */
    method MakeRoom() returns (panics: bool)
      requires Valid() && capacity == 0
      modifies this`data, this`head, this`tail, this`doublings
      ensures data == old(data) || fresh(data)
      ensures panics <==> peak > 0x4000_0000
      ensures panics ==> Valid()
      ensures !panics ==> size < Length() && Shaped(Max(peak, size + 1)) && Model() == old(Model())
    {
      DoubledFits(doublings);
      panics := false;
      if size >= ToInt32(data.Length) {
        if ToInt32(2 * data.Length) == 0 {
          return true;
        }
        Grow();
      }
    }

    /** Growth to 2^32 slots makes int32(len(data)) zero, and the remainder by it panics. */
    method TryEnqueue(item: T) returns (answer: Response<T>)
      requires Valid()
      modifies this, data
      ensures Valid() && (data == old(data) || fresh(data))
      ensures Panicking(old(Model()), old(peak), Op.TryEnqueue(item)) ==> answer == Panics
      ensures !Panicking(old(Model()), old(peak), Op.TryEnqueue(item)) ==>
                && (Model(), answer) == Do(old(Model()), Op.TryEnqueue(item))
                && peak == PeakAfter(old(peak), Model())
    {
      if closed {
        Reject();
        return Fail(QueueClosed);
      }
      if capacity > 0 && size >= ToInt32(capacity) {
        Reject();
        return Fail(QueueFull);
      }
      var panics := Store(item);
      answer := if panics then Panics else Done;
    }

    /** The rest of an enqueue, once it is neither closed nor full. */
    method Store(item: T) returns (panics: bool)
      requires Valid() && (capacity > 0 ==> size < ToInt32(capacity))
      modifies this, data
      ensures Valid() && (data == old(data) || fresh(data)) && closed == old(closed)
      ensures panics <==> capacity == 0 && old(peak) > 0x4000_0000
      ensures !panics ==>
                && Model() == old(Model()).(items := old(Model()).items + [item], enqueued := old(enqueued) + 1)
                && peak == Max(old(peak), size) && size == old(size) + 1
    {
      panics := false;
      if capacity == 0 {
        panics := MakeRoom();
        if panics {
          return;
        }
      }
      Append(item);
    }

    /** The loop of an enqueue: with one thread its compare-and-swap succeeds at once. */
    method Append(item: T)
      requires Shaped(Max(peak, size + 1)) && size < Length()
      requires capacity > 0 ==> size < ToInt32(capacity)
      modifies this, data
      ensures Valid() && data == old(data) && peak == Max(old(peak), size) && size == old(size) + 1
      ensures Model() == old(Model()).(items := old(Model()).items + [item], enqueued := old(enqueued) + 1)
    {
      PutAppends(View(), item, zero);
      AdvanceIsRemainder(tail, Length());
      ghost var ring := View().Put(item);
      var claimed := tail;
      tail := (claimed + 1) % Length();
      data[claimed] := item;
      size := size + 1;
      peak := Max(peak, size);
      assert View() == ring;
      enqueued := enqueued + 1;
    }

    method TryDequeue() returns (answer: Response<T>)
      requires Valid()
      modifies this, data
      ensures Valid() && data == old(data) && peak == old(peak)
      ensures (Model(), answer) == Do(old(Model()), Op.TryDequeue)
    {
      if size == 0 {
        return Fail(if closed then QueueClosed else QueueEmpty);
      }
      TakeRemoves(View(), zero);
      AdvanceIsRemainder(head, Length());
      ghost var ring := View().Take(zero);
      var claimed := head;
      answer := Item(data[claimed]);
      head := (claimed + 1) % Length();
      data[claimed] := zero;
      size := size - 1;
      assert View() == ring;
      dequeued := dequeued + 1;
    }

    method Peek() returns (answer: Response<T>)
      requires Valid()
      ensures (Model(), answer) == Do(Model(), Op.Peek)
    {
      if size == 0 {
        return Fail(if closed then QueueClosed else QueueEmpty);
      }
      answer := Item(data[head]);
    }

    /** The loop of Clear. */
    method Wipe()
      requires Valid()
      modifies data
      ensures forall j :: 0 <= j < Length() ==> data[..Length()][j] == zero
    {
      ghost var ring := View();
      var n := Length();
      for i := 0 to size
        invariant unchanged(this)
        invariant forall k :: 0 <= k < i || size <= k < n ==> data[..n][ring.Slot(k)] == zero
      {
        SlotIsRemainder(ring, i);
        data[(head + i) % n] := zero;
      }
      LapCovers(ring, data[..n], zero);
    }

    method Clear()
      requires Valid()
      modifies this, data
      ensures Valid() && data == old(data) && peak == old(peak)
      ensures (Model(), Done) == Do(old(Model()), Op.Clear)
    {
      Wipe();
      cleared := cleared + size;
      head, tail, size := 0, 0, 0;
    }

    method Close()
      requires Valid()
      modifies this`closed
      ensures Valid() && (Model(), Done) == Do(old(Model()), Op.Close)
    {
      closed := true;
    }

    /** Runs one operation. */
    method Perform(op: Op<T>) returns (answer: Response<T>)
      requires Valid()
      modifies this, data
      ensures Valid() && (data == old(data) || fresh(data))
      ensures Panicking(old(Model()), old(peak), op) ==> answer == Panics
      ensures !Panicking(old(Model()), old(peak), op) ==>
                (Model(), answer) == Do(old(Model()), op) && peak == PeakAfter(old(peak), Model())
    {
      match op {
        case TryEnqueue(item) => answer := TryEnqueue(item);
        case TryDequeue => answer := TryDequeue();
        case Peek => answer := Peek();
        case Size => answer := Count(size);
        case Clear => Clear(); answer := Done;
        case Close => Close(); answer := Done;
        case Stats => answer := StatsAre(capacity, size, enqueued, dequeued, rejected);
      }
    }
  }
}
