/** The circular array under both queues, and the sequence it stands for. */
module Rings {
  import opened Counting

  datatype Ring<T> = Ring(data: seq<T>, head: nat, tail: nat, size: nat) {

    /** `(head + i) % |data|`, for a position inside the array or one lap on. */
    function Slot(i: nat): (j: nat)
      requires head < |data| && i <= |data|
      ensures j < |data|
    {
      if head + i < |data| then head + i else head + i - |data|
    }

    predicate Valid() {
      && head < |data|
      && size <= |data|
      && tail == Slot(size)
    }

    /** The queued items, oldest first. */
    function Contents(): (items: seq<T>)
      requires Valid()
      ensures |items| == size
    {
      seq(size, i requires 0 <= i < size => data[Slot(i)])
    }

    /** No slot outside the queue keeps an item alive. */
    ghost predicate Clean(zero: T)
      requires Valid()
    {
      forall i :: size <= i < |data| ==> data[Slot(i)] == zero
    }

    /** Write at the tail. */
    function Put(x: T): Ring<T>
      requires Valid() && size < |data|
    {
      Ring(data[tail := x], head, Advance(tail, |data|), size + 1)
    }

    /** Read at the head, leaving `zero` behind. */
    function Take(zero: T): Ring<T>
      requires Valid() && size > 0
    {
      Ring(data[head := zero], Advance(head, |data|), tail, size - 1)
    }

    /** Copy the items, in order, to the front of an array twice as long. */
    function Expand(zero: T): Ring<T>
      requires Valid()
    {
      Ring(Contents() + seq(2 * |data| - size, _ => zero), 0, size, size)
    }
  }

  lemma SlotIsRemainder<T>(r: Ring<T>, i: nat)
    requires r.head < |r.data| && i <= |r.data|
    ensures r.Slot(i) == (r.head + i) % |r.data|
  {
    if r.head + i < |r.data| {
      ModUnique(r.head + i, |r.data|, 0, r.head + i);
    } else {
      ModUnique(r.head + i, |r.data|, 1, r.head + i - |r.data|);
    }
  }

  /** The positions of one lap reach every slot. */
  lemma LapCovers<T>(r: Ring<T>, slots: seq<T>, zero: T)
    requires r.Valid() && |slots| == |r.data|
    requires forall k :: 0 <= k < |slots| ==> slots[r.Slot(k)] == zero
    ensures forall j :: 0 <= j < |slots| ==> slots[j] == zero
  {
    forall j | 0 <= j < |slots| ensures slots[j] == zero {
      var k := if r.head <= j then j - r.head else j + |slots| - r.head;
      assert j == r.Slot(k);
    }
  }

  /** Put appends, from any wrapped position. */
  lemma PutAppends<T>(r: Ring<T>, x: T, zero: T)
    requires r.Valid() && r.size < |r.data| && r.Clean(zero)
    ensures r.Put(x).Valid() && r.Put(x).Clean(zero)
    ensures r.Put(x).Contents() == r.Contents() + [x]
  {
    var r' := r.Put(x);
    assert forall i :: 0 <= i < r.size ==> r'.Contents()[i] == r.Contents()[i];
    forall i | r'.size <= i < |r.data| ensures r'.data[r'.Slot(i)] == zero {
      assert r'.Slot(i) == r.Slot(i) != r.tail;
    }
  }

  /** Take removes the oldest item, from any wrapped position. */
  lemma TakeRemoves<T>(r: Ring<T>, zero: T)
    requires r.Valid() && r.size > 0 && r.Clean(zero)
    ensures r.Take(zero).Valid() && r.Take(zero).Clean(zero)
    ensures r.Contents() == [r.data[r.head]] + r.Take(zero).Contents()
  {
    var r' := r.Take(zero);
    assert forall i :: 1 <= i < r.size ==> r'.Contents()[i - 1] == r.Contents()[i];
    forall i | r'.size <= i < |r.data| ensures r'.data[r'.Slot(i)] == zero {
      assert i + 1 < |r.data| ==> r'.Slot(i) == r.Slot(i + 1);
    }
  }

  /** Growing keeps every item and the order, and makes room. */
  lemma ExpandKeeps<T>(r: Ring<T>, zero: T)
    requires r.Valid()
    ensures r.Expand(zero).Valid() && r.Expand(zero).Clean(zero)
    ensures r.Expand(zero).Contents() == r.Contents()
    ensures r.size < |r.Expand(zero).data| == 2 * |r.data|
  {}
}
