/** The priority queue of waiting tasks: a binary heap in a slice, highest priority first. */
module TaskHeaps {
  import opened Basics

  datatype Task = Task(id: int, priority: int)

  function Parent(i: nat): nat
    requires i > 0
  {
    (i - 1) / 2
  }

  /** Task `i` does not come before its parent. */
  predicate Edge(s: seq<Task>, i: nat)
    requires 0 < i < |s|
  {
    s[Parent(i)].priority >= s[i].priority
  }

  /** The first `n` tasks form a heap. */
  predicate Heap(s: seq<Task>, n: nat)
    requires n <= |s|
  {
    forall i :: 0 < i < n ==> Edge(s, i)
  }

  /** The first `n` tasks form a heap but for the edges that touch `hole`. */
  predicate HeapBut(s: seq<Task>, n: nat, hole: nat)
    requires n <= |s|
  {
    && (forall i :: 0 < i < n && i != hole && Parent(i) != hole ==> Edge(s, i))
    && (forall i :: 0 < i < n && Parent(i) == hole && hole > 0 ==> s[Parent(hole)].priority >= s[i].priority)
  }

  /** The children of `hole` do not come before it. */
  predicate ChildrenFit(s: seq<Task>, n: nat, hole: nat)
    requires n <= |s|
  {
    forall i :: 0 < i < n && Parent(i) == hole ==> Edge(s, i)
  }

  function Swapped(s: seq<Task>, i: nat, j: nat): (r: seq<Task>)
    requires i < |s| && j < |s|
    ensures |r| == |s|
  {
    s[i := s[j]][j := s[i]]
  }

  lemma {:induction false} SwapKeepsTasks(s: seq<Task>, i: nat, j: nat)
    requires i < |s| && j < |s|
    ensures multiset(Swapped(s, i, j)) == multiset(s)
  {
    assert s[..] == s;
  }

  lemma {:induction false} SwapKeepsRest(s: seq<Task>, i: nat, j: nat, n: nat)
    requires i < n <= |s| && j < n
    ensures Swapped(s, i, j)[n..] == s[n..]
  {}

  /** A heap is its tasks in order, whatever follows them. */
  lemma {:induction false} HeapPrefix(s: seq<Task>, t: seq<Task>, n: nat)
    requires n <= |s| && n <= |t| && s[..n] == t[..n] && Heap(s, n)
    ensures Heap(t, n)
  {
    forall i | 0 < i < n ensures Edge(t, i) {
      assert Edge(s, i);
      assert s[..n][i] == t[..n][i] && s[..n][Parent(i)] == t[..n][Parent(i)];
    }
  }

  /** A task added at the end of a heap is a hole without children. */
  lemma {:induction false} AppendHole(s: seq<Task>, task: Task)
    requires Heap(s, |s|)
    ensures HeapBut(s + [task], |s| + 1, |s|) && ChildrenFit(s + [task], |s| + 1, |s|)
  {
    assert (s + [task])[..|s|] == s[..|s|];
    HeapPrefix(s, s + [task], |s|);
  }

  /** A hole whose edges all fit is no hole. */
  lemma {:induction false} CloseHole(s: seq<Task>, n: nat, hole: nat)
    requires hole < n <= |s| && HeapBut(s, n, hole) && ChildrenFit(s, n, hole)
    requires hole > 0 ==> Edge(s, hole)
    ensures Heap(s, n)
  {}

  /** The children of `i` are `2i + 1` and `2i + 2`. */
  lemma {:induction false} ChildrenFitBy(s: seq<Task>, n: nat, i: nat)
    requires n <= |s| && i < |s|
    requires 2 * i + 1 < n ==> s[i].priority >= s[2 * i + 1].priority
    requires 2 * i + 2 < n ==> s[i].priority >= s[2 * i + 2].priority
    ensures ChildrenFit(s, n, i)
  {}

  /** The larger of the two is the largest child. */
  lemma {:induction false} LargestChild(s: seq<Task>, n: nat, i: nat, j: nat)
    requires n <= |s| && i < |s| && 2 * i + 1 < n && (j == 2 * i + 1 || (j == 2 * i + 2 && j < n))
    requires s[j].priority >= s[2 * i + 1].priority
    requires 2 * i + 2 < n ==> s[j].priority >= s[2 * i + 2].priority
    ensures Parent(j) == i
    ensures forall k :: 0 < k < n && Parent(k) == i ==> s[j].priority >= s[k].priority
  {}

  /** One step up: the hole moves to the parent. */
  lemma {:induction false} StepUp(s: seq<Task>, n: nat, j: nat)
    requires 0 < j < n <= |s| && HeapBut(s, n, j) && ChildrenFit(s, n, j) && !Edge(s, j)
    ensures var p := Parent(j); HeapBut(Swapped(s, p, j), n, p) && ChildrenFit(Swapped(s, p, j), n, p)
  {
    var p := Parent(j);
    var t := Swapped(s, p, j);
    assert p > 0 ==> Edge(s, p);
    forall i | 0 < i < n && i != p && Parent(i) != p ensures Edge(t, i) {
      if Parent(i) == j {
        assert s[p].priority >= s[i].priority;
      } else {
        assert Edge(s, i);
      }
    }
    forall i | 0 < i < n && Parent(i) == p
      ensures Edge(t, i) && (p > 0 ==> t[Parent(p)].priority >= t[i].priority)
    {
      if i != j {
        assert Edge(s, i);
      }
    }
  }

  /** One step down: the hole moves to its larger child. */
  lemma {:induction false} StepDown(s: seq<Task>, n: nat, i: nat, j: nat)
    requires 0 < j < n <= |s| && Parent(j) == i && HeapBut(s, n, i) && !Edge(s, j)
    requires forall k :: 0 < k < n && Parent(k) == i ==> s[j].priority >= s[k].priority
    ensures HeapBut(Swapped(s, i, j), n, j) && Edge(Swapped(s, i, j), j)
  {
    var t := Swapped(s, i, j);
    forall k | 0 < k < n && k != j && Parent(k) != j ensures Edge(t, k) {
      if Parent(k) != i && k != i {
        assert Edge(s, k);
      }
    }
    forall k | 0 < k < n && Parent(k) == j ensures t[Parent(j)].priority >= t[k].priority {
      assert Edge(s, k);
    }
  }

  /** The root of a heap has the highest priority. */
  lemma {:induction false} RootIsHighest(s: seq<Task>, n: nat, i: nat)
    requires i < n <= |s| && Heap(s, n)
    ensures s[0].priority >= s[i].priority
    decreases i
  {
    if i > 0 {
      RootIsHighest(s, n, Parent(i));
      assert Edge(s, i);
    }
  }

  predicate NonIncreasing(s: seq<Task>) {
    forall i, j :: 0 <= i < j < |s| ==> s[i].priority >= s[j].priority
  }

  class PriorityQueue {
    var items: seq<Task>

    predicate Valid()
      reads this
    {
      Heap(items, |items|)
    }

    constructor ()
      ensures Valid() && items == []
    {
      items := [];
    }

    /** Higher priority first. */
    predicate Less(i: nat, j: nat)
      requires i < |items| && j < |items|
      reads this
    {
      items[i].priority > items[j].priority
    }

    method Swap(i: nat, j: nat)
      requires i < |items| && j < |items|
      modifies this
      ensures items == Swapped(old(items), i, j) && multiset(items) == multiset(old(items))
    {
      SwapKeepsTasks(items, i, j);
      items := items[i := items[j]][j := items[i]];
    }

    /** Sift up. */
    method Up(start: nat, ghost n: nat)
      requires start < n <= |items| && HeapBut(items, n, start) && ChildrenFit(items, n, start)
      modifies this
      ensures |items| == |old(items)| && multiset(items) == multiset(old(items))
      ensures Heap(items, n) && items[n..] == old(items)[n..]
    {
      var j: nat := start;
      while true
        invariant j < n <= |items| == |old(items)|
        invariant HeapBut(items, n, j) && ChildrenFit(items, n, j)
        invariant multiset(items) == multiset(old(items)) && items[n..] == old(items)[n..]
        decreases j
      {
        var i: nat := if j == 0 then 0 else (j - 1) / 2;
        if i == j || !Less(j, i) {
          CloseHole(items, n, j);
          break;
        }
        StepUp(items, n, j);
        SwapKeepsRest(items, i, j, n);
        Swap(i, j);
        j := i;
      }
    }

    /** The child of `i` that comes first. */
    method FirstChild(i: nat, n: nat) returns (j: nat)
      requires 2 * i + 1 < n <= |items|
      ensures 0 < j < n && Parent(j) == i
      ensures forall k :: 0 < k < n && Parent(k) == i ==> items[j].priority >= items[k].priority
    {
      var left := 2 * i + 1;
      j := left;
      var right := left + 1;
      if right < n && Less(right, left) {
        j := right;
      }
      LargestChild(items, n, i, j);
    }

    /** One step of sifting down. */
    method Sink(i: nat, j: nat, n: nat)
      requires 0 < j < n <= |items| && Parent(j) == i && HeapBut(items, n, i) && !Edge(items, j)
      requires forall k :: 0 < k < n && Parent(k) == i ==> items[j].priority >= items[k].priority
      modifies this
      ensures |items| == |old(items)| && multiset(items) == multiset(old(items)) && items[n..] == old(items)[n..]
      ensures HeapBut(items, n, j) && Edge(items, j)
    {
      StepDown(items, n, i, j);
      SwapKeepsRest(items, i, j, n);
      Swap(i, j);
    }

    /** Sift down within the first `n` tasks; tells whether the task moved. */
    method Down(start: nat, n: nat) returns (moved: bool)
      requires start < |items| && n <= |items| && HeapBut(items, n, start)
      modifies this
      ensures |items| == |old(items)| && multiset(items) == multiset(old(items))
      ensures items[n..] == old(items)[n..]
      ensures !moved ==> items == old(items) && ChildrenFit(items, n, start)
      ensures moved || start == 0 ==> Heap(items, n)
    {
      var i: nat := start;
      while true
        invariant start <= i < |items| == |old(items)| && n <= |items|
        invariant HeapBut(items, n, i) && (i > start ==> i < n && Edge(items, i))
        invariant i == start ==> items == old(items)
        invariant multiset(items) == multiset(old(items)) && items[n..] == old(items)[n..]
        decreases |items| - i
      {
        var left := 2 * i + 1;
        if left >= n {
          ChildrenFitBy(items, n, i);
          break;
        }
        var j := FirstChild(i, n);
        if !Less(j, i) {
          break;
        }
        Sink(i, j, n);
        i := j;
      }
      if i < n && (i > start || start == 0) {
        CloseHole(items, n, i);
      }
      moved := i > start;
    }

    method Enqueue(task: Task)
      requires Valid()
      modifies this
      ensures Valid() && multiset(items) == multiset(old(items)) + multiset{task}
    {
      AppendHole(items, task);
      items := items + [task];
      Up(|items| - 1, |items|);
    }

    /** Removes and returns the last task of the slice. */
    method Pop() returns (task: Task)
      requires |items| > 0
      modifies this
      ensures old(items) == items + [task]
    {
      var n := |items|;
      task := items[n - 1];
      items := items[..n - 1];
    }

    /** Hands out exactly the task Peek shows, of the highest priority waiting. */
    method Dequeue() returns (task: Maybe<Task>)
      requires Valid()
      modifies this
      ensures Valid()
      ensures task.Nothing? <==> old(items) == []
      ensures task.Nothing? ==> items == []
      ensures task.Just? ==>
        && task.value == old(items)[0]
        && multiset(old(items)) == multiset(items) + multiset{task.value}
        && (forall t :: t in items ==> task.value.priority >= t.priority)
    {
      if |items| == 0 {
        return Nothing;
      }
      ghost var before := items;
      var n := |items| - 1;
      HoleAt(before, 0);
      Swap(0, n);
      var _ := Down(0, n);
      assert items[n] == items[n..][0] == before[0];
      ghost var sifted := items;
      var last := Pop();
      assert sifted[..n] == items[..n];
      HeapPrefix(sifted, items, n);
      forall t | t in items ensures last.priority >= t.priority {
        assert t in multiset(before);
        var k :| 0 <= k < |before| && before[k] == t;
        RootIsHighest(before, |before|, k);
      }
      return Just(last);
    }

    method Peek() returns (task: Maybe<Task>)
      requires Valid()
      ensures task == if items == [] then Nothing else Just(items[0])
      ensures task.Just? ==> forall t :: t in items ==> task.value.priority >= t.priority
    {
      if |items| == 0 {
        return Nothing;
      }
      forall t | t in items ensures items[0].priority >= t.priority {
        var k :| 0 <= k < |items| && items[k] == t;
        RootIsHighest(items, |items|, k);
      }
      return Just(items[0]);
    }

    /** container/heap's Remove at an arbitrary position. */
    method RemoveAt(i: nat)
      requires Valid() && i < |items|
      modifies this
      ensures Valid() && multiset(old(items)) == multiset(items) + multiset{old(items)[i]}
    {
      ghost var before := items;
      var n := |items| - 1;
      if n != i {
        Swap(i, n);
        HoleAt(before, i);
        var moved := Down(i, n);
        assert items[n] == items[n..][0] == before[i];
        if !moved {
          Up(i, n);
        }
        assert items[n] == items[n..][0] == before[i];
      }
      ghost var sifted := items;
      if n == i {
        assert Heap(before, |before|);
      }
      var last := Pop();
      assert sifted[..n] == items[..n];
      HeapPrefix(sifted, items, n);
    }

    /** Removes the first task with this id, wherever it is. */
    method Remove(id: int) returns (found: bool)
      requires Valid()
      modifies this
      ensures Valid()
      ensures found <==> exists t :: t in old(items) && t.id == id
      ensures !found ==> items == old(items)
      ensures found ==> exists k ::
        && 0 <= k < |old(items)| && old(items)[k].id == id
        && (forall j :: 0 <= j < k ==> old(items)[j].id != id)
        && multiset(old(items)) == multiset(items) + multiset{old(items)[k]}
    {
      for i := 0 to |items|
        invariant items == old(items) && forall k :: 0 <= k < i ==> items[k].id != id
      {
        if items[i].id == id {
          ghost var t := items[i];
          RemoveAt(i);
          assert t in old(items) && old(items)[i] == t;
          return true;
        }
      }
      return false;
    }

    /** Draining hands out every task once, in order of priority. */
    method Drain() returns (tasks: seq<Task>)
      requires Valid()
      modifies this
      ensures Valid() && items == []
      ensures multiset(tasks) == multiset(old(items)) && NonIncreasing(tasks)
    {
      tasks := [];
      while |items| > 0
        invariant Valid()
        invariant multiset(tasks) + multiset(items) == multiset(old(items))
        invariant NonIncreasing(tasks)
        invariant forall i, t :: 0 <= i < |tasks| && t in items ==> tasks[i].priority >= t.priority
        decreases |items|
      {
        ghost var before := items;
        var task := Dequeue();
        assert |multiset(before)| == |before|;
        assert task.value in multiset(before);
        assert forall t :: t in items ==> t in multiset(before);
        tasks := tasks + [task.value];
      }
    }
  }

  /** Putting any task at position `i` of a heap leaves a hole there that Down and Up can close. */
  lemma {:induction false} HoleAt(s: seq<Task>, i: nat)
    requires i < |s| && Heap(s, |s|)
    ensures HeapBut(Swapped(s, i, |s| - 1), |s| - 1, i)
  {
    var n := |s| - 1;
    var t := Swapped(s, i, n);
    forall k | 0 < k < n && k != i && Parent(k) != i ensures Edge(t, k) {
      assert Edge(s, k);
    }
    forall k | 0 < k < n && Parent(k) == i && i > 0 ensures t[Parent(i)].priority >= t[k].priority {
      assert Edge(s, k) && Edge(s, i);
    }
  }
}
