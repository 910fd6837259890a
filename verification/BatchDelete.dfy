/** Deleting from a slice by index: one at a time, a range, and a batch in descending order. */
module BatchDeletes {
  import opened Orders

  /** `s` without the positions in `d`, all removed at once. */
  function Without<T>(s: seq<T>, d: set<int>): seq<T> {
    if s == [] then []
    else
      var n := |s| - 1;
      Without(s[..n], d) + if n in d then [] else [s[n]]
  }

  function Entries(xs: seq<int>): set<int> { set x | x in xs }

  /** The positions of `d` that are below `length`. */
  function Hits(length: nat, d: set<int>): set<int> { set i | 0 <= i < length && i in d }

  predicate Descending(xs: seq<int>) {
    forall i, j :: 0 <= i < j < |xs| ==> xs[i] >= xs[j]
  }

  /** One deletion; an index out of range changes nothing. */
  function DeleteAt<T>(s: seq<T>, i: int): seq<T> {
    if 0 <= i < |s| then s[..i] + s[i + 1..] else s
  }

  /** The deletions of `xs`, one after the other. */
  function DeleteEach<T>(s: seq<T>, xs: seq<int>): seq<T> {
    if xs == [] then s else DeleteAt(DeleteEach(s, xs[..|xs| - 1]), xs[|xs| - 1])
  }

  // ----- Simultaneous removal -----

  /** A survivor keeps its value, and is preceded by exactly the survivors before it. */
  lemma {:induction false} SurvivorAt<T>(s: seq<T>, d: set<int>, j: nat)
    requires j < |s| && j !in d
    ensures |Without(s[..j], d)| < |Without(s, d)| && Without(s, d)[|Without(s[..j], d)|] == s[j]
  {
    var n := |s| - 1;
    if j == n {
      assert s[..n] == s[..j];
    } else {
      SurvivorAt(s[..n], d, j);
      assert s[..n][..j] == s[..j];
    }
  }

  /** Exactly the positions in range are removed. */
  lemma {:induction false} WithoutLength<T>(s: seq<T>, d: set<int>)
    ensures |s| - |Without(s, d)| == |Hits(|s|, d)|
  {
    if s != [] {
      var n := |s| - 1;
      WithoutLength(s[..n], d);
      assert Hits(|s|, d) == if n in d then Hits(n, d) + {n} else Hits(n, d);
    }
  }

  /** Positions past the end do not matter. */
  lemma {:induction false} WithoutBeyond<T>(s: seq<T>, d: set<int>, x: int)
    requires x < 0 || x >= |s|
    ensures Without(s, d + {x}) == Without(s, d)
  {
    if s != [] {
      WithoutBeyond(s[..|s| - 1], d, x);
    }
  }

  /** Below the removed positions nothing changes. */
  lemma {:induction false} WithoutBelow<T>(s: seq<T>, d: set<int>, m: nat)
    requires m <= |s| && forall x :: x in d ==> x >= m
    ensures s[..m] <= Without(s, d)
  {
    if |s| > m {
      WithoutBelow(s[..|s| - 1], d, m);
      assert s[..|s| - 1][..m] == s[..m];
    } else if s != [] {
      WithoutBelow(s[..|s| - 1], d, m - 1);
      WithoutSame(s[..|s| - 1], d);
      assert s[..|s| - 1][..m - 1] == s[..|s| - 1];
      assert s[..m] == s[..|s| - 1] + [s[|s| - 1]];
    }
  }

  lemma {:induction false} DeleteAtFront<T>(s: seq<T>, t: seq<T>, x: int)
    requires 0 <= x < |s|
    ensures DeleteAt(s + t, x) == DeleteAt(s, x) + t
  {
    var u := s[x + 1..] + t;
    assert s + t == s[..x + 1] + u;
    assert s[..x] + u == s[..x] + s[x + 1..] + t;
  }

  /** The last position, with nothing above it. */
  lemma {:induction false} WithoutLast<T>(s: seq<T>, d: set<int>)
    requires s != [] && forall y :: y in d ==> y >= |s|
    ensures Without(s, d) == s && Without(s, d + {|s| - 1}) == s[..|s| - 1]
  {
    var n := |s| - 1;
    WithoutBelow(s, d, |s|);
    WithoutSame(s, d);
    assert s[..|s|] == s;
    WithoutBelow(s[..n], d, n);
    WithoutSame(s[..n], d);
    assert s[..n][..n] == s[..n];
    WithoutBeyond(s[..n], d, n);
  }

  /** Removing one position below all the others is a deletion at that index. */
  lemma {:induction false} WithoutNext<T>(s: seq<T>, d: set<int>, x: int)
    requires 0 <= x < |s| && forall y :: y in d ==> y > x
    ensures x < |Without(s, d)| && Without(s, d + {x}) == DeleteAt(Without(s, d), x)
  {
    var n := |s| - 1;
    if n == x {
      WithoutLast(s, d);
    } else {
      WithoutNext(s[..n], d, x);
      DeleteAtFront(Without(s[..n], d), if n in d then [] else [s[n]], x);
    }
  }

  /** Above a removed position something survives exactly when the result reaches it. */
  lemma {:induction false} SurvivorAbove<T>(s: seq<T>, d: set<int>, x: int)
    requires 0 <= x < |s| && x in d && forall y :: y in d ==> y >= x
    ensures |Without(s, d)| >= x
    ensures |Without(s, d)| > x <==> exists j :: x < j < |s| && j !in d
  {
    var n := |s| - 1;
    if n == x {
      WithoutBelow(s[..n], d, n);
      WithoutSame(s[..n], d);
    } else {
      SurvivorAbove(s[..n], d, x);
    }
  }

  lemma {:induction false} WithoutSame<T>(s: seq<T>, d: set<int>)
    ensures |Without(s, d)| <= |s|
  {
    if s != [] {
      WithoutSame(s[..|s| - 1], d);
    }
  }

  // ----- One after the other, in descending order -----

  /** If `xs[i]` repeats the entry before it, nothing above it survives. */
  predicate Harmless(xs: seq<int>, i: nat, length: nat)
    requires i < |xs|
  {
    i > 0 && xs[i] == xs[i - 1] && 0 <= xs[i] < length ==> forall j :: xs[i] < j < length ==> j in xs[..i]
  }

  predicate AllHarmless(xs: seq<int>, length: nat) {
    forall i :: 0 <= i < |xs| ==> Harmless(xs, i, length)
  }

  /** The positions not yet reached hold what they held. */
  predicate Untouched<T(==)>(s: seq<T>, xs: seq<int>, cur: seq<T>) {
    xs != [] ==>
      var m := if xs[|xs| - 1] < 0 then 0 else if xs[|xs| - 1] > |s| then |s| else xs[|xs| - 1];
      s[..m] <= cur
  }

  lemma {:induction false} EntriesNext(xs: seq<int>)
    requires xs != []
    ensures Entries(xs) == Entries(xs[..|xs| - 1]) + {xs[|xs| - 1]}
  {
    assert xs == xs[..|xs| - 1] + [xs[|xs| - 1]];
  }

  /** A deletion never touches what lies below it. */
  lemma {:induction false} DeletesAbove<T>(s: seq<T>, xs: seq<int>)
    requires Descending(xs)
    ensures Untouched(s, xs, DeleteEach(s, xs)) && |DeleteEach(s, xs)| <= |s|
  {
    if xs != [] {
      DeletesAbove(s, xs[..|xs| - 1]);
    }
  }

  /** The deletions remove at least what they should, and no more exactly when every repeated entry
      is harmless. */
  lemma {:induction false} DescendingExact<T>(s: seq<T>, xs: seq<int>)
    requires Descending(xs)
    ensures |DeleteEach(s, xs)| <= |Without(s, Entries(xs))|
    ensures |DeleteEach(s, xs)| == |Without(s, Entries(xs))| ==> DeleteEach(s, xs) == Without(s, Entries(xs))
    ensures |DeleteEach(s, xs)| == |Without(s, Entries(xs))| <==> AllHarmless(xs, |s|)
  {
    if xs == [] {
      WithoutNothing(s);
      assert Entries(xs) == {};
    } else {
      var rest := xs[..|xs| - 1];
      DescendingExact(s, rest);
      DeletesAbove(s, rest);
      EntriesNext(xs);
      HarmlessNext(xs, |s|);
      DescendingStep(s, xs);
    }
  }

  lemma {:induction false} WithoutNothing<T>(s: seq<T>)
    ensures Without(s, {}) == s
  {
    if s != [] {
      WithoutNothing(s[..|s| - 1]);
    }
  }

  lemma {:induction false} HarmlessNext(xs: seq<int>, length: nat)
    requires xs != []
    ensures AllHarmless(xs, length) <==> AllHarmless(xs[..|xs| - 1], length) && Harmless(xs, |xs| - 1, length)
  {
    var rest := xs[..|xs| - 1];
    forall i | 0 <= i < |rest| ensures Harmless(rest, i, length) <==> Harmless(xs, i, length) {
      assert rest[..i] == xs[..i];
    }
  }

  /** One more deletion, by whether its index is out of range, new, or repeated. */
  lemma {:induction false} DescendingStep<T>(s: seq<T>, xs: seq<int>)
    requires xs != [] && Descending(xs)
    requires var rest := xs[..|xs| - 1]; var cur := DeleteEach(s, rest);
             && |cur| <= |Without(s, Entries(rest))|
             && (|cur| == |Without(s, Entries(rest))| ==> cur == Without(s, Entries(rest)))
             && Untouched(s, rest, cur) && |cur| <= |s|
    ensures var rest := xs[..|xs| - 1];
            var cur, cur' := DeleteEach(s, rest), DeleteEach(s, xs);
            var goal, goal' := Without(s, Entries(rest)), Without(s, Entries(rest) + {xs[|xs| - 1]});
            && |cur'| <= |goal'|
            && (|cur'| == |goal'| ==> cur' == goal')
            && (|cur'| == |goal'| <==> |cur| == |goal| && Harmless(xs, |xs| - 1, |s|))
  {
    var rest, x := xs[..|xs| - 1], xs[|xs| - 1];
    var cur, d := DeleteEach(s, rest), Entries(rest);
    if x < 0 || x >= |s| {
      WithoutBeyond(s, d, x);
    } else if x in d {
      assert rest[|rest| - 1] == x by {
        var k :| 0 <= k < |rest| && rest[k] == x;
      }
      assert d + {x} == d;
      SurvivorAbove(s, d, x);
      assert forall j :: j in d <==> j in rest;
    } else {
      WithoutNext(s, d, x);
      assert rest != [] ==> x < rest[|rest| - 1];
      assert x < |cur|;
    }
  }

  // ----- The indices as they are given -----

  /** An index given twice loses a survivor, unless everything above it goes anyway. */
  predicate Lossless(indices: seq<int>, length: nat) {
    forall v :: v in indices && multiset(indices)[v] >= 2 && 0 <= v < length ==>
      forall j :: v < j < length ==> j in indices
  }

  /** `v` stands side by side with itself. */
  ghost predicate Doubled(xs: seq<int>, v: int) {
    exists i :: 0 < i < |xs| && xs[i] == xs[i - 1] == v
  }

  lemma {:induction false} DoubledNext(xs: seq<int>, v: int)
    requires |xs| > 1
    ensures Doubled(xs, v) <==> Doubled(xs[..|xs| - 1], v) || xs[|xs| - 1] == xs[|xs| - 2] == v
  {
    var rest := xs[..|xs| - 1];
    if Doubled(rest, v) {
      var i :| 0 < i < |rest| && rest[i] == rest[i - 1] == v;
      assert xs[i] == xs[i - 1] == v;
    }
    if Doubled(xs, v) {
      var i :| 0 < i < |xs| && xs[i] == xs[i - 1] == v;
      assert i < |rest| ==> rest[i] == rest[i - 1] == v;
    }
  }

  /** In descending order, what occurs twice stands side by side. */
  lemma {:induction false} Neighbours(xs: seq<int>, v: int)
    requires Descending(xs)
    ensures multiset(xs)[v] >= 2 <==> Doubled(xs, v)
  {
    if |xs| > 1 {
      var n := |xs| - 1;
      var rest := xs[..n];
      Neighbours(rest, v);
      DoubledNext(xs, v);
      assert xs == rest + [xs[n]];
      assert multiset(xs)[v] == multiset(rest)[v] + if xs[n] == v then 1 else 0;
      if xs[n] == v && v in multiset(rest) {
        var k :| 0 <= k < n && rest[k] == v;
        assert xs[n] <= xs[n - 1] <= xs[k];
      }
    } else if |xs| == 1 {
      assert xs == [xs[0]];
    }
  }

  lemma {:induction false} SameEntries(xs: seq<int>, ys: seq<int>)
    requires multiset(xs) == multiset(ys)
    ensures Entries(xs) == Entries(ys) && forall v :: v in xs <==> v in ys
  {
    forall v ensures v in xs <==> v in ys {
      assert v in xs <==> v in multiset(xs);
      assert v in ys <==> v in multiset(ys);
    }
  }

  lemma {:induction false} HarmlessMeansLossless(xs: seq<int>, indices: seq<int>, length: nat)
    requires Descending(xs) && multiset(xs) == multiset(indices) && AllHarmless(xs, length)
    ensures Lossless(indices, length)
  {
    SameEntries(xs, indices);
    forall v | v in indices && multiset(indices)[v] >= 2 && 0 <= v < length
      ensures forall j :: v < j < length ==> j in indices
    {
      Neighbours(xs, v);
      var i :| 0 < i < |xs| && xs[i] == xs[i - 1] == v;
      assert Harmless(xs, i, length);
      forall j | v < j < length ensures j in indices {
        assert j in xs[..i];
      }
    }
  }

  lemma {:induction false} LosslessMeansHarmless(xs: seq<int>, indices: seq<int>, length: nat)
    requires Descending(xs) && multiset(xs) == multiset(indices) && Lossless(indices, length)
    ensures AllHarmless(xs, length)
  {
    SameEntries(xs, indices);
    forall i: nat | i < |xs| ensures Harmless(xs, i, length) {
      if i > 0 && xs[i] == xs[i - 1] && 0 <= xs[i] < length {
        Neighbours(xs, xs[i]);
        forall j | xs[i] < j < length ensures j in xs[..i] {
          assert j in indices && j in xs;
          var k :| 0 <= k < |xs| && xs[k] == j;
          assert xs[..i][k] == j;
        }
      }
    }
  }

  /** How many entries of `indices` are in range, each occurrence counted. */
  function InRange(indices: seq<int>, length: nat): nat {
    if indices == [] then 0
    else (if 0 <= indices[0] < length then 1 else 0) + InRange(indices[1..], length)
  }

  predicate Distinct(indices: seq<int>) {
    forall a, b :: 0 <= a < b < |indices| ==> indices[a] != indices[b]
  }

  lemma {:induction false} DistinctOnce(indices: seq<int>)
    requires Distinct(indices)
    ensures forall v :: multiset(indices)[v] <= 1
  {
    if indices != [] {
      var x, rest := indices[0], indices[1..];
      assert indices == [x] + rest;
      DistinctOnce(rest);
      assert x !in multiset(rest) by {
        assert x !in rest;
      }
    }
  }

  lemma {:induction false} HitsNext(length: nat, d: set<int>, x: int)
    requires x !in d
    ensures |Hits(length, {x} + d)| == |Hits(length, d)| + if 0 <= x < length then 1 else 0
  {
    assert Hits(length, {x} + d) == if 0 <= x < length then Hits(length, d) + {x} else Hits(length, d);
  }

  lemma {:induction false} DistinctCount(indices: seq<int>, length: nat)
    requires Distinct(indices)
    ensures InRange(indices, length) == |Hits(length, Entries(indices))|
  {
    if indices != [] {
      var x, rest := indices[0], indices[1..];
      DistinctCount(rest, length);
      assert Entries(indices) == {x} + Entries(rest) by {
        assert indices == [x] + rest;
      }
      HitsNext(length, Entries(rest), x);
    }
  }

  /** The positions from `start` up to `end`. */
  function Interval(start: nat, end: nat): set<int> {
    if start >= end then {} else Interval(start, end - 1) + {end - 1}
  }

  lemma {:induction false} IntervalHolds(start: nat, end: nat)
    ensures forall i :: i in Interval(start, end) <==> start <= i < end
  {
    if start < end {
      IntervalHolds(start, end - 1);
    }
  }

  /** A range is removed position by position. */
  lemma {:induction false} RangeIsWithout<T>(s: seq<T>, start: nat, end: nat)
    requires start <= end <= |s|
    ensures Without(s, Interval(start, end)) == s[..start] + s[end..]
  {
    IntervalHolds(start, end);
    var n := |s| - 1;
    if |s| > end {
      RangeIsWithout(s[..n], start, end);
      assert s[end..] == s[..n][end..] + [s[n]];
    } else if start < end {
      WithoutBeyond(s[..n], Interval(start, n), n);
      RangeIsWithout(s[..n], start, n);
    } else {
      WithoutNothing(s);
    }
  }

  class SafeSlice<T(==)> {
    var items: seq<T>

    constructor (items: seq<T>)
      ensures this.items == items
    {
      this.items := items;
    }

    method Delete(index: int) returns (ok: bool)
      modifies this
      ensures ok == (0 <= index < |old(items)|) && items == Without(old(items), {index})
    {
      WithoutNothing(items);
      assert {} + {index} == {index};
      if index < 0 || index >= |items| {
        WithoutBeyond(items, {}, index);
        return false;
      }
      WithoutNext(items, {}, index);
      items := items[..index] + items[index + 1..];
      ok := true;
    }

    method DeleteRange(start: int, end: int) returns (ok: bool)
      modifies this
      ensures ok == (0 <= start <= end <= |old(items)|)
      ensures items == if ok then Without(old(items), Interval(start, end)) else old(items)
    {
      if start < 0 || end > |items| || start > end {
        return false;
      }
      RangeIsWithout(items, start, end);
      items := items[..start] + items[end..];
      ok := true;
    }

    /** The result is that of removing all positions at once, for distinct indices and in fact
        exactly when the indices are lossless. */
    method BatchDelete(indices: seq<int>) returns (count: nat, all: bool)
      modifies this
      ensures items == Without(old(items), Entries(indices)) <==> Lossless(indices, |old(items)|)
      ensures count == |old(items)| - |items| && all == (count == |indices|)
      ensures Distinct(indices) ==>
                items == Without(old(items), Entries(indices)) && count == InRange(indices, |old(items)|)
    {
      ghost var was := items;
      if indices == [] {
        WithoutNothing(was);
        assert Entries(indices) == {};
        return 0, true;
      }
      var sorted := SortSlice((a: int, b: int) => a > b, indices);
      count := 0;
      for i := 0 to |sorted|
        invariant items == DeleteEach(was, sorted[..i]) && count == |was| - |items|
      {
        assert sorted[..i + 1][..i] == sorted[..i];
        var idx := sorted[i];
        if idx >= 0 && idx < |items| {
          items := items[..idx] + items[idx + 1..];
          count := count + 1;
        }
      }
      all := count == |indices|;
      assert sorted[..|sorted|] == sorted;
      BatchIsWithout(was, sorted, indices);
    }
  }

  /** What the loop leaves, by the indices as they are given. */
  lemma {:induction false} BatchIsWithout<T>(s: seq<T>, sorted: seq<int>, indices: seq<int>)
    requires Descending(sorted) && multiset(sorted) == multiset(indices)
    ensures DeleteEach(s, sorted) == Without(s, Entries(indices)) <==> Lossless(indices, |s|)
    ensures Distinct(indices) ==>
              DeleteEach(s, sorted) == Without(s, Entries(indices))
              && |s| - |DeleteEach(s, sorted)| == InRange(indices, |s|)
  {
    SameEntries(sorted, indices);
    DescendingExact(s, sorted);
    if AllHarmless(sorted, |s|) {
      HarmlessMeansLossless(sorted, indices, |s|);
    }
    if Lossless(indices, |s|) {
      LosslessMeansHarmless(sorted, indices, |s|);
    }
    if Distinct(indices) {
      DistinctOnce(indices);
      DistinctCount(indices, |s|);
      WithoutLength(s, Entries(indices));
    }
  }
}
