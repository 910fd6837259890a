/** Sums over a sequence of threads, and the one fact about remainders the circular buffers need. */
module Counting {

  /** The total weight of the elements of `s`. */
  function Sum<T>(s: seq<T>, weight: T -> int): int {
    if s == [] then 0 else weight(s[0]) + Sum(s[1..], weight)
  }

  /** Replacing one element changes the sum by the difference of the two weights. */
  lemma {:induction false} SumUpdate<T>(s: seq<T>, i: nat, x: T, weight: T -> int)
    requires i < |s|
    ensures Sum(s[i := x], weight) == Sum(s, weight) - weight(s[i]) + weight(x)
  {
    if i == 0 {
      assert s[i := x][1..] == s[1..];
    } else {
      assert s[i := x][1..] == s[1..][i - 1 := x];
      SumUpdate(s[1..], i - 1, x, weight);
    }
  }

  /** One more element adds its weight. */
  lemma {:induction false} SumAppend<T>(s: seq<T>, x: T, weight: T -> int)
    ensures Sum(s + [x], weight) == Sum(s, weight) + weight(x)
  {
    if s == [] {
      assert [x][1..] == [];
    } else {
      assert (s + [x])[1..] == s[1..] + [x];
      SumAppend(s[1..], x, weight);
    }
  }

  /** A sum of weights between 0 and 1 lies between 0 and the number of elements, and leaves
      room for every element of weight 0. */
  lemma {:induction false} SumBounds<T>(s: seq<T>, weight: T -> int)
    requires forall i :: 0 <= i < |s| ==> 0 <= weight(s[i]) <= 1
    ensures 0 <= Sum(s, weight) <= |s|
    ensures forall i :: 0 <= i < |s| && weight(s[i]) == 0 ==> Sum(s, weight) < |s|
    ensures forall i :: 0 <= i < |s| && weight(s[i]) == 1 ==> Sum(s, weight) > 0
  {
    if s != [] {
      SumBounds(s[1..], weight);
      assert forall i :: 1 <= i < |s| ==> s[i] == s[1..][i - 1];
    }
  }

  /** No element weighs more than all together. */
  lemma {:induction false} SumPart<T>(s: seq<T>, i: nat, weight: T -> int)
    requires i < |s| && forall j :: 0 <= j < |s| ==> weight(s[j]) >= 0
    ensures 0 <= weight(s[i]) <= Sum(s, weight)
  {
    SumPositive(s[1..], weight);
    if i > 0 {
      SumPart(s[1..], i - 1, weight);
    }
  }

  lemma {:induction false} SumPositive<T>(s: seq<T>, weight: T -> int)
    requires forall j :: 0 <= j < |s| ==> weight(s[j]) >= 0
    ensures Sum(s, weight) >= 0
  {
    if s != [] {
      SumPositive(s[1..], weight);
    }
  }

  /** When no element becomes heavier, neither does the whole. */
  lemma {:induction false} SumFalls<T>(s: seq<T>, s': seq<T>, weight: T -> int)
    requires |s'| == |s| && forall i :: 0 <= i < |s| ==> weight(s'[i]) <= weight(s[i])
    ensures Sum(s', weight) <= Sum(s, weight)
  {
    if s != [] {
      assert forall i :: 0 <= i < |s[1..]| ==> s'[1..][i] == s'[i + 1] && s[1..][i] == s[i + 1];
      SumFalls(s[1..], s'[1..], weight);
    }
  }

  /** Two weights that differ by at most one. */
  lemma {:induction false} SumOneApart<T>(s: seq<T>, weight: T -> int, other: T -> int)
    requires forall i :: 0 <= i < |s| ==> weight(s[i]) <= other(s[i]) + 1
    ensures Sum(s, weight) <= Sum(s, other) + |s|
  {
    if s != [] {
      SumOneApart(s[1..], weight, other);
    }
  }

  /** Elements that all weigh nothing add up to nothing. */
  lemma {:induction false} SumZero<T>(s: seq<T>, weight: T -> int)
    requires forall i :: 0 <= i < |s| ==> weight(s[i]) == 0
    ensures Sum(s, weight) == 0
  {
    if s != [] {
      SumZero(s[1..], weight);
    }
  }

  /** A product with a factor of at least 1 is at least the other factor. */
  lemma MulAtLeast(n: nat, d: int)
    ensures d >= 1 ==> n * d >= n
    ensures d <= -1 ==> n * d <= 0 - n
  {}

  /** The remainder is the only number below `n` that differs from `k` by a multiple of `n`. */
  lemma ModUnique(k: int, n: nat, q: int, r: nat)
    requires n > 0 && k == n * q + r && r < n
    ensures k % n == r
  {
    var d := k / n - q;
    assert n * d == n * (k / n) - n * q;
    MulAtLeast(n, d);
  }

  /** Two positions less than one lap apart never share a slot. */
  lemma ModDistinct(j: nat, k: nat, n: nat)
    requires j < k < j + n
    ensures j % n != k % n
  {
    var d := k / n - j / n;
    MulAtLeast(n, d);
    assert n * d == n * (k / n) - n * (j / n);
    assert k - j == n * d + (k % n - j % n);
  }

  /** `(i + 1) % n` for an index below `n`, without the division. */
  function Advance(i: nat, n: nat): (j: nat)
    requires i < n
    ensures j < n
  {
    if i + 1 == n then 0 else i + 1
  }

  lemma AdvanceIsRemainder(i: nat, n: nat)
    requires i < n
    ensures Advance(i, n) == (i + 1) % n
  {
    if i + 1 == n {
      ModUnique(n, n, 1, 0);
    } else {
      ModUnique(i + 1, n, 0, i + 1);
    }
  }

  /** The slot after the slot of position `k` is the slot of position `k + 1`. */
  lemma AdvanceSlot(k: nat, n: nat)
    requires n > 0
    ensures Advance(k % n, n) == (k + 1) % n
  {
    var q, r := k / n, k % n;
    if r + 1 < n {
      ModUnique(k + 1, n, q, r + 1);
    } else {
      assert n * (q + 1) == n * q + n;
      ModUnique(k + 1, n, q + 1, 0);
    }
  }
}
