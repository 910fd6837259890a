/** Counting the time stamps that fall into a window. Times are whole nanoseconds. */
module Windows {

  /** How many of the first `n` times lie in the half-open interval (lo, hi]. */
  function Count(times: seq<int>, n: nat, lo: int, hi: int): nat
    requires n <= |times|
  {
    if n == 0 then 0 else Count(times, n - 1, lo, hi) + if lo < times[n - 1] <= hi then 1 else 0
  }

  /** How many of all of them. */
  function Between(times: seq<int>, lo: int, hi: int): nat { Count(times, |times|, lo, hi) }

  predicate Before(times: seq<int>, i: nat, j: nat)
    requires i < |times| && j < |times|
  {
    times[i] <= times[j]
  }

  ghost predicate NonDecreasing(times: seq<int>) {
    forall i, j :: 0 <= i < j < |times| ==> Before(times, i, j)
  }

  /** The `count + 1` consecutive stamps that end with the one at `j`, if there are so many, span at least
      the window. */
  predicate SpreadAt(times: seq<int>, j: nat, window: int, count: nat)
    requires j < |times|
  {
    j >= count ==> times[j - count] + window <= times[j]
  }

  ghost predicate Spread(times: seq<int>, window: int, count: nat) {
    forall j :: 0 <= j < |times| ==> SpreadAt(times, j, window, count)
  }

  /** Stamps up to position `j` are at most that one, */
  lemma {:induction false} OrderedUpTo(times: seq<int>, j: nat)
    requires NonDecreasing(times) && j < |times|
    ensures forall i :: 0 <= i <= j ==> times[i] <= times[j]
  {
    forall i | 0 <= i < j ensures times[i] <= times[j] {
      assert Before(times, i, j);
    }
  }

  /** and those from position `i` on at least that one. */
  lemma {:induction false} OrderedFrom(times: seq<int>, i: nat)
    requires NonDecreasing(times) && i < |times|
    ensures forall j :: i <= j < |times| ==> times[i] <= times[j]
  {
    forall j | i < j < |times| ensures times[i] <= times[j] {
      assert Before(times, i, j);
    }
  }

  lemma {:induction false} CountSame(times: seq<int>, t: int, n: nat, lo: int, hi: int)
    requires n <= |times|
    ensures Count(times + [t], n, lo, hi) == Count(times, n, lo, hi)
  {
    if n > 0 {
      CountSame(times, t, n - 1, lo, hi);
    }
  }

  lemma {:induction false} BetweenAppend(times: seq<int>, t: int, lo: int, hi: int)
    ensures Between(times + [t], lo, hi) == Between(times, lo, hi) + (if lo < t <= hi then 1 else 0)
  {
    CountSame(times, t, |times|, lo, hi);
  }

  /** A longer window counts at least as many. */
  lemma {:induction false} CountGrows(times: seq<int>, n: nat, lo: int, lo': int, hi: int)
    requires n <= |times| && lo <= lo'
    ensures Count(times, n, lo', hi) <= Count(times, n, lo, hi)
  {
    if n > 0 {
      CountGrows(times, n - 1, lo, lo', hi);
    }
  }

  /** Stamps before the window do not count. */
  lemma {:induction false} CountTail(times: seq<int>, n: nat, k: nat, lo: int, hi: int)
    requires k <= n <= |times| && forall i :: 0 <= i < k ==> times[i] <= lo
    ensures Count(times, n, lo, hi) <= n - k
  {
    if n > k {
      CountTail(times, n - 1, k, lo, hi);
    } else if n > 0 {
      CountTail(times, n - 1, k - 1, lo, hi);
    }
  }

  /** Exactly the stamps from position `k` on count, when they are the ones inside. */
  lemma {:induction false} CountExact(times: seq<int>, n: nat, k: nat, lo: int, hi: int)
    requires k <= n <= |times|
    requires forall i :: 0 <= i < k ==> times[i] <= lo
    requires forall i :: k <= i < n ==> lo < times[i] <= hi
    ensures Count(times, n, lo, hi) == n - k
  {
    if n > k {
      CountExact(times, n - 1, k, lo, hi);
    } else if n > 0 {
      CountExact(times, n - 1, k - 1, lo, hi);
    }
  }

  lemma {:induction false} CountLater(times: seq<int>, n: nat, window: int, a: int, b: int)
    requires n <= |times| && a <= b && forall i :: 0 <= i < |times| ==> times[i] <= a
    ensures Count(times, n, b - window, b) <= Count(times, n, a - window, a)
  {
    if n > 0 {
      CountLater(times, n - 1, window, a, b);
    }
  }

  /** A later window holds no more of what came before the earlier one ended. */
  lemma {:induction false} LaterWindow(times: seq<int>, window: int, a: int, b: int)
    requires a <= b && forall i :: 0 <= i < |times| ==> times[i] <= a
    ensures InWindow(times, window, b) <= InWindow(times, window, a)
  {
    CountLater(times, |times|, window, a, b);
  }

  lemma {:induction false} CountEmpty(times: seq<int>, n: nat, lo: int, hi: int)
    requires n <= |times| && hi <= lo
    ensures Count(times, n, lo, hi) == 0
  {
    if n > 0 {
      CountEmpty(times, n - 1, lo, hi);
    }
  }

  lemma {:induction false} EmptyWindow(times: seq<int>, window: int, t: int)
    requires window <= 0
    ensures InWindow(times, window, t) == 0
  {
    CountEmpty(times, |times|, t - window, t);
  }

  /** Spread stamps never crowd a window, wherever it lies. */
  lemma {:induction false} SpreadBounds(times: seq<int>, n: nat, window: int, count: nat, lo: int)
    requires n <= |times| && NonDecreasing(times) && Spread(times, window, count)
    requires count == 0 ==> times == []
    ensures Count(times, n, lo, lo + window) <= count
  {
    if n > 0 {
      if !(lo < times[n - 1] <= lo + window) {
        SpreadBounds(times, n - 1, window, count, lo);
      } else if n > count {
        assert SpreadAt(times, n - 1, window, count);
        OrderedUpTo(times, n - 1 - count);
        CountTail(times, n, n - count, lo, lo + window);
      } else {
        CountTail(times, n, 0, lo, lo + window);
      }
    }
  }

  /** How many of the times lie in the window of the given length that ends at `t`. */
  function InWindow(times: seq<int>, window: int, t: int): nat {
    Between(times, t - window, t)
  }

  /** What a limiter keeps of its history: the stamps kept are the newest ones, no more than
      allowed; the ones dropped have left the window; and the whole history is spread out. */
  ghost predicate Tracks(grants: seq<int>, kept: seq<int>, window: int, count: nat, clock: int) {
    && NonDecreasing(grants) && (forall i :: 0 <= i < |grants| ==> grants[i] <= clock)
    && Spread(grants, window, count) && (count == 0 ==> grants == [])
    && |kept| <= count && |kept| <= |grants|
    && kept == grants[|grants| - |kept|..]
    && (forall i :: 0 <= i < |grants| - |kept| ==> grants[i] + window <= clock)
  }

  /** Time passes. */
  lemma {:induction false} TracksLater(
    grants: seq<int>, kept: seq<int>, window: int, count: nat, clock: int, later: int)
    requires Tracks(grants, kept, window, count, clock) && clock <= later
    ensures Tracks(grants, kept, window, count, later)
  {}

  /** Position by position: the stamps kept are the end of the history. */
  lemma {:induction false} KeptAt(grants: seq<int>, kept: seq<int>, k: nat)
    requires |kept| <= |grants| && kept == grants[|grants| - |kept|..] && k < |kept|
    ensures kept[k] == grants[|grants| - |kept| + k]
  {}

  /** Stamps that have left the window may be dropped. */
  lemma {:induction false} DropTracks(
    grants: seq<int>, kept: seq<int>, window: int, count: nat, clock: int, now: int, n: nat)
    requires Tracks(grants, kept, window, count, clock) && clock <= now && n <= |kept|
    requires forall k :: 0 <= k < n ==> kept[k] <= now - window
    ensures Tracks(grants, kept[n..], window, count, now)
  {
    var first := |grants| - |kept|;
    forall i | 0 <= i < first + n ensures grants[i] + window <= now {
      if i >= first { KeptAt(grants, kept, i - first); }
    }
    assert kept[n..] == grants[first + n..];
  }

  /** What is kept came no earlier than the oldest stamp kept. */
  lemma {:induction false} KeptLast(grants: seq<int>, kept: seq<int>, window: int, count: nat, clock: int)
    requires Tracks(grants, kept, window, count, clock)
    ensures forall i :: |grants| - |kept| <= i < |grants| ==> kept[0] <= grants[i]
  {
    if |kept| > 0 {
      KeptAt(grants, kept, 0);
      OrderedFrom(grants, |grants| - |kept|);
    }
  }

  /** When the oldest stamp kept is inside the window, the stamps kept are exactly those inside. */
  lemma {:induction false} KeptInside(grants: seq<int>, kept: seq<int>, window: int, count: nat, now: int)
    requires Tracks(grants, kept, window, count, now)
    requires |kept| > 0 ==> now - window < kept[0]
    ensures |kept| == InWindow(grants, window, now)
  {
    var first := |grants| - |kept|;
    KeptLast(grants, kept, window, count, now);
    CountExact(grants, |grants|, first, now - window, now);
  }

  /** Recording one more grant when fewer than `count` lie in the window keeps the history spread. */
  lemma {:induction false} GrantTracks(grants: seq<int>, kept: seq<int>, window: int, count: nat, now: int, stamp: int)
    requires Tracks(grants, kept, window, count, now) && now <= stamp && |kept| < count
    ensures Tracks(grants + [stamp], kept + [stamp], window, count, stamp)
  {
    var grants', n := grants + [stamp], |grants|;
    forall i, j | 0 <= i < j <= n ensures Before(grants', i, j) {
      if j < n {
        assert Before(grants, i, j);
      }
    }
    forall j | 0 <= j <= n ensures SpreadAt(grants', j, window, count) {
      if j < n {
        assert SpreadAt(grants, j, window, count);
      }
    }
  }

  /** Whether a grant fits at `t` is decided by the oldest stamp kept. */
  lemma {:induction false} AdmitsAt(grants: seq<int>, kept: seq<int>, window: int, count: nat, clock: int, t: int)
    requires Tracks(grants, kept, window, count, clock) && clock <= t
    ensures InWindow(grants, window, t) < count <==> |kept| < count || (|kept| > 0 && kept[0] + window <= t)
  {
    var first := |grants| - |kept|;
    if |kept| < count {
      CountTail(grants, |grants|, first, t - window, t);
    } else if |kept| > 0 && kept[0] + window <= t {
      KeptAt(grants, kept, 0);
      CountTail(grants, |grants|, first + 1, t - window, t);
    } else {
      KeptLast(grants, kept, window, count, clock);
      CountExact(grants, |grants|, first, t - window, t);
    }
  }

  /** How long after `read` the oldest of too many stamps leaves the window. */
  function Delay(kept: seq<int>, window: int, count: nat, read: int): (d: int)
    ensures d >= 0
  {
    if |kept| < count || kept == [] || kept[0] + window <= read then 0 else kept[0] + window - read
  }

  /** A grant fits at `t` exactly from the end of the delay on. */
  lemma {:induction false} DelayExact(grants: seq<int>, kept: seq<int>, window: int, count: nat, read: int)
    requires Tracks(grants, kept, window, count, read) && count > 0
    ensures forall t :: read <= t ==>
              (InWindow(grants, window, t) < count <==> read + Delay(kept, window, count, read) <= t)
  {
    forall t | read <= t
      ensures InWindow(grants, window, t) < count <==> read + Delay(kept, window, count, read) <= t
    {
      AdmitsAt(grants, kept, window, count, read, t);
    }
  }

  /** No window, wherever it ends, holds more than `count` grants. */
  lemma {:induction false} TracksBounds(grants: seq<int>, kept: seq<int>, window: int, count: nat, clock: int, t: int)
    requires Tracks(grants, kept, window, count, clock)
    ensures InWindow(grants, window, t) <= count
  {
    SpreadBounds(grants, |grants|, window, count, t - window);
  }
}
