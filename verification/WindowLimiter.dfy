/** The sliding-window limiter, under a clock that never runs backwards. */
module WindowLimiters {
  import opened Windows

  /** What Wait reports. */
  datatype WaitResult = Granted | BurstExceeded | WaitTimeout | LimitExceeded | Cancelled

  class WindowLimiter {
    const windowSize: int
    const maxRequests: nat
    const maxWaitTime: int
    var requests: seq<int>
    ghost var grants: seq<int>   // every time stamp recorded since the last Close
    ghost var clock: int         // the latest clock reading

    ghost predicate Valid()
      reads this
    {
      Tracks(grants, requests, windowSize, maxRequests, clock)
    }

    constructor (windowSize: int, maxRequests: nat, maxWaitTime: int, ghost start: int)
      ensures Valid() && grants == [] && clock == start
      ensures this.windowSize == windowSize && this.maxRequests == maxRequests
      ensures this.maxWaitTime == maxWaitTime
    {
      this.windowSize, this.maxRequests, this.maxWaitTime := windowSize, maxRequests, maxWaitTime;
      requests, grants, clock := [], [], start;
    }

    /** Drops the stamps that have left the window ending now. */
    method CleanupOldRequests(now: int)
      requires Valid() && clock <= now
      modifies this
      ensures Valid() && clock == now && grants == old(grants)
      ensures |requests| == InWindow(grants, windowSize, now)
    {
      var windowStart := now - windowSize;
      var i := 0;
      while i < |requests|
        invariant 0 <= i <= |requests|
        invariant forall k :: 0 <= k < i ==> requests[k] <= windowStart
      {
        if requests[i] > windowStart {
          break;
        }
        i := i + 1;
      }
      DropTracks(grants, requests, windowSize, maxRequests, clock, now, i);
      assert requests[0..] == requests;
      if i > 0 {
        requests := requests[i..];
      }
      clock := now;
      KeptInside(grants, requests, windowSize, maxRequests, now);
    }

    /** Granted exactly when fewer than `maxRequests` grants lie in the window ending at `now`;
        the grant is stamped with a second reading of the clock. */
    method Allow(now: int, stamp: int) returns (allowed: bool)
      requires Valid() && clock <= now <= stamp
      modifies this
      ensures Valid() && clock == if allowed then stamp else now
      ensures allowed <==> InWindow(old(grants), windowSize, now) < maxRequests
      ensures grants == if allowed then old(grants) + [stamp] else old(grants)
    {
      CleanupOldRequests(now);
      if |requests| >= maxRequests {
        return false;
      }
      GrantTracks(grants, requests, windowSize, maxRequests, now, stamp);
      requests := requests + [stamp];
      grants := grants + [stamp];
      clock := stamp;
      return true;
    }

    /** With no other grant in between, a later Allow succeeds exactly from `read + delay` on. */
    method Reserve(now: int, read: int) returns (delay: int, ok: bool)
      requires Valid() && clock <= now <= read
      modifies this
      ensures Valid() && clock == read && grants == old(grants)
      ensures ok && delay >= 0
      ensures maxRequests > 0 ==>
        forall t :: read <= t ==> (InWindow(grants, windowSize, t) < maxRequests <==> read + delay <= t)
      ensures maxRequests == 0 ==> delay == 0
    {
      CleanupOldRequests(now);
      TracksLater(grants, requests, windowSize, maxRequests, now, read);
      clock := read;
      delay := TimeToOldest(read);
      ok := true;
      if maxRequests > 0 {
        DelayExact(grants, requests, windowSize, maxRequests, read);
      }
    }

    /** The time until the oldest stamp leaves the window, if there are too many. */
    method TimeToOldest(read: int) returns (delay: int)
      ensures delay == Delay(requests, windowSize, maxRequests, read)
    {
      if |requests| < maxRequests {
        return 0;
      }
      if |requests| == 0 {
        return 0;
      }
      var oldest := requests[0];
      var waitTime := oldest + windowSize - read;
      if waitTime <= 0 {
        return 0;
      }
      return waitTime;
    }

    /** `wake` is the first time from `read` on at which one more grant fits. */
    ghost predicate FirstRoom(grants: seq<int>, read: int, wake: int) {
      && read <= wake && InWindow(grants, windowSize, wake) < maxRequests
      && forall t :: read <= t < wake ==> InWindow(grants, windowSize, t) >= maxRequests
    }

    /** Wait with nobody else using the limiter. The clock readings of the first Allow, of Reserve
        and of the last Allow are given; the timer fires `late` after the delay is over. */
    method Wait(now1: int, stamp1: int, now2: int, read: int, late: nat, stampLate: nat, cancelled: bool)
      returns (result: WaitResult)
      requires Valid() && clock <= now1 <= stamp1 && now1 <= now2 <= read
      modifies this
      ensures Valid()
      ensures result == LimitExceeded <==> maxRequests == 0 && !cancelled
      ensures result != BurstExceeded
      ensures result == Granted <==> |grants| == |old(grants)| + 1
      ensures if result == Granted then old(grants) <= grants else grants == old(grants)
      ensures result == WaitTimeout <==>
        && 0 < maxRequests <= InWindow(old(grants), windowSize, now1)
        && 0 < maxWaitTime && maxRequests <= InWindow(old(grants), windowSize, read + maxWaitTime)
      ensures result == Cancelled <==>
        && maxRequests <= InWindow(old(grants), windowSize, now1) && result != WaitTimeout && cancelled
      ensures InWindow(old(grants), windowSize, now1) < maxRequests ==> grants == old(grants) + [stamp1]
      ensures result == Granted && maxRequests <= InWindow(old(grants), windowSize, now1) ==>
        FirstRoom(old(grants), read, grants[|old(grants)|] - stampLate - late)
    {
      ghost var was := grants;
      var allowed := Allow(now1, stamp1);
      if allowed {
        return Granted;
      }
      var waitTime, ok := Reserve(now2, read);
      if !ok {
        return BurstExceeded;
      }
      assert maxRequests > 0 ==> FirstRoom(was, read, read + waitTime);
      assert maxRequests > 0 && maxWaitTime > 0 ==>
          (InWindow(was, windowSize, read + maxWaitTime) < maxRequests <==> waitTime <= maxWaitTime);
      if maxWaitTime > 0 && waitTime > maxWaitTime {
        return WaitTimeout;
      }
      if cancelled {
        return Cancelled;
      }
      result := AskAgain(read + waitTime + late, stampLate);
    }

    /** The last question, when the timer has fired. */
    method AskAgain(wake: int, stampLate: nat) returns (result: WaitResult)
      requires Valid() && clock <= wake
      modifies this
      ensures Valid()
      ensures result == (if InWindow(old(grants), windowSize, wake) < maxRequests then Granted else LimitExceeded)
      ensures grants == if result == Granted then old(grants) + [wake + stampLate] else old(grants)
    {
      var allowed := Allow(wake, wake + stampLate);
      return if allowed then Granted else LimitExceeded;
    }

    /** Close forgets every stamp: a new history begins. */
    method Close()
      requires Valid()
      modifies this
      ensures Valid() && grants == [] && clock == old(clock)
    {
      requests, grants := [], [];
    }
  }
}
