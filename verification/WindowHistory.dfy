/** Whole histories of calls on a window limiter, Close among them. */
module WindowHistories {
  import opened Windows
  import opened WindowLimiters

  /** One call, with the time since the previous reading of the clock and the time between the two
      readings of the call. */
  datatype Call = Allow(pause: nat, between: nat) | Reserve(pause: nat, between: nat) | Close(pause: nat)

  /** Every grant, those since the latest Close, and the latest reading of the clock. */
  datatype Log = Log(all: seq<int>, since: seq<int>, clock: int)

  /** A call is granted by what the limiter remembers. */
  predicate Granted(windowSize: int, maxRequests: nat, log: Log, call: Call) {
    call.Allow? && InWindow(log.since, windowSize, log.clock + call.pause) < maxRequests
  }

  function Next(windowSize: int, maxRequests: nat, log: Log, call: Call): Log {
    match call
    case Allow(pause, between) =>
      var stamp := log.clock + pause + between;
      if Granted(windowSize, maxRequests, log, call) then Log(log.all + [stamp], log.since + [stamp], stamp)
      else log.(clock := stamp)
    case Reserve(pause, between) => log.(clock := log.clock + pause + between)
    case Close(pause) => Log(log.all, [], log.clock + pause)
  }

  function Play(windowSize: int, maxRequests: nat, start: int, calls: seq<Call>): Log
    decreases |calls|
  {
    if calls == [] then Log([], [], start)
    else
      var n := |calls| - 1;
      Next(windowSize, maxRequests, Play(windowSize, maxRequests, start, calls[..n]), calls[n])
  }

  lemma {:induction false} PlayNext(windowSize: int, maxRequests: nat, start: int, calls: seq<Call>, call: Call)
    ensures Play(windowSize, maxRequests, start, calls + [call])
            == Next(windowSize, maxRequests, Play(windowSize, maxRequests, start, calls), call)
  {
    assert (calls + [call])[..|calls|] == calls;
  }

  /** One call on the limiter, which remembers what the log says. */
  method Perform(limiter: WindowLimiter, call: Call, clock: int, times: seq<int>)
    returns (clock': int, times': seq<int>)
    requires limiter.Valid() && limiter.clock <= clock
    modifies limiter
    ensures limiter.Valid() && limiter.clock <= clock'
    ensures Log(times', limiter.grants, clock') ==
            Next(limiter.windowSize, limiter.maxRequests, Log(times, old(limiter.grants), clock), call)
  {
    var now := clock + call.pause;
    times' := times;
    match call {
      case Allow(_, between) =>
        clock' := now + between;
        var allowed := limiter.Allow(now, clock');
        if allowed {
          times' := times + [clock'];
        }
      case Reserve(_, between) =>
        clock' := now + between;
        var _, _ := limiter.Reserve(now, clock');
      case Close(_) =>
        clock' := now;
        limiter.Close();
    }
  }

  /** The limiter grants what the log says, over any history. */
  method Replay(windowSize: int, maxRequests: nat, start: int, calls: seq<Call>) returns (times: seq<int>)
    ensures times == Play(windowSize, maxRequests, start, calls).all
  {
    var limiter := new WindowLimiter(windowSize, maxRequests, 0, start);
    times := [];
    var clock := start;
    for i := 0 to |calls|
      invariant fresh(limiter) && limiter.Valid() && limiter.clock <= clock
      invariant limiter.windowSize == windowSize && limiter.maxRequests == maxRequests
      invariant Play(windowSize, maxRequests, start, calls[..i]) == Log(times, limiter.grants, clock)
    {
      assert calls[..i + 1][..i] == calls[..i];
      clock, times := Perform(limiter, calls[i], clock, times);
    }
    assert calls[..|calls|] == calls;
  }

  /** No window ever holds more than allowed. */
  ghost predicate Bounded(windowSize: int, maxRequests: nat, times: seq<int>) {
    forall t :: InWindow(times, windowSize, t) <= maxRequests
  }

  /** A call is granted although the grants before it, forgotten ones included, fill its window. */
  predicate Overdraws(windowSize: int, maxRequests: nat, log: Log, call: Call) {
    && Granted(windowSize, maxRequests, log, call)
    && InWindow(log.all, windowSize, log.clock + call.pause + call.between) >= maxRequests
  }

  ghost predicate NeverOverdraws(windowSize: int, maxRequests: nat, start: int, calls: seq<Call>) {
    forall i :: 0 <= i < |calls| ==>
      !Overdraws(windowSize, maxRequests, Play(windowSize, maxRequests, start, calls[..i]), calls[i])
  }

  predicate Past(log: Log) {
    forall i :: 0 <= i < |log.all| ==> log.all[i] <= log.clock
  }

  lemma {:induction false} NextPast(windowSize: int, maxRequests: nat, log: Log, call: Call)
    requires Past(log)
    ensures Past(Next(windowSize, maxRequests, log, call))
  {
    var log' := Next(windowSize, maxRequests, log, call);
    assert log'.all == log.all || log'.all == log.all + [log'.clock];
  }

  lemma {:induction false} NoGrantAfterClock(windowSize: int, maxRequests: nat, start: int, calls: seq<Call>)
    ensures Past(Play(windowSize, maxRequests, start, calls))
    decreases |calls|
  {
    if calls != [] {
      var n := |calls| - 1;
      NoGrantAfterClock(windowSize, maxRequests, start, calls[..n]);
      NextPast(windowSize, maxRequests, Play(windowSize, maxRequests, start, calls[..n]), calls[n]);
    }
  }

  /** One more call keeps the bound exactly when it does not overdraw. */
  lemma {:induction false} NextBounded(windowSize: int, maxRequests: nat, log: Log, call: Call)
    requires Bounded(windowSize, maxRequests, log.all)
    requires Past(log)
    ensures Bounded(windowSize, maxRequests, Next(windowSize, maxRequests, log, call).all)
            <==> !Overdraws(windowSize, maxRequests, log, call)
  {
    if windowSize <= 0 {
      forall t { EmptyWindow(Next(windowSize, maxRequests, log, call).all, windowSize, t); }
      forall t { EmptyWindow(log.all, windowSize, t); }
    } else if Granted(windowSize, maxRequests, log, call) {
      var stamp := log.clock + call.pause + call.between;
      forall t ensures InWindow(log.all + [stamp], windowSize, t) ==
        InWindow(log.all, windowSize, t) + if t - windowSize < stamp <= t then 1 else 0
      {
        BetweenAppend(log.all, stamp, t - windowSize, t);
      }
      forall t | stamp <= t ensures InWindow(log.all, windowSize, t) <= InWindow(log.all, windowSize, stamp) {
        LaterWindow(log.all, windowSize, stamp, t);
      }
      assert InWindow(log.all + [stamp], windowSize, stamp) == InWindow(log.all, windowSize, stamp) + 1;
    }
  }

  /** A bound once broken stays broken. */
  lemma {:induction false} StaysUnbounded(windowSize: int, maxRequests: nat, log: Log, call: Call)
    requires Bounded(windowSize, maxRequests, Next(windowSize, maxRequests, log, call).all)
    ensures Bounded(windowSize, maxRequests, log.all)
  {
    forall t ensures InWindow(log.all, windowSize, t) <= maxRequests {
      var all := Next(windowSize, maxRequests, log, call).all;
      assert InWindow(all, windowSize, t) <= maxRequests;
      if all != log.all {
        BetweenAppend(log.all, all[|log.all|], t - windowSize, t);
      }
    }
  }

  /** For every history: no window holds more than maxRequests grants if and only if no call is
      granted while the grants before it, forgotten by a Close or not, fill its window. */
  lemma {:induction false} BoundedExact(windowSize: int, maxRequests: nat, start: int, calls: seq<Call>)
    ensures Bounded(windowSize, maxRequests, Play(windowSize, maxRequests, start, calls).all)
            <==> NeverOverdraws(windowSize, maxRequests, start, calls)
    decreases |calls|
  {
    if calls != [] {
      var n := |calls| - 1;
      var rest := calls[..n];
      var log := Play(windowSize, maxRequests, start, rest);
      BoundedExact(windowSize, maxRequests, start, rest);
      NoGrantAfterClock(windowSize, maxRequests, start, rest);
      NeverNext(windowSize, maxRequests, start, calls);
      if Bounded(windowSize, maxRequests, log.all) {
        NextBounded(windowSize, maxRequests, log, calls[n]);
      } else if Bounded(windowSize, maxRequests, Play(windowSize, maxRequests, start, calls).all) {
        StaysUnbounded(windowSize, maxRequests, log, calls[n]);
      }
    }
  }

  lemma {:induction false} NeverNext(windowSize: int, maxRequests: nat, start: int, calls: seq<Call>)
    requires calls != []
    ensures var n := |calls| - 1;
            NeverOverdraws(windowSize, maxRequests, start, calls)
            <==> NeverOverdraws(windowSize, maxRequests, start, calls[..n])
                 && !Overdraws(windowSize, maxRequests, Play(windowSize, maxRequests, start, calls[..n]), calls[n])
  {
    var n := |calls| - 1;
    assert forall i :: 0 <= i < n ==> calls[..n][..i] == calls[..i] && calls[..n][i] == calls[i];
  }

  // ----- Without Close -----

  lemma {:induction false} NothingForgotten(windowSize: int, maxRequests: nat, start: int, calls: seq<Call>)
    requires forall i :: 0 <= i < |calls| ==> !calls[i].Close?
    ensures var log := Play(windowSize, maxRequests, start, calls); log.since == log.all
    decreases |calls|
  {
    if calls != [] {
      NothingForgotten(windowSize, maxRequests, start, calls[..|calls| - 1]);
    }
  }

  lemma {:induction false} KeepsWithin(windowSize: int, maxRequests: nat, log: Log, call: Call)
    requires Past(log) && log.since == log.all
    ensures !Overdraws(windowSize, maxRequests, log, call)
  {
    if call.Allow? {
      var now := log.clock + call.pause;
      LaterWindow(log.all, windowSize, now, now + call.between);
    }
  }

  /** Every history without Close is bounded. */
  lemma {:induction false} BoundedWithoutClose(windowSize: int, maxRequests: nat, start: int, calls: seq<Call>)
    requires forall i :: 0 <= i < |calls| ==> !calls[i].Close?
    ensures Bounded(windowSize, maxRequests, Play(windowSize, maxRequests, start, calls).all)
  {
    forall i | 0 <= i < |calls|
      ensures !Overdraws(windowSize, maxRequests, Play(windowSize, maxRequests, start, calls[..i]), calls[i])
    {
      var log := Play(windowSize, maxRequests, start, calls[..i]);
      NothingForgotten(windowSize, maxRequests, start, calls[..i]);
      NoGrantAfterClock(windowSize, maxRequests, start, calls[..i]);
      KeepsWithin(windowSize, maxRequests, log, calls[i]);
    }
    BoundedExact(windowSize, maxRequests, start, calls);
  }

  // ----- With Close -----

  function Burst(n: nat): seq<Call> { if n == 0 then [] else Burst(n - 1) + [Allow(0, 0)] }

  /** The stamps of a burst. */
  function Stamps(start: int, n: nat): seq<int> { if n == 0 then [] else Stamps(start, n - 1) + [start] }

  /** At one instant, the first maxRequests calls are granted. */
  lemma {:induction false} BurstGranted(windowSize: int, maxRequests: nat, start: int, n: nat)
    requires windowSize > 0 && n <= maxRequests
    ensures var times := Stamps(start, n);
            && Play(windowSize, maxRequests, start, Burst(n)) == Log(times, times, start)
            && InWindow(times, windowSize, start) == n
  {
    if n > 0 {
      BurstGranted(windowSize, maxRequests, start, n - 1);
      PlayNext(windowSize, maxRequests, start, Burst(n - 1), Allow(0, 0));
      BetweenAppend(Stamps(start, n - 1), start, start - windowSize, start);
    }
  }

  /** A full burst, a Close, and one call more: maxRequests + 1 grants at one instant. */
  lemma {:induction false} CloseForgets(windowSize: int, maxRequests: nat, start: int) returns (calls: seq<Call>)
    requires windowSize > 0 && maxRequests > 0
    ensures InWindow(Play(windowSize, maxRequests, start, calls).all, windowSize, start) == maxRequests + 1
  {
    var burst, times := Burst(maxRequests), Stamps(start, maxRequests);
    BurstGranted(windowSize, maxRequests, start, maxRequests);
    var closed := burst + [Close(0)];
    calls := closed + [Allow(0, 0)];
    PlayNext(windowSize, maxRequests, start, burst, Close(0));
    PlayNext(windowSize, maxRequests, start, closed, Allow(0, 0));
    BetweenAppend(times, start, start - windowSize, start);
  }

  /** All histories of a limiter, Close included, are bounded if and only if its windows are empty or
      it grants nothing at all. */
  lemma {:induction false} BoundedDespiteClose(windowSize: int, maxRequests: nat, start: int)
    ensures (forall calls :: Bounded(windowSize, maxRequests, Play(windowSize, maxRequests, start, calls).all))
            <==> windowSize <= 0 || maxRequests == 0
  {
    if windowSize <= 0 {
      forall calls, t { EmptyWindow(Play(windowSize, maxRequests, start, calls).all, windowSize, t); }
    } else if maxRequests == 0 {
      forall calls ensures Bounded(windowSize, maxRequests, Play(windowSize, maxRequests, start, calls).all) {
        BoundedExact(windowSize, maxRequests, start, calls);
      }
    } else {
      var calls := CloseForgets(windowSize, maxRequests, start);
      assert !Bounded(windowSize, maxRequests, Play(windowSize, maxRequests, start, calls).all);
    }
  }
}
