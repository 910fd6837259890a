/** The connection pool as its single caller sees it: no other call and no sweep runs meanwhile. */
module ConnectionPools {
  import opened Basics
  import opened ConnectionRules

  class ConnectionPool {
    const opts: Options
    var idle: seq<Conn>
    var activeConns: set<Conn>
    var stats: Stats
    /** The last reading of the clock. */
    var now: int
    /** The connections made so far are numbered from 0 to `made`. */
    var made: nat
    ghost var closedPuts: nat
    /** The raw closes performed, by connection. */
    ghost var closes: seq<nat>
    /** How many waits were begun. */
    ghost var waited: int

    /** The initial fill: `worlds(i)` is the world outside during its `i`th creation. Every connection
        that is made and can be put back ends up idle, as far as MaxIdle allows. */
    constructor (o: Options, worlds: nat -> World)
      ensures Valid() && opts == o && activeConns == {}
      ensures made == MadeBy(worlds, Max(o.initialSize, 0))
      ensures |idle| == Min(GoodBy(o, worlds, Max(o.initialSize, 0)), o.maxIdle)
      ensures Flawless(worlds) ==> |idle| == Min(Max(o.initialSize, 0), o.maxIdle)
    {
      opts, idle, activeConns, stats := o, [], {}, Stats(0, 0, 0, 0, 0, 0, 0, 0);
      now, made, closedPuts, closes, waited := 0, 0, 0, [], 0;
      new;
      for i := 0 to Max(o.initialSize, 0)
        invariant Valid() && activeConns == {} && |idle| <= i
        invariant made == MadeBy(worlds, i) && |idle| == Min(GoodBy(o, worlds, i), o.maxIdle)
      {
        FillOne(worlds(i));
      }
      if Flawless(worlds) {
        FlawlessFill(o, worlds, Max(o.initialSize, 0));
      }
    }

    /** One round of the initial fill. */
    method FillOne(w: World)
      requires Valid() && activeConns == {} && |idle| < opts.initialSize
      modifies this
      ensures Valid() && activeConns == {}
      ensures made == old(made) + if w.made.FactoryFails? then 0 else 1
      ensures |idle| == |old(idle)| + if Good(opts, w, old(made)) && |old(idle)| < opts.maxIdle then 1 else 0
    {
      var r := CreateConnection(w, 0);
      if r.Got? {
        var _, _ := Put(r.conn, false, w);
        assert {r.conn} - {r.conn} == {};
      }
    }

    /** One connection more may be created. */
    predicate Room()
      reads this
    {
      opts.maxActive == 0 || stats.active + stats.idle < opts.maxActive
    }

    /** `inHand`: connections taken from the channel and still counted there; `waits`: calls counted
        as waiting. */
    ghost predicate Counts(inHand: int, waits: int)
      reads this
    {
      && |idle| + inHand <= opts.maxIdle
      && stats.idle == |idle| + inHand && stats.active == |activeConns| && stats.waiters == waits
      && stats.total == stats.active + stats.idle
      && stats.acquired == stats.active + stats.released + closedPuts
      && made == |closes| + |idle| + |activeConns| + inHand
      && (opts.maxActive > 0 ==> stats.total <= Max(Min(opts.initialSize, opts.maxIdle + 1), opts.maxActive))
    }

    ghost predicate Holds(inHand: int, waits: int)
      reads this
    {
      Counts(inHand, waits) && Known(idle, activeConns, made) && InOrder(idle, now)
    }

    ghost predicate Valid()
      reads this
    {
      Holds(0, 0)
    }

    /** What a call finds that `waits` waiters are counted for. */
    ghost predicate Finds(b: Before, waits: int)
      reads this
    {
      b.idle == idle && b.total == stats.total && b.waits == waits && b.made == made && b.now == now
    }

    /** What a call leaves that returns `r` and found these raw closes, waits and timeouts. */
    ghost predicate Leaves(a: After, r: GetResult, found: seq<nat>, begun: int, timeouts: int)
      reads this
    {
      && stats.timeouts == timeouts + a.timedOut
      && a.r == r && a.idle == idle && closes == found + a.closed && waited == begun + a.waited && a.now == now
    }

    /** A call that returns `r` began with these statistics and Puts: it adds at most one to Errors, for a
        failed creation, and to Acquired, for a connection, and nothing to Released. */
    ghost predicate Billed(before: Stats, puts: nat, r: GetResult)
      reads this
    {
      && stats.errors == before.errors + (if r == Failed(CreateFailed) then 1 else 0)
      && stats.acquired == before.acquired + (if r.Got? then 1 else 0)
      && stats.released == before.released && closedPuts == puts
    }

    method CreateConnection(w: World, ghost waits: int) returns (r: GetResult)
      requires Holds(0, waits)
      requires opts.maxActive > 0 ==> stats.total < Max(Min(opts.initialSize, opts.maxIdle + 1), opts.maxActive)
      modifies this
      ensures Holds(0, waits) && idle == old(idle) && now == old(now)
      ensures r == (if w.made.Makes? then Got(Conn(old(made), now, now)) else Failed(CreateFailed))
      ensures activeConns == Handed(old(activeConns), r)
      ensures made == (if w.made.FactoryFails? then old(made) else old(made) + 1)
      ensures closes == old(closes) + Rejected(w, old(made)) && waited == old(waited)
      ensures stats == Counted(old(stats), w) && Billed(old(stats), old(closedPuts), r)
    {
      match w.made {
        case FactoryFails =>
          stats := stats.(errors := stats.errors + 1);
          r := Failed(CreateFailed);
        case OnCreateFails =>
          KnownMore(idle, activeConns, made);
          closes := closes + [made];
          made := made + 1;
          stats := stats.(errors := stats.errors + 1);
          r := Failed(CreateFailed);
        case Makes =>
          KnownNew(idle, activeConns, made, now);
          r := Got(Conn(made, now, now));
          made, activeConns := made + 1, activeConns + {r.conn};
          stats := stats.(active := stats.active + 1, total := stats.total + 1, acquired := stats.acquired + 1);
      }
    }

    method HandleIdleConnection(conn: Conn, w: World, ghost waits: int, ghost b: Before)
      returns (r: GetResult, ghost a: After, ghost course: Course)
      requires Holds(1, waits) && conn !in activeConns && Known(idle, activeConns + {conn}, made)
      requires b.idle != [] && b.idle[0] == conn && Finds(b.(idle := b.idle[1..]), waits - 1)
      modifies this
      decreases |idle|, 7
      ensures Holds(0, waits) && now >= old(now)
      ensures activeConns == Handed(old(activeConns), r) && Billed(old(stats), old(closedPuts), r)
      ensures !Unfit(opts, conn, old(now), w) ==>
                && r == Got(conn) && idle == old(idle) && made == old(made) && a.closed == []
                && stats == Borrowed(old(stats))
      ensures Unfit(opts, conn, old(now), w) && (opts.maxActive == 0 || old(stats.total) <= opts.maxActive) ==>
                && idle == old(idle) && a.closed == [conn.id] + Rejected(w, old(made))
                && stats == Counted(Lost(old(stats)), w)
                && r == if w.made.Makes? then Got(Conn(old(made), old(now), old(now))) else Failed(CreateFailed)
      ensures var past := || (opts.maxIdleTime > 0 && old(now) - conn.lastUsed > opts.maxIdleTime)
                          || (opts.maxLifetime > 0 && old(now) - conn.createdAt > opts.maxLifetime)
                          || (opts.testOnBorrow && conn.id in w.dead);
              if past then a.closed != [] && a.closed[0] == conn.id else r == Got(conn) && a.closed == []
      ensures Leaves(a, r, old(closes), old(waited), old(stats.timeouts)) && Follows(opts, w, b, a, 1, course)
    {
      if Expired(opts, conn, now) || (opts.testOnBorrow && conn.id in w.dead) {
        r, a, course := DropIdleConnection(conn, w, waits, b);
        return;
      }
      activeConns := activeConns + {conn};
      stats := stats.(idle := stats.idle - 1, active := stats.active + 1, acquired := stats.acquired + 1);
      r, a, course := Got(conn), After(Got(conn), idle, [], 0, 0, now), Took;
    }

    /** The unfit connection is closed, and another one is looked for. */
    method DropIdleConnection(conn: Conn, w: World, ghost waits: int, ghost b: Before)
      returns (r: GetResult, ghost a: After, ghost course: Course)
      requires Holds(1, waits) && Unfit(opts, conn, now, w)
      requires b.idle != [] && b.idle[0] == conn && Finds(b.(idle := b.idle[1..]), waits - 1)
      modifies this
      decreases |idle|, 6
      ensures Holds(0, waits) && now >= old(now)
      ensures activeConns == Handed(old(activeConns), r) && Billed(old(stats), old(closedPuts), r)
      ensures (opts.maxActive == 0 || old(stats.total) <= opts.maxActive) ==>
                && idle == old(idle) && a.closed == [conn.id] + Rejected(w, old(made))
                && stats == Counted(Lost(old(stats)), w)
                && r == if w.made.Makes? then Got(Conn(old(made), old(now), old(now))) else Failed(CreateFailed)
      ensures Leaves(a, r, old(closes), old(waited), old(stats.timeouts)) && Follows(opts, w, b, a, 1, course)
    {
      ghost var c := Before(b.idle[1..], b.total - 1, b.waits + 1, b.made, b.now);
      closes := closes + [conn.id];
      stats := stats.(idle := stats.idle - 1, total := stats.total - 1);
      r, a, course := CreateOrWaitForConnection(w, waits, c);
      Regroup(old(closes), conn.id, a.closed);
      a, course := a.(closed := [conn.id] + a.closed), ThenDropped(a, course);
    }

    method CreateOrWaitForConnection(w: World, ghost waits: int, ghost b: Before)
      returns (r: GetResult, ghost a: After, ghost course: Course)
      requires Holds(0, waits) && Finds(b, waits)
      modifies this
      decreases |idle|, 5
      ensures Holds(0, waits) && now >= old(now)
      ensures activeConns == Handed(old(activeConns), r) && Billed(old(stats), old(closedPuts), r)
      ensures old(Room()) ==>
                && idle == old(idle) && a.closed == Rejected(w, old(made))
                && stats == Counted(old(stats), w)
                && r == if w.made.Makes? then Got(Conn(old(made), old(now), old(now))) else Failed(CreateFailed)
      ensures !old(Room()) && opts.maxWaiters > 0 && waits >= opts.maxWaiters ==>
                && r == Failed(TooManyWaiters)
                && idle == old(idle) && made == old(made) && a.closed == [] && stats == old(stats)
      ensures !old(Room()) && !(opts.maxWaiters > 0 && waits >= opts.maxWaiters) && old(idle) == [] ==>
                && r == Failed(ConnectionTimeout) && made == old(made) && a.closed == []
                && stats == old(stats).(timeouts := old(stats.timeouts) + 1)
      ensures Leaves(a, r, old(closes), old(waited), old(stats.timeouts)) && Follows(opts, w, b, a, 0, course)
    {
      if opts.maxActive == 0 || stats.active + stats.idle < opts.maxActive {
        r := CreateConnection(w, waits);
        a, course := After(r, idle, Rejected(w, b.made), 0, 0, now), Ended;
        return;
      }
      if opts.maxWaiters > 0 && stats.waiters >= opts.maxWaiters {
        r, a, course := Failed(TooManyWaiters), After(Failed(TooManyWaiters), idle, [], 0, 0, now), Ended;
        return;
      }
      r, a, course := WaitCounted(w, waits, b);
    }

    /** The call waits, and counts as a waiter meanwhile. */
    method WaitCounted(w: World, ghost waits: int, ghost b: Before)
      returns (r: GetResult, ghost a: After, ghost course: Course)
      requires Holds(0, waits) && !Room() && !Crowd(opts, waits) && Finds(b, waits)
      modifies this
      decreases |idle|, 4
      ensures Holds(0, waits) && now >= old(now)
      ensures activeConns == Handed(old(activeConns), r) && Billed(old(stats), old(closedPuts), r)
      ensures old(idle) == [] ==>
                && r == Failed(ConnectionTimeout) && made == old(made) && a.closed == []
                && stats == old(stats).(timeouts := old(stats.timeouts) + 1)
      ensures Leaves(a, r, old(closes), old(waited), old(stats.timeouts)) && Follows(opts, w, b, a, 0, course)
    {
      waited := waited + 1;
      stats := stats.(waiters := stats.waiters + 1);
      r, a, course := Wait(w, waits + 1, b);
      stats := stats.(waiters := stats.waiters - 1);
    }

    /** The first connection in the channel is received and handled. */
    method Receive(w: World, ghost waits: int, ghost b: Before)
      returns (r: GetResult, ghost a: After, ghost course: Course)
      requires Holds(0, waits) && idle != [] && Finds(b, waits - 1)
      modifies this
      decreases |idle|, 0
      ensures Holds(0, waits) && now >= old(now)
      ensures activeConns == Handed(old(activeConns), r) && Billed(old(stats), old(closedPuts), r)
      ensures !Unfit(opts, old(idle[0]), old(now), w) ==>
                && r == Got(old(idle[0])) && idle == old(idle[1..]) && made == old(made) && a.closed == []
                && stats == Borrowed(old(stats))
      ensures Unfit(opts, old(idle[0]), old(now), w) && (opts.maxActive == 0 || old(stats.total) <= opts.maxActive) ==>
                && idle == old(idle[1..]) && a.closed == [old(idle[0].id)] + Rejected(w, old(made))
                && stats == Counted(Lost(old(stats)), w)
                && r == if w.made.Makes? then Got(Conn(old(made), old(now), old(now))) else Failed(CreateFailed)
      ensures Leaves(a, r, old(closes), old(waited), old(stats.timeouts)) && Follows(opts, w, b, a, 1, course)
    {
      KnownTake(idle, activeConns, made, now);
      var conn := idle[0];
      idle := idle[1..];
      r, a, course := HandleIdleConnection(conn, w, waits, b);
    }

    /** Time passes. */
    method Elapse(ghost waits: int)
      requires Holds(0, waits)
      modifies this`now
      ensures Holds(0, waits) && now >= old(now)
    {
      var t: int := *;
      if t > now {
        now := t;
      }
    }

    /** The wait for a connection or for the end of the context, whichever comes first. */
    method Wait(w: World, ghost waits: int, ghost b: Before)
      returns (r: GetResult, ghost a: After, ghost course: Course)
      requires Holds(0, waits) && !Room() && !Crowd(opts, waits - 1) && Finds(b, waits - 1)
      modifies this
      decreases |idle|, 3
      ensures Holds(0, waits) && now >= old(now)
      ensures activeConns == Handed(old(activeConns), r) && Billed(old(stats), old(closedPuts), r)
      ensures old(idle) == [] ==>
                && r == Failed(ConnectionTimeout) && made == old(made) && a.closed == []
                && stats == old(stats).(timeouts := old(stats.timeouts) + 1)
      ensures Leaves(a, r, old(closes), old(waited) - 1, old(stats.timeouts)) && Follows(opts, w, b, a, 0, course)
    {
      Elapse(waits);
      if idle != [] && w.takes(stats.waiters) {
        r, a, course := ReceiveInWait(w, waits, b);
      } else {
        CountTimeout(waits);
        r, a, course := Retry(w, waits, b);
      }
    }

    method CountTimeout(ghost waits: int)
      requires Holds(0, waits)
      modifies this`stats
      ensures Holds(0, waits) && stats == old(stats).(timeouts := old(stats.timeouts) + 1)
    {
      stats := stats.(timeouts := stats.timeouts + 1);
    }

    /** A wait ends with a connection, after some time. */
    method ReceiveInWait(w: World, ghost waits: int, ghost b: Before)
      returns (r: GetResult, ghost a: After, ghost course: Course)
      requires Holds(0, waits) && idle != [] && !Room() && !Crowd(opts, waits - 1)
      requires b.now <= now && Finds(b.(now := now), waits - 1) && Receives(opts, w, waits)
      modifies this
      decreases |idle|, 1
      ensures Holds(0, waits) && now >= old(now)
      ensures activeConns == Handed(old(activeConns), r) && Billed(old(stats), old(closedPuts), r)
      ensures Leaves(a, r, old(closes), old(waited) - 1, old(stats.timeouts) - Missed(w, waits))
      ensures Follows(opts, w, b, a, 0, course)
      ensures course.ThenWaited?
    {
      ghost var later := now;
      r, a, course := Receive(w, waits, b.(now := later));
      a, course := a.(waited := a.waited + 1, timedOut := a.timedOut + Missed(w, waits)), ThenWaited(later, a, course);
    }

    /** The retries after a timeout. Nothing makes room while a single caller backs off. */
    method Retry(w: World, ghost waits: int, ghost b: Before)
      returns (r: GetResult, ghost a: After, ghost course: Course)
      requires Holds(0, waits) && !Room() && !Crowd(opts, waits - 1)
      requires b.now <= now && Finds(b.(now := now), waits - 1) && (idle == [] || !w.takes(waits))
      modifies this
      decreases |idle|, 2
      ensures Holds(0, waits) && now >= old(now)
      ensures activeConns == Handed(old(activeConns), r) && Billed(old(stats), old(closedPuts), r)
      ensures var polls := w.deadline && opts.maxRetries > 0 && old(idle) != [];
              && (polls ==> course.ThenWaited?)
              && (!polls ==> r == Failed(ConnectionTimeout) && idle == old(idle) && made == old(made)
                             && a.closed == [] && stats == old(stats))
      ensures Leaves(a, r, old(closes), old(waited) - 1, old(stats.timeouts) - 1) && Follows(opts, w, b, a, 0, course)
    {
      var retry := 0;
      while w.deadline && retry < opts.maxRetries
        invariant Holds(0, waits) && !Room() && now >= old(now)
        invariant idle == old(idle) && activeConns == old(activeConns)
        invariant made == old(made) && closes == old(closes) && waited == old(waited) && stats == old(stats)
        invariant closedPuts == old(closedPuts)
        invariant retry > 0 ==> idle == []
      {
        Elapse(waits);
        if opts.maxActive == 0 || stats.active + stats.idle < opts.maxActive {
          assert false;
        }
        if idle != [] {
          r, a, course := ReceiveInWait(w, waits, b);
          return;
        }
        retry := retry + 1;
      }
      r, a, course := Failed(ConnectionTimeout), After(Failed(ConnectionTimeout), idle, [], 1, 1, now), Ended;
    }

    /** `t`: the reading of the clock that the call acts on. A call that finds an idle connection
        returns it or, when it is unfit, drops it; then it creates one without waiting if and only if
        Total was at most MaxActive. Whatever happens is one of the outcomes of Served. */
    method Get(w: World) returns (r: GetResult, ghost t: int, ghost a: After)
      requires Valid()
      modifies this
      ensures Valid() && old(now) <= t <= now
      ensures activeConns == Handed(old(activeConns), r)
      ensures stats.errors == old(stats.errors) + (if r == Failed(CreateFailed) then 1 else 0)
      ensures stats.acquired == old(stats.acquired) + (if r.Got? then 1 else 0)
      ensures stats.released == old(stats.released) && closedPuts == old(closedPuts)
      ensures old(idle) != [] && (opts.maxIdleTime > 0 ==> t - old(idle[0].lastUsed) <= opts.maxIdleTime)
              && (opts.maxLifetime > 0 ==> t - old(idle[0].createdAt) <= opts.maxLifetime)
              && (opts.testOnBorrow ==> old(idle[0].id) !in w.dead) ==>
                && r == Got(old(idle[0])) && idle == old(idle[1..]) && made == old(made) && a.closed == []
                && stats == Borrowed(old(stats))
      ensures old(idle) != [] && Unfit(opts, old(idle[0]), t, w)
              && (opts.maxActive == 0 || old(stats.total) <= opts.maxActive) ==>
                && idle == old(idle[1..]) && a.closed == [old(idle[0].id)] + Rejected(w, old(made))
                && stats == Counted(Lost(old(stats)), w)
                && r == if w.made.Makes? then Got(Conn(old(made), t, t)) else Failed(CreateFailed)
      ensures old(idle) == [] && old(Room()) ==>
                && a.closed == Rejected(w, old(made)) && stats == Counted(old(stats), w)
                && r == if w.made.Makes? then Got(Conn(old(made), t, t)) else Failed(CreateFailed)
      ensures old(idle) == [] && !old(Room()) ==>
                && r == Failed(ConnectionTimeout) && made == old(made) && a.closed == []
                && stats == old(stats).(timeouts := old(stats.timeouts) + 1)
      ensures r.Got? && r.conn.id != old(made) && opts.maxIdleTime > 0 ==> now - r.conn.lastUsed <= opts.maxIdleTime
      ensures r.Got? && r.conn.id != old(made) && opts.maxLifetime > 0 ==> now - r.conn.createdAt <= opts.maxLifetime
      ensures r.Got? && r.conn.id != old(made) && opts.testOnBorrow ==> r.conn.id !in w.dead
      ensures r.Got? && r.conn.id != old(made) ==> r.conn in old(idle)
      ensures Leaves(a, r, old(closes), old(waited), old(stats.timeouts))
      ensures var first := if old(idle) == [] then 0 else 1;
              Served(opts, w, Before(old(idle), old(stats.total), -first, old(made), t), a, first)
      ensures old(idle) != [] && Unfit(opts, old(idle[0]), t, w) ==>
                (waited == old(waited) <==> opts.maxActive == 0 || old(stats.total) <= opts.maxActive)
    {
      Elapse(0);
      t := now;
      ghost var b := Before(idle, stats.total, if idle == [] then 0 else -1, made, now);
      r, a := Select(w, b);
    }

    /** The choice between an idle connection and none, without waiting. */
    method Select(w: World, ghost b: Before) returns (r: GetResult, ghost a: After)
      requires Valid() && Finds(b, if idle == [] then 0 else -1)
      modifies this
      ensures Valid() && old(now) <= now
      ensures activeConns == Handed(old(activeConns), r) && Billed(old(stats), old(closedPuts), r)
      ensures b.idle != [] && !Unfit(opts, b.idle[0], b.now, w) ==>
                && r == Got(b.idle[0]) && idle == b.idle[1..] && made == b.made && a.closed == []
                && stats == Borrowed(old(stats))
      ensures b.idle != [] && Unfit(opts, b.idle[0], b.now, w) && (opts.maxActive == 0 || b.total <= opts.maxActive) ==>
                && idle == b.idle[1..] && a.closed == [b.idle[0].id] + Rejected(w, b.made)
                && stats == Counted(Lost(old(stats)), w)
                && r == if w.made.Makes? then Got(Conn(b.made, b.now, b.now)) else Failed(CreateFailed)
      ensures b.idle == [] && old(Room()) ==>
                && a.closed == Rejected(w, b.made) && stats == Counted(old(stats), w)
                && r == if w.made.Makes? then Got(Conn(b.made, b.now, b.now)) else Failed(CreateFailed)
      ensures b.idle == [] && !old(Room()) ==>
                && r == Failed(ConnectionTimeout) && made == b.made && a.closed == []
                && stats == old(stats).(timeouts := old(stats.timeouts) + 1)
      ensures Leaves(a, r, old(closes), old(waited), old(stats.timeouts))
      ensures Served(opts, w, b, a, if b.idle == [] then 0 else 1)
      ensures r.Got? && r.conn.id != b.made && opts.maxIdleTime > 0 ==> now - r.conn.lastUsed <= opts.maxIdleTime
      ensures r.Got? && r.conn.id != b.made && opts.maxLifetime > 0 ==> now - r.conn.createdAt <= opts.maxLifetime
      ensures r.Got? && r.conn.id != b.made && opts.testOnBorrow ==> r.conn.id !in w.dead
      ensures r.Got? && r.conn.id != b.made ==> r.conn in b.idle
      ensures b.idle != [] && Unfit(opts, b.idle[0], b.now, w) ==>
                (waited == old(waited) <==> opts.maxActive == 0 || b.total <= opts.maxActive)
    {
      ghost var course;
      if idle != [] {
        r, a, course := Receive(w, 0, b);
        CourseLaws(opts, w, b, a, 1, course);
      } else {
        r, a, course := CreateOrWaitForConnection(w, 0, b);
        CourseLaws(opts, w, b, a, 0, course);
      }
      HandedWithinLimits(opts, w, b, a, if b.idle == [] then 0 else 1);
    }

    /** A connection that was got and not yet put back. */
    method Put(conn: Conn, failed: bool, w: World) returns (r: PutResult, ghost t: int)
      requires Valid() && conn in activeConns
      modifies this
      ensures Valid() && old(now) <= t == now
      ensures activeConns == old(activeConns) - {conn} && made == old(made)
      ensures var bad := failed || (opts.testOnReturn && conn.id in w.dead) || conn.id in w.stuck;
              var kept := !bad && |old(idle)| < opts.maxIdle;
              && r == (if bad || kept then PutOk else PoolFull)
              && (kept ==> idle == old(idle) + [conn.(lastUsed := t)] && stats == Returned(old(stats))
                           && closedPuts == old(closedPuts) && closes == old(closes))
              && (!kept ==> idle == old(idle) && stats == Gone(old(stats))
                            && closedPuts == old(closedPuts) + 1 && closes == old(closes) + [conn.id])
    {
      Elapse(0);
      t := now;
      if failed || (opts.testOnReturn && conn.id in w.dead) || conn.id in w.stuck {
        Discard(conn);
        r := PutOk;
      } else if |idle| < opts.maxIdle {
        Release(conn);
        r := PutOk;
      } else {
        Discard(conn);
        r := PoolFull;
      }
    }

    /** A connection that was put back goes into the channel. */
    method Release(conn: Conn)
      requires Valid() && conn in activeConns && |idle| < opts.maxIdle
      modifies this`activeConns, this`idle, this`stats
      ensures Valid() && activeConns == old(activeConns) - {conn}
      ensures idle == old(idle) + [conn.(lastUsed := now)]
      ensures stats == Returned(old(stats))
    {
      KnownPut(idle, activeConns, made, conn, now);
      activeConns := activeConns - {conn};
      idle := idle + [conn.(lastUsed := now)];
      stats := stats.(active := stats.active - 1, idle := stats.idle + 1, released := stats.released + 1);
    }

    /** A connection that was put back is closed. */
    method Discard(conn: Conn)
      requires Valid() && conn in activeConns
      modifies this`activeConns, this`stats, this`closedPuts, this`closes
      ensures Valid() && activeConns == old(activeConns) - {conn}
      ensures stats == Gone(old(stats))
      ensures closedPuts == old(closedPuts) + 1 && closes == old(closes) + [conn.id]
    {
      activeConns := activeConns - {conn};
      stats := stats.(active := stats.active - 1, total := stats.total - 1);
      closedPuts, closes := closedPuts + 1, closes + [conn.id];
    }

    /** One sweep of the cleaner, on its own, with the clock reading `t`; `expired`: the connections
        it closes. */
    method CleanIdleConnections(t: int) returns (expired: seq<Conn>)
      requires Valid() && t >= now
      modifies this
      ensures Valid() && now == t
      ensures activeConns == old(activeConns) && made == old(made)
      ensures |old(idle)| <= opts.minEvictableIdle ==>
                expired == [] && idle == old(idle) && stats == old(stats) && closes == old(closes)
      ensures |old(idle)| > opts.minEvictableIdle ==>
                && idle == Kept(opts, old(idle), t) && expired == Dropped(opts, old(idle), t)
                && stats == old(stats).(idle := old(stats.idle) - |expired|, total := old(stats.total) - |expired|)
                && closes == old(closes) + Ids(expired)
                && (opts.maxLifetime <= 0 ==> old(idle) == expired + idle)
      ensures forall c :: c in expired ==>
                && c in old(idle) && ((opts.maxIdleTime > 0 && t - c.lastUsed > opts.maxIdleTime)
                                      || (opts.maxLifetime > 0 && t - c.createdAt > opts.maxLifetime))
      ensures forall c :: c in idle && |old(idle)| > opts.minEvictableIdle ==>
                && c in old(idle) && (opts.maxIdleTime > 0 ==> t - c.lastUsed <= opts.maxIdleTime)
                && (opts.maxLifetime > 0 ==> t - c.createdAt <= opts.maxLifetime)
      ensures multiset(idle) + multiset(expired) == multiset(old(idle))
    {
      SweepWithinLimits(opts, idle, t);
      SweepSplits(opts, idle, t);
      if |idle| <= opts.minEvictableIdle {
        now := t;
        expired := [];
      } else {
        expired := Evict(t);
      }
    }

    /** A sweep above the threshold. */
    method Evict(t: int) returns (expired: seq<Conn>)
      requires Valid() && t >= now
      modifies this`idle, this`stats, this`now, this`closes
      ensures Valid() && now == t
      ensures closes == old(closes) + Ids(expired)
      ensures stats == old(stats).(idle := old(stats.idle) - |expired|, total := old(stats.total) - |expired|)
      ensures idle == Kept(opts, old(idle), t) && expired == Dropped(opts, old(idle), t)
      ensures opts.maxLifetime <= 0 ==> old(idle) == expired + idle
    {
      SweepLaws(opts, idle, activeConns, made, now, t);
      now := t;
      expired := Sweep(t);
      CloseAll(expired);
    }

    method CloseAll(expired: seq<Conn>)
      modifies this`closes
      ensures closes == old(closes) + Ids(expired)
    {
      for i := 0 to |expired|
        invariant closes == old(closes) + Ids(expired[..i])
      {
        closes := closes + [expired[i].id];
        assert Ids(expired[..i + 1]) == Ids(expired[..i]) + [expired[i].id];
      }
      assert expired[..|expired|] == expired;
    }

    /** The loop of a sweep. The channel is never empty and never full when it looks. */
    method Sweep(t: int) returns (closed: seq<Conn>)
      requires |idle| <= opts.maxIdle
      modifies this`idle, this`stats
      ensures idle == Kept(opts, old(idle), t) && closed == Dropped(opts, old(idle), t)
      ensures stats == old(stats).(idle := old(stats.idle) - |closed|, total := old(stats.total) - |closed|)
      ensures forall c :: c in closed ==>
                && c in old(idle) && ((opts.maxIdleTime > 0 && t - c.lastUsed > opts.maxIdleTime)
                                      || (opts.maxLifetime > 0 && t - c.createdAt > opts.maxLifetime))
      ensures forall c :: c in idle ==>
                && c in old(idle) && (opts.maxIdleTime > 0 ==> t - c.lastUsed <= opts.maxIdleTime)
                && (opts.maxLifetime > 0 ==> t - c.createdAt <= opts.maxLifetime)
    {
      ghost var was := idle;
      var idleCount := |idle|;
      closed := [];
      for i := 0 to idleCount
        invariant idle == was[i..] + Kept(opts, was[..i], t)
        invariant closed == Dropped(opts, was[..i], t)
        invariant stats == old(stats).(idle := old(stats.idle) - |closed|, total := old(stats.total) - |closed|)
      {
        SweepNext(opts, was, i, t);
        Rotate(was, i, Kept(opts, was[..i], t));
        if idle == [] {
          assert false;
        } else {
          var conn := idle[0];
          idle := idle[1..];
          if Expired(opts, conn, t) {
            closed := closed + [conn];
            stats := stats.(idle := stats.idle - 1, total := stats.total - 1);
          } else if |idle| < opts.maxIdle {
            idle := idle + [conn];
          } else {
            assert false;
          }
        }
      }
      assert was[..idleCount] == was;
      SweepWithinLimits(opts, was, t);
    }
  }
}
