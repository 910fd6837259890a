/** Schedules that nest as many waits as possible, and the best bounds on waits and on Waiters. */
module PoolWaiters {
  import opened Basics
  import opened PoolCalls
  import opened PoolDepth
  import opened PoolNesting
  import opened PoolProtocol
  import opened PoolSolo

  // ----- Two callers or more -----

  /** All connections are in use, `spare` of them or more in the possession of client 0, which is in no
      call; client 1 has nested `j` waits and looks for room again. */
  predicate Nested(s: State, config: Config, clients: nat, j: nat, spare: nat) {
    && s.published && s.config == config && |s.clients| == clients && clients >= 2 && s.idle == []
    && s.stats.idle == 0 && s.stats.active == s.stats.total && s.stats.total >= config.maxActive
    && s.stats.waiters == j && s.clients[1].pc == CCheck && s.clients[1].waited == j && s.clients[1].retried == 0
    && |s.clients[0].held| >= spare && s.clients[0].pending == 0
    && (if config.maxActive > 0 then s.stats.total == config.maxActive
        else s.stats.total >= spare && config.maxActive < 0)
    && forall t :: 0 <= t < clients && t != 1 ==> s.clients[t].pc == Ready
  }

  /** What client 0 still has to give after it gave one: it makes a new one when it may. */
  function SpareAfter(config: Config, spare: nat): nat
    requires spare > 0
  {
    if config.maxActive > 0 then 1 else spare - 1
  }

  /** Client 1, which waits, is served. */
  lemma {:induction false} ServeOne(config: Config, clients: nat, s: State, c: nat)
    requires Reached(config, clients, s) && |s.clients| >= 2 && s.clients[0].pc == PSend(c)
    requires s.idle == [] && s.clients[1].pc == CWait
    ensures Reached(config, clients, Counted(Serve(s, 1, c)))
  {
    ReachedNext(config, clients, s, Move(0, Good, 1));
    var a := Goto(Serve(s, 1, c), 0, PSendStats);
    assert Apply(s, Move(0, Good, 1)) == a;
    ReachedNext(config, clients, a, Go(s, 0));
    assert Apply(a, Go(s, 0)) == Counted(Serve(s, 1, c));
  }

  /** It finds its connection expired. */
  lemma {:induction false} DropOne(config: Config, clients: nat, s: State, c: nat) returns (s': State)
    requires Reached(config, clients, s) && |s.clients| >= 2 && s.clients[1].pc == GGot(c)
    ensures Reached(config, clients, s') && s'.config == s.config && s'.published == s.published && s'.idle == s.idle
    ensures s'.clients == s.clients[1 := s.clients[1].(pc := CCheck)]
    ensures s'.stats == s.stats.(idle := s.stats.idle - 1, total := s.stats.total - 1)
  {
    ReachedNext(config, clients, s, Move(1, Bad, 0));
    assert Apply(s, Move(1, Bad, 0)) == Goto(s, 1, GDrop(c));
    s' := Discount(config, clients, Goto(s, 1, GDrop(c)), 1);
  }

  /** Client 0 uses the room that a drop made, if there is any. */
  lemma {:induction false} Refill(config: Config, clients: nat, s: State, j: nat, spare: nat) returns (s': State)
    requires Reached(config, clients, s) && s.published && s.config == config && |s.clients| == clients >= 2
    requires s.idle == [] && s.stats.idle == 0 && s.stats.active == s.stats.total && spare > 0
    requires s.stats.waiters == j && s.clients[1].pc == CCheck && s.clients[1].waited == j
    requires s.clients[0].pending == 0 && |s.clients[0].held| >= spare - 1
    requires if config.maxActive > 0 then s.stats.total == config.maxActive - 1
             else s.stats.total >= spare - 1 && config.maxActive < 0
    requires forall t :: 0 <= t < clients && t != 1 ==> s.clients[t].pc == Ready
    ensures Reached(config, clients, s') && |s'.clients| == clients && s'.clients[1] == s.clients[1]
    ensures s.clients[1].retried == 0 ==> Nested(s', config, clients, j, SpareAfter(config, spare))
    ensures !Room(s') && s'.config == config && s'.idle == [] && s'.stats.waiters == j
  {
    s' := s;
    if config.maxActive > 0 {
      Decide(config, clients, s, 0);
      var a := Called(s, 0, CCreate);
      Keep(config, clients, a);
      s' := Acquired(a);
      assert s.made in s'.clients[0].held;
    }
  }

  /** Client 0 gives the connection `c` away; client 1, which waits, is handed it and finds it expired. */
  lemma {:induction false} HandExpired(config: Config, clients: nat, s: State, c: nat) returns (s': State)
    requires Reached(config, clients, s) && |s.clients| >= 2 && s.clients[0].pc == Ready && c in s.clients[0].held
    requires s.idle == [] && s.clients[1].pc == CWait
    ensures Reached(config, clients, s') && s'.config == s.config && s'.published == s.published && s'.idle == []
    ensures var x, y := s.clients[0], s.clients[1];
            s'.clients == s.clients[0 := x.(held := x.held - {c})][1 := y.(pc := CCheck)]
    ensures s'.stats.idle == s.stats.idle && s'.stats.active == s.stats.active - 1
    ensures s'.stats.total == s.stats.total - 1 && s'.stats.waiters == s.stats.waiters
  {
    var a := PutOne(config, clients, s, c);
    ServeOne(config, clients, a, c);
    s' := DropOne(config, clients, Counted(Serve(a, 1, c)), c);
  }

  /** One more nested wait: client 1 is handed an expired connection, and before it looks for room
      again client 0 has used the room that the drop made. */
  lemma {:induction false} NestOne(config: Config, clients: nat, s: State, j: nat, spare: nat) returns (s': State)
    requires Reached(config, clients, s) && Nested(s, config, clients, j, spare) && spare > 0
    requires config.maxWaiters <= 0 || j < config.maxWaiters
    ensures Reached(config, clients, s') && Nested(s', config, clients, j + 1, SpareAfter(config, spare))
  {
    Await(config, clients, s, 1);
    var c: nat :| c in s.clients[0].held;
    s' := HandExpired(config, clients, Awaiting(s, 1), c);
    assert |s'.clients[0].held| == |s.clients[0].held| - 1;
    s' := Refill(config, clients, s', j + 1, spare);
  }

  /** Client 1 looks for room while client 0 holds all there is. */
  lemma {:induction false} NestStart(config: Config, clients: nat) returns (s: State)
    requires config.maxActive != 0 && clients >= 2
    ensures Reached(config, clients, s)
    ensures Nested(s, config, clients, 0, if config.maxActive > 0 then 1 else Stock(config))
  {
    if config.maxActive > 0 {
      s := Started(config, clients);
      s := Acquire(config, clients, s, config.maxActive);
    } else {
      s := Opened(config, clients, Stock(config));
      s := BorrowAll(config, clients, s, Stock(config), Stock(config));
    }
    Look(config, clients, s, 1);
    s := Called(s, 1, CCheck);
  }

  lemma {:induction false} NestUpTo(config: Config, clients: nat, j: nat) returns (s: State)
    requires config.maxActive != 0 && clients >= 2 && (config.maxWaiters <= 0 || j <= config.maxWaiters)
    requires config.maxActive < 0 ==> j <= Stock(config)
    ensures Reached(config, clients, s) && Nested(s, config, clients, j, 0)
  {
    s := NestStart(config, clients);
    var i := 0;
    while i < j
      invariant i <= j && Reached(config, clients, s)
      invariant Nested(s, config, clients, i, if config.maxActive > 0 then 1 else Stock(config) - i)
    {
      s := NestOne(config, clients, s, i, if config.maxActive > 0 then 1 else Stock(config) - i);
      i := i + 1;
    }
  }

  /** With one place left all clients find it, and all take it. */
  lemma {:induction false} AllDecide(config: Config, clients: nat, s: State, j: nat) returns (s': State)
    requires Reached(config, clients, s) && Nested(s, config, clients, j, 0)
    requires config.maxWaiters <= 0 || j < config.maxWaiters
    ensures Reached(config, clients, s') && |s'.clients| == clients && s'.stats == s.stats
    ensures forall t :: 0 <= t < clients ==> s'.clients[t].pc == CEnter
  {
    ReachedNext(config, clients, s, Go(s, 1));
    s' := Apply(s, Go(s, 1));
    var i := 0;
    while i < clients
      invariant i <= clients && Reached(config, clients, s') && |s'.clients| == clients
      invariant s'.stats == s.stats && s'.published && s'.idle == [] && s'.config == s.config
      invariant forall t :: 0 <= t < i ==> s'.clients[t].pc == CEnter
      invariant forall t :: i <= t < clients && t != 1 ==> s'.clients[t].pc == Ready
      invariant s'.clients[1].pc == CEnter
    {
      if i != 1 {
        Decide(config, clients, s', i);
        s' := Called(s', i, CEnter);
      }
      i := i + 1;
    }
  }

  lemma {:induction false} EnterAll(config: Config, clients: nat, s: State, n: nat) returns (s': State)
    requires Reached(config, clients, s) && n <= |s.clients|
    requires forall t :: 0 <= t < n ==> s.clients[t].pc == CEnter
    ensures Reached(config, clients, s') && s'.stats.waiters == s.stats.waiters + n
  {
    s' := s;
    var i := 0;
    while i < n
      invariant i <= n && Reached(config, clients, s') && |s'.clients| == |s.clients|
      invariant s'.stats.waiters == s.stats.waiters + i
      invariant forall t :: i <= t < n ==> s'.clients[t].pc == CEnter
    {
      ReachedNext(config, clients, s', Go(s, i));
      s' := Apply(s', Go(s, i));
      i := i + 1;
    }
  }

  /** `j` nested waits, and then all callers at once. */
  lemma {:induction false} Rush(config: Config, clients: nat, j: nat) returns (s: State)
    requires config.maxActive != 0 && clients >= 2 && (config.maxWaiters <= 0 || j < config.maxWaiters)
    requires config.maxActive < 0 ==> j <= Stock(config)
    ensures Reached(config, clients, s) && s.stats.waiters == j + clients
  {
    s := NestUpTo(config, clients, j);
    s := AllDecide(config, clients, s, j);
    s := EnterAll(config, clients, s, clients);
  }

  // ----- A single caller -----

  /** The only caller has nested `i` waits and finds no room; `left` connections are idle. */
  predicate Draining(s: State, config: Config, i: nat, left: nat) {
    && s.published && s.config == config && |s.clients| == 1 && |s.idle| == left
    && s.stats.total == s.stats.active + s.stats.idle && s.stats.total >= Floor(config) && config.maxActive != 0
    && s.stats.waiters == i && s.clients[0].pc == CCheck && s.clients[0].waited == i && s.clients[0].retried == 0
  }

  lemma {:induction false} OnceAlone(config: Config) returns (s: State)
    requires config.maxActive != 0
    ensures Reached(config, 1, s) && Draining(s, config, 0, 0)
  {
    s := Started(config, 1);
    s := Acquire(config, 1, s, Floor(config));
    Look(config, 1, s, 0);
    s := Called(s, 0, CCheck);
  }

  /** The caller has waited, been handed one of the idle connections, and dropped it. */
  lemma {:induction false} DrainOne(config: Config, s: State, i: nat, left: nat) returns (s': State)
    requires Reached(config, 1, s) && Draining(s, config, i, left) && left > 0 && s.stats.total > Floor(config)
    requires config.maxWaiters <= 0 || i < config.maxWaiters
    ensures Reached(config, 1, s') && Draining(s', config, i + 1, left - 1) && s'.stats.total == s.stats.total - 1
  {
    Await(config, 1, s, 0);
    s' := Drop(config, 1, Awaiting(s, 0), 0);
  }

  /** The only caller keeps all but `d` connections of the fill and drops the first of these. */
  lemma {:induction false} DrainStart(config: Config, d: nat) returns (s: State)
    requires config.maxActive != 0 && 2 <= d && d + Floor(config) <= Stock(config)
    ensures Reached(config, 1, s) && Draining(s, config, 0, d - 1) && s.stats.total == Stock(config) - 1
  {
    s := Opened(config, 1, Stock(config));
    s := BorrowAll(config, 1, s, Stock(config), Stock(config) - d);
    ReachedNext(config, 1, s, Get(0));
    assert Apply(s, Get(0)) == Called(s, 0, GTake);
    s := Drop(config, 1, Called(s, 0, GTake), 0);
  }

  lemma {:induction false} DrainUpTo(config: Config, d: nat) returns (s: State)
    requires config.maxActive != 0 && 2 <= d && d + Floor(config) <= Stock(config)
    requires config.maxWaiters <= 0 || d <= config.maxWaiters
    ensures Reached(config, 1, s) && Draining(s, config, d - 1, 0)
  {
    s := DrainStart(config, d);
    var i := 0;
    while i < d - 1
      invariant i <= d - 1 && Reached(config, 1, s) && Draining(s, config, i, d - 1 - i)
      invariant s.stats.total == Stock(config) - 1 - i
    {
      s := DrainOne(config, s, i, d - 1 - i);
      i := i + 1;
    }
  }

  /** The cleaner is holding the only idle connection. */
  predicate Holding(s: State, config: Config) {
    && s.published && s.config == config && |s.clients| == 1 && s.idle == [] && config.maxIdle > 0
    && s.cleaner.ClGot? && s.stats.total == s.stats.active + s.stats.idle
  }

  /** It puts it back. */
  lemma {:induction false} CleanerReturns(config: Config, s: State) returns (s': State)
    requires Reached(config, 1, s) && Holding(s, config)
    ensures Reached(config, 1, s') && |s'.idle| == 1 && s'.published
    ensures s'.clients == s.clients && s'.stats == s.stats && s'.config == config
  {
    ReachedNext(config, 1, s, Sweep(Good, 1));
    s' := Apply(s, Sweep(Good, 1));
  }

  /** With one connection beyond MaxActive, the cleaner takes it from under the caller's nose. */
  lemma {:induction false} HeldStart(config: Config) returns (s: State)
    requires config.maxActive != 0 && Stock(config) == Floor(config) + 1 && Stock(config) > config.minEvictable
    ensures Reached(config, 1, s) && Draining(s, config, 0, 0) && Holding(s, config)
    ensures s.stats.total == Stock(config)
  {
    s := Opened(config, 1, Stock(config));
    ReachedNext(config, 1, s, Sweep(Good, 1));
    s := Apply(s, Sweep(Good, 1));
    assert s.cleaner == ClLoop(0, Stock(config), []);
    s := BorrowAll(config, 1, s, Stock(config), Stock(config) - 1);
    ReachedNext(config, 1, s, Sweep(Good, 1));
    s := Apply(s, Sweep(Good, 1));
    Look(config, 1, s, 0);
    s := Called(s, 0, CCheck);
  }

  lemma {:induction false} HeldTwice(config: Config) returns (s: State)
    requires config.maxActive != 0 && Stock(config) == Floor(config) + 1 && Stock(config) > config.minEvictable
    ensures Reached(config, 1, s) && Draining(s, config, 1, 0)
  {
    s := HeldStart(config);
    Await(config, 1, s, 0);
    s := CleanerReturns(config, Awaiting(s, 0));
    s := Drop(config, 1, s, 0);
  }

  /** The caller of a pool of its own nests as many waits as it can. */
  lemma {:induction false} DeepAlone(config: Config, d: nat) returns (s: State)
    requires config.maxActive != 0 && 1 <= d <= SoloDepth(config)
    requires config.maxWaiters <= 0 || d <= config.maxWaiters
    ensures Reached(config, 1, s) && |s.clients| == 1 && s.clients[0].waited == d && s.stats.waiters == d
  {
    if d == 1 {
      s := OnceAlone(config);
    } else if Stock(config) >= Floor(config) + 2 {
      s := DrainUpTo(config, d);
    } else {
      s := HeldTwice(config);
    }
    Await(config, 1, s, 0);
    s := Awaiting(s, 0);
  }

  // ----- The best bounds -----

  /** One Get reaches every depth that is possible, and any depth when there is no limit. */
  lemma {:induction false} DepthReached(config: Config, clients: nat, d: nat) returns (s: State, t: nat)
    requires clients > 0 && (Depth(config, clients).Just? ==> d <= Depth(config, clients).value)
    ensures Reached(config, clients, s) && t < |s.clients| && s.clients[t].waited == d
  {
    t := 0;
    if d == 0 {
      s := Init(config, clients);
      assert Run(s, []) == s;
    } else if clients == 1 {
      s := DeepAlone(config, d);
    } else {
      s := NestUpTo(config, clients, d - 1);
      t := 1;
      Await(config, clients, s, 1);
      s := Awaiting(s, 1);
    }
  }

  /** For all options and any number of callers: a number bounds the waits that one Get begins, over
      all runs, if and only if it is at least the depth. */
  lemma {:induction false} DepthExact(config: Config, clients: nat, bound: int)
    requires clients > 0
    ensures (forall steps, t: nat | t < clients :: WaitsWithin(config, clients, steps, t, bound))
            <==> Depth(config, clients).Just? && bound >= Depth(config, clients).value
  {
    var depth := Depth(config, clients);
    if depth.Just? && bound >= depth.value {
      forall steps, t: nat | t < clients ensures WaitsWithin(config, clients, steps, t, bound) {
        WaitsBounded(config, clients, steps);
      }
    } else {
      var s, t := DepthReached(config, clients, if depth.Just? then depth.value else Max(bound, 0) + 1);
      var steps :| Run(Init(config, clients), steps) == s;
      WaitsBounded(config, clients, steps);
      assert !WaitsWithin(config, clients, steps, t, bound);
    }
  }

  predicate WaitsWithin(config: Config, clients: nat, steps: seq<Step>, t: nat, bound: int) {
    var s := Run(Init(config, clients), steps);
    t < |s.clients| ==> s.clients[t].waited <= bound
  }

  lemma {:induction false} WaitersReached(config: Config, clients: nat, n: nat) returns (s: State)
    requires clients > 0
    requires var peak := WaiterPeak(config, clients); if peak.Just? then n == peak.value else n > 0
    ensures Reached(config, clients, s) && s.stats.waiters >= n
  {
    if config.maxActive == 0 {
      s := Init(config, clients);
      assert Run(s, []) == s;
    } else if clients == 1 {
      s := DeepAlone(config, n);
    } else if config.maxActive < 0 && (config.maxWaiters <= 0 || Stock(config) < config.maxWaiters) {
      s := Rush(config, clients, Stock(config));
    } else if config.maxWaiters > 0 {
      s := Rush(config, clients, config.maxWaiters - 1);
    } else {
      s := NestUpTo(config, clients, n);
    }
  }

  /** For all options and any number of callers: a number bounds Waiters over all runs if and only if
      it is at least the peak. */
  lemma {:induction false} WaitersBoundExact(config: Config, clients: nat, bound: int)
    requires clients > 0
    ensures (forall steps :: Run(Init(config, clients), steps).stats.waiters <= bound)
            <==> WaiterPeak(config, clients).Just? && bound >= WaiterPeak(config, clients).value
  {
    var peak := WaiterPeak(config, clients);
    if peak.Just? && bound >= peak.value {
      forall steps ensures Run(Init(config, clients), steps).stats.waiters <= bound {
        WaitersBounded(config, clients, steps);
      }
    } else {
      var s := WaitersReached(config, clients, if peak.Just? then peak.value else Max(bound, 0) + 1);
      var steps :| Run(Init(config, clients), steps) == s;
      assert Run(Init(config, clients), steps).stats.waiters > bound;
    }
  }
}
