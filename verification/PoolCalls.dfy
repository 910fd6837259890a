/** Whole calls, put together from their steps, and the states they reach. */
module PoolCalls {
  import opened PoolPlaces
  import opened PoolProtocol
  import opened PoolRuns

  ghost predicate Reached(config: Config, clients: nat, s: State) {
    exists steps :: Run(Init(config, clients), steps) == s
  }

  lemma {:induction false} ReachedNext(config: Config, clients: nat, s: State, step: Step)
    requires Reached(config, clients, s)
    ensures Reached(config, clients, Apply(s, step))
  {
    var steps :| Run(Init(config, clients), steps) == s;
    RunAppend(Init(config, clients), steps, [step]);
    assert [step][1..] == [];
    assert Run(Apply(s, step), []) == Apply(s, step);
    assert Run(Init(config, clients), steps + [step]) == Apply(s, step);
  }

  /** Three steps, by way of two given states. */
  lemma {:induction false} ReachedThree(
    config: Config, clients: nat, s: State, x: Step, a: State, y: Step, b: State, z: Step)
    requires Reached(config, clients, s) && Apply(s, x) == a && Apply(a, y) == b
    ensures Reached(config, clients, Apply(b, z))
  {
    ReachedNext(config, clients, s, x);
    ReachedNext(config, clients, a, y);
    ReachedNext(config, clients, b, z);
  }

  /** The next operation of client `t`, when nothing goes wrong and nobody is served directly. */
  function Go(s: State, t: nat): Step { Move(t, Good, |s.clients|) }

  // ----- Whole calls -----

  /** Client `t` has called Get and reached `pc` without waiting. */
  function Called(s: State, t: nat, pc: Pc): State
    requires t < |s.clients|
  {
    s.(clients := s.clients[t := s.clients[t].(pc := pc, waited := 0, retried := 0)])
  }

  /** Client `t` finds nothing idle, and room or none. */
  lemma {:induction false} Decide(config: Config, clients: nat, s: State, t: nat)
    requires Reached(config, clients, s) && t < |s.clients| && s.published && s.idle == [] && s.clients[t].pc == Ready
    ensures var pc := if Room(s) then CCreate else if Crowded(s) then LeaveEmpty else CEnter;
            Reached(config, clients, Called(s, t, pc))
  {
    ReachedThree(config, clients, s, Get(t), Called(s, t, GTake), Go(s, t), Called(s, t, CCheck), Go(s, t));
  }

  /** A client that has decided to create a connection has done so. */
  function Created(s: State, t: nat): State
    requires t < |s.clients|
  {
    var m, c := s.stats, s.made;
    Goto(s, t, LeaveWith(c)).(
      made := c + 1, place := s.place[c := InHand(t)], activeConns := s.activeConns + {c},
      stats := m.(active := m.active + 1, total := m.total + 1, acquired := m.acquired + 1))
  }

  lemma {:induction false} Finish(config: Config, clients: nat, s: State, t: nat)
    requires Reached(config, clients, s) && t < |s.clients| && s.clients[t].pc == CCreate
    ensures Reached(config, clients, Created(s, t))
  {
    var c := s.made;
    var a := Goto(s, t, CStore(c)).(made := c + 1, place := s.place[c := InHand(t)]);
    var b := Goto(a, t, CStats(c)).(activeConns := s.activeConns + {c});
    assert Apply(s, Go(s, t)) == a;
    assert Apply(a, Go(s, t)) == b;
    ReachedThree(config, clients, s, Go(s, t), a, Go(s, t), b, Go(s, t));
    assert Apply(b, Go(s, t)) == Created(s, t);
  }

  /** A connection created by client 0 is in the possession of its program. */
  function Acquired(s: State): State
    requires s.clients != []
  {
    var x, c := s.clients[0], s.made;
    Created(s, 0).(clients := s.clients[0 := x.(pc := Ready, held := x.held + {c})],
                   place := s.place[c := AtClient(0)])
  }

  lemma {:induction false} Keep(config: Config, clients: nat, s: State)
    requires Reached(config, clients, s) && s.clients != [] && s.clients[0].pc == CCreate && s.clients[0].pending == 0
    ensures Reached(config, clients, Acquired(s))
  {
    Finish(config, clients, s, 0);
    var s1 := Created(s, 0);
    ReachedNext(config, clients, s1, Go(s, 0));
    assert s1.place[s.made := AtClient(0)] == s.place[s.made := AtClient(0)];
    assert Apply(s1, Go(s, 0)) == Acquired(s);
  }

  /** Client `t` finds nothing idle and is about to look for room. */
  lemma {:induction false} Look(config: Config, clients: nat, s: State, t: nat)
    requires Reached(config, clients, s) && t < |s.clients| && s.published && s.idle == [] && s.clients[t].pc == Ready
    ensures Reached(config, clients, Called(s, t, CCheck))
  {
    ReachedNext(config, clients, s, Get(t));
    assert Apply(s, Get(t)) == Called(s, t, GTake);
    ReachedNext(config, clients, Called(s, t, GTake), Go(s, t));
    assert Apply(Called(s, t, GTake), Go(s, t)) == Called(s, t, CCheck);
  }

  // ----- A connection comes back -----

  /** Client 0 is about to send a connection. */
  lemma {:induction false} PutOne(config: Config, clients: nat, s: State, c: nat) returns (s': State)
    requires Reached(config, clients, s) && s.clients != [] && s.clients[0].pc == Ready && c in s.clients[0].held
    ensures Reached(config, clients, s')
    ensures s' == s.(clients := s.clients[0 := s.clients[0].(pc := PSend(c), held := s.clients[0].held - {c})],
                     place := s'.place, activeConns := s'.activeConns)
  {
    var go, x := Go(s, 0), s.clients[0].(held := s.clients[0].held - {c});
    var a := s.(clients := s.clients[0 := x.(pc := PDelete(c, false))], place := s.place[c := InHand(0)]);
    var b := a.(clients := s.clients[0 := x.(pc := PCheck(c, false))], activeConns := s.activeConns - {c});
    assert Apply(s, Put(0, c, false)) == a && Apply(a, go) == b;
    ReachedThree(config, clients, s, Put(0, c, false), a, go, b, go);
    s' := Apply(b, go);
  }

  /** Client 0 has sent it. */
  function Counted(s: State): State
    requires s.clients != []
  {
    var m := s.stats;
    Goto(s, 0, Ready).(stats := m.(active := m.active - 1, idle := m.idle + 1, released := m.released + 1))
  }

  /** Client 0 sends it into the channel. */
  lemma {:induction false} SendOne(config: Config, clients: nat, s: State, c: nat) returns (s': State)
    requires Reached(config, clients, s) && s.clients != [] && s.clients[0].pc == PSend(c)
    requires |s.idle| < s.config.maxIdle
    ensures Reached(config, clients, s')
    ensures s' == Counted(s).(idle := s.idle + [c], place := s'.place)
  {
    ReachedNext(config, clients, s, Go(s, 0));
    var a := Goto(s, 0, PSendStats).(idle := s.idle + [c], place := s.place[c := InIdle]);
    assert Apply(s, Go(s, 0)) == a;
    ReachedNext(config, clients, a, Go(s, 0));
    s' := Apply(a, Go(s, 0));
  }

  // ----- The initial fill -----

  /** The fill has put `k` connections into the channel. */
  predicate Filled(s: State, config: Config, clients: nat, k: nat) {
    && !s.published && s.config == config && clients > 0 && s.clients == Init(config, clients).clients
    && s.cleaner.ClIdle? && |s.idle| == k && s.stats == Stats(0, k, k, 0, k, k) && s.filling == config.initial - k
  }

  lemma {:induction false} FillOne(config: Config, clients: nat, s: State, k: nat) returns (s': State)
    requires Reached(config, clients, s) && Filled(s, config, clients, k) && k < config.initial && k < config.maxIdle
    ensures Reached(config, clients, s') && Filled(s', config, clients, k + 1)
  {
    ReachedNext(config, clients, s, Fill);
    var a := Goto(s, 0, CCreate).(filling := s.filling - 1);
    assert Apply(s, Fill) == a;
    Keep(config, clients, a);
    s' := PutOne(config, clients, Acquired(a), s.made);
    s' := SendOne(config, clients, s', s.made);
    assert s'.clients == s.clients;
  }

  lemma {:induction false} FillUp(config: Config, clients: nat, k: nat) returns (s: State)
    requires clients > 0 && (k == 0 || (k <= config.initial && k <= config.maxIdle))
    ensures Reached(config, clients, s) && Filled(s, config, clients, k)
  {
    s := Init(config, clients);
    assert Run(s, []) == s;
    var i := 0;
    while i < k
      invariant i <= k && Reached(config, clients, s) && Filled(s, config, clients, i)
    {
      s := FillOne(config, clients, s, i);
      i := i + 1;
    }
  }

  /** The factory fails for the rest of the fill. */
  lemma {:induction false} FailRest(config: Config, clients: nat, s: State) returns (s': State)
    requires Reached(config, clients, s) && !s.published && s.clients != []
    requires s.clients[0] == Client(Ready, {}, 0, 0, 0)
    ensures Reached(config, clients, s') && s' == s.(filling := s'.filling) && s'.filling <= 0
  {
    s' := s;
    while s'.filling > 0
      invariant Reached(config, clients, s')
      invariant s' == s.(filling := s'.filling)
      decreases s'.filling
    {
      var bad, a := Move(0, Bad, 0), s'.(filling := s'.filling - 1);
      assert Apply(s', Fill) == Goto(a, 0, CCreate);
      assert Apply(Goto(a, 0, CCreate), bad) == Goto(a, 0, LeaveEmpty);
      assert Goto(a, 0, Ready) == a;
      ReachedThree(config, clients, s', Fill, Goto(a, 0, CCreate), bad, Goto(a, 0, LeaveEmpty), bad);
      s' := a;
    }
  }

  /** A published pool with `k` idle connections and nobody in a call. */
  predicate Open(s: State, config: Config, clients: nat, k: nat) {
    && s.published && s.config == config && clients > 0 && s.clients == Init(config, clients).clients
    && s.cleaner.ClIdle? && |s.idle| == k && s.stats == Stats(0, k, k, 0, k, k)
  }

  lemma {:induction false} Opened(config: Config, clients: nat, k: nat) returns (s: State)
    requires clients > 0 && (k == 0 || (k <= config.initial && k <= config.maxIdle))
    ensures Reached(config, clients, s) && Open(s, config, clients, k)
  {
    s := FillUp(config, clients, k);
    s := FailRest(config, clients, s);
    ReachedNext(config, clients, s, Publish);
    s := Apply(s, Publish);
  }

  // ----- Acquiring -----

  /** Nobody is in a call, nothing is idle, and `k` connections are counted. */
  predicate Steady(s: State, config: Config, clients: nat, k: int) {
    && s.published && s.config == config && |s.clients| == clients && clients > 0
    && s.idle == [] && s.stats.idle == 0 && s.stats.active == k && s.stats.total == k && s.stats.waiters == 0
    && forall t :: 0 <= t < clients ==> s.clients[t].pc == Ready && s.clients[t].pending == 0
  }

  lemma {:induction false} Started(config: Config, clients: nat) returns (s: State)
    requires clients > 0
    ensures Reached(config, clients, s) && Steady(s, config, clients, 0)
  {
    s := Opened(config, clients, 0);
  }

  /** Client 0 gets `n` connections, one after the other. */
  lemma {:induction false} Acquire(config: Config, clients: nat, s: State, n: nat) returns (s': State)
    requires Reached(config, clients, s) && Steady(s, config, clients, 0)
    requires n == 0 || config.maxActive == 0 || n <= config.maxActive
    ensures Reached(config, clients, s') && Steady(s', config, clients, n)
    ensures n > 0 ==> s'.clients[0].held != {}
  {
    s' := s;
    var i := 0;
    while i < n
      invariant i <= n && Reached(config, clients, s') && Steady(s', config, clients, i)
      invariant i > 0 ==> s'.clients[0].held != {}
    {
      Decide(config, clients, s', 0);
      Keep(config, clients, Called(s', 0, CCreate));
      s' := Acquired(Called(s', 0, CCreate));
      i := i + 1;
    }
  }

  // ----- Receiving -----

  /** Client `t` receives a connection and judges it. */
  function Judged(s: State, t: nat, pc: Pc): State
    requires t < |s.clients| && s.idle != []
  {
    Goto(s, t, pc).(idle := s.idle[1..], place := s.place[s.idle[0] := InHand(t)])
  }

  lemma {:induction false} Judge(config: Config, clients: nat, s: State, t: nat, v: Verdict)
    requires Reached(config, clients, s) && t < |s.clients| && s.idle != []
    requires s.clients[t].pc.GTake? || s.clients[t].pc.CWait? || s.clients[t].pc.CPoll?
    ensures Reached(config, clients, Judged(s, t, if v.Good? then GStore(s.idle[0]) else GDrop(s.idle[0])))
  {
    ReachedNext(config, clients, s, Go(s, t));
    var a := Judged(s, t, GGot(s.idle[0]));
    assert Apply(s, Go(s, t)) == a;
    ReachedNext(config, clients, a, Move(t, v, |s.clients|));
  }

  /** It is expired, and dropped. */
  lemma {:induction false} Drop(config: Config, clients: nat, s: State, t: nat) returns (s': State)
    requires Reached(config, clients, s) && t < |s.clients| && s.idle != []
    requires s.clients[t].pc.GTake? || s.clients[t].pc.CWait? || s.clients[t].pc.CPoll?
    ensures Reached(config, clients, s') && s'.config == s.config && s'.published == s.published
    ensures s'.idle == s.idle[1..] && s'.clients == s.clients[t := s.clients[t].(pc := CCheck)]
    ensures s'.stats == s.stats.(idle := s.stats.idle - 1, total := s.stats.total - 1)
  {
    Judge(config, clients, s, t, Bad);
    s' := Discount(config, clients, Judged(s, t, GDrop(s.idle[0])), t);
  }

  /** A connection found expired is closed and counted out. */
  lemma {:induction false} Discount(config: Config, clients: nat, s: State, t: nat) returns (s': State)
    requires Reached(config, clients, s) && t < |s.clients| && s.clients[t].pc.GDrop?
    ensures Reached(config, clients, s') && s'.config == s.config && s'.published == s.published
    ensures s'.idle == s.idle && s'.clients == s.clients[t := s.clients[t].(pc := CCheck)]
    ensures s'.stats == s.stats.(idle := s.stats.idle - 1, total := s.stats.total - 1)
  {
    ReachedNext(config, clients, s, Go(s, t));
    var a := CloseRaw(Goto(s, t, GDropStats), s.clients[t].pc.c);
    assert Apply(s, Go(s, t)) == a;
    ReachedNext(config, clients, a, Go(s, t));
    s' := Apply(a, Go(s, t));
  }

  /** It is fit, and client 0 gets it. */
  lemma {:induction false} Lend(config: Config, clients: nat, s: State, c: nat) returns (s': State)
    requires Reached(config, clients, s) && s.clients != []
    requires s.clients[0] == Client(GStore(c), s.clients[0].held, 0, 0, 0)
    ensures Reached(config, clients, s') && s'.config == s.config && s'.published == s.published
    ensures s'.idle == s.idle && s'.cleaner == s.cleaner
    ensures s'.clients == s.clients[0 := Client(Ready, s.clients[0].held + {c}, 0, 0, 0)]
    ensures var m := s.stats;
            s'.stats == m.(idle := m.idle - 1, active := m.active + 1, acquired := m.acquired + 1)
  {
    var go := Go(s, 0);
    var a := Goto(s, 0, GStats(c)).(activeConns := s.activeConns + {c});
    var b := Apply(a, go);
    assert Apply(s, go) == a;
    ReachedThree(config, clients, s, go, a, go, b, go);
    assert b.clients == s.clients[0 := s.clients[0].(pc := LeaveWith(c))];
    s' := Apply(b, go);
  }

  /** Nothing idle is in the program's possession. */
  lemma {:induction false} IdleIsFree(config: Config, clients: nat, s: State, t: nat)
    requires Reached(config, clients, s) && t < |s.clients| && s.idle != []
    ensures s.idle[0] !in s.clients[t].held
  {
    var steps :| Run(Init(config, clients), steps) == s;
    PlacedRun(Init(config, clients), steps);
    assert s.idle[0] in multiset(s.idle);
    assert At(s.place, s.idle[0], InIdle);
  }

  /** Client 0 holds `i` connections of a pool that opened with `k`, all others are idle. */
  predicate Borrowing(s: State, config: Config, clients: nat, k: nat, i: nat) {
    && s.published && s.config == config && |s.clients| == clients && clients > 0
    && i <= k && |s.idle| == k - i && s.stats == Stats(i, k - i, k, 0, k + i, k)
    && s.clients[0] == Client(Ready, s.clients[0].held, 0, 0, 0) && |s.clients[0].held| == i
    && forall t :: 1 <= t < clients ==> s.clients[t] == Client(Ready, {}, 0, 0, 0)
  }

  lemma {:induction false} Borrow(config: Config, clients: nat, s: State, k: nat, i: nat) returns (s': State)
    requires Reached(config, clients, s) && Borrowing(s, config, clients, k, i) && i < k
    ensures Reached(config, clients, s') && Borrowing(s', config, clients, k, i + 1) && s'.cleaner == s.cleaner
  {
    var c := s.idle[0];
    IdleIsFree(config, clients, s, 0);
    ReachedNext(config, clients, s, Get(0));
    assert Apply(s, Get(0)) == Called(s, 0, GTake);
    Judge(config, clients, Called(s, 0, GTake), 0, Good);
    s' := Lend(config, clients, Judged(Called(s, 0, GTake), 0, GStore(c)), c);
  }

  lemma {:induction false} BorrowAll(config: Config, clients: nat, s: State, k: nat, n: nat) returns (s': State)
    requires Reached(config, clients, s) && Borrowing(s, config, clients, k, 0) && n <= k
    ensures Reached(config, clients, s') && Borrowing(s', config, clients, k, n) && s'.cleaner == s.cleaner
  {
    s' := s;
    var i := 0;
    while i < n
      invariant i <= n && Reached(config, clients, s') && Borrowing(s', config, clients, k, i)
      invariant s'.cleaner == s.cleaner
    {
      s' := Borrow(config, clients, s', k, i);
      i := i + 1;
    }
  }

  // ----- Waiting -----

  /** Client `t`, which found no room, waits. */
  function Awaiting(s: State, t: nat): State
    requires t < |s.clients|
  {
    var x, m := s.clients[t], s.stats;
    s.(clients := s.clients[t := x.(pc := CWait, pending := x.pending + 1, waited := x.waited + 1)],
       stats := m.(waiters := m.waiters + 1))
  }

  lemma {:induction false} Await(config: Config, clients: nat, s: State, t: nat)
    requires Reached(config, clients, s) && t < |s.clients| && s.clients[t].pc == CCheck && !Room(s) && !Crowded(s)
    ensures Reached(config, clients, Awaiting(s, t))
  {
    ReachedNext(config, clients, s, Go(s, t));
    var a := Goto(s, t, CEnter);
    assert Apply(s, Go(s, t)) == a;
    ReachedNext(config, clients, a, Go(s, t));
    assert Apply(a, Go(s, t)) == Awaiting(s, t);
  }

  /** It times out and is about to retry. */
  function Polling(s: State, t: nat): State
    requires t < |s.clients|
  {
    s.(clients := s.clients[t := s.clients[t].(pc := CPoll(0), retried := s.clients[t].retried + 1)])
  }

  lemma {:induction false} TimeOut(config: Config, clients: nat, s: State, t: nat)
    requires Reached(config, clients, s) && t < |s.clients| && s.clients[t].pc == CWait && !Room(s)
    requires s.config.maxRetries > 0
    ensures Reached(config, clients, Polling(s, t))
  {
    var late := Move(t, Bad, |s.clients|);
    ReachedNext(config, clients, s, late);
    var a := Goto(s, t, CRetry(0));
    assert Apply(s, late) == a;
    ReachedNext(config, clients, a, Go(s, t));
    assert Apply(a, Go(s, t)) == Polling(s, t);
  }

  /** It has failed `k` retries. */
  function Retrying(s: State, t: nat, k: nat): State
    requires t < |s.clients|
  {
    s.(clients := s.clients[t := s.clients[t].(pc := CRetry(k), retried := s.clients[t].retried + k)])
  }

  lemma {:induction false} OneRetry(config: Config, clients: nat, s: State, t: nat, k: nat)
    requires t < |s.clients| && Reached(config, clients, Retrying(s, t, k))
    requires s.idle == [] && !Room(s) && k < s.config.maxRetries
    ensures Reached(config, clients, Retrying(s, t, k + 1))
  {
    var a := Retrying(s, t, k);
    var x := s.clients[t];
    ReachedNext(config, clients, a, Go(s, t));
    var b := s.(clients := s.clients[t := x.(pc := CPoll(k), retried := x.retried + k + 1)]);
    assert Apply(a, Go(s, t)) == b;
    ReachedNext(config, clients, b, Go(s, t));
    assert Apply(b, Go(s, t)) == Retrying(s, t, k + 1);
  }

  /** With nothing idle and no room, all retries of a wait fail. */
  lemma {:induction false} AllRetriesFail(config: Config, clients: nat, s: State, t: nat)
    requires Reached(config, clients, s) && t < |s.clients| && s.clients[t].pc == CWait && s.idle == [] && !Room(s)
    requires s.config.maxRetries >= 0
    ensures Reached(config, clients, Retrying(s, t, s.config.maxRetries))
  {
    ReachedNext(config, clients, s, Move(t, Bad, |s.clients|));
    assert Apply(s, Move(t, Bad, |s.clients|)) == Retrying(s, t, 0);
    var k := 0;
    while k < s.config.maxRetries
      invariant 0 <= k <= s.config.maxRetries && Reached(config, clients, Retrying(s, t, k))
    {
      OneRetry(config, clients, s, t, k);
      k := k + 1;
    }
  }
}
