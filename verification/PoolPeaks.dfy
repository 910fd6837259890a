/** Schedules that reach the bound on Active + Idle, and the best bound. */
module PoolPeaks {
  import opened Basics
  import opened PoolCalls
  import opened PoolLedgers
  import opened PoolLimits
  import opened PoolProtocol

  /** The fill piles up min(InitialSize, MaxIdle + 1). */
  lemma {:induction false} FillPeakReached(config: Config, clients: nat) returns (s: State)
    requires clients > 0
    ensures Reached(config, clients, s) && s.stats.total >= Min(config.initial, config.maxIdle + 1)
  {
    if config.initial <= config.maxIdle {
      s := FillUp(config, clients, Max(config.initial, 0));
    } else {
      s := FillUp(config, clients, config.maxIdle);
      ReachedNext(config, clients, s, Fill);
      s := Apply(s, Fill);
      Finish(config, clients, s, 0);
      s := Created(s, 0);
    }
  }

  /** With nothing idle, the first `n` clients all decide before any of them goes on. */
  lemma {:induction false} DecideAll(config: Config, clients: nat, s: State, n: nat, pc: Pc) returns (s': State)
    requires Reached(config, clients, s) && n <= |s.clients| && s.published && s.idle == []
    requires forall t :: 0 <= t < n ==> s.clients[t].pc == Ready
    requires pc == if Room(s) then CCreate else if Crowded(s) then LeaveEmpty else CEnter
    ensures Reached(config, clients, s') && |s'.clients| == |s.clients| && s'.stats == s.stats
    ensures forall t :: 0 <= t < n ==> s'.clients[t].pc == pc
  {
    s' := s;
    var i := 0;
    while i < n
      invariant i <= n && Reached(config, clients, s') && |s'.clients| == |s.clients|
      invariant s'.stats == s.stats && s'.published && s'.idle == [] && s'.config == s.config
      invariant forall t :: 0 <= t < i ==> s'.clients[t].pc == pc
      invariant forall t :: i <= t < n ==> s'.clients[t].pc == Ready
    {
      Decide(config, clients, s', i);
      s' := Called(s', i, pc);
      i := i + 1;
    }
  }

  lemma {:induction false} FinishAll(config: Config, clients: nat, s: State, n: nat) returns (s': State)
    requires Reached(config, clients, s) && n <= |s.clients|
    requires forall t :: 0 <= t < n ==> s.clients[t].pc == CCreate
    ensures Reached(config, clients, s') && s'.stats.total == s.stats.total + n
  {
    s' := s;
    var i := 0;
    while i < n
      invariant i <= n && Reached(config, clients, s') && |s'.clients| == |s.clients|
      invariant s'.stats.total == s.stats.total + i
      invariant forall t :: i <= t < n ==> s'.clients[t].pc == CCreate
    {
      Finish(config, clients, s', i);
      s' := Created(s', i);
      i := i + 1;
    }
  }

  /** Every caller but one pushes the total one further beyond MaxActive. */
  lemma {:induction false} CallersReach(config: Config, clients: nat) returns (s: State)
    requires config.maxActive > 0 && clients > 0
    ensures Reached(config, clients, s) && s.stats.total == config.maxActive + clients - 1
  {
    s := Started(config, clients);
    s := Acquire(config, clients, s, config.maxActive - 1);
    s := DecideAll(config, clients, s, clients, CCreate);
    s := FinishAll(config, clients, s, clients);
  }

  /** Without MaxActive there is no bound. */
  lemma {:induction false} UnlimitedReaches(config: Config, clients: nat, n: nat) returns (s: State)
    requires config.maxActive == 0 && clients > 0
    ensures Reached(config, clients, s) && s.stats.total == n
  {
    s := Started(config, clients);
    s := Acquire(config, clients, s, n);
  }

  lemma {:induction false} PeakReached(config: Config, clients: nat) returns (s: State)
    requires config.maxActive != 0 && clients > 0
    ensures Reached(config, clients, s) && s.stats.total >= Peak(config, clients)
  {
    if config.maxActive > 0 && config.maxActive + clients - 1 >= Min(config.initial, config.maxIdle + 1) {
      s := CallersReach(config, clients);
    } else if Min(config.initial, config.maxIdle + 1) >= 0 {
      s := FillPeakReached(config, clients);
    } else {
      s := Started(config, clients);
    }
  }

  /** For all options: a number bounds Active + Idle over all runs if and only if MaxActive is set and
      the number is at least max(min(InitialSize, MaxIdle + 1), MaxActive + callers - 1). */
  lemma {:induction false} TotalBoundExact(config: Config, clients: nat, bound: int)
    requires clients > 0
    ensures (forall steps :: Run(Init(config, clients), steps).stats.total <= bound)
            <==> config.maxActive != 0 && bound >= Peak(config, clients)
  {
    if config.maxActive != 0 && bound >= Peak(config, clients) {
      forall steps ensures Run(Init(config, clients), steps).stats.total <= bound {
        LimitsOverrunByCallers(config, clients, steps);
        CountersExact(config, clients, steps);
      }
    } else {
      var s: State;
      if config.maxActive == 0 {
        s := UnlimitedReaches(config, clients, Max(bound, 0) + 1);
      } else {
        s := PeakReached(config, clients);
      }
      var steps :| Run(Init(config, clients), steps) == s;
      assert Run(Init(config, clients), steps).stats.total > bound;
    }
  }
}
