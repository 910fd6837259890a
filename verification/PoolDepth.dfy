/** The most waits of one Get, and of all together, by the options and the number of callers. */
module PoolDepth {
  import opened Basics
  import opened Counting
  import opened PoolProtocol
  import opened PoolLedgers
  import opened PoolLimits
  import opened PoolNesting
  import opened PoolSolo
  import opened PoolSteps

  /** The smaller of a limit, Nothing being none, and of `cap`, when that is positive. */
  function Capped(limit: Maybe<nat>, cap: int): Maybe<nat> {
    if cap <= 0 then limit else if limit.Nothing? then Just(cap) else Just(Min(limit.value, cap))
  }

  /** The most waits that one Get can begin. */
  function Depth(config: Config, clients: nat): Maybe<nat> {
    if config.maxActive == 0 then Just(0)
    else if clients == 1 then Capped(Just(SoloDepth(config)), config.maxWaiters)
    else if config.maxActive < 0 then Capped(Just(Stock(config) + 1), config.maxWaiters)
    else Capped(Nothing, config.maxWaiters)
  }

  /** The most that Waiters can count. */
  function WaiterPeak(config: Config, clients: nat): Maybe<nat> {
    var cap := if config.maxWaiters > 0 then config.maxWaiters + clients - 1 else 0;
    if config.maxActive == 0 then Just(0)
    else if clients == 1 then Depth(config, clients)
    else if config.maxActive < 0 then Capped(Just(Stock(config) + clients), cap)
    else Capped(Nothing, cap)
  }

  /** Each of the four reasons why a Get does not go on waiting, as an invariant. */
  predicate Deepest(s: State) {
    && (s.config.maxActive == 0 ==> Deep(s, 0))
    && (s.config.maxWaiters > 0 ==> Deep(s, s.config.maxWaiters))
    && (s.config.maxActive < 0 ==> Deep(s, Stock(s.config) + 1))
    && (|s.clients| == 1 && s.config.maxActive != 0 ==> Deep(s, SoloDepth(s.config)))
  }

  ghost predicate Nesting(s: State) { Sane(s) && Spent(s) && Solo(s) && Deepest(s) }

  lemma {:induction false} DeepestStep(s: State, step: Step)
    requires Nesting(s)
    ensures Deepest(Apply(s, step))
  {
    SameShape(s, step);
    if s.config.maxActive == 0 {
      DeepStep(s, step, 0);
    }
    if s.config.maxWaiters > 0 {
      CrowdStops(s);
      DeepStep(s, step, s.config.maxWaiters);
    }
    if s.config.maxActive < 0 {
      SpentStops(s);
      DeepStep(s, step, Stock(s.config) + 1);
    }
    if |s.clients| == 1 && s.config.maxActive != 0 {
      SoloStops(s);
      DeepStep(s, step, SoloDepth(s.config));
    }
  }

  lemma {:induction false} NestingRun(s: State, steps: seq<Step>)
    requires Nesting(s)
    ensures Nesting(Run(s, steps)) && Run(s, steps).config == s.config && |Run(s, steps).clients| == |s.clients|
    decreases |steps|
  {
    if steps != [] {
      SaneStep(s, steps[0]);
      SpentStep(s, steps[0]);
      SoloStep(s, steps[0]);
      DeepestStep(s, steps[0]);
      SameShape(s, steps[0]);
      NestingRun(Apply(s, steps[0]), steps[1..]);
    }
  }

  lemma {:induction false} NestingReached(config: Config, clients: nat, steps: seq<Step>)
    ensures var s := Run(Init(config, clients), steps); Nesting(s) && s.config == config && |s.clients| == clients
  {
    SaneInit(config, clients);
    NestingRun(Init(config, clients), steps);
  }

  /** In every run no Get begins more waits than its depth, */
  lemma {:induction false} WaitsBounded(config: Config, clients: nat, steps: seq<Step>)
    ensures var s := Run(Init(config, clients), steps);
            && |s.clients| == clients
            && (Depth(config, clients).Just? ==>
                  forall t :: 0 <= t < clients ==> s.clients[t].waited <= Depth(config, clients).value)
  {
    NestingReached(config, clients, steps);
  }

  /** and Waiters stays within its peak. */
  lemma {:induction false} WaitersBounded(config: Config, clients: nat, steps: seq<Step>)
    requires clients > 0 && WaiterPeak(config, clients).Just?
    ensures Run(Init(config, clients), steps).stats.waiters <= WaiterPeak(config, clients).value
  {
    NestingReached(config, clients, steps);
    var s := Run(Init(config, clients), steps);
    if config.maxActive == 0 {
      SumZero(s.clients, Pending);
    } else if clients == 1 {
      assert s.clients == [s.clients[0]] && Sum(s.clients, Pending) == s.clients[0].pending;
    } else {
      LimitsOverrunByCallers(config, clients, steps);
      if config.maxActive < 0 {
        SpentWaiters(s);
      }
    }
  }
}
