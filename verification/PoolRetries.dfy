/** How often one Get retries after its timeouts. */
module PoolRetries {
  import opened Basics
  import opened PoolCalls
  import opened PoolDepth
  import opened PoolNesting
  import opened PoolPlaces
  import opened PoolProtocol
  import opened PoolSolo
  import opened PoolSteps
  import opened PoolWaiters

  /** `waits` times MaxRetries. */
  function Quota(maxRetries: int, waits: nat): nat {
    if waits == 0 then 0 else Quota(maxRetries, waits - 1) + Max(maxRetries, 0)
  }

  lemma {:induction false} QuotaIsProduct(maxRetries: int, waits: nat)
    ensures Quota(maxRetries, waits) == waits * Max(maxRetries, 0)
  {
    if waits > 0 {
      QuotaIsProduct(maxRetries, waits - 1);
    }
  }

  /** A client has used no more than the quota of its waits; in a wait or on retry `k` of it, no more
      than the quota of the waits before and the retries of this one. */
  predicate TriesFit(x: Client, maxRetries: int) {
    match x.pc
    case CWait => x.waited > 0 && x.retried <= Quota(maxRetries, x.waited - 1)
    case CRetry(k) =>
      x.waited > 0 && 0 <= k <= Max(maxRetries, 0) && x.retried <= Quota(maxRetries, x.waited - 1) + k
    case CPoll(k) => x.waited > 0 && 0 <= k < maxRetries && x.retried <= Quota(maxRetries, x.waited - 1) + k + 1
    case _ => x.retried <= Quota(maxRetries, x.waited)
  }

  predicate AllFit(s: State) {
    forall t :: 0 <= t < |s.clients| ==> TriesFit(s.clients[t], s.config.maxRetries)
  }

  lemma {:induction false} TriesEvolves(s: State, x: Client, y: Client)
    requires TriesFit(x, s.config.maxRetries) && Evolves(s, x, y)
    ensures TriesFit(y, s.config.maxRetries)
  {
    if x.waited > 0 {
      var m := s.config.maxRetries;
      assert Quota(m, x.waited) == Quota(m, x.waited - 1) + Max(m, 0);
    }
  }

  lemma {:induction false} TriesStep(s: State, step: Step)
    requires AllFit(s)
    ensures AllFit(Apply(s, step))
  {
    var s' := Apply(s, step);
    SameShape(s, step);
    forall t | 0 <= t < |s'.clients| ensures TriesFit(s'.clients[t], s'.config.maxRetries) {
      Evolve(s, step, t);
      TriesEvolves(s, s.clients[t], s'.clients[t]);
    }
  }

  lemma {:induction false} TriesRun(s: State, steps: seq<Step>)
    requires AllFit(s)
    ensures AllFit(Run(s, steps)) && Run(s, steps).config == s.config && |Run(s, steps).clients| == |s.clients|
    decreases |steps|
  {
    if steps != [] {
      TriesStep(s, steps[0]);
      SameShape(s, steps[0]);
      TriesRun(Apply(s, steps[0]), steps[1..]);
    }
  }

  /** In every run, one Get retries at most MaxRetries times for every wait it has begun. */
  lemma {:induction false} RetriesBounded(config: Config, clients: nat, steps: seq<Step>)
    ensures var s := Run(Init(config, clients), steps);
            forall t :: 0 <= t < |s.clients| ==>
              s.clients[t].retried <= s.clients[t].waited * Max(config.maxRetries, 0)
  {
    TriesRun(Init(config, clients), steps);
    var s := Run(Init(config, clients), steps);
    forall t | 0 <= t < |s.clients|
      ensures s.clients[t].retried <= s.clients[t].waited * Max(config.maxRetries, 0)
    {
      var x := s.clients[t];
      QuotaIsProduct(config.maxRetries, x.waited);
      assert TriesFit(x, config.maxRetries);
    }
  }

  // ----- Without a channel no retry receives anything -----

  /** A Get that has retried and still looks for room is in the retries of its last wait. */
  predicate LastWait(x: Client, maxRetries: int) {
    match x.pc
    case CRetry(k) => 0 <= x.retried <= k <= Max(maxRetries, 0)
    case CPoll(k) => x.retried <= k + 1 <= maxRetries
    case _ => x.retried <= if Looking(x.pc) then 0 else Max(maxRetries, 0)
  }

  lemma {:induction false} LastEvolves(s: State, x: Client, y: Client)
    requires LastWait(x, s.config.maxRetries) && Evolves(s, x, y) && s.idle == []
    ensures LastWait(y, s.config.maxRetries)
  {}

  predicate AllLast(s: State) {
    forall t :: 0 <= t < |s.clients| ==> LastWait(s.clients[t], s.config.maxRetries)
  }

  lemma {:induction false} LastStep(s: State, step: Step)
    requires AllLast(s) && s.idle == []
    ensures AllLast(Apply(s, step))
  {
    var s' := Apply(s, step);
    SameShape(s, step);
    forall t | 0 <= t < |s'.clients| ensures LastWait(s'.clients[t], s'.config.maxRetries) {
      Evolve(s, step, t);
      LastEvolves(s, s.clients[t], s'.clients[t]);
    }
  }

  lemma {:induction false} LastRun(s: State, steps: seq<Step>)
    requires AllLast(s) && Placed(s) && s.config.maxIdle == 0
    ensures AllLast(Run(s, steps)) && Run(s, steps).config == s.config && |Run(s, steps).clients| == |s.clients|
    decreases |steps|
  {
    if steps != [] {
      PlacedStep(s, steps[0]);
      LastStep(s, steps[0]);
      SameShape(s, steps[0]);
      LastRun(Apply(s, steps[0]), steps[1..]);
    }
  }

  // ----- A second wait after a retry -----

  /** Client `t` is in a second wait with a retry behind it, and there is nothing to be had. */
  predicate Again(s: State, config: Config, clients: nat, t: nat) {
    && s.config == config && |s.clients| == clients && t < clients && s.idle == [] && !Room(s)
    && s.clients[t].pc == CWait && s.clients[t].waited == 2 && s.clients[t].retried == 1
  }

  /** Client 1, on its first retry, receives an expired connection that client 0 has just put back. */
  lemma {:induction false} PollExpired(config: Config, clients: nat, s: State, c: nat) returns (s': State)
    requires Reached(config, clients, s) && |s.clients| >= 2 && s.clients[0].pc == Ready && c in s.clients[0].held
    requires s.idle == [] && s.clients[1].pc == CPoll(0) && s.config.maxIdle > 0
    ensures Reached(config, clients, s') && s'.config == s.config && s'.published == s.published && s'.idle == []
    ensures var x, y := s.clients[0], s.clients[1];
            s'.clients == s.clients[0 := x.(held := x.held - {c})][1 := y.(pc := CCheck)]
    ensures s'.stats.idle == s.stats.idle && s'.stats.active == s.stats.active - 1
    ensures s'.stats.total == s.stats.total - 1 && s'.stats.waiters == s.stats.waiters
  {
    var a := PutOne(config, clients, s, c);
    a := SendOne(config, clients, a, c);
    s' := Drop(config, clients, a, 1);
  }

  /** Client `t` has received an expired connection on its first retry and finds no room. */
  predicate Worse(s: State, config: Config, clients: nat, t: nat) {
    && s.config == config && |s.clients| == clients && t < clients && s.idle == [] && !Room(s) && !Crowded(s)
    && s.clients[t].pc == CCheck && s.clients[t].waited == 1 && s.clients[t].retried == 1
  }

  lemma {:induction false} WaitsAgain(config: Config, clients: nat, s: State, t: nat) returns (s': State)
    requires Reached(config, clients, s) && Worse(s, config, clients, t)
    ensures Reached(config, clients, s') && Again(s', config, clients, t)
  {
    Await(config, clients, s, t);
    s' := Awaiting(s, t);
  }

  /** Client `t` waits, times out, and is about to retry for the first time. */
  lemma {:induction false} FirstRetry(config: Config, clients: nat, s: State, t: nat) returns (s': State)
    requires Reached(config, clients, s) && t < |s.clients| && s.clients[t].pc == CCheck && !Room(s) && !Crowded(s)
    requires s.config.maxRetries > 0
    ensures Reached(config, clients, s') && s' == Polling(Awaiting(s, t), t)
  {
    Await(config, clients, s, t);
    TimeOut(config, clients, Awaiting(s, t), t);
    s' := Polling(Awaiting(s, t), t);
  }

  /** Client 1 waits, and on its first retry receives an expired connection. */
  lemma {:induction false} ExpiredRetry(config: Config, clients: nat, s: State, spare: nat) returns (s': State)
    requires Reached(config, clients, s) && Nested(s, config, clients, 0, spare) && spare > 0
    requires config.maxRetries > 0 && config.maxIdle > 0 && !Crowded(s)
    ensures Reached(config, clients, s') && s'.config == config && s'.published && s'.idle == []
    ensures |s'.clients| == clients && s'.stats.idle == 0 && s'.stats.waiters == 1
    ensures s'.stats.active == s'.stats.total == s.stats.total - 1
    ensures var y := s'.clients[1]; y.pc == CCheck && y.waited == 1 && y.retried == 1
    ensures |s'.clients[0].held| == |s.clients[0].held| - 1 && s'.clients[0].pending == 0
    ensures forall t :: 0 <= t < clients && t != 1 ==> s'.clients[t].pc == Ready
  {
    var c: nat :| c in s.clients[0].held;
    s' := FirstRetry(config, clients, s, 1);
    s' := PollExpired(config, clients, s', c);
    assert |s.clients[0].held - {c}| == |s.clients[0].held| - 1;
  }

  /** With other callers: client 0 gives client 1 an expired connection and takes the room. */
  lemma {:induction false} WorseShared(config: Config, clients: nat) returns (s: State)
    requires clients >= 2 && (config.maxActive > 0 || (config.maxActive < 0 && Stock(config) > 0))
    requires config.maxRetries > 0 && config.maxIdle > 0 && config.maxWaiters != 1
    ensures Reached(config, clients, s) && Worse(s, config, clients, 1)
  {
    var spare := if config.maxActive > 0 then 1 else Stock(config);
    s := NestStart(config, clients);
    s := ExpiredRetry(config, clients, s, spare);
    s := Refill(config, clients, s, 1, spare);
  }

  /** Alone, with two connections or more beyond MaxActive: the connection comes from the channel. */
  lemma {:induction false} WorseIdle(config: Config) returns (s: State)
    requires config.maxActive != 0 && Stock(config) >= Floor(config) + 2
    requires config.maxRetries > 0 && config.maxWaiters != 1
    ensures Reached(config, 1, s) && Worse(s, config, 1, 0)
  {
    s := DrainStart(config, 2);
    s := FirstRetry(config, 1, s, 0);
    s := Drop(config, 1, s, 0);
  }

  /** With one: from the cleaner. */
  lemma {:induction false} WorseHeld(config: Config) returns (s: State)
    requires config.maxActive != 0 && Stock(config) == Floor(config) + 1 && Stock(config) > config.minEvictable
    requires config.maxRetries > 0 && config.maxWaiters != 1
    ensures Reached(config, 1, s) && Worse(s, config, 1, 0)
  {
    s := HeldStart(config);
    s := FirstRetry(config, 1, s, 0);
    s := CleanerReturns(config, s);
    s := Drop(config, 1, s, 0);
  }

  /** The options under which no Get can retry more than MaxRetries times: nothing is ever retried, no
      retry can receive, the crowd stops a second wait, or no expired connection can come to a
      caller that is left without room by dropping it. */
  predicate Careful(config: Config, clients: nat) {
    || config.maxRetries <= 0 || config.maxActive == 0 || config.maxIdle == 0 || config.maxWaiters == 1
    || (clients >= 2 && config.maxActive < 0 && config.initial <= 0)
    || (clients == 1 && Stock(config) <= Floor(config))
    || (clients == 1 && Stock(config) == Floor(config) + 1 <= config.minEvictable)
  }

  predicate RetriesWithin(config: Config, clients: nat, steps: seq<Step>, t: nat, bound: int) {
    var s := Run(Init(config, clients), steps);
    t < |s.clients| ==> s.clients[t].retried <= bound
  }

  lemma {:induction false} CarefulRetries(config: Config, clients: nat, steps: seq<Step>, t: nat)
    requires Careful(config, clients) && t < clients
    ensures RetriesWithin(config, clients, steps, t, Max(config.maxRetries, 0))
  {
    if config.maxIdle == 0 {
      LastRun(Init(config, clients), steps);
    } else {
      RetriesBounded(config, clients, steps);
      WaitsBounded(config, clients, steps);
    }
  }

  /** One retry more than MaxRetries. */
  lemma {:induction false} TooManyRetries(config: Config, clients: nat) returns (steps: seq<Step>, t: nat)
    requires clients > 0 && !Careful(config, clients)
    ensures t < clients && |Run(Init(config, clients), steps).clients| == clients
    ensures Run(Init(config, clients), steps).clients[t].retried == config.maxRetries + 1
  {
    var s: State;
    if clients >= 2 {
      t := 1;
      s := WorseShared(config, clients);
    } else {
      t := 0;
      if Stock(config) >= Floor(config) + 2 {
        s := WorseIdle(config);
      } else {
        s := WorseHeld(config);
      }
    }
    s := WaitsAgain(config, clients, s, t);
    AllRetriesFail(config, clients, s, t);
    steps :| Run(Init(config, clients), steps) == Retrying(s, t, config.maxRetries);
  }

  /** For all options and any number of callers: every Get stays within MaxRetries retries in all runs
      if and only if the options are careful. */
  lemma {:induction false} RetriesExact(config: Config, clients: nat)
    requires clients > 0
    ensures (forall steps, t: nat | t < clients ::
               RetriesWithin(config, clients, steps, t, Max(config.maxRetries, 0)))
            <==> Careful(config, clients)
  {
    if Careful(config, clients) {
      forall steps, t: nat | t < clients
        ensures RetriesWithin(config, clients, steps, t, Max(config.maxRetries, 0))
      {
        CarefulRetries(config, clients, steps, t);
      }
    } else {
      var steps, t := TooManyRetries(config, clients);
      assert !RetriesWithin(config, clients, steps, t, Max(config.maxRetries, 0));
    }
  }
}
