/** How many waits one Get can nest: a drop of an expired connection may begin another. */
module PoolNesting {
  import opened Basics
  import opened Counting
  import opened PoolProtocol
  import opened PoolLedgers
  import opened PoolLimits
  import opened PoolSteps
  import opened PoolStock

  // ----- One Get -----

  /** A Get has begun at most `d` waits, and fewer when it is about to begin one. */
  predicate DeepOne(x: Client, d: nat) { x.waited <= d && (x.pc.CEnter? ==> x.waited < d) }

  predicate Deep(s: State, d: nat) {
    forall t :: 0 <= t < |s.clients| ==> DeepOne(s.clients[t], d)
  }

  /** Whoever finds neither room nor a crowd has begun fewer than `d` waits. */
  predicate Shallow(s: State, d: nat) {
    !Room(s) && !Crowded(s) ==> forall t :: 0 <= t < |s.clients| && s.clients[t].pc.CCheck? ==> s.clients[t].waited < d
  }

  lemma {:induction false} DeepEvolves(s: State, x: Client, y: Client, d: nat)
    requires DeepOne(x, d) && Evolves(s, x, y) && (x.pc.CCheck? && !Room(s) && !Crowded(s) ==> x.waited < d)
    ensures DeepOne(y, d)
  {}

  lemma {:induction false} DeepStep(s: State, step: Step, d: nat)
    requires Deep(s, d) && Shallow(s, d)
    ensures Deep(Apply(s, step), d)
  {
    var s' := Apply(s, step);
    SameShape(s, step);
    forall t | 0 <= t < |s'.clients| ensures DeepOne(s'.clients[t], d) {
      Evolve(s, step, t);
      DeepEvolves(s, s.clients[t], s'.clients[t], d);
    }
  }

  /** The invariants of the other parts, for every run. */
  ghost predicate Sane(s: State) { Ledger(s) && Sound(s) && Limited(s) && Paired(s) }

  lemma {:induction false} SaneStep(s: State, step: Step)
    requires Sane(s)
    ensures Sane(Apply(s, step))
  {
    LedgerStep(s, step);
    SoundStep(s, step);
    LimitedStep(s, step);
    PairedStep(s, step);
  }

  lemma {:induction false} SaneInit(config: Config, clients: nat)
    ensures Sane(Init(config, clients))
  {
    InitLedger(config, clients);
    SoundInit(config, clients);
    LimitedInit(config, clients);
  }

  lemma {:induction false} PendingPart(s: State, t: nat)
    requires t < |s.clients|
    ensures s.clients[t].pending <= Sum(s.clients, Pending)
  {
    SumPart(s.clients, t, Pending);
  }

  /** With MaxWaiters set, a Get that has filled the crowd by itself does not wait again. */
  lemma {:induction false} CrowdStops(s: State)
    requires Sane(s) && s.config.maxWaiters > 0
    ensures Shallow(s, s.config.maxWaiters)
  {
    forall t | 0 <= t < |s.clients| && s.clients[t].pc.CCheck? && !Crowded(s)
      ensures s.clients[t].waited < s.config.maxWaiters
    {
      PendingPart(s, t);
    }
  }

  // ----- No new connections: MaxActive is negative -----

  /** The connections the initial fill can leave in the channel. */
  function Stock(config: Config): nat { Max(Min(config.initial, config.maxIdle), 0) }

  /** How many dropped connections the waits of a Get have taken. */
  function Excess(x: Client): int {
    if x.pc.CCheck? || x.pc.CEnter? then x.pending else Max(x.pending - 1, 0)
  }

  /** Every further wait has cost one of the connections of the fill. */
  predicate Spent(s: State) {
    s.published && s.config.maxActive < 0 ==>
      && (forall t :: 0 <= t < |s.clients| ==> Creating(s.clients[t]) == 0)
      && s.stats.total + Sum(s.clients, Excess) <= Stock(s.config)
  }

  lemma {:induction false} ExcessEvolves(s: State, x: Client, y: Client)
    requires PairedOne(x, s.published) && Evolves(s, x, y) && Creating(x) == 0 && s.published && !Room(s)
    ensures Creating(y) == 0 && Excess(y) <= Excess(x) + if x.pc.GDropStats? && y.pc.CCheck? then 1 else 0
  {}

  /** Moving a connection does not count it, and is no business of the cleaner. */
  lemma {:induction false} TotalMoving(s: State, t: nat, v: Verdict, u: nat)
    requires t < |s.clients| && Moving(s.clients[t].pc) && !(s.clients[t].pc.CWait? && !v.Good?)
    ensures var s' := MoveClient(s, t, v, u);
            && s'.stats.total == s.stats.total && s'.cleaner == s.cleaner
            && s'.published == s.published && s'.config == s.config && |s'.clients| == |s.clients|
  {
    var pc := s.clients[t].pc;
    if pc.GTake? || pc.CPoll? || pc.CWait? {
      TotalTry(s, t, v, u);
    }
  }

  lemma {:induction false} TotalTry(s: State, t: nat, v: Verdict, u: nat)
    requires t < |s.clients|
    requires var pc := s.clients[t].pc; pc.GTake? || pc.CPoll? || (pc.CWait? && v.Good?)
    ensures var s' := MoveClient(s, t, v, u);
            && s'.stats.total == s.stats.total && s'.cleaner == s.cleaner
            && s'.published == s.published && s'.config == s.config && |s'.clients| == |s.clients|
  {}

  lemma {:induction false} TotalSweep(s: State, v: Verdict, u: nat)
    ensures MoveCleaner(s, v, u).stats.total <= s.stats.total
  {}

  /** Only a new connection adds to Total. */
  lemma {:induction false} TotalFalls(s: State, step: Step)
    requires forall t :: 0 <= t < |s.clients| ==> Creating(s.clients[t]) == 0
    ensures Apply(s, step).stats.total <= s.stats.total
  {
    if step.Move? && step.t < |s.clients| {
      if Moving(s.clients[step.t].pc) && !(s.clients[step.t].pc.CWait? && !step.v.Good?) {
        TotalMoving(s, step.t, step.v, step.u);
      } else {
        assert MoveClient(s, step.t, step.v, step.u) == Think(s, step.t, step.v);
      }
    } else if step.Sweep? {
      TotalSweep(s, step.v, step.u);
    }
  }

  lemma {:induction false} NeverRoom(s: State)
    requires Sane(s) && s.config.maxActive < 0
    ensures !Room(s) && s.stats.total >= 0
  {
    OwnedBounds(s.clients);
  }

  /** A drop, counted. */
  lemma {:induction false} SpentDrop(s: State, t: nat, v: Verdict)
    requires Sane(s) && Spent(s) && t < |s.clients| && s.clients[t].pc.GDropStats?
    ensures Spent(Think(s, t, v))
  {
    var y := Advanced(s, s.clients[t], v);
    SumUpdate(s.clients, t, y, Excess);
  }

  /** No other step takes a connection for a wait. */
  lemma {:induction false} ExcessStays(s: State, step: Step, t: nat)
    requires Sane(s) && Spent(s) && s.published && s.config.maxActive < 0 && t < |s.clients|
    requires !(step.Move? && step.t < |s.clients| && s.clients[step.t].pc.GDropStats?)
    ensures |Apply(s, step).clients| == |s.clients|
    ensures var y := Apply(s, step).clients[t]; Creating(y) == 0 && Excess(y) <= Excess(s.clients[t])
  {
    NeverRoom(s);
    if s.clients[t].pc.GDropStats? {
      Elsewhere(s, step, t);
    } else {
      Evolve(s, step, t);
      ExcessEvolves(s, s.clients[t], Apply(s, step).clients[t]);
    }
  }

  lemma {:induction false} SpentOther(s: State, step: Step)
    requires Sane(s) && Spent(s) && s.published && s.config.maxActive < 0
    requires !(step.Move? && step.t < |s.clients| && s.clients[step.t].pc.GDropStats?)
    ensures Spent(Apply(s, step))
  {
    var s' := Apply(s, step);
    SameShape(s, step);
    forall t | 0 <= t < |s.clients|
      ensures Excess(s'.clients[t]) <= Excess(s.clients[t]) && Creating(s'.clients[t]) == 0
    {
      ExcessStays(s, step, t);
    }
    SumFalls(s.clients, s'.clients, Excess);
    TotalFalls(s, step);
  }

  /** When the pool is published nobody is in a call, and the channel holds what the fill left. */
  lemma {:induction false} SpentPublish(s: State)
    requires Sane(s) && !s.published
    ensures Spent(Apply(s, Publish))
  {
    if Apply(s, Publish) != s {
      SumZero(s.clients, Owned);
      SumZero(s.clients, Creating);
      SumZero(s.clients, Excess);
    }
  }

  lemma {:induction false} NotPublished(s: State, step: Step)
    requires !s.published && !step.Publish?
    ensures !Apply(s, step).published
  {}

  lemma {:induction false} SpentStep(s: State, step: Step)
    requires Sane(s) && Spent(s)
    ensures Spent(Apply(s, step))
  {
    if !s.published {
      if step.Publish? {
        SpentPublish(s);
      } else {
        NotPublished(s, step);
      }
    } else if s.config.maxActive >= 0 {
      SameShape(s, step);
    } else if step.Move? && step.t < |s.clients| && s.clients[step.t].pc.GDropStats? {
      SpentDrop(s, step.t, step.v);
    } else {
      SpentOther(s, step);
    }
  }

  /** So a Get begins at most one wait more than the fill left connections, */
  lemma {:induction false} SpentStops(s: State)
    requires Sane(s) && Spent(s) && s.config.maxActive < 0
    ensures Shallow(s, Stock(s.config) + 1)
  {
    NeverRoom(s);
    forall t | 0 <= t < |s.clients| && s.clients[t].pc.CCheck?
      ensures s.clients[t].waited < Stock(s.config) + 1
    {
      if s.published {
        SumPart(s.clients, t, Excess);
      }
    }
  }

  /** and all Gets together at most one each more than that. */
  lemma {:induction false} SpentWaiters(s: State)
    requires Sane(s) && Spent(s) && s.config.maxActive < 0
    ensures s.stats.waiters <= Stock(s.config) + |s.clients|
  {
    NeverRoom(s);
    if s.published {
      SumOneApart(s.clients, Pending, Excess);
    } else {
      SumZero(s.clients, Pending);
    }
  }
}
