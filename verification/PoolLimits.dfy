/** MaxActive and MaxWaiters under interleaving: how far the counts can go. */
module PoolLimits {
  import opened Basics
  import opened Counting
  import opened PoolProtocol
  import opened PoolSteps
  import opened PoolStock

  /** 1 for a client that has found room and not yet counted its new connection. */
  function Creating(x: Client): int { if x.pc.CCreate? || x.pc.CStore? || x.pc.CStats? then 1 else 0 }

  /** 1 for a client that has found MaxWaiters not reached and not yet counted itself. */
  function Entering(x: Client): int { if x.pc.CEnter? then 1 else 0 }

  /** The most connections that callers, or the initial fill, can pile up. The fill sends each
      connection to the channel, or closes it, before it creates the next. */
  function Peak(config: Config, clients: nat): int {
    var byCallers := if config.maxActive > 0 then config.maxActive + clients - 1 else 0;
    Max(Min(config.initial, config.maxIdle + 1), byCallers)
  }

  predicate TotalLimited(s: State) {
    if s.published then
      s.config.maxActive != 0 ==> s.stats.total + Sum(s.clients, Creating) <= Peak(s.config, |s.clients|)
    else
      s.stats.total + Sum(s.clients, Creating) + Max(s.filling, 0) <= Max(s.config.initial, 0)
  }

  predicate WaitersLimited(s: State) {
    s.config.maxWaiters > 0 ==>
      s.stats.waiters + Sum(s.clients, Entering) <= s.config.maxWaiters + |s.clients| - 1
  }

  predicate Limited(s: State) {
    && TotalLimited(s) && WaitersLimited(s)
    && s.stats.total == s.stats.active + s.stats.idle
  }

  lemma {:induction false} Swapped(clients: seq<Client>, t: nat, x: Client)
    requires t < |clients|
    ensures Sum(clients[t := x], Creating) == Sum(clients, Creating) - Creating(clients[t]) + Creating(x)
    ensures Sum(clients[t := x], Entering) == Sum(clients, Entering) - Entering(clients[t]) + Entering(x)
    ensures 0 <= Sum(clients, Creating) && Sum(clients[t := x], Creating) <= |clients|
    ensures 0 <= Sum(clients, Entering) && Sum(clients[t := x], Entering) <= |clients|
  {
    SumUpdate(clients, t, x, Creating);
    SumUpdate(clients, t, x, Entering);
    SumBounds(clients, Creating);
    SumBounds(clients, Entering);
    SumBounds(clients[t := x], Creating);
    SumBounds(clients[t := x], Entering);
  }

  lemma {:induction false} LimitedThink(s: State, t: nat, v: Verdict)
    requires Limited(s) && t < |s.clients| && s.stats.total >= 0
    requires !s.published ==> FillOnly(s.clients[t].pc)
    requires Moving(s.clients[t].pc) ==> s.clients[t].pc.CWait? && !v.Good?
    ensures Limited(Think(s, t, v))
  {
    Swapped(s.clients, t, Think(s, t, v).clients[t]);
  }

  lemma {:induction false} LimitedReceive(s: State, t: nat, otherwise: Pc)
    requires Limited(s) && t < |s.clients|
    requires s.clients[t].pc.GTake? || s.clients[t].pc.CWait? || s.clients[t].pc.CPoll?
    requires otherwise.CCheck? || otherwise.CWait? || otherwise.CRetry?
    ensures Limited(Receive(s, t, otherwise))
  {
    Swapped(s.clients, t, Receive(s, t, otherwise).clients[t]);
  }

  lemma {:induction false} LimitedRaw(s: State, t: nat, v: Verdict, u: nat)
    requires Limited(s) && t < |s.clients| && (s.clients[t].pc.GDrop? || s.clients[t].pc.PClose?)
    ensures Limited(MoveClient(s, t, v, u))
  {
    Swapped(s.clients, t, MoveClient(s, t, v, u).clients[t]);
  }

  lemma {:induction false} LimitedCreate(s: State, t: nat, v: Verdict, u: nat)
    requires Limited(s) && t < |s.clients| && s.clients[t].pc.CCreate?
    ensures Limited(MoveClient(s, t, v, u))
  {
    Swapped(s.clients, t, MoveClient(s, t, v, u).clients[t]);
  }

  lemma {:induction false} LimitedLeave(s: State, t: nat, v: Verdict, u: nat)
    requires Limited(s) && t < |s.clients| && (s.clients[t].pc.LeaveWith? || s.clients[t].pc.LeaveEmpty?)
    ensures Limited(MoveClient(s, t, v, u))
  {
    Swapped(s.clients, t, MoveClient(s, t, v, u).clients[t]);
  }

  lemma {:induction false} LimitedMoving(s: State, t: nat, v: Verdict, u: nat)
    requires Limited(s) && t < |s.clients|
    requires var pc := s.clients[t].pc; pc.GTake? || pc.CPoll? || (pc.CWait? && v.Good?)
    ensures Limited(MoveClient(s, t, v, u))
  {
    match s.clients[t].pc {
      case GTake => LimitedReceive(s, t, CCheck);
      case CWait => LimitedReceive(s, t, CWait);
      case CPoll(k) => LimitedReceive(s, t, CRetry(k + 1));
    }
  }

  lemma {:induction false} LimitedServe(s: State, u: nat, c: nat)
    requires Limited(s) && Waiting(s, u)
    ensures Limited(Serve(s, u, c))
  {
    Swapped(s.clients, u, s.clients[u].(pc := GGot(c)));
  }

  lemma {:induction false} LimitedServed(s: State, t: nat, v: Verdict, u: nat)
    requires Limited(s) && t < |s.clients| && s.clients[t].pc.PSend? && Waiting(s, u)
    ensures Limited(MoveClient(s, t, v, u))
  {
    var c := s.clients[t].pc.c;
    LimitedServe(s, u, c);
    Swapped(Serve(s, u, c).clients, t, s.clients[t].(pc := PSendStats));
  }

  lemma {:induction false} LimitedSend(s: State, t: nat, v: Verdict, u: nat)
    requires Limited(s) && t < |s.clients| && s.clients[t].pc.PSend? && !Waiting(s, u)
    ensures Limited(MoveClient(s, t, v, u))
  {
    Swapped(s.clients, t, MoveClient(s, t, v, u).clients[t]);
  }

  lemma {:induction false} LimitedHandOver(s: State, u: nat)
    requires Limited(s) && s.cleaner.ClGot? && Waiting(s, u)
    ensures Limited(MoveCleaner(s, Good, u))
  {
    LimitedServe(s, u, s.cleaner.c);
  }

  /** A sweep can only leave less. */
  lemma {:induction false} LimitedLess(s: State, s': State)
    requires Limited(s) && s'.clients == s.clients && s'.config == s.config
    requires s'.published == s.published && s'.filling == s.filling
    requires s'.stats.total == s'.stats.active + s'.stats.idle <= s.stats.total && s'.stats.waiters == s.stats.waiters
    ensures Limited(s')
  {}

  lemma {:induction false} LimitedCleaner(s: State, v: Verdict, u: nat)
    requires Limited(s)
    ensures Limited(MoveCleaner(s, v, u))
  {
    if s.cleaner.ClGot? && v.Good? && Waiting(s, u) {
      LimitedHandOver(s, u);
    } else {
      LimitedLess(s, MoveCleaner(s, v, u));
    }
  }

  /** During the fill, Total and a connection being created stay within MaxIdle + 1. */
  lemma {:induction false} FillStaysLow(s: State)
    requires Sound(s) && !s.published && s.clients != []
    ensures s.stats.total + Sum(s.clients, Creating) <= s.config.maxIdle + 1
  {
    var first, others := s.clients[0], s.clients[1..];
    assert s.clients == [first] + others;
    SumZero(others, Owned);
    SumZero(others, Creating);
    assert Sum(s.clients, Owned) == Owned(first) && Sum(s.clients, Creating) == Creating(first);
  }

  lemma {:induction false} LimitedPublish(s: State)
    requires Sound(s) && Limited(s)
    ensures Limited(Apply(s, Publish))
  {
    if !s.published && s.clients != [] {
      FillStaysLow(s);
    }
  }

  lemma {:induction false} LimitedStart(s: State, step: Step)
    requires Limited(s) && (step.Fill? || step.Get? || step.Put?)
    ensures Limited(Apply(s, step))
  {
    var s' := Apply(s, step);
    if s' != s {
      match step {
        case Fill => Swapped(s.clients, 0, s'.clients[0]);
        case Get(t) => Swapped(s.clients, t, s'.clients[t]);
        case Put(t, c, failed) => Swapped(s.clients, t, s'.clients[t]);
      }
    }
  }

  lemma {:induction false} LimitedPass(s: State, t: nat, to: nat, c: nat)
    requires Limited(s)
    ensures Limited(Apply(s, Pass(t, to, c)))
  {
    if Apply(s, Pass(t, to, c)) != s {
      var x, y := s.clients[t], s.clients[to];
      Swapped(s.clients, t, x.(held := x.held - {c}));
      Swapped(s.clients[t := x.(held := x.held - {c})], to, y.(held := y.held + {c}));
    }
  }

  lemma {:induction false} LimitedClient(s: State, t: nat, v: Verdict, u: nat)
    requires Sound(s) && Limited(s) && t < |s.clients|
    ensures Limited(MoveClient(s, t, v, u))
  {
    var pc := s.clients[t].pc;
    if !Moving(pc) || (pc.CWait? && !v.Good?) {
      OwnedBounds(s.clients);
      LimitedThink(s, t, v);
    } else if pc.PSend? && Waiting(s, u) {
      LimitedServed(s, t, v, u);
    } else if pc.PSend? {
      LimitedSend(s, t, v, u);
    } else if pc.GTake? || pc.CPoll? || pc.CWait? {
      LimitedMoving(s, t, v, u);
    } else if pc.CCreate? {
      LimitedCreate(s, t, v, u);
    } else if pc.LeaveWith? || pc.LeaveEmpty? {
      LimitedLeave(s, t, v, u);
    } else {
      LimitedRaw(s, t, v, u);
    }
  }

  lemma {:induction false} LimitedStep(s: State, step: Step)
    requires Sound(s) && Limited(s)
    ensures Limited(Apply(s, step))
  {
    match step {
      case Move(t, v, u) => if t < |s.clients| { LimitedClient(s, t, v, u); }
      case Sweep(v, u) => LimitedCleaner(s, v, u);
      case Publish => LimitedPublish(s);
      case Pass(t, to, c) => LimitedPass(s, t, to, c);
      case _ => LimitedStart(s, step);
    }
  }

  lemma {:induction false} LimitedRun(s: State, steps: seq<Step>)
    requires Sound(s) && Limited(s)
    ensures var s' := Run(s, steps);
            Sound(s') && Limited(s') && s'.config == s.config && |s'.clients| == |s.clients|
    decreases |steps|
  {
    if steps != [] {
      SoundStep(s, steps[0]);
      LimitedStep(s, steps[0]);
      SameShape(s, steps[0]);
      LimitedRun(Apply(s, steps[0]), steps[1..]);
    }
  }

  lemma {:induction false} LimitedInit(config: Config, clients: nat)
    ensures Limited(Init(config, clients))
  {
    var s := Init(config, clients);
    SumZero(s.clients, Creating);
    SumZero(s.clients, Entering);
  }

  /** For all options: although check and creation are separate steps, Active + Idle exceeds MaxActive
      by at most one for every caller but one, or what the fill piled up; and Waiters exceeds
      MaxWaiters by at most one for every caller but one. */
  lemma {:induction false} LimitsOverrunByCallers(config: Config, clients: nat, steps: seq<Step>)
    ensures var s := Run(Init(config, clients), steps);
            && (config.maxActive != 0 && clients > 0 ==> s.stats.active + s.stats.idle <= Peak(config, clients))
            && (config.maxWaiters > 0 ==> s.stats.waiters <= Max(config.maxWaiters, config.maxWaiters + clients - 1))
  {
    var s0 := Init(config, clients);
    SoundInit(config, clients);
    LimitedInit(config, clients);
    LimitedRun(s0, steps);
    var s := Run(s0, steps);
    SumBounds(s.clients, Creating);
    SumBounds(s.clients, Entering);
    if !s.published && clients > 0 {
      FillStaysLow(s);
    }
  }
}
