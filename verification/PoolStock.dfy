/** Total, connection by connection, and how little of it the initial fill can pile up. */
module PoolStock {
  import opened Counting
  import opened PoolProtocol
  import opened PoolPlaces

  /** 1 for a client whose hand holds a connection that Total counts and the channel does not hold. */
  function Carrying(pc: Pc): int {
    match pc
    case GGot(_) => 1
    case GDrop(_) => 1
    case GDropStats => 1
    case GStore(_) => 1
    case GStats(_) => 1
    case LeaveWith(_) => 1
    case PDelete(_, _) => 1
    case PCheck(_, _) => 1
    case PClose(_) => 1
    case PCloseStats => 1
    case PSend(_) => 1
    case _ => 0
  }

  function Owned(x: Client): int { |x.held| + Carrying(x.pc) }

  function Sweeping(cl: Cleaner): int { if cl.ClGot? || cl.ClDrop? then 1 else 0 }

  /** Total is what lies in the channel, what clients hold or have in hand, and what the cleaner has
      not yet judged or not yet discounted. */
  predicate Stocked(s: State) {
    && s.stats.total == s.stats.active + s.stats.idle
    && s.stats.total == |s.idle| + Sum(s.clients, Owned) + Sweeping(s.cleaner)
  }

  lemma {:induction false} OwnedBounds(clients: seq<Client>)
    ensures Sum(clients, Owned) >= 0
  {
    if clients != [] {
      OwnedBounds(clients[1..]);
    }
  }

  // ----- Steps -----

  /** What an operation counts is what it changes in the client's hand. */
  lemma {:induction false} OwnedNext(s: State, x: Client, v: Verdict)
    requires Moving(x.pc) ==> x.pc.CWait?
    ensures var m, m' := s.stats, StatsAfter(s.stats, x.pc);
            && Owned(Advanced(s, x, v)) - Owned(x) == m'.total - m.total
            && m'.total - m.total == (m'.active + m'.idle) - (m.active + m.idle)
  {}

  lemma {:induction false} StockThink(s: State, t: nat, v: Verdict, u: nat)
    requires Stocked(s) && t < |s.clients|
    requires Moving(s.clients[t].pc) ==> s.clients[t].pc.CWait? && !v.Good?
    ensures Stocked(MoveClient(s, t, v, u))
  {
    OwnedNext(s, s.clients[t], v);
    SumUpdate(s.clients, t, Advanced(s, s.clients[t], v), Owned);
    assert MoveClient(s, t, v, u) == Think(s, t, v);
  }

  lemma {:induction false} StockReceive(s: State, t: nat, otherwise: Pc)
    requires Stocked(s) && t < |s.clients| && Carrying(s.clients[t].pc) == Carrying(otherwise) == 0
    ensures Stocked(Receive(s, t, otherwise))
  {
    SumUpdate(s.clients, t, Receive(s, t, otherwise).clients[t], Owned);
  }

  lemma {:induction false} StockTry(s: State, t: nat, v: Verdict, u: nat)
    requires Stocked(s) && t < |s.clients|
    requires var pc := s.clients[t].pc; pc.GTake? || pc.CPoll? || (pc.CWait? && v.Good?)
    ensures Stocked(MoveClient(s, t, v, u))
  {
    match s.clients[t].pc {
      case GTake => StockReceive(s, t, CCheck);
      case CWait => StockReceive(s, t, CWait);
      case CPoll(k) => StockReceive(s, t, CRetry(k + 1));
    }
  }

  lemma {:induction false} StockRaw(s: State, t: nat, v: Verdict, u: nat)
    requires Stocked(s) && t < |s.clients|
    requires var pc := s.clients[t].pc; pc.GDrop? || pc.PClose? || pc.CCreate?
    ensures Stocked(MoveClient(s, t, v, u))
  {
    SumUpdate(s.clients, t, MoveClient(s, t, v, u).clients[t], Owned);
  }

  /** What is in a client's hand is not yet in its possession. */
  lemma {:induction false} HandIsFree(s: State, t: nat)
    requires Placed(s) && t < |s.clients| && s.clients[t].pc.LeaveWith?
    ensures s.clients[t].pc.c !in s.clients[t].held
  {
    assert At(s.place, Hand(s.clients[t].pc), InHand(t));
  }

  lemma {:induction false} StockLeave(s: State, t: nat, v: Verdict, u: nat)
    requires Stocked(s) && t < |s.clients| && (s.clients[t].pc.LeaveWith? || s.clients[t].pc.LeaveEmpty?)
    requires s.clients[t].pc.LeaveWith? ==> s.clients[t].pc.c !in s.clients[t].held
    ensures Stocked(MoveClient(s, t, v, u))
  {
    var x, y := s.clients[t], Leave(s, t).clients[t];
    if x.pc.LeaveWith? {
      assert |x.held + {x.pc.c}| == |x.held| + 1;
    }
    assert Owned(y) == Owned(x);
    SumUpdate(s.clients, t, y, Owned);
  }

  lemma {:induction false} StockServe(s: State, u: nat, c: nat)
    requires Waiting(s, u)
    ensures Sum(Serve(s, u, c).clients, Owned) == Sum(s.clients, Owned) + 1
  {
    SumUpdate(s.clients, u, s.clients[u].(pc := GGot(c)), Owned);
  }

  lemma {:induction false} StockServed(s: State, t: nat, v: Verdict, u: nat)
    requires Stocked(s) && t < |s.clients| && s.clients[t].pc.PSend? && Waiting(s, u)
    ensures Stocked(MoveClient(s, t, v, u))
  {
    var c := s.clients[t].pc.c;
    StockServe(s, u, c);
    SumUpdate(Serve(s, u, c).clients, t, s.clients[t].(pc := PSendStats), Owned);
  }

  lemma {:induction false} StockSend(s: State, t: nat, v: Verdict, u: nat)
    requires Stocked(s) && t < |s.clients| && s.clients[t].pc.PSend? && !Waiting(s, u)
    ensures Stocked(MoveClient(s, t, v, u))
  {
    SumUpdate(s.clients, t, MoveClient(s, t, v, u).clients[t], Owned);
  }

  lemma {:induction false} StockClient(s: State, t: nat, v: Verdict, u: nat)
    requires Placed(s) && Stocked(s) && t < |s.clients|
    ensures Stocked(MoveClient(s, t, v, u))
  {
    var pc := s.clients[t].pc;
    if !Moving(pc) || (pc.CWait? && !v.Good?) {
      StockThink(s, t, v, u);
    } else if pc.PSend? && Waiting(s, u) {
      StockServed(s, t, v, u);
    } else if pc.PSend? {
      StockSend(s, t, v, u);
    } else if pc.LeaveWith? {
      HandIsFree(s, t);
      StockLeave(s, t, v, u);
    } else if pc.LeaveEmpty? {
      StockLeave(s, t, v, u);
    } else if pc.GTake? || pc.CPoll? || pc.CWait? {
      StockTry(s, t, v, u);
    } else {
      StockRaw(s, t, v, u);
    }
  }

  lemma {:induction false} StockCleaner(s: State, v: Verdict, u: nat)
    requires Stocked(s)
    ensures Stocked(MoveCleaner(s, v, u))
  {
    if s.cleaner.ClGot? && v.Good? && Waiting(s, u) {
      StockServe(s, u, s.cleaner.c);
    }
  }

  lemma {:induction false} StockStart(s: State, step: Step)
    requires Stocked(s) && (step.Fill? || step.Get? || step.Publish?)
    ensures Stocked(Apply(s, step))
  {
    var s' := Apply(s, step);
    if step.Fill? && s' != s {
      SumUpdate(s.clients, 0, s'.clients[0], Owned);
    } else if step.Get? && s' != s {
      SumUpdate(s.clients, step.t, s'.clients[step.t], Owned);
    }
  }

  lemma {:induction false} StockPut(s: State, t: nat, c: nat, failed: bool)
    requires Stocked(s)
    ensures Stocked(Apply(s, Put(t, c, failed)))
  {
    if Apply(s, Put(t, c, failed)) != s {
      var x := s.clients[t];
      assert |x.held - {c}| == |x.held| - 1;
      SumUpdate(s.clients, t, x.(pc := PDelete(c, failed), held := x.held - {c}), Owned);
    }
  }

  lemma {:induction false} StockPass(s: State, t: nat, to: nat, c: nat)
    requires Placed(s) && Stocked(s)
    ensures Stocked(Apply(s, Pass(t, to, c)))
  {
    if Apply(s, Pass(t, to, c)) != s {
      var x, y := s.clients[t], s.clients[to];
      assert At(s.place, c, AtClient(t));
      assert |x.held - {c}| == |x.held| - 1 && c !in y.held;
      SumUpdate(s.clients, t, x.(held := x.held - {c}), Owned);
      SumUpdate(s.clients[t := x.(held := x.held - {c})], to, y.(held := y.held + {c}), Owned);
    }
  }

  lemma {:induction false} StockStep(s: State, step: Step)
    requires Placed(s) && Stocked(s)
    ensures Stocked(Apply(s, step))
  {
    match step {
      case Move(t, v, u) => if t < |s.clients| { StockClient(s, t, v, u); }
      case Sweep(v, u) => StockCleaner(s, v, u);
      case Put(t, c, failed) => StockPut(s, t, c, failed);
      case Pass(t, to, c) => StockPass(s, t, to, c);
      case _ => StockStart(s, step);
    }
  }

  // ----- The initial fill -----

  /** What may go on before the pool is published. */
  predicate FillOnly(pc: Pc) {
    pc.Ready? || pc.CCreate? || pc.CStore? || pc.CStats? || pc.LeaveWith? || pc.LeaveEmpty?
    || pc.PDelete? || pc.PCheck? || pc.PClose? || pc.PCloseStats? || pc.PSend? || pc.PSendStats?
  }

  /** The caller of NewPool is alone, and puts each connection back before it creates the next. */
  predicate Filling(s: State) {
    !s.published ==>
      && s.cleaner.ClIdle?
      && (forall t :: 0 <= t < |s.clients| ==> FillOnly(s.clients[t].pc))
      && (forall t :: 1 <= t < |s.clients| ==> s.clients[t].pc == Ready && s.clients[t].held == {})
      && (s.clients != [] ==>
            |s.clients[0].held| <= 1 && (s.clients[0].pc != Ready ==> s.clients[0].held == {}))
  }

  lemma {:induction false} FillingClient(s: State, t: nat, v: Verdict, u: nat)
    requires Filling(s) && t < |s.clients|
    ensures Filling(MoveClient(s, t, v, u))
  {
    if !s.published {
      var s' := MoveClient(s, t, v, u);
      if t == 0 {
        FillingAlone(s, v, u);
        FillingFirst(s, v, u);
      } else {
        assert s'.clients == s.clients;
      }
    }
  }

  /** During the fill client 0 disturbs nobody. */
  lemma {:induction false} FillingAlone(s: State, v: Verdict, u: nat)
    requires Filling(s) && !s.published && s.clients != []
    ensures var s' := MoveClient(s, 0, v, u);
            && s'.published == s.published && s'.cleaner == s.cleaner && |s'.clients| == |s.clients|
            && forall t :: 1 <= t < |s.clients| ==> s'.clients[t] == s.clients[t]
  {
    assert !Waiting(s, u);
  }

  lemma {:induction false} FillingFirst(s: State, v: Verdict, u: nat)
    requires Filling(s) && !s.published && s.clients != []
    ensures var y := MoveClient(s, 0, v, u).clients[0];
            FillOnly(y.pc) && |y.held| <= 1 && (y.pc != Ready ==> y.held == {})
  {
    var x := s.clients[0];
    assert !Waiting(s, u);
    if x.pc.LeaveWith? {
      assert x.held + {x.pc.c} == {x.pc.c};
    }
  }

  lemma {:induction false} FillingStep(s: State, step: Step)
    requires Filling(s)
    ensures Filling(Apply(s, step))
  {
    match step {
      case Move(t, v, u) => if t < |s.clients| { FillingClient(s, t, v, u); }
      case Put(t, c, failed) =>
        if t < |s.clients| && s.clients[t].pc == Ready && c in s.clients[t].held && !s.published {
          assert |s.clients[t].held - {c}| == |s.clients[t].held| - 1;
          assert t == 0;
        }
      case _ =>
    }
  }

  // ----- Whole runs -----

  ghost predicate Sound(s: State) { Placed(s) && Stocked(s) && Filling(s) }

  lemma {:induction false} SoundStep(s: State, step: Step)
    requires Sound(s)
    ensures Sound(Apply(s, step))
  {
    PlacedStep(s, step);
    StockStep(s, step);
    FillingStep(s, step);
  }

  lemma {:induction false} SoundInit(config: Config, clients: nat)
    ensures Sound(Init(config, clients))
  {
    SumZero(Init(config, clients).clients, Owned);
  }

  lemma {:induction false} SoundRun(s: State, steps: seq<Step>)
    requires Sound(s)
    ensures Sound(Run(s, steps))
    decreases |steps|
  {
    if steps != [] {
      SoundStep(s, steps[0]);
      SoundRun(Apply(s, steps[0]), steps[1..]);
    }
  }

  /** In every reachable state Total is exactly the number of connections in the channel, in the
      possession or the hands of clients, and with the cleaner; so it is never negative. */
  lemma {:induction false} TotalIsStock(config: Config, clients: nat, steps: seq<Step>)
    ensures var s := Run(Init(config, clients), steps);
            && s.stats.total == |s.idle| + Sum(s.clients, Owned) + Sweeping(s.cleaner)
            && s.stats.total >= 0
  {
    SoundInit(config, clients);
    SoundRun(Init(config, clients), steps);
    OwnedBounds(Run(Init(config, clients), steps).clients);
  }
}
