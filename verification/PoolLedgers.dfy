/** The statistics of the pool against what the channel, the map and the clients really hold. */
module PoolLedgers {
  import opened Counting
  import opened PoolProtocol
  import opened PoolPlaces
  import opened PoolSteps

  /** 1 between a receive and its Idle -= 1; -1 between a send and its Idle += 1. */
  function IdleLag(x: Client): int {
    match x.pc
    case GGot(_) => 1
    case GDrop(_) => 1
    case GDropStats => 1
    case GStore(_) => 1
    case GStats(_) => 1
    case PSendStats => -1
    case _ => 0
  }

  function CleanerLag(cl: Cleaner): int { if cl.ClGot? || cl.ClDrop? then 1 else 0 }

  /** -1 between a store into activeConns and its Active += 1; 1 between a delete and its Active -= 1. */
  function ActiveLag(x: Client): int {
    match x.pc
    case GStats(_) => -1
    case CStats(_) => -1
    case PCheck(_, _) => 1
    case PClose(_) => 1
    case PCloseStats => 1
    case PSend(_) => 1
    case PSendStats => 1
    case _ => 0
  }

  /** What an operation adds to the number of registered connections. */
  function Registers(pc: Pc): int {
    if pc.GStore? || pc.CStore? then 1 else if pc.PDelete? then -1 else 0
  }

  function Pending(x: Client): int { x.pending }

  /** The counters stand for these numbers of idle, active and awaited connections. */
  predicate Tally(m: Stats, closedPuts: int, idle: int, active: int, waiters: int) {
    && m.total == m.active + m.idle
    && m.acquired == m.active + m.released + closedPuts
    && m.idle == idle && m.active == active && m.waiters == waiters
  }

  /** The counters, corrected by the updates still to come. */
  predicate Balanced(s: State) {
    Tally(s.stats, s.closedPuts,
          |s.idle| + Sum(s.clients, IdleLag) + CleanerLag(s.cleaner),
          |s.activeConns| + Sum(s.clients, ActiveLag),
          Sum(s.clients, Pending))
  }

  /** A client with this next operation has registered the connection in its hand. */
  predicate Registered(pc: Pc) { pc.GStats? || pc.CStats? || pc.LeaveWith? || pc.PDelete? }

  predicate InUse(clients: seq<Client>, place: map<nat, Place>, c: nat) {
    && c in place
    && (place[c].AtClient?
        || (place[c].InHand? && place[c].t < |clients| && Registered(clients[place[c].t].pc)))
  }

  /** The map of active connections holds those in use. */
  ghost predicate ActiveFits(s: State) {
    forall c: nat :: c in s.activeConns <==> InUse(s.clients, s.place, c)
  }

  // ----- The map of active connections -----

  lemma {:induction false} NotYetInUse(s: State, t: nat)
    requires Placed(s) && ActiveFits(s) && t < |s.clients| && (s.clients[t].pc.GStore? || s.clients[t].pc.CStore?)
    ensures At(s.place, s.clients[t].pc.c, InHand(t)) && s.clients[t].pc.c !in s.activeConns
  {
    assert At(s.place, Hand(s.clients[t].pc), InHand(t));
  }

  lemma {:induction false} UseStore(s: State, t: nat, v: Verdict)
    requires Placed(s) && ActiveFits(s) && t < |s.clients| && (s.clients[t].pc.GStore? || s.clients[t].pc.CStore?)
    ensures ActiveFits(Think(s, t, v)) && |Think(s, t, v).activeConns| == |s.activeConns| + 1
  {
    NotYetInUse(s, t);
  }

  lemma {:induction false} UseDelete(s: State, t: nat, v: Verdict)
    requires Placed(s) && ActiveFits(s) && t < |s.clients| && s.clients[t].pc.PDelete?
    ensures ActiveFits(Think(s, t, v)) && |Think(s, t, v).activeConns| == |s.activeConns| - 1
  {
    assert At(s.place, Hand(s.clients[t].pc), InHand(t));
  }

  lemma {:induction false} UseKept(s: State, t: nat, v: Verdict)
    requires Placed(s) && ActiveFits(s) && t < |s.clients| && Registers(s.clients[t].pc) == 0
    requires Moving(s.clients[t].pc) ==> s.clients[t].pc.CWait?
    ensures ActiveFits(Think(s, t, v)) && Think(s, t, v).activeConns == s.activeConns
  {
    assert Registered(Next(s, s.clients[t].pc, v)) == Registered(s.clients[t].pc);
    UseMoved(s, Think(s, t, v), 0);
  }

  lemma {:induction false} UseThink(s: State, t: nat, v: Verdict)
    requires Placed(s) && ActiveFits(s) && t < |s.clients|
    requires Moving(s.clients[t].pc) ==> s.clients[t].pc.CWait?
    ensures ActiveFits(Think(s, t, v))
    ensures |Think(s, t, v).activeConns| == |s.activeConns| + Registers(s.clients[t].pc)
  {
    if Registers(s.clients[t].pc) == 1 {
      UseStore(s, t, v);
    } else if Registers(s.clients[t].pc) == -1 {
      UseDelete(s, t, v);
    } else {
      UseKept(s, t, v);
    }
  }

  /** Any change of places that leaves the map alone: what becomes of connection `c` and of the others. */
  lemma {:induction false} UseMoved(s: State, s': State, c: nat)
    requires ActiveFits(s) && s'.activeConns == s.activeConns
    requires forall d: nat :: d != c ==> InUse(s'.clients, s'.place, d) == InUse(s.clients, s.place, d)
    requires InUse(s'.clients, s'.place, c) == InUse(s.clients, s.place, c)
    ensures ActiveFits(s')
  {}

  lemma {:induction false} UseReceive(s: State, t: nat, otherwise: Pc)
    requires Placed(s) && ActiveFits(s) && t < |s.clients|
    requires Hand(s.clients[t].pc) == Hand(otherwise) == -1
    ensures ActiveFits(Receive(s, t, otherwise))
  {
    if s.idle != [] {
      TakeFirst(s.idle, s.place, InIdle, InHand(t));
      UseMoved(s, Receive(s, t, otherwise), s.idle[0]);
    }
  }

  lemma {:induction false} UseClose(s: State, t: nat, v: Verdict, u: nat)
    requires Placed(s) && ActiveFits(s) && t < |s.clients| && (s.clients[t].pc.GDrop? || s.clients[t].pc.PClose?)
    ensures ActiveFits(MoveClient(s, t, v, u))
  {
    var c := s.clients[t].pc.c;
    assert At(s.place, Hand(s.clients[t].pc), InHand(t));
    UseMoved(s, MoveClient(s, t, v, u), c);
  }

  lemma {:induction false} UseCreate(s: State, t: nat, v: Verdict)
    requires Placed(s) && ActiveFits(s) && t < |s.clients| && s.clients[t].pc == CCreate
    ensures ActiveFits(Create(s, t, v))
  {
    UseMoved(s, Create(s, t, v), s.made);
  }

  lemma {:induction false} UseSend(s: State, t: nat, u: nat)
    requires Placed(s) && ActiveFits(s) && t < |s.clients| && s.clients[t].pc.PSend?
    ensures ActiveFits(Send(s, t, s.clients[t].pc.c, u))
  {
    var c := s.clients[t].pc.c;
    assert At(s.place, Hand(s.clients[t].pc), InHand(t));
    UseMoved(s, Send(s, t, c, u), c);
  }

  lemma {:induction false} UseLeave(s: State, t: nat)
    requires Placed(s) && ActiveFits(s) && t < |s.clients|
    requires s.clients[t].pc.LeaveWith? || s.clients[t].pc.LeaveEmpty?
    ensures ActiveFits(Leave(s, t))
  {
    if s.clients[t].pc.LeaveWith? {
      assert At(s.place, Hand(s.clients[t].pc), InHand(t));
      UseMoved(s, Leave(s, t), s.clients[t].pc.c);
    }
  }

  lemma {:induction false} UsePut(s: State, t: nat, c: nat, failed: bool)
    requires Placed(s) && ActiveFits(s)
    ensures ActiveFits(Apply(s, Put(t, c, failed)))
  {
    var s' := Apply(s, Put(t, c, failed));
    if s' != s {
      assert At(s.place, c, AtClient(t));
      UseMoved(s, s', c);
    }
  }

  lemma {:induction false} UsePass(s: State, t: nat, to: nat, c: nat)
    requires Placed(s) && ActiveFits(s)
    ensures ActiveFits(Apply(s, Pass(t, to, c)))
  {
    var s' := Apply(s, Pass(t, to, c));
    if s' != s {
      assert At(s.place, c, AtClient(t));
      UseMoved(s, s', c);
    }
  }

  lemma {:induction false} UseLoop(s: State, v: Verdict, u: nat)
    requires Placed(s) && ActiveFits(s) && s.cleaner.ClLoop?
    ensures ActiveFits(MoveCleaner(s, v, u))
  {
    var s', doomed := MoveCleaner(s, v, u), s.cleaner.doomed;
    if s.cleaner.i < s.cleaner.n && s.idle != [] {
      TakeFirst(s.idle, s.place, InIdle, AtCleaner);
      UseMoved(s, s', s.idle[0]);
    } else if s.cleaner.i >= s.cleaner.n && doomed != [] {
      TakeFirst(doomed, s.place, AtCleaner, Closed);
      UseMoved(s, s', doomed[0]);
    }
  }

  lemma {:induction false} UseHandOver(s: State, u: nat)
    requires Placed(s) && ActiveFits(s) && s.cleaner.ClGot? && Waiting(s, u)
    ensures ActiveFits(MoveCleaner(s, Good, u))
  {
    PutBack(s.cleaner.doomed, s.place, s.cleaner.c, Closed);
    UseMoved(s, MoveCleaner(s, Good, u), s.cleaner.c);
  }

  lemma {:induction false} UseGot(s: State, v: Verdict, u: nat)
    requires Placed(s) && ActiveFits(s) && s.cleaner.ClGot? && !(v.Good? && Waiting(s, u))
    ensures ActiveFits(MoveCleaner(s, v, u))
  {
    PutBack(s.cleaner.doomed, s.place, s.cleaner.c, Closed);
    UseMoved(s, MoveCleaner(s, v, u), s.cleaner.c);
  }

  lemma {:induction false} UseCleaner(s: State, v: Verdict, u: nat)
    requires Placed(s) && ActiveFits(s)
    ensures ActiveFits(MoveCleaner(s, v, u))
  {
    match s.cleaner {
      case ClLoop(_, _, _) => UseLoop(s, v, u);
      case ClGot(_, _, _, _) =>
        if v.Good? && Waiting(s, u) {
          UseHandOver(s, u);
        } else {
          UseGot(s, v, u);
        }
      case _ =>
    }
  }

  // ----- The counters -----

  /** One client changes. */
  lemma {:induction false} Swap(clients: seq<Client>, t: nat, x: Client)
    requires t < |clients|
    ensures Sum(clients[t := x], IdleLag) == Sum(clients, IdleLag) - IdleLag(clients[t]) + IdleLag(x)
    ensures Sum(clients[t := x], ActiveLag) == Sum(clients, ActiveLag) - ActiveLag(clients[t]) + ActiveLag(x)
    ensures Sum(clients[t := x], Pending) == Sum(clients, Pending) - Pending(clients[t]) + Pending(x)
  {
    SumUpdate(clients, t, x, IdleLag);
    SumUpdate(clients, t, x, ActiveLag);
    SumUpdate(clients, t, x, Pending);
  }

  /** What an operation does to the statistics is what it does to the corrections. */
  lemma {:induction false} TallyThink(
    s: State, x: Client, v: Verdict, closed: int, idle: int, active: int, waiters: int)
    requires Moving(x.pc) ==> x.pc.CWait?
    requires Tally(s.stats, closed, idle, active, waiters)
    ensures var y := Advanced(s, x, v);
            Tally(StatsAfter(s.stats, x.pc), if x.pc.PCloseStats? then closed + 1 else closed,
                  idle - IdleLag(x) + IdleLag(y),
                  active + Registers(x.pc) - ActiveLag(x) + ActiveLag(y),
                  waiters - Pending(x) + Pending(y))
  {}

  lemma {:induction false} BalancedThink(s: State, t: nat, v: Verdict)
    requires Placed(s) && ActiveFits(s) && Balanced(s) && t < |s.clients|
    requires Moving(s.clients[t].pc) ==> s.clients[t].pc.CWait?
    ensures Balanced(Think(s, t, v))
  {
    UseThink(s, t, v);
    Swap(s.clients, t, Think(s, t, v).clients[t]);
    TallyThink(s, s.clients[t], v, s.closedPuts,
               |s.idle| + Sum(s.clients, IdleLag) + CleanerLag(s.cleaner),
               |s.activeConns| + Sum(s.clients, ActiveLag), Sum(s.clients, Pending));
  }

  lemma {:induction false} BalancedServe(s: State, u: nat, c: nat)
    requires u < |s.clients| && s.clients[u].pc == CWait
    ensures var clients := Serve(s, u, c).clients;
            && Sum(clients, IdleLag) == Sum(s.clients, IdleLag) + 1
            && Sum(clients, ActiveLag) == Sum(s.clients, ActiveLag)
            && Sum(clients, Pending) == Sum(s.clients, Pending)
  {
    Swap(s.clients, u, s.clients[u].(pc := GGot(c)));
  }

  lemma {:induction false} BalancedReceive(s: State, t: nat, otherwise: Pc)
    requires Balanced(s) && t < |s.clients|
    requires s.clients[t].pc.GTake? || s.clients[t].pc.CWait? || s.clients[t].pc.CPoll?
    requires otherwise.CCheck? || otherwise.CWait? || otherwise.CRetry?
    ensures Balanced(Receive(s, t, otherwise))
  {
    Swap(s.clients, t, Receive(s, t, otherwise).clients[t]);
  }

  lemma {:induction false} BalancedClose(s: State, t: nat, v: Verdict, u: nat)
    requires Balanced(s) && t < |s.clients| && (s.clients[t].pc.GDrop? || s.clients[t].pc.PClose?)
    ensures Balanced(MoveClient(s, t, v, u))
  {
    Swap(s.clients, t, MoveClient(s, t, v, u).clients[t]);
  }

  lemma {:induction false} BalancedCreate(s: State, t: nat, v: Verdict)
    requires Balanced(s) && t < |s.clients| && s.clients[t].pc.CCreate?
    ensures Balanced(Create(s, t, v))
  {
    Swap(s.clients, t, Create(s, t, v).clients[t]);
  }

  lemma {:induction false} BalancedLeave(s: State, t: nat)
    requires Balanced(s) && t < |s.clients| && (s.clients[t].pc.LeaveWith? || s.clients[t].pc.LeaveEmpty?)
    ensures Balanced(Leave(s, t))
  {
    Swap(s.clients, t, Leave(s, t).clients[t]);
  }

  lemma {:induction false} BalancedServed(s: State, t: nat, u: nat)
    requires Balanced(s) && t < |s.clients| && s.clients[t].pc.PSend? && Waiting(s, u)
    ensures Balanced(Send(s, t, s.clients[t].pc.c, u))
  {
    var c := s.clients[t].pc.c;
    BalancedServe(s, u, c);
    Swap(Serve(s, u, c).clients, t, s.clients[t].(pc := PSendStats));
  }

  lemma {:induction false} BalancedSent(s: State, t: nat, u: nat)
    requires Balanced(s) && t < |s.clients| && s.clients[t].pc.PSend? && !Waiting(s, u)
    requires |s.idle| < s.config.maxIdle
    ensures Balanced(Send(s, t, s.clients[t].pc.c, u))
  {
    Swap(s.clients, t, s.clients[t].(pc := PSendStats));
  }

  lemma {:induction false} BalancedRefused(s: State, t: nat, u: nat)
    requires Balanced(s) && t < |s.clients| && s.clients[t].pc.PSend? && !Waiting(s, u)
    requires |s.idle| >= s.config.maxIdle
    ensures Balanced(Send(s, t, s.clients[t].pc.c, u))
  {
    Swap(s.clients, t, s.clients[t].(pc := PClose(s.clients[t].pc.c)));
  }

  lemma {:induction false} BalancedHandOver(s: State, u: nat)
    requires Balanced(s) && s.cleaner.ClGot? && Waiting(s, u)
    ensures Balanced(MoveCleaner(s, Good, u))
  {
    BalancedServe(s, u, s.cleaner.c);
  }

  /** The cleaner has judged a connection and hands it to nobody. */
  lemma {:induction false} BalancedGot(s: State, v: Verdict, u: nat)
    requires Balanced(s) && s.cleaner.ClGot? && !(v.Good? && Waiting(s, u))
    ensures Balanced(MoveCleaner(s, v, u))
  {}

  lemma {:induction false} BalancedLoop(s: State, v: Verdict, u: nat)
    requires Balanced(s) && s.cleaner.ClLoop?
    ensures Balanced(MoveCleaner(s, v, u))
  {}

  lemma {:induction false} BalancedCount(s: State, v: Verdict, u: nat)
    requires Balanced(s) && (s.cleaner.ClIdle? || s.cleaner.ClDrop?)
    ensures Balanced(MoveCleaner(s, v, u))
  {}

  lemma {:induction false} BalancedCleaner(s: State, v: Verdict, u: nat)
    requires Balanced(s)
    ensures Balanced(MoveCleaner(s, v, u))
  {
    if s.cleaner.ClGot? && v.Good? && Waiting(s, u) {
      BalancedHandOver(s, u);
    } else if s.cleaner.ClGot? {
      BalancedGot(s, v, u);
    } else if s.cleaner.ClLoop? {
      BalancedLoop(s, v, u);
    } else {
      BalancedCount(s, v, u);
    }
  }

  // ----- Whole runs -----

  ghost predicate Ledger(s: State) { Placed(s) && ActiveFits(s) && Balanced(s) }

  lemma {:induction false} LedgerThink(s: State, t: nat, v: Verdict, u: nat)
    requires Ledger(s) && t < |s.clients|
    requires Moving(s.clients[t].pc) ==> s.clients[t].pc.CWait? && !v.Good?
    ensures ActiveFits(MoveClient(s, t, v, u)) && Balanced(MoveClient(s, t, v, u))
  {
    UseThink(s, t, v);
    BalancedThink(s, t, v);
  }

  lemma {:induction false} LedgerReceive(s: State, t: nat, otherwise: Pc)
    requires Ledger(s) && t < |s.clients|
    requires s.clients[t].pc.GTake? || s.clients[t].pc.CWait? || s.clients[t].pc.CPoll?
    requires otherwise.CCheck? || otherwise.CWait? || otherwise.CRetry?
    ensures ActiveFits(Receive(s, t, otherwise)) && Balanced(Receive(s, t, otherwise))
  {
    UseReceive(s, t, otherwise);
    BalancedReceive(s, t, otherwise);
  }

  lemma {:induction false} LedgerClose(s: State, t: nat, v: Verdict, u: nat)
    requires Ledger(s) && t < |s.clients| && (s.clients[t].pc.GDrop? || s.clients[t].pc.PClose?)
    ensures ActiveFits(MoveClient(s, t, v, u)) && Balanced(MoveClient(s, t, v, u))
  {
    UseClose(s, t, v, u);
    BalancedClose(s, t, v, u);
  }

  lemma {:induction false} LedgerSend(s: State, t: nat, v: Verdict, u: nat)
    requires Ledger(s) && t < |s.clients| && s.clients[t].pc.PSend?
    ensures ActiveFits(MoveClient(s, t, v, u)) && Balanced(MoveClient(s, t, v, u))
  {
    UseSend(s, t, u);
    if Waiting(s, u) {
      BalancedServed(s, t, u);
    } else if |s.idle| < s.config.maxIdle {
      BalancedSent(s, t, u);
    } else {
      BalancedRefused(s, t, u);
    }
  }

  lemma {:induction false} LedgerCreate(s: State, t: nat, v: Verdict, u: nat)
    requires Ledger(s) && t < |s.clients| && s.clients[t].pc.CCreate?
    ensures ActiveFits(MoveClient(s, t, v, u)) && Balanced(MoveClient(s, t, v, u))
  {
    UseCreate(s, t, v);
    BalancedCreate(s, t, v);
  }

  lemma {:induction false} LedgerLeave(s: State, t: nat, v: Verdict, u: nat)
    requires Ledger(s) && t < |s.clients| && (s.clients[t].pc.LeaveWith? || s.clients[t].pc.LeaveEmpty?)
    ensures ActiveFits(MoveClient(s, t, v, u)) && Balanced(MoveClient(s, t, v, u))
  {
    UseLeave(s, t);
    BalancedLeave(s, t);
  }

  lemma {:induction false} LedgerTry(s: State, t: nat, v: Verdict, u: nat)
    requires Ledger(s) && t < |s.clients|
    requires var pc := s.clients[t].pc; pc.GTake? || pc.CPoll? || (pc.CWait? && v.Good?)
    ensures ActiveFits(MoveClient(s, t, v, u)) && Balanced(MoveClient(s, t, v, u))
  {
    match s.clients[t].pc {
      case GTake => LedgerReceive(s, t, CCheck);
      case CWait => LedgerReceive(s, t, CWait);
      case CPoll(k) => LedgerReceive(s, t, CRetry(k + 1));
    }
  }

  lemma {:induction false} LedgerClient(s: State, t: nat, v: Verdict, u: nat)
    requires Ledger(s) && t < |s.clients|
    ensures ActiveFits(MoveClient(s, t, v, u)) && Balanced(MoveClient(s, t, v, u))
  {
    var pc := s.clients[t].pc;
    if !Moving(pc) || (pc.CWait? && !v.Good?) {
      LedgerThink(s, t, v, u);
    } else if pc.GDrop? || pc.PClose? {
      LedgerClose(s, t, v, u);
    } else if pc.CCreate? {
      LedgerCreate(s, t, v, u);
    } else if pc.PSend? {
      LedgerSend(s, t, v, u);
    } else if pc.LeaveWith? || pc.LeaveEmpty? {
      LedgerLeave(s, t, v, u);
    } else {
      LedgerTry(s, t, v, u);
    }
  }

  lemma {:induction false} LedgerCleaner(s: State, v: Verdict, u: nat)
    requires Ledger(s)
    ensures ActiveFits(MoveCleaner(s, v, u)) && Balanced(MoveCleaner(s, v, u))
  {
    UseCleaner(s, v, u);
    BalancedCleaner(s, v, u);
  }

  lemma {:induction false} LedgerStart(s: State, step: Step)
    requires Ledger(s) && (step.Fill? || step.Get? || step.Publish?)
    ensures ActiveFits(Apply(s, step)) && Balanced(Apply(s, step))
  {
    var s' := Apply(s, step);
    if step.Fill? && s' != s {
      Swap(s.clients, 0, s'.clients[0]);
    } else if step.Get? && s' != s {
      Swap(s.clients, step.t, s'.clients[step.t]);
    }
  }

  lemma {:induction false} LedgerPut(s: State, t: nat, c: nat, failed: bool)
    requires Ledger(s)
    ensures ActiveFits(Apply(s, Put(t, c, failed))) && Balanced(Apply(s, Put(t, c, failed)))
  {
    UsePut(s, t, c, failed);
    var s' := Apply(s, Put(t, c, failed));
    if s' != s {
      Swap(s.clients, t, s'.clients[t]);
    }
  }

  lemma {:induction false} BalancedPassed(s: State, t: nat, to: nat, c: nat)
    requires Balanced(s) && t < |s.clients| && to < |s.clients| && t != to
    ensures Balanced(Passed(s, t, to, c))
  {
    var x, y := s.clients[t], s.clients[to];
    Swap(s.clients, t, x.(held := x.held - {c}));
    Swap(s.clients[t := x.(held := x.held - {c})], to, y.(held := y.held + {c}));
  }

  lemma {:induction false} LedgerPass(s: State, t: nat, to: nat, c: nat)
    requires Ledger(s)
    ensures ActiveFits(Apply(s, Pass(t, to, c))) && Balanced(Apply(s, Pass(t, to, c)))
  {
    UsePass(s, t, to, c);
    if Apply(s, Pass(t, to, c)) != s {
      BalancedPassed(s, t, to, c);
    }
  }

  lemma {:induction false} LedgerStep(s: State, step: Step)
    requires Ledger(s)
    ensures Ledger(Apply(s, step))
  {
    PlacedStep(s, step);
    match step {
      case Put(t, c, failed) => LedgerPut(s, t, c, failed);
      case Pass(t, to, c) => LedgerPass(s, t, to, c);
      case Move(t, v, u) => if t < |s.clients| { LedgerClient(s, t, v, u); }
      case Sweep(v, u) => LedgerCleaner(s, v, u);
      case _ => LedgerStart(s, step);
    }
  }

  lemma {:induction false} LedgerRun(s: State, steps: seq<Step>)
    requires Ledger(s)
    ensures Ledger(Run(s, steps))
    decreases |steps|
  {
    if steps != [] {
      LedgerStep(s, steps[0]);
      LedgerRun(Apply(s, steps[0]), steps[1..]);
    }
  }

  lemma {:induction false} InitLedger(config: Config, clients: nat)
    ensures Ledger(Init(config, clients))
  {
    var s := Init(config, clients);
    SumZero(s.clients, IdleLag);
    SumZero(s.clients, ActiveLag);
    SumZero(s.clients, Pending);
  }

  /** In every reachable state: Total = Active + Idle, Acquired = Active + Released + the Puts that
      closed their connection; Idle, Active and Waiters are what the channel, the map and the
      callers hold, corrected by the updates still in flight. */
  lemma {:induction false} CountersExact(config: Config, clients: nat, steps: seq<Step>)
    ensures var s := Run(Init(config, clients), steps);
            Balanced(s) && forall c: nat :: c in s.activeConns <==> InUse(s.clients, s.place, c)
  {
    InitLedger(config, clients);
    LedgerRun(Init(config, clients), steps);
  }

  /** No call in flight. */
  predicate Quiet(s: State) {
    s.cleaner.ClIdle? && forall t :: 0 <= t < |s.clients| ==> s.clients[t].pc == Ready
  }

  /** When no call is in flight: Idle is the length of the channel, Active the number of
      connections in the hands of clients, nobody waits, and activeConns holds exactly the
      connections that clients hold. */
  lemma {:induction false} QuietCounters(config: Config, clients: nat, steps: seq<Step>)
    ensures var s := Run(Init(config, clients), steps);
            Quiet(s) ==>
              && s.stats.idle == |s.idle| && s.stats.active == |s.activeConns| && s.stats.waiters == 0
              && s.stats.total == |s.activeConns| + |s.idle|
              && (forall c: nat :: c in s.activeConns <==> exists t :: 0 <= t < |s.clients| && c in s.clients[t].held)
  {
    InitLedger(config, clients);
    LedgerRun(Init(config, clients), steps);
    PairedRun(Init(config, clients), steps);
    var s := Run(Init(config, clients), steps);
    if Quiet(s) {
      SumZero(s.clients, IdleLag);
      SumZero(s.clients, ActiveLag);
      SumZero(s.clients, Pending);
    }
  }
}
