/**
 Which connections are closed, and which leave the channel in which order, as an observer of the schedule
 sees it.
 */
module PoolFates {
  import opened PoolProtocol
  import opened PoolPlaces
  import opened PoolSteps

  // ----- A connection is closed exactly when something is wrong with it, or there is no room for it -----

  /** A sender finds neither a waiting client `u` nor room in the channel. */
  predicate NoPlace(s: State, u: nat) {
    && |s.idle| >= s.config.maxIdle
    && !(s.idle == [] && u < |s.clients| && s.clients[u].pc == CWait)
  }

  /** The connections that a step condemns: one put back with an error; one found expired or dead as it is
      borrowed, or dead as it is put back, or not to be reset; one found expired by the cleaner; one that
      nobody waits for and that the channel has no room for; one that OnCreate rejects. */
  function Condemns(s: State, step: Step): set<nat> {
    match step
    case Put(t, c, failed) =>
      if t < |s.clients| && s.clients[t].pc == Ready && c in s.clients[t].held && failed then {c} else {}
    case Move(t, v, u) =>
      if t >= |s.clients| then {}
      else (
        match s.clients[t].pc
        case GGot(c) => if v == Good then {} else {c}
        case PCheck(c, _) => if v == Good then {} else {c}
        case PSend(c) => if NoPlace(s, u) then {c} else {}
        case CCreate => if v == Broken then {s.made} else {}
        case _ => {}
      )
    case Sweep(v, u) =>
      if s.published && s.cleaner.ClGot? && (v != Good || NoPlace(s, u)) then {s.cleaner.c} else {}
    case _ => {}
  }

  /** The connections condemned in a run, and before. */
  function Condemned(before: set<nat>, s: State, steps: seq<Step>): set<nat>
    decreases |steps|
  {
    if steps == [] then before else Condemned(before + Condemns(s, steps[0]), Apply(s, steps[0]), steps[1..])
  }

  /** The client's next operations end with the raw close of the connection in its hand. */
  predicate Dooms(pc: Pc) {
    pc.GDrop? || pc.PClose? || ((pc.PDelete? || pc.PCheck?) && pc.failed)
  }

  /** The connections that wait for their raw close in a sweep. */
  function Doomed(cl: Cleaner): seq<nat> { if cl.ClIdle? then [] else cl.doomed }

  /** Closed, or on the way to its raw close. */
  predicate Lost(s: State, c: nat) {
    c in s.place &&
    match s.place[c]
    case Closed => true
    case InHand(t) => t < |s.clients| && Dooms(s.clients[t].pc)
    case AtCleaner => c in Doomed(s.cleaner)
    case _ => false
  }

  /** A step changes the fate of `c` by condemning it, and not otherwise. */
  predicate FateKept(s: State, step: Step, s': State, c: nat) {
    Lost(s', c) <==> Lost(s, c) || c in Condemns(s, step)
  }

  lemma {:induction false} FateThink(s: State, t: nat, v: Verdict, u: nat, c: nat)
    requires Placed(s) && t < |s.clients| && (!Moving(s.clients[t].pc) || (s.clients[t].pc.CWait? && !v.Good?))
    ensures FateKept(s, Move(t, v, u), Think(s, t, v), c)
  {}

  /** Client `t` tries to receive from the channel. */
  predicate Tries(pc: Pc, v: Verdict) { pc.GTake? || pc.CPoll? || (pc.CWait? && v.Good?) }

  lemma {:induction false} FateReceive(s: State, t: nat, v: Verdict, u: nat, otherwise: Pc, c: nat)
    requires Placed(s) && t < |s.clients| && Tries(s.clients[t].pc, v) && Hand(otherwise) == -1
    ensures FateKept(s, Move(t, v, u), Receive(s, t, otherwise), c)
  {
    if s.idle != [] {
      assert multiset(s.idle)[s.idle[0]] > 0;
      assert At(s.place, s.idle[0], InIdle);
    }
  }

  lemma {:induction false} FateTry(s: State, t: nat, v: Verdict, u: nat, c: nat)
    requires Placed(s) && t < |s.clients| && Tries(s.clients[t].pc, v)
    ensures FateKept(s, Move(t, v, u), MoveClient(s, t, v, u), c)
  {
    match s.clients[t].pc {
      case GTake => FateReceive(s, t, v, u, CCheck, c);
      case CPoll(k) => FateReceive(s, t, v, u, CRetry(k + 1), c);
      case CWait => FateReceive(s, t, v, u, CWait, c);
    }
  }

  lemma {:induction false} FateClose(s: State, t: nat, v: Verdict, u: nat, c: nat)
    requires Placed(s) && t < |s.clients| && (s.clients[t].pc.GDrop? || s.clients[t].pc.PClose?)
    ensures FateKept(s, Move(t, v, u), MoveClient(s, t, v, u), c)
  {}

  lemma {:induction false} FateCreate(s: State, t: nat, v: Verdict, u: nat, c: nat)
    requires Placed(s) && t < |s.clients| && s.clients[t].pc.CCreate?
    ensures FateKept(s, Move(t, v, u), MoveClient(s, t, v, u), c)
  {}

  /** A waiting client is served. */
  lemma {:induction false} FateServed(s: State, t: nat, v: Verdict, u: nat, c: nat)
    requires Placed(s) && t < |s.clients| && s.clients[t].pc.PSend? && Waiting(s, u)
    ensures FateKept(s, Move(t, v, u), MoveClient(s, t, v, u), c)
  {
    var d, s' := s.clients[t].pc.c, MoveClient(s, t, v, u);
    assert s'.place == s.place[d := InHand(u)] && s'.cleaner == s.cleaner;
    assert s'.clients == s.clients[u := s.clients[u].(pc := GGot(d))][t := s.clients[t].(pc := PSendStats)];
    assert At(s.place, d, InHand(t));
  }

  lemma {:induction false} FateSent(s: State, t: nat, v: Verdict, u: nat, c: nat)
    requires Placed(s) && t < |s.clients| && s.clients[t].pc.PSend? && !Waiting(s, u)
    ensures FateKept(s, Move(t, v, u), MoveClient(s, t, v, u), c)
  {
    var d, s' := s.clients[t].pc.c, MoveClient(s, t, v, u);
    assert s'.cleaner == s.cleaner && At(s.place, d, InHand(t));
  }

  /** The call returns, with a connection or without, or has a wait to sign off first. */
  lemma {:induction false} FateLeave(s: State, t: nat, v: Verdict, u: nat, c: nat)
    requires Placed(s) && t < |s.clients| && (s.clients[t].pc.LeaveWith? || s.clients[t].pc.LeaveEmpty?)
    ensures FateKept(s, Move(t, v, u), Leave(s, t), c)
  {}

  lemma {:induction false} FateClient(s: State, t: nat, v: Verdict, u: nat, c: nat)
    requires Placed(s) && t < |s.clients|
    ensures FateKept(s, Move(t, v, u), MoveClient(s, t, v, u), c)
  {
    var pc := s.clients[t].pc;
    if Tries(pc, v) {
      FateTry(s, t, v, u, c);
    } else if pc.GDrop? || pc.PClose? {
      FateClose(s, t, v, u, c);
    } else if pc.CCreate? {
      FateCreate(s, t, v, u, c);
    } else if pc.PSend? {
      if Waiting(s, u) {
        FateServed(s, t, v, u, c);
      } else {
        FateSent(s, t, v, u, c);
      }
    } else if pc.LeaveWith? || pc.LeaveEmpty? {
      FateLeave(s, t, v, u, c);
    } else {
      FateThink(s, t, v, u, c);
    }
  }

  /** The connection in the cleaner's hand is not yet doomed. */
  lemma {:induction false} HandNotDoomed(s: State)
    requires Placed(s) && s.cleaner.ClGot?
    ensures At(s.place, s.cleaner.c, AtCleaner) && s.cleaner.c !in s.cleaner.doomed
  {
    var d, doomed := s.cleaner.c, s.cleaner.doomed;
    assert multiset(Cleaning(s.cleaner))[d] == multiset(doomed)[d] + 1;
    assert d in doomed ==> multiset(doomed)[d] > 0;
  }

  /** It is put back, */
  lemma {:induction false} FateReturned(s: State, v: Verdict, u: nat, c: nat)
    requires Placed(s) && s.published && s.cleaner.ClGot? && v == Good && !NoPlace(s, u)
    ensures FateKept(s, Sweep(v, u), MoveCleaner(s, v, u), c)
  {
    HandNotDoomed(s);
  }

  /** or doomed. */
  lemma {:induction false} FateDoomed(s: State, v: Verdict, u: nat, c: nat)
    requires Placed(s) && s.published && s.cleaner.ClGot? && (v != Good || NoPlace(s, u))
    ensures FateKept(s, Sweep(v, u), MoveCleaner(s, v, u), c)
  {
    HandNotDoomed(s);
    var d, doomed := s.cleaner.c, s.cleaner.doomed;
    var s' := MoveCleaner(s, v, u);
    assert s' == s.(cleaner := ClDrop(s.cleaner.i, s.cleaner.n, doomed + [d]));
    assert c in doomed + [d] <==> c in doomed || c == d;
  }

  lemma {:induction false} FateTaken(s: State, v: Verdict, u: nat, c: nat)
    requires Placed(s) && s.published && s.cleaner.ClLoop? && s.cleaner.i < s.cleaner.n
    ensures FateKept(s, Sweep(v, u), MoveCleaner(s, v, u), c)
  {
    if s.idle != [] {
      assert multiset(s.idle)[s.idle[0]] > 0;
      assert multiset(Cleaning(s.cleaner))[s.idle[0]] == 0;
    }
  }

  lemma {:induction false} FateClosed(s: State, v: Verdict, u: nat, c: nat)
    requires Placed(s) && s.published && s.cleaner.ClLoop? && s.cleaner.i >= s.cleaner.n && s.cleaner.doomed != []
    ensures FateKept(s, Sweep(v, u), MoveCleaner(s, v, u), c)
  {
    var doomed := s.cleaner.doomed;
    assert doomed == [doomed[0]] + doomed[1..];
    assert c in doomed <==> c == doomed[0] || c in doomed[1..];
    assert multiset(doomed)[doomed[0]] > 0;
  }

  lemma {:induction false} FateTurn(s: State, v: Verdict, u: nat, c: nat)
    requires Placed(s) && s.published && !s.cleaner.ClGot?
    requires s.cleaner.ClLoop? ==> s.cleaner.i >= s.cleaner.n && s.cleaner.doomed == []
    ensures FateKept(s, Sweep(v, u), MoveCleaner(s, v, u), c)
  {
    assert s.cleaner.ClIdle? && c in s.place ==> multiset(Cleaning(s.cleaner))[c] == 0;
  }

  lemma {:induction false} FateSweep(s: State, v: Verdict, u: nat, c: nat)
    requires Placed(s) && s.published
    ensures FateKept(s, Sweep(v, u), MoveCleaner(s, v, u), c)
  {
    if s.cleaner.ClGot? {
      if v != Good || NoPlace(s, u) {
        FateDoomed(s, v, u, c);
      } else {
        FateReturned(s, v, u, c);
      }
    } else if s.cleaner.ClLoop? && s.cleaner.i < s.cleaner.n {
      FateTaken(s, v, u, c);
    } else if s.cleaner.ClLoop? && s.cleaner.doomed != [] {
      FateClosed(s, v, u, c);
    } else {
      FateTurn(s, v, u, c);
    }
  }

  /** A connection is put back, or changes hands. */
  lemma {:induction false} FatePut(s: State, t: nat, d: nat, failed: bool, c: nat)
    requires Placed(s)
    ensures FateKept(s, Put(t, d, failed), Apply(s, Put(t, d, failed)), c)
  {}

  lemma {:induction false} FatePass(s: State, t: nat, to: nat, d: nat, c: nat)
    requires Placed(s)
    ensures FateKept(s, Pass(t, to, d), Apply(s, Pass(t, to, d)), c)
  {}

  lemma {:induction false} FateBegin(s: State, step: Step, c: nat)
    requires Placed(s) && (step.Fill? || step.Publish? || step.Get?)
    ensures FateKept(s, step, Apply(s, step), c)
  {}

  lemma {:induction false} FateStep(s: State, step: Step, c: nat)
    requires Placed(s)
    ensures FateKept(s, step, Apply(s, step), c)
  {
    match step {
      case Move(t, v, u) => if t < |s.clients| { FateClient(s, t, v, u, c); }
      case Sweep(v, u) => if s.published { FateSweep(s, v, u, c); }
      case Put(t, d, failed) => FatePut(s, t, d, failed, c);
      case Pass(t, to, d) => FatePass(s, t, to, d, c);
      case _ => FateBegin(s, step, c);
    }
  }

  lemma {:induction false} FateRun(s: State, steps: seq<Step>, before: set<nat>, c: nat)
    requires Placed(s) && (c in before <==> Lost(s, c))
    ensures Placed(Run(s, steps)) && (c in Condemned(before, s, steps) <==> Lost(Run(s, steps), c))
    decreases |steps|
  {
    if steps != [] {
      PlacedStep(s, steps[0]);
      FateStep(s, steps[0], c);
      FateRun(Apply(s, steps[0]), steps[1..], before + Condemns(s, steps[0]), c);
    }
  }

  /** Some thread is about to close `c`. */
  predicate BeingClosed(s: State, c: nat) {
    || (exists t :: 0 <= t < |s.clients| && Dooms(s.clients[t].pc) && Hand(s.clients[t].pc) == c)
    || c in Doomed(s.cleaner)
  }

  /** What Placed says of a lost connection. */
  lemma {:induction false} LostMeans(s: State, c: nat)
    requires Placed(s)
    ensures Lost(s, c) <==> c in s.closes || BeingClosed(s, c)
    ensures Lost(s, c) ==> c !in s.idle && forall t :: 0 <= t < |s.clients| ==> c !in s.clients[t].held
  {
    assert c in s.idle ==> multiset(s.idle)[c] > 0;
    assert c in s.closes <==> s.closes[c] > 0;
    var doomed: multiset<nat> := multiset(Doomed(s.cleaner));
    assert c in Doomed(s.cleaner) ==> doomed[c] > 0;
    assert multiset(Cleaning(s.cleaner))[c] >= doomed[c];
    forall t | 0 <= t < |s.clients| && c in s.clients[t].held ensures At(s.place, c, AtClient(t)) {}
  }

  /** In every run a connection is closed, or about to be, if and only if it was condemned: put back with an
      error, found expired, dead or not to be reset, sent into a full channel, or rejected by OnCreate. From
      that moment on it is neither in the channel nor with any client. */
  lemma {:induction false} ClosedExactly(config: Config, clients: nat, steps: seq<Step>, c: nat)
    ensures var s := Run(Init(config, clients), steps);
            var condemned := c in Condemned({}, Init(config, clients), steps);
            && (condemned <==> c in s.closes || BeingClosed(s, c))
            && (condemned ==> c !in s.idle && forall t :: 0 <= t < |s.clients| ==> c !in s.clients[t].held)
  {
    var s0 := Init(config, clients);
    FateRun(s0, steps, {}, c);
    LostMeans(Run(s0, steps), c);
  }

  // ----- The channel hands connections out in the order they come in -----

  /** The waiting client `u` has been served with `c` directly. */
  predicate ServedBy(s: State, s': State, u: nat, c: nat)
    requires |s'.clients| == |s.clients|
  {
    u < |s.clients| && s.clients[u].pc == CWait && s'.clients[u].pc == GGot(c)
  }

  /** The connections sent in a step, */
  function Sends(s: State, step: Step, s': State): seq<nat>
    requires |s'.clients| == |s.clients|
  {
    match step
    case Move(t, v, u) =>
      if t < |s.clients| && s.clients[t].pc.PSend? && s'.clients[t].pc.PSendStats? then [s.clients[t].pc.c] else []
    case Sweep(v, u) => if s.published && s.cleaner.ClGot? && s'.cleaner.ClLoop? then [s.cleaner.c] else []
    case _ => []
  }

  /** and those received. */
  function Receives(s: State, step: Step, s': State): seq<nat>
    requires |s'.clients| == |s.clients|
  {
    match step
    case Move(t, v, u) =>
      if t >= |s.clients| then []
      else if s.clients[t].pc.PSend? && ServedBy(s, s', u, s.clients[t].pc.c) then [s.clients[t].pc.c]
      else if !s.clients[t].pc.GGot? && s'.clients[t].pc.GGot? then [s'.clients[t].pc.c]
      else []
    case Sweep(v, u) =>
      if !s.published then []
      else if s.cleaner.ClGot? && ServedBy(s, s', u, s.cleaner.c) then [s.cleaner.c]
      else if s.cleaner.ClLoop? && s'.cleaner.ClGot? then [s'.cleaner.c]
      else []
    case _ => []
  }

  function AllSent(s: State, steps: seq<Step>): seq<nat>
    decreases |steps|
  {
    if steps == [] then []
    else
      SameShape(s, steps[0]);
      Sends(s, steps[0], Apply(s, steps[0])) + AllSent(Apply(s, steps[0]), steps[1..])
  }

  function AllReceived(s: State, steps: seq<Step>): seq<nat>
    decreases |steps|
  {
    if steps == [] then []
    else
      SameShape(s, steps[0]);
      Receives(s, steps[0], Apply(s, steps[0])) + AllReceived(Apply(s, steps[0]), steps[1..])
  }

  /** What is sent goes to the end of the channel, what is received leaves from its front. */
  ghost predicate InOrder(s: State, step: Step, s': State)
    requires |s'.clients| == |s.clients|
  {
    s.idle + Sends(s, step, s') == Receives(s, step, s') + s'.idle
  }

  lemma {:induction false} OrderReceive(s: State, t: nat, v: Verdict, u: nat, otherwise: Pc)
    requires t < |s.clients| && Tries(s.clients[t].pc, v) && !otherwise.GGot?
    ensures var s' := Receive(s, t, otherwise); |s'.clients| == |s.clients| && InOrder(s, Move(t, v, u), s')
  {
    if s.idle != [] {
      assert s.idle == [s.idle[0]] + s.idle[1..];
    }
  }

  lemma {:induction false} OrderSend(s: State, t: nat, v: Verdict, u: nat)
    requires t < |s.clients| && s.clients[t].pc.PSend?
    ensures var s' := Send(s, t, s.clients[t].pc.c, u);
            |s'.clients| == |s.clients| && InOrder(s, Move(t, v, u), s')
  {}

  /** The channel is not touched. */
  predicate Aside(s: State, t: nat, s': State)
    requires t < |s.clients|
  {
    && s'.idle == s.idle && |s'.clients| == |s.clients| && s'.clients == s.clients[t := s'.clients[t]]
    && (!s.clients[t].pc.GGot? ==> !s'.clients[t].pc.GGot?)
  }

  lemma {:induction false} AsideThink(s: State, t: nat, v: Verdict)
    requires t < |s.clients|
    ensures Aside(s, t, Think(s, t, v))
  {}

  lemma {:induction false} AsideMoving(s: State, t: nat, v: Verdict, u: nat)
    requires t < |s.clients|
    requires var pc := s.clients[t].pc; pc.GDrop? || pc.PClose? || pc.CCreate? || pc.LeaveWith? || pc.LeaveEmpty?
    ensures Aside(s, t, MoveClient(s, t, v, u))
  {}

  lemma {:induction false} OrderElse(s: State, t: nat, v: Verdict, u: nat)
    requires t < |s.clients| && !Tries(s.clients[t].pc, v) && !s.clients[t].pc.PSend?
    ensures var s' := MoveClient(s, t, v, u); |s'.clients| == |s.clients| && InOrder(s, Move(t, v, u), s')
  {
    var pc := s.clients[t].pc;
    if pc.GDrop? || pc.PClose? || pc.CCreate? || pc.LeaveWith? || pc.LeaveEmpty? {
      AsideMoving(s, t, v, u);
    } else {
      AsideThink(s, t, v);
    }
  }

  lemma {:induction false} OrderMove(s: State, t: nat, v: Verdict, u: nat)
    requires t < |s.clients|
    ensures var s' := MoveClient(s, t, v, u); |s'.clients| == |s.clients| && InOrder(s, Move(t, v, u), s')
  {
    match s.clients[t].pc {
      case GTake => OrderReceive(s, t, v, u, CCheck);
      case CPoll(k) => OrderReceive(s, t, v, u, CRetry(k + 1));
      case CWait => if v.Good? { OrderReceive(s, t, v, u, CWait); } else { OrderElse(s, t, v, u); }
      case PSend(_) => OrderSend(s, t, v, u);
      case _ => OrderElse(s, t, v, u);
    }
  }

  lemma {:induction false} OrderSweep(s: State, v: Verdict, u: nat)
    requires s.published
    ensures var s' := MoveCleaner(s, v, u); |s'.clients| == |s.clients| && InOrder(s, Sweep(v, u), s')
  {
    if s.idle != [] {
      assert s.idle == [s.idle[0]] + s.idle[1..];
    }
  }

  lemma {:induction false} OrderStep(s: State, step: Step)
    ensures var s' := Apply(s, step); |s'.clients| == |s.clients| && InOrder(s, step, s')
  {
    match step {
      case Move(t, v, u) => if t < |s.clients| { OrderMove(s, t, v, u); }
      case Sweep(v, u) => if s.published { OrderSweep(s, v, u); }
      case _ =>
    }
  }

  lemma {:induction false} Chain(
    idle: seq<nat>, sent: seq<nat>, received: seq<nat>, idle': seq<nat>,
    sent': seq<nat>, received': seq<nat>, last: seq<nat>)
    requires idle + sent == received + idle' && idle' + sent' == received' + last
    ensures idle + (sent + sent') == (received + received') + last
  {
    assert idle + (sent + sent') == (idle + sent) + sent';
    assert (received + idle') + sent' == received + (idle' + sent');
    assert received + (received' + last) == (received + received') + last;
  }

  lemma {:induction false} OrderRun(s: State, steps: seq<Step>)
    ensures s.idle + AllSent(s, steps) == AllReceived(s, steps) + Run(s, steps).idle
    decreases |steps|
  {
    if steps != [] {
      var s' := Apply(s, steps[0]);
      OrderStep(s, steps[0]);
      OrderRun(s', steps[1..]);
      Chain(s.idle, Sends(s, steps[0], s'), Receives(s, steps[0], s'), s'.idle,
            AllSent(s', steps[1..]), AllReceived(s', steps[1..]), Run(s, steps).idle);
    }
  }

  /** Whoever sends and receives, clients and cleaner, waiting or not: the connections received, followed by
      those in the channel, are exactly those sent, in the order they were sent. */
  lemma {:induction false} ChannelInOrder(config: Config, clients: nat, steps: seq<Step>)
    ensures var s := Init(config, clients); AllReceived(s, steps) + Run(s, steps).idle == AllSent(s, steps)
  {
    OrderRun(Init(config, clients), steps);
  }
}
