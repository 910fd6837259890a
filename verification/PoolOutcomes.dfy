/**
 What each call of Get and Put has done when it returns, as an observer of the schedule sees it.
 */
module PoolOutcomes {
  import opened Basics
  import opened PoolProtocol
  import opened PoolSteps
  import opened PoolFates
  import PoolPlaces

  /**
   A call of Get (or the creation of a connection by the fill, when `filling`): the connection it has found
   fit or created, whether it has met a refusal, how often it has found neither room nor too many waiters,
   how often it has found room, its creations, its retries, the two counts the client keeps, the connections
   it has handed to the program, and whether it has returned.

   A call of Put: its connection, whether that was condemned, what it has sent and closed, and whether it has
   returned.
   */
  datatype Call =
    | Getting(filling: bool, accepted: Maybe<nat>, refused: bool, blocked: nat, rooms: nat, creations: nat,
              polls: nat, waits: nat, retries: nat, got: set<nat>, returned: bool)
    | Putting(c: nat, condemned: bool, sent: seq<nat>, closed: multiset<nat>, returned: bool)

  predicate FindsRoom(s: State) {
    s.config.maxActive == 0 || s.stats.active + s.stats.idle < s.config.maxActive
  }

  predicate FindsCrowd(s: State) { s.config.maxWaiters > 0 && s.stats.waiters >= s.config.maxWaiters }

  /** The operation at hand ends in a refusal: of the factory or OnCreate, because too many callers wait,
      because the wait is cancelled, or because all retries are used up. */
  predicate Refuses(s: State, pc: Pc, v: Verdict) {
    || (pc.CCreate? && v != Good)
    || (pc.CCheck? && !FindsRoom(s) && FindsCrowd(s))
    || (pc.CWait? && v == Broken)
    || (pc.CRetry? && pc.k >= s.config.maxRetries)
  }

  /** The operation at hand is a further retry. */
  predicate Retries(s: State, pc: Pc) { pc.CRetry? && pc.k < s.config.maxRetries }

  /** The call in progress after an operation of its own. */
  function GoesOn(c: Call, s: State, t: nat, v: Verdict, u: nat, s': State): Call
    requires t < |s.clients| == |s'.clients|
  {
    var x, y := s.clients[t], s'.clients[t];
    match c
    case Getting(filling, accepted, refused, blocked, rooms, creations, polls, _, _, got, _) =>
      Getting(filling,
              if x.pc.GGot? && v == Good then Just(x.pc.c)
              else if x.pc.CCreate? && v == Good then Just(s.made) else accepted,
              refused || Refuses(s, x.pc, v),
              blocked + if x.pc.CCheck? && !FindsRoom(s) && !FindsCrowd(s) then 1 else 0,
              rooms + if (x.pc.CCheck? || Retries(s, x.pc)) && FindsRoom(s) then 1 else 0,
              creations + if x.pc.CCreate? then 1 else 0,
              polls + if Retries(s, x.pc) then 1 else 0,
              x.waited, x.retried, got + (y.held - x.held), y.pc.Ready?)
    case Putting(d, condemned, sent, closed, _) =>
      Putting(d, condemned || d in Condemns(s, Move(t, v, u)), sent + Sends(s, Move(t, v, u), s'),
              closed + (s'.closes - s.closes), y.pc.Ready?)
  }

  /** The calls of client `t` after a step from `s` to `s'`. */
  function CallsAfter(calls: seq<Call>, s: State, step: Step, s': State, t: nat): seq<Call>
    requires t < |s.clients| == |s'.clients|
  {
    match step
    case Fill =>
      if t == 0 && !s.published && s.filling > 0 && s.clients[0].pc == Ready && s.clients[0].held == {} then
        calls + [Getting(true, Nothing, false, 0, 1, 0, 0, 0, 0, {}, false)]
      else calls
    case Get(t') =>
      if t' == t && s.published && s.clients[t].pc == Ready then
        calls + [Getting(false, Nothing, false, 0, 0, 0, 0, 0, 0, {}, false)]
      else calls
    case Put(t', c, failed) =>
      if t' == t && s.clients[t].pc == Ready && c in s.clients[t].held then
        calls + [Putting(c, failed, [], multiset{}, false)]
      else calls
    case Move(t', v, u) =>
      if t' != t || s.clients[t].pc == Ready || calls == [] then calls
      else calls[|calls| - 1 := GoesOn(calls[|calls| - 1], s, t, v, u, s')]
    case _ => calls
  }

  function Calls(calls: seq<Call>, s: State, steps: seq<Step>, t: nat): seq<Call>
    requires t < |s.clients|
    decreases |steps|
  {
    if steps == [] then calls
    else
      SameShape(s, steps[0]);
      var s' := Apply(s, steps[0]);
      Calls(CallsAfter(calls, s, steps[0], s', t), s', steps[1..], t)
  }

  /** A call that is over: a Get has either been refused or accepted a connection, which it has handed out; a
      Put has sent its connection, or closed it if it was condemned. */
  predicate Settled(c: Call) {
    && c.returned
    && match c
       case Getting(filling, accepted, refused, blocked, rooms, creations, polls, waits, retries, got, _) =>
         && refused == accepted.Nothing? && got == (if accepted.Just? then {accepted.value} else {})
         && creations == rooms && (!filling ==> waits == blocked && retries == polls)
       case Putting(d, condemned, sent, closed, _) =>
         if condemned then sent == [] && closed == multiset{d} else sent == [d] && closed == multiset{}
  }

  /** The connection that a Get is about to hand out. */
  function Chosen(pc: Pc): Maybe<nat> {
    match pc
    case GStore(c) => Just(c)
    case GStats(c) => Just(c)
    case CStore(c) => Just(c)
    case CStats(c) => Just(c)
    case LeaveWith(c) => Just(c)
    case _ => Nothing
  }

  /** A call in progress fits where its client is. */
  predicate InProgress(c: Call, x: Client) {
    && !c.returned && !x.pc.Ready?
    && match c
       case Getting(filling, accepted, refused, blocked, rooms, creations, polls, _, _, got, _) =>
         && got == {} && accepted == Chosen(x.pc) && refused == x.pc.LeaveEmpty?
         && (Looking(x.pc) || x.pc.CCreate? || Chosen(x.pc).Just? || x.pc.LeaveEmpty?)
         && rooms == creations + (if x.pc.CCreate? then 1 else 0)
         && (!filling ==> blocked == x.waited + (if x.pc.CEnter? then 1 else 0) && polls == x.retried)
       case Putting(d, condemned, sent, closed, _) =>
         && sent == (if x.pc.PSendStats? then [d] else [])
         && closed == (if x.pc.PCloseStats? then multiset{d} else multiset{})
         && match x.pc
            case PDelete(e, failed) => e == d && condemned == failed
            case PCheck(e, failed) => e == d && condemned == failed
            case PSend(e) => e == d && !condemned
            case PClose(e) => e == d && condemned
            case PSendStats => !condemned
            case PCloseStats => condemned
            case _ => false
  }

  predicate CallsFit(calls: seq<Call>, x: Client) {
    && (forall k :: 0 <= k < |calls| - 1 ==> Settled(calls[k]))
    && (if calls == [] then x.pc.Ready?
        else if x.pc.Ready? then Settled(calls[|calls| - 1])
        else InProgress(calls[|calls| - 1], x))
  }

  /** The call goes on as its client does. */
  predicate FitsNext(c: Call, s: State, t: nat, v: Verdict, u: nat, s': State)
    requires t < |s.clients| == |s'.clients|
  {
    var c', y := GoesOn(c, s, t, v, u, s'), s'.clients[t];
    if y.pc.Ready? then Settled(c') else InProgress(c', y)
  }

  lemma {:induction false} NextThinkGet(c: Call, s: State, t: nat, v: Verdict, u: nat)
    requires t < |s.clients| && InProgress(c, s.clients[t]) && c.Getting?
    requires !Moving(s.clients[t].pc) || (s.clients[t].pc.CWait? && !v.Good?)
    ensures FitsNext(c, s, t, v, u, Think(s, t, v))
  {}

  lemma {:induction false} NextThinkPut(c: Call, s: State, t: nat, v: Verdict, u: nat)
    requires t < |s.clients| && InProgress(c, s.clients[t]) && c.Putting? && !Moving(s.clients[t].pc)
    ensures FitsNext(c, s, t, v, u, Think(s, t, v))
  {
    var s' := Think(s, t, v);
    assert s'.closes - s.closes == multiset{};
  }

  lemma {:induction false} NextThink(c: Call, s: State, t: nat, v: Verdict, u: nat)
    requires t < |s.clients| && InProgress(c, s.clients[t])
    requires !Moving(s.clients[t].pc) || (s.clients[t].pc.CWait? && !v.Good?)
    ensures FitsNext(c, s, t, v, u, Think(s, t, v))
  {
    if c.Getting? {
      NextThinkGet(c, s, t, v, u);
    } else {
      NextThinkPut(c, s, t, v, u);
    }
  }

  lemma {:induction false} NextTry(c: Call, s: State, t: nat, v: Verdict, u: nat, otherwise: Pc)
    requires t < |s.clients| && InProgress(c, s.clients[t]) && Tries(s.clients[t].pc, v)
    requires otherwise == match s.clients[t].pc { case GTake => CCheck case CPoll(k) => CRetry(k + 1) case _ => CWait }
    ensures FitsNext(c, s, t, v, u, Receive(s, t, otherwise))
  {}

  lemma {:induction false} NextCreate(c: Call, s: State, t: nat, v: Verdict, u: nat)
    requires t < |s.clients| && InProgress(c, s.clients[t]) && s.clients[t].pc.CCreate?
    ensures FitsNext(c, s, t, v, u, Create(s, t, v))
  {}

  /** A raw close. */
  lemma {:induction false} NextClose(c: Call, s: State, t: nat, v: Verdict, u: nat)
    requires t < |s.clients| && InProgress(c, s.clients[t]) && (s.clients[t].pc.GDrop? || s.clients[t].pc.PClose?)
    ensures |MoveClient(s, t, v, u).clients| == |s.clients|
    ensures FitsNext(c, s, t, v, u, MoveClient(s, t, v, u))
  {}

  lemma {:induction false} NextServed(c: Call, s: State, t: nat, v: Verdict, u: nat)
    requires t < |s.clients| && InProgress(c, s.clients[t]) && s.clients[t].pc.PSend? && Waiting(s, u)
    ensures |Send(s, t, s.clients[t].pc.c, u).clients| == |s.clients|
    ensures FitsNext(c, s, t, v, u, Send(s, t, s.clients[t].pc.c, u))
  {
    var s' := Send(s, t, s.clients[t].pc.c, u);
    assert s'.closes - s.closes == multiset{} && s'.clients[t].pc == PSendStats && c.sent == [];
    assert Condemns(s, Move(t, v, u)) == {};
  }

  lemma {:induction false} NextSent(c: Call, s: State, t: nat, v: Verdict, u: nat)
    requires t < |s.clients| && InProgress(c, s.clients[t]) && s.clients[t].pc.PSend? && !Waiting(s, u)
    ensures |Send(s, t, s.clients[t].pc.c, u).clients| == |s.clients|
    ensures FitsNext(c, s, t, v, u, Send(s, t, s.clients[t].pc.c, u))
  {
    var s' := Send(s, t, s.clients[t].pc.c, u);
    assert s'.closes - s.closes == multiset{} && c.sent == [];
  }

  lemma {:induction false} NextSend(c: Call, s: State, t: nat, v: Verdict, u: nat)
    requires t < |s.clients| && InProgress(c, s.clients[t]) && s.clients[t].pc.PSend?
    ensures |Send(s, t, s.clients[t].pc.c, u).clients| == |s.clients|
    ensures FitsNext(c, s, t, v, u, Send(s, t, s.clients[t].pc.c, u))
  {
    if Waiting(s, u) {
      NextServed(c, s, t, v, u);
    } else {
      NextSent(c, s, t, v, u);
    }
  }

  lemma {:induction false} NextLeave(c: Call, s: State, t: nat, v: Verdict, u: nat)
    requires t < |s.clients| && InProgress(c, s.clients[t])
    requires s.clients[t].pc.LeaveWith? || s.clients[t].pc.LeaveEmpty?
    requires s.clients[t].pc.LeaveWith? ==> s.clients[t].pc.c !in s.clients[t].held
    ensures FitsNext(c, s, t, v, u, Leave(s, t))
  {
    var x, y := s.clients[t], Leave(s, t).clients[t];
    if x.pc.LeaveWith? && x.pending == 0 {
      assert y.held - x.held == {x.pc.c};
    } else {
      assert y.held - x.held == {};
    }
  }

  /** The connection in a hand is not held. */
  lemma {:induction false} HandNotHeld(s: State, t: nat)
    requires PoolPlaces.Placed(s) && t < |s.clients| && s.clients[t].pc.LeaveWith?
    ensures s.clients[t].pc.c !in s.clients[t].held
  {
    var c := s.clients[t].pc.c;
    assert PoolPlaces.Hand(s.clients[t].pc) == c;
    assert PoolPlaces.At(s.place, c, InHand(t));
    assert c in s.clients[t].held ==> PoolPlaces.At(s.place, c, AtClient(t));
  }

  lemma {:induction false} NextTries(c: Call, s: State, t: nat, v: Verdict, u: nat)
    requires t < |s.clients| && InProgress(c, s.clients[t]) && Tries(s.clients[t].pc, v)
    ensures |MoveClient(s, t, v, u).clients| == |s.clients|
    ensures FitsNext(c, s, t, v, u, MoveClient(s, t, v, u))
  {
    var otherwise := match s.clients[t].pc { case GTake => CCheck case CPoll(k) => CRetry(k + 1) case _ => CWait };
    assert MoveClient(s, t, v, u) == Receive(s, t, otherwise);
    NextTry(c, s, t, v, u, otherwise);
  }

  lemma {:induction false} NextLeaves(c: Call, s: State, t: nat, v: Verdict, u: nat)
    requires PoolPlaces.Placed(s) && t < |s.clients| && InProgress(c, s.clients[t])
    requires s.clients[t].pc.LeaveWith? || s.clients[t].pc.LeaveEmpty?
    ensures |MoveClient(s, t, v, u).clients| == |s.clients|
    ensures FitsNext(c, s, t, v, u, MoveClient(s, t, v, u))
  {
    if s.clients[t].pc.LeaveWith? {
      HandNotHeld(s, t);
    }
    NextLeave(c, s, t, v, u);
  }

  lemma {:induction false} NextMove(c: Call, s: State, t: nat, v: Verdict, u: nat)
    requires PoolPlaces.Placed(s) && t < |s.clients| && InProgress(c, s.clients[t])
    ensures |MoveClient(s, t, v, u).clients| == |s.clients|
    ensures FitsNext(c, s, t, v, u, MoveClient(s, t, v, u))
  {
    var pc := s.clients[t].pc;
    if Tries(pc, v) {
      NextTries(c, s, t, v, u);
    } else if pc.GDrop? || pc.PClose? {
      NextClose(c, s, t, v, u);
    } else if pc.PSend? {
      NextSend(c, s, t, v, u);
    } else if pc.LeaveWith? || pc.LeaveEmpty? {
      NextLeaves(c, s, t, v, u);
    } else if pc.CCreate? {
      NextCreate(c, s, t, v, u);
    } else {
      NextThink(c, s, t, v, u);
    }
  }

  /** Another thread's step: the call may be served. */
  lemma {:induction false} NextElsewhere(calls: seq<Call>, x: Client, y: Client)
    requires CallsFit(calls, x) && Undisturbed(x, y)
    ensures CallsFit(calls, y)
  {}

  /** A call begins. */
  lemma {:induction false} NextBegin(calls: seq<Call>, s: State, step: Step, t: nat)
    requires t < |s.clients| && CallsFit(calls, s.clients[t]) && s.clients[t].pc.Ready? && !step.Move? && !step.Sweep?
    ensures |Apply(s, step).clients| == |s.clients|
    ensures CallsFit(CallsAfter(calls, s, step, Apply(s, step), t), Apply(s, step).clients[t])
  {}

  /** The calls still fit after a step. */
  predicate StillFit(calls: seq<Call>, s: State, step: Step, s': State, t: nat)
    requires t < |s.clients|
  {
    |s'.clients| == |s.clients| && CallsFit(CallsAfter(calls, s, step, s', t), s'.clients[t])
  }

  lemma {:induction false} CallsIdle(calls: seq<Call>, s: State, t: nat, v: Verdict, u: nat)
    requires t < |s.clients| && CallsFit(calls, s.clients[t]) && s.clients[t].pc.Ready?
    ensures StillFit(calls, s, Move(t, v, u), MoveClient(s, t, v, u), t)
  {
    assert MoveClient(s, t, v, u) == Think(s, t, v);
    assert Think(s, t, v).clients[t] == s.clients[t];
  }

  /** The last call goes on. */
  lemma {:induction false} CallsGoOn(calls: seq<Call>, s: State, t: nat, v: Verdict, u: nat, s': State)
    requires t < |s.clients| == |s'.clients| && CallsFit(calls, s.clients[t]) && !s.clients[t].pc.Ready?
    requires FitsNext(calls[|calls| - 1], s, t, v, u, s')
    ensures StillFit(calls, s, Move(t, v, u), s', t)
  {}

  /** A step of the client itself, inside a call. */
  lemma {:induction false} CallsOwn(calls: seq<Call>, s: State, t: nat, v: Verdict, u: nat)
    requires PoolPlaces.Placed(s) && t < |s.clients| && CallsFit(calls, s.clients[t]) && !s.clients[t].pc.Ready?
    ensures StillFit(calls, s, Move(t, v, u), MoveClient(s, t, v, u), t)
  {
    NextMove(calls[|calls| - 1], s, t, v, u);
    CallsGoOn(calls, s, t, v, u, MoveClient(s, t, v, u));
  }

  lemma {:induction false} CallsOther(calls: seq<Call>, s: State, t: nat, t': nat, v: Verdict, u: nat)
    requires t < |s.clients| && t' < |s.clients| && t != t' && CallsFit(calls, s.clients[t])
    ensures StillFit(calls, s, Move(t', v, u), MoveClient(s, t', v, u), t)
  {
    MoveElsewhere(s, t', v, u, t);
    NextElsewhere(calls, s.clients[t], MoveClient(s, t', v, u).clients[t]);
  }

  lemma {:induction false} CallsSweep(calls: seq<Call>, s: State, t: nat, v: Verdict, u: nat)
    requires t < |s.clients| && CallsFit(calls, s.clients[t])
    ensures StillFit(calls, s, Sweep(v, u), MoveCleaner(s, v, u), t)
  {
    SweepElsewhere(s, v, u, t);
    NextElsewhere(calls, s.clients[t], MoveCleaner(s, v, u).clients[t]);
  }

  lemma {:induction false} CallsStep(calls: seq<Call>, s: State, step: Step, t: nat)
    requires PoolPlaces.Placed(s) && t < |s.clients| && CallsFit(calls, s.clients[t])
    ensures StillFit(calls, s, step, Apply(s, step), t)
  {
    if step.Move? && step.t < |s.clients| {
      if step.t != t {
        CallsOther(calls, s, t, step.t, step.v, step.u);
      } else if s.clients[t].pc.Ready? {
        CallsIdle(calls, s, t, step.v, step.u);
      } else {
        CallsOwn(calls, s, t, step.v, step.u);
      }
    } else if step.Sweep? && s.published {
      CallsSweep(calls, s, t, step.v, step.u);
    } else if !step.Move? && !step.Sweep? {
      CallsBegin(calls, s, step, t);
    }
  }

  lemma {:induction false} CallsBegin(calls: seq<Call>, s: State, step: Step, t: nat)
    requires t < |s.clients| && CallsFit(calls, s.clients[t]) && !step.Move? && !step.Sweep?
    ensures StillFit(calls, s, step, Apply(s, step), t)
  {
    if s.clients[t].pc.Ready? {
      NextBegin(calls, s, step, t);
    } else {
      EvolveOutside(s, step, t);
      NextElsewhere(calls, s.clients[t], Apply(s, step).clients[t]);
    }
  }

  lemma {:induction false} CallsRun(calls: seq<Call>, s: State, steps: seq<Step>, t: nat)
    requires PoolPlaces.Placed(s) && t < |s.clients| && CallsFit(calls, s.clients[t])
    ensures t < |Run(s, steps).clients| && CallsFit(Calls(calls, s, steps, t), Run(s, steps).clients[t])
    decreases |steps|
  {
    if steps != [] {
      PoolPlaces.PlacedStep(s, steps[0]);
      CallsStep(calls, s, steps[0], t);
      var s' := Apply(s, steps[0]);
      CallsRun(CallsAfter(calls, s, steps[0], s', t), s', steps[1..], t);
    }
  }

  /** In every run, a Get that has returned has met a refusal and handed out nothing, or has met none and
      handed out exactly the connection it found fit or created. It has begun a wait exactly when it found
      neither room nor too many waiters, and called the factory exactly when it found room; and the two counts
      its client keeps are the waits and retries it began. A Put that has returned has closed its connection,
      if that was condemned, or else sent it, and nothing more. */
  lemma {:induction false} EveryCall(config: Config, clients: nat, steps: seq<Step>, t: nat)
    requires t < clients
    ensures var calls := Calls([], Init(config, clients), steps, t);
            forall k :: 0 <= k < |calls| ==>
              match calls[k]
              case Getting(
                filling, accepted, refused, blocked, rooms, creations, polls, waits, retries, got, returned) =>
                if returned then
                  && (refused ==> got == {}) && (!refused ==> accepted.Just? && got == {accepted.value})
                  && creations == rooms && (!filling ==> waits == blocked && retries == polls)
                else k == |calls| - 1 && got == {} && creations <= rooms <= creations + 1
              case Putting(c, condemned, sent, closed, returned) =>
                if returned then
                  if condemned then sent == [] && closed == multiset{c} else sent == [c] && closed == multiset{}
                else k == |calls| - 1
  {
    CallsRun([], Init(config, clients), steps, t);
  }

  /** A look into the channel, at the beginning of a Get, at its end of a wait or in a retry: the first connection
      is received if there is one; otherwise the call goes on to create one or wait, waits on, or tries again. */
  lemma {:induction false} LookDecides(s: State, t: nat, u: nat)
    requires t < |s.clients| && (s.clients[t].pc.GTake? || s.clients[t].pc.CWait? || s.clients[t].pc.CPoll?)
    ensures var pc, s' := s.clients[t].pc, Run(s, [Move(t, Good, u)]);
            && |s'.clients| == |s.clients|
            && (if s.idle != [] then s'.idle == s.idle[1..] && s'.clients[t].pc == GGot(s.idle[0])
                else
                  && s'.idle == []
                  && s'.clients[t].pc == match pc { case GTake => CCheck case CPoll(k) => CRetry(k + 1) case _ => pc })
  {
    assert [Move(t, Good, u)][1..] == [];
  }

  /** A send: a client that waits for a connection gets it, and otherwise the channel, if there is room. */
  lemma {:induction false} SendDecides(s: State, t: nat, v: Verdict, u: nat)
    requires t < |s.clients| && s.clients[t].pc.PSend?
    ensures var c, s' := s.clients[t].pc.c, Run(s, [Move(t, v, u)]);
            && |s'.clients| == |s.clients|
            && (if s.idle == [] && u < |s.clients| && s.clients[u].pc == CWait then
                  s'.clients[u].pc == GGot(c) && s'.clients[t].pc == PSendStats && s'.idle == []
                else if |s.idle| < s.config.maxIdle then
                  s'.clients[t].pc == PSendStats && s'.idle == s.idle + [c]
                else s'.clients[t].pc == PClose(c) && s'.idle == s.idle)
  {
    assert [Move(t, v, u)][1..] == [];
  }

  /** The end of a Get: first it signs off as a waiter, once for every wait it has nested, and then it returns. */
  lemma {:induction false} LeaveDecides(s: State, t: nat, v: Verdict, u: nat)
    requires t < |s.clients| && (s.clients[t].pc.LeaveWith? || s.clients[t].pc.LeaveEmpty?)
    ensures var x, s' := s.clients[t], Run(s, [Move(t, v, u)]);
            && |s'.clients| == |s.clients|
            && (if x.pending > 0 then
                  s'.clients[t] == x.(pending := x.pending - 1) && s'.stats.waiters == s.stats.waiters - 1
                else
                  && s'.clients[t] == x.(pc := Ready, held := x.held + if x.pc.LeaveWith? then {x.pc.c} else {})
                  && s'.stats == s.stats)
  {
    assert [Move(t, v, u)][1..] == [];
  }

  /** A thread of the program hands a connection it got to another. */
  lemma {:induction false} PassDecides(s: State, t: nat, to: nat, c: nat)
    requires s.published && t < |s.clients| && to < |s.clients| && t != to && c in s.clients[t].held
    ensures var s' := Run(s, [Pass(t, to, c)]);
            && |s'.clients| == |s.clients| && s'.idle == s.idle && s'.stats == s.stats
            && s'.clients[t].held == s.clients[t].held - {c} && s'.clients[to].held == s.clients[to].held + {c}
  {
    assert [Pass(t, to, c)][1..] == [];
  }

  /** The pool is published once all connections of the fill have been created, or not, and put back. */
  lemma {:induction false} PublishDecides(s: State)
    requires s.clients != []
    ensures var s' := Run(s, [Publish]);
            var filled := s.filling <= 0 && s.clients[0].pc == Ready && s.clients[0].held == {};
            s' == if filled then s.(published := true) else s
  {
    assert [Publish][1..] == [];
  }
}
