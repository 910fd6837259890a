/**
 The connection pool as interleaved threads: clients inside Get and Put, and the cleaner. One step
 is one channel operation, one locked region, one operation on the map of active connections or one
 raw close. The initial fill is the work of client 0, before the pool is published. Runs end before
 Shutdown.
 */
module PoolProtocol {

  /** `initial`, `maxIdle`, `maxActive`, `maxWaiters`, `maxRetries`, `minEvictable`: the options. */
  datatype Config = Config(
    initial: int, maxIdle: nat, maxActive: int, maxWaiters: int, maxRetries: int, minEvictable: int)

  /** Each constructor names the client's next operation. */
  datatype Pc =
    | Ready
    // Get
    | GTake                        // try to receive from the idle channel
    | GGot(c: nat)                 // handleIdleConnection: is it expired or dead?
    | GDrop(c: nat)                // raw close
    | GDropStats                   // Idle -= 1, Total -= 1
    | GStore(c: nat)               // into activeConns
    | GStats(c: nat)               // Idle -= 1, Active += 1, Acquired += 1
    | CCheck                       // compare Active + Idle with MaxActive, Waiters with MaxWaiters
    | CEnter                       // Waiters += 1
    | CWait                        // wait for a connection, a timeout or a cancellation
    | CRetry(k: int)               // compare again, after the back-off
    | CPoll(k: int)                // try to receive once more
    | CCreate                      // the factory and OnCreate
    | CStore(c: nat)               // into activeConns
    | CStats(c: nat)               // Active += 1, Total += 1, Acquired += 1
    | LeaveWith(c: nat)            // the deferred Waiters -= 1, then return the connection
    | LeaveEmpty                   // the same, then return an error
    // Put
    | PDelete(c: nat, failed: bool)   // out of activeConns
    | PCheck(c: nat, failed: bool)    // was there an error, is it dead, does it reset?
    | PClose(c: nat)               // raw close
    | PCloseStats                  // Active -= 1, Total -= 1
    | PSend(c: nat)                // try to send into the idle channel
    | PSendStats                   // Active -= 1, Idle += 1, Released += 1

  /** `held`: connections the program got and has not put back. `pending`: the deferred decrements
      of Waiters, one for every wait the call has nested. `waited` and `retried`: how many waits and
      retries the latest Get has begun; history only. */
  datatype Client = Client(pc: Pc, held: set<nat>, pending: nat, waited: nat, retried: nat)

  /** Channel position `i` of the `n` to look at; `doomed` connections wait for their raw close. */
  datatype Cleaner =
    | ClIdle
    | ClLoop(i: nat, n: nat, doomed: seq<nat>)
    | ClGot(c: nat, i: nat, n: nat, doomed: seq<nat>)
    | ClDrop(i: nat, n: nat, doomed: seq<nat>)

  datatype Stats = Stats(active: int, idle: int, total: int, waiters: int, acquired: int, released: int)

  /** Where a connection is: history only, no thread looks at it. */
  datatype Place = InIdle | AtClient(t: nat) | InHand(t: nat) | AtCleaner | Closed

  /** Connections are numbered from 0 to `made`. `closes` collects the raw closes, `closedPuts` counts
      the Puts that closed their connection; both are history. `filling`: how many connections the
      initial fill has still to create. */
  datatype State = State(
    config: Config, published: bool, filling: int,
    idle: seq<nat>, activeConns: set<nat>, stats: Stats,
    clients: seq<Client>, cleaner: Cleaner,
    made: nat, place: map<nat, Place>, closes: multiset<nat>, closedPuts: nat)

  /** Good: alive, in time, reset, created. Bad: expired, dead, not reset, not created, timed out.
      Broken: OnCreate failed, cancelled. */
  datatype Verdict = Good | Bad | Broken

  /** `u`: a waiting client that a send serves directly. Pass: the program hands a connection it got
      from one of its threads to another. */
  datatype Step =
    | Fill
    | Publish
    | Get(t: nat)
    | Put(t: nat, c: nat, failed: bool)
    | Pass(t: nat, to: nat, c: nat)
    | Move(t: nat, v: Verdict, u: nat)
    | Sweep(v: Verdict, u: nat)

  function Init(config: Config, clients: nat): State {
    State(config, false, config.initial, [], {}, Stats(0, 0, 0, 0, 0, 0),
          seq(clients, _ => Client(Ready, {}, 0, 0, 0)), ClIdle, 0, map[], multiset{}, 0)
  }

  function Goto(s: State, t: nat, pc: Pc): State
    requires t < |s.clients|
  {
    s.(clients := s.clients[t := s.clients[t].(pc := pc)])
  }

  /** Receive from the idle channel, if something is there. */
  function Receive(s: State, t: nat, otherwise: Pc): State
    requires t < |s.clients|
  {
    if s.idle == [] then Goto(s, t, otherwise)
    else
      Goto(s, t, GGot(s.idle[0])).(idle := s.idle[1..], place := s.place[s.idle[0] := InHand(t)])
  }

  function CloseRaw(s: State, c: nat): State {
    s.(place := s.place[c := Closed], closes := s.closes + multiset{c})
  }

  /** The factory, and OnCreate when there is one. */
  function Create(s: State, t: nat, v: Verdict): State
    requires t < |s.clients|
  {
    if v.Good? then Goto(s, t, CStore(s.made)).(made := s.made + 1, place := s.place[s.made := InHand(t)])
    else if v.Bad? then Goto(s, t, LeaveEmpty)
    else CloseRaw(Goto(s, t, LeaveEmpty), s.made).(made := s.made + 1)
  }

  /** May `u` be served directly by a send? Only a receiver of an empty channel can be waiting. */
  predicate Waiting(s: State, u: nat) {
    s.idle == [] && u < |s.clients| && s.clients[u].pc == CWait
  }

  function Serve(s: State, u: nat, c: nat): State
    requires u < |s.clients|
  {
    Goto(s, u, GGot(c)).(place := s.place[c := InHand(u)])
  }

  function Send(s: State, t: nat, c: nat, u: nat): State
    requires t < |s.clients|
  {
    if Waiting(s, u) then Goto(Serve(s, u, c), t, PSendStats)
    else if |s.idle| < s.config.maxIdle then
      Goto(s, t, PSendStats).(idle := s.idle + [c], place := s.place[c := InIdle])
    else Goto(s, t, PClose(c))
  }

  /** One deferred decrement, or the return. */
  function Leave(s: State, t: nat): State
    requires t < |s.clients|
  {
    var x, m := s.clients[t], s.stats;
    if x.pending > 0 then
      s.(clients := s.clients[t := x.(pending := x.pending - 1)], stats := m.(waiters := m.waiters - 1))
    else if x.pc.LeaveWith? then
      s.(clients := s.clients[t := x.(pc := Ready, held := x.held + {x.pc.c})],
         place := s.place[x.pc.c := AtClient(t)])
    else Goto(s, t, Ready)
  }

  /** Is there room for a new connection? */
  predicate Room(s: State) {
    s.config.maxActive == 0 || s.stats.active + s.stats.idle < s.config.maxActive
  }

  predicate Crowded(s: State) {
    s.config.maxWaiters > 0 && s.stats.waiters >= s.config.maxWaiters
  }

  /** Operations that may move a connection from one place to another. */
  predicate Moving(pc: Pc) {
    pc.GTake? || pc.GDrop? || pc.CWait? || pc.CPoll? || pc.CCreate? || pc.PClose? || pc.PSend?
    || pc.LeaveWith? || pc.LeaveEmpty?
  }

  /** The client's next operation, when the one at hand moves no connection. */
  function Next(s: State, pc: Pc, v: Verdict): Pc {
    match pc
    case GGot(c) => if v.Good? then GStore(c) else GDrop(c)
    case GDropStats => CCheck
    case GStore(c) => GStats(c)
    case GStats(c) => LeaveWith(c)
    case CCheck => if Room(s) then CCreate else if Crowded(s) then LeaveEmpty else CEnter
    case CEnter => CWait
    case CWait => if v.Bad? then CRetry(0) else LeaveEmpty
    case CRetry(k) => if k >= s.config.maxRetries then LeaveEmpty else if Room(s) then CCreate else CPoll(k)
    case CStore(c) => CStats(c)
    case CStats(c) => LeaveWith(c)
    case PDelete(c, failed) => PCheck(c, failed)
    case PCheck(c, failed) => if failed || !v.Good? then PClose(c) else PSend(c)
    case PCloseStats => Ready
    case PSendStats => Ready
    case _ => pc
  }

  /** What the operation does to the statistics. */
  function StatsAfter(m: Stats, pc: Pc): Stats {
    match pc
    case GDropStats => m.(idle := m.idle - 1, total := m.total - 1)
    case GStats(_) => m.(idle := m.idle - 1, active := m.active + 1, acquired := m.acquired + 1)
    case CEnter => m.(waiters := m.waiters + 1)
    case CStats(_) => m.(active := m.active + 1, total := m.total + 1, acquired := m.acquired + 1)
    case PCloseStats => m.(active := m.active - 1, total := m.total - 1)
    case PSendStats => m.(active := m.active - 1, idle := m.idle + 1, released := m.released + 1)
    case _ => m
  }

  function ActiveAfter(conns: set<nat>, pc: Pc): set<nat> {
    match pc
    case GStore(c) => conns + {c}
    case CStore(c) => conns + {c}
    case PDelete(c, _) => conns - {c}
    case _ => conns
  }

  /** The client after such an operation. */
  function Advanced(s: State, x: Client, v: Verdict): Client {
    var y := x.(pc := Next(s, x.pc, v));
    if x.pc.CEnter? then y.(pending := x.pending + 1, waited := x.waited + 1)
    else if x.pc.CRetry? && x.pc.k < s.config.maxRetries then y.(retried := x.retried + 1)
    else y
  }

  /** An operation of client `t` that moves no connection. */
  function Think(s: State, t: nat, v: Verdict): State
    requires t < |s.clients|
  {
    var x := s.clients[t];
    s.(clients := s.clients[t := Advanced(s, x, v)],
       stats := StatsAfter(s.stats, x.pc),
       activeConns := ActiveAfter(s.activeConns, x.pc),
       closedPuts := if x.pc.PCloseStats? then s.closedPuts + 1 else s.closedPuts)
  }

  /** The next operation of client `t`. */
  function MoveClient(s: State, t: nat, v: Verdict, u: nat): State
    requires t < |s.clients|
  {
    match s.clients[t].pc
    case GTake => Receive(s, t, CCheck)
    case GDrop(c) => CloseRaw(Goto(s, t, GDropStats), c)
    case CWait => if v.Good? then Receive(s, t, CWait) else Think(s, t, v)
    case CPoll(k) => Receive(s, t, CRetry(k + 1))
    case CCreate => Create(s, t, v)
    case PClose(c) => CloseRaw(Goto(s, t, PCloseStats), c)
    case PSend(c) => Send(s, t, c, u)
    case LeaveWith(_) => Leave(s, t)
    case LeaveEmpty => Leave(s, t)
    case _ => Think(s, t, v)
  }

  /** The next operation of the cleaner. */
  function MoveCleaner(s: State, v: Verdict, u: nat): State {
    var m := s.stats;
    match s.cleaner
    case ClIdle =>
      if |s.idle| <= s.config.minEvictable then s else s.(cleaner := ClLoop(0, |s.idle|, []))
    case ClLoop(i, n, doomed) =>
      if i < n then
        if s.idle == [] then s.(cleaner := ClLoop(i + 1, n, doomed))
        else
          s.(cleaner := ClGot(s.idle[0], i, n, doomed), idle := s.idle[1..],
             place := s.place[s.idle[0] := AtCleaner])
      else if doomed == [] then s.(cleaner := ClIdle)
      else CloseRaw(s, doomed[0]).(cleaner := ClLoop(i, n, doomed[1..]))
    case ClGot(c, i, n, doomed) =>
      if !v.Good? then s.(cleaner := ClDrop(i, n, doomed + [c]))
      else if Waiting(s, u) then Serve(s, u, c).(cleaner := ClLoop(i + 1, n, doomed))
      else if |s.idle| < s.config.maxIdle then
        s.(cleaner := ClLoop(i + 1, n, doomed), idle := s.idle + [c], place := s.place[c := InIdle])
      else s.(cleaner := ClDrop(i, n, doomed + [c]))
    case ClDrop(i, n, doomed) =>
      s.(cleaner := ClLoop(i + 1, n, doomed), stats := m.(idle := m.idle - 1, total := m.total - 1))
  }

  /** Connection `c` changes hands within the program. */
  function Passed(s: State, t: nat, to: nat, c: nat): State
    requires t < |s.clients| && to < |s.clients|
  {
    var x, y := s.clients[t], s.clients[to];
    s.(clients := s.clients[t := x.(held := x.held - {c})][to := y.(held := y.held + {c})],
       place := s.place[c := AtClient(to)])
  }

  function Apply(s: State, step: Step): State {
    match step
    case Fill =>
      if !s.published && s.filling > 0 && s.clients != [] && s.clients[0].pc == Ready && s.clients[0].held == {}
      then Goto(s, 0, CCreate).(filling := s.filling - 1)
      else s
    case Publish =>
      if s.filling <= 0 && s.clients != [] && s.clients[0].pc == Ready && s.clients[0].held == {}
      then s.(published := true)
      else s
    case Get(t) =>
      if t < |s.clients| && s.published && s.clients[t].pc == Ready then
        s.(clients := s.clients[t := s.clients[t].(pc := GTake, waited := 0, retried := 0)])
      else s
    case Put(t, c, failed) =>
      if t < |s.clients| && s.clients[t].pc == Ready && c in s.clients[t].held then
        s.(clients := s.clients[t := s.clients[t].(pc := PDelete(c, failed), held := s.clients[t].held - {c})],
           place := s.place[c := InHand(t)])
      else s
    case Pass(t, to, c) =>
      if s.published && t < |s.clients| && to < |s.clients| && t != to && c in s.clients[t].held then
        Passed(s, t, to, c)
      else s
    case Move(t, v, u) => if t < |s.clients| then MoveClient(s, t, v, u) else s
    case Sweep(v, u) => if s.published then MoveCleaner(s, v, u) else s
  }

  function Run(s: State, steps: seq<Step>): State
    decreases |steps|
  {
    if steps == [] then s else Run(Apply(s, steps[0]), steps[1..])
  }
}
