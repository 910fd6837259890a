/** Every connection is in exactly one place, and its raw Close is called at most once. */
module PoolPlaces {
  import opened PoolProtocol

  /** The connection in a thread's hand, or -1. */
  function Hand(pc: Pc): int {
    match pc
    case GGot(c) => c
    case GDrop(c) => c
    case GStore(c) => c
    case GStats(c) => c
    case CStore(c) => c
    case CStats(c) => c
    case LeaveWith(c) => c
    case PDelete(c, _) => c
    case PCheck(c, _) => c
    case PClose(c) => c
    case PSend(c) => c
    case _ => -1
  }

  /** The connections the cleaner has taken out of the channel and not put back or closed. */
  function Cleaning(cl: Cleaner): seq<nat> {
    match cl
    case ClIdle => []
    case ClLoop(_, _, doomed) => doomed
    case ClGot(c, _, _, doomed) => doomed + [c]
    case ClDrop(_, _, doomed) => doomed
  }

  predicate At(place: map<nat, Place>, c: int, p: Place) {
    c >= 0 && c in place && place[c] == p
  }

  /** `m` holds the connections at `p`, once each. */
  ghost predicate Exactly(m: multiset<nat>, place: map<nat, Place>, p: Place) {
    forall c: nat :: m[c] == if At(place, c, p) then 1 else 0
  }

  predicate HeldFits(clients: seq<Client>, place: map<nat, Place>) {
    && (forall t, c | 0 <= t < |clients| && c in clients[t].held :: At(place, c, AtClient(t)))
    && (forall c :: c in place && place[c].AtClient? ==>
          place[c].t < |clients| && c in clients[place[c].t].held)
  }

  predicate HandsFit(clients: seq<Client>, place: map<nat, Place>) {
    && (forall t :: 0 <= t < |clients| && Hand(clients[t].pc) >= 0 ==>
          At(place, Hand(clients[t].pc), InHand(t)))
    && (forall c :: c in place && place[c].InHand? ==>
          place[c].t < |clients| && Hand(clients[place[c].t].pc) == c)
  }

  /** The channel, the cleaner, the raw closes, the clients and their hands agree with the history. */
  ghost predicate Placed(s: State) {
    && (forall c: nat :: c in s.place <==> c < s.made)
    && Exactly(multiset(s.idle), s.place, InIdle) && |s.idle| <= s.config.maxIdle
    && Exactly(multiset(Cleaning(s.cleaner)), s.place, AtCleaner)
    && Exactly(s.closes, s.place, Closed)
    && HeldFits(s.clients, s.place)
    && HandsFit(s.clients, s.place)
  }

  // ----- One connection changes place -----

  lemma {:induction false} TakeFirst(s: seq<nat>, place: map<nat, Place>, p: Place, q: Place)
    requires s != [] && Exactly(multiset(s), place, p) && p != q
    ensures At(place, s[0], p)
    ensures Exactly(multiset(s[1..]), place[s[0] := q], p)
  {
    assert s == [s[0]] + s[1..];
    assert multiset(s) == multiset{s[0]} + multiset(s[1..]);
    var m := multiset(s[1..]);
    assert forall c: nat :: multiset(s)[c] == multiset{s[0]}[c] + m[c];
  }

  lemma {:induction false} AddOne(m: multiset<nat>, place: map<nat, Place>, c: nat, p: Place)
    requires Exactly(m, place, p) && !At(place, c, p)
    ensures Exactly(m + multiset{c}, place[c := p], p)
  {}

  lemma {:induction false} AddLast(s: seq<nat>, place: map<nat, Place>, c: nat, p: Place)
    requires Exactly(multiset(s), place, p) && !At(place, c, p)
    ensures Exactly(multiset(s + [c]), place[c := p], p)
  {
    AddOne(multiset(s), place, c, p);
    assert multiset(s + [c]) == multiset(s) + multiset{c};
  }

  /** What a client may do without touching a place. */
  lemma {:induction false} SameHand(clients: seq<Client>, place: map<nat, Place>, t: nat, x: Client)
    requires t < |clients| && HeldFits(clients, place) && HandsFit(clients, place)
    requires Hand(x.pc) == Hand(clients[t].pc) && x.held == clients[t].held
    ensures HeldFits(clients[t := x], place) && HandsFit(clients[t := x], place)
  {
    var clients' := clients[t := x];
    assert forall u :: 0 <= u < |clients| ==>
      Hand(clients'[u].pc) == Hand(clients[u].pc) && clients'[u].held == clients[u].held;
  }

  /** Client `t` comes to hold `c` in its hand. */
  lemma {:induction false} Grab(clients: seq<Client>, place: map<nat, Place>, t: nat, x: Client, c: nat)
    requires t < |clients| && HeldFits(clients, place) && HandsFit(clients, place)
    requires Hand(clients[t].pc) == -1 && Hand(x.pc) == c && x.held == clients[t].held
    requires c in place ==> !place[c].AtClient? && !place[c].InHand?
    ensures HeldFits(clients[t := x], place[c := InHand(t)]) && HandsFit(clients[t := x], place[c := InHand(t)])
  {}

  /** Client `t` lets go of what is in its hand. */
  lemma {:induction false} LetGo(clients: seq<Client>, place: map<nat, Place>, t: nat, x: Client, p: Place)
    requires t < |clients| && HeldFits(clients, place) && HandsFit(clients, place)
    requires Hand(clients[t].pc) >= 0 && Hand(x.pc) == -1 && x.held == clients[t].held
    requires !p.AtClient? && !p.InHand?
    ensures var place' := place[Hand(clients[t].pc) as nat := p];
            HeldFits(clients[t := x], place') && HandsFit(clients[t := x], place')
  {}

  /** Between the hand of client `t` and the program. */
  lemma {:induction false} HandOut(clients: seq<Client>, place: map<nat, Place>, t: nat)
    requires t < |clients| && HeldFits(clients, place) && HandsFit(clients, place)
    requires clients[t].pc.LeaveWith?
    ensures var c := clients[t].pc.c;
            var x := clients[t].(pc := Ready, held := clients[t].held + {c});
            var clients', place' := clients[t := x], place[c := AtClient(t)];
            HeldFits(clients', place') && HandsFit(clients', place')
  {}

  lemma {:induction false} HandBack(clients: seq<Client>, place: map<nat, Place>, t: nat, c: nat, failed: bool)
    requires t < |clients| && HeldFits(clients, place) && HandsFit(clients, place)
    requires clients[t].pc == Ready && c in clients[t].held
    ensures var clients' := clients[t := clients[t].(pc := PDelete(c, failed), held := clients[t].held - {c})];
            HeldFits(clients', place[c := InHand(t)]) && HandsFit(clients', place[c := InHand(t)])
  {}

  /** Between two threads of the program. */
  lemma {:induction false} HandOn(s: State, t: nat, to: nat, c: nat)
    requires t < |s.clients| && to < |s.clients| && t != to && c in s.clients[t].held
    requires HeldFits(s.clients, s.place) && HandsFit(s.clients, s.place)
    ensures var s' := Passed(s, t, to, c); HeldFits(s'.clients, s'.place) && HandsFit(s'.clients, s'.place)
  {
    assert At(s.place, c, AtClient(t));
  }

  /** The history of `c` changes to `q`; the collections at neither place are not concerned. */
  lemma {:induction false} Others(s: State, c: nat, q: Place)
    requires Placed(s)
    ensures !At(s.place, c, InIdle) && q != InIdle ==> Exactly(multiset(s.idle), s.place[c := q], InIdle)
    ensures !At(s.place, c, AtCleaner) && q != AtCleaner ==>
              Exactly(multiset(Cleaning(s.cleaner)), s.place[c := q], AtCleaner)
    ensures !At(s.place, c, Closed) && q != Closed ==> Exactly(s.closes, s.place[c := q], Closed)
  {}

  // ----- Steps -----

  /** From `s` to `s'` only client `t` changes, and neither its hand nor what it holds. */
  predicate Unmoved(s: State, t: nat, s': State)
    requires t < |s.clients|
  {
    && |s'.clients| == |s.clients| && s'.clients == s.clients[t := s'.clients[t]]
    && Hand(s'.clients[t].pc) == Hand(s.clients[t].pc) && s'.clients[t].held == s.clients[t].held
    && s'.place == s.place && s'.closes == s.closes && s'.made == s.made && s'.config == s.config
    && s'.idle == s.idle && s'.cleaner == s.cleaner
  }

  lemma {:induction false} PlacedGoto(s: State, t: nat, s': State)
    requires Placed(s) && t < |s.clients| && Unmoved(s, t, s')
    ensures Placed(s')
  {
    SameHand(s.clients, s.place, t, s'.clients[t]);
  }

  lemma {:induction false} PlacedReceive(s: State, t: nat, otherwise: Pc)
    requires Placed(s) && t < |s.clients| && Hand(s.clients[t].pc) == Hand(otherwise) == -1
    ensures Placed(Receive(s, t, otherwise))
  {
    var s' := Receive(s, t, otherwise);
    if s.idle == [] {
      PlacedGoto(s, t, s');
    } else {
      var c := s.idle[0];
      assert At(s.place, c, InIdle);
      TakeFirst(s.idle, s.place, InIdle, InHand(t));
      Others(s, c, InHand(t));
      Grab(s.clients, s.place, t, s'.clients[t], c);
    }
  }

  /** A raw close by client `t` of the connection in its hand. */
  lemma {:induction false} PlacedClose(s: State, t: nat, pc: Pc)
    requires Placed(s) && t < |s.clients| && Hand(s.clients[t].pc) >= 0 && Hand(pc) == -1
    ensures Placed(CloseRaw(Goto(s, t, pc), Hand(s.clients[t].pc)))
  {
    var c := Hand(s.clients[t].pc);
    assert At(s.place, c, InHand(t));
    Others(s, c, Closed);
    AddOne(s.closes, s.place, c, Closed);
    LetGo(s.clients, s.place, t, s.clients[t].(pc := pc), Closed);
  }

  lemma {:induction false} PlacedNew(s: State, t: nat, u: nat)
    requires Placed(s) && t < |s.clients| && s.clients[t].pc == CCreate
    ensures Placed(MoveClient(s, t, Good, u))
  {
    Others(s, s.made, InHand(t));
    Grab(s.clients, s.place, t, s.clients[t].(pc := CStore(s.made)), s.made);
  }

  /** The history of a connection that was never in any client's hands. */
  lemma {:induction false} Unheard(clients: seq<Client>, place: map<nat, Place>, c: nat)
    requires c !in place && HeldFits(clients, place) && HandsFit(clients, place)
    ensures HeldFits(clients, place[c := Closed]) && HandsFit(clients, place[c := Closed])
  {}

  /** A connection that OnCreate rejects. */
  lemma {:induction false} PlacedBroken(s: State, t: nat, u: nat)
    requires Placed(s) && t < |s.clients| && s.clients[t].pc == CCreate
    ensures Placed(MoveClient(s, t, Broken, u))
  {
    Others(s, s.made, Closed);
    AddOne(s.closes, s.place, s.made, Closed);
    SameHand(s.clients, s.place, t, s.clients[t].(pc := LeaveEmpty));
    Unheard(Goto(s, t, LeaveEmpty).clients, s.place, s.made);
  }

  lemma {:induction false} PlacedCreate(s: State, t: nat, v: Verdict, u: nat)
    requires Placed(s) && t < |s.clients| && s.clients[t].pc == CCreate
    ensures Placed(MoveClient(s, t, v, u))
  {
    match v {
      case Good => PlacedNew(s, t, u);
      case Bad => PlacedGoto(s, t, MoveClient(s, t, v, u));
      case Broken => PlacedBroken(s, t, u);
    }
  }

  /** A waiting client is handed the connection that client `t` was sending. */
  lemma {:induction false} PlacedServe(s: State, t: nat, v: Verdict, u: nat)
    requires Placed(s) && t < |s.clients| && s.clients[t].pc.PSend? && Waiting(s, u)
    ensures Placed(MoveClient(s, t, v, u))
  {
    var c, x, y := s.clients[t].pc.c, s.clients[t].(pc := PSendStats), s.clients[u].(pc := GGot(s.clients[t].pc.c));
    assert At(s.place, c, InHand(t));
    Others(s, c, InHand(u));
    var clients, place := s.clients[t := x], s.place[c := Closed];
    LetGo(s.clients, s.place, t, x, Closed);
    Grab(clients, place, u, y, c);
    assert place[c := InHand(u)] == s.place[c := InHand(u)];
    assert clients[u := y] == s.clients[u := y][t := x];
  }

  lemma {:induction false} PlacedIntoChannel(s: State, t: nat, v: Verdict, u: nat)
    requires Placed(s) && t < |s.clients| && s.clients[t].pc.PSend? && !Waiting(s, u)
    requires |s.idle| < s.config.maxIdle
    ensures Placed(MoveClient(s, t, v, u))
  {
    var c := s.clients[t].pc.c;
    assert At(s.place, c, InHand(t));
    LetGo(s.clients, s.place, t, s.clients[t].(pc := PSendStats), InIdle);
    AddLast(s.idle, s.place, c, InIdle);
    Others(s, c, InIdle);
  }

  lemma {:induction false} PlacedFull(s: State, t: nat, v: Verdict, u: nat)
    requires Placed(s) && t < |s.clients| && s.clients[t].pc.PSend? && !Waiting(s, u)
    requires |s.idle| >= s.config.maxIdle
    ensures Placed(MoveClient(s, t, v, u))
  {
    PlacedGoto(s, t, Goto(s, t, PClose(s.clients[t].pc.c)));
  }

  lemma {:induction false} PlacedSend(s: State, t: nat, v: Verdict, u: nat)
    requires Placed(s) && t < |s.clients| && s.clients[t].pc.PSend?
    ensures Placed(MoveClient(s, t, v, u))
  {
    if Waiting(s, u) {
      PlacedServe(s, t, v, u);
    } else if |s.idle| < s.config.maxIdle {
      PlacedIntoChannel(s, t, v, u);
    } else {
      PlacedFull(s, t, v, u);
    }
  }

  lemma {:induction false} PlacedLeave(s: State, t: nat, v: Verdict, u: nat)
    requires Placed(s) && t < |s.clients| && (s.clients[t].pc.LeaveWith? || s.clients[t].pc.LeaveEmpty?)
    ensures Placed(MoveClient(s, t, v, u))
  {
    if s.clients[t].pending == 0 && s.clients[t].pc.LeaveWith? {
      var c := s.clients[t].pc.c;
      assert At(s.place, Hand(s.clients[t].pc), InHand(t));
      Others(s, c, AtClient(t));
      HandOut(s.clients, s.place, t);
    } else {
      PlacedGoto(s, t, Leave(s, t));
    }
  }

  lemma {:induction false} PlacedPut(s: State, t: nat, c: nat, failed: bool)
    requires Placed(s)
    ensures Placed(Apply(s, Put(t, c, failed)))
  {
    if t < |s.clients| && s.clients[t].pc == Ready && c in s.clients[t].held {
      assert At(s.place, c, AtClient(t));
      Others(s, c, InHand(t));
      HandBack(s.clients, s.place, t, c, failed);
    }
  }

  lemma {:induction false} PlacedPass(s: State, t: nat, to: nat, c: nat)
    requires Placed(s)
    ensures Placed(Apply(s, Pass(t, to, c)))
  {
    if Apply(s, Pass(t, to, c)) != s {
      assert At(s.place, c, AtClient(t));
      Others(s, c, AtClient(to));
      HandOn(s, t, to, c);
    }
  }

  lemma {:induction false} ThinkStays(s: State, t: nat, v: Verdict)
    requires t < |s.clients| && (Moving(s.clients[t].pc) ==> s.clients[t].pc.CWait?)
    ensures Unmoved(s, t, Think(s, t, v))
  {}

  lemma {:induction false} PlacedThink(s: State, t: nat, v: Verdict)
    requires Placed(s) && t < |s.clients| && (Moving(s.clients[t].pc) ==> s.clients[t].pc.CWait?)
    ensures Placed(Think(s, t, v))
  {
    ThinkStays(s, t, v);
    PlacedGoto(s, t, Think(s, t, v));
  }

  lemma {:induction false} PlacedWait(s: State, t: nat, v: Verdict, u: nat)
    requires Placed(s) && t < |s.clients| && s.clients[t].pc.CWait?
    ensures Placed(MoveClient(s, t, v, u))
  {
    if v.Good? {
      PlacedReceive(s, t, CWait);
    } else {
      PlacedThink(s, t, v);
    }
  }

  lemma {:induction false} PlacedTry(s: State, t: nat, v: Verdict, u: nat)
    requires Placed(s) && t < |s.clients|
    requires var pc := s.clients[t].pc; pc.GTake? || pc.CPoll? || pc.CWait?
    ensures Placed(MoveClient(s, t, v, u))
  {
    match s.clients[t].pc {
      case GTake => PlacedReceive(s, t, CCheck);
      case CWait => PlacedWait(s, t, v, u);
      case CPoll(k) => PlacedReceive(s, t, CRetry(k + 1));
    }
  }

  lemma {:induction false} PlacedRaw(s: State, t: nat, v: Verdict, u: nat)
    requires Placed(s) && t < |s.clients| && (s.clients[t].pc.GDrop? || s.clients[t].pc.PClose?)
    ensures Placed(MoveClient(s, t, v, u))
  {
    match s.clients[t].pc {
      case GDrop(_) => PlacedClose(s, t, GDropStats);
      case PClose(_) => PlacedClose(s, t, PCloseStats);
    }
  }

  lemma {:induction false} PlacedClient(s: State, t: nat, v: Verdict, u: nat)
    requires Placed(s)
    ensures Placed(Apply(s, Move(t, v, u)))
  {
    if t >= |s.clients| {
      return;
    }
    var pc := s.clients[t].pc;
    if !Moving(pc) {
      PlacedThink(s, t, v);
    } else if pc.GTake? || pc.CPoll? || pc.CWait? {
      PlacedTry(s, t, v, u);
    } else if pc.GDrop? || pc.PClose? {
      PlacedRaw(s, t, v, u);
    } else if pc.CCreate? {
      PlacedCreate(s, t, v, u);
    } else if pc.PSend? {
      PlacedSend(s, t, v, u);
    } else {
      PlacedLeave(s, t, v, u);
    }
  }

  /** A change of place that no client takes part in. */
  lemma {:induction false} ClientsKept(s: State, c: nat, q: Place)
    requires Placed(s) && c in s.place && (s.place[c].InIdle? || s.place[c].AtCleaner?)
    requires !q.AtClient? && !q.InHand?
    ensures HeldFits(s.clients, s.place[c := q]) && HandsFit(s.clients, s.place[c := q])
  {}

  /** The cleaner puts `c`, the last it took, back into the channel or into a waiting hand. */
  lemma {:induction false} PutBack(doomed: seq<nat>, place: map<nat, Place>, c: nat, q: Place)
    requires Exactly(multiset(doomed + [c]), place, AtCleaner) && q != AtCleaner
    ensures At(place, c, AtCleaner) && Exactly(multiset(doomed), place[c := q], AtCleaner)
  {
    var m := multiset(doomed);
    assert multiset(doomed + [c]) == m + multiset{c};
    assert forall d: nat :: (m + multiset{c})[d] == m[d] + multiset{c}[d];
  }

  /** The cleaner hands the connection it took to a waiting client. */
  lemma {:induction false} PlacedHandOver(s: State, u: nat)
    requires Placed(s) && s.cleaner.ClGot? && Waiting(s, u)
    ensures Placed(MoveCleaner(s, Good, u))
  {
    var c := s.cleaner.c;
    PutBack(s.cleaner.doomed, s.place, c, InHand(u));
    Others(s, c, InHand(u));
    Grab(s.clients, s.place, u, s.clients[u].(pc := GGot(c)), c);
  }

  lemma {:induction false} PlacedReturn(s: State, u: nat)
    requires Placed(s) && s.cleaner.ClGot? && !Waiting(s, u) && |s.idle| < s.config.maxIdle
    ensures Placed(MoveCleaner(s, Good, u))
  {
    var c := s.cleaner.c;
    PutBack(s.cleaner.doomed, s.place, c, InIdle);
    AddLast(s.idle, s.place, c, InIdle);
    Others(s, c, InIdle);
    ClientsKept(s, c, InIdle);
  }

  lemma {:induction false} SameCleaning(s: State, cl: Cleaner)
    requires Placed(s) && Cleaning(cl) == Cleaning(s.cleaner)
    ensures Placed(s.(cleaner := cl))
  {}

  lemma {:induction false} PlacedGot(s: State, v: Verdict, u: nat)
    requires Placed(s) && s.cleaner.ClGot?
    ensures Placed(MoveCleaner(s, v, u))
  {
    if v.Good? && Waiting(s, u) {
      PlacedHandOver(s, u);
    } else if v.Good? && |s.idle| < s.config.maxIdle {
      PlacedReturn(s, u);
    } else {
      SameCleaning(s, ClDrop(s.cleaner.i, s.cleaner.n, s.cleaner.doomed + [s.cleaner.c]));
    }
  }

  lemma {:induction false} PlacedTake(s: State, v: Verdict, u: nat)
    requires Placed(s) && s.cleaner.ClLoop? && s.cleaner.i < s.cleaner.n && s.idle != []
    ensures Placed(MoveCleaner(s, v, u))
  {
    var c := s.idle[0];
    TakeFirst(s.idle, s.place, InIdle, AtCleaner);
    AddLast(s.cleaner.doomed, s.place, c, AtCleaner);
    Others(s, c, AtCleaner);
    ClientsKept(s, c, AtCleaner);
  }

  lemma {:induction false} PlacedDoom(s: State, v: Verdict, u: nat)
    requires Placed(s) && s.cleaner.ClLoop? && s.cleaner.i >= s.cleaner.n && s.cleaner.doomed != []
    ensures Placed(MoveCleaner(s, v, u))
  {
    var doomed := s.cleaner.doomed;
    TakeFirst(doomed, s.place, AtCleaner, Closed);
    AddOne(s.closes, s.place, doomed[0], Closed);
    Others(s, doomed[0], Closed);
    ClientsKept(s, doomed[0], Closed);
  }

  /** The sweep goes on, or comes to its end. */
  lemma {:induction false} PlacedTurn(s: State, v: Verdict, u: nat)
    requires Placed(s) && s.cleaner.ClLoop?
    requires if s.cleaner.i < s.cleaner.n then s.idle == [] else s.cleaner.doomed == []
    ensures Placed(MoveCleaner(s, v, u))
  {
    var cl := s.cleaner;
    SameCleaning(s, if cl.i < cl.n then ClLoop(cl.i + 1, cl.n, cl.doomed) else ClIdle);
  }

  lemma {:induction false} PlacedOutside(s: State, v: Verdict, u: nat)
    requires Placed(s) && (s.cleaner.ClIdle? || s.cleaner.ClDrop?)
    ensures Placed(MoveCleaner(s, v, u))
  {}

  lemma {:induction false} PlacedCleaner(s: State, v: Verdict, u: nat)
    requires Placed(s)
    ensures Placed(MoveCleaner(s, v, u))
  {
    var cl := s.cleaner;
    if cl.ClIdle? || cl.ClDrop? {
      PlacedOutside(s, v, u);
    } else if cl.ClGot? {
      PlacedGot(s, v, u);
    } else if cl.i < cl.n && s.idle != [] {
      PlacedTake(s, v, u);
    } else if cl.i >= cl.n && cl.doomed != [] {
      PlacedDoom(s, v, u);
    } else {
      PlacedTurn(s, v, u);
    }
  }

  lemma {:induction false} PlacedSweep(s: State, v: Verdict, u: nat)
    requires Placed(s)
    ensures Placed(Apply(s, Sweep(v, u)))
  {
    PlacedCleaner(s, v, u);
  }

  lemma {:induction false} PlacedFill(s: State)
    requires Placed(s)
    ensures Placed(Apply(s, Fill))
  {
    if Apply(s, Fill) != s {
      PlacedGoto(s, 0, Apply(s, Fill));
    }
  }

  lemma {:induction false} PlacedGet(s: State, t: nat)
    requires Placed(s)
    ensures Placed(Apply(s, Get(t)))
  {
    if Apply(s, Get(t)) != s {
      PlacedGoto(s, t, Apply(s, Get(t)));
    }
  }

  lemma {:induction false} PlacedPublish(s: State)
    requires Placed(s)
    ensures Placed(Apply(s, Publish))
  {}

  lemma {:induction false} PlacedStep(s: State, step: Step)
    requires Placed(s)
    ensures Placed(Apply(s, step))
  {
    match step {
      case Fill => PlacedFill(s);
      case Publish => PlacedPublish(s);
      case Get(t) => PlacedGet(s, t);
      case Put(t, c, failed) => PlacedPut(s, t, c, failed);
      case Pass(t, to, c) => PlacedPass(s, t, to, c);
      case Move(t, v, u) => PlacedClient(s, t, v, u);
      case Sweep(v, u) => PlacedSweep(s, v, u);
    }
  }

  lemma {:induction false} PlacedRun(s: State, steps: seq<Step>)
    requires Placed(s)
    ensures Placed(Run(s, steps))
    decreases |steps|
  {
    if steps != [] {
      PlacedStep(s, steps[0]);
      PlacedRun(Apply(s, steps[0]), steps[1..]);
    }
  }

  /** `c` is at `p`, by what the threads and the channel really hold. */
  predicate Found(s: State, c: nat, p: Place) {
    match p
    case InIdle => c in s.idle
    case AtClient(t) => t < |s.clients| && c in s.clients[t].held
    case InHand(t) => t < |s.clients| && Hand(s.clients[t].pc) == c
    case AtCleaner => c in Cleaning(s.cleaner)
    case Closed => c in s.closes
  }

  ghost predicate Somewhere(s: State, c: nat) { exists p :: Found(s, c, p) }

  /** Over every interleaving of any number of clients and the cleaner, up to Shutdown: each
      connection ever created is in exactly one place (the idle channel, one client's possession,
      one thread's hand, or closed), it is in the channel at most once, and its raw Close is called
      at most once. The channel never holds more than MaxIdle. */
  lemma {:induction false} ExactlyOnePlace(config: Config, clients: nat, steps: seq<Step>)
    ensures var s := Run(Init(config, clients), steps);
            && (forall c: nat, p, q | Found(s, c, p) && Found(s, c, q) :: p == q)
            && (forall c: nat | c < s.made :: Somewhere(s, c))
            && (forall c: nat :: s.closes[c] <= 1)
            && (forall c: nat :: multiset(s.idle)[c] <= 1)
            && |s.idle| <= s.config.maxIdle
  {
    PlacedRun(Init(config, clients), steps);
    var s := Run(Init(config, clients), steps);
    forall c: nat, p | Found(s, c, p) ensures At(s.place, c, p) {
      FoundIsPlace(s, c, p);
    }
    forall c: nat | c < s.made ensures Somewhere(s, c) {
      assert c in multiset(s.idle) ==> c in s.idle;
      assert c in multiset(Cleaning(s.cleaner)) ==> c in Cleaning(s.cleaner);
      assert Found(s, c, s.place[c]);
    }
  }

  lemma {:induction false} FoundIsPlace(s: State, c: nat, p: Place)
    requires Placed(s) && Found(s, c, p)
    ensures At(s.place, c, p)
  {
    match p {
      case Closed => assert s.closes[c] > 0;
      case InIdle => assert multiset(s.idle)[c] > 0;
      case AtCleaner => assert multiset(Cleaning(s.cleaner))[c] > 0;
      case _ =>
    }
  }
}
