/** What each sweep of the cleaner has done when it is over, as an observer of the schedule sees it. */
module PoolSweeps {
  import opened PoolProtocol
  import opened PoolSteps
  import opened PoolFates
  import PoolNesting

  /** One sweep: the length of the channel it began with, how often it has looked into the channel, what it
      has received, put back, condemned and closed, and whether it is over. */
  datatype Round = Round(n: nat, looks: nat, received: multiset<nat>, sent: multiset<nat>, condemned: multiset<nat>,
                         closed: multiset<nat>, over: bool)

  /** A sweep in progress after an operation of the cleaner. */
  function RoundGoesOn(r: Round, s: State, v: Verdict, u: nat, s': State): Round
    requires |s'.clients| == |s.clients|
  {
    Round(r.n, r.looks + if s.cleaner.ClLoop? && s.cleaner.i < r.n then 1 else 0,
          r.received + if s'.cleaner.ClGot? then multiset{s'.cleaner.c} else multiset{},
          r.sent + multiset(Sends(s, Sweep(v, u), s')), r.condemned + multiset(Condemns(s, Sweep(v, u))),
          r.closed + (s'.closes - s.closes), s'.cleaner.ClIdle?)
  }

  /** The sweeps after a step from `s` to `s'`. */
  function RoundsAfter(rounds: seq<Round>, s: State, step: Step, s': State): seq<Round>
    requires |s'.clients| == |s.clients|
  {
    if !step.Sweep? || !s.published then rounds
    else if s.cleaner.ClIdle? then
      if |s.idle| <= s.config.minEvictable then rounds
      else rounds + [Round(|s.idle|, 0, multiset{}, multiset{}, multiset{}, multiset{}, false)]
    else if rounds == [] then rounds
    else rounds[|rounds| - 1 := RoundGoesOn(rounds[|rounds| - 1], s, step.v, step.u, s')]
  }

  function Rounds(rounds: seq<Round>, s: State, steps: seq<Step>): seq<Round>
    decreases |steps|
  {
    if steps == [] then rounds
    else
      SameShape(s, steps[0]);
      Rounds(RoundsAfter(rounds, s, steps[0], Apply(s, steps[0])), Apply(s, steps[0]), steps[1..])
  }

  /** As many looks as there were connections; each one received was put back, or condemned and closed. */
  predicate Swept(r: Round, minEvictable: int) {
    && r.over && r.looks == r.n > minEvictable
    && r.received == r.sent + r.closed && r.condemned == r.closed
  }

  predicate Sweeping(r: Round, cl: Cleaner, minEvictable: int) {
    && !r.over && !cl.ClIdle? && cl.n == r.n > minEvictable && r.looks == cl.i + (if cl.ClLoop? then 0 else 1) <= r.n
    && r.condemned == r.closed + multiset(cl.doomed)
    && r.received == r.sent + r.condemned + (if cl.ClGot? then multiset{cl.c} else multiset{})
  }

  predicate RoundsFit(rounds: seq<Round>, cl: Cleaner, minEvictable: int) {
    && (forall k :: 0 <= k < |rounds| - 1 ==> Swept(rounds[k], minEvictable))
    && (if rounds == [] then cl.ClIdle?
        else if cl.ClIdle? then Swept(rounds[|rounds| - 1], minEvictable)
        else Sweeping(rounds[|rounds| - 1], cl, minEvictable))
  }

  /** The sweep goes on as the cleaner does. */
  predicate RoundNext(r: Round, s: State, v: Verdict, u: nat, s': State, minEvictable: int) {
    && |s'.clients| == |s.clients|
    && var r' := RoundGoesOn(r, s, v, u, s');
       if s'.cleaner.ClIdle? then Swept(r', minEvictable) else Sweeping(r', s'.cleaner, minEvictable)
  }

  /** A look into the channel, which is empty, */
  lemma {:induction false} RoundNothing(r: Round, s: State, v: Verdict, u: nat, minEvictable: int)
    requires s.published && Sweeping(r, s.cleaner, minEvictable) && s.cleaner.ClLoop? && s.cleaner.i < s.cleaner.n
    requires s.idle == []
    ensures RoundNext(r, s, v, u, MoveCleaner(s, v, u), minEvictable)
  {
    var s', cl := MoveCleaner(s, v, u), s.cleaner;
    assert s' == s.(cleaner := ClLoop(cl.i + 1, cl.n, cl.doomed));
    assert s'.closes - s.closes == multiset{};
    assert RoundGoesOn(r, s, v, u, s') == r.(looks := r.looks + 1);
  }

  /** or not. */
  lemma {:induction false} ReceivesShape(r: Round, s: State, v: Verdict, u: nat)
    requires s.published && s.cleaner.ClLoop? && s.cleaner.i < s.cleaner.n == r.n && s.idle != [] && !r.over
    ensures var s', cl := MoveCleaner(s, v, u), s.cleaner;
            && |s'.clients| == |s.clients| && s'.cleaner == ClGot(s.idle[0], cl.i, cl.n, cl.doomed)
            && RoundGoesOn(r, s, v, u, s')
               == r.(looks := r.looks + 1, received := r.received + multiset{s.idle[0]})
  {
    assert MoveCleaner(s, v, u).closes - s.closes == multiset{};
  }

  lemma {:induction false} ReceivesSum(r: Round, cl: Cleaner, c: nat, minEvictable: int)
    requires cl.ClLoop? && cl.i < cl.n && Sweeping(r, cl, minEvictable)
    ensures Sweeping(r.(looks := r.looks + 1, received := r.received + multiset{c}),
                     ClGot(c, cl.i, cl.n, cl.doomed), minEvictable)
  {}

  lemma {:induction false} RoundReceives(r: Round, s: State, v: Verdict, u: nat, minEvictable: int)
    requires s.published && Sweeping(r, s.cleaner, minEvictable) && s.cleaner.ClLoop? && s.cleaner.i < s.cleaner.n
    requires s.idle != []
    ensures RoundNext(r, s, v, u, MoveCleaner(s, v, u), minEvictable)
  {
    ReceivesShape(r, s, v, u);
    ReceivesSum(r, s.cleaner, s.idle[0], minEvictable);
  }

  lemma {:induction false} CloseFirst(closed: multiset<nat>, doomed: seq<nat>)
    requires doomed != []
    ensures closed + multiset(doomed) == (closed + multiset{doomed[0]}) + multiset(doomed[1..])
  {
    assert doomed == [doomed[0]] + doomed[1..];
  }

  /** A raw close, */
  lemma {:induction false} RoundClose(r: Round, s: State, v: Verdict, u: nat, minEvictable: int)
    requires s.published && Sweeping(r, s.cleaner, minEvictable) && s.cleaner.ClLoop? && s.cleaner.i >= s.cleaner.n
    requires s.cleaner.doomed != []
    ensures RoundNext(r, s, v, u, MoveCleaner(s, v, u), minEvictable)
  {
    var s' := MoveCleaner(s, v, u);
    var r' := RoundGoesOn(r, s, v, u, s');
    CloseFirst(r.closed, s.cleaner.doomed);
    assert s'.closes - s.closes == multiset{s.cleaner.doomed[0]};
    assert r'.received == r.received && r'.sent == r.sent && r'.condemned == r.condemned;
  }

  /** or the end. */
  lemma {:induction false} RoundEnd(r: Round, s: State, v: Verdict, u: nat, minEvictable: int)
    requires s.published && Sweeping(r, s.cleaner, minEvictable) && s.cleaner.ClLoop? && s.cleaner.i >= s.cleaner.n
    requires s.cleaner.doomed == []
    ensures RoundNext(r, s, v, u, MoveCleaner(s, v, u), minEvictable)
  {
    var s' := MoveCleaner(s, v, u);
    var r' := RoundGoesOn(r, s, v, u, s');
    assert s'.closes - s.closes == multiset{};
    assert r'.received == r.received && r'.sent == r.sent && r'.condemned == r.condemned && r'.closed == r.closed;
  }

  lemma {:induction false} Regroup(a: multiset<nat>, b: multiset<nat>, c: multiset<nat>)
    ensures a + b + c == (a + c) + b == a + (b + c)
  {}

  lemma {:induction false} KeptSum(r: Round, cl: Cleaner, minEvictable: int)
    requires cl.ClGot? && Sweeping(r, cl, minEvictable)
    ensures Sweeping(Round(r.n, r.looks, r.received, r.sent + multiset{cl.c}, r.condemned, r.closed, false),
                     ClLoop(cl.i + 1, cl.n, cl.doomed), minEvictable)
  {
    Regroup(r.sent, r.condemned, multiset{cl.c});
  }

  lemma {:induction false} CondemnedSum(r: Round, cl: Cleaner, minEvictable: int)
    requires cl.ClGot? && Sweeping(r, cl, minEvictable)
    ensures Sweeping(Round(r.n, r.looks, r.received, r.sent, r.condemned + multiset{cl.c}, r.closed, false),
                     ClDrop(cl.i, cl.n, cl.doomed + [cl.c]), minEvictable)
  {
    assert multiset(cl.doomed + [cl.c]) == multiset(cl.doomed) + multiset{cl.c};
    Regroup(r.sent, r.condemned, multiset{cl.c});
    Regroup(r.closed, multiset(cl.doomed), multiset{cl.c});
  }

  /** The connection received is put back, */
  lemma {:induction false} KeptShape(r: Round, s: State, v: Verdict, u: nat)
    requires s.published && s.cleaner.ClGot? && v == Good && !NoPlace(s, u) && !r.over
    ensures var s', cl := MoveCleaner(s, v, u), s.cleaner;
            && |s'.clients| == |s.clients| && s'.cleaner == ClLoop(cl.i + 1, cl.n, cl.doomed)
            && RoundGoesOn(r, s, v, u, s')
               == Round(r.n, r.looks, r.received, r.sent + multiset{cl.c}, r.condemned, r.closed, false)
  {
    var s' := MoveCleaner(s, v, u);
    assert s'.closes - s.closes == multiset{};
    assert Sends(s, Sweep(v, u), s') == [s.cleaner.c] && Condemns(s, Sweep(v, u)) == {};
  }

  lemma {:induction false} RoundKept(r: Round, s: State, v: Verdict, u: nat, minEvictable: int)
    requires s.published && Sweeping(r, s.cleaner, minEvictable) && s.cleaner.ClGot? && v == Good && !NoPlace(s, u)
    ensures RoundNext(r, s, v, u, MoveCleaner(s, v, u), minEvictable)
  {
    KeptShape(r, s, v, u);
    KeptSum(r, s.cleaner, minEvictable);
  }

  /** or condemned. */
  lemma {:induction false} CondemnedShape(r: Round, s: State, v: Verdict, u: nat)
    requires s.published && s.cleaner.ClGot? && (v != Good || NoPlace(s, u)) && !r.over
    ensures var s', cl := MoveCleaner(s, v, u), s.cleaner;
            && |s'.clients| == |s.clients| && s'.cleaner == ClDrop(cl.i, cl.n, cl.doomed + [cl.c])
            && RoundGoesOn(r, s, v, u, s')
               == Round(r.n, r.looks, r.received, r.sent, r.condemned + multiset{cl.c}, r.closed, false)
  {
    var s', cl := MoveCleaner(s, v, u), s.cleaner;
    assert s' == s.(cleaner := ClDrop(cl.i, cl.n, cl.doomed + [cl.c]));
    assert s'.closes - s.closes == multiset{};
    assert Sends(s, Sweep(v, u), s') == [] && Condemns(s, Sweep(v, u)) == {cl.c};
  }

  lemma {:induction false} RoundCondemned(r: Round, s: State, v: Verdict, u: nat, minEvictable: int)
    requires s.published && Sweeping(r, s.cleaner, minEvictable) && s.cleaner.ClGot? && (v != Good || NoPlace(s, u))
    ensures RoundNext(r, s, v, u, MoveCleaner(s, v, u), minEvictable)
  {
    CondemnedShape(r, s, v, u);
    CondemnedSum(r, s.cleaner, minEvictable);
  }

  lemma {:induction false} RoundDrop(r: Round, s: State, v: Verdict, u: nat, minEvictable: int)
    requires s.published && Sweeping(r, s.cleaner, minEvictable) && s.cleaner.ClDrop?
    ensures RoundNext(r, s, v, u, MoveCleaner(s, v, u), minEvictable)
  {
    assert MoveCleaner(s, v, u).closes - s.closes == multiset{};
  }

  lemma {:induction false} RoundMoves(r: Round, s: State, v: Verdict, u: nat, minEvictable: int)
    requires s.published && Sweeping(r, s.cleaner, minEvictable)
    ensures RoundNext(r, s, v, u, MoveCleaner(s, v, u), minEvictable)
  {
    if s.cleaner.ClGot? {
      if v == Good && !NoPlace(s, u) {
        RoundKept(r, s, v, u, minEvictable);
      } else {
        RoundCondemned(r, s, v, u, minEvictable);
      }
    } else if s.cleaner.ClDrop? {
      RoundDrop(r, s, v, u, minEvictable);
    } else if s.cleaner.i < s.cleaner.n {
      if s.idle == [] {
        RoundNothing(r, s, v, u, minEvictable);
      } else {
        RoundReceives(r, s, v, u, minEvictable);
      }
    } else if s.cleaner.doomed != [] {
      RoundClose(r, s, v, u, minEvictable);
    } else {
      RoundEnd(r, s, v, u, minEvictable);
    }
  }

  /** The sweeps still fit after a step. */
  predicate StillSwept(rounds: seq<Round>, s: State, step: Step, s': State) {
    && s'.config == s.config && |s'.clients| == |s.clients|
    && RoundsFit(RoundsAfter(rounds, s, step, s'), s'.cleaner, s.config.minEvictable)
  }

  lemma {:induction false} RoundsGoOn(rounds: seq<Round>, s: State, v: Verdict, u: nat, s': State)
    requires s.published && RoundsFit(rounds, s.cleaner, s.config.minEvictable) && !s.cleaner.ClIdle?
    requires s'.config == s.config && RoundNext(rounds[|rounds| - 1], s, v, u, s', s.config.minEvictable)
    ensures StillSwept(rounds, s, Sweep(v, u), s')
  {}

  lemma {:induction false} RoundsBegin(rounds: seq<Round>, s: State, v: Verdict, u: nat)
    requires s.published && RoundsFit(rounds, s.cleaner, s.config.minEvictable) && s.cleaner.ClIdle?
    ensures StillSwept(rounds, s, Sweep(v, u), MoveCleaner(s, v, u))
  {}

  /** Clients leave the cleaner alone. */
  lemma {:induction false} CleanerStays(s: State, t: nat, v: Verdict, u: nat)
    requires t < |s.clients|
    ensures MoveClient(s, t, v, u).cleaner == s.cleaner
  {
    var pc := s.clients[t].pc;
    if !Moving(pc) || (pc.CWait? && !v.Good?) {
      assert MoveClient(s, t, v, u) == Think(s, t, v);
    } else {
      PoolNesting.TotalMoving(s, t, v, u);
    }
  }

  lemma {:induction false} RoundsStep(rounds: seq<Round>, s: State, step: Step)
    requires RoundsFit(rounds, s.cleaner, s.config.minEvictable)
    ensures StillSwept(rounds, s, step, Apply(s, step))
  {
    SameShape(s, step);
    match step {
      case Move(t, v, u) => if t < |s.clients| { CleanerStays(s, t, v, u); }
      case Sweep(v, u) =>
        if s.published && s.cleaner.ClIdle? {
          RoundsBegin(rounds, s, v, u);
        } else if s.published {
          RoundMoves(rounds[|rounds| - 1], s, v, u, s.config.minEvictable);
          RoundsGoOn(rounds, s, v, u, Apply(s, step));
        }
      case _ =>
    }
  }

  lemma {:induction false} RoundsRun(rounds: seq<Round>, s: State, steps: seq<Step>)
    requires RoundsFit(rounds, s.cleaner, s.config.minEvictable)
    ensures RoundsFit(Rounds(rounds, s, steps), Run(s, steps).cleaner, s.config.minEvictable)
    decreases |steps|
  {
    if steps != [] {
      RoundsStep(rounds, s, steps[0]);
      var s' := Apply(s, steps[0]);
      RoundsRun(RoundsAfter(rounds, s, steps[0], s'), s', steps[1..]);
    }
  }

  /** In every run, a sweep begins only with more than MinEvictableIdle connections in the channel; when it is
      over it has looked into the channel as often as it held connections then, and each connection it
      received has been put back, or has been condemned and closed, once. */
  lemma {:induction false} EverySweep(config: Config, clients: nat, steps: seq<Step>)
    ensures var s := Run(Init(config, clients), steps);
            var rounds := Rounds([], Init(config, clients), steps);
            && (forall k :: 0 <= k < |rounds| && rounds[k].over ==>
                  && rounds[k].looks == rounds[k].n > config.minEvictable
                  && rounds[k].received == rounds[k].sent + rounds[k].closed && rounds[k].condemned == rounds[k].closed)
            && (forall k :: 0 <= k < |rounds| && !rounds[k].over ==> k == |rounds| - 1 && !s.cleaner.ClIdle?)
  {
    RoundsRun([], Init(config, clients), steps);
  }

  /** The cleaner takes the first connection out of the channel whenever it looks and one is there. */
  lemma {:induction false} CleanerDecides(s: State, v: Verdict, u: nat)
    requires s.published
    ensures var cl, s' := s.cleaner, Run(s, [Sweep(v, u)]);
            && (cl.ClIdle? ==>
                  s' == if |s.idle| > s.config.minEvictable then s.(cleaner := ClLoop(0, |s.idle|, [])) else s)
            && (cl.ClLoop? && cl.i < cl.n && s.idle != [] ==>
                  s'.cleaner == ClGot(s.idle[0], cl.i, cl.n, cl.doomed) && s'.idle == s.idle[1..])
            && (cl.ClGot? && v != Good ==>
                  s' == s.(cleaner := ClDrop(cl.i, cl.n, cl.doomed + [cl.c])))
            && (cl.ClDrop? ==> s'.stats.idle == s.stats.idle - 1 && s'.stats.total == s.stats.total - 1)
  {
    assert [Sweep(v, u)][1..] == [];
  }
}
