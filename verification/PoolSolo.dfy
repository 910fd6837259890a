/** A single caller: how many waits its Get can nest, when nobody else can give or take a connection. */
module PoolSolo {
  import opened Basics
  import opened Counting
  import opened PoolProtocol
  import opened PoolLimits
  import opened PoolNesting
  import opened PoolSteps
  import opened PoolStock

  /** MaxActive; 0 when it is negative, since there are never fewer connections. */
  function Floor(config: Config): nat { Max(config.maxActive, 0) }

  /** The most waits of one Get: each but the last takes one of the connections that the fill left
      beyond MaxActive. The Get itself takes the first, unless the cleaner is holding the only one. */
  function SoloDepth(config: Config): nat {
    var left, floor := Stock(config), Floor(config);
    if left >= floor + 2 then left - floor
    else if left == floor + 1 && left > config.minEvictable then 2
    else 1
  }

  /** The connections that can still come to a waiting caller. */
  function Coming(s: State): nat { |s.idle| + if s.cleaner.ClGot? then 1 else 0 }

  /** The waits that can follow a check that finds `total` connections. */
  function More(s: State, total: int): int {
    if total >= Floor(s.config) then 1 + Min(Coming(s), total - Floor(s.config)) else 0
  }

  /** The waits still ahead of the caller in its Get. */
  function Ahead(s: State, pc: Pc): int {
    match pc
    case GGot(_) => More(s, s.stats.total - 1)
    case GDrop(_) => More(s, s.stats.total - 1)
    case GDropStats => More(s, s.stats.total - 1)
    case CCheck => More(s, s.stats.total)
    case CEnter => Max(More(s, s.stats.total), 1)
    case CWait => Max(More(s, s.stats.total) - 1, 0)
    case CRetry(_) => Max(More(s, s.stats.total) - 1, 0)
    case CPoll(_) => Max(More(s, s.stats.total) - 1, 0)
    case _ => 0
  }

  predicate Single(s: State) { |s.clients| == 1 && s.config.maxActive != 0 && s.published }

  predicate Solo(s: State) {
    Single(s) ==>
      && s.stats.total + Creating(s.clients[0]) <= Max(Stock(s.config), Floor(s.config))
      && (Stock(s.config) == Floor(s.config) + 1 && Stock(s.config) <= s.config.minEvictable ==> s.cleaner.ClIdle?)
      && s.clients[0].waited + Ahead(s, s.clients[0].pc) <= SoloDepth(s.config)
  }

  /** What the steps of the caller rely on. */
  predicate Plain(s: State) {
    && s.stats.total == s.stats.active + s.stats.idle && Coming(s) <= s.stats.total
    && (Single(s) && s.clients[0].pc.GTake? ==> s.clients[0].waited == 0)
  }

  lemma {:induction false} SingleStock(s: State)
    requires Sane(s) && Single(s)
    ensures Plain(s) && s.stats.total == |s.idle| + Owned(s.clients[0]) + Sweeping(s.cleaner)
  {
    assert s.clients == [s.clients[0]];
    assert Sum(s.clients, Owned) == Owned(s.clients[0]);
  }

  /** Fewer connections, fewer waits. */
  lemma {:induction false} MoreFalls(s: State, total: int, s': State, total': int)
    requires s'.config == s.config && Coming(s') <= Coming(s) && total' <= total
    ensures More(s', total') <= More(s, total)
  {}

  /** Receiving and dropping a connection leaves one wait less. */
  lemma {:induction false} MoreTaken(s: State, total: int, s': State)
    requires s'.config == s.config && Coming(s') == Coming(s) - 1
    ensures More(s', total - 1) <= Max(More(s, total) - 1, 0)
  {}

  // ----- Steps -----

  /** A connection that came is judged, or dropped and counted. */
  lemma {:induction false} SoloFound(s: State, v: Verdict)
    requires Plain(s) && Solo(s) && Single(s) && (s.clients[0].pc.GGot? || s.clients[0].pc.GDropStats?)
    ensures Solo(Think(s, 0, v))
  {
    assert Coming(Think(s, 0, v)) == Coming(s);
  }

  lemma {:induction false} SoloCheck(s: State, v: Verdict)
    requires Plain(s) && Solo(s) && Single(s) && s.clients[0].pc.CCheck?
    ensures Solo(Think(s, 0, v))
  {
    var s' := Think(s, 0, v);
    assert Coming(s') == Coming(s) && s'.stats == s.stats;
  }

  lemma {:induction false} SoloEnter(s: State, v: Verdict)
    requires Plain(s) && Solo(s) && Single(s) && s.clients[0].pc.CEnter?
    ensures Solo(Think(s, 0, v))
  {
    var s' := Think(s, 0, v);
    assert Coming(s') == Coming(s) && s'.stats.total == s.stats.total;
    assert s'.clients[0].pc == CWait && s'.clients[0].waited == s.clients[0].waited + 1;
  }

  lemma {:induction false} SoloTimeOut(s: State, v: Verdict)
    requires Plain(s) && Solo(s) && Single(s) && s.clients[0].pc.CWait?
    ensures Solo(Think(s, 0, v))
  {
    var s' := Think(s, 0, v);
    assert Coming(s') == Coming(s) && s'.stats == s.stats;
    assert s'.clients[0] == s.clients[0].(pc := if v.Bad? then CRetry(0) else LeaveEmpty);
  }

  lemma {:induction false} SoloRetry(s: State, v: Verdict)
    requires Plain(s) && Solo(s) && Single(s) && s.clients[0].pc.CRetry?
    ensures Solo(Think(s, 0, v))
  {
    var s', y := Think(s, 0, v), Think(s, 0, v).clients[0];
    assert Coming(s') == Coming(s) && s'.stats == s.stats && y.waited == s.clients[0].waited;
    assert y.pc.LeaveEmpty? || y.pc.CPoll? || (y.pc.CCreate? && Room(s));
  }

  /** Out of the part of a Get that may wait. */
  lemma {:induction false} SoloAway(s: State, s': State)
    requires Solo(s) && Single(s) && Single(s') && s'.config == s.config && s'.cleaner == s.cleaner
    requires s'.stats.total + Creating(s'.clients[0]) <= s.stats.total + Creating(s.clients[0])
    requires s'.clients[0].waited == s.clients[0].waited && !Looking(s.clients[0].pc) && !Looking(s'.clients[0].pc)
    ensures Solo(s')
  {}

  lemma {:induction false} SoloLater(s: State, v: Verdict)
    requires Plain(s) && Solo(s) && Single(s) && !Moving(s.clients[0].pc) && !Looking(s.clients[0].pc)
    ensures Solo(Think(s, 0, v))
  {
    SoloAway(s, Think(s, 0, v));
  }

  lemma {:induction false} SoloThink(s: State, v: Verdict)
    requires Plain(s) && Solo(s) && Single(s)
    requires Moving(s.clients[0].pc) ==> s.clients[0].pc.CWait? && !v.Good?
    ensures Solo(Think(s, 0, v))
  {
    var pc := s.clients[0].pc;
    if pc.GGot? || pc.GDropStats? {
      SoloFound(s, v);
    } else if pc.CCheck? {
      SoloCheck(s, v);
    } else if pc.CEnter? {
      SoloEnter(s, v);
    } else if pc.CWait? {
      SoloTimeOut(s, v);
    } else if pc.CRetry? {
      SoloRetry(s, v);
    } else {
      SoloLater(s, v);
    }
  }

  /** The first idle connection, or the lack of one, decides how many waits a Get can come to. */
  lemma {:induction false} SoloTake(s: State)
    requires Plain(s) && Solo(s) && Single(s) && s.clients[0].pc.GTake?
    ensures Solo(Receive(s, 0, CCheck))
  {
  }

  lemma {:induction false} SoloReceive(s: State, otherwise: Pc)
    requires Plain(s) && Solo(s) && Single(s)
    requires (s.clients[0].pc.CWait? && otherwise.CWait?) || (s.clients[0].pc.CPoll? && otherwise.CRetry?)
    ensures Solo(Receive(s, 0, otherwise))
  {
    if s.idle != [] {
      MoreTaken(s, s.stats.total, Receive(s, 0, otherwise));
    }
  }

  lemma {:induction false} SoloDrop(s: State, v: Verdict, u: nat)
    requires Plain(s) && Solo(s) && Single(s) && s.clients[0].pc.GDrop?
    ensures Solo(MoveClient(s, 0, v, u))
  {}

  lemma {:induction false} SoloOther(s: State, v: Verdict, u: nat)
    requires Plain(s) && Solo(s) && Single(s) && Moving(s.clients[0].pc) && !Looking(s.clients[0].pc)
    ensures Solo(MoveClient(s, 0, v, u))
  {
    TotalMoving(s, 0, v, u);
    EvolveOwn(s, 0, v, u);
    SoloAway(s, MoveClient(s, 0, v, u));
  }

  lemma {:induction false} SoloTry(s: State, v: Verdict, u: nat)
    requires Plain(s) && Solo(s) && Single(s)
    requires var pc := s.clients[0].pc; pc.GTake? || pc.CPoll? || (pc.CWait? && v.Good?)
    ensures Solo(MoveClient(s, 0, v, u))
  {
    match s.clients[0].pc {
      case GTake => SoloTake(s);
      case CWait => SoloReceive(s, CWait);
      case CPoll(k) => SoloReceive(s, CRetry(k + 1));
    }
  }

  lemma {:induction false} SoloMove(s: State, v: Verdict, u: nat)
    requires Sane(s) && Solo(s) && Single(s)
    ensures Solo(MoveClient(s, 0, v, u))
  {
    var pc := s.clients[0].pc;
    SingleStock(s);
    if !Moving(pc) || (pc.CWait? && !v.Good?) {
      SoloThink(s, v);
    } else if pc.GTake? || pc.CPoll? || pc.CWait? {
      SoloTry(s, v, u);
    } else if pc.GDrop? {
      SoloDrop(s, v, u);
    } else {
      SoloOther(s, v, u);
    }
  }

  lemma {:induction false} SoloHandOver(s: State, u: nat)
    requires Solo(s) && Single(s) && s.cleaner.ClGot? && Waiting(s, u)
    ensures Solo(MoveCleaner(s, Good, u))
  {
    MoreTaken(s, s.stats.total, MoveCleaner(s, Good, u));
  }

  /** A sweep can only leave less. */
  lemma {:induction false} SoloLess(s: State, s': State)
    requires Solo(s) && Single(s) && s'.clients == s.clients && s'.config == s.config && s'.published
    requires s'.stats.total <= s.stats.total && Coming(s') <= Coming(s)
    requires s.cleaner.ClIdle? && s.stats.total <= s.config.minEvictable ==> s'.cleaner.ClIdle?
    ensures Solo(s')
  {
    MoreFalls(s, s.stats.total, s', s'.stats.total);
    MoreFalls(s, s.stats.total - 1, s', s'.stats.total - 1);
    assert Ahead(s', s.clients[0].pc) <= Ahead(s, s.clients[0].pc);
  }

  lemma {:induction false} SoloSweep(s: State, v: Verdict, u: nat)
    requires Sane(s) && Solo(s) && Single(s) && !(s.cleaner.ClGot? && v.Good? && Waiting(s, u))
    ensures Solo(MoveCleaner(s, v, u))
  {
    SweepComing(s, v, u);
    if s.cleaner.ClIdle? && s.stats.total <= s.config.minEvictable {
      SweepStays(s, v, u);
    }
    TotalSweep(s, v, u);
    SoloLess(s, MoveCleaner(s, v, u));
  }

  lemma {:induction false} SweepComing(s: State, v: Verdict, u: nat)
    requires !(s.cleaner.ClGot? && v.Good? && Waiting(s, u))
    ensures var s' := MoveCleaner(s, v, u);
            Coming(s') <= Coming(s) && s'.clients == s.clients && s'.config == s.config && s'.published == s.published
  {}

  /** With MinEvictableIdle connections or fewer the cleaner does not start. */
  lemma {:induction false} SweepStays(s: State, v: Verdict, u: nat)
    requires Sane(s) && Single(s) && s.cleaner.ClIdle? && s.stats.total <= s.config.minEvictable
    ensures MoveCleaner(s, v, u).cleaner.ClIdle?
  {
    SingleStock(s);
  }

  lemma {:induction false} SoloPublish(s: State)
    requires Sane(s) && Solo(s) && !s.published
    ensures Solo(Apply(s, Publish))
  {
    var s' := Apply(s, Publish);
    if Single(s') {
      assert s.clients == [s.clients[0]];
      assert Sum(s.clients, Owned) == Owned(s.clients[0]) && Sum(s.clients, Creating) == 0;
    }
  }

  lemma {:induction false} SoloOutside(s: State, step: Step)
    requires Solo(s) && Single(s) && !step.Move? && !step.Sweep?
    ensures Solo(Apply(s, step))
  {}

  lemma {:induction false} SoloStep(s: State, step: Step)
    requires Sane(s) && Solo(s)
    ensures Solo(Apply(s, step))
  {
    if !s.published {
      if step.Publish? {
        SoloPublish(s);
      } else {
        NotPublished(s, step);
      }
    } else if Single(s) {
      match step {
        case Move(t, v, u) => if t == 0 { SoloMove(s, v, u); }
        case Sweep(v, u) =>
          if s.cleaner.ClGot? && v.Good? && Waiting(s, u) {
            SoloHandOver(s, u);
          } else {
            SoloSweep(s, v, u);
          }
        case _ => SoloOutside(s, step);
      }
    } else {
      SameShape(s, step);
    }
  }

  lemma {:induction false} SoloStops(s: State)
    requires Sane(s) && Solo(s) && |s.clients| == 1 && s.config.maxActive != 0
    ensures Shallow(s, SoloDepth(s.config))
  {
    if s.published && !Room(s) {
      SingleStock(s);
    }
  }
}
