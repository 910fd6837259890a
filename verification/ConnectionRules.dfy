/** Connections, their expiry, and what one call or one sweep may do with the channel. */
module ConnectionRules {

  /** A pooled connection. */
  datatype Conn = Conn(id: nat, createdAt: int, lastUsed: int)

  datatype Options = Options(
    initialSize: int, maxIdle: nat, maxActive: int, maxWaiters: int, maxRetries: int,
    maxIdleTime: int, maxLifetime: int, minEvictableIdle: int, testOnBorrow: bool, testOnReturn: bool)

  datatype Stats = Stats(
    active: int, idle: int, total: int, waiters: int, timeouts: int, errors: int, acquired: int, released: int)

  /** What the factory and OnCreate do. */
  datatype Made = Makes | FactoryFails | OnCreateFails

  /** The world outside the pool during one call: the connections whose IsAlive or ResetState fails,
      the factory, whether a wait ends by a deadline rather than a cancellation, and whether the call that is
      the `n`th to wait sees a connection in the channel before it sees the end of its context. */
  datatype World = World(dead: set<nat>, stuck: set<nat>, made: Made, deadline: bool, takes: int -> bool)

  datatype GetError = CreateFailed | TooManyWaiters | ConnectionTimeout

  datatype GetResult = Got(conn: Conn) | Failed(error: GetError)

  datatype PutResult = PutOk | PoolFull

  /** What a creation does to the statistics. */
  function Counted(m: Stats, w: World): Stats {
    if w.made.Makes? then m.(active := m.active + 1, total := m.total + 1, acquired := m.acquired + 1)
    else m.(errors := m.errors + 1)
  }

  /** An idle connection becomes active. */
  function Borrowed(m: Stats): Stats {
    m.(idle := m.idle - 1, active := m.active + 1, acquired := m.acquired + 1)
  }

  /** An active connection goes back into the channel. */
  function Returned(m: Stats): Stats {
    m.(active := m.active - 1, idle := m.idle + 1, released := m.released + 1)
  }

  /** An active connection is closed. */
  function Gone(m: Stats): Stats { m.(active := m.active - 1, total := m.total - 1) }

  /** An idle connection is dropped. */
  function Lost(m: Stats): Stats { m.(idle := m.idle - 1, total := m.total - 1) }

  /** What a creation closes at once: the connection that OnCreate rejects. */
  ghost function Rejected(w: World, made: nat): seq<nat> { if w.made.OnCreateFails? then [made] else [] }

  ghost function Ids(s: seq<Conn>): seq<nat> { seq(|s|, i requires 0 <= i < |s| => s[i].id) }

  /** How many connections the first `n` creations make. */
  function MadeBy(worlds: nat -> World, n: nat): nat {
    if n == 0 then 0 else MadeBy(worlds, n - 1) + if worlds(n - 1).made.FactoryFails? then 0 else 1
  }

  /** A new connection with this number is created, and can be put back at once. */
  predicate Good(o: Options, w: World, id: nat) {
    w.made.Makes? && !(o.testOnReturn && id in w.dead) && id !in w.stuck
  }

  /** How many of the first `n` creations of the initial fill succeed. */
  function GoodBy(o: Options, worlds: nat -> World, n: nat): nat {
    if n == 0 then 0
    else GoodBy(o, worlds, n - 1) + if Good(o, worlds(n - 1), MadeBy(worlds, n - 1)) then 1 else 0
  }

  /** Nothing goes wrong during the fill. */
  ghost predicate Flawless(worlds: nat -> World) {
    forall i: nat :: worlds(i).made.Makes? && worlds(i).dead == {} && worlds(i).stuck == {}
  }

  /** Then all of them do. */
  lemma {:induction false} FlawlessFill(o: Options, worlds: nat -> World, n: nat)
    requires Flawless(worlds)
    ensures GoodBy(o, worlds, n) == n
  {
    if n > 0 {
      FlawlessFill(o, worlds, n - 1);
    }
  }

  predicate Expired(o: Options, c: Conn, t: int) {
    || (o.maxIdleTime > 0 && t - c.lastUsed > o.maxIdleTime)
    || (o.maxLifetime > 0 && t - c.createdAt > o.maxLifetime)
  }

  /** A connection that a borrower is not given. */
  predicate Unfit(o: Options, c: Conn, t: int, w: World) {
    Expired(o, c, t) || (o.testOnBorrow && c.id in w.dead)
  }

  predicate Earlier(s: seq<Conn>, j: nat, k: nat)
    requires j < |s| && k < |s|
  {
    s[j].lastUsed <= s[k].lastUsed
  }

  /** In order of last use, none of them after `now`. */
  predicate InOrder(s: seq<Conn>, now: int) {
    && (forall j, k :: 0 <= j < k < |s| ==> Earlier(s, j, k))
    && (forall k :: 0 <= k < |s| ==> s[k].lastUsed <= now)
  }

  /** The connections in use once `r` has been returned. */
  ghost function Handed(active: set<Conn>, r: GetResult): set<Conn> {
    if r.Got? then active + {r.conn} else active
  }

  /** The connections of `s` that have not expired at `t`, in order. */
  function Kept(o: Options, s: seq<Conn>, t: int): seq<Conn> {
    if s == [] then []
    else
      var c := s[|s| - 1];
      Kept(o, s[..|s| - 1], t) + if Expired(o, c, t) then [] else [c]
  }

  /** The connections of `s` that have expired at `t`, in order. */
  function Dropped(o: Options, s: seq<Conn>, t: int): seq<Conn> {
    if s == [] then []
    else
      var c := s[|s| - 1];
      Dropped(o, s[..|s| - 1], t) + if Expired(o, c, t) then [c] else []
  }

  /** One connection more on either side of a split. */
  lemma {:induction false} SplitMore(kept: seq<Conn>, dropped: seq<Conn>, s: seq<Conn>, c: Conn)
    requires multiset(kept) + multiset(dropped) == multiset(s)
    ensures multiset(kept + [c]) + multiset(dropped) == multiset(s + [c])
    ensures multiset(kept) + multiset(dropped + [c]) == multiset(s + [c])
  {}

  /** A sweep splits the channel: every connection on one side, as often as it was there. */
  lemma {:induction false} SweepSplits(o: Options, s: seq<Conn>, t: int)
    ensures multiset(Kept(o, s, t)) + multiset(Dropped(o, s, t)) == multiset(s)
  {
    if s != [] {
      var front, c := s[..|s| - 1], s[|s| - 1];
      SweepSplits(o, front, t);
      SplitMore(Kept(o, front, t), Dropped(o, front, t), front, c);
      assert s == front + [c];
      assert Expired(o, c, t) ==> Kept(o, s, t) == Kept(o, front, t);
      assert !Expired(o, c, t) ==> Dropped(o, s, t) == Dropped(o, front, t);
    }
  }

  lemma {:induction false} SweepLengths(o: Options, s: seq<Conn>, t: int)
    ensures |Kept(o, s, t)| + |Dropped(o, s, t)| == |s|
  {
    if s != [] {
      SweepLengths(o, s[..|s| - 1], t);
    }
  }

  lemma {:induction false} SweepDecides(o: Options, s: seq<Conn>, t: int)
    ensures forall c :: c in Kept(o, s, t) ==> c in s && !Expired(o, c, t)
    ensures forall c :: c in Dropped(o, s, t) ==> c in s && Expired(o, c, t)
  {
    if s != [] {
      SweepDecides(o, s[..|s| - 1], t);
    }
  }

  /** In terms of the limits: what a sweep keeps is within both of them, and what it closes is past one. */
  lemma {:induction false} SweepWithinLimits(o: Options, s: seq<Conn>, t: int)
    ensures forall c :: c in Kept(o, s, t) ==>
      && c in s && (o.maxIdleTime > 0 ==> t - c.lastUsed <= o.maxIdleTime)
      && (o.maxLifetime > 0 ==> t - c.createdAt <= o.maxLifetime)
    ensures forall c :: c in Dropped(o, s, t) ==>
      && c in s
      && ((o.maxIdleTime > 0 && t - c.lastUsed > o.maxIdleTime)
          || (o.maxLifetime > 0 && t - c.createdAt > o.maxLifetime))
  {
    SweepDecides(o, s, t);
  }

  /** One connection more is looked at. */
  lemma {:induction false} SweepNext(o: Options, s: seq<Conn>, i: nat, t: int)
    requires i < |s|
    ensures Kept(o, s[..i + 1], t) == Kept(o, s[..i], t) + if Expired(o, s[i], t) then [] else [s[i]]
    ensures Dropped(o, s[..i + 1], t) == Dropped(o, s[..i], t) + if Expired(o, s[i], t) then [s[i]] else []
    ensures |Kept(o, s[..i], t)| + |Dropped(o, s[..i], t)| == i
  {
    assert s[..i + 1][..i] == s[..i];
    SweepLengths(o, s[..i], t);
  }

  /** The channel part-way through a sweep: the connections not yet looked at, then those put back. */
  lemma {:induction false} Rotate(s: seq<Conn>, i: nat, kept: seq<Conn>)
    requires i < |s|
    ensures var q := s[i..] + kept;
            q[0] == s[i] && q[1..] == s[i + 1..] + kept && q[1..] + [s[i]] == s[i + 1..] + (kept + [s[i]])
  {}

  lemma {:induction false} AllExpired(o: Options, s: seq<Conn>, t: int)
    requires forall k :: 0 <= k < |s| ==> Expired(o, s[k], t)
    ensures Dropped(o, s, t) == s && Kept(o, s, t) == []
  {
    if s != [] {
      AllExpired(o, s[..|s| - 1], t);
    }
  }

  lemma {:induction false} SuffixNext(s: seq<Conn>, c: Conn, d: nat)
    requires d <= |s|
    ensures (s + [c])[d..] == s[d..] + [c]
  {}

  /** Expired before `d`, not expired from `d` on. */
  lemma {:induction false} SweepSplitsAt(o: Options, s: seq<Conn>, d: nat, t: int)
    requires d <= |s| && forall k :: 0 <= k < |s| ==> (Expired(o, s[k], t) <==> k < d)
    ensures Dropped(o, s, t) == s[..d] && Kept(o, s, t) == s[d..]
  {
    if d == |s| {
      AllExpired(o, s, t);
    } else {
      var front, c := s[..|s| - 1], s[|s| - 1];
      SweepSplitsAt(o, front, d, t);
      assert front[..d] == s[..d];
      SuffixNext(front, c, d);
      assert s == front + [c];
      assert Dropped(o, s, t) == Dropped(o, front, t);
    }
  }

  /** In a channel ordered by last use, and with no maximal lifetime, the expired connections are
      exactly a prefix. */
  lemma {:induction false} ExpiredArePrefix(o: Options, s: seq<Conn>, now: int, t: int)
    requires InOrder(s, now) && o.maxLifetime <= 0
    ensures Dropped(o, s, t) + Kept(o, s, t) == s
  {
    var d := 0;
    while d < |s| && Expired(o, s[d], t)
      invariant d <= |s| && forall k :: 0 <= k < d ==> Expired(o, s[k], t)
    {
      d := d + 1;
    }
    forall k | d < k < |s| ensures s[d].lastUsed <= s[k].lastUsed {
      assert Earlier(s, d, k);
    }
    SweepSplitsAt(o, s, d, t);
    assert s[..d] + s[d..] == s;
  }

  /** A sweep keeps the order and the connections different. */
  lemma {:induction false} KeptInOrder(o: Options, s: seq<Conn>, active: set<Conn>, made: nat, now: int, t: int)
    requires InOrder(s, now) && Known(s, active, made)
    ensures InOrder(Kept(o, s, t), now) && Known(Kept(o, s, t), active, made)
  {
    if s != [] {
      var n := |s| - 1;
      assert s[0..n] == s[..n];
      KnownPart(s, 0, n, active, made, now);
      KeptInOrder(o, s[..n], active, made, now, t);
      if Expired(o, s[n], t) {
        assert Kept(o, s, t) == Kept(o, s[..n], t);
      } else {
        SweepDecides(o, s[..n], t);
        LastApart(s, active, made, now);
        KnownLast(Kept(o, s[..n], t), s[n], active, made, now);
      }
    }
  }

  /** The last connection differs from the others and was used after all of them. */
  lemma {:induction false} LastApart(s: seq<Conn>, active: set<Conn>, made: nat, now: int)
    requires s != [] && InOrder(s, now) && Known(s, active, made)
    ensures var n := |s| - 1;
            && s[n].id < made && s[n].lastUsed <= now && (forall d :: d in active ==> d.id != s[n].id)
            && forall c :: c in s[..n] ==> c.id != s[n].id && c.lastUsed <= s[n].lastUsed
  {
    var n := |s| - 1;
    forall d | d in active ensures d.id != s[n].id {
      assert Apart(s[n], d);
    }
    forall k | 0 <= k < n ensures s[k].id != s[n].id && s[k].lastUsed <= s[n].lastUsed {
      assert ApartAt(s, k, n) && Earlier(s, k, n);
    }
  }

  /** All that a sweep keeps. */
  lemma {:induction false} SweepLaws(o: Options, s: seq<Conn>, active: set<Conn>, made: nat, now: int, t: int)
    requires InOrder(s, now) && Known(s, active, made) && t >= now
    ensures InOrder(Kept(o, s, t), t) && Known(Kept(o, s, t), active, made)
    ensures |Kept(o, s, t)| + |Dropped(o, s, t)| == |s| && |Ids(Dropped(o, s, t))| == |Dropped(o, s, t)|
    ensures o.maxLifetime <= 0 ==> Dropped(o, s, t) + Kept(o, s, t) == s
  {
    KeptInOrder(o, s, active, made, now, t);
    SweepLengths(o, s, t);
    if o.maxLifetime <= 0 {
      ExpiredArePrefix(o, s, now, t);
    }
  }

  predicate Apart(c: Conn, d: Conn) { c.id != d.id }

  predicate ApartAt(s: seq<Conn>, j: nat, k: nat)
    requires j < |s| && k < |s|
  {
    s[j].id != s[k].id
  }

  /** Different connections, all of them made. */
  ghost predicate Known(idle: seq<Conn>, active: set<Conn>, made: nat) {
    && (forall j, k :: 0 <= j < k < |idle| ==> ApartAt(idle, j, k))
    && (forall c :: c in idle ==> c.id < made)
    && (forall c :: c in active ==> c.id < made)
    && (forall c, d {:trigger Apart(c, d)} :: c in idle && d in active ==> Apart(c, d))
    && (forall c, d {:trigger Apart(c, d)} :: c in active && d in active && c != d ==> Apart(c, d))
  }

  /** A stretch of the channel. */
  lemma {:induction false} KnownPart(s: seq<Conn>, i: nat, j: nat, active: set<Conn>, made: nat, now: int)
    requires i <= j <= |s| && Known(s, active, made) && InOrder(s, now)
    ensures Known(s[i..j], active, made) && InOrder(s[i..j], now)
  {
    var part := s[i..j];
    forall k, l | 0 <= k < l < |part| ensures ApartAt(part, k, l) && Earlier(part, k, l) {
      assert ApartAt(s, i + k, i + l) && Earlier(s, i + k, i + l);
    }
    assert forall c :: c in part ==> c in s;
  }

  /** One connection more at the end, different from the others and not used before any of them. */
  lemma {:induction false} KnownLast(s: seq<Conn>, c: Conn, active: set<Conn>, made: nat, now: int)
    requires Known(s, active, made) && InOrder(s, now) && c.id < made && c.lastUsed <= now
    requires forall k :: 0 <= k < |s| ==> s[k].id != c.id && s[k].lastUsed <= c.lastUsed
    requires forall d :: d in active ==> d.id != c.id
    ensures Known(s + [c], active, made) && InOrder(s + [c], now)
  {
    var more := s + [c];
    forall k, l | 0 <= k < l < |more| ensures ApartAt(more, k, l) && Earlier(more, k, l) {
      if l < |s| {
        assert ApartAt(s, k, l) && Earlier(s, k, l);
      }
    }
  }

  /** The first connection is taken out of the channel. */
  lemma {:induction false} KnownTake(idle: seq<Conn>, active: set<Conn>, made: nat, now: int)
    requires idle != [] && Known(idle, active, made) && InOrder(idle, now)
    ensures idle[0] !in active && Known(idle[1..], active, made) && Known(idle[1..], active + {idle[0]}, made)
    ensures InOrder(idle[1..], now)
  {
    var c, rest := idle[0], idle[1..];
    assert idle[1..|idle|] == rest;
    KnownPart(idle, 1, |idle|, active, made, now);
    assert c in active ==> Apart(c, c);
    forall k | 0 <= k < |rest| ensures Apart(rest[k], c) {
      assert ApartAt(idle, 0, k + 1);
    }
    forall d | d in active ensures Apart(c, d) && Apart(d, c) {}
  }

  lemma {:induction false} KnownMore(idle: seq<Conn>, active: set<Conn>, made: nat)
    requires Known(idle, active, made)
    ensures Known(idle, active, made + 1)
  {}

  lemma {:induction false} KnownNew(idle: seq<Conn>, active: set<Conn>, made: nat, now: int)
    requires Known(idle, active, made)
    ensures Conn(made, now, now) !in active
    ensures Known(idle, active + {Conn(made, now, now)}, made + 1)
  {}

  lemma {:induction false} KnownPut(idle: seq<Conn>, active: set<Conn>, made: nat, conn: Conn, now: int)
    requires Known(idle, active, made) && InOrder(idle, now) && conn in active
    ensures var later := idle + [conn.(lastUsed := now)];
            Known(later, active - {conn}, made) && InOrder(later, now)
  {
    forall k | 0 <= k < |idle| ensures idle[k].id != conn.id {
      assert Apart(idle[k], conn);
    }
    forall d | d in active - {conn} ensures d.id != conn.id {
      assert Apart(d, conn);
    }
    KnownLast(idle, conn.(lastUsed := now), active - {conn}, made, now);
  }

  // ----- The outcomes of Get -----

  /** A further connection may be created when `n` are counted. */
  predicate HasRoom(o: Options, n: int) { o.maxActive == 0 || n < o.maxActive }

  /** A caller may not wait when `n` callers are counted as waiting. */
  predicate Crowd(o: Options, n: int) { o.maxWaiters > 0 && n >= o.maxWaiters }

  /** What a call finds: the channel, Total, the waiters, the connections made, the clock. */
  datatype Before = Before(idle: seq<Conn>, total: int, waits: int, made: nat, now: int)

  /** What it leaves: its result, the channel, the raw closes, the waits it began, how many of them saw the
      end of their context, the clock. */
  datatype After = After(r: GetResult, idle: seq<Conn>, closed: seq<nat>, waited: int, timedOut: int, now: int)

  /** 1 for a wait as the `n`th that sees the end of its context. */
  function Missed(w: World, n: int): nat { if w.takes(n) then 0 else 1 }

  /** How many of these waits do. */
  function AllMissed(w: World, from: int, to: int): nat
    decreases to - from
  {
    if from >= to then 0 else Missed(w, from) + AllMissed(w, from + 1, to)
  }

  /** A call that waits as the `n`th receives a connection if there is one: at once, or by a retry. */
  predicate Receives(o: Options, w: World, n: int) { w.takes(n) || (w.deadline && o.maxRetries > 0) }

  /** After `j` connections received and dropped, the call may wait and has to. */
  predicate Blocked(o: Options, total: int, waits: int, j: nat) {
    !HasRoom(o, total - j) && !Crowd(o, waits + j)
  }

  /** The call received `n` connections, each but the first in a wait that found neither room nor
      too many waiters; `first` is 1 when the first one was received without waiting. */
  ghost predicate ReceivedBy(o: Options, w: World, b: Before, n: nat, first: nat) {
    forall j: nat :: first <= j < n ==> Blocked(o, b.total, b.waits, j) && Receives(o, w, b.waits + j + 1)
  }

  /** It dropped the first `d`, all unfit, and returned the next, which was fit. */
  ghost predicate TookNext(o: Options, w: World, b: Before, a: After, first: nat, d: nat) {
    && d < |b.idle| && ReceivedBy(o, w, b, d + 1, first)
    && a.r == Got(b.idle[d]) && !Unfit(o, b.idle[d], a.now, w)
    && a.idle == b.idle[d + 1..] && a.closed == Ids(b.idle[..d]) && a.waited == d + 1 - first
    && a.timedOut == AllMissed(w, b.waits + first + 1, b.waits + d + 2)
  }

  /** It dropped the first `d`, had room, and created one. */
  ghost predicate MadeOne(o: Options, w: World, b: Before, a: After, first: nat, d: nat) {
    && first <= d <= |b.idle| && ReceivedBy(o, w, b, d, first) && HasRoom(o, b.total - d)
    && (if w.made.Makes? then
          a.r.Got? && a.r.conn.id == b.made && b.now <= a.r.conn.createdAt == a.r.conn.lastUsed <= a.now
        else a.r == Failed(CreateFailed))
    && a.idle == b.idle[d..] && a.closed == Ids(b.idle[..d]) + Rejected(w, b.made) && a.waited == d - first
    && a.timedOut == AllMissed(w, b.waits + first + 1, b.waits + d + 1)
  }

  /** It dropped the first `d`, had no room, and was refused a wait or got nothing in it, because nothing was
      there or its context ended first and no retry was left to try. */
  ghost predicate GaveUp(o: Options, w: World, b: Before, a: After, first: nat, d: nat) {
    && first <= d <= |b.idle| && ReceivedBy(o, w, b, d, first) && !HasRoom(o, b.total - d)
    && a.idle == b.idle[d..] && a.closed == Ids(b.idle[..d])
    && a.timedOut == AllMissed(w, b.waits + first + 1, b.waits + d + 1) + (if Crowd(o, b.waits + d) then 0 else 1)
    && (if Crowd(o, b.waits + d) then a.r == Failed(TooManyWaiters) && a.waited == d - first
        else
          && a.r == Failed(ConnectionTimeout) && a.waited == d + 1 - first
          && (d == |b.idle| || !Receives(o, w, b.waits + d + 1)))
  }

  ghost predicate ServedAt(o: Options, w: World, b: Before, a: After, first: nat, d: nat) {
    && b.now <= a.now && d <= |b.idle|
    && (forall j :: 0 <= j < d ==> Unfit(o, b.idle[j], a.now, w))
    && (TookNext(o, w, b, a, first, d) || MadeOne(o, w, b, a, first, d) || GaveUp(o, w, b, a, first, d))
  }

  /** Every outcome of a call: it drops some unfit connections from the front of the channel, and then
      returns the next one, creates one, or gives up. */
  ghost predicate Served(o: Options, w: World, b: Before, a: After, first: nat) {
    exists d: nat :: ServedAt(o, w, b, a, first, d)
  }

  /** A connection received and dropped, and what the call does next. */
  lemma {:induction false} ServedDrop(o: Options, w: World, b: Before, a: After)
    requires b.idle != [] && Unfit(o, b.idle[0], b.now, w)
    requires Served(o, w, b.(idle := b.idle[1..], total := b.total - 1, waits := b.waits + 1), a, 0)
    ensures Served(o, w, b, a.(closed := [b.idle[0].id] + a.closed), 1)
  {
    var c := b.(idle := b.idle[1..], total := b.total - 1, waits := b.waits + 1);
    var d: nat :| ServedAt(o, w, c, a, 0, d);
    DropsUnfit(o, w, b, a, d);
    IdsNext(b.idle, d);
    if TookNext(o, w, c, a, 0, d) {
      DroppedTook(o, w, b, a, d);
    } else {
      DroppedElse(o, w, b, a, d);
    }
    assert ServedAt(o, w, b, a.(closed := [b.idle[0].id] + a.closed), 1, d + 1);
  }

  lemma {:induction false} DroppedTook(o: Options, w: World, b: Before, a: After, d: nat)
    requires b.idle != [] && d < |b.idle| && Ids(b.idle[..d + 1]) == [b.idle[0].id] + Ids(b.idle[1..][..d])
    requires TookNext(o, w, b.(idle := b.idle[1..], total := b.total - 1, waits := b.waits + 1), a, 0, d)
    ensures TookNext(o, w, b, a.(closed := [b.idle[0].id] + a.closed), 1, d + 1)
  {
    DropReceived(o, w, b, d + 1);
  }

  lemma {:induction false} DroppedElse(o: Options, w: World, b: Before, a: After, d: nat)
    requires b.idle != [] && d < |b.idle| && Ids(b.idle[..d + 1]) == [b.idle[0].id] + Ids(b.idle[1..][..d])
    requires var c := b.(idle := b.idle[1..], total := b.total - 1, waits := b.waits + 1);
             MadeOne(o, w, c, a, 0, d) || GaveUp(o, w, c, a, 0, d)
    ensures var a' := a.(closed := [b.idle[0].id] + a.closed);
            MadeOne(o, w, b, a', 1, d + 1) || GaveUp(o, w, b, a', 1, d + 1)
  {
    DropReceived(o, w, b, d);
  }

  lemma {:induction false} IdsNext(s: seq<Conn>, d: nat)
    requires d < |s|
    ensures Ids(s[..d + 1]) == [s[0].id] + Ids(s[1..][..d])
    ensures s[1..][d..] == s[d + 1..]
  {
    assert s[..d + 1] == [s[0]] + s[1..][..d];
  }

  lemma {:induction false} Regroup(s: seq<nat>, x: nat, t: seq<nat>)
    ensures s + [x] + t == s + ([x] + t)
  {}

  lemma {:induction false} DropsUnfit(o: Options, w: World, b: Before, a: After, d: nat)
    requires b.idle != [] && Unfit(o, b.idle[0], b.now, w) && b.now <= a.now && d < |b.idle|
    requires forall j :: 0 <= j < d ==> Unfit(o, b.idle[1..][j], a.now, w)
    ensures forall j :: 0 <= j < d + 1 ==> Unfit(o, b.idle[j], a.now, w)
  {
    forall j | 0 <= j < d + 1 ensures Unfit(o, b.idle[j], a.now, w) {
      if j > 0 {
        assert b.idle[1..][j - 1] == b.idle[j];
      }
    }
  }

  lemma {:induction false} DropReceived(o: Options, w: World, b: Before, n: nat)
    requires b.idle != []
    requires ReceivedBy(o, w, b.(idle := b.idle[1..], total := b.total - 1, waits := b.waits + 1), n, 0)
    ensures ReceivedBy(o, w, b, n + 1, 1)
  {
    forall j: nat | 1 <= j < n + 1 ensures Blocked(o, b.total, b.waits, j) && Receives(o, w, b.waits + j + 1) {
      assert Blocked(o, b.total - 1, b.waits + 1, j - 1) && Receives(o, w, b.waits + 1 + (j - 1) + 1);
    }
  }

  /** One wait more, before the others. */
  lemma {:induction false} ReceivedWait(o: Options, w: World, b: Before, n: nat)
    requires ReceivedBy(o, w, b, n, 1) && Blocked(o, b.total, b.waits, 0) && Receives(o, w, b.waits + 1)
    ensures ReceivedBy(o, w, b, n, 0)
  {
    forall j: nat | 0 <= j < n ensures Blocked(o, b.total, b.waits, j) && Receives(o, w, b.waits + j + 1) {}
  }

  /** A wait that ended with a connection. */
  lemma {:induction false} ServedWait(o: Options, w: World, b: Before, a: After)
    requires !HasRoom(o, b.total) && !Crowd(o, b.waits) && Receives(o, w, b.waits + 1) && Served(o, w, b, a, 1)
    ensures Served(o, w, b, a.(waited := a.waited + 1, timedOut := a.timedOut + Missed(w, b.waits + 1)), 0)
  {
    var d: nat :| ServedAt(o, w, b, a, 1, d);
    var a' := a.(waited := a.waited + 1, timedOut := a.timedOut + Missed(w, b.waits + 1));
    assert Blocked(o, b.total, b.waits, 0);
    if TookNext(o, w, b, a, 1, d) {
      ReceivedWait(o, w, b, d + 1);
      assert TookNext(o, w, b, a', 0, d);
    } else if MadeOne(o, w, b, a, 1, d) {
      ReceivedWait(o, w, b, d);
      assert MadeOne(o, w, b, a', 0, d);
    } else {
      ReceivedWait(o, w, b, d);
      assert GaveUp(o, w, b, a', 0, d);
    }
    assert ServedAt(o, w, b, a', 0, d);
  }

  lemma {:induction false} ReceivedEarlier(o: Options, w: World, b: Before, later: int, n: nat, first: nat)
    requires ReceivedBy(o, w, b.(now := later), n, first)
    ensures ReceivedBy(o, w, b, n, first)
  {
    forall j: nat | first <= j < n ensures Blocked(o, b.total, b.waits, j) && Receives(o, w, b.waits + j + 1) {
      assert Blocked(o, b.(now := later).total, b.(now := later).waits, j);
    }
  }

  /** The clock may have been read earlier. */
  lemma {:induction false} ServedEarlier(o: Options, w: World, b: Before, later: int, a: After, first: nat)
    requires Served(o, w, b.(now := later), a, first) && b.now <= later
    ensures Served(o, w, b, a, first)
  {
    var b' := b.(now := later);
    var d: nat :| ServedAt(o, w, b', a, first, d);
    if TookNext(o, w, b', a, first, d) {
      ReceivedEarlier(o, w, b, later, d + 1, first);
      assert TookNext(o, w, b, a, first, d);
    } else if MadeOne(o, w, b', a, first, d) {
      ReceivedEarlier(o, w, b, later, d, first);
      assert MadeOne(o, w, b, a, first, d);
    } else {
      ReceivedEarlier(o, w, b, later, d, first);
      assert GaveUp(o, w, b, a, first, d);
    }
    assert ServedAt(o, w, b, a, first, d);
  }

  /** A wait that ended with a connection at the time `later`. */
  lemma {:induction false} ServedLater(o: Options, w: World, b: Before, later: int, a: After)
    requires !HasRoom(o, b.total) && !Crowd(o, b.waits) && Receives(o, w, b.waits + 1) && b.now <= later
    requires Served(o, w, b.(now := later), a, 1)
    ensures Served(o, w, b, a.(waited := a.waited + 1, timedOut := a.timedOut + Missed(w, b.waits + 1)), 0)
  {
    ServedWait(o, w, b.(now := later), a);
    ServedEarlier(o, w, b, later, a.(waited := a.waited + 1, timedOut := a.timedOut + Missed(w, b.waits + 1)), 0);
  }

  /** How a call went: what happened first, and what the rest of it left. */
  datatype Course =
    | Took
    | ThenDropped(left: After, rest: Course)
    | ThenWaited(later: int, left: After, rest: Course)
    | Ended

  /** One call, step by step. */
  ghost predicate Follows(o: Options, w: World, b: Before, a: After, first: nat, course: Course)
    decreases course
  {
    match course
    case Took =>
      first == 1 && b.idle != [] && !Unfit(o, b.idle[0], b.now, w)
      && a == After(Got(b.idle[0]), b.idle[1..], [], 0, 0, b.now)
    case ThenDropped(left, rest) =>
      first == 1 && b.idle != [] && Unfit(o, b.idle[0], b.now, w)
      && a == left.(closed := [b.idle[0].id] + left.closed)
      && Follows(o, w, Before(b.idle[1..], b.total - 1, b.waits + 1, b.made, b.now), left, 0, rest)
    case ThenWaited(later, left, rest) =>
      first == 0 && !HasRoom(o, b.total) && !Crowd(o, b.waits) && Receives(o, w, b.waits + 1) && b.now <= later
      && a == left.(waited := left.waited + 1, timedOut := left.timedOut + Missed(w, b.waits + 1))
      && Follows(o, w, b.(now := later), left, 1, rest)
    case Ended =>
      first == 0 && b.now <= a.now
      && (HasRoom(o, b.total) || Crowd(o, b.waits) || b.idle == [] || !Receives(o, w, b.waits + 1))
      && a == if HasRoom(o, b.total) then
                After(if w.made.Makes? then Got(Conn(b.made, a.now, a.now)) else Failed(CreateFailed),
                      b.idle, Rejected(w, b.made), 0, 0, a.now)
              else if Crowd(o, b.waits) then After(Failed(TooManyWaiters), b.idle, [], 0, 0, a.now)
              else After(Failed(ConnectionTimeout), b.idle, [], 1, 1, a.now)
  }

  /** However it went, it is one of the outcomes. */
  lemma {:induction false} FollowsIsServed(o: Options, w: World, b: Before, a: After, first: nat, course: Course)
    requires Follows(o, w, b, a, first, course)
    ensures Served(o, w, b, a, first)
    decreases course
  {
    match course {
      case Took => ServedFit(o, w, b, a);
      case ThenDropped(left, rest) =>
        var c := Before(b.idle[1..], b.total - 1, b.waits + 1, b.made, b.now);
        FollowsIsServed(o, w, c, left, 0, rest);
        assert c == b.(idle := b.idle[1..], total := b.total - 1, waits := b.waits + 1);
        ServedDrop(o, w, b, left);
      case ThenWaited(later, left, rest) =>
        FollowsIsServed(o, w, b.(now := later), left, 1, rest);
        ServedLater(o, w, b, later, left);
      case Ended => ServedNothing(o, w, b, a);
    }
  }

  /** A fit connection received without waiting. */
  lemma {:induction false} ServedFit(o: Options, w: World, b: Before, a: After)
    requires b.idle != [] && !Unfit(o, b.idle[0], b.now, w)
    requires a == After(Got(b.idle[0]), b.idle[1..], [], 0, 0, b.now)
    ensures Served(o, w, b, a, 1)
  {
    assert Ids(b.idle[..0]) == [];
    assert TookNext(o, w, b, a, 1, 0);
    assert ServedAt(o, w, b, a, 1, 0);
  }

  /** Nothing received: a connection created, or a refusal, or a wait that ended with nothing. */
  lemma {:induction false} ServedNothing(o: Options, w: World, b: Before, a: After)
    requires b.now <= a.now && a.idle == b.idle
    requires HasRoom(o, b.total) || Crowd(o, b.waits) || b.idle == [] || !Receives(o, w, b.waits + 1)
    requires if HasRoom(o, b.total) then
               && a == After(if w.made.Makes? then Got(Conn(b.made, a.now, a.now)) else Failed(CreateFailed),
                             b.idle, Rejected(w, b.made), 0, 0, a.now)
             else if Crowd(o, b.waits) then a == After(Failed(TooManyWaiters), b.idle, [], 0, 0, a.now)
             else a == After(Failed(ConnectionTimeout), b.idle, [], 1, 1, a.now)
    ensures Served(o, w, b, a, 0)
  {
    assert Ids(b.idle[..0]) == [] && b.idle[0..] == b.idle;
    if HasRoom(o, b.total) {
      assert MadeOne(o, w, b, a, 0, 0);
    } else {
      assert GaveUp(o, w, b, a, 0, 0);
    }
    assert ServedAt(o, w, b, a, 0, 0);
  }

  /** A call that received an unfit connection first waits if and only if that leaves no room, and may;
      with room it has created the next one at once. */
  lemma {:induction false} ServedUnfit(o: Options, w: World, b: Before, a: After)
    requires b.idle != [] && Unfit(o, b.idle[0], b.now, w) && Served(o, w, b, a, 1)
    ensures a.waited > 0 <==> !HasRoom(o, b.total - 1) && !Crowd(o, b.waits + 1)
    ensures HasRoom(o, b.total - 1) ==> MadeOne(o, w, b, a, 1, 1)
    ensures a.waited >= 0
  {
    var d: nat :| ServedAt(o, w, b, a, 1, d);
    assert d >= 1;
    assert d > 1 ==> Blocked(o, b.total, b.waits, 1);
    assert TookNext(o, w, b, a, 1, d) ==> Blocked(o, b.total, b.waits, 1);
  }

  /** In terms of the limits: a connection handed out from the channel has neither idled too long nor lived
      too long when the call returns, and is alive when that is tested. */
  lemma {:induction false} HandedWithinLimits(o: Options, w: World, b: Before, a: After, first: nat)
    requires Served(o, w, b, a, first)
    ensures a.r.Got? && a.r.conn.id != b.made ==>
      && a.r.conn in b.idle && (o.testOnBorrow ==> a.r.conn.id !in w.dead)
      && (o.maxIdleTime > 0 ==> a.now - a.r.conn.lastUsed <= o.maxIdleTime)
      && (o.maxLifetime > 0 ==> a.now - a.r.conn.createdAt <= o.maxLifetime)
  {
    var d: nat :| ServedAt(o, w, b, a, first, d);
    assert TookNext(o, w, b, a, first, d) ==> !Unfit(o, b.idle[d], a.now, w);
  }

  /** Every connection the call closed is the new one that OnCreate rejects, or one from the channel that has
      idled or lived too long, or is dead when that is tested. */
  lemma {:induction false} ClosedPastLimits(o: Options, w: World, b: Before, a: After, first: nat)
    requires Served(o, w, b, a, first)
    ensures forall id :: id in a.closed ==>
      || (id == b.made && w.made.OnCreateFails?)
      || (exists c :: && c in b.idle && c.id == id
                      && ((o.maxIdleTime > 0 && a.now - c.lastUsed > o.maxIdleTime)
                          || (o.maxLifetime > 0 && a.now - c.createdAt > o.maxLifetime)
                          || (o.testOnBorrow && id in w.dead)))
  {
    var d: nat :| ServedAt(o, w, b, a, first, d);
    forall id | id in Ids(b.idle[..d])
      ensures exists c :: && c in b.idle && c.id == id
                          && ((o.maxIdleTime > 0 && a.now - c.lastUsed > o.maxIdleTime)
                              || (o.maxLifetime > 0 && a.now - c.createdAt > o.maxLifetime)
                              || (o.testOnBorrow && id in w.dead))
    {
      var j :| 0 <= j < d && Ids(b.idle[..d])[j] == id;
      assert b.idle[j] in b.idle && Unfit(o, b.idle[j], a.now, w);
    }
  }

  /** What a call by the single caller comes to. */
  lemma {:induction false} CourseLaws(o: Options, w: World, b: Before, a: After, first: nat, course: Course)
    requires Follows(o, w, b, a, first, course)
    ensures Served(o, w, b, a, first)
    ensures first == 1 && Unfit(o, b.idle[0], b.now, w) && b.waits == -1 ==>
              (a.waited == 0 <==> o.maxActive == 0 || b.total <= o.maxActive)
  {
    FollowsIsServed(o, w, b, a, first, course);
    if first == 1 && Unfit(o, b.idle[0], b.now, w) {
      ServedUnfit(o, w, b, a);
    }
  }
}
