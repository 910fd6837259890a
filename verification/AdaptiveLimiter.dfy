/** Two window limiters combined. */
module AdaptiveLimiters {
  import opened Windows
  import opened WindowLimiters

  // Every other mode is served by the primary alone.
  const ALL_REQUIRED := 1
  const ANY_ALLOWED := 2

  /** The first `i` of `some` are the first `j` of `all` with some elements left out. */
  predicate PartUpTo(some: seq<int>, i: nat, all: seq<int>, j: nat)
    requires i <= |some| && j <= |all|
  {
    || i == 0
    || (j > 0 && ((some[i - 1] == all[j - 1] && PartUpTo(some, i - 1, all, j - 1)) || PartUpTo(some, i, all, j - 1)))
  }

  /** `some` is `all` with some elements left out. */
  predicate PartOf(some: seq<int>, all: seq<int>) { PartUpTo(some, |some|, all, |all|) }

  /** Only the elements looked at matter. */
  lemma {:induction false} PartSame(some: seq<int>, some': seq<int>, i: nat, all: seq<int>, all': seq<int>, j: nat)
    requires i <= |some| && i <= |some'| && j <= |all| && j <= |all'| && PartUpTo(some, i, all, j)
    requires forall k :: 0 <= k < i ==> some'[k] == some[k]
    requires forall k :: 0 <= k < j ==> all'[k] == all[k]
    ensures PartUpTo(some', i, all', j)
  {
    if i > 0 {
      if some[i - 1] == all[j - 1] && PartUpTo(some, i - 1, all, j - 1) {
        PartSame(some, some', i - 1, all, all', j - 1);
      } else {
        PartSame(some, some', i, all, all', j - 1);
      }
    }
  }

  lemma {:induction false} PartOfAppend(some: seq<int>, all: seq<int>, t: int)
    requires PartOf(some, all)
    ensures PartOf(some + [t], all + [t]) && PartOf(some, all + [t])
  {
    PartSame(some, some + [t], |some|, all, all + [t], |all|);
    PartSame(some, some, |some|, all, all + [t], |all|);
  }

  /** A history that may have grown by one stamp. */
  lemma {:induction false} PartOfGrown(some: seq<int>, was: seq<int>, all: seq<int>, t: int)
    requires PartOf(some, was) && (all == was || all == was + [t])
    ensures PartOf(some, all) && (all == was + [t] ==> PartOf(some + [t], all))
  {
    PartOfAppend(some, was, t);
  }

  /** Leaving out one more. */
  lemma {:induction false} PartShorter(some: seq<int>, i: nat, all: seq<int>, j: nat)
    requires 0 < i <= |some| && j <= |all| && PartUpTo(some, i, all, j)
    ensures PartUpTo(some, i - 1, all, j)
  {
    if PartUpTo(some, i, all, j - 1) {
      PartShorter(some, i, all, j - 1);
    }
  }

  lemma {:induction false} PartOfShorter(some: seq<int>, all: seq<int>, t: int)
    requires PartOf(some + [t], all)
    ensures PartOf(some, all)
  {
    PartShorter(some + [t], |some| + 1, all, |all|);
    PartSame(some + [t], some, |some|, all, all, |all|);
  }

  /** No window holds more of a part than of the whole. */
  lemma {:induction false} PartOfBetween(some: seq<int>, i: nat, all: seq<int>, j: nat, lo: int, hi: int)
    requires i <= |some| && j <= |all| && PartUpTo(some, i, all, j)
    ensures Count(some, i, lo, hi) <= Count(all, j, lo, hi)
  {
    if i > 0 {
      if some[i - 1] == all[j - 1] && PartUpTo(some, i - 1, all, j - 1) {
        PartOfBetween(some, i - 1, all, j - 1, lo, hi);
      } else {
        PartOfBetween(some, i, all, j - 1, lo, hi);
      }
    }
  }

  /** Whether a limiter with these grants admits a request at `t`. */
  predicate Room(grants: seq<int>, windowSize: int, maxRequests: nat, t: int) {
    InWindow(grants, windowSize, t) < maxRequests
  }

  /** Whether the combination does, when the two limiters do or not. */
  predicate Admits(mode: int, p: bool, s: bool) {
    if mode == ALL_REQUIRED then p && s else if mode == ANY_ALLOWED then p || s else p
  }

  /** From the reading of the clock on there is room exactly from `opening` on. */
  ghost predicate OpensAt(grants: seq<int>, windowSize: int, maxRequests: nat, read: int, opening: int) {
    forall t :: read <= t ==> (Room(grants, windowSize, maxRequests, t) <==> opening <= t)
  }

  /** The delay of the combination for delays of the two limiters. */
  function Joint(mode: int, d1: int, d2: int): int {
    if mode == ALL_REQUIRED then if d1 > d2 then d1 else d2
    else if mode == ANY_ALLOWED then if d1 < d2 then d1 else d2
    else d1
  }

  /** Once the joint delay is over the combination admits, and before it does not, up to the time between
      the two readings of the clock. */
  lemma {:induction false} JointOpens(
    mode: int, p: bool, s: bool, read1: int, d1: int, read2: int, d2: int, t: int)
    requires read1 <= read2 <= t && (p <==> read1 + d1 <= t) && (s <==> read2 + d2 <= t)
    requires var delay := Joint(mode, d1, d2); read2 + delay <= t || t < read1 + delay
    ensures Admits(mode, p, s) <==> read2 + Joint(mode, d1, d2) <= t
  {}

  /** Reserve of one of two limiters, the other untouched but for the clock if they are the same. */
  method ReserveOne(limiter: WindowLimiter, now: int, read: int) returns (delay: int, ok: bool)
    requires limiter.Valid() && limiter.clock <= now <= read
    modifies limiter
    ensures limiter.Valid() && limiter.clock == read && limiter.grants == old(limiter.grants)
    ensures ok && delay >= 0
    ensures limiter.maxRequests > 0 ==>
              OpensAt(limiter.grants, limiter.windowSize, limiter.maxRequests, read, read + delay)
  {
    delay, ok := limiter.Reserve(now, read);
  }

  /** Asks one of two limiters, which may be one and the same; the stamps given stay part of the
      histories, and so do the stamps with the new grant. */
  method AskOne(limiter: WindowLimiter, other: WindowLimiter, now: int, stamp: int,
                ghost mine: seq<int>, ghost theirs: seq<int>)
    returns (allowed: bool)
    requires limiter.Valid() && other.Valid() && limiter.clock <= now && other.clock <= now <= stamp
    requires PartOf(mine, limiter.grants) && PartOf(theirs, other.grants)
    modifies limiter
    ensures limiter.Valid() && other.Valid() && limiter.clock <= stamp && other.clock <= stamp
    ensures PartOf(mine, limiter.grants) && PartOf(theirs, other.grants)
    ensures allowed ==> PartOf(mine + [stamp], limiter.grants)
    ensures allowed <==> Room(old(limiter.grants), limiter.windowSize, limiter.maxRequests, now)
    ensures limiter.grants == if allowed then old(limiter.grants) + [stamp] else old(limiter.grants)
  {
    ghost var was, wasOther := limiter.grants, other.grants;
    allowed := limiter.Allow(now, stamp);
    PartOfGrown(mine, was, limiter.grants, stamp);
    PartOfGrown(theirs, wasOther, other.grants, stamp);
  }

  class AdaptiveLimiter {
    const primary: WindowLimiter
    const secondary: WindowLimiter
    const mode: int
    ghost var primaryStamps: seq<int>     // grants of this limiter, by the primary's time stamp
    ghost var secondaryStamps: seq<int>   // grants of this limiter, by the secondary's time stamp

    ghost predicate Valid()
      reads this, primary, secondary
    {
      && primary.Valid() && secondary.Valid()
      && PartOf(primaryStamps, primary.grants) && PartOf(secondaryStamps, secondary.grants)
    }

    constructor (primary: WindowLimiter, secondary: WindowLimiter, mode: int)
      requires primary.Valid() && secondary.Valid()
      ensures Valid() && primaryStamps == [] && secondaryStamps == []
      ensures this.primary == primary && this.secondary == secondary && this.mode == mode
    {
      this.primary, this.secondary, this.mode := primary, secondary, mode;
      primaryStamps, secondaryStamps := [], [];
    }

    /** AllRequired: the primary is charged before the secondary is asked. */
    method AllowAll(now1: int, stamp1: int, now2: int, stamp2: int)
      returns (allowed: bool, ghost p: bool, ghost s: bool)
      requires Valid() && primary.clock <= now1 <= stamp1 <= now2 <= stamp2 && secondary.clock <= now1
      modifies this, primary, secondary
      ensures Valid() && (allowed <==> p && s)
      ensures primaryStamps == (if allowed then old(primaryStamps) + [stamp1] else old(primaryStamps))
      ensures secondaryStamps == (if allowed then old(secondaryStamps) + [stamp2] else old(secondaryStamps))
      ensures p <==> Room(old(primary.grants), primary.windowSize, primary.maxRequests, now1)
      ensures primary != secondary ==>
        && (s <==> Room(old(secondary.grants), secondary.windowSize, secondary.maxRequests, now2))
        && primary.grants == old(primary.grants) + (if p then [stamp1] else [])
        && secondary.grants == old(secondary.grants) + (if p && s then [stamp2] else [])
    {
      ghost var stamps := primaryStamps + [stamp1];
      allowed := AskOne(primary, secondary, now1, stamp1, primaryStamps, secondaryStamps);
      p, s := allowed, Room(secondary.grants, secondary.windowSize, secondary.maxRequests, now2);
      if allowed {
        allowed := AskOne(secondary, primary, now2, stamp2, secondaryStamps, stamps);
        if allowed {
          primaryStamps, secondaryStamps := stamps, secondaryStamps + [stamp2];
        } else {
          PartOfShorter(primaryStamps, primary.grants, stamp1);
        }
      }
    }

    /** AnyAllowed: the secondary is asked only when the primary refuses. */
    method AllowAny(now1: int, stamp1: int, now2: int, stamp2: int)
      returns (allowed: bool, ghost p: bool, ghost s: bool)
      requires Valid() && primary.clock <= now1 <= stamp1 <= now2 <= stamp2 && secondary.clock <= now1
      modifies this, primary, secondary
      ensures Valid() && (allowed <==> p || s)
      ensures primaryStamps == old(primaryStamps) + (if p then [stamp1] else [])
      ensures secondaryStamps == old(secondaryStamps) + (if !p && s then [stamp2] else [])
      ensures p <==> Room(old(primary.grants), primary.windowSize, primary.maxRequests, now1)
      ensures primary != secondary ==>
        && (s <==> Room(old(secondary.grants), secondary.windowSize, secondary.maxRequests, now2))
        && primary.grants == old(primary.grants) + (if p then [stamp1] else [])
        && secondary.grants == old(secondary.grants) + (if !p && s then [stamp2] else [])
    {
      allowed := AskOne(primary, secondary, now1, stamp1, primaryStamps, secondaryStamps);
      p, s := allowed, Room(secondary.grants, secondary.windowSize, secondary.maxRequests, now2);
      if allowed {
        primaryStamps := primaryStamps + [stamp1];
      } else {
        allowed := AskOne(secondary, primary, now2, stamp2, secondaryStamps, primaryStamps);
        if allowed {
          secondaryStamps := secondaryStamps + [stamp2];
        }
      }
    }

    /** Every other mode: the primary alone. */
    method AllowPrimary(now1: int, stamp1: int) returns (allowed: bool)
      requires Valid() && primary.clock <= now1 <= stamp1 && secondary.clock <= now1
      modifies this, primary
      ensures Valid() && secondaryStamps == old(secondaryStamps)
      ensures primaryStamps == (if allowed then old(primaryStamps) + [stamp1] else old(primaryStamps))
      ensures allowed <==> Room(old(primary.grants), primary.windowSize, primary.maxRequests, now1)
      ensures primary.grants == old(primary.grants) + (if allowed then [stamp1] else [])
    {
      allowed := AskOne(primary, secondary, now1, stamp1, primaryStamps, secondaryStamps);
      if allowed {
        primaryStamps := primaryStamps + [stamp1];
      }
    }

    /** The primary is asked first, in every mode, and charged whenever it has room; the secondary is
        charged when it decides the call and has room. So a refused call charges a limiter exactly
        when it is an AllRequired call that only the secondary refuses. */
    method Allow(now1: int, stamp1: int, now2: int, stamp2: int) returns (allowed: bool)
      requires Valid() && primary.clock <= now1 <= stamp1 <= now2 <= stamp2 && secondary.clock <= now1
      modifies this, primary, secondary
      ensures Valid()
      ensures mode == ALL_REQUIRED ==>
        && primaryStamps == (if allowed then old(primaryStamps) + [stamp1] else old(primaryStamps))
        && secondaryStamps == (if allowed then old(secondaryStamps) + [stamp2] else old(secondaryStamps))
      ensures mode == ANY_ALLOWED ==>
        || (!allowed && primaryStamps == old(primaryStamps) && secondaryStamps == old(secondaryStamps))
        || (allowed && primaryStamps == old(primaryStamps) + [stamp1] && secondaryStamps == old(secondaryStamps))
        || (allowed && primaryStamps == old(primaryStamps) && secondaryStamps == old(secondaryStamps) + [stamp2])
      ensures mode != ALL_REQUIRED && mode != ANY_ALLOWED ==>
        && primaryStamps == (if allowed then old(primaryStamps) + [stamp1] else old(primaryStamps))
        && secondaryStamps == old(secondaryStamps)
      ensures primary != secondary ==>
        var p := Room(old(primary.grants), primary.windowSize, primary.maxRequests, now1);
        var s := Room(old(secondary.grants), secondary.windowSize, secondary.maxRequests, now2);
        && (allowed <==> Admits(mode, p, s))
        && primary.grants == old(primary.grants) + (if p then [stamp1] else [])
        && secondary.grants == old(secondary.grants)
             + (if s && ((mode == ALL_REQUIRED && p) || (mode == ANY_ALLOWED && !p)) then [stamp2] else [])
        && (!allowed ==>
              (primary.grants != old(primary.grants) || secondary.grants != old(secondary.grants)
               <==> mode == ALL_REQUIRED && p && !s))
    {
      ghost var p, s;
      if mode == ALL_REQUIRED {
        allowed, p, s := AllowAll(now1, stamp1, now2, stamp2);
      } else if mode == ANY_ALLOWED {
        allowed, p, s := AllowAny(now1, stamp1, now2, stamp2);
      } else {
        allowed := AllowPrimary(now1, stamp1);
      }
    }

    /** The longer delay of the two for AllRequired, the shorter one for AnyAllowed: once it is over,
        with no other grant in between, the combination admits a request; and until it is over,
        counted from the primary's reading of the clock, it admits none. */
    method Reserve(now1: int, read1: int, now2: int, read2: int) returns (delay: int, ok: bool)
      requires Valid() && primary.clock <= now1 <= read1 <= now2 <= read2 && secondary.clock <= now1
      modifies primary, secondary
      ensures Valid() && primary.grants == old(primary.grants) && secondary.grants == old(secondary.grants)
      ensures ok && delay >= 0
      ensures primary.maxRequests > 0 && secondary.maxRequests > 0 ==>
                forall t :: read2 <= t && (read2 + delay <= t || t < read1 + delay) ==>
                  var p := Room(primary.grants, primary.windowSize, primary.maxRequests, t);
                  var s := Room(secondary.grants, secondary.windowSize, secondary.maxRequests, t);
                  Admits(mode, p, s) <==> read2 + delay <= t
    {
      var d1, ok1 := ReserveOne(primary, now1, read1);
      if mode != ALL_REQUIRED && mode != ANY_ALLOWED {
        return d1, ok1;
      }
      var d2, ok2 := ReserveOne(secondary, now2, read2);
      if mode == ALL_REQUIRED {
        delay := if d1 > d2 then d1 else d2;
      } else {
        delay := if d1 < d2 then d1 else d2;
      }
      ok := ok1 && ok2;
      forall t | read2 <= t && (read2 + delay <= t || t < read1 + delay)
        && primary.maxRequests > 0 && secondary.maxRequests > 0
        ensures var p := Room(primary.grants, primary.windowSize, primary.maxRequests, t);
                var s := Room(secondary.grants, secondary.windowSize, secondary.maxRequests, t);
                Admits(mode, p, s) <==> read2 + delay <= t
      {
        JointOpens(mode, Room(primary.grants, primary.windowSize, primary.maxRequests, t),
                   Room(secondary.grants, secondary.windowSize, secondary.maxRequests, t), read1, d1, read2, d2, t);
      }
    }

    /** AllRequired obeys both bounds, each by the stamp of its own limiter; PrimaryOnly obeys the
        primary's. */
    lemma {:induction false} EachBound(t: int)
      requires Valid()
      ensures InWindow(primaryStamps, primary.windowSize, t) <= primary.maxRequests
      ensures InWindow(secondaryStamps, secondary.windowSize, t) <= secondary.maxRequests
    {
      PartOfBetween(primaryStamps, |primaryStamps|, primary.grants, |primary.grants|, t - primary.windowSize, t);
      PartOfBetween(
        secondaryStamps, |secondaryStamps|, secondary.grants, |secondary.grants|, t - secondary.windowSize, t);
      TracksBounds(primary.grants, primary.requests, primary.windowSize, primary.maxRequests, primary.clock, t);
      TracksBounds(
        secondary.grants, secondary.requests, secondary.windowSize, secondary.maxRequests, secondary.clock, t);
    }

    /** AnyAllowed lets in at most the sum of both maxima in any window of the shorter length. */
    lemma {:induction false} SumBound(t: int)
      requires Valid()
      ensures var w := if primary.windowSize <= secondary.windowSize then primary.windowSize else secondary.windowSize;
              InWindow(primaryStamps, w, t) + InWindow(secondaryStamps, w, t)
              <= primary.maxRequests + secondary.maxRequests
    {
      var w := if primary.windowSize <= secondary.windowSize then primary.windowSize else secondary.windowSize;
      EachBound(t);
      CountGrows(primaryStamps, |primaryStamps|, t - primary.windowSize, t - w, t);
      CountGrows(secondaryStamps, |secondaryStamps|, t - secondary.windowSize, t - w, t);
    }
  }
}
