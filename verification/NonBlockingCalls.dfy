/**
 The calls of the bounded NonBlockingQueue as an observer of shared memory sees them: which call a step
 belongs to, what that call added to the histories, and what it loaded before it came back.
 */
module NonBlockingCalls {
  import opened Basics
  import opened Counting
  import opened NonBlockingProtocol

  // ----- Enqueue -----

  /** One call of Enqueue: its item, what its steps added to the two histories of items, whether it
      loaded that the queue is closed or full, and whether it has returned. `seen`: the tail it loaded, once
      it has also loaded that the queue is not full, and until a swap of its own fails; `sound`: each of its
      successful swaps found that tail. */
  datatype Put = Put(item: int, claimed: seq<int>, accepted: seq<int>, refused: bool, returned: bool,
                     loaded: nat, seen: Maybe<nat>, sound: bool)

  /** The load that a producer is about to perform finds the queue closed or full. */
  predicate LoadsRefusal(s: State, p: Producer) {
    || (p.PClosed? && s.closed)
    || ((p.PFull? || p.PSize?) && s.size >= s.cap)
  }

  /** The call under way after an operation of its producer `i`. */
  function PutGoesOn(c: Put, s: State, s': State, i: nat): Put
    requires i < |s.prods| == |s'.prods|
  {
    var p, claims := s.prods[i], Gained(s.claimed, s'.claimed);
    Put(c.item, c.claimed + claims, c.accepted + Gained(s.accepted, s'.accepted),
        c.refused || LoadsRefusal(s, p), s'.prods[i].PIdle?,
        if p.PTail? then s.tail else c.loaded,
        if p.PSize? && s.size < s.cap then Just(c.loaded) else if p.PSwap? && claims == [] then Nothing else c.seen,
        c.sound && (claims != [] ==> c.seen == Just(s.tail)))
  }

  /** The calls of producer `i` after a step from `s` to `s'`: an idle producer begins a call. */
  function PutsAfter(puts: seq<Put>, s: State, step: Step, s': State, i: nat): seq<Put>
    requires |s'.prods| == |s.prods|
  {
    if !step.Produce? || step.i != i || i >= |s.prods| then puts
    else if s.prods[i].PIdle? then puts + [Put(step.item, [], [], false, false, 0, Nothing, true)]
    else if puts == [] then puts
    else
      puts[|puts| - 1 := PutGoesOn(puts[|puts| - 1], s, s', i)]
  }

  /** The calls of producer `i` in a run, after those it had made before. */
  function Puts(puts: seq<Put>, s: State, steps: seq<Step>, i: nat): seq<Put>
    requires InRange(s)
    decreases |steps|
  {
    if steps == [] then puts
    else
      var s' := Apply(s, steps[0]);
      Puts(PutsAfter(puts, s, steps[0], s', i), s', steps[1..], i)
  }

  /** A call that came back has let in exactly its item, once, unless it loaded a refusal; then nothing. */
  predicate PutSettled(c: Put) {
    c.returned && c.claimed == c.accepted == (if c.refused then [] else [c.item]) && c.sound
  }

  /** A call under way has been refused nothing, and has claimed a slot if and only if it is past its swap. */
  predicate PutUnderWay(c: Put, p: Producer) {
    && !c.returned && !c.refused && !p.PIdle? && p.item == c.item
    && c.claimed == (if Claiming(p) == 1 then [c.item] else []) && c.accepted == [] && c.sound
    && (p.PSize? ==> c.loaded == p.t) && (p.PSwap? ==> c.seen == Just(p.t))
  }

  /** All the calls but perhaps the last have returned. */
  predicate PutsFit(puts: seq<Put>, p: Producer) {
    && (forall k :: 0 <= k < |puts| - 1 ==> PutSettled(puts[k]))
    && (if puts == [] then p.PIdle?
        else var c := puts[|puts| - 1]; if p.PIdle? then PutSettled(c) else PutUnderWay(c, p))
  }

  /** What a step of producer `i` adds to the histories: its item to the first at its swap, if that
      succeeds, and to the second at the end. */
  lemma {:induction false} PutGains(s: State, i: nat, item: int)
    requires InRange(s) && i < |s.prods|
    ensures var p, s' := s.prods[i], Apply(s, Produce(i, item));
            && Gained(s.claimed, s'.claimed) == (if p.PSwap? && s'.prods[i].PWrite? then [p.item] else [])
            && Gained(s.accepted, s'.accepted) == (if p.PAdd? then [p.item] else [])
  {}

  /** The call under way goes on. */
  lemma {:induction false} PutNext(s: State, i: nat, item: int, c: Put)
    requires InRange(s) && i < |s.prods| && PutUnderWay(c, s.prods[i])
    ensures var s' := Apply(s, Produce(i, item));
            var c' := PutGoesOn(c, s, s', i);
            if s'.prods[i].PIdle? then PutSettled(c') else PutUnderWay(c', s'.prods[i])
  {
    PutGains(s, i, item);
  }

  lemma {:induction false} PutsStep(puts: seq<Put>, s: State, step: Step, i: nat)
    requires InRange(s) && i < |s.prods| && PutsFit(puts, s.prods[i])
    ensures PutsFit(PutsAfter(puts, s, step, Apply(s, step), i), Apply(s, step).prods[i])
  {
    if step.Produce? && step.i == i {
      if !s.prods[i].PIdle? {
        PutNext(s, i, step.item, puts[|puts| - 1]);
      }
    }
  }

  lemma {:induction false} PutsRun(puts: seq<Put>, s: State, steps: seq<Step>, i: nat)
    requires InRange(s) && i < |s.prods| && PutsFit(puts, s.prods[i])
    ensures PutsFit(Puts(puts, s, steps, i), Run(s, steps).prods[i])
    decreases |steps|
  {
    if steps != [] {
      var s' := Apply(s, steps[0]);
      PutsStep(puts, s, steps[0], i);
      PutsRun(PutsAfter(puts, s, steps[0], s', i), s', steps[1..], i);
    }
  }

  /** Any number of threads, any schedule: an Enqueue that has returned has claimed a slot for its item and
      counted it exactly once, if and only if it never loaded that the queue was closed or full; otherwise
      it has done neither. One that has not returned has claimed at most its own item, and counted none. */
  lemma {:induction false} EveryEnqueue(cap: nat, producers: nat, consumers: nat, steps: seq<Step>, i: nat)
    requires cap > 0 && i < producers
    ensures var puts := Puts([], Init(cap, producers, consumers), steps, i);
            forall k :: 0 <= k < |puts| ==>
              var c := puts[k];
              && (c.returned && !c.refused ==> c.claimed == c.accepted == [c.item])
              && (c.refused ==> c.returned && c.claimed == c.accepted == [])
              && (!c.returned ==> c.accepted == [] && (c.claimed == [] || c.claimed == [c.item]))
              && (!c.returned ==> k == |puts| - 1)
              && c.sound
  {
    PutsRun([], Init(cap, producers, consumers), steps, i);
  }

  // ----- Dequeue -----

  /** One call of Dequeue: how often its steps moved `head`, what it handed out, whether it loaded that the
      queue is empty, and whether it has returned. `seen`: the head it loaded, once it has also loaded that
      the queue is not empty, and until a swap of its own fails; `read`: what it then read in that slot;
      `sound`: each of its successful swaps found that head. */
  datatype Get = Get(takes: int, handed: seq<Cell>, refused: bool, returned: bool,
                     loaded: nat, seen: Maybe<nat>, read: Maybe<Cell>, sound: bool)

  predicate LoadsEmpty(s: State, c: Consumer) { (c.CEmpty? || c.CSize?) && s.size == 0 }

  /** The call under way after an operation of its consumer `i`. */
  function GetGoesOn(g: Get, s: State, s': State, i: nat): Get
    requires i < |s.cons| == |s'.cons|
  {
    var c, fails := s.cons[i], s.cons[i].CSwap? && s'.taken == s.taken;
    Get(g.takes + s'.taken - s.taken, g.handed + Gained(s.returned, s'.returned),
        g.refused || LoadsEmpty(s, c), s'.cons[i].CIdle?,
        if c.CHead? then s.head else g.loaded,
        if c.CSize? && s.size != 0 then Just(g.loaded) else if fails then Nothing else g.seen,
        if c.CRead? && g.seen.Just? && g.seen.value < |s.data| then Just(s.data[g.seen.value])
        else if fails then Nothing else g.read,
        g.sound && (s'.taken != s.taken ==> g.seen == Just(s.head) && g.read.Just?))
  }

  /** The calls of consumer `i` after a step from `s` to `s'`. */
  function GetsAfter(gets: seq<Get>, s: State, step: Step, s': State, i: nat): seq<Get>
    requires InRange(s) && |s'.cons| == |s.cons|
  {
    if !step.Consume? || step.i != i || i >= |s.cons| then gets
    else if s.cons[i].CIdle? then gets + [Get(0, [], false, false, 0, Nothing, Nothing, true)]
    else if gets == [] then gets
    else
      gets[|gets| - 1 := GetGoesOn(gets[|gets| - 1], s, s', i)]
  }

  function Gets(gets: seq<Get>, s: State, steps: seq<Step>, i: nat): seq<Get>
    requires InRange(s)
    decreases |steps|
  {
    if steps == [] then gets
    else
      var s' := Apply(s, steps[0]);
      Gets(GetsAfter(gets, s, steps[0], s', i), s', steps[1..], i)
  }

  /** A call that came back has moved `head` once and handed out the value it read last, unless it loaded
      that the queue was empty; then nothing. */
  predicate GetSettled(c: Get) {
    && c.returned && c.sound
    && (if c.refused then c.takes == 0 && c.handed == []
        else c.takes == 1 && c.read.Just? && c.handed == [c.read.value])
  }

  predicate GetUnderWay(g: Get, c: Consumer) {
    && !g.returned && !g.refused && g.sound && !c.CIdle? && g.handed == [] && g.takes == Taking(c)
    && (c.CSize? ==> g.loaded == c.h) && (c.CRead? || c.CSwap? ==> g.seen == Just(c.h))
    && (c.CSwap? || c.CClear? || c.CSub? ==> g.read == Just(c.found))
  }

  predicate GetsFit(gets: seq<Get>, c: Consumer) {
    && (forall k :: 0 <= k < |gets| - 1 ==> GetSettled(gets[k]))
    && (if gets == [] then c.CIdle?
        else var g := gets[|gets| - 1]; if c.CIdle? then GetSettled(g) else GetUnderWay(g, c))
  }

  /** The call under way goes on. */
  lemma {:induction false} GetNext(s: State, i: nat, g: Get)
    requires InRange(s) && i < |s.cons| && GetUnderWay(g, s.cons[i])
    ensures var s' := Apply(s, Consume(i));
            var g' := GetGoesOn(g, s, s', i);
            if s'.cons[i].CIdle? then GetSettled(g') else GetUnderWay(g', s'.cons[i])
  {
    var c, s' := s.cons[i], Apply(s, Consume(i));
    assert Gained(s.returned, s'.returned) == if c.CSub? then [c.found] else [];
    assert ConsumerInRange(c, s.cap);
  }

  lemma {:induction false} GetsStep(gets: seq<Get>, s: State, step: Step, i: nat)
    requires InRange(s) && i < |s.cons| && GetsFit(gets, s.cons[i])
    ensures GetsFit(GetsAfter(gets, s, step, Apply(s, step), i), Apply(s, step).cons[i])
  {
    if step.Consume? && step.i == i {
      if !s.cons[i].CIdle? {
        GetNext(s, i, gets[|gets| - 1]);
      }
    }
  }

  lemma {:induction false} GetsRun(gets: seq<Get>, s: State, steps: seq<Step>, i: nat)
    requires InRange(s) && i < |s.cons| && GetsFit(gets, s.cons[i])
    ensures GetsFit(Gets(gets, s, steps, i), Run(s, steps).cons[i])
    decreases |steps|
  {
    if steps != [] {
      var s' := Apply(s, steps[0]);
      GetsStep(gets, s, steps[0], i);
      GetsRun(GetsAfter(gets, s, steps[0], s', i), s', steps[1..], i);
    }
  }

  /** Any number of threads, any schedule: a Dequeue that has returned has moved `head` exactly once and
      handed out the value its last read found, if and only if it never loaded that the queue was empty;
      otherwise it has done neither. Every move of `head` finds the head that was loaded, then found with the
      queue not empty, and read, since the last swap of the call that failed. */
  lemma {:induction false} EveryDequeue(cap: nat, producers: nat, consumers: nat, steps: seq<Step>, i: nat)
    requires cap > 0 && i < consumers
    ensures var gets := Gets([], Init(cap, producers, consumers), steps, i);
            forall k :: 0 <= k < |gets| ==>
              var c := gets[k];
              && (c.returned && !c.refused ==> c.takes == 1 && c.read.Just? && c.handed == [c.read.value])
              && (c.refused ==> c.returned && c.takes == 0 && c.handed == [])
              && (!c.returned ==> 0 <= c.takes <= 1 && c.handed == [] && k == |gets| - 1)
              && c.sound
  {
    GetsRun([], Init(cap, producers, consumers), steps, i);
  }

  // ----- Close -----

  /** 1 for a producer past its closed test that has not claimed a slot yet. */
  function PastTest(p: Producer): int { if p.PFull? || p.PTail? || p.PSize? || p.PSwap? then 1 else 0 }

  lemma {:induction false} LateStep(s: State, step: Step)
    requires InRange(s) && s.closed
    ensures var s' := Apply(s, step);
            && s'.closed
            && |s'.claimed| + Sum(s'.prods, PastTest) <= |s.claimed| + Sum(s.prods, PastTest)
  {
    var s' := Apply(s, step);
    if step.Produce? && step.i < |s.prods| {
      var p := s'.prods[step.i];
      assert s'.prods == s.prods[step.i := p];
      SumUpdate(s.prods, step.i, p, PastTest);
    }
  }

  lemma {:induction false} LateRun(s: State, steps: seq<Step>)
    requires InRange(s) && s.closed
    ensures var s' := Run(s, steps);
            && s'.closed
            && |s'.claimed| + Sum(s'.prods, PastTest) <= |s.claimed| + Sum(s.prods, PastTest)
    decreases |steps|
  {
    if steps != [] {
      LateStep(s, steps[0]);
      LateRun(Apply(s, steps[0]), steps[1..]);
    }
  }

  /** Once the queue is closed, every schedule lets in at most one item for each producer that was then past
      its closed test. */
  lemma {:induction false} CloseLetsInFew(s: State, steps: seq<Step>)
    requires InRange(s) && s.closed
    ensures |Run(s, steps).claimed| <= |s.claimed| + Sum(s.prods, PastTest)
    ensures Run(s, steps).closed
  {
    LateRun(s, steps);
    SumPositive(Run(s, steps).prods, PastTest);
  }

  /** A producer that has not reached its closed test never gets past it. */
  predicate KeptOut(p: Producer) { p.PIdle? || p.PClosed? }

  /** A call of a producer kept out: it claimed nothing, and has returned unless its test is still to come. */
  predicate TurnedAway(c: Put, p: Producer) {
    c.claimed == c.accepted == [] && c.returned == c.refused && (p.PIdle? ==> c.returned)
  }

  ghost predicate AllTurnedAway(puts: seq<Put>, p: Producer) {
    && KeptOut(p) && (puts == [] ==> p.PIdle?)
    && (forall k :: 0 <= k < |puts| ==> TurnedAway(puts[k], p))
    && (forall k :: 0 <= k < |puts| - 1 ==> puts[k].returned)
    && (p.PClosed? ==> !puts[|puts| - 1].returned)
  }

  lemma {:induction false} TurnedAwayStep(puts: seq<Put>, s: State, step: Step, i: nat)
    requires InRange(s) && s.closed && i < |s.prods| && AllTurnedAway(puts, s.prods[i])
    ensures var s' := Apply(s, step); s'.closed && AllTurnedAway(PutsAfter(puts, s, step, s', i), s'.prods[i])
  {}

  lemma {:induction false} TurnedAwayRun(puts: seq<Put>, s: State, steps: seq<Step>, i: nat)
    requires InRange(s) && s.closed && i < |s.prods| && AllTurnedAway(puts, s.prods[i])
    ensures AllTurnedAway(Puts(puts, s, steps, i), Run(s, steps).prods[i])
    decreases |steps|
  {
    if steps != [] {
      var s' := Apply(s, steps[0]);
      TurnedAwayStep(puts, s, steps[0], i);
      TurnedAwayRun(PutsAfter(puts, s, steps[0], s', i), s', steps[1..], i);
    }
  }

  /** An Enqueue begun after Close lets nothing in, under any schedule, and comes back refused; all but the
      last have, and that one has too unless it has only just begun. */
  lemma {:induction false} CloseKeepsOut(s: State, steps: seq<Step>, i: nat)
    requires InRange(s) && s.closed && i < |s.prods| && s.prods[i].PIdle?
    ensures var puts, p := Puts([], s, steps, i), Run(s, steps).prods[i];
            && (forall k :: 0 <= k < |puts| ==> puts[k].claimed == puts[k].accepted == [])
            && (forall k :: 0 <= k < |puts| - 1 ==> puts[k].returned && puts[k].refused)
            && (p.PIdle? || (p.PClosed? && puts != [] && !puts[|puts| - 1].returned))
  {
    TurnedAwayRun([], s, steps, i);
  }

  /** The queue is closed from the first Close on, and not before. */
  lemma {:induction false} ClosedByClose(s: State, steps: seq<Step>)
    requires InRange(s)
    ensures Run(s, steps).closed <==> s.closed || Close in steps
    decreases |steps|
  {
    if steps != [] {
      ClosedByClose(Apply(s, steps[0]), steps[1..]);
      assert Close in steps <==> steps[0] == Close || Close in steps[1..];
    }
  }
}
