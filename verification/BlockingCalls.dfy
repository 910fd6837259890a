/**
 The calls of the BlockingQueue as an observer of the log sees them: which call a step belongs to, what
 that call did to the queue, and what it does when it finds room, an item, or neither.
 */
module BlockingCalls {
  import opened Basics
  import opened Rings
  import opened QueueSpec
  import opened BlockingProtocol

  // ----- What a call has done when it returns -----

  /** One call of Enqueue: its item, the effects of its steps, whether its wait ended by a timeout or a
      cancellation, and whether it has returned. */
  datatype Put = Put(item: int, events: seq<Event>, gaveUp: bool, returned: bool)

  /** The calls of producer `i` after a step from `s` to `s'`: an idle producer begins a call. */
  function PutsAfter(puts: seq<Put>, s: State, step: Step, s': State, i: nat): seq<Put>
    requires |s'.prods| == |s.prods|
  {
    if !step.Produce? || step.i != i || i >= |s.prods| then puts
    else if s.prods[i].PIdle? then puts + [Put(step.item, [], false, false)]
    else if puts == [] then puts
    else
      var n := |puts| - 1;
      puts[n := Put(puts[n].item, puts[n].events + Gained(s.log, s'.log),
                    puts[n].gaveUp || (s.prods[i].PWait? && step.wake != Retry), s'.prods[i].PIdle?)]
  }

  /** The calls of producer `i` in a run, after those it had made before. */
  ghost function Puts(puts: seq<Put>, s: State, steps: seq<Step>, i: nat): seq<Put>
    requires Valid(s)
    decreases |steps|
  {
    if steps == [] then puts
    else
      StepRefines(s, steps[0]);
      SameThreads(s, steps[0]);
      var s' := Apply(s, steps[0]);
      Puts(PutsAfter(puts, s, steps[0], s', i), s', steps[1..], i)
  }

  lemma {:induction false} SameThreads(s: State, step: Step)
    requires Valid(s)
    ensures var s' := Apply(s, step); |s'.prods| == |s.prods| && |s'.cons| == |s.cons|
  {}

  predicate Stored(item: int, events: seq<Event>) { events == [Event(true, Op.TryEnqueue(Holding(item)), Done)] }

  predicate Refused(item: int, events: seq<Event>) {
    events == [Event(true, Op.TryEnqueue(Holding(item)), Fail(QueueClosed))]
  }

  /** A call that came back has had exactly one effect, with its own item, or has given up with none. */
  predicate PutSettled(c: Put) {
    c.returned && if c.gaveUp then c.events == [] else Stored(c.item, c.events) || Refused(c.item, c.events)
  }

  /** A call under way has had no effect, unless it was refused and has the rejection still to count. */
  predicate PutUnderWay(c: Put, p: Producer) {
    && !c.returned && !c.gaveUp
    && (if p.PReject? then Refused(c.item, c.events) else (p.PEnter? || p.PWait?) && p.item == c.item && c.events == [])
  }

  predicate PutsFit(puts: seq<Put>, p: Producer) {
    && (forall k :: 0 <= k < |puts| - 1 ==> PutSettled(puts[k]))
    && (if puts == [] then p.PIdle?
        else var c := puts[|puts| - 1]; if p.PIdle? then PutSettled(c) else PutUnderWay(c, p))
  }

  /** What a step of producer `i` adds to the log. */
  lemma {:induction false} PutGains(s: State, i: nat, item: int, wake: Wake)
    requires Valid(s) && i < |s.prods|
    ensures var p, s' := s.prods[i], Apply(s, Produce(i, item, wake));
            var gain, p' := Gained(s.log, s'.log), s'.prods[i];
            && (p.PIdle? || p.PReject? ==> gain == [])
            && (p.PEnter? || p.PWait? ==>
                  || (Stored(p.item, gain) && p'.PIdle? && (p.PWait? ==> wake == Retry))
                  || (Refused(p.item, gain) && p'.PReject? && (p.PWait? ==> wake == Retry))
                  || (gain == [] && p' == PWait(p.item) && (p.PWait? ==> wake == Retry))
                  || (gain == [] && p.PWait? && wake != Retry && p'.PIdle?))
            && (p.PReject? ==> p'.PIdle?)
  {}

  /** The call under way goes on. */
  lemma {:induction false} PutGoesOn(s: State, i: nat, item: int, wake: Wake, c: Put)
    requires Valid(s) && i < |s.prods| && !s.prods[i].PIdle? && PutUnderWay(c, s.prods[i])
    ensures var s' := Apply(s, Produce(i, item, wake));
            var c' := Put(c.item, c.events + Gained(s.log, s'.log),
                          c.gaveUp || (s.prods[i].PWait? && wake != Retry), s'.prods[i].PIdle?);
            if s'.prods[i].PIdle? then PutSettled(c') else PutUnderWay(c', s'.prods[i])
  {
    PutGains(s, i, item, wake);
    var gain := Gained(s.log, Apply(s, Produce(i, item, wake)).log);
    assert [] + gain == gain && c.events + [] == c.events;
  }

  lemma {:induction false} PutsStep(puts: seq<Put>, s: State, step: Step, i: nat)
    requires Valid(s) && i < |s.prods| && PutsFit(puts, s.prods[i])
    ensures var s' := Apply(s, step);
            |s'.prods| == |s.prods| && PutsFit(PutsAfter(puts, s, step, s', i), s'.prods[i])
  {
    SameThreads(s, step);
    if step.Produce? && step.i == i {
      if !s.prods[i].PIdle? {
        PutGoesOn(s, i, step.item, step.wake, puts[|puts| - 1]);
      }
    }
  }

  lemma {:induction false} PutsRun(puts: seq<Put>, s: State, steps: seq<Step>, i: nat)
    requires Valid(s) && i < |s.prods| && PutsFit(puts, s.prods[i])
    ensures i < |Run(s, steps).prods| && PutsFit(Puts(puts, s, steps, i), Run(s, steps).prods[i])
    decreases |steps|
  {
    if steps != [] {
      StepRefines(s, steps[0]);
      PutsStep(puts, s, steps[0], i);
      var s' := Apply(s, steps[0]);
      PutsRun(PutsAfter(puts, s, steps[0], s', i), s', steps[1..], i);
    }
  }

  /** Any number of threads, any schedule: an Enqueue that has returned has either given up its wait, and
      then done nothing, or had exactly one effect, with its own item: it stored it, or was refused by a
      closed queue. One that has not returned has done nothing yet, but for a refusal still to be counted. */
  lemma {:induction false} EveryEnqueue(capacity: nat, producers: nat, consumers: nat, steps: seq<Step>, i: nat)
    requires i < producers && Valid(Init(capacity, producers, consumers))
    ensures var puts := Puts([], Init(capacity, producers, consumers), steps, i);
            forall k :: 0 <= k < |puts| ==>
              var c := puts[k];
              && (c.gaveUp ==> c.returned && c.events == [])
              && (c.returned && !c.gaveUp ==>
                    || c.events == [Event(true, Op.TryEnqueue(Holding(c.item)), Done)]
                    || c.events == [Event(true, Op.TryEnqueue(Holding(c.item)), Fail(QueueClosed))])
              && (!c.returned ==>
                    && k == |puts| - 1
                    && (c.events == [] || c.events == [Event(true, Op.TryEnqueue(Holding(c.item)), Fail(QueueClosed))]))
  {
    PutsRun([], Init(capacity, producers, consumers), steps, i);
  }

  /** One call of Dequeue. */
  datatype Get = Get(events: seq<Event>, gaveUp: bool, returned: bool)

  function GetsAfter(gets: seq<Get>, s: State, step: Step, s': State, i: nat): seq<Get>
    requires |s'.cons| == |s.cons|
  {
    if !step.Consume? || step.i != i || i >= |s.cons| then gets
    else if s.cons[i].CIdle? then gets + [Get([], false, false)]
    else if gets == [] then gets
    else
      var n := |gets| - 1;
      gets[n := Get(gets[n].events + Gained(s.log, s'.log),
                    gets[n].gaveUp || (s.cons[i].CWait? && step.wake != Retry), s'.cons[i].CIdle?)]
  }

  ghost function Gets(gets: seq<Get>, s: State, steps: seq<Step>, i: nat): seq<Get>
    requires Valid(s)
    decreases |steps|
  {
    if steps == [] then gets
    else
      StepRefines(s, steps[0]);
      SameThreads(s, steps[0]);
      var s' := Apply(s, steps[0]);
      Gets(GetsAfter(gets, s, steps[0], s', i), s', steps[1..], i)
  }

  predicate Served(events: seq<Event>) {
    && |events| == 1 && events[0].waiting && events[0].op == Op.TryDequeue
    && (events[0].answer.Item? || events[0].answer == Fail(QueueClosed))
  }

  predicate GetSettled(c: Get) { c.returned && if c.gaveUp then c.events == [] else Served(c.events) }

  predicate GetsFit(gets: seq<Get>, c: Consumer) {
    && (forall k :: 0 <= k < |gets| - 1 ==> GetSettled(gets[k]))
    && (if gets == [] then c.CIdle?
        else
          var g := gets[|gets| - 1];
          if c.CIdle? then GetSettled(g) else !g.returned && !g.gaveUp && g.events == [])
  }

  /** What a step of consumer `i` adds to the log. */
  lemma {:induction false} GetGains(s: State, i: nat, wake: Wake)
    requires Valid(s) && i < |s.cons|
    ensures var c, s' := s.cons[i], Apply(s, Consume(i, wake));
            var gain, c' := Gained(s.log, s'.log), s'.cons[i];
            if c.CIdle? then gain == [] && c'.CEnter?
            else if c.CWait? && wake != Retry then gain == [] && c'.CIdle?
            else (Served(gain) && c'.CIdle?) || (gain == [] && c'.CWait?)
  {}

  lemma {:induction false} GetsStep(gets: seq<Get>, s: State, step: Step, i: nat)
    requires Valid(s) && i < |s.cons| && GetsFit(gets, s.cons[i])
    ensures var s' := Apply(s, step);
            |s'.cons| == |s.cons| && GetsFit(GetsAfter(gets, s, step, s', i), s'.cons[i])
  {
    SameThreads(s, step);
    if step.Consume? && step.i == i {
      GetGains(s, i, step.wake);
      var gain := Gained(s.log, Apply(s, step).log);
      assert [] + gain == gain;
    }
  }

  lemma {:induction false} GetsRun(gets: seq<Get>, s: State, steps: seq<Step>, i: nat)
    requires Valid(s) && i < |s.cons| && GetsFit(gets, s.cons[i])
    ensures i < |Run(s, steps).cons| && GetsFit(Gets(gets, s, steps, i), Run(s, steps).cons[i])
    decreases |steps|
  {
    if steps != [] {
      StepRefines(s, steps[0]);
      GetsStep(gets, s, steps[0], i);
      var s' := Apply(s, steps[0]);
      GetsRun(GetsAfter(gets, s, steps[0], s', i), s', steps[1..], i);
    }
  }

  /** A Dequeue that has returned has either given up its wait, and then done nothing, or had exactly one
      effect: it was handed an item, or told that the queue is closed. */
  lemma {:induction false} EveryDequeue(capacity: nat, producers: nat, consumers: nat, steps: seq<Step>, i: nat)
    requires i < consumers && Valid(Init(capacity, producers, consumers))
    ensures var gets := Gets([], Init(capacity, producers, consumers), steps, i);
            forall k :: 0 <= k < |gets| ==>
              var c := gets[k];
              && (c.gaveUp ==> c.returned && c.events == [])
              && (c.returned && !c.gaveUp ==>
                    && |c.events| == 1 && c.events[0].waiting && c.events[0].op == Op.TryDequeue
                    && (c.events[0].answer.Item? || c.events[0].answer == Fail(QueueClosed)))
              && (!c.returned ==> k == |gets| - 1 && c.events == [])
  {
    GetsRun([], Init(capacity, producers, consumers), steps, i);
  }

  // ----- What a call does next -----

  /** The queue has room for one more item. */
  predicate HasRoom(s: State) { s.capacity == 0 || s.ring.size < s.capacity }

  /** `s'` has one item more at the end, in an array twice as long if there was no slot left, and nothing else
      has changed in the queue. */
  ghost predicate OneMore(s: State, s': State, item: int)
    requires Valid(s) && Valid(s')
  {
    && s'.ring.Contents() == s.ring.Contents() + [Holding(item)] && s'.closed == s.closed
    && |s'.ring.data| == (if s.ring.size < |s.ring.data| then |s.ring.data| else 2 * |s.ring.data|)
    && s'.enqueued == s.enqueued + 1 && s'.dequeued == s.dequeued && s'.rejected == s.rejected
  }

  /** `s'` has lost its oldest item, and nothing else has changed in the queue. */
  ghost predicate OneLess(s: State, s': State)
    requires Valid(s) && Valid(s')
  {
    && s.ring.size > 0 && s'.ring.Contents() == s.ring.Contents()[1..] && s'.closed == s.closed
    && s'.enqueued == s.enqueued && s'.dequeued == s.dequeued + 1 && s'.rejected == s.rejected
  }

  lemma {:induction false} RunOne(s: State, x: Step)
    requires Valid(s)
    ensures Valid(Apply(s, x)) && Run(s, [x]) == Apply(s, x)
  {
    StepRefines(s, x);
    assert [x][1..] == [];
  }

  lemma {:induction false} RunTwo(s: State, x: Step, y: Step)
    requires Valid(s)
    ensures Run(s, [x, y]) == Run(Run(s, [x]), [y])
  {
    StepRefines(s, x);
    assert [x, y][1..] == [y] && [x][1..] == [];
  }

  /** A producer before the lock, or in its wait loop, gets hold of the lock. */
  lemma {:induction false} LockedPut(s: State, i: nat, x: int, item: int)
    requires Valid(s) && i < |s.prods| && (s.prods[i] == PEnter(x) || (s.prods[i] == PWait(x) && s.capacity > 0))
    ensures var s' := Run(s, [Produce(i, item, Retry)]);
            if s.closed then
              && s' == s.(prods := s.prods[i := PReject],
                          log := s.log + [Event(true, Op.TryEnqueue(Holding(x)), Fail(QueueClosed))])
            else if HasRoom(s) then
              && OneMore(s, s', x) && s'.prods == s.prods[i := PIdle] && s'.cons == s.cons
            else
              s' == s.(prods := s.prods[i := PWait(x)])
  {
    RunOne(s, Produce(i, item, Retry));
    ExpandKeeps(s.ring, Cleared);
    PutAppends(if Full(s) then s.ring.Expand(Cleared) else s.ring, Holding(x), Cleared);
    assert s.prods[i] == PWait(x) ==> s.prods[i := PWait(x)] == s.prods;
  }

  /** The first two steps of Enqueue, from an open queue with room, store the item behind all others; from a
      full one they leave everything as it was, with the producer waiting; from a closed one they leave the
      queue as it was, and a third step counts the rejection. */
  lemma {:induction false} EnqueueDecides(s: State, i: nat, x: int, wake: Wake)
    requires Valid(s) && i < |s.prods| && s.prods[i].PIdle?
    ensures var s' := Run(s, [Produce(i, x, wake), Produce(i, x, Retry)]);
            if s.closed then
              && s'.ring == s.ring && s'.prods == s.prods[i := PReject]
              && (var s'' := Run(s', [Produce(i, x, wake)]);
                  s''.ring == s.ring && s''.prods == s.prods && s''.rejected == s.rejected + 1)
            else if HasRoom(s) then
              OneMore(s, s', x) && s'.prods == s.prods
            else
              s' == s.(prods := s.prods[i := PWait(x)])
  {
    RunTwo(s, Produce(i, x, wake), Produce(i, x, Retry));
    RunOne(s, Produce(i, x, wake));
    var s1 := Run(s, [Produce(i, x, wake)]);
    LockedPut(s1, i, x, x);
    assert s1.prods[i := PIdle] == s.prods && s1.prods[i := PWait(x)] == s.prods[i := PWait(x)];
    if s.closed {
      var s2 := Run(s1, [Produce(i, x, Retry)]);
      RunOne(s2, Produce(i, x, wake));
      assert s2.prods[i := PIdle] == s.prods;
    }
  }

  /** A wake-up of a waiting producer of a bounded queue: a retry stores its item as soon as the queue has
      room, finds out that it has been closed, or changes nothing; a timeout or a cancellation ends the call
      and leaves the queue alone. */
  lemma {:induction false} WaiterDecides(s: State, i: nat, x: int, wake: Wake, item: int)
    requires Valid(s) && i < |s.prods| && s.prods[i] == PWait(x) && s.capacity > 0
    ensures var s' := Run(s, [Produce(i, item, wake)]);
            if wake != Retry then s' == s.(prods := s.prods[i := PIdle])
            else if s.closed then s'.ring == s.ring && s'.prods == s.prods[i := PReject]
            else if HasRoom(s) then OneMore(s, s', x) && s'.prods == s.prods[i := PIdle]
            else s' == s
  {
    if wake == Retry {
      LockedPut(s, i, x, item);
      assert s.prods[i := PWait(x)] == s.prods;
    } else {
      RunOne(s, Produce(i, item, wake));
    }
  }

  /** A consumer before the lock, or in its wait loop, gets hold of the lock. */
  lemma {:induction false} LockedGet(s: State, i: nat)
    requires Valid(s) && i < |s.cons| && !s.cons[i].CIdle?
    ensures var s' := Run(s, [Consume(i, Retry)]);
            if s.ring.size > 0 then
              && OneLess(s, s') && s'.cons == s.cons[i := CIdle] && s'.prods == s.prods
              && s'.log == s.log + [Event(true, Op.TryDequeue, Item(s.ring.Contents()[0]))]
            else if s.closed then
              && s' == s.(cons := s.cons[i := CIdle], log := s.log + [Event(true, Op.TryDequeue, Fail(QueueClosed))])
            else
              s' == s.(cons := s.cons[i := CWait])
  {
    RunOne(s, Consume(i, Retry));
    if s.ring.size > 0 {
      TakeRemoves(s.ring, Cleared);
    }
    assert s.cons[i] == CWait ==> s.cons[i := CWait] == s.cons;
  }

  /** The two steps of Dequeue, from a queue that holds an item, hand out the oldest; from an empty one they
      leave the queue as it was, with the consumer waiting or, when the queue is closed, back and told so. */
  lemma {:induction false} DequeueDecides(s: State, i: nat, wake: Wake)
    requires Valid(s) && i < |s.cons| && s.cons[i].CIdle?
    ensures var s' := Run(s, [Consume(i, wake), Consume(i, Retry)]);
            if s.ring.size > 0 then
              && OneLess(s, s') && s'.cons == s.cons
              && s'.log == s.log + [Event(true, Op.TryDequeue, Item(s.ring.Contents()[0]))]
            else if s.closed then
              s' == s.(log := s.log + [Event(true, Op.TryDequeue, Fail(QueueClosed))])
            else
              s' == s.(cons := s.cons[i := CWait])
  {
    RunTwo(s, Consume(i, wake), Consume(i, Retry));
    RunOne(s, Consume(i, wake));
    var s1 := Run(s, [Consume(i, wake)]);
    LockedGet(s1, i);
    assert s1.cons[i := CIdle] == s.cons && s1.cons[i := CWait] == s.cons[i := CWait];
  }

  /** A wake-up of a waiting consumer. */
  lemma {:induction false} WaitingGetDecides(s: State, i: nat, wake: Wake)
    requires Valid(s) && i < |s.cons| && s.cons[i].CWait?
    ensures var s' := Run(s, [Consume(i, wake)]);
            if wake != Retry then s' == s.(cons := s.cons[i := CIdle])
            else if s.ring.size > 0 then
              && OneLess(s, s') && s'.cons == s.cons[i := CIdle]
              && s'.log == s.log + [Event(true, Op.TryDequeue, Item(s.ring.Contents()[0]))]
            else if s.closed then
              && s' == s.(cons := s.cons[i := CIdle], log := s.log + [Event(true, Op.TryDequeue, Fail(QueueClosed))])
            else s' == s
  {
    if wake == Retry {
      LockedGet(s, i);
      assert s.cons[i := CWait] == s.cons;
    } else {
      RunOne(s, Consume(i, wake));
    }
  }

  /** TryEnqueue, TryDequeue, Clear and Close are one effect each, whoever is waiting. */
  lemma {:induction false} OneEffectEach(s: State, x: int)
    requires Valid(s)
    ensures var s' := Run(s, [TryPut(x)]);
            && (if s.closed || !HasRoom(s) then s'.ring == s.ring && s'.rejected == s.rejected + 1
                else OneMore(s, s', x))
            && s'.log == s.log + [Event(false, Op.TryEnqueue(Holding(x)),
                                        if s.closed then Fail(QueueClosed)
                                        else if HasRoom(s) then Done else Fail(QueueFull))]
    ensures var s' := Run(s, [TryTake]);
            && (if s.ring.size == 0 then s'.ring == s.ring else OneLess(s, s'))
            && s'.log == s.log + [Event(false, Op.TryDequeue,
                                        if s.ring.size > 0 then Item(s.ring.Contents()[0])
                                        else Fail(if s.closed then QueueClosed else QueueEmpty))]
    ensures var s' := Run(s, [ClearAll]);
            && s'.ring.size == 0 && s'.cleared == s.cleared + s.ring.size && s'.closed == s.closed
            && s'.log == s.log + [Event(false, Op.Clear, Done)]
    ensures Run(s, [CloseQueue]) == s.(closed := true, log := s.log + [Event(false, Op.Close, Done)])
  {
    RunOne(s, TryPut(x));
    RunOne(s, TryTake);
    RunOne(s, ClearAll);
    RunOne(s, CloseQueue);
    ExpandKeeps(s.ring, Cleared);
    PutAppends(if Full(s) then s.ring.Expand(Cleared) else s.ring, Holding(x), Cleared);
    if s.ring.size > 0 {
      TakeRemoves(s.ring, Cleared);
    }
  }
}
