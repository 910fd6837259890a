/** What one step of the pool can do to one client, whoever takes it. */
module PoolSteps {
  import opened PoolProtocol

  /** Client `x` becomes `y` in one step from `s`, its own or another thread's. */
  predicate Evolves(s: State, x: Client, y: Client) {
    || y == x.(held := y.held)
    || match x.pc
       case Ready =>
         || (y == x.(pc := GTake, waited := 0, retried := 0) && s.published)
         || (y == x.(pc := CCreate) && !s.published)
         || (y == x.(pc := y.pc, held := y.held) && y.pc.PDelete?)
       case GTake => y == x.(pc := y.pc) && if s.idle == [] then y.pc.CCheck? else y.pc.GGot?
       case GDrop(_) => y == x.(pc := GDropStats)
       case CWait => y == x.(pc := y.pc) && (y.pc.GGot? || y.pc == CRetry(0) || y.pc.LeaveEmpty?)
       case CPoll(k) => y == x.(pc := y.pc) && if s.idle == [] then y.pc == CRetry(k + 1) else y.pc.GGot?
       case CCreate => y == x.(pc := y.pc) && (y.pc.CStore? || y.pc.LeaveEmpty?)
       case PClose(_) => y == x.(pc := PCloseStats)
       case PSend(_) => y == x.(pc := y.pc) && (y.pc.PSendStats? || y.pc.PClose?)
       case LeaveWith(_) => Unwinds(x, y)
       case LeaveEmpty => Unwinds(x, y)
       case _ => y == Advanced(s, x, Good) || y == Advanced(s, x, Bad) || y == Advanced(s, x, Broken)
  }

  /** What the steps of other threads can do to a call in progress: serve it, when it waits. */
  predicate Undisturbed(x: Client, y: Client) {
    y == x.(held := y.held) || (x.pc.CWait? && y == x.(pc := y.pc) && y.pc.GGot?)
  }

  predicate Unwinds(x: Client, y: Client) {
    if x.pending > 0 then y == x.(pending := x.pending - 1) else y == x.(pc := Ready, held := y.held)
  }

  lemma {:induction false} EvolveThink(s: State, t: nat, v: Verdict)
    requires t < |s.clients| && (Moving(s.clients[t].pc) ==> s.clients[t].pc.CWait? && !v.Good?)
    requires !s.clients[t].pc.Ready?
    ensures Evolves(s, s.clients[t], Think(s, t, v).clients[t])
  {}

  lemma {:induction false} EvolveReceive(s: State, t: nat, v: Verdict, u: nat)
    requires t < |s.clients|
    requires var pc := s.clients[t].pc; pc.GTake? || pc.CPoll? || (pc.CWait? && v.Good?)
    ensures Evolves(s, s.clients[t], MoveClient(s, t, v, u).clients[t])
  {}

  lemma {:induction false} EvolveHand(s: State, t: nat, v: Verdict, u: nat)
    requires t < |s.clients|
    requires var pc := s.clients[t].pc; pc.GDrop? || pc.PClose? || pc.CCreate? || pc.PSend?
    ensures Evolves(s, s.clients[t], MoveClient(s, t, v, u).clients[t])
  {}

  lemma {:induction false} EvolveOwn(s: State, t: nat, v: Verdict, u: nat)
    requires t < |s.clients| && Moving(s.clients[t].pc) && !(s.clients[t].pc.CWait? && !v.Good?)
    ensures Evolves(s, s.clients[t], MoveClient(s, t, v, u).clients[t])
  {
    var pc := s.clients[t].pc;
    if pc.GTake? || pc.CPoll? || pc.CWait? {
      EvolveReceive(s, t, v, u);
    } else if !pc.LeaveWith? && !pc.LeaveEmpty? {
      EvolveHand(s, t, v, u);
    }
  }

  lemma {:induction false} ThinkOther(s: State, t: nat, v: Verdict, i: nat)
    requires t < |s.clients| && i < |s.clients| && i != t
    ensures |Think(s, t, v).clients| == |s.clients| && Think(s, t, v).clients[i] == s.clients[i]
  {}

  lemma {:induction false} MovingOther(s: State, t: nat, v: Verdict, u: nat, i: nat)
    requires t < |s.clients| && i < |s.clients| && i != t && Moving(s.clients[t].pc)
    requires !s.clients[t].pc.PSend? && !s.clients[t].pc.CWait?
    ensures |MoveClient(s, t, v, u).clients| == |s.clients|
    ensures MoveClient(s, t, v, u).clients[i] == s.clients[i]
  {}

  /** Only a send can change another client. */
  lemma {:induction false} OthersStay(s: State, t: nat, v: Verdict, u: nat, i: nat)
    requires t < |s.clients| && i < |s.clients| && i != t && !s.clients[t].pc.PSend?
    ensures |MoveClient(s, t, v, u).clients| == |s.clients|
    ensures MoveClient(s, t, v, u).clients[i] == s.clients[i]
  {
    var pc := s.clients[t].pc;
    if pc.CWait? {
      assert MoveClient(s, t, v, u) == if v.Good? then Receive(s, t, CWait) else Think(s, t, v);
    } else if Moving(pc) {
      MovingOther(s, t, v, u, i);
    } else {
      ThinkOther(s, t, v, i);
    }
  }

  lemma {:induction false} SendOther(s: State, t: nat, c: nat, u: nat, i: nat)
    requires t < |s.clients| && i < |s.clients| && i != t
    ensures |Send(s, t, c, u).clients| == |s.clients|
    ensures Send(s, t, c, u).clients[i] == s.clients[i]
            || (s.clients[i].pc == CWait && Send(s, t, c, u).clients[i] == s.clients[i].(pc := GGot(c)))
  {}

  lemma {:induction false} MoveElsewhere(s: State, t: nat, v: Verdict, u: nat, i: nat)
    requires t < |s.clients| && i < |s.clients| && i != t
    ensures |MoveClient(s, t, v, u).clients| == |s.clients|
    ensures Undisturbed(s.clients[i], MoveClient(s, t, v, u).clients[i])
  {
    if s.clients[t].pc.PSend? {
      SendOther(s, t, s.clients[t].pc.c, u, i);
    } else {
      OthersStay(s, t, v, u, i);
    }
  }

  lemma {:induction false} SweepElsewhere(s: State, v: Verdict, u: nat, i: nat)
    requires i < |s.clients|
    ensures |MoveCleaner(s, v, u).clients| == |s.clients|
    ensures Undisturbed(s.clients[i], MoveCleaner(s, v, u).clients[i])
  {
    if s.cleaner.ClGot? && v.Good? && Waiting(s, u) {
      assert MoveCleaner(s, v, u).clients == Serve(s, u, s.cleaner.c).clients;
    } else {
      assert MoveCleaner(s, v, u).clients == s.clients;
    }
  }

  lemma {:induction false} EvolveOutside(s: State, step: Step, i: nat)
    requires i < |s.clients| && !step.Move? && !step.Sweep?
    ensures |Apply(s, step).clients| == |s.clients|
    ensures var x, y := s.clients[i], Apply(s, step).clients[i];
            if x.pc.Ready? then Evolves(s, x, y) else Undisturbed(x, y)
  {}

  /** A call in progress is not disturbed by a step of another thread. */
  lemma {:induction false} Elsewhere(s: State, step: Step, i: nat)
    requires i < |s.clients| && !s.clients[i].pc.Ready? && !(step.Move? && step.t == i)
    ensures |Apply(s, step).clients| == |s.clients|
    ensures Undisturbed(s.clients[i], Apply(s, step).clients[i])
  {
    if step.Move? && step.t < |s.clients| {
      MoveElsewhere(s, step.t, step.v, step.u, i);
    } else if step.Sweep? && s.published {
      SweepElsewhere(s, step.v, step.u, i);
    } else if !step.Move? && !step.Sweep? {
      EvolveOutside(s, step, i);
    }
  }

  lemma {:induction false} ShapeMoving(s: State, t: nat, v: Verdict, u: nat)
    requires t < |s.clients| && Moving(s.clients[t].pc) && !s.clients[t].pc.CWait?
    ensures var s' := MoveClient(s, t, v, u); s'.config == s.config && |s'.clients| == |s.clients|
  {}

  lemma {:induction false} ShapeMove(s: State, t: nat, v: Verdict, u: nat)
    requires t < |s.clients|
    ensures var s' := MoveClient(s, t, v, u); s'.config == s.config && |s'.clients| == |s.clients|
  {
    var pc := s.clients[t].pc;
    if pc.CWait? {
      assert MoveClient(s, t, v, u) == if v.Good? then Receive(s, t, CWait) else Think(s, t, v);
    } else if Moving(pc) {
      ShapeMoving(s, t, v, u);
    } else {
      assert MoveClient(s, t, v, u) == Think(s, t, v);
    }
  }

  lemma {:induction false} ShapeSweep(s: State, v: Verdict, u: nat)
    ensures var s' := MoveCleaner(s, v, u); s'.config == s.config && |s'.clients| == |s.clients|
  {}

  lemma {:induction false} SameShape(s: State, step: Step)
    ensures var s' := Apply(s, step); s'.config == s.config && |s'.clients| == |s.clients|
  {
    match step {
      case Move(t, v, u) => if t < |s.clients| { ShapeMove(s, t, v, u); }
      case Sweep(v, u) => ShapeSweep(s, v, u);
      case _ =>
    }
  }

  lemma {:induction false} Evolve(s: State, step: Step, i: nat)
    requires i < |s.clients|
    ensures |Apply(s, step).clients| == |s.clients|
    ensures Evolves(s, s.clients[i], Apply(s, step).clients[i])
  {
    SameShape(s, step);
    var pc := s.clients[i].pc;
    if step.Move? && step.t == i {
      if Moving(pc) && !(pc.CWait? && !step.v.Good?) {
        EvolveOwn(s, i, step.v, step.u);
      } else if !pc.Ready? {
        EvolveThink(s, i, step.v);
      }
    } else if !pc.Ready? {
      Elsewhere(s, step, i);
    } else {
      EvolveReady(s, step, i);
    }
  }

  lemma {:induction false} EvolveReady(s: State, step: Step, i: nat)
    requires i < |s.clients| && s.clients[i].pc.Ready? && !(step.Move? && step.t == i)
    ensures |Apply(s, step).clients| == |s.clients|
    ensures Evolves(s, s.clients[i], Apply(s, step).clients[i])
  {
    if step.Move? && step.t < |s.clients| {
      MoveElsewhere(s, step.t, step.v, step.u, i);
    } else if step.Sweep? && s.published {
      SweepElsewhere(s, step.v, step.u, i);
    } else if !step.Move? && !step.Sweep? {
      EvolveOutside(s, step, i);
    }
  }

  // ----- Waits and deferred decrements -----

  /** In the part of a Get that may still wait. */
  predicate Looking(pc: Pc) {
    pc.GTake? || pc.GGot? || pc.GDrop? || pc.GDropStats? || pc.CCheck? || pc.CEnter? || pc.CWait? || pc.CRetry?
    || pc.CPoll?
  }

  predicate Putting(pc: Pc) {
    pc.PDelete? || pc.PCheck? || pc.PClose? || pc.PCloseStats? || pc.PSend? || pc.PSendStats?
  }

  /** While it may still wait, a Get has one deferred decrement for every wait it began; outside Get
      nothing is left to unwind. */
  predicate PairedOne(x: Client, published: bool) {
    && x.pending <= x.waited && (Looking(x.pc) ==> x.pending == x.waited && published)
    && (x.pc.Ready? || x.pc.GTake? || Putting(x.pc) ==> x.pending == 0)
    && (!published ==> x.waited == 0)
  }

  predicate Paired(s: State) {
    forall t :: 0 <= t < |s.clients| ==> PairedOne(s.clients[t], s.published)
  }

  lemma {:induction false} PairedEvolves(s: State, x: Client, y: Client)
    requires PairedOne(x, s.published) && Evolves(s, x, y)
    ensures PairedOne(y, s.published)
  {}

  lemma {:induction false} PairedStep(s: State, step: Step)
    requires Paired(s)
    ensures Paired(Apply(s, step))
  {
    var s' := Apply(s, step);
    SameShape(s, step);
    forall t | 0 <= t < |s'.clients| ensures PairedOne(s'.clients[t], s'.published) {
      Evolve(s, step, t);
      PairedEvolves(s, s.clients[t], s'.clients[t]);
      assert s.published ==> s'.published;
    }
  }

  lemma {:induction false} PairedRun(s: State, steps: seq<Step>)
    requires Paired(s)
    ensures Paired(Run(s, steps))
    decreases |steps|
  {
    if steps != [] {
      PairedStep(s, steps[0]);
      PairedRun(Apply(s, steps[0]), steps[1..]);
    }
  }
}
