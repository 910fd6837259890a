/** Schedules put together from shorter ones, for each of the machines. */
module NonBlockingRuns {
  import opened NonBlockingProtocol

  lemma {:induction false} RunCons(s: State, step: Step, rest: seq<Step>)
    requires InRange(s)
    ensures Run(s, [step] + rest) == Run(Apply(s, step), rest)
  {
    assert ([step] + rest)[1..] == rest;
  }

  lemma {:induction false} RunOne(s: State, x: Step)
    requires InRange(s)
    ensures Run(s, [x]) == Apply(s, x)
  {
    assert [x][1..] == [];
  }

  /** Two steps of the same schedule, one after the other. */
  lemma {:induction false} RunTwo(s: State, x: Step)
    requires InRange(s)
    ensures Run(s, [x, x]) == Apply(Apply(s, x), x)
  {
    RunCons(s, x, [x]);
    RunOne(Apply(s, x), x);
    assert [x, x] == [x] + [x];
  }

  lemma {:induction false} RunAppend(s: State, a: seq<Step>, b: seq<Step>)
    requires InRange(s)
    ensures Run(s, a + b) == Run(Run(s, a), b)
    decreases |a|
  {
    if a == [] {
      assert a + b == b;
    } else {
      assert (a + b)[1..] == a[1..] + b;
      RunAppend(Apply(s, a[0]), a[1..], b);
    }
  }
}

module PoolRuns {
  import opened PoolProtocol

  lemma {:induction false} RunAppend(s: State, a: seq<Step>, b: seq<Step>)
    ensures Run(s, a + b) == Run(Run(s, a), b)
    decreases |a|
  {
    if a == [] {
      assert a + b == b;
    } else {
      assert (a + b)[1..] == a[1..] + b;
      RunAppend(Apply(s, a[0]), a[1..], b);
    }
  }
}

module WorkPoolRuns {
  import opened WorkPoolProtocol

  lemma {:induction false} RunOne(s: State, x: Step)
    requires InRange(s)
    ensures InRange(Apply(s, x)) && Run(s, [x]) == Apply(s, x)
  {
    InRangeStep(s, x);
    assert [x][1..] == [];
  }

  lemma {:induction false} RunAppend(s: State, a: seq<Step>, b: seq<Step>)
    requires InRange(s)
    ensures Run(s, a + b) == Run(Run(s, a), b)
    decreases |a|
  {
    if a == [] {
      assert a + b == b;
    } else {
      assert (a + b)[1..] == a[1..] + b;
      InRangeStep(s, a[0]);
      RunAppend(Apply(s, a[0]), a[1..], b);
    }
  }
}
