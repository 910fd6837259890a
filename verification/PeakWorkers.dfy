/** The PeakWorkers metric: a maximum kept by a compare-and-swap loop. */
module PeakWorkers {

  datatype Caller =
    | Outside
    | LoadPeak(total: int)
    | SwapPeak(total: int, seen: int)

  /** `called` records every total the loop was ever entered with. */
  datatype State = State(peak: int, callers: seq<Caller>, called: seq<int>)

  datatype Step = Step(i: nat, total: int)

  function Init(callers: nat): State { State(0, seq(callers, _ => Outside), []) }

  /** The next atomic operation of caller `i`; `total` is what a new call is made with. */
  function Apply(s: State, step: Step): State {
    if step.i >= |s.callers| then s
    else
      match s.callers[step.i]
      case Outside =>
        s.(callers := s.callers[step.i := LoadPeak(step.total)], called := s.called + [step.total])
      case LoadPeak(t) =>
        s.(callers := s.callers[step.i := if t <= s.peak then Outside else SwapPeak(t, s.peak)])
      case SwapPeak(t, seen) =>
        if s.peak == seen then s.(callers := s.callers[step.i := Outside], peak := t)
        else s.(callers := s.callers[step.i := LoadPeak(t)])
  }

  function Run(s: State, steps: seq<Step>): State
    decreases |steps|
  {
    if steps == [] then s else Run(Apply(s, steps[0]), steps[1..])
  }

  /** Caller `i` is still in the loop with total `t`. */
  predicate InLoop(s: State, i: nat, t: int) {
    i < |s.callers| && !s.callers[i].Outside? && s.callers[i].total == t
  }

  /** The peak is zero or a total of some call, no call that has returned exceeds it, and a pending
      swap would raise it. */
  ghost predicate Inv(s: State) {
    && s.peak >= 0 && (s.peak == 0 || s.peak in s.called)
    && (forall t :: t in s.called ==> t <= s.peak || exists i: nat :: InLoop(s, i, t))
    && (forall i :: 0 <= i < |s.callers| && !s.callers[i].Outside? ==> s.callers[i].total in s.called)
    && (forall i :: 0 <= i < |s.callers| && s.callers[i].SwapPeak? ==> s.callers[i].seen < s.callers[i].total)
  }

  lemma {:induction false} InvStep(s: State, step: Step)
    requires Inv(s)
    ensures Inv(Apply(s, step)) && Apply(s, step).peak >= s.peak
  {
    var s' := Apply(s, step);
    if step.i < |s.callers| {
      forall t | t in s'.called ensures t <= s'.peak || exists i: nat :: InLoop(s', i, t) {
        if t == step.total && s.callers[step.i].Outside? {
          assert InLoop(s', step.i, t);
        } else if t > s.peak {
          var i: nat :| InLoop(s, i, t);
          if i != step.i || !s'.callers[i].Outside? {
            assert InLoop(s', i, t);
          }
        }
      }
    }
  }

  lemma {:induction false} InvRun(s: State, steps: seq<Step>)
    requires Inv(s)
    ensures Inv(Run(s, steps)) && Run(s, steps).peak >= s.peak
    decreases |steps|
  {
    if steps != [] {
      InvStep(s, steps[0]);
      InvRun(Apply(s, steps[0]), steps[1..]);
    }
  }

  /** The totals that the calls of a run are made with: every step of a caller outside the loop begins one. */
  function Published(s: State, steps: seq<Step>): seq<int>
    decreases |steps|
  {
    if steps == [] then []
    else
      var begins := steps[0].i < |s.callers| && s.callers[steps[0].i].Outside?;
      (if begins then [steps[0].total] else []) + Published(Apply(s, steps[0]), steps[1..])
  }

  lemma {:induction false} CalledIsPublished(s: State, steps: seq<Step>)
    ensures Run(s, steps).called == s.called + Published(s, steps)
    decreases |steps|
  {
    if steps != [] {
      CalledIsPublished(Apply(s, steps[0]), steps[1..]);
    }
  }

  /** A call alone raises the peak to its total, if that is higher, and returns: after two steps when it is
      not, and after three when it is. */
  lemma {:induction false} PublishAlone(s: State, i: nat, total: int)
    requires i < |s.callers| && s.callers[i].Outside?
    ensures var call := if total <= s.peak then [Step(i, total), Step(i, total)]
                        else [Step(i, total), Step(i, total), Step(i, total)];
            var s' := Run(s, call);
            s'.callers == s.callers && s'.peak == (if total > s.peak then total else s.peak)
  {
    var x := Step(i, total);
    var s1 := Apply(s, x);
    var s2 := Apply(s1, x);
    if total <= s.peak {
      RunCons(s, x, [x]);
      RunCons(s1, x, []);
      assert s2.callers == s.callers;
    } else {
      RunCons(s, x, [x, x]);
      RunCons(s1, x, [x]);
      RunCons(s2, x, []);
      assert Apply(s2, x).callers == s.callers;
    }
  }

  lemma {:induction false} RunCons(s: State, x: Step, rest: seq<Step>)
    ensures Run(s, [x] + rest) == Run(Apply(s, x), rest)
  {
    assert ([x] + rest)[1..] == rest;
  }

  /** Any number of callers, any schedule: once no call is in the loop, PeakWorkers is the maximum
      of zero and all the totals ever published, and it never went down on the way. */
  lemma {:induction false} PeakIsMaximum(callers: nat, before: seq<Step>, after: seq<Step>)
    ensures var s := Run(Run(Init(callers), before), after);
            var totals := Published(Init(callers), before) + Published(Run(Init(callers), before), after);
            && s.peak >= Run(Init(callers), before).peak >= 0
            && ((forall i :: 0 <= i < |s.callers| ==> s.callers[i].Outside?) ==>
                  && (forall t :: t in totals ==> t <= s.peak)
                  && (s.peak == 0 || s.peak in totals))
  {
    CalledIsPublished(Init(callers), before);
    CalledIsPublished(Run(Init(callers), before), after);
    var s := Run(Run(Init(callers), before), after);
    assert s.called == Published(Init(callers), before) + Published(Run(Init(callers), before), after);
    InvRun(Init(callers), before);
    InvRun(Run(Init(callers), before), after);
  }
}
