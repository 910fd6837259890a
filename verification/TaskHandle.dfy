/** A submitted task: its status, its result, and the channel that is closed when it is done. */
module TaskHandles {
  import opened Basics

  datatype Status = Pending | Running | Completed | Failed | Canceled

  /** What Execute returned: a value, an ordinary error, or a cancellation or deadline error. */
  datatype Outcome = Value(v: int) | Error | ContextError

  /** The fields the lock protects, and how often `done` has been closed. */
  datatype Handle = Handle(status: Status, outcome: Maybe<Outcome>, doneClosed: bool, closes: nat)

  datatype Op = Cancel | SetRunning | SetCompleted(outcome: Outcome)

  const NEW := Handle(Pending, Nothing, false, 0)

  predicate Terminal(s: Status) { s.Completed? || s.Failed? || s.Canceled? }

  function CloseDone(h: Handle): Handle {
    if h.doneClosed then h else h.(doneClosed := true, closes := h.closes + 1)
  }

  function StatusOf(o: Outcome): Status {
    match o
    case Value(_) => Completed
    case Error => Failed
    case ContextError => Canceled
  }

  /** One locked operation. Cancel is refused in a terminal status; the other two never look. */
  function Do(h: Handle, op: Op): Handle {
    match op
    case Cancel => if Terminal(h.status) then h else CloseDone(h.(status := Canceled))
    case SetRunning => h.(status := Running)
    case SetCompleted(o) => CloseDone(h.(status := StatusOf(o), outcome := Just(o)))
  }

  function DoAll(h: Handle, ops: seq<Op>): Handle
    decreases |ops|
  {
    if ops == [] then h else DoAll(Do(h, ops[0]), ops[1..])
  }

  predicate ClosedOnce(h: Handle) {
    h.closes == if h.doneClosed then 1 else 0
  }

  /** Whatever the order of racing Cancels, SetRunning and SetCompleted: `done` is closed at most
      once, and exactly once as soon as a Cancel got through or the task completed. */
  lemma {:induction false} DoneClosedAtMostOnce(h: Handle, ops: seq<Op>)
    requires ClosedOnce(h) && (Terminal(h.status) ==> h.doneClosed)
    ensures ClosedOnce(DoAll(h, ops)) && (Terminal(DoAll(h, ops).status) ==> DoAll(h, ops).doneClosed)
    ensures (exists i :: 0 <= i < |ops| && ops[i].SetCompleted?) ==> DoAll(h, ops).closes == 1
    ensures h.doneClosed ==> DoAll(h, ops).doneClosed
    decreases |ops|
  {
    if ops != [] {
      DoneClosedAtMostOnce(Do(h, ops[0]), ops[1..]);
      if exists i :: 0 <= i < |ops| && ops[i].SetCompleted? {
        var i :| 0 <= i < |ops| && ops[i].SetCompleted?;
        if i > 0 { assert ops[1..][i - 1].SetCompleted?; }
      }
    }
  }

  predicate OnlyCancels(ops: seq<Op>) {
    forall i :: 0 <= i < |ops| ==> ops[i] == Cancel
  }

  /** In a terminal status, Cancels change nothing. */
  lemma {:induction false} TerminalIsStable(h: Handle, ops: seq<Op>)
    requires Terminal(h.status) && OnlyCancels(ops)
    ensures DoAll(h, ops) == h
    decreases |ops|
  {
    if ops != [] {
      TerminalIsStable(Do(h, ops[0]), ops[1..]);
    }
  }

  lemma {:induction false} DoAllAppend(h: Handle, a: seq<Op>, b: seq<Op>)
    ensures DoAll(h, a + b) == DoAll(DoAll(h, a), b)
    decreases |a|
  {
    if a == [] {
      assert a + b == b;
    } else {
      assert (a + b)[1..] == a[1..] + b;
      DoAllAppend(Do(h, a[0]), a[1..], b);
    }
  }

  /** The worker's order of calls, with any number of Cancels at any point: the final status and
      result are those of the execution, and `done` has been closed exactly once. */
  lemma {:induction false} WorkerDecides(before: seq<Op>, during: seq<Op>, after: seq<Op>, o: Outcome)
    requires OnlyCancels(before) && OnlyCancels(during) && OnlyCancels(after)
    ensures var h := DoAll(NEW, before + [SetRunning] + during + [SetCompleted(o)] + after);
            && (h.status == Completed <==> o.Value?)
            && (h.status == Failed <==> o.Error?)
            && (h.status == Canceled <==> o.ContextError?)
            && h.outcome == Just(o) && h.doneClosed && h.closes == 1
  {
    var h1 := DoAll(NEW, before);
    var h2 := DoAll(NEW, before + [SetRunning]);
    var h3 := DoAll(NEW, before + [SetRunning] + during);
    var h4 := DoAll(NEW, before + [SetRunning] + during + [SetCompleted(o)]);
    DoAllAppend(NEW, before, [SetRunning]);
    DoAllAppend(NEW, before + [SetRunning], during);
    DoAllAppend(NEW, before + [SetRunning] + during, [SetCompleted(o)]);
    DoAllAppend(NEW, before + [SetRunning] + during + [SetCompleted(o)], after);
    DoneClosedAtMostOnce(NEW, before + [SetRunning] + during);
    assert h4 == Do(h3, SetCompleted(o)) by {
      assert [SetCompleted(o)][1..] == [];
    }
    TerminalIsStable(h4, after);
  }

  /** Before the worker starts: the task is pending until the first Cancel, and canceled without
      an outcome from then on. */
  lemma {:induction false} CanceledUnstarted(ops: seq<Op>)
    requires OnlyCancels(ops)
    ensures var h := DoAll(NEW, ops);
            && h.status == (if ops == [] then Pending else Canceled) && h.outcome == Nothing
            && h.doneClosed == (ops != []) && h.closes == (if ops == [] then 0 else 1)
  {
    if ops != [] {
      TerminalIsStable(Do(NEW, ops[0]), ops[1..]);
    }
  }

  /** While the worker executes the task: it is running until the first Cancel, whatever happened
      before, and canceled without an outcome from then on. */
  lemma {:induction false} CanceledWhileRunning(before: seq<Op>, during: seq<Op>)
    requires OnlyCancels(before) && OnlyCancels(during)
    ensures var h := DoAll(NEW, before + [SetRunning] + during);
            && h.status == (if during == [] then Running else Canceled) && h.outcome == Nothing
            && h.doneClosed == (before != [] || during != [])
            && h.closes == (if before == [] && during == [] then 0 else 1)
  {
    var h1, h2 := DoAll(NEW, before), DoAll(NEW, before + [SetRunning]);
    CanceledUnstarted(before);
    DoAllAppend(NEW, before, [SetRunning]);
    DoAllAppend(NEW, before + [SetRunning], during);
    assert h2 == Do(h1, SetRunning) by {
      assert [SetRunning][1..] == [];
    }
    if during != [] {
      TerminalIsStable(Do(h2, during[0]), during[1..]);
    }
  }

  /** A successful Cancel is permanent exactly as long as no worker starts or completes the task:
      over all later histories, the status stays Canceled if and only if SetRunning does not
      occur and every SetCompleted carries a cancellation error. */
  lemma {:induction false} CanceledStays(h: Handle, ops: seq<Op>)
    requires h.status == Canceled
    ensures (forall n :: 0 <= n <= |ops| ==> DoAll(h, ops[..n]).status == Canceled)
            <==> (forall i :: 0 <= i < |ops| ==> ops[i] == Cancel || ops[i] == SetCompleted(ContextError))
    decreases |ops|
  {
    if ops != [] {
      var n := |ops| - 1;
      CanceledStays(h, ops[..n]);
      DoAllAppend(h, ops[..n], [ops[n]]);
      assert [ops[n]][1..] == [];
      assert ops[..n] + [ops[n]] == ops && ops[..|ops|] == ops;
      assert forall k :: 0 <= k <= n ==> ops[..n][..k] == ops[..k];
      if forall k :: 0 <= k <= |ops| ==> DoAll(h, ops[..k]).status == Canceled {
        assert forall k :: 0 <= k <= n ==> DoAll(h, ops[..n][..k]).status == Canceled;
        assert DoAll(h, ops[..n]).status == Canceled && DoAll(h, ops[..|ops|]).status == Canceled;
      }
      if forall i :: 0 <= i < |ops| ==> ops[i] == Cancel || ops[i] == SetCompleted(ContextError) {
        assert forall i :: 0 <= i < n ==> ops[..n][i] == ops[i];
        assert DoAll(h, ops[..n][..n]).status == Canceled;
      }
    } else {
      assert ops[..0] == [];
    }
  }

  class TaskHandle {
    var status: Status
    var outcome: Maybe<Outcome>
    var doneClosed: bool
    ghost var closes: nat   // how often close(done) was called

    ghost function View(): Handle
      reads this
    {
      Handle(status, outcome, doneClosed, closes)
    }

    constructor ()
      ensures View() == NEW
    {
      status, outcome, doneClosed, closes := Pending, Nothing, false, 0;
    }

    /** Refused in a terminal status. */
    method Cancel() returns (ok: bool)
      modifies this
      ensures View() == Do(old(View()), Op.Cancel)
      ensures ok <==> old(status) == Pending || old(status) == Running
      ensures status == (if ok then Canceled else old(status)) && outcome == old(outcome)
      ensures doneClosed <==> ok || old(doneClosed)
      ensures closes == old(closes) + if ok && !old(doneClosed) then 1 else 0
    {
      if status == Completed || status == Failed || status == Canceled {
        return false;
      }
      status := Canceled;
      if !doneClosed {
        closes := closes + 1;
        doneClosed := true;
      }
      return true;
    }

    method SetRunning()
      modifies this
      ensures View() == Do(old(View()), Op.SetRunning)
      ensures status == Running && outcome == old(outcome) && doneClosed == old(doneClosed) && closes == old(closes)
    {
      status := Running;
    }

    method SetCompleted(result: Outcome)
      modifies this
      ensures View() == Do(old(View()), Op.SetCompleted(result))
      ensures status == Completed <==> result.Value?
      ensures status == Failed <==> result == Error
      ensures status == Canceled <==> result == ContextError
      ensures outcome == Just(result) && doneClosed
      ensures closes == old(closes) + if old(doneClosed) then 0 else 1
    {
      outcome := Just(result);
      if result == ContextError {
        status := Canceled;
      } else if result == Error {
        status := Failed;
      } else {
        status := Completed;
      }
      if !doneClosed {
        closes := closes + 1;
        doneClosed := true;
      }
    }
  }
}
