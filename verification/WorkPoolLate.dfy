/** A Submit that overtakes a Shutdown: the task that is accepted and never run. */
module WorkPoolLate {
  import opened TaskHandles
  import opened WorkPoolCalls
  import opened WorkPoolProtocol
  import opened WorkPoolShutdown

  /** Started, found running by a submitter, shut down, and only then handed the task: Shutdown returns
      nil and the task waits in the queue of a stopped pool without workers. */
  lemma {:induction false} LeftBehind(c: Config, submitters: nat) returns (s: State)
    requires submitters > 0
    ensures Reached(c, submitters, s) && s.shutter == HReturned && s.status == Stopped && s.late
    ensures s.queue == [0] && s.tasks == [NEW] && AllAt(s.workers, 0, WGone)
  {
    s := LateSubmitter(c, submitters);
    s := Enqueue(c, submitters, s);
  }

  /** A run at whose end a nil Shutdown has left no task behind, or whose latest Shutdown saw the queue
      empty in the other of the two situations. */
  ghost predicate Complete(c: Config, submitters: nat, late: bool, steps: seq<Step>) {
    var s := Run(Init(c, submitters), steps);
    s.shutter.HReturned? && s.status == Stopped && s.late == late ==> AllFinished(s)
  }

  /** For every configuration: a Shutdown that returns nil leaves no accepted task without a result, in
      all runs, if and only if nobody submits or no Submit is in flight, past its status check and not
      yet in the queue, when Shutdown sees the queue empty. */
  lemma {:induction false} LeftBehindExact(c: Config, submitters: nat, late: bool)
    ensures (forall steps :: Complete(c, submitters, late, steps)) <==> submitters == 0 || !late
  {
    if submitters == 0 || !late {
      forall steps ensures Complete(c, submitters, late, steps) {
        NothingLeftBehind(c, submitters, steps);
      }
    } else {
      var s := LeftBehind(c, submitters);
      var steps :| Run(Init(c, submitters), steps) == s;
      assert s.tasks[0].outcome.Nothing?;
      assert !Complete(c, submitters, late, steps);
    }
  }
}
