/**
 * An in-memory stand-in for the WorkManager instance the backup jobs talk to.
 *
 * It records what it was asked to do as one log of events, in call order: a
 * request handed to `Enqueue`, or a call to `CancelAllWork`. It neither runs
 * nor removes work; what a real scheduler does with the requests is outside
 * this model. The views below read the log: every submission, the number of
 * cancel-alls, and the submissions made since the last cancel-all.
 */
module WorkManager {
  import opened WorkRequests

  /** One call the scheduler received. */
  datatype SchedulerEvent = Enqueued(request: WorkRequest) | CancelledAll

  /** The requests enqueued in `log`, in order. */
  function Submissions(log: seq<SchedulerEvent>): seq<WorkRequest> {
    if log == [] then []
    else (if log[0].Enqueued? then [log[0].request] else []) + Submissions(log[1..])
  }

  /** How many cancel-alls `log` holds. */
  function CancelCount(log: seq<SchedulerEvent>): nat {
    if log == [] then 0
    else (if log[0] == CancelledAll then 1 else 0) + CancelCount(log[1..])
  }

  /** The requests enqueued after the last cancel-all of `log` (all of them if there is none). */
  function SinceLastCancel(log: seq<SchedulerEvent>): seq<WorkRequest>
    decreases |log|
  {
    if log == [] then []
    else
      match log[|log| - 1]
      case CancelledAll => []
      case Enqueued(request) => SinceLastCancel(log[..|log| - 1]) + [request]
  }

  /** The views of a log split over a concatenation of logs. */
  lemma {:induction false} LogConcat(a: seq<SchedulerEvent>, b: seq<SchedulerEvent>)
    ensures Submissions(a + b) == Submissions(a) + Submissions(b)
    ensures CancelCount(a + b) == CancelCount(a) + CancelCount(b)
    decreases |a|
  {
    if a == [] {
      assert a + b == b;
    } else {
      assert (a + b)[0] == a[0] && (a + b)[1..] == a[1..] + b;
      LogConcat(a[1..], b);
    }
  }

  /** The views of a log after one more event. */
  lemma LogAppend(log: seq<SchedulerEvent>, e: SchedulerEvent)
    ensures Submissions(log + [e]) == Submissions(log) + (if e.Enqueued? then [e.request] else [])
    ensures CancelCount(log + [e]) == CancelCount(log) + (if e == CancelledAll then 1 else 0)
    ensures SinceLastCancel(log + [e])
         == if e.Enqueued? then SinceLastCancel(log) + [e.request] else []
  {
    LogConcat(log, [e]);
    assert [e][1..] == [];
    assert (log + [e])[..|log|] == log;
  }

  /**
   * What was enqueued since the last cancel-all is the tail of all
   * submissions, and is all of them when nothing was ever cancelled.
   */
  lemma {:induction false} SinceLastCancelIsTail(log: seq<SchedulerEvent>)
    ensures |SinceLastCancel(log)| <= |Submissions(log)|
    ensures Submissions(log)[|Submissions(log)| - |SinceLastCancel(log)|..] == SinceLastCancel(log)
    ensures CancelCount(log) == 0 ==> SinceLastCancel(log) == Submissions(log)
    decreases |log|
  {
    if log != [] {
      var init, e := log[..|log| - 1], log[|log| - 1];
      assert log == init + [e];
      SinceLastCancelIsTail(init);
      LogAppend(init, e);
    }
  }

  class FakeWorkManager {
    var log: seq<SchedulerEvent>

    constructor ()
      ensures log == []
    {
      log := [];
    }

    /** Submits one request after all earlier events; nothing is cancelled. */
    method Enqueue(request: WorkRequest)
      modifies this
      ensures log == old(log) + [Enqueued(request)]
      ensures Submissions(log) == Submissions(old(log)) + [request]
      ensures CancelCount(log) == CancelCount(old(log))
    {
      LogAppend(log, Enqueued(request));
      log := log + [Enqueued(request)];
    }

    /** Records one request to cancel all work after all earlier events; nothing is submitted. */
    method CancelAllWork()
      modifies this
      ensures log == old(log) + [CancelledAll]
      ensures Submissions(log) == Submissions(old(log))
      ensures CancelCount(log) == CancelCount(old(log)) + 1
      ensures SinceLastCancel(log) == []
    {
      LogAppend(log, CancelledAll);
      log := log + [CancelledAll];
    }
  }
}
