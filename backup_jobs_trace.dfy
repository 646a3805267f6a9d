/**
 * Sequences of calls on the backup jobs, as seen by the scheduler.
 *
 * Every call is passed straight to the scheduler, so the scheduler's log
 * receives one event per call, in the order the calls are made: where a
 * cancel-all falls among the enqueues is kept. Nothing in the backup jobs
 * merges or replaces submissions: enqueuing the same kind of request twice
 * submits it twice.
 */
module BackupJobsTrace {
  import opened WorkRequests
  import opened WorkManager
  import opened BackupJobs

  /** The scheduler's log after `calls`, made one after another under one snapshot. */
  function Run(prefs: Preferences, log: seq<SchedulerEvent>, calls: seq<Call>): seq<SchedulerEvent>
    decreases |calls|
  {
    if calls == [] then log else Run(prefs, log + [Event(prefs, calls[0])], calls[1..])
  }

  /** The events of `calls`, position by position. */
  function Events(prefs: Preferences, calls: seq<Call>): seq<SchedulerEvent> {
    seq(|calls|, i requires 0 <= i < |calls| => Event(prefs, calls[i]))
  }

  /** The requests `calls` submit, in call order. */
  function Submitted(prefs: Preferences, calls: seq<Call>): seq<WorkRequest> {
    Submissions(Events(prefs, calls))
  }

  /** How many of `calls` are `call`. */
  function Count(calls: seq<Call>, call: Call): nat {
    if calls == [] then 0
    else (if calls[0] == call then 1 else 0) + Count(calls[1..], call)
  }

  /** How many of `requests` carry `tag`. */
  function Tagged(requests: seq<WorkRequest>, tag: string): nat {
    if requests == [] then 0
    else (if requests[0].tag == tag then 1 else 0) + Tagged(requests[1..], tag)
  }

  /**
   * Running `calls` appends exactly one event per call to the log, in call
   * order, and leaves the earlier events as they were.
   */
  lemma {:induction false} RunRecordsInOrder(prefs: Preferences, log: seq<SchedulerEvent>, calls: seq<Call>)
    ensures Run(prefs, log, calls) == log + Events(prefs, calls)
    decreases |calls|
  {
    if calls != [] {
      var next := log + [Event(prefs, calls[0])];
      RunRecordsInOrder(prefs, next, calls[1..]);
      assert Events(prefs, calls) == [Event(prefs, calls[0])] + Events(prefs, calls[1..]);
    }
  }

  /** The events of consecutive call sequences are consecutive. */
  lemma EventsInCallOrder(prefs: Preferences, a: seq<Call>, b: seq<Call>)
    ensures Events(prefs, a + b) == Events(prefs, a) + Events(prefs, b)
  {
  }

  /**
   * Submissions follow the calls in order: the calls `a` followed by `b`
   * submit what `a` submits followed by what `b` submits.
   */
  lemma SubmittedInCallOrder(prefs: Preferences, a: seq<Call>, b: seq<Call>)
    ensures Submitted(prefs, a + b) == Submitted(prefs, a) + Submitted(prefs, b)
  {
    EventsInCallOrder(prefs, a, b);
    LogConcat(Events(prefs, a), Events(prefs, b));
  }

  /**
   * A single call submits its own request, if any: nothing for a cancel-all,
   * the regular request for `EnqueueRegular`, the incoming request for
   * `EnqueueContentTriggerWork`.
   */
  lemma SubmittedSingleCall(prefs: Preferences)
    ensures Submitted(prefs, [CancelAll]) == []
    ensures Submitted(prefs, [EnqueueRegular]) == [CreateRegularRequest(prefs)]
    ensures Submitted(prefs, [EnqueueContentTriggerWork]) == [CreateIncomingWorkRequest(prefs)]
  {
    forall call | true
      ensures Submissions(Events(prefs, [call])) == Submissions([Event(prefs, call)])
              == if call == CancelAll then [] else [Event(prefs, call).request]
    {
      assert Events(prefs, [call]) == [] + [Event(prefs, call)];
      LogAppend([], Event(prefs, call));
    }
  }

  /**
   * The calls submit one request per enqueue call and record one cancel-all
   * per cancel-all call: as many REGULAR requests as `EnqueueRegular` calls
   * and as many INCOMING requests as `EnqueueContentTriggerWork` calls.
   */
  lemma {:induction false} SubmittedCounts(prefs: Preferences, calls: seq<Call>)
    ensures |Submitted(prefs, calls)| + Count(calls, CancelAll) == |calls|
    ensures CancelCount(Events(prefs, calls)) == Count(calls, CancelAll)
    ensures Tagged(Submitted(prefs, calls), "REGULAR") == Count(calls, EnqueueRegular)
    ensures Tagged(Submitted(prefs, calls), "INCOMING") == Count(calls, EnqueueContentTriggerWork)
    decreases |calls|
  {
    if calls != [] {
      var events, rest := Events(prefs, calls), Events(prefs, calls[1..]);
      SubmittedCounts(prefs, calls[1..]);
      assert events[0] == Event(prefs, calls[0]) && events[1..] == rest;
      var e := events[0];
      var later := Submissions(rest);
      if e.Enqueued? {
        assert Submitted(prefs, calls) == [e.request] + later;
        assert ([e.request] + later)[0] == e.request && ([e.request] + later)[1..] == later;
        assert e.request.tag == (if calls[0] == EnqueueRegular then "REGULAR" else "INCOMING");
      } else {
        assert Submitted(prefs, calls) == later;
      }
    }
  }

  /** Every request the calls submit conforms to the snapshot. */
  lemma {:induction false} SubmittedConforms(prefs: Preferences, calls: seq<Call>)
    ensures forall i | 0 <= i < |Submitted(prefs, calls)| :: ConformsTo(prefs, Submitted(prefs, calls)[i])
    decreases |calls|
  {
    if calls != [] {
      var events, rest := Events(prefs, calls), Events(prefs, calls[1..]);
      SubmittedConforms(prefs, calls[1..]);
      assert events[0] == Event(prefs, calls[0]) && events[1..] == rest;
      var e := events[0];
      var later := Submissions(rest);
      assert later == Submitted(prefs, calls[1..]);
      if e.Enqueued? {
        var all := [e.request] + later;
        assert Submitted(prefs, calls) == all;
        forall i | 0 <= i < |all| ensures ConformsTo(prefs, all[i]) {
          if i > 0 {
            assert all[i] == later[i - 1];
          }
        }
      } else {
        assert Submitted(prefs, calls) == later;
      }
    }
  }

  /**
   * If every request in the scheduler's log conforms to the snapshot, it
   * still does after any sequence of calls: the backup jobs only ever submit
   * the regular and the incoming request of that snapshot.
   */
  lemma RunKeepsConformance(prefs: Preferences, log: seq<SchedulerEvent>, calls: seq<Call>)
    requires forall i | 0 <= i < |Submissions(log)| :: ConformsTo(prefs, Submissions(log)[i])
    ensures forall i | 0 <= i < |Submissions(Run(prefs, log, calls))| ::
              ConformsTo(prefs, Submissions(Run(prefs, log, calls))[i])
  {
    RunRecordsInOrder(prefs, log, calls);
    LogConcat(log, Events(prefs, calls));
    SubmittedConforms(prefs, calls);
    var before, added := Submissions(log), Submitted(prefs, calls);
    forall i | 0 <= i < |before + added| ensures ConformsTo(prefs, (before + added)[i]) {
      if i >= |before| {
        assert (before + added)[i] == added[i - |before|];
      }
    }
  }

  /**
   * Enqueuing the regular request twice submits two regular requests, equal
   * in every field the code sets, and cancels nothing; the backup jobs
   * themselves do not replace the earlier one.
   */
  lemma RepeatedEnqueueRegular(prefs: Preferences, log: seq<SchedulerEvent>)
    ensures Submissions(Run(prefs, log, [EnqueueRegular, EnqueueRegular]))
         == Submissions(log) + [CreateRegularRequest(prefs), CreateRegularRequest(prefs)]
    ensures CancelCount(Run(prefs, log, [EnqueueRegular, EnqueueRegular])) == CancelCount(log)
  {
    var once := log + [Enqueued(CreateRegularRequest(prefs))];
    LogAppend(log, Enqueued(CreateRegularRequest(prefs)));
    LogAppend(once, Enqueued(CreateRegularRequest(prefs)));
  }

  /**
   * The log keeps where a cancel-all falls among the enqueues: a regular
   * request enqueued before a cancel-all is not among the submissions since
   * the last cancel-all, one enqueued after it is. The two orders give
   * different logs.
   */
  lemma CancelOrderIsKept(prefs: Preferences, log: seq<SchedulerEvent>)
    ensures SinceLastCancel(Run(prefs, log, [EnqueueRegular, CancelAll])) == []
    ensures SinceLastCancel(Run(prefs, log, [CancelAll, EnqueueRegular])) == [CreateRegularRequest(prefs)]
    ensures Run(prefs, log, [EnqueueRegular, CancelAll]) != Run(prefs, log, [CancelAll, EnqueueRegular])
  {
    var regular := Enqueued(CreateRegularRequest(prefs));
    LogAppend(log + [regular], CancelledAll);
    LogAppend(log, CancelledAll);
    LogAppend(log + [CancelledAll], regular);
  }
}
