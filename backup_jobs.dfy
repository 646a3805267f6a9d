/**
 * The backup-job scheduling policy of SMS Backup+ (WorkManagerBackupJobs).
 *
 * A snapshot of the user's preferences is turned into two kinds of work
 * request: a periodic REGULAR backup, gated by the network rule, and a
 * one-shot INCOMING backup, gated by the same network rule and by changes to
 * the SMS provider (and, when enabled, the call log), retried with exponential
 * backoff. The class hands these to an injected scheduler and can cancel all
 * scheduled work.
 */
module BackupJobs {
  import opened WorkRequests
  import opened WorkManager

  /** The preference values the policy reads, as one immutable snapshot. */
  datatype Preferences = Preferences(
    regularTimeoutSecs: int,
    incomingTimeoutSecs: int,
    wifiOnly: bool,
    callLogBackupEnabled: bool,
    callLogBackupAfterCallEnabled: bool)

  datatype BackupType = REGULAR | INCOMING {
    /** The enum constant's name, used as the request's tag. */
    function Name(): string {
      match this
      case REGULAR => "REGULAR"
      case INCOMING => "INCOMING"
    }
  }

  /** Both requests run the same worker class. */
  const WORKER_CLASS: string := "SmsListenableWorker"

  /** Base delay of the incoming request's exponential backoff, fixed in the code. */
  const INCOMING_BACKOFF_DELAY_SECS: int := 30

  const SMS_TRIGGER: ContentUriTrigger := ContentUriTrigger(SmsProvider, true)
  const CALLLOG_TRIGGER: ContentUriTrigger := ContentUriTrigger(CallLogProvider, true)

  /**
   * The constraints shared by both requests: an unmetered network when the
   * user asked for wifi only, any connected network otherwise. The backup
   * type is accepted but does not influence the result.
   */
  function ConstraintsBuilder(prefs: Preferences, backupType: BackupType): (c: Constraints)
    ensures c.requiredNetworkType == Unmetered <==> prefs.wifiOnly
    ensures c.requiredNetworkType == Connected <==> !prefs.wifiOnly
    ensures c.contentUriTriggers == {}
  {
    Constraints(if prefs.wifiOnly then Unmetered else Connected, {})
  }

  /**
   * Adds the content-URI triggers of the incoming request to `c`: always the
   * SMS provider, and the call-log provider only when call-log backup and
   * backup-after-call are both enabled. Both watch descendants.
   */
  function AddObservedUris(prefs: Preferences, c: Constraints): (r: Constraints)
    ensures r.requiredNetworkType == c.requiredNetworkType
    ensures c.contentUriTriggers <= r.contentUriTriggers
    ensures SMS_TRIGGER in r.contentUriTriggers
    ensures CALLLOG_TRIGGER in r.contentUriTriggers <==>
              CALLLOG_TRIGGER in c.contentUriTriggers
              || (prefs.callLogBackupEnabled && prefs.callLogBackupAfterCallEnabled)
    ensures r.contentUriTriggers - {SMS_TRIGGER, CALLLOG_TRIGGER}
         == c.contentUriTriggers - {SMS_TRIGGER, CALLLOG_TRIGGER}
  {
    var withSms := c.contentUriTriggers + {SMS_TRIGGER};
    var triggers :=
      if prefs.callLogBackupEnabled && prefs.callLogBackupAfterCallEnabled
      then withSms + {CALLLOG_TRIGGER}
      else withSms;
    c.(contentUriTriggers := triggers)
  }

  /**
   * What the regular request of a snapshot looks like, field by field:
   * periodic with the preference's interval, tagged REGULAR, running the
   * backup worker, gated only by the network rule, and with no backoff,
   * initial delay or input data set on it.
   */
  predicate IsRegularRequest(prefs: Preferences, r: WorkRequest) {
    && r.workerClass == WORKER_CLASS
    && r.kind == Periodic(prefs.regularTimeoutSecs)
    && r.tag == "REGULAR"
    && r.constraints.requiredNetworkType == (if prefs.wifiOnly then Unmetered else Connected)
    && r.constraints.contentUriTriggers == {}
    && r.backoff.None? && r.initialDelaySecs.None? && r.inputData.None?
  }

  /**
   * What the incoming request of a snapshot looks like, field by field:
   * one-shot, tagged INCOMING, running the backup worker, exponential backoff
   * from 30 seconds, delayed by the preference's incoming timeout, empty input
   * data, the network rule, the SMS trigger always and the call-log trigger
   * exactly when call-log backup and backup-after-call are both enabled.
   */
  predicate IsIncomingRequest(prefs: Preferences, r: WorkRequest) {
    var triggers := r.constraints.contentUriTriggers;
    && r.workerClass == WORKER_CLASS
    && r.kind == OneTime
    && r.tag == "INCOMING"
    && r.backoff == Some(BackoffCriteria(Exponential, 30))
    && r.initialDelaySecs == Some(prefs.incomingTimeoutSecs)
    && r.inputData == Some(map[])
    && r.constraints.requiredNetworkType == (if prefs.wifiOnly then Unmetered else Connected)
    && SMS_TRIGGER in triggers
    && (CALLLOG_TRIGGER in triggers <==>
          prefs.callLogBackupEnabled && prefs.callLogBackupAfterCallEnabled)
    && triggers <= {SMS_TRIGGER, CALLLOG_TRIGGER}
  }

  /** A request issued under `prefs` is its regular or its incoming request. */
  predicate ConformsTo(prefs: Preferences, r: WorkRequest) {
    IsRegularRequest(prefs, r) || IsIncomingRequest(prefs, r)
  }

  /** The regular request, as the builder chain constructs it. */
  function CreateRegularRequest(prefs: Preferences): (r: WorkRequest)
    ensures IsRegularRequest(prefs, r)
  {
    WorkRequest(
      WORKER_CLASS,
      Periodic(prefs.regularTimeoutSecs),
      REGULAR.Name(),
      ConstraintsBuilder(prefs, REGULAR),
      None,
      None,
      None)
  }

  /** The incoming request, as the builder chain constructs it. */
  function CreateIncomingWorkRequest(prefs: Preferences): (r: WorkRequest)
    ensures IsIncomingRequest(prefs, r)
  {
    var input: map<string, string> := map[];
    WorkRequest(
      WORKER_CLASS,
      OneTime,
      INCOMING.Name(),
      AddObservedUris(prefs, ConstraintsBuilder(prefs, INCOMING)),
      Some(BackoffCriteria(Exponential, INCOMING_BACKOFF_DELAY_SECS)),
      Some(prefs.incomingTimeoutSecs),
      Some(input))
  }

  /**
   * The field-by-field descriptions admit exactly the two requests the policy
   * builds: each description determines its request completely.
   */
  lemma ConformsToExactly(prefs: Preferences, r: WorkRequest)
    ensures IsRegularRequest(prefs, r) <==> r == CreateRegularRequest(prefs)
    ensures IsIncomingRequest(prefs, r) <==> r == CreateIncomingWorkRequest(prefs)
    ensures ConformsTo(prefs, r) <==>
              r == CreateRegularRequest(prefs) || r == CreateIncomingWorkRequest(prefs)
  {
  }

  /** The network rule ignores the backup type: both requests get the same one. */
  lemma SameNetworkRule(prefs: Preferences)
    ensures ConstraintsBuilder(prefs, REGULAR) == ConstraintsBuilder(prefs, INCOMING)
    ensures CreateRegularRequest(prefs).constraints.requiredNetworkType
         == CreateIncomingWorkRequest(prefs).constraints.requiredNetworkType
  {
  }

  /**
   * Request construction depends on the snapshot only: the regular request on
   * the interval and wifi flag, the incoming request on the delay, the wifi
   * flag and the conjunction of the two call-log flags.
   */
  lemma RequestsDependOnlyOnPreferences(p: Preferences, q: Preferences)
    ensures p.regularTimeoutSecs == q.regularTimeoutSecs && p.wifiOnly == q.wifiOnly
            ==> CreateRegularRequest(p) == CreateRegularRequest(q)
    ensures && p.incomingTimeoutSecs == q.incomingTimeoutSecs
            && p.wifiOnly == q.wifiOnly
            && (p.callLogBackupEnabled && p.callLogBackupAfterCallEnabled
                <==> q.callLogBackupEnabled && q.callLogBackupAfterCallEnabled)
            ==> CreateIncomingWorkRequest(p) == CreateIncomingWorkRequest(q)
  {
  }

  /** The calls a client can make on the backup jobs. */
  datatype Call = CancelAll | EnqueueRegular | EnqueueContentTriggerWork

  /**
   * The one event a call produces at the scheduler: a cancel-all for
   * `CancelAll` and for no other call, exactly the regular request for
   * `EnqueueRegular`, exactly the incoming request for
   * `EnqueueContentTriggerWork`.
   */
  function Event(prefs: Preferences, call: Call): (e: SchedulerEvent)
    ensures e == CancelledAll <==> call == CancelAll
    ensures call == EnqueueRegular ==> e.Enqueued? && IsRegularRequest(prefs, e.request)
    ensures call == EnqueueContentTriggerWork ==> e.Enqueued? && IsIncomingRequest(prefs, e.request)
  {
    match call
    case CancelAll => CancelledAll
    case EnqueueRegular => Enqueued(CreateRegularRequest(prefs))
    case EnqueueContentTriggerWork => Enqueued(CreateIncomingWorkRequest(prefs))
  }

  /**
   * The backup-jobs object: a preference snapshot and the scheduler it
   * submits to, both fixed at construction. Each method passes exactly one
   * call to the scheduler, after everything it received before.
   */
  class WorkManagerBackupJobs {
    const preferences: Preferences
    const workManager: FakeWorkManager

    constructor (preferences: Preferences, workManager: FakeWorkManager)
      ensures this.preferences == preferences && this.workManager == workManager
    {
      this.preferences := preferences;
      this.workManager := workManager;
    }

    /** Asks the scheduler once to cancel all work; submits nothing. */
    method CancelAll()
      modifies workManager
      ensures workManager.log == old(workManager.log) + [Event(preferences, Call.CancelAll)]
      ensures Submissions(workManager.log) == Submissions(old(workManager.log))
      ensures CancelCount(workManager.log) == CancelCount(old(workManager.log)) + 1
    {
      workManager.CancelAllWork();
    }

    /** Submits the regular request once; cancels nothing. */
    method EnqueueRegular()
      modifies workManager
      ensures workManager.log == old(workManager.log) + [Event(preferences, Call.EnqueueRegular)]
      ensures Submissions(workManager.log)
           == Submissions(old(workManager.log)) + [CreateRegularRequest(preferences)]
      ensures CancelCount(workManager.log) == CancelCount(old(workManager.log))
    {
      workManager.Enqueue(CreateRegularRequest(preferences));
    }

    /** Submits the incoming request once; cancels nothing. */
    method EnqueueContentTriggerWork()
      modifies workManager
      ensures workManager.log
           == old(workManager.log) + [Event(preferences, Call.EnqueueContentTriggerWork)]
      ensures Submissions(workManager.log)
           == Submissions(old(workManager.log)) + [CreateIncomingWorkRequest(preferences)]
      ensures CancelCount(workManager.log) == CancelCount(old(workManager.log))
    {
      workManager.Enqueue(CreateIncomingWorkRequest(preferences));
    }
  }
}
