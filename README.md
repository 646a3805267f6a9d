# Backup-job scheduling policy of SMS Backup+

This project models `WorkManagerBackupJobs`, the class through which SMS Backup+
schedules its background backups with Android's WorkManager, and proves what
its requests look like.

From a snapshot of the user's preferences the class builds two work requests:

- the **regular** request: periodic, tagged `REGULAR`, repeating every
  `regularTimeoutSecs` seconds, gated by the network rule;
- the **incoming** request: one-shot, tagged `INCOMING`, with empty input data,
  exponential backoff from 30 seconds and an initial delay of
  `incomingTimeoutSecs` seconds. It is gated by the same network rule and by
  content-URI triggers: always the SMS provider, and the call-log provider
  exactly when call-log backup and backup-after-call are both enabled.

The network rule requires an unmetered network when the user asked for
wifi only, and any connected network otherwise. The class hands either
request to the scheduler (`enqueueRegular`, `enqueueContentTriggerWork`) or
asks it to cancel all work (`cancelAll`).

Layout:

- `work_requests.dfy` (module `WorkRequests`): the library's request values
  (network type, content-URI trigger, constraints, backoff, work request) as
  immutable datatypes. Each builder chain becomes one value construction. An
  `Option` field is `Some` when the code calls that setter, and `None` when
  the library default is left in place.
- `work_manager.dfy` (module `WorkManager`): `FakeWorkManager`, an in-memory
  scheduler that keeps one log of the calls it receives, in order: each
  enqueued request and each cancel-all. Three views read the log: all
  submissions, the number of cancel-alls, and the submissions since the last
  cancel-all. It replaces `WorkManager.getInstance(context)`: the backup jobs
  receive it at construction.
- `backup_jobs.dfy` (module `BackupJobs`): the preference snapshot, the four
  request-building functions and the `WorkManagerBackupJobs` class. It also
  holds `IsRegularRequest` and `IsIncomingRequest`, field-by-field
  descriptions of the two requests written independently of the builders,
  and `Event`, the one event a call leaves in the scheduler's log.
- `backup_jobs_trace.dfy` (module `BackupJobsTrace`): sequences of calls. It
  covers the order of events (including where cancel-alls fall), the
  conformance invariant over the scheduler's log, and the absence of
  replacement on repeated enqueues.

Each class method is proved to append exactly `Event` of its call to the
scheduler's log. For a sequence of method calls, the log is therefore `Run` of
the corresponding calls, and the lemmas of `BackupJobsTrace` apply to it.

## Model

| member | source | states |
|---|---|---|
| `BackupJobs.ConstraintsBuilder` | app/src/main/java/com/zegoggles/smssync/workmanager/WorkManagerBackupJobs.java:65-69 | The required network type is `Unmetered` iff wifi-only is set and `Connected` iff it is not. No content trigger is added. |
| `BackupJobs.SameNetworkRule` | app/src/main/java/com/zegoggles/smssync/workmanager/WorkManagerBackupJobs.java:65-68 | The backup type has no effect on the constraints, so the regular and incoming requests always get the same network type. |
| `BackupJobs.AddObservedUris` | app/src/main/java/com/zegoggles/smssync/workmanager/WorkManagerBackupJobs.java:71-79 | The SMS trigger (descendants true) is always present. The call-log trigger (descendants true) is present iff it was already present or both call-log flags hold. Existing triggers and the network type are kept, and no other trigger is added. |
| `BackupJobs.CreateRegularRequest` | app/src/main/java/com/zegoggles/smssync/workmanager/WorkManagerBackupJobs.java:46-52 | The built request meets `IsRegularRequest`: periodic with interval `regularTimeoutSecs`, tagged `REGULAR`, running the backup worker. It follows the wifi-only network rule, has no content triggers, and sets no backoff, initial delay or input data. |
| `BackupJobs.CreateIncomingWorkRequest` | app/src/main/java/com/zegoggles/smssync/workmanager/WorkManagerBackupJobs.java:54-63 | The built request meets `IsIncomingRequest`: one-shot, tagged `INCOMING`, with empty input data and exponential backoff of 30 s. Its initial delay is `incomingTimeoutSecs` and it follows the wifi-only network rule. It always has the SMS trigger, has the call-log trigger iff both call-log flags hold, and has no other trigger. |
| `BackupJobs.ConformsToExactly` | app/src/main/java/com/zegoggles/smssync/workmanager/WorkManagerBackupJobs.java:46-79 | Each field-by-field description determines its request: a request meets `IsRegularRequest` iff it is the built regular request, and `IsIncomingRequest` iff it is the built incoming request. |
| `BackupJobs.RequestsDependOnlyOnPreferences` | app/src/main/java/com/zegoggles/smssync/workmanager/WorkManagerBackupJobs.java:46-63 | Two snapshots give equal regular requests when they agree on interval and wifi flag. They give equal incoming requests when they agree on delay, wifi flag and the call-log conjunction. In particular the same snapshot always gives requests equal in every field the code sets. |
| `BackupJobs.Event` | app/src/main/java/com/zegoggles/smssync/workmanager/WorkManagerBackupJobs.java:34-44 | A cancel-all event comes from `CancelAll` and from no other call. `EnqueueRegular` yields an enqueue of a request meeting `IsRegularRequest`, and `EnqueueContentTriggerWork` an enqueue of a request meeting `IsIncomingRequest`. |
| `BackupJobs.WorkManagerBackupJobs.constructor` | app/src/main/java/com/zegoggles/smssync/workmanager/WorkManagerBackupJobs.java:29-32 | The object holds the given preference snapshot and the given scheduler. |
| `BackupJobs.WorkManagerBackupJobs.CancelAll` | app/src/main/java/com/zegoggles/smssync/workmanager/WorkManagerBackupJobs.java:34-36 | Exactly one cancel-all is appended to the scheduler's log, after every earlier event. Nothing is enqueued, and the cancel count grows by one. The preferences are unchanged because they are a constant field. |
| `BackupJobs.WorkManagerBackupJobs.EnqueueRegular` | app/src/main/java/com/zegoggles/smssync/workmanager/WorkManagerBackupJobs.java:38-40 | Exactly one event, the enqueue of the regular request of the snapshot, is appended to the log. The request is appended to the submissions, and nothing is cancelled. |
| `BackupJobs.WorkManagerBackupJobs.EnqueueContentTriggerWork` | app/src/main/java/com/zegoggles/smssync/workmanager/WorkManagerBackupJobs.java:42-44 | Exactly one event, the enqueue of the incoming request of the snapshot, is appended to the log. The request is appended to the submissions, and nothing is cancelled. |
| `WorkManager.FakeWorkManager.Enqueue` | app/src/main/java/com/zegoggles/smssync/workmanager/WorkManagerBackupJobs.java:39 | The scheduler's `enqueue` appends one enqueue event to its log. The request is appended to the submissions and the cancel count is unchanged. |
| `WorkManager.FakeWorkManager.CancelAllWork` | app/src/main/java/com/zegoggles/smssync/workmanager/WorkManagerBackupJobs.java:35 | The scheduler's `cancelAllWork` appends one cancel-all event to its log. The submissions are unchanged, the cancel count grows by one, and nothing counts as submitted since the last cancel-all. |
| `WorkManager.LogConcat` | app/src/main/java/com/zegoggles/smssync/workmanager/WorkManagerBackupJobs.java:34-44 | The submissions and the cancel count of two consecutive stretches of the log are those of the first stretch followed by, or added to, those of the second. |
| `WorkManager.LogAppend` | app/src/main/java/com/zegoggles/smssync/workmanager/WorkManagerBackupJobs.java:34-44 | One more event appends its request to the submissions, or adds one to the cancel count. An enqueue extends the submissions since the last cancel-all, and a cancel-all empties them. |
| `WorkManager.SinceLastCancelIsTail` | app/src/main/java/com/zegoggles/smssync/workmanager/WorkManagerBackupJobs.java:34-44 | The submissions since the last cancel-all are a suffix of all submissions. When no cancel-all was ever made, they are all of them. |
| `BackupJobsTrace.RunRecordsInOrder` | app/src/main/java/com/zegoggles/smssync/workmanager/WorkManagerBackupJobs.java:34-44 | After a sequence of calls, the scheduler's log is the earlier log followed by one event per call, in call order. |
| `BackupJobsTrace.EventsInCallOrder` | app/src/main/java/com/zegoggles/smssync/workmanager/WorkManagerBackupJobs.java:34-44 | The events of two consecutive call sequences are those of the first followed by those of the second. |
| `BackupJobsTrace.SubmittedInCallOrder` | app/src/main/java/com/zegoggles/smssync/workmanager/WorkManagerBackupJobs.java:38-44 | Submissions follow call order: the submissions of two consecutive call sequences are those of the first followed by those of the second. |
| `BackupJobsTrace.SubmittedSingleCall` | app/src/main/java/com/zegoggles/smssync/workmanager/WorkManagerBackupJobs.java:34-44 | A single call submits nothing (cancel-all), exactly the regular request (`EnqueueRegular`, line 39) or exactly the incoming request (`EnqueueContentTriggerWork`, line 43). |
| `BackupJobsTrace.SubmittedCounts` | app/src/main/java/com/zegoggles/smssync/workmanager/WorkManagerBackupJobs.java:34-44 | A sequence of calls submits one request per enqueue call and records one cancel-all per cancel-all call. It submits as many `REGULAR` requests as there are `EnqueueRegular` calls, and as many `INCOMING` requests as `EnqueueContentTriggerWork` calls. |
| `BackupJobsTrace.SubmittedConforms` | app/src/main/java/com/zegoggles/smssync/workmanager/WorkManagerBackupJobs.java:38-63 | Every request a sequence of calls submits conforms to the snapshot: it meets `IsRegularRequest` or `IsIncomingRequest`. |
| `BackupJobsTrace.RunKeepsConformance` | app/src/main/java/com/zegoggles/smssync/workmanager/WorkManagerBackupJobs.java:38-63 | If every request in the scheduler's log conforms to the snapshot, that remains true after any sequence of calls. |
| `BackupJobsTrace.RepeatedEnqueueRegular` | app/src/main/java/com/zegoggles/smssync/workmanager/WorkManagerBackupJobs.java:38-40 | Enqueuing the regular request twice submits two regular requests, equal in every field the code sets, and cancels nothing. The backup jobs do not replace the first submission. |
| `BackupJobsTrace.CancelOrderIsKept` | app/src/main/java/com/zegoggles/smssync/workmanager/WorkManagerBackupJobs.java:34-40 | A regular request enqueued before a cancel-all is not among the submissions since the last cancel-all; one enqueued after it is the only one. The two call orders give different logs. |

## Left out

- `Context` and `WorkManager.getInstance`: the scheduler is passed in
  instead, as a `FakeWorkManager`.
- WorkManager's runtime behaviour is not modelled. This covers constraint
  evaluation, content-URI observation, backoff timing, running
  `SmsListenableWorker`, and what cancel-all does to pending or running work.
  The fake scheduler only logs the calls it receives, in order.
- Replacement of an earlier request by tag: the code calls plain `enqueue`,
  not a unique-work API. Only a unique-work call such as
  `enqueueUniquePeriodicWork` would replace an earlier request. The model
  therefore states that repeated enqueues submit repeated requests.
- Interval validation: the code does not check that `regularTimeoutSecs` is
  positive, and the library's clamping to its minimum interval is not
  visible. The model copies the value as read and adds no requirement on it.
- Library defaults: a setter the code does not call is recorded as `None`.
  This covers the regular request's backoff, initial delay and input data.
  The library's default values for these are not modelled.
- Request ids: the library gives every built request a fresh random id. The
  id is not modelled, so "equal" requests in this model are requests equal in
  every field the code sets; in the program two builds are distinct requests.
- The worker-class tag that WorkManager adds to every request on its own is
  not modelled; only the tag added by the code is.
- Time units: every duration in the code is given in seconds, so durations
  are plain integers of seconds. The 64-bit `long` range is not modelled
  because no arithmetic is done on these values.
- `Preferences`, `DataType` and `BackupType`: the preference store is modelled
  as the five values read from it, taken as one immutable snapshot per
  `WorkManagerBackupJobs` object. Changes to stored preferences between calls
  are not modelled. `Consts` is not part of this model, so the SMS and call-log
  provider URIs are two abstract values instead of their URI strings.
