/**
 * The values a WorkManager work request is built from, as immutable data.
 *
 * The scheduling library assembles these with mutable builders; here each
 * builder chain becomes the construction of one value. An `Option` field is
 * `Some` exactly when the corresponding builder setter was called, and `None`
 * when the request was left with the library's own default.
 */
module WorkRequests {

  datatype Option<+T> = None | Some(value: T)

  /** The network condition a request waits for before it may run. */
  datatype NetworkType =
    | NotRequired
    | Connected
    | Unmetered
    | NotRoaming
    | Metered

  /** The content providers whose changes can trigger a one-shot request. */
  datatype ProviderUri = SmsProvider | CallLogProvider

  /** A content-URI trigger: run when `uri` (or, if the flag is set, anything below it) changes. */
  datatype ContentUriTrigger = ContentUriTrigger(uri: ProviderUri, triggerForDescendants: bool)

  datatype Constraints = Constraints(
    requiredNetworkType: NetworkType,
    contentUriTriggers: set<ContentUriTrigger>)

  datatype BackoffPolicy = Exponential | Linear

  /** How the scheduler spaces out retries of a failed one-shot request. */
  datatype BackoffCriteria = BackoffCriteria(policy: BackoffPolicy, delaySecs: int)

  /** A periodic request repeats every `repeatIntervalSecs`; a one-time request runs once. */
  datatype WorkKind = Periodic(repeatIntervalSecs: int) | OneTime

  datatype WorkRequest = WorkRequest(
    workerClass: string,
    kind: WorkKind,
    tag: string,
    constraints: Constraints,
    backoff: Option<BackoffCriteria>,
    initialDelaySecs: Option<int>,
    inputData: Option<map<string, string>>)
}
