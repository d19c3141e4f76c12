/** The vocabulary shared by the server, its store, its broker and the runner. */
module Models {

  datatype Option<+T> = None | Some(value: T) {
    function GetOr(default: T): T {
      match this
      case None => default
      case Some(v) => v
    }
  }

  type JobId = string

  type UInt8 = n: int | 0 <= n < 256

  /** A point in time; 0 stands for the zero time. */
  type Time = int

  /** A decoded JSON object whose values stay encoded. A nil map is `None`. */
  type Fields = map<string, string>

  /** The status strings the code distinguishes. `Unset` is "", `Completed` is "COMPLETED" (which
      only the runner knows), and `Other` is any string not named here. */
  datatype Status =
    | Unset | Pending | Running | Passed | Failed | Error | Skipped | Cancelled
    | AbortRequested | Aborted | SystemError | Completed | Other(text: string)

  /** The server's notion of a finished job. */
  predicate IsTerminal(s: Status) {
    s in {Passed, Failed, Error, Skipped, Cancelled, Aborted, SystemError}
  }

  /** The statuses that make get-next refuse a delivered job. */
  predicate Bars(s: Status) {
    IsTerminal(s) || s == Running || s == AbortRequested
  }

  /** What happened to one call to the broker or the database. A call that reports an error may
      still have taken effect (`FailsAfter`). */
  datatype Outcome = Succeeds | FailsBefore | FailsAfter

  datatype TestResult = TestResult(
    jobId: JobId, status: Status, project: string, details: Option<Fields>, priority: UInt8,
    enqueuedAt: Time, logs: string, messages: Option<seq<string>>, duration: real,
    startedAt: Time, endedAt: Time, screenshots: Option<seq<string>>, videos: Option<seq<string>>,
    passrate: string, progress: string, metadata: Option<Fields>)

  datatype ProgressUpdate = ProgressUpdate(
    status: Option<Status>, logsChunk: Option<string>, messagesChunk: Option<seq<string>>,
    passrate: Option<string>, progress: Option<string>)

  datatype ProjectQueueOverview = ProjectQueueOverview(
    project: string, pendingJobs: nat, runningSuites: nat, highestPriority: Option<UInt8>)

  lemma {:induction false} SubsetSize<T>(a: set<T>, b: set<T>)
    requires a <= b
    ensures |a| <= |b|
    decreases |a|
  {
    if |a| > 0 {
      var x :| x in a;
      SubsetSize(a - {x}, b - {x});
    }
  }
}
