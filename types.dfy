/** Data model shared by the background worker and the popup: outcomes, log entries,
    the persisted settings and the messages the popup sends to the worker. */
module Types {

  datatype Option<T> = None | Some(value: T)

  /** Maximum number of entries kept in `timingLogs`. */
  const MAX_LOG_ENTRIES: nat := 600

  /** The rejection message of the detector's timeout (the timer itself is 320000 ms). */
  const TIMEOUT_MESSAGE: string := "Timeout (60s)"

  const NO_URL_MESSAGE: string := "No URL configured"

  const INTERRUPTED_MESSAGE: string := "Download interrupted"

  /** The `type` field of an outcome: 'page', 'download', or '-' for the runner's own failures. */
  datatype Kind = Page | Download | Dash

  function KindName(k: Kind): string
  {
    match k
    case Page => "page"
    case Download => "download"
    case Dash => "-"
  }

  /** What one probe produced, before `appendLog` stamps it with a timestamp.
      `error` is None where the source writes `null`. */
  datatype Outcome = Outcome(success: bool, error: Option<string>, durationMs: int, fileSize: int, kind: Kind)

  /** A stored log entry: `{ timestamp: Date.now(), ...outcome }`. */
  datatype Entry = Entry(timestamp: int, outcome: Outcome)

  /** The persisted key-value store; None is a key that was never written. */
  datatype Store = Store(
    targetUrl: Option<string>,
    intervalSeconds: Option<int>,
    isRunning: Option<bool>,
    timingLogs: Option<seq<Entry>>)

  /** Messages the popup sends to the background worker (`message.action`). */
  datatype Message = Start(intervalSeconds: int) | Stop | RunNow | Unknown

  /** Regrouping a concatenation. */
  lemma Associative<T>(a: seq<T>, b: seq<T>, c: seq<T>)
    ensures (a + b) + c == a + (b + c)
  {
  }
}
