/**
 * The payloads the server pushes to the dashboard, one builder per method of
 * SignalRHelper. Each builder returns the one event its method sends; the
 * hub transport itself is not modelled, only the group and the payload.
 * Timestamps (`DateTime.UtcNow`) are left out.
 */
module SignalR {

  /** A `BackupProgress` payload. */
  datatype Progress = Progress(repo: string, current: int, total: int, status: string, message: string)

  /**
   * The `Percentage` field of a summary: 0 when there is no total, otherwise
   * `(int)((double)current / total * 100)`, kept symbolic because its value
   * depends on floating-point rounding.
   */
  datatype Percentage = NoTotal | TruncatedRatio(numerator: int, denominator: int)

  /** A `BackupSummary` payload. */
  datatype Summary = Summary(current: int, total: int, success: int, failed: int, skipped: int,
                             percentage: Percentage)

  datatype Payload =
    | ProgressPayload(progress: Progress)
    | StatusPayload(status: string, message: string)
    | SummaryPayload(summary: Summary)
    | FinishedPayload(total: int, success: int, failed: int, skipped: int, message: string)
    | ErrorPayload(message: string, error: string)

  /** One hub message: the group it is addressed to and what it carries. */
  datatype Event = Event(group: string, payload: Payload)

  const FinishedMessage := "Backup process completed successfully"
  const ErrorMessage := "Backup process failed"

  /** The client-side method name each payload is sent under. */
  function HubMethod(p: Payload): string
  {
    match p
    case ProgressPayload(_) => "BackupProgress"
    case StatusPayload(_, _) => "BackupStatus"
    case SummaryPayload(_) => "BackupSummary"
    case FinishedPayload(_, _, _, _, _) => "BackupFinished"
    case ErrorPayload(_, _) => "BackupError"
  }

  /** The terminal events of a job: exactly one of them ends every job. */
  predicate IsTerminal(e: Event)
  {
    e.payload.FinishedPayload? || e.payload.ErrorPayload?
  }

  function SendProgress(jobId: string, repo: string, current: int, total: int, status: string,
                        message: string := ""): (e: Event)
    ensures e.group == jobId && HubMethod(e.payload) == "BackupProgress"
    ensures e.payload.progress == Progress(repo, current, total, status, message)
  {
    Event(jobId, ProgressPayload(Progress(repo, current, total, status, message)))
  }

  function SendStatusUpdate(jobId: string, status: string, message: string): (e: Event)
    ensures e.group == jobId && HubMethod(e.payload) == "BackupStatus"
    ensures e.payload.status == status && e.payload.message == message
  {
    Event(jobId, StatusPayload(status, message))
  }

  function SendSummaryUpdate(jobId: string, current: int, total: int, success: int, failed: int,
                             skipped: int): (e: Event)
    ensures e.group == jobId && HubMethod(e.payload) == "BackupSummary"
    ensures var s := e.payload.summary;
      s.current == current && s.total == total &&
      s.success == success && s.failed == failed && s.skipped == skipped
    ensures e.payload.summary.percentage.NoTotal? <==> total <= 0
    ensures e.payload.summary.percentage.TruncatedRatio? ==>
      e.payload.summary.percentage == TruncatedRatio(current, total)
  {
    Event(jobId, SummaryPayload(Summary(current, total, success, failed, skipped,
      if total > 0 then TruncatedRatio(current, total) else NoTotal)))
  }

  /**
   * `SendFinishUpdate`; `ex` is the message of the exception passed in, which
   * the source dereferences only when `isError` holds.
   */
  function SendFinishUpdate(jobId: string := "", total: int := 0, success: int := 0, failed: int := 0,
                            skipped: int := 0, isError: bool := false, ex: string := ""): (e: Event)
    ensures e.group == jobId && IsTerminal(e)
    ensures HubMethod(e.payload) == (if isError then "BackupError" else "BackupFinished")
    ensures isError ==> e.payload == ErrorPayload(ErrorMessage, ex)
    ensures !isError ==> e.payload == FinishedPayload(total, success, failed, skipped, FinishedMessage)
  {
    if isError then Event(jobId, ErrorPayload(ErrorMessage, ex))
    else Event(jobId, FinishedPayload(total, success, failed, skipped, FinishedMessage))
  }

  /** A progress event sent without a message carries the empty one. */
  lemma ProgressMessageDefault(jobId: string, repo: string, current: int, total: int, status: string)
    ensures SendProgress(jobId, repo, current, total, status).payload.progress.message == ""
  {
  }

  /** An error finish sent without a job id goes to the group named by the empty string. */
  lemma ErrorWithoutJobIdGoesToEmptyGroup(ex: string)
    ensures SendFinishUpdate(isError := true, ex := ex).group == ""
    ensures SendFinishUpdate(isError := true, ex := ex).payload.error == ex
  {
  }
}
