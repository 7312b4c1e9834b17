/** The reminder table's row (reminder/model.go) and the values the worker and the users pass around. */
module ReminderModel {
  import opened Common
  import opened Text

  /** Nanoseconds; 0 stands for Go's zero time, which the store refuses. */
  type Time = int

  datatype Status = Pending | Processing | Sent | Failed | Canceled

  datatype Row = Row(
    id: int, key: string, userID: string, channel: string, payload: string,
    scheduleAt: Time, status: Status, retryCount: int, maxRetry: int, lastError: string,
    sentAt: Option<Time>, canceledAt: Option<Time>, createdAt: Time, updatedAt: Time)

  datatype CreateParams = CreateParams(
    key: string, userID: string, channel: string, payload: string, scheduleAt: Time, maxRetry: int)

  datatype StoreError = ErrInvalidReminder | ErrNotFound | ErrAlreadyExists | ErrStateConflict

  /** What the user-supplied notifier answers; an error carries its text. */
  datatype Outcome = NotifyOk | NotifyError(text: string)

  /** The error message the dispatcher stores: trimmed, and never empty. */
  function FailureMessage(text: string): (message: string)
    ensures message != ""
  {
    var trimmed := TrimSpace(text);
    if trimmed == "" then "notify failed" else trimmed
  }

  predicate ValidParams(p: CreateParams) {
    && TrimSpace(p.key) != ""
    && TrimSpace(p.userID) != ""
    && TrimSpace(p.channel) != ""
    && TrimSpace(p.payload) != ""
    && p.scheduleAt != 0
  }

  const DEFAULT_MAX_RETRY := 3

  function NewRow(id: int, p: CreateParams, now: Time): Row {
    Row(id, TrimSpace(p.key), TrimSpace(p.userID), TrimSpace(p.channel), p.payload, p.scheduleAt, Pending,
        0, if p.maxRetry <= 0 then DEFAULT_MAX_RETRY else p.maxRetry, "", None, None, now, now)
  }

  // ----- The UPDATE statements of the store, as functions of one row

  predicate Open(r: Row) {
    r.status == Pending || r.status == Failed
  }

  function ClaimRow(r: Row, now: Time): Row {
    r.(status := Processing, updatedAt := now)
  }

  function RequeueRow(r: Row, now: Time): Row {
    r.(status := Pending, updatedAt := now)
  }

  function SentRow(r: Row, at: Time): Row {
    r.(status := Sent, sentAt := Some(at), updatedAt := at)
  }

  function RetryRow(r: Row, retryCount: int, next: Time, message: string, now: Time): Row {
    r.(status := Pending, retryCount := retryCount, scheduleAt := next, lastError := message, updatedAt := now)
  }

  function FailedRow(r: Row, retryCount: int, message: string, now: Time): Row {
    r.(status := Failed, retryCount := retryCount, lastError := message, updatedAt := now)
  }

  function CanceledRow(r: Row, now: Time): Row {
    r.(status := Canceled, canceledAt := Some(now), updatedAt := now)
  }

  function RescheduledRow(r: Row, at: Time, now: Time): Row {
    r.(scheduleAt := at, status := Pending, retryCount := 0, lastError := "", sentAt := None, canceledAt := None,
       updatedAt := now)
  }
}
