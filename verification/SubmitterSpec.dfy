/** The submitter's answer to each outcome of a TorBox create call. */
module SubmitterSpec {
  import opened Options
  import opened Jobs
  import opened StoreSpec

  const MAX_SUBMIT_ATTEMPTS := 5

  datatype Error =
    | ApiError(status: int, code: string, retryAfter: Time)
    | OtherError
  {
    predicate Is429() { ApiError? && status == 429 }

    predicate IsActiveLimit() { ApiError? && code == "ACTIVE_LIMIT" }

    function RetryAfter(): Time { if ApiError? then retryAfter else 0 }
  }

  /** What TorBox answers; `jitter` is the random delay the back-off draws. */
  datatype Reply =
    | Created(queueID: int, id: int, torrentID: int, usenetID: int)
    | Refused(error: Error, text: string, jitter: Time)

  function Max(a: Time, b: Time): Time { if a > b then a else b }

  /** There is nothing to send: no magnet for a torrent and no payload bytes. */
  predicate HasNoPayload(j: Row) {
    j.blob.GetOr([]) == [] && !(j.source == Torrent && j.magnet.GetOr("") != "")
  }

  function NonZero(id: int): Option<int> {
    if id != 0 then Some(id) else None
  }

  /** The id the poller will look for. */
  function ActiveID(r: Reply): int
    requires r.Created?
  {
    if r.id != 0 then r.id else if r.torrentID != 0 then r.torrentID else r.usenetID
  }

  /** The statement with which one submission ends. */
  function SubmitStmt(id: string, j: Row, reply: Reply, now: Time): Stmt {
    if HasNoPayload(j) then
      Transition(id, Ending(New, Failed, "empty payload", now).(clearClaimed := true))
    else
      match reply
      case Created(queueID, _, _, _) =>
        Transition(id, Move(New, Submitted).(queueID := NonZero(queueID), activeID := NonZero(ActiveID(reply)),
                                             clearClaimed := true))
      case Refused(error, text, jitter) =>
        if error.Is429() || error.IsActiveLimit() then
          Reschedule(id, text, now + Max(5 * MINUTE + jitter, error.RetryAfter()))
        else if j.attempts + 1 >= MAX_SUBMIT_ATTEMPTS then
          Transition(id, Ending(New, Failed, text, now).(clearClaimed := true, incAttempts := true))
        else
          AttemptFailure(id, text, now + if error.RetryAfter() > 0 then Max(jitter, error.RetryAfter()) else jitter)
  }
}
