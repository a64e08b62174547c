/** The submitter's writes, as they run against the table. */
module Submitter {
  import opened Options
  import opened Jobs
  import opened StoreSpec
  import opened PollerSpec
  import opened SubmitterSpec
  import Store

  /** The submission's statement and, if its move to SUBMITTED lost the race, the release of its claim. */
  function AfterSubmission(db: Db, j: Listed, reply: Reply, now: Time): Db {
    var stmt := SubmitStmt(j.id, j.row, reply, now);
    var db' := Exec(db, stmt, now);
    if stmt.Transition? && stmt.change.to == Submitted && !Succeeds(db.rows, stmt)
    then Exec(db', Release(j.id), now) else db'
  }

  /** There is something to send: payload bytes, or the magnet of a torrent. */
  predicate HasPayload(j: Row) {
    (j.blob.Some? && |j.blob.value| > 0) || (j.source == Torrent && j.magnet.Some? && |j.magnet.value| > 0)
  }

  /** TorBox is busy: status 429, or the account has all the downloads it may have. */
  predicate IsBusy(error: Error) {
    error.ApiError? && (error.status == 429 || error.code == "ACTIVE_LIMIT")
  }

  /** TorBox asked for a longer delay than the one drawn. */
  predicate IsLonger(error: Error, drawn: Time) {
    error.ApiError? && error.retryAfter > 0 && error.retryAfter > drawn
  }

  /** The row of a claimed job before and after its submission. */
  ghost predicate IsAnswered(r: Row, reply: Reply, r': Row, now: Time) {
    if !HasPayload(r) then
      r' == r.(state := Failed, lastError := Some("empty payload"), completedAt := Some(now), claimedAt := None,
               nextAttemptAt := None, updatedAt := now)
    else
      match reply
      case Created(queueID, id, torrentID, usenetID) =>
        r' == r.(state := Submitted, submittedAt := Some(now), claimedAt := None, lastError := None,
                 nextAttemptAt := None, updatedAt := now,
                 queueID := if queueID != 0 then Some(queueID) else r.queueID,
                 activeID := if id != 0 then Some(id)
                             else if torrentID != 0 then Some(torrentID)
                             else if usenetID != 0 then Some(usenetID)
                             else r.activeID)
      case Refused(error, text, jitter) =>
        if IsBusy(error) then
          r' == r.(lastError := Some(text), claimedAt := None, updatedAt := now,
                   nextAttemptAt := Some(now + if error.retryAfter > 300 + jitter then error.retryAfter
                                               else 300 + jitter))
        else if r.attempts + 1 >= 5 then
          r' == r.(state := Failed, attempts := r.attempts + 1, lastError := Some(text), completedAt := Some(now),
                   claimedAt := None, nextAttemptAt := None, updatedAt := now)
        else
          r' == r.(attempts := r.attempts + 1, lastError := Some(text), claimedAt := None, updatedAt := now,
                   nextAttemptAt := Some(now + if IsLonger(error, jitter) then error.retryAfter else jitter))
  }

  method SubmitOne(store: Store.Store, j: Listed, reply: Reply)
    modifies store
    ensures store.now == old(store.now)
    ensures store.Contents() == AfterSubmission(old(store.Contents()), j, reply, store.now)
    ensures j.id in old(store.rows) && old(store.rows)[j.id] == j.row && j.row.state == New ==>
              store.rows == old(store.rows)[j.id := store.rows[j.id]] &&
              IsAnswered(j.row, reply, store.rows[j.id], store.now)
  {
    hide Exec, ChangedRow, IsAnswered, HasPayload, Store.IsChanged;
    var now := store.now;
    if j.id in store.rows && store.rows[j.id] == j.row && j.row.state == New {
      SubmissionOutcome(store.Contents(), j, reply, now);
    }
    if HasNoPayload(j.row) {
      var _ := store.Transition(j.id, Ending(New, Failed, "empty payload", now).(clearClaimed := true));
      return;
    }
    if reply.Refused? {
      HandleSubmitFailure(store, j, reply);
      return;
    }
    var queueID, activeID := reply.queueID, reply.id;
    if activeID == 0 {
      if reply.torrentID != 0 {
        activeID := reply.torrentID;
      } else if reply.usenetID != 0 {
        activeID := reply.usenetID;
      }
    }
    var t := Move(New, Submitted).(clearClaimed := true);
    if queueID != 0 {
      t := t.(queueID := Some(queueID));
    }
    if activeID != 0 {
      t := t.(activeID := Some(activeID));
    }
    var ok := store.Transition(j.id, t);
    if !ok {
      store.Release(j.id);
    }
  }

  method HandleSubmitFailure(store: Store.Store, j: Listed, reply: Reply)
    requires reply.Refused? && !HasNoPayload(j.row)
    modifies store
    ensures store.now == old(store.now)
    ensures store.Contents() == AfterSubmission(old(store.Contents()), j, reply, store.now)
  {
    hide Exec, Succeeds;
    var now, error := store.now, reply.error;
    if error.Is429() || error.IsActiveLimit() {
      var delay := 5 * MINUTE + reply.jitter;
      if error.RetryAfter() > delay {
        delay := error.RetryAfter();
      }
      store.Reschedule(j.id, reply.text, now + delay);
      return;
    }
    var attempts := j.row.attempts + 1;
    if attempts >= MAX_SUBMIT_ATTEMPTS {
      var _ := store.Transition(j.id, Ending(New, Failed, reply.text, now).(clearClaimed := true, incAttempts := true));
      return;
    }
    var delay := reply.jitter;
    if error.RetryAfter() > 0 && error.RetryAfter() > delay {
      delay := error.RetryAfter();
    }
    store.AttemptFailure(j.id, reply.text, now + delay);
  }

  /**
    What a submission makes of the job it claimed: SUBMITTED with TorBox's ids exactly if there was something to
    send and TorBox took it; FAILED exactly if there was nothing, or TorBox refused for the fifth time for another
    reason than being busy; otherwise NEW, with its next attempt no sooner than drawn and asked for, and one more
    attempt counted unless TorBox was busy. No other row changes, and the claim is gone.
   */
  lemma SubmissionOutcome(db: Db, j: Listed, reply: Reply, now: Time)
    requires j.id in db.rows && db.rows[j.id] == j.row && j.row.state == New
    ensures var db' := AfterSubmission(db, j, reply, now);
            && j.id in db'.rows && db'.rows == db.rows[j.id := db'.rows[j.id]]
            && IsAnswered(j.row, reply, db'.rows[j.id], now)
            && db'.rows[j.id].claimedAt == None
            && (db'.rows[j.id].state == Submitted <==> HasPayload(j.row) && reply.Created?)
            && (db'.rows[j.id].state == Failed <==>
                  !HasPayload(j.row) || (reply.Refused? && !IsBusy(reply.error) && j.row.attempts >= 4))
            && db'.fired == db.fired + (if db'.rows[j.id].state == New then []
                                        else [Event(j.id, New, db'.rows[j.id].state)])
  {
    hide Observe;
    assert db.fired + [] == db.fired;
  }

  /**
    A job TorBox refused is not claimed again before its back-off is over: at least the drawn delay (five
    minutes more under back-pressure) and at least as long as TorBox asked for.
   */
  lemma BackoffIsHonoured(db: Db, j: Listed, reply: Reply, now: Time, t: Time)
    requires j.id in db.rows && db.rows[j.id] == j.row && j.row.state == New
    requires reply.Refused? && HasPayload(j.row)
    requires Claimable(AfterSubmission(db, j, reply, now).rows[j.id], t)
    ensures t >= now + reply.jitter
    ensures reply.error.ApiError? && reply.error.retryAfter > 0 ==> t >= now + reply.error.retryAfter
    ensures IsBusy(reply.error) ==> t >= now + 300 + reply.jitter
  {
    hide Observe, Fires;
  }

  /** A submission whose row was canceled or removed meanwhile changes no state and fires no hook. */
  lemma LateSubmissionIsHarmless(db: Db, j: Listed, reply: Reply, now: Time, id: string)
    requires j.id in db.rows ==> db.rows[j.id].state != New
    ensures var db' := AfterSubmission(db, j, reply, now);
            && db'.fired == db.fired && db'.rows.Keys == db.rows.Keys
            && (id in db.rows ==> db'.rows[id].state == db.rows[id].state)
            && (id in db.rows && id != j.id ==> db'.rows[id] == db.rows[id])
    ensures HasPayload(j.row) && reply.Created? && j.id in db.rows ==>
              AfterSubmission(db, j, reply, now).rows[j.id] ==
              db.rows[j.id].(claimedAt := None, updatedAt := now)
  {
    hide Observe;
    assert db.fired + [] == db.fired && db.fired + [] + [] == db.fired;
  }
}
