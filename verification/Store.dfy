/** The jobs table as the program drives it: each method is one statement or one transaction. */
module Store {
  import opened Options
  import opened Jobs
  import opened StoreSpec
  import opened PollerSpec

  /** The column assignments from which an UPDATE is put together. */
  datatype Assignment =
    | SetState(s: State)
    | StampUpdated
    | StampSubmitted
    | SetQueueID(n: int)
    | SetActiveID(n: int)
    | SetFolder(name: string)
    | SetLastError(e: Option<string>)
    | CountAttempt
    | SetNextAttempt(at: Option<Time>)
    | SetCompleted(t: Time)
    | DropBlob
    | DropClaim

  function Assign(r: Row, a: Assignment, now: Time): Row {
    match a
    case SetState(s) => r.(state := s)
    case StampUpdated => r.(updatedAt := now)
    case StampSubmitted => r.(submittedAt := Some(now))
    case SetQueueID(n) => r.(queueID := Some(n))
    case SetActiveID(n) => r.(activeID := Some(n))
    case SetFolder(name) => r.(folder := Some(name))
    case SetLastError(e) => r.(lastError := e)
    case CountAttempt => r.(attempts := r.attempts + 1)
    case SetNextAttempt(at) => r.(nextAttemptAt := at)
    case SetCompleted(t) => r.(completedAt := Some(t))
    case DropBlob => r.(blob := None)
    case DropClaim => r.(claimedAt := None)
  }

  /** The row after the assignments, in order. */
  function AssignAll(r: Row, sets: seq<Assignment>, now: Time): Row {
    if sets == [] then r else Assign(AssignAll(r, sets[..|sets| - 1], now), sets[|sets| - 1], now)
  }

  lemma AssignOneMore(r: Row, sets: seq<Assignment>, a: Assignment, now: Time)
    ensures AssignAll(r, sets + [a], now) == Assign(AssignAll(r, sets, now), a, now)
  {
    assert (sets + [a])[..|sets|] == sets;
  }

  lemma RemovedCount(rows: Table, gone: set<string>)
    requires gone <= rows.Keys
    ensures |rows - gone| == |rows| - |gone|
  {
    assert (rows - gone).Keys == rows.Keys - gone;
    assert |(rows - gone).Keys| == |rows - gone| && |rows.Keys| == |rows|;
  }

  lemma ReapedRows(rows: Table, before: Time, now: Time)
    ensures rows - (set id | id in rows && Reapable(rows[id], before)) == Apply(rows, Stmt.Reap(before), now)
    ensures Fires(rows, Stmt.Reap(before)) == []
  {
  }

  /** The rows a reaper keeps: all but the finished ones whose completion lies before the cutoff. */
  ghost predicate IsReaped(rows: Table, rows': Table, before: Time) {
    && rows'.Keys <= rows.Keys && (forall id :: id in rows' ==> rows'[id] == rows[id])
    && forall id :: id in rows ==>
         var r := rows[id];
         id !in rows' <==>
           (r.state == Ready || r.state == Failed || r.state == Canceled) &&
           r.completedAt.Some? && r.completedAt.value < before
  }

  lemma RestIsReaped(rows: Table, before: Time)
    ensures IsReaped(rows, rows - (set id | id in rows && Reapable(rows[id], before)), before)
  {
  }

  /** A NEW row that may be tried, and that nobody has claimed in the last five minutes. */
  predicate IsFree(r: Row, now: Time) {
    && r.state == New && (r.nextAttemptAt.None? || r.nextAttemptAt.value <= now)
    && (r.claimedAt.None? || r.claimedAt.value + 300 <= now)
  }

  /** The columns no change of state writes. */
  predicate SameOtherwise(r: Row, r': Row) {
    && r'.category == r.category && r'.filename == r.filename && r'.hash == r.hash && r'.magnet == r.magnet
    && r'.source == r.source && r'.createdAt == r.createdAt && r'.localPath == r.localPath
    && r'.bytesDownloaded == r.bytesDownloaded && r'.bytesTotal == r.bytesTotal
    && r'.pushoverSentAt == r.pushoverSentAt
  }

  /** A row before and after a change of state, column by column. */
  predicate IsChanged(r: Row, r': Row, t: Change, now: Time) {
    && r'.state == t.to && r'.updatedAt == now
    && r'.submittedAt == (if t.to == Submitted then Some(now) else r.submittedAt)
    && r'.queueID == (if t.queueID.Some? then t.queueID else r.queueID)
    && r'.activeID == (if t.activeID.Some? then t.activeID else r.activeID)
    && r'.folder == (if t.folder.Some? then t.folder else r.folder)
    && r'.lastError == t.lastError && r'.nextAttemptAt == t.nextAttemptAt
    && r'.attempts == r.attempts + (if t.incAttempts then 1 else 0)
    && r'.completedAt == (if t.completedAt.Some? then t.completedAt else r.completedAt)
    && r'.blob == (if t.clearBlob then None else r.blob)
    && r'.claimedAt == (if t.clearClaimed then None else r.claimedAt)
    && SameOtherwise(r, r')
  }

  lemma ChangeIsChanged(r: Row, t: Change, now: Time)
    ensures IsChanged(r, ChangedRow(r, t, now), t, now)
  {
  }

  /** The columns an insert leaves empty. */
  predicate IsEmptyOtherwise(r: Row) {
    && r.lastError.None? && r.claimedAt.None? && r.nextAttemptAt.None? && r.completedAt.None? && r.submittedAt.None?
    && r.queueID.None? && r.activeID.None? && r.folder.None? && r.localPath.None? && r.pushoverSentAt.None?
    && r.bytesDownloaded == 0 && r.bytesTotal == 0
  }

  class Store {
    var rows: Table
    var fired: seq<Event>
    ghost var moved: map<string, Time>
    /** What CURRENT_TIMESTAMP reads. */
    var now: Time

    constructor (now: Time)
      ensures Contents() == EMPTY_DB && this.now == now
    {
      rows, fired, moved, this.now := map[], [], map[], now;
    }

    ghost function Contents(): Db
      reads this
    {
      Db(rows, fired, moved)
    }

    /** Puts the assignments of a state change together, one optional column after the other. */
    method BuildUpdate(t: Change, ghost r: Row) returns (sets: seq<Assignment>)
      ensures AssignAll(r, sets, now) == ChangedRow(r, t, now)
    {
      sets := StartUpdate(t, r);
      sets := FinishUpdate(sets, t, r);
      hide AssignAll;
    }

    method StartUpdate(t: Change, ghost r: Row) returns (sets: seq<Assignment>)
      ensures AssignAll(r, sets, now) ==
              r.(state := t.to,
                 updatedAt := now,
                 submittedAt := if t.to == Submitted then Some(now) else r.submittedAt,
                 queueID := if t.queueID.Some? then t.queueID else r.queueID,
                 activeID := if t.activeID.Some? then t.activeID else r.activeID,
                 folder := if t.folder.Some? then t.folder else r.folder)
    {
      sets := Push([], SetState(t.to), r);
      assert AssignAll(r, [], now) == r;
      hide AssignAll;
      sets := Push(sets, StampUpdated, r);
      if t.to == Submitted { sets := Push(sets, StampSubmitted, r); }
      if t.queueID.Some? { sets := Push(sets, SetQueueID(t.queueID.value), r); }
      if t.activeID.Some? { sets := Push(sets, SetActiveID(t.activeID.value), r); }
      if t.folder.Some? { sets := Push(sets, SetFolder(t.folder.value), r); }
    }

    method FinishUpdate(start: seq<Assignment>, t: Change, ghost r: Row) returns (sets: seq<Assignment>)
      ensures var r1 := AssignAll(r, start, now);
              AssignAll(r, sets, now) ==
              r1.(lastError := t.lastError,
                  attempts := if t.incAttempts then r1.attempts + 1 else r1.attempts,
                  nextAttemptAt := t.nextAttemptAt,
                  completedAt := if t.completedAt.Some? then t.completedAt else r1.completedAt,
                  blob := if t.clearBlob then None else r1.blob,
                  claimedAt := if t.clearClaimed then None else r1.claimedAt)
    {
      hide AssignAll;
      sets := Push(start, SetLastError(t.lastError), r);
      if t.incAttempts { sets := Push(sets, CountAttempt, r); }
      sets := Push(sets, SetNextAttempt(t.nextAttemptAt), r);
      if t.completedAt.Some? { sets := Push(sets, SetCompleted(t.completedAt.value), r); }
      if t.clearBlob { sets := Push(sets, DropBlob, r); }
      if t.clearClaimed { sets := Push(sets, DropClaim, r); }
    }

    method Push(sets: seq<Assignment>, a: Assignment, ghost r: Row) returns (longer: seq<Assignment>)
      ensures AssignAll(r, longer, now) == Assign(AssignAll(r, sets, now), a, now)
    {
      longer := sets + [a];
      AssignOneMore(r, sets, a, now);
    }

    /** Runs the assignments on the row. */
    method RunUpdate(id: string, sets: seq<Assignment>)
      requires id in rows
      modifies this`rows
      ensures rows == old(rows)[id := AssignAll(old(rows)[id], sets, now)]
    {
      ghost var before := rows[id];
      var r := rows[id];
      for i := 0 to |sets|
        invariant r == AssignAll(before, sets[..i], now)
        invariant rows == old(rows)
      {
        AssignOneMore(before, sets[..i], sets[i], now);
        assert sets[..i] + [sets[i]] == sets[..i + 1];
        r := Assign(r, sets[i], now);
      }
      assert sets[..|sets|] == sets;
      rows := rows[id := r];
    }

    /** Compare and set: applies the change only if the row is still in the state the caller read. */
    method Transition(id: string, t: Change) returns (ok: bool)
      modifies this
      ensures now == old(now)
      ensures Contents() == Exec(old(Contents()), Stmt.Transition(id, t), now)
      ensures ok <==> CanTransition(t.from, t.to) && id in old(rows) && old(rows)[id].state == t.from
      ensures fired == if ok then old(fired) + [Event(id, t.from, t.to)] else old(fired)
      ensures !ok ==> rows == old(rows)
      ensures ok ==> rows == old(rows)[id := rows[id]] && IsChanged(old(rows)[id], rows[id], t, now)
    {
      hide IsChanged;
      ghost var before := rows;
      ok := CanTransition(t.from, t.to);
      if ok {
        ghost var r := if id in rows then rows[id] else FreshRow(NewJob("", "", "", None, None, Usenet, New), now);
        var sets := BuildUpdate(t, r);
        ok := id in rows && rows[id].state == t.from;
        if ok {
          RunUpdate(id, sets);
          ChangeIsChanged(r, t, now);
          fired := fired + [Event(id, t.from, t.to)];
        }
      }
      moved := Observe(before, rows, moved, now);
      hide AssignAll, ChangedRow, CanTransition;
      assert fired == fired + [];
    }

    /** One transaction: record the files, then move the row, and roll both back if it is not COMPLETED_TORBOX. */
    method MarkLocalReady(id: string, path: string, total: int) returns (ok: bool)
      modifies this
      ensures now == old(now)
      ensures Contents() == Exec(old(Contents()), Stmt.MarkLocalReady(id, path, total), now)
      ensures ok <==> id in old(rows) && old(rows)[id].state == CompletedTorbox
      ensures fired == if ok then old(fired) + [Event(id, CompletedTorbox, Ready)] else old(fired)
      ensures !ok ==> rows == old(rows)
      ensures ok ==> rows == old(rows)[id := old(rows)[id].(
                       state := Ready, localPath := Some(path), bytesDownloaded := total, bytesTotal := total,
                       completedAt := Some(now), updatedAt := now, lastError := None, nextAttemptAt := None,
                       blob := None, claimedAt := None)]
    {
      var before := rows;
      if id in rows {
        rows := rows[
          id := rows[id].(localPath := Some(path), bytesDownloaded := total, bytesTotal := total, updatedAt := now)];
      }
      ok := id in rows && rows[id].state == CompletedTorbox;
      if ok {
        rows := rows[id := rows[id].(state := Ready, completedAt := Some(now), updatedAt := now, nextAttemptAt := None,
                                     lastError := None, blob := None, claimedAt := None)];
        fired := fired + [Event(id, CompletedTorbox, Ready)];
      } else {
        rows := before;
      }
      moved := Observe(before, rows, moved, now);
    }

    method Insert(id: string, job: NewJob) returns (ok: bool)
      modifies this
      ensures now == old(now)
      ensures Contents() == Exec(old(Contents()), Stmt.Insert(id, job), now)
      ensures ok <==> id !in old(rows)
      ensures !ok ==> rows == old(rows)
      ensures ok ==> rows == old(rows)[id := rows[id]] &&
                     var r := rows[id];
                     && r.category == job.category && r.filename == job.filename && r.hash == job.hash
                     && r.blob == job.blob && r.magnet == job.magnet && r.source == job.source
                     && r.state == job.state && r.attempts == 0 && r.createdAt == now && r.updatedAt == now
                     && IsEmptyOtherwise(r)
    {
      ghost var before := rows;
      ok := id !in rows;
      if ok {
        rows := rows[id := FreshRow(job, now)];
      }
      moved := Observe(before, rows, moved, now);
      assert fired == fired + [];
    }

    method Get(id: string) returns (j: Option<Listed>)
      ensures j == if id in rows then Some(Listed(id, rows[id])) else None
    {
      j := if id in rows then Some(Listed(id, rows[id])) else None;
    }

    method AttemptFailure(id: string, reason: string, nextAt: Time)
      modifies this
      ensures now == old(now)
      ensures Contents() == Exec(old(Contents()), Stmt.AttemptFailure(id, reason, nextAt), now)
      ensures rows == if id in old(rows)
                      then old(rows)[id := old(rows)[id].(
                             attempts := old(rows)[id].attempts + 1, lastError := Some(reason),
                             nextAttemptAt := Some(nextAt), claimedAt := None, updatedAt := now)]
                      else old(rows)
    {
      ghost var before := rows;
      if id in rows {
        var r := rows[id];
        rows := rows[id := r.(attempts := r.attempts + 1, lastError := Some(reason), nextAttemptAt := Some(nextAt),
                              claimedAt := None, updatedAt := now)];
      }
      moved := Observe(before, rows, moved, now);
      assert fired == fired + [];
    }

    method Reschedule(id: string, reason: string, nextAt: Time)
      modifies this
      ensures now == old(now)
      ensures Contents() == Exec(old(Contents()), Stmt.Reschedule(id, reason, nextAt), now)
      ensures rows == if id in old(rows)
                      then old(rows)[id := old(rows)[id].(
                             lastError := Some(reason), nextAttemptAt := Some(nextAt), claimedAt := None,
                             updatedAt := now)]
                      else old(rows)
    {
      ghost var before := rows;
      if id in rows {
        rows := rows[id := rows[id].(lastError := Some(reason), nextAttemptAt := Some(nextAt),
                                     claimedAt := None, updatedAt := now)];
      }
      moved := Observe(before, rows, moved, now);
      assert fired == fired + [];
    }

    method Release(id: string)
      modifies this
      ensures now == old(now)
      ensures Contents() == Exec(old(Contents()), Stmt.Release(id), now)
      ensures rows == if id in old(rows)
                      then old(rows)[id := old(rows)[id].(claimedAt := None, updatedAt := now)]
                      else old(rows)
    {
      ghost var before := rows;
      if id in rows {
        rows := rows[id := rows[id].(claimedAt := None, updatedAt := now)];
      }
      moved := Observe(before, rows, moved, now);
      assert fired == fired + [];
    }

    method SetLocalProgress(id: string, downloaded: int, total: int)
      modifies this
      ensures now == old(now)
      ensures Contents() == Exec(old(Contents()), Stmt.SetLocalProgress(id, downloaded, total), now)
      ensures rows == if id in old(rows)
                      then old(rows)[id := old(rows)[id].(
                             bytesDownloaded := downloaded, bytesTotal := total, updatedAt := now)]
                      else old(rows)
    {
      ghost var before := rows;
      if id in rows {
        rows := rows[id := rows[id].(bytesDownloaded := downloaded, bytesTotal := total, updatedAt := now)];
      }
      moved := Observe(before, rows, moved, now);
      assert fired == fired + [];
    }

    method SetTorboxIDs(id: string, activeID: Option<int>, folder: Option<string>)
      modifies this
      ensures now == old(now)
      ensures Contents() == Exec(old(Contents()), Stmt.SetTorboxIDs(id, activeID, folder), now)
      ensures id !in old(rows) || (activeID.None? && folder.None?) ==> rows == old(rows)
      ensures id in old(rows) && (activeID.Some? || folder.Some?) ==>
                rows == old(rows)[id := old(rows)[id].(
                          activeID := if activeID.Some? then activeID else old(rows)[id].activeID,
                          folder := if folder.Some? then folder else old(rows)[id].folder, updatedAt := now)]
    {
      ghost var before := rows;
      if (activeID.Some? || folder.Some?) && id in rows {
        var r := rows[id].(updatedAt := now);
        if activeID.Some? { r := r.(activeID := activeID); }
        if folder.Some? { r := r.(folder := folder); }
        rows := rows[id := r];
      }
      moved := Observe(before, rows, moved, now);
      assert fired == fired + [];
    }

    /** The notifier's stamp, which it gets at most once. */
    method MarkPushoverSent(id: string) returns (ok: bool)
      modifies this
      ensures now == old(now)
      ensures Contents() == Exec(old(Contents()), Stmt.MarkPushoverSent(id), now)
      ensures ok <==> id in old(rows) && old(rows)[id].pushoverSentAt.None?
      ensures rows == if ok then old(rows)[id := old(rows)[id].(pushoverSentAt := Some(now), updatedAt := now)]
                      else old(rows)
    {
      ghost var before := rows;
      ok := id in rows && rows[id].pushoverSentAt.None?;
      if ok {
        rows := rows[id := rows[id].(pushoverSentAt := Some(now), updatedAt := now)];
      }
      moved := Observe(before, rows, moved, now);
      assert fired == fired + [];
    }

    method Delete(id: string) returns (ok: bool)
      modifies this
      ensures now == old(now)
      ensures Contents() == Exec(old(Contents()), Stmt.Delete(id), now)
      ensures rows == old(rows) - {id} && (ok <==> id in old(rows))
    {
      ghost var before := rows;
      ok := id in rows;
      rows := rows - {id};
      moved := Observe(before, rows, moved, now);
      assert fired == fired + [];
    }

    /** Drops finished rows completed before the cutoff and says how many. */
    method Reap(before: Time) returns (n: nat)
      modifies this
      ensures now == old(now)
      ensures Contents() == Exec(old(Contents()), Stmt.Reap(before), now)
      ensures n == |old(rows)| - |rows|
      ensures IsReaped(old(rows), rows, before)
    {
      hide Apply, Reapable, Observe, IsReaped, Fires;
      var all := rows;
      var gone := set id | id in rows && Reapable(rows[id], before);
      rows := rows - gone;
      n := |gone|;
      moved := Observe(all, rows, moved, now);
      assert fired == fired + [];
      RemovedCount(all, gone);
      ReapedRows(all, before, now);
      RestIsReaped(all, before);
    }

    /** The oldest of some rows. */
    method Oldest(ids: set<string>) returns (oldest: string)
      requires ids != {} && ids <= rows.Keys
      ensures oldest in ids
      ensures forall id :: id in ids ==> rows[oldest].createdAt <= rows[id].createdAt
    {
      oldest :| oldest in ids;
      var rest := ids - {oldest};
      while rest != {}
        invariant rest <= ids && oldest in ids
        invariant forall id :: id in ids - rest ==> rows[oldest].createdAt <= rows[id].createdAt
        decreases rest
      {
        var id :| id in rest;
        rest := rest - {id};
        if rows[id].createdAt < rows[oldest].createdAt {
          oldest := id;
        }
      }
    }

    /** SELECT ... ORDER BY created_at ASC LIMIT ?; a limit that is not positive means 1000. */
    method Select(keep: Row -> bool, limit: int) returns (ids: seq<string>)
      ensures IsListing(rows, keep, ids, if limit <= 0 then 1000 else limit)
    {
      var most := if limit <= 0 then 1000 else limit;
      ghost var all := set id | id in rows && keep(rows[id]);
      var rest := set id | id in rows && keep(rows[id]);
      ids := [];
      while rest != {} && |ids| < most
        invariant |ids| <= most
        invariant rest <= all && forall id :: id in all <==> id in rest || id in ids
        invariant forall i :: 0 <= i < |ids| ==> ids[i] in all && ids[i] !in rest
        invariant Distinct(ids)
        invariant forall i, j :: 0 <= i < j < |ids| ==> rows[ids[i]].createdAt <= rows[ids[j]].createdAt
        invariant forall i, id :: 0 <= i < |ids| && id in rest ==> rows[ids[i]].createdAt <= rows[id].createdAt
        decreases rest
      {
        var id := Oldest(rest);
        ids := ids + [id];
        rest := rest - {id};
      }
    }

    method ListByStates(states: set<State>, limit: int) returns (jobs: seq<Listed>)
      ensures IsListing(rows, In(states), IdsOf(jobs), if limit <= 0 then 1000 else limit)
      ensures jobs == Snapshots(rows, IdsOf(jobs))
      ensures forall i :: 0 <= i < |jobs| ==> rows[jobs[i].id].state in states
      ensures |jobs| < (if limit <= 0 then 1000 else limit) ==>
                forall id :: id in rows && rows[id].state in states ==> id in IdsOf(jobs)
    {
      var ids := Select(In(states), limit);
      jobs := Snapshots(rows, ids);
      assert IdsOf(jobs) == ids;
    }

    /** As ListByStates, restricted to rows whose next attempt is due. */
    method ListDueByStates(states: set<State>, limit: int) returns (jobs: seq<Listed>)
      ensures IsListing(rows, DueIn(states, now), IdsOf(jobs), if limit <= 0 then 1000 else limit)
      ensures jobs == Snapshots(rows, IdsOf(jobs))
      ensures forall i :: 0 <= i < |jobs| ==>
                var r := rows[jobs[i].id];
                r.state in states && (r.nextAttemptAt.None? || r.nextAttemptAt.value <= now)
      ensures |jobs| < (if limit <= 0 then 1000 else limit) ==>
                forall id :: id in rows && rows[id].state in states &&
                             (rows[id].nextAttemptAt.None? || rows[id].nextAttemptAt.value <= now) ==>
                  id in IdsOf(jobs)
    {
      var ids := Select(DueIn(states, now), limit);
      jobs := Snapshots(rows, ids);
      assert IdsOf(jobs) == ids;
    }

    /** Leases the oldest claimable rows, `limit` at most, to the caller, who gets them in any order. */
    method Claim(limit: nat) returns (jobs: seq<Listed>, ghost chosen: seq<string>)
      modifies this
      ensures now == old(now)
      ensures var t := now; limit > 0 ==> IsListing(old(rows), (r: Row) => Claimable(r, t), chosen, limit)
      ensures limit == 0 ==> chosen == []
      ensures multiset(IdsOf(jobs)) == multiset(chosen)
      ensures Contents() == Exec(old(Contents()), Stmt.Claim(chosen), now)
      ensures forall i :: 0 <= i < |jobs| ==> jobs[i].id in rows && jobs[i].row == rows[jobs[i].id]
      ensures forall id :: id in chosen ==> id in old(rows) && IsFree(old(rows)[id], now)
      ensures |chosen| < limit ==> forall id :: id in old(rows) && IsFree(old(rows)[id], now) ==> id in chosen
      ensures rows.Keys == old(rows).Keys
      ensures forall id :: id in rows ==>
                rows[id] ==
                if id in chosen then old(rows)[id].(claimedAt := Some(now), updatedAt := now) else old(rows)[id]
    {
      var t := now;
      var ids: seq<string> := [];
      if limit > 0 {
        ids := Select((r: Row) => Claimable(r, t), limit);
      }
      var before := rows;
      Stamp(ids);
      assert rows == Apply(before, Stmt.Claim(ids), now);
      moved := Observe(before, rows, moved, now);
      assert fired == fired + [];
      jobs := Snapshots(rows, ids);
      assert IdsOf(jobs) == ids;
      chosen := ids;
    }

    /** The claim stamp on the rows chosen. */
    method Stamp(ids: seq<string>)
      requires forall i :: 0 <= i < |ids| ==> ids[i] in rows
      modifies this`rows
      ensures rows.Keys == old(rows).Keys
      ensures forall id :: id in rows ==>
                rows[id] ==
                if id in ids then old(rows)[id].(claimedAt := Some(now), updatedAt := now) else old(rows)[id]
    {
      var before := rows;
      for i := 0 to |ids|
        invariant rows.Keys == before.Keys
        invariant forall id :: id in rows ==>
          rows[id] == if id in ids[..i] then before[id].(claimedAt := Some(now), updatedAt := now) else before[id]
      {
        rows := rows[ids[i] := before[ids[i]].(claimedAt := Some(now), updatedAt := now)];
      }
      assert ids[..|ids|] == ids;
    }
  }
}
