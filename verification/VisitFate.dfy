/** What one visit of the poller, and one pass, make of a job, in terms of TorBox's entry and the clock. */
module VisitFate {
  import opened Options
  import opened Jobs
  import opened StoreSpec
  import opened PollerSpec
  import opened Matching
  import PollPass
  import Poller
  import Text

  // ----- What an entry says -----

  /** TorBox has given the download up. */
  predicate SaysFailed(it: Item) {
    var s := Text.Lower(it.downloadState);
    "failed" <= s || "error" <= s || "missing_files" <= s || "expired" <= s
  }

  /** TorBox has the files. */
  predicate SaysDone(it: Item) {
    var s := Text.Lower(it.downloadState);
    it.finished || "completed" <= s || "cached" <= s || "uploading" <= s
  }

  /** TorBox has begun to download. */
  predicate SaysBegun(it: Item) {
    Text.Lower(it.downloadState) == "downloading" || it.speed > 0 || it.progressing
  }

  lemma EntrySays(it: Item)
    ensures it.IsFailure() <==> SaysFailed(it)
    ensures it.IsTerminal() <==> SaysDone(it)
    ensures it.HasStarted() <==> SaysBegun(it)
  {
    hide Text.Lower;
    var s := Text.Lower(it.downloadState);
    var failed, done := ["failed", "error", "missing_files", "expired"], ["completed", "cached", "uploading"];
    assert failed[0] in failed && failed[1] in failed && failed[2] in failed && failed[3] in failed;
    assert done[0] in done && done[1] in done && done[2] in done;
    assert forall p :: p in failed ==> p == "failed" || p == "error" || p == "missing_files" || p == "expired";
    assert forall p :: p in done ==> p == "completed" || p == "cached" || p == "uploading";
  }

  // ----- What a visit writes -----

  /** The row with the ids the entry brings. */
  function Learned(r: Row, it: Item, now: Time): Row {
    if (it.id == 0 || r.activeID == Some(it.id)) && (it.name == "" || r.folder == Some(it.name)) then r
    else r.(activeID := if it.id != 0 then Some(it.id) else r.activeID,
            folder := if it.name != "" then Some(it.name) else r.folder,
            updatedAt := now)
  }

  /** The row in another state of its life. */
  function Turned(r: Row, to: State, now: Time): Row {
    r.(state := to, updatedAt := now, lastError := None, nextAttemptAt := None)
  }

  function Failing(r: Row, reason: string, now: Time): Row {
    r.(state := Failed, updatedAt := now, completedAt := Some(now), lastError := Some(reason), nextAttemptAt := None)
  }

  /** The entry brings another byte count than the copy has. */
  predicate BringsProgress(j: Row, it: Item) {
    it.size > 0 && it.done != j.bytesDownloaded
  }

  /** The row with the byte counts the entry brings. */
  function Counted(r: Row, j: Row, it: Item, now: Time): Row {
    if BringsProgress(j, it) then r.(bytesDownloaded := it.done, bytesTotal := it.size, updatedAt := now) else r
  }

  /** Downloading for over 30 minutes, the last of them without a new byte. */
  predicate HasStalled(j: Row, it: Item, now: Time) {
    && Text.Lower(it.downloadState) == "downloading" && !BringsProgress(j, it)
    && now - (if j.submittedAt.Some? then j.submittedAt.value else j.createdAt) > 1800
    && now - j.updatedAt > 1800
  }

  /** With TorBox for over 24 hours. */
  predicate IsOverdue(j: Row, now: Time) {
    now - (if j.submittedAt.Some? then j.submittedAt.value else j.createdAt) > 86400
  }

  const STALLED := "torbox stalled: no progress (missing usenet articles)"
  const OVERDUE := "polling timeout: torbox did not complete in 24h"
  const LOST := "torbox lost the download (absent from mylist)"

  /** The table once the job `id`, listed as `j`, was failed, if it is still in the state listed. */
  function FailedIn(rows: Table, id: string, j: Row, reason: string, now: Time): Table
    requires id in rows
  {
    if rows[id].state == j.state then rows[id := Failing(rows[id], reason, now)] else rows
  }

  lemma FailsIn(rows: Table, id: string, j: Row, reason: string, now: Time)
    requires id in rows && j.state.InFlight()
    ensures Apply(rows, Transition(id, Ending(j.state, Failed, reason, now)), now) == FailedIn(rows, id, j, reason, now)
  {
  }

  lemma CloseIs(rows: Table, v: Visit, now: Time)
    requires v.id in rows && v.item.Some? && v.pc.Close? && v.j.state.InFlight()
    ensures Visiting(rows, v, now) ==
            FailedIn(rows, v.id, v.j, if v.pc.verdict == Stalled then STALLED else OVERDUE, now)
  {
    FailsIn(rows, v.id, v.j, Reason(v.pc.verdict), now);
    hide Apply, FailedIn, Ending;
  }

  lemma CeilingsAre(rows: Table, v: Visit, now: Time)
    requires v.id in rows && v.item.Some? && v.pc.Ceilings? && v.j.state.InFlight()
    requires !BringsProgress(v.j, v.item.value)
    ensures Visiting(rows, v, now) ==
            if HasStalled(v.j, v.item.value, now) then FailedIn(rows, v.id, v.j, STALLED, now)
            else if IsOverdue(v.j, now) then FailedIn(rows, v.id, v.j, OVERDUE, now)
            else rows
  {
    CloseIs(rows, v.(pc := Close(Stalled)), now);
    CloseIs(rows, v.(pc := Close(TimedOut)), now);
    hide FailedIn, Text.Lower, Apply;
    assert Perform(rows, VisitStmt(v, now), now) == rows;
  }

  /** What the ceilings make of a job listed as `j`. */
  function AtCeilings(rows: Table, id: string, j: Row, it: Item, now: Time): Table
    requires id in rows
  {
    if HasStalled(j, it, now) then FailedIn(rows, id, j, STALLED, now)
    else if IsOverdue(j, now) then FailedIn(rows, id, j, OVERDUE, now)
    else rows
  }

  lemma ProgressIs(rows: Table, v: Visit, now: Time)
    requires v.id in rows && v.item.Some? && v.pc.Progress? && v.j.state.InFlight()
    ensures var it := v.item.value;
            Visiting(rows, v, now) ==
            AtCeilings(rows[v.id := Counted(rows[v.id], v.j, it, now)], v.id, v.j, it, now)
  {
    var it := v.item.value;
    var rows1 := rows[v.id := Counted(rows[v.id], v.j, it, now)];
    assert Perform(rows, VisitStmt(v, now), now) == rows1;
    var v1 := VisitNext(v, now).value;
    CeilingsAre(rows1, v1, now);
    hide Text.Lower, Apply, Visiting;
    assert HasStalled(v1.j, it, now) == HasStalled(v.j, it, now);
    assert FailedIn(rows1, v.id, v1.j, STALLED, now) == FailedIn(rows1, v.id, v.j, STALLED, now);
  }

  /** The job is moved to DOWNLOADING when the entry shows a beginning. */
  function Started(r: Row, j: Row, it: Item, now: Time): Row {
    if j.state == Submitted && SaysBegun(it) then Turned(r, Downloading, now) else r
  }

  lemma BeginIs(rows: Table, v: Visit, now: Time)
    requires v.id in rows && v.item.Some? && v.pc.Begin? && v.j.state.InFlight() && rows[v.id].state == v.j.state
    ensures var it := v.item.value; var r := Started(rows[v.id], v.j, it, now);
            Visiting(rows, v, now) ==
            AtCeilings(rows[v.id := Counted(r, v.j, it, now)], v.id, v.j, it, now)
  {
    var it := v.item.value;
    var rows1 := rows[v.id := Started(rows[v.id], v.j, it, now)];
    EntrySays(it);
    assert Perform(rows, VisitStmt(v, now), now) == rows1;
    var v1 := VisitNext(v, now).value;
    ProgressIs(rows1, v1, now);
    hide Text.Lower, Apply, Visiting, AtCeilings, SaysBegun, Counted;
    var r := Started(rows[v.id], v.j, it, now);
    assert rows1[v.id := Counted(r, v.j, it, now)] == rows[v.id := Counted(r, v.j, it, now)];
  }

  /** The row of a job still downloading once the visit has recorded what the entry brings. */
  function Recorded(r: Row, it: Item, now: Time): Row {
    Counted(Started(Learned(r, it, now), r, it, now), r, it, now)
  }

  lemma JudgeIs(rows: Table, v: Visit, now: Time)
    requires v.id in rows && v.item.Some? && v.pc.Judge? && v.j.state.InFlight() && rows[v.id].state == v.j.state
    ensures var it := v.item.value;
            Visiting(rows, v, now) ==
            if SaysFailed(it) then rows[v.id := Failing(rows[v.id], "torbox state: " + it.downloadState, now)]
            else if SaysDone(it) then rows[v.id := Turned(rows[v.id], CompletedTorbox, now)]
            else AtCeilings(rows[v.id := Counted(Started(rows[v.id], v.j, it, now), v.j, it, now)], v.id, v.j, it, now)
  {
    var it := v.item.value;
    EntrySays(it);
    BeginIs(rows, v.(pc := Begin), now);
    hide Text.Lower, AtCeilings, Counted, Started, SaysFailed, SaysDone, SaysBegun, Text.HasAnyPrefix;
  }

  /**
    What a visit makes of a job it finds in TorBox's list: FAILED with TorBox's own word for it exactly if TorBox
    has given up; otherwise COMPLETED_TORBOX exactly if TorBox has the files; otherwise it is failed only if it
    has stalled or is overdue, and not just begun; in every other case ids, beginning and bytes are recorded.
   */
  lemma EntryDecides(rows: Table, id: string, it: Item, now: Time)
    requires id in rows && (rows[id].state == Submitted || rows[id].state == Downloading)
    ensures var r := rows[id]; var recorded := Recorded(r, it, now);
            Visiting(rows, Start(Listed(id, r), Some(it)), now) ==
            rows[id :=
              if SaysFailed(it) then Failing(Learned(r, it, now), "torbox state: " + it.downloadState, now)
              else if SaysDone(it) then Turned(Learned(r, it, now), CompletedTorbox, now)
              else if r.state == Submitted && SaysBegun(it) then recorded
              else if HasStalled(r, it, now) then Failing(recorded, STALLED, now)
              else if IsOverdue(r, now) then Failing(recorded, OVERDUE, now)
              else recorded]
  {
    var r := rows[id];
    var v := Start(Listed(id, r), Some(it));
    var rows1 := rows[id := Learned(r, it, now)];
    assert Perform(rows, VisitStmt(v, now), now) == rows1;
    JudgeIs(rows1, v.(pc := Judge), now);
    hide Text.Lower, Apply, SaysFailed, SaysDone, SaysBegun, HasStalled, IsOverdue, BringsProgress;
  }

  /** A job missing from the list is failed exactly after five minutes with TorBox and 15 quiet ones. */
  lemma MissingDecides(rows: Table, id: string, now: Time)
    requires id in rows && (rows[id].state == Submitted || rows[id].state == Downloading)
    ensures var r := rows[id]; var since := if r.submittedAt.Some? then r.submittedAt.value else r.createdAt;
            Visiting(rows, Start(Listed(id, r), None), now) ==
            if now - since >= 300 && now - r.updatedAt > 900 then rows[id := Failing(r, LOST, now)] else rows
  {
    FailsIn(rows, id, rows[id], LOST, now);
    hide Apply;
  }

  /** The TorBox entries a visit deletes: the job's own, exactly if the job has stalled or is overdue, and has an id. */
  lemma ReleasedExactly(j: Row, it: Item, now: Time)
    ensures Poller.ReleasedBy(j, it, now) ==
            if !SaysFailed(it) && !SaysDone(it) && (HasStalled(j, it, now) || IsOverdue(j, now)) && SoughtID(j) != 0
            then [SoughtID(j)] else []
  {
    hide Text.Lower, SaysFailed, SaysDone;
    EntrySays(it);
    FindForPullIs(j, []);
  }

  // ----- A pass -----

  /** A visit reads and writes no row but its own. */
  lemma {:induction false} VisitIsLocal(rows1: Table, rows2: Table, v: Visit, now: Time)
    requires v.id in rows1 && v.id in rows2 && rows1[v.id] == rows2[v.id]
    ensures var rows1', rows2' := Visiting(rows1, v, now), Visiting(rows2, v, now);
            v.id in rows1' && v.id in rows2' && rows1'[v.id] == rows2'[v.id]
    decreases StepsLeft(v)
  {
    var rows1', rows2' := Perform(rows1, VisitStmt(v, now), now), Perform(rows2, VisitStmt(v, now), now);
    StepIsLocal(rows1, rows2, v, now);
    if VisitNext(v, now).Some? {
      var v' := VisitNext(v, now).value;
      NextIsLess(v, now);
      hide Perform, VisitStmt, VisitNext;
      VisitIsLocal(rows1', rows2', v', now);
    }
  }

  lemma StepIsLocal(rows1: Table, rows2: Table, v: Visit, now: Time)
    requires v.id in rows1 && v.id in rows2 && rows1[v.id] == rows2[v.id]
    ensures var rows1', rows2' := Perform(rows1, VisitStmt(v, now), now), Perform(rows2, VisitStmt(v, now), now);
            v.id in rows1' && v.id in rows2' && rows1'[v.id] == rows2'[v.id]
  {
    hide Text.Lower, Text.HasAnyPrefix, IsLost, NewActiveID, NewFolder, LearnsIDs;
  }

  lemma NextIsLess(v: Visit, now: Time)
    requires VisitNext(v, now).Some?
    ensures var v' := VisitNext(v, now).value; v'.id == v.id && StepsLeft(v') < StepsLeft(v)
  {
  }

  /** The list a job's entry is sought in. */
  function ListFor(j: Row, usenet: seq<Item>, torrents: seq<Item>): seq<Item> {
    match j.source
    case Torrent => torrents
    case Usenet => usenet
  }

  /** The job's row after a visit with the entry that belongs to the job in this list, if any does. */
  ghost predicate IsVisitedWithOwn(rows: Table, l: Listed, items: seq<Item>, r': Row, now: Time) {
    exists found ::
      && IsPollMatch(l.row, items, found)
      && var rows' := Visiting(rows, Start(l, found), now); l.id in rows' && rows'[l.id] == r'
  }

  /** A pass visits every job with the entry that belongs to it in the list for its source, and with no other. */
  lemma {:induction false} PassDecides(rows: Table, todo: seq<Listed>, usenet: seq<Item>, torrents: seq<Item>,
                                       now: Time, i: nat)
    requires forall k :: 0 <= k < |todo| ==>
               todo[k].id in rows && todo[k].row == rows[todo[k].id] && todo[k].row.state.InFlight()
    requires forall k, m :: 0 <= k < m < |todo| ==> todo[k].id != todo[m].id
    requires i < |todo|
    ensures var rows' := PassOver(rows, todo, usenet, torrents, now);
            && todo[i].id in rows'
            && IsVisitedWithOwn(rows, todo[i], ListFor(todo[i].row, usenet, torrents), rows'[todo[i].id], now)
    decreases |todo|
  {
    hide Visiting, FindForPoll, PollPass.Visited, Start, IsPollMatch;
    var item := FindForPoll(todo[0].row, PoolOf(todo[0].row, usenet, torrents));
    FindForPollIs(todo[0].row, PoolOf(todo[0].row, usenet, torrents));
    var rows1, rest := Visiting(rows, Start(todo[0], item), now), todo[1..];
    PollPass.VisitIsVisited(rows, todo[0].id, item, now);
    assert Listed(todo[0].id, rows[todo[0].id]) == todo[0];
    assert forall k :: 0 <= k < |rest| ==> rest[k] == todo[k + 1];
    if i == 0 {
      PollPass.PassVisitsEach(rows1, rest, usenet, torrents, now);
      assert IsVisitedWithOwn(rows, todo[0], ListFor(todo[0].row, usenet, torrents), rows1[todo[0].id], now);
    } else {
      PassDecides(rows1, rest, usenet, torrents, now, i - 1);
      LocalIsOwn(rows, rows1, todo[i], ListFor(todo[i].row, usenet, torrents),
                 PassOver(rows1, rest, usenet, torrents, now)[todo[i].id], now);
      hide IsVisitedWithOwn;
    }
  }

  lemma LocalIsOwn(rows: Table, rows1: Table, l: Listed, items: seq<Item>, r': Row, now: Time)
    requires l.id in rows && l.id in rows1 && rows[l.id] == rows1[l.id] && IsVisitedWithOwn(rows1, l, items, r', now)
    ensures IsVisitedWithOwn(rows, l, items, r', now)
  {
    hide IsPollMatch, Visiting;
    var found :| IsPollMatch(l.row, items, found) &&
                 var rows' := Visiting(rows1, Start(l, found), now); l.id in rows' && rows'[l.id] == r';
    VisitIsLocal(rows, rows1, Start(l, found), now);
  }
}
