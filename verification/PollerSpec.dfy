/**
  The poller's reading of a TorBox list entry: which statements one visit to a job issues, in
  order, and how the visit's in-memory copy of the row evolves with them.
 */
module PollerSpec {
  import opened Options
  import opened Jobs
  import opened StoreSpec
  import Text

  const MAX_POLL: Time := 24 * HOUR
  const MAX_MISSING: Time := 15 * MINUTE
  const MAX_STALL: Time := 30 * MINUTE
  const MISSING_GRACE: Time := 5 * MINUTE

  /**
    A TorBox list entry. `progressing` is whether its progress is above zero and `done` the byte
    count computed from progress and size.
   */
  datatype Item = Item(id: int, queueID: int, name: string, downloadState: string, finished: bool,
                       speed: int, progressing: bool, done: int, size: int, files: seq<ListedFile>)
  {
    predicate IsFailure() {
      Text.HasAnyPrefix(downloadState, ["failed", "error", "missing_files", "expired"])
    }

    predicate IsTerminal() {
      finished || Text.HasAnyPrefix(downloadState, ["completed", "cached", "uploading"])
    }

    predicate IsDownloading() {
      Text.Lower(downloadState) == "downloading"
    }

    predicate HasStarted() {
      IsDownloading() || speed > 0 || progressing
    }

    predicate Carries(k: int) {
      k != 0 && (id == k || queueID == k)
    }
  }

  datatype ListedFile = ListedFile(id: int, shortName: string, name: string, size: int)

  /** A row as a listing returned it. */
  datatype Listed = Listed(id: string, row: Row)

  function Snapshots(rows: Table, ids: seq<string>): seq<Listed>
    requires forall i :: 0 <= i < |ids| ==> ids[i] in rows
  {
    seq(|ids|, i requires 0 <= i < |ids| => Listed(ids[i], rows[ids[i]]))
  }

  function IdsOf(jobs: seq<Listed>): (ids: seq<string>)
    ensures |ids| == |jobs|
  {
    seq(|jobs|, i requires 0 <= i < |jobs| => jobs[i].id)
  }

  /** The most rows a pass lists. */
  const POLL_LIMIT := 1000

  datatype Verdict = Stalled | TimedOut

  /** Where a visit stands; each step issues at most one statement. */
  datatype Pc = NoteIDs | Judge | Begin | Progress | Ceilings | Close(verdict: Verdict)

  /** A visit works on `j`, its own copy of the row, and never reads the table again. */
  datatype Visit = Visit(id: string, j: Row, item: Option<Item>, pc: Pc)

  function NewActiveID(j: Row, it: Item): Option<int> {
    if it.id != 0 && j.activeID != Some(it.id) then Some(it.id) else None
  }

  function NewFolder(j: Row, it: Item): Option<string> {
    if it.name != "" && j.folder != Some(it.name) then Some(it.name) else None
  }

  predicate LearnsIDs(j: Row, it: Item) {
    NewActiveID(j, it).Some? || NewFolder(j, it).Some?
  }

  predicate Moves(j: Row, it: Item) {
    it.size > 0 && it.done != j.bytesDownloaded
  }

  predicate IsStalled(j: Row, it: Item, now: Time) {
    it.IsDownloading() && now - j.InFlightSince() > MAX_STALL && now - j.updatedAt > MAX_STALL
  }

  predicate IsTimedOut(j: Row, now: Time) {
    now - j.InFlightSince() > MAX_POLL
  }

  predicate IsLost(j: Row, now: Time) {
    now - j.InFlightSince() >= MISSING_GRACE && now - j.updatedAt > MAX_MISSING
  }

  function Reason(v: Verdict): string {
    match v
    case Stalled => "torbox stalled: no progress (missing usenet articles)"
    case TimedOut => "polling timeout: torbox did not complete in 24h"
  }

  /** The statement the visit issues at its present step. */
  function VisitStmt(v: Visit, now: Time): Option<Stmt> {
    var j := v.j;
    match v.item
    case None =>
      if IsLost(j, now)
      then Some(Transition(v.id, Ending(j.state, Failed, "torbox lost the download (absent from mylist)", now)))
      else None
    case Some(it) =>
      match v.pc
      case NoteIDs =>
        if LearnsIDs(j, it) then Some(SetTorboxIDs(v.id, NewActiveID(j, it), NewFolder(j, it))) else None
      case Judge =>
        if it.IsFailure()
        then Some(Transition(v.id, Ending(j.state, Failed, "torbox state: " + it.downloadState, now)))
        else if it.IsTerminal() then Some(Transition(v.id, Move(j.state, CompletedTorbox)))
        else None
      case Begin =>
        if j.state == Submitted && it.HasStarted() then Some(Transition(v.id, Move(Submitted, Downloading))) else None
      case Progress =>
        if Moves(j, it) then Some(SetLocalProgress(v.id, it.done, it.size)) else None
      case Ceilings => None
      case Close(verdict) =>
        Some(Transition(v.id, Ending(j.state, Failed, Reason(verdict), now)))
  }

  /** The visit after that step; None when it is over. */
  function VisitNext(v: Visit, now: Time): Option<Visit> {
    var j := v.j;
    match v.item
    case None => None
    case Some(it) =>
      match v.pc
      case NoteIDs => Some(v.(pc := Judge))
      case Judge => if it.IsFailure() || it.IsTerminal() then None else Some(v.(pc := Begin))
      case Begin => Some(v.(pc := Progress))
      case Progress =>
        Some(v.(pc := Ceilings,
                j := if Moves(j, it)
                     then j.(bytesDownloaded := it.done, bytesTotal := it.size, updatedAt := now)
                     else j))
      case Ceilings =>
        if IsStalled(j, it, now) then Some(v.(pc := Close(Stalled)))
        else if IsTimedOut(j, now) then Some(v.(pc := Close(TimedOut)))
        else None
      case Close(_) => None
  }

  function StepsLeft(v: Visit): nat {
    match v.pc
    case NoteIDs => 6
    case Judge => 5
    case Begin => 4
    case Progress => 3
    case Ceilings => 2
    case Close(_) => 1
  }

  function Perform(rows: Table, s: Option<Stmt>, now: Time): Table {
    if s.Some? then Apply(rows, s.value, now) else rows
  }

  /** A whole visit on a table nobody else touches meanwhile. */
  function Visiting(rows: Table, v: Visit, now: Time): Table
    decreases StepsLeft(v)
  {
    var rows' := Perform(rows, VisitStmt(v, now), now);
    if VisitNext(v, now).Some? then Visiting(rows', VisitNext(v, now).value, now) else rows'
  }

  function Start(l: Listed, item: Option<Item>): Visit {
    Visit(l.id, l.row, item, NoteIDs)
  }

  // ----- Which entry a job is matched with -----

  /** The last entry carrying `k` as one of its non-zero ids. */
  function LastCarrying(items: seq<Item>, k: int): Option<Item> {
    if items == [] then None
    else if items[|items| - 1].Carries(k) then Some(items[|items| - 1])
    else LastCarrying(items[..|items| - 1], k)
  }

  /** The first entry satisfying the test. */
  function First(items: seq<Item>, test: Item -> bool): Option<Item> {
    if items == [] then None
    else if test(items[0]) then Some(items[0])
    else First(items[1..], test)
  }

  function OrElse(a: Option<Item>, b: Option<Item>): Option<Item> {
    if a.Some? then a else b
  }

  function ByOptionalID(items: seq<Item>, k: Option<int>): Option<Item> {
    if k.Some? then LastCarrying(items, k.value) else None
  }

  /** The poller: active id, then queue id, then the release name. */
  function FindForPoll(j: Row, items: seq<Item>): Option<Item> {
    OrElse(OrElse(ByOptionalID(items, j.activeID), ByOptionalID(items, j.queueID)),
           First(items, (it: Item) => it.name == Text.TrimSuffix(j.filename, ".nzb")))
  }

  /** The puller's search of the full list: the effective id, then the recorded folder. */
  function FindForPull(j: Row, items: seq<Item>): Option<Item> {
    OrElse(First(items, (it: Item) => it.Carries(j.EffectiveTorboxID())),
           if j.folder.Some? then First(items, (it: Item) => it.name == j.folder.value) else None)
  }

  /** findItem: TorBox's answer to a request by id, if it is about that id, else the search of the full list. */
  function FindItem(j: Row, byID: Option<Item>, items: seq<Item>): Option<Item> {
    if byID.Some? && byID.value.Carries(j.EffectiveTorboxID()) then byID else FindForPull(j, items)
  }

  function PoolOf(j: Row, usenet: seq<Item>, torrents: seq<Item>): seq<Item> {
    if j.source == Torrent then torrents else usenet
  }

  /** A whole pass over the listed rows, at one reading of the clock and without interference. */
  function PassOver(rows: Table, todo: seq<Listed>, usenet: seq<Item>, torrents: seq<Item>, now: Time): Table
    decreases |todo|
  {
    if todo == [] then rows else
    var item := FindForPoll(todo[0].row, PoolOf(todo[0].row, usenet, torrents));
    PassOver(Visiting(rows, Start(todo[0], item), now), todo[1..], usenet, torrents, now)
  }
}
