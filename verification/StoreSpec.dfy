/** What each SQL statement on the jobs table does, as a function of the table and the clock. */
module StoreSpec {
  import opened Octets
  import opened Options
  import opened Jobs

  type Table = map<string, Row>

  /** A committed change of state, as the transition hooks receive it. */
  datatype Event = Event(id: string, from: State, to: State)

  /** The columns an insert supplies; all others start empty. */
  datatype NewJob = NewJob(category: string, filename: string, hash: string, blob: Option<Bytes>,
                           magnet: Option<string>, source: Source, state: State)

  /** The arguments of a guarded state change. */
  datatype Change = Change(from: State, to: State,
                           queueID: Option<int>, activeID: Option<int>, folder: Option<string>,
                           lastError: Option<string>, incAttempts: bool, nextAttemptAt: Option<Time>,
                           completedAt: Option<Time>, clearBlob: bool, clearClaimed: bool)

  /** A change that only moves the state and clears the error. */
  function Move(from: State, to: State): Change {
    Change(from, to, None, None, None, None, false, None, None, false, false)
  }

  /** A change to FAILED or CANCELED with its reason and completion stamp. */
  function Ending(from: State, to: State, reason: string, now: Time): Change {
    Move(from, to).(lastError := Some(reason), completedAt := Some(now))
  }

  datatype Stmt =
    | Insert(id: string, job: NewJob)
    | Transition(id: string, change: Change)
    | MarkLocalReady(id: string, path: string, total: int)
    | Claim(ids: seq<string>)
    | Release(id: string)
    | AttemptFailure(id: string, reason: string, nextAt: Time)
    | Reschedule(id: string, reason: string, nextAt: Time)
    | SetLocalProgress(id: string, downloaded: int, total: int)
    | SetTorboxIDs(id: string, activeID: Option<int>, folder: Option<string>)
    | MarkPushoverSent(id: string)
    | Delete(id: string)
    | Reap(before: Time)

  /**
    The database: its rows, the changes the hooks have been told about, and, kept for the
    proofs only, when each row's downloaded byte count last took a new value.
   */
  datatype Db = Db(rows: Table, fired: seq<Event>, moved: map<string, Time>)

  function FreshRow(job: NewJob, now: Time): Row {
    Row(job.category, job.filename, job.hash, job.blob, job.magnet, job.source,
        job.state, 0, None, None, None, now, now, None, None, None, None, None, None, 0, 0, None)
  }

  function ChangedRow(r: Row, c: Change, now: Time): Row {
    r.(state := c.to,
       updatedAt := now,
       submittedAt := if c.to == Submitted then Some(now) else r.submittedAt,
       queueID := if c.queueID.Some? then c.queueID else r.queueID,
       activeID := if c.activeID.Some? then c.activeID else r.activeID,
       folder := if c.folder.Some? then c.folder else r.folder,
       lastError := c.lastError,
       attempts := if c.incAttempts then r.attempts + 1 else r.attempts,
       nextAttemptAt := c.nextAttemptAt,
       completedAt := if c.completedAt.Some? then c.completedAt else r.completedAt,
       blob := if c.clearBlob then None else r.blob,
       claimedAt := if c.clearClaimed then None else r.claimedAt)
  }

  function ReadyRow(r: Row, path: string, total: int, now: Time): Row {
    r.(state := Ready, localPath := Some(path), bytesDownloaded := total, bytesTotal := total,
       completedAt := Some(now), updatedAt := now, nextAttemptAt := None, lastError := None,
       blob := None, claimedAt := None)
  }

  predicate Reapable(r: Row, before: Time) {
    r.state.Terminal() && r.completedAt.Some? && r.completedAt.value < before
  }

  /** Whether the compare half of a guarded change finds its row. */
  predicate Matches(rows: Table, id: string, c: Change) {
    CanTransition(c.from, c.to) && id in rows && rows[id].state == c.from
  }

  predicate Completed(rows: Table, id: string) {
    id in rows && rows[id].state == CompletedTorbox
  }

  /** The success the caller is told about. */
  predicate Succeeds(rows: Table, s: Stmt) {
    match s
    case Insert(id, _) => id !in rows
    case Transition(id, c) => Matches(rows, id, c)
    case MarkLocalReady(id, _, _) => Completed(rows, id)
    case MarkPushoverSent(id) => id in rows && rows[id].pushoverSentAt.None?
    case Delete(id) => id in rows
    case _ => true
  }

  function Apply(rows: Table, s: Stmt, now: Time): Table {
    match s
    case Insert(id, job) =>
      if id in rows then rows else rows[id := FreshRow(job, now)]
    case Transition(id, c) =>
      if Matches(rows, id, c) then rows[id := ChangedRow(rows[id], c, now)] else rows
    case MarkLocalReady(id, path, total) =>
      if Completed(rows, id) then rows[id := ReadyRow(rows[id], path, total, now)] else rows
    case Claim(ids) =>
      map id | id in rows :: if id in ids then rows[id].(claimedAt := Some(now), updatedAt := now) else rows[id]
    case Release(id) =>
      if id in rows then rows[id := rows[id].(claimedAt := None, updatedAt := now)] else rows
    case AttemptFailure(id, reason, nextAt) =>
      if id in rows then
        rows[id := rows[id].(attempts := rows[id].attempts + 1, lastError := Some(reason),
                             nextAttemptAt := Some(nextAt), claimedAt := None, updatedAt := now)]
      else rows
    case Reschedule(id, reason, nextAt) =>
      if id in rows then
        rows[id := rows[id].(lastError := Some(reason), nextAttemptAt := Some(nextAt),
                             claimedAt := None, updatedAt := now)]
      else rows
    case SetLocalProgress(id, downloaded, total) =>
      if id in rows then
        rows[id := rows[id].(bytesDownloaded := downloaded, bytesTotal := total, updatedAt := now)]
      else rows
    case SetTorboxIDs(id, activeID, folder) =>
      if id in rows && (activeID.Some? || folder.Some?) then
        rows[id := rows[id].(updatedAt := now,
                             activeID := if activeID.Some? then activeID else rows[id].activeID,
                             folder := if folder.Some? then folder else rows[id].folder)]
      else rows
    case MarkPushoverSent(id) =>
      if id in rows && rows[id].pushoverSentAt.None? then
        rows[id := rows[id].(pushoverSentAt := Some(now), updatedAt := now)]
      else rows
    case Delete(id) => rows - {id}
    case Reap(before) => map id | id in rows && !Reapable(rows[id], before) :: rows[id]
  }

  /** The state change a statement commits, if any. */
  function Fires(rows: Table, s: Stmt): seq<Event> {
    match s
    case Transition(id, c) => if Matches(rows, id, c) then [Event(id, c.from, c.to)] else []
    case MarkLocalReady(id, _, _) => if Completed(rows, id) then [Event(id, CompletedTorbox, Ready)] else []
    case _ => []
  }

  /** Observes which byte counts a statement changed. */
  function Observe(before: Table, after: Table, moved: map<string, Time>, now: Time): map<string, Time> {
    map id | id in after ::
      if id in before && id in moved && before[id].bytesDownloaded == after[id].bytesDownloaded
      then moved[id] else now
  }

  function Exec(db: Db, s: Stmt, now: Time): Db {
    var rows := Apply(db.rows, s, now);
    Db(rows, db.fired + Fires(db.rows, s), Observe(db.rows, rows, db.moved, now))
  }

  // ----- Listings -----

  ghost predicate Distinct<T>(xs: seq<T>) {
    forall i, j :: 0 <= i < j < |xs| ==> xs[i] != xs[j]
  }

  /** `ids` are all rows satisfying `keep`, oldest first, cut off at `limit`. */
  ghost predicate IsListing(rows: Table, keep: Row -> bool, ids: seq<string>, limit: nat) {
    && Distinct(ids)
    && |ids| <= limit
    && (forall i :: 0 <= i < |ids| ==> ids[i] in rows && keep(rows[ids[i]]))
    && (forall i, j :: 0 <= i < j < |ids| ==> rows[ids[i]].createdAt <= rows[ids[j]].createdAt)
    && (forall id :: id in rows && keep(rows[id]) && id !in ids ==>
          |ids| == limit && forall i :: 0 <= i < |ids| ==> rows[ids[i]].createdAt <= rows[id].createdAt)
  }

  predicate Due(r: Row, now: Time) {
    r.nextAttemptAt.None? || r.nextAttemptAt.value <= now
  }

  function In(states: set<State>): Row -> bool {
    (r: Row) => r.state in states
  }

  function DueIn(states: set<State>, now: Time): Row -> bool {
    (r: Row) => r.state in states && Due(r, now)
  }

  const LEASE: Time := 5 * MINUTE

  predicate Claimable(r: Row, now: Time) {
    r.state == New && Due(r, now) && (r.claimedAt.None? || r.claimedAt.value <= now - LEASE)
  }

  // ----- The life of a row under any statements whatever -----

  /** The states `id` has gone through, according to the hooks. */
  function Trail(fired: seq<Event>, id: string): (t: seq<State>)
    ensures t != []
  {
    if fired == [] then [New] else
    var t := Trail(fired[..|fired| - 1], id);
    var e := fired[|fired| - 1];
    if e.id == id then t + [e.to] else t
  }

  function Latest(fired: seq<Event>, id: string): State {
    var t := Trail(fired, id);
    t[|t| - 1]
  }

  /** Every change starts in the state where the row's previous change ended. */
  ghost predicate Chained(fired: seq<Event>) {
    fired == [] ||
    (var front, e := fired[..|fired| - 1], fired[|fired| - 1];
     Chained(front) && e.from == Latest(front, e.id) && CanTransition(e.from, e.to))
  }

  /** What holds of the database whichever statements run, with whichever arguments. */
  ghost predicate Consistent(db: Db, born: set<string>) {
    && Chained(db.fired)
    && db.rows.Keys <= born
    && (forall e :: e in db.fired ==> e.id in born)
    && (forall id :: id in db.rows ==> db.rows[id].state == Latest(db.fired, id))
    && db.moved.Keys == db.rows.Keys
    && (forall id :: id in db.rows ==> db.moved[id] <= db.rows[id].updatedAt)
  }

  function Ids(s: Stmt): set<string> {
    if s.Insert? then {s.id} else {}
  }

  /** An insert brings a new id and a NEW row; every other statement is unrestricted. */
  predicate Admissible(s: Stmt, born: set<string>) {
    s.Insert? ==> s.id !in born && s.job.state == New
  }

  lemma AppendEvent(fired: seq<Event>, e: Event)
    ensures forall id :: Trail(fired + [e], id) == Trail(fired, id) + (if e.id == id then [e.to] else [])
    ensures Chained(fired + [e]) <==>
            Chained(fired) && e.from == Latest(fired, e.id) && CanTransition(e.from, e.to)
  {
    assert (fired + [e])[..|fired|] == fired;
  }

  lemma {:induction false} UnbornHasNoTrail(fired: seq<Event>, id: string)
    requires forall e :: e in fired ==> e.id != id
    ensures Trail(fired, id) == [New]
  {
    if fired != [] {
      assert fired[|fired| - 1] in fired;
      UnbornHasNoTrail(fired[..|fired| - 1], id);
    }
  }

  /** A statement that fires nothing leaves the state of every row alone; rows may come (NEW) and go. */
  lemma QuietKeepsStates(rows: Table, s: Stmt, now: Time)
    requires Fires(rows, s) == []
    ensures forall id :: id in Apply(rows, s, now) && id in rows ==> Apply(rows, s, now)[id].state == rows[id].state
    ensures forall id :: id in Apply(rows, s, now) && id !in rows ==>
              s.Insert? && id == s.id && Apply(rows, s, now)[id].state == s.job.state
  {
  }

  /** A statement that fires an event moves exactly that row from the event's source to its target state. */
  lemma FiringMovesOneRow(rows: Table, s: Stmt, now: Time)
    requires Fires(rows, s) != []
    ensures |Fires(rows, s)| == 1
    ensures var e := Fires(rows, s)[0]; var rows' := Apply(rows, s, now);
            && e.id in rows && rows[e.id].state == e.from && CanTransition(e.from, e.to)
            && e.id in rows' && rows'[e.id].state == e.to
            && rows'.Keys == rows.Keys
            && forall id :: id in rows && id != e.id ==> rows'[id] == rows[id]
  {
  }

  lemma AppendLatest(fired: seq<Event>, e: Event)
    ensures forall id :: Latest(fired + [e], id) == if e.id == id then e.to else Latest(fired, id)
    ensures Chained(fired + [e]) <==>
            Chained(fired) && e.from == Latest(fired, e.id) && CanTransition(e.from, e.to)
  {
    AppendEvent(fired, e);
    hide Chained, CanTransition;
  }

  lemma QuietKeepsChained(db: Db, s: Stmt, now: Time, born: set<string>)
    requires Consistent(db, born) && Admissible(s, born) && Fires(db.rows, s) == []
    ensures Exec(db, s, now).fired == db.fired
    ensures forall id :: id in Apply(db.rows, s, now) ==> Apply(db.rows, s, now)[id].state == Latest(db.fired, id)
  {
    QuietKeepsStates(db.rows, s, now);
    hide Apply, Fires, Chained, CanTransition;
    if s.Insert? {
      UnbornHasNoTrail(db.fired, s.id);
    }
    hide Trail, Latest;
  }

  lemma FiringKeepsChained(db: Db, s: Stmt, now: Time, born: set<string>)
    requires Consistent(db, born) && Fires(db.rows, s) != []
    ensures var db' := Exec(db, s, now);
            && Chained(db'.fired)
            && (forall id :: id in db'.rows ==> db'.rows[id].state == Latest(db'.fired, id))
            && (forall e :: e in db'.fired ==> e.id in born)
  {
    FiringMovesOneRow(db.rows, s, now);
    hide Apply, Fires, CanTransition, Trail, Latest, Chained;
    assert Exec(db, s, now).fired == db.fired + [Fires(db.rows, s)[0]];
    AppendLatest(db.fired, Fires(db.rows, s)[0]);
  }

  /** No statement sets a row's update stamp back, and one that touches its byte count stamps it. */
  lemma StampsAreOrdered(db: Db, s: Stmt, now: Time)
    requires forall id :: id in db.rows ==> db.rows[id].updatedAt <= now
    requires db.moved.Keys == db.rows.Keys
    requires forall id :: id in db.rows ==> db.moved[id] <= db.rows[id].updatedAt
    ensures var db' := Exec(db, s, now);
            && db'.moved.Keys == db'.rows.Keys
            && forall id :: id in db'.rows ==> db'.moved[id] <= db'.rows[id].updatedAt <= now
  {
    var db' := Exec(db, s, now);
    forall id | id in db'.rows
      ensures db'.moved[id] <= db'.rows[id].updatedAt <= now
    {
      if id in db.rows {
        RowStamps(db.rows, s, now, id);
      }
    }
  }

  lemma RowStamps(rows: Table, s: Stmt, now: Time, id: string)
    requires id in rows && id in Apply(rows, s, now) && rows[id].updatedAt <= now
    ensures var r, r' := rows[id], Apply(rows, s, now)[id];
            && (r' == r || r'.updatedAt == now)
  {
  }

  lemma ExecKeepsConsistent(db: Db, s: Stmt, now: Time, born: set<string>)
    requires Consistent(db, born) && Admissible(s, born)
    requires forall id :: id in db.rows ==> db.rows[id].updatedAt <= now
    ensures Consistent(Exec(db, s, now), born + Ids(s))
    ensures forall id :: id in Exec(db, s, now).rows ==> Exec(db, s, now).rows[id].updatedAt <= now
  {
    StampsAreOrdered(db, s, now);
    if Fires(db.rows, s) == [] {
      QuietKeepsChained(db, s, now, born);
      QuietKeepsStates(db.rows, s, now);
    } else {
      FiringKeepsChained(db, s, now, born);
      FiringMovesOneRow(db.rows, s, now);
    }
    hide Apply, Fires, CanTransition, Trail, Latest, Chained;
  }

  lemma {:induction false} ChainedTrailIsPath(fired: seq<Event>, id: string)
    requires Chained(fired)
    ensures IsPath(Trail(fired, id)) && Trail(fired, id)[0] == New
  {
    if fired != [] {
      ChainedTrailIsPath(fired[..|fired| - 1], id);
    }
  }

  /** A program: statements with the instants at which they run. */
  type Program = seq<(Stmt, Time)>

  function Run(db: Db, prog: Program): Db {
    if prog == [] then db else Exec(Run(db, prog[..|prog| - 1]), prog[|prog| - 1].0, prog[|prog| - 1].1)
  }

  function BornIn(prog: Program): set<string> {
    if prog == [] then {} else BornIn(prog[..|prog| - 1]) + Ids(prog[|prog| - 1].0)
  }

  /** Inserts use fresh ids and state NEW, and the clock never runs backwards. */
  ghost predicate WellFormed(prog: Program) {
    prog == [] ||
    (var front, last := prog[..|prog| - 1], prog[|prog| - 1];
     WellFormed(front) && Admissible(last.0, BornIn(front)) &&
     (front != [] ==> front[|front| - 1].1 <= last.1))
  }

  const EMPTY_DB := Db(map[], [], map[])

  lemma {:induction false} RunIsConsistent(prog: Program)
    requires WellFormed(prog)
    ensures Consistent(Run(EMPTY_DB, prog), BornIn(prog))
    ensures prog != [] ==> forall id :: id in Run(EMPTY_DB, prog).rows ==>
              Run(EMPTY_DB, prog).rows[id].updatedAt <= prog[|prog| - 1].1
  {
    if prog != [] {
      var front := prog[..|prog| - 1];
      RunIsConsistent(front);
      ExecKeepsConsistent(Run(EMPTY_DB, front), prog[|prog| - 1].0, prog[|prog| - 1].1, BornIn(front));
    }
  }

  /**
    State safety for every sequence of statements with arbitrary (in particular stale)
    arguments: each row's committed changes form a path of the life cycle from NEW that ends in the
    row's present state, there are at most four of them, and nothing follows a terminal state.
   */
  lemma StateSafety(prog: Program, id: string)
    requires WellFormed(prog)
    ensures var db := Run(EMPTY_DB, prog); var t := Trail(db.fired, id);
            && IsPath(t) && t[0] == New && |t| <= 5
            && (forall i :: 0 <= i < |t| - 1 ==> !t[i].Terminal())
            && (id in db.rows ==> db.rows[id].state == t[|t| - 1])
  {
    RunIsConsistent(prog);
    ChainedTrailIsPath(Run(EMPTY_DB, prog).fired, id);
    PathIsShort(Trail(Run(EMPTY_DB, prog).fired, id));
  }
}
