/**
  The whole job pipeline: the submitter, the poller, the puller, any number of clients, the reaper,
  the notifier and process crashes interleave one statement at a time over one table. Every actor works
  on the copy of a row it once read.
 */
module Pipeline {
  import opened Options
  import opened Jobs
  import opened StoreSpec
  import opened PollerSpec
  import opened SubmitterSpec
  import P = PullerSpec

  datatype Setup = Setup(pool: nat, pull: P.Config) {
    ghost predicate Valid() { pool > 0 && pull.Valid() }

    /** The retry budget. */
    function Budget(): nat {
      if pull.maxRetries > MAX_SUBMIT_ATTEMPTS then pull.maxRetries else MAX_SUBMIT_ATTEMPTS
    }
  }

  /** A goroutine of dispatchOnce: waiting for TorBox, or about to release its claim. */
  datatype Submission = Creating(j: Row) | Releasing(j: Row)

  /** A poll pass: the rows it has yet to visit and the visit it is in. */
  datatype Poll = Idle | Passing(todo: seq<Listed>, visit: Option<Visit>)

  datatype World = World(
    now: Time,
    db: Db,
    born: set<string>,
    subs: map<string, Submission>,
    poll: Poll,
    puller: P.Puller,
    clients: map<nat, Listed>)

  datatype Action =
    | Advance(t: Time)
    | Add(id: string, job: NewJob)
    | ClaimNew(ids: seq<string>)
    | Answer(id: string, reply: Reply)
    | GiveBack(id: string)
    | BeginPass(ids: seq<string>)
    | BeginVisit(item: Option<Item>)
    | VisitStep
    | EndPass
    | Pull(a: P.Action)
    | Read(client: nat, id: string)
    | Cancel(client: nat)
    | Drop(client: nat)
    | Notify(id: string)
    | ReapOld(before: Time)
    | Crash

  predicate Pullable(r: Row, now: Time) {
    r.state == CompletedTorbox && Due(r, now)
  }

  ghost predicate IsPullListing(rows: Table, now: Time, limit: nat, jobs: seq<Listed>) {
    exists ids ::
      && IsListing(rows, (r: Row) => Pullable(r, now), ids, limit)
      && jobs == Snapshots(rows, ids)
  }

  ghost predicate Enabled(s: Setup, w: World, a: Action) {
    match a
    case Advance(t) => w.now <= t
    case Add(id, job) => id !in w.born && job.state == New
    case ClaimNew(ids) =>
      w.subs == map[] && IsListing(w.db.rows, (r: Row) => Claimable(r, w.now), ids, s.pool)
    case Answer(id, _) => id in w.subs && w.subs[id].Creating?
    case GiveBack(id) => id in w.subs && w.subs[id].Releasing?
    case BeginPass(ids) =>
      w.poll.Idle? && IsListing(w.db.rows, (r: Row) => r.state.InFlight(), ids, POLL_LIMIT)
    case BeginVisit(_) => w.poll.Passing? && w.poll.visit.None? && w.poll.todo != []
    case VisitStep => w.poll.Passing? && w.poll.visit.Some?
    case EndPass => w.poll.Passing? && w.poll.visit.None?
    case Pull(pa) =>
      && P.Enabled(s.pull, w.puller, pa) && !pa.Restart?
      && (pa.List? ==> IsPullListing(w.db.rows, w.now, s.pull.limit + w.puller.tick.busy, pa.jobs))
    case Read(client, id) => client !in w.clients && id in w.db.rows
    case Cancel(client) => client in w.clients
    case Drop(client) => client in w.clients
    case Notify(_) => true
    case ReapOld(_) => true
    case Crash => true
  }

  /** A client's cancel: an active row is canceled, a finished one dropped. */
  function CancelStmt(l: Listed, now: Time): Stmt {
    if l.row.state.Terminal() then Delete(l.id)
    else Transition(l.id, Ending(l.row.state, Canceled, "canceled by client", now))
  }

  /** The statement an action runs. */
  function StmtOf(s: Setup, w: World, a: Action): Option<Stmt>
    requires Enabled(s, w, a)
  {
    match a
    case Add(id, job) => Some(Insert(id, job))
    case ClaimNew(ids) => Some(Claim(ids))
    case Answer(id, reply) => Some(SubmitStmt(id, w.subs[id].j, reply, w.now))
    case GiveBack(id) => Some(Release(id))
    case VisitStep => VisitStmt(w.poll.visit.value, w.now)
    case Pull(pa) => P.PullStmt(s.pull, w.puller, pa, w.now)
    case Cancel(client) => Some(CancelStmt(w.clients[client], w.now))
    case Drop(client) => Some(Delete(w.clients[client].id))
    case Notify(id) => Some(MarkPushoverSent(id))
    case ReapOld(before) => Some(Reap(before))
    case _ => None
  }

  /** A submission whose move to SUBMITTED lost the race releases its claim next. */
  predicate LostRace(w: World, id: string, reply: Reply)
    requires id in w.subs
  {
    var stmt := SubmitStmt(id, w.subs[id].j, reply, w.now);
    stmt.Transition? && stmt.change.to == Submitted && !Succeeds(w.db.rows, stmt)
  }

  function NextSubs(s: Setup, w: World, a: Action, rows: Table): map<string, Submission>
    requires Enabled(s, w, a)
  {
    match a
    case ClaimNew(ids) => map id | id in ids && id in rows :: Creating(rows[id])
    case Answer(id, reply) =>
      if LostRace(w, id, reply) then w.subs[id := Releasing(w.subs[id].j)] else w.subs - {id}
    case GiveBack(id) => w.subs - {id}
    case Crash => map[]
    case _ => w.subs
  }

  function NextPoll(s: Setup, w: World, a: Action): Poll
    requires Enabled(s, w, a)
  {
    match a
    case BeginPass(ids) => Passing(Snapshots(w.db.rows, ids), None)
    case BeginVisit(item) => Passing(w.poll.todo[1..], Some(Start(w.poll.todo[0], item)))
    case VisitStep => w.poll.(visit := VisitNext(w.poll.visit.value, w.now))
    case EndPass => Idle
    case Crash => Idle
    case _ => w.poll
  }

  function NextPuller(s: Setup, w: World, a: Action): P.Puller
    requires Enabled(s, w, a)
  {
    match a
    case Pull(pa) => P.PullStep(s.pull, w.puller, pa, w.now)
    case Crash => P.Restarted(w.puller)
    case _ => w.puller
  }

  function NextClients(s: Setup, w: World, a: Action): map<nat, Listed>
    requires Enabled(s, w, a)
  {
    match a
    case Read(client, id) => w.clients[client := Listed(id, w.db.rows[id])]
    case Cancel(client) => w.clients - {client}
    case Drop(client) => w.clients - {client}
    case Crash => map[]
    case _ => w.clients
  }

  function NextDb(s: Setup, w: World, a: Action): Db
    requires Enabled(s, w, a)
  {
    var stmt := StmtOf(s, w, a);
    if stmt.Some? then Exec(w.db, stmt.value, w.now) else w.db
  }

  function NextWorld(s: Setup, w: World, a: Action): World
    requires Enabled(s, w, a)
  {
    var db := NextDb(s, w, a);
    World(if a.Advance? then a.t else w.now,
          db,
          if a.Add? then w.born + {a.id} else w.born,
          NextSubs(s, w, a, db.rows),
          NextPoll(s, w, a),
          NextPuller(s, w, a),
          NextClients(s, w, a))
  }

  function Genesis(now: Time): World {
    World(now, EMPTY_DB, {}, map[], Idle, P.IDLE_PULLER, map[])
  }
}
