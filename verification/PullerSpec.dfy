/**
  The puller as a state machine over its critical sections: the loop that tops up the pool, the
  pulls it has started, and the clients that abort them. Store reads and TorBox answers are inputs;
  `PullStmt` says which statement a step issues.
 */
module PullerSpec {
  import opened Options
  import opened Jobs
  import opened StoreSpec
  import opened PollerSpec

  /** `limit` is the pool size Tick works with: 8 for a setting that is not positive. */
  datatype Config = Config(limit: nat, maxRetries: nat, archiveWait: Time, concurrency: nat) {
    ghost predicate Valid() { limit > 0 && maxRetries > 0 && archiveWait > 0 && concurrency > 0 }
  }

  const RETRY_BACKOFF: Time := 2 * MINUTE
  const ARCHIVES_ONLY := "torbox lists only archives, extraction not finished"

  datatype Phase =
    | Lookup                                  // finding the TorBox entry
    | Build                                   // resolving its files
    | Download(running: nat)                  // file downloads at work
    | Retry(reason: string)                   // about to record a failed attempt
    | Await                                   // saw archives only
    | Decide(since: Time)                     // ... and has looked up since when
    | Publish(path: string, total: int)       // about to mark the job READY
    | Leaving                                 // pullOne returned
    | Forgotten                               // its entry is deleted
    | Exited                                  // done is closed
  {
    /** Has a statement to issue next. */
    predicate Writing() { Retry? || Decide? || Publish? }

    /** Before the checkpoint that follows the phase it is in. */
    predicate Checked() { Lookup? || Build? || Download? }

    /** Its in-flight entry is still there. */
    predicate Held() { !Forgotten? && !Exited? }
  }

  /**
    One started pull; the object outlives its in-flight entry. `target` is the directory handed to
    the downloader, `dir` what the pull recorded for callers of Abort.
   */
  datatype Pull = Pull(id: string, row: Row, phase: Phase, aborted: bool, target: string, dir: string)

  datatype Tick = Resting | Counted(busy: nat) | Filling(todo: seq<Listed>)

  /** What a pull past classification saw, plus the instants at which the wait was forgotten. */
  datatype Sighting = Archives(at: Time) | Other | Reset

  datatype Puller = Puller(
    inflight: map<string, nat>,          // job -> its pull
    pulls: map<nat, Pull>,
    next: nat,
    tick: Tick,
    waiting: map<nat, nat>,              // abort callers and the pull each waits for
    archives: map<string, Time>,         // since when each job has listed archives only
    sightings: map<string, seq<Sighting>>)  // for the proofs: what the pulls of each job saw

  datatype Found = LookupFailed(reason: string) | NoFiles | Present

  datatype Built = ArchivesOnly | BuildFailed(reason: string) | Files(dir: string)

  datatype Ran = Fetched(path: string, total: int) | RunFailed(reason: string)

  datatype Action =
    | Count
    | List(jobs: seq<Listed>)
    | Consider
    | FindDone(pid: nat, found: Found)
    | BuildDone(pid: nat, built: Built)
    | FileBegin(pid: nat)
    | FileEnd(pid: nat)
    | DownloadDone(pid: nat, ran: Ran)
    | NoteArchives(pid: nat)
    | Write(pid: nat)
    | Forget(pid: nat)
    | CloseDone(pid: nat)
    | AbortBegin(caller: nat, id: string)
    | AbortReturn(caller: nat, viaDone: bool)
    | Restart

  predicate HasLocalPath(r: Row) {
    r.localPath.GetOr("") != ""
  }

  function History(p: Puller, id: string): seq<Sighting> {
    if id in p.sightings then p.sightings[id] else []
  }

  /** The abort flag as a checkpoint reads it: through the job's in-flight entry. */
  predicate Aborted(p: Puller, id: string) {
    id in p.inflight && p.inflight[id] in p.pulls && p.pulls[p.inflight[id]].aborted
  }

  predicate Enabled(c: Config, p: Puller, a: Action) {
    match a
    case Count => p.tick == Resting
    case List(_) => p.tick.Counted?
    case Consider => p.tick.Filling? && p.tick.todo != []
    case FindDone(pid, _) => pid in p.pulls && p.pulls[pid].phase.Lookup?
    case BuildDone(pid, _) => pid in p.pulls && p.pulls[pid].phase.Build?
    case FileBegin(pid) => pid in p.pulls && p.pulls[pid].phase.Download? && p.pulls[pid].phase.running < c.concurrency
    case FileEnd(pid) => pid in p.pulls && p.pulls[pid].phase.Download? && p.pulls[pid].phase.running > 0
    case DownloadDone(pid, _) => pid in p.pulls && p.pulls[pid].phase == Download(0)
    case NoteArchives(pid) => pid in p.pulls && p.pulls[pid].phase.Await?
    case Write(pid) => pid in p.pulls && p.pulls[pid].phase.Writing()
    case Forget(pid) => pid in p.pulls && p.pulls[pid].phase.Leaving?
    case CloseDone(pid) => pid in p.pulls && p.pulls[pid].phase.Forgotten?
    case AbortBegin(caller, _) => caller !in p.waiting
    case AbortReturn(caller, viaDone) =>
      caller in p.waiting && (viaDone ==> p.waiting[caller] in p.pulls && p.pulls[p.waiting[caller]].phase.Exited?)
    case Restart => true
  }

  function Filled(todo: seq<Listed>): Tick {
    if todo == [] then Resting else Filling(todo)
  }

  /** Pull `pid` becomes `x`. */
  function Moved(p: Puller, pid: nat, x: Pull): Puller {
    p.(pulls := p.pulls[pid := x])
  }

  /** ... and its job's sightings gain `s`, with `archives` settled accordingly. */
  function Seen(p: Puller, pid: nat, x: Pull, archives: map<string, Time>, s: Sighting): Puller {
    p.(pulls := p.pulls[pid := x], archives := archives,
       sightings := p.sightings[x.id := History(p, x.id) + [s]])
  }

  /** Records the directory with whichever pull is in flight for `id`. */
  function SetDir(p: Puller, id: string, dir: string): Puller {
    if id in p.inflight && p.inflight[id] in p.pulls
    then p.(pulls := p.pulls[p.inflight[id] := p.pulls[p.inflight[id]].(dir := dir)])
    else p
  }

  function AfterFind(found: Found): Phase {
    match found
    case LookupFailed(reason) => Retry("lookup: " + reason)
    case NoFiles => Retry("torbox item has no files yet")
    case Present => Build
  }

  function AfterRun(ran: Ran): Phase {
    match ran
    case Fetched(path, total) => Publish(path, total)
    case RunFailed(reason) => Retry("download: " + reason)
  }

  /** Past the checkpoint that follows buildFileList. */
  function AfterBuild(p: Puller, pid: nat, x: Pull, built: Built): Puller {
    match built
    case ArchivesOnly => Moved(p, pid, x.(phase := Await))
    case BuildFailed(reason) =>
      Seen(p, pid, x.(phase := Retry("build file list: " + reason)), p.archives - {x.id}, Other)
    case Files(dir) =>
      SetDir(Seen(p, pid, x.(phase := Download(0), target := dir), p.archives - {x.id}, Other), x.id, dir)
  }

  function AfterNote(p: Puller, pid: nat, x: Pull, now: Time): Puller {
    var since := if x.id in p.archives then p.archives[x.id] else now;
    Seen(p, pid, x.(phase := Decide(since)), p.archives[x.id := since], Archives(now))
  }

  function AfterWrite(c: Config, p: Puller, pid: nat, x: Pull, now: Time): Puller {
    if GivesUp(c, x.phase, now) then Seen(p, pid, x.(phase := Leaving), p.archives - {x.id}, Reset)
    else Moved(p, pid, x.(phase := Leaving))
  }

  /** One row of Tick's loop. */
  function Considered(c: Config, p: Puller, e: Listed, tick: Tick): Puller {
    if HasLocalPath(e.row) || e.id in p.inflight || |p.inflight| >= c.limit then p.(tick := tick)
    else p.(tick := tick, inflight := p.inflight[e.id := p.next],
            pulls := p.pulls[p.next := Pull(e.id, e.row, Lookup, false, "", "")],
            next := p.next + 1)
  }

  function AbortBegun(p: Puller, caller: nat, id: string): Puller {
    if id in p.inflight && p.inflight[id] in p.pulls then
      var pid := p.inflight[id];
      p.(pulls := p.pulls[pid := p.pulls[pid].(aborted := true)], waiting := p.waiting[caller := pid])
    else p
  }

  function PullStep(c: Config, p: Puller, a: Action, now: Time): Puller
    requires Enabled(c, p, a)
  {
    match a
    case Count => p.(tick := if |p.inflight| >= c.limit then Resting else Counted(|p.inflight|))
    case List(jobs) => p.(tick := Filled(jobs))
    case Consider => Considered(c, p, p.tick.todo[0], Filled(p.tick.todo[1..]))
    case FindDone(pid, found) =>
      var x := p.pulls[pid];
      Moved(p, pid, x.(phase := if Aborted(p, x.id) then Leaving else AfterFind(found)))
    case BuildDone(pid, built) =>
      var x := p.pulls[pid];
      if Aborted(p, x.id) then Moved(p, pid, x.(phase := Leaving)) else AfterBuild(p, pid, x, built)
    case FileBegin(pid) => Moved(p, pid, p.pulls[pid].(phase := Download(p.pulls[pid].phase.running + 1)))
    case FileEnd(pid) => Moved(p, pid, p.pulls[pid].(phase := Download(p.pulls[pid].phase.running - 1)))
    case DownloadDone(pid, ran) =>
      var x := p.pulls[pid];
      Moved(p, pid, x.(phase := if Aborted(p, x.id) then Leaving else AfterRun(ran)))
    case NoteArchives(pid) => AfterNote(p, pid, p.pulls[pid], now)
    case Write(pid) => AfterWrite(c, p, pid, p.pulls[pid], now)
    case Forget(pid) =>
      Moved(p.(inflight := p.inflight - {p.pulls[pid].id}), pid, p.pulls[pid].(phase := Forgotten))
    case CloseDone(pid) => Moved(p, pid, p.pulls[pid].(phase := Exited))
    case AbortBegin(caller, id) => AbortBegun(p, caller, id)
    case AbortReturn(caller, _) => p.(waiting := p.waiting - {caller})
    case Restart => Restarted(p)
  }

  /** The wait for extraction is over. */
  predicate GivesUp(c: Config, phase: Phase, now: Time) {
    phase.Decide? && now - phase.since >= c.archiveWait
  }

  /** scheduleRetry. */
  function RetryStmt(c: Config, id: string, j: Row, reason: string, now: Time): Stmt {
    if j.attempts + 1 >= c.maxRetries
    then Transition(id, Ending(j.state, Failed, "puller exhausted: " + reason, now))
    else AttemptFailure(id, reason, now + RETRY_BACKOFF)
  }

  function PhaseStmt(c: Config, id: string, j: Row, phase: Phase, now: Time): Option<Stmt> {
    match phase
    case Retry(reason) => Some(RetryStmt(c, id, j, reason, now))
    case Decide(since) =>
      if now - since >= c.archiveWait
      then Some(Transition(id, Ending(j.state, Failed, ARCHIVES_ONLY, now)))
      else Some(Reschedule(id, ARCHIVES_ONLY, now + MINUTE))
    case Publish(path, total) => Some(MarkLocalReady(id, path, total))
    case _ => None
  }

  /** The statement a step issues. */
  function PullStmt(c: Config, p: Puller, a: Action, now: Time): Option<Stmt>
    requires Enabled(c, p, a)
  {
    match a
    case Consider =>
      var e := p.tick.todo[0];
      if HasLocalPath(e.row) then Some(MarkLocalReady(e.id, e.row.localPath.value, e.row.bytesTotal)) else None
    case Write(pid) => PhaseStmt(c, p.pulls[pid].id, p.pulls[pid].row, p.pulls[pid].phase, now)
    case _ => None
  }

  const IDLE_PULLER := Puller(map[], map[], 0, Resting, map[], map[], map[])

  /** A restart forgets everything but what the proofs remember. */
  function Restarted(p: Puller): Puller {
    IDLE_PULLER.(next := p.next, sightings := map id | id in p.sightings :: p.sightings[id] + [Reset])
  }
}
