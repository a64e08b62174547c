/** How a pull ends: what its last statement makes of the job, for everything a pull can meet. */
module PullFate {
  import opened Options
  import opened Jobs
  import opened StoreSpec
  import opened PollerSpec
  import opened Pipeline
  import opened PipelineSafety
  import opened PipelineTheorems
  import opened PipelineRuns
  import P = PullerSpec
  import Q = PullerSafety

  // ----- Steps -----

  /** A step of the puller and the statement it issues, in the pipeline. */
  lemma Take(s: Setup, tr: Trace, a: P.Action) returns (longer: Trace)
    requires IsTrace(s, tr) && tr.worlds != [] && P.Enabled(s.pull, End(tr).puller, a) && !a.Restart? && !a.List?
    ensures IsTrace(s, longer) && longer.worlds != [] && longer.actions == tr.actions + [Pull(a)]
    ensures var w, w' := End(tr), End(longer); var stmt := P.PullStmt(s.pull, w.puller, a, w.now);
            && w'.puller == P.PullStep(s.pull, w.puller, a, w.now) && w'.now == w.now
            && w'.db == if stmt.Some? then Exec(w.db, stmt.value, w.now) else w.db
  {
    hide P.Enabled, P.PullStep, P.PullStmt, IsListing, IsPullListing, IsTrace, Exec;
    longer := Extend(s, tr, Pull(a));
  }

  lemma InvHasPulls(s: Setup, w: World)
    requires Inv(s, w)
    ensures Q.Sound(s.pull, w.puller) && PullsOk(w.db.rows, w.puller.pulls)
  {
    hide Q.Sound, PullsOk, RowsOk, SubsOk, PollOk, TickOk, Apart, Known, Consistent;
  }

  /** What is known of a pull at work that nobody has aborted. */
  lemma PullIsSound(s: Setup, tr: Trace, pid: nat)
    requires IsTrace(s, tr) && tr.worlds != [] && pid in End(tr).puller.pulls
    requires var x := End(tr).puller.pulls[pid]; x.phase.Checked() && !x.aborted
    ensures var x := End(tr).puller.pulls[pid]; !P.Aborted(End(tr).puller, x.id) && x.row.state == CompletedTorbox
  {
    hide Inv, Enabled, NextWorld, Q.Entries, Q.Numbered, Q.Awaited, Q.PullsOk;
    ReachableInv(s, tr.worlds, tr.actions, |tr.actions|);
    InvHasPulls(s, End(tr));
  }

  // ----- Success -----

  lemma FetchedGoesOn(c: P.Config, p: P.Puller, pid: nat, path: string, total: int, now: Time)
    requires pid in p.pulls && p.pulls[pid].phase == P.Download(0) && !P.Aborted(p, p.pulls[pid].id)
    ensures P.PullStmt(c, p, P.DownloadDone(pid, P.Fetched(path, total)), now) == None
    ensures var p' := P.PullStep(c, p, P.DownloadDone(pid, P.Fetched(path, total)), now);
            && P.Enabled(c, p', P.Write(pid))
            && P.PullStmt(c, p', P.Write(pid), now) == Some(MarkLocalReady(p.pulls[pid].id, path, total))
            && p'.archives == p.archives && P.PullStep(c, p', P.Write(pid), now).archives == p.archives
  {
    hide P.Aborted;
  }

  lemma MarkedReady(db: Db, id: string, path: string, total: int, now: Time)
    requires id in db.rows
    ensures var db', r := Exec(db, MarkLocalReady(id, path, total), now), db.rows[id];
            if r.state == CompletedTorbox then
              && db'.rows == db.rows[id := r.(state := Ready, localPath := Some(path), bytesDownloaded := total,
                                              bytesTotal := total, completedAt := Some(now), updatedAt := now,
                                              lastError := None, nextAttemptAt := None, blob := None,
                                              claimedAt := None)]
              && db'.fired == db.fired + [Event(id, CompletedTorbox, Ready)]
            else db'.rows == db.rows && db'.fired == db.fired
  {
    hide Observe;
    assert db.fired + [] == db.fired;
  }

  /**
    A download that succeeded makes its job READY with the directory and the size it returned, and the hooks
    hear of it once; if the job was ended or removed meanwhile, nothing changes.
   */
  lemma FetchedBecomesReady(s: Setup, tr: Trace, pid: nat, path: string, total: int) returns (longer: Trace)
    requires IsTrace(s, tr) && tr.worlds != [] && pid in End(tr).puller.pulls
    requires var x := End(tr).puller.pulls[pid]; x.phase == P.Download(0) && !x.aborted && x.id in End(tr).db.rows
    ensures IsTrace(s, longer) && longer.worlds != []
    ensures longer.actions == tr.actions + [Pull(P.DownloadDone(pid, P.Fetched(path, total))), Pull(P.Write(pid))]
    ensures var w, w' := End(tr), End(longer); var id := w.puller.pulls[pid].id; var r := w.db.rows[id];
            if r.state == CompletedTorbox then
              && w'.db.rows == w.db.rows[id := r.(state := Ready, localPath := Some(path), bytesDownloaded := total,
                                                  bytesTotal := total, completedAt := Some(w.now), updatedAt := w.now,
                                                  lastError := None, nextAttemptAt := None, blob := None,
                                                  claimedAt := None)]
              && w'.db.fired == w.db.fired + [Event(id, CompletedTorbox, Ready)]
            else w'.db.rows == w.db.rows && w'.db.fired == w.db.fired
    ensures End(longer).puller.archives == End(tr).puller.archives
  {
    hide IsTrace, Exec, P.PullStep, P.PullStmt, P.Aborted;
    var w := End(tr);
    PullIsSound(s, tr, pid);
    FetchedGoesOn(s.pull, w.puller, pid, path, total, w.now);
    var fetched := Take(s, tr, P.DownloadDone(pid, P.Fetched(path, total)));
    longer := Take(s, fetched, P.Write(pid));
    MarkedReady(w.db, w.puller.pulls[pid].id, path, total, w.now);
  }

  lemma FoundGoesOn(c: P.Config, p: P.Puller, pid: nat, dir: string, now: Time)
    requires pid in p.pulls && p.pulls[pid].phase.Lookup? && !P.Aborted(p, p.pulls[pid].id)
    ensures P.PullStmt(c, p, P.FindDone(pid, P.Present), now) == None
    ensures var p1 := P.PullStep(c, p, P.FindDone(pid, P.Present), now);
            && p1 == p.(pulls := p.pulls[pid := p.pulls[pid].(phase := P.Build)])
            && P.Enabled(c, p1, P.BuildDone(pid, P.Files(dir)))
            && P.PullStmt(c, p1, P.BuildDone(pid, P.Files(dir)), now) == None
  {
    hide P.Aborted;
  }

  lemma BuiltGoesOn(c: P.Config, p: P.Puller, pid: nat, dir: string, now: Time)
    requires Q.Sound(c, p) && pid in p.pulls && p.pulls[pid].phase.Build? && !p.pulls[pid].aborted
    ensures var p' := P.PullStep(c, p, P.BuildDone(pid, P.Files(dir)), now);
            && pid in p'.pulls && p'.inflight == p.inflight && p'.archives == p.archives - {p.pulls[pid].id}
            && p'.pulls[pid] == p.pulls[pid].(phase := P.Download(0), target := dir, dir := dir)
  {
    Q.BuildRecordsItsDir(c, p, pid, dir);
    hide P.AfterBuild, P.History, Q.Entries, Q.Numbered, Q.Awaited, Q.PullsOk;
  }

  /**
    A pull that nobody disturbs and nothing goes wrong in: the entry is found, its files are resolved and
    downloaded, and the job ends READY with what the download returned, in these four steps; a wait for extraction
    is forgotten.
   */
  lemma PullSucceeds(s: Setup, tr: Trace, pid: nat, dir: string, path: string, total: int) returns (longer: Trace)
    requires IsTrace(s, tr) && tr.worlds != [] && pid in End(tr).puller.pulls
    requires var x := End(tr).puller.pulls[pid]; x.phase.Lookup? && !x.aborted && Completed(End(tr).db.rows, x.id)
    ensures IsTrace(s, longer) && longer.worlds != []
    ensures longer.actions ==
            tr.actions + [Pull(P.FindDone(pid, P.Present)), Pull(P.BuildDone(pid, P.Files(dir))),
                          Pull(P.DownloadDone(pid, P.Fetched(path, total))), Pull(P.Write(pid))]
    ensures var w, w' := End(tr), End(longer); var id := w.puller.pulls[pid].id; var r := w.db.rows[id];
            && w'.db.rows == w.db.rows[id := r.(state := Ready, localPath := Some(path), bytesDownloaded := total,
                                                bytesTotal := total, completedAt := Some(w.now), updatedAt := w.now,
                                                lastError := None, nextAttemptAt := None, blob := None,
                                                claimedAt := None)]
            && w'.db.fired == w.db.fired + [Event(id, CompletedTorbox, Ready)]
            && w'.puller.archives == w.puller.archives - {id}
  {
    hide IsTrace, Exec, P.PullStep, P.PullStmt, P.Aborted, Inv, Q.Sound, NextWorld, Enabled, PullsOk;
    PullIsSound(s, tr, pid);
    FoundGoesOn(s.pull, End(tr).puller, pid, dir, End(tr).now);
    var found := Take(s, tr, P.FindDone(pid, P.Present));
    TraceIsSound(s, found);
    BuiltGoesOn(s.pull, End(found).puller, pid, dir, End(found).now);
    var built := Take(s, found, P.BuildDone(pid, P.Files(dir)));
    longer := FetchedBecomesReady(s, built, pid, path, total);
  }

  lemma TraceIsSound(s: Setup, tr: Trace)
    requires IsTrace(s, tr) && tr.worlds != []
    ensures Q.Sound(s.pull, End(tr).puller)
  {
    hide Inv, Enabled, NextWorld, Q.Sound, PullsOk;
    ReachableInv(s, tr.worlds, tr.actions, |tr.actions|);
    InvHasPulls(s, End(tr));
  }

  // ----- Failure -----

  /** What a step of pull `pid` that fails gives as the reason. */
  function Failure(a: P.Action, pid: nat): Option<string> {
    if a == P.FindDone(pid, P.NoFiles) then Some("torbox item has no files yet")
    else if a.FindDone? && a.pid == pid && a.found.LookupFailed? then Some("lookup: " + a.found.reason)
    else if a.BuildDone? && a.pid == pid && a.built.BuildFailed? then Some("build file list: " + a.built.reason)
    else if a.DownloadDone? && a.pid == pid && a.ran.RunFailed? then Some("download: " + a.ran.reason)
    else None
  }

  lemma FailureGoesOn(c: P.Config, p: P.Puller, pid: nat, a: P.Action, now: Time)
    requires P.Enabled(c, p, a) && Failure(a, pid).Some?
    requires pid in p.pulls && !P.Aborted(p, p.pulls[pid].id)
    ensures P.PullStmt(c, p, a, now) == None
    ensures var p' := P.PullStep(c, p, a, now);
            && pid in p'.pulls && p'.pulls[pid].id == p.pulls[pid].id && p'.pulls[pid].row == p.pulls[pid].row
            && p'.pulls[pid].phase == P.Retry(Failure(a, pid).value)
            && p'.archives == (if a.BuildDone? then p.archives - {p.pulls[pid].id} else p.archives)
  {
    hide P.Aborted, P.History;
  }

  lemma RetryIsWritten(c: P.Config, p: P.Puller, pid: nat, reason: string, db: Db, now: Time)
    requires pid in p.pulls && p.pulls[pid].phase == P.Retry(reason) && p.pulls[pid].row.state == CompletedTorbox
    requires p.pulls[pid].id in db.rows && db.rows[p.pulls[pid].id].state == CompletedTorbox
    ensures P.Enabled(c, p, P.Write(pid)) && P.PullStmt(c, p, P.Write(pid), now).Some?
    ensures P.PullStep(c, p, P.Write(pid), now).archives == p.archives
    ensures var db', id := Exec(db, P.PullStmt(c, p, P.Write(pid), now).value, now), p.pulls[pid].id;
            var r := db.rows[id];
            if p.pulls[pid].row.attempts + 1 >= c.maxRetries then
              && db'.rows == db.rows[id := r.(state := Failed, completedAt := Some(now), updatedAt := now,
                                              lastError := Some("puller exhausted: " + reason), nextAttemptAt := None)]
              && db'.fired == db.fired + [Event(id, CompletedTorbox, Failed)]
            else
              && db'.rows == db.rows[id := r.(attempts := r.attempts + 1, nextAttemptAt := Some(now + 120),
                                              lastError := Some(reason), claimedAt := None, updatedAt := now)]
              && db'.fired == db.fired
  {
    hide Observe;
    assert db.fired + [] == db.fired;
  }

  /**
    A pull that fails, wherever it does, costs its job an attempt and two minutes, or ends it if the copy says that
    this was the last attempt; the reason is recorded either way.
   */
  lemma FailureIsCounted(s: Setup, tr: Trace, pid: nat, a: P.Action) returns (longer: Trace)
    requires IsTrace(s, tr) && tr.worlds != [] && pid in End(tr).puller.pulls && !End(tr).puller.pulls[pid].aborted
    requires P.Enabled(s.pull, End(tr).puller, a) && Failure(a, pid).Some?
    requires var id := End(tr).puller.pulls[pid].id; Completed(End(tr).db.rows, id)
    ensures IsTrace(s, longer) && longer.worlds != [] && longer.actions == tr.actions + [Pull(a), Pull(P.Write(pid))]
    ensures var w, w' := End(tr), End(longer); var x := w.puller.pulls[pid]; var r := w.db.rows[x.id];
            var reason := Failure(a, pid).value;
            if x.row.attempts + 1 >= s.pull.maxRetries then
              && w'.db.rows == w.db.rows[x.id := r.(state := Failed, completedAt := Some(w.now), updatedAt := w.now,
                                                    lastError := Some("puller exhausted: " + reason),
                                                    nextAttemptAt := None)]
              && w'.db.fired == w.db.fired + [Event(x.id, CompletedTorbox, Failed)]
            else
              && w'.db.rows == w.db.rows[x.id := r.(attempts := r.attempts + 1, nextAttemptAt := Some(w.now + 120),
                                                    lastError := Some(reason), claimedAt := None, updatedAt := w.now)]
              && w'.db.fired == w.db.fired
    ensures var w := End(tr);
            End(longer).puller.archives ==
            if a.BuildDone? then w.puller.archives - {w.puller.pulls[pid].id} else w.puller.archives
  {
    hide IsTrace, Exec, P.PullStep, P.PullStmt, P.Aborted, Failure;
    var w := End(tr);
    FailsWhenChecked(s.pull, w.puller, pid, a);
    PullIsSound(s, tr, pid);
    FailureGoesOn(s.pull, w.puller, pid, a, w.now);
    var failed := Take(s, tr, a);
    RetryIsWritten(s.pull, End(failed).puller, pid, Failure(a, pid).value, w.db, w.now);
    longer := Take(s, failed, P.Write(pid));
  }

  lemma FailsWhenChecked(c: P.Config, p: P.Puller, pid: nat, a: P.Action)
    requires P.Enabled(c, p, a) && Failure(a, pid).Some?
    ensures pid in p.pulls && p.pulls[pid].phase.Checked() && !a.Restart? && !a.List?
  {
  }

  // ----- Archives only -----

  /** Since when the pulls of the job have seen archives only, the present one included. */
  function SeenSince(p: P.Puller, id: string, now: Time): Time {
    if id in p.archives then p.archives[id] else now
  }

  lemma ArchivesGoOn(c: P.Config, p: P.Puller, pid: nat, now: Time)
    requires pid in p.pulls && p.pulls[pid].phase.Build? && !P.Aborted(p, p.pulls[pid].id)
    ensures P.PullStmt(c, p, P.BuildDone(pid, P.ArchivesOnly), now) == None
    ensures var p1 := P.PullStep(c, p, P.BuildDone(pid, P.ArchivesOnly), now);
            && P.Enabled(c, p1, P.NoteArchives(pid)) && P.PullStmt(c, p1, P.NoteArchives(pid), now) == None
            && var p2 := P.PullStep(c, p1, P.NoteArchives(pid), now);
               && pid in p2.pulls && p2.pulls[pid].id == p.pulls[pid].id && p2.pulls[pid].row == p.pulls[pid].row
               && p2.pulls[pid].phase == P.Decide(SeenSince(p, p.pulls[pid].id, now))
               && p2.archives == p.archives[p.pulls[pid].id := SeenSince(p, p.pulls[pid].id, now)]
  {
    hide P.Aborted, P.History;
  }

  lemma DecisionIsWritten(c: P.Config, p: P.Puller, pid: nat, since: Time, db: Db, now: Time)
    requires pid in p.pulls && p.pulls[pid].phase == P.Decide(since) && p.pulls[pid].row.state == CompletedTorbox
    requires p.pulls[pid].id in db.rows && db.rows[p.pulls[pid].id].state == CompletedTorbox
    ensures P.Enabled(c, p, P.Write(pid)) && P.PullStmt(c, p, P.Write(pid), now).Some?
    ensures P.PullStep(c, p, P.Write(pid), now).archives ==
            if now - since >= c.archiveWait then p.archives - {p.pulls[pid].id} else p.archives
    ensures var db', id := Exec(db, P.PullStmt(c, p, P.Write(pid), now).value, now), p.pulls[pid].id;
            var r := db.rows[id];
            if now - since >= c.archiveWait then
              && db'.rows == db.rows[id := r.(state := Failed, completedAt := Some(now), updatedAt := now,
                                              lastError := Some(P.ARCHIVES_ONLY), nextAttemptAt := None)]
              && db'.fired == db.fired + [Event(id, CompletedTorbox, Failed)]
            else
              && db'.rows == db.rows[id := r.(nextAttemptAt := Some(now + 60), lastError := Some(P.ARCHIVES_ONLY),
                                              claimedAt := None, updatedAt := now)]
              && db'.fired == db.fired
  {
    hide Observe;
    assert db.fired + [] == db.fired;
  }

  /**
    A pull that finds archives only costs no attempt: the job is looked at again in a minute, or failed once the
    wait has lasted as long as configured.
   */
  lemma ArchivesAreAwaited(s: Setup, tr: Trace, pid: nat) returns (longer: Trace)
    requires IsTrace(s, tr) && tr.worlds != [] && pid in End(tr).puller.pulls
    requires var x := End(tr).puller.pulls[pid]; x.phase.Build? && !x.aborted && Completed(End(tr).db.rows, x.id)
    ensures IsTrace(s, longer) && longer.worlds != []
    ensures longer.actions ==
            tr.actions + [Pull(P.BuildDone(pid, P.ArchivesOnly)), Pull(P.NoteArchives(pid)), Pull(P.Write(pid))]
    ensures var w, w' := End(tr), End(longer); var id := w.puller.pulls[pid].id; var r := w.db.rows[id];
            if w.now - SeenSince(w.puller, id, w.now) >= s.pull.archiveWait then
              && w'.db.rows == w.db.rows[id := r.(state := Failed, completedAt := Some(w.now), updatedAt := w.now,
                                                  lastError := Some(P.ARCHIVES_ONLY), nextAttemptAt := None)]
              && w'.db.fired == w.db.fired + [Event(id, CompletedTorbox, Failed)]
              && w'.puller.archives == w.puller.archives - {id}
            else
              && w'.puller.archives == w.puller.archives[id := SeenSince(w.puller, id, w.now)]
              && w'.db.rows == w.db.rows[id := r.(nextAttemptAt := Some(w.now + 60), claimedAt := None,
                                                  lastError := Some(P.ARCHIVES_ONLY), updatedAt := w.now)]
              && w'.db.fired == w.db.fired
  {
    hide IsTrace, Exec, P.PullStep, P.PullStmt, P.Aborted, SeenSince;
    var w := End(tr);
    PullIsSound(s, tr, pid);
    ArchivesGoOn(s.pull, w.puller, pid, w.now);
    var built := Take(s, tr, P.BuildDone(pid, P.ArchivesOnly));
    var noted := Take(s, built, P.NoteArchives(pid));
    DecisionIsWritten(s.pull, End(noted).puller, pid, SeenSince(w.puller, w.puller.pulls[pid].id, w.now), w.db, w.now);
    longer := Take(s, noted, P.Write(pid));
  }

  // ----- Tick -----

  /**
    What Tick does with the next row of its listing: a row with a local path is published with that path and starts
    no pull; any other starts one exactly if the job is not being pulled and the pool has room.
   */
  lemma ConsiderDecides(c: P.Config, p: P.Puller, now: Time)
    requires P.Enabled(c, p, P.Consider)
    ensures var e := p.tick.todo[0]; var stmt := P.PullStmt(c, p, P.Consider, now);
            var p' := P.PullStep(c, p, P.Consider, now);
            && p'.tick == (if |p.tick.todo| == 1 then P.Resting else P.Filling(p.tick.todo[1..]))
            && if e.row.localPath.Some? && e.row.localPath.value != "" then
                 && stmt == Some(MarkLocalReady(e.id, e.row.localPath.value, e.row.bytesTotal))
                 && p'.inflight == p.inflight && p'.pulls == p.pulls
               else if e.id in p.inflight || |p.inflight| >= c.limit then
                 stmt == None && p'.inflight == p.inflight && p'.pulls == p.pulls
               else
                 && stmt == None && p'.inflight == p.inflight[e.id := p.next] && p'.next == p.next + 1
                 && p'.pulls == p.pulls[p.next := P.Pull(e.id, e.row, P.Lookup, false, "", "")]
  {
    assert p.tick.todo[1..] == [] <==> |p.tick.todo| == 1;
  }
}
