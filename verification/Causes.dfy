/** Why a job is in the state it is in: every change the hooks hear of has one cause, in every run. */
module Causes {
  import opened Options
  import opened Jobs
  import opened StoreSpec
  import opened PollerSpec
  import opened SubmitterSpec
  import opened Pipeline
  import opened PipelineSafety
  import opened PipelineTheorems
  import P = PullerSpec
  import Q = PullerSafety
  import R = PullerRefill
  import S = Submitter
  import Text
  import V = VisitFate

  // ----- The causes -----

  /** The poller, visiting the job with this entry, if any. */
  predicate Visits(w: World, a: Action, id: string) {
    a.VisitStep? && w.poll.Passing? && w.poll.visit.Some? && w.poll.visit.value.id == id
  }

  /** A pull of the job writes what it has come to. */
  predicate Writes(w: World, a: Action, id: string) {
    a.Pull? && a.a.Write? && a.a.pid in w.puller.pulls && w.puller.pulls[a.a.pid].id == id
  }

  /** A submission of the job returns. */
  predicate Returns(w: World, a: Action, id: string) {
    a.Answer? && a.id == id && id in w.subs
  }

  /** The submitter gives the job up. */
  predicate SubmitterFails(w: World, a: Action, id: string) {
    Returns(w, a, id) &&
    var j := w.subs[id].j;
    !S.HasPayload(j) || (a.reply.Refused? && !S.IsBusy(a.reply.error) && j.attempts >= 4)
  }

  /** The poller gives the job up. */
  predicate PollerFails(w: World, a: Action, id: string) {
    Visits(w, a, id) &&
    var j := w.poll.visit.value.j;
    match w.poll.visit.value.item
    case None =>
      && w.now - (if j.submittedAt.Some? then j.submittedAt.value else j.createdAt) >= 300
      && w.now - j.updatedAt > 900
    case Some(it) =>
      V.SaysFailed(it) || (!V.SaysDone(it) && (V.HasStalled(j, it, w.now) || V.IsOverdue(j, w.now)))
  }

  /** The puller gives the job up. */
  predicate PullerFails(c: P.Config, w: World, a: Action, id: string) {
    Writes(w, a, id) &&
    var x := w.puller.pulls[a.a.pid];
    match x.phase
    case Retry(_) => x.row.attempts + 1 >= c.maxRetries
    case Decide(since) => w.now - since >= c.archiveWait
    case _ => false
  }

  /** TorBox took something that was there to send. */
  predicate SubmitterSucceeds(w: World, a: Action, id: string) {
    Returns(w, a, id) && S.HasPayload(w.subs[id].j) && a.reply.Created?
  }

  /** TorBox's entry shows a beginning, but neither a failure nor the end. */
  predicate PollerSeesStart(w: World, a: Action, id: string) {
    Visits(w, a, id) && w.poll.visit.value.item.Some? &&
    var it := w.poll.visit.value.item.value;
    V.SaysBegun(it) && !V.SaysFailed(it) && !V.SaysDone(it)
  }

  /** TorBox's entry says that the files are there, and does not say failed. */
  predicate PollerSeesEnd(w: World, a: Action, id: string) {
    Visits(w, a, id) && w.poll.visit.value.item.Some? &&
    var it := w.poll.visit.value.item.value;
    V.SaysDone(it) && !V.SaysFailed(it)
  }

  predicate PullerSucceeds(w: World, a: Action, id: string) {
    Writes(w, a, id) && w.puller.pulls[a.a.pid].phase.Publish?
  }

  /** A client, who has read the job. */
  predicate ClientCancels(w: World, a: Action, id: string) {
    a.Cancel? && a.client in w.clients && w.clients[a.client].id == id
  }

  predicate IsCause(c: P.Config, w: World, a: Action, e: Event) {
    match e.to
    case New => false
    case Submitted => SubmitterSucceeds(w, a, e.id)
    case Downloading => PollerSeesStart(w, a, e.id)
    case CompletedTorbox => PollerSeesEnd(w, a, e.id)
    case Ready => PullerSucceeds(w, a, e.id)
    case Canceled => ClientCancels(w, a, e.id)
    case Failed => SubmitterFails(w, a, e.id) || PollerFails(w, a, e.id) || PullerFails(c, w, a, e.id)
  }

  // ----- One action -----

  lemma AnswerHasCause(c: P.Config, w: World, id: string, reply: Reply)
    requires id in w.subs
    ensures var fires := Fires(w.db.rows, SubmitStmt(id, w.subs[id].j, reply, w.now));
            fires != [] ==> IsCause(c, w, Answer(id, reply), fires[0])
  {
    hide V.SaysFailed, V.SaysDone, V.SaysBegun;
  }

  lemma CancelHasCause(c: P.Config, w: World, client: nat)
    requires client in w.clients
    ensures var fires := Fires(w.db.rows, CancelStmt(w.clients[client], w.now));
            fires != [] ==> IsCause(c, w, Cancel(client), fires[0])
  {
    hide V.SaysFailed, V.SaysDone, V.SaysBegun;
  }

  lemma WriteHasCause(c: P.Config, w: World, pid: nat)
    requires pid in w.puller.pulls && w.puller.pulls[pid].phase.Writing()
    ensures var x := w.puller.pulls[pid]; var stmt := P.PhaseStmt(c, x.id, x.row, x.phase, w.now);
            && stmt.Some?
            && var fires := Fires(w.db.rows, stmt.value);
               fires != [] ==> IsCause(c, w, Pull(P.Write(pid)), fires[0])
  {
    hide V.SaysFailed, V.SaysDone, V.SaysBegun;
  }

  lemma MissingHasCause(c: P.Config, w: World, v: Visit)
    requires w.poll.Passing? && w.poll.visit == Some(v) && v.item.None? && VisitStmt(v, w.now).Some?
    ensures var fires := Fires(w.db.rows, VisitStmt(v, w.now).value);
            fires != [] ==> IsCause(c, w, VisitStep, fires[0])
  {
    hide V.SaysFailed, V.SaysDone, V.SaysBegun;
  }

  lemma CloseHasCause(c: P.Config, w: World, v: Visit)
    requires w.poll.Passing? && w.poll.visit == Some(v) && VisitOk(w.db, v, w.now)
    requires v.item.Some? && v.pc.Close? && VisitStmt(v, w.now).Some?
    ensures var fires := Fires(w.db.rows, VisitStmt(v, w.now).value);
            fires != [] ==> IsCause(c, w, VisitStep, fires[0])
  {
    hide Text.HasAnyPrefix, Text.Lower, InHand, V.SaysFailed, V.SaysDone, V.SaysBegun, IsLost, Reason;
    V.EntrySays(v.item.value);
    if v.pc.verdict == Stalled {
      assert V.HasStalled(v.j, v.item.value, w.now);
    } else {
      assert V.IsOverdue(v.j, w.now);
    }
    assert PollerFails(w, VisitStep, v.id);
  }

  lemma EntryHasCause(c: P.Config, w: World, v: Visit)
    requires w.poll.Passing? && w.poll.visit == Some(v) && VisitOk(w.db, v, w.now)
    requires v.item.Some? && !v.pc.Close? && VisitStmt(v, w.now).Some?
    ensures var fires := Fires(w.db.rows, VisitStmt(v, w.now).value);
            fires != [] ==> IsCause(c, w, VisitStep, fires[0])
  {
    hide Text.HasAnyPrefix, Text.Lower, InHand, V.SaysFailed, V.SaysDone, V.SaysBegun, V.HasStalled, V.IsOverdue,
         IsStalled, IsTimedOut, IsLost, Moves, NewActiveID, NewFolder, LearnsIDs;
    V.EntrySays(v.item.value);
  }

  // ----- One step of the pipeline -----

  /** The change, if any, that this step commits, and its cause. */
  lemma StepHasCause(s: Setup, w: World, a: Action) returns (change: seq<Event>)
    requires Inv(s, w) && Enabled(s, w, a)
    ensures NextDb(s, w, a).fired == w.db.fired + change && |change| <= 1
    ensures change != [] ==> IsCause(s.pull, w, a, change[0])
  {
    hide Inv, Apply, Observe, IsCause, VisitStmt, SubmitStmt, CancelStmt, P.PhaseStmt, P.Enabled, IsListing,
         IsPullListing, VisitOk;
    change := [];
    match a
    case Answer(id, reply) =>
      AnswerHasCause(s.pull, w, id, reply);
      change := Fires(w.db.rows, SubmitStmt(id, w.subs[id].j, reply, w.now));
    case Cancel(client) =>
      CancelHasCause(s.pull, w, client);
      change := Fires(w.db.rows, CancelStmt(w.clients[client], w.now));
    case VisitStep =>
      change := VisitHasCause(s, w);
    case Pull(pa) =>
      change := PullHasCause(s, w, pa);
    case _ =>
      assert w.db.fired + [] == w.db.fired;
  }

  lemma VisitHasCause(s: Setup, w: World) returns (change: seq<Event>)
    requires Inv(s, w) && Enabled(s, w, VisitStep)
    ensures NextDb(s, w, VisitStep).fired == w.db.fired + change && |change| <= 1
    ensures change != [] ==> IsCause(s.pull, w, VisitStep, change[0])
  {
    hide Inv, Apply, Observe, IsCause, VisitStmt, VisitOk, IsListing, IsPullListing;
    VisitIsOk(s, w);
    var v := w.poll.visit.value;
    change := [];
    if VisitStmt(v, w.now).Some? {
      change := Fires(w.db.rows, VisitStmt(v, w.now).value);
      if v.item.None? {
        MissingHasCause(s.pull, w, v);
      } else if v.pc.Close? {
        CloseHasCause(s.pull, w, v);
      } else {
        EntryHasCause(s.pull, w, v);
      }
    } else {
      assert w.db.fired + [] == w.db.fired;
    }
  }

  lemma PullHasCause(s: Setup, w: World, pa: P.Action) returns (change: seq<Event>)
    requires Inv(s, w) && Enabled(s, w, Pull(pa))
    ensures NextDb(s, w, Pull(pa)).fired == w.db.fired + change && |change| <= 1
    ensures change != [] ==> IsCause(s.pull, w, Pull(pa), change[0])
  {
    hide Inv, Apply, Observe, IsCause, P.PhaseStmt, IsListing, IsPullListing;
    change := [];
    if pa.Write? {
      WriteHasCause(s.pull, w, pa.pid);
      var x := w.puller.pulls[pa.pid];
      change := Fires(w.db.rows, P.PhaseStmt(s.pull, x.id, x.row, x.phase, w.now).value);
    } else {
      if pa.Consider? {
        NextHasNoPath(s, w);
      }
      assert w.db.fired + [] == w.db.fired;
    }
  }

  lemma NextHasNoPath(s: Setup, w: World)
    requires Inv(s, w) && w.puller.tick.Filling? && w.puller.tick.todo != []
    ensures !P.HasLocalPath(w.puller.tick.todo[0].row)
  {
    hide Consistent, RowsOk, SubsOk, PollOk, Q.Sound, PullsOk, Apart, Known;
    assert TodoOk(w.db.rows, w.puller, w.puller.tick.todo[0]);
  }

  // ----- Every run -----

  /**
    In every run each step changes the state of one job at most, and for the reason proper to that change: a job
    is SUBMITTED because TorBox took it, COMPLETED_TORBOX because TorBox's entry says so, READY because a pull of
    it has its files, CANCELED because a client asked, and FAILED only for one of the reasons spelled out above.
   */
  lemma EveryChangeHasItsCause(s: Setup, worlds: seq<World>, actions: seq<Action>, n: nat)
      returns (change: seq<Event>)
    requires IsRun(s, worlds, actions) && n < |actions|
    ensures worlds[n + 1].db.fired == worlds[n].db.fired + change && |change| <= 1
    ensures change != [] ==> IsCause(s.pull, worlds[n], actions[n], change[0])
  {
    hide Inv, NextWorld, Enabled, IsCause, NextDb;
    ReachableInv(s, worlds, actions, n);
    assert Step(s, worlds[n], actions[n], worlds[n + 1]);
    NextWorldDb(s, worlds[n], actions[n]);
    change := StepHasCause(s, worlds[n], actions[n]);
  }

  // ----- Where the files of a READY job come from -----

  /** Before step `n` a download of this pull, for this job, returned this directory and this size. */
  ghost predicate WasFetched(worlds: seq<World>, actions: seq<Action>, n: nat, pid: nat, id: string,
                             path: string, total: int)
    requires |worlds| == |actions| + 1 && n < |worlds|
  {
    exists k: nat ::
      && k < n && actions[k] == Pull(P.DownloadDone(pid, P.Fetched(path, total)))
      && pid in worlds[k].puller.pulls && IsFetching(worlds[k].puller.pulls[pid], id)
  }

  /** The pull has all file downloads behind it, and nobody has aborted it. */
  predicate IsFetching(x: P.Pull, id: string) {
    x.id == id && x.phase == P.Download(0) && !x.aborted
  }

  /** A pull about to publish was so before, or its download has just returned. */
  predicate IsPublishing(p: P.Puller, a: P.Action, p': P.Puller, pid: nat) {
    pid in p'.pulls && p'.pulls[pid].phase.Publish? ==>
      var x' := p'.pulls[pid];
      pid in p.pulls &&
      var x := p.pulls[pid];
      x.id == x'.id &&
      (x.phase == x'.phase ||
       (a == P.DownloadDone(pid, P.Fetched(x'.phase.path, x'.phase.total)) && IsFetching(x, x'.id)))
  }

  lemma FetchIsPublishing(c: P.Config, p: P.Puller, x: nat, ran: P.Ran, now: Time, pid: nat)
    requires Q.Sound(c, p) && P.Enabled(c, p, P.DownloadDone(x, ran))
    ensures IsPublishing(p, P.DownloadDone(x, ran), P.PullStep(c, p, P.DownloadDone(x, ran), now), pid)
  {
    hide Q.Entries, Q.Numbered, Q.Awaited, Q.PullsOk;
  }

  lemma BuildIsPublishing(p: P.Puller, x: nat, built: P.Built, pid: nat)
    requires x in p.pulls
    ensures IsPublishing(p, P.BuildDone(x, built), P.AfterBuild(p, x, p.pulls[x], built), pid)
  {
    hide P.History;
  }

  lemma WriteIsPublishing(c: P.Config, p: P.Puller, x: nat, now: Time, a: P.Action, pid: nat)
    requires x in p.pulls
    ensures IsPublishing(p, a, P.AfterWrite(c, p, x, p.pulls[x], now), pid)
    ensures IsPublishing(p, a, P.AfterNote(p, x, p.pulls[x], now), pid)
  {
    hide P.History, P.GivesUp;
  }

  lemma ConsiderIsPublishing(c: P.Config, p: P.Puller, e: Listed, tick: P.Tick, pid: nat)
    ensures IsPublishing(p, P.Consider, P.Considered(c, p, e, tick), pid)
  {
    hide P.HasLocalPath;
  }

  lemma AbortIsPublishing(p: P.Puller, caller: nat, id: string, pid: nat)
    ensures IsPublishing(p, P.AbortBegin(caller, id), P.AbortBegun(p, caller, id), pid)
  {
  }

  lemma StepIsPublishing(c: P.Config, p: P.Puller, a: P.Action, now: Time, pid: nat)
    requires Q.Sound(c, p) && P.Enabled(c, p, a)
    ensures IsPublishing(p, a, P.PullStep(c, p, a, now), pid)
  {
    if a.DownloadDone? {
      hide P.PullStep, P.Enabled, IsPublishing;
      FetchIsPublishing(c, p, a.pid, a.ran, now, pid);
    } else {
      OtherIsPublishing(c, p, a, now, pid);
    }
  }

  lemma OtherIsPublishing(c: P.Config, p: P.Puller, a: P.Action, now: Time, pid: nat)
    requires P.Enabled(c, p, a) && !a.DownloadDone?
    ensures IsPublishing(p, a, P.PullStep(c, p, a, now), pid)
  {
    hide P.Considered, P.AfterBuild, P.AfterNote, P.AfterWrite, P.AbortBegun, P.Aborted, P.History, P.GivesUp;
    match a
    case Consider => ConsiderIsPublishing(c, p, p.tick.todo[0], P.Filled(p.tick.todo[1..]), pid);
    case BuildDone(x, built) => BuildIsPublishing(p, x, built, pid);
    case Write(x) => WriteIsPublishing(c, p, x, now, a, pid);
    case NoteArchives(x) => WriteIsPublishing(c, p, x, now, a, pid);
    case AbortBegin(caller, id) => AbortIsPublishing(p, caller, id, pid);
    case _ =>
  }

  lemma {:induction false} PublishWasFetched(s: Setup, worlds: seq<World>, actions: seq<Action>, n: nat, pid: nat)
    requires IsRun(s, worlds, actions) && n < |worlds|
    requires pid in worlds[n].puller.pulls && worlds[n].puller.pulls[pid].phase.Publish?
    ensures var x := worlds[n].puller.pulls[pid];
            WasFetched(worlds, actions, n, pid, x.id, x.phase.path, x.phase.total)
  {
    hide Inv, Enabled, NextWorld, P.PullStep, P.Enabled;
    if n > 0 {
      ReachableInv(s, worlds, actions, n - 1);
      assert Step(s, worlds[n - 1], actions[n - 1], worlds[n]);
      WorldIsPublishing(s, worlds[n - 1], actions[n - 1], pid);
      var x := worlds[n].puller.pulls[pid];
      if worlds[n - 1].puller.pulls[pid].phase == x.phase {
        PublishWasFetched(s, worlds, actions, n - 1, pid);
      }
    }
  }

  lemma WorldIsPublishing(s: Setup, w: World, a: Action, pid: nat)
    requires Inv(s, w) && Enabled(s, w, a)
    ensures var p' := NextWorld(s, w, a).puller;
            pid in p'.pulls && p'.pulls[pid].phase.Publish? ==>
              && pid in w.puller.pulls && w.puller.pulls[pid].id == p'.pulls[pid].id
              && (w.puller.pulls[pid].phase == p'.pulls[pid].phase ||
                  (a == Pull(P.DownloadDone(pid, P.Fetched(p'.pulls[pid].phase.path, p'.pulls[pid].phase.total))) &&
                   IsFetching(w.puller.pulls[pid], p'.pulls[pid].id)))
  {
    hide Inv, Enabled, NextWorld, P.PullStep, P.Enabled;
    R.WorldPuller(s, w, a);
    InvIsSound(s, w);
    if a.Pull? {
      StepIsPublishing(s.pull, w.puller, a.a, w.now, pid);
    }
  }

  lemma InvIsSound(s: Setup, w: World)
    requires Inv(s, w)
    ensures Q.Sound(s.pull, w.puller)
  {
    hide Q.Sound, PullsOk, RowsOk, SubsOk, PollOk, TickOk, Apart, Known, Consistent;
  }

  lemma PublishIsWritten(s: Setup, w: World, pid: nat)
    requires Enabled(s, w, Pull(P.Write(pid))) && w.puller.pulls[pid].phase.Publish?
    requires Completed(w.db.rows, w.puller.pulls[pid].id)
    ensures var x := w.puller.pulls[pid]; var r := w.db.rows[x.id];
            NextDb(s, w, Pull(P.Write(pid))).rows ==
            w.db.rows[x.id := r.(state := Ready, localPath := Some(x.phase.path), bytesDownloaded := x.phase.total,
                                 bytesTotal := x.phase.total, completedAt := Some(w.now), updatedAt := w.now,
                                 lastError := None, nextAttemptAt := None, blob := None, claimedAt := None)]
  {
    hide IsListing, IsPullListing, Observe;
  }

  /**
    In every run a job becomes READY only by a pull of it whose own download returned, and with exactly the
    directory and the size this download returned.
   */
  lemma ReadyWasFetched(s: Setup, worlds: seq<World>, actions: seq<Action>, n: nat, e: Event)
      returns (pid: nat, path: string, total: int)
    requires IsRun(s, worlds, actions) && n < |actions|
    requires worlds[n + 1].db.fired == worlds[n].db.fired + [e] && e.to == Ready
    ensures actions[n] == Pull(P.Write(pid)) && e.from == CompletedTorbox
    ensures WasFetched(worlds, actions, n, pid, e.id, path, total)
    ensures e.id in worlds[n].db.rows &&
            var w, r := worlds[n], worlds[n].db.rows[e.id];
            worlds[n + 1].db.rows ==
            w.db.rows[e.id := r.(state := Ready, localPath := Some(path), bytesDownloaded := total, bytesTotal := total,
                                 completedAt := Some(w.now), updatedAt := w.now, lastError := None,
                                 nextAttemptAt := None, blob := None, claimedAt := None)]
  {
    hide Inv, Enabled, NextWorld, NextDb, WasFetched;
    var w, a := worlds[n], actions[n];
    var change := EveryChangeHasItsCause(s, worlds, actions, n);
    assert change == [e] by { assert (w.db.fired + change)[|w.db.fired|..] == change; }
    assert Step(s, w, a, worlds[n + 1]);
    NextWorldDb(s, w, a);
    pid := a.a.pid;
    path, total := w.puller.pulls[pid].phase.path, w.puller.pulls[pid].phase.total;
    PublishWasFetched(s, worlds, actions, n, pid);
    ReadyIsCompleted(s, w, pid, e);
    PublishIsWritten(s, w, pid);
  }

  lemma ReadyIsCompleted(s: Setup, w: World, pid: nat, e: Event)
    requires Enabled(s, w, Pull(P.Write(pid))) && w.puller.pulls[pid].phase.Publish? && w.puller.pulls[pid].id == e.id
    requires NextDb(s, w, Pull(P.Write(pid))).fired == w.db.fired + [e]
    ensures Completed(w.db.rows, e.id) && e.from == CompletedTorbox
  {
    hide IsListing, IsPullListing, Observe, Apply;
    var fired := w.db.fired;
    assert (fired + [e])[|fired|] == e && |fired + [e]| == |fired| + 1;
  }

  /** Nothing touches the files of a row that stays READY. */
  lemma ReadyFilesStay(s: Setup, w: World, a: Action, id: string)
    requires Inv(s, w) && Enabled(s, w, a) && id in NextDb(s, w, a).rows
    requires NextDb(s, w, a).rows[id].state == Ready && NextDb(s, w, a).fired == w.db.fired
    ensures id in w.db.rows && w.db.rows[id].state == Ready
    ensures NextDb(s, w, a).rows[id].localPath == w.db.rows[id].localPath
    ensures NextDb(s, w, a).rows[id].bytesTotal == w.db.rows[id].bytesTotal
  {
    hide Inv, Enabled, StmtOf, Apply, Fires, Observe;
    OnlyAddInserts(s, w, a);
    if StmtOf(s, w, a).Some? {
      var stmt := StmtOf(s, w, a).value;
      QuietKeepsStates(w.db.rows, stmt, w.now);
      if stmt.SetLocalProgress? {
        ProgressIsOfVisit(s, w, a);
      }
      FilesStay(w.db.rows, stmt, w.now, id);
    }
  }

  lemma FilesStay(rows: Table, stmt: Stmt, now: Time, id: string)
    requires Fires(rows, stmt) == [] && id in rows && id in Apply(rows, stmt, now)
    requires !(stmt.SetLocalProgress? && stmt.id == id)
    ensures Apply(rows, stmt, now)[id].localPath == rows[id].localPath
    ensures Apply(rows, stmt, now)[id].bytesTotal == rows[id].bytesTotal
  {
  }

  lemma ProgressIsOfVisit(s: Setup, w: World, a: Action)
    requires Inv(s, w) && Enabled(s, w, a) && StmtOf(s, w, a).Some? && StmtOf(s, w, a).value.SetLocalProgress?
    ensures var id := StmtOf(s, w, a).value.id; id in w.db.rows ==> w.db.rows[id].state != Ready
  {
    hide Inv, IsListing, IsPullListing, VisitOk, VisitStmt;
    OnlyVisitsCount(s, w, a);
    VisitIsOk(s, w);
    VisitCounts(w.db, w.poll.visit.value, w.now);
  }

  lemma OnlyVisitsCount(s: Setup, w: World, a: Action)
    requires Enabled(s, w, a) && StmtOf(s, w, a).Some? && StmtOf(s, w, a).value.SetLocalProgress?
    ensures a.VisitStep?
  {
    hide IsListing, IsPullListing, VisitStmt;
  }

  lemma VisitCounts(db: Db, v: Visit, now: Time)
    requires VisitOk(db, v, now) && VisitStmt(v, now).Some? && VisitStmt(v, now).value.SetLocalProgress?
    ensures VisitStmt(v, now).value.id == v.id && (v.id in db.rows ==> db.rows[v.id].state != Ready)
  {
    hide Text.HasAnyPrefix, Text.Lower, IsLost, IsStalled, IsTimedOut, NewActiveID, NewFolder, LearnsIDs, Reason;
  }

  /**
    A row has a local path exactly when it is READY; then its byte counts agree, its payload is gone, and path and
    size are those which a finished download of a pull of this very job has returned.
   */
  lemma {:induction false} ReadyIsTrustworthy(s: Setup, worlds: seq<World>, actions: seq<Action>, n: nat, id: string)
    requires IsRun(s, worlds, actions) && n < |worlds| && id in worlds[n].db.rows
    ensures var r := worlds[n].db.rows[id];
            && (r.localPath.Some? <==> r.state == Ready)
            && (r.state == Ready ==>
                  && r.bytesDownloaded == r.bytesTotal && r.blob.None?
                  && exists pid :: WasFetched(worlds, actions, n, pid, id, r.localPath.value, r.bytesTotal))
  {
    hide Inv, Enabled, NextWorld, NextDb, WasFetched;
    ReachableInv(s, worlds, actions, n);
    InvHasRow(s, worlds[n], id);
    var r := worlds[n].db.rows[id];
    if r.state == Ready && n > 0 {
      var w, a := worlds[n - 1], actions[n - 1];
      ReachableInv(s, worlds, actions, n - 1);
      assert Step(s, w, a, worlds[n]);
      NextWorldDb(s, w, a);
      var change := EveryChangeHasItsCause(s, worlds, actions, n - 1);
      if change == [] {
        assert worlds[n].db.fired == w.db.fired;
        ReadyFilesStay(s, w, a, id);
      } else {
        EventMoves(s, w, a, change[0]);
      }
      if change != [] && change[0].id == id {
        var pid, path, total := ReadyWasFetched(s, worlds, actions, n - 1, change[0]);
        StillFetched(worlds, actions, n, pid, id, path, total);
      } else {
        ReadyIsTrustworthy(s, worlds, actions, n - 1, id);
        var pid :| WasFetched(worlds, actions, n - 1, pid, id, r.localPath.value, r.bytesTotal);
        StillFetched(worlds, actions, n, pid, id, r.localPath.value, r.bytesTotal);
      }
    }
  }

  /** A step that commits a change changes this one row. */
  lemma EventMoves(s: Setup, w: World, a: Action, e: Event)
    requires Enabled(s, w, a) && NextDb(s, w, a).fired == w.db.fired + [e]
    ensures var rows, rows' := w.db.rows, NextDb(s, w, a).rows;
            && e.id in rows && rows[e.id].state == e.from && rows'.Keys == rows.Keys && rows'[e.id].state == e.to
            && forall k :: k in rows && k != e.id ==> rows'[k] == rows[k]
  {
    hide Enabled, StmtOf, Apply, Fires, Observe;
    var fired := w.db.fired;
    assert (fired + [e])[|fired|] == e && |fired + [e]| == |fired| + 1;
    var stmt := StmtOf(s, w, a);
    assert stmt.Some?;
    var fires := Fires(w.db.rows, stmt.value);
    assert fired + fires == fired + [e];
    assert (fired + fires)[|fired|..] == fires && (fired + [e])[|fired|..] == [e];
    FiringMovesOneRow(w.db.rows, stmt.value, w.now);
  }

  lemma InvHasRow(s: Setup, w: World, id: string)
    requires Inv(s, w) && id in w.db.rows
    ensures RowOk(s.Budget(), w.db.rows[id])
  {
    hide RowOk, Consistent, SubsOk, PollOk, Q.Sound, PullsOk, TickOk, Apart, Known;
  }

  lemma StillFetched(worlds: seq<World>, actions: seq<Action>, n: nat, pid: nat, id: string, path: string, total: int)
    requires |worlds| == |actions| + 1 && 0 < n < |worlds| && WasFetched(worlds, actions, n - 1, pid, id, path, total)
    ensures WasFetched(worlds, actions, n, pid, id, path, total)
  {
  }

  // ----- A submission in the pipeline -----

  lemma AnswerRuns(s: Setup, w: World, id: string, reply: Reply)
    requires Enabled(s, w, Answer(id, reply))
    ensures var w', stmt := NextWorld(s, w, Answer(id, reply)), SubmitStmt(id, w.subs[id].j, reply, w.now);
            && w'.now == w.now && w'.db == Exec(w.db, stmt, w.now)
            && w'.subs == if LostRace(w, id, reply) then w.subs[id := Releasing(w.subs[id].j)] else w.subs - {id}
  {
    hide IsListing, IsPullListing, Exec, SubmitStmt, LostRace;
  }

  lemma GiveBackRuns(s: Setup, w: World, id: string)
    requires id in w.subs && w.subs[id].Releasing?
    ensures Enabled(s, w, GiveBack(id)) && NextWorld(s, w, GiveBack(id)).db == Exec(w.db, Release(id), w.now)
    ensures NextWorld(s, w, GiveBack(id)).subs == w.subs - {id}
  {
    hide IsListing, IsPullListing, Exec;
  }

  /** A submission that nobody disturbs does in one or two steps of the pipeline what the submitter does. */
  lemma SubmissionIsSteps(s: Setup, w: World, id: string, reply: Reply)
    requires Enabled(s, w, Answer(id, reply))
    ensures var w1 := NextWorld(s, w, Answer(id, reply));
            var db := S.AfterSubmission(w.db, Listed(id, w.subs[id].j), reply, w.now);
            if id in w1.subs then
              && Enabled(s, w1, GiveBack(id))
              && NextWorld(s, w1, GiveBack(id)).db == db && id !in NextWorld(s, w1, GiveBack(id)).subs
            else w1.db == db
  {
    hide Enabled, NextWorld, Exec, SubmitStmt;
    AnswerRuns(s, w, id, reply);
    var w1 := NextWorld(s, w, Answer(id, reply));
    if id in w1.subs {
      GiveBackRuns(s, w1, id);
    }
  }
}
