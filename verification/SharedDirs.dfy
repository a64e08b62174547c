/** Which pulls can write into the directory of a job that was discarded. */
module SharedDirs {
  import opened Options
  import opened Jobs
  import opened StoreSpec
  import opened PollerSpec
  import opened SubmitterSpec
  import opened Pipeline
  import opened PipelineSafety
  import opened PipelineTheorems
  import opened PipelineRuns
  import opened JobDrives
  import opened LatePulls
  import Confinement
  import P = PullerSpec
  import Q = PullerSafety
  import R = PullerRefill

  /**
    What the directories of a run are made of: the category each job was added with, and the release name its
    directory is built from, which is that of its TorBox entry, else the recorded folder, else the file name.
   */
  datatype Naming = Naming(base: string, category: string -> string, release: string -> string) {
    function Dir(id: string): string {
      Confinement.JobDir(base, category(id), release(id))
    }
  }

  predicate NamedStep(nm: Naming, w: World, a: Action) {
    && (a.Add? ==> a.job.category == nm.category(a.id))
    && (a.Pull? && a.a.BuildDone? && a.a.built.Files? && a.a.pid in w.puller.pulls ==>
          var x := w.puller.pulls[a.a.pid];
          a.a.built.dir == Confinement.JobDir(nm.base, x.row.category, nm.release(x.id)))
  }

  /** Every pull is told the directory of its own row. */
  ghost predicate IsNamed(nm: Naming, worlds: seq<World>, actions: seq<Action>) {
    forall k :: 0 <= k < |actions| && k < |worlds| ==> NamedStep(nm, worlds[k], actions[k])
  }

  // ----- Whose directory a pull writes to -----

  predicate IsOf(nm: Naming, id: string, row: Row) {
    row.category == nm.category(id)
  }

  predicate PullIsNamed(nm: Naming, x: P.Pull) {
    IsOf(nm, x.id, x.row) && (x.phase.Download? ==> x.target == nm.Dir(x.id))
  }

  ghost predicate PullerIsNamed(nm: Naming, p: P.Puller) {
    && (forall pid :: pid in p.pulls ==> PullIsNamed(nm, p.pulls[pid]))
    && (p.tick.Filling? ==> forall i :: 0 <= i < |p.tick.todo| ==> IsOf(nm, p.tick.todo[i].id, p.tick.todo[i].row))
  }

  ghost predicate RowsAreNamed(nm: Naming, rows: Table) {
    forall id :: id in rows ==> IsOf(nm, id, rows[id])
  }

  /** A submission of a row still NEW has something to send exactly if the row has. */
  ghost predicate SubsAreTrue(rows: Table, subs: map<string, Submission>) {
    forall id :: id in subs && subs[id].Creating? && id in rows && rows[id].state == New ==>
      HasNoPayload(subs[id].j) == HasNoPayload(rows[id])
  }

  ghost predicate WorldIsNamed(nm: Naming, w: World) {
    RowsAreNamed(nm, w.db.rows) && PullerIsNamed(nm, w.puller) && SubsAreTrue(w.db.rows, w.subs)
  }

  /** No statement changes a category, or the payload of a row that stays NEW. */
  lemma StatementKeepsLabels(rows: Table, stmt: Stmt, now: Time, id: string)
    requires id in Apply(rows, stmt, now) && id in rows
    ensures var r, r' := rows[id], Apply(rows, stmt, now)[id];
            && r'.category == r.category
            && (r'.state == New ==>
                  r.state == New && r'.blob == r.blob && r'.magnet == r.magnet && r'.source == r.source)
  {
  }

  /** What a step of the puller keeps of a pull, and whose a new one is. */
  predicate PullIsKept(p: P.Puller, a: P.Action, p': P.Puller, pid: nat) {
    pid in p'.pulls ==>
      var x' := p'.pulls[pid];
      if pid in p.pulls then
        var x := p.pulls[pid];
        && x'.id == x.id && x'.row == x.row
        && (x'.phase.Download? ==>
              if x.phase.Download? then x'.target == x.target
              else a.BuildDone? && a.pid == pid && a.built.Files? && x'.target == a.built.dir)
      else
        a.Consider? && p.tick.Filling? && p.tick.todo != [] && x'.phase.Lookup? &&
        x'.id == p.tick.todo[0].id && x'.row == p.tick.todo[0].row
  }

  lemma ConsiderKeepsPull(c: P.Config, p: P.Puller, pid: nat)
    requires P.Enabled(c, p, P.Consider) && Q.Numbered(p.pulls, p.next)
    ensures PullIsKept(p, P.Consider, P.Considered(c, p, p.tick.todo[0], P.Filled(p.tick.todo[1..])), pid)
  {
    hide P.HasLocalPath, P.Filled;
  }

  lemma BuildKeepsPull(p: P.Puller, x: nat, built: P.Built, pid: nat)
    requires x in p.pulls && p.pulls[x].phase.Build?
    ensures PullIsKept(p, P.BuildDone(x, built), P.AfterBuild(p, x, p.pulls[x], built), pid)
  {
    hide P.History;
  }

  lemma WriteKeepsPull(c: P.Config, p: P.Puller, x: nat, now: Time, pid: nat, a: P.Action)
    requires x in p.pulls
    ensures PullIsKept(p, a, P.AfterWrite(c, p, x, p.pulls[x], now), pid)
    ensures PullIsKept(p, a, P.AfterNote(p, x, p.pulls[x], now), pid)
  {
    hide P.History, P.GivesUp;
  }

  lemma RestKeepsPull(p: P.Puller, x: nat, pid: nat, a: P.Action, phase: P.Phase)
    requires x in p.pulls && (phase.Download? ==> p.pulls[x].phase.Download?)
    ensures PullIsKept(p, a, P.Moved(p, x, p.pulls[x].(phase := phase)), pid)
  {
  }

  lemma AbortKeepsPull(p: P.Puller, caller: nat, id: string, pid: nat, a: P.Action)
    ensures PullIsKept(p, a, P.AbortBegun(p, caller, id), pid)
  {
  }

  lemma PhasesAfter(found: P.Found, ran: P.Ran)
    ensures !P.AfterFind(found).Download? && !P.AfterRun(ran).Download?
  {
  }

  lemma StepKeepsPull(c: P.Config, p: P.Puller, a: P.Action, now: Time, pid: nat)
    requires P.Enabled(c, p, a) && Q.Numbered(p.pulls, p.next)
    ensures PullIsKept(p, a, P.PullStep(c, p, a, now), pid)
  {
    hide P.History, P.GivesUp, P.AfterFind, P.AfterRun, P.Considered, P.AfterBuild, P.AfterNote, P.AfterWrite,
         P.AbortBegun,
         P.Aborted;
    match a
    case Consider => ConsiderKeepsPull(c, p, pid);
    case BuildDone(x, built) =>
      BuildKeepsPull(p, x, built, pid);
      RestKeepsPull(p, x, pid, a, P.Leaving);
    case Write(x) => WriteKeepsPull(c, p, x, now, pid, a);
    case NoteArchives(x) => WriteKeepsPull(c, p, x, now, pid, a);
    case AbortBegin(caller, id) => AbortKeepsPull(p, caller, id, pid, a);
    case FindDone(x, found) => PhasesAfter(found, P.RunFailed(""));
    case DownloadDone(x, ran) => PhasesAfter(P.NoFiles, ran);
    case _ =>
  }

  lemma RowsStayNamed(nm: Naming, s: Setup, w: World, a: Action)
    requires Enabled(s, w, a) && NamedStep(nm, w, a) && RowsAreNamed(nm, w.db.rows)
    ensures RowsAreNamed(nm, NextDb(s, w, a).rows)
  {
    hide Enabled, IsListing, IsPullListing, Apply, Fires, Observe, StmtOf;
    OnlyAddInserts(s, w, a);
    var stmt := StmtOf(s, w, a);
    if stmt.Some? {
      var rows' := Apply(w.db.rows, stmt.value, w.now);
      forall id | id in rows'
        ensures IsOf(nm, id, rows'[id])
      {
        if id in w.db.rows {
          StatementKeepsLabels(w.db.rows, stmt.value, w.now, id);
        } else {
          NewRowIsInserted(w.db.rows, stmt.value, w.now, id);
          InsertIsAdd(s, w, a);
        }
      }
    }
  }

  lemma NewRowIsInserted(rows: Table, stmt: Stmt, now: Time, id: string)
    requires id in Apply(rows, stmt, now) && id !in rows
    ensures stmt.Insert? && stmt.id == id && Apply(rows, stmt, now)[id] == FreshRow(stmt.job, now)
  {
  }

  lemma InsertIsAdd(s: Setup, w: World, a: Action)
    requires Enabled(s, w, a) && StmtOf(s, w, a).Some? && StmtOf(s, w, a).value.Insert?
    ensures a.Add? && StmtOf(s, w, a).value == Insert(a.id, a.job)
  {
    hide IsListing, IsPullListing;
  }

  lemma PullerStaysNamed(nm: Naming, s: Setup, w: World, a: Action)
    requires Inv(s, w) && Enabled(s, w, a) && NamedStep(nm, w, a) && RowsAreNamed(nm, w.db.rows)
    requires PullerIsNamed(nm, w.puller)
    ensures PullerIsNamed(nm, NextWorld(s, w, a).puller)
  {
    hide Inv, Enabled, NextWorld, P.Enabled, P.PullStep, P.Restarted, IsPullListing, PullIsKept, Q.Numbered;
    R.WorldPuller(s, w, a);
    if a.Pull? {
      var p, p' := w.puller, P.PullStep(s.pull, w.puller, a.a, w.now);
      PullsAreNumbered(s, w);
      forall pid | pid in p'.pulls
        ensures PullIsNamed(nm, p'.pulls[pid])
      {
        StepKeepsPull(s.pull, p, a.a, w.now, pid);
        KeptIsNamed(nm, w, a, p', pid);
      }
      TodoStaysNamed(nm, s, w, a.a);
    } else if a.Crash? {
      RestartIsNamed(nm, w.puller);
    }
  }

  lemma PullsAreNumbered(s: Setup, w: World)
    requires Inv(s, w)
    ensures Q.Numbered(w.puller.pulls, w.puller.next)
  {
    hide Consistent, RowsOk, SubsOk, PollOk, PullsOk, TickOk, Apart, Known, Q.Numbered;
  }

  lemma RestartIsNamed(nm: Naming, p: P.Puller)
    ensures PullerIsNamed(nm, P.Restarted(p))
  {
  }

  lemma KeptIsNamed(nm: Naming, w: World, a: Action, p': P.Puller, pid: nat)
    requires a.Pull? && NamedStep(nm, w, a) && PullerIsNamed(nm, w.puller)
    requires pid in p'.pulls && PullIsKept(w.puller, a.a, p', pid)
    ensures PullIsNamed(nm, p'.pulls[pid])
  {
    hide Confinement.JobDir;
  }

  lemma TodoStaysNamed(nm: Naming, s: Setup, w: World, a: P.Action)
    requires Enabled(s, w, Pull(a)) && P.Enabled(s.pull, w.puller, a)
    requires PullerIsNamed(nm, w.puller) && RowsAreNamed(nm, w.db.rows)
    ensures var tick := P.PullStep(s.pull, w.puller, a, w.now).tick;
            tick.Filling? ==> forall i :: 0 <= i < |tick.todo| ==> IsOf(nm, tick.todo[i].id, tick.todo[i].row)
  {
    hide Enabled, IsPullListing, IsOf, P.Considered, P.AfterBuild, P.AfterNote, P.AfterWrite, P.AbortBegun, P.Aborted;
    if a.List? {
      ListIsPullListing(s, w, a.jobs);
      ListedIsNamed(nm, w.db.rows, w.now, s.pull.limit + w.puller.tick.busy, a.jobs);
    } else if a.Consider? {
      R.ConsideredTick(s.pull, w.puller, w.puller.tick.todo[0], P.Filled(w.puller.tick.todo[1..]));
    } else if !R.Disturbs(a) {
      R.OthersLeavePool(s.pull, w.puller, a, w.now);
    }
  }

  lemma ListedIsNamed(nm: Naming, rows: Table, now: Time, limit: nat, jobs: seq<Listed>)
    requires IsPullListing(rows, now, limit, jobs) && RowsAreNamed(nm, rows)
    ensures forall i :: 0 <= i < |jobs| ==> IsOf(nm, jobs[i].id, jobs[i].row)
  {
    hide IsOf;
    var ids :| IsListing(rows, (r: Row) => Pullable(r, now), ids, limit) && jobs == Snapshots(rows, ids);
  }

  lemma SubsStayTrue(s: Setup, w: World, a: Action)
    requires Inv(s, w) && Enabled(s, w, a) && SubsAreTrue(w.db.rows, w.subs)
    ensures SubsAreTrue(NextDb(s, w, a).rows, NextSubs(s, w, a, NextDb(s, w, a).rows))
  {
    hide Inv, Apply, Fires, Observe, IsListing, IsPullListing, HasNoPayload, P.PullStep, P.PullStmt, LostRace;
    var rows' := NextDb(s, w, a).rows;
    var subs' := NextSubs(s, w, a, rows');
    forall id | id in subs' && subs'[id].Creating? && id in rows' && rows'[id].state == New
      ensures HasNoPayload(subs'[id].j) == HasNoPayload(rows'[id])
    {
      if !a.ClaimNew? {
        SubStaysTrue(s, w, a, id);
      }
    }
  }

  lemma SubStaysTrue(s: Setup, w: World, a: Action, id: string)
    requires Inv(s, w) && Enabled(s, w, a) && SubsAreTrue(w.db.rows, w.subs)
    requires id in w.subs && w.subs[id].Creating? && id in NextDb(s, w, a).rows && NextDb(s, w, a).rows[id].state == New
    ensures HasNoPayload(w.subs[id].j) == HasNoPayload(NextDb(s, w, a).rows[id])
  {
    hide Enabled, Apply, Fires, Observe, StmtOf, RowsOk, SubsOk, PollOk, PullsOk, TickOk, Apart, Q.Sound, HasNoPayload;
    var stmt := StmtOf(s, w, a);
    if stmt.Some? {
      if id in w.db.rows {
        StatementKeepsLabels(w.db.rows, stmt.value, w.now, id);
        SamePayload(w.db.rows[id], NextDb(s, w, a).rows[id]);
      } else {
        NewRowIsInserted(w.db.rows, stmt.value, w.now, id);
        OnlyAddInserts(s, w, a);
      }
    }
  }

  lemma NamedStays(nm: Naming, s: Setup, w: World, a: Action, w': World)
    requires Inv(s, w) && Step(s, w, a, w') && NamedStep(nm, w, a) && WorldIsNamed(nm, w)
    ensures WorldIsNamed(nm, w')
  {
    RowsStayNamed(nm, s, w, a);
    PullerStaysNamed(nm, s, w, a);
    SubsStayTrue(s, w, a);
    hide Inv, Enabled, NextDb, NextSubs, NextPoll, NextPuller, NextClients, RowsAreNamed, PullerIsNamed, SubsAreTrue;
  }

  lemma {:induction false} ReachableIsNamed(nm: Naming, s: Setup, worlds: seq<World>, actions: seq<Action>, n: nat)
    requires IsRun(s, worlds, actions) && IsNamed(nm, worlds, actions) && n < |worlds|
    ensures WorldIsNamed(nm, worlds[n])
  {
    hide Inv, Enabled, NextWorld, NamedStep, WorldIsNamed;
    if n == 0 {
      GenesisIsNamed(nm, worlds[0].now);
    } else {
      ReachableIsNamed(nm, s, worlds, actions, n - 1);
      ReachableInv(s, worlds, actions, n - 1);
      assert Step(s, worlds[n - 1], actions[n - 1], worlds[n]);
      NamedStays(nm, s, worlds[n - 1], actions[n - 1], worlds[n]);
    }
  }

  lemma GenesisIsNamed(nm: Naming, now: Time)
    ensures WorldIsNamed(nm, Genesis(now))
  {
  }

  /**
    Once a job has ended, with no pull in flight and none to come from the Tick at work, every pull that ever
    downloads into its directory, or above or below it, belongs to another job, and it is that job's own
    directory.
   */
  lemma OnlyOthersWrite(nm: Naming, s: Setup, worlds: seq<World>, actions: seq<Action>, n: nat, k: nat, id: string,
                        pid: nat)
    requires IsRun(s, worlds, actions) && IsNamed(nm, worlds, actions) && n <= k < |worlds|
    requires Ended(worlds[n], id) && id !in worlds[n].puller.inflight && !IsListed(worlds[n].puller, id)
    requires pid in worlds[k].puller.pulls && worlds[k].puller.pulls[pid].phase.Download?
    ensures worlds[k].puller.pulls[pid].id != id
    ensures worlds[k].puller.pulls[pid].target == nm.Dir(worlds[k].puller.pulls[pid].id)
  {
    hide IsRun, IsNamed, Ended, IsListed, Confinement.JobDir, RowsAreNamed, SubsAreTrue;
    NeverPulledAgain(s, worlds, actions, n, k, id);
    ReachableIsNamed(nm, s, worlds, actions, k);
    assert PullIsNamed(nm, worlds[k].puller.pulls[pid]);
  }

  // ----- Exactly which jobs can write -----

  /** The pull downloads, or has still its checkpoints before it to pass. */
  predicate IsPromising(x: P.Pull) {
    x.phase.Download? || ((x.phase.Lookup? || x.phase.Build?) && !x.aborted)
  }

  /** The job can come to download: its row is unfinished, or the Tick at work lists it, or a pull of it is that far. */
  predicate CanDownload(w: World, id: string) {
    || (id in w.db.rows && CanBePulled(w.db.rows[id]))
    || IsListed(w.puller, id)
    || (id in w.puller.inflight && w.puller.inflight[id] in w.puller.pulls &&
        IsPromising(w.puller.pulls[w.puller.inflight[id]]))
  }

  ghost predicate IsWritten(w: World, dir: string) {
    exists pid :: pid in w.puller.pulls && w.puller.pulls[pid].phase.Download? &&
      Confinement.Meets(w.puller.pulls[pid].target, dir)
  }

  /** A row comes to be unfinished only by being added. */
  lemma FinishedStaysFinished(s: Setup, w: World, a: Action, id: string)
    requires Inv(s, w) && Enabled(s, w, a) && SubsAreTrue(w.db.rows, w.subs) && !(a.Add? && a.id == id)
    requires id in NextDb(s, w, a).rows && CanBePulled(NextDb(s, w, a).rows[id])
    ensures id in w.db.rows && CanBePulled(w.db.rows[id])
  {
    hide Inv, Enabled, Apply, Fires, Observe, StmtOf, HasNoPayload;
    var stmt := StmtOf(s, w, a);
    if stmt.Some? {
      if id !in w.db.rows {
        NewRowIsInserted(w.db.rows, stmt.value, w.now, id);
        InsertIsAdd(s, w, a);
      } else {
        var r, r' := w.db.rows[id], NextDb(s, w, a).rows[id];
        StatementKeepsLabels(w.db.rows, stmt.value, w.now, id);
        if r'.state == New {
          SamePayload(r, r');
        } else {
          UnfinishedFrom(s, w, a, id);
        }
      }
    }
  }

  lemma UnfinishedFrom(s: Setup, w: World, a: Action, id: string)
    requires Inv(s, w) && Enabled(s, w, a) && SubsAreTrue(w.db.rows, w.subs) && id in w.db.rows
    requires id in NextDb(s, w, a).rows && CanBePulled(NextDb(s, w, a).rows[id]) &&
             NextDb(s, w, a).rows[id].state != New
    ensures CanBePulled(w.db.rows[id])
  {
    hide Inv, Enabled, Apply, StmtOf, Observe, HasNoPayload;
    var stmt := StmtOf(s, w, a);
    if stmt.Some? {
      if Fires(w.db.rows, stmt.value) == [] {
        QuietKeepsStates(w.db.rows, stmt.value, w.now);
      } else {
        FiringMovesOneRow(w.db.rows, stmt.value, w.now);
        if Fires(w.db.rows, stmt.value)[0].id == id && w.db.rows[id].state == New {
          OnlyAnswersSubmit(s, w, a);
        }
      }
      hide Fires;
    }
  }

  lemma OnlyAnswersSubmit(s: Setup, w: World, a: Action)
    requires Enabled(s, w, a) && StmtOf(s, w, a).Some? && Fires(w.db.rows, StmtOf(s, w, a).value) != []
    ensures Fires(w.db.rows, StmtOf(s, w, a).value)[0].to == Submitted ==>
              && a.Answer? && Fires(w.db.rows, StmtOf(s, w, a).value)[0].id == a.id
              && a.id in w.subs && w.subs[a.id].Creating? && !HasNoPayload(w.subs[a.id].j)
  {
    hide IsListing, IsPullListing, HasNoPayload;
  }

  predicate IsHoping(p: P.Puller, id: string) {
    id in p.inflight && p.inflight[id] in p.pulls && IsPromising(p.pulls[p.inflight[id]])
  }

  /** A pull that is past its checkpoints, or flagged before them, stays so. */
  lemma HopelessStays(c: P.Config, p: P.Puller, a: P.Action, now: Time, pid: nat)
    requires Q.Sound(c, p) && P.Enabled(c, p, a) && pid in p.pulls && !IsPromising(p.pulls[pid])
    ensures var p' := P.PullStep(c, p, a, now); pid in p'.pulls ==> !IsPromising(p'.pulls[pid])
  {
    if Q.Actor(a) == Some(pid) {
      OwnStepStaysHopeless(c, p, a, now, pid);
    } else {
      assert pid < p.next;
      Q.OtherPullsStay(c, p, a, now, pid);
      hide P.PullStep, P.Enabled, Q.Sound;
    }
  }

  lemma FlagIsRead(c: P.Config, p: P.Puller, pid: nat)
    requires Q.Sound(c, p) && pid in p.pulls && p.pulls[pid].phase.Held()
    ensures P.Aborted(p, p.pulls[pid].id) == p.pulls[pid].aborted
  {
  }

  lemma OwnStepStaysHopeless(c: P.Config, p: P.Puller, a: P.Action, now: Time, pid: nat)
    requires Q.Sound(c, p) && P.Enabled(c, p, a) && pid in p.pulls && !IsPromising(p.pulls[pid])
    requires Q.Actor(a) == Some(pid)
    ensures var p' := P.PullStep(c, p, a, now); pid in p'.pulls && !IsPromising(p'.pulls[pid])
  {
    hide Q.Sound, P.Aborted, P.History, P.GivesUp, P.AfterFind, P.AfterRun, P.AfterBuild, P.AfterNote, P.AfterWrite;
    if p.pulls[pid].phase.Held() {
      FlagIsRead(c, p, pid);
    }
    if a.FindDone? {
      PhasesAfter(a.found, P.RunFailed(""));
    }
    WritesGoOn(c, p, pid, p.pulls[pid], now);
  }

  lemma ConsiderSparesHopeless(c: P.Config, p: P.Puller, e: Listed, tick: P.Tick, id: string)
    requires Q.Numbered(p.pulls, p.next) && id in p.inflight && !IsHoping(p, id) && p.inflight[id] in p.pulls
    ensures !IsHoping(P.Considered(c, p, e, tick), id)
  {
    hide P.HasLocalPath;
  }

  lemma EntryHasPull(c: P.Config, p: P.Puller, id: string)
    requires Q.Sound(c, p) && id in p.inflight
    ensures p.inflight[id] in p.pulls && Q.Numbered(p.pulls, p.next)
  {
  }

  lemma StepStaysHopeless(c: P.Config, p: P.Puller, a: P.Action, now: Time, id: string)
    requires Q.Sound(c, p) && P.Enabled(c, p, a) && !IsListed(p, id) && !IsHoping(p, id)
    requires a.List? ==> !IsAmong(a.jobs, id)
    ensures var p' := P.PullStep(c, p, a, now); !IsListed(p', id) && !IsHoping(p', id)
  {
    hide Q.Sound, IsAmong, P.History, IsPromising, P.Considered, P.AbortBegun, P.AfterBuild, P.AfterNote, P.AfterWrite;
    if id in p.inflight {
      EntryHasPull(c, p, id);
      HopelessStays(c, p, a, now, p.inflight[id]);
    }
    if a.Consider? {
      var e, tick := p.tick.todo[0], P.Filled(p.tick.todo[1..]);
      TailIsAmong(p.tick.todo, id);
      if id in p.inflight {
        ConsiderSparesHopeless(c, p, e, tick, id);
        R.ConsideredTick(c, p, e, tick);
      } else {
        ConsiderStartsHead(c, p, e, tick, id);
      }
    } else if !R.Disturbs(a) {
      R.OthersLeavePool(c, p, a, now);
    }
  }

  lemma StaysBarred(nm: Naming, s: Setup, w: World, a: Action, w': World, id: string)
    requires Inv(s, w) && Step(s, w, a, w') && WorldIsNamed(nm, w) && !CanDownload(w, id) && !(a.Add? && a.id == id)
    ensures !CanDownload(w', id)
  {
    hide Inv, Enabled, NextWorld, NextDb, P.PullStep, P.Enabled, P.Restarted, IsPullListing, IsListed, RowsAreNamed,
         PullerIsNamed, SubsAreTrue, CanBePulled, Q.Sound;
    NextWorldDb(s, w, a);
    if id in w'.db.rows && CanBePulled(w'.db.rows[id]) {
      FinishedStaysFinished(s, w, a, id);
    }
    R.WorldPuller(s, w, a);
    if a.Pull? {
      if a.a.List? {
        ListIsPullListing(s, w, a.a.jobs);
        if IsAmong(a.a.jobs, id) {
          ListedCanBePulled(w.db.rows, w.now, s.pull.limit + w.puller.tick.busy, a.a.jobs, id);
        }
      }
      PullerIsSound(s, w);
      StepStaysHopeless(s.pull, w.puller, a.a, w.now, id);
    } else if a.Crash? {
      RestartLaysOff(w.puller, id);
    }
  }

  lemma PullerIsSound(s: Setup, w: World)
    requires Inv(s, w)
    ensures Q.Sound(s.pull, w.puller)
  {
    hide Consistent, RowsOk, SubsOk, PollOk, PullsOk, TickOk, Apart, Known, Q.Sound;
  }

  lemma ListedCanBePulled(rows: Table, now: Time, limit: nat, jobs: seq<Listed>, id: string)
    requires IsPullListing(rows, now, limit, jobs) && IsAmong(jobs, id)
    ensures id in rows && CanBePulled(rows[id])
  {
    var ids :| IsListing(rows, (r: Row) => Pullable(r, now), ids, limit) && jobs == Snapshots(rows, ids);
  }

  // ----- What can happen does -----

  lemma FollowingIsNamed(nm: Naming, s: Setup, tr: Trace, longer: Trace)
    requires IsTrace(s, tr) && IsNamed(nm, tr.worlds, tr.actions) && GoesOn(s, tr, longer)
    ensures |longer.worlds| == |longer.actions| + 1 && IsNamed(nm, longer.worlds, longer.actions)
  {
    TraceIsLong(s, longer);
    TraceIsLong(s, tr);
    hide IsTrace, Confinement.JobDir;
    forall k | 0 <= k < |longer.actions|
      ensures NamedStep(nm, longer.worlds[k], longer.actions[k])
    {
      if k < |tr.actions| {
        assert NamedStep(nm, tr.worlds[k], tr.actions[k]);
      } else {
        assert !IsMarked(longer.actions[k]);
      }
    }
  }

  /** Continues a run; whatever is added meanwhile, its directory lies apart. */
  ghost predicate Continues(nm: Naming, s: Setup, tr: Trace, longer: Trace, dir: string) {
    && IsTrace(s, longer) && |longer.worlds| == |longer.actions| + 1 && IsNamed(nm, longer.worlds, longer.actions)
    && Extends(tr, longer)
    && forall k :: |tr.actions| <= k < |longer.actions| && longer.actions[k].Add? ==>
         !Confinement.Meets(nm.Dir(longer.actions[k].id), dir)
  }

  lemma FollowingContinues(nm: Naming, s: Setup, tr: Trace, longer: Trace, dir: string)
    requires IsTrace(s, tr) && IsNamed(nm, tr.worlds, tr.actions) && GoesOn(s, tr, longer)
    ensures Continues(nm, s, tr, longer, dir)
  {
    FollowingIsNamed(nm, s, tr, longer);
    hide IsTrace, IsNamed, Confinement.Meets;
  }

  lemma ContinuesFurther(nm: Naming, s: Setup, tr: Trace, mid: Trace, longer: Trace, dir: string)
    requires Continues(nm, s, tr, mid, dir) && Continues(nm, s, mid, longer, dir)
    ensures Continues(nm, s, tr, longer, dir)
  {
    hide IsTrace, IsNamed, Confinement.Meets;
    forall k | |tr.actions| <= k < |longer.actions| && longer.actions[k].Add?
      ensures !Confinement.Meets(nm.Dir(longer.actions[k].id), dir)
    {
      if k < |mid.actions| {
        assert longer.actions[k] == mid.actions[k];
      }
    }
  }

  /** The pull in flight for the job has this object. */
  predicate IsPulledBy(p: P.Puller, id: string, x: P.Pull) {
    id in p.inflight && p.inflight[id] in p.pulls && p.pulls[p.inflight[id]] == x && x.id == id
  }

  lemma FoundIsBuilt(c: P.Config, p: P.Puller, id: string, x: P.Pull, now: Time)
    requires Q.Sound(c, p) && IsPulledBy(p, id, x) && x.phase.Lookup? && !x.aborted
    ensures var a := P.FindDone(p.inflight[id], P.Present);
            P.Enabled(c, p, a) && IsPulledBy(P.PullStep(c, p, a, now), id, x.(phase := P.Build))
  {
    FlagIsRead(c, p, p.inflight[id]);
    hide P.Aborted;
  }

  lemma BuiltDownloads(c: P.Config, p: P.Puller, id: string, x: P.Pull, dir: string, now: Time)
    requires Q.Sound(c, p) && IsPulledBy(p, id, x) && x.phase.Build? && !x.aborted
    ensures var a := P.BuildDone(p.inflight[id], P.Files(dir));
            && P.Enabled(c, p, a)
            && IsPulledBy(P.PullStep(c, p, a, now), id, x.(phase := P.Download(0), target := dir, dir := dir))
  {
    FlagIsRead(c, p, p.inflight[id]);
    hide P.Aborted, P.History;
  }

  /** A hopeful pull can come to download. */
  lemma HopeIsFulfilled(nm: Naming, s: Setup, tr: Trace, id: string, dir: string) returns (longer: Trace)
    requires IsTrace(s, tr) && tr.worlds != [] && IsNamed(nm, tr.worlds, tr.actions) && IsHoping(End(tr).puller, id)
    requires Confinement.Meets(nm.Dir(id), dir)
    ensures Continues(nm, s, tr, longer, dir) && IsWritten(End(longer), dir)
  {
    hide IsTrace, IsNamed, Confinement.JobDir, Confinement.Meets, P.Enabled, P.PullStep, NextWorld, Enabled, Inv,
         Q.Sound, Follows;
    PoolIsSound(s, tr, id);
    var x := End(tr).puller.pulls[End(tr).puller.inflight[id]];
    EndIsSound(s, tr);
    longer := tr;
    StaysPut(s, tr);
    if x.phase.Lookup? {
      FoundIsBuilt(s.pull, End(tr).puller, id, x, End(tr).now);
      longer := Act(s, tr, P.FindDone(End(tr).puller.inflight[id], P.Present));
      x := x.(phase := P.Build);
    }
    FollowingContinues(nm, s, tr, longer, dir);
    if x.phase.Build? {
      var mid := longer;
      longer := BuildIsFulfilled(nm, s, mid, id, x, dir);
      ContinuesFurther(nm, s, tr, mid, longer, dir);
    } else {
      EndIsNamed(nm, s, longer, longer.worlds, longer.actions, End(longer).puller.inflight[id]);
    }
  }

  lemma EndIsSound(s: Setup, tr: Trace)
    requires IsTrace(s, tr) && tr.worlds != []
    ensures Q.Sound(s.pull, End(tr).puller)
  {
    hide Inv, Enabled, NextWorld, Q.Sound;
    ReachableInv(s, tr.worlds, tr.actions, |tr.actions|);
    PullerIsSound(s, End(tr));
  }

  lemma EndIsNamed(nm: Naming, s: Setup, tr: Trace, worlds: seq<World>, actions: seq<Action>, pid: nat)
    requires IsTrace(s, tr) && tr.worlds != [] && worlds == tr.worlds && actions == tr.actions
    requires IsNamed(nm, tr.worlds, tr.actions) && pid in End(tr).puller.pulls
    ensures PullIsNamed(nm, End(tr).puller.pulls[pid])
  {
    hide IsNamed, PullIsNamed, RowsAreNamed, SubsAreTrue;
    ReachableIsNamed(nm, s, worlds, actions, |actions|);
    assert PullerIsNamed(nm, End(tr).puller);
  }

  lemma BuildIsFulfilled(nm: Naming, s: Setup, tr: Trace, id: string, x: P.Pull, dir: string) returns (longer: Trace)
    requires IsTrace(s, tr) && tr.worlds != [] && IsNamed(nm, tr.worlds, tr.actions)
    requires IsPulledBy(End(tr).puller, id, x) && x.phase.Build? && !x.aborted && Confinement.Meets(nm.Dir(id), dir)
    ensures Continues(nm, s, tr, longer, dir) && IsWritten(End(longer), dir)
    ensures longer.actions == tr.actions + [Pull(P.BuildDone(End(tr).puller.inflight[id], P.Files(nm.Dir(id))))]
  {
    hide IsTrace, Confinement.JobDir, Confinement.Meets, P.Enabled, P.PullStep, NextWorld, Inv, Q.Sound;
    var p, pid, target := End(tr).puller, End(tr).puller.inflight[id], nm.Dir(id);
    TraceIsLong(s, tr);
    EndIsSound(s, tr);
    EndIsNamed(nm, s, tr, tr.worlds, tr.actions, pid);
    BuiltDownloads(s.pull, p, id, x, target, End(tr).now);
    var a := Pull(P.BuildDone(pid, P.Files(target)));
    longer := Extend(s, tr, a);
    R.WorldPuller(s, End(tr), a);
    forall k | 0 <= k < |longer.actions|
      ensures NamedStep(nm, longer.worlds[k], longer.actions[k])
    {
      if k < |tr.actions| {
        assert NamedStep(nm, tr.worlds[k], tr.actions[k]);
      }
    }
  }

  /** Whoever can download does, in some continuation. */
  lemma DownloadCanHappen(nm: Naming, s: Setup, tr: Trace, id: string, dir: string) returns (longer: Trace)
    requires IsTrace(s, tr) && tr.worlds != [] && IsNamed(nm, tr.worlds, tr.actions) && CanDownload(End(tr), id)
    requires Confinement.Meets(nm.Dir(id), dir)
    ensures Continues(nm, s, tr, longer, dir) && IsWritten(End(longer), dir)
  {
    hide IsTrace, IsNamed, Confinement.JobDir, Confinement.Meets, Follows, CanBePulled, IsStarting, IsPromising,
         IsListed, IsNext;
    var mid := tr;
    StaysPut(s, tr);
    if !IsHoping(End(tr).puller, id) {
      if IsListed(End(tr).puller, id) {
        mid := RestartListed(s, tr, id);
      } else {
        var next := UnfinishedCanBeListed(s, tr, id);
        NextIsListed(End(next), id);
        mid := ListedCanStart(s, next, id);
        GoesOnFurther(s, tr, next, mid);
      }
      StartingIsHoping(End(mid).puller, id);
    }
    FollowingIsNamed(nm, s, tr, mid);
    FollowingContinues(nm, s, tr, mid, dir);
    longer := HopeIsFulfilled(nm, s, mid, id, dir);
    ContinuesFurther(nm, s, tr, mid, longer, dir);
  }

  lemma NextIsListed(w: World, id: string)
    requires IsNext(w, id)
    ensures id !in w.puller.inflight && IsListed(w.puller, id)
  {
    assert w.puller.tick.todo[0].id == id;
  }

  lemma StartingIsHoping(p: P.Puller, id: string)
    requires IsStarting(p, id)
    ensures IsHoping(p, id)
  {
  }

  /** A listed job whose present pull is past hope gets another one. */
  lemma RestartListed(s: Setup, tr: Trace, id: string) returns (longer: Trace)
    requires IsTrace(s, tr) && tr.worlds != [] && IsListed(End(tr).puller, id)
    ensures GoesOn(s, tr, longer) && IsStarting(End(longer).puller, id)
  {
    hide IsTrace, Follows, IsStarting, IsAmong;
    var mid := tr;
    StaysPut(s, tr);
    if id in End(tr).puller.inflight {
      PoolIsSound(s, tr, id);
      mid := Drain(s, tr, End(tr).puller.inflight[id]);
    }
    longer := ListedCanStart(s, mid, id);
    GoesOnFurther(s, tr, mid, longer);
  }

  // ----- And nothing else does -----

  lemma {:induction false} StaysUnwritten(nm: Naming, s: Setup, worlds: seq<World>, actions: seq<Action>, n: nat,
                                          k: nat,
                                          dir: string)
    requires IsRun(s, worlds, actions) && IsNamed(nm, worlds, actions) && n <= k < |worlds|
    requires forall id :: CanDownload(worlds[n], id) ==> !Confinement.Meets(nm.Dir(id), dir)
    requires forall j :: n <= j < k && actions[j].Add? ==> !Confinement.Meets(nm.Dir(actions[j].id), dir)
    ensures forall id :: CanDownload(worlds[k], id) ==> !Confinement.Meets(nm.Dir(id), dir)
    decreases k
  {
    hide Inv, Enabled, NextWorld, NamedStep, WorldIsNamed, CanDownload, Confinement.JobDir, Confinement.Meets;
    if n < k {
      StaysUnwritten(nm, s, worlds, actions, n, k - 1, dir);
      ReachableInv(s, worlds, actions, k - 1);
      ReachableIsNamed(nm, s, worlds, actions, k - 1);
      assert Step(s, worlds[k - 1], actions[k - 1], worlds[k]);
      forall id | CanDownload(worlds[k], id)
        ensures !Confinement.Meets(nm.Dir(id), dir)
      {
        if !CanDownload(worlds[k - 1], id) && !(actions[k - 1].Add? && actions[k - 1].id == id) {
          StaysBarred(nm, s, worlds[k - 1], actions[k - 1], worlds[k], id);
        }
      }
    }
  }

  lemma WriterCanDownload(nm: Naming, s: Setup, w: World, dir: string) returns (id: string)
    requires Inv(s, w) && WorldIsNamed(nm, w) && IsWritten(w, dir)
    ensures CanDownload(w, id) && Confinement.Meets(nm.Dir(id), dir)
  {
    hide Confinement.JobDir, Confinement.Meets, CanBePulled, IsListed, RowsAreNamed, SubsAreTrue, Consistent, RowsOk,
         SubsOk, PollOk, PullsOk,
         TickOk, Apart, Known, Q.PullsOk;
    var pid :| pid in w.puller.pulls && w.puller.pulls[pid].phase.Download? &&
      Confinement.Meets(w.puller.pulls[pid].target, dir);
    assert PullIsNamed(nm, w.puller.pulls[pid]);
    id := w.puller.pulls[pid].id;
  }

  lemma NothingIsWritten(nm: Naming, s: Setup, tr: Trace, longer: Trace, dir: string)
    requires IsTrace(s, tr) && tr.worlds != [] && Continues(nm, s, tr, longer, dir)
    requires forall id :: CanDownload(End(tr), id) ==> !Confinement.Meets(nm.Dir(id), dir)
    ensures !IsWritten(End(longer), dir)
  {
    hide Inv, Enabled, NextWorld, IsNamed, WorldIsNamed, CanDownload, Confinement.JobDir, Confinement.Meets, IsWritten;
    TraceIsLong(s, tr);
    var n, k := |tr.actions|, |longer.actions|;
    assert longer.worlds[n] == End(tr);
    StaysUnwritten(nm, s, longer.worlds, longer.actions, n, k, dir);
    ReachableInv(s, longer.worlds, longer.actions, k);
    ReachableIsNamed(nm, s, longer.worlds, longer.actions, k);
    if IsWritten(End(longer), dir) {
      var id := WriterCanDownload(nm, s, End(longer), dir);
    }
  }

  /** The directory is that of an unfinished job, a listed one, or one whose pull is far enough from its end. */
  ghost predicate IsShared(nm: Naming, w: World, dir: string) {
    exists id :: CanDownload(w, id) && Confinement.Meets(nm.Dir(id), dir)
  }

  ghost predicate IsWrittenIn(nm: Naming, s: Setup, tr: Trace, longer: Trace, dir: string) {
    Continues(nm, s, tr, longer, dir) && IsWritten(End(longer), dir)
  }

  /**
    Some continuation of a run has a pull that downloads into a directory, or above or below it, exactly if some
    job that can still come to download has such a directory, as long as no such job is added.
   */
  lemma WrittenExactly(nm: Naming, s: Setup, tr: Trace, dir: string)
    requires IsTrace(s, tr) && tr.worlds != [] && |tr.worlds| == |tr.actions| + 1
    requires IsNamed(nm, tr.worlds, tr.actions)
    ensures IsShared(nm, End(tr), dir) <==> exists longer :: IsWrittenIn(nm, s, tr, longer, dir)
  {
    hide IsTrace, IsNamed, Confinement.JobDir, Confinement.Meets, CanDownload, IsWritten, Extends;
    if IsShared(nm, End(tr), dir) {
      var id :| CanDownload(End(tr), id) && Confinement.Meets(nm.Dir(id), dir);
      var longer := DownloadCanHappen(nm, s, tr, id, dir);
      assert IsWrittenIn(nm, s, tr, longer, dir);
    } else {
      forall longer | Continues(nm, s, tr, longer, dir)
        ensures !IsWritten(End(longer), dir)
      {
        NothingIsWritten(nm, s, tr, longer, dir);
      }
    }
  }

  /** Another job can still come to download into the directory, or above or below it. */
  ghost predicate IsSharedWithOther(nm: Naming, w: World, id: string) {
    exists other :: other != id && CanDownload(w, other) && Confinement.Meets(nm.Dir(other), nm.Dir(id))
  }

  /**
    Once a job has ended, its pull is gone and the Tick at work has not listed it, its directory is written to
    again in some continuation exactly if another job has the same directory, or one above or below it, and is
    unfinished, listed, or being pulled and not past its checkpoints; as long as no such job is added.
   */
  lemma DiscardedIsWrittenExactly(nm: Naming, s: Setup, tr: Trace, id: string)
    requires IsTrace(s, tr) && tr.worlds != [] && |tr.worlds| == |tr.actions| + 1
    requires IsNamed(nm, tr.worlds, tr.actions)
    requires Ended(End(tr), id) && id !in End(tr).puller.inflight && !IsListed(End(tr).puller, id)
    ensures IsSharedWithOther(nm, End(tr), id) <==> exists longer :: IsWrittenIn(nm, s, tr, longer, nm.Dir(id))
  {
    hide IsTrace, IsNamed, Confinement.JobDir, Confinement.Meets, IsWrittenIn, IsListed, IsPromising;
    WrittenExactly(nm, s, tr, nm.Dir(id));
    EndedCannotBePulled(End(tr), id);
    hide CanDownload;
    if IsShared(nm, End(tr), nm.Dir(id)) {
      var other :| CanDownload(End(tr), other) && Confinement.Meets(nm.Dir(other), nm.Dir(id));
      assert other != id;
    }
  }

  lemma EndedCannotBePulled(w: World, id: string)
    requires Ended(w, id) && id !in w.puller.inflight && !IsListed(w.puller, id)
    ensures !CanDownload(w, id)
  {
    hide IsListed, IsPromising;
  }

  // ----- A run with two jobs of one directory -----

  const FIRST := "first"
  const SECOND := "second"

  function JobOf(category: string, hash: string): NewJob {
    NewJob(category, "", hash, Some([0]), None, Usenet, New)
  }

  lemma {:induction false} FollowingBears(s: Setup, tr: Trace, longer: Trace, n: nat)
    requires IsTrace(s, tr) && tr.worlds != [] && GoesOn(s, tr, longer) && |tr.worlds| - 1 <= n < |longer.worlds|
    ensures longer.worlds[n].born == End(tr).born
    decreases n
  {
    hide Enabled, NextWorld;
    TraceIsLong(s, tr);
    if n >= |tr.worlds| {
      FollowingBears(s, tr, longer, n - 1);
      assert Step(s, longer.worlds[n - 1], longer.actions[n - 1], longer.worlds[n]);
      NextWorldDb(s, longer.worlds[n - 1], longer.actions[n - 1]);
      assert !IsMarked(longer.actions[n - 1]);
    } else {
      assert longer.worlds[n] == tr.worlds[n];
    }
  }

  /** The first job's row is in this state, its pull is `x`, and who waits for it; the second can still be pulled. */
  predicate IsScene(w: World, state: State, pid: nat, x: P.Pull, waiting: map<nat, nat>, clients: map<nat, Listed>) {
    && FIRST in w.db.rows && w.db.rows[FIRST].state == state && FIRST in w.born
    && w.puller.tick.Resting? && pid in w.puller.pulls && w.puller.pulls[pid] == x && x.id == FIRST
    && w.puller.inflight == (if x.phase.Held() then map[FIRST := pid] else map[])
    && w.puller.waiting == waiting && w.clients == clients
  }

  predicate SecondIsThere(w: World) {
    SECOND in w.db.rows && CanBePulled(w.db.rows[SECOND])
  }

  lemma FirstIsConsidered(s: Setup, w: World)
    requires IsNext(w, FIRST) && s.Valid() && FIRST in w.born && !P.HasLocalPath(w.db.rows[FIRST])
    ensures var x := P.Pull(FIRST, w.db.rows[FIRST], P.Lookup, false, "", "");
            && Enabled(s, w, Pull(P.Consider)) && x.id == FIRST
            && IsScene(NextWorld(s, w, Pull(P.Consider)), CompletedTorbox, w.puller.next, x, map[], map[])
    ensures NextWorld(s, w, Pull(P.Consider)).born == w.born
  {
    hide P.HasLocalPath, IsListing, IsPullListing, Observe, Apply;
    var l := Listed(FIRST, w.db.rows[FIRST]);
    assert [l][0] == l && [l][1..] == [];
    assert |w.puller.inflight| == 0;
  }

  /** A step of the first job's pull that issues no statement. */
  lemma PullIsTaken(s: Setup, w: World, a: P.Action, state: State, pid: nat, x: P.Pull, waiting: map<nat, nat>,
                    x': P.Pull,
                    waiting': map<nat, nat>)
    requires IsScene(w, state, pid, x, waiting, map[]) && P.Enabled(s.pull, w.puller, a)
    requires !a.Restart? && !a.List? && P.PullStmt(s.pull, w.puller, a, w.now) == None
    requires var p' := P.PullStep(s.pull, w.puller, a, w.now);
             IsScene(w.(puller := p'), state, pid, x', waiting', map[])
    ensures Enabled(s, w, Pull(a)) && NextWorld(s, w, Pull(a)).db == w.db
    ensures IsScene(NextWorld(s, w, Pull(a)), state, pid, x', waiting', map[])
    ensures NextWorld(s, w, Pull(a)).born == w.born
  {
    hide P.Enabled, P.PullStep, P.PullStmt, IsListing, IsPullListing;
  }

  lemma FindIsTaken(s: Setup, w: World, pid: nat, x: P.Pull)
    requires IsScene(w, CompletedTorbox, pid, x, map[], map[]) && x.phase.Lookup? && !x.aborted
    ensures var a, w' := Pull(P.FindDone(pid, P.Present)), x.(phase := P.Build);
            Enabled(s, w, a) && IsScene(NextWorld(s, w, a), CompletedTorbox, pid, w', map[], map[])
    ensures NextWorld(s, w, Pull(P.FindDone(pid, P.Present))).born == w.born
  {
    PullIsTaken(s, w, P.FindDone(pid, P.Present), CompletedTorbox, pid, x, map[], x.(phase := P.Build), map[]);
    hide P.PullStep, P.Enabled;
  }

  lemma BuildIsTaken(s: Setup, w: World, pid: nat, x: P.Pull, dir: string)
    requires IsScene(w, CompletedTorbox, pid, x, map[], map[]) && x.phase.Build? && !x.aborted
    ensures var a, x' := Pull(P.BuildDone(pid, P.Files(dir))), x.(phase := P.Download(0), target := dir, dir := dir);
            Enabled(s, w, a) && IsScene(NextWorld(s, w, a), CompletedTorbox, pid, x', map[], map[])
    ensures NextWorld(s, w, Pull(P.BuildDone(pid, P.Files(dir)))).born == w.born
  {
    var x' := x.(phase := P.Download(0), target := dir, dir := dir);
    PullIsTaken(s, w, P.BuildDone(pid, P.Files(dir)), CompletedTorbox, pid, x, map[], x', map[]);
    hide P.PullStep, P.Enabled;
  }

  lemma SecondIsAdded(s: Setup, w: World, pid: nat, x: P.Pull, job: NewJob)
    requires IsScene(w, CompletedTorbox, pid, x, map[], map[]) && SECOND !in w.born && job.state == New
    requires job.blob == Some([0]) && SECOND !in w.db.rows
    ensures Enabled(s, w, Add(SECOND, job))
    ensures var w' := NextWorld(s, w, Add(SECOND, job));
            IsScene(w', CompletedTorbox, pid, x, map[], map[]) && SecondIsThere(w')
  {
    hide IsListing, IsPullListing, Observe;
  }

  lemma FirstIsRead(s: Setup, w: World, pid: nat, x: P.Pull)
    requires IsScene(w, CompletedTorbox, pid, x, map[], map[]) && SecondIsThere(w)
    ensures Enabled(s, w, Read(0, FIRST))
    ensures var w' := NextWorld(s, w, Read(0, FIRST));
            && IsScene(w', CompletedTorbox, pid, x, map[], map[0 := Listed(FIRST, w.db.rows[FIRST])])
            && w'.db == w.db
  {
    hide IsListing, IsPullListing;
  }

  lemma FirstIsCanceled(s: Setup, w: World, pid: nat, x: P.Pull, row: Row)
    requires IsScene(w, CompletedTorbox, pid, x, map[], map[0 := Listed(FIRST, row)]) && SecondIsThere(w)
    requires row.state == CompletedTorbox
    ensures Enabled(s, w, Cancel(0))
    ensures var w' := NextWorld(s, w, Cancel(0));
            IsScene(w', Canceled, pid, x, map[], map[]) && SecondIsThere(w')
  {
    hide IsListing, IsPullListing, Observe;
  }

  /** Abort and the pull's end, up to the return of Abort. */
  lemma FirstIsAborted(s: Setup, tr: Trace, pid: nat, x: P.Pull) returns (longer: Trace)
    requires IsTrace(s, tr) && tr.worlds != [] && |tr.worlds| == |tr.actions| + 1
    requires IsScene(End(tr), Canceled, pid, x, map[], map[]) && x.phase == P.Download(0) && !x.aborted
    requires SecondIsThere(End(tr))
    ensures IsTrace(s, longer) && longer.worlds != [] && |longer.worlds| == |longer.actions| + 1
    ensures longer.actions == tr.actions + AbortActs(pid) && tr.worlds <= longer.worlds
    ensures IsScene(End(longer), Canceled, pid, x.(phase := P.Exited, aborted := true), map[], map[])
    ensures SecondIsThere(End(longer))
  {
    hide IsTrace, Enabled, NextWorld, IsScene;
    var y := x.(aborted := true);
    AbortActsRun(s, End(tr), pid, x);
    longer := Extend(s, tr, Pull(P.AbortBegin(1, FIRST)));
    DoneRuns(s, End(longer), pid, y);
    longer := Extend(s, longer, Pull(P.DownloadDone(pid, P.RunFailed(""))));
    ForgetRuns(s, End(longer), pid, y.(phase := P.Leaving));
    longer := Extend(s, longer, Pull(P.Forget(pid)));
    CloseRuns(s, End(longer), pid, y.(phase := P.Forgotten));
    longer := Extend(s, longer, Pull(P.CloseDone(pid)));
    ReturnRuns(s, End(longer), pid, y.(phase := P.Exited));
    longer := Extend(s, longer, Pull(P.AbortReturn(1, true)));
  }

  function AbortActs(pid: nat): seq<Action> {
    [Pull(P.AbortBegin(1, FIRST)), Pull(P.DownloadDone(pid, P.RunFailed(""))), Pull(P.Forget(pid)),
     Pull(P.CloseDone(pid)), Pull(P.AbortReturn(1, true))]
  }

  lemma AbortActsRun(s: Setup, w: World, pid: nat, x: P.Pull)
    requires IsScene(w, Canceled, pid, x, map[], map[]) && x.phase == P.Download(0)
    ensures var a := Pull(P.AbortBegin(1, FIRST));
            && Enabled(s, w, a) && NextWorld(s, w, a).db == w.db
            && IsScene(NextWorld(s, w, a), Canceled, pid, x.(aborted := true), map[1 := pid], map[])
  {
    PullIsTaken(s, w, P.AbortBegin(1, FIRST), Canceled, pid, x, map[], x.(aborted := true), map[1 := pid]);
    hide P.PullStep, P.Enabled;
  }

  lemma DoneRuns(s: Setup, w: World, pid: nat, x: P.Pull)
    requires IsScene(w, Canceled, pid, x, map[1 := pid], map[]) && x.phase == P.Download(0) && x.aborted
    ensures var a := Pull(P.DownloadDone(pid, P.RunFailed("")));
            && Enabled(s, w, a) && NextWorld(s, w, a).db == w.db
            && IsScene(NextWorld(s, w, a), Canceled, pid, x.(phase := P.Leaving), map[1 := pid], map[])
  {
    hide P.AfterRun;
    PullIsTaken(s, w, P.DownloadDone(pid, P.RunFailed("")), Canceled, pid, x, map[1 := pid], x.(phase := P.Leaving),
                map[1 := pid]);
    hide P.PullStep, P.Enabled;
  }

  lemma ForgetRuns(s: Setup, w: World, pid: nat, x: P.Pull)
    requires IsScene(w, Canceled, pid, x, map[1 := pid], map[]) && x.phase.Leaving?
    ensures var a := Pull(P.Forget(pid));
            && Enabled(s, w, a) && NextWorld(s, w, a).db == w.db
            && IsScene(NextWorld(s, w, a), Canceled, pid, x.(phase := P.Forgotten), map[1 := pid], map[])
  {
    PullIsTaken(s, w, P.Forget(pid), Canceled, pid, x, map[1 := pid], x.(phase := P.Forgotten), map[1 := pid]);
    hide P.PullStep, P.Enabled;
  }

  lemma CloseRuns(s: Setup, w: World, pid: nat, x: P.Pull)
    requires IsScene(w, Canceled, pid, x, map[1 := pid], map[]) && x.phase.Forgotten?
    ensures var a := Pull(P.CloseDone(pid));
            && Enabled(s, w, a) && NextWorld(s, w, a).db == w.db
            && IsScene(NextWorld(s, w, a), Canceled, pid, x.(phase := P.Exited), map[1 := pid], map[])
  {
    PullIsTaken(s, w, P.CloseDone(pid), Canceled, pid, x, map[1 := pid], x.(phase := P.Exited), map[1 := pid]);
    hide P.PullStep, P.Enabled;
  }

  lemma ReturnRuns(s: Setup, w: World, pid: nat, x: P.Pull)
    requires IsScene(w, Canceled, pid, x, map[1 := pid], map[]) && x.phase.Exited?
    ensures var a := Pull(P.AbortReturn(1, true));
            && Enabled(s, w, a) && NextWorld(s, w, a).db == w.db
            && IsScene(NextWorld(s, w, a), Canceled, pid, x, map[], map[])
  {
    PullIsTaken(s, w, P.AbortReturn(1, true), Canceled, pid, x, map[1 := pid], x, map[]);
    hide P.PullStep, P.Enabled;
  }

  lemma NamedExtend(nm: Naming, s: Setup, tr: Trace, a: Action) returns (longer: Trace)
    requires IsTrace(s, tr) && tr.worlds != [] && |tr.worlds| == |tr.actions| + 1
    requires IsNamed(nm, tr.worlds, tr.actions)
    requires Enabled(s, End(tr), a) && NamedStep(nm, End(tr), a)
    ensures IsTrace(s, longer) && longer.worlds != [] && |longer.worlds| == |longer.actions| + 1
    ensures IsNamed(nm, longer.worlds, longer.actions)
    ensures longer.actions == tr.actions + [a] && longer.worlds == tr.worlds + [End(longer)]
    ensures End(longer) == NextWorld(s, End(tr), a)
  {
    hide IsTrace, Enabled, NextWorld, NamedStep;
    longer := Extend(s, tr, a);
    forall k | 0 <= k < |longer.actions|
      ensures NamedStep(nm, longer.worlds[k], longer.actions[k])
    {
      if k < |tr.actions| {
        assert NamedStep(nm, tr.worlds[k], tr.actions[k]);
      }
    }
  }

  lemma NoActionIsNamed(nm: Naming, worlds: seq<World>)
    ensures IsNamed(nm, worlds, [])
  {
  }

  lemma NextHasRow(s: Setup, tr: Trace)
    requires IsTrace(s, tr) && tr.worlds != [] && IsNext(End(tr), FIRST)
    ensures FIRST in End(tr).db.rows && !P.HasLocalPath(End(tr).db.rows[FIRST])
  {
    hide IsTrace, P.HasLocalPath;
    PoolIsSound(s, tr, FIRST);
    assert End(tr).puller.tick.todo[0].row == End(tr).db.rows[FIRST];
  }

  lemma SceneIsNamed(nm: Naming, s: Setup, tr: Trace, pid: nat, x: P.Pull)
    requires IsTrace(s, tr) && tr.worlds != [] && |tr.worlds| == |tr.actions| + 1
    requires IsNamed(nm, tr.worlds, tr.actions) && IsScene(End(tr), CompletedTorbox, pid, x, map[], map[])
    ensures NamedStep(nm, End(tr), Pull(P.BuildDone(pid, P.Files(nm.Dir(FIRST)))))
  {
    hide IsTrace, IsNamed, Confinement.JobDir;
    EndIsNamed(nm, s, tr, tr.worlds, tr.actions, pid);
  }

  lemma SecondIsAbsent(s: Setup, tr: Trace)
    requires IsTrace(s, tr) && tr.worlds != [] && SECOND !in End(tr).born
    ensures SECOND !in End(tr).db.rows
  {
    hide Inv, Enabled, NextWorld;
    ReachableInv(s, tr.worlds, tr.actions, |tr.actions|);
    if SECOND in End(tr).db.rows {
      RowsAreBorn(s, End(tr), SECOND);
    }
  }

  /** The first job comes to download into its directory. */
  lemma FirstDownloads(nm: Naming, s: Setup) returns (tr: Trace, pid: nat, x: P.Pull)
    requires s.Valid()
    ensures IsTrace(s, tr) && tr.worlds != [] && |tr.worlds| == |tr.actions| + 1
    ensures IsNamed(nm, tr.worlds, tr.actions) && SECOND !in End(tr).born && SECOND !in End(tr).db.rows
    ensures IsScene(End(tr), CompletedTorbox, pid, x, map[], map[])
    ensures x.phase == P.Download(0) && !x.aborted && x.target == x.dir == nm.Dir(FIRST)
  {
    hide IsTrace, Enabled, NextWorld, IsNext, IsScene, P.HasLocalPath, Confinement.JobDir, IsNamed;
    tr := Trace([Genesis(0)], []);
    GenesisIsTrace(s);
    NoActionIsNamed(nm, tr.worlds);
    var job := JobOf(nm.category(FIRST), "1");
    AddIsTaken(s, End(tr), FIRST, job);
    tr := NamedExtend(nm, s, tr, Add(FIRST, job));
    var first := tr;
    FreshCanBePulled(job, 0);
    tr := UnfinishedCanBeListed(s, tr, FIRST);
    FollowingIsNamed(nm, s, first, tr);
    FollowingBears(s, first, tr, |tr.worlds| - 1);
    NextHasRow(s, tr);
    FirstIsConsidered(s, End(tr));
    pid := End(tr).puller.next;
    x := P.Pull(FIRST, End(tr).db.rows[FIRST], P.Lookup, false, "", "");
    tr := NamedExtend(nm, s, tr, Pull(P.Consider));
    FindIsTaken(s, End(tr), pid, x);
    tr := NamedExtend(nm, s, tr, Pull(P.FindDone(pid, P.Present)));
    x := x.(phase := P.Build);
    SceneIsNamed(nm, s, tr, pid, x);
    BuildIsTaken(s, End(tr), pid, x, nm.Dir(FIRST));
    tr := NamedExtend(nm, s, tr, Pull(P.BuildDone(pid, P.Files(nm.Dir(FIRST)))));
    x := x.(phase := P.Download(0), target := nm.Dir(FIRST), dir := nm.Dir(FIRST));
    SecondIsAbsent(s, tr);
  }

  lemma FreshCanBePulled(job: NewJob, now: Time)
    requires job.state == New && job.blob == Some([0])
    ensures CanBePulled(FreshRow(job, now))
  {
  }

  lemma AbortIsNamed(nm: Naming, tr: Trace, longer: Trace, pid: nat)
    requires |tr.worlds| == |tr.actions| + 1 && tr.worlds <= longer.worlds && IsNamed(nm, tr.worlds, tr.actions)
    requires longer.actions == tr.actions + AbortActs(pid)
    ensures IsNamed(nm, longer.worlds, longer.actions)
  {
    hide Confinement.JobDir;
    forall k | 0 <= k < |longer.actions| && k < |longer.worlds|
      ensures NamedStep(nm, longer.worlds[k], longer.actions[k])
    {
      if k < |tr.actions| {
        assert NamedStep(nm, tr.worlds[k], tr.actions[k]);
      } else {
        assert longer.actions[k] == AbortActs(pid)[k - |tr.actions|];
      }
    }
  }

  /** What the first job's end looks like. */
  lemma SceneIsOver(s: Setup, tr: Trace, pid: nat, x: P.Pull)
    requires IsTrace(s, tr) && tr.worlds != [] && IsScene(End(tr), Canceled, pid, x, map[], map[]) && x.phase.Exited?
    ensures var w := End(tr);
            && Ended(w, FIRST) && FIRST !in w.puller.inflight && !IsListed(w.puller, FIRST)
            && pid in w.puller.pulls && w.puller.pulls[pid] == x
  {
    hide IsTrace;
  }

  lemma SecondCanDownload(nm: Naming, w: World)
    requires SecondIsThere(w) && nm.Dir(SECOND) == nm.Dir(FIRST)
    ensures IsSharedWithOther(nm, w, FIRST)
  {
    hide Confinement.JobDir, CanBePulled, IsListed, IsPromising;
    assert CanDownload(w, SECOND) && Confinement.Meets(nm.Dir(SECOND), nm.Dir(FIRST));
  }

  /**
    The promise that nothing writes into the directory of a stopped pull afterwards can fail without any race:
    two jobs with different contents are added under one category and one release name. The first is downloaded
    to their directory, canceled and aborted, and Abort returns when its pull has ended, with that directory
    for the caller to delete. Then the second job downloads into it.
   */
  lemma AnotherJobWrites(s: Setup, nm: Naming) returns (tr: Trace, pid: nat, longer: Trace)
    requires s.Valid()
    requires nm.category(FIRST) == nm.category(SECOND) && nm.release(FIRST) == nm.release(SECOND)
    ensures IsTrace(s, tr) && tr.worlds != [] && |tr.worlds| == |tr.actions| + 1
    ensures IsNamed(nm, tr.worlds, tr.actions)
    ensures |tr.actions| >= 5 && tr.actions[|tr.actions| - 5..] == AbortActs(pid)
    ensures Ended(End(tr), FIRST) && FIRST !in End(tr).puller.inflight && !IsListed(End(tr).puller, FIRST)
    ensures pid in End(tr).puller.pulls && End(tr).puller.pulls[pid].phase.Exited?
    ensures End(tr).puller.pulls[pid].dir == nm.Dir(FIRST)
    ensures IsWrittenIn(nm, s, tr, longer, nm.Dir(FIRST))
  {
    hide IsTrace, Enabled, NextWorld, IsScene, SecondIsThere, Confinement.JobDir, IsNamed, Ended, IsListed,
         IsSharedWithOther,
         IsWrittenIn, AbortActs;
    var x: P.Pull;
    tr, pid, x := FirstDownloads(nm, s);
    var job := JobOf(nm.category(SECOND), "2");
    SecondIsAdded(s, End(tr), pid, x, job);
    tr := NamedExtend(nm, s, tr, Add(SECOND, job));
    SceneHasRow(End(tr), pid, x);
    var row := End(tr).db.rows[FIRST];
    FirstIsRead(s, End(tr), pid, x);
    SameSecond(End(tr), NextWorld(s, End(tr), Read(0, FIRST)));
    tr := NamedExtend(nm, s, tr, Read(0, FIRST));
    FirstIsCanceled(s, End(tr), pid, x, row);
    tr := NamedExtend(nm, s, tr, Cancel(0));
    var aborted := FirstIsAborted(s, tr, pid, x);
    AbortExtends(s, tr, aborted, pid);
    AbortIsNamed(nm, tr, aborted, pid);
    tr := aborted;
    SceneIsOver(s, tr, pid, x.(phase := P.Exited, aborted := true));
    SecondCanDownload(nm, End(tr));
    DiscardedIsWrittenExactly(nm, s, tr, FIRST);
    longer :| IsWrittenIn(nm, s, tr, longer, nm.Dir(FIRST));
  }

  lemma SceneHasRow(w: World, pid: nat, x: P.Pull)
    requires IsScene(w, CompletedTorbox, pid, x, map[], map[])
    ensures FIRST in w.db.rows && w.db.rows[FIRST].state == CompletedTorbox
  {
  }

  lemma SameSecond(w: World, w': World)
    requires SecondIsThere(w) && w'.db == w.db
    ensures SecondIsThere(w')
  {
  }

  lemma AbortExtends(s: Setup, tr: Trace, longer: Trace, pid: nat)
    requires IsTrace(s, longer) && longer.actions == tr.actions + AbortActs(pid)
    ensures |longer.actions| == |tr.actions| + 5 && longer.actions[|tr.actions|..] == AbortActs(pid)
  {
  }
}
