/** The pipeline's guarantees, for every run: every interleaving, every stale copy, every crash. */
module PipelineTheorems {
  import opened Options
  import opened Jobs
  import opened StoreSpec
  import opened PollerSpec
  import opened SubmitterSpec
  import opened Pipeline
  import opened PipelineSafety
  import P = PullerSpec
  import Q = PullerSafety

  ghost predicate Step(s: Setup, w: World, a: Action, w': World) {
    Enabled(s, w, a) && w' == NextWorld(s, w, a)
  }

  ghost predicate IsRun(s: Setup, worlds: seq<World>, actions: seq<Action>) {
    && s.Valid()
    && |worlds| == |actions| + 1
    && worlds[0] == Genesis(worlds[0].now)
    && forall i :: 0 <= i < |actions| ==> Step(s, worlds[i], actions[i], worlds[i + 1])
  }

  lemma GenesisIsInv(s: Setup, now: Time)
    ensures Inv(s, Genesis(now))
  {
    Q.IdleIsSound(s.pull);
  }

  lemma {:induction false} ReachableInv(s: Setup, worlds: seq<World>, actions: seq<Action>, n: nat)
    requires IsRun(s, worlds, actions) && n < |worlds|
    ensures Inv(s, worlds[n])
  {
    hide Inv, Enabled, NextWorld, Genesis;
    if n == 0 {
      GenesisIsInv(s, worlds[0].now);
    } else {
      ReachableInv(s, worlds, actions, n - 1);
      assert Step(s, worlds[n - 1], actions[n - 1], worlds[n]);
      InvStays(s, worlds[n - 1], actions[n - 1]);
    }
  }

  /** No interleaving drives a job's attempts past the larger of the two retry limits. */
  lemma RetryBudget(s: Setup, worlds: seq<World>, actions: seq<Action>, n: nat, id: string)
    requires IsRun(s, worlds, actions) && n < |worlds| && id in worlds[n].db.rows
    ensures worlds[n].db.rows[id].attempts <= s.Budget()
  {
    ReachableInv(s, worlds, actions, n);
    hide IsRun, Consistent, SubsOk, PollOk, Q.Sound, PullsOk, TickOk, Apart, Known;
    assert RowOk(s.Budget(), worlds[n].db.rows[id]);
  }

  /** The branch of Tick for rows that already have a local path is never taken. */
  lemma StaleLocalPathIsUnreachable(s: Setup, worlds: seq<World>, actions: seq<Action>, n: nat)
    requires IsRun(s, worlds, actions) && n < |actions| && actions[n] == Pull(P.Consider)
    ensures P.Enabled(s.pull, worlds[n].puller, P.Consider)
    ensures P.PullStmt(s.pull, worlds[n].puller, P.Consider, worlds[n].now) == None
  {
    ReachableInv(s, worlds, actions, n);
    assert Step(s, worlds[n], actions[n], worlds[n + 1]);
    hide IsRun, NextWorld, Consistent, SubsOk, PollOk, Q.Sound, PullsOk, Apart, Known, RowsOk, IsListing, IsPullListing;
    var p := worlds[n].puller;
    assert TodoOk(worlds[n].db.rows, p, p.tick.todo[0]);
  }

  /**
    State safety: what the hooks were told about a job is a path of the life cycle from NEW to its present
    state, with at most four changes and none after a terminal state.
   */
  lemma StateSafety(s: Setup, worlds: seq<World>, actions: seq<Action>, n: nat, id: string)
    requires IsRun(s, worlds, actions) && n < |worlds|
    ensures var t := Trail(worlds[n].db.fired, id);
            && IsPath(t) && t[0] == New && |t| <= 5
            && (forall i :: 0 <= i < |t| - 1 ==> !t[i].Terminal())
            && (id in worlds[n].db.rows ==> worlds[n].db.rows[id].state == t[|t| - 1])
  {
    ReachableInv(s, worlds, actions, n);
    hide IsRun, RowsOk, SubsOk, PollOk, Q.Sound, PullsOk, TickOk, Apart, Known;
    ChainedTrailIsPath(worlds[n].db.fired, id);
    PathIsShort(Trail(worlds[n].db.fired, id));
  }

  lemma StepKeepsEnds(s: Setup, w: World, a: Action, w': World, id: string)
    requires Inv(s, w) && Step(s, w, a, w') && id in w.born && (id in w.db.rows ==> w.db.rows[id].state.Terminal())
    ensures id in w'.born
    ensures id in w'.db.rows ==> id in w.db.rows && w'.db.rows[id].state == w.db.rows[id].state
  {
    hide Enabled, NextWorld, StmtOf, Inv, Apply, Fires, Observe;
    NextWorldDb(s, w, a);
    OnlyAddInserts(s, w, a);
    if StmtOf(s, w, a).Some? {
      var stmt := StmtOf(s, w, a).value;
      if Fires(w.db.rows, stmt) == [] {
        QuietKeepsStates(w.db.rows, stmt, w.now);
      } else {
        FiringMovesOneRow(w.db.rows, stmt, w.now);
        TerminalHasNoSuccessor(Fires(w.db.rows, stmt)[0].from);
      }
    }
  }

  lemma RowsAreBorn(s: Setup, w: World, id: string)
    requires Inv(s, w) && id in w.db.rows
    ensures id in w.born
  {
    hide RowsOk, SubsOk, PollOk, Q.Sound, PullsOk, TickOk, Apart, Known, Chained, Latest;
  }

  /** Once terminal, a row keeps its state for as long as it exists, and its id never comes back. */
  lemma {:induction false} TerminalIsForever(s: Setup, worlds: seq<World>, actions: seq<Action>, m: nat, n: nat,
                                             id: string)
    requires IsRun(s, worlds, actions) && m <= n < |worlds|
    requires id in worlds[m].db.rows && worlds[m].db.rows[id].state.Terminal()
    ensures id in worlds[n].born
    ensures id in worlds[n].db.rows ==> worlds[n].db.rows[id].state == worlds[m].db.rows[id].state
    decreases n
  {
    hide Inv, Enabled, NextWorld;
    if m == n {
      ReachableInv(s, worlds, actions, n);
      RowsAreBorn(s, worlds[n], id);
    } else {
      TerminalIsForever(s, worlds, actions, m, n - 1, id);
      ReachableInv(s, worlds, actions, n - 1);
      assert Step(s, worlds[n - 1], actions[n - 1], worlds[n]);
      StepKeepsEnds(s, worlds[n - 1], actions[n - 1], worlds[n], id);
    }
  }

  /**
    A stall verdict is sound: whenever one commits, the job was DOWNLOADING when listed and has been
    in flight for over 30 minutes, its byte count took its last new value over 30 minutes ago, and,
    where TorBox gives a size, TorBox reports that same count now.
   */
  lemma StallVerdictIsSound(s: Setup, worlds: seq<World>, actions: seq<Action>, n: nat)
    requires IsRun(s, worlds, actions) && n < |actions| && actions[n].VisitStep?
    requires worlds[n].poll.Passing? && worlds[n].poll.visit.Some?
    requires var v := worlds[n].poll.visit.value; v.item.Some? && v.pc == Pc.Close(Stalled)
    requires |worlds[n + 1].db.fired| > |worlds[n].db.fired|
    ensures var w, v := worlds[n], worlds[n].poll.visit.value;
            v.id in w.db.rows && v.id in w.db.moved &&
            var r := w.db.rows[v.id];
            && v.j.state == Downloading && r.state == Downloading
            && worlds[n + 1].db.fired == w.db.fired + [Event(v.id, Downloading, Failed)]
            && w.now - r.InFlightSince() > MAX_STALL
            && w.now - w.db.moved[v.id] > MAX_STALL
            && (v.item.value.size > 0 ==> v.item.value.done == r.bytesDownloaded)
  {
    ReachableInv(s, worlds, actions, n);
    assert Step(s, worlds[n], actions[n], worlds[n + 1]);
    hide IsRun, NextWorld, NextDb, Enabled, Inv, Exec, VisitStmt, VisitOk;
    NextWorldDb(s, worlds[n], actions[n]);
    VisitStepRuns(s, worlds[n]);
    VisitIsOk(s, worlds[n]);
    StalledCommit(worlds[n].db, worlds[n].poll.visit.value, worlds[n].now);
  }

  lemma VisitStepRuns(s: Setup, w: World)
    requires Enabled(s, w, VisitStep)
    ensures var stmt := VisitStmt(w.poll.visit.value, w.now);
            NextDb(s, w, VisitStep) == if stmt.Some? then Exec(w.db, stmt.value, w.now) else w.db
  {
    hide Exec, VisitStmt, IsListing, IsPullListing;
  }

  lemma VisitIsOk(s: Setup, w: World)
    requires Inv(s, w) && w.poll.Passing? && w.poll.visit.Some?
    ensures VisitOk(w.db, w.poll.visit.value, w.now)
  {
    hide VisitOk, RowsOk, SubsOk, Q.Sound, PullsOk, TickOk, Apart, Known, Consistent;
  }

  lemma StalledCommit(db: Db, v: Visit, now: Time)
    requires VisitOk(db, v, now) && v.item.Some? && v.pc == Pc.Close(Stalled)
    requires VisitStmt(v, now).Some? && |Exec(db, VisitStmt(v, now).value, now).fired| > |db.fired|
    ensures v.id in db.rows && v.id in db.moved &&
            var r := db.rows[v.id];
            && v.j.state == Downloading && r.state == Downloading
            && Exec(db, VisitStmt(v, now).value, now).fired == db.fired + [Event(v.id, Downloading, Failed)]
            && now - r.InFlightSince() > MAX_STALL
            && now - db.moved[v.id] > MAX_STALL
            && (v.item.value.size > 0 ==> v.item.value.done == r.bytesDownloaded)
  {
    hide Apply, Observe;
  }

  /** Back-pressure from TorBox (429 or ACTIVE_LIMIT) never costs a job an attempt and waits at least five minutes. */
  lemma BackpressureIsFree(id: string, j: Row, error: Error, text: string, jitter: Time, rows: Table, now: Time)
    requires (error.Is429() || error.IsActiveLimit()) && jitter >= 0 && id in rows && !HasNoPayload(j)
    ensures var r' := Apply(rows, SubmitStmt(id, j, Refused(error, text, jitter), now), now)[id];
            && r'.attempts == rows[id].attempts && r'.state == rows[id].state
            && r'.nextAttemptAt.Some? && r'.nextAttemptAt.value >= now + 5 * MINUTE
            && r'.nextAttemptAt.value >= now + error.RetryAfter()
  {
  }

  /** What the poller may rely on: others can only end a job TorBox is working on, apart from the notifier's stamp. */
  predicate OnlyEnded(rows: Table, rows': Table, id: string) {
    id in rows && rows[id].state.InFlight() && id in rows' ==> rows'[id] == rows[id] || rows'[id].state == Canceled
  }

  lemma StatementEndsOnly(s: Setup, w: World, a: Action, id: string)
    requires Inv(s, w) && Enabled(s, w, a) && !a.VisitStep? && !a.Notify? && !a.Answer? && !a.Pull?
    ensures OnlyEnded(w.db.rows, NextDb(s, w, a).rows, id)
  {
    hide Q.Sound, PollOk, PullsOk, TickOk, Apart, Known, Consistent, RowsOk, IsPullListing, Due;
    if a.GiveBack? {
      assert SubOk(w.db.rows, a.id, w.subs[a.id]);
    }
    if a.ClaimNew? {
      assert forall i :: i in a.ids ==> i in w.db.rows && w.db.rows[i].state == New;
    }
  }

  lemma AnswerEndsOnly(s: Setup, w: World, a: Action, id: string)
    requires Inv(s, w) && Enabled(s, w, a) && a.Answer?
    ensures OnlyEnded(w.db.rows, NextDb(s, w, a).rows, id)
  {
    hide Q.Sound, PollOk, PullsOk, TickOk, Apart, Known, Consistent, RowsOk;
    assert SubOk(w.db.rows, a.id, w.subs[a.id]);
    SubmitTargets(a.id, w.subs[a.id].j, a.reply, w.now);
    TargetIsOnlyRow(w.db, SubmitStmt(a.id, w.subs[a.id].j, a.reply, w.now), w.now);
    hide Apply, SubmitStmt;
  }

  lemma PullEndsOnly(s: Setup, w: World, a: Action, id: string)
    requires Inv(s, w) && Enabled(s, w, a) && a.Pull?
    ensures OnlyEnded(w.db.rows, NextDb(s, w, a).rows, id)
  {
    hide Q.Sound, PollOk, SubsOk, Apart, Known, Consistent, RowsOk, IsPullListing;
    var p := w.puller;
    if a.a.Write? {
      var x := p.pulls[a.a.pid];
      assert PullHand(w.db.rows, x.id, x.row);
      assert P.PhaseStmt(s.pull, x.id, x.row, x.phase, w.now).Some?;
      PullTargets(s.pull, x.id, x.row, x.phase, w.now);
      TargetIsOnlyRow(w.db, P.PhaseStmt(s.pull, x.id, x.row, x.phase, w.now).value, w.now);
      hide Apply, P.PhaseStmt;
    } else if a.a.Consider? {
      assert TodoOk(w.db.rows, p, p.tick.todo[0]);
    }
  }

  lemma StepEndsOnly(s: Setup, w: World, a: Action, id: string)
    requires s.Valid() && Inv(s, w) && Enabled(s, w, a) && !a.VisitStep? && !a.Notify?
    ensures OnlyEnded(w.db.rows, NextWorld(s, w, a).db.rows, id)
  {
    hide NextWorld, Enabled, Inv, OnlyEnded, NextDb;
    NextWorldDb(s, w, a);
    if a.Answer? { AnswerEndsOnly(s, w, a, id); }
    else if a.Pull? { PullEndsOnly(s, w, a, id); }
    else { StatementEndsOnly(s, w, a, id); }
  }

  /** In every reachable state only the poller moves a job forward while TorBox has it. */
  lemma OnlyPollerMovesInFlight(s: Setup, worlds: seq<World>, actions: seq<Action>, n: nat, id: string)
    requires IsRun(s, worlds, actions) && n < |actions|
    requires !actions[n].VisitStep? && !actions[n].Notify?
    ensures OnlyEnded(worlds[n].db.rows, worlds[n + 1].db.rows, id)
  {
    ReachableInv(s, worlds, actions, n);
    assert Step(s, worlds[n], actions[n], worlds[n + 1]);
    hide Inv, NextWorld, Enabled, OnlyEnded;
    StepEndsOnly(s, worlds[n], actions[n], id);
  }
}
