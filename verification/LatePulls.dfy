/** Whether a job that has ended, and whose pull is gone, can be pulled again. */
module LatePulls {
  import opened Options
  import opened Jobs
  import opened StoreSpec
  import opened PollerSpec
  import opened SubmitterSpec
  import opened Pipeline
  import opened PipelineSafety
  import opened PipelineTheorems
  import opened PipelineRuns
  import opened JobDrives
  import P = PullerSpec
  import Q = PullerSafety
  import R = PullerRefill

  /** The row has ended or is gone. */
  predicate Ended(w: World, id: string) {
    id in w.born && (id in w.db.rows ==> w.db.rows[id].state.Terminal())
  }

  predicate IsLaidOff(p: P.Puller, id: string) {
    id !in p.inflight && !IsListed(p, id)
  }

  // ----- Never again -----

  lemma StepStaysLaidOff(c: P.Config, p: P.Puller, a: P.Action, now: Time, id: string)
    requires P.Enabled(c, p, a) && IsLaidOff(p, id) && (a.List? ==> !IsAmong(a.jobs, id))
    ensures IsLaidOff(P.PullStep(c, p, a, now), id)
  {
    if a.Consider? {
      hide P.Considered, IsAmong;
      TailIsAmong(p.tick.todo, id);
      ConsiderStartsHead(c, p, p.tick.todo[0], P.Filled(p.tick.todo[1..]), id);
    } else if !R.Disturbs(a) {
      R.OthersLeavePool(c, p, a, now);
      hide P.PullStep, P.Enabled;
    }
  }

  /** The store lists no row that has ended. */
  lemma EndedIsNotListed(s: Setup, w: World, jobs: seq<Listed>, limit: nat, id: string)
    requires IsPullListing(w.db.rows, w.now, limit, jobs) && Ended(w, id)
    ensures !IsAmong(jobs, id)
  {
    var ids :| IsListing(w.db.rows, (r: Row) => Pullable(r, w.now), ids, limit) && jobs == Snapshots(w.db.rows, ids);
  }

  lemma WorldStaysLaidOff(s: Setup, w: World, a: Action, w': World, id: string)
    requires Inv(s, w) && Step(s, w, a, w') && Ended(w, id) && IsLaidOff(w.puller, id)
    ensures Ended(w', id) && IsLaidOff(w'.puller, id)
  {
    hide Inv, Enabled, NextWorld, IsAmong, P.PullStep, P.Enabled, P.Restarted, IsPullListing;
    StepKeepsEnds(s, w, a, w', id);
    R.WorldPuller(s, w, a);
    if a.Pull? {
      if a.a.List? {
        ListIsPullListing(s, w, a.a.jobs);
        EndedIsNotListed(s, w, a.a.jobs, s.pull.limit + w.puller.tick.busy, id);
      }
      StepStaysLaidOff(s.pull, w.puller, a.a, w.now, id);
    } else if a.Crash? {
      RestartLaysOff(w.puller, id);
    }
  }

  lemma ListIsPullListing(s: Setup, w: World, jobs: seq<Listed>)
    requires Enabled(s, w, Pull(P.List(jobs)))
    ensures w.puller.tick.Counted? && IsPullListing(w.db.rows, w.now, s.pull.limit + w.puller.tick.busy, jobs)
  {
    hide IsPullListing;
  }

  lemma RestartLaysOff(p: P.Puller, id: string)
    ensures IsLaidOff(P.Restarted(p), id)
  {
  }

  /** No pull of the job is at work, whatever its object still says. */
  ghost predicate IsQuiet(p: P.Puller, id: string) {
    id !in p.inflight && forall pid :: pid in p.pulls && p.pulls[pid].id == id ==> !p.pulls[pid].phase.Held()
  }

  lemma NoEntryNoPull(s: Setup, w: World, id: string)
    requires Inv(s, w) && id !in w.puller.inflight
    ensures IsQuiet(w.puller, id)
  {
    hide Consistent, RowsOk, SubsOk, PollOk, PullsOk, TickOk, Apart, Known, Q.PullsOk;
  }

  /**
    Once a job has ended and no pull of it is in flight, none is ever started again, whatever happens,
    unless the Tick at work has the job in its listing.
   */
  lemma {:induction false} NeverPulledAgain(s: Setup, worlds: seq<World>, actions: seq<Action>, n: nat, k: nat,
                                            id: string)
    requires IsRun(s, worlds, actions) && n <= k < |worlds|
    requires Ended(worlds[n], id) && id !in worlds[n].puller.inflight && !IsListed(worlds[n].puller, id)
    ensures Ended(worlds[k], id) && !IsListed(worlds[k].puller, id) && IsQuiet(worlds[k].puller, id)
    decreases k
  {
    hide Inv, Enabled, NextWorld, IsListed, Ended;
    ReachableInv(s, worlds, actions, k);
    if n < k {
      NeverPulledAgain(s, worlds, actions, n, k - 1, id);
      ReachableInv(s, worlds, actions, k - 1);
      assert Step(s, worlds[k - 1], actions[k - 1], worlds[k]);
      WorldStaysLaidOff(s, worlds[k - 1], actions[k - 1], worlds[k], id);
    }
    NoEntryNoPull(s, worlds[k], id);
  }

  // ----- And otherwise it can be -----

  ghost predicate IsPulledIn(s: Setup, tr: Trace, longer: Trace, id: string) {
    IsTrace(s, longer) && longer.worlds != [] && Extends(tr, longer) && id in End(longer).puller.inflight
  }

  /**
    After a job has ended and its pull is gone, it can be pulled again in some continuation of the run,
    exactly if the Tick at work still has it in its listing.
   */
  lemma PulledAgainExactly(s: Setup, tr: Trace, id: string)
    requires IsTrace(s, tr) && tr.worlds != [] && Ended(End(tr), id) && id !in End(tr).puller.inflight
    ensures IsListed(End(tr).puller, id) <==> exists longer :: IsPulledIn(s, tr, longer, id)
  {
    hide IsTrace, IsListed, IsQuiet, Ended;
    if IsListed(End(tr).puller, id) {
      var longer := ListedCanStart(s, tr, id);
      assert IsPulledIn(s, tr, longer, id);
    } else {
      forall longer | IsTrace(s, longer) && longer.worlds != [] && Extends(tr, longer)
        ensures id !in End(longer).puller.inflight
      {
        NeverPulledLonger(s, tr, longer, id);
      }
    }
  }

  lemma NeverPulledLonger(s: Setup, tr: Trace, longer: Trace, id: string)
    requires IsTrace(s, tr) && tr.worlds != [] && Ended(End(tr), id) && id !in End(tr).puller.inflight
    requires !IsListed(End(tr).puller, id) && IsTrace(s, longer) && longer.worlds != [] && Extends(tr, longer)
    ensures id !in End(longer).puller.inflight
  {
    hide Enabled, NextWorld, Ended, IsListed;
    assert End(tr) == longer.worlds[|tr.worlds| - 1];
    NeverPulledAgain(s, longer.worlds, longer.actions, |tr.worlds| - 1, |longer.worlds| - 1, id);
  }

  // ----- A run in which it happens -----

  const JOB := "job"

  const THE_JOB := NewJob("", "", "", Some([0]), None, Usenet, New)

  lemma AddIsTaken(s: Setup, w: World, id: string, job: NewJob)
    requires id !in w.born && job.state == New
    ensures Enabled(s, w, Add(id, job))
    ensures var w' := NextWorld(s, w, Add(id, job));
            && (id !in w.db.rows ==> w'.db.rows == w.db.rows[id := FreshRow(job, w.now)])
            && w'.born == w.born + {id} && w'.puller == w.puller && w'.clients == w.clients
  {
    hide IsListing, IsPullListing, Observe;
  }

  lemma GenesisIsTrace(s: Setup)
    requires s.Valid()
    ensures IsTrace(s, Trace([Genesis(0)], []))
  {
  }

  /** The job is canceled, but the Tick has still to consider it. */
  predicate IsCanceledButListed(w: World, id: string) {
    && id in w.db.rows && w.db.rows[id].state == Canceled && w.clients == map[]
    && w.puller.inflight == map[] && w.puller.waiting == map[] && IsListed(w.puller, id)
  }

  lemma CancelIsTaken(s: Setup, w: World, id: string)
    requires id in w.db.rows && IsNext(w.(clients := map[]), id) && w.clients == map[0 := Listed(id, w.db.rows[id])]
    ensures Enabled(s, w, Cancel(0)) && IsCanceledButListed(NextWorld(s, w, Cancel(0)), id)
  {
    hide IsListing, IsPullListing, Observe;
    assert [Listed(id, w.db.rows[id])][0].id == id;
  }

  /** There is no pull to abort. */
  lemma AbortFindsNothing(s: Setup, w: World, id: string)
    requires IsCanceledButListed(w, id)
    ensures Enabled(s, w, Pull(P.AbortBegin(0, id))) && NextWorld(s, w, Pull(P.AbortBegin(0, id))) == w
  {
    hide IsListing, IsPullListing;
  }

  /**
    The promise that no pull of an aborted job is at work again can fail: a job is listed by a Tick, canceled,
    and aborted before the Tick considers it. There is no pull yet, so Abort returns at once; then the Tick
    starts one.
   */
  lemma AbortCanComeTooSoon(s: Setup) returns (tr: Trace, longer: Trace)
    requires s.Valid()
    ensures IsTrace(s, tr) && |tr.actions| >= 3 && |tr.worlds| == |tr.actions| + 1
    ensures tr.actions[|tr.actions| - 3..] == [Read(0, JOB), Cancel(0), Pull(P.AbortBegin(0, JOB))]
    ensures JOB in End(tr).db.rows && End(tr).db.rows[JOB].state == Canceled
    ensures End(tr).puller.inflight == map[] && End(tr).puller.waiting == map[]
    ensures IsPulledIn(s, tr, longer, JOB)
  {
    hide Enabled, NextWorld, IsTrace, IsListed;
    tr := Trace([Genesis(0)], []);
    GenesisIsTrace(s);
    AddIsTaken(s, End(tr), JOB, THE_JOB);
    tr := Extend(s, tr, Add(JOB, THE_JOB));
    assert !HasNoPayload(End(tr).db.rows[JOB]);
    tr := UnfinishedCanBeListed(s, tr, JOB);
    ReadIsTaken(s, End(tr), JOB);
    assert End(tr).clients == map[];
    var listed := End(tr);
    tr := Extend(s, tr, Read(0, JOB));
    assert End(tr).(clients := map[]) == listed;
    CancelIsTaken(s, End(tr), JOB);
    tr := Extend(s, tr, Cancel(0));
    AbortFindsNothing(s, End(tr), JOB);
    tr := Extend(s, tr, Pull(P.AbortBegin(0, JOB)));
    longer := ListedCanStart(s, tr, JOB);
  }
}
