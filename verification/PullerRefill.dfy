/** Tick's refill while everybody else goes on: the pool fills up from the oldest idle due jobs. */
module PullerRefill {
  import opened Options
  import opened Jobs
  import opened StoreSpec
  import opened PollerSpec
  import opened PullerSpec
  import opened Puller
  import L = Pipeline
  import Q = PullerSafety
  import S = PipelineSafety
  import T = PipelineTheorems

  /** A pull finishes, the puller restarts, or another Tick begins. */
  predicate Disturbs(a: Action) {
    a.Forget? || a.Restart? || a.Count? || a.List?
  }

  /** The jobs a Tick has still to consider. */
  function ToDo(p: PullerSpec.Puller): seq<Listed> {
    if p.tick.Filling? then p.tick.todo else []
  }

  ghost predicate IsPlain(p: PullerSpec.Puller) {
    forall i :: 0 <= i < |ToDo(p)| ==> !HasLocalPath(ToDo(p)[i].row)
  }

  /** The pool at the end of the Tick, if nothing disturbs it. */
  function FullPool(c: Config, p: PullerSpec.Puller): set<string> {
    Busied(p.inflight.Keys, IdsOf(ToDo(p)), c.limit)
  }

  ghost predicate KeepsEntries(p: PullerSpec.Puller, p': PullerSpec.Puller) {
    forall id :: id in p.inflight ==> id in p'.inflight && p'.inflight[id] == p.inflight[id]
  }

  // ----- One step -----

  lemma ConsiderKeepsEntries(c: Config, p: PullerSpec.Puller, e: Listed, tick: PullerSpec.Tick)
    ensures KeepsEntries(p, Considered(c, p, e, tick))
  {
    hide HasLocalPath;
  }

  lemma TailIsPlain(p: PullerSpec.Puller, p': PullerSpec.Puller)
    requires p.tick.Filling? && p.tick.todo != [] && IsPlain(p) && p'.tick == Filled(p.tick.todo[1..])
    ensures !HasLocalPath(p.tick.todo[0].row) && ToDo(p') == p.tick.todo[1..] && IsPlain(p')
  {
    assert !HasLocalPath(ToDo(p)[0].row);
    hide HasLocalPath;
    assert forall i :: 0 <= i < |ToDo(p')| ==> ToDo(p')[i] == ToDo(p)[i + 1];
  }

  lemma ConsiderIsForeseen(c: Config, p: PullerSpec.Puller)
    requires Enabled(c, p, Consider) && IsPlain(p)
    ensures var p' := Considered(c, p, p.tick.todo[0], Filled(p.tick.todo[1..]));
            FullPool(c, p') == FullPool(c, p) && IsPlain(p') && KeepsEntries(p, p')
  {
    hide HasLocalPath, Considered, IsPlain, KeepsEntries, IdsOf;
    var e, tick := p.tick.todo[0], Filled(p.tick.todo[1..]);
    var p' := Considered(c, p, e, tick);
    ConsiderKeepsEntries(c, p, e, tick);
    ConsideredTick(c, p, e, tick);
    TailIsPlain(p, p');
    ConsideringStartsOne(c, p, e, tick);
    IdsOfTail(p.tick.todo);
  }

  lemma ConsideredTick(c: Config, p: PullerSpec.Puller, e: Listed, tick: PullerSpec.Tick)
    ensures Considered(c, p, e, tick).tick == tick
  {
    hide HasLocalPath;
  }

  /** Whatever else pulls and aborting clients do leaves the entries and the Tick alone. */
  lemma OthersLeavePool(c: Config, p: PullerSpec.Puller, a: Action, now: Time)
    requires Enabled(c, p, a) && !Disturbs(a) && !a.Consider?
    ensures var p' := PullStep(c, p, a, now); p'.inflight == p.inflight && p'.tick == p.tick
  {
    hide History, AfterFind, AfterRun, GivesUp;
  }

  lemma StepIsForeseen(c: Config, p: PullerSpec.Puller, a: Action, now: Time)
    requires Enabled(c, p, a) && !Disturbs(a) && IsPlain(p)
    ensures var p' := PullStep(c, p, a, now); FullPool(c, p') == FullPool(c, p) && IsPlain(p') && KeepsEntries(p, p')
  {
    if a.Consider? {
      hide FullPool, IsPlain, Considered;
      ConsiderIsForeseen(c, p);
    } else {
      OthersLeavePool(c, p, a, now);
      hide PullStep, Enabled, Busied, HasLocalPath;
    }
  }

  // ----- The count at the beginning of a Tick -----

  /** Until the rows are listed, at most as many jobs are busy as were counted. */
  predicate IsCounted(p: PullerSpec.Puller) {
    p.tick.Counted? ==> |p.inflight| <= p.tick.busy
  }

  lemma StepStaysCounted(c: Config, p: PullerSpec.Puller, a: Action, now: Time)
    requires Enabled(c, p, a) && IsCounted(p)
    ensures IsCounted(PullStep(c, p, a, now))
  {
    if !Disturbs(a) && !a.Consider? {
      OthersLeavePool(c, p, a, now);
      hide PullStep, Enabled;
    } else if a.Forget? {
      Q.RemovalShrinks(p.inflight, p.pulls[a.pid].id);
    }
  }

  lemma {:induction false} ReachableIsCounted(c: Config, ps: seq<PullerSpec.Puller>, actions: seq<Action>,
                                              times: seq<Time>, n: nat)
    requires Q.IsRun(c, ps, actions, times) && n < |ps|
    ensures IsCounted(ps[n])
  {
    hide PullStep, Enabled, IsCounted;
    if n == 0 {
      IdleIsCounted();
    } else {
      ReachableIsCounted(c, ps, actions, times, n - 1);
      assert Q.Step(c, ps[n - 1], actions[n - 1], times[n - 1], ps[n]);
      StepStaysCounted(c, ps[n - 1], actions[n - 1], times[n - 1]);
    }
  }

  lemma IdleIsCounted()
    ensures IsCounted(IDLE_PULLER)
  {
  }

  // ----- Runs of the puller -----

  lemma {:induction false} PoolIsForeseen(c: Config, ps: seq<PullerSpec.Puller>, actions: seq<Action>, times: seq<Time>,
                                          i: nat, k: nat)
    requires Q.IsRun(c, ps, actions, times) && i <= k < |ps| && IsPlain(ps[i])
    requires forall j :: i <= j < k ==> !Disturbs(actions[j])
    ensures FullPool(c, ps[k]) == FullPool(c, ps[i]) && IsPlain(ps[k]) && KeepsEntries(ps[i], ps[k])
    decreases k
  {
    hide PullStep, Enabled, FullPool, IsPlain;
    if i < k {
      PoolIsForeseen(c, ps, actions, times, i, k - 1);
      assert Q.Step(c, ps[k - 1], actions[k - 1], times[k - 1], ps[k]);
      StepIsForeseen(c, ps[k - 1], actions[k - 1], times[k - 1]);
    }
  }

  /**
    The jobs a Tick lists, as the store's listing of the due rows at that instant, none left over from an
    earlier run.
   */
  ghost predicate IsTickListing(rows: Table, now: Time, most: nat, jobs: seq<Listed>) {
    && IsListing(rows, IsDue(now), IdsOf(jobs), most)
    && forall i :: 0 <= i < |jobs| ==> !HasLocalPath(jobs[i].row)
  }

  lemma AfterListing(c: Config, p: PullerSpec.Puller, jobs: seq<Listed>)
    requires forall i :: 0 <= i < |jobs| ==> !HasLocalPath(jobs[i].row)
    ensures var p' := p.(tick := Filled(jobs)); IsPlain(p') && ToDo(p') == jobs
  {
  }

  lemma RestingPoolIsFull(c: Config, p: PullerSpec.Puller)
    requires p.tick.Resting?
    ensures FullPool(c, p) == p.inflight.Keys
  {
  }

  /** What the pool holds at rest, told from what it held when the Tick listed its jobs. */
  ghost predicate IsRefilled(rows: Table, now: Time, c: Config, p: PullerSpec.Puller, p': PullerSpec.Puller,
                             all: seq<string>)
    requires |p.inflight.Keys| <= c.limit
  {
    && IsDueList(rows, now, all)
    && p'.inflight.Keys == p.inflight.Keys + Elements(Take(Idle(p.inflight.Keys, all), c.limit - |p.inflight.Keys|))
    && KeepsEntries(p, p')
  }

  lemma MakeRefilled(rows: Table, now: Time, c: Config, p: PullerSpec.Puller, p': PullerSpec.Puller, all: seq<string>)
    requires |p.inflight.Keys| <= c.limit && IsDueList(rows, now, all) && KeepsEntries(p, p')
    requires p'.inflight.Keys ==
             p.inflight.Keys + Elements(Take(Idle(p.inflight.Keys, all), c.limit - |p.inflight.Keys|))
    ensures IsRefilled(rows, now, c, p, p', all)
  {
    hide Idle, Take, Elements, IsDueList, KeepsEntries;
  }

  lemma PoolFits(c: Config, ps: seq<PullerSpec.Puller>, actions: seq<Action>, times: seq<Time>, n: nat)
    requires c.Valid() && Q.IsRun(c, ps, actions, times) && n < |ps|
    ensures |ps[n].inflight| <= c.limit
  {
    Q.ReachableIsSound(c, ps, actions, times, n);
    hide Q.IsRun;
  }

  lemma ListingStep(c: Config, ps: seq<PullerSpec.Puller>, actions: seq<Action>, times: seq<Time>, i: nat)
    requires Q.IsRun(c, ps, actions, times) && i + 1 < |ps| && actions[i].List?
    ensures |ps| == |actions| + 1 && ps[i + 1] == ps[i].(tick := Filled(actions[i].jobs))
  {
    assert Q.Step(c, ps[i], actions[i], times[i], ps[i + 1]);
  }

  lemma EntriesOfListing(p: PullerSpec.Puller, jobs: seq<Listed>, p': PullerSpec.Puller)
    ensures KeepsEntries(p.(tick := Filled(jobs)), p') <==> KeepsEntries(p, p')
  {
  }

  /**
    Work-conserving refill, in every interleaving of Tick, pulls and aborts: from the instant a Tick lists the
    due jobs until it rests, while no pull finishes, the pool gains exactly the first (limit - busy) idle
    due jobs of all there were, oldest first, and no pull in it is disturbed.
   */
  lemma RefillThroughout(c: Config, ps: seq<PullerSpec.Puller>, actions: seq<Action>, times: seq<Time>, i: nat, k: nat,
                         rows: Table, now: Time) returns (all: seq<string>)
    requires c.Valid() && Q.IsRun(c, ps, actions, times) && i < k < |ps|
    requires actions[i].List? && ps[k].tick.Resting? && forall j :: i < j < k ==> !Disturbs(actions[j])
    requires ps[i].tick.Counted? && IsTickListing(rows, now, c.limit + ps[i].tick.busy, actions[i].jobs)
    ensures |ps[i].inflight.Keys| <= c.limit
    ensures IsRefilled(rows, now, c, ps[i], ps[k], all)
  {
    hide IsListing, IsDue, Busied, Q.IsRun, Idle, Take, Elements, PullStep, Enabled, IsRefilled, KeepsEntries,
         IsDueList, IsPlain, HasLocalPath, ToDo;
    PoolFits(c, ps, actions, times, i);
    ReachableIsCounted(c, ps, actions, times, i);
    ListingStep(c, ps, actions, times, i);
    AfterListing(c, ps[i], actions[i].jobs);
    PoolIsForeseen(c, ps, actions, times, i + 1, k);
    RestingPoolIsFull(c, ps[k]);
    EntriesOfListing(ps[i], actions[i].jobs, ps[k]);
    assert |ps[i].inflight.Keys| == |ps[i].inflight|;
    all := ListingFillsPool(rows, ps[i].inflight.Keys, IdsOf(actions[i].jobs), c.limit + ps[i].tick.busy, c.limit, now);
    MakeRefilled(rows, now, c, ps[i], ps[k], all);
  }

  // ----- Runs of the whole pipeline -----

  predicate DisturbsPool(a: L.Action) {
    a.Crash? || (a.Pull? && Disturbs(a.a))
  }

  lemma WorldPuller(s: L.Setup, w: L.World, a: L.Action)
    requires L.Enabled(s, w, a)
    ensures var p' := L.NextWorld(s, w, a).puller;
            if a.Pull? then Enabled(s.pull, w.puller, a.a) && p' == PullStep(s.pull, w.puller, a.a, w.now)
            else if a.Crash? then p' == Restarted(w.puller)
            else p' == w.puller
  {
    hide IsListing, L.IsPullListing, L.NextSubs, L.NextPoll, L.NextClients, L.NextDb, PullStep, Enabled;
  }

  lemma {:induction false} WorldIsCounted(s: L.Setup, worlds: seq<L.World>, actions: seq<L.Action>, n: nat)
    requires T.IsRun(s, worlds, actions) && n < |worlds|
    ensures IsCounted(worlds[n].puller)
  {
    hide L.Enabled, L.NextWorld, PullStep, Enabled;
    if n > 0 {
      WorldIsCounted(s, worlds, actions, n - 1);
      assert T.Step(s, worlds[n - 1], actions[n - 1], worlds[n]);
      WorldPuller(s, worlds[n - 1], actions[n - 1]);
      if actions[n - 1].Pull? {
        StepStaysCounted(s.pull, worlds[n - 1].puller, actions[n - 1].a, worlds[n - 1].now);
      }
    }
  }

  lemma {:induction false} WorldPoolIsForeseen(s: L.Setup, worlds: seq<L.World>, actions: seq<L.Action>, i: nat, k: nat)
    requires T.IsRun(s, worlds, actions) && i <= k < |worlds| && IsPlain(worlds[i].puller)
    requires forall j :: i <= j < k ==> !DisturbsPool(actions[j])
    ensures FullPool(s.pull, worlds[k].puller) == FullPool(s.pull, worlds[i].puller) && IsPlain(worlds[k].puller)
    ensures KeepsEntries(worlds[i].puller, worlds[k].puller)
    decreases k
  {
    hide L.Enabled, L.NextWorld, PullStep, Enabled, FullPool, IsPlain;
    if i < k {
      WorldPoolIsForeseen(s, worlds, actions, i, k - 1);
      assert T.Step(s, worlds[k - 1], actions[k - 1], worlds[k]);
      WorldPuller(s, worlds[k - 1], actions[k - 1]);
      if actions[k - 1].Pull? {
        StepIsForeseen(s.pull, worlds[k - 1].puller, actions[k - 1].a, worlds[k - 1].now);
      }
    }
  }

  /** Two tests that agree on every row list the same. */
  lemma SameListing(rows: Table, keep: Row -> bool, keep': Row -> bool, ids: seq<string>, most: nat)
    requires IsListing(rows, keep, ids, most) && forall r :: keep(r) == keep'(r)
    ensures IsListing(rows, keep', ids, most)
  {
  }

  lemma SameTest(t: Time)
    ensures forall r: Row :: L.Pullable(r, t) == IsDue(t)(r)
  {
  }

  lemma DueRowsAreUnpublished(s: L.Setup, w: L.World, ids: seq<string>, most: nat)
    requires S.RowsOk(s.Budget(), w.db.rows) && IsListing(w.db.rows, IsDue(w.now), ids, most)
    ensures forall i :: 0 <= i < |ids| ==> ids[i] in w.db.rows && !HasLocalPath(w.db.rows[ids[i]])
  {
    forall i | 0 <= i < |ids|
      ensures ids[i] in w.db.rows && !HasLocalPath(w.db.rows[ids[i]])
    {
      assert S.RowOk(s.Budget(), w.db.rows[ids[i]]);
    }
  }

  lemma ListedIds(rows: Table, t: Time, most: nat, jobs: seq<Listed>) returns (ids: seq<string>)
    requires L.IsPullListing(rows, t, most, jobs)
    ensures IsListing(rows, (r: Row) => L.Pullable(r, t), ids, most) && ids == IdsOf(jobs)
    ensures |ids| == |jobs| && forall i :: 0 <= i < |ids| ==> ids[i] in rows && jobs[i].row == rows[ids[i]]
  {
    ids :| IsListing(rows, (r: Row) => L.Pullable(r, t), ids, most) && jobs == Snapshots(rows, ids);
    assert IdsOf(jobs) == ids;
  }

  lemma WorldListing(s: L.Setup, w: L.World, jobs: seq<Listed>)
    requires S.Inv(s, w) && L.Enabled(s, w, L.Pull(List(jobs)))
    ensures w.puller.tick.Counted? && |w.puller.inflight| <= s.pull.limit
    ensures IsTickListing(w.db.rows, w.now, s.pull.limit + w.puller.tick.busy, jobs)
  {
    hide S.SubsOk, S.PollOk, S.PullsOk, S.TickOk, S.Apart, S.Known, Consistent, IsListing, HasLocalPath, L.Pullable,
         Due;
    var rows, most, t := w.db.rows, s.pull.limit + w.puller.tick.busy, w.now;
    var ids := ListedIds(rows, t, most, jobs);
    SameTest(t);
    SameListing(rows, (r: Row) => L.Pullable(r, t), IsDue(t), ids, most);
    DueRowsAreUnpublished(s, w, ids, most);
  }

  /**
    The same in every run of the whole pipeline, with the store's own listing: clients may cancel jobs, the
    poller may complete more, and pulls may be aborted meanwhile.
   */
  lemma PipelineRefill(s: L.Setup, worlds: seq<L.World>, actions: seq<L.Action>, i: nat, k: nat)
      returns (all: seq<string>)
    requires T.IsRun(s, worlds, actions) && i < k < |worlds| && actions[i].Pull? && actions[i].a.List?
    requires worlds[k].puller.tick.Resting? && forall j :: i < j < k ==> !DisturbsPool(actions[j])
    ensures |worlds[i].puller.inflight.Keys| <= s.pull.limit
    ensures IsRefilled(worlds[i].db.rows, worlds[i].now, s.pull, worlds[i].puller, worlds[k].puller, all)
  {
    hide S.Inv, L.Enabled, L.NextWorld, IsListing, IsDue, Busied, Idle, Take, Elements, KeepsEntries, IsRefilled;
    T.ReachableInv(s, worlds, actions, i);
    WorldIsCounted(s, worlds, actions, i);
    var w, jobs, p, p' := worlds[i], actions[i].a.jobs, worlds[i].puller, worlds[k].puller;
    assert T.Step(s, w, actions[i], worlds[i + 1]);
    WorldListing(s, w, jobs);
    WorldPuller(s, w, actions[i]);
    AfterListing(s.pull, p, jobs);
    WorldPoolIsForeseen(s, worlds, actions, i + 1, k);
    RestingPoolIsFull(s.pull, p');
    EntriesOfListing(p, jobs, p');
    assert |p.inflight.Keys| == |p.inflight|;
    all := ListingFillsPool(w.db.rows, p.inflight.Keys, IdsOf(jobs), s.pull.limit + p.tick.busy, s.pull.limit, w.now);
    MakeRefilled(w.db.rows, w.now, s.pull, p, p', all);
  }
}
