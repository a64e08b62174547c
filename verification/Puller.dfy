/** The puller at work: its critical sections and the refill of its pool. */
module Puller {
  import opened Options
  import opened Jobs
  import opened StoreSpec
  import opened PollerSpec
  import opened PullerSpec
  import Store

  // ----- The refill, as a function of the listing -----

  /** The ids without a pull, in order. */
  function Idle(busy: set<string>, ids: seq<string>): seq<string> {
    if ids == [] then []
    else if ids[0] in busy then Idle(busy, ids[1..])
    else [ids[0]] + Idle(busy, ids[1..])
  }

  function Take(ids: seq<string>, n: nat): seq<string> {
    if n < |ids| then ids[..n] else ids
  }

  function FillAll(c: Config, p: PullerSpec.Puller, jobs: seq<Listed>): PullerSpec.Puller
    decreases |jobs|
  {
    if jobs == [] then p else FillAll(c, Considered(c, p, jobs[0], p.tick), jobs[1..])
  }

  lemma {:induction false} IdleIgnoresStrangers(busy: set<string>, ids: seq<string>, id: string)
    requires id !in ids
    ensures Idle(busy + {id}, ids) == Idle(busy, ids)
  {
    if ids != [] {
      IdleIgnoresStrangers(busy, ids[1..], id);
    }
  }

  lemma ConsideringStartsOne(c: Config, p: PullerSpec.Puller, e: Listed, tick: PullerSpec.Tick)
    requires !HasLocalPath(e.row)
    ensures var p' := Considered(c, p, e, tick);
            p'.tick == tick && p'.inflight.Keys ==
            if e.id in p.inflight.Keys || |p.inflight.Keys| >= c.limit then p.inflight.Keys
            else p.inflight.Keys + {e.id}
  {
    assert |p.inflight.Keys| == |p.inflight|;
  }

  /** No pull already running is disturbed. */
  lemma {:induction false} FillKeeps(c: Config, p: PullerSpec.Puller, jobs: seq<Listed>)
    ensures forall id :: id in p.inflight ==>
              id in FillAll(c, p, jobs).inflight && FillAll(c, p, jobs).inflight[id] == p.inflight[id]
    decreases |jobs|
  {
    if jobs != [] {
      FillKeeps(c, Considered(c, p, jobs[0], p.tick), jobs[1..]);
    }
  }

  /** What the loop writes to the store. */
  function Published(db: Db, j: Listed, now: Time): Db {
    if HasLocalPath(j.row) then Exec(db, MarkLocalReady(j.id, j.row.localPath.value, j.row.bytesTotal), now) else db
  }

  function PublishedAll(db: Db, jobs: seq<Listed>, now: Time): Db
    decreases |jobs|
  {
    if jobs == [] then db else PublishedAll(Published(db, jobs[0], now), jobs[1..], now)
  }

  predicate NothingPublished(rows: Table) {
    forall id :: id in rows && rows[id].state == CompletedTorbox ==> !HasLocalPath(rows[id])
  }

  lemma {:induction false} NothingToPublish(db: Db, jobs: seq<Listed>, ids: seq<string>, now: Time)
    requires |jobs| == |ids|
    requires forall i :: 0 <= i < |ids| ==>
               ids[i] in db.rows && db.rows[ids[i]].state == CompletedTorbox &&
                 jobs[i] == Listed(ids[i], db.rows[ids[i]])
    ensures NothingPublished(db.rows) ==> PublishedAll(db, jobs, now) == db
  {
    if jobs != [] && NothingPublished(db.rows) {
      assert db.rows[ids[0]].state == CompletedTorbox;
      hide NothingPublished;
      NothingToPublish(db, jobs[1..], ids[1..], now);
    }
  }

  lemma ListedMayPublish(db: Db, jobs: seq<Listed>, most: nat, now: Time)
    requires IsListing(db.rows, IsDue(now), IdsOf(jobs), most) && jobs == Snapshots(db.rows, IdsOf(jobs))
    ensures NothingPublished(db.rows) ==> PublishedAll(db, jobs, now) == db
  {
    hide PublishedAll, NothingPublished;
    NothingToPublish(db, jobs, IdsOf(jobs), now);
  }

  lemma IdsOfTail(jobs: seq<Listed>)
    requires jobs != []
    ensures IdsOf(jobs) != [] && IdsOf(jobs)[0] == jobs[0].id && IdsOf(jobs)[1..] == IdsOf(jobs[1..])
  {
  }

  function Elements(ids: seq<string>): set<string> {
    set id | id in ids
  }

  /** The loop, seen from the set of busy jobs. */
  function Busied(busy: set<string>, ids: seq<string>, limit: nat): set<string>
    decreases |ids|
  {
    if ids == [] then busy
    else Busied(if ids[0] in busy || |busy| >= limit then busy else busy + {ids[0]}, ids[1..], limit)
  }

  lemma {:induction false} FillBusies(c: Config, p: PullerSpec.Puller, jobs: seq<Listed>)
    requires forall i :: 0 <= i < |jobs| ==> !HasLocalPath(jobs[i].row)
    ensures FillAll(c, p, jobs).inflight.Keys == Busied(p.inflight.Keys, IdsOf(jobs), c.limit)
    decreases |jobs|
  {
    if jobs != [] {
      hide HasLocalPath, Considered, IdsOf;
      var e, rest := jobs[0], jobs[1..];
      ConsideringStartsOne(c, p, e, p.tick);
      IdsOfTail(jobs);
      FillBusies(c, Considered(c, p, e, p.tick), rest);
    }
  }

  /** The loop starts exactly the first idle jobs that fit. */
  lemma {:induction false} BusiedIsFirstIdle(busy: set<string>, ids: seq<string>, limit: nat)
    requires Distinct(ids) && |busy| <= limit
    ensures Busied(busy, ids, limit) == busy + Elements(Take(Idle(busy, ids), limit - |busy|))
    decreases |ids|
  {
    hide Distinct, Idle, Take, Elements;
    if ids == [] {
      NoneIdle(busy, limit - |busy|);
    } else {
      TailIsDistinct(ids);
      if ids[0] in busy || |busy| >= limit {
        BusiedIsFirstIdle(busy, ids[1..], limit);
        TakeNone(busy, ids, limit - |busy|);
      } else {
        BusiedIsFirstIdle(busy + {ids[0]}, ids[1..], limit);
        StartedFirst(busy, ids, limit - |busy|);
      }
    }
  }

  lemma NoneIdle(busy: set<string>, n: nat)
    ensures Elements(Take(Idle(busy, []), n)) == {}
  {
  }

  lemma TailIsDistinct(ids: seq<string>)
    requires Distinct(ids) && ids != []
    ensures ids[0] !in ids[1..] && Distinct(ids[1..])
  {
  }

  lemma TakeNone(busy: set<string>, ids: seq<string>, n: nat)
    requires ids != [] && (ids[0] in busy || n == 0)
    ensures Elements(Take(Idle(busy, ids), n)) == Elements(Take(Idle(busy, ids[1..]), n))
  {
  }

  lemma StartedFirst(busy: set<string>, ids: seq<string>, n: nat)
    requires ids != [] && ids[0] !in busy && ids[0] !in ids[1..] && n > 0
    ensures Elements(Take(Idle(busy, ids), n)) == {ids[0]} + Elements(Take(Idle(busy + {ids[0]}, ids[1..]), n - 1))
  {
    IdleIgnoresStrangers(busy, ids[1..], ids[0]);
    var later := Idle(busy, ids[1..]);
    assert Take([ids[0]] + later, n) == [ids[0]] + Take(later, n - 1);
  }

  // ----- Listing limit + busy rows is enough -----

  lemma {:induction false} IdleAppend(busy: set<string>, a: seq<string>, b: seq<string>)
    ensures Idle(busy, a + b) == Idle(busy, a) + Idle(busy, b)
  {
    if a == [] {
      assert a + b == b;
    } else {
      assert (a + b)[1..] == a[1..] + b;
      IdleAppend(busy, a[1..], b);
    }
  }

  /** At most as many listed ids are busy as there are pulls. */
  lemma {:induction false} FewAreBusy(busy: set<string>, ids: seq<string>)
    requires Distinct(ids)
    ensures |Idle(busy, ids)| + |busy| >= |ids|
    decreases |ids|
  {
    if ids != [] {
      var rest := ids[1..];
      TailIsDistinct(ids);
      if ids[0] in busy {
        FewAreBusy(busy - {ids[0]}, rest);
        IdleIgnoresStrangers(busy - {ids[0]}, rest, ids[0]);
        assert busy - {ids[0]} + {ids[0]} == busy;
      } else {
        FewAreBusy(busy, rest);
      }
    }
  }

  /** The free slots are filled from the first limit + busy rows, or more, as they would be from all rows. */
  lemma PrefixSuffices(busy: set<string>, all: seq<string>, n: nat, limit: nat)
    requires Distinct(all) && n <= |all| && |busy| <= limit
    requires n == |all| || n >= limit + |busy|
    ensures Take(Idle(busy, all[..n]), limit - |busy|) == Take(Idle(busy, all), limit - |busy|)
  {
    var prefix, suffix := all[..n], all[n..];
    assert all == prefix + suffix;
    IdleAppend(busy, prefix, suffix);
    if n < |all| {
      FewAreBusy(busy, prefix);
    } else {
      assert prefix == all;
    }
  }

  // ----- Every listing is the beginning of a complete one -----

  ghost function Unlisted(rows: Table, keep: Row -> bool, ids: seq<string>): set<string> {
    set id | id in rows && keep(rows[id]) && id !in ids
  }

  lemma {:induction false} OldestExists(rows: Table, s: set<string>) returns (oldest: string)
    requires s != {} && s <= rows.Keys
    ensures oldest in s && forall id :: id in s ==> rows[oldest].createdAt <= rows[id].createdAt
    decreases s
  {
    var x :| x in s;
    oldest := x;
    assert forall id :: id in s ==> id == x || id in s - {x};
    if s - {x} != {} {
      var y := OldestExists(rows, s - {x});
      if rows[y].createdAt < rows[x].createdAt {
        oldest := y;
      }
    }
  }

  lemma CompleteIsListing(rows: Table, keep: Row -> bool, ids: seq<string>, limit: nat)
    requires IsListing(rows, keep, ids, limit) && Unlisted(rows, keep, ids) == {}
    ensures IsListing(rows, keep, ids, |ids|)
  {
    CompleteListing(rows, keep, ids);
  }

  lemma OneMore(rows: Table, keep: Row -> bool, ids: seq<string>, limit: nat) returns (next: string)
    requires IsListing(rows, keep, ids, limit) && Unlisted(rows, keep, ids) != {}
    ensures |ids| == limit && next in Unlisted(rows, keep, ids)
    ensures IsListing(rows, keep, ids + [next], limit + 1)
    ensures Unlisted(rows, keep, ids + [next]) == Unlisted(rows, keep, ids) - {next}
  {
    next := OldestExists(rows, Unlisted(rows, keep, ids));
  }

  lemma {:induction false} ListingExtends(rows: Table, keep: Row -> bool, ids: seq<string>, limit: nat)
      returns (all: seq<string>)
    requires IsListing(rows, keep, ids, limit)
    ensures IsListing(rows, keep, all, |all|) && Unlisted(rows, keep, all) == {}
    ensures ids <= all && (ids == all || |ids| == limit)
    decreases Unlisted(rows, keep, ids)
  {
    hide IsListing, Unlisted;
    if Unlisted(rows, keep, ids) == {} {
      all := ids;
      CompleteIsListing(rows, keep, ids, limit);
    } else {
      var next := OneMore(rows, keep, ids, limit);
      all := ListingExtends(rows, keep, ids + [next], limit + 1);
      assert all[..|ids|] == ids;
    }
  }

  function IsDue(now: Time): Row -> bool {
    DueIn({CompletedTorbox}, now)
  }

  /** All due rows there are, oldest first. */
  ghost predicate IsDueList(rows: Table, now: Time, all: seq<string>) {
    && IsListing(rows, IsDue(now), all, |all|)
    && forall id :: id in rows && rows[id].state == CompletedTorbox && Due(rows[id], now) ==> id in all
  }

  lemma CompleteIsDueList(rows: Table, now: Time, all: seq<string>)
    requires IsListing(rows, IsDue(now), all, |all|) && Unlisted(rows, IsDue(now), all) == {}
    ensures IsDueList(rows, now, all)
  {
    CompleteListing(rows, IsDue(now), all);
    hide IsListing, Unlisted;
    assert forall id :: id in rows && rows[id].state == CompletedTorbox && Due(rows[id], now) ==> IsDue(now)(rows[id]);
  }

  /**
    A listing of limit + busy due rows, or more, starves no free slot: the loop that works through it starts
    exactly the first (limit - busy) idle rows of all the due rows there are, oldest first.
   */
  lemma ListingFillsPool(rows: Table, busy: set<string>, ids: seq<string>, most: nat, limit: nat, now: Time)
      returns (all: seq<string>)
    requires IsListing(rows, IsDue(now), ids, most) && most >= limit + |busy| && |busy| <= limit
    ensures IsDueList(rows, now, all)
    ensures Busied(busy, ids, limit) == busy + Elements(Take(Idle(busy, all), limit - |busy|))
  {
    hide Idle, Take, Busied, Elements, IsDue, IsDueList;
    all := ListingExtends(rows, IsDue(now), ids, most);
    CompleteIsDueList(rows, now, all);
    assert ids == all[..|ids|];
    ListingIsDistinct(rows, IsDue(now), ids, most);
    ListingIsDistinct(rows, IsDue(now), all, |all|);
    hide IsListing, Distinct;
    BusiedIsFirstIdle(busy, ids, limit);
    PrefixSuffices(busy, all, |ids|, limit);
  }

  lemma ListingIsDistinct(rows: Table, keep: Row -> bool, ids: seq<string>, most: nat)
    requires IsListing(rows, keep, ids, most)
    ensures Distinct(ids)
  {
  }

  /** The same for Tick's loop, on a listing without leftovers of an earlier run. */
  lemma RefillIsFair(rows: Table, c: Config, p: PullerSpec.Puller, jobs: seq<Listed>, now: Time)
      returns (all: seq<string>)
    requires |p.inflight| <= c.limit
    requires IsListing(rows, IsDue(now), IdsOf(jobs), c.limit + |p.inflight|) && jobs == Snapshots(rows, IdsOf(jobs))
    ensures IsDueList(rows, now, all)
    ensures NothingPublished(rows) ==>
              FillAll(c, p, jobs).inflight.Keys ==
              p.inflight.Keys + Elements(Take(Idle(p.inflight.Keys, all), c.limit - |p.inflight|))
  {
    hide Idle, Take, FillAll, Busied, Elements, IsDueList;
    assert |p.inflight.Keys| == |p.inflight|;
    all := ListingFillsPool(rows, p.inflight.Keys, IdsOf(jobs), c.limit + |p.inflight|, c.limit, now);
    if NothingPublished(rows) {
      ListedAreUnpublished(rows, jobs, c.limit + |p.inflight|, now);
      FillBusies(c, p, jobs);
    }
  }

  lemma ListedAreUnpublished(rows: Table, jobs: seq<Listed>, most: nat, now: Time)
    requires IsListing(rows, IsDue(now), IdsOf(jobs), most) && jobs == Snapshots(rows, IdsOf(jobs)) &&
             NothingPublished(rows)
    ensures forall i :: 0 <= i < |jobs| ==> !HasLocalPath(jobs[i].row)
  {
    hide HasLocalPath;
    forall i | 0 <= i < |jobs|
      ensures !HasLocalPath(jobs[i].row)
    {
      assert IsDue(now)(rows[IdsOf(jobs)[i]]);
    }
  }

  lemma NoneConsidered(c: Config, p: PullerSpec.Puller, db: Db, now: Time)
    ensures FillAll(c, p, []) == p && PublishedAll(db, [], now) == db
  {
  }

  lemma FullPoolIsFair(rows: Table, busy: set<string>, now: Time) returns (all: seq<string>)
    ensures IsDueList(rows, now, all)
    ensures Elements(Take(Idle(busy, all), 0)) == {}
  {
    all := ListingExtends(rows, IsDue(now), [], 0);
    CompleteIsDueList(rows, now, all);
  }

  // ----- Waiting for an extraction: two steps of the state machine -----

  function Awaited(c: Config, p: PullerSpec.Puller, pid: nat, now: Time): PullerSpec.Puller
    requires Enabled(c, p, NoteArchives(pid))
  {
    var noted := AfterNote(p, pid, p.pulls[pid], now);
    AfterWrite(c, noted, pid, noted.pulls[pid], now)
  }

  function AwaitStmt(c: Config, p: PullerSpec.Puller, pid: nat, now: Time): Option<Stmt>
    requires Enabled(c, p, NoteArchives(pid))
  {
    var x := AfterNote(p, pid, p.pulls[pid], now).pulls[pid];
    PhaseStmt(c, x.id, x.row, x.phase, now)
  }

  /** Noting the sighting and then deciding on it, as steps of the state machine. */
  predicate IsTwoSteps(c: Config, p: PullerSpec.Puller, pid: nat, now: Time)
    requires Enabled(c, p, NoteArchives(pid))
  {
    var noted := PullStep(c, p, NoteArchives(pid), now);
    && Enabled(c, noted, Write(pid))
    && Awaited(c, p, pid, now) == PullStep(c, noted, Write(pid), now)
    && AwaitStmt(c, p, pid, now) == PullStmt(c, noted, Write(pid), now)
  }

  lemma AwaitingIsTwoSteps(c: Config, p: PullerSpec.Puller, pid: nat, now: Time)
    requires Enabled(c, p, NoteArchives(pid))
    ensures IsTwoSteps(c, p, pid, now)
  {
    hide AfterWrite, PhaseStmt, History;
  }

  lemma AwaitedIs(c: Config, p: PullerSpec.Puller, pid: nat, now: Time)
    requires Enabled(c, p, NoteArchives(pid))
    ensures var x := p.pulls[pid]; var since := if x.id in p.archives then p.archives[x.id] else now;
            var over := now - since >= c.archiveWait; var p' := Awaited(c, p, pid, now);
            && p'.pulls == p.pulls[pid := x.(phase := Leaving)]
            && p'.archives == (if over then p.archives[x.id := since] - {x.id} else p.archives[x.id := since])
            && p'.sightings == p.sightings[
                 x.id := History(p, x.id) + if over then [Archives(now), Reset] else [Archives(now)]]
            && p' == p.(pulls := p'.pulls, archives := p'.archives, sightings := p'.sightings)
            && AwaitStmt(c, p, pid, now) ==
               Some(if over then Transition(x.id, Ending(x.row.state, Failed, ARCHIVES_ONLY, now))
                    else Reschedule(x.id, ARCHIVES_ONLY, now + MINUTE))
  {
    hide Ending;
    var x := p.pulls[pid];
    assert History(p, x.id) + [Archives(now)] + [Reset] == History(p, x.id) + [Archives(now), Reset];
  }

  // ----- The pool -----

  class Puller {
    const store: Store.Store
    const config: Config
    var inflight: map<string, nat>
    /** Every pull started so far, with how far its goroutine has got. */
    var pulls: map<nat, Pull>
    var next: nat
    var waiting: map<nat, nat>
    var archivesSince: map<string, Time>
    ghost var sightings: map<string, seq<Sighting>>

    constructor (store: Store.Store, config: Config)
      ensures this.store == store && this.config == config && State() == IDLE_PULLER
    {
      this.store, this.config := store, config;
      inflight, pulls, next, waiting, archivesSince, sightings := map[], map[], 0, map[], map[], map[];
    }

    ghost function State(): PullerSpec.Puller
      reads this
    {
      PullerSpec.Puller(inflight, pulls, next, Resting, waiting, archivesSince, sightings)
    }

    /** One row of Tick's loop: publish what an earlier run left behind, else start a pull if there is room. */
    method Consider(j: Listed)
      modifies this, store
      ensures State() == Considered(config, old(State()), j, Resting)
      ensures store.now == old(store.now) && store.Contents() == Published(old(store.Contents()), j, store.now)
    {
      if HasLocalPath(j.row) {
        var _ := store.MarkLocalReady(j.id, j.row.localPath.value, j.row.bytesTotal);
        return;
      }
      if j.id in inflight || |inflight| >= config.limit {
        return;
      }
      inflight := inflight[j.id := next];
      pulls := pulls[next := Pull(j.id, j.row, Lookup, false, "", "")];
      next := next + 1;
    }

    method ConsiderAll(jobs: seq<Listed>)
      modifies this, store
      ensures State() == FillAll(config, old(State()), jobs)
      ensures store.now == old(store.now) && store.Contents() == PublishedAll(old(store.Contents()), jobs, store.now)
    {
      hide Considered, Published;
      for i := 0 to |jobs|
        invariant store.now == old(store.now)
        invariant FillAll(config, State(), jobs[i..]) == FillAll(config, old(State()), jobs)
        invariant PublishedAll(store.Contents(), jobs[i..], store.now) ==
                  PublishedAll(old(store.Contents()), jobs, store.now)
      {
        assert jobs[i..][0] == jobs[i] && jobs[i..][1..] == jobs[i + 1..];
        Consider(jobs[i]);
      }
      assert jobs[|jobs|..] == [];
    }

    /**
      Tops the pool up. While no pull finishes, and no COMPLETED_TORBOX row has a local path, the pool
      afterwards holds what it held plus exactly the first (limit - busy) idle due jobs, oldest first,
      of all the due jobs there are.
     */
    method Tick() returns (jobs: seq<Listed>, ghost all: seq<string>)
      requires |inflight| <= config.limit
      modifies this, store
      ensures store.now == old(store.now) && store.Contents() == PublishedAll(old(store.Contents()), jobs, store.now)
      ensures State() == FillAll(config, old(State()), jobs)
      ensures IsDueList(old(store.rows), store.now, all)
      ensures NothingPublished(old(store.rows)) ==>
                && inflight.Keys == old(inflight).Keys +
                     Elements(Take(Idle(old(inflight).Keys, all), config.limit - |old(inflight)|))
                && store.Contents() == old(store.Contents())
      ensures forall id :: id in old(inflight) ==> id in inflight && inflight[id] == old(inflight)[id]
    {
      hide IsListing, Idle, Take, Due, IdsOf, Elements, FillAll, PublishedAll, NothingPublished, IsDueList;
      var busy := |inflight|;
      assert |inflight.Keys| == busy;
      jobs := [];
      if busy >= config.limit {
        all := FullPoolIsFair(store.rows, inflight.Keys, store.now);
        NoneConsidered(config, State(), store.Contents(), store.now);
        return;
      }
      jobs := store.ListDueByStates({CompletedTorbox}, config.limit + busy);
      all := RefillIsFair(store.rows, config, State(), jobs, store.now);
      FillKeeps(config, State(), jobs);
      ListedMayPublish(store.Contents(), jobs, config.limit + busy, store.now);
      ConsiderAll(jobs);
    }

    /** The last act of a pull's goroutine: delete the entry of its job, then close `done`. */
    method Finish(nzoID: string, pid: nat)
      requires pid in pulls && pulls[pid].id == nzoID && pulls[pid].phase.Leaving?
      modifies this
      ensures var c, p := config, old(State());
              && Enabled(c, p, Forget(pid)) && Enabled(c, PullStep(c, p, Forget(pid), 0), CloseDone(pid))
              && State() == PullStep(c, PullStep(c, p, Forget(pid), 0), CloseDone(pid), 0)
    {
      inflight := inflight - {nzoID};
      pulls := pulls[pid := pulls[pid].(phase := Forgotten)];
      assert State() == PullStep(config, old(State()), Forget(pid), 0);
      pulls := pulls[pid := pulls[pid].(phase := Exited)];
    }

    /** The first half of Abort: flag the running pull, if any, and remember which to wait for. */
    method BeginAbort(caller: nat, nzoID: string) returns (found: bool)
      requires caller !in waiting
      modifies this
      ensures State() == PullStep(config, old(State()), AbortBegin(caller, nzoID), 0)
      ensures found <==> caller in waiting
    {
      found := nzoID in inflight && inflight[nzoID] in pulls;
      if found {
        var pid := inflight[nzoID];
        pulls := pulls[pid := pulls[pid].(aborted := true)];
        waiting := waiting[caller := pid];
      }
    }

    /** The flag as a checkpoint reads it. */
    method IsAborted(nzoID: string) returns (r: bool)
      ensures r == Aborted(State(), nzoID)
    {
      r := nzoID in inflight && inflight[nzoID] in pulls && pulls[inflight[nzoID]].aborted;
    }

    method RecordDir(nzoID: string, dir: string)
      modifies this
      ensures State() == SetDir(old(State()), nzoID, dir)
    {
      if nzoID in inflight && inflight[nzoID] in pulls {
        var pid := inflight[nzoID];
        pulls := pulls[pid := pulls[pid].(dir := dir)];
      }
    }

    /** Records a failed attempt, or fails the job once the budget is spent. */
    method ScheduleRetry(j: Listed, reason: string)
      modifies store
      ensures store.now == old(store.now)
      ensures store.Contents() ==
              Exec(old(store.Contents()), RetryStmt(config, j.id, j.row, reason, store.now), store.now)
    {
      if j.row.attempts + 1 >= config.maxRetries {
        var _ := store.Transition(j.id, Ending(j.row.state, Failed, "puller exhausted: " + reason, store.now));
        return;
      }
      store.AttemptFailure(j.id, reason, store.now + RETRY_BACKOFF);
    }

    /** A pull that saw archives only: wait on, or fail the job once the wait is over. */
    method AwaitExtraction(pid: nat)
      requires pid in pulls && pulls[pid].phase.Await?
      modifies this, store
      ensures store.now == old(store.now)
      ensures State() == Awaited(config, old(State()), pid, store.now)
      ensures IsTwoSteps(config, old(State()), pid, store.now)
      ensures AwaitStmt(config, old(State()), pid, store.now).Some?
      ensures store.Contents() ==
              Exec(old(store.Contents()), AwaitStmt(config, old(State()), pid, store.now).value, store.now)
    {
      hide Exec, Ending, Awaited, AwaitStmt, History, IsTwoSteps;
      var id, row, now := pulls[pid].id, pulls[pid].row, store.now;
      AwaitedIs(config, State(), pid, now);
      AwaitingIsTwoSteps(config, State(), pid, now);
      var since := now;
      if id in archivesSince {
        since := archivesSince[id];
      } else {
        archivesSince := archivesSince[id := now];
      }
      assert archivesSince == old(archivesSince)[id := since];
      ghost var seen := History(old(State()), id);
      assert State().sightings == old(State()).sightings;
      if now - since < config.archiveWait {
        sightings := sightings[id := seen + [Archives(now)]];
        store.Reschedule(id, ARCHIVES_ONLY, now + MINUTE);
      } else {
        archivesSince := archivesSince - {id};
        sightings := sightings[id := seen + [Archives(now), Reset]];
        var _ := store.Transition(id, Ending(row.state, Failed, ARCHIVES_ONLY, now));
      }
      pulls := pulls[pid := pulls[pid].(phase := Leaving)];
    }
  }

  lemma CompleteListing(rows: Table, keep: Row -> bool, all: seq<string>)
    ensures Unlisted(rows, keep, all) == {} ==> forall id :: id in rows && keep(rows[id]) ==> id in all
  {
    forall id | id in rows && keep(rows[id]) && Unlisted(rows, keep, all) == {}
      ensures id in all
    {
      assert id !in Unlisted(rows, keep, all);
    }
  }
}
