/** What holds of the puller in every interleaving of ticks, pulls, aborts and restarts. */
module PullerSafety {
  import opened Options
  import opened Jobs
  import opened StoreSpec
  import opened PollerSpec
  import opened PullerSpec

  // ----- The archive wait as the sightings define it -----

  /** When the current unbroken run of archives-only sightings began. */
  function TrailingSince(h: seq<Sighting>): Option<Time> {
    if h == [] || !h[|h| - 1].Archives? then None else
    match TrailingSince(h[..|h| - 1])
    case Some(t) => Some(t)
    case None => Some(h[|h| - 1].at)
  }

  /** `k` is the first sighting of the unbroken archives-only run that ends the history. */
  ghost predicate RunStartsAt(h: seq<Sighting>, k: nat, t: Time) {
    && k < |h| && h[k] == Archives(t)
    && (forall m :: k <= m < |h| ==> h[m].Archives?)
    && (k > 0 ==> !h[k - 1].Archives?)
  }

  lemma {:induction false} TrailingRunStarts(h: seq<Sighting>) returns (k: nat)
    requires TrailingSince(h).Some?
    ensures RunStartsAt(h, k, TrailingSince(h).value)
  {
    var front := h[..|h| - 1];
    if TrailingSince(front).Some? {
      k := TrailingRunStarts(front);
    } else {
      k := |h| - 1;
    }
  }

  lemma {:induction false} RunIsTrailing(h: seq<Sighting>, k: nat, t: Time)
    requires RunStartsAt(h, k, t)
    ensures TrailingSince(h) == Some(t)
  {
    if k < |h| - 1 {
      assert h[..|h| - 1][k] == h[k];
      RunIsTrailing(h[..|h| - 1], k, t);
    }
  }

  // ----- The invariant -----

  type Pulls = map<nat, Pull>
  type Sightings = map<string, seq<Sighting>>

  ghost predicate Entries(inflight: map<string, nat>, pulls: Pulls) {
    forall id :: id in inflight ==>
      inflight[id] in pulls && pulls[inflight[id]].id == id && pulls[inflight[id]].phase.Held()
  }

  ghost predicate Owned(inflight: map<string, nat>, pulls: Pulls) {
    forall pid :: pid in pulls && pulls[pid].phase.Held() ==>
      pulls[pid].id in inflight && inflight[pulls[pid].id] == pid
  }

  ghost predicate Numbered(pulls: Pulls, next: nat) {
    forall pid :: pid in pulls ==> pid < next
  }

  ghost predicate Awaited(waiting: map<nat, nat>, pulls: Pulls) {
    forall caller :: caller in waiting ==> waiting[caller] in pulls && pulls[waiting[caller]].aborted
  }

  predicate PullOk(c: Config, x: Pull) {
    x.dir == x.target && (x.phase.Download? ==> x.phase.running <= c.concurrency)
  }

  ghost predicate PullsOk(c: Config, pulls: Pulls) {
    forall pid :: pid in pulls ==> PullOk(c, pulls[pid])
  }

  ghost predicate Sound(c: Config, p: Puller) {
    && Entries(p.inflight, p.pulls) && Owned(p.inflight, p.pulls)
    && Numbered(p.pulls, p.next) && Awaited(p.waiting, p.pulls) && PullsOk(c, p.pulls)
    && |p.inflight| <= c.limit
  }

  function Since(sightings: Sightings, id: string): Option<Time> {
    if id in sightings then TrailingSince(sightings[id]) else None
  }

  /** `archives` holds exactly the starts of the current archives-only runs. */
  ghost predicate Settled(archives: map<string, Time>, sightings: Sightings) {
    forall id :: (if id in archives then Some(archives[id]) else None) == Since(sightings, id)
  }

  /** A pull about to decide has read the start of its job's run. */
  ghost predicate Informed(pulls: Pulls, sightings: Sightings) {
    forall pid :: pid in pulls && pulls[pid].phase.Decide? ==>
      Since(sightings, pulls[pid].id) == Some(pulls[pid].phase.since)
  }

  ghost predicate Remembered(p: Puller) {
    Settled(p.archives, p.sightings) && Informed(p.pulls, p.sightings)
  }

  /** A pull that keeps its entry may change anything but its job and its abort flag. */
  lemma MovedStaysSound(c: Config, p: Puller, pid: nat, x: Pull)
    requires Sound(c, p) && pid in p.pulls && p.pulls[pid].phase.Held() && x.phase.Held()
    requires x.id == p.pulls[pid].id && x.aborted == p.pulls[pid].aborted && PullOk(c, x)
    ensures Sound(c, Moved(p, pid, x))
  {
  }

  lemma SetDirIsOwn(c: Config, p: Puller, pid: nat, x: Pull, dir: string)
    requires Owned(p.inflight, p.pulls) && pid in p.pulls && p.pulls[pid].phase.Held()
    requires x.id == p.pulls[pid].id
    ensures SetDir(Moved(p, pid, x), x.id, dir) == Moved(p, pid, x.(dir := dir))
  {
    var q := Moved(p, pid, x);
    assert q.pulls[pid := x.(dir := dir)] == p.pulls[pid := x.(dir := dir)];
  }

  lemma ForgottenIsUnentered(inflight: map<string, nat>, pulls: Pulls, pid: nat, x: Pull)
    requires Entries(inflight, pulls) && Owned(inflight, pulls)
    requires pid in pulls && pulls[pid].phase.Held() && x.phase.Forgotten?
    ensures Entries(inflight - {pulls[pid].id}, pulls[pid := x])
    ensures Owned(inflight - {pulls[pid].id}, pulls[pid := x])
  {
  }

  lemma ForgottenStaysSound(c: Config, p: Puller, pid: nat)
    requires Sound(c, p) && pid in p.pulls && p.pulls[pid].phase.Leaving?
    ensures Sound(c, Moved(p.(inflight := p.inflight - {p.pulls[pid].id}), pid, p.pulls[pid].(phase := Forgotten)))
  {
    var x := p.pulls[pid].(phase := Forgotten);
    ForgottenIsUnentered(p.inflight, p.pulls, pid, x);
    RemovalShrinks(p.inflight, x.id);
    hide Entries, Owned;
    assert PullOk(c, p.pulls[pid]);
    assert PullsOk(c, p.pulls[pid := x]);
  }

  lemma RemovalShrinks(m: map<string, nat>, id: string)
    ensures |m - {id}| <= |m|
  {
    assert (m - {id}).Keys == m.Keys - {id};
    assert |(m - {id}).Keys| == |m - {id}| && |m.Keys| == |m|;
  }

  lemma InsertionGrows(m: map<string, nat>, id: string, pid: nat)
    ensures |m[id := pid]| <= |m| + 1
  {
    assert m[id := pid].Keys == m.Keys + {id};
    assert |m[id := pid].Keys| == |m[id := pid]| && |m.Keys| == |m|;
  }

  lemma ClosedStaysSound(c: Config, p: Puller, pid: nat)
    requires Sound(c, p) && pid in p.pulls && p.pulls[pid].phase.Forgotten?
    ensures Sound(c, Moved(p, pid, p.pulls[pid].(phase := Exited)))
  {
  }

  lemma StartedIsEntered(inflight: map<string, nat>, pulls: Pulls, next: nat, x: Pull)
    requires Entries(inflight, pulls) && Owned(inflight, pulls) && Numbered(pulls, next)
    requires x.id !in inflight && x.phase.Lookup?
    ensures Entries(inflight[x.id := next], pulls[next := x]) && Owned(inflight[x.id := next], pulls[next := x])
  {
  }

  lemma StartedStaysSound(c: Config, p: Puller, x: Pull, tick: Tick)
    requires Sound(c, p) && x.id !in p.inflight && |p.inflight| < c.limit
    requires x.phase.Lookup? && x.dir == x.target
    ensures Sound(c, p.(tick := tick, inflight := p.inflight[x.id := p.next], pulls := p.pulls[p.next := x],
                        next := p.next + 1))
  {
    StartedIsEntered(p.inflight, p.pulls, p.next, x);
    InsertionGrows(p.inflight, x.id, p.next);
    assert PullOk(c, x);
    hide Entries, Owned, PullOk;
  }

  lemma ConsideredStaysSound(c: Config, p: Puller, e: Listed, tick: Tick)
    requires Sound(c, p)
    ensures Sound(c, Considered(c, p, e, tick))
  {
    hide HasLocalPath, Entries, Owned, Numbered, Awaited, PullsOk;
    if !HasLocalPath(e.row) && e.id !in p.inflight && |p.inflight| < c.limit {
      StartedStaysSound(c, p, Pull(e.id, e.row, Lookup, false, "", ""), tick);
    }
  }

  lemma AbortStaysSound(c: Config, p: Puller, caller: nat, id: string)
    requires Sound(c, p)
    ensures Sound(c, AbortBegun(p, caller, id))
  {
  }

  lemma BuildStaysSound(c: Config, p: Puller, pid: nat, built: Built)
    requires Sound(c, p) && pid in p.pulls && p.pulls[pid].phase.Build?
    ensures Sound(c, AfterBuild(p, pid, p.pulls[pid], built))
  {
    var x := p.pulls[pid];
    match built
    case ArchivesOnly => MovedStaysSound(c, p, pid, x.(phase := Await));
    case BuildFailed(reason) => MovedStaysSound(c, p, pid, x.(phase := Retry("build file list: " + reason)));
    case Files(dir) =>
      MovedStaysSound(c, p, pid, x.(phase := Download(0), target := dir, dir := dir));
      BuildRecordsItsDir(c, p, pid, dir);
  }

  lemma BuildRecordsItsDir(c: Config, p: Puller, pid: nat, dir: string)
    requires Sound(c, p) && pid in p.pulls && p.pulls[pid].phase.Build?
    ensures var x := p.pulls[pid].(phase := Download(0), target := dir, dir := dir);
            AfterBuild(p, pid, p.pulls[pid], Files(dir)) == Seen(p, pid, x, p.archives - {x.id}, Other)
  {
    var x := p.pulls[pid].(phase := Download(0), target := dir);
    SetDirIsOwn(c, p, pid, x, dir);
    assert SetDir(Seen(p, pid, x, p.archives - {x.id}, Other), x.id, dir).pulls ==
           SetDir(Moved(p, pid, x), x.id, dir).pulls;
  }

  lemma CheckpointStaysSound(c: Config, p: Puller, pid: nat, phase: Phase)
    requires Sound(c, p) && pid in p.pulls && p.pulls[pid].phase.Held() && phase.Held()
    requires phase.Download? ==> phase.running <= c.concurrency
    ensures Sound(c, Moved(p, pid, p.pulls[pid].(phase := phase)))
  {
    MovedStaysSound(c, p, pid, p.pulls[pid].(phase := phase));
  }

  lemma NoteStaysSound(c: Config, p: Puller, pid: nat, now: Time)
    requires Sound(c, p) && pid in p.pulls && p.pulls[pid].phase.Await?
    ensures Sound(c, AfterNote(p, pid, p.pulls[pid], now))
  {
    CheckpointStaysSound(c, p, pid, Decide(if p.pulls[pid].id in p.archives then p.archives[p.pulls[pid].id] else now));
  }

  lemma WriteStaysSound(c: Config, p: Puller, pid: nat, now: Time)
    requires Sound(c, p) && pid in p.pulls && p.pulls[pid].phase.Writing()
    ensures Sound(c, AfterWrite(c, p, pid, p.pulls[pid], now))
  {
    CheckpointStaysSound(c, p, pid, Leaving);
  }

  lemma SoundStays(c: Config, p: Puller, a: Action, now: Time)
    requires c.Valid() && Sound(c, p) && Enabled(c, p, a)
    ensures Sound(c, PullStep(c, p, a, now))
  {
    hide Moved, Considered, AfterBuild, AfterNote, AfterWrite, AbortBegun, Aborted, AfterFind, AfterRun,
         Entries, Owned, Numbered, Awaited, PullsOk, Filled;
    match a
    case Count => assert Sound(c, PullStep(c, p, a, now));
    case List(jobs) => assert Sound(c, PullStep(c, p, a, now));
    case Consider => ConsideredStaysSound(c, p, p.tick.todo[0], Filled(p.tick.todo[1..]));
    case FindDone(pid, found) =>
      CheckpointStaysSound(c, p, pid, Leaving);
      AfterFindIsHeld(found);
      CheckpointStaysSound(c, p, pid, AfterFind(found));
    case BuildDone(pid, built) =>
      CheckpointStaysSound(c, p, pid, Leaving);
      BuildStaysSound(c, p, pid, built);
    case FileBegin(pid) => CheckpointStaysSound(c, p, pid, Download(p.pulls[pid].phase.running + 1));
    case FileEnd(pid) => FileEndStaysSound(c, p, pid);
    case DownloadDone(pid, ran) =>
      CheckpointStaysSound(c, p, pid, Leaving);
      AfterRunIsHeld(ran);
      CheckpointStaysSound(c, p, pid, AfterRun(ran));
    case NoteArchives(pid) => NoteStaysSound(c, p, pid, now);
    case Write(pid) => WriteStaysSound(c, p, pid, now);
    case Forget(pid) => ForgottenStaysSound(c, p, pid);
    case CloseDone(pid) => ClosedStaysSound(c, p, pid);
    case AbortBegin(caller, id) => AbortStaysSound(c, p, caller, id);
    case AbortReturn(caller, _) => ReturnStaysSound(c, p, caller);
    case Restart => RestartIsSound(c, p);
  }

  lemma ReturnStaysSound(c: Config, p: Puller, caller: nat)
    requires Sound(c, p)
    ensures Sound(c, p.(waiting := p.waiting - {caller}))
  {
  }

  lemma RestartIsSound(c: Config, p: Puller)
    ensures Sound(c, Restarted(p))
  {
  }

  lemma AfterFindIsHeld(found: Found)
    ensures AfterFind(found).Held() && !AfterFind(found).Download? && !AfterFind(found).Decide?
  {
  }

  lemma AfterRunIsHeld(ran: Ran)
    ensures AfterRun(ran).Held() && !AfterRun(ran).Download? && !AfterRun(ran).Decide?
  {
  }

  lemma FileEndStaysSound(c: Config, p: Puller, pid: nat)
    requires Sound(c, p) && Enabled(c, p, FileEnd(pid))
    ensures Sound(c, Moved(p, pid, p.pulls[pid].(phase := Download(p.pulls[pid].phase.running - 1))))
  {
    assert PullOk(c, p.pulls[pid]);
    CheckpointStaysSound(c, p, pid, Download(p.pulls[pid].phase.running - 1));
  }

  // ----- Memory -----

  lemma AppendSighting(h: seq<Sighting>, s: Sighting)
    ensures TrailingSince(h + [s]) ==
            if !s.Archives? then None
            else if TrailingSince(h).Some? then TrailingSince(h)
            else Some(s.at)
  {
    assert (h + [s])[..|h|] == h;
  }

  /** A pull that does not enter the deciding phase leaves what is remembered alone. */
  lemma MovedKeepsMemory(p: Puller, pid: nat, x: Pull)
    requires Remembered(p) && !x.phase.Decide?
    ensures Remembered(Moved(p, pid, x))
  {
    hide TrailingSince, Since;
  }

  lemma SightingSettles(p: Puller, id: string, archives: map<string, Time>, s: Sighting)
    requires Settled(p.archives, p.sightings)
    requires archives == match s
                         case Archives(at) => (if id in p.archives then p.archives else p.archives[id := at])
                         case _ => p.archives - {id}
    ensures Settled(archives, p.sightings[id := History(p, id) + [s]])
  {
    var sightings := p.sightings[id := History(p, id) + [s]];
    AppendSighting(History(p, id), s);
    assert Since(p.sightings, id) == TrailingSince(History(p, id));
    forall j
      ensures (if j in archives then Some(archives[j]) else None) == Since(sightings, j)
    {
      hide TrailingSince;
      assert (if j in p.archives then Some(p.archives[j]) else None) == Since(p.sightings, j);
    }
  }

  /** Only the pull that owns a job can be deciding about it. */
  lemma SightingInforms(p: Puller, pid: nat, x: Pull, s: Sighting)
    requires Informed(p.pulls, p.sightings) && Owned(p.inflight, p.pulls)
    requires pid in p.pulls && p.pulls[pid].phase.Held() && x.id == p.pulls[pid].id
    requires x.phase.Decide? ==> TrailingSince(History(p, x.id) + [s]) == Some(x.phase.since)
    ensures Informed(p.pulls[pid := x], p.sightings[x.id := History(p, x.id) + [s]])
  {
    hide TrailingSince;
    var pulls := p.pulls[pid := x];
    var sightings := p.sightings[x.id := History(p, x.id) + [s]];
    forall q | q in pulls && pulls[q].phase.Decide?
      ensures Since(sightings, pulls[q].id) == Some(pulls[q].phase.since)
    {
      if q != pid {
        assert p.inflight[p.pulls[q].id] == q;
      }
    }
  }

  lemma SeenKeepsMemory(c: Config, p: Puller, pid: nat, x: Pull, archives: map<string, Time>, s: Sighting)
    requires Remembered(p) && Sound(c, p)
    requires pid in p.pulls && p.pulls[pid].phase.Held() && x.id == p.pulls[pid].id && !x.phase.Decide?
    requires !s.Archives? && archives == p.archives - {x.id}
    ensures Remembered(Seen(p, pid, x, archives, s))
  {
    SightingSettles(p, x.id, archives, s);
    SightingInforms(p, pid, x, s);
  }

  lemma NoteKeepsMemory(c: Config, p: Puller, pid: nat, now: Time)
    requires Remembered(p) && Sound(c, p) && pid in p.pulls && p.pulls[pid].phase.Await?
    ensures Remembered(AfterNote(p, pid, p.pulls[pid], now))
  {
    var x := p.pulls[pid];
    var since := if x.id in p.archives then p.archives[x.id] else now;
    AppendSighting(History(p, x.id), Archives(now));
    assert (if x.id in p.archives then Some(p.archives[x.id]) else None) == Since(p.sightings, x.id);
    assert p.archives[x.id := since] == if x.id in p.archives then p.archives else p.archives[x.id := now];
    SightingSettles(p, x.id, p.archives[x.id := since], Archives(now));
    SightingInforms(p, pid, x.(phase := Decide(since)), Archives(now));
  }

  lemma BuildKeepsMemory(c: Config, p: Puller, pid: nat, built: Built)
    requires Remembered(p) && Sound(c, p) && pid in p.pulls && p.pulls[pid].phase.Build?
    ensures Remembered(AfterBuild(p, pid, p.pulls[pid], built))
  {
    hide TrailingSince, Remembered, Sound;
    var x := p.pulls[pid];
    match built
    case ArchivesOnly => MovedKeepsMemory(p, pid, x.(phase := Await));
    case BuildFailed(reason) =>
      SeenKeepsMemory(c, p, pid, x.(phase := Retry("build file list: " + reason)), p.archives - {x.id}, Other);
    case Files(dir) =>
      BuildRecordsItsDir(c, p, pid, dir);
      SeenKeepsMemory(c, p, pid, x.(phase := Download(0), target := dir, dir := dir), p.archives - {x.id}, Other);
  }

  lemma WriteKeepsMemory(c: Config, p: Puller, pid: nat, now: Time)
    requires Remembered(p) && Sound(c, p) && pid in p.pulls && p.pulls[pid].phase.Writing()
    ensures Remembered(AfterWrite(c, p, pid, p.pulls[pid], now))
  {
    hide TrailingSince, Remembered, Sound;
    var x := p.pulls[pid].(phase := Leaving);
    SeenKeepsMemory(c, p, pid, x, p.archives - {x.id}, Reset);
    MovedKeepsMemory(p, pid, x);
  }

  lemma ConsideredKeepsMemory(c: Config, p: Puller, e: Listed, tick: Tick)
    requires Remembered(p)
    ensures Remembered(Considered(c, p, e, tick))
  {
    hide TrailingSince, Since;
  }

  lemma AbortKeepsMemory(p: Puller, caller: nat, id: string)
    requires Remembered(p)
    ensures Remembered(AbortBegun(p, caller, id))
  {
    hide TrailingSince, Since;
  }

  lemma RestartKeepsMemory(p: Puller)
    ensures Remembered(Restarted(p))
  {
    var q := Restarted(p);
    forall id
      ensures Since(q.sightings, id) == None
    {
      if id in p.sightings {
        AppendSighting(p.sightings[id], Reset);
      }
    }
  }

  lemma MemoryStays(c: Config, p: Puller, a: Action, now: Time)
    requires c.Valid() && Sound(c, p) && Remembered(p) && Enabled(c, p, a)
    ensures Remembered(PullStep(c, p, a, now))
  {
    hide TrailingSince, Since, Sound, Considered, AfterBuild, AfterNote, AfterWrite, AbortBegun, Restarted,
         Aborted, AfterFind, AfterRun;
    match a
    case Count => assert Remembered(PullStep(c, p, a, now));
    case List(jobs) => assert Remembered(PullStep(c, p, a, now));
    case Consider => ConsideredKeepsMemory(c, p, p.tick.todo[0], Filled(p.tick.todo[1..]));
    case FindDone(pid, found) =>
      AfterFindIsHeld(found);
      var phase := if Aborted(p, p.pulls[pid].id) then Leaving else AfterFind(found);
      MovedKeepsMemory(p, pid, p.pulls[pid].(phase := phase));
    case BuildDone(pid, built) =>
      MovedKeepsMemory(p, pid, p.pulls[pid].(phase := Leaving));
      BuildKeepsMemory(c, p, pid, built);
    case FileBegin(pid) => MovedKeepsMemory(p, pid, p.pulls[pid].(phase := Download(p.pulls[pid].phase.running + 1)));
    case FileEnd(pid) => MovedKeepsMemory(p, pid, p.pulls[pid].(phase := Download(p.pulls[pid].phase.running - 1)));
    case DownloadDone(pid, ran) =>
      AfterRunIsHeld(ran);
      MovedKeepsMemory(p, pid, p.pulls[pid].(phase := if Aborted(p, p.pulls[pid].id) then Leaving else AfterRun(ran)));
    case NoteArchives(pid) => NoteKeepsMemory(c, p, pid, now);
    case Write(pid) => WriteKeepsMemory(c, p, pid, now);
    case Forget(pid) =>
      MovedKeepsMemory(p.(inflight := p.inflight - {p.pulls[pid].id}), pid, p.pulls[pid].(phase := Forgotten));
    case CloseDone(pid) => MovedKeepsMemory(p, pid, p.pulls[pid].(phase := Exited));
    case AbortBegin(caller, id) => AbortKeepsMemory(p, caller, id);
    case AbortReturn(_, _) => assert Remembered(PullStep(c, p, a, now));
    case Restart => RestartKeepsMemory(p);
  }

  // ----- Runs -----

  ghost predicate IsRun(c: Config, ps: seq<Puller>, actions: seq<Action>, times: seq<Time>) {
    && |ps| == |actions| + 1 && |times| == |actions|
    && ps[0] == IDLE_PULLER
    && forall i :: 0 <= i < |actions| ==> Step(c, ps[i], actions[i], times[i], ps[i + 1])
  }

  ghost predicate Step(c: Config, p: Puller, a: Action, now: Time, p': Puller) {
    Enabled(c, p, a) && p' == PullStep(c, p, a, now)
  }

  lemma StepStays(c: Config, p: Puller, a: Action, now: Time, p': Puller)
    requires c.Valid() && Sound(c, p) && Remembered(p) && Step(c, p, a, now, p')
    ensures Sound(c, p') && Remembered(p')
  {
    SoundStays(c, p, a, now);
    MemoryStays(c, p, a, now);
  }

  lemma IdleIsSound(c: Config)
    ensures Sound(c, IDLE_PULLER) && Remembered(IDLE_PULLER)
  {
  }

  lemma {:induction false} ReachableIsSound(c: Config, ps: seq<Puller>, actions: seq<Action>, times: seq<Time>, n: nat)
    requires c.Valid() && IsRun(c, ps, actions, times) && n < |ps|
    ensures Sound(c, ps[n]) && Remembered(ps[n])
  {
    hide PullStep, Enabled, Sound, Remembered;
    if n == 0 {
      IdleIsSound(c);
    } else {
      ReachableIsSound(c, ps, actions, times, n - 1);
      assert Step(c, ps[n - 1], actions[n - 1], times[n - 1], ps[n]);
      StepStays(c, ps[n - 1], actions[n - 1], times[n - 1], ps[n]);
    }
  }

  ghost function Executing(p: Puller): set<nat> {
    set pid | pid in p.pulls && p.pulls[pid].phase.Held()
  }

  lemma {:induction false} InjectiveMapSize<K, V>(m: map<K, V>)
    requires forall a, b :: a in m && b in m && m[a] == m[b] ==> a == b
    ensures |m.Values| == |m|
  {
    if m != map[] {
      var k :| k in m;
      var m' := m - {k};
      assert m'.Keys == m.Keys - {k};
      assert forall j :: j in m' <==> j in m && j != k;
      forall v | v in m.Values
        ensures v in m'.Values + {m[k]}
      {
        var j :| j in m && m[j] == v;
        if j != k { assert j in m' && m'[j] == v; }
      }
      assert m.Values == m'.Values + {m[k]};
      InjectiveMapSize(m');
      assert |m.Keys| == |m| && |m'.Keys| == |m'|;
    }
  }

  /**
    Exclusion and capacity, in every reachable state and so also between a Tick's listing and its
    starts: the pulls executing are exactly the in-flight entries, at most one per job, at most
    `limit` in all.
   */
  lemma ExclusionAndCapacity(c: Config, ps: seq<Puller>, actions: seq<Action>, times: seq<Time>, n: nat)
    requires c.Valid() && IsRun(c, ps, actions, times) && n < |ps|
    ensures var p := ps[n];
            && Executing(p) == p.inflight.Values
            && |Executing(p)| == |p.inflight| <= c.limit
            && (forall x, y :: x in Executing(p) && y in Executing(p) && p.pulls[x].id == p.pulls[y].id ==> x == y)
  {
    ReachableIsSound(c, ps, actions, times, n);
    var p := ps[n];
    forall pid | pid in Executing(p)
      ensures pid in p.inflight.Values
    {
      assert p.inflight[p.pulls[pid].id] == pid;
    }
    InjectiveMapSize(p.inflight);
  }

  /** The pull whose own code a step runs. */
  function Actor(a: Action): Option<nat> {
    match a
    case FindDone(pid, _) => Some(pid)
    case BuildDone(pid, _) => Some(pid)
    case FileBegin(pid) => Some(pid)
    case FileEnd(pid) => Some(pid)
    case DownloadDone(pid, _) => Some(pid)
    case NoteArchives(pid) => Some(pid)
    case Write(pid) => Some(pid)
    case Forget(pid) => Some(pid)
    case CloseDone(pid) => Some(pid)
    case _ => None
  }

  /** An aborted pull that has not yet passed the checkpoint of its phase can only leave. */
  ghost predicate Silenced(p: Puller, pid: nat) {
    pid < p.next && (pid in p.pulls ==>
      p.pulls[pid].aborted &&
      (p.pulls[pid].phase.Checked() || p.pulls[pid].phase.Leaving? || !p.pulls[pid].phase.Held()))
  }

  ghost predicate Gone(p: Puller, pid: nat) {
    pid < p.next && (pid in p.pulls ==> p.pulls[pid].phase.Exited?)
  }

  /** To pull `pid` nothing happened but, possibly, an abort. */
  ghost predicate LeftAlone(p: Puller, p': Puller, pid: nat) {
    pid < p'.next &&
    (pid in p'.pulls ==>
       && pid in p.pulls && p'.pulls[pid].phase == p.pulls[pid].phase
       && (p.pulls[pid].aborted ==> p'.pulls[pid].aborted))
  }

  lemma BuildLeavesOthers(c: Config, p: Puller, x: nat, built: Built, pid: nat)
    requires Sound(c, p) && pid < p.next && pid != x && x in p.pulls && p.pulls[x].phase.Build?
    ensures LeftAlone(p, AfterBuild(p, x, p.pulls[x], built), pid)
  {
    if built.Files? {
      BuildRecordsItsDir(c, p, x, built.dir);
    }
    hide Sound, SetDir, History;
  }

  lemma TickLeavesOthers(c: Config, p: Puller, e: Listed, tick: Tick, pid: nat)
    requires pid < p.next
    ensures LeftAlone(p, Considered(c, p, e, tick), pid)
  {
  }

  lemma AbortLeavesOthers(p: Puller, caller: nat, id: string, pid: nat)
    requires pid < p.next
    ensures LeftAlone(p, AbortBegun(p, caller, id), pid)
  {
  }

  /** A step runs one pull's code; to any other pull it can at most set the abort flag. */
  lemma OtherPullsStay(c: Config, p: Puller, a: Action, now: Time, pid: nat)
    requires Sound(c, p) && Enabled(c, p, a) && pid < p.next && Actor(a) != Some(pid)
    ensures LeftAlone(p, PullStep(c, p, a, now), pid)
  {
    hide Sound, Considered, AbortBegun, AfterBuild, History, Aborted, AfterFind, AfterRun, HasLocalPath, GivesUp,
         Filled;
    match a
    case Consider => TickLeavesOthers(c, p, p.tick.todo[0], Filled(p.tick.todo[1..]), pid);
    case AbortBegin(caller, id) => AbortLeavesOthers(p, caller, id, pid);
    case BuildDone(x, built) => BuildLeavesOthers(c, p, x, built, pid);
    case _ =>
  }

  lemma ExitIsFinal(c: Config, p: Puller, a: Action, now: Time, p': Puller, pid: nat)
    requires Sound(c, p) && Step(c, p, a, now, p') && Gone(p, pid)
    ensures Actor(a) != Some(pid) && Gone(p', pid)
  {
    assert Actor(a) != Some(pid);
    OtherPullsStay(c, p, a, now, pid);
    hide PullStep, Enabled, Sound;
  }

  lemma OwnStepStaysSilent(c: Config, p: Puller, a: Action, now: Time, pid: nat)
    requires Sound(c, p) && Enabled(c, p, a) && Silenced(p, pid) && Actor(a) == Some(pid)
    ensures !a.NoteArchives? && !a.Write?
    ensures Silenced(PullStep(c, p, a, now), pid)
  {
    if p.pulls[pid].phase.Held() {
      assert Aborted(p, p.pulls[pid].id);
    }
  }

  lemma {:induction false} StaysGone(c: Config, ps: seq<Puller>, actions: seq<Action>, times: seq<Time>,
                                     pid: nat, i: nat, k: nat)
    requires c.Valid() && IsRun(c, ps, actions, times) && i <= k < |ps| && Gone(ps[i], pid)
    ensures Gone(ps[k], pid)
    ensures k < |actions| ==> Actor(actions[k]) != Some(pid)
    decreases k
  {
    hide Enabled, PullStep, Sound, Remembered, Gone, Actor;
    if i < k {
      StaysGone(c, ps, actions, times, pid, i, k - 1);
      ReachableIsSound(c, ps, actions, times, k - 1);
      assert Step(c, ps[k - 1], actions[k - 1], times[k - 1], ps[k]);
      ExitIsFinal(c, ps[k - 1], actions[k - 1], times[k - 1], ps[k], pid);
    }
    if k < |actions| {
      ReachableIsSound(c, ps, actions, times, k);
      assert Step(c, ps[k], actions[k], times[k], ps[k + 1]);
      ExitIsFinal(c, ps[k], actions[k], times[k], ps[k + 1], pid);
    }
  }

  /**
    The abort handshake: when a caller of Abort returns because `done` closed, the pull it waited
    for has no in-flight entry left, the recorded directory it returns is the one handed to the
    downloader, and the pull takes no step ever again (so none of its file downloads is running).
   */
  lemma AbortHandshake(c: Config, ps: seq<Puller>, actions: seq<Action>, times: seq<Time>,
                       i: nat, caller: nat, k: nat) returns (pid: nat)
    requires c.Valid() && IsRun(c, ps, actions, times)
    requires i < |actions| && actions[i] == AbortReturn(caller, true) && i <= k < |actions|
    ensures caller in ps[i].waiting && ps[i].waiting[caller] == pid && pid in ps[i].pulls
    ensures var x := ps[i].pulls[pid];
            && x.phase.Exited? && x.dir == x.target
            && pid !in ps[i].inflight.Values
            && Actor(actions[k]) != Some(pid)
  {
    ReachableIsSound(c, ps, actions, times, i);
    assert Step(c, ps[i], actions[i], times[i], ps[i + 1]);
    pid := ps[i].waiting[caller];
    StaysGone(c, ps, actions, times, pid, i, k);
  }

  lemma StepStaysSilent(c: Config, p: Puller, a: Action, now: Time, p': Puller, pid: nat)
    requires Sound(c, p) && Silenced(p, pid) && Step(c, p, a, now, p')
    ensures Silenced(p', pid) && a != Write(pid) && a != NoteArchives(pid)
  {
    if Actor(a) == Some(pid) {
      OwnStepStaysSilent(c, p, a, now, pid);
    } else {
      OtherPullsStay(c, p, a, now, pid);
      hide PullStep, Enabled, Sound;
    }
  }

  lemma {:induction false} StaysSilenced(c: Config, ps: seq<Puller>, actions: seq<Action>, times: seq<Time>,
                                         pid: nat, i: nat, k: nat)
    requires c.Valid() && IsRun(c, ps, actions, times) && i <= k < |ps| && Silenced(ps[i], pid)
    ensures Silenced(ps[k], pid)
    decreases k
  {
    hide PullStep, Enabled, Sound, Remembered, Silenced;
    if i < k {
      StaysSilenced(c, ps, actions, times, pid, i, k - 1);
      ReachableIsSound(c, ps, actions, times, k - 1);
      assert Step(c, ps[k - 1], actions[k - 1], times[k - 1], ps[k]);
      StepStaysSilent(c, ps[k - 1], actions[k - 1], times[k - 1], ps[k], pid);
    }
  }

  /** A pull whose abort flag is set before the checkpoint of its phase never issues a statement again. */
  lemma AbortedPullWritesNothing(c: Config, ps: seq<Puller>, actions: seq<Action>, times: seq<Time>,
                                 pid: nat, i: nat, k: nat)
    requires c.Valid() && IsRun(c, ps, actions, times) && i <= k < |actions|
    requires pid in ps[i].pulls && ps[i].pulls[pid].aborted && ps[i].pulls[pid].phase.Checked()
    ensures actions[k] != Write(pid) && actions[k] != NoteArchives(pid)
  {
    ReachableIsSound(c, ps, actions, times, i);
    StaysSilenced(c, ps, actions, times, pid, i, k);
    ReachableIsSound(c, ps, actions, times, k);
    assert Step(c, ps[k], actions[k], times[k], ps[k + 1]);
    StepStaysSilent(c, ps[k], actions[k], times[k], ps[k + 1], pid);
  }

  /**
    The archive wait is exact. Whenever a pull that saw archives only decides, its job's sightings end in
    an unbroken run of archives-only sightings (every un-aborted pull since then that got past
    classification saw the same); the job is failed exactly when that run began at least
    `archiveWait` ago, and otherwise rescheduled without touching its attempts.
   */
  lemma ArchiveWaitIsExact(c: Config, ps: seq<Puller>, actions: seq<Action>, times: seq<Time>, i: nat, pid: nat)
      returns (k: nat, began: Time)
    requires c.Valid() && IsRun(c, ps, actions, times) && i < |actions|
    requires actions[i] == Write(pid) && pid in ps[i].pulls && ps[i].pulls[pid].phase.Decide?
    ensures var x := ps[i].pulls[pid]; var stmt := PullStmt(c, ps[i], actions[i], times[i]);
            && RunStartsAt(History(ps[i], x.id), k, began)
            && (times[i] - began >= c.archiveWait <==>
                  stmt == Some(Transition(x.id, Ending(x.row.state, Failed, ARCHIVES_ONLY, times[i]))))
            && (times[i] - began < c.archiveWait <==>
                  stmt == Some(Reschedule(x.id, ARCHIVES_ONLY, times[i] + MINUTE)))
  {
    ReachableIsSound(c, ps, actions, times, i);
    assert Step(c, ps[i], actions[i], times[i], ps[i + 1]);
    k := TrailingRunStarts(History(ps[i], ps[i].pulls[pid].id));
    began := ps[i].pulls[pid].phase.since;
  }
}
