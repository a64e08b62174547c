/** What can still happen to a job: any pull can end, any listed job can be pulled, any unfinished one can be listed. */
module JobDrives {
  import opened Options
  import opened Jobs
  import opened StoreSpec
  import opened PollerSpec
  import opened SubmitterSpec
  import opened Pipeline
  import opened PipelineSafety
  import opened PipelineTheorems
  import opened PipelineRuns
  import P = PullerSpec
  import Q = PullerSafety
  import R = PullerRefill

  predicate IsAmong(todo: seq<Listed>, id: string) {
    exists i :: 0 <= i < |todo| && todo[i].id == id
  }

  /** The Tick at work has listed the job and not yet considered it. */
  predicate IsListed(p: P.Puller, id: string) {
    p.tick.Filling? && IsAmong(p.tick.todo, id)
  }

  lemma TailIsAmong(todo: seq<Listed>, id: string)
    ensures IsAmong(todo, id) <==> todo != [] && (todo[0].id == id || IsAmong(todo[1..], id))
  {
    if IsAmong(todo, id) && todo[0].id != id {
      var i :| 0 <= i < |todo| && todo[i].id == id;
      assert todo[1..][i - 1].id == id;
    }
    if todo != [] && IsAmong(todo[1..], id) {
      var i :| 0 <= i < |todo[1..]| && todo[1..][i].id == id;
      assert todo[i + 1].id == id;
    }
  }

  lemma ConsiderStartsHead(c: P.Config, p: P.Puller, e: Listed, tick: P.Tick, id: string)
    requires id !in p.inflight
    ensures var p' := P.Considered(c, p, e, tick);
            && p'.tick == tick
            && (id in p'.inflight <==> id == e.id && !P.HasLocalPath(e.row) && |p.inflight| < c.limit)
            && (id in p'.inflight ==> IsStarting(p', id))
  {
    hide P.HasLocalPath;
  }

  /** The pull in flight for the job has just been started. */
  predicate IsStarting(p: P.Puller, id: string) {
    && id in p.inflight && p.inflight[id] in p.pulls
    && var x := p.pulls[p.inflight[id]];
       x.id == id && x.phase.Lookup? && !x.aborted
  }

  // ----- Continuing a run -----

  /** A job is added, or a pull is told its directory. */
  predicate IsMarked(a: Action) {
    a.Add? || (a.Pull? && a.a.BuildDone? && a.a.built.Files?)
  }

  predicate Extends(tr: Trace, longer: Trace) {
    tr.worlds <= longer.worlds && tr.actions <= longer.actions
  }

  /** Continues a run without adding a job or telling a pull its directory. */
  predicate Follows(tr: Trace, longer: Trace) {
    Extends(tr, longer) && forall k :: |tr.actions| <= k < |longer.actions| ==> !IsMarked(longer.actions[k])
  }

  ghost predicate GoesOn(s: Setup, tr: Trace, longer: Trace) {
    IsTrace(s, longer) && longer.worlds != [] && Follows(tr, longer)
  }

  lemma GoesOnFurther(s: Setup, tr: Trace, mid: Trace, longer: Trace)
    requires GoesOn(s, tr, mid) && GoesOn(s, mid, longer)
    ensures GoesOn(s, tr, longer)
  {
    hide IsTrace;
    forall k | |tr.actions| <= k < |longer.actions|
      ensures !IsMarked(longer.actions[k])
    {
      if k < |mid.actions| {
        assert longer.actions[k] == mid.actions[k];
      }
    }
  }

  /** One more action. */
  lemma Go(s: Setup, tr: Trace, a: Action) returns (longer: Trace)
    requires IsTrace(s, tr) && tr.worlds != [] && Enabled(s, End(tr), a) && !IsMarked(a)
    ensures GoesOn(s, tr, longer) && End(longer) == NextWorld(s, End(tr), a)
  {
    hide IsTrace, Enabled, NextWorld;
    longer := Extend(s, tr, a);
  }

  /** One more critical section of the puller. */
  lemma Act(s: Setup, tr: Trace, pa: P.Action) returns (longer: Trace)
    requires IsTrace(s, tr) && tr.worlds != [] && P.Enabled(s.pull, End(tr).puller, pa)
    requires !pa.Restart? && !pa.List? && !IsMarked(Pull(pa))
    ensures GoesOn(s, tr, longer)
    ensures End(longer).puller == P.PullStep(s.pull, End(tr).puller, pa, End(tr).now)
  {
    hide IsTrace, P.Enabled, P.PullStep, NextWorld;
    assert Enabled(s, End(tr), Pull(pa));
    longer := Go(s, tr, Pull(pa));
    R.WorldPuller(s, End(tr), Pull(pa));
  }

  // ----- Any pull can end -----

  /** What a pull can do next to come to its end. */
  function NextAct(pid: nat, phase: P.Phase): P.Action {
    match phase
    case Lookup => P.FindDone(pid, P.NoFiles)
    case Build => P.BuildDone(pid, P.BuildFailed(""))
    case Download(n) => if n > 0 then P.FileEnd(pid) else P.DownloadDone(pid, P.RunFailed(""))
    case Await => P.NoteArchives(pid)
    case Leaving => P.Forget(pid)
    case _ => P.Write(pid)
  }

  function StepsLeft(phase: P.Phase): nat {
    match phase
    case Lookup | Build | Await => 3
    case Download(n) => 3 + n
    case Retry(_) | Decide(_) | Publish(_, _) => 2
    case Leaving => 1
    case Forgotten | Exited => 0
  }

  lemma ActIsPossible(c: P.Config, p: P.Puller, pid: nat)
    requires pid in p.pulls && p.pulls[pid].phase.Held()
    ensures var a := NextAct(pid, p.pulls[pid].phase);
            && P.Enabled(c, p, a) && !a.Restart? && !a.List? && !a.Consider? && !a.Count? && !IsMarked(Pull(a))
            && (a.Forget? <==> p.pulls[pid].phase.Leaving?)
  {
  }

  lemma FailuresAreRetried(p: P.Puller, pid: nat, x: P.Pull)
    ensures P.AfterFind(P.NoFiles).Retry? && P.AfterRun(P.RunFailed("")).Retry?
    ensures var p' := P.AfterBuild(p, pid, x, P.BuildFailed(""));
            pid in p'.pulls && p'.pulls[pid].id == x.id && p'.pulls[pid].phase.Retry?
  {
    hide P.History;
  }

  lemma WritesGoOn(c: P.Config, p: P.Puller, pid: nat, x: P.Pull, now: Time)
    ensures var p' := P.AfterNote(p, pid, x, now);
            pid in p'.pulls && p'.pulls[pid].id == x.id && p'.pulls[pid].phase.Decide?
    ensures var p' := P.AfterWrite(c, p, pid, x, now);
            pid in p'.pulls && p'.pulls[pid].id == x.id && p'.pulls[pid].phase.Leaving?
  {
    hide P.History, P.GivesUp;
  }

  lemma ActMovesOn(c: P.Config, p: P.Puller, pid: nat, now: Time)
    requires pid in p.pulls && p.pulls[pid].phase.Held() && !p.pulls[pid].phase.Leaving?
    requires P.Enabled(c, p, NextAct(pid, p.pulls[pid].phase))
    ensures HasMoved(p, P.PullStep(c, p, NextAct(pid, p.pulls[pid].phase), now), pid)
  {
    hide P.PullStep;
    if p.pulls[pid].phase.Checked() {
      CheckedMovesOn(c, p, pid, now);
    } else {
      OtherMovesOn(c, p, pid, now);
    }
  }

  predicate HasMoved(p: P.Puller, p': P.Puller, pid: nat)
    requires pid in p.pulls
  {
    && pid in p'.pulls && p'.pulls[pid].id == p.pulls[pid].id && p'.pulls[pid].phase.Held()
    && StepsLeft(p'.pulls[pid].phase) < StepsLeft(p.pulls[pid].phase)
  }

  lemma CheckedMovesOn(c: P.Config, p: P.Puller, pid: nat, now: Time)
    requires pid in p.pulls && p.pulls[pid].phase.Checked() && P.Enabled(c, p, NextAct(pid, p.pulls[pid].phase))
    ensures HasMoved(p, P.PullStep(c, p, NextAct(pid, p.pulls[pid].phase), now), pid)
  {
    hide P.History, P.Aborted, P.GivesUp, P.AfterFind, P.AfterRun, P.AfterBuild;
    FailuresAreRetried(p, pid, p.pulls[pid]);
  }

  lemma OtherMovesOn(c: P.Config, p: P.Puller, pid: nat, now: Time)
    requires pid in p.pulls && (p.pulls[pid].phase.Await? || p.pulls[pid].phase.Writing())
    requires P.Enabled(c, p, NextAct(pid, p.pulls[pid].phase))
    ensures HasMoved(p, P.PullStep(c, p, NextAct(pid, p.pulls[pid].phase), now), pid)
  {
    hide P.AfterNote, P.AfterWrite;
    WritesGoOn(c, p, pid, p.pulls[pid], now);
  }

  lemma ActGoesOn(c: P.Config, p: P.Puller, pid: nat, now: Time)
    requires pid in p.pulls && p.pulls[pid].phase.Held()
    ensures var a := NextAct(pid, p.pulls[pid].phase);
            P.Enabled(c, p, a) && !a.Restart? && !a.List? && !IsMarked(Pull(a))
    ensures var p' := P.PullStep(c, p, NextAct(pid, p.pulls[pid].phase), now);
            && p'.tick == p.tick && pid in p'.pulls && p'.pulls[pid].id == p.pulls[pid].id
            && if p.pulls[pid].phase.Leaving? then p'.inflight == p.inflight - {p.pulls[pid].id}
               else
                 && p'.inflight == p.inflight && p'.pulls[pid].phase.Held()
                 && StepsLeft(p'.pulls[pid].phase) < StepsLeft(p.pulls[pid].phase)
  {
    ActIsPossible(c, p, pid);
    if p.pulls[pid].phase.Leaving? {
      hide P.Enabled, StepsLeft, P.History, P.Aborted, P.GivesUp;
    } else {
      ActMovesOn(c, p, pid, now);
      R.OthersLeavePool(c, p, NextAct(pid, p.pulls[pid].phase), now);
      hide P.PullStep, P.Enabled, NextAct, StepsLeft;
    }
  }

  /** Any pull can end, with the Tick where it was. */
  lemma {:induction false} Drain(s: Setup, tr: Trace, pid: nat) returns (longer: Trace)
    requires IsTrace(s, tr) && tr.worlds != []
    requires pid in End(tr).puller.pulls && End(tr).puller.pulls[pid].phase.Held()
    ensures GoesOn(s, tr, longer)
    ensures End(longer).puller.tick == End(tr).puller.tick
    ensures End(longer).puller.inflight == End(tr).puller.inflight - {End(tr).puller.pulls[pid].id}
    decreases StepsLeft(End(tr).puller.pulls[pid].phase)
  {
    hide IsTrace, P.Enabled, P.PullStep, NextAct, StepsLeft, Follows;
    var p := End(tr).puller;
    ActGoesOn(s.pull, p, pid, End(tr).now);
    longer := Act(s, tr, NextAct(pid, p.pulls[pid].phase));
    if !p.pulls[pid].phase.Leaving? {
      var mid := longer;
      longer := Drain(s, mid, pid);
      GoesOnFurther(s, tr, mid, longer);
    }
  }

  lemma PoolIsSound(s: Setup, tr: Trace, id: string)
    requires IsTrace(s, tr) && tr.worlds != []
    ensures var p := End(tr).puller;
            && |p.inflight| <= s.pull.limit && s.pull.limit > 0
            && (id in p.inflight ==>
                  p.inflight[id] in p.pulls && p.pulls[p.inflight[id]].id == id && p.pulls[p.inflight[id]].phase.Held())
            && (p.tick.Filling? ==> forall i :: 0 <= i < |p.tick.todo| ==> !P.HasLocalPath(p.tick.todo[i].row))
  {
    hide Inv, Enabled, NextWorld;
    ReachableInv(s, tr.worlds, tr.actions, |tr.actions|);
    InvIsSound(s, End(tr), id);
  }

  lemma InvIsSound(s: Setup, w: World, id: string)
    requires Inv(s, w)
    ensures var p := w.puller;
            && |p.inflight| <= s.pull.limit
            && (id in p.inflight ==>
                  p.inflight[id] in p.pulls && p.pulls[p.inflight[id]].id == id && p.pulls[p.inflight[id]].phase.Held())
            && (p.tick.Filling? ==> forall i :: 0 <= i < |p.tick.todo| ==> !P.HasLocalPath(p.tick.todo[i].row))
  {
    hide Consistent, RowsOk, SubsOk, PollOk, PullsOk, Apart, Known, Q.PullsOk, PullHand;
    if w.puller.tick.Filling? {
      assert forall i :: 0 <= i < |w.puller.tick.todo| ==> TodoOk(w.db.rows, w.puller, w.puller.tick.todo[i]);
    }
  }

  /** A full pool can lose a pull. */
  lemma MakeRoom(s: Setup, tr: Trace) returns (longer: Trace)
    requires IsTrace(s, tr) && tr.worlds != []
    ensures GoesOn(s, tr, longer)
    ensures End(longer).puller.tick == End(tr).puller.tick && |End(longer).puller.inflight| < s.pull.limit
    ensures End(longer).puller.inflight.Keys <= End(tr).puller.inflight.Keys
  {
    hide IsTrace;
    var p := End(tr).puller;
    longer := tr;
    PoolIsSound(s, tr, "");
    if |p.inflight| >= s.pull.limit {
      var id :| id in p.inflight;
      PoolIsSound(s, tr, id);
      longer := Drain(s, tr, p.inflight[id]);
      Q.RemovalShrinks(p.inflight, id);
    }
  }

  /** A listed job that is not being pulled can be: the Tick gets to it, and makes its pull if there is room. */
  lemma {:induction false} ListedCanStart(s: Setup, tr: Trace, id: string) returns (longer: Trace)
    requires IsTrace(s, tr) && tr.worlds != [] && id !in End(tr).puller.inflight && IsListed(End(tr).puller, id)
    ensures GoesOn(s, tr, longer) && IsStarting(End(longer).puller, id)
    decreases |End(tr).puller.tick.todo|
  {
    hide IsTrace, P.Considered, P.HasLocalPath, IsAmong, Follows, IsStarting;
    var room := MakeRoom(s, tr);
    var p := End(room).puller;
    PoolIsSound(s, room, id);
    TailIsAmong(p.tick.todo, id);
    var e, tick := p.tick.todo[0], P.Filled(p.tick.todo[1..]);
    ConsiderStartsHead(s.pull, p, e, tick, id);
    var next := Act(s, room, P.Consider);
    GoesOnFurther(s, tr, room, next);
    assert End(next).puller == P.Considered(s.pull, p, e, tick);
    if e.id == id {
      longer := next;
    } else {
      TailIsAmong(p.tick.todo[1..], id);
      longer := ListedCanStart(s, next, id);
      GoesOnFurther(s, tr, next, longer);
    }
  }

  // ----- Any job can be left alone -----

  /** The puller is at rest and holds no job, and no client is at work. */
  predicate IsCalm(w: World) {
    w.puller.tick.Resting? && w.puller.inflight == map[] && w.puller.waiting == map[] && w.clients == map[]
  }

  /** The job is the only one, in this state, and nobody is at work. */
  predicate IsAlone(w: World, id: string, row: Row) {
    w.db.rows == map[id := row] && w.subs == map[] && w.poll.Idle? && IsCalm(w)
  }

  lemma CrashCalms(s: Setup, w: World)
    ensures Enabled(s, w, Crash)
    ensures var w' := NextWorld(s, w, Crash); w'.db == w.db && w'.subs == map[] && w'.poll.Idle? && IsCalm(w')
  {
  }

  lemma ReadIsTaken(s: Setup, w: World, id: string)
    requires w.clients == map[] && id in w.db.rows
    ensures Enabled(s, w, Read(0, id))
    ensures NextWorld(s, w, Read(0, id)) == w.(clients := map[0 := Listed(id, w.db.rows[id])])
  {
    hide IsListing, IsPullListing;
  }

  lemma DropRemoves(s: Setup, w: World, l: Listed)
    requires w.subs == map[] && w.poll.Idle? && w.clients == map[0 := l]
    ensures Enabled(s, w, Drop(0))
    ensures var w' := NextWorld(s, w, Drop(0));
            && w'.db.rows == w.db.rows - {l.id} && w'.subs == map[] && w'.poll.Idle?
            && w'.puller == w.puller && w'.clients == map[]
  {
    hide IsListing, IsPullListing, Observe;
  }

  lemma {:induction false} DropOthers(s: Setup, tr: Trace, id: string) returns (longer: Trace)
    requires IsTrace(s, tr) && tr.worlds != [] && id in End(tr).db.rows
    requires End(tr).subs == map[] && End(tr).poll.Idle? && IsCalm(End(tr))
    ensures GoesOn(s, tr, longer) && IsAlone(End(longer), id, End(tr).db.rows[id])
    decreases End(tr).db.rows.Keys
  {
    hide IsTrace, Enabled, NextWorld, Follows;
    var w := End(tr);
    if w.db.rows.Keys == {id} {
      StaysPut(s, tr);
      assert w.db.rows == map[id := w.db.rows[id]];
      longer := tr;
    } else {
      var other :| other in w.db.rows && other != id;
      ReadIsTaken(s, w, other);
      var read := Go(s, tr, Read(0, other));
      DropRemoves(s, End(read), Listed(other, w.db.rows[other]));
      var dropped := Go(s, read, Drop(0));
      GoesOnFurther(s, tr, read, dropped);
      longer := DropOthers(s, dropped, id);
      GoesOnFurther(s, tr, dropped, longer);
    }
  }

  lemma StaysPut(s: Setup, tr: Trace)
    requires IsTrace(s, tr) && tr.worlds != []
    ensures GoesOn(s, tr, tr)
  {
    hide IsTrace;
  }

  /** After a crash and the removal of all others, the job is alone with its row as it was. */
  lemma LeftAlone(s: Setup, tr: Trace, id: string) returns (longer: Trace)
    requires IsTrace(s, tr) && tr.worlds != [] && id in End(tr).db.rows
    ensures GoesOn(s, tr, longer) && IsAlone(End(longer), id, End(tr).db.rows[id])
  {
    hide IsTrace, Enabled, NextWorld, Follows;
    CrashCalms(s, End(tr));
    var crashed := Go(s, tr, Crash);
    longer := DropOthers(s, crashed, id);
    GoesOnFurther(s, tr, crashed, longer);
  }

  // ----- A job that is alone can be pulled -----

  /** The job is the only one; the puller and the clients are at rest. */
  predicate IsIn(w: World, id: string, state: State) {
    && w.db.rows.Keys == {id} && w.db.rows[id].state == state && IsCalm(w)
  }

  lemma AdvanceIsTaken(s: Setup, w: World, t: Time)
    requires w.now <= t
    ensures Enabled(s, w, Advance(t)) && NextWorld(s, w, Advance(t)) == w.(now := t)
  {
    hide IsListing, IsPullListing;
  }

  lemma ClaimIsTaken(s: Setup, w: World, id: string, row: Row)
    requires s.Valid() && IsAlone(w, id, row) && Claimable(row, w.now)
    ensures Enabled(s, w, ClaimNew([id]))
    ensures var w' := NextWorld(s, w, ClaimNew([id])); var row' := row.(claimedAt := Some(w.now), updatedAt := w.now);
            && w'.db.rows == map[id := row'] && w'.subs == map[id := Creating(row')] && w'.poll.Idle? && IsCalm(w')
  {
    assert IsListing(w.db.rows, (r: Row) => Claimable(r, w.now), [id], s.pool);
    hide IsListing, IsPullListing, Observe, Claimable;
    assert id in [id];
    var row' := row.(claimedAt := Some(w.now), updatedAt := w.now);
    assert Apply(w.db.rows, Claim([id]), w.now) == map[id := row'];
  }

  const ACCEPTED := Created(0, 1, 0, 0)

  lemma AnswerIsTaken(s: Setup, w: World, id: string, row: Row)
    requires w.db.rows == map[id := row] && w.subs == map[id := Creating(row)] && w.poll.Idle? && IsCalm(w)
    requires row.state == New && !HasNoPayload(row)
    ensures Enabled(s, w, Answer(id, ACCEPTED))
    ensures var w' := NextWorld(s, w, Answer(id, ACCEPTED));
            IsIn(w', id, Submitted) && w'.subs == map[] && w'.poll.Idle?
  {
    hide IsListing, IsPullListing, Observe, HasNoPayload;
  }

  /** A claimable time for the row. */
  function Later(row: Row, now: Time): (t: Time)
    ensures t >= now && Due(row, t) && (row.claimedAt.None? || row.claimedAt.value <= t - LEASE)
  {
    var t := Max(now, row.nextAttemptAt.GetOr(now));
    Max(t, row.claimedAt.GetOr(t) + LEASE)
  }

  lemma Submitting(s: Setup, tr: Trace, id: string, row: Row) returns (longer: Trace)
    requires IsTrace(s, tr) && tr.worlds != [] && IsAlone(End(tr), id, row) && row.state == New && !HasNoPayload(row)
    ensures GoesOn(s, tr, longer)
    ensures IsIn(End(longer), id, Submitted) && End(longer).subs == map[] && End(longer).poll.Idle?
  {
    hide IsTrace, Enabled, NextWorld, Follows, HasNoPayload, IsIn, Later, Due;
    TraceIsValid(s, tr);
    var w := End(tr);
    AdvanceIsTaken(s, w, Later(row, w.now));
    var waited := Go(s, tr, Advance(Later(row, w.now)));
    ClaimIsTaken(s, End(waited), id, row);
    var claimed := Go(s, waited, ClaimNew([id]));
    GoesOnFurther(s, tr, waited, claimed);
    var row' := row.(claimedAt := Some(End(waited).now), updatedAt := End(waited).now);
    SamePayload(row, row');
    AnswerIsTaken(s, End(claimed), id, row');
    longer := Go(s, claimed, Answer(id, ACCEPTED));
    GoesOnFurther(s, tr, claimed, longer);
  }

  lemma SamePayload(r: Row, r': Row)
    requires r'.blob == r.blob && r'.magnet == r.magnet && r'.source == r.source
    ensures HasNoPayload(r') == HasNoPayload(r)
  {
  }

  lemma TraceIsValid(s: Setup, tr: Trace)
    requires IsTrace(s, tr)
    ensures s.Valid()
  {
  }

  /** TorBox reports the download complete. */
  const COMPLETE := Item(0, 0, "", "", true, 0, false, 0, 0, [])

  lemma PassIsTaken(s: Setup, w: World, id: string, state: State)
    requires IsIn(w, id, state) && state.InFlight() && w.poll.Idle?
    ensures Enabled(s, w, BeginPass([id]))
    ensures NextWorld(s, w, BeginPass([id])) == w.(poll := Passing([Listed(id, w.db.rows[id])], None))
  {
    assert IsListing(w.db.rows, (r: Row) => r.state.InFlight(), [id], POLL_LIMIT);
    hide IsListing, IsPullListing;
    assert Snapshots(w.db.rows, [id]) == [Listed(id, w.db.rows[id])];
  }

  lemma VisitIsTaken(s: Setup, w: World, l: Listed)
    requires w.poll == Passing([l], None)
    ensures Enabled(s, w, BeginVisit(Some(COMPLETE)))
    ensures NextWorld(s, w, BeginVisit(Some(COMPLETE))) == w.(poll := Passing([], Some(Start(l, Some(COMPLETE)))))
  {
    hide IsListing, IsPullListing;
    assert [l][1..] == [];
  }

  lemma NothingIsNoted(s: Setup, w: World, l: Listed)
    requires w.poll == Passing([], Some(Start(l, Some(COMPLETE))))
    ensures Enabled(s, w, VisitStep)
    ensures NextWorld(s, w, VisitStep) ==
            w.(poll := Passing([], Some(Visit(l.id, l.row, Some(COMPLETE), Judge))))
  {
    hide IsListing, IsPullListing, Apply, Fires, Observe;
  }

  lemma CompletionIsTaken(s: Setup, w: World, id: string, state: State)
    requires IsIn(w, id, state) && state.InFlight()
    requires w.poll == Passing([], Some(Visit(id, w.db.rows[id], Some(COMPLETE), Judge)))
    ensures Enabled(s, w, VisitStep) && IsIn(NextWorld(s, w, VisitStep), id, CompletedTorbox)
  {
    hide IsListing, IsPullListing, Observe;
    NoFailure();
  }

  lemma NoFailure()
    ensures !COMPLETE.IsFailure()
  {
  }

  lemma Completing(s: Setup, tr: Trace, id: string, state: State) returns (longer: Trace)
    requires IsTrace(s, tr) && tr.worlds != [] && IsIn(End(tr), id, state) && state.InFlight() && End(tr).poll.Idle?
    ensures GoesOn(s, tr, longer) && IsIn(End(longer), id, CompletedTorbox)
  {
    hide IsTrace, Enabled, NextWorld, Follows, COMPLETE;
    var l := Listed(id, End(tr).db.rows[id]);
    PassIsTaken(s, End(tr), id, state);
    var begun := Go(s, tr, BeginPass([id]));
    VisitIsTaken(s, End(begun), l);
    var visiting := Go(s, begun, BeginVisit(Some(COMPLETE)));
    GoesOnFurther(s, tr, begun, visiting);
    NothingIsNoted(s, End(visiting), l);
    var judging := Go(s, visiting, VisitStep);
    GoesOnFurther(s, tr, visiting, judging);
    CompletionIsTaken(s, End(judging), id, state);
    longer := Go(s, judging, VisitStep);
    GoesOnFurther(s, tr, judging, longer);
  }

  lemma CountIsTaken(s: Setup, w: World)
    requires s.Valid() && IsCalm(w)
    ensures Enabled(s, w, Pull(P.Count))
    ensures NextWorld(s, w, Pull(P.Count)) == w.(puller := w.puller.(tick := P.Counted(0)))
  {
    hide IsListing, IsPullListing;
    assert |w.puller.inflight| == 0;
  }

  lemma ListIsTaken(s: Setup, w: World, id: string)
    requires s.Valid() && w.db.rows.Keys == {id} && Pullable(w.db.rows[id], w.now) && w.puller.tick == P.Counted(0)
    ensures var a, todo := Pull(P.List([Listed(id, w.db.rows[id])])), [Listed(id, w.db.rows[id])];
            Enabled(s, w, a) && NextWorld(s, w, a) == w.(puller := w.puller.(tick := P.Filling(todo)))
  {
    var ids := [id];
    var a := Pull(P.List([Listed(id, w.db.rows[id])]));
    assert IsListing(w.db.rows, (r: Row) => Pullable(r, w.now), ids, s.pull.limit);
    assert Snapshots(w.db.rows, ids) == [Listed(id, w.db.rows[id])];
    hide IsListing;
    assert IsPullListing(w.db.rows, w.now, s.pull.limit, a.a.jobs);
  }

  /** The Tick has listed the job and nothing else, and has not considered it yet. */
  predicate IsNext(w: World, id: string) {
    && id in w.db.rows && w.db.rows[id].state == CompletedTorbox
    && w.puller.tick == P.Filling([Listed(id, w.db.rows[id])])
    && w.puller.inflight == map[] && w.puller.waiting == map[] && w.clients == map[]
  }

  lemma Listing(s: Setup, tr: Trace, id: string) returns (longer: Trace)
    requires IsTrace(s, tr) && tr.worlds != [] && IsIn(End(tr), id, CompletedTorbox)
    ensures GoesOn(s, tr, longer) && IsNext(End(longer), id)
  {
    hide IsTrace, Enabled, NextWorld, Follows, Later;
    TraceIsValid(s, tr);
    var w := End(tr);
    var t := Later(w.db.rows[id], w.now);
    AdvanceIsTaken(s, w, t);
    var waited := Go(s, tr, Advance(t));
    CountIsTaken(s, End(waited));
    var counted := Go(s, waited, Pull(P.Count));
    GoesOnFurther(s, tr, waited, counted);
    ListIsTaken(s, End(counted), id);
    longer := Go(s, counted, Pull(P.List([Listed(id, w.db.rows[id])])));
    GoesOnFurther(s, tr, counted, longer);
  }

  /** The job has not ended, and TorBox has it or can be given it. */
  predicate CanBePulled(r: Row) {
    r.state.InFlight() || r.state == CompletedTorbox || (r.state == New && !HasNoPayload(r))
  }

  /** Every such job can come to be the next one the Tick considers. */
  lemma UnfinishedCanBeListed(s: Setup, tr: Trace, id: string) returns (longer: Trace)
    requires IsTrace(s, tr) && tr.worlds != [] && id in End(tr).db.rows && CanBePulled(End(tr).db.rows[id])
    ensures GoesOn(s, tr, longer) && IsNext(End(longer), id)
  {
    hide IsTrace, Follows, HasNoPayload, IsNext;
    var row := End(tr).db.rows[id];
    var alone := LeftAlone(s, tr, id);
    var done := alone;
    if row.state == New {
      var submitted := Submitting(s, alone, id, row);
      GoesOnFurther(s, tr, alone, submitted);
      done := Completing(s, submitted, id, Submitted);
      GoesOnFurther(s, tr, submitted, done);
    } else if row.state.InFlight() {
      done := Completing(s, alone, id, row.state);
      GoesOnFurther(s, tr, alone, done);
    }
    longer := Listing(s, done, id);
    GoesOnFurther(s, tr, done, longer);
  }
}
