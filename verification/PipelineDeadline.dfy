/**
  How long a job can stay with TorBox. Poll passes interleave with everybody else, each visit with its own
  reading of the clock, and every job still leaves the poller's care within a bound.
 */
module PipelineDeadline {
  import opened Options
  import opened Jobs
  import opened StoreSpec
  import opened PollerSpec
  import opened Pipeline
  import opened PipelineSafety
  import opened PipelineTheorems

  // ----- Passes -----

  /** When the latest pass began. */
  function PassBegan(worlds: seq<World>, actions: seq<Action>, n: nat): Time
    requires |worlds| == |actions| + 1 && n < |worlds|
  {
    if n == 0 then worlds[0].now
    else if actions[n - 1].BeginPass? then worlds[n - 1].now
    else PassBegan(worlds, actions, n - 1)
  }

  /** The pass has visited every row it listed. */
  predicate Completes(w: World, a: Action) {
    a.EndPass? && w.poll.Passing? && w.poll.todo == []
  }

  /** When the latest completed pass began. */
  function LastPass(worlds: seq<World>, actions: seq<Action>, n: nat): Time
    requires |worlds| == |actions| + 1 && n < |worlds|
  {
    if n == 0 then worlds[0].now
    else if Completes(worlds[n - 1], actions[n - 1]) then PassBegan(worlds, actions, n - 1)
    else LastPass(worlds, actions, n - 1)
  }

  ghost function InFlightIds(rows: Table): set<string> {
    set id | id in rows && rows[id].state.InFlight()
  }

  /** A crash cuts off a visit of the row that may have written to it, after the row's ceiling. */
  predicate CutsOverdueVisit(w: World, a: Action, id: string) {
    && a.Crash? && IsVisited(w.poll, id) && w.poll.visit.value.item.Some? && !w.poll.visit.value.pc.NoteIDs?
    && id in w.db.rows && w.db.rows[id].state.InFlight() && w.now > Ceiling(w.db.rows[id])
  }

  /**
    Up to `n` at any time some completed pass had begun at most `gap` ago, and no pass began with more
    than 1000 rows in flight.
   */
  ghost predicate IsPolled(worlds: seq<World>, actions: seq<Action>, gap: Time, n: nat)
    requires |worlds| == |actions| + 1 && n < |worlds|
  {
    && (forall k :: 0 <= k < n && actions[k].BeginPass? ==> |InFlightIds(worlds[k].db.rows)| <= POLL_LIMIT)
    && (forall k :: 0 <= k <= n ==> worlds[k].now <= LastPass(worlds, actions, k) + gap)
  }

  /** How often a crash cut off a visit of `id` when it was overdue already, from `m` up to `n`. */
  function OverdueCuts(worlds: seq<World>, actions: seq<Action>, m: nat, n: nat, id: string): nat
    requires |worlds| == |actions| + 1 && m <= n < |worlds|
  {
    if m == n then 0
    else OverdueCuts(worlds, actions, m, n - 1, id) + if CutsOverdueVisit(worlds[n - 1], actions[n - 1],
      id) then 1 else 0
  }

  // ----- How overdue a row can be -----

  function Ceiling(r: Row): Time {
    r.InFlightSince() + MAX_POLL
  }

  /** What a visit since `t` that found no entry leaves true. */
  predicate Fresh(r: Row, t: Time) {
    t > Ceiling(r) ==> t <= r.updatedAt + MAX_MISSING
  }

  /**
    How long after its ceiling a row may last have been written: not at all, or once by its late move to
    DOWNLOADING and once by the notifier, each at most a `unit` after the other. A `tight` row was
    DOWNLOADING in time.
   */
  function Slack(r: Row, unit: Time, tight: bool): Time {
    (if r.state == Downloading && !tight then unit else 0) + (if r.pushoverSentAt.Some? then unit else 0)
  }

  /** A row no visit is at work on; crashes that cut off its visits may have cost it `extra` more. */
  predicate Settled(r: Row, done: Time, unit: Time, tight: bool, extra: Time) {
    && Fresh(r, done)
    && r.updatedAt <= Ceiling(r) + Slack(r, unit, tight) + extra && extra >= 0
    && (tight ==> r.state == Downloading)
  }

  /** The poller's copy of a row nobody but the notifier has written since. */
  predicate Copies(j: Row, r: Row) {
    j.state == r.state && j.submittedAt == r.submittedAt && j.createdAt == r.createdAt && j.updatedAt <= r.updatedAt
  }

  /** A row in the middle of a visit, in a pass that began at `cur`. */
  predicate Midway(v: Visit, r: Row, done: Time, cur: Time, unit: Time, tight: bool, extra: Time) {
    && (v.item.None? || v.pc.NoteIDs? ==> Copies(v.j, r) && Settled(r, done, unit, tight, extra))
    && (v.item.Some? && !v.pc.NoteIDs? ==>
          && Fresh(r, done) && extra >= 0
          && done <= Ceiling(r) + MAX_MISSING + (if v.j.state == Submitted || tight then 0 else unit) +
                     (if r.pushoverSentAt.Some? then unit else 0) + extra
          && (tight ==> v.j.state == Downloading)
          && (r.state == v.j.state ||
              (PastBegin(v.pc) && v.j.state == Submitted && r.state == Downloading && cur <= r.updatedAt)))
  }

  ghost predicate IsPending(poll: Poll, id: string) {
    poll.Passing? && exists i :: 0 <= i < |poll.todo| && poll.todo[i].id == id
  }

  predicate IsVisited(poll: Poll, id: string) {
    poll.Passing? && poll.visit.Some? && poll.visit.value.id == id
  }

  ghost predicate RowOnTime(poll: Poll, id: string, r: Row, done: Time, cur: Time, unit: Time, tight: bool,
                            extra: Time) {
    if IsVisited(poll, id) then Midway(poll.visit.value, r, done, cur, unit, tight, extra)
    else
      && Settled(r, done, unit, tight, extra)
      && (poll.Passing? ==> forall i :: 0 <= i < |poll.todo| && poll.todo[i].id == id ==> Copies(poll.todo[i].row, r))
      && (poll.Passing? && !IsPending(poll, id) ==> Fresh(r, cur))
  }

  ghost predicate OnTime(w: World, id: string, done: Time, cur: Time, unit: Time, tight: bool, extra: Time) {
    && done <= cur <= w.now && extra >= 0
    && (tight ==> id in w.born && (id in w.db.rows ==> w.db.rows[id].state != New))
    && (id in w.db.rows && w.db.rows[id].state.InFlight() ==>
          RowOnTime(w.poll, id, w.db.rows[id], done, cur, unit, tight, extra))
  }

  predicate FitsGap(gap: Time, unit: Time) {
    gap >= 0 && unit == MAX_MISSING + gap
  }

  // ----- One step of a visit -----

  /** The visit of a row TorBox does not list, or no longer has anything to say about. */
  lemma MissingStep(rows: Table, v: Visit, now: Time, done: Time, cur: Time, unit: Time, tight: bool, extra: Time)
    requires v.id in rows && v.item.None? && rows[v.id].state.InFlight() &&
             Midway(v, rows[v.id], done, cur, unit, tight, extra)
    requires cur <= now
    ensures VisitNext(v, now).None?
    ensures var rows' := Perform(rows, VisitStmt(v, now), now);
            v.id in rows' && rows'[v.id].state.InFlight() ==>
              rows'[v.id] == rows[v.id] && Fresh(rows[v.id], cur) && Settled(rows[v.id], done, unit, tight, extra)
  {
  }

  /** The visit's copy knows when the job came to TorBox. */
  predicate SameStamps(v: Visit, r: Row) {
    v.j.submittedAt == r.submittedAt && v.j.createdAt == r.createdAt && v.j.state.InFlight()
  }

  ghost predicate StepsOn(rows: Table, v: Visit, now: Time, done: Time, cur: Time, unit: Time, tight: bool,
                          extra: Time) {
    var rows' := Perform(rows, VisitStmt(v, now), now);
    v.id in rows' && rows'[v.id].state.InFlight() ==>
      var r' := rows'[v.id];
      match VisitNext(v, now)
      case Some(v') => Midway(v', r', done, cur, unit, tight, extra)
      case None => Settled(r', done, unit, tight, extra) && Fresh(r', cur)
  }

  ghost predicate MidwayAt(rows: Table, v: Visit, now: Time, done: Time, cur: Time, gap: Time, unit: Time,
                           tight: bool, extra: Time) {
    && v.id in rows && v.item.Some? && rows[v.id].state.InFlight()
    && Midway(v, rows[v.id], done, cur, unit, tight, extra) && SameStamps(v, rows[v.id]) && rows[v.id].updatedAt <= now
    && done <= cur <= now <= done + gap && FitsGap(gap, unit)
  }

  lemma NotingStep(rows: Table, v: Visit, now: Time, done: Time, cur: Time, gap: Time, unit: Time, tight: bool,
                   extra: Time)
    requires MidwayAt(rows, v, now, done, cur, gap, unit, tight, extra) && v.pc.NoteIDs?
    ensures StepsOn(rows, v, now, done, cur, unit, tight, extra)
  {
  }

  lemma JudgingStep(rows: Table, v: Visit, now: Time, done: Time, cur: Time, gap: Time, unit: Time, tight: bool,
                    extra: Time)
    requires MidwayAt(rows, v, now, done, cur, gap, unit, tight, extra) && v.pc.Judge?
    ensures StepsOn(rows, v, now, done, cur, unit, tight, extra)
  {
    hide LearnsIDs, NewActiveID, NewFolder, IsLost, IsStalled, IsTimedOut, Moves, Reason;
  }

  lemma WritingStep(rows: Table, v: Visit, now: Time, done: Time, cur: Time, gap: Time, unit: Time, tight: bool,
                    extra: Time)
    requires MidwayAt(rows, v, now, done, cur, gap, unit, tight, extra) && (v.pc.Begin? || v.pc.Progress?)
    ensures StepsOn(rows, v, now, done, cur, unit, tight, extra)
  {
    hide LearnsIDs, NewActiveID, NewFolder, IsLost, IsStalled, IsTimedOut, Reason;
  }

  lemma DecidingStep(rows: Table, v: Visit, now: Time, done: Time, cur: Time, gap: Time, unit: Time, tight: bool,
                     extra: Time)
    requires MidwayAt(rows, v, now, done, cur, gap, unit, tight, extra) && (v.pc.Ceilings? || v.pc.Close?)
    ensures StepsOn(rows, v, now, done, cur, unit, tight, extra)
  {
    hide LearnsIDs, NewActiveID, NewFolder, IsLost, IsStalled, Moves, Reason;
  }

  lemma VisitStepsOn(rows: Table, v: Visit, now: Time, done: Time, cur: Time, gap: Time, unit: Time, tight: bool,
                     extra: Time)
    requires v.id in rows && rows[v.id].state.InFlight() && Midway(v, rows[v.id], done, cur, unit, tight, extra)
    requires SameStamps(v, rows[v.id]) && rows[v.id].updatedAt <= now
    requires done <= cur <= now <= done + gap && FitsGap(gap, unit)
    ensures StepsOn(rows, v, now, done, cur, unit, tight, extra)
  {
    if v.item.None? {
      MissingStep(rows, v, now, done, cur, unit, tight, extra);
    } else if v.pc.NoteIDs? {
      NotingStep(rows, v, now, done, cur, gap, unit, tight, extra);
    } else if v.pc.Judge? {
      JudgingStep(rows, v, now, done, cur, gap, unit, tight, extra);
    } else if v.pc.Begin? || v.pc.Progress? {
      WritingStep(rows, v, now, done, cur, gap, unit, tight, extra);
    } else {
      DecidingStep(rows, v, now, done, cur, gap, unit, tight, extra);
    }
    hide Midway, Settled, Fresh, Perform, VisitStmt, VisitNext;
  }

  // ----- One step of the pipeline -----

  /** A row can only come into flight by the move from NEW to SUBMITTED, which stamps it. */
  lemma ComesIntoFlight(rows: Table, stmt: Stmt, now: Time, born: set<string>, id: string)
    requires Admissible(stmt, born) && id in Apply(rows, stmt, now) && Apply(rows, stmt, now)[id].state.InFlight()
    ensures (id in rows && rows[id].state.InFlight()) ||
            (id in rows && rows[id].state == New && IsJustSubmitted(Apply(rows, stmt, now)[id], now))
  {
  }

  predicate IsJustSubmitted(r: Row, now: Time) {
    r.state == Submitted && r.submittedAt == Some(now) && r.updatedAt == now
  }

  /** One step of anyone but the poller and the notifier, seen from a row in flight afterwards. */
  lemma QuietStepInFlight(s: Setup, w: World, a: Action, w': World, id: string)
    requires s.Valid() && Inv(s, w) && Step(s, w, a, w') && !a.VisitStep? && !a.Notify?
    requires id in w'.db.rows && w'.db.rows[id].state.InFlight()
    ensures id in w.db.rows
    ensures var r, r' := w.db.rows[id], w'.db.rows[id];
            (r.state.InFlight() && r' == r) || (r.state == New && IsJustSubmitted(r', w.now))
  {
    hide Enabled, NextWorld, StmtOf, Inv, Apply, Observe, IsJustSubmitted;
    NextWorldDb(s, w, a);
    OnlyAddInserts(s, w, a);
    StepEndsOnly(s, w, a, id);
    if StmtOf(s, w, a).Some? {
      ComesIntoFlight(w.db.rows, StmtOf(s, w, a).value, w.now, w.born, id);
    }
  }

  lemma StepKeepsStarted(s: Setup, w: World, a: Action, w': World, id: string)
    requires Inv(s, w) && Step(s, w, a, w') && id in w.born && (id in w.db.rows ==> w.db.rows[id].state != New)
    ensures id in w'.born && (id in w'.db.rows ==> w'.db.rows[id].state != New)
  {
    hide Enabled, NextWorld, StmtOf, Inv, Apply, Fires, Observe;
    NextWorldDb(s, w, a);
    OnlyAddInserts(s, w, a);
    if StmtOf(s, w, a).Some? {
      var stmt := StmtOf(s, w, a).value;
      if Fires(w.db.rows, stmt) == [] {
        QuietKeepsStates(w.db.rows, stmt, w.now);
      } else {
        FiringMovesOneRow(w.db.rows, stmt, w.now);
      }
    }
  }

  /** What the poller holds of a row is a copy of one that has left NEW, with the same stamps. */
  lemma HandsAreStarted(s: Setup, w: World, id: string)
    requires Inv(s, w) && id in w.db.rows
    ensures IsPending(w.poll, id) || IsVisited(w.poll, id) ==> w.db.rows[id].state != New
    ensures IsVisited(w.poll, id) ==> SameStamps(w.poll.visit.value, w.db.rows[id])
    ensures w.db.rows[id].updatedAt <= w.now
  {
    hide RowsOk, SubsOk, PullsOk, TickOk, Apart, Known, Consistent;
  }

  lemma JustSubmittedIsOnTime(r: Row, now: Time, done: Time, cur: Time, unit: Time, extra: Time)
    requires IsJustSubmitted(r, now) && done <= cur <= now && unit >= 0 && extra >= 0
    ensures Settled(r, done, unit, false, extra) && Fresh(r, cur)
  {
  }

  /** Anyone but the poller. */
  lemma OthersStayOnTime(s: Setup, w: World, a: Action, w': World, id: string, done: Time, cur: Time, gap: Time,
                         unit: Time, tight: bool, extra: Time)
    requires s.Valid() && Inv(s, w) && Step(s, w, a, w') && OnTime(w, id, done, cur, unit, tight, extra) &&
             FitsGap(gap, unit)
    requires !a.VisitStep? && !a.Notify? && !a.Crash? && !a.BeginPass? && !a.BeginVisit? && !a.EndPass?
    ensures OnTime(w', id, done, cur, unit, tight, extra)
  {
    hide Enabled, NextWorld, Inv, Settled, Fresh, Midway, IsPending, IsJustSubmitted;
    NextWorldDb(s, w, a);
    PollIsKept(s, w, a);
    if tight {
      StepKeepsStarted(s, w, a, w', id);
    }
    if id in w'.db.rows && w'.db.rows[id].state.InFlight() {
      QuietStepInFlight(s, w, a, w', id);
      HandsAreStarted(s, w, id);
      if w.db.rows[id].state == New {
        JustSubmittedIsOnTime(w'.db.rows[id], w.now, done, cur, unit, extra);
        UnlistedHasNoCopy(w.poll, id);
      }
    }
  }

  lemma UnlistedHasNoCopy(poll: Poll, id: string)
    ensures poll.Passing? && !IsPending(poll, id) ==> forall i :: 0 <= i < |poll.todo| ==> poll.todo[i].id != id
  {
  }

  lemma PollIsKept(s: Setup, w: World, a: Action)
    requires Enabled(s, w, a)
    requires !a.VisitStep? && !a.Crash? && !a.BeginPass? && !a.BeginVisit? && !a.EndPass?
    ensures NextWorld(s, w, a).poll == w.poll
  {
    hide IsListing, IsPullListing, NextSubs, NextPuller, NextClients, NextDb;
  }

  /** With at most 1000 rows in flight the listing misses none. */
  lemma ListingIsComplete(rows: Table, keep: Row -> bool, ids: seq<string>, id: string)
    requires IsListing(rows, keep, ids, POLL_LIMIT) && (forall r :: keep(r) <==> r.state.InFlight())
    requires |InFlightIds(rows)| <= POLL_LIMIT && id in rows && rows[id].state.InFlight()
    ensures id in ids
  {
    if id !in ids {
      DistinctCount(ids);
      var listed := set i | i in ids;
      assert listed + {id} <= InFlightIds(rows);
      SubsetCount(listed + {id}, InFlightIds(rows));
    }
  }

  lemma {:induction false} DistinctCount(ids: seq<string>)
    requires Distinct(ids)
    ensures |set id | id in ids| == |ids|
  {
    var all := set id | id in ids;
    if ids != [] {
      var front, last := ids[..|ids| - 1], ids[|ids| - 1];
      DistinctCount(front);
      assert all == (set id | id in front) + {last};
    }
  }

  lemma SubsetCount(a: set<string>, b: set<string>)
    requires a <= b
    ensures |a| <= |b|
  {
    assert b == a + (b - a);
  }

  lemma PassBegins(s: Setup, w: World, ids: seq<string>, id: string)
    requires Enabled(s, w, BeginPass(ids)) && |InFlightIds(w.db.rows)| <= POLL_LIMIT
    ensures var w' := NextWorld(s, w, BeginPass(ids));
            && w.poll.Idle? && w'.db == w.db && w'.now == w.now && w'.born == w.born
            && w'.poll.Passing? && w'.poll.visit.None?
            && (id in w.db.rows && w.db.rows[id].state.InFlight() ==> IsPending(w'.poll, id))
            && (forall i :: 0 <= i < |w'.poll.todo| && w'.poll.todo[i].id == id ==>
                  id in w.db.rows && w'.poll.todo[i].row == w.db.rows[id])
  {
    hide NextSubs, NextPuller, NextClients;
    var w' := NextWorld(s, w, BeginPass(ids));
    if id in w.db.rows && w.db.rows[id].state.InFlight() {
      ListingIsComplete(w.db.rows, (r: Row) => r.state.InFlight(), ids, id);
      var i :| 0 <= i < |ids| && ids[i] == id;
      assert w'.poll.todo[i].id == id;
    }
  }

  lemma BeginPassStaysOnTime(s: Setup, w: World, ids: seq<string>, id: string, done: Time, cur: Time, unit: Time,
                             tight: bool, extra: Time)
    requires Enabled(s, w, BeginPass(ids)) && |InFlightIds(w.db.rows)| <= POLL_LIMIT
    requires OnTime(w, id, done, cur, unit, tight, extra)
    ensures OnTime(NextWorld(s, w, BeginPass(ids)), id, done, w.now, unit, tight, extra)
  {
    hide Enabled, NextWorld, Settled, Fresh, Midway, IsPending;
    PassBegins(s, w, ids, id);
  }

  lemma BeginVisitStaysOnTime(s: Setup, w: World, item: Option<Item>, id: string, done: Time, cur: Time, unit: Time,
                              tight: bool, extra: Time)
    requires Inv(s, w) && Enabled(s, w, BeginVisit(item)) && OnTime(w, id, done, cur, unit, tight, extra)
    ensures OnTime(NextWorld(s, w, BeginVisit(item)), id, done, cur, unit, tight, extra)
  {
    hide Inv, Settled, Fresh, NextSubs, NextPuller, NextClients;
    var w', head, tail := NextWorld(s, w, BeginVisit(item)), w.poll.todo[0], w.poll.todo[1..];
    assert w'.poll == Passing(tail, Some(Start(head, item))) && w'.db == w.db;
    assert forall i :: 0 <= i < |tail| ==> tail[i] == w.poll.todo[i + 1];
    if id != head.id && IsPending(w.poll, id) {
      var i :| 0 <= i < |w.poll.todo| && w.poll.todo[i].id == id;
      assert tail[i - 1].id == id;
    }
  }

  lemma EndPassStaysOnTime(s: Setup, w: World, id: string, done: Time, cur: Time, unit: Time, tight: bool, extra: Time)
    requires Enabled(s, w, EndPass) && OnTime(w, id, done, cur, unit, tight, extra)
    ensures OnTime(NextWorld(s, w, EndPass), id, if Completes(w, EndPass) then cur else done, cur, unit, tight, extra)
  {
    hide Ceiling, NextSubs, NextPuller, NextClients;
    var w' := NextWorld(s, w, EndPass);
    assert w'.poll == Poll.Idle && w'.db == w.db && w'.now == w.now;
  }

  lemma VisitStepRunsOnRows(s: Setup, w: World)
    requires Enabled(s, w, VisitStep)
    ensures var v := w.poll.visit.value; var w' := NextWorld(s, w, VisitStep);
            && w'.db.rows == Perform(w.db.rows, VisitStmt(v, w.now), w.now)
            && w'.poll == w.poll.(visit := VisitNext(v, w.now)) && w'.now == w.now && w'.born == w.born
  {
    hide Apply, VisitStmt, VisitNext, IsListing, IsPullListing, NextSubs, NextPuller, NextClients;
  }

  lemma VisitTouchesOneRow(rows: Table, v: Visit, now: Time, id: string)
    requires id != v.id
    ensures var rows' := Perform(rows, VisitStmt(v, now), now);
            (id in rows' <==> id in rows) && (id in rows ==> rows'[id] == rows[id])
  {
    hide Ending, Reason;
  }

  lemma VisitIdIsKept(v: Visit, now: Time)
    ensures VisitNext(v, now).Some? ==> VisitNext(v, now).value.id == v.id
  {
  }

  lemma VisitStepStaysOnTime(s: Setup, w: World, id: string, done: Time, cur: Time, gap: Time, unit: Time,
                             tight: bool, extra: Time)
    requires s.Valid() && Inv(s, w) && Enabled(s, w, VisitStep) && OnTime(w, id, done, cur, unit, tight, extra)
    requires FitsGap(gap, unit) && w.now <= done + gap
    ensures OnTime(NextWorld(s, w, VisitStep), id, done, cur, unit, tight, extra)
  {
    hide NextWorld, Inv, Settled, Fresh, Midway, IsPending, Perform, VisitStmt, VisitNext;
    var v, w' := w.poll.visit.value, NextWorld(s, w, VisitStep);
    VisitStepRunsOnRows(s, w);
    VisitIdIsKept(v, w.now);
    if tight {
      StepKeepsStarted(s, w, VisitStep, w', id);
    }
    if id == v.id {
      VisitedIsNotPending(s, w);
      VisitRowStaysOnTime(s, w, done, cur, gap, unit, tight, extra);
    } else {
      VisitTouchesOneRow(w.db.rows, v, w.now, id);
      PendingIsKept(w.poll, VisitNext(v, w.now), id);
    }
  }

  lemma PendingIsKept(poll: Poll, next: Option<Visit>, id: string)
    requires poll.Passing?
    ensures IsPending(poll.(visit := next), id) <==> IsPending(poll, id)
  {
  }

  lemma VisitedIsNotPending(s: Setup, w: World)
    requires Inv(s, w) && w.poll.Passing? && w.poll.visit.Some?
    ensures forall i :: 0 <= i < |w.poll.todo| ==> w.poll.todo[i].id != w.poll.visit.value.id
  {
    hide RowsOk, SubsOk, PullsOk, TickOk, Apart, Known, Consistent, InHand, VisitOk;
  }

  lemma VisitKeepsRowThere(rows: Table, v: Visit, now: Time, id: string)
    ensures id in Perform(rows, VisitStmt(v, now), now) <==> id in rows
    ensures id in rows && Perform(rows, VisitStmt(v, now), now)[id].state.InFlight() ==> rows[id].state.InFlight()
  {
    hide Reason;
  }

  lemma VisitRowStaysOnTime(s: Setup, w: World, done: Time, cur: Time, gap: Time, unit: Time, tight: bool, extra: Time)
    requires Inv(s, w) && Enabled(s, w, VisitStep) && OnTime(w, w.poll.visit.value.id, done, cur, unit, tight, extra)
    requires FitsGap(gap, unit) && w.now <= done + gap
    ensures var v := w.poll.visit.value; var rows' := Perform(w.db.rows, VisitStmt(v, w.now), w.now);
            v.id in rows' && rows'[v.id].state.InFlight() ==>
              match VisitNext(v, w.now)
              case Some(v') => Midway(v', rows'[v.id], done, cur, unit, tight, extra)
              case None => Settled(rows'[v.id], done, unit, tight, extra) && Fresh(rows'[v.id], cur)
  {
    hide Inv, Settled, Fresh, Midway, IsPending, Perform, VisitStmt, VisitNext;
    var v := w.poll.visit.value;
    VisitKeepsRowThere(w.db.rows, v, w.now, v.id);
    if v.id in w.db.rows && w.db.rows[v.id].state.InFlight() {
      HandsAreStarted(s, w, v.id);
      VisitStepsOn(w.db.rows, v, w.now, done, cur, gap, unit, tight, extra);
    }
  }

  // ----- The notifier and crashes -----

  /** A stamp makes a row fresh, and at most a `unit` later than it may have been. */
  lemma StampedIsSettled(r: Row, now: Time, done: Time, cur: Time, gap: Time, unit: Time, tight: bool, extra: Time)
    requires Settled(r, done, unit, tight, extra) && r.pushoverSentAt.None? && FitsGap(gap, unit)
    requires done <= cur <= now <= done + gap
    ensures var r' := r.(pushoverSentAt := Some(now), updatedAt := now);
            Settled(r', done, unit, tight, extra) && Fresh(r', cur)
  {
  }

  lemma StampedIsMidway(v: Visit, r: Row, now: Time, done: Time, cur: Time, gap: Time, unit: Time, tight: bool,
                        extra: Time)
    requires Midway(v, r, done, cur, unit, tight, extra) && r.pushoverSentAt.None? && FitsGap(gap, unit)
    requires r.updatedAt <= now && done <= cur <= now <= done + gap
    ensures Midway(v, r.(pushoverSentAt := Some(now), updatedAt := now), done, cur, unit, tight, extra)
  {
    if v.item.None? || v.pc.NoteIDs? {
      StampedIsSettled(r, now, done, cur, gap, unit, tight, extra);
    }
  }

  lemma NotifyRuns(s: Setup, w: World, target: string, id: string)
    requires Enabled(s, w, Notify(target))
    ensures var w' := NextWorld(s, w, Notify(target));
            && w'.poll == w.poll && w'.now == w.now && w'.born == w.born
            && (id in w'.db.rows <==> id in w.db.rows)
            && (id in w.db.rows ==>
                  var r := w.db.rows[id];
                  w'.db.rows[id] ==
                  if id == target && r.pushoverSentAt.None?
                  then r.(pushoverSentAt := Some(w.now), updatedAt := w.now)
                  else r)
  {
    hide Observe, IsListing, IsPullListing, NextSubs, NextPuller, NextClients;
  }

  lemma NotifyStaysOnTime(s: Setup, w: World, target: string, id: string, done: Time, cur: Time, gap: Time, unit: Time,
                          tight: bool, extra: Time)
    requires Inv(s, w) && Enabled(s, w, Notify(target)) && OnTime(w, id, done, cur, unit, tight, extra)
    requires FitsGap(gap, unit) && w.now <= done + gap
    ensures OnTime(NextWorld(s, w, Notify(target)), id, done, cur, unit, tight, extra)
  {
    hide Enabled, NextWorld, Inv, Settled, Fresh, Midway, IsPending;
    NotifyRuns(s, w, target, id);
    if id in w.db.rows && w.db.rows[id].state.InFlight() && id == target && w.db.rows[id].pushoverSentAt.None? {
      HandsAreStarted(s, w, id);
      if IsVisited(w.poll, id) {
        StampedIsMidway(w.poll.visit.value, w.db.rows[id], w.now, done, cur, gap, unit, tight, extra);
      } else {
        StampedIsSettled(w.db.rows[id], w.now, done, cur, gap, unit, tight, extra);
      }
    }
  }

  /** A visit cut off before it wrote, or before the ceiling, leaves a settled row. */
  lemma CutIsSettled(v: Visit, r: Row, now: Time, done: Time, cur: Time, unit: Time, tight: bool, extra: Time)
    requires Midway(v, r, done, cur, unit, tight, extra) && r.updatedAt <= now && done <= now && unit >= 0
    requires v.item.None? || v.pc.NoteIDs? || now <= Ceiling(r)
    ensures Settled(r, done, unit, tight, extra)
  {
  }

  /** Any other cut costs it one more `unit`. */
  lemma LateCutIsSettled(v: Visit, r: Row, now: Time, done: Time, cur: Time, gap: Time, unit: Time, tight: bool,
                         extra: Time)
    requires Midway(v, r, done, cur, unit, tight, extra) && r.updatedAt <= now <= done + gap && FitsGap(gap, unit)
    requires SameStamps(v, r)
    ensures Settled(r, done, unit, tight, extra + unit)
  {
  }

  lemma CrashRuns(s: Setup, w: World)
    requires Enabled(s, w, Crash)
    ensures var w' := NextWorld(s, w, Crash);
            w'.poll == Poll.Idle && w'.db == w.db && w'.now == w.now && w'.born == w.born
  {
    hide NextSubs, NextPuller, NextClients;
  }

  /** What a step can add to `extra`. */
  function Cost(w: World, a: Action, id: string, unit: Time): Time {
    if CutsOverdueVisit(w, a, id) then unit else 0
  }

  lemma CrashStaysOnTime(s: Setup, w: World, id: string, done: Time, cur: Time, gap: Time, unit: Time, tight: bool,
                         extra: Time)
    requires Inv(s, w) && Enabled(s, w, Crash) && OnTime(w, id, done, cur, unit, tight, extra)
    requires FitsGap(gap, unit) && w.now <= done + gap
    ensures OnTime(NextWorld(s, w, Crash), id, done, cur, unit, tight, extra + Cost(w, Crash, id, unit))
  {
    hide Enabled, NextWorld, Inv, Settled, Fresh, Midway, IsPending, Ceiling;
    CrashRuns(s, w);
    if id in w.db.rows && w.db.rows[id].state.InFlight() && IsVisited(w.poll, id) {
      HandsAreStarted(s, w, id);
      if CutsOverdueVisit(w, Crash, id) {
        LateCutIsSettled(w.poll.visit.value, w.db.rows[id], w.now, done, cur, gap, unit, tight, extra);
      } else {
        CutIsSettled(w.poll.visit.value, w.db.rows[id], w.now, done, cur, unit, tight, extra);
      }
    }
  }

  // ----- Whole runs -----

  lemma StepStaysOnTime(s: Setup, worlds: seq<World>, actions: seq<Action>, gap: Time, n: nat, id: string, unit: Time,
                        tight: bool, extra: Time)
    requires IsRun(s, worlds, actions) && n < |actions| && FitsGap(gap, unit)
    requires IsPolled(worlds, actions, gap, n + 1)
    requires OnTime(worlds[n], id, LastPass(worlds, actions, n), PassBegan(worlds, actions, n), unit, tight, extra)
    ensures OnTime(worlds[n + 1], id, LastPass(worlds, actions, n + 1), PassBegan(worlds, actions, n + 1), unit, tight,
                   extra + Cost(worlds[n], actions[n], id, unit))
  {
    hide OnTime, Enabled, NextWorld, Inv, Completes, InFlightIds, CutsOverdueVisit;
    ReachableInv(s, worlds, actions, n);
    var w, a := worlds[n], actions[n];
    var done, cur := LastPass(worlds, actions, n), PassBegan(worlds, actions, n);
    assert Step(s, w, a, worlds[n + 1]);
    NotComplete(w, a, id);
    if a.BeginPass? {
      BeginPassStaysOnTime(s, w, a.ids, id, done, cur, unit, tight, extra);
    } else if a.BeginVisit? {
      BeginVisitStaysOnTime(s, w, a.item, id, done, cur, unit, tight, extra);
    } else if a.EndPass? {
      EndPassStaysOnTime(s, w, id, done, cur, unit, tight, extra);
    } else if a.VisitStep? {
      VisitStepStaysOnTime(s, w, id, done, cur, gap, unit, tight, extra);
    } else if a.Notify? {
      NotifyStaysOnTime(s, w, a.id, id, done, cur, gap, unit, tight, extra);
    } else if a.Crash? {
      CrashStaysOnTime(s, w, id, done, cur, gap, unit, tight, extra);
    } else {
      OthersStayOnTime(s, w, a, worlds[n + 1], id, done, cur, gap, unit, tight, extra);
    }
  }

  lemma NotComplete(w: World, a: Action, id: string)
    ensures !a.EndPass? ==> !Completes(w, a)
    ensures !a.Crash? ==> !CutsOverdueVisit(w, a, id)
  {
  }

  /** What the cuts from `m` up to `n` cost. */
  function CutTime(worlds: seq<World>, actions: seq<Action>, m: nat, n: nat, id: string, unit: Time): Time
    requires |worlds| == |actions| + 1 && m <= n < |worlds|
  {
    if m == n then 0
    else CutTime(worlds, actions, m, n - 1, id, unit) + Cost(worlds[n - 1], actions[n - 1], id, unit)
  }

  lemma {:induction false} CutTimeIsCount(worlds: seq<World>, actions: seq<Action>, m: nat, n: nat, id: string,
                                          unit: Time)
    requires |worlds| == |actions| + 1 && m <= n < |worlds|
    ensures CutTime(worlds, actions, m, n, id, unit) == OverdueCuts(worlds, actions, m, n, id) * unit
    decreases n
  {
    hide CutsOverdueVisit;
    if m < n {
      CutTimeIsCount(worlds, actions, m, n - 1, id, unit);
    }
  }

  lemma {:induction false} StaysOnTime(s: Setup, worlds: seq<World>, actions: seq<Action>, gap: Time, m: nat, n: nat,
                                       id: string, unit: Time, tight: bool)
    requires IsRun(s, worlds, actions) && m <= n < |worlds| && FitsGap(gap, unit)
    requires IsPolled(worlds, actions, gap, n)
    requires OnTime(worlds[m], id, LastPass(worlds, actions, m), PassBegan(worlds, actions, m), unit, tight, 0)
    ensures OnTime(worlds[n], id, LastPass(worlds, actions, n), PassBegan(worlds, actions, n), unit, tight,
                   CutTime(worlds, actions, m, n, id, unit))
    decreases n
  {
    hide OnTime, Step, Enabled, NextWorld, Genesis, LastPass, PassBegan, Cost;
    if m < n {
      StaysOnTime(s, worlds, actions, gap, m, n - 1, id, unit, tight);
      StepStaysOnTime(s, worlds, actions, gap, n - 1, id, unit, tight, CutTime(worlds, actions, m, n - 1, id, unit));
    }
  }

  lemma OnTimeIsBounded(w: World, id: string, done: Time, cur: Time, unit: Time, tight: bool, extra: Time)
    requires OnTime(w, id, done, cur, unit, tight, extra) && unit >= 0
    requires id in w.db.rows && w.db.rows[id].state.InFlight()
    ensures done <= Ceiling(w.db.rows[id]) + MAX_MISSING + (if tight then 0 else unit) +
                    (if w.db.rows[id].pushoverSentAt.Some? then unit else 0) + extra
  {
    hide IsPending;
  }

  /** How often the window for missing entries may have started afresh after the ceiling. */
  function Windows(r: Row, tight: bool): nat {
    (if tight then 1 else 2) + (if r.pushoverSentAt.Some? then 1 else 0)
  }

  lemma WindowsAdd(r: Row, tight: bool, cuts: nat, unit: Time)
    ensures (Windows(r, tight) + cuts) * unit ==
            unit + (if tight then 0 else unit) + (if r.pushoverSentAt.Some? then unit else 0) + cuts * unit
  {
    assert (Windows(r, tight) + cuts) * unit == Windows(r, tight) * unit + cuts * unit;
  }

  lemma EarlierToo(worlds: seq<World>, actions: seq<Action>, gap: Time, m: nat, n: nat)
    requires |worlds| == |actions| + 1 && m <= n < |worlds|
    requires IsPolled(worlds, actions, gap, n)
    ensures IsPolled(worlds, actions, gap, m)
  {
  }

  lemma LastPassIsRecent(worlds: seq<World>, actions: seq<Action>, gap: Time, n: nat)
    requires |worlds| == |actions| + 1 && n < |worlds| && IsPolled(worlds, actions, gap, n)
    ensures worlds[n].now <= LastPass(worlds, actions, n) + gap
  {
  }

  /**
    Bounded time in flight, in every run: if at any time some completed pass began at most `gap` ago, and no
    pass began with more than 1000 rows in flight, a job in flight got there at most
    24h + 2 * (15min + gap) ago, or 24h + 3 * (15min + gap) if the notifier has stamped it, however its
    entry appeared in and disappeared from TorBox's list and whoever interfered, crashes included: only a
    crash that cuts off a visit of this very job, past its first step and when it is overdue already, adds
    15min + gap.
   */
  lemma BoundedTimeInFlight(s: Setup, worlds: seq<World>, actions: seq<Action>, gap: Time, n: nat, id: string)
    requires IsRun(s, worlds, actions) && n < |worlds| && gap >= 0 && IsPolled(worlds, actions, gap, n)
    requires id in worlds[n].db.rows && worlds[n].db.rows[id].state.InFlight()
    ensures var r := worlds[n].db.rows[id];
            worlds[n].now <= r.InFlightSince() + MAX_POLL +
                             (Windows(r, false) + OverdueCuts(worlds, actions, 0, n, id)) * (MAX_MISSING + gap)
  {
    hide OnTime, Step, Genesis, LastPass, PassBegan, IsPolled, Windows, CutTime, OverdueCuts;
    var unit := MAX_MISSING + gap;
    StartIsOnTime(s, worlds, actions, gap, id);
    StaysOnTime(s, worlds, actions, gap, 0, n, id, unit, false);
    BoundAt(worlds, actions, gap, 0, n, id, unit, false);
  }

  lemma BoundAt(worlds: seq<World>, actions: seq<Action>, gap: Time, m: nat, n: nat, id: string, unit: Time,
                tight: bool)
    requires |worlds| == |actions| + 1 && m <= n < |worlds| && FitsGap(gap, unit) && IsPolled(worlds, actions, gap, n)
    requires OnTime(worlds[n], id, LastPass(worlds, actions, n), PassBegan(worlds, actions, n), unit, tight,
                    CutTime(worlds, actions, m, n, id, unit))
    requires id in worlds[n].db.rows && worlds[n].db.rows[id].state.InFlight()
    ensures var r := worlds[n].db.rows[id];
            worlds[n].now <= r.InFlightSince() + MAX_POLL +
                             (Windows(r, tight) + OverdueCuts(worlds, actions, m, n, id)) * unit
  {
    hide OnTime, LastPass, PassBegan, IsPolled, Windows, CutTime, OverdueCuts;
    OnTimeIsBounded(worlds[n], id, LastPass(worlds, actions, n), PassBegan(worlds, actions, n), unit, tight,
                    CutTime(worlds, actions, m, n, id, unit));
    LastPassIsRecent(worlds, actions, gap, n);
    CutTimeIsCount(worlds, actions, m, n, id, unit);
    WindowsAdd(worlds[n].db.rows[id], tight, OverdueCuts(worlds, actions, m, n, id), unit);
  }

  lemma StartIsOnTime(s: Setup, worlds: seq<World>, actions: seq<Action>, gap: Time, id: string)
    requires IsRun(s, worlds, actions) && gap >= 0
    ensures OnTime(worlds[0], id, LastPass(worlds, actions, 0), PassBegan(worlds, actions, 0), MAX_MISSING + gap,
            false, 0)
  {
  }

  /**
    One window less for a job that was DOWNLOADING before its 24 hours were up, unless a visit was at work on it
    that had begun when it was SUBMITTED.
   */
  lemma BoundedTimeDownloading(s: Setup, worlds: seq<World>, actions: seq<Action>, gap: Time, m: nat, n: nat,
                               id: string)
    requires IsRun(s, worlds, actions) && m <= n < |worlds| && gap >= 0 && IsPolled(worlds, actions, gap, n)
    requires id in worlds[m].db.rows && worlds[m].db.rows[id].state == Downloading
    requires worlds[m].now <= Ceiling(worlds[m].db.rows[id])
    requires IsVisited(worlds[m].poll, id) ==> worlds[m].poll.visit.value.j.state == Downloading
    requires id in worlds[n].db.rows && worlds[n].db.rows[id].state.InFlight()
    ensures var r := worlds[n].db.rows[id];
            worlds[n].now <= r.InFlightSince() + MAX_POLL +
                             (Windows(r, true) + OverdueCuts(worlds, actions, m, n, id)) * (MAX_MISSING + gap)
  {
    hide OnTime, Inv, IsVisited, Step, Genesis, LastPass, PassBegan, IsPolled, Windows, CutTime, OverdueCuts;
    var unit := MAX_MISSING + gap;
    StartIsOnTime(s, worlds, actions, gap, id);
    EarlierToo(worlds, actions, gap, m, n);
    StaysOnTime(s, worlds, actions, gap, 0, m, id, unit, false);
    ReachableInv(s, worlds, actions, m);
    RowsAreBorn(s, worlds[m], id);
    HandsAreStarted(s, worlds[m], id);
    InTimeIsTight(worlds[m], id, LastPass(worlds, actions, m), PassBegan(worlds, actions, m), unit,
                  CutTime(worlds, actions, 0, m, id, unit));
    StaysOnTime(s, worlds, actions, gap, m, n, id, unit, true);
    BoundAt(worlds, actions, gap, m, n, id, unit, true);
  }

  lemma InTimeIsTight(w: World, id: string, done: Time, cur: Time, unit: Time, extra: Time)
    requires OnTime(w, id, done, cur, unit, false, extra) && id in w.born && unit >= 0
    requires id in w.db.rows && w.db.rows[id].state == Downloading
    requires IsVisited(w.poll, id) ==> w.poll.visit.value.j.state == Downloading
    requires w.now <= Ceiling(w.db.rows[id]) && w.db.rows[id].updatedAt <= w.now
    ensures OnTime(w, id, done, cur, unit, true, 0)
  {
    hide IsPending;
  }
}
