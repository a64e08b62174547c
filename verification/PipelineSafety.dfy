/**
  What holds in every reachable state of the pipeline: the retry budget, the trustworthiness of READY,
  the soundness of stall verdicts, and that nobody but the poller moves a job TorBox is working on.
 */
module PipelineSafety {
  import opened Options
  import opened Jobs
  import opened StoreSpec
  import opened PollerSpec
  import opened SubmitterSpec
  import opened Pipeline
  import P = PullerSpec
  import Q = PullerSafety

  // ----- What each holder of a row copy may rely on -----

  /** A row by itself. */
  predicate RowOk(budget: nat, r: Row) {
    && (r.localPath.Some? <==> r.state == Ready)
    && (r.state == Ready ==> r.bytesDownloaded == r.bytesTotal && r.blob.None?)
    && r.attempts <= budget
    && (r.state == New ==> r.attempts < MAX_SUBMIT_ATTEMPTS)
  }

  ghost predicate RowsOk(budget: nat, rows: Table) {
    forall id :: id in rows ==> RowOk(budget, rows[id])
  }

  /** A submission's row is still NEW unless a client canceled it, and nobody else counted an attempt. */
  predicate SubOk(rows: Table, id: string, sub: Submission) {
    && sub.j.attempts < MAX_SUBMIT_ATTEMPTS
    && (id in rows ==>
          && (rows[id].state == New || rows[id].state == Canceled)
          && (sub.Creating? ==> rows[id].attempts == sub.j.attempts)
          && (sub.Releasing? ==> rows[id].state == Canceled))
  }

  ghost predicate SubsOk(rows: Table, subs: map<string, Submission>) {
    forall id :: id in subs ==> SubOk(rows, id, subs[id])
  }

  /** The poller's copy: its row's byte count and stamps have not changed, and it has at most ended. */
  predicate InHand(db: Db, id: string, j: Row) {
    && j.state.InFlight()
    && (id in db.rows ==>
          var r := db.rows[id];
          && id in db.moved && db.moved[id] <= j.updatedAt
          && r.bytesDownloaded == j.bytesDownloaded
          && r.submittedAt == j.submittedAt && r.createdAt == j.createdAt
          && (r.state == j.state || r.state == Failed || r.state == Canceled
              || (j.state == Submitted && r.state == Downloading)))
  }

  predicate PastBegin(pc: Pc) {
    pc.Progress? || pc.Ceilings? || pc.Close?
  }

  predicate VisitOk(db: Db, v: Visit, now: Time) {
    && InHand(db, v.id, v.j)
    && (v.item.Some? ==>
          var it := v.item.value;
          && (PastBegin(v.pc) && v.j.state == Submitted && it.HasStarted() && v.id in db.rows ==>
                db.rows[v.id].state != Submitted)
          && (v.pc.Begin? || PastBegin(v.pc) ==> !it.IsFailure() && !it.IsTerminal())
          && (v.pc.Ceilings? || v.pc.Close? ==> !Moves(v.j, it))
          && (v.pc == Pc.Close(Stalled) ==> IsStalled(v.j, it, now))
          && (v.pc == Pc.Close(TimedOut) ==> IsTimedOut(v.j, now)))
  }

  ghost predicate PollOk(db: Db, poll: Poll, now: Time) {
    poll.Passing? ==>
      && (forall i :: 0 <= i < |poll.todo| ==> InHand(db, poll.todo[i].id, poll.todo[i].row))
      && (forall i, j :: 0 <= i < j < |poll.todo| ==> poll.todo[i].id != poll.todo[j].id)
      && (poll.visit.Some? ==>
            && VisitOk(db, poll.visit.value, now)
            && forall i :: 0 <= i < |poll.todo| ==> poll.todo[i].id != poll.visit.value.id)
  }

  predicate PastTorbox(s: State) {
    s == CompletedTorbox || s == Ready || s == Failed || s == Canceled
  }

  /** A puller's copy lags its row by at most one attempt. */
  predicate PullHand(rows: Table, id: string, j: Row) {
    && j.state == CompletedTorbox
    && (id in rows ==> PastTorbox(rows[id].state) && j.attempts <= rows[id].attempts <= j.attempts + 1)
  }

  predicate Working(phase: P.Phase) {
    phase.Held() && !phase.Leaving?
  }

  ghost predicate PullsOk(rows: Table, pulls: map<nat, P.Pull>) {
    forall pid :: pid in pulls && Working(pulls[pid].phase) ==> PullHand(rows, pulls[pid].id, pulls[pid].row)
  }

  /** While a pull of the same job is still at work, a listed copy does not lag at all. */
  predicate TodoOk(rows: Table, p: P.Puller, l: Listed) {
    && PullHand(rows, l.id, l.row)
    && l.row.localPath.None?
    && (l.id in p.inflight && p.inflight[l.id] in p.pulls && Working(p.pulls[p.inflight[l.id]].phase) &&
        l.id in rows ==>
          rows[l.id].attempts == l.row.attempts)
  }

  ghost predicate TickOk(rows: Table, p: P.Puller) {
    p.tick.Filling? ==>
      && (forall i :: 0 <= i < |p.tick.todo| ==> TodoOk(rows, p, p.tick.todo[i]))
      && (forall i, j :: 0 <= i < j < |p.tick.todo| ==> p.tick.todo[i].id != p.tick.todo[j].id)
  }

  /** No job is with the submitter and the puller at once. */
  ghost predicate Apart(subs: map<string, Submission>, p: P.Puller) {
    && (forall pid :: pid in p.pulls && Working(p.pulls[pid].phase) ==> p.pulls[pid].id !in subs)
    && (p.tick.Filling? ==> forall i :: 0 <= i < |p.tick.todo| ==> p.tick.todo[i].id !in subs)
  }

  // Ids are never reused, so a copy never meets a stranger under its id.

  ghost predicate PullerKnown(born: set<string>, p: P.Puller) {
    && (forall pid :: pid in p.pulls ==> p.pulls[pid].id in born)
    && (p.tick.Filling? ==> forall i :: 0 <= i < |p.tick.todo| ==> p.tick.todo[i].id in born)
  }

  ghost predicate PollKnown(born: set<string>, poll: Poll) {
    poll.Passing? ==>
      && (forall i :: 0 <= i < |poll.todo| ==> poll.todo[i].id in born)
      && (poll.visit.Some? ==> poll.visit.value.id in born)
  }

  ghost predicate Known(w: World) {
    w.subs.Keys <= w.born && PullerKnown(w.born, w.puller) && PollKnown(w.born, w.poll)
  }

  ghost predicate Stamped(rows: Table, now: Time) {
    forall id :: id in rows ==> rows[id].updatedAt <= now
  }

  ghost predicate Inv(s: Setup, w: World) {
    && Consistent(w.db, w.born) && Stamped(w.db.rows, w.now)
    && RowsOk(s.Budget(), w.db.rows)
    && SubsOk(w.db.rows, w.subs)
    && PollOk(w.db, w.poll, w.now)
    && Q.Sound(s.pull, w.puller) && PullsOk(w.db.rows, w.puller.pulls) && TickOk(w.db.rows, w.puller)
    && Apart(w.subs, w.puller)
    && Known(w)
  }

  // ----- Statements that disturb nobody -----

  /** What such a statement may do to a row: cancel it, or touch columns nobody's reasoning depends on. */
  predicate Mild(r: Row, r': Row) {
    && r'.attempts == r.attempts && r'.bytesDownloaded == r.bytesDownloaded && r'.bytesTotal == r.bytesTotal
    && r'.submittedAt == r.submittedAt && r'.createdAt == r.createdAt
    && r'.localPath == r.localPath && r'.blob == r.blob
    && (r'.state == r.state || (r'.state == Canceled && !r.state.Terminal()))
  }

  ghost predicate MildTable(rows: Table, rows': Table) {
    forall id :: id in rows' ==> id in rows && Mild(rows[id], rows'[id])
  }

  predicate IsMild(rows: Table, s: Stmt) {
    match s
    case Claim(_) => true
    case Release(_) => true
    case Reschedule(_, _, _) => true
    case SetTorboxIDs(_, _, _) => true
    case MarkPushoverSent(_) => true
    case Delete(_) => true
    case Reap(_) => true
    case Transition(id, c) =>
      !Matches(rows, id, c) || (c.to == Canceled && !c.incAttempts && !c.clearBlob)
    case MarkLocalReady(id, _, _) => !Completed(rows, id)
    case _ => false
  }

  lemma MildStatement(rows: Table, s: Stmt, now: Time)
    requires IsMild(rows, s)
    ensures MildTable(rows, Apply(rows, s, now))
  {
  }

  lemma MildKeepsRows(budget: nat, rows: Table, rows': Table)
    requires RowsOk(budget, rows) && MildTable(rows, rows')
    ensures RowsOk(budget, rows')
  {
  }

  lemma MildKeepsSubs(rows: Table, rows': Table, subs: map<string, Submission>)
    requires SubsOk(rows, subs) && MildTable(rows, rows')
    ensures SubsOk(rows', subs)
  {
  }

  /** What the poller's copies need from a step of somebody else. */
  ghost predicate Unmoved(db: Db, db': Db) {
    MildTable(db.rows, db'.rows) &&
    forall id :: id in db'.rows && id in db.moved ==> id in db'.moved && db'.moved[id] == db.moved[id]
  }

  lemma MildIsUnmoved(db: Db, s: Stmt, now: Time)
    requires IsMild(db.rows, s)
    ensures Unmoved(db, Exec(db, s, now))
  {
    MildStatement(db.rows, s, now);
    hide Apply, IsMild;
  }

  lemma UnmovedKeepsPoll(db: Db, db': Db, poll: Poll, now: Time)
    requires PollOk(db, poll, now) && Unmoved(db, db')
    ensures PollOk(db', poll, now)
  {
    if poll.Passing? {
      forall i | 0 <= i < |poll.todo|
        ensures InHand(db', poll.todo[i].id, poll.todo[i].row)
      {
        UnmovedKeepsHand(db, db', poll.todo[i].id, poll.todo[i].row);
      }
      if poll.visit.Some? {
        UnmovedKeepsHand(db, db', poll.visit.value.id, poll.visit.value.j);
      }
    }
    hide InHand;
  }

  lemma UnmovedKeepsHand(db: Db, db': Db, id: string, j: Row)
    requires InHand(db, id, j) && Unmoved(db, db')
    ensures InHand(db', id, j)
  {
  }

  lemma MildKeepsPulls(rows: Table, rows': Table, p: P.Puller)
    requires PullsOk(rows, p.pulls) && TickOk(rows, p) && MildTable(rows, rows')
    ensures PullsOk(rows', p.pulls) && TickOk(rows', p)
  {
  }

  // ----- Statements that change one job's fate -----

  /** Only row `id` differs. */
  ghost predicate OnlyRow(rows: Table, rows': Table, id: string) {
    && rows'.Keys == rows.Keys
    && (forall j :: j in rows && j != id ==> rows'[j] == rows[j])
  }

  /** ... and only its byte count may have moved. */
  ghost predicate OnlyMoved(db: Db, db': Db, id: string) {
    && OnlyRow(db.rows, db'.rows, id)
    && (forall j :: j in db'.rows && j != id && j in db.moved ==> j in db'.moved && db'.moved[j] == db.moved[j])
  }

  function Target(s: Stmt): Option<string> {
    match s
    case Transition(id, _) => Some(id)
    case MarkLocalReady(id, _, _) => Some(id)
    case Release(id) => Some(id)
    case AttemptFailure(id, _, _) => Some(id)
    case Reschedule(id, _, _) => Some(id)
    case SetLocalProgress(id, _, _) => Some(id)
    case SetTorboxIDs(id, _, _) => Some(id)
    case MarkPushoverSent(id) => Some(id)
    case _ => None
  }

  lemma TargetIsOnlyRow(db: Db, s: Stmt, now: Time)
    requires Target(s).Some?
    ensures OnlyMoved(db, Exec(db, s, now), Target(s).value)
  {
  }

  lemma OthersInHand(db: Db, db': Db, id: string, j: string, copy: Row)
    requires OnlyMoved(db, db', id) && j != id && InHand(db, j, copy)
    ensures InHand(db', j, copy)
  {
  }

  /** Row `id` changes for nobody's worse: no copy of it is at hand whose reading the change would spoil. */
  lemma PollSurvives(db: Db, db': Db, id: string, poll: Poll, now: Time)
    requires PollOk(db, poll, now) && OnlyMoved(db, db', id)
    requires forall copy: Row :: InHand(db, id, copy) ==> InHand(db', id, copy)
    requires forall v: Visit :: v.id == id && VisitOk(db, v, now) ==> VisitOk(db', v, now)
    ensures PollOk(db', poll, now)
  {
    if poll.Passing? {
      forall i | 0 <= i < |poll.todo|
        ensures InHand(db', poll.todo[i].id, poll.todo[i].row)
      {
        if poll.todo[i].id != id {
          OthersInHand(db, db', id, poll.todo[i].id, poll.todo[i].row);
        }
      }
      if poll.visit.Some? && poll.visit.value.id != id {
        OthersInHand(db, db', id, poll.visit.value.id, poll.visit.value.j);
      }
    }
    hide InHand;
  }

  /** A row that leaves its state only for an end, and keeps count and stamps, spoils no poller's copy. */
  lemma EndingSparesPoll(db: Db, db': Db, id: string, poll: Poll, now: Time)
    requires PollOk(db, poll, now) && OnlyMoved(db, db', id)
    requires id in db.rows ==>
               var r, r' := db.rows[id], db'.rows[id];
               && (r'.state == r.state || !(r.state.InFlight() || r.state == Failed || r.state == Canceled))
               && (r'.state == r.state ==>
                     && r'.bytesDownloaded == r.bytesDownloaded
                     && r'.submittedAt == r.submittedAt && r'.createdAt == r.createdAt
                     && (id in db.moved ==> id in db'.moved && db'.moved[id] == db.moved[id]))
    ensures PollOk(db', poll, now)
  {
    PollSurvives(db, db', id, poll, now);
  }

  /** Columns every statement outside the poller and MarkLocalReady leaves alone. */
  predicate SameFiles(r: Row, r': Row) {
    && r'.localPath == r.localPath && r'.blob == r.blob && r'.createdAt == r.createdAt
    && r'.bytesDownloaded == r.bytesDownloaded && r'.bytesTotal == r.bytesTotal
  }

  // ----- Add -----

  lemma AddKeeps(s: Setup, w: World, id: string, job: NewJob)
    requires Inv(s, w) && Enabled(s, w, Add(id, job))
    ensures var db := Exec(w.db, Insert(id, job), w.now);
            && RowsOk(s.Budget(), db.rows) && SubsOk(db.rows, w.subs)
            && PullsOk(db.rows, w.puller.pulls) && TickOk(db.rows, w.puller)
  {
    hide Consistent, Q.Sound, PollOk, Apart, Claimable;
  }

  lemma AddKeepsPoll(s: Setup, w: World, id: string, job: NewJob)
    requires Inv(s, w) && Enabled(s, w, Add(id, job))
    ensures PollOk(Exec(w.db, Insert(id, job), w.now), w.poll, w.now)
  {
    hide Consistent, Q.Sound, Apart, SubsOk, RowsOk, PullsOk, TickOk, Claimable;
    var db := Exec(w.db, Insert(id, job), w.now);
    forall j, copy: Row | j in w.born && InHand(w.db, j, copy)
      ensures InHand(db, j, copy)
    {
    }
  }

  // ----- The submitter -----

  /** How a submission's closing statement leaves its row. */
  lemma SubmitOutcome(rows: Table, id: string, j: Row, reply: Reply, now: Time)
    requires id in rows && SubOk(rows, id, Creating(j))
    ensures var stmt := SubmitStmt(id, j, reply, now); var r, r' := rows[id], Apply(rows, stmt, now)[id];
            && Target(stmt) == Some(id) && id in Apply(rows, stmt, now)
            && SameFiles(r, r')
            && r'.attempts <= MAX_SUBMIT_ATTEMPTS && (r'.state == New ==> r'.attempts < MAX_SUBMIT_ATTEMPTS)
            && (r'.state == r.state || (r.state == New && (r'.state == Submitted || r'.state == Failed)))
            && (r'.state == r.state ==> r'.submittedAt == r.submittedAt)
  {
  }

  lemma SubmitTargets(id: string, j: Row, reply: Reply, now: Time)
    ensures Target(SubmitStmt(id, j, reply, now)) == Some(id)
  {
  }

  /** A lost race changes nothing: the row was canceled or is gone. */
  lemma LostRaceIsQuiet(w: World, id: string, reply: Reply)
    requires id in w.subs && w.subs[id].Creating? && SubOk(w.db.rows, id, w.subs[id]) && LostRace(w, id, reply)
    ensures Apply(w.db.rows, SubmitStmt(id, w.subs[id].j, reply, w.now), w.now) == w.db.rows
    ensures SubOk(w.db.rows, id, Releasing(w.subs[id].j))
  {
  }

  lemma AnswerKeepsRows(s: Setup, w: World, id: string, reply: Reply)
    requires Inv(s, w) && Enabled(s, w, Answer(id, reply))
    ensures RowsOk(s.Budget(), Apply(w.db.rows, SubmitStmt(id, w.subs[id].j, reply, w.now), w.now))
  {
    hide Consistent, Q.Sound, PollOk, PullsOk, TickOk, Apart, Known, Apply, SubmitStmt, Fires, Observe, SubOk;
    var stmt := SubmitStmt(id, w.subs[id].j, reply, w.now);
    SubmitTargets(id, w.subs[id].j, reply, w.now);
    TargetIsOnlyRow(w.db, stmt, w.now);
    if id in w.db.rows {
      SubmitOutcome(w.db.rows, id, w.subs[id].j, reply, w.now);
    }
  }

  lemma AnswerKeepsSubs(s: Setup, w: World, id: string, reply: Reply)
    requires Inv(s, w) && Enabled(s, w, Answer(id, reply))
    ensures var rows := Apply(w.db.rows, SubmitStmt(id, w.subs[id].j, reply, w.now), w.now);
            SubsOk(rows, NextSubs(s, w, Answer(id, reply), rows))
  {
    hide Consistent, Q.Sound, PollOk, PullsOk, TickOk, Apart, Known, LostRace, RowsOk;
    var stmt := SubmitStmt(id, w.subs[id].j, reply, w.now);
    SubmitTargets(id, w.subs[id].j, reply, w.now);
    TargetIsOnlyRow(w.db, stmt, w.now);
    if LostRace(w, id, reply) {
      LostRaceIsQuiet(w, id, reply);
    }
    hide Apply, SubmitStmt, Fires, Observe;
  }

  lemma AnswerKeepsPoll(s: Setup, w: World, id: string, reply: Reply)
    requires Inv(s, w) && Enabled(s, w, Answer(id, reply))
    ensures PollOk(Exec(w.db, SubmitStmt(id, w.subs[id].j, reply, w.now), w.now), w.poll, w.now)
  {
    hide Consistent, Q.Sound, PullsOk, TickOk, Apart, Known, LostRace, PollOk;
    var stmt := SubmitStmt(id, w.subs[id].j, reply, w.now);
    SubmitTargets(id, w.subs[id].j, reply, w.now);
    TargetIsOnlyRow(w.db, stmt, w.now);
    assert SubOk(w.db.rows, id, w.subs[id]);
    if id in w.db.rows {
      SubmitOutcome(w.db.rows, id, w.subs[id].j, reply, w.now);
    }
    hide Apply, SubmitStmt;
    EndingSparesPoll(w.db, Exec(w.db, stmt, w.now), id, w.poll, w.now);
  }

  /** Nothing the puller holds is with the submitter, so the puller's copies are not concerned. */
  lemma OtherPullHands(rows: Table, rows': Table, id: string, p: P.Puller)
    requires PullsOk(rows, p.pulls) && TickOk(rows, p) && OnlyRow(rows, rows', id)
    requires forall pid :: pid in p.pulls && Working(p.pulls[pid].phase) ==> p.pulls[pid].id != id
    requires p.tick.Filling? ==> forall i :: 0 <= i < |p.tick.todo| ==> p.tick.todo[i].id != id
    ensures PullsOk(rows', p.pulls) && TickOk(rows', p)
  {
  }

  lemma AnswerKeepsPulls(s: Setup, w: World, id: string, reply: Reply)
    requires Inv(s, w) && Enabled(s, w, Answer(id, reply))
    ensures var rows := Apply(w.db.rows, SubmitStmt(id, w.subs[id].j, reply, w.now), w.now);
            PullsOk(rows, w.puller.pulls) && TickOk(rows, w.puller)
  {
    hide Consistent, Q.Sound, PollOk, PullsOk, TickOk, Known, SubsOk, RowsOk;
    var stmt := SubmitStmt(id, w.subs[id].j, reply, w.now);
    SubmitTargets(id, w.subs[id].j, reply, w.now);
    TargetIsOnlyRow(w.db, stmt, w.now);
    hide Apply, SubmitStmt;
    OtherPullHands(w.db.rows, Exec(w.db, stmt, w.now).rows, id, w.puller);
  }

  // ----- Mild actions: clients, the notifier, the reaper, claims and releases -----

  lemma MildKeeps(s: Setup, w: World, stmt: Stmt)
    requires Inv(s, w) && IsMild(w.db.rows, stmt)
    ensures var db := Exec(w.db, stmt, w.now);
            && RowsOk(s.Budget(), db.rows) && SubsOk(db.rows, w.subs)
            && PollOk(db, w.poll, w.now)
            && PullsOk(db.rows, w.puller.pulls) && TickOk(db.rows, w.puller)
  {
    var db := Exec(w.db, stmt, w.now);
    MildStatement(w.db.rows, stmt, w.now);
    MildIsUnmoved(w.db, stmt, w.now);
    hide Apply, Fires, Observe, IsMild, Consistent, Q.Sound, RowsOk, SubsOk, PollOk, PullsOk, TickOk, Apart, Known,
         MildTable, Unmoved;
    MildKeepsRows(s.Budget(), w.db.rows, db.rows);
    MildKeepsSubs(w.db.rows, db.rows, w.subs);
    UnmovedKeepsPoll(w.db, db, w.poll, w.now);
    MildKeepsPulls(w.db.rows, db.rows, w.puller);
  }

  lemma CancelIsMild(rows: Table, l: Listed, now: Time)
    ensures IsMild(rows, CancelStmt(l, now))
  {
  }

  /** A claimed row is NEW, so neither the poller nor the puller holds a copy of it. */
  lemma ClaimedAreApart(s: Setup, w: World, ids: seq<string>, subs: map<string, Submission>)
    requires Inv(s, w)
    requires forall id :: id in ids ==> id in w.db.rows && w.db.rows[id].state == New
    requires forall id :: id in subs ==> id in ids
    ensures Apart(subs, w.puller) && subs.Keys <= w.born
  {
    hide Q.Sound, PollOk, SubsOk, RowsOk, Known;
  }

  lemma ClaimedAreOk(budget: nat, rows: Table, ids: seq<string>, now: Time)
    requires RowsOk(budget, rows)
    requires forall id :: id in ids ==> id in rows && rows[id].state == New
    ensures var rows' := Apply(rows, Claim(ids), now);
            SubsOk(rows', map id | id in ids && id in rows' :: Creating(rows'[id]))
  {
  }

  lemma ClaimKeeps(s: Setup, w: World, ids: seq<string>)
    requires Inv(s, w) && Enabled(s, w, ClaimNew(ids))
    ensures var rows := Apply(w.db.rows, Claim(ids), w.now); var subs := NextSubs(s, w, ClaimNew(ids), rows);
            SubsOk(rows, subs) && Apart(subs, w.puller) && subs.Keys <= w.born
  {
    assert forall id :: id in ids ==> id in w.db.rows && w.db.rows[id].state == New by {
      hide Inv, Due;
    }
    ClaimedAreOk(s.Budget(), w.db.rows, ids, w.now);
    hide Claimable, IsListing, Apply, Enabled;
    var rows := Apply(w.db.rows, Claim(ids), w.now);
    ClaimedAreApart(s, w, ids, map id | id in ids && id in rows :: Creating(rows[id]));
    hide Inv, Apart, SubsOk;
  }

  lemma GiveBackKeeps(s: Setup, w: World, id: string)
    requires Inv(s, w) && Enabled(s, w, GiveBack(id))
    ensures SubsOk(Apply(w.db.rows, Release(id), w.now), w.subs - {id}) && Apart(w.subs - {id}, w.puller)
  {
    MildKeeps(s, w, Release(id));
    hide Apply, Consistent, Q.Sound, PollOk, PullsOk, TickOk, SubOk;
  }

  // ----- The poller -----

  lemma BeginPassKeeps(s: Setup, w: World, ids: seq<string>)
    requires Inv(s, w) && Enabled(s, w, BeginPass(ids))
    ensures PollOk(w.db, Passing(Snapshots(w.db.rows, ids), None), w.now)
    ensures PollKnown(w.born, Passing(Snapshots(w.db.rows, ids), None))
  {
    hide Q.Sound, PollOk, PullsOk, TickOk, Apart, SubsOk, RowsOk;
    var todo := Snapshots(w.db.rows, ids);
    forall i | 0 <= i < |todo|
      ensures InHand(w.db, todo[i].id, todo[i].row) && todo[i].id in w.born
    {
      assert todo[i] == Listed(ids[i], w.db.rows[ids[i]]);
    }
    hide InHand, Consistent, Known;
    assert forall i, j :: 0 <= i < j < |todo| ==> todo[i].id != todo[j].id;
    assert PollOk(w.db, Passing(todo, None), w.now) by { PollOkOfTodo(w.db, todo, w.now); }
  }

  lemma PollOkOfTodo(db: Db, todo: seq<Listed>, now: Time)
    requires forall i :: 0 <= i < |todo| ==> InHand(db, todo[i].id, todo[i].row)
    requires forall i, j :: 0 <= i < j < |todo| ==> todo[i].id != todo[j].id
    ensures PollOk(db, Passing(todo, None), now)
  {
  }

  lemma BeginVisitKeeps(db: Db, poll: Poll, item: Option<Item>, now: Time)
    requires PollOk(db, poll, now) && poll.Passing? && poll.visit.None? && poll.todo != []
    ensures PollOk(db, Passing(poll.todo[1..], Some(Start(poll.todo[0], item))), now)
  {
    hide InHand;
  }

  /** A step of a visit that issues no statement. */
  lemma QuietVisitKeeps(db: Db, v: Visit, now: Time)
    requires VisitOk(db, v, now) && VisitStmt(v, now).None? && VisitNext(v, now).Some?
    requires v.id in db.rows ==> v.id in db.moved
    ensures VisitOk(db, VisitNext(v, now).value, now)
  {
  }

  /** What a visit may do to its row. */
  predicate VisitedRow(r: Row, r': Row) {
    && r'.attempts == r.attempts && r'.localPath == r.localPath && r'.blob == r.blob
    && (r'.state == r.state
        || (r.state.InFlight() && (r'.state == Downloading || r'.state == CompletedTorbox || r'.state == Failed)))
    && (r.state == Failed || r.state == Canceled || r.state.InFlight())
  }

  lemma VisitOutcome(db: Db, v: Visit, now: Time)
    requires v.id in db.rows && VisitOk(db, v, now) && VisitStmt(v, now).Some?
    ensures var stmt := VisitStmt(v, now).value; var rows' := Apply(db.rows, stmt, now);
            Target(stmt) == Some(v.id) && v.id in rows' && VisitedRow(db.rows[v.id], rows'[v.id])
  {
    hide LearnsIDs, NewActiveID, NewFolder, IsLost, IsStalled, IsTimedOut, Reason, Text.HasAnyPrefix, Text.Lower, Moves;
  }

  lemma VisitTargets(v: Visit, now: Time)
    requires VisitStmt(v, now).Some?
    ensures Target(VisitStmt(v, now).value) == Some(v.id)
  {
  }

  /** The visit goes on from a statement: its copy still matches the row. */
  lemma LoudVisitKeeps(db: Db, v: Visit, now: Time)
    requires VisitOk(db, v, now) && VisitStmt(v, now).Some? && VisitNext(v, now).Some?
    requires v.id in db.rows ==> v.id in db.moved
    ensures VisitOk(Exec(db, VisitStmt(v, now).value, now), VisitNext(v, now).value, now)
  {
    hide LearnsIDs, NewActiveID, NewFolder, IsLost, Reason;
  }

  lemma VisitKeepsPoll(s: Setup, w: World)
    requires Inv(s, w) && Enabled(s, w, VisitStep)
    ensures PollOk(NextDb(s, w, VisitStep), NextPoll(s, w, VisitStep), w.now)
  {
    hide Apply, Fires, Observe, VisitStmt, VisitNext, Q.Sound, PullsOk, TickOk, Apart, SubsOk, RowsOk, Known, VisitOk,
         Chained, Latest, IsListing, IsPullListing;
    var v := w.poll.visit.value;
    if VisitNext(v, w.now).Some? {
      if VisitStmt(v, w.now).Some? {
        LoudVisitKeeps(w.db, v, w.now);
      } else {
        QuietVisitKeeps(w.db, v, w.now);
      }
    }
    if VisitStmt(v, w.now).Some? {
      VisitTargets(v, w.now);
      TargetIsOnlyRow(w.db, VisitStmt(v, w.now).value, w.now);
    }
    VisitIdStays(v, w.now);
    var db, poll := NextDb(s, w, VisitStep), NextPoll(s, w, VisitStep);
    forall i | 0 <= i < |poll.todo|
      ensures InHand(db, poll.todo[i].id, poll.todo[i].row)
    {
      if db != w.db {
        OthersInHand(w.db, db, v.id, poll.todo[i].id, poll.todo[i].row);
      }
    }
    hide InHand;
  }

  lemma VisitIdStays(v: Visit, now: Time)
    ensures VisitNext(v, now).Some? ==> VisitNext(v, now).value.id == v.id
  {
  }

  lemma VisitedKeepsRows(budget: nat, rows: Table, rows': Table, id: string, subs: map<string, Submission>)
    requires RowsOk(budget, rows) && SubsOk(rows, subs) && OnlyRow(rows, rows', id)
    requires id in rows ==> VisitedRow(rows[id], rows'[id])
    ensures RowsOk(budget, rows') && SubsOk(rows', subs)
  {
  }

  lemma VisitedKeepsPulls(rows: Table, rows': Table, id: string, p: P.Puller)
    requires PullsOk(rows, p.pulls) && TickOk(rows, p) && OnlyRow(rows, rows', id)
    requires id in rows ==> VisitedRow(rows[id], rows'[id])
    ensures PullsOk(rows', p.pulls) && TickOk(rows', p)
  {
  }

  lemma VisitKeepsRest(s: Setup, w: World)
    requires Inv(s, w) && Enabled(s, w, VisitStep)
    ensures var rows := NextDb(s, w, VisitStep).rows;
            && RowsOk(s.Budget(), rows) && SubsOk(rows, w.subs)
            && PullsOk(rows, w.puller.pulls) && TickOk(rows, w.puller)
  {
    var v := w.poll.visit.value;
    if VisitStmt(v, w.now).Some? {
      VisitTargets(v, w.now);
      TargetIsOnlyRow(w.db, VisitStmt(v, w.now).value, w.now);
      if v.id in w.db.rows {
        VisitOutcome(w.db, v, w.now);
      }
      hide Apply, VisitStmt, Consistent, Q.Sound, PollOk, Apart, Known, RowsOk, SubsOk, PullsOk, TickOk, Fires, Observe;
      var rows := NextDb(s, w, VisitStep).rows;
      VisitedKeepsRows(s.Budget(), w.db.rows, rows, v.id, w.subs);
      VisitedKeepsPulls(w.db.rows, rows, v.id, w.puller);
    }
  }

  // ----- The puller -----

  /** No pull starts and nothing is listed; a pull may stop working. */
  ghost predicate Calm(p: P.Puller, p': P.Puller) {
    && (p'.tick.Filling? ==> p'.tick == p.tick)
    && (forall pid :: pid in p'.pulls ==>
          && pid in p.pulls && p'.pulls[pid].id == p.pulls[pid].id && p'.pulls[pid].row == p.pulls[pid].row
          && (Working(p'.pulls[pid].phase) ==> Working(p.pulls[pid].phase)))
    && (forall id :: id in p'.inflight ==> id in p.inflight && p'.inflight[id] == p.inflight[id])
  }

  lemma CalmKeeps(rows: Table, subs: map<string, Submission>, p: P.Puller, p': P.Puller)
    requires PullsOk(rows, p.pulls) && TickOk(rows, p) && Apart(subs, p) && Calm(p, p')
    ensures PullsOk(rows, p'.pulls) && TickOk(rows, p') && Apart(subs, p')
  {
  }

  lemma MovedIsCalm(p: P.Puller, pid: nat, phase: P.Phase)
    requires pid in p.pulls && (Working(p.pulls[pid].phase) || !Working(phase))
    ensures Calm(p, P.Moved(p, pid, p.pulls[pid].(phase := phase)))
  {
  }

  lemma BuildIsCalm(c: P.Config, p: P.Puller, pid: nat, built: P.Built)
    requires Q.Sound(c, p) && pid in p.pulls && p.pulls[pid].phase.Build?
    ensures Calm(p, P.AfterBuild(p, pid, p.pulls[pid], built))
  {
    hide Q.Sound, P.SetDir, P.History;
    if built.Files? {
      hide P.AfterBuild;
      Q.BuildRecordsItsDir(c, p, pid, built.dir);
    }
  }

  lemma AbortIsCalm(p: P.Puller, caller: nat, id: string)
    ensures Calm(p, P.AbortBegun(p, caller, id))
  {
  }

  lemma NoteIsCalm(p: P.Puller, pid: nat, now: Time)
    requires pid in p.pulls && p.pulls[pid].phase.Await?
    ensures Calm(p, P.AfterNote(p, pid, p.pulls[pid], now))
  {
    hide P.History;
  }

  lemma WriteIsCalm(c: P.Config, p: P.Puller, pid: nat, now: Time)
    requires pid in p.pulls && p.pulls[pid].phase.Writing()
    ensures Calm(p, P.AfterWrite(c, p, pid, p.pulls[pid], now))
  {
    hide P.History, P.GivesUp;
  }

  lemma StepIsCalm(c: P.Config, p: P.Puller, a: P.Action, now: Time)
    requires Q.Sound(c, p) && P.Enabled(c, p, a) && !a.List? && !a.Consider?
    ensures Calm(p, P.PullStep(c, p, a, now))
  {
    hide P.Moved, P.AfterBuild, P.AfterNote, P.AfterWrite, P.AbortBegun, P.Aborted, P.AfterFind, P.AfterRun, Q.Sound;
    match a
    case FindDone(pid, found) =>
      MovedIsCalm(p, pid, if P.Aborted(p, p.pulls[pid].id) then P.Leaving else P.AfterFind(found));
    case BuildDone(pid, built) =>
      MovedIsCalm(p, pid, P.Leaving);
      BuildIsCalm(c, p, pid, built);
    case FileBegin(pid) => MovedIsCalm(p, pid, P.Download(p.pulls[pid].phase.running + 1));
    case FileEnd(pid) => MovedIsCalm(p, pid, P.Download(p.pulls[pid].phase.running - 1));
    case DownloadDone(pid, ran) =>
      MovedIsCalm(p, pid, if P.Aborted(p, p.pulls[pid].id) then P.Leaving else P.AfterRun(ran));
    case NoteArchives(pid) => NoteIsCalm(p, pid, now);
    case Write(pid) => WriteIsCalm(c, p, pid, now);
    case Forget(pid) => ForgetIsCalm(p, pid);
    case CloseDone(pid) => MovedIsCalm(p, pid, P.Exited);
    case AbortBegin(caller, id) => AbortIsCalm(p, caller, id);
    case Count => assert Calm(p, P.PullStep(c, p, a, now));
    case AbortReturn(_, _) => assert Calm(p, P.PullStep(c, p, a, now));
    case Restart => assert Calm(p, P.PullStep(c, p, a, now));
    case _ =>
  }

  lemma ForgetIsCalm(p: P.Puller, pid: nat)
    requires pid in p.pulls
    ensures Calm(p, P.Moved(p.(inflight := p.inflight - {p.pulls[pid].id}), pid, p.pulls[pid].(phase := P.Forgotten)))
  {
  }

  /** How a pull's closing statement leaves its row. */
  predicate PulledRow(c: P.Config, r: Row, r': Row) {
    && (r'.attempts == r.attempts || (r'.attempts == r.attempts + 1 && r'.attempts <= c.maxRetries))
    && (r'.state == r.state || (r.state == CompletedTorbox && (r'.state == Ready || r'.state == Failed)))
    && (r'.state == r.state ==> SameFiles(r, r') && r'.submittedAt == r.submittedAt)
    && (r'.state == Ready && r.state != Ready ==>
          r'.localPath.Some? && r'.bytesDownloaded == r'.bytesTotal && r'.blob.None?)
    && (r'.state == Failed ==> r'.localPath == r.localPath)
  }

  lemma PullOutcome(c: P.Config, rows: Table, id: string, j: Row, phase: P.Phase, now: Time)
    requires id in rows && PullHand(rows, id, j) && P.PhaseStmt(c, id, j, phase, now).Some?
    ensures var rows' := Apply(rows, P.PhaseStmt(c, id, j, phase, now).value, now);
            id in rows' && PulledRow(c, rows[id], rows'[id])
  {
  }

  lemma PullTargets(c: P.Config, id: string, j: Row, phase: P.Phase, now: Time)
    requires P.PhaseStmt(c, id, j, phase, now).Some?
    ensures Target(P.PhaseStmt(c, id, j, phase, now).value) == Some(id)
  {
  }

  lemma PulledKeepsRows(s: Setup, rows: Table, rows': Table, id: string, subs: map<string, Submission>)
    requires RowsOk(s.Budget(), rows) && SubsOk(rows, subs) && OnlyRow(rows, rows', id) && id !in subs
    requires id in rows ==> PulledRow(s.pull, rows[id], rows'[id]) && PastTorbox(rows[id].state)
    ensures RowsOk(s.Budget(), rows') && SubsOk(rows', subs)
  {
  }

  lemma PulledKeepsPulls(c: P.Config, rows: Table, rows': Table, p: P.Puller, pid: nat, p': P.Puller)
    requires PullsOk(rows, p.pulls) && TickOk(rows, p) && Q.Sound(c, p)
    requires pid in p.pulls && Working(p.pulls[pid].phase) && Calm(p, p')
    requires pid in p'.pulls ==> !Working(p'.pulls[pid].phase)
    requires OnlyRow(rows, rows', p.pulls[pid].id)
    requires p.pulls[pid].id in rows ==> PulledRow(c, rows[p.pulls[pid].id], rows'[p.pulls[pid].id])
    ensures PullsOk(rows', p'.pulls) && TickOk(rows', p')
  {
    hide Q.Numbered, Q.Awaited, Q.PullsOk, Q.Entries;
    var id := p.pulls[pid].id;
    assert p.inflight[id] == pid;
    forall q | q in p'.pulls && Working(p'.pulls[q].phase)
      ensures PullHand(rows', p'.pulls[q].id, p'.pulls[q].row)
    {
      assert p.inflight[p.pulls[q].id] == q;
    }
  }

  lemma WriteMoves(c: P.Config, p: P.Puller, pid: nat, now: Time)
    requires pid in p.pulls && p.pulls[pid].phase.Writing()
    ensures var p' := P.AfterWrite(c, p, pid, p.pulls[pid], now);
            pid in p'.pulls && p'.pulls[pid].phase.Leaving?
  {
  }

  lemma WriteKeeps(s: Setup, w: World, pid: nat)
    requires s.Valid() && Inv(s, w) && P.Enabled(s.pull, w.puller, P.Write(pid))
    ensures var x := w.puller.pulls[pid]; var stmt := P.PhaseStmt(s.pull, x.id, x.row, x.phase, w.now);
            stmt.Some? &&
            var db := Exec(w.db, stmt.value, w.now); var p' := P.AfterWrite(s.pull, w.puller, pid, x, w.now);
            && RowsOk(s.Budget(), db.rows) && SubsOk(db.rows, w.subs) && PollOk(db, w.poll, w.now)
            && PullsOk(db.rows, p'.pulls) && TickOk(db.rows, p') && Apart(w.subs, p')
  {
    var x := w.puller.pulls[pid];
    var stmt := P.PhaseStmt(s.pull, x.id, x.row, x.phase, w.now);
    assert stmt.Some?;
    var db := Exec(w.db, stmt.value, w.now);
    var p' := P.AfterWrite(s.pull, w.puller, pid, x, w.now);
    PullTargets(s.pull, x.id, x.row, x.phase, w.now);
    TargetIsOnlyRow(w.db, stmt.value, w.now);
    WriteIsCalm(s.pull, w.puller, pid, w.now);
    WriteMoves(s.pull, w.puller, pid, w.now);
    assert Working(x.phase) && PullHand(w.db.rows, x.id, x.row) && x.id !in w.subs;
    if x.id in w.db.rows {
      PullOutcome(s.pull, w.db.rows, x.id, x.row, x.phase, w.now);
    }
    hide Apply, Fires, Observe, P.PhaseStmt, P.AfterWrite, Consistent, Q.Sound, Known, RowsOk, SubsOk, PullsOk, TickOk,
         PollOk, Apart, Calm, OnlyRow, PulledRow, P.Enabled;
    PulledKeepsRows(s, w.db.rows, db.rows, x.id, w.subs);
    PulledKeepsPulls(s.pull, w.db.rows, db.rows, w.puller, pid, p');
    CalmKeeps(w.db.rows, w.subs, w.puller, p');
    PulledSparesPoll(s.pull, w.db, db, x.id, w.poll, w.now);
  }

  lemma PulledSparesPoll(c: P.Config, db: Db, db': Db, id: string, poll: Poll, now: Time)
    requires PollOk(db, poll, now) && OnlyMoved(db, db', id)
    requires id in db.rows ==> PulledRow(c, db.rows[id], db'.rows[id])
    requires id in db.rows && id in db.moved && db'.rows[id].bytesDownloaded == db.rows[id].bytesDownloaded ==>
               id in db'.moved && db'.moved[id] == db.moved[id]
    ensures PollOk(db', poll, now)
  {
    hide PollOk, OnlyMoved;
    EndingSparesPoll(db, db', id, poll, now);
  }

  lemma CompletedIsNotSubmitted(rows: Table, subs: map<string, Submission>, id: string)
    requires SubsOk(rows, subs) && Completed(rows, id)
    ensures id !in subs
  {
  }

  lemma ListedAreOk(s: Setup, w: World, jobs: seq<Listed>, limit: nat)
    requires Inv(s, w) && IsPullListing(w.db.rows, w.now, limit, jobs)
    ensures forall i :: 0 <= i < |jobs| ==>
              TodoOk(w.db.rows, w.puller, jobs[i]) && jobs[i].id !in w.subs && jobs[i].id in w.born
    ensures forall i, j :: 0 <= i < j < |jobs| ==> jobs[i].id != jobs[j].id
  {
    hide Q.Sound, PollOk, PullsOk, TickOk, Apart, Due;
    var ids :| IsListing(w.db.rows, (r: Row) => Pullable(r, w.now), ids, limit) && jobs == Snapshots(w.db.rows, ids);
    forall i | 0 <= i < |jobs|
      ensures TodoOk(w.db.rows, w.puller, jobs[i]) && jobs[i].id !in w.subs && jobs[i].id in w.born
    {
      assert jobs[i] == Listed(ids[i], w.db.rows[ids[i]]);
      assert RowOk(s.Budget(), w.db.rows[ids[i]]);
      CompletedIsNotSubmitted(w.db.rows, w.subs, ids[i]);
    }
  }

  lemma ListKeeps(s: Setup, w: World, jobs: seq<Listed>, limit: nat)
    requires Inv(s, w) && IsPullListing(w.db.rows, w.now, limit, jobs)
    ensures var p' := w.puller.(tick := P.Filled(jobs));
            && PullsOk(w.db.rows, p'.pulls) && TickOk(w.db.rows, p') && Apart(w.subs, p') && PullerKnown(w.born, p')
  {
    ListedAreOk(s, w, jobs, limit);
    hide IsPullListing, Consistent, Q.Sound, RowsOk, SubsOk, PollOk, PullHand;
  }

  lemma ConsideredKeepsPulls(rows: Table, c: P.Config, p: P.Puller, e: Listed, tick: P.Tick)
    requires PullsOk(rows, p.pulls) && TodoOk(rows, p, e)
    ensures PullsOk(rows, P.Considered(c, p, e, tick).pulls)
    ensures !P.HasLocalPath(e.row)
  {
  }

  lemma ConsideredKeepsTodo(rows: Table, c: P.Config, p: P.Puller, e: Listed, tick: P.Tick, l: Listed)
    requires TodoOk(rows, p, l) && l.id != e.id && Q.Entries(p.inflight, p.pulls) && Q.Numbered(p.pulls, p.next)
    ensures TodoOk(rows, P.Considered(c, p, e, tick), l)
  {
    hide P.HasLocalPath, PullHand;
  }

  lemma ConsideredStaysApart(subs: map<string, Submission>, c: P.Config, p: P.Puller)
    requires Apart(subs, p) && P.Enabled(c, p, P.Consider)
    ensures Apart(subs, P.Considered(c, p, p.tick.todo[0], P.Filled(p.tick.todo[1..])))
  {
    hide P.HasLocalPath;
  }

  lemma ConsideredStaysKnown(born: set<string>, c: P.Config, p: P.Puller)
    requires PullerKnown(born, p) && P.Enabled(c, p, P.Consider)
    ensures PullerKnown(born, P.Considered(c, p, p.tick.todo[0], P.Filled(p.tick.todo[1..])))
  {
    hide P.HasLocalPath;
  }

  lemma ConsideredKeeps(rows: Table, subs: map<string, Submission>, born: set<string>, c: P.Config, p: P.Puller)
    requires PullsOk(rows, p.pulls) && TickOk(rows, p) && Apart(subs, p) && PullerKnown(born, p)
    requires Q.Sound(c, p) && P.Enabled(c, p, P.Consider)
    ensures var p' := P.Considered(c, p, p.tick.todo[0], P.Filled(p.tick.todo[1..]));
            && PullsOk(rows, p'.pulls) && TickOk(rows, p') && Apart(subs, p') && PullerKnown(born, p')
    ensures !P.HasLocalPath(p.tick.todo[0].row)
  {
    var e, tail := p.tick.todo[0], p.tick.todo[1..];
    var p' := P.Considered(c, p, e, P.Filled(tail));
    ConsideredTicks(c, p, e, P.Filled(tail));
    ConsideredKeepsPulls(rows, c, p, e, P.Filled(tail));
    ConsideredStaysApart(subs, c, p);
    ConsideredStaysKnown(born, c, p);
    hide P.Considered, P.HasLocalPath, PullsOk, Apart, PullerKnown, Q.Entries, Q.Numbered, Q.Owned, Q.Awaited,
         Q.PullsOk;
    forall i | 0 <= i < |tail|
      ensures TodoOk(rows, p', tail[i])
    {
      ConsideredKeepsTodo(rows, c, p, e, P.Filled(tail), p.tick.todo[i + 1]);
    }
    hide TodoOk;
  }

  lemma ConsideredTicks(c: P.Config, p: P.Puller, e: Listed, tick: P.Tick)
    ensures P.Considered(c, p, e, tick).tick == tick
  {
  }

  lemma CalmStaysKnown(born: set<string>, p: P.Puller, p': P.Puller)
    requires PullerKnown(born, p) && Calm(p, p')
    ensures PullerKnown(born, p')
  {
  }

  // ----- Every step -----

  function NextBorn(w: World, a: Action): set<string> {
    if a.Add? then w.born + {a.id} else w.born
  }

  lemma OnlyAddInserts(s: Setup, w: World, a: Action)
    requires Enabled(s, w, a)
    ensures StmtOf(s, w, a).Some? ==> Admissible(StmtOf(s, w, a).value, w.born)
    ensures StmtOf(s, w, a).Some? ==> NextBorn(w, a) == w.born + Ids(StmtOf(s, w, a).value)
    ensures StmtOf(s, w, a).None? ==> NextBorn(w, a) == w.born
  {
    hide IsListing, IsPullListing, P.Enabled, Q.Sound;
  }

  lemma DbStays(s: Setup, w: World, a: Action)
    requires Inv(s, w) && Enabled(s, w, a)
    ensures Consistent(NextDb(s, w, a), NextBorn(w, a)) && Stamped(NextDb(s, w, a).rows, w.now)
  {
    OnlyAddInserts(s, w, a);
    hide StmtOf, Enabled, Exec, Consistent, Q.Sound, RowsOk, SubsOk, PollOk, PullsOk, TickOk, Apart, Known,
         Admissible, Ids, NextBorn;
    if StmtOf(s, w, a).Some? {
      ExecKeepsConsistent(w.db, StmtOf(s, w, a).value, w.now, w.born);
    }
  }

  /** The parts of the invariant a step has to re-establish besides the database's own. */
  ghost predicate Parts(s: Setup, w: World) {
    && RowsOk(s.Budget(), w.db.rows) && SubsOk(w.db.rows, w.subs) && PollOk(w.db, w.poll, w.now)
    && Q.Sound(s.pull, w.puller) && PullsOk(w.db.rows, w.puller.pulls) && TickOk(w.db.rows, w.puller)
    && Apart(w.subs, w.puller) && Known(w)
  }

  lemma AddStep(s: Setup, w: World, id: string, job: NewJob)
    requires Inv(s, w) && Enabled(s, w, Add(id, job))
    ensures Parts(s, NextWorld(s, w, Add(id, job)))
  {
    hide Apply, Fires, Observe, RowsOk, SubsOk, PollOk, PullsOk, TickOk, Apart, Q.Sound, Consistent;
    AddKeeps(s, w, id, job);
    AddKeepsPoll(s, w, id, job);
  }

  lemma AnswerStep(s: Setup, w: World, id: string, reply: Reply)
    requires Inv(s, w) && Enabled(s, w, Answer(id, reply))
    ensures Parts(s, NextWorld(s, w, Answer(id, reply)))
  {
    AnswerKeepsRows(s, w, id, reply);
    AnswerKeepsSubs(s, w, id, reply);
    AnswerKeepsPoll(s, w, id, reply);
    AnswerKeepsPulls(s, w, id, reply);
    hide Apply, Fires, Observe, RowsOk, SubsOk, PollOk, PullsOk, TickOk, Q.Sound, Consistent, SubmitStmt, LostRace,
         PullerKnown, PollKnown;
  }

  lemma ClaimStep(s: Setup, w: World, ids: seq<string>)
    requires Inv(s, w) && Enabled(s, w, ClaimNew(ids))
    ensures Parts(s, NextWorld(s, w, ClaimNew(ids)))
  {
    ClaimKeeps(s, w, ids);
    MildKeeps(s, w, Claim(ids));
    hide Apply, Fires, Observe, RowsOk, SubsOk, PollOk, PullsOk, TickOk, Apart, Q.Sound, Consistent, IsListing,
         Claimable, PullerKnown, PollKnown;
  }

  lemma GiveBackStep(s: Setup, w: World, id: string)
    requires Inv(s, w) && Enabled(s, w, GiveBack(id))
    ensures Parts(s, NextWorld(s, w, GiveBack(id)))
  {
    GiveBackKeeps(s, w, id);
    MildKeeps(s, w, Release(id));
    hide Apply, Fires, Observe, RowsOk, SubsOk, PollOk, PullsOk, TickOk, Apart, Q.Sound, Consistent, PullerKnown,
         PollKnown;
  }

  /** Clients, the notifier and the reaper. */
  lemma OutsiderStep(s: Setup, w: World, a: Action)
    requires Inv(s, w) && Enabled(s, w, a)
    requires a.Read? || a.Cancel? || a.Drop? || a.Notify? || a.ReapOld?
    ensures Parts(s, NextWorld(s, w, a))
  {
    hide Apply, Fires, Observe, RowsOk, SubsOk, PollOk, PullsOk, TickOk, Apart, Q.Sound, Consistent, PullerKnown,
         PollKnown, CancelStmt;
    if a.Cancel? {
      CancelIsMild(w.db.rows, w.clients[a.client], w.now);
    }
    if !a.Read? {
      MildKeeps(s, w, StmtOf(s, w, a).value);
    }
  }

  lemma ClockSparesPoll(db: Db, poll: Poll, now: Time, t: Time)
    requires PollOk(db, poll, now) && now <= t
    ensures PollOk(db, poll, t)
  {
    hide InHand;
  }

  /** The clock, the bounds of a poll pass, and a crash. */
  lemma PassStep(s: Setup, w: World, a: Action)
    requires s.Valid() && Inv(s, w) && Enabled(s, w, a)
    requires a.Advance? || a.BeginPass? || a.BeginVisit? || a.EndPass?
    ensures Parts(s, NextWorld(s, w, a))
  {
    hide RowsOk, SubsOk, PullsOk, TickOk, Apart, Q.Sound, Consistent, PullerKnown, InHand, VisitOk, IsListing,
         Snapshots;
    if a.Advance? {
      ClockSparesPoll(w.db, w.poll, w.now, a.t);
    } else if a.BeginPass? {
      BeginPassKeeps(s, w, a.ids);
    } else if a.BeginVisit? {
      BeginVisitKeeps(w.db, w.poll, a.item, w.now);
    }
  }

  lemma CrashStep(s: Setup, w: World)
    requires Inv(s, w) && s.Valid()
    ensures Parts(s, NextWorld(s, w, Crash))
  {
    Q.RestartIsSound(s.pull, w.puller);
    hide RowsOk, Q.Sound, Consistent;
  }

  lemma VisitAction(s: Setup, w: World)
    requires Inv(s, w) && Enabled(s, w, VisitStep)
    ensures Parts(s, NextWorld(s, w, VisitStep))
  {
    VisitKeepsPoll(s, w);
    VisitKeepsRest(s, w);
    VisitIdStays(w.poll.visit.value, w.now);
    hide NextDb, VisitNext, RowsOk, SubsOk, PollOk, PullsOk, TickOk, Apart, Q.Sound, Consistent, PullerKnown;
  }

  /** A pull step that issues no statement and starts nothing. */
  lemma CalmAction(s: Setup, w: World, pa: P.Action)
    requires s.Valid() && Inv(s, w) && Enabled(s, w, Pull(pa))
    requires !pa.List? && !pa.Consider? && !pa.Write?
    ensures Parts(s, NextWorld(s, w, Pull(pa)))
  {
    hide P.PullStep, P.Enabled, RowsOk, SubsOk, PollOk, PullsOk, TickOk, Apart, Q.Sound, Consistent, PullerKnown,
         PollKnown, Calm, IsPullListing;
    Q.SoundStays(s.pull, w.puller, pa, w.now);
    StepIsCalm(s.pull, w.puller, pa, w.now);
    assert P.PullStmt(s.pull, w.puller, pa, w.now) == None;
    CalmKeeps(w.db.rows, w.subs, w.puller, P.PullStep(s.pull, w.puller, pa, w.now));
    CalmStaysKnown(w.born, w.puller, P.PullStep(s.pull, w.puller, pa, w.now));
  }

  lemma WriteAction(s: Setup, w: World, pid: nat)
    requires s.Valid() && Inv(s, w) && Enabled(s, w, Pull(P.Write(pid)))
    ensures Parts(s, NextWorld(s, w, Pull(P.Write(pid))))
  {
    hide Apply, Fires, Observe, P.AfterWrite, P.PhaseStmt, RowsOk, SubsOk, PollOk, PullsOk, TickOk, Apart, Q.Sound,
         Consistent, PullerKnown, PollKnown, Calm;
    Q.SoundStays(s.pull, w.puller, P.Write(pid), w.now);
    WriteKeeps(s, w, pid);
    WriteIsCalm(s.pull, w.puller, pid, w.now);
    CalmStaysKnown(w.born, w.puller, P.AfterWrite(s.pull, w.puller, pid, w.puller.pulls[pid], w.now));
  }

  lemma ListAction(s: Setup, w: World, jobs: seq<Listed>)
    requires s.Valid() && Inv(s, w) && Enabled(s, w, Pull(P.List(jobs)))
    ensures Parts(s, NextWorld(s, w, Pull(P.List(jobs))))
  {
    hide P.HasLocalPath, RowsOk, SubsOk, PollOk, PullsOk, TickOk, Apart, Q.Sound, Consistent, PullerKnown, PollKnown,
         IsPullListing, Apply, Fires, Observe;
    Q.SoundStays(s.pull, w.puller, P.List(jobs), w.now);
    ListKeeps(s, w, jobs, s.pull.limit + w.puller.tick.busy);
  }

  lemma ConsiderAction(s: Setup, w: World)
    requires s.Valid() && Inv(s, w) && Enabled(s, w, Pull(P.Consider))
    ensures Parts(s, NextWorld(s, w, Pull(P.Consider)))
  {
    hide P.Considered, P.HasLocalPath, RowsOk, SubsOk, PollOk, PullsOk, TickOk, Apart, Q.Sound, Consistent,
         PullerKnown, PollKnown, IsPullListing, Apply, Fires, Observe;
    Q.SoundStays(s.pull, w.puller, P.Consider, w.now);
    ConsideredKeeps(w.db.rows, w.subs, w.born, s.pull, w.puller);
  }

  lemma InvStays(s: Setup, w: World, a: Action)
    requires s.Valid() && Inv(s, w) && Enabled(s, w, a)
    ensures Inv(s, NextWorld(s, w, a))
  {
    DbStays(s, w, a);
    NextWorldDb(s, w, a);
    assert a.Pull? ==> !a.a.Restart? by { hide Inv; }
    hide Enabled, NextWorld, NextDb, Consistent, Stamped, RowsOk, SubsOk, PollOk, Q.Sound, PullsOk, TickOk, Apart,
         Known;
    match a
    case Add(id, job) => AddStep(s, w, id, job);
    case Answer(id, reply) => AnswerStep(s, w, id, reply);
    case ClaimNew(ids) => ClaimStep(s, w, ids);
    case GiveBack(id) => GiveBackStep(s, w, id);
    case VisitStep => VisitAction(s, w);
    case Crash => CrashStep(s, w);
    case Pull(pa) =>
      if pa.List? { ListAction(s, w, pa.jobs); }
      else if pa.Consider? { ConsiderAction(s, w); }
      else if pa.Write? { WriteAction(s, w, pa.pid); }
      else { CalmAction(s, w, pa); }
    case Read(_, _) => OutsiderStep(s, w, a);
    case Cancel(_) => OutsiderStep(s, w, a);
    case Drop(_) => OutsiderStep(s, w, a);
    case Notify(_) => OutsiderStep(s, w, a);
    case ReapOld(_) => OutsiderStep(s, w, a);
    case _ => PassStep(s, w, a);
  }

  lemma NextWorldDb(s: Setup, w: World, a: Action)
    requires Enabled(s, w, a)
    ensures var w' := NextWorld(s, w, a);
            w'.db == NextDb(s, w, a) && w'.born == NextBorn(w, a) && w.now <= w'.now
  {
    hide IsListing, IsPullListing, NextSubs, NextPoll, NextPuller, NextClients, NextDb;
  }
}
