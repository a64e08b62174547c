/** What a poll pass does to each row while nobody else touches the table. */
module PollPass {
  import opened Options
  import opened Jobs
  import opened StoreSpec
  import opened PollerSpec

  // ----- One visit -----

  /** The row against the visit's copy of it, midway through an undisturbed visit. */
  predicate Tracks(r: Row, j: Row, now: Time) {
    && r.submittedAt == j.submittedAt && r.createdAt == j.createdAt
    && (r.updatedAt == j.updatedAt || r.updatedAt == now)
    && (r.state == j.state || (j.state == Submitted && r.state == Downloading && r.updatedAt == now))
    && j.state.InFlight()
  }

  /** What a visit with a list entry leaves of a row that stays in flight. */
  predicate Spared(j: Row, r': Row, now: Time) {
    r'.state.InFlight() ==>
      && Tracks(r', j, now)
      && (IsTimedOut(j, now) ==> j.state == Submitted && r'.state == Downloading && r'.updatedAt == now)
  }

  ghost predicate Alone(rows: Table, rows': Table, id: string) {
    rows'.Keys == rows.Keys && forall k :: k in rows && k != id ==> rows'[k] == rows[k]
  }

  lemma CloseVisit(rows: Table, v: Visit, now: Time)
    requires v.id in rows && v.item.Some? && v.pc.Close? && Tracks(rows[v.id], v.j, now)
    ensures var rows' := Visiting(rows, v, now); Alone(rows, rows', v.id) && Spared(v.j, rows'[v.id], now)
  {
    hide LearnsIDs, NewActiveID, NewFolder, IsLost, IsStalled, IsTimedOut, Moves, Reason;
  }

  lemma CeilingVisit(rows: Table, v: Visit, now: Time)
    requires v.id in rows && v.item.Some? && v.pc.Ceilings? && Tracks(rows[v.id], v.j, now)
    ensures var rows' := Visiting(rows, v, now); Alone(rows, rows', v.id) && Spared(v.j, rows'[v.id], now)
  {
    if VisitNext(v, now).Some? {
      CloseVisit(rows, VisitNext(v, now).value, now);
    }
  }

  lemma ProgressVisit(rows: Table, v: Visit, now: Time)
    requires v.id in rows && v.item.Some? && v.pc.Progress? && Tracks(rows[v.id], v.j, now)
    ensures var rows' := Visiting(rows, v, now); Alone(rows, rows', v.id) && Spared(v.j, rows'[v.id], now)
  {
    var rows1, v1 := Perform(rows, VisitStmt(v, now), now), VisitNext(v, now).value;
    CeilingVisit(rows1, v1, now);
  }

  lemma BeginVisit(rows: Table, v: Visit, now: Time)
    requires v.id in rows && v.item.Some? && v.pc.Begin? && Tracks(rows[v.id], v.j, now)
    ensures var rows' := Visiting(rows, v, now); Alone(rows, rows', v.id) && Spared(v.j, rows'[v.id], now)
  {
    var rows1, v1 := Perform(rows, VisitStmt(v, now), now), VisitNext(v, now).value;
    ProgressVisit(rows1, v1, now);
  }

  lemma JudgeVisit(rows: Table, v: Visit, now: Time)
    requires v.id in rows && v.item.Some? && v.pc.Judge? && Tracks(rows[v.id], v.j, now) &&
             rows[v.id].state == v.j.state
    ensures var rows' := Visiting(rows, v, now); Alone(rows, rows', v.id) && Spared(v.j, rows'[v.id], now)
  {
    hide LearnsIDs, NewActiveID, NewFolder, IsLost, IsStalled, IsTimedOut, Moves, Reason;
    if VisitNext(v, now).Some? {
      BeginVisit(rows, VisitNext(v, now).value, now);
    }
  }

  /** A visit that finds an entry. */
  lemma PresentVisit(rows: Table, id: string, it: Item, now: Time)
    requires id in rows && rows[id].state.InFlight()
    ensures var rows' := Visiting(rows, Start(Listed(id, rows[id]), Some(it)), now);
            Alone(rows, rows', id) && Spared(rows[id], rows'[id], now)
  {
    var v := Start(Listed(id, rows[id]), Some(it));
    var rows1, v1 := Perform(rows, VisitStmt(v, now), now), VisitNext(v, now).value;
    JudgeVisit(rows1, v1, now);
  }

  /** A visit that finds none either fails the job or leaves it as it is. */
  lemma MissingVisit(rows: Table, id: string, now: Time)
    requires id in rows && rows[id].state.InFlight()
    ensures var rows' := Visiting(rows, Start(Listed(id, rows[id]), None), now);
            && Alone(rows, rows', id)
            && (rows'[id].state.InFlight() ==> rows'[id] == rows[id] && !IsLost(rows[id], now))
  {
  }

  // ----- One pass -----

  /** What a pass leaves of a row it listed; the entry it found, if any, does not matter beyond that. */
  ghost predicate Visited(r: Row, r': Row, now: Time) {
    r'.state.InFlight() ==>
      && r.state.InFlight()
      && r'.submittedAt == r.submittedAt && r'.createdAt == r.createdAt
      && (r.state == Downloading ==> r'.state == Downloading)
      && ((r' == r && !IsLost(r, now))
          || ((r'.updatedAt == r.updatedAt || r'.updatedAt == now)
              && (IsTimedOut(r, now) ==> r.state == Submitted && r'.state == Downloading && r'.updatedAt == now)))
  }

  lemma VisitIsVisited(rows: Table, id: string, item: Option<Item>, now: Time)
    requires id in rows && rows[id].state.InFlight()
    ensures var rows' := Visiting(rows, Start(Listed(id, rows[id]), item), now);
            Alone(rows, rows', id) && Visited(rows[id], rows'[id], now)
  {
    match item
    case None => MissingVisit(rows, id, now);
    case Some(it) => PresentVisit(rows, id, it, now);
    hide Visiting;
  }

  /** A pass visits every listed row once and touches no other. */
  lemma {:induction false} PassVisitsEach(rows: Table, todo: seq<Listed>, usenet: seq<Item>, torrents: seq<Item>,
                                          now: Time)
    requires forall i :: 0 <= i < |todo| ==>
               todo[i].id in rows && todo[i].row == rows[todo[i].id] && todo[i].row.state.InFlight()
    requires forall i, j :: 0 <= i < j < |todo| ==> todo[i].id != todo[j].id
    ensures var rows' := PassOver(rows, todo, usenet, torrents, now);
            && rows'.Keys == rows.Keys
            && (forall i :: 0 <= i < |todo| ==> Visited(rows[todo[i].id], rows'[todo[i].id], now))
            && (forall id :: id in rows && (forall i :: 0 <= i < |todo| ==> todo[i].id != id) ==> rows'[id] == rows[id])
    decreases |todo|
  {
    hide Visiting, FindForPoll, Visited, PoolOf, Start;
    if todo != [] {
      var item := FindForPoll(todo[0].row, PoolOf(todo[0].row, usenet, torrents));
      var rows1 := Visiting(rows, Start(todo[0], item), now);
      VisitIsVisited(rows, todo[0].id, item, now);
      var rest := todo[1..];
      assert forall i :: 0 <= i < |rest| ==> rest[i].id != todo[0].id;
      PassVisitsEach(rows1, rest, usenet, torrents, now);
      var rows' := PassOver(rows1, rest, usenet, torrents, now);
      forall i | 0 <= i < |todo|
        ensures Visited(rows[todo[i].id], rows'[todo[i].id], now)
      {
        if i > 0 {
          assert todo[i] == rest[i - 1];
        }
      }
      forall id | id in rows && (forall i :: 0 <= i < |todo| ==> todo[i].id != id)
        ensures rows'[id] == rows[id]
      {
        assert forall i :: 0 <= i < |rest| ==> rest[i] == todo[i + 1];
      }
    }
  }
}
