/** The poller at work on the table. */
module Poller {
  import opened Options
  import opened Jobs
  import opened StoreSpec
  import opened PollerSpec
  import opened Matching
  import Store
  import Text

  // ----- Matching jobs and entries -----

  lemma {:induction false} LastCarryingAppend(items: seq<Item>, it: Item, k: int)
    ensures LastCarrying(items + [it], k) == if it.Carries(k) then Some(it) else LastCarrying(items, k)
  {
    assert (items + [it])[..|items|] == items;
  }

  /** Fills the index in list order, so that a later entry replaces an earlier one under a shared id. */
  method IndexByID(items: seq<Item>) returns (index: map<int, Item>)
    ensures forall k :: (if k in index then Some(index[k]) else None) == LastCarrying(items, k)
    ensures forall k :: k in index <==> IsCarried(items, k)
    ensures forall k :: k in index ==> IsLastWith(items, k, index[k])
  {
    index := map[];
    for i := 0 to |items|
      invariant forall k :: (if k in index then Some(index[k]) else None) == LastCarrying(items[..i], k)
    {
      var it := items[i];
      if it.id != 0 {
        index := index[it.id := it];
      }
      if it.queueID != 0 {
        index := index[it.queueID := it];
      }
      forall k
        ensures LastCarrying(items[..i + 1], k) == if it.Carries(k) then Some(it) else LastCarrying(items[..i], k)
      {
        assert items[..i + 1] == items[..i] + [it];
        LastCarryingAppend(items[..i], it, k);
      }
      hide LastCarrying;
    }
    assert items[..|items|] == items;
    forall k
      ensures LastCarrying(items, k).Some? <==> IsCarried(items, k)
      ensures LastCarrying(items, k).Some? ==> IsLastWith(items, k, LastCarrying(items, k).value)
    {
      LastCarryingIs(items, k);
    }
  }

  /** Active id, queue id, then a scan for the release name. */
  method Match(j: Row, items: seq<Item>, index: map<int, Item>) returns (item: Option<Item>)
    requires forall k :: (if k in index then Some(index[k]) else None) == LastCarrying(items, k)
    ensures item == FindForPoll(j, items)
    ensures IsPollMatch(j, items, item)
  {
    FindForPollIs(j, items);
    item := None;
    if j.activeID.Some? && j.activeID.value in index {
      item := Some(index[j.activeID.value]);
    }
    if item == None && j.queueID.Some? && j.queueID.value in index {
      item := Some(index[j.queueID.value]);
    }
    assert item == OrElse(ByOptionalID(items, j.activeID), ByOptionalID(items, j.queueID));
    hide LastCarrying, ByOptionalID, IsPollMatch;
    if item == None {
      var name := Text.TrimSuffix(j.filename, ".nzb");
      ghost var test := (it: Item) => it.name == Text.TrimSuffix(j.filename, ".nzb");
      var i := 0;
      assert items[0..] == items;
      while i < |items|
        invariant 0 <= i <= |items|
        invariant First(items[i..], test) == First(items, test)
      {
        assert items[i..][1..] == items[i + 1..];
        if items[i].name == name {
          item := Some(items[i]);
          return;
        }
        i := i + 1;
      }
    }
  }

  /** No id is carried by two entries. */
  ghost predicate UniqueIds(items: seq<Item>) {
    forall a, b, k :: 0 <= a < |items| && 0 <= b < |items| && items[a].Carries(k) && items[b].Carries(k) ==> a == b
  }

  lemma {:induction false} LastIsUnique(items: seq<Item>, i: nat, k: int)
    requires i < |items| && items[i].Carries(k) && UniqueIds(items)
    ensures LastCarrying(items, k) == Some(items[i])
  {
    if i < |items| - 1 {
      var front := items[..|items| - 1];
      assert forall a :: 0 <= a < |front| ==> front[a] == items[a];
      LastIsUnique(front, i, k);
      assert !items[|items| - 1].Carries(k);
    }
  }

  lemma {:induction false} FirstIsUnique(items: seq<Item>, i: nat, test: Item -> bool)
    requires i < |items| && test(items[i])
    requires forall a :: 0 <= a < |items| && test(items[a]) ==> a == i
    ensures First(items, test) == Some(items[i])
  {
    if i > 0 {
      var rest := items[1..];
      forall a | 0 <= a < |rest| && test(rest[a])
        ensures a == i - 1
      {
        assert rest[a] == items[a + 1];
      }
      FirstIsUnique(rest, i - 1, test);
    }
  }

  lemma VisitKeepsActiveID(rows: Table, v: Visit, now: Time)
    requires v.id in rows && v.item.Some? && v.item.value.id != 0
    requires v.pc.NoteIDs? ==> rows[v.id].activeID == v.j.activeID
    requires !v.pc.NoteIDs? ==> rows[v.id].activeID == Some(v.item.value.id)
    ensures v.id in Visiting(rows, v, now) && Visiting(rows, v, now)[v.id].activeID == Some(v.item.value.id)
    decreases StepsLeft(v)
  {
    var rows' := Perform(rows, VisitStmt(v, now), now);
    assert v.id in rows' && rows'[v.id].activeID == Some(v.item.value.id);
    if VisitNext(v, now).Some? {
      var v' := VisitNext(v, now).value;
      assert !v'.pc.NoteIDs? && v'.id == v.id && v'.item == v.item && StepsLeft(v') < StepsLeft(v);
      hide Perform, VisitStmt, VisitNext;
      VisitKeepsActiveID(rows', v', now);
    }
  }

  /**
    The poller agrees with the puller: with ids unique across the list, once a job has been visited with
    an entry that has an active id, both searches of that list for the re-read row return this entry, and so
    does a request by id that is answered with any entry of the list, or not at all.
   */
  lemma PollerAgreesWithPuller(rows: Table, id: string, items: seq<Item>, i: nat, now: Time)
    requires id in rows && i < |items| && items[i].id != 0 && UniqueIds(items)
    ensures var rows' := Visiting(rows, Start(Listed(id, rows[id]), Some(items[i])), now);
            && id in rows'
            && FindForPull(rows'[id], items) == Some(items[i])
            && FindForPoll(rows'[id], items) == Some(items[i])
            && (forall byID: Option<Item> :: (byID.Some? ==> byID.value in items) ==>
                  FindItem(rows'[id], byID, items) == Some(items[i]))
  {
    var it := items[i];
    VisitKeepsActiveID(rows, Start(Listed(id, rows[id]), Some(it)), now);
    var r := Visiting(rows, Start(Listed(id, rows[id]), Some(it)), now)[id];
    hide Visiting;
    assert r.activeID == Some(it.id) && it.Carries(it.id);
    LastIsUnique(items, i, it.id);
    assert r.EffectiveTorboxID() == it.id;
    FirstIsUnique(items, i, (x: Item) => x.Carries(r.EffectiveTorboxID()));
    assert forall x :: x in items && x.Carries(it.id) ==> x == it;
  }

  // ----- Visits -----

  /** The remote entries a visit deletes: only of a download it gives up on because it hangs. */
  function ReleasedBy(j: Row, it: Item, now: Time): (ids: seq<int>)
    ensures ids != [] ==>
              && ids == [j.EffectiveTorboxID()] && j.EffectiveTorboxID() != 0
              && !it.IsFailure() && !it.IsTerminal()
              && (IsTimedOut(j, now) || (IsStalled(j, it, now) && !Moves(j, it)))
  {
    if it.IsFailure() || it.IsTerminal() then [] else
    var stalled := !Moves(j, it) && IsStalled(j, it, now);
    if (stalled || IsTimedOut(j, now)) && j.EffectiveTorboxID() != 0 then [j.EffectiveTorboxID()] else []
  }

  /** What is left of a visit at the ceilings. */
  lemma CeilingsVisitIs(rows: Table, id: string, j: Row, it: Item, now: Time)
    ensures Visiting(rows, Visit(id, j, Some(it), Ceilings), now) ==
            if IsStalled(j, it, now)
            then Apply(rows, Transition(id, Ending(j.state, Failed, Reason(Stalled), now)), now)
            else if IsTimedOut(j, now)
            then Apply(rows, Transition(id, Ending(j.state, Failed, Reason(TimedOut), now)), now)
            else rows
  {
    hide Apply, IsStalled, IsTimedOut;
  }

  lemma VisitUnfolds(rows: Table, v: Visit, now: Time)
    ensures var rows' := Perform(rows, VisitStmt(v, now), now);
            Visiting(rows, v, now) ==
            if VisitNext(v, now).Some? then Visiting(rows', VisitNext(v, now).value, now) else rows'
  {
    hide Perform, VisitStmt, VisitNext;
  }

  class Poller {
    const store: Store.Store
    /** The remote deletes issued so far. */
    var released: seq<int>
    /** The table at each of these deletes, for the order of a delete and the statements around it. */
    ghost var tables: seq<Table>

    constructor (store: Store.Store)
      ensures this.store == store && released == [] && tables == []
    {
      this.store := store;
      released := [];
      tables := [];
    }

    method ReleaseTorboxSlot(j: Row)
      modifies this
      ensures released == old(released) + (if j.EffectiveTorboxID() != 0 then [j.EffectiveTorboxID()] else [])
      ensures tables == old(tables) + (if j.EffectiveTorboxID() != 0 then [store.rows] else [])
    {
      var id := j.EffectiveTorboxID();
      if id == 0 {
        return;
      }
      released := released + [id];
      tables := tables + [store.rows];
    }

    method NoteIDs(id: string, j: Row, it: Item)
      modifies store
      ensures store.now == old(store.now)
      ensures var v := Start(Listed(id, j), Some(it));
              store.rows == Perform(old(store.rows), VisitStmt(v, store.now), store.now)
    {
      var activeID: Option<int> := None;
      if it.id != 0 && (j.activeID.None? || j.activeID.value != it.id) {
        activeID := Some(it.id);
      }
      var folder: Option<string> := None;
      if it.name != "" && (j.folder.None? || j.folder.value != it.name) {
        folder := Some(it.name);
      }
      if activeID.Some? || folder.Some? {
        store.SetTorboxIDs(id, activeID, folder);
      }
    }

    /** Persists the remote byte count when it moved, and keeps the copy in step. */
    method RecordRemoteProgress(id: string, j0: Row, it: Item) returns (j: Row)
      modifies store
      ensures store.now == old(store.now)
      ensures var v := Visit(id, j0, Some(it), Progress);
              && store.rows == Perform(old(store.rows), VisitStmt(v, store.now), store.now)
              && VisitNext(v, store.now) == Some(Visit(id, j, Some(it), Ceilings))
    {
      j := j0;
      if it.size <= 0 {
        return;
      }
      if it.done == j.bytesDownloaded {
        return;
      }
      store.SetLocalProgress(id, it.done, it.size);
      j := j.(bytesDownloaded := it.done, bytesTotal := it.size, updatedAt := store.now);
    }

    /** The stall window, then the 24-hour ceiling; the slot is freed while the table is still as it was. */
    method EnforceCeilings(id: string, j: Row, it: Item)
      modifies this, store
      ensures store.now == old(store.now)
      ensures store.rows == Visiting(old(store.rows), Visit(id, j, Some(it), Ceilings), store.now)
      ensures released == old(released) +
                (if (IsStalled(j, it, store.now) || IsTimedOut(j, store.now)) && j.EffectiveTorboxID() != 0
                 then [j.EffectiveTorboxID()] else [])
      ensures tables == old(tables) + (if |released| > |old(released)| then [old(store.rows)] else [])
    {
      var now := store.now;
      CeilingsVisitIs(store.rows, id, j, it, now);
      hide Visiting, Apply, Ending;
      var since := j.InFlightSince();
      if it.IsDownloading() && now - since > MAX_STALL && now - j.updatedAt > MAX_STALL {
        ReleaseTorboxSlot(j);
        var _ := store.Transition(id, Ending(j.state, Failed, Reason(Stalled), now));
        return;
      }
      if now - since > MAX_POLL {
        ReleaseTorboxSlot(j);
        var _ := store.Transition(id, Ending(j.state, Failed, Reason(TimedOut), now));
      }
    }

    method ApplyMyListItem(id: string, j0: Row, it: Item)
      modifies this, store
      ensures store.now == old(store.now)
      ensures store.rows == Visiting(old(store.rows), Start(Listed(id, j0), Some(it)), store.now)
      ensures released == old(released) + ReleasedBy(j0, it, store.now)
    {
      hide Store.IsChanged, Text.HasAnyPrefix, Text.Lower, Observe, Fires, Apply, Visiting;
      var j := j0;
      ghost var rows0, now := store.rows, store.now;
      NoteIDs(id, j, it);
      ghost var v := Visit(id, j, Some(it), Judge);
      VisitUnfolds(rows0, Start(Listed(id, j0), Some(it)), now);
      VisitUnfolds(store.rows, v, now);
      if it.IsFailure() {
        var _ := store.Transition(id, Ending(j.state, Failed, "torbox state: " + it.downloadState, store.now));
        return;
      }
      if it.IsTerminal() {
        var _ := store.Transition(id, Move(j.state, CompletedTorbox));
        return;
      }
      ghost var rows1 := store.rows;
      VisitUnfolds(rows1, v.(pc := Begin), now);
      if j.state == Submitted && (it.IsDownloading() || it.speed > 0 || it.progressing) {
        var _ := store.Transition(id, Move(Submitted, Downloading));
      }
      VisitUnfolds(store.rows, v.(pc := Progress), now);
      j := RecordRemoteProgress(id, j, it);
      EnforceCeilings(id, j, it);
    }

    method HandlePollMissing(id: string, j: Row)
      modifies store
      ensures store.now == old(store.now)
      ensures store.rows == Visiting(old(store.rows), Start(Listed(id, j), None), store.now)
    {
      var now := store.now;
      if now - j.InFlightSince() < MISSING_GRACE {
        return;
      }
      if now - j.updatedAt > MAX_MISSING {
        var _ := store.Transition(id, Ending(j.state, Failed, "torbox lost the download (absent from mylist)", now));
      }
    }

    /**
      One pass. Without the usenet list nothing is visited; a torrent list that could not be fetched counts
      as empty. Slots are released for the stalled and overdue jobs of the pass, in order, and for no other.
     */
    method PollOnce(usenetList: Option<seq<Item>>, torrentList: Option<seq<Item>>)
        returns (complete: bool, inflight: seq<Listed>)
      modifies this, store
      ensures store.now == old(store.now)
      ensures IsListing(old(store.rows), In({Submitted, Downloading}), IdsOf(inflight), 1000)
      ensures inflight == Snapshots(old(store.rows), IdsOf(inflight))
      ensures complete <==> inflight == [] || usenetList.Some?
      ensures usenetList.None? ==> store.rows == old(store.rows) && released == old(released)
      ensures usenetList.Some? ==>
                && store.rows == PassOver(old(store.rows), inflight, usenetList.value, torrentList.GetOr([]), store.now)
                && released == old(released) +
                               ReleasedInPass(inflight, usenetList.value, torrentList.GetOr([]), store.now)
    {
      hide LastCarrying, FindForPoll, Visiting, IsListing, Start, ReleasedBy, PassOver, ReleasedInPass;
      inflight := store.ListByStates({Submitted, Downloading}, POLL_LIMIT);
      if |inflight| == 0 {
        if usenetList.Some? {
          NothingToVisit(store.rows, usenetList.value, torrentList.GetOr([]), store.now);
          assert released + [] == released;
        }
        return true, inflight;
      }
      if usenetList.None? {
        return false, inflight;
      }
      VisitAll(inflight, usenetList.value, torrentList.GetOr([]));
      complete := true;
    }

    method VisitAll(inflight: seq<Listed>, usenet: seq<Item>, torrents: seq<Item>)
      modifies this, store
      ensures store.now == old(store.now)
      ensures store.rows == PassOver(old(store.rows), inflight, usenet, torrents, store.now)
      ensures released == old(released) + ReleasedInPass(inflight, usenet, torrents, store.now)
    {
      hide LastCarrying, FindForPoll, Visiting, Start, ReleasedBy, PassOver, ReleasedInPass;
      ghost var now := store.now;
      var usenetByID := IndexByID(usenet);
      var torrentByID := IndexByID(torrents);
      assert inflight[0..] == inflight;
      for i := 0 to |inflight|
        invariant store.now == now
        invariant PassOver(store.rows, inflight[i..], usenet, torrents, now) ==
                  PassOver(old(store.rows), inflight, usenet, torrents, now)
        invariant released + ReleasedInPass(inflight[i..], usenet, torrents, now) ==
                  old(released) + ReleasedInPass(inflight, usenet, torrents, now)
      {
        var id, j := inflight[i].id, inflight[i].row;
        OneVisitLess(store.rows, inflight, i, usenet, torrents, now, released);
        var item;
        if j.source == Torrent {
          item := Match(j, torrents, torrentByID);
        } else {
          item := Match(j, usenet, usenetByID);
        }
        if item == None {
          HandlePollMissing(id, j);
          assert released + [] == released;
        } else {
          ApplyMyListItem(id, j, item.value);
        }
      }
      assert inflight[|inflight|..] == [];
      NothingToVisit(store.rows, usenet, torrents, now);
    }
  }

  /** The slots a pass releases. */
  function ReleasedInPass(todo: seq<Listed>, usenet: seq<Item>, torrents: seq<Item>, now: Time): seq<int>
    decreases |todo|
  {
    if todo == [] then []
    else
      var item := FindForPoll(todo[0].row, PoolOf(todo[0].row, usenet, torrents));
      (if item.Some? then ReleasedBy(todo[0].row, item.value, now) else []) +
      ReleasedInPass(todo[1..], usenet, torrents, now)
  }

  lemma NothingToVisit(rows: Table, usenet: seq<Item>, torrents: seq<Item>, now: Time)
    ensures PassOver(rows, [], usenet, torrents, now) == rows && ReleasedInPass([], usenet, torrents, now) == []
  {
  }

  lemma OneVisitLess(rows: Table, jobs: seq<Listed>, i: nat, usenet: seq<Item>, torrents: seq<Item>, now: Time,
                     before: seq<int>)
    requires i < |jobs|
    ensures var item := FindForPoll(jobs[i].row, PoolOf(jobs[i].row, usenet, torrents));
            && PassOver(rows, jobs[i..], usenet, torrents, now) ==
               PassOver(Visiting(rows, Start(jobs[i], item), now), jobs[i + 1..], usenet, torrents, now)
            && before + ReleasedInPass(jobs[i..], usenet, torrents, now) ==
               before + (if item.Some? then ReleasedBy(jobs[i].row, item.value, now) else []) +
               ReleasedInPass(jobs[i + 1..], usenet, torrents, now)
  {
    hide FindForPoll, Visiting, Start, ReleasedBy, PoolOf;
    assert jobs[i..][0] == jobs[i] && jobs[i..][1..] == jobs[i + 1..];
  }
}
