/** The client's side: ending a job it names. */
module Client {
  import opened Options
  import opened Jobs
  import opened StoreSpec
  import opened PollerSpec
  import Pipeline
  import Store

  /** Ends the job on the copy the client read; the row may have moved on since. */
  method CancelRead(store: Store.Store, j: Listed) returns (ok: bool)
    modifies store
    ensures store.now == old(store.now)
    ensures store.Contents() == Exec(old(store.Contents()), Pipeline.CancelStmt(j, store.now), store.now)
    ensures ok ==> j.id !in store.rows || store.rows[j.id].state == Canceled
    ensures ok <==> j.id in old(store.rows) && (j.row.state.Terminal() || old(store.rows)[j.id].state == j.row.state)
    ensures !ok ==> store.rows == old(store.rows)
    ensures ok ==>
              store.rows ==
              if j.row.state == Ready || j.row.state == Failed || j.row.state == Canceled
              then old(store.rows) - {j.id}
              else old(store.rows)[j.id := old(store.rows)[j.id].(
                     state := Canceled, completedAt := Some(store.now), updatedAt := store.now,
                     lastError := Some("canceled by client"), nextAttemptAt := None)]
    ensures store.fired == if ok && !j.row.state.Terminal() then old(store.fired) + [Event(j.id, j.row.state, Canceled)]
                           else old(store.fired)
  {
    if j.row.state.Terminal() {
      ok := store.Delete(j.id);
      return;
    }
    ok := store.Transition(j.id, Ending(j.row.state, Canceled, "canceled by client", store.now));
  }

  /** A client's cancel with nobody in between always succeeds: active jobs become CANCELED, finished ones go. */
  method Cancel(store: Store.Store, id: string) returns (was: Option<Listed>, ok: bool)
    modifies store
    ensures store.now == old(store.now) && ok
    ensures was == if id in old(store.rows) then Some(Listed(id, old(store.rows)[id])) else None
    ensures store.rows - {id} == old(store.rows) - {id} && store.rows.Keys <= old(store.rows).Keys
    ensures was.Some? && was.value.row.state.Terminal() ==> id !in store.rows
    ensures was.Some? && !was.value.row.state.Terminal() ==> id in store.rows && store.rows[id].state == Canceled
  {
    was := store.Get(id);
    ok := true;
    if was.Some? {
      ok := CancelRead(store, was.value);
    }
  }

  /** A history delete: cancel, then drop the row. */
  method HistoryDelete(store: Store.Store, id: string) returns (ok: bool)
    modifies store
    ensures ok && store.rows == old(store.rows) - {id}
  {
    var was;
    was, ok := Cancel(store, id);
    if ok {
      var _ := store.Delete(id);
    }
  }
}
