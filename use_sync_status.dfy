/**
 * The `useSyncStatus` hook of hooks/use-sync-status.ts: the state the UI
 * shows about the outbox (`isOnline`, `pending`, `lastError`) and the
 * callbacks that update it.  React state cells are fields of `SyncStatus`;
 * the host's `navigator.onLine` reading is a parameter of each callback.
 */
module UseSyncStatus {
  import opened Wrappers
  import opened OfflineQueue

  /**
   * `runSync`'s rule for `lastError`: a failed pass whose error is not
   * "offline" records its error (or "sync_failed"); anything else keeps the
   * old value.  Nothing ever clears it.
   */
  function NextLastError(previous: Option<string>, result: SyncResult): (next: Option<string>)
    ensures result.ok || result.error == Some(OfflineError) ==> next == previous
    ensures previous.Some? ==> next.Some?
    ensures !result.ok && result.error != Some(OfflineError) ==> next == Some(result.error.GetOr(FallbackError))
    ensures next != previous ==> !result.ok && next == Some(result.error.GetOr(FallbackError))
  {
    if !result.ok && result.error != Some(OfflineError) then Some(result.error.GetOr(FallbackError))
    else previous
  }

  /** A pass that starts offline is not reported as an error. */
  lemma OfflinePassKeepsLastError(previous: Option<string>)
    ensures NextLastError(previous, OfflineResult) == previous
  {
  }

  /**
   * An online pass that stops at job k records the text of job k's error,
   * unless that text happens to be "offline"; a pass that drains everything
   * leaves `lastError` as it was.
   */
  lemma LastErrorAfterOnlinePass(previous: Option<string>, snap: seq<Entry>, backend: Backend)
    ensures var r := Drain(snap, backend);
      var next := NextLastError(previous, r);
      && (r.ok ==> next == previous)
      && (!r.ok ==>
            var e := backend(r.processed, Dispatch(snap[r.processed].job.mutation)).error;
            next == if ErrorText(e) == OfflineError then previous else Some(ErrorText(e)))
  {
  }

  class SyncStatus {
    var isOnline: bool
    var pending: nat
    var lastError: Option<string>
    const store: JobStore

    ghost predicate Valid()
      reads this, store
    {
      store.Valid()
    }

    /** The hook's initial state: online, nothing pending, no error. */
    constructor (store: JobStore)
      requires store.Valid()
      ensures Valid() && this.store == store
      ensures isOnline && pending == 0 && lastError == None
    {
      this.store := store;
      isOnline := true;
      pending := 0;
      lastError := None;
    }

    /** `refreshPending`: `pending` takes the store's count. */
    method RefreshPending()
      requires Valid()
      modifies this
      ensures Valid()
      ensures pending == |store.jobs|
      ensures isOnline == old(isOnline) && lastError == old(lastError)
    {
      pending := store.PendingCount();
    }

    /**
     * `runSync`: one drain pass, then the `lastError` rule, then a refresh of
     * `pending`.  `hostOnline` is what `navigator.onLine` reads when the pass
     * starts.
     */
    method RunSync(hostOnline: bool, backend: Backend) returns (ghost result: SyncResult, ghost sent: seq<Request>)
      requires Valid()
      modifies this, store
      ensures Valid() && store.nextId == old(store.nextId)
      ensures !hostOnline ==> result == OfflineResult && sent == [] && store.jobs == old(store.jobs)
      ensures hostOnline ==> result == Drain(old(store.Snapshot()), backend)
      ensures hostOnline ==> sent == Attempted(old(store.Snapshot()), backend)
      ensures store.Snapshot() == old(store.Snapshot())[result.processed..]
      ensures lastError == NextLastError(old(lastError), result)
      ensures pending == |store.jobs| && pending == |old(store.jobs)| - result.processed
      ensures isOnline == old(isOnline)
    {
      var r, requests := SyncQueue(store, hostOnline, backend);
      if !r.ok && r.error != Some(OfflineError) {
        lastError := Some(r.error.GetOr(FallbackError));
      }
      RefreshPending();
      result, sent := r, requests;
    }

    /**
     * The mount effects: the listener's first `update()` and
     * `refreshPending()`, then the `isOnline` effect, which sees the initial
     * `true` and so starts one pass.
     */
    method Mount(hostOnline: bool, backend: Backend) returns (ghost result: SyncResult, ghost sent: seq<Request>)
      requires Valid()
      modifies this, store
      ensures Valid() && store.nextId == old(store.nextId)
      ensures isOnline == hostOnline
      ensures !hostOnline ==> result == OfflineResult && sent == [] && store.jobs == old(store.jobs)
      ensures hostOnline ==> result == Drain(old(store.Snapshot()), backend)
      ensures hostOnline ==> sent == Attempted(old(store.Snapshot()), backend)
      ensures store.Snapshot() == old(store.Snapshot())[result.processed..]
      ensures lastError == NextLastError(old(lastError), result)
      ensures pending == |store.jobs|
    {
      isOnline := hostOnline;
      RefreshPending();
      result, sent := RunSync(hostOnline, backend);
    }

    /**
     * An `online` or `offline` event: `isOnline` takes the host's current
     * reading, and when that turns it from false to true the `isOnline`
     * effect starts a pass.  Otherwise nothing else changes.
     */
    method OnConnectivityEvent(hostOnline: bool, backend: Backend)
      returns (ghost pass: Option<SyncResult>, ghost sent: seq<Request>)
      requires Valid()
      modifies this, store
      ensures Valid() && store.nextId == old(store.nextId)
      ensures isOnline == hostOnline
      ensures pass.Some? <==> !old(isOnline) && hostOnline
      ensures pass.None? ==> sent == [] && store.jobs == old(store.jobs) && pending == old(pending) && lastError == old(lastError)
      ensures pass.Some? ==> pass.value == Drain(old(store.Snapshot()), backend)
      ensures pass.Some? ==> sent == Attempted(old(store.Snapshot()), backend)
      ensures pass.Some? ==> store.Snapshot() == old(store.Snapshot())[pass.value.processed..]
      ensures pass.Some? ==> lastError == NextLastError(old(lastError), pass.value) && pending == |store.jobs|
    {
      var wasOnline := isOnline;
      isOnline := hostOnline;
      if !wasOnline && isOnline {
        var r, requests := RunSync(hostOnline, backend);
        pass, sent := Some(r), requests;
      } else {
        pass, sent := None, [];
      }
    }
  }
}
