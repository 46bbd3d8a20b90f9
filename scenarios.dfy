/**
 * Client programs that drive the model through three end-to-end runs of the
 * outbox (capture then replay, stop on the first rejection, a rejection
 * followed by an accepted retry), using only the contracts of the other
 * modules.
 */
module Scenarios {
  import opened Wrappers
  import opened OfflineQueue
  import opened UseSyncStatus
  import opened TankActions

  /**
   * Capture then replay, with one hook instance shared by the panel: the
   * app mounts offline, a HACCP cleaning is saved offline (one job pending),
   * connectivity returns, and the pass the `isOnline` effect starts sends
   * exactly that insert.  The backend accepts it, so that instance ends with
   * nothing pending and no `lastError`.
   */
  method CaptureThenReplay(tankId: string, cleaningMethod: string, createdAt: string)
    returns (pendingAfterCapture: nat, pendingAfterReplay: nat, shownError: Option<string>, ghost replayed: seq<Request>)
    ensures pendingAfterCapture == 1 && pendingAfterReplay == 0 && shownError == None
    ensures replayed == [Dispatch(HaccpInsert(tankId, cleaningMethod))]
  {
    var acceptAll: Backend := (i, r) => Ok;
    var store := new JobStore();
    var status := new SyncStatus(store);
    ghost var mounted, mountSent := status.Mount(false, acceptAll);
    var form := new Panel(tankId, None, status);
    var offlineSent := form.Haccp(false, cleaningMethod, Ok, createdAt);
    pendingAfterCapture := status.pending;
    ghost var job := Entry(FirstId, Job(HaccpInsert(tankId, cleaningMethod), createdAt));
    assert store.Snapshot() == [job];
    AllSucceedDrains([job], acceptAll);
    ghost var pass;
    pass, replayed := status.OnConnectivityEvent(true, acceptAll);
    SnapshotCovers(store.jobs, store.nextId);
    pendingAfterReplay := status.pending;
    shownError := status.lastError;
  }

  /**
   * Stop on first failure: of three queued jobs the backend rejects the
   * second.  The first is deleted, the second is attempted and kept, the
   * third is never attempted and kept.
   */
  method StopOnFailure(a: Mutation, b: Mutation, c: Mutation, rejection: string)
    returns (result: SyncResult, sent: seq<Request>, ghost left: seq<Entry>)
    ensures result == SyncResult(false, 1, Some(rejection))
    ensures sent == [Dispatch(a), Dispatch(b)]
    ensures left == [Entry(2, Job(b, "t2")), Entry(3, Job(c, "t3"))]
  {
    var rejectSecond: Backend := (i, r) => if i == 1 then Err(BackendError(rejection, true)) else Ok;
    var store := new JobStore();
    ghost var e1, e2, e3 := Entry(1, Job(a, "t1")), Entry(2, Job(b, "t2")), Entry(3, Job(c, "t3"));
    store.Enqueue(a, "t1");
    assert store.Snapshot() == [e1];
    store.Enqueue(b, "t2");
    assert store.Snapshot() == [e1, e2];
    store.Enqueue(c, "t3");
    ghost var snap := store.Snapshot();
    assert snap == [e1, e2, e3];
    SecondOfThreeRejected(snap, rejectSecond);
    result, sent := SyncQueue(store, true, rejectSecond);
    left := store.Snapshot();
  }

  lemma SecondOfThreeRejected(snap: seq<Entry>, backend: Backend)
    requires |snap| == 3
    requires backend(0, Dispatch(snap[0].job.mutation)).Ok?
    requires backend(1, Dispatch(snap[1].job.mutation)).Err?
    ensures Drain(snap, backend)
         == SyncResult(false, 1, Some(ErrorText(backend(1, Dispatch(snap[1].job.mutation)).error)))
    ensures Attempted(snap, backend) == [Dispatch(snap[0].job.mutation), Dispatch(snap[1].job.mutation)]
    ensures snap[1..] == [snap[1], snap[2]]
  {
    FirstFailureStops(snap, backend, 1);
  }

  /**
   * A rejected transfer stays at the head of the queue and its message is
   * shown; a later manual sync that the backend accepts empties the queue,
   * and the message stays, since `runSync` never clears `lastError`.
   */
  method RejectedThenAccepted(args: Record, rejection: string, createdAt: string)
    returns (pendingAfterRejection: nat, errorAfterRejection: Option<string>,
             pendingAfterRetry: nat, errorAfterRetry: Option<string>)
    requires rejection != OfflineError
    ensures pendingAfterRejection == 1 && errorAfterRejection == Some(rejection)
    ensures pendingAfterRetry == 0 && errorAfterRetry == Some(rejection)
  {
    var rejectAll: Backend := (i, r) => Err(BackendError(rejection, true));
    var acceptAll: Backend := (i, r) => Ok;
    var store := new JobStore();
    var status := new SyncStatus(store);
    var captured, offlineSent := RunRpcOrQueue(store, false, "rpc_transfer_batch", args, Ok, createdAt);
    ghost var job := Entry(FirstId, Job(Rpc("rpc_transfer_batch", args), createdAt));
    assert store.Snapshot() == [job] by {
      EnqueueAppendsToSnapshot(map[], FirstId, job.job);
    }
    FirstFailureStops([job], rejectAll, 0);
    ghost var first, firstSent := status.RunSync(true, rejectAll);
    pendingAfterRejection, errorAfterRejection := status.pending, status.lastError;
    assert store.Snapshot() == [job];
    AllSucceedDrains([job], acceptAll);
    ghost var second, secondSent := status.RunSync(true, acceptAll);
    pendingAfterRetry, errorAfterRetry := status.pending, status.lastError;
  }
}
