# Offline write outbox of the vadio winery app, in Dafny

This project models the client-side durable write outbox of the vadio app and
proves properties of the model. The app sends its mutations to a Supabase
backend. It has three parts:

- **The outbox** (`lib/offline-queue.ts`). This is an IndexedDB object store of jobs with an
  auto-increment key. A job is an `rpc` call or a table `insert`. `enqueue` stores a job
  under the next key. `pendingCount` counts the jobs. `syncQueue` runs one drain pass.
  While offline it returns `{ok:false, processed:0, error:"offline"}`. Otherwise it
  takes a snapshot of the store in key order and replays each job against the backend.
  It deletes each job after the backend accepts it and stops at the first rejection.
- **The capture rule** (`components/tank-actions.tsx`). `runRpcOrQueue` queues an RPC
  when the host is offline, or when the RPC fails with an error whose message contains
  "network". It rethrows any other error. The `addAnalysis` and `haccp` form handlers
  queue their row insert when the host is offline.
- **The sync-status hook** (`hooks/use-sync-status.ts`). It holds `isOnline`, `pending`
  and `lastError`. It runs a drain pass on mount and whenever `isOnline` turns from
  false to true. It turns each pass's result into state.

Modelling choices:

- The object store is the class `OfflineQueue.JobStore`. It holds a map from key to job
  and the key generator `nextId`, which hands out 1 first.
- `getAll` is `EntriesBetween`, which lists the keys in ascending order by construction.
- The Supabase client is an oracle, `Backend`. It answers the i-th request of a pass
  with `Ok` or an error. The error carries a message and a flag that says whether it
  is an `Error` instance.
- `navigator.onLine`, the clock (`createdAt`) and the backend's answers are parameters.
- React state cells are class fields. Each callback is a method.
- The requests a call sends to the backend are returned as a sequence. In the hook's
  methods this sequence is a ghost output. This is how the contracts state order and
  "no call was made".

Behaviours of the code a reader might not expect:

- `addAnalysis` looks up the density parameter on the backend *before* it checks
  `navigator.onLine`. It queues a reading only when that lookup returned an id. The
  model takes the lookup's result as an input.
- `runSync` treats any failed pass whose error text is exactly "offline" as an offline
  stop. That includes a backend rejection whose message is "offline": such a rejection
  is not shown (`UseSyncStatus.LastErrorAfterOnlinePass`).
- `lastError` is never cleared, even by a later successful pass. `Scenarios.RejectedThenAccepted`
  proves that it stays set.
- There is no single-flight guard around `runSync`.
- The hook starts a drain pass on mount, because the `isOnline` effect first runs with
  the initial value `true`.

## Model

| member | source | states |
|---|---|---|
| `OfflineQueue.Dispatch` | lib/offline-queue.ts:45-52 | dispatch is exhaustive by kind: an `rpc` job becomes a call of procedure `fn` with `args`, an `insert` job an insert of `payload` into `table`, and nothing else |
| `OfflineQueue.ErrorText` | lib/offline-queue.ts:57 | a failed pass reports the error's message when it is an `Error`, and "sync_failed" otherwise |
| `OfflineQueue.EntriesBetweenListing` | lib/offline-queue.ts:17 | the key-ordered listing of a key range is strictly ascending, carries each key's stored job, and holds exactly the stored keys in the range |
| `OfflineQueue.SnapshotCovers` | lib/offline-queue.ts:39 | `getAll` lists every stored job exactly once, in ascending key order, so its length is the store's count |
| `OfflineQueue.JobStore.constructor` | lib/offline-queue.ts:13-21 | the object store starts empty, with an empty snapshot and its key generator at 1 |
| `OfflineQueue.JobStore.Enqueue` | lib/offline-queue.ts:23-26 | the job is stored under a key that is larger than every key handed out before; no other job changes; the count rises by exactly one; the job joins the end of the snapshot |
| `OfflineQueue.EnqueueAppendsToSnapshot` | lib/offline-queue.ts:17 | a job stored under the next key is listed after every job already stored, so replay follows capture order |
| `OfflineQueue.JobStore.PendingCount` | lib/offline-queue.ts:28-31 | the count is the number of stored jobs, which is the snapshot's length; it is zero exactly when the store is empty |
| `OfflineQueue.JobStore.Delete` | lib/offline-queue.ts:53 | removes exactly that key; removing an absent key changes nothing |
| `OfflineQueue.ProcessedFrom` | lib/offline-queue.ts:43-58 | the number processed is the length of the run of accepted jobs at the front of the snapshot: every job before it was accepted, and the job at that position (if any) was rejected |
| `OfflineQueue.AscendingListingUnique` | lib/offline-queue.ts:39 | two ascending listings of the same keys of one store are equal, so the key order fixes the snapshot |
| `OfflineQueue.FirstFailureStops` | lib/offline-queue.ts:43-58 | if job k is the first the backend rejects, the pass reports `{ok:false, processed:k}` with job k's error text, and the last request it sends is job k's |
| `OfflineQueue.AllSucceedDrains` | lib/offline-queue.ts:42-62 | if the backend accepts every job, the pass reports `{ok:true, processed:n}` for the n snapshot jobs and sends every job in key order |
| `OfflineQueue.DrainLeavesSuffix` | lib/offline-queue.ts:53-57 | deleting the first p snapshot jobs leaves exactly the rest of the snapshot, in the same order, with p fewer jobs |
| `OfflineQueue.SyncQueue` | lib/offline-queue.ts:33-63 | offline: reports "offline" with nothing processed, sends nothing and leaves the store alone; online: the result and the requests sent are those of the drain specification over the snapshot; the store loses exactly the processed prefix; what remains is the rest of the snapshot; `processed` equals the number of deletions |
| `OfflineQueue.Replay` | lib/offline-queue.ts:42-62 | the loop sends the i-th snapshot job as the i-th request, deletes it only after the backend accepts it, and returns at the first rejection with the count of deletions and the error text |
| `UseSyncStatus.NextLastError` | hooks/use-sync-status.ts:17 | an ok or "offline" result leaves `lastError` as it was; any other failed result sets it to that result's error, or "sync_failed"; a non-empty `lastError` is never cleared |
| `UseSyncStatus.OfflinePassKeepsLastError` | hooks/use-sync-status.ts:17 | a pass that starts offline never changes `lastError` |
| `UseSyncStatus.LastErrorAfterOnlinePass` | hooks/use-sync-status.ts:17 | after an online pass, `lastError` is unchanged if the pass drained everything; otherwise it is the first rejected job's error text, unless that text is "offline" |
| `UseSyncStatus.SyncStatus.constructor` | hooks/use-sync-status.ts:7-9 | the initial state is online, nothing pending, no error |
| `UseSyncStatus.SyncStatus.RefreshPending` | hooks/use-sync-status.ts:11-13 | `pending` becomes the store's count; nothing else changes |
| `UseSyncStatus.SyncStatus.RunSync` | hooks/use-sync-status.ts:15-19 | runs one drain pass and sends exactly the pass's requests (none offline), applies the `lastError` rule to its result, and leaves `pending` equal to the store's new count, which is the old count minus the jobs processed |
| `UseSyncStatus.SyncStatus.Mount` | hooks/use-sync-status.ts:21-35 | on mount `isOnline` takes the host's reading, `pending` is refreshed, and one drain pass runs, sending exactly the pass's requests |
| `UseSyncStatus.SyncStatus.OnConnectivityEvent` | hooks/use-sync-status.ts:22-35 | on an `online` or `offline` event `isOnline` takes the host's reading; a drain pass runs exactly when that turns `isOnline` from false to true, and it sends exactly the requests of a pass over the snapshot; otherwise no request is sent and the store, `pending` and `lastError` are unchanged |
| `TankActions.Includes` | components/tank-actions.tsx:25 | the search answers true exactly when the word occurs at some position of the message |
| `TankActions.Capture` | components/tank-actions.tsx:13-36 | a call is queued exactly when the host is offline or the RPC failed with a "network" error; it returns unqueued exactly when online and the RPC succeeded; it throws the backend's own error exactly in the remaining case |
| `TankActions.RunRpcOrQueue` | components/tank-actions.tsx:13-36 | offline: one `rpc` job with `fn` and `args` is queued and no backend call is made; online: exactly one call of `fn` with `args` is made; the store gains that one job at its end when the result is queued, and is untouched otherwise |
| `TankActions.AnalysisInsert` | components/tank-actions.tsx:57-66 | the reading goes to `analysis_reading` with the batch, the tank, the density parameter and the entered value, and no other column |
| `TankActions.HaccpInsert` | components/tank-actions.tsx:118-125 | the cleaning record goes to `haccp_cleaning` with the tank, the chosen method and the fixed values Peracetic, 0.2%, 20 minutes and Operator |
| `TankActions.Panel.constructor` | components/tank-actions.tsx:38-40 | the panel starts with no message, bound to its tank, its batch and its own sync-status hook |
| `TankActions.Panel.AddAnalysis` | components/tank-actions.tsx:48-79 | without a batch it stops before any backend call; without a density id it queues nothing; offline it queues exactly one `insert` job under the next key, carrying the row the online path would insert, and refreshes `pending`; online it sends that row and queues nothing; every path that queues nothing leaves the store and `pending` unchanged |
| `TankActions.Panel.Haccp` | components/tank-actions.tsx:116-137 | offline it queues exactly one `insert` job into `haccp_cleaning` under the next key, carrying the record the online path would insert, and refreshes `pending`; online it sends that record and leaves the store and `pending` unchanged |
| `Scenarios.CaptureThenReplay` | hooks/use-sync-status.ts:33-35 | with one hook instance shared by the panel, a cleaning saved offline leaves one job pending; when connectivity returns, the requests the reconnect pass sends are exactly that insert, and that instance ends with nothing pending and no `lastError` |
| `Scenarios.StopOnFailure` | lib/offline-queue.ts:43-58 | with three jobs and the second rejected: the pass reports one processed with the rejection text, sends only the first two requests, and leaves the second and third jobs in order |
| `Scenarios.RejectedThenAccepted` | hooks/use-sync-status.ts:17 | a rejected transfer stays pending and its message is shown; a later accepted retry empties the queue while the message stays |

## Left out

- IndexedDB itself (`openDB`, the upgrade callback, transactions) is not modelled. Each store operation is atomic and reliable. Whether the readwrite transaction of `syncQueue` auto-commits while network calls are awaited is host behaviour and is not modelled.
- A failing `store.delete` or `enqueue` (quota, corruption) is not modelled. Both are assumed to succeed.
- The Supabase client is not modelled. Its answers are oracle inputs, and errors the client might throw instead of returning are not distinguished.
- Overlapping `runSync` calls are not modelled: every pass runs to completion before the next event. The code has no single-flight guard, so the model adds none.
- The asynchronous interleaving of the mount effects is not modelled. On mount, `refreshPending` and the first `runSync` run one after the other.
- Unsubscribing the listeners on unmount is not modelled, because it changes no state the model holds.
- `toLowerCase` is modelled for ASCII letters only. Unicode case mapping is left out.
- `Number(...)` conversions of form text are floating point. They stay opaque as `ParsedNumber(text)`.
- `createdAt` comes from the clock. It is an opaque string parameter.
- The `transfer` and `addition` handlers are not modelled; they are callers of the capture rule, not part of it. Each stops with a message when there is no batch, builds the RPC arguments from form fields, calls `runRpcOrQueue` (modelled as `TankActions.RunRpcOrQueue`), refreshes `pending`, and turns a rethrown error into the panel message.
- The model has one hook instance. On the tank page the header and the panel each call `useSyncStatus` (components/app-header.tsx:7, components/tank-actions.tsx:39), so there are two instances over one store. The panel's `refreshPending` after an offline capture updates only the panel's own `pending`, which is never rendered, so the header's pending count is not refreshed then. Every mount and every reconnect starts one pass per instance, so two passes overlap on the same store as a matter of course; the model runs each pass alone.
- The density lookup in `addAnalysis` is modelled by its result only (an id or none). Its own error is ignored, as the code ignores it.
- The JSX of `TankActions`, the other pages, the header and the layout are not modelled. They are rendering, routing and authentication.
