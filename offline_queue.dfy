/**
 * The durable write outbox of lib/offline-queue.ts.
 *
 * The IndexedDB object store "jobs" (key path "id", auto-increment) is a
 * `JobStore`: a map from key to job plus the store's key generator
 * `nextId`.  The Supabase client is an oracle `Backend` that answers each
 * request of a drain pass with success or an error.  `navigator.onLine` is a
 * boolean parameter.
 */
module OfflineQueue {
  import opened Wrappers

  /** A column or argument value; `Number(text)` conversions stay opaque. */
  datatype Value = Text(text: string) | Int(n: int) | ParsedNumber(input: string)

  /** A `Record<string, unknown>`: RPC arguments or a row to insert. */
  type Record = map<string, Value>

  /** The two kinds of deferred mutation (`type: "rpc"` and `type: "insert"`). */
  datatype Mutation =
    | Rpc(fn: string, args: Record)
    | Insert(table: string, payload: Record)

  /** A stored job: its mutation and its opaque `createdAt` timestamp; its id is its key. */
  datatype Job = Job(mutation: Mutation, createdAt: string)

  /** One record returned by `getAll`: a key with the job stored under it. */
  datatype Entry = Entry(id: nat, job: Job)

  /** A call made on the backend: `supabase.rpc(fn, args)` or `supabase.from(table).insert(row)`. */
  datatype Request =
    | Invoke(procedure: string, args: Record)
    | InsertRow(table: string, row: Record)

  /** The error a backend call reports; `isErrorInstance` says whether `err instanceof Error` holds. */
  datatype BackendError = BackendError(message: string, isErrorInstance: bool)

  datatype Outcome = Ok | Err(error: BackendError)

  /** The backend's answer to the i-th request of a drain pass. */
  type Backend = (nat, Request) -> Outcome

  /** What `syncQueue` resolves to: `{ ok, processed, error? }`. */
  datatype SyncResult = SyncResult(ok: bool, processed: nat, error: Option<string>)

  /** IndexedDB's key generator hands out 1 first. */
  const FirstId: nat := 1
  const OfflineError := "offline"
  const FallbackError := "sync_failed"

  /** The result of a pass that starts while the host is offline. */
  const OfflineResult := SyncResult(false, 0, Some(OfflineError))

  /** The backend call a job is replayed as: exhaustive over the two kinds. */
  function Dispatch(m: Mutation): (r: Request)
    ensures r.Invoke? <==> m.Rpc?
    ensures m.Rpc? ==> r.procedure == m.fn && r.args == m.args
    ensures m.Insert? ==> r.table == m.table && r.row == m.payload
  {
    match m
    case Rpc(fn, args) => Invoke(fn, args)
    case Insert(table, payload) => InsertRow(table, payload)
  }

  /** The error string a failed pass reports: the message of an `Error`, else "sync_failed". */
  function ErrorText(e: BackendError): (s: string)
    ensures e.isErrorInstance ==> s == e.message
    ensures !e.isErrorInstance ==> s == FallbackError
  {
    if e.isErrorInstance then e.message else FallbackError
  }

  /** The keys of a listing. */
  function IdSet(entries: seq<Entry>): set<nat>
  {
    if entries == [] then {} else {entries[0].id} + IdSet(entries[1..])
  }

  /** A key is in IdSet(entries) exactly when some entry carries it. */
  lemma {:induction false} IdSetMembers(entries: seq<Entry>)
    ensures forall i :: 0 <= i < |entries| ==> entries[i].id in IdSet(entries)
    ensures forall k :: k in IdSet(entries) ==> exists i :: 0 <= i < |entries| && entries[i].id == k
  {
    if entries != [] {
      IdSetMembers(entries[1..]);
      forall k | k in IdSet(entries) ensures exists i :: 0 <= i < |entries| && entries[i].id == k {
        if k != entries[0].id {
          var j :| 0 <= j < |entries| - 1 && entries[1..][j].id == k;
          assert entries[j + 1].id == k;
        }
      }
    }
  }

  ghost predicate Ascending(entries: seq<Entry>)
  {
    forall i, j :: 0 <= i < j < |entries| ==> entries[i].id < entries[j].id
  }

  /** Every entry carries the job that `m` stores under its id. */
  ghost predicate StoredIn(entries: seq<Entry>, m: map<nat, Job>)
  {
    forall i :: 0 <= i < |entries| ==> entries[i].id in m && entries[i].job == m[entries[i].id]
  }

  /** The jobs of `m` whose keys lie in [lo, hi), in ascending key order. */
  function EntriesBetween(m: map<nat, Job>, lo: nat, hi: nat): seq<Entry>
    decreases hi - lo
  {
    if lo >= hi then []
    else if lo in m then [Entry(lo, m[lo])] + EntriesBetween(m, lo + 1, hi)
    else EntriesBetween(m, lo + 1, hi)
  }

  /** EntriesBetween lists, in ascending order, exactly the stored jobs with keys in [lo, hi). */
  lemma {:induction false} EntriesBetweenListing(m: map<nat, Job>, lo: nat, hi: nat)
    decreases hi - lo
    ensures var snap := EntriesBetween(m, lo, hi);
      && Ascending(snap) && StoredIn(snap, m)
      && forall k :: k in IdSet(snap) <==> k in m && lo <= k < hi
  {
    if lo < hi {
      var rest := EntriesBetween(m, lo + 1, hi);
      EntriesBetweenListing(m, lo + 1, hi);
      if lo in m {
        var snap := [Entry(lo, m[lo])] + rest;
        assert snap[1..] == rest;
        IdSetMembers(rest);
        forall i | 1 <= i < |snap| ensures snap[i] == rest[i - 1] && lo < snap[i].id {}
      }
    }
  }

  /** `getAll()` over a store whose keys all lie below `bound`. */
  function SnapshotOf(m: map<nat, Job>, bound: nat): seq<Entry>
  {
    EntriesBetween(m, FirstId, bound)
  }

  lemma {:induction false} AscendingIdCount(entries: seq<Entry>)
    requires Ascending(entries)
    ensures |IdSet(entries)| == |entries|
  {
    if entries != [] {
      var rest := entries[1..];
      AscendingIdCount(rest);
      IdSetMembers(rest);
      assert entries[0].id !in IdSet(rest) by {
        forall i | 0 <= i < |rest| ensures rest[i].id != entries[0].id {
          assert rest[i] == entries[i + 1];
        }
      }
    }
  }

  /** Dropping the head of an ascending listing drops exactly its key and keeps the rest in order. */
  lemma AscendingTail(a: seq<Entry>, m: map<nat, Job>)
    requires Ascending(a) && StoredIn(a, m) && a != []
    ensures Ascending(a[1..]) && StoredIn(a[1..], m)
    ensures IdSet(a[1..]) == IdSet(a) - {a[0].id}
  {
    forall i | 0 <= i < |a[1..]| ensures a[1..][i] == a[i + 1] && a[1..][i].id != a[0].id {}
    AbsentKey(a[1..], a[0].id);
  }

  /** A key that no entry carries is not in IdSet. */
  lemma {:induction false} AbsentKey(entries: seq<Entry>, k: nat)
    requires forall i :: 0 <= i < |entries| ==> entries[i].id != k
    ensures k !in IdSet(entries)
  {
    if entries != [] {
      forall i | 0 <= i < |entries[1..]| ensures entries[1..][i].id != k {
        assert entries[1..][i] == entries[i + 1];
      }
      AbsentKey(entries[1..], k);
    }
  }

  /** Ascending listings of the same keys start with the same entry. */
  lemma AscendingHeadsAgree(a: seq<Entry>, b: seq<Entry>, m: map<nat, Job>)
    requires Ascending(a) && Ascending(b) && StoredIn(a, m) && StoredIn(b, m)
    requires IdSet(a) == IdSet(b) && a != []
    ensures b != [] && a[0] == b[0]
  {
    IdSetMembers(a);
    IdSetMembers(b);
    assert a[0].id in IdSet(b);
    var i :| 0 <= i < |b| && b[i].id == a[0].id;
    assert b[0].id in IdSet(a);
    var j :| 0 <= j < |a| && a[j].id == b[0].id;
    assert a[0].id <= a[j].id && b[0].id <= b[i].id;
  }

  /** Two ascending listings of the same keys of the same store are the same listing. */
  lemma {:induction false} AscendingListingUnique(a: seq<Entry>, b: seq<Entry>, m: map<nat, Job>)
    requires Ascending(a) && Ascending(b) && StoredIn(a, m) && StoredIn(b, m)
    requires IdSet(a) == IdSet(b)
    ensures a == b
  {
    if a == [] {
      assert b == [] by { if b != [] { AscendingHeadsAgree(b, a, m); } }
    } else {
      AscendingHeadsAgree(a, b, m);
      AscendingTail(a, m);
      AscendingTail(b, m);
      AscendingListingUnique(a[1..], b[1..], m);
      assert a == [a[0]] + a[1..] && b == [b[0]] + b[1..];
    }
  }

  /** Appending an entry to a listing adds exactly its key. */
  lemma IdSetSnoc(entries: seq<Entry>, e: Entry)
    ensures IdSet(entries + [e]) == IdSet(entries) + {e.id}
  {
    var x := entries + [e];
    IdSetMembers(entries);
    IdSetMembers(x);
    assert x[|entries|] == e;
    forall k | k in IdSet(entries) ensures k in IdSet(x) {
      var i :| 0 <= i < |entries| && entries[i].id == k;
      assert x[i] == entries[i];
    }
  }

  /** A store whose keys lie in [FirstId, bound). */
  ghost predicate KeysBelow(m: map<nat, Job>, bound: nat)
  {
    forall id :: id in m ==> FirstId <= id < bound
  }

  /** `getAll()` lists every stored job exactly once, in ascending key order. */
  lemma SnapshotCovers(m: map<nat, Job>, bound: nat)
    requires KeysBelow(m, bound)
    ensures var snap := SnapshotOf(m, bound);
      && Ascending(snap) && StoredIn(snap, m)
      && IdSet(snap) == m.Keys && |snap| == |m|
  {
    var snap := SnapshotOf(m, bound);
    EntriesBetweenListing(m, FirstId, bound);
    AscendingIdCount(snap);
    assert IdSet(snap) == m.Keys;
  }

  /**
   * FIFO across enqueues: a job stored under the next key joins the end of the
   * snapshot, behind every job already stored.
   */
  lemma EnqueueAppendsToSnapshot(m: map<nat, Job>, bound: nat, job: Job)
    requires KeysBelow(m, bound) && FirstId <= bound
    ensures SnapshotOf(m[bound := job], bound + 1) == SnapshotOf(m, bound) + [Entry(bound, job)]
  {
    var before := SnapshotOf(m, bound);
    SnapshotCovers(m, bound);
    var after := SnapshotOf(m[bound := job], bound + 1);
    SnapshotCovers(m[bound := job], bound + 1);
    ListingAfterAppend(before, after, m, bound, job);
  }

  /** The ascending listing of a store with one larger key added is the old listing plus that key. */
  lemma ListingAfterAppend(before: seq<Entry>, after: seq<Entry>, m: map<nat, Job>, bound: nat, job: Job)
    requires KeysBelow(m, bound)
    requires Ascending(before) && StoredIn(before, m) && IdSet(before) == m.Keys
    requires Ascending(after) && StoredIn(after, m[bound := job]) && IdSet(after) == m[bound := job].Keys
    ensures after == before + [Entry(bound, job)]
  {
    AppendLargerKey(before, m, bound, job);
    AscendingListingUnique(after, before + [Entry(bound, job)], m[bound := job]);
  }

  lemma AppendLargerKey(before: seq<Entry>, m: map<nat, Job>, bound: nat, job: Job)
    requires Ascending(before) && StoredIn(before, m) && KeysBelow(m, bound)
    requires IdSet(before) == m.Keys
    ensures var after := before + [Entry(bound, job)];
      Ascending(after) && StoredIn(after, m[bound := job]) && IdSet(after) == m[bound := job].Keys
  {
    var after := before + [Entry(bound, job)];
    IdSetSnoc(before, Entry(bound, job));
    forall i | 0 <= i < |before| ensures after[i] == before[i] && before[i].id < bound {}
  }

  /** Whether the backend accepts the i-th job of a pass. */
  predicate Succeeds(snap: seq<Entry>, backend: Backend, i: nat)
    requires i < |snap|
  {
    backend(i, Dispatch(snap[i].job.mutation)).Ok?
  }

  /** How many jobs, from the i-th on, succeed before the first failure. */
  function ProcessedFrom(snap: seq<Entry>, backend: Backend, i: nat): (p: nat)
    requires i <= |snap|
    decreases |snap| - i
    ensures i <= p <= |snap|
    ensures forall j :: i <= j < p ==> Succeeds(snap, backend, j)
    ensures p < |snap| ==> !Succeeds(snap, backend, p)
  {
    if i == |snap| || !Succeeds(snap, backend, i) then i
    else ProcessedFrom(snap, backend, i + 1)
  }

  /** The length of the longest run of successes at the front of the snapshot. */
  function Processed(snap: seq<Entry>, backend: Backend): nat
  {
    ProcessedFrom(snap, backend, 0)
  }

  /** The requests a sequence of jobs is replayed as, in order. */
  function Requests(entries: seq<Entry>): (rs: seq<Request>)
  {
    seq(|entries|, i requires 0 <= i < |entries| => Dispatch(entries[i].job.mutation))
  }

  /** The result of a pass that starts online over snapshot `snap`. */
  function Drain(snap: seq<Entry>, backend: Backend): SyncResult
  {
    var p := Processed(snap, backend);
    if p == |snap| then SyncResult(true, p, None)
    else SyncResult(false, p, Some(ErrorText(backend(p, Dispatch(snap[p].job.mutation)).error)))
  }

  /** The requests an online pass sends: the successes and, if any, the first failure. */
  function Attempted(snap: seq<Entry>, backend: Backend): seq<Request>
  {
    var p := Processed(snap, backend);
    Requests(snap[..if p < |snap| then p + 1 else p])
  }

  /**
   * Stop on first failure: when job k is the first the backend rejects, the
   * pass reports k jobs processed with that job's error, and the last request
   * it sends is job k's; no later job is attempted.
   */
  lemma FirstFailureStops(snap: seq<Entry>, backend: Backend, k: nat)
    requires k < |snap|
    requires forall j :: 0 <= j < k ==> Succeeds(snap, backend, j)
    requires !Succeeds(snap, backend, k)
    ensures Drain(snap, backend)
         == SyncResult(false, k, Some(ErrorText(backend(k, Dispatch(snap[k].job.mutation)).error)))
    ensures Attempted(snap, backend) == Requests(snap[..k + 1])
  {
  }

  /** A pass in which every job succeeds reports ok and sends every job, in key order. */
  lemma AllSucceedDrains(snap: seq<Entry>, backend: Backend)
    requires forall j :: 0 <= j < |snap| ==> Succeeds(snap, backend, j)
    ensures Drain(snap, backend) == SyncResult(true, |snap|, None)
    ensures Attempted(snap, backend) == Requests(snap)
  {
  }

  /**
   * Deleting the first p jobs of the snapshot leaves exactly the rest of the
   * snapshot, in the same order, and p fewer jobs.
   */
  lemma DrainLeavesSuffix(m: map<nat, Job>, bound: nat, p: nat)
    requires KeysBelow(m, bound)
    requires p <= |SnapshotOf(m, bound)|
    ensures var snap := SnapshotOf(m, bound);
      && SnapshotOf(m - IdSet(snap[..p]), bound) == snap[p..]
      && |m - IdSet(snap[..p])| == |m| - p
  {
    var snap := SnapshotOf(m, bound);
    SnapshotCovers(m, bound);
    var m' := m - IdSet(snap[..p]);
    SuffixIsListing(snap, p, m);
    var after := SnapshotOf(m', bound);
    SnapshotCovers(m', bound);
    AscendingListingUnique(after, snap[p..], m');
  }

  /** What is left of an ascending listing after its first p entries are deleted from the store. */
  lemma SuffixIsListing(snap: seq<Entry>, p: nat, m: map<nat, Job>)
    requires Ascending(snap) && StoredIn(snap, m) && IdSet(snap) == m.Keys
    requires p <= |snap|
    ensures var m' := m - IdSet(snap[..p]);
      Ascending(snap[p..]) && StoredIn(snap[p..], m') && IdSet(snap[p..]) == m'.Keys
  {
    PrefixSuffixDisjoint(snap, p);
    SplitIdSet(snap, p);
    IdSetMembers(snap[p..]);
    forall i | 0 <= i < |snap[p..]| ensures snap[p..][i] == snap[p + i] {}
  }

  /** In an ascending listing no key of the first p entries reappears later. */
  lemma PrefixSuffixDisjoint(snap: seq<Entry>, p: nat)
    requires Ascending(snap) && p <= |snap|
    ensures IdSet(snap[..p]) !! IdSet(snap[p..])
  {
    IdSetMembers(snap[..p]);
    IdSetMembers(snap[p..]);
    forall k | k in IdSet(snap[..p]) ensures k !in IdSet(snap[p..]) {
      var i :| 0 <= i < p && snap[..p][i].id == k;
      assert snap[i].id == k;
    }
  }

  /** The keys of a listing are those of its first p entries and those of the rest. */
  lemma {:induction false} SplitIdSet(snap: seq<Entry>, p: nat)
    requires p <= |snap|
    ensures IdSet(snap) == IdSet(snap[..p]) + IdSet(snap[p..])
  {
    if p == 0 {
      assert snap[..0] == [] && snap[0..] == snap;
    } else {
      SplitIdSet(snap[1..], p - 1);
      assert snap[1..][..p - 1] == snap[..p][1..];
      assert snap[1..][p - 1..] == snap[p..];
    }
  }

  /**
   * The IndexedDB object store: jobs by key, and the key generator, which only
   * moves forward, so a key is never handed out twice.
   */
  class JobStore {
    var jobs: map<nat, Job>
    var nextId: nat

    ghost predicate Valid()
      reads this
    {
      FirstId <= nextId && KeysBelow(jobs, nextId)
    }

    /** The store as `openDB` creates it: empty, its key generator at 1. */
    constructor ()
      ensures Valid() && jobs == map[] && nextId == FirstId && Snapshot() == []
    {
      jobs := map[];
      nextId := FirstId;
    }

    /** `store.getAll()`: every job, in ascending key order. */
    function Snapshot(): seq<Entry>
      reads this
    {
      SnapshotOf(jobs, nextId)
    }

    /**
     * `enqueue`: stores the job under a fresh key, larger than every key the
     * store has handed out, and changes no other job.
     */
    method Enqueue(m: Mutation, createdAt: string)
      requires Valid()
      modifies this
      ensures Valid()
      ensures old(nextId) !in old(jobs) && forall id :: id in old(jobs) ==> id < old(nextId)
      ensures jobs == old(jobs)[old(nextId) := Job(m, createdAt)]
      ensures nextId == old(nextId) + 1
      ensures |jobs| == |old(jobs)| + 1
      ensures Snapshot() == old(Snapshot()) + [Entry(old(nextId), Job(m, createdAt))]
    {
      EnqueueAppendsToSnapshot(jobs, nextId, Job(m, createdAt));
      jobs := jobs[nextId := Job(m, createdAt)];
      nextId := nextId + 1;
    }

    /** `pendingCount`: how many jobs the store holds. */
    method PendingCount() returns (n: nat)
      requires Valid()
      ensures n == |jobs| && n == |Snapshot()|
      ensures n == 0 <==> jobs == map[]
    {
      SnapshotCovers(jobs, nextId);
      n := |jobs|;
    }

    /** `store.delete(id)`: removing an absent key is not an error and changes nothing. */
    method Delete(id: nat)
      requires Valid()
      modifies this
      ensures Valid() && nextId == old(nextId)
      ensures jobs == old(jobs) - {id}
      ensures id !in old(jobs) ==> jobs == old(jobs)
    {
      jobs := jobs - {id};
    }
  }

  /**
   * `syncQueue`: one drain pass.  Offline, it reports "offline" and touches
   * nothing.  Online, it replays the snapshot in key order, deletes each job
   * after the backend accepts it, and stops at the first rejection.
   */
  method SyncQueue(db: JobStore, online: bool, backend: Backend) returns (result: SyncResult, sent: seq<Request>)
    requires db.Valid()
    modifies db
    ensures db.Valid() && db.nextId == old(db.nextId)
    ensures !online ==> result == OfflineResult && sent == [] && db.jobs == old(db.jobs)
    ensures online ==> result == Drain(old(db.Snapshot()), backend)
    ensures online ==> sent == Attempted(old(db.Snapshot()), backend)
    ensures db.jobs == old(db.jobs) - IdSet(old(db.Snapshot())[..result.processed])
    ensures db.Snapshot() == old(db.Snapshot())[result.processed..]
    ensures result.processed == |old(db.jobs)| - |db.jobs|
  {
    if !online {
      assert old(db.Snapshot())[..0] == [] && old(db.Snapshot())[0..] == old(db.Snapshot());
      return OfflineResult, [];
    }
    var jobs := db.Snapshot();
    result, sent := Replay(db, jobs, backend);
    DrainLeavesSuffix(old(db.jobs), db.nextId, result.processed);
  }

  /**
   * The loop of `syncQueue` over the snapshot `jobs`: the i-th job goes to the
   * backend as the i-th request of the pass, is deleted once accepted, and the
   * first rejection ends the pass.
   */
  method Replay(db: JobStore, jobs: seq<Entry>, backend: Backend) returns (result: SyncResult, sent: seq<Request>)
    requires db.Valid()
    modifies db
    ensures db.Valid() && db.nextId == old(db.nextId)
    ensures result == Drain(jobs, backend) && sent == Attempted(jobs, backend)
    ensures result.processed <= |jobs|
    ensures db.jobs == old(db.jobs) - IdSet(jobs[..result.processed])
  {
    var processed := 0;
    sent := [];
    for i := 0 to |jobs|
      invariant db.Valid() && db.nextId == old(db.nextId)
      invariant processed == i
      invariant forall j :: 0 <= j < i ==> Succeeds(jobs, backend, j)
      invariant db.jobs == old(db.jobs) - IdSet(jobs[..i])
      invariant sent == Requests(jobs[..i])
    {
      var request := Dispatch(jobs[i].job.mutation);
      var outcome := backend(i, request);
      assert jobs[..i + 1] == jobs[..i] + [jobs[i]];
      sent := sent + [request];
      if outcome.Err? {
        FirstFailureStops(jobs, backend, i);
        return SyncResult(false, processed, Some(ErrorText(outcome.error))), sent;
      }
      IdSetSnoc(jobs[..i], jobs[i]);
      db.Delete(jobs[i].id);
      processed := processed + 1;
    }
    AllSucceedDrains(jobs, backend);
    assert jobs[..|jobs|] == jobs;
    result := SyncResult(true, processed, None);
  }
}
