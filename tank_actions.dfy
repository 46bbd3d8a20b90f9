/**
 * The write paths of components/tank-actions.tsx: `runRpcOrQueue`, which
 * runs an RPC now or captures it in the outbox, and the offline branches of
 * the `addAnalysis` and `haccp` form handlers.  The component's `msg` state
 * is a field; the JSX is not modelled.
 */
module TankActions {
  import opened Wrappers
  import opened OfflineQueue
  import opened UseSyncStatus

  /** `toLowerCase` on one character, for the ASCII letters. */
  function LowerChar(c: char): char
  {
    if 'A' <= c <= 'Z' then (c as int - 'A' as int + 'a' as int) as char else c
  }

  function ToLower(s: string): string
  {
    seq(|s|, i requires 0 <= i < |s| => LowerChar(s[i]))
  }

  /** `t` occurs in `s` starting at index i. */
  predicate OccursAt(s: string, t: string, i: nat)
  {
    i + |t| <= |s| && s[i..i + |t|] == t
  }

  lemma OccursShift(s: string, t: string, i: nat)
    requires 1 <= i <= |s|
    ensures OccursAt(s, t, i) <==> OccursAt(s[1..], t, i - 1)
  {
  }

  /** `s.includes(t)`: a front-to-back search for `t` in `s`. */
  function Includes(s: string, t: string): (r: bool)
    decreases |s|
    ensures r <==> exists i :: 0 <= i <= |s| && OccursAt(s, t, i)
  {
    if |t| > |s| then false
    else if s[..|t|] == t then (assert OccursAt(s, t, 0); true)
    else
      var r := Includes(s[1..], t);
      assert forall i :: 1 <= i <= |s| ==> (OccursAt(s, t, i) <==> OccursAt(s[1..], t, i - 1)) by {
        forall i | 1 <= i <= |s| ensures OccursAt(s, t, i) <==> OccursAt(s[1..], t, i - 1) {
          OccursShift(s, t, i);
        }
      }
      assert r ==> exists i :: 0 <= i <= |s| && OccursAt(s, t, i) by {
        if r {
          var j :| 0 <= j <= |s| - 1 && OccursAt(s[1..], t, j);
          assert OccursAt(s, t, j + 1);
        }
      }
      r
  }

  const NetworkWord := "network"

  /** The test `error.message.toLowerCase().includes("network")`. */
  predicate IsNetworkError(e: BackendError)
  {
    Includes(ToLower(e.message), NetworkWord)
  }

  /** How `runRpcOrQueue` ends: it resolves to `{ queued }` or it throws the backend error. */
  datatype Completion = Returned(queued: bool) | Threw(error: BackendError)

  /**
   * The capture rule: offline, queue without calling; online, a success
   * returns unqueued, a network error queues and any other error is rethrown.
   */
  function Capture(hostOnline: bool, response: Outcome): (c: Completion)
    ensures c == Returned(true) <==> !hostOnline || (response.Err? && IsNetworkError(response.error))
    ensures c == Returned(false) <==> hostOnline && response.Ok?
    ensures c.Threw? <==> hostOnline && response.Err? && !IsNetworkError(response.error)
    ensures c.Threw? ==> c.error == response.error
  {
    if !hostOnline then Returned(true)
    else if response.Ok? then Returned(false)
    else if IsNetworkError(response.error) then Returned(true)
    else Threw(response.error)
  }

  /**
   * `runRpcOrQueue(fn, args)`.  `response` is what `supabase.rpc(fn, args)`
   * answers when it is called; it is called only when the host is online.
   * A queued call becomes one `rpc` job under the next key; otherwise the
   * store is untouched.
   */
  method RunRpcOrQueue(db: JobStore, hostOnline: bool, fn: string, args: Record, response: Outcome, createdAt: string)
    returns (c: Completion, sent: seq<Request>)
    requires db.Valid()
    modifies db
    ensures db.Valid()
    ensures c == Capture(hostOnline, response)
    ensures sent == if hostOnline then [Invoke(fn, args)] else []
    ensures c == Returned(true) ==>
      && db.jobs == old(db.jobs)[old(db.nextId) := Job(Rpc(fn, args), createdAt)] && db.nextId == old(db.nextId) + 1
      && db.Snapshot() == old(db.Snapshot()) + [Entry(old(db.nextId), Job(Rpc(fn, args), createdAt))]
    ensures c != Returned(true) ==> db.jobs == old(db.jobs) && db.nextId == old(db.nextId)
  {
    if !hostOnline {
      db.Enqueue(Rpc(fn, args), createdAt);
      return Returned(true), [];
    }
    sent := [Invoke(fn, args)];
    if response.Err? {
      if IsNetworkError(response.error) {
        db.Enqueue(Rpc(fn, args), createdAt);
        return Returned(true), sent;
      }
      return Threw(response.error), sent;
    }
    c := Returned(false);
  }

  const AnalysisTable := "analysis_reading"
  const HaccpTable := "haccp_cleaning"

  const NoBatchMessage := "Sem lote ativo."
  const NoDensityMessage := "Parametro density nao encontrado."
  const AnalysisQueuedMessage := "Analise guardada offline."
  const AnalysisSavedMessage := "Analise registada."
  const HaccpQueuedMessage := "HACCP guardado offline."
  const HaccpSavedMessage := "HACCP registado."

  /** A JavaScript truthiness test on an optional string: null and "" are false. */
  predicate Present(s: Option<string>)
  {
    s.Some? && s.value != ""
  }

  /** The density reading `addAnalysis` inserts, both online and offline. */
  function AnalysisInsert(batchId: string, tankId: string, parameterId: string, analysisValue: string): (m: Mutation)
    ensures m.Insert? && m.table == AnalysisTable
    ensures m.payload.Keys == {"batch_id", "tank_id", "parameter_id", "value_num"}
    ensures m.payload["batch_id"] == Text(batchId) && m.payload["tank_id"] == Text(tankId)
    ensures m.payload["parameter_id"] == Text(parameterId) && m.payload["value_num"] == ParsedNumber(analysisValue)
  {
    Insert(AnalysisTable, map[
      "batch_id" := Text(batchId),
      "tank_id" := Text(tankId),
      "parameter_id" := Text(parameterId),
      "value_num" := ParsedNumber(analysisValue)])
  }

  /** The cleaning record `haccp` inserts, both online and offline. */
  function HaccpInsert(tankId: string, cleaningMethod: string): (m: Mutation)
    ensures m.Insert? && m.table == HaccpTable
    ensures m.payload.Keys == {"tank_id", "method", "chemical", "concentration", "contact_time_min", "responsible_name"}
    ensures m.payload["tank_id"] == Text(tankId) && m.payload["method"] == Text(cleaningMethod)
    ensures m.payload["chemical"] == Text("Peracetic") && m.payload["concentration"] == Text("0.2%")
    ensures m.payload["contact_time_min"] == Int(20) && m.payload["responsible_name"] == Text("Operator")
  {
    Insert(HaccpTable, map[
      "tank_id" := Text(tankId),
      "method" := Text(cleaningMethod),
      "chemical" := Text("Peracetic"),
      "concentration" := Text("0.2%"),
      "contact_time_min" := Int(20),
      "responsible_name" := Text("Operator")])
  }

  /** The `TankActions` component: its props, its own `useSyncStatus` instance and its `msg` state. */
  class Panel {
    const tankId: string
    const batchId: Option<string>
    const status: SyncStatus
    var msg: Option<string>

    ghost predicate Valid()
      reads this, status, status.store
    {
      status.Valid()
    }

    constructor (tankId: string, batchId: Option<string>, status: SyncStatus)
      requires status.Valid()
      ensures Valid() && msg == None
      ensures this.tankId == tankId && this.batchId == batchId && this.status == status
    {
      this.tankId := tankId;
      this.batchId := batchId;
      this.status := status;
      msg := None;
    }

    /**
     * `addAnalysis`.  Without a batch it stops before any backend call.  It
     * then looks up the density parameter (`density` is the id the lookup
     * returns, if any).  Offline, it queues the reading as one `insert` job
     * and refreshes `pending`; online, it sends the same insert.
     */
    method AddAnalysis(hostOnline: bool, analysisValue: string, density: Option<string>, response: Outcome, createdAt: string)
      returns (lookedUp: bool, sent: seq<Request>)
      requires Valid()
      modifies this, status, status.store
      ensures Valid()
      ensures status.isOnline == old(status.isOnline) && status.lastError == old(status.lastError)
      ensures lookedUp <==> Present(batchId)
      ensures !Present(batchId) ==> msg == Some(NoBatchMessage)
      ensures Present(batchId) && !Present(density) ==> msg == Some(NoDensityMessage)
      ensures !(Present(batchId) && Present(density) && !hostOnline) ==>
        && status.store.jobs == old(status.store.jobs) && status.store.nextId == old(status.store.nextId)
        && status.pending == old(status.pending)
      ensures Present(batchId) && Present(density) && !hostOnline ==>
        && sent == []
        && status.store.jobs == old(status.store.jobs)[old(status.store.nextId) :=
             Job(AnalysisInsert(batchId.value, tankId, density.value, analysisValue), createdAt)]
        && status.store.nextId == old(status.store.nextId) + 1
        && status.store.Snapshot() == old(status.store.Snapshot()) +
             [Entry(old(status.store.nextId), Job(AnalysisInsert(batchId.value, tankId, density.value, analysisValue), createdAt))]
        && status.pending == |status.store.jobs|
        && msg == Some(AnalysisQueuedMessage)
      ensures sent != [] <==> Present(batchId) && Present(density) && hostOnline
      ensures sent != [] ==>
        && sent == [Dispatch(AnalysisInsert(batchId.value, tankId, density.value, analysisValue))]
        && msg == Some(if response.Err? then response.error.message else AnalysisSavedMessage)
    {
      if !Present(batchId) {
        msg := Some(NoBatchMessage);
        return false, [];
      }
      lookedUp := true;
      if !Present(density) {
        msg := Some(NoDensityMessage);
        return lookedUp, [];
      }
      var reading := AnalysisInsert(batchId.value, tankId, density.value, analysisValue);
      if !hostOnline {
        status.store.Enqueue(reading, createdAt);
        status.RefreshPending();
        msg := Some(AnalysisQueuedMessage);
        return lookedUp, [];
      }
      sent := [Dispatch(reading)];
      if response.Err? {
        msg := Some(response.error.message);
      } else {
        msg := Some(AnalysisSavedMessage);
      }
    }

    /**
     * `haccp`.  Offline, it queues the cleaning record as one `insert` job
     * and refreshes `pending`; online, it sends the same insert.
     */
    method Haccp(hostOnline: bool, cleaningMethod: string, response: Outcome, createdAt: string)
      returns (sent: seq<Request>)
      requires Valid()
      modifies this, status, status.store
      ensures Valid()
      ensures status.isOnline == old(status.isOnline) && status.lastError == old(status.lastError)
      ensures !hostOnline ==>
        && sent == []
        && status.store.jobs == old(status.store.jobs)[old(status.store.nextId) := Job(HaccpInsert(tankId, cleaningMethod), createdAt)]
        && status.store.nextId == old(status.store.nextId) + 1
        && status.store.Snapshot() == old(status.store.Snapshot()) +
             [Entry(old(status.store.nextId), Job(HaccpInsert(tankId, cleaningMethod), createdAt))]
        && status.pending == |status.store.jobs|
        && msg == Some(HaccpQueuedMessage)
      ensures hostOnline ==>
        && sent == [Dispatch(HaccpInsert(tankId, cleaningMethod))]
        && status.store.jobs == old(status.store.jobs) && status.store.nextId == old(status.store.nextId)
        && status.pending == old(status.pending)
        && msg == Some(if response.Err? then response.error.message else HaccpSavedMessage)
    {
      var record := HaccpInsert(tankId, cleaningMethod);
      if !hostOnline {
        status.store.Enqueue(record, createdAt);
        status.RefreshPending();
        msg := Some(HaccpQueuedMessage);
        return [];
      }
      sent := [Dispatch(record)];
      if response.Err? {
        msg := Some(response.error.message);
      } else {
        msg := Some(HaccpSavedMessage);
      }
    }
  }
}
