/**
 * The browser-side workload store (driver-frontend/src/Providers/WorkloadProvider.tsx):
 * the callback table keyed by message id, the merge of a workload response
 * into the map of known workloads, the routing of incoming messages by
 * status, the stop-all request and the pause/unpause choice. Messages are
 * kept as records rather than JSON text; callbacks are named by tokens; the
 * JSON merge patch is a parameter.
 */
module WorkloadProvider {
  import opened Wrappers

  const OpPauseWorkload: string := "pause_workload"
  const OpUnpauseWorkload: string := "unpause_workload"
  const OpStopWorkloads: string := "stop_workloads"
  const OpStartWorkload: string := "start_workload"
  const OpStopWorkload: string := "stop_workload"
  const StatusOk: string := "OK"

  /** A workload as the store keeps it; everything but its id is opaque here. */
  datatype Workload = Workload(id: string, body: string)

  datatype PatchedWorkload = PatchedWorkload(workloadId: string, patch: string)

  /**
   * A decoded message from the server. Each list may hold null entries,
   * written None; a list that is absent is the empty sequence.
   */
  datatype WorkloadResponse = WorkloadResponse(
    msgId: string, op: string, status: string,
    newWorkloads: seq<Option<Workload>>, modifiedWorkloads: seq<Option<Workload>>,
    deletedWorkloads: seq<Option<Workload>>, patchedWorkloads: seq<PatchedWorkload>)

  datatype ErrorResponse = ErrorResponse(msgId: string, op: string, errorMessage: string, description: string)

  /** A request sent on the websocket. */
  datatype OutMessage = OutMessage(op: string, msgId: Option<string>, workloadId: Option<string>, workloadIds: seq<string>)

  /** A callback call: the token of the callback and what it was given. */
  datatype CallbackCall = CallbackCall(callback: nat, response: Option<WorkloadResponse>, error: Option<ErrorResponse>)

  // ---------------------------------------------------------------------------
  // The merge, as specification functions over the map of workloads.

  /** Whether some non-null entry of ws has the given id. */
  predicate Mentions(ws: seq<Option<Workload>>, id: string)
  {
    exists i :: 0 <= i < |ws| && ws[i].Some? && ws[i].value.id == id
  }

  /** The entries set one after another, each under its id; null entries are skipped. */
  function SetAll(m: map<string, Workload>, ws: seq<Option<Workload>>): map<string, Workload>
  {
    if ws == [] then m
    else
      var rest := SetAll(m, ws[..|ws| - 1]);
      var last := ws[|ws| - 1];
      if last.Some? then rest[last.value.id := last.value] else rest
  }

  /** The ids of the entries removed one after another; null entries are skipped. */
  function DeleteAll(m: map<string, Workload>, ws: seq<Option<Workload>>): map<string, Workload>
  {
    if ws == [] then m
    else
      var rest := DeleteAll(m, ws[..|ws| - 1]);
      var last := ws[|ws| - 1];
      if last.Some? then rest - {last.value.id} else rest
  }

  /** Each patch applied to the workload it names, when that workload is known. */
  function PatchAll(m: map<string, Workload>, ps: seq<PatchedWorkload>, applyPatch: (Workload, string) -> Workload)
    : map<string, Workload>
  {
    if ps == [] then m
    else
      var rest := PatchAll(m, ps[..|ps| - 1], applyPatch);
      var p := ps[|ps| - 1];
      if p.workloadId in rest then rest[p.workloadId := applyPatch(rest[p.workloadId], p.patch)] else rest
  }

  /** The map after a response: new, then modified, entries set; deleted ones removed; patches applied. */
  function Merge(prev: map<string, Workload>, r: WorkloadResponse, applyPatch: (Workload, string) -> Workload)
    : map<string, Workload>
  {
    PatchAll(DeleteAll(SetAll(SetAll(prev, r.newWorkloads), r.modifiedWorkloads), r.deletedWorkloads),
             r.patchedWorkloads, applyPatch)
  }

  lemma {:induction false} SetAllKeys(m: map<string, Workload>, ws: seq<Option<Workload>>, id: string)
    ensures id in SetAll(m, ws) <==> id in m || Mentions(ws, id)
    ensures !Mentions(ws, id) && id in m ==> SetAll(m, ws)[id] == m[id]
  {
    if ws != [] {
      var init := ws[..|ws| - 1];
      SetAllKeys(m, init, id);
      assert Mentions(ws, id) <==> Mentions(init, id) || (ws[|ws| - 1].Some? && ws[|ws| - 1].value.id == id) by {
        if Mentions(init, id) {
          var i :| 0 <= i < |init| && init[i].Some? && init[i].value.id == id;
          assert ws[i] == init[i];
        }
        if Mentions(ws, id) && !(ws[|ws| - 1].Some? && ws[|ws| - 1].value.id == id) {
          var i :| 0 <= i < |ws| && ws[i].Some? && ws[i].value.id == id;
          assert init[i] == ws[i];
        }
      }
    }
  }

  /** An entry set by the last occurrence of its id is what the map holds. */
  lemma {:induction false} SetAllLastWins(m: map<string, Workload>, ws: seq<Option<Workload>>, i: nat)
    requires i < |ws| && ws[i].Some?
    requires forall j :: i < j < |ws| && ws[j].Some? ==> ws[j].value.id != ws[i].value.id
    ensures ws[i].value.id in SetAll(m, ws) && SetAll(m, ws)[ws[i].value.id] == ws[i].value
  {
    if i < |ws| - 1 {
      SetAllLastWins(m, ws[..|ws| - 1], i);
    }
  }

  lemma {:induction false} DeleteAllKeys(m: map<string, Workload>, ws: seq<Option<Workload>>, id: string)
    ensures id in DeleteAll(m, ws) <==> id in m && !Mentions(ws, id)
    ensures id in DeleteAll(m, ws) ==> DeleteAll(m, ws)[id] == m[id]
  {
    if ws != [] {
      var init := ws[..|ws| - 1];
      DeleteAllKeys(m, init, id);
      assert Mentions(ws, id) <==> Mentions(init, id) || (ws[|ws| - 1].Some? && ws[|ws| - 1].value.id == id) by {
        if Mentions(init, id) {
          var i :| 0 <= i < |init| && init[i].Some? && init[i].value.id == id;
          assert ws[i] == init[i];
        }
        if Mentions(ws, id) && !(ws[|ws| - 1].Some? && ws[|ws| - 1].value.id == id) {
          var i :| 0 <= i < |ws| && ws[i].Some? && ws[i].value.id == id;
          assert init[i] == ws[i];
        }
      }
    }
  }

  /** Patches never add or remove a workload, and leave the ones they do not name alone. */
  lemma {:induction false} PatchAllKeys(m: map<string, Workload>, ps: seq<PatchedWorkload>,
                                        applyPatch: (Workload, string) -> Workload, id: string)
    ensures PatchAll(m, ps, applyPatch).Keys == m.Keys
    ensures id in m && (forall i :: 0 <= i < |ps| ==> ps[i].workloadId != id) ==>
              PatchAll(m, ps, applyPatch)[id] == m[id]
  {
    if ps != [] {
      PatchAllKeys(m, ps[..|ps| - 1], applyPatch, id);
    }
  }

  /**
   * After a response, a workload is known iff it was known before or is new
   * or modified, and it is not deleted; a workload the response does not
   * mention keeps its value.
   */
  lemma MergeKeys(prev: map<string, Workload>, r: WorkloadResponse, applyPatch: (Workload, string) -> Workload, id: string)
    ensures id in Merge(prev, r, applyPatch) <==>
              (id in prev || Mentions(r.newWorkloads, id) || Mentions(r.modifiedWorkloads, id))
              && !Mentions(r.deletedWorkloads, id)
    ensures id in prev && !Mentions(r.newWorkloads, id) && !Mentions(r.modifiedWorkloads, id)
            && !Mentions(r.deletedWorkloads, id)
            && (forall i :: 0 <= i < |r.patchedWorkloads| ==> r.patchedWorkloads[i].workloadId != id) ==>
              Merge(prev, r, applyPatch)[id] == prev[id]
  {
    var a := SetAll(prev, r.newWorkloads);
    var b := SetAll(a, r.modifiedWorkloads);
    var c := DeleteAll(b, r.deletedWorkloads);
    SetAllKeys(prev, r.newWorkloads, id);
    SetAllKeys(a, r.modifiedWorkloads, id);
    DeleteAllKeys(b, r.deletedWorkloads, id);
    PatchAllKeys(c, r.patchedWorkloads, applyPatch, id);
  }

  /** A patch for a workload the store does not know leaves the map as it is. */
  lemma PatchForUnknownIdIgnored(m: map<string, Workload>, p: PatchedWorkload, applyPatch: (Workload, string) -> Workload)
    requires p.workloadId !in m
    ensures PatchAll(m, [p], applyPatch) == m
  {
    assert [p][..0] == [];
  }

  // ---------------------------------------------------------------------------
  // Routing and requests.

  /** The operation the pause button sends: resume a paused or pausing workload, pause any other. */
  function PauseOperation(isPaused: bool, isPausing: bool): (op: string)
    ensures op == OpUnpauseWorkload <==> isPaused || isPausing
    ensures op == OpPauseWorkload <==> !(isPaused || isPausing)
  {
    if isPaused || isPausing then OpUnpauseWorkload else OpPauseWorkload
  }

  /** The ids of the actively running workloads, in order. */
  function ActiveIds(workloads: seq<Workload>, isActivelyRunning: Workload -> bool): (ids: seq<string>)
  {
    if workloads == [] then []
    else
      var init := ActiveIds(workloads[..|workloads| - 1], isActivelyRunning);
      var w := workloads[|workloads| - 1];
      if isActivelyRunning(w) then init + [w.id] else init
  }

  lemma {:induction false} ActiveIdsExactly(workloads: seq<Workload>, isActivelyRunning: Workload -> bool, id: string)
    ensures id in ActiveIds(workloads, isActivelyRunning) <==>
              exists i :: 0 <= i < |workloads| && workloads[i].id == id && isActivelyRunning(workloads[i])
  {
    if workloads != [] {
      var init := workloads[..|workloads| - 1];
      ActiveIdsExactly(init, isActivelyRunning, id);
      if exists i :: 0 <= i < |init| && init[i].id == id && isActivelyRunning(init[i]) {
        var i :| 0 <= i < |init| && init[i].id == id && isActivelyRunning(init[i]);
        assert workloads[i] == init[i];
      }
      if exists i :: 0 <= i < |workloads| && workloads[i].id == id && isActivelyRunning(workloads[i]) {
        var i :| 0 <= i < |workloads| && workloads[i].id == id && isActivelyRunning(workloads[i]);
        if i < |init| {
          assert init[i] == workloads[i];
        }
      }
    }
  }

  /** The state the provider keeps between messages. */
  class WorkloadStore {
    var workloadsMap: map<string, Workload>
    /** callbackMap: the callback token registered under each message id. */
    var callbacks: map<string, nat>
    /** Every request handed to the websocket, in order. */
    var sent: seq<OutMessage>
    /** Every callback call, in order. */
    var calls: seq<CallbackCall>

    constructor ()
      ensures workloadsMap == map[] && callbacks == map[] && sent == [] && calls == []
    {
      workloadsMap := map[];
      callbacks := map[];
      sent := [];
      calls := [];
    }

    /**
     * sendJsonMessageDirectly: the callback is stored only when a non-empty
     * message id and a callback are both given; a failing send returns its
     * error text, a successful one returns nothing.
     */
    method SendJsonMessageDirectly(msg: OutMessage, msgId: Option<string>, callback: Option<nat>, sendError: Option<string>)
      returns (r: Option<string>)
      modifies this
      ensures callbacks == (if msgId.Some? && msgId.value != "" && callback.Some?
                            then old(callbacks)[msgId.value := callback.value] else old(callbacks))
      ensures r == sendError
      ensures sent == old(sent) + (if sendError.None? then [msg] else [])
      ensures workloadsMap == old(workloadsMap) && calls == old(calls)
    {
      if msgId.Some? && msgId.value != "" && callback.Some? {
        callbacks := callbacks[msgId.value := callback.value];
      }
      if sendError.Some? {
        return sendError;
      }
      sent := sent + [msg];
      return None;
    }

    /**
     * handleWebSocketResponse: the callback stored under the message id, if
     * any, is called; a response (not an error) is then merged into the map.
     */
    method HandleWebSocketResponse(response: Option<WorkloadResponse>, error: Option<ErrorResponse>,
                                   applyPatch: (Workload, string) -> Workload)
      modifies this
      ensures response.None? && error.None? ==> calls == old(calls)
      ensures response.Some? || error.Some? ==>
                var msgId := if response.Some? then response.value.msgId else error.value.msgId;
                calls == old(calls) + (if msgId in old(callbacks) then [CallbackCall(old(callbacks)[msgId], response, error)] else [])
      ensures workloadsMap == (if response.Some? then Merge(old(workloadsMap), response.value, applyPatch) else old(workloadsMap))
      ensures callbacks == old(callbacks) && sent == old(sent)
    {
      if error.None? && response.None? {
        return;
      }
      var msgId := if response.Some? then response.value.msgId else error.value.msgId;
      if msgId in callbacks {
        calls := calls + [CallbackCall(callbacks[msgId], response, error)];
      }
      if response.None? {
        return;
      }
      MergeResponse(response.value, applyPatch);
    }

    /** The functional update of handleWebSocketResponse: a copy of the map, changed entry by entry. */
    method MergeResponse(r: WorkloadResponse, applyPatch: (Workload, string) -> Workload)
      modifies this
      ensures workloadsMap == Merge(old(workloadsMap), r, applyPatch)
      ensures callbacks == old(callbacks) && sent == old(sent) && calls == old(calls)
    {
      var next := workloadsMap;
      next := SetEach(next, r.newWorkloads);
      next := SetEach(next, r.modifiedWorkloads);
      var i := 0;
      var deleted := r.deletedWorkloads;
      ghost var base := next;
      while i < |deleted|
        invariant 0 <= i <= |deleted|
        invariant next == DeleteAll(base, deleted[..i])
      {
        if deleted[i].Some? {
          next := next - {deleted[i].value.id};
        }
        assert deleted[..i + 1][..i] == deleted[..i];
        i := i + 1;
      }
      assert deleted[..i] == deleted;
      var patched := r.patchedWorkloads;
      base := next;
      i := 0;
      while i < |patched|
        invariant 0 <= i <= |patched|
        invariant next == PatchAll(base, patched[..i], applyPatch)
      {
        var p := patched[i];
        if p.workloadId in next {
          next := next[p.workloadId := applyPatch(next[p.workloadId], p.patch)];
        }
        assert patched[..i + 1][..i] == patched[..i];
        i := i + 1;
      }
      assert patched[..i] == patched;
      workloadsMap := next;
    }

    /**
     * The message handler: a message that did not decode is dropped; one
     * with status OK is a response; any other is an error response, whose
     * callback is called and which changes no workload.
     */
    method OnMessage(decoded: Option<WorkloadResponse>, errorMessage: string, description: string,
                     applyPatch: (Workload, string) -> Workload)
      modifies this
      ensures decoded.None? ==> workloadsMap == old(workloadsMap) && calls == old(calls)
      ensures decoded.Some? && decoded.value.status == StatusOk ==>
                workloadsMap == Merge(old(workloadsMap), decoded.value, applyPatch)
      ensures decoded.Some? && decoded.value.status != StatusOk ==>
                workloadsMap == old(workloadsMap)
                && calls == old(calls) + (if decoded.value.msgId in old(callbacks) then
                                           [CallbackCall(old(callbacks)[decoded.value.msgId], None,
                                              Some(ErrorResponse(decoded.value.msgId, decoded.value.op, errorMessage, description)))]
                                         else [])
      ensures callbacks == old(callbacks) && sent == old(sent)
    {
      if decoded.None? {
        return;
      }
      var r := decoded.value;
      if r.status == StatusOk {
        HandleWebSocketResponse(Some(r), None, applyPatch);
        return;
      }
      HandleWebSocketResponse(None, Some(ErrorResponse(r.msgId, r.op, errorMessage, description)), applyPatch);
    }

    /** stopAllWorkloads: one request naming exactly the actively running workloads, in list order. */
    method StopAllWorkloads(workloads: seq<Workload>, isActivelyRunning: Workload -> bool, sendError: Option<string>)
      returns (ids: seq<string>)
      modifies this
      ensures ids == ActiveIds(workloads, isActivelyRunning)
      ensures sent == old(sent) + (if sendError.None? then [OutMessage(OpStopWorkloads, None, None, ids)] else [])
      ensures workloadsMap == old(workloadsMap) && callbacks == old(callbacks) && calls == old(calls)
    {
      ids := [];
      var i := 0;
      while i < |workloads|
        invariant 0 <= i <= |workloads|
        invariant ids == ActiveIds(workloads[..i], isActivelyRunning)
      {
        if isActivelyRunning(workloads[i]) {
          ids := ids + [workloads[i].id];
        }
        assert workloads[..i + 1][..i] == workloads[..i];
        i := i + 1;
      }
      assert workloads[..i] == workloads;
      var _ := SendJsonMessageDirectly(OutMessage(OpStopWorkloads, None, None, ids), None, None, sendError);
    }

    /** pauseWorkload: the pause or unpause request for one workload, with its callback under the new message id. */
    method PauseWorkload(workloadId: string, isPaused: bool, isPausing: bool, messageId: string, callback: nat,
                         sendError: Option<string>)
      returns (r: Option<string>)
      modifies this
      ensures sent == old(sent) + (if sendError.None?
                                   then [OutMessage(PauseOperation(isPaused, isPausing), Some(messageId), Some(workloadId), [])]
                                   else [])
      ensures callbacks == (if messageId != "" then old(callbacks)[messageId := callback] else old(callbacks))
      ensures r == sendError
      ensures workloadsMap == old(workloadsMap) && calls == old(calls)
    {
      var op := PauseOperation(isPaused, isPausing);
      r := SendJsonMessageDirectly(OutMessage(op, Some(messageId), Some(workloadId), []), Some(messageId), Some(callback), sendError);
    }
  }

  /** The loop of handleWebSocketResponse that sets each non-null entry under its id. */
  method SetEach(m: map<string, Workload>, ws: seq<Option<Workload>>) returns (next: map<string, Workload>)
    ensures next == SetAll(m, ws)
  {
    next := m;
    var i := 0;
    while i < |ws|
      invariant 0 <= i <= |ws|
      invariant next == SetAll(m, ws[..i])
    {
      if ws[i].Some? {
        next := next[ws[i].value.id := ws[i].value];
      }
      assert ws[..i + 1][..i] == ws[..i];
      i := i + 1;
    }
    assert ws[..i] == ws;
  }

  /** A response to a registered message calls its callback exactly once; an error response leaves the workloads. */
  method ErrorResponseCallsBack(store: WorkloadStore, msgId: string, callback: nat,
                                applyPatch: (Workload, string) -> Workload)
    requires msgId != ""
    modifies store
    ensures |store.calls| == |old(store.calls)| + 1
    ensures store.calls[|store.calls| - 1].callback == callback
    ensures store.workloadsMap == old(store.workloadsMap)
  {
    var _ := store.SendJsonMessageDirectly(OutMessage(OpStartWorkload, Some(msgId), None, []), Some(msgId), Some(callback), None);
    store.OnMessage(Some(WorkloadResponse(msgId, OpStartWorkload, "ERROR", [], [], [], [])), "failed", "", applyPatch);
  }
}
