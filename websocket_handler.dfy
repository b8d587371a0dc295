/**
 * The workload WebSocket handler
 * (driver-backend/internal/server/workload/workload_websocket_handler.go):
 * the list of expected origins and the origin check, the dispatch of a
 * parsed request to one of nine operation handlers, the choice of the reply
 * payload, stopping several workloads at once, and the broadcast that drops
 * subscribers whose write failed.
 */
module WorkloadWebsocket {
  import opened Wrappers
  import opened GoStrings
  import GoStrconv

  const OpGetWorkloads: string := "get_workloads"
  const OpRegisterWorkloads: string := "register_workload"
  const OpStartWorkload: string := "start_workload"
  const OpStopWorkload: string := "stop_workload"
  const OpStopWorkloads: string := "stop_workloads"
  const OpPauseWorkload: string := "pause_workload"
  const OpUnpauseWorkload: string := "unpause_workload"
  const OpWorkloadToggleDebugLogs: string := "toggle_debug_logs"
  const OpWorkloadSubscribe: string := "subscribe"

  /** The operations setupRequestHandlers registers. */
  const RegisteredOps: set<string> := {OpGetWorkloads, OpRegisterWorkloads, OpStartWorkload, OpStopWorkload,
                                       OpStopWorkloads, OpPauseWorkload, OpUnpauseWorkload,
                                       OpWorkloadToggleDebugLogs, OpWorkloadSubscribe}

  // ---------------------------------------------------------------------------
  // Origins.

  /** The origin expected for one configured address. */
  function ExpectedOrigin(address: string, port: int): (origin: string)
    ensures port > 0 ==> origin == address + ":" + GoStrconv.Itoa(port)
    ensures port <= 0 ==> origin == address
  {
    if port > 0 then address + ":" + GoStrconv.Itoa(port) else address
  }

  /**
   * The expected origins built by the constructor: one per comma-separated
   * address, in order, with ":port" appended when the port is positive.
   */
  method ExpectedOrigins(addresses: string, port: int) returns (origins: seq<string>)
    ensures |origins| == |Split(addresses, ',')|
    ensures forall i :: 0 <= i < |origins| ==> origins[i] == ExpectedOrigin(Split(addresses, ',')[i], port)
  {
    var parts := Split(addresses, ',');
    origins := [];
    var i := 0;
    while i < |parts|
      invariant 0 <= i <= |parts| && |origins| == i
      invariant forall j :: 0 <= j < i ==> origins[j] == ExpectedOrigin(parts[j], port)
    {
      origins := origins + [ExpectedOrigin(parts[i], port)];
      i := i + 1;
    }
  }

  /** CheckOrigin: the incoming origin is accepted iff it is one of the expected origins. */
  method CheckOrigin(incoming: string, expected: seq<string>) returns (accepted: bool)
    ensures accepted <==> incoming in expected
  {
    var i := 0;
    while i < |expected|
      invariant 0 <= i <= |expected|
      invariant incoming !in expected[..i]
    {
      if incoming == expected[i] {
        return true;
      }
      assert expected[..i + 1] == expected[..i] + [expected[i]];
      i := i + 1;
    }
    assert expected[..i] == expected;
    return false;
  }

  /** Without a port, exactly the configured comma-separated addresses are accepted. */
  lemma OriginsWithoutPort(addresses: string, port: int, origins: seq<string>, incoming: string)
    requires port <= 0
    requires |origins| == |Split(addresses, ',')|
    requires forall i :: 0 <= i < |origins| ==> origins[i] == ExpectedOrigin(Split(addresses, ',')[i], port)
    ensures incoming in origins <==> incoming in Split(addresses, ',')
  {
    var parts := Split(addresses, ',');
    if incoming in origins {
      var i :| 0 <= i < |origins| && origins[i] == incoming;
      assert parts[i] == incoming;
    }
    if incoming in parts {
      var i :| 0 <= i < |parts| && parts[i] == incoming;
      assert origins[i] == incoming;
    }
  }

  /** With a port, every configured address followed by ":port" is accepted. */
  lemma OriginsWithPort(addresses: string, port: int, origins: seq<string>, k: int)
    requires port > 0
    requires |origins| == |Split(addresses, ',')|
    requires forall i :: 0 <= i < |origins| ==> origins[i] == ExpectedOrigin(Split(addresses, ',')[i], port)
    requires 0 <= k < |Split(addresses, ',')|
    ensures Split(addresses, ',')[k] + ":" + GoStrconv.Itoa(port) in origins
  {
    assert origins[k] == Split(addresses, ',')[k] + ":" + GoStrconv.Itoa(port);
  }

  // ---------------------------------------------------------------------------
  // Dispatch and reply.

  /** A top-level value of the parsed request, as far as dispatch looks at it. */
  datatype JsonValue = JString(s: string) | JNonString

  datatype DispatchError =
    | ErrUnmarshal
    | ErrMissingMessageId
    | ErrMissingOp
    /** ErrInvalidOperation, wrapped with the requested operation. */
    | ErrInvalidOperation(op: string)
    /** An error returned by the operation's handler. */
    | ErrHandler(message: string)

  /** What an operation's handler returned: an encoded response, an error, both or neither. */
  datatype HandlerResult = HandlerResult(response: Option<string>, err: Option<string>)

  datatype DispatchOutcome =
    | Dispatched(msgId: string, response: Option<string>, err: Option<DispatchError>)
    /** A msg_id or op that is not a string fails the type assertion. */
    | DispatchPanicked

  /**
   * dispatchRequest: the message id is checked before the operation, an
   * unregistered operation is ErrInvalidOperation, and a registered one
   * returns its handler's result. None is a message that does not parse.
   */
  function DispatchRequest(handlers: set<string>, request: Option<map<string, JsonValue>>,
                           handler: HandlerResult): (o: DispatchOutcome)
    ensures request.None? ==> o == Dispatched("", None, Some(ErrUnmarshal))
    ensures request.Some? && "msg_id" !in request.value ==> o == Dispatched("", None, Some(ErrMissingMessageId))
    ensures request.Some? && "msg_id" in request.value && request.value["msg_id"].JString? ==>
              var msgId := request.value["msg_id"].s;
              && ("op" !in request.value ==> o == Dispatched(msgId, None, Some(ErrMissingOp)))
              && ("op" in request.value && request.value["op"].JString? && request.value["op"].s !in handlers ==>
                    o == Dispatched(msgId, None, Some(ErrInvalidOperation(request.value["op"].s))))
              && ("op" in request.value && request.value["op"].JString? && request.value["op"].s in handlers ==>
                    o.Dispatched? && o.msgId == msgId && o.response == handler.response
                    && (o.err.Some? <==> handler.err.Some?)
                    && (handler.err.Some? ==> o.err == Some(ErrHandler(handler.err.value))))
    ensures o.DispatchPanicked? <==>
              request.Some? && "msg_id" in request.value
              && (request.value["msg_id"].JNonString?
                  || ("op" in request.value && request.value["op"].JNonString?))
  {
    if request.None? then Dispatched("", None, Some(ErrUnmarshal))
    else
      var req := request.value;
      if "msg_id" !in req then Dispatched("", None, Some(ErrMissingMessageId))
      else if req["msg_id"].JNonString? then DispatchPanicked
      else
        var msgId := req["msg_id"].s;
        if "op" !in req then Dispatched(msgId, None, Some(ErrMissingOp))
        else if req["op"].JNonString? then DispatchPanicked
        else
          var op := req["op"].s;
          if op !in handlers then Dispatched(msgId, None, Some(ErrInvalidOperation(op)))
          else Dispatched(msgId, handler.response,
                          if handler.err.Some? then Some(ErrHandler(handler.err.value)) else None)
  }

  /** The error message generateErrorPayload wraps an error in. */
  datatype ErrorMessage = ErrorMessage(errorMessage: string, description: string, valid: bool)

  /** A reply: the handler's encoded response, or an encoded error message. */
  datatype Payload = Response(bytes: string) | ErrorPayload(message: ErrorMessage)

  /** The text of a dispatch error. */
  function ErrorText(e: DispatchError): string
  {
    match e
    case ErrUnmarshal => "invalid JSON"
    case ErrMissingMessageId => "WebSocket message did not contain a top-level \"msg_id\" field"
    case ErrMissingOp => "WebSocket message did not contain a top-level \"op\" field"
    case ErrInvalidOperation(op) => "invalid workload-related WebSocket operation requested: \"" + op + "\""
    case ErrHandler(m) => m
  }

  /**
   * getResponsePayload: an error always gives an encoded error message,
   * whatever the response; otherwise the response as it is, so no error and
   * no response means no reply.
   */
  function GetResponsePayload(response: Option<string>, err: Option<DispatchError>): (p: Option<Payload>)
    ensures err.Some? ==> p == Some(ErrorPayload(ErrorMessage(ErrorText(err.value), "", true)))
    ensures err.None? ==> (p.None? <==> response.None?)
    ensures err.None? && response.Some? ==> p == Some(Response(response.value))
  {
    if err.Some? then Some(ErrorPayload(ErrorMessage(ErrorText(err.value), "", true)))
    else if response.Some? then Some(Response(response.value))
    else None
  }

  /**
   * A request that reaches dispatch without panicking is answered unless it
   * names a registered operation whose handler returned neither a response
   * nor an error.
   */
  lemma ReplySentUnlessHandlerSilent(handlers: set<string>, request: map<string, JsonValue>, handler: HandlerResult)
    requires DispatchRequest(handlers, Some(request), handler).Dispatched?
    ensures var o := DispatchRequest(handlers, Some(request), handler);
            GetResponsePayload(o.response, o.err).None? <==>
              "msg_id" in request && "op" in request && request["op"].s in handlers
              && handler.response.None? && handler.err.None?
  {
  }

  /**
   * With the handlers setupRequestHandlers registers, a well-formed request
   * naming one of the nine operations reaches its handler and returns the
   * handler's result; any other operation name is ErrInvalidOperation.
   */
  lemma RegisteredOperationsAreDispatched(msgId: string, op: string, handler: HandlerResult)
    ensures var o := DispatchRequest(RegisteredOps, Some(map["msg_id" := JString(msgId), "op" := JString(op)]), handler);
            (op in RegisteredOps ==>
               o == Dispatched(msgId, handler.response, if handler.err.Some? then Some(ErrHandler(handler.err.value)) else None))
            && (op !in RegisteredOps ==> o == Dispatched(msgId, None, Some(ErrInvalidOperation(op))))
  {
    var request := map["msg_id" := JString(msgId), "op" := JString(op)];
    assert "msg_id" in request && request["msg_id"] == JString(msgId);
    assert "op" in request && request["op"] == JString(op);
  }

  // ---------------------------------------------------------------------------
  // Stopping several workloads.

  /** The errors among the stop attempts' results, in order. */
  function StopErrors(results: seq<Option<string>>): (errs: seq<string>)
    ensures |errs| <= |results|
    ensures errs == [] <==> forall i :: 0 <= i < |results| ==> results[i].None?
  {
    if results == [] then []
    else
      var rest := StopErrors(results[..|results| - 1]);
      var last := results[|results| - 1];
      if last.Some? then rest + [last.value] else rest
  }

  /** The ids whose stop attempt succeeded, in order. */
  function Stopped(ids: seq<string>, results: seq<Option<string>>): (stopped: seq<string>)
    requires |ids| == |results|
    ensures |stopped| + |StopErrors(results)| == |ids|
    ensures forall x :: x in stopped ==> x in ids
  {
    if ids == [] then []
    else
      var rest := Stopped(ids[..|ids| - 1], results[..|results| - 1]);
      if results[|results| - 1].None? then rest + [ids[|ids| - 1]] else rest
  }

  /** When no attempt fails, every requested workload is in the reply. */
  lemma {:induction false} NoErrorsStopsAll(ids: seq<string>, results: seq<Option<string>>)
    requires |ids| == |results| && StopErrors(results) == []
    ensures Stopped(ids, results) == ids
  {
    if ids != [] {
      assert StopErrors(results[..|results| - 1]) == [] by {
        assert forall i :: 0 <= i < |results| - 1 ==> results[..|results| - 1][i] == results[i];
      }
      NoErrorsStopsAll(ids[..|ids| - 1], results[..|results| - 1]);
      assert ids == ids[..|ids| - 1] + [ids[|ids| - 1]];
    }
  }

  datatype StopOutcome =
    /** The response listing the stopped workloads. */
    | StopReply(stopped: seq<string>)
    /** The joined errors; no payload. */
    | StopFailed(errors: seq<string>)
    /** The request's op field is not stop_workloads. */
    | StopPanicked

  /**
   * handleStopWorkloads: every id is attempted (each attempt's result is
   * passed in); if any failed, the joined errors and no payload, else a
   * reply with all the stopped workloads.
   */
  method HandleStopWorkloads(operation: string, ids: seq<string>, results: seq<Option<string>>)
    returns (o: StopOutcome)
    requires |ids| == |results|
    ensures operation != OpStopWorkloads ==> o == StopPanicked
    ensures operation == OpStopWorkloads && StopErrors(results) != [] ==> o == StopFailed(StopErrors(results))
    ensures operation == OpStopWorkloads && StopErrors(results) == [] ==> o == StopReply(ids)
  {
    if operation != OpStopWorkloads {
      return StopPanicked;
    }
    var stopped: seq<string> := [];
    var errs: seq<string> := [];
    var i := 0;
    while i < |ids|
      invariant 0 <= i <= |ids|
      invariant errs == StopErrors(results[..i]) && stopped == Stopped(ids[..i], results[..i])
    {
      assert results[..i + 1][..i] == results[..i];
      assert ids[..i + 1][..i] == ids[..i];
      if results[i].Some? {
        errs := errs + [results[i].value];
      } else {
        stopped := stopped + [ids[i]];
      }
      i := i + 1;
    }
    assert ids[..i] == ids && results[..i] == results;
    if |errs| > 0 {
      return StopFailed(errs);
    }
    NoErrorsStopsAll(ids, results);
    return StopReply(stopped);
  }

  // ---------------------------------------------------------------------------
  // The handler's state.

  class WebsocketHandler {
    /** The origins a connection may come from. */
    const expectedOriginAddresses: seq<string>
    /** The operations that have a handler. */
    var handlers: set<string>
    /** The remote addresses of the subscribed WebSockets. */
    var subscribers: set<string>

    constructor (addresses: string, port: int)
      ensures |expectedOriginAddresses| == |Split(addresses, ',')|
      ensures forall i :: 0 <= i < |expectedOriginAddresses| ==>
                expectedOriginAddresses[i] == ExpectedOrigin(Split(addresses, ',')[i], port)
      ensures handlers == RegisteredOps && subscribers == {}
    {
      var origins := ExpectedOrigins(addresses, port);
      expectedOriginAddresses := origins;
      handlers := RegisteredOps;
      subscribers := {};
    }

    /** handleSubscriptionRequest: the WebSocket is filed under its remote address. */
    method Subscribe(remoteAddress: string)
      modifies this
      ensures subscribers == old(subscribers) + {remoteAddress} && handlers == old(handlers)
    {
      subscribers := subscribers + {remoteAddress};
    }

    /**
     * broadcastToWorkloadWebsockets: the payload is written to every
     * subscriber; each failed write gives one error, and exactly the
     * subscribers whose write failed are removed.
     */
    method Broadcast(failing: set<string>) returns (failed: set<string>)
      modifies this
      ensures failed == old(subscribers) * failing
      ensures subscribers == old(subscribers) - failing
      ensures handlers == old(handlers)
    {
      var toVisit := subscribers;
      failed := {};
      while toVisit != {}
        invariant toVisit <= old(subscribers) && subscribers == old(subscribers)
        invariant failed == (old(subscribers) - toVisit) * failing
        decreases toVisit
      {
        var ws :| ws in toVisit;
        if ws in failing {
          failed := failed + {ws};
        }
        toVisit := toVisit - {ws};
      }
      assert failed == old(subscribers) * failing;
      var toRemove := failed;
      while toRemove != {}
        invariant toRemove <= failed
        invariant subscribers == old(subscribers) - (failed - toRemove) && handlers == old(handlers)
        decreases toRemove
      {
        var ws :| ws in toRemove;
        subscribers := subscribers - {ws};
        toRemove := toRemove - {ws};
      }
      assert subscribers == old(subscribers) - failed;
    }
  }

  /**
   * A subscriber outside the failing set is still subscribed after two
   * broadcasts in a row; Broadcast's own contract gives the same for each call.
   */
  method HealthySubscriberStays(h: WebsocketHandler, address: string, failing: set<string>)
    requires address in h.subscribers && address !in failing
    modifies h
    ensures address in h.subscribers
  {
    var _ := h.Broadcast(failing);
    var _ := h.Broadcast(failing);
  }
}
