/**
 * The kernel session manager of the driver back end
 * (driver-backend/pkg/jupyter/manager.go): the adjustment of session names
 * to 36 characters, the metadata map, the filter in front of the error
 * handler, the metric counters, the id maps filled when a session is
 * created, and the status-code handling of creating a session, interrupting
 * a kernel and stopping one. The HTTP exchanges themselves are parameters:
 * each operation is given the response the Jupyter server sent.
 */
module KernelSessionManager {
  import opened Wrappers
  import opened GoStrings
  import GoStrconv

  const WorkloadIdMetadataKey: string := "workload-id"
  const RemoteStorageDefinitionMetadataKey: string := "remote_storage_definition"
  /** Errors with this text are never passed to the error handler. */
  const InsufficientHosts: string := "insufficient hosts available"
  /** The session-name length the manager pads or truncates to. */
  const SessionNameLength: nat := 36

  const StatusCreated: int := 201
  const StatusNoContent: int := 204
  const StatusBadRequest: int := 400
  const StatusNotFound: int := 404
  const StatusInternalServerError: int := 500

  // ---------------------------------------------------------------------------
  // Errors.

  datatype ManagerError =
    | ErrInvalidSessionName(sessionId: string)
    /** An error from the HTTP client or from decoding the reply, with its text. */
    | ErrRequest(message: string)
    | ErrCreateSessionBadRequest(body: string)
    /** The body of a 500 reply, returned as the error's text. */
    | ErrServer(body: string)
    | ErrCreateSessionUnknownFailure(statusCode: int, status: string, detail: string)
    | ErrKernelNotFound
    | ErrNoActiveConnection
    | ErrKernelIsDead(kernelId: string, sessionId: string)
    | ErrStopKernelBadRequest(body: string)
    | ErrStopKernelNotFound(id: string, body: string)

  /** The text of the errors that can reach the error handler. */
  function ErrorText(e: ManagerError): string
  {
    match e
    case ErrInvalidSessionName(id) => "invalid session ID specified: specified session ID \"" + id + "\" is too long"
    case ErrRequest(m) => m
    case ErrCreateSessionBadRequest(body) => "ErrCreateSessionBadRequest bad request when trying to create a new session : " + body
    case ErrServer(body) => body
    case ErrCreateSessionUnknownFailure(code, status, detail) =>
      "the 'create session' operation failed for an unknown or unexpected reason: HTTP "
      + GoStrconv.Itoa(code) + " " + status + " - " + detail
    case ErrKernelNotFound => "kernel not found"
    case ErrNoActiveConnection => "no active connection to target kernel exists"
    case ErrKernelIsDead(k, s) => "kernel is dead: no connection to kernel \"" + k + "\" (session ID = \"" + s + "\")"
    case ErrStopKernelBadRequest(body) => "bad request when trying to stop a kernel : " + body
    case ErrStopKernelNotFound(id, body) =>
      "jupyter server could not find specified kernel during stop-kernel operation: \"" + id + "\" (" + body + ")"
  }

  /**
   * Whether tryCallErrorHandler passes an error on: never for an
   * insufficient-hosts error, otherwise exactly when a handler is registered.
   */
  function ForwardsError(hasHandler: bool, text: string): (forwarded: bool)
    ensures Contains(text, InsufficientHosts) ==> !forwarded
    ensures !Contains(text, InsufficientHosts) ==> (forwarded <==> hasHandler)
  {
    !Contains(text, InsufficientHosts) && hasHandler
  }

  /** Any error text that mentions insufficient hosts, wherever, is held back. */
  lemma InsufficientHostsNeverForwarded(hasHandler: bool, before: string, after: string)
    ensures !ForwardsError(hasHandler, before + InsufficientHosts + after)
  {
    ContainsInfix(before, InsufficientHosts, after);
  }

  // ---------------------------------------------------------------------------
  // Session names.

  /**
   * The session-name adjustment of CreateSession: a shorter id becomes its
   * lower-case form, a dash and the first characters of a fresh UUID, 36 in
   * all; a longer id is refused; an id of exactly 36 is kept.
   */
  function AdjustSessionName(adjust: bool, sessionId: string, generatedUuid: string): (r: Result<string, ManagerError>)
    requires |generatedUuid| == SessionNameLength
    ensures !adjust ==> r == Ok(sessionId)
    ensures adjust && |sessionId| > SessionNameLength ==> r == Err(ErrInvalidSessionName(sessionId))
    ensures adjust && |sessionId| == SessionNameLength ==> r == Ok(sessionId)
    ensures adjust && |sessionId| < SessionNameLength ==>
              r.Ok? && |r.value| == SessionNameLength
              && r.value[..|sessionId|] == ToLower(sessionId) && r.value[|sessionId|] == '-'
              && r.value[|sessionId| + 1..] == generatedUuid[..SessionNameLength - (|sessionId| + 1)]
  {
    if !adjust then Ok(sessionId)
    else if |sessionId| < SessionNameLength then
      var s := ToLower(sessionId) + "-" + generatedUuid[0..SessionNameLength - (|sessionId| + 1)];
      assert s[..|sessionId|] == ToLower(sessionId);
      Ok(s)
    else if |sessionId| > SessionNameLength then Err(ErrInvalidSessionName(sessionId))
    else Ok(sessionId)
  }

  /** With adjustment on, every accepted name is exactly 36 characters long. */
  lemma AdjustedNamesHaveFixedLength(sessionId: string, generatedUuid: string)
    requires |generatedUuid| == SessionNameLength
    ensures AdjustSessionName(true, sessionId, generatedUuid).Ok? <==> |sessionId| <= SessionNameLength
    ensures AdjustSessionName(true, sessionId, generatedUuid).Ok? ==>
              |AdjustSessionName(true, sessionId, generatedUuid).value| == SessionNameLength
  {
  }

  // ---------------------------------------------------------------------------
  // Replies of the Jupyter server, as the operations see them.

  /** The session a 201 reply describes: its kernel id and Jupyter session id. */
  datatype CreatedSession = CreatedSession(kernelId: string, jupyterSessionId: string)

  datatype CreateSessionReply =
    /** client.Do failed. */
    | CreateTransportError(message: string)
    /**
     * A reply: status code and text, body, the decoded session (201 only;
     * Err is a decoding error), and the "message" and "reason" fields of a
     * JSON body of any other status.
     */
    | CreateReply(statusCode: int, status: string, body: string, decoded: Result<CreatedSession, string>,
                  jsonMessage: Option<string>, jsonReason: Option<string>)

  /** The connection to a created session and to its kernel, if any. */
  datatype KernelConnection = KernelConnection(kernelId: string, dead: bool)
  datatype SessionConnection = SessionConnection(kernel: Option<KernelConnection>, workloadId: Option<string>)

  /** What was handed to the error handler: kernel id, session id and error text. */
  datatype ForwardedError = ForwardedError(kernelId: string, sessionId: string, text: string)

  datatype CreateOutcome =
    | SessionReady(sessionId: string)
    | CreateFailed(error: ManagerError)
    /** The error handler was called with a nil error, whose Error method dereferences nil. */
    | CreatePanicked

  /** The error CreateSession returns for a reply other than 201. */
  function CreateReplyError(statusCode: int, status: string, body: string,
                            message: Option<string>, reason: Option<string>): (e: ManagerError)
    requires statusCode != StatusCreated
    ensures statusCode == StatusBadRequest ==> e == ErrCreateSessionBadRequest(body)
    ensures statusCode == StatusInternalServerError ==> e == ErrServer(body)
    ensures statusCode != StatusBadRequest && statusCode != StatusInternalServerError ==>
              e.ErrCreateSessionUnknownFailure? && e.statusCode == statusCode && e.status == status
              && (message.Some? ==> e.detail == message.value)
              && (message.None? && reason.Some? ==> e.detail == reason.value)
              && (message.None? && reason.None? ==> e.detail == body)
  {
    if statusCode == StatusBadRequest then ErrCreateSessionBadRequest(body)
    else if statusCode == StatusInternalServerError then ErrServer(body)
    else if message.Some? then ErrCreateSessionUnknownFailure(statusCode, status, message.value)
    else if reason.Some? then ErrCreateSessionUnknownFailure(statusCode, status, reason.value)
    else ErrCreateSessionUnknownFailure(statusCode, status, body)
  }

  /** StopKernel's reading of the status code: 400 and 404 are errors, every other code succeeds. */
  function StopKernelError(id: string, statusCode: int, body: string): (e: Option<ManagerError>)
    ensures e.Some? <==> statusCode == StatusBadRequest || statusCode == StatusNotFound
    ensures statusCode == StatusBadRequest ==> e == Some(ErrStopKernelBadRequest(body))
    ensures statusCode == StatusNotFound ==> e == Some(ErrStopKernelNotFound(id, body))
  {
    if statusCode == StatusBadRequest then Some(ErrStopKernelBadRequest(body))
    else if statusCode == StatusNotFound then Some(ErrStopKernelNotFound(id, body))
    else None
  }

  lemma NoContentStopsKernel(id: string, body: string)
    ensures StopKernelError(id, StatusNoContent, body).None?
  {
  }

  // ---------------------------------------------------------------------------
  // State.

  /** KernelMetricsManager: counters, each raised by exactly one per event. */
  class KernelMetrics {
    var numFilesCreated: int
    var numKernelsCreated: int
    var numSessionsCreated: int
    var numKernelsTerminated: int
    var numSessionsTerminated: int

    constructor ()
      ensures numFilesCreated == 0 && numKernelsCreated == 0 && numSessionsCreated == 0
      ensures numKernelsTerminated == 0 && numSessionsTerminated == 0
    {
      numFilesCreated := 0;
      numKernelsCreated := 0;
      numSessionsCreated := 0;
      numKernelsTerminated := 0;
      numSessionsTerminated := 0;
    }

    method FileCreated()
      modifies this
      ensures numFilesCreated == old(numFilesCreated) + 1
      ensures numKernelsCreated == old(numKernelsCreated) && numSessionsCreated == old(numSessionsCreated)
      ensures numKernelsTerminated == old(numKernelsTerminated) && numSessionsTerminated == old(numSessionsTerminated)
    {
      numFilesCreated := numFilesCreated + 1;
    }

    method KernelCreated()
      modifies this
      ensures numKernelsCreated == old(numKernelsCreated) + 1
      ensures numFilesCreated == old(numFilesCreated) && numSessionsCreated == old(numSessionsCreated)
      ensures numKernelsTerminated == old(numKernelsTerminated) && numSessionsTerminated == old(numSessionsTerminated)
    {
      numKernelsCreated := numKernelsCreated + 1;
    }

    method SessionCreated()
      modifies this
      ensures numSessionsCreated == old(numSessionsCreated) + 1
      ensures numFilesCreated == old(numFilesCreated) && numKernelsCreated == old(numKernelsCreated)
      ensures numKernelsTerminated == old(numKernelsTerminated) && numSessionsTerminated == old(numSessionsTerminated)
    {
      numSessionsCreated := numSessionsCreated + 1;
    }

    method SessionTerminated()
      modifies this
      ensures numSessionsTerminated == old(numSessionsTerminated) + 1
      ensures numFilesCreated == old(numFilesCreated) && numKernelsCreated == old(numKernelsCreated)
      ensures numSessionsCreated == old(numSessionsCreated) && numKernelsTerminated == old(numKernelsTerminated)
    {
      numSessionsTerminated := numSessionsTerminated + 1;
    }
  }

  class BasicKernelSessionManager {
    const adjustSessionNames: bool
    const metrics: KernelMetrics
    var metadata: map<string, string>
    var hasErrorHandler: bool
    /** Every error handed to the error handler, in order. */
    var forwarded: seq<ForwardedError>
    var localSessionIdToKernelId: map<string, string>
    var kernelIdToLocalSessionId: map<string, string>
    var localSessionIdToJupyterSessionId: map<string, string>
    var kernelIdToJupyterSessionId: map<string, string>
    var sessionMap: map<string, SessionConnection>

    constructor (adjustSessionNames: bool)
      ensures this.adjustSessionNames == adjustSessionNames && fresh(metrics)
      ensures metrics.numSessionsCreated == 0 && metrics.numSessionsTerminated == 0
      ensures metadata == map[] && !hasErrorHandler && forwarded == []
      ensures localSessionIdToKernelId == map[] && kernelIdToLocalSessionId == map[]
      ensures localSessionIdToJupyterSessionId == map[] && kernelIdToJupyterSessionId == map[]
      ensures sessionMap == map[]
    {
      this.adjustSessionNames := adjustSessionNames;
      metrics := new KernelMetrics();
      metadata := map[];
      hasErrorHandler := false;
      forwarded := [];
      localSessionIdToKernelId := map[];
      kernelIdToLocalSessionId := map[];
      localSessionIdToJupyterSessionId := map[];
      kernelIdToJupyterSessionId := map[];
      sessionMap := map[];
    }

    method RegisterOnErrorHandler()
      modifies this
      ensures hasErrorHandler && forwarded == old(forwarded) && metadata == old(metadata)
    {
      hasErrorHandler := true;
    }

    /** AddMetadata: the key is (re)bound to the value. */
    method AddMetadata(key: string, value: string)
      modifies this
      ensures metadata == old(metadata)[key := value]
      ensures hasErrorHandler == old(hasErrorHandler) && forwarded == old(forwarded)
      ensures sessionMap == old(sessionMap)
    {
      metadata := metadata[key := value];
    }

    /** GetMetadata: the bound value and true, or false for a key never added. */
    function GetMetadata(key: string): (r: (string, bool))
      reads this
      ensures r.1 <==> key in metadata
      ensures r.1 ==> r.0 == metadata[key]
    {
      if key in metadata then (metadata[key], true) else ("", false)
    }

    /** tryCallErrorHandler: the error is recorded as handed on exactly when ForwardsError says so. */
    method TryCallErrorHandler(kernelId: string, sessionId: string, text: string)
      modifies this
      ensures forwarded == old(forwarded) + (if ForwardsError(hasHandler := hasErrorHandler, text := text)
                                             then [ForwardedError(kernelId, sessionId, text)] else [])
      ensures hasErrorHandler == old(hasErrorHandler) && metadata == old(metadata)
      ensures sessionMap == old(sessionMap) && localSessionIdToKernelId == old(localSessionIdToKernelId)
      ensures kernelIdToLocalSessionId == old(kernelIdToLocalSessionId)
      ensures localSessionIdToJupyterSessionId == old(localSessionIdToJupyterSessionId)
      ensures kernelIdToJupyterSessionId == old(kernelIdToJupyterSessionId)
    {
      if ForwardsError(hasErrorHandler, text) {
        forwarded := forwarded + [ForwardedError(kernelId, sessionId, text)];
      }
    }

    /** The four id maps after a 201 reply for the given local session. */
    method RecordCreatedSession(sessionId: string, created: CreatedSession)
      modifies this
      ensures localSessionIdToKernelId == old(localSessionIdToKernelId)[sessionId := created.kernelId]
      ensures localSessionIdToJupyterSessionId == old(localSessionIdToJupyterSessionId)[sessionId := created.jupyterSessionId]
      ensures kernelIdToJupyterSessionId == old(kernelIdToJupyterSessionId)[created.kernelId := created.jupyterSessionId]
      ensures kernelIdToLocalSessionId == old(kernelIdToLocalSessionId)[created.kernelId := sessionId]
      ensures kernelIdToLocalSessionId[localSessionIdToKernelId[sessionId]] == sessionId
      ensures sessionMap == old(sessionMap) && metadata == old(metadata)
      ensures hasErrorHandler == old(hasErrorHandler) && forwarded == old(forwarded)
    {
      localSessionIdToKernelId := localSessionIdToKernelId[sessionId := created.kernelId];
      localSessionIdToJupyterSessionId := localSessionIdToJupyterSessionId[sessionId := created.jupyterSessionId];
      kernelIdToJupyterSessionId := kernelIdToJupyterSessionId[created.kernelId := created.jupyterSessionId];
      kernelIdToLocalSessionId := kernelIdToLocalSessionId[created.kernelId := sessionId];
    }

    /**
     * CreateSession as written. The name is adjusted first; a transport
     * error, a decoding error, a failed connection and any unexpected status
     * go through tryCallErrorHandler; a 500 is returned without it. On 400
     * the handler is called with the client's error, which is nil there, so
     * the call panics.
     */
    method CreateSessionAsWritten(sessionId: string, generatedUuid: string, reply: CreateSessionReply,
                                  connection: Result<KernelConnection, string>)
      returns (o: CreateOutcome)
      requires |generatedUuid| == SessionNameLength
      modifies this, metrics
      ensures reply.CreateReply? && reply.statusCode == StatusBadRequest
              && AdjustSessionName(adjustSessionNames, sessionId, generatedUuid).Ok? ==>
                o == CreatePanicked
    {
      var adjusted := AdjustSessionName(adjustSessionNames, sessionId, generatedUuid);
      if adjusted.Err? {
        return CreateFailed(adjusted.error);
      }
      if reply.CreateReply? && reply.statusCode == StatusBadRequest {
        return CreatePanicked;
      }
      o := CreateSession(sessionId, generatedUuid, reply, connection);
    }

    /**
     * CreateSession with the bad-request error handed to the error handler:
     * on 201 the id maps record the new session, whose connection is then
     * stored with the workload id from the metadata; when that id is present
     * the session-created counter goes up by one.
     */
    method CreateSession(sessionId: string, generatedUuid: string, reply: CreateSessionReply,
                         connection: Result<KernelConnection, string>)
      returns (o: CreateOutcome)
      requires |generatedUuid| == SessionNameLength
      modifies this, metrics
      ensures o != CreatePanicked
      ensures hasErrorHandler == old(hasErrorHandler) && metadata == old(metadata)
      ensures AdjustSessionName(adjustSessionNames, sessionId, generatedUuid).Err? ==>
                o == CreateFailed(ErrInvalidSessionName(sessionId))
                && forwarded == old(forwarded) && localSessionIdToKernelId == old(localSessionIdToKernelId)
                && kernelIdToLocalSessionId == old(kernelIdToLocalSessionId)
                && localSessionIdToJupyterSessionId == old(localSessionIdToJupyterSessionId)
                && kernelIdToJupyterSessionId == old(kernelIdToJupyterSessionId)
      ensures o.CreateFailed? ==>
                sessionMap == old(sessionMap) && metrics.numSessionsCreated == old(metrics.numSessionsCreated)
      ensures !(reply.CreateReply? && reply.statusCode == StatusCreated && reply.decoded.Ok?) ==>
                && localSessionIdToKernelId == old(localSessionIdToKernelId)
                && kernelIdToLocalSessionId == old(kernelIdToLocalSessionId)
                && localSessionIdToJupyterSessionId == old(localSessionIdToJupyterSessionId)
                && kernelIdToJupyterSessionId == old(kernelIdToJupyterSessionId)
      ensures AdjustSessionName(adjustSessionNames, sessionId, generatedUuid).Ok? ==>
                var id := AdjustSessionName(adjustSessionNames, sessionId, generatedUuid).value;
                && (reply.CreateTransportError? ==>
                      o == CreateFailed(ErrRequest(reply.message))
                      && forwarded == old(forwarded)
                         + (if ForwardsError(old(hasErrorHandler), reply.message)
                            then [ForwardedError("", id, reply.message)] else []))
                && (reply.CreateReply? && reply.statusCode != StatusCreated ==>
                      var e := CreateReplyError(reply.statusCode, reply.status, reply.body, reply.jsonMessage, reply.jsonReason);
                      o == CreateFailed(e)
                      && forwarded == old(forwarded)
                         + (if reply.statusCode != StatusInternalServerError && ForwardsError(old(hasErrorHandler), ErrorText(e))
                            then [ForwardedError("", id, ErrorText(e))] else []))
                && (reply.CreateReply? && reply.statusCode == StatusCreated && reply.decoded.Err? ==>
                      o == CreateFailed(ErrRequest(reply.decoded.error))
                      && forwarded == old(forwarded)
                         + (if ForwardsError(old(hasErrorHandler), reply.decoded.error)
                            then [ForwardedError("", id, reply.decoded.error)] else []))
                && (reply.CreateReply? && reply.statusCode == StatusCreated && reply.decoded.Ok? ==>
                      localSessionIdToKernelId == old(localSessionIdToKernelId)[id := reply.decoded.value.kernelId]
                      && kernelIdToLocalSessionId == old(kernelIdToLocalSessionId)[reply.decoded.value.kernelId := id]
                      && localSessionIdToJupyterSessionId
                         == old(localSessionIdToJupyterSessionId)[id := reply.decoded.value.jupyterSessionId]
                      && kernelIdToJupyterSessionId
                         == old(kernelIdToJupyterSessionId)[reply.decoded.value.kernelId := reply.decoded.value.jupyterSessionId]
                      && (connection.Err? ==>
                            o == CreateFailed(ErrRequest(connection.error))
                            && forwarded == old(forwarded)
                               + (if ForwardsError(old(hasErrorHandler), connection.error)
                                  then [ForwardedError("", id, connection.error)] else []))
                      && (connection.Ok? ==>
                            o == SessionReady(id) && forwarded == old(forwarded)
                            && sessionMap == old(sessionMap)[id := SessionConnection(Some(connection.value),
                              if WorkloadIdMetadataKey in metadata then Some(metadata[WorkloadIdMetadataKey]) else None)]
                            && metrics.numSessionsCreated
                               == old(metrics.numSessionsCreated) + (if WorkloadIdMetadataKey in metadata then 1 else 0)))
    {
      var adjusted := AdjustSessionName(adjustSessionNames, sessionId, generatedUuid);
      if adjusted.Err? {
        return CreateFailed(adjusted.error);
      }
      var id := adjusted.value;
      var workloadId := GetMetadata(WorkloadIdMetadataKey);
      match reply {
        case CreateTransportError(message) =>
          TryCallErrorHandler("", id, message);
          return CreateFailed(ErrRequest(message));
        case CreateReply(statusCode, status, body, decoded, message, reason) =>
          if statusCode == StatusCreated {
            if decoded.Err? {
              TryCallErrorHandler("", id, decoded.error);
              return CreateFailed(ErrRequest(decoded.error));
            }
            RecordCreatedSession(id, decoded.value);
            if connection.Err? {
              TryCallErrorHandler("", id, connection.error);
              return CreateFailed(ErrRequest(connection.error));
            }
            var conn := SessionConnection(Some(connection.value), if workloadId.1 then Some(workloadId.0) else None);
            sessionMap := sessionMap[id := conn];
            if workloadId.1 {
              metrics.SessionCreated();
            }
            return SessionReady(id);
          }
          var e := CreateReplyError(statusCode, status, body, message, reason);
          if statusCode != StatusInternalServerError {
            TryCallErrorHandler("", id, ErrorText(e));
          }
          return CreateFailed(e);
      }
    }

    /**
     * InterruptKernel: an unknown session, then a session without a kernel
     * connection, then a dead kernel are refused in that order; otherwise the
     * interrupt request's error, if any, goes through the error handler and
     * is returned.
     */
    method InterruptKernel(sessionId: string, requestError: Option<string>) returns (err: Option<ManagerError>)
      modifies this
      ensures sessionMap == old(sessionMap) && metadata == old(metadata) && hasErrorHandler == old(hasErrorHandler)
      ensures sessionId !in sessionMap ==> err == Some(ErrKernelNotFound) && forwarded == old(forwarded)
      ensures sessionId in sessionMap && sessionMap[sessionId].kernel.None? ==>
                err == Some(ErrNoActiveConnection) && forwarded == old(forwarded)
      ensures sessionId in sessionMap && sessionMap[sessionId].kernel.Some? && sessionMap[sessionId].kernel.value.dead ==>
                err == Some(ErrKernelIsDead(sessionMap[sessionId].kernel.value.kernelId, sessionId))
                && forwarded == old(forwarded)
      ensures sessionId in sessionMap && sessionMap[sessionId].kernel.Some? && !sessionMap[sessionId].kernel.value.dead ==>
                (err.Some? <==> requestError.Some?)
                && (requestError.Some? ==>
                      err == Some(ErrRequest(requestError.value))
                      && forwarded == old(forwarded)
                         + (if ForwardsError(old(hasErrorHandler), requestError.value)
                            then [ForwardedError(sessionMap[sessionId].kernel.value.kernelId, sessionId, requestError.value)]
                            else []))
                && (requestError.None? ==> forwarded == old(forwarded))
      ensures localSessionIdToKernelId == old(localSessionIdToKernelId)
      ensures kernelIdToLocalSessionId == old(kernelIdToLocalSessionId)
      ensures localSessionIdToJupyterSessionId == old(localSessionIdToJupyterSessionId)
      ensures kernelIdToJupyterSessionId == old(kernelIdToJupyterSessionId)
    {
      if sessionId !in sessionMap {
        return Some(ErrKernelNotFound);
      }
      var sess := sessionMap[sessionId];
      if sess.kernel.None? {
        return Some(ErrNoActiveConnection);
      }
      var conn := sess.kernel.value;
      if conn.dead {
        return Some(ErrKernelIsDead(conn.kernelId, sessionId));
      }
      if requestError.Some? {
        TryCallErrorHandler(conn.kernelId, sessionId, requestError.value);
        return Some(ErrRequest(requestError.value));
      }
      return None;
    }

    /**
     * StopKernel: a transport error is returned as it is; 400 and 404 are
     * errors; any other status succeeds and, when the workload id is in the
     * metadata, counts one terminated session.
     */
    method StopKernel(id: string, reply: Result<(int, string), string>) returns (err: Option<ManagerError>)
      modifies metrics
      ensures reply.Err? ==> err == Some(ErrRequest(reply.error))
      ensures reply.Ok? ==> err == StopKernelError(id, reply.value.0, reply.value.1)
      ensures err.None? && WorkloadIdMetadataKey in metadata ==>
                metrics.numSessionsTerminated == old(metrics.numSessionsTerminated) + 1
      ensures (err.Some? || WorkloadIdMetadataKey !in metadata) ==>
                metrics.numSessionsTerminated == old(metrics.numSessionsTerminated)
      ensures metrics.numSessionsCreated == old(metrics.numSessionsCreated)
    {
      if reply.Err? {
        return Some(ErrRequest(reply.error));
      }
      err := StopKernelError(id, reply.value.0, reply.value.1);
      if err.Some? {
        return err;
      }
      if GetMetadata(WorkloadIdMetadataKey).1 {
        metrics.SessionTerminated();
      }
    }
  }

  /** A value added under a key is what GetMetadata then returns; other keys are untouched. */
  method MetadataRoundTrip(m: BasicKernelSessionManager, key: string, value: string, other: string)
      returns (got: (string, bool))
    requires other != key
    modifies m
    ensures got == (value, true)
    ensures m.GetMetadata(other) == old(m.GetMetadata(other))
  {
    m.AddMetadata(key, value);
    got := m.GetMetadata(key);
  }

  /** A fresh manager knows no metadata. */
  method FreshManagerHasNoMetadata(key: string) returns (got: (string, bool))
    ensures !got.1
  {
    var m := new BasicKernelSessionManager(true);
    got := m.GetMetadata(key);
  }

  /** The nil-error panic on a 400 reply, and the corrected handling of the same reply. */
  method BadRequestAsWritten() returns (asWritten: CreateOutcome, corrected: CreateOutcome)
    ensures asWritten == CreatePanicked
    ensures corrected == CreateFailed(ErrCreateSessionBadRequest("bad"))
  {
    var uuid := "0123456789abcdef0123456789abcdef0123";
    var reply := CreateReply(StatusBadRequest, "400 Bad Request", "bad", Err("unused"), None, None);
    var m := new BasicKernelSessionManager(true);
    asWritten := m.CreateSessionAsWritten("s", uuid, reply, Err("unused"));
    var n := new BasicKernelSessionManager(true);
    corrected := n.CreateSession("s", uuid, reply, Err("unused"));
  }
}
