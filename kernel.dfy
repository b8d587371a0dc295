/**
 * The connection of the workload driver to one Jupyter kernel
 * (internal/server/jupyter/kernel.go): message-type suffixes, message ids
 * built from a counter, the IOPub handler table, building a message and its
 * response channel, the default handling of IOPub stream output, the status
 * gate in front of every write, and the status update with its kernel-info
 * retries. The websocket is replaced by the sequence of messages written to
 * it; the outcome of each write and of each kernel-info request is a
 * parameter.
 */
module KernelConnection {
  import opened Wrappers
  import opened GoStrings
  import GoStrconv

  const RequestSuffix: string := "request"
  const ReplySuffix: string := "reply"
  const ExecuteRequest: string := "execute_request"
  const KernelInfoRequest: string := "kernel_info_request"
  /** The number of failed kernel-info requests after which the loop gives up is one more than this. */
  const MaxNumTries: nat := 5

  datatype ConnectionStatus = Initializing | Connecting | Connected | Disconnected | Dead

  datatype SocketChannel = ShellChannel | ControlChannel | IOPubChannel | StdinChannel | HeartbeatChannel

  datatype KernelError =
    | ErrHandlerAlreadyExists
    | ErrNoHandlerFound
    | ErrKernelIsDead
    | ErrNotConnected
    /** The websocket write failed with this text. */
    | ErrWrite(message: string)

  // ---------------------------------------------------------------------------
  // Message types.

  /**
   * getBaseMessageType: the type without its trailing "request" or "reply";
   * None where the source panics, for a type with neither suffix.
   */
  function BaseMessageType(t: string): (r: Option<string>)
    ensures r.Some? <==> HasSuffix(t, RequestSuffix) || HasSuffix(t, ReplySuffix)
    ensures HasSuffix(t, RequestSuffix) ==> r.Some? && r.value + RequestSuffix == t
    ensures !HasSuffix(t, RequestSuffix) && HasSuffix(t, ReplySuffix) ==> r.Some? && r.value + ReplySuffix == t
  {
    if HasSuffix(t, RequestSuffix) then Some(t[..|t| - 7])
    else if HasSuffix(t, ReplySuffix) then Some(t[..|t| - 5])
    else None
  }

  /** A request and the matching reply have the same base type: the action. */
  lemma RequestAndReplyShareBase(action: string)
    ensures BaseMessageType(action + RequestSuffix) == Some(action)
    ensures BaseMessageType(action + ReplySuffix) == Some(action)
  {
    var req := action + RequestSuffix;
    assert req[|req| - 7..] == RequestSuffix;
    assert req[..|req| - 7] == action;
    var rep := action + ReplySuffix;
    assert rep[|rep| - 5..] == ReplySuffix;
    assert rep[|rep| - 1] == 'y';
    assert rep[..|rep| - 5] == action;
  }

  lemma ExecuteRequestBase()
    ensures BaseMessageType(ExecuteRequest) == Some("execute_")
  {
    RequestAndReplyShareBase("execute_");
    assert "execute_" + RequestSuffix == ExecuteRequest;
  }

  // ---------------------------------------------------------------------------
  // Message ids.

  /** The id of the message sent with counter value k: clientId, the process id and k, joined by underscores. */
  function MessageId(clientId: string, pid: int, k: nat): string
  {
    clientId + "_" + GoStrconv.Itoa(pid) + "_" + GoStrconv.Itoa(k)
  }

  /** Different counter values give different message ids. */
  lemma MessageIdsDistinct(clientId: string, pid: int, k1: nat, k2: nat)
    requires k1 != k2
    ensures MessageId(clientId, pid, k1) != MessageId(clientId, pid, k2)
  {
    var prefix := clientId + "_" + GoStrconv.Itoa(pid) + "_";
    assert MessageId(clientId, pid, k1) == prefix + GoStrconv.NatToDigits(k1);
    assert MessageId(clientId, pid, k2) == prefix + GoStrconv.NatToDigits(k2);
    if MessageId(clientId, pid, k1) == MessageId(clientId, pid, k2) {
      assert GoStrconv.NatToDigits(k1) == (prefix + GoStrconv.NatToDigits(k1))[|prefix|..];
      assert GoStrconv.NatToDigits(k2) == (prefix + GoStrconv.NatToDigits(k2))[|prefix|..];
      GoStrconv.DigitsRoundTrip(k1);
      GoStrconv.DigitsRoundTrip(k2);
    }
  }

  // ---------------------------------------------------------------------------
  // Messages.

  datatype ContentValue = StringValue(s: string) | OtherValue
  /** A message's content: absent (nil), a JSON object, or any other value. */
  datatype Content = NilContent | MapContent(entries: map<string, ContentValue>) | OtherContent

  datatype Header = Header(date: string, messageId: string, messageType: string,
                           session: string, username: string, version: string)

  datatype KernelMessage = KernelMessage(channel: SocketChannel, header: Header, content: Content,
                                         metadata: map<string, string>)

  /** Only shell and control messages wait for a reply on a response channel. */
  predicate ExpectsResponse(channel: SocketChannel)
  {
    channel == ShellChannel || channel == ControlChannel
  }

  // ---------------------------------------------------------------------------
  // Status update with kernel-info retries.

  /** The kernel-info requests made: up to and including the first success, at most MaxNumTries + 1. */
  function RequestsMade(replies: seq<bool>): (n: nat)
    requires |replies| == MaxNumTries + 1
    ensures 1 <= n <= MaxNumTries + 1
    ensures forall i :: 0 <= i < n - 1 ==> !replies[i]
    ensures replies[n - 1] || n == MaxNumTries + 1
  {
    FirstSuccess(replies, 0)
  }

  function FirstSuccess(replies: seq<bool>, from: nat): (n: nat)
    requires from < |replies|
    ensures from < n <= |replies|
    ensures forall i :: from <= i < n - 1 ==> !replies[i]
    ensures replies[n - 1] || n == |replies|
    decreases |replies| - from
  {
    if replies[from] || from == |replies| - 1 then from + 1 else FirstSuccess(replies, from + 1)
  }

  /** The status that updateConnectionStatus leaves behind. */
  function StatusAfterUpdate(current: ConnectionStatus, target: ConnectionStatus, replies: seq<bool>): (r: ConnectionStatus)
    ensures r == current || r == target || r == Disconnected
    ensures target != Connected ==> r == target
    ensures current != target && target == Connected ==>
              (r == Connected <==> exists i :: 0 <= i < |replies| && replies[i])
  {
    if current == target then current
    else if target == Connected && !(exists i :: 0 <= i < |replies| && replies[i]) then Disconnected
    else target
  }

  // ---------------------------------------------------------------------------
  // The connection.

  class BasicKernelConnection {
    const kernelId: string
    const clientId: string
    /** The process id, which is part of every message id. */
    const pid: int
    /** The protocol version put in every header. */
    const version: string
    var messageCount: nat
    var connectionStatus: ConnectionStatus
    /** The registered IOPub handlers, each named by a token. */
    var iopubMessageHandlers: map<string, nat>
    /** The keys under which response channels are waiting. */
    var responseChannels: set<string>
    var kernelStdout: seq<string>
    var kernelStderr: seq<string>
    /** Every message written to the websocket, in order. */
    var written: seq<KernelMessage>

    /** The fields as NewKernelConnection sets them; an empty client id is replaced by a fresh UUID. */
    constructor (kernelId: string, clientId: string, generatedUuid: string, pid: int, version: string)
      ensures this.kernelId == kernelId && this.pid == pid && this.version == version
      ensures this.clientId == (if clientId == "" then generatedUuid else clientId)
      ensures messageCount == 0 && connectionStatus == Initializing
      ensures iopubMessageHandlers == map[] && responseChannels == {}
      ensures kernelStdout == [] && kernelStderr == [] && written == []
    {
      this.kernelId := kernelId;
      this.clientId := if clientId == "" then generatedUuid else clientId;
      this.pid := pid;
      this.version := version;
      messageCount := 0;
      connectionStatus := Initializing;
      iopubMessageHandlers := map[];
      responseChannels := {};
      kernelStdout := [];
      kernelStderr := [];
      written := [];
    }

    /** getNextMessageId: the id for the current counter, which then goes up by one. */
    method NextMessageId() returns (id: string)
      modifies this
      ensures id == MessageId(clientId, pid, old(messageCount))
      ensures messageCount == old(messageCount) + 1
      ensures connectionStatus == old(connectionStatus) && iopubMessageHandlers == old(iopubMessageHandlers)
      ensures responseChannels == old(responseChannels) && written == old(written)
      ensures kernelStdout == old(kernelStdout) && kernelStderr == old(kernelStderr)
    {
      id := MessageId(clientId, pid, messageCount);
      messageCount := messageCount + 1;
    }

    /** RegisterIoPubHandler: a new id is added; an id already present is refused and nothing changes. */
    method RegisterIoPubHandler(id: string, handler: nat) returns (err: Option<KernelError>)
      modifies this
      ensures id in old(iopubMessageHandlers) ==>
                err == Some(ErrHandlerAlreadyExists) && iopubMessageHandlers == old(iopubMessageHandlers)
      ensures id !in old(iopubMessageHandlers) ==>
                err == None && iopubMessageHandlers == old(iopubMessageHandlers)[id := handler]
      ensures messageCount == old(messageCount) && connectionStatus == old(connectionStatus)
      ensures responseChannels == old(responseChannels) && written == old(written)
      ensures kernelStdout == old(kernelStdout) && kernelStderr == old(kernelStderr)
    {
      if id in iopubMessageHandlers {
        return Some(ErrHandlerAlreadyExists);
      }
      iopubMessageHandlers := iopubMessageHandlers[id := handler];
      return None;
    }

    /** UnregisterIoPubHandler: a present id is removed; a missing one is reported and nothing changes. */
    method UnregisterIoPubHandler(id: string) returns (err: Option<KernelError>)
      modifies this
      ensures id !in old(iopubMessageHandlers) ==>
                err == Some(ErrNoHandlerFound) && iopubMessageHandlers == old(iopubMessageHandlers)
      ensures id in old(iopubMessageHandlers) ==>
                err == None && iopubMessageHandlers == old(iopubMessageHandlers) - {id}
      ensures messageCount == old(messageCount) && connectionStatus == old(connectionStatus)
      ensures responseChannels == old(responseChannels) && written == old(written)
      ensures kernelStdout == old(kernelStdout) && kernelStderr == old(kernelStderr)
    {
      if id !in iopubMessageHandlers {
        return Some(ErrNoHandlerFound);
      }
      iopubMessageHandlers := iopubMessageHandlers - {id};
      return None;
    }

    /**
     * createKernelMessage: a fresh id from the counter, the client id as both
     * session and user name, an empty object for nil content, the kernel id
     * as metadata, and a response channel under responseKey(message) for a
     * shell or control message only.
     */
    method CreateKernelMessage(messageType: string, channel: SocketChannel, content: Content, date: string,
                               responseKey: KernelMessage -> string)
      returns (message: KernelMessage, hasResponseChannel: bool)
      modifies this
      ensures hasResponseChannel <==> ExpectsResponse(channel)
      ensures message.channel == channel
      ensures message.header == Header(date, MessageId(clientId, pid, old(messageCount)), messageType,
                                       clientId, clientId, version)
      ensures content.NilContent? ==> message.content == MapContent(map[])
      ensures !content.NilContent? ==> message.content == content
      ensures message.metadata == map["kernel-id" := kernelId]
      ensures responseChannels == old(responseChannels) + (if hasResponseChannel then {responseKey(message)} else {})
      ensures messageCount == old(messageCount) + 1
      ensures connectionStatus == old(connectionStatus) && iopubMessageHandlers == old(iopubMessageHandlers)
      ensures written == old(written) && kernelStdout == old(kernelStdout) && kernelStderr == old(kernelStderr)
    {
      var messageId := NextMessageId();
      var header := Header(date, messageId, messageType, clientId, clientId, version);
      var body := if content.NilContent? then MapContent(map[]) else content;
      message := KernelMessage(channel, header, body, map["kernel-id" := kernelId]);
      hasResponseChannel := false;
      if channel == ShellChannel || channel == ControlChannel {
        hasResponseChannel := true;
        responseChannels := responseChannels + {responseKey(message)};
      }
    }

    /**
     * defaultHandleIOPubMessage as written: a "stream" message whose content
     * names a stream and carries text adds the text to stdout for "stdout",
     * but for "stderr" replaces the stderr history with the stdout history
     * followed by the text. Content that is not an object panics.
     */
    method DefaultHandleIoPubMessageAsWritten(messageType: string, content: Content) returns (panicked: bool)
      modifies this
      ensures panicked <==> messageType == "stream" && !content.MapContent?
      ensures StreamText(messageType, content, "stderr").Some? ==>
                kernelStderr == old(kernelStdout) + [StreamText(messageType, content, "stderr").value]
      ensures StreamText(messageType, content, "stdout").Some? ==>
                kernelStdout == old(kernelStdout) + [StreamText(messageType, content, "stdout").value]
      ensures StreamText(messageType, content, "stdout").None? ==> kernelStdout == old(kernelStdout)
      ensures StreamText(messageType, content, "stderr").None? ==> kernelStderr == old(kernelStderr)
      ensures messageCount == old(messageCount) && connectionStatus == old(connectionStatus)
      ensures iopubMessageHandlers == old(iopubMessageHandlers) && responseChannels == old(responseChannels)
      ensures written == old(written)
    {
      if messageType != "stream" {
        return false;
      }
      if !content.MapContent? {
        return true;
      }
      var entries := content.entries;
      if "name" !in entries || !entries["name"].StringValue? || "text" !in entries || !entries["text"].StringValue? {
        return false;
      }
      var stream := entries["name"].s;
      var text := entries["text"].s;
      if stream == "stdout" {
        kernelStdout := kernelStdout + [text];
      } else if stream == "stderr" {
        kernelStderr := kernelStdout + [text];
      }
      return false;
    }

    /**
     * defaultHandleIOPubMessage with stderr output appended to the stderr
     * history: each stream keeps exactly the texts sent on it, in order.
     */
    method DefaultHandleIoPubMessage(messageType: string, content: Content) returns (panicked: bool)
      modifies this
      ensures panicked <==> messageType == "stream" && !content.MapContent?
      ensures kernelStdout == old(kernelStdout) + OptionToSeq(StreamText(messageType, content, "stdout"))
      ensures kernelStderr == old(kernelStderr) + OptionToSeq(StreamText(messageType, content, "stderr"))
      ensures messageCount == old(messageCount) && connectionStatus == old(connectionStatus)
      ensures iopubMessageHandlers == old(iopubMessageHandlers) && responseChannels == old(responseChannels)
      ensures written == old(written)
    {
      if messageType != "stream" {
        return false;
      }
      if !content.MapContent? {
        return true;
      }
      var entries := content.entries;
      if "name" !in entries || !entries["name"].StringValue? || "text" !in entries || !entries["text"].StringValue? {
        return false;
      }
      var stream := entries["name"].s;
      var text := entries["text"].s;
      if stream == "stdout" {
        kernelStdout := kernelStdout + [text];
      } else if stream == "stderr" {
        kernelStderr := kernelStderr + [text];
      }
      return false;
    }

    /**
     * sendMessage: a dead kernel and a kernel that is not connected refuse
     * the message; a connected one writes it, and a failed write is returned.
     */
    method SendMessage(message: KernelMessage, writeError: Option<string>) returns (err: Option<KernelError>)
      modifies this
      ensures connectionStatus == Dead ==> err == Some(ErrKernelIsDead)
      ensures connectionStatus != Dead && connectionStatus != Connected ==> err == Some(ErrNotConnected)
      ensures connectionStatus == Connected ==>
                (writeError.None? ==> err == None) && (writeError.Some? ==> err == Some(ErrWrite(writeError.value)))
      ensures written == old(written) + (if err.None? then [message] else [])
      ensures messageCount == old(messageCount) && connectionStatus == old(connectionStatus)
      ensures iopubMessageHandlers == old(iopubMessageHandlers) && responseChannels == old(responseChannels)
      ensures kernelStdout == old(kernelStdout) && kernelStderr == old(kernelStderr)
    {
      if connectionStatus == Dead {
        return Some(ErrKernelIsDead);
      }
      if connectionStatus == Connected {
        if writeError.Some? {
          return Some(ErrWrite(writeError.value));
        }
        written := written + [message];
        return None;
      }
      return Some(ErrNotConnected);
    }

    /** The kernel-info request built with counter value k on the given date. */
    function KernelInfoMessage(date: string, k: nat): (m: KernelMessage)
      ensures m.channel == ShellChannel && m.header.messageType == KernelInfoRequest
      ensures m.header.messageId == MessageId(clientId, pid, k)
    {
      KernelMessage(ShellChannel, Header(date, MessageId(clientId, pid, k), KernelInfoRequest, clientId, clientId, version),
                    MapContent(map["sender-id" := StringValue("GoJupyter-" + kernelId)]), map["kernel-id" := kernelId])
    }

    /** The kernel-info requests built one after the other from counter value first, one per date. */
    function KernelInfoMessages(dates: seq<string>, first: nat): (ms: seq<KernelMessage>)
      ensures |ms| == |dates|
    {
      if dates == [] then []
      else KernelInfoMessages(dates[..|dates| - 1], first) + [KernelInfoMessage(dates[|dates| - 1], first + |dates| - 1)]
    }

    /**
     * RequestKernelInfo: a kernel-info request naming the kernel as sender
     * is built on the shell channel, so it gets a response channel, and sent.
     * It succeeds iff the write goes through and the reply arrives before the
     * five-second timeout (answered).
     */
    method RequestKernelInfo(date: string, responseKey: KernelMessage -> string, writeError: Option<string>, answered: bool)
      returns (ok: bool)
      modifies this
      ensures ok <==> connectionStatus == Connected && writeError.None? && answered
      ensures messageCount == old(messageCount) + 1
      ensures responseChannels == old(responseChannels) + {responseKey(KernelInfoMessage(date, old(messageCount)))}
      ensures written == old(written) + (if connectionStatus == Connected && writeError.None?
                                         then [KernelInfoMessage(date, old(messageCount))] else [])
      ensures connectionStatus == old(connectionStatus) && iopubMessageHandlers == old(iopubMessageHandlers)
      ensures kernelStdout == old(kernelStdout) && kernelStderr == old(kernelStderr)
    {
      var content := MapContent(map["sender-id" := StringValue("GoJupyter-" + kernelId)]);
      var message, _ := CreateKernelMessage(KernelInfoRequest, ShellChannel, content, date, responseKey);
      assert message == KernelInfoMessage(date, old(messageCount));
      var err := SendMessage(message, writeError);
      ok := err.None? && answered;
    }

    /**
     * updateConnectionStatus: nothing happens when the status is already the
     * target. Otherwise the status is set, and for Connected the kernel info
     * is requested until a request succeeds, at most MaxNumTries + 1 times;
     * try i is sent on dates[i], its write fails with writeErrors[i], and
     * answered[i] says whether its reply came in time. Every try builds a
     * message with a response channel; the writes that go through are on the
     * websocket. When no try succeeds, the status ends as Disconnected.
     */
    method UpdateConnectionStatus(status: ConnectionStatus, dates: seq<string>, writeErrors: seq<Option<string>>,
                                  answered: seq<bool>, responseKey: KernelMessage -> string)
      returns (requests: nat)
      requires |dates| == MaxNumTries + 1 && |writeErrors| == MaxNumTries + 1 && |answered| == MaxNumTries + 1
      modifies this
      ensures connectionStatus == StatusAfterUpdate(old(connectionStatus), status, Replies(writeErrors, answered))
      ensures requests == (if old(connectionStatus) != status && status == Connected
                           then RequestsMade(Replies(writeErrors, answered)) else 0)
      ensures messageCount == old(messageCount) + requests
      ensures responseChannels == old(responseChannels)
                                  + ResponseKeys(KernelInfoMessages(dates[..requests], old(messageCount)), responseKey)
      ensures written == old(written) + Delivered(KernelInfoMessages(dates[..requests], old(messageCount)), writeErrors)
      ensures iopubMessageHandlers == old(iopubMessageHandlers)
      ensures kernelStdout == old(kernelStdout) && kernelStderr == old(kernelStderr)
    {
      requests := 0;
      if connectionStatus == status {
        return;
      }
      connectionStatus := status;
      if connectionStatus == Connected {
        var success;
        requests, success := RequestKernelInfoWithRetries(dates, writeErrors, answered, responseKey);
        if !success {
          connectionStatus := Disconnected;
        }
      }
    }

    /**
     * The retry loop of updateConnectionStatus on a connected kernel: kernel
     * info is requested until a request succeeds, at most MaxNumTries + 1
     * times, and success says whether one did.
     */
    method RequestKernelInfoWithRetries(dates: seq<string>, writeErrors: seq<Option<string>>,
                                        answered: seq<bool>, responseKey: KernelMessage -> string)
      returns (requests: nat, success: bool)
      requires |dates| == MaxNumTries + 1 && |writeErrors| == MaxNumTries + 1 && |answered| == MaxNumTries + 1
      requires connectionStatus == Connected
      modifies this
      ensures success <==> exists i :: 0 <= i < |answered| && Replies(writeErrors, answered)[i]
      ensures requests == RequestsMade(Replies(writeErrors, answered))
      ensures connectionStatus == Connected
      ensures messageCount == old(messageCount) + requests
      ensures responseChannels == old(responseChannels)
                                  + ResponseKeys(KernelInfoMessages(dates[..requests], old(messageCount)), responseKey)
      ensures written == old(written) + Delivered(KernelInfoMessages(dates[..requests], old(messageCount)), writeErrors)
      ensures iopubMessageHandlers == old(iopubMessageHandlers)
      ensures kernelStdout == old(kernelStdout) && kernelStderr == old(kernelStderr)
    {
      var replies := Replies(writeErrors, answered);
      var first, channels0, written0 := messageCount, responseChannels, written;
      requests := 0;
      success := false;
      var numTries: nat := 0;
      while numTries <= MaxNumTries
        invariant 0 <= numTries <= MaxNumTries + 1
        invariant !success && requests == numTries
        invariant NoneSucceeded(replies, numTries)
        invariant connectionStatus == Connected
        invariant Accounted(channels0, written0, dates, writeErrors, responseKey, first, requests)
        invariant iopubMessageHandlers == old(iopubMessageHandlers)
        invariant kernelStdout == old(kernelStdout) && kernelStderr == old(kernelStderr)
      {
        var ok := RequestKernelInfoStep(channels0, written0, dates, writeErrors, answered, responseKey,
                                        first, numTries);
        assert ok == replies[numTries];
        requests := requests + 1;
        if !ok {
          NoneSucceededExtends(replies, numTries);
          numTries := numTries + 1;
          continue;
        } else {
          success := true;
          break;
        }
      }
      SuccessIffSomeReply(replies, success, numTries);
    }

    /**
     * After n kernel-info requests numbered from first: the message counter
     * has moved on by n, and the response channels and the written messages
     * have grown, from channels0 and written0, by those n requests.
     */
    predicate Accounted(channels0: set<string>, written0: seq<KernelMessage>, dates: seq<string>,
                        writeErrors: seq<Option<string>>, responseKey: KernelMessage -> string, first: nat, n: nat)
      reads this
    {
      && n <= |dates| <= |writeErrors|
      && messageCount == first + n
      && responseChannels == channels0 + ResponseKeys(KernelInfoMessages(dates[..n], first), responseKey)
      && written == written0 + Delivered(KernelInfoMessages(dates[..n], first), writeErrors)
    }

    /** Try n of the retry loop: the n requests before it are accounted for, and afterwards n + 1 are. */
    method RequestKernelInfoStep(channels0: set<string>, written0: seq<KernelMessage>, dates: seq<string>,
                                 writeErrors: seq<Option<string>>, answered: seq<bool>,
                                 responseKey: KernelMessage -> string, first: nat, n: nat)
      returns (ok: bool)
      requires n < |dates| == |writeErrors| == |answered|
      requires connectionStatus == Connected
      requires Accounted(channels0, written0, dates, writeErrors, responseKey, first, n)
      modifies this
      ensures ok <==> writeErrors[n].None? && answered[n]
      ensures connectionStatus == Connected
      ensures Accounted(channels0, written0, dates, writeErrors, responseKey, first, n + 1)
      ensures iopubMessageHandlers == old(iopubMessageHandlers)
      ensures kernelStdout == old(kernelStdout) && kernelStderr == old(kernelStderr)
    {
      var keys := ResponseKeys(KernelInfoMessages(dates[..n], first), responseKey);
      var sent := Delivered(KernelInfoMessages(dates[..n], first), writeErrors);
      var m := KernelInfoMessage(dates[n], first + n);
      ok := RequestKernelInfo(dates[n], responseKey, writeErrors[n], answered[n]);
      RequestsGrow(dates, writeErrors, responseKey, first, n);
      UnionAssociates(channels0, keys, {responseKey(m)});
      ConcatAssociates(written0, sent, if writeErrors[n].None? then [m] else []);
    }

    /** One more kernel-info request adds its key and, when its write goes through, the message itself. */
    lemma RequestsGrow(dates: seq<string>, writeErrors: seq<Option<string>>, responseKey: KernelMessage -> string,
                       first: nat, n: nat)
      requires n < |dates| && |dates| == |writeErrors|
      ensures ResponseKeys(KernelInfoMessages(dates[..n + 1], first), responseKey)
              == ResponseKeys(KernelInfoMessages(dates[..n], first), responseKey) + {responseKey(KernelInfoMessage(dates[n], first + n))}
      ensures Delivered(KernelInfoMessages(dates[..n + 1], first), writeErrors)
              == Delivered(KernelInfoMessages(dates[..n], first), writeErrors)
                 + (if writeErrors[n].None? then [KernelInfoMessage(dates[n], first + n)] else [])
    {
      var before := KernelInfoMessages(dates[..n], first);
      var m := KernelInfoMessage(dates[n], first + n);
      KernelInfoMessagesGrow(dates, first, n);
      ResponseKeysGrow(before, m, responseKey);
      DeliveredGrow(before, m, writeErrors);
    }

    /** One more date gives one more kernel-info message, numbered after the others. */
    lemma KernelInfoMessagesGrow(dates: seq<string>, first: nat, n: nat)
      requires n < |dates|
      ensures KernelInfoMessages(dates[..n + 1], first)
              == KernelInfoMessages(dates[..n], first) + [KernelInfoMessage(dates[n], first + n)]
    {
      assert dates[..n + 1][..n] == dates[..n];
    }
  }

  /** One more message adds its response key. */
  lemma ResponseKeysGrow(messages: seq<KernelMessage>, m: KernelMessage, responseKey: KernelMessage -> string)
    ensures ResponseKeys(messages + [m], responseKey) == ResponseKeys(messages, responseKey) + {responseKey(m)}
  {
    assert (messages + [m])[..|messages|] == messages;
  }

  /** One more message is delivered exactly when its write goes through. */
  lemma DeliveredGrow(messages: seq<KernelMessage>, m: KernelMessage, writeErrors: seq<Option<string>>)
    requires |messages| < |writeErrors|
    ensures Delivered(messages + [m], writeErrors)
            == Delivered(messages, writeErrors) + (if writeErrors[|messages|].None? then [m] else [])
  {
    assert (messages + [m])[..|messages|] == messages;
  }

  /** Try i of the kernel-info loop succeeds iff its write went through and its reply came in time. */
  function Replies(writeErrors: seq<Option<string>>, answered: seq<bool>): (replies: seq<bool>)
    requires |writeErrors| == |answered|
    ensures |replies| == |answered|
    ensures forall i :: 0 <= i < |answered| ==> (replies[i] <==> writeErrors[i].None? && answered[i])
  {
    seq(|answered|, i requires 0 <= i < |answered| => writeErrors[i].None? && answered[i])
  }

  lemma UnionAssociates(a: set<string>, b: set<string>, c: set<string>)
    ensures (a + b) + c == a + (b + c)
  {
  }

  lemma ConcatAssociates(a: seq<KernelMessage>, b: seq<KernelMessage>, c: seq<KernelMessage>)
    ensures (a + b) + c == a + (b + c)
  {
  }

  /** The keys of the response channels the messages wait on. */
  function ResponseKeys(messages: seq<KernelMessage>, responseKey: KernelMessage -> string): (keys: set<string>)
    ensures |messages| > 0 ==> responseKey(messages[|messages| - 1]) in keys
  {
    if messages == [] then {}
    else ResponseKeys(messages[..|messages| - 1], responseKey) + {responseKey(messages[|messages| - 1])}
  }

  /** The messages whose write went through (writeErrors[i] is None for message i), in order. */
  function Delivered(messages: seq<KernelMessage>, writeErrors: seq<Option<string>>): (sent: seq<KernelMessage>)
    requires |messages| <= |writeErrors|
    ensures |sent| <= |messages|
  {
    if messages == [] then []
    else Delivered(messages[..|messages| - 1], writeErrors)
         + (if writeErrors[|messages| - 1].None? then [messages[|messages| - 1]] else [])
  }

  /** The text of a "stream" message for the given stream, if the content carries both name and text. */
  function StreamText(messageType: string, content: Content, stream: string): (text: Option<string>)
    ensures text.Some? ==> messageType == "stream" && content.MapContent?
                           && "name" in content.entries && content.entries["name"] == StringValue(stream)
                           && "text" in content.entries && content.entries["text"] == StringValue(text.value)
  {
    if messageType == "stream" && content.MapContent? && "name" in content.entries
       && content.entries["name"] == StringValue(stream)
       && "text" in content.entries && content.entries["text"].StringValue?
    then Some(content.entries["text"].s)
    else None
  }

  /** None of the first n kernel-info requests succeeded. */
  predicate NoneSucceeded(replies: seq<bool>, n: nat)
  {
    forall i :: 0 <= i < n && i < |replies| ==> !replies[i]
  }

  lemma NoneSucceededExtends(replies: seq<bool>, n: nat)
    requires NoneSucceeded(replies, n) && n < |replies| && !replies[n]
    ensures NoneSucceeded(replies, n + 1)
  {
  }

  /** Kernel-info request i was answered. */
  predicate SucceededAt(replies: seq<bool>, i: nat)
  {
    i < |replies| && replies[i]
  }

  function OptionToSeq(o: Option<string>): seq<string>
  {
    if o.Some? then [o.value] else []
  }

  /** How the retry loop ends tells whether any of the replies succeeded. */
  lemma SuccessIffSomeReply(replies: seq<bool>, success: bool, numTries: nat)
    requires |replies| == MaxNumTries + 1
    requires 0 <= numTries <= MaxNumTries + 1
    requires NoneSucceeded(replies, numTries)
    requires success ==> SucceededAt(replies, numTries)
    requires !success ==> numTries == MaxNumTries + 1
    ensures success <==> exists i :: 0 <= i < |replies| && replies[i]
    ensures success ==> RequestsMade(replies) == numTries + 1
    ensures !success ==> RequestsMade(replies) == MaxNumTries + 1
  {
  }

  /** A registration followed by the removal of the same id leaves the handler table as it was. */
  method RegisterThenUnregister(conn: BasicKernelConnection, id: string, handler: nat)
      returns (registered: Option<KernelError>, unregistered: Option<KernelError>)
    requires id !in conn.iopubMessageHandlers
    modifies conn
    ensures registered == None && unregistered == None
    ensures conn.iopubMessageHandlers == old(conn.iopubMessageHandlers)
  {
    registered := conn.RegisterIoPubHandler(id, handler);
    unregistered := conn.UnregisterIoPubHandler(id);
    assert conn.iopubMessageHandlers == old(conn.iopubMessageHandlers)[id := handler] - {id};
  }

  /** Two messages built one after the other carry different ids. */
  method SuccessiveMessagesHaveDistinctIds(conn: BasicKernelConnection, date: string, key: KernelMessage -> string)
      returns (first: KernelMessage, second: KernelMessage)
    modifies conn
    ensures first.header.messageId != second.header.messageId
  {
    var k := conn.messageCount;
    var waits: bool;
    first, waits := conn.CreateKernelMessage(ExecuteRequest, ShellChannel, NilContent, date, key);
    second, waits := conn.CreateKernelMessage(KernelInfoRequest, ShellChannel, NilContent, date, key);
    MessageIdsDistinct(conn.clientId, conn.pid, k, k + 1);
  }

  /** As written, an stderr message erases the earlier stderr output when stdout is empty. */
  method StderrOverwrittenAsWritten() returns (asWritten: seq<string>, corrected: seq<string>)
    ensures asWritten == ["second"]
    ensures corrected == ["first", "second"]
  {
    var content1 := MapContent(map["name" := StringValue("stderr"), "text" := StringValue("first")]);
    var content2 := MapContent(map["name" := StringValue("stderr"), "text" := StringValue("second")]);
    var c := new BasicKernelConnection("k", "c", "u", 1, "5.3");
    assert StreamText("stream", content1, "stderr") == Some("first");
    assert StreamText("stream", content2, "stderr") == Some("second");
    var _ := c.DefaultHandleIoPubMessageAsWritten("stream", content1);
    var _ := c.DefaultHandleIoPubMessageAsWritten("stream", content2);
    asWritten := c.kernelStderr;
    var d := new BasicKernelConnection("k", "c", "u", 1, "5.3");
    var _ := d.DefaultHandleIoPubMessage("stream", content1);
    var _ := d.DefaultHandleIoPubMessage("stream", content2);
    corrected := d.kernelStderr;
  }
}
