/**
 * The per-session client (driver-backend/internal/server/workload/client.go):
 * its builder, the first-event check and kernel creation with its retry
 * budget, the error triage of the event loop, the handling of an
 * "execute_reply", and the duration and timeout arithmetic.
 */
module WorkloadClient {
  import opened Wrappers
  import opened GoStrings
  import opened SessionEvents
  import opened WorkloadEvents
  import Generator

  // ---------------------------------------------------------------------------
  // Errors.

  datatype ErrorKind = InvalidFirstEvent | UnknownSession | UnknownEventType | OtherError

  /** An error as the client sees it: what errors.Is would match, and its text. */
  datatype ClientError = ClientError(kind: ErrorKind, message: string)

  /**
   * handleError: an unknown session or an unknown event type is discarded
   * and the workload goes on (false); every other error aborts it (true).
   */
  function HandleError(err: ClientError): (abort: bool)
    ensures !abort <==> err.kind == UnknownSession || err.kind == UnknownEventType
  {
    !(err.kind == UnknownSession || err.kind == UnknownEventType)
  }

  /** What the event loop does with one event: the error, and the record it adds to the workload. */
  datatype Dispatch = Dispatch(err: Option<ClientError>, recorded: Option<WorkloadEvent>)

  /**
   * handleEvent: a training event goes to the training handler and a
   * session-stopped event to the stop handler, whose result is recorded as a
   * processed event even when it is an error; any other event is an error of
   * kind UnknownEventType. The handlers' results are passed in.
   */
  function HandleEvent(evt: Event, eventNameText: string, timestamp: string, now: string,
                       trainingResult: Option<ClientError>, stoppedResult: Option<ClientError>): (d: Dispatch)
    ensures evt.name == SessionTraining ==> d == Dispatch(trainingResult, None)
    ensures evt.name == SessionStopped ==>
              d.err == stoppedResult && d.recorded.Some?
              && d.recorded.value.id == evt.id && d.recorded.value.session == evt.sessionId
              && d.recorded.value.name == eventNameText && d.recorded.value.timestamp == timestamp
              && d.recorded.value.processedAt == now
              && (stoppedResult.Some? ==> d.recorded.value.errorMessage == stoppedResult.value.message)
              && (stoppedResult.None? ==> d.recorded.value.errorMessage == "")
    ensures evt.name != SessionTraining && evt.name != SessionStopped ==>
              d.recorded.None? && d.err.Some? && d.err.value.kind == UnknownEventType
  {
    match evt.name
    case SessionTraining => Dispatch(trainingResult, None)
    case SessionStopped =>
      var e := WithError(
                 WithProcessedAtTime(
                   WithEventTimestamp(
                     WithEventName(WithSessionId(WithEventId(NewEmptyWorkloadEvent(), evt.id), evt.sessionId),
                                   eventNameText),
                     timestamp),
                   now),
                 if stoppedResult.Some? then Some(stoppedResult.value.message) else None);
      Dispatch(stoppedResult, Some(e))
    case _ => Dispatch(Some(ClientError(UnknownEventType, "unknown or unsupported session/workload event type")), None)
  }

  /** A dispatch error on an unknown event never aborts the workload. */
  lemma UnknownEventsAreDiscarded(evt: Event, nameText: string, ts: string, now: string,
                                  tr: Option<ClientError>, sr: Option<ClientError>)
    requires evt.name != SessionTraining && evt.name != SessionStopped
    ensures !HandleError(HandleEvent(evt, nameText, ts, now, tr, sr).err.value)
  {
  }

  // ---------------------------------------------------------------------------
  // Kernel creation.

  /** The resources of one training event of the session's template. */
  datatype TrainingResources = TrainingResources(millicpus: real, memUsageMb: real, numGpus: int, vramUsageGb: real)

  /** The resource spec of a create-session request; CPU is whole millicpus. */
  datatype ResourceSpec = ResourceSpec(cpu: int, mem: real, gpu: int, vram: real)

  /** The policies under which the first training's resources are reserved up front. */
  predicate ReservesFirstTraining(policy: string)
  {
    policy == "static" || policy == "dynamic-v3" || policy == "dynamic-v4"
  }

  function SpecOfTraining(t: TrainingResources): (s: ResourceSpec)
    ensures s.mem == t.memUsageMb && s.gpu == t.numGpus && s.vram == t.vramUsageGb
    ensures t.millicpus >= 0.0 ==> s.cpu >= 0 && s.cpu as real <= t.millicpus < s.cpu as real + 1.0
  {
    ResourceSpec(Generator.Trunc(t.millicpus), t.memUsageMb, t.numGpus, t.vramUsageGb)
  }

  function SpecOfMaximum(m: ResourceRequest): (s: ResourceSpec)
    ensures s.mem == m.memoryMb && s.gpu == m.gpus && s.vram == m.vram
    ensures m.cpus >= 0.0 ==> s.cpu >= 0 && s.cpu as real <= m.cpus < s.cpu as real + 1.0
  {
    ResourceSpec(Generator.Trunc(m.cpus), m.memoryMb, m.gpus, m.vram)
  }

  /**
   * The initial resource request of createKernel. Under static, dynamic-v3
   * and dynamic-v4 it is the first training's resources when that training
   * is present; otherwise the session's maximum. Under those policies a
   * session without trainings indexes past the end and panics: None.
   */
  function InitialResourceRequest(policy: string, trainings: seq<Option<TrainingResources>>,
                                  maximum: ResourceRequest): (r: Option<ResourceSpec>)
    ensures r.None? <==> ReservesFirstTraining(policy) && |trainings| == 0
    ensures ReservesFirstTraining(policy) && |trainings| > 0 && trainings[0].Some? ==>
              r == Some(SpecOfTraining(trainings[0].value))
    ensures ReservesFirstTraining(policy) && |trainings| > 0 && trainings[0].None? ==>
              r == Some(SpecOfMaximum(maximum))
    ensures !ReservesFirstTraining(policy) ==> r == Some(SpecOfMaximum(maximum))
  {
    if ReservesFirstTraining(policy) then
      if |trainings| == 0 then None
      else if trainings[0].Some? then Some(SpecOfTraining(trainings[0].value))
      else Some(SpecOfMaximum(maximum))
    else Some(SpecOfMaximum(maximum))
  }

  /** The backoff allows this many create-session attempts. */
  const BackoffSteps: nat := 10

  /** The error text on which createKernel waits and retries. */
  const InsufficientHosts: string := "insufficient hosts available"

  /** What one CreateSession call returned. */
  datatype CreateAttempt = SessionCreated(connectionId: string) | CreateFailed(message: string)

  predicate IsRetriable(a: CreateAttempt)
  {
    a.CreateFailed? && Contains(a.message, InsufficientHosts)
  }

  /** The connection createKernel ends with, or the error it returns. */
  datatype KernelOutcome = KernelOutcome(connection: Option<string>, err: Option<string>)

  /**
   * The outcome of the retry loop with `steps` attempts left, given the
   * calls' results in order and the error of the previous attempt.
   */
  function RetryOutcome(attempts: seq<CreateAttempt>, steps: nat, lastErr: Option<string>): (o: KernelOutcome)
    requires |attempts| >= steps
    ensures o.connection.Some? ==> o.err.None?
    ensures o.connection.None? && (steps > 0 || lastErr.Some?) ==> o.err.Some?
    decreases steps
  {
    if steps == 0 then KernelOutcome(None, lastErr)
    else match attempts[0]
      case SessionCreated(c) => KernelOutcome(Some(c), None)
      case CreateFailed(m) =>
        if IsRetriable(attempts[0]) then RetryOutcome(attempts[1..], steps - 1, Some(m))
        else KernelOutcome(None, Some(m))
  }

  /**
   * A connection is obtained exactly when some attempt within the budget
   * succeeds after nothing but insufficient-hosts failures.
   */
  lemma {:induction false} RetryConnects(attempts: seq<CreateAttempt>, steps: nat, lastErr: Option<string>)
    requires |attempts| >= steps
    ensures RetryOutcome(attempts, steps, lastErr).connection.Some? <==>
              exists k :: 0 <= k < steps && attempts[k].SessionCreated?
                          && forall j :: 0 <= j < k ==> IsRetriable(attempts[j])
    decreases steps
  {
    if steps > 0 {
      RetryConnects(attempts[1..], steps - 1, if attempts[0].CreateFailed? then Some(attempts[0].message) else None);
      if IsRetriable(attempts[0]) {
        if RetryOutcome(attempts, steps, lastErr).connection.Some? {
          var k :| 0 <= k < steps - 1 && attempts[1..][k].SessionCreated?
                   && forall j :: 0 <= j < k ==> IsRetriable(attempts[1..][j]);
          assert forall j :: 0 <= j < k + 1 ==> IsRetriable(attempts[j]) by {
            forall j | 0 <= j < k + 1 ensures IsRetriable(attempts[j]) {
              if j > 0 { assert attempts[j] == attempts[1..][j - 1]; }
            }
          }
          assert attempts[k + 1].SessionCreated?;
        } else {
          forall k | 0 <= k < steps && attempts[k].SessionCreated?
            ensures exists j :: 0 <= j < k && !IsRetriable(attempts[j])
          {
            assert k > 0;
            assert attempts[1..][k - 1] == attempts[k];
            var j :| 0 <= j < k - 1 && !IsRetriable(attempts[1..][j]);
            assert attempts[j + 1] == attempts[1..][j];
          }
        }
      }
    }
  }

  /** When every attempt within the budget hits insufficient hosts, the last error is returned. */
  lemma {:induction false} RetryExhausted(attempts: seq<CreateAttempt>, steps: nat, lastErr: Option<string>)
    requires |attempts| >= steps > 0
    requires forall j :: 0 <= j < steps ==> IsRetriable(attempts[j])
    ensures IsRetriable(attempts[steps - 1])
            && RetryOutcome(attempts, steps, lastErr) == KernelOutcome(None, Some(attempts[steps - 1].message))
    decreases steps
  {
    if steps > 1 {
      assert forall j :: 0 <= j < steps - 1 ==> attempts[1..][j] == attempts[j + 1];
      RetryExhausted(attempts[1..], steps - 1, Some(attempts[0].message));
    }
  }

  /**
   * The create-session loop of createKernel: call until a connection is made
   * or the backoff runs out, retrying only insufficient-hosts failures and
   * returning any other error at once. The calls' results are passed in.
   */
  method CreateSessionWithRetry(attempts: seq<CreateAttempt>) returns (o: KernelOutcome)
    requires |attempts| >= BackoffSteps
    ensures o == RetryOutcome(attempts, BackoffSteps, None)
  {
    var steps := BackoffSteps;
    var k := 0;
    var connection: Option<string> := None;
    var err: Option<string> := None;
    while connection.None? && steps > 0
      invariant 0 <= steps <= BackoffSteps && k == BackoffSteps - steps
      invariant connection.None? ==> RetryOutcome(attempts[k..], steps, err) == RetryOutcome(attempts, BackoffSteps, None)
      invariant connection.Some? ==> KernelOutcome(connection, err) == RetryOutcome(attempts, BackoffSteps, None)
      decreases steps, if connection.None? then 1 else 0
    {
      match attempts[k] {
        case SessionCreated(c) =>
          connection, err := Some(c), None;
        case CreateFailed(m) =>
          err := Some(m);
          if !Contains(m, InsufficientHosts) {
            return KernelOutcome(None, err);
          }
          steps := steps - 1;
          k := k + 1;
      }
    }
    return KernelOutcome(connection, err);
  }

  // ---------------------------------------------------------------------------
  // Durations.

  /**
   * getAdjustedDuration: a zero duration stays zero; otherwise the duration
   * scaled by the workload's timescale factor, truncated to whole nanoseconds.
   */
  function AdjustedDuration(factor: real, duration: int): (r: int)
    ensures duration == 0 ==> r == 0
    ensures factor * duration as real >= 0.0 ==>
              0 <= r && r as real <= factor * duration as real < r as real + 1.0
    ensures factor * duration as real < 0.0 ==>
              r <= 0 && r as real - 1.0 < factor * duration as real <= r as real
  {
    if duration == 0 then 0 else Generator.Trunc(factor * duration as real)
  }

  lemma AdjustedDurationAtUnitScale(duration: int)
    ensures AdjustedDuration(1.0, duration) == duration
  {
  }

  const NanosPerSecond: int := 1000000000

  /**
   * The fixed base of getTimeoutInterval, to which the adjusted duration is
   * added: one minute without a scheduling policy, thirty seconds for
   * static, dynamic-v3 and dynamic-v4, and two minutes when the remote
   * storage definition or the current resource request is missing. None is
   * the remaining case, whose network-latency estimate is floating point.
   */
  function TimeoutBase(policy: string, hasRemoteStorage: bool, hasResourceRequest: bool): (r: Option<int>)
    ensures policy == "" ==> r == Some(60 * NanosPerSecond)
    ensures ReservesFirstTraining(policy) ==> r == Some(30 * NanosPerSecond)
    ensures policy != "" && !ReservesFirstTraining(policy) ==>
              (r.Some? <==> !hasRemoteStorage || !hasResourceRequest)
              && (r.Some? ==> r.value == 120 * NanosPerSecond)
  {
    if policy == "" then Some(60 * NanosPerSecond)
    else if ReservesFirstTraining(policy) then Some(30 * NanosPerSecond)
    else if !hasRemoteStorage then Some(120 * NanosPerSecond)
    else if !hasResourceRequest then Some(120 * NanosPerSecond)
    else None
  }

  /** getTimeoutInterval where it does not depend on the latency estimate. */
  function TimeoutInterval(policy: string, hasRemoteStorage: bool, hasResourceRequest: bool,
                           factor: real, duration: int): (r: Option<int>)
    ensures r.Some? <==> TimeoutBase(policy, hasRemoteStorage, hasResourceRequest).Some?
    ensures r.Some? ==> r.value == TimeoutBase(policy, hasRemoteStorage, hasResourceRequest).value + AdjustedDuration(factor, duration)
  {
    var base := TimeoutBase(policy, hasRemoteStorage, hasResourceRequest);
    if base.Some? then Some(base.value + AdjustedDuration(factor, duration)) else None
  }

  /** With a non-negative factor and duration, every fixed timeout is at least thirty seconds. */
  lemma TimeoutAtLeastThirtySeconds(policy: string, rs: bool, rr: bool, factor: real, duration: int)
    requires factor >= 0.0 && duration >= 0
    requires TimeoutInterval(policy, rs, rr, factor, duration).Some?
    ensures TimeoutInterval(policy, rs, rr, factor, duration).value >= 30 * NanosPerSecond
  {
    assert factor * duration as real >= 0.0;
  }

  /**
   * The delay between submitting a training and its start, as recorded: a
   * negative difference (clock skew) is clamped to zero.
   */
  function TrainingStartDelayMillis(trainingStartedAt: int, submittedAtMillis: int): (d: int)
    ensures d >= 0
    ensures trainingStartedAt >= submittedAtMillis ==> d == trainingStartedAt - submittedAtMillis
    ensures trainingStartedAt < submittedAtMillis ==> d == 0
  {
    var delay := trainingStartedAt - submittedAtMillis;
    if delay < 0 then 0 else delay
  }

  predicate AllNonNegative(xs: seq<real>)
  {
    forall i :: 0 <= i < |xs| ==> xs[i] >= 0.0
  }

  /**
   * The statistics update for a training start: the delay is appended to the
   * latency list and added to the running total, so both stay non-negative.
   */
  function RecordTrainingStartDelay(latencies: seq<real>, total: real, trainingStartedAt: int, submittedAtMillis: int): (r: (seq<real>, real))
    ensures |r.0| == |latencies| + 1 && r.0[..|latencies|] == latencies
    ensures r.0[|latencies|] == TrainingStartDelayMillis(trainingStartedAt, submittedAtMillis) as real
    ensures r.1 == total + r.0[|latencies|]
    ensures AllNonNegative(latencies) && total >= 0.0 ==> AllNonNegative(r.0) && r.1 >= 0.0
  {
    var d := TrainingStartDelayMillis(trainingStartedAt, submittedAtMillis) as real;
    (latencies + [d], total + d)
  }

  // ---------------------------------------------------------------------------
  // The builder and the client.

  datatype StartedNotice = StartedError(message: string)

  datatype InitOutcome = Initialized | InitFailed(error: ClientError) | InitPanicked

  class Client {
    const sessionId: string
    const workloadId: string
    const schedulingPolicy: string
    /** The session's maxima, taken from the session-ready event. */
    const maximumResourceSpec: ResourceRequest
    /** The session template's trainings; an entry may be nil. */
    const trainings: seq<Option<TrainingResources>>

    /** The session's pending events, in the order they will be popped. */
    var eventQueue: seq<Event>
    var sessionConnection: Option<string>
    /** What was sent on the training-started and training-stopped channels. */
    var trainingStarted: seq<StartedNotice>
    var trainingStopped: seq<map<string, string>>

    constructor (sessionId: string, workloadId: string, schedulingPolicy: string, readyEvent: Event,
                 trainings: seq<Option<TrainingResources>>)
      ensures this.sessionId == sessionId && this.workloadId == workloadId
      ensures this.schedulingPolicy == schedulingPolicy && this.trainings == trainings
      ensures maximumResourceSpec == ResourceRequest(readyEvent.data.maxSessionCpus, readyEvent.data.maxSessionMemory,
                                                     readyEvent.data.maxSessionVram, readyEvent.data.maxSessionGpus)
      ensures eventQueue == [readyEvent] && sessionConnection.None?
      ensures trainingStarted == [] && trainingStopped == []
    {
      this.sessionId := sessionId;
      this.workloadId := workloadId;
      this.schedulingPolicy := schedulingPolicy;
      this.trainings := trainings;
      var md := readyEvent.data;
      maximumResourceSpec := ResourceRequest(md.maxSessionCpus, md.maxSessionMemory, md.maxSessionVram, md.maxSessionGpus);
      eventQueue := [readyEvent];
      sessionConnection := None;
      trainingStarted := [];
      trainingStopped := [];
    }

    /**
     * initialize: the first event must be session-ready, else
     * ErrInvalidFirstEvent. Then the kernel is created (the attempts' results
     * are passed in), its connection stored, and the IOPub handler
     * registered (its error passed in).
     */
    method Initialize(attempts: seq<CreateAttempt>, registrationError: Option<string>) returns (r: InitOutcome)
      requires |eventQueue| > 0 && |attempts| >= BackoffSteps
      modifies this
      ensures eventQueue == old(eventQueue)[1..]
      ensures trainingStarted == old(trainingStarted) && trainingStopped == old(trainingStopped)
      ensures old(eventQueue)[0].name != SessionReady ==>
                r == InitFailed(ClientError(InvalidFirstEvent, "client received invalid first event"))
                && sessionConnection == old(sessionConnection)
      ensures (old(eventQueue)[0].name == SessionReady
               && InitialResourceRequest(schedulingPolicy, trainings, maximumResourceSpec).None?) ==>
                r == InitPanicked && sessionConnection == old(sessionConnection)
      ensures (old(eventQueue)[0].name == SessionReady
               && InitialResourceRequest(schedulingPolicy, trainings, maximumResourceSpec).Some?) ==>
                var o := RetryOutcome(attempts, BackoffSteps, None);
                && (o.connection.None? ==>
                      r == InitFailed(ClientError(OtherError, o.err.value)) && sessionConnection == old(sessionConnection))
                && (o.connection.Some? ==> sessionConnection == o.connection)
                && (o.connection.Some? && registrationError.Some? ==>
                      r == InitFailed(ClientError(OtherError, registrationError.value)))
                && (o.connection.Some? && registrationError.None? ==> r == Initialized)
    {
      var evt := eventQueue[0];
      eventQueue := eventQueue[1..];
      if evt.name != SessionReady {
        return InitFailed(ClientError(InvalidFirstEvent, "client received invalid first event"));
      }
      var spec := InitialResourceRequest(schedulingPolicy, trainings, maximumResourceSpec);
      if spec.None? {
        return InitPanicked;
      }
      var o := CreateSessionWithRetry(attempts);
      if o.err.Some? {
        return InitFailed(ClientError(OtherError, o.err.value));
      }
      sessionConnection := o.connection;
      if registrationError.Some? {
        return InitFailed(ClientError(OtherError, registrationError.value));
      }
      return Initialized;
    }

    /**
     * onReceiveExecuteReply: nothing without content or without a status.
     * An "error" status sends "ename: evalue" to the training-started
     * channel (a reply missing either field panics); any other status sends
     * the reply to the training-stopped channel.
     */
    method OnReceiveExecuteReply(content: Option<map<string, string>>) returns (panicked: bool)
      modifies this
      ensures eventQueue == old(eventQueue) && sessionConnection == old(sessionConnection)
      ensures (content.None? || "status" !in content.value) ==>
                !panicked && trainingStarted == old(trainingStarted) && trainingStopped == old(trainingStopped)
      ensures (content.Some? && "status" in content.value && content.value["status"] == "error") ==>
                trainingStopped == old(trainingStopped)
                && (panicked <==> "ename" !in content.value || "evalue" !in content.value)
                && (panicked ==> trainingStarted == old(trainingStarted))
                && (!panicked ==>
                      trainingStarted == old(trainingStarted)
                        + [StartedError(content.value["ename"] + ": " + content.value["evalue"])])
      ensures (content.Some? && "status" in content.value && content.value["status"] != "error") ==>
                !panicked && trainingStarted == old(trainingStarted)
                && trainingStopped == old(trainingStopped) + [content.value]
    {
      if content.None? || "status" !in content.value {
        return false;
      }
      var c := content.value;
      if c["status"] == "error" {
        if "ename" !in c || "evalue" !in c {
          return true;
        }
        trainingStarted := trainingStarted + [StartedError(c["ename"] + ": " + c["evalue"])];
        return false;
      }
      trainingStopped := trainingStopped + [c];
      return false;
    }
  }

  /** The builder's settings; a session-ready event must be given before Build. */
  class ClientBuilder {
    var sessionId: string
    var workloadId: string
    var schedulingPolicy: string
    var sessionReadyEvent: Option<Event>
    var trainings: seq<Option<TrainingResources>>

    constructor (sessionId: string, workloadId: string)
      ensures this.sessionId == sessionId && this.workloadId == workloadId
      ensures schedulingPolicy == "" && sessionReadyEvent.None? && trainings == []
    {
      this.sessionId := sessionId;
      this.workloadId := workloadId;
      schedulingPolicy := "";
      sessionReadyEvent := None;
      trainings := [];
    }

    method WithSessionReadyEvent(evt: Event)
      modifies this
      ensures sessionReadyEvent == Some(evt)
      ensures sessionId == old(sessionId) && workloadId == old(workloadId)
      ensures schedulingPolicy == old(schedulingPolicy) && trainings == old(trainings)
    {
      sessionReadyEvent := Some(evt);
    }

    method WithTrainings(ts: seq<Option<TrainingResources>>)
      modifies this
      ensures trainings == ts
      ensures sessionId == old(sessionId) && workloadId == old(workloadId)
      ensures schedulingPolicy == old(schedulingPolicy) && sessionReadyEvent == old(sessionReadyEvent)
    {
      trainings := ts;
    }

    /** WithSchedulingPolicy: the empty policy panics (true) and is not stored. */
    method WithSchedulingPolicy(policy: string) returns (panicked: bool)
      modifies this
      ensures panicked <==> policy == ""
      ensures schedulingPolicy == if panicked then old(schedulingPolicy) else policy
      ensures sessionId == old(sessionId) && workloadId == old(workloadId)
      ensures sessionReadyEvent == old(sessionReadyEvent) && trainings == old(trainings)
    {
      if policy == "" {
        return true;
      }
      schedulingPolicy := policy;
      return false;
    }

    /**
     * Build: the client's queue holds just the session-ready event, and its
     * maximum resource spec is the session maxima that event carries.
     */
    method Build() returns (c: Client)
      requires sessionReadyEvent.Some?
      ensures fresh(c) && c.eventQueue == [sessionReadyEvent.value]
      ensures c.sessionId == sessionId && c.workloadId == workloadId
      ensures c.schedulingPolicy == schedulingPolicy && c.trainings == trainings
      ensures c.maximumResourceSpec.cpus == sessionReadyEvent.value.data.maxSessionCpus
      ensures c.maximumResourceSpec.memoryMb == sessionReadyEvent.value.data.maxSessionMemory
      ensures c.maximumResourceSpec.gpus == sessionReadyEvent.value.data.maxSessionGpus
      ensures c.maximumResourceSpec.vram == sessionReadyEvent.value.data.maxSessionVram
      ensures c.sessionConnection.None? && c.trainingStarted == [] && c.trainingStopped == []
    {
      c := new Client(sessionId, workloadId, schedulingPolicy, sessionReadyEvent.value, trainings);
    }
  }

  /** A freshly built client always gets past the first-event check. */
  method BuiltClientStartsWithReadyEvent(evt: Event, attempts: seq<CreateAttempt>) returns (r: InitOutcome)
    requires evt.name == SessionReady && |attempts| >= BackoffSteps
    ensures r != InitFailed(ClientError(InvalidFirstEvent, "client received invalid first event"))
  {
    var b := new ClientBuilder("session", "workload");
    b.WithSessionReadyEvent(evt);
    var _ := b.WithSchedulingPolicy("static");
    var c := b.Build();
    r := c.Initialize(attempts, None);
  }
}
