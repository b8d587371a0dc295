/**
 * Workload events and the processed-event log (internal/domain/workload.go,
 * lines 197-307): the event record, its two construction routes (the
 * all-arguments constructor and the empty event refined by `With*` setters),
 * and the append rule every workload version uses for its log, which stamps
 * each event with its position.
 */
module WorkloadEvents {
  import opened Wrappers

  const TerminatedEventName: string := "workload-terminated"

  /** Timestamps are kept as the strings the source stores. */
  datatype WorkloadEvent = WorkloadEvent(
    index: int, id: string, name: string, session: string,
    timestamp: string, processedAt: string, simProcessedAt: string,
    processedSuccessfully: bool, errorMessage: string)

  function NewEmptyWorkloadEvent(): (e: WorkloadEvent)
    ensures e.index == 0 && e.id == "" && e.name == "" && e.session == ""
    ensures !e.processedSuccessfully && e.errorMessage == ""
  {
    WorkloadEvent(0, "", "", "", "", "", "", false, "")
  }

  /**
   * NewWorkloadEvent copies its arguments; the error message is the error's
   * text when there is an error and stays empty otherwise.
   */
  function NewWorkloadEvent(idx: int, id: string, name: string, session: string, timestamp: string,
                            processedAt: string, simProcessedAt: string, processedSuccessfully: bool,
                            err: Option<string>): (e: WorkloadEvent)
    ensures e.index == idx && e.id == id && e.name == name && e.session == session
    ensures e.timestamp == timestamp && e.processedAt == processedAt && e.simProcessedAt == simProcessedAt
    ensures e.processedSuccessfully == processedSuccessfully
    ensures e.errorMessage == (if err.Some? then err.value else "")
  {
    var e := WorkloadEvent(idx, id, name, session, timestamp, processedAt, simProcessedAt, processedSuccessfully, "");
    if err.Some? then e.(errorMessage := err.value) else e
  }

  // Each setter changes exactly one field: putting the old value back gives the original event.

  function WithIndex(e: WorkloadEvent, i: int): (r: WorkloadEvent)
    ensures r.index == i && r.(index := e.index) == e
  {
    e.(index := i)
  }

  function WithEventId(e: WorkloadEvent, id: string): (r: WorkloadEvent)
    ensures r.id == id && r.(id := e.id) == e
  {
    e.(id := id)
  }

  function WithSessionId(e: WorkloadEvent, session: string): (r: WorkloadEvent)
    ensures r.session == session && r.(session := e.session) == e
  {
    e.(session := session)
  }

  /** WithEventName and WithEventNameString both store the name's string. */
  function WithEventName(e: WorkloadEvent, name: string): (r: WorkloadEvent)
    ensures r.name == name && r.(name := e.name) == e
  {
    e.(name := name)
  }

  function WithEventTimestamp(e: WorkloadEvent, timestamp: string): (r: WorkloadEvent)
    ensures r.timestamp == timestamp && r.(timestamp := e.timestamp) == e
  {
    e.(timestamp := timestamp)
  }

  function WithProcessedAtTime(e: WorkloadEvent, processedAt: string): (r: WorkloadEvent)
    ensures r.processedAt == processedAt && r.(processedAt := e.processedAt) == e
  {
    e.(processedAt := processedAt)
  }

  function WithSimProcessedAtTime(e: WorkloadEvent, simProcessedAt: string): (r: WorkloadEvent)
    ensures r.simProcessedAt == simProcessedAt && r.(simProcessedAt := e.simProcessedAt) == e
  {
    e.(simProcessedAt := simProcessedAt)
  }

  function WithProcessedStatus(e: WorkloadEvent, success: bool): (r: WorkloadEvent)
    ensures r.processedSuccessfully == success && r.(processedSuccessfully := e.processedSuccessfully) == e
  {
    e.(processedSuccessfully := success)
  }

  /** WithError stores the error's text, and leaves the message alone for a nil error. */
  function WithError(e: WorkloadEvent, err: Option<string>): (r: WorkloadEvent)
    ensures err.None? ==> r == e
    ensures err.Some? ==> r.errorMessage == err.value && r.(errorMessage := e.errorMessage) == e
  {
    if err.Some? then e.(errorMessage := err.value) else e
  }

  function WithErrorMessage(e: WorkloadEvent, message: string): (r: WorkloadEvent)
    ensures r.errorMessage == message && r.(errorMessage := e.errorMessage) == e
  {
    e.(errorMessage := message)
  }

  /** The constructor and the empty event refined by every setter build the same record. */
  lemma ConstructorMatchesSetterChain(idx: int, id: string, name: string, session: string, timestamp: string,
                                      processedAt: string, simProcessedAt: string, ok: bool, err: Option<string>)
    ensures NewWorkloadEvent(idx, id, name, session, timestamp, processedAt, simProcessedAt, ok, err)
         == WithError(WithProcessedStatus(WithSimProcessedAtTime(WithProcessedAtTime(WithEventTimestamp(
              WithSessionId(WithEventName(WithEventId(WithIndex(NewEmptyWorkloadEvent(), idx), id), name),
              session), timestamp), processedAt), simProcessedAt), ok), err)
  {
  }

  /** The event TerminateWorkloadPrematurely records: successful, for no particular session. */
  function TerminatedEvent(index: int, eventId: string, simTimestamp: string, processedAt: string): (e: WorkloadEvent)
    ensures e.index == index && e.id == eventId && e.name == TerminatedEventName
    ensures e.session == "N/A" && e.processedSuccessfully && e.errorMessage == ""
  {
    WithProcessedStatus(WithSimProcessedAtTime(WithProcessedAtTime(WithEventTimestamp(WithSessionId(
      WithEventName(WithEventId(WithIndex(NewEmptyWorkloadEvent(), index), eventId), TerminatedEventName),
      "N/A"), simTimestamp), processedAt), simTimestamp), true)
  }

  /** Every event's index is its position in the log. */
  predicate IndexedLog(log: seq<WorkloadEvent>)
  {
    forall i :: 0 <= i < |log| ==> log[i].index == i
  }

  /**
   * How ProcessedEvent records an event: its index is overwritten with the
   * current length of the log and it goes at the end.
   */
  function Record(log: seq<WorkloadEvent>, e: WorkloadEvent): (r: seq<WorkloadEvent>)
    ensures |r| == |log| + 1 && r[..|log|] == log
    ensures r[|log|] == e.(index := |log|)
    ensures IndexedLog(log) ==> IndexedLog(r)
  {
    log + [e.(index := |log|)]
  }

  /** Recording events one after another numbers them 0, 1, 2, ... whatever indices they arrived with. */
  lemma {:induction false} RecordAllIndexed(log: seq<WorkloadEvent>, es: seq<WorkloadEvent>)
    requires IndexedLog(log)
    ensures IndexedLog(RecordAll(log, es)) && |RecordAll(log, es)| == |log| + |es|
    decreases |es|
  {
    if es != [] {
      RecordAllIndexed(Record(log, es[0]), es[1..]);
    }
  }

  function RecordAll(log: seq<WorkloadEvent>, es: seq<WorkloadEvent>): seq<WorkloadEvent>
    decreases |es|
  {
    if es == [] then log else RecordAll(Record(log, es[0]), es[1..])
  }

  /** The sum of a list of integers, peeled from the end as the list grows. */
  function Sum(xs: seq<int>): int
  {
    if xs == [] then 0 else Sum(xs[..|xs| - 1]) + xs[|xs| - 1]
  }

  lemma SumAppend(xs: seq<int>, x: int)
    ensures Sum(xs + [x]) == Sum(xs) + x
  {
    assert (xs + [x])[..|xs|] == xs;
  }
}
