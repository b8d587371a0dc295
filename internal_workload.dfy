/**
 * The earlier workload implementation `workloadImpl`
 * (internal/domain/workload.go, lines 17-36 and 318-807).
 *
 * This version has five states and no pause support: only a Ready workload
 * starts, only a Running one can be terminated, processed events are logged
 * by position, the seed is taken at most once, and the workload's sessions
 * are installed and indexed by id.
 */
module InternalWorkload {
  import opened Wrappers
  import opened WorkloadEvents

  datatype WorkloadState = WorkloadReady | WorkloadRunning | WorkloadFinished | WorkloadErred | WorkloadTerminated

  datatype WorkloadError = ErrWorkloadNotRunning | ErrInvalidState(stateName: string) | ErrWorkloadNotFound

  const UnspecifiedWorkload: string := "UnspecifiedWorkloadType"

  /** GetWorkloadStateAsString: total on this version's five states. */
  function GetWorkloadStateAsString(s: WorkloadState): (r: string)
    ensures |r| > 8 && r[..8] == "Workload"
  {
    match s
    case WorkloadReady => "WorkloadReady"
    case WorkloadRunning => "WorkloadRunning"
    case WorkloadFinished => "WorkloadFinished"
    case WorkloadErred => "WorkloadErred"
    case WorkloadTerminated => "WorkloadTerminated"
  }

  lemma StateNamesDistinct(s: WorkloadState, t: WorkloadState)
    ensures GetWorkloadStateAsString(s) == GetWorkloadStateAsString(t) <==> s == t
  {
  }

  /** The session states are declared outside this file; only AwaitingStart is used here. */
  datatype SessionState = SessionAwaitingStart | OtherSessionState(name: string)

  datatype WorkloadSession = WorkloadSession(id: string, state: SessionState)

  /** The id index built from a list of sessions: a later session with the same id replaces an earlier one. */
  function IndexSessions(m: map<string, WorkloadSession>, ss: seq<WorkloadSession>): map<string, WorkloadSession>
  {
    if ss == [] then m else IndexSessions(m, ss[..|ss| - 1])[ss[|ss| - 1].id := ss[|ss| - 1]]
  }

  /** Every session put in awaiting-start state. */
  function AwaitingStart(ss: seq<WorkloadSession>): (r: seq<WorkloadSession>)
    ensures |r| == |ss|
    ensures forall i :: 0 <= i < |ss| ==> r[i] == ss[i].(state := SessionAwaitingStart)
  {
    if ss == [] then [] else AwaitingStart(ss[..|ss| - 1]) + [ss[|ss| - 1].(state := SessionAwaitingStart)]
  }

  /** The index holds exactly the earlier keys and the listed ids. */
  lemma {:induction false} IndexSessionsKeys(m: map<string, WorkloadSession>, ss: seq<WorkloadSession>, id: string)
    ensures id in IndexSessions(m, ss) <==> id in m || exists i :: 0 <= i < |ss| && ss[i].id == id
    decreases |ss|
  {
    if ss != [] {
      var init := ss[..|ss| - 1];
      IndexSessionsKeys(m, init, id);
      if exists i :: 0 <= i < |init| && init[i].id == id {
        var i :| 0 <= i < |init| && init[i].id == id;
        assert ss[i].id == id;
      }
      if exists i :: 0 <= i < |ss| && ss[i].id == id {
        var i :| 0 <= i < |ss| && ss[i].id == id;
        if i < |init| {
          assert init[i].id == id;
        }
      }
    }
  }

  /** A listed session that no later session shares its id with is the one the index holds. */
  lemma {:induction false} IndexSessionsLast(m: map<string, WorkloadSession>, ss: seq<WorkloadSession>, i: int)
    requires 0 <= i < |ss|
    requires forall j :: i < j < |ss| ==> ss[j].id != ss[i].id
    ensures ss[i].id in IndexSessions(m, ss) && IndexSessions(m, ss)[ss[i].id] == ss[i]
    decreases |ss|
  {
    if i < |ss| - 1 {
      var init := ss[..|ss| - 1];
      assert init[i] == ss[i];
      forall j | i < j < |init|
        ensures init[j].id != init[i].id
      {
        assert init[j] == ss[j];
      }
      IndexSessionsLast(m, init, i);
      assert ss[|ss| - 1].id != ss[i].id;
    }
  }

  /** A key no listed session has keeps its earlier entry. */
  lemma {:induction false} IndexSessionsUntouched(m: map<string, WorkloadSession>, ss: seq<WorkloadSession>, id: string)
    requires id in m
    requires forall i :: 0 <= i < |ss| ==> ss[i].id != id
    ensures id in IndexSessions(m, ss) && IndexSessions(m, ss)[id] == m[id]
    decreases |ss|
  {
    if ss != [] {
      var init := ss[..|ss| - 1];
      forall i | 0 <= i < |init|
        ensures init[i].id != id
      {
        assert init[i] == ss[i];
      }
      IndexSessionsUntouched(m, init, id);
      assert ss[|ss| - 1].id != id;
    }
  }

  /** Marking and indexing one more session extends the index by that session. */
  lemma IndexAwaitingStep(m: map<string, WorkloadSession>, ss: seq<WorkloadSession>, i: int)
    requires 0 <= i < |ss|
    ensures IndexSessions(m, AwaitingStart(ss[..i + 1]))
         == IndexSessions(m, AwaitingStart(ss[..i]))[ss[i].id := ss[i].(state := SessionAwaitingStart)]
  {
    var a := AwaitingStart(ss[..i + 1]);
    assert ss[..i + 1][..i] == ss[..i];
    assert a == AwaitingStart(ss[..i]) + [ss[i].(state := SessionAwaitingStart)];
    assert a[..|a| - 1] == AwaitingStart(ss[..i]);
  }

  /** Marking session i in place turns the first i marked sessions into the first i + 1. */
  lemma MarkAwaitingStep(ss: seq<WorkloadSession>, i: int)
    requires 0 <= i < |ss|
    ensures (AwaitingStart(ss[..i]) + ss[i..])[i := ss[i].(state := SessionAwaitingStart)]
         == AwaitingStart(ss[..i + 1]) + ss[i + 1..]
  {
  }

  /** The loop of SetSessions: mark each session awaiting start and index it by id, in order. */
  method MarkAndIndex(ss: seq<WorkloadSession>, m: map<string, WorkloadSession>)
    returns (marked: seq<WorkloadSession>, index: map<string, WorkloadSession>)
    ensures marked == AwaitingStart(ss)
    ensures index == IndexSessions(m, AwaitingStart(ss))
  {
    marked := ss;
    index := m;
    var i := 0;
    while i < |ss|
      invariant 0 <= i <= |ss|
      invariant marked == AwaitingStart(ss[..i]) + ss[i..]
      invariant index == IndexSessions(m, AwaitingStart(ss[..i]))
    {
      var session := ss[i].(state := SessionAwaitingStart);
      IndexAwaitingStep(m, ss, i);
      MarkAwaitingStep(ss, i);
      marked := marked[i := session];
      index := index[session.id := session];
      i := i + 1;
    }
    assert ss[..|ss|] == ss;
    assert marked == AwaitingStart(ss) + [];
  }

  datatype WorkloadView = WorkloadView(
    state: WorkloadState, seed: int, seedSet: bool, workloadType: string, currentTick: int,
    errorMessage: string, eventsProcessed: seq<WorkloadEvent>, sessions: seq<WorkloadSession>,
    sessionsMap: map<string, WorkloadSession>, sessionsSet: bool,
    numTasksExecuted: int, numEventsProcessed: int, numSessionsCreated: int,
    numActiveSessions: int, numActiveTrainings: int)

  datatype SeedOutcome = SeedSet | SeedPanicked

  class WorkloadImpl {
    const id: string
    const name: string
    const debugLoggingEnabled: bool
    const timescaleAdjustmentFactor: real

    var state: WorkloadState
    var seed: int
    var seedSet: bool
    var workloadType: string
    var currentTick: int
    var errorMessage: string
    var eventsProcessed: seq<WorkloadEvent>
    var sessions: seq<WorkloadSession>
    var sessionsMap: map<string, WorkloadSession>
    var sessionsSet: bool
    var numTasksExecuted: int
    var numEventsProcessed: int
    var numSessionsCreated: int
    var numActiveSessions: int
    var numActiveTrainings: int

    function View(): WorkloadView
      reads this
    {
      WorkloadView(state, seed, seedSet, workloadType, currentTick, errorMessage, eventsProcessed,
                   sessions, sessionsMap, sessionsSet, numTasksExecuted, numEventsProcessed,
                   numSessionsCreated, numActiveSessions, numActiveTrainings)
    }

    ghost predicate Valid()
      reads this
    {
      IndexedLog(eventsProcessed) && numEventsProcessed == |eventsProcessed|
    }

    /** NewWorkload: Ready, no events, no sessions, all counters and the tick at 0. */
    constructor NewWorkload(id: string, workloadName: string, seed: int, debugLoggingEnabled: bool,
                            timescaleAdjustmentFactor: real)
      ensures Valid()
      ensures this.id == id && this.name == workloadName && this.debugLoggingEnabled == debugLoggingEnabled
      ensures this.timescaleAdjustmentFactor == timescaleAdjustmentFactor
      ensures View() == WorkloadView(WorkloadReady, seed, false, UnspecifiedWorkload, 0, "", [], [], map[], false,
                                     0, 0, 0, 0, 0)
    {
      this.id := id;
      name := workloadName;
      this.debugLoggingEnabled := debugLoggingEnabled;
      this.timescaleAdjustmentFactor := timescaleAdjustmentFactor;
      state := WorkloadReady;
      this.seed := seed;
      seedSet := false;
      workloadType := UnspecifiedWorkload;
      currentTick := 0;
      errorMessage := "";
      eventsProcessed := [];
      sessions := [];
      sessionsMap := map[];
      sessionsSet := false;
      numTasksExecuted := 0;
      numEventsProcessed := 0;
      numSessionsCreated := 0;
      numActiveSessions := 0;
      numActiveTrainings := 0;
    }

    method TickCompleted(tick: int)
      modifies this
      ensures View() == old(View()).(currentTick := tick)
    {
      currentTick := tick;
    }

    /**
     * SetSessions as written: the sessions are installed, each marked
     * awaiting start and indexed by id, and the flag is set, but the flag is
     * never consulted, so a second call is accepted.
     */
    method SetSessionsAsWritten(newSessions: seq<WorkloadSession>)
      modifies this
      ensures sessions == AwaitingStart(newSessions)
      ensures sessionsMap == IndexSessions(old(sessionsMap), AwaitingStart(newSessions))
      ensures View() == old(View()).(sessions := sessions, sessionsMap := sessionsMap, sessionsSet := true)
    {
      var marked, index := MarkAndIndex(newSessions, sessionsMap);
      sessions := marked;
      sessionsSet := true;
      sessionsMap := index;
    }

    /**
     * SetSessions as its interface documents it: a second call panics and
     * changes nothing; the first behaves as written.
     */
    method SetSessions(newSessions: seq<WorkloadSession>) returns (panicked: bool)
      modifies this
      ensures panicked <==> old(sessionsSet)
      ensures panicked ==> View() == old(View())
      ensures !panicked ==> sessions == AwaitingStart(newSessions)
      ensures !panicked ==> sessionsMap == IndexSessions(old(sessionsMap), AwaitingStart(newSessions))
      ensures !panicked ==> View() == old(View()).(sessions := sessions, sessionsMap := sessionsMap, sessionsSet := true)
    {
      if sessionsSet {
        return true;
      }
      SetSessionsAsWritten(newSessions);
      return false;
    }

    /** Only a Ready workload starts; otherwise the error names the current state. */
    method StartWorkload() returns (err: Option<WorkloadError>)
      modifies this
      ensures err.None? <==> old(state) == WorkloadReady
      ensures err.Some? ==> err.value == ErrInvalidState(GetWorkloadStateAsString(old(state))) && View() == old(View())
      ensures err.None? ==> View() == old(View()).(state := WorkloadRunning)
    {
      if state != WorkloadReady {
        return Some(ErrInvalidState(GetWorkloadStateAsString(state)));
      }
      state := WorkloadRunning;
      return None;
    }

    method SetWorkloadCompleted()
      modifies this
      ensures View() == old(View()).(state := WorkloadFinished)
    {
      state := WorkloadFinished;
    }

    function IsFinished(): (r: bool)
      reads this
      ensures r <==> state == WorkloadErred || state == WorkloadFinished
    {
      state == WorkloadErred || state == WorkloadFinished
    }

    /** The stored message is reported only while the workload is in the Erred state. */
    function GetErrorMessage(): (r: (string, bool))
      reads this
      ensures r.1 <==> state == WorkloadErred
      ensures r.1 ==> r.0 == errorMessage
      ensures !r.1 ==> r.0 == ""
    {
      if state == WorkloadErred then (errorMessage, true) else ("", false)
    }

    /**
     * TerminateWorkloadPrematurely: only a running workload is terminated; it
     * logs one successful "workload-terminated" event at the next index.
     */
    method TerminateWorkloadPrematurely(eventId: string, simTimestamp: string, now: string)
      returns (err: Option<WorkloadError>)
      requires Valid()
      modifies this
      ensures Valid()
      ensures err.Some? <==> old(state) != WorkloadRunning
      ensures err.Some? ==> err.value == ErrWorkloadNotRunning && View() == old(View())
      ensures err.None? ==> View() == old(View()).(
                state := WorkloadTerminated,
                numEventsProcessed := old(numEventsProcessed) + 1,
                eventsProcessed := Record(old(eventsProcessed),
                                          TerminatedEvent(|old(eventsProcessed)|, eventId, simTimestamp, now)))
    {
      if state != WorkloadRunning {
        return Some(ErrWorkloadNotRunning);
      }
      state := WorkloadTerminated;
      numEventsProcessed := numEventsProcessed + 1;
      eventsProcessed := Record(eventsProcessed, TerminatedEvent(|eventsProcessed|, eventId, simTimestamp, now));
      return None;
    }

    /** The event is stamped with the next index and logged. */
    method ProcessedEvent(evt: WorkloadEvent)
      requires Valid()
      modifies this
      ensures Valid()
      ensures View() == old(View()).(numEventsProcessed := old(numEventsProcessed) + 1,
                                     eventsProcessed := Record(old(eventsProcessed), evt))
    {
      numEventsProcessed := numEventsProcessed + 1;
      eventsProcessed := Record(eventsProcessed, evt);
    }

    /** The seed can be set once; a second attempt panics. */
    method SetSeed(newSeed: int) returns (r: SeedOutcome)
      modifies this
      ensures r.SeedPanicked? <==> old(seedSet)
      ensures r.SeedPanicked? ==> View() == old(View())
      ensures r.SeedSet? ==> View() == old(View()).(seed := newSeed, seedSet := true)
    {
      if seedSet {
        return SeedPanicked;
      }
      seed := newSeed;
      seedSet := true;
      return SeedSet;
    }

    /** The call forwarded to the wrapping workload is not modelled. */
    method SessionCreated(sessionId: string)
      modifies this
      ensures View() == old(View()).(numActiveSessions := old(numActiveSessions) + 1,
                                     numSessionsCreated := old(numSessionsCreated) + 1)
    {
      numActiveSessions := numActiveSessions + 1;
      numSessionsCreated := numSessionsCreated + 1;
    }

    method SessionStopped(sessionId: string)
      modifies this
      ensures View() == old(View()).(numActiveSessions := old(numActiveSessions) - 1)
    {
      numActiveSessions := numActiveSessions - 1;
    }
  }

  /** Installing sessions twice goes through as written, while the documented contract panics. */
  method SecondSetSessionsAsWritten(first: seq<WorkloadSession>, second: seq<WorkloadSession>)
    returns (asWrittenSessions: seq<WorkloadSession>, correctedPanicked: bool)
    ensures asWrittenSessions == AwaitingStart(second)
    ensures correctedPanicked
  {
    var w := new WorkloadImpl.NewWorkload("w", "w", 0, false, 1.0);
    w.SetSessionsAsWritten(first);
    w.SetSessionsAsWritten(second);
    asWrittenSessions := w.sessions;
    var v := new WorkloadImpl.NewWorkload("w", "w", 0, false, 1.0);
    var firstPanicked := v.SetSessions(first);
    correctedPanicked := v.SetSessions(second);
  }
}
