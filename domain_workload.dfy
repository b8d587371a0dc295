/**
 * The driver back end's `BasicWorkload` and its builder
 * (driver-backend/internal/domain/workload.go).
 *
 * A workload moves through the lifecycle of `WorkloadLifecycle`, records the
 * events it processes in a log whose indices are positions, records how long
 * each tick took together with the running sum, takes its seed at most once,
 * counts sessions and trainings, and decides once per session whether that
 * session's events are sampled.
 */
module DomainWorkload {
  import opened Wrappers
  import opened WorkloadLifecycle
  import opened WorkloadEvents
  import GoTime

  const UnspecifiedWorkload: string := "UnspecifiedWorkloadType"

  /**
   * IsInProgress as written: it asks IsPausing twice and never IsPaused, so a
   * paused workload is reported as not in progress although the interface
   * promises that paused workloads are in progress.
   */
  predicate IsInProgressAsWritten(s: WorkloadState)
    ensures IsInProgressAsWritten(s) ==> IsInProgress(s)
  {
    s == Running || s == Pausing || s == Pausing
  }

  /** The written predicate is the intended one minus the Paused state. */
  lemma IsInProgressAsWrittenMissesPaused(s: WorkloadState)
    ensures IsInProgressAsWritten(s) <==> IsInProgress(s) && s != Paused
    ensures IsInProgress(Paused) && !IsInProgressAsWritten(Paused)
  {
  }

  /** Everything the model keeps of a workload, for stating a method's whole effect. */
  datatype WorkloadView = WorkloadView(
    state: WorkloadState, seed: int, seedSet: bool, workloadType: string,
    numTasksExecuted: int, numEventsProcessed: int, numSessionsCreated: int,
    numActiveSessions: int, numActiveTrainings: int, numSampledSessions: int,
    currentTick: int, eventsProcessed: seq<WorkloadEvent>,
    tickDurationsMillis: seq<int>, sumTickDurationsMillis: int,
    sampledSessions: set<string>, unsampledSessions: set<string>, errorMessage: string)

  datatype SeedOutcome = SeedSet | SeedPanicked

  class BasicWorkload {
    const id: string
    const name: string
    const debugLoggingEnabled: bool
    const timescaleAdjustmentFactor: real
    const sessionsSamplePercentage: real

    var state: WorkloadState
    var seed: int
    var seedSet: bool
    var workloadType: string
    var numTasksExecuted: int
    var numEventsProcessed: int
    var numSessionsCreated: int
    var numActiveSessions: int
    var numActiveTrainings: int
    var numSampledSessions: int
    var currentTick: int
    var eventsProcessed: seq<WorkloadEvent>
    var tickDurationsMillis: seq<int>
    var sumTickDurationsMillis: int
    var sampledSessions: set<string>
    var unsampledSessions: set<string>
    var errorMessage: string

    function View(): WorkloadView
      reads this
    {
      WorkloadView(state, seed, seedSet, workloadType, numTasksExecuted, numEventsProcessed,
                   numSessionsCreated, numActiveSessions, numActiveTrainings, numSampledSessions,
                   currentTick, eventsProcessed, tickDurationsMillis, sumTickDurationsMillis,
                   sampledSessions, unsampledSessions, errorMessage)
    }

    /**
     * The log is indexed by position and counted, the tick sum matches the
     * recorded ticks, and no session is both sampled and discarded.
     */
    ghost predicate Valid()
      reads this
    {
      IndexedLog(eventsProcessed) && numEventsProcessed == |eventsProcessed|
      && sumTickDurationsMillis == Sum(tickDurationsMillis)
      && sampledSessions !! unsampledSessions
    }

    /** WorkloadBuilder.Build: a Ready workload with empty log and counters. */
    constructor Build(id: string, name: string, seed: int, debugLoggingEnabled: bool,
                      timescaleAdjustmentFactor: real, sessionsSamplePercentage: real)
      ensures Valid()
      ensures this.id == id && this.name == name && this.debugLoggingEnabled == debugLoggingEnabled
      ensures this.timescaleAdjustmentFactor == timescaleAdjustmentFactor
      ensures this.sessionsSamplePercentage == sessionsSamplePercentage
      ensures View() == WorkloadView(Ready, seed, false, UnspecifiedWorkload, 0, 0, 0, 0, 0, 0, 0,
                                     [], [], 0, {}, {}, "")
    {
      this.id := id;
      this.name := name;
      this.debugLoggingEnabled := debugLoggingEnabled;
      this.timescaleAdjustmentFactor := timescaleAdjustmentFactor;
      this.sessionsSamplePercentage := sessionsSamplePercentage;
      state := Ready;
      this.seed := seed;
      seedSet := false;
      workloadType := UnspecifiedWorkload;
      numTasksExecuted := 0;
      numEventsProcessed := 0;
      numSessionsCreated := 0;
      numActiveSessions := 0;
      numActiveTrainings := 0;
      numSampledSessions := 0;
      currentTick := 0;
      eventsProcessed := [];
      tickDurationsMillis := [];
      sumTickDurationsMillis := 0;
      sampledSessions := {};
      unsampledSessions := {};
      errorMessage := "";
    }

    /** Only a Ready workload starts; from Pausing or Paused formatting the error panics. */
    method StartWorkload() returns (r: StartOutcome)
      modifies this
      ensures r == StartFrom(old(state))
      ensures View() == old(View()).(state := if r.Started? then Running else old(state))
    {
      r := StartFrom(state);
      if r.Started? {
        state := Running;
      }
    }

    method SetPausing() returns (err: Option<WorkloadError>)
      modifies this
      ensures err.None? <==> SetPausingFrom(old(state)).Ok?
      ensures err.Some? ==> err.value == ErrWorkloadNotPaused && View() == old(View())
      ensures err.None? ==> View() == old(View()).(state := Pausing)
    {
      var next := SetPausingFrom(state);
      if next.Err? {
        return Some(next.error);
      }
      state := next.value;
      return None;
    }

    method SetPaused() returns (err: Option<WorkloadError>)
      modifies this
      ensures err.None? <==> SetPausedFrom(old(state)).Ok?
      ensures err.Some? ==> err.value == ErrWorkloadNotPaused && View() == old(View())
      ensures err.None? ==> View() == old(View()).(state := Paused)
    {
      var next := SetPausedFrom(state);
      if next.Err? {
        return Some(next.error);
      }
      state := next.value;
      return None;
    }

    /** The pause-time bookkeeping, which reads the clock, is not modelled. */
    method Unpause() returns (err: Option<WorkloadError>)
      modifies this
      ensures err.None? <==> UnpauseFrom(old(state)).Ok?
      ensures err.Some? ==> err.value == ErrWorkloadNotPaused && View() == old(View())
      ensures err.None? ==> View() == old(View()).(state := Running)
    {
      var next := UnpauseFrom(state);
      if next.Err? {
        return Some(next.error);
      }
      state := next.value;
      return None;
    }

    method SetWorkloadCompleted()
      modifies this
      ensures View() == old(View()).(state := Finished)
    {
      state := Finished;
    }

    /** The stored message is reported only while the workload is in the Erred state. */
    function GetErrorMessage(): (r: (string, bool))
      reads this
      ensures r.1 <==> state == Erred
      ensures r.1 ==> r.0 == errorMessage
      ensures !r.1 ==> r.0 == ""
    {
      if state == Erred then (errorMessage, true) else ("", false)
    }

    method SetErrorMessage(message: string)
      modifies this
      ensures View() == old(View()).(errorMessage := message)
    {
      errorMessage := message;
    }

    /**
     * TerminateWorkloadPrematurely, with the in-progress test corrected to
     * include Paused: the workload becomes Terminated and one successful
     * "workload-terminated" event is logged at the next index. The event id
     * and the two timestamps are parameters.
     */
    method TerminateWorkloadPrematurely(eventId: string, simTimestamp: string, now: string)
      returns (err: Option<WorkloadError>)
      requires Valid()
      modifies this
      ensures Valid()
      ensures err.Some? <==> !IsInProgress(old(state))
      ensures err.Some? ==> err.value == ErrWorkloadNotRunning && View() == old(View())
      ensures err.None? ==> View() == old(View()).(
                state := Terminated,
                numEventsProcessed := old(numEventsProcessed) + 1,
                eventsProcessed := Record(old(eventsProcessed),
                                          TerminatedEvent(|old(eventsProcessed)|, eventId, simTimestamp, now)))
    {
      if !IsInProgress(state) {
        return Some(ErrWorkloadNotRunning);
      }
      var evt := TerminatedEvent(|eventsProcessed|, eventId, simTimestamp, now);
      state, numEventsProcessed, eventsProcessed := Terminated, numEventsProcessed + 1, Record(eventsProcessed, evt);
      return None;
    }

    /** A nil event changes nothing; otherwise it is stamped with the next index and logged. */
    method ProcessedEvent(evt: Option<WorkloadEvent>)
      requires Valid()
      modifies this
      ensures Valid()
      ensures evt.None? ==> View() == old(View())
      ensures evt.Some? ==> View() == old(View()).(
                numEventsProcessed := old(numEventsProcessed) + 1,
                eventsProcessed := Record(old(eventsProcessed), evt.value))
    {
      if evt.None? {
        return;
      }
      numEventsProcessed := numEventsProcessed + 1;
      eventsProcessed := Record(eventsProcessed, evt.value);
    }

    method TickCompleted(tick: int)
      modifies this
      ensures View() == old(View()).(currentTick := tick)
    {
      currentTick := tick;
    }

    /** The tick's length (nanoseconds) is recorded in whole milliseconds and added to the sum. */
    method AddFullTickDuration(timeElapsed: int)
      requires Valid()
      modifies this
      ensures Valid()
      ensures View() == old(View()).(
                tickDurationsMillis := old(tickDurationsMillis) + [GoTime.Milliseconds(timeElapsed)],
                sumTickDurationsMillis := old(sumTickDurationsMillis) + GoTime.Milliseconds(timeElapsed))
    {
      var ms := GoTime.Milliseconds(timeElapsed);
      SumAppend(tickDurationsMillis, ms);
      tickDurationsMillis := tickDurationsMillis + [ms];
      sumTickDurationsMillis := sumTickDurationsMillis + ms;
    }

    /** The seed can be set once; a second attempt panics. */
    method SetSeed(newSeed: int) returns (r: SeedOutcome)
      modifies this
      ensures r.SeedPanicked? <==> old(seedSet)
      ensures r.SeedPanicked? ==> View() == old(View())
      ensures r.SeedSet? ==> View() == old(View()).(seed := newSeed, seedSet := true)
    {
      if seedSet {
        return SeedPanicked;
      }
      seed := newSeed;
      seedSet := true;
      return SeedSet;
    }

    /** The per-session template bookkeeping done by the workload instance is not modelled. */
    method SessionCreated(sessionId: string)
      modifies this
      ensures View() == old(View()).(numActiveSessions := old(numActiveSessions) + 1,
                                     numSessionsCreated := old(numSessionsCreated) + 1)
    {
      numActiveSessions := numActiveSessions + 1;
      numSessionsCreated := numSessionsCreated + 1;
    }

    method SessionStopped(sessionId: string)
      modifies this
      ensures View() == old(View()).(numActiveSessions := old(numActiveSessions) - 1)
    {
      numActiveSessions := numActiveSessions - 1;
    }

    method TrainingStarted(sessionId: string)
      modifies this
      ensures View() == old(View()).(numActiveTrainings := old(numActiveTrainings) + 1)
    {
      numActiveTrainings := numActiveTrainings + 1;
    }

    method TrainingStopped(sessionId: string)
      modifies this
      ensures View() == old(View()).(numTasksExecuted := old(numTasksExecuted) + 1,
                                     numActiveTrainings := old(numActiveTrainings) - 1)
    {
      numTasksExecuted := numTasksExecuted + 1;
      numActiveTrainings := numActiveTrainings - 1;
    }

    method SetSessionSampled(sessionId: string)
      modifies this
      ensures View() == old(View()).(sampledSessions := old(sampledSessions) + {sessionId},
                                     numSampledSessions := old(numSampledSessions) + 1)
    {
      sampledSessions := sampledSessions + {sessionId};
      numSampledSessions := numSampledSessions + 1;
    }

    /** The call into the workload instance, whose error is only logged, is not modelled. */
    method SetSessionDiscarded(sessionId: string)
      modifies this
      ensures View() == old(View()).(unsampledSessions := old(unsampledSessions) + {sessionId})
    {
      unsampledSessions := unsampledSessions + {sessionId};
    }

    /**
     * IsSessionBeingSampled: an earlier decision stands; an undecided session
     * is sampled iff the random draw (a parameter) is at most the sample
     * percentage, and the decision is recorded.
     */
    method IsSessionBeingSampled(sessionId: string, randomValue: real) returns (sampled: bool)
      requires Valid()
      modifies this
      ensures Valid()
      ensures sessionId in old(unsampledSessions) ==> !sampled && View() == old(View())
      ensures sessionId in old(sampledSessions) ==> sampled && View() == old(View())
      ensures sessionId !in old(sampledSessions) + old(unsampledSessions) ==>
                sampled == (randomValue <= sessionsSamplePercentage)
      ensures sampled <==> sessionId in sampledSessions
      ensures !sampled <==> sessionId in unsampledSessions
      ensures old(sampledSessions) <= sampledSessions && old(unsampledSessions) <= unsampledSessions
    {
      if sessionId in unsampledSessions {
        return false;
      }
      if sessionId in sampledSessions {
        return true;
      }
      if randomValue <= sessionsSamplePercentage {
        SetSessionSampled(sessionId);
        return true;
      }
      SetSessionDiscarded(sessionId);
      return false;
    }
  }

  /** Once a session has been decided, later draws cannot change the answer. */
  method SamplingDecisionIsSticky(w: BasicWorkload, sessionId: string, firstDraw: real, laterDraw: real)
    returns (first: bool, later: bool)
    requires w.Valid()
    modifies w
    ensures first == later
  {
    first := w.IsSessionBeingSampled(sessionId, firstDraw);
    later := w.IsSessionBeingSampled(sessionId, laterDraw);
  }

  /** The builder's defaults: seed -1, debug logging on, everything sampled, real-time pace. */
  class WorkloadBuilder {
    var id: string
    var workloadName: string
    var seed: int
    var debugLoggingEnabled: bool
    var sessionsSamplePercentage: real
    var timescaleAdjustmentFactor: real

    constructor ()
      ensures id == "" && workloadName == "" && seed == -1 && debugLoggingEnabled
      ensures sessionsSamplePercentage == 1.0 && timescaleAdjustmentFactor == 1.0
    {
      id := "";
      workloadName := "";
      seed := -1;
      debugLoggingEnabled := true;
      sessionsSamplePercentage := 1.0;
      timescaleAdjustmentFactor := 1.0;
    }

    method SetId(newId: string)
      modifies this
      ensures id == newId && workloadName == old(workloadName) && seed == old(seed)
      ensures debugLoggingEnabled == old(debugLoggingEnabled)
      ensures sessionsSamplePercentage == old(sessionsSamplePercentage)
      ensures timescaleAdjustmentFactor == old(timescaleAdjustmentFactor)
    {
      id := newId;
    }

    method SetWorkloadName(newName: string)
      modifies this
      ensures workloadName == newName && id == old(id) && seed == old(seed)
      ensures debugLoggingEnabled == old(debugLoggingEnabled)
      ensures sessionsSamplePercentage == old(sessionsSamplePercentage)
      ensures timescaleAdjustmentFactor == old(timescaleAdjustmentFactor)
    {
      workloadName := newName;
    }

    method EnableDebugLogging(enabled: bool)
      modifies this
      ensures debugLoggingEnabled == enabled && id == old(id) && workloadName == old(workloadName)
      ensures seed == old(seed) && sessionsSamplePercentage == old(sessionsSamplePercentage)
      ensures timescaleAdjustmentFactor == old(timescaleAdjustmentFactor)
    {
      debugLoggingEnabled := enabled;
    }

    method SetTimescaleAdjustmentFactor(factor: real)
      modifies this
      ensures timescaleAdjustmentFactor == factor && id == old(id) && workloadName == old(workloadName)
      ensures seed == old(seed) && debugLoggingEnabled == old(debugLoggingEnabled)
      ensures sessionsSamplePercentage == old(sessionsSamplePercentage)
    {
      timescaleAdjustmentFactor := factor;
    }

    method SetSeed(newSeed: int)
      modifies this
      ensures seed == newSeed && id == old(id) && workloadName == old(workloadName)
      ensures debugLoggingEnabled == old(debugLoggingEnabled)
      ensures sessionsSamplePercentage == old(sessionsSamplePercentage)
      ensures timescaleAdjustmentFactor == old(timescaleAdjustmentFactor)
    {
      seed := newSeed;
    }

    method SetSessionsSamplePercentage(percentage: real)
      modifies this
      ensures sessionsSamplePercentage == percentage && id == old(id) && seed == old(seed)
      ensures workloadName == old(workloadName) && debugLoggingEnabled == old(debugLoggingEnabled)
      ensures timescaleAdjustmentFactor == old(timescaleAdjustmentFactor)
    {
      sessionsSamplePercentage := percentage;
    }

    /** Build copies the builder's settings into a fresh, Ready workload whose seed is not yet marked as set. */
    method Build() returns (w: BasicWorkload)
      ensures fresh(w) && w.Valid()
      ensures w.id == id && w.name == workloadName && w.debugLoggingEnabled == debugLoggingEnabled
      ensures w.View() == WorkloadView(Ready, seed, false, UnspecifiedWorkload, 0, 0, 0, 0, 0, 0, 0,
                                       [], [], 0, {}, {}, "")
      ensures w.sessionsSamplePercentage == sessionsSamplePercentage
      ensures w.timescaleAdjustmentFactor == timescaleAdjustmentFactor
    {
      w := new BasicWorkload.Build(id, workloadName, seed, debugLoggingEnabled,
                                   timescaleAdjustmentFactor, sessionsSamplePercentage);
    }
  }

  /** A workload built with the default seed still accepts exactly one SetSeed. */
  method DefaultBuildTakesOneSeed(newSeed: int) returns (first: SeedOutcome, second: SeedOutcome)
    ensures first == SeedSet && second == SeedPanicked
  {
    var b := new WorkloadBuilder();
    var w := b.Build();
    first := w.SetSeed(newSeed);
    second := w.SetSeed(newSeed);
  }
}
