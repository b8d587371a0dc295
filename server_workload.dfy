/**
 * The server's `BasicWorkload` (driver-backend/internal/server/workload/workload.go).
 *
 * It keeps its state and counters in a `Statistics` record, logs processed
 * events by position, counts sessions and trainings (with the tick at which
 * each session's current training started), accumulates session delays, and
 * decides once per session whether to sample it.
 *
 * The workload's mutex is modelled by `mutexHeld`, because one path of the
 * sampling decision takes the lock a second time (see
 * `IsSessionBeingSampledAsWritten`).
 */
module ServerWorkload {
  import opened Wrappers
  import opened WorkloadLifecycle
  import opened WorkloadEvents
  import opened WorkloadStatistics
  import GoTime

  datatype WorkloadView = WorkloadView(
    statistics: Statistics, seed: int, seedSet: bool, errorMessage: string,
    sampledSessions: set<string>, unsampledSessions: set<string>,
    trainingStartedTimesTicks: map<string, int>, mutexHeld: bool)

  datatype SeedOutcome = SeedSet | SeedPanicked

  /** A sampling decision, or a goroutine blocked forever on the workload's own lock. */
  datatype SampleOutcome = Decided(sampled: bool) | SelfDeadlock

  class BasicWorkload {
    const id: string
    const name: string

    var statistics: Statistics
    var seed: int
    var seedSet: bool
    var errorMessage: string
    var sampledSessions: set<string>
    var unsampledSessions: set<string>
    var trainingStartedTimesTicks: map<string, int>
    /** Whether w.mu is locked. */
    var mutexHeld: bool

    function View(): WorkloadView
      reads this
    {
      WorkloadView(statistics, seed, seedSet, errorMessage, sampledSessions, unsampledSessions,
                   trainingStartedTimesTicks, mutexHeld)
    }

    /** Between calls the lock is free, the log is consistent, and no session is both sampled and discarded. */
    ghost predicate Valid()
      reads this
    {
      ConsistentLog(statistics) && sampledSessions !! unsampledSessions && !mutexHeld
    }

    /**
     * A workload over fresh statistics. The server's own constructor is not
     * part of this model; it is assumed to start from NewStatistics.
     */
    constructor (id: string, name: string, seed: int, sessionsSamplePercentage: real)
      ensures Valid()
      ensures this.id == id && this.name == name
      ensures View() == WorkloadView(NewStatistics(sessionsSamplePercentage), seed, false, "", {}, {}, map[], false)
    {
      this.id := id;
      this.name := name;
      statistics := NewStatistics(sessionsSamplePercentage);
      this.seed := seed;
      seedSet := false;
      errorMessage := "";
      sampledSessions := {};
      unsampledSessions := {};
      trainingStartedTimesTicks := map[];
      mutexHeld := false;
    }

    /** Only a Ready workload starts; from Pausing or Paused formatting the error panics. */
    method StartWorkload() returns (r: StartOutcome)
      modifies this
      ensures r == StartFrom(old(statistics.workloadState))
      ensures r.Started? ==> View() == old(View()).(statistics := old(statistics).(workloadState := Running))
      ensures !r.Started? ==> View() == old(View())
    {
      r := StartFrom(statistics.workloadState);
      if r.Started? {
        statistics := statistics.(workloadState := Running);
      }
    }

    method SetPausing() returns (err: Option<WorkloadError>)
      modifies this
      ensures err.None? <==> SetPausingFrom(old(statistics.workloadState)).Ok?
      ensures err.Some? ==> err.value == ErrWorkloadNotPaused && View() == old(View())
      ensures err.None? ==> View() == old(View()).(statistics := old(statistics).(workloadState := Pausing))
    {
      var next := SetPausingFrom(statistics.workloadState);
      if next.Err? {
        return Some(next.error);
      }
      statistics := statistics.(workloadState := next.value);
      return None;
    }

    method SetPaused() returns (err: Option<WorkloadError>)
      modifies this
      ensures err.None? <==> SetPausedFrom(old(statistics.workloadState)).Ok?
      ensures err.Some? ==> err.value == ErrWorkloadNotPaused && View() == old(View())
      ensures err.None? ==> View() == old(View()).(statistics := old(statistics).(workloadState := Paused))
    {
      var next := SetPausedFrom(statistics.workloadState);
      if next.Err? {
        return Some(next.error);
      }
      statistics := statistics.(workloadState := next.value);
      return None;
    }

    /** The pause-time bookkeeping, which reads the clock, is not modelled. */
    method Unpause() returns (err: Option<WorkloadError>)
      modifies this
      ensures err.None? <==> UnpauseFrom(old(statistics.workloadState)).Ok?
      ensures err.Some? ==> err.value == ErrWorkloadNotPaused && View() == old(View())
      ensures err.None? ==> View() == old(View()).(statistics := old(statistics).(workloadState := Running))
    {
      var next := UnpauseFrom(statistics.workloadState);
      if next.Err? {
        return Some(next.error);
      }
      statistics := statistics.(workloadState := next.value);
      return None;
    }

    method SetWorkloadCompleted()
      modifies this
      ensures View() == old(View()).(statistics := old(statistics).(workloadState := Finished))
    {
      statistics := statistics.(workloadState := Finished);
    }

    /** The stored message is reported only while the workload is in the Erred state. */
    function GetErrorMessage(): (r: (string, bool))
      reads this
      ensures r.1 <==> statistics.workloadState == Erred
      ensures r.1 ==> r.0 == errorMessage
      ensures !r.1 ==> r.0 == ""
    {
      if statistics.workloadState == Erred then (errorMessage, true) else ("", false)
    }

    /** An end time is reported exactly for finished workloads. */
    function HasEndTime(): (r: bool)
      reads this
      ensures r <==> IsFinished(statistics.workloadState)
    {
      statistics.workloadState == Erred || statistics.workloadState == Finished
    }

    /**
     * TerminateWorkloadPrematurely: an in-progress workload (running, pausing
     * or paused) becomes Terminated and logs one successful
     * "workload-terminated" event at the next index. The event id and the two
     * timestamps are parameters.
     */
    method TerminateWorkloadPrematurely(eventId: string, simTimestamp: string, now: string)
      returns (err: Option<WorkloadError>)
      requires Valid()
      modifies this
      ensures Valid()
      ensures err.Some? <==> !IsInProgress(old(statistics.workloadState))
      ensures err.Some? ==> err.value == ErrWorkloadNotRunning && View() == old(View())
      ensures err.None? ==> View() == old(View()).(statistics := old(statistics).(
                workloadState := Terminated,
                numEventsProcessed := old(statistics.numEventsProcessed) + 1,
                eventsProcessed := Record(old(statistics.eventsProcessed),
                                          TerminatedEvent(|old(statistics.eventsProcessed)|, eventId, simTimestamp, now))))
    {
      if !IsInProgress(statistics.workloadState) {
        return Some(ErrWorkloadNotRunning);
      }
      var evt := TerminatedEvent(|statistics.eventsProcessed|, eventId, simTimestamp, now);
      statistics := statistics.(workloadState := Terminated,
                                numEventsProcessed := statistics.numEventsProcessed + 1,
                                eventsProcessed := Record(statistics.eventsProcessed, evt));
      return None;
    }

    /** A nil event changes nothing; otherwise it is stamped with the next index and logged. */
    method ProcessedEvent(evt: Option<WorkloadEvent>)
      requires Valid()
      modifies this
      ensures Valid()
      ensures evt.None? ==> View() == old(View())
      ensures evt.Some? ==> View() == old(View()).(statistics := old(statistics).(
                numEventsProcessed := old(statistics.numEventsProcessed) + 1,
                eventsProcessed := Record(old(statistics.eventsProcessed), evt.value)))
    {
      if evt.None? {
        return;
      }
      statistics := statistics.(numEventsProcessed := statistics.numEventsProcessed + 1,
                                eventsProcessed := Record(statistics.eventsProcessed, evt.value));
    }

    /** The seed can be set once; a second attempt panics. */
    method SetSeed(newSeed: int) returns (r: SeedOutcome)
      modifies this
      ensures r.SeedPanicked? <==> old(seedSet)
      ensures r.SeedPanicked? ==> View() == old(View())
      ensures r.SeedSet? ==> View() == old(View()).(seed := newSeed, seedSet := true)
    {
      if seedSet {
        return SeedPanicked;
      }
      seed := newSeed;
      seedSet := true;
      return SeedSet;
    }

    /** The delay (nanoseconds) is added in whole milliseconds, so successive delays accumulate. */
    method SessionDelayed(sessionId: string, delayAmount: int)
      modifies this
      ensures View() == old(View()).(statistics := old(statistics).(
                aggregateSessionDelayMillis := old(statistics.aggregateSessionDelayMillis) + GoTime.Milliseconds(delayAmount)))
    {
      statistics := statistics.(aggregateSessionDelayMillis :=
                                  statistics.aggregateSessionDelayMillis + GoTime.Milliseconds(delayAmount));
    }

    /** The per-session template bookkeeping done by the workload instance is not modelled. */
    method SessionCreated(sessionId: string)
      modifies this
      ensures View() == old(View()).(statistics := old(statistics).(
                numActiveSessions := old(statistics.numActiveSessions) + 1,
                numSessionsCreated := old(statistics.numSessionsCreated) + 1))
    {
      statistics := statistics.(numActiveSessions := statistics.numActiveSessions + 1,
                                numSessionsCreated := statistics.numSessionsCreated + 1);
    }

    /**
     * One fewer active session. The session's own entry in the sessions map
     * (its state and resource request) is not modelled.
     */
    method SessionStopped(sessionId: string)
      modifies this
      ensures View() == old(View()).(statistics := old(statistics).(
                numActiveSessions := old(statistics.numActiveSessions) - 1))
    {
      statistics := statistics.(numActiveSessions := statistics.numActiveSessions - 1);
    }

    /**
     * One more training is known: it waits as submitted. The session's own
     * entry in the sessions map (its state and resource request) is not
     * modelled.
     */
    method TrainingSubmitted(sessionId: string)
      modifies this
      ensures TrainingsAccountedFor(statistics) == TrainingsAccountedFor(old(statistics)) + 1
      ensures View() == old(View()).(statistics := old(statistics).(
                numSubmittedTrainings := old(statistics.numSubmittedTrainings) + 1))
    {
      statistics := statistics.(numSubmittedTrainings := statistics.numSubmittedTrainings + 1);
    }

    /** A submitted training becomes active, and the tick at which it started is remembered. */
    method TrainingStarted(sessionId: string, tickNumber: int)
      modifies this
      ensures TrainingsAccountedFor(statistics) == TrainingsAccountedFor(old(statistics))
      ensures View() == old(View()).(
                statistics := old(statistics).(
                  numSubmittedTrainings := old(statistics.numSubmittedTrainings) - 1,
                  numActiveTrainings := old(statistics.numActiveTrainings) + 1),
                trainingStartedTimesTicks := old(trainingStartedTimesTicks)[sessionId := tickNumber])
    {
      statistics := statistics.(numSubmittedTrainings := statistics.numSubmittedTrainings - 1,
                                numActiveTrainings := statistics.numActiveTrainings + 1);
      trainingStartedTimesTicks := trainingStartedTimesTicks[sessionId := tickNumber];
    }

    /**
     * An active training completes; its length in ticks is added to the
     * cumulative training time when its start tick is known. The session's
     * own entry in the sessions map (its state, completed-training count and
     * resource request) is not modelled.
     */
    method TrainingStopped(sessionId: string, tickNumber: int)
      modifies this
      ensures TrainingsAccountedFor(statistics) == TrainingsAccountedFor(old(statistics))
      ensures View() == old(View()).(statistics := old(statistics).(
                numTasksExecuted := old(statistics.numTasksExecuted) + 1,
                numActiveTrainings := old(statistics.numActiveTrainings) - 1,
                cumulativeTrainingTimeTicks := old(statistics.cumulativeTrainingTimeTicks) +
                  (if sessionId in old(trainingStartedTimesTicks)
                   then tickNumber - old(trainingStartedTimesTicks)[sessionId] else 0)))
    {
      if sessionId in trainingStartedTimesTicks {
        var duration := tickNumber - trainingStartedTimesTicks[sessionId];
        statistics := statistics.(cumulativeTrainingTimeTicks := statistics.cumulativeTrainingTimeTicks + duration);
      }
      statistics := statistics.(numTasksExecuted := statistics.numTasksExecuted + 1,
                                numActiveTrainings := statistics.numActiveTrainings - 1);
    }

    /**
     * SessionDiscarded takes the lock around the call into the workload
     * instance (not modelled). If the lock is already held, the caller blocks
     * forever: Go's mutexes are not reentrant.
     */
    method SessionDiscarded(sessionId: string) returns (blocked: bool)
      modifies this
      ensures blocked <==> old(mutexHeld)
      ensures View() == old(View())
    {
      if mutexHeld {
        return true;
      }
      mutexHeld := true;
      mutexHeld := false;
      return false;
    }

    method UnsafeSetSessionSampled(sessionId: string)
      modifies this
      ensures View() == old(View()).(
                sampledSessions := old(sampledSessions) + {sessionId},
                statistics := old(statistics).(numSampledSessions := old(statistics.numSampledSessions) + 1))
    {
      sampledSessions := sampledSessions + {sessionId};
      statistics := statistics.(numSampledSessions := statistics.numSampledSessions + 1);
    }

    /** As written: the discard goes through the locking SessionDiscarded. */
    method UnsafeSetSessionDiscardedAsWritten(sessionId: string) returns (blocked: bool)
      modifies this
      ensures blocked <==> old(mutexHeld)
      ensures blocked ==> View() == old(View())
      ensures !blocked ==> View() == old(View()).(unsampledSessions := old(unsampledSessions) + {sessionId})
    {
      blocked := SessionDiscarded(sessionId);
      if blocked {
        return;
      }
      unsampledSessions := unsampledSessions + {sessionId};
    }

    /**
     * IsSessionBeingSampled as written: it holds the lock while deciding, so
     * deciding to discard a new session deadlocks. Earlier decisions and
     * decisions to sample are returned normally.
     */
    method IsSessionBeingSampledAsWritten(sessionId: string, randomValue: real) returns (r: SampleOutcome)
      requires Valid()
      modifies this
      ensures r == SelfDeadlock <==>
                sessionId !in old(sampledSessions) + old(unsampledSessions)
                && !(randomValue <= old(statistics.sessionsSamplePercentage))
      ensures r.Decided? ==> Valid() && (r.sampled <==> sessionId in sampledSessions)
    {
      mutexHeld := true;
      if sessionId in unsampledSessions {
        mutexHeld := false;
        return Decided(false);
      }
      if sessionId in sampledSessions {
        mutexHeld := false;
        return Decided(true);
      }
      if randomValue <= statistics.sessionsSamplePercentage {
        UnsafeSetSessionSampled(sessionId);
        mutexHeld := false;
        return Decided(true);
      }
      // The lock taken above is still held, so the discard always blocks.
      var blocked := UnsafeSetSessionDiscardedAsWritten(sessionId);
      assert blocked;
      return SelfDeadlock;
    }

    /**
     * IsSessionBeingSampled with the discard made without re-locking: an
     * earlier decision stands; an undecided session is sampled iff the random
     * draw (a parameter) is at most the sample percentage, and the decision
     * is recorded.
     */
    method IsSessionBeingSampled(sessionId: string, randomValue: real) returns (sampled: bool)
      requires Valid()
      modifies this
      ensures Valid()
      ensures sessionId in old(unsampledSessions) ==> !sampled && View() == old(View())
      ensures sessionId in old(sampledSessions) ==> sampled && View() == old(View())
      ensures sessionId !in old(sampledSessions) + old(unsampledSessions) ==>
                sampled == (randomValue <= old(statistics.sessionsSamplePercentage))
      ensures sessionId !in old(sampledSessions) + old(unsampledSessions) && sampled ==>
                View() == old(View()).(
                  sampledSessions := old(sampledSessions) + {sessionId},
                  statistics := old(statistics).(numSampledSessions := old(statistics.numSampledSessions) + 1))
      ensures sessionId !in old(sampledSessions) + old(unsampledSessions) && !sampled ==>
                View() == old(View()).(unsampledSessions := old(unsampledSessions) + {sessionId})
      ensures sampled <==> sessionId in sampledSessions
      ensures !sampled <==> sessionId in unsampledSessions
    {
      mutexHeld := true;
      if sessionId in unsampledSessions {
        mutexHeld := false;
        return false;
      }
      if sessionId in sampledSessions {
        mutexHeld := false;
        return true;
      }
      if randomValue <= statistics.sessionsSamplePercentage {
        UnsafeSetSessionSampled(sessionId);
        mutexHeld := false;
        return true;
      }
      unsampledSessions := unsampledSessions + {sessionId};
      mutexHeld := false;
      return false;
    }
  }

  /** With half of the sessions sampled, a draw of 0.75 for a new session deadlocks as written. */
  method DiscardDeadlocksAsWritten() returns (asWritten: SampleOutcome, corrected: bool)
    ensures asWritten == SelfDeadlock && !corrected
  {
    var w := new BasicWorkload("w", "w", 0, 0.5);
    asWritten := w.IsSessionBeingSampledAsWritten("s", 0.75);
    var v := new BasicWorkload("w", "w", 0, 0.5);
    corrected := v.IsSessionBeingSampled("s", 0.75);
  }
}
