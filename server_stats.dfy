/**
 * The statistics record of the server's workload
 * (driver-backend/internal/server/workload/stats.go): the workload state,
 * counters, the processed-event log and the latency lists, and the cluster
 * statistics record that can be embedded in it.
 */
module WorkloadStatistics {
  import opened Wrappers
  import opened WorkloadLifecycle
  import opened WorkloadEvents

  /**
   * The cluster-wide lists; cluster events and request traces are kept by
   * name only.
   */
  datatype ClusterStatistics = ClusterStatistics(
    jupyterTrainingStartLatenciesMillis: seq<real>,
    aggregateSessionLifetimesSec: seq<real>,
    clusterEvents: seq<string>,
    executeRequestTraces: seq<string>)

  datatype Statistics = Statistics(
    workloadState: WorkloadState,
    numTasksExecuted: int,
    numEventsProcessed: int,
    numSessionsCreated: int,
    numActiveSessions: int,
    numActiveTrainings: int,
    numSubmittedTrainings: int,
    numSampledSessions: int,
    currentTick: int,
    cumulativeTrainingTimeTicks: int,
    aggregateSessionDelayMillis: int,
    eventsProcessed: seq<WorkloadEvent>,
    tickDurationsMillis: seq<int>,
    jupyterSessionCreationLatenciesMillis: seq<int>,
    jupyterSessionTerminationLatenciesMillis: seq<int>,
    jupyterExecRequestTimesMillis: seq<int>,
    totalReplyLatenciesMillis: seq<int>,
    sessionsSamplePercentage: real,
    /** The embedded *ClusterStatistics pointer; None is nil. */
    cluster: Option<ClusterStatistics>)

  /** The trainings the workload has been told about: waiting, running or done. */
  function TrainingsAccountedFor(s: Statistics): int
  {
    s.numSubmittedTrainings + s.numActiveTrainings + s.numTasksExecuted
  }

  /** The log is numbered by position and its length is the processed-event count. */
  predicate ConsistentLog(s: Statistics)
  {
    IndexedLog(s.eventsProcessed) && s.numEventsProcessed == |s.eventsProcessed|
  }

  /**
   * NewStatistics: a Ready workload with zero counters, empty lists and the
   * given sample percentage. It does not allocate the embedded cluster
   * statistics, which therefore stay nil.
   */
  function NewStatistics(sessionsSamplePercentage: real): (s: Statistics)
    ensures s.workloadState == Ready && s.sessionsSamplePercentage == sessionsSamplePercentage
    ensures s.numTasksExecuted == 0 && s.numEventsProcessed == 0 && s.numSessionsCreated == 0
    ensures s.numActiveSessions == 0 && s.numActiveTrainings == 0 && s.currentTick == 0
    ensures s.numSubmittedTrainings == 0 && s.numSampledSessions == 0
    ensures s.cumulativeTrainingTimeTicks == 0 && s.aggregateSessionDelayMillis == 0
    ensures s.eventsProcessed == [] && s.tickDurationsMillis == []
    ensures s.jupyterSessionCreationLatenciesMillis == [] && s.jupyterSessionTerminationLatenciesMillis == []
    ensures s.jupyterExecRequestTimesMillis == [] && s.totalReplyLatenciesMillis == []
    ensures s.cluster.None?
  {
    Statistics(Ready, 0, 0, 0, 0, 0, 0, 0, 0, 0, 0, [], [], [], [], [], [], sessionsSamplePercentage, None)
  }

  /** Fresh statistics have a consistent log, nothing in flight, and count as neither in progress nor finished. */
  lemma NewStatisticsStartsClean(p: real)
    ensures ConsistentLog(NewStatistics(p)) && TrainingsAccountedFor(NewStatistics(p)) == 0
    ensures !IsInProgress(NewStatistics(p).workloadState) && !IsFinished(NewStatistics(p).workloadState)
    ensures StartFrom(NewStatistics(p).workloadState) == Started
  {
  }

  function NewClusterStatistics(): (c: ClusterStatistics)
    ensures c.jupyterTrainingStartLatenciesMillis == [] && c.aggregateSessionLifetimesSec == []
    ensures c.clusterEvents == [] && c.executeRequestTraces == []
  {
    ClusterStatistics([], [], [], [])
  }
}
