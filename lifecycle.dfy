/**
 * The workload state machine shared by the driver back end's two workload
 * implementations (driver-backend/internal/domain/workload.go and
 * driver-backend/internal/server/workload/workload.go): the seven states,
 * their string values, the guarded start and pause transitions with the
 * errors they return, and the in-progress / finished classification.
 */
module WorkloadLifecycle {
  import opened Wrappers

  datatype WorkloadState = Ready | Running | Pausing | Paused | Finished | Erred | Terminated

  /** The error values a lifecycle operation can return. */
  datatype WorkloadError =
    | ErrWorkloadNotRunning
    /** ErrInvalidState wrapped with the name of the state the workload was in. */
    | ErrInvalidState(stateName: string)
    | ErrWorkloadNotFound
    | ErrWorkloadNotPaused

  /** The string each state constant stands for. */
  function StateValue(s: WorkloadState): (v: string)
    ensures |v| > |"Workload"| && v[..8] == "Workload"
  {
    match s
    case Ready => "WorkloadReady"
    case Running => "WorkloadRunning"
    case Pausing => "WorkloadPausing"
    case Paused => "WorkloadPaused"
    case Finished => "WorkloadFinished"
    case Erred => "WorkloadErred"
    case Terminated => "WorkloadTerminated"
  }

  lemma StateValueInjective(s: WorkloadState, t: WorkloadState)
    ensures StateValue(s) == StateValue(t) <==> s == t
  {
  }

  /**
   * GetWorkloadStateAsString: the switch knows five of the seven states and
   * panics (None here) on the other two.
   */
  function GetWorkloadStateAsString(s: WorkloadState): (r: Option<string>)
    ensures r.None? <==> s == Pausing || s == Paused
    ensures r.Some? ==> r.value == StateValue(s)
  {
    match s
    case Ready => Some("WorkloadReady")
    case Running => Some("WorkloadRunning")
    case Finished => Some("WorkloadFinished")
    case Erred => Some("WorkloadErred")
    case Terminated => Some("WorkloadTerminated")
    case _ => None
  }

  predicate IsInProgress(s: WorkloadState)
  {
    s == Running || s == Pausing || s == Paused
  }

  predicate IsFinished(s: WorkloadState)
  {
    s == Erred || s == Finished
  }

  /** A terminated workload counts neither as finished nor as in progress. */
  lemma TerminatedIsNeitherFinishedNorInProgress()
    ensures !IsFinished(Terminated) && !IsInProgress(Terminated)
  {
  }

  /** The three classes of states partition the machine, apart from Ready. */
  lemma StateClasses(s: WorkloadState)
    ensures !(IsInProgress(s) && IsFinished(s))
    ensures s != Ready && !IsInProgress(s) && !IsFinished(s) ==> s == Terminated
  {
  }

  /** What StartWorkload does: succeed, return an error, or panic while formatting it. */
  datatype StartOutcome = Started | StartRefused(err: WorkloadError) | StartPanicked

  function StartFrom(s: WorkloadState): (r: StartOutcome)
    ensures r.Started? <==> s == Ready
    ensures r.StartPanicked? <==> s == Pausing || s == Paused
    ensures r.StartRefused? ==> r.err == ErrInvalidState(StateValue(s))
  {
    if s != Ready then
      match GetWorkloadStateAsString(s)
      case None => StartPanicked
      case Some(name) => StartRefused(ErrInvalidState(name))
    else
      Started
  }

  /** SetPausing: only a running workload may start pausing. */
  function SetPausingFrom(s: WorkloadState): (r: Result<WorkloadState, WorkloadError>)
    ensures r.Ok? <==> s == Running
    ensures r.Ok? ==> r.value == Pausing
    ensures r.Err? ==> r.error == ErrWorkloadNotPaused
  {
    if s != Running then Err(ErrWorkloadNotPaused) else Ok(Pausing)
  }

  /** SetPaused: only a pausing workload may become paused. */
  function SetPausedFrom(s: WorkloadState): (r: Result<WorkloadState, WorkloadError>)
    ensures r.Ok? <==> s == Pausing
    ensures r.Ok? ==> r.value == Paused
    ensures r.Err? ==> r.error == ErrWorkloadNotPaused
  {
    if s != Pausing then Err(ErrWorkloadNotPaused) else Ok(Paused)
  }

  /** Unpause: a paused or pausing workload resumes running. */
  function UnpauseFrom(s: WorkloadState): (r: Result<WorkloadState, WorkloadError>)
    ensures r.Ok? <==> s == Paused || s == Pausing
    ensures r.Ok? ==> r.value == Running
    ensures r.Err? ==> r.error == ErrWorkloadNotPaused
  {
    if s != Paused && s != Pausing then Err(ErrWorkloadNotPaused) else Ok(Running)
  }

  /** Pausing, pausing to completion and unpausing bring a running workload back to Running. */
  lemma PauseCycleReturnsToRunning()
    ensures SetPausingFrom(Running) == Ok(Pausing)
    ensures SetPausedFrom(Pausing) == Ok(Paused)
    ensures UnpauseFrom(Paused) == Ok(Running)
    ensures UnpauseFrom(Pausing) == Ok(Running)
  {
  }

  /** Every successful pause-family transition starts and ends in progress. */
  lemma PauseTransitionsStayInProgress(s: WorkloadState)
    ensures SetPausingFrom(s).Ok? ==> IsInProgress(s) && IsInProgress(SetPausingFrom(s).value)
    ensures SetPausedFrom(s).Ok? ==> IsInProgress(s) && IsInProgress(SetPausedFrom(s).value)
    ensures UnpauseFrom(s).Ok? ==> IsInProgress(s) && IsInProgress(UnpauseFrom(s).value)
  {
  }

  /** No guarded transition leaves a finished or terminated workload. */
  lemma EndStatesRefuseTransitions(s: WorkloadState)
    requires IsFinished(s) || s == Terminated
    ensures StartFrom(s) == StartRefused(ErrInvalidState(StateValue(s)))
    ensures SetPausingFrom(s).Err? && SetPausedFrom(s).Err? && UnpauseFrom(s).Err?
  {
  }
}
