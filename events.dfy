/**
 * The trace events the driver and its per-session clients dispatch on. The
 * event names and the session metadata record are declared outside the core;
 * here they are the values the dispatch code reads.
 */
module SessionEvents {

  /** The event names used by the dispatch code; any other name is OtherEvent. */
  datatype EventName =
    | SessionReady
    | SessionStarted
    | SessionTraining
    | TrainingStarted
    | TrainingEnded
    | UpdateGpuUtil
    | SessionStopped
    | OtherEvent(name: string)

  /** The per-session metadata an event carries, as read through its getters. */
  datatype SessionMetadata = SessionMetadata(
    pod: string,
    gpus: int,
    vram: real,
    maxSessionCpus: real,
    maxSessionMemory: real,
    maxSessionGpus: int,
    maxSessionVram: real,
    currentTrainingMaxCpus: real,
    currentTrainingMaxMemory: real,
    currentTrainingMaxGpus: int)

  /** An event: its name, id, session, duration in nanoseconds and metadata. */
  datatype Event = Event(name: EventName, id: string, sessionId: string, duration: int, data: SessionMetadata)

  /** A resource request: millicpus, memory in MB, VRAM in GB and a GPU count. */
  datatype ResourceRequest = ResourceRequest(cpus: real, memoryMb: real, vram: real, gpus: int)
}
