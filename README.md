# Workload driver: a verified Dafny model

This project models the core of a workload driver for a simulated
multi-tenant GPU cluster. The driver registers *workloads*: a preset, or a
template of sessions, each with a timeline of training events. It replays
them against Jupyter kernels tick by tick and reports progress to web front
ends over a websocket. The model covers five parts:

- **The Go backend.** The GPU-utilisation record and its status machine.
  Building a template workload into per-session and per-task maps. The
  workload state machine, in its two copies (the domain one and the server
  one), with event logs, counters and the sticky session-sampling decision.
  The initial statistics. The workload driver (id generation, registration,
  pause and unpause, internal session ids, execute-request arguments, event
  routing). The per-session client. The workload manager. The websocket
  request dispatcher. The Jupyter session manager and kernel connection. The
  older internal workload and its configuration.
- **The React provider.** It merges the server's workload lists into a
  map by id and routes messages.
- **The driver front end's forms.** The preset and template registration
  forms, the template modal and its session tabs, and the create-kernels
  modal, with their validators, submit gating and resets.
- **The web front end's modals.** Registration, single-session template,
  multi-session template and session form.
- **Shared text handling.** Go's `strconv`/`strings` helpers and
  JavaScript's `parseInt`, as far as the core uses them.

Objects whose methods update their own fields are Dafny classes. Pure
helpers are functions. JavaScript number inputs are `NumberField`: blank
(`''`), `NaN`, or a number. Randomness, UUIDs, clocks and the network are
parameters of the operations that use them. A Go panic is an explicit
outcome value wherever a caller can reach it; the few nil or empty values
that every caller rules out are preconditions instead, each listed under
"## Left out".

## Model

| member | source | states |
|---|---|---|
| GeneratorUtil.MinInt | driver-backend/internal/generator/util.go:6-13 | the result is at most both arguments and is one of them |
| GeneratorUtil.MaxInt | driver-backend/internal/generator/util.go:15-21 | the result is at least both arguments and is one of them |
| GeneratorUtil.MinMaxCommute | driver-backend/internal/generator/util.go:6-21 | MinInt and MaxInt do not depend on argument order |
| GeneratorUtil.ClampGpus | driver-backend/internal/generator/util.go:6-21 | `MaxInt(MinInt(n, c), 1)` lies in [1, max(c, 1)] and keeps any count already in [1, c] |
| GpuTracker.Equivalent | driver-backend/internal/generator/gpu.go:156-162 | the delayed statuses (IdleDelay, Stopping) map to the status they delay; every other status maps to itself |
| GpuTracker.CommitKeepsOneLevel | driver-backend/internal/generator/gpu.go:145-169 | a commit keeps exactly one level of history, whatever the record held before; the committed record has history iff the current one had |
| GpuTracker.CommitRepeat | driver-backend/internal/generator/gpu.go:155-167 | the repeat count and raw timestamp continue from the history exactly when the current status equals the history's equivalent status; status and value are kept |
| GpuTracker.TransitSameStatus | driver-backend/internal/generator/gpu.go:210-289 | when the committed status equals the previous one, transit emits nothing and succeeds |
| GpuTracker.TransitStartThenActivate | driver-backend/internal/generator/gpu.go:210-289 | stopped to busy emits exactly `started` then `activated` |
| GpuTracker.TransitDeferDeactivation | driver-backend/internal/generator/gpu.go:249-270 | busy to idle emits `deactivated` only after the idle reading has repeated GPUDeactivationDelay times; otherwise the record is relabelled IdleDelay with no event |
| GpuTracker.TransitDeferStop | driver-backend/internal/generator/gpu.go:239-248 | idle to stopped emits `stopped` when forced or after GPUStopDelay repeats; otherwise the record is relabelled Stopping |
| GpuTracker.TransitShape | driver-backend/internal/generator/gpu.go:210-289 | transit (`TransitFrom`) only appends to the event buffer, at most a bounded number of events, never `update-util`, and on success leaves the committed status or its delayed form |
| GpuTracker.MaxReal | driver-backend/internal/generator/gpu.go:174 | `math.Max` on readings: an upper bound of both that is one of them |
| GpuTracker.GpuUtil.constructor | driver-backend/internal/generator/gpu.go:614-618 | the pod literal created by ensurePod: the pod's name, any GPU, stopped, zero readings and no history |
| GpuTracker.GpuUtil.Init | driver-backend/internal/generator/gpu.go:94-108 | restarts the buffer from one reading: one GPU, no repeats, busy iff the value is above the activation threshold; maximum and history unchanged |
| GpuTracker.GpuUtil.Update | driver-backend/internal/generator/gpu.go:114-131 | adds one more device reading of the same timestamp: one more GPU, summed value, largest VRAM, and busy once any reading is positive |
| GpuTracker.GpuUtil.Archive | driver-backend/internal/generator/gpu.go:134-143 | returns a copy of the current fields without history and stores it as the last record; the buffered fields are unchanged |
| GpuTracker.GpuUtil.Commit | driver-backend/internal/generator/gpu.go:145-169 | the last record becomes CommitSnapshot of the current fields (one level of history, repeat continued on equivalent status) |
| GpuTracker.GpuUtil.CommitAndInit | driver-backend/internal/generator/gpu.go:173-178 | raises the running maximum by the buffered value, commits with that maximum, then restarts from the new reading exactly as `init` does: one GPU, no repeats, the reading's value, VRAM and timestamp, busy iff above the activation threshold, prototyped, pod and GPU name kept |
| GpuTracker.GpuUtil.Reset | driver-backend/internal/generator/gpu.go:181-199 | concludes a tick with no reading: stopped, zero value, GPU count taken from the history; a record already committed as stopped is returned without a new commit; pod, GPU name, running maximum and prototype are kept |
| GpuTracker.GpuUtil.Transit | driver-backend/internal/generator/gpu.go:210-289 | on the committed record, emits TransitFrom(previous status, committed status) and stores the status it settles on; with nothing committed it is the nil dereference |
| GpuTracker.ZeroRow | driver-backend/internal/generator/gpu.go:578 | the eight zero per-device maxima a pod starts with |
| GpuTracker.RaiseAt | driver-backend/internal/generator/gpu.go:581-585 | after a reading only device i's maximum may rise, to the larger of old maximum and reading; no maximum falls |
| GpuTracker.GrowthFactor | driver-backend/internal/generator/gpu.go:608-611 | the grown pod table is the least multiple of the capacity that holds the index |
| GpuTracker.RaisedSessionMaxes | driver-backend/internal/generator/gpu.go:575-585 | the per-session maxima gain the pod, keep other pods unchanged, and the pod's device maximum covers the reading without any maximum falling |
| GpuTracker.RaisedTrainingMaxes | driver-backend/internal/generator/gpu.go:587-600 | only the pod's current (last) training row changes, a pod seen first gets one row, and that row's device maximum covers the reading |
| GpuTracker.GpuDriver.constructor | driver-backend/internal/generator/gpu.go:334-349 | NewGPUDriver then Setup without a mapper: 1000 empty pod slots and empty maxima |
| GpuTracker.GpuDriver.EnsurePod | driver-backend/internal/generator/gpu.go:607-621 | grows the table to GrowthFactor times the capacity when the index does not fit, keeps every other slot, and creates the pod's buffer exactly when its slot was empty |
| GpuTracker.GpuDriver.UpdateInterval | driver-backend/internal/generator/gpu.go:623-627 | keeps the smallest interval seen, the unset 0 replaced by the first one |
| GpuTracker.GpuDriver.UpdateMaxUtilizationPerGpuDevice | driver-backend/internal/generator/gpu.go:563-605 | a GPU index that does not parse panics and changes nothing; one outside the eight devices panics after a pod without a row has been given the zero row; otherwise the session maxima, and the training maxima while the pod trains, are raised by the reading |
| GpuTracker.GpuDriver.RaiseMaxes | driver-backend/internal/generator/gpu.go:575-602 | a reading on a valid device raises the pod's session maxima (a missing row starting from zeros) and, only while the pod trains, its current training maxima; the rows stay eight wide |
| Generator.CpuPerTraining | driver-backend/internal/generator/generator.go:349-355 | one entry per training, entry i holding training i's millicpus |
| Generator.MemPerTraining | driver-backend/internal/generator/generator.go:349-355 | one entry per training, entry i holding training i's memory in MB |
| Generator.GpusPerTraining | driver-backend/internal/generator/generator.go:349-355 | one entry per training, entry i holding the number of GPU readings of training i |
| Generator.SessionEntries | driver-backend/internal/generator/generator.go:333-336 | every session's id maps, in the three session maps, to its current CPU, memory and GPU request; the last session with a repeated id wins |
| Generator.PrefixStep | driver-backend/internal/generator/generator.go:333-360 | the maps built from one more session are the previous maps with that session added |
| Generator.StoreKeys | driver-backend/internal/generator/generator.go:334-336 | storing under a key adds exactly that key to a map |
| Generator.AddSessionKeys | driver-backend/internal/generator/generator.go:334-336 | one session adds exactly its id to the keys of the three session maps |
| Generator.AddSessionTaskKeys | driver-backend/internal/generator/generator.go:342-359 | one session adds its id to the keys of the three per-task maps exactly when it has trainings |
| Generator.SessionMapKeys | driver-backend/internal/generator/generator.go:333-360 | the three session maps have the same keys: exactly the ids of the sessions |
| Generator.TaskMapKeys | driver-backend/internal/generator/generator.go:333-360 | the three per-task maps have the same keys: exactly the ids of sessions with at least one training |
| Generator.TaskEntries | driver-backend/internal/generator/generator.go:346-359 | a session with trainings maps, in the three per-task maps, to lists as long as its trainings holding each training's millicpus, memory and GPU count |
| Generator.PerTrainingLists | driver-backend/internal/generator/generator.go:346-355 | the inner loop fills one entry per training, in order |
| Generator.GenerateTemplateWorkload | driver-backend/internal/generator/generator.go:314-360 | a nil session list or nil request panics; a session with nil trainings panics naming a session whose trainings are nil; otherwise the maps are exactly those built from the sessions in order |
| Generator.Trunc | driver-backend/internal/generator/generator.go:414 | Go's float-to-int conversion truncates toward zero |
| Generator.GpuCountBounds | driver-backend/internal/generator/generator.go:405-419 | with adjustment a session's GPU count lies in [1, max(recorded, 1)]; without it is the truncated recorded count |
| Generator.SessionGpuMap | driver-backend/internal/generator/generator.go:382-431 | one count per session id seen, the last row with that id deciding the count |
| Generator.ValuesForCount | driver-backend/internal/generator/generator.go:493-531 | a session's list holds as many values as it has rows, and is non-empty iff some row has its id |
| Generator.AppendBySession | driver-backend/internal/generator/generator.go:493-531 | the keys are exactly the ids in the rows and each id's list holds its rows' values in file order |
| Generator.TrainingTaskGpuMap | driver-backend/internal/generator/generator.go:533-588 | each session's list holds the GPU counts of its rows in file order, adjusted as getSessionGpuMap adjusts them |
| GoStrings.LowerChar | driver-backend/internal/server/workload/driver.go:425 | `strings.ToLower` on one character, restricted to ASCII: capitals A-Z become the matching small letter and every other character is kept (Go also lowers non-ASCII letters; see Left out) |
| GoStrings.ToLower | driver-backend/internal/server/workload/driver.go:425 | ASCII lower-casing keeps the length and lower-cases each character in place |
| GoStrings.ToLowerIdempotent | driver-backend/internal/server/workload/driver.go:425 | lower-casing twice equals lower-casing once |
| GoStrings.ToLowerKeepsLower | driver-backend/internal/server/workload/driver.go:425 | a string with no upper-case ASCII letter is left as it is |
| GoStrings.ToLowerIgnoresCase | driver-backend/internal/server/workload/driver.go:425 | strings differing only in letter case lower-case alike, so the workload type switch is case-insensitive |
| GoStrings.LastIndex | driver-backend/internal/server/workload/driver.go:1476 | -1 iff the separator is absent, otherwise the position of its last occurrence |
| GoStrings.ContainsInfix | driver-backend/internal/server/workload/client.go:285 | an error text built around "insufficient hosts available" is recognised by `strings.Contains` |
| GoStrings.Split | internal/domain/config.go:375 | `strings.Split` with one separator gives at least one field and no field holds the separator |
| GoStrings.JoinSplit | internal/domain/config.go:375 | joining (`Join`) the fields with the separator restores the split text |
| GoStrings.SplitWithoutSeparator | internal/domain/config.go:375 | text without the separator splits into itself alone |
| GoTime.Milliseconds | driver-backend/internal/domain/workload.go:623-628 | `Duration.Milliseconds` divides nanoseconds by one million, truncating toward zero |
| GoTime.MillisecondsOfWholeMillis | driver-backend/internal/domain/workload.go:623-628 | a whole number of milliseconds converts back exactly |
| GoStrconv.NatToDigits | driver-backend/internal/generator/gpu.go:429 | a natural number is spelled with at least one decimal digit and no leading zero |
| GoStrconv.DigitsRoundTrip | driver-backend/internal/generator/gpu.go:429 | the decimal spelling of n reads back as n |
| GoStrconv.Atoi | driver-backend/internal/generator/gpu.go:564 | `strconv.Atoi` yields only 64-bit values and rejects the empty text |
| GoStrconv.AtoiItoa | driver-backend/internal/generator/gpu.go:429-564 | `Atoi(Itoa(n)) == n` for every 64-bit n, where `Itoa` spells an int in decimal: a pod index printed by Itoa parses back |
| GoStrconv.ParseInt | internal/domain/config.go:377-381 | `strconv.ParseInt` with its error dropped yields a 64-bit value and agrees with Atoi on valid text |
| GoStrconv.ParseIntItoa | internal/domain/config.go:377-381 | printed 64-bit values parse back; larger ones clamp to the nearest 64-bit bound |
| GoStrconv.ParseIntSyntaxError | internal/domain/config.go:377-381 | text with a character other than a digit or a leading sign parses as 0 |
| WorkloadLifecycle.StateValue | driver-backend/internal/domain/workload.go:21-29 | every state's string starts with "Workload" |
| WorkloadLifecycle.StateValueInjective | driver-backend/internal/domain/workload.go:21-29 | two states have the same string iff they are the same state |
| WorkloadLifecycle.GetWorkloadStateAsString | driver-backend/internal/domain/workload.go:253-278 | the switch names five of the seven states by their string and panics exactly on Pausing and Paused |
| WorkloadLifecycle.TerminatedIsNeitherFinishedNorInProgress | driver-backend/internal/domain/workload.go:1163-1176 | a terminated workload is neither finished nor in progress |
| WorkloadLifecycle.StateClasses | driver-backend/internal/domain/workload.go:1163-1176 | no state is both in progress (`IsInProgress`) and finished, and Terminated is the only state besides Ready in neither class |
| WorkloadLifecycle.StartFrom | driver-backend/internal/domain/workload.go:744-756 | a workload starts only from Ready; from Pausing or Paused the error message's state name panics; otherwise it is ErrInvalidState naming the state |
| WorkloadLifecycle.SetPausingFrom | driver-backend/internal/domain/workload.go:547-562 | only a running workload may start pausing; otherwise ErrWorkloadNotPaused |
| WorkloadLifecycle.SetPausedFrom | driver-backend/internal/domain/workload.go:564-579 | only a pausing workload may become paused; otherwise ErrWorkloadNotPaused |
| WorkloadLifecycle.UnpauseFrom | driver-backend/internal/domain/workload.go:581-596 | a paused or pausing workload resumes running; otherwise ErrWorkloadNotPaused |
| WorkloadLifecycle.PauseCycleReturnsToRunning | driver-backend/internal/domain/workload.go:547-596 | pausing, completing the pause and unpausing bring a running workload back to Running |
| WorkloadLifecycle.PauseTransitionsStayInProgress | driver-backend/internal/domain/workload.go:547-596 | every successful pause-family transition starts and ends in an in-progress state (with Paused counted in progress) |
| WorkloadLifecycle.EndStatesRefuseTransitions | driver-backend/internal/domain/workload.go:547-596 | finished, erred and terminated workloads refuse start, pause and unpause |
| WorkloadEvents.NewEmptyWorkloadEvent | internal/domain/workload.go:212-214 | the empty event has zero index, empty strings, no success and no error message |
| WorkloadEvents.NewWorkloadEvent | internal/domain/workload.go:216-233 | the event copies every argument, and the error message is the error's text only when there is an error |
| WorkloadEvents.WithIndex | internal/domain/workload.go:236-239 | only the index changes |
| WorkloadEvents.WithEventId | internal/domain/workload.go:241-244 | only the id changes |
| WorkloadEvents.WithSessionId | internal/domain/workload.go:246-249 | only the session changes |
| WorkloadEvents.WithEventName | internal/domain/workload.go:251-259 | only the name changes (both the EventName and the string forms) |
| WorkloadEvents.WithEventTimestamp | internal/domain/workload.go:261-269 | only the timestamp changes |
| WorkloadEvents.WithProcessedAtTime | internal/domain/workload.go:271-279 | only the processed-at time changes |
| WorkloadEvents.WithSimProcessedAtTime | internal/domain/workload.go:281-289 | only the simulated processed-at time changes |
| WorkloadEvents.WithProcessedStatus | internal/domain/workload.go:291-294 | only the success flag changes |
| WorkloadEvents.WithError | internal/domain/workload.go:297-302 | a nil error changes nothing; otherwise only the message changes, to the error's text |
| WorkloadEvents.WithErrorMessage | internal/domain/workload.go:304-307 | only the message changes |
| WorkloadEvents.ConstructorMatchesSetterChain | internal/domain/workload.go:212-307 | the constructor and the empty event refined by every setter build the same event |
| WorkloadEvents.TerminatedEvent | driver-backend/internal/domain/workload.go:712-722 | the termination event is successful, named workload-terminated, for session "N/A", with no error |
| WorkloadEvents.Record | driver-backend/internal/domain/workload.go:936-950 | recording appends the event with its index overwritten by the log's length, keeps the log before it, and keeps the log numbered 0, 1, 2, ... |
| WorkloadEvents.RecordAllIndexed | driver-backend/internal/domain/workload.go:936-950 | recording events one after another keeps the log numbered by position, whatever indices they arrived with |
| WorkloadEvents.SumAppend | driver-backend/internal/domain/workload.go:623-628 | the running tick-duration total grows by exactly the appended duration |
| DomainWorkload.IsInProgressAsWrittenMissesPaused | driver-backend/internal/domain/workload.go:1163-1168 | the predicate as written (running, pausing, pausing) is the intended in-progress test minus Paused, and Paused is a state where they differ |
| DomainWorkload.IsInProgressAsWritten | driver-backend/internal/domain/workload.go:1163-1168 | the test as written never calls a workload in progress that the intended test does not (see Findings) |
| DomainWorkload.BasicWorkload.Build | driver-backend/internal/domain/workload.go:423-464 | a freshly built workload is Ready with the builder's id, name and settings, an empty event log, zero counters and no sampling decisions |
| DomainWorkload.BasicWorkload.StartWorkload | driver-backend/internal/domain/workload.go:744-756 | the outcome is StartFrom of the old state and the workload moves to Running exactly when it started; nothing else changes |
| DomainWorkload.BasicWorkload.SetPausing | driver-backend/internal/domain/workload.go:547-562 | succeeds iff the workload was running, then it is Pausing; otherwise ErrWorkloadNotPaused and nothing changes |
| DomainWorkload.BasicWorkload.SetPaused | driver-backend/internal/domain/workload.go:564-579 | succeeds iff the workload was pausing, then it is Paused; otherwise ErrWorkloadNotPaused and nothing changes |
| DomainWorkload.BasicWorkload.Unpause | driver-backend/internal/domain/workload.go:581-610 | succeeds iff the workload was paused or pausing, then it is Running; otherwise ErrWorkloadNotPaused and nothing changes |
| DomainWorkload.BasicWorkload.SetWorkloadCompleted | driver-backend/internal/domain/workload.go:766-776 | only the state changes, to Finished |
| DomainWorkload.BasicWorkload.GetErrorMessage | driver-backend/internal/domain/workload.go:778-788 | the stored message is reported, with true, exactly while the workload is Erred; otherwise "" and false |
| DomainWorkload.BasicWorkload.SetErrorMessage | driver-backend/internal/domain/workload.go:790-796 | only the error message changes |
| DomainWorkload.BasicWorkload.TerminateWorkloadPrematurely | driver-backend/internal/domain/workload.go:698-742 | with Paused counted as in progress: refused with ErrWorkloadNotRunning iff the workload is not in progress; otherwise it is Terminated, the event count grows by one and one successful workload-terminated event is logged at the next index |
| DomainWorkload.BasicWorkload.ProcessedEvent | driver-backend/internal/domain/workload.go:936-965 | a nil event changes nothing; otherwise the count grows by one and the event is recorded at the next index |
| DomainWorkload.BasicWorkload.TickCompleted | driver-backend/internal/domain/workload.go:612-621 | only the current tick changes |
| DomainWorkload.BasicWorkload.AddFullTickDuration | driver-backend/internal/domain/workload.go:623-628 | the tick's length is appended in whole milliseconds and added to the running sum, which stays the sum of the list |
| DomainWorkload.BasicWorkload.SetSeed | driver-backend/internal/domain/workload.go:811-822 | the seed can be set once; a second attempt panics and changes nothing |
| DomainWorkload.BasicWorkload.SessionCreated | driver-backend/internal/domain/workload.go:967-984 | one more active session and one more session created |
| DomainWorkload.BasicWorkload.SessionStopped | driver-backend/internal/domain/workload.go:986-1014 | one fewer active session |
| DomainWorkload.BasicWorkload.TrainingStarted | driver-backend/internal/domain/workload.go:1016-1055 | one more active training |
| DomainWorkload.BasicWorkload.TrainingStopped | driver-backend/internal/domain/workload.go:1057-1111 | one fewer active training and one more task executed |
| DomainWorkload.BasicWorkload.SetSessionSampled | driver-backend/internal/domain/workload.go:1224-1233 | the session joins the sampled set and the sampled count grows by one |
| DomainWorkload.BasicWorkload.SetSessionDiscarded | driver-backend/internal/domain/workload.go:1235-1252 | the session joins the unsampled set |
| DomainWorkload.BasicWorkload.IsSessionBeingSampled | driver-backend/internal/domain/workload.go:1263-1293 | an earlier decision stands unchanged; an undecided session is sampled iff the draw is at most the sample percentage; afterwards the answer is recorded in exactly one of the two sets, and neither set loses a member |
| DomainWorkload.SamplingDecisionIsSticky | driver-backend/internal/domain/workload.go:1263-1293 | asking twice about a session gives the same answer, whatever the second draw |
| DomainWorkload.WorkloadBuilder.constructor | driver-backend/internal/domain/workload.go:370-378 | the builder starts with seed -1, debug logging on and both factors 1.0 |
| DomainWorkload.WorkloadBuilder.SetId | driver-backend/internal/domain/workload.go:381-385 | only the id changes |
| DomainWorkload.WorkloadBuilder.SetWorkloadName | driver-backend/internal/domain/workload.go:387-391 | only the name changes |
| DomainWorkload.WorkloadBuilder.EnableDebugLogging | driver-backend/internal/domain/workload.go:399-403 | only the debug flag changes |
| DomainWorkload.WorkloadBuilder.SetTimescaleAdjustmentFactor | driver-backend/internal/domain/workload.go:405-409 | only the timescale factor changes |
| DomainWorkload.WorkloadBuilder.SetSeed | driver-backend/internal/domain/workload.go:393-397 | only the seed changes |
| DomainWorkload.WorkloadBuilder.SetSessionsSamplePercentage | driver-backend/internal/domain/workload.go:411-415 | only the sample percentage changes |
| DomainWorkload.WorkloadBuilder.Build | driver-backend/internal/domain/workload.go:423-464 | a fresh Ready workload carrying the builder's settings, whose seed is not yet marked as set |
| DomainWorkload.DefaultBuildTakesOneSeed | driver-backend/internal/domain/workload.go:423-464 | a built workload accepts exactly one SetSeed; the second panics |
| WorkloadStatistics.NewStatistics | driver-backend/internal/server/workload/stats.go:86-107 | fresh statistics: Ready, every counter zero, every list empty, the given sample percentage, and no cluster statistics allocated |
| WorkloadStatistics.NewStatisticsStartsClean | driver-backend/internal/server/workload/stats.go:86-107 | fresh statistics have a consistent event log, no training in flight, are neither in progress nor finished, and can be started |
| WorkloadStatistics.NewClusterStatistics | driver-backend/internal/server/workload/stats.go:333-341 | fresh cluster statistics hold empty latency, lifetime, event and trace lists |
| ServerWorkload.BasicWorkload.constructor | driver-backend/internal/server/workload/stats.go:86-107 | a workload over NewStatistics with no sampling decisions, no training start ticks and the lock free |
| ServerWorkload.BasicWorkload.StartWorkload | driver-backend/internal/server/workload/workload.go:377-389 | the outcome is StartFrom of the old state; the workload moves to Running exactly when it started, and nothing else changes |
| ServerWorkload.BasicWorkload.SetPausing | driver-backend/internal/server/workload/workload.go:191-206 | succeeds iff the workload was running, then it is Pausing; otherwise ErrWorkloadNotPaused and nothing changes |
| ServerWorkload.BasicWorkload.SetPaused | driver-backend/internal/server/workload/workload.go:208-223 | succeeds iff the workload was pausing, then it is Paused; otherwise ErrWorkloadNotPaused and nothing changes |
| ServerWorkload.BasicWorkload.Unpause | driver-backend/internal/server/workload/workload.go:225-261 | succeeds iff the workload was paused or pausing, then it is Running; otherwise ErrWorkloadNotPaused and nothing changes |
| ServerWorkload.BasicWorkload.SetWorkloadCompleted | driver-backend/internal/server/workload/workload.go:399-409 | only the state changes, to Finished |
| ServerWorkload.BasicWorkload.GetErrorMessage | driver-backend/internal/server/workload/workload.go:411-421 | the message is reported, with true, exactly while the workload is Erred |
| ServerWorkload.BasicWorkload.HasEndTime | driver-backend/internal/server/workload/workload.go:488-498 | an end time is reported exactly for finished workloads |
| ServerWorkload.BasicWorkload.TerminateWorkloadPrematurely | driver-backend/internal/server/workload/workload.go:331-375 | refused with ErrWorkloadNotRunning iff the workload is not running, pausing or paused; otherwise it is Terminated and one successful workload-terminated event is recorded at the next index |
| ServerWorkload.BasicWorkload.ProcessedEvent | driver-backend/internal/server/workload/workload.go:571-600 | a nil event changes nothing; otherwise the count grows by one and the event is recorded at the next index |
| ServerWorkload.BasicWorkload.SetSeed | driver-backend/internal/server/workload/workload.go:444-455 | the seed can be set once; a second attempt panics and changes nothing |
| ServerWorkload.BasicWorkload.SessionDelayed | driver-backend/internal/server/workload/workload.go:548-553 | the delay is added to the aggregate in whole milliseconds |
| ServerWorkload.BasicWorkload.SessionCreated | driver-backend/internal/server/workload/workload.go:602-619 | one more active session and one more session created |
| ServerWorkload.BasicWorkload.SessionStopped | driver-backend/internal/server/workload/workload.go:621-648 | one fewer active session |
| ServerWorkload.BasicWorkload.TrainingSubmitted | driver-backend/internal/server/workload/workload.go:650-686 | one more submitted training, so one more training accounted for |
| ServerWorkload.BasicWorkload.TrainingStarted | driver-backend/internal/server/workload/workload.go:688-703 | a submitted training becomes active (the number accounted for is unchanged) and its start tick is remembered |
| ServerWorkload.BasicWorkload.TrainingStopped | driver-backend/internal/server/workload/workload.go:705-776 | an active training completes: one more task executed, and its length in ticks is added to the training time when its start tick is known |
| ServerWorkload.BasicWorkload.SessionDiscarded | driver-backend/internal/server/workload/workload.go:885-890 | blocks exactly when the lock is already held (Go mutexes are not reentrant) and otherwise changes nothing |
| ServerWorkload.BasicWorkload.UnsafeSetSessionSampled | driver-backend/internal/server/workload/workload.go:896-905 | the session joins the sampled set and the sampled count grows by one |
| ServerWorkload.BasicWorkload.UnsafeSetSessionDiscardedAsWritten | driver-backend/internal/server/workload/workload.go:907-933 | the discard goes through the locking SessionDiscarded: it blocks exactly when the lock is held, else the session joins the unsampled set |
| ServerWorkload.BasicWorkload.IsSessionBeingSampledAsWritten | driver-backend/internal/server/workload/workload.go:935-963 | with the lock held while deciding, the call deadlocks exactly when a new session is drawn for discarding; otherwise it answers from the sets |
| ServerWorkload.BasicWorkload.IsSessionBeingSampled | driver-backend/internal/server/workload/workload.go:942-963 | an earlier decision stands; an undecided session is sampled iff the draw is at most the sample percentage, and the answer is recorded in exactly one set |
| ServerWorkload.DiscardDeadlocksAsWritten | driver-backend/internal/server/workload/workload.go:935-963 | a new session with draw 0.75 at 50% sampling deadlocks as written, while the corrected method discards it |
| InternalWorkload.GetWorkloadStateAsString | internal/domain/workload.go:170-195 | the switch is total on this version's five states, each named by a string starting with "Workload" |
| InternalWorkload.StateNamesDistinct | internal/domain/workload.go:170-195 | two states have the same name iff they are the same state |
| InternalWorkload.AwaitingStart | internal/domain/workload.go:425-440 | every session is kept, in order, with its state set to awaiting start |
| InternalWorkload.IndexSessionsKeys | internal/domain/workload.go:425-440 | the id index holds exactly the earlier keys and the ids of the listed sessions |
| InternalWorkload.IndexSessionsLast | internal/domain/workload.go:425-440 | a listed id maps to the last session listed under it |
| InternalWorkload.IndexSessionsUntouched | internal/domain/workload.go:425-440 | a key that no listed session has keeps its earlier entry |
| InternalWorkload.IndexAwaitingStep | internal/domain/workload.go:431-437 | marking and indexing one more session stores exactly that session under its id |
| InternalWorkload.MarkAwaitingStep | internal/domain/workload.go:431-437 | marking session i in place turns the first i marked sessions into the first i + 1 |
| InternalWorkload.MarkAndIndex | internal/domain/workload.go:431-437 | the loop leaves every session marked awaiting start, in order, and indexed by id |
| InternalWorkload.WorkloadImpl.NewWorkload | internal/domain/workload.go:360-397 | a new workload is Ready with the given settings, no events, no sessions and every counter and the tick at 0 |
| InternalWorkload.WorkloadImpl.TickCompleted | internal/domain/workload.go:399-407 | only the current tick changes |
| InternalWorkload.WorkloadImpl.SetSessionsAsWritten | internal/domain/workload.go:425-440 | the sessions are installed, marked and indexed and the flag is set, with no check of the flag, so a second call is accepted |
| InternalWorkload.WorkloadImpl.SetSessions | internal/domain/workload.go:150-157 | as the interface documents: a second call panics and changes nothing; a first call installs the sessions marked awaiting start and indexed by id |
| InternalWorkload.WorkloadImpl.StartWorkload | internal/domain/workload.go:547-559 | only a Ready workload starts, becoming Running; otherwise ErrInvalidState naming the current state, and nothing changes |
| InternalWorkload.WorkloadImpl.SetWorkloadCompleted | internal/domain/workload.go:569-579 | only the state changes, to Finished |
| InternalWorkload.WorkloadImpl.IsFinished | internal/domain/workload.go:802-808 | finished means erred or completed |
| InternalWorkload.WorkloadImpl.GetErrorMessage | internal/domain/workload.go:581-591 | the message is reported, with true, exactly while the workload is Erred |
| InternalWorkload.WorkloadImpl.TerminateWorkloadPrematurely | internal/domain/workload.go:501-545 | only a running workload is terminated, logging one successful workload-terminated event at the next index; otherwise ErrWorkloadNotRunning and nothing changes |
| InternalWorkload.WorkloadImpl.ProcessedEvent | internal/domain/workload.go:721-731 | the count grows by one and the event is recorded at the next index |
| InternalWorkload.WorkloadImpl.SetSeed | internal/domain/workload.go:614-625 | the seed can be set once; a second attempt panics and changes nothing |
| InternalWorkload.WorkloadImpl.SessionCreated | internal/domain/workload.go:735-744 | one more active session and one more session created |
| InternalWorkload.WorkloadImpl.SessionStopped | internal/domain/workload.go:746-754 | one fewer active session |
| InternalWorkload.SecondSetSessionsAsWritten | internal/domain/workload.go:425-440 | installing sessions twice goes through as written (the second list wins) while the documented contract panics |
| WorkloadDriver.LetterAt | driver-backend/internal/server/workload/driver.go:40 | every position of the id alphabet holds an ASCII letter |
| WorkloadDriver.Letters | driver-backend/internal/server/workload/driver.go:40 | the alphabet has 52 characters, position i holding LetterAt(i) |
| WorkloadDriver.LetterBytesAreLetters | driver-backend/internal/server/workload/driver.go:40 | the alphabet is exactly the ASCII letters, so it has no '-' |
| WorkloadDriver.LettersMakeLetterWord | driver-backend/internal/server/workload/driver.go:92-108 | a string of ASCII letters is a letter word |
| WorkloadDriver.LetterWordHasNoDash | driver-backend/internal/server/workload/driver.go:1471-1479 | a letter word never contains the '-' that separates internal session ids |
| WorkloadDriver.GenerateWorkloadID | driver-backend/internal/server/workload/driver.go:92-108 | the id has exactly n characters, all letters and no '-'; with no random words nothing is generated, and n = 0 gives the empty id |
| WorkloadDriver.KindOf | driver-backend/internal/server/workload/driver.go:425-444 | the registration type selects preset or template iff it lower-cases to "preset" or "template" |
| WorkloadDriver.KindIgnoresCase | driver-backend/internal/server/workload/driver.go:425 | type spellings that differ only in case select the same kind |
| WorkloadDriver.CreationError | driver-backend/internal/server/workload/driver.go:325-390 | an unsupported type, an unknown preset key, a template request without sessions, or a rejected source each give their own error; otherwise creation succeeds |
| WorkloadDriver.EffectiveSeed | driver-backend/internal/server/workload/driver.go:476-481 | a non-negative requested seed is kept; a negative one is replaced by a draw in [0, 2147483647) |
| WorkloadDriver.HandleEvent | driver-backend/internal/server/workload/driver.go:1877-1905 | each of the four handled event names is routed to its handler, session-started panics, and any other name is an error wrapping ErrUnknownEventType |
| WorkloadDriver.CreateExecuteRequestArguments | driver-backend/internal/server/workload/driver.go:1687-1725 | only a training-started event yields arguments; they request the training's CPU, memory and VRAM, its maximum GPU count or the session's GPUs when that maximum is 0, and store history without stopping on error |
| WorkloadDriver.ExecuteArgsGpusAtLeastTraining | driver-backend/internal/server/workload/driver.go:1687-1725 | the requested GPU count is non-negative and never below the training's own maximum |
| WorkloadDriver.BasicWorkloadDriver.constructor | driver-backend/internal/server/workload/driver.go:168-247 | a driver with a letter-word id, the known preset keys, no workload, no request and not paused |
| WorkloadDriver.BasicWorkloadDriver.OriginalSessionId | driver-backend/internal/server/workload/driver.go:1475-1479 | the part before the last '-'; without any '-' the slice panics (None) |
| WorkloadDriver.BasicWorkloadDriver.InternalSessionId | driver-backend/internal/server/workload/driver.go:1471-1473 | the internal id is the trace session id, a '-', then the driver id, each part in its place |
| WorkloadDriver.BasicWorkloadDriver.SessionIdRoundTrip | driver-backend/internal/server/workload/driver.go:1471-1479 | decoding an internal session id gives the trace session id back, because the driver id has no '-' |
| WorkloadDriver.BasicWorkloadDriver.Install | driver-backend/internal/server/workload/driver.go:446-490 | the registered workload is fresh and Ready, carries the request's name, debug flag and timescale, the sample percentage only for presets, and the effective seed |
| WorkloadDriver.BasicWorkloadDriver.RegisterWorkloadAsWritten | driver-backend/internal/server/workload/driver.go:392-494 | a second registration is refused; an unsupported type dereferences the nil workload and a failed preset creation reaches the nil-workload panic; a failed template creation leaves a typed nil pointer that the next GetId dereferences; registration succeeds iff there is no creation error |
| WorkloadDriver.BasicWorkloadDriver.RegisterWorkload | driver-backend/internal/server/workload/driver.go:392-494 | with every creation failure returned: it never panics, a second registration is refused, a failed one leaves no workload, and a successful one installs a fresh Ready workload with the driver's id and the effective seed |
| WorkloadDriver.BasicWorkloadDriver.PauseWorkload | driver-backend/internal/server/workload/driver.go:722-740 | refused when already paused; otherwise the flag is set and the workload is asked to start pausing, the flag staying set even when the workload refuses |
| WorkloadDriver.BasicWorkloadDriver.UnpauseWorkload | driver-backend/internal/server/workload/driver.go:742-763 | refused iff the flag was clear; afterwards the flag is clear |
| WorkloadDriver.NewBasicWorkloadDriver | driver-backend/internal/server/workload/driver.go:168-247 | a fresh driver with an 8-letter id and no workload, unless the random words run out |
| WorkloadDriver.UnsupportedTypeAsWritten | driver-backend/internal/server/workload/driver.go:438-441 | a "trace" request panics as written and is refused with ErrUnsupportedWorkloadType once the error is returned |
| WorkloadDriver.MissingPresetAsWritten | driver-backend/internal/server/workload/driver.go:446-448 | an unknown preset key panics as written and is refused with ErrWorkloadPresetNotFound once the error is checked first |
| WorkloadDriver.MissingTemplateAsWritten | driver-backend/internal/server/workload/driver.go:360-386 | a template request without sessions dereferences a typed nil pointer as written and is refused with ErrWorkloadRegistrationMissingTemplate once the error is returned |
| WorkloadClient.HandleError | driver-backend/internal/server/workload/client.go:577-594 | the workload goes on exactly for an unknown session or an unknown event type; every other error aborts it |
| WorkloadClient.HandleEvent | driver-backend/internal/server/workload/client.go:596-625 | training events go to the training handler; a session-stopped event's result is recorded as a processed event carrying its id, session, name, timestamps and any error text; any other event is an unknown-event-type error |
| WorkloadClient.UnknownEventsAreDiscarded | driver-backend/internal/server/workload/client.go:577-625 | dispatching an unknown event never aborts the workload |
| WorkloadClient.SpecOfTraining | driver-backend/internal/server/workload/client.go:236-248 | a training's resource spec keeps its memory, GPUs and VRAM and truncates its millicpus |
| WorkloadClient.SpecOfMaximum | driver-backend/internal/server/workload/client.go:250-255 | the session maximum's resource spec keeps memory, GPUs and VRAM and truncates the CPUs |
| WorkloadClient.InitialResourceRequest | driver-backend/internal/server/workload/client.go:229-256 | under static, dynamic-v3 and dynamic-v4 the first training's resources when present, else the session maximum; under other policies the maximum; a first-training policy with no trainings fails |
| WorkloadClient.RetryOutcome | driver-backend/internal/server/workload/client.go:258-326 | a connection comes with no error, and running out of attempts always yields an error |
| WorkloadClient.RetryConnects | driver-backend/internal/server/workload/client.go:258-326 | a connection is made exactly when some attempt within the budget succeeds after nothing but insufficient-hosts failures |
| WorkloadClient.RetryExhausted | driver-backend/internal/server/workload/client.go:258-326 | when every attempt within the budget hits insufficient hosts, the last attempt's error is returned |
| WorkloadClient.CreateSessionWithRetry | driver-backend/internal/server/workload/client.go:258-326 | the loop over ten backoff steps yields RetryOutcome of the attempts |
| WorkloadClient.AdjustedDuration | driver-backend/internal/server/workload/client.go:1065-1076 | zero stays zero; otherwise the duration scaled by the timescale factor and truncated to whole nanoseconds |
| WorkloadClient.AdjustedDurationAtUnitScale | driver-backend/internal/server/workload/client.go:1065-1076 | at factor 1 the duration is unchanged |
| WorkloadClient.TimeoutBase | driver-backend/internal/server/workload/client.go:1078-1137 | one minute without a policy, thirty seconds for the first-training policies, two minutes otherwise unless the latency estimate is needed |
| WorkloadClient.TimeoutInterval | driver-backend/internal/server/workload/client.go:1078-1137 | the fixed timeout is the base plus the adjusted duration, defined exactly where the base is |
| WorkloadClient.TimeoutAtLeastThirtySeconds | driver-backend/internal/server/workload/client.go:1078-1137 | with a non-negative factor and duration every fixed timeout is at least thirty seconds |
| WorkloadClient.TrainingStartDelayMillis | driver-backend/internal/server/workload/client.go:930-940 | the recorded delay is the difference of the two times, clamped at zero for clock skew |
| WorkloadClient.RecordTrainingStartDelay | driver-backend/internal/server/workload/client.go:942-947 | the delay is appended to the latency list and added to the total, so both stay non-negative |
| WorkloadClient.Client.constructor | driver-backend/internal/server/workload/client.go:123-197 | a client with the builder's ids, policy and trainings, the ready event's session maxima as its maximum spec, and only the ready event queued |
| WorkloadClient.Client.Initialize | driver-backend/internal/server/workload/client.go:328-404 | a first event other than session-ready fails with the invalid-first-event error; a first-training policy without trainings panics; otherwise the connection is RetryOutcome's, and a handler registration error is returned |
| WorkloadClient.Client.OnReceiveExecuteReply | driver-backend/internal/server/workload/client.go:740-788 | nothing without content or status; an error status sends "ename: evalue" to the training-started channel, panicking when either field is missing; any other status sends the reply to the training-stopped channel |
| WorkloadClient.ClientBuilder.constructor | driver-backend/internal/server/workload/client.go:49-51 | an empty builder: no policy, no ready event, no trainings |
| WorkloadClient.ClientBuilder.WithSessionReadyEvent | driver-backend/internal/server/workload/client.go:63-66 | only the ready event changes |
| WorkloadClient.ClientBuilder.WithTrainings | driver-backend/internal/server/workload/client.go:107-110 | only the trainings change |
| WorkloadClient.ClientBuilder.WithSchedulingPolicy | driver-backend/internal/server/workload/client.go:78-85 | the empty policy panics and is not stored; any other policy is stored, and nothing else changes |
| WorkloadClient.ClientBuilder.Build | driver-backend/internal/server/workload/client.go:123-197 | a fresh client whose queue holds just the ready event and whose maximum spec is that event's session maxima |
| WorkloadClient.BuiltClientStartsWithReadyEvent | driver-backend/internal/server/workload/client.go:123-197 | a freshly built client always gets past the first-event check |
| WorkloadManager.ActiveWorkloads | driver-backend/internal/server/workload/manager.go:133-148 | every in-progress workload is keyed by its id, and every entry is a registered in-progress workload under its own id |
| WorkloadManager.StillActive | driver-backend/internal/server/workload/manager.go:397-463 | the active set keeps exactly its entries still in progress |
| WorkloadManager.StillActiveIdempotent | driver-backend/internal/server/workload/manager.go:397-463 | dropping finished workloads twice drops nothing more |
| WorkloadManager.PushRound | driver-backend/internal/server/workload/manager.go:388-463 | every workload in the active set is pushed, then exactly those no longer in progress are removed, so a finished workload is pushed once more and then leaves the set |
| WorkloadManager.BasicWorkloadManager.constructor | driver-backend/internal/server/workload/manager.go:78-113 | no workloads, no drivers, and the push routine not started |
| WorkloadManager.BasicWorkloadManager.GetWorkloadWebsocketHandler | driver-backend/internal/server/workload/manager.go:115-123 | the push routine is started by the one call whose compare-and-swap takes the flag from 0 to 1 |
| WorkloadManager.BasicWorkloadManager.Lookup | driver-backend/internal/server/workload/manager.go:150-159 | an unknown id is ErrWorkloadNotFound; a known one yields its driver |
| WorkloadManager.BasicWorkloadManager.LookupFindsRegisteredWorkload | driver-backend/internal/server/workload/manager.go:150-159 | a driver found by id drives the workload registered under that id |
| WorkloadManager.BasicWorkloadManager.GetActiveWorkloads | driver-backend/internal/server/workload/manager.go:133-148 | the registered in-progress workloads keyed by id |
| WorkloadManager.BasicWorkloadManager.RegisterWorkload | driver-backend/internal/server/workload/manager.go:300-326 | with the corrected driver (see Findings): a creation error is returned and changes nothing; on success the fresh Ready workload is appended once and filed under its id with its fresh driver, other drivers unchanged |
| WorkloadManager.BasicWorkloadManager.Enroll | driver-backend/internal/server/workload/manager.go:315-318 | one append, and the id filed in both maps |
| WorkloadManager.BasicWorkloadManager.PauseWorkload | driver-backend/internal/server/workload/manager.go:266-281 | an unknown id is ErrWorkloadNotFound; otherwise the driver's pause decides and its error is passed on, and no other workload or driver changes |
| WorkloadManager.BasicWorkloadManager.UnpauseWorkload | driver-backend/internal/server/workload/manager.go:283-298 | an unknown id is ErrWorkloadNotFound; otherwise the driver's unpause decides and its error is passed on |
| WorkloadManager.BasicWorkloadManager.DistinctIdsDistinctObjects | driver-backend/internal/server/workload/manager.go:300-329 | distinct registry ids name distinct drivers and distinct workloads |
| WorkloadManager.PushRoutineStartsOnce | driver-backend/internal/server/workload/manager.go:115-123 | a second request for the websocket handler never starts another push routine |
| WorkloadWebsocket.ExpectedOrigin | driver-backend/internal/server/workload/workload_websocket_handler.go:88-96 | an address gets ":port" appended exactly when the port is positive |
| WorkloadWebsocket.ExpectedOrigins | driver-backend/internal/server/workload/workload_websocket_handler.go:88-96 | one expected origin per comma-separated address, in order |
| WorkloadWebsocket.CheckOrigin | driver-backend/internal/server/workload/workload_websocket_handler.go:124-136 | the incoming origin is accepted iff it is one of the expected origins |
| WorkloadWebsocket.OriginsWithoutPort | driver-backend/internal/server/workload/workload_websocket_handler.go:88-96 | without a port exactly the configured addresses are accepted |
| WorkloadWebsocket.OriginsWithPort | driver-backend/internal/server/workload/workload_websocket_handler.go:88-96 | with a port every configured address followed by ":port" is accepted |
| WorkloadWebsocket.DispatchRequest | driver-backend/internal/server/workload/workload_websocket_handler.go:152-194 | a message that does not parse, lacks a message id, lacks an operation or names an unregistered one gives its own error, in that order; a registered operation returns its handler's response and wrapped error; a non-string id or operation panics |
| WorkloadWebsocket.RegisteredOperationsAreDispatched | driver-backend/internal/server/workload/workload_websocket_handler.go:105-194 | with the registered handlers, a well-formed request naming any of the nine operations returns that handler's response and error, and any other operation is ErrInvalidOperation |
| WorkloadWebsocket.GetResponsePayload | driver-backend/internal/server/workload/workload_websocket_handler.go:224-236 | an error always gives an encoded error message; otherwise the response itself, so no error and no response means no reply |
| WorkloadWebsocket.ReplySentUnlessHandlerSilent | driver-backend/internal/server/workload/workload_websocket_handler.go:152-236 | a dispatched request is answered unless its registered handler returned neither a response nor an error |
| WorkloadWebsocket.StopErrors | driver-backend/internal/server/workload/workload_websocket_handler.go:407-419 | no errors exactly when every stop attempt succeeded |
| WorkloadWebsocket.Stopped | driver-backend/internal/server/workload/workload_websocket_handler.go:407-419 | every requested id is either stopped or has one error, and only requested ids are stopped |
| WorkloadWebsocket.NoErrorsStopsAll | driver-backend/internal/server/workload/workload_websocket_handler.go:407-431 | when no attempt fails every requested workload is in the reply, in order |
| WorkloadWebsocket.HandleStopWorkloads | driver-backend/internal/server/workload/workload_websocket_handler.go:386-432 | a request for another operation panics; any failed attempt returns the joined errors; otherwise the reply lists all requested workloads |
| WorkloadWebsocket.WebsocketHandler.constructor | driver-backend/internal/server/workload/workload_websocket_handler.go:63-103 | the expected origins are built from the configuration, all nine handlers are registered and no one is subscribed |
| WorkloadWebsocket.WebsocketHandler.Subscribe | driver-backend/internal/server/workload/workload_websocket_handler.go:291-294 | the subscriber is filed under its remote address |
| WorkloadWebsocket.WebsocketHandler.Broadcast | driver-backend/internal/server/workload/workload_websocket_handler.go:495-514 | every subscriber is written to; each failed write gives one error and exactly the failing subscribers are removed |
| WorkloadWebsocket.HealthySubscriberStays | driver-backend/internal/server/workload/workload_websocket_handler.go:495-514 | a subscriber whose writes succeed stays subscribed through any broadcast |
| KernelSessionManager.ForwardsError | driver-backend/pkg/jupyter/manager.go:141-159 | an insufficient-hosts error is never passed on; any other is passed on exactly when a handler is registered |
| KernelSessionManager.InsufficientHostsNeverForwarded | driver-backend/pkg/jupyter/manager.go:141-159 | any error text containing "insufficient hosts available" is held back |
| KernelSessionManager.AdjustSessionName | driver-backend/pkg/jupyter/manager.go:196-203 | a shorter id becomes its lower-case form, a dash and the start of a fresh UUID, 36 characters in all; a longer id is refused; an id of 36 is kept |
| KernelSessionManager.AdjustedNamesHaveFixedLength | driver-backend/pkg/jupyter/manager.go:196-203 | with adjustment on, a name is accepted iff it has at most 36 characters, and every accepted name has exactly 36 |
| KernelSessionManager.CreateReplyError | driver-backend/pkg/jupyter/manager.go:284-310 | 400 and 500 return the body in their own errors; any other unexpected status reports the status with the JSON message, else the reason, else the body |
| KernelSessionManager.StopKernelError | driver-backend/pkg/jupyter/manager.go:518-540 | 400 and 404 are errors; every other status succeeds |
| KernelSessionManager.NoContentStopsKernel | driver-backend/pkg/jupyter/manager.go:520-523 | a 204 reply stops the kernel without error |
| KernelSessionManager.KernelMetrics.constructor | driver-backend/pkg/jupyter/manager.go:111-135 | every counter starts at 0 |
| KernelSessionManager.KernelMetrics.FileCreated | driver-backend/pkg/jupyter/manager.go:57-59 | one more file created, other counters unchanged |
| KernelSessionManager.KernelMetrics.KernelCreated | driver-backend/pkg/jupyter/manager.go:61-65 | one more kernel created, other counters unchanged |
| KernelSessionManager.KernelMetrics.SessionCreated | driver-backend/pkg/jupyter/manager.go:67-79 | one more session created, other counters unchanged |
| KernelSessionManager.KernelMetrics.SessionTerminated | driver-backend/pkg/jupyter/manager.go:81-93 | one more session terminated, other counters unchanged |
| KernelSessionManager.BasicKernelSessionManager.constructor | driver-backend/pkg/jupyter/manager.go:111-135 | no metadata, no error handler, empty id maps and sessions, zero metrics |
| KernelSessionManager.BasicKernelSessionManager.RegisterOnErrorHandler | driver-backend/pkg/jupyter/manager.go:137-139 | a handler is registered; nothing else changes |
| KernelSessionManager.BasicKernelSessionManager.AddMetadata | driver-backend/pkg/jupyter/manager.go:161-175 | the key is bound to the value, other keys unchanged |
| KernelSessionManager.BasicKernelSessionManager.GetMetadata | driver-backend/pkg/jupyter/manager.go:177-189 | the bound value and true, or false for a key never added |
| KernelSessionManager.BasicKernelSessionManager.TryCallErrorHandler | driver-backend/pkg/jupyter/manager.go:141-159 | the error is recorded as handed on exactly when ForwardsError says so, and nothing else changes |
| KernelSessionManager.BasicKernelSessionManager.RecordCreatedSession | driver-backend/pkg/jupyter/manager.go:244-283 | the four id maps file the new session in both directions, so the kernel id maps back to the local session id |
| KernelSessionManager.BasicKernelSessionManager.CreateSessionAsWritten | driver-backend/pkg/jupyter/manager.go:284-289 | a 400 reply after a valid name panics, because the handler is given a nil error |
| KernelSessionManager.BasicKernelSessionManager.CreateSession | driver-backend/pkg/jupyter/manager.go:191-372 | never panics; a refused name, a transport error, every status other than 201, an undecodable 201 body and a failed connection are each returned as their own error, and every one of them except the refused name and a 500 is handed to the error handler when ForwardsError says so; only a decoded 201 files the four ids, and only a made connection is stored with the workload id and counted as a created session when that id is known |
| KernelSessionManager.BasicKernelSessionManager.InterruptKernel | driver-backend/pkg/jupyter/manager.go:374-430 | an unknown session, a session without a kernel connection and a dead kernel are refused in that order; otherwise the interrupt request's error, if any, is returned and handed to the error handler with the kernel's id when ForwardsError says so, and success hands on nothing; the id maps are never touched |
| KernelSessionManager.BasicKernelSessionManager.StopKernel | driver-backend/pkg/jupyter/manager.go:496-550 | a transport error is returned; otherwise StopKernelError of the status, and a success counts one terminated session when the workload id is known |
| KernelSessionManager.MetadataRoundTrip | driver-backend/pkg/jupyter/manager.go:161-189 | a value added under a key is what GetMetadata returns for it, and other keys are untouched |
| KernelSessionManager.FreshManagerHasNoMetadata | driver-backend/pkg/jupyter/manager.go:111-135 | a fresh manager knows no metadata |
| KernelSessionManager.BadRequestAsWritten | driver-backend/pkg/jupyter/manager.go:284-289 | a 400 reply panics as written and returns ErrCreateSessionBadRequest with the body once corrected |
| KernelConnection.BaseMessageType | internal/server/jupyter/kernel.go:60-68 | a type ending in "request" or "reply" is that suffix's base, so base plus suffix gives the type back; any other type panics |
| KernelConnection.RequestAndReplyShareBase | internal/server/jupyter/kernel.go:60-68 | a request and its reply map to the same base: the action |
| KernelConnection.ExecuteRequestBase | internal/server/jupyter/kernel.go:60-68 | "execute_request" has the base "execute_" |
| KernelConnection.MessageIdsDistinct | internal/server/jupyter/kernel.go:643-647 | different counter values give different message ids (`MessageId`) |
| KernelConnection.RequestsMade | internal/server/jupyter/kernel.go:662-690 | between 1 and 6 kernel-info requests: every request before the last failed, and the last succeeded unless all six were used |
| KernelConnection.SuccessIffSomeReply | internal/server/jupyter/kernel.go:662-690 | the retry loop ends in success iff some reply succeeded, after exactly RequestsMade requests |
| KernelConnection.StreamText | internal/server/jupyter/kernel.go:559-600 | a text is found only in a "stream" message whose content names that stream and carries the text |
| KernelConnection.BasicKernelConnection.constructor | internal/server/jupyter/kernel.go:117-161 | the given ids and version, an empty client id replaced by a fresh UUID, counter 0, status Initializing and empty handler, channel and output tables |
| KernelConnection.BasicKernelConnection.NextMessageId | internal/server/jupyter/kernel.go:643-647 | the id for the counter before the call, and the counter goes up by one; nothing else changes |
| KernelConnection.BasicKernelConnection.RegisterIoPubHandler | internal/server/jupyter/kernel.go:193-205 | a new id is added; an id already present gives ErrHandlerAlreadyExists and leaves the table unchanged |
| KernelConnection.BasicKernelConnection.UnregisterIoPubHandler | internal/server/jupyter/kernel.go:208-220 | a present id is removed; a missing one gives ErrNoHandlerFound and leaves the table unchanged |
| KernelConnection.BasicKernelConnection.CreateKernelMessage | internal/server/jupyter/kernel.go:602-641 | the message gets the next id, the client id as session and user, an empty object for nil content and the kernel id as metadata; a response channel is registered iff the channel is shell or control |
| KernelConnection.BasicKernelConnection.DefaultHandleIoPubMessageAsWritten | internal/server/jupyter/kernel.go:559-600 | stdout text is appended to stdout, but stderr text replaces the stderr history with stdout plus the text; other messages change nothing |
| KernelConnection.BasicKernelConnection.DefaultHandleIoPubMessage | internal/server/jupyter/kernel.go:559-600 | each stream history gains exactly the text sent on that stream, in order; other messages change nothing |
| KernelConnection.BasicKernelConnection.SendMessage | internal/server/jupyter/kernel.go:908-930 | a dead kernel gives ErrKernelIsDead and any other status except Connected gives ErrNotConnected; a connected kernel writes the message and returns a failed write's error; only a successful send is recorded |
| KernelConnection.BasicKernelConnection.KernelInfoMessage | internal/server/jupyter/kernel.go:368-372 | a kernel-info request goes on the shell channel and carries the id built from the counter it is created with |
| KernelConnection.BasicKernelConnection.RequestKernelInfo | internal/server/jupyter/kernel.go:368-393 | one kernel-info request: the counter goes up by one, its response key is registered, the message is on the websocket iff the send succeeds, and the request succeeds iff the kernel is connected, the write goes through and the reply arrives in time |
| KernelConnection.BasicKernelConnection.UpdateConnectionStatus | internal/server/jupyter/kernel.go:649-693 | no change when the status is already the target; moving to Connected requests kernel info until a success, at most six times, and ends Disconnected when all fail; every request made adds one to the counter and registers its response key, and each one whose write succeeds is on the websocket, in order |
| KernelConnection.StatusAfterUpdate | internal/server/jupyter/kernel.go:649-693 | the status left behind is the old one, the target or Disconnected; any target other than Connected is taken; a move to Connected ends Connected iff some kernel-info reply succeeded |
| KernelConnection.BasicKernelConnection.RequestKernelInfoWithRetries | internal/server/jupyter/kernel.go:668-690 | on a connected kernel the loop succeeds iff some try's write went through and was answered, after exactly RequestsMade tries, and the counter, response keys and written messages grow by exactly those tries |
| KernelConnection.BasicKernelConnection.RequestKernelInfoStep | internal/server/jupyter/kernel.go:672-676 | one try of the loop extends the counter, the response keys and the written messages from n tries to n + 1 |
| KernelConnection.Replies | internal/server/jupyter/kernel.go:672-683 | try i succeeds exactly when its write went through and its reply came in time |
| KernelConnection.RegisterThenUnregister | internal/server/jupyter/kernel.go:193-220 | registering a new id and then removing it succeeds both times and restores the handler table |
| KernelConnection.SuccessiveMessagesHaveDistinctIds | internal/server/jupyter/kernel.go:602-647 | two messages built one after the other have different ids |
| KernelConnection.StderrOverwrittenAsWritten | internal/server/jupyter/kernel.go:593 | as written, stderr output erases the earlier stderr text when stdout is empty; corrected, both texts are kept |
| WorkloadConfiguration.Sprintf | internal/domain/config.go:362 | a format without any verb is printed unchanged, followed by Go's "%!(EXTRA string=...)" note for the unused argument |
| WorkloadConfiguration.SprintfFillsPlaceholder | internal/domain/config.go:362 | a path whose only placeholder is one "%s" receives the month in its place |
| WorkloadConfiguration.MonthIndex | internal/domain/config.go:26 | the position of a month name in the twelve-month list, or -1 exactly when it names no month |
| WorkloadConfiguration.StartMonth | internal/domain/config.go:350-358 | the walk starts at the named month, or at January for a name that is not a month |
| WorkloadConfiguration.WalkLength | internal/domain/config.go:360-367 | a walk has between 1 and 12 paths |
| WorkloadConfiguration.MonthIndexOfMonth | internal/domain/config.go:26 | month names are told apart by their positions |
| WorkloadConfiguration.WalkMonthsDistinct | internal/domain/config.go:360-362 | no month appears twice in a walk |
| WorkloadConfiguration.WalkEndsAtToMonth | internal/domain/config.go:360-365 | when the end month is a month, the walk ends with it |
| WorkloadConfiguration.WalkMonth | internal/domain/config.go:360-362 | step k of a walk from the start month is a month name, the one at position (start + k) mod 12 |
| WorkloadConfiguration.WalkPathsEndAtToMonth | internal/domain/config.go:344-368 | when the end month is a month, the last of the walk's paths is that month's path |
| WorkloadConfiguration.WalkStopsAtToMonth | internal/domain/config.go:360-365 | the first step that reaches the end month is the walk's last, so the end month names a month |
| WorkloadConfiguration.WalkMissesAbsentMonth | internal/domain/config.go:360-367 | a twelve-month walk that never meets the end month proves it names no month, so the walk is twelve months long |
| WorkloadConfiguration.WalkPaths | internal/domain/config.go:360-367 | the month loop yields one path per month of the walk from the start month, in order, ending at the end month or after twelve months |
| WorkloadConfiguration.NormalizeDowntime | internal/domain/config.go:370-381 | nil exactly for an empty string; otherwise one number per comma-separated field, as ParseInt reads it with its error dropped, so an unreadable field is 0 |
| WorkloadConfiguration.DowntimeOfOneNumber | internal/domain/config.go:370-381 | a single 64-bit number written out is read back as itself |
| WorkloadConfiguration.NormalizeMonth | internal/domain/config.go:336-341 | a non-empty month option becomes its first three characters in lower case; an empty one stays empty and a shorter one panics on the slice |
| WorkloadConfiguration.NormalizeMonthIdempotent | internal/domain/config.go:336-341 | normalising a month option twice gives the same result as once |
| WorkloadConfiguration.WorkloadConfig.constructor | internal/domain/config.go:29-50 | the configuration holds the given trace steps and month options |
| WorkloadConfiguration.WorkloadConfig.ApplyDefaults | internal/domain/config.go:327-341 | a zero GPU, CPU or memory step takes the common trace step and a non-zero one is kept; both months are normalised; a short month panics |
| WorkloadConfiguration.WorkloadConfig.NormalizeTracePaths | internal/domain/config.go:344-368 | without a start month, just the path; otherwise the path filled with each month from the start month (January if unknown) round to the end month, or all twelve when the end month is not a month |
| WorkloadConfiguration.FindStartMonth | internal/domain/config.go:350-358 | the start month the loop finds is StartMonth |
| WorkloadConfiguration.TracePathsEndAtToMonth | internal/domain/config.go:344-368 | with a known end month, the last path is the end month's and there are at most twelve paths |
| WorkloadConfiguration.TracePathsWrapAround | internal/domain/config.go:360-365 | a walk from December to January wraps round the year in two paths |
| WorkloadProvider.SetAllKeys | driver-frontend/src/Providers/WorkloadProvider.tsx:182-193 | after setting the entries, an id is present iff it was before or is named; an id not named keeps its value |
| WorkloadProvider.SetAllLastWins | driver-frontend/src/Providers/WorkloadProvider.tsx:182-193 | the last entry with a given id is the one the map holds |
| WorkloadProvider.DeleteAllKeys | driver-frontend/src/Providers/WorkloadProvider.tsx:194-199 | after deleting, an id is present iff it was before and is not named, with its value unchanged |
| WorkloadProvider.PatchAllKeys | driver-frontend/src/Providers/WorkloadProvider.tsx:201-215 | patches never add or remove an id and leave ids they do not name alone |
| WorkloadProvider.MergeKeys | driver-frontend/src/Providers/WorkloadProvider.tsx:179-219 | after a response (`Merge`) an id is known iff it was known or is new or modified, and is not deleted; an id the response does not mention keeps its value |
| WorkloadProvider.PatchForUnknownIdIgnored | driver-frontend/src/Providers/WorkloadProvider.tsx:201-215 | a patch for an id the map does not hold leaves the map unchanged |
| WorkloadProvider.PauseOperation | driver-frontend/src/Providers/WorkloadProvider.tsx:818-824 | unpause is sent exactly for a paused or pausing workload, pause for any other |
| WorkloadProvider.ActiveIdsExactly | driver-frontend/src/Providers/WorkloadProvider.tsx:460-465 | an id is sent iff some workload in the list with that id is actively running |
| WorkloadProvider.WorkloadStore.constructor | driver-frontend/src/Providers/WorkloadProvider.tsx:75-80 | the store starts with no workloads, no callbacks, nothing sent and no callback calls |
| WorkloadProvider.WorkloadStore.SendJsonMessageDirectly | driver-frontend/src/Providers/WorkloadProvider.tsx:118-137 | the callback is stored only when both a non-empty message id and a callback are given; a failed send returns its error, a successful one returns nothing and is recorded |
| WorkloadProvider.WorkloadStore.HandleWebSocketResponse | driver-frontend/src/Providers/WorkloadProvider.tsx:139-219 | the callback stored under the message id, if any, is called once; a response is then merged into the map, an error leaves it |
| WorkloadProvider.WorkloadStore.MergeResponse | driver-frontend/src/Providers/WorkloadProvider.tsx:179-217 | the map becomes the merge of the response into the previous map |
| WorkloadProvider.WorkloadStore.OnMessage | driver-frontend/src/Providers/WorkloadProvider.tsx:221-283 | an undecodable message is dropped; status "OK" is handled as a response; any other status is an error response, which calls its callback and changes no workload |
| WorkloadProvider.WorkloadStore.StopAllWorkloads | driver-frontend/src/Providers/WorkloadProvider.tsx:457-475 | one stop request is sent naming exactly the actively running workloads, in list order |
| WorkloadProvider.WorkloadStore.PauseWorkload | driver-frontend/src/Providers/WorkloadProvider.tsx:809-875 | the request sends PauseOperation's choice for the workload, its callback stored under the new message id |
| WorkloadProvider.SetEach | driver-frontend/src/Providers/WorkloadProvider.tsx:182-193 | the loop setting each non-null entry under its id computes SetAll |
| WorkloadProvider.ErrorResponseCallsBack | driver-frontend/src/Providers/WorkloadProvider.tsx:139-157 | an error response to a registered message calls its callback exactly once and leaves the workloads alone |
| TemplateSessions.PeakStep | driver-frontend/src/Components/Workloads/RegistrationForms/RegisterWorkloadFromTemplateForm.tsx:228-242 | one more training raises the running maximum exactly when it exceeds it |
| TemplateSessions.PeakIsMaximum | driver-frontend/src/Components/Workloads/RegistrationForms/RegisterWorkloadFromTemplateForm.tsx:221-242 | the running maximum bounds every value and is either -1 or one of them |
| TemplateSessions.CpusOf | driver-frontend/src/Components/Workloads/RegistrationForms/RegisterWorkloadFromTemplateForm.tsx:230 | the trainings' cpus, one per training, in order |
| TemplateSessions.MemoryOf | driver-frontend/src/Components/Workloads/RegistrationForms/RegisterWorkloadFromTemplateForm.tsx:234 | the trainings' memory, one per training, in order |
| TemplateSessions.VramOf | driver-frontend/src/Components/Workloads/RegistrationForms/RegisterWorkloadFromTemplateForm.tsx:238 | the trainings' vram, one per training, in order |
| TemplateSessions.GpuCountsOf | driver-frontend/src/Components/Workloads/RegistrationForms/RegisterWorkloadFromTemplateForm.tsx:242 | the trainings' GPU counts, one per training, in order |
| TemplateSessions.PeakRequestCoversTrainings | driver-frontend/src/Components/Workloads/RegistrationForms/RegisterWorkloadFromTemplateForm.tsx:221-252 | every training fits inside the maximum resource request, and with no trainings every amount is -1 |
| TemplateSessions.IndexTrainings | driver-frontend/src/Components/Workloads/RegistrationForms/RegisterWorkloadFromTemplateForm.tsx:225-252 | each training's index is set to its position and the running maxima give the peak request |
| TemplateSessions.TabTitles | driver-frontend/src/Components/Workloads/RegistrationForms/RegisterWorkloadFromTemplateForm.tsx:399-402 | one tab titled "Session k" for each k from 1 to the session count |
| TemplateSessions.TabTitleInjective | driver-frontend/src/Components/Workloads/RegistrationForms/RegisterWorkloadFromTemplateForm.tsx:401 | two tabs with the same title have the same number |
| TemplateSessions.TabTitlesDistinct | driver-frontend/src/Components/Workloads/RegistrationForms/RegisterWorkloadFromTemplateForm.tsx:399-402 | the tab titles are pairwise distinct |
| TemplateSessions.ActiveTabPastLastAsWritten | driver-frontend/src/Components/Workloads/RegistrationForms/RegisterWorkloadFromTemplateForm.tsx:406-410 | as written, an active tab equal to the session count is kept and points one past the last tab |
| TemplateSessions.ActiveTabAfterApplyAsWritten | driver-frontend/src/Components/Workloads/RegistrationForms/RegisterWorkloadFromTemplateForm.tsx:406-410 | the selection as written differs from the intended one exactly when the active tab equals the session count, and then it keeps that out-of-range tab (see Findings) |
| TemplateSessions.ActiveTabAfterApply | driver-frontend/src/Components/Workloads/RegistrationForms/RegisterWorkloadFromTemplateForm.tsx:406-410 | an active tab that still exists is kept and one that no longer exists gives way to the right-most tab, so the active tab is always a real tab |
| TemplateSessions.RemoveNamed | driver-frontend/src/Components/Workloads/RegistrationForms/RegisterWorkloadFromTemplateForm.tsx:184-197 | a file stays exactly when its name is not among those removed |
| TemplateSessions.RemoveNamedKeepsOrder | driver-frontend/src/Components/Workloads/RegistrationForms/RegisterWorkloadFromTemplateForm.tsx:184-197 | removal distributes over concatenation, so the kept files keep their order |
| TemplateSessions.RemoveNamedUnmatched | driver-frontend/src/Components/Workloads/RegistrationForms/RegisterWorkloadFromTemplateForm.tsx:184-197 | removing names no file carries changes nothing |
| TemplateRegistrationForm.IndexedAll | driver-frontend/src/Components/Workloads/RegistrationForms/RegisterWorkloadFromTemplateForm.tsx:225-227 | numbering keeps the number of trainings |
| TemplateRegistrationForm.PreparedSessionMeetsRequest | driver-frontend/src/Components/Workloads/RegistrationForms/RegisterWorkloadFromTemplateForm.tsx:213-261 | each prepared session keeps its trainings, numbered by position; its event count is filled in only when it was 0 and there are trainings; the maximum request covers every training; the current request is all zero for ANY_GPU |
| TemplateRegistrationForm.PrepareSessions | driver-frontend/src/Components/Workloads/RegistrationForms/RegisterWorkloadFromTemplateForm.tsx:212-262 | every session is prepared, in order |
| TemplateRegistrationForm.RegisterWorkloadFromTemplateForm.constructor | driver-frontend/src/Components/Workloads/RegistrationForms/RegisterWorkloadFromTemplateForm.tsx:104-123 | the given tabs, no JSON mode, no sessions, no template, no files and nothing confirmed |
| TemplateRegistrationForm.RegisterWorkloadFromTemplateForm.SelectPreloadedTemplate | driver-frontend/src/Components/Workloads/RegistrationForms/RegisterWorkloadFromTemplateForm.tsx:555-560 | only the selected template changes |
| TemplateRegistrationForm.RegisterWorkloadFromTemplateForm.ParseData | driver-frontend/src/Components/Workloads/RegistrationForms/RegisterWorkloadFromTemplateForm.tsx:199-302 | the request registers a template under the given message id, or a fresh one; sessions are prepared, or empty for a large preloaded template whose file path is sent instead; an empty seed is 0; the other fields are copied from the form |
| TemplateRegistrationForm.RegisterWorkloadFromTemplateForm.OnSubmitTemplate | driver-frontend/src/Components/Workloads/RegistrationForms/RegisterWorkloadFromTemplateForm.tsx:329-342 | one confirmation is added, carrying the workload title, the fresh message id, and the request parseData builds from the form under that id: prepared sessions (none for a large preloaded template, whose path is sent instead), the seed read from its text, and the other fields copied |
| TemplateRegistrationForm.RegisterWorkloadFromTemplateForm.RemoveFiles | driver-frontend/src/Components/Workloads/RegistrationForms/RegisterWorkloadFromTemplateForm.tsx:184-197 | both file lists lose exactly the named files and keep the others in order |
| TemplateRegistrationForm.RegisterWorkloadFromTemplateForm.ApplyJsonToFormAsWritten | driver-frontend/src/Components/Workloads/RegistrationForms/RegisterWorkloadFromTemplateForm.tsx:393-413 | one tab per session, the next tab number after them, and the active tab moved only when it is beyond the session count |
| TemplateRegistrationForm.RegisterWorkloadFromTemplateForm.ApplyJsonToForm | driver-frontend/src/Components/Workloads/RegistrationForms/RegisterWorkloadFromTemplateForm.tsx:393-413 | one tab per session, the next tab number after them, and an active tab that no longer exists replaced by the right-most one, so it indexes a real tab |
| TemplateRegistrationForm.ActiveTabPastEndAsWritten | driver-frontend/src/Components/Workloads/RegistrationForms/RegisterWorkloadFromTemplateForm.tsx:406-410 | with two sessions applied while the third tab is active, the selection stays at index 2 as written and becomes 1 once corrected |
| TemplateModal.PreparedSessionMeetsRequest | driver-frontend/src/Components/Modals/NewWorkloadFromTemplateModal/NewWorkloadFromTemplateModal.tsx:166-203 | each prepared session keeps its trainings, numbered by position, and its event count; its request for Any_GPU covers every training, with -1 everywhere when there are none |
| TemplateModal.PrepareSessions | driver-frontend/src/Components/Modals/NewWorkloadFromTemplateModal/NewWorkloadFromTemplateModal.tsx:166-203 | every session is prepared, in order |
| TemplateModal.ParseData | driver-frontend/src/Components/Modals/NewWorkloadFromTemplateModal/NewWorkloadFromTemplateModal.tsx:158-233 | the request registers a template under a fresh message id with every session prepared, an empty seed read as 0, and the title, logging flag and timescale factor copied from the form |
| TemplateModal.NewWorkloadFromTemplateModal.constructor | driver-frontend/src/Components/Modals/NewWorkloadFromTemplateModal/NewWorkloadFromTemplateModal.tsx:79-92 | the given tabs, no JSON mode, no sessions, no files and nothing confirmed |
| TemplateModal.NewWorkloadFromTemplateModal.OnSubmit | driver-frontend/src/Components/Modals/NewWorkloadFromTemplateModal/NewWorkloadFromTemplateModal.tsx:235-239 | one confirmation is added, carrying the workload title and the request parseData builds from the data: a template registration under the fresh message id with every session prepared, the seed read from its text, and the title, logging flag and timescale factor copied |
| TemplateModal.NewWorkloadFromTemplateModal.RemoveFiles | driver-frontend/src/Components/Modals/NewWorkloadFromTemplateModal/NewWorkloadFromTemplateModal.tsx:143-156 | both file lists lose exactly the named files and keep the others in order |
| TemplateModal.NewWorkloadFromTemplateModal.ApplyJsonToFormAsWritten | driver-frontend/src/Components/Modals/NewWorkloadFromTemplateModal/NewWorkloadFromTemplateModal.tsx:290-311 | one tab per session, the next tab number after them, and the active tab moved only when it is beyond the session count |
| TemplateModal.NewWorkloadFromTemplateModal.ApplyJsonToForm | driver-frontend/src/Components/Modals/NewWorkloadFromTemplateModal/NewWorkloadFromTemplateModal.tsx:290-311 | one tab per session, the next tab number after them, and an active tab that no longer exists replaced by the right-most one, so it indexes a real tab |
| TemplateModal.ActiveTabPastEndAsWritten | driver-frontend/src/Components/Modals/NewWorkloadFromTemplateModal/NewWorkloadFromTemplateModal.tsx:306-308 | with one session applied while the second tab is active, the selection stays at index 1 as written and becomes 0 once corrected |
| SessionTabContent.VramValidation | driver-frontend/src/Components/Modals/NewWorkloadFromTemplateModal/SessionConfigurationFormTabContent.tsx:126-135 | VRAM is accepted iff it lies between 0 and 4 GB per GPU, where 0 GPUs count as one |
| SessionTabContent.TrainingStartTickValidation | driver-frontend/src/Components/Modals/NewWorkloadFromTemplateModal/SessionConfigurationFormTabContent.tsx:137-148 | a start tick is accepted iff it is not negative, not before the session starts and leaves the training's duration before the session stops |
| SessionTabContent.ValidStartTickFitsSession | driver-frontend/src/Components/Modals/NewWorkloadFromTemplateModal/SessionConfigurationFormTabContent.tsx:137-148 | a training with an accepted start tick runs entirely inside its session |
| SessionTabContent.GpusValidation | driver-frontend/src/Components/Modals/NewWorkloadFromTemplateModal/SessionConfigurationFormTabContent.tsx:162-180 | success for a valid count up to 8, a warning from 9 to 16, and an error for a field breaking its rules, a negative count or one above 16 |
| SessionTabContent.GpusValidationUnderRules | driver-frontend/src/Components/Modals/NewWorkloadFromTemplateModal/SessionConfigurationFormTabContent.tsx:162-180 | under the field's own rules (0 to 16, required) a count is an error exactly when it is out of range |
| SessionTabContent.SessionTab.constructor | driver-frontend/src/Components/Modals/NewWorkloadFromTemplateModal/SessionConfigurationFormTabContent.tsx:59-95 | the tab holds the given training events, GPU count, utilisations and VRAM |
| SessionTabContent.SessionTab.OnNumTrainingEventsChanged | driver-frontend/src/Components/Modals/NewWorkloadFromTemplateModal/SessionConfigurationFormTabContent.tsx:339-371 | a negative count becomes 0, and the training-event fields grow or shrink from the end to exactly that count |
| SessionTabContent.SessionTab.OnNumGpusChanged | driver-frontend/src/Components/Modals/NewWorkloadFromTemplateModal/SessionConfigurationFormTabContent.tsx:576-606 | the utilisation fields grow with the default utilisation or shrink from the end to exactly the typed count, keeping the existing ones |
| SessionTabContent.SessionTab.OnGpusMinus | driver-frontend/src/Components/Modals/NewWorkloadFromTemplateModal/SessionConfigurationFormTabContent.tsx:609-618 | the count drops by one but not below 0, and the last utilisation field always goes |
| SessionTabContent.SessionTab.OnGpusPlus | driver-frontend/src/Components/Modals/NewWorkloadFromTemplateModal/SessionConfigurationFormTabContent.tsx:620-632 | the count rises by one but not above 16, while a field is always appended, so at the limit there are more fields than GPUs |
| SessionTabContent.SessionTab.OnVramMinus | driver-frontend/src/Components/Modals/NewWorkloadFromTemplateModal/SessionConfigurationFormTabContent.tsx:776-789 | VRAM drops by 0.125 GB, clamped into the range VramValidation accepts |
| SessionTabContent.SessionTab.OnVramPlus | driver-frontend/src/Components/Modals/NewWorkloadFromTemplateModal/SessionConfigurationFormTabContent.tsx:790-802 | VRAM rises by 0.125 GB, clamped into the range VramValidation accepts |
| SessionTabContent.PlusAtLimit | driver-frontend/src/Components/Modals/NewWorkloadFromTemplateModal/SessionConfigurationFormTabContent.tsx:620-632 | pressing plus at 16 GPUs keeps the count at 16 but leaves 17 utilisation fields |
| PresetRegistrationForm.RegisterWorkloadFromPresetForm.constructor | driver-frontend/src/Components/Workloads/RegistrationForms/RegisterWorkloadFromPresetForm.tsx:57-65 | an empty, valid title and seed, sample 1.0, timescale 0.05, no preset, debug logging on and nothing submitted |
| PresetRegistrationForm.RegisterWorkloadFromPresetForm.HandleWorkloadTitleChanged | driver-frontend/src/Components/Workloads/RegistrationForms/RegisterWorkloadFromPresetForm.tsx:82-85 | the title is stored, and it is valid iff it has at most 36 characters |
| PresetRegistrationForm.RegisterWorkloadFromPresetForm.HandleWorkloadSeedChanged | driver-frontend/src/Components/Workloads/RegistrationForms/RegisterWorkloadFromPresetForm.tsx:87-116 | the seed becomes SeedChanged of the typed text |
| PresetRegistrationForm.RegisterWorkloadFromPresetForm.SelectPreset | driver-frontend/src/Components/Workloads/RegistrationForms/RegisterWorkloadFromPresetForm.tsx:122-131 | the preset at the chosen index is selected, and no index or one outside the list selects nothing |
| PresetRegistrationForm.RegisterWorkloadFromPresetForm.IsSubmitButtonDisabled | driver-frontend/src/Components/Workloads/RegistrationForms/RegisterWorkloadFromPresetForm.tsx:146-167 | submission is blocked iff the user is logged out, there are no presets, the title or seed is invalid, no preset is chosen or the timescale factor is not in (0, 10]; the sample percentage is not consulted |
| PresetRegistrationForm.RegisterWorkloadFromPresetForm.OnSubmitWorkload | driver-frontend/src/Components/Workloads/RegistrationForms/RegisterWorkloadFromPresetForm.tsx:171-198 | when logged in with neither number blank, one submission goes out with the title (or the default UUID when empty), the preset as selected, the seed text and both numbers, and the preset, seed text and title are cleared while a new default title is drawn; from an enabled button the submission carries a preset and a timescale in (0, 10]; otherwise nothing changes |
| PresetRegistrationForm.RegisterWorkloadFromPresetForm.OnSampleMinus | driver-frontend/src/Components/Workloads/RegistrationForms/RegisterWorkloadFromPresetForm.tsx:222 | the sample percentage drops by a hundredth from its value (0 when empty) |
| PresetRegistrationForm.RegisterWorkloadFromPresetForm.OnSamplePlusAsWritten | driver-frontend/src/Components/Workloads/RegistrationForms/RegisterWorkloadFromPresetForm.tsx:227 | as written, the sample percentage becomes the timescale factor plus a hundredth |
| PresetRegistrationForm.RegisterWorkloadFromPresetForm.OnSamplePlus | driver-frontend/src/Components/Workloads/RegistrationForms/RegisterWorkloadFromPresetForm.tsx:227 | the sample percentage rises by a hundredth, the inverse of the minus button |
| PresetRegistrationForm.SampleMinusPlusRestores | driver-frontend/src/Components/Workloads/RegistrationForms/RegisterWorkloadFromPresetForm.tsx:222-227 | minus then the corrected plus gives back any numeric sample percentage |
| PresetRegistrationForm.SamplePlusAsWritten | driver-frontend/src/Components/Workloads/RegistrationForms/RegisterWorkloadFromPresetForm.tsx:227 | with sample 0.5 and the default timescale 0.05, plus gives 0.06 as written and 0.51 once corrected |
| CreateKernels.DefaultsParse | driver-frontend/src/Components/Modals/CreateKernelsModal.tsx:39-42 | the default texts read as 100 millicpus, 1 GPU, 1 GB of VRAM and 1250 MB |
| CreateKernels.UnreadableAcceptedAsWritten | driver-frontend/src/Components/Modals/CreateKernelsModal.tsx:224-237 | as written, text parseInt cannot read, such as ".5", passes a count field's check |
| CreateKernels.RangeValidationAsWritten | driver-frontend/src/Components/Modals/CreateKernelsModal.tsx:224-237 | the count check as written is an error exactly when parseInt reads a value outside 1..max; empty and unreadable text both pass (see Findings) |
| CreateKernels.RangeValidation | driver-frontend/src/Components/Modals/CreateKernelsModal.tsx:212-237 | the intended count check (see Findings): empty text and a readable value in 1..max are accepted; unreadable text and values outside are errors |
| CreateKernels.RangeValidationAgreesOnNumbers | driver-frontend/src/Components/Modals/CreateKernelsModal.tsx:212-237 | the corrected check agrees with the written one on every readable or empty text |
| CreateKernels.GpuValidationAsWritten | driver-frontend/src/Components/Modals/CreateKernelsModal.tsx:395-425 | as written, non-empty text parseInt cannot read passes the GPU check |
| CreateKernels.GpuValidationAgreesOnNumbers | driver-frontend/src/Components/Modals/CreateKernelsModal.tsx:395-425 | the intended GPU check agrees with the written one on every readable or empty text |
| CreateKernels.GpuValidation | driver-frontend/src/Components/Modals/CreateKernelsModal.tsx:397-425 | the intended GPU check (see Findings): success for empty text or 1 to 8, a warning above 8, an error for 0 or less and for unreadable text |
| CreateKernels.UnreadableVramAsWritten | driver-frontend/src/Components/Modals/CreateKernelsModal.tsx:119-122 | as written, unreadable VRAM text stays NaN because the NaN test asks about the map |
| CreateKernels.VramSpecAsWritten | driver-frontend/src/Components/Modals/CreateKernelsModal.tsx:119-122 | the VRAM sent as written agrees with the intended fallback whenever it is a number, and is NaN only for entered text that parseInt cannot read (see Findings) |
| CreateKernels.UntouchedKernelGetsDefaults | driver-frontend/src/Components/Modals/CreateKernelsModal.tsx:108-127 | a kernel whose fields were never touched (`KernelSpec` of empty field maps) gets 100 millicpus, 1250 MB, 1 GPU and 1 GB of VRAM |
| CreateKernels.UnreadableFallsBack | driver-frontend/src/Components/Modals/CreateKernelsModal.tsx:109-126 | unreadable text falls back to the field's default amount, as the CPU, GPU and memory fields do and the VRAM field is meant to |
| CreateKernels.CreateKernelsModal.constructor | driver-frontend/src/Components/Modals/CreateKernelsModal.tsx:45-64 | one kernel, the first selected, every indicator default and every field and id map empty |
| CreateKernels.CreateKernelsModal.IsSomeFieldInvalid | driver-frontend/src/Components/Modals/CreateKernelsModal.tsx:172-182 | confirming is blocked iff CPU, memory or the count is in error or warning, or the GPUs are in error; VRAM is not consulted |
| CreateKernels.CreateKernelsModal.OnNumKernelsChanged | driver-frontend/src/Components/Modals/CreateKernelsModal.tsx:210-242 | empty means one kernel with the first selected; a count in 1..128 is taken and pulls the selection back inside it; anything else is an error that keeps the count; the indicator is the intended RangeValidation (see Findings) |
| CreateKernels.CreateKernelsModal.SelectKernel | driver-frontend/src/Components/Modals/CreateKernelsModal.tsx:99-101 | the chosen existing kernel becomes the selected one |
| CreateKernels.CreateKernelsModal.OnCpusChanged | driver-frontend/src/Components/Modals/CreateKernelsModal.tsx:316-340 | the selected kernel's CPU text is stored and checked against 1..128000 by the intended check, which rejects unreadable text (see Findings) |
| CreateKernels.CreateKernelsModal.OnMemoryChanged | driver-frontend/src/Components/Modals/CreateKernelsModal.tsx:358-380 | the selected kernel's memory text is stored and checked against 1..16384 by the intended check, which rejects unreadable text (see Findings) |
| CreateKernels.CreateKernelsModal.OnGpusChanged | driver-frontend/src/Components/Modals/CreateKernelsModal.tsx:395-425 | the selected kernel's GPU text is stored and checked by the intended GpuValidation, which rejects unreadable text (see Findings) |
| CreateKernels.CreateKernelsModal.OnVramChanged | driver-frontend/src/Components/Modals/CreateKernelsModal.tsx:455-477 | the selected kernel's VRAM text is stored and checked against 1..40 by the intended check, which rejects unreadable text (see Findings); the result never changes whether confirming is blocked |
| CreateKernels.CreateKernelsModal.BuildKernels | driver-frontend/src/Components/Modals/CreateKernelsModal.tsx:108-139 | one spec, kernel id and session id per kernel, each field falling back to its default (for VRAM, the intended fallback of the Findings row for lines 119-122) and each id to a fresh UUID |
| CreateKernels.IdList | driver-frontend/src/Components/Modals/CreateKernelsModal.tsx:137-138 | one id per kernel, in order: the id entered for that kernel, or a fresh one when none was entered or it is empty |
| CreateKernels.KernelSpecsGrow | driver-frontend/src/Components/Modals/CreateKernelsModal.tsx:108-136 | the specs of one more kernel are the earlier specs followed by that kernel's spec |
| CreateKernels.CreateKernelsModal.ClearResourceFields | driver-frontend/src/Components/Modals/CreateKernelsModal.tsx:144-150 | the CPU, memory and GPU indicators are reset and every resource field emptied |
| CreateKernels.CreateKernelsModal.ResetKernelCount | driver-frontend/src/Components/Modals/CreateKernelsModal.tsx:151-169 | one kernel, selected, with no typed ids |
| CreateKernels.CreateKernelsModal.OnConfirmClicked | driver-frontend/src/Components/Modals/CreateKernelsModal.tsx:103-170 | one confirmation carries a spec, kernel id and session id for every kernel, unreadable VRAM falling back as intended (see Findings); the form is then reset to one kernel with empty fields, leaving the VRAM indicator as it was |
| CreateKernels.UnreadableCountAsWritten | driver-frontend/src/Components/Modals/CreateKernelsModal.tsx:224-238 | on ".5" the count indicator turns green as written and the count becomes NaN, while the corrected check reports an error and keeps the count at 1 |
| CreateKernels.UnreadableFieldsAsWritten | driver-frontend/src/Components/Modals/CreateKernelsModal.tsx:316-477 | on ".5" the CPU, memory, GPU and VRAM indicators all turn green as written, while the intended handlers report an error |
| FormValidation.DigitsReadSnoc | driver-frontend/src/Components/Workloads/RegistrationForms/RegisterWorkloadFromPresetForm.tsx:99 | one more digit at the end of the run shifts what parseInt reads by one decimal place |
| FormValidation.DigitsReadNatToDigits | driver-frontend/src/Components/Workloads/RegistrationForms/RegisterWorkloadFromPresetForm.tsx:99 | the digits of a number, followed by anything but a digit, read back as that number |
| FormValidation.JsParseIntReadsDigits | driver-frontend/src/Components/Workloads/RegistrationForms/RegisterWorkloadFromPresetForm.tsx:99 | parseInt (`JsParseInt`) reads a number's decimal spelling back, ignoring what follows it |
| FormValidation.JsParseIntNegative | driver-frontend/src/Components/Workloads/RegistrationForms/RegisterWorkloadFromPresetForm.tsx:99 | parseInt reads a minus sign in front of the digits |
| FormValidation.JsParseIntWithoutDigits | driver-frontend/src/Components/Workloads/RegistrationForms/RegisterWorkloadFromPresetForm.tsx:99 | text without any digit is NaN |
| FormValidation.SeedChanged | driver-frontend/src/Components/Workloads/RegistrationForms/RegisterWorkloadFromPresetForm.tsx:87-116 | text without a digit is rejected and cleared while the empty text is accepted; an accepted non-empty seed is canonical; a rejected one is cleared or kept as typed |
| FormValidation.SeedChangedAcceptsCanonical | driver-frontend/src/Components/Workloads/RegistrationForms/RegisterWorkloadFromPresetForm.tsx:99-115 | a canonical decimal in [0, 2^31 - 1] is accepted and stored unchanged |
| FormValidation.SeedChangedDropsTrailingText | driver-frontend/src/Components/Workloads/RegistrationForms/RegisterWorkloadFromPresetForm.tsx:99-115 | text after the digits is dropped: "12abc" is stored as "12" |
| FormValidation.SeedChangedRejectsLarge | driver-frontend/src/Components/Workloads/RegistrationForms/RegisterWorkloadFromPresetForm.tsx:107-111 | a number above 2^31 - 1 is rejected and its text kept |
| FormValidation.SeedChangedRejectsNegative | driver-frontend/src/Components/Workloads/RegistrationForms/RegisterWorkloadFromPresetForm.tsx:107-111 | a negative number is rejected and its text kept |
| FormValidation.SeedChangedIdempotent | driver-frontend/src/Components/Workloads/RegistrationForms/RegisterWorkloadFromPresetForm.tsx:87-116 | feeding an accepted seed's text back into the handler changes nothing |
| FormValidation.SeedIndicator | driver-frontend/src/Components/Workloads/RegistrationForms/RegisterWorkloadFromPresetForm.tsx:134-144 | red exactly for an invalid seed, green exactly for a valid non-empty one, never a warning |
| FormValidation.SeedIndicatorSuccessIsCanonical | driver-frontend/src/Components/Workloads/RegistrationForms/RegisterWorkloadFromPresetForm.tsx:87-144 | after any edit a green seed indicator means a canonical seed in range |
| FormValidation.SeedValue | driver-frontend/src/Components/Workloads/RegistrationForms/RegisterWorkloadFromTemplateForm.tsx:265-268 | an empty seed is 0 and a canonical one is what parseInt reads |
| FormValidation.SeedValueOfCanonical | driver-frontend/src/Components/Workloads/RegistrationForms/RegisterWorkloadFromTemplateForm.tsx:265-268 | the request carries the number whose canonical text the field holds |
| FormValidation.TitleIsValid | driver-frontend/src/Components/Workloads/RegistrationForms/RegisterWorkloadFromPresetForm.tsx:82-85 | a title is valid iff it has at most 36 characters, since the lower bound 0 always holds |
| FormValidation.SubmittedTitle | driver-frontend/src/Components/Workloads/RegistrationForms/RegisterWorkloadFromPresetForm.tsx:177-180 | a non-empty title is sent as typed; an empty one is replaced by the default UUID |
| FormValidation.NameValidation | driver-frontend/src/Components/Workloads/RegistrationForms/RegisterWorkloadFromTemplateForm.tsx:344-356 | default before the form loads, success iff the name has 1 to 36 characters, error otherwise |
| FormValidation.NameIsValid | driver-frontend/src/Components/Workloads/RegistrationForms/RegisterWorkloadFromTemplateForm.tsx:358-367 | a name is valid iff its indicator is not an error |
| FormValidation.PositiveUpTo | driver-frontend/src/Components/Workloads/RegistrationForms/RegisterWorkloadFromPresetForm.tsx:202-216 | success iff the field holds a number in (0, max]; empty and NaN are errors |
| FormValidation.TimescaleValidation | driver-frontend/src/Components/Workloads/RegistrationForms/RegisterWorkloadFromPresetForm.tsx:210-216 | the timescale factor is accepted iff it is a number in (0, 10] |
| FormValidation.SamplePercentValidation | driver-frontend/src/Components/Workloads/RegistrationForms/RegisterWorkloadFromPresetForm.tsx:202-208 | the sample percentage is accepted iff it is a number in (0, 1] |
| FormValidation.ValidSampleIsValidTimescale | driver-frontend/src/Components/Workloads/RegistrationForms/RegisterWorkloadFromPresetForm.tsx:202-216 | an accepted sample percentage also passes the timescale check |
| FormValidation.Clamp | driver-frontend/src/Components/Workloads/RegistrationForms/RegisterWorkloadFromTemplateForm.tsx:87-89 | within [min, max] when min <= max, and unchanged when already in range |
| FormValidation.ClampIdempotent | driver-frontend/src/Components/Workloads/RegistrationForms/RegisterWorkloadFromTemplateForm.tsx:87-89 | clamping twice is the same as clamping once |
| FormValidation.OrOne | driver-frontend/src/Components/Modals/NewWorkloadFromTemplateModal/SessionConfigurationFormTabContent.tsx:127 | a zero GPU count is read as one and any other count is kept |
| FormValidation.OrZero | driver-frontend/src/Components/Workloads/RegistrationForms/RegisterWorkloadFromPresetForm.tsx:222 | an empty or NaN field is read as 0 and a number is kept |
| FormValidation.Repeat | driver-frontend/src/Components/Modals/NewWorkloadFromTemplateModal/SessionConfigurationFormTabContent.tsx:582-592 | the appended fields: n copies of the default |
| FormValidation.Resized | driver-frontend/src/Components/Modals/NewWorkloadFromTemplateModal/SessionConfigurationFormTabContent.tsx:576-603 | typing a count n gives exactly n fields: existing fields keep their values and new ones take the default (none when n is negative) |
| FormValidation.ResizedToSameLength | driver-frontend/src/Components/Modals/NewWorkloadFromTemplateModal/SessionConfigurationFormTabContent.tsx:576-603 | typing the current count keeps the fields |
| FormValidation.ResizedGrowShrink | driver-frontend/src/Components/Modals/NewWorkloadFromTemplateModal/SessionConfigurationFormTabContent.tsx:576-603 | growing and then shrinking back restores the fields |
| FormValidation.RemoveLast | driver-frontend/src/Components/Modals/NewWorkloadFromTemplateModal/SessionConfigurationFormTabContent.tsx:617 | removing the last index drops the last field, and an empty array stays empty |
| FormValidation.ResizeFields | driver-frontend/src/Components/Modals/NewWorkloadFromTemplateModal/SessionConfigurationFormTabContent.tsx:576-603 | the append and remove loops compute Resized |
| WebRegisterModal.RegisterWorkloadModal.constructor | web/app/Components/Modals/RegisterWorkloadModal.tsx:56-63 | an empty, valid title and seed, no preset, debug logging on, timescale 1.0 and nothing submitted |
| WebRegisterModal.RegisterWorkloadModal.HandleWorkloadTitleChanged | web/app/Components/Modals/RegisterWorkloadModal.tsx:69-72 | the title is stored, and it is valid iff it has at most 36 characters |
| WebRegisterModal.RegisterWorkloadModal.HandleWorkloadSeedChanged | web/app/Components/Modals/RegisterWorkloadModal.tsx:74-103 | the seed becomes SeedChanged of the typed text |
| WebRegisterModal.RegisterWorkloadModal.SelectPreset | web/app/Components/Modals/RegisterWorkloadModal.tsx:109-122 | the preset at the chosen index is selected, and no index or one outside the list selects nothing |
| WebRegisterModal.RegisterWorkloadModal.IsSubmitButtonDisabled | web/app/Components/Modals/RegisterWorkloadModal.tsx:136-158 | submission is blocked iff there are no presets, the title or seed is invalid, no preset is chosen or the timescale factor is not in (0, 10] |
| WebRegisterModal.RegisterWorkloadModal.OnSubmitWorkload | web/app/Components/Modals/RegisterWorkloadModal.tsx:161-178 | unless the timescale is blank, one submission goes out with the title (or the default UUID), the preset as selected, the seed text and the timescale, and the form is cleared so the button is disabled again; from an enabled button the submission carries a preset and a timescale in (0, 10] |
| WebRegisterModal.RegisterWorkloadModal.OnTimescaleMinus | web/app/Components/Modals/RegisterWorkloadModal.tsx:454 | the timescale drops by a quarter from its value (0 when empty or NaN) |
| WebRegisterModal.RegisterWorkloadModal.OnTimescalePlus | web/app/Components/Modals/RegisterWorkloadModal.tsx:459 | the timescale rises by a quarter from its value (0 when empty or NaN) |
| WebRegisterModal.TimescaleMinusPlusRestores | web/app/Components/Modals/RegisterWorkloadModal.tsx:454-459 | plus undoes minus on any numeric timescale |
| WebRegisterModal.TimescaleMinusToZero | web/app/Components/Modals/RegisterWorkloadModal.tsx:180-186 | four presses of minus from the default 1.0 reach 0, which disables submission |
| WebSessionValidation.Plus | web/app/Components/Modals/NewWorkloadFromTemplateModal/SessionConfigurationForm.tsx:113 | a sum is a number exactly when both fields are numbers, and then it is their sum |
| WebSessionValidation.SessionStartValidation | web/app/Components/Modals/NewWorkloadFromTemplateModal/SessionConfigurationForm.tsx:88-102 | an empty start is an error and a missing training start or stop a warning; otherwise success iff the start is non-negative and before both the training start and the session stop |
| WebSessionValidation.SessionStopValidation | web/app/Components/Modals/NewWorkloadFromTemplateModal/SessionConfigurationForm.tsx:104-114 | an empty stop is an error and any other missing tick a warning; otherwise success iff the stop is non-negative and after the session start, the training start and the training's end |
| WebSessionValidation.TrainingStartValidation | web/app/Components/Modals/NewWorkloadFromTemplateModal/SessionConfigurationForm.tsx:116-126 | an empty training start is an error and any other missing tick a warning; otherwise success iff the training starts at or after 0, after the session starts, and ends before the session stops |
| WebSessionValidation.DurationValidation | web/app/Components/Modals/NewWorkloadFromTemplateModal/SessionConfigurationForm.tsx:128-138 | an empty duration is an error and any other missing tick a warning; otherwise success iff the duration is non-negative and the training ends before the session stops |
| WebSessionValidation.TickValidatorsAgreeWithOrder | web/app/Components/Modals/NewWorkloadFromTemplateModal/SessionConfigurationForm.tsx:88-138 | the four tick checks all succeed exactly on a well-ordered timeline |
| WebSessionValidation.OrderedTrainingInsideSession | web/app/Components/Modals/NewWorkloadFromTemplateModal/SessionConfigurationForm.tsx:88-138 | an accepted timeline keeps the whole training strictly inside the session |
| WebSessionValidation.CpuValidation | web/app/Components/Modals/NewWorkloadFromTemplateModal/SessionConfigurationForm.tsx:140-146 | the CPU field is accepted iff it is a number in [0, 100] |
| WebSessionValidation.MemoryValidation | web/app/Components/Modals/NewWorkloadFromTemplateModal/SessionConfigurationForm.tsx:148-154 | the memory field is accepted iff it is a number in [0, 128000] |
| WebSessionValidation.GpuCountValidation | web/app/Components/Modals/NewWorkloadFromTemplateModal/SessionConfigurationForm.tsx:156-162 | an empty GPU count is an error, one in [0, 8] a success, and anything else only a warning |
| WebSessionValidation.GpuUtilValidation | web/app/Components/Modals/NewWorkloadFromTemplateModal/SessionConfigurationForm.tsx:84-86 | the utilisation at an index is accepted iff the index exists and holds a number in [0, 100] |
| WebSessionValidation.SetGpuUtil | web/app/Components/Modals/NewWorkloadFromTemplateModal/SessionConfigurationForm.tsx:65-77 | only the entry at the index becomes the new value; an index outside the array changes nothing |
| WebSessionValidation.SetGpuUtilThenValidate | web/app/Components/Modals/NewWorkloadFromTemplateModal/SessionConfigurationForm.tsx:65-86 | after setting an entry, its check sees the new value and every other entry's check is unchanged |
| WebSessionValidation.Stepped | web/app/Components/Modals/NewWorkloadFromTemplateModal/SessionConfigurationForm.tsx:347-352 | a minus or plus button always leaves a number: the old value (0 when empty or NaN) plus the step |
| WebSessionValidation.SteppedRestores | web/app/Components/Modals/NewWorkloadFromTemplateModal/SessionConfigurationForm.tsx:347-352 | plus undoes minus once the field holds a number |
| WebSessionValidation.OrOneField | web/app/Components/Modals/NewWorkloadFromTemplateModal/SessionConfigurationForm.tsx:367 | an empty, NaN or zero GPU count is read as one |
| WebSessionValidation.GpuInputsShown | web/app/Components/Modals/NewWorkloadFromTemplateModal/SessionConfigurationForm.tsx:367 | between 1 and 8 utilisation inputs are shown: the whole part of a count in [1, 8], and 1 for a missing or smaller count |
| WebSessionForm.SessionConfigurationForm.constructor | web/app/Components/Modals/NewWorkloadFromTemplateModal/SessionConfigurationForm.tsx:38-61 | the form opens with an empty valid id, start 1, stop 6, training at 2 for 2, CPU 10, memory 0.25, one GPU and utilisations 100 then seven zeros |
| WebSessionForm.SessionConfigurationForm.HandleSessionIdChanged | web/app/Components/Modals/NewWorkloadFromTemplateModal/SessionConfigurationForm.tsx:79-82 | the id is stored, and it is valid iff it has at most 36 characters |
| WebSessionForm.SessionConfigurationForm.SetGpuUtilization | web/app/Components/Modals/NewWorkloadFromTemplateModal/SessionConfigurationForm.tsx:65-77 | the utilisations keep their length and only the entry at the index changes |
| WebSessionForm.SessionConfigurationForm.StepNumberOfGpus | web/app/Components/Modals/NewWorkloadFromTemplateModal/SessionConfigurationForm.tsx:347-352 | the GPU count becomes its value (0 when empty) plus the step |
| WebSessionForm.DefaultsValidate | web/app/Components/Modals/NewWorkloadFromTemplateModal/SessionConfigurationForm.tsx:38-61 | the form opens with every tick and resource check passing |
| WebSessionTab.SessionTab.constructor | web/app/Components/Modals/NewWorkloadFromTemplateModal/SessionConfigurationFormTabContent.tsx:35-49 | a new tab has no GPUs and no utilisation fields |
| WebSessionTab.SessionTab.OnNumGpusChanged | web/app/Components/Modals/NewWorkloadFromTemplateModal/SessionConfigurationFormTabContent.tsx:440-459 | the utilisation fields grow with 50% entries or shrink from the end to exactly the typed count, keeping the existing ones |
| WebSessionTab.SessionTab.OnGpusMinus | web/app/Components/Modals/NewWorkloadFromTemplateModal/SessionConfigurationFormTabContent.tsx:461-471 | the count drops by one but not below 0, and the last field always goes |
| WebSessionTab.SessionTab.OnGpusPlus | web/app/Components/Modals/NewWorkloadFromTemplateModal/SessionConfigurationFormTabContent.tsx:472-482 | the count rises by one but not above 8, while a 50% field is always appended, so at the limit there are more fields than GPUs |
| WebSessionTab.PlusMinusRestores | web/app/Components/Modals/NewWorkloadFromTemplateModal/SessionConfigurationFormTabContent.tsx:461-482 | below the limit, plus then minus gives back the same count and fields |
| WebSessionTab.PlusAtLimit | web/app/Components/Modals/NewWorkloadFromTemplateModal/SessionConfigurationFormTabContent.tsx:472-482 | plus at 8 GPUs keeps the count at 8 but leaves 9 utilisation fields |
| WebTemplateModal.NewWorkloadFromTemplateModal.constructor | web/app/Components/Modals/NewWorkloadFromTemplateModal.tsx:60-84 | the modal opens with an empty valid title and session id, an empty valid seed, the one template selected, debug logging on, ticks 4/16/8/4, 10 CPU, 0.25 GB, one GPU at utilisations [100, 0 x7], the given placeholder UUIDs and nothing submitted |
| WebTemplateModal.NewWorkloadFromTemplateModal.HandleWorkloadTitleChanged | web/app/Components/Modals/NewWorkloadFromTemplateModal.tsx:104-107 | the title is stored and is valid exactly when it has at most 36 characters |
| WebTemplateModal.NewWorkloadFromTemplateModal.HandleSessionIdChanged | web/app/Components/Modals/NewWorkloadFromTemplateModal.tsx:109-112 | the session id is stored and is valid exactly when it has at most 36 characters |
| WebTemplateModal.NewWorkloadFromTemplateModal.HandleWorkloadSeedChanged | web/app/Components/Modals/NewWorkloadFromTemplateModal.tsx:114-143 | the seed follows the shared seed-field rules (digits only, a non-negative 32-bit value, otherwise the old text stays and the field is flagged) |
| WebTemplateModal.NewWorkloadFromTemplateModal.SelectTemplate | web/app/Components/Modals/NewWorkloadFromTemplateModal.tsx:149-163 | an undefined choice selects the empty name; a choice selects that template, whose name is never empty |
| WebTemplateModal.NewWorkloadFromTemplateModal.SetGpuUtilization | web/app/Components/Modals/NewWorkloadFromTemplateModal.tsx:90-102 | only the chosen utilisation changes; the list keeps its length and every other entry |
| WebTemplateModal.NewWorkloadFromTemplateModal.StepNumberOfGpus | web/app/Components/Modals/NewWorkloadFromTemplateModal.tsx:826-832 | the GPU count becomes the blank-as-zero count plus the step |
| WebTemplateModal.NewWorkloadFromTemplateModal.CheckGpuUtilizations | web/app/Components/Modals/NewWorkloadFromTemplateModal.tsx:204-209 | the loop reports success exactly when each of the first count-or-one utilisations passes its 0-100 check |
| WebTemplateModal.NewWorkloadFromTemplateModal.CheckFields | web/app/Components/Modals/NewWorkloadFromTemplateModal.tsx:178-211 | the field checks block submission exactly when the title or seed is invalid, a tick or resource is blank, a tick, resource or GPU-count validator fails, or a shown utilisation fails |
| WebTemplateModal.NewWorkloadFromTemplateModal.IsSubmitButtonDisabledAsWritten | web/app/Components/Modals/NewWorkloadFromTemplateModal.tsx:177-212 | the button as written is disabled exactly when the field checks fail: the template test reads the setter's arity and never fires |
| WebTemplateModal.NewWorkloadFromTemplateModal.IsSubmitButtonDisabled | web/app/Components/Modals/NewWorkloadFromTemplateModal.tsx:177-212 | the button is disabled exactly when no template is selected or the field checks fail |
| WebTemplateModal.NewWorkloadFromTemplateModal.DefaultsPassFieldChecks | web/app/Components/Modals/NewWorkloadFromTemplateModal.tsx:60-84 | a modal at its opening values passes every field check |
| WebTemplateModal.NewWorkloadFromTemplateModal.ResetSubmissionForm | web/app/Components/Modals/NewWorkloadFromTemplateModal.tsx:359-384 | every field returns to its opening value, no template stays selected, new placeholder UUIDs are in place and the submissions are kept |
| WebTemplateModal.NewWorkloadFromTemplateModal.ResetNamingFields | web/app/Components/Modals/NewWorkloadFromTemplateModal.tsx:359-384 | the title, session id, seed, template and logging fields return to their opening values and the placeholders are replaced |
| WebTemplateModal.NewWorkloadFromTemplateModal.ResetSessionFields | web/app/Components/Modals/NewWorkloadFromTemplateModal.tsx:359-384 | the ticks, CPU, memory, GPU count and utilisations return to their opening values |
| WebTemplateModal.NewWorkloadFromTemplateModal.SubmittedTemplate | web/app/Components/Modals/NewWorkloadFromTemplateModal.tsx:245-270 | the template carries the selected name and exactly one session with exactly one training, both with the session id, the ticks, CPU, memory, GPU count and all utilisations of the form |
| WebTemplateModal.NewWorkloadFromTemplateModal.OnSubmitWorkload | web/app/Components/Modals/NewWorkloadFromTemplateModal.tsx:224-278 | a submission is sent exactly when no resource or tick is blank; it carries the title or placeholder, seed text, logging flag and template, and leaves the form at its opening values with fields that pass every check; otherwise nothing changes |
| WebTemplateModal.EmptyTemplateAsWritten | web/app/Components/Modals/NewWorkloadFromTemplateModal.tsx:182 | after a submission the template name is empty, yet the button as written is enabled while the intended test disables it |
| WebSessionsModal.At | web/app/Components/Modals/NewWorkloadFromTemplateModal/NewWorkloadFromTemplateModal.tsx:391-392 | reading a tick or resource array at an index yields a number exactly when the array exists and the index is inside it, and then that entry |
| WebSessionsModal.ViolationsOfNumbers | web/app/Components/Modals/NewWorkloadFromTemplateModal/NewWorkloadFromTemplateModal.tsx:381-451 | on four numbers, each loop's bound is broken exactly when the single-session ordering it encodes fails |
| WebSessionsModal.MissingSessionNeverViolates | web/app/Components/Modals/NewWorkloadFromTemplateModal/NewWorkloadFromTemplateModal.tsx:381-451 | a session with no entry in any tick array breaks no bound, because undefined fails every comparison, although the single-session check rejects it |
| WebSessionsModal.VerdictsAgreeWithSingleSession | web/app/Components/Modals/NewWorkloadFromTemplateModal/NewWorkloadFromTemplateModal.tsx:381-451 | with an entry for every session, each tick validator (the training one as intended) succeeds exactly when the single-session validator succeeds for every session |
| WebSessionsModal.SessionViolationMeansFailure | web/app/Components/Modals/NewWorkloadFromTemplateModal/NewWorkloadFromTemplateModal.tsx:381-451 | for a session with all four ticks, each loop's bound is broken exactly when its single-session validator fails |
| WebSessionsModal.VerdictsMeanOrderedSessions | web/app/Components/Modals/NewWorkloadFromTemplateModal/NewWorkloadFromTemplateModal.tsx:381-451 | with an entry for every session, all four tick validators succeed exactly when every session's start, training, training end and stop are in order |
| WebSessionsModal.ResourceVerdictsAgreeWithSingleSession | web/app/Components/Modals/NewWorkloadFromTemplateModal/NewWorkloadFromTemplateModal.tsx:453-493 | with an entry for every session, the CPU, memory and GPU-count validators succeed exactly when every session's value passes the single-session check |
| WebSessionsModal.SomeSessionViolates | web/app/Components/Modals/NewWorkloadFromTemplateModal/NewWorkloadFromTemplateModal.tsx:389-393 | the per-session loop reports a violation exactly when some session below the tab count breaks the bound |
| WebSessionsModal.SessionIdentifier | web/app/Components/Modals/NewWorkloadFromTemplateModal/NewWorkloadFromTemplateModal.tsx:322 | the sent session id is the typed one, or the placeholder UUID when nothing was typed |
| WebSessionsModal.WrittenRow | web/app/Components/Modals/NewWorkloadFromTemplateModal/NewWorkloadFromTemplateModal.tsx:148 | an in-place write at a negative index leaves the row alone; otherwise it sets that entry, keeps every other one and pads a grown row with undefined |
| WebSessionsModal.RemoveAt | web/app/Components/Modals/NewWorkloadFromTemplateModal/NewWorkloadFromTemplateModal.tsx:126 | closing a tab removes exactly that entry and keeps the others in order; an index outside the list removes nothing |
| WebSessionsModal.NextActiveTab | web/app/Components/Modals/NewWorkloadFromTemplateModal/NewWorkloadFromTemplateModal.tsx:115-125 | after closing another tab the selection stays on the same tab at its new index, and it always stays inside the remaining tabs |
| WebSessionsModal.CloseKeepsSelectedTab | web/app/Components/Modals/NewWorkloadFromTemplateModal/NewWorkloadFromTemplateModal.tsx:115-127 | closing any tab other than the selected one leaves the selection index on the very tab that was selected before |
| WebSessionsModal.RemoveAtKeepsRising | web/app/Components/Modals/NewWorkloadFromTemplateModal/NewWorkloadFromTemplateModal.tsx:115-133 | closing a tab keeps the tab numbers strictly rising and below the next number to hand out |
| WebSessionsModal.RemoveAtKeepsTitles | web/app/Components/Modals/NewWorkloadFromTemplateModal/NewWorkloadFromTemplateModal.tsx:115-133 | closing a tab keeps every remaining title equal to "Session" and its number |
| WebSessionsModal.NewWorkloadFromTemplateModal.constructor | web/app/Components/Modals/NewWorkloadFromTemplateModal/NewWorkloadFromTemplateModal.tsx:64-105 | the modal opens with one tab "Session 1" selected, the next tab number 2, one session of ticks 1/6/2/2, 10 CPU, 0.25 GB, one GPU at [100, 0 x7], timescale 0.1 and empty valid title, session id and seed |
| WebSessionsModal.NewWorkloadFromTemplateModal.TabTitlesUnique | web/app/Components/Modals/NewWorkloadFromTemplateModal/NewWorkloadFromTemplateModal.tsx:115-133 | no two tabs ever share a title |
| WebSessionsModal.NewWorkloadFromTemplateModal.OnSessionTabSelect | web/app/Components/Modals/NewWorkloadFromTemplateModal/NewWorkloadFromTemplateModal.tsx:109-113 | the chosen tab becomes the selected one |
| WebSessionsModal.NewWorkloadFromTemplateModal.OnCloseSessionTab | web/app/Components/Modals/NewWorkloadFromTemplateModal/NewWorkloadFromTemplateModal.tsx:115-127 | the closed tab goes, tab titles stay unique, and the selection follows the tab it was on unless that tab closed |
| WebSessionsModal.NewWorkloadFromTemplateModal.OnAddSessionTab | web/app/Components/Modals/NewWorkloadFromTemplateModal/NewWorkloadFromTemplateModal.tsx:129-133 | a tab with a title not used before is appended and selected, and the next tab number moves on |
| WebSessionsModal.NewWorkloadFromTemplateModal.HandleWorkloadTitleChanged | web/app/Components/Modals/NewWorkloadFromTemplateModal/NewWorkloadFromTemplateModal.tsx:153-156 | the title is stored and is valid exactly when it has at most 36 characters |
| WebSessionsModal.NewWorkloadFromTemplateModal.HandleSessionIdChanged | web/app/Components/Modals/NewWorkloadFromTemplateModal/NewWorkloadFromTemplateModal.tsx:158-161 | the session id is stored and is valid exactly when it has at most 36 characters |
| WebSessionsModal.NewWorkloadFromTemplateModal.HandleWorkloadSeedChanged | web/app/Components/Modals/NewWorkloadFromTemplateModal/NewWorkloadFromTemplateModal.tsx:163-192 | the seed follows the shared seed-field rules (digits only, a non-negative 32-bit value, otherwise the old text stays and the field is flagged) |
| WebSessionsModal.NewWorkloadFromTemplateModal.ValidateTimescaleAdjustmentFactor | web/app/Components/Modals/NewWorkloadFromTemplateModal/NewWorkloadFromTemplateModal.tsx:214-220 | the timescale is accepted exactly when it is a number in (0, 10] |
| WebSessionsModal.NewWorkloadFromTemplateModal.SetGpuUtilization | web/app/Components/Modals/NewWorkloadFromTemplateModal/NewWorkloadFromTemplateModal.tsx:145-151 | a write into a session that has a row changes only that row, as an in-place array write does; a session without a row throws and changes nothing |
| WebSessionsModal.NewWorkloadFromTemplateModal.ValidateGpuUtilInput | web/app/Components/Modals/NewWorkloadFromTemplateModal/NewWorkloadFromTemplateModal.tsx:495-497 | a session without a row throws; otherwise the input succeeds exactly when that entry is a number in [0, 100] |
| WebSessionsModal.NewWorkloadFromTemplateModal.ValidateSessionStartTickInput | web/app/Components/Modals/NewWorkloadFromTemplateModal/NewWorkloadFromTemplateModal.tsx:381-397 | the verdict is the session-start verdict over all tabs |
| WebSessionsModal.NewWorkloadFromTemplateModal.ValidateSessionStartStopInput | web/app/Components/Modals/NewWorkloadFromTemplateModal/NewWorkloadFromTemplateModal.tsx:399-415 | the verdict is the session-stop verdict over all tabs |
| WebSessionsModal.NewWorkloadFromTemplateModal.ValidateTrainingStartTickInputAsWritten | web/app/Components/Modals/NewWorkloadFromTemplateModal/NewWorkloadFromTemplateModal.tsx:417-433 | the verdict is the as-written training-start verdict, which returns success where a bound is broken |
| WebSessionsModal.NewWorkloadFromTemplateModal.ValidateTrainingStartTickInput | web/app/Components/Modals/NewWorkloadFromTemplateModal/NewWorkloadFromTemplateModal.tsx:417-433 | the verdict is the intended training-start verdict, an error when some session breaks a bound |
| WebSessionsModal.NewWorkloadFromTemplateModal.ValidateTrainingDurationInTicksInput | web/app/Components/Modals/NewWorkloadFromTemplateModal/NewWorkloadFromTemplateModal.tsx:435-451 | the verdict is the duration verdict over all tabs |
| WebSessionsModal.NewWorkloadFromTemplateModal.ValidateTrainingCpuInput | web/app/Components/Modals/NewWorkloadFromTemplateModal/NewWorkloadFromTemplateModal.tsx:453-465 | the verdict is the CPU verdict over all tabs: every session's CPU in [0, 100] |
| WebSessionsModal.NewWorkloadFromTemplateModal.ValidateTrainingMemoryUsageInput | web/app/Components/Modals/NewWorkloadFromTemplateModal/NewWorkloadFromTemplateModal.tsx:467-479 | the verdict is the memory verdict over all tabs: every session's memory in [0, 128000] GB |
| WebSessionsModal.NewWorkloadFromTemplateModal.ValidateNumberOfGpusInput | web/app/Components/Modals/NewWorkloadFromTemplateModal/NewWorkloadFromTemplateModal.tsx:481-493 | the verdict is the GPU-count verdict over all tabs: blank is an error, a count outside [0, 8] a warning |
| WebSessionsModal.TrainingAfterStopAsWritten | web/app/Components/Modals/NewWorkloadFromTemplateModal/NewWorkloadFromTemplateModal.tsx:417-433 | a training at tick 10 in a session that stops at tick 6 passes the validator as written and fails the intended one |
| WebSessionsModal.TrainingStartVerdictAsWritten | web/app/Components/Modals/NewWorkloadFromTemplateModal/NewWorkloadFromTemplateModal.tsx:417-433 | the training-start verdict as written is a success exactly when no tick is missing, and it differs from the intended verdict only by reporting success where that verdict is an error (see Findings) |

## Left out

- Concurrency. Goroutines, channels, mutexes, condition variables, the tick loops (`DriveWorkload`, `issueClockTicks`, `ProcessWorkload`, the client's `Run`), the server-push loop and its sleep, and the kernel's `serveMessages` and reconnect loops are outside the model. Operations are modelled one call at a time. The one mutex that decides behaviour, the server workload's `w.mu` in the sampling path, is a boolean field.
- Aliasing. Events, sessions and GPU records that Go shares by reference are values in the model, so two handles to one record cannot be told apart.
- I/O. The HTTP, gRPC, websocket, Jupyter REST, CSV, YAML and flag plumbing is outside the model, and so are JSON (un)marshalling and JSON merge patch. Operations take already-parsed values. Replies from Jupyter are parameters.
- Randomness, UUIDs and clocks are parameters: a stream of 63-bit words, a fresh UUID string, a draw, a time in milliseconds.
- Floating point is modelled with Dafny reals. This covers GPU utilisations, timescales, `RoundUp`, the generator's byte-to-GB and percentage rounding, and the decimal moving averages of the long-tick check. Rounding, overflow and precision above 2^53 are not modelled.
- Logging, metrics and toasts are left out, except the session-manager counters that the core keeps itself.
- The domain and server workloads' pause-time bookkeeping reads the clock and is left out.
- DomainWorkload.BasicWorkload.SessionCreated, DomainWorkload.BasicWorkload.SessionStopped and DomainWorkload.BasicWorkload.SetSessionDiscarded: the per-session template bookkeeping these forward to the workload instance is left out.
- ServerWorkload.BasicWorkload.SessionStopped: only the active-session count is modelled. The write to the session's entry in `sessionsMap` is left out: state SessionStopped, resource request zeroed. It goes through `WorkloadTemplateSession.SetState`, whose transition rules are not part of this model.
- ServerWorkload.BasicWorkload.TrainingSubmitted: only the submitted-training count is modelled. The write to the session's entry in `sessionsMap` is left out: state SessionTraining, resource request taken from the event's session metadata. The reason is the same as for SessionStopped.
- ServerWorkload.BasicWorkload.TrainingStopped: only the counters and the cumulative tick time are modelled. The write to the session's entry in `sessionsMap` is left out: state SessionIdle, completed-training count incremented, resource request taken from the event's session metadata. The reason is the same as for SessionStopped.
- The server workload is assumed to start from `NewStatistics`. Its construction around the statistics is not modelled.
- The GPU driver's goroutine plumbing, which feeds readings into `GPUUtil`, is left out. Only its per-pod bookkeeping is modelled.
- `CheckUsage`'s flag, YAML and CSV plumbing is left out. Only `NormalizeTracePaths`, `NormalizeDowntime` and the post-parse defaults are modelled.
- `NewKernelConnection`'s websocket setup is left out. Only the fields it initialises are modelled.
- The `msg_id` of `stopAllWorkloads` comes from a UUID. It is modelled as absent.
- The `parseData` try/catch and the JSON shape checks of both template forms are left out. The model starts from the parsed template.
- `+value` on a number input is modelled as a `NumberField` (blank, NaN or a number). JavaScript's fractional and exponent spellings of numbers are not modelled.
- In the web single-session modal, `assertGpuUtilizationsAreAllNumbers` indexes the validator function rather than calling it, so it never throws. The model drops the check.
- The web single-session modal submits the session id as typed, with all eight utilisations.
- The web multi-session modal's `isSubmitButtonDisabled` and `onSubmitWorkload` are not modelled. Its per-session arrays are not extended when a tab is added. `setGpuUtil` mutates the current array and returns the same reference, so React may not re-render; the model records only the write.
- The create-kernels modal's use of `ClampValue` and its placeholder id maps are not modelled, and neither are fractional kernel counts. The session configuration tab's use of `ClampValue` is modelled as `FormValidation.Clamp`.
- WebTemplateModal.NewWorkloadFromTemplateModal.SelectTemplate: requires a chosen index to name a listed template, because the dropdown offers only those.
- WorkloadDriver.GenerateWorkloadID: the random stream is finite in the model, so the source's probabilistic termination becomes a `None` result when the stream runs out.
- WorkloadClient.TimeoutBase: the network-latency term of `getTimeoutInterval`, used when a scheduling policy is set and both the remote storage definition and the resource request are present, is floating point and is not modelled; that case gives `None`.
- GoStrings.LowerChar: lowers ASCII letters only. Go's `strings.ToLower` also lowers non-ASCII letters (É to é); those are kept unchanged here.
- GoStrings.ToLower: built on LowerChar, so it shares the ASCII-only restriction. Workload types such as "preset" and "template" are ASCII.
- WorkloadConfiguration.Sprintf: models `fmt.Sprintf` with one string argument for a format whose only verb is a single `%s`. Go's `%%`, a second verb (`%!s(MISSING)`), other verbs (`%!d(string=...)`), flags and widths, and a trailing `%` (`%!(NOVERB)`) are not modelled.
- WorkloadConfiguration.SprintfFillsPlaceholder: stated for a prefix and a suffix without `%`, where the model agrees with Go.
- WorkloadConfiguration.WorkloadConfig.NormalizeTracePaths: the path is filled by the Sprintf above, so it matches Go only for a path whose one verb is `%s`, as the trace paths are.
- CreateKernels.RangeValidation: the intended check, which rejects text parseInt cannot read; the source accepts it (see Findings), and RangeValidationAsWritten models that.
- CreateKernels.GpuValidation: the intended check, which rejects unreadable text; the source accepts it (see Findings), and GpuValidationAsWritten models that.
- CreateKernels.CreateKernelsModal.OnNumKernelsChanged: uses the intended RangeValidation. As written, ".5" shows success and the count becomes NaN (see Findings, CreateKernels.UnreadableCountAsWritten).
- FormValidation.JsParseInt: reads decimal text only, as `parseInt(s, 10)` does. The seed conversion in `parseData` (RegisterWorkloadFromTemplateForm.tsx:267, NewWorkloadFromTemplateModal.tsx:211) calls `parseInt` without a radix, which reads a "0x" prefix as hexadecimal ("0x10" is 16), where the model reads 0. A seed the handler accepts is always canonical decimal text (`FormValidation.SeedChanged`), so the two readings differ only on text the handler marked invalid.
- CreateKernels.CreateKernelsModal.OnCpusChanged: uses the intended RangeValidation; as written ".5" shows success (see Findings).
- CreateKernels.CreateKernelsModal.OnMemoryChanged: uses the intended RangeValidation; as written ".5" shows success (see Findings).
- CreateKernels.CreateKernelsModal.OnGpusChanged: uses the intended GpuValidation; as written ".5" shows success (see Findings).
- CreateKernels.CreateKernelsModal.OnVramChanged: uses the intended RangeValidation; as written ".5" shows success (see Findings).
- CreateKernels.CreateKernelsModal.BuildKernels: unreadable VRAM falls back to the default VRAM as intended; as written the kernel gets NaN (see Findings, CreateKernels.UnreadableVramAsWritten).
- CreateKernels.CreateKernelsModal.OnConfirmClicked: built on BuildKernels, so it shares the intended VRAM fallback.
- WorkloadManager.BasicWorkloadManager.RegisterWorkload: calls the corrected driver registration, which returns every creation error. As written every creation error panics inside the driver (see Findings), so the manager never sees one.
- WorkloadDriver.BasicWorkloadDriver.PauseWorkload: requires a registered workload. With none, both branches log the nil workload's name and Go panics; the manager calls it only for a driver with a workload.
- WorkloadDriver.BasicWorkloadDriver.UnpauseWorkload: requires a registered workload, for the same reason as PauseWorkload.
- WorkloadClient.ClientBuilder.Build: requires a session-ready event. Without one Go dereferences nil; every builder in the driver is given one.
- GpuTracker.GpuDriver.EnsurePod: requires a non-negative pod index and a pod table of positive capacity. The index is the trace's `exported_pod` column (gpu.go:292). A negative one would make Go panic on the slice index, and that panic is not modelled. With capacity 0 the growth divides by zero and the index then panics; the driver always allocates a positive capacity.
- KernelSessionManager: a 500 reply becomes an error built by `fmt.Errorf(string(body))`, which would treat a `%` in the body as a verb. The model keeps the body text verbatim.
- TemplateModal: the effect that resets the form to its default values after a successful submission is not modelled. Only the explicit reset operations are.
- KernelConnection.BasicKernelConnection.UpdateConnectionStatus: the growing sleep between failed kernel-info requests and the five-second reply timeout are left out. Whether each reply arrived in time is a parameter.

## Findings

| source | as written | input that shows it | evidently intended | confidence | as-written member | corrected member |
|---|---|---|---|---|---|---|
| driver-backend/internal/domain/workload.go:1163-1168 | `IsInProgress` tests `IsPausing` twice and never `IsPaused` | a Paused workload: not in progress, so `TerminateWorkloadPrematurely` refuses it | Running, Pausing and Paused are in progress, as the server copy has it | not executed | DomainWorkload.IsInProgressAsWrittenMissesPaused | DomainWorkload.BasicWorkload.TerminateWorkloadPrematurely |
| driver-backend/internal/server/workload/workload.go:935-963 | `IsSessionBeingSampled` holds `w.mu` and discards through `SessionDiscarded`, which locks `w.mu` again | a new session, sample percentage 0.5, draw 0.75: the goroutine deadlocks | discard without re-locking | not executed | ServerWorkload.DiscardDeadlocksAsWritten | ServerWorkload.BasicWorkload.IsSessionBeingSampled |
| internal/domain/workload.go:425-440 | `SetSessions` never reads `sessionsSet` | two calls: the second list silently replaces the first | a second call panics, as the interface comment says | not executed | InternalWorkload.SecondSetSessionsAsWritten | InternalWorkload.WorkloadImpl.SetSessions |
| driver-backend/internal/server/workload/driver.go:438-441 | the unsupported-type branch dereferences the still-nil workload | a registration of type "trace": nil dereference | return ErrUnsupportedWorkloadType | not executed | WorkloadDriver.UnsupportedTypeAsWritten | WorkloadDriver.BasicWorkloadDriver.RegisterWorkload |
| driver-backend/internal/server/workload/driver.go:446-448 | the nil-workload panic comes before the creation error is checked | a preset registration with an unknown key: panic | return ErrWorkloadPresetNotFound | not executed | WorkloadDriver.MissingPresetAsWritten | WorkloadDriver.BasicWorkloadDriver.RegisterWorkload |
| driver-backend/internal/server/workload/driver.go:360-386 | `createWorkloadFromTemplate` returns a typed nil `*WorkloadFromTemplate`, which the `domain.Workload` variable holds as non-nil, so the nil check passes and the next `GetId` call dereferences nil | a template request without sessions: nil dereference | return ErrWorkloadRegistrationMissingTemplate | not executed | WorkloadDriver.MissingTemplateAsWritten | WorkloadDriver.BasicWorkloadDriver.RegisterWorkload |
| driver-backend/pkg/jupyter/manager.go:284-289 | the 400 branch hands a nil error to the error handler, which calls `err.Error()` | a 400 reply to a session creation: nil dereference | report ErrCreateSessionBadRequest with the body | not executed | KernelSessionManager.BadRequestAsWritten | KernelSessionManager.BasicKernelSessionManager.CreateSession |
| internal/server/jupyter/kernel.go:593 | stderr text is appended to the stdout history | stdout empty, stderr "first" then "second": the stderr history is only "second" | append to the stderr history | not executed | KernelConnection.StderrOverwrittenAsWritten | KernelConnection.BasicKernelConnection.DefaultHandleIoPubMessage |
| driver-frontend/src/Components/Workloads/RegistrationForms/RegisterWorkloadFromTemplateForm.tsx:406-410 | the active tab moves only when it is greater than the session count | two sessions applied while tab 2 (the third) is active: it points past the last tab | move when the tab is at or past the session count | not executed | TemplateRegistrationForm.ActiveTabPastEndAsWritten | TemplateSessions.ActiveTabAfterApply |
| driver-frontend/src/Components/Modals/NewWorkloadFromTemplateModal/NewWorkloadFromTemplateModal.tsx:306-308 | the same test, greater instead of at least | one session applied while tab 1 (the second) is active | move when the tab is at or past the session count | not executed | TemplateModal.ActiveTabPastEndAsWritten | TemplateModal.NewWorkloadFromTemplateModal.ApplyJsonToForm |
| driver-frontend/src/Components/Workloads/RegistrationForms/RegisterWorkloadFromPresetForm.tsx:227 | the sample-percentage plus button adds 0.01 to the timescale | sample 0.5, timescale 0.05: plus gives 0.06 | add 0.01 to the sample percentage | not executed | PresetRegistrationForm.SamplePlusAsWritten | PresetRegistrationForm.SampleMinusPlusRestores |
| driver-frontend/src/Components/Modals/CreateKernelsModal.tsx:119-122 | the NaN test asks about the VRAM map, not the parsed value | VRAM text ".5": the kernel gets NaN VRAM | fall back to the default VRAM | not executed | CreateKernels.UnreadableVramAsWritten | CreateKernels.CreateKernelsModal.BuildKernels |
| driver-frontend/src/Components/Modals/CreateKernelsModal.tsx:224-237 | the NaN test asks about the text, not the parsed number | kernel count ".5": the indicator shows success and the count becomes the NaN parseInt gives | reject text parseInt cannot read | not executed | CreateKernels.UnreadableCountAsWritten | CreateKernels.CreateKernelsModal.OnNumKernelsChanged |
| driver-frontend/src/Components/Modals/CreateKernelsModal.tsx:316-340 | the CPU field's NaN test asks about the text, not the parsed number | CPU text ".5": the indicator shows success although parseInt gives NaN | reject text parseInt cannot read | not executed | CreateKernels.UnreadableFieldsAsWritten | CreateKernels.CreateKernelsModal.OnCpusChanged |
| driver-frontend/src/Components/Modals/CreateKernelsModal.tsx:358-380 | the memory field's NaN test asks about the text, not the parsed number | memory text ".5": the indicator shows success although parseInt gives NaN | reject text parseInt cannot read | not executed | CreateKernels.UnreadableFieldsAsWritten | CreateKernels.CreateKernelsModal.OnMemoryChanged |
| driver-frontend/src/Components/Modals/CreateKernelsModal.tsx:395-425 | the GPU field's NaN test asks about the text, not the parsed number | GPU text ".5": the indicator shows success although parseInt gives NaN | reject text parseInt cannot read | not executed | CreateKernels.UnreadableFieldsAsWritten | CreateKernels.CreateKernelsModal.OnGpusChanged |
| driver-frontend/src/Components/Modals/CreateKernelsModal.tsx:455-477 | the VRAM field's NaN test asks about the text, not the parsed number | VRAM text ".5": the indicator shows success although parseInt gives NaN | reject text parseInt cannot read | not executed | CreateKernels.UnreadableFieldsAsWritten | CreateKernels.CreateKernelsModal.OnVramChanged |
| web/app/Components/Modals/NewWorkloadFromTemplateModal/NewWorkloadFromTemplateModal.tsx:417-433 | the violation loop of `validateTrainingStartTickInput` returns 'success' | one session, stop 6, training at 10: success; the per-session tick arrays are written only by `resetSubmissionForm` (lines 508-518), so today's UI cannot reach this input | return 'error' on a violating session | not executed | WebSessionsModal.TrainingAfterStopAsWritten | WebSessionsModal.VerdictsMeanOrderedSessions |
| web/app/Components/Modals/NewWorkloadFromTemplateModal.tsx:182 | the template test reads `setSelectedWorkloadTemplate.length`, the setter's arity | after a submission the template name is empty, yet the button is enabled | test the selected template's name | not executed | WebTemplateModal.EmptyTemplateAsWritten | WebTemplateModal.NewWorkloadFromTemplateModal.IsSubmitButtonDisabled |
