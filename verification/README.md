# The pod executor's decisions, verified

DCE-Go is a Mesos executor that launches a pod of docker-compose services, watches it and reports its fate. This
project models the decisions it takes, in Dafny, with docker, Mesos, YAML and the clock replaced by oracles, and proves
what holds of them for every interleaving, every answer of docker, every order in which Go walks a map and every
chunking of a read.

The model has four parts.

1. **Pod lifecycle.** `Lifecycle` is a state machine: the launch tail, the launch-timeout watcher, the monitor and any
   number of KillTask calls are processes with a program counter each; they share the pod status and the launch context,
   and a log records what they write and send. A schedule is any sequence of steps. Every definition has two modes: in
   `Atomic` mode the guard read and the write of the status are one step, in `Split` mode they are two, each under its
   own lock, as utils/pod/pod.go:883 and 890 and dce/main.go:343 and 350 have them. `LifecycleSafety` holds the
   invariant of both modes, `LifecycleTheorems` the results, `LifecycleSplit` the refinement of `Atomic` by `Split` and
   exactly when it holds, `LifecycleRaces` the schedules that break it, `LifecycleCleanup` what is done to the pod
   before an update, and how the monitor starts and concludes. `PodExecutor` has the same code as methods on
   the pod's fields, each proved to be a run of the steps of its process. The theorems about a single winner are about
   `Atomic` mode: making the guard and the write one step is an assumption there, and `FinalityIffNoStaleWrite` says
   what the code does without it.
2. **Health check and monitor.** `ContainerCheck`, `HealthSpec` and `MonitorSpec` define passes and polls as functions
   of what docker answers on its numbered visits; `HealthCheck` and `Monitor` have the loops as they run, deleting from
   the list they index, proved against these functions; `HealthAnswers` and `MonitorAnswers` say what passes, polls and
   whole runs come to in terms of docker's answers alone; `StepMetrics` has the step records. `PodRun` and `PodLaunch`
   put the two phases together, and `PodSchedules` puts them into the race: whatever the interleaving, what Mesos is
   told follows from what docker answered.
3. **Compose files.** `Ports` is the port offer and its assignment to one list, `ServiceEdit` and `ComposeEditor` the
   edit of one service, `ServiceMeaning` what that edit means for the YAML values, `ComposeFiles` and `ComposePull` the
   loop over files and the infra container. `JobFlow` looks at all services as one list, which is how the order is
   shown not to matter. `ComposeTheorems`, `ComposeResults` and `ComposeLaunch` have the results, `ComposeExamples` two
   pods for which the plugin does something unexpected.
4. **Splitter and codecs.** `Splitter` has the split function and a scanner over arbitrary reads, `SplitterTheorems` the
   round trip and the conservation of the input; `ArrayMap`, `Labels` and `Backoff` the small codecs.

`Filter`, `Walk` and `Strings` are helpers: in-order filters, Go's map iteration, two string functions.

Some of what the proofs bring out:

- Read and write of the status are not one step, so two verdicts can reach Mesos (`TwoVerdictsReachMesos`); and even
  if they were, TASK_RUNNING could be sent after TASK_KILLED, because updates are sent after the lock is released
  (`RunningAfterKilled`, in both modes). The documentation's list of KillTask scenarios (docs/how-to-develop.md:35-37) does not have
  these.
- In the health check a failed inspection removes the container like one that exited with 0, while the monitor fails the
  pod. The comment in the monitor says that errors are not failures, but `run` returns FAILED with each of them; the
  model follows the code.
- The second UNHEALTHY test of the health check (utils/pod/pod.go:1271) cannot be reached.
- `LaunchTaskPreImagePull` uses an index into the list of all files on the list of edited ones. If a file without a
  services section was skipped and the infra container is to be removed, it panics (`DropPanicsIff`,
  `SkippedFilePanics`).
- A port range that ends at the largest 64-bit number offers nothing (`OffersItsRangeIff`), and `RetryCmd` with a limit
  of zero reports success (`RetryCmd`).
- A service of the user that is named `networkproxy` and has a network mode of its own keeps its ports
  (`OnlyNamesakesKeep`, `NamesakeKeepsPorts`); otherwise infra publishes exactly the first ports of the offer
  (`HandedOutIsFirstIff`).
- If one input has the generated name of another, the documents of the two collide and the list of files to launch has
  a name twice; `DistinctIffSeparate` says exactly when.
- The two label look-ups differ for keys with a dot (`LookUpsAgreeIff`).

A health check cut off by the launch timeout is modelled by the number of passes there is room for; a monitor still
polling by the number of ticks. A panic is a result, `Panic`, not a crash.

## Model

| member | source | states |
|---|---|---|
| PodTypes.PodStatusSurvivesChannel | utils/pod/util.go:30-51 | Every pod status crosses the string channels between health check, monitor and launch unchanged, and only POD_EMPTY is the empty string that keeps a poll going. |
| LifecycleSafety.RunInv | dce/main.go:254-324 | The invariant of every schedule of launch tail, watcher, monitor and any number of KillTask calls, with guard and write together or apart: program counters have their shapes, final writes = final reports sent + still owed, POD_RUNNING is written at most once, every event has its cause. |
| LifecycleTheorems.EveryScheduleIsCausal | utils/pod/pod.go:878-931 | In both modes and every interleaving: no final report is lost or invented, POD_RUNNING is written at most once, POD_KILLED and TASK_KILLED come only after POD_RUNNING was written, every update was backed by its sender's own write, and the watcher acts only if the context expired. |
| LifecycleTheorems.ExpiredMeansDeadlineWon | utils/pod/pod.go:995-1014 | If the context is expired, then at some point of the schedule the deadline passed while nobody had cancelled the launch. |
| LifecycleTheorems.ReportedOnceAllReturned | utils/pod/pod.go:890-928 | Once all actors have returned, as many final updates were sent as final statuses were written. |
| LifecycleTheorems.RunOneWinner | utils/pod/pod.go:883-890 | With guard and write in one step: at most one final status is ever written, exactly one once the status is final, and it is the status the pod has. |
| LifecycleTheorems.AtMostOneTerminalUpdate | utils/pod/pod.go:878-931 | With guard and write in one step: final updates sent plus pending are at most one, exactly one whenever the status is final, and every one sent reports the pod's own status. |
| LifecycleTheorems.FinalStatusAbsorbs | utils/pod/pod.go:883-888 | With guard and write in one step FAILED, KILLED and FINISHED are never left, whatever follows. |
| LifecycleTheorems.InOrderIffNeverOvertakes | utils/pod/pod.go:890-895 | With guard and write in one step or in two: TASK_RUNNING reaches Mesos after a final update, in a launch that has returned, exactly when some final update was sent after POD_RUNNING had passed its guard and before TASK_RUNNING was sent. |
| LifecycleSplit.SplitRefinesAtomic | dce/main.go:343-350 | The code as it is, which reads and writes the status under separate locks, refines the atomic protocol (same status, same log) on every schedule in which no guarded write comes after the status has become final. |
| LifecycleSplit.FinalityIffNoStaleWrite | utils/pod/pod.go:883-890 | The code keeps final statuses final, entered once and never left, exactly on those schedules. |
| LifecycleSplit.FinalityIffNoStraddling | utils/pod/pod.go:883-890 | It does so exactly if no process writes a final status between the moment another passes its guard and that one's write. |
| LifecycleSplit.DisjointWindowsKeepFinality | dce/main.go:343-350 | In particular final statuses stay final if the windows between guard and write never overlap. |
| LifecycleRaces.TwoVerdictsReachMesos | dce/main.go:343-360 | A schedule of the code as it is in which Mesos is told both TASK_KILLED and TASK_FAILED: finality does not hold without the condition. |
| LifecycleRaces.RunningAfterKilled | utils/pod/pod.go:890-895 | A schedule, for the code as it is and for atomic guards alike, in which the last thing Mesos hears of a killed task is TASK_RUNNING. |
| PodExecutor.DriveSend | utils/pod/pod.go:878-931 | Left alone, a caller of SendPodStatus takes the protocol's steps to exactly the status, the log and the return point that the method leaves. |
| PodExecutor.DriveKill | dce/main.go:343-360 | Left alone, KillTask takes the protocol's steps to nothing at all, or to POD_KILLED written, the pod stopped and TASK_KILLED sent, in that order. |
| PodExecutor.SendMeans | utils/pod/pod.go:883-928 | The protocol's steps of one SendPodStatus, event by event: nothing on a final or equal status; else the write, then stopping the pod for POD_FAILED if the launch was attempted and for POD_FINISHED if containers are left, the plugins' cleanup for POD_FINISHED without containers and the two launch failures, and the update that belongs to the status. |
| PodExecutor.Pod.SendPodStatus | utils/pod/pod.go:878-931 | The method on the pod's fields, with its status, launched flag and log given event by event from monitor list and launch attempt; and it is a run of the protocol's steps of its actor. |
| PodExecutor.Pod.KillTask | dce/main.go:343-365 | Only a running pod is killed; the method is a run of the protocol's steps of one KillTask call. |
| PodExecutor.Pod.WaitOnPod | utils/pod/pod.go:995-1014 | Only a deadline, not a cancel, makes the watcher fail the pod. |
| PodExecutor.Pod.CheckHealthTail | dce/main.go:265-271 | A failed or timed out health check cancels the launch and sends POD_FAILED, any other does nothing, and the launch goes on to the plugins. |
| PodExecutor.Pod.PluginsTail | dce/main.go:274-320 | After the plugins: which status is sent, after a cancel, or none; and that the monitor starts exactly when plugins and health check agree on POD_RUNNING and the pod is not already running. |
| PodExecutor.Pod.LaunchTail | dce/main.go:254-324 | The launch tail from the launch call on as a run of the launcher's steps: for each outcome of command, launch, health check and plugins it amounts to a cancel and the sending of one status, or to nothing; a final status is not touched. |
| PodExecutor.Pod.MonitorTail | dce/main.go:306-312 | The monitor's goroutine sends the verdict it comes to: a running pod ends with that status and its update. |
| LifecycleCleanup.CleanupBeforeReport | utils/pod/pod.go:893-928 | In every schedule and both modes, before an update its actor has cleaned up: TASK_FINISHED follows stopping the pod exactly if containers were left in the monitor list at the cleanup, and the plugins' cleanup otherwise; TASK_FAILED follows stopping the pod exactly if the launch had been attempted by then; TASK_KILLED always; TASK_RUNNING neither. |
| LifecycleCleanup.MonitorStartsIff | dce/main.go:301-313 | In every schedule: once the launcher has returned the monitor has been started exactly if the launcher read that the pod was not running yet, whatever became of its own POD_RUNNING; never before. |
| LifecycleCleanup.MonitorConcludes | dce/main.go:306-312 | From any state a schedule leads to: a monitor that concludes FINISHED or FAILED on a running pod, left alone, ends with that status written, the pod stopped or cleaned up, and the status reported, in that order. |
| ContainerCheck.ReportMeaning | utils/pod/pod.go:644-676 | What a report says, exactly, from docker's answer: UNHEALTHY for a failed inspection, a bad exit code or a failed health check; HEALTHY for exit code 0 without a health check or with a passed one; STARTING for one that is starting; running state and exit code are docker's. |
| HealthSpec.CountMatchesOnlyIfAllHealthy | utils/pod/pod.go:1218-1293 | The loop's exit test, a count that removals drive below zero against the length of the list, holds after a pass exactly when every container was HEALTHY and none was removed. |
| HealthSpec.RunningOnlyIfAllHealthy | utils/pod/pod.go:1217-1319 | POD_RUNNING is replied only if the list left is neither empty nor just infra and the log is that of a chain of passes whose last one removed nothing and found every container of its list HEALTHY. |
| HealthSpec.AllHealthySettles | utils/pod/pod.go:1218-1293 | Conversely a pass that finds every container HEALTHY ends the check, with the list unchanged and one visit to docker per container. |
| HealthAnswers.JudgementIs | utils/pod/pod.go:1236-1287 | How docker's answer on a container is acted on: a bad exit code, or running and unhealthy, fails the check; a failed inspection, or exited with 0 without a passed health check, removes it; exit code 0 with a passed health check or without one counts; else it waits. |
| HealthAnswers.PassEndsIff | utils/pod/pod.go:1219-1293 | When a pass ends the check, from docker's answers: it fails it exactly if some container is found bad; it is broken off exactly if infra, the last of the list, is undecided and all others are away, and then just infra is left; its count meets the list exactly if all are well. |
| HealthAnswers.PassVisits | utils/pod/pod.go:1219-1269 | A pass visits its list in order, as far as the first container found bad, and keeps, in order, exactly those not found away. |
| HealthAnswers.CheckEndsIff | utils/pod/pod.go:1217-1295 | Which pass ends the check and how: in no earlier pass an answer was bad, all were well or only infra was undecided; the last fails or settles the check exactly as PassEndsIff says; a check that is cut off has made all its passes. |
| HealthAnswers.OnlyInfraEnds | utils/pod/pod.go:1284-1315 | In whichever pass it comes to that: with only infra left undecided and all others away the check settles with just infra left, and replies POD_FINISHED for a job, POD_FAILED for a service. |
| HealthAnswers.RepliesOnAnswers | utils/pod/pod.go:1236-1319 | POD_FAILED is replied exactly when some visit found a bad exit code or a running container unhealthy, or a service settled on nothing but, perhaps, infra; POD_FINISHED exactly when a job did; POD_RUNNING exactly when the check settled on more; nothing exactly when it was cut off. |
| HealthSpec.HealthRunConserves | utils/pod/pod.go:1217-1293 | Wherever the check stops, launched containers = still monitored + removed. |
| HealthAnswers.HealthRunExact | utils/pod/pod.go:1226-1234 | Every entry of the log is the report on what docker answered at that very visit, with a health check exactly for the containers for which one was known before or has been shown by then; and so is what is known in the end. |
| HealthSpec.RemovedWasSeen | utils/pod/pod.go:1260-1269 | A container is removed only at a visit where docker showed it exited with 0, or could not be asked. |
| HealthSpec.EndsWithinPasses | utils/pod/pod.go:1217-1293 | If no check that is made finds a running container starting or unknown, n containers take at most n + 1 passes, whatever docker answers. |
| HealthCheck.MidLeaves | utils/pod/pod.go:1260-1269 | Deleting in place with the index stepped back is, for the rest of the pass, skipping the element in an order-preserving filter. |
| HealthCheck.OpenOnlyAfter | utils/pod/pod.go:1236-1262 | Judging one container closes its step, unless it waits. |
| HealthCheck.NextPassStarts | utils/pod/pod.go:1284-1292 | After a pass only steps of containers still in the list are open. |
| HealthCheck.PassLeaves | utils/pod/pod.go:1290-1295 | When a pass ends the loop normally, no health check step is left open. |
| HealthCheck.UpdateCloses | utils/pod/util.go:122-131 | UpdateHealthCheckStatus closes every open step and changes nothing when none is. |
| HealthCheck.PodMonitor.IsHealthCheckConfigured | utils/pod/pod.go:1327-1341 | The container joins the health check list exactly when docker knows a health check for it. |
| HealthCheck.PodMonitor.ActOn | utils/pod/pod.go:1236-1287 | Acting on one report: the pass ends as specified, failed or broken off, or goes on with list, index and count one container further; the step records are those the one check leaves. |
| HealthCheck.PodMonitor.CheckPass | utils/pod/pod.go:1219-1288 | The inner loop, deleting from the list it indexes, computes the specified pass: verdict, count, list, known health checks, next visit; the step records are exactly those its checks leave one after the other. |
| HealthCheck.PodMonitor.CheckAll | utils/pod/pod.go:1217-1293 | The outer loop computes the specified run of passes and leaves exactly the step records of all its checks; if it settles with the last check waiting, nothing but infra is left, and otherwise, once it settles, no step is open. |
| HealthCheck.GetServiceContainers | utils/pod/pod.go:187-205 | One container per service in the order asked for, with the id and pid looked up for it, or an error exactly when some look-up fails. |
| HealthCheck.PodMonitor.AwaitLaunch | utils/pod/pod.go:1181-1191 | The wait for the launch ends with all containers of the pod, or with an error exactly when some look-up fails. |
| HealthCheck.PodMonitor.HealthCheck | utils/pod/pod.go:1159-1319 | The whole method: its reply, the monitored list and the known health checks are those of the specified run; the step records are exactly the containers' started steps, ended check by check, then, once settled, marked; entry k of each step list keeps RetryID k from any start; started without stale entries it leaves no step Starting, and unless the last check was waiting the records are those from before UpdateHealthCheckStatus; without containers or infra's id it fails and touches no record. |
| HealthCheck.RecordsTell | utils/pod/pod.go:1214-1295 | However a health check ends, each container has one new step record, with the next RetryID; it has the health tag, and the error, of the last check that did not find the container waiting, says Success exactly if that found it HEALTHY, and has an outcome once the check has settled; earlier records are untouched. |
| StepMetrics.Metrics.StartStep | utils/pod/util.go:68-87 | The new record is appended as the next retry, with the status Starting. |
| StepMetrics.Metrics.EndStep | utils/pod/util.go:91-120 | Only the latest record of that step is ended, as an error if there was one or the health tag is not healthy; an unknown step changes nothing. |
| StepMetrics.Metrics.UpdateHealthCheckStatus | utils/pod/util.go:122-131 | Whatever the walk over the map, exactly the health check steps whose latest record is Starting get that record's status set to Error; nothing else changes. |
| StepMetrics.EndRecords | utils/pod/util.go:107-119 | Ending a step records tag and error in its latest record, with Success exactly without error and without a health tag other than healthy, and touches no earlier record and no other step. |
| StepMetrics.EndCloses | utils/pod/util.go:91-120 | Ending a health check step leaves it closed and all other steps as they were. |
| MonitorAnswers.MonitorJudgementIs | dce/monitor/plugin/default/monitor.go:45-74 | How the monitor acts on docker's answer: a failed inspection, a bad exit code, or running and unhealthy fails the pod; exited with 0 removes the container; else it stays. |
| MonitorAnswers.PollEndsIff | dce/monitor/plugin/default/monitor.go:41-93 | What one poll says, from docker's answers: FAILED exactly if some container is found wrong or a service has nothing left but, perhaps, one container of infra's id; FINISHED exactly if none is wrong and a job has; nothing exactly if none is wrong and more is left. |
| MonitorAnswers.PollVisits | dce/monitor/plugin/default/monitor.go:41-74 | A poll visits its list in order, as far as the first container found wrong, and keeps, in order, exactly those that have not exited with 0. |
| MonitorAnswers.PollingEndsIff | dce/monitor/plugin/default/monitor.go:41-105 | Which poll ends the polling and how: in no earlier poll an answer was wrong or all but infra had exited; the last one's verdict is as PollEndsIff says; without a verdict all polls were made. |
| MonitorAnswers.OthersExitedEnds | dce/monitor/plugin/default/monitor.go:76-93 | In whichever poll it comes to that: once all containers but, perhaps, infra have exited with 0 and none is wrong, the polling ends there, FINISHED for a job and FAILED for a service. |
| MonitorAnswers.VerdictOnAnswers | dce/monitor/plugin/default/monitor.go:41-105 | Over the whole polling run: FAILED exactly when some visit found an error, a bad exit code or a running container unhealthy, or a service has nothing left but, perhaps, infra; FINISHED exactly when no visit did and a job has. |
| MonitorAnswers.MonitorRunExact | dce/monitor/plugin/default/monitor.go:41-52 | Every entry of the monitor's log is the report on what docker answered at that very visit, with a health check exactly where the initial health check knew one. |
| MonitorSpec.MonitorRunFaithful | dce/monitor/plugin/default/monitor.go:41-105 | Over the whole polling run nothing is lost, every check is a visit to docker, and FINISHED is said only of a job that has nothing left but, perhaps, infra. |
| MonitorSpec.MonitorRunShrinks | dce/monitor/plugin/default/monitor.go:58-64 | Over the whole polling run the list only shrinks, as a subsequence of what it was. |
| MonitorSpec.FirstVerdictWins | utils/wait/wait.go:80-93 | The polling ends with the first non-empty verdict: every earlier poll had none, and a run without a verdict made all its polls. |
| Monitor.MidPollLeaves | dce/monitor/plugin/default/monitor.go:58-64 | The monitor's deletion with its step-back is a filter step that keeps the order. |
| Monitor.DefaultMonitor.Run | dce/monitor/plugin/default/monitor.go:41-90 | The closure, deleting from the pod's own list, computes the specified poll: filtered list after a pass without failure, filtered prefix and untouched suffix after one with. |
| Monitor.DefaultMonitor.PollForever | utils/wait/wait.go:42-44 | Polling until a non-empty string comes back computes the specified run of polls. |
| Monitor.DefaultMonitor.Start | dce/monitor/plugin/default/monitor.go:26-105 | Without infra's id, unless infra was removed, the monitor fails at once; otherwise status and list are those of the specified run. |
| PodRun.IdleUnlessRunning | dce/main.go:303-314 | A monitor that is not started, because the reply was not POD_RUNNING or infra's id is unknown, checks and removes nothing. |
| PodRun.PodVerdictIff | dce/main.go:265-320 | When the pod fails, finishes or keeps running: it fails exactly if the health check fails or is cut off, a service settles on nothing but, perhaps, infra, the monitor does not find infra's id, or the monitor says FAILED. |
| PodRun.FinishedOnlyIfAllExited | dce/main.go:265-320 | Across both phases POD_FINISHED is said only of a job, and only if every launched container but infra was at some check of a phase that ran seen exited with 0 (in the health check, a failed inspection looks the same). |
| PodRun.LaunchedIsConserved | utils/pod/pod.go:1192-1296 | From the first check to the last poll: launched = removed by the health check + removed by the monitor, if it was started, + still monitored. |
| PodLaunch.RunPod | dce/main.go:265-320 | Health check and monitor run one after the other on the pod's own list give the specified verdict, and POD_FINISHED means that every container but infra was seen exited. |
| PodSchedules.RunHonest | dce/main.go:265-320 | In every interleaving POD_RUNNING and POD_FINISHED are carried, written and reported only if the health check or a poll concluded them. |
| PodSchedules.FinishedMeansExited | dce/main.go:254-324 | In every interleaving, guards atomic or not: once the pod is POD_FINISHED or Mesos was told TASK_FINISHED, the task is a job and every launched container but infra was seen exited with 0. |
| PodSchedules.RunningMeansHealthy | dce/main.go:254-324 | In every interleaving: once the pod is POD_RUNNING or Mesos was told TASK_RUNNING, the last pass of the health check found every container left HEALTHY, and there was more than infra. |
| Splitter.TokenUnchangedByMore | utils/file/file.go:333-360 | A non-zero advance on a buffer is unchanged by any extension of it, at the end of the input or not. |
| Splitter.FirstTokenOf | utils/file/file.go:333-360 | A token found in what has been read so far is the first token of the whole input. |
| Splitter.Scanner.Scan | utils/file/file.go:296-299 | However the input is read in, a scan returns the next token of the whole input, and stops exactly when there is none. |
| Splitter.SplitAll | utils/file/file.go:297-299 | The tokens of the scan loop are those of the split of the whole input, for every chunking of the reads. |
| SplitterTheorems.FirstSepAfter | utils/file/file.go:338-340 | The first separator of a terminated document is its terminator exactly when the document neither contains the separator nor ends in its border. |
| SplitterTheorems.RoundTripIff | utils/file/file.go:333-360 | Documents printed with separator and newline, the last unterminated, are scanned back exactly when none contains the separator and no terminated one ends in `#---`. |
| SplitterTheorems.Conserved | utils/file/file.go:333-360 | No token contains the separator; tokens, skipped separator lines and the text lost at the end make up the input, in order. |
| SplitterTheorems.LossIff | utils/file/file.go:342-353 | Text is lost exactly when the last line has a separator and its first is not at the end of the input. |
| SplitterTheorems.ConservedIff | utils/file/file.go:342-353 | Tokens and skipped separator lines are the whole input exactly when no separator is left unfinished. |
| Ports.OffersItsRangeIff | utils/pod/pod.go:331-337 | A range offers the ports from its begin to its end exactly when it does not reach the last 64-bit number (there the loop bound wraps and nothing is offered) or is empty anyway. |
| Ports.GetPorts | utils/pod/pod.go:324-342 | The ports of all port resources, range after range, in order. |
| Ports.OfferedDistinctIff | utils/pod/pod.go:324-342 | The ports offered are distinct exactly when the ranges of all port resources together are disjoint. |
| Ports.DecimalRoundTrip | pluginimpl/general/editor.go:206 | A port's decimal form determines the port. |
| Ports.AssignMeans | pluginimpl/general/editor.go:200-213 | The assignment fails exactly when mapped entries outnumber the ports; else the host parts are the ports in order, container ports stay, and other entries are untouched. |
| ServiceMeaning.AssignGives | pluginimpl/general/editor.go:200-213 | Every entry with a colon becomes the next offered port in decimal, a colon and the text between its first colon and the next; any other stays; the cursor moves by the number of entries with a colon. |
| ServiceMeaning.DecimalIs | pluginimpl/general/editor.go:206 | Ports are written in decimal digits, without leading zeros, and read back as themselves. |
| Ports.AssignPorts | pluginimpl/general/editor.go:200-213 | The loop that writes entries in place computes that assignment, and notes whether an entry had no host part. |
| ServiceEdit.PrefixOnce | utils/file/file.go:190-195 | Prefixing a name with the task id twice is prefixing it once. |
| ComposeEditor.NextSection | pluginimpl/general/editor.go:108-189 | Editing the sections one after the other gives each section what the untouched service determines. |
| ComposeEditor.Editor.ScanForExtraHosts | pluginimpl/general/editor.go:294-304 | The service's extra hosts move to the collection; an entry that cannot be a map key panics. |
| ComposeEditor.Editor.SetNetworkMode | pluginimpl/general/editor.go:138-151 | A service on neither the host's network nor none joins the infra container's; any other asks for infra to be removed. |
| ComposeEditor.Editor.MapPorts | pluginimpl/general/editor.go:192-226 | Ports are mapped outside host and none networking, and given to the collection when the network is another service's. |
| ComposeEditor.Editor.EditOtherSections | pluginimpl/general/editor.go:108-189 | The edits before the ports, in the order made, amount to editing each section of the untouched service; hosts and the wish to drop infra pass on. |
| ComposeEditor.Editor.UpdateServiceSessions | pluginimpl/general/editor.go:96-241 | All edits of one service, in the order made: the edited service, the cursor and everything that passes on to the next service are as specified, with both failures. |
| ServiceMeaning.ServiceMeans | pluginimpl/general/editor.go:192-236 | What one service does to what flows on, from its YAML alone: host ports for its list unless it is on host or none networking or is infra without a mode, the list collected and removed, hosts, the wish to drop infra and the single-port flag; infra's list is the collection. |
| JobFlow.WellFormedIff | pluginimpl/general/editor.go:98-204 | What makes the plugin panic: a service that is not a mapping, an extra host that is a list or a mapping, or an entry that is not a string in a list that gets host ports. |
| JobFlow.NeedIs | pluginimpl/general/editor.go:192-213 | A service needs one port for each entry with a colon in a list that gets host ports. |
| JobFlow.SucceedsIff | pluginimpl/general/editor.go:57-63 | All services are edited exactly when each is well formed and the needed ports do not outnumber those left. |
| JobFlow.OutcomeIs | pluginimpl/general/editor.go:57-63 | What becomes of any list of services: success, "no ports available" or a panic, from their well-formedness and the ports they need. |
| JobFlow.OutcomeSameInAnyOrder | pluginimpl/general/editor.go:57-63 | For any services, in any order: success or failure and the number of ports used up are the same, and so is the kind of failure unless there are both too few ports and a service that makes the plugin panic. |
| JobFlow.FailureDependsOnOrder | pluginimpl/general/editor.go:57-63 | Two services for which Go's walk decides between "no ports available" and a panic. |
| JobFlow.CollectedAreHandedOut | pluginimpl/general/editor.go:215-221 | For any services, in any order: the host parts collected for infra are exactly the offered ports used up by services that give theirs away, in order. |
| JobFlow.HandedOutIsFirstIff | pluginimpl/general/editor.go:192-236 | These are the first offered ports, one for each mapped entry, exactly when no service keeps ports for itself. |
| JobFlow.OnlyNamesakesKeep | pluginimpl/general/editor.go:192-236 | A service uses up ports without giving them to infra exactly if it has entries with a colon, infra's name, and a network mode that is neither host, none nor a service's. |
| JobFlow.CollectedInOrder | pluginimpl/general/editor.go:215-221 | The collection is every given list in the order of the services, container ports kept, entries without host port as they were. |
| JobFlow.RunGathers | pluginimpl/general/editor.go:138-213 | The extra hosts collected are the union of all services' extra hosts; infra is to go exactly when some service is on host or none networking; and the pod has a single port exactly when some list that gets host ports has an entry without a colon. |
| ComposePull.Plugin.EditComposeFile | pluginimpl/general/editor.go:41-78 | Editing the parsed file in place, in any order of its services, then renaming it, is the specified edit; a file without services is skipped. |
| ComposePull.Plugin.AddExtraHosts | pluginimpl/general/editor.go:306-329 | Only infra's service gets the collected hosts, if there are any. |
| ComposePull.Plugin.EditComposeFiles | pluginimpl/general/impl.go:95-114 | The loop over the files threads cursor, collection and file list as specified, and remembers where infra's file was. |
| ComposePull.Plugin.LaunchTaskPreImagePull | pluginimpl/general/impl.go:61-146 | The whole call: the file list and the documents it leaves, or the failure, are those of the specified run on the ports Mesos offers. |
| ComposeTheorems.RenamedIs | pluginimpl/general/editor.go:67-71 | An edited file gets the suffix `-generated.yml`, unless its name contains that anywhere. |
| ComposeTheorems.EditedInOrder | pluginimpl/general/impl.go:111-113 | The list of edited files is the inputs in order, those without services, or already edited under the same name, left out. |
| ComposeTheorems.DocumentsAre | pluginimpl/general/editor.go:67-75 | A document is found under its old name exactly until its file is edited, and then under its generated one. |
| ComposeTheorems.DistinctIffSeparate | pluginimpl/general/impl.go:95-114 | For any names, repeated, already generated or colliding, the list of edited files names each document once exactly when no file that has services gets, by its generated name, the name of a file that comes later or has services itself. |
| ComposeResults.RewrittenMeans | pluginimpl/general/editor.go:96-241 | The edited service section by section, for every form a section can take: network mode, container name with the task id in front unless it starts with it, labels and environment with exactly the entries added, string restart policies, link lists and host lists gone, the task's cgroup, no port list behind infra, and nothing else changed. |
| ComposeResults.NamesCollideIff | utils/file/file.go:190-195 | Two different container names become one exactly if one of them already is the name that the other is given. |
| ComposeResults.EveryServiceRewritten | pluginimpl/general/editor.go:57-63 | After the loop every service of every file edited so far is found rewritten in its generated file, whatever the walks. |
| ComposeResults.FilesFlow | pluginimpl/general/impl.go:96-106 | File by file, the cursor and the collection move as over the flat list of all services. |
| ComposeLaunch.PortsSufficeIff | pluginimpl/general/editor.go:203-205 | For any files and any two families of walks: the editing succeeds exactly when all services are well formed and mapped entries outside host and none networking do not outnumber the offered ports, with the same number used up; "no ports available" exactly when they do, unless a service makes the plugin panic too. |
| ComposeLaunch.DropPanicsIff | pluginimpl/general/impl.go:119-124 | Dropping infra's file indexes the list of edited files with infra's place among all files: it panics exactly when infra is to go, as the setting says or because some service is on host or none networking, and some file had no services or was named twice. |
| ComposeLaunch.FilesInOrder | pluginimpl/general/impl.go:94-137 | With a services section in each file and no file named twice, the files launched are the inputs in order under their generated names; infra's follows if the setting says to keep it and not if it says to remove it; without the setting it follows exactly when no service is on host or none networking and its removal was not asked for before; these are just the keys of the document map. |
| ComposeLaunch.InfraPublishesFirstPorts | pluginimpl/general/editor.go:229-236 | Infra publishes, next to ports configured before, the offered ports used up for it, in order: exactly the first k, k being the number of mapped entries, if and only if no service keeps ports for itself; distinct if the offer is; each entry keeps its container port. |
| ComposeLaunch.InfraKnowsAllHosts | pluginimpl/general/impl.go:128-131 | Infra's extra hosts are the duplicate-free union of those collected before and all services' extra hosts, whatever the order. |
| ComposeLaunch.InfraDressed | pluginimpl/general/impl.go:94-137 | In the documents to launch infra's own service is edited like any other; only ports and extra hosts are added. |
| ComposeLaunch.UsersRewritten | pluginimpl/general/impl.go:94-137 | In the documents to launch, every service of every user file is found rewritten. |
| ComposeExamples.SkippedFilePanics | pluginimpl/general/impl.go:119-124 | A pod that panics: a file with one service on the host's network and a file without services; all edits succeed, and the plugin panics. |
| ComposeExamples.NamesakeKeepsPorts | pluginimpl/general/editor.go:192-236 | A pod whose infra container publishes nothing: a service named networkproxy on the network bridge uses up the one offered port for itself, and infra, which is launched, has no mapped port. |
| ArrayMap.PanicsIff | utils/file/file.go:650-651 | Only a list of strings can be converted; any other entry panics. |
| ArrayMap.ConvertArrayToMap | utils/file/file.go:648-659 | The mapping of the entries, split at the first equals sign, later entries overriding earlier ones, or a panic. |
| ArrayMap.MappingMeans | utils/file/file.go:648-659 | The mapping has just the keys of the entries, each with the value of its last entry. |
| ArrayMap.SplitMeans | utils/file/file.go:651-655 | An entry is key, first equals sign and value; without an equals sign it is all key. |
| ArrayMap.ConvertMapToArray | utils/file/file.go:661-671 | One entry per key in the order walked: the key itself, as it is, if the value is the empty string; for any other value, strings or not, key and value as Go prints them with an equals sign between. |
| ArrayMap.MapRoundTripIff | utils/file/file.go:648-671 | Any mapping survives the two conversions, in any order of its keys, exactly when it maps strings to strings and no key contains an equals sign. |
| ArrayMap.ArrayRoundTripIff | utils/file/file.go:648-671 | A list of strings survives them, up to order and `k=` becoming `k`, exactly when its keys are distinct. |
| ArrayMap.NormalIs | utils/file/file.go:664-668 | What changes in an entry: an equals sign at its end is dropped if it is the first, and nothing else. |
| Labels.TestsMean | utils/pod/pod.go:821-853 | GetLabel recognises the key and whatever ends in a dot and the key; GetAndRemoveLabel the same for keys without a dot, and else the key only. |
| Labels.LookUpsAgreeIff | utils/pod/pod.go:821-853 | The two label look-ups recognise the same labels, for all labels, exactly when the key has no dot. |
| Labels.TaskInfo.GetLabel | utils/pod/pod.go:821-832 | The value of the first label that is the key or ends in a dot and the key; the empty string if there is none. |
| Labels.TaskInfo.GetAndRemoveLabel | utils/pod/pod.go:835-853 | The value of the first label that passes its own test, which is removed and no other; without one the empty string and the labels as they were; for a key without a dot the value is the one GetLabel finds. |
| Backoff.SleptIs | utils/wait/wait.go:64 | j failures sleep interval * j(j+1)/2 in total. |
| Backoff.PollRetry | utils/wait/wait.go:49-67 | The condition is run until its first success or the retry limit; it succeeds exactly if one of those runs does; total sleep as above. |
| Backoff.RetryCmd | utils/wait/wait.go:151-182 | The same for commands, except that "already started" ends it as a success, and that a limit of zero or less runs nothing and reports success. |

## Left out

- LifecycleTheorems.RunOneWinner: assumes that guard and write are one step; LifecycleSplit.FinalityIffNoStaleWrite says what holds of the code without that.
- LifecycleTheorems.AtMostOneTerminalUpdate: same assumption.
- LifecycleTheorems.FinalStatusAbsorbs: same assumption.
- ComposeTheorems.EditedInOrder: for pods in which no file's generated name collides with another input; an edited file replaces whatever has its generated name. ComposeTheorems.DistinctIffSeparate is about the others too.
- ComposeTheorems.DocumentsAre: same premise.
- ComposeResults.EveryServiceRewritten: same premise.
- ComposeResults.FilesFlow: same premise.
- ComposeLaunch.PortsSufficeIff: same premise.
- ComposeLaunch.DropPanicsIff: same premise; besides, infra's own file is not one of the user's, and its folder's name does not contain `-generated.yml`, in which case the plugin would not recognise it.
- ComposeLaunch.FilesInOrder: same premises as DropPanicsIff.
- ComposeLaunch.InfraPublishesFirstPorts: same premises as DropPanicsIff.
- ComposeLaunch.InfraKnowsAllHosts: same premises as DropPanicsIff.
- ComposeLaunch.UsersRewritten: same premises as DropPanicsIff.
- Splitter.Scanner.Scan: does not model bufio's maximum token size nor its limit on consecutive empty reads.
- LaunchTask before line 254: its error branches write the status and send directly, past the guard.
- Running docker, docker-compose and kill; log following, file copying, HTTP helpers and DockerDump.
- The Mesos driver, its stop after KillTask, thrift decoding in IsService, viper and YAML parsing: isService, the setting that removes infra and the collected ports are plain state.
- PollUntil's and WaitUntil's own timeouts and done channel, WaitCmd and RetryCmdLogs.
- Real time: timeouts are events, and the start and end times of step records are not kept.
- HealthCheck.PodMonitor.HealthCheck: after a launch timeout the source's goroutine goes on checking and nobody reads its reply; the model stops there.
- The compose sections `version`, `networks` and `volumes` of a document; getVersion's floats.
- The state that is left when editing a compose file fails: the launch fails then.
- YAML aliases that make two services share one mapping, and services or port lists that share memory.
- Ports.AssignMeans: a port entry of three parts keeps its second, as in the code, which is not its container port.
- updateDynamicPorts and the other work after the pod is up; PostKillTask.
- SplitYAML's file naming and writing; the regular-expression helpers.
- ArrayMap.ConvertMapToArray: how Go prints values other than strings is a parameter; floats and dates are not among the values of the model.
- CopySvcContainers copies a list, which for the values of this model is the list itself.
- Monitor plugins other than the default, the plugin registry and the example plugin.
