# Round-robin CPU simulator: a verified model of its engine

The repository is a browser round-robin CPU scheduling simulator, written in one JavaScript file, `script.js`. The user enters processes as rows of a form: an arrival time, one or more CPU bursts, and I/O durations between bursts in multiple-burst mode. The user also sets a time quantum and a context-switch time. The simulator then advances one tick per press of Step, or per timer tick while playing. Each tick is `stepExecution`, and it runs seven steps in a fixed order:

1. arrivals;
2. I/O completions;
3. a context switch in progress;
4. dispatch from the ready queue, or a jump to the next event;
5. one unit of execution;
6. the end of a burst;
7. the end of a quantum.

Each tick records a run-length-merged timeline (the Gantt chart, `addToGantt`). It also pushes a snapshot onto an undo history (`saveState`), which Previous walks back (`previousStep`, `restoreState`). When every process has completed, `showResults` sums waiting and turnaround times.

This project models that engine in Dafny in two layers.

- **Functional specification.** The value-level model is in the modules `Timeline`, `Process`, `Engine`, `History`, `Scheduler` and `Statistics`. There is one function per phase of a tick, over a `State` datatype. Its fields are the source's globals, with processes held as values. The queue entries are indices into `processes`, and the ready queue may hold `None`, which the source pushes as `null`.
- **Imperative model.** The class `Simulator.Simulator` has one field per global variable and one method per source function or tick phase. It mutates its fields as the source does: shifting and pushing queues, filtering the I/O queue in place, extending the last Gantt segment, and stepping the idle ticks one at a time in a loop. Every method is proved to leave the object exactly in the state the functional model computes.

What the source promises is then proved about the functional model in five laws modules:
- `PhaseLaws`: each phase of a tick.
- `HistoryLaws`: the undo history.
- `TickLaws`: where a tick can throw.
- `RunLaws`: what every tick and every run keep, undo, and the results.
- `ChartLaws`: the order of the Gantt chart over a run.

Exceptions are modelled. JavaScript reading `.id` of `null` throws a `TypeError`, which here is `Outcome.TypeError`, together with the state the tick leaves behind. The model keeps the source's step 7 as written, at script.js:389-393. That step does not check that a process is on the CPU. After `startContextSwitch()` starts a switch (script.js:295), control falls through to steps 5 to 7 with an empty CPU. When the quantum of the process that ran before is spent, `null` is pushed onto the ready queue and the trace line throws. For example: multiple-burst mode, quantum 1, switch time 1, and two processes arriving at 0 with one burst of 3 each.
- `PhaseLaws.SwitchOnSpentQuantumThrows` exhibits this case.
- `TickLaws.StepOk` shows it is the only way a tick can throw from a `null`-free state.

Behaviours of the code worth knowing:
- **Pending I/O.** With a process in I/O and nothing ready, the code jumps the clock to the next event without recording idle time (script.js:346-357). It does not advance one tick at a time.
- **Timeline gaps.** Because of that jump, the timeline can have gaps. In every state a started run reaches before a press throws, the chart is run-length merged and its segments follow each other without overlap. It ends no later than the clock, or, while a switch runs, no later than the switch's end (`ChartLaws.StartedRunChart`). It is not contiguous, and its span is not the final clock.
- **One-tick switches.** A switch of length 1 started at tick `t` charts CS over `[t, t+1)`. The next tick, at `t+1`, ends the switch and loads the head without executing it, and moves the clock to `t+2` (script.js:253-270). So `[t+1, t+2)` is never charted. Longer switches load the head on their last tick and leave no gap.
- **Ending a run.** A tick that finds no next event shows the results and returns (script.js:340-343). It keeps the arrivals and I/O completions it has already applied, and it does not check that every process completed.
- **Throughput.** Throughput divides the number of processes with a positive total burst, not the number completed (script.js:466, 485).

## Model

| member | source | states |
|---|---|---|
| Timeline.RecordMergeRule | script.js:189-199 | `addToGantt` extends the last segment exactly when it has the same label, idle flag and switch flag and ends where the new interval starts. Otherwise it appends one segment `[time, explicitEnd ?? time+1)`. No earlier segment changes. |
| Timeline.RecordRun | script.js:160-162 | Recording tick `t` right after an interval of the same kind ending at `t` gives the chart of the interval one tick longer. So one-tick records in a loop build one merged segment. |
| Timeline.RecordSpan | script.js:189-199 | A record adds exactly `end - time` ticks to its own kind's total span and nothing to any other kind. |
| Timeline.RecordKeepsMerged | script.js:189-199 | Recording keeps the chart run-length merged: no two neighbouring segments could have been merged. |
| Timeline.RecordKeepsChronological | script.js:189-199 | Recording an interval that starts no earlier than the chart ends keeps segments well formed and non-overlapping. |
| Process.KeptBurstsSpec | script.js:134-144 | Every kept burst is positive, and at most `n` of `n` fields are kept. When every field is positive, the whole row is kept. When none is, nothing is. |
| Process.PositiveIndicesIncrease | script.js:137-144 | The positions of the positive burst fields, as the loop meets them, strictly increase. |
| Process.PositiveIndicesExact | script.js:137-144 | A field's position is listed exactly when the field is positive. |
| Process.KeptBurstsAt | script.js:137-140 | The kept bursts are the fields at those positions, one for one and in the same order. |
| Process.KeptIosLength | script.js:139-141 | One I/O duration is kept per kept burst, except for a kept burst in the last field. |
| Process.KeptIosAt | script.js:139-141 | The `j`-th kept I/O duration is the I/O field at the position of the `j`-th kept burst. |
| Process.KeptIosCoverBursts | script.js:139-144 | Every kept burst except the last has an I/O duration after it. |
| Process.MakeProcSpec | script.js:131-152 | A column yields no process exactly when all its burst fields are at most 0. Otherwise the process has id `column + 1` and the column's arrival. It is well formed and unstarted at its first burst, with `remainingTime == bursts[0]` and no response or completion time. |
| Process.BuiltMade | script.js:130-153 | Every built process is well formed and fresh, with an id in `1..columns`. |
| Process.BuiltIncreasing | script.js:130-153 | Built processes have strictly increasing ids, none above the number of columns. |
| Process.SortByArrivalPermutes | script.js:155 | The sort by arrival is a permutation of its input. |
| Process.SortByArrivalSorts | script.js:155 | The sort orders processes by arrival time. Being stable, it breaks ties by ascending id. |
| Process.SortByArrivalUnique | script.js:155 | The sort keeps ids distinct. |
| Process.SortKeepsFresh | script.js:155 | Sorting unstarted processes gives unstarted processes. |
| Engine.ArrivingSpec | script.js:225-228 | The arriving indices are exactly the processes that arrive now, each once and in increasing order. |
| Engine.IoFoldValid | script.js:231-249 | The I/O filter keeps every queue reference to a real process. |
| PhaseLaws.MarkArrivedSpec | script.js:225-228 | The arrival loop marks exactly the processes that arrive now as arrived. |
| PhaseLaws.ArriveMarks | script.js:225-228 | Arrivals set `hasArrived` on exactly the processes arriving now: at the current tick, or at any tick up to now at the start. Only the processes and the ready queue change. |
| PhaseLaws.ArriveQueues | script.js:225-228 | Arrivals keep the ready queue as a prefix and append every arriving process exactly once, in process order, and nothing else. |
| PhaseLaws.ArriveIdempotent | script.js:225-228 | Running the arrivals twice at the same tick changes nothing more: no process is queued twice by its arrival. |
| PhaseLaws.IoVisitSpec | script.js:233-247 | One filter visit: an entry whose I/O ends now leaves the I/O queue and moves to its next burst. It rejoins the ready queue when a burst remains, and otherwise completes at the current time. Any other entry is kept. |
| PhaseLaws.IoFoldProcesses | script.js:231-249 | The filter advances exactly the processes in the I/O queue and changes only processes and the ready queue. |
| PhaseLaws.IoFoldQueues | script.js:231-249 | The filter keeps the still-pending entries in order and appends the returning ones to the ready queue in I/O-queue order. |
| PhaseLaws.FinishIoSpec | script.js:231-249 | Step 2 does nothing in single-burst mode. In multiple-burst mode it gives the new I/O queue, ready queue and processes as above, and nothing else changes. |
| PhaseLaws.StartSwitchOutcome | script.js:201-219 | `startContextSwitch` starts a switch if and only if all of these hold: multiple-burst mode, a positive switch time, a non-empty ready queue, a CPU that was not idle, and a head different from the last-run process. It throws exactly on a `null` head after a process has run. Otherwise it changes nothing. |
| PhaseLaws.StartSwitchEffect | script.js:212-217 | A started switch increments `contextSwitches` by exactly 1 and sets `contextSwitchEndTime = currentTime + contextSwitchTime`. A CS segment ends the chart at that time, adding exactly the switch time to the CS span and nothing to other spans. Nothing else changes. |
| PhaseLaws.LoadHeadSpec | script.js:283-314 | A dispatch removes the head, fills the quantum to `timeQuantum`, puts the head on the CPU and makes it the last-run process. It sets `responseTime = respondAt - arrivalTime` only on the first dispatch (`respondedOnce`). A `null` head throws. |
| PhaseLaws.DispatchSpec | script.js:278-319 | With a free CPU and a ready process: a switch starts when one is due, and otherwise the head loads at once. A real head never throws. |
| PhaseLaws.SwitchTickSpec | script.js:252-270 | A switch tick moves the clock by one. On its last tick it ends the switch and loads the head, with the response time taken at `currentTime + 1`. With nothing ready, it marks the CPU idle. |
| PhaseLaws.EarliestArrivalSpec | script.js:325-329 | The earliest arrival is the minimum arrival time over processes not yet arrived. There is none exactly when all have arrived. |
| PhaseLaws.EarliestIoEndSpec | script.js:332-338 | Lowering by the I/O end times gives their minimum together with the arrival minimum. |
| PhaseLaws.NextEventIsMinimum | script.js:322-338 | `nextEventTime` is `Infinity` exactly when there is no event time. Otherwise it is an event time and the least one. |
| PhaseLaws.IdleSkipSpec | script.js:346-357 | The jump moves the clock to the next event. With no I/O pending, the gap is credited to `cpuIdleTime` and to the idle span, as one IDLE segment ending at the event. With I/O pending, only the clock moves. |
| PhaseLaws.ExecuteSpec | script.js:366-372 | Step 5 fires exactly when the quantum and the remaining time are both positive. It then decrements both by 1, makes the process the last-run one, and closes the chart with one tick of that process. Otherwise nothing changes. |
| PhaseLaws.ResolveBurstEnd | script.js:375-386 | A finished burst frees the CPU without throwing. If more bursts remain (multiple-burst mode), the process joins the I/O-queue tail with `ioEndTime = currentTime + 1 + ios[currentBurstIndex]`. Otherwise it completes with `completionTime = currentTime + 1`. No other process changes. |
| PhaseLaws.ResolveQuantumEnd | script.js:388-393 | A spent quantum appends the CPU's occupant to the ready-queue tail, keeping the rest of the queue in order, and frees the CPU. It throws exactly when that occupant is `null`. With quantum left, nothing happens. |
| PhaseLaws.SwitchOnSpentQuantumThrows | script.js:389-391 | A tick that starts a switch (script.js:295) while the previous quantum is spent goes on into step 7. That step pushes `null` onto the ready queue and throws. |
| History.ReadyIds | script.js:30 | `readyQueue.map(p => p.id)` is defined exactly when the queue holds no `null`, and then lists the ids in queue order. |
| History.Find | script.js:47 | `find` gives the first process with the id, or nothing when no process has it. |
| History.Restore | script.js:43-59 | Restoring any snapshot gives a state whose queue references are all in range. |
| HistoryLaws.SaveSpec | script.js:27-39 | `saveState` throws exactly when the ready queue holds a `null`, and then changes nothing. Otherwise it keeps the snapshots up to the cursor and appends a snapshot of the live state. The cursor lands on the new snapshot, so `historyIndex == length - 1`. |
| HistoryLaws.PreviousStepSpec | script.js:452-458 | `previousStep` keeps every snapshot and does nothing at the first snapshot. Otherwise it moves the cursor back one and restores the snapshot it now points at. |
| HistoryLaws.FindAllIds | script.js:47-48 | With distinct ids, resolving the ids of queued processes gives the queue back. |
| HistoryLaws.FindUnique | script.js:47 | With distinct ids, `find` by a process's own id gives back that process. |
| HistoryLaws.ReadyRoundTrip | script.js:30-48 | Saving a `null`-free ready queue as ids and resolving them again gives back the same queue. |
| HistoryLaws.ExecutingRoundTrip | script.js:32-50 | Saving the running process as its id and restoring it, where the `0`/`null` test stands for no process, gives back the CPU's occupant. |
| HistoryLaws.RestoreCapture | script.js:27-59 | Restoring the snapshot `saveState` takes gives the same state back. This needs distinct non-zero ids and a `null`-free ready queue. |
| Scheduler.Step | script.js:221-400 | One tick keeps every queue reference in range. |
| TickLaws.SaveAfterOk | script.js:396 | The save that ends a tick never throws on a `null`-free ready queue and leaves the state as it was. |
| TickLaws.ArriveFinishIoNoNull | script.js:225-249 | Arrivals and I/O completions queue only real processes. |
| TickLaws.ResolveOk | script.js:375-393 | On a `null`-free ready queue, steps 6 and 7 throw exactly on an empty CPU with a spent quantum, leaving one `null` at the tail. Otherwise they leave no `null`. |
| TickLaws.ExecuteAndAdvanceOk | script.js:366-399 | The same holds for steps 5 to 7 and the save that ends the tick. |
| TickLaws.DispatchOk | script.js:278-319 | Dispatching a real head never throws and leaves no `null`. |
| TickLaws.SwitchTickOk | script.js:252-270 | A switch tick never throws on a `null`-free ready queue. |
| TickLaws.ScheduleOk | script.js:252-399 | From a `null`-free ready queue, steps 3 to 7 either leave no `null` or throw with one `null` at the tail. |
| TickLaws.StepOk | script.js:221-400 | From a `null`-free ready queue, a tick that does not throw leaves no `null`. A tick that throws has just pushed one `null` at the tail. |
| TickLaws.RunNullOnlyAfterThrow | script.js:221-400 | Over any sequence of Step and Previous presses, the ready queue holds a `null` only after some press has thrown. |
| TickLaws.StartNoNull | script.js:110-187 | A started simulation holds no `null`. |
| TickLaws.StartedRunNullOnlyAfterThrow | script.js:110-400 | After a successful start, no `null` is queued unless a press of Step has thrown. |
| TickLaws.PreviousStepNoNull | script.js:452-458 | Going back keeps the ready queue `null`-free: a restored queue is rebuilt from ids. |
| RunLaws.ArriveKeeps | script.js:225-228 | Arrivals keep the configuration, every job (id, arrival, bursts, I/O, total) and the accounts. |
| RunLaws.FinishIoKeeps | script.js:231-249 | I/O completion keeps the same, and every completion it makes carries a completion time. |
| RunLaws.StartSwitchKeeps | script.js:201-219 | A started switch adds one switch time of CS chart for one counted switch. |
| RunLaws.IdleSkipKeeps | script.js:346-357 | The jump keeps the idle counter equal to the idle span. |
| RunLaws.ResolveKeeps | script.js:375-393 | Steps 6 and 7 keep jobs and accounts, and stamp every completion. |
| RunLaws.SaveAfterShape | script.js:396-399 | The save at the end of a tick keeps the state, and either changes nothing in the history or saves exactly one snapshot at the cursor. |
| RunLaws.ExecuteAndAdvanceShape | script.js:366-399 | Steps 5 to 7 keep jobs and accounts. When they save, the clock has moved forward. |
| RunLaws.ScheduleShape | script.js:252-399 | Steps 3 to 7 keep jobs and accounts. Any save they make follows a forward move of the clock. |
| RunLaws.StepShape | script.js:221-400 | A tick keeps the configuration, the jobs and the accounts, and never moves the clock back. No process loses its `hasArrived`, `isCompleted` or `respondedOnce` flag. It either leaves the history alone, or saves exactly one snapshot of its new state at the cursor and moves the clock forward. |
| RunLaws.UndoStep | script.js:452-458 | Previous right after a tick that saved gives back exactly the state and the cursor before the tick. This holds under the conditions of `HistoryLaws.RestoreCapture`. |
| RunLaws.UndoSave | script.js:452-458 | Previous right after any save gives back the state, the cursor and the history up to it. |
| RunLaws.StepAccounts | script.js:221-400 | A tick keeps every account in order, in the live state and in every snapshot. |
| RunLaws.PreviousStepAccounts | script.js:452-458 | Going back keeps the cursor in range and every account in order. |
| RunLaws.RunAccounts | script.js:221-400 | Any sequence of Step and Previous presses keeps every account in order. |
| RunLaws.StartAccounts | script.js:110-187 | A start has its accounts in order: the idle lead-in is counted as idle time, and nothing is completed. |
| RunLaws.StartedRunAccounts | script.js:110-400 | In every state a started run reaches, `cpuIdleTime` equals the idle span and the CS span equals `contextSwitches * contextSwitchTime`. |
| RunLaws.CompletedTotals | script.js:466-468 | Once every process has completed, with accounts in order, both totals are numbers. Total turnaround equals total waiting plus total burst. |
| RunLaws.StartedRunTotals | script.js:466-468 | In a started run, once every process has completed, the totals in the results are numbers, related by the total burst. |
| Statistics.CountedMembers | script.js:466 | A process is counted exactly when it is listed and has a positive total burst. |
| Statistics.CountedCounts | script.js:466 | The filter keeps every copy of a process with a positive total burst and no copy of any other. |
| Statistics.CountedAppend | script.js:466 | The filter keeps order: filtering a concatenation concatenates the filtered parts. |
| Statistics.CountedWellFormed | script.js:466 | Built processes all pass the filter. |
| Statistics.TotalsDefined | script.js:467-468 | Each total is a number (not `NaN`) exactly when every counted process has a completion time. |
| Statistics.TurnaroundIsWaitingPlusBurst | script.js:467-468 | Total turnaround is total waiting plus total burst, and one is `NaN` exactly when the other is. |
| ChartLaws.ArriveFinishIoChart | script.js:225-249 | Arrivals and I/O completions keep the chart in order: they touch neither the chart, the clock, the switch nor the CPU. |
| ChartLaws.ExecuteChart | script.js:366-372 | Step 5 keeps the chart merged and in time order, ending it by one tick past the clock, and leaves the clock, the switch and the CPU's occupant alone. |
| ChartLaws.ResolveChart | script.js:375-393 | Steps 6 and 7 leave the chart, the clock and the switch alone, and never put a process on an empty CPU. |
| ChartLaws.ExecuteAndAdvanceChart | script.js:366-399 | Steps 5 to 7 and the clock tick keep the chart in order unless they throw. |
| ChartLaws.StartSwitchChart | script.js:201-219 | A switch started with a free CPU charts up to its end and keeps the chart in order. |
| ChartLaws.DispatchChart | script.js:278-319 | A dispatch with a free CPU outside a switch keeps the chart in order unless it throws. |
| ChartLaws.SwitchTickChart | script.js:252-270 | A switch tick keeps the chart in order unless it throws. |
| ChartLaws.IdleSkipChart | script.js:346-357 | The jump to the next event keeps the chart in order. |
| ChartLaws.ScheduleChart | script.js:252-399 | Steps 3 to 7 keep the chart in order unless they throw. |
| ChartLaws.CaptureInOrder | script.js:27-39 | A snapshot of a state whose chart is in order has its chart in order. |
| ChartLaws.SavedInOrder | script.js:27-39 | A save keeps every snapshot's chart in order when the live chart is. |
| ChartLaws.StepChart | script.js:221-400 | A tick that does not throw keeps the chart of the live state and of every snapshot in order. |
| ChartLaws.PreviousStepChart | script.js:452-458 | Going back keeps every chart in order. |
| ChartLaws.RunChart | script.js:221-458 | Any sequence of presses none of which throws keeps every chart in order. |
| ChartLaws.StartChart | script.js:110-187 | A start gives a chart in order: at most one IDLE segment, from 0 to the first arrival. |
| ChartLaws.StartedRunChart | script.js:110-458 | In every state a started run reaches before a press throws, the chart is merged and in time order, and ends by the clock, or, during a switch, by the switch's end. |
| Simulator.Simulator.constructor | script.js:7-18 | The globals start at their declared values. |
| Simulator.Simulator.SelectMode | script.js:72 | Choosing a mode sets `mode` and nothing else. |
| Simulator.Simulator.AddToGantt | script.js:189-199 | The chart becomes `Timeline.Record` of the old chart, extending the last segment in place or pushing one. |
| Simulator.Simulator.Admit | script.js:225-228 | The arrivals loop, also run for the initial arrivals at script.js:169-174, leaves the object in the state `Engine.Arrive` computes. |
| Simulator.Simulator.FinishIoNow | script.js:231-249 | The filter loop gives `Engine.FinishIo`. |
| Simulator.Simulator.VisitIo | script.js:233-247 | One pass of the filter callback gives `Engine.IoVisit`. |
| Simulator.Simulator.StartContextSwitch | script.js:201-219 | The method's result and new state are those of `Engine.StartSwitch`. |
| Simulator.Simulator.BeginSwitch | script.js:212-214 | A started switch is flagged, counted once and ends `contextSwitchTime` ticks from now. |
| Simulator.Simulator.ContextSwitchTick | script.js:252-270 | Step 3 gives `Engine.SwitchTick`, without touching the history. |
| Simulator.Simulator.DispatchFromReady | script.js:278-319 | Step 4 with a ready process gives `Engine.Dispatch`. |
| Simulator.Simulator.LoadHead | script.js:283-314 | `shift()` and the first-response stamp give `Engine.LoadHead`, including the throw on a `null` head. |
| Simulator.Simulator.Shift | script.js:283-284 | The head leaves the ready queue for the CPU with a full quantum. |
| Simulator.Simulator.FindNextEvent | script.js:322-338 | The two loops compute `Engine.NextEvent`, which `PhaseLaws.NextEventIsMinimum` characterises. |
| Simulator.Simulator.SkipTo | script.js:346-357 | The per-tick idle loop gives `Engine.IdleSkip`. |
| Simulator.Simulator.ExecuteUnit | script.js:366-372 | Step 5 gives `Engine.Execute`. |
| Simulator.Simulator.ResolveBurst | script.js:375-393 | Steps 6 and 7 give `Engine.Resolve`, including the throw on a `null` occupant. |
| Simulator.Simulator.RunAndResolve | script.js:366-393 | Steps 5 to 7 give `Engine.Resolve` after `Engine.Execute`. |
| Simulator.Simulator.SaveAfterTick | script.js:396-399 | The trailing save and the completion test give `Scheduler.SaveAfter`. |
| Simulator.Simulator.ExecuteAndAdvance | script.js:366-399 | Steps 5 to 7, the clock tick and the save give `Scheduler.ExecuteAndAdvance`. |
| Simulator.Simulator.Schedule | script.js:252-399 | Steps 3 to 7 give `Scheduler.Schedule`. |
| Simulator.Simulator.SaveState | script.js:27-39 | `saveState` gives `History.Save`. |
| Simulator.Simulator.RestoreState | script.js:43-59 | `restoreState` gives `History.Restore`. |
| Simulator.Simulator.PreviousStep | script.js:452-458 | `previousStep` gives `History.PreviousStep`. |
| Simulator.Simulator.StepExecution | script.js:221-400 | A tick gives `Scheduler.Step`, history and outcome included. |
| Simulator.Simulator.ReadProcess | script.js:131-152 | One column gives `Process.MakeProc`. |
| Simulator.Simulator.ReadFields | script.js:137-144 | The loop over the burst fields gives `Process.KeptBursts` and `Process.KeptIos`. |
| Simulator.Simulator.BuildProcesses | script.js:130-155 | The column loop gives `Process.Built`. |
| Simulator.Simulator.Reset | script.js:123-128 | The reset leaves the clock, queues, chart, counters and history empty, with the given processes. |
| Simulator.Simulator.Prepare | script.js:123-156 | The reset, the column loop and the sort give `Scheduler.Prepared`. |
| Simulator.Simulator.LeadInNow | script.js:159-167 | The lead-in gives `Scheduler.LeadIn`: an IDLE segment up to the first arrival, counted as idle time, with the clock set to that arrival. |
| Simulator.Simulator.IdleLeadIn | script.js:160-163 | The lead-in loop records one IDLE segment `[0, firstArrival)`. |
| Simulator.Simulator.StartSimulation | script.js:110-187 | `startSimulation` gives `Scheduler.Start`. A rejected configuration reports its error and still stores the quantum and the switch time. |

## Left out

- Rendering, the DOM and the Previous button's enabling (script.js:40, 60, 64-108, 176-186, 402-437, 461-464, 472-479, 481-486): presentation only.
- Playback (`togglePlayPause`, the timer and the speed slider): driver code. A run of presses is modelled by `TickLaws.Run`.
- Screenshot export and `html2canvas`: foreign library calls and file I/O.
- Random default values and `parseInt` of the form fields: the model takes the parsed integers as `ProcessInput` values. A field that fails to parse is 0 there. The number of columns is `|inputs|`.
- Floating-point output (averages with `toFixed`, the total time `currentTime || 1` at script.js:481, CPU utilisation, throughput): only the integer sums are modelled.
- `executionTrace` and `addTrace`: log text. Only the throw at the trace line of step 7 is modelled.
- `deepClone`: modelled as value copying of datatypes. In the source, a snapshot, restored processes and the live processes never share objects, and values give exactly that.
- `lastExecutedProcess`: held as the id of the process. The source only ever compares its `id`.
- Process ids: the number `i + 1` rather than the string `P<i+1>`. Ids are only ever compared for equality, and `id != 0` stands for the truthiness test at script.js:49.
- PhaseLaws.FinishIoSpec: requires an I/O queue without repeats. Every queue a run builds has none, but that invariant is not proved.
- RunLaws.UndoStep: requires distinct non-zero ids, a `null`-free ready queue and a cursor snapshot equal to the live state. A run keeps these, but the model does not prove it for whole runs.
- ChartLaws.StartedRunChart: orders the chart only while no press has thrown. After a throw, the chart may end past the clock.
- Conservation of processes (each job on the CPU, in exactly one queue, unarrived or done) is not proved as an invariant of a run. `PhaseLaws.FinishIoSpec`, `RunLaws.UndoStep` and `RunLaws.StartedRunTotals` below would need it.
- RunLaws.StartedRunTotals: gives the totals once every process has completed. That a run which reports completion at script.js:340-343 has completed every process would need a conservation invariant (each job on the CPU, in exactly one queue, unarrived or done), which is not proved.
