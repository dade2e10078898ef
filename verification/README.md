# KPlayer control plane: a verified model

KPlayer's management layer decides what a live stream plays and when: a scheduler fires tasks
and hands plays to a Player, an engine keeps one ffmpeg process streaming, a monitor switches
outputs, and a document store holds the media, playlists, tasks and snapshots all of them refer
to. This project models those parts in Dafny 4.11 and proves what holds of them over every run.

Check the whole project with `dafny verify dfyconfig.toml`. The modules, by component:

| component | specification | theorems | objects |
|---|---|---|---|
| play scheduler | `PlayScheduler` | `SchedulerRuns`, `SchedulerQueues`, `SchedulerTicks`, `SchedulerInterrupts`, `SchedulerResume`, `SchedulerRestarts` | `SchedulerObject` |
| ffmpeg engine | `EngineProtocol` | `EngineRuns`, `EngineLife`, `EngineLedger`, `EngineNames`, `EngineQueue`, `EngineAdvance`, `EngineStops`, `EngineComebacks`, `EngineCommands`, `EngineStarts` | `EngineObject` |
| cron | `Cron`, `CronParser`, `Calendar`, `Division` | `CronMeaning` and the same files | `CronParser`, `CronMeaning` |
| failover monitor | `Failover` | `Failover` | `Failover` |
| document store | `Documents`, `MediaLibrary`, `Playlists`, `ScheduleTasks`, `Reviews`, `Snapshots` | `DocumentRuns`, `DecisionRuns`, `PlaylistEffects` and the service files | `StoreObject` |
| fallback chains | `Fallback` | `Fallback` | `Fallback` |
| retention | `Retention`, `RemoteCommands`, `Sequences` | in the same files | in the same files |
| texts | `Placeholders`, `FilterPath`, `Strings` | in the same files | `Placeholders` |
| keepers | `KeeperProtocol` | `KeeperProtocol` | `KeeperObject` |

How the concurrent parts are modelled. Every section that runs under a lock is one function on a
state; a run is any interleaving of such sections with the events outside (Player returns, process
exits, timers, disk writes that succeed or fail). The classes carry the fields of the original
objects, and each of their methods is proved to compute the function of its section, loops
included. The theorems are about the functions and hold for every run of them. What a theorem
demands of a state is written in the terms of the source (a priority text, a weekday by its date, a
media time by the lines read), so that it does not lean on the helper functions of the model.

Assumptions that the theorems carry:

- The scheduler states that its guarantees need a Player that honours cancellation
  (management/scheduler.go:460-464). This is `PlayScheduler.PromptRun`: a cancelled Play returns
  before the play that displaced it returns. Queue conservation and schedule entries need no such
  assumption, nor does any step after a Stop for what the Stop ended;
  `SchedulerInterrupts.LateReturnBreaks` shows what a late return does to the others.
- Snapshot ids are drawn fresh. Referential integrity needs no freshness of any id.
- Cron times are clock readings in a zone with a fixed offset of whole minutes.
- The names of a failover's two outputs stay the same while a run lasts.

What the proofs found about the code:

- **Stepped cron ranges.** The loop variable of `parseFieldPart` is a 64-bit integer, and a step
  close to the largest one overflows: `5-59/9223372036854775807` selects 1 and 3 as well
  (`CronMeaning.OverflowExample`). A part selects a value of its field's range that it does not
  denote if and only if its start less 2^64 minus twice the step is still in the range
  (`CronMeaning.StraysIff`); a parsed expression matches exactly the minutes its text selects, such
  values included (`CronMeaning.MatchesText`).
- **Cron liveness.** An expression fires from every start time if and only if its day-of-week is
  restricted, or its day-of-month is not, or a chosen day and month form a date of a common year
  (`Cron.FiresFromEveryStart`): `0 0 29 2 *` returns the zero time when asked in the spring of 2096. Only a
  plain `*` counts as unrestricted; `*/1` selects every value and counts as restricted.
- **A stopped stream can come back.** The comment at engine/ffmpeg.go:182-185 says that a paused
  or stopped stream stays so. Stop does not disarm the timers of queue advance and reconnect: after
  a crash, a Stop goes through, changes nothing, and the reconnect starts the stream
  (`EngineComebacks.StoppedComesBack`). An engine at rest starts again in some run if and only if a
  timer is pending or an exit watcher is about to set one (`EngineStops.StoppedStaysStopped`). A
  Stop that marks its process before the exit is recorded, with no timer pending, is final
  (`EngineStops.MarkedStopIsFinal`, `EngineCommands.StopEnds`).
- **Pause drops the queue.** Continue resumes exactly at the position of the pause, as promised,
  but as a queue of that one item, without its audio and subtitle paths
  (`EngineCommands.PauseThenContinue`).
- **An interrupt over an interrupt.** The public Interrupt is not held off by an active interrupt,
  and the play the first interrupt was to restore is then never dispatched again
  (`SchedulerRestarts.PublicInterruptForgets`); `SchedulerInterrupts.TargetKeptIff` says which steps
  keep a resume target.
- **A resume target without an interrupt.** The comment at management/scheduler.go:85-87 says that
  there is none. That is so throughout a run if and only if no timed interrupt of it came over a
  regular play while no Player was attached (`SchedulerResume.ResumeOnlyInInterrupt`);
  `SchedulerResume.TargetWithoutInterrupt` is such a case.
- **Error kinds.** Create promises ErrInvalid for an unknown media id (management/playlist.go:117-119)
  and MoveItem promises to clamp every index (management/playlist.go:278-280); the code answers
  ErrNotFound, and ErrInvalid for a source index out of range (`Playlists.MoveRefusedIff`). ParseCron
  promises an error wrapping ErrInvalid for every malformed text (management/cron.go:53-54); only a
  wrong number of fields gives one (`ScheduleTasks.RefusedAs`). The model follows the code.
- **Task actions.** Replace never copies the action, so the rule of one target for a play and none
  for a stop holds of what it stores exactly when the task already had the action of the
  specification (`ScheduleTasks.ReplaceTargets`).
- **Restore is three steps.** A snapshot stored between the carry-over and the swap of a Restore is
  no longer listed afterwards (`DocumentRuns.InterleavedSnapshotIsLost`). A review decision is
  final only as long as nothing is restored: a Restore keeps every decision if and only if none was
  made since Create read the document (`DecisionRuns.RestoreKeepsDecisionsIff`), and can make an
  applied suggestion pending again (`DecisionRuns.RestoreUndoesApproval`).
- **A keeper send waits for its receiver under two locks.** Until a receiver comes, no
  registration, no other trigger and no Close of that context goes through
  (`KeeperProtocol.SendBlocks`), so a waiter that gave up blocks in its own Close.

## Model

| member | source | states |
|---|---|---|
| SchedulerRuns.OneUncancelledPlay | management/scheduler.go:556-601 | in every reachable state, over all interleavings of ticks, public interrupts, Play returns, Player changes, Stop and Start, at most one live Play has an uncancelled context, and it runs the play recorded as current |
| SchedulerRuns.NoOverlapPerTask | management/scheduler.go:436-440 | no two Play calls of one task are live at once, though a task may be queued twice and preempted while it is queued |
| SchedulerRuns.MarkersExact | management/scheduler.go:569-571 | a task is marked in flight exactly while one of its Play calls is live |
| SchedulerRuns.DisplacedByRule | management/scheduler.go:442-458 | a play took the slot from another only as an interrupt, or with priority "critical" from a regular one of another priority |
| SchedulerRuns.FirePrecedence | management/scheduler.go:442-458 | with a Player attached a regular play task, handed over with its own targets and an empty priority as "normal", starts at once exactly when the slot is free or it is "critical" over a regular play that is not, waits exactly when it is "important" behind a regular play that is neither with fewer than eight waiting, moves nothing otherwise, and records its run |
| SchedulerRuns.FireApart | management/scheduler.go:465-505 | a task whose Play still runs leaves no trace, and a stop action only records its run |
| SchedulerRuns.QueueDiscipline | management/scheduler.go:81-97 | at most eight plays wait, all with priority "important" and no interrupts, and none while the slot is free |
| SchedulerRuns.RunKeeps | management/scheduler.go:234-711 | the invariant behind these theorems holds after every prompt run that starts in it |
| SchedulerQueues.QueueConservation | management/scheduler.go:533-544 | in every run, prompt or not, the plays ever queued are, in FIFO order, those that left (dispatched, dropped for lack of a Player, discarded by Stop) followed by those still queued; the queue stays within eight; each was queued behind a normal play, and none is lost to a dead context |
| SchedulerQueues.DrainServes | management/scheduler.go:686-692 | a drain starts the head of the queue and nothing else or, without a Player, empties the queue |
| SchedulerTicks.TickFiresDue | management/scheduler.go:348-379 | but for the schedule a tick is the expiry of the interrupt followed by the fires, in order, of exactly the tasks whose unchanged entry had come due |
| SchedulerTicks.TickSchedule | management/scheduler.go:348-410 | after a tick exactly the enabled tasks have an entry: the old one if unchanged and not due, else the interval or cron time counted from now; every entry lies in the future |
| SchedulerInterrupts.InterruptHolds | management/scheduler.go:444-446 | while an interrupt plays, no ticks, stale returns or Player changes move the current play, its resume target or the queue; its context is cancelled exactly if a tick reached the deadline |
| SchedulerInterrupts.EndRestores | management/scheduler.go:664-681 | the end of an interrupt puts its target back in a fresh context, ahead of the queue |
| SchedulerInterrupts.EndServes | management/scheduler.go:664-692 | the end of any other play, a one-shot interrupt included, dispatches the head of the queue or frees the slot |
| SchedulerInterrupts.FireInterrupts | management/scheduler.go:506-512 | an interrupt task takes the slot from any regular play: it plays in a fresh context, what played is cancelled, and only a positive duration sets target and deadline |
| SchedulerInterrupts.InterruptRefused | management/scheduler.go:301-309 | the public Interrupt is refused for no target or two, then on a stopped scheduler, and a refusal changes nothing |
| SchedulerInterrupts.PublicInterrupts | management/scheduler.go:301-316 | otherwise the request as given, an empty priority as "normal", takes the slot from whatever plays |
| SchedulerInterrupts.InterruptAims | management/scheduler.go:643-656 | a task's timed interrupt over a play cancels it, remembers it and sets the deadline |
| SchedulerInterrupts.InterruptRestores | management/scheduler.go:643-711 | from the fire through any quiet run to the interrupt's return: the very next current play is the displaced one with its own request, and the queue is as it was |
| SchedulerInterrupts.TickOnlyExpires | management/scheduler.go:348-379 | during an interrupt a tick expires it, keeps the schedule and records runs, and leaves playback alone |
| SchedulerInterrupts.FireIsSkipped | management/scheduler.go:466-483 | a fire during an interrupt changes nothing but the recorded last run |
| SchedulerInterrupts.TargetKeptIff | management/scheduler.go:643-681 | while an interrupt plays, a step leaves its resume target alone exactly unless it is a Stop, the end of the interrupt, or an accepted public interrupt that does not put the same play there |
| SchedulerInterrupts.LateReturnBreaks | management/scheduler.go:668-677 | without prompt returns: a restored play is the same object, so a late return of its first goroutine frees the slot and clears the marker while the restored Play goes on |
| SchedulerRestarts.NothingSurvivesStop | management/scheduler.go:258-279 | Stop cancels every live Play, and over any steps after it, restarts included, no play that was live, current, queued or to be restored is ever dispatched again |
| SchedulerRestarts.StopAndStart | management/scheduler.go:234-279 | Stop cancels every Play, empties slot, queue and interrupt state and lets nothing be dispatched; Start gives an idle scheduler a live context no earlier Play belongs to; neither acts twice |
| SchedulerRestarts.PublicInterruptForgets | management/scheduler.go:301-316 | after a public interrupt over an interrupt the play object the first one was to restore (another than that interrupt) is never dispatched again, in any run that follows, prompt or not |
| SchedulerResume.FireTargetsIff | management/scheduler.go:465-548 | a fire leaves a resume target without an interrupt exactly if it is a timed interrupt over a regular play with no Player attached |
| SchedulerResume.StepTargetsIff | management/scheduler.go:85-87 | the same exact condition for every step, for a tick fire by fire |
| SchedulerResume.ResumeOnlyInInterrupt | management/scheduler.go:85-87 | throughout a prompt run a resume target is set only while an interrupt plays, if and only if no timed interrupt of the run came over a regular play while no Player was attached |
| SchedulerResume.AttachedIsEnough | management/scheduler.go:318-324 | with a Player attached at every step it always holds |
| SchedulerResume.TargetWithoutInterrupt | management/scheduler.go:643-656 | without a Player a timed interrupt cancels the current play and leaves it as the resume target while no interrupt plays |
| SchedulerObject.Scheduler.Start | management/scheduler.go:234-254 | cancels the previous run's context and installs a fresh one; changes nothing while running |
| SchedulerObject.Scheduler.Stop | management/scheduler.go:258-279 | cancels the run and drops slot, queue and interrupt state; changes nothing when stopped |
| SchedulerObject.Scheduler.Interrupt | management/scheduler.go:301-316 | refuses a bad target, then a stopped scheduler, else starts the interrupt |
| SchedulerObject.Scheduler.SetPlayer | management/scheduler.go:320-324 | swaps the Player and nothing else |
| SchedulerObject.Scheduler.Tick | management/scheduler.go:348-379 | expiry, pruning and the loop over the tasks compute the specification's tick |
| SchedulerObject.Scheduler.TickTask | management/scheduler.go:366-378 | one task of a tick: refresh its entry, fire if due, advance |
| SchedulerObject.Scheduler.PruneSched | management/scheduler.go:358-363 | entries of tasks no longer enabled are forgotten, the others kept |
| SchedulerObject.Scheduler.Fire | management/scheduler.go:465-548 | in-flight check, interrupt, stop action, priorities and queue limit compute the specification's fire |
| SchedulerObject.Scheduler.StartPlayLocked | management/scheduler.go:556-601 | a dispatch, or nothing for lack of a Player or of a live context |
| SchedulerObject.Scheduler.StartInterruptLocked | management/scheduler.go:643-656 | target and deadline are set, the current play cancelled, the interrupt dispatched |
| SchedulerObject.Scheduler.PlayEndedLocked | management/scheduler.go:664-681 | marker, slot, restore and drain, for a current and for a superseded play |
| SchedulerObject.Scheduler.DrainLocked | management/scheduler.go:686-692 | the loop over the queue computes the recursive drain |
| SchedulerObject.Scheduler.ExpireInterruptLocked | management/scheduler.go:703-711 | cancels an interrupt whose deadline has passed, once |
| SchedulerObject.Scheduler.PlayReturns | management/scheduler.go:572-581 | the cleanup of a Play goroutine, whenever it returns |
| EngineRuns.RunningIffOneProcess | engine/ffmpeg.go:264-357 | outside a launch, Running holds exactly if a process is recorded, which is then the only unfinalized one; never paused and running |
| EngineRuns.NeverTwoStreams | engine/ffmpeg.go:264-357 | two processes never stream at the same time, launches included |
| EngineRuns.NeverReplaced | engine/ffmpeg.go:564-576 | an exit watcher always finds its own process recorded, so the branch for a replaced process is dead |
| EngineRuns.LinesAreCurrent | engine/ffmpeg.go:666-717 | a progress or stderr line is folded in only for the recorded process, and all lines kept are its own |
| EngineRuns.OffsetsConserved | engine/ffmpeg.go:431-471 | over any number of pauses the start offset and the resume offset are the sums of the history kept beside them, on the same source; OffsetsAccounted ties that history to the steps of the run |
| EngineLedger.OffsetsAccounted | engine/ffmpeg.go:431-471 | in every run the offset a stream was started at, and the one a paused stream resumes at, is the seek of a start of this run on the same source plus the media times that the lines of its processes had reported to pauses of this run afterwards |
| EngineLife.FieldsShowLife | engine/ffmpeg.go:328-349 | in every run the fields show the process started last as the steps tell it: its item with audio and subtitle, its start offset, its recorded exit code, the media time of its last progress line or zero, and the last twenty lines of its error output in order |
| EngineNames.SourcesNamed | engine/ffmpeg.go:227-257 | in every run a stream that runs has a source, and so has every item queued |
| EngineRuns.ContinueOnlyPaused | engine/ffmpeg.go:455-471 | a resume position is kept only while paused, so Continue does nothing to a running stream |
| EngineRuns.RunKeeps | engine/ffmpeg.go:227-661 | the invariant of the protocol holds over every run |
| EngineQueue.PlaybackOrder | engine/ffmpeg.go:599-637 | once StartQueue has started the first of n items, whatever was started before: without operator commands and with clean ends, the k-th item started since is item k mod n when looping more than one item and item k, at most n of them, otherwise; the index stays in range; a cleared queue played every item once |
| EngineQueue.QueueCommand | engine/ffmpeg.go:242-357 | StartQueue on an engine at rest, section by section, leads to that state, the first item with its audio and subtitle at the given offset |
| EngineAdvance.ItemAdvances | engine/ffmpeg.go:599-637 | when an item ends cleanly and another follows, the threads start the next one, or after the last one of a looping queue the first, from its beginning |
| EngineAdvance.QueueIsPlayed | engine/ffmpeg.go:242-357 | from StartQueue on an engine at rest some run of clean ends reaches the k-th item, for every k of the queue and, looping over more than one, for every k at all |
| EngineAdvance.QueueEnds | engine/ffmpeg.go:603-635 | when the last item of a queue that does not loop ends, or the only one of any queue, nothing runs and nothing is pending |
| EngineStops.StoppedStaysStopped | engine/ffmpeg.go:599-660 | an engine at rest can start again by itself if and only if a timer is pending or a watcher is about to set one |
| EngineStops.MarkedStopIsFinal | engine/ffmpeg.go:369-417 | once Stop has marked a process whose exit is not recorded, with no timer pending, no process is launched again whatever the threads do without the operator |
| EngineStops.StopDoesNotDisarm | engine/ffmpeg.go:363-379 | Stop on a stream that is down changes nothing, so a pending timer survives it |
| EngineStops.NoOutputsNoLaunch | engine/ffmpeg.go:288-290 | without outputs no process is launched, whatever anybody does but configure some |
| EngineComebacks.CrashArms | engine/ffmpeg.go:639-660 | a process that crashes leaves the engine down with its exit code, and with a pending reconnect at its source and offset exactly if a positive interval is configured |
| EngineComebacks.StoppedComesBack | engine/ffmpeg.go:182-185 | a concrete run: start, crash, a Stop that goes through and changes nothing, and then the stream starts again without the operator |
| EngineCommands.StopEnds | engine/ffmpeg.go:363-417 | a Stop of a streaming engine that nothing disturbs ends, whatever code the process exits with, in a state from which the threads alone never start a stream |
| EngineCommands.PauseThenContinue | engine/ffmpeg.go:427-471 | Pause, then Continue: the same source plays on at the media time the pause found it at, whatever the exit code; of a queue only that item is left |
| EngineCommands.LineThenPause | engine/ffmpeg.go:666-679 | after a progress line with media time t, Pause and Continue resume at the start offset plus t |
| EngineStarts.StartsFromRest | engine/ffmpeg.go:227-357 | StartAt, Continue and Skip on an engine that is down lead, section by section, to a stream of the source asked for at the offset asked for, as a queue of its own |
| EngineStarts.StartReplaces | engine/ffmpeg.go:264-357 | over a running stream they end that one first, whatever code it exits with |
| EngineStarts.SkipRestarts | engine/ffmpeg.go:473-486 | Skip plays the current source from its beginning again |
| EngineStarts.WhatCommandsAsk | engine/ffmpeg.go:457-486 | StartAt asks for what it is given, Continue for the position kept, Skip for the current source from zero; without a source the last two do nothing |
| EngineStarts.StartFails | engine/ffmpeg.go:288-290 | without outputs a start can fail and release the lock, leaving all but the queue as it was |
| EngineStarts.PauseOfNothing | engine/ffmpeg.go:431-439 | Pause on a stream that is down changes nothing |
| EngineStarts.ConfigCounts | engine/ffmpeg.go:641-650 | the configuration given last decides whether a crash is followed by a reconnect |
| EngineCommands.WatchEnds | engine/ffmpeg.go:550-661 | the sections of an exit watcher that nothing interrupts come to one decision: record the exit, then advance, wrap, finish the queue, reconnect or nothing |
| EngineObject.FFmpegEngine.Install | engine/ffmpeg.go:328-349 | the last section of a start resets resume position, stop mark, media time and stderr tail |
| EngineObject.FFmpegEngine.Stop | engine/ffmpeg.go:369-417 | read, mark, and the exit recorded meanwhile by the watcher compose to the stopped fields of EngineCommands; nothing when nothing runs |
| EngineObject.FFmpegEngine.Pause | engine/ffmpeg.go:431-453 | position read, stop, position stored: what PauseThenContinue resumes from; nothing when nothing runs |
| EngineObject.FFmpegEngine.WatchExit | engine/ffmpeg.go:550-661 | the whole watcher composes to the fields and the timer of WatchEnds |
| EngineObject.FFmpegEngine.FoldLine | engine/ffmpeg.go:666-717 | one output line: the media time, or the stderr tail of at most twenty lines |
| Cron.Next | management/cron.go:95-111 | the minute loop computes the first match of the five-year window |
| Cron.NextIsLeast | management/cron.go:91-111 | the answer is minute-aligned, strictly later, matches, and nothing in between matches |
| Cron.FirstMatchIsLeast | management/cron.go:99-109 | the search finds the least match of its window, and none only if there is none |
| Cron.HorizonIs | management/cron.go:98 | the search ends five years on at the same time of day and date, or on March 1st after a February 29th |
| Cron.NoneIff | management/cron.go:91-111 | from each start: the zero time exactly if day-of-week is unrestricted, day-of-month restricted, and no chosen minute of the five-year window falls on a chosen pair |
| Cron.NoneMeansNoDate | management/cron.go:91-111 | the zero time means an unrestricted day-of-week, a restricted day-of-month, and that no whole day of the window, first and last year included, is a chosen pair |
| Cron.FiresFromEveryStart | management/cron.go:91-127 | an expression fires from every start exactly if day-of-week is restricted, day-of-month is not, or a chosen pair is a date of a common year |
| Cron.NeverFires | management/cron.go:91-111 | an expression whose pairs are no dates even of a leap year never fires |
| CronParser.FieldSelectsUnion | management/cron.go:129-191 | the set kept for a field, keys outside its range included, is exactly the union its comma parts denote if and only if no step overflows |
| CronParser.FieldRefusedIff | management/cron.go:148-208 | a field is refused exactly when a part has a bad step, an unreadable or out-of-range value or an inverted range |
| CronParser.BoundsMean | management/cron.go:148-180 | the bounds the parser computes for a part lead to the values the part denotes |
| CronParser.WalkIsDenoted | management/cron.go:182-187 | the 64-bit loop inserts every step-th value of the range exactly if the last addition does not overflow, and a negative one otherwise |
| CronParser.ParsedIsUsable | management/cron.go:55-89 | every field of a parsed expression has a value in its range, day-of-week within 0 to 6, and only a plain star is unrestricted |
| CronParser.ParsedFires | management/cron.go:55-127 | a parsed expression fires from every start exactly if it is live |
| CronMeaning.ParseCron | management/cron.go:55-89 | accepts exactly five fields of well-formed parts, and what it returns matches exactly the minutes the text selects, 7 being Sunday and either day field counting when both are restricted |
| CronMeaning.MatchesText | management/cron.go:13-22 | the same of CronOf: matching computed on the parsed sets is selection read off the text |
| CronMeaning.NextOfText | management/cron.go:91-111 | the next fire time is the first later minute the text selects, and none means that the text selects none of the window |
| CronMeaning.FoldMeans | management/cron.go:82-86 | after the fold the weekdays are 0 to 6, and 0 is selected exactly if the field selects 0 or 7 |
| CronMeaning.NamesAreNumbers | management/cron.go:24-32 | month and weekday names stand for 1 to 12 and 0 to 6 in calendar order |
| CronMeaning.FieldInRange | management/cron.go:129-191 | in its range, overflow or not, a field selects exactly what its parts denote and what a part strays to, every two overflowing steps further down |
| CronMeaning.StraysIff | management/cron.go:182-187 | a part selects a value of the range it does not denote exactly if its start less 2^64 minus twice the step is still in the range |
| CronMeaning.SelectsDenoted | management/cron.go:13-22 | a field none of whose parts does so selects, in its range, exactly what it denotes |
| CronMeaning.OverflowExample | management/cron.go:182-187 | the parsed minute field 5-59/9223372036854775807 selects 1, 3 and 5 and denotes 5 |
| CronParser.ParseField | management/cron.go:129-146 | the loop over the comma parts computes their values or the first error |
| CronParser.FieldBuilder.AddPart | management/cron.go:148-191 | one part adds the values of its stepped loop, or fails and adds nothing |
| CronParser.FieldBuilder.AddRange | management/cron.go:129-138 | a plain star adds the whole range |
| Calendar.DateRoundTrip | management/cron.go:103-105 | day numbers and Gregorian dates: the fields of a date's day number are that date |
| Calendar.FieldsRoundTrip | management/cron.go:103-105 | the fields of a day are a real date whose day number is that day |
| Calendar.CivilDay | management/cron.go:103-105 | the day number of every real date in closed form |
| Calendar.WeekdayIsCivil | management/cron.go:104 | the weekday of every day is that of its date by Sakamoto's formula |
| Failover.BackupIssuedExactly | management/failover.go:524-550 | the backup is switched to exactly when the primary is active and every report since a tick at least the threshold ago showed it down |
| Failover.BackupOnlyAfterThreshold | management/failover.go:477-550 | every switch to the backup is preceded by a tick, at least the threshold earlier, from which on every successful report showed the primary down |
| Failover.PrimaryIssuedExactly | management/failover.go:524-538 | the primary is switched back to exactly when it is up, the backup is active and the policy is not manual |
| Failover.UpMeans | management/failover.go:477-486 | an output is up exactly if the last state reported under its name is a connected one |
| Failover.SwitchesAlternate | management/failover.go:524-568 | successful switches alternate, the backup first, through reader errors and failed switches, and tell the active output |
| Failover.ManualSwitchesOnce | management/failover.go:532-538 | under the manual policy at most one switch succeeds per enabled run |
| Failover.TimerIsStreak | management/failover.go:524-550 | the disconnect timer is the start of the current down streak while the primary is active, and unset while the backup is |
| Failover.SwitchedAtIsLast | management/failover.go:556-568 | the switch time kept is that of the last successful switch since the failover was enabled |
| Failover.Validate | management/failover.go:225-253 | accepts exactly a name, two outputs that differ when trimmed, a known or empty policy and a positive threshold, and returns it trimmed with the policy filled in |
| Failover.RefusedFor | management/failover.go:225-253 | each refusal names the first thing wrong |
| Failover.ValidatedIsNormal | management/failover.go:221-224 | an accepted specification is a normal form: validating it again changes nothing |
| Failover.Monitor.Start | management/failover.go:411-427 | a start forgets the runtime of the previous run; refused while running |
| Failover.Monitor.Stop | management/failover.go:431-441 | stops the monitor and nothing else |
| Failover.Monitor.Tick | management/failover.go:477-507 | every enabled failover is evaluated once, whatever the map order, disabled ones are forgotten, and a reader error changes nothing |
| Failover.Monitor.EvaluateLocked | management/failover.go:524-550 | the timer and the switch of one evaluation |
| Failover.Monitor.SwitchLocked | management/failover.go:556-568 | the active output changes only when the switch succeeded |
| DocumentRuns.RunKeeps | management/store.go:161-203 | in every reachable state, with service operations, Create and Restore interleaved phase by phase and writes that may fail, every reference of the live document and of every payload resolves, no two media share a path, every task is sound, no payload holds a snapshot, and every stored snapshot is the one issued under its id |
| DocumentRuns.StepKeeps | management/store.go:161-203 | each such step keeps that |
| DocumentRuns.ApplyKeepsConsistent | management/store.go:155-182 | every committed service operation leaves a consistent document |
| DocumentRuns.StoredPayloads | management/config_snapshot.go:72-81 | the references of every stored payload resolve, and it holds no snapshot and no template |
| DocumentRuns.SnapshotsNeverChange | management/config_snapshot.go:166-179 | a snapshot stored now and one stored later under the same id are equal, payload and hash included |
| DocumentRuns.SnapshotRoundTrip | management/config_snapshot.go:72-198 | Create, any events that leave the snapshot stored, then Restore: media, playlists, tasks, suggestions and scenes are exactly those Create read, the history and templates those at the carry-over, the write time the new one |
| DocumentRuns.RestoreMeans | management/config_snapshot.go:173-198 | a Restore, its phases interleaved with anything, puts back the payload issued under the id |
| DocumentRuns.CreateIssues | management/config_snapshot.go:90-121 | what a Create stores is the five business collections of the document it read, with its caption, and no history, whatever happened in between |
| DocumentRuns.InterleavedSnapshotIsLost | management/config_snapshot.go:190-197 | a snapshot stored between the carry-over and the swap of a Restore is gone after the swap |
| DocumentRuns.FailedWrites | management/store.go:161-203 | a write that fails leaves the live document and its history as they were |
| DocumentRuns.WritesMean | management/store.go:155-182 | a write that succeeds makes the changed copy live, stamped with its time; an operation that fails or has nothing to do changes nothing |
| DocumentRuns.CreateStores | management/config_snapshot.go:112-120 | the second phase of Create appends its snapshot and rolls the history; the business collections stay |
| DocumentRuns.DeletionsMean | management/config_snapshot.go:152-162 | a snapshot, a scene or a template is deleted by its id: one with the id goes, or there is none and nothing changes |
| DecisionRuns.DecisionsAreFinal | management/suggestion.go:46-48 | a decided suggestion never changes in a run without a swap of a Restore |
| DecisionRuns.RestoreKeepsDecisions | management/config_snapshot.go:173-198 | whatever ran before and between its phases, a Restore keeps every decision of the document it replaces exactly if the payload issued under its id holds them |
| DecisionRuns.RestoreKeepsDecisionsIff | management/config_snapshot.go:72-198 | Create, then edits, then Restore, interleaved with anything but another swap: every decision stands exactly if none was made since Create read the document |
| DecisionRuns.RestoreUndoesApproval | management/suggestion.go:46-48 | a concrete run: suggested, captured, approved, restored, and the suggestion is pending again |
| MediaLibrary.DeleteGuardIsExact | management/media.go:196-223 | with unique ids a deletion is refused as in use exactly when it would leave a dangling reference |
| MediaLibrary.PrepareMeans | management/media.go:290-314 | an entry is refused for a blank path or an unknown order; what the caller gave is kept, and what is missing comes from file, path, clock and drawn id |
| MediaLibrary.RegisterIff | management/media.go:119-174 | a batch goes through exactly if each entry can be prepared and no path is registered already or twice in the batch, and then the prepared entries follow in order |
| MediaLibrary.AddAndScanMean | management/media.go:119-274 | adding and scanning change nothing of the document but its media |
| MediaLibrary.RegisterKeeps | management/media.go:119-174 | a batch is added whole or not at all, after the existing entries, and paths stay distinct |
| MediaLibrary.MergeKeeps | management/media.go:237-268 | a scan keeps the id, path, creation time, kind, order and place of every entry and adds new paths only |
| MediaLibrary.MergeLists | management/media.go:243-268 | every file found is listed afterwards as it was found when no later file has its path, a new one with its drawn id, a known one under the id it had |
| MediaLibrary.MergeKeepsProbe | management/media.go:249-255 | a file found without being probed leaves the probe data of its entry alone |
| MediaLibrary.MergeSkips | management/media.go:243-268 | an entry whose file was not found is left as it is |
| Playlists.PickRefusal | management/playlist.go:443-459 | a list of items is refused exactly when a non-blank id is unknown |
| Playlists.PickedExist | management/playlist.go:443-459 | every accepted item resolves to media |
| Playlists.RemovedMembers | management/playlist.go:259-276 | every occurrence of the item goes, and nothing changes when it is absent |
| Playlists.RemovedKeepsOthers | management/playlist.go:259-276 | every other item keeps all its occurrences |
| Playlists.MoveProperties | management/playlist.go:281-306 | a move puts the item at the target, keeps the others in order, and the reverse move undoes it |
| Playlists.MovePermutes | management/playlist.go:281-306 | a move is a permutation |
| Playlists.MoveItemBack | management/playlist.go:281-306 | a move that changed the order is undone by the move back, in a second update |
| Playlists.MoveRefusedIff | management/playlist.go:278-296 | a move is refused exactly if the list has two items or more and the source is outside it, and a no-op exactly if the list is shorter or the item already stands there |
| Playlists.AddItemIdempotent | management/playlist.go:229-250 | adding an item that was just added is a no-op |
| Playlists.RemoveItemIdempotent | management/playlist.go:257-272 | removing an item that was just removed is a no-op |
| Playlists.EditedItemsExist | management/playlist.go:146-163 | whatever the edit, every item of the changed playlist resolves |
| Playlists.MoveInPlace | management/playlist.go:298-303 | closing the gap and opening one at the target, in place, is that move |
| Playlists.EditKeepsRefs | management/playlist.go:146-163 | every edit of a playlist the service makes keeps referential integrity |
| Playlists.DeleteGuardIsExact | management/playlist.go:178-204 | with unique ids a deletion is refused as in use exactly when it would leave a dangling reference |
| PlaylistEffects.PickedInOrder | management/playlist.go:438-459 | a list is accepted exactly if its ids that are not blank are known, and the items are those ids, trimmed, in the order given |
| PlaylistEffects.RemovedInOrder | management/playlist.go:259-276 | removing keeps exactly the other items, in order |
| PlaylistEffects.EditMeans | management/playlist.go:142-306 | each edit goes through exactly under its own condition and leaves its own items; of the document only items, fallback and update time of that playlist change |
| PlaylistEffects.AddItemMeans | management/playlist.go:229-255 | one more item at the end, of an existing media not listed yet; nothing else changes |
| PlaylistEffects.CreateMeans | management/playlist.go:117-140 | created exactly with a name and known items; stands at the end with what was given |
| PlaylistEffects.DeleteMeans | management/playlist.go:178-204 | the playlist with the id goes and only that one |
| Fallback.ResolveWithFallback | management/playlist.go:348-396 | the loop answers what the first position of the chain that revisits, answers, ends or has used up five hops calls for |
| Fallback.AnswersIff | management/playlist.go:331-396 | media are returned exactly when one of the first six playlists of the chain resolves to a non-empty list, and they are those of the first that does |
| Fallback.UsedIff | management/playlist.go:340-392 | a fallback was used exactly when the playlist asked for does not answer and has one |
| Fallback.CycleIff | management/playlist.go:356-360 | a cycle is reported exactly when the chain comes back to a playlist within five hops before one answers |
| Fallback.TooDeepIff | management/playlist.go:384-388 | the depth error is reported exactly when six different playlists in a row do not answer and the sixth names a fallback |
| Fallback.ConsistentChain | management/playlist.go:331-421 | in a consistent document an existing playlist resolves unless its chain is cyclic or too deep, and every playlist passed over resolves |
| Fallback.PlaylistMeans | management/schedule.go:314-323 | a playlist is the first one with its id, and its fallback the one it names |
| Fallback.ItemsMean | management/playlist.go:398-421 | a playlist resolves exactly if it exists and all its items do, to the first media with each item's id in the order of its list |
| Fallback.LastResort | management/playlist.go:364-383 | a chain that ends with nobody answering reports its last playlist's problem, or no entries |
| Fallback.SomeAnswer | management/playlist.go:348-396 | an answer, a cycle, the depth or the end of the chain: one of them always decides |
| Fallback.EntriesListed | management/playlist.go:401-421 | a playlist resolves exactly if all its items do, to those media in order |
| ScheduleTasks.CreateKeeps | management/schedule.go:130-164 | a created task is sound and its references resolve |
| ScheduleTasks.ReplaceKeeps | management/schedule.go:187-222 | a replaced task is sound and its references resolve |
| ScheduleTasks.RefusedAs | management/schedule.go:251-292 | a specification passes exactly if it is valid, and is refused with an error other than ErrInvalid exactly if it is a named cron task whose text has five fields that do not parse |
| ScheduleTasks.CreateMeans | management/schedule.go:130-164 | created exactly from a valid specification whose references resolve; stands at the end with that configuration, an empty priority as "normal" |
| ScheduleTasks.ReplaceMeans | management/schedule.go:187-222 | the specification replaces the configuration but for the action; id, creation time and all other tasks stay |
| ScheduleTasks.EnableAndDeleteMean | management/schedule.go:225-248 | the flag and update time of one task; one task taken out; both need an existing id |
| ScheduleTasks.ReplaceTargets | management/schedule.go:197-208 | one target for a play and none for a stop holds of what Replace stores exactly if the task already had the action of the specification |
| ScheduleTasks.StoredCronIsUsable | management/schedule.go:251-292 | every stored cron task parses to a usable expression |
| Reviews.ApprovalApplies | management/suggestion.go:149-195 | approval goes through exactly for a pending suggestion of existing media under a real name; it then adds one playlist of that name and media, and marks the suggestion applied with the playlist in its payload, and nothing else |
| Reviews.ApprovalKeepsRefs | management/suggestion.go:149-195 | approval keeps referential integrity |
| Reviews.CreateMeans | management/suggestion.go:108-137 | a suggestion of a known kind with a payload is stored, pending, as given |
| Reviews.RejectionMeans | management/suggestion.go:201-224 | a rejection goes through exactly for a pending suggestion and leaves the reason given, or a standing one for a blank reason |
| Snapshots.RolledSubList | management/config_snapshot.go:210-227 | rolling keeps stored snapshots only and keeps them apart |
| Snapshots.RolledMeans | management/config_snapshot.go:210-227 | with a positive limit exactly that many, the newest, stay; without one all |
| Snapshots.FoundById | management/config_snapshot.go:173-190 | a stored snapshot is found by its id with the payload stored |
| StoreObject.Store.Finish | management/store.go:176-181 | a committed copy is stamped and becomes live if it was written, and changes nothing otherwise |
| StoreObject.Store.Replace | management/store.go:190-203 | the document is swapped as given if it was written, and nothing changes otherwise |
| StoreObject.Store.AddMedia | management/media.go:119-174 | the loop over the batch: all entries or the first error, with the live document untouched by an error |
| StoreObject.Store.ScanMedia | management/media.go:236-274 | the merge loop over the path index computes the merge of the found files |
| StoreObject.Store.DeleteMedia | management/media.go:196-223 | missing, used by a playlist or a task, or spliced out |
| StoreObject.Store.CreatePlaylist | management/playlist.go:120-140 | blank name, unknown item, or appended |
| StoreObject.Store.EditPlaylist | management/playlist.go:146-174 | the edits of fallback, items, removal, move and clearing, with no-op, error and roll back |
| StoreObject.Store.AddItem | management/playlist.go:233-255 | refused for an empty or unknown media, a no-op when present, else appended |
| StoreObject.Store.DeletePlaylist | management/playlist.go:178-204 | missing, used by a task or as a fallback, or spliced out |
| StoreObject.Store.CreateTask | management/schedule.go:130-164 | validation with its error kinds, references, append |
| StoreObject.Store.ReplaceTask | management/schedule.go:187-222 | fields are overwritten before the references are checked, and a failed check rolls back |
| StoreObject.Store.SetEnabled | management/schedule.go:225-230 | the flag of one task and its update time |
| StoreObject.Store.DeleteTask | management/schedule.go:233-248 | missing, or spliced out |
| StoreObject.Store.CreateSuggestion | management/suggestion.go:108-137 | an unknown kind or an empty payload is refused, else a pending suggestion appended |
| StoreObject.Store.Approve | management/suggestion.go:149-195 | the playlist and the decision are committed together or not at all |
| StoreObject.Store.Reject | management/suggestion.go:201-224 | a pending suggestion is declined with a reason, once |
| StoreObject.Store.BeginCreate | management/config_snapshot.go:72-111 | the captured payload has the media, playlists, tasks, suggestions and scenes of the document, and no history, templates or write time |
| StoreObject.Store.EndCreate | management/config_snapshot.go:112-120 | the snapshot is appended and the history rolled |
| StoreObject.Store.DeleteSnapshot | management/config_snapshot.go:152-162 | missing, or spliced out |
| StoreObject.Store.FindForRestore | management/config_snapshot.go:174-189 | first phase of Restore: the stored payload, or ErrNotFound |
| StoreObject.Store.CarryOver | management/config_snapshot.go:190-196 | second phase of Restore: the payload under the history and templates of the moment |
| StoreObject.Store.Restore | management/config_snapshot.go:173-198 | its phases run without anything in between: the payload under the current history and templates, stamped now; missing ids change nothing |
| StoreObject.PathIndex | management/media.go:238-241 | the index leads from every path to the last entry that has it |
| Retention.RollSnapshots | management/config_snapshot.go:214-227 | deleting the oldest until max are left keeps exactly the newest max, in document order; a max of zero or less keeps all |
| Retention.FindOldest | management/config_snapshot.go:216-223 | the inner loop ends at the record every other one is newer than |
| Retention.Prune | management/audit.go:127-162 | sorting a copy, marking and compacting in place keeps exactly the newest max in document order, tells the number removed, and is a no-op exactly when that is zero |
| Retention.PurgeTerminal | management/remote_command.go:237-274 | the newest maxKeep terminal records and every other record are kept in document order; a negative maxKeep is refused |
| Retention.Compact | management/audit.go:148-155 | the in-place compaction leaves the kept records in order and counts the others |
| Retention.RetainSplits | management/remote_command.go:230-236 | what is kept and what is dropped make up the original records, and nothing ineligible is dropped |
| Retention.RetainCount | management/config_snapshot.go:210-213 | exactly the smaller of k and their number of the eligible records are kept |
| Retention.RetainNewest | management/config_snapshot.go:200-213 | every eligible record kept is later than every record dropped, or of the same time with the smaller id |
| Retention.LexMeans | management/config_snapshot.go:200-208 | ids are compared as Go compares strings: the first difference, or the shorter string, decides |
| Retention.SortSorts | management/audit.go:164-173 | the sorted copy holds the same records, newest first, ids breaking ties |
| Retention.MarkedIsKept | management/audit.go:143-147 | being marked among the first k of the sorted records is having fewer than k newer ones |
| RemoteCommands.LifeOfCommand | management/remote_command.go:203-228 | over any marks: the first terminal mark decides status and time, the execution time is that of the first mark, the error the last non-empty one, and later marks change nothing |
| RemoteCommands.RemoteCommand.ApplyMark | management/remote_command.go:181-228 | one mark: refused and without effect on a terminal command, else applied |
| Strings.TrimMeans | management/playlist.go:446 | trimming takes off white space at both ends, all of it and nothing else |
| Placeholders.PrintTokens | management/config_template.go:225 | splitting a text into literals and placeholders and printing it back is the identity |
| Placeholders.HoleMeans | management/config_template.go:223-225 | a placeholder is a dollar sign and braces around one or more letters, digits and underscores |
| Placeholders.ReplaceHoles | management/config_template.go:240-259 | the replacement pass and its closure compute the expansion and the first missing key |
| Placeholders.FillAppend | management/config_template.go:227-239 | expansion is a homomorphism on tokens: one pass |
| Placeholders.MissingIsLeftmost | management/config_template.go:246-256 | the key reported is that of the leftmost placeholder without a value |
| Placeholders.ExpansionsAgree | management/deploy.go:144-164 | the expansions of templates and deployments agree but for the JSON check, which is made on expanded bodies only |
| Placeholders.EntriesAppend | management/deploy.go:144-164 | the expansion of two texts put together is their expansions put together, unless the first ends inside a placeholder |
| Placeholders.OnePassOnly | management/deploy.go:136-143 | a value is not expanded again, nor is a placeholder that values form |
| FilterPath.EscapeShields | engine/ffmpeg.go:855-863 | after the three passes every colon and comma follows a backslash and every backslash precedes one of them |
| FilterPath.UnescapeEscape | engine/ffmpeg.go:858-863 | reading the escaped text back gives the path with backslashes turned into slashes |
| FilterPath.PassesAreOne | engine/ffmpeg.go:858-863 | the three passes over the text are one pass over its characters |
| FilterPath.EscapeIsInjective | engine/ffmpeg.go:858-863 | two paths are escaped alike exactly if they differ in separators only |
| KeeperProtocol.SendsOnOpenChannel | module/module.go:96-113 | in every interleaving a send goes into a channel that was never closed, to a context with the action of the message whose validator accepts its body |
| KeeperProtocol.OneMessagePerRegistration | module/module.go:55-66 | no channel is closed twice, and a context receives at most one message per registration, each with its action and accepted by its validator |
| KeeperProtocol.ClosedReceivesNothing | module/module.go:101-113 | a closed context stays closed and receives nothing more |
| KeeperProtocol.ControlMeans | module/module.go:41-147 | a registration lists the context exactly if no entry has its id, a new context is open and empty, a close with its guard free closes the channel once |
| KeeperProtocol.SendBlocks | module/module.go:96-113 | until a receiver comes the sender keeps both locks: no registration, no other trigger and no close of that context goes through |
| KeeperProtocol.TriggerServes | module/module.go:149-171 | a trigger left alone ends and delivers exactly to the open, waiting contexts with the action of the message whose validator accepts; exactly the open ones that do not fit go on waiting |
| KeeperProtocol.RunKeeps | module/module.go:55-171 | the invariant of the protocol holds over every interleaving |
| KeeperObject.ModuleKeeper.Trigger | module/module.go:149-171 | the washing and the sending loop compute the protocol's own steps to their end |
| KeeperObject.ModuleKeeper.RegisterKeeperChannel | module/module.go:137-147 | refused exactly when an entry with the id is listed |
| KeeperObject.ModuleKeeper.GetKeeperContext | module/module.go:124-135 | finds an entry with the id, if one is listed |
| KeeperObject.ModuleKeeper.NewKeeperContext | module/module.go:41-50 | a new open context with an empty channel |
| KeeperObject.ModuleKeeper.CloseContext | module/module.go:55-66 | closes the channel the first time only |

## Left out

- HTTP, gRPC, WebSocket, the command line, the web console, the native core and its stub: plumbing around the parts modelled.
- Services that only list and edit one collection (nodes, output groups, health policies, webhooks, users, sessions, alarms, cache tasks, scene and industry templates): repeated easy members. Scene ids and config templates appear as bare lists with unguarded deletion, so scene references are checked when a task is stored and not claimed to resolve afterwards.
- Callbacks of arbitrary callers of MediaService.Update, PlaylistService.Update and TaskService.Update: only the services' own callbacks are operations of the model.
- The JSON clone, sha256 and random ids: a copy, a given hash text and a given id. Differences between nil and empty collections are not modelled, nor is aliasing between returned objects and the store.
- File names and the file system: cleaning, normal form, base, extension and stat are functions fixed during a call; directory walks, ffprobe and the count of skipped files are inputs or left out. Tags, audio and subtitle paths of media are left out.
- Writing the store file is one event that succeeds or fails; the dirty flag is a field no method ever sets.
- Scheduler: LastRun is a map beside the state instead of a store update; error and play-event handlers, the health policy and its skip of a failing play, and the stop call of a Player are calls without effect on the state; a Player swap, which takes a lock of its own, falls between two steps and not between two fires of one tick or two plays of one drain; now plus a duration does not overflow; a tick that was under way at Stop may still follow it, so ticks are always possible in the model.
- Scheduler plays are values with an identity; the cancel function of a play object is a map from that identity, and the order in which the task map yields tasks is any order.
- Engine: Restart and Apply are a stop and a start; the outputs are counted when the process is spawned instead of when the start entered; an index update and the timer it leads to are one step; EngineCommands, EngineStarts, EngineAdvance and the composed methods of EngineObject take the sections of one command without others in between, which EngineProtocol does not; signals, kill time-outs and progress percentages are left out, as is the argument list but for path escaping. The media time is a real number.
- Engine queue index under operator commands: the range is proved for runs without them; a command between reading the queue and storing the index can leave the index past a shorter queue, which the next clean end then takes for the last item.
- Cron: splitting the text into fields, parts and values, and reading numbers, precede the model; zones with daylight saving are left out.
- Failover: a panicking reader or switcher, the monitor's goroutine; live renames of an output, after which the active name may equal neither.
- Tasks: the bookkeeping of the last run is left out of the document, and of an error only its kind is kept.
- StoreObject.Store.Restore: runs its three phases with nothing in between, as one caller alone sees them; the interleavings are those of DocumentRuns, whose steps FindSnapshot, CarryOver and Swap are the methods FindForRestore, CarryOver and Replace.
- Fallback: the text of the error messages, and the names in it.
- Placeholders: JSON validity is a given predicate; deployment beyond the expansion of its entries is left out.
- Keepers: contexts without a close state, which the constructor never makes; Wait is the receiver of a delivery step.
- Retention.PurgeTerminal: takes the terminal test as a parameter and the list as an array and a length, in place of the slice of the document.
