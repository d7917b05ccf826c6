# Deneb print service: a verified model

Deneb drives a 3D printer whose motion controller hangs on a serial line. This project models the host side of
that line, the print service on top of it, and the self-contained transformations the service depends on, and
proves what they keep over whole runs.

## The model

| modules | what they are |
|---|---|
| `Crc`, `CrcPolynomial`, `MarlinPacket` | the checksums, what they are as polynomials, and the framing of one packet |
| `FlowState`, `FlowLaws`, `FlowControl`, `SyncLine`, `ReplyText` | the flow controller and the lines it reads, numbered and in free text: 32 reusable slots, numbers modulo 255, cumulative acknowledgement, resend requests, room; as a value and as the class that changes it in place |
| `SlidingWindow`, `Link`, `Conservation`, `WindowRuns` | the window invariant over absolute packet numbers; the protocol against an in-order controller on a line that damages, loses, repeats and delays; the counters over runs with every kind of line; runs in which the promises end |
| `MotionSender` | submitting and retransmitting |
| `GcodeRewrite`, `GcodeStream` | expanding lines and streaming a job file in pieces |
| `PrintStatus`, `MotionPolicy`, `PolicyEffects`, `PrintClock` | the status record with its heater wait; the lists for abort, finish, pause and resume, and what they do to a printer; the time left |
| `ServiceState`, `ServiceSafety`, `ServiceRun`, `PrintService` | the print service: each poll and command as a function, the invariant, whole runs, and the class whose methods do the same in place, macros included |
| `PauseHold`, `PauseEnds`, `HeatHold`, `ResumePlace`, `MacroWait`, `JobRuns` | what a pause does to a job and when it gives way, what a cold heater does to it, where a resume goes, what a macro's heater wait amounts to, and runs that show what can happen |
| `ServiceFaults`, `ServiceLimits`, `ServiceStatus` | which faults abort a job; how much is sent at a time and how often the controller is asked; what a client sees |
| `ServiceLink` | the service as the sender of the link: from the job's script to what the controller accepts |
| `MessagePack`, `WebSocket` | what the Digital Factory service reads and writes |
| `Sha256`, `Sha256Example`, `PngFilter` | streaming digest and thumbnail decoding |
| `TextSearch`, `JsonMembers`, `CommandText` | deleting members from JSON text in place; printing and reading the commands between the programs |

The service is modelled twice. `ServiceState` says what a step does to the whole state; the class `PrintService`
does it with loops and assignments, and each of its methods is proved to have that effect. The theorems of
`ServiceRun` are about every sequence of steps, in any order. A history (`Book`) records each command submitted
and on whose behalf; it has no counterpart in the program.

Outside the model, and given to it as arbitrary values: what the serial device takes and delivers, when it fails,
the sizes of the pieces a file is read in, random masks, and the C library's printing and scanning of numbers
and free text (`Env`, `Libc`, `Numbers`, `Luck`). The controller of `Link` is an environment: it accepts an
undamaged packet that carries the number it expects, and reports truthfully. Free text from the controller is a
parameter of the service (`Env.text`); `ReplyText` has the scanning that the sources use.

## What the code does not keep

Each of these is proved, with the exact condition under which the expected behaviour holds.

- Retransmission is in submission order unless the 32-bit send counter wraps inside the window (`SlidingWindow.ResendOrderIff`), as it does in the run of `WindowRuns.CounterWrapsInWindow`.
- A bare `ok` acknowledges the lowest slot, which need not hold the oldest packet (`SlidingWindow.BareOkOldestIff`, with a run in `WindowRuns.BareOkSkipsPackets`). `ok N` may count one packet twice (`Conservation.StepBalancesIff`, with a run in `WindowRuns.SecondOkUnbalances`).
- An acknowledgement far older than the window may be taken for one of packets in flight (`SlidingWindow.AckThroughIff`); `Link` shows that no line within reach delivers one.
- A resync after a report of the expected number is safe exactly when the report is still true and no packet is on the line that the controller has not had (`Link.ResyncInStepIff`). Coming too early it may lose a command that is then acknowledged (`Link.EarlyResyncLoses`). A request for a number above 255 asks for the one it leaves modulo 256 (`ReplyText.ResendNumbered`).
- A fault that is reported while a heater wait stays armed shows as preparing and aborts nothing (`ServiceFaults.FaultIsShownIff`).
- A time mark that names the whole print or more leaves one second if nothing was booked before it (`PrintClock.LeftIsRest`).
- A last line without a newline is read on into what earlier lines have left in the line buffer (`GcodeStream.UnterminatedFileIff`; `GcodeStream.LeftoverIsRead` has a file of two lines).
- A failing read looks like the end of the file, so a print that is cut short ends as finished (`ServiceRun.FinishedMeansWhole`, with a run for every file of plain commands and every place in it in `JobRuns.CutPrintFinishes`); without a failing read it is whole (`ServiceRun.FinishedSubmitsWholeFile`).
- An armed heater wait hides a pause or a fault behind "preparing" (`PrintStatus.WaitHidesPhase`, `PauseHold.LineEndsPauseIff`). A pause does not touch the finishing list: a job that is paused while it finishes goes on finishing (`PauseHold.MotionSendsForJobIff`, with a run for every such file in `JobRuns.PausedJobGoesOnFinishing`). So a pause need not hold: it does exactly when the job has nothing left to submit (its finishing list is through, an abort is already asked for, or its file is gone), or it is not finishing and no heater wait that a reading can end is armed or queued by hand (`PauseEnds.PauseHoldsIff`). A job paused while the bed heats prints its whole file with no resume asked for (`PauseEnds.PausedJobPrintsOn`).
- A command that is too long uses up a packet number (`FlowControl.Flow.PreparePacket`); the service never has one to submit, since every line buffer that feeds it holds at most 255 characters. A packet the device did not take whole stays in the window; the history counts it as not submitted.
- The start-up probe may count as done though nothing was sent (`ServiceRun.StartupProbeSkippedIff`).
- Strings over 31 bytes do not survive the MessagePack writer and reader (`MessagePack.StrRoundTripIff`). The target of the only request the service sends is longer than that, so its key is unreadable (`MessagePack.RpcKeyReadIff`, `MessagePack.UpdateRequestRefused`).
- Removing a JSON member cuts into keys that end in an escaped quote and its name (`JsonMembers.RemovedIsDeletedIff`).
- A job file named like a later member of the command, or ending in a quote and its name, hides that member (`CommandText.JobReadBackIff`). Texts that need many escapes may fill the payload, and what is behind the 511th character is cut off (the same condition). Lines of G-code with quotes or backslashes do not come back (`CommandText.LinesReadBackIff`).

The branches in `printsvc/src/job_streamer.c` and elsewhere for a full window after a positive check for room are
unreachable (`FlowState.PrepareAddsOne`, `ServiceSafety.SendOneFacts`), and so is the branch in
`printsvc/src/pause_resume_control.c` for a reported position that is not valid
(`ServiceSafety.PositionNeverGoesOn`). No assignment in the sources sets the
service's own `abort_requested`; the event `LatchAbort` allows for it all the same.

## Model

| member | source | states |
|---|---|---|
| `Link.SlidingWindowSafety` | printsvc/src/flow_control.c:42-343 | On a line that damages, loses, repeats and delays, in every run, windows given up for a timely report included: the controller accepts each command at most once and in order, everything acknowledged in the window has been accepted, and with nothing in flight all of it has; if no window is given up the controller has a prefix of what was submitted |
| `Link.RunKeepsInv` | printsvc/src/flow_control.c:42-343 | Every run of sender, line and controller keeps the window invariant; the packets that stand are submitted commands in order, and all of them if no window is given up |
| `Link.NextKeepsInv` | printsvc/src/flow_control.c:302-343 | Each single step of sender, line or controller keeps that invariant |
| `Link.ResyncInStepIff` | printsvc/src/flow_control.c:52-60 | After a report of the expected number and the resync, sender, line and controller are in step again exactly when the report is still true and no packet is on the line that the controller has not had |
| `Link.ResyncGoesOnFrom` | printsvc/src/flow_control.c:345-348 | Whatever was in flight, the first packet after a report and its resync carries the number reported |
| `Link.ResyncedSyncIff` | printsvc/src/flow_control.c:52-60 | The emptied window is in order behind what the controller has accepted exactly when the number taken up is its next one |
| `Link.TrueReportIsNow` | printsvc/src/flow_control.c:345-348 | A report that is still true is as new as anything the controller has said since |
| `Link.EarlyResyncLoses` | printsvc/src/flow_control.c:52-60 | From every state with one packet still on its way: a run in which the resync comes too early, so that the next command is refused for its number, acknowledged under it, and lost |
| `Link.NumberIdentifiesHead` | printsvc/src/flow_control.c:145-163 | Although numbers repeat modulo 255, a packet within reach carries the number the controller expects exactly when it is the next one |
| `Link.HearingKeepsSync` | printsvc/src/flow_control.c:302-343 | Whatever reply stands first on the way back, the sender afterwards knows of no more than the controller has accepted, and of no less than before |
| `Link.ResentIsOriginal` | printsvc/src/motion_sender.c:57-94 | A retransmitted pending slot is the original frame of a packet inside the window |
| `Link.CreditRespected` | printsvc/src/flow_control.c:207-258 | After a report of room, packets sent plus room left stay equal to what was reported until the next reply |
| `ReplyText.LostLinkResumes` | printsvc/src/flow_control.c:282-348 | With the text of the line scanned as the C library does: from any window, the report that packet m was found where n was expected, in decimal, and the resync after it make the next packet carry n |
| `ReplyText.ExpectedRead` | printsvc/src/flow_control.c:282-300 | That report, with or without Error in front, yields the second number, modulo 256 |
| `ReplyText.OkNumbered` | printsvc/src/flow_control.c:260-280 | A number behind ok, with an N or without, is the one acknowledged, modulo 256 |
| `ReplyText.ResendNumbered` | printsvc/src/flow_control.c:260-280 | A number behind Resend, with a space or without, is the one asked for, modulo 256 |
| `ReplyText.ShortResendNumbered` | printsvc/src/flow_control.c:260-280 | So is one behind rs |
| `ReplyText.Hear` | printsvc/src/flow_control.c:302-391 | A line of any kind, scanned and handled |
| `FlowLaws.BarrierIff` | printsvc/src/flow_control.c:10-34 | A command is a barrier exactly when its first word is one of G28, G90, G91, G92, M82, M83, M109, M190, M400 |
| `FlowLaws.SentIsInFlight` | printsvc/src/flow_control.c:228-258 | A command is sent exactly when it has 1 to 255 characters and there is room; it is then in flight under the next number, and a barrier stands if it is one |
| `FlowLaws.NumberedIff` | printsvc/src/flow_control.c:96-143 | A numbered reply is a letter of o, r, q, the number, the room and the CRC-8 of these five characters, each in two hexadecimal digits of either case, in this order |
| `FlowLaws.RejectedIff` | printsvc/src/flow_control.c:302-391 | A line is refused exactly when it is damaged, reports an error, or asks for a packet in flight for more than the eighth time while no other request is being answered |
| `FlowLaws.ResendIff` | printsvc/src/flow_control.c:302-391 | A request is heeded exactly when it names a packet in flight, for at most the eighth time, while no other is being answered; only a numbered ok ends the answering |
| `FlowLaws.OneRequestAtATime` | printsvc/src/flow_control.c:302-391 | After a request is heeded no other is, whatever replies come, until a numbered ok |
| `FlowLaws.EightRequests` | printsvc/src/flow_control.c:183-193 | Of a packet asked for again and again, with an ok between the requests, eight are heeded and the ninth is refused |
| `FlowLaws.RequestAfterResync` | printsvc/src/flow_control.c:52-60 | After a resync the first new packet can be asked for, whatever request was being answered before |
| `FlowLaws.RoomIff` | printsvc/src/flow_control.c:80-94 | There is room exactly when fewer than 32 packets are in flight and the controller has not said it has none |
| `FlowLaws.NumbersGoRound` | printsvc/src/flow_control.c:145-163 | Numbers run from 0 to 254 and begin again; an acknowledgement covers its own number and the 31 before it |
| `Conservation.StepBalancesIff` | printsvc/src/flow_control.c:228-391 | Sent = acknowledged + in flight + discarded (32-bit) is kept by a step exactly when the step is not an "ok N" for a slot already acknowledged |
| `Conservation.NothingIsLost` | printsvc/src/flow_control.c:36-391 | That balance holds after every run in which no number is acknowledged twice |
| `Conservation.CreditIsNotExceeded` | printsvc/src/flow_control.c:80-94 | With text replies of every kind allowed, no run sends more packets than the last reported room |
| `ServiceRun.JobFollowsItsScript` | printsvc/src/job_streamer.c:198-474 | In every reachable state the job path has submitted a prefix of home, prime unless the file primes, start-up, the file so far, finish; and finishing begins only when every command of the file is submitted or the print is marked as cut short |
| `ServiceRun.FinishedMeansWhole` | printsvc/src/job_control.c:237-311 | A print shown as finished has submitted its script with as much of the file as was read, and is marked as cut short exactly when some of the file is missing |
| `ServiceRun.NoFailureNoTruncation` | printsvc/src/job_streamer.c:394-424 | No run in which every read of the job file succeeds marks a print as cut short |
| `ServiceRun.FinishedSubmitsWholeFile` | printsvc/src/job_control.c:237-311 | In every run in which no read fails, a print shown as finished has submitted its whole script, every command of the file included |
| `ServiceRun.FinishingFollowsWholeFile` | printsvc/src/job_streamer.c:324-474 | In every such run the job submits a beginning of the whole script, and finishing begins only behind the whole file |
| `JobRuns.CutPrintFinishes` | printsvc/src/job_streamer.c:394-424 | Every file of plain commands (1 to 255 characters, no heater wait) can be printed up to any of them and then be shown as finished: cut short if a read fails there, whole with all reads good |
| `ServiceFaults.FaultLineAborts` | printsvc/src/service.c:73-159 | A motion poll during a job whose last line reports a thermal, endstop, firmware or storage fault, not hidden by a heater wait, ends with the job dropped, the heaters set to zero and the abort under way |
| `ServiceFaults.FaultAbortsIff` | printsvc/src/service.c:88-105 | A fault aborts a job exactly when one is active and the fault shown is one of these four |
| `ServiceFaults.FaultIsShownIff` | printsvc/src/motion_observer.c:7-32 | A line that reports a fault shows it exactly when it leaves no heater wait armed |
| `ServiceFaults.LastLineFaults` | printsvc/src/motion_runtime.c:35-87 | The same for the last of any lines read in one poll |
| `ResumePlace.ResumeReturns` | printsvc/src/pause_resume_control.c:217-261 | In every run: a resume that drives the head drives it to the place, and heats the nozzle to the temperature, that the service knew at the moment it saved them, and that moment is one at which a pause saves |
| `ResumePlace.AnswerIsNew` | printsvc/src/pause_resume_control.c:55-93 | In every run: the position a pause of a job waits for was reported after the pause was asked for |
| `ResumePlace.SavedInRun` | printsvc/src/pause_resume_control.c:27-93 | In every run: what is saved was saved at such a moment, and nothing has changed it since |
| `HeatHold.ColdItemHoldsJob` | printsvc/src/job_streamer.c:324-474 | From the poll that sends a command of the file for a cold heater on, the job submits nothing more, whatever lines, polls, pauses, aborts and closings follow, until a line reports that the heater is within one degree of its target |
| `HeatHold.ColdJobWaits` | printsvc/src/job_streamer.c:262-474 | The same for any wait a streaming or heating job has, from any state of the service |
| `HeatHold.JobMovesIff` | printsvc/src/job_streamer.c:324-474 | The next command of the file goes out exactly when no heater waited for is more than a degree below its target, no barrier is awaited, there is room, and nothing is in flight; a heating command arms the wait for its own heater and sets its own target |
| `HeatHold.ResumeArms` | printsvc/src/pause_resume_control.c:135-168 | A heated resume waits for the nozzle, at the saved temperature, once its first command is sent |
| `HeatHold.ColdWaitHolds` | printsvc/src/pause_resume_control.c:263-312 | While a heater waited for is more than a degree below its target, neither a resume nor the queue submits anything |
| `HeatHold.QueueStopsAtWait` | printsvc/src/gcode_control.c:133-190 | The queue goes out in order, and a command that waits for a heater is the last of its poll |
| `PauseHold.MotionSendsForJobIff` | printsvc/src/service.c:73-159 | Paused or not, a motion poll submits something for the job exactly when the finishing list, once lines, faults, pause and abort are dealt with, has a next command, no barrier is awaited and there is room |
| `PauseHold.PausedPollIsSilent` | printsvc/src/job_streamer.c:324-474 | While the printer shows a pause, a job poll submits nothing for the job |
| `PauseHold.LineEndsPauseIff` | printsvc/src/motion_observer.c:18-32 | A line that reports no fault takes the printer out of a pause exactly when a heater wait is armed that it does not end; it then shows "preparing" |
| `PauseEnds.PauseHoldsIff` | printsvc/src/pause_resume_control.c:44-312 | With a device that can report a cold and a warm heater, a position, room and "ok": a pause asked for during a job keeps the job from submitting anything, in every run until a resume, a new job or commands by hand, exactly when the job has nothing left to submit, or it is not finishing and no heater wait that a reading can end is armed or comes with a command queued by hand |
| `PauseEnds.PauseHoldsWithoutFailuresIff` | printsvc/src/pause_resume_control.c:44-312 | The same over runs in which nothing fails but, where the next command of the file cannot be sent, a read of it; unless the position counter stands at its last value |
| `PauseEnds.PausedJobPrintsOn` | printsvc/src/pause_resume_control.c:170-215 | For every file of plain commands: a run from start in which a pause is asked for while the bed heats, nobody resumes, nothing fails, and the whole file is printed and shown as finished |
| `PauseEnds.RestlessGoes` | printsvc/src/motion_observer.c:18-32 | Any service that is not busy, with such a wait armed or queued and a job that has something to submit, has a run in which the job submits |
| `PauseEnds.PauseRuns` | printsvc/src/pause_resume_control.c:44-133 | A pause asked for runs to its end and shows "paused", if the device answers and the position counter does not stand at its last value |
| `PauseHold.PauseHoldsJob` | printsvc/src/pause_resume_control.c:44-312 | From a state that is held (no job, a job with nothing left, or a pause with no heater wait armed or queued that a reading can end) no run of lines, polls, pauses, aborts and closings has the job submit anything, until a resume, a new job, or G-code or macros by hand |
| `JobRuns.PausedJobGoesOnFinishing` | printsvc/src/job_control.c:237-311 | For every file of plain commands: a run in which the printer shows "pausing" while motion polls submit more of the finishing list, with both lists partly submitted |
| `HeatHold.JobArms` | printsvc/src/job_control.c:31-120 | A new job waits for bed and nozzle at the targets it sets |
| `ServiceRun.WindowIsKept` | printsvc/src/service.c:19-188 | In every reachable state, macros included, at most four packets are in flight |
| `ServiceLimits.ListStopsOnlyThen` | printsvc/src/job_streamer.c:198-229 | A list stops halfway only at a barrier, for want of room, or with four packets in flight |
| `ServiceLimits.HandCommandsIff` | printsvc/src/gcode_control.c:192-232 | Commands by hand are queued whole, and more than 64 change nothing |
| `ServiceLimits.EveryFourthAsks` | printsvc/src/service.c:146-156 | Of the motion polls with nothing in flight every fourth asks, for temperatures and then position, as far as there is room |
| `ServiceLimits.StartupAsks` | printsvc/src/service.c:113-124 | The first one after opening asks for version, temperatures and position |
| `ServiceLimits.VersionAskedIff` | printsvc/src/service.c:126-146 | The version is asked for again exactly when the service is at rest, it is not known, fewer than six attempts were made, and at least twenty such polls have passed |
| `ServiceStatus.LineStopsIff` | printsvc/src/motion_runtime.c:35-87 | A line ends a poll, with a serial fault, exactly when a print is shown and the line is refused, or its resend fails, or it finds the numbers out of step while no job, queue or cleanup runs |
| `ServiceStatus.TemperaturesShown` | printsvc/src/motion_observer.c:7-32 | Temperatures and targets are shown as reported, each heater its own |
| `ServiceStatus.JobTakenIff` | printsvc/src/job_control.c:31-120 | A job is taken exactly when nothing is under way, its file opens and it fits the printer; it then begins with a cleared fault and an empty window |
| `ServiceStatus.LostCommandEndsJob` | printsvc/src/job_streamer.c:324-474 | A command of the file that does not go out ends the job, with a serial fault when the device fails and a command fault when it is no packet |
| `ServiceStatus.OpeningIs` | printsvc/src/job_streamer.c:25-40 | What a job sends before its file, command by command |
| `ServiceStatus.StagesInOrder` | printsvc/src/job_streamer.c:262-322 | Between its lists a job waits until everything is acknowledged, and between home and start-up until its heaters are within a degree of their targets |
| `ServiceStatus.FaultDropsJob` | printsvc/src/job_streamer.c:324-474 | A job whose printer shows a fault is dropped by the next job poll, and nothing is sent for it |
| `ServiceStatus.FinishShown` | printsvc/src/job_control.c:237-311 | Behind the finishing list, with nothing in flight, the print shows as finished with its heaters off |
| `ServiceStatus.AbortShown` | printsvc/src/job_control.c:189-235 | Behind the abort list it shows idle, without fault, with its heaters off |
| `ServiceStatus.PauseAndResumeShown` | printsvc/src/pause_resume_control.c:95-168 | A pause ends paused unless the phase has become another, a resume ends printing with the saved place used up |
| `ServiceStatus.RestShown` | printsvc/src/gcode_control.c:72-91 | At rest the phase is preparing exactly when a heater is on, and else idle |
| `ServiceStatus.AbortTakenIff` | printsvc/src/job_control.c:122-187 | An abort is taken exactly when there is a job, a queue, a heater that is on, or a print shown to stop |
| `ServiceStatus.PauseTakenIff` | printsvc/src/pause_resume_control.c:170-215 | A pause asks for the position exactly when a job is under way that is preparing, printing, pausing or paused |
| `ServiceStatus.ResumeTakenIff` | printsvc/src/pause_resume_control.c:217-261 | A resume drives the head exactly when paused with a saved place; without one the print is just shown as going on |
| `ServiceStatus.HandTargetsShown` | printsvc/src/gcode_control.c:93-101 | The targets shown after commands by hand are the last ones named for each heater, negative ones as zero |
| `ServiceRun.ModesExclude` | printsvc/src/pause_resume_control.c:44-312 | In every reachable state position probe, pause and resume exclude each other, abort excludes job and finish, preparing and finishing imply a job and exclude each other, and every index is inside its list |
| `ServiceRun.PauseAndResumeInOrder` | printsvc/src/pause_resume_control.c:95-133 | In every reachable state a pause or resume under way has submitted exactly the commands before its index, in order |
| `ServiceRun.PauseEndsWhole` | printsvc/src/pause_resume_control.c:95-133 | A pause that ends without a fault has submitted its whole list and has nothing in flight |
| `ServiceRun.ResumeEndsWhole` | printsvc/src/pause_resume_control.c:135-168 | A resume that ends without a fault, heated or not, has submitted its whole list, has nothing in flight, shows the job as printing and has used up the saved position |
| `ServiceRun.AbortRunsInOrder` | printsvc/src/job_control.c:122-235 | After an accepted abort with the device open, whatever polls, lines, jobs, pauses and resumes follow, its twelve commands are the next twelve submitted, in order, no probe between them |
| `ServiceRun.AbortEndsWhole` | printsvc/src/job_control.c:189-235 | An abort that ends has submitted all twelve with none in flight and shows idle, or a command failed and it shows a fault |
| `ServiceRun.AbortComesFirst` | printsvc/src/service.c:73-159 | While an abort is under way nothing that is polled before it acts |
| `ServiceRun.SoundListNeverFails` | printsvc/src/job_streamer.c:198-229 | A list of commands of sound length is never refused for a reason other than the device |
| `ServiceRun.StartupProbeSkippedIff` | printsvc/src/service.c:19-48 | The start-up probe counts as done with nothing sent exactly when the controller takes no packet |
| `ServiceRun.StepKeeps` | printsvc/src/service.c:73-188 | Every event keeps the service invariant, and the history only grows |
| `ServiceRun.RunKeeps` | printsvc/src/service.c:73-188 | The same over every run |
| `ServiceLink.FinishedPrintIsAccepted` | printsvc/src/job_control.c:237-311 | Service, line and controller together, the line damaging, losing, repeating and delaying: in a run in which no read fails, of a print shown as finished the controller has accepted every command from home to finish, each once and in order |
| `ServiceLink.ControllerFollowsScript` | printsvc/src/job_streamer.c:198-474 | In every run of the three: the controller has accepted a beginning of all the service has submitted, all but at most what is in flight, and of the last job a beginning of its script |
| `ServiceLink.StepIsMoves` | printsvc/src/service.c:73-188 | Whatever happens to the service, its window takes a sequence of the flow controller's operations that put exactly the commands recorded and hear the lines in order; and a print becomes a finished one only when nothing is in flight behind its whole script |
| `ServiceLink.RunIsMoves` | printsvc/src/service.c:73-188 | Every run of the service is a run of such operations |
| `ServiceLink.RunMoves` | printsvc/src/service.c:73-188 | Over a whole run they make up the window and the history |
| `FlowState.PrepareAddsOne` | printsvc/src/flow_control.c:207-258 | Permission to send is exactly room for a packet, so preparing never reports a full window after it; and it puts one packet in flight |
| `FlowState.HandleNeverAddsInflight` | printsvc/src/flow_control.c:302-391 | No line of any kind puts a packet in flight |
| `FlowState.ClearEmpties` | printsvc/src/flow_control.c:42-60 | Emptying or resynchronising leaves nothing in flight and no barrier |
| `FlowState.CountUpIsModulo` | printsvc/src/flow_control.c:165-181 | Counting acknowledgements one by one is adding their number modulo 2^32 |
| `FlowState.MarkedLeave` | printsvc/src/flow_control.c:165-181 | A cumulative acknowledgement takes exactly the marked slots out of flight |
| `SlidingWindow.NumberIsModulo` | printsvc/src/flow_control.c:159-163 | The number of the k-th packet is k further on, modulo 255 |
| `SlidingWindow.StartsSynced` | printsvc/src/flow_control.c:36-60 | After a start, a clear or a resync the window is in order, if the number is below 255 |
| `SlidingWindow.InflightIsUnacknowledged` | printsvc/src/flow_control.c:195-205 | Packets in flight are those submitted and not acknowledged, at most 32 |
| `SlidingWindow.LookupFindsPending` | printsvc/src/flow_control.c:62-78 | The scan for a pending packet's number finds that packet's slot, stale slots notwithstanding |
| `SlidingWindow.PendingFoundIsInWindow` | printsvc/src/flow_control.c:71-78 | A pending slot found for a number is the packet of that number inside the window |
| `SlidingWindow.StaleTwinIsHigher` | printsvc/src/flow_control.c:62-94 | Of two slots with one number, the acknowledged one has the higher index |
| `SlidingWindow.FreeSlotIsNext` | printsvc/src/flow_control.c:80-94 | Which slot is reused: the next unused one, else the first acknowledged one, behind pending ones only |
| `SlidingWindow.PrepareKeepsSync` | printsvc/src/flow_control.c:228-258 | Preparing a packet keeps the window in order and gives it the next number |
| `SlidingWindow.AckThroughIff` | printsvc/src/flow_control.c:145-181 | A cumulative acknowledgement of any packet ever sent, however old, marks the packets up to it and nothing else exactly when it is in time: its packet is in flight, or nothing is, or it is, modulo 255, behind all in flight and at most 224 packets old |
| `SlidingWindow.LateAckChangesNothingIff` | printsvc/src/flow_control.c:145-181 | An acknowledgement of something already acknowledged changes nothing exactly when it is in time |
| `SlidingWindow.PositiveReplyIff` | printsvc/src/flow_control.c:302-343 | An "o" reply for any packet ever sent asks for no resend, and advances the window to that packet exactly when it is in time or no slot has its number |
| `SlidingWindow.ResendReply` | printsvc/src/flow_control.c:302-343 | An "r" reply acknowledges what comes before and asks for the packet, or changes nothing when a resend is under way or nothing is pending |
| `SlidingWindow.QuietClearKeepsSync` | printsvc/src/flow_control.c:42-50 | Emptying a window with nothing in flight keeps it in order |
| `SlidingWindow.BareOkOldestIff` | printsvc/src/flow_control.c:374-380 | A bare "ok" keeps the window in order exactly when the lowest pending slot holds the oldest packet |
| `WindowRuns.BareOkSkipsPackets` | printsvc/src/flow_control.c:374-380 | A run from a fresh link into a window in order in which it acknowledges the newest packet instead |
| `WindowRuns.SecondOkUnbalances` | printsvc/src/flow_control.c:366-372 | A run from a fresh link in which one packet is acknowledged twice by its number: one sent, two acknowledged, none discarded |
| `WindowRuns.CounterWrapsInWindow` | printsvc/src/flow_control.c:207-258 | A run from a fresh link into a window in order inside which the send counter wraps |
| `SlidingWindow.NumberedOkBalancesIff` | printsvc/src/flow_control.c:366-372 | "ok N" always counts one acknowledgement; one packet leaves the flight exactly when the slot was pending |
| `SlidingWindow.ResendOrderIff` | printsvc/src/motion_sender.c:57-94 | The chosen order is submission order, oldest first, each pending packet once, exactly when the 32-bit send counter does not wrap inside the window |
| `SyncLine.ParseFormat` | printsvc/src/flow_control.c:96-143 | A sync line with its check byte parses back to its code, number and room |
| `SyncLine.ParseSync` | printsvc/src/flow_control.c:122-143 | The scanner agrees with the grammar of sync lines |
| `FlowControl.Flow.constructor` | printsvc/src/flow_control.c:36-40 | A new controller is the empty window |
| `FlowControl.Flow.ClearInflight` | printsvc/src/flow_control.c:42-50 | Empties every slot and forgets the room; numbering goes on |
| `FlowControl.Flow.ResyncToExpected` | printsvc/src/flow_control.c:52-60 | Empties the window and takes up the number the controller expects |
| `FlowControl.Flow.SlotForSequence` | printsvc/src/flow_control.c:62-69 | The lowest occupied slot with the number |
| `FlowControl.Flow.PendingSlotForSequence` | printsvc/src/flow_control.c:71-78 | That slot if it is pending |
| `FlowControl.Flow.FirstFreeSlot` | printsvc/src/flow_control.c:80-94 | An unused slot, else an acknowledged one, none without room |
| `FlowControl.Flow.CanSendNow` | printsvc/src/flow_control.c:207-212 | Whether a packet may be sent |
| `FlowControl.Flow.InflightNow` | printsvc/src/flow_control.c:195-205 | The number of pending slots |
| `FlowControl.Flow.BarrierNow` | printsvc/src/flow_control.c:214-226 | Whether a barrier is pending |
| `FlowControl.Flow.PreparePacket` | printsvc/src/flow_control.c:228-258 | Full and unchanged; or invalid with only the number advanced; or the packet framed, its slot filled and the counters advanced |
| `FlowControl.Flow.AcknowledgeThrough` | printsvc/src/flow_control.c:165-181 | The loop over the slots is the cumulative acknowledgement |
| `FlowControl.Flow.Request` | printsvc/src/flow_control.c:183-193 | Counts the request and asks for the packet, or gives up after eight |
| `FlowControl.Flow.HandleResponse` | printsvc/src/flow_control.c:302-391 | The whole new state and the outcome for every line; what the number reported leads to is in `ReplyText.LostLinkResumes` |
| `FlowControl.Flow.GetResendPacket` | printsvc/src/flow_control.c:393-407 | The original frame of the packet with the number, or nothing |
| `FlowControl.AckFirstIsAckThrough` | printsvc/src/flow_control.c:165-181 | Acknowledging slot by slot from index 0 amounts to the cumulative acknowledgement |
| `MotionSender.Serial.WriteAll` | printsvc/src/motion_sender.c:4-30 | The device takes all the bytes, or a part of them when it fails |
| `MotionSender.SendGcode` | printsvc/src/motion_sender.c:4-30 | Refused commands write nothing; an accepted one is in the window even when the device fails, and what was written is its frame or a part of it |
| `MotionSender.ResendSequence` | printsvc/src/motion_sender.c:32-55 | Writes the original frame of the packet with the number |
| `MotionSender.OldestLeft` | printsvc/src/motion_sender.c:57-94 | The inner loop finds the pending slot not yet emitted with the lowest send order |
| `MotionSender.ResendPending` | printsvc/src/motion_sender.c:57-94 | Writes the sync bytes and then every pending packet once, in that order |
| `MotionSender.ResendIsGoBackN` | printsvc/src/motion_sender.c:57-94 | What is written is the original frames from the oldest unacknowledged packet to the newest, if the send counter does not wrap inside the window |
| `MotionSender.RequestedOnwardsIsResent` | printsvc/src/motion_runtime.c:56-72 | An "r" for packet m and the retransmission it leads to: exactly the original frames from m to the newest, unless the request is the ninth for m and refused |
| `MarlinPacket.Encode` | printsvc/src/marlin_packet.c:9-38 | Fills the buffer with the frame when it fits, and leaves the rest and, on refusal, everything alone |
| `MarlinPacket.DecodeFrame` | printsvc/src/marlin_packet.c:9-38 | A receiver recovers number and command from every frame |
| `MarlinPacket.DecodeOnlyFrames` | printsvc/src/marlin_packet.c:9-38 | A receiver accepts nothing but frames |
| `MarlinPacket.TornFrameRejected` | printsvc/src/marlin_packet.c:9-38 | No beginning of a frame short of the whole is accepted |
| `MarlinPacket.DamagedFrameRejected` | printsvc/src/marlin_packet.c:9-38 | Damage to any two neighbouring bytes behind the header is rejected |
| `MarlinPacket.ZeroResidue` | printsvc/src/marlin_packet.c:26-38 | The register over body and check bytes ends at zero |
| `MarlinPacket.CheckIsUnique` | printsvc/src/marlin_packet.c:26-38 | Only the right check bytes do that |
| `CrcPolynomial.Checksum16IsRemainder` | printsvc/src/crc.c:15-28 | The packet checksum is the remainder of the message, behind a register of ones, modulo x^16 + x^12 + x^5 + 1 over GF(2) |
| `CrcPolynomial.Checksum8IsRemainder` | printsvc/src/crc.c:4-13 | The reply checksum is the remainder of the message modulo x^8 + x^2 + x + 1 |
| `CrcPolynomial.CheckedIsMultiple` | printsvc/src/marlin_packet.c:26-38 | Body and check bytes, behind a register of ones, are a multiple of the generator |
| `CrcPolynomial.RemainderDivides` | printsvc/src/crc.c:4-28 | Long division leaves a remainder shorter than the generator that differs from the message by a multiple of it |
| `CrcPolynomial.FrameOfM105` | printsvc/src/marlin_packet.c:9-38 | Packet 0 with M105 is ff ff 00 04 4d 31 30 35 41 fa |
| `Crc.Crc16` | printsvc/src/crc.c:15-28 | The shifting loops compute the byte-wise checksum |
| `Crc.Crc8` | printsvc/src/crc.c:4-13 | The same for the 8-bit checksum |
| `Crc.ResidueIsZero` | printsvc/src/crc.c:15-28 | The two bytes of the register drive the register to zero |
| `Crc.AdjacentDamageDetected` | printsvc/src/crc.c:15-28 | Messages differing only in two neighbouring bytes have different checksums |
| `Crc.PairDetected` | printsvc/src/crc.c:15-28 | Two different pairs of bytes leave different registers |
| `Crc.DifferenceSurvives` | printsvc/src/crc.c:15-28 | A difference in the register survives any equal input |
| `Crc.FoldConcat` | printsvc/src/crc.c:15-28 | The checksum of a message can be continued |
| `GcodeRewrite.RewriteLine` | printsvc/src/gcode_rewrite.c:41-150 | The commands and waits one line expands to, never more than fit the table |
| `GcodeRewrite.WaitsAreHeaters` | printsvc/src/gcode_rewrite.c:60-87 | A line expands to a wait for the bed exactly when it is M190, and for the nozzle exactly when it is M109; the one command is M140, or M104, with the number behind the first S that has one, zero without one, and never less than zero |
| `GcodeRewrite.ParameterIsFirst` | printsvc/src/gcode_rewrite.c:27-39 | A parameter is the number behind the first letter of its name, either case, that has one |
| `GcodeRewrite.CommandIff` | printsvc/src/gcode_rewrite.c:14-25 | A line is a command exactly when behind any blanks its name stands and a blank or the end follows |
| `GcodeRewrite.OthersPass` | printsvc/src/gcode_rewrite.c:134-150 | Every other line is sent as it stands, and M117 not at all |
| `GcodeRewrite.PrimesUnlessTold` | printsvc/src/gcode_rewrite.c:89-126 | A priming line expands to the priming moves, or, with a strategy that does not truncate to zero, to one command that takes the nozzle for retracted by 16.5 mm |
| `GcodeRewrite.PrimingIs` | printsvc/src/gcode_rewrite.c:89-126 | The fifteen priming moves |
| `GcodeStream.BatchIsSaid` | printsvc/src/gcode_stream.c:119-198 | Every command that a file of complete lines means, with its wait and target, is what one of its lines says: a wait for the bed comes from an M190 with that target, one for the nozzle from an M109 |
| `GcodeStream.ItemsAreSaid` | printsvc/src/gcode_stream.c:119-198 | The same for every file, for the lines it is read as |
| `GcodeStream.Stream.Fill` | printsvc/src/gcode_stream.c:14-39 | One read: any piece of what is left, the end, or, of a file that is not reliable, a failure; nothing is lost |
| `GcodeStream.Stream.ReadChar` | printsvc/src/gcode_stream.c:14-39 | The next unread character, whatever the pieces |
| `GcodeStream.Stream.ReadLine` | printsvc/src/gcode_stream.c:41-67 | The line up to its newline without returns, cut to 255, with a NUL; at the end of the file without one |
| `GcodeStream.Stream.NextPayload` | printsvc/src/gcode_stream.c:144-177 | The stripped line without its comment, and what stripping leaves in the line buffer |
| `GcodeStream.Stream.NextPending` | printsvc/src/gcode_stream.c:131-142 | The next command of a rewritten line, copied over the line buffer |
| `GcodeStream.Stream.NextLine` | printsvc/src/gcode_stream.c:144-198 | The expansion of the next line |
| `GcodeStream.Stream.Next` | printsvc/src/gcode_stream.c:119-198 | Takes the next command, with its wait, off what the file still means; if there is none, nothing is left, or the file is not reliable and a read of it has failed |
| `GcodeStream.StripLine` | printsvc/src/gcode_stream.c:147-177 | What stripping a line in place leaves in the whole line buffer: comment and trailing blanks overwritten, the rest moved to the front |
| `GcodeStream.ReadAll` | printsvc/src/gcode_stream.c:14-198 | For every file, with NULs and without a last newline too, and every split into reads: the commands are a beginning of those the file means with the line buffer as it is at each line; of a reliable file they are exactly those, and with complete lines those of the text read at once |
| `GcodeStream.FirstOfLine` | printsvc/src/gcode_stream.c:41-67 | Of a longer line the first 255 characters, without carriage returns |
| `GcodeStream.LineUnderstood` | printsvc/src/gcode_stream.c:41-198 | What is in the line buffer after a read is the line the file means |
| `GcodeStream.WholeIsBatch` | printsvc/src/gcode_stream.c:41-198 | If all lines end in a newline and there is no NUL, the old contents of the line buffer make no difference |
| `GcodeStream.WholeFile` | printsvc/src/gcode_stream.c:41-198 | Every file without NULs means its complete lines and, behind them, its last line as it runs on into what earlier lines have left in the buffer |
| `GcodeStream.UnterminatedFileIff` | printsvc/src/gcode_stream.c:56-57 | A file without a last newline means what it means with one if its last line is empty or has a comment, or what follows it in the buffer is blank up to a comment; for lines that are sent as they stand, exactly then |
| `GcodeStream.PayloadSameIff` | printsvc/src/gcode_stream.c:147-174 | Text behind a line leaves its command alone exactly when the line has a comment or the text is blank up to its first comment |
| `GcodeStream.LeftoverIsRead` | printsvc/src/gcode_stream.c:56-57 | An instance: the file of "G28 X", a newline and "M1" means "G28 X" and "M18 X" |
| `PrintStatus.WaitHidesPhase` | printsvc/src/motion_observer.c:18-32 | A line leaves the reported phase alone exactly when no heater wait remains or the phase is already the waiting one |
| `MotionPolicy.BuildPause` | printsvc/src/motion_policy.c:94-117 | The ten commands of a pause, none lost to the table |
| `MotionPolicy.BuildResume` | printsvc/src/motion_policy.c:119-151 | The commands of a resume, cold or heated, none lost to the table |
| `MotionPolicy.ResumeDrivesBack` | printsvc/src/motion_policy.c:119-151 | For every saved place inside the build volume: a resume goes to its x and y, then down to its z, and when heated sets the nozzle, runs filament, and ends with the extruder where it stood |
| `MotionPolicy.PauseDrivesAside` | printsvc/src/motion_policy.c:94-117 | For every place inside: a pause retracts while wiping 50 mm towards the middle, lifts by 10 mm as far as there is room, goes to the front and all the way up, and lets the nozzle cool |
| `MotionPolicy.OutsideIsNearest` | printsvc/src/motion_policy.c:22-60 | From anywhere else both lists are those of the nearest point of the build volume |
| `PolicyEffects.AbortLeaves` | printsvc/src/motion_policy.c:61-76 | From any position and mode the abort list, carried out, ends at home with the filament held back, heaters and fan off, nothing moving and only then the motors released; the head is never driven down but by homing |
| `PolicyEffects.FinishLeaves` | printsvc/src/motion_policy.c:78-92 | So does the finishing list, which lifts the head by 3 mm when everything has stopped |
| `PolicyEffects.HomeLeaves` | printsvc/src/job_streamer.c:25-28 | The first list of a job ends at home, in the middle of the front |
| `PolicyEffects.PrimeLeaves` | printsvc/src/job_streamer.c:30-33 | Priming moves the filament back and forth once |
| `PolicyEffects.StartupLeaves` | printsvc/src/job_streamer.c:35-40 | The start-up list leaves absolute modes and the extruder at zero, whatever was set before |
| `MotionPolicy.PauseMovesAreSafe` | printsvc/src/motion_policy.c:22-117 | Inside the build volume a pause never lowers the head and wipes exactly 50 mm |
| `ServiceSafety.SendOneFacts` | printsvc/src/motion_sender.c:4-30 | A free slot means the window is never full, and one submission adds at most one packet in flight |
| `ServiceSafety.SendListFacts` | printsvc/src/job_streamer.c:198-229 | A list stops inside its bounds, within the window of four, and only with something in flight or no room |
| `ServiceSafety.AbortedKeeps` | printsvc/src/job_control.c:122-187 | An abort, accepted or refused, keeps the invariant |
| `ServiceSafety.AbortPolledKeeps` | printsvc/src/job_control.c:189-235 | So does its poll, which ends only when nothing is in flight |
| `ServiceSafety.FinishPolledKeeps` | printsvc/src/job_control.c:237-311 | The finishing list extends the job's log by its next commands |
| `ServiceSafety.PauseResumePolledKeeps` | printsvc/src/pause_resume_control.c:263-312 | Position probe, pause and resume polls keep the invariant |
| `ServiceSafety.QueueSentKeeps` | printsvc/src/gcode_control.c:133-190 | The queue of commands by hand keeps the invariant, a wait or a failure included |
| `ServiceSafety.GcodeGivenKeeps` | printsvc/src/gcode_control.c:192-232 | So does giving commands by hand |
| `ServiceSafety.HomingPolledKeeps` | printsvc/src/job_streamer.c:262-322 | Homing extends the job's log by the next homing commands |
| `ServiceSafety.StartupPolledKeeps` | printsvc/src/job_streamer.c:231-260 | Starting up extends it by the next start-up commands |
| `ServiceSafety.ItemSentKeeps` | printsvc/src/job_streamer.c:324-474 | One command of the file extends it by that command, or drops the job |
| `ServiceSafety.StreamerPolledKeeps` | printsvc/src/job_streamer.c:324-474 | The whole job poll keeps the invariant |
| `ServiceSafety.LineSeenKeeps` | printsvc/src/motion_runtime.c:35-87 | A line of the controller keeps it and puts nothing in flight |
| `ServiceSafety.ProbedKeeps` | printsvc/src/service.c:73-159 | Probes keep it and do not come between the commands of an abort |
| `ServiceSafety.TendedKeeps` | printsvc/src/service.c:73-159 | So does everything a motion poll does after reading |
| `ServiceSafety.MotionPolledKeeps` | printsvc/src/service.c:73-159 | And the motion poll as a whole |
| `ServiceSafety.PositionNeverGoesOn` | printsvc/src/pause_resume_control.c:55-93 | A position reported anew is always taken as valid, so the probe never goes on to a list in the same poll |
| `ServiceSafety.PlaceIsOnScript` | printsvc/src/job_streamer.c:262-474 | At every stage the job's log is a beginning of its script |
| `PrintService.PrintService.constructor` | printsvc/src/service_context.c:8-19 | A new service is the start state |
| `PrintService.PrintService.Submit` | printsvc/src/motion_sender.c:4-30 | One submission: the new window, and on the device the frame of the command under the next number |
| `PrintService.PrintService.SubmitList` | printsvc/src/job_streamer.c:198-229 | The resumable loop over a list: how far it comes, why it stops, the commands it records, and on the device their frames with consecutive numbers |
| `PrintService.PrintService.AbortJob` | printsvc/src/job_control.c:122-187 | Accepted exactly when something can be aborted; drops everything and begins, or at once when the device is closed |
| `PrintService.PrintService.AbortPoll` | printsvc/src/job_control.c:189-235 | One poll of the abort, to success, failure or the next time |
| `PrintService.PrintService.FinishPoll` | printsvc/src/job_control.c:237-311 | One poll of the finishing list |
| `PrintService.PrintService.PositionPoll` | printsvc/src/pause_resume_control.c:55-93 | Asks for the position and waits for a new report |
| `PrintService.PrintService.ListPoll` | printsvc/src/pause_resume_control.c:95-133 | One poll of a pause or resume list |
| `PrintService.PrintService.PausePoll` | printsvc/src/pause_resume_control.c:263-312 | One poll of a pause |
| `PrintService.PrintService.SendHeat` | printsvc/src/pause_resume_control.c:135-168 | The heating command of a resume and the wait it arms |
| `PrintService.PrintService.ResumePoll` | printsvc/src/pause_resume_control.c:263-312 | One poll of a resume, its heater wait included |
| `PrintService.PrintService.PauseResumePoll` | printsvc/src/pause_resume_control.c:263-312 | All three in their order |
| `PrintService.PrintService.Refresh` | printsvc/src/gcode_control.c:72-91 | The manual status follows the heater targets when nothing else runs |
| `PrintService.PrintService.QueueSubmit` | printsvc/src/gcode_control.c:133-190 | The loop over the queue ends at a wait, a closed gate, a failure or the end |
| `PrintService.PrintService.QueuePoll` | printsvc/src/gcode_control.c:133-190 | One poll of the queue |
| `PrintService.PrintService.SetHeaters` | printsvc/src/gcode_control.c:93-101 | The heater targets of all accepted commands |
| `PrintService.PrintService.RewriteLines` | printsvc/src/gcode_control.c:192-232 | All lines expanded, or none when they are more than 64 commands |
| `PrintService.PrintService.RunGcode` | printsvc/src/gcode_control.c:192-232 | Commands given by hand: queued whole or not at all |
| `PrintService.PrintService.HomingPoll` | printsvc/src/job_streamer.c:262-322 | One poll of homing |
| `PrintService.PrintService.StartupSubmit` | printsvc/src/job_streamer.c:231-260 | The two start-up lists, resumable across both, are one list |
| `PrintService.PrintService.StartupPoll` | printsvc/src/job_streamer.c:262-322 | One poll of starting up |
| `PrintService.PrintService.PreparePoll` | printsvc/src/job_streamer.c:262-322 | Every stage of the preparation |
| `PrintService.PrintService.SubmitItem` | printsvc/src/job_streamer.c:324-474 | Submits the command just read, or drops the job |
| `PrintService.PrintService.AdvanceFile` | printsvc/src/job_streamer.c:394-474 | The next command, or the beginning of the end: when the file is through, or, of a file that is not reliable, a read has failed |
| `PrintService.PrintService.StreamPoll` | printsvc/src/job_streamer.c:324-474 | Waits, barrier, room and window before the next command; a read fails only of a file that is not reliable |
| `PrintService.PrintService.StreamerPoll` | printsvc/src/job_streamer.c:324-474 | The whole job poll; a read fails only of a file that is not reliable |
| `PrintService.PrintService.PollJob` | printsvc/src/service.c:173-188 | The job side: abort, then pause or resume, then the queue, then the job; the invariant holds after it, and a read fails only of a file that is not reliable |
| `PrintService.PrintService.Observe` | printsvc/src/motion_observer.c:7-32 | What a line does to status and heater wait |
| `PrintService.PrintService.ResendAll` | printsvc/src/motion_sender.c:57-94 | Everything pending is on the device again, behind the sync bytes, in the order of `MotionSender.ResendPending` |
| `PrintService.PrintService.HandleLine` | printsvc/src/motion_runtime.c:35-87 | One line: resend, resync, fault or nothing; a request that is heeded is answered on the device, and nothing else is written |
| `PrintService.PrintService.ReadLines` | printsvc/src/motion_runtime.c:35-87 | Lines in order until one ends the poll |
| `PrintService.PrintService.ProbeSend` | printsvc/src/service.c:19-48 | A probe, without regard to the window of four |
| `PrintService.PrintService.StartupProbe` | printsvc/src/service.c:73-159 | The first probe |
| `PrintService.PrintService.FirmwareProbe` | printsvc/src/service.c:73-159 | Asks for the firmware version again, at most six times in all |
| `PrintService.PrintService.TemperatureProbe` | printsvc/src/service.c:73-159 | Every fourth quiet poll asks for temperatures |
| `PrintService.PrintService.CheckFault` | printsvc/src/service.c:73-159 | A fatal fault during a job aborts it |
| `PrintService.PrintService.Tend` | printsvc/src/service.c:73-159 | Everything a poll does after reading |
| `PrintService.PrintService.PollMotion` | printsvc/src/service.c:73-159 | The motion side; the invariant holds after it |
| `PrintService.PrintService.AcceptJob` | printsvc/src/job_control.c:31-120 | Accepted, refused or outside the build volume; the new stream has all of the file before it |
| `PrintService.PrintService.AbortNow` | printsvc/src/job_control.c:122-187 | An abort as a command; the invariant holds after it |
| `PrintService.PrintService.PauseNow` | printsvc/src/pause_resume_control.c:170-215 | A pause as a command |
| `PrintService.PrintService.ResumeNow` | printsvc/src/pause_resume_control.c:217-261 | A resume as a command |
| `PrintService.PrintService.GcodeNow` | printsvc/src/gcode_control.c:192-232 | G-code as a command |
| `PrintService.PrintService.OpenDevice` | printsvc/src/service.c:55-71 | Opening the device and arming the probes |
| `PrintService.PrintService.CloseService` | printsvc/src/service_context.c:80-126 | Closing drops everything |
| `PrintService.PrintService.WaitForRoom` | printsvc/src/macro_control.c:23-45 | Polls until the window has room; the polls are a run of the service, and the macro has submitted nothing meanwhile |
| `PrintService.PrintService.WaitForHeater` | printsvc/src/macro_control.c:83-118 | Succeeds only by arming the wait, polling until it is over, and switching it off |
| `PrintService.PrintService.SubmitMacro` | printsvc/src/macro_control.c:60-67 | Submits one command of a macro inside the window |
| `PrintService.PrintService.MacroStep` | printsvc/src/macro_runner.c:7-65 | The next command of the macro file, and only that one; none only at its end, or when a read of a file that is not reliable has failed |
| `PrintService.PrintService.MacroFile` | printsvc/src/macro_runner.c:7-65 | What the macro has submitted is a beginning of its file, and on success, of a reliable file, all of it |
| `PrintService.PrintService.RunMacro` | printsvc/src/macro_control.c:120-146 | For every file: a macro, polls included, is a run of the service and has submitted a beginning of what its file means, in order; on success, of a reliable file, all of it |
| `MacroWait.AwaitedHeaterWasWarm` | printsvc/src/macro_control.c:83-118 | A wait that succeeds, with no job, finishing, abort or resume about, has seen the awaited heater reported warm, or it is warm at the end |
| `PrintService.TwoParts` | printsvc/src/job_streamer.c:231-260 | Sending two lists one after the other from any index is sending their concatenation |
| `PrintClock.Clock.Stop` | printsvc/src/job_streamer.c:56-136 | Books what ran and stops |
| `PrintClock.Clock.Update` | printsvc/src/job_streamer.c:56-124 | The time left for every phase, with the 32-bit casts |
| `PrintClock.Clock.Mark` | printsvc/src/job_streamer.c:138-196 | A time mark in the file rebases the total on what is booked |
| `PrintClock.ClockIsSane` | printsvc/src/job_streamer.c:56-196 | In every run the time left is between zero and the total, and the time booked is no more than has passed since progress began |
| `PrintClock.RunStaysSane` | printsvc/src/job_streamer.c:56-196 | The clock's invariant over every run |
| `PrintClock.LeftIsRest` | printsvc/src/job_streamer.c:56-196 | After a time mark, through any run of updates with any pauses and waits in it: the time shown as left is the whole time less what the mark names less the seconds printed since, read off a stopwatch that phases start and stop, and never below zero |
| `PrintClock.FirstLayerStarts` | printsvc/src/job_streamer.c:56-196 | The same from the first layer on, for the whole time |
| `PrintClock.NothingPassesBefore` | printsvc/src/job_streamer.c:56-124 | Before the first layer none of it passes |
| `PrintClock.PauseIsNotBooked` | printsvc/src/job_streamer.c:56-124 | The time between a pause, or a heater wait, and its end is not booked |
| `MessagePack.SkipIff` | dfsvc/src/main.c:904-965 | Skipping succeeds exactly where an encoded value stands and ends right behind it |
| `MessagePack.SkipsOne` | dfsvc/src/main.c:915-965 | Skipping any value consumes exactly its encoding, whatever follows |
| `MessagePack.ScalarTags` | dfsvc/src/main.c:915-965 | Which tags are scalars, of which sizes: 2^k bytes for the k-th integer and floating-point tags; and which tags are not known |
| `MessagePack.LengthTags` | dfsvc/src/main.c:915-965 | Strings, arrays and maps with their lengths in the tag or in one or two bytes behind it, a map with two values for each entry |
| `MessagePack.RpcKeyIs` | dfsvc/src/main.c:871-885 | The bytes of a request key: a map of four pairs, with the time as a signed 64-bit integer |
| `MessagePack.SkipsAll` | dfsvc/src/main.c:906-913 | The same for any number of values |
| `MessagePack.SkippedIsValue` | dfsvc/src/main.c:915-965 | Whatever is skipped is the encoding of a value |
| `MessagePack.StrRoundTripIff` | dfsvc/src/main.c:856-869 | A string written is read back, and the reader stops behind it, exactly up to 31 bytes: the long form carries a stray integer tag |
| `MessagePack.ReadsStr` | dfsvc/src/main.c:967-995 | Every encoded string that fits is read as it is |
| `MessagePack.KeyRoundTrip` | dfsvc/src/main.c:997-1024 | Whatever fields a key has, in whatever order, the parts read are those its fields mean |
| `MessagePack.RpcKeyReadIff` | dfsvc/src/main.c:871-885 | A request key, written and read with the buffers of the source, comes back exactly when neither its source nor its target exceeds 31 bytes |
| `MessagePack.LongKeyRefused` | dfsvc/src/main.c:997-1024 | A key with a longer one of at most 52000 bytes in all cannot be read at all |
| `MessagePack.UpdateRequestRefused` | dfsvc/src/main.c:1816-1819 | So the one request the service sends cannot be read by its own reader, whatever its running number |
| `MessagePack.Buffer.Ensure` | dfsvc/src/main.c:810-823 | Grows without losing what was written |
| `MessagePack.Buffer.Write` | dfsvc/src/main.c:825-832 | Appends the bytes, or nothing |
| `MessagePack.Buffer.PutU16` | dfsvc/src/main.c:836-840 | Tag and two bytes |
| `MessagePack.Buffer.PutString` | dfsvc/src/main.c:856-869 | The string with its header; too long ones are refused |
| `MessagePack.Buffer.EncodeRpcKey` | dfsvc/src/main.c:871-885 | The bytes of the request key, for every source and target; too long ones are refused |
| `MessagePack.Reader.ReadU8` | dfsvc/src/main.c:887-893 | One byte, or the end |
| `MessagePack.Reader.SkipValues` | dfsvc/src/main.c:906-913 | Agrees with skipping n values; terminates on the bytes left |
| `MessagePack.Reader.SkipValue` | dfsvc/src/main.c:915-965 | Agrees with skipping one |
| `MessagePack.Reader.ReadString` | dfsvc/src/main.c:967-995 | Agrees with reading a string, cut to the buffer |
| `MessagePack.Reader.ReadKeyParts` | dfsvc/src/main.c:997-1024 | Agrees with reading a key |
| `Sha256Example.DigestOfAbc` | printsvc/tests/test_printsvc.c:5774-5784 | The digest of "abc", worked out round by round, is ba7816bf 8f01cfea 414140de 5dae2223 b00361a3 96177a9c b410ff61 f20015ad |
| `Sha256.FewestZeros` | printsvc/src/sha256.c:100-115 | The padding is the shortest that fills a block |
| `Sha256.PaddedIsWhole` | printsvc/src/sha256.c:100-115 | A padded message is whole blocks |
| `Sha256.BitsAdd` | printsvc/src/sha256.c:81-98 | The 64-bit bit count of a message taken in pieces is that of the whole |
| `Sha256.Context.constructor` | printsvc/src/sha256.c:71-79 | Nothing taken in yet |
| `Sha256.Context.FillSchedule` | printsvc/src/sha256.c:47-69 | The message schedule |
| `Sha256.Context.Mix` | printsvc/src/sha256.c:47-69 | The sixty-four rounds |
| `Sha256.Context.Transform` | printsvc/src/sha256.c:47-69 | The state after one more block |
| `Sha256.Context.Update` | printsvc/src/sha256.c:81-98 | Whatever the pieces, state and buffer describe exactly the message so far |
| `Sha256.Context.Final` | printsvc/src/sha256.c:100-115 | The digest of everything taken in |
| `Sha256.HashChunks` | printsvc/src/sha256.c:71-115 | For every message and every split into updates: the digest of section 6.2.2 of FIPS 180-4 over the padding of section 5.1.1 |
| `PngFilter.PaethIsNearest` | common/print/print_job_file.c:704-714 | The predictor is the nearest of left, up and upper left, in that order of preference |
| `PngFilter.RowRecovered` | common/print/print_job_file.c:840-874 | Unfiltering a filtered row gives the row, for every filter |
| `PngFilter.FilteredAgain` | common/print/print_job_file.c:840-874 | Filtering an unfiltered row gives the bytes that were read |
| `PngFilter.ImageRecovered` | common/print/print_job_file.c:840-874 | The same for whole images with a filter chosen per row (sections 9.2 to 9.4 of the PNG specification) |
| `PngFilter.FiveFilters` | common/print/print_job_file.c:840-862 | The filters by number as the PNG specification names them: each filtered byte and its prediction from the left, upper and upper left neighbours add up to the byte modulo 256 |
| `PngFilter.PixelShown` | common/print/print_job_file.c:863-871 | Where each pixel of the image stands among the bytes shown |
| `PngFilter.PixelIsOpaque` | common/print/print_job_file.c:863-871 | Its three or four bytes, with ff for a missing alpha byte |
| `PngFilter.RefusedIff` | common/print/print_job_file.c:840-874 | An image of the right size is refused exactly when a filter is unknown |
| `PngFilter.SizeIsProduct` | common/print/print_job_file.c:813-828 | Its size is height times stride plus one |
| `PngFilter.UnfilterRow` | common/print/print_job_file.c:846-862 | The loop over a row unfilters it |
| `PngFilter.PutRow` | common/print/print_job_file.c:863-871 | The loop over a row writes its pixels, opaque without an alpha byte |
| `PngFilter.DecodeRows` | common/print/print_job_file.c:840-874 | The loops recover the image, or refuse it, and write its pixels |
| `PngFilter.DecodingShowsImage` | common/print/print_job_file.c:840-874 | Whatever filters were chosen, the pixels are those of the original image |
| `WebSocket.MaskedTwice` | dfsvc/src/main.c:1341-1369 | Masking twice is not masking |
| `WebSocket.FrameRead` | dfsvc/src/main.c:1371-1473 | Every frame, masked or not, of each length form, is read as sent (section 5.2 of RFC 6455) |
| `WebSocket.MessageReassembled` | dfsvc/src/main.c:1371-1473 | Every text that fits is put together exactly, however fragmented, masked and interleaved with control frames, and every ping is answered with its payload (sections 5.4 and 5.5) |
| `WebSocket.SendText` | dfsvc/src/main.c:1341-1369 | Writes one masked final frame; texts over 65535 bytes are refused |
| `WebSocket.SentTextIsRead` | dfsvc/src/main.c:1341-1473 | What is sent is read back |
| `WebSocket.SendControl` | dfsvc/src/main.c:1230-1252 | Writes one masked final control frame; payloads over 125 bytes are refused |
| `WebSocket.SingleFrames` | dfsvc/src/main.c:1230-1369 | The frames of section 5.7 of RFC 6455: a text plain and masked, a ping, and its pong |
| `WebSocket.FragmentsRead` | dfsvc/src/main.c:1371-1473 | A text in two frames with a ping between, byte for byte, is read as one, and the ping is answered |
| `WebSocket.CloseEndsReading` | dfsvc/src/main.c:1371-1473 | A close frame ends the reading |
| `WebSocket.Connection.Answer` | dfsvc/src/main.c:1230-1252 | The pong for one more ping, behind the others |
| `WebSocket.Connection.ReadExact` | dfsvc/src/main.c:1147-1157 | Exactly n bytes, or the end |
| `WebSocket.Connection.ReadHead` | dfsvc/src/main.c:1371-1391 | The head of a frame: final, opcode, length, mask; lengths of eight bytes are refused |
| `WebSocket.Connection.ReadMessage` | dfsvc/src/main.c:1371-1473 | The loop over frames: the buffer it leaves, and the pongs it writes, each masked with the next mask drawn |
| `JsonMembers.RemovedIsDeletedIff` | web/src/api_cluster.c:94-163 | On compactly printed documents the textual removal amounts to deleting the members of that name, at all depths, exactly when no key that stays ends in an escaped quote and the name |
| `JsonMembers.RemovedIsDeleted` | web/src/api_cluster.c:134-163 | The direction callers rely on |
| `JsonMembers.EscapedNameIsCut` | web/src/api_cluster.c:134-163 | An instance of the failure: a key a\"id when "id" is removed |
| `JsonMembers.NothingRemains` | web/src/api_cluster.c:134-163 | Afterwards the searched pattern occurs nowhere |
| `JsonMembers.FirstInValue` | web/src/api_cluster.c:148-149 | The first occurrence of the pattern is the first member of that name |
| `JsonMembers.AbsentInValue` | web/src/api_cluster.c:148-149 | Without such a member it does not occur: every occurrence is a key |
| `JsonMembers.PassValue` | web/src/api_cluster.c:94-132 | The scan for the end of a value passes over whole values, strings and escapes included |
| `JsonMembers.CutInValue` | web/src/api_cluster.c:150-162 | One cut deletes that member and one comma, wherever it stands |
| `JsonMembers.MemberValueEnd` | web/src/api_cluster.c:94-132 | The scanning loop agrees with that scan |
| `JsonMembers.RemoveMember` | web/src/api_cluster.c:134-163 | The buffer afterwards holds the text with every cut made; names too long for the pattern leave it alone |
| `CommandText.LinesReadBackIff` | common/print/command_format.c:48-70 | Lines of G-code sent are the lines received exactly when there are at most sixteen, each has at most 255 characters and no control character, quote or backslash, and the text fits the payload but perhaps for its closing bracket |
| `CommandText.JobReadBackIff` | common/print/command_format.c:87-140 | A job sent is the job received exactly when every text is shorter than its buffer and printable, no text written earlier is, or ends in a quote and, the name of a later member present, and the 511 characters kept of the payload are enough for each: of the file with its closing quote, of other texts but perhaps for half of an escaped backslash at the end, of a number the digits that make it the same |
| `CommandText.VerbsMean` | printsvc/src/command.c:72-127 | ABORT, PAUSE and RESUME are their orders and any other word of up to 15 characters is none, with the payload passed on |
| `CommandText.NameHidesMember` | common/print/json_field.c:13-49 | An instance of the failure: a file called "source" |
| `CommandText.MacroReadBackIff` | common/print/command_format.c:72-85 | A macro name comes back exactly when it is shorter than 128 characters and printable |
| `CommandText.ScanExact` | printsvc/src/command.c:42-70 | The reader gets exactly the listed lines when each is sound and none is cut off, and something else otherwise |
| `CommandText.ValueHeld` | common/print/json_field.c:13-49 | A search in the text of listed members finds the first member so named, or nothing in a value that looks like the name |
| `CommandText.HeldIff` | common/print/json_field.c:13-49 | A member is found exactly when it is read back whole and nothing before it looks like its name |
| `CommandText.EscapingFacts` | common/print/command_format.c:24-46 | Escaped text is well-formed and printable, unchanged for clean text and longer for printable text that is not clean |
| `CommandText.Printer.Append` | common/print/command_format.c:10-22 | Appends whole pieces or nothing, and keeps the NUL |
| `CommandText.Printer.AppendEscaped` | common/print/command_format.c:24-46 | Appends the escaped text exactly when it fits |
| `CommandText.Printer.FormatGcode` | common/print/command_format.c:48-70 | Prints the frame exactly when there is a line and the buffer is large enough |
| `CommandText.Printer.FormatJob` | common/print/command_format.c:87-140 | Prints the frame exactly when there is a file and the buffer is large enough |
| `CommandText.ParseGcodeArray` | printsvc/src/command.c:42-70 | The pointer loops read the quoted lines |
| `CommandText.GetValue` | common/print/json_field.c:13-49 | The pointer loops read the member's value |
| `CommandText.Record.ParseJob` | printsvc/src/command.c:97-115 | Every field of a job, with the fallback names |
| `CommandText.Record.Parse` | printsvc/src/command.c:72-127 | The whole command, or a refusal |

## Left out

- Link.SlidingWindowSafety: covers the numbered replies `o`, `r`, `q`, the report of the expected number while it is timely, and numbers below 255; other text replies are separate transitions with their own exact conditions (`SlidingWindow.BareOkOldestIff`, `Conservation.StepBalancesIff`).
- ServiceLink.FinishedPrintIsAccepted: for runs in which the service's side of the link is one of `Link`: numbered replies and lines that are none, no resync, no command refused, and the window emptied only with nothing in flight.
- ServiceLink.ControllerFollowsScript: for the same runs.
- SlidingWindow.ResendReply: progress is not claimed, since a second request during a resend is ignored by the code.
- GcodeStream.UnterminatedFileIff: exact for lines that are sent as they stand; where the rewriting of two different lines may give the same commands, only one direction holds.
- PrintClock.Clock.Mark: the signed 32-bit sum of the rebased total does not overflow in the model.
- MessagePack.Reader.ReadKeyParts: names with a NUL inside are compared whole, where the C library stops at the NUL.
- FlowControl.Flow.HandleResponse: how a line that is no numbered reply reads as text is a parameter; `ReplyText.Hear` has it as the sources do.
- ReplyText.Hear: whether a number overflows depends on the width of the C library's words, which is a parameter (`limit`).
- ReplyText.ExpectedRead: for numbers below that limit.
- PolicyEffects.AbortLeaves: for the commands the lists are made of; how a printer carries them out is stated in `PolicyEffects.Does`, which stands for the controller.
- HeatHold.ColdJobWaits: until a resume, a new job, or commands or macros by hand, which may replace the wait.
- PrintService.PrintService.PollJob: the returned code and the diagnostic counters (planner starvation, latency) are not modelled.
- PrintService.PrintService.ProbeSend: of a failed probe the code of the failure is not modelled, only that it failed.
- PrintService.PrintService.RunMacro: which fault a failed macro reports when a status probe failed in one of its polls is arbitrary, and a missing macro file is a parameter.
- PrintService.PrintService.AcceptJob: the check of the build volume, the presence of a priming command and the strings of the status record (file, identifier) are parameters or left out. Job files are those whose lines all end in a newline and hold no NUL, since the line buffer of a job poll is uninitialised memory; for macros every file is modelled.
- PrintService.PrintService.StreamerPoll: the streamer's own test of `abort_requested` is unreachable through the service's job poll and is left out; times and layers are modelled in `PrintClock` apart from the job poll.
- ServiceRun.AbortRunsInOrder: assumes no G-code, macro, further abort or closing after the abort, and a device that takes its commands, as the design does.
- MotionPolicy.PauseMovesAreSafe: about the clamped coordinates; the text of a number is a parameter.
- CommandText.JobReadBackIff: for targets whose printed form the C library reads back; a file must be named.
- JsonMembers.RemovedIsDeletedIff: for names of letters, digits and the like, as all callers use, and for compactly printed documents; the 32-bit depth counter is unbounded.
- MessagePack.Buffer.Ensure: an allocation may fail; the sizes are unbounded.
- PngFilter.DecodeRows: starts at the inflated bytes; chunks, the header and allocation failures are not modelled.
- Sha256.Context.Final: the digest as hexadecimal text is not modelled.
- WebSocket.Connection.ReadMessage: TLS, the handshake, waiting for input and the logging of a close frame are not modelled, and sending a pong does not fail.
- Serial line settings, ZeroMQ, HTTP and TLS sockets, processes and the file system: foreign calls.
- Scanning of temperatures, positions, versions and heater targets in free text: parameters (`Env`).
- User interface, network import, material tables, build-plate levelling, manual motion and lighting: single branches and plumbing with no state that outlives a call.
