/** The print service as a value: what each poll and each command does to it. A serial write may fail and
    the job file may break off at any point; where that happens is a parameter of the step. */
module ServiceState {
  import opened FlowState
  import opened GcodeRewrite
  import opened GcodeStream
  import opened MarlinPacket
  import opened MotionPolicy
  import opened MotionSender
  import opened PrintStatus
  import opened SyncLine

  const STREAM_WINDOW := 4
  const JOB_WINDOW := 1
  const QUEUE_COMMANDS := 64
  const TEMPERATURE_TICKS := 4
  const FIRMWARE_TICKS := 20
  const FIRMWARE_ATTEMPTS := 6

  type TextReply = r: Reply | !r.Sync? && !r.DamagedSync? witness OtherText

  datatype HeaterTarget = HeaterTarget(bed: bool, target: real)

  /** The scanners that turn free text into readings, replies and heater settings. */
  datatype Env = Env(libc: Libc, reading: string -> Reading, text: string -> TextReply,
                     heater: string -> Option<HeaterTarget>)

  datatype Cleanup = Cleanup(pending: bool, policy: seq<string>, index: nat)

  const NO_CLEANUP := Cleanup(false, [], 0)

  datatype Queue = Queue(items: seq<Item>, index: nat, active: bool)

  const NO_QUEUE := Queue([], 0, false)

  datatype Stage = Streaming | Homing | HomeDrain | Heating | Startup | StartupDrain

  datatype Job = Job(active: bool, stage: Stage, prepareIndex: nat, startupIndex: nat, nozzle: real)

  const NO_JOB := Job(false, Streaming, 0, 0, 0.0)

  /** The open job file: what is left of it, and whether it primes the nozzle itself. */
  datatype File = File(rest: seq<Item>, hasPrime: bool)

  datatype Probe = Probe(pending: bool, sent: bool, start: u32)

  const NO_PROBE := Probe(false, false, 0)

  datatype Saved = Saved(valid: bool, x: real, y: real, z: real, e: real, r0: real, nozzle: real)

  datatype Polling = Polling(startup: bool, firmware: bool, ticks: u32, attempts: u32, temperature: u32)

  const NO_POLLING := Polling(false, false, 0, 0, 0)

  datatype Origin = FromJob | FromAbort | FromPause | FromResume | FromQueue | FromMacro | FromProbe

  datatype Submission = Submission(origin: Origin, command: string)

  /** History: every command submitted; where the last job, abort, pause, resume and macro begin; and of
      the last job what its file holds, how much of that was submitted and whether reading it failed. */
  datatype Book = Book(trace: seq<Submission>, jobMark: nat, abortMark: nat, pauseMark: nat, resumeMark: nat,
                       macroMark: nat, macroRunning: bool, disturbed: bool, hasPrime: bool, items: seq<Item>,
                       taken: nat, truncated: bool)

  datatype Service = Service(env: Env, ready: bool, status: Status, wait: HeaterWait, queue: Queue, job: Job,
                             file: Option<File>, abortRequested: bool, abort: Cleanup, finish: Cleanup,
                             pause: Cleanup, resume: Cleanup, probe: Probe, saved: Saved, polling: Polling,
                             flow: State, book: Book)

  function Start(env: Env): Service {
    Service(env, false, FRESH_STATUS, NO_WAIT, NO_QUEUE, NO_JOB, None, false, NO_CLEANUP, NO_CLEANUP, NO_CLEANUP,
            NO_CLEANUP, NO_PROBE, Saved(false, 0.0, 0.0, 0.0, 0.0, 0.0, 0.0), NO_POLLING, Fresh(),
            Book([], 0, 0, 0, 0, 0, false, false, false, [], 0, false))
  }

  // ---- Submitting commands ----

  /** One submission; broken: the device does not take the whole packet. */
  function SendOne(st: State, command: string, broken: bool): (State, SendResult) {
    var r := SendOutcome(st, command);
    if r.1 == Sent && broken then (r.0, SerialError) else r
  }

  function SendFault(r: SendResult): Fault {
    if r == SerialError then SerialFault else CommandFault
  }

  /** Whether the next command of a list may go: no barrier is awaited and the window has room. */
  predicate Open(st: State) {
    !HasPendingBarrier(st) && CanSend(st) && Inflight(st) < STREAM_WINDOW
  }

  predicate Gate(st: State, strict: bool) {
    if strict then Open(st) else CanSend(st)
  }

  datatype End = Ended | Stopped | Failing(error: Fault)

  datatype Sending = Sending(flow: State, index: nat, end: End)

  /** Submits from commands[i] on until the gate closes, a command fails or the list ends; the device
      breaks down at index broken. */
  function SendList(st: State, commands: seq<string>, i: nat, strict: bool, broken: nat): Sending
    decreases |commands| - i
  {
    if i >= |commands| then Sending(st, i, Ended)
    else if !Gate(st, strict) then Sending(st, i, Stopped)
    else
      var r := SendOne(st, commands[i], broken == i);
      if r.1 == Sent then SendList(r.0, commands, i + 1, strict, broken)
      else if r.1 == FlowFull then Sending(r.0, i, Stopped)
      else Sending(r.0, i, Failing(SendFault(r.1)))
  }

  function Tagged(origin: Origin, commands: seq<string>): seq<Submission> {
    seq(|commands|, i requires 0 <= i < |commands| => Submission(origin, commands[i]))
  }

  function Recorded(b: Book, origin: Origin, commands: seq<string>): Book {
    b.(trace := b.trace + Tagged(origin, commands))
  }

  /** The service after a list from index i on has been sent as far as it went. */
  function AfterList(s: Service, origin: Origin, commands: seq<string>, i: nat, r: Sending): Service {
    if i <= r.index <= |commands| then s.(flow := r.flow, book := Recorded(s.book, origin, commands[i..r.index]))
    else s.(flow := r.flow)
  }

  // ---- Abort and finish ----

  predicate Abortable(s: Service) {
    || s.job.active || s.queue.active || s.status.bedSet > 0.0 || s.status.headSet > 0.0
    || s.status.phase == Preparing || s.status.phase == Printing || s.status.phase == Paused
    || s.status.phase == Aborting
  }

  function Idled(c: Cleanup): Cleanup {
    c.(pending := false, index := 0)
  }

  /** Everything under way is dropped. */
  function AllDropped(s: Service): Service {
    s.(job := NO_JOB, file := if s.job.active then None else s.file, probe := NO_PROBE, queue := NO_QUEUE,
       finish := Idled(s.finish), pause := Idled(s.pause), resume := Idled(s.resume),
       saved := s.saved.(valid := false, nozzle := 0.0))
  }

  /** Everything under way is dropped, and the cleanup begins. */
  function AbortBegun(s: Service): Service {
    AllDropped(s).(abortRequested := false, abort := Cleanup(true, ABORT_COMMANDS, 0), wait := Off(s.wait),
                   status := s.status.(bedSet := 0.0, headSet := 0.0, phase := Aborting),
                   book := s.book.(abortMark := |s.book.trace|, disturbed := s.book.macroRunning))
  }

  function Aborted(s: Service): Service {
    if !Abortable(s) then s.(abortRequested := false)
    else if s.ready then AbortBegun(s)
    else
      var t := AbortBegun(s);
      t.(flow := Clear(s.flow), abort := t.abort.(pending := false), status := Cancelled(t.status))
  }

  function AbortFailed(s: Service, error: Fault): Service {
    s.(abortRequested := false, abort := Idled(s.abort), wait := Off(s.wait), status := FaultedWith(s.status, error))
  }

  function AbortDone(s: Service): Service {
    s.(abortRequested := false, abort := Idled(s.abort), wait := Off(s.wait), flow := Clear(s.flow),
       status := Cancelled(s.status), job := s.job.(nozzle := 0.0))
  }

  function AbortPolled(s: Service, broken: nat): Service {
    if !s.abort.pending then s else
    var r := SendList(s.flow, s.abort.policy, s.abort.index, true, broken);
    var t := AfterList(s, FromAbort, s.abort.policy, s.abort.index, r).(abort := s.abort.(index := r.index));
    match r.end
    case Failing(e) => AbortFailed(t, e)
    case Stopped => t
    case Ended => if Inflight(t.flow) != 0 then t else AbortDone(t)
  }

  function FinishFailed(s: Service, error: Fault): Service {
    s.(finish := Idled(s.finish), wait := Off(s.wait), status := FaultedWith(s.status, error))
  }

  function FinishDone(s: Service): Service {
    s.(abortRequested := false, finish := Idled(s.finish), wait := Off(s.wait), flow := Clear(s.flow),
       status := Completed(s.status), job := s.job.(active := false, nozzle := 0.0))
  }

  function FinishPolled(s: Service, broken: nat): Service {
    if !s.finish.pending then s else
    var r := SendList(s.flow, s.finish.policy, s.finish.index, true, broken);
    var t := AfterList(s, FromJob, s.finish.policy, s.finish.index, r).(finish := s.finish.(index := r.index));
    match r.end
    case Failing(e) => FinishFailed(t, e)
    case Stopped => t
    case Ended => if Inflight(t.flow) != 0 then t else FinishDone(t)
  }

  // ---- Pause and resume ----

  function PauseSaved(s: Service): Service {
    var nozzle := if s.status.headSet > 0.0 then s.status.headSet else s.job.nozzle;
    s.(saved := Saved(s.status.reports > 0, s.status.x, s.status.y, s.status.z, s.status.e, s.status.r0, nozzle),
       job := s.job.(nozzle := if nozzle > 0.0 then nozzle else s.job.nozzle))
  }

  function PauseBegun(s: Service): Service {
    var t := PauseSaved(s);
    if !t.saved.valid then t else
    t.(pause := Cleanup(true, PauseCommands(s.env.libc, t.saved.x, t.saved.y, t.saved.z), 0),
       book := s.book.(pauseMark := |s.book.trace|))
  }

  /** The poll of the position probe, and whether the pause may go on at once. */
  function PositionPolled(s: Service, broken: bool): (Service, bool) {
    if !s.probe.sent then
      var r := SendList(s.flow, ["M114"], 0, true, if broken then 0 else 1);
      var t := AfterList(s, FromPause, ["M114"], 0, r);
      match r.end
      case Failing(e) => (t.(probe := s.probe.(pending := false), status := FaultedWith(s.status, e)), false)
      case Stopped => (t, false)
      case Ended => (t.(probe := s.probe.(sent := true)), false)
    else if Inflight(s.flow) != 0 || s.status.reports <= s.probe.start then (s, false)
    else
      var t := PauseBegun(s.(probe := NO_PROBE));
      (t, !t.pause.pending)
  }

  /** What is left of a list, and whether it is over: every command submitted and none in flight. */
  function ListPolled(s: Service, c: Cleanup, origin: Origin, broken: nat): (Service, Cleanup, bool) {
    var r := SendList(s.flow, c.policy, c.index, true, broken);
    var t := AfterList(s, origin, c.policy, c.index, r);
    match r.end
    case Failing(e) => (t.(status := FaultedWith(s.status, e)), Idled(c), false)
    case Stopped => (t, c.(index := r.index), false)
    case Ended => if Inflight(t.flow) != 0 then (t, c.(index := r.index), false) else (t, Idled(c), true)
  }

  function PausedStatus(s: Status): Status {
    if s.phase == Preparing || s.phase == Printing || s.phase == Pausing || s.phase == Paused then s.(phase := Paused)
    else s
  }

  function PausePolled(s: Service, broken: nat): Service {
    var r := ListPolled(s, s.pause, FromPause, broken);
    var t := r.0.(pause := r.1);
    if r.2 then t.(status := PausedStatus(t.status)) else t
  }

  /** The first command of a heated resume, and whether the resume may go on at once. */
  function HeatSent(s: Service, broken: bool): (Service, bool) {
    if s.resume.policy == [] then (s, false) else
    var first := s.resume.policy[..1];
    var r := SendList(s.flow, first, 0, true, if broken then 0 else 1);
    var t := AfterList(s, FromResume, first, 0, r);
    match r.end
    case Failing(e) => (t.(resume := s.resume.(pending := false, index := 0), status := FaultedWith(s.status, e)), false)
    case Stopped => (t, false)
    case Ended =>
      var w := WaitHead(s.saved.nozzle);
      (t.(resume := s.resume.(index := 1), wait := w, status := Waiting(w, s.status)), true)
  }

  function ResumeListPolled(s: Service, broken: nat): Service {
    if !s.resume.pending then s else
    var r := ListPolled(s, s.resume, FromResume, broken);
    var t := r.0.(resume := r.1);
    if r.2 then t.(saved := s.saved.(valid := false), status := t.status.(phase := Printing)) else t
  }

  function ResumePolled(s: Service, one: bool, list: nat): Service {
    var heating := s.resume.pending && !s.wait.active && s.resume.index == 0 && s.saved.nozzle > 0.0;
    var h := if heating then HeatSent(s, one) else (s, true);
    if !h.1 then h.0 else
    var t := h.0;
    if t.resume.pending && t.wait.active && !Heated(t.wait, t.status) then
      t.(status := Waiting(t.wait, t.status))
    else if t.resume.pending && t.wait.active then ResumeListPolled(t.(wait := Off(t.wait)), list)
    else ResumeListPolled(t, list)
  }

  function PauseResumePolled(s: Service, one: bool, list: nat): Service {
    var p := if s.probe.pending then PositionPolled(s, one) else (s, true);
    if !p.1 then p.0
    else if p.0.pause.pending then PausePolled(p.0, list)
    else ResumePolled(p.0, one, list)
  }

  // ---- G-code given by hand ----

  function HeaterSet(env: Env, s: Status, line: string): Status {
    var h := env.heater(line);
    if h == None then s else
    var target := if h.value.target < 0.0 then 0.0 else h.value.target;
    if h.value.bed then s.(bedSet := target) else s.(headSet := target)
  }

  function HeatersSet(env: Env, s: Status, items: seq<Item>): Status {
    if items == [] then s
    else HeaterSet(env, HeatersSet(env, s, items[..|items| - 1]), items[|items| - 1].command)
  }

  function Refreshed(s: Service): Service {
    if s.job.active || s.abort.pending || s.finish.pending || s.queue.active || s.wait.active
       || s.status.phase == Broken || s.status.phase == Finished then s
    else s.(status := s.status.(phase :=
              if s.status.bedSet > 0.0 || s.status.headSet > 0.0 then Preparing else Idle))
  }

  /** Arms the wait that belongs to an item. */
  function Armed(s: Service, item: Item): Service {
    var w := if item.waitBed then WaitBed(item.target) else if item.waitNozzle then WaitHead(item.target) else s.wait;
    if item.waitBed || item.waitNozzle then s.(wait := w, status := Waiting(w, s.status)) else s
  }

  /** Submits queued commands; a command that heats ends the round. The second result: nothing failed. */
  function QueueSent(s: Service, broken: nat): (Service, bool)
    decreases |s.queue.items| - s.queue.index
  {
    if s.queue.index >= |s.queue.items| then (Refreshed(s.(queue := NO_QUEUE)), true)
    else if !Open(s.flow) then (s, true)
    else
      var item := s.queue.items[s.queue.index];
      var r := SendOne(s.flow, item.command, broken == s.queue.index);
      var t := s.(flow := r.0);
      if r.1 == FlowFull then (t, true)
      else if r.1 != Sent then
        (t.(queue := NO_QUEUE, wait := Off(s.wait), status := s.status.(error := SendFault(r.1))), false)
      else
        var u := QueueItemSent(t, item);
        if item.waitBed || item.waitNozzle then (u, true) else QueueSent(u, broken)
  }

  function QueueItemSent(s: Service, item: Item): Service {
    Armed(s.(book := Recorded(s.book, FromQueue, [item.command]),
             status := HeaterSet(s.env, s.status, item.command),
             queue := s.queue.(index := s.queue.index + 1)), item)
  }

  function QueuePolled(s: Service, broken: nat): (Service, bool) {
    if !s.queue.active then (s, true)
    else if s.wait.active && !Heated(s.wait, s.status) then (s.(status := Waiting(s.wait, s.status)), true)
    else if s.wait.active then QueueSent(s.(wait := Off(s.wait)), broken)
    else QueueSent(s, broken)
  }

  function RewrittenItems(libc: Libc, lines: seq<string>): seq<Item> {
    if lines == [] then []
    else RewrittenItems(libc, lines[..|lines| - 1]) + Items(Rewrite(libc, lines[|lines| - 1]))
  }

  function GcodeGiven(s: Service, lines: seq<string>, broken: nat): Service {
    if s.queue.active then s else
    var items := RewrittenItems(s.env.libc, lines);
    var noted := s.(book := s.book.(disturbed := true));
    if |items| > QUEUE_COMMANDS then noted.(queue := NO_QUEUE) else
    var t := Refreshed(noted.(queue := Queue(items, 0, false), status := HeatersSet(s.env, s.status, items)));
    if items == [] then Refreshed(t) else
    var r := QueuePolled(t.(queue := t.queue.(active := true)), broken);
    if r.1 then Refreshed(r.0) else r.0
  }

  // ---- The job ----

  function StartSequence(hasPrime: bool): seq<string> {
    (if hasPrime then [] else PRIME_COMMANDS) + STARTUP_COMMANDS
  }

  function Dropped(s: Service): Service {
    s.(file := None, flow := Clear(s.flow), job := s.job.(active := false), finish := s.finish.(pending := false),
       wait := Off(s.wait))
  }

  function HomingPolled(s: Service, broken: nat): Service {
    var r := SendList(s.flow, HOME_COMMANDS, s.job.prepareIndex, true, broken);
    var t := AfterList(s, FromJob, HOME_COMMANDS, s.job.prepareIndex, r).(job := s.job.(prepareIndex := r.index));
    match r.end
    case Failing(e) => t.(status := FaultedWith(s.status, e))
    case Stopped => t
    case Ended => t.(job := s.job.(prepareIndex := 0, stage := HomeDrain))
  }

  function StartupPolled(s: Service, broken: nat): Service {
    var list := StartSequence(s.file.Some? && s.file.value.hasPrime);
    var r := SendList(s.flow, list, s.job.startupIndex, true, broken);
    var t := AfterList(s, FromJob, list, s.job.startupIndex, r).(job := s.job.(startupIndex := r.index));
    match r.end
    case Failing(e) => t.(status := FaultedWith(s.status, e))
    case Stopped => t
    case Ended => t.(job := s.job.(startupIndex := 0, stage := StartupDrain))
  }

  function PreparePolled(s: Service, broken: nat): Service {
    match s.job.stage
    case Homing => HomingPolled(s, broken)
    case HomeDrain => if Inflight(s.flow) != 0 then s else s.(job := s.job.(stage := Heating))
    case Heating =>
      if Heated(s.wait, s.status) then s.(wait := Off(s.wait), job := s.job.(stage := Startup))
      else s.(status := Waiting(s.wait, s.status))
    case Startup => StartupPolled(s, broken)
    case StartupDrain => if Inflight(s.flow) != 0 then s else s.(job := s.job.(stage := Streaming))
    case Streaming => s
  }

  /** Submits the next command of the file. */
  function ItemSent(s: Service, broken: bool): Service
    requires s.file.Some? && s.file.value.rest != []
  {
    var item := s.file.value.rest[0];
    var t := s.(status := s.status.(phase := Printing),
                file := Some(s.file.value.(rest := s.file.value.rest[1..])));
    var r := SendOne(s.flow, item.command, broken);
    var u := t.(flow := r.0);
    if r.1 == FlowFull then u
    else if r.1 != Sent then Dropped(u).(status := FaultedWith(t.status, SendFault(r.1)))
    else
      var v := u.(book := Recorded(s.book, FromJob, [item.command]).(taken := s.book.taken + 1));
      Armed(if item.waitBed then v.(status := v.status.(bedSet := item.target))
            else if item.waitNozzle then
              v.(status := v.status.(headSet := item.target),
                 job := if item.target > 0.0 then v.job.(nozzle := item.target) else v.job)
            else v, item)
  }

  /** The next command of the file, or the beginning of the end. readFails: reading the file breaks off
      here, which looks like its end. */
  function FileAdvanced(s: Service, readFails: bool, broken: bool): Service {
    if s.file == None then Dropped(s).(status := FaultedWith(s.status, StorageFault))
    else if s.file.value.rest == [] || readFails then
      s.(file := None, finish := Cleanup(true, FINISH_COMMANDS, 0), wait := Off(s.wait),
         status := s.status.(phase := Printing), book := s.book.(truncated := readFails && s.file.value.rest != []))
    else ItemSent(s, broken)
  }

  function StreamPolled(s: Service, readFails: bool, broken: bool): Service {
    if !Heated(s.wait, s.status) then s.(status := Waiting(s.wait, s.status)) else
    var t := s.(wait := Off(s.wait));
    if HasPendingBarrier(s.flow) || !CanSend(s.flow) || Inflight(s.flow) >= JOB_WINDOW then t
    else FileAdvanced(t, readFails, broken)
  }

  function StreamerPolled(s: Service, readFails: bool, broken: nat): Service {
    if !s.job.active then s.(abortRequested := false, wait := Off(s.wait))
    else if s.status.phase == Broken then
      Dropped(s).(abortRequested := false,
                  job := s.job.(active := false, stage := Streaming, prepareIndex := 0, startupIndex := 0))
    else if s.status.phase == Paused || s.status.phase == Pausing then s
    else if s.finish.pending then s.(status := s.status.(phase := Printing))
    else if s.job.stage != Streaming then PreparePolled(s, broken)
    else StreamPolled(s, readFails, broken == 0)
  }

  predicate Busy(s: Service) {
    s.probe.pending || s.pause.pending || s.resume.pending
  }

  function JobPolled(s: Service, readFails: bool, broken: nat): Service {
    if s.abortRequested then Aborted(s)
    else if Busy(s) then s
    else if s.queue.active then QueuePolled(s, broken).0
    else StreamerPolled(s, readFails, broken)
  }

  // ---- The controller's lines ----

  function ReplyOf(env: Env, line: string): Reply {
    if Parse(line) == None then env.text(line) else Parse(line).value
  }

  /** One line, and whether it ends the poll. allow: a lost sequence may be resynchronised. */
  function LineSeen(s: Service, line: string, allow: bool, resendFails: bool): (Service, bool) {
    var w := Watched(s.status, s.wait, s.env.reading(line));
    var r := Handle(s.flow, ReplyOf(s.env, line));
    var t := s.(status := w.0, wait := w.1, flow := r.0);
    var faulted := t.(status := w.0.(phase := Broken, error := SerialFault));
    match r.1
    case Resend(_) => if resendFails && Active(w.0) then (faulted, true) else (t, false)
    case ExpectedReported =>
      if Active(w.0) && !allow then (faulted.(flow := Resync(r.0)), true) else (t.(flow := Resync(r.0)), false)
    case Rejected => if Active(w.0) then (faulted, true) else (t, false)
    case Ignored => (t, false)
    case Handled => (t, false)
  }

  function LinesSeen(s: Service, lines: seq<string>, allow: bool, resendFails: seq<bool>): (Service, bool)
    decreases |lines|
  {
    if lines == [] then (s, false) else
    var r := LineSeen(s, lines[0], allow, |resendFails| > 0 && resendFails[0]);
    if r.1 then r else
    LinesSeen(r.0, lines[1..], allow, if resendFails == [] then [] else resendFails[1..])
  }

  predicate AllowResync(s: Service) {
    s.job.active || s.queue.active || s.abort.pending || s.finish.pending
  }

  function FaultChecked(s: Service): Service {
    if s.job.active && s.status.phase == Broken && s.status.fault
       && s.status.error in {ThermalFault, EndstopFault, MarlinFault, StorageFault} then Aborted(s)
    else s
  }

  // ---- Probes ----

  function FirmwareNoted(s: Service): Service {
    if s.status.firmware then s.(polling := s.polling.(firmware := false)) else s
  }

  /** Sends a status probe; the second result: it has not failed. */
  function ProbeSent(s: Service, commands: seq<string>, broken: nat): (Service, bool) {
    var r := SendList(s.flow, commands, 0, false, broken);
    (AfterList(s, FromProbe, commands, 0, r), !r.end.Failing?)
  }

  const STARTUP_PROBE := ["M115", "M105", "M114"]
  const STATUS_PROBE := ["M105", "M114"]

  function StartupProbed(s: Service, broken: nat): (Service, bool) {
    if !(s.ready && s.polling.startup && Inflight(s.flow) == 0) then (s, true) else
    var r := ProbeSent(s, STARTUP_PROBE, broken);
    (if r.1 then
       r.0.(polling := s.polling.(startup := false, temperature := 0, ticks := 0,
                                  attempts := (s.polling.attempts + 1) % U32))
     else r.0, r.1)
  }

  function FirmwareProbed(s: Service, broken: bool): (Service, bool) {
    if !(s.ready && s.polling.firmware && !s.polling.startup && !s.job.active && !s.abort.pending
         && !s.finish.pending && Inflight(s.flow) == 0) then (s, true)
    else if s.status.firmware || s.polling.attempts >= FIRMWARE_ATTEMPTS then
      (s.(polling := s.polling.(firmware := false)), true)
    else
      var ticks := (s.polling.ticks + 1) % U32;
      var t := s.(polling := s.polling.(ticks := ticks));
      if ticks < FIRMWARE_TICKS then (t, true) else
      var r := SendOne(s.flow, "M115", broken);
      var u := t.(flow := r.0);
      if r.1 == Sent then
        (u.(book := Recorded(s.book, FromProbe, ["M115"]),
            polling := s.polling.(ticks := 0, attempts := (s.polling.attempts + 1) % U32)), true)
      else (u, false)
  }

  function TemperatureProbed(s: Service, broken: nat): (Service, bool) {
    if !(s.ready && !s.polling.startup && Inflight(s.flow) == 0) then (s, true) else
    var ticks := (s.polling.temperature + 1) % U32;
    if ticks < TEMPERATURE_TICKS then (s.(polling := s.polling.(temperature := ticks)), true) else
    var r := ProbeSent(s, STATUS_PROBE, broken);
    (r.0.(polling := s.polling.(temperature := 0)), r.1)
  }

  /** Where the device breaks down during one poll. */
  datatype Luck = Luck(resendFails: seq<bool>, one: bool, list: nat, abort: nat, finish: nat, startup: nat,
                       firmware: bool, temperature: nat)

  /** All probes that are due. */
  function Probed(s: Service, luck: Luck): (Service, bool) {
    var c := StartupProbed(s, luck.startup);
    var d := FirmwareProbed(c.0, luck.firmware);
    var e := TemperatureProbed(d.0, luck.temperature);
    (e.0, c.1 && d.1 && e.1)
  }

  /** Everything a poll of the motion side does after reading the controller's lines. */
  function Tended(s: Service, luck: Luck): (Service, bool) {
    var a := PauseResumePolled(FaultChecked(s), luck.one, luck.list);
    Probed(FirmwareNoted(Refreshed(FinishPolled(AbortPolled(a, luck.abort), luck.finish))), luck)
  }

  /** lineBroken: the device fails after the last line. The second result: the poll reports success. */
  function MotionPolled(s: Service, lines: seq<string>, lineBroken: bool, luck: Luck): (Service, bool) {
    var r := if s.ready then LinesSeen(s, lines, AllowResync(s), luck.resendFails) else (s, false);
    var t := Tended(r.0, luck);
    (t.0, !(r.1 || (s.ready && lineBroken)) && (t.1 || (s.ready && lines != [])))
  }

  // ---- Commands ----

  datatype JobRequest = JobRequest(file: Option<File>, insideVolume: bool, bed: real, head: real)

  function JobBegun(s: Service, j: JobRequest): Service
    requires j.file.Some?
  {
    var status := Started(s.status, j.bed, j.head);
    s.(flow := Clear(s.flow), abortRequested := false, pause := s.pause.(index := 0), probe := NO_PROBE,
       resume := s.resume.(index := 0), saved := s.saved.(valid := false, nozzle := 0.0),
       finish := s.finish.(index := 0), file := j.file,
       job := Job(true, Homing, 0, 0, if j.head > 0.0 then j.head else 0.0),
       status := status, wait := WaitBoth(status.bedSet, status.headSet),
       book := s.book.(jobMark := |s.book.trace|, hasPrime := j.file.value.hasPrime, items := j.file.value.rest,
                       taken := 0, truncated := false))
  }

  function JobAccepted(s: Service, j: JobRequest): Service {
    if s.job.active || s.finish.pending || s.abort.pending || s.queue.active || Busy(s) then s
    else if j.file == None then s.(status := s.status.(error := StorageFault))
    else if !j.insideVolume then s.(file := None)
    else JobBegun(s, j)
  }

  /** A pause of a job starts by asking for the position. */
  function PauseProbed(s: Service, phase: Phase): Service {
    var nozzle := if s.status.headSet > 0.0 then s.status.headSet else s.job.nozzle;
    s.(saved := s.saved.(valid := false), job := s.job.(nozzle := nozzle),
       probe := Probe(true, false, s.status.reports), status := s.status.(phase := phase))
  }

  function PauseAsked(s: Service): Service {
    if Busy(s) then s
    else if s.job.active && (s.status.phase == Preparing || s.status.phase == Printing) then PauseProbed(s, Pausing)
    else if s.status.phase != Preparing && s.status.phase != Printing && s.status.phase != Pausing
            && s.status.phase != Paused then s
    else if s.job.active then PauseProbed(s, Paused)
    else
      var nozzle := if s.status.headSet > 0.0 then s.status.headSet else s.job.nozzle;
      PauseSaved(s.(job := s.job.(nozzle := nozzle), status := s.status.(phase := Paused)))
  }

  function ResumeAsked(s: Service): Service {
    if Busy(s) || s.status.phase != Paused then s
    else if !s.saved.valid then
      s.(status := s.status.(phase := if s.wait.active then Preparing else Printing))
    else
      s.(resume := Cleanup(true, ResumeCommands(s.env.libc, s.saved.x, s.saved.y, s.saved.z, s.saved.e, s.saved.r0,
                                                s.saved.nozzle), 0),
         book := s.book.(resumeMark := |s.book.trace|),
         status := s.status.(headSet := s.saved.nozzle, phase := if s.saved.nozzle > 0.0 then Preparing else Printing))
  }

  function Opened(s: Service, ok: bool): Service {
    if ok then s.(ready := true, polling := Polling(true, true, 0, 0, 0)) else s.(ready := false)
  }

  function Closed(s: Service): Service {
    AllDropped(s).(file := None, abortRequested := false, abort := Idled(s.abort),
                   polling := s.polling.(startup := false, firmware := false, ticks := 0, attempts := 0),
                   wait := Off(s.wait), ready := false)
  }

  // ---- Macros, step by step ----

  function MacroBegun(s: Service): Service {
    s.(book := s.book.(macroRunning := true, disturbed := true, macroMark := |s.book.trace|))
  }

  /** The macro's wait for room has ended. */
  predicate Roomy(st: State) {
    CanSend(st) && Inflight(st) < STREAM_WINDOW
  }

  function MacroSent(s: Service, command: string, broken: bool): Service {
    if !s.book.macroRunning || !Roomy(s.flow) then s else
    var r := SendOne(s.flow, command, broken);
    s.(flow := r.0, book := if r.1 == Sent then Recorded(s.book, FromMacro, [command]) else s.book)
  }

  function MacroArmed(s: Service, item: Item): Service {
    if !s.book.macroRunning then s
    else if item.waitBed then s.(status := s.status.(bedSet := item.target), wait := WaitBed(item.target))
    else if item.waitNozzle then s.(status := s.status.(headSet := item.target), wait := WaitHead(item.target))
    else s
  }

  function MacroWaiting(s: Service): Service {
    if !s.book.macroRunning then s else s.(status := Waiting(s.wait, s.status))
  }

  function MacroHeated(s: Service): Service {
    if !s.book.macroRunning then s else s.(wait := Off(s.wait))
  }

  function MacroEnded(s: Service, error: Option<Fault>): Service {
    if !s.book.macroRunning then s else
    s.(book := s.book.(macroRunning := false),
       status := if error == None then s.status else s.status.(error := error.value))
  }
}
