/** Whole runs of the print service: any order of polls, commands and controller lines. */
module ServiceRun {
  import opened FlowState
  import opened GcodeStream
  import opened MarlinPacket
  import opened MotionPolicy
  import opened MotionSender
  import opened PrintStatus
  import opened ServiceSafety
  import opened ServiceState

  datatype Event =
    | Motion(lines: seq<string>, lineBroken: bool, luck: Luck)
    | Poll(readFails: bool, broken: nat)
    | NewJob(request: JobRequest)
    | Abort
    | Pause
    | Resume
    | Gcode(gcode: seq<string>, broken: nat)
    | OpenMotion(ok: bool)
    | Close
    | LatchAbort
    | MacroBegin
    | MacroSend(command: string, writeFails: bool)
    | MacroArm(item: Item)
    | MacroWait
    | MacroCool
    | MacroEnd(error: Option<Fault>)

  function Step(s: Service, e: Event): Service {
    match e
    case Motion(lines, lineBroken, luck) => MotionPolled(s, lines, lineBroken, luck).0
    case Poll(readFails, broken) => JobPolled(s, readFails, broken)
    case NewJob(request) => JobAccepted(s, request)
    case Abort => Aborted(s)
    case Pause => PauseAsked(s)
    case Resume => ResumeAsked(s)
    case Gcode(lines, broken) => GcodeGiven(s, lines, broken)
    case OpenMotion(ok) => Opened(s, ok)
    case Close => Closed(s)
    case LatchAbort => s.(abortRequested := true)
    case MacroBegin => MacroBegun(s)
    case MacroSend(command, writeFails) => MacroSent(s, command, writeFails)
    case MacroArm(item) => MacroArmed(s, item)
    case MacroWait => MacroWaiting(s)
    case MacroCool => MacroHeated(s)
    case MacroEnd(error) => MacroEnded(s, error)
  }

  function Run(s: Service, events: seq<Event>): Service {
    if events == [] then s else Step(Run(s, events[..|events| - 1]), events[|events| - 1])
  }

  // ---- Every step keeps the invariant ----

  lemma JobAcceptedKeeps(s: Service, j: JobRequest)
    requires Inv(s)
    ensures Inv(JobAccepted(s, j)) && JobAccepted(s, j).book.trace == s.book.trace
    ensures JobAccepted(s, j).book.truncated ==> s.book.truncated
  {
    hide Inflight, Tagged, Opening;
    var t := JobAccepted(s, j);
    ClearEmpties(s.flow);
    if t.book != s.book {
      assert t.book.items[0..] == t.book.items;
      assert HOME_COMMANDS[..0] == [];
      assert JobLog(t) == [];
    }
  }

  lemma PauseAskedKeeps(s: Service)
    requires Inv(s)
    ensures Inv(PauseAsked(s)) && PauseAsked(s).book == s.book
  {
    hide Inflight, OnTrack, Tagged;
    Same(s, PauseAsked(s));
  }

  lemma ResumeAskedKeeps(s: Service)
    requires Inv(s)
    ensures Inv(ResumeAsked(s)) && ResumeAsked(s).book.trace == s.book.trace
    ensures ResumeAsked(s).book.truncated == s.book.truncated
  {
    hide Inflight, OnTrack, Tagged, ResumeCommands;
    Same(s, ResumeAsked(s));
  }

  lemma ClosedKeeps(s: Service)
    requires Inv(s)
    ensures Inv(Closed(s)) && Closed(s).book == s.book
  {
    hide Inflight, Tagged;
    assert !s.job.active ==> s.file == None && s.job.(nozzle := 0.0) == NO_JOB;
    assert s.job.active ==> s.status.phase != Finished;
    hide OnTrack;
    if s.job.active {
      JobMayEnd(s, Closed(s));
    } else {
      Same(s, Closed(s));
    }
  }

  lemma MacroSentKeeps(s: Service, command: string, broken: bool)
    requires Inv(s)
    ensures Inv(MacroSent(s, command, broken)) && s.book.trace <= MacroSent(s, command, broken).book.trace
    ensures MacroSent(s, command, broken).book.truncated == s.book.truncated
  {
    hide CanSend, SendOne, Inflight, Tagged;
    assert ListKept(s.pause, s.pause, false, []) && ListKept(s.resume, s.resume, false, []);
    hide OnTrack;
    var t := MacroSent(s, command, broken);
    if t != s {
      SendOneFacts(s.flow, command, broken);
      if t.book != s.book {
        Untouched(s, t, FromMacro, [command]);
      } else {
        FlowMayChange(s, t.flow);
      }
    }
  }

  lemma MarksMayChange(s: Service, t: Service)
    requires Inv(s)
    requires t == s.(abortRequested := t.abortRequested, ready := t.ready, polling := t.polling,
                     status := s.status.(error := t.status.error),
                     book := s.book.(macroMark := t.book.macroMark, macroRunning := t.book.macroRunning,
                                     disturbed := t.book.disturbed))
    requires t.book.disturbed || (!s.book.disturbed && (t.book.macroRunning ==> s.book.macroRunning))
    ensures Inv(t)
  {
    hide OfOrigin, Tagged, Inflight, Opening, Commands;
  }

  lemma MacroWaitKeeps(s: Service, item: Item)
    requires Inv(s)
    ensures Inv(MacroArmed(s, item)) && Inv(MacroWaiting(s)) && Inv(MacroHeated(s))
  {
    hide OnTrack;
    assert s.book.macroRunning ==> !(s.abort.pending && !s.book.disturbed);
    hide Inv;
    if s.book.macroRunning {
      StatusMayChange(s, MacroArmed(s, item).status, MacroArmed(s, item).wait);
      StatusMayChange(s, MacroWaiting(s).status, s.wait);
      StatusMayChange(s, s.status, Off(s.wait));
    }
  }

  lemma MarksKeep(s: Service, ok: bool, error: Option<Fault>)
    requires Inv(s)
    ensures Inv(Opened(s, ok)) && Inv(s.(abortRequested := true)) && Inv(MacroBegun(s)) && Inv(MacroEnded(s, error))
  {
    hide Inv;
    MarksMayChange(s, Opened(s, ok));
    MarksMayChange(s, s.(abortRequested := true));
    MarksMayChange(s, MacroBegun(s));
    MarksMayChange(s, MacroEnded(s, error));
  }

  /** No read of the job file fails. */
  predicate ReadsWell(e: Event) {
    e.Poll? ==> !e.readFails
  }

  lemma StepKeeps(s: Service, e: Event)
    requires Inv(s)
    ensures Inv(Step(s, e)) && s.book.trace <= Step(s, e).book.trace
    ensures ReadsWell(e) && Step(s, e).book.truncated ==> s.book.truncated
  {
    hide Inv, MotionPolled, JobPolled, JobAccepted, Aborted, PauseAsked, ResumeAsked, GcodeGiven, Closed, MacroSent,
         Waiting, WaitBed, WaitHead, Off;
    match e
    case Motion(lines, lineBroken, luck) => MotionPolledKeeps(s, lines, lineBroken, luck);
    case Poll(readFails, broken) => JobPolledKeeps(s, readFails, broken);
    case NewJob(request) => JobAcceptedKeeps(s, request);
    case Abort => AbortedKeeps(s);
    case Pause => PauseAskedKeeps(s);
    case Resume => ResumeAskedKeeps(s);
    case Gcode(lines, broken) => GcodeGivenKeeps(s, lines, broken);
    case Close => ClosedKeeps(s);
    case MacroSend(command, writeFails) => MacroSentKeeps(s, command, writeFails);
    case MacroArm(item) => MacroWaitKeeps(s, item);
    case MacroWait => MacroWaitKeeps(s, Item("", false, false, 0.0));
    case MacroCool => MacroWaitKeeps(s, Item("", false, false, 0.0));
    case OpenMotion(ok) => MarksKeep(s, ok, None);
    case LatchAbort => MarksKeep(s, true, None);
    case MacroBegin => MarksKeep(s, true, None);
    case MacroEnd(error) => MarksKeep(s, true, error);
  }

  lemma {:induction false} RunKeeps(s: Service, events: seq<Event>)
    requires Inv(s)
    ensures Inv(Run(s, events)) && s.book.trace <= Run(s, events).book.trace
  {
    hide Inv, Step;
    if events != [] {
      RunKeeps(s, events[..|events| - 1]);
      StepKeeps(Run(s, events[..|events| - 1]), events[|events| - 1]);
    }
  }

  // ---- Every reachable state ----

  ghost predicate Reachable(s: Service) {
    exists env: Env, events: seq<Event> :: s == Run(Start(env), events)
  }

  lemma ReachableInv(s: Service)
    requires Reachable(s)
    ensures Inv(s)
  {
    hide Run, Inv;
    var env: Env, events: seq<Event> :| s == Run(Start(env), events);
    StartInv(env);
    RunKeeps(Start(env), events);
  }

  /** What the job path submits for one job is always a beginning of: home, prime unless the file primes,
      start up, the file's commands, finish; each once. Finishing starts only when the file is through,
      or reading it has failed. */
  lemma JobFollowsItsScript(s: Service)
    requires Reachable(s)
    ensures var b := s.book;
      && b.taken <= |b.items|
      && JobLog(s) <= HOME_COMMANDS + StartSequence(b.hasPrime) + Commands(b.items[..b.taken]) + FINISH_COMMANDS
      && (|JobLog(s)| > |HOME_COMMANDS + StartSequence(b.hasPrime) + Commands(b.items[..b.taken])| ==>
            b.taken == |b.items| || b.truncated)
  {
    hide Inflight, Log;
    ReachableInv(s);
    PlaceIsOnScript(s);
  }

  /** A print shown as finished went through its script, with as much of the file as was read; it was cut short
      exactly when some of the file is missing. */
  lemma FinishedMeansWhole(s: Service)
    requires Reachable(s) && s.status.phase == Finished
    ensures var b := s.book;
      && !s.job.active && b.taken <= |b.items| && (b.truncated <==> b.taken < |b.items|)
      && JobLog(s) == HOME_COMMANDS + StartSequence(b.hasPrime) + Commands(b.items[..b.taken]) + FINISH_COMMANDS
  {
    hide Inflight, Log;
    ReachableInv(s);
  }

  // ---- Reading the job file ----

  lemma {:induction false} NoFailureNoTruncation(env: Env, events: seq<Event>)
    requires forall i :: 0 <= i < |events| ==> ReadsWell(events[i])
    ensures !Run(Start(env), events).book.truncated
  {
    hide Step, Inv;
    if events != [] {
      var n := |events| - 1;
      NoFailureNoTruncation(env, events[..n]);
      ReachedInv(env, events[..n]);
      StepKeeps(Run(Start(env), events[..n]), events[n]);
    }
  }

  lemma RunIsReachable(env: Env, events: seq<Event>)
    ensures Reachable(Run(Start(env), events))
  {
  }

  lemma ReachedInv(env: Env, events: seq<Event>)
    ensures Inv(Run(Start(env), events))
  {
    hide Run, Inv;
    StartInv(env);
    RunKeeps(Start(env), events);
  }

  /** In a run in which no read fails, a print shown as finished has submitted every command of its file, between
      what comes before and after it. */
  lemma FinishedSubmitsWholeFile(env: Env, events: seq<Event>)
    requires forall i :: 0 <= i < |events| ==> ReadsWell(events[i])
    requires Run(Start(env), events).status.phase == Finished
    ensures var s := Run(Start(env), events);
      && !s.job.active
      && JobLog(s) == HOME_COMMANDS + StartSequence(s.book.hasPrime) + Commands(s.book.items) + FINISH_COMMANDS
  {
    hide Run, Log, Inv, Reachable;
    NoFailureNoTruncation(env, events);
    var s := Run(Start(env), events);
    RunIsReachable(env, events);
    FinishedMeansWhole(s);
    assert s.book.items[..|s.book.items|] == s.book.items;
  }

  /** The script of the last job, if its file is submitted whole. */
  function WholeBody(b: Book): seq<string> {
    Opening(b.hasPrime) + Commands(b.items)
  }

  /** In such a run the job submits a beginning of the whole script, and finishing begins only when every command
      of the file has been submitted. */
  lemma FinishingFollowsWholeFile(env: Env, events: seq<Event>)
    requires forall i :: 0 <= i < |events| ==> ReadsWell(events[i])
    ensures var s := Run(Start(env), events);
      JobLog(s) <= WholeBody(s.book) + FINISH_COMMANDS && (s.finish.pending ==> WholeBody(s.book) <= JobLog(s))
  {
    hide Run, Inv, Reachable, JobLog, WholeBody;
    NoFailureNoTruncation(env, events);
    RunIsReachable(env, events);
    FinishingPlace(Run(Start(env), events));
  }

  lemma FinishingPlace(s: Service)
    requires Reachable(s) && !s.book.truncated
    ensures JobLog(s) <= WholeBody(s.book) + FINISH_COMMANDS
    ensures s.finish.pending ==> WholeBody(s.book) <= JobLog(s)
  {
    hide Inflight, Log, Opening, Commands, StartSequence;
    ReachableInv(s);
    PlaceIsOnScript(s);
    BodyOfWhole(s.book);
    var body := ServiceSafety.Body(s.book);
    assert JobLog(s) <= body + FINISH_COMMANDS;
    if s.book.taken < |s.book.items| {
      assert JobLog(s) <= body;
    }
  }

  lemma BodyOfWhole(b: Book)
    requires b.taken <= |b.items|
    ensures ServiceSafety.Body(b) <= WholeBody(b)
    ensures b.taken == |b.items| ==> ServiceSafety.Body(b) == WholeBody(b)
  {
    hide Opening;
    assert b.items[..|b.items|] == b.items;
  }

  /** Never more than four packets are in flight. */
  lemma WindowIsKept(s: Service)
    requires Reachable(s)
    ensures Inflight(s.flow) <= 4
  {
    hide Inflight, OnTrack;
    ReachableInv(s);
  }

  /** The modes exclude each other, and every index stays inside its list. */
  lemma ModesExclude(s: Service)
    requires Reachable(s)
    ensures (s.probe.pending ==> !s.pause.pending && !s.resume.pending) && (s.pause.pending ==> !s.resume.pending)
    ensures s.abort.pending ==> !s.job.active && !s.finish.pending && s.job.stage == Streaming
    ensures s.finish.pending || s.job.stage != Streaming ==> s.job.active
    ensures s.finish.pending ==> s.job.stage == Streaming && s.finish.index <= |s.finish.policy|
    ensures s.abort.index <= |s.abort.policy| && s.pause.index <= |s.pause.policy| && s.resume.index <= |s.resume.policy|
    ensures s.queue.index <= |s.queue.items| <= 64
    ensures s.job.prepareIndex <= |HOME_COMMANDS| && s.job.startupIndex <= |StartSequence(s.book.hasPrime)|
  {
    hide Inflight, Log;
    ReachableInv(s);
  }

  /** Of a pause or a resume under way exactly the commands before its index have been submitted, in order. */
  lemma PauseAndResumeInOrder(s: Service)
    requires Reachable(s)
    ensures s.pause.pending ==>
              s.pause.index <= |s.pause.policy|
              && Log(s.book, s.book.pauseMark, FromPause) == s.pause.policy[..s.pause.index]
    ensures s.resume.pending ==>
              s.resume.index <= |s.resume.policy|
              && Log(s.book, s.book.resumeMark, FromResume) == s.resume.policy[..s.resume.index]
  {
    hide Inflight, Log;
    ReachableInv(s);
  }

  /** A pause that ends without a fault has submitted its whole list and has nothing in flight. */
  lemma PauseEndsWhole(s: Service, broken: nat)
    requires Inv(s) && s.pause.pending
    requires !PausePolled(s, broken).pause.pending && PausePolled(s, broken).status.phase != Broken
    ensures Log(PausePolled(s, broken).book, s.book.pauseMark, FromPause) == s.pause.policy
    ensures Inflight(PausePolled(s, broken).flow) == 0
  {
    hide SendList, Inflight, Log, Tagged;
    SendListFacts(s.flow, s.pause.policy, s.pause.index, true, broken);
    var r := SendList(s.flow, s.pause.policy, s.pause.index, true, broken);
    var sent := s.pause.policy[s.pause.index..r.index];
    RecordedLog(s.book, FromPause, sent, s.book.pauseMark, FromPause);
    Extends([], s.pause.policy, s.pause.index, r.index);
    assert s.pause.policy[..|s.pause.policy|] == s.pause.policy;
  }

  lemma ResumeListEndsWhole(s: Service, broken: nat)
    requires Inv(s) && s.resume.pending
    requires !ResumeListPolled(s, broken).resume.pending && ResumeListPolled(s, broken).status.phase != Broken
    ensures var t := ResumeListPolled(s, broken);
      && Log(t.book, s.book.resumeMark, FromResume) == s.resume.policy && Inflight(t.flow) == 0
      && t.status.phase == Printing && !t.saved.valid
  {
    hide SendList, Inflight, Log, Tagged;
    SendListFacts(s.flow, s.resume.policy, s.resume.index, true, broken);
    var r := SendList(s.flow, s.resume.policy, s.resume.index, true, broken);
    var sent := s.resume.policy[s.resume.index..r.index];
    RecordedLog(s.book, FromResume, sent, s.book.resumeMark, FromResume);
    Extends([], s.resume.policy, s.resume.index, r.index);
    assert s.resume.policy[..|s.resume.policy|] == s.resume.policy;
  }

  /** A resume that ends without a fault, heated or not, has submitted its whole list, has nothing in flight and shows
      the job as printing. */
  lemma ResumeEndsWhole(s: Service, one: bool, list: nat)
    requires Inv(s) && s.resume.pending
    requires !ResumePolled(s, one, list).resume.pending && ResumePolled(s, one, list).status.phase != Broken
    ensures var t := ResumePolled(s, one, list);
      && Log(t.book, s.book.resumeMark, FromResume) == s.resume.policy && Inflight(t.flow) == 0
      && t.status.phase == Printing && !t.saved.valid
  {
    hide Inv, ResumeListPolled, HeatSent, Inflight, Log, Heated, Waiting;
    var heating := !s.wait.active && s.resume.index == 0 && s.saved.nozzle > 0.0;
    if heating {
      HeatSentKeeps(s, one);
      HeatSentList(s, one);
    }
    var t := if heating then HeatSent(s, one).0 else s;
    if t.resume.pending && (!t.wait.active || Heated(t.wait, t.status)) {
      ResumeIsNoAbort(t);
      StatusMayChange(t, t.status, Off(t.wait));
      ResumeListEndsWhole(if t.wait.active then t.(wait := Off(t.wait)) else t, list);
    }
  }

  lemma ResumeIsNoAbort(s: Service)
    requires Inv(s) && s.resume.pending
    ensures !(s.abort.pending && !s.book.disturbed)
  {
    hide OnTrack, Inflight;
  }

  lemma HeatSentList(s: Service, one: bool)
    ensures var (t, on) := HeatSent(s, one);
      && t.resume.policy == s.resume.policy && t.book.resumeMark == s.book.resumeMark
      && (!on ==> t.resume.pending == s.resume.pending || t.status.phase == Broken)
  {
    hide SendList, Waiting;
  }

  // ---- Aborting ----

  /** Commands of a reasonable length are never invalid. */
  predicate Sound(commands: seq<string>) {
    forall i :: 0 <= i < |commands| ==> 0 < |commands[i]| <= 255
  }

  lemma {:induction false} SoundListNeverFails(st: State, commands: seq<string>, i: nat, strict: bool, broken: nat)
    requires Sound(commands) && |commands| <= broken
    ensures !SendList(st, commands, i, strict, broken).end.Failing?
    decreases |commands| - i
  {
    hide CanSend, HasPendingBarrier, Inflight;
    if i < |commands| && Gate(st, strict) {
      var r := SendOne(st, commands[i], false);
      if r.1 == Sent {
        SoundListNeverFails(r.0, commands, i + 1, strict, broken);
      }
    }
  }

  lemma AbortCommandsAreSound()
    ensures Sound(ABORT_COMMANDS)
  {
  }

  /** An abort that ends without a fault has submitted its twelve commands in order, with nothing between
      them, and none of them is in flight; the printer then shows idle. */
  lemma AbortEndsWhole(s: Service, broken: nat)
    requires Inv(s) && s.abort.pending && !s.book.disturbed && !AbortPolled(s, broken).abort.pending
    ensures var t, r := AbortPolled(s, broken), SendList(s.flow, s.abort.policy, s.abort.index, true, broken);
      && (t.status.phase == Idle || t.status.phase == Broken)
      && (t.status.phase == Idle ==> t.book.trace[s.book.abortMark..] == Tagged(FromAbort, ABORT_COMMANDS)
                                     && r.end.Ended? && Inflight(r.flow) == 0)
      && (t.status.phase == Broken ==> r.end.Failing?)
  {
    hide SendList, Inflight, OnTrack, Tagged;
    SendListFacts(s.flow, s.abort.policy, s.abort.index, true, broken);
    var r := SendList(s.flow, s.abort.policy, s.abort.index, true, broken);
    TaggedGrows(s.book.trace, s.book.abortMark, FromAbort, s.abort.policy, s.abort.index, r.index);
    assert ABORT_COMMANDS[..|ABORT_COMMANDS|] == ABORT_COMMANDS;
  }

  /** Anything but G-code or macros by hand, another abort and closing; and the device takes the abort's commands. */
  predicate Calm(e: Event) {
    match e
    case Motion(_, _, luck) => |ABORT_COMMANDS| <= luck.abort
    case Poll(_, _) => true
    case NewJob(_) => true
    case Pause => true
    case Resume => true
    case OpenMotion(_) => true
    case _ => false
  }

  /** The abort that began at mark is under way. */
  predicate Underway(s: Service, mark: nat) {
    s.abort.pending && !s.book.disturbed && s.book.abortMark == mark && !s.abortRequested
  }

  /** All twelve commands follow mark, one after the other. */
  predicate Through(s: Service, mark: nat) {
    mark <= |s.book.trace| && Tagged(FromAbort, ABORT_COMMANDS) <= s.book.trace[mark..]
  }

  lemma ThroughLasts(s: Service, t: Service, mark: nat)
    requires Through(s, mark) && s.book.trace <= t.book.trace
    ensures Through(t, mark)
  {
    assert s.book.trace[mark..] <= t.book.trace[mark..];
  }

  /** Nothing that comes before the abort's own turn in a poll acts while an abort is under way. */
  lemma AbortComesFirst(s: Service, one: bool, list: nat)
    requires Inv(s) && s.abort.pending && !s.book.disturbed
    ensures PauseResumePolled(FaultChecked(s), one, list) == s
  {
    hide Inflight, OnTrack, ListPolled;
  }

  lemma AbortPolledGoesOn(s: Service, broken: nat, mark: nat)
    requires Inv(s) && Underway(s, mark) && |ABORT_COMMANDS| <= broken
    ensures Underway(AbortPolled(s, broken), mark) || Through(AbortPolled(s, broken), mark)
  {
    hide Inflight, SendList, OnTrack;
    assert s.abort.policy == ABORT_COMMANDS;
    hide Inv;
    if !AbortPolled(s, broken).abort.pending {
      AbortEndsWhole(s, broken);
      AbortCommandsAreSound();
      SoundListNeverFails(s.flow, s.abort.policy, s.abort.index, true, broken);
    }
  }

  /** The startup probe counts as done though nothing was sent exactly when the controller takes nothing. */
  lemma StartupProbeSkippedIff(s: Service, broken: nat)
    requires s.ready && s.polling.startup && Inflight(s.flow) == 0
    ensures var t := StartupProbed(s, broken).0;
      !t.polling.startup && t.book.trace == s.book.trace <==> !CanSend(s.flow)
  {
    hide CanSend, Inflight, SendOne, HasPendingBarrier;
    SendListFacts(s.flow, STARTUP_PROBE, 0, false, broken);
    SendOneFacts(s.flow, "M115", broken == 0);
    var r := SendList(s.flow, STARTUP_PROBE, 0, false, broken);
    if CanSend(s.flow) && !r.end.Failing? {
      SendListFacts(SendOne(s.flow, "M115", broken == 0).0, STARTUP_PROBE, 1, false, broken);
      assert r.index > 0;
    }
  }

  lemma RequestKept(q: Service, luck: Luck)
    ensures Probed(FirmwareNoted(Refreshed(q)), luck).0.abortRequested == q.abortRequested
  {
    hide SendList, SendOne, Inflight;
  }

  lemma TendedGoesOn(s: Service, luck: Luck, mark: nat)
    requires Inv(s) && Underway(s, mark) && |ABORT_COMMANDS| <= luck.abort
    ensures Underway(Tended(s, luck).0, mark) || Through(Tended(s, luck).0, mark)
  {
    hide Inv, FaultChecked, PauseResumePolled, AbortPolled, FinishPolled, Refreshed, Probed, CanSend, Inflight,
         AbortHolds, Through;
    AbortComesFirst(s, luck.one, luck.list);
    AbortPolledGoesOn(s, luck.abort, mark);
    AbortPolledKeeps(s, luck.abort);
    var p := AbortPolled(s, luck.abort);
    FinishPolledKeeps(p, luck.finish);
    FinishAfterAbort(p, luck.finish);
    var q := FinishPolled(p, luck.finish);
    RefreshedKeeps(q);
    PollingMayChange(Refreshed(q), FirmwareNoted(Refreshed(q)).polling);
    var b := FirmwareNoted(Refreshed(q));
    AbortStillHolds(p, q);
    ProbedKeeps(b, luck);
    var e := Probed(b, luck).0;
    assert p.book.trace <= q.book.trace <= b.book.trace <= e.book.trace;
    if Through(p, mark) {
      ThroughLasts(p, e, mark);
    } else {
      RequestKept(q, luck);
    }
  }

  lemma AbortStep(s: Service, e: Event, mark: nat)
    requires Inv(s) && Calm(e) && Underway(s, mark)
    ensures Underway(Step(s, e), mark) || Through(Step(s, e), mark)
  {
    match e
    case Motion(lines, _, luck) =>
      hide Inv, LinesSeen, Tended;
      LinesSeenKeeps(s, lines, AllowResync(s), luck.resendFails);
      TendedGoesOn(if s.ready then LinesSeen(s, lines, AllowResync(s), luck.resendFails).0 else s, luck, mark);
    case _ =>
      hide Inflight, OnTrack;
  }

  lemma UnderwayPlace(t: Service, mark: nat)
    requires Inv(t) && Underway(t, mark)
    ensures Halting(t.status) && t.abort.index <= |ABORT_COMMANDS|
    ensures mark <= |t.book.trace| && t.book.trace[mark..] == Tagged(FromAbort, ABORT_COMMANDS[..t.abort.index])
  {
    hide OnTrack, Tagged, Inflight;
  }

  /** An accepted abort with the motion side ready: whatever happens next, apart from commands by hand, its
      twelve commands are the next twelve submitted, in order, with no probe or anything else between. */
  lemma {:induction false} AbortRunsInOrder(s: Service, events: seq<Event>)
    requires Inv(s) && Abortable(s) && s.ready && !s.book.macroRunning
    requires forall i :: 0 <= i < |events| ==> Calm(events[i])
    ensures var t := Run(Aborted(s), events);
      || s.book.trace + Tagged(FromAbort, ABORT_COMMANDS) <= t.book.trace
      || (t.abort.pending && Halting(t.status) && t.abort.index <= |ABORT_COMMANDS|
          && t.book.trace == s.book.trace + Tagged(FromAbort, ABORT_COMMANDS[..t.abort.index]))
  {
    hide Inv, Run, Step, Tagged;
    AbortedKeeps(s);
    AbortGoesOn(Aborted(s), events, |s.book.trace|);
    RunKeeps(Aborted(s), events);
    var t, mark := Run(Aborted(s), events), |s.book.trace|;
    assert t.book.trace == t.book.trace[..mark] + t.book.trace[mark..];
    assert t.book.trace[..mark] == s.book.trace;
    if Underway(t, mark) {
      UnderwayPlace(t, mark);
    }
  }

  lemma {:induction false} AbortGoesOn(s: Service, events: seq<Event>, mark: nat)
    requires Inv(s) && Underway(s, mark)
    requires forall i :: 0 <= i < |events| ==> Calm(events[i])
    ensures Underway(Run(s, events), mark) || Through(Run(s, events), mark)
  {
    hide Inv, Step;
    if events != [] {
      var before, e := events[..|events| - 1], events[|events| - 1];
      AbortGoesOn(s, before, mark);
      RunKeeps(s, before);
      StepKeeps(Run(s, before), e);
      if Underway(Run(s, before), mark) {
        AbortStep(Run(s, before), e, mark);
      } else {
        ThroughLasts(Run(s, before), Step(Run(s, before), e), mark);
      }
    }
  }
}
