/** What holds in every reachable state of the print service. */
module ServiceSafety {
  import opened FlowState
  import opened GcodeStream
  import opened MarlinPacket
  import opened MotionPolicy
  import opened MotionSender
  import opened PrintStatus
  import opened ServiceState

  // ---- Submitting ----

  lemma {:induction false} PendingCounts(slots: seq<Slot>, n: nat, i: nat)
    requires i < n <= |slots| && Pending(slots[i])
    ensures Count(slots, Pending, n) > 0
  {
    if i < n - 1 {
      PendingCounts(slots, n - 1, i);
    }
  }

  /** A barrier is itself in flight, so a closed gate means something is in flight or there is no slot. */
  lemma ClosedGate(st: State)
    requires !Open(st)
    ensures Inflight(st) > 0 || !CanSend(st)
  {
    if HasPendingBarrier(st) {
      var i :| 0 <= i < |st.slots| && Pending(st.slots[i]) && st.slots[i].barrier;
      PendingCounts(st.slots, |st.slots|, i);
    }
  }

  /** With a free slot the flow is never full, and one submission puts at most one packet in flight. */
  lemma SendOneFacts(st: State, command: string, broken: bool)
    ensures Inflight(SendOne(st, command, broken).0) <= Inflight(st) + 1
    ensures SendOne(st, command, broken).1 == FlowFull <==> command != "" && !CanSend(st)
    ensures !CanSend(st) ==> SendOne(st, command, broken).0 == st && SendOne(st, command, broken).1 != Sent
  {
    var i := FirstFree(st);
    if i != -1 {
      CountUpdate(st.slots, Pending, |st.slots|, i, NewSlot(st, command));
    }
  }

  lemma {:induction false} SendListFacts(st: State, commands: seq<string>, i: nat, strict: bool, broken: nat)
    requires i <= |commands|
    ensures var r := SendList(st, commands, i, strict, broken);
      && i <= r.index <= |commands| && (r.end.Ended? <==> r.index == |commands|)
      && (strict && Inflight(st) <= STREAM_WINDOW ==> Inflight(r.flow) <= STREAM_WINDOW)
      && Inflight(r.flow) <= Inflight(st) + |commands| - i
      && (r.end.Stopped? ==> Inflight(r.flow) > 0 || !CanSend(r.flow))
      && (!CanSend(st) ==> r.flow == st && r.index == i && !r.end.Failing?)
    decreases |commands| - i
  {
    hide CanSend, SendOne, HasPendingBarrier, Inflight;
    if i < |commands| {
      if Gate(st, strict) {
        SendOneFacts(st, commands[i], broken == i);
        var r := SendOne(st, commands[i], broken == i);
        if r.1 == Sent {
          SendListFacts(r.0, commands, i + 1, strict, broken);
        }
      } else if strict {
        ClosedGate(st);
      }
    }
  }

  // ---- The history ----

  /** The commands of one origin, in order. */
  function OfOrigin(trace: seq<Submission>, origin: Origin): seq<string> {
    if trace == [] then [] else
    var last := trace[|trace| - 1];
    OfOrigin(trace[..|trace| - 1], origin) + if last.origin == origin then [last.command] else []
  }

  function Log(b: Book, mark: nat, origin: Origin): seq<string> {
    if mark <= |b.trace| then OfOrigin(b.trace[mark..], origin) else []
  }

  lemma {:induction false} OfOriginAppend(trace: seq<Submission>, who: Origin, commands: seq<string>, origin: Origin)
    ensures OfOrigin(trace + Tagged(who, commands), origin)
         == OfOrigin(trace, origin) + if who == origin then commands else []
  {
    if commands == [] {
      assert trace + Tagged(who, commands) == trace;
    } else {
      var n := |commands| - 1;
      var t := trace + Tagged(who, commands);
      OfOriginAppend(trace, who, commands[..n], origin);
      assert t[..|t| - 1] == trace + Tagged(who, commands[..n]);
      assert commands == commands[..n] + [commands[n]];
    }
  }

  lemma RecordedLog(b: Book, who: Origin, commands: seq<string>, mark: nat, origin: Origin)
    requires mark <= |b.trace|
    ensures Log(Recorded(b, who, commands), mark, origin) == Log(b, mark, origin) + if who == origin then commands else []
  {
    OfOriginAppend(b.trace[mark..], who, commands, origin);
    assert Recorded(b, who, commands).trace[mark..] == b.trace[mark..] + Tagged(who, commands);
  }

  // ---- The job's script ----

  function Commands(items: seq<Item>): seq<string> {
    seq(|items|, i requires 0 <= i < |items| => items[i].command)
  }

  function Opening(hasPrime: bool): seq<string> {
    HOME_COMMANDS + StartSequence(hasPrime)
  }

  /** The part of the script that comes from the file, as far as it has been read. */
  function Body(b: Book): seq<string> {
    Opening(b.hasPrime) + Commands(if b.taken <= |b.items| then b.items[..b.taken] else b.items)
  }

  /** Either the file is wholly submitted, or reading it has failed. */
  predicate ReadOut(b: Book) {
    b.taken == |b.items| || b.truncated
  }

  /** The log is a beginning of the script, and the finishing commands only follow a file read out. */
  predicate OnScript(log: seq<string>, b: Book) {
    log <= Body(b) + FINISH_COMMANDS && (|log| > |Body(b)| ==> ReadOut(b))
  }

  function JobLog(s: Service): seq<string> {
    Log(s.book, s.book.jobMark, FromJob)
  }

  predicate JobRecords(s: Service) {
    var b := s.book;
    && b.taken <= |b.items| && (b.truncated ==> b.taken < |b.items|)
    && (s.file.Some? ==> s.job.active && !s.finish.pending && s.file == Some(File(b.items[b.taken..], b.hasPrime))
                         && !b.truncated)
    && (s.job.stage != Streaming ==> s.job.active && s.file.Some? && b.taken == 0)
    && (s.job.stage != Homing ==> s.job.prepareIndex == 0) && s.job.prepareIndex <= |HOME_COMMANDS|
    && (s.job.stage != Startup ==> s.job.startupIndex == 0) && s.job.startupIndex <= |StartSequence(b.hasPrime)|
    && (s.finish.pending ==> s.job.active && s.finish.policy == FINISH_COMMANDS && s.finish.index <= |FINISH_COMMANDS|
                             && ReadOut(b))
  }

  /** How far along its script the job is. */
  predicate JobPlace(s: Service)
    requires JobRecords(s)
  {
    var b, log := s.book, JobLog(s);
    match s.job.stage
    case Homing => log == HOME_COMMANDS[..s.job.prepareIndex]
    case HomeDrain => log == HOME_COMMANDS
    case Heating => log == HOME_COMMANDS
    case Startup => log == HOME_COMMANDS + StartSequence(b.hasPrime)[..s.job.startupIndex]
    case StartupDrain => log == Body(b)
    case Streaming =>
      if s.finish.pending then log == Body(b) + FINISH_COMMANDS[..s.finish.index]
      else if s.file.Some? then log == Body(b)
      else OnScript(log, b)
  }

  // ---- Modes ----

  predicate WithinBounds(c: Cleanup) {
    c.index <= |c.policy|
  }

  predicate Modes(s: Service) {
    && !(s.probe.pending && s.pause.pending) && !(s.probe.pending && s.resume.pending)
    && !(s.pause.pending && s.resume.pending)
    && (s.abort.pending ==> !s.job.active && !s.finish.pending && s.abort.policy == ABORT_COMMANDS)
    && (s.finish.pending ==> s.job.active && s.job.stage == Streaming)
    && (s.job.stage != Streaming ==> s.job.active)
    && WithinBounds(s.abort) && WithinBounds(s.pause) && WithinBounds(s.resume)
    && (s.finish.pending ==> WithinBounds(s.finish))
    && s.queue.index <= |s.queue.items| <= QUEUE_COMMANDS && (s.queue.active <==> s.queue.items != [])
  }

  // ---- Aborting ----

  predicate Halting(s: Status) {
    s.phase == Aborting || s.phase == Broken
  }

  /** Nothing but the abort wants to move. */
  predicate Quiet(s: Service) {
    && !s.queue.active && !Busy(s) && !s.wait.active && !s.saved.valid && !s.book.macroRunning
    && Halting(s.status)
  }

  predicate AbortInOrder(s: Service) {
    s.abort.pending && !s.book.disturbed ==>
      && Quiet(s)
      && s.abort.index <= |ABORT_COMMANDS| && s.book.abortMark <= |s.book.trace|
      && s.book.trace[s.book.abortMark..] == Tagged(FromAbort, ABORT_COMMANDS[..s.abort.index])
  }

  // ---- Pausing and resuming ----

  /** Of a list under way, exactly the commands before its index have been submitted since it began. */
  predicate ListInOrder(c: Cleanup, b: Book, mark: nat, origin: Origin) {
    c.pending ==> c.index <= |c.policy| && mark <= |b.trace| && Log(b, mark, origin) == c.policy[..c.index]
  }

  // ---- All of it ----

  /** A print reported as finished went through its whole script. */
  predicate FinishedWhole(s: Service) {
    s.status.phase == Finished ==>
      !s.job.active && JobLog(s) == Body(s.book) + FINISH_COMMANDS && ReadOut(s.book)
  }

  predicate OnTrack(s: Service) {
    && s.book.jobMark <= |s.book.trace|
    && JobRecords(s) && JobPlace(s) && FinishedWhole(s)
    && ListInOrder(s.pause, s.book, s.book.pauseMark, FromPause)
    && ListInOrder(s.resume, s.book, s.book.resumeMark, FromResume)
  }

  predicate Inv(s: Service) {
    Inflight(s.flow) <= STREAM_WINDOW && OnTrack(s) && Modes(s) && AbortInOrder(s)
  }

  /** The history only grows, and not by commands of a macro; no file is cut short. */
  predicate Appended(b: Book, c: Book) {
    && b.trace <= c.trace && (c.truncated ==> b.truncated) && c.macroMark == b.macroMark && c.macroRunning == b.macroRunning
    && forall k :: |b.trace| <= k < |c.trace| ==> c.trace[k].origin != FromMacro
  }

  lemma StartInv(env: Env)
    ensures Inv(Start(env))
  {
    CountNone(Fresh().slots, Pending, WINDOW);
  }

  /** Wherever a job is, it is on its script. */
  lemma PlaceIsOnScript(s: Service)
    requires JobRecords(s) && JobPlace(s)
    ensures OnScript(JobLog(s), s.book)
  {
    var b := s.book;
    assert Commands(b.items[..0]) == [];
    assert HOME_COMMANDS + StartSequence(b.hasPrime) == Opening(b.hasPrime);
    if s.job.stage == Startup {
      assert StartSequence(b.hasPrime)[..s.job.startupIndex] <= StartSequence(b.hasPrime);
    }
  }

  // ---- Steps that leave the job alone ----

  lemma Extends(base: seq<string>, commands: seq<string>, i: nat, j: nat)
    requires i <= j <= |commands|
    ensures base + commands[..i] + commands[i..j] == base + commands[..j]
  {
  }

  /** c is b but for the marks of aborts, pauses and resumes. */
  predicate SameHistory(b: Book, c: Book) {
    c == b.(abortMark := c.abortMark, pauseMark := c.pauseMark, resumeMark := c.resumeMark,
            disturbed := c.disturbed)
  }

  /** What submitting commands does to a list: nothing, unless they are its next ones; or the list is over. */
  predicate ListKept(c: Cleanup, d: Cleanup, mine: bool, commands: seq<string>) {
    d.pending ==> && c.pending && d.policy == c.policy && c.index <= d.index <= |c.policy|
                  && (if mine then commands == c.policy[c.index..d.index] else d.index == c.index)
  }

  lemma ListStillInOrder(c: Cleanup, d: Cleanup, b: Book, mark: nat, origin: Origin, who: Origin, commands: seq<string>)
    requires ListInOrder(c, b, mark, origin) && ListKept(c, d, who == origin, commands)
    ensures ListInOrder(d, Recorded(b, who, commands), mark, origin)
  {
    hide OfOrigin, Tagged, Log;
    if d.pending {
      assert |Recorded(b, who, commands).trace| >= |b.trace|;
      RecordedLog(b, who, commands, mark, origin);
      assert c.policy[..c.index] + c.policy[c.index..d.index] == c.policy[..d.index];
    }
  }

  /** Commands of another origin leave the job where it is. */
  lemma JobUntouched(s: Service, t: Service, who: Origin, commands: seq<string>)
    requires OnTrack(s) && who != FromJob
    requires t.job == s.job.(nozzle := t.job.nozzle) && t.file == s.file
    requires t.finish == s.finish || (!s.finish.pending && !t.finish.pending)
    requires t.status.phase == Finished ==> s.status.phase == Finished
    requires SameHistory(Recorded(s.book, who, commands), t.book)
    ensures JobRecords(t) && JobPlace(t) && FinishedWhole(t) && t.book.jobMark <= |t.book.trace|
    ensures s.book.trace <= t.book.trace && (who != FromMacro ==> Appended(s.book, t.book))
  {
    hide OfOrigin, Opening, Commands;
    RecordedLog(s.book, who, commands, s.book.jobMark, FromJob);
  }

  /** A step that submits commands for something other than the job. */
  lemma Untouched(s: Service, t: Service, who: Origin, commands: seq<string>)
    requires OnTrack(s) && who != FromJob
    requires t.job == s.job.(nozzle := t.job.nozzle) && t.file == s.file
    requires t.finish == s.finish || (!s.finish.pending && !t.finish.pending)
    requires t.status.phase == Finished ==> s.status.phase == Finished
    requires t.book == Recorded(s.book, who, commands)
    requires ListKept(s.pause, t.pause, who == FromPause, commands)
    requires ListKept(s.resume, t.resume, who == FromResume, commands)
    ensures OnTrack(t) && s.book.trace <= t.book.trace && (who != FromMacro ==> Appended(s.book, t.book))
  {
    hide JobRecords, JobPlace, FinishedWhole, ListInOrder, ListKept, Appended;
    assert t.book.pauseMark == s.book.pauseMark && t.book.resumeMark == s.book.resumeMark;
    hide Recorded;
    assert SameHistory(Recorded(s.book, who, commands), t.book);
    JobUntouched(s, t, who, commands);
    ListStillInOrder(s.pause, t.pause, s.book, s.book.pauseMark, FromPause, who, commands);
    ListStillInOrder(s.resume, t.resume, s.book, s.book.resumeMark, FromResume, who, commands);
  }

  lemma RecordNothing(b: Book, who: Origin)
    ensures Recorded(b, who, []) == b
  {
    assert Tagged(who, []) == [];
  }

  /** A list may begin where the history ends. */
  predicate ListBegins(c: Cleanup, d: Cleanup, b: Book, mark: nat, mark': nat) {
    d.pending ==> (d == c && mark' == mark) || (d.index == 0 && mark' == |b.trace|)
  }

  /** A step that submits nothing; lists may begin. */
  lemma Same(s: Service, t: Service)
    requires OnTrack(s)
    requires t.job == s.job.(nozzle := t.job.nozzle) && t.file == s.file
    requires t.finish == s.finish || (!s.finish.pending && !t.finish.pending)
    requires t.status.phase == Finished ==> s.status.phase == Finished
    requires SameHistory(s.book, t.book)
    requires ListBegins(s.pause, t.pause, s.book, s.book.pauseMark, t.book.pauseMark)
    requires ListBegins(s.resume, t.resume, s.book, s.book.resumeMark, t.book.resumeMark)
    ensures OnTrack(t) && Appended(s.book, t.book)
  {
    hide JobRecords, JobPlace, FinishedWhole;
    RecordNothing(s.book, FromProbe);
    JobUntouched(s, t, FromProbe, []);
  }

  /** A job may end anywhere on its script. */
  lemma JobMayEnd(s: Service, t: Service)
    requires OnTrack(s)
    requires t.file == None && !t.finish.pending && t.job.stage == Streaming
    requires t.job.prepareIndex == 0 == t.job.startupIndex
    requires t.status.phase != Finished
    requires SameHistory(s.book, t.book)
    requires t.pause.pending ==> t.pause == s.pause && t.book.pauseMark == s.book.pauseMark
    requires t.resume.pending ==> t.resume == s.resume && t.book.resumeMark == s.book.resumeMark
    ensures OnTrack(t) && Appended(s.book, t.book)
  {
    hide OfOrigin, Opening, Commands;
    PlaceIsOnScript(s);
  }

  // ---- The abort and finish polls ----

  lemma AllDroppedFrame(s: Service)
    ensures AllDropped(s).(file := None, job := s.job, probe := s.probe, queue := s.queue, finish := s.finish,
                           pause := s.pause, resume := s.resume, saved := s.saved) == s.(file := None)
  {
  }

  lemma AbortBegunFrame(s: Service)
    ensures AbortBegun(s).ready == s.ready && AbortBegun(s).flow == s.flow
  {
  }

  lemma TaggedGrows(trace: seq<Submission>, mark: nat, origin: Origin, commands: seq<string>, i: nat, j: nat)
    requires i <= j <= |commands| && mark <= |trace|
    requires trace[mark..] == Tagged(origin, commands[..i])
    ensures (trace + Tagged(origin, commands[i..j]))[mark..] == Tagged(origin, commands[..j])
  {
    var t := trace + Tagged(origin, commands[i..j]);
    assert t[mark..] == trace[mark..] + Tagged(origin, commands[i..j]);
  }

  lemma AbortedKeeps(s: Service)
    requires Inv(s)
    ensures Inv(Aborted(s)) && Appended(s.book, Aborted(s).book)
  {
    assert s.job.active || (!s.finish.pending && s.job == s.job.(stage := Streaming, prepareIndex := 0, startupIndex := 0));
    hide OnTrack;
    var t := Aborted(s);
    ClearEmpties(s.flow);
    if Abortable(s) && s.job.active {
      JobMayEnd(s, t);
    } else {
      Same(s, t);
    }
    assert ABORT_COMMANDS[..0] == [];
  }

  lemma AbortPolledKeeps(s: Service, broken: nat)
    requires Inv(s)
    ensures Inv(AbortPolled(s, broken)) && Appended(s.book, AbortPolled(s, broken).book)
    ensures AbortPolled(s, broken).abort.pending ==>
              var st := AbortPolled(s, broken).flow; Inflight(st) > 0 || !CanSend(st)
  {
    hide Open, SendList, CanSend, Inflight, Tagged, OnTrack;
    if s.abort.pending {
      SendListFacts(s.flow, s.abort.policy, s.abort.index, true, broken);
      var r := SendList(s.flow, s.abort.policy, s.abort.index, true, broken);
      ClearEmpties(r.flow);
      Untouched(s, AbortPolled(s, broken), FromAbort, s.abort.policy[s.abort.index..r.index]);
      if !s.book.disturbed {
        TaggedGrows(s.book.trace, s.book.abortMark, FromAbort, s.abort.policy, s.abort.index, r.index);
      }
    }
  }

  lemma ListReadsTrace(c: Cleanup, a: Book, b: Book, mark: nat, origin: Origin)
    requires a.trace == b.trace && ListInOrder(c, a, mark, origin)
    ensures ListInOrder(c, b, mark, origin)
  {
  }

  /** What the job itself submits goes onto its log. */
  lemma JobSubmits(s: Service, t: Service, commands: seq<string>)
    requires OnTrack(s) && t.pause == s.pause && t.resume == s.resume && t.status.phase != Finished
    requires t.book == Recorded(s.book, FromJob, commands).(taken := t.book.taken)
    ensures JobRecords(t) && JobPlace(t) ==> OnTrack(t)
    ensures Appended(s.book, t.book) && JobLog(t) == JobLog(s) + commands
  {
    hide OfOrigin, JobRecords, JobPlace;
    assert ListKept(s.pause, s.pause, false, commands) && ListKept(s.resume, s.resume, false, commands);
    hide ListInOrder;
    var b := Recorded(s.book, FromJob, commands);
    RecordedLog(s.book, FromJob, commands, s.book.jobMark, FromJob);
    ListStillInOrder(s.pause, s.pause, s.book, s.book.pauseMark, FromPause, FromJob, commands);
    ListStillInOrder(s.resume, s.resume, s.book, s.book.resumeMark, FromResume, FromJob, commands);
    ListReadsTrace(s.pause, b, t.book, s.book.pauseMark, FromPause);
    ListReadsTrace(s.resume, b, t.book, s.book.resumeMark, FromResume);
    assert JobLog(t) == JobLog(s) + commands;
  }

  /** The state when the finishing list has been sent as far as it goes. */
  function FinishSent(s: Service, r: Sending): Service {
    AfterList(s, FromJob, s.finish.policy, s.finish.index, r).(finish := s.finish.(index := r.index))
  }

  lemma FinishSentKeeps(s: Service, broken: nat)
    requires Inv(s) && s.finish.pending
    ensures var t := FinishSent(s, SendList(s.flow, s.finish.policy, s.finish.index, true, broken));
      Inv(t) && Appended(s.book, t.book)
  {
    hide SendList, CanSend, Inflight, Log, Tagged, Opening, Commands, ListInOrder;
    SendListFacts(s.flow, s.finish.policy, s.finish.index, true, broken);
    var r := SendList(s.flow, s.finish.policy, s.finish.index, true, broken);
    Extends(Body(s.book), s.finish.policy, s.finish.index, r.index);
    JobSubmits(s, FinishSent(s, r), s.finish.policy[s.finish.index..r.index]);
  }

  /** The job ends with the finishing list; as finished only when that is through. */
  lemma JobEndKeeps(s: Service, t: Service)
    requires Inv(s) && s.job.active && s.job.stage == Streaming && Inflight(t.flow) <= STREAM_WINDOW
    requires t == s.(flow := t.flow, file := None, abortRequested := t.abortRequested, finish := t.finish,
                     wait := t.wait, status := t.status, job := s.job.(active := t.job.active, nozzle := t.job.nozzle))
    requires !t.finish.pending
    requires t.status.phase == Finished ==> !t.job.active && s.finish.pending && s.finish.index == |FINISH_COMMANDS|
    ensures Inv(t) && Appended(s.book, t.book)
  {
    hide OfOrigin, Inflight, Opening, Commands, ListInOrder;
    PlaceIsOnScript(s);
    if t.status.phase == Finished {
      assert FINISH_COMMANDS[..|FINISH_COMMANDS|] == FINISH_COMMANDS;
    }
  }

  lemma FinishPolledKeeps(s: Service, broken: nat)
    requires Inv(s)
    ensures Inv(FinishPolled(s, broken)) && Appended(s.book, FinishPolled(s, broken).book)
  {
    hide SendList, Inflight, Appended;
    assert Inflight(s.flow) <= STREAM_WINDOW;
    assert s.finish.pending ==> s.finish.index <= |FINISH_COMMANDS| == |s.finish.policy|
                                && s.file == None && s.job.active && s.job.stage == Streaming;
    hide Inv;
    if s.finish.pending {
      var r := SendList(s.flow, s.finish.policy, s.finish.index, true, broken);
      var f, t := FinishSent(s, r), FinishPolled(s, broken);
      FinishSentKeeps(s, broken);
      SendListFacts(s.flow, s.finish.policy, s.finish.index, true, broken);
      ClearEmpties(r.flow);
      if !t.finish.pending {
        JobEndKeeps(f, t);
      }
    } else {
      AppendedSelf(s.book);
    }
  }

  lemma AppendedSelf(b: Book)
    ensures Appended(b, b)
  {
  }

  /** The same but for a file that is cut short, which takes a failed read. */
  predicate AppendedReading(b: Book, c: Book, readFails: bool) {
    Appended(b, c.(truncated := b.truncated)) && (c.truncated ==> b.truncated || readFails)
  }

  lemma AppendedIsReading(b: Book, c: Book, readFails: bool)
    requires Appended(b, c)
    ensures AppendedReading(b, c, readFails)
  {
  }

  lemma AppendedTwice(b: Book, c: Book, d: Book)
    requires Appended(b, c) && Appended(c, d)
    ensures Appended(b, d)
  {
    forall k | |b.trace| <= k < |d.trace| ensures d.trace[k].origin != FromMacro {
      if k < |c.trace| {
        assert c.trace[k] == d.trace[k];
      }
    }
  }

  // ---- Pausing and resuming ----

  lemma PauseBegunKeeps(s: Service)
    requires Inv(s) && s.probe.pending
    ensures var t := PauseBegun(s.(probe := NO_PROBE)); Inv(t) && Appended(s.book, t.book)
  {
    hide Inflight, OnTrack, Tagged;
    Same(s, PauseBegun(s.(probe := NO_PROBE)));
  }

  lemma PositionPolledKeeps(s: Service, broken: bool)
    requires Inv(s) && s.probe.pending
    ensures var t := PositionPolled(s, broken).0; Inv(t) && Appended(s.book, t.book)
  {
    hide Open, SendList, CanSend, Inflight, OnTrack, Tagged, PauseBegun, Appended;
    if s.probe.sent {
      PauseBegunKeeps(s);
      AppendedSelf(s.book);
    } else {
      var t, k := PositionPolled(s, broken).0, if broken then 0 else 1;
      SendListFacts(s.flow, ["M114"], 0, true, k);
      var r := SendList(s.flow, ["M114"], 0, true, k);
      Untouched(s, t, FromPause, ["M114"][0..r.index]);
    }
  }

  /** A position that has been reported anew is a valid one, so the probe always ends in a pause list: the
      poll never goes on to the lists at once. */
  lemma PositionNeverGoesOn(s: Service, broken: bool)
    ensures !PositionPolled(s, broken).1
  {
    hide SendList, Inflight, PauseCommands;
  }

  lemma PausePolledKeeps(s: Service, broken: nat)
    requires Inv(s) && s.pause.pending
    ensures Inv(PausePolled(s, broken)) && Appended(s.book, PausePolled(s, broken).book)
  {
    hide Open, SendList, CanSend, Inflight, OnTrack, Tagged, Appended;
    SendListFacts(s.flow, s.pause.policy, s.pause.index, true, broken);
    var r := SendList(s.flow, s.pause.policy, s.pause.index, true, broken);
    Untouched(s, PausePolled(s, broken), FromPause, s.pause.policy[s.pause.index..r.index]);
  }

  lemma HeatSentKeeps(s: Service, broken: bool)
    requires Inv(s) && s.resume.pending && s.resume.index == 0
    ensures var t := HeatSent(s, broken); Inv(t.0) && Appended(s.book, t.0.book) && (t.1 ==> t.0.resume.pending)
  {
    hide Open, SendList, CanSend, Inflight, OnTrack, Tagged, Appended;
    AppendedSelf(s.book);
    if s.resume.policy != [] {
      var first, k := s.resume.policy[..1], if broken then 0 else 1;
      SendListFacts(s.flow, first, 0, true, k);
      var r := SendList(s.flow, first, 0, true, k);
      assert first[0..r.index] == s.resume.policy[0..r.index];
      Untouched(s, HeatSent(s, broken).0, FromResume, first[0..r.index]);
    }
  }

  lemma ResumeListPolledKeeps(s: Service, broken: nat)
    requires Inv(s)
    ensures Inv(ResumeListPolled(s, broken)) && Appended(s.book, ResumeListPolled(s, broken).book)
  {
    hide Open, SendList, CanSend, Inflight, OnTrack, Tagged, Appended;
    AppendedSelf(s.book);
    if s.resume.pending {
      SendListFacts(s.flow, s.resume.policy, s.resume.index, true, broken);
      var r := SendList(s.flow, s.resume.policy, s.resume.index, true, broken);
      Untouched(s, ResumeListPolled(s, broken), FromResume, s.resume.policy[s.resume.index..r.index]);
    }
  }

  /** Changes to the status and the wait that no abort order depends on. */
  lemma StatusMayChange(s: Service, status: Status, wait: HeaterWait)
    requires Inv(s)
    requires s.abort.pending && !s.book.disturbed ==> Halting(status) && !wait.active
    requires status.phase == Finished ==> s.status.phase == Finished
    ensures Inv(s.(status := status, wait := wait))
  {
    hide Log, Tagged, Inflight, Body;
  }

  lemma FlowMayChange(s: Service, st: State)
    requires Inv(s) && Inflight(st) <= STREAM_WINDOW
    ensures Inv(s.(flow := st))
  {
    hide Log, Tagged, Inflight, Body;
  }

  /** The second half of a resume poll: the wait for the nozzle, then the rest of the list. */
  function ResumeWaited(s: Service, list: nat): Service {
    if s.resume.pending && s.wait.active && !Heated(s.wait, s.status) then s.(status := Waiting(s.wait, s.status))
    else ResumeListPolled(if s.resume.pending && s.wait.active then s.(wait := Off(s.wait)) else s, list)
  }

  lemma ResumeWaitedKeeps(s: Service, list: nat)
    requires Inv(s)
    ensures Inv(ResumeWaited(s, list)) && Appended(s.book, ResumeWaited(s, list).book)
  {
    hide ResumeListPolled, Appended, Heated, OnTrack;
    assert s.resume.pending ==> !(s.abort.pending && !s.book.disturbed);
    hide Inv;
    AppendedSelf(s.book);
    if s.resume.pending && s.wait.active {
      StatusMayChange(s, Waiting(s.wait, s.status), s.wait);
      StatusMayChange(s, s.status, Off(s.wait));
      ResumeListPolledKeeps(s.(wait := Off(s.wait)), list);
    } else {
      ResumeListPolledKeeps(s, list);
    }
  }

  lemma ResumePolledKeeps(s: Service, one: bool, list: nat)
    requires Inv(s)
    ensures Inv(ResumePolled(s, one, list)) && Appended(s.book, ResumePolled(s, one, list).book)
  {
    hide Inv, HeatSent, ResumeListPolled, Appended, Heated, Waiting;
    AppendedSelf(s.book);
    if s.resume.pending && !s.wait.active && s.resume.index == 0 && s.saved.nozzle > 0.0 {
      HeatSentKeeps(s, one);
      var t := HeatSent(s, one).0;
      ResumeWaitedKeeps(t, list);
      AppendedTwice(s.book, t.book, ResumeWaited(t, list).book);
    } else {
      ResumeWaitedKeeps(s, list);
    }
  }

  lemma PauseResumePolledKeeps(s: Service, one: bool, list: nat)
    requires Inv(s)
    ensures Inv(PauseResumePolled(s, one, list)) && Appended(s.book, PauseResumePolled(s, one, list).book)
  {
    hide Inv, PositionPolled, PausePolled, ResumePolled, Appended;
    AppendedSelf(s.book);
    if s.probe.pending {
      PositionPolledKeeps(s, one);
    }
    var p := if s.probe.pending then PositionPolled(s, one) else (s, true);
    if p.1 && p.0.pause.pending {
      PausePolledKeeps(p.0, list);
      AppendedTwice(s.book, p.0.book, PausePolled(p.0, list).book);
    } else if p.1 {
      ResumePolledKeeps(p.0, one, list);
      AppendedTwice(s.book, p.0.book, ResumePolled(p.0, one, list).book);
    }
  }

  // ---- G-code given by hand ----

  lemma RefreshedKeeps(s: Service)
    requires Inv(s)
    ensures Inv(Refreshed(s)) && Refreshed(s).book == s.book
    ensures s.abort.pending ==> Refreshed(s) == s
  {
    hide Inv;
    if !s.abort.pending {
      StatusMayChange(s, Refreshed(s).status, s.wait);
    }
  }

  lemma HeaterSetPhase(env: Env, s: Status, line: string)
    ensures HeaterSet(env, s, line).phase == s.phase
  {
  }

  lemma ArmedNotFinished(s: Service, item: Item)
    ensures Armed(s, item).status.phase == Finished ==> s.status.phase == Finished
  {
  }

  lemma QueueItemSentKeeps(s: Service, flow: State)
    requires Inv(s) && s.queue.index < |s.queue.items| && Inflight(flow) <= STREAM_WINDOW
    ensures var item := s.queue.items[s.queue.index];
      var t := QueueItemSent(s.(flow := flow), item);
      Inv(t) && Appended(s.book, t.book) && t.queue == s.queue.(index := s.queue.index + 1)
  {
    hide Inflight, OnTrack, Tagged, HeaterSet, Waiting;
    var item := s.queue.items[s.queue.index];
    HeaterSetPhase(s.env, s.status, item.command);
    var t := QueueItemSent(s.(flow := flow), item);
    ArmedNotFinished(s.(flow := flow, book := Recorded(s.book, FromQueue, [item.command]),
                        status := HeaterSet(s.env, s.status, item.command),
                        queue := s.queue.(index := s.queue.index + 1)), item);
    Untouched(s, t, FromQueue, [item.command]);
  }

  lemma QueueDroppedKeeps(s: Service, flow: State, error: Fault)
    requires Inv(s) && s.queue.active && Inflight(flow) <= STREAM_WINDOW
    ensures Inv(s.(flow := flow, queue := NO_QUEUE, wait := Off(s.wait), status := s.status.(error := error)))
  {
    hide Inflight, OnTrack, Tagged;
    Same(s, s.(flow := flow, queue := NO_QUEUE, wait := Off(s.wait), status := s.status.(error := error)));
  }

  lemma {:induction false} QueueSentKeeps(s: Service, broken: nat)
    requires Inv(s) && s.queue.active
    ensures Inv(QueueSent(s, broken).0) && Appended(s.book, QueueSent(s, broken).0.book)
    decreases |s.queue.items| - s.queue.index
  {
    hide CanSend, HasPendingBarrier, SendOne, Inflight, OnTrack, Tagged, QueueItemSent, Refreshed, Appended;
    AppendedSelf(s.book);
    if s.queue.index >= |s.queue.items| {
      var t := s.(queue := NO_QUEUE);
      Same(s, t);
      RefreshedKeeps(t);
    } else if Open(s.flow) {
      var item := s.queue.items[s.queue.index];
      var r := SendOne(s.flow, item.command, broken == s.queue.index);
      SendOneFacts(s.flow, item.command, broken == s.queue.index);
      QueueItemSentKeeps(s, r.0);
      QueueDroppedKeeps(s, r.0, SendFault(r.1));
      var u := QueueItemSent(s.(flow := r.0), item);
      if r.1 == Sent && !item.waitBed && !item.waitNozzle {
        QueueSentKeeps(u, broken);
        AppendedTwice(s.book, u.book, QueueSent(u, broken).0.book);
      }
    }
  }

  lemma QueuePolledKeeps(s: Service, broken: nat)
    requires Inv(s)
    ensures Inv(QueuePolled(s, broken).0) && Appended(s.book, QueuePolled(s, broken).0.book)
  {
    hide QueueSent, Appended, OnTrack;
    assert s.queue.active ==> !(s.abort.pending && !s.book.disturbed);
    hide Inv;
    AppendedSelf(s.book);
    if s.queue.active {
      StatusMayChange(s, Waiting(s.wait, s.status), s.wait);
      StatusMayChange(s, s.status, Off(s.wait));
      QueueSentKeeps(if s.wait.active then s.(wait := Off(s.wait)) else s, broken);
    }
  }

  lemma {:induction false} HeatersSetPhase(env: Env, s: Status, items: seq<Item>)
    ensures HeatersSet(env, s, items).phase == s.phase
  {
    if items != [] {
      HeatersSetPhase(env, s, items[..|items| - 1]);
    }
  }

  /** A queue of commands may be put in place of an idle one. */
  lemma QueueFilledKeeps(s: Service, t: Service)
    requires Inv(s) && !s.queue.active
    requires t == s.(book := s.book.(disturbed := true), queue := t.queue, status := t.status)
    requires t.status.phase == Finished ==> s.status.phase == Finished
    requires t.queue.index == 0 && |t.queue.items| <= QUEUE_COMMANDS
    ensures Inv(t.(queue := t.queue.(active := t.queue.items != [])))
  {
    hide Inflight, OnTrack, Tagged;
    Same(s, t.(queue := t.queue.(active := t.queue.items != [])));
  }

  lemma AppendedNoted(b: Book)
    ensures Appended(b, b.(disturbed := true))
  {
  }

  lemma GcodeGivenKeeps(s: Service, lines: seq<string>, broken: nat)
    requires Inv(s)
    ensures Inv(GcodeGiven(s, lines, broken)) && Appended(s.book, GcodeGiven(s, lines, broken).book)
  {
    hide Inv, QueuePolled, RewrittenItems, HeatersSet, Appended;
    AppendedSelf(s.book);
    if !s.queue.active {
      var items := RewrittenItems(s.env.libc, lines);
      var noted := s.(book := s.book.(disturbed := true));
      var q := Refreshed(noted.(queue := Queue(items, 0, false), status := HeatersSet(s.env, s.status, items)));
      var a := q.(queue := Queue(items, 0, items != []));
      HeatersSetPhase(s.env, s.status, items);
      AppendedNoted(s.book);
      if |items| > QUEUE_COMMANDS {
        QueueFilledKeeps(s, noted.(queue := NO_QUEUE));
      } else {
        QueueFilledKeeps(s, q);
        RefreshedKeeps(a);
        QueuePolledKeeps(a, broken);
        RefreshedKeeps(QueuePolled(a, broken).0);
        AppendedTwice(s.book, a.book, QueuePolled(a, broken).0.book);
      }
    }
  }

  // ---- The job ----

  lemma HomingPolledKeeps(s: Service, broken: nat)
    requires Inv(s) && s.job.stage == Homing
    ensures Inv(HomingPolled(s, broken)) && Appended(s.book, HomingPolled(s, broken).book)
  {
    hide Open, SendList, CanSend, Inflight, Log, Tagged, Body, ListInOrder, Appended, StartSequence;
    SendListFacts(s.flow, HOME_COMMANDS, s.job.prepareIndex, true, broken);
    var r := SendList(s.flow, HOME_COMMANDS, s.job.prepareIndex, true, broken);
    Extends([], HOME_COMMANDS, s.job.prepareIndex, r.index);
    assert HOME_COMMANDS[..|HOME_COMMANDS|] == HOME_COMMANDS;
    JobSubmits(s, HomingPolled(s, broken), HOME_COMMANDS[s.job.prepareIndex..r.index]);
  }

  lemma StartupPolledKeeps(s: Service, broken: nat)
    requires Inv(s) && s.job.stage == Startup
    ensures Inv(StartupPolled(s, broken)) && Appended(s.book, StartupPolled(s, broken).book)
  {
    hide Open, SendList, CanSend, Inflight, Log, Tagged, StartSequence, ListInOrder, Appended;
    var list := StartSequence(s.book.hasPrime);
    SendListFacts(s.flow, list, s.job.startupIndex, true, broken);
    var r := SendList(s.flow, list, s.job.startupIndex, true, broken);
    Extends(HOME_COMMANDS, list, s.job.startupIndex, r.index);
    assert list[..|list|] == list;
    assert Commands(s.book.items[..0]) == [];
    assert Body(s.book) == HOME_COMMANDS + list;
    JobSubmits(s, StartupPolled(s, broken), list[s.job.startupIndex..r.index]);
  }

  lemma PreparePolledKeeps(s: Service, broken: nat)
    requires Inv(s) && s.job.stage != Streaming
    ensures Inv(PreparePolled(s, broken)) && Appended(s.book, PreparePolled(s, broken).book)
  {
    hide HomingPolled, StartupPolled, Log, Tagged, Inflight, Opening, ListInOrder, Appended, Heated;
    assert Commands(s.book.items[..0]) == [];
    AppendedSelf(s.book);
    match s.job.stage
    case Homing => HomingPolledKeeps(s, broken);
    case Startup => StartupPolledKeeps(s, broken);
    case _ =>
  }

  lemma DroppedKeeps(s: Service, t: Service)
    requires Inv(s) && s.job.active && s.job.stage == Streaming && t == Dropped(s)
    ensures Inv(t) && Appended(s.book, t.book)
  {
    hide Tagged;
    assert s.status.phase != Finished && s.job.prepareIndex == 0 == s.job.startupIndex;
    hide OnTrack;
    ClearEmpties(s.flow);
    JobMayEnd(s, t);
  }

  /** The next item of the file joins the body of the script. */
  lemma BodyGrows(b: Book)
    requires b.taken < |b.items|
    ensures Body(b.(taken := b.taken + 1)) == Body(b) + [b.items[b.taken].command]
  {
    assert Commands(b.items[..b.taken + 1]) == Commands(b.items[..b.taken]) + [b.items[b.taken].command];
  }

  lemma BodySame(b: Book, who: Origin, commands: seq<string>)
    ensures Body(Recorded(b, who, commands)) == Body(b)
  {
  }

  /** The state when an item has been submitted, before any heater is waited for. */
  function ItemTaken(s: Service, flow: State): Service
    requires s.file.Some? && s.file.value.rest != []
  {
    s.(flow := flow, file := Some(s.file.value.(rest := s.file.value.rest[1..])),
       book := Recorded(s.book, FromJob, [s.file.value.rest[0].command]).(taken := s.book.taken + 1))
  }

  lemma ItemTakenKeeps(s: Service, flow: State)
    requires Inv(s) && s.job.active && s.job.stage == Streaming && s.file.Some? && s.file.value.rest != []
    requires Inflight(flow) <= STREAM_WINDOW
    ensures Inv(ItemTaken(s, flow)) && Appended(s.book, ItemTaken(s, flow).book)
  {
    hide Inflight, Log, Tagged, Body, ListInOrder;
    var command := s.file.value.rest[0].command;
    assert s.book.items[s.book.taken..][1..] == s.book.items[s.book.taken + 1..];
    BodyGrows(Recorded(s.book, FromJob, [command]));
    BodySame(s.book, FromJob, [command]);
    JobSubmits(s, ItemTaken(s, flow), [command]);
  }

  lemma NozzleMayChange(s: Service, nozzle: real)
    requires Inv(s)
    ensures Inv(s.(job := s.job.(nozzle := nozzle)))
  {
    hide Log, Tagged, Inflight, Body;
  }

  lemma ItemSentKeeps(s: Service, broken: bool)
    requires Inv(s) && s.job.active && s.job.stage == Streaming && s.file.Some? && s.file.value.rest != []
    requires CanSend(s.flow) && Inflight(s.flow) < JOB_WINDOW
    ensures Inv(ItemSent(s, broken)) && Appended(s.book, ItemSent(s, broken).book)
  {
    hide CanSend, SendOne, Inflight, OnTrack, Appended;
    assert !s.abort.pending;
    hide Inv;
    var item := s.file.value.rest[0];
    SendOneFacts(s.flow, item.command, broken);
    var r := SendOne(s.flow, item.command, broken);
    var t := ItemSent(s, broken);
    if r.1 == Sent {
      ItemTakenKeeps(s, r.0);
      StatusMayChange(ItemTaken(s, r.0), t.status, t.wait);
      NozzleMayChange(ItemTaken(s, r.0).(status := t.status, wait := t.wait), t.job.nozzle);
    } else {
      FlowMayChange(s, r.0);
      DroppedKeeps(s.(flow := r.0), Dropped(s.(flow := r.0)));
      StatusMayChange(Dropped(s.(flow := r.0)), t.status, t.wait);
    }
  }

  lemma FinishBegunKeeps(s: Service, t: Service)
    requires Inv(s) && s.job.active && s.job.stage == Streaming && !s.finish.pending && s.file.Some?
    requires t == s.(file := None, finish := Cleanup(true, FINISH_COMMANDS, 0), wait := Off(s.wait),
                     status := s.status.(phase := Printing),
                     book := s.book.(truncated := t.book.truncated))
    requires t.book.truncated <==> s.file.value.rest != []
    ensures Inv(t) && Appended(s.book, t.book.(truncated := s.book.truncated))
  {
    hide OfOrigin, Tagged, Commands, Opening, Inflight;
    assert Body(t.book) == Body(s.book);
    assert Body(t.book) + FINISH_COMMANDS[..0] == Body(t.book);
  }

  lemma DroppedFrame(s: Service)
    ensures Dropped(s).abort == s.abort && Dropped(s).status == s.status && Dropped(s).job.nozzle == s.job.nozzle
  {
  }

  lemma FileAdvancedKeeps(s: Service, readFails: bool, broken: bool)
    requires Inv(s) && s.job.active && s.job.stage == Streaming && !s.finish.pending
    requires CanSend(s.flow) && Inflight(s.flow) < JOB_WINDOW
    ensures Inv(FileAdvanced(s, readFails, broken)) && AppendedReading(s.book, FileAdvanced(s, readFails, broken).book, readFails)
  {
    hide CanSend, Inflight, ItemSent, OnTrack, Dropped, Appended;
    assert !s.abort.pending;
    hide Inv;
    DroppedFrame(s);
    if s.file == None {
      DroppedKeeps(s, Dropped(s));
      StatusMayChange(Dropped(s), FaultedWith(s.status, StorageFault), Dropped(s).wait);
      AppendedIsReading(s.book, Dropped(s).book, readFails);
    } else if s.file.value.rest != [] && !readFails {
      ItemSentKeeps(s, broken);
      AppendedIsReading(s.book, ItemSent(s, broken).book, readFails);
    } else {
      FinishBegunKeeps(s, FileAdvanced(s, readFails, broken));
    }
  }

  lemma StreamPolledKeeps(s: Service, readFails: bool, broken: bool)
    requires Inv(s) && s.job.active && s.job.stage == Streaming && !s.finish.pending
    ensures Inv(StreamPolled(s, readFails, broken)) && AppendedReading(s.book, StreamPolled(s, readFails, broken).book, readFails)
  {
    hide CanSend, HasPendingBarrier, Inflight, FileAdvanced, Heated, OnTrack, Appended;
    assert !s.abort.pending;
    hide Inv;
    AppendedSelf(s.book);
    StatusMayChange(s, Waiting(s.wait, s.status), s.wait);
    StatusMayChange(s, s.status, Off(s.wait));
    if Heated(s.wait, s.status) && !HasPendingBarrier(s.flow) && CanSend(s.flow) && Inflight(s.flow) < JOB_WINDOW {
      FileAdvancedKeeps(s.(wait := Off(s.wait)), readFails, broken);
    }
  }

  lemma StreamerPolledKeeps(s: Service, readFails: bool, broken: nat)
    requires Inv(s)
    ensures Inv(StreamerPolled(s, readFails, broken))
    ensures AppendedReading(s.book, StreamerPolled(s, readFails, broken).book, readFails)
  {
    hide StreamPolled, PreparePolled, OnTrack, Inflight, Tagged, Appended;
    AppendedSelf(s.book);
    var t := StreamerPolled(s, readFails, broken);
    if !s.job.active {
      Same(s, t);
    } else if s.status.phase == Broken {
      ClearEmpties(s.flow);
      JobMayEnd(s, t);
    } else if s.status.phase == Paused || s.status.phase == Pausing {
    } else if s.finish.pending {
      Same(s, t);
    } else if s.job.stage != Streaming {
      PreparePolledKeeps(s, broken);
      AppendedIsReading(s.book, PreparePolled(s, broken).book, readFails);
    } else {
      StreamPolledKeeps(s, readFails, broken == 0);
    }
  }

  lemma JobPolledKeeps(s: Service, readFails: bool, broken: nat)
    requires Inv(s)
    ensures Inv(JobPolled(s, readFails, broken)) && AppendedReading(s.book, JobPolled(s, readFails, broken).book, readFails)
  {
    hide Inv, Aborted, QueuePolled, StreamerPolled, Appended;
    AppendedSelf(s.book);
    AbortedKeeps(s);
    AppendedIsReading(s.book, Aborted(s).book, readFails);
    QueuePolledKeeps(s, broken);
    AppendedIsReading(s.book, QueuePolled(s, broken).0.book, readFails);
    StreamerPolledKeeps(s, readFails, broken);
  }

  // ---- The controller's lines ----

  lemma WatchedHalts(s: Status, w: HeaterWait, r: Reading)
    requires Halting(s) && !w.active
    ensures Halting(Watched(s, w, r).0) && !Watched(s, w, r).1.active
  {
  }

  lemma WatchedNotFinished(s: Status, w: HeaterWait, r: Reading)
    ensures Watched(s, w, r).0.phase == Finished ==> s.phase == Finished
  {
  }

  /** A line changes only the status, the wait and the flow. */
  lemma LineSeenFrame(s: Service, line: string, allow: bool, resendFails: bool)
    ensures var t, w, st := LineSeen(s, line, allow, resendFails).0, Watched(s.status, s.wait, s.env.reading(line)),
                            Handle(s.flow, ReplyOf(s.env, line)).0;
      && t == s.(flow := t.flow, status := t.status, wait := w.1)
      && (t.status == w.0 || t.status.phase == Broken) && (t.flow == st || t.flow == Resync(st))
  {
    hide Handle, ReplyOf, Resync, Watched;
  }

  lemma LineSeenKeeps(s: Service, line: string, allow: bool, resendFails: bool)
    requires Inv(s)
    ensures var t := LineSeen(s, line, allow, resendFails).0;
      && Inv(t) && Inflight(t.flow) <= Inflight(s.flow)
      && t == s.(flow := t.flow, status := t.status, wait := t.wait)
  {
    hide OnTrack, Handle, ReplyOf, Inflight, Resync, Watched, LineSeen;
    assert Inflight(s.flow) <= STREAM_WINDOW;
    assert s.abort.pending && !s.book.disturbed ==> Halting(s.status) && !s.wait.active;
    hide Inv;
    LineSeenFrame(s, line, allow, resendFails);
    var reply, t := ReplyOf(s.env, line), LineSeen(s, line, allow, resendFails).0;
    HandleNeverAddsInflight(s.flow, reply);
    ClearEmpties(Handle(s.flow, reply).0);
    FlowMayChange(s, t.flow);
    if s.abort.pending && !s.book.disturbed {
      WatchedHalts(s.status, s.wait, s.env.reading(line));
    }
    WatchedNotFinished(s.status, s.wait, s.env.reading(line));
    StatusMayChange(s.(flow := t.flow), t.status, t.wait);
  }

  lemma {:induction false} LinesSeenKeeps(s: Service, lines: seq<string>, allow: bool, resendFails: seq<bool>)
    requires Inv(s)
    ensures var t := LinesSeen(s, lines, allow, resendFails).0;
      && Inv(t) && Inflight(t.flow) <= Inflight(s.flow)
      && t == s.(flow := t.flow, status := t.status, wait := t.wait)
    decreases |lines|
  {
    hide Inv, LineSeen, Inflight;
    if lines != [] {
      var fails := |resendFails| > 0 && resendFails[0];
      LineSeenKeeps(s, lines[0], allow, fails);
      var r := LineSeen(s, lines[0], allow, fails);
      if !r.1 {
        LinesSeenKeeps(r.0, lines[1..], allow, if resendFails == [] then [] else resendFails[1..]);
      }
    }
  }

  // ---- Probes ----

  /** While an abort is under way, something is in flight or the controller takes nothing. */
  predicate AbortHolds(s: Service) {
    s.abort.pending ==> Inflight(s.flow) > 0 || !CanSend(s.flow)
  }

  /** A probe keeps the invariant, and does not come between the commands of an abort. */
  predicate ProbeKeeps(s: Service, t: Service) {
    && Inv(t) && AbortHolds(t) && Appended(s.book, t.book) && t.abort == s.abort
    && (s.abort.pending ==> t.book == s.book)
  }

  lemma ProbeSentKeeps(s: Service, commands: seq<string>, broken: nat)
    requires Inv(s) && AbortHolds(s) && Inflight(s.flow) == 0 && |commands| <= STREAM_WINDOW
    ensures ProbeKeeps(s, ProbeSent(s, commands, broken).0)
  {
    hide CanSend, SendList, Inflight, Appended;
    assert ListKept(s.pause, s.pause, false, []) && ListKept(s.resume, s.resume, false, []);
    hide OnTrack;
    SendListFacts(s.flow, commands, 0, false, broken);
    var r := SendList(s.flow, commands, 0, false, broken);
    Untouched(s, ProbeSent(s, commands, broken).0, FromProbe, commands[0..r.index]);
    RecordNothing(s.book, FromProbe);
    assert commands[0..0] == [];
  }

  /** Changes to the polling counters only. */
  lemma PollingMayChange(s: Service, polling: Polling)
    requires Inv(s)
    ensures Inv(s.(polling := polling))
    ensures AbortHolds(s) ==> AbortHolds(s.(polling := polling))
  {
    hide Log, Tagged, Inflight, Body;
  }

  lemma StartupProbedKeeps(s: Service, broken: nat)
    requires Inv(s) && AbortHolds(s)
    ensures ProbeKeeps(s, StartupProbed(s, broken).0)
  {
    hide Inv, ProbeSent, Inflight, CanSend, AbortHolds, Appended;
    AppendedSelf(s.book);
    if s.ready && s.polling.startup && Inflight(s.flow) == 0 {
      ProbeSentKeeps(s, STARTUP_PROBE, broken);
      var r := ProbeSent(s, STARTUP_PROBE, broken);
      PollingMayChange(r.0, StartupProbed(s, broken).0.polling);
    }
  }

  lemma TemperatureProbedKeeps(s: Service, broken: nat)
    requires Inv(s) && AbortHolds(s)
    ensures ProbeKeeps(s, TemperatureProbed(s, broken).0)
  {
    hide Inv, ProbeSent, Inflight, CanSend, AbortHolds, Appended;
    AppendedSelf(s.book);
    PollingMayChange(s, TemperatureProbed(s, broken).0.polling);
    if s.ready && !s.polling.startup && Inflight(s.flow) == 0 {
      ProbeSentKeeps(s, STATUS_PROBE, broken);
      var r := ProbeSent(s, STATUS_PROBE, broken);
      PollingMayChange(r.0, TemperatureProbed(s, broken).0.polling);
    }
  }

  /** The state when the firmware version has been asked for. */
  function FirmwareAsked(s: Service, flow: State): Service {
    s.(flow := flow, book := Recorded(s.book, FromProbe, ["M115"]))
  }

  lemma FirmwareAskedKeeps(s: Service, flow: State)
    requires Inv(s) && !s.abort.pending && Inflight(flow) <= STREAM_WINDOW
    ensures ProbeKeeps(s, FirmwareAsked(s, flow))
  {
    hide Inflight, OnTrack, Tagged, Appended;
    Untouched(s, FirmwareAsked(s, flow), FromProbe, ["M115"]);
  }

  lemma FirmwareProbedKeeps(s: Service, broken: bool)
    requires Inv(s) && AbortHolds(s)
    ensures ProbeKeeps(s, FirmwareProbed(s, broken).0)
  {
    hide CanSend, SendOne, Inflight, Inv, Appended;
    AppendedSelf(s.book);
    var t, r := FirmwareProbed(s, broken).0, SendOne(s.flow, "M115", broken);
    PollingMayChange(s, t.polling);
    if !s.abort.pending && Inflight(s.flow) == 0 {
      SendOneFacts(s.flow, "M115", broken);
      FirmwareAskedKeeps(s, r.0);
      PollingMayChange(FirmwareAsked(s, r.0), t.polling);
      FlowMayChange(s, r.0);
      PollingMayChange(s.(flow := r.0), t.polling);
    }
  }

  lemma ProbedKeeps(s: Service, luck: Luck)
    requires Inv(s) && AbortHolds(s)
    ensures ProbeKeeps(s, Probed(s, luck).0)
  {
    hide Inv, StartupProbed, FirmwareProbed, TemperatureProbed, AbortHolds, Appended;
    StartupProbedKeeps(s, luck.startup);
    var c := StartupProbed(s, luck.startup).0;
    FirmwareProbedKeeps(c, luck.firmware);
    var d := FirmwareProbed(c, luck.firmware).0;
    TemperatureProbedKeeps(d, luck.temperature);
    AppendedTwice(s.book, c.book, d.book);
    AppendedTwice(s.book, d.book, Probed(s, luck).0.book);
  }

  lemma FaultCheckedKeeps(s: Service)
    requires Inv(s)
    ensures Inv(FaultChecked(s)) && Appended(s.book, FaultChecked(s).book)
  {
    hide Inv, Appended, Aborted;
    AbortedKeeps(s);
    AppendedSelf(s.book);
  }

  lemma AbortStillHolds(p: Service, q: Service)
    requires q.abort == p.abort && (p.abort.pending ==> q == p && (Inflight(p.flow) > 0 || !CanSend(p.flow)))
    ensures AbortHolds(FirmwareNoted(Refreshed(q)))
  {
  }

  lemma TendedKeeps(s: Service, luck: Luck)
    requires Inv(s)
    ensures Inv(Tended(s, luck).0) && Appended(s.book, Tended(s, luck).0.book)
  {
    hide Inv, FaultChecked, PauseResumePolled, AbortPolled, FinishPolled, Refreshed, Probed, CanSend, Inflight,
         Appended, AbortHolds;
    var k := FaultChecked(s);
    FaultCheckedKeeps(s);
    PauseResumePolledKeeps(k, luck.one, luck.list);
    var a := PauseResumePolled(k, luck.one, luck.list);
    AppendedTwice(s.book, k.book, a.book);
    AbortPolledKeeps(a, luck.abort);
    var p := AbortPolled(a, luck.abort);
    AppendedTwice(s.book, a.book, p.book);
    FinishPolledKeeps(p, luck.finish);
    FinishAfterAbort(p, luck.finish);
    var q := FinishPolled(p, luck.finish);
    AppendedTwice(s.book, p.book, q.book);
    RefreshedKeeps(q);
    PollingMayChange(Refreshed(q), FirmwareNoted(Refreshed(q)).polling);
    var b := FirmwareNoted(Refreshed(q));
    AbortStillHolds(p, q);
    ProbedKeeps(b, luck);
    AppendedTwice(s.book, b.book, Probed(b, luck).0.book);
  }

  /** An abort leaves nothing to finish. */
  lemma FinishAfterAbort(s: Service, broken: nat)
    requires Inv(s)
    ensures s.abort.pending ==> FinishPolled(s, broken) == s
    ensures FinishPolled(s, broken).abort == s.abort
  {
    hide SendList, Inflight;
  }

  lemma MotionPolledKeeps(s: Service, lines: seq<string>, lineBroken: bool, luck: Luck)
    requires Inv(s)
    ensures var t := MotionPolled(s, lines, lineBroken, luck).0; Inv(t) && Appended(s.book, t.book)
  {
    hide Inv, LinesSeen, Tended, AbortHolds, Appended;
    LinesSeenKeeps(s, lines, AllowResync(s), luck.resendFails);
    TendedKeeps(if s.ready then LinesSeen(s, lines, AllowResync(s), luck.resendFails).0 else s, luck);
  }
}
