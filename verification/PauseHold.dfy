/** What a pause does to a running job: when the job submits nothing more, and when it goes on. */
module PauseHold {
  import opened FlowState
  import opened GcodeStream
  import opened MarlinPacket
  import opened MotionPolicy
  import opened MotionSender
  import opened PrintStatus
  import opened ServiceRun
  import opened ServiceSafety
  import opened ServiceState

  // ---- Who submits ----

  /** The history grows by nothing but commands of these origins. */
  predicate Only(b: Book, c: Book, origins: set<Origin>) {
    b.trace <= c.trace && forall k :: |b.trace| <= k < |c.trace| ==> c.trace[k].origin in origins
  }

  /** The job submits nothing. */
  predicate JobSilent(b: Book, c: Book) {
    b.trace <= c.trace && forall k :: |b.trace| <= k < |c.trace| ==> c.trace[k].origin != FromJob
  }

  lemma OnlySelf(b: Book, origins: set<Origin>)
    ensures Only(b, b, origins)
  {
  }

  lemma OnlyTwice(b: Book, c: Book, d: Book, origins: set<Origin>)
    requires Only(b, c, origins) && Only(c, d, origins)
    ensures Only(b, d, origins)
  {
  }

  lemma OnlyRecorded(b: Book, who: Origin, commands: seq<string>, origins: set<Origin>)
    requires who in origins
    ensures Only(b, Recorded(b, who, commands), origins)
  {
  }

  lemma OnlyOthers(b: Book, c: Book, origins: set<Origin>)
    requires Only(b, c, origins) && FromJob !in origins
    ensures JobSilent(b, c)
  {
  }

  /** Every origin but the job. */
  const OTHERS: set<Origin> := {FromAbort, FromPause, FromResume, FromQueue, FromMacro, FromProbe}

  lemma PositionOnly(s: Service, broken: bool)
    ensures Only(s.book, PositionPolled(s, broken).0.book, OTHERS)
  {
    hide SendList, Inflight, Recorded, PauseCommands, Only;
    OnlySelf(s.book, OTHERS);
    var r := SendList(s.flow, ["M114"], 0, true, if broken then 0 else 1);
    if r.index <= 1 {
      OnlyRecorded(s.book, FromPause, ["M114"][0..r.index], OTHERS);
    }
    OnlyMarked(s.book, |s.book.trace|);
  }

  lemma OnlyMarked(b: Book, mark: nat)
    ensures Only(b, b.(pauseMark := mark), OTHERS)
  {
  }

  lemma ListOnly(s: Service, c: Cleanup, origin: Origin, broken: nat)
    requires origin in OTHERS
    ensures Only(s.book, ListPolled(s, c, origin, broken).0.book, OTHERS)
  {
    hide SendList, Inflight, Recorded, Only;
    OnlySelf(s.book, OTHERS);
    var r := SendList(s.flow, c.policy, c.index, true, broken);
    if c.index <= r.index <= |c.policy| {
      OnlyRecorded(s.book, origin, c.policy[c.index..r.index], OTHERS);
    }
  }

  lemma HeatOnly(s: Service, broken: bool)
    ensures Only(s.book, HeatSent(s, broken).0.book, OTHERS)
  {
    hide SendList, Inflight, Recorded, Only, Waiting;
    OnlySelf(s.book, OTHERS);
    if s.resume.policy != [] {
      var first := s.resume.policy[..1];
      var r := SendList(s.flow, first, 0, true, if broken then 0 else 1);
      if r.index <= 1 {
        OnlyRecorded(s.book, FromResume, first[0..r.index], OTHERS);
      }
    }
  }

  lemma ListsOnly(s: Service, one: bool, list: nat)
    ensures Only(s.book, PauseResumePolled(s, one, list).book, OTHERS)
  {
    hide PositionPolled, ListPolled, HeatSent, Only, Waiting, Heated;
    OnlySelf(s.book, OTHERS);
    PositionOnly(s, one);
    PositionNeverGoesOn(s, one);
    ListOnly(s, s.pause, FromPause, list);
    HeatOnly(s, one);
    var heating := s.resume.pending && !s.wait.active && s.resume.index == 0 && s.saved.nozzle > 0.0;
    var t := if heating then HeatSent(s, one).0 else s;
    ListOnly(t, t.resume, FromResume, list);
    ListOnly(t.(wait := Off(t.wait)), t.resume, FromResume, list);
    OnlyTwice(s.book, t.book, ListPolled(t, t.resume, FromResume, list).0.book, OTHERS);
    OnlyTwice(s.book, t.book, ListPolled(t.(wait := Off(t.wait)), t.resume, FromResume, list).0.book, OTHERS);
  }

  lemma AbortOnly(s: Service, broken: nat)
    ensures Only(s.book, AbortPolled(s, broken).book, OTHERS)
  {
    hide SendList, Inflight, Recorded, Only;
    OnlySelf(s.book, OTHERS);
    var r := SendList(s.flow, s.abort.policy, s.abort.index, true, broken);
    if s.abort.index <= r.index <= |s.abort.policy| {
      OnlyRecorded(s.book, FromAbort, s.abort.policy[s.abort.index..r.index], OTHERS);
    }
  }

  lemma ProbeOnly(s: Service, commands: seq<string>, broken: nat)
    ensures Only(s.book, ProbeSent(s, commands, broken).0.book, OTHERS)
  {
    hide SendList, Recorded, Only;
    OnlySelf(s.book, OTHERS);
    var r := SendList(s.flow, commands, 0, false, broken);
    if r.index <= |commands| {
      OnlyRecorded(s.book, FromProbe, commands[0..r.index], OTHERS);
    }
  }

  lemma ProbesOnly(s: Service, luck: Luck)
    ensures Only(s.book, Probed(s, luck).0.book, OTHERS)
  {
    hide ProbeSent, SendOne, Inflight, Recorded, Only, FirmwareProbed;
    OnlySelf(s.book, OTHERS);
    ProbeOnly(s, STARTUP_PROBE, luck.startup);
    var c := StartupProbed(s, luck.startup).0;
    FirmwareOnly(c, luck.firmware);
    var d := FirmwareProbed(c, luck.firmware).0;
    OnlySelf(d.book, OTHERS);
    ProbeOnly(d, STATUS_PROBE, luck.temperature);
    OnlyTwice(s.book, c.book, d.book, OTHERS);
    OnlyTwice(s.book, d.book, Probed(s, luck).0.book, OTHERS);
  }

  lemma FirmwareOnly(s: Service, broken: bool)
    ensures Only(s.book, FirmwareProbed(s, broken).0.book, OTHERS)
  {
    hide SendOne, Inflight, Recorded, Only;
    OnlySelf(s.book, OTHERS);
    OnlyRecorded(s.book, FromProbe, ["M115"], OTHERS);
  }

  lemma {:induction false} QueueOnly(s: Service, broken: nat)
    ensures Only(s.book, QueueSent(s, broken).0.book, OTHERS)
    decreases |s.queue.items| - s.queue.index
  {
    hide SendOne, Open, HeaterSet, Waiting, Recorded, Only, Refreshed;
    OnlySelf(s.book, OTHERS);
    RefreshedBook(s.(queue := NO_QUEUE));
    if s.queue.index < |s.queue.items| && Open(s.flow) {
      var item := s.queue.items[s.queue.index];
      var r := SendOne(s.flow, item.command, broken == s.queue.index);
      var u := QueueItemSent(s.(flow := r.0), item);
      OnlyRecorded(s.book, FromQueue, [item.command], OTHERS);
      QueueOnly(u, broken);
      OnlyTwice(s.book, u.book, QueueSent(u, broken).0.book, OTHERS);
    }
  }

  lemma RefreshedBook(s: Service)
    ensures Refreshed(s).book == s.book && Refreshed(s).flow == s.flow && Refreshed(s).job == s.job
  {
  }

  // ---- The polls ----

  /** The state in which a motion poll comes to the finishing list. */
  function BeforeFinish(s: Service, lines: seq<string>, luck: Luck): Service {
    var r := if s.ready then LinesSeen(s, lines, AllowResync(s), luck.resendFails).0 else s;
    AbortPolled(PauseResumePolled(FaultChecked(r), luck.one, luck.list), luck.abort)
  }

  /** The finishing list has a next command and the way is clear for it. */
  predicate FinishMoves(s: Service, broken: nat) {
    s.finish.pending && s.finish.index < |s.finish.policy| && Open(s.flow) && broken != s.finish.index
  }

  lemma SoundSends(st: State, command: string, broken: bool)
    requires CanSend(st) && 0 < |command| <= 255
    ensures SendOne(st, command, broken).1 == Sent <==> !broken
  {
  }

  lemma ListMovesIff(st: State, commands: seq<string>, i: nat, broken: nat)
    requires i <= |commands| && Sound(commands)
    ensures i <= SendList(st, commands, i, true, broken).index <= |commands|
    ensures SendList(st, commands, i, true, broken).index > i <==> i < |commands| && Open(st) && broken != i
  {
    hide CanSend, SendOne, HasPendingBarrier, Inflight;
    SendListFacts(st, commands, i, true, broken);
    if i < |commands| && Open(st) {
      SoundSends(st, commands[i], broken == i);
      if broken != i {
        SendListFacts(SendOne(st, commands[i], false).0, commands, i + 1, true, broken);
      }
    }
  }

  lemma FinishIsSound()
    ensures Sound(FINISH_COMMANDS)
  {
  }

  lemma RecordedIsSilentIff(b: Book, commands: seq<string>)
    ensures JobSilent(b, Recorded(b, FromJob, commands)) <==> commands == []
  {
    if commands != [] {
      assert Recorded(b, FromJob, commands).trace[|b.trace|].origin == FromJob;
    }
  }

  lemma FinishSendsIff(s: Service, broken: nat)
    requires Inv(s)
    ensures JobSilent(s.book, FinishPolled(s, broken).book) <==> !FinishMoves(s, broken)
  {
    hide SendList, Inflight, Recorded, OnTrack, JobSilent, Open;
    RecordedIsSilentIff(s.book, []);
    RecordNothing(s.book, FromJob);
    if s.finish.pending {
      FinishPolicy(s);
      FinishIsSound();
      ListMovesIff(s.flow, s.finish.policy, s.finish.index, broken);
      var r := SendList(s.flow, s.finish.policy, s.finish.index, true, broken);
      RecordedIsSilentIff(s.book, s.finish.policy[s.finish.index..r.index]);
    }
  }

  lemma FinishPolicy(s: Service)
    requires Inv(s) && s.finish.pending
    ensures s.finish.policy == FINISH_COMMANDS && s.finish.index <= |FINISH_COMMANDS|
  {
    hide Inflight, Log;
  }

  lemma SilentAround(b: Book, c: Book, d: Book, e: Book)
    requires Only(b, c, OTHERS) && c.trace <= d.trace && Only(d, e, OTHERS)
    ensures JobSilent(b, e) <==> JobSilent(c, d)
  {
    if !JobSilent(c, d) {
      var k :| |c.trace| <= k < |d.trace| && d.trace[k].origin == FromJob;
      assert e.trace[k].origin == FromJob;
    } else {
      forall k | |b.trace| <= k < |e.trace| ensures e.trace[k].origin != FromJob {
        if k < |c.trace| {
          assert e.trace[k] == c.trace[k];
        } else if k < |d.trace| {
          assert e.trace[k] == d.trace[k];
        }
      }
    }
  }

  /** A motion poll submits something for the job exactly when the finishing list, once lines, faults, pause and
      abort have been dealt with, has a next command, no barrier is awaited and there is room. Pausing makes no
      difference to it. */
  lemma MotionSendsForJobIff(s: Service, lines: seq<string>, lineBroken: bool, luck: Luck)
    requires Inv(s)
    ensures JobSilent(s.book, MotionPolled(s, lines, lineBroken, luck).0.book)
       <==> !FinishMoves(BeforeFinish(s, lines, luck), luck.finish)
  {
    hide Inv, LinesSeen, FaultChecked, PauseResumePolled, AbortPolled, FinishPolled, Refreshed, Probed, Only, JobSilent,
         FinishMoves, Appended;
    LinesSeenKeeps(s, lines, AllowResync(s), luck.resendFails);
    var r := if s.ready then LinesSeen(s, lines, AllowResync(s), luck.resendFails).0 else s;
    FaultCheckedKeeps(r);
    FaultCheckedBook(r);
    var k := FaultChecked(r);
    PauseResumePolledKeeps(k, luck.one, luck.list);
    ListsOnly(k, luck.one, luck.list);
    var a := PauseResumePolled(k, luck.one, luck.list);
    AbortPolledKeeps(a, luck.abort);
    AbortOnly(a, luck.abort);
    var q := AbortPolled(a, luck.abort);
    OnlyTwice(s.book, k.book, a.book, OTHERS);
    OnlyTwice(s.book, a.book, q.book, OTHERS);
    FinishSendsIff(q, luck.finish);
    FinishPolledKeeps(q, luck.finish);
    var f := FinishPolled(q, luck.finish);
    AppendedGrows(q.book, f.book);
    RefreshedBook(f);
    ProbesOnly(FirmwareNoted(Refreshed(f)), luck);
    SilentAround(s.book, q.book, f.book, MotionPolled(s, lines, lineBroken, luck).0.book);
  }

  lemma AppendedGrows(b: Book, c: Book)
    requires Appended(b, c)
    ensures b.trace <= c.trace
  {
  }

  lemma FaultCheckedBook(s: Service)
    ensures Only(s.book, FaultChecked(s).book, OTHERS)
    ensures FaultChecked(s).finish == s.finish || !FaultChecked(s).finish.pending
  {
  }

  /** While the printer shows a pause, a job poll submits nothing for the job. */
  lemma PausedPollIsSilent(s: Service, readFails: bool, broken: nat)
    requires s.status.phase == Pausing || s.status.phase == Paused
    ensures JobSilent(s.book, JobPolled(s, readFails, broken).book)
  {
    hide QueueSent, PreparePolled, StreamPolled, Heated, Waiting, Only;
    QueueOnly(if s.wait.active then s.(wait := Off(s.wait)) else s, broken);
    OnlySelf(s.book, OTHERS);
    OnlyOthers(s.book, JobPolled(s, readFails, broken).book, OTHERS);
  }

  /** A line that reports no fault takes the printer out of a pause exactly when a heater wait is armed that it
      does not end. */
  lemma LineEndsPauseIff(s: Status, w: HeaterWait, r: Reading)
    requires (s.phase == Pausing || s.phase == Paused) && !r.FaultLine?
    ensures Watched(s, w, r).0.phase != s.phase <==> w.active && !Heated(w, Noted(s, r))
    ensures Watched(s, w, r).0.phase != s.phase ==> Watched(s, w, r).0.phase == Preparing
  {
  }

  // ---- A pause that holds ----

  /** A wait that a cold heater keeps up. */
  predicate Bites(w: HeaterWait) {
    w.active && ((w.bed && w.bedTarget > 0.0) || (w.head && w.headTarget > 0.0))
  }

  predicate Submittable(command: string) {
    0 < |command| <= 255
  }

  /** Sending a queue from command i on arms a wait before it comes to a command that cannot be sent. */
  predicate QueueBites(items: seq<Item>, i: nat)
    decreases |items| - i
  {
    && i < |items| && Submittable(items[i].command)
    && (((items[i].waitBed || items[i].waitNozzle) && items[i].target > 0.0) || QueueBites(items, i + 1))
  }

  predicate Restless(s: Service) {
    Bites(s.wait) || (s.queue.active && QueueBites(s.queue.items, s.queue.index))
  }

  /** A job that has finished submitting, or that the next job poll drops. */
  predicate Spent(s: Service) {
    if s.finish.pending then s.finish.index >= |s.finish.policy|
    else !s.job.active || s.abortRequested || (s.job.stage == Streaming && s.file == None)
  }

  /** Nothing is left that could make the job submit anything. */
  predicate Held(s: Service) {
    || Spent(s)
    || (!s.finish.pending && !s.resume.pending && !Restless(s)
        && (s.status.phase == Pausing || s.status.phase == Paused || s.status.phase == Broken))
  }

  lemma PauseAskedIsHeld(s: Service)
    requires s.job.active && !Busy(s) && (s.status.phase == Preparing || s.status.phase == Printing)
    ensures Held(PauseAsked(s)) <==> Spent(s) || (!s.finish.pending && !Restless(s))
  {
  }

  /** Anything but a resume, a new job, and G-code or macros by hand. */
  predicate Restful(e: Event) {
    e.Motion? || e.Poll? || e.Pause? || e.Abort? || e.OpenMotion? || e.Close? || e.LatchAbort?
  }

  predicate AllRestful(events: seq<Event>) {
    forall i :: 0 <= i < |events| ==> Restful(events[i])
  }

  lemma LineKeepsHold(s: Service, line: string, allow: bool, resendFails: bool)
    requires Held(s)
    ensures Held(LineSeen(s, line, allow, resendFails).0)
  {
    hide Handle, ReplyOf, Resync;
  }

  lemma {:induction false} LinesKeepHold(s: Service, lines: seq<string>, allow: bool, resendFails: seq<bool>)
    requires Held(s)
    ensures Held(LinesSeen(s, lines, allow, resendFails).0)
    decreases |lines|
  {
    hide Held, LineSeen;
    if lines != [] {
      var fails := |resendFails| > 0 && resendFails[0];
      LineKeepsHold(s, lines[0], allow, fails);
      var r := LineSeen(s, lines[0], allow, fails);
      if !r.1 {
        LinesKeepHold(r.0, lines[1..], allow, if resendFails == [] then [] else resendFails[1..]);
      }
    }
  }

  lemma PositionLeavesJob(s: Service, one: bool)
    ensures var t := PositionPolled(s, one).0;
      && t.job.active == s.job.active && t.job.stage == s.job.stage && t.file == s.file && t.finish == s.finish
      && t.resume == s.resume && t.queue == s.queue && t.abortRequested == s.abortRequested
      && t.wait == s.wait && (t.status.phase == s.status.phase || t.status.phase == Broken)
  {
    hide SendList, Inflight, Recorded, PauseCommands;
  }

  lemma ListLeavesJob(s: Service, c: Cleanup, origin: Origin, list: nat)
    ensures var t := ListPolled(s, c, origin, list).0;
      && t.job == s.job && t.file == s.file && t.finish == s.finish && t.resume == s.resume && t.queue == s.queue
      && t.wait == s.wait && t.abortRequested == s.abortRequested
      && (t.status == s.status || t.status.phase == Broken)
  {
    hide SendList, Inflight, Recorded;
  }

  lemma HeatLeavesJob(s: Service, one: bool)
    ensures HeatSent(s, one).0.job == s.job && HeatSent(s, one).0.finish == s.finish
    ensures HeatSent(s, one).0.file == s.file && HeatSent(s, one).0.abortRequested == s.abortRequested
  {
    hide SendList, Recorded, Waiting;
  }

  lemma ResumeLeavesJob(s: Service, one: bool, list: nat)
    ensures ResumePolled(s, one, list).job == s.job && ResumePolled(s, one, list).finish == s.finish
    ensures ResumePolled(s, one, list).file == s.file && ResumePolled(s, one, list).abortRequested == s.abortRequested
    ensures !s.resume.pending ==> ResumePolled(s, one, list) == s
  {
    hide HeatSent, ListPolled, Heated, Waiting;
    HeatLeavesJob(s, one);
    var t := if s.resume.pending && !s.wait.active && s.resume.index == 0 && s.saved.nozzle > 0.0
             then HeatSent(s, one).0 else s;
    ListLeavesJob(t, t.resume, FromResume, list);
    ListLeavesJob(t.(wait := Off(t.wait)), t.resume, FromResume, list);
  }

  lemma ListsKeepHold(s: Service, one: bool, list: nat)
    requires Held(s)
    ensures Held(PauseResumePolled(s, one, list))
  {
    hide PositionPolled, ListPolled, ResumePolled;
    PositionNeverGoesOn(s, one);
    PositionLeavesJob(s, one);
    ListLeavesJob(s, s.pause, FromPause, list);
    ResumeLeavesJob(s, one, list);
  }

  lemma AbortKeepsHold(s: Service, broken: nat)
    requires Held(s)
    ensures Held(FaultChecked(s)) && Held(Aborted(s)) && (Inv(s) ==> Held(AbortPolled(s, broken)))
  {
    hide SendList, Inflight, Recorded, OnTrack;
  }

  lemma FinishKeepsHold(s: Service, broken: nat)
    requires Held(s)
    ensures Held(FinishPolled(s, broken)) && Held(Refreshed(s))
  {
    hide Restless;
  }

  lemma ProbesKeepHold(s: Service, luck: Luck)
    requires Held(s)
    ensures Held(Probed(s, luck).0) && Held(FirmwareNoted(s))
  {
    hide SendList, SendOne, Inflight, Recorded;
  }

  /** While a pause holds, nothing but a resume, a new job or commands by hand ends it, and the job submits nothing. */
  lemma MotionKeepsHold(s: Service, lines: seq<string>, lineBroken: bool, luck: Luck)
    requires Inv(s) && Held(s)
    ensures var t := MotionPolled(s, lines, lineBroken, luck).0; Held(t) && JobSilent(s.book, t.book)
  {
    hide Inv, Held, LinesSeen, FaultChecked, PauseResumePolled, AbortPolled, FinishPolled, Refreshed, Probed, JobSilent,
         FinishMoves;
    LinesKeepHold(s, lines, AllowResync(s), luck.resendFails);
    LinesSeenKeeps(s, lines, AllowResync(s), luck.resendFails);
    var r := if s.ready then LinesSeen(s, lines, AllowResync(s), luck.resendFails).0 else s;
    AbortKeepsHold(r, luck.abort);
    FaultCheckedKeeps(r);
    var k := FaultChecked(r);
    ListsKeepHold(k, luck.one, luck.list);
    PauseResumePolledKeeps(k, luck.one, luck.list);
    var a := PauseResumePolled(k, luck.one, luck.list);
    AbortKeepsHold(a, luck.abort);
    var q := AbortPolled(a, luck.abort);
    FinishKeepsHold(q, luck.finish);
    var f := FinishPolled(q, luck.finish);
    FinishKeepsHold(f, luck.finish);
    ProbesKeepHold(Refreshed(f), luck);
    ProbesKeepHold(FirmwareNoted(Refreshed(f)), luck);
    NothingToFinish(q, luck.finish);
    MotionSendsForJobIff(s, lines, lineBroken, luck);
  }

  lemma NothingToFinish(s: Service, broken: nat)
    requires Held(s)
    ensures !FinishMoves(s, broken)
  {
  }

  lemma PollKeepsHold(s: Service, readFails: bool, broken: nat)
    requires Inv(s) && Held(s)
    ensures var t := JobPolled(s, readFails, broken); Held(t) && JobSilent(s.book, t.book)
  {
    hide QueuePolled, StreamerPolled, Aborted, Held, JobSilent;
    AbortKeepsHold(s, 0);
    AbortedBook(s);
    SameTraceIsSilent(s.book, JobPolled(s, readFails, broken).book);
    QueueKeepsHold(s, broken);
    if !s.abortRequested {
      StreamerKeepsHold(s, readFails, broken);
    }
  }

  lemma QueueKeepsHold(s: Service, broken: nat)
    requires Inv(s) && Held(s)
    ensures Held(QueuePolled(s, broken).0) && JobSilent(s.book, QueuePolled(s, broken).0.book)
  {
    hide Inv, QueueSent, QueueBites, Only;
    var q := if s.wait.active then s.(wait := Off(s.wait)) else s;
    QueueOnly(q, broken);
    OnlySelf(s.book, OTHERS);
    OnlyOthers(s.book, QueuePolled(s, broken).0.book, OTHERS);
    QueueLeavesJob(q, broken);
    if s.queue.active && !Restless(s) {
      QueueStaysCalm(q, broken);
    }
  }

  lemma StreamerKeepsHold(s: Service, readFails: bool, broken: nat)
    requires Inv(s) && Held(s) && !s.abortRequested
    ensures var t := StreamerPolled(s, readFails, broken); Held(t) && t.book.trace == s.book.trace
  {
    hide QueueBites, Inflight, CanSend, HasPendingBarrier, Log, PreparePolled;
  }

  /** A queue without a wait that bites, or cut off before one, arms none. */
  lemma {:induction false} QueueStaysCalm(s: Service, broken: nat)
    requires s.queue.active && !Restless(s)
    ensures var t := QueueSent(s, broken).0;
      !Restless(t) && t.resume == s.resume && (s.job.active ==> t.status.phase == s.status.phase)
    decreases |s.queue.items| - s.queue.index
  {
    hide SendOne, Open, HeaterSet, Recorded;
    if s.queue.index < |s.queue.items| && Open(s.flow) {
      var item := s.queue.items[s.queue.index];
      var r := SendOne(s.flow, item.command, broken == s.queue.index);
      HeaterKeepsPhase(s.env, s.status, item.command);
      OnlySoundIsSent(s.flow, item.command, broken == s.queue.index);
      if r.1 == Sent {
        QueueStaysCalm(QueueItemSent(s.(flow := r.0), item), broken);
      }
    }
  }

  lemma HeaterKeepsPhase(env: Env, s: Status, line: string)
    ensures HeaterSet(env, s, line).phase == s.phase
  {
  }

  lemma OnlySoundIsSent(st: State, command: string, broken: bool)
    ensures SendOne(st, command, broken).1 == Sent ==> Submittable(command)
  {
  }

  lemma {:induction false} QueueLeavesJob(s: Service, broken: nat)
    ensures QueueSent(s, broken).0.job == s.job && QueueSent(s, broken).0.finish == s.finish
    ensures QueueSent(s, broken).0.file == s.file && QueueSent(s, broken).0.abortRequested == s.abortRequested
    decreases |s.queue.items| - s.queue.index
  {
    hide SendOne, Open, HeaterSet, Waiting, Recorded;
    if s.queue.index < |s.queue.items| && Open(s.flow) {
      var item := s.queue.items[s.queue.index];
      var r := SendOne(s.flow, item.command, broken == s.queue.index);
      QueueLeavesJob(QueueItemSent(s.(flow := r.0), item), broken);
    }
  }

  lemma StepKeepsHold(s: Service, e: Event)
    requires Inv(s) && Held(s) && Restful(e)
    ensures Held(Step(s, e)) && JobSilent(s.book, Step(s, e).book)
  {
    hide Held, JobSilent, Inv, MotionPolled, JobPolled, Aborted, PauseAsked, Opened, Closed;
    if e.Motion? {
      MotionKeepsHold(s, e.lines, e.lineBroken, e.luck);
    } else if e.Poll? {
      PollKeepsHold(s, e.readFails, e.broken);
    } else {
      RequestsKeepHold(s);
      AbortKeepsHold(s, 0);
      AbortedBook(s);
      SameTraceIsSilent(s.book, Step(s, e).book);
    }
  }

  lemma SameTraceIsSilent(b: Book, c: Book)
    ensures b.trace == c.trace ==> JobSilent(b, c)
  {
  }

  /** What is asked of the service from outside neither ends the hold nor submits anything. */
  lemma RequestsKeepHold(s: Service)
    requires Held(s)
    ensures Held(PauseAsked(s)) && PauseAsked(s).book.trace == s.book.trace
    ensures Held(Closed(s)) && Closed(s).book.trace == s.book.trace
    ensures Held(s.(abortRequested := true))
    ensures forall ok: bool :: Held(Opened(s, ok)) && Opened(s, ok).book.trace == s.book.trace
  {
  }

  lemma AbortedBook(s: Service)
    ensures Aborted(s).book.trace == s.book.trace
  {
  }

  /** A job that is held submits nothing, whatever lines, polls, further pauses, aborts and closings follow, until it
      is resumed or commands are given by hand. */
  lemma {:induction false} PauseHoldsJob(s: Service, events: seq<Event>)
    requires Inv(s) && Held(s) && AllRestful(events)
    ensures Held(Run(s, events)) && JobSilent(s.book, Run(s, events).book)
  {
    hide Inv, Held, Step, Restful;
    if events != [] {
      var n := |events| - 1;
      PauseHoldsJob(s, events[..n]);
      RunKeeps(s, events[..n]);
      StepKeepsHold(Run(s, events[..n]), events[n]);
    }
  }
}
