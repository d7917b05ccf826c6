/** Heaters and a print: while one that a job waits for is cold the job submits nothing, and when it is warm it goes on. */
module HeatHold {
  import opened FlowState
  import opened GcodeStream
  import opened MarlinPacket
  import opened MotionPolicy
  import opened MotionSender
  import opened PauseHold
  import opened PrintStatus
  import opened ResumePlace
  import opened ServiceRun
  import opened ServiceSafety
  import opened ServiceState

  // ---- Cold and warm ----

  /** The wait is for this heater, which is more than one degree below its target. */
  predicate Chilly(s: Status, w: HeaterWait, bed: bool) {
    w.active && if bed then w.bed && w.bedTarget > 0.0 && s.bedNow < w.bedTarget - 1.0
                else w.head && w.headTarget > 0.0 && s.headNow < w.headTarget - 1.0
  }

  lemma WarmIff(s: Status, w: HeaterWait)
    ensures Heated(w, s) <==> !Chilly(s, w, true) && !Chilly(s, w, false)
  {
  }

  /** A job waits for a cold heater, or there is none any more. */
  predicate Frozen(s: Service, w: HeaterWait, bed: bool) {
    && !s.finish.pending && !s.resume.pending && !s.queue.active
    && (s.job.active ==> (s.job.stage == Streaming || s.job.stage == Heating) && s.wait == w && Chilly(s.status, w, bed))
  }

  /** The line does not report that the heater has come within one degree of its target. */
  predicate StaysCold(r: Reading, w: HeaterWait, bed: bool) {
    r.Temperatures? ==> if bed then r.bed.Some? ==> r.bed.value.now < w.bedTarget - 1.0
                        else r.head.Some? ==> r.head.value.now < w.headTarget - 1.0
  }

  predicate AllStayCold(env: Env, lines: seq<string>, w: HeaterWait, bed: bool) {
    forall i :: 0 <= i < |lines| ==> StaysCold(env.reading(lines[i]), w, bed)
  }

  lemma LineKeepsFrozen(s: Service, line: string, allow: bool, resendFails: bool, w: HeaterWait, bed: bool)
    requires Frozen(s, w, bed) && StaysCold(s.env.reading(line), w, bed)
    ensures Frozen(LineSeen(s, line, allow, resendFails).0, w, bed) && LineSeen(s, line, allow, resendFails).0.env == s.env
  {
    hide Handle, ReplyOf, Resync, Watched;
    if s.job.active {
      WatchedStaysCold(s.status, w, s.env.reading(line), bed);
    }
  }

  lemma WatchedStaysCold(s: Status, w: HeaterWait, r: Reading, bed: bool)
    requires Chilly(s, w, bed) && StaysCold(r, w, bed)
    ensures Watched(s, w, r).1 == w && Chilly(Watched(s, w, r).0, w, bed)
  {
  }

  lemma {:induction false} LinesKeepFrozen(s: Service, lines: seq<string>, allow: bool, fails: seq<bool>, w: HeaterWait, bed: bool)
    requires Frozen(s, w, bed) && AllStayCold(s.env, lines, w, bed)
    ensures Frozen(LinesSeen(s, lines, allow, fails).0, w, bed) && LinesSeen(s, lines, allow, fails).0.env == s.env
    decreases |lines|
  {
    hide Frozen, LineSeen, StaysCold;
    if lines != [] {
      var first := |fails| > 0 && fails[0];
      LineKeepsFrozen(s, lines[0], allow, first, w, bed);
      var r := LineSeen(s, lines[0], allow, first);
      if !r.1 {
        LinesKeepFrozen(r.0, lines[1..], allow, if fails == [] then [] else fails[1..], w, bed);
      }
    }
  }

  lemma PositionKeepsFrozen(s: Service, one: bool, w: HeaterWait, bed: bool)
    requires Frozen(s, w, bed)
    ensures Frozen(PositionPolled(s, one).0, w, bed) && PositionPolled(s, one).0.env == s.env
  {
    hide SendList, Inflight, Recorded, PauseCommands;
  }

  lemma ListKeepsFrozen(s: Service, list: nat, w: HeaterWait, bed: bool)
    requires Frozen(s, w, bed)
    ensures Frozen(PausePolled(s, list), w, bed) && PausePolled(s, list).env == s.env
  {
    hide SendList, Inflight, Recorded;
  }

  lemma ListsKeepFrozen(s: Service, one: bool, list: nat, w: HeaterWait, bed: bool)
    requires Frozen(s, w, bed)
    ensures Frozen(PauseResumePolled(s, one, list), w, bed) && PauseResumePolled(s, one, list).env == s.env
  {
    hide PositionPolled, PausePolled, ListPolled, HeatSent, Heated;
    PositionNeverGoesOn(s, one);
    PositionKeepsFrozen(s, one, w, bed);
    ListKeepsFrozen(s, list, w, bed);
  }

  lemma AbortKeepsFrozen(s: Service, broken: nat, w: HeaterWait, bed: bool)
    requires Frozen(s, w, bed)
    ensures Frozen(FaultChecked(s), w, bed) && Frozen(Aborted(s), w, bed) && Frozen(Refreshed(s), w, bed)
    ensures Inv(s) ==> Frozen(AbortPolled(s, broken), w, bed)
    ensures FinishPolled(s, broken) == s
  {
    hide SendList, Inflight, Recorded, OnTrack;
  }

  lemma ProbesKeepFrozen(s: Service, luck: Luck, w: HeaterWait, bed: bool)
    requires Frozen(s, w, bed)
    ensures Frozen(Probed(s, luck).0, w, bed) && Frozen(FirmwareNoted(s), w, bed)
  {
    hide StartupProbed, FirmwareProbed, TemperatureProbed, Chilly;
    StartupKeepsFrozen(s, luck.startup, w, bed);
    var c := StartupProbed(s, luck.startup).0;
    FirmwareKeepsFrozen(c, luck.firmware, w, bed);
    TemperatureKeepsFrozen(FirmwareProbed(c, luck.firmware).0, luck.temperature, w, bed);
  }

  lemma StartupKeepsFrozen(s: Service, broken: nat, w: HeaterWait, bed: bool)
    requires Frozen(s, w, bed)
    ensures Frozen(StartupProbed(s, broken).0, w, bed)
  {
    hide SendList, Inflight, Recorded, Chilly;
  }

  lemma FirmwareKeepsFrozen(s: Service, broken: bool, w: HeaterWait, bed: bool)
    requires Frozen(s, w, bed)
    ensures Frozen(FirmwareProbed(s, broken).0, w, bed)
  {
    hide SendOne, Inflight, Recorded, Chilly;
  }

  lemma TemperatureKeepsFrozen(s: Service, broken: nat, w: HeaterWait, bed: bool)
    requires Frozen(s, w, bed)
    ensures Frozen(TemperatureProbed(s, broken).0, w, bed)
  {
    hide SendList, Inflight, Recorded, Chilly;
  }

  lemma MotionKeepsFrozen(s: Service, lines: seq<string>, lineBroken: bool, luck: Luck, w: HeaterWait, bed: bool)
    requires Inv(s) && Frozen(s, w, bed) && AllStayCold(s.env, lines, w, bed)
    ensures var t := MotionPolled(s, lines, lineBroken, luck).0; Frozen(t, w, bed) && JobSilent(s.book, t.book)
  {
    hide Inv, Frozen, LinesSeen, FaultChecked, PauseResumePolled, AbortPolled, FinishPolled, Refreshed, Probed, JobSilent,
         FinishMoves, StaysCold, AllStayCold;
    LinesKeepFrozen(s, lines, AllowResync(s), luck.resendFails, w, bed);
    LinesSeenKeeps(s, lines, AllowResync(s), luck.resendFails);
    var r := if s.ready then LinesSeen(s, lines, AllowResync(s), luck.resendFails).0 else s;
    AbortKeepsFrozen(r, luck.abort, w, bed);
    FaultCheckedKeeps(r);
    var k := FaultChecked(r);
    ListsKeepFrozen(k, luck.one, luck.list, w, bed);
    PauseResumePolledKeeps(k, luck.one, luck.list);
    var a := PauseResumePolled(k, luck.one, luck.list);
    AbortKeepsFrozen(a, luck.abort, w, bed);
    var q := AbortPolled(a, luck.abort);
    AbortKeepsFrozen(q, luck.finish, w, bed);
    ProbesKeepFrozen(Refreshed(q), luck, w, bed);
    ProbesKeepFrozen(FirmwareNoted(Refreshed(q)), luck, w, bed);
    NothingToFinishWhenFrozen(q, luck.finish, w, bed);
    MotionSendsForJobIff(s, lines, lineBroken, luck);
  }

  lemma NothingToFinishWhenFrozen(s: Service, broken: nat, w: HeaterWait, bed: bool)
    requires Frozen(s, w, bed)
    ensures !FinishMoves(s, broken)
  {
  }

  lemma PollKeepsFrozen(s: Service, readFails: bool, broken: nat, w: HeaterWait, bed: bool)
    requires Frozen(s, w, bed)
    ensures var t := JobPolled(s, readFails, broken); Frozen(t, w, bed) && t.book.trace == s.book.trace
  {
    hide FileAdvanced, Inflight, HasPendingBarrier, CanSend, HomingPolled, StartupPolled;
  }

  lemma RequestsKeepFrozen(s: Service, w: HeaterWait, bed: bool)
    requires Frozen(s, w, bed)
    ensures Frozen(PauseAsked(s), w, bed) && PauseAsked(s).book.trace == s.book.trace
    ensures Frozen(Closed(s), w, bed) && Closed(s).book.trace == s.book.trace
    ensures Frozen(s.(abortRequested := true), w, bed)
    ensures forall ok: bool :: Frozen(Opened(s, ok), w, bed) && Opened(s, ok).book.trace == s.book.trace
  {
  }

  predicate EventStaysCold(env: Env, e: Event, w: HeaterWait, bed: bool) {
    e.Motion? ==> AllStayCold(env, e.lines, w, bed)
  }

  lemma StepKeepsFrozen(s: Service, e: Event, w: HeaterWait, bed: bool)
    requires Inv(s) && Frozen(s, w, bed) && Restful(e) && EventStaysCold(s.env, e, w, bed)
    ensures Frozen(Step(s, e), w, bed) && JobSilent(s.book, Step(s, e).book)
  {
    hide Frozen, JobSilent, Inv, MotionPolled, JobPolled, Aborted, PauseAsked, Opened, Closed, AllStayCold;
    if e.Motion? {
      MotionKeepsFrozen(s, e.lines, e.lineBroken, e.luck, w, bed);
    } else if e.Poll? {
      PollKeepsFrozen(s, e.readFails, e.broken, w, bed);
      SameTraceIsSilent(s.book, Step(s, e).book);
    } else {
      RequestsKeepFrozen(s, w, bed);
      AbortKeepsFrozen(s, 0, w, bed);
      AbortedBook(s);
      SameTraceIsSilent(s.book, Step(s, e).book);
    }
  }

  /** As long as every temperature reported stays more than one degree below the target, the job submits nothing,
      whatever lines, polls, pauses, aborts and closings follow. */
  lemma {:induction false} ColdJobWaits(s: Service, events: seq<Event>, w: HeaterWait, bed: bool)
    requires Inv(s) && Frozen(s, w, bed) && AllRestful(events)
    requires forall i :: 0 <= i < |events| ==> EventStaysCold(s.env, events[i], w, bed)
    ensures Frozen(Run(s, events), w, bed) && JobSilent(s.book, Run(s, events).book) && Run(s, events).env == s.env
  {
    hide Inv, Frozen, Step, Restful, EventStaysCold;
    if events != [] {
      var n := |events| - 1;
      ColdJobWaits(s, events[..n], w, bed);
      RunKeeps(s, events[..n]);
      StepKeepsFrozen(Run(s, events[..n]), events[n], w, bed);
      StepKeepsPlace(Run(s, events[..n]), events[n]);
    }
  }

  // ---- Where waits come from ----

  /** A command of a job or a queue that waits arms the wait for its own heater, for its own target alone. */
  lemma ItemArms(s: Service, item: Item)
    requires item.target > 0.0 && item.waitBed != item.waitNozzle
    ensures var t := Armed(s, item);
      && t.wait == (if item.waitBed then HeaterWait(true, true, false, item.target, 0.0)
                    else HeaterWait(true, false, true, 0.0, item.target))
      && t.status == (if item.waitBed then s.status.(phase := Preparing, bedSet := item.target)
                      else s.status.(phase := Preparing, headSet := item.target))
  {
  }

  /** A new job waits for both heaters it sets. */
  lemma JobArms(s: Service, j: JobRequest)
    requires j.file.Some? && j.bed > 0.0 && j.head > 0.0
    ensures var t := JobBegun(s, j);
      && t.wait == HeaterWait(true, true, true, j.bed, j.head) && t.job.nozzle == j.head
      && t.status.bedSet == j.bed && t.status.headSet == j.head
  {
    hide Clear;
  }

  /** A job that is streaming its file, with nothing in the way. */
  predicate Streams(s: Service) {
    && s.job.active && s.job.stage == Streaming && !s.finish.pending && !s.abortRequested && !Busy(s) && !s.queue.active
    && (s.status.phase == Preparing || s.status.phase == Printing)
    && s.file.Some? && s.file.value.rest != [] && Submittable(s.file.value.rest[0].command)
  }

  lemma ItemGoes(s: Service)
    requires s.file.Some? && s.file.value.rest != [] && Submittable(s.file.value.rest[0].command) && CanSend(s.flow)
    ensures var t, item := ItemSent(s, false), s.file.value.rest[0];
      && t.book.trace == s.book.trace + [Submission(FromJob, item.command)]
      && t.file == Some(s.file.value.(rest := s.file.value.rest[1..]))
      && t.job == s.job.(nozzle := t.job.nozzle)
      && t.status.bedNow == s.status.bedNow && t.status.headNow == s.status.headNow
      && (item.target > 0.0 && item.waitBed != item.waitNozzle ==>
            && t.wait == (if item.waitBed then HeaterWait(true, true, false, item.target, 0.0)
                          else HeaterWait(true, false, true, 0.0, item.target))
            && (if item.waitBed then t.status.bedSet == item.target
                else t.status.headSet == item.target == t.job.nozzle))
  {
    hide CanSend, SendOne;
    SoundSends(s.flow, s.file.value.rest[0].command, false);
    assert Tagged(FromJob, [s.file.value.rest[0].command]) == [Submission(FromJob, s.file.value.rest[0].command)];
  }

  /** The next command of the file goes out exactly when no heater waited for is cold, no barrier is awaited, there is
      room, and nothing is in flight; a command that waits for a heater then arms its wait. */
  lemma JobMovesIff(s: Service)
    requires Streams(s)
    ensures var t, item := JobPolled(s, false, 1), s.file.value.rest[0];
      var moves := !Chilly(s.status, s.wait, true) && !Chilly(s.status, s.wait, false)
                   && !HasPendingBarrier(s.flow) && CanSend(s.flow) && Inflight(s.flow) == 0;
      && t.book.trace == s.book.trace + (if moves then [Submission(FromJob, item.command)] else [])
      && t.file == Some(s.file.value.(rest := if moves then s.file.value.rest[1..] else s.file.value.rest))
      && (moves && item.target > 0.0 && item.waitBed != item.waitNozzle ==>
            && t.wait == (if item.waitBed then HeaterWait(true, true, false, item.target, 0.0)
                          else HeaterWait(true, false, true, 0.0, item.target))
            && (if item.waitBed then t.status.bedSet == item.target
                else t.status.headSet == item.target == t.job.nozzle)
            && t.job.active && t.job.stage == Streaming
            && t.status.bedNow == s.status.bedNow && t.status.headNow == s.status.headNow)
  {
    hide Inflight, HasPendingBarrier, CanSend, Chilly, Heated;
    WarmIff(s.status, s.wait);
    if Heated(s.wait, s.status) && !HasPendingBarrier(s.flow) && CanSend(s.flow) && Inflight(s.flow) == 0 {
      ItemGoes(s.(wait := Off(s.wait)));
    }
  }

  /** Nothing keeps the next command back. */
  predicate Due(s: Service) {
    && !Chilly(s.status, s.wait, true) && !Chilly(s.status, s.wait, false)
    && !HasPendingBarrier(s.flow) && CanSend(s.flow) && Inflight(s.flow) == 0
  }

  predicate HeatsUp(s: Service, item: Item, bed: bool) {
    && item.target > 0.0 && item.waitBed == bed == !item.waitNozzle
    && (if bed then s.status.bedNow else s.status.headNow) < item.target - 1.0
  }

  function WaitFor(target: real, bed: bool): HeaterWait {
    if bed then HeaterWait(true, true, false, target, 0.0) else HeaterWait(true, false, true, 0.0, target)
  }

  lemma ColdItemFreezes(s: Service, bed: bool)
    requires Streams(s) && Due(s) && HeatsUp(s, s.file.value.rest[0], bed)
    ensures var t, item := JobPolled(s, false, 1), s.file.value.rest[0];
      && t.book.trace == s.book.trace + [Submission(FromJob, item.command)]
      && Frozen(t, WaitFor(item.target, bed), bed)
  {
    hide JobPolled, Inflight, CanSend, HasPendingBarrier;
    JobMovesIff(s);
    StreamsOn(s);
  }

  /** From the poll that sends a command for a cold heater on, the job submits nothing more until a line reports that the
      heater is within one degree of its target. */
  lemma ColdItemHoldsJob(s: Service, events: seq<Event>, bed: bool)
    requires Inv(s) && Streams(s) && Due(s) && HeatsUp(s, s.file.value.rest[0], bed) && AllRestful(events)
    requires forall i :: 0 <= i < |events| ==>
               EventStaysCold(s.env, events[i], WaitFor(s.file.value.rest[0].target, bed), bed)
    ensures var t := JobPolled(s, false, 1);
      && t.book.trace == s.book.trace + [Submission(FromJob, s.file.value.rest[0].command)]
      && JobSilent(t.book, Run(t, events).book)
  {
    var target := s.file.value.rest[0].target;
    hide Inv, JobPolled, Frozen, Due, HeatsUp, Streams, EventStaysCold, JobSilent, WaitFor, Run, Restful;
    ColdItemFreezes(s, bed);
    PollKeepsInv(s);
    ColdJobWaits(JobPolled(s, false, 1), events, WaitFor(target, bed), bed);
  }

  lemma PollKeepsInv(s: Service)
    requires Inv(s)
    ensures Inv(JobPolled(s, false, 1)) && JobPolled(s, false, 1).env == s.env
  {
    hide Inv, JobPolled, Moment, Saving, AtMoment;
    StepKeeps(s, Poll(false, 1));
    StepKeepsPlace(s, Poll(false, 1));
  }

  lemma StreamsOn(s: Service)
    requires Streams(s)
    ensures var t := JobPolled(s, false, 1); !t.resume.pending && !t.finish.pending && !t.queue.active
  {
    hide Inflight, CanSend, HasPendingBarrier, Heated, Waiting, ItemSent;
    if CanSend(s.flow) {
      ItemGoesOn(s.(wait := Off(s.wait)));
    }
  }

  lemma ItemGoesOn(s: Service)
    requires s.file.Some? && s.file.value.rest != [] && Submittable(s.file.value.rest[0].command) && CanSend(s.flow)
    ensures var t := ItemSent(s, false); t.resume == s.resume && t.finish == s.finish && t.queue == s.queue
  {
    hide CanSend, SendOne;
    SoundSends(s.flow, s.file.value.rest[0].command, false);
  }

  // ---- Resumes and queues ----

  /** A heated resume waits for the nozzle at the saved temperature once its first command is sent. */
  lemma ResumeArms(s: Service, one: bool)
    requires HeatSent(s, one).1 && s.saved.nozzle > 0.0
    ensures var t := HeatSent(s, one).0;
      t.wait == HeaterWait(true, false, true, 0.0, s.saved.nozzle) && t.resume.index == 1
      && t.status == s.status.(phase := Preparing, headSet := s.saved.nozzle)
  {
    hide SendList, Recorded;
  }

  /** While a heater waited for is cold, neither a resume nor the queue submits anything. */
  lemma ColdWaitHolds(s: Service, bed: bool, one: bool, list: nat)
    requires Chilly(s.status, s.wait, bed)
    ensures s.resume.pending ==> ResumePolled(s, one, list).book == s.book
    ensures s.queue.active ==> QueuePolled(s, list).0.book == s.book
  {
    hide ListPolled, HeatSent, QueueSent;
    WarmIff(s.status, s.wait);
  }

  /** The queue goes out in order, and a command that waits for a heater is the last of its poll. */
  lemma {:induction false} QueueStopsAtWait(s: Service, broken: nat) returns (n: nat)
    requires s.queue.index <= |s.queue.items|
    ensures s.queue.index <= n <= |s.queue.items|
    ensures var t := QueueSent(s, broken).0;
      && t.book.trace == s.book.trace + Tagged(FromQueue, Commands(s.queue.items[s.queue.index..n]))
      && (QueueSent(s, broken).1 ==>
            (t.queue == NO_QUEUE && n == |s.queue.items|) || t.queue == s.queue.(index := n))
    ensures forall i :: s.queue.index <= i < n - 1 ==> !s.queue.items[i].waitBed && !s.queue.items[i].waitNozzle
    decreases |s.queue.items| - s.queue.index
  {
    hide SendOne, Open, QueueItemSent, Refreshed, Tagged, Commands;
    n := s.queue.index;
    NothingTagged(s.queue.items, n);
    RefreshedBook(s.(queue := NO_QUEUE));
    RefreshedQueue(s.(queue := NO_QUEUE));
    if n < |s.queue.items| && Open(s.flow) {
      var item := s.queue.items[n];
      var r := SendOne(s.flow, item.command, broken == n);
      if r.1 == Sent {
        var u := QueueItemSent(s.(flow := r.0), item);
        QueueItemFrame(s.(flow := r.0), item);
        n := n + 1;
        if !item.waitBed && !item.waitNozzle {
          n := QueueStopsAtWait(u, broken);
        }
        FirstTagged(s.queue.items, s.queue.index, n);
        NothingTagged(s.queue.items, n);
      }
    }
  }

  lemma NothingTagged(items: seq<Item>, n: nat)
    requires n <= |items|
    ensures forall trace: seq<Submission> :: trace + Tagged(FromQueue, Commands(items[n..n])) == trace
  {
    assert items[n..n] == [];
  }

  lemma RefreshedQueue(s: Service)
    ensures Refreshed(s).queue == s.queue
  {
  }

  lemma QueueItemFrame(s: Service, item: Item)
    ensures var u := QueueItemSent(s, item);
      u.queue == s.queue.(index := s.queue.index + 1) && u.flow == s.flow
      && u.book.trace == s.book.trace + Tagged(FromQueue, [item.command])
  {
    hide HeaterSet, Waiting;
  }

  lemma FirstTagged(items: seq<Item>, i: nat, n: nat)
    requires i < n <= |items|
    ensures Tagged(FromQueue, Commands(items[i..n]))
         == Tagged(FromQueue, [items[i].command]) + Tagged(FromQueue, Commands(items[i + 1..n]))
  {
  }
}
