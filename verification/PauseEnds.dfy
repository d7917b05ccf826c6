/** Runs in which a pause ends by itself: nobody resumes the job, and it submits its next command. */
module PauseEnds {
  import opened FlowState
  import opened GcodeRewrite
  import opened GcodeStream
  import opened JobRuns
  import opened MarlinPacket
  import opened MotionPolicy
  import opened MotionSender
  import opened PauseHold
  import opened PrintStatus
  import opened ServiceRun
  import opened ServiceSafety
  import opened ServiceState

  // ---- A controller that can be heard ----

  /** Lines for an acknowledgement, for room, for a position, and for a cold and a warm machine. */
  datatype Voice = Voice(ok: string, room: string, at: string, cold: string, warm: string, low: real, high: real)

  function Temps(t: real): Reading {
    Temperatures(Some(Temperature(t, None)), Some(Temperature(t, None)))
  }

  ghost predicate Speaks(env: Env, v: Voice) {
    && env.reading(v.ok) == NoReading && ReplyOf(env, v.ok) == OkText(None)
    && env.reading(v.room) == NoReading && ReplyOf(env, v.room) == Sync('q', 0, 255)
    && env.reading(v.at).Position? && ReplyOf(env, v.at) == OtherText
    && env.reading(v.cold) == Temps(v.low) && ReplyOf(env, v.cold) == OtherText && v.low <= -TOLERANCE
    && env.reading(v.warm) == Temps(v.high) && ReplyOf(env, v.warm) == OtherText
    && forall x: real :: |env.libc.number(x)| <= 200
  }

  /** The warm machine is warm enough for every wait that is armed or queued. */
  predicate Reaches(w: HeaterWait, items: seq<Item>, high: real) {
    && (w.bed ==> w.bedTarget <= high) && (w.head ==> w.headTarget <= high)
    && forall i :: 0 <= i < |items| ==> items[i].target <= high
  }

  // ---- Reading lines ----

  /** Nothing in flight, and room. */
  predicate Free(st: State) {
    |st.slots| == WINDOW && Inflight(st) == 0 && (st.freeKnown ==> st.freeSpace > 100)
  }

  function Acks(v: Voice, n: nat): seq<string> {
    if n == 0 then [] else [v.ok] + Acks(v, n - 1)
  }

  /** Lines that free the window. */
  function Freeing(v: Voice, st: State): seq<string> {
    (if st.freeKnown then [v.room] else []) + Acks(v, Inflight(st))
  }

  /** Lines without a reading change neither status nor wait. */
  predicate Settled(s: Service) {
    Watched(s.status, s.wait, NoReading) == (s.status, s.wait)
  }

  lemma FreeIsOpen(st: State)
    requires Free(st)
    ensures Open(st) && CanSend(st)
  {
    hide Inflight;
    if !CanSend(st) {
      assert First(st.slots, (s: Slot) => !s.occupied, 0) == -1 && First(st.slots, (s: Slot) => s.acknowledged, 0) == -1;
      CountFull(st.slots, WINDOW);
      InflightIs(st);
      assert false;
    }
    if !Open(st) {
      ClosedGate(st);
    }
  }

  lemma InflightIs(st: State)
    ensures Inflight(st) == Count(st.slots, Pending, |st.slots|)
  {
  }

  lemma OkLowers(st: State)
    ensures var (t, outcome) := Handle(st, OkText(None));
      && outcome == Handled && |t.slots| == |st.slots| && t.freeKnown == st.freeKnown && t.freeSpace == st.freeSpace
      && Inflight(t) == if Inflight(st) == 0 then 0 else Inflight(st) - 1
  {
    var i := First(st.slots, Pending, 0);
    if i == -1 {
      CountNone(st.slots, Pending, |st.slots|);
    } else {
      PendingCounts(st.slots, |st.slots|, i);
      CountUpdate(st.slots, Pending, |st.slots|, i, st.slots[i].(acknowledged := true));
    }
  }

  lemma QuietLine(s: Service, line: string, allow: bool)
    requires Settled(s) && s.env.reading(line) == NoReading
    requires Handle(s.flow, ReplyOf(s.env, line)).1 == Handled || Handle(s.flow, ReplyOf(s.env, line)).1 == Ignored
    ensures LineSeen(s, line, allow, false) == (s.(flow := Handle(s.flow, ReplyOf(s.env, line)).0), false)
  {
    hide Handle, ReplyOf, Watched;
  }

  lemma {:induction false} AcksSeen(s: Service, v: Voice, n: nat, allow: bool)
    requires Settled(s) && Speaks(s.env, v)
    ensures var r := LinesSeen(s, Acks(v, n), allow, []);
      && !r.1 && r.0 == s.(flow := r.0.flow) && |r.0.flow.slots| == |s.flow.slots|
      && Inflight(r.0.flow) == Rest(Inflight(s.flow), n)
      && r.0.flow.freeKnown == s.flow.freeKnown && r.0.flow.freeSpace == s.flow.freeSpace
    decreases n
  {
    hide LineSeen, Inflight, Handle, Watched, ReplyOf;
    if n > 0 {
      OkLowers(s.flow);
      QuietLine(s, v.ok, allow);
      assert Acks(v, n)[0] == v.ok && Acks(v, n)[1..] == Acks(v, n - 1);
      AcksSeen(LineSeen(s, v.ok, allow, false).0, v, n - 1, allow);
    }
  }

  lemma RoomHandled(st: State)
    ensures Handle(st, Sync('q', 0, 255)) == (st.(freeSpace := 255, freeKnown := true), Ignored)
  {
  }

  lemma FreeingSeen(s: Service, v: Voice, allow: bool)
    requires Settled(s) && Speaks(s.env, v) && |s.flow.slots| == WINDOW
    ensures var r := LinesSeen(s, Freeing(v, s.flow), allow, []);
      !r.1 && r.0 == s.(flow := r.0.flow) && Free(r.0.flow) && r.0.flow.freeKnown == s.flow.freeKnown
  {
    hide LineSeen, LinesSeen, Inflight, Handle, Watched, ReplyOf, Acks;
    var n := Inflight(s.flow);
    if s.flow.freeKnown {
      RoomHandled(s.flow);
      QuietLine(s, v.room, allow);
      FirstLineSeen(s, v.room, Acks(v, n), allow);
      InflightIs(s.flow);
      InflightIs(s.flow.(freeSpace := 255, freeKnown := true));
      AcksSeen(LineSeen(s, v.room, allow, false).0, v, n, allow);
    } else {
      assert [] + Acks(v, n) == Acks(v, n);
      AcksSeen(s, v, n, allow);
    }
  }

  /** What a line that is no reply does. */
  function After(s: Service, line: string): Service {
    var w := Watched(s.status, s.wait, s.env.reading(line));
    s.(status := w.0, wait := w.1)
  }

  lemma WatchedSettles(s: Status, w: HeaterWait, r: Reading)
    ensures var t := Watched(s, w, r); Watched(t.0, t.1, NoReading) == t
  {
  }

  /** The service when a motion poll has read such a line, and what frees the window. */
  function Heard(s: Service, v: Voice, line: string): Service {
    LinesSeen(s, [line] + Freeing(v, s.flow), AllowResync(s), []).0
  }

  lemma HeardIs(s: Service, v: Voice, line: string)
    requires Speaks(s.env, v) && |s.flow.slots| == WINDOW && ReplyOf(s.env, line) == OtherText
    ensures var r := Heard(s, v, line);
      r == After(s, line).(flow := r.flow) && Free(r.flow) && r.flow.freeKnown == s.flow.freeKnown
  {
    hide LinesSeen, Watched, ReplyOf, Freeing, Free;
    assert LineSeen(s, line, AllowResync(s), false) == (After(s, line), false);
    WatchedSettles(s.status, s.wait, s.env.reading(line));
    FirstLineSeen(s, line, Freeing(v, s.flow), AllowResync(s));
    FreeingSeen(After(s, line), v, AllowResync(s));
  }

  // ---- Motion polls ----

  lemma SendOneKeeps(st: State, command: string, broken: bool)
    ensures var t := SendOne(st, command, broken).0; |t.slots| == |st.slots| && t.freeKnown == st.freeKnown
  {
  }

  lemma {:induction false} SendListKeeps(st: State, commands: seq<string>, i: nat, strict: bool, broken: nat)
    ensures var t := SendList(st, commands, i, strict, broken).flow;
      |t.slots| == |st.slots| && t.freeKnown == st.freeKnown
    decreases |commands| - i
  {
    hide SendOne, Gate;
    if i < |commands| && Gate(st, strict) {
      SendOneKeeps(st, commands[i], broken == i);
      SendListKeeps(SendOne(st, commands[i], broken == i).0, commands, i + 1, strict, broken);
    }
  }

  /** The window is as before, or has the probes of this poll in it, and the next poll sends none. */
  predicate Probes(s: Service, t: Service) {
    && |t.flow.slots| == |s.flow.slots| && t.flow.freeKnown == s.flow.freeKnown
    && (t.flow == s.flow || (t.polling.temperature == 0 && !t.polling.startup))
    && (s.polling.temperature == 0 && !s.polling.startup ==> t.flow == s.flow)
    && (!s.polling.startup ==> !t.polling.startup)
  }

  lemma ProbesSettle(s: Service)
    requires s.ready && s.job.active && (Free(s.flow) || Inflight(s.flow) != 0)
    ensures Quietly(s, Probed(s, LUCK).0) && Probes(s, Probed(s, LUCK).0)
  {
    hide ProbeSent, Inflight;
    ProbesOnlySubmit(s);
    if Inflight(s.flow) == 0 {
      ProbeKeeps(s, STARTUP_PROBE);
      var c := StartupProbed(s, FAR).0;
      ProbeKeeps(c, STATUS_PROBE);
      StartupGoes(s);
    }
  }

  lemma ProbeKeeps(s: Service, commands: seq<string>)
    ensures var t := ProbeSent(s, commands, FAR).0;
      |t.flow.slots| == |s.flow.slots| && t.flow.freeKnown == s.flow.freeKnown && t.polling == s.polling && t.ready == s.ready
      && t.job == s.job
  {
    hide SendList;
    SendListKeeps(s.flow, commands, 0, false, FAR);
  }

  /** With the window free the start-up probe goes out. */
  lemma StartupGoes(s: Service)
    requires Free(s.flow)
    ensures ProbeSent(s, STARTUP_PROBE, FAR).1 && Inflight(ProbeSent(s, STARTUP_PROBE, FAR).0.flow) != 0
  {
    hide SendList, Inflight;
    FreeIsOpen(s.flow);
    SoundListNeverFails(s.flow, STARTUP_PROBE, 0, false, FAR);
    SendListGrows(s.flow, STARTUP_PROBE, 0, false, FAR);
    SomethingGoes(s.flow, STARTUP_PROBE);
  }

  lemma SomethingGoes(st: State, commands: seq<string>)
    requires CanSend(st) && commands != [] && Sound(commands) && |commands| < FAR
    ensures SendList(st, commands, 0, false, FAR).index > 0
  {
    hide SendOne, CanSend;
    SoundSends(st, commands[0], false);
    SendListFacts(SendOne(st, commands[0], false).0, commands, 1, false, FAR);
  }

  /** A motion poll that first hears this line. */
  function Turn(s: Service, v: Voice, line: string): ServiceRun.Event {
    Motion([line] + Freeing(v, s.flow), false, LUCK)
  }

  /** What such a poll of a job that is not finishing comes to. */
  lemma TurnIs(s: Service, v: Voice, line: string)
    requires s.ready
    requires var a := PauseResumePolled(Heard(s, v, line), false, FAR);
      FaultChecked(Heard(s, v, line)) == Heard(s, v, line) && a.job.active && !a.finish.pending && !a.abort.pending
    ensures var a := PauseResumePolled(Heard(s, v, line), false, FAR);
      Step(s, Turn(s, v, line)) == Probed(FirmwareNoted(a), LUCK).0
    ensures Rests(s, Step(s, Turn(s, v, line)), true)
  {
    hide LinesSeen, PauseResumePolled, Probed, Freeing, Rests, Step;
    RestsBy(s, Turn(s, v, line), true);
    MotionIsTended(s, [line] + Freeing(v, s.flow), LUCK);
  }

  lemma MotionIsTended(s: Service, lines: seq<string>, luck: Luck)
    requires s.ready && luck.resendFails == []
    requires var r := LinesSeen(s, lines, AllowResync(s), []).0;
      var a := PauseResumePolled(r, luck.one, luck.list);
      FaultChecked(r) == r && a.job.active && !a.finish.pending && !a.abort.pending
    ensures var r := LinesSeen(s, lines, AllowResync(s), []).0;
      Step(s, Motion(lines, false, luck)) == Probed(FirmwareNoted(PauseResumePolled(r, luck.one, luck.list)), luck).0
  {
    hide LinesSeen, PauseResumePolled, Probed;
  }

  // ---- The situation ----

  /** A job under way that could go on: not finishing, with a device that can be heard. */
  ghost predicate Manned(s: Service, v: Voice) {
    && Inv(s) && |s.flow.slots| == WINDOW && s.ready && Speaks(s.env, v) && Reaches(s.wait, s.queue.items, v.high)
    && s.job.active && !s.finish.pending && !s.abort.pending && !s.abortRequested
    && (s.job.stage == Streaming ==> s.file.Some?)
    && !s.resume.pending && (s.status.phase == Broken ==> s.status.error == SerialFault)
  }

  /** No wait is armed but one that the machine is too cold for, and that shows. */
  predicate Chilled(s: Service) {
    s.wait.active ==> Bites(s.wait) && !Heated(s.wait, s.status) && s.status.phase == Preparing
  }

  /** The same job at the same place. */
  ghost predicate SameJob(s: Service, t: Service) {
    && t.env == s.env && t.job == s.job.(nozzle := t.job.nozzle) && t.file == s.file
    && t.flow.freeKnown == s.flow.freeKnown && s.book.trace <= t.book.trace
    && t.book == s.book.(trace := t.book.trace, pauseMark := t.book.pauseMark)
    && (!s.polling.startup ==> !t.polling.startup)
  }

  ghost predicate SameWork(s: Service, t: Service) {
    SameJob(s, t) && t.queue == s.queue
  }

  /** The wait goes on if it bites, and is off otherwise; if it goes on it shows. */
  predicate WaitKept(s: Service, t: Service) {
    if Bites(s.wait) then t.wait == s.wait else t.wait == Off(s.wait)
  }

  /** The same faults, and the same position. */
  predicate SameTroubles(s: Status, t: Status) {
    t.error == s.error && t.fault == s.fault && t.reports == s.reports
  }

  lemma ColdWatched(s: Status, w: HeaterWait, low: real)
    requires low <= -TOLERANCE
    ensures var (t, u) := Watched(s, w, Temps(low));
      && SameTroubles(s, t)
      && if Bites(w) then u == w && !Heated(w, t) && t.phase == Preparing else u == Off(w) && t.phase == s.phase
  {
    var n := Noted(s, Temps(low));
    assert n.bedNow == low && n.headNow == low;
    assert Heated(w, n) <==> !Bites(w);
  }

  lemma ColdHeard(s: Service, v: Voice)
    requires Speaks(s.env, v)
    ensures var t := After(s, v.cold);
      && WaitKept(s, t) && Chilled(t) && SameTroubles(s.status, t.status)
      && t.status.phase == if Bites(s.wait) then Preparing else s.status.phase
  {
    hide Watched, Heated;
    ColdWatched(s.status, s.wait, v.low);
  }

  lemma WarmHeard(s: Service, v: Voice)
    requires Speaks(s.env, v) && Reaches(s.wait, s.queue.items, v.high)
    ensures var t := After(s, v.warm);
      t.wait == Off(s.wait) && SameTroubles(s.status, t.status) && t.status.phase == s.status.phase
  {
  }

  lemma StaysReached(w: HeaterWait, items: seq<Item>, high: real)
    ensures Reaches(Off(w), items, high) == Reaches(w, items, high)
  {
  }

  /** A turn in which neither pause nor resume is under way. */
  lemma PlainTurn(s: Service, v: Voice, line: string) returns (t: Service)
    requires Manned(s, v) && !Busy(s) && ReplyOf(s.env, line) == OtherText
    requires SameTroubles(s.status, After(s, line).status)
    requires After(s, line).status.phase == s.status.phase || After(s, line).status.phase == Preparing
    requires After(s, line).wait == s.wait || After(s, line).wait == Off(s.wait)
    ensures Rests(s, t, true) && Manned(t, v) && !Busy(t) && SameWork(s, t)
    ensures t.wait == After(s, line).wait && t.status == After(s, line).status
    ensures Free(t.flow) || (t.polling.temperature == 0 && !t.polling.startup)
    ensures s.polling.temperature == 0 && !s.polling.startup ==> Free(t.flow)
  {
    hide Inv, Inflight, Rests, Heard, PauseResumePolled, Probed, Step, ReplyOf, Watched, Turn;
    HeardIs(s, v, line);
    var r := Heard(s, v, line);
    NoLists(r);
    TurnIs(s, v, line);
    var e := Turn(s, v, line);
    t := Step(s, e);
    StepKeeps(s, e);
    ProbesSettle(FirmwareNoted(r));
    StaysReached(s.wait, s.queue.items, v.high);
    NoAbort(t);
  }

  lemma NoAbort(s: Service)
    requires Inv(s) && s.job.active
    ensures !s.abort.pending
  {
    hide Inflight, OnTrack;
  }

  lemma ColdTurn(s: Service, v: Voice) returns (t: Service)
    requires Manned(s, v) && !Busy(s)
    ensures Rests(s, t, true) && Manned(t, v) && !Busy(t) && SameWork(s, t) && WaitKept(s, t) && Chilled(t)
    ensures t.status.phase == if Bites(s.wait) then Preparing else s.status.phase
    ensures Free(t.flow) || (t.polling.temperature == 0 && !t.polling.startup)
    ensures s.polling.temperature == 0 && !s.polling.startup ==> Free(t.flow)
  {
    hide Inv, Free, Rests, ReplyOf, Watched, Heated;
    ColdHeard(s, v);
    t := PlainTurn(s, v, v.cold);
  }

  lemma WarmTurn(s: Service, v: Voice) returns (t: Service)
    requires Manned(s, v) && !Busy(s)
    ensures Rests(s, t, true) && Manned(t, v) && !Busy(t) && SameWork(s, t)
    ensures t.wait == Off(s.wait) && t.status.phase == s.status.phase
  {
    hide Inv, Free, Rests, ReplyOf, Watched, Heated;
    WarmHeard(s, v);
    t := PlainTurn(s, v, v.warm);
  }

  lemma SameWorkTwice(s: Service, t: Service, u: Service)
    requires SameWork(s, t) && SameWork(t, u)
    ensures SameWork(s, u)
  {
  }

  /** The window is freed; a wait that bites shows. */
  lemma CalmDown(s: Service, v: Voice) returns (t: Service)
    requires Manned(s, v) && !Busy(s)
    ensures Rests(s, t, true) && Manned(t, v) && !Busy(t) && SameWork(s, t) && WaitKept(s, t) && Chilled(t)
    ensures t.status.phase == if Bites(s.wait) then Preparing else s.status.phase
    ensures Free(t.flow)
  {
    hide Inv, Free, Rests, Manned, Heated, SameWork;
    t := ColdTurn(s, v);
    if !Free(t.flow) {
      var u := ColdTurn(t, v);
      RestsOn(s, t, u, true);
      SameWorkTwice(s, t, u);
      t := u;
    }
  }

  // ---- The pause runs to its end ----

  lemma AtWatched(s: Status, w: HeaterWait, r: Reading)
    requires r.Position? && (w.active ==> !Heated(w, s) && s.phase == Preparing) && s.reports < U32 - 1
    ensures var (t, u) := Watched(s, w, r);
      u == w && (w.active ==> !Heated(w, t)) && t.phase == s.phase && t.reports == s.reports + 1
  {
  }

  lemma AtHeard(s: Service, v: Voice)
    requires Speaks(s.env, v) && Chilled(s) && s.status.reports < U32 - 1
    ensures var t := After(s, v.at);
      t.wait == s.wait && Chilled(t) && t.status.phase == s.status.phase && t.status.reports == s.status.reports + 1
  {
    hide Watched, Heated, Bites;
    AtWatched(s.status, s.wait, s.env.reading(v.at));
  }

  /** The pause has been asked for, and what it needs is on its way. */
  ghost predicate AtWork(s: Service, v: Voice) {
    Manned(s, v) && Chilled(s) && (s.status.phase == Pausing || s.status.phase == Preparing)
  }

  lemma PositionAsks(s: Service)
    requires s.probe.pending && !s.probe.sent && Free(s.flow)
    ensures var t := PauseResumePolled(s, false, FAR);
      && t == s.(flow := t.flow, probe := s.probe.(sent := true), book := s.book.(trace := t.book.trace))
      && s.book.trace <= t.book.trace
      && |t.flow.slots| == WINDOW && t.flow.freeKnown == s.flow.freeKnown && Inflight(t.flow) == 1 && Open(t.flow)
  {
    hide SendList, SendOne, Inflight, Open, PauseBegun;
    Barriers();
    FreeIsOpen(s.flow);
    SoundSends(s.flow, "M114", false);
    SendOneKeeps(s.flow, "M114", false);
    SentIsInFlight(s.flow, "M114");
    OneSent(s.flow, "M114");
    StillOpen(s.flow, "M114");
  }

  /** A command that is no barrier leaves the way open. */
  lemma StillOpen(st: State, command: string)
    requires Free(st) && 0 < |command| <= 255 && !IsBarrier(command)
    ensures Open(SendOne(st, command, false).0)
  {
    hide IsBarrier, Inflight;
    FreeIsOpen(st);
    SentIsInFlight(st, command);
    var t := SendOne(st, command, false).0;
    if !CanSend(t) {
      CountFull(t.slots, WINDOW);
      InflightIs(t);
      assert false;
    }
    NoBarrierPending(st);
  }

  lemma NoBarrierPending(st: State)
    requires Inflight(st) == 0
    ensures forall i :: 0 <= i < |st.slots| ==> !Pending(st.slots[i])
  {
    if i :| 0 <= i < |st.slots| && Pending(st.slots[i]) {
      PendingCounts(st.slots, |st.slots|, i);
    }
  }

  lemma PositionTurn(s: Service, v: Voice) returns (t: Service)
    requires Manned(s, v) && s.probe == Probe(true, false, s.status.reports) && !s.pause.pending && s.status.phase == Pausing
    ensures Rests(s, t, true) && AtWork(t, v) && SameWork(s, t) && WaitKept(s, t)
    ensures t.probe == Probe(true, true, t.status.reports) && !t.pause.pending && t.status.reports == s.status.reports
  {
    hide Inv, Inflight, Rests, Heard, PauseResumePolled, Probed, Step, ReplyOf, Watched, Turn, Heated;
    HeardIs(s, v, v.cold);
    ColdHeard(s, v);
    var r := Heard(s, v, v.cold);
    PositionAsks(r);
    TurnIs(s, v, v.cold);
    var e := Turn(s, v, v.cold);
    t := Step(s, e);
    StepKeeps(s, e);
    NoProbes(FirmwareNoted(PauseResumePolled(r, false, FAR)));
    StaysReached(s.wait, s.queue.items, v.high);
    NoAbort(t);
  }

  lemma ReportTurn(s: Service, v: Voice) returns (t: Service)
    requires AtWork(s, v) && s.probe == Probe(true, true, s.status.reports) && !s.pause.pending && s.status.reports < U32 - 1
    ensures Rests(s, t, true) && AtWork(t, v) && SameWork(s, t) && t.wait == s.wait
    ensures !t.probe.pending && t.pause == Cleanup(true, t.pause.policy, 0) && |t.pause.policy| == 10 && Sound(t.pause.policy)
  {
    hide Inv, Inflight, Rests, Heard, PauseResumePolled, Probed, Step, ReplyOf, Watched, Turn, Heated, PauseCommands;
    HeardIs(s, v, v.at);
    AtHeard(s, v);
    var r := Heard(s, v, v.at);
    PositionTaken(r);
    PauseIsSound(s.env, v, r.status.x, r.status.y, r.status.z);
    TurnIs(s, v, v.at);
    var e := Turn(s, v, v.at);
    t := Step(s, e);
    StepKeeps(s, e);
    ProbesSettle(FirmwareNoted(PauseResumePolled(r, false, FAR)));
    NoAbort(t);
  }

  lemma PauseIsSound(env: Env, v: Voice, x: real, y: real, z: real)
    requires Speaks(env, v)
    ensures var c := PauseCommands(env.libc, x, y, z); |c| == 10 && Sound(c)
  {
    hide WipeX, LiftZ;
  }

  // ---- The pause list ----

  /** One poll of the pause list with the window freed: it goes on, or it is over. */
  lemma ListGoes(s: Service)
    requires !s.probe.pending && s.pause.pending && Free(s.flow) && |s.pause.policy| == 10 && Sound(s.pause.policy)
    requires s.pause.index <= 10 && (s.status.phase == Pausing || s.status.phase == Preparing)
    ensures var t := PauseResumePolled(s, false, FAR);
      && t == s.(flow := t.flow, pause := t.pause, status := t.status, book := s.book.(trace := t.book.trace))
      && |t.flow.slots| == WINDOW && t.flow.freeKnown == s.flow.freeKnown && s.book.trace <= t.book.trace
      && if s.pause.index == 10 then !t.pause.pending && t.status == s.status.(phase := Paused) && t.flow == s.flow
         else t.status == s.status && Inflight(t.flow) != 0 && s.pause.index < t.pause.index <= 10
              && t.pause == s.pause.(index := t.pause.index)
  {
    hide SendList, Inflight, Open;
    FreeIsOpen(s.flow);
    var i := s.pause.index;
    ListMovesIff(s.flow, s.pause.policy, i, FAR);
    SoundListNeverFails(s.flow, s.pause.policy, i, true, FAR);
    SendListKeeps(s.flow, s.pause.policy, i, true, FAR);
    SendListGrows(s.flow, s.pause.policy, i, true, FAR);
    EndedList(s.flow, s.pause.policy, i);
    SendListFacts(s.flow, s.pause.policy, i, true, FAR);
  }

  /** The list under way. */
  ghost predicate Listing(s: Service, v: Voice) {
    && AtWork(s, v) && !s.probe.pending && s.pause.pending && |s.pause.policy| == 10 && Sound(s.pause.policy)
    && s.pause.index <= 10
  }

  lemma ListTurn(s: Service, v: Voice) returns (t: Service)
    requires Listing(s, v)
    ensures Rests(s, t, true) && SameWork(s, t) && WaitKept(s, t) && Manned(t, v)
    ensures s.pause.index < 10 ==> Listing(t, v) && t.pause.index > s.pause.index
    ensures s.pause.index == 10 ==> !Busy(t) && t.status.phase == Paused
  {
    hide Inv, Inflight, Rests, Heard, PauseResumePolled, Probed, Step, ReplyOf, Watched, Turn, Heated;
    HeardIs(s, v, v.cold);
    ColdHeard(s, v);
    var r := Heard(s, v, v.cold);
    ListGoes(r);
    TurnIs(s, v, v.cold);
    var e := Turn(s, v, v.cold);
    t := Step(s, e);
    StepKeeps(s, e);
    ProbesSettle(FirmwareNoted(PauseResumePolled(r, false, FAR)));
    StaysReached(s.wait, s.queue.items, v.high);
    NoAbort(t);
  }

  lemma KeptTwice(s: Service, t: Service, u: Service)
    requires WaitKept(s, t) && WaitKept(t, u)
    ensures WaitKept(s, u)
  {
  }

  lemma {:induction false} ListEnds(s: Service, v: Voice) returns (t: Service)
    requires Listing(s, v)
    ensures Rests(s, t, true) && SameWork(s, t) && WaitKept(s, t) && Manned(t, v) && !Busy(t) && t.status.phase == Paused
    decreases 10 - s.pause.index
  {
    hide Rests, SameWork, WaitKept, AtWork, Manned, Busy, Sound;
    t := ListTurn(s, v);
    if s.pause.index < 10 {
      var u := ListEnds(t, v);
      RestsOn(s, t, u, true);
      SameWorkTwice(s, t, u);
      KeptTwice(s, t, u);
      t := u;
    }
  }

  /** A pause that has just been asked for runs to its end, unless the position counter has to wrap first. */
  lemma PauseRuns(s: Service, v: Voice) returns (t: Service)
    requires Manned(s, v) && s.probe == Probe(true, false, s.status.reports) && !s.pause.pending
    requires s.status.phase == Pausing && s.status.reports < U32 - 1
    ensures Rests(s, t, true) && SameWork(s, t) && WaitKept(s, t) && Manned(t, v) && !Busy(t) && t.status.phase == Paused
  {
    hide Rests, SameWork, Manned, Busy, Sound, Chilled;
    var a := PositionTurn(s, v);
    var b := ReportTurn(a, v);
    RestsOn(s, a, b, true);
    SameWorkTwice(s, a, b);
    t := ListEnds(b, v);
    RestsOn(s, b, t, true);
    SameWorkTwice(s, b, t);
  }

  /** The request for the position cannot be sent: the pause is over at once, with a fault. */
  lemma PositionFails(s: Service, v: Voice) returns (t: Service, e: ServiceRun.Event)
    requires Manned(s, v) && s.probe == Probe(true, false, s.status.reports) && !s.pause.pending && s.status.phase == Pausing
    ensures e.Motion? && t == Step(s, e) && SameWork(s, t) && WaitKept(s, t) && Manned(t, v) && !Busy(t)
  {
    hide Inv, Inflight, LinesSeen, Freeing, PauseResumePolled, Probed, Step, ReplyOf, Watched, Heated;
    HeardIs(s, v, v.cold);
    ColdHeard(s, v);
    var r, luck := Heard(s, v, v.cold), LUCK.(one := true);
    RequestFails(r);
    e := Motion([v.cold] + Freeing(v, s.flow), false, luck);
    MotionIsTended(s, [v.cold] + Freeing(v, s.flow), luck);
    t := Step(s, e);
    StepKeeps(s, e);
    NothingProbed(FirmwareNoted(PauseResumePolled(r, true, FAR)), luck);
    StaysReached(s.wait, s.queue.items, v.high);
    NoAbort(t);
  }

  lemma NothingProbed(s: Service, luck: Luck)
    requires Inflight(s.flow) != 0
    ensures Probed(s, luck).0 == s
  {
    hide Inflight;
  }

  lemma RequestFails(s: Service)
    requires s.probe.pending && !s.probe.sent && Free(s.flow)
    ensures var t := PauseResumePolled(s, true, FAR);
      && t == s.(flow := t.flow, probe := s.probe.(pending := false), status := FaultedWith(s.status, SerialFault),
                 book := s.book.(trace := t.book.trace))
      && s.book.trace <= t.book.trace
      && |t.flow.slots| == WINDOW && t.flow.freeKnown == s.flow.freeKnown && Inflight(t.flow) != 0
  {
    hide SendOne, Inflight, Open, PauseBegun;
    FreeIsOpen(s.flow);
    SoundSends(s.flow, "M114", true);
    SoundSends(s.flow, "M114", false);
    BrokenIsPlaced(s.flow, "M114");
    SentIsInFlight(s.flow, "M114");
    SendOneKeeps(s.flow, "M114", true);
  }

  /** A packet that the device does not take whole is in the window all the same. */
  lemma BrokenIsPlaced(st: State, command: string)
    requires CanSend(st) && 0 < |command| <= 255
    ensures SendOne(st, command, true) == (SendOne(st, command, false).0, SerialError)
  {
  }

  // ---- Out of the pause ----

  lemma WaitEnds(s: Service, v: Voice) returns (t: Service)
    requires Manned(s, v) && !Busy(s) && Bites(s.wait)
    ensures Rests(s, t, true) && Manned(t, v) && !Busy(t) && SameWork(s, t) && t.status.phase == Preparing && !t.wait.active
  {
    hide Rests, Manned, SameWork, Heated;
    var a := ColdTurn(s, v);
    t := WarmTurn(a, v);
    RestsOn(s, a, t, true);
    SameWorkTwice(s, a, t);
  }

  /** What a round of the queue leaves alone. */
  ghost predicate QueueMoved(s: Service, t: Service, high: real) {
    && t == s.(flow := t.flow, queue := t.queue, wait := t.wait, status := t.status, book := s.book.(trace := t.book.trace))
    && |t.flow.slots| == |s.flow.slots| && t.flow.freeKnown == s.flow.freeKnown && s.book.trace <= t.book.trace
    && Reaches(t.wait, t.queue.items, high) && (t.wait.active ==> Bites(t.wait) && t.status.phase == Preparing)
    && (t.wait.active || t.status.phase == s.status.phase)
  }

  /** Sending a queue that will arm a wait arms it, or comes closer to it. */
  lemma {:induction false} QueueArms(s: Service, high: real)
    requires QueueBites(s.queue.items, s.queue.index) && |s.queue.items| <= QUEUE_COMMANDS && Open(s.flow) && !s.wait.active
    requires Reaches(s.wait, s.queue.items, high)
    ensures var t := QueueSent(s, FAR).0;
      && QueueMoved(s, t, high) && t.queue == s.queue.(index := t.queue.index) && t.status.error == s.status.error
      && (Bites(t.wait) || (t.queue.index > s.queue.index && QueueBites(t.queue.items, t.queue.index)))
    decreases |s.queue.items| - s.queue.index
  {
    hide SendOne, Open, HeaterSet, Bites;
    var item := s.queue.items[s.queue.index];
    QueueItemGoes(s, high);
    var u := QueueItemSent(s.(flow := SendOne(s.flow, item.command, false).0), item);
    if !(item.waitBed || item.waitNozzle) && Open(u.flow) {
      QueueArms(u, high);
    }
  }

  /** One command of the queue. */
  lemma QueueItemGoes(s: Service, high: real)
    requires s.queue.index < |s.queue.items| && Submittable(s.queue.items[s.queue.index].command) && Open(s.flow) && !s.wait.active
    requires Reaches(s.wait, s.queue.items, high)
    ensures var item := s.queue.items[s.queue.index];
      var r := SendOne(s.flow, item.command, false);
      var u := QueueItemSent(s.(flow := r.0), item);
      && r.1 == Sent && QueueMoved(s, u, high) && u.queue == s.queue.(index := s.queue.index + 1)
      && u.status.error == s.status.error
      && (u.wait.active <==> (item.waitBed || item.waitNozzle) && item.target > 0.0)
  {
    hide SendOne;
    var item := s.queue.items[s.queue.index];
    CanWhenOpen(s.flow);
    SoundSends(s.flow, item.command, false);
    SendOneKeeps(s.flow, item.command, false);
    HeaterKeepsPhase(s.env, s.status, item.command);
    HeaterKeepsError(s.env, s.status, item.command);
  }

  lemma CanWhenOpen(st: State)
    requires Open(st)
    ensures CanSend(st)
  {
  }

  lemma HeaterKeepsError(env: Env, s: Status, line: string)
    ensures HeaterSet(env, s, line).error == s.error
  {
  }

  lemma {:induction false} QueueGoes(s: Service, v: Voice) returns (t: Service)
    requires Manned(s, v) && !Busy(s) && !Bites(s.wait) && s.queue.active && QueueBites(s.queue.items, s.queue.index)
    ensures Rests(s, t, true) && Manned(t, v) && !Busy(t) && SameJob(s, t) && Bites(t.wait)
    decreases |s.queue.items| - s.queue.index
  {
    hide Rests, Inv, Bites, SameJob, Free, Inflight, QueueSent, QueueBites, Step, Heated, Chilled, Submittable;
    var a := CalmDown(s, v);
    var b := QueueTurn(a, v);
    RestsOn(s, a, b, true);
    SameJobTwice(s, a, b);
    t := b;
    if !Bites(b.wait) {
      t := QueueGoes(b, v);
      RestsOn(s, b, t, true);
      SameJobTwice(s, b, t);
    }
  }

  lemma SameJobTwice(s: Service, t: Service, u: Service)
    requires SameJob(s, t) && SameJob(t, u)
    ensures SameJob(s, u)
  {
  }

  /** One job poll of the queue with the window freed. */
  lemma QueueTurn(s: Service, v: Voice) returns (t: Service)
    requires Manned(s, v) && !Busy(s) && !s.wait.active && s.queue.active && QueueBites(s.queue.items, s.queue.index)
    requires Free(s.flow)
    ensures Rests(s, t, true) && Manned(t, v) && !Busy(t) && SameJob(s, t)
    ensures Bites(t.wait) || (t.queue == s.queue.(index := t.queue.index) && s.queue.index < t.queue.index <= |t.queue.items|
                              && QueueBites(t.queue.items, t.queue.index))
  {
    hide Rests, QueueSent, Bites, QueueBites, Inflight, OnTrack, Step, Heated;
    FreeIsOpen(s.flow);
    QueueArms(s, v.high);
    var e := Poll(false, FAR);
    PollsQueue(s);
    RestsBy(s, e, true);
    StepKeeps(s, e);
    t := Step(s, e);
    NoAbort(t);
    QueueInside(t);
  }

  lemma PollsQueue(s: Service)
    requires !s.abortRequested && !Busy(s) && s.queue.active && !s.wait.active
    ensures Step(s, Poll(false, FAR)) == QueueSent(s, FAR).0
  {
    hide QueueSent;
  }

  lemma QueueInside(s: Service)
    requires Inv(s)
    ensures s.queue.index <= |s.queue.items| <= QUEUE_COMMANDS
  {
    hide OnTrack, Inflight;
  }

  /** A round of the queue while the printer shows "preparing". */
  lemma {:induction false} QueueMoves(s: Service, high: real)
    requires s.queue.active && s.queue.index <= |s.queue.items| <= QUEUE_COMMANDS && Open(s.flow) && !s.wait.active
    requires Reaches(s.wait, s.queue.items, high) && s.status.phase == Preparing && s.job.active
    ensures var t := QueueSent(s, FAR).0;
      && QueueMoved(s, t, high) && t.status.phase == Preparing
      && (!t.queue.active || (t.queue == s.queue.(index := t.queue.index) && s.queue.index < t.queue.index <= |t.queue.items|))
    decreases |s.queue.items| - s.queue.index
  {
    hide SendOne, Open, HeaterSet, Bites;
    if s.queue.index < |s.queue.items| {
      var item := s.queue.items[s.queue.index];
      OnlySoundIsSent(s.flow, item.command, false);
      SendOneKeeps(s.flow, item.command, false);
      if Submittable(item.command) {
        QueueItemGoes(s, high);
        var u := QueueItemSent(s.(flow := SendOne(s.flow, item.command, false).0), item);
        if !(item.waitBed || item.waitNozzle) && Open(u.flow) {
          QueueMoves(u, high);
        }
      } else {
        CanWhenOpen(s.flow);
        SendOneFacts(s.flow, item.command, false);
      }
    }
  }

  /** The job could go on at its next poll, but for the queue. */
  ghost predicate Awake(s: Service, v: Voice) {
    Manned(s, v) && !Busy(s) && !s.wait.active && (s.status.phase == Preparing || s.status.phase == Printing)
  }

  lemma QueuePolls(s: Service, v: Voice) returns (t: Service)
    requires Awake(s, v) && s.status.phase == Preparing && s.queue.active && Free(s.flow)
    ensures Rests(s, t, true) && Manned(t, v) && !Busy(t) && SameJob(s, t) && t.status.phase == Preparing
    ensures t.wait.active ==> Bites(t.wait)
    ensures !t.queue.active || (|t.queue.items| == |s.queue.items| && s.queue.index < t.queue.index <= |t.queue.items|)
  {
    hide Rests, QueueSent, Bites, Inflight, OnTrack, Step, Heated;
    FreeIsOpen(s.flow);
    QueueMoves(s, v.high);
    var e := Poll(false, FAR);
    PollsQueue(s);
    RestsBy(s, e, true);
    StepKeeps(s, e);
    t := Step(s, e);
    NoAbort(t);
  }

  lemma {:induction false} QueueEnds(s: Service, v: Voice) returns (t: Service)
    requires Awake(s, v) && s.status.phase == Preparing
    ensures Rests(s, t, true) && Awake(t, v) && SameJob(s, t) && t.status.phase == Preparing && !t.queue.active
    decreases s.queue.active, |s.queue.items| - s.queue.index
  {
    hide Rests, Inv, Bites, SameJob, Free, Inflight, QueueSent, Step, Heated, Chilled;
    t := s;
    if !s.queue.active {
      RestsSelf(s);
      SameJobSelf(s);
    } else {
      InactiveIsMild(s.wait);
      var a := CalmDown(s, v);
      var b := QueuePolls(a, v);
      RestsOn(s, a, b, true);
      SameJobTwice(s, a, b);
      var c := b;
      if b.wait.active {
        c := WarmTurn(b, v);
        RestsOn(s, b, c, true);
        SameJobTwice(s, b, c);
      }
      t := QueueEnds(c, v);
      RestsOn(s, c, t, true);
      SameJobTwice(s, c, t);
    }
  }

  lemma SameJobSelf(s: Service)
    ensures SameJob(s, s)
  {
  }

  lemma InactiveIsMild(w: HeaterWait)
    requires !w.active
    ensures !Bites(w) && Off(w) == w
  {
  }

  // ---- The next command ----

  function Rank(stage: Stage): nat {
    match stage
    case Homing => 6
    case HomeDrain => 5
    case Heating => 4
    case Startup => 3
    case StartupDrain => 2
    case Streaming => 1
  }

  lemma JobPollIs(s: Service, readFails: bool)
    requires s.job.active && !s.finish.pending && !s.abortRequested && !Busy(s) && !s.queue.active
    requires s.status.phase == Preparing || s.status.phase == Printing
    ensures Step(s, Poll(readFails, FAR)) == if s.job.stage != Streaming then PreparePolled(s, FAR)
                                             else StreamPolled(s, readFails, false)
  {
    hide PreparePolled, StreamPolled;
  }

  /** Home, or start up: the next commands go out, unless all have. */
  lemma PreparingGoes(s: Service, v: Voice)
    requires Awake(s, v) && !s.queue.active && Free(s.flow) && s.job.stage != Streaming
    ensures var t := PreparePolled(s, FAR);
      || !JobSilent(s.book, t.book)
      || (Rank(t.job.stage) < Rank(s.job.stage) && t.book == s.book
          && t == s.(job := t.job, wait := Off(s.wait)) && t.job.active && t.file.Some?)
  {
    hide SendList, Inflight, Open, JobSilent, Log, Recorded, Speaks;
    FreeIsOpen(s.flow);
    HomingBounds(s);
    InactiveIsMild(s.wait);
    var list := if s.job.stage == Homing then HOME_COMMANDS else StartSequence(s.file.value.hasPrime);
    var i := if s.job.stage == Homing then s.job.prepareIndex else s.job.startupIndex;
    assert Sound(list) && |list| <= FAR;
    ListMovesIff(s.flow, list, i, FAR);
    SoundListNeverFails(s.flow, list, i, true, FAR);
    EndedList(s.flow, list, i);
    RecordNothing(s.book, FromJob);
    RecordedIsSilentIff(s.book, list[i..SendList(s.flow, list, i, true, FAR).index]);
    assert list[|list|..] == [];
  }

  /** The next command of the file can be sent, if there is one. */
  predicate HeadIsPlain(s: Service) {
    s.file.Some? && s.file.value.rest != [] ==> Submittable(s.file.value.rest[0].command)
  }

  /** The file goes on: its next command is submitted, or the finishing list begins and its first is. */
  lemma StreamingGoes(s: Service, v: Voice) returns (t: Service)
    requires Awake(s, v) && !s.queue.active && Free(s.flow) && s.job.stage == Streaming
    ensures Rests(s, t, HeadIsPlain(s)) && !JobSilent(s.book, t.book)
  {
    hide Inv, SendOne, Inflight, JobSilent, Rests, Speaks, MotionPolled;
    FreeIsOpen(s.flow);
    InactiveIsMild(s.wait);
    var fails := !HeadIsPlain(s);
    var e := Poll(fails, FAR);
    JobPollIs(s, fails);
    RestsBy(s, e, HeadIsPlain(s));
    StepKeeps(s, e);
    t := Step(s, e);
    if s.file.value.rest != [] && !fails {
      var command := s.file.value.rest[0].command;
      SoundSends(s.flow, command, false);
      RecordedIsSilentIff(s.book, [command]);
      SilenceBroken(s.book, Recorded(s.book, FromJob, [command]), t.book);
    } else {
      var u := FinishGoes(t);
      RestsGrows(t, u, true);
      StillLoud(s.book, t.book, u.book);
      RestsWeaker(t, u, HeadIsPlain(s));
      RestsOn(s, t, u, HeadIsPlain(s));
      t := u;
    }
  }

  lemma RestsWeaker(s: Service, t: Service, well: bool)
    requires Rests(s, t, true)
    ensures Rests(s, t, well)
  {
    RestsWell(s, t);
  }

  /** The finishing list has just begun: its first command goes out. */
  lemma FinishGoes(s: Service) returns (t: Service)
    requires Inv(s) && s.ready && s.finish == Cleanup(true, FINISH_COMMANDS, 0) && s.job.active && !Busy(s)
    requires Free(s.flow) && s.status.phase == Printing
    ensures Rests(s, t, true) && !JobSilent(s.book, t.book)
  {
    hide Inv, Inflight, Open, JobSilent, Rests, LinesSeen, PauseResumePolled, MotionPolled;
    var e := Motion([], false, LUCK);
    RestsBy(s, e, true);
    t := Step(s, e);
    MotionSendsForJobIff(s, [], false, LUCK);
    NoLinesSeen(s);
    NoLists(s);
    NoAbort(s);
    FreeIsOpen(s.flow);
  }

  /** A job that is awake submits something. */
  lemma {:induction false} JobGoes(s: Service, v: Voice) returns (t: Service)
    requires Awake(s, v) && !s.queue.active && Free(s.flow)
    ensures Rests(s, t, HeadIsPlain(s)) && !JobSilent(s.book, t.book)
    decreases Rank(s.job.stage)
  {
    hide Inv, Inflight, JobSilent, Rests, Speaks, PreparePolled, Free;
    if s.job.stage == Streaming {
      t := StreamingGoes(s, v);
    } else {
      var e := Poll(false, FAR);
      JobPollIs(s, false);
      PreparingGoes(s, v);
      RestsBy(s, e, true);
      StepKeeps(s, e);
      t := Step(s, e);
      RestsWeaker(s, t, HeadIsPlain(s));
      if JobSilent(s.book, t.book) {
        InactiveIsMild(s.wait);
        var u := JobGoes(t, v);
        RestsOn(s, t, u, HeadIsPlain(s));
        t := u;
      }
    }
  }

  /** A restless service that is not busy has its job submit something. */
  lemma RestlessGoes(s: Service, v: Voice) returns (t: Service)
    requires Manned(s, v) && !Busy(s) && Restless(s)
    ensures Rests(s, t, HeadIsPlain(s)) && !JobSilent(s.book, t.book)
  {
    hide Inv, Free, Rests, Speaks, JobSilent, SameJob, Chilled, Bites, QueueBites;
    var a := s;
    if Bites(s.wait) {
      RestsSelf(s);
      SameJobSelf(s);
    } else {
      a := QueueGoes(s, v);
    }
    var b := WaitEnds(a, v);
    RestsOn(s, a, b, true);
    SameJobTwice(s, a, b);
    var c := QueueEnds(b, v);
    RestsOn(s, b, c, true);
    SameJobTwice(s, b, c);
    InactiveIsMild(c.wait);
    var d := CalmDown(c, v);
    RestsOn(s, c, d, true);
    SameJobTwice(s, c, d);
    t := JobGoes(d, v);
    SameHead(s, d);
    RestsWeaker(s, d, HeadIsPlain(s));
    RestsOn(s, d, t, HeadIsPlain(s));
    RestsGrows(d, t, HeadIsPlain(s));
    StillLoud(s.book, d.book, t.book);
  }

  lemma SameHead(s: Service, t: Service)
    requires SameJob(s, t)
    ensures HeadIsPlain(t) == HeadIsPlain(s) && s.book.trace <= t.book.trace
  {
  }

  lemma RestsGrows(s: Service, t: Service, well: bool)
    requires Inv(s) && Rests(s, t, well)
    ensures Inv(t) && s.book.trace <= t.book.trace
  {
    hide Run, Inv, Restful, Lucky;
    var events: seq<ServiceRun.Event> :| t == Run(s, events)
      && forall i :: 0 <= i < |events| ==> Restful(events[i]) && Lucky(events[i]) && (well ==> ReadsWell(events[i]));
    RunKeeps(s, events);
  }

  lemma StillLoud(b: Book, c: Book, d: Book)
    requires b.trace <= c.trace <= d.trace && !JobSilent(c, d)
    ensures !JobSilent(b, d)
  {
    var k :| |c.trace| <= k < |d.trace| && d.trace[k].origin == FromJob;
    assert |b.trace| <= k;
  }

  // ---- When a pause holds ----

  /** A job that has just been asked to pause, by a caller whom its device will hear. */
  ghost predicate Pausable(s: Service, v: Voice) {
    && Inv(s) && |s.flow.slots| == WINDOW && Speaks(s.env, v) && Reaches(s.wait, s.queue.items, v.high)
    && s.job.active && !Busy(s) && (s.status.phase == Preparing || s.status.phase == Printing)
  }

  /** The pause has been asked for, and the device is open. */
  ghost predicate Asked(s: Service, t: Service, v: Voice) {
    && Inv(t) && |t.flow.slots| == WINDOW && t.ready && t.env == s.env && t.status == s.status.(phase := Pausing)
    && t.wait == s.wait && t.queue == s.queue && t.file == s.file && t.finish == s.finish
    && t.job == s.job.(nozzle := t.job.nozzle) && t.abortRequested == s.abortRequested && t.book == s.book
    && !t.abort.pending && !t.resume.pending && !t.pause.pending && t.flow == s.flow
    && t.probe == Probe(true, false, t.status.reports) && (s.ready ==> t.polling == s.polling)
  }

  lemma DeviceOpens(s: Service, v: Voice) returns (t: Service)
    requires Pausable(s, v)
    ensures Rests(PauseAsked(s), t, true) && Asked(s, t, v)
  {
    hide Inv, Rests, Speaks;
    t := PauseAsked(s);
    PauseAskedKeeps(s);
    NoAbort(t);
    if t.ready {
      RestsSelf(t);
    } else {
      var e := OpenMotion(true);
      RestsBy(t, e, true);
      StepKeeps(t, e);
      t := Step(t, e);
    }
  }

  /** The finishing list goes on through a pause. */
  lemma FinishingGoes(s: Service, v: Voice) returns (t: Service)
    requires Pausable(s, v) && s.finish.pending && s.finish.index < |s.finish.policy|
    ensures Rests(PauseAsked(s), t, true) && !JobSilent(s.book, t.book)
  {
    hide Inv, Inflight, Open, JobSilent, Rests, LinesSeen, PauseResumePolled, MotionPolled, Speaks, Freeing, ReplyOf, Watched;
    var a := DeviceOpens(s, v);
    FinishPolicy(a);
    HeardColdly(a, v);
    var r := Heard(a, v, v.cold);
    PositionAsks(r);
    var e := Turn(a, v, v.cold);
    MotionSendsForJobIff(a, [v.cold] + Freeing(v, a.flow), false, LUCK);
    RestsBy(a, e, true);
    t := Step(a, e);
    RestsOn(PauseAsked(s), a, t, true);
  }

  lemma HeardColdly(s: Service, v: Voice)
    requires Speaks(s.env, v) && |s.flow.slots| == WINDOW
    ensures var r := Heard(s, v, v.cold);
      && r == After(s, v.cold).(flow := r.flow) && Free(r.flow) && r.flow.freeKnown == s.flow.freeKnown
      && r.status.phase == if Bites(s.wait) then Preparing else s.status.phase
  {
    hide Heard, Watched, ReplyOf, Free;
    HeardIs(s, v, v.cold);
    ColdHeard(s, v);
  }

  lemma AskedIsManned(s: Service, t: Service, v: Voice)
    requires Pausable(s, v) && Asked(s, t, v) && !s.finish.pending && !Spent(s)
    ensures Manned(t, v)
  {
  }

  /** Without a failure of the device: a pause that need not hold does not. */
  lemma PauseGivesWay(s: Service, v: Voice) returns (t: Service)
    requires Pausable(s, v) && !Spent(s) && (s.finish.pending || Restless(s)) && s.status.reports < U32 - 1
    ensures Rests(PauseAsked(s), t, HeadIsPlain(s)) && !JobSilent(s.book, t.book)
  {
    hide Inv, Rests, Speaks, JobSilent, Bites, QueueBites, Pausable;
    if s.finish.pending {
      t := FinishingGoes(s, v);
      RestsWeaker(PauseAsked(s), t, HeadIsPlain(s));
    } else {
      var a := DeviceOpens(s, v);
      AskedIsManned(s, a, v);
      var b := PauseRuns(a, v);
      KeptRestless(a, b);
      RestsOn(PauseAsked(s), a, b, true);
      t := RestlessGoes(b, v);
      SameHead(a, b);
      RestsWeaker(PauseAsked(s), b, HeadIsPlain(s));
      RestsOn(PauseAsked(s), b, t, HeadIsPlain(s));
      RestsGrows(b, t, HeadIsPlain(s));
      StillLoud(s.book, b.book, t.book);
    }
  }

  lemma KeptRestless(s: Service, t: Service)
    requires Restless(s) && SameWork(s, t) && WaitKept(s, t)
    ensures Restless(t)
  {
  }

  /** A run without a resume, a new job or commands by hand; the device may fail. */
  ghost predicate Wanders(s: Service, t: Service) {
    exists events: seq<ServiceRun.Event> :: AllRestful(events) && t == Run(s, events)
  }

  lemma RestsWanders(s: Service, t: Service, well: bool)
    requires Rests(s, t, well)
    ensures Wanders(s, t)
  {
    hide Run, Restful, Lucky;
    var events: seq<ServiceRun.Event> :| t == Run(s, events)
      && forall i :: 0 <= i < |events| ==> Restful(events[i]) && Lucky(events[i]) && (well ==> ReadsWell(events[i]));
    assert AllRestful(events);
  }

  lemma WandersBy(s: Service, e: ServiceRun.Event)
    requires Restful(e)
    ensures Wanders(s, Step(s, e))
  {
    hide Step;
    assert [e][..0] == [] && Run(s, []) == s;
    assert AllRestful([e]) && Run(s, [e]) == Step(s, e);
  }

  lemma WandersOn(s: Service, t: Service, u: Service)
    requires Wanders(s, t) && Wanders(t, u)
    ensures Wanders(s, u)
  {
    hide Run, Restful;
    var a: seq<ServiceRun.Event> :| AllRestful(a) && t == Run(s, a);
    var b: seq<ServiceRun.Event> :| AllRestful(b) && u == Run(t, b);
    RunJoins(s, a, b);
    assert AllRestful(a + b);
  }

  /** With failures of the device that is so whatever the position counter says. */
  lemma PauseFailsToHold(s: Service, v: Voice) returns (t: Service)
    requires Pausable(s, v) && !Spent(s) && (s.finish.pending || Restless(s))
    ensures Wanders(PauseAsked(s), t) && !JobSilent(s.book, t.book)
  {
    hide Inv, Rests, Wanders, Speaks, JobSilent, Bites, QueueBites, Pausable, Step;
    if s.finish.pending {
      t := FinishingGoes(s, v);
      RestsWanders(PauseAsked(s), t, true);
    } else {
      var a := DeviceOpens(s, v);
      AskedIsManned(s, a, v);
      var b, e := PositionFails(a, v);
      KeptRestless(a, b);
      t := RestlessGoes(b, v);
      RestsWanders(PauseAsked(s), a, true);
      WandersBy(a, e);
      RestsWanders(b, t, HeadIsPlain(b));
      WandersOn(PauseAsked(s), a, b);
      WandersOn(PauseAsked(s), b, t);
      RestsGrows(b, t, HeadIsPlain(b));
      StillLoud(s.book, b.book, t.book);
    }
  }

  /** A pause keeps the job from submitting anything, in every run until a resume, a new job or commands by hand,
      exactly when the job has nothing left to submit, or it is not finishing and no heater wait bites that is armed
      or will be by the commands queued by hand. */
  lemma PauseHoldsIff(s: Service, v: Voice)
    requires Pausable(s, v)
    ensures (forall events: seq<ServiceRun.Event> ::
               AllRestful(events) ==> JobSilent(s.book, Run(PauseAsked(s), events).book))
       <==> Spent(s) || (!s.finish.pending && !Restless(s))
  {
    hide Inv, JobSilent, Run, Speaks, Restless, Spent, AllRestful, Held;
    PauseAskedKeeps(s);
    if Spent(s) || (!s.finish.pending && !Restless(s)) {
      PauseAskedIsHeld(s);
      forall events: seq<ServiceRun.Event> | AllRestful(events)
        ensures JobSilent(s.book, Run(PauseAsked(s), events).book)
      {
        PauseHoldsJob(PauseAsked(s), events);
      }
    } else {
      var t := PauseFailsToHold(s, v);
      var events: seq<ServiceRun.Event> :| AllRestful(events) && t == Run(PauseAsked(s), events);
      assert !JobSilent(s.book, Run(PauseAsked(s), events).book);
    }
  }

  /** Failures of the device make no difference to that, nor, for a file that can be sent, failing reads, unless the
      position counter stands at its last value. */
  lemma PauseHoldsWithoutFailuresIff(s: Service, v: Voice)
    requires Pausable(s, v) && s.status.reports < U32 - 1
    ensures (forall t: Service :: Rests(PauseAsked(s), t, HeadIsPlain(s)) ==> JobSilent(s.book, t.book))
       <==> Spent(s) || (!s.finish.pending && !Restless(s))
  {
    hide Inv, JobSilent, Run, Speaks, Restless, Spent, AllRestful, Rests, Held;
    PauseAskedKeeps(s);
    if Spent(s) || (!s.finish.pending && !Restless(s)) {
      PauseAskedIsHeld(s);
      forall t: Service | Rests(PauseAsked(s), t, HeadIsPlain(s)) ensures JobSilent(s.book, t.book) {
        RestsWanders(PauseAsked(s), t, HeadIsPlain(s));
        var events: seq<ServiceRun.Event> :| AllRestful(events) && t == Run(PauseAsked(s), events);
        PauseHoldsJob(PauseAsked(s), events);
      }
    } else {
      var t := PauseGivesWay(s, v);
    }
  }

  // ---- A paused job that prints on ----

  const BENCH_VOICE := Voice("ok", SyncLine.Format('q', 0, 255), "at", "cold", "warm", -1.0, 300.0)

  lemma BenchSpeaks()
    ensures Speaks(BENCH, BENCH_VOICE)
  {
    hide SyncLine.Format;
    SyncLine.ParseFormat('q', 0, 255);
    var room := BENCH_VOICE.room;
    RoomIsNoWord(room);
    assert SyncLine.Parse("ok") == None && SyncLine.Parse("at") == None;
    assert SyncLine.Parse("cold") == None && SyncLine.Parse("warm") == None;
    Words();
  }

  lemma Words()
    ensures BenchReading("at").Position? && BenchReading("ok") == NoReading
    ensures BenchReading("cold") == Temps(-1.0) && BenchReading("warm") == Temps(300.0)
    ensures BenchReply("ok") == OkText(None)
    ensures BenchReply("at") == BenchReply("cold") == BenchReply("warm") == OtherText
  {
    assert "ok"[0] == 'o' && "at"[0] == 'a' && "cold"[0] == 'c' && "warm"[0] == 'w';
  }

  lemma RoomIsNoWord(line: string)
    requires SyncLine.Parse(line).Some?
    ensures BenchReading(line) == NoReading
  {
  }

  /** A job with a bed to heat. */
  lemma WarmJobBegins(items: seq<Item>, hasPrime: bool) returns (t: Service)
    ensures Leads(Start(BENCH), t, true) && Pausable(t, BENCH_VOICE) && t.status.phase == Preparing && Bites(t.wait)
    ensures t.env == BENCH && t.file == Some(File(items, hasPrime)) && t.job == Job(true, Homing, 0, 0, 0.0)
    ensures !t.finish.pending && !t.abortRequested && !t.queue.active && !t.polling.startup && !t.flow.freeKnown && t.ready
    ensures t.book.items == items && t.book.taken == 0 && !t.book.truncated && t.status.reports == 0
  {
    hide Inv, Leads, Inflight, Speaks;
    BenchSpeaks();
    var s := DeviceReady();
    var e := NewJob(JobRequest(Some(File(items, hasPrime)), true, 60.0, 0.0));
    t := Step(s, e);
    LeadsBy(s, e, true);
    LeadsOn(Start(BENCH), s, t, true);
    StepKeeps(s, e);
    ClearIsEasy(s.flow);
    NoAbort(t);
  }

  /** For every file of plain commands: a pause is asked for while the bed heats, nobody resumes, and the whole file
      is printed and shown as finished, with nothing failing. */
  lemma PausedJobPrintsOn(items: seq<Item>, hasPrime: bool)
    requires forall i :: 0 <= i < |items| ==> Simple(items[i])
    ensures exists s: Service, t: Service ::
      && Leads(Start(BENCH), s, true) && s.job.active && !Busy(s) && s.status.phase == Preparing && s.book.items == items
      && Rests(PauseAsked(s), t, true) && t.status.phase == Finished
      && t.book.items == items && t.book.taken == |items| && !t.book.truncated
  {
    hide Leads, Rests, Inflight, Working, Inv, Bites, Speaks, Reaches, Busy;
    var s := WarmJobBegins(items, hasPrime);
    var p := PauseAsked(s);
    assert s.job.active && !Busy(s);
    var d := PauseWearsOff(s);
    var f := PreparingEnds(d);
    RestsOn(p, d, f, true);
    var g := ItemsGo(f, |items|);
    RestsOn(p, f, g, true);
    var h := FinishBegins(g, false);
    RestsOn(p, g, h, true);
    var t := FinishingEnds(h);
    RestsOn(p, h, t, true);
  }

  /** The pause runs to its end, the bed is cold and then warm, and the job goes on. */
  lemma PauseWearsOff(s: Service) returns (t: Service)
    requires Pausable(s, BENCH_VOICE) && s.env == BENCH && Bites(s.wait) && s.status.reports == 0 && s.ready
    requires s.job.stage == Homing && s.file.Some? && !s.finish.pending && !s.abortRequested && !s.queue.active
    requires !s.polling.startup && !s.flow.freeKnown
    ensures Rests(PauseAsked(s), t, true) && Stands(t, Homing) && t.file == s.file
    ensures t.book == s.book.(trace := t.book.trace, pauseMark := t.book.pauseMark)
  {
    hide Rests, Working, Inv, Speaks, Bites, Free, Inflight, Manned, Busy, Chilled;
    var a := DeviceOpens(s, BENCH_VOICE);
    AskedIsManned(s, a, BENCH_VOICE);
    var b := PauseRuns(a, BENCH_VOICE);
    RestsOn(PauseAsked(s), a, b, true);
    var c := WaitEnds(b, BENCH_VOICE);
    RestsOn(PauseAsked(s), b, c, true);
    InactiveIsMild(c.wait);
    var d := CalmDown(c, BENCH_VOICE);
    RestsOn(PauseAsked(s), c, d, true);
    ReadyToWork(d, BENCH_VOICE);
    t := d;
  }

  lemma ReadyToWork(s: Service, v: Voice)
    requires Manned(s, v) && !Busy(s) && s.env == BENCH && !s.wait.active && !s.queue.active && !s.polling.startup
    requires Free(s.flow) && !s.flow.freeKnown && s.status.phase == Preparing && s.job.stage == Homing
    ensures Stands(s, Homing)
  {
    hide Inv, Inflight, Speaks;
  }
}
