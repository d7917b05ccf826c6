/** Runs of the print service that show what can happen: a print that ends as finished, whole or cut short; and a job
    that goes on finishing while it is paused. */
module JobRuns {
  import opened FlowState
  import opened GcodeRewrite
  import opened GcodeStream
  import opened MarlinPacket
  import opened MotionPolicy
  import opened MotionSender
  import opened PauseHold
  import opened PrintStatus
  import opened ServiceRun
  import opened ServiceSafety
  import opened ServiceState
  import opened SyncLine

  // ---- A controller on the bench ----

  function BenchReading(line: string): Reading {
    if line == "at" then Position(0.0, 0.0, 0.0, 0.0, None)
    else if line == "cold" then Temperatures(Some(Temperature(-1.0, None)), Some(Temperature(-1.0, None)))
    else if line == "warm" then Temperatures(Some(Temperature(300.0, None)), Some(Temperature(300.0, None)))
    else NoReading
  }

  function BenchReply(line: string): TextReply {
    if line == "ok" then OkText(None) else OtherText
  }

  function Nowhere(line: string): Option<HeaterTarget> {
    None
  }

  function NoNumber(text: string): Option<real> {
    None
  }

  function Zero(x: real): string {
    "0"
  }

  const BENCH := Env(Libc(NoNumber, Zero), BenchReading, BenchReply, Nowhere)

  /** Nothing breaks down. */
  const FAR := 99
  const LUCK := Luck([], false, FAR, FAR, FAR, FAR, false, FAR)

  // ---- Runs ----

  /** A run from s to t; well: in which no read of the job file fails. */
  ghost predicate Leads(s: Service, t: Service, well: bool) {
    exists events: seq<ServiceRun.Event> ::
      t == Run(s, events) && (well ==> forall i :: 0 <= i < |events| ==> ReadsWell(events[i]))
  }

  lemma {:induction false} RunJoins(s: Service, a: seq<ServiceRun.Event>, b: seq<ServiceRun.Event>)
    ensures Run(s, a + b) == Run(Run(s, a), b)
  {
    hide Step;
    if b == [] {
      assert a + b == a;
    } else {
      var n := |b| - 1;
      RunJoins(s, a, b[..n]);
      assert (a + b)[..|a + b| - 1] == a + b[..n];
    }
  }

  lemma LeadsBy(s: Service, e: ServiceRun.Event, well: bool)
    requires well ==> ReadsWell(e)
    ensures Leads(s, Step(s, e), well)
  {
    hide Step;
    assert [e][..0] == [] && Run(s, []) == s;
    assert Run(s, [e]) == Step(s, e);
  }

  lemma LeadsSelf(s: Service)
    ensures Leads(s, s, true)
  {
    assert Run(s, []) == s;
  }

  lemma LeadsOn(s: Service, t: Service, u: Service, well: bool)
    requires Leads(s, t, well) && Leads(t, u, well)
    ensures Leads(s, u, well)
  {
    hide Run;
    var a: seq<ServiceRun.Event> :| t == Run(s, a) && (well ==> forall i :: 0 <= i < |a| ==> ReadsWell(a[i]));
    var b: seq<ServiceRun.Event> :| u == Run(t, b) && (well ==> forall i :: 0 <= i < |b| ==> ReadsWell(b[i]));
    RunJoins(s, a, b);
    assert u == Run(s, a + b);
  }

  lemma LeadsWell(s: Service, t: Service)
    requires Leads(s, t, true)
    ensures Leads(s, t, false)
  {
    hide Run;
  }

  /** The device takes everything it is given. */
  predicate Lucky(e: ServiceRun.Event) {
    (e.Motion? ==> !e.lineBroken && e.luck == LUCK) && (e.Poll? ==> e.broken == FAR)
  }

  /** A run without a resume, a new job or commands by hand, in which the device takes everything. */
  ghost predicate Rests(s: Service, t: Service, well: bool) {
    exists events: seq<ServiceRun.Event> ::
      t == Run(s, events)
      && forall i :: 0 <= i < |events| ==> Restful(events[i]) && Lucky(events[i]) && (well ==> ReadsWell(events[i]))
  }

  lemma RestsBy(s: Service, e: ServiceRun.Event, well: bool)
    requires Restful(e) && Lucky(e) && (well ==> ReadsWell(e))
    ensures Rests(s, Step(s, e), well)
  {
    hide Step;
    assert [e][..0] == [] && Run(s, []) == s;
    assert Run(s, [e]) == Step(s, e);
  }

  lemma RestsSelf(s: Service)
    ensures Rests(s, s, true)
  {
    assert Run(s, []) == s;
  }

  lemma RestsOn(s: Service, t: Service, u: Service, well: bool)
    requires Rests(s, t, well) && Rests(t, u, well)
    ensures Rests(s, u, well)
  {
    hide Run, Restful, Lucky, ReadsWell;
    var a: seq<ServiceRun.Event> :| t == Run(s, a)
      && forall i :: 0 <= i < |a| ==> Restful(a[i]) && Lucky(a[i]) && (well ==> ReadsWell(a[i]));
    var b: seq<ServiceRun.Event> :| u == Run(t, b)
      && forall i :: 0 <= i < |b| ==> Restful(b[i]) && Lucky(b[i]) && (well ==> ReadsWell(b[i]));
    RunJoins(s, a, b);
    assert u == Run(s, a + b);
  }

  lemma RestsWell(s: Service, t: Service)
    requires Rests(s, t, true)
    ensures Rests(s, t, false)
  {
    hide Run, Restful, Lucky;
  }

  lemma RestsLeads(s: Service, t: Service, well: bool)
    requires Rests(s, t, well)
    ensures Leads(s, t, well)
  {
    hide Run, Restful, Lucky;
  }

  // ---- The window ----

  predicate Easy(st: State) {
    |st.slots| == WINDOW && !st.freeKnown
  }

  lemma {:induction false} CountFull(slots: seq<Slot>, n: nat)
    requires n <= |slots| && forall i :: 0 <= i < n ==> Pending(slots[i])
    ensures Count(slots, Pending, n) == n
  {
    if n > 0 {
      CountFull(slots, n - 1);
    }
  }

  lemma RoomInEasy(st: State)
    requires Easy(st) && Inflight(st) < WINDOW
    ensures CanSend(st)
  {
    if !CanSend(st) {
      CountFull(st.slots, WINDOW);
      assert false;
    }
  }

  lemma OpenWhenEmpty(st: State)
    requires Easy(st) && Inflight(st) == 0
    ensures Open(st)
  {
    hide Inflight, CanSend;
    RoomInEasy(st);
    if !Open(st) {
      ClosedGate(st);
    }
  }

  lemma ClearIsEasy(st: State)
    requires |st.slots| == WINDOW
    ensures Easy(Clear(st)) && Inflight(Clear(st)) == 0
  {
    ClearEmpties(st);
  }

  /** A bare "ok" acknowledges one packet in flight. */
  lemma OkAcknowledges(st: State)
    requires Easy(st)
    ensures var t := Handle(st, OkText(None)).0; Easy(t) && Inflight(t) == if Inflight(st) == 0 then 0 else Inflight(st) - 1
  {
    var i := First(st.slots, Pending, 0);
    if i == -1 {
      CountNone(st.slots, Pending, |st.slots|);
    } else {
      PendingCounts(st.slots, |st.slots|, i);
      CountUpdate(st.slots, Pending, |st.slots|, i, st.slots[i].(acknowledged := true));
    }
  }

  lemma SendOneEasy(st: State, command: string, broken: bool)
    requires Easy(st)
    ensures Easy(SendOne(st, command, broken).0)
  {
  }

  lemma {:induction false} SendListEasy(st: State, commands: seq<string>, i: nat, strict: bool, broken: nat)
    requires Easy(st)
    ensures Easy(SendList(st, commands, i, strict, broken).flow)
    decreases |commands| - i
  {
    hide Easy, SendOne, Gate;
    if i < |commands| && Gate(st, strict) {
      SendOneEasy(st, commands[i], broken == i);
      SendListEasy(SendOne(st, commands[i], broken == i).0, commands, i + 1, strict, broken);
    }
  }

  /** A packet that is sent is in flight. */
  lemma SentIsInFlight(st: State, command: string)
    requires CanSend(st) && 0 < |command| <= 255
    ensures Inflight(SendOne(st, command, false).0) == Inflight(st) + 1
  {
    PrepareAddsOne(st, command, MotionSender.BUFFER);
  }

  // ---- Reading lines ----

  function Oks(n: nat): (r: seq<string>)
    ensures |r| == n
  {
    if n == 0 then [] else ["ok"] + Oks(n - 1)
  }

  lemma OkHandled(st: State)
    ensures Handle(st, OkText(None)).1 == Handled
  {
  }

  lemma OkSeen(s: Service, allow: bool)
    requires s.env == BENCH
    ensures var w := Watched(s.status, s.wait, NoReading);
      LineSeen(s, "ok", allow, false) == (s.(status := w.0, wait := w.1, flow := Handle(s.flow, OkText(None)).0), false)
  {
    hide Handle, Watched;
    assert Parse("ok") == None;
    assert "ok"[0] != "at"[0];
    assert BenchReading("ok") == NoReading && BenchReply("ok") == OkText(None);
    OkHandled(s.flow);
  }

  /** What n times "ok" leaves in flight. */
  function Rest(inflight: nat, n: nat): nat {
    if inflight < n then 0 else inflight - n
  }

  /** With no wait armed, acknowledgements change nothing but the window. */
  lemma {:induction false} OksSeen(s: Service, n: nat, allow: bool)
    requires s.env == BENCH && !s.wait.active && Easy(s.flow)
    ensures var r := LinesSeen(s, Oks(n), allow, []);
      && !r.1 && r.0 == s.(flow := r.0.flow) && Easy(r.0.flow) && Inflight(r.0.flow) == Rest(Inflight(s.flow), n)
    decreases n
  {
    hide LineSeen, Inflight, Easy, Handle;
    if n > 0 {
      OkSeen(s, allow);
      OkAcknowledges(s.flow);
      assert Oks(n)[0] == "ok" && Oks(n)[1..] == Oks(n - 1);
      OksSeen(LineSeen(s, "ok", allow, false).0, n - 1, allow);
    }
  }

  // ---- Motion polls ----

  lemma MotionIs(s: Service, lines: seq<string>)
    requires s.ready
    requires var r := LinesSeen(s, lines, AllowResync(s), []).0;
      var a := PauseResumePolled(r, false, FAR);
      r.status.phase != Broken && !a.abort.pending && Refreshed(FinishPolled(a, FAR)) == FinishPolled(a, FAR)
    ensures var a := PauseResumePolled(LinesSeen(s, lines, AllowResync(s), []).0, false, FAR);
      Step(s, Motion(lines, false, LUCK)) == Probed(FirmwareNoted(FinishPolled(a, FAR)), LUCK).0
  {
    hide LinesSeen, PauseResumePolled, FinishPolled, Refreshed, Probed;
  }

  /** With something in flight nothing is probed. */
  lemma NoProbes(s: Service)
    requires Inflight(s.flow) != 0
    ensures Probed(s, LUCK).0 == s
  {
    hide Inflight;
  }

  /** During a job at most temperature and position are asked for, and not twice in a row. */
  lemma JobProbes(s: Service)
    requires s.ready && s.job.active && !s.polling.startup && Inflight(s.flow) == 0 && Easy(s.flow)
    ensures var t := Probed(s, LUCK).0;
      && t == s.(flow := t.flow, polling := t.polling, book := s.book.(trace := t.book.trace))
      && Easy(t.flow) && !t.polling.startup
      && (Inflight(t.flow) == 0 || t.polling.temperature == 0) && (s.polling.temperature == 0 ==> Inflight(t.flow) == 0)
  {
    hide Inflight, SendList, Easy;
    SendListEasy(s.flow, STATUS_PROBE, 0, false, FAR);
  }

  /** A job is under way and nothing else is. */
  ghost predicate Working(s: Service) {
    && Inv(s) && s.env == BENCH && s.ready && !s.abortRequested && !s.abort.pending && !s.queue.active && !Busy(s)
    && !s.wait.active && s.job.active && !s.polling.startup && Easy(s.flow)
    && (s.status.phase == Preparing || s.status.phase == Printing)
  }

  lemma ActiveIsFresh(s: Service)
    requires s.job.active
    ensures Refreshed(s) == s
  {
  }

  lemma NoLists(s: Service)
    requires !Busy(s)
    ensures PauseResumePolled(s, false, FAR) == s
  {
    hide ResumePolled;
    ResumeLeavesJob(s, false, FAR);
  }

  /** t differs from s in the window, the probes and what they have submitted. */
  ghost predicate Quietly(s: Service, t: Service) {
    t == s.(flow := t.flow, polling := t.polling, book := s.book.(trace := t.book.trace))
  }

  lemma DrainOnce(s: Service) returns (t: Service)
    requires Working(s) && !s.finish.pending
    ensures Rests(s, t, true) && Working(t) && Quietly(s, t)
    ensures Inflight(t.flow) == 0 || t.polling.temperature == 0
    ensures s.polling.temperature == 0 ==> Inflight(t.flow) == 0
  {
    hide Inv, Easy, Inflight, Rests, LinesSeen, PauseResumePolled, Refreshed, Probed;
    var e := Motion(Oks(Inflight(s.flow)), false, LUCK);
    t := Step(s, e);
    RestsBy(s, e, true);
    StepKeeps(s, e);
    OksSeen(s, Inflight(s.flow), AllowResync(s));
    var r := LinesSeen(s, Oks(Inflight(s.flow)), AllowResync(s), []).0;
    NoLists(r);
    ActiveIsFresh(r);
    MotionIs(s, Oks(Inflight(s.flow)));
    JobProbes(FirmwareNoted(r));
  }

  lemma Drain(s: Service) returns (t: Service)
    requires Working(s) && !s.finish.pending
    ensures Rests(s, t, true) && Working(t) && Quietly(s, t) && Inflight(t.flow) == 0
  {
    hide Working, Inflight, Rests;
    t := DrainOnce(s);
    if Inflight(t.flow) != 0 {
      var u := DrainOnce(t);
      RestsOn(s, t, u, true);
      t := u;
    }
  }

  // ---- A job up to its file ----

  /** The job works at a stage with nothing in flight. */
  ghost predicate Stands(s: Service, stage: Stage) {
    Working(s) && Inflight(s.flow) == 0 && s.job.stage == stage && !s.finish.pending
  }

  /** t is further along the same file. */
  ghost predicate SameFile(s: Service, t: Service) {
    t.file == s.file && t.book == s.book.(trace := t.book.trace) && t.status.reports == s.status.reports
  }

  /** One job poll of a working job. */
  lemma PollIs(s: Service, readFails: bool)
    requires Working(s) && !s.finish.pending
    ensures Step(s, Poll(readFails, FAR)) == if s.job.stage != Streaming then PreparePolled(s, FAR)
                                             else StreamPolled(s, readFails, false)
  {
    hide Inv, Inflight, Easy, PreparePolled, StreamPolled;
  }

  lemma HomingMoves(s: Service) returns (t: Service)
    requires Stands(s, Homing)
    ensures Rests(s, t, true) && Working(t) && !t.finish.pending && SameFile(s, t)
    ensures t.job.stage == HomeDrain || (t.job.stage == Homing && t.job.prepareIndex > s.job.prepareIndex)
  {
    hide Easy, Inflight, SendList, OnTrack, Rests, Open;
    assert s.job.prepareIndex <= |HOME_COMMANDS| by {
      HomingBounds(s);
    }
    t := Step(s, Poll(false, FAR));
    RestsBy(s, Poll(false, FAR), true);
    StepKeeps(s, Poll(false, FAR));
    PollIs(s, false);
    OpenWhenEmpty(s.flow);
    assert Sound(HOME_COMMANDS);
    ListMovesIff(s.flow, HOME_COMMANDS, s.job.prepareIndex, FAR);
    SoundListNeverFails(s.flow, HOME_COMMANDS, s.job.prepareIndex, true, FAR);
    SendListEasy(s.flow, HOME_COMMANDS, s.job.prepareIndex, true, FAR);
    SendListFacts(s.flow, HOME_COMMANDS, s.job.prepareIndex, true, FAR);
  }

  lemma HomingBounds(s: Service)
    requires Inv(s)
    ensures s.job.prepareIndex <= |HOME_COMMANDS| && s.job.startupIndex <= |StartSequence(s.book.hasPrime)|
    ensures s.job.stage != Streaming ==> s.file.Some? && s.file.value.hasPrime == s.book.hasPrime
    ensures s.finish.pending ==> s.finish.policy == FINISH_COMMANDS && s.finish.index <= |FINISH_COMMANDS|
    ensures s.book.taken <= |s.book.items|
    ensures s.file.Some? ==> s.file.value.rest == s.book.items[s.book.taken..] && !s.book.truncated
  {
    hide Inflight, Log;
  }

  lemma {:induction false} HomingEnds(s: Service) returns (t: Service)
    requires Stands(s, Homing)
    ensures Rests(s, t, true) && Stands(t, HomeDrain) && SameFile(s, t)
    decreases |HOME_COMMANDS| - s.job.prepareIndex
  {
    hide Working, Rests, Inflight;
    var u := HomingMoves(s);
    var v := Drain(u);
    RestsOn(s, u, v, true);
    t := v;
    if v.job.stage == Homing {
      assert v.job.prepareIndex <= |HOME_COMMANDS| by {
        WorkingBounds(v);
      }
      var w := HomingEnds(v);
      RestsOn(s, v, w, true);
      t := w;
    }
  }

  lemma WorkingBounds(s: Service)
    requires Working(s)
    ensures s.job.prepareIndex <= |HOME_COMMANDS| && s.job.startupIndex <= |StartSequence(s.book.hasPrime)|
  {
    hide Inv;
    HomingBounds(s);
  }

  /** A stage that only waits for the window to drain, or for no heater. */
  lemma StageMoves(s: Service, stage: Stage, next: Stage) returns (t: Service)
    requires Stands(s, stage)
    requires (stage == HomeDrain && next == Heating) || (stage == Heating && next == Startup)
             || (stage == StartupDrain && next == Streaming)
    ensures Rests(s, t, true) && Stands(t, next) && SameFile(s, t)
  {
    hide Inv, Easy, Inflight, Rests, HomingPolled, StartupPolled;
    t := Step(s, Poll(false, FAR));
    RestsBy(s, Poll(false, FAR), true);
    StepKeeps(s, Poll(false, FAR));
    PollIs(s, false);
  }

  lemma StartupMoves(s: Service) returns (t: Service)
    requires Stands(s, Startup)
    ensures Rests(s, t, true) && Working(t) && !t.finish.pending && SameFile(s, t)
    ensures t.job.stage == StartupDrain || (t.job.stage == Startup && t.job.startupIndex > s.job.startupIndex)
  {
    hide Easy, Inflight, SendList, OnTrack, Rests, Open;
    HomingBounds(s);
    t := Step(s, Poll(false, FAR));
    RestsBy(s, Poll(false, FAR), true);
    StepKeeps(s, Poll(false, FAR));
    PollIs(s, false);
    OpenWhenEmpty(s.flow);
    var list := StartSequence(s.book.hasPrime);
    assert Sound(list) && |list| <= FAR;
    hide StartSequence;
    ListMovesIff(s.flow, list, s.job.startupIndex, FAR);
    SoundListNeverFails(s.flow, list, s.job.startupIndex, true, FAR);
    SendListEasy(s.flow, list, s.job.startupIndex, true, FAR);
    SendListFacts(s.flow, list, s.job.startupIndex, true, FAR);
  }

  lemma {:induction false} StartupEnds(s: Service) returns (t: Service)
    requires Stands(s, Startup)
    ensures Rests(s, t, true) && Stands(t, StartupDrain) && SameFile(s, t)
    decreases |StartSequence(s.book.hasPrime)| - s.job.startupIndex
  {
    hide Working, Rests, Inflight, StartSequence;
    var u := StartupMoves(s);
    var v := Drain(u);
    RestsOn(s, u, v, true);
    t := v;
    if v.job.stage == Startup {
      WorkingBounds(v);
      var w := StartupEnds(v);
      RestsOn(s, v, w, true);
      t := w;
    }
  }

  lemma PreparingEnds(s: Service) returns (t: Service)
    requires Stands(s, Homing)
    ensures Rests(s, t, true) && Stands(t, Streaming) && SameFile(s, t)
  {
    hide Stands, Rests;
    var a := HomingEnds(s);
    var b := StageMoves(a, HomeDrain, Heating);
    RestsOn(s, a, b, true);
    var c := StageMoves(b, Heating, Startup);
    RestsOn(s, b, c, true);
    var d := StartupEnds(c);
    RestsOn(s, c, d, true);
    t := StageMoves(d, StartupDrain, Streaming);
    RestsOn(s, d, t, true);
  }

  // ---- The file and the end ----

  predicate Simple(item: Item) {
    !item.waitBed && !item.waitNozzle && 0 < |item.command| <= 255
  }

  lemma ItemGoes(s: Service) returns (t: Service)
    requires Stands(s, Streaming) && s.file.Some? && s.file.value.rest != [] && Simple(s.file.value.rest[0])
    ensures Rests(s, t, true) && Working(t) && !t.finish.pending && t.job.stage == Streaming
    ensures t.file == Some(s.file.value.(rest := s.file.value.rest[1..]))
    ensures t.book == s.book.(trace := t.book.trace, taken := s.book.taken + 1) && t.status.reports == s.status.reports
  {
    hide Easy, Inflight, SendOne, Inv, Rests, CanSend, HasPendingBarrier;
    t := Step(s, Poll(false, FAR));
    RestsBy(s, Poll(false, FAR), true);
    StepKeeps(s, Poll(false, FAR));
    PollIs(s, false);
    OpenWhenEmpty(s.flow);
    var command := s.file.value.rest[0].command;
    SoundSends(s.flow, command, false);
    SendOneEasy(s.flow, command, false);
  }

  /** Submits the next n commands of the file. */
  lemma {:induction false} ItemsGo(s: Service, n: nat) returns (t: Service)
    requires Stands(s, Streaming) && s.file.Some? && n <= |s.file.value.rest|
    requires forall i :: 0 <= i < n ==> Simple(s.file.value.rest[i])
    ensures Rests(s, t, true) && Stands(t, Streaming)
    ensures t.file == Some(s.file.value.(rest := s.file.value.rest[n..]))
    ensures t.book == s.book.(trace := t.book.trace, taken := s.book.taken + n) && t.status.reports == s.status.reports
    decreases n
  {
    hide Working, Rests, Inflight, Simple;
    t := s;
    if n == 0 {
      RestsSelf(s);
    } else {
      var u := ItemGoes(s);
      var v := Drain(u);
      RestsOn(s, u, v, true);
      assert forall i :: 0 <= i < n - 1 ==> v.file.value.rest[i] == s.file.value.rest[i + 1];
      t := ItemsGo(v, n - 1);
      RestsOn(s, v, t, true);
      assert s.file.value.rest[1..][n - 1..] == s.file.value.rest[n..];
    }
  }

  /** The end of the file, or a read that fails, begins the finishing list. */
  lemma FinishBegins(s: Service, readFails: bool) returns (t: Service)
    requires Stands(s, Streaming) && s.file.Some? && (s.file.value.rest == [] || readFails)
    ensures Rests(s, t, !readFails) && Working(t) && t.finish == Cleanup(true, FINISH_COMMANDS, 0)
    ensures t.book == s.book.(truncated := readFails && s.file.value.rest != []) && Inflight(t.flow) == 0
    ensures t.status.phase == Printing && t.status.reports == s.status.reports
  {
    hide Easy, Inflight, Inv, Rests, CanSend, HasPendingBarrier;
    t := Step(s, Poll(readFails, FAR));
    RestsBy(s, Poll(readFails, FAR), !readFails);
    StepKeeps(s, Poll(readFails, FAR));
    PollIs(s, readFails);
    OpenWhenEmpty(s.flow);
  }

  lemma {:induction false} SendListGrows(st: State, commands: seq<string>, i: nat, strict: bool, broken: nat)
    requires i <= |commands| < broken && Sound(commands)
    ensures var r := SendList(st, commands, i, strict, broken); Inflight(r.flow) == Inflight(st) + r.index - i
    decreases |commands| - i
  {
    hide CanSend, SendOne, HasPendingBarrier, Inflight;
    if i < |commands| && Gate(st, strict) {
      SentIsInFlight(st, commands[i]);
      SoundSends(st, commands[i], false);
      SendListGrows(SendOne(st, commands[i], false).0, commands, i + 1, strict, broken);
    }
  }

  lemma ProbeOnlySubmits(s: Service, commands: seq<string>, broken: nat)
    ensures Quietly(s, ProbeSent(s, commands, broken).0) && ProbeSent(s, commands, broken).0.polling == s.polling
  {
    hide SendList;
  }

  lemma FirmwareOnlySubmits(s: Service, broken: bool)
    ensures Quietly(s, FirmwareProbed(s, broken).0)
  {
    hide SendOne, Inflight, Recorded;
    RecordedFrame(s.book, FromProbe, ["M115"]);
  }

  lemma RecordedFrame(b: Book, origin: Origin, commands: seq<string>)
    ensures var c := Recorded(b, origin, commands); c == b.(trace := c.trace)
  {
  }

  lemma ProbesOnlySubmit(s: Service)
    ensures Quietly(s, Probed(s, LUCK).0)
  {
    hide ProbeSent, FirmwareProbed, Inflight;
    ProbeOnlySubmits(s, STARTUP_PROBE, FAR);
    var c := StartupProbed(s, FAR).0;
    FirmwareOnlySubmits(c, false);
    ProbeOnlySubmits(FirmwareProbed(c, false).0, STATUS_PROBE, FAR);
  }

  /** Whether the print has ended as finished. */
  ghost predicate Ended(s: Service, b: Book) {
    s.status.phase == Finished && s.book == b.(trace := s.book.trace)
  }

  /** One motion poll of the finishing list, when everything in flight has been acknowledged. */
  lemma FinishPolledIs(s: Service)
    requires Working(s) && s.finish.pending && Inflight(s.flow) == 0
    ensures var t := FinishPolled(s, FAR);
      if s.finish.index == |FINISH_COMMANDS| then t.status.phase == Finished && t.book == s.book
      else
        && t == s.(flow := t.flow, finish := t.finish, book := s.book.(trace := t.book.trace))
        && t.finish.pending && t.finish.index > s.finish.index && Easy(t.flow) && Inflight(t.flow) != 0
  {
    hide Easy, Inflight, OnTrack, SendList, CanSend, Open;
    HomingBounds(s);
    FinishIsSound();
    OpenWhenEmpty(s.flow);
    ListMovesIff(s.flow, FINISH_COMMANDS, s.finish.index, FAR);
    SoundListNeverFails(s.flow, FINISH_COMMANDS, s.finish.index, true, FAR);
    SendListEasy(s.flow, FINISH_COMMANDS, s.finish.index, true, FAR);
    SendListGrows(s.flow, FINISH_COMMANDS, s.finish.index, true, FAR);
    EndedList(s.flow, FINISH_COMMANDS, s.finish.index);
    RecordNothing(s.book, FromJob);
    assert FINISH_COMMANDS[|FINISH_COMMANDS|..] == [];
  }

  lemma EndedList(st: State, commands: seq<string>, i: nat)
    ensures i == |commands| ==> SendList(st, commands, i, true, FAR) == Sending(st, i, End.Ended)
  {
  }

  lemma FinishingMoves(s: Service) returns (t: Service)
    requires Working(s) && s.finish.pending
    ensures Rests(s, t, true)
    ensures s.finish.index == |FINISH_COMMANDS| ==> Ended(t, s.book)
    ensures s.finish.index != |FINISH_COMMANDS| ==>
              Working(t) && t.finish.pending && t.finish.index > s.finish.index && t.book == s.book.(trace := t.book.trace)
  {
    hide Inv, Easy, Inflight, Rests, LinesSeen, PauseResumePolled, FinishPolled, Refreshed, Probed;
    var e := Motion(Oks(Inflight(s.flow)), false, LUCK);
    t := Step(s, e);
    RestsBy(s, e, true);
    StepKeeps(s, e);
    OksSeen(s, Inflight(s.flow), AllowResync(s));
    var r := LinesSeen(s, Oks(Inflight(s.flow)), AllowResync(s), []).0;
    LinesSeenKeeps(s, Oks(Inflight(s.flow)), AllowResync(s), []);
    NoLists(r);
    FinishPolledIs(r);
    var f := FinishPolled(r, FAR);
    FinishedIsFresh(f);
    MotionIs(s, Oks(Inflight(s.flow)));
    ProbesOnlySubmit(FirmwareNoted(f));
    if r.finish.index != |FINISH_COMMANDS| {
      NoProbes(FirmwareNoted(f));
    }
  }

  lemma FinishedIsFresh(s: Service)
    requires s.job.active || s.status.phase == Finished
    ensures Refreshed(s) == s
  {
  }

  lemma {:induction false} FinishingEnds(s: Service) returns (t: Service)
    requires Working(s) && s.finish.pending
    ensures Rests(s, t, true) && Ended(t, s.book)
    decreases |FINISH_COMMANDS| - s.finish.index
  {
    hide Working, Rests, Inflight;
    WorkingFinish(s);
    t := FinishingMoves(s);
    if s.finish.index != |FINISH_COMMANDS| {
      WorkingFinish(t);
      var u := FinishingEnds(t);
      RestsOn(s, t, u, true);
      t := u;
    }
  }

  lemma WorkingFinish(s: Service)
    requires Working(s) && s.finish.pending
    ensures s.finish.index <= |FINISH_COMMANDS|
  {
    hide Inv;
    HomingBounds(s);
  }

  // ---- From the start ----

  /** The start-up probe goes out, and the device is ready for a job. */
  lemma DeviceReady() returns (t: Service)
    ensures Leads(Start(BENCH), t, true) && Inv(t)
    ensures t == Start(BENCH).(ready := true, flow := t.flow, polling := t.polling, book := Start(BENCH).book.(trace := t.book.trace))
    ensures !t.polling.startup && |t.flow.slots| == WINDOW
  {
    hide Inv, Leads, Inflight, Probed, PauseResumePolled;
    var s := Start(BENCH);
    StartInv(BENCH);
    var o := Step(s, OpenMotion(true));
    LeadsBy(s, OpenMotion(true), true);
    StepKeeps(s, OpenMotion(true));
    var e := Motion([], false, LUCK);
    t := Step(o, e);
    LeadsBy(o, e, true);
    LeadsOn(s, o, t, true);
    StepKeeps(o, e);
    FreshIsEasy();
    FirstProbe(o);
    NoLists(o);
    MotionIs(o, []);
  }

  lemma FreshIsEasy()
    ensures Easy(Fresh()) && Inflight(Fresh()) == 0
  {
    CountNone(Fresh().slots, Pending, WINDOW);
  }

  lemma FirstProbe(s: Service)
    requires s.ready && s.polling.startup && Easy(s.flow) && Inflight(s.flow) == 0
    ensures var t := Probed(s, LUCK).0; Quietly(s, t) && !t.polling.startup && |t.flow.slots| == WINDOW
  {
    hide ProbeSent, FirmwareProbed, Inflight, Easy;
    ProbesOnlySubmit(s);
    ProbeOnlySubmits(s, STARTUP_PROBE, FAR);
    StartupProbeIsSent(s);
    var c := StartupProbed(s, FAR).0;
    FirmwareOnlySubmits(c, false);
    FirmwareKeepsStartup(c);
    var d := FirmwareProbed(c, false).0;
    ProbeOnlySubmits(d, STATUS_PROBE, FAR);
    ProbeKeepsEasy(d, STATUS_PROBE);
  }

  lemma StartupProbeIsSent(s: Service)
    requires s.ready && s.polling.startup && Easy(s.flow) && Inflight(s.flow) == 0
    ensures var t := StartupProbed(s, FAR).0; !t.polling.startup && Easy(t.flow)
  {
    hide SendList, Inflight, Easy;
    assert Sound(STARTUP_PROBE);
    SoundListNeverFails(s.flow, STARTUP_PROBE, 0, false, FAR);
    SendListEasy(s.flow, STARTUP_PROBE, 0, false, FAR);
  }

  lemma FirmwareKeepsStartup(s: Service)
    requires Easy(s.flow)
    ensures FirmwareProbed(s, false).0.polling.startup == s.polling.startup && Easy(FirmwareProbed(s, false).0.flow)
  {
    hide SendOne, Inflight, Easy;
    SendOneEasy(s.flow, "M115", false);
  }

  lemma ProbeKeepsEasy(s: Service, commands: seq<string>)
    requires Easy(s.flow)
    ensures |s.flow.slots| == |ProbeSent(s, commands, FAR).0.flow.slots| == WINDOW
  {
    hide SendList;
    SendListEasy(s.flow, commands, 0, false, FAR);
  }

  lemma JobBegins(items: seq<Item>, hasPrime: bool) returns (t: Service)
    ensures Leads(Start(BENCH), t, true) && Stands(t, Homing) && t.file == Some(File(items, hasPrime))
    ensures t.book.items == items && t.book.taken == 0 && !t.book.truncated && t.status.reports == 0
  {
    hide Inv, Leads, Inflight;
    var s := DeviceReady();
    var e := NewJob(JobRequest(Some(File(items, hasPrime)), true, 0.0, 0.0));
    t := Step(s, e);
    LeadsBy(s, e, true);
    LeadsOn(Start(BENCH), s, t, true);
    StepKeeps(s, e);
    ClearIsEasy(s.flow);
  }

  /** Every file can be printed to any of its commands and then end as finished, with the book saying so: cut short,
      if a read fails before its end, and whole without a failed read. */
  lemma CutPrintFinishes(items: seq<Item>, hasPrime: bool, n: nat)
    requires n <= |items| && forall i :: 0 <= i < |items| ==> Simple(items[i])
    ensures exists t: Service ::
      && Leads(Start(BENCH), t, n == |items|) && t.status.phase == Finished
      && t.book.items == items && t.book.taken == n && (t.book.truncated <==> n < |items|)
  {
    hide Leads, Rests, Inflight, Working, Inv;
    var a := JobBegins(items, hasPrime);
    var b := PreparingEnds(a);
    var c := ItemsGo(b, n);
    RestsOn(a, b, c, true);
    var d := FinishBegins(c, n < |items|);
    var t := FinishingEnds(d);
    RestsWell(a, c);
    RestsWell(d, t);
    LeadsWell(Start(BENCH), a);
    RestsOn(a, c, d, n == |items|);
    RestsOn(a, d, t, n == |items|);
    RestsLeads(a, t, n == |items|);
    LeadsOn(Start(BENCH), a, t, n == |items|);
  }

  // ---- A pause that does not hold ----

  lemma BarrierCloses(st: State, command: string)
    requires CanSend(st) && 0 < |command| <= 255 && IsBarrier(command)
    ensures !Open(SendOne(st, command, false).0)
  {
    hide IsBarrier;
    var i, t := FirstFree(st), SendOne(st, command, false).0;
    assert t.slots[i] == NewSlot(st, command) && Pending(t.slots[i]) && t.slots[i].barrier;
  }

  /** A list stops behind a barrier. */
  lemma StopsAtBarrier(st: State, commands: seq<string>, i: nat)
    requires Open(st) && i + 1 < |commands| <= FAR && Sound(commands) && IsBarrier(commands[i])
    ensures var r := SendList(st, commands, i, true, FAR); r.index == i + 1 && r.end == Stopped && !Open(r.flow)
  {
    hide IsBarrier, SendOne, CanSend, HasPendingBarrier, Inflight;
    SoundSends(st, commands[i], false);
    BarrierCloses(st, commands[i]);
  }

  lemma Barriers()
    ensures IsBarrier("M400") && IsBarrier("G91") && IsBarrier("M83") && !IsBarrier("M114")
    ensures FINISH_COMMANDS[0] == "M400" && FINISH_COMMANDS[1] == "G91" && |FINISH_COMMANDS| == 11
  {
    assert "M400"[..4] == "M400" && "G91"[..3] == "G91" && "M83"[..3] == "M83";
    assert "M114"[0] == 'M' && "M114"[1] == '1' && "M114"[2] == '1';
    assert "M109"[2] == '0' && "M190"[2] == '9' && "M400"[1] == '4' && "M82"[1] == '8' && "M83"[1] == '8';
  }

  /** A command that is no barrier leaves the way open. */
  lemma StaysOpen(st: State, command: string)
    requires Easy(st) && Inflight(st) == 0 && 0 < |command| <= 255 && !IsBarrier(command)
    ensures Open(SendOne(st, command, false).0) && Easy(SendOne(st, command, false).0)
    ensures Inflight(SendOne(st, command, false).0) == 1 && SendOne(st, command, false).1 == Sent
  {
    hide IsBarrier, Inflight;
    OpenWhenEmpty(st);
    SoundSends(st, command, false);
    SentIsInFlight(st, command);
    SendOneEasy(st, command, false);
    RoomInEasy(SendOne(st, command, false).0);
  }

  lemma OneSent(st: State, command: string)
    requires Open(st) && SendOne(st, command, false).1 == Sent
    ensures SendList(st, [command], 0, true, 1) == Sending(SendOne(st, command, false).0, 1, End.Ended)
  {
    hide SendOne, Open;
    var next := SendOne(st, command, false).0;
    assert SendList(next, [command], 1, true, 1) == Sending(next, 1, End.Ended);
  }

  /** The position is asked for as soon as nothing is in flight. */
  lemma PositionAsked(s: Service)
    requires s.probe.pending && !s.probe.sent && Easy(s.flow) && Inflight(s.flow) == 0
    ensures var t := PauseResumePolled(s, false, FAR);
      && t == s.(flow := t.flow, probe := s.probe.(sent := true), book := s.book.(trace := t.book.trace))
      && Easy(t.flow) && Open(t.flow) && Inflight(t.flow) == 1
  {
    hide SendList, SendOne, Inflight, Easy, Open, PauseBegun;
    Barriers();
    OpenWhenEmpty(s.flow);
    StaysOpen(s.flow, "M114");
    OneSent(s.flow, "M114");
  }

  /** The pause list begins once the position has been reported. */
  lemma PositionTaken(s: Service)
    requires s.probe.pending && s.probe.sent && Inflight(s.flow) == 0 && s.status.reports > s.probe.start
    ensures var t := PauseResumePolled(s, false, FAR);
      && t.flow == s.flow && t.finish == s.finish && t.book == s.book.(pauseMark := |s.book.trace|)
      && t.status == s.status && t.abort == s.abort && t.job == s.job.(nozzle := t.job.nozzle) && t.resume == s.resume
      && t.pause == Cleanup(true, PauseCommands(s.env.libc, s.status.x, s.status.y, s.status.z), 0)
      && !t.probe.pending && t == s.(probe := t.probe, saved := t.saved, job := t.job, pause := t.pause, book := t.book)
  {
    hide SendList, Inflight, PauseCommands;
  }

  lemma BenchPause(x: real, y: real, z: real)
    ensures var c := PauseCommands(BENCH.libc, x, y, z); |c| == 10 && Sound(c) && c[0] == "M83"
  {
    hide WipeX, LiftZ;
  }

  /** The first command of a pause list is a barrier. */
  lemma PauseListBegins(s: Service)
    requires !s.probe.pending && s.pause.pending && s.pause.index == 0 && Easy(s.flow) && Inflight(s.flow) == 0
    requires |s.pause.policy| == 10 && Sound(s.pause.policy) && s.pause.policy[0] == "M83"
    ensures var t := PauseResumePolled(s, false, FAR);
      && t == s.(flow := t.flow, pause := s.pause.(index := 1), book := s.book.(trace := t.book.trace))
      && !Open(t.flow) && Inflight(t.flow) == 1
  {
    hide SendList, Inflight, Easy, Open;
    Barriers();
    OpenWhenEmpty(s.flow);
    StopsAtBarrier(s.flow, s.pause.policy, 0);
    SendListGrows(s.flow, s.pause.policy, 0, true, FAR);
  }

  /** One round of the finishing list: at most four commands, none while the way is closed. */
  lemma FinishRound(s: Service)
    requires s.finish.pending && s.finish.policy == FINISH_COMMANDS && s.finish.index < |FINISH_COMMANDS|
    requires Easy(s.flow) && (Open(s.flow) || Inflight(s.flow) > 0)
    ensures var t := FinishPolled(s, FAR);
      && t == s.(flow := t.flow, finish := t.finish, book := s.book.(trace := t.book.trace))
      && t.finish == s.finish.(index := t.finish.index) && Easy(t.flow) && Inflight(t.flow) != 0
      && (Open(s.flow) ==> s.finish.index < t.finish.index <= s.finish.index + 4)
      && (!Open(s.flow) ==> t.finish.index == s.finish.index)
      && (Open(s.flow) ==> !JobSilent(s.book, t.book)) && s.book.trace <= t.book.trace
  {
    hide Inflight, SendList, Easy, Open, JobSilent, Recorded;
    var i := s.finish.index;
    FinishIsSound();
    ListMovesIff(s.flow, FINISH_COMMANDS, i, FAR);
    SoundListNeverFails(s.flow, FINISH_COMMANDS, i, true, FAR);
    SendListEasy(s.flow, FINISH_COMMANDS, i, true, FAR);
    SendListGrows(s.flow, FINISH_COMMANDS, i, true, FAR);
    if Open(s.flow) {
      WithinFour(s.flow, FINISH_COMMANDS, i);
    }
    var r := SendList(s.flow, FINISH_COMMANDS, i, true, FAR);
    RecordedIsSilentIff(s.book, FINISH_COMMANDS[i..r.index]);
    RecordedTrace(s.book, FINISH_COMMANDS[i..r.index]);
  }

  lemma RecordedTrace(b: Book, commands: seq<string>)
    ensures Recorded(b, FromJob, commands) == b.(trace := Recorded(b, FromJob, commands).trace)
    ensures b.trace <= Recorded(b, FromJob, commands).trace
  {
  }

  lemma WithinFour(st: State, commands: seq<string>, i: nat)
    requires i <= |commands| && Open(st)
    ensures Inflight(SendList(st, commands, i, true, FAR).flow) <= STREAM_WINDOW
  {
    hide CanSend, SendList, HasPendingBarrier, Inflight;
    SendListFacts(st, commands, i, true, FAR);
  }

  /** A job is finishing; it may be paused. */
  ghost predicate Finishing(s: Service) {
    && Inv(s) && s.env == BENCH && s.ready && !s.abortRequested && !s.abort.pending && !s.queue.active && !s.resume.pending
    && !s.wait.active && s.job.active && Easy(s.flow)
    && s.finish.pending && s.finish.policy == FINISH_COMMANDS && s.finish.index < |FINISH_COMMANDS|
  }

  /** A motion poll that acknowledges everything in flight, with something in flight again at its end. */
  lemma Round(s: Service, lines: seq<string>, r: Service, a: Service, f: Service)
    requires s.ready && r == LinesSeen(s, lines, AllowResync(s), []).0 && r.status.phase != Broken
    requires a == PauseResumePolled(r, false, FAR) && f == FinishPolled(a, FAR)
    requires !a.abort.pending && f.job.active && Inflight(f.flow) != 0
    ensures Step(s, Motion(lines, false, LUCK)) == FirmwareNoted(f)
  {
    hide LinesSeen, PauseResumePolled, FinishPolled, Refreshed, Probed, Inflight;
    ActiveIsFresh(f);
    MotionIs(s, lines);
    NoProbes(FirmwareNoted(f));
  }

  /** The finishing list has begun, and a pause is asked for. */
  lemma PausedWhileFinishing(s: Service) returns (t: Service)
    requires Working(s) && s.finish == Cleanup(true, FINISH_COMMANDS, 0) && Inflight(s.flow) == 0 && s.status.phase == Printing
    requires s.status.reports == 0
    ensures Leads(s, t, true) && Finishing(t) && t.status.phase == Pausing && t.status.reports == 0
    ensures t.probe == Probe(true, false, 0) && !t.pause.pending && t.finish.index == 1
  {
    hide Inv, Easy, Inflight, Leads, LinesSeen, PauseResumePolled, FinishPolled, Open;
    var e := Motion([], false, LUCK);
    var u := Step(s, e);
    LeadsBy(s, e, true);
    StepKeeps(s, e);
    NoLinesSeen(s);
    NoLists(s);
    OpenWhenEmpty(s.flow);
    FinishRound(s);
    FinishStops(s);
    Round(s, [], s, s, FinishPolled(s, FAR));
    t := Step(u, ServiceRun.Event.Pause);
    LeadsBy(u, ServiceRun.Event.Pause, true);
    StepKeeps(u, ServiceRun.Event.Pause);
    LeadsOn(s, u, t, true);
  }

  /** The first command of the finishing list is a barrier. */
  lemma FinishStops(s: Service)
    requires s.finish == Cleanup(true, FINISH_COMMANDS, 0) && Open(s.flow)
    ensures FinishPolled(s, FAR).finish.index == 1
  {
    hide SendList, Open, Inflight;
    Barriers();
    FinishIsSound();
    StopsAtBarrier(s.flow, FINISH_COMMANDS, 0);
  }

  lemma NoLinesSeen(s: Service)
    ensures LinesSeen(s, [], AllowResync(s), []) == (s, false)
  {
  }

  /** The next poll asks for the position, and goes on finishing. */
  lemma PositionRound(s: Service) returns (t: Service)
    requires Finishing(s) && s.status.phase == Pausing && s.status.reports == 0
    requires s.probe == Probe(true, false, 0) && !s.pause.pending && s.finish.index == 1
    ensures Leads(s, t, true) && Finishing(t) && t.status == s.status && !JobSilent(s.book, t.book)
    ensures t.probe == Probe(true, true, 0) && !t.pause.pending && 1 < t.finish.index <= 5 && s.book.trace <= t.book.trace
  {
    hide Inv, Easy, Inflight, Leads, LinesSeen, PauseResumePolled, FinishPolled, Open, JobSilent;
    var lines := Oks(Inflight(s.flow));
    var e := Motion(lines, false, LUCK);
    t := Step(s, e);
    LeadsBy(s, e, true);
    StepKeeps(s, e);
    OksSeen(s, Inflight(s.flow), AllowResync(s));
    var r := LinesSeen(s, lines, AllowResync(s), []).0;
    PositionAsked(r);
    var a := PauseResumePolled(r, false, FAR);
    FinishRound(a);
    var f := FinishPolled(a, FAR);
    Round(s, lines, r, a, f);
    ListsOnly(r, false, FAR);
    LouderStill(s.book, a.book, f.book);
  }

  lemma LouderStill(b: Book, c: Book, d: Book)
    requires Only(b, c, OTHERS) && c.trace <= d.trace && !JobSilent(c, d)
    ensures !JobSilent(b, d)
  {
    var k :| |c.trace| <= k < |d.trace| && d.trace[k].origin == FromJob;
    assert |b.trace| <= k;
  }

  lemma AtSeen(s: Service, allow: bool)
    requires s.env == BENCH && !s.wait.active
    ensures LineSeen(s, "at", allow, false)
         == (s.(status := s.status.(x := 0.0, y := 0.0, z := 0.0, e := 0.0, reports := (s.status.reports + 1) % U32)), false)
  {
    assert Parse("at") == None;
    assert "ok"[0] != "at"[0];
    assert BenchReading("at") == Position(0.0, 0.0, 0.0, 0.0, None) && BenchReply("at") == OtherText;
  }

  /** The position is reported: the pause list begins, and the finishing list goes on. */
  lemma ReportRound(s: Service) returns (t: Service)
    requires Finishing(s) && s.status.phase == Pausing && s.status.reports == 0
    requires s.probe == Probe(true, true, 0) && !s.pause.pending && s.finish.index <= 5
    ensures Leads(s, t, true) && Finishing(t) && t.status.phase == Pausing && !t.probe.pending
    ensures t.pause == Cleanup(true, t.pause.policy, 0) && 0 < t.finish.index <= 9 && s.book.trace <= t.book.trace
    ensures |t.pause.policy| == 10 && Sound(t.pause.policy) && t.pause.policy[0] == "M83"
  {
    hide Inv, Easy, Inflight, Leads, LinesSeen, LineSeen, PauseResumePolled, FinishPolled, Open, JobSilent, PauseCommands;
    var n := Inflight(s.flow);
    var lines := ["at"] + Oks(n);
    var e := Motion(lines, false, LUCK);
    t := Step(s, e);
    LeadsBy(s, e, true);
    StepKeeps(s, e);
    AtSeen(s, AllowResync(s));
    var l := LineSeen(s, "at", AllowResync(s), false).0;
    OksSeen(l, n, AllowResync(s));
    FirstLineSeen(s, "at", Oks(n), AllowResync(s));
    var r := LinesSeen(s, lines, AllowResync(s), []).0;
    PositionTaken(r);
    var a := PauseResumePolled(r, false, FAR);
    BenchPause(r.status.x, r.status.y, r.status.z);
    OpenWhenEmpty(a.flow);
    FinishRound(a);
    Round(s, lines, r, a, FinishPolled(a, FAR));
  }

  lemma FirstLineSeen(s: Service, line: string, more: seq<string>, allow: bool)
    requires !LineSeen(s, line, allow, false).1
    ensures LinesSeen(s, [line] + more, allow, []) == LinesSeen(LineSeen(s, line, allow, false).0, more, allow, [])
  {
    hide LineSeen;
    assert ([line] + more)[0] == line && ([line] + more)[1..] == more;
  }

  /** The first command of the pause list goes out between two of the finishing list. */
  lemma PauseRound(s: Service) returns (t: Service)
    requires Finishing(s) && s.status.phase == Pausing && !s.probe.pending && s.pause == Cleanup(true, s.pause.policy, 0)
    requires |s.pause.policy| == 10 && Sound(s.pause.policy) && s.pause.policy[0] == "M83" && s.finish.index <= 9
    ensures Leads(s, t, true) && Finishing(t) && t.status.phase == Pausing && t.pause == s.pause.(index := 1)
    ensures t.finish == s.finish && s.book.trace <= t.book.trace
  {
    hide Inv, Easy, Inflight, Leads, LinesSeen, PauseResumePolled, FinishPolled, Open, JobSilent;
    var lines := Oks(Inflight(s.flow));
    var e := Motion(lines, false, LUCK);
    t := Step(s, e);
    LeadsBy(s, e, true);
    StepKeeps(s, e);
    OksSeen(s, Inflight(s.flow), AllowResync(s));
    var r := LinesSeen(s, lines, AllowResync(s), []).0;
    PauseListBegins(r);
    PauseEasy(r);
    var a := PauseResumePolled(r, false, FAR);
    FinishRound(a);
    Round(s, lines, r, a, FinishPolled(a, FAR));
  }

  lemma PauseEasy(s: Service)
    requires !s.probe.pending && s.pause.pending && Easy(s.flow)
    ensures Easy(PauseResumePolled(s, false, FAR).flow)
  {
    hide SendList, Inflight, Easy;
    SendListEasy(s.flow, s.pause.policy, s.pause.index, true, FAR);
  }

  lemma SilenceBroken(b: Book, c: Book, d: Book)
    requires b.trace <= c.trace <= d.trace && !JobSilent(b, c)
    ensures !JobSilent(b, d)
  {
    var k :| |b.trace| <= k < |c.trace| && c.trace[k].origin == FromJob;
    assert d.trace[k].origin == FromJob;
  }

  /** Every job that has read its file to the end can be paused then and go on: while the printer shows "pausing",
      motion polls alone submit more of the job's finishing list, and the pause list begins in the middle of it. */
  lemma PausedJobGoesOnFinishing(items: seq<Item>, hasPrime: bool)
    requires forall i :: 0 <= i < |items| ==> Simple(items[i])
    ensures exists s: Service, t: Service ::
      && Leads(Start(BENCH), s, true) && s.status.phase == Pausing
      && Leads(s, t, true) && t.status.phase == Pausing && !JobSilent(s.book, t.book)
      && t.pause.pending && 0 < t.pause.index < |t.pause.policy|
      && t.finish.pending && 0 < t.finish.index < |t.finish.policy|
  {
    hide Leads, Rests, Working, Finishing, Inflight, JobSilent, Sound;
    var a := JobBegins(items, hasPrime);
    var b := PreparingEnds(a);
    var c := ItemsGo(b, |items|);
    RestsOn(a, b, c, true);
    var d := FinishBegins(c, false);
    RestsOn(a, c, d, true);
    RestsLeads(a, d, true);
    LeadsOn(Start(BENCH), a, d, true);
    var s := PausedWhileFinishing(d);
    LeadsOn(Start(BENCH), d, s, true);
    var p := PositionRound(s);
    var q := ReportRound(p);
    LeadsOn(s, p, q, true);
    var t := PauseRound(q);
    LeadsOn(s, q, t, true);
    SilenceBroken(s.book, p.book, t.book);
    FinishingBounds(t);
  }

  lemma FinishingBounds(s: Service)
    requires Finishing(s)
    ensures s.finish.pending && s.finish.index < |s.finish.policy|
  {
    hide Inv;
  }
}
