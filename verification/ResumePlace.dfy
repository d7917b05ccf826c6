/** Where a resume drives the head: to the place that was reported to the pause. */
module ResumePlace {
  import opened FlowState
  import opened GcodeStream
  import opened MarlinPacket
  import opened MotionPolicy
  import opened MotionSender
  import opened PrintStatus
  import opened ServiceRun
  import opened ServiceSafety
  import opened ServiceState

  /** Where the head is, as far as the status knows. */
  datatype Spot = Spot(x: real, y: real, z: real, e: real, r0: real)

  function SpotOf(s: Status): Spot {
    Spot(s.x, s.y, s.z, s.e, s.r0)
  }

  // ---- Reports ----

  function Reported(p: Spot, r: Reading): Spot {
    if r.Position? then Spot(r.x, r.y, r.z, r.e, if r.r0.Some? then r.r0.value else p.r0) else p
  }

  /** The place after the readings of some lines: that of the last report among them. */
  function SpotAfter(p: Spot, env: Env, lines: seq<string>): Spot {
    if lines == [] then p
    else Reported(SpotAfter(p, env, lines[..|lines| - 1]), env.reading(lines[|lines| - 1]))
  }

  lemma LineMovesSpot(s: Service, line: string, allow: bool, resendFails: bool)
    ensures var t := LineSeen(s, line, allow, resendFails).0;
      && SpotOf(t.status) == Reported(SpotOf(s.status), s.env.reading(line)) && t.env == s.env
      && t.status.reports == (s.status.reports + if s.env.reading(line).Position? then 1 else 0) % U32
  {
    hide Handle, ReplyOf, Resync, Heated;
  }

  /** The place after the lines of a poll is that of the last report among those that were read. */
  lemma {:induction false} LinesMoveSpot(s: Service, lines: seq<string>, allow: bool, fails: seq<bool>) returns (n: nat)
    ensures n <= |lines| && (!LinesSeen(s, lines, allow, fails).1 ==> n == |lines|)
    ensures SpotOf(LinesSeen(s, lines, allow, fails).0.status) == SpotAfter(SpotOf(s.status), s.env, lines[..n])
    decreases |lines|
  {
    hide LineSeen, Reported;
    n := 0;
    if lines != [] {
      var first := |fails| > 0 && fails[0];
      var r := LineSeen(s, lines[0], allow, first);
      LineMovesSpot(s, lines[0], allow, first);
      assert lines[..1] == [lines[0]] && [lines[0]][..0] == [];
      n := 1;
      if !r.1 {
        var m := LinesMoveSpot(r.0, lines[1..], allow, if fails == [] then [] else fails[1..]);
        SpotInTurn(SpotOf(s.status), s.env, [lines[0]], lines[1..][..m]);
        assert lines[..m + 1] == [lines[0]] + lines[1..][..m];
        n := m + 1;
      }
    }
  }

  lemma {:induction false} SpotInTurn(p: Spot, env: Env, a: seq<string>, b: seq<string>)
    ensures SpotAfter(p, env, a + b) == SpotAfter(SpotAfter(p, env, a), env, b)
  {
    hide Reported;
    if b == [] {
      assert a + b == a;
    } else {
      SpotInTurn(p, env, a, b[..|b| - 1]);
      assert (a + b)[..|a + b| - 1] == a + b[..|b| - 1];
    }
  }

  // ---- What keeps the saved place ----

  /** What is saved is what was saved, and a probe under way is the one that was. */
  ghost predicate Kept(s: Service, t: Service) {
    && (t.saved.valid ==> t.saved == s.saved) && (t.probe.pending ==> s.probe.pending && t.probe.start == s.probe.start)
    && t.env == s.env
  }

  lemma KeptTwice(s: Service, t: Service, u: Service)
    requires Kept(s, t) && Kept(t, u)
    ensures Kept(s, u)
  {
  }

  lemma {:induction false} LinesKeepPlace(s: Service, lines: seq<string>, allow: bool, fails: seq<bool>)
    ensures Kept(s, LinesSeen(s, lines, allow, fails).0)
    decreases |lines|
  {
    hide LineSeen;
    if lines != [] {
      var first := |fails| > 0 && fails[0];
      LineSeenFrame(s, lines[0], allow, first);
      var r := LineSeen(s, lines[0], allow, first);
      if !r.1 {
        LinesKeepPlace(r.0, lines[1..], allow, if fails == [] then [] else fails[1..]);
      }
    }
  }

  lemma AbortKeepsPlace(s: Service)
    ensures Kept(s, Aborted(s)) && Kept(s, FaultChecked(s))
  {
  }

  lemma PollsKeepPlace(s: Service, broken: nat)
    ensures Kept(s, AbortPolled(s, broken)) && Kept(s, FinishPolled(s, broken))
    ensures Kept(s, FirmwareNoted(Refreshed(s)))
  {
    hide SendList, Inflight, Recorded;
  }

  lemma ProbesKeepPlace(s: Service, luck: Luck)
    ensures Kept(s, Probed(s, luck).0)
  {
    hide StartupProbed, FirmwareProbed, TemperatureProbed;
    var c := StartupProbed(s, luck.startup).0;
    var d := FirmwareProbed(c, luck.firmware).0;
    ListProbesKeep(s, luck.startup);
    FirmwareProbeKeeps(c, luck.firmware);
    ListProbesKeep(d, luck.temperature);
  }

  lemma ListProbesKeep(s: Service, broken: nat)
    ensures Kept(s, StartupProbed(s, broken).0) && Kept(s, TemperatureProbed(s, broken).0)
  {
    hide SendList, Inflight, Recorded;
  }

  lemma FirmwareProbeKeeps(s: Service, broken: bool)
    ensures Kept(s, FirmwareProbed(s, broken).0)
  {
    hide SendOne, Inflight, Recorded;
  }

  /** The probe is answered: a position has been reported since the pause was asked for. */
  predicate Answered(s: Service) {
    s.probe.pending && s.probe.sent && Inflight(s.flow) == 0 && s.status.reports > s.probe.start
  }

  /** What a pause saves. */
  function Saving(s: Service): Saved {
    var p := SpotOf(s.status);
    Saved(true, p.x, p.y, p.z, p.e, p.r0, if s.status.headSet > 0.0 then s.status.headSet else s.job.nozzle)
  }

  lemma PositionKeepsPlace(s: Service, broken: bool)
    requires s.probe.pending
    ensures !Answered(s) ==> Kept(s, PositionPolled(s, broken).0)
    ensures Answered(s) ==> Saves(s, PositionPolled(s, broken).0)
  {
    hide SendList, Inflight, Recorded, PauseCommands;
  }

  /** The pause saves what it knows and begins its list. */
  ghost predicate Saves(s: Service, t: Service) {
    && t.saved == Saving(s) && !t.probe.pending && t.env == s.env
    && t.pause.pending && t.pause.policy == PauseCommands(s.env.libc, s.status.x, s.status.y, s.status.z)
  }

  lemma ListKeepsPlace(s: Service, c: Cleanup, origin: Origin, broken: nat)
    ensures Kept(s, ListPolled(s, c, origin, broken).0)
  {
    hide SendList, Inflight, Recorded;
  }

  lemma PauseKeepsPlace(s: Service, broken: nat)
    ensures Kept(s, PausePolled(s, broken)) && Kept(s, ResumeListPolled(s, broken))
  {
    hide ListPolled;
    ListKeepsPlace(s, s.pause, FromPause, broken);
    ListKeepsPlace(s, s.resume, FromResume, broken);
  }

  lemma HeatKeepsPlace(s: Service, broken: bool)
    ensures Kept(s, HeatSent(s, broken).0)
  {
    hide SendList, Inflight, Recorded, Waiting;
  }

  lemma ResumeKeepsPlace(s: Service, one: bool, list: nat)
    ensures Kept(s, ResumePolled(s, one, list))
  {
    hide HeatSent, ResumeListPolled, Waiting, Heated;
    HeatKeepsPlace(s, one);
    var t := HeatSent(s, one).0;
    PauseKeepsPlace(t, list);
    PauseKeepsPlace(t.(wait := Off(t.wait)), list);
    PauseKeepsPlace(s, list);
    PauseKeepsPlace(s.(wait := Off(s.wait)), list);
  }

  lemma ListsKeepPlace(s: Service, one: bool, list: nat)
    ensures !Answered(s) ==> Kept(s, PauseResumePolled(s, one, list))
    ensures Answered(s) ==> Saves(s, PauseResumePolled(s, one, list))
  {
    hide PositionPolled, PausePolled, ResumePolled, Inflight, Saves;
    if s.probe.pending {
      PositionKeepsPlace(s, one);
      PositionNeverGoesOn(s, one);
    } else {
      PauseKeepsPlace(s, list);
      ResumeKeepsPlace(s, one, list);
    }
  }

  // ---- Every step ----

  /** The service when a motion poll has read its lines and looked at the faults. */
  function Heard(s: Service, e: Event): Service
    requires e.Motion?
  {
    FaultChecked(if s.ready then LinesSeen(s, e.lines, AllowResync(s), e.luck.resendFails).0 else s)
  }

  /** The moment at which an event saves the place: the answer to a pause's question in a motion poll, or a pause of
      something that is no job. */
  predicate Moment(s: Service, e: Event) {
    || (e.Motion? && Answered(Heard(s, e)))
    || (e.Pause? && !Busy(s) && !s.job.active
        && (s.status.phase == Preparing || s.status.phase == Printing || s.status.phase == Pausing || s.status.phase == Paused))
  }

  function AtMoment(s: Service, e: Event): Service {
    if e.Motion? then Heard(s, e) else s
  }

  lemma MotionKeepsPlace(s: Service, e: Event)
    requires e.Motion?
    ensures !Moment(s, e) ==> Kept(s, Step(s, e))
    ensures Moment(s, e) ==> Step(s, e).saved.valid ==> Step(s, e).saved == Saving(Heard(s, e))
    ensures Moment(s, e) ==> !Step(s, e).probe.pending
    ensures Kept(s, Heard(s, e))
  {
    hide LinesSeen, FaultChecked, PauseResumePolled, AbortPolled, FinishPolled, Refreshed, Probed, Inflight;
    var r := if s.ready then LinesSeen(s, e.lines, AllowResync(s), e.luck.resendFails).0 else s;
    LinesKeepPlace(s, e.lines, AllowResync(s), e.luck.resendFails);
    var k := Heard(s, e);
    AbortKeepsPlace(r);
    var a := PauseResumePolled(k, e.luck.one, e.luck.list);
    ListsKeepPlace(k, e.luck.one, e.luck.list);
    var b := AbortPolled(a, e.luck.abort);
    PollsKeepPlace(a, e.luck.abort);
    var c := FinishPolled(b, e.luck.finish);
    PollsKeepPlace(b, e.luck.finish);
    PollsKeepPlace(c, 0);
    ProbesKeepPlace(FirmwareNoted(Refreshed(c)), e.luck);
  }

  lemma PauseAskedPlace(s: Service)
    ensures var t := PauseAsked(s);
      && (!Moment(s, Pause) ==> t.saved.valid ==> t.saved == s.saved)
      && (Moment(s, Pause) ==> t.saved.valid ==> t.saved == Saving(s))
      && (t.probe.pending ==> (s.probe.pending && t.probe.start == s.probe.start) || t.probe.start == s.status.reports)
      && t.env == s.env
  {
  }

  lemma PreparationKeepsPlace(s: Service, broken: nat)
    ensures Kept(s, HomingPolled(s, broken)) && Kept(s, StartupPolled(s, broken))
  {
    hide SendList, Recorded, StartSequence;
  }

  lemma ItemKeepsPlace(s: Service, broken: bool)
    requires s.file.Some? && s.file.value.rest != []
    ensures Kept(s, ItemSent(s, broken))
  {
    hide SendOne, Recorded, Waiting, Clear;
  }

  lemma StreamKeepsPlace(s: Service, readFails: bool, broken: bool)
    ensures Kept(s, StreamPolled(s, readFails, broken))
  {
    hide ItemSent, Inflight, Heated, Waiting, HasPendingBarrier, CanSend, Clear;
    var t := s.(wait := Off(s.wait));
    if t.file.Some? && t.file.value.rest != [] {
      ItemKeepsPlace(t, broken);
    }
  }

  lemma JobKeepsPlace(s: Service, readFails: bool, broken: nat)
    ensures Kept(s, StreamerPolled(s, readFails, broken))
  {
    hide HomingPolled, StartupPolled, StreamPolled, Inflight, Heated, Waiting, Clear;
    PreparationKeepsPlace(s, broken);
    StreamKeepsPlace(s, readFails, broken == 0);
  }

  lemma {:induction false} QueueKeepsPlace(s: Service, broken: nat)
    ensures Kept(s, QueueSent(s, broken).0)
    decreases |s.queue.items| - s.queue.index
  {
    hide SendOne, Open, QueueItemSent;
    if s.queue.index < |s.queue.items| && Open(s.flow) {
      var item := s.queue.items[s.queue.index];
      var r := SendOne(s.flow, item.command, broken == s.queue.index);
      var u := QueueItemSent(s.(flow := r.0), item);
      QueueItemKeeps(s, r.0);
      if r.1 == Sent && !item.waitBed && !item.waitNozzle {
        QueueKeepsPlace(u, broken);
      }
    }
  }

  lemma QueueItemKeeps(s: Service, flow: State)
    requires s.queue.index < |s.queue.items|
    ensures var u := QueueItemSent(s.(flow := flow), s.queue.items[s.queue.index]);
      Kept(s, u) && u.queue == s.queue.(index := s.queue.index + 1)
  {
    hide Recorded, HeaterSet, Waiting;
  }

  lemma QueuePollKeepsPlace(s: Service, broken: nat)
    ensures Kept(s, QueuePolled(s, broken).0)
  {
    hide QueueSent, Heated, Waiting;
    QueueKeepsPlace(s, broken);
    QueueKeepsPlace(s.(wait := Off(s.wait)), broken);
  }

  lemma RefreshKeepsPlace(s: Service)
    ensures Kept(s, Refreshed(s))
  {
  }

  lemma GcodeKeepsPlace(s: Service, lines: seq<string>, broken: nat)
    ensures Kept(s, GcodeGiven(s, lines, broken))
  {
    hide QueuePolled, Refreshed, RewrittenItems, HeatersSet;
    var items := RewrittenItems(s.env.libc, lines);
    var q := s.(book := s.book.(disturbed := true), queue := Queue(items, 0, false),
                status := HeatersSet(s.env, s.status, items));
    var a := Refreshed(q);
    var r := QueuePolled(a.(queue := a.queue.(active := true)), broken).0;
    RefreshKeepsPlace(q);
    RefreshKeepsPlace(a);
    QueuePollKeepsPlace(a.(queue := a.queue.(active := true)), broken);
    RefreshKeepsPlace(r);
  }

  lemma CommandsKeepPlace(s: Service, e: Event)
    requires e.NewJob? || e.Resume? || e.OpenMotion? || e.Close? || e.LatchAbort?
    ensures Kept(s, Step(s, e))
  {
    hide ResumeCommands, Clear;
  }

  lemma MacrosKeepPlace(s: Service, e: Event)
    requires e.MacroBegin? || e.MacroArm? || e.MacroWait? || e.MacroCool? || e.MacroEnd? || e.MacroSend?
    ensures Kept(s, Step(s, e))
  {
    hide SendOne, Recorded, Roomy, Waiting;
  }

  /** A step keeps the saved place, or saves one; a probe that begins remembers how many reports there have been. */
  lemma StepKeepsPlace(s: Service, e: Event)
    ensures var t := Step(s, e);
      && (t.saved.valid ==> if Moment(s, e) then t.saved == Saving(AtMoment(s, e)) else t.saved == s.saved)
      && (t.probe.pending ==> || (s.probe.pending && t.probe.start == s.probe.start)
                              || (e.Pause? && t.probe.start == s.status.reports))
      && t.env == s.env
  {
    hide MotionPolled, JobPolled, Moment, Saving, Heard, GcodeGiven, PauseAsked;
    if e.Motion? {
      MotionKeepsPlace(s, e);
      MotionEnv(s, e);
    } else if e.Poll? {
      PollKeepsPlace(s, e.readFails, e.broken);
      OnlyThen(s, e);
    } else if e.Pause? {
      PauseAskedPlace(s);
    } else if e.Gcode? {
      GcodeKeepsPlace(s, e.gcode, e.broken);
      OnlyThen(s, e);
    } else if e.Abort? {
      AbortKeepsPlace(s);
      OnlyThen(s, e);
    } else if e.NewJob? || e.Resume? || e.OpenMotion? || e.Close? || e.LatchAbort? {
      CommandsKeepPlace(s, e);
      OnlyThen(s, e);
    } else {
      MacrosKeepPlace(s, e);
      OnlyThen(s, e);
    }
  }

  lemma OnlyThen(s: Service, e: Event)
    requires !e.Motion? && !e.Pause?
    ensures !Moment(s, e)
  {
  }

  lemma PollKeepsPlace(s: Service, readFails: bool, broken: nat)
    ensures Kept(s, JobPolled(s, readFails, broken))
  {
    hide Aborted, QueuePolled, StreamerPolled;
    AbortKeepsPlace(s);
    QueuePollKeepsPlace(s, broken);
    JobKeepsPlace(s, readFails, broken);
  }

  lemma MotionEnv(s: Service, e: Event)
    requires e.Motion?
    ensures Step(s, e).env == s.env
  {
    hide LinesSeen, FaultChecked, PauseResumePolled, AbortPolled, FinishPolled, Refreshed, Probed, Inflight, Saving;
    var k := Heard(s, e);
    MotionKeepsPlace(s, e);
    var a := PauseResumePolled(k, e.luck.one, e.luck.list);
    ListsKeepPlace(k, e.luck.one, e.luck.list);
    var b := AbortPolled(a, e.luck.abort);
    PollsKeepPlace(a, e.luck.abort);
    var c := FinishPolled(b, e.luck.finish);
    PollsKeepPlace(b, e.luck.finish);
    PollsKeepPlace(c, 0);
    ProbesKeepPlace(FirmwareNoted(Refreshed(c)), e.luck);
  }

  // ---- Whole runs ----

  /** Event k of the run saves what s has saved. */
  ghost predicate SavedAt(env: Env, events: seq<Event>, k: nat, saved: Saved) {
    k < |events| && Moment(Run(Start(env), events[..k]), events[k])
    && saved == Saving(AtMoment(Run(Start(env), events[..k]), events[k]))
  }

  /** Event k of the run asks for the pause whose probe began at this count of reports. */
  ghost predicate AskedAt(env: Env, events: seq<Event>, k: nat, start: u32) {
    k < |events| && events[k].Pause? && Run(Start(env), events[..k]).status.reports == start
  }

  lemma {:induction false} SavedInRun(env: Env, events: seq<Event>)
    ensures var s := Run(Start(env), events);
      && (s.saved.valid ==> exists k: nat :: SavedAt(env, events, k, s.saved))
      && (s.probe.pending ==> exists k: nat :: AskedAt(env, events, k, s.probe.start)) && s.env == env
  {
    hide Step, Moment, Saving, AtMoment;
    if events != [] {
      var n := |events| - 1;
      var before := events[..n];
      SavedInRun(env, before);
      var s, t := Run(Start(env), before), Run(Start(env), events);
      StepKeepsPlace(s, events[n]);
      if t.saved.valid {
        if Moment(s, events[n]) {
          assert SavedAt(env, events, n, t.saved);
        } else {
          var k: nat :| SavedAt(env, before, k, s.saved);
          assert before[..k] == events[..k];
          assert SavedAt(env, events, k, t.saved);
        }
      }
      if t.probe.pending {
        if s.probe.pending && t.probe.start == s.probe.start {
          var k: nat :| AskedAt(env, before, k, s.probe.start);
          assert before[..k] == events[..k];
          assert AskedAt(env, events, k, t.probe.start);
        } else {
          assert AskedAt(env, events, n, t.probe.start);
        }
      }
    }
  }

  /** In every run: a resume that drives the head drives it to the place that the service knew when it saved one, with
      the nozzle as hot as it was set then. For a paused job that is when a motion poll had read more reports of the
      position than there were when the pause was asked for. */
  lemma ResumeReturns(env: Env, events: seq<Event>) returns (k: nat)
    requires var s := Run(Start(env), events); !s.resume.pending && ResumeAsked(s).resume.pending
    ensures k < |events| && Moment(Run(Start(env), events[..k]), events[k])
    ensures var m := AtMoment(Run(Start(env), events[..k]), events[k]);
      ResumeAsked(Run(Start(env), events)).resume
      == Cleanup(true, ResumeCommands(env.libc, m.status.x, m.status.y, m.status.z, m.status.e, m.status.r0,
                                      if m.status.headSet > 0.0 then m.status.headSet else m.job.nozzle), 0)
  {
    hide Run, Moment, AtMoment, ResumeCommands;
    SavedInRun(env, events);
    k :| SavedAt(env, events, k, Run(Start(env), events).saved);
  }

  /** The answer a paused job waits for is younger than the request. */
  lemma AnswerIsNew(env: Env, events: seq<Event>, e: Event) returns (k: nat)
    requires e.Motion? && Answered(Heard(Run(Start(env), events), e))
    ensures k < |events| && events[k].Pause?
    ensures Run(Start(env), events[..k]).status.reports < Heard(Run(Start(env), events), e).status.reports
  {
    hide Run, Heard, Inflight;
    var s := Run(Start(env), events);
    SavedInRun(env, events);
    MotionKeepsPlace(s, e);
    k :| AskedAt(env, events, k, s.probe.start);
  }
}
