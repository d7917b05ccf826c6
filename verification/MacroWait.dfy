/** What it means for a macro's heater wait to succeed. */
module MacroWait {
  import opened FlowState
  import opened GcodeStream
  import opened MotionPolicy
  import opened PauseHold
  import opened PrintService
  import opened PrintStatus
  import opened ServiceRun
  import opened ServiceSafety
  import opened ServiceState

  /** Nothing but the macro has to do with heaters. */
  predicate Undisturbed(s: Service) {
    !s.job.active && !s.finish.pending && !s.abort.pending && !s.resume.pending
  }

  /** After one of the lines of a poll the heater is warm. */
  ghost predicate WarmLine(s: Service, lines: seq<string>, fails: seq<bool>, w: HeaterWait) {
    exists j :: 0 < j <= |lines| && Heated(w, LinesSeen(s, lines[..j], AllowResync(s), fails).0.status)
  }

  /** The heater was reported warm in the run. */
  ghost predicate WarmSeen(s: Service, events: seq<Event>, w: HeaterWait) {
    exists i :: 0 <= i < |events| && events[i].Motion?
                && WarmLine(Run(s, events[..i]), events[i].lines, events[i].luck.resendFails, w)
  }

  lemma LineEndsWait(s: Service, line: string, allow: bool, resendFails: bool, w: HeaterWait)
    requires w.active && (s.wait == w || s.wait == Off(w))
    ensures var t := LineSeen(s, line, allow, resendFails).0;
      t.wait == s.wait || (t.wait == Off(w) && Heated(w, t.status))
  {
    hide Handle, ReplyOf, Resync;
  }

  lemma {:induction false} LinesEndWait(s: Service, lines: seq<string>, allow: bool, fails: seq<bool>, w: HeaterWait)
    requires w.active && (s.wait == w || s.wait == Off(w))
    ensures var t := LinesSeen(s, lines, allow, fails).0;
      || t.wait == s.wait
      || (s.wait == w && t.wait == Off(w)
          && exists j :: 0 < j <= |lines| && Heated(w, LinesSeen(s, lines[..j], allow, fails).0.status))
    decreases |lines|
  {
    hide LineSeen, Heated;
    if lines != [] {
      var first := |fails| > 0 && fails[0];
      var later := if fails == [] then [] else fails[1..];
      var r := LineSeen(s, lines[0], allow, first);
      LineEndsWait(s, lines[0], allow, first, w);
      OneLine(s, lines, allow, fails);
      if !r.1 {
        LinesEndWait(r.0, lines[1..], allow, later, w);
        var t := LinesSeen(s, lines, allow, fails).0;
        if r.0.wait == s.wait && t.wait != s.wait {
          var j :| 0 < j <= |lines[1..]| && Heated(w, LinesSeen(r.0, lines[1..][..j], allow, later).0.status);
          assert lines[..j + 1][1..] == lines[1..][..j];
          assert LinesSeen(s, lines[..j + 1], allow, fails) == LinesSeen(r.0, lines[1..][..j], allow, later);
        }
      }
    }
  }

  lemma OneLine(s: Service, lines: seq<string>, allow: bool, fails: seq<bool>)
    requires lines != []
    ensures LinesSeen(s, lines[..1], allow, fails).0 == LineSeen(s, lines[0], allow, |fails| > 0 && fails[0]).0
  {
    hide LineSeen;
    assert lines[..1][1..] == [];
  }

  lemma LinesUndisturbed(s: Service, lines: seq<string>, allow: bool, fails: seq<bool>)
    requires Inv(s) && Undisturbed(s)
    ensures Undisturbed(LinesSeen(s, lines, allow, fails).0) && Inv(LinesSeen(s, lines, allow, fails).0)
  {
    hide Inv, LinesSeen;
    LinesSeenKeeps(s, lines, allow, fails);
  }

  lemma ListsUndisturbed(s: Service, one: bool, list: nat)
    requires Undisturbed(s)
    ensures var t := PauseResumePolled(s, one, list); Undisturbed(t) && t.wait == s.wait
  {
    hide PositionPolled, ListPolled, ResumePolled;
    PositionNeverGoesOn(s, one);
    PositionLeavesJob(s, one);
    PositionLeavesAbort(s, one);
    ListLeavesJob(s, s.pause, FromPause, list);
    ListLeavesAbort(s, s.pause, FromPause, list);
    ResumeLeavesJob(s, one, list);
  }

  lemma PositionLeavesAbort(s: Service, one: bool)
    ensures PositionPolled(s, one).0.abort == s.abort
  {
    hide SendList, Inflight, Recorded, PauseCommands;
  }

  lemma ListLeavesAbort(s: Service, c: Cleanup, origin: Origin, list: nat)
    ensures ListPolled(s, c, origin, list).0.abort == s.abort
  {
    hide SendList, Inflight, Recorded;
  }

  lemma ProbeLeavesWait(s: Service, commands: seq<string>, broken: nat)
    ensures var t := ProbeSent(s, commands, broken).0;
      t.wait == s.wait && t.job == s.job && t.finish == s.finish && t.abort == s.abort && t.resume == s.resume
  {
    hide SendList, Recorded;
  }

  lemma FirmwareLeavesWait(s: Service, broken: bool)
    ensures var t := FirmwareProbed(s, broken).0;
      t.wait == s.wait && t.job == s.job && t.finish == s.finish && t.abort == s.abort && t.resume == s.resume
  {
    hide SendOne, Recorded, Inflight;
  }

  lemma ProbesLeaveWait(s: Service, luck: Luck)
    requires Undisturbed(s)
    ensures var t := Probed(s, luck).0; Undisturbed(t) && t.wait == s.wait
  {
    hide ProbeSent, FirmwareProbed, Inflight;
    ProbeLeavesWait(s, STARTUP_PROBE, luck.startup);
    var c := StartupProbed(s, luck.startup).0;
    FirmwareLeavesWait(c, luck.firmware);
    ProbeLeavesWait(FirmwareProbed(c, luck.firmware).0, STATUS_PROBE, luck.temperature);
  }

  lemma QuietTending(s: Service, luck: Luck)
    requires Undisturbed(s)
    ensures Undisturbed(Tended(s, luck).0) && Tended(s, luck).0.wait == s.wait
  {
    hide PauseResumePolled, Refreshed, Probed;
    ListsUndisturbed(s, luck.one, luck.list);
    var a := PauseResumePolled(s, luck.one, luck.list);
    RefreshedLeavesWait(a);
    ProbesLeaveWait(FirmwareNoted(Refreshed(a)), luck);
  }

  lemma RefreshedLeavesWait(s: Service)
    requires Undisturbed(s)
    ensures Undisturbed(Refreshed(s)) && Refreshed(s).wait == s.wait
  {
  }

  /** A poll leaves the wait alone, or ends it because a line reports the heater warm. */
  lemma PollEndsWait(s: Service, lines: seq<string>, lineBroken: bool, luck: Luck, w: HeaterWait)
    requires Inv(s) && Undisturbed(s) && w.active && (s.wait == w || s.wait == Off(w))
    ensures var t := MotionPolled(s, lines, lineBroken, luck).0;
      Undisturbed(t) && (t.wait == s.wait || (s.wait == w && t.wait == Off(w) && WarmLine(s, lines, luck.resendFails, w)))
  {
    hide Inv, LinesSeen, Tended, Heated;
    if s.ready {
      LinesUndisturbed(s, lines, AllowResync(s), luck.resendFails);
      LinesEndWait(s, lines, AllowResync(s), luck.resendFails, w);
      QuietTending(LinesSeen(s, lines, AllowResync(s), luck.resendFails).0, luck);
    } else {
      QuietTending(s, luck);
    }
  }

  /** Over polls and reminders the wait goes on, or has ended because the heater was reported warm. */
  lemma {:induction false} PollsEndWait(s: Service, events: seq<Event>, w: HeaterWait)
    requires Inv(s) && Undisturbed(s) && w.active && s.wait == w
    requires forall i :: 0 <= i < |events| ==> events[i].Motion? || events[i].MacroWait?
    ensures var t := Run(s, events); Inv(t) && Undisturbed(t) && (t.wait == w || (t.wait == Off(w) && WarmSeen(s, events, w)))
  {
    hide Inv, Undisturbed, Heated, MotionPolled, WarmLine, WarmSeen;
    RunKeeps(s, events);
    if events != [] {
      var n := |events| - 1;
      var e := events[n];
      PollsEndWait(s, events[..n], w);
      var t := Run(s, events[..n]);
      if e.Motion? {
        PollEndsWait(t, e.lines, e.lineBroken, e.luck, w);
        if t.wait == w && Step(t, e).wait != w {
          WarmSeenNow(s, events, n, w);
        }
      } else {
        WaitIsShown(t);
      }
      if t.wait != w {
        WarmSeenOn(s, events, n, w);
      }
    }
  }

  lemma WaitIsShown(s: Service)
    ensures MacroWaiting(s).wait == s.wait && (Undisturbed(s) ==> Undisturbed(MacroWaiting(s)))
  {
  }

  lemma WarmSeenNow(s: Service, events: seq<Event>, n: nat, w: HeaterWait)
    requires n < |events| && events[n].Motion?
    requires WarmLine(Run(s, events[..n]), events[n].lines, events[n].luck.resendFails, w)
    ensures WarmSeen(s, events, w)
  {
    hide Run, WarmLine;
  }

  lemma WarmSeenOn(s: Service, events: seq<Event>, n: nat, w: HeaterWait)
    requires n + 1 == |events| && events != [] && WarmSeen(s, events[..n], w)
    ensures WarmSeen(s, events, w)
  {
    hide Run, WarmLine;
    var i :| 0 <= i < n && events[..n][i].Motion?
             && WarmLine(Run(s, events[..n][..i]), events[..n][i].lines, events[..n][i].luck.resendFails, w);
    assert events[..n][..i] == events[..i] && events[..n][i] == events[i];
  }

  /** The wait an item asks for. */
  function Asked(item: Item): HeaterWait {
    if item.waitBed then WaitBed(item.target) else WaitHead(item.target)
  }

  /** A macro's wait for a heater that succeeds, with no job, finishing, abort or resume about, has seen the heater
      reported warm, or it is warm now. Otherwise those may switch the wait off or put their own in its place. */
  lemma AwaitedHeaterWasWarm(s: Service, before: seq<Event>, item: Item, events: seq<Event>)
    requires HeaterAwaited(s, before, item, events) && (item.waitBed || item.waitNozzle)
    requires var b := Run(s, before); Inv(b) && Undisturbed(b) && b.book.macroRunning
    ensures |before| + 1 <= |events| - 1
    ensures var armed, polls := MacroArmed(Run(s, before), item), events[|before| + 1..|events| - 1];
      Heated(Asked(item), Run(armed, polls).status) || WarmSeen(armed, polls, Asked(item))
  {
    hide Run, Inv, WarmSeen, WarmLine;
    var b, w := Run(s, before), Asked(item);
    var armed := MacroArmed(b, item);
    var all := events[..|events| - 1];
    var n := |before| + 1;
    var polls := all[n..];
    assert polls == events[n..|events| - 1];
    RunOneMore(s, before, MacroArm(item));
    RunInTwo(s, all, n);
    assert all[..n] == before + [MacroArm(item)];
    MacroWaitKeeps(b, item);
    if w.active {
      assert forall i :: 0 <= i < |polls| ==> polls[i] == all[n + i];
      PollsEndWait(armed, polls, w);
    }
  }

  lemma {:induction false} RunInTwo(s: Service, events: seq<Event>, n: nat)
    requires n <= |events|
    ensures Run(s, events) == Run(Run(s, events[..n]), events[n..])
    decreases |events|
  {
    hide Step;
    if n == |events| {
      assert events[..n] == events && events[n..] == [];
    } else {
      var m := |events| - 1;
      RunInTwo(s, events[..m], n);
      assert events[..m][..n] == events[..n] && events[..m][n..] == events[n..][..m - n];
      assert events[n..][m - n] == events[m];
    }
  }
}
