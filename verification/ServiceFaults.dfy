/** Faults the controller reports: which of them abort a job, and when. */
module ServiceFaults {
  import opened FlowState
  import opened GcodeStream
  import opened MarlinPacket
  import opened MotionPolicy
  import opened MotionSender
  import opened PrintStatus
  import opened ServiceRun
  import opened ServiceSafety
  import opened ServiceState
  import JobRuns

  predicate Grave(e: Fault) {
    e == ThermalFault || e == EndstopFault || e == MarlinFault || e == StorageFault
  }

  /** A job is under way and the status shows one of the grave faults. */
  predicate Stricken(s: Service) {
    s.job.active && s.status.phase == Broken && s.status.fault && Grave(s.status.error)
  }

  /** The abort has just begun: nothing else is under way, and the heaters are set to zero. */
  predicate AbortStands(s: Service) {
    && s.abort == Cleanup(true, ABORT_COMMANDS, 0) && s.status.phase == Aborting
    && s.status.bedSet == 0.0 == s.status.headSet && !s.wait.active
    && !s.job.active && s.file == None && !s.finish.pending && !s.queue.active && !Busy(s) && !s.saved.valid
  }

  /** A grave fault during a job aborts it, at once when the device is closed; nothing else does anything here. */
  lemma FaultAbortsIff(s: Service)
    ensures Stricken(s) && s.ready ==> AbortStands(FaultChecked(s))
    ensures Stricken(s) && !s.ready ==>
              var t := FaultChecked(s);
              && !t.job.active && !t.abort.pending && t.status.phase == Idle && !t.status.fault
              && t.status.bedSet == 0.0 == t.status.headSet && Inflight(t.flow) == 0
    ensures FaultChecked(s) != s <==> Stricken(s)
  {
    hide Inflight;
    ClearEmpties(s.flow);
  }

  // ---- Polls that read a fault ----

  /** A line that reports a fault shows it, unless a heater wait is left that hides it. */
  lemma FaultIsShownIff(s: Service, line: string, e: Fault, allow: bool, resendFails: bool)
    requires s.env.reading(line) == FaultLine(e)
    ensures var t := LineSeen(s, line, allow, resendFails).0;
      && t.job == s.job && t.ready == s.ready && t.wait.active == !Heated(s.wait, s.status)
      && (!t.wait.active ==> t.status == FaultedWith(s.status, e))
      && (t.wait.active ==> t.status.phase == Preparing || (t.status.phase == Broken && t.status.error == SerialFault))
  {
    hide Handle, ReplyOf, Resync;
  }

  /** The lines of a poll, of which the last reports a fault. */
  lemma {:induction false} LastLineFaults(s: Service, lines: seq<string>, e: Fault, allow: bool, fails: seq<bool>)
    requires lines != [] && s.env.reading(lines[|lines| - 1]) == FaultLine(e)
    requires !LinesSeen(s, lines[..|lines| - 1], allow, fails).1
    ensures var p, t := LinesSeen(s, lines[..|lines| - 1], allow, fails).0, LinesSeen(s, lines, allow, fails).0;
      && t.job == s.job && t.ready == s.ready && t.wait.active == !Heated(p.wait, p.status)
      && (!t.wait.active ==> t.status == FaultedWith(p.status, e))
      && (t.wait.active ==> t.status.phase == Preparing || (t.status.phase == Broken && t.status.error == SerialFault))
    decreases |lines|
  {
    hide LineSeen, Heated;
    var n, first := |lines| - 1, |fails| > 0 && fails[0];
    var later := if fails == [] then [] else fails[1..];
    if n == 0 {
      FaultIsShownIff(s, lines[0], e, allow, first);
      assert lines[..0] == [] && lines[1..] == [];
    } else {
      var r := LineSeen(s, lines[0], allow, first);
      LineFrame(s, lines[0], allow, first);
      assert lines[..n][0] == lines[0] && lines[..n][1..] == lines[1..][..n - 1];
      if r.1 {
        assert false;
      }
      LastLineFaults(r.0, lines[1..], e, allow, later);
    }
  }

  lemma LineFrame(s: Service, line: string, allow: bool, resendFails: bool)
    ensures LineSeen(s, line, allow, resendFails).0.job == s.job
    ensures LineSeen(s, line, allow, resendFails).0.ready == s.ready
    ensures LineSeen(s, line, allow, resendFails).0.env == s.env
    ensures LineSeen(s, line, allow, resendFails).0.book == s.book
  {
    hide LineSeen;
    LineSeenFrame(s, line, allow, resendFails);
  }

  /** The first poll of an abort does not end it. */
  lemma AbortGoesOn(s: Service, broken: nat)
    requires AbortStands(s) && |ABORT_COMMANDS| < broken
    ensures var t := AbortPolled(s, broken);
      t.abort.pending && t.status == s.status && t.job == s.job && t.book.abortMark == s.book.abortMark
  {
    hide SendList, Inflight, CanSend, Tagged;
    AbortCommandsAreSound();
    SoundListNeverFails(s.flow, ABORT_COMMANDS, 0, true, broken);
    JobRuns.SendListGrows(s.flow, ABORT_COMMANDS, 0, true, broken);
    SendListFacts(s.flow, ABORT_COMMANDS, 0, true, broken);
  }

  /** The probes leave the abort alone. */
  predicate Left(s: Service, t: Service) {
    t.abort == s.abort && t.status == s.status && t.job == s.job && t.book.abortMark == s.book.abortMark
  }

  lemma ProbesLeaveAbort(s: Service, luck: Luck)
    ensures Left(s, Probed(s, luck).0)
  {
    hide StartupProbed, FirmwareProbed, TemperatureProbed;
    var c := StartupProbed(s, luck.startup).0;
    var d := FirmwareProbed(c, luck.firmware).0;
    ListsLeaveAbort(s, luck.startup);
    FirmwareLeavesAbort(c, luck.firmware);
    ListsLeaveAbort(d, luck.temperature);
  }

  lemma ListsLeaveAbort(s: Service, broken: nat)
    ensures Left(s, StartupProbed(s, broken).0) && Left(s, TemperatureProbed(s, broken).0)
  {
    hide SendList, Inflight, Tagged;
  }

  lemma FirmwareLeavesAbort(s: Service, broken: bool)
    ensures Left(s, FirmwareProbed(s, broken).0)
  {
    hide SendOne, Inflight, Tagged;
  }

  /** A poll during a job whose last line reports a grave fault begins the abort, unless a heater wait is left that
      hides it: the job is over, the heaters are set to zero and the cleanup is under way. */
  lemma FaultLineAborts(s: Service, lines: seq<string>, e: Fault, lineBroken: bool, luck: Luck)
    requires s.ready && s.job.active && Grave(e) && lines != [] && s.env.reading(lines[|lines| - 1]) == FaultLine(e)
    requires |ABORT_COMMANDS| < luck.abort
    requires var p := LinesSeen(s, lines[..|lines| - 1], AllowResync(s), luck.resendFails);
      !p.1 && Heated(p.0.wait, p.0.status)
    ensures var t := MotionPolled(s, lines, lineBroken, luck).0;
      && !t.job.active && t.abort.pending && t.abort.policy == ABORT_COMMANDS && t.status.phase == Aborting
      && t.status.bedSet == 0.0 == t.status.headSet
  {
    hide LinesSeen, Heated, AbortPolled, Inflight, Probed, SendList, Aborted;
    LastLineFaults(s, lines, e, AllowResync(s), luck.resendFails);
    var r := LinesSeen(s, lines, AllowResync(s), luck.resendFails).0;
    var k := FaultChecked(r);
    FaultAbortsIff(r);
    NothingToResume(k, luck.one, luck.list);
    AbortGoesOn(k, luck.abort);
    var a := AbortPolled(k, luck.abort);
    AbortFrame(k, luck.abort);
    var b := FirmwareNoted(Refreshed(a));
    ProbesLeaveAbort(b, luck);
  }

  lemma NothingToResume(s: Service, one: bool, list: nat)
    requires !Busy(s)
    ensures PauseResumePolled(s, one, list) == s
  {
    hide SendList, PausePolled, PositionPolled;
  }

  lemma AbortFrame(s: Service, broken: nat)
    ensures AbortPolled(s, broken).finish == s.finish && AbortPolled(s, broken).abort.policy == s.abort.policy
  {
    hide SendList, Inflight, Tagged;
  }
}
