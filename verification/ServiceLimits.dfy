/** How much the service sends at a time, and how often it asks the controller. */
module ServiceLimits {
  import opened FlowState
  import opened GcodeRewrite
  import opened GcodeStream
  import opened MarlinPacket
  import opened MotionPolicy
  import opened MotionSender
  import opened PauseHold
  import opened PrintStatus
  import opened ServiceRun
  import opened ServiceSafety
  import opened ServiceState

  // ---- Lists ----

  /** A list that stops halfway stops at a barrier, for want of room, or with four packets in flight, and not before. */
  lemma {:induction false} ListStopsOnlyThen(st: State, commands: seq<string>, i: nat, broken: nat)
    requires i <= |commands| && Inflight(st) <= 4
    ensures var r := SendList(st, commands, i, true, broken);
      && Inflight(r.flow) <= 4
      && (r.end == Stopped ==> HasPendingBarrier(r.flow) || !CanSend(r.flow) || Inflight(r.flow) == 4)
      && (r.end == Ended ==> r.index == |commands|)
    decreases |commands| - i
  {
    hide Inflight, CanSend, HasPendingBarrier, SendOne;
    if i < |commands| && Gate(st, true) {
      SendOneFacts(st, commands[i], broken == i);
      ListStopsOnlyThen(SendOne(st, commands[i], broken == i).0, commands, i + 1, broken);
    }
  }

  /** Commands given by hand are all taken, or none of them when they make more than sixty-four. */
  lemma HandCommandsIff(s: Service, lines: seq<string>, broken: nat)
    requires !s.queue.active
    ensures |RewrittenItems(s.env.libc, lines)| > 64 ==>
              var t := GcodeGiven(s, lines, broken);
              t.book.trace == s.book.trace && t.status == s.status && t.queue == Queue([], 0, false) && t.flow == s.flow
    ensures 1 <= |RewrittenItems(s.env.libc, lines)| <= 64 && !Open(s.flow) ==>
              GcodeGiven(s, lines, broken).queue == Queue(RewrittenItems(s.env.libc, lines), 0, true)
  {
    hide RewrittenItems, HeatersSet, Heated, Waiting, Open;
  }

  // ---- Probes ----

  /** Nothing in flight and room for anything. */
  predicate Idle(s: Service) {
    s.ready && !s.polling.startup && Inflight(s.flow) == 0
  }

  /** Of the motion polls with nothing in flight only every fourth asks, for the temperatures and the position. */
  lemma EveryFourthAsks(s: Service, broken: nat)
    requires Idle(s) && s.polling.temperature <= 3
    ensures var t := TemperatureProbed(s, broken).0;
      && (s.polling.temperature < 3 ==>
            t == s.(polling := s.polling.(temperature := s.polling.temperature + 1)))
      && (s.polling.temperature == 3 ==>
            && t.polling == s.polling.(temperature := 0)
            && exists n :: 0 <= n <= 2 && t.book.trace == s.book.trace + Tagged(FromProbe, ["M105", "M114"][..n])
                 && (n < 2 ==> !CanSend(t.flow) || broken == n))
  {
    hide Inflight, CanSend, SendOne;
    if s.polling.temperature == 3 {
      WholeProbe(s, ["M105", "M114"], broken);
    }
  }

  /** A probe is sent up to the point where there is no more room, or the device breaks down. */
  lemma WholeProbe(s: Service, commands: seq<string>, broken: nat)
    requires Sound(commands)
    ensures var t := ProbeSent(s, commands, broken).0;
      exists n :: 0 <= n <= |commands| && t.book.trace == s.book.trace + Tagged(FromProbe, commands[..n])
        && (n < |commands| ==> !CanSend(t.flow) || broken == n)
  {
    hide CanSend, SendOne, Tagged;
    var r := SendList(s.flow, commands, 0, false, broken);
    ListGoesOn(s.flow, commands, 0, broken);
    assert commands[0..r.index] == commands[..r.index];
  }

  lemma {:induction false} ListGoesOn(st: State, commands: seq<string>, i: nat, broken: nat)
    requires i <= |commands| && Sound(commands)
    ensures var r := SendList(st, commands, i, false, broken);
      i <= r.index <= |commands| && (r.index < |commands| ==> !CanSend(r.flow) || broken == r.index)
    decreases |commands| - i
  {
    hide CanSend, SendOne;
    if i < |commands| {
      SendOneFacts(st, commands[i], broken == i);
      if CanSend(st) {
        SoundSends(st, commands[i], broken == i);
      }
      if CanSend(st) && broken != i {
        ListGoesOn(SendOne(st, commands[i], false).0, commands, i + 1, broken);
      }
    }
  }

  /** With the device just opened the first poll with nothing in flight asks who the controller is, how warm it is and
      where it stands. */
  lemma StartupAsks(s: Service, broken: nat)
    requires s.ready && s.polling.startup && Inflight(s.flow) == 0
    ensures var t := StartupProbed(s, broken).0;
      exists n :: 0 <= n <= 3 && t.book.trace == s.book.trace + Tagged(FromProbe, ["M115", "M105", "M114"][..n])
        && (n < 3 ==> !CanSend(t.flow) || broken == n)
  {
    hide Inflight, ProbeSent, Tagged;
    WholeProbe(s, ["M115", "M105", "M114"], broken);
  }

  /** The version is asked for again, unless it is known, six times at most, at every twentieth poll that finds the service
      at rest. */
  lemma VersionAskedIff(s: Service, broken: bool)
    ensures var t := FirmwareProbed(s, broken).0;
      t.book.trace == s.book.trace + [Submission(FromProbe, "M115")] <==>
        && s.ready && s.polling.firmware && !s.polling.startup && !s.job.active && !s.abort.pending && !s.finish.pending
        && Inflight(s.flow) == 0 && !s.status.firmware && s.polling.attempts < 6
        && (s.polling.ticks + 1) % 0x1_0000_0000 >= 20 && CanSend(s.flow) && !broken
    ensures var t := FirmwareProbed(s, broken).0;
      t.book.trace != s.book.trace ==>
        && t.book.trace == s.book.trace + [Submission(FromProbe, "M115")]
        && t.polling.ticks == 0 && t.polling.attempts == s.polling.attempts + 1
  {
    hide Inflight, CanSend, SendOne;
    SendOneFacts(s.flow, "M115", broken);
    if CanSend(s.flow) {
      SoundSends(s.flow, "M115", broken);
    }
    assert Tagged(FromProbe, ["M115"]) == [Submission(FromProbe, "M115")];
  }
}
