/** The print service as the sender of the link. Whatever the service does to its window is a sequence of the flow
    controller's operations, and the commands it records are exactly those it puts there; so what holds of the link
    holds of a print, from the job's script to the commands the controller accepts. */
module ServiceLink {
  import opened Casts
  import opened FlowState
  import opened GcodeStream
  import opened MarlinPacket
  import opened MotionPolicy
  import opened MotionSender
  import opened PrintStatus
  import opened ServiceRun
  import opened ServiceSafety
  import opened ServiceState
  import opened SyncLine
  import Conservation
  import Link
  import SlidingWindow

  // ---- Moves ----

  /** Put: a command that is recorded as submitted. Other: anything else that happens to the window, a command that
      is refused or that the device does not take included. */
  datatype Move = Put(command: string) | Other(event: Conservation.Event)

  function Moved(st: State, m: Move): State {
    Conservation.Next(st, if m.Put? then Conservation.Send(m.command, MotionSender.BUFFER) else m.event)
  }

  function Window(st: State, moves: seq<Move>): State {
    if moves == [] then st else Moved(Window(st, moves[..|moves| - 1]), moves[|moves| - 1])
  }

  function Puts(moves: seq<Move>): seq<string> {
    if moves == [] then [] else
    var last := moves[|moves| - 1];
    Puts(moves[..|moves| - 1]) + if last.Put? then [last.command] else []
  }

  /** The replies the moves hear. */
  function Replies(moves: seq<Move>): seq<Reply> {
    if moves == [] then [] else
    var last := moves[|moves| - 1];
    Replies(moves[..|moves| - 1]) + if last.Other? && last.event.Hear? then [last.event.reply] else []
  }

  lemma {:induction false} MovesCompose(st: State, a: seq<Move>, b: seq<Move>)
    ensures Window(st, a + b) == Window(Window(st, a), b)
    ensures Puts(a + b) == Puts(a) + Puts(b) && Replies(a + b) == Replies(a) + Replies(b)
  {
    hide Moved;
    if b == [] {
      assert a + b == a;
    } else {
      var n, ab := |b| - 1, a + b;
      MovesCompose(st, a, b[..n]);
      assert ab[..|ab| - 1] == a + b[..n] && ab[|ab| - 1] == b[n];
      Joined(Puts(a), Puts(b[..n]), if b[n].Put? then [b[n].command] else []);
      Joined(Replies(a), Replies(b[..n]), if b[n].Other? && b[n].event.Hear? then [b[n].event.reply] else []);
    }
  }

  lemma Joined<T>(a: seq<T>, b: seq<T>, c: seq<T>)
    ensures a + b + c == a + (b + c)
  {
  }

  function Texts(trace: seq<Submission>): (r: seq<string>)
    ensures |r| == |trace|
  {
    seq(|trace|, i requires 0 <= i < |trace| => trace[i].command)
  }

  /** From s to t the window takes these moves, which put exactly the commands recorded and hear these replies. */
  ghost predicate Sends(s: Service, t: Service, heard: seq<Reply>, moves: seq<Move>) {
    && Window(s.flow, moves) == t.flow
    && s.book.trace <= t.book.trace && Texts(t.book.trace) == Texts(s.book.trace) + Puts(moves)
    && Replies(moves) == heard
  }

  /** The last job is the same, and it has come no further in its file. */
  predicate SameJob(b: Book, c: Book) {
    c.jobMark == b.jobMark && c.items == b.items && c.taken == b.taken && c.hasPrime == b.hasPrime
  }

  /** A print shown as finished was one before. */
  predicate StillFinished(s: Service, t: Service) {
    t.status.phase == Finished ==> s.status.phase == Finished && SameJob(s.book, t.book)
  }

  /** Without a reply, and no print becomes a finished one. */
  ghost predicate Goes(s: Service, t: Service, moves: seq<Move>) {
    Sends(s, t, [], moves) && StillFinished(s, t)
  }

  lemma Stays(s: Service, t: Service)
    requires t.flow == s.flow && t.book.trace == s.book.trace
    ensures Sends(s, t, [], [])
  {
  }

  lemma SendsOn(s: Service, t: Service, u: Service, h: seq<Reply>, i: seq<Reply>, a: seq<Move>, b: seq<Move>)
    requires Sends(s, t, h, a) && Sends(t, u, i, b)
    ensures Sends(s, u, h + i, a + b)
  {
    hide Window, Puts, Replies, Texts;
    MovesCompose(s.flow, a, b);
  }

  lemma GoesOn(s: Service, t: Service, u: Service, a: seq<Move>, b: seq<Move>)
    requires Goes(s, t, a) && Goes(t, u, b)
    ensures Goes(s, u, a + b)
  {
    hide Sends;
    var none: seq<Reply> := [];
    SendsOn(s, t, u, none, none, a, b);
    assert none + none == none;
  }

  lemma NoMoves(st: State)
    ensures Window(st, []) == st && Puts([]) == [] && Replies([]) == []
  {
  }

  lemma OneMove(st: State, m: Move)
    ensures Window(st, [m]) == Moved(st, m)
    ensures Puts([m]) == if m.Put? then [m.command] else []
    ensures Replies([m]) == if m.Other? && m.event.Hear? then [m.event.reply] else []
  {
    hide Moved;
    assert [m][..0] == [];
  }

  /** The window is emptied. */
  lemma Empties(s: Service, t: Service)
    requires t.flow == Clear(s.flow) && t.book.trace == s.book.trace
    ensures Sends(s, t, [], [Other(Conservation.Empty)])
  {
    hide Clear;
    OneMove(s.flow, Other(Conservation.Empty));
  }

  // ---- Submitting ----

  /** What one submission does to the window. */
  function Submitting(st: State, command: string, broken: bool): seq<Move> {
    if SendOne(st, command, broken).1 == Sent then [Put(command)]
    else if command == "" then []
    else [Other(Conservation.Send(command, MotionSender.BUFFER))]
  }

  lemma SubmittingMoves(st: State, command: string, broken: bool)
    ensures var m := Submitting(st, command, broken);
      && Window(st, m) == SendOne(st, command, broken).0 && Replies(m) == []
      && Puts(m) == if SendOne(st, command, broken).1 == Sent then [command] else []
  {
    hide Prepare;
    OneMove(st, Put(command));
    OneMove(st, Other(Conservation.Send(command, MotionSender.BUFFER)));
  }

  lemma {:induction false} ListMoves(st: State, commands: seq<string>, i: nat, strict: bool, broken: nat)
    returns (moves: seq<Move>)
    requires i <= |commands|
    ensures var r := SendList(st, commands, i, strict, broken);
      && i <= r.index <= |commands| && Window(st, moves) == r.flow
      && Puts(moves) == commands[i..r.index] && Replies(moves) == []
    decreases |commands| - i
  {
    hide SendOne, Submitting, Gate, Window, Puts, Replies;
    moves := [];
    NoMoves(st);
    if i < |commands| && Gate(st, strict) {
      var m, r := Submitting(st, commands[i], broken == i), SendOne(st, commands[i], broken == i);
      SubmittingMoves(st, commands[i], broken == i);
      moves := m;
      if r.1 == Sent {
        var more := ListMoves(r.0, commands, i + 1, strict, broken);
        MovesCompose(st, m, more);
        moves := m + more;
      }
    }
  }

  lemma TextsRecorded(b: Book, origin: Origin, commands: seq<string>)
    ensures Texts(Recorded(b, origin, commands).trace) == Texts(b.trace) + commands
  {
  }

  /** Submitting a list, from wherever in it. */
  lemma ListSends(s: Service, origin: Origin, commands: seq<string>, i: nat, strict: bool, broken: nat)
    returns (moves: seq<Move>)
    ensures Sends(s, AfterList(s, origin, commands, i, SendList(s.flow, commands, i, strict, broken)), [], moves)
  {
    hide Window, Puts, Replies, Texts;
    if i <= |commands| {
      moves := ListMoves(s.flow, commands, i, strict, broken);
      hide SendList;
      TextsRecorded(s.book, origin, commands[i..SendList(s.flow, commands, i, strict, broken).index]);
    } else {
      moves := [];
      Stays(s, s);
    }
  }

  /** Submitting a list does not end a print. */
  lemma ListGoes(s: Service, origin: Origin, commands: seq<string>, i: nat, strict: bool, broken: nat)
    returns (moves: seq<Move>)
    ensures Goes(s, AfterList(s, origin, commands, i, SendList(s.flow, commands, i, strict, broken)), moves)
  {
    hide Sends, SendList, Tagged;
    moves := ListSends(s, origin, commands, i, strict, broken);
  }

  /** What is not the window nor the history may change. */
  lemma Alike(s: Service, t: Service, u: Service, moves: seq<Move>)
    requires Goes(s, t, moves) && u.flow == t.flow && u.book.trace == t.book.trace
    requires StillFinished(s, u)
    ensures Goes(s, u, moves)
  {
  }

  // ---- Abort, pause and resume ----

  lemma AbortedGoes(s: Service) returns (moves: seq<Move>)
    ensures Goes(s, Aborted(s), moves)
  {
    hide Clear, Window, Puts, Replies;
    if Abortable(s) && !s.ready {
      moves := [Other(Conservation.Empty)];
      Empties(s, Aborted(s));
    } else {
      moves := [];
      Stays(s, Aborted(s));
    }
  }

  lemma AbortPolledGoes(s: Service, broken: nat) returns (moves: seq<Move>)
    ensures Goes(s, AbortPolled(s, broken), moves)
  {
    hide SendList, Recorded, Clear, Inflight, Window, Puts, Replies, Texts;
    if !s.abort.pending {
      moves := [];
      Stays(s, s);
    } else {
      moves := ListGoes(s, FromAbort, s.abort.policy, s.abort.index, true, broken);
      var r := SendList(s.flow, s.abort.policy, s.abort.index, true, broken);
      var t := AfterList(s, FromAbort, s.abort.policy, s.abort.index, r);
      var u := AbortPolled(s, broken);
      if r.end.Ended? && Inflight(t.flow) == 0 {
        Empties(t, u);
        GoesOn(s, t, u, moves, [Other(Conservation.Empty)]);
        moves := moves + [Other(Conservation.Empty)];
      } else {
        Alike(s, t, u, moves);
      }
    }
  }

  lemma PositionPolledGoes(s: Service, broken: bool) returns (moves: seq<Move>)
    ensures Goes(s, PositionPolled(s, broken).0, moves)
  {
    hide SendList, Recorded, Inflight, PauseCommands, Window, Puts, Replies, Texts;
    if s.probe.sent {
      moves := [];
      Stays(s, PositionPolled(s, broken).0);
    } else {
      moves := ListGoes(s, FromPause, ["M114"], 0, true, if broken then 0 else 1);
    }
  }

  lemma PausePolledGoes(s: Service, broken: nat) returns (moves: seq<Move>)
    ensures Goes(s, PausePolled(s, broken), moves)
  {
    hide SendList, Recorded, Inflight, Window, Puts, Replies, Texts;
    moves := ListGoes(s, FromPause, s.pause.policy, s.pause.index, true, broken);
  }

  lemma HeatSentGoes(s: Service, broken: bool) returns (moves: seq<Move>)
    ensures Goes(s, HeatSent(s, broken).0, moves)
  {
    hide SendList, Recorded, Window, Puts, Replies, Texts;
    if s.resume.policy == [] {
      moves := [];
      Stays(s, s);
    } else {
      moves := ListGoes(s, FromResume, s.resume.policy[..1], 0, true, if broken then 0 else 1);
    }
  }

  lemma ResumeListPolledGoes(s: Service, broken: nat) returns (moves: seq<Move>)
    ensures Goes(s, ResumeListPolled(s, broken), moves)
  {
    hide SendList, Recorded, Inflight, Window, Puts, Replies, Texts;
    if s.resume.pending {
      moves := ListGoes(s, FromResume, s.resume.policy, s.resume.index, true, broken);
    } else {
      moves := [];
      Stays(s, s);
    }
  }

  lemma ResumeWaitedGoes(s: Service, list: nat) returns (moves: seq<Move>)
    ensures Goes(s, ResumeWaited(s, list), moves)
  {
    hide ResumeListPolled, Heated, Window, Puts, Replies, Texts;
    if s.resume.pending && s.wait.active && !Heated(s.wait, s.status) {
      moves := [];
      Stays(s, ResumeWaited(s, list));
    } else {
      moves := ResumeListPolledGoes(if s.resume.pending && s.wait.active then s.(wait := Off(s.wait)) else s, list);
    }
  }

  lemma ResumePolledGoes(s: Service, one: bool, list: nat) returns (moves: seq<Move>)
    ensures Goes(s, ResumePolled(s, one, list), moves)
  {
    hide HeatSent, ResumeListPolled, Heated, Waiting, Goes;
    if s.resume.pending && !s.wait.active && s.resume.index == 0 && s.saved.nozzle > 0.0 {
      moves := HeatSentGoes(s, one);
      var t := HeatSent(s, one);
      if t.1 {
        var more := ResumeWaitedGoes(t.0, list);
        GoesOn(s, t.0, ResumeWaited(t.0, list), moves, more);
        moves := moves + more;
      }
    } else {
      moves := ResumeWaitedGoes(s, list);
    }
  }

  lemma PauseResumePolledGoes(s: Service, one: bool, list: nat) returns (moves: seq<Move>)
    ensures Goes(s, PauseResumePolled(s, one, list), moves)
  {
    hide PositionPolled, PausePolled, ResumePolled, Goes;
    if s.probe.pending {
      PositionNeverGoesOn(s, one);
      moves := PositionPolledGoes(s, one);
    } else if s.pause.pending {
      moves := PausePolledGoes(s, list);
    } else {
      moves := ResumePolledGoes(s, one, list);
    }
  }

  // ---- G-code given by hand ----

  lemma QueueItemGoes(s: Service, item: Item, broken: bool) returns (moves: seq<Move>)
    requires SendOne(s.flow, item.command, broken).1 == Sent
    ensures Goes(s, QueueItemSent(s.(flow := SendOne(s.flow, item.command, broken).0), item), moves)
  {
    hide SendOne, Window, Puts, Replies, Texts, HeaterSet, Waiting, Tagged;
    moves := Submitting(s.flow, item.command, broken);
    SubmittingMoves(s.flow, item.command, broken);
    TextsRecorded(s.book, FromQueue, [item.command]);
    HeaterSetPhase(s.env, s.status, item.command);
    ArmedNotFinished(s.(status := HeaterSet(s.env, s.status, item.command)), item);
  }

  lemma {:induction false} QueueSentGoes(s: Service, broken: nat) returns (moves: seq<Move>)
    ensures Goes(s, QueueSent(s, broken).0, moves)
    decreases |s.queue.items| - s.queue.index
  {
    hide Open, SendOne, Submitting, Window, Puts, Replies, Texts, QueueItemSent;
    moves := [];
    Stays(s, s);
    if s.queue.index < |s.queue.items| && Open(s.flow) {
      var item := s.queue.items[s.queue.index];
      var fails := broken == s.queue.index;
      var r := SendOne(s.flow, item.command, fails);
      if r.1 == Sent {
        moves := QueueItemGoes(s, item, fails);
        var u := QueueItemSent(s.(flow := r.0), item);
        if !item.waitBed && !item.waitNozzle {
          QueueItemFrame(s, r.0);
          var more := QueueSentGoes(u, broken);
          GoesOn(s, u, QueueSent(u, broken).0, moves, more);
          moves := moves + more;
        }
      } else {
        moves := Submitting(s.flow, item.command, fails);
        SubmittingMoves(s.flow, item.command, fails);
      }
    }
  }

  lemma QueueItemFrame(s: Service, flow: State)
    requires s.queue.index < |s.queue.items|
    ensures QueueItemSent(s.(flow := flow), s.queue.items[s.queue.index]).queue == s.queue.(index := s.queue.index + 1)
  {
  }

  lemma QueuePolledGoes(s: Service, broken: nat) returns (moves: seq<Move>)
    ensures Goes(s, QueuePolled(s, broken).0, moves)
  {
    hide QueueSent, Heated, Window, Puts, Replies, Texts;
    if !s.queue.active || (s.wait.active && !Heated(s.wait, s.status)) {
      moves := [];
      Stays(s, QueuePolled(s, broken).0);
    } else {
      moves := QueueSentGoes(if s.wait.active then s.(wait := Off(s.wait)) else s, broken);
    }
  }

  lemma RefreshedFrame(s: Service)
    ensures Refreshed(s).flow == s.flow && Refreshed(s).book == s.book
    ensures Refreshed(s).status.phase == Finished ==> s.status.phase == Finished
  {
  }

  lemma GcodeGivenGoes(s: Service, lines: seq<string>, broken: nat) returns (moves: seq<Move>)
    ensures Goes(s, GcodeGiven(s, lines, broken), moves)
  {
    hide QueuePolled, RewrittenItems, HeatersSet, Refreshed, Window, Puts, Replies, Texts;
    var items := RewrittenItems(s.env.libc, lines);
    HeatersSetPhase(s.env, s.status, items);
    var q := s.(book := s.book.(disturbed := true), queue := Queue(items, 0, false),
                status := HeatersSet(s.env, s.status, items));
    RefreshedFrame(q);
    RefreshedFrame(Refreshed(q));
    if s.queue.active || |items| > QUEUE_COMMANDS || items == [] {
      moves := [];
      Stays(s, GcodeGiven(s, lines, broken));
    } else {
      var a := Refreshed(q).(queue := Refreshed(q).queue.(active := true));
      moves := QueuePolledGoes(a, broken);
      RefreshedFrame(QueuePolled(a, broken).0);
    }
  }

  // ---- The job ----

  lemma HomingPolledGoes(s: Service, broken: nat) returns (moves: seq<Move>)
    ensures Goes(s, HomingPolled(s, broken), moves)
  {
    hide SendList, Recorded, Window, Puts, Replies, Texts;
    moves := ListGoes(s, FromJob, HOME_COMMANDS, s.job.prepareIndex, true, broken);
  }

  lemma StartupPolledGoes(s: Service, broken: nat) returns (moves: seq<Move>)
    ensures Goes(s, StartupPolled(s, broken), moves)
  {
    hide SendList, Recorded, StartSequence, Window, Puts, Replies, Texts;
    var list := StartSequence(s.file.Some? && s.file.value.hasPrime);
    moves := ListGoes(s, FromJob, list, s.job.startupIndex, true, broken);
  }

  lemma PreparePolledGoes(s: Service, broken: nat) returns (moves: seq<Move>)
    ensures Goes(s, PreparePolled(s, broken), moves)
  {
    hide HomingPolled, StartupPolled, Heated, Inflight, Window, Puts, Replies, Texts;
    if s.job.stage == Homing {
      moves := HomingPolledGoes(s, broken);
    } else if s.job.stage == Startup {
      moves := StartupPolledGoes(s, broken);
    } else {
      moves := [];
      Stays(s, PreparePolled(s, broken));
    }
  }

  lemma DroppedGoes(s: Service, t: Service, moves: seq<Move>, status: Status)
    requires Goes(s, t, moves) && status.phase != Finished
    ensures Goes(s, Dropped(t).(status := status), moves + [Other(Conservation.Empty)])
  {
    hide Clear, Window, Puts, Replies, Texts;
    var u := Dropped(t).(status := status);
    Empties(t, u);
    GoesOn(s, t, u, moves, [Other(Conservation.Empty)]);
  }

  lemma ItemSentGoes(s: Service, broken: bool) returns (moves: seq<Move>)
    requires s.file.Some? && s.file.value.rest != []
    ensures Goes(s, ItemSent(s, broken), moves)
  {
    hide SendOne, Submitting, Clear, Window, Puts, Replies, Texts, Waiting, Tagged;
    var item := s.file.value.rest[0];
    var r := SendOne(s.flow, item.command, broken);
    moves := Submitting(s.flow, item.command, broken);
    SubmittingMoves(s.flow, item.command, broken);
    TextsRecorded(s.book, FromJob, [item.command]);
    if r.1 != Sent && r.1 != FlowFull {
      var t := s.(status := s.status.(phase := Printing), flow := r.0,
                  file := Some(s.file.value.(rest := s.file.value.rest[1..])));
      DroppedGoes(s, t, moves, FaultedWith(t.status, SendFault(r.1)));
      moves := moves + [Other(Conservation.Empty)];
    } else {
      ItemSentNotFinished(s, broken);
    }
  }

  lemma ItemSentNotFinished(s: Service, broken: bool)
    requires s.file.Some? && s.file.value.rest != []
    ensures ItemSent(s, broken).status.phase != Finished
  {
    hide SendOne, Clear, Tagged;
  }

  lemma FileAdvancedGoes(s: Service, readFails: bool, broken: bool) returns (moves: seq<Move>)
    ensures Goes(s, FileAdvanced(s, readFails, broken), moves)
  {
    hide ItemSent, Dropped, Window, Puts, Replies, Texts;
    Stays(s, s);
    if s.file == None {
      DroppedGoes(s, s, [], FaultedWith(s.status, StorageFault));
      moves := [] + [Other(Conservation.Empty)];
    } else if s.file.value.rest == [] || readFails {
      moves := [];
    } else {
      moves := ItemSentGoes(s, broken);
    }
  }

  lemma StreamPolledGoes(s: Service, readFails: bool, broken: bool) returns (moves: seq<Move>)
    ensures Goes(s, StreamPolled(s, readFails, broken), moves)
  {
    hide FileAdvanced, Heated, HasPendingBarrier, CanSend, Inflight, Window, Puts, Replies, Texts;
    moves := [];
    Stays(s, s);
    if Heated(s.wait, s.status) && !HasPendingBarrier(s.flow) && CanSend(s.flow) && Inflight(s.flow) < JOB_WINDOW {
      moves := FileAdvancedGoes(s.(wait := Off(s.wait)), readFails, broken);
    }
  }

  lemma StreamerPolledGoes(s: Service, readFails: bool, broken: nat) returns (moves: seq<Move>)
    ensures Goes(s, StreamerPolled(s, readFails, broken), moves)
  {
    hide StreamPolled, PreparePolled, Clear, Window, Puts, Replies, Texts;
    moves := [];
    Stays(s, s);
    if s.job.active && s.status.phase == Broken {
      DroppedGoes(s, s, [], s.status);
      moves := [] + [Other(Conservation.Empty)];
    } else if s.job.active && s.status.phase != Paused && s.status.phase != Pausing && !s.finish.pending {
      if s.job.stage != Streaming {
        moves := PreparePolledGoes(s, broken);
      } else {
        moves := StreamPolledGoes(s, readFails, broken == 0);
      }
    }
  }

  lemma JobPolledGoes(s: Service, readFails: bool, broken: nat) returns (moves: seq<Move>)
    ensures Goes(s, JobPolled(s, readFails, broken), moves)
  {
    hide Aborted, QueuePolled, StreamerPolled, Goes, Sends;
    if s.abortRequested {
      moves := AbortedGoes(s);
    } else if !Busy(s) && s.queue.active {
      moves := QueuePolledGoes(s, broken);
    } else if !Busy(s) {
      moves := StreamerPolledGoes(s, readFails, broken);
    } else {
      moves := [];
      Stays(s, s);
      StayGoes(s, s);
    }
  }

  lemma StayGoes(s: Service, t: Service)
    requires Sends(s, t, [], []) && StillFinished(s, t)
    ensures Goes(s, t, [])
  {
  }

  lemma JobAcceptedGoes(s: Service, request: JobRequest) returns (moves: seq<Move>)
    ensures Goes(s, JobAccepted(s, request), moves)
  {
    hide Clear, Window, Puts, Replies, Texts;
    var t := JobAccepted(s, request);
    if t.flow == s.flow && t.book.trace == s.book.trace && StillFinished(s, t) {
      moves := [];
      Stays(s, t);
    } else {
      moves := [Other(Conservation.Empty)];
      Empties(s, t);
    }
  }

  lemma MacroSentGoes(s: Service, command: string, broken: bool) returns (moves: seq<Move>)
    ensures Goes(s, MacroSent(s, command, broken), moves)
  {
    hide SendOne, Submitting, Roomy, Window, Puts, Replies, Texts, Tagged;
    if s.book.macroRunning && Roomy(s.flow) {
      moves := Submitting(s.flow, command, broken);
      SubmittingMoves(s.flow, command, broken);
      TextsRecorded(s.book, FromMacro, [command]);
    } else {
      moves := [];
      Stays(s, s);
    }
  }

  // ---- The controller's lines ----

  lemma LineSeenMoves(s: Service, line: string, allow: bool, resendFails: bool) returns (moves: seq<Move>)
    ensures var t := LineSeen(s, line, allow, resendFails).0;
      Sends(s, t, [ReplyOf(s.env, line)], moves) && StillFinished(s, t)
  {
    hide Handle, ReplyOf, Resync, Watched, Window, Puts, Replies, Texts, LineSeen;
    var reply, t := ReplyOf(s.env, line), LineSeen(s, line, allow, resendFails).0;
    LineSeenFrame(s, line, allow, resendFails);
    WatchedNotFinished(s.status, s.wait, s.env.reading(line));
    var hear, restart := Other(Conservation.Hear(reply)), Other(Conservation.Restart);
    OneMove(s.flow, hear);
    moves := [hear];
    if t.flow != Handle(s.flow, reply).0 {
      MovesCompose(s.flow, [hear], [restart]);
      OneMove(Handle(s.flow, reply).0, restart);
      moves := [hear] + [restart];
    }
  }

  function RepliesOf(env: Env, lines: seq<string>): seq<Reply> {
    seq(|lines|, i requires 0 <= i < |lines| => ReplyOf(env, lines[i]))
  }

  lemma {:induction false} LinesSeenMoves(s: Service, lines: seq<string>, allow: bool, resendFails: seq<bool>)
    returns (heard: seq<Reply>, moves: seq<Move>)
    ensures var t := LinesSeen(s, lines, allow, resendFails).0;
      Sends(s, t, heard, moves) && StillFinished(s, t) && heard <= RepliesOf(s.env, lines)
    decreases |lines|
  {
    hide LineSeen, Sends, ReplyOf;
    heard, moves := [], [];
    Stays(s, s);
    if lines != [] {
      var fails := |resendFails| > 0 && resendFails[0];
      var r := LineSeen(s, lines[0], allow, fails);
      LineSeenEnv(s, lines[0], allow, fails);
      moves := LineSeenMoves(s, lines[0], allow, fails);
      heard := [ReplyOf(s.env, lines[0])];
      if !r.1 {
        var more, on := LinesSeenMoves(r.0, lines[1..], allow, if resendFails == [] then [] else resendFails[1..]);
        SendsOn(s, r.0, LinesSeen(s, lines, allow, resendFails).0, heard, more, moves, on);
        heard, moves := heard + more, moves + on;
      }
    }
  }

  lemma LineSeenEnv(s: Service, line: string, allow: bool, resendFails: bool)
    ensures LineSeen(s, line, allow, resendFails).0.env == s.env
  {
    hide LineSeen;
    LineSeenFrame(s, line, allow, resendFails);
  }

  // ---- Probes ----

  lemma ProbeSentGoes(s: Service, commands: seq<string>, broken: nat) returns (moves: seq<Move>)
    ensures Goes(s, ProbeSent(s, commands, broken).0, moves)
  {
    hide SendList, Goes;
    moves := ListGoes(s, FromProbe, commands, 0, false, broken);
  }

  lemma StartupProbedGoes(s: Service, broken: nat) returns (moves: seq<Move>)
    ensures Goes(s, StartupProbed(s, broken).0, moves)
  {
    hide ProbeSent, Inflight, Window, Puts, Replies, Texts;
    moves := [];
    Stays(s, s);
    if s.ready && s.polling.startup && Inflight(s.flow) == 0 {
      moves := ProbeSentGoes(s, STARTUP_PROBE, broken);
    }
  }

  lemma FirmwareProbedGoes(s: Service, broken: bool) returns (moves: seq<Move>)
    ensures Goes(s, FirmwareProbed(s, broken).0, moves)
  {
    hide SendOne, Submitting, Inflight, Window, Puts, Replies, Texts, Tagged;
    var t := FirmwareProbed(s, broken).0;
    moves := [];
    if t.flow != s.flow || t.book.trace != s.book.trace {
      moves := Submitting(s.flow, "M115", broken);
      SubmittingMoves(s.flow, "M115", broken);
      TextsRecorded(s.book, FromProbe, ["M115"]);
    } else {
      Stays(s, t);
    }
  }

  lemma TemperatureProbedGoes(s: Service, broken: nat) returns (moves: seq<Move>)
    ensures Goes(s, TemperatureProbed(s, broken).0, moves)
  {
    hide ProbeSent, Inflight, Window, Puts, Replies, Texts;
    moves := [];
    Stays(s, s);
    if s.ready && !s.polling.startup && Inflight(s.flow) == 0
       && (s.polling.temperature + 1) % U32 >= TEMPERATURE_TICKS {
      moves := ProbeSentGoes(s, STATUS_PROBE, broken);
    }
  }

  lemma ProbedGoes(s: Service, luck: Luck) returns (moves: seq<Move>)
    ensures Goes(s, Probed(s, luck).0, moves)
  {
    hide StartupProbed, FirmwareProbed, TemperatureProbed, Goes;
    var c := StartupProbed(s, luck.startup).0;
    var d := FirmwareProbed(c, luck.firmware).0;
    var x := StartupProbedGoes(s, luck.startup);
    var y := FirmwareProbedGoes(c, luck.firmware);
    var z := TemperatureProbedGoes(d, luck.temperature);
    GoesOn(s, c, d, x, y);
    GoesOn(s, d, Probed(s, luck).0, x + y, z);
    moves := x + y + z;
  }

  // ---- How a print comes to be finished ----

  /** What the job has submitted among the first n commands. */
  function JobPart(b: Book, n: nat): seq<string> {
    if b.jobMark <= n <= |b.trace| then OfOrigin(b.trace[b.jobMark..n], FromJob) else []
  }

  function Script(b: Book): seq<string> {
    ServiceSafety.Body(b) + FINISH_COMMANDS
  }

  /** After k of the moves nothing is in flight, and the job has submitted its whole script. */
  ghost predicate DrainedAt(s: Service, t: Service, moves: seq<Move>, k: nat) {
    && k <= |moves| && Inflight(Window(s.flow, moves[..k])) == 0
    && JobPart(t.book, |s.book.trace| + |Puts(moves[..k])|) == Script(t.book)
  }

  ghost predicate Drained(s: Service, t: Service, moves: seq<Move>) {
    exists k: nat :: DrainedAt(s, t, moves, k)
  }

  /** A print becomes a finished one only when its window has drained. */
  ghost predicate Settles(s: Service, t: Service, moves: seq<Move>) {
    StillFinished(s, t) || Drained(s, t, moves)
  }

  lemma FinishPolledSends(s: Service, broken: nat) returns (moves: seq<Move>)
    requires Inv(s)
    ensures Sends(s, FinishPolled(s, broken), [], moves) && Settles(s, FinishPolled(s, broken), moves)
  {
    hide SendList, Recorded, Clear, Inflight, Window, Puts, Replies, Texts, Inv;
    if !s.finish.pending {
      moves := [];
      Stays(s, s);
    } else {
      moves := ListGoes(s, FromJob, s.finish.policy, s.finish.index, true, broken);
      var r := SendList(s.flow, s.finish.policy, s.finish.index, true, broken);
      var t, u := AfterList(s, FromJob, s.finish.policy, s.finish.index, r), FinishPolled(s, broken);
      if r.end.Ended? && Inflight(t.flow) == 0 {
        Empties(t, u);
        FinishPolledKeeps(s, broken);
        SendsOn(s, t, u, [], [], moves, [Other(Conservation.Empty)]);
        FinishDrains(s, t, u, moves);
        moves := moves + [Other(Conservation.Empty)];
      } else {
        Alike(s, t, u, moves);
      }
    }
  }

  lemma FinishDrains(s: Service, t: Service, u: Service, moves: seq<Move>)
    requires Goes(s, t, moves) && Inflight(t.flow) == 0 && Inv(u) && u.status.phase == Finished
    requires u.book == t.book
    ensures DrainedAt(s, u, moves + [Other(Conservation.Empty)], |moves|)
  {
    hide OfOrigin, Inflight, Window, Puts, Replies, ServiceSafety.Body;
    var all, n := moves + [Other(Conservation.Empty)], |t.book.trace|;
    assert all[..|moves|] == moves;
    assert u.book.trace[u.book.jobMark..n] == u.book.trace[u.book.jobMark..];
  }

  /** More moves behind. */
  lemma DrainedStays(s: Service, t: Service, u: Service, h: seq<Reply>, i: seq<Reply>, a: seq<Move>, b: seq<Move>)
    requires Sends(s, t, h, a) && Sends(t, u, i, b) && Settles(s, t, a) && StillFinished(t, u)
    ensures Settles(s, u, a + b)
  {
    hide Window, Puts, Replies, Texts, Inflight, Script;
    if u.status.phase == Finished && Drained(s, t, a) {
      var k: nat :| DrainedAt(s, t, a, k);
      assert (a + b)[..k] == a[..k];
      PutsGrow(a, k);
      SamePart(t.book, u.book, |s.book.trace| + |Puts(a[..k])|);
      assert DrainedAt(s, u, a + b, k);
    }
  }

  lemma PutsGrow(moves: seq<Move>, k: nat)
    requires k <= |moves|
    ensures Puts(moves[..k]) <= Puts(moves)
  {
    hide Puts, Window, Replies;
    assert moves == moves[..k] + moves[k..];
    MovesCompose(Fresh(), moves[..k], moves[k..]);
  }

  lemma SamePart(b: Book, c: Book, n: nat)
    requires b.trace <= c.trace && SameJob(b, c) && n <= |b.trace|
    ensures JobPart(c, n) == JobPart(b, n) && Script(c) == Script(b)
  {
    hide OfOrigin;
    assert b.jobMark <= n ==> c.trace[c.jobMark..n] == b.trace[b.jobMark..n];
  }

  /** More moves in front. */
  lemma DrainedLater(s: Service, t: Service, u: Service, heard: seq<Reply>, a: seq<Move>, b: seq<Move>)
    requires Sends(s, t, heard, a) && Drained(t, u, b)
    ensures Drained(s, u, a + b)
  {
    hide Window, Puts, Replies, Texts, Inflight, Script;
    var k: nat :| DrainedAt(t, u, b, k);
    assert (a + b)[..|a| + k] == a + b[..k];
    MovesCompose(s.flow, a, b[..k]);
    assert DrainedAt(s, u, a + b, |a| + k);
  }

  lemma SettlesOn(s: Service, t: Service, u: Service, h: seq<Reply>, i: seq<Reply>, a: seq<Move>, b: seq<Move>)
    requires Sends(s, t, h, a) && Sends(t, u, i, b) && Settles(s, t, a) && Settles(t, u, b)
    ensures Sends(s, u, h + i, a + b) && Settles(s, u, a + b)
  {
    hide Sends, Drained, StillFinished;
    SendsOn(s, t, u, h, i, a, b);
    if Drained(t, u, b) {
      DrainedLater(s, t, u, h, a, b);
    } else {
      DrainedStays(s, t, u, h, i, a, b);
    }
  }

  lemma TendedSends(s: Service, luck: Luck) returns (moves: seq<Move>)
    requires Inv(s)
    ensures Sends(s, Tended(s, luck).0, [], moves) && Settles(s, Tended(s, luck).0, moves)
  {
    hide Inv, Aborted, PauseResumePolled, AbortPolled, FinishPolled, Probed, Sends, Goes, Settles, Appended;
    FaultCheckedKeeps(s);
    var k := FaultChecked(s);
    PauseResumePolledKeeps(k, luck.one, luck.list);
    var a := PauseResumePolled(k, luck.one, luck.list);
    AbortPolledKeeps(a, luck.abort);
    var p := AbortPolled(a, luck.abort);
    var q := FinishPolled(p, luck.finish);
    var b := FirmwareNoted(Refreshed(q));
    var m0 := FaultCheckedGoes(s);
    var m1 := PauseResumePolledGoes(k, luck.one, luck.list);
    var m2 := AbortPolledGoes(a, luck.abort);
    GoesOn(s, k, a, m0, m1);
    GoesOn(s, a, p, m0 + m1, m2);
    var m3 := FinishPolledSends(p, luck.finish);
    NotedGoes(q);
    var m4 := ProbedGoes(b, luck);
    GoesOn(q, b, Probed(b, luck).0, [], m4);
    moves := m0 + m1 + m2 + (m3 + ([] + m4));
    Tending(s, p, q, Probed(b, luck).0, m0 + m1 + m2, m3, [] + m4);
  }

  lemma FaultCheckedGoes(s: Service) returns (moves: seq<Move>)
    ensures Goes(s, FaultChecked(s), moves)
  {
    hide Aborted, Goes, Sends;
    if FaultChecked(s) != s {
      moves := AbortedGoes(s);
    } else {
      moves := [];
      Stays(s, s);
      StayGoes(s, s);
    }
  }

  lemma NotedGoes(s: Service)
    ensures Goes(s, FirmwareNoted(Refreshed(s)), [])
  {
    hide Sends;
    Stays(s, FirmwareNoted(Refreshed(s)));
  }

  lemma Tending(s: Service, p: Service, q: Service, u: Service, a: seq<Move>, b: seq<Move>, c: seq<Move>)
    requires Goes(s, p, a) && Sends(p, q, [], b) && Settles(p, q, b) && Goes(q, u, c)
    ensures Sends(s, u, [], a + (b + c)) && Settles(s, u, a + (b + c))
  {
    hide Sends, Drained, StillFinished;
    var none: seq<Reply> := [];
    assert none + none == none;
    SettlesOn(p, q, u, none, none, b, c);
    SettlesOn(s, p, u, none, none, a, b + c);
  }

  lemma MotionPolledSends(s: Service, lines: seq<string>, lineBroken: bool, luck: Luck)
    returns (heard: seq<Reply>, moves: seq<Move>)
    requires Inv(s)
    ensures var t := MotionPolled(s, lines, lineBroken, luck).0;
      Sends(s, t, heard, moves) && Settles(s, t, moves) && heard <= RepliesOf(s.env, lines)
  {
    hide Inv, LinesSeen, Tended, Sends, Drained, StillFinished, RepliesOf, Inflight;
    heard, moves := [], [];
    Stays(s, s);
    Unchanged(s);
    if s.ready {
      heard, moves := LinesSeenMoves(s, lines, AllowResync(s), luck.resendFails);
      LinesSeenKeeps(s, lines, AllowResync(s), luck.resendFails);
    }
    var r := if s.ready then LinesSeen(s, lines, AllowResync(s), luck.resendFails).0 else s;
    var more := TendedSends(r, luck);
    var u := Tended(r, luck).0;
    SettlesOn(s, r, u, heard, [], moves, more);
    assert heard + [] == heard;
    moves := moves + more;
  }

  lemma Unchanged(s: Service)
    ensures StillFinished(s, s)
  {
  }

  // ---- Whole runs ----

  function LinesOf(e: Event): seq<string> {
    if e.Motion? then e.lines else []
  }

  /** A step that leaves the window and the history alone. */
  lemma Rests(s: Service, t: Service)
    requires t.flow == s.flow && t.book.trace == s.book.trace && StillFinished(s, t)
    ensures Goes(s, t, [])
  {
    hide Sends, StillFinished;
    Stays(s, t);
  }

  lemma AskedGoes(s: Service)
    ensures Goes(s, PauseAsked(s), []) && Goes(s, ResumeAsked(s), []) && Goes(s, Closed(s), [])
  {
    hide Goes, ResumeCommands;
    Rests(s, PauseAsked(s));
    Rests(s, ResumeAsked(s));
    Rests(s, Closed(s));
  }

  lemma MarksGo(s: Service, e: Event)
    requires e.OpenMotion? || e.LatchAbort? || e.MacroBegin? || e.MacroEnd?
    ensures Goes(s, Step(s, e), [])
  {
    hide Goes;
    Rests(s, Step(s, e));
  }

  lemma MacroWaitGoes(s: Service, item: Item)
    ensures Goes(s, MacroArmed(s, item), []) && Goes(s, MacroWaiting(s), []) && Goes(s, MacroHeated(s), [])
  {
    hide Goes;
    Rests(s, MacroArmed(s, item));
    Rests(s, MacroWaiting(s));
    Rests(s, MacroHeated(s));
  }

  /** Whatever happens to the service, its window takes a sequence of moves that put exactly the commands recorded
      and hear the lines as they come; and a print is shown as finished only when its window has drained behind its
      whole script. */
  lemma StepIsMoves(s: Service, e: Event) returns (heard: seq<Reply>, moves: seq<Move>)
    requires Inv(s)
    ensures Sends(s, Step(s, e), heard, moves) && Settles(s, Step(s, e), moves)
    ensures heard <= RepliesOf(s.env, LinesOf(e))
  {
    hide Inv, MotionPolled, JobPolled, JobAccepted, Aborted, PauseAsked, ResumeAsked, GcodeGiven, Closed, MacroSent,
         Sends, RepliesOf, Drained, StillFinished;
    heard := [];
    match e
    case Motion(lines, lineBroken, luck) => heard, moves := MotionPolledSends(s, lines, lineBroken, luck);
    case Poll(readFails, broken) => moves := JobPolledGoes(s, readFails, broken);
    case NewJob(request) => moves := JobAcceptedGoes(s, request);
    case Abort => moves := AbortedGoes(s);
    case Gcode(lines, broken) => moves := GcodeGivenGoes(s, lines, broken);
    case MacroSend(command, writeFails) => moves := MacroSentGoes(s, command, writeFails);
    case MacroArm(item) => moves := []; MacroWaitGoes(s, item);
    case MacroWait => moves := []; MacroWaitGoes(s, Item("", false, false, 0.0));
    case MacroCool => moves := []; MacroWaitGoes(s, Item("", false, false, 0.0));
    case _ =>
      moves := [];
      if e.Pause? || e.Resume? || e.Close? {
        AskedGoes(s);
      } else {
        MarksGo(s, e);
      }
  }

  /** The moves of a run, event by event. */
  ghost predicate Does(env: Env, events: seq<Event>, parts: seq<seq<Move>>) {
    |parts| == |events| && forall i :: 0 <= i < |parts| ==> EventDoes(env, events, i, parts[i])
  }

  ghost predicate EventDoes(env: Env, events: seq<Event>, i: nat, moves: seq<Move>)
    requires i < |events|
  {
    var s, t := Run(Start(env), events[..i]), Run(Start(env), events[..i + 1]);
    && Sends(s, t, Replies(moves), moves) && Settles(s, t, moves)
    && Replies(moves) <= RepliesOf(s.env, LinesOf(events[i]))
  }

  function All(parts: seq<seq<Move>>): seq<Move> {
    if parts == [] then [] else All(parts[..|parts| - 1]) + parts[|parts| - 1]
  }

  /** Every run of the service is a run of such moves. */
  lemma {:induction false} RunIsMoves(env: Env, events: seq<Event>) returns (parts: seq<seq<Move>>)
    ensures Does(env, events, parts)
  {
    hide Step, Sends, Settles, RepliesOf, Replies;
    parts := [];
    if events != [] {
      var n := |events| - 1;
      var before := RunIsMoves(env, events[..n]);
      var s := Run(Start(env), events[..n]);
      ReachedInv(env, events[..n]);
      var heard, last := StepIsMoves(s, events[n]);
      SendsHeard(s, Step(s, events[n]), heard, last);
      parts := before + [last];
      forall i | 0 <= i < |parts| ensures EventDoes(env, events, i, parts[i]) {
        if i < n {
          assert EventDoes(env, events[..n], i, before[i]);
          assert events[..n][..i] == events[..i] && events[..n][..i + 1] == events[..i + 1];
        } else {
          assert events[..n + 1] == events;
        }
      }
    }
  }

  lemma SendsHeard(s: Service, t: Service, heard: seq<Reply>, moves: seq<Move>)
    requires Sends(s, t, heard, moves)
    ensures heard == Replies(moves)
  {
  }

  /** Over a whole run the moves make up the window, what they put is what the service has recorded, and a print is
      shown as finished only when the window has drained behind its script. */
  lemma {:induction false} RunMoves(env: Env, events: seq<Event>, parts: seq<seq<Move>>)
    requires Does(env, events, parts)
    ensures Sends(Start(env), Run(Start(env), events), Replies(All(parts)), All(parts))
    ensures Settles(Start(env), Run(Start(env), events), All(parts))
  {
    hide Step, Sends, Drained, RepliesOf, Replies;
    if events == [] {
      Stays(Start(env), Start(env));
      SendsHeard(Start(env), Start(env), [], []);
    } else {
      var n := |events| - 1;
      assert events[..n + 1] == events;
      forall i | 0 <= i < n ensures EventDoes(env, events[..n], i, parts[..n][i]) {
        assert EventDoes(env, events, i, parts[i]);
        assert events[..n][..i] == events[..i] && events[..n][..i + 1] == events[..i + 1];
      }
      RunMoves(env, events[..n], parts[..n]);
      assert EventDoes(env, events, n, parts[n]);
      var s, t := Run(Start(env), events[..n]), Run(Start(env), events);
      var m, last := All(parts[..n]), parts[n];
      SettlesOn(Start(env), s, t, Replies(m), Replies(last), m, last);
      SendsHeard(Start(env), t, Replies(m) + Replies(last), m + last);
    }
  }

  // ---- The controller's side ----

  /** What a step of the link does to the sender's window. */
  function MoveOf(l: Link.Link, step: Link.Step): seq<Move> {
    if step.Submit? then [Put(step.command)]
    else if step.Hear? && l.back != [] && !l.back[0].Expected? then
      var line := l.back[0].line;
      [Other(Conservation.Hear(if Parse(line) == None then OtherText else Parse(line).value))]
    else if step.ClearQuiet? then [Other(Conservation.Empty)]
    else []
  }

  /** The step can be taken, and gives up no window. */
  ghost predicate Taken(l: Link.Link, step: Link.Step) {
    Link.On(l, step) && !step.Resynchronise?
  }

  /** A run of the link in which the sender does exactly these moves. */
  ghost predicate LinkRun(l: Link.Link, steps: seq<Link.Step>, moves: seq<Move>, l': Link.Link)
    decreases |steps|
  {
    if steps == [] then moves == [] && l == l' else
    && Taken(l, steps[0])
    && var m := MoveOf(l, steps[0]);
       m <= moves && LinkRun(Link.Next(l, steps[0]), steps[1..], moves[|m|..], l')
  }

  lemma LinkMoves(l: Link.Link, step: Link.Step)
    requires Taken(l, step)
    ensures Window(l.st, MoveOf(l, step)) == Link.Next(l, step).st
    ensures Puts(MoveOf(l, step)) == if step.Submit? then [step.command] else []
    ensures l.accepted <= Link.Next(l, step).accepted && |MoveOf(l, step)| <= 1
  {
    hide SlidingWindow.Synced, Frame, Format, Decode, Parse, Handle, Prepare, Clear;
    NoMoves(l.st);
    if MoveOf(l, step) != [] {
      OneMove(l.st, MoveOf(l, step)[0]);
    }
  }

  lemma {:induction false} LinkRunFacts(l: Link.Link, steps: seq<Link.Step>, moves: seq<Move>, l': Link.Link)
    requires LinkRun(l, steps, moves, l')
    ensures Link.Reaches(l, steps, l') && Link.Unbroken(steps) && Window(l.st, moves) == l'.st && Puts(moves) == Link.Submissions(steps)
    ensures l.accepted <= l'.accepted
    decreases |steps|
  {
    hide SlidingWindow.Synced, Link.Enabled, Link.Next, MoveOf, Window, Puts, Replies;
    NoMoves(l.st);
    if steps != [] {
      var m := MoveOf(l, steps[0]);
      LinkMoves(l, steps[0]);
      LinkRunFacts(Link.Next(l, steps[0]), steps[1..], moves[|m|..], l');
      assert moves == m + moves[|m|..];
      MovesCompose(l.st, m, moves[|m|..]);
    }
  }

  lemma LinkRunFrom(l: Link.Link, step: Link.Step, more: seq<Link.Step>, moves: seq<Move>, l': Link.Link)
    requires Taken(l, step)
    requires LinkRun(Link.Next(l, step), more, moves, l')
    ensures LinkRun(l, [step] + more, MoveOf(l, step) + moves, l')
  {
    hide SlidingWindow.Synced, Link.Enabled, Link.Next, MoveOf;
    var steps, m := [step] + more, MoveOf(l, step);
    assert steps[1..] == more && (m + moves)[|m|..] == moves;
  }

  lemma LinkRunOn(l: Link.Link, steps: seq<Link.Step>, moves: seq<Move>, l': Link.Link)
    requires LinkRun(l, steps, moves, l') && steps != []
    ensures Taken(l, steps[0])
    ensures var m := MoveOf(l, steps[0]);
      m <= moves && |m| <= 1 && LinkRun(Link.Next(l, steps[0]), steps[1..], moves[|m|..], l')
  {
    hide SlidingWindow.Synced, Link.Enabled, Link.Next;
  }

  lemma NoSteps(l: Link.Link, moves: seq<Move>, l': Link.Link)
    ensures LinkRun(l, [], [], l)
    ensures LinkRun(l, [], moves, l') ==> moves == []
  {
    hide SlidingWindow.Synced, Link.Enabled, Link.Next, MoveOf;
  }

  /** The run up to the first k moves. */
  lemma {:induction false} LinkRunUpTo(l: Link.Link, steps: seq<Link.Step>, moves: seq<Move>, l': Link.Link, k: nat)
    returns (before: seq<Link.Step>, mid: Link.Link)
    requires LinkRun(l, steps, moves, l') && k <= |moves|
    ensures LinkRun(l, before, moves[..k], mid) && mid.accepted <= l'.accepted
    decreases |steps|
  {
    hide SlidingWindow.Synced, Link.Enabled, Link.Next, MoveOf, LinkRun;
    NoSteps(l, moves, l');
    if k == 0 {
      before, mid := [], l;
      LinkRunFacts(l, steps, moves, l');
    } else {
      LinkRunOn(l, steps, moves, l');
      var m := MoveOf(l, steps[0]);
      var more, there := LinkRunUpTo(Link.Next(l, steps[0]), steps[1..], moves[|m|..], l', k - |m|);
      before, mid := [steps[0]] + more, there;
      assert moves[..k] == m + moves[|m|..][..k - |m|];
      LinkRunFrom(l, steps[0], more, moves[|m|..][..k - |m|], there);
    }
  }

  /** The link starts with the service: an empty window, an idle line, a controller at the same number. */
  ghost predicate Together(l: Link.Link) {
    Link.Initial(l) && l.st == Fresh()
  }

  lemma {:induction false} OfOriginGrows(trace: seq<Submission>, n: nat, origin: Origin)
    requires n <= |trace|
    ensures OfOrigin(trace[..n], origin) <= OfOrigin(trace, origin)
  {
    if n < |trace| {
      OfOriginGrows(trace[..|trace| - 1], n, origin);
      assert trace[..|trace| - 1][..n] == trace[..n];
    } else {
      assert trace[..n] == trace;
    }
  }

  lemma PartGrows(b: Book, n: nat, m: nat)
    requires n <= m <= |b.trace|
    ensures JobPart(b, n) <= JobPart(b, m) <= Log(b, b.jobMark, FromJob)
  {
    hide OfOrigin;
    if b.jobMark <= n {
      OfOriginGrows(b.trace[b.jobMark..m], n - b.jobMark, FromJob);
      assert b.trace[b.jobMark..m][..n - b.jobMark] == b.trace[b.jobMark..n];
    }
    if b.jobMark <= m {
      OfOriginGrows(b.trace[b.jobMark..], m - b.jobMark, FromJob);
      assert b.trace[b.jobMark..][..m - b.jobMark] == b.trace[b.jobMark..m];
    }
  }

  /** The service as the sender of a line that damages, loses, repeats and delays: the controller has accepted a
      beginning of what the service has submitted, all but at most what is in flight; and of the job it has accepted
      a beginning of its script. */
  lemma ControllerFollowsScript(env: Env, events: seq<Event>, parts: seq<seq<Move>>,
                                l: Link.Link, steps: seq<Link.Step>, l': Link.Link)
    requires Does(env, events, parts) && Together(l) && LinkRun(l, steps, All(parts), l')
    ensures var s := Run(Start(env), events);
      && l'.st == s.flow && l'.accepted <= Texts(s.book.trace)
      && |s.book.trace| - Inflight(s.flow) <= |l'.accepted|
      && JobPart(s.book, |l'.accepted|) <= Script(s.book)
  {
    hide Run, Does, Link.Initial, LinkRun, Window, Inflight, Log, OfOrigin, Reachable;
    RunMoves(env, events, parts);
    LinkRunFacts(l, steps, All(parts), l');
    Link.SlidingWindowSafety(l, steps, l');
    var s := Run(Start(env), events);
    RunIsReachable(env, events);
    JobFollowsItsScript(s);
    PartGrows(s.book, |l'.accepted|, |s.book.trace|);
    ScriptIs(s.book);
  }

  lemma ScriptIs(b: Book)
    requires b.taken <= |b.items|
    ensures Script(b) == HOME_COMMANDS + StartSequence(b.hasPrime) + Commands(b.items[..b.taken]) + FINISH_COMMANDS
  {
  }

  /** A print shown as finished, in a run in which no read fails, has been accepted by the controller whole: every
      command from home to finish, each once and in order, whatever the line did to the packets. */
  lemma FinishedPrintIsAccepted(env: Env, events: seq<Event>, parts: seq<seq<Move>>,
                                l: Link.Link, steps: seq<Link.Step>, l': Link.Link)
    requires Does(env, events, parts) && Together(l) && LinkRun(l, steps, All(parts), l')
    requires forall i :: 0 <= i < |events| ==> ReadsWell(events[i])
    requires Run(Start(env), events).status.phase == Finished
    ensures var s := Run(Start(env), events);
      && l'.accepted <= Texts(s.book.trace)
      && JobPart(s.book, |l'.accepted|)
         == HOME_COMMANDS + StartSequence(s.book.hasPrime) + Commands(s.book.items) + FINISH_COMMANDS
  {
    hide Run, Does, Link.Initial, LinkRun, Window, Inflight, Log, OfOrigin, Reachable, Puts, Replies, Script;
    RunMoves(env, events, parts);
    var s, moves := Run(Start(env), events), All(parts);
    var k: nat :| DrainedAt(Start(env), s, moves, k);
    var before, mid := LinkRunUpTo(l, steps, moves, l', k);
    LinkRunFacts(l, before, moves[..k], mid);
    Link.SlidingWindowSafety(l, before, mid);
    ControllerFollowsScript(env, events, parts, l, steps, l');
    FinishedSubmitsWholeFile(env, events);
    PartGrows(s.book, |Puts(moves[..k])|, |l'.accepted|);
    RunIsReachable(env, events);
    FinishedMeansWhole(s);
    ScriptIs(s.book);
  }
}
