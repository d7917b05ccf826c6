/** The print service as it runs: its fields are updated in place by polls and commands. Every method is
    tied to ServiceState; where a serial write or a read broke off is returned as a ghost. */
module PrintService {
  import opened Casts
  import opened FlowControl
  import opened FlowState
  import opened GcodeRewrite
  import opened GcodeStream
  import opened MarlinPacket
  import opened MotionPolicy
  import opened MotionSender
  import opened PrintStatus
  import opened ServiceRun
  import opened ServiceSafety
  import opened ServiceState
  import opened SlidingWindow
  import opened SyncLine

  // ---- Facts about lists sent in pieces ----

  /** A breakdown past the end of a list is none. */
  lemma {:induction false} BrokenBeyond(st: State, commands: seq<string>, i: nat, strict: bool, b: nat, c: nat)
    requires |commands| <= b && |commands| <= c
    ensures SendList(st, commands, i, strict, b) == SendList(st, commands, i, strict, c)
    decreases |commands| - i
  {
    hide Gate;
    if i < |commands| && Gate(st, strict) {
      BrokenBeyond(SendOne(st, commands[i], false).0, commands, i + 1, strict, b, c);
    }
  }

  // ---- What is written ----

  /** The number k packets further on. */
  function Later(number: byte, k: nat): byte {
    if k == 0 then number else NextSequence(Later(number, k - 1))
  }

  /** The frames of commands, numbered from number on. */
  function Frames(number: byte, commands: seq<string>): seq<byte> {
    if commands == [] then [] else
    var n := |commands| - 1;
    Frames(number, commands[..n]) + Frame(Later(number, n), commands[n])
  }

  lemma NoFrames(number: byte)
    ensures Frames(number, []) == [] && Later(number, 0) == number
  {
  }

  lemma FramesGrow(number: byte, commands: seq<string>, i: nat, j: nat)
    requires i <= j < |commands|
    ensures Frames(number, commands[i..j + 1]) == Frames(number, commands[i..j]) + Frame(Later(number, j - i), commands[j])
    ensures Later(number, j + 1 - i) == NextSequence(Later(number, j - i))
  {
    hide Frame, NextSequence;
    assert commands[i..j + 1][..j - i] == commands[i..j];
  }

  lemma SentTakesNumber(st: State, command: string)
    ensures SendOutcome(st, command).1 == Sent ==>
              SendOutcome(st, command).0.nextSequence == NextSequence(st.nextSequence)
  {
  }

  /** All that is pending has been written again behind the sync bytes, in the order of ResendPending. */
  ghost predicate Rewrote(st: State, order: seq<nat>, before: seq<byte>, after: seq<byte>) {
    && (forall a :: 0 <= a < |order| ==> order[a] < |st.slots|) && IsResendOrder(st.slots, order)
    && after == before + SYNC_BYTES + Wire(st, order)
  }

  /** What follows the handling of a line. */
  function FollowedUp(s: Service, outcome: Outcome, allow: bool, resendFails: bool): (Service, bool) {
    var t := if outcome.ExpectedReported? then s.(flow := Resync(s.flow)) else s;
    var stop := Active(s.status) && match outcome
      case Resend(_) => resendFails
      case ExpectedReported => !allow
      case Rejected => true
      case _ => false;
    (if stop then t.(status := s.status.(phase := Broken, error := SerialFault)) else t, stop)
  }

  lemma LineIsFollowedUp(s: Service, line: string, allow: bool)
    ensures var w, r := Watched(s.status, s.wait, s.env.reading(line)), Handle(s.flow, ReplyOf(s.env, line));
      forall fails: bool ::
        LineSeen(s, line, allow, fails) == FollowedUp(s.(status := w.0, wait := w.1, flow := r.0), r.1, allow, fails)
  {
    hide Handle, Watched, ReplyOf, Resync;
  }

  lemma RewroteIs(st: State, order: seq<nat>, before: seq<byte>, after: seq<byte>)
    requires (forall a :: 0 <= a < |order| ==> order[a] < |st.slots|) && IsResendOrder(st.slots, order)
    requires after == before + SYNC_BYTES + Wire(st, order)
    ensures Rewrote(st, order, before, after)
  {
  }

  function Shifted(r: Sending, n: nat): Sending {
    r.(index := r.index + n)
  }

  /** Past the first part, sending two lists in one is sending the second. */
  lemma {:induction false} SecondPart(st: State, a: seq<string>, b: seq<string>, i: nat, strict: bool, broken: nat)
    ensures SendList(st, a + b, |a| + i, strict, |a| + broken) == Shifted(SendList(st, b, i, strict, broken), |a|)
    decreases |b| - i
  {
    hide Gate, SendOne;
    if i < |b| {
      assert (a + b)[|a| + i] == b[i];
      SecondPart(SendOne(st, b[i], broken == i).0, a, b, i + 1, strict, broken);
    }
  }

  /** Sending two lists in one is sending the first and, if that ends, the second. */
  lemma {:induction false} TwoParts(st: State, a: seq<string>, b: seq<string>, i: nat, strict: bool, broken: nat)
    requires i <= |a|
    ensures var r := SendList(st, a, i, strict, broken);
      if !r.end.Ended? then SendList(st, a + b, i, strict, broken) == r
      else |a| <= broken ==>
        SendList(st, a + b, i, strict, broken) == Shifted(SendList(r.flow, b, 0, strict, broken - |a|), |a|)
    decreases |a| - i
  {
    hide Gate, SendOne;
    if i < |a| {
      assert (a + b)[i] == a[i];
      TwoParts(SendOne(st, a[i], broken == i).0, a, b, i + 1, strict, broken);
    } else if |a| <= broken {
      SecondPart(st, a, b, 0, strict, broken - |a|);
    }
  }

  /** What the controller sends before one poll of a waiting macro, and whether the deadline passes with it. */
  datatype Burst = Burst(lines: seq<string>, lineBroken: bool, late: bool)

  function FirstBurst(bursts: seq<Burst>): Burst {
    if bursts == [] then Burst([], false, true) else bursts[0]
  }

  function LaterBursts(bursts: seq<Burst>): seq<Burst> {
    if bursts == [] then [] else bursts[1..]
  }

  /** A stream the next item can be read from. */
  ghost predicate Readable(macro: Stream)
    reads macro
  {
    macro.Valid() && !macro.failed
  }

  lemma CommandsPrefix(items: seq<Item>, n: nat)
    requires n <= |items|
    ensures Commands(items[..n]) <= Commands(items)
  {
  }

  lemma CommandsOfNone(items: seq<Item>)
    ensures Commands(items[..0]) == [] <= Commands(items)
  {
  }

  /** A macro that has submitted n commands and at most one more is still at a beginning of its file. */
  lemma MacroGrew(items: seq<Item>, n: nat, before: seq<string>, after: seq<string>)
    requires n < |items| && before == Commands(items[..n]) <= after <= before + [items[n].command]
    ensures after <= Commands(items) && items[n..][1..] == items[n + 1..]
    ensures Commands(items[..n + 1]) == before + [items[n].command]
  {
    assert before + [items[n].command] == Commands(items[..n + 1]) <= Commands(items);
  }

  lemma ClosedForm(s: Service)
    ensures Closed(s) == AllDropped(s.(abortRequested := false, abort := Idled(s.abort), wait := Off(s.wait),
      ready := false, polling := s.polling.(startup := false, firmware := false, ticks := 0, attempts := 0))).(file := None)
  {
  }

  lemma RunOneMore(s: Service, events: seq<Event>, e: Event)
    ensures Run(s, events + [e]) == Step(Run(s, events), e)
  {
    hide Step;
    assert (events + [e])[..|events|] == events;
  }

  /** A macro that has just begun has submitted nothing. */
  lemma MacroBegins(s: Service)
    requires Inv(s)
    ensures var t := MacroBegun(s);
      Inv(t) && Run(s, [MacroBegin]) == t && Log(t.book, t.book.macroMark, FromMacro) == []
  {
    hide Inv, Step;
    RunOneMore(s, [], MacroBegin);
    assert [] + [MacroBegin] == [MacroBegin];
    BegunStep(s);
  }

  lemma BegunStep(s: Service)
    requires Inv(s)
    ensures Inv(MacroBegun(s)) && Step(s, MacroBegin) == MacroBegun(s)
  {
    hide Inv;
    StepKeeps(s, MacroBegin);
  }

  lemma EndedStep(s: Service, error: Option<Fault>)
    requires Inv(s)
    ensures Inv(MacroEnded(s, error)) && Step(s, MacroEnd(error)) == MacroEnded(s, error)
    ensures Log(MacroEnded(s, error).book, s.book.macroMark, FromMacro) == Log(s.book, s.book.macroMark, FromMacro)
  {
    hide Inv, OfOrigin;
    StepKeeps(s, MacroEnd(error));
  }

  lemma OpenedStep(s: Service, ok: bool)
    requires Inv(s)
    ensures Inv(Opened(s, ok)) && Step(s, OpenMotion(ok)) == Opened(s, ok)
  {
    hide Inv;
    StepKeeps(s, OpenMotion(ok));
  }

  // ---- Waiting for a heater ----

  /** Between two histories of events there are only motion polls and reminders of the wait. */
  ghost predicate OnlyPolls(before: seq<Event>, events: seq<Event>) {
    before <= events && forall i :: |before| <= i < |events| ==> events[i].Motion? || events[i].MacroWait?
  }

  lemma NoPolls(events: seq<Event>)
    ensures OnlyPolls(events, events)
  {
  }

  lemma ShownPoll(before: seq<Event>, events: seq<Event>)
    requires OnlyPolls(before, events)
    ensures OnlyPolls(before, events + [MacroWait])
  {
  }

  lemma MorePolls(before: seq<Event>, events: seq<Event>, later: seq<Event>)
    requires OnlyPolls(before, events) && OnlyPolls(events, later)
    ensures OnlyPolls(before, later)
  {
  }

  /** The wait of an item was armed, polls followed until it was over, and it was switched off. */
  ghost predicate HeaterAwaited(s: Service, before: seq<Event>, item: Item, events: seq<Event>) {
    && |events| > |before| + 1 && events[|events| - 1] == MacroCool
    && OnlyPolls(before + [MacroArm(item)], events[..|events| - 1])
    && var t := Run(s, events[..|events| - 1]); Heated(t.wait, t.status)
  }

  lemma AwaitedSoFar(s: Service, before: seq<Event>, item: Item, armed: seq<Event>, events: seq<Event>)
    requires armed == before + [MacroArm(item)] && OnlyPolls(armed, events)
    requires Heated(Run(s, events).wait, Run(s, events).status)
    ensures HeaterAwaited(s, before, item, events + [MacroCool])
  {
    hide Run, Heated;
    assert (events + [MacroCool])[..|events|] == events;
  }

  /** Without commands of a macro a macro's log stays as it is. */
  lemma AppendedLog(b: Book, c: Book, mark: nat)
    requires Appended(b, c) && mark <= |b.trace|
    ensures Log(c, mark, FromMacro) == Log(b, mark, FromMacro)
  {
    NoneOfOrigin(b.trace[mark..], c.trace[|b.trace|..], FromMacro);
    assert c.trace[mark..] == b.trace[mark..] + c.trace[|b.trace|..];
  }

  lemma {:induction false} NoneOfOrigin(a: seq<Submission>, more: seq<Submission>, origin: Origin)
    requires forall k :: 0 <= k < |more| ==> more[k].origin != origin
    ensures OfOrigin(a + more, origin) == OfOrigin(a, origin)
  {
    if more == [] {
      assert a + more == a;
    } else {
      var n := |more| - 1;
      NoneOfOrigin(a, more[..n], origin);
      assert (a + more)[..|a + more| - 1] == a + more[..n];
    }
  }

  class PrintService {
    const env: Env
    const flow: Flow
    const serial: Serial
    var ready: bool
    var status: Status
    var wait: HeaterWait
    var queue: Queue
    var job: Job
    var stream: Stream?
    var abortRequested: bool
    var abort: Cleanup
    var finish: Cleanup
    var pause: Cleanup
    var resume: Cleanup
    var probe: Probe
    var saved: Saved
    var polling: Polling
    ghost var book: Book

    ghost function Parts(): set<object>
      reads this
    {
      if stream == null then {} else {stream, stream.readBuffer}
    }

    ghost predicate Shape()
      reads this, flow, Parts()
    {
      && flow.Valid()
      && (stream != null ==>
            && stream.Valid() && stream.libc == env.libc && !stream.failed
            && Complete(stream.Unread()))
    }

    /** The service as a value, given what is left of the job file. */
    ghost function Seen(file: Option<File>): Service
      reads this, flow, flow.slots
    {
      Service(env, ready, status, wait, queue, job, file, abortRequested, abort, finish, pause, resume, probe, saved,
              polling, flow.Model(), book)
    }

    ghost function FileLeft(): Option<File>
      requires Shape()
      reads this, flow, Parts()
    {
      if stream == null then None else Some(File(stream.Remaining(), stream.hasPrime))
    }

    ghost function View(): Service
      requires Shape()
      reads this, flow, flow.slots, Parts()
    {
      Seen(FileLeft())
    }

    /** The representation is sound and the state is as every reachable one. */
    ghost predicate Valid()
      reads this, flow, flow.slots, Parts()
    {
      Shape() && Inv(View())
    }

    constructor (env: Env)
      ensures Valid() && View() == Start(env)
      ensures fresh(flow) && fresh(flow.slots) && fresh(serial)
    {
      this.env := env;
      flow := new Flow();
      serial := new Serial();
      ready, status, wait, queue, job, stream := false, FRESH_STATUS, NO_WAIT, NO_QUEUE, NO_JOB, null;
      abortRequested, abort, finish, pause, resume := false, NO_CLEANUP, NO_CLEANUP, NO_CLEANUP, NO_CLEANUP;
      probe, saved, polling := NO_PROBE, Saved(false, 0.0, 0.0, 0.0, 0.0, 0.0, 0.0), NO_POLLING;
      book := Start(env).book;
      new;
      StartInv(env);
    }

    // ---- Submitting commands ----

    method Submit(command: string) returns (result: SendResult, ghost broken: bool)
      requires flow.Valid()
      modifies flow, flow.slots, serial
      ensures flow.Valid() && (flow.Model(), result) == SendOne(old(flow.Model()), command, broken)
      ensures broken == (result == SerialError)
      ensures result == Sent && ready ==> serial.output == old(serial.output) + Frame(old(flow.nextSequence), command)
      ensures result == Sent ==> flow.nextSequence == NextSequence(old(flow.nextSequence))
      ensures result in {InvalidCommand, FlowFull} ==> serial.output == old(serial.output)
    {
      SentTakesNumber(flow.Model(), command);
      hide SendOutcome, Frame;
      result := SendGcode(flow, serial, ready, command);
      broken := result == SerialError;
    }

    method GateNow(strict: bool) returns (open: bool)
      requires flow.Valid()
      ensures open == Gate(flow.Model(), strict)
    {
      open := flow.CanSendNow();
      if strict && open {
        var barrier := flow.BarrierNow();
        var count := flow.InflightNow();
        open := !barrier && count < STREAM_WINDOW;
      }
    }

    /** Submits from commands[i] on as long as the gate is open. */
    method SubmitList(ghost origin: Origin, commands: seq<string>, i: nat, strict: bool)
      returns (next: nat, end: End, ghost broken: nat)
      requires flow.Valid()
      modifies this`book, flow, flow.slots, serial
      ensures flow.Valid()
      ensures Sending(flow.Model(), next, end) == SendList(old(flow.Model()), commands, i, strict, broken)
      ensures book == if i <= next <= |commands| then Recorded(old(book), origin, commands[i..next]) else old(book)
      ensures !end.Failing? ==> |commands| <= broken
      ensures ready && !end.Failing? && i <= next <= |commands| ==>
                serial.output == old(serial.output) + Frames(old(flow.nextSequence), commands[i..next])
    {
      hide Gate, SendOutcome, Recorded, Frames, Frame;
      ghost var st, number := flow.Model(), flow.nextSequence;
      next, broken := i, if i <= |commands| then |commands| else i;
      if i <= |commands| {
        assert commands[i..i] == [];
        assert book == Recorded(book, origin, []) by { RecordNothing(book, origin); }
        NoFrames(number);
      }
      while next < |commands|
        invariant broken == if i <= |commands| then |commands| else i
        invariant i <= |commands| ==> i <= next <= |commands|
        invariant i > |commands| ==> next == i
        invariant flow.Valid()
        invariant forall b: nat :: next <= b ==>
                    SendList(st, commands, i, strict, b) == SendList(flow.Model(), commands, next, strict, b)
        invariant book == if i <= next <= |commands| then Recorded(old(book), origin, commands[i..next]) else old(book)
        invariant ready && i <= next <= |commands| ==>
                    && flow.nextSequence == Later(number, next - i)
                    && serial.output == old(serial.output) + Frames(number, commands[i..next])
      {
        var open := GateNow(strict);
        if !open {
          assert SendList(st, commands, i, strict, broken) == SendList(flow.Model(), commands, next, strict, broken);
          return next, Stopped, broken;
        }
        ghost var before := flow.Model();
        var result, failed := Submit(commands[next]);
        if result != Sent {
          assert next < |commands|;
          broken := if result == SerialError then next else broken;
          if result == FlowFull {
            return next, Stopped, broken;
          }
          return next, Failing(SendFault(result)), broken;
        }
        forall b: nat | next + 1 <= b
          ensures SendList(st, commands, i, strict, b) == SendList(flow.Model(), commands, next + 1, strict, b)
        {
          assert SendList(st, commands, i, strict, b) == SendList(before, commands, next, strict, b);
          assert SendOne(before, commands[next], false) == (flow.Model(), Sent);
        }
        FramesGrow(number, commands, i, next);
        RecordedTwice(old(book), origin, commands, i, next);
        book := Recorded(book, origin, [commands[next]]);
        next := next + 1;
      }
      assert SendList(st, commands, i, strict, broken) == SendList(flow.Model(), commands, next, strict, broken);
      return next, Ended, broken;
    }

    method SubmitRest(ghost origin: Origin, commands: seq<string>, i: nat, strict: bool, ghost file: Option<File>)
      returns (next: nat, end: End, ghost broken: nat)
      requires flow.Valid()
      modifies this`book, flow, flow.slots, serial
      ensures flow.Valid()
      ensures Sending(flow.Model(), next, end) == SendList(old(flow.Model()), commands, i, strict, broken)
      ensures Seen(file) == AfterList(old(Seen(file)), origin, commands, i, Sending(flow.Model(), next, end))
      ensures !end.Failing? ==> |commands| <= broken
    {
      hide SendList;
      next, end, broken := SubmitList(origin, commands, i, strict);
    }

    // ---- Abort and finish ----

    method IdleLists(ghost file: Option<File>)
      modifies this`finish, this`pause, this`resume
      ensures var s := old(Seen(file));
        Seen(file) == s.(finish := Idled(s.finish), pause := Idled(s.pause), resume := Idled(s.resume))
    {
      finish, pause, resume := Idled(finish), Idled(pause), Idled(resume);
    }

    method DropAll(ghost file: Option<File>)
      modifies this`stream, this`job, this`finish, this`pause, this`resume, this`probe, this`saved, this`queue
      ensures Seen(if old(job.active) then None else file) == AllDropped(old(Seen(file)))
      ensures stream == if old(job.active) then null else old(stream)
    {
      ghost var s, left := Seen(file), if job.active then None else file;
      if job.active {
        stream := null;
      }
      IdleLists(left);
      ghost var t := Seen(left);
      job, probe, queue := NO_JOB, NO_PROBE, NO_QUEUE;
      saved := saved.(valid := false, nozzle := 0.0);
      assert Seen(left) == t.(job := NO_JOB, probe := NO_PROBE, queue := NO_QUEUE,
                              saved := s.saved.(valid := false, nozzle := 0.0));
    }

    method BeginAbort(ghost file: Option<File>)
      modifies this
      ensures Seen(if old(job.active) then None else file) == AbortBegun(old(Seen(file)))
      ensures stream == if old(job.active) then null else old(stream)
    {
      hide AllDropped;
      ghost var s, left := Seen(file), if job.active then None else file;
      DropAll(file);
      ghost var t := Seen(left);
      AllDroppedFrame(s);
      assert t.book == s.book && t.status == s.status && t.wait == s.wait;
      abortRequested, abort, wait := false, Cleanup(true, ABORT_COMMANDS, 0), Off(wait);
      ghost var u := t.(abortRequested := false, abort := Cleanup(true, ABORT_COMMANDS, 0), wait := Off(t.wait));
      assert Seen(left) == u;
      status := status.(bedSet := 0.0, headSet := 0.0, phase := Aborting);
      book := book.(abortMark := |book.trace|, disturbed := book.macroRunning);
    }

    method AbortJob(ghost file: Option<File>) returns (accepted: bool)
      requires flow.Valid()
      modifies this, flow, flow.slots
      ensures flow.Valid() && Seen(if old(job.active) then None else file) == Aborted(old(Seen(file)))
      ensures stream == if old(job.active) then null else old(stream)
      ensures accepted == Abortable(old(Seen(file)))
    {
      hide Clear, Cancelled, AbortBegun;
      if !(job.active || queue.active || status.bedSet > 0.0 || status.headSet > 0.0
           || status.phase == Preparing || status.phase == Printing || status.phase == Paused
           || status.phase == Aborting) {
        abortRequested := false;
        return false;
      }
      BeginAbort(file);
      AbortBegunFrame(old(Seen(file)));
      if !ready {
        flow.ClearInflight();
        abort := abort.(pending := false);
        status := Cancelled(status);
      }
      return true;
    }

    method EndAbort(ghost file: Option<File>)
      requires flow.Valid()
      modifies this, flow, flow.slots
      ensures flow.Valid() && Seen(file) == AbortDone(old(Seen(file)))
      ensures stream == old(stream)
    {
      hide Clear;
      ghost var s := Seen(file);
      abortRequested, abort, wait := false, Idled(abort), Off(wait);
      ghost var t := s.(abortRequested := false, abort := Idled(s.abort), wait := Off(s.wait));
      assert Seen(file) == t;
      flow.ClearInflight();
      ghost var u := t.(flow := Clear(t.flow));
      assert Seen(file) == u;
      status, job := Cancelled(status), job.(nozzle := 0.0);
    }

    method FailAbort(error: Fault, ghost file: Option<File>)
      requires flow.Valid()
      modifies this`abortRequested, this`abort, this`wait, this`status
      ensures flow.Valid() && Seen(file) == AbortFailed(old(Seen(file)), error)
    {
      abortRequested, abort, wait := false, Idled(abort), Off(wait);
      status := FaultedWith(status, error);
    }

    method AbortPoll(ghost file: Option<File>) returns (ghost broken: nat)
      requires flow.Valid()
      modifies this, flow, flow.slots, serial
      ensures flow.Valid() && Seen(file) == AbortPolled(old(Seen(file)), broken)
      ensures stream == old(stream)
    {
      hide SendList, Inflight, AbortDone, AbortFailed;
      broken := 0;
      if !abort.pending {
        return;
      }
      var next, end;
      next, end, broken := SubmitRest(FromAbort, abort.policy, abort.index, true, file);
      ghost var sent := Seen(file);
      abort := abort.(index := next);
      ghost var t := sent.(abort := abort);
      assert Seen(file) == t;
      match end {
        case Failing(e) =>
          FailAbort(e, file);
        case Stopped =>
        case Ended =>
          var count := flow.InflightNow();
          if count == 0 {
            EndAbort(file);
          }
      }
    }

    method EndFinish(ghost file: Option<File>)
      requires flow.Valid()
      modifies this, flow, flow.slots
      ensures flow.Valid() && Seen(file) == FinishDone(old(Seen(file)))
      ensures stream == old(stream)
    {
      hide Clear;
      ghost var s := Seen(file);
      abortRequested, finish, wait := false, Idled(finish), Off(wait);
      ghost var t := s.(abortRequested := false, finish := Idled(s.finish), wait := Off(s.wait));
      assert Seen(file) == t;
      flow.ClearInflight();
      ghost var u := t.(flow := Clear(t.flow));
      assert Seen(file) == u;
      status, job := Completed(status), job.(active := false, nozzle := 0.0);
    }

    method FinishPoll(ghost file: Option<File>) returns (ghost broken: nat)
      requires flow.Valid()
      modifies this, flow, flow.slots, serial
      ensures flow.Valid() && Seen(file) == FinishPolled(old(Seen(file)), broken)
      ensures stream == old(stream)
    {
      hide SendList, Inflight, FinishDone;
      broken := 0;
      if !finish.pending {
        return;
      }
      var next, end;
      next, end, broken := SubmitRest(FromJob, finish.policy, finish.index, true, file);
      ghost var sent := Seen(file);
      finish := finish.(index := next);
      ghost var t := sent.(finish := finish);
      assert Seen(file) == t;
      match end {
        case Failing(e) =>
          finish, wait := Idled(finish), Off(wait);
          status := FaultedWith(status, e);
          assert Seen(file) == FinishFailed(t, e);
        case Stopped =>
        case Ended =>
          var count := flow.InflightNow();
          if count == 0 {
            EndFinish(file);
          }
      }
    }

    // ---- Pause and resume ----

    method SavePause(ghost file: Option<File>)
      requires flow.Valid()
      modifies this`saved, this`job
      ensures flow.Valid() && Seen(file) == PauseSaved(old(Seen(file)))
    {
      var nozzle := if status.headSet > 0.0 then status.headSet else job.nozzle;
      saved := Saved(status.reports > 0, status.x, status.y, status.z, status.e, status.r0, nozzle);
      if nozzle > 0.0 {
        job := job.(nozzle := nozzle);
      }
    }

    method BeginPause(ghost file: Option<File>)
      requires flow.Valid()
      modifies this`saved, this`job, this`pause, this`book
      ensures flow.Valid() && Seen(file) == PauseBegun(old(Seen(file)))
    {
      hide PauseCommands;
      SavePause(file);
      if saved.valid {
        var policy := BuildPause(env.libc, saved.x, saved.y, saved.z);
        pause := Cleanup(true, policy, 0);
        book := book.(pauseMark := |book.trace|);
      }
    }

    method PositionPoll(ghost file: Option<File>) returns (onward: bool, ghost broken: bool)
      requires flow.Valid()
      modifies this, flow, flow.slots, serial
      ensures flow.Valid() && (Seen(file), onward) == PositionPolled(old(Seen(file)), broken)
      ensures stream == old(stream)
    {
      hide SendList, Inflight, PauseBegun, Recorded, FaultedWith;
      broken := false;
      if !probe.sent {
        var next, end;
        ghost var b;
        next, end, b := SubmitRest(FromPause, ["M114"], 0, true, file);
        broken := b == 0;
        if !broken {
          BrokenBeyond(old(flow.Model()), ["M114"], 0, true, b, 1);
        }
        match end {
          case Failing(e) =>
            probe := probe.(pending := false);
            status := FaultedWith(status, e);
          case Stopped =>
          case Ended => probe := probe.(sent := true);
        }
        return false, broken;
      }
      var count := flow.InflightNow();
      if count != 0 || status.reports <= probe.start {
        return false, broken;
      }
      probe := NO_PROBE;
      BeginPause(file);
      return !pause.pending, broken;
    }

    /** Sends what is left of a list; over: every command submitted and none in flight. */
    method ListPoll(c: Cleanup, ghost origin: Origin, ghost file: Option<File>) returns (d: Cleanup, over: bool, ghost broken: nat)
      requires flow.Valid()
      modifies this`status, this`book, flow, flow.slots, serial
      ensures flow.Valid() && (Seen(file), d, over) == ListPolled(old(Seen(file)), c, origin, broken)
    {
      hide SendList, Inflight;
      var next, end;
      next, end, broken := SubmitRest(origin, c.policy, c.index, true, file);
      ghost var t := Seen(file);
      match end {
        case Failing(e) =>
          status := FaultedWith(status, e);
          assert Seen(file) == t.(status := FaultedWith(t.status, e));
          return Idled(c), false, broken;
        case Stopped => return c.(index := next), false, broken;
        case Ended =>
          var count := flow.InflightNow();
          if count != 0 {
            return c.(index := next), false, broken;
          }
          return Idled(c), true, broken;
      }
    }

    method PausePoll(ghost file: Option<File>) returns (ghost broken: nat)
      requires flow.Valid()
      modifies this, flow, flow.slots, serial
      ensures flow.Valid() && Seen(file) == PausePolled(old(Seen(file)), broken)
      ensures stream == old(stream)
    {
      hide ListPolled;
      var over;
      pause, over, broken := ListPoll(pause, FromPause, file);
      if over {
        status := PausedStatus(status);
      }
    }

    method SendHeat(ghost file: Option<File>) returns (onward: bool, ghost broken: bool)
      requires flow.Valid()
      modifies this, flow, flow.slots, serial
      ensures flow.Valid() && (Seen(file), onward) == HeatSent(old(Seen(file)), broken)
      ensures stream == old(stream)
    {
      hide SendList, Inflight, Waiting, Recorded, FaultedWith;
      broken := false;
      if resume.policy == [] {
        return false, broken;
      }
      var next, end;
      ghost var b;
      next, end, b := SubmitRest(FromResume, resume.policy[..1], 0, true, file);
      broken := b == 0;
      if !broken {
        BrokenBeyond(old(flow.Model()), resume.policy[..1], 0, true, b, 1);
      }
      match end {
        case Failing(e) =>
          resume := resume.(pending := false, index := 0);
          status := FaultedWith(status, e);
          return false, broken;
        case Stopped => return false, broken;
        case Ended =>
          resume := resume.(index := 1);
          wait := WaitHead(saved.nozzle);
          status := Waiting(wait, status);
          return true, broken;
      }
    }

    method ResumeListPoll(ghost file: Option<File>) returns (ghost broken: nat)
      requires flow.Valid()
      modifies this, flow, flow.slots, serial
      ensures flow.Valid() && Seen(file) == ResumeListPolled(old(Seen(file)), broken)
      ensures stream == old(stream)
    {
      hide ListPolled;
      broken := 0;
      if !resume.pending {
        return;
      }
      var over;
      resume, over, broken := ListPoll(resume, FromResume, file);
      if over {
        saved, status := saved.(valid := false), status.(phase := Printing);
      }
    }

    method ResumePoll(ghost file: Option<File>) returns (ghost one: bool, ghost list: nat)
      requires flow.Valid()
      modifies this, flow, flow.slots, serial
      ensures flow.Valid() && Seen(file) == ResumePolled(old(Seen(file)), one, list)
      ensures stream == old(stream)
    {
      hide HeatSent, ResumeListPolled, Waiting, Heated;
      one, list := false, 0;
      if resume.pending && !wait.active && resume.index == 0 && saved.nozzle > 0.0 {
        var onward;
        onward, one := SendHeat(file);
        if !onward {
          return;
        }
      }
      if resume.pending && wait.active {
        if !Heated(wait, status) {
          status := Waiting(wait, status);
          return;
        }
        wait := Off(wait);
      }
      list := ResumeListPoll(file);
    }

    method PauseResumePoll(ghost file: Option<File>) returns (ghost one: bool, ghost list: nat)
      requires flow.Valid()
      modifies this, flow, flow.slots, serial
      ensures flow.Valid() && Seen(file) == PauseResumePolled(old(Seen(file)), one, list)
      ensures stream == old(stream)
    {
      hide PositionPolled, PausePolled, ResumePolled;
      one, list := false, 0;
      if probe.pending {
        var onward;
        onward, one := PositionPoll(file);
        PositionNeverGoesOn(old(Seen(file)), one);
        if !onward {
          return;
        }
        assert false;
      }
      if pause.pending {
        list := PausePoll(file);
        return;
      }
      one, list := ResumePoll(file);
    }

    // ---- G-code given by hand ----

    method Refresh(ghost file: Option<File>)
      requires flow.Valid()
      modifies this`status
      ensures flow.Valid() && Seen(file) == Refreshed(old(Seen(file)))
    {
      if job.active || abort.pending || finish.pending || queue.active || wait.active
         || status.phase == Broken || status.phase == Finished {
        return;
      }
      status := status.(phase := if status.bedSet > 0.0 || status.headSet > 0.0 then Preparing else Idle);
    }

    method Arm(item: Item, ghost file: Option<File>)
      modifies this`status, this`wait
      ensures Seen(file) == Armed(old(Seen(file)), item)
    {
      hide Waiting;
      if item.waitBed || item.waitNozzle {
        wait := if item.waitBed then WaitBed(item.target) else WaitHead(item.target);
        status := Waiting(wait, status);
      }
    }

    /** Notes a submitted command of the queue and arms the wait that belongs to it. */
    method NoteQueued(item: Item, ghost file: Option<File>)
      requires flow.Valid()
      modifies this`status, this`wait, this`queue, this`book
      ensures flow.Valid() && Seen(file) == QueueItemSent(old(Seen(file)), item)
      ensures queue == old(queue).(index := old(queue.index) + 1)
    {
      hide HeaterSet, Recorded, Armed;
      ghost var s := Seen(file);
      book := Recorded(book, FromQueue, [item.command]);
      status := HeaterSet(env, status, item.command);
      queue := queue.(index := queue.index + 1);
      assert Seen(file) == s.(book := Recorded(s.book, FromQueue, [item.command]),
                              status := HeaterSet(s.env, s.status, item.command),
                              queue := s.queue.(index := s.queue.index + 1));
      Arm(item, file);
    }

    method DropQueue(error: Fault, ghost file: Option<File>)
      requires flow.Valid()
      modifies this`queue, this`wait, this`status
      ensures flow.Valid()
      ensures var s := old(Seen(file));
        Seen(file) == s.(queue := NO_QUEUE, wait := Off(s.wait), status := s.status.(error := error))
    {
      queue, wait, status := NO_QUEUE, Off(wait), status.(error := error);
    }

    method QueueSubmit(ghost file: Option<File>) returns (ok: bool, ghost broken: nat)
      requires flow.Valid()
      modifies this, flow, flow.slots, serial
      ensures flow.Valid() && (Seen(file), ok) == QueueSent(old(Seen(file)), broken)
      ensures stream == old(stream)
    {
      hide Frame, NextSequence, SendOne, QueueItemSent, Refreshed, Open;
      ghost var s := Seen(file);
      broken := |queue.items| + queue.index;
      while queue.index < |queue.items|
        invariant flow.Valid() && stream == old(stream) && queue.items == s.queue.items
        invariant queue.index <= broken == |s.queue.items| + s.queue.index
        invariant forall b: nat :: queue.index <= b ==> QueueSent(s, b) == QueueSent(Seen(file), b)
        decreases |queue.items| - queue.index
      {
        ghost var t := Seen(file);
        assert queue.index <= broken && QueueSent(s, broken) == QueueSent(t, broken);
        var open := GateNow(true);
        if !open {
          return true, broken;
        }
        var item := queue.items[queue.index];
        var result, failed := Submit(item.command);
        if result != Sent {
          broken := if failed then queue.index else broken;
          assert QueueSent(s, broken) == QueueSent(t, broken);
          if result == FlowFull {
            return true, broken;
          }
          DropQueue(SendFault(result), file);
          return false, broken;
        }
        NoteQueued(item, file);
        if item.waitBed || item.waitNozzle {
          return true, broken;
        }
        forall b: nat | queue.index <= b
          ensures QueueSent(s, b) == QueueSent(Seen(file), b)
        {
          assert QueueSent(s, b) == QueueSent(t, b);
        }
      }
      assert QueueSent(s, broken) == QueueSent(Seen(file), broken);
      queue := NO_QUEUE;
      Refresh(file);
      return true, broken;
    }

    method QueuePoll(ghost file: Option<File>) returns (ok: bool, ghost broken: nat)
      requires flow.Valid()
      modifies this, flow, flow.slots, serial
      ensures flow.Valid() && (Seen(file), ok) == QueuePolled(old(Seen(file)), broken)
      ensures stream == old(stream)
    {
      hide QueueSent, Heated, Waiting;
      broken := 0;
      if !queue.active {
        return true, broken;
      }
      if wait.active {
        if !Heated(wait, status) {
          status := Waiting(wait, status);
          return true, broken;
        }
        wait := Off(wait);
      }
      ok, broken := QueueSubmit(file);
    }

    method SetHeaters(items: seq<Item>)
      modifies this`status
      ensures status == HeatersSet(env, old(status), items)
    {
      assert items[..0] == [];
      for i := 0 to |items|
        invariant status == HeatersSet(env, old(status), items[..i])
      {
        assert items[..i + 1][..i] == items[..i];
        status := HeaterSet(env, status, items[i].command);
      }
      assert items[..|items|] == items;
    }

    /** The commands of all lines; none when they do not fit in the queue. */
    method RewriteLines(lines: seq<string>) returns (fits: bool, items: seq<Item>)
      ensures fits <==> |RewrittenItems(env.libc, lines)| <= QUEUE_COMMANDS
      ensures fits ==> items == RewrittenItems(env.libc, lines)
    {
      hide Rewrite, Items;
      items := [];
      assert lines[..0] == [] && lines[..|lines|] == lines;
      for i := 0 to |lines|
        invariant items == RewrittenItems(env.libc, lines[..i]) && |items| <= QUEUE_COMMANDS
      {
        var r := RewriteLine(env.libc, lines[i]);
        assert lines[..i + 1][..i] == lines[..i];
        items := items + Items(r);
        if |items| > QUEUE_COMMANDS {
          MoreLinesMoreItems(env.libc, lines, i + 1);
          return false, [];
        }
      }
      return true, items;
    }

    /** Puts rewritten commands in the queue and notes the heaters they set. */
    method FillQueue(items: seq<Item>, ghost file: Option<File>)
      requires flow.Valid()
      modifies this`queue, this`status, this`book
      ensures flow.Valid()
      ensures var s := old(Seen(file));
        Seen(file) == Refreshed(s.(book := s.book.(disturbed := true), queue := Queue(items, 0, false),
                                   status := HeatersSet(s.env, s.status, items)))
      ensures queue == Queue(items, 0, false)
    {
      hide HeatersSet;
      ghost var s := Seen(file);
      book, queue := book.(disturbed := true), Queue(items, 0, false);
      SetHeaters(items);
      assert Seen(file) == s.(book := s.book.(disturbed := true), queue := Queue(items, 0, false),
                              status := HeatersSet(s.env, s.status, items));
      Refresh(file);
    }

    method RunGcode(lines: seq<string>, ghost file: Option<File>) returns (ghost broken: nat)
      requires flow.Valid()
      modifies this, flow, flow.slots, serial
      ensures flow.Valid() && Seen(file) == GcodeGiven(old(Seen(file)), lines, broken)
      ensures stream == old(stream)
    {
      hide RewrittenItems, HeatersSet, QueuePolled, Refreshed;
      broken := 0;
      if queue.active {
        return;
      }
      ghost var s := Seen(file);
      var fits, items := RewriteLines(lines);
      if !fits {
        book, queue := book.(disturbed := true), NO_QUEUE;
        return;
      }
      FillQueue(items, file);
      if |items| > 0 {
        ghost var t := Seen(file);
        queue := queue.(active := true);
        assert Seen(file) == t.(queue := t.queue.(active := true));
        var ok;
        ok, broken := QueuePoll(file);
        if !ok {
          return;
        }
      }
      Refresh(file);
    }

    // ---- The job ----

    method Drop(ghost file: Option<File>)
      requires flow.Valid()
      modifies this, flow, flow.slots
      ensures flow.Valid() && Seen(None) == Dropped(old(Seen(file))) && stream == null
    {
      hide Clear;
      ghost var s := Seen(file);
      stream, job, finish, wait := null, job.(active := false), finish.(pending := false), Off(wait);
      ghost var t := s.(file := None, job := s.job.(active := false), finish := s.finish.(pending := false),
                        wait := Off(s.wait));
      assert Seen(None) == t;
      flow.ClearInflight();
    }

    method HomingPoll(ghost file: Option<File>) returns (ghost broken: nat)
      requires flow.Valid()
      modifies this, flow, flow.slots, serial
      ensures flow.Valid() && Seen(file) == HomingPolled(old(Seen(file)), broken)
      ensures stream == old(stream)
    {
      hide SendList;
      var next, end;
      next, end, broken := SubmitRest(FromJob, HOME_COMMANDS, job.prepareIndex, true, file);
      ghost var t := Seen(file);
      job := job.(prepareIndex := next);
      match end {
        case Failing(e) => status := FaultedWith(status, e);
        case Stopped =>
        case Ended => job := job.(prepareIndex := 0, stage := HomeDrain);
      }
    }

    /** The list behind the priming commands. */
    method SecondSubmit(hasPrime: bool, ghost k: nat) returns (end: End, ghost next: nat, ghost broken: nat)
      requires flow.Valid() && k <= |STARTUP_COMMANDS|
      requires job.startupIndex == if hasPrime then k else k + |PRIME_COMMANDS|
      modifies this`job, this`book, flow, flow.slots, serial
      ensures flow.Valid() && k <= next <= |STARTUP_COMMANDS|
      ensures job == old(job).(startupIndex := if hasPrime then next else next + |PRIME_COMMANDS|)
      ensures Sending(flow.Model(), next, end) == SendList(old(flow.Model()), STARTUP_COMMANDS, k, true, broken)
      ensures book == Recorded(old(book), FromJob, STARTUP_COMMANDS[k..next])
    {
      hide SendList, Recorded;
      ghost var st := flow.Model();
      if !hasPrime {
        job := job.(startupIndex := job.startupIndex - |PRIME_COMMANDS|);
      }
      var index;
      index, end, broken := SubmitList(FromJob, STARTUP_COMMANDS, job.startupIndex, true);
      SendListFacts(st, STARTUP_COMMANDS, k, true, broken);
      job := job.(startupIndex := if hasPrime then index else index + |PRIME_COMMANDS|);
      next := index;
    }

    /** The priming and the starting list share one index, which is moved back for the second. */
    method StartupSubmit(hasPrime: bool, ghost file: Option<File>) returns (end: End, ghost broken: nat)
      requires flow.Valid() && job.startupIndex <= |StartSequence(hasPrime)|
      modifies this`job, this`book, flow, flow.slots, serial
      ensures flow.Valid()
      ensures var list, i := StartSequence(hasPrime), old(job.startupIndex);
        && Sending(flow.Model(), job.startupIndex, end) == SendList(old(flow.Model()), list, i, true, broken)
        && job == old(job).(startupIndex := job.startupIndex)
        && i <= job.startupIndex <= |list| && book == Recorded(old(book), FromJob, list[i..job.startupIndex])
    {
      hide SendList, Recorded;
      broken := 0;
      ghost var st, b, i := flow.Model(), book, job.startupIndex;
      var next;
      if !hasPrime && job.startupIndex < |PRIME_COMMANDS| {
        next, end, broken := SubmitList(FromJob, PRIME_COMMANDS, job.startupIndex, true);
        SendListFacts(st, PRIME_COMMANDS, i, true, broken);
        job := job.(startupIndex := next);
        if !end.Ended? {
          FirstStops(st, b, i, broken);
          return;
        }
      }
      ghost var first, second, last := broken, 0, 0;
      end, last, second := SecondSubmit(hasPrime, job.startupIndex - if hasPrime then 0 else |PRIME_COMMANDS|);
      if hasPrime {
        assert StartSequence(hasPrime) == STARTUP_COMMANDS;
        broken := second;
      } else {
        broken := |PRIME_COMMANDS| + second;
        if i < |PRIME_COMMANDS| {
          FirstThenSecond(st, b, i, first, second);
        } else {
          SecondOnly(st, b, i, second);
        }
      }
    }

    method StartupPoll(hasPrime: bool, ghost file: Option<File>) returns (ghost broken: nat)
      requires flow.Valid() && job.startupIndex <= |StartSequence(hasPrime)|
      requires hasPrime == (file.Some? && file.value.hasPrime)
      modifies this, flow, flow.slots, serial
      ensures flow.Valid() && Seen(file) == StartupPolled(old(Seen(file)), broken)
      ensures stream == old(stream)
    {
      hide SendList, StartSequence;
      ghost var s := Seen(file);
      var end;
      end, broken := StartupSubmit(hasPrime, file);
      assert Seen(file) == AfterList(s, FromJob, StartSequence(hasPrime), s.job.startupIndex,
                                     Sending(flow.Model(), job.startupIndex, end)).(job := job);
      match end {
        case Failing(e) => status := FaultedWith(status, e);
        case Stopped =>
        case Ended => job := job.(startupIndex := 0, stage := StartupDrain);
      }
    }

    method PreparePoll(hasPrime: bool, ghost file: Option<File>) returns (ghost broken: nat)
      requires flow.Valid() && job.startupIndex <= |StartSequence(hasPrime)|
      requires hasPrime == (file.Some? && file.value.hasPrime)
      modifies this, flow, flow.slots, serial
      ensures flow.Valid() && Seen(file) == PreparePolled(old(Seen(file)), broken)
      ensures stream == old(stream)
    {
      hide HomingPolled, StartupPolled, Heated, Waiting, Inflight, StartSequence;
      broken := 0;
      match job.stage {
        case Homing => broken := HomingPoll(file);
        case HomeDrain =>
          var count := flow.InflightNow();
          if count == 0 {
            job := job.(stage := Heating);
          }
        case Heating =>
          if Heated(wait, status) {
            wait, job := Off(wait), job.(stage := Startup);
          } else {
            status := Waiting(wait, status);
          }
        case Startup => broken := StartupPoll(hasPrime, file);
        case StartupDrain =>
          var count := flow.InflightNow();
          if count == 0 {
            job := job.(stage := Streaming);
          }
        case Streaming =>
      }
    }

    /** Submits the item just read from the job file; kept: the file stays open. */
    method SubmitItem(item: Item, ghost file: File) returns (kept: bool, ghost broken: bool)
      requires flow.Valid() && file.rest != [] && item == file.rest[0] && stream != null
      modifies this, flow, flow.slots, serial
      ensures flow.Valid()
      ensures Seen(if kept then Some(file.(rest := file.rest[1..])) else None)
           == ItemSent(old(Seen(Some(file))), broken)
      ensures stream == if kept then old(stream) else null
    {
      hide Frame, NextSequence, SendOne, Dropped, Armed, Recorded;
      ghost var s, left := Seen(Some(file)), Some(file.(rest := file.rest[1..]));
      status := status.(phase := Printing);
      ghost var t := s.(status := s.status.(phase := Printing), file := left);
      assert Seen(left) == t;
      var result;
      result, broken := Submit(item.command);
      ghost var u := t.(flow := flow.Model());
      assert Seen(left) == u;
      if result == FlowFull {
        return true, broken;
      }
      if result != Sent {
        DropItem(result, left);
        return false, broken;
      }
      NoteItem(item, left);
      return true, broken;
    }

    /** Drops a job whose command could not be sent. */
    method DropItem(result: SendResult, ghost left: Option<File>)
      requires flow.Valid()
      modifies this, flow, flow.slots
      ensures flow.Valid() && stream == null
      ensures var u := old(Seen(left)); Seen(None) == Dropped(u).(status := FaultedWith(u.status, SendFault(result)))
    {
      hide Dropped;
      ghost var u := Seen(left);
      Drop(left);
      ghost var d := Seen(None);
      status := FaultedWith(status, SendFault(result));
      DroppedFrame(u);
      assert Seen(None) == d.(status := FaultedWith(u.status, SendFault(result)));
    }

    /** Records a submitted item and arms the wait that belongs to it. */
    method NoteItem(item: Item, ghost left: Option<File>)
      modifies this`book, this`status, this`job, this`wait
      ensures var u := old(Seen(left));
        var v := u.(book := Recorded(u.book, FromJob, [item.command]).(taken := u.book.taken + 1));
        Seen(left) == Armed(if item.waitBed then v.(status := v.status.(bedSet := item.target))
                            else if item.waitNozzle then
                              v.(status := v.status.(headSet := item.target),
                                 job := if item.target > 0.0 then v.job.(nozzle := item.target) else v.job)
                            else v, item)
    {
      hide Armed, Recorded;
      book := Recorded(book, FromJob, [item.command]).(taken := book.taken + 1);
      if item.waitBed {
        status := status.(bedSet := item.target);
      } else if item.waitNozzle {
        status := status.(headSet := item.target);
        if item.target > 0.0 {
          job := job.(nozzle := item.target);
        }
      }
      Arm(item, left);
    }

    /** Reads the next item of the job file. */
    method ReadItem() returns (found: bool, item: Item)
      requires Shape() && stream != null
      modifies stream, stream.readBuffer
      ensures stream.Valid()
      ensures found ==> Shape() && old(FileLeft()).value.rest == [item] + FileLeft().value.rest
      ensures !found ==> old(FileLeft()).value.rest == [] || stream.failed
    {
      hide Complete;
      var line := new char[LINE];
      var command;
      stream.MeaningIsRemaining(line[..]);
      found, command := stream.Next(line);
      item := Item(command, stream.waitBed, stream.waitNozzle, stream.waitTarget);
      if found {
        stream.MeaningIsRemaining(line[..]);
      }
    }

    method BeginFinish(ghost file: File, ghost readFails: bool)
      requires flow.Valid()
      modifies this
      ensures stream == null
      ensures var s := old(Seen(Some(file)));
        Seen(None) == s.(file := None, finish := Cleanup(true, FINISH_COMMANDS, 0), wait := Off(s.wait),
                         status := s.status.(phase := Printing), book := s.book.(truncated := readFails && file.rest != []))
    {
      ghost var s := Seen(Some(file));
      stream, wait := null, Off(wait);
      finish := Cleanup(true, FINISH_COMMANDS, 0);
      ghost var t := s.(file := None, wait := Off(s.wait), finish := Cleanup(true, FINISH_COMMANDS, 0));
      assert Seen(None) == t;
      status := status.(phase := Printing);
      book := book.(truncated := readFails && file.rest != []);
    }

    method RoomForItem() returns (open: bool)
      requires flow.Valid()
      ensures open <==> !(HasPendingBarrier(flow.Model()) || !CanSend(flow.Model()) || Inflight(flow.Model()) >= JOB_WINDOW)
    {
      var barrier := flow.BarrierNow();
      var room := flow.CanSendNow();
      var count := flow.InflightNow();
      return !barrier && room && count < JOB_WINDOW;
    }

    /** Sends the next command of the file, or begins to finish at its end. */
    method AdvanceFile() returns (ghost readFails: bool, ghost broken: bool)
      requires Shape()
      modifies this, flow, flow.slots, serial, Parts()
      ensures Shape() && View() == FileAdvanced(old(View()), readFails, broken)
      ensures readFails <==> old(stream) != null && old(stream).failed
      ensures readFails ==> !old(stream).reliable
    {
      hide Dropped, ItemSent;
      readFails, broken := false, false;
      ghost var left := FileLeft();
      ghost var s := Seen(left);
      if stream == null {
        Drop(left);
        ghost var d := Seen(None);
        DroppedFrame(s);
        status := FaultedWith(status, StorageFault);
        assert Seen(None) == d.(status := FaultedWith(s.status, StorageFault));
        return;
      }
      var found, item := ReadItem();
      assert Seen(left) == s;
      if !found {
        readFails := stream.failed;
        BeginFinish(left.value, readFails);
        return;
      }
      ghost var rest := FileLeft().value.rest;
      assert left.value.rest[1..] == rest && left.value.rest[0] == item;
      var kept;
      kept, broken := SubmitItem(item, left.value);
    }

    method StreamPoll() returns (ghost readFails: bool, ghost broken: bool)
      requires Shape()
      modifies this, flow, flow.slots, serial, Parts()
      ensures Shape() && View() == StreamPolled(old(View()), readFails, broken)
      ensures readFails <==> old(stream) != null && old(stream).failed
      ensures readFails ==> !old(stream).reliable
    {
      hide Heated, Waiting, FileAdvanced, Inflight, CanSend, HasPendingBarrier;
      readFails, broken := false, false;
      ghost var left := FileLeft();
      ghost var s := Seen(left);
      if !Heated(wait, status) {
        status := Waiting(wait, status);
        assert FileLeft() == left;
        return;
      }
      wait := Off(wait);
      assert FileLeft() == left && Seen(left) == s.(wait := Off(s.wait));
      var open := RoomForItem();
      if open {
        readFails, broken := AdvanceFile();
      }
    }

    method StreamerPoll() returns (ghost readFails: bool, ghost broken: nat)
      requires Shape() && job.startupIndex <= |StartSequence(stream != null && stream.hasPrime)|
      modifies this, flow, flow.slots, serial, Parts()
      ensures Shape() && View() == StreamerPolled(old(View()), readFails, broken)
      ensures readFails <==> old(stream) != null && old(stream).failed
      ensures readFails ==> !old(stream).reliable
    {
      hide PreparePolled, StreamPolled, Dropped, StartSequence;
      readFails, broken := false, 0;
      ghost var left := FileLeft();
      ghost var s := Seen(left);
      if !job.active {
        abortRequested, wait := false, Off(wait);
        assert FileLeft() == left;
        return;
      }
      if status.phase == Broken {
        Drop(left);
        ghost var d := Seen(None);
        DroppedFrame(s);
        abortRequested, job := false, Job(false, Streaming, 0, 0, job.nozzle);
        assert Seen(None) == d.(abortRequested := false, job := Job(false, Streaming, 0, 0, s.job.nozzle));
        return;
      }
      if status.phase == Paused || status.phase == Pausing {
        return;
      }
      if finish.pending {
        status := status.(phase := Printing);
        assert FileLeft() == left;
        return;
      }
      if job.stage != Streaming {
        broken := PreparePoll(stream != null && stream.hasPrime, left);
        assert FileLeft() == left;
        return;
      }
      ghost var fails;
      readFails, fails := StreamPoll();
      broken := if fails then 0 else 1;
    }

    /** The job side of the service's loop. readFails: a read of the job file has failed in this poll. */
    method PollJob() returns (ghost readFails: bool, ghost broken: nat)
      requires Valid()
      modifies this, flow, flow.slots, serial, Parts()
      ensures Valid() && View() == Step(old(View()), Poll(readFails, broken))
      ensures readFails <==> old(stream) != null && old(stream).failed
      ensures readFails ==> !old(stream).reliable
    {
      hide Aborted, QueuePolled, StreamerPolled;
      assert job.startupIndex <= |StartSequence(stream != null && stream.hasPrime)|;
      hide Inv, StartSequence;
      readFails, broken := false, 0;
      ghost var left := FileLeft();
      ghost var s := Seen(left);
      if abortRequested {
        var accepted := AbortJob(left);
        assert FileLeft() == if old(job.active) then None else left;
      } else if probe.pending || pause.pending || resume.pending {
      } else if queue.active {
        var ok;
        ok, broken := QueuePoll(left);
        assert FileLeft() == left;
      } else {
        readFails, broken := StreamerPoll();
      }
      StepKeeps(s, Poll(readFails, broken));
    }

    // ---- The controller's lines ----

    method Observe(line: string, ghost file: Option<File>)
      modifies this`status, this`wait
      ensures var s := old(Seen(file));
        var w := Watched(s.status, s.wait, s.env.reading(line));
        Seen(file) == s.(status := w.0, wait := w.1) && (status, wait) == w
    {
      hide Noted, Heated, Waiting;
      status := Noted(status, env.reading(line));
      if Heated(wait, status) {
        wait := Off(wait);
      } else {
        status := Waiting(wait, status);
      }
    }

    /** Writes everything pending again. */
    method ResendAll() returns (fails: bool)
      requires flow.Valid()
      modifies serial
      ensures ready && !fails ==> exists order: seq<nat> :: Rewrote(flow.Model(), order, old(serial.output), serial.output)
      ensures !ready ==> !fails && serial.output == old(serial.output)
    {
      hide Rewrote, IsResendOrder, Wire;
      var sent;
      ghost var order;
      sent, order := ResendPending(flow, serial, ready);
      if ready && sent == Sent {
        RewroteIs(flow.Model(), order, old(serial.output), serial.output);
      }
      return sent != Sent;
    }

    /** Does what a reply asks for. */
    method FollowUp(outcome: Outcome, allow: bool, ghost file: Option<File>) returns (stop: bool, ghost resendFails: bool)
      requires flow.Valid()
      modifies this`status, flow, flow.slots, serial
      ensures flow.Valid() && (Seen(file), stop) == FollowedUp(old(Seen(file)), outcome, allow, resendFails)
      ensures outcome.Resend? && ready && !resendFails ==>
                exists order: seq<nat> :: Rewrote(flow.Model(), order, old(serial.output), serial.output)
      ensures !outcome.Resend? || !ready ==> serial.output == old(serial.output)
    {
      hide Resync, Rewrote;
      ghost var s := Seen(file);
      stop, resendFails := false, false;
      if outcome.Resend? {
        var fails := ResendAll();
        resendFails := fails;
        stop := fails && Active(status);
      } else if outcome.ExpectedReported? {
        flow.ResyncToExpected();
        assert Seen(file) == s.(flow := flow.Model());
        stop := Active(status) && !allow;
      } else if outcome.Rejected? {
        stop := Active(status);
      }
      if stop {
        status := status.(phase := Broken, error := SerialFault);
        assert Seen(file) == s.(flow := flow.Model(), status := s.status.(phase := Broken, error := SerialFault));
      }
    }

    /** Takes in one line; stop: it ends the poll. */
    method HandleLine(line: string, allow: bool, ghost file: Option<File>) returns (stop: bool, ghost resendFails: bool)
      requires flow.Valid()
      modifies this`status, this`wait, flow, flow.slots, serial
      ensures flow.Valid() && (Seen(file), stop) == LineSeen(old(Seen(file)), line, allow, resendFails)
      ensures var asked := Handle(old(flow.Model()), ReplyOf(env, line)).1.Resend?;
        && (asked && ready && !resendFails ==>
              exists order: seq<nat> :: Rewrote(flow.Model(), order, old(serial.output), serial.output))
        && (!asked || !ready ==> serial.output == old(serial.output))
    {
      hide Handle, Watched, Parse, FollowedUp, Rewrote;
      LineIsFollowedUp(Seen(file), line, allow);
      Observe(line, file);
      ghost var s := Seen(file);
      var outcome := flow.HandleResponse(line, env.text(line));
      assert Seen(file) == s.(flow := flow.Model());
      stop, resendFails := FollowUp(outcome, allow, file);
    }

    method ReadLines(lines: seq<string>, allow: bool, ghost file: Option<File>)
      returns (stop: bool, ghost resendFails: seq<bool>)
      requires flow.Valid()
      modifies this`status, this`wait, flow, flow.slots, serial
      ensures flow.Valid() && (Seen(file), stop) == LinesSeen(old(Seen(file)), lines, allow, resendFails)
    {
      hide LineSeen, LinesSeen, Continues;
      ghost var s := Seen(file);
      resendFails := [];
      var i := 0;
      ContinuesStart(s, lines, allow);
      while i < |lines|
        invariant 0 <= i <= |lines| && flow.Valid()
        invariant Continues(s, lines, allow, resendFails, Seen(file), i)
      {
        ghost var t, fails := Seen(file), false;
        stop, fails := HandleLine(lines[i], allow, file);
        ContinuesStep(s, lines, allow, resendFails, t, i, fails);
        resendFails := resendFails + [fails];
        if stop {
          return;
        }
        i := i + 1;
      }
      ContinuesEnd(s, lines, allow, resendFails, Seen(file));
      return false, resendFails;
    }

    // ---- Probes ----

    method ProbeSend(commands: seq<string>, ghost file: Option<File>) returns (ok: bool, ghost broken: nat)
      requires flow.Valid()
      modifies this`book, flow, flow.slots, serial
      ensures flow.Valid() && (Seen(file), ok) == ProbeSent(old(Seen(file)), commands, broken)
    {
      hide SendList;
      var next, end;
      next, end, broken := SubmitRest(FromProbe, commands, 0, false, file);
      return !end.Failing?, broken;
    }

    method StartupProbe(ghost file: Option<File>) returns (ok: bool, ghost broken: nat)
      requires flow.Valid()
      modifies this`book, this`polling, flow, flow.slots, serial
      ensures flow.Valid() && (Seen(file), ok) == StartupProbed(old(Seen(file)), broken)
    {
      hide ProbeSent, Inflight;
      broken := 0;
      var count := flow.InflightNow();
      if !(ready && polling.startup && count == 0) {
        return true, broken;
      }
      ok, broken := ProbeSend(STARTUP_PROBE, file);
      ghost var t := Seen(file);
      if ok {
        polling := polling.(startup := false, temperature := 0, ticks := 0, attempts := (polling.attempts + 1) % U32);
      }
    }

    method FirmwareProbe(ghost file: Option<File>) returns (ok: bool, ghost broken: bool)
      requires flow.Valid()
      modifies this`book, this`polling, flow, flow.slots, serial
      ensures flow.Valid() && (Seen(file), ok) == FirmwareProbed(old(Seen(file)), broken)
    {
      hide Frame, NextSequence, SendOne, Inflight, Recorded;
      broken := false;
      var count := flow.InflightNow();
      if !(ready && polling.firmware && !polling.startup && !job.active && !abort.pending && !finish.pending
           && count == 0) {
        return true, broken;
      }
      if status.firmware || polling.attempts >= FIRMWARE_ATTEMPTS {
        polling := polling.(firmware := false);
        return true, broken;
      }
      polling := polling.(ticks := (polling.ticks + 1) % U32);
      if polling.ticks < FIRMWARE_TICKS {
        return true, broken;
      }
      var result;
      result, broken := Submit("M115");
      if result == Sent {
        book := Recorded(book, FromProbe, ["M115"]);
        polling := polling.(ticks := 0, attempts := (polling.attempts + 1) % U32);
      }
      return result == Sent, broken;
    }

    method TemperatureProbe(ghost file: Option<File>) returns (ok: bool, ghost broken: nat)
      requires flow.Valid()
      modifies this`book, this`polling, flow, flow.slots, serial
      ensures flow.Valid() && (Seen(file), ok) == TemperatureProbed(old(Seen(file)), broken)
    {
      hide ProbeSent, Inflight;
      broken := 0;
      var count := flow.InflightNow();
      if !(ready && !polling.startup && count == 0) {
        return true, broken;
      }
      if (polling.temperature + 1) % U32 < TEMPERATURE_TICKS {
        polling := polling.(temperature := (polling.temperature + 1) % U32);
        return true, broken;
      }
      ok, broken := ProbeSend(STATUS_PROBE, file);
      polling := polling.(temperature := 0);
    }

    /** A serious fault during a job aborts it. left: what remains of the job file. */
    method CheckFault(ghost file: Option<File>) returns (ghost left: Option<File>)
      requires flow.Valid()
      modifies this, flow, flow.slots
      ensures flow.Valid() && Seen(left) == FaultChecked(old(Seen(file)))
      ensures (stream == old(stream) && left == file) || (stream == null && left == None)
    {
      hide Aborted;
      left := file;
      if job.active && status.phase == Broken && status.fault
         && (status.error == ThermalFault || status.error == EndstopFault || status.error == MarlinFault
             || status.error == StorageFault) {
        var accepted := AbortJob(file);
        left := None;
      }
    }

    method SendProbes(ghost file: Option<File>) returns (ok: bool, ghost startup: nat, ghost firmware: bool,
                                                         ghost temperature: nat)
      requires flow.Valid()
      modifies this`book, this`polling, flow, flow.slots, serial
      ensures flow.Valid()
      ensures forall luck: Luck ::
                (luck.startup, luck.firmware, luck.temperature) == (startup, firmware, temperature) ==>
                  (Seen(file), ok) == Probed(old(Seen(file)), luck)
    {
      hide StartupProbed, FirmwareProbed, TemperatureProbed;
      var startupOk, firmwareOk, temperatureOk;
      startupOk, startup := StartupProbe(file);
      firmwareOk, firmware := FirmwareProbe(file);
      temperatureOk, temperature := TemperatureProbe(file);
      ok := startupOk && firmwareOk && temperatureOk;
    }

    /** Everything a poll of the motion side does after reading the controller's lines. */
    method Tend(ghost file: Option<File>, ghost resendFails: seq<bool>)
      returns (ok: bool, ghost left: Option<File>, ghost luck: Luck)
      requires flow.Valid()
      modifies this, flow, flow.slots, serial
      ensures flow.Valid() && (Seen(left), ok) == Tended(old(Seen(file)), luck) && luck.resendFails == resendFails
      ensures (stream == old(stream) && left == file) || (stream == null && left == None)
    {
      hide FaultChecked, PauseResumePolled, AbortPolled, FinishPolled, Refreshed, Probed;
      left := CheckFault(file);
      ghost var one, list := PauseResumePoll(left);
      ghost var abortAt := AbortPoll(left);
      ghost var finishAt := FinishPoll(left);
      Refresh(left);
      ghost var b := Seen(left);
      if status.firmware {
        polling := polling.(firmware := false);
      }
      assert Seen(left) == FirmwareNoted(b);
      ghost var startup, firmware, temperature;
      ok, startup, firmware, temperature := SendProbes(left);
      luck := Luck(resendFails, one, list, abortAt, finishAt, startup, firmware, temperature);
    }

    /** The motion side of the service's loop. lineBroken: the device fails after the last line. */
    method PollMotion(lines: seq<string>, lineBroken: bool) returns (ok: bool, ghost luck: Luck)
      requires Valid()
      modifies this, flow, flow.slots, serial
      ensures Valid() && View() == Step(old(View()), Motion(lines, lineBroken, luck))
      ensures ok == MotionPolled(old(View()), lines, lineBroken, luck).1
      ensures stream == old(stream) || stream == null
    {
      hide Inv, LinesSeen, Tended;
      ghost var file := FileLeft();
      ghost var s := Seen(file);
      var stop := false;
      ghost var fails: seq<bool> := [];
      if ready {
        stop, fails := ReadLines(lines, job.active || queue.active || abort.pending || finish.pending, file);
      }
      var wasReady := ready;
      var tended;
      ghost var left;
      tended, left, luck := Tend(file, fails);
      ok := !(stop || (wasReady && lineBroken)) && (tended || (wasReady && lines != []));
      assert FileLeft() == left;
      StepKeeps(s, Motion(lines, lineBroken, luck));
    }

    // ---- Commands ----

    method ResetForJob(ghost file: Option<File>)
      requires flow.Valid()
      modifies this`abortRequested, this`pause, this`probe, this`resume, this`saved, this`finish, flow, flow.slots
      ensures flow.Valid()
      ensures var s := old(Seen(file));
        Seen(file) == s.(flow := Clear(s.flow), abortRequested := false, pause := s.pause.(index := 0),
                         probe := NO_PROBE, resume := s.resume.(index := 0),
                         saved := s.saved.(valid := false, nozzle := 0.0), finish := s.finish.(index := 0))
    {
      hide Clear;
      flow.ClearInflight();
      abortRequested, pause, probe, resume := false, pause.(index := 0), NO_PROBE, resume.(index := 0);
      saved, finish := saved.(valid := false, nozzle := 0.0), finish.(index := 0);
    }

    /** The state of an accepted job, before the file is opened for reading. */
    method BeginJob(bed: real, head: real, ghost request: JobRequest, ghost file: Option<File>)
      requires flow.Valid() && request.file.Some? && request.bed == bed && request.head == head
      modifies this, flow, flow.slots
      ensures flow.Valid() && stream == old(stream)
      ensures Seen(request.file) == JobBegun(old(Seen(file)), request)
    {
      hide Clear, Started;
      ResetForJob(file);
      ghost var t := Seen(file);
      job := Job(true, Homing, 0, 0, if head > 0.0 then head else 0.0);
      status := Started(status, bed, head);
      wait := WaitBoth(status.bedSet, status.headSet);
      assert Seen(request.file) == t.(file := request.file, job := job, status := Started(t.status, bed, head), wait := wait);
      book := book.(jobMark := |book.trace|, hasPrime := request.file.value.hasPrime,
                    items := request.file.value.rest, taken := 0, truncated := false);
    }

    /** content: the job file, if it can be opened. */
    method AcceptJob(content: Option<string>, hasPrime: bool, reliable: bool, insideVolume: bool, bed: real, head: real)
      returns (ghost request: JobRequest)
      requires Valid() && (content.Some? ==> Complete(content.value))
      modifies this, flow, flow.slots
      ensures Valid() && View() == Step(old(View()), NewJob(request))
      ensures request == JobRequest(if content == None then None
                                    else Some(File(Batch(env.libc, content.value), hasPrime)), insideVolume, bed, head)
      ensures stream != old(stream) && stream != null ==> stream.reliable == reliable
    {
      hide Inv, Batch, JobBegun;
      ghost var file := FileLeft();
      ghost var s := Seen(file);
      request := JobRequest(if content == None then None else Some(File(Batch(env.libc, content.value), hasPrime)),
                            insideVolume, bed, head);
      StepKeeps(s, NewJob(request));
      if job.active || finish.pending || abort.pending || queue.active
         || probe.pending || pause.pending || resume.pending {
        return;
      }
      if content == None {
        status := status.(error := StorageFault);
        assert FileLeft() == file;
        return;
      }
      var newStream := new Stream(env.libc, content.value, hasPrime, reliable);
      if !insideVolume {
        stream := null;
        return;
      }
      BeginJob(bed, head, request, file);
      stream := newStream;
      assert FileLeft() == request.file;
      assert Seen(request.file) == JobBegun(s, request);
    }

    method AbortNow() returns (accepted: bool)
      requires Valid()
      modifies this, flow, flow.slots
      ensures Valid() && View() == Step(old(View()), Abort) && accepted == Abortable(old(View()))
    {
      hide Inv, Aborted;
      ghost var file := FileLeft();
      StepKeeps(View(), Abort);
      accepted := AbortJob(file);
      assert FileLeft() == if old(job.active) then None else file;
    }

    method PauseNow()
      requires Valid()
      modifies this
      ensures Valid() && View() == Step(old(View()), Pause)
    {
      hide Inv;
      ghost var file := FileLeft();
      StepKeeps(View(), Pause);
      PauseJob(file);
      assert FileLeft() == file;
    }

    method SetPausePhase(phase: Phase, ghost file: Option<File>)
      modifies this`job, this`status
      ensures var s := old(Seen(file));
        Seen(file) == s.(status := s.status.(phase := phase),
                         job := s.job.(nozzle := if s.status.headSet > 0.0 then s.status.headSet else s.job.nozzle))
    {
      status := status.(phase := phase);
      if status.headSet > 0.0 {
        job := job.(nozzle := status.headSet);
      }
    }

    method BeginProbe(phase: Phase, ghost file: Option<File>)
      modifies this`saved, this`job, this`status, this`probe
      ensures Seen(file) == PauseProbed(old(Seen(file)), phase)
    {
      SetPausePhase(phase, file);
      ghost var t := Seen(file);
      saved := saved.(valid := false);
      probe := Probe(true, false, status.reports);
      assert Seen(file) == t.(saved := t.saved.(valid := false), probe := Probe(true, false, t.status.reports));
    }

    method PauseJob(ghost file: Option<File>)
      requires flow.Valid()
      modifies this`saved, this`job, this`status, this`probe
      ensures flow.Valid() && Seen(file) == PauseAsked(old(Seen(file)))
    {
      hide PauseSaved, PauseProbed;
      if probe.pending || pause.pending || resume.pending {
        return;
      }
      if job.active && (status.phase == Preparing || status.phase == Printing) {
        BeginProbe(Pausing, file);
        return;
      }
      if status.phase != Preparing && status.phase != Printing && status.phase != Pausing && status.phase != Paused {
        return;
      }
      if job.active {
        BeginProbe(Paused, file);
      } else {
        SetPausePhase(Paused, file);
        SavePause(file);
      }
    }

    method ResumeNow()
      requires Valid()
      modifies this
      ensures Valid() && View() == Step(old(View()), Resume)
    {
      hide Inv;
      ghost var file := FileLeft();
      StepKeeps(View(), Resume);
      ResumeJob(file);
      assert FileLeft() == file;
    }

    method ResumeJob(ghost file: Option<File>)
      requires flow.Valid()
      modifies this`resume, this`status, this`book
      ensures flow.Valid() && Seen(file) == ResumeAsked(old(Seen(file)))
    {
      hide ResumeCommands;
      if probe.pending || pause.pending || resume.pending || status.phase != Paused {
        return;
      }
      if !saved.valid {
        status := status.(phase := if wait.active then Preparing else Printing);
        return;
      }
      var policy := BuildResume(env.libc, saved.x, saved.y, saved.z, saved.e, saved.r0, saved.nozzle);
      resume := Cleanup(true, policy, 0);
      book := book.(resumeMark := |book.trace|);
      status := status.(headSet := saved.nozzle, phase := if saved.nozzle > 0.0 then Preparing else Printing);
    }

    method GcodeNow(lines: seq<string>) returns (ghost broken: nat)
      requires Valid()
      modifies this, flow, flow.slots, serial
      ensures Valid() && View() == Step(old(View()), Gcode(lines, broken))
    {
      hide Inv, GcodeGiven;
      ghost var file := FileLeft();
      ghost var s := View();
      broken := RunGcode(lines, file);
      StepKeeps(s, Gcode(lines, broken));
      assert FileLeft() == file;
    }

    /** ok: the serial device could be opened. */
    method OpenDevice(ok: bool)
      requires Valid()
      modifies this`ready, this`polling
      ensures Valid() && View() == Step(old(View()), OpenMotion(ok))
    {
      hide Inv, Step;
      ghost var s, file := View(), FileLeft();
      OpenedStep(s, ok);
      ready := ok;
      if ok {
        polling := Polling(true, true, 0, 0, 0);
      }
      assert FileLeft() == file;
    }

    method ResetPolling(ghost file: Option<File>)
      modifies this`abort, this`polling, this`wait, this`ready, this`abortRequested
      ensures var s := old(Seen(file));
        Seen(file) == s.(abortRequested := false, abort := Idled(s.abort), wait := Off(s.wait), ready := false,
                         polling := s.polling.(startup := false, firmware := false, ticks := 0, attempts := 0))
    {
      abortRequested, abort, wait, ready := false, Idled(abort), Off(wait), false;
      polling := polling.(startup := false, firmware := false, ticks := 0, attempts := 0);
    }

    method CloseService()
      requires Valid()
      modifies this
      ensures Valid() && View() == Step(old(View()), Close)
    {
      hide Inv, AllDropped, Closed;
      ghost var file := FileLeft();
      ghost var s := View();
      ClosedForm(s);
      StepKeeps(s, Close);
      ResetPolling(file);
      ghost var t := Seen(file);
      DropAll(file);
      stream := null;
      assert Seen(None) == AllDropped(t).(file := None);
    }

    // ---- Macros ----

    ghost function MacroLog(): seq<string>
      reads this`book
    {
      Log(book, book.macroMark, FromMacro)
    }

    /** A macro is running and the service has come from s through events. */
    ghost predicate Came(s: Service, events: seq<Event>)
      reads this, flow, flow.slots, Parts()
    {
      Valid() && View() == Run(s, events) && book.macroRunning && book.macroMark <= |book.trace|
    }

    /** What a step inside a macro keeps. */
    twostate predicate MacroSame()
      reads this
    {
      && book.macroMark == old(book.macroMark) && MacroLog() == old(MacroLog())
      && (stream == old(stream) || stream == null)
    }

    /** One poll while the macro waits; ok: it succeeded and the deadline has not passed. */
    method MacroPoll(burst: Burst, ghost s: Service, ghost before: seq<Event>) returns (ok: bool, ghost events: seq<Event>)
      requires Came(s, before)
      modifies this, flow, flow.slots, serial
      ensures Came(s, events) && MacroSame() && OnlyPolls(before, events)
    {
      hide Inv, Run, MotionPolled, Log;
      ghost var t := View();
      ghost var luck;
      ok, luck := PollMotion(burst.lines, burst.lineBroken);
      ghost var e := Motion(burst.lines, burst.lineBroken, luck);
      RunOneMore(s, before, e);
      MotionPolledKeeps(t, burst.lines, burst.lineBroken, luck);
      AppendedLog(t.book, book, t.book.macroMark);
      return ok, before + [e];
    }

    method RoomNow() returns (room: bool)
      requires flow.Valid()
      ensures room == Roomy(flow.Model())
    {
      var free := flow.CanSendNow();
      var count := flow.InflightNow();
      return free && count < STREAM_WINDOW;
    }

    /** One turn of a macro's wait; error: why the wait ends here; rest: the bursts not yet used. */
    method MacroTurn(bursts: seq<Burst>, ghost s: Service, ghost before: seq<Event>)
      returns (error: Option<Fault>, rest: seq<Burst>, ghost events: seq<Event>)
      requires Came(s, before)
      modifies this, flow, flow.slots, serial
      ensures Came(s, events) && MacroSame()
      ensures error == None ==> |rest| < |bursts|
      ensures OnlyPolls(before, events)
    {
      hide Came, MacroLog;
      if abortRequested {
        return Some(CommandFault), bursts, before;
      }
      var burst, ok := FirstBurst(bursts), true;
      ok, events := MacroPoll(burst, s, before);
      error := if !ok then Some(LastFault()) else if burst.late then Some(CommandFault) else None;
      rest := LaterBursts(bursts);
    }

    /** Polls until the window has room. */
    method WaitForRoom(bursts: seq<Burst>, ghost s: Service, ghost before: seq<Event>)
      returns (error: Option<Fault>, rest: seq<Burst>, ghost events: seq<Event>)
      requires Came(s, before)
      modifies this, flow, flow.slots, serial
      ensures Came(s, events) && MacroSame()
      ensures error == None ==> Roomy(flow.Model())
    {
      hide Came, MacroLog, Roomy;
      rest, events := bursts, before;
      var room := RoomInMacro(s, events);
      while !room
        invariant Came(s, events) && MacroSame()
        invariant room ==> Roomy(flow.Model())
        decreases |rest|, !room
      {
        error, rest, events := MacroTurn(rest, s, events);
        if error != None {
          return;
        }
        room := RoomInMacro(s, events);
      }
      return None, rest, events;
    }

    method RoomInMacro(ghost s: Service, ghost events: seq<Event>) returns (room: bool)
      requires Came(s, events)
      ensures Came(s, events) && room == Roomy(flow.Model())
    {
      hide Inv, Run;
      room := RoomNow();
    }

    /** A poll that fails is a serial fault when that was the last fault. */
    function LastFault(): Fault
      reads this
    {
      if status.error == SerialFault then SerialFault else CommandFault
    }

    /** Takes note of a step of the macro that submits nothing. */
    ghost method MacroNoted(s: Service, t: Service, before: seq<Event>, e: Event)
      requires Shape() && Inv(t) && t == Run(s, before) && t.book.macroRunning && t.book.macroMark <= |t.book.trace|
      requires View() == Step(t, e) && (e.MacroArm? || e.MacroWait? || e.MacroCool?)
      ensures Came(s, before + [e]) && book == t.book
    {
      hide Inv, Run;
      RunOneMore(s, before, e);
      StepKeeps(t, e);
    }

    method ArmMacro(item: Item, ghost s: Service, ghost before: seq<Event>) returns (ghost events: seq<Event>)
      requires Came(s, before)
      modifies this`status, this`wait
      ensures Came(s, events) && events == before + [MacroArm(item)]
    {
      hide Inv, Run;
      ghost var t, file := View(), FileLeft();
      if item.waitBed {
        status, wait := status.(bedSet := item.target), WaitBed(item.target);
      } else if item.waitNozzle {
        status, wait := status.(headSet := item.target), WaitHead(item.target);
      }
      assert FileLeft() == file;
      MacroNoted(s, t, before, MacroArm(item));
      return before + [MacroArm(item)];
    }

    method ShowMacroWait(ghost s: Service, ghost before: seq<Event>) returns (ghost events: seq<Event>)
      requires Came(s, before)
      modifies this`status
      ensures Came(s, events) && events == before + [MacroWait]
    {
      hide Inv, Run, Waiting;
      ghost var t, file := View(), FileLeft();
      status := Waiting(wait, status);
      assert FileLeft() == file;
      MacroNoted(s, t, before, MacroWait);
      return before + [MacroWait];
    }

    method EndMacroWait(ghost s: Service, ghost before: seq<Event>) returns (ghost events: seq<Event>)
      requires Came(s, before)
      modifies this`wait
      ensures Came(s, events) && events == before + [MacroCool]
    {
      hide Inv, Run;
      ghost var t, file := View(), FileLeft();
      wait := Off(wait);
      assert FileLeft() == file;
      MacroNoted(s, t, before, MacroCool);
      return before + [MacroCool];
    }

    /** Polls until the wait for the heater of an item is over: the run consists of arming the wait, polls, and,
        once the wait is over, switching it off. */
    method WaitForHeater(item: Item, bursts: seq<Burst>, ghost s: Service, ghost before: seq<Event>)
      returns (error: Option<Fault>, rest: seq<Burst>, ghost events: seq<Event>)
      requires Came(s, before)
      modifies this, flow, flow.slots, serial
      ensures Came(s, events) && MacroSame()
      ensures error == None ==> HeaterAwaited(s, before, item, events)
    {
      hide Came, MacroLog, OnlyPolls, HeaterAwaited;
      events := ArmMacro(item, s, before);
      ghost var armed := events;
      rest := bursts;
      NoPolls(armed);
      while !Heated(wait, status)
        invariant Came(s, events) && MacroSame() && OnlyPolls(armed, events)
        decreases |rest|
      {
        ghost var shown := ShowMacroWait(s, events);
        ShownPoll(armed, events);
        error, rest, events := MacroTurn(rest, s, shown);
        MorePolls(armed, shown, events);
        if error != None {
          return;
        }
      }
      CameHere(s, events);
      AwaitedSoFar(s, before, item, armed, events);
      events := EndMacroWait(s, events);
      return None, rest, events;
    }

    lemma CameHere(s: Service, events: seq<Event>)
      requires Came(s, events)
      ensures Run(s, events).wait == wait && Run(s, events).status == status
    {
      hide Inv, Run;
    }

    /** Records a command of the macro that was sent. */
    ghost method NoteMacro(command: string, sent: bool)
      requires book.macroMark <= |book.trace|
      modifies this`book
      ensures book == if sent then Recorded(old(book), FromMacro, [command]) else old(book)
      ensures MacroLog() == old(MacroLog()) + if sent then [command] else []
      ensures book.macroMark == old(book.macroMark) && book.macroRunning == old(book.macroRunning)
      ensures book.macroMark <= |book.trace|
    {
      hide Log;
      if sent {
        RecordedLog(book, FromMacro, [command], book.macroMark, FromMacro);
        book := Recorded(book, FromMacro, [command]);
      }
    }

    /** One submission of a macro whose window has room. */
    method SubmitMacro(command: string, ghost s: Service, ghost before: seq<Event>)
      returns (result: SendResult, ghost events: seq<Event>)
      requires Came(s, before) && Roomy(flow.Model())
      modifies this`book, flow, flow.slots, serial
      ensures Came(s, events) && book.macroMark == old(book.macroMark)
      ensures MacroLog() == old(MacroLog()) + if result == Sent then [command] else []
    {
      hide Frame, NextSequence, Inv, Run, SendOne, Roomy, Log, Recorded, MacroLog;
      ghost var t, file := View(), FileLeft();
      ghost var failed;
      result, failed := Submit(command);
      NoteMacro(command, result == Sent);
      assert FileLeft() == file;
      RunOneMore(s, before, MacroSend(command, failed));
      StepKeeps(t, MacroSend(command, failed));
      return result, before + [MacroSend(command, failed)];
    }

    /** One command of a macro: room, submission, heater, poll; error: why the macro fails here. */
    method MacroCommand(item: Item, bursts: seq<Burst>, ghost s: Service, ghost before: seq<Event>)
      returns (error: Option<Fault>, rest: seq<Burst>, ghost events: seq<Event>)
      requires Came(s, before)
      modifies this, flow, flow.slots, serial
      ensures Came(s, events) && book.macroMark == old(book.macroMark) && (stream == old(stream) || stream == null)
      ensures error == None ==> MacroLog() == old(MacroLog()) + [item.command]
      ensures old(MacroLog()) <= MacroLog() <= old(MacroLog()) + [item.command]
    {
      hide Came, MacroLog;
      error, rest, events := WaitForRoom(bursts, s, before);
      if error != None {
        return;
      }
      var result;
      result, events := SubmitMacro(item.command, s, events);
      if result != Sent {
        return Some(SendFault(result)), rest, events;
      }
      if item.waitBed || item.waitNozzle {
        error, rest, events := WaitForHeater(item, rest, s, events);
        if error != None {
          return;
        }
      }
      var ok;
      ok, events := MacroPoll(FirstBurst(rest), s, events);
      return if ok then None else Some(LastFault()), LaterBursts(rest), events;
    }

    method BeginMacro(ghost s: Service) returns (ghost events: seq<Event>)
      requires Valid() && View() == s
      modifies this`book
      ensures Came(s, events) && MacroLog() == []
    {
      hide Inv, Run, Log;
      ghost var file := FileLeft();
      MacroBegins(s);
      book := book.(macroRunning := true, disturbed := true, macroMark := |book.trace|);
      assert FileLeft() == file;
      return [MacroBegin];
    }

    method EndMacro(error: Option<Fault>, ghost s: Service, ghost before: seq<Event>) returns (ghost events: seq<Event>)
      requires Came(s, before)
      modifies this`book, this`status
      ensures Valid() && View() == Run(s, events) && MacroLog() == old(MacroLog())
    {
      hide Inv, Run, Step, Log;
      ghost var t, file := View(), FileLeft();
      RunOneMore(s, before, MacroEnd(error));
      EndedStep(t, error);
      book := book.(macroRunning := false);
      if error != None {
        status := status.(error := error.value);
      }
      assert FileLeft() == file;
      return before + [MacroEnd(error)];
    }

    /** A macro's file and line buffer have nothing in common with the job's file. */
    ghost predicate Apart(macro: Stream, line: array<char>)
      reads this, stream
    {
      && line != macro.readBuffer && line.Length == LINE
      && stream != macro && (stream == null || (stream.readBuffer != macro.readBuffer && stream.readBuffer != line))
    }

    /** Reads the next item of the macro's own file. */
    method ReadMacro(macro: Stream, line: array<char>, ghost s: Service, ghost events: seq<Event>)
      returns (found: bool, item: Item)
      requires Came(s, events) && Apart(macro, line) && Readable(macro)
      modifies macro, macro.readBuffer, line
      ensures Came(s, events) && macro.Valid() && MacroLog() == old(MacroLog())
      ensures found ==> Readable(macro) && old(macro.Meaning(line[..])) == [item] + macro.Meaning(line[..])
      ensures !found ==> old(macro.Meaning(line[..])) == [] || macro.failed
    {
      hide Inv, Run, Stream.Meaning;
      ghost var file := FileLeft();
      var command;
      found, command := macro.Next(line);
      item := Item(command, macro.waitBed, macro.waitNozzle, macro.waitTarget);
      assert FileLeft() == file;
    }

    /** Reads and runs the next item of a macro. */
    method MacroStep(macro: Stream, line: array<char>, bursts: seq<Burst>, ghost s: Service, ghost before: seq<Event>)
      returns (found: bool, error: Option<Fault>, rest: seq<Burst>, ghost events: seq<Event>)
      requires Came(s, before) && Apart(macro, line) && Readable(macro)
      modifies this, flow, flow.slots, serial, macro, macro.readBuffer, line
      ensures Came(s, events) && Apart(macro, line) && macro.Valid()
      ensures !found ==> MacroLog() == old(MacroLog()) && error == None
      ensures !found ==> old(macro.Meaning(line[..])) == [] || macro.failed
      ensures found ==> |old(macro.Meaning(line[..]))| > 0 && Readable(macro)
      ensures found ==> old(MacroLog()) <= MacroLog() <= old(MacroLog()) + [old(macro.Meaning(line[..]))[0].command]
      ensures found && error == None ==>
                && MacroLog() == old(MacroLog()) + [old(macro.Meaning(line[..]))[0].command]
                && macro.Meaning(line[..]) == old(macro.Meaning(line[..]))[1..]
    {
      hide Came, MacroLog, Stream.Meaning;
      var item;
      found, item := ReadMacro(macro, line, s, before);
      rest, events, error := bursts, before, None;
      if !found {
        return;
      }
      if abortRequested {
        return found, Some(CommandFault), rest, events;
      }
      error, rest, events := MacroCommand(item, rest, s, events);
    }

    /** The macro has submitted the first n commands of its file, which go on with what is left to read. */
    ghost predicate MacroAt(macro: Stream, line: array<char>, whole: seq<Item>, n: nat)
      requires macro.Valid() && line.Length == LINE
      reads this`book, macro, macro.readBuffer, line
    {
      n <= |whole| && macro.Meaning(line[..]) == whole[n..] && MacroLog() == Commands(whole[..n])
    }

    /** Runs the next command of a macro that has submitted the first n commands of its file. */
    method MacroNext(macro: Stream, line: array<char>, bursts: seq<Burst>, ghost whole: seq<Item>, ghost n: nat,
                     ghost s: Service, ghost before: seq<Event>)
      returns (found: bool, error: Option<Fault>, rest: seq<Burst>, ghost events: seq<Event>)
      requires Came(s, before) && Apart(macro, line) && Readable(macro) && MacroAt(macro, line, whole, n)
      modifies this, flow, flow.slots, serial, macro, macro.readBuffer, line
      ensures Came(s, events) && Apart(macro, line) && macro.Valid() && MacroLog() <= Commands(whole)
      ensures !found ==> error == None && MacroLog() == Commands(whole[..n]) && (n == |whole| || macro.failed)
      ensures found ==> n < |whole|
      ensures found && error == None ==> Readable(macro) && MacroAt(macro, line, whole, n + 1)
    {
      hide Came, MacroLog, Commands, Stream.Meaning;
      ghost var log := MacroLog();
      CommandsPrefix(whole, n);
      found, error, rest, events := MacroStep(macro, line, bursts, s, before);
      if found {
        MacroGrew(whole, n, log, MacroLog());
      }
    }

    lemma MacroStarts(macro: Stream, line: array<char>)
      requires macro.Valid() && line.Length == LINE && MacroLog() == []
      ensures MacroAt(macro, line, macro.Meaning(line[..]), 0)
      ensures MacroLog() <= Commands(macro.Meaning(line[..]))
    {
      hide MacroLog, Stream.Meaning;
      CommandsOfNone(macro.Meaning(line[..]));
    }

    lemma WholeTaken(whole: seq<Item>)
      ensures Commands(whole[..|whole|]) == Commands(whole)
    {
      assert whole[..|whole|] == whole;
    }

    /** Submits a macro's commands one after the other. On success they are all submitted, unless a read of the
        file has failed. */
    method MacroFile(macro: Stream, line: array<char>, bursts: seq<Burst>, ghost s: Service, ghost before: seq<Event>)
      returns (error: Option<Fault>, ghost events: seq<Event>)
      requires Came(s, before) && MacroLog() == [] && Apart(macro, line) && Readable(macro)
      modifies this, flow, flow.slots, serial, macro, macro.readBuffer, line
      ensures Came(s, events)
      ensures var whole := Commands(old(macro.Meaning(line[..])));
        MacroLog() <= whole && (macro.reliable && error == None ==> MacroLog() == whole)
    {
      assert line.Length == LINE;
      hide Came, MacroLog, MacroAt, Commands, Apart, Stream.Meaning;
      MacroStarts(macro, line);
      ghost var whole, taken := macro.Meaning(line[..]), 0;
      WholeTaken(whole);
      var found, rest := true, bursts;
      events, error := before, None;
      while found && error == None
        invariant Came(s, events) && macro.Valid() && Apart(macro, line) && MacroLog() <= Commands(whole)
        invariant taken <= |whole|
        invariant found && error == None ==> Readable(macro) && MacroAt(macro, line, whole, taken)
        invariant !found ==> error == None && MacroLog() == Commands(whole[..taken]) && (taken == |whole| || macro.failed)
        decreases |whole| - taken, found
      {
        found, error, rest, events := MacroNext(macro, line, rest, whole, taken, s, events);
        if found {
          taken := taken + 1;
        }
      }
      if error == None {
        error, rest, events := WaitForRoom(rest, s, events);
      }
    }

    /** Runs an opened macro file to its end. */
    method RunStream(macro: Stream, line: array<char>, bursts: seq<Burst>)
      returns (error: Option<Fault>, ghost events: seq<Event>)
      requires Valid() && Apart(macro, line) && Readable(macro)
      modifies this, flow, flow.slots, serial, macro, macro.readBuffer, line
      ensures Valid() && View() == Run(old(View()), events)
      ensures var whole := Commands(old(macro.Meaning(line[..])));
        MacroLog() <= whole && (macro.reliable && error == None ==> MacroLog() == whole)
    {
      hide Came, MacroLog, Commands, Inv, Run, Stream.Meaning;
      ghost var s := View();
      events := BeginMacro(s);
      error, events := MacroFile(macro, line, bursts, s, events);
      events := EndMacro(error, s, events);
    }

    /** Runs a macro file to its end. Whatever happens, what it has submitted is a beginning of the file; all of it
        when it succeeds, unless a read of the file may fail. buffer: what the line buffer holds at first; it only
        matters for a last line without a newline. */
    method RunMacro(content: Option<string>, buffer: seq<char>, reliable: bool, bursts: seq<Burst>)
      returns (error: Option<Fault>, ghost events: seq<Event>)
      requires Valid() && |buffer| == LINE
      modifies this, flow, flow.slots, serial
      ensures Valid() && View() == Run(old(View()), events)
      ensures content == None ==> MacroLog() == [] && error != None
      ensures content.Some? ==>
        var whole := Commands(Whole(env.libc, content.value, buffer));
        && MacroLog() <= whole && (reliable && error == None ==> MacroLog() == whole)
        && (Complete(content.value) ==> whole == Commands(Batch(env.libc, content.value)))
    {
      hide Apart, Readable, MacroLog, Whole, Batch, Commands, Valid, View, Run, Complete, Stream.Meaning;
      if content == None {
        error, events := RunMissing();
        return;
      }
      var stream, line := OpenMacro(content.value, buffer, reliable);
      error, events := RunStream(stream, line, bursts);
    }

    /** What a macro without a file does. */
    method RunMissing() returns (error: Option<Fault>, ghost events: seq<Event>)
      requires Valid()
      modifies this`book, this`status
      ensures Valid() && View() == Run(old(View()), events) && MacroLog() == [] && error == Some(CommandFault)
    {
      hide Came, MacroLog, Inv, Run;
      ghost var s := View();
      events := BeginMacro(s);
      error := Some(CommandFault);
      events := EndMacro(error, s, events);
    }

    /** A macro's file and its line buffer. */
    method OpenMacro(content: string, buffer: seq<char>, reliable: bool) returns (macro: Stream, line: array<char>)
      requires Valid() && |buffer| == LINE
      ensures Valid() && View() == old(View())
      ensures fresh(macro) && fresh(macro.readBuffer) && fresh(line) && line.Length == LINE && line[..] == buffer
      ensures Apart(macro, line) && Readable(macro) && macro.reliable == reliable
      ensures macro.Meaning(line[..]) == Whole(env.libc, content, line[..])
      ensures Complete(content) ==> macro.Meaning(line[..]) == Batch(env.libc, content)
    {
      hide Whole, Batch, Inv, Complete, Stream.Meaning;
      ghost var s := View();
      line := new char[LINE](i requires 0 <= i < LINE => buffer[i]);
      assert line[..] == buffer;
      macro := new Stream(env.libc, content, false, reliable);
      macro.MeaningIsWhole(line[..]);
      if Complete(content) {
        WholeIsBatch(env.libc, content, line[..]);
      }
      assert Shape() && View() == s;
    }
  }

  /** After the first i lines the service is t, whatever becomes of later retransmissions. */
  ghost predicate Continues(s: Service, lines: seq<string>, allow: bool, fails: seq<bool>, t: Service, i: nat)
    requires i <= |lines|
  {
    forall rest: seq<bool> :: LinesSeen(s, lines, allow, fails + rest) == LinesSeen(t, lines[i..], allow, rest)
  }

  lemma ContinuesStart(s: Service, lines: seq<string>, allow: bool)
    ensures Continues(s, lines, allow, [], s, 0)
  {
    assert lines[0..] == lines;
    assert forall rest: seq<bool> :: [] + rest == rest;
  }

  lemma ContinuesStep(s: Service, lines: seq<string>, allow: bool, fails: seq<bool>, t: Service, i: nat, f: bool)
    requires i < |lines| && Continues(s, lines, allow, fails, t, i)
    ensures var r := LineSeen(t, lines[i], allow, f);
      if r.1 then LinesSeen(s, lines, allow, fails + [f]) == r
      else Continues(s, lines, allow, fails + [f], r.0, i + 1)
  {
    hide LineSeen;
    var r := LineSeen(t, lines[i], allow, f);
    assert lines[i..][1..] == lines[i + 1..];
    if r.1 {
      assert LinesSeen(s, lines, allow, fails + [f]) == LinesSeen(t, lines[i..], allow, [f]);
    } else {
      forall rest: seq<bool>
        ensures LinesSeen(s, lines, allow, fails + [f] + rest) == LinesSeen(r.0, lines[i + 1..], allow, rest)
      {
        assert fails + [f] + rest == fails + ([f] + rest);
        assert LinesSeen(s, lines, allow, fails + ([f] + rest)) == LinesSeen(t, lines[i..], allow, [f] + rest);
        assert ([f] + rest)[1..] == rest;
      }
    }
  }

  lemma ContinuesEnd(s: Service, lines: seq<string>, allow: bool, fails: seq<bool>, t: Service)
    requires Continues(s, lines, allow, fails, t, |lines|)
    ensures LinesSeen(s, lines, allow, fails) == (t, false)
  {
    assert fails + [] == fails;
    assert LinesSeen(s, lines, allow, fails + []) == LinesSeen(t, lines[|lines|..], allow, []);
  }

  lemma RecordedJoined(b: Book, who: Origin, a: seq<string>, c: seq<string>, i: nat, k: nat)
    requires i <= |a| && k <= |c|
    ensures Recorded(Recorded(b, who, a[i..|a|]), who, c[0..k]) == Recorded(b, who, (a + c)[i..|a| + k])
  {
    assert (a + c)[i..|a| + k] == a[i..|a|] + c[0..k];
    assert Tagged(who, a[i..|a|]) + Tagged(who, c[0..k]) == Tagged(who, a[i..|a|] + c[0..k]);
  }

  lemma FirstStops(st: State, b: Book, i: nat, broken: nat)
    requires i <= |PRIME_COMMANDS| && !SendList(st, PRIME_COMMANDS, i, true, broken).end.Ended?
    ensures var r := SendList(st, PRIME_COMMANDS, i, true, broken);
      && SendList(st, StartSequence(false), i, true, broken) == r
      && i <= r.index <= |PRIME_COMMANDS| && StartSequence(false)[i..r.index] == PRIME_COMMANDS[i..r.index]
  {
    hide SendList;
    TwoParts(st, PRIME_COMMANDS, STARTUP_COMMANDS, i, true, broken);
    SendListFacts(st, PRIME_COMMANDS, i, true, broken);
  }

  lemma FirstThenSecond(st: State, b: Book, i: nat, first: nat, second: nat)
    requires i <= |PRIME_COMMANDS| <= first && SendList(st, PRIME_COMMANDS, i, true, first).end.Ended?
    ensures var r := SendList(SendList(st, PRIME_COMMANDS, i, true, first).flow, STARTUP_COMMANDS, 0, true, second);
      && SendList(st, StartSequence(false), i, true, |PRIME_COMMANDS| + second) == Shifted(r, |PRIME_COMMANDS|)
      && r.index <= |STARTUP_COMMANDS|
      && Recorded(Recorded(b, FromJob, PRIME_COMMANDS[i..|PRIME_COMMANDS|]), FromJob, STARTUP_COMMANDS[0..r.index])
           == Recorded(b, FromJob, StartSequence(false)[i..|PRIME_COMMANDS| + r.index])
  {
    hide SendList, Recorded;
    var st' := SendList(st, PRIME_COMMANDS, i, true, first).flow;
    BrokenBeyond(st, PRIME_COMMANDS, i, true, first, |PRIME_COMMANDS| + second);
    TwoParts(st, PRIME_COMMANDS, STARTUP_COMMANDS, i, true, |PRIME_COMMANDS| + second);
    SendListFacts(st', STARTUP_COMMANDS, 0, true, second);
    RecordedJoined(b, FromJob, PRIME_COMMANDS, STARTUP_COMMANDS, i,
                   SendList(st', STARTUP_COMMANDS, 0, true, second).index);
  }

  lemma SecondOnly(st: State, b: Book, i: nat, second: nat)
    requires |PRIME_COMMANDS| <= i <= |StartSequence(false)|
    ensures var k := i - |PRIME_COMMANDS|;
      var r := SendList(st, STARTUP_COMMANDS, k, true, second);
      && SendList(st, StartSequence(false), i, true, |PRIME_COMMANDS| + second) == Shifted(r, |PRIME_COMMANDS|)
      && k <= r.index <= |STARTUP_COMMANDS|
      && STARTUP_COMMANDS[k..r.index] == StartSequence(false)[i..r.index + |PRIME_COMMANDS|]
  {
    hide SendList;
    var k := i - |PRIME_COMMANDS|;
    SecondPart(st, PRIME_COMMANDS, STARTUP_COMMANDS, k, true, second);
    SendListFacts(st, STARTUP_COMMANDS, k, true, second);
  }

  /** Further lines never make the commands fewer. */
  lemma {:induction false} MoreLinesMoreItems(libc: Libc, lines: seq<string>, i: nat)
    requires i <= |lines|
    ensures |RewrittenItems(libc, lines[..i])| <= |RewrittenItems(libc, lines)|
    decreases |lines| - i
  {
    hide Rewrite, Items;
    if i < |lines| {
      MoreLinesMoreItems(libc, lines, i + 1);
      assert lines[..i + 1][..i] == lines[..i];
    } else {
      assert lines[..i] == lines;
    }
  }

  lemma RecordedTwice(b: Book, origin: Origin, commands: seq<string>, i: nat, j: nat)
    requires i <= j < |commands|
    ensures Recorded(Recorded(b, origin, commands[i..j]), origin, [commands[j]]) == Recorded(b, origin, commands[i..j + 1])
  {
    assert Tagged(origin, commands[i..j]) + Tagged(origin, [commands[j]]) == Tagged(origin, commands[i..j + 1]);
  }
}
