/** The whole link as a step system: the sender, a line that damages and loses packets but keeps their order,
    a controller that accepts numbered packets in order, and a line back for its replies.

    Packets and replies carry the proof's absolute numbers beside their bytes; neither side looks at them. */
module Link {
  import opened Casts
  import opened FlowState
  import opened MarlinPacket
  import opened SlidingWindow
  import opened SyncLine

  datatype Parcel = Packet(data: seq<byte>, id: nat) | Noise(data: seq<byte>)

  /** Done: packets below it are known to the controller when the reply is sent. Expected: the error line that
      names the number the controller waits for. */
  datatype Notice =
    | Counted(line: string, code: char, free: byte, done: nat)
    | Uncounted(line: string)
    | Expected(number: byte, done: nat)

  datatype Link = Link(st: State, h: History, wire: seq<Parcel>,
                       accepted: seq<string>, expected: byte, back: seq<Notice>)

  datatype Delivery = Whole | Nothing | Broken(data: seq<byte>)

  datatype Step =
    | Submit(command: string, delivery: Delivery)
    | Damage(i: nat, data: seq<byte>)
    | Lose(i: nat)
    | Receive
    | Tell(code: char, number: byte, free: byte)
    | DamageReply(i: nat, line: string)
    | LoseReply(i: nat)
    | Hear(order: seq<nat>, written: nat, torn: seq<byte>)
    | ClearQuiet
    | Report
    | Resynchronise

  const ROOM := 320

  // ---- What each side does ----

  function Outgoing(sequence: byte, command: string, id: nat, delivery: Delivery): seq<Parcel> {
    match delivery
    case Whole => [Packet(Frame(sequence, command), id)]
    case Nothing => []
    case Broken(data) => [Noise(data)]
  }

  /** The slot that retransmission finds by looking up the number in slot i. */
  function Resent(st: State, h: History, i: nat): Parcel
    requires i < |st.slots| == |h.ids|
  {
    var j := Lookup(st.slots, st.slots[i].sequence);
    if j == -1 then Noise([]) else Packet(Frame(st.slots[j].sequence, st.slots[j].command), h.ids[i])
  }

  function ResentAll(st: State, h: History, order: seq<nat>): seq<Parcel>
    requires |st.slots| == |h.ids| && forall a :: 0 <= a < |order| ==> order[a] < |st.slots|
  {
    seq(|order|, a requires 0 <= a < |order| => Resent(st, h, order[a]))
  }

  /** A retransmission breaks off inside the next frame; torn: what is written of it. */
  predicate TornFrom(st: State, h: History, order: seq<nat>, written: nat, torn: seq<byte>) {
    torn != [] ==>
      && written < |order| && order[written] < |st.slots| == |h.ids|
      && torn < Resent(st, h, order[written]).data
  }

  /** A frame that is not written whole. */
  function Torn(torn: seq<byte>): seq<Parcel> {
    if torn == [] then [] else [Noise(torn)]
  }

  predicate LooksDamaged(line: string) {
    Parse(line) == None || Parse(line) == Some(DamagedSync)
  }

  ghost predicate Enabled(l: Link, step: Step) {
    match step
    case Submit(command, delivery) =>
      CanSend(l.st) && Sendable(command) && (delivery.Broken? ==> Decode(delivery.data) == None)
    case Damage(i, data) => i < |l.wire| && Decode(data) == None
    case Lose(i) => i < |l.wire|
    case Receive => |l.wire| > 0
    case Tell(code, number, free) =>
      if code == 'o' then |l.accepted| > 0 && number == Number(l.h, |l.accepted| - 1)
      else if code == 'r' then number == l.expected
      else code == 'q'
    case DamageReply(i, line) => i < |l.back| && LooksDamaged(line)
    case LoseReply(i) => i < |l.back|
    case Hear(order, written, torn) =>
      |l.back| > 0 && !l.back[0].Expected? &&
      var r := HandleLine(l.st, l.back[0].line);
      r.1.Resend? ==> IsResendOrder(r.0.slots, order) && written <= |order| && TornFrom(r.0, l.h, order, written, torn)
    case ClearQuiet => Inflight(l.st) == 0
    case Report => true
    case Resynchronise => |l.back| > 0 && l.back[0].Expected? && Timely(l)
  }

  /** The report that stands first is still true, and no packet is on the line that the controller has not had. */
  predicate Timely(l: Link)
    requires |l.back| > 0 && l.back[0].Expected?
  {
    l.back[0].number == l.expected && forall i :: 0 <= i < |l.wire| && l.wire[i].Packet? ==> l.wire[i].id < |l.accepted|
  }

  /** The counter a few counts back. */
  function Before(counter: u32, n: nat): u32 {
    (counter - n) % U32
  }

  /** The sender hears which number is expected, gives up what is in flight and goes on from that number. The packets
      that still stand are those the controller has accepted. */
  function Resynced(l: Link): Link
    requires |l.back| > 0 && l.back[0].Expected? && |l.accepted| <= |l.h.log|
  {
    var st, n := Resync(Handle(l.st, ProtoExpected(l.back[0].number)).0), |l.accepted|;
    l.(st := st, back := l.back[1..],
       h := History(l.h.start, l.h.log[..n], n, l.h.ids, 0, Before(st.sent, n), Before(st.acked, n)))
  }

  /** Text that is no numbered reply does nothing here. */
  function HandleLine(st: State, line: string): (State, Outcome) {
    Handle(st, if Parse(line) == None then OtherText else Parse(line).value)
  }

  /** How far the sender's knowledge has come after a reply. */
  function Heard(h: History, notice: Notice, outcome: Outcome): History {
    if !notice.Counted? || notice.code == 'q' then h
    else if notice.code == 'o' then Acknowledged(h, notice.done)
    else if outcome == Ignored then h
    else Acknowledged(h, notice.done)
  }

  /** The sender hears a reply; what it retransmits at once goes onto the line. */
  ghost function Hearing(l: Link, order: seq<nat>, written: nat, torn: seq<byte>): Link
    requires Synced(l.st, l.h) && Enabled(l, Hear(order, written, torn))
  {
    var r := HandleLine(l.st, l.back[0].line);
    var h' := Heard(l.h, l.back[0], r.1);
    var wire' := if r.1.Resend? then
                   l.wire + [Noise([0xff, 0xff])] + ResentAll(r.0, h', order[..written]) + Torn(torn)
                 else l.wire;
    l.(st := r.0, h := h', wire := wire', back := l.back[1..])
  }

  ghost function Next(l: Link, step: Step): Link
    requires Synced(l.st, l.h) && Enabled(l, step) && |l.accepted| <= |l.h.log|
  {
    match step
    case Submit(command, delivery) =>
      l.(st := Prepare(l.st, command, ROOM).0, h := Submitted(l.st, l.h, command),
         wire := l.wire + Outgoing(l.st.nextSequence, command, |l.h.log|, delivery))
    case Damage(i, data) => l.(wire := l.wire[i := Noise(data)])
    case Lose(i) => l.(wire := l.wire[..i] + l.wire[i + 1..])
    case Receive =>
      var got := Decode(l.wire[0].data);
      if got.Some? && got.value.0 == l.expected then
        l.(wire := l.wire[1..], accepted := l.accepted + [got.value.1], expected := NextSequence(l.expected))
      else l.(wire := l.wire[1..])
    case Tell(code, number, free) =>
      l.(back := l.back + [Counted(Format(code, number, free), code, free, |l.accepted|)])
    case DamageReply(i, line) => l.(back := l.back[i := Uncounted(line)])
    case LoseReply(i) => l.(back := l.back[..i] + l.back[i + 1..])
    case Hear(order, written, torn) => Hearing(l, order, written, torn)
    case ClearQuiet => l.(st := Clear(l.st), h := l.h.(filled := 0))
    case Report => l.(back := l.back + [Expected(l.expected, |l.accepted|)])
    case Resynchronise => Resynced(l)
  }

  // ---- The invariant ----

  ghost predicate GoodParcel(l: Link, p: Parcel) {
    match p
    case Packet(data, id) =>
      && id < |l.h.log| && data == Frame(Number(l.h, id), l.h.log[id])
      && |l.accepted| <= id + WINDOW
    case Noise(data) => Decode(data) == None
  }

  /** A packet is at most 31 newer than any packet behind it. */
  ghost predicate InReach(wire: seq<Parcel>) {
    forall i, j :: 0 <= i < j < |wire| && wire[i].Packet? && wire[j].Packet? ==> wire[i].id < wire[j].id + WINDOW
  }

  ghost predicate GoodNotice(l: Link, n: Notice) {
    match n
    case Counted(line, code, free, done) =>
      && l.h.acked <= done <= |l.accepted|
      && (code == 'o' ==> done > 0 && line == Format('o', Number(l.h, done - 1), free))
      && (code == 'r' ==> line == Format('r', Number(l.h, done), free))
      && (code != 'o' && code != 'r' ==> code == 'q' && exists s: byte :: line == Format('q', s, free))
    case Uncounted(line) => LooksDamaged(line)
    case Expected(number, done) => l.h.acked <= done <= |l.accepted| && number == Number(l.h, done)
  }

  ghost predicate Monotone(back: seq<Notice>) {
    forall i, j :: 0 <= i < j < |back| && !back[i].Uncounted? && !back[j].Uncounted? ==> back[i].done <= back[j].done
  }

  ghost predicate Inv(l: Link) {
    && Synced(l.st, l.h)
    && (forall k :: 0 <= k < |l.h.log| ==> Sendable(l.h.log[k]))
    && l.accepted <= l.h.log && l.h.acked <= |l.accepted|
    && l.expected == Number(l.h, |l.accepted|)
    && (forall i :: 0 <= i < |l.wire| ==> GoodParcel(l, l.wire[i])) && InReach(l.wire)
    && (forall i :: 0 <= i < |l.back| ==> GoodNotice(l, l.back[i])) && Monotone(l.back)
  }

  // ---- Each step keeps it ----

  lemma SubmitKeeps(l: Link, command: string, delivery: Delivery)
    requires Inv(l) && Enabled(l, Submit(command, delivery))
    ensures Inv(Next(l, Submit(command, delivery)))
  {
    hide Frame, Format, Decode, Parse;
    PrepareKeepsSync(l.st, l.h, command, ROOM);
    FreeSlotIsNext(l.st, l.h);
    var l' := Next(l, Submit(command, delivery));
    assert l'.h.log[..|l.accepted|] == l.h.log[..|l.accepted|];
    forall i | 0 <= i < |l'.wire| ensures GoodParcel(l', l'.wire[i]) {
      if i < |l.wire| {
        assert GoodParcel(l, l.wire[i]);
      }
    }
    forall i | 0 <= i < |l.wire| && l.wire[i].Packet? ensures l.wire[i].id < |l.h.log| {
      assert GoodParcel(l, l.wire[i]);
    }
    forall i | 0 <= i < |l'.back| ensures GoodNotice(l', l'.back[i]) {
      assert GoodNotice(l, l.back[i]);
    }
  }

  lemma LineKeeps(l: Link, wire: seq<Parcel>, back: seq<Notice>)
    requires Inv(l)
    requires forall i :: 0 <= i < |wire| ==> GoodParcel(l, wire[i])
    requires InReach(wire)
    requires forall i :: 0 <= i < |back| ==> GoodNotice(l, back[i])
    requires Monotone(back)
    ensures Inv(l.(wire := wire, back := back))
  {
    hide Frame, Format, Decode, Parse, Synced;
    var l' := l.(wire := wire, back := back);
    assert forall i :: 0 <= i < |wire| ==> GoodParcel(l', wire[i]) by {
      forall i | 0 <= i < |wire| ensures GoodParcel(l', wire[i]) {
        assert GoodParcel(l, wire[i]);
      }
    }
    assert forall i :: 0 <= i < |back| ==> GoodNotice(l', back[i]) by {
      forall i | 0 <= i < |back| ensures GoodNotice(l', back[i]) {
        assert GoodNotice(l, back[i]);
      }
    }
  }

  lemma DamageAndLossKeep(l: Link, step: Step)
    requires Inv(l) && Enabled(l, step)
    requires step.Damage? || step.Lose? || step.DamageReply? || step.LoseReply?
    ensures Inv(Next(l, step))
  {
    hide Frame, Format, Decode, Parse, Handle, Synced;
    var l' := Next(l, step);
    LineKeeps(l, l'.wire, l'.back);
    assert l' == l.(wire := l'.wire, back := l'.back);
  }

  /** The packet at the head is the expected one exactly when its 8-bit number says so. */
  lemma NumberIdentifiesHead(l: Link, id: nat)
    requires Inv(l) && id < |l.h.log| && |l.accepted| <= id + WINDOW
    ensures Number(l.h, id) == l.expected <==> id == |l.accepted|
  {
    InflightIsUnacknowledged(l.st, l.h);
    NumbersDiffer(l.h, id, |l.accepted|);
  }

  lemma ReceiveKeeps(l: Link)
    requires Inv(l) && Enabled(l, Receive)
    ensures Inv(Next(l, Receive))
  {
    hide Frame, Format, Decode, Parse;
    var l' := Next(l, Receive);
    var p := l.wire[0];
    assert GoodParcel(l, p);
    assert forall i :: 0 <= i < |l'.wire| ==> l'.wire[i] == l.wire[i + 1];
    if p.Packet? {
      DecodeFrame(Number(l.h, p.id), l.h.log[p.id]);
      NumberIdentifiesHead(l, p.id);
    }
    if l'.accepted == l.accepted {
      LineKeeps(l, l'.wire, l'.back);
      assert l' == l.(wire := l'.wire, back := l'.back);
    } else {
      assert l'.accepted == l.h.log[..|l.accepted| + 1];
      forall i | 0 <= i < |l'.wire| ensures GoodParcel(l', l'.wire[i]) {
        assert GoodParcel(l, l.wire[i + 1]);
      }
      forall i | 0 <= i < |l'.back| ensures GoodNotice(l', l'.back[i]) {
        assert GoodNotice(l, l.back[i]);
      }
    }
  }

  lemma TellKeeps(l: Link, code: char, number: byte, free: byte)
    requires Inv(l) && Enabled(l, Tell(code, number, free))
    ensures Inv(Next(l, Tell(code, number, free)))
  {
    hide Frame, Format, Decode, Parse, Handle, Synced;
    var l' := Next(l, Tell(code, number, free));
    var n := l'.back[|l.back|];
    assert GoodNotice(l, n);
    forall i | 0 <= i < |l.back| && !l.back[i].Uncounted? ensures l.back[i].done <= |l.accepted| {
      assert GoodNotice(l, l.back[i]);
    }
    LineKeeps(l, l'.wire, l'.back);
    assert l' == l.(wire := l'.wire, back := l'.back);
  }

  /** The sender's state after a reply, and how far its knowledge has come. */
  lemma HearingKeepsSync(l: Link)
    requires Inv(l) && |l.back| > 0 && !l.back[0].Expected?
    ensures var r := HandleLine(l.st, l.back[0].line);
      var h' := Heard(l.h, l.back[0], r.1);
      && Synced(r.0, h') && h' == l.h.(acked := h'.acked)
      && l.h.acked <= h'.acked <= |l.accepted|
      && (forall i :: 1 <= i < |l.back| && !l.back[i].Uncounted? ==> h'.acked <= l.back[i].done)
  {
    hide Frame, Format, Decode, Parse, Handle, GoodParcel, Synced, Number, LooksDamaged, InReach;
    var n := l.back[0];
    assert GoodNotice(l, n);
    forall i | 1 <= i < |l.back| && !l.back[i].Uncounted? ensures l.h.acked <= l.back[i].done {
      assert GoodNotice(l, l.back[i]);
    }
    InflightIsUnacknowledged(l.st, l.h);
    if n.Uncounted? {
      DamagedLineKeepsSync(l.st, l.h, n.line);
    } else if n.code == 'o' {
      ParseFormat('o', Number(l.h, n.done - 1), n.free);
      PositiveReply(l.st, l.h, n.done - 1, n.free);
    } else if n.code == 'r' {
      ParseFormat('r', Number(l.h, n.done), n.free);
      ResendReply(l.st, l.h, n.done, n.free);
    } else {
      var s: byte :| n.line == Format('q', s, n.free);
      ParseFormat('q', s, n.free);
      CreditKeepsSync(l.st, l.h, s, n.free);
    }
  }

  lemma DamagedLineKeepsSync(st: State, h: History, line: string)
    requires Synced(st, h) && LooksDamaged(line)
    ensures Synced(HandleLine(st, line).0, h)
  {
    hide Parse;
    assert HandleLine(st, line).0 == st || HandleLine(st, line).0 == Reject(st);
  }

  lemma CreditKeepsSync(st: State, h: History, s: byte, free: byte)
    requires Synced(st, h)
    ensures Synced(Handle(st, Sync('q', s, free)).0, h)
  {
  }

  /** Every retransmitted packet is a pending one, with its original bytes. */
  lemma ResentIsOriginal(st: State, h: History, i: nat)
    requires Synced(st, h) && i < WINDOW && Pending(st.slots[i])
    ensures h.acked <= h.ids[i] < |h.log|
    ensures Resent(st, h, i) == Packet(Frame(Number(h, h.ids[i]), h.log[h.ids[i]]), h.ids[i])
  {
    assert Holds(st.slots[i], h.ids[i], h);
    LookupFindsPending(st, h, h.ids[i]);
  }

  lemma HearKeeps(l: Link, order: seq<nat>, written: nat, torn: seq<byte>)
    requires Inv(l) && Enabled(l, Hear(order, written, torn))
    ensures Inv(Next(l, Hear(order, written, torn)))
  {
    hide Frame, Format, Decode, Parse, Resent;
    HearingKeepsSync(l);
    var l' := Next(l, Hear(order, written, torn));
    var quiet := l.(st := l'.st, h := l'.h, back := l'.back);
    QuietPartKeeps(l, quiet);
    if !HandleLine(l.st, l.back[0].line).1.Resend? {
      assert l' == quiet;
    } else {
      var more := [Noise([0xff, 0xff])] + ResentAll(l'.st, l'.h, order[..written]);
      ResentFitsBehind(quiet, order[..written]);
      assert l'.wire == quiet.wire + more + Torn(torn);
      if torn != [] {
        SameResent(l'.st, l.h, l'.h, order[written]);
        TornIsNoise(quiet, order[written], torn);
      }
      NoiseFitsBehind(quiet, quiet.wire + more, torn);
      LineKeeps(quiet, l'.wire, quiet.back);
      assert l' == quiet.(wire := l'.wire, back := quiet.back);
    }
  }

  lemma SameResent(st: State, h: History, h': History, i: nat)
    requires i < |st.slots| == |h.ids| && h'.ids == h.ids
    ensures Resent(st, h', i) == Resent(st, h, i)
  {
  }

  lemma TornIsNoise(l: Link, i: nat, torn: seq<byte>)
    requires Inv(l) && i < WINDOW && Pending(l.st.slots[i]) && torn < Resent(l.st, l.h, i).data
    ensures Decode(torn) == None
  {
    hide Frame, Decode, Resent;
    ResentIsOriginal(l.st, l.h, i);
    var k := l.h.ids[i];
    assert Sendable(l.h.log[k]);
    var frame := Frame(Number(l.h, k), l.h.log[k]);
    assert torn == frame[..|torn|];
    TornFrameRejected(Number(l.h, k), l.h.log[k], |torn|);
  }

  lemma NoiseFitsBehind(l: Link, wire: seq<Parcel>, torn: seq<byte>)
    requires (forall i :: 0 <= i < |wire| ==> GoodParcel(l, wire[i])) && InReach(wire)
    requires torn != [] ==> Decode(torn) == None
    ensures var longer := wire + Torn(torn);
      (forall i :: 0 <= i < |longer| ==> GoodParcel(l, longer[i])) && InReach(longer)
  {
    hide Decode, Frame;
  }

  lemma QuietPartKeeps(l: Link, quiet: Link)
    requires Inv(l) && |l.back| > 0
    requires quiet == l.(st := quiet.st, h := l.h.(acked := quiet.h.acked), back := l.back[1..])
    requires Synced(quiet.st, quiet.h) && l.h.acked <= quiet.h.acked <= |l.accepted|
    requires forall i :: 1 <= i < |l.back| && !l.back[i].Uncounted? ==> quiet.h.acked <= l.back[i].done
    ensures Inv(quiet)
  {
    forall i | 0 <= i < |quiet.wire| ensures GoodParcel(quiet, quiet.wire[i]) {
      assert GoodParcel(l, l.wire[i]);
    }
    forall i | 0 <= i < |quiet.back| ensures GoodNotice(quiet, quiet.back[i]) {
      assert GoodNotice(l, l.back[i + 1]);
    }
  }

  lemma SyncBytesAreNoise()
    ensures Decode([0xff, 0xff]) == None
  {
  }

  lemma ResentFitsBehind(l: Link, order: seq<nat>)
    requires Inv(l)
    requires forall a :: 0 <= a < |order| ==> order[a] < WINDOW && Pending(l.st.slots[order[a]])
    ensures var wire := l.wire + ([Noise([0xff, 0xff])] + ResentAll(l.st, l.h, order));
      (forall i :: 0 <= i < |wire| ==> GoodParcel(l, wire[i])) && InReach(wire)
  {
    hide Frame, Format, Decode, Parse, Resent, Number, GoodNotice, Monotone;
    InflightIsUnacknowledged(l.st, l.h);
    var more := [Noise([0xff, 0xff])] + ResentAll(l.st, l.h, order);
    forall a | 0 <= a < |more|
      ensures GoodParcel(l, more[a]) && (more[a].Packet? ==> l.h.acked <= more[a].id < |l.h.log|)
    {
      if a == 0 {
        SyncBytesAreNoise();
      } else {
        ResentIsOriginal(l.st, l.h, order[a - 1]);
      }
    }
    forall i | 0 <= i < |l.wire| && l.wire[i].Packet? ensures l.wire[i].id < |l.h.log| {
      assert GoodParcel(l, l.wire[i]);
    }
  }

  lemma ClearQuietKeeps(l: Link)
    requires Inv(l) && Enabled(l, ClearQuiet)
    ensures Inv(Next(l, ClearQuiet))
  {
    QuietClearKeepsSync(l.st, l.h);
    var l' := Next(l, ClearQuiet);
    forall i | 0 <= i < |l'.wire| ensures GoodParcel(l', l'.wire[i]) {
      assert GoodParcel(l, l.wire[i]);
    }
    forall i | 0 <= i < |l'.back| ensures GoodNotice(l', l'.back[i]) {
      assert GoodNotice(l, l.back[i]);
    }
  }

  // ---- Resynchronising ----

  lemma ReportKeeps(l: Link)
    requires Inv(l)
    ensures Inv(l.(back := l.back + [Expected(l.expected, |l.accepted|)]))
  {
    hide Frame, Format, Decode, Parse, Handle, Synced;
    var back := l.back + [Expected(l.expected, |l.accepted|)];
    forall i | 0 <= i < |back| ensures GoodNotice(l, back[i]) {
      if i < |l.back| {
        assert GoodNotice(l, l.back[i]);
      }
    }
    forall i | 0 <= i < |l.back| && !l.back[i].Uncounted? ensures l.back[i].done <= |l.accepted| {
      assert GoodNotice(l, l.back[i]);
    }
    LineKeeps(l, l.wire, back);
  }

  /** A window that is given up is in order behind what the controller has accepted exactly when the number taken up
      is the next one. */
  lemma ResyncedSyncIff(l: Link)
    requires Inv(l) && |l.back| > 0 && l.back[0].Expected?
    ensures Synced(Resynced(l).st, Resynced(l).h) <==> l.back[0].number == l.expected
  {
    hide Frame, Format, Decode, Parse;
    var l', n := Resynced(l), |l.accepted|;
    assert l'.st.slots == seq(WINDOW, _ => EMPTY_SLOT);
    CountUpIsModulo(Before(l'.st.sent, n), n);
    CountUpIsModulo(Before(l'.st.acked, n), n);
    BeforeCounts(l'.st.sent, n);
    BeforeCounts(l'.st.acked, n);
    assert Number(l'.h, n) == Number(l.h, n);
  }

  lemma BeforeCounts(counter: u32, n: nat)
    ensures (Before(counter, n) + n) % U32 == counter
  {
    var q := (counter - n) / U32;
    assert counter - n == q * U32 + Before(counter, n);
    assert Before(counter, n) + n == counter - q * U32;
    AddingWraps(counter, -q);
  }

  lemma {:induction false} AddingWraps(x: u32, q: int)
    ensures (x + q * U32) % U32 == x
    decreases if q < 0 then -q else q
  {
    if q > 0 {
      AddingWraps(x, q - 1);
      assert x + q * U32 == (x + (q - 1) * U32) + U32;
    } else if q < 0 {
      AddingWraps(x, q + 1);
      assert x + q * U32 == (x + (q + 1) * U32) - U32;
    }
  }

  /** A report that is still true is as new as anything told since. */
  lemma TrueReportIsNow(l: Link)
    requires Inv(l) && |l.back| > 0 && l.back[0].Expected?
    ensures l.back[0].number == l.expected <==> l.back[0].done == |l.accepted|
  {
    assert GoodNotice(l, l.back[0]);
    InflightIsUnacknowledged(l.st, l.h);
    NumbersDiffer(l.h, l.back[0].done, |l.accepted|);
  }

  /** After a report of the expected number and the resync, sender, line and controller are in step again exactly when
      the report is still true and no packet is on the line that the controller has not had. */
  lemma ResyncInStepIff(l: Link)
    requires Inv(l) && |l.back| > 0 && l.back[0].Expected?
    ensures Inv(Resynced(l)) <==> Timely(l)
  {
    hide Frame, Format, Decode, Parse, Handle, Synced, Resync;
    ResyncedSyncIff(l);
    TrueReportIsNow(l);
    var l', n := Resynced(l), |l.accepted|;
    if Timely(l) {
      forall i | 0 <= i < |l'.wire| ensures GoodParcel(l', l'.wire[i]) {
        assert GoodParcel(l, l.wire[i]);
      }
      forall i | 0 <= i < |l'.back| ensures GoodNotice(l', l'.back[i]) {
        assert GoodNotice(l, l.back[i + 1]);
      }
      assert l.accepted <= l'.h.log;
    } else if Inv(l') {
      forall i | 0 <= i < |l.wire| && l.wire[i].Packet? ensures l.wire[i].id < n {
        assert GoodParcel(l', l'.wire[i]);
      }
    }
  }

  /** From any window: the first packet after the report and the resync carries the number reported. */
  lemma ResyncGoesOnFrom(st: State, s: byte, command: string, room: nat)
    requires st.slots != [] && |command| <= 255 && |command| + 6 <= room
    ensures Prepare(Resync(Handle(st, ProtoExpected(s)).0), command, room).1 == Ready(s)
  {
  }

  /** A report is heard while the packet it asks for is still on its way, as it may be. The resync gives that packet up;
      the controller accepts it all the same, and refuses the next one for its number, which it then acknowledges. The
      sender takes for accepted what is lost. */
  lemma EarlyResyncLoses(l: Link, command: string, free: byte) returns (l': Link)
    requires Inv(l) && |l.accepted| < |l.h.log| && Sendable(command) && command != l.h.log[|l.accepted|]
    requires l.back == [Expected(l.expected, |l.accepted|)]
    requires l.wire == [Packet(Frame(l.expected, l.h.log[|l.accepted|]), |l.accepted|)]
    ensures !Timely(l) && Synced(Resynced(l).st, Resynced(l).h)
    ensures Reaches(Resynced(l), [Submit(command, Whole), Receive, Receive,
                                  Tell('o', Number(l.h, |l.accepted|), free), Hear([], 0, [])], l')
    ensures Inflight(l'.st) == 0 && l'.h.log == l.accepted + [command] && l'.accepted == l.accepted + [l.h.log[|l.accepted|]]
  {
    hide Format, Frame, Decode, Parse, Prepare, Handle, Resync;
    var n, number, stale := |l.accepted|, l.expected, l.h.log[|l.accepted|];
    ResyncedSyncIff(l);
    var l0 := Resynced(l);
    ResyncedIsEmpty(l);
    ResyncGoesOnFrom(l.st, number, command, ROOM);
    PrepareKeepsSync(l0.st, l0.h, command, ROOM);
    DecodeFrame(number, stale);
    DecodeFrame(number, command);
    NextDiffers(number);
    var l1 := Next(l0, Submit(command, Whole));
    var l2 := Next(l1, Receive);
    var l3 := Next(l2, Receive);
    var l4 := Next(l3, Tell('o', number, free));
    ParseFormat('o', number, free);
    PositiveReply(l1.st, l1.h, n, free);
    l' := Next(l4, Hear([], 0, []));
    InflightIsUnacknowledged(l'.st, l'.h);
    FiveSteps(l0, Submit(command, Whole), Receive, Receive, Tell('o', number, free), Hear([], 0, []));
  }

  lemma ResyncedIsEmpty(l: Link)
    requires |l.back| > 0 && l.back[0].Expected? && |l.accepted| <= |l.h.log| && l.st.slots != []
    ensures CanSend(Resynced(l).st)
  {
  }

  lemma NextDiffers(s: byte)
    ensures NextSequence(s) != s
  {
  }

  lemma FiveSteps(l: Link, a: Step, b: Step, c: Step, d: Step, e: Step)
    requires On(l, a) && On(Next(l, a), b) && On(Next(Next(l, a), b), c) && On(Next(Next(Next(l, a), b), c), d)
    requires On(Next(Next(Next(Next(l, a), b), c), d), e)
    ensures Reaches(l, [a, b, c, d, e], Next(Next(Next(Next(Next(l, a), b), c), d), e))
  {
    hide Next, Enabled, Synced, Reaches;
    var m := Next(l, a);
    var n := Next(m, b);
    var o := Next(n, c);
    var p := Next(o, d);
    assert [e] + [] == [e] && [d] + [e] == [d, e] && [c] + [d, e] == [c, d, e];
    assert [b] + [c, d, e] == [b, c, d, e] && [a] + [b, c, d, e] == [a, b, c, d, e];
    NoStep(Next(p, e));
    StepFirst(p, e, [], Next(p, e));
    StepFirst(o, d, [e], Next(p, e));
    StepFirst(n, c, [d, e], Next(p, e));
    StepFirst(m, b, [c, d, e], Next(p, e));
    StepFirst(l, a, [b, c, d, e], Next(p, e));
  }

  lemma NoStep(l: Link)
    ensures Reaches(l, [], l)
  {
  }

  lemma StepFirst(l: Link, step: Step, rest: seq<Step>, l': Link)
    requires On(l, step) && Reaches(Next(l, step), rest, l')
    ensures Reaches(l, [step] + rest, l')
  {
    hide Next, Enabled, Synced;
    assert ([step] + rest)[1..] == rest;
  }

  /** The step can be taken. */
  ghost predicate On(l: Link, step: Step) {
    Synced(l.st, l.h) && Enabled(l, step) && |l.accepted| <= |l.h.log|
  }

  lemma NextKeepsInv(l: Link, step: Step)
    requires Inv(l) && Enabled(l, step)
    ensures Inv(Next(l, step))
  {
    match step
    case Submit(command, delivery) => SubmitKeeps(l, command, delivery);
    case Receive => ReceiveKeeps(l);
    case Tell(code, number, free) => TellKeeps(l, code, number, free);
    case Hear(order, written, torn) => HearKeeps(l, order, written, torn);
    case ClearQuiet => ClearQuietKeeps(l);
    case Report => ReportKeeps(l);
    case Resynchronise => ResyncInStepIff(l);
    case _ => DamageAndLossKeep(l, step);
  }

  // ---- Whole runs ----

  /** A sender whose window is empty, an idle line, a controller that expects the sender's next number. */
  ghost predicate Initial(l: Link) {
    && |l.st.slots| == WINDOW && (forall i :: 0 <= i < WINDOW ==> l.st.slots[i] == EMPTY_SLOT)
    && l.st.nextSequence < MODULO && l.h == Begin(l.st)
    && l.wire == [] && l.accepted == [] && l.back == [] && l.expected == l.st.nextSequence
  }

  ghost predicate Reaches(l: Link, steps: seq<Step>, l': Link)
    decreases |steps|
  {
    if steps == [] then l == l' else
    && Synced(l.st, l.h) && Enabled(l, steps[0]) && |l.accepted| <= |l.h.log|
    && Reaches(Next(l, steps[0]), steps[1..], l')
  }

  function Submissions(steps: seq<Step>): seq<string>
    decreases |steps|
  {
    if steps == [] then []
    else (if steps[0].Submit? then [steps[0].command] else []) + Submissions(steps[1..])
  }

  /** No window is given up. */
  predicate Unbroken(steps: seq<Step>) {
    forall i :: 0 <= i < |steps| ==> !steps[i].Resynchronise?
  }

  /** Some of the elements of b, each once, in their order. */
  predicate Among(a: seq<string>, b: seq<string>) {
    a == [] || (b != [] && if a[|a| - 1] == b[|b| - 1] && Among(a[..|a| - 1], b[..|b| - 1]) then true
                           else Among(a, b[..|b| - 1]))
  }

  lemma {:induction false} AmongPart(a: seq<string>, b: seq<string>, n: nat)
    requires Among(a, b) && n <= |a|
    ensures Among(a[..n], b)
    decreases |b|
  {
    if n == |a| {
      assert a[..n] == a;
    } else if n > 0 {
      var c := b[..|b| - 1];
      if a[|a| - 1] == b[|b| - 1] && Among(a[..|a| - 1], c) {
        AmongPart(a[..|a| - 1], c, n);
        assert a[..|a| - 1][..n] == a[..n];
      } else {
        AmongPart(a, c, n);
      }
      AmongMore(a[..n], c, b[|b| - 1]);
      assert c + [b[|b| - 1]] == b;
    }
  }

  lemma AmongMore(a: seq<string>, b: seq<string>, x: string)
    requires Among(a, b)
    ensures Among(a, b + [x])
  {
    assert (b + [x])[..|b|] == b;
  }

  lemma AmongBoth(a: seq<string>, b: seq<string>, x: string)
    requires Among(a, b)
    ensures Among(a + [x], b + [x])
  {
    assert (b + [x])[..|b|] == b && (a + [x])[..|a|] == a;
  }

  function Offered(step: Step): seq<string> {
    if step.Submit? then [step.command] else []
  }

  lemma OneStepAmong(l: Link, step: Step, before: seq<string>)
    requires Inv(l) && Enabled(l, step) && Among(l.h.log, before)
    ensures Among(Next(l, step).h.log, before + Offered(step))
    ensures !step.Resynchronise? ==> Next(l, step).h.log == l.h.log + Offered(step)
  {
    hide Enabled, Next, Synced, Among;
    LogGrows(l, step);
    assert before + [] == before && l.h.log + [] == l.h.log;
    if step.Submit? {
      AmongBoth(l.h.log, before, step.command);
    } else if step.Resynchronise? {
      AmongPart(l.h.log, before, |l.accepted|);
    }
  }

  /** The packets that stand are among those submitted; if no window is given up, all of them do. */
  lemma {:induction false} RunKeepsInv(l: Link, steps: seq<Step>, l': Link, before: seq<string>)
    requires Inv(l) && Reaches(l, steps, l') && Among(l.h.log, before)
    ensures Inv(l') && Among(l'.h.log, before + Submissions(steps))
    ensures Unbroken(steps) ==> l'.h.log == l.h.log + Submissions(steps)
    decreases |steps|
  {
    hide Inv, Enabled, Next, Synced, Among, Unbroken;
    if steps == [] {
      assert before + [] == before && l.h.log + [] == l.h.log;
    } else {
      NextKeepsInv(l, steps[0]);
      OneStepAmong(l, steps[0], before);
      RunKeepsInv(Next(l, steps[0]), steps[1..], l', before + Offered(steps[0]));
      if Unbroken(steps) {
        UnbrokenParts(steps);
      }
      assert Submissions(steps) == Offered(steps[0]) + Submissions(steps[1..]);
      Together(l.h.log, Offered(steps[0]), Submissions(steps[1..]));
      Together(before, Offered(steps[0]), Submissions(steps[1..]));
    }
  }

  lemma UnbrokenParts(steps: seq<Step>)
    requires steps != [] && Unbroken(steps)
    ensures !steps[0].Resynchronise? && Unbroken(steps[1..])
  {
  }

  lemma Together(a: seq<string>, b: seq<string>, c: seq<string>)
    ensures a + (b + c) == (a + b) + c
  {
  }

  lemma LogGrows(l: Link, step: Step)
    requires Synced(l.st, l.h) && Enabled(l, step) && |l.accepted| <= |l.h.log|
    ensures Next(l, step).h.log
         == if step.Resynchronise? then l.h.log[..|l.accepted|]
            else l.h.log + if step.Submit? then [step.command] else []
  {
    hide Frame, Format, Decode, Parse, Handle, Synced;
  }

  /** Whatever the line damages, loses or repeats, however replies are delayed and windows given up: the controller has
      accepted each command at most once and in order. If no window is given up it has accepted a prefix of what was
      submitted, and nothing is acknowledged that it has not accepted. */
  lemma SlidingWindowSafety(l: Link, steps: seq<Step>, l': Link)
    requires Initial(l) && Reaches(l, steps, l')
    ensures l'.accepted <= l'.h.log && Among(l'.h.log, Submissions(steps)) && Among(l'.accepted, Submissions(steps))
    ensures |l'.h.log| - Inflight(l'.st) <= |l'.accepted|
    ensures Inflight(l'.st) == 0 ==> l'.accepted == l'.h.log
    ensures Unbroken(steps) ==> l'.h.log == Submissions(steps)
  {
    StartsSynced(l.st);
    assert Inv(l) && Among([], []);
    hide Among, Reaches;
    RunKeepsInv(l, steps, l', []);
    assert [] + Submissions(steps) == Submissions(steps) && l.h.log + Submissions(steps) == Submissions(steps);
    InflightIsUnacknowledged(l'.st, l'.h);
    AmongPart(l'.h.log, Submissions(steps), |l'.accepted|);
    assert l'.h.log[..|l'.accepted|] == l'.accepted;
  }

  /** After a report of free space f, at most f packets are sent before the next reply is heard. */
  lemma {:induction false} CreditRespected(l: Link, steps: seq<Step>, l': Link)
    requires Inv(l) && l.st.freeKnown && Reaches(l, steps, l')
    requires forall i :: 0 <= i < |steps| ==> !steps[i].Hear? && !steps[i].ClearQuiet? && !steps[i].Resynchronise?
    ensures l'.st.freeKnown && |Submissions(steps)| + l'.st.freeSpace == l.st.freeSpace
    decreases |steps|
  {
    if steps != [] {
      NextKeepsInv(l, steps[0]);
      if steps[0].Submit? {
        PrepareKeepsSync(l.st, l.h, steps[0].command, ROOM);
      }
      CreditRespected(Next(l, steps[0]), steps[1..], l');
    }
  }
}
