/** Sending and retransmitting over the serial device. */
module MotionSender {
  import opened Casts
  import opened FlowControl
  import opened FlowState
  import opened MarlinPacket
  import opened SlidingWindow

  /** The serial device: everything it has taken so far. A write may stop short at any byte. */
  class Serial {
    var output: seq<byte>

    constructor ()
      ensures output == []
    {
      output := [];
    }

    method WriteAll(data: seq<byte>) returns (ok: bool)
      modifies this
      ensures ok ==> output == old(output) + data
      ensures !ok ==> old(output) <= output <= old(output) + data
    {
      var taken: nat :| taken <= |data|;
      output := output + data[..taken];
      ok := taken == |data|;
      assert ok ==> data[..taken] == data;
    }
  }

  datatype SendResult = Sent | InvalidCommand | FlowFull | SerialError

  const BUFFER := MAX_LINE + 64

  /** How sending ends when the serial device takes the bytes. */
  function SendOutcome(st: State, line: string): (State, SendResult) {
    if line == "" then (st, InvalidCommand) else
    var r := Prepare(st, line, BUFFER);
    (r.0, match r.1 case Ready(_) => Sent case Full => FlowFull case Invalid => InvalidCommand)
  }

  method SendGcode(flow: Flow, serial: Serial, ready: bool, line: string) returns (result: SendResult)
    requires flow.Valid()
    modifies flow, flow.slots, serial
    ensures flow.Valid()
    ensures flow.Model() == SendOutcome(old(flow.Model()), line).0
    ensures result == SendOutcome(old(flow.Model()), line).1 || (ready && result == SerialError)
    ensures result == SerialError ==> SendOutcome(old(flow.Model()), line).1 == Sent
    ensures result == Sent && ready ==>
              serial.output == old(serial.output) + Frame(old(flow.nextSequence), line)
    ensures result in {InvalidCommand, FlowFull} || !ready ==> serial.output == old(serial.output)
    ensures old(serial.output) <= serial.output <= old(serial.output) + Frame(old(flow.nextSequence), line)
  {
    hide Frame, Prepare;
    if line == "" {
      return InvalidCommand;
    }
    var packet := new byte[BUFFER];
    var prepared, written := flow.PreparePacket(line, packet);
    match prepared {
      case Full => return FlowFull;
      case Invalid => return InvalidCommand;
      case Ready(_) =>
    }
    if !ready {
      return Sent;
    }
    var ok := serial.WriteAll(packet[..written]);
    return if ok then Sent else SerialError;
  }

  /** The packet found by looking up a number. */
  function FoundFrame(st: State, sequence: byte): seq<byte> {
    var i := Lookup(st.slots, sequence);
    if i == -1 then [] else Frame(st.slots[i].sequence, st.slots[i].command)
  }

  /** What retransmitting slot i puts on the wire: whatever carries the number in slot i. */
  function SlotFrame(st: State, i: nat): seq<byte>
    requires i < |st.slots|
  {
    FoundFrame(st, st.slots[i].sequence)
  }

  function Wire(st: State, order: seq<nat>): seq<byte>
    requires forall a :: 0 <= a < |order| ==> order[a] < |st.slots|
  {
    if order == [] then [] else Wire(st, order[..|order| - 1]) + SlotFrame(st, order[|order| - 1])
  }

  const SYNC_BYTES: seq<byte> := [0xff, 0xff]

  method ResendSequence(flow: Flow, serial: Serial, ready: bool, sequence: byte) returns (result: SendResult)
    requires flow.Valid()
    modifies serial
    ensures Lookup(flow.Model().slots, sequence) == -1 ==> result == FlowFull
    ensures result == Sent && ready ==> serial.output == old(serial.output) + FoundFrame(flow.Model(), sequence)
    ensures old(serial.output) <= serial.output <= old(serial.output) + FoundFrame(flow.Model(), sequence)
  {
    hide Frame;
    var packet := new byte[BUFFER];
    var found, written := flow.GetResendPacket(sequence, packet);
    if !found {
      return FlowFull;
    }
    if !ready {
      return Sent;
    }
    var ok := serial.WriteAll(packet[..written]);
    return if ok then Sent else SerialError;
  }

  /** order lists the slots marked in emitted, by stamp, and every other pending slot is stamped later. */
  ghost predicate ListedSoFar(slots: seq<Slot>, emitted: seq<bool>, order: seq<nat>)
    requires |slots| == |emitted|
  {
    && (forall a :: 0 <= a < |order| ==> order[a] < |slots| && Pending(slots[order[a]]) && emitted[order[a]])
    && (forall i :: 0 <= i < |slots| && emitted[i] ==> i in order)
    && (forall a, b :: 0 <= a < b < |order| ==> order[a] != order[b])
    && (forall a, b :: 0 <= a < b < |order| ==> slots[order[a]].sendOrder <= slots[order[b]].sendOrder)
    && (forall a, i :: 0 <= a < |order| && 0 <= i < |slots| && Pending(slots[i]) && !emitted[i]
          ==> slots[order[a]].sendOrder <= slots[i].sendOrder)
  }

  predicate Left(slots: seq<Slot>, emitted: seq<bool>, i: nat)
    requires i < |slots| == |emitted|
  {
    Pending(slots[i]) && !emitted[i]
  }

  ghost predicate NoneLeft(slots: seq<Slot>, emitted: seq<bool>)
    requires |slots| == |emitted|
  {
    forall i :: 0 <= i < |slots| ==> !Left(slots, emitted, i)
  }

  /** Of the first n slots still left, none is stamped before slot best. */
  ghost predicate Oldest(slots: seq<Slot>, emitted: seq<bool>, n: nat, best: nat)
    requires n <= |slots| == |emitted| && best < |slots|
  {
    forall i :: 0 <= i < n && Left(slots, emitted, i) ==> slots[best].sendOrder <= slots[i].sendOrder
  }

  method OldestLeft(flow: Flow, emitted: array<bool>) returns (best: int)
    requires flow.Valid() && emitted.Length == WINDOW
    ensures -1 <= best < WINDOW
    ensures best == -1 ==> NoneLeft(flow.Model().slots, emitted[..])
    ensures best != -1 ==> Left(flow.Model().slots, emitted[..], best)
    ensures best != -1 ==> Oldest(flow.Model().slots, emitted[..], WINDOW, best)
  {
    best := -1;
    var i := 0;
    while i < WINDOW
      invariant 0 <= i <= WINDOW && -1 <= best < i
      invariant best == -1 ==> forall j :: 0 <= j < i ==> !Left(flow.slots[..], emitted[..], j)
      invariant best != -1 ==> Left(flow.slots[..], emitted[..], best)
      invariant best != -1 ==> Oldest(flow.slots[..], emitted[..], i, best)
    {
      if Pending(flow.slots[i]) && !emitted[i] {
        if best < 0 || flow.slots[i].sendOrder < flow.slots[best].sendOrder {
          best := i;
        }
      }
      i := i + 1;
    }
  }

  function Unset(flags: seq<bool>): nat {
    if flags == [] then 0 else Unset(flags[..|flags| - 1]) + if flags[|flags| - 1] then 0 else 1
  }

  lemma {:induction false} SettingLowers(flags: seq<bool>, i: nat)
    requires i < |flags| && !flags[i]
    ensures Unset(flags[i := true]) < Unset(flags)
  {
    var n := |flags| - 1;
    if i < n {
      SettingLowers(flags[..n], i);
      assert flags[i := true][..n] == flags[..n][i := true];
    } else {
      assert flags[i := true][..n] == flags[..n];
    }
  }

  lemma ListingStarts(slots: seq<Slot>, emitted: seq<bool>)
    requires |slots| == |emitted| && forall i :: 0 <= i < |emitted| ==> !emitted[i]
    ensures ListedSoFar(slots, emitted, [])
  {
  }

  lemma ListingDone(slots: seq<Slot>, emitted: seq<bool>, order: seq<nat>)
    requires |slots| == |emitted| && ListedSoFar(slots, emitted, order)
    requires NoneLeft(slots, emitted)
    ensures IsResendOrder(slots, order)
  {
    forall i | 0 <= i < |slots| && Pending(slots[i]) ensures i in order {
      assert !Left(slots, emitted, i);
    }
  }

  lemma ListingExtends(slots: seq<Slot>, emitted: seq<bool>, order: seq<nat>, best: nat)
    requires |slots| == |emitted| && ListedSoFar(slots, emitted, order)
    requires best < |slots| && Left(slots, emitted, best)
    requires Oldest(slots, emitted, |slots|, best)
    ensures ListedSoFar(slots, emitted[best := true], order + [best])
    ensures forall a :: 0 <= a < |order| ==> order[a] < |slots|
    ensures Unset(emitted[best := true]) < Unset(emitted)
  {
    SettingLowers(emitted, best);
    var emitted', order' := emitted[best := true], order + [best];
    forall i | 0 <= i < |slots| && emitted'[i] ensures i in order' {
      if i == best {
        assert order'[|order|] == best;
      } else {
        assert emitted[i];
      }
    }
    forall a, i | 0 <= a < |order'| && 0 <= i < |slots| && Pending(slots[i]) && !emitted'[i]
      ensures slots[order'[a]].sendOrder <= slots[i].sendOrder
    {
      assert Left(slots, emitted, i);
    }
    assert forall a :: 0 <= a < |order| ==> order[a] != best;
  }

  lemma WireStep(st: State, order: seq<nat>, best: nat)
    requires best < |st.slots| && forall a :: 0 <= a < |order| ==> order[a] < |st.slots|
    ensures Wire(st, order + [best]) == Wire(st, order) + SlotFrame(st, best)
  {
    assert (order + [best])[..|order|] == order;
  }

  /** Writes the oldest pending packet not yet written, if there is one. */
  method ResendNext(flow: Flow, serial: Serial, emitted: array<bool>, ghost order: seq<nat>)
    returns (result: SendResult, best: int)
    requires flow.Valid() && emitted.Length == WINDOW
    requires ListedSoFar(flow.Model().slots, emitted[..], order)
    modifies serial, emitted
    ensures -1 <= best < WINDOW
    ensures best == -1 ==> result == Sent && IsResendOrder(flow.Model().slots, order)
    ensures best == -1 ==> serial.output == old(serial.output)
    ensures best != -1 ==> ListedSoFar(flow.Model().slots, emitted[..], order + [best])
    ensures best != -1 ==> Unset(emitted[..]) < old(Unset(emitted[..]))
    ensures best != -1 && result == Sent ==>
              serial.output == old(serial.output) + SlotFrame(flow.Model(), best)
    ensures best != -1 ==>
              old(serial.output) <= serial.output <= old(serial.output) + SlotFrame(flow.Model(), best)
  {
    hide Frame, ListedSoFar, Unset, IsResendOrder, Lookup, Left, Oldest, NoneLeft;
    ghost var slots := flow.Model().slots;
    best := OldestLeft(flow, emitted);
    if best < 0 {
      ListingDone(slots, emitted[..], order);
      return Sent, best;
    }
    ListingExtends(slots, emitted[..], order, best);
    ghost var before := emitted[..];
    emitted[best] := true;
    assert emitted[..] == before[best := true];
    result := ResendSequence(flow, serial, true, flow.slots[best].sequence);
  }

  /** Writes the sync bytes and then every pending packet. order: the slots, as they were chosen. */
  method ResendPending(flow: Flow, serial: Serial, ready: bool) returns (result: SendResult, ghost order: seq<nat>)
    requires flow.Valid()
    modifies serial
    ensures !ready ==> result == Sent && serial.output == old(serial.output)
    ensures forall a :: 0 <= a < |order| ==> order[a] < WINDOW
    ensures ready && result == Sent ==> IsResendOrder(flow.Model().slots, order)
    ensures ready && result == Sent ==> serial.output == old(serial.output) + SYNC_BYTES + Wire(flow.Model(), order)
    ensures old(serial.output) <= serial.output <= old(serial.output) + SYNC_BYTES + Wire(flow.Model(), order)
  {
    hide Frame, FoundFrame, SlotFrame, Wire, ListedSoFar, Unset, IsResendOrder;
    order := [];
    WireEmpty(flow.Model());
    if !ready {
      return Sent, [];
    }
    ghost var start, st := serial.output, flow.Model();
    var ok := serial.WriteAll(SYNC_BYTES);
    if !ok {
      return SerialError, [];
    }
    var emitted := new bool[WINDOW](_ => false);
    ListingStarts(st.slots, emitted[..]);
    while true
      invariant flow.Model() == st
      invariant ListedSoFar(st.slots, emitted[..], order)
      invariant forall a :: 0 <= a < |order| ==> order[a] < WINDOW
      invariant serial.output == start + SYNC_BYTES + Wire(st, order)
      decreases Unset(emitted[..])
    {
      var best;
      result, best := ResendNext(flow, serial, emitted, order);
      if best < 0 {
        return;
      }
      WireStep(st, order, best);
      order := order + [best];
      if result != Sent {
        return;
      }
    }
  }

  lemma WireEmpty(st: State)
    ensures Wire(st, []) == []
  {
  }

  // ---- Go-back-N ----

  function OriginalFrames(h: History, from: nat, to: nat): seq<byte>
    requires from <= to <= |h.log|
  {
    if from == to then [] else OriginalFrames(h, from, to - 1) + Frame(Number(h, to - 1), h.log[to - 1])
  }

  lemma SlotFrameIsOriginal(st: State, h: History, i: nat)
    requires Synced(st, h) && i < h.filled && h.acked <= h.ids[i]
    ensures h.ids[i] < |h.log| && SlotFrame(st, i) == Frame(Number(h, h.ids[i]), h.log[h.ids[i]])
  {
    assert Holds(st.slots[i], h.ids[i], h);
    LookupFindsPending(st, h, h.ids[i]);
  }

  lemma {:induction false} WirePrefix(st: State, h: History, order: seq<nat>, n: nat)
    requires Synced(st, h) && n <= |order| && h.acked + |order| <= |h.log|
    requires forall a :: 0 <= a < |order| ==> order[a] < h.filled && h.ids[order[a]] == h.acked + a
    ensures Wire(st, order[..n]) == OriginalFrames(h, h.acked, h.acked + n)
  {
    hide Frame, SlotsHold, Counters, SlotFrame;
    if n > 0 {
      WirePrefix(st, h, order, n - 1);
      SlotFrameIsOriginal(st, h, order[n - 1]);
      assert order[..n][..n - 1] == order[..n - 1];
    }
  }

  /** Retransmission is the pending packets with their original bytes, in submission order, oldest first,
      each once, as long as the send counter does not wrap inside the window. */
  lemma ResendIsGoBackN(st: State, h: History, order: seq<nat>)
    requires Synced(st, h) && IsResendOrder(st.slots, order) && NoWrapInWindow(h) && h.acked < |h.log|
    ensures Wire(st, order) == OriginalFrames(h, h.acked, |h.log|)
  {
    hide Frame, IsResendOrder;
    ResendOrderIff(st, h, order);
    WirePrefix(st, h, order, |order|);
    assert order[..|order|] == order;
  }

  lemma {:induction false} AcknowledgingKeepsFrames(h: History, m: nat, from: nat, to: nat)
    requires from <= to <= |h.log|
    ensures OriginalFrames(Acknowledged(h, m), from, to) == OriginalFrames(h, from, to)
  {
    if from < to {
      AcknowledgingKeepsFrames(h, m, from, to - 1);
    }
  }

  /** A request for packet m, the next one the controller expects, has the frames from m on written again, as they
      were first sent; the ninth request for the packet is refused instead. */
  lemma RequestedOnwardsIsResent(st: State, h: History, m: nat, free: byte, order: seq<nat>)
    requires Synced(st, h) && h.acked <= m < |h.log| && !st.handlingResend
    requires NoWrapInWindow(Acknowledged(h, m))
    requires IsResendOrder(Handle(st, Sync('r', Number(h, m), free)).0.slots, order)
    ensures var (st', outcome) := Handle(st, Sync('r', Number(h, m), free));
      && (outcome == Resend(Number(h, m)) || outcome == Rejected)
      && Synced(st', Acknowledged(h, m))
      && Wire(st', order) == OriginalFrames(h, m, |h.log|)
  {
    hide Synced, Handle, IsResendOrder, NoWrapInWindow, Wire;
    ResendReply(st, h, m, free);
    ResendIsGoBackN(Handle(st, Sync('r', Number(h, m), free)).0, Acknowledged(h, m), order);
    AcknowledgingKeepsFrames(h, m, m, |h.log|);
  }
}
