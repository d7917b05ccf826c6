/** The flow controller as it runs: 32 slots updated in place. Every method is tied to FlowState. */
module FlowControl {
  import opened Casts
  import opened FlowState
  import opened MarlinPacket
  import opened SyncLine

  lemma ParsedKinds(line: string)
    ensures Parse(line).Some? ==> Parse(line).value.Sync? || Parse(line).value.DamagedSync?
  {
  }

  lemma DamagedIsRejected(st: State)
    ensures Handle(st, DamagedSync) == (st.(rejected := (st.rejected + 1) % U32), Rejected)
  {
  }

  class Flow {
    var nextSequence: byte
    var lastExpected: byte
    var freeSpace: byte
    var freeKnown: bool
    var handlingResend: bool
    const slots: array<Slot>
    var sent: u32
    var acked: u32
    var resent: u32
    var rejected: u32

    ghost predicate Valid()
      reads this
    {
      slots.Length == WINDOW
    }

    ghost function Model(): (r: State)
      reads this, slots
    {
      State(nextSequence, lastExpected, freeSpace, freeKnown, handlingResend, slots[..], sent, acked, resent, rejected)
    }

    constructor ()
      ensures Valid() && Model() == Fresh()
      ensures fresh(slots)
    {
      nextSequence, lastExpected, freeSpace, freeKnown, handlingResend := 0, 0, 0, false, false;
      sent, acked, resent, rejected := 0, 0, 0, 0;
      slots := new Slot[WINDOW](_ => EMPTY_SLOT);
    }

    method ClearInflight()
      requires Valid()
      modifies this, slots
      ensures Valid() && Model() == Clear(old(Model()))
    {
      forall i | 0 <= i < slots.Length {
        slots[i] := EMPTY_SLOT;
      }
      freeSpace, freeKnown := 0, false;
    }

    method ResyncToExpected()
      requires Valid()
      modifies this, slots
      ensures Valid() && Model() == Resync(old(Model()))
    {
      ClearInflight();
      nextSequence, handlingResend := lastExpected, false;
    }

    method SlotForSequence(sequence: byte) returns (r: int)
      requires Valid()
      ensures r == Lookup(Model().slots, sequence)
    {
      var i := 0;
      while i < WINDOW
        invariant 0 <= i <= WINDOW
        invariant Lookup(slots[..], sequence) == First(slots[..], Carries(sequence), i)
      {
        if slots[i].occupied && slots[i].sequence == sequence {
          return i;
        }
        i := i + 1;
      }
      return -1;
    }

    method PendingSlotForSequence(sequence: byte) returns (r: int)
      requires Valid()
      ensures r == LookupPending(Model().slots, sequence)
    {
      r := SlotForSequence(sequence);
      if r != -1 && slots[r].acknowledged {
        r := -1;
      }
    }

    method FirstFreeSlot() returns (r: int)
      requires Valid()
      ensures r == FirstFree(Model())
    {
      if freeKnown && freeSpace == 0 {
        return -1;
      }
      var i := 0;
      while i < WINDOW
        invariant 0 <= i <= WINDOW
        invariant forall j :: 0 <= j < i ==> slots[j].occupied
      {
        if !slots[i].occupied {
          return i;
        }
        i := i + 1;
      }
      i := 0;
      while i < WINDOW
        invariant 0 <= i <= WINDOW
        invariant forall j :: 0 <= j < i ==> !slots[j].acknowledged
      {
        if slots[i].acknowledged {
          return i;
        }
        i := i + 1;
      }
      return -1;
    }

    method CanSendNow() returns (r: bool)
      requires Valid()
      ensures r == CanSend(Model())
    {
      var i := FirstFreeSlot();
      return i != -1;
    }

    method InflightNow() returns (count: nat)
      requires Valid()
      ensures count == Inflight(Model())
    {
      count := 0;
      var i := 0;
      while i < WINDOW
        invariant 0 <= i <= WINDOW
        invariant count == Count(slots[..], Pending, i)
      {
        if slots[i].occupied && !slots[i].acknowledged {
          count := count + 1;
        }
        i := i + 1;
      }
    }

    method BarrierNow() returns (r: bool)
      requires Valid()
      ensures r == HasPendingBarrier(Model())
    {
      var i := 0;
      while i < WINDOW
        invariant 0 <= i <= WINDOW
        invariant forall j :: 0 <= j < i ==> !(Pending(slots[j]) && slots[j].barrier)
      {
        if slots[i].occupied && !slots[i].acknowledged && slots[i].barrier {
          return true;
        }
        i := i + 1;
      }
      return false;
    }

    /** Takes the next number and a slot, and leaves the framed packet in out. */
    method PreparePacket(command: string, out: array<byte>) returns (result: Prepared, written: nat)
      requires Valid()
      modifies this, slots, out
      ensures Valid()
      ensures Model() == Prepare(old(Model()), command, out.Length).0
      ensures result == Prepare(old(Model()), command, out.Length).1
      ensures result.Ready? ==> result.sequence == old(nextSequence)
      ensures result.Ready? ==> written <= out.Length && out[..written] == Frame(result.sequence, command)
    {
      written := 0;
      var i := FirstFreeSlot();
      if i == -1 {
        return Full, 0;
      }
      var ok, sequence;
      ok, sequence, written := NumberAndEncode(command, out);
      if !ok {
        return Invalid, 0;
      }
      Occupy(i, sequence, command);
      return Ready(sequence), written;
    }

    /** The number is used up even when the packet does not fit. */
    method NumberAndEncode(command: string, out: array<byte>) returns (ok: bool, sequence: byte, written: nat)
      modifies this`nextSequence, out
      ensures sequence == old(nextSequence) && nextSequence == NextSequence(sequence)
      ensures ok <==> |command| <= 255 && |command| + 6 <= out.Length
      ensures ok ==> written <= out.Length && out[..written] == Frame(sequence, command)
    {
      sequence := nextSequence;
      nextSequence := NextSequence(nextSequence);
      ok, written := Encode(sequence, command, out);
    }

    method Occupy(i: nat, sequence: byte, command: string)
      requires Valid() && i < WINDOW
      modifies this, slots
      ensures Valid()
      ensures var st := old(Model());
        Model() == st.(slots := st.slots[i := Slot(sequence, command, true, false, IsBarrier(command), st.sent, 0)],
                       freeSpace := if st.freeKnown && st.freeSpace > 0 then st.freeSpace - 1 else st.freeSpace,
                       sent := (st.sent + 1) % U32)
    {
      slots[i] := Slot(sequence, command, true, false, IsBarrier(command), sent, 0);
      if freeKnown && freeSpace > 0 {
        freeSpace := freeSpace - 1;
      }
      sent := (sent + 1) % U32;
    }

    method AcknowledgeSlot(i: nat, sequence: byte, inclusive: bool)
      requires Valid() && i < WINDOW
      modifies this, slots
      ensures Valid() && Model() == AckAt(old(Model()), sequence, inclusive, i)
    {
      if !slots[i].occupied || slots[i].acknowledged {
        return;
      }
      if slots[i].sequence == sequence {
        if !inclusive {
          return;
        }
      } else if !NotNewer(slots[i].sequence, sequence) {
        return;
      }
      slots[i] := slots[i].(acknowledged := true);
      acked := (acked + 1) % U32;
    }

    method AcknowledgeThrough(sequence: byte, inclusive: bool)
      requires Valid()
      modifies this, slots
      ensures Valid() && Model() == AckThrough(old(Model()), sequence, inclusive)
    {
      ghost var st := Model();
      var i := 0;
      while i < WINDOW
        invariant 0 <= i <= WINDOW
        invariant Model() == AckFirst(st, sequence, inclusive, i)
      {
        AcknowledgeSlot(i, sequence, inclusive);
        i := i + 1;
      }
      AckFirstIsAckThrough(st, sequence, inclusive);
    }

    method Request(i: nat) returns (outcome: Outcome)
      requires Valid() && i < WINDOW
      modifies this, slots
      ensures Valid() && (Model(), outcome) == RequestResend(old(Model()), i)
    {
      resent := (resent + 1) % U32;
      rejected := (rejected + 1) % U32;
      handlingResend := true;
      slots[i] := slots[i].(resendAttempts := (slots[i].resendAttempts + 1) % U32);
      return if slots[i].resendAttempts > RESEND_LIMIT then Rejected else Resend(slots[i].sequence);
    }

    /** text: how the line reads as free text; it matters only when the line is not a numbered reply. */
    method HandleResponse(line: string, text: Reply) returns (outcome: Outcome)
      requires Valid()
      requires !text.Sync? && !text.DamagedSync?
      modifies this, slots
      ensures Valid()
      ensures (Model(), outcome) == Handle(old(Model()), if Parse(line) == None then text else Parse(line).value)
    {
      ParsedKinds(line);
      DamagedIsRejected(Model());
      hide Handle, Parse;
      var parsed := ParseSync(line);
      if parsed != None {
        if parsed.value == DamagedSync {
          rejected := (rejected + 1) % U32;
          return Rejected;
        }
        outcome := HandleSyncReply(parsed.value.code, parsed.value.sequence, parsed.value.free);
        return;
      }
      outcome := HandleText(text);
    }

    method HandleSyncReply(code: char, s: byte, free: byte) returns (outcome: Outcome)
      requires Valid()
      modifies this, slots
      ensures Valid() && (Model(), outcome) == Handle(old(Model()), Sync(code, s, free))
    {
      freeSpace, freeKnown := free, true;
      if code == 'q' {
        return Ignored;
      }
      if code == 'o' {
        handlingResend := false;
        var i := SlotForSequence(s);
        if i == -1 {
          return Ignored;
        }
        AcknowledgeThrough(s, true);
        return Handled;
      }
      var i := PendingSlotForSequence(s);
      if i == -1 {
        rejected := (rejected + 1) % U32;
        return Ignored;
      }
      if handlingResend {
        return Ignored;
      }
      AcknowledgeThrough(s, false);
      outcome := Request(i);
    }

    method HandleText(text: Reply) returns (outcome: Outcome)
      requires Valid()
      requires !text.Sync? && !text.DamagedSync?
      modifies this, slots
      ensures Valid() && (Model(), outcome) == Handle(old(Model()), text)
    {
      match text {
        case ProtoExpected(s) =>
          lastExpected := s;
          rejected := (rejected + 1) % U32;
          return ExpectedReported;
        case ResendText(number) =>
          if handlingResend {
            return Ignored;
          }
          if number == None {
            rejected := (rejected + 1) % U32;
            return Handled;
          }
          var i := PendingSlotForSequence(number.value);
          if i == -1 {
            rejected := (rejected + 1) % U32;
            return Ignored;
          }
          outcome := Request(i);
        case OkText(number) =>
          if number != None {
            var i := SlotForSequence(number.value);
            if i != -1 {
              slots[i] := slots[i].(acknowledged := true);
              acked := (acked + 1) % U32;
            }
          } else {
            AcknowledgeFirstPending();
          }
          return Handled;
        case ErrorText =>
          rejected := (rejected + 1) % U32;
          return Rejected;
        case OtherText =>
          return Ignored;
      }
    }

    method AcknowledgeFirstPending()
      requires Valid()
      modifies this, slots
      ensures Valid() && Model() == Handle(old(Model()), OkText(None)).0
    {
      var i := 0;
      while i < WINDOW
        invariant 0 <= i <= WINDOW
        invariant First(slots[..], Pending, 0) == First(slots[..], Pending, i)
        invariant Model() == old(Model())
      {
        if slots[i].occupied && !slots[i].acknowledged {
          slots[i] := slots[i].(acknowledged := true);
          acked := (acked + 1) % U32;
          return;
        }
        i := i + 1;
      }
    }

    method GetResendPacket(sequence: byte, out: array<byte>) returns (ok: bool, written: nat)
      requires Valid()
      modifies out
      ensures var i := Lookup(Model().slots, sequence);
        && (ok <==> i != -1 && |Model().slots[i].command| <= 255 && |Model().slots[i].command| + 6 <= out.Length)
        && (ok ==> written <= out.Length && out[..written] == Frame(Model().slots[i].sequence, Model().slots[i].command))
    {
      var i := SlotForSequence(sequence);
      if i == -1 {
        return false, 0;
      }
      ok, written := Encode(slots[i].sequence, slots[i].command, out);
    }
  }

  function AckAt(st: State, sequence: byte, inclusive: bool, i: nat): State
    requires i < |st.slots|
  {
    if Marks(st.slots[i], sequence, inclusive) then AckOne(st, i) else st
  }

  /** The state when the scan has passed the first n slots. */
  function AckFirst(st: State, sequence: byte, inclusive: bool, n: nat): (r: State)
    requires n <= |st.slots|
    ensures |r.slots| == |st.slots|
  {
    if n == 0 then st else AckAt(AckFirst(st, sequence, inclusive, n - 1), sequence, inclusive, n - 1)
  }

  lemma {:induction false} AckFirstExplicit(st: State, sequence: byte, inclusive: bool, n: nat)
    requires n <= |st.slots|
    ensures var r := AckFirst(st, sequence, inclusive, n);
      && r == st.(slots := r.slots, acked := CountUp(st.acked, Count(st.slots, Marker(sequence, inclusive), n)))
      && forall i :: 0 <= i < |st.slots| ==>
        r.slots[i] == if i < n then AckSlot(st.slots[i], sequence, inclusive) else st.slots[i]
  {
    if n > 0 {
      AckFirstExplicit(st, sequence, inclusive, n - 1);
    }
  }

  lemma AckFirstIsAckThrough(st: State, sequence: byte, inclusive: bool)
    ensures AckFirst(st, sequence, inclusive, |st.slots|) == AckThrough(st, sequence, inclusive)
  {
    AckFirstExplicit(st, sequence, inclusive, |st.slots|);
    assert AckFirst(st, sequence, inclusive, |st.slots|).slots == AckSlots(st.slots, sequence, inclusive);
  }
}
