/** The sender's side of the link as a value: what each operation of the flow controller does to it. */
module FlowState {
  import opened Casts
  import opened MarlinPacket

  const WINDOW := 32
  const MODULO := 255
  const RESEND_LIMIT := 8
  const U32 := 0x1_0000_0000

  type u32 = i: int | 0 <= i < U32

  datatype Slot = Slot(sequence: byte, command: string, occupied: bool, acknowledged: bool,
                       barrier: bool, sendOrder: u32, resendAttempts: u32)

  const EMPTY_SLOT := Slot(0, "", false, false, false, 0, 0)

  datatype State = State(nextSequence: byte, lastExpected: byte, freeSpace: byte, freeKnown: bool,
                         handlingResend: bool, slots: seq<Slot>,
                         sent: u32, acked: u32, resent: u32, rejected: u32)

  // ---- Barriers ----

  predicate StartsWith(command: string, prefix: string) {
    && |prefix| <= |command| && command[..|prefix|] == prefix
    && (|command| == |prefix| || command[|prefix|] == ' ' || command[|prefix|] == '\t')
  }

  predicate IsBarrier(command: string) {
    || StartsWith(command, "G28") || StartsWith(command, "G90") || StartsWith(command, "G91")
    || StartsWith(command, "G92") || StartsWith(command, "M400") || StartsWith(command, "M82")
    || StartsWith(command, "M83") || StartsWith(command, "M109") || StartsWith(command, "M190")
  }

  // ---- Scans over the slots ----

  predicate Pending(s: Slot) {
    s.occupied && !s.acknowledged
  }

  /** The lowest index from i on whose slot satisfies p, or -1. */
  function First(slots: seq<Slot>, p: Slot -> bool, i: nat): (r: int)
    requires i <= |slots|
    ensures r == -1 ==> forall j :: i <= j < |slots| ==> !p(slots[j])
    ensures r != -1 ==> i <= r < |slots| && p(slots[r]) && forall j :: i <= j < r ==> !p(slots[j])
    decreases |slots| - i
  {
    if i == |slots| then -1 else if p(slots[i]) then i else First(slots, p, i + 1)
  }

  function Carries(sequence: byte): Slot -> bool {
    (s: Slot) => s.occupied && s.sequence == sequence
  }

  function Lookup(slots: seq<Slot>, sequence: byte): int {
    First(slots, Carries(sequence), 0)
  }

  function LookupPending(slots: seq<Slot>, sequence: byte): int {
    var i := Lookup(slots, sequence);
    if i == -1 || slots[i].acknowledged then -1 else i
  }

  /** An unused slot if there is one, else an acknowledged one; none while the controller has no room. */
  function FirstFree(st: State): int {
    if st.freeKnown && st.freeSpace == 0 then -1 else
    var unused := First(st.slots, (s: Slot) => !s.occupied, 0);
    if unused != -1 then unused else First(st.slots, (s: Slot) => s.acknowledged, 0)
  }

  predicate CanSend(st: State) {
    FirstFree(st) != -1
  }

  /** How many of the first n slots satisfy p. */
  function Count(slots: seq<Slot>, p: Slot -> bool, n: nat): (r: nat)
    requires n <= |slots|
    ensures r <= n
  {
    if n == 0 then 0 else Count(slots, p, n - 1) + if p(slots[n - 1]) then 1 else 0
  }

  function Inflight(st: State): nat {
    Count(st.slots, Pending, |st.slots|)
  }

  predicate HasPendingBarrier(st: State) {
    exists i :: 0 <= i < |st.slots| && Pending(st.slots[i]) && st.slots[i].barrier
  }

  // ---- Operations ----

  function Fresh(): State {
    State(0, 0, 0, false, false, seq(WINDOW, _ => EMPTY_SLOT), 0, 0, 0, 0)
  }

  function Clear(st: State): State {
    st.(slots := seq(|st.slots|, _ => EMPTY_SLOT), freeSpace := 0, freeKnown := false)
  }

  function Resync(st: State): State {
    Clear(st).(nextSequence := st.lastExpected, handlingResend := false)
  }

  function NextSequence(sequence: byte): byte {
    if (sequence + 1) % 256 >= MODULO then 0 else (sequence + 1) % 256
  }

  datatype Prepared = Ready(sequence: byte) | Full | Invalid

  function NewSlot(st: State, command: string): Slot {
    Slot(st.nextSequence, command, true, false, IsBarrier(command), st.sent, 0)
  }

  /** room: the size of the caller's packet buffer. */
  function Prepare(st: State, command: string, room: nat): (State, Prepared) {
    var i := FirstFree(st);
    if i == -1 then (st, Full) else
    var advanced := st.(nextSequence := NextSequence(st.nextSequence));
    if |command| > 255 || |command| + 6 > room then (advanced, Invalid) else
    (advanced.(slots := st.slots[i := NewSlot(st, command)],
               freeSpace := if st.freeKnown && st.freeSpace > 0 then st.freeSpace - 1 else st.freeSpace,
               sent := (st.sent + 1) % U32),
     Ready(st.nextSequence))
  }

  /** The sequence is the acknowledged one or one of the 31 before it, modulo 255. */
  predicate NotNewer(sequence: byte, acknowledged: byte) {
    if sequence >= MODULO || acknowledged >= MODULO then sequence == acknowledged else
    (if acknowledged >= sequence then acknowledged - sequence else acknowledged + MODULO - sequence) < WINDOW
  }

  /** Which slots an acknowledgement marks. */
  predicate Marks(s: Slot, sequence: byte, inclusive: bool) {
    Pending(s) && if s.sequence == sequence then inclusive else NotNewer(s.sequence, sequence)
  }

  function Marker(sequence: byte, inclusive: bool): Slot -> bool {
    (s: Slot) => Marks(s, sequence, inclusive)
  }

  function AckSlot(s: Slot, sequence: byte, inclusive: bool): Slot {
    if Marks(s, sequence, inclusive) then s.(acknowledged := true) else s
  }

  function AckSlots(slots: seq<Slot>, sequence: byte, inclusive: bool): seq<Slot> {
    seq(|slots|, i requires 0 <= i < |slots| => AckSlot(slots[i], sequence, inclusive))
  }

  function AckThrough(st: State, sequence: byte, inclusive: bool): State {
    st.(slots := AckSlots(st.slots, sequence, inclusive),
        acked := CountUp(st.acked, Count(st.slots, Marker(sequence, inclusive), |st.slots|)))
  }

  datatype Outcome = Ignored | Handled | Resend(sequence: byte) | Rejected | ExpectedReported

  function Reject(st: State): State {
    st.(rejected := (st.rejected + 1) % U32)
  }

  function RequestResend(st: State, i: nat): (State, Outcome)
    requires i < |st.slots|
  {
    var attempts := (st.slots[i].resendAttempts + 1) % U32;
    (Reject(st).(resent := (st.resent + 1) % U32, handlingResend := true,
                 slots := st.slots[i := st.slots[i].(resendAttempts := attempts)]),
     if attempts > RESEND_LIMIT then Rejected else Resend(st.slots[i].sequence))
  }

  function AckOne(st: State, i: nat): State
    requires i < |st.slots|
  {
    st.(slots := st.slots[i := st.slots[i].(acknowledged := true)], acked := (st.acked + 1) % U32)
  }

  /** A line from the controller, after scanning. The last five are free text. */
  datatype Reply =
    | Sync(code: char, sequence: byte, free: byte)
    | DamagedSync
    | ProtoExpected(expected: byte)
    | ResendText(number: Option<byte>)
    | OkText(number: Option<byte>)
    | ErrorText
    | OtherText

  function Handle(st: State, reply: Reply): (State, Outcome) {
    match reply
    case Sync(code, s, free) => HandleSync(st.(freeSpace := free, freeKnown := true), code, s)
    case DamagedSync => (Reject(st), Rejected)
    case ProtoExpected(s) => (Reject(st).(lastExpected := s), ExpectedReported)
    case ResendText(number) =>
      if st.handlingResend then (st, Ignored)
      else if number == None then (Reject(st), Handled)
      else
        var i := LookupPending(st.slots, number.value);
        if i == -1 then (Reject(st), Ignored) else RequestResend(st, i)
    case OkText(number) =>
      var i := if number == None then First(st.slots, Pending, 0) else Lookup(st.slots, number.value);
      (if i == -1 then st else AckOne(st, i), Handled)
    case ErrorText => (Reject(st), Rejected)
    case OtherText => (st, Ignored)
  }

  function HandleSync(st: State, code: char, s: byte): (State, Outcome) {
    if code == 'q' then (st, Ignored)
    else if code == 'o' then
      var calm := st.(handlingResend := false);
      if Lookup(st.slots, s) == -1 then (calm, Ignored) else (AckThrough(calm, s, true), Handled)
    else
      var i := LookupPending(st.slots, s);
      if i == -1 then (Reject(st), Ignored)
      else if st.handlingResend then (st, Ignored)
      else RequestResend(AckThrough(st, s, false), i)
  }

  /** A 32-bit counter after k increments. */
  function CountUp(base: u32, k: nat): u32 {
    if k == 0 then base else (CountUp(base, k - 1) + 1) % U32
  }

  lemma IncrementModulo(x: nat)
    ensures (x % U32 + 1) % U32 == (x + 1) % U32
  {
    var q, r := x / U32, x % U32;
    assert x == U32 * q + r;
    if r == U32 - 1 {
      assert x + 1 == U32 * (q + 1);
    }
  }

  lemma {:induction false} CountUpIsModulo(base: u32, k: nat)
    ensures CountUp(base, k) == (base + k) % U32
  {
    if k > 0 {
      CountUpIsModulo(base, k - 1);
      IncrementModulo(base + k - 1);
    }
  }

  // ---- What holds without any assumption about the controller ----

  lemma {:induction false} CountBound(slots: seq<Slot>, p: Slot -> bool, n: nat, i: nat)
    requires i < n <= |slots| && !p(slots[i])
    ensures Count(slots, p, n) < n
  {
    if i < n - 1 {
      CountBound(slots, p, n - 1, i);
    }
  }

  lemma {:induction false} CountPointwise(a: seq<Slot>, b: seq<Slot>, p: Slot -> bool, n: nat)
    requires n <= |a| == |b|
    requires forall i :: 0 <= i < n ==> p(b[i]) ==> p(a[i])
    ensures Count(b, p, n) <= Count(a, p, n)
  {
    if n > 0 {
      CountPointwise(a, b, p, n - 1);
    }
  }

  lemma {:induction false} CountUpdate(slots: seq<Slot>, p: Slot -> bool, n: nat, i: nat, s: Slot)
    requires i < |slots| && n <= |slots|
    ensures Count(slots[i := s], p, n)
         == Count(slots, p, n) + if i < n then (if p(s) then 1 else 0) - (if p(slots[i]) then 1 else 0) else 0
  {
    if n > 0 {
      CountUpdate(slots, p, n - 1, i, s);
    }
  }

  lemma {:induction false} CountNone(slots: seq<Slot>, p: Slot -> bool, n: nat)
    requires n <= |slots| && forall i :: 0 <= i < n ==> !p(slots[i])
    ensures Count(slots, p, n) == 0
  {
    if n > 0 {
      CountNone(slots, p, n - 1);
    }
  }

  /** Every marked slot leaves the flight. */
  lemma {:induction false} MarkedLeave(slots: seq<Slot>, target: seq<Slot>, sequence: byte, inclusive: bool, n: nat)
    requires n <= |slots| == |target|
    requires forall i :: 0 <= i < n ==> target[i] == AckSlot(slots[i], sequence, inclusive)
    ensures Count(slots, Pending, n) == Count(target, Pending, n) + Count(slots, Marker(sequence, inclusive), n)
  {
    if n > 0 {
      MarkedLeave(slots, target, sequence, inclusive, n - 1);
    }
  }

  /** A successful preparation puts exactly one more packet in flight; permission to send is enough for room. */
  lemma PrepareAddsOne(st: State, command: string, room: nat)
    requires |command| <= 255 && |command| + 6 <= room
    ensures CanSend(st) <==> Prepare(st, command, room).1.Ready?
    ensures CanSend(st) ==> Inflight(Prepare(st, command, room).0) == Inflight(st) + 1
  {
    var i := FirstFree(st);
    if i != -1 {
      assert !Pending(st.slots[i]);
      CountUpdate(st.slots, Pending, |st.slots|, i, NewSlot(st, command));
    }
  }

  /** No reply of any kind puts a packet in flight. */
  lemma HandleNeverAddsInflight(st: State, reply: Reply)
    ensures Inflight(Handle(st, reply).0) <= Inflight(st)
    ensures |Handle(st, reply).0.slots| == |st.slots|
  {
    CountPointwise(st.slots, Handle(st, reply).0.slots, Pending, |st.slots|);
  }

  lemma ClearEmpties(st: State)
    ensures Inflight(Clear(st)) == 0 == Inflight(Resync(st))
    ensures !HasPendingBarrier(Clear(st)) && !HasPendingBarrier(Resync(st))
  {
    CountNone(Clear(st).slots, Pending, |st.slots|);
  }
}
