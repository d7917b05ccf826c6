/** What the flow controller does to requests, refusals and barriers, told without its own words. */
module FlowLaws {
  import opened Casts
  import opened FlowState
  import opened MarlinPacket
  import opened MotionSender
  import opened SyncLine

  // ---- Barriers ----

  predicate Blank(c: char) {
    c == ' ' || c == '\t'
  }

  /** A command up to the first space or tab. */
  function FirstWord(command: string): string {
    if command == "" || Blank(command[0]) then "" else [command[0]] + FirstWord(command[1..])
  }

  lemma {:induction false} StartsWithIff(command: string, word: string)
    requires forall i :: 0 <= i < |word| ==> !Blank(word[i])
    ensures StartsWith(command, word) <==> FirstWord(command) == word
    decreases |command|
  {
    if command != "" && word != "" && command[0] == word[0] {
      StartsWithIff(command[1..], word[1..]);
      StartsWithTail(command, word);
    }
  }

  lemma StartsWithTail(command: string, word: string)
    requires command != "" && word != "" && command[0] == word[0]
    ensures StartsWith(command, word) <==> StartsWith(command[1..], word[1..])
  {
    if |word| <= |command| {
      assert command[..|word|] == [command[0]] + command[1..][..|word| - 1] && word == [word[0]] + word[1..];
    }
  }

  /** The barriers: homing, the positioning and extrusion modes, setting the position, waiting for moves and for
      heaters. */
  lemma BarrierIff(command: string)
    ensures IsBarrier(command)
       <==> FirstWord(command) in ["G28", "G90", "G91", "G92", "M82", "M83", "M109", "M190", "M400"]
  {
    hide StartsWith, FirstWord;
    StartsWithIff(command, "G28");
    StartsWithIff(command, "G90");
    StartsWithIff(command, "G91");
    StartsWithIff(command, "G92");
    StartsWithIff(command, "M82");
    StartsWithIff(command, "M83");
    StartsWithIff(command, "M109");
    StartsWithIff(command, "M190");
    StartsWithIff(command, "M400");
  }

  /** What is sent goes in flight with all of its bytes, and a barrier then stands until it is acknowledged. */
  lemma SentIsInFlight(st: State, command: string)
    ensures SendOutcome(st, command).1 == Sent <==> command != "" && |command| <= 255 && CanSend(st)
    ensures SendOutcome(st, command).1 == FlowFull <==> command != "" && !CanSend(st)
    ensures SendOutcome(st, command).1 == Sent ==>
              exists i :: 0 <= i < |st.slots| && var t := SendOutcome(st, command).0;
                && |t.slots| == |st.slots| && Pending(t.slots[i]) && t.slots[i].command == command
                && t.slots[i].sequence == st.nextSequence
                && (FirstWord(command) in ["G28", "G90", "G91", "G92", "M82", "M83", "M109", "M190", "M400"] ==>
                      HasPendingBarrier(t))
  {
    hide IsBarrier;
    BarrierIff(command);
    var t := SendOutcome(st, command).0;
    if SendOutcome(st, command).1 == Sent {
      var i := FirstFree(st);
      assert Pending(t.slots[i]) && t.slots[i].barrier == IsBarrier(command);
    }
  }

  // ---- Numbered replies ----

  /** The value of hexadecimal digits, of either case, the first the most significant. */
  function Hexadecimal(text: string): Option<nat> {
    if text == "" then Some(0) else
    var n := |text| - 1;
    var upper := Hexadecimal(text[..n]);
    if upper == None then None
    else if '0' <= text[n] <= '9' then Some(16 * upper.value + (text[n] as int - '0' as int))
    else if 'a' <= text[n] <= 'f' then Some(16 * upper.value + 10 + (text[n] as int - 'a' as int))
    else if 'A' <= text[n] <= 'F' then Some(16 * upper.value + 10 + (text[n] as int - 'A' as int))
    else None
  }

  lemma DigitIs(upper: string, c: char)
    ensures Hexadecimal("") == Some(0)
    ensures Hexadecimal(upper + [c])
         == if HexValue(c) < 0 || Hexadecimal(upper) == None then None
            else Some(16 * Hexadecimal(upper).value + HexValue(c))
  {
    assert (upper + [c])[..|upper|] == upper;
  }

  lemma HexByteIs(hi: char, lo: char)
    ensures HexByte(hi, lo) == Hexadecimal([hi, lo])
  {
    DigitIs("", hi);
    DigitIs([hi], lo);
    hide HexValue, Hexadecimal;
    assert "" + [hi] == [hi] && [hi] + [lo] == [hi, lo];
  }

  /** A numbered reply: a letter, the number, the free space and the checksum of those five, in this order. */
  lemma NumberedIff(line: string, reply: Reply)
    ensures Parse(line) == Some(reply) && reply.Sync? <==>
              && |line| == 7 && line[0] in "orq" && reply.Sync? && reply.code == line[0]
              && Hexadecimal(line[1..3]) == Some(reply.sequence) && Hexadecimal(line[3..5]) == Some(reply.free)
              && Hexadecimal(line[5..7]) == Some(CheckByte(line))
  {
    hide HexByte, Hexadecimal, CheckByte;
    if |line| == 7 {
      HexByteIs(line[1], line[2]);
      HexByteIs(line[3], line[4]);
      HexByteIs(line[5], line[6]);
      assert line[1..3] == [line[1], line[2]] && line[3..5] == [line[3], line[4]] && line[5..7] == [line[5], line[6]];
    }
  }

  // ---- Requests for a resend ----

  predicate CallsResend(reply: Reply) {
    (reply.Sync? && reply.code != 'q' && reply.code != 'o') || reply.ResendText?
  }

  function Number(reply: Reply): Option<byte> {
    match reply
    case Sync(_, s, _) => Some(s)
    case ResendText(number) => number
    case _ => None
  }

  /** A line is refused: it is damaged, it reports an error, or it asks for a packet for more than the eighth time. */
  lemma RejectedIff(st: State, reply: Reply)
    ensures Handle(st, reply).1 == Rejected <==>
              || reply == DamagedSync || reply == ErrorText
              || (CallsResend(reply) && !st.handlingResend && Number(reply) != None
                  && var i := LookupPending(st.slots, Number(reply).value);
                     i != -1 && (st.slots[i].resendAttempts + 1) % U32 > 8)
  {
    hide Lookup, AckSlots;
    if Number(reply) != None {
      AcknowledgingKeeps(st, Number(reply).value);
    }
  }

  lemma AcknowledgingKeeps(st: State, s: byte)
    ensures var i := LookupPending(st.slots, s);
      i != -1 ==>
        && 0 <= i < |st.slots| && |AckThrough(st, s, false).slots| == |st.slots| && st.slots[i].sequence == s
        && AckThrough(st, s, false).slots[i].sequence == s
        && AckThrough(st, s, false).slots[i].resendAttempts == st.slots[i].resendAttempts
  {
  }

  /** A request is heeded for a packet in flight; until a reply says 'o', no other request is. */
  lemma ResendIff(st: State, reply: Reply, s: byte)
    ensures Handle(st, reply).1 == Resend(s) <==>
              && CallsResend(reply) && !st.handlingResend && Number(reply) == Some(s)
              && var i := LookupPending(st.slots, s); i != -1 && (st.slots[i].resendAttempts + 1) % U32 <= 8
    ensures Handle(st, reply).1.Resend? ==> Handle(st, reply).0.handlingResend
    ensures st.handlingResend && !(reply.Sync? && reply.code == 'o') ==> Handle(st, reply).0.handlingResend
    ensures reply.Sync? && reply.code == 'o' ==> !Handle(st, reply).0.handlingResend
  {
    hide Lookup, AckSlots;
    if Number(reply) != None {
      AcknowledgingKeeps(st, Number(reply).value);
    }
  }

  function HandleAll(st: State, replies: seq<Reply>): State {
    if replies == [] then st else Handle(HandleAll(st, replies[..|replies| - 1]), replies[|replies| - 1]).0
  }

  /** After a request is heeded none is again before a numbered 'o', whatever else comes. */
  lemma {:induction false} OneRequestAtATime(st: State, replies: seq<Reply>, next: Reply)
    requires st.handlingResend && forall i :: 0 <= i < |replies| ==> !(replies[i].Sync? && replies[i].code == 'o')
    ensures HandleAll(st, replies).handlingResend && !Handle(HandleAll(st, replies), next).1.Resend?
  {
    hide Handle;
    if replies != [] {
      OneRequestAtATime(st, replies[..|replies| - 1], next);
      ResendIff(HandleAll(st, replies[..|replies| - 1]), replies[|replies| - 1], 0);
    }
    if Handle(HandleAll(st, replies), next).1.Resend? {
      ResendIff(HandleAll(st, replies), next, Handle(HandleAll(st, replies), next).1.sequence);
    }
  }

  /** The same packet asked for again and again, each time after an 'o' for a number q. */
  function Insisting(st: State, s: byte, q: byte, n: nat): (State, Outcome) {
    if n == 0 then (st, Ignored) else
    Handle(Handle(Insisting(st, s, q, n - 1).0, Sync('o', q, 1)).0, ResendText(Some(s)))
  }

  /** Eight requests for a packet are heeded, the ninth is refused. */
  lemma {:induction false} EightRequests(st: State, s: byte, q: byte, n: nat)
    requires 1 <= n <= 9 && Lookup(st.slots, q) == -1
    requires LookupPending(st.slots, s) != -1 && st.slots[LookupPending(st.slots, s)].resendAttempts == 0
    ensures Insisting(st, s, q, n).1 == if n <= 8 then Resend(s) else Rejected
    ensures var t, i := Insisting(st, s, q, n).0, LookupPending(st.slots, s);
      && LookupPending(t.slots, s) == i && |t.slots| == |st.slots| && t.slots[i].resendAttempts == n
      && Lookup(t.slots, q) == -1
  {
    hide LookupPending, Lookup, Handle;
    if n > 1 {
      EightRequests(st, s, q, n - 1);
    }
    OneMoreRequest(Insisting(st, s, q, n - 1).0, s, q);
  }

  lemma OneMoreRequest(st: State, s: byte, q: byte)
    requires LookupPending(st.slots, s) != -1 && Lookup(st.slots, q) == -1
    requires st.slots[LookupPending(st.slots, s)].resendAttempts < 9
    ensures var i := LookupPending(st.slots, s);
      var r := Handle(Handle(st, Sync('o', q, 1)).0, ResendText(Some(s)));
      var attempts := st.slots[i].resendAttempts + 1;
      && r.1 == (if attempts <= 8 then Resend(s) else Rejected)
      && LookupPending(r.0.slots, s) == i && |r.0.slots| == |st.slots| && r.0.slots[i].resendAttempts == attempts
      && Lookup(r.0.slots, q) == -1
  {
    var attempts := st.slots[LookupPending(st.slots, s)].resendAttempts + 1;
    hide LookupPending, Lookup;
    AttemptNoted(st.slots, s, q, attempts);
  }

  lemma AttemptNoted(slots: seq<Slot>, s: byte, q: byte, attempts: u32)
    requires LookupPending(slots, s) != -1 && Lookup(slots, q) == -1
    ensures var i := LookupPending(slots, s);
      && 0 <= i < |slots| && slots[i].sequence == s
      && LookupPending(slots[i := slots[i].(resendAttempts := attempts)], s) == i
      && Lookup(slots[i := slots[i].(resendAttempts := attempts)], q) == -1
  {
    var i := Lookup(slots, s);
    var noted := slots[i := slots[i].(resendAttempts := attempts)];
    assert forall j :: 0 <= j < i ==> !Carries(s)(noted[j]);
    assert Carries(s)(noted[i]);
    assert forall j :: 0 <= j < |slots| ==> !Carries(q)(slots[j]);
    assert forall j :: 0 <= j < |slots| ==> !Carries(q)(noted[j]);
  }

  /** After a resynchronisation a new packet can be asked for at once, whatever was asked for before. */
  lemma RequestAfterResync(st: State, s: byte, command: string, room: nat)
    requires |st.slots| == WINDOW && |command| <= 255 && |command| + 6 <= room
    ensures var lost := Handle(st, ProtoExpected(s)).0;
      var t := Prepare(Resync(lost), command, room);
      t.1 == Ready(s) && Handle(t.0, ResendText(Some(s))).1 == Resend(s)
  {
    var t := Prepare(Resync(Handle(st, ProtoExpected(s)).0), command, room);
    assert Carries(s)(t.0.slots[0]);
  }

  // ---- The window ----

  lemma {:induction false} NotAllPending(slots: seq<Slot>, n: nat)
    requires n <= |slots|
    ensures Count(slots, Pending, n) < n <==> exists i :: 0 <= i < n && !Pending(slots[i])
  {
    if n > 0 {
      NotAllPending(slots, n - 1);
      if i :| 0 <= i < n && !Pending(slots[i]) {
        CountBound(slots, Pending, n, i);
      }
    }
  }

  /** There is room as long as fewer than thirty-two packets are in flight and the controller has not said it has none. */
  lemma RoomIff(st: State)
    requires |st.slots| == 32
    ensures CanSend(st) <==> !(st.freeKnown && st.freeSpace == 0) && Inflight(st) < 32
  {
    NotAllPending(st.slots, 32);
    var unused := First(st.slots, (s: Slot) => !s.occupied, 0);
    if Inflight(st) < 32 {
      var i :| 0 <= i < 32 && !Pending(st.slots[i]);
      assert !st.slots[i].occupied || st.slots[i].acknowledged;
    }
  }

  /** Numbers run from 0 to 254 and begin again; an acknowledgement covers its own number and the 31 before it. */
  lemma NumbersGoRound(s: byte, a: byte)
    ensures NextSequence(s) == if s >= 254 then 0 else s + 1
    ensures s <= 254 && a <= 254 ==> (NotNewer(s, a) <==> s <= a < s + 32 || s <= a + 255 < s + 32)
    ensures s == 255 || a == 255 ==> (NotNewer(s, a) <==> s == a)
  {
  }
}
