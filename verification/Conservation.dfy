/** Conservation of packets: what was sent is acknowledged, in flight, or was discarded, whatever lines arrive. */
module Conservation {
  import opened Casts
  import opened FlowState
  import opened MarlinPacket

  datatype Event = Send(command: string, room: nat) | Hear(reply: Reply) | Empty | Restart

  function Next(st: State, e: Event): State {
    match e
    case Send(command, room) => Prepare(st, command, room).0
    case Hear(reply) => Handle(st, reply).0
    case Empty => Clear(st)
    case Restart => Resync(st)
  }

  function After(st: State, events: seq<Event>): State {
    if events == [] then st else Next(After(st, events[..|events| - 1]), events[|events| - 1])
  }

  /** The packets in flight that a step throws away. */
  function Discards(st: State, e: Event): nat {
    if e.Empty? || e.Restart? then Inflight(st) else 0
  }

  function Discarded(st: State, events: seq<Event>): nat {
    if events == [] then 0
    else
      var before := events[..|events| - 1];
      Discarded(st, before) + Discards(After(st, before), events[|events| - 1])
  }

  /** The 32-bit counters add up. */
  predicate Balanced(st: State, discarded: nat) {
    st.sent == (st.acked + Inflight(st) + discarded) % U32
  }

  /** An "ok N" for a slot that is acknowledged already. */
  predicate CountsTwice(st: State, e: Event) {
    && e.Hear? && e.reply.OkText? && e.reply.number.Some?
    && var i := Lookup(st.slots, e.reply.number.value); i != -1 && st.slots[i].acknowledged
  }

  lemma {:induction false} Wraps(x: nat, q: nat)
    ensures (x + U32 * q) % U32 == x % U32
  {
    if q > 0 {
      Wraps(x, q - 1);
      WrapsOnce(x + U32 * (q - 1));
      assert x + U32 * q == x + U32 * (q - 1) + U32;
    }
  }

  lemma WrapsOnce(x: nat)
    ensures (x + U32) % U32 == x % U32
  {
    var q, r := x / U32, x % U32;
    assert x + U32 == U32 * (q + 1) + r;
  }

  lemma WrappedFirst(x: nat, y: nat)
    ensures (x % U32 + y) % U32 == (x + y) % U32
  {
    var q, r := x / U32, x % U32;
    assert x + y == (r + y) + U32 * q;
    Wraps(r + y, q);
  }

  /** A wrapped counter is never one ahead of itself. */
  lemma NeverOneAhead(x: nat)
    ensures (x + 1) % U32 != x % U32
  {
    IncrementModulo(x);
  }

  lemma MarkedAreAcknowledged(st: State, s: byte, inclusive: bool, discarded: nat)
    requires Balanced(st, discarded)
    ensures Balanced(AckThrough(st, s, inclusive), discarded)
  {
    hide Marks, Pending;
    var n, t := |st.slots|, AckThrough(st, s, inclusive);
    var marked := Count(st.slots, Marker(s, inclusive), n);
    MarkedLeave(st.slots, t.slots, s, inclusive, n);
    CountUpIsModulo(st.acked, marked);
    WrappedFirst(st.acked + marked, Inflight(t) + discarded);
  }

  lemma RequestBalances(st: State, i: nat, discarded: nat)
    requires i < |st.slots| && Balanced(st, discarded)
    ensures Balanced(RequestResend(st, i).0, discarded)
  {
    CountUpdate(st.slots, Pending, |st.slots|, i, st.slots[i].(resendAttempts := (st.slots[i].resendAttempts + 1) % U32));
  }

  lemma AckOneBalancesIff(st: State, i: nat, discarded: nat)
    requires i < |st.slots| && st.slots[i].occupied && Balanced(st, discarded)
    ensures Balanced(AckOne(st, i), discarded) <==> !st.slots[i].acknowledged
  {
    var total := st.acked + Inflight(st) + discarded;
    CountUpdate(st.slots, Pending, |st.slots|, i, st.slots[i].(acknowledged := true));
    WrappedFirst(st.acked + 1, Inflight(AckOne(st, i)) + discarded);
    NeverOneAhead(total);
  }

  lemma SendBalances(st: State, command: string, room: nat, discarded: nat)
    requires Balanced(st, discarded)
    ensures Balanced(Prepare(st, command, room).0, discarded)
  {
    var i := FirstFree(st);
    if i != -1 {
      CountUpdate(st.slots, Pending, |st.slots|, i, NewSlot(st, command));
      IncrementModulo(st.acked + Inflight(st) + discarded);
    }
  }

  lemma SyncBalances(st: State, code: char, s: byte, discarded: nat)
    requires Balanced(st, discarded)
    ensures Balanced(HandleSync(st, code, s).0, discarded)
  {
    hide AckThrough, RequestResend;
    var calm := st.(handlingResend := false);
    MarkedAreAcknowledged(calm, s, true, discarded);
    MarkedAreAcknowledged(st, s, false, discarded);
    var i := LookupPending(st.slots, s);
    if i != -1 {
      SameLength(st, s);
      RequestBalances(AckThrough(st, s, false), i, discarded);
    }
  }

  lemma SameLength(st: State, s: byte)
    ensures |AckThrough(st, s, false).slots| == |st.slots|
  {
  }

  lemma EmptyingBalances(st: State, discarded: nat)
    requires Balanced(st, discarded)
    ensures Balanced(Clear(st), discarded + Inflight(st)) && Balanced(Resync(st), discarded + Inflight(st))
  {
    ClearEmpties(st);
  }

  /** A step keeps the counters in balance exactly when it is not a second acknowledgement by number. */
  lemma StepBalancesIff(st: State, e: Event, discarded: nat)
    requires Balanced(st, discarded)
    ensures Balanced(Next(st, e), discarded + Discards(st, e)) <==> !CountsTwice(st, e)
  {
    hide Balanced, Clear, Resync, Prepare, HandleSync, RequestResend, AckOne;
    match e
    case Send(command, room) => SendBalances(st, command, room, discarded);
    case Hear(reply) => HearBalancesIff(st, reply, discarded);
    case Empty => EmptyingBalances(st, discarded);
    case Restart => EmptyingBalances(st, discarded);
  }

  lemma HearBalancesIff(st: State, reply: Reply, discarded: nat)
    requires Balanced(st, discarded)
    ensures Balanced(Handle(st, reply).0, discarded) <==> !CountsTwice(st, Hear(reply))
  {
    hide HandleSync, RequestResend, AckOne;
    match reply
    case Sync(code, s, free) => SyncBalances(st.(freeSpace := free, freeKnown := true), code, s, discarded);
    case ResendText(number) =>
      if number.Some? && LookupPending(st.slots, number.value) != -1 {
        RequestBalances(st, LookupPending(st.slots, number.value), discarded);
      }
    case OkText(number) =>
      var i := if number == None then First(st.slots, Pending, 0) else Lookup(st.slots, number.value);
      if i != -1 {
        AckOneBalancesIff(st, i, discarded);
      }
    case _ =>
  }

  /** Over every run in which no number is acknowledged twice: sent is acknowledged, in flight or discarded. */
  lemma {:induction false} NothingIsLost(events: seq<Event>)
    requires forall i :: 0 <= i < |events| ==> !CountsTwice(After(Fresh(), events[..i]), events[i])
    ensures var st := After(Fresh(), events);
      st.sent == (st.acked + Inflight(st) + Discarded(Fresh(), events)) % U32
  {
    hide Next, Inflight, Discards, CountsTwice;
    if events == [] {
      NothingInFlight();
    } else {
      var n := |events| - 1;
      assert forall i :: 0 <= i < n ==> events[..n][..i] == events[..i];
      NothingIsLost(events[..n]);
      StepBalancesIff(After(Fresh(), events[..n]), events[n], Discarded(Fresh(), events[..n]));
    }
  }

  lemma NothingInFlight()
    ensures Inflight(Fresh()) == 0
  {
    CountNone(Fresh().slots, Pending, WINDOW);
  }

  // ---- Credit ----

  /** How many packets a run sends. */
  function Sends(st: State, events: seq<Event>): nat {
    if events == [] then 0
    else
      var before, e := events[..|events| - 1], events[|events| - 1];
      Sends(st, before) + if e.Send? && Prepare(After(st, before), e.command, e.room).1.Ready? then 1 else 0
  }

  /** Nothing tells the sender about room, and the window is not emptied. */
  predicate Uninformed(e: Event) {
    e.Send? || (e.Hear? && !e.reply.Sync?)
  }

  lemma CreditStep(st: State, e: Event)
    requires st.freeKnown && Uninformed(e)
    ensures Next(st, e).freeKnown
    ensures Next(st, e).freeSpace + (if e.Send? && Prepare(st, e.command, e.room).1.Ready? then 1 else 0) == st.freeSpace
  {
    hide First, Lookup, LookupPending;
  }

  /** After a report of room for f packets no run sends more than f before the next report. */
  lemma {:induction false} CreditIsNotExceeded(st: State, events: seq<Event>)
    requires st.freeKnown && forall i :: 0 <= i < |events| ==> Uninformed(events[i])
    ensures var t := After(st, events);
      t.freeKnown && Sends(st, events) + t.freeSpace == st.freeSpace && Sends(st, events) <= st.freeSpace
  {
    hide Next, Prepare;
    if events != [] {
      var n := |events| - 1;
      CreditIsNotExceeded(st, events[..n]);
      CreditStep(After(st, events[..n]), events[n]);
    }
  }
}
