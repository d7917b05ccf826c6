/** Runs from a fresh link into the states in which the window's promises end. */
module WindowRuns {
  import opened Casts
  import opened Conservation
  import opened FlowState
  import opened MarlinPacket
  import opened SlidingWindow

  /** The run leads to this window, which is in order. */
  ghost predicate Reaches(events: seq<Event>, st: State, h: History) {
    st == After(Fresh(), events) && Synced(st, h)
  }

  const STATUS := Send("M105", 320)

  lemma OneMore(st: State, events: seq<Event>, e: Event)
    ensures After(st, events + [e]) == Next(After(st, events), e)
  {
    assert (events + [e])[..|events|] == events;
  }

  /** Sending a status request. */
  lemma Requested(events: seq<Event>, st: State, h: History)
    requires Reaches(events, st, h) && CanSend(st)
    ensures FirstFree(st) < |h.ids|
    ensures Reaches(events + [STATUS], Prepare(st, "M105", 320).0, Submitted(st, h, "M105"))
  {
    hide Prepare, CanSend;
    OneMore(Fresh(), events, STATUS);
    PrepareKeepsSync(st, h, "M105", 320);
  }

  /** What hearing a positive reply for the oldest packet in flight does. */
  function Calmed(st: State, h: History, free: byte): State {
    AckThrough(st.(freeSpace := free, freeKnown := true, handlingResend := false), Number(h, h.acked), true)
  }

  lemma OldestHeard(st: State, h: History, free: byte)
    requires Synced(st, h) && h.acked < |h.log|
    ensures Handle(st, Sync('o', Number(h, h.acked), free)).0 == Calmed(st, h, free)
    ensures Synced(Calmed(st, h, free), Acknowledged(h, h.acked + 1))
  {
    hide AckThrough, Lookup, Holds;
    InflightIsUnacknowledged(st, h);
    LookupFindsPending(st, h, h.acked);
    PositiveReply(st, h, h.acked, free);
  }

  lemma Confirmed(events: seq<Event>, st: State, h: History, free: byte) returns (e: Event)
    requires Reaches(events, st, h) && h.acked < |h.log|
    ensures Reaches(events + [e], Calmed(st, h, free), Acknowledged(h, h.acked + 1))
  {
    hide Synced, Calmed, Handle;
    OldestHeard(st, h, free);
    e := Hear(Sync('o', Number(h, h.acked), free));
    OneMore(Fresh(), events, e);
  }

  // ---- A bare "ok" ----

  /** The window full for the first time, its slots in order. */
  lemma {:induction false} Filled(n: nat) returns (events: seq<Event>, st: State, h: History)
    requires n <= WINDOW
    ensures Reaches(events, st, h) && |h.log| == h.filled == n && h.acked == 0 && !st.freeKnown
    ensures forall i :: 0 <= i < n ==> h.ids[i] == i
  {
    if n == 0 {
      events, st, h := [], Fresh(), Begin(Fresh());
      StartsSynced(st);
    } else {
      events, st, h := Filled(n - 1);
      assert !st.slots[n - 1].occupied;
      FreeSlotIsNext(st, h);
      Requested(events, st, h);
      events, st, h := events + [STATUS], Prepare(st, "M105", 320).0, Submitted(st, h, "M105");
    }
  }

  lemma FirstConfirmed(events: seq<Event>, st: State, h: History)
    requires Reaches(events, st, h) && |h.log| == h.filled == WINDOW && h.acked == 0
    requires forall i :: 0 <= i < WINDOW ==> h.ids[i] == i
    ensures FirstFree(Calmed(st, h, 5)) == 0
  {
    OldestHeard(st, h, 5);
    var st', h' := Calmed(st, h, 5), Acknowledged(h, 1);
    assert Holds(st'.slots[0], 0, h');
    forall i | 0 <= i < WINDOW ensures st'.slots[i].occupied {
      assert Holds(st'.slots[i], i, h');
    }
  }

  /** 32 packets, an acknowledgement of the first, one more packet: a bare "ok" now acknowledges the newest
      packet instead of the oldest. */
  lemma BareOkSkipsPackets()
    ensures exists events, st, h :: Reaches(events, st, h) && h.acked < |h.log|
              && !Synced(Handle(st, OkText(None)).0, Acknowledged(h, h.acked + 1))
  {
    var events, st, h := Filled(WINDOW);
    hide Reaches, Synced, Calmed, Handle, FirstFree;
    FullWindowSkips(events, st, h);
  }

  lemma FullWindowSkips(events: seq<Event>, st: State, h: History)
    requires Reaches(events, st, h) && |h.log| == h.filled == WINDOW && h.acked == 0
    requires forall i :: 0 <= i < WINDOW ==> h.ids[i] == i
    ensures exists events, st, h :: Reaches(events, st, h) && h.acked < |h.log|
              && !Synced(Handle(st, OkText(None)).0, Acknowledged(h, h.acked + 1))
  {
    hide Reaches, Synced, Calmed, Handle, FirstFree;
    FirstConfirmed(events, st, h);
    var e := Confirmed(events, st, h, 5);
    NewestSkips(events + [e], Calmed(st, h, 5), Acknowledged(h, 1));
  }

  lemma NewestSkips(events: seq<Event>, st: State, h: History)
    requires Reaches(events, st, h) && |h.log| == WINDOW && h.acked == 1 && FirstFree(st) == 0
    ensures exists events, st, h :: Reaches(events, st, h) && h.acked < |h.log|
              && !Synced(Handle(st, OkText(None)).0, Acknowledged(h, h.acked + 1))
  {
    Requested(events, st, h);
    var st', h' := Prepare(st, "M105", 320).0, Submitted(st, h, "M105");
    assert First(st'.slots, Pending, 0) == 0 && h'.ids[0] == WINDOW;
    hide Prepare, Synced, Handle, First;
    BareOkOldestIff(st', h');
    assert Reaches(events + [STATUS], st', h');
  }

  // ---- A second "ok N" ----

  lemma Continued(events: seq<Event>, e: Event)
    ensures var st := After(Fresh(), events);
      && After(Fresh(), events + [e]) == Next(st, e)
      && Discarded(Fresh(), events + [e]) == Discarded(Fresh(), events) + Discards(st, e)
  {
    assert (events + [e])[..|events|] == events;
  }

  /** One packet, acknowledged twice by its number: one sent, two acknowledged, none in flight. */
  lemma SecondOkUnbalances()
    ensures var events := [STATUS, Hear(OkText(Some(0))), Hear(OkText(Some(0)))];
      && !Balanced(After(Fresh(), events), Discarded(Fresh(), events))
      && After(Fresh(), events).sent == 1 && After(Fresh(), events).acked == 2
  {
    hide Next, Balanced, CountsTwice, Discards;
    var ok := Hear(OkText(Some(0)));
    Continued([], STATUS);
    Continued([] + [STATUS], ok);
    Continued([] + [STATUS] + [ok], ok);
    assert [] + [STATUS] + [ok] + [ok] == [STATUS, ok, ok];
    hide After, Discarded;
    StartsBalanced();
    SecondOkCounts();
    var st1 := Next(Fresh(), STATUS);
    StepBalancesIff(Fresh(), STATUS, 0);
    StepBalancesIff(st1, ok, Discards(Fresh(), STATUS));
    StepBalancesIff(Next(st1, ok), ok, Discards(Fresh(), STATUS) + Discards(st1, ok));
  }

  lemma StartsBalanced()
    ensures Balanced(Fresh(), 0) && After(Fresh(), []) == Fresh() && Discarded(Fresh(), []) == 0
  {
    NothingInFlight();
  }

  lemma SecondOkCounts()
    ensures var ok := Hear(OkText(Some(0)));
      var st1 := Next(Fresh(), STATUS);
      var st2 := Next(st1, ok);
      && !CountsTwice(Fresh(), STATUS) && !CountsTwice(st1, ok) && CountsTwice(st2, ok)
      && st2.sent == 1 && st2.acked == 1 && Next(st2, ok).sent == 1 && Next(st2, ok).acked == 2
  {
    var st1 := Next(Fresh(), STATUS);
    assert st1.slots[0].occupied && st1.slots[0].sequence == 0;
    assert Lookup(st1.slots, 0) == 0;
    var st2 := Next(st1, Hear(OkText(Some(0))));
    assert Lookup(st2.slots, 0) == 0;
  }

  // ---- The send counter ----

  /** n packets sent, each acknowledged before the next. */
  lemma {:induction false} Exchanged(n: nat) returns (events: seq<Event>, st: State, h: History)
    ensures Reaches(events, st, h) && |h.log| == h.acked == n && h.sentBase == 0
    ensures !st.freeKnown || st.freeSpace == 255
  {
    if n == 0 {
      events, st, h := [], Fresh(), Begin(Fresh());
      StartsSynced(st);
    } else {
      events, st, h := Exchanged(n - 1);
      RoomWhenIdle(st, h);
      Requested(events, st, h);
      events, st, h := events + [STATUS], Prepare(st, "M105", 320).0, Submitted(st, h, "M105");
      var e := Confirmed(events, st, h, 255);
      events, st, h := events + [e], Calmed(st, h, 255), Acknowledged(h, n);
    }
  }

  lemma RoomWhenIdle(st: State, h: History)
    requires Synced(st, h) && |h.log| - h.acked < 2 && (st.freeKnown ==> st.freeSpace >= 2)
    ensures CanSend(st)
  {
    InflightIsUnacknowledged(st, h);
  }

  /** After 2^32 - 1 packets two more in flight are stamped 2^32 - 1 and 0: the counter wraps inside a window
      that is in order. */
  lemma CounterWrapsInWindow()
    ensures exists events, st, h :: Reaches(events, st, h) && h.acked < |h.log| && !NoWrapInWindow(h)
  {
    hide Reaches, Synced, CountUp, NoWrapInWindow;
    var events, st, h := Exchanged(U32 - 1);
    events, st, h := OneMoreInFlight(events, st, h);
    events, st, h := OneMoreInFlight(events, st, h);
    WrapsSoon(h);
    assert Reaches(events, st, h);
  }

  lemma WrapsSoon(h: History)
    requires h.sentBase == 0 && h.acked == U32 - 1 && |h.log| == U32 + 1
    ensures !NoWrapInWindow(h)
  {
    CountUpIsModulo(0, U32 - 1);
  }

  lemma OneMoreInFlight(events: seq<Event>, st: State, h: History)
    returns (events': seq<Event>, st': State, h': History)
    requires Reaches(events, st, h) && |h.log| - h.acked < 2
    requires st.freeKnown ==> st.freeSpace + (|h.log| - h.acked) == 255
    ensures Reaches(events', st', h') && |h'.log| == |h.log| + 1 && h'.acked == h.acked && h'.sentBase == h.sentBase
    ensures st'.freeKnown ==> st'.freeSpace + (|h'.log| - h'.acked) == 255
  {
    RoomWhenIdle(st, h);
    Requested(events, st, h);
    events', st', h' := events + [STATUS], Prepare(st, "M105", 320).0, Submitted(st, h, "M105");
  }
}
