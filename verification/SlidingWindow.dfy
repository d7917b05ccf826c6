/** Packets get absolute numbers here, and the 8-bit ones are shown to identify them.

    Packet k is the k-th submitted since the numbering started. Slots are reused lowest index first and an
    acknowledged slot keeps its old number, so the same 8-bit number can sit in two slots at once. */
module SlidingWindow {
  import opened Casts
  import opened FlowState
  import opened MarlinPacket

  /** start: the 8-bit number of packet 0. log: the command of every packet. acked: packets below it are
      acknowledged. ids: the packet in each slot. filled: how many slots have ever been used since the
      last clear. sentBase, ackBase: the counters at packet 0. */
  datatype History = History(start: byte, log: seq<string>, acked: nat, ids: seq<nat>, filled: nat,
                             sentBase: u32, ackBase: u32)

  /** The 8-bit number of packet k, counted the way the sender counts. */
  function NumberFrom(start: byte, k: nat): byte {
    if k == 0 then start else NextSequence(NumberFrom(start, k - 1))
  }

  function Number(h: History, k: nat): byte {
    NumberFrom(h.start, k)
  }

  lemma {:induction false} NumberIsModulo(start: byte, k: nat)
    requires start < MODULO
    ensures NumberFrom(start, k) == (start + k) % MODULO
  {
    if k > 0 {
      NumberIsModulo(start, k - 1);
      NextIsModulo(start + k - 1);
    }
  }

  lemma NextIsModulo(x: nat)
    ensures NextSequence(x % MODULO) == (x + 1) % MODULO
  {
    var q, r := x / MODULO, x % MODULO;
    assert x == MODULO * q + r;
    if r == MODULO - 1 {
      assert x + 1 == MODULO * (q + 1);
    }
  }

  ghost predicate Holds(s: Slot, k: nat, h: History) {
    && k < |h.log|
    && s.sequence == Number(h, k)
    && s.command == h.log[k] && s.barrier == IsBarrier(h.log[k])
    && s.sendOrder == CountUp(h.sentBase, k)
    && (s.acknowledged <==> k < h.acked)
  }

  ghost predicate Counters(st: State, h: History) {
    && st.nextSequence == Number(h, |h.log|)
    && st.sent == CountUp(h.sentBase, |h.log|)
    && st.acked == CountUp(h.ackBase, h.acked)
  }

  ghost predicate SlotsHold(st: State, h: History)
    requires |st.slots| == |h.ids| == WINDOW && h.filled <= WINDOW
  {
    && (forall i :: 0 <= i < WINDOW ==> (st.slots[i].occupied <==> i < h.filled))
    && (forall i :: 0 <= i < h.filled ==> Holds(st.slots[i], h.ids[i], h))
  }

  /** The packets in the slots: all different, the pending ones all there, and no slot more than
      31 packets newer than a slot with a lower index. While some slot is unused they stand in order. */
  ghost predicate Ordered(ids: seq<nat>, filled: nat, acked: nat, top: nat) {
    && |ids| == WINDOW && filled <= WINDOW
    && (forall i :: 0 <= i < filled ==> ids[i] < top)
    && (forall i, j :: 0 <= i < j < filled ==> ids[i] != ids[j])
    && (forall i, j :: 0 <= i < j < filled ==> ids[j] <= ids[i] + (WINDOW - 1))
    && (filled < WINDOW ==> forall i :: 0 <= i < filled ==> ids[i] == top - filled + i)
    && (forall k :: acked <= k < top ==> k in ids[..filled])
  }

  ghost predicate Synced(st: State, h: History) {
    && h.start < MODULO && h.acked <= |h.log|
    && Ordered(h.ids, h.filled, h.acked, |h.log|)
    && |st.slots| == WINDOW
    && SlotsHold(st, h)
    && Counters(st, h)
  }

  function Begin(st: State): History {
    History(st.nextSequence, [], 0, seq(WINDOW, _ => 0), 0, st.sent, st.acked)
  }

  /** After a clear or a resync the numbering starts over, provided the number is one the link uses. */
  lemma StartsSynced(st: State)
    requires |st.slots| == WINDOW && st.nextSequence < MODULO
    requires forall i :: 0 <= i < WINDOW ==> st.slots[i] == EMPTY_SLOT
    ensures Synced(st, Begin(st))
  {
  }

  lemma NumbersDiffer(h: History, a: nat, b: nat)
    requires h.start < MODULO
    requires -MODULO < a - b < MODULO
    ensures Number(h, a) == Number(h, b) <==> a == b
  {
    hide NumberFrom;
    NumberIsModulo(h.start, a);
    NumberIsModulo(h.start, b);
    ModularEqual(h.start + a, h.start + b);
  }

  lemma ModularEqual(x: nat, y: nat)
    requires -MODULO < x - y < MODULO
    ensures x % MODULO == y % MODULO <==> x == y
  {
    var p, q := x / MODULO, y / MODULO;
    assert x == MODULO * p + x % MODULO && y == MODULO * q + y % MODULO;
    if x % MODULO == y % MODULO {
      assert x - y == MODULO * (p - q);
    }
  }

  lemma CountUpAdd(base: u32, a: nat, b: nat)
    ensures (CountUp(base, a) + (b - a)) % U32 == CountUp(base, b)
  {
    CountUpIsModulo(base, a);
    CountUpIsModulo(base, b);
    var q := (base + a) / U32;
    assert base + a == q * U32 + CountUp(base, a);
    ModuloShift(base + b, q);
  }

  lemma ModuloShift(x: int, q: int)
    ensures (x - q * U32) % U32 == x % U32
  {
    var d := x / U32;
    assert x == d * U32 + x % U32;
    assert x - q * U32 == (d - q) * U32 + x % U32;
  }

  // ---- Counting what is in flight ----

  function CountFrom(ids: seq<nat>, a: nat, n: nat): nat
    requires n <= |ids|
  {
    if n == 0 then 0 else CountFrom(ids, a, n - 1) + if ids[n - 1] >= a then 1 else 0
  }

  lemma {:induction false} CountFromStep(ids: seq<nat>, a: nat, p: nat, n: nat)
    requires p < |ids| && n <= |ids|
    requires forall i :: 0 <= i < n ==> (ids[i] == a <==> i == p)
    ensures CountFrom(ids, a, n) == CountFrom(ids, a + 1, n) + if p < n then 1 else 0
  {
    if n > 0 {
      CountFromStep(ids, a, p, n - 1);
    }
  }

  lemma {:induction false} CountFromAll(ids: seq<nat>, a: nat, top: nat, n: nat)
    requires a <= top && n <= |ids|
    requires forall i :: 0 <= i < n ==> ids[i] < top
    requires forall i, j :: 0 <= i < j < n ==> ids[i] != ids[j]
    requires forall k :: a <= k < top ==> k in ids[..n]
    ensures CountFrom(ids, a, n) == top - a
    decreases top - a
  {
    if a == top {
      CountFromZero(ids, a, n);
    } else {
      assert a in ids[..n];
      var p :| 0 <= p < n && ids[p] == a;
      CountFromStep(ids, a, p, n);
      CountFromAll(ids, a + 1, top, n);
    }
  }

  lemma {:induction false} CountFromZero(ids: seq<nat>, a: nat, n: nat)
    requires n <= |ids|
    requires forall i :: 0 <= i < n ==> ids[i] < a
    ensures CountFrom(ids, a, n) == 0
  {
    if n > 0 {
      CountFromZero(ids, a, n - 1);
    }
  }

  lemma {:induction false} PendingIsCountFrom(st: State, h: History, n: nat)
    requires Synced(st, h) && n <= WINDOW
    ensures Count(st.slots, Pending, n) == CountFrom(h.ids, h.acked, if n < h.filled then n else h.filled)
  {
    if n > 0 {
      PendingIsCountFrom(st, h, n - 1);
    }
  }

  /** Conservation: everything submitted is either acknowledged or in flight. */
  lemma InflightIsUnacknowledged(st: State, h: History)
    requires Synced(st, h)
    ensures Inflight(st) == |h.log| - h.acked
    ensures |h.log| - h.acked <= WINDOW
  {
    PendingIsCountFrom(st, h, WINDOW);
    CountFromAll(h.ids, h.acked, |h.log|, h.filled);
  }

  // ---- Finding a slot by its 8-bit number ----

  ghost function SlotOf(h: History, k: nat): (i: nat)
    requires h.filled <= |h.ids| && k in h.ids[..h.filled]
    ensures i < h.filled && h.ids[i] == k
  {
    var i :| 0 <= i < h.filled && h.ids[i] == k;
    i
  }

  /** The scan for a number returns the pending slot whenever one carries it: a stale slot with the same
      number always has a higher index. */
  lemma LookupFindsPending(st: State, h: History, k: nat)
    requires Synced(st, h) && h.acked <= k < |h.log|
    ensures var i := Lookup(st.slots, Number(h, k));
            0 <= i < h.filled && h.ids[i] == k && Pending(st.slots[i])
    ensures LookupPending(st.slots, Number(h, k)) == Lookup(st.slots, Number(h, k))
  {
    InflightIsUnacknowledged(st, h);
    var i := Lookup(st.slots, Number(h, k));
    assert k in h.ids[..h.filled];
    var p :| 0 <= p < h.filled && h.ids[p] == k;
    assert Carries(Number(h, k))(st.slots[p]);
    NumbersDiffer(h, h.ids[i], k);
  }

  /** Conversely a pending slot found for a number is the packet of that number inside the window. */
  lemma PendingFoundIsInWindow(st: State, h: History, s: byte)
    requires Synced(st, h) && LookupPending(st.slots, s) != -1
    ensures var i := LookupPending(st.slots, s);
            i < h.filled && h.acked <= h.ids[i] < |h.log| && s == Number(h, h.ids[i])
  {
  }

  /** A pending slot and a stale slot with one number: the stale one is never first. */
  lemma StaleTwinIsHigher(st: State, h: History, i: nat, j: nat)
    requires Synced(st, h) && i < h.filled && j < h.filled && i != j
    requires Pending(st.slots[i]) && st.slots[j].acknowledged
    requires st.slots[i].sequence == st.slots[j].sequence
    ensures i < j
  {
    if j < i {
      InflightIsUnacknowledged(st, h);
      NumbersDiffer(h, h.ids[i], h.ids[j]);
      assert false;
    }
  }

  // ---- Sending ----

  function Submitted(st: State, h: History, command: string): History
    requires FirstFree(st) != -1 && FirstFree(st) < |h.ids|
  {
    var i := FirstFree(st);
    h.(log := h.log + [command], ids := h.ids[i := |h.log|],
       filled := if i == h.filled then h.filled + 1 else h.filled)
  }

  lemma FreeSlotIsNext(st: State, h: History)
    requires Synced(st, h) && CanSend(st)
    ensures var i := FirstFree(st);
      && (h.filled < WINDOW ==> i == h.filled)
      && (h.filled == WINDOW ==> st.slots[i].acknowledged && forall j :: 0 <= j < i ==> Pending(st.slots[j]))
    ensures |h.log| - h.acked < WINDOW
  {
    InflightIsUnacknowledged(st, h);
    CountBound(st.slots, Pending, WINDOW, FirstFree(st));
    if h.filled < WINDOW {
      assert !st.slots[h.filled].occupied;
    }
  }

  /** Preparing a packet keeps the window in order. */
  lemma PrepareKeepsSync(st: State, h: History, command: string, room: nat)
    requires Synced(st, h) && CanSend(st) && |command| <= 255 && |command| + 6 <= room
    ensures Prepare(st, command, room).1 == Ready(Number(h, |h.log|))
    ensures Synced(Prepare(st, command, room).0, Submitted(st, h, command))
  {
    FreeSlotIsNext(st, h);
    NewSlotHolds(st, h, command);
    PlaceKeepsOrder(h.ids, h.filled, h.acked, |h.log|, FirstFree(st));
    CountersAdvance(st, h, command, room);
  }

  lemma CountersAdvance(st: State, h: History, command: string, room: nat)
    requires |h.ids| == |st.slots| && Counters(st, h) && CanSend(st) && |command| <= 255 && |command| + 6 <= room
    ensures Counters(Prepare(st, command, room).0, Submitted(st, h, command))
  {
  }

  lemma NewSlotHolds(st: State, h: History, command: string)
    requires Synced(st, h) && CanSend(st) && FirstFree(st) <= h.filled
    ensures SlotsHold(st.(slots := st.slots[FirstFree(st) := NewSlot(st, command)]), Submitted(st, h, command))
  {
    var h' := Submitted(st, h, command);
    assert Holds(NewSlot(st, command), |h.log|, h');
    forall j | 0 <= j < h.filled ensures Holds(st.slots[j], h.ids[j], h') {
      assert Holds(st.slots[j], h.ids[j], h);
    }
  }

  lemma PlaceKeepsOrder(ids: seq<nat>, filled: nat, acked: nat, top: nat, i: nat)
    requires Ordered(ids, filled, acked, top) && i < WINDOW && top < acked + WINDOW
    requires filled < WINDOW ==> i == filled
    requires filled == WINDOW ==> ids[i] < acked && forall j :: 0 <= j < i ==> ids[j] >= acked
    ensures Ordered(ids[i := top], if i == filled then filled + 1 else filled, acked, top + 1)
  {
    var filled' := if i == filled then filled + 1 else filled;
    var ids' := ids[i := top];
    forall k | acked <= k < top + 1 ensures k in ids'[..filled'] {
      if k == top {
        assert ids'[..filled'][i] == k;
      } else {
        assert k in ids[..filled];
        var p :| 0 <= p < filled && ids[p] == k;
        assert ids'[..filled'][p] == k;
      }
    }
  }

  // ---- Acknowledging ----

  function Acknowledged(h: History, upTo: nat): History {
    h.(acked := if h.acked < upTo then upTo else h.acked)
  }

  /** Which pending packets an acknowledgement of packet m touches, when m is not older than 223 packets. */
  lemma NotNewerIsOlder(h: History, k: nat, m: nat)
    requires h.start < MODULO
    requires -(MODULO - WINDOW) <= m - k < WINDOW
    ensures NotNewer(Number(h, k), Number(h, m)) <==> k <= m
    ensures Number(h, k) == Number(h, m) <==> k == m
  {
    NumberIsModulo(h.start, k);
    NumberIsModulo(h.start, m);
    ModularDistance(h.start + k, h.start + m);
  }

  lemma ModularDistance(x: nat, y: nat)
    requires -(MODULO - WINDOW) <= y - x < WINDOW
    ensures var a, b := x % MODULO, y % MODULO;
      && ((if b >= a then b - a else b + MODULO - a) < WINDOW <==> x <= y)
      && (a == b <==> x == y)
  {
    var a, b, p, q := x % MODULO, y % MODULO, x / MODULO, y / MODULO;
    assert x == MODULO * p + a && y == MODULO * q + b;
    assert y - x == MODULO * (q - p) + (b - a);
    assert -1 <= q - p <= 1;
  }

  // ---- Which acknowledgements mean what they say ----

  /** An acknowledgement is in time when its packet is in flight, or nothing is, or its number lies behind all that
      is in flight and is not yet far enough behind to be taken for a number ahead of it. */
  predicate InTime(h: History, m: nat, inclusive: bool)
    requires h.acked <= |h.log| && m < |h.log|
  {
    h.acked <= m || h.acked == |h.log|
    || |h.log| - h.acked + (if inclusive then 1 else 0) <= (|h.log| - m) % MODULO <= MODULO - WINDOW + 1
  }

  lemma {:induction false} NumberRepeats(h: History, k: nat, rounds: nat)
    requires h.start < MODULO
    ensures Number(h, k + MODULO * rounds) == Number(h, k)
  {
    if rounds > 0 {
      NumberRepeats(h, k, rounds - 1);
      NumberRepeatsOnce(h, k + MODULO * (rounds - 1));
      assert k + MODULO * (rounds - 1) + MODULO == k + MODULO * rounds;
    }
  }

  lemma NumberRepeatsOnce(h: History, k: nat)
    requires h.start < MODULO
    ensures Number(h, k + MODULO) == Number(h, k)
  {
    hide NumberFrom;
    NumberIsModulo(h.start, k);
    NumberIsModulo(h.start, k + MODULO);
    ModuloRepeats(h.start + k);
  }

  lemma ModuloRepeats(x: nat)
    ensures (x + MODULO) % MODULO == x % MODULO
  {
    var q, r := x / MODULO, x % MODULO;
    assert x + MODULO == MODULO * (q + 1) + r;
  }

  /** Whether a slot that holds packet k counts as acknowledged by the number of packet m. */
  predicate Covers(h: History, m: nat, k: nat, inclusive: bool) {
    if Number(h, k) == Number(h, m) then inclusive else NotNewer(Number(h, k), Number(h, m))
  }

  /** That depends only on how many packets, modulo 255, lie between them. */
  lemma CoversByAge(h: History, m: nat, k: nat, inclusive: bool)
    requires h.start < MODULO && m < |h.log| && k < |h.log| && |h.log| - k <= WINDOW
    ensures var j, r := |h.log| - k, (|h.log| - m) % MODULO;
      Covers(h, m, k, inclusive) <==> if j == r then inclusive else r < j < r + WINDOW || r >= j + MODULO - WINDOW + 1
  {
    hide Number, NotNewer;
    var age, j := |h.log| - m, |h.log| - k;
    var r, rounds := age % MODULO, age / MODULO;
    var twin := m + MODULO * rounds;
    assert age == MODULO * rounds + r && twin == |h.log| - r;
    NumberRepeats(h, m, rounds);
    if j == r + WINDOW {
      NumberRepeats(h, m, rounds - 1);
      NotNewerIsOlder(h, k, twin - MODULO);
    } else if r <= j + MODULO - WINDOW {
      NotNewerIsOlder(h, k, twin);
    } else {
      NumberRepeats(h, twin, 1);
      NotNewerIsOlder(h, k, twin + MODULO);
    }
  }

  /** In time, the packets in flight up to m are covered and no others. */
  lemma InTimeCovers(h: History, m: nat, k: nat, inclusive: bool)
    requires h.start < MODULO && m < |h.log| && h.acked <= k < |h.log| && |h.log| - h.acked <= WINDOW
    requires InTime(h, m, inclusive)
    ensures Covers(h, m, k, inclusive) <==> k < if inclusive then m + 1 else m
  {
    hide Covers;
    CoversByAge(h, m, k, inclusive);
  }

  /** Too late, some packet in flight is covered. */
  lemma TooLateCovers(h: History, m: nat, inclusive: bool) returns (k: nat)
    requires h.start < MODULO && m < |h.log| && h.acked <= |h.log| && |h.log| - h.acked <= WINDOW
    requires !InTime(h, m, inclusive)
    ensures m < h.acked <= k < |h.log| && Covers(h, m, k, inclusive)
  {
    hide Covers;
    var r := (|h.log| - m) % MODULO;
    k := if r == 0 || r > MODULO - WINDOW + 1 then |h.log| - 1 else if inclusive then |h.log| - r else h.acked;
    CoversByAge(h, m, k, inclusive);
  }

  /** Cumulative acknowledgement is exact: it marks the packets up to m and nothing else. */
  lemma AckThroughKeepsSync(st: State, h: History, m: nat, inclusive: bool)
    requires Synced(st, h) && m < |h.log| && InTime(h, m, inclusive)
    ensures Synced(AckThrough(st, Number(h, m), inclusive), Acknowledged(h, if inclusive then m + 1 else m))
  {
    var h' := Acknowledged(h, if inclusive then m + 1 else m);
    AckSlotsExact(st, h, m, inclusive);
    AckCounter(st, h, h', Number(h, m), inclusive);
  }

  lemma AckSlotsExact(st: State, h: History, m: nat, inclusive: bool)
    requires Synced(st, h) && m < |h.log| && InTime(h, m, inclusive)
    ensures SlotsHold(st.(slots := AckSlots(st.slots, Number(h, m), inclusive)),
                      Acknowledged(h, if inclusive then m + 1 else m))
  {
    hide InTime;
    InflightIsUnacknowledged(st, h);
    forall i | 0 <= i < h.filled
      ensures Holds(AckSlot(st.slots[i], Number(h, m), inclusive), h.ids[i],
                    Acknowledged(h, if inclusive then m + 1 else m))
    {
      if h.acked <= h.ids[i] {
        assert Holds(st.slots[i], h.ids[i], h);
        InTimeCovers(h, m, h.ids[i], inclusive);
      }
      AckSlotExact(st.slots[i], h, h.ids[i], m, inclusive);
    }
  }

  lemma AckSlotExact(s: Slot, h: History, k: nat, m: nat, inclusive: bool)
    requires s.occupied && Holds(s, k, h)
    requires h.acked <= k ==> (Covers(h, m, k, inclusive) <==> k < if inclusive then m + 1 else m)
    ensures Holds(AckSlot(s, Number(h, m), inclusive), k, Acknowledged(h, if inclusive then m + 1 else m))
  {
    hide NumberFrom, NotNewer;
  }

  /** The acknowledgement counter moves by the difference of the two in-flight counts. */
  lemma AckCounter(st: State, h: History, h': History, sequence: byte, inclusive: bool)
    requires Synced(st, h) && h' == h.(acked := h'.acked) && h.acked <= h'.acked <= |h.log|
    requires SlotsHold(st.(slots := AckSlots(st.slots, sequence, inclusive)), h')
    ensures AckThrough(st, sequence, inclusive).acked == CountUp(h.ackBase, h'.acked)
  {
    var slots := AckSlots(st.slots, sequence, inclusive);
    var st' := st.(slots := slots, acked := CountUp(h.ackBase, h'.acked));
    assert Synced(st', h');
    InflightIsUnacknowledged(st, h);
    InflightIsUnacknowledged(st', h');
    MarkedLeave(st.slots, slots, sequence, inclusive, WINDOW);
    CountUpTwice(h.ackBase, h.acked, h'.acked - h.acked);
  }

  lemma {:induction false} CountUpTwice(base: u32, a: nat, b: nat)
    ensures CountUp(CountUp(base, a), b) == CountUp(base, a + b)
  {
    if b > 0 {
      CountUpTwice(base, a, b - 1);
    }
  }

  /** The window stays in order exactly when the acknowledgement is in time. */
  lemma AckThroughIff(st: State, h: History, m: nat, inclusive: bool)
    requires Synced(st, h) && m < |h.log|
    ensures Synced(AckThrough(st, Number(h, m), inclusive), Acknowledged(h, if inclusive then m + 1 else m))
       <==> InTime(h, m, inclusive)
  {
    hide AckThrough, InTime;
    if InTime(h, m, inclusive) {
      AckThroughKeepsSync(st, h, m, inclusive);
    } else {
      TooLateLosesSync(st, h, m, inclusive);
    }
  }

  lemma TooLateLosesSync(st: State, h: History, m: nat, inclusive: bool)
    requires Synced(st, h) && m < |h.log| && !InTime(h, m, inclusive)
    ensures m < h.acked && AckThrough(st, Number(h, m), inclusive) != st
    ensures !Synced(AckThrough(st, Number(h, m), inclusive), h)
  {
    hide InTime, Number, NotNewer;
    InflightIsUnacknowledged(st, h);
    var k := TooLateCovers(h, m, inclusive);
    var i := SlotOf(h, k);
    assert Holds(st.slots[i], k, h);
    var st' := AckThrough(st, Number(h, m), inclusive);
    assert st'.slots[i] == AckSlot(st.slots[i], Number(h, m), inclusive);
    assert !Holds(st'.slots[i], k, h);
  }

  /** An acknowledgement of something already acknowledged changes nothing exactly when it is in time. */
  lemma LateAckChangesNothingIff(st: State, h: History, m: nat)
    requires Synced(st, h) && m < h.acked
    ensures AckThrough(st, Number(h, m), true) == st <==> InTime(h, m, true)
  {
    hide InTime;
    if InTime(h, m, true) {
      InflightIsUnacknowledged(st, h);
      forall i | 0 <= i < WINDOW ensures !Marks(st.slots[i], Number(h, m), true) {
        if Pending(st.slots[i]) {
          assert Holds(st.slots[i], h.ids[i], h);
          InTimeCovers(h, m, h.ids[i], true);
        }
      }
      CountNone(st.slots, Marker(Number(h, m), true), WINDOW);
      assert AckSlots(st.slots, Number(h, m), true) == st.slots;
    } else {
      TooLateLosesSync(st, h, m, true);
    }
  }

  /** The whole handling of a positive reply for packet m: the window stays in order exactly when the reply is in
      time or no slot has its number any more. */
  lemma PositiveReplyIff(st: State, h: History, m: nat, free: byte)
    requires Synced(st, h) && m < |h.log|
    ensures var (st', outcome) := Handle(st, Sync('o', Number(h, m), free));
      && !outcome.Resend?
      && (Synced(st', Acknowledged(h, m + 1)) <==> InTime(h, m, true) || Lookup(st.slots, Number(h, m)) == -1)
  {
    hide Lookup, AckThrough, InTime, Holds;
    var calm := st.(freeSpace := free, freeKnown := true, handlingResend := false);
    assert Synced(calm, h);
    if Lookup(calm.slots, Number(h, m)) == -1 {
      if h.acked <= m {
        LookupFindsPending(calm, h, m);
      }
      assert Acknowledged(h, m + 1) == h;
    } else {
      AckThroughIff(calm, h, m, true);
    }
  }

  /** A reply that is not older than 223 packets is in time. */
  lemma PositiveReply(st: State, h: History, m: nat, free: byte)
    requires Synced(st, h) && m < |h.log| && |h.log| - m <= MODULO - WINDOW + 1
    ensures Synced(Handle(st, Sync('o', Number(h, m), free)).0, Acknowledged(h, m + 1))
    ensures !Handle(st, Sync('o', Number(h, m), free)).1.Resend?
  {
    hide Handle, Holds;
    InflightIsUnacknowledged(st, h);
    PositiveReplyIff(st, h, m, free);
  }

  /** The whole handling of a resend request for packet m, which is the next one the controller expects. */
  lemma ResendReply(st: State, h: History, m: nat, free: byte)
    requires Synced(st, h) && h.acked <= m <= |h.log|
    ensures var (st', outcome) := Handle(st, Sync('r', Number(h, m), free));
      if m < |h.log| && !st.handlingResend then
        Synced(st', Acknowledged(h, m)) && (outcome == Resend(Number(h, m)) || outcome == Rejected)
      else
        Synced(st', h) && outcome == Ignored
  {
    InflightIsUnacknowledged(st, h);
    var st1 := st.(freeSpace := free, freeKnown := true);
    assert Synced(st1, h);
    var i := LookupPending(st1.slots, Number(h, m));
    if m < |h.log| {
      LookupFindsPending(st1, h, m);
      if !st.handlingResend {
        AckThroughKeepsSync(st1, h, m, false);
        RequestKeepsSync(AckThrough(st1, Number(h, m), false), Acknowledged(h, m), i);
      }
    } else {
      if i != -1 {
        PendingFoundIsInWindow(st1, h, Number(h, m));
        NumbersDiffer(h, h.ids[i], m);
      }
      assert Synced(Reject(st1), h);
    }
  }

  lemma RequestKeepsSync(st: State, h: History, i: nat)
    requires Synced(st, h) && i < WINDOW
    ensures Synced(RequestResend(st, i).0, h)
  {
    var st' := RequestResend(st, i).0;
    forall j | 0 <= j < h.filled ensures Holds(st'.slots[j], h.ids[j], h) {
      assert Holds(st.slots[j], h.ids[j], h);
    }
  }

  /** Emptying the window while nothing is in flight loses nothing. */
  lemma QuietClearKeepsSync(st: State, h: History)
    requires Synced(st, h) && Inflight(st) == 0
    ensures Synced(Clear(st), h.(filled := 0))
  {
    InflightIsUnacknowledged(st, h);
  }

  // ---- Text replies ----

  /** A bare "ok" acknowledges the pending slot with the lowest index. The window stays in order exactly
      when that slot holds the oldest packet in flight. */
  lemma BareOkOldestIff(st: State, h: History)
    requires Synced(st, h) && h.acked < |h.log|
    ensures var i := First(st.slots, Pending, 0);
      && 0 <= i < h.filled
      && (Synced(Handle(st, OkText(None)).0, Acknowledged(h, h.acked + 1)) <==> h.ids[i] == h.acked)
  {
    var p := SlotOf(h, h.acked);
    assert Holds(st.slots[p], h.acked, h) && Pending(st.slots[p]);
    var i := First(st.slots, Pending, 0);
    if h.ids[i] == h.acked {
      AckOldestKeepsSync(st, h, i);
    } else {
      AckOtherLosesSync(st, h, i);
    }
  }

  lemma AckOldestKeepsSync(st: State, h: History, i: nat)
    requires Synced(st, h) && i < h.filled && h.ids[i] == h.acked
    ensures Synced(AckOne(st, i), Acknowledged(h, h.acked + 1))
  {
    AckOldestSlotsHold(st, h, i);
    assert Ordered(h.ids, h.filled, h.acked + 1, |h.log|);
    assert Counters(AckOne(st, i), Acknowledged(h, h.acked + 1));
  }

  lemma AckOldestSlotsHold(st: State, h: History, i: nat)
    requires Synced(st, h) && i < h.filled && h.ids[i] == h.acked
    ensures SlotsHold(AckOne(st, i), Acknowledged(h, h.acked + 1))
  {
    forall j | 0 <= j < h.filled
      ensures Holds(AckOne(st, i).slots[j], h.ids[j], Acknowledged(h, h.acked + 1))
    {
      assert Holds(st.slots[j], h.ids[j], h);
    }
  }

  lemma AckOtherLosesSync(st: State, h: History, i: nat)
    requires Synced(st, h) && i < h.filled && h.acked < h.ids[i]
    ensures !Synced(AckOne(st, i), Acknowledged(h, h.acked + 1))
  {
    var st', h' := AckOne(st, i), Acknowledged(h, h.acked + 1);
    assert !Holds(st'.slots[i], h'.ids[i], h');
  }

  /** A numbered "ok" counts one acknowledgement; the books stay balanced exactly when the slot was pending. */
  lemma NumberedOkBalancesIff(st: State, s: byte)
    requires Lookup(st.slots, s) != -1
    ensures var st' := Handle(st, OkText(Some(s))).0;
      && st'.acked == (st.acked + 1) % U32
      && (Inflight(st') + 1 == Inflight(st) <==> Pending(st.slots[Lookup(st.slots, s)]))
      && (Inflight(st') == Inflight(st) <==> st.slots[Lookup(st.slots, s)].acknowledged)
  {
    var i := Lookup(st.slots, s);
    CountUpdate(st.slots, Pending, |st.slots|, i, st.slots[i].(acknowledged := true));
  }

  // ---- Order of retransmission ----

  /** order lists every pending slot once, by the counter value stamped on it when it was sent. */
  ghost predicate IsResendOrder(slots: seq<Slot>, order: seq<nat>) {
    && (forall a :: 0 <= a < |order| ==> order[a] < |slots| && Pending(slots[order[a]]))
    && (forall i :: 0 <= i < |slots| && Pending(slots[i]) ==> i in order)
    && (forall a, b :: 0 <= a < b < |order| ==> order[a] != order[b])
    && (forall a, b :: 0 <= a < b < |order| ==> slots[order[a]].sendOrder <= slots[order[b]].sendOrder)
  }

  /** The 32-bit send counter does not pass zero inside the window. */
  predicate NoWrapInWindow(h: History) {
    h.acked <= |h.log| && CountUp(h.sentBase, h.acked) + (|h.log| - h.acked) <= U32
  }

  lemma StampInWindow(h: History, k: nat)
    requires h.acked <= k < |h.log| && |h.log| - h.acked <= WINDOW
    ensures var first := CountUp(h.sentBase, h.acked);
      CountUp(h.sentBase, k) == if first + (k - h.acked) < U32 then first + (k - h.acked)
                                else first + (k - h.acked) - U32
  {
    CountUpAdd(h.sentBase, h.acked, k);
  }

  /** Once the j oldest packets are listed, whatever is listed later is none of them. */
  lemma {:induction false} ListedLaterIsNewer(st: State, h: History, order: seq<nat>, t: nat, j: nat)
    requires Synced(st, h) && IsResendOrder(st.slots, order) && j <= t < |order|
    requires forall a :: 0 <= a < j ==> order[a] < h.filled && h.ids[order[a]] == h.acked + a
    ensures order[t] < h.filled && h.acked + j <= h.ids[order[t]] < |h.log|
  {
    if j == 0 {
      assert Holds(st.slots[order[t]], h.ids[order[t]], h);
    } else {
      ListedLaterIsNewer(st, h, order, t, j - 1);
      assert order[j - 1] != order[t];
    }
  }

  lemma OldestLeftIsNext(st: State, h: History, order: seq<nat>, j: nat)
    requires Synced(st, h) && IsResendOrder(st.slots, order) && NoWrapInWindow(h)
    requires j < |order| && h.acked + j < |h.log|
    requires forall a :: 0 <= a < j ==> order[a] < h.filled && h.ids[order[a]] == h.acked + a
    ensures order[j] < h.filled && h.ids[order[j]] == h.acked + j
  {
    InflightIsUnacknowledged(st, h);
    ListedLaterIsNewer(st, h, order, j, j);
    var q, p := order[j], SlotOf(h, h.acked + j);
    assert Holds(st.slots[p], h.acked + j, h) && Holds(st.slots[q], h.ids[q], h);
    assert p in order;
    var b :| 0 <= b < |order| && order[b] == p;
    // packet acked + j is not listed before place j, so what stands there is stamped no later than it
    assert j <= b;
    StampsOrderPackets(h, h.acked + j, h.ids[q]);
  }

  lemma StampsOrderPackets(h: History, k: nat, m: nat)
    requires NoWrapInWindow(h) && |h.log| - h.acked <= WINDOW
    requires h.acked <= k < |h.log| && h.acked <= m < |h.log|
    ensures CountUp(h.sentBase, m) <= CountUp(h.sentBase, k) <==> m <= k
  {
    StampInWindow(h, k);
    StampInWindow(h, m);
  }

  lemma {:induction false} ResendOrderPrefix(st: State, h: History, order: seq<nat>, j: nat)
    requires Synced(st, h) && IsResendOrder(st.slots, order) && NoWrapInWindow(h)
    requires j <= |h.log| - h.acked
    ensures j <= |order|
    ensures forall a :: 0 <= a < j ==> order[a] < h.filled && h.ids[order[a]] == h.acked + a
  {
    if j > 0 {
      ResendOrderPrefix(st, h, order, j - 1);
      AllListed(st, h, order, j);
      OldestLeftIsNext(st, h, order, j - 1);
    }
  }

  lemma AllListed(st: State, h: History, order: seq<nat>, j: nat)
    requires Synced(st, h) && IsResendOrder(st.slots, order)
    requires 0 < j <= |h.log| - h.acked && j - 1 <= |order|
    requires forall a :: 0 <= a < j - 1 ==> order[a] < h.filled && h.ids[order[a]] == h.acked + a
    ensures j <= |order|
  {
    var p := SlotOf(h, h.acked + j - 1);
    assert Holds(st.slots[p], h.acked + j - 1, h) && Pending(st.slots[p]);
    assert p in order;
    assert forall a :: 0 <= a < j - 1 ==> order[a] != p;
  }

  /** Retransmission goes in submission order, oldest first, each packet once, exactly when the counter does
      not wrap inside the window; when it wraps, the oldest packet is not the first. */
  lemma ResendOrderIff(st: State, h: History, order: seq<nat>)
    requires Synced(st, h) && IsResendOrder(st.slots, order) && h.acked < |h.log|
    ensures |order| > 0 && order[0] < h.filled
    ensures NoWrapInWindow(h) <==> h.ids[order[0]] == h.acked
    ensures NoWrapInWindow(h) ==> |order| == |h.log| - h.acked
    ensures NoWrapInWindow(h) ==> forall a :: 0 <= a < |order| ==> order[a] < h.filled && h.ids[order[a]] == h.acked + a
  {
    InflightIsUnacknowledged(st, h);
    var p := SlotOf(h, h.acked);
    assert Holds(st.slots[p], h.acked, h) && Pending(st.slots[p]);
    assert p in order;
    var q0 := order[0];
    assert Holds(st.slots[q0], h.ids[q0], h);
    if NoWrapInWindow(h) {
      ResendOrderPrefix(st, h, order, |h.log| - h.acked);
      if |order| > |h.log| - h.acked {
        ListedLaterIsNewer(st, h, order, |h.log| - h.acked, |h.log| - h.acked);
      }
    } else {
      // the packet stamped zero is in the window, is not the oldest, and sorts before it
      var k := h.acked + (U32 - CountUp(h.sentBase, h.acked));
      StampInWindow(h, k);
      StampInWindow(h, h.acked);
      var r := SlotOf(h, k);
      assert Holds(st.slots[r], k, h) && Pending(st.slots[r]);
      assert r in order;
      var b :| 0 <= b < |order| && order[b] == r;
    }
  }
}
