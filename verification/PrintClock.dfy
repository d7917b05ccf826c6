/** The remaining-time clock of a print: what is booked as elapsed and what is shown as left. */
module PrintClock {
  import opened MarlinPacket
  import opened PrintStatus

  const INT_MAX := 0x7fff_ffff

  /** Conversion of a 64-bit time difference to a 32-bit int. */
  function Int32(x: int): int {
    (x + 0x8000_0000) % 0x1_0000_0000 - 0x8000_0000
  }

  /** startedAt: since when time runs, 0 when it does not; progress: the first layer has begun. */
  datatype Times = Times(startedAt: int, elapsed: int, progress: bool, original: int, total: int, left: int)

  const NO_TIMES := Times(0, 0, false, 0, 0, 0)

  function Left(total: int, elapsed: int): int {
    if elapsed >= total then 0 else total - elapsed
  }

  function Stopped(c: Times, now: int): Times {
    var elapsed := if c.startedAt > 0 && now > c.startedAt then c.elapsed + Int32(now - c.startedAt) else c.elapsed;
    c.(startedAt := 0, elapsed := elapsed, left := Left(c.total, elapsed))
  }

  predicate Halted(phase: Phase) {
    phase == Paused || phase == Pausing || phase == Aborting || phase == Finished || phase == Broken
  }

  function Shown(c: Times, now: int): Times {
    var since := if c.startedAt <= 0 then now else c.startedAt;
    var elapsed := if now <= since then c.elapsed
                   else if now - since > INT_MAX then c.total
                   else c.elapsed + Int32(now - since);
    c.(startedAt := since, left := Left(c.total, elapsed))
  }

  function Updated(c: Times, now: int, phase: Phase, active: bool, waiting: bool): Times {
    if c.total <= 0 then c
    else if Halted(phase) || !active then Stopped(c, now)
    else if phase != Printing then c
    else if !c.progress then c.(startedAt := 0, left := c.total)
    else if waiting then Stopped(c, now)
    else Shown(c, now)
  }

  function Booked(c: Times, now: int): int {
    if c.startedAt <= 0 || now <= c.startedAt then c.elapsed
    else if now - c.startedAt > INT_MAX then INT_MAX
    else c.elapsed + Int32(now - c.startedAt)
  }

  /** The file says how many seconds of the print lie before this point. */
  function Rebased(c: Times, now: int, mark: nat): Times {
    var booked := if Booked(c, now) < 0 then 0 else Booked(c, now);
    var total := if c.original + booked - mark < 1 then 1 else c.original + booked - mark;
    var elapsed := if booked > total then total else booked;
    Times(now, elapsed, true, c.original, total, total - elapsed)
  }

  /** layerZero: the first layer begins here. */
  function Marked(c: Times, now: int, layerZero: bool, mark: Option<nat>): Times {
    if c.total <= 0 then c else
    var d := if c.original <= 0 then c.(original := c.total) else c;
    var e := if layerZero && !c.progress then d.(progress := true, startedAt := now, elapsed := 0, left := d.total) else d;
    if mark == None then e else Rebased(e, now, mark.value)
  }

  /** A job begins; seconds: the print time its file gives, 0 for none. */
  function Begun(seconds: nat): Times {
    Times(0, 0, false, seconds, seconds, seconds)
  }

  class Clock {
    var times: Times

    constructor ()
      ensures times == NO_TIMES
    {
      times := NO_TIMES;
    }

    method Stop(now: int)
      modifies this
      ensures times == Stopped(old(times), now)
    {
      if times.startedAt > 0 && now > times.startedAt {
        times := times.(elapsed := times.elapsed + Int32(now - times.startedAt));
      }
      times := times.(startedAt := 0);
      if times.elapsed >= times.total {
        times := times.(left := 0);
      } else {
        times := times.(left := times.total - times.elapsed);
      }
    }

    method Update(now: int, phase: Phase, active: bool, waiting: bool)
      modifies this
      ensures times == Updated(old(times), now, phase, active, waiting)
    {
      if times.total <= 0 {
        return;
      }
      if phase == Paused || phase == Pausing || phase == Aborting || phase == Finished || phase == Broken || !active {
        Stop(now);
        return;
      }
      if phase != Printing {
        return;
      }
      if !times.progress {
        times := times.(startedAt := 0, left := times.total);
        return;
      }
      if waiting {
        Stop(now);
        return;
      }
      if times.startedAt <= 0 {
        times := times.(startedAt := now);
      }
      var elapsed := times.elapsed;
      if now > times.startedAt {
        elapsed := if now - times.startedAt > INT_MAX then times.total
                   else times.elapsed + Int32(now - times.startedAt);
      }
      times := times.(left := if elapsed >= times.total then 0 else times.total - elapsed);
    }

    method Mark(now: int, layerZero: bool, mark: Option<nat>)
      modifies this
      ensures times == Marked(old(times), now, layerZero, mark)
    {
      if times.total <= 0 {
        return;
      }
      if times.original <= 0 {
        times := times.(original := times.total);
      }
      if layerZero && !times.progress {
        times := times.(progress := true, startedAt := now, elapsed := 0, left := times.total);
      }
      if mark == None {
        return;
      }
      var elapsed := Booked(times, now);
      if elapsed < 0 {
        elapsed := 0;
      }
      var total := times.original + elapsed - mark.value;
      if total < 1 {
        total := 1;
      }
      if elapsed > total {
        elapsed := total;
      }
      times := Times(now, elapsed, true, times.original, total, total - elapsed);
    }
  }

  // ---- Whole runs ----

  datatype Tick =
    | UpdateAt(now: int, phase: Phase, active: bool, waiting: bool)
    | MarkAt(now: int, layerZero: bool, mark: Option<nat>)
    | JobAt(now: int, seconds: nat)
    | ClearAt(now: int)

  /** The clock, the last moment seen, and the moment progress began. */
  datatype Watch = Watch(times: Times, last: int, origin: int)

  function Next(w: Watch, t: Tick): Watch {
    var times := match t
      case UpdateAt(now, phase, active, waiting) => Updated(w.times, now, phase, active, waiting)
      case MarkAt(now, layerZero, mark) => Marked(w.times, now, layerZero, mark)
      case JobAt(_, seconds) => Begun(seconds)
      case ClearAt(_) => w.times.(startedAt := 0, elapsed := 0, progress := false, original := 0);
    Watch(times, t.now, if times.progress && !w.times.progress then t.now else w.origin)
  }

  function RunClock(w: Watch, ticks: seq<Tick>): Watch {
    if ticks == [] then w else Next(RunClock(w, ticks[..|ticks| - 1]), ticks[|ticks| - 1])
  }

  /** The clock goes forward, and no print outlasts a 32-bit number of seconds. */
  predicate Forward(from: int, ticks: seq<Tick>) {
    var n := |ticks| - 1;
    ticks != [] ==>
      && 0 < from <= ticks[n].now <= from + INT_MAX && Forward(from, ticks[..n])
      && (n > 0 ==> ticks[n - 1].now <= ticks[n].now)
  }

  /** Nothing is booked before progress begins, and never more than the time since then. */
  predicate Sane(w: Watch, from: int) {
    var c := w.times;
    && 0 <= c.elapsed && 0 <= c.startedAt <= w.last && from <= w.last
    && (c.total > 0 ==> 0 <= c.left <= c.total) && (c.total <= 0 ==> c.left <= 0)
    && (!c.progress ==> c.elapsed == 0 && c.startedAt == 0)
    && (c.progress ==> from <= w.origin <= w.last)
    && (c.progress && c.startedAt == 0 ==> c.elapsed <= w.last - w.origin)
    && (c.progress && c.startedAt > 0 ==> w.origin <= c.startedAt && c.elapsed <= c.startedAt - w.origin)
  }

  lemma SmallFits(x: int)
    requires 0 <= x <= INT_MAX
    ensures Int32(x) == x
  {
  }

  lemma StoppedStaysSane(w: Watch, from: int, now: int)
    requires Sane(w, from) && 0 < from && w.last <= now <= from + INT_MAX && w.times.total > 0
    ensures Sane(Watch(Stopped(w.times, now), now, w.origin), from)
  {
    if w.times.startedAt > 0 {
      SmallFits(now - w.times.startedAt);
    }
  }

  lemma RebasedStaysSane(w: Watch, from: int, now: int, mark: nat)
    requires Sane(w, from) && 0 < from && w.last <= now <= from + INT_MAX && w.times.total > 0
    ensures Sane(Watch(Rebased(w.times, now, mark), now, if w.times.progress then w.origin else now), from)
  {
    if w.times.startedAt > 0 {
      SmallFits(now - w.times.startedAt);
    }
  }

  lemma StoppedKeepsProgress(c: Times, now: int)
    ensures Stopped(c, now).progress == c.progress
  {
  }

  lemma RebasedIsInProgress(c: Times, now: int, mark: nat)
    ensures Rebased(c, now, mark).progress
  {
  }

  lemma NextIsNow(w: Watch, t: Tick)
    ensures Next(w, t).last == t.now
  {
  }

  lemma NextStaysSane(w: Watch, from: int, t: Tick)
    requires Sane(w, from) && 0 < from && w.last <= t.now <= from + INT_MAX
    ensures Sane(Next(w, t), from)
  {
    hide Stopped, Rebased, Int32;
    match t
    case UpdateAt(now, phase, active, waiting) =>
      if w.times.total > 0 {
        StoppedStaysSane(w, from, now);
        if w.times.startedAt > 0 {
          SmallFits(now - w.times.startedAt);
        }
      }
      StoppedKeepsProgress(w.times, now);
    case MarkAt(now, layerZero, mark) =>
      if w.times.total > 0 {
        var e := Marked(w.times, now, layerZero, None);
        var v := Watch(e, now, if e.progress && !w.times.progress then now else w.origin);
        assert Sane(v, from);
        if mark != None {
          RebasedStaysSane(v, from, now, mark.value);
          RebasedIsInProgress(e, now, mark.value);
        }
      }
    case _ =>
  }

  lemma {:induction false} RunStaysSane(w: Watch, from: int, ticks: seq<Tick>)
    requires Sane(w, from) && w.last == from && Forward(from, ticks)
    ensures Sane(RunClock(w, ticks), from)
    ensures RunClock(w, ticks).last == if ticks == [] then from else ticks[|ticks| - 1].now
  {
    hide Sane, Next;
    if ticks != [] {
      var n := |ticks| - 1;
      RunStaysSane(w, from, ticks[..n]);
      NextStaysSane(RunClock(w, ticks[..n]), from, ticks[n]);
      NextIsNow(RunClock(w, ticks[..n]), ticks[n]);
    }
  }

  /** In every run the time shown as left lies between zero and the total, and the time booked as elapsed,
      with what is running now, is never more than has passed since progress began. */
  lemma ClockIsSane(from: int, ticks: seq<Tick>)
    requires 0 < from && Forward(from, ticks)
    ensures var w := RunClock(Watch(NO_TIMES, from, 0), ticks);
      && (w.times.total > 0 ==> 0 <= w.times.left <= w.times.total)
      && (!w.times.progress ==> Booked(w.times, w.last) == 0)
      && (w.times.progress ==> 0 <= Booked(w.times, w.last) <= w.last - w.origin)
  {
    hide RunClock;
    var w := RunClock(Watch(NO_TIMES, from, 0), ticks);
    RunStaysSane(Watch(NO_TIMES, from, 0), from, ticks);
    if w.times.startedAt > 0 {
      SmallFits(w.last - w.times.startedAt);
    }
  }

  /** The time between a pause, or a wait for a heater, and its end is not booked. */
  lemma PauseIsNotBooked(c: Times, from: int, to: int)
    requires c.total > 0 && c.progress && 0 <= c.startedAt <= from <= to && from > 0 && from - c.startedAt <= INT_MAX
    ensures var paused := Updated(c, from, Paused, true, false);
      && Booked(Updated(paused, to, Printing, true, false), to) == Booked(c, from)
      && Updated(paused, to, Printing, true, false).left == paused.left
    ensures Updated(c, from, Printing, true, true) == Updated(c, from, Paused, true, false)
  {
    if c.startedAt > 0 {
      SmallFits(from - c.startedAt);
    }
  }

  // ---- What is left after a mark ----

  /** A stopwatch: the seconds it has counted and since when it runs, 0 when it stands. */
  datatype Stopwatch = Stopwatch(counted: int, since: int)

  function Reads(s: Stopwatch, now: int): int {
    if s.since > 0 then s.counted + (now - s.since) else s.counted
  }

  function Started(s: Stopwatch, now: int): Stopwatch {
    if s.since > 0 then s else Stopwatch(s.counted, now)
  }

  function Halt(s: Stopwatch, now: int): Stopwatch {
    Stopwatch(Reads(s, now), 0)
  }

  const STANDING := {Paused, Pausing, Aborting, Finished, Broken}

  /** The stopwatch started by the mark: stopped while the print stands, started again while it prints. */
  function Printed(from: int, ticks: seq<Tick>): Stopwatch {
    if ticks == [] then Stopwatch(0, from) else
    var n := |ticks| - 1;
    var s := Printed(from, ticks[..n]);
    match ticks[n]
    case UpdateAt(now, phase, active, waiting) =>
      if phase in STANDING || !active || (phase == Printing && waiting) then Halt(s, now)
      else if phase == Printing then Started(s, now)
      else s
    case _ => s
  }

  predicate OnlyUpdates(ticks: seq<Tick>) {
    forall i :: 0 <= i < |ticks| ==> ticks[i].UpdateAt?
  }

  /** What remains at a mark: the whole time without what the mark names. Where the mark names it all, one
      second is left if nothing was booked, and else none. */
  function Rest(original: int, booked: int, mark: nat): int {
    if mark < original then original - mark else if booked <= 0 then 1 else 0
  }

  /** The clock agrees with a stopwatch, for a print of which so much remained. */
  predicate Agrees(c: Times, s: Stopwatch, rest: int, total: int) {
    && c.progress && c.total == total >= 1 && c.startedAt == s.since >= 0
    && c.elapsed == total - rest + s.counted && s.counted >= 0 && 0 <= rest <= total
  }

  lemma MarkStarts(c: Times, now: int, mark: nat)
    requires c.total > 0 && c.original > 0 && c.progress && 0 <= c.startedAt <= now && now > 0 && 0 <= c.elapsed
    requires c.startedAt > 0 ==> now - c.startedAt <= INT_MAX
    ensures var d := Marked(c, now, false, Some(mark));
      && Agrees(d, Stopwatch(0, now), Rest(c.original, Booked(c, now), mark), d.total)
      && d.left == Rest(c.original, Booked(c, now), mark)
  {
    if c.startedAt > 0 {
      SmallFits(now - c.startedAt);
    }
  }

  lemma NextAgrees(w: Watch, s: Stopwatch, rest: int, total: int, from: int, t: Tick)
    requires Agrees(w.times, s, rest, total) && t.UpdateAt? && 0 < from && s.since <= t.now <= from + INT_MAX
    requires s.since > 0 ==> from <= s.since
    ensures var v := Next(w, t).times;
      var r := if t.phase in STANDING || !t.active || (t.phase == Printing && t.waiting) then Halt(s, t.now)
               else if t.phase == Printing then Started(s, t.now)
               else s;
      && Agrees(v, r, rest, total)
      && (t.phase in STANDING || !t.active || t.phase == Printing ==>
            v.left == if Reads(r, t.now) >= rest then 0 else rest - Reads(r, t.now))
  {
    if s.since > 0 {
      SmallFits(t.now - s.since);
    }
    SmallFits(0);
  }

  lemma {:induction false} RunAgrees(w: Watch, rest: int, total: int, ticks: seq<Tick>)
    requires Agrees(w.times, Stopwatch(0, w.last), rest, total) && w.last > 0
    requires OnlyUpdates(ticks) && Forward(w.last, ticks)
    ensures var s := Printed(w.last, ticks);
      && Agrees(RunClock(w, ticks).times, s, rest, total)
      && (s.since > 0 ==> w.last <= s.since) && s.since <= if ticks == [] then w.last else ticks[|ticks| - 1].now
  {
    hide Agrees, Next;
    if ticks != [] {
      var n := |ticks| - 1;
      assert ticks[n].UpdateAt?;
      RunAgrees(w, rest, total, ticks[..n]);
      NextAgrees(RunClock(w, ticks[..n]), Printed(w.last, ticks[..n]), rest, total, w.last, ticks[n]);
    }
  }

  /** After a mark, through any run of updates with any pauses and waits in it, the time shown as left is what
      remained at the mark less the seconds printed since then, and never less than none. */
  lemma LeftIsRest(w: Watch, now: int, mark: nat, ticks: seq<Tick>)
    requires var c := w.times;
      && c.total > 0 && c.original > 0 && c.progress && 0 <= c.elapsed && 0 <= c.startedAt <= now
      && (c.startedAt > 0 ==> now - c.startedAt <= INT_MAX)
    requires now > 0 && ticks != [] && OnlyUpdates(ticks) && Forward(now, ticks)
    requires var t := ticks[|ticks| - 1]; t.phase in STANDING || !t.active || t.phase == Printing
    ensures var marked := Next(w, MarkAt(now, false, Some(mark)));
      var rest := Rest(w.times.original, Booked(w.times, now), mark);
      var printed := Reads(Printed(now, ticks), ticks[|ticks| - 1].now);
      RunClock(marked, ticks).times.left == if printed >= rest then 0 else rest - printed
  {
    var n := |ticks| - 1;
    var marked := Next(w, MarkAt(now, false, Some(mark)));
    var rest := Rest(w.times.original, Booked(w.times, now), mark);
    MarkStarts(w.times, now, mark);
    hide Agrees, Next, Rest, Marked;
    assert ticks[n].UpdateAt?;
    RunAgrees(marked, rest, marked.times.total, ticks[..n]);
    NextAgrees(RunClock(marked, ticks[..n]), Printed(now, ticks[..n]), rest, marked.times.total, now, ticks[n]);
  }

  /** A job begins with the time its file gives, and until its first layer none of it passes. */
  lemma {:induction false} NothingPassesBefore(w: Watch, now: int, seconds: nat, ticks: seq<Tick>)
    requires OnlyUpdates(ticks)
    ensures var c := RunClock(Next(w, JobAt(now, seconds)), ticks).times;
      c == Times(0, 0, false, seconds, seconds, seconds)
  {
    if ticks != [] {
      NothingPassesBefore(w, now, seconds, ticks[..|ticks| - 1]);
      assert ticks[|ticks| - 1].UpdateAt?;
    }
  }

  /** From the first layer on it passes as after a mark. */
  lemma FirstLayerStarts(w: Watch, now: int, ticks: seq<Tick>)
    requires w.times.total > 0 && !w.times.progress && now > 0 && ticks != [] && OnlyUpdates(ticks) && Forward(now, ticks)
    requires var t := ticks[|ticks| - 1]; t.phase in STANDING || !t.active || t.phase == Printing
    ensures var printed := Reads(Printed(now, ticks), ticks[|ticks| - 1].now);
      RunClock(Next(w, MarkAt(now, true, None)), ticks).times.left
      == if printed >= w.times.total then 0 else w.times.total - printed
  {
    var n, begun := |ticks| - 1, Next(w, MarkAt(now, true, None));
    assert ticks[n].UpdateAt?;
    RunAgrees(begun, w.times.total, w.times.total, ticks[..n]);
    NextAgrees(RunClock(begun, ticks[..n]), Printed(now, ticks[..n]), w.times.total, w.times.total, now, ticks[n]);
  }
}
