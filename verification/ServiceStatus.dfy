/** What a client of the service sees: when a job is taken, what a line shows, and how everything ends. */
module ServiceStatus {
  import opened FlowState
  import opened GcodeRewrite
  import opened GcodeStream
  import opened HeatHold
  import opened MarlinPacket
  import opened MotionPolicy
  import opened MotionSender
  import opened PauseHold
  import opened PrintStatus
  import opened ServiceFaults
  import opened ServiceRun
  import opened ServiceSafety
  import opened ServiceState

  // ---- Lines ----

  /** Temperatures are shown as they are reported, each heater its own, and so are targets that the controller names. */
  lemma TemperaturesShown(s: Service, line: string, head: Temperature, bed: Temperature, allow: bool, fails: bool)
    requires s.env.reading(line) == Temperatures(Some(head), Some(bed)) && !s.wait.active
    ensures var t := LineSeen(s, line, allow, fails).0;
      && t.status.headNow == head.now && t.status.bedNow == bed.now
      && t.status.headSet == (if head.target == None then s.status.headSet else head.target.value)
      && t.status.bedSet == (if bed.target == None then s.status.bedSet else bed.target.value)
  {
    hide Handle, ReplyOf, Resync;
  }

  /** A line ends a poll, with a serial fault, exactly when a print is under way and the line is refused, or cannot be
      answered with the packets it asks for, or finds the numbers out of step when neither a job nor a queue nor a cleanup
      is running. */
  lemma LineStopsIff(s: Service, line: string, fails: bool)
    ensures var seen := Watched(s.status, s.wait, s.env.reading(line)).0;
      var outcome := Handle(s.flow, ReplyOf(s.env, line)).1;
      var stops := seen.phase != Idle && seen.phase != Finished && seen.phase != Broken
                   && (|| outcome == Rejected || (outcome.Resend? && fails)
                       || (outcome == ExpectedReported
                           && !s.job.active && !s.queue.active && !s.abort.pending && !s.finish.pending));
      && LineSeen(s, line, AllowResync(s), fails).1 == stops
      && LineSeen(s, line, AllowResync(s), fails).0.status
         == if stops then seen.(phase := Broken, error := SerialFault) else seen
  {
    hide Handle, ReplyOf, Resync, Watched;
  }

  // ---- Jobs ----

  /** A job is taken exactly when nothing else is under way, its file can be read and it fits the printer; it then begins
      afresh. */
  lemma JobTakenIff(s: Service, j: JobRequest)
    ensures var t := JobAccepted(s, j);
      var free := !s.job.active && !s.finish.pending && !s.abort.pending && !s.queue.active && !Busy(s);
      && (free && j.file.Some? && j.insideVolume ==>
            && t.job.active && t.job.stage == Homing && t.file == j.file && t.status.phase == Preparing
            && !t.status.fault && t.status.error == NoFault && !t.abortRequested && Inflight(t.flow) == 0)
      && (free && j.file == None ==> t == s.(status := s.status.(error := StorageFault)))
      && (free && j.file.Some? && !j.insideVolume ==> t == s.(file := None))
      && (!free ==> t == s)
  {
    hide Inflight, Clear;
    ClearEmpties(s.flow);
  }

  /** A command of the job that does not go out ends it: with a serial fault when the device fails, and with a command
      fault when it cannot be a packet. */
  lemma LostCommandEndsJob(s: Service, broken: bool)
    requires s.file.Some? && s.file.value.rest != [] && CanSend(s.flow)
    requires broken || !Submittable(s.file.value.rest[0].command)
    ensures var t := ItemSent(s, broken);
      && !t.job.active && t.file == None && t.status.phase == Broken && t.status.fault && t.book.trace == s.book.trace
      && t.status.error == if Submittable(s.file.value.rest[0].command) then SerialFault else CommandFault
  {
    hide Clear;
  }

  /** What a job sends before its file: home, the filament primed unless the file does it, and known modes. */
  lemma OpeningIs(hasPrime: bool)
    ensures Opening(hasPrime)
         == ["G28", "G0 X105 Y0 F9000"] + (if hasPrime then [] else ["G10 S-6.5 F1500", "G10 S0 F300"])
            + ["G90", "M82", "G92 E0", "G0 F9000"]
  {
  }

  /** Between its lists a job waits until everything is acknowledged, and between home and start-up for its heaters. */
  lemma StagesInOrder(s: Service, broken: nat)
    ensures s.job.stage == HomeDrain ==>
              PreparePolled(s, broken) == if Inflight(s.flow) == 0 then s.(job := s.job.(stage := Heating)) else s
    ensures s.job.stage == StartupDrain ==>
              PreparePolled(s, broken) == if Inflight(s.flow) == 0 then s.(job := s.job.(stage := Streaming)) else s
    ensures s.job.stage == Heating ==>
              var t, cold := PreparePolled(s, broken), Chilly(s.status, s.wait, true) || Chilly(s.status, s.wait, false);
              && t.job == s.job.(stage := if cold then Heating else Startup) && t.book == s.book
              && (cold ==> t.wait == s.wait) && (!cold ==> !t.wait.active)
    ensures s.job.stage == Homing && PreparePolled(s, broken).job.stage != Homing ==>
              PreparePolled(s, broken).job.stage == HomeDrain
    ensures s.job.stage == Startup && PreparePolled(s, broken).job.stage != Startup ==>
              PreparePolled(s, broken).job.stage == StartupDrain
  {
    hide SendList, Inflight, Heated, Chilly, Recorded;
    WarmIff(s.status, s.wait);
  }

  /** A job whose printer shows a fault is dropped by the next job poll. */
  lemma FaultDropsJob(s: Service, readFails: bool, broken: nat)
    requires s.job.active && s.status.phase == Broken && !s.abortRequested && !Busy(s) && !s.queue.active
    ensures var t := JobPolled(s, readFails, broken);
      !t.job.active && t.file == None && !t.wait.active && !t.finish.pending && t.book == s.book && t.status == s.status
  {
    hide Clear;
  }

  // ---- Ends ----

  predicate AllSent(c: Cleanup, st: State) {
    c.pending && c.index == |c.policy| && Inflight(st) == 0
  }

  /** When everything has been acknowledged a finished job shows as finished, with the heaters off. */
  lemma FinishShown(s: Service, broken: nat)
    requires AllSent(s.finish, s.flow)
    ensures var t := FinishPolled(s, broken);
      && t.status == s.status.(phase := Finished, bedSet := 0.0, headSet := 0.0)
      && !t.job.active && !t.finish.pending && !t.wait.active
  {
    hide Inflight, Clear, Recorded;
  }

  /** An abort leaves the printer idle, without its fault. */
  lemma AbortShown(s: Service, broken: nat)
    requires AllSent(s.abort, s.flow)
    ensures var t := AbortPolled(s, broken);
      && t.status == s.status.(phase := Idle, fault := false, error := NoFault, bedSet := 0.0, headSet := 0.0)
      && !t.abort.pending && !t.wait.active
  {
    hide Inflight, Clear, Recorded;
  }

  /** A pause ends paused unless something else has happened meanwhile, and a resume ends printing. */
  lemma PauseAndResumeShown(s: Service, broken: nat)
    ensures AllSent(s.pause, s.flow) ==>
              var t := PausePolled(s, broken);
              !t.pause.pending
              && t.status == if s.status.phase in {Preparing, Printing, Pausing} then s.status.(phase := Paused) else s.status
    ensures AllSent(s.resume, s.flow) ==>
              var t := ResumeListPolled(s, broken);
              !t.resume.pending && !t.saved.valid && t.status == s.status.(phase := Printing)
  {
    hide Inflight, Recorded;
  }

  /** At rest the printer shows whether a heater is on. */
  lemma RestShown(s: Service)
    ensures var t, busy := Refreshed(s), s.job.active || s.abort.pending || s.finish.pending || s.queue.active || s.wait.active;
      && t == s.(status := t.status) && t.status == s.status.(phase := t.status.phase)
      && (busy || s.status.phase == Broken || s.status.phase == Finished ==> t == s)
      && (!busy && s.status.phase != Broken && s.status.phase != Finished ==>
            (t.status.phase == Preparing <==> s.status.bedSet > 0.0 || s.status.headSet > 0.0)
            && (t.status.phase == Idle <==> s.status.bedSet <= 0.0 && s.status.headSet <= 0.0))
  {
  }

  // ---- Requests ----

  /** An abort is taken when there is anything to stop, be it only a heater. */
  lemma AbortTakenIff(s: Service)
    ensures var any := s.job.active || s.queue.active || s.status.bedSet > 0.0 || s.status.headSet > 0.0
                       || s.status.phase in {Preparing, Printing, Paused, Aborting};
      && (any && s.ready && (s.file.Some? ==> s.job.active) ==> AbortStands(Aborted(s)))
      && (any && !s.ready ==> Aborted(s).status.phase == Idle && !Aborted(s).abort.pending && !Aborted(s).job.active)
      && (!any ==> Aborted(s) == s.(abortRequested := false))
  {
    hide Clear;
  }

  /** A pause asks for the position exactly when a job is under way that is preparing, printing or pausing already. */
  lemma PauseTakenIff(s: Service)
    ensures PauseAsked(s).probe.pending && !Busy(s)
       <==> !Busy(s) && s.job.active && s.status.phase in {Preparing, Printing, Pausing, Paused}
    ensures PauseAsked(s).probe.pending && !Busy(s) ==>
              && !PauseAsked(s).probe.sent && PauseAsked(s).probe.start == s.status.reports && !PauseAsked(s).saved.valid
              && PauseAsked(s).status.phase == if s.status.phase in {Preparing, Printing} then Pausing else Paused
    ensures !Busy(s) && !s.job.active && s.status.phase in {Preparing, Printing, Pausing, Paused} ==>
              PauseAsked(s).status.phase == Paused && (PauseAsked(s).saved.valid <==> s.status.reports > 0)
    ensures Busy(s) || s.status.phase in {Idle, Aborting, Finished, Broken} ==> PauseAsked(s) == s
  {
  }

  /** A resume drives back only from a saved place; without one the print just goes on. */
  lemma ResumeTakenIff(s: Service)
    ensures var t, paused := ResumeAsked(s), !Busy(s) && s.status.phase == Paused;
      && (t.resume.pending && !Busy(s) <==> paused && s.saved.valid)
      && (paused && s.saved.valid ==>
            t.status == s.status.(headSet := s.saved.nozzle,
                                  phase := if s.saved.nozzle > 0.0 then Preparing else Printing))
      && (paused && !s.saved.valid ==>
            t.status == s.status.(phase := if s.wait.active then Preparing else Printing))
      && (!paused ==> t == s)
  {
    hide ResumeCommands;
  }

  // ---- Heaters set by hand ----

  /** The last target that the items name for a heater. */
  function LastTarget(env: Env, items: seq<Item>, bed: bool, before: real): real {
    if items == [] then before else
    var h := env.heater(items[|items| - 1].command);
    if h == None || h.value.bed != bed then LastTarget(env, items[..|items| - 1], bed, before)
    else if h.value.target < 0.0 then 0.0
    else h.value.target
  }

  lemma {:induction false} HandTargetsShown(env: Env, s: Status, items: seq<Item>)
    ensures HeatersSet(env, s, items)
         == s.(bedSet := LastTarget(env, items, true, s.bedSet), headSet := LastTarget(env, items, false, s.headSet))
  {
    if items != [] {
      HandTargetsShown(env, s, items[..|items| - 1]);
    }
  }
}
