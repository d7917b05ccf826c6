/** The status a client sees and the wait for a heater, and what a line from the controller does to them. */
module PrintStatus {
  import opened FlowState
  import opened MarlinPacket

  datatype Phase = Idle | Preparing | Printing | Pausing | Paused | Aborting | Finished | Broken

  datatype Fault = NoFault | ThermalFault | EndstopFault | MarlinFault | StorageFault | SerialFault | CommandFault
                 | UnknownFault

  datatype Status = Status(phase: Phase, fault: bool, error: Fault, bedSet: real, headSet: real, bedNow: real,
                           headNow: real, reports: u32, x: real, y: real, z: real, e: real, r0: real,
                           firmware: bool)

  const FRESH_STATUS := Status(Idle, false, NoFault, 0.0, 0.0, 0.0, 0.0, 0, 0.0, 0.0, 0.0, 0.0, 0.0, false)

  /** Some print is under way. */
  predicate Active(s: Status) {
    s.phase == Preparing || s.phase == Printing || s.phase == Pausing || s.phase == Paused || s.phase == Aborting
  }

  // ---- Life of a job ----

  function Started(s: Status, bed: real, head: real): Status {
    s.(phase := Preparing, fault := false, error := NoFault,
       bedSet := if bed > 0.0 then bed else s.bedSet, headSet := if head > 0.0 then head else s.headSet)
  }

  function Completed(s: Status): Status {
    s.(phase := Finished, bedSet := 0.0, headSet := 0.0)
  }

  function Cancelled(s: Status): Status {
    s.(phase := Idle, fault := false, error := NoFault, bedSet := 0.0, headSet := 0.0)
  }

  function FaultedWith(s: Status, error: Fault): Status {
    s.(phase := Broken, fault := true, error := error)
  }

  // ---- Waiting for a heater ----

  const TOLERANCE := 1.0

  datatype HeaterWait = HeaterWait(active: bool, bed: bool, head: bool, bedTarget: real, headTarget: real)

  const NO_WAIT := HeaterWait(false, false, false, 0.0, 0.0)

  function WaitBoth(bed: real, head: real): HeaterWait {
    HeaterWait(bed > 0.0 || head > 0.0, bed > 0.0, head > 0.0, bed, head)
  }

  function WaitBed(bed: real): HeaterWait {
    HeaterWait(bed > 0.0, bed > 0.0, false, bed, 0.0)
  }

  function WaitHead(head: real): HeaterWait {
    HeaterWait(head > 0.0, false, head > 0.0, 0.0, head)
  }

  function Off(w: HeaterWait): HeaterWait {
    w.(active := false)
  }

  predicate Warm(now: real, target: real) {
    target <= 0.0 || now >= target - TOLERANCE
  }

  predicate Heated(w: HeaterWait, s: Status) {
    !w.active || ((w.bed ==> Warm(s.bedNow, w.bedTarget)) && (w.head ==> Warm(s.headNow, w.headTarget)))
  }

  /** An armed wait shows as preparing, whatever the status was. */
  function Waiting(w: HeaterWait, s: Status): Status {
    if !w.active then s else
    s.(phase := Preparing, bedSet := if w.bed then w.bedTarget else s.bedSet,
       headSet := if w.head then w.headTarget else s.headSet)
  }

  // ---- Lines from the controller ----

  datatype Reading =
    | FaultLine(error: Fault)
    | VersionLine(known: Option<bool>)
    | Temperatures(head: Option<Temperature>, bed: Option<Temperature>)
    | Position(x: real, y: real, z: real, e: real, r0: Option<real>)
    | NoReading

  datatype Temperature = Temperature(now: real, target: Option<real>)

  function Noted(s: Status, r: Reading): Status {
    match r
    case FaultLine(error) => FaultedWith(s, error)
    case VersionLine(known) => if known.Some? then s.(firmware := known.value) else s
    case Temperatures(head, bed) =>
      s.(headNow := if head.Some? then head.value.now else s.headNow,
         headSet := if head.Some? && head.value.target.Some? then head.value.target.value else s.headSet,
         bedNow := if bed.Some? then bed.value.now else s.bedNow,
         bedSet := if bed.Some? && bed.value.target.Some? then bed.value.target.value else s.bedSet)
    case Position(x, y, z, e, r0) =>
      s.(x := x, y := y, z := z, e := e, r0 := if r0.Some? then r0.value else s.r0, reports := (s.reports + 1) % U32)
    case NoReading => s
  }

  /** The status and the wait after a line. */
  function Watched(s: Status, w: HeaterWait, r: Reading): (Status, HeaterWait) {
    var t := Noted(s, r);
    if Heated(w, t) then (t, Off(w)) else (Waiting(w, t), w)
  }

  /** A line leaves the phase alone, apart from reporting a fault, exactly when no wait is left over it
      or the phase already is the waiting one: a wait hides even a pause or a fault. */
  lemma WaitHidesPhase(s: Status, w: HeaterWait, r: Reading)
    ensures Watched(s, w, r).0.phase == Noted(s, r).phase
       <==> !Watched(s, w, r).1.active || Noted(s, r).phase == Preparing
    ensures Watched(s, w, r).1.active ==> Watched(s, w, r).0.phase == Preparing
  {
  }
}
