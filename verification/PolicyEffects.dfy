/** What the fixed command lists do to a printer: the commands they are made of, as the motion controller carries them
    out. The head must not be driven down, and the motors must not be released while moves are outstanding. */
module PolicyEffects {
  import opened GcodeRewrite
  import opened MotionPolicy

  /** retracted: how far the filament is held back; moving: moves may be outstanding; strange: something was sent that
      is not in this dialect, a move downwards among it, or the motors were released during a move. */
  datatype Printer = Printer(absolute: bool, extrudesAbsolute: bool, x: real, y: real, z: real, e: real, retracted: real,
                             bed: real, head: real, fan: real, released: bool, moving: bool, strange: bool)

  /** A move of the head; up: by how much it has to rise. */
  function Travels(p: Printer, x: real, y: real, z: real): Printer {
    p.(x := x, y := y, z := z, moving := true, released := false, strange := p.strange || z < p.z)
  }

  function Does(p: Printer, command: string): Printer {
    if command == "G90" then p.(absolute := true)
    else if command == "G91" then p.(absolute := false)
    else if command == "M82" then p.(extrudesAbsolute := true)
    else if command == "G92 E0" then p.(e := 0.0)
    else if command == "G0 F9000" then p
    else if command == "G28" then p.(x := 0.0, y := 0.0, z := 0.0, moving := true, released := false)
    else if command == "G28 X Y" then p.(x := 0.0, y := 0.0, moving := true, released := false)
    else if command == "G28 Z" then p.(z := 0.0, moving := true, released := false)
    else if command == "G0 X105 Y0 F9000" then
      if p.absolute then Travels(p, 105.0, 0.0, p.z) else Travels(p, p.x + 105.0, p.y, p.z)
    else if command == "G1 Z3" then
      if p.absolute then Travels(p, p.x, p.y, 3.0) else Travels(p, p.x, p.y, p.z + 3.0)
    else if command == "G1 X20 Y20 E-6.5 F9000" then
      if p.absolute then Travels(p, 20.0, 20.0, p.z).(e := -6.5)
      else Travels(p, p.x + 20.0, p.y + 20.0, p.z).(e := p.e - 6.5)
    else if command == "G10 S-6.5 F1500" then p.(retracted := 6.5)
    else if command == "G10 S-16.5" then p.(retracted := 16.5)
    else if command == "G10 S0 F300" then p.(retracted := 0.0)
    else if command == "M104 S0" then p.(head := 0.0)
    else if command == "M140 S0" then p.(bed := 0.0)
    else if command == "M106 S0" then p.(fan := 0.0)
    else if command == "M400" then p.(moving := false)
    else if command == "M84" then p.(released := true, strange := p.strange || p.moving)
    else p.(strange := true)
  }

  function DoesAll(p: Printer, commands: seq<string>): Printer {
    if commands == [] then p else Does(DoesAll(p, commands[..|commands| - 1]), commands[|commands| - 1])
  }

  /** The commands one after the other. */
  lemma {:induction false} InTurn(p: Printer, a: seq<string>, b: seq<string>)
    ensures DoesAll(p, a + b) == DoesAll(DoesAll(p, a), b)
  {
    hide Does;
    if b == [] {
      assert a + b == a;
    } else {
      InTurn(p, a, b[..|b| - 1]);
      assert (a + b)[..|a + b| - 1] == a + b[..|b| - 1];
    }
  }

  lemma SetsModes(p: Printer)
    ensures Does(p, "G90") == p.(absolute := true) && Does(p, "G91") == p.(absolute := false)
    ensures Does(p, "M82") == p.(extrudesAbsolute := true) && Does(p, "G92 E0") == p.(e := 0.0) && Does(p, "G0 F9000") == p
  {
  }

  lemma GoesHome(p: Printer)
    ensures Does(p, "G28") == p.(x := 0.0, y := 0.0, z := 0.0, moving := true, released := false)
    ensures Does(p, "G28 X Y") == p.(x := 0.0, y := 0.0, moving := true, released := false)
    ensures Does(p, "G28 Z") == p.(z := 0.0, moving := true, released := false)
  {
  }

  lemma GoesToFront(p: Printer)
    requires p.absolute
    ensures Does(p, "G0 X105 Y0 F9000") == Travels(p, 105.0, 0.0, p.z)
  {
  }

  lemma Lifts(p: Printer)
    requires !p.absolute
    ensures Does(p, "G1 Z3") == Travels(p, p.x, p.y, p.z + 3.0)
  {
  }

  lemma StepsAside(p: Printer)
    requires !p.absolute
    ensures Does(p, "G1 X20 Y20 E-6.5 F9000") == Travels(p, p.x + 20.0, p.y + 20.0, p.z).(e := p.e - 6.5)
  {
  }

  lemma Retracts(p: Printer)
    ensures Does(p, "G10 S-6.5 F1500") == p.(retracted := 6.5) && Does(p, "G10 S-16.5") == p.(retracted := 16.5)
    ensures Does(p, "G10 S0 F300") == p.(retracted := 0.0)
  {
  }

  lemma SwitchesOff(p: Printer)
    ensures Does(p, "M104 S0") == p.(head := 0.0) && Does(p, "M140 S0") == p.(bed := 0.0)
    ensures Does(p, "M106 S0") == p.(fan := 0.0) && Does(p, "M400") == p.(moving := false)
    ensures Does(p, "M84") == p.(released := true, strange := p.strange || p.moving)
  {
  }

  lemma OneMore(p: Printer, commands: seq<string>, n: nat)
    requires n < |commands|
    ensures DoesAll(p, commands[..0]) == p
    ensures DoesAll(p, commands[..n + 1]) == Does(DoesAll(p, commands[..n]), commands[n])
  {
    hide Does;
    assert commands[..n + 1][..n] == commands[..n];
  }

  const LIFT := ["G1 Z3", "G90"]
  const BESIDE := ["G91", "G1 X20 Y20 E-6.5 F9000"]
  const SETTLE := ["M400", "G91"]
  const ASIDE := BESIDE + LIFT
  const RAISE := SETTLE + LIFT
  const PARK := ["G28 X Y", "G28 Z"]
  const SWITCH_OFF := ["M104 S0", "M140 S0", "M106 S0", "M400", "M84"]

  lemma LiftLeaves(p: Printer)
    requires !p.absolute
    ensures DoesAll(p, LIFT) == p.(absolute := true, z := p.z + 3.0, moving := true, released := false)
  {
    hide Does;
    OneMore(p, LIFT, 0);
    Lifts(p);
    var q := Travels(p, p.x, p.y, p.z + 3.0);
    OneMore(p, LIFT, 1);
    SetsModes(q);
    assert LIFT[..2] == LIFT;
  }

  lemma AsideLeaves(p: Printer)
    ensures DoesAll(p, ASIDE)
         == p.(absolute := true, x := p.x + 20.0, y := p.y + 20.0, z := p.z + 3.0, e := p.e - 6.5, moving := true,
               released := false)
  {
    hide Does, DoesAll;
    InTurn(p, BESIDE, LIFT);
    BesideLeaves(p);
    LiftLeaves(DoesAll(p, BESIDE));
  }

  lemma BesideLeaves(p: Printer)
    ensures DoesAll(p, BESIDE) == Travels(p.(absolute := false), p.x + 20.0, p.y + 20.0, p.z).(e := p.e - 6.5)
  {
    hide Does, Travels;
    Two(p, "G91", "G1 X20 Y20 E-6.5 F9000");
    SetsModes(p);
    StepsAside(p.(absolute := false));
  }

  lemma Two(p: Printer, a: string, b: string)
    ensures DoesAll(p, [a, b]) == Does(Does(p, a), b)
  {
    hide Does;
    OneMore(p, [a, b], 0);
    OneMore(p, [a, b], 1);
    assert [a, b][..2] == [a, b];
  }

  lemma RaiseLeaves(p: Printer)
    ensures DoesAll(p, RAISE) == p.(absolute := true, z := p.z + 3.0, moving := true, released := false)
  {
    hide Does, DoesAll;
    InTurn(p, SETTLE, LIFT);
    SettleLeaves(p);
    LiftLeaves(DoesAll(p, SETTLE));
  }

  lemma SettleLeaves(p: Printer)
    ensures DoesAll(p, SETTLE) == p.(moving := false, absolute := false)
  {
    hide Does;
    Two(p, "M400", "G91");
    SwitchesOff(p);
    SetsModes(p.(moving := false));
  }

  lemma ParkLeaves(p: Printer)
    ensures DoesAll(p, PARK) == p.(x := 0.0, y := 0.0, z := 0.0, moving := true, released := false)
  {
    hide Does;
    OneMore(p, PARK, 0);
    GoesHome(p);
    var p1 := p.(x := 0.0, y := 0.0, moving := true, released := false);
    OneMore(p, PARK, 1);
    GoesHome(p1);
    assert PARK[..2] == PARK;
  }

  lemma SwitchOffLeaves(p: Printer)
    ensures DoesAll(p, SWITCH_OFF) == p.(bed := 0.0, head := 0.0, fan := 0.0, moving := false, released := true)
  {
    hide Does;
    OneMore(p, SWITCH_OFF, 0);
    SwitchesOff(p);
    var p1 := p.(head := 0.0);
    OneMore(p, SWITCH_OFF, 1);
    SwitchesOff(p1);
    var p2 := p1.(bed := 0.0);
    OneMore(p, SWITCH_OFF, 2);
    SwitchesOff(p2);
    var p3 := p2.(fan := 0.0);
    OneMore(p, SWITCH_OFF, 3);
    SwitchesOff(p3);
    var p4 := p3.(moving := false);
    OneMore(p, SWITCH_OFF, 4);
    SwitchesOff(p4);
    assert SWITCH_OFF[..5] == SWITCH_OFF;
  }

  /** An abort, wherever the head is: 20 mm aside with the filament pulled back, then up by 3 mm, home, heaters and fan
      off, and when everything has stopped the motors are released. */
  lemma AbortLeaves(p: Printer)
    requires !p.strange
    ensures ABORT_COMMANDS[..4] == ASIDE
    ensures DoesAll(p, ABORT_COMMANDS)
         == p.(absolute := true, x := 0.0, y := 0.0, z := 0.0, e := p.e - 6.5, retracted := 16.5, bed := 0.0, head := 0.0,
               fan := 0.0, moving := false, released := true)
  {
    hide Does, DoesAll;
    assert ABORT_COMMANDS == ASIDE + (["G10 S-16.5"] + (PARK + SWITCH_OFF));
    var q := DoesAll(p, ASIDE);
    AsideLeaves(p);
    InTurn(p, ASIDE, ["G10 S-16.5"] + (PARK + SWITCH_OFF));
    InTurn(q, ["G10 S-16.5"], PARK + SWITCH_OFF);
    JustOne(q, "G10 S-16.5");
    Retracts(q);
    ParkLeaves(q.(retracted := 16.5));
    InTurn(q.(retracted := 16.5), PARK, SWITCH_OFF);
    SwitchOffLeaves(DoesAll(q.(retracted := 16.5), PARK));
  }

  lemma JustOne(p: Printer, command: string)
    ensures DoesAll(p, [command]) == Does(p, command)
  {
    hide Does;
    assert [command][..0] == [];
  }

  /** The end of a print: when everything has stopped the head rises by 3 mm and goes home; heaters and fan off, and the
      motors are released when it has arrived. */
  lemma FinishLeaves(p: Printer)
    requires !p.strange
    ensures FINISH_COMMANDS[..4] == RAISE
    ensures DoesAll(p, FINISH_COMMANDS)
         == p.(absolute := true, x := 0.0, y := 0.0, z := 0.0, bed := 0.0, head := 0.0, fan := 0.0, moving := false,
               released := true)
  {
    hide Does, DoesAll;
    assert FINISH_COMMANDS == RAISE + (PARK + SWITCH_OFF);
    var q := DoesAll(p, RAISE);
    RaiseLeaves(p);
    InTurn(p, RAISE, PARK + SWITCH_OFF);
    ParkLeaves(q);
    InTurn(q, PARK, SWITCH_OFF);
    SwitchOffLeaves(DoesAll(q, PARK));
  }

  /** The beginning of a print: the head goes home and to its place at the front. */
  lemma HomeLeaves(p: Printer)
    requires p.absolute && !p.strange
    ensures DoesAll(p, HOME_COMMANDS) == p.(x := 105.0, y := 0.0, z := 0.0, moving := true, released := false)
  {
    hide Does;
    OneMore(p, HOME_COMMANDS, 0);
    GoesHome(p);
    var p1 := p.(x := 0.0, y := 0.0, z := 0.0, moving := true, released := false);
    OneMore(p, HOME_COMMANDS, 1);
    GoesToFront(p1);
    assert HOME_COMMANDS[..2] == HOME_COMMANDS;
  }

  /** Unless the file primes, the filament goes back and forth once. */
  lemma PrimeLeaves(p: Printer)
    ensures DoesAll(p, PRIME_COMMANDS[..1]) == p.(retracted := 6.5) && DoesAll(p, PRIME_COMMANDS) == p.(retracted := 0.0)
  {
    hide Does;
    OneMore(p, PRIME_COMMANDS, 0);
    Retracts(p);
    var p1 := p.(retracted := 6.5);
    OneMore(p, PRIME_COMMANDS, 1);
    Retracts(p1);
    assert PRIME_COMMANDS[..2] == PRIME_COMMANDS;
  }

  /** Then coordinates are absolute and the extruder is at zero, whatever was set before. */
  lemma StartupLeaves(p: Printer)
    ensures DoesAll(p, STARTUP_COMMANDS) == p.(absolute := true, extrudesAbsolute := true, e := 0.0)
  {
    hide Does;
    OneMore(p, STARTUP_COMMANDS, 0);
    SetsModes(p);
    var p1 := p.(absolute := true);
    OneMore(p, STARTUP_COMMANDS, 1);
    SetsModes(p1);
    var p2 := p1.(extrudesAbsolute := true);
    OneMore(p, STARTUP_COMMANDS, 2);
    SetsModes(p2);
    var p3 := p2.(e := 0.0);
    OneMore(p, STARTUP_COMMANDS, 3);
    SetsModes(p3);
    assert STARTUP_COMMANDS[..4] == STARTUP_COMMANDS;
  }
}
