/** The fixed command lists of the print service, and the two computed from a position. */
module MotionPolicy {
  import opened GcodeRewrite

  const HOME_COMMANDS := ["G28", "G0 X105 Y0 F9000"]
  const PRIME_COMMANDS := ["G10 S-6.5 F1500", "G10 S0 F300"]
  const STARTUP_COMMANDS := ["G90", "M82", "G92 E0", "G0 F9000"]

  const ABORT_COMMANDS :=
    ["G91", "G1 X20 Y20 E-6.5 F9000", "G1 Z3", "G90", "G10 S-16.5", "G28 X Y", "G28 Z", "M104 S0", "M140 S0",
     "M106 S0", "M400", "M84"]

  const FINISH_COMMANDS :=
    ["M400", "G91", "G1 Z3", "G90", "G28 X Y", "G28 Z", "M104 S0", "M140 S0", "M106 S0", "M400", "M84"]

  const MAX_X := 223.0
  const MAX_Y := 220.0
  const MAX_Z := 205.0
  const MAX_NOZZLE := 260.0

  function Clamp(value: real, max: real): (r: real)
    requires max >= 0.0
    ensures 0.0 <= r <= max
  {
    if value < 0.0 then 0.0 else if value <= max then value else max
  }

  /** Where the head wipes: 50 mm towards the middle. */
  function WipeX(x: real): real {
    var c := Clamp(x, MAX_X);
    Clamp(c + if c <= 100.0 then 50.0 else -50.0, MAX_X)
  }

  function LiftZ(z: real): real {
    var c := Clamp(z, MAX_Z);
    Clamp(if c <= 200.0 then c + 10.0 else c, MAX_Z)
  }

  function PauseCommands(libc: Libc, x: real, y: real, z: real): seq<string> {
    [ "M83",
      "G0 F9000",
      "G1 E-6.5 X" + libc.number(WipeX(x)),
      "G0 Z" + libc.number(LiftZ(z)),
      "G0 X5 Y10",
      "M82",
      "G10 S-16.5 F1500",
      "G0 Z" + libc.number(MAX_Z) + " F9000",
      "M400",
      "M104 S0" ]
  }

  function ResumeCommands(libc: Libc, x: real, y: real, z: real, e: real, r0: real, nozzle: real): seq<string> {
    var heat := Clamp(nozzle, MAX_NOZZLE);
    (if heat > 0.0 then
       ["M104 S" + libc.number(heat), "M109 S" + libc.number(heat), "M83", "G0 E10 F1500"]
     else [])
    + ["G0 F9000",
       "G0 X" + libc.number(Clamp(x, MAX_X)) + " Y" + libc.number(Clamp(y, MAX_Y)),
       "G0 Z" + libc.number(Clamp(z, MAX_Z))]
    + (if heat > 0.0 then
         ["G0 E6.5 F1500", "M82", "G10 S" + libc.number(r0), "G92 E" + libc.number(e)]
       else [])
    + ["M105"]
  }

  /** Builds a list entry by entry in the fixed table; no entry is lost. */
  method BuildPause(libc: Libc, x: real, y: real, z: real) returns (policy: seq<string>)
    ensures policy == PauseCommands(libc, x, y, z)
    ensures |policy| == 10
  {
    policy := AddAll(["M83", "G0 F9000", "G1 E-6.5 X" + libc.number(WipeX(x)), "G0 Z" + libc.number(LiftZ(z)),
                      "G0 X5 Y10", "M82", "G10 S-16.5 F1500", "G0 Z" + libc.number(MAX_Z) + " F9000", "M400",
                      "M104 S0"]);
  }

  method BuildResume(libc: Libc, x: real, y: real, z: real, e: real, r0: real, nozzle: real)
    returns (policy: seq<string>)
    ensures policy == ResumeCommands(libc, x, y, z, e, r0, nozzle)
    ensures |policy| == (if nozzle > 0.0 then 12 else 4) <= MAX_COMMANDS
  {
    var heat := Clamp(nozzle, MAX_NOZZLE);
    policy := [];
    if heat > 0.0 {
      policy := AddAll(["M104 S" + libc.number(heat), "M109 S" + libc.number(heat), "M83", "G0 E10 F1500"]);
    }
    policy := Add(policy, "G0 F9000");
    policy := Add(policy, "G0 X" + libc.number(Clamp(x, MAX_X)) + " Y" + libc.number(Clamp(y, MAX_Y)));
    policy := Add(policy, "G0 Z" + libc.number(Clamp(z, MAX_Z)));
    if heat > 0.0 {
      policy := Add(policy, "G0 E6.5 F1500");
      policy := Add(policy, "M82");
      policy := Add(policy, "G10 S" + libc.number(r0));
      policy := Add(policy, "G92 E" + libc.number(e));
    }
    policy := Add(policy, "M105");
  }

  /** Pausing never lowers the head and wipes exactly 50 mm, for every position inside the build volume. */
  lemma PauseMovesAreSafe(x: real, z: real)
    requires 0.0 <= x <= MAX_X && 0.0 <= z <= MAX_Z
    ensures LiftZ(z) >= z && LiftZ(z) <= MAX_Z
    ensures WipeX(x) == x + 50.0 || WipeX(x) == x - 50.0
  {
  }

  // ---- Where the lists drive the head ----

  predicate InVolume(x: real, y: real, z: real) {
    0.0 <= x <= 223.0 && 0.0 <= y <= 220.0 && 0.0 <= z <= 205.0
  }

  /** A resume drives back to the saved position, across before down. A heated one first heats up and lets 10 mm of
      filament run, and at the end takes the extruder for where it stood. */
  lemma ResumeDrivesBack(libc: Libc, x: real, y: real, z: real, e: real, r0: real, nozzle: real)
    requires InVolume(x, y, z)
    ensures nozzle <= 0.0 ==>
              ResumeCommands(libc, x, y, z, e, r0, nozzle)
              == ["G0 F9000", "G0 X" + libc.number(x) + " Y" + libc.number(y), "G0 Z" + libc.number(z), "M105"]
    ensures nozzle > 0.0 ==>
              var heat := libc.number(if nozzle > 260.0 then 260.0 else nozzle);
              ResumeCommands(libc, x, y, z, e, r0, nozzle)
              == ["M104 S" + heat, "M109 S" + heat, "M83", "G0 E10 F1500",
                  "G0 F9000", "G0 X" + libc.number(x) + " Y" + libc.number(y), "G0 Z" + libc.number(z),
                  "G0 E6.5 F1500", "M82", "G10 S" + libc.number(r0), "G92 E" + libc.number(e), "M105"]
  {
  }

  /** A pause pulls the filament back while it wipes 50 mm towards the middle, rises by 10 mm as far as there is room,
      goes to the front and all the way up, and when it is there lets the nozzle cool. */
  lemma PauseDrivesAside(libc: Libc, x: real, y: real, z: real)
    requires InVolume(x, y, z)
    ensures var aside := if x <= 100.0 then x + 50.0 else x - 50.0;
      var up := if z > 200.0 then z else if z > 195.0 then 205.0 else z + 10.0;
      PauseCommands(libc, x, y, z)
      == ["M83", "G0 F9000", "G1 E-6.5 X" + libc.number(aside), "G0 Z" + libc.number(up), "G0 X5 Y10", "M82",
          "G10 S-16.5 F1500", "G0 Z" + libc.number(205.0) + " F9000", "M400", "M104 S0"]
  {
  }

  function Distance(a: real, b: real): real {
    if a < b then b - a else a - b
  }

  /** From anywhere else both lists are those of the nearest point of the build volume. */
  lemma OutsideIsNearest(libc: Libc, x: real, y: real, z: real, e: real, r0: real, nozzle: real)
    returns (a: real, b: real, c: real)
    ensures InVolume(a, b, c)
    ensures ResumeCommands(libc, x, y, z, e, r0, nozzle) == ResumeCommands(libc, a, b, c, e, r0, nozzle)
    ensures PauseCommands(libc, x, y, z) == PauseCommands(libc, a, b, c)
    ensures forall u, v, w :: InVolume(u, v, w) ==>
              Distance(x, a) <= Distance(x, u) && Distance(y, b) <= Distance(y, v) && Distance(z, c) <= Distance(z, w)
  {
    a, b, c := Clamp(x, MAX_X), Clamp(y, MAX_Y), Clamp(z, MAX_Z);
  }
}
