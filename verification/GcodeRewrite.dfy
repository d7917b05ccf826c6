/** Rewriting of one G-code line into the commands the controller understands. */
module GcodeRewrite {
  import opened MarlinPacket

  const MAX_COMMANDS := 16

  /** The number scanner and printer of the C library. number: at most three significant digits. */
  datatype Libc = Libc(scan: string -> Option<real>, number: real -> string)

  predicate IsSpace(c: char) {
    c == ' ' || '\t' <= c <= '\r'
  }

  function SkipSpace(s: string): (r: string)
    ensures |r| <= |s|
  {
    if s == "" || !IsSpace(s[0]) then s else SkipSpace(s[1..])
  }

  predicate IsCommand(line: string, name: string) {
    var s := SkipSpace(line);
    name <= s && (|s| == |name| || IsSpace(s[|name|]))
  }

  function Upper(c: char): char {
    if 'a' <= c <= 'z' then c - 'a' + 'A' else c
  }

  /** The number behind the first letter that has one. */
  function Parameter(libc: Libc, line: string, letter: char): Option<real> {
    if line == "" then None
    else if Upper(line[0]) == Upper(letter) && libc.scan(line[1..]).Some? then libc.scan(line[1..])
    else Parameter(libc, line[1..], letter)
  }

  datatype Rewritten = Rewritten(commands: seq<string>, waitBed: bool, waitNozzle: bool, target: real)

  function Target(libc: Libc, line: string): real {
    var t := Parameter(libc, line, 'S');
    if t == None || t.value < 0.0 then 0.0 else t.value
  }

  const PRIME_DISTANCE := 8.5
  const RETRACT_DISTANCE := 6.5
  const COLD_ZONE_DISTANCE := 16.5
  const WIPE_SPEED := 1200.0

  function PrimeCommands(libc: Libc): seq<string> {
    [ "G0 Z2 F9000",
      "G10 S" + libc.number(-RETRACT_DISTANCE) + " F1500",
      "G10 S0 F300",
      "G92 E0",
      "G1 E" + libc.number(PRIME_DISTANCE * 0.9) + " F75",
      "G1 E" + libc.number(PRIME_DISTANCE * 0.9 + PRIME_DISTANCE * 0.1) + " Z6 F150",
      "G0 Z6.1 F" + libc.number(0.2 * 0.1 * 60.0),
      "G92 E0",
      "G1 E" + libc.number(-RETRACT_DISTANCE) + " F600",
      "G0 Z6.2 F" + libc.number(0.4 * 0.1 * 60.0),
      "G91",
      "G0 Y10 F" + libc.number(WIPE_SPEED),
      "G90",
      "G0 Z2 F" + libc.number(WIPE_SPEED),
      "G0 F9000" ]
  }

  function Rewrite(libc: Libc, line: string): Rewritten {
    if IsCommand(line, "M117") then Rewritten([], false, false, 0.0)
    else if IsCommand(line, "M190") then
      Rewritten(["M140 S" + libc.number(Target(libc, line))], true, false, Target(libc, line))
    else if IsCommand(line, "M109") then
      Rewritten(["M104 S" + libc.number(Target(libc, line))], false, true, Target(libc, line))
    else if IsCommand(line, "G280") then
      var strategy := Parameter(libc, line, 'S');
      if strategy.Some? && !(-1.0 < strategy.value < 1.0) then
        Rewritten(["G92 E" + libc.number(-COLD_ZONE_DISTANCE)], false, false, 0.0)
      else Rewritten(PrimeCommands(libc), false, false, 0.0)
    else Rewritten([line], false, false, 0.0)
  }

  /** Appends while there is room, as the fixed table of commands does. */
  method Add(commands: seq<string>, command: string) returns (r: seq<string>)
    ensures r == if |commands| < MAX_COMMANDS then commands + [command] else commands
  {
    r := commands;
    if |commands| < MAX_COMMANDS {
      r := r + [command];
    }
  }

  method AddAll(more: seq<string>) returns (r: seq<string>)
    requires |more| <= MAX_COMMANDS
    ensures r == more
  {
    r := [];
    for i := 0 to |more|
      invariant r == more[..i]
    {
      r := Add(r, more[i]);
    }
  }

  /** Nothing a line expands to is lost to the table's limit. */
  method RewriteLine(libc: Libc, line: string) returns (r: Rewritten)
    ensures r == Rewrite(libc, line)
    ensures |r.commands| < MAX_COMMANDS
  {
    hide IsCommand, Parameter;
    var commands: seq<string> := [];
    if IsCommand(line, "M117") {
      return Rewritten(commands, false, false, 0.0);
    }
    if IsCommand(line, "M190") {
      commands := Add(commands, "M140 S" + libc.number(Target(libc, line)));
      return Rewritten(commands, true, false, Target(libc, line));
    }
    if IsCommand(line, "M109") {
      commands := Add(commands, "M104 S" + libc.number(Target(libc, line)));
      return Rewritten(commands, false, true, Target(libc, line));
    }
    if IsCommand(line, "G280") {
      var strategy := Parameter(libc, line, 'S');
      if strategy.Some? && !(-1.0 < strategy.value < 1.0) {
        commands := Add(commands, "G92 E" + libc.number(-COLD_ZONE_DISTANCE));
        return Rewritten(commands, false, false, 0.0);
      }
      commands := AddAll(PrimeCommands(libc));
      return Rewritten(commands, false, false, 0.0);
    }
    commands := Add(commands, line);
    return Rewritten(commands, false, false, 0.0);
  }

  // ---- What a line comes to ----

  /** The name stands behind k blanks, and a blank or nothing follows it. */
  predicate NamedAt(line: string, name: string, k: nat) {
    && k + |name| <= |line| && line[k..k + |name|] == name
    && (forall i :: 0 <= i < k ==> IsSpace(line[i])) && (k + |name| < |line| ==> IsSpace(line[k + |name|]))
  }

  lemma {:induction false} SkippedBlanks(line: string) returns (k: nat)
    ensures k <= |line| && SkipSpace(line) == line[k..]
    ensures (forall i :: 0 <= i < k ==> IsSpace(line[i])) && (k < |line| ==> !IsSpace(line[k]))
  {
    if line == "" || !IsSpace(line[0]) {
      k := 0;
    } else {
      var j := SkippedBlanks(line[1..]);
      k := j + 1;
      assert forall i :: 0 < i < k ==> line[i] == line[1..][i - 1];
    }
  }

  /** A line is a command when its first word is the command's name. */
  lemma CommandIff(line: string, name: string)
    requires name != "" && !IsSpace(name[0])
    ensures IsCommand(line, name) <==> exists k: nat :: NamedAt(line, name, k)
  {
    hide SkipSpace;
    var k := SkippedBlanks(line);
    var s := SkipSpace(line);
    if IsCommand(line, name) {
      assert line[k..k + |name|] == s[..|name|];
      assert NamedAt(line, name, k);
    }
    if j: nat :| NamedAt(line, name, j) {
      assert line[j] == line[j..j + |name|][0] == name[0];
      assert j == k;
      assert s[..|name|] == line[k..k + |name|];
    }
  }

  /** No line is two commands of four letters. */
  lemma OneCommand(line: string, a: string, b: string)
    requires |a| == |b| && IsCommand(line, a) && IsCommand(line, b)
    ensures a == b
  {
    var s := SkipSpace(line);
    assert s[..|a|] == a && s[..|b|] == b;
  }

  /** A number stands behind the letter at i. */
  predicate ParameterAt(libc: Libc, line: string, letter: char, i: nat) {
    i < |line| && Upper(line[i]) == Upper(letter) && libc.scan(line[i + 1..]).Some?
  }

  /** The value of a parameter is the number behind the first such letter that has one. */
  lemma {:induction false} ParameterIsFirst(libc: Libc, line: string, letter: char)
    ensures Parameter(libc, line, letter) == None <==> forall i :: 0 <= i < |line| ==> !ParameterAt(libc, line, letter, i)
    ensures Parameter(libc, line, letter).Some? ==>
              exists i: nat :: ParameterAt(libc, line, letter, i) && libc.scan(line[i + 1..]) == Parameter(libc, line, letter)
                          && forall j :: 0 <= j < i ==> !ParameterAt(libc, line, letter, j)
  {
    if line != "" {
      var rest := line[1..];
      ParameterIsFirst(libc, rest, letter);
      forall i: nat ensures ParameterAt(libc, rest, letter, i) <==> ParameterAt(libc, line, letter, i + 1) {
        if i < |rest| {
          assert rest[i + 1..] == line[i + 2..];
        }
      }
      if ParameterAt(libc, line, letter, 0) {
      } else if Parameter(libc, rest, letter).Some? {
        var i: nat :| ParameterAt(libc, rest, letter, i) && libc.scan(rest[i + 1..]) == Parameter(libc, rest, letter)
                 && forall j :: 0 <= j < i ==> !ParameterAt(libc, rest, letter, j);
        assert rest[i + 1..] == line[i + 2..];
        forall j | 0 <= j < i + 1 ensures !ParameterAt(libc, line, letter, j) {
          if j > 0 {
            assert !ParameterAt(libc, rest, letter, j - 1);
          }
        }
        assert ParameterAt(libc, line, letter, i + 1);
      } else {
        forall i | 0 <= i < |line| ensures !ParameterAt(libc, line, letter, i) {
          if i > 0 {
            assert !ParameterAt(libc, rest, letter, i - 1);
          }
        }
      }
    }
  }

  /** The temperature a line asks for: the number behind the first S that has one, and nothing below zero. */
  ghost predicate AsksFor(libc: Libc, line: string, t: real) {
    || (t == 0.0 && forall i :: 0 <= i < |line| ==> !ParameterAt(libc, line, 'S', i))
    || (exists i: nat :: ParameterAt(libc, line, 'S', i) && (forall j :: 0 <= j < i ==> !ParameterAt(libc, line, 'S', j))
                    && t == if libc.scan(line[i + 1..]).value < 0.0 then 0.0 else libc.scan(line[i + 1..]).value)
  }

  /** M190 heats the bed and waits for it, M109 heats the nozzle and waits for it, and nothing else waits. */
  lemma WaitsAreHeaters(libc: Libc, line: string)
    ensures var r := Rewrite(libc, line);
      && (r.waitBed <==> IsCommand(line, "M190")) && (r.waitNozzle <==> IsCommand(line, "M109"))
      && (r.waitBed ==> !r.waitNozzle && r.commands == ["M140 S" + libc.number(r.target)])
      && (r.waitNozzle ==> r.commands == ["M104 S" + libc.number(r.target)])
      && (r.waitBed || r.waitNozzle ==> r.target >= 0.0 && AsksFor(libc, line, r.target))
  {
    hide IsCommand, Parameter, PrimeCommands;
    ParameterIsFirst(libc, line, 'S');
    if IsCommand(line, "M190") {
      OnlyOf(line, "M190");
    }
    if IsCommand(line, "M109") {
      OnlyOf(line, "M109");
    }
  }

  lemma OnlyOf(line: string, name: string)
    requires name in {"M117", "M190", "M109", "G280"} && IsCommand(line, name)
    ensures forall other :: other in {"M117", "M190", "M109", "G280"} && IsCommand(line, other) ==> other == name
  {
    hide IsCommand;
    forall other | other in {"M117", "M190", "M109", "G280"} && IsCommand(line, other) ensures other == name {
      OneCommand(line, name, other);
    }
  }

  /** Display messages are dropped, and whatever is none of the four goes out as it is. */
  lemma OthersPass(libc: Libc, line: string)
    ensures IsCommand(line, "M117") ==> Rewrite(libc, line).commands == []
    ensures (forall name :: name in {"M117", "M190", "M109", "G280"} ==> !IsCommand(line, name)) ==>
              Rewrite(libc, line) == Rewritten([line], false, false, 0.0)
  {
    hide IsCommand, Parameter;
    assert "M117" in {"M117", "M190", "M109", "G280"} && "M190" in {"M117", "M190", "M109", "G280"};
    assert "M109" in {"M117", "M190", "M109", "G280"} && "G280" in {"M117", "M190", "M109", "G280"};
  }

  /** Priming is skipped, but for taking the nozzle for retracted by 16.5 mm, when a strategy of one or more is given. */
  lemma PrimesUnlessTold(libc: Libc, line: string)
    requires IsCommand(line, "G280")
    ensures var strategy := Parameter(libc, line, 'S');
      Rewrite(libc, line).commands
      == if strategy.Some? && (strategy.value <= -1.0 || strategy.value >= 1.0) then ["G92 E" + libc.number(-16.5)]
         else Rewrite(libc, "G280").commands
  {
    hide IsCommand, Parameter, PrimeCommands;
    OnlyOf(line, "G280");
    JustG280();
    OnlyOf("G280", "G280");
    NoParameter(libc);
  }

  lemma JustG280()
    ensures IsCommand("G280", "G280")
  {
  }

  lemma NoParameter(libc: Libc)
    ensures Parameter(libc, "G280", 'S') == None
  {
    ParameterIsFirst(libc, "G280", 'S');
    assert forall i :: 0 <= i < 4 ==> Upper("G280"[i]) != 'S';
  }

  /** Otherwise the head is primed: 8.5 mm in two strokes, a retraction of 6.5 mm and a wipe of 10 mm. */
  lemma PrimingIs(libc: Libc)
    ensures Rewrite(libc, "G280").commands
         == [ "G0 Z2 F9000", "G10 S" + libc.number(-6.5) + " F1500", "G10 S0 F300", "G92 E0",
              "G1 E" + libc.number(7.65) + " F75", "G1 E" + libc.number(8.5) + " Z6 F150",
              "G0 Z6.1 F" + libc.number(1.2), "G92 E0", "G1 E" + libc.number(-6.5) + " F600",
              "G0 Z6.2 F" + libc.number(2.4), "G91", "G0 Y10 F" + libc.number(1200.0), "G90",
              "G0 Z2 F" + libc.number(1200.0), "G0 F9000" ]
  {
    hide IsCommand, Parameter;
    JustG280();
    OnlyOf("G280", "G280");
    NoParameter(libc);
  }
}
