/** The commands the programs send each other, as text: printing them and reading them back. */
module CommandText {
  import opened MarlinPacket
  import opened TextSearch

  const COMMANDS := 16
  const GCODE_LINE := 256
  const PAYLOAD := 512
  const VERB := 16
  const NUMBER := 64

  // ---- Printing ----

  /** A character between quotes; control characters are dropped. */
  function Letter(c: char): string {
    if c == '"' || c == '\\' then ['\\', c] else if c >= ' ' then [c] else ""
  }

  function Escaping(text: string): string {
    if text == "" then "" else Letter(text[0]) + Escaping(text[1..])
  }

  /** The characters that are not dropped. */
  function Shown(text: string): string {
    if text == "" then "" else (if text[0] >= ' ' then [text[0]] else "") + Shown(text[1..])
  }

  /** Quoted lines, each behind a separator. */
  function Listed(lines: seq<string>, sep: char): string {
    if lines == [] then "" else [sep] + Quoted(Escaping(lines[0])) + Listed(lines[1..], ',')
  }

  function GcodePayload(lines: seq<string>): string {
    Listed(lines, '[') + "]"
  }

  /** How the C library prints and reads a number. */
  datatype Numbers = Numbers(prints: real -> string, scans: string -> Option<real>)

  datatype Job = Job(file: string, source: string, uuid: string, cloud: string, bed: real, head: real)

  datatype Member = Member(name: string, value: string, quoted: bool)

  function NumberText(n: Numbers, x: real): string {
    if x > 0.0 then n.prints(x) else ""
  }

  function Members(n: Numbers, j: Job): seq<Member> {
    [Member("file", j.file, true), Member("source", j.source, true), Member("uuid", j.uuid, true),
     Member("cloud_job_id", j.cloud, true), Member("bedTset", NumberText(n, j.bed), false),
     Member("headTset", NumberText(n, j.head), false)]
  }

  function Written(m: Member): string {
    if m.quoted then Quoted(Escaping(m.value)) else m.value
  }

  function MemberText(m: Member): string {
    Quoted(m.name) + (":" + Written(m))
  }

  /** The members that have a value, each behind a separator. */
  function ListedMembers(ms: seq<Member>, sep: char): string {
    if ms == [] then ""
    else if ms[0].value == "" then ListedMembers(ms[1..], sep)
    else [sep] + (MemberText(ms[0]) + ListedMembers(ms[1..], ','))
  }

  function Payload(ms: seq<Member>): string {
    ListedMembers(ms, '{') + "}"
  }

  // ---- Reading ----

  function Take(s: string, n: nat): string {
    if |s| <= n then s else s[..n]
  }

  /** The first quote from e on that closes a line begun at start: one not behind a backslash. */
  function LineEnd(text: string, start: nat, e: nat): (r: nat)
    requires start <= e <= |text|
    ensures e <= r <= |text| && (r < |text| ==> text[r] == '"')
    decreases |text| - e
  {
    if e == |text| || (text[e] == '"' && (e == start || text[e - 1] != '\\')) then e else LineEnd(text, start, e + 1)
  }

  /** The quoted lines from p on, at most room, and whether every quote was closed. */
  function ScanLines(text: string, p: nat, room: nat): (seq<string>, bool)
    requires p <= |text|
    decreases |text| - p
  {
    var q := Find(text, "\"", p);
    if q == None || room == 0 then ([], true) else
    var start := q.value + 1;
    var end := LineEnd(text, start, start);
    if end == |text| then ([], false) else
    var r := ScanLines(text, end + 1, room - 1);
    ([Take(text[start..end], GCODE_LINE - 1)] + r.0, r.1)
  }

  function Lines(payload: string): Option<seq<string>> {
    var r := ScanLines(payload, 0, COMMANDS);
    if r.1 && r.0 != [] then Some(r.0) else None
  }

  predicate Blank(c: char) {
    c == ' ' || c == '\t' || c == '\r' || c == '\n'
  }

  function SkipBlanks(text: string, p: nat): (r: nat)
    requires p <= |text|
    ensures p <= r <= |text|
    decreases |text| - p
  {
    if p < |text| && (Blank(text[p]) || text[p] == ':') then SkipBlanks(text, p + 1) else p
  }

  /** Reads up to a quote or the end of the room; the second result: where it stopped. */
  function ReadQuoted(text: string, p: nat, room: nat): (r: (string, nat))
    requires p <= |text|
    ensures r.1 <= |text|
    decreases |text| - p
  {
    if p == |text| || text[p] == '"' || room == 0 then ("", p) else
    var q := if text[p] == '\\' && p + 1 < |text| then p + 1 else p;
    var r := ReadQuoted(text, q + 1, room - 1);
    ([text[q]] + r.0, r.1)
  }

  function ReadBare(text: string, p: nat, room: nat): string
    requires p <= |text|
    decreases |text| - p
  {
    if p == |text| || text[p] == ',' || text[p] == '}' || Blank(text[p]) || room == 0 then ""
    else [text[p]] + ReadBare(text, p + 1, room - 1)
  }

  /** What a search for a member yields: whether it succeeds, and what it leaves in the caller's buffer. */
  datatype Field = Field(ok: bool, text: string)

  function Value(text: string, key: string, size: nat): Field
    requires size > 0
  {
    var p := Find(text, Quoted(key), 0);
    if p == None then Field(false, "") else
    var q := SkipBlanks(text, p.value + |Quoted(key)|);
    if q < |text| && text[q] == '"' then
      var r := ReadQuoted(text, q + 1, size - 1);
      Field(r.1 < |text| && text[r.1] == '"', r.0)
    else Field(true, ReadBare(text, q, size - 1))
  }

  /** What a second search leaves behind the first one's characters: a search cut short does not end its text. */
  function Overwritten(first: Field, second: Field): string {
    if !second.ok && second.text != "" && |second.text| < |first.text| then second.text + first.text[|second.text|..]
    else second.text
  }

  function FileName(payload: string): string {
    var f := Value(payload, "file", 256);
    if f.ok then f.text else Overwritten(f, Value(payload, "path", 256))
  }

  function Number(n: Numbers, payload: string, key: string): Option<real> {
    var f := Value(payload, key, NUMBER);
    if f.ok then n.scans(f.text) else None
  }

  function Target(n: Numbers, payload: string, key: string, other: string): real {
    var a, b := Number(n, payload, key), Number(n, payload, other);
    if a.Some? && a.value > 0.0 then a.value else if b.Some? then b.value else if a.Some? then a.value else 0.0
  }

  function ReadJob(n: Numbers, payload: string): Job {
    Job(FileName(payload), Value(payload, "source", 32).text, Value(payload, "uuid", 64).text,
        Value(payload, "cloud_job_id", 96).text, Target(n, payload, "bedTset", "bed_temperature"),
        Target(n, payload, "headTset", "nozzle_temperature"))
  }

  datatype Order = Gcode(lines: seq<string>) | Macro(macro: string) | Print(job: Job) | Abort | Pause | Resume | Unknown

  datatype Command = Command(verb: string, payload: string, order: Order)

  function Meaning(n: Numbers, verb: string, payload: string): Option<Order> {
    if verb == "GCODE" then
      var lines := Lines(payload);
      if lines == None then None else Some(Gcode(lines.value))
    else if verb == "MACRO" then Some(Macro(Value(payload, "macro", 128).text))
    else if verb == "JOB" then Some(Print(ReadJob(n, payload)))
    else Some(if verb == "ABORT" then Abort else if verb == "PAUSE" then Pause
              else if verb == "RESUME" then Resume else Unknown)
  }

  function Parsed(n: Numbers, frame: string): Option<Command> {
    var sep := Find(frame, "<", 0);
    if sep == None || sep.value == 0 || sep.value >= VERB then None else
    var verb, payload := frame[..sep.value], Take(frame[sep.value + 1..], PAYLOAD - 1);
    var order := Meaning(n, verb, payload);
    if order == None then None else Some(Command(verb, payload, order.value))
  }

  lemma FrameParsed(n: Numbers, verb: string, payload: string)
    requires 0 < |verb| < VERB && '<' !in verb
    ensures var order := Meaning(n, verb, Take(payload, PAYLOAD - 1));
      Parsed(n, verb + "<" + payload)
      == if order == None then None else Some(Command(verb, Take(payload, PAYLOAD - 1), order.value))
  {
    var frame := verb + "<" + payload;
    var p := Find(frame, "<", 0);
    assert At(frame, |verb|, "<");
    forall i | 0 <= i < |verb| ensures !At(frame, i, "<") {
      assert frame[i] == verb[i];
      FirstCharAt(frame, i, "<");
    }
    assert p == Some(|verb|);
    assert frame[..|verb|] == verb && frame[|verb| + 1..] == payload;
  }

  // ---- Lines of G-code ----

  /** A line that is written as it stands. */
  predicate Clean(line: string) {
    forall i :: 0 <= i < |line| ==> line[i] >= ' ' && line[i] != '"' && line[i] != '\\'
  }

  predicate Printable(text: string) {
    forall i :: 0 <= i < |text| ==> text[i] >= ' '
  }

  lemma {:induction false} EscapingFacts(text: string)
    ensures Escaped(Escaping(text)) && Printable(Escaping(text))
    ensures Clean(text) ==> Escaping(text) == text
    ensures Printable(text) && !Clean(text) ==> |Escaping(text)| > |text|
    ensures Printable(text) ==> |Escaping(text)| >= |text|
  {
    hide Clean, Printable;
    if text == "" {
      NothingIsClean();
    } else {
      var rest := text[1..];
      EscapingFacts(rest);
      assert text == [text[0]] + rest;
      CleanParts(text);
      LetterEscaped(text[0], Escaping(rest));
    }
  }

  lemma NothingIsClean()
    ensures Clean("") && Printable("")
  {
  }

  lemma CleanParts(text: string)
    requires text != ""
    ensures Printable(text) <==> text[0] >= ' ' && Printable(text[1..])
    ensures Clean(text) <==> text[0] >= ' ' && text[0] != '"' && text[0] != '\\' && Clean(text[1..])
  {
    assert text == [text[0]] + text[1..];
  }

  lemma LetterEscaped(c: char, e: string)
    requires Escaped(e) && Printable(e)
    ensures Escaped(Letter(c) + e) && Printable(Letter(c) + e)
  {
    var l := Letter(c);
    assert (l + e)[|l|..] == e;
    assert l == "" ==> l + e == e;
  }

  /** Text goes on with piece, as far as it goes. */
  predicate Begins(text: string, start: nat, piece: string) {
    forall i :: 0 <= i < |piece| && start + i < |text| ==> text[start + i] == piece[i]
  }

  /** A line does not close before its end. */
  lemma {:induction false} StaysInside(text: string, start: nat, e: nat, line: string)
    requires start <= e <= |text| && e <= start + |line| && Escaped(line) && Begins(text, start, line)
    ensures var end := if start + |line| <= |text| then start + |line| else |text|;
      LineEnd(text, start, e) == LineEnd(text, start, end) >= end
    decreases |text| - e
  {
    hide Escaped;
    if e < |text| && e < start + |line| {
      if text[e] == '"' {
        QuoteIsEscaped(line, e - start);
        assert text[start + (e - start - 1)] == line[e - start - 1];
      }
      StaysInside(text, start, e + 1, line);
    }
  }

  /** Every line comes back as it is. */
  predicate Sound(line: string) {
    Clean(line) && |line| <= 255
  }

  /** What the reader takes for the line begun at start. */
  function LineRead(text: string, start: nat): string
    requires start <= |text|
  {
    Take(text[start..LineEnd(text, start, start)], GCODE_LINE - 1)
  }

  /** A line with escapes or control characters does not come back, if the reader finds an end to it at all. */
  lemma UncleanLineChanges(text: string, start: nat, line: string)
    requires start <= |text| && Printable(text[start..]) && Begins(text, start, Escaping(line))
    requires !Clean(line) && (|line| != GCODE_LINE - 1 || !Printable(line)) && LineEnd(text, start, start) < |text|
    ensures LineRead(text, start) != line
  {
    hide LineEnd, Escaping, Escaped, Clean;
    var end := LineEnd(text, start, start);
    if Printable(line) {
      EscapingFacts(line);
      StaysInside(text, start, start, Escaping(line));
    } else {
      var i :| 0 <= i < |line| && line[i] < ' ';
      var read := LineRead(text, start);
      assert forall k :: 0 <= k < |read| ==> read[k] == text[start..][k];
    }
  }

  lemma CleanLineEnds(text: string, start: nat, line: string)
    requires start <= |text| && Clean(line) && Begins(text, start, line + "\"")
    ensures LineEnd(text, start, start) == if start + |line| < |text| then start + |line| else |text|
    ensures start + |line| <= |text| ==> text[start..start + |line|] == line
  {
    EscapingFacts(line);
    forall i | 0 <= i < |line| && start + i < |text| ensures text[start + i] == line[i] {
      assert (line + "\"")[i] == line[i];
    }
    StaysInside(text, start, start, line);
    if start + |line| < |text| {
      assert text[start + |line|] == (line + "\"")[|line|];
      if line != "" {
        assert text[start + (|line| - 1)] == line[|line| - 1];
      }
    }
  }

  /** What is left of the text from p on: the listed lines and the closing bracket, cut off after m characters. */
  predicate LeftOf(text: string, p: nat, lines: seq<string>, sep: char, m: nat) {
    && p <= |text| && m == |text| - p <= |Listed(lines, sep)| + 1
    && text[p..] == (Listed(lines, sep) + "]")[..m]
  }

  lemma ListedSplit(lines: seq<string>, sep: char)
    requires lines != []
    ensures Listed(lines, sep) + "]" == [sep, '"'] + (Escaping(lines[0]) + "\"") + (Listed(lines[1..], ',') + "]")
    ensures |Listed(lines, sep)| == 3 + |Escaping(lines[0])| + |Listed(lines[1..], ',')|
  {
    hide Escaping;
    var e, more := Escaping(lines[0]), Listed(lines[1..], ',');
    assert Listed(lines, sep) == [sep] + ("\"" + e + "\"") + more;
  }

  lemma TailOf(text: string, p: nat, a: string, b: string, m: nat)
    requires p <= |text| && |a| <= m <= |a| + |b| && text[p..] == (a + b)[..m]
    ensures p + |a| <= |text| && text[p + |a|..] == b[..m - |a|]
  {
    assert |text[p..]| == m;
    assert text[p + |a|..] == text[p..][|a|..];
  }

  lemma FirstQuote(text: string, p: nat, sep: char, rest: string, m: nat)
    requires sep != '"' && p <= |text| && m <= |rest| + 2 && text[p..] == ([sep, '"'] + rest)[..m]
    ensures m < 2 ==> Find(text, "\"", p) == None
    ensures m >= 2 ==> Find(text, "\"", p) == Some(p + 1) && text[p + 2..] == rest[..m - 2]
  {
    assert forall i :: p <= i < |text| ==> text[i] == text[p..][i - p] == ([sep, '"'] + rest)[i - p];
    FirstCharAt(text, p, "\"");
    AtEnd(text, "\"");
    if m >= 2 {
      assert At(text, p + 1, "\"");
      TailOf(text, p, [sep, '"'], rest, m);
    }
  }

  lemma FirstLine(text: string, p: nat, lines: seq<string>, sep: char, m: nat)
    requires lines != [] && LeftOf(text, p, lines, sep, m) && sep != '"'
    ensures m < 2 ==> Find(text, "\"", p) == None
    ensures m >= 2 ==> Find(text, "\"", p) == Some(p + 1) && Begins(text, p + 2, Escaping(lines[0]) + "\"")
    ensures |Listed(lines, sep)| == 3 + |Escaping(lines[0])| + |Listed(lines[1..], ',')|
    ensures m >= 3 + |Escaping(lines[0])| ==>
              LeftOf(text, p + 3 + |Escaping(lines[0])|, lines[1..], ',', m - 3 - |Escaping(lines[0])|)
  {
    hide Escaping, Find, Listed, At;
    var line, rest := Escaping(lines[0]) + "\"", Listed(lines[1..], ',') + "]";
    ListedSplit(lines, sep);
    assert [sep, '"'] + line + rest == [sep, '"'] + (line + rest);
    FirstQuote(text, p, sep, line + rest, m);
    if m >= 2 {
      FirstPiece(text, p + 2, line, rest, m - 2);
    }
  }

  lemma FirstPiece(text: string, start: nat, piece: string, rest: string, m: nat)
    requires start <= |text| && m <= |piece + rest| && text[start..] == (piece + rest)[..m]
    ensures Begins(text, start, piece)
    ensures m >= |piece| ==> start + |piece| <= |text| && text[start + |piece|..] == rest[..m - |piece|]
  {
    assert forall i :: start <= i < |text| ==> text[i] == text[start..][i - start] == (piece + rest)[i - start];
    if m >= |piece| {
      assert text[start + |piece|..] == text[start..][|piece|..];
    }
  }

  lemma NoLines(text: string, p: nat, m: nat, sep: char, room: nat)
    requires LeftOf(text, p, [], sep, m)
    ensures ScanLines(text, p, room) == ([], true)
  {
    assert m <= 1 && forall i :: p <= i < |text| ==> text[i] == text[p..][i - p] == ']';
    forall i | p <= i <= |text| ensures !At(text, i, "\"") {
      FirstCharAt(text, i, "\"");
    }
  }

  /** The lines come back exactly when each is sound and nothing of them is cut off. */
  lemma {:induction false} ScanExact(text: string, p: nat, lines: seq<string>, sep: char, room: nat, m: nat)
    requires LeftOf(text, p, lines, sep, m) && Printable(text[p..]) && |lines| <= room && sep != '"'
    ensures ScanLines(text, p, room) == (lines, true)
       <==> (forall i :: 0 <= i < |lines| ==> Sound(lines[i])) && m >= |Listed(lines, sep)|
    decreases |lines|
  {
    hide LeftOf, Listed, LineEnd, Escaping, Clean, Find, Printable;
    if lines == [] {
      NoLines(text, p, m, sep, room);
      NothingListed(sep);
    } else {
      FirstLine(text, p, lines, sep, m);
      if m >= 2 {
        ScanStep(text, p, lines, sep, room, m);
      }
    }
  }

  lemma NothingListed(sep: char)
    ensures Listed([], sep) == ""
  {
  }

  lemma PrintableFrom(text: string, p: nat, q: nat)
    requires p <= q <= |text| && Printable(text[p..])
    ensures Printable(text[q..])
  {
    assert forall i :: 0 <= i < |text| - q ==> text[q..][i] == text[p..][q - p + i];
  }

  lemma {:induction false} ScanStep(text: string, p: nat, lines: seq<string>, sep: char, room: nat, m: nat)
    requires LeftOf(text, p, lines, sep, m) && Printable(text[p..]) && |lines| <= room && sep != '"' && lines != []
    requires m >= 2
    ensures ScanLines(text, p, room) == (lines, true)
       <==> (forall i :: 0 <= i < |lines| ==> Sound(lines[i])) && m >= |Listed(lines, sep)|
    decreases |lines|, 1
  {
    hide Listed, LineEnd, Escaping, Clean, Find, Printable, Begins, LeftOf;
    FirstLine(text, p, lines, sep, m);
    LeftOfBounds(text, p, lines, sep, m);
    var line, start := lines[0], p + 2;
    var end := LineEnd(text, start, start);
    PrintableFrom(text, p, start);
    if Clean(line) {
      ScanClean(text, p, lines, sep, room, m);
    } else {
      BeginsLess(text, start, Escaping(line), "\"");
      if end < |text| {
        UncleanLineLost(text, p, lines, sep, room, m);
      }
    }
  }

  lemma {:induction false} ScanClean(text: string, p: nat, lines: seq<string>, sep: char, room: nat, m: nat)
    requires LeftOf(text, p, lines, sep, m) && Printable(text[p..]) && |lines| <= room && sep != '"' && lines != []
    requires m >= 2 && Clean(lines[0])
    ensures ScanLines(text, p, room) == (lines, true)
       <==> (forall i :: 0 <= i < |lines| ==> Sound(lines[i])) && m >= |Listed(lines, sep)|
    decreases |lines|, 0
  {
    hide Listed, LineEnd, Escaping, Clean, Find, Printable, Begins, LeftOf;
    FirstLine(text, p, lines, sep, m);
    LeftOfBounds(text, p, lines, sep, m);
    var line, start := lines[0], p + 2;
    var end := LineEnd(text, start, start);
    EscapingFacts(line);
    CleanLineEnds(text, start, line);
    if end < |text| {
      assert text[start..end] == line;
      PrintableFrom(text, p, end + 1);
      ScanExact(text, end + 1, lines[1..], ',', room - 1, m - 3 - |line|);
      assert lines == [line] + lines[1..];
      assert |line| < GCODE_LINE <==> Take(line, GCODE_LINE - 1) == line;
    }
  }

  lemma LeftOfBounds(text: string, p: nat, lines: seq<string>, sep: char, m: nat)
    requires LeftOf(text, p, lines, sep, m)
    ensures p <= |text| && m == |text| - p
  {
  }

  // ---- Lines of the full length, by counting quotes ----

  function Slashes(n: nat): (r: string)
    ensures |r| == n
  {
    seq(n, _ => '\\')
  }

  /** Text that the escapes push along by one or more places is nothing but backslashes. */
  lemma {:induction false} AllSlashes(t: string, d: nat)
    requires Printable(t) && |t| <= d + |Escaping(t)| && t == (Slashes(d) + Escaping(t))[..|t|]
    requires d > 0 || t == "" || t[0] == '\\'
    ensures forall i :: 0 <= i < |t| ==> t[i] == '\\'
    decreases |t|
  {
    hide Escaping, Printable;
    if t != "" {
      var rest := t[1..];
      PushedFirst(t, d);
      CleanParts(t);
      EscapingFacts(rest);
      PushedRest(t, d);
      AllSlashes(rest, d + 1);
      assert t == [t[0]] + rest;
    }
  }

  lemma PushedFirst(t: string, d: nat)
    requires t != "" && |t| <= d + |Escaping(t)| && t == (Slashes(d) + Escaping(t))[..|t|]
    requires d > 0 || t[0] == '\\'
    ensures t[0] == '\\'
  {
    hide Escaping;
    if d > 0 {
      assert (Slashes(d) + Escaping(t))[..|t|][0] == Slashes(d)[0];
    }
  }

  lemma PushedRest(t: string, d: nat)
    requires t != "" && t[0] == '\\' && |t| <= d + |Escaping(t)| && t == (Slashes(d) + Escaping(t))[..|t|]
    ensures var rest := t[1..];
      |rest| <= d + 1 + |Escaping(rest)| && rest == (Slashes(d + 1) + Escaping(rest))[..|rest|]
  {
    var rest, e := t[1..], Escaping(t[1..]);
    assert Escaping(t) == ['\\', '\\'] + e;
    hide Escaping, Slashes;
    OneMoreSlash(d, e);
    CutFirst('\\', Slashes(d + 1) + e, |t|);
  }

  lemma OneMoreSlash(d: nat, e: string)
    ensures Slashes(d) + (['\\', '\\'] + e) == ['\\'] + (Slashes(d + 1) + e)
  {
    assert Slashes(d + 1) == Slashes(d) + ['\\'];
    assert ['\\'] + Slashes(d + 1) == Slashes(d) + ['\\', '\\'];
    hide Slashes;
    assert Slashes(d) + (['\\', '\\'] + e) == Slashes(d) + ['\\', '\\'] + e;
    assert ['\\'] + (Slashes(d + 1) + e) == ['\\'] + Slashes(d + 1) + e;
  }

  lemma CutFirst(c: char, s: string, n: nat)
    requires 0 < n <= |s| + 1
    ensures ([c] + s)[..n][1..] == s[..n - 1]
  {
  }

  lemma {:induction false} SlashesEscaped(t: string)
    requires t != "" && forall i :: 0 <= i < |t| ==> t[i] == '\\'
    ensures Escaping(t) != "" && Escaping(t)[|Escaping(t)| - 1] == '\\'
  {
    if |t| > 1 {
      SlashesEscaped(t[1..]);
    } else {
      assert Escaping(t[1..]) == "";
    }
  }

  /** A line that is not clean and yet is a beginning of its own escapes ends in a backslash. */
  lemma {:induction false} UncleanEndsInSlash(t: string)
    requires Printable(t) && !Clean(t) && |t| <= |Escaping(t)| && Escaping(t)[..|t|] == t
    ensures Escaping(t) != "" && Escaping(t)[|Escaping(t)| - 1] == '\\'
  {
    if t != "" {
      var rest, e := t[1..], Escaping(t[1..]);
      assert Escaping(t) == Letter(t[0]) + e;
      assert t[0] == Escaping(t)[..|t|][0] == Letter(t[0])[0];
      if t[0] == '\\' {
        assert Slashes(0) + Escaping(t) == Escaping(t);
        AllSlashes(t, 0);
        SlashesEscaped(t);
      } else if t[0] != '"' {
        hide Escaping, Clean, Printable;
        EscapingFacts(rest);
        CleanParts(t);
        CutFirst(t[0], e, |t|);
        UncleanEndsInSlash(rest);
      }
    } else {
      NothingIsClean();
    }
  }

  function Quotes(s: string): nat {
    if s == "" then 0 else (if s[0] == '"' then 1 else 0) + Quotes(s[1..])
  }

  lemma {:induction false} QuotesJoin(a: string, b: string)
    ensures Quotes(a + b) == Quotes(a) + Quotes(b)
  {
    if a == "" {
      assert a + b == b;
    } else {
      QuotesJoin(a[1..], b);
      assert (a + b)[1..] == a[1..] + b;
    }
  }

  lemma QuotesSplit(text: string, p: nat, q: nat)
    requires p <= q <= |text|
    ensures Quotes(text[p..]) == Quotes(text[p..q]) + Quotes(text[q..])
  {
    assert text[p..] == text[p..q] + text[q..];
    QuotesJoin(text[p..q], text[q..]);
  }

  lemma QuotesOne(c: char)
    ensures Quotes([c]) == if c == '"' then 1 else 0
  {
    assert [c][1..] == "";
  }

  lemma QuotesTake(s: string, n: nat)
    ensures Quotes(Take(s, n)) <= Quotes(s)
  {
    if |s| > n {
      assert s[0..] == s && s[0..n] == s[..n];
      QuotesSplit(s, 0, n);
    }
  }

  lemma {:induction false} QuotesEscaped(t: string)
    ensures Quotes(Escaping(t)) == Quotes(t)
  {
    if t != "" {
      QuotesEscaped(t[1..]);
      QuotesJoin(Letter(t[0]), Escaping(t[1..]));
      QuotesLetter(t[0]);
    }
  }

  lemma QuotesLetter(c: char)
    ensures Quotes(Letter(c)) == if c == '"' then 1 else 0
  {
    QuotesOne(c);
    if c == '"' || c == '\\' {
      assert ['\\', c][1..] == [c];
    }
  }

  /** How many quotes these lines take up when they are written. */
  function Need(lines: seq<string>): nat {
    if lines == [] then 0 else 2 + Quotes(lines[0]) + Need(lines[1..])
  }

  lemma {:induction false} QuotesListed(lines: seq<string>, sep: char)
    requires sep != '"'
    ensures Quotes(Listed(lines, sep)) == Need(lines)
  {
    hide Escaping;
    if lines != [] {
      var e, rest := Escaping(lines[0]), Listed(lines[1..], ',');
      QuotesListed(lines[1..], ',');
      QuotesEscaped(lines[0]);
      QuotesOne(sep);
      QuotesOne('"');
      QuotesJoin("\"", e);
      QuotesJoin("\"" + e, "\"");
      QuotesJoin([sep], Quoted(e));
      QuotesJoin([sep] + Quoted(e), rest);
    }
  }

  /** The quotes that a scan of one line goes past. */
  lemma QuotesPassed(text: string, p: nat, start: nat, end: nat)
    requires p < start <= end < |text| && text[start - 1] == '"' && text[end] == '"'
    ensures Quotes(text[p..]) >= 2 + Quotes(text[start..end]) + Quotes(text[end + 1..])
  {
    QuotesSplit(text, p, start - 1);
    QuotesSplit(text, start - 1, start);
    QuotesSplit(text, start, end);
    QuotesSplit(text, end, end + 1);
    QuotesOne('"');
    assert text[start - 1..start] == "\"" && text[end..end + 1] == "\"";
  }

  /** Lines that are read take up their quotes. */
  lemma {:induction false} ScanNeeds(text: string, p: nat, room: nat)
    requires p <= |text| && ScanLines(text, p, room).1
    ensures Need(ScanLines(text, p, room).0) <= Quotes(text[p..])
    decreases |text| - p
  {
    hide LineEnd, Quotes, Take, ScanLines, Need;
    var q := Find(text, "\"", p);
    if q != None && room > 0 {
      ScanIs(text, p, room);
      var start := q.value + 1;
      var end := LineEnd(text, start, start);
      CharAt(text, q.value, "\"", 0);
      hide Find;
      ScanNeeds(text, end + 1, room - 1);
      QuotesPassed(text, p, start, end);
      QuotesTake(text[start..end], GCODE_LINE - 1);
      NeedMore(Take(text[start..end], GCODE_LINE - 1), ScanLines(text, end + 1, room - 1).0);
    } else {
      ScanOver(text, p, room, []);
      NoNeed(ScanLines(text, p, room));
    }
  }

  lemma NeedMore(line: string, lines: seq<string>)
    ensures Need([line] + lines) == 2 + Quotes(line) + Need(lines)
  {
    assert ([line] + lines)[1..] == lines;
  }

  lemma NoNeed(r: (seq<string>, bool))
    requires Behind([], r) == ([], true)
    ensures Need(r.0) == 0
  {
    assert [] + r.0 == r.0;
  }

  /** A line of the full length that is not clean, and yet is read as it is, misses its closing quote. */
  lemma QuoteMissed(text: string, start: nat, line: string)
    requires start <= |text| && Begins(text, start, Escaping(line) + "\"") && Printable(line) && !Clean(line)
    requires LineEnd(text, start, start) < |text| && LineRead(text, start) == line && |line| == GCODE_LINE - 1
    ensures start + |Escaping(line)| < LineEnd(text, start, start)
  {
    hide Escaping, Clean, Printable, Begins;
    var e, end := Escaping(line), LineEnd(text, start, start);
    EscapingFacts(line);
    BeginsLess(text, start, e, "\"");
    StaysInside(text, start, start, e);
    if end == start + |e| {
      BeginsWith(text, start, e);
      assert text[start..end] == e && text[start..end][|e| - 1] == text[end - 1];
      LineEndIs(text, start, end);
      UncleanEndsInSlash(line);
    }
  }

  lemma BeginsWith(text: string, start: nat, piece: string)
    requires Begins(text, start, piece) && start + |piece| <= |text|
    ensures text[start..start + |piece|] == piece
  {
  }

  /** A line ends at a quote that is its first character, or not behind a backslash. */
  lemma {:induction false} LineEndIs(text: string, start: nat, e: nat)
    requires start <= e <= |text| && LineEnd(text, start, e) == e < |text|
    ensures e == start || text[e - 1] != '\\'
  {
  }

  /** Lines behind one that is not clean do not all come back with it. */
  lemma UncleanLineLost(text: string, p: nat, lines: seq<string>, sep: char, room: nat, m: nat)
    requires LeftOf(text, p, lines, sep, m) && Printable(text[p..]) && |lines| <= room && sep != '"' && lines != []
    requires m >= 2 && !Clean(lines[0]) && p + 2 <= |text| && LineEnd(text, p + 2, p + 2) < |text|
    ensures ScanLines(text, p, room) != (lines, true)
  {
    hide Listed, LineEnd, Escaping, Clean, Find, Printable, Begins, Quotes;
    var line, start := lines[0], p + 2;
    FirstLine(text, p, lines, sep, m);
    PrintableFrom(text, p, start);
    BeginsLess(text, start, Escaping(line), "\"");
    if |line| != GCODE_LINE - 1 || !Printable(line) {
      UncleanLineChanges(text, start, line);
    } else if LineRead(text, start) == line {
      QuoteMissed(text, start, line);
      var r := ScanLines(text, LineEnd(text, start, start) + 1, room - 1);
      if r.1 {
        TooFewQuotes(text, p, lines, sep, m, room);
      }
    }
  }

  lemma TooFewQuotes(text: string, p: nat, lines: seq<string>, sep: char, m: nat, room: nat)
    requires LeftOf(text, p, lines, sep, m) && sep != '"' && lines != [] && p + 2 <= |text| && room > 0
    requires text[p + 1] == '"' && Begins(text, p + 2, Escaping(lines[0]) + "\"")
    requires p + 2 + |Escaping(lines[0])| < LineEnd(text, p + 2, p + 2) < |text|
    requires ScanLines(text, LineEnd(text, p + 2, p + 2) + 1, room - 1).1
    ensures ScanLines(text, LineEnd(text, p + 2, p + 2) + 1, room - 1).0 != lines[1..]
  {
    hide Listed, LineEnd, Escaping, Quotes, ScanLines, Begins;
    var e, start := Escaping(lines[0]), p + 2;
    var end := LineEnd(text, start, start);
    ScanNeeds(text, end + 1, room - 1);
    QuotesPassed(text, p, start, end);
    BeginsWith(text, start, e + "\"");
    var q := start + |e| + 1;
    assert text[start..end] == (e + "\"") + text[q..end];
    QuotesJoin(e + "\"", text[q..end]);
    QuotesJoin(e, "\"");
    QuotesOne('"');
    QuotesEscaped(lines[0]);
    QuotesListed(lines, sep);
    QuotesJoin(Listed(lines, sep), "]");
    QuotesOne(']');
    QuotesTake(Listed(lines, sep) + "]", m);
    assert text[p..] == Take(Listed(lines, sep) + "]", m);
  }

  lemma BeginsLess(text: string, start: nat, a: string, b: string)
    requires Begins(text, start, a + b)
    ensures Begins(text, start, a)
  {
    assert forall i :: 0 <= i < |a| ==> (a + b)[i] == a[i];
  }

  lemma {:induction false} ListedPrintable(lines: seq<string>, sep: char)
    requires sep >= ' '
    ensures Printable(Listed(lines, sep))
  {
    hide Escaping;
    if lines != [] {
      EscapingFacts(lines[0]);
      ListedPrintable(lines[1..], ',');
    }
  }

  /** Lines sent are the lines received exactly when there are no more than sixteen, none is too long or needs an
      escape or has control characters, and the text fits the payload but perhaps for its closing bracket. */
  lemma LinesReadBackIff(n: Numbers, lines: seq<string>)
    requires lines != []
    ensures var c := Parsed(n, "GCODE<" + GcodePayload(lines));
      c.Some? && c.value.order == Gcode(lines)
      <==> |lines| <= 16 && |GcodePayload(lines)| <= 512 && forall i :: 0 <= i < |lines| ==> Sound(lines[i])
  {
    hide Listed, Clean, Sound, Printable, Parsed;
    var payload := GcodePayload(lines);
    var text := Take(payload, PAYLOAD - 1);
    assert "GCODE<" + payload == "GCODE" + "<" + payload;
    FrameParsed(n, "GCODE", payload);
    if |lines| <= COMMANDS {
      ListedPrintable(lines, '[');
      PartPrintable(Listed(lines, '['), "]", |text|);
      assert text[0..] == text == payload[..|text|];
      ScanExact(text, 0, lines, '[', COMMANDS, |text|);
    } else {
      FewLines(text, 0, COMMANDS);
    }
  }

  lemma PartPrintable(a: string, b: string, n: nat)
    requires Printable(a) && Printable(b) && n <= |a + b|
    ensures Printable((a + b)[..n])
  {
  }

  lemma {:induction false} FewLines(text: string, p: nat, room: nat)
    requires p <= |text|
    ensures |ScanLines(text, p, room).0| <= room
    decreases |text| - p
  {
    hide Find, LineEnd, Take;
    var q := Find(text, "\"", p);
    if q != None && room > 0 {
      var end := LineEnd(text, q.value + 1, q.value + 1);
      if end < |text| {
        FewLines(text, end + 1, room - 1);
      }
    }
  }

  // ---- Members ----

  /** A search for key takes the member's value for it. */
  predicate Confuses(m: Member, key: string) {
    m.quoted && (Escaping(m.value) == key || LooksLike(Escaping(m.value), key))
  }

  /** What a search with a buffer of the given size gets from a member's own text. */
  function ReadBack(m: Member, size: nat): Field
    requires size > 0
  {
    if m.quoted then Field(|Shown(m.value)| < size, Take(Shown(m.value), size - 1)) else Field(true, Take(m.value, size - 1))
  }

  /** What a search finds in listed members: the first one so named, or a value that looks like the name. */
  function Held(ms: seq<Member>, key: string, size: nat): Field
    requires size > 0
  {
    if ms == [] then Field(false, "")
    else if ms[0].value == "" then Held(ms[1..], key, size)
    else if ms[0].name == key then ReadBack(ms[0], size)
    else if Confuses(ms[0], key) then Field(true, "")
    else Held(ms[1..], key, size)
  }

  predicate Digits(text: string) {
    forall i :: 0 <= i < |text| ==> text[i] == '.' || '0' <= text[i] <= '9'
  }

  predicate Ordinary(m: Member) {
    Name(m.name) && (m.quoted || Digits(m.value))
  }

  lemma LetterSplit(value: string)
    requires value != ""
    ensures Escaping(value) + "\"" == Letter(value[0]) + (Escaping(value[1..]) + "\"")
    ensures Shown(value) == (if value[0] >= ' ' then [value[0]] else "") + Shown(value[1..])
  {
  }

  lemma TakeMore(c: char, s: string, n: nat)
    requires n > 0
    ensures Take([c] + s, n) == [c] + Take(s, n - 1)
  {
  }

  /** One letter is read. */
  lemma LetterReadsBack(text: string, p: nat, c: char, room: nat)
    requires At(text, p, Letter(c)) && c >= ' ' && p + |Letter(c)| <= |text|
    ensures p < |text| && text[p] != '"'
    ensures room > 0 ==>
      var r := ReadQuoted(text, p + |Letter(c)|, room - 1);
      ReadQuoted(text, p, room) == ([c] + r.0, r.1)
    ensures room == 0 ==> ReadQuoted(text, p, room) == ("", p)
  {
    CharAt(text, p, Letter(c), 0);
    CharAt(text, p, Letter(c), |Letter(c)| - 1);
  }

  lemma {:induction false} QuotedReadsBack(text: string, p: nat, value: string, room: nat)
    requires At(text, p, Escaping(value) + "\"")
    ensures p <= |text|
    ensures var r := ReadQuoted(text, p, room);
      && r.0 == Take(Shown(value), room) && r.1 < |text| && (text[r.1] == '"' <==> |Shown(value)| <= room)
    decreases |value|
  {
    hide At, ReadQuoted;
    AtFits(text, p, Escaping(value) + "\"");
    if value == "" {
      assert Escaping(value) + "\"" == "\"";
      NothingReadBack(text, p, room);
    } else {
      var c, rest := value[0], Escaping(value[1..]) + "\"";
      LetterSplit(value);
      hide Escaping, Shown;
      Split(text, p, Letter(c), rest);
      AtFits(text, p + |Letter(c)|, rest);
      if c >= ' ' {
        LetterReadsBack(text, p, c, room);
        if room > 0 {
          QuotedReadsBack(text, p + |Letter(c)|, value[1..], room - 1);
          TakeMore(c, Shown(value[1..]), room);
        }
      } else {
        QuotedReadsBack(text, p, value[1..], room);
      }
    }
  }

  lemma NothingReadBack(text: string, p: nat, room: nat)
    requires At(text, p, "\"")
    ensures p < |text| && text[p] == '"' && ReadQuoted(text, p, room) == ("", p)
  {
    CharAt(text, p, "\"", 0);
  }

  predicate Ends(text: string, p: nat) {
    p < |text| && (text[p] == ',' || text[p] == '}')
  }

  lemma TakeNone(s: string, n: nat)
    requires s == "" || n == 0
    ensures Take(s, n) == ""
  {
  }

  lemma TakeOne(s: string, n: nat)
    requires s != "" && n > 0
    ensures Take(s, n) == [s[0]] + Take(s[1..], n - 1)
  {
  }

  lemma {:induction false} BareReadsBack(text: string, p: nat, value: string, room: nat)
    requires At(text, p, value) && Digits(value) && Ends(text, p + |value|)
    ensures ReadBare(text, p, room) == Take(value, room)
    decreases |value|
  {
    hide At, Take;
    if value == "" || room == 0 {
      TakeNone(value, room);
      if value != "" {
        CharAt(text, p, value, 0);
      }
    } else {
      var rest := value[1..];
      assert value == value[..1] + rest;
      CharAt(text, p, value, 0);
      Split(text, p, value[..1], rest);
      BareReadsBack(text, p + 1, rest, room - 1);
      TakeOne(value, room);
    }
  }

  /** A confusing string is found at one place. */
  lemma ConfusedAt(text: string, p: nat, raw: string, key: string)
    requires At(text, p, Quoted(raw)) && Escaped(raw) && Name(key) && (raw == key || LooksLike(raw, key))
    ensures |raw| >= |key|
    ensures At(text, p + |raw| - |key|, Quoted(key)) && Absent(text, p, p + |raw| - |key|, Quoted(key))
  {
    hide At, Escaped, Name;
    var n := |raw| - |key|;
    if raw != key {
      assert raw == raw[..n - 1] + "\"" + key;
      assert Quoted(raw) == ("\"" + raw[..n - 1]) + Quoted(key);
      Split(text, p, "\"" + raw[..n - 1], Quoted(key));
    }
    forall i | p <= i < p + n ensures !At(text, i, Quoted(key)) {
      if At(text, i, Quoted(key)) {
        FoundInString(text, p, raw, key, i);
      }
    }
  }

  /** A string that does not confuse, with something after it that no name begins with, does not hold the name. */
  lemma AbsentInString(text: string, p: nat, raw: string, key: string)
    requires At(text, p, Quoted(raw)) && Escaped(raw) && Name(key) && raw != key && !LooksLike(raw, key)
    requires p + |raw| + 2 < |text| && !Plain(text[p + |raw| + 2])
    ensures Absent(text, p, p + |Quoted(raw)|, Quoted(key))
  {
    hide At, Escaped;
    forall i | p <= i < p + |raw| + 2 ensures !At(text, i, Quoted(key)) {
      if At(text, i, Quoted(key)) {
        FoundInString(text, p, raw, key, i);
      }
    }
  }

  function WrittenAt(p: nat, m: Member): nat {
    p + 1 + |Quoted(m.name)| + 1
  }

  function EndAt(p: nat, m: Member): nat {
    WrittenAt(p, m) + |Written(m)|
  }

  lemma {:induction false} RestStarts(ms: seq<Member>, text: string, p: nat)
    requires At(text, p, ListedMembers(ms, ',') + "}")
    ensures Ends(text, p)
  {
    hide MemberText, At;
    CharAt(text, p, ListedMembers(ms, ',') + "}", 0);
    if ms != [] && ms[0].value == "" {
      RestStarts(ms[1..], text, p);
    }
  }

  lemma MemberListed(ms: seq<Member>, sep: char)
    requires ms != [] && ms[0].value != ""
    ensures ListedMembers(ms, sep) + "}"
         == [sep] + (Quoted(ms[0].name) + (":" + (Written(ms[0]) + (ListedMembers(ms[1..], ',') + "}"))))
    ensures |ListedMembers(ms, sep)| == 1 + |Quoted(ms[0].name)| + 1 + |Written(ms[0])| + |ListedMembers(ms[1..], ',')|
  {
    hide Written, Quoted;
    Regroup([sep], Quoted(ms[0].name), ":", Written(ms[0]), ListedMembers(ms[1..], ','), "}");
  }

  lemma Regroup(a: string, b: string, c: string, d: string, e: string, f: string)
    ensures a + ((b + (c + d)) + e) + f == a + (b + (c + (d + (e + f))))
  {
  }

  lemma MemberAt(text: string, p: nat, ms: seq<Member>, sep: char)
    requires ms != [] && ms[0].value != "" && At(text, p, ListedMembers(ms, sep) + "}")
    ensures At(text, p, [sep]) && At(text, p + 1, Quoted(ms[0].name)) && At(text, WrittenAt(p, ms[0]) - 1, ":")
    ensures At(text, WrittenAt(p, ms[0]), Written(ms[0])) && Ends(text, EndAt(p, ms[0]))
    ensures At(text, EndAt(p, ms[0]), ListedMembers(ms[1..], ',') + "}")
    ensures EndAt(p, ms[0]) + |ListedMembers(ms[1..], ',')| == p + |ListedMembers(ms, sep)|
  {
    hide Written, At, Ends, Quoted, ListedMembers;
    var m, rest := ms[0], ListedMembers(ms[1..], ',') + "}";
    MemberListed(ms, sep);
    Split(text, p, [sep], Quoted(m.name) + (":" + (Written(m) + rest)));
    Split(text, p + 1, Quoted(m.name), ":" + (Written(m) + rest));
    Split(text, p + 1 + |Quoted(m.name)|, ":", Written(m) + rest);
    Split(text, WrittenAt(p, m), Written(m), rest);
    RestStarts(ms[1..], text, EndAt(p, m));
  }

  lemma ColonSkipped(text: string, p: nat)
    requires p + 1 < |text| && text[p] == ':' && !Blank(text[p + 1]) && text[p + 1] != ':'
    ensures SkipBlanks(text, p) == p + 1
  {
  }

  lemma NothingSkipped(text: string, p: nat, room: nat)
    requires Ends(text, p)
    ensures SkipBlanks(text, p) == p && ReadBare(text, p, room) == ""
  {
  }

  lemma NamedHere(text: string, p: nat, m: Member, size: nat)
    requires Ordinary(m) && m.value != "" && size > 0
    requires At(text, p + 1, Quoted(m.name)) && At(text, WrittenAt(p, m) - 1, ":")
    requires At(text, WrittenAt(p, m), Written(m)) && Ends(text, EndAt(p, m))
    requires Absent(text, 0, p + 1, Quoted(m.name))
    ensures Value(text, m.name, size) == ReadBack(m, size)
  {
    hide At, Absent, Find, Quoted, SkipBlanks, ReadQuoted, ReadBare, Escaping, Shown, Name;
    AtFits(text, p + 1, Quoted(m.name));
    FoundFirst(text, Quoted(m.name), p + 1);
    var w := WrittenAt(p, m);
    CharAt(text, w - 1, ":", 0);
    if m.quoted {
      QuotedAt(text, w, Escaping(m.value));
      ColonSkipped(text, w - 1);
      QuotedReadsBack(text, w + 1, m.value, size - 1);
    } else {
      CharAt(text, w, m.value, 0);
      ColonSkipped(text, w - 1);
      BareReadsBack(text, w, m.value, size - 1);
    }
  }

  lemma QuotedAt(text: string, p: nat, raw: string)
    requires At(text, p, Quoted(raw))
    ensures p < |text| && text[p] == '"' && At(text, p + 1, raw + "\"")
  {
    assert Quoted(raw) == "\"" + (raw + "\"");
    Split(text, p, "\"", raw + "\"");
    CharAt(text, p, "\"", 0);
  }

  lemma ConfusedHere(text: string, w: nat, m: Member, key: string, size: nat)
    requires Name(key) && Confuses(m, key) && size > 0
    requires At(text, w, Written(m)) && Ends(text, w + |Written(m)|) && Absent(text, 0, w, Quoted(key))
    ensures Value(text, key, size) == Field(true, "")
  {
    hide At, Absent, Find, SkipBlanks, ReadQuoted, ReadBare, Escaping, LooksLike, Name, Escaped, Printable, Clean;
    var raw := Escaping(m.value);
    EscapingFacts(m.value);
    ConfusedAt(text, w, raw, key);
    var i := w + |raw| - |key|;
    AbsentJoins(text, 0, w, i, Quoted(key));
    AtFits(text, i, Quoted(key));
    FoundFirst(text, Quoted(key), i);
    NothingSkipped(text, w + |Written(m)|, size - 1);
  }

  lemma AbsentInMember(text: string, p: nat, m: Member, sep: char, key: string)
    requires Name(key) && Ordinary(m) && sep != '"'
    requires At(text, p, [sep]) && At(text, p + 1, Quoted(m.name)) && At(text, WrittenAt(p, m) - 1, ":")
    requires At(text, WrittenAt(p, m), Written(m)) && Ends(text, EndAt(p, m))
    requires Absent(text, 0, p, Quoted(key))
    ensures Absent(text, 0, p + 1, Quoted(key))
    ensures m.name != key ==> Absent(text, 0, WrittenAt(p, m), Quoted(key))
    ensures m.name != key && !Confuses(m, key) ==> Absent(text, 0, EndAt(p, m), Quoted(key))
  {
    hide At, Absent, Escaping, Name, LooksLike, Escaped;
    var w := WrittenAt(p, m);
    AbsentInPlain(text, p, [sep], Quoted(key));
    AbsentJoins(text, 0, p, p + 1, Quoted(key));
    if m.name != key {
      CharAt(text, w - 1, ":", 0);
      NameEscaped(m.name);
      NameHasNoQuote(m.name, key);
      AbsentInString(text, p + 1, m.name, key);
      AbsentInPlain(text, w - 1, ":", Quoted(key));
      AbsentJoins(text, 0, p + 1, w - 1, Quoted(key));
      AbsentJoins(text, 0, w - 1, w, Quoted(key));
      if !Confuses(m, key) {
        if m.quoted {
          EscapingFacts(m.value);
          AbsentInString(text, w, Escaping(m.value), key);
        } else {
          AbsentInPlain(text, w, m.value, Quoted(key));
        }
        AbsentJoins(text, 0, w, EndAt(p, m), Quoted(key));
      }
    }
  }

  lemma {:induction false} NameIsEscaped(name: string)
    requires forall i :: 0 <= i < |name| ==> Plain(name[i]) && name[i] != '\\'
    ensures Escaped(name)
  {
    if name != "" {
      NameIsEscaped(name[1..]);
    }
  }

  lemma NameEscaped(name: string)
    requires Name(name)
    ensures Escaped(name)
  {
    NameIsEscaped(name);
  }

  lemma NameHasNoQuote(name: string, key: string)
    requires Name(name)
    ensures !LooksLike(name, key)
  {
  }

  /** A search in the text of listed members finds what they hold. */
  lemma {:induction false} ValueHeld(text: string, p: nat, ms: seq<Member>, sep: char, key: string, size: nat)
    requires Name(key) && size > 0 && sep != '"' && forall i :: 0 <= i < |ms| ==> Ordinary(ms[i])
    requires At(text, p, ListedMembers(ms, sep) + "}") && p + |ListedMembers(ms, sep)| + 1 == |text|
    requires Absent(text, 0, p, Quoted(key))
    ensures Value(text, key, size) == Held(ms, key, size)
    decreases |ms|
  {
    hide At, Absent, Value, Confuses, Ordinary, Written, Name, ReadBack;
    if ms == [] {
      assert ListedMembers(ms, sep) + "}" == "}";
      AbsentInPlain(text, p, "}", Quoted(key));
      AbsentJoins(text, 0, p, p + 1, Quoted(key));
      NoValue(text, key, size);
    } else if ms[0].value == "" {
      ValueHeld(text, p, ms[1..], sep, key, size);
    } else {
      var m := ms[0];
      MemberAt(text, p, ms, sep);
      AbsentInMember(text, p, m, sep, key);
      if m.name == key {
        NamedHere(text, p, m, size);
      } else if Confuses(m, key) {
        ConfusedHere(text, WrittenAt(p, m), m, key, size);
      } else {
        ValueHeld(text, EndAt(p, m), ms[1..], ',', key, size);
      }
    }
  }

  lemma NoValue(text: string, key: string, size: nat)
    requires size > 0 && Absent(text, 0, |text|, Quoted(key))
    ensures Value(text, key, size) == Field(false, "")
  {
    hide Absent;
    FoundNowhere(text, Quoted(key));
  }

  // ---- Which members come back ----

  /** The member is read back as it was, once it is found. */
  predicate ReadsWhole(m: Member, size: nat) {
    |m.value| < size && (m.quoted ==> Printable(m.value))
  }

  /** Member k is found in the list, and read back whole. */
  predicate Back(ms: seq<Member>, k: nat, size: nat)
    requires k < |ms|
  {
    ms[k].value != "" ==> ReadsWhole(ms[k], size) && forall i :: 0 <= i < k ==> !Confuses(ms[i], ms[k].name)
  }

  lemma {:induction false} ShownFacts(text: string)
    ensures |Shown(text)| <= |text| && (Shown(text) == text <==> Printable(text))
    ensures !Printable(text) ==> |Shown(text)| < |text|
  {
    if text != "" {
      ShownFacts(text[1..]);
      assert text == [text[0]] + text[1..];
    }
  }

  lemma ReadBackIff(m: Member, size: nat)
    requires size > 0
    ensures ReadBack(m, size).text == m.value <==> ReadsWhole(m, size)
    ensures ReadsWhole(m, size) ==> ReadBack(m, size).ok
    ensures !ReadsWhole(m, size) ==> |ReadBack(m, size).text| < |m.value|
  {
    hide Shown, Printable;
    ShownFacts(m.value);
  }

  predicate Distinct(ms: seq<Member>) {
    forall i, j :: 0 <= i < j < |ms| ==> ms[i].name != ms[j].name
  }

  lemma NothingConfuses(m: Member, key: string)
    requires m.value == "" && key != ""
    ensures !Confuses(m, key)
  {
  }

  /** A search for a member's name gets its value exactly when the member is read back whole and no value
      before it looks like its name. */
  lemma {:induction false} HeldIff(ms: seq<Member>, k: nat, size: nat)
    requires k < |ms| && size > 0 && Distinct(ms) && ms[k].name != ""
    ensures Held(ms, ms[k].name, size).text == ms[k].value <==> Back(ms, k, size)
    ensures Back(ms, k, size) && ms[k].value != "" ==> Held(ms, ms[k].name, size).ok
    ensures !Back(ms, k, size) && ReadsWhole(ms[k], size) ==> Held(ms, ms[k].name, size).text == ""
    ensures !Back(ms, k, size) ==> |Held(ms, ms[k].name, size).text| < |ms[k].value|
    decreases |ms|
  {
    hide Confuses, ReadBack, ReadsWhole;
    var key := ms[k].name;
    if ms[k].value == "" {
      HeldNothing(ms, key, size);
    } else if k == 0 {
      ReadBackIff(ms[0], size);
    } else {
      HeldIff(ms[1..], k - 1, size);
      if ms[0].value == "" {
        NothingConfuses(ms[0], key);
      }
      assert Back(ms, k, size) <==> !Confuses(ms[0], key) && Back(ms[1..], k - 1, size) by {
        assert forall i :: 0 < i < k ==> ms[i] == ms[1..][i - 1];
      }
    }
  }

  lemma {:induction false} HeldNothing(ms: seq<Member>, key: string, size: nat)
    requires size > 0 && forall i :: 0 <= i < |ms| && ms[i].name == key ==> ms[i].value == ""
    ensures Held(ms, key, size).text == ""
    decreases |ms|
  {
    hide Confuses, ReadBack;
    if ms != [] {
      HeldNothing(ms[1..], key, size);
    }
  }

  // ---- A payload that is cut ----

  lemma CutFound(text: string, m: nat, piece: string)
    requires m <= |text| && piece != ""
    ensures var p := Find(text, piece, 0);
      Find(text[..m], piece, 0) == if p.Some? && p.value + |piece| <= m then p else None
  {
    hide Find;
    var cut := text[..m];
    forall i | 0 <= i <= m ensures At(cut, i, piece) <==> i + |piece| <= m && At(text, i, piece) {
      CutAt(text, m, i, piece);
    }
    var p := Find(text, piece, 0);
    var c := Find(cut, piece, 0);
    if c.Some? {
      assert At(text, c.value, piece);
      assert p.Some? && p.value <= c.value;
      assert At(cut, p.value, piece);
    }
  }

  lemma CutAt(text: string, m: nat, i: nat, piece: string)
    requires i <= m <= |text|
    ensures At(text[..m], i, piece) <==> i + |piece| <= m && At(text, i, piece)
  {
    if i + |piece| <= m {
      assert text[..m][i..i + |piece|] == text[i..i + |piece|];
    }
  }

  function Least(a: nat, b: nat): nat {
    if a < b then a else b
  }

  lemma {:induction false} CutSkipped(text: string, m: nat, p: nat)
    requires p <= m <= |text|
    ensures SkipBlanks(text[..m], p) == Least(SkipBlanks(text, p), m)
    decreases m - p
  {
    if p < m {
      CutSkipped(text, m, p + 1);
    }
  }

  lemma {:induction false} CutQuotedShorter(text: string, m: nat, p: nat, room: nat)
    requires p <= m <= |text|
    ensures |ReadQuoted(text[..m], p, room).0| <= |ReadQuoted(text, p, room).0|
    decreases m - p
  {
    if p < m && text[p] != '"' && room > 0 {
      var q := if text[p] == '\\' && p + 1 < m then p + 1 else p;
      if text[p] != '\\' || p + 1 < m {
        CutQuotedShorter(text, m, q + 1, room - 1);
      } else {
        assert ReadQuoted(text[..m], m, room - 1).0 == "";
      }
    }
  }

  lemma {:induction false} CutBare(text: string, m: nat, p: nat, room: nat)
    requires p <= m <= |text|
    ensures ReadBare(text[..m], p, room) == Take(ReadBare(text, p, room), m - p)
    decreases m - p
  {
    if p < m && !(text[p] == ',' || text[p] == '}' || Blank(text[p]) || room == 0) {
      CutBare(text, m, p + 1, room - 1);
    }
  }

  /** What a search finds in a text that is cut is no longer than what it finds in the whole. */
  lemma CutShorter(text: string, m: nat, key: string, size: nat)
    requires m <= |text| && size > 0
    ensures |Value(text[..m], key, size).text| <= |Value(text, key, size).text|
  {
    hide Find, SkipBlanks, ReadQuoted, ReadBare, Quoted;
    var cut := text[..m];
    assert Quoted(key) != "" by { QuotedNotEmpty(key); }
    CutFound(text, m, Quoted(key));
    var c := Find(cut, Quoted(key), 0);
    if c.Some? {
      AtFits(text, c.value, Quoted(key));
      var a := c.value + |Quoted(key)|;
      var q := SkipBlanks(text, a);
      CutSkipped(text, m, a);
      if q < m {
        assert cut[q] == text[q];
        if text[q] == '"' {
          CutQuotedShorter(text, m, q + 1, size - 1);
        } else {
          CutBare(text, m, q, size - 1);
        }
      } else {
        NothingBare(cut, size - 1);
      }
    }
  }

  lemma QuotedNotEmpty(key: string)
    ensures Quoted(key) != "" && |Quoted(key)| == |key| + 2
  {
  }

  lemma NothingBare(text: string, room: nat)
    ensures ReadBare(text, |text|, room) == ""
  {
  }

  /** A text that ends in a backslash. */
  predicate EndsInBackslash(value: string) {
    value != "" && value[|value| - 1] == '\\'
  }

  /** A string that is cut is read whole when the cut is behind it, or inside the escaped backslash at its end. */
  lemma {:induction false} CutReads(text: string, m: nat, p: nat, value: string, room: nat)
    requires At(text, p, Escaping(value) + "\"") && Printable(value) && |value| <= room && p <= m <= |text|
    ensures var r, end := ReadQuoted(text[..m], p, room), p + |Escaping(value)|;
      && (r.0 == value <==> end <= m || (end == m + 1 && EndsInBackslash(value)))
      && (end < m ==> r.1 < m && text[r.1] == '"') && (end >= m ==> r.1 == m)
    decreases |value|
  {
    hide At, Printable, ReadQuoted;
    var cut := text[..m];
    if value == "" {
      assert Escaping(value) + "\"" == "\"";
      CharAt(text, p, "\"", 0);
      CutNothing(text, m, p, room);
    } else {
      var c, v, rest := value[0], value[1..], Escaping(value[1..]) + "\"";
      PrintableParts(value);
      LetterSplit(value);
      Split(text, p, Letter(c), rest);
      CharAt(text, p, Letter(c), 0);
      CharAt(text, p, Letter(c), |Letter(c)| - 1);
      assert value == [c] + v;
      if p + |Letter(c)| <= m {
        CutReads(text, m, p + |Letter(c)|, v, room - 1);
        CutLetter(text, m, p, c, room);
        assert v != "" ==> value[|value| - 1] == v[|v| - 1];
      } else {
        CutLetter(text, m, p, c, room);
        EscapingNotEmpty(v);
      }
    }
  }

  lemma PrintableParts(value: string)
    requires Printable(value) && value != ""
    ensures value[0] >= ' ' && Printable(value[1..]) && (value[1..] != "" ==> value[1] >= ' ')
  {
  }

  lemma EscapingNotEmpty(value: string)
    ensures value != "" && value[0] >= ' ' ==> |Escaping(value)| > 0
    ensures value == "" ==> Escaping(value) == ""
  {
  }

  lemma CutNothing(text: string, m: nat, p: nat, room: nat)
    requires p <= m <= |text| && p < |text| && text[p] == '"'
    ensures ReadQuoted(text[..m], p, room) == ("", p)
  {
  }

  /** Reading one letter, or what the cut leaves of it. */
  lemma CutLetter(text: string, m: nat, p: nat, c: char, room: nat)
    requires p <= m && p + |Letter(c)| <= |text| && m <= |text| && c >= ' ' && room > 0
    requires text[p] == Letter(c)[0] && text[p + |Letter(c)| - 1] == Letter(c)[|Letter(c)| - 1]
    ensures p + |Letter(c)| <= m ==>
      var r := ReadQuoted(text[..m], p + |Letter(c)|, room - 1);
      ReadQuoted(text[..m], p, room) == ([c] + r.0, r.1)
    ensures p + |Letter(c)| > m ==>
      ReadQuoted(text[..m], p, room) == (if p == m then "" else "\\", m)
    ensures p + |Letter(c)| > m && p < m ==> |Letter(c)| == 2 && p + 1 == m
  {
    if p < m && p + |Letter(c)| > m {
      var cut := text[..m];
      assert cut[p] == '\\' && p + 1 == |cut|;
      assert ReadQuoted(cut, m, room - 1) == ("", m);
      assert [cut[p]] + "" == "\\";
    }
  }

  /** Where the value of member k is written, in a list that begins at p. */
  function Where(ms: seq<Member>, k: nat, p: nat): nat
    requires k < |ms|
  {
    if k == 0 then WrittenAt(p, ms[0])
    else Where(ms[1..], k - 1, if ms[0].value == "" then p else EndAt(p, ms[0]))
  }

  /** A member's name, its colon and its value stand there. */
  predicate StandsAt(text: string, m: Member, w: nat) {
    && 1 + |Quoted(m.name)| <= w
    && At(text, w - 1 - |Quoted(m.name)|, Quoted(m.name)) && At(text, w - 1, ":")
    && At(text, w, Written(m)) && Ends(text, w + |Written(m)|)
  }

  /** A member before which nothing looks like its name is the first place where its name stands. */
  lemma {:induction false} FoundAt(text: string, p: nat, ms: seq<Member>, sep: char, k: nat)
    requires k < |ms| && ms[k].value != "" && sep != '"' && Distinct(ms) && forall i :: 0 <= i < |ms| ==> Ordinary(ms[i])
    requires forall i :: 0 <= i < k ==> !Confuses(ms[i], ms[k].name)
    requires At(text, p, ListedMembers(ms, sep) + "}") && Absent(text, 0, p, Quoted(ms[k].name))
    ensures var w := Where(ms, k, p);
      StandsAt(text, ms[k], w) && Find(text, Quoted(ms[k].name), 0) == Some(w - 1 - |Quoted(ms[k].name)|)
    decreases |ms|
  {
    hide At, Absent, Confuses, Written, Find, Quoted, Ends;
    var key := ms[k].name;
    assert Name(key) && Ordinary(ms[0]);
    hide Ordinary, Name;
    if ms[0].value == "" {
      assert forall i :: 0 <= i < |ms[1..]| ==> ms[1..][i] == ms[i + 1];
      FoundAt(text, p, ms[1..], sep, k - 1);
    } else {
      MemberAt(text, p, ms, sep);
      AbsentInMember(text, p, ms[0], sep, key);
      if k == 0 {
        AtFits(text, p + 1, Quoted(key));
        FoundFirst(text, Quoted(key), p + 1);
      } else {
        assert forall i :: 0 <= i < |ms[1..]| ==> ms[1..][i] == ms[i + 1];
        FoundAt(text, EndAt(p, ms[0]), ms[1..], ',', k - 1);
      }
    }
  }

  /** What a search finds of a string in a text that is cut. */
  lemma CutString(text: string, m: nat, s: Member, w: nat, size: nat)
    requires StandsAt(text, s, w) && s.quoted && Find(text, Quoted(s.name), 0) == Some(w - 1 - |Quoted(s.name)|)
    requires m <= |text| && s.value != "" && Printable(s.value) && |s.value| < size
    ensures var f, end := Value(text[..m], s.name, size), w + 1 + |Escaping(s.value)|;
      && (f.text == s.value <==> end <= m || (end == m + 1 && EndsInBackslash(s.value)))
      && (end < m ==> f.ok) && (end >= m ==> !f.ok || f.text == "")
  {
    hide At, StandsAt, Find, Value, Quoted, Ends, Escaping, Printable, EndsInBackslash;
    EscapedIsLonger(s.value);
    if w < m {
      CutInside(text, m, s, w, size);
    } else {
      CutAway(text, m, s, w, size);
    }
  }

  /** The cut is behind the string's first quote. */
  lemma CutInside(text: string, m: nat, s: Member, w: nat, size: nat)
    requires StandsAt(text, s, w) && s.quoted && Find(text, Quoted(s.name), 0) == Some(w - 1 - |Quoted(s.name)|)
    requires w < m <= |text| && s.value != "" && Printable(s.value) && |s.value| < size
    ensures var f, end := Value(text[..m], s.name, size), w + 1 + |Escaping(s.value)|;
      && (f.text == s.value <==> end <= m || (end == m + 1 && EndsInBackslash(s.value)))
      && (end < m ==> f.ok) && (end >= m ==> !f.ok || f.text == "")
  {
    hide At, Find, SkipBlanks, ReadQuoted, ReadBare, Quoted, Ends, Escaping, Printable, EndsInBackslash;
    var raw := Escaping(s.value);
    QuotedNotEmpty(s.name);
    QuotedNotEmpty(raw);
    CutFound(text, m, Quoted(s.name));
    CharAt(text, w - 1, ":", 0);
    QuotedAt(text, w, raw);
    AtFits(text, w + 1, raw + "\"");
    ColonSkipped(text, w - 1);
    CutSkipped(text, m, w - 1);
    CutReads(text, m, w + 1, s.value, size - 1);
  }

  /** The cut leaves nothing of the string. */
  lemma CutAway(text: string, m: nat, s: Member, w: nat, size: nat)
    requires StandsAt(text, s, w) && s.quoted && Find(text, Quoted(s.name), 0) == Some(w - 1 - |Quoted(s.name)|)
    requires m <= |text| && m <= w && size > 0
    ensures Value(text[..m], s.name, size).text == ""
  {
    hide At, Find, SkipBlanks, ReadQuoted, ReadBare, Quoted, Ends, Escaping;
    QuotedNotEmpty(s.name);
    QuotedNotEmpty(Escaping(s.value));
    CutFound(text, m, Quoted(s.name));
    CharAt(text, w - 1, ":", 0);
    QuotedAt(text, w, Escaping(s.value));
    ColonSkipped(text, w - 1);
    if w - 1 <= m {
      CutSkipped(text, m, w - 1);
      NothingBare(text[..m], size - 1);
    }
  }

  lemma EscapedIsLonger(value: string)
    requires Printable(value)
    ensures |value| <= |Escaping(value)| && (EndsInBackslash(value) ==> 1 < |Escaping(value)|)
  {
    EscapingFacts(value);
    if EndsInBackslash(value) {
      assert value[|value| - 1] == '\\';
      assert !Clean(value);
    }
  }

  /** What it finds of a number. */
  lemma CutNumber(text: string, m: nat, s: Member, w: nat, size: nat)
    requires StandsAt(text, s, w) && !s.quoted && Find(text, Quoted(s.name), 0) == Some(w - 1 - |Quoted(s.name)|)
    requires m <= |text| && s.value != "" && Digits(s.value) && |s.value| < size
    ensures var f := Value(text[..m], s.name, size);
      (f.ok ==> f.text == Take(s.value, if w < m then m - w else 0)) && (!f.ok ==> m <= w)
  {
    hide At, Find, SkipBlanks, ReadQuoted, ReadBare, Quoted, Ends, Take;
    var cut, key := text[..m], s.name;
    QuotedNotEmpty(key);
    CutFound(text, m, Quoted(key));
    CharAt(text, w - 1, ":", 0);
    CharAt(text, w, s.value, 0);
    ColonSkipped(text, w - 1);
    TakeNone(s.value, 0);
    if w - 1 <= m {
      CutSkipped(text, m, w - 1);
      if w < m {
        CutBare(text, m, w, size - 1);
        BareReadsBack(text, w, s.value, size - 1);
        TakeAll(s.value, size - 1);
      } else {
        NothingBare(cut, size - 1);
      }
    }
  }

  lemma TakeAll(s: string, n: nat)
    requires |s| <= n
    ensures Take(s, n) == s
  {
  }

  // ---- Jobs and macros ----

  /** The sizes of the buffers for a job's members. */
  const SIZES: seq<nat> := [256, 32, 64, 96, NUMBER, NUMBER]

  /** The C library reads the number it has printed. */
  predicate Faithful(n: Numbers, x: real) {
    x > 0.0 ==> n.prints(x) != "" && |n.prints(x)| < NUMBER && Digits(n.prints(x)) && n.scans(n.prints(x)) == Some(x)
  }

  predicate Sendable(n: Numbers, j: Job) {
    && j.file != "" && j.bed >= 0.0 && j.head >= 0.0 && Faithful(n, j.bed) && Faithful(n, j.head)
    && n.scans("") == None
  }

  lemma MembersAreOrdinary(n: Numbers, j: Job)
    requires Faithful(n, j.bed) && Faithful(n, j.head)
    ensures forall i :: 0 <= i < 6 ==> Ordinary(Members(n, j)[i])
    ensures Distinct(Members(n, j))
  {
    hide Faithful, NumberText, Digits, Name;
    FaithfulDigits(n, j.bed);
    FaithfulDigits(n, j.head);
    NamesAreNames();
    NamesDiffer(Members(n, j));
  }

  lemma NamesAreNames()
    ensures Name("file") && Name("source") && Name("uuid")
    ensures Name("cloud_job_id") && Name("bedTset") && Name("headTset")
  {
  }

  lemma NamesDiffer(ms: seq<Member>)
    requires |ms| == 6 && ms[0].name == "file" && ms[1].name == "source" && ms[2].name == "uuid"
    requires ms[3].name == "cloud_job_id" && ms[4].name == "bedTset" && ms[5].name == "headTset"
    ensures Distinct(ms)
  {
    assert ms[0].name[0] == 'f' && ms[2].name[0] == 'u';
    assert |ms[0].name| == |ms[2].name| == 4 && |ms[1].name| == 6 && |ms[3].name| == 12;
    assert |ms[4].name| == 7 && |ms[5].name| == 8;
  }

  lemma FaithfulDigits(n: Numbers, x: real)
    requires Faithful(n, x)
    ensures Digits(NumberText(n, x)) && |NumberText(n, x)| < NUMBER && (x > 0.0 <==> NumberText(n, x) != "")
    ensures x > 0.0 ==> n.scans(NumberText(n, x)) == Some(x)
  {
  }

  lemma PayloadHeld(ms: seq<Member>, key: string, size: nat)
    requires Name(key) && size > 0 && forall i :: 0 <= i < |ms| ==> Ordinary(ms[i])
    ensures Value(Payload(ms), key, size) == Held(ms, key, size)
  {
    hide Value, Held, Ordinary, Name, ListedMembers;
    WholeAt(Payload(ms));
    AbsentInNothing(Payload(ms), 0, Quoted(key));
    ValueHeld(Payload(ms), 0, ms, '{', key, size);
  }

  /** A name that no member has finds nothing. */
  lemma OtherNameHeld(ms: seq<Member>, key: string, size: nat)
    requires Name(key) && size > 0 && forall i :: 0 <= i < |ms| ==> Ordinary(ms[i]) && ms[i].name != key
    ensures Value(Payload(ms), key, size).text == ""
  {
    hide Value, Held, Ordinary, Name, Payload;
    PayloadHeld(ms, key, size);
    HeldNothing(ms, key, size);
  }

  /** Member k is found, as the search sees it. */
  lemma MemberBackIff(ms: seq<Member>, k: nat, size: nat)
    requires k < |ms| && size > 0 && Distinct(ms) && forall i :: 0 <= i < |ms| ==> Ordinary(ms[i])
    ensures var f := Value(Payload(ms), ms[k].name, size);
      && (f.text == ms[k].value <==> Back(ms, k, size)) && (Back(ms, k, size) && ms[k].value != "" ==> f.ok)
      && (!Back(ms, k, size) && ReadsWhole(ms[k], size) ==> f.text == "")
      && (!Back(ms, k, size) ==> |f.text| < |ms[k].value|)
  {
    hide Value, Held, Name, Payload, Back, Distinct, ReadsWhole;
    assert Ordinary(ms[k]);
    NameNotEmpty(ms[k].name);
    hide Ordinary;
    PayloadHeld(ms, ms[k].name, size);
    HeldIff(ms, k, size);
  }

  lemma NumberBackIff(n: Numbers, ms: seq<Member>, k: nat, other: string, x: real)
    requires k < |ms| && Distinct(ms) && Name(other)
    requires forall i :: 0 <= i < |ms| ==> Ordinary(ms[i]) && ms[i].name != other
    requires Faithful(n, x) && x >= 0.0 && ms[k] == Member(ms[k].name, NumberText(n, x), false) && n.scans("") == None
    ensures Target(n, Payload(ms), ms[k].name, other) == x <==> Back(ms, k, NUMBER)
  {
    hide Value, Name, Payload, Back, Distinct, Ordinary, Faithful, NumberText;
    FaithfulDigits(n, x);
    MemberBackIff(ms, k, NUMBER);
    OtherNameHeld(ms, other, NUMBER);
    if x == 0.0 {
      EmptyIsBack(ms, k, NUMBER);
    }
  }

  lemma EmptyIsBack(ms: seq<Member>, k: nat, size: nat)
    requires k < |ms| && ms[k].value == ""
    ensures Back(ms, k, size)
  {
  }

  lemma FileBackIff(ms: seq<Member>)
    requires ms != [] && Distinct(ms) && ms[0].name == "file" && ms[0].value != ""
    requires forall i :: 0 <= i < |ms| ==> Ordinary(ms[i]) && ms[i].name != "path"
    ensures FileName(Payload(ms)) == ms[0].value <==> Back(ms, 0, 256)
  {
    hide Value, Payload, Back, Distinct, Ordinary, ReadsWhole;
    MemberBackIff(ms, 0, 256);
    OtherNameHeld(ms, "path", 256);
  }

  /** The reader keeps this much of a payload. */
  const KEPT := PAYLOAD - 1

  /** What the reader keeps of the payload is enough for member k: of a file its closing quote too, of another string its
      text but perhaps for half of an escaped backslash at its end, of a number as many digits as make it the same. */
  predicate Arrives(n: Numbers, ms: seq<Member>, k: nat)
    requires k < |ms|
  {
    var v, w := ms[k].value, Where(ms, k, 0);
    var end := w + 1 + |Escaping(v)|;
    v != "" ==>
      if !ms[k].quoted then n.scans(Take(v, if w < KEPT then KEPT - w else 0)) == n.scans(v)
      else if k == 0 then end < KEPT
      else end <= KEPT || (end == KEPT + 1 && EndsInBackslash(v))
  }

  lemma MemberFound(ms: seq<Member>, k: nat, size: nat)
    requires k < |ms| && Distinct(ms) && (forall i :: 0 <= i < |ms| ==> Ordinary(ms[i])) && ms[k].value != "" && Back(ms, k, size)
    ensures var w := Where(ms, k, 0);
      && StandsAt(Payload(ms), ms[k], w) && ReadsWhole(ms[k], size)
      && Find(Payload(ms), Quoted(ms[k].name), 0) == Some(w - 1 - |Quoted(ms[k].name)|)
  {
    hide Confuses, Ordinary, StandsAt, Find, Distinct, ReadsWhole, Where;
    WholeAt(Payload(ms));
    AbsentInNothing(Payload(ms), 0, Quoted(ms[k].name));
    FoundAt(Payload(ms), 0, ms, '{', k);
  }

  /** The member as a search sees it in what the reader keeps. */
  lemma CutMember(ms: seq<Member>, k: nat, size: nat)
    requires k < |ms| && size > 0 && Distinct(ms) && forall i :: 0 <= i < |ms| ==> Ordinary(ms[i])
    requires KEPT <= |Payload(ms)|
    ensures var f := Value(Payload(ms)[..KEPT], ms[k].name, size);
      && (!Back(ms, k, size) ==> |f.text| < |ms[k].value|)
      && (ms[k].value == "" || (!Back(ms, k, size) && ReadsWhole(ms[k], size)) ==> f.text == "")
  {
    hide Value, Payload, Back, Distinct, ReadsWhole, Ordinary;
    MemberBackIff(ms, k, size);
    CutShorter(Payload(ms), KEPT, ms[k].name, size);
    if ms[k].value == "" {
      EmptyIsBack(ms, k, size);
    }
  }

  lemma StringArrivesIff(n: Numbers, ms: seq<Member>, k: nat, size: nat)
    requires 0 < k < |ms| && size > 0 && Distinct(ms) && forall i :: 0 <= i < |ms| ==> Ordinary(ms[i])
    requires KEPT <= |Payload(ms)| && ms[k].quoted
    ensures Value(Payload(ms)[..KEPT], ms[k].name, size).text == ms[k].value <==> Back(ms, k, size) && Arrives(n, ms, k)
  {
    hide Value, Payload, Back, Distinct, Ordinary, Find, StandsAt, EndsInBackslash, Where, Escaping, Printable;
    CutMember(ms, k, size);
    if ms[k].value == "" {
      EmptyIsBack(ms, k, size);
    } else if Back(ms, k, size) {
      MemberFound(ms, k, size);
      CutString(Payload(ms), KEPT, ms[k], Where(ms, k, 0), size);
    }
  }

  lemma FileArrivesIff(n: Numbers, ms: seq<Member>)
    requires ms != [] && Distinct(ms) && ms[0].name == "file" && ms[0].value != "" && ms[0].quoted
    requires forall i :: 0 <= i < |ms| ==> Ordinary(ms[i]) && ms[i].name != "path"
    requires KEPT <= |Payload(ms)|
    ensures FileName(Payload(ms)[..KEPT]) == ms[0].value <==> Back(ms, 0, 256) && Arrives(n, ms, 0)
  {
    hide Value, Payload, Back, Distinct, Ordinary, Find, StandsAt, EndsInBackslash, Where, Escaping, Printable;
    CutMember(ms, 0, 256);
    OtherNameHeld(ms, "path", 256);
    CutShorter(Payload(ms), KEPT, "path", 256);
    if Back(ms, 0, 256) {
      MemberFound(ms, 0, 256);
      CutString(Payload(ms), KEPT, ms[0], Where(ms, 0, 0), 256);
    }
  }

  lemma NumberArrivesIff(n: Numbers, ms: seq<Member>, k: nat, other: string, x: real)
    requires k < |ms| && Distinct(ms) && Name(other) && KEPT <= |Payload(ms)|
    requires forall i :: 0 <= i < |ms| ==> Ordinary(ms[i]) && ms[i].name != other
    requires Faithful(n, x) && x >= 0.0 && ms[k] == Member(ms[k].name, NumberText(n, x), false) && n.scans("") == None
    ensures Target(n, Payload(ms)[..KEPT], ms[k].name, other) == x <==> Back(ms, k, NUMBER) && Arrives(n, ms, k)
  {
    hide Value, Name, Payload, Back, Distinct, Ordinary, Faithful, NumberText, Find, StandsAt, Where, Take, Digits;
    FaithfulDigits(n, x);
    CutMember(ms, k, NUMBER);
    OtherNameHeld(ms, other, NUMBER);
    CutShorter(Payload(ms), KEPT, other, NUMBER);
    if x == 0.0 {
      EmptyIsBack(ms, k, NUMBER);
    } else if Back(ms, k, NUMBER) {
      MemberFound(ms, k, NUMBER);
      CutNumber(Payload(ms), KEPT, ms[k], Where(ms, k, 0), NUMBER);
      TakeNone(ms[k].value, 0);
    }
  }

  lemma {:induction false} WhereFits(ms: seq<Member>, k: nat, p: nat, sep: char)
    requires k < |ms| && ms[k].value != ""
    ensures Where(ms, k, p) + |Written(ms[k])| <= p + |ListedMembers(ms, sep)|
    decreases |ms|
  {
    hide Written, Quoted, ListedMembers;
    if ms[0].value == "" {
      SkippedMember(ms, sep);
      WhereFits(ms[1..], k - 1, p, sep);
    } else {
      MemberListed(ms, sep);
      if k > 0 {
        WhereFits(ms[1..], k - 1, EndAt(p, ms[0]), ',');
      }
    }
  }

  lemma SkippedMember(ms: seq<Member>, sep: char)
    requires ms != [] && ms[0].value == ""
    ensures ListedMembers(ms, sep) == ListedMembers(ms[1..], sep)
  {
  }

  /** A payload that is not cut arrives. */
  lemma ShortArrives(n: Numbers, ms: seq<Member>, k: nat)
    requires k < |ms| && |Payload(ms)| <= KEPT
    ensures Arrives(n, ms, k)
  {
    hide Where, Escaping, Take, ListedMembers;
    var m := ms[k];
    if m.value != "" {
      WhereFits(ms, k, 0, '{');
      if m.quoted {
        QuotedNotEmpty(Escaping(m.value));
      } else {
        TakeAll(m.value, KEPT - Where(ms, k, 0));
      }
    }
  }

  lemma JobParsed(n: Numbers, payload: string)
    ensures var kept := if |payload| <= KEPT then payload else payload[..KEPT];
      Parsed(n, "JOB<" + payload) == Some(Command("JOB", kept, Print(ReadJob(n, kept))))
  {
    hide Parsed, ReadJob;
    assert "JOB<" + payload == "JOB" + "<" + payload;
    FrameParsed(n, "JOB", payload);
  }

  /** A job sent is the job received exactly when each of its texts is shorter than its buffer and free of control
      characters, no text written before a member is, or ends in a quote and, that member's name, and what the reader
      keeps of the payload is enough for each. */
  lemma JobReadBackIff(n: Numbers, j: Job)
    requires Sendable(n, j)
    ensures var ms := Members(n, j);
      var c := Parsed(n, "JOB<" + Payload(ms));
      c.Some? && c.value.order == Print(j) <==> forall k :: 0 <= k < 6 ==> Back(ms, k, SIZES[k]) && Arrives(n, ms, k)
  {
    assert |Members(n, j)| == 6;
    hide Back, Parsed, ReadJob, Payload, Members, Arrives, AllArrive;
    var ms := Members(n, j);
    var payload := Payload(ms);
    JobParsed(n, payload);
    SixArrive(n, ms);
    if |payload| <= KEPT {
      FieldsBackIff(n, j);
      ShortOnesArrive(n, ms);
    } else {
      FieldsArriveIff(n, j);
    }
  }

  predicate AllArrive(n: Numbers, ms: seq<Member>)
    requires |ms| == 6
  {
    && Back(ms, 0, 256) && Back(ms, 1, 32) && Back(ms, 2, 64) && Back(ms, 3, 96) && Back(ms, 4, 64) && Back(ms, 5, 64)
    && Arrives(n, ms, 0) && Arrives(n, ms, 1) && Arrives(n, ms, 2) && Arrives(n, ms, 3) && Arrives(n, ms, 4)
    && Arrives(n, ms, 5)
  }

  lemma SixArrive(n: Numbers, ms: seq<Member>)
    requires |ms| == 6
    ensures AllArrive(n, ms) <==> forall k :: 0 <= k < 6 ==> Back(ms, k, SIZES[k]) && Arrives(n, ms, k)
  {
    hide Back, Arrives;
    assert SIZES[0] == 256 && SIZES[1] == 32 && SIZES[2] == 64 && SIZES[3] == 96 && SIZES[4] == SIZES[5] == 64;
    if forall k :: 0 <= k < 6 ==> Back(ms, k, SIZES[k]) && Arrives(n, ms, k) {
      assert Back(ms, 0, SIZES[0]) && Back(ms, 1, SIZES[1]) && Back(ms, 2, SIZES[2]);
      assert Back(ms, 3, SIZES[3]) && Back(ms, 4, SIZES[4]) && Back(ms, 5, SIZES[5]);
    }
  }

  lemma ShortOnesArrive(n: Numbers, ms: seq<Member>)
    requires |ms| == 6 && |Payload(ms)| <= KEPT
    ensures AllArrive(n, ms)
         <==> && Back(ms, 0, 256) && Back(ms, 1, 32) && Back(ms, 2, 64) && Back(ms, 3, 96) && Back(ms, 4, 64)
              && Back(ms, 5, 64)
  {
    hide Back, Arrives, Payload;
    ShortArrives(n, ms, 0);
    ShortArrives(n, ms, 1);
    ShortArrives(n, ms, 2);
    ShortArrives(n, ms, 3);
    ShortArrives(n, ms, 4);
    ShortArrives(n, ms, 5);
  }

  lemma FieldsArriveIff(n: Numbers, j: Job)
    requires Sendable(n, j) && KEPT <= |Payload(Members(n, j))|
    ensures var ms := Members(n, j);
      ReadJob(n, Payload(ms)[..KEPT]) == j <==> AllArrive(n, ms)
  {
    hide Back, Arrives, Ordinary, Distinct, Value, Payload, Target, FileName, Faithful, NumberText;
    var ms := Members(n, j);
    MembersAreOrdinary(n, j);
    FileArrivesIff(n, ms);
    StringArrivesIff(n, ms, 1, 32);
    StringArrivesIff(n, ms, 2, 64);
    StringArrivesIff(n, ms, 3, 96);
    NumberArrivesIff(n, ms, 4, "bed_temperature", j.bed);
    NumberArrivesIff(n, ms, 5, "nozzle_temperature", j.head);
  }

  lemma FieldsBackIff(n: Numbers, j: Job)
    requires Sendable(n, j)
    ensures var ms := Members(n, j);
      ReadJob(n, Payload(ms)) == j
      <==> Back(ms, 0, 256) && Back(ms, 1, 32) && Back(ms, 2, 64) && Back(ms, 3, 96) && Back(ms, 4, 64) && Back(ms, 5, 64)
  {
    hide Back, Ordinary, Distinct, Value, Payload, Target, FileName, Faithful, NumberText;
    var ms := Members(n, j);
    MembersAreOrdinary(n, j);
    FileBackIff(ms);
    MemberBackIff(ms, 1, 32);
    MemberBackIff(ms, 2, 64);
    MemberBackIff(ms, 3, 96);
    NumberBackIff(n, ms, 4, "bed_temperature", j.bed);
    NumberBackIff(n, ms, 5, "nozzle_temperature", j.head);
  }

  /** The name of a macro comes back exactly when it fits and has no control characters. */
  lemma MacroReadBackIff(n: Numbers, macro: string)
    requires macro != ""
    ensures var c := Parsed(n, "MACRO<" + Payload([Member("macro", macro, true)]));
      c.Some? && c.value.order == Macro(macro) <==> |macro| < 128 && Printable(macro)
  {
    hide Value, Payload, Parsed, Printable;
    var ms := [Member("macro", macro, true)];
    assert "MACRO<" + Payload(ms) == "MACRO" + "<" + Payload(ms);
    FrameParsed(n, "MACRO", Payload(ms));
    if |Payload(ms)| < PAYLOAD {
      MemberBackIff(ms, 0, 128);
    } else {
      LongMacro(macro);
      ValueFits(Take(Payload(ms), PAYLOAD - 1), "macro", 128);
    }
  }

  /** The plain orders, and every other word; what comes behind is passed on. */
  lemma VerbsMean(n: Numbers, verb: string, payload: string)
    requires 0 < |verb| <= 15 && '<' !in verb && |payload| <= 511 && verb !in {"GCODE", "MACRO", "JOB"}
    ensures Parsed(n, verb + "<" + payload)
         == Some(Command(verb, payload, if verb == "ABORT" then Abort else if verb == "PAUSE" then Pause
                                        else if verb == "RESUME" then Resume else Unknown))
    ensures verb == "ABORT" ==> Parsed(n, "ABORT" + "<" + payload) == Some(Command("ABORT", payload, Abort))
    ensures verb == "PAUSE" ==> Parsed(n, "PAUSE" + "<" + payload) == Some(Command("PAUSE", payload, Pause))
    ensures verb == "RESUME" ==> Parsed(n, "RESUME" + "<" + payload) == Some(Command("RESUME", payload, Resume))
  {
    hide Parsed;
    FrameParsed(n, verb, payload);
  }

  /** A payload that is cut has a name too long for the buffer. */
  lemma LongMacro(macro: string)
    requires macro != "" && |Payload([Member("macro", macro, true)])| >= PAYLOAD
    ensures |macro| >= 128
  {
    hide Escaping;
    var m := Member("macro", macro, true);
    assert [m][1..] == [] && ListedMembers([m][1..], ',') == "";
    assert |Payload([m])| == 12 + |Escaping(macro)|;
    EscapingAtMostDoubles(macro);
  }

  lemma {:induction false} EscapingAtMostDoubles(text: string)
    ensures |Escaping(text)| <= 2 * |text|
  {
    if text != "" {
      EscapingAtMostDoubles(text[1..]);
    }
  }

  /** Whatever a search finds fits the buffer it is given. */
  lemma ValueFits(text: string, key: string, size: nat)
    requires size > 0
    ensures |Value(text, key, size).text| < size
  {
    hide Find, ReadQuoted, ReadBare;
    var p := Find(text, Quoted(key), 0);
    if p.Some? {
      AtFits(text, p.value, Quoted(key));
      var q := SkipBlanks(text, p.value + |Quoted(key)|);
      if q < |text| && text[q] == '"' {
        QuotedFits(text, q + 1, size - 1);
      } else {
        BareFits(text, q, size - 1);
      }
    }
  }

  lemma {:induction false} QuotedFits(text: string, p: nat, room: nat)
    requires p <= |text|
    ensures |ReadQuoted(text, p, room).0| <= room
    decreases |text| - p
  {
    if !(p == |text| || text[p] == '"' || room == 0) {
      var q := if text[p] == '\\' && p + 1 < |text| then p + 1 else p;
      QuotedFits(text, q + 1, room - 1);
    }
  }

  lemma {:induction false} BareFits(text: string, p: nat, room: nat)
    requires p <= |text|
    ensures |ReadBare(text, p, room)| <= room
    decreases |text| - p
  {
    if !(p == |text| || text[p] == ',' || text[p] == '}' || Blank(text[p]) || room == 0) {
      BareFits(text, p + 1, room - 1);
    }
  }

  /** A file named like a later member hides it. */
  lemma NameHidesMember(n: Numbers, source: string)
    requires var j := Job("source", source, "", "", 0.0, 0.0); Sendable(n, j) && source != ""
    ensures var c := Parsed(n, "JOB<" + Payload(Members(n, Job("source", source, "", "", 0.0, 0.0))));
      !(c.Some? && c.value.order == Print(Job("source", source, "", "", 0.0, 0.0)))
  {
    hide Parsed, Payload, Sendable, Members, Back, Printable;
    var j := Job("source", source, "", "", 0.0, 0.0);
    JobReadBackIff(n, j);
    SourceConfused(n, j);
  }

  lemma SourceConfused(n: Numbers, j: Job)
    requires j.file == "source" && j.source != ""
    ensures !Back(Members(n, j), 1, SIZES[1])
  {
    hide Escaping, LooksLike, ReadsWhole, NumberText;
    var ms := Members(n, j);
    EscapingFacts("source");
    assert Confuses(ms[0], ms[1].name);
  }

  // ---- The printer's buffer ----

  lemma {:induction false} EscapingGrows(text: string, i: nat)
    requires i < |text|
    ensures Escaping(text[..i + 1]) == Escaping(text[..i]) + Letter(text[i])
    ensures |Escaping(text[..i + 1])| <= |Escaping(text)|
  {
    if i == 0 {
      assert text[..1][1..] == "" && text[..1][0] == text[0];
      assert Escaping(text[..1][1..]) == "";
    } else {
      EscapingGrows(text[1..], i - 1);
      assert text[..i + 1][1..] == text[1..][..i] && text[..i][1..] == text[1..][..i - 1];
    }
  }

  /** A buffer with the text printed so far, which ends with a NUL. */
  class Printer {
    const out: array<char>
    var pos: nat

    ghost predicate Valid()
      reads this, out
    {
      pos < out.Length && out[pos] == '\0'
    }

    ghost function Text(): string
      requires Valid()
      reads this, out
    {
      out[..pos]
    }

    constructor (out: array<char>)
      requires out.Length > 0
      modifies out
      ensures Valid() && Text() == "" && this.out == out
    {
      this.out, pos := out, 0;
      new;
      out[0] := '\0';
    }

    method Append(text: string) returns (ok: bool)
      requires Valid()
      modifies this, out
      ensures Valid() && (ok <==> |old(Text())| + |text| < out.Length)
      ensures Text() == if ok then old(Text()) + text else old(Text())
    {
      if |text| >= out.Length - pos {
        return false;
      }
      forall i | 0 <= i < |text| {
        out[pos + i] := text[i];
      }
      pos := pos + |text|;
      out[pos] := '\0';
      return true;
    }

    method AppendEscaped(text: string) returns (ok: bool)
      requires Valid()
      modifies this, out
      ensures Valid() && (ok <==> |old(Text())| + |Escaping(text)| < out.Length)
      ensures ok ==> Text() == old(Text()) + Escaping(text)
    {
      hide Escaping;
      NothingEscaped();
      var i := 0;
      while i < |text|
        invariant 0 <= i <= |text| && Valid() && Text() == old(Text()) + Escaping(text[..i])
      {
        EscapingGrows(text, i);
        var c := text[i];
        if c == '"' || c == '\\' {
          ok := Append(['\\', c]);
          if !ok {
            return;
          }
        } else if c >= ' ' {
          ok := Append([c]);
          if !ok {
            return;
          }
        }
        i := i + 1;
      }
      assert text[..|text|] == text;
      return true;
    }

    /** Appends a text with an opening and a closing part. */
    method AppendQuoted(opening: string, text: string) returns (ok: bool)
      requires Valid()
      modifies this, out
      ensures Valid() && (ok <==> |old(Text())| + |opening| + |Escaping(text)| + 1 < out.Length)
      ensures ok ==> Text() == old(Text()) + (opening + Escaping(text) + "\"")
    {
      hide Escaping;
      ok := Append(opening);
      if !ok {
        return;
      }
      ok := AppendEscaped(text);
      if !ok {
        return;
      }
      ok := Append("\"");
    }

    /** Prints line i behind those before it. */
    method AppendLine(lines: seq<string>, i: nat) returns (ok: bool)
      requires Valid() && i < |lines| && Text() == Begun(lines, i)
      modifies this, out
      ensures Valid() && (ok <==> |Begun(lines, i + 1)| < out.Length)
      ensures ok ==> Text() == Begun(lines, i + 1)
    {
      hide Escaping, Begun;
      BegunGrows(lines, i);
      if i > 0 {
        ok := Append(",");
        if !ok {
          return;
        }
      }
      ok := AppendQuoted("\"", lines[i]);
    }

    /** Prints the opening and the lines. */
    method AppendLines(lines: seq<string>) returns (ok: bool)
      requires Valid() && Text() == "" && lines != []
      modifies this, out
      ensures Valid() && (ok <==> |"GCODE<" + Listed(lines, '[')| < out.Length)
      ensures ok ==> Text() == "GCODE<" + Listed(lines, '[')
    {
      hide Listed, Begun;
      BegunFacts(lines, 0);
      ok := Append("GCODE<[");
      var i := 0;
      while ok && i < |lines|
        invariant 0 <= i <= |lines| && Valid() && |Begun(lines, i)| <= |Begun(lines, |lines|)|
        invariant ok <==> |Begun(lines, i)| < out.Length
        invariant ok ==> Text() == Begun(lines, i)
      {
        ok := AppendLine(lines, i);
        i := i + 1;
        BegunFacts(lines, i);
      }
    }

    /** Prints the lines; the result is the length of what was printed, if it fits. */
    method FormatGcode(lines: seq<string>) returns (n: Option<nat>)
      requires Valid() && Text() == ""
      modifies this, out
      ensures Valid() && (n.Some? <==> lines != [] && |"GCODE<" + GcodePayload(lines)| < out.Length)
      ensures n.Some? ==> n.value == pos && Text() == "GCODE<" + GcodePayload(lines)
    {
      hide Listed;
      if |lines| == 0 {
        return None;
      }
      var ok := AppendLines(lines);
      if !ok {
        return None;
      }
      ok := Append("]");
      if !ok {
        return None;
      }
      return Some(pos);
    }

    /** Prints a member behind a comma, if it has a value. */
    method AppendMember(m: Member) returns (ok: bool)
      requires Valid()
      modifies this, out
      ensures Valid() && (ok <==> |old(Text())| + |Following(m)| < out.Length)
      ensures ok ==> Text() == old(Text()) + Following(m)
    {
      hide Escaping, Following;
      MemberFollows(m);
      if m.value == "" {
        return true;
      }
      if m.quoted {
        ok := AppendQuoted(",\"" + m.name + "\":\"", m.value);
      } else {
        ok := Append(",\"" + m.name + "\":" + m.value);
      }
    }

    /** Member k goes behind the members before it. */
    method AppendNext(ghost ms: seq<Member>, ghost k: nat, m: Member) returns (ok: bool)
      requires Valid() && 0 < k < |ms| && ms[0].value != "" && m == ms[k]
      requires Text() == "JOB<" + ListedMembers(ms[..k], '{')
      modifies this, out
      ensures Valid() && (ok <==> |"JOB<" + ListedMembers(ms[..k + 1], '{')| < out.Length)
      ensures ok ==> Text() == "JOB<" + ListedMembers(ms[..k + 1], '{')
      ensures |ListedMembers(ms[..k + 1], '{')| <= |ListedMembers(ms, '{')|
    {
      hide ListedMembers, Following;
      MembersGrow(ms, '{', k);
      ok := AppendMember(m);
    }

    /** Prints the opening and the texts of a job. */
    method AppendTexts(ghost ms: seq<Member>, j: Job) returns (ok: bool)
      requires Valid() && Text() == "" && j.file != "" && |ms| == 6 && ms[0] == Member("file", j.file, true)
      requires ms[1] == Member("source", j.source, true) && ms[2] == Member("uuid", j.uuid, true)
      requires ms[3] == Member("cloud_job_id", j.cloud, true)
      modifies this, out
      ensures Valid() && (!ok ==> |"JOB<" + ListedMembers(ms, '{')| >= out.Length)
      ensures ok ==> Text() == "JOB<" + ListedMembers(ms[..4], '{')
    {
      hide ListedMembers, Escaping;
      FirstMember(ms);
      ok := AppendQuoted("JOB<{\"file\":\"", j.file);
      if ok {
        ok := AppendNext(ms, 1, Member("source", j.source, true));
      }
      if ok {
        ok := AppendNext(ms, 2, Member("uuid", j.uuid, true));
      }
      if ok {
        ok := AppendNext(ms, 3, Member("cloud_job_id", j.cloud, true));
      }
    }

    /** Prints a job; the result is the length of what was printed, if it fits. */
    method FormatJob(numbers: Numbers, j: Job) returns (n: Option<nat>)
      requires Valid() && Text() == ""
      modifies this, out
      ensures var frame := "JOB<" + Payload(Members(numbers, j));
        && Valid() && (n.Some? <==> j.file != "" && |frame| < out.Length)
        && (n.Some? ==> n.value == pos && Text() == frame)
    {
      hide ListedMembers, Escaping;
      if j.file == "" {
        return None;
      }
      ghost var ms := Members(numbers, j);
      var ok := AppendTexts(ms, j);
      if !ok {
        return None;
      }
      ok := AppendNext(ms, 4, Member("bedTset", NumberText(numbers, j.bed), false));
      if !ok {
        return None;
      }
      ok := AppendNext(ms, 5, Member("headTset", NumberText(numbers, j.head), false));
      if !ok {
        return None;
      }
      assert ms[..6] == ms;
      ok := Append("}");
      if !ok {
        return None;
      }
      return Some(pos);
    }
  }

  lemma NothingEscaped()
    ensures forall text: string :: Escaping(text[..0]) == ""
  {
  }

  /** What has been printed of the lines before line i. */
  function Upto(lines: seq<string>, i: nat): string
    requires i <= |lines|
  {
    if i == 0 then "[" else Listed(lines[..i], '[')
  }

  function Begun(lines: seq<string>, i: nat): string
    requires i <= |lines|
  {
    "GCODE<" + Upto(lines, i)
  }

  lemma BegunGrows(lines: seq<string>, i: nat)
    requires i < |lines|
    ensures Begun(lines, i + 1) == Begun(lines, i) + (if i > 0 then "," else "") + ("\"" + Escaping(lines[i]) + "\"")
  {
    hide Escaping, Listed, Upto;
    UptoFacts(lines, i);
    assert "GCODE<" + (Upto(lines, i) + (if i > 0 then "," else "") + ("\"" + Escaping(lines[i]) + "\""))
        == "GCODE<" + Upto(lines, i) + (if i > 0 then "," else "") + ("\"" + Escaping(lines[i]) + "\"");
  }

  lemma BegunFacts(lines: seq<string>, i: nat)
    requires i <= |lines| && lines != []
    ensures Begun(lines, 0) == "GCODE<[" && Begun(lines, |lines|) == "GCODE<" + Listed(lines, '[')
    ensures |Begun(lines, i)| <= |Begun(lines, |lines|)|
  {
    hide Listed, Upto;
    UptoFacts(lines, i);
  }

  lemma UptoFacts(lines: seq<string>, i: nat)
    requires i <= |lines| && lines != []
    ensures Upto(lines, 0) == "[" && Upto(lines, |lines|) == Listed(lines, '[') && |Upto(lines, i)| <= |Listed(lines, '[')|
    ensures i < |lines| ==>
              && Upto(lines, i + 1) == Upto(lines, i) + (if i > 0 then "," else "") + ("\"" + Escaping(lines[i]) + "\"")
              && |Upto(lines, i + 1)| <= |Listed(lines, '[')|
  {
    hide Escaping;
    assert lines[..|lines|] == lines;
    ListedGrows(lines, '[', 0);
    assert lines[..0] == [] && Listed([], '[') == "";
    if i > 0 {
      ListedGrows(lines, '[', i - 1);
    }
    if i < |lines| {
      ListedGrows(lines, '[', i);
    }
  }

  lemma {:induction false} ListedGrows(lines: seq<string>, sep: char, i: nat)
    requires i < |lines|
    ensures Listed(lines[..i + 1], sep)
         == Listed(lines[..i], sep) + [if i > 0 then ',' else sep] + ("\"" + Escaping(lines[i]) + "\"")
    ensures |Listed(lines[..i + 1], sep)| <= |Listed(lines, sep)|
  {
    hide Escaping;
    if i == 0 {
      assert lines[..1][1..] == [] && Listed(lines[..1][1..], ',') == "" && Listed(lines[..0], sep) == "";
    } else {
      ListedGrows(lines[1..], ',', i - 1);
      assert lines[..i + 1][1..] == lines[1..][..i] && lines[..i][1..] == lines[1..][..i - 1];
    }
  }

  lemma MemberFollows(m: Member)
    ensures Following(m) == if m.value == "" then ""
                            else if m.quoted then ",\"" + m.name + "\":\"" + Escaping(m.value) + "\""
                            else ",\"" + m.name + "\":" + m.value
  {
    hide Escaping;
    QuotesRegrouped(m.name, m.value);
    QuotesRegrouped(m.name, Escaping(m.value));
  }

  lemma QuotesRegrouped(name: string, value: string)
    ensures "," + (Quoted(name) + (":" + Quoted(value))) == ",\"" + name + "\":\"" + value + "\""
    ensures "," + (Quoted(name) + (":" + value)) == ",\"" + name + "\":" + value
  {
  }

  /** What a member adds behind others. */
  function Following(m: Member): string {
    if m.value == "" then "" else "," + MemberText(m)
  }

  lemma {:induction false} MembersGrow(ms: seq<Member>, sep: char, k: nat)
    requires k < |ms| && (sep == ',' || (k > 0 && ms[0].value != ""))
    ensures ListedMembers(ms[..k + 1], sep) == ListedMembers(ms[..k], sep) + Following(ms[k])
    ensures |ListedMembers(ms[..k + 1], sep)| <= |ListedMembers(ms, sep)|
    decreases k
  {
    hide MemberText;
    if k == 0 {
      assert ms[..1][1..] == [] && ListedMembers(ms[..1][1..], ',') == "" && ListedMembers(ms[..0], ',') == "";
    } else {
      MembersGrow(ms[1..], ',', k - 1);
      assert ms[..k + 1][1..] == ms[1..][..k] && ms[..k][1..] == ms[1..][..k - 1];
      hide Following;
      Regroup3([sep], MemberText(ms[0]), ListedMembers(ms[1..][..k - 1], ','), Following(ms[k]));
    }
  }

  lemma Regroup3(a: string, b: string, c: string, d: string)
    ensures a + (b + (c + d)) == a + (b + c) + d
  {
  }

  lemma FirstMember(ms: seq<Member>)
    requires ms != [] && ms[0] == Member("file", ms[0].value, true) && ms[0].value != ""
    ensures "JOB<" + ListedMembers(ms[..1], '{') == "JOB<{\"file\":\"" + Escaping(ms[0].value) + "\""
    ensures |ListedMembers(ms[..1], '{')| <= |ListedMembers(ms, '{')|
  {
    hide Escaping;
    assert ms[..1][1..] == [] && ListedMembers(ms[..1][1..], ',') == "";
    assert ListedMembers(ms[..1], '{') == ['{'] + MemberText(ms[0]);
    hide ListedMembers;
    FileRegrouped(Escaping(ms[0].value));
  }

  lemma FileRegrouped(value: string)
    ensures "JOB<" + (['{'] + (Quoted("file") + (":" + Quoted(value)))) == "JOB<{\"file\":\"" + value + "\""
  {
  }

  // ---- The readers ----

  method FindLineEnd(text: string, start: nat) returns (end: nat)
    requires start <= |text|
    ensures end == LineEnd(text, start, start)
  {
    end := start;
    while end < |text|
      invariant start <= end <= |text| && LineEnd(text, start, start) == LineEnd(text, start, end)
    {
      if text[end] == '"' && (end == start || text[end - 1] != '\\') {
        break;
      }
      end := end + 1;
    }
  }

  method ParseGcodeArray(payload: string) returns (lines: Option<seq<string>>)
    ensures lines == Lines(payload)
  {
    hide Find, LineEnd, Take, ScanLines, Behind;
    var read: seq<string> := [];
    var p := Find(payload, "\"", 0);
    ghost var at := 0;
    NothingBehind(ScanLines(payload, 0, COMMANDS));
    while p.Some? && |read| < COMMANDS
      invariant at <= |payload| && p == Find(payload, "\"", at) && |read| <= COMMANDS
      invariant ScanLines(payload, 0, COMMANDS) == Behind(read, ScanLines(payload, at, COMMANDS - |read|))
      decreases |payload| - at
    {
      ScanFurther(payload, at, COMMANDS - |read|, read);
      var start := p.value + 1;
      var end := FindLineEnd(payload, start);
      if end == |payload| {
        return None;
      }
      var line := Take(payload[start..end], GCODE_LINE - 1);
      read := read + [line];
      p := Find(payload, "\"", end + 1);
      at := end + 1;
    }
    ScanOver(payload, at, COMMANDS - |read|, read);
    return if read == [] then None else Some(read);
  }

  /** Lines read later come behind those read before. */
  function Behind(read: seq<string>, r: (seq<string>, bool)): (seq<string>, bool) {
    (read + r.0, r.1)
  }

  lemma NothingBehind(r: (seq<string>, bool))
    ensures Behind([], r) == r
  {
    assert [] + r.0 == r.0;
  }

  lemma ScanFurther(text: string, at: nat, room: nat, read: seq<string>)
    requires at <= |text| && room > 0 && Find(text, "\"", at).Some?
    ensures Find(text, "\"", at).value + 1 <= |text|
    ensures var start := Find(text, "\"", at).value + 1;
      var end, r := LineEnd(text, start, start), Behind(read, ScanLines(text, at, room));
      if end == |text| then !r.1
      else r == Behind(read + [Take(text[start..end], GCODE_LINE - 1)], ScanLines(text, end + 1, room - 1))
  {
    hide LineEnd, Take, ScanLines, Find;
    ScanIs(text, at, room);
    var start := Find(text, "\"", at).value + 1;
    var end := LineEnd(text, start, start);
    if end < |text| {
      LineBehind(read, Take(text[start..end], GCODE_LINE - 1), ScanLines(text, end + 1, room - 1));
    }
  }

  lemma ScanIs(text: string, at: nat, room: nat)
    requires at <= |text| && room > 0 && Find(text, "\"", at).Some?
    ensures Find(text, "\"", at).value + 1 <= |text|
    ensures var start := Find(text, "\"", at).value + 1;
      var end := LineEnd(text, start, start);
      ScanLines(text, at, room) ==
        if end == |text| then ([], false) else
        var r := ScanLines(text, end + 1, room - 1);
        ([Take(text[start..end], GCODE_LINE - 1)] + r.0, r.1)
  {
    hide LineEnd, Take;
  }

  lemma LineBehind(read: seq<string>, line: string, r: (seq<string>, bool))
    ensures Behind(read, ([line] + r.0, r.1)) == Behind(read + [line], r)
  {
    assert read + ([line] + r.0) == read + [line] + r.0;
  }

  lemma ScanOver(text: string, at: nat, room: nat, read: seq<string>)
    requires at <= |text| && (room == 0 || Find(text, "\"", at) == None)
    ensures Behind(read, ScanLines(text, at, room)) == (read, true)
  {
    hide LineEnd, Take;
    assert read + [] == read;
  }

  method GetValue(json: string, key: string, size: nat) returns (r: Field)
    requires size > 0
    ensures r == Value(json, key, size)
  {
    hide Find;
    var found := Find(json, "\"" + key + "\"", 0);
    assert "\"" + key + "\"" == Quoted(key);
    if found == None {
      return Field(false, "");
    }
    AtFits(json, found.value, Quoted(key));
    var p := found.value + |key| + 2;
    while p < |json| && (Blank(json[p]) || json[p] == ':')
      invariant p <= |json| && SkipBlanks(json, p) == SkipBlanks(json, found.value + |key| + 2)
    {
      p := p + 1;
    }
    if p < |json| && json[p] == '"' {
      r := CopyQuoted(json, p + 1, size);
    } else {
      var copied := CopyBare(json, p, size);
      r := Field(true, copied);
    }
  }

  method CopyQuoted(json: string, from: nat, size: nat) returns (r: Field)
    requires from <= |json| && size > 0
    ensures var q := ReadQuoted(json, from, size - 1); r == Field(q.1 < |json| && json[q.1] == '"', q.0)
  {
    var out, p := "", from;
    assert "" + ReadQuoted(json, from, size - 1).0 == ReadQuoted(json, from, size - 1).0;
    while p < |json| && json[p] != '"' && |out| < size - 1
      invariant from <= p <= |json| && |out| <= size - 1
      invariant var a, b := ReadQuoted(json, from, size - 1), ReadQuoted(json, p, size - 1 - |out|);
        a == (out + b.0, b.1)
    {
      if json[p] == '\\' && p + 1 < |json| {
        p := p + 1;
      }
      ghost var b := ReadQuoted(json, p + 1, size - 2 - |out|);
      assert out + ([json[p]] + b.0) == out + [json[p]] + b.0;
      out := out + [json[p]];
      p := p + 1;
    }
    return Field(p < |json| && json[p] == '"', out);
  }

  method CopyBare(json: string, from: nat, size: nat) returns (out: string)
    requires from <= |json| && size > 0
    ensures out == ReadBare(json, from, size - 1)
  {
    var p := from;
    out := "";
    while p < |json| && json[p] != ',' && json[p] != '}' && !Blank(json[p]) && |out| < size - 1
      invariant from <= p <= |json| && |out| <= size - 1
      invariant ReadBare(json, from, size - 1) == out + ReadBare(json, p, size - 1 - |out|)
    {
      assert out + ([json[p]] + ReadBare(json, p + 1, size - 2 - |out|))
          == out + [json[p]] + ReadBare(json, p + 1, size - 2 - |out|);
      out := out + [json[p]];
      p := p + 1;
    }
  }

  /** The record a command is parsed into. */
  class Record {
    const numbers: Numbers
    var verb: string
    var payload: string
    var file: string
    var source: string
    var uuid: string
    var cloud: string
    var macro: string
    var bed: real
    var head: real
    var gcode: seq<string>

    constructor (numbers: Numbers)
      ensures this.numbers == numbers
    {
      this.numbers := numbers;
      verb, payload, file, source, uuid, cloud, macro, gcode := "", "", "", "", "", "", "", [];
      bed, head := 0.0, 0.0;
    }

    /** The command the record describes. */
    ghost function Seen(): Command
      reads this
    {
      Command(verb, payload,
              if verb == "GCODE" then Gcode(gcode)
              else if verb == "MACRO" then Macro(macro)
              else if verb == "JOB" then Print(Job(file, source, uuid, cloud, bed, head))
              else if verb == "ABORT" then Abort
              else if verb == "PAUSE" then Pause
              else if verb == "RESUME" then Resume
              else Unknown)
    }

    method Clear()
      modifies this
      ensures file == source == uuid == cloud == macro == "" && bed == head == 0.0 && gcode == []
    {
      verb, payload, file, source, uuid, cloud, macro, gcode := "", "", "", "", "", "", "", [];
      bed, head := 0.0, 0.0;
    }

    method GetFloat(key: string, default: real) returns (x: real)
      ensures x == if Number(numbers, payload, key) == None then default else Number(numbers, payload, key).value
    {
      var f := GetValue(payload, key, NUMBER);
      var number := if f.ok then numbers.scans(f.text) else None;
      return if number == None then default else number.value;
    }

    method GetTarget(key: string, other: string) returns (x: real)
      ensures x == Target(numbers, payload, key, other)
    {
      hide Number;
      x := GetFloat(key, 0.0);
      if x <= 0.0 {
        x := GetFloat(other, x);
      }
    }

    method ParseJob()
      modifies this`file, this`source, this`uuid, this`cloud, this`bed, this`head
      ensures Job(file, source, uuid, cloud, bed, head) == ReadJob(numbers, payload)
    {
      hide Value, Target;
      var f := GetValue(payload, "file", 256);
      file := f.text;
      if !f.ok {
        var g := GetValue(payload, "path", 256);
        file := Overwritten(f, g);
      }
      f := GetValue(payload, "source", 32);
      source := f.text;
      f := GetValue(payload, "uuid", 64);
      uuid := f.text;
      f := GetValue(payload, "cloud_job_id", 96);
      cloud := f.text;
      bed := GetTarget("bedTset", "bed_temperature");
      head := GetTarget("headTset", "nozzle_temperature");
    }

    method Parse(frame: string) returns (ok: bool)
      modifies this
      ensures ok <==> Parsed(numbers, frame).Some?
      ensures ok ==> Seen() == Parsed(numbers, frame).value
    {
      hide Find, Take, Value, ReadJob, Lines;
      Clear();
      var sep := Find(frame, "<", 0);
      if sep == None {
        return false;
      }
      if sep.value == 0 || sep.value >= VERB {
        return false;
      }
      FirstCharAt(frame, sep.value, "<");
      verb, payload := frame[..sep.value], Take(frame[sep.value + 1..], PAYLOAD - 1);
      if verb == "JOB" {
        ParseJob();
      } else if verb == "MACRO" {
        var f := GetValue(payload, "macro", 128);
        macro := f.text;
      } else if verb == "GCODE" {
        var lines := ParseGcodeArray(payload);
        if lines == None {
          return false;
        }
        gcode := lines.value;
      }
      return true;
    }
  }
}
