/** The controller's numbered replies: a code letter, two hexadecimal bytes and a CRC-8 over those five. */
module SyncLine {
  import opened Casts
  import opened Crc
  import opened FlowState
  import opened MarlinPacket

  function HexValue(c: char): int {
    if '0' <= c <= '9' then c as int - '0' as int
    else if 'a' <= c <= 'f' then c as int - 'a' as int + 10
    else if 'A' <= c <= 'F' then c as int - 'A' as int + 10
    else -1
  }

  function HexByte(hi: char, lo: char): Option<byte> {
    if HexValue(hi) < 0 || HexValue(lo) < 0 then None else Some(16 * HexValue(hi) + HexValue(lo))
  }

  predicate IsCode(c: char) {
    c == 'o' || c == 'r' || c == 'q'
  }

  function CheckByte(line: string): byte
    requires |line| >= 5
  {
    Fold8(Bytes(line[..5])) as int
  }

  /** None: not a numbered reply at all, to be read as text. */
  function Parse(line: string): Option<Reply> {
    if |line| != 7 || !IsCode(line[0]) then None else
    var s, f, c := HexByte(line[1], line[2]), HexByte(line[3], line[4]), HexByte(line[5], line[6]);
    if s == None || f == None || c == None then None
    else if c.value != CheckByte(line) then Some(DamagedSync)
    else Some(Sync(line[0], s.value, f.value))
  }

  function HexDigit(v: int): char
    requires 0 <= v < 16
  {
    if v < 10 then ('0' as int + v) as char else ('a' as int + v - 10) as char
  }

  function HexText(b: byte): string {
    [HexDigit(b / 16), HexDigit(b % 16)]
  }

  /** The line a controller sends. */
  function Format(code: char, sequence: byte, free: byte): string {
    var head := [code] + HexText(sequence) + HexText(free);
    head + HexText(CheckByte(head))
  }

  lemma HexRoundTrip(b: byte)
    ensures HexByte(HexText(b)[0], HexText(b)[1]) == Some(b)
  {
  }

  /** Every reply a controller formats is understood. */
  lemma ParseFormat(code: char, sequence: byte, free: byte)
    requires IsCode(code)
    ensures Parse(Format(code, sequence, free)) == Some(Sync(code, sequence, free))
  {
    var head := [code] + HexText(sequence) + HexText(free);
    var line := Format(code, sequence, free);
    assert line[..5] == head[..5] == head;
    HexRoundTrip(sequence);
    HexRoundTrip(free);
    HexRoundTrip(CheckByte(head));
  }

  method ParseSync(line: string) returns (reply: Option<Reply>)
    ensures reply == Parse(line)
  {
    if |line| != 7 || !IsCode(line[0]) {
      return None;
    }
    var s, f, c := HexByte(line[1], line[2]), HexByte(line[3], line[4]), HexByte(line[5], line[6]);
    if s == None || f == None || c == None {
      return None;
    }
    var expected := Crc8(Bytes(line[..5]));
    if c.value != expected as int {
      return Some(DamagedSync);
    }
    return Some(Sync(line[0], s.value, f.value));
  }
}
