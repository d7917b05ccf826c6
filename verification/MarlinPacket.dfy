/** The framed packet of the serial link: ff ff sequence length payload crc-high crc-low. */
module MarlinPacket {
  import opened Casts
  import opened Crc

  datatype Option<+T> = None | Some(value: T)

  const MAX_LINE := 256

  /** What a C string of at most 255 bytes can hold. */
  predicate Sendable(command: string) {
    |command| <= 255 && forall i :: 0 <= i < |command| ==> 0 < command[i] as int < 256
  }

  function Bytes(command: string): (r: seq<byte>)
    ensures |r| == |command|
  {
    seq(|command|, i requires 0 <= i < |command| => command[i] as int % 256)
  }

  function Text(data: seq<byte>): (r: string)
    ensures |r| == |data|
  {
    seq(|data|, i requires 0 <= i < |data| => data[i] as char)
  }

  function Body(sequence: byte, command: string): seq<byte> {
    [sequence, |command| % 256] + Bytes(command)
  }

  function Check(body: seq<byte>): seq<byte> {
    var crc := Fold16(INITIAL, body);
    [UpperByte(crc), LowerByte(crc)]
  }

  /** The bytes on the wire for one numbered command. */
  function Frame(sequence: byte, command: string): seq<byte> {
    [0xff, 0xff] + Body(sequence, command) + Check(Body(sequence, command))
  }

  /** What a receiver that follows the format accepts: header, exact length, zero residue. */
  function Decode(data: seq<byte>): (r: Option<(byte, string)>) {
    if |data| < 6 || data[0] != 0xff || data[1] != 0xff then None
    else if |data| - 6 != data[3] then None
    else if Fold16(INITIAL, data[2..]) != 0 then None
    else Some((data[2], Text(data[4..|data| - 2])))
  }

  method WriteBody(sequence: byte, command: string, out: array<byte>)
    requires |command| <= 255 && |command| + 6 <= out.Length
    modifies out
    ensures out[..4 + |command|] == [0xff, 0xff] + Body(sequence, command)
    ensures out[6 + |command|..] == old(out[6 + |command|..])
  {
    var n := |command|;
    out[0], out[1], out[2], out[3] := 0xff, 0xff, sequence, n;
    var i := 0;
    while i < n
      invariant 0 <= i <= n
      invariant out[..4] == [0xff, 0xff, sequence, n]
      invariant forall k :: 0 <= k < i ==> out[4 + k] == Bytes(command)[k]
      invariant out[6 + n..] == old(out[6 + n..])
    {
      out[4 + i] := command[i] as int % 256;
      i := i + 1;
    }
    assert out[4..4 + n] == Bytes(command);
    assert out[..4 + n] == out[..4] + out[4..4 + n];
  }

  method WriteCheck(ghost body: seq<byte>, n: nat, out: array<byte>)
    requires |body| == n + 2 && n + 6 <= out.Length
    requires out[..n + 4] == [0xff, 0xff] + body
    modifies out
    ensures out[..n + 6] == [0xff, 0xff] + body + Check(body)
    ensures out[n + 6..] == old(out[n + 6..])
  {
    hide Fold16, UpperByte, LowerByte;
    assert out[2..2 + (n + 2)] == out[..n + 4][2..] == body;
    var crc := Crc16(out, 2, n + 2);
    PutTwo(out, n + 4, UpperByte(crc), LowerByte(crc));
  }

  method PutTwo(out: array<byte>, at: nat, x: byte, y: byte)
    requires at + 2 <= out.Length
    modifies out
    ensures out[..at + 2] == old(out[..at]) + [x, y]
    ensures out[at + 2..] == old(out[at + 2..])
  {
    out[at] := x;
    out[at + 1] := y;
  }

  method Encode(sequence: byte, command: string, out: array<byte>) returns (ok: bool, written: nat)
    modifies out
    ensures ok <==> |command| <= 255 && |command| + 6 <= out.Length
    ensures ok ==> written == |command| + 6 && out[..written] == Frame(sequence, command)
    ensures ok ==> out[written..] == old(out[written..])
    ensures !ok ==> out[..] == old(out[..])
  {
    ok, written := false, 0;
    var n := |command|;
    if n > MAX_LINE || n > 255 || 6 + n > out.Length {
      return;
    }
    WriteBody(sequence, command, out);
    WriteCheck(Body(sequence, command), n, out);
    return true, 6 + n;
  }

  // ---- Round trip ----

  /** A frame that breaks off anywhere is no frame. */
  lemma TornFrameRejected(sequence: byte, command: string, n: nat)
    requires |command| <= 255 && n < |Frame(sequence, command)|
    ensures Decode(Frame(sequence, command)[..n]) == None
  {
    hide Fold16;
    var frame := Frame(sequence, command);
    assert |frame| == |command| + 6 && frame[3] == |command|;
    if n >= 6 {
      assert frame[..n][3] == frame[3];
    }
  }

  lemma TextOfBytes(command: string)
    requires Sendable(command)
    ensures Text(Bytes(command)) == command
  {
  }

  lemma BytesOfText(data: seq<byte>)
    ensures Bytes(Text(data)) == data
  {
  }

  lemma ZeroResidue(body: seq<byte>)
    ensures Fold16(INITIAL, body + Check(body)) == 0
  {
    FoldConcat(INITIAL, body, Check(body));
    ResidueIsZero(Fold16(INITIAL, body));
  }

  /** Only the right check bytes leave a zero residue. */
  lemma CheckIsUnique(body: seq<byte>, hi: byte, lo: byte)
    requires Fold16(INITIAL, body + [hi, lo]) == 0
    ensures [hi, lo] == Check(body)
  {
    var c := Fold16(INITIAL, body);
    var right := Check(body);
    ZeroResidue(body);
    FoldConcat(INITIAL, body, [hi, lo]);
    FoldConcat(INITIAL, body, [right[0], right[1]]);
    FoldTwo(c, hi, lo);
    FoldTwo(c, right[0], right[1]);
    PairDetected(c, hi, lo, right[0], right[1]);
  }

  /** Every sendable command survives framing. */
  lemma DecodeFrame(sequence: byte, command: string)
    requires Sendable(command)
    ensures Decode(Frame(sequence, command)) == Some((sequence, command))
  {
    hide Fold16, Text;
    var body := Body(sequence, command);
    var data := Frame(sequence, command);
    FrameResidue(sequence, command);
    assert data[4..|data| - 2] == Bytes(command);
    TextOfBytes(command);
  }

  /** Nothing but a frame is accepted, so a decoder never invents a packet. */
  lemma DecodeOnlyFrames(data: seq<byte>, sequence: byte, command: string)
    requires Decode(data) == Some((sequence, command))
    ensures data == Frame(sequence, command)
  {
    hide Fold16, Check, Bytes, Text;
    var n := |data|;
    var body := data[2..n - 2];
    assert data[2..] == body + [data[n - 2], data[n - 1]];
    CheckIsUnique(body, data[n - 2], data[n - 1]);
    BytesOfText(data[4..n - 2]);
    assert body == Body(sequence, command);
    assert data == data[..2] + body + data[n - 2..];
  }

  /** Damage to two neighbouring bytes behind the header is never accepted as any packet. */
  lemma DamagedFrameRejected(sequence: byte, command: string, i: nat, x: byte, y: byte)
    requires Sendable(command)
    requires 2 <= i && i + 1 < |Frame(sequence, command)|
    requires (x, y) != (Frame(sequence, command)[i], Frame(sequence, command)[i + 1])
    ensures Decode(Frame(sequence, command)[i := x][i + 1 := y]) == None
  {
    hide Fold16, Text, Bytes;
    var good := Frame(sequence, command);
    var bad := good[i := x][i + 1 := y];
    var head, tail := good[2..i], good[i + 2..];
    assert good[2..] == head + [good[i], good[i + 1]] + tail;
    assert bad[2..] == head + [x, y] + tail by {
      assert bad[2..i] == head && bad[i + 2..] == tail;
    }
    AdjacentDamageDetected(INITIAL, head, good[i], good[i + 1], x, y, tail);
    FrameResidue(sequence, command);
  }

  lemma FrameResidue(sequence: byte, command: string)
    ensures Fold16(INITIAL, Frame(sequence, command)[2..]) == 0
  {
    ZeroResidue(Body(sequence, command));
    assert Frame(sequence, command)[2..] == Body(sequence, command) + Check(Body(sequence, command));
  }
}
