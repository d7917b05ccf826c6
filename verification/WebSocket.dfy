/** Text messages over a WebSocket (sections 5.2 to 5.4 of RFC 6455): sending one, and putting one together
    from its fragments. */
module WebSocket {
  import opened Casts
  import opened MarlinPacket
  import opened MessagePack

  type Data = seq<byte>

  const TEXT := 0x1
  const CONTINUATION := 0x0
  const CLOSE := 0x8
  const PING := 0x9
  const PONG := 0xa
  const CONTROL_MAX := 125

  // ---- Masking ----

  function Xor(a: byte, b: byte): byte {
    (Octet(a) ^ Octet(b)) as int
  }

  lemma XorTwice(a: byte, m: byte)
    ensures Xor(Xor(a, m), m) == a
  {
    OctetOfValue(Octet(a) ^ Octet(m));
    OctetValue(a);
    assert (Octet(a) ^ Octet(m)) ^ Octet(m) == Octet(a);
  }

  /** A mask is four bytes used in turn. */
  function Masked(data: Data, mask: Data): (r: Data)
    requires |mask| == 4
    ensures |r| == |data|
  {
    seq(|data|, i requires 0 <= i < |data| => Xor(data[i], mask[i % 4]))
  }

  lemma MaskedTwice(data: Data, mask: Data)
    requires |mask| == 4
    ensures Masked(Masked(data, mask), mask) == data
  {
    hide Xor;
    forall i | 0 <= i < |data| ensures Masked(Masked(data, mask), mask)[i] == data[i] {
      XorTwice(data[i], mask[i % 4]);
    }
  }

  // ---- Frames ----

  datatype Frame = Frame(fin: bool, opcode: nat, mask: Option<Data>, payload: Data)

  predicate Sendable(f: Frame) {
    f.opcode < 16 && (f.mask.Some? ==> |f.mask.value| == 4) && |f.payload| <= 65535
  }

  function Head(f: Frame): Data
    requires Sendable(f)
  {
    var first: byte := (if f.fin then 0x80 else 0) + f.opcode;
    var bit := if f.mask.Some? then 0x80 else 0;
    if |f.payload| < 126 then [first, bit + |f.payload|] else [first, bit + 126] + Two(|f.payload|)
  }

  function FrameBytes(f: Frame): Data
    requires Sendable(f)
  {
    if f.mask.Some? then Head(f) + f.mask.value + Masked(f.payload, f.mask.value) else Head(f) + f.payload
  }

  /** A frame as it is read; end: where it ends. */
  datatype Received = Received(fin: bool, opcode: nat, payload: Data, end: nat)

  /** The length of a payload and where its header's length field ends. */
  function LengthAt(data: Data, pos: nat): (r: Option<(nat, nat)>)
    ensures r.Some? ==> pos + 2 <= r.value.1 <= |data|
  {
    if pos + 2 > |data| || data[pos + 1] % 128 == 127 then None
    else if data[pos + 1] % 128 == 126 then
      if pos + 4 > |data| then None else Some((Join(data[pos + 2], data[pos + 3]), pos + 4))
    else Some((data[pos + 1] % 128, pos + 2))
  }

  function FrameAt(data: Data, pos: nat): (r: Option<Received>)
    ensures r.Some? ==> pos < r.value.end <= |data|
  {
    if LengthAt(data, pos) == None then None else
    var (n, head) := LengthAt(data, pos).value;
    var masked := data[pos + 1] >= 128;
    var start := if masked then head + 4 else head;
    if start + n > |data| then None else
    var raw := data[start..start + n];
    Some(Received(data[pos] >= 128, data[pos] % 16, if masked then Masked(raw, data[head..start]) else raw, start + n))
  }

  lemma LengthRead(data: Data, pos: nat, f: Frame)
    requires Sendable(f) && At(data, pos, Head(f))
    ensures LengthAt(data, pos) == Some((|f.payload|, pos + |Head(f)|))
    ensures data[pos] % 16 == f.opcode && (data[pos] >= 128 <==> f.fin) && (data[pos + 1] >= 128 <==> f.mask.Some?)
  {
    var h := data[pos..pos + |Head(f)|];
    assert data[pos] == h[0] && data[pos + 1] == h[1];
    if |h| > 2 {
      assert data[pos + 2] == h[2] && data[pos + 3] == h[3];
    }
  }

  /** A frame is read back as it was sent, masked or not. */
  lemma FrameRead(data: Data, pos: nat, f: Frame)
    requires Sendable(f) && At(data, pos, FrameBytes(f))
    ensures FrameAt(data, pos) == Some(Received(f.fin, f.opcode, f.payload, pos + |FrameBytes(f)|))
  {
    hide LengthAt, Head, Masked;
    if f.mask.Some? {
      var coded := Masked(f.payload, f.mask.value);
      Split(data, pos, Head(f) + f.mask.value, coded);
      Split(data, pos, Head(f), f.mask.value);
      LengthRead(data, pos, f);
      MaskedTwice(f.payload, f.mask.value);
    } else {
      Split(data, pos, Head(f), f.payload);
      LengthRead(data, pos, f);
    }
  }

  // ---- Messages ----

  datatype Reading =
    | Message(text: Data, end: nat)
    | NoMessage(end: nat)
    | Broken

  function Prefixed(pong: Data, r: (Reading, seq<Data>)): (Reading, seq<Data>) {
    (r.0, [pong] + r.1)
  }

  /** Reads frames from pos on until a message is complete; sofar: the text of its first fragments. The
      second result: the payloads sent back for pings. */
  function ReadText(data: Data, pos: nat, room: nat, sofar: Option<Data>): (Reading, seq<Data>)
    decreases |data| - pos
  {
    var f := FrameAt(data, pos);
    if f == None || f.value.opcode == CLOSE then (Broken, [])
    else if f.value.opcode == PING || f.value.opcode == PONG then
      if |f.value.payload| > CONTROL_MAX then (Broken, []) else
      var rest := if sofar == None then (NoMessage(f.value.end), []) else ReadText(data, f.value.end, room, sofar);
      if f.value.opcode == PING then Prefixed(f.value.payload, rest) else rest
    else if f.value.opcode != TEXT && f.value.opcode != CONTINUATION then
      if sofar == None then (NoMessage(f.value.end), []) else ReadText(data, f.value.end, room, sofar)
    else if f.value.opcode == CONTINUATION && sofar == None then (Broken, [])
    else
      var used := if f.value.opcode == TEXT then [] else sofar.value;
      if |used| + |f.value.payload| + 1 > room then (Broken, [])
      else if f.value.fin then (Message(used + f.value.payload, f.value.end), [])
      else ReadText(data, f.value.end, room, Some(used + f.value.payload))
  }

  /** What a peer sends for one message: fragments of its text, with other frames between them. */
  datatype Piece =
    | Part(text: Data, mask: Option<Data>)
    | Between(opcode: nat, payload: Data, mask: Option<Data>)

  function PieceFrame(p: Piece, first: bool, last: bool): Frame {
    match p
    case Part(text, mask) => Frame(last, if first then TEXT else CONTINUATION, mask, text)
    case Between(opcode, payload, mask) => Frame(true, opcode, mask, payload)
  }

  /** Pings, pongs and frames of unknown kinds may come between fragments. */
  predicate Proper(p: Piece) {
    && Sendable(PieceFrame(p, false, false))
    && (p.Between? ==> p.opcode != TEXT && p.opcode != CONTINUATION && p.opcode != CLOSE
                       && (p.opcode == PING || p.opcode == PONG ==> |p.payload| <= CONTROL_MAX))
  }

  /** The last piece, and the first unless a fragment has come before, is a fragment. */
  predicate Whole(pieces: seq<Piece>, begun: bool) {
    pieces != [] && pieces[|pieces| - 1].Part? && (!begun ==> pieces[0].Part?)
    && forall i :: 0 <= i < |pieces| ==> Proper(pieces[i])
  }

  function Sent(pieces: seq<Piece>, begun: bool): Data
    requires forall i :: 0 <= i < |pieces| ==> Proper(pieces[i])
  {
    if pieces == [] then []
    else
      assert Proper(pieces[0]);
      FrameBytes(PieceFrame(pieces[0], !begun, |pieces| == 1)) + Sent(pieces[1..], begun || pieces[0].Part?)
  }

  function TextOf(pieces: seq<Piece>): Data {
    if pieces == [] then [] else (if pieces[0].Part? then pieces[0].text else []) + TextOf(pieces[1..])
  }

  function Pings(pieces: seq<Piece>): seq<Data> {
    if pieces == [] then []
    else (if pieces[0].Between? && pieces[0].opcode == PING then [pieces[0].payload] else []) + Pings(pieces[1..])
  }

  function Used(sofar: Option<Data>): Data {
    if sofar.Some? then sofar.value else []
  }

  lemma PartRead(data: Data, pos: nat, room: nat, sofar: Option<Data>, text: Data, last: bool, end: nat)
    requires FrameAt(data, pos) == Some(Received(last, if sofar.Some? then CONTINUATION else TEXT, text, end))
    requires |Used(sofar)| + |text| + 1 <= room
    ensures ReadText(data, pos, room, sofar)
         == if last then (Message(Used(sofar) + text, end), []) else ReadText(data, end, room, Some(Used(sofar) + text))
  {
    hide FrameAt;
  }

  lemma BetweenRead(data: Data, pos: nat, room: nat, sofar: Option<Data>, p: Piece, end: nat)
    requires p.Between? && Proper(p) && FrameAt(data, pos) == Some(Received(true, p.opcode, p.payload, end))
    requires sofar.Some?
    ensures var rest := ReadText(data, end, room, sofar);
      ReadText(data, pos, room, sofar) == if p.opcode == PING then Prefixed(p.payload, rest) else rest
  {
    hide FrameAt;
  }

  /** Any message that fits is put together exactly, however it is fragmented, masked and interleaved, and
      every ping in between is answered with its own payload. */
  lemma {:induction false} MessageReassembled(data: Data, pos: nat, room: nat, sofar: Option<Data>, pieces: seq<Piece>)
    requires Whole(pieces, sofar.Some?) && At(data, pos, Sent(pieces, sofar.Some?))
    requires |Used(sofar)| + |TextOf(pieces)| + 1 <= room
    ensures ReadText(data, pos, room, sofar)
         == (Message(Used(sofar) + TextOf(pieces), pos + |Sent(pieces, sofar.Some?)|), Pings(pieces))
    decreases |pieces|
  {
    hide FrameAt, FrameBytes, At, ReadText;
    var p, rest, used := pieces[0], pieces[1..], Used(sofar);
    var f := PieceFrame(p, sofar == None, |pieces| == 1);
    assert Sendable(f) && Proper(p);
    var end, tail := pos + |FrameBytes(f)|, Sent(rest, sofar.Some? || p.Part?);
    Split(data, pos, FrameBytes(f), tail);
    FrameRead(data, pos, f);
    if |pieces| == 1 {
      assert rest == [] && TextOf(rest) == [] && tail == [];
      PartRead(data, pos, room, sofar, p.text, true, end);
      assert TextOf(pieces) == p.text + [] == p.text;
    } else {
      assert rest[|rest| - 1] == pieces[|pieces| - 1];
      if p.Part? {
        PartRead(data, pos, room, sofar, p.text, false, end);
        MessageReassembled(data, end, room, Some(used + p.text), rest);
        assert used + p.text + TextOf(rest) == used + (p.text + TextOf(rest));
        assert [] + Pings(rest) == Pings(rest);
      } else {
        BetweenRead(data, pos, room, sofar, p, end);
        MessageReassembled(data, end, room, sofar, rest);
        assert [] + TextOf(rest) == TextOf(rest) && [] + Pings(rest) == Pings(rest);
      }
    }
  }

  /** What sending a text writes: one masked, final frame. */
  function TextFrame(text: Data, mask: Data): Frame {
    Frame(true, TEXT, Some(mask), text)
  }

  /** Writes the frame byte by byte; longer texts are refused. mask: the four random bytes drawn. */
  method SendText(text: Data, mask: Data) returns (ok: bool, wire: Data)
    requires |mask| == 4
    ensures ok <==> |text| <= 65535
    ensures wire == if ok then FrameBytes(TextFrame(text, mask)) else []
  {
    hide Xor;
    if |text| > 65535 {
      return false, [];
    }
    wire := if |text| < 126 then [0x81, 0x80 + |text|] else [0x81, 0x80 + 126] + Two(|text|);
    wire := wire + mask;
    ghost var head := wire;
    for i := 0 to |text|
      invariant wire == head + Masked(text, mask)[..i]
    {
      wire := wire + [Xor(text[i], mask[i % 4])];
    }
    return true, wire;
  }

  /** A text that is sent is received as itself, whatever mask was drawn. */
  lemma SentTextIsRead(text: Data, mask: Data, after: Data, room: nat)
    requires |text| <= 65535 && |mask| == 4 && |text| < room
    ensures ReadText(FrameBytes(TextFrame(text, mask)) + after, 0, room, None)
         == (Message(text, |FrameBytes(TextFrame(text, mask))|), [])
  {
    hide FrameBytes;
    var data := FrameBytes(TextFrame(text, mask)) + after;
    assert data[0..|FrameBytes(TextFrame(text, mask))|] == FrameBytes(TextFrame(text, mask));
    FrameRead(data, 0, TextFrame(text, mask));
    assert [] + text == text;
  }

  // ---- Control frames ----

  type Mask = m: Data | |m| == 4 witness [0, 0, 0, 0]

  function ControlFrame(opcode: nat, payload: Data, mask: Mask): Frame {
    Frame(true, opcode, Some(mask), payload)
  }

  /** Longer payloads are refused. */
  function ControlBytes(opcode: nat, payload: Data, mask: Mask): Data
    requires opcode < 16
  {
    if |payload| <= CONTROL_MAX then FrameBytes(ControlFrame(opcode, payload, mask)) else []
  }

  method SendControl(opcode: nat, payload: Data, mask: Mask) returns (ok: bool, wire: Data)
    requires opcode < 16
    ensures ok <==> |payload| <= 125
    ensures wire == ControlBytes(opcode, payload, mask)
  {
    hide Xor;
    if |payload| > 125 {
      return false, [];
    }
    wire := [0x80 + opcode, 0x80 + |payload|];
    assert wire == Head(ControlFrame(opcode, payload, mask));
    wire := wire + mask;
    ghost var head := wire;
    for i := 0 to |payload|
      invariant wire == head + Masked(payload, mask)[..i]
    {
      wire := wire + [Xor(payload[i], mask[i % 4])];
    }
    return true, wire;
  }

  /** What answers these pings; the k-th mask drawn is random(k), and the first one used is random(from). */
  function PongBytes(payloads: seq<Data>, random: nat -> Mask, from: nat): Data {
    if payloads == [] then [] else
    var n := |payloads| - 1;
    PongBytes(payloads[..n], random, from) + ControlBytes(PONG, payloads[n], random(from + n))
  }

  lemma OneMorePong(payloads: seq<Data>, payload: Data, random: nat -> Mask, from: nat)
    ensures PongBytes(payloads + [payload], random, from)
         == PongBytes(payloads, random, from) + ControlBytes(PONG, payload, random(from + |payloads|))
  {
    assert (payloads + [payload])[..|payloads|] == payloads;
  }

  // ---- The frames of section 5.7 of RFC 6455 ----

  const HELLO: Data := [0x48, 0x65, 0x6c, 0x6c, 0x6f]
  const KEY: Mask := [0x37, 0xfa, 0x21, 0x3d]
  const HIDDEN: Data := [0x7f, 0x9f, 0x4d, 0x51, 0x58]

  lemma XorIs(a: bv8, m: bv8, r: bv8)
    requires a ^ m == r
    ensures Xor(a as int, m as int) == r as int
  {
    OctetOfValue(a);
    OctetOfValue(m);
  }

  lemma HelloHidden()
    ensures Masked(HELLO, KEY) == HIDDEN
  {
    hide Xor;
    XorIs(0x48, 0x37, 0x7f);
    XorIs(0x65, 0xfa, 0x9f);
    XorIs(0x6c, 0x21, 0x4d);
    XorIs(0x6c, 0x3d, 0x51);
    XorIs(0x6f, 0x37, 0x58);
  }

  /** A text in one frame, plain and masked; a ping; the pong that answers it. */
  lemma SingleFrames()
    ensures FrameBytes(Frame(true, TEXT, None, HELLO)) == [0x81, 0x05, 0x48, 0x65, 0x6c, 0x6c, 0x6f]
    ensures FrameBytes(TextFrame(HELLO, KEY)) == [0x81, 0x85, 0x37, 0xfa, 0x21, 0x3d, 0x7f, 0x9f, 0x4d, 0x51, 0x58]
    ensures FrameBytes(Frame(true, PING, None, HELLO)) == [0x89, 0x05, 0x48, 0x65, 0x6c, 0x6c, 0x6f]
    ensures ControlBytes(PONG, HELLO, KEY) == [0x8a, 0x85, 0x37, 0xfa, 0x21, 0x3d, 0x7f, 0x9f, 0x4d, 0x51, 0x58]
  {
    hide Masked;
    HelloHidden();
  }

  lemma InTwo(first: Data, ping: Data, last: Data)
    requires |first| <= 125 && |ping| <= 125 && |last| <= 125
    ensures var pieces := [Part(first, None), Between(PING, ping, None), Part(last, None)];
      && Whole(pieces, false) && TextOf(pieces) == first + last && Pings(pieces) == [ping]
      && Sent(pieces, false) == FrameBytes(Frame(false, TEXT, None, first)) + FrameBytes(Frame(true, PING, None, ping))
                                + FrameBytes(Frame(true, CONTINUATION, None, last))
  {
    hide FrameBytes;
    var p, q, r := Part(first, None), Between(PING, ping, None), Part(last, None);
    assert Proper(p) && Proper(q) && Proper(r);
    assert [p, q, r][1..] == [q, r] && [q, r][1..] == [r] && [r][1..] == [];
    assert Sent([r], true) == FrameBytes(Frame(true, CONTINUATION, None, last)) + [];
    assert Sent([q, r], true) == FrameBytes(Frame(true, PING, None, ping)) + Sent([r], true);
    assert TextOf([r]) == last + [] && TextOf([q, r]) == [] + TextOf([r]);
    assert Pings([r]) == [] && Pings([q, r]) == [ping] + Pings([r]);
  }

  lemma FragmentsSent()
    ensures FrameBytes(Frame(false, TEXT, None, [0x48, 0x65, 0x6c])) == [0x01, 0x03, 0x48, 0x65, 0x6c]
    ensures FrameBytes(Frame(true, CONTINUATION, None, [0x6c, 0x6f])) == [0x80, 0x02, 0x6c, 0x6f]
  {
  }

  /** A text in two frames with a ping between them is read as one, and the ping is answered. */
  lemma FragmentsRead(room: nat)
    requires room > 5
    ensures var data: Data := [0x01, 0x03, 0x48, 0x65, 0x6c] + [0x89, 0x05, 0x48, 0x65, 0x6c, 0x6c, 0x6f]
                              + [0x80, 0x02, 0x6c, 0x6f];
      ReadText(data, 0, room, None) == (Message(HELLO, 16), [HELLO])
  {
    hide ReadText, FrameBytes, Sent, Whole, TextOf, Pings;
    var data: Data := [0x01, 0x03, 0x48, 0x65, 0x6c] + [0x89, 0x05, 0x48, 0x65, 0x6c, 0x6c, 0x6f]
                      + [0x80, 0x02, 0x6c, 0x6f];
    InTwo([0x48, 0x65, 0x6c], HELLO, [0x6c, 0x6f]);
    SingleFrames();
    FragmentsSent();
    var pieces := [Part([0x48, 0x65, 0x6c], None), Between(PING, HELLO, None), Part([0x6c, 0x6f], None)];
    assert Sent(pieces, false) == data && data[0..|data|] == data;
    assert Used(None) + TextOf(pieces) == HELLO;
    MessageReassembled(data, 0, room, None, pieces);
  }

  lemma CloseEndsReading(data: Data, room: nat, sofar: Option<Data>)
    requires |data| >= 2 && data[0] == 0x88 && FrameAt(data, 0).Some?
    ensures ReadText(data, 0, room, sofar) == (Broken, [])
  {
  }

  // ---- The connection ----

  function Unmasked(raw: Data, mask: Option<Data>): (r: Data)
    requires mask.Some? ==> |mask.value| == 4
    ensures |r| == |raw|
  {
    if mask.Some? then Masked(raw, mask.value) else raw
  }

  function WithPongs(pongs: seq<Data>, r: (Reading, seq<Data>)): (Reading, seq<Data>) {
    (r.0, pongs + r.1)
  }

  lemma PongsAdd(pongs: seq<Data>, more: seq<Data>, r: (Reading, seq<Data>))
    ensures WithPongs(pongs, WithPongs(more, r)) == WithPongs(pongs + more, r)
  {
    assert pongs + (more + r.1) == pongs + more + r.1;
  }

  datatype Code = Complete | Nothing | Failed

  class Connection {
    const input: Data
    /** the masks as they are drawn */
    const random: nat -> Mask
    var pos: nat
    var drawn: nat
    var output: Data

    constructor (input: Data, random: nat -> Mask)
      ensures this.input == input && this.random == random && pos == 0 && drawn == 0 && output == []
    {
      this.input, this.random, pos, drawn, output := input, random, 0, 0, [];
    }

    /** Since output was start and drawn was from, these pings have been answered. */
    ghost predicate Answered(start: Data, from: nat, pings: seq<Data>)
      reads this`drawn, this`output
    {
      drawn == from + |pings| && output == start + PongBytes(pings, random, from)
    }

    lemma NothingAnswered()
      ensures Answered(output, drawn, [])
    {
    }

    method Answer(payload: Data, ghost start: Data, ghost from: nat, ghost pings: seq<Data>)
      requires Answered(start, from, pings)
      modifies this`drawn, this`output
      ensures Answered(start, from, pings + [payload])
    {
      hide ControlBytes, PongBytes;
      OneMorePong(pings, payload, random, from);
      var _, wire := SendControl(PONG, payload, random(drawn));
      drawn, output := drawn + 1, output + wire;
    }

    method ReadExact(n: nat) returns (ok: bool, piece: Data)
      modifies this`pos
      ensures ok <==> old(pos) + n <= |input|
      ensures ok ==> pos == old(pos) + n && piece == input[old(pos)..pos]
    {
      if pos + n > |input| {
        return false, [];
      }
      piece := input[pos..pos + n];
      pos := pos + n;
      return true, piece;
    }

    method ReadLength(short: nat) returns (ok: bool, n: nat)
      requires 2 <= pos <= |input| && short == input[pos - 1] % 128
      modifies this`pos
      ensures ok <==> LengthAt(input, old(pos) - 2).Some?
      ensures ok ==> LengthAt(input, old(pos) - 2) == Some((n, pos))
    {
      if short == 127 {
        return false, 0;
      }
      if short < 126 {
        return true, short;
      }
      var extended;
      ok, extended := ReadExact(2);
      n := if ok then Join(extended[0], extended[1]) else 0;
    }

    /** Everything of a frame before its payload of n bytes. */
    method ReadHead() returns (ok: bool, fin: bool, opcode: nat, n: nat, mask: Option<Data>)
      modifies this`pos
      ensures ok ==> opcode < 16 && pos <= |input| && (mask.Some? ==> |mask.value| == 4) && pos >= old(pos) + 2
      ensures FrameAt(input, old(pos))
           == if !ok || pos + n > |input| then None
              else Some(Received(fin, opcode, Unmasked(input[pos..pos + n], mask), pos + n))
    {
      hide Masked;
      fin, opcode, n, mask := false, 0, 0, None;
      var h;
      ok, h := ReadExact(2);
      if !ok {
        return;
      }
      fin, opcode := h[0] >= 128, h[0] % 16;
      ok, n := ReadLength(h[1] % 128);
      if ok && h[1] >= 128 {
        var bytes;
        ok, bytes := ReadExact(4);
        mask := if ok then Some(bytes) else None;
      }
    }

    /** Reads a small payload; it is empty-handed when the input ends. */
    method ReadControl(n: nat, mask: Option<Data>) returns (ok: bool, payload: Data)
      requires mask.Some? ==> |mask.value| == 4
      modifies this`pos
      ensures ok <==> old(pos) + n <= |input|
      ensures ok ==> pos == old(pos) + n && payload == Unmasked(input[old(pos)..pos], mask)
    {
      ok, payload := ReadExact(n);
      if ok && mask.Some? {
        payload := Masked(payload, mask.value);
      }
    }

    /** Reads a payload into the caller's buffer behind what is used, and unmasks it there. */
    method ReadInto(buf: array<byte>, used: nat, n: nat, mask: Option<Data>) returns (ok: bool)
      requires used + n <= buf.Length && (mask.Some? ==> |mask.value| == 4)
      modifies this`pos, buf
      ensures ok <==> old(pos) + n <= |input|
      ensures ok ==> pos == old(pos) + n
                     && buf[..used + n] == old(buf[..used]) + Unmasked(input[old(pos)..pos], mask)
    {
      hide Xor;
      var piece;
      ok, piece := ReadExact(n);
      if !ok {
        return;
      }
      forall i | 0 <= i < n {
        buf[used + i] := piece[i];
      }
      assert buf[..used] == old(buf[..used]) && buf[used..used + n] == piece;
      if mask.Some? {
        UnmaskIn(buf, used, n, mask.value);
      }
      assert buf[..used + n] == buf[..used] + buf[used..used + n];
    }

    method UnmaskIn(buf: array<byte>, used: nat, n: nat, mask: Data)
      requires used + n <= buf.Length && |mask| == 4
      modifies buf
      ensures buf[..used] == old(buf[..used]) && buf[used..used + n] == Masked(old(buf[used..used + n]), mask)
    {
      hide Xor;
      for i := 0 to n
        invariant buf[..used] == old(buf[..used])
        invariant forall j :: used <= j < used + i ==> buf[j] == Xor(old(buf[j]), mask[(j - used) % 4])
        invariant forall j :: used + i <= j < used + n ==> buf[j] == old(buf[j])
      {
        buf[used + i] := Xor(buf[used + i], mask[i % 4]);
      }
      ghost var piece := old(buf[used..used + n]);
      forall k | 0 <= k < n ensures buf[used + k] == Masked(piece, mask)[k] {
        assert piece[k] == old(buf[used + k]);
      }
      assert buf[used..used + n] == Masked(piece, mask);
    }

    /** Passes over a payload in small pieces. */
    method Discard(n: nat) returns (ok: bool)
      modifies this`pos
      ensures ok <==> old(pos) + n <= |input| || n == 0
      ensures ok ==> pos == old(pos) + n
    {
      var left := n;
      while left > 0
        invariant 0 <= left <= n && pos == old(pos) + n - left
        invariant left < n ==> pos <= |input|
      {
        var piece;
        ok, piece := ReadExact(if left < 256 then left else 256);
        if !ok {
          return;
        }
        left := left - |piece|;
      }
      return true;
    }

    /** Reads frames until a text message is in the buffer, followed by a NUL; every ping is answered. */
    method ReadMessage(buf: array<byte>) returns (code: Code, used: nat)
      modifies this, buf
      ensures var r := ReadText(input, old(pos), buf.Length, None);
        && Answered(old(output), old(drawn), r.1)
        && match r.0
           case Message(text, end) =>
             code == Complete && pos == end && used < buf.Length && buf[..used] == text && buf[used] == 0
           case NoMessage(end) => code == Nothing && pos == end
           case Broken => code == Failed
    {
      NothingAnswered();
      hide FrameAt, Masked, Answered;
      used := 0;
      var inText := false;
      ghost var whole := ReadText(input, pos, buf.Length, None);
      ghost var answered: seq<Data> := [];
      assert [] + whole.1 == whole.1;
      while true
        invariant inText ==> used < buf.Length
        invariant Answered(old(output), old(drawn), answered)
        invariant whole == WithPongs(answered, ReadText(input, pos, buf.Length, if inText then Some(buf[..used]) else None))
        decreases |input| - pos
      {
        ghost var rest := ReadText(input, pos, buf.Length, if inText then Some(buf[..used]) else None);
        assert answered + [] == answered;
        var ok, fin, opcode, n, mask := ReadHead();
        if !ok || opcode == CLOSE {
          return Failed, used;
        }
        if opcode == PING || opcode == PONG {
          var payload;
          if n > CONTROL_MAX {
            return Failed, used;
          }
          ok, payload := ReadControl(n, mask);
          if !ok {
            return Failed, used;
          }
          if opcode == PING {
            ghost var next := if inText then ReadText(input, pos, buf.Length, Some(buf[..used])) else (NoMessage(pos), []);
            assert rest == WithPongs([payload], next);
            PongsAdd(answered, [payload], next);
            Answer(payload, old(output), old(drawn), answered);
            answered := answered + [payload];
            assert answered + [] == answered;
          }
          if !inText {
            return Nothing, used;
          }
          continue;
        }
        if opcode != TEXT && opcode != CONTINUATION {
          ok := Discard(n);
          if !ok {
            return Failed, used;
          }
          if !inText {
            return Nothing, used;
          }
          continue;
        }
        if opcode == TEXT {
          used, inText := 0, true;
        } else if !inText {
          return Failed, used;
        }
        if used + n + 1 > buf.Length {
          return Failed, used;
        }
        ok := ReadInto(buf, used, n, mask);
        if !ok {
          return Failed, used;
        }
        used := used + n;
        if fin {
          ghost var text := buf[..used];
          buf[used] := 0;
          assert buf[..used] == text;
          return Complete, used;
        }
      }
    }
  }
}
