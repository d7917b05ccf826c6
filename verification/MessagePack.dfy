/** The MessagePack subset of the Digital Factory service: writing, reading and skipping values. */
module MessagePack {
  import opened Casts
  import opened MarlinPacket

  // ---- Values and their encoding ----

  /** Str: width 0 for the short form, 1 or 2 for a length of that many bytes. List and Map: wide for a
      two-byte count. A map holds its keys and values alternately. */
  datatype Value =
    | Scalar(tag: byte, payload: seq<byte>)
    | Str(width: nat, data: seq<byte>)
    | List(wide: bool, items: seq<Value>)
    | Map(wide: bool, entries: seq<Value>)

  /** How many bytes follow the tag of a scalar; none for other tags. */
  function Payload(tag: byte): Option<nat> {
    if tag <= 0x7f || tag >= 0xe0 || tag == 0xc0 || tag == 0xc2 || tag == 0xc3 then Some(0)
    else if tag == 0xcc || tag == 0xd0 then Some(1)
    else if tag == 0xcd || tag == 0xd1 then Some(2)
    else if tag == 0xce || tag == 0xd2 || tag == 0xca then Some(4)
    else if tag == 0xcf || tag == 0xd3 || tag == 0xcb then Some(8)
    else None
  }

  predicate Fits(v: Value) {
    match v
    case Scalar(tag, payload) => Payload(tag) == Some(|payload|)
    case Str(width, data) =>
      (width == 0 && |data| <= 31) || (width == 1 && |data| <= 255) || (width == 2 && |data| <= 65535)
    case List(wide, items) => |items| <= (if wide then 65535 else 15) && AllFit(items)
    case Map(wide, entries) =>
      |entries| % 2 == 0 && |entries| / 2 <= (if wide then 65535 else 15) && AllFit(entries)
  }

  predicate AllFit(items: seq<Value>) {
    items == [] || (Fits(items[0]) && AllFit(items[1..]))
  }

  function Two(n: nat): seq<byte>
    requires n <= 65535
  {
    [n / 256, n % 256]
  }

  function Join(hi: int, lo: int): int {
    hi * 256 + lo
  }

  function Header(v: Value): (r: seq<byte>)
    requires Fits(v)
    ensures |r| > 0
  {
    match v
    case Scalar(tag, _) => [tag]
    case Str(width, data) =>
      if width == 0 then [0xa0 + |data|] else if width == 1 then [0xd9, |data|] else [0xda] + Two(|data|)
    case List(wide, items) => if wide then [0xdc] + Two(|items|) else [0x90 + |items|]
    case Map(wide, entries) => if wide then [0xde] + Two(|entries| / 2) else [0x80 + |entries| / 2]
  }

  function Encoded(v: Value): (r: seq<byte>)
    requires Fits(v)
    ensures |r| > 0
  {
    Header(v) + match v
                case Scalar(_, payload) => payload
                case Str(_, data) => data
                case List(_, items) => EncodedAll(items)
                case Map(_, entries) => EncodedAll(entries)
  }

  function EncodedAll(items: seq<Value>): seq<byte>
    requires AllFit(items)
  {
    if items == [] then [] else Encoded(items[0]) + EncodedAll(items[1..])
  }

  // ---- Skipping ----

  /** What follows a header: so many bytes, or so many values. */
  datatype Tail = Octets(n: nat) | Values(n: nat)

  /** The length of the header at pos, and what follows it. */
  function HeaderAt(data: seq<byte>, pos: nat): (r: Option<(nat, Tail)>)
    ensures r.Some? ==> 0 < r.value.0 <= 3 && pos + r.value.0 <= |data|
  {
    if pos >= |data| then None else
    var tag := data[pos];
    if Payload(tag).Some? then Some((1, Octets(Payload(tag).value)))
    else if 0xa0 <= tag <= 0xbf then Some((1, Octets(tag - 0xa0)))
    else if 0x80 <= tag <= 0x8f then Some((1, Values((tag - 0x80) * 2)))
    else if 0x90 <= tag <= 0x9f then Some((1, Values(tag - 0x90)))
    else if tag == 0xd9 then
      if pos + 2 > |data| then None else Some((2, Octets(data[pos + 1])))
    else if tag == 0xda || tag == 0xdc || tag == 0xde then
      if pos + 3 > |data| then None else
      var n := Join(data[pos + 1], data[pos + 2]);
      Some((3, if tag == 0xda then Octets(n) else Values(if tag == 0xde then n * 2 else n)))
    else None
  }

  /** The tags of scalars: small integers, nil, the booleans, unsigned and signed integers of 1, 2, 4 and 8
      bytes, and floating point of 4 and 8. The binary and extension formats are not known. */
  lemma ScalarTags(tag: byte)
    ensures Payload(tag) == Some(0) <==> tag <= 0x7f || tag == 0xc0 || 0xc2 <= tag <= 0xc3 || 0xe0 <= tag
    ensures forall k: nat :: k < 4 ==> Payload(0xcc + k) == Payload(0xd0 + k) == Some(TwoTo(k))
    ensures forall k: nat :: 2 <= k < 4 ==> Payload(0xc8 + k) == Some(TwoTo(k))
    ensures Payload(tag) == None
       <==> 0x80 <= tag <= 0xbf || tag == 0xc1 || 0xc4 <= tag <= 0xc9 || 0xd4 <= tag <= 0xdf
  {
    assert TwoTo(0) == 1 && TwoTo(1) == 2 && TwoTo(2) == 4 && TwoTo(3) == 8;
  }

  function TwoTo(k: nat): nat {
    if k == 0 then 1 else 2 * TwoTo(k - 1)
  }

  /** Strings, arrays and maps with their length in the tag or in the one or two bytes behind it, the most
      significant first. An array has one value an element, a map two. */
  lemma LengthTags(n: byte, hi: byte, lo: byte, rest: seq<byte>)
    ensures n <= 31 ==> HeaderAt([0xa0 + n] + rest, 0) == Some((1, Octets(n)))
    ensures n <= 15 ==> HeaderAt([0x90 + n] + rest, 0) == Some((1, Values(n)))
    ensures n <= 15 ==> HeaderAt([0x80 + n] + rest, 0) == Some((1, Values(n + n)))
    ensures HeaderAt([0xd9, n] + rest, 0) == Some((2, Octets(n)))
    ensures HeaderAt([0xda, hi, lo] + rest, 0) == Some((3, Octets(0x100 * hi + lo)))
    ensures HeaderAt([0xdc, hi, lo] + rest, 0) == Some((3, Values(0x100 * hi + lo)))
    ensures HeaderAt([0xde, hi, lo] + rest, 0) == Some((3, Values(0x200 * hi + 2 * lo)))
  {
  }

  function Past(data: seq<byte>, pos: nat): Option<nat> {
    if pos <= |data| then Some(pos) else None
  }

  /** Where the value at pos ends. */
  function Skip(data: seq<byte>, pos: nat): (r: Option<nat>)
    ensures r.Some? ==> pos < r.value <= |data|
    decreases |data| - pos, 0
  {
    match HeaderAt(data, pos)
    case None => None
    case Some((length, Octets(n))) => Past(data, pos + length + n)
    case Some((length, Values(n))) => SkipMany(data, pos + length, n)
  }

  function SkipMany(data: seq<byte>, pos: nat, n: nat): (r: Option<nat>)
    ensures r.Some? && pos <= |data| ==> pos <= r.value <= |data|
    decreases |data| - pos, n + 1
  {
    if n == 0 then Some(pos) else
    var r := Skip(data, pos);
    if r == None then None else SkipMany(data, r.value, n - 1)
  }

  predicate At(data: seq<byte>, pos: nat, piece: seq<byte>) {
    pos + |piece| <= |data| && data[pos..pos + |piece|] == piece
  }

  lemma Split(data: seq<byte>, pos: nat, a: seq<byte>, b: seq<byte>)
    requires At(data, pos, a + b)
    ensures At(data, pos, a) && At(data, pos + |a|, b)
  {
    assert data[pos..pos + |a + b|][..|a|] == a && data[pos..pos + |a + b|][|a|..] == b;
  }

  function TailOf(v: Value): Tail {
    match v
    case Scalar(_, payload) => Octets(|payload|)
    case Str(_, data) => Octets(|data|)
    case List(_, items) => Values(|items|)
    case Map(_, entries) => Values(|entries|)
  }

  lemma HeaderRead(data: seq<byte>, pos: nat, v: Value)
    requires Fits(v) && At(data, pos, Header(v))
    ensures HeaderAt(data, pos) == Some((|Header(v)|, TailOf(v)))
  {
    var h := data[pos..pos + |Header(v)|];
    assert data[pos] == h[0];
    if |h| > 1 {
      assert data[pos + 1] == h[1];
    }
    if |h| > 2 {
      assert data[pos + 2] == h[2];
    }
  }

  /** Skipping consumes exactly one value, whatever comes before and after it. */
  lemma {:induction false} SkipsOne(data: seq<byte>, pos: nat, v: Value)
    requires Fits(v) && At(data, pos, Encoded(v))
    ensures Skip(data, pos) == Some(pos + |Encoded(v)|)
    decreases v
  {
    hide HeaderAt, Header, Payload;
    var content := Encoded(v)[|Header(v)|..];
    assert Encoded(v) == Header(v) + content;
    Split(data, pos, Header(v), content);
    HeaderRead(data, pos, v);
    match v
    case Scalar(_, _) =>
    case Str(_, _) =>
    case List(_, items) => SkipsAll(data, pos + |Header(v)|, items);
    case Map(_, entries) => SkipsAll(data, pos + |Header(v)|, entries);
  }

  lemma {:induction false} SkipsAll(data: seq<byte>, pos: nat, items: seq<Value>)
    requires AllFit(items) && At(data, pos, EncodedAll(items))
    ensures SkipMany(data, pos, |items|) == Some(pos + |EncodedAll(items)|)
    decreases items
  {
    hide Encoded, Fits, Skip;
    if items != [] {
      Split(data, pos, Encoded(items[0]), EncodedAll(items[1..]));
      SkipsOne(data, pos, items[0]);
      SkipsAll(data, pos + |Encoded(items[0])|, items[1..]);
    }
  }

  /** A value with a given header; its bytes or items are filled in. */
  function Filled(tag: byte, octets: seq<byte>, items: seq<Value>): Value {
    if Payload(tag).Some? then Scalar(tag, octets)
    else if tag <= 0x8f then Map(false, items)
    else if tag <= 0x9f then List(false, items)
    else if tag <= 0xbf then Str(0, octets)
    else if tag == 0xd9 then Str(1, octets)
    else if tag == 0xda then Str(2, octets)
    else if tag == 0xdc then List(true, items)
    else Map(true, items)
  }

  lemma JoinTwo(hi: byte, lo: byte)
    ensures 0 <= Join(hi, lo) <= 65535 && Two(Join(hi, lo)) == [hi, lo]
  {
  }

  predicate Matches(data: seq<byte>, pos: nat, octets: seq<byte>, items: seq<Value>) {
    && HeaderAt(data, pos).Some? && AllFit(items)
    && match HeaderAt(data, pos).value.1
       case Octets(n) => |octets| == n
       case Values(n) => |items| == n
  }

  lemma ShortHeader(data: seq<byte>, pos: nat, octets: seq<byte>, items: seq<Value>)
    requires Matches(data, pos, octets, items) && HeaderAt(data, pos).value.0 <= 2
    ensures var v := Filled(data[pos], octets, items);
      && Fits(v) && Header(v) == data[pos..pos + HeaderAt(data, pos).value.0]
      && TailOf(v) == HeaderAt(data, pos).value.1
  {
    hide AllFit, Two, Join;
    assert data[pos..pos + 1] == [data[pos]];
    if HeaderAt(data, pos).value.0 == 2 {
      assert data[pos..pos + 2] == [data[pos], data[pos + 1]];
    }
  }

  lemma LongHeader(data: seq<byte>, pos: nat, octets: seq<byte>, items: seq<Value>)
    requires Matches(data, pos, octets, items) && HeaderAt(data, pos).value.0 == 3
    ensures var v := Filled(data[pos], octets, items);
      && Fits(v) && Header(v) == data[pos..pos + 3] && TailOf(v) == HeaderAt(data, pos).value.1
  {
    hide AllFit, Two, Join;
    JoinTwo(data[pos + 1], data[pos + 2]);
    assert data[pos..pos + 3] == [data[pos]] + [data[pos + 1], data[pos + 2]];
  }

  lemma FilledHasHeader(data: seq<byte>, pos: nat, octets: seq<byte>, items: seq<Value>)
    requires Matches(data, pos, octets, items)
    ensures var v := Filled(data[pos], octets, items);
      && Fits(v) && Header(v) == data[pos..pos + HeaderAt(data, pos).value.0]
      && TailOf(v) == HeaderAt(data, pos).value.1
  {
    hide HeaderAt, Header, Filled, Fits, AllFit;
    if HeaderAt(data, pos).value.0 <= 2 {
      ShortHeader(data, pos, octets, items);
    } else {
      LongHeader(data, pos, octets, items);
    }
  }

  lemma FilledEncoded(tag: byte, octets: seq<byte>, items: seq<Value>)
    requires AllFit(items) && Fits(Filled(tag, octets, items))
    ensures var v := Filled(tag, octets, items);
      Encoded(v) == Header(v) + if TailOf(v).Octets? then octets else EncodedAll(items)
  {
    hide Header, AllFit, EncodedAll, Payload;
  }

  /** What skipping passes over is the encoding of a value. */
  lemma {:induction false} SkippedIsValue(data: seq<byte>, pos: nat) returns (v: Value)
    requires Skip(data, pos).Some?
    ensures Fits(v) && data[pos..Skip(data, pos).value] == Encoded(v)
    decreases |data| - pos, 0
  {
    assert AllFit([]) && EncodedAll([]) == [];
    hide HeaderAt, Header, Payload, AllFit, Filled, Encoded, Fits, Skip, SkipMany;
    SkipIs(data, pos);
    var end := Skip(data, pos).value;
    var (length, tail) := HeaderAt(data, pos).value;
    var mid := pos + length;
    var octets, items: seq<Value> := data[mid..end], [];
    if tail.Values? {
      items := SkippedAreValues(data, mid, tail.n);
    }
    FilledHasHeader(data, pos, octets, items);
    v := Filled(data[pos], octets, items);
    FilledEncoded(data[pos], octets, items);
    Pieces(data, pos, mid, end);
  }

  lemma SkipIs(data: seq<byte>, pos: nat)
    requires Skip(data, pos).Some?
    ensures HeaderAt(data, pos).Some?
    ensures var (length, tail) := HeaderAt(data, pos).value;
      && pos < pos + length <= Skip(data, pos).value <= |data|
      && match tail
         case Octets(n) => Skip(data, pos).value == pos + length + n
         case Values(n) => SkipMany(data, pos + length, n) == Skip(data, pos)
  {
    hide HeaderAt, SkipMany;
  }

  lemma Pieces(data: seq<byte>, a: nat, b: nat, c: nat)
    requires a <= b <= c <= |data|
    ensures data[a..c] == data[a..b] + data[b..c]
  {
  }

  lemma {:induction false} SkippedAreValues(data: seq<byte>, pos: nat, n: nat) returns (items: seq<Value>)
    requires SkipMany(data, pos, n).Some? && pos <= |data|
    ensures |items| == n && AllFit(items) && data[pos..SkipMany(data, pos, n).value] == EncodedAll(items)
    decreases |data| - pos, n + 1
  {
    hide Encoded, Fits, Skip;
    if n == 0 {
      items := [];
    } else {
      var first := SkippedIsValue(data, pos);
      var mid := Skip(data, pos).value;
      var rest := SkippedAreValues(data, mid, n - 1);
      items := [first] + rest;
      assert items[1..] == rest;
      Pieces(data, pos, mid, SkipMany(data, mid, n - 1).value);
    }
  }

  /** Skipping succeeds exactly where an encoded value stands, and stops right behind it. */
  lemma SkipIff(data: seq<byte>, pos: nat, end: nat)
    requires pos <= end <= |data|
    ensures Skip(data, pos) == Some(end) <==> exists v: Value :: Fits(v) && data[pos..end] == Encoded(v)
  {
    if Skip(data, pos) == Some(end) {
      var v := SkippedIsValue(data, pos);
    }
    if v: Value :| Fits(v) && data[pos..end] == Encoded(v) {
      SkipsOne(data, pos, v);
    }
  }

  // ---- Strings ----

  /** What writing a string appends. The long form uses the two-byte integer writer for its length, which
      puts an integer tag of its own in front. */
  function PutStr(s: seq<byte>): Option<seq<byte>> {
    if |s| <= 65535 then Some(StrHead(|s|) + s) else None
  }

  function StrHead(n: nat): seq<byte>
    requires n <= 65535
  {
    if n <= 31 then [0xa0 + n] else [0xda] + ([0xcd] + Two(n))
  }

  predicate StrTag(tag: byte) {
    0xa0 <= tag <= 0xbf || tag == 0xd9 || tag == 0xda
  }

  /** Reads a string at pos, cut to the room of the caller's buffer, and where it ends. */
  function ReadStr(data: seq<byte>, pos: nat, room: nat): (r: Option<(seq<byte>, nat)>)
    ensures r.Some? ==> |r.value.0| < room
  {
    if pos >= |data| || !StrTag(data[pos]) || HeaderAt(data, pos) == None then None else
    var (length, tail) := HeaderAt(data, pos).value;
    var start := pos + length;
    if start + tail.n > |data| || room == 0 then None else
    var copy := if tail.n < room - 1 then tail.n else room - 1;
    Some((data[start..start + copy], start + tail.n))
  }

  lemma ReadsStr(data: seq<byte>, pos: nat, v: Value, room: nat)
    requires v.Str? && Fits(v) && At(data, pos, Encoded(v)) && |v.data| < room
    ensures ReadStr(data, pos, room) == Some((v.data, pos + |Encoded(v)|))
  {
    hide HeaderAt;
    Split(data, pos, Header(v), v.data);
    HeaderRead(data, pos, v);
    assert data[pos] == data[pos..pos + |Header(v)|][0];
  }

  /** Reading gives back what was written, and stops behind it, exactly for strings of up to 31 bytes. */
  lemma StrRoundTripIff(s: seq<byte>, after: seq<byte>, room: nat)
    requires PutStr(s).Some? && |s| + 1 < room
    ensures ReadStr(PutStr(s).value + after, 0, room) == Some((s, |PutStr(s).value|)) <==> |s| <= 31
  {
    var written := PutStr(s).value;
    var data := written + after;
    assert data[0] == written[0];
    if |s| <= 31 {
      assert written == Encoded(Str(0, s));
      assert data[0..|written|] == written;
      ReadsStr(data, 0, Str(0, s), room);
    } else {
      assert data[1] == written[1] == 0xcd && data[2] == written[2];
    }
  }

  // ---- Message keys ----

  const ACTION := Bytes("action")
  const SOURCE := Bytes("source")
  const TARGET := Bytes("target")
  const NAME_ROOM := 32

  datatype Parts = Parts(action: seq<byte>, source: seq<byte>, target: seq<byte>)

  function Set(parts: Parts, name: seq<byte>, text: seq<byte>): Parts {
    if name == ACTION then parts.(action := text)
    else if name == SOURCE then parts.(source := text)
    else if name == TARGET then parts.(target := text)
    else parts
  }

  predicate Wanted(name: seq<byte>) {
    name == ACTION || name == SOURCE || name == TARGET
  }

  /** The sizes of the caller's three buffers. */
  datatype Rooms = Rooms(action: nat, source: nat, target: nat)

  const KEY_ROOMS := Rooms(32, 128, 160)

  function RoomFor(name: seq<byte>, rooms: Rooms): nat {
    if name == ACTION then rooms.action else if name == SOURCE then rooms.source else rooms.target
  }

  function ReadFields(data: seq<byte>, pos: nat, n: nat, parts: Parts, rooms: Rooms): Option<Parts>
    decreases n
  {
    if n == 0 then Some(parts) else
    var name := ReadStr(data, pos, NAME_ROOM);
    if name == None then None
    else if Wanted(name.value.0) then
      var text := ReadStr(data, name.value.1, RoomFor(name.value.0, rooms));
      if text == None then None
      else ReadFields(data, text.value.1, n - 1, Set(parts, name.value.0, text.value.0), rooms)
    else
      var end := Skip(data, name.value.1);
      if end == None then None else ReadFields(data, end.value, n - 1, parts, rooms)
  }

  function ReadKey(data: seq<byte>, parts: Parts, rooms: Rooms): Option<Parts> {
    if data == [] || data[0] / 16 != 8 then None else ReadFields(data, 1, data[0] % 16, parts, rooms)
  }

  datatype Field = Field(name: seq<byte>, value: Value)

  /** A field the key reader can read: a short name, and a string that fits if the field is wanted. */
  predicate Legible(f: Field, rooms: Rooms) {
    |f.name| <= 31 && Fits(f.value) && (Wanted(f.name) ==> f.value.Str? && |f.value.data| < RoomFor(f.name, rooms))
  }

  predicate AllLegible(fields: seq<Field>, rooms: Rooms) {
    fields == [] || (Legible(fields[0], rooms) && AllLegible(fields[1..], rooms))
  }

  function EncodedFields(fields: seq<Field>, rooms: Rooms): seq<byte>
    requires AllLegible(fields, rooms)
  {
    if fields == [] then []
    else Encoded(Str(0, fields[0].name)) + Encoded(fields[0].value) + EncodedFields(fields[1..], rooms)
  }

  /** The parts a list of fields means; a later field of the same name wins. */
  function Meant(fields: seq<Field>, parts: Parts): Parts {
    if fields == [] then parts
    else Meant(fields[1..], if fields[0].value.Str? then Set(parts, fields[0].name, fields[0].value.data) else parts)
  }

  /** Fields are read one after the other; n more may follow. */
  lemma {:induction false} FieldsRead(data: seq<byte>, pos: nat, fields: seq<Field>, n: nat, parts: Parts, rooms: Rooms)
    requires AllLegible(fields, rooms) && At(data, pos, EncodedFields(fields, rooms))
    ensures ReadFields(data, pos, |fields| + n, parts, rooms)
         == ReadFields(data, pos + |EncodedFields(fields, rooms)|, n, Meant(fields, parts), rooms)
    decreases fields
  {
    hide ReadStr, Encoded, Skip, At, RoomFor;
    assert fields != [] ==> Fits(Str(0, fields[0].name)) && Fits(fields[0].value);
    hide Fits;
    if fields != [] {
      var f := fields[0];
      var name, value, rest := Encoded(Str(0, f.name)), Encoded(f.value), EncodedFields(fields[1..], rooms);
      Split(data, pos, name + value, rest);
      Split(data, pos, name, value);
      ReadsStr(data, pos, Str(0, f.name), NAME_ROOM);
      if Wanted(f.name) {
        ReadsStr(data, pos + |name|, f.value, RoomFor(f.name, rooms));
      } else {
        SkipsOne(data, pos + |name|, f.value);
      }
      FieldsRead(data, pos + |name| + |value|, fields[1..], n,
                 if f.value.Str? then Set(parts, f.name, f.value.data) else parts, rooms);
    }
  }

  /** A written key reads back as what its fields mean, whatever other fields, in whatever order, it has. */
  lemma KeyRoundTrip(fields: seq<Field>, parts: Parts, rooms: Rooms)
    requires |fields| <= 15 && AllLegible(fields, rooms)
    ensures ReadKey([0x80 + |fields|] + EncodedFields(fields, rooms), parts, rooms) == Some(Meant(fields, parts))
  {
    hide EncodedFields, Meant, AllLegible, ReadFields, At;
    var tail := EncodedFields(fields, rooms);
    var data := [0x80 + |fields|] + tail;
    BehindHead(0x80 + |fields|, tail);
    FieldsRead(data, 1, fields, 0, parts, rooms);
    NoFields(data, 1 + |tail|, Meant(fields, parts), rooms);
  }

  lemma BehindHead(head: byte, tail: seq<byte>)
    ensures At([head] + tail, 1, tail)
  {
    assert ([head] + tail)[1..1 + |tail|] == tail;
  }

  lemma NoFields(data: seq<byte>, pos: nat, parts: Parts, rooms: Rooms)
    ensures ReadFields(data, pos, 0, parts, rooms) == Some(parts)
  {
  }

  // ---- Writing in place ----

  /** The eight bytes of a signed 64-bit integer, the most significant first. */
  function EightBytes(v: int): seq<byte> {
    seq(8, i requires 0 <= i < 8 => v / Power256(7 - i) % 256)
  }

  function Power256(n: nat): (r: nat)
    ensures r > 0
  {
    if n == 0 then 1 else 256 * Power256(n - 1)
  }

  /** The bytes of a request key. */
  function RpcKey(time: int, source: seq<byte>, target: seq<byte>): seq<byte>
    requires PutStr(source).Some? && PutStr(target).Some?
  {
    [0x84] + RpcHead(time) + PutStr(source).value + PutStr(TARGET).value + PutStr(target).value
  }

  function RpcHead(time: int): seq<byte> {
    PutStr(Bytes("ts")).value + ([0xd3] + EightBytes(time))
    + PutStr(ACTION).value + PutStr(Bytes("rpc-request")).value + PutStr(SOURCE).value
  }

  /** A request key is a map of four pairs: a time, what it asks for, from whom and whom. */
  lemma RpcKeyIs(time: int, source: seq<byte>, target: seq<byte>)
    requires |source| <= 31 && |target| <= 31
    ensures RpcKey(time, source, target)
         == [0x84] + ([0xa2] + Bytes("ts") + [0xd3] + EightBytes(time)) + ([0xa6] + Bytes("action") + [0xab] + Bytes("rpc-request"))
            + ([0xa6] + Bytes("source") + [0xa0 + |source|] + source) + ([0xa6] + Bytes("target") + [0xa0 + |target|] + target)
  {
    hide Bytes, EightBytes;
    NamesHaveLengths();
  }

  lemma NamesHaveLengths()
    ensures |Bytes("ts")| == 2 && |Bytes("action")| == 6 == |Bytes("source")| == |Bytes("target")|
    ensures |Bytes("rpc-request")| == 11
  {
  }

  /** A growing buffer. Growing may fail for want of memory. */
  class Buffer {
    var data: array<byte>
    var len: nat

    ghost predicate Valid()
      reads this
    {
      len <= data.Length
    }

    ghost function Contents(): seq<byte>
      requires Valid()
      reads this, data
    {
      data[..len]
    }

    constructor ()
      ensures Valid() && Contents() == [] && fresh(data)
    {
      data, len := new byte[0], 0;
    }

    method Ensure(need: nat) returns (ok: bool)
      requires Valid()
      modifies this`data
      ensures Valid() && Contents() == old(Contents()) && (data == old(data) || fresh(data))
      ensures ok ==> len + need <= data.Length
    {
      if len + need <= data.Length {
        return true;
      }
      var cap := if data.Length > 0 then data.Length * 2 else 256;
      while cap < len + need
        invariant data.Length < cap
        decreases len + need - cap
      {
        cap := cap * 2;
      }
      var memory: bool := *;
      if !memory {
        return false;
      }
      var grown := new byte[cap];
      forall i | 0 <= i < len {
        grown[i] := data[i];
      }
      data := grown;
      return true;
    }

    method Write(piece: seq<byte>) returns (ok: bool)
      requires Valid()
      modifies this, data
      ensures Valid() && (data == old(data) || fresh(data))
      ensures Contents() == if ok then old(Contents()) + piece else old(Contents())
    {
      ok := Ensure(|piece|);
      if ok {
        ghost var before := Contents();
        forall i | 0 <= i < |piece| {
          data[len + i] := piece[i];
        }
        assert data[..len] == before && data[len..len + |piece|] == piece;
        len := len + |piece|;
        assert data[..len] == before + piece;
      }
    }

    method PutU16(v: nat) returns (ok: bool)
      requires Valid() && v <= 65535
      modifies this, data
      ensures Valid() && (data == old(data) || fresh(data))
      ensures ok ==> Contents() == old(Contents()) + ([0xcd] + Two(v))
    {
      ok := Write([0xcd] + Two(v));
    }

    method PutLength(n: nat) returns (ok: bool)
      requires Valid()
      modifies this, data
      ensures Valid() && (data == old(data) || fresh(data))
      ensures ok ==> n <= 65535 && Contents() == old(Contents()) + StrHead(n)
    {
      hide Two;
      ghost var before := Contents();
      if n <= 31 {
        ok := Write([0xa0 + n]);
        return;
      }
      if n > 65535 {
        return false;
      }
      ok := Write([0xda]);
      if ok {
        ok := PutU16(n);
        assert before + [0xda] + ([0xcd] + Two(n)) == before + ([0xda] + ([0xcd] + Two(n)));
      }
    }

    method PutString(s: seq<byte>) returns (ok: bool)
      requires Valid()
      modifies this, data
      ensures Valid() && (data == old(data) || fresh(data))
      ensures ok ==> PutStr(s).Some? && Contents() == old(Contents()) + PutStr(s).value
    {
      hide StrHead;
      ghost var before := Contents();
      ok := PutLength(|s|);
      if ok {
        ok := Write(s);
        assert before + StrHead(|s|) + s == before + (StrHead(|s|) + s);
      }
    }

    /** One field with a string as its value. */
    method PutField(name: seq<byte>, text: seq<byte>) returns (ok: bool)
      requires Valid()
      modifies this, data
      ensures Valid() && (data == old(data) || fresh(data))
      ensures ok ==> PutStr(name).Some? && PutStr(text).Some?
                     && Contents() == old(Contents()) + PutStr(name).value + PutStr(text).value
    {
      hide PutStr;
      ok := PutString(name);
      if ok {
        ok := PutString(text);
      }
    }

    /** The two fields of a request key that are always the same. */
    method PutHead(time: int) returns (ok: bool)
      requires Valid()
      modifies this, data
      ensures Valid() && (data == old(data) || fresh(data))
      ensures ok ==> Contents() + PutStr(SOURCE).value == old(Contents()) + RpcHead(time)
    {
      hide EightBytes;
      ghost var before := Contents();
      ok := PutString(Bytes("ts"));
      if ok {
        ok := Write([0xd3] + EightBytes(time));
      }
      if ok {
        ok := PutField(ACTION, Bytes("rpc-request"));
      }
      if ok {
        Regroup(before, PutStr(Bytes("ts")).value, [0xd3] + EightBytes(time), PutStr(ACTION).value,
                PutStr(Bytes("rpc-request")).value, PutStr(SOURCE).value);
      }
    }

    /** The key of a request. */
    method EncodeRpcKey(time: int, source: seq<byte>, target: seq<byte>) returns (ok: bool)
      requires Valid() && len == 0
      modifies this, data
      ensures Valid() && (data == old(data) || fresh(data))
      ensures ok ==> PutStr(source).Some? && PutStr(target).Some? && Contents() == RpcKey(time, source, target)
    {
      hide PutStr, RpcHead;
      ok := Write([0x84]);
      assert ok ==> Contents() == [0x84];
      if ok {
        ok := PutHead(time);
      }
      if ok {
        ok := PutField(SOURCE, source);
      }
      if ok {
        ok := PutField(TARGET, target);
      }
    }
  }

  lemma Regroup(a: seq<byte>, b: seq<byte>, c: seq<byte>, d: seq<byte>, e: seq<byte>, f: seq<byte>)
    ensures a + b + c + d + e + f == a + (b + c + d + e + f)
  {
  }

  // ---- Request keys ----

  /** The first fields of a request key. */
  function RpcFields(time: int): seq<Field> {
    [Field(Bytes("ts"), Scalar(0xd3, EightBytes(time))), Field(ACTION, Str(0, Bytes("rpc-request")))]
  }

  lemma Names()
    ensures |ACTION| == |SOURCE| == |TARGET| == 6 && |Bytes("ts")| == 2 && |Bytes("rpc-request")| == 11
    ensures ACTION != SOURCE && SOURCE != TARGET && ACTION != TARGET
  {
    assert ACTION[0] != SOURCE[0] && SOURCE[0] != TARGET[0] && ACTION[0] != TARGET[0];
  }

  lemma ShortStr(s: seq<byte>)
    requires |s| <= 31
    ensures PutStr(s) == Some(Encoded(Str(0, s)))
  {
  }

  lemma RpcFieldsLegible(time: int)
    ensures AllLegible(RpcFields(time), KEY_ROOMS) && AllLegible(RpcFields(time)[1..], KEY_ROOMS)
  {
    assert |EightBytes(time)| == 8;
    hide EightBytes;
    Names();
    var fields := RpcFields(time);
    assert fields[1..][1..] == [];
    assert AllLegible(fields[1..], KEY_ROOMS);
  }

  lemma RpcFieldsEncoded(time: int)
    ensures AllLegible(RpcFields(time), KEY_ROOMS)
    ensures RpcHead(time) == EncodedFields(RpcFields(time), KEY_ROOMS) + Encoded(Str(0, SOURCE))
  {
    hide EightBytes;
    Names();
    RpcFieldsLegible(time);
    hide Legible, AllLegible;
    ShortStr(Bytes("ts"));
    var fields := RpcFields(time);
    assert fields[1..][1..] == [];
    assert EncodedFields(fields[1..], KEY_ROOMS) == Encoded(Str(0, ACTION)) + Encoded(Str(0, Bytes("rpc-request")));
  }

  lemma RpcLayout(time: int, source: seq<byte>, target: seq<byte>)
    requires PutStr(source).Some? && PutStr(target).Some?
    ensures var key, p := RpcKey(time, source, target), 1 + |RpcHead(time)|;
      && At(key, p, PutStr(source).value + (PutStr(TARGET).value + PutStr(target).value))
      && |key| == p + |PutStr(source).value| + 7 + |PutStr(target).value|
      && key[0] == 0x84 && At(key, 1, RpcHead(time))
  {
    Names();
    ShortStr(TARGET);
    EncodedShort(TARGET);
    hide PutStr, RpcHead, At, Encoded;
    var key, head := RpcKey(time, source, target), RpcHead(time);
    var tail := PutStr(source).value + (PutStr(TARGET).value + PutStr(target).value);
    RegroupTail([0x84] + head, PutStr(source).value, PutStr(TARGET).value, PutStr(target).value);
    RpcTail(key, head, tail);
  }

  lemma RegroupTail(a: seq<byte>, b: seq<byte>, c: seq<byte>, d: seq<byte>)
    ensures a + b + c + d == a + (b + (c + d)) && |b + (c + d)| == |b| + |c| + |d|
  {
  }

  lemma NameThenText(data: seq<byte>, pos: nat, name: seq<byte>, n: nat, parts: Parts)
    requires |name| <= 31 && Wanted(name) && At(data, pos, Encoded(Str(0, name)))
    ensures ReadFields(data, pos, n + 1, parts, KEY_ROOMS)
         == AfterName(data, pos + |Encoded(Str(0, name))|, name, n, parts)
  {
    hide At, Encoded, ReadStr;
    ReadsStr(data, pos, Str(0, name), NAME_ROOM);
  }

  /** Reading a request key comes down to reading the text of its source, and the one field behind it. */
  lemma RpcStart(time: int, source: seq<byte>, target: seq<byte>, parts: Parts)
    requires PutStr(source).Some? && PutStr(target).Some?
    ensures var key, p := RpcKey(time, source, target), 1 + |RpcHead(time)|;
      && At(key, p, PutStr(source).value + (PutStr(TARGET).value + PutStr(target).value))
      && |key| == p + |PutStr(source).value| + 7 + |PutStr(target).value|
      && ReadKey(key, parts, KEY_ROOMS)
         == AfterName(key, p, SOURCE, 1, parts.(action := Bytes("rpc-request")))
  {
    hide PutStr, RpcHead, RpcKey, At, Encoded, ReadFields, AfterName, EncodedFields, Bytes, EightBytes, Meant;
    Names();
    RpcLayout(time, source, target);
    RpcFieldsEncoded(time);
    var key, fields := RpcKey(time, source, target), RpcFields(time);
    Split(key, 1, EncodedFields(fields, KEY_ROOMS), Encoded(Str(0, SOURCE)));
    FieldsRead(key, 1, fields, 2, parts, KEY_ROOMS);
    NameThenText(key, 1 + |EncodedFields(fields, KEY_ROOMS)|, SOURCE, 1, parts.(action := Bytes("rpc-request")));
    RpcFieldsMean(time, parts);
  }

  lemma EncodedShort(s: seq<byte>)
    requires |s| <= 31
    ensures |Encoded(Str(0, s))| == 1 + |s|
  {
  }

  lemma RpcTail(key: seq<byte>, head: seq<byte>, tail: seq<byte>)
    requires key == [0x84] + head + tail
    ensures key[0] == 0x84 && At(key, 1, head) && At(key, 1 + |head|, tail)
  {
    assert key[1..1 + |head|] == head;
    assert key[1 + |head|..] == tail;
  }

  lemma RpcFieldsMean(time: int, parts: Parts)
    ensures Meant(RpcFields(time), parts) == parts.(action := Bytes("rpc-request"))
  {
    hide EightBytes;
    var fields := RpcFields(time);
    assert fields[1..][1..] == [];
    var one := parts.(action := Bytes("rpc-request"));
    assert Meant(fields[1..], parts) == Meant([], one) == one;
  }

  /** What is read from the text of a wanted field on, n fields after it included. */
  function AfterName(data: seq<byte>, pos: nat, name: seq<byte>, n: nat, parts: Parts): Option<Parts> {
    var text := ReadStr(data, pos, RoomFor(name, KEY_ROOMS));
    if text == None then None
    else ReadFields(data, text.value.1, n, Set(parts, name, text.value.0), KEY_ROOMS)
  }

  /** A long string takes its length from the stray tag: it wants more than fifty thousand bytes behind it. */
  lemma LongStops(data: seq<byte>, pos: nat, s: seq<byte>, room: nat)
    requires 31 < |s| && PutStr(s).Some? && At(data, pos, PutStr(s).value) && |data| - pos <= 52480
    ensures ReadStr(data, pos, room) == None
  {
    var written := data[pos..pos + |PutStr(s).value|];
    assert data[pos] == written[0] == 0xda && data[pos + 1] == written[1] == 0xcd && data[pos + 2] == written[2];
  }

  /** Behind a short source the target is read. */
  lemma SourcePassed(data: seq<byte>, pos: nat, source: seq<byte>, target: seq<byte>, parts: Parts)
    requires |source| <= 31 && PutStr(target).Some?
    requires At(data, pos, PutStr(source).value + (PutStr(TARGET).value + PutStr(target).value))
    ensures At(data, pos + 8 + |source|, PutStr(target).value)
    ensures AfterName(data, pos, SOURCE, 1, parts)
         == AfterName(data, pos + 8 + |source|, TARGET, 0, parts.(source := source))
  {
    hide At, ReadStr, Encoded, PutStr, ReadFields;
    Names();
    ShortStr(source);
    ShortStr(TARGET);
    EncodedShort(source);
    EncodedShort(TARGET);
    Split(data, pos, PutStr(source).value, PutStr(TARGET).value + PutStr(target).value);
    Split(data, pos + 1 + |source|, PutStr(TARGET).value, PutStr(target).value);
    ReadsStr(data, pos, Str(0, source), KEY_ROOMS.source);
    NameThenText(data, pos + 1 + |source|, TARGET, 0, parts.(source := source));
  }

  lemma TargetRead(data: seq<byte>, pos: nat, target: seq<byte>, parts: Parts)
    requires |target| <= 31 && At(data, pos, PutStr(target).value)
    ensures AfterName(data, pos, TARGET, 0, parts) == Some(parts.(target := target))
  {
    hide At, ReadStr, Encoded;
    Names();
    ShortStr(target);
    ReadsStr(data, pos, Str(0, target), KEY_ROOMS.target);
  }

  /** A request key with a long source or a long target cannot be read at all. */
  lemma LongKeyRefused(time: int, source: seq<byte>, target: seq<byte>, parts: Parts)
    requires (31 < |source| || 31 < |target|) && |source| + |target| <= 52000
    ensures ReadKey(RpcKey(time, source, target), parts, Rooms(32, 128, 160)) == None
  {
    hide At, ReadStr, RpcHead, ReadKey, RpcKey, Bytes;
    Names();
    RpcStart(time, source, target, parts);
    var key, p := RpcKey(time, source, target), 1 + |RpcHead(time)|;
    Split(key, p, PutStr(source).value, PutStr(TARGET).value + PutStr(target).value);
    if |source| <= 31 {
      SourcePassed(key, p, source, target, parts.(action := Bytes("rpc-request")));
      LongStops(key, p + 8 + |source|, target, KEY_ROOMS.target);
    } else {
      LongStops(key, p, source, KEY_ROOMS.source);
    }
  }

  predicate InRooms(parts: Parts, rooms: Rooms) {
    |parts.action| < rooms.action && |parts.source| < rooms.source && |parts.target| < rooms.target
  }

  lemma {:induction false} PartsFit(data: seq<byte>, pos: nat, n: nat, parts: Parts, rooms: Rooms)
    requires InRooms(parts, rooms)
    ensures var r := ReadFields(data, pos, n, parts, rooms); r.Some? ==> InRooms(r.value, rooms)
    decreases n
  {
    hide ReadStr, Skip;
    Names();
    if n > 0 && ReadStr(data, pos, NAME_ROOM).Some? {
      var (name, mid) := ReadStr(data, pos, NAME_ROOM).value;
      if Wanted(name) {
        var text := ReadStr(data, mid, RoomFor(name, rooms));
        if text.Some? {
          PartsFit(data, text.value.1, n - 1, Set(parts, name, text.value.0), rooms);
        }
      } else if Skip(data, mid).Some? {
        PartsFit(data, Skip(data, mid).value, n - 1, parts, rooms);
      }
    }
  }

  /** A request key is read back exactly when neither its source nor its target exceeds 31 bytes. */
  lemma RpcKeyReadIff(time: int, source: seq<byte>, target: seq<byte>, parts: Parts)
    requires PutStr(source).Some? && PutStr(target).Some? && InRooms(parts, Rooms(32, 128, 160))
    ensures ReadKey(RpcKey(time, source, target), parts, Rooms(32, 128, 160)) == Some(Parts(Bytes("rpc-request"), source, target))
            <==> |source| <= 31 && |target| <= 31
  {
    hide At, ReadFields, RpcHead, RpcKey, PutStr, AfterName;
    var key := RpcKey(time, source, target);
    if |source| <= 31 && |target| <= 31 {
      RpcStart(time, source, target, parts);
      var p, one := 1 + |RpcHead(time)|, parts.(action := Bytes("rpc-request"));
      SourcePassed(key, p, source, target, one);
      TargetRead(key, p + 8 + |source|, target, one.(source := source));
    } else if |source| < 128 && |target| < 160 {
      LongKeyRefused(time, source, target, parts);
    } else if key != [] {
      PartsFit(key, 1, key[0] % 16, parts, KEY_ROOMS);
    }
  }

  /** The one request the service sends: the name of its target is too long, whatever its running number is. */
  lemma UpdateRequestRefused(time: int, number: string, parts: Parts)
    requires |number| <= 10
    ensures var target := Bytes("coordinator::digitalfactory::handling@execute|D" + number);
      && PutStr(target).Some?
      && ReadKey(RpcKey(time, Bytes("connector"), target), parts, Rooms(32, 128, 160)) == None
  {
    hide ReadKey, RpcKey;
    LongKeyRefused(time, Bytes("connector"), Bytes("coordinator::digitalfactory::handling@execute|D" + number), parts);
  }

  // ---- Reading in place ----

  class Reader {
    const buf: seq<byte>
    var pos: nat

    constructor (buf: seq<byte>)
      ensures this.buf == buf && pos == 0
    {
      this.buf, pos := buf, 0;
    }

    method ReadU8() returns (ok: bool, v: byte)
      modifies this
      ensures ok <==> old(pos) < |buf|
      ensures ok ==> v == buf[old(pos)] && pos == old(pos) + 1
      ensures !ok ==> pos == old(pos)
    {
      if pos >= |buf| {
        return false, 0;
      }
      v := buf[pos];
      pos := pos + 1;
      return true, v;
    }

    function Room(): nat
      reads this
    {
      if pos <= |buf| then |buf| - pos else 0
    }

    /** Moves past n bytes, even beyond the end. */
    method Advance(n: nat) returns (ok: bool)
      modifies this
      ensures pos == old(pos) + n && ok == (pos <= |buf|)
    {
      pos := pos + n;
      return pos <= |buf|;
    }

    method ReadCount() returns (ok: bool, n: nat)
      modifies this
      ensures ok <==> old(pos) + 2 <= |buf|
      ensures ok ==> n == Join(buf[old(pos)], buf[old(pos) + 1]) && pos == old(pos) + 2
    {
      if pos + 2 > |buf| {
        return false, 0;
      }
      n := Join(buf[pos], buf[pos + 1]);
      pos := pos + 2;
      return true, n;
    }

    method SkipValues(n: nat) returns (ok: bool)
      modifies this
      ensures ok == SkipMany(buf, old(pos), n).Some?
      ensures ok ==> pos == SkipMany(buf, old(pos), n).value
      decreases Room(), n + 1
    {
      for i := 0 to n
        invariant pos >= old(pos) && (i > 0 ==> pos > old(pos) && pos <= |buf|)
        invariant SkipMany(buf, old(pos), n) == SkipMany(buf, pos, n - i)
      {
        ok := SkipValue();
        if !ok {
          return false;
        }
      }
      return true;
    }

    /** The forms with a length or count of two bytes. */
    method SkipLong(tag: byte) returns (ok: bool)
      requires 0 < pos <= |buf| && tag == buf[pos - 1] && (tag == 0xda || tag == 0xdc || tag == 0xde)
      modifies this
      ensures ok == Skip(buf, old(pos) - 1).Some?
      ensures ok ==> pos == Skip(buf, old(pos) - 1).value
      decreases Room(), 1
    {
      var n;
      ok, n := ReadCount();
      if !ok {
        return;
      }
      if tag == 0xda {
        ok := Advance(n);
      } else {
        ok := SkipValues(if tag == 0xde then n * 2 else n);
      }
    }

    method SkipValue() returns (ok: bool)
      modifies this
      ensures ok == Skip(buf, old(pos)).Some?
      ensures ok ==> pos == Skip(buf, old(pos)).value
      decreases Room(), 0
    {
      hide SkipMany, Join;
      var tag;
      ok, tag := ReadU8();
      if !ok {
        return;
      }
      if tag <= 0x7f || tag >= 0xe0 || tag == 0xc0 || tag == 0xc2 || tag == 0xc3 {
        return true;
      }
      if tag >= 0xa0 && tag <= 0xbf {
        ok := Advance(tag % 32);
        return;
      }
      if tag >= 0x80 && tag <= 0x8f {
        ok := SkipValues(tag % 16 * 2);
        return;
      }
      if tag >= 0x90 && tag <= 0x9f {
        ok := SkipValues(tag % 16);
        return;
      }
      if tag == 0xcc || tag == 0xd0 {
        ok := Advance(1);
        return;
      }
      if tag == 0xcd || tag == 0xd1 {
        ok := Advance(2);
        return;
      }
      if tag == 0xce || tag == 0xd2 || tag == 0xca {
        ok := Advance(4);
        return;
      }
      if tag == 0xcf || tag == 0xd3 || tag == 0xcb {
        ok := Advance(8);
        return;
      }
      if tag == 0xd9 {
        var length;
        ok, length := ReadU8();
        if ok {
          ok := Advance(length);
        }
        return;
      }
      if tag == 0xda || tag == 0xdc || tag == 0xde {
        ok := SkipLong(tag);
        return;
      }
      return false;
    }

    /** The length of the string whose tag stands at pos. */
    method ReadLength() returns (ok: bool, n: nat)
      modifies this
      ensures ok == (old(pos) < |buf| && StrTag(buf[old(pos)]) && HeaderAt(buf, old(pos)).Some?)
      ensures ok ==> HeaderAt(buf, old(pos)) == Some((pos - old(pos), Octets(n)))
    {
      var tag;
      n := 0;
      ok, tag := ReadU8();
      if !ok {
        return;
      }
      if tag >= 0xa0 && tag <= 0xbf {
        return true, tag % 32;
      }
      if tag == 0xd9 {
        ok, n := ReadU8();
        return;
      }
      if tag == 0xda {
        ok, n := ReadCount();
        return;
      }
      return false, 0;
    }

    method ReadString(room: nat) returns (ok: bool, text: seq<byte>)
      modifies this
      ensures ok == ReadStr(buf, old(pos), room).Some?
      ensures ok ==> (text, pos) == ReadStr(buf, old(pos), room).value
    {
      text := [];
      var n;
      ok, n := ReadLength();
      if !ok || pos + n > |buf| || room == 0 {
        return false, text;
      }
      var copy := if n < room - 1 then n else room - 1;
      text := buf[pos..pos + copy];
      pos := pos + n;
    }

    /** The parts named in a key. */
    method ReadKeyParts(start: Parts, rooms: Rooms) returns (ok: bool, parts: Parts)
      requires pos == 0
      modifies this
      ensures ok == ReadKey(buf, start, rooms).Some?
      ensures ok ==> parts == ReadKey(buf, start, rooms).value
    {
      hide ReadStr, Skip;
      parts := start;
      var tag, name, text;
      ok, tag := ReadU8();
      if !ok || tag / 16 != 8 {
        return false, parts;
      }
      for i := 0 to tag % 16
        invariant ReadFields(buf, 1, tag % 16, start, rooms) == ReadFields(buf, pos, tag % 16 - i, parts, rooms)
      {
        ok, name := ReadString(NAME_ROOM);
        if !ok {
          return;
        }
        if name == ACTION || name == SOURCE || name == TARGET {
          ok, text := ReadString(RoomFor(name, rooms));
          if !ok {
            return;
          }
          parts := Set(parts, name, text);
        } else {
          ok := SkipValue();
          if !ok {
            return;
          }
        }
      }
      return true, parts;
    }
  }
}
