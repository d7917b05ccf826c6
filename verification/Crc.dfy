/** C's unsigned char, and its value as a machine word. */
module Casts {
  type byte = i: int | 0 <= i < 256

  /** The word with value b; written by counting, because the solver is slow on casts from int. */
  function Octet(b: byte): bv8 {
    if b == 0 then 0 else Octet(b - 1) + 1
  }

  lemma Increment(w: bv8)
    requires w != 0xff
    ensures (w + 1) as int == w as int + 1
  {
  }

  lemma {:induction false} OctetValue(b: byte)
    ensures Octet(b) as int == b
  {
    if b > 0 {
      OctetValue(b - 1);
      Increment(Octet(b - 1));
    }
  }

  lemma OctetOfValue(w: bv8)
    ensures Octet(w as int) == w
  {
    OctetValue(w as int);
    assert (Octet(w as int) as int) as bv8 == Octet(w as int);
    assert (w as int) as bv8 == w;
  }
}

/** The two checksums of the serial link: CRC-8 for reply lines, CRC-16 for packets. */
module Crc {
  import opened Casts


  /** A shift register: step applied n times. */
  function Iterate<T>(step: T -> T, x: T, n: nat): T {
    if n == 0 then x else step(Iterate(step, x, n - 1))
  }

  /** A checksum: absorb applied to every byte of data, first to last. */
  function Fold<T>(absorb: (T, byte) -> T, c: T, data: seq<byte>): T
    decreases |data|
  {
    if |data| == 0 then c else absorb(Fold(absorb, c, data[..|data| - 1]), data[|data| - 1])
  }

  // ---- CRC-16, polynomial 0x1021, initial value 0xffff ----

  function Bit16(c: bv16): bv16 {
    if c & 0x8000 != 0 then (c << 1) ^ 0x1021 else c << 1
  }

  /** The byte, placed in the upper half of the register. */
  function High(b: byte): bv16 {
    Word(b) << 8
  }

  function Word(b: byte): bv16 {
    Octet(b) as bv16
  }

  function Byte16(c: bv16, b: byte): bv16 {
    Iterate(Bit16, c ^ High(b), 8)
  }

  function Fold16(c: bv16, data: seq<byte>): bv16 {
    Fold(Byte16, c, data)
  }

  const INITIAL: bv16 := 0xffff

  method ShiftByte16(start: bv16) returns (crc: bv16)
    ensures crc == Iterate(Bit16, start, 8)
  {
    crc := start;
    var bit := 0;
    while bit < 8
      invariant 0 <= bit <= 8
      invariant crc == Iterate(Bit16, start, bit)
    {
      crc := Bit16(crc);
      bit := bit + 1;
    }
  }

  method Crc16(data: array<byte>, from: nat, len: nat) returns (crc: bv16)
    requires from + len <= data.Length
    ensures crc == Fold16(INITIAL, data[from..from + len])
  {
    hide Fold16, High, Bit16, Iterate;
    ghost var message := data[from..from + len];
    FoldsNothing(message);
    crc := INITIAL;
    var i := 0;
    while i < len
      invariant 0 <= i <= len
      invariant crc == Fold16(INITIAL, message[..i])
    {
      FoldsOneMore(message, i);
      crc := ShiftByte16(crc ^ High(data[from + i]));
      i := i + 1;
    }
    assert message[..len] == message;
  }

  lemma FoldsNothing(message: seq<byte>)
    ensures Fold16(INITIAL, message[..0]) == INITIAL
  {
  }

  lemma FoldsOneMore(message: seq<byte>, i: nat)
    requires i < |message|
    ensures Fold16(INITIAL, message[..i + 1]) == Iterate(Bit16, Fold16(INITIAL, message[..i]) ^ High(message[i]), 8)
  {
    hide High, Bit16, Iterate;
    assert message[..i + 1][..i] == message[..i];
  }

  // ---- CRC-8, polynomial 0x07, initial value 0 ----

  function Bit8(c: bv8): bv8 {
    if c & 0x80 != 0 then (c << 1) ^ 0x07 else c << 1
  }

  function Byte8(c: bv8, b: byte): bv8 {
    Iterate(Bit8, c ^ Octet(b), 8)
  }

  function Fold8(data: seq<byte>): bv8 {
    Fold(Byte8, 0, data)
  }

  method ShiftByte8(start: bv8) returns (crc: bv8)
    ensures crc == Iterate(Bit8, start, 8)
  {
    crc := start;
    var bit := 0;
    while bit < 8
      invariant 0 <= bit <= 8
      invariant crc == Iterate(Bit8, start, bit)
    {
      crc := Bit8(crc);
      bit := bit + 1;
    }
  }

  method Crc8(data: seq<byte>) returns (crc: bv8)
    ensures crc == Fold8(data)
  {
    crc := 0;
    var i := 0;
    while i < |data|
      invariant 0 <= i <= |data|
      invariant crc == Fold8(data[..i])
    {
      assert data[..i + 1][..i] == data[..i];
      crc := ShiftByte8(crc ^ Octet(data[i]));
      i := i + 1;
    }
    assert data[..|data|] == data;
  }

  // ---- The shift register is linear and invertible ----

  ghost predicate Additive<T(!new)>(step: T -> T, plus: (T, T) -> T) {
    forall x, y :: step(plus(x, y)) == plus(step(x), step(y))
  }

  lemma {:induction false} IterateAdditive<T(!new)>(step: T -> T, plus: (T, T) -> T, x: T, y: T, n: nat)
    requires Additive(step, plus)
    ensures Iterate(step, plus(x, y), n) == plus(Iterate(step, x, n), Iterate(step, y, n))
  {
    if n > 0 {
      IterateAdditive(step, plus, x, y, n - 1);
    }
  }

  lemma {:induction false} IterateOnlyZeroGivesZero<T(!new)>(step: T -> T, zero: T, x: T, n: nat)
    requires forall y :: step(y) == zero ==> y == zero
    requires Iterate(step, x, n) == zero
    ensures x == zero
  {
    if n > 0 {
      IterateOnlyZeroGivesZero(step, zero, x, n - 1);
    }
  }

  lemma ShiftXor(x: bv16, y: bv16)
    ensures (x ^ y) << 1 == (x << 1) ^ (y << 1)
    ensures (x ^ y) & 0x8000 == (x & 0x8000) ^ (y & 0x8000)
  {
  }

  lemma TopBit(x: bv16)
    ensures x & 0x8000 == 0 || x & 0x8000 == 0x8000
  {
  }

  lemma XorCancel(x: bv16, y: bv16, k: bv16)
    ensures x ^ (y ^ k) == (x ^ y) ^ k
    ensures (x ^ k) ^ y == (x ^ y) ^ k
    ensures (x ^ k) ^ (y ^ k) == x ^ y
  {
  }

  lemma XorZero(x: bv16, y: bv16)
    ensures x ^ y == 0 <==> x == y
  {
  }

  lemma BitAdditive(x: bv16, y: bv16)
    ensures Bit16(x ^ y) == Bit16(x) ^ Bit16(y)
  {
    ShiftXor(x, y);
    TopBit(x);
    TopBit(y);
    XorCancel(x << 1, y << 1, 0x1021);
  }

  lemma BitInvertible(x: bv16)
    requires Bit16(x) == 0
    ensures x == 0
  {
  }

  function Xor16(x: bv16, y: bv16): bv16 { x ^ y }

  /** Eight shifts distribute over the difference of two registers. */
  lemma ShiftDifference(x: bv16, y: bv16)
    ensures Iterate(Bit16, Xor16(x, y), 8) == Xor16(Iterate(Bit16, x, 8), Iterate(Bit16, y, 8))
  {
    forall a, b ensures Bit16(Xor16(a, b)) == Xor16(Bit16(a), Bit16(b)) {
      BitAdditive(a, b);
    }
    IterateAdditive(Bit16, Xor16, x, y, 8);
  }

  lemma ShiftInvertible(x: bv16)
    requires Iterate(Bit16, x, 8) == 0
    ensures x == 0
  {
    forall y | Bit16(y) == 0 ensures y == 0 {
      BitInvertible(y);
    }
    IterateOnlyZeroGivesZero(Bit16, 0, x, 8);
  }

  // ---- Running a register backwards, and registers that hold one byte ----

  function Unbit16(c: bv16): bv16 {
    if c & 1 != 0 then ((c ^ 0x1021) >> 1) ^ 0x8000 else c >> 1
  }

  lemma UnbitBit(x: bv16)
    ensures Unbit16(Bit16(x)) == x
  {
    if x & 0x8000 != 0 {
      UnbitBitTop(x);
    } else {
      UnbitBitNoTop(x);
    }
  }

  lemma UnbitBitTop(x: bv16)
    requires x & 0x8000 != 0
    ensures Unbit16(Bit16(x)) == x
  {
    ShiftBack(x);
    LowBitOfPolynomial(x << 1);
    var y := (x << 1) ^ 0x1021;
    assert Unbit16(y) == ((y ^ 0x1021) >> 1) ^ 0x8000;
  }

  lemma UnbitBitNoTop(x: bv16)
    requires x & 0x8000 == 0
    ensures Unbit16(Bit16(x)) == x
  {
    ShiftBack(x);
    var y := x << 1;
    assert Unbit16(y) == y >> 1;
  }

  lemma ShiftBack(x: bv16)
    ensures (x << 1) & 1 == 0
    ensures x & 0x8000 == 0 ==> (x << 1) >> 1 == x
    ensures x & 0x8000 != 0 ==> ((x << 1) >> 1) ^ 0x8000 == x
  {
  }

  lemma LowBitOfPolynomial(y: bv16)
    requires y & 1 == 0
    ensures (y ^ 0x1021) & 1 != 0
    ensures (y ^ 0x1021) ^ 0x1021 == y
  {
  }

  lemma {:induction false} IterateUndo(x: bv16, n: nat)
    ensures Iterate(Unbit16, Iterate(Bit16, x, n), n) == x
  {
    if n > 0 {
      IterateUndo(x, n - 1);
      UnbitBit(Iterate(Bit16, x, n - 1));
      IterateInnermost(Unbit16, Iterate(Bit16, x, n), n);
    }
  }

  lemma {:induction false} IterateInnermost<T>(step: T -> T, x: T, n: nat)
    requires n > 0
    ensures Iterate(step, x, n) == Iterate(step, step(x), n - 1)
  {
    if n > 1 {
      IterateInnermost(step, x, n - 1);
    }
  }

  lemma LowByteShifts(v: bv16)
    requires v <= 0xff
    ensures Bit16(v) == v << 1 && Bit16(v << 1) == v << 2 && Bit16(v << 2) == v << 3 && Bit16(v << 3) == v << 4
    ensures Bit16(v << 4) == v << 5 && Bit16(v << 5) == v << 6 && Bit16(v << 6) == v << 7 && Bit16(v << 7) == v << 8
  {
  }

  lemma LowByteUnshifts(v: bv16)
    requires v <= 0xff
    ensures Unbit16(v << 8) == v << 7 && Unbit16(v << 7) == v << 6 && Unbit16(v << 6) == v << 5
    ensures Unbit16(v << 5) == v << 4 && Unbit16(v << 4) == v << 3 && Unbit16(v << 3) == v << 2
    ensures Unbit16(v << 2) == v << 1 && Unbit16(v << 1) == v
  {
  }

  lemma Iterate8<T>(step: T -> T, x: T)
    ensures Iterate(step, x, 8) == step(step(step(step(step(step(step(step(x))))))))
  {
    assert Iterate(step, x, 2) == step(step(x));
    assert Iterate(step, x, 4) == step(step(step(step(x))));
    assert Iterate(step, x, 6) == step(step(step(step(step(step(x))))));
  }

  lemma ShiftLowByte(v: bv16)
    requires v <= 0xff
    ensures Iterate(Bit16, v, 8) == v << 8
    ensures Iterate(Unbit16, v << 8, 8) == v
  {
    Iterate8(Bit16, v);
    Iterate8(Unbit16, v << 8);
    LowByteShifts(v);
    LowByteUnshifts(v);
  }

  lemma HighMeetsLow(a: bv16, e: bv16)
    requires a <= 0xff && e <= 0xff && a << 8 == e
    ensures a == 0 && e == 0
  {
  }

  /** The upper and the lower half of the register, as the bytes that are sent. */
  function UpperByte(c: bv16): byte {
    ((c >> 8) as bv8) as byte
  }

  function LowerByte(c: bv16): byte {
    ((c & 0xff) as bv8) as byte
  }

  lemma HalfWords(c: bv16)
    ensures Word(UpperByte(c)) == c >> 8 && Word(LowerByte(c)) == c & 0xff
  {
    OctetOfValue((c >> 8) as bv8);
    OctetOfValue((c & 0xff) as bv8);
    HalvesFit(c);
  }

  lemma HalvesFit(c: bv16)
    ensures ((c >> 8) as bv8) as bv16 == c >> 8
    ensures ((c & 0xff) as bv8) as bv16 == c & 0xff
  {
  }

  lemma SplitRegister(c: bv16)
    ensures c ^ ((c >> 8) << 8) == c & 0xff
    ensures ((c & 0xff) << 8) ^ ((c & 0xff) << 8) == 0
  {
  }

  lemma ShiftZero()
    ensures Iterate(Bit16, 0, 8) == 0
  {
    Iterate8(Bit16, 0 as bv16);
  }

  // ---- Main results ----

  /** The two check bytes sent after a message drive the receiver's register to zero. */
  lemma ResidueIsZero(c: bv16)
    ensures Fold16(c, [UpperByte(c), LowerByte(c)]) == 0
  {
    FoldTwo(c, UpperByte(c), LowerByte(c));
    HalfWords(c);
    ByteIsWord(c, UpperByte(c), c >> 8);
    ByteIsWord(Byte16(c, UpperByte(c)), LowerByte(c), c & 0xff);
    HalvesCancel(c);
  }

  lemma HalvesCancel(c: bv16)
    ensures Iterate(Bit16, Iterate(Bit16, c ^ ((c >> 8) << 8), 8) ^ ((c & 0xff) << 8), 8) == 0
  {
    SplitRegister(c);
    ShiftLowByte(c & 0xff);
    ShiftZero();
  }

  lemma FoldTwo(c: bv16, x: byte, y: byte)
    ensures Fold16(c, [x, y]) == Byte16(Byte16(c, x), y)
  {
    assert [x, y][..1] == [x] && [x][..0] == [];
    assert Fold(Byte16, c, [x]) == Byte16(c, x);
    assert Fold(Byte16, c, [x, y]) == Byte16(Fold(Byte16, c, [x]), y);
  }

  lemma {:induction false} FoldConcat(c: bv16, a: seq<byte>, b: seq<byte>)
    ensures Fold16(c, a + b) == Fold16(Fold16(c, a), b)
    decreases |b|
  {
    if |b| == 0 {
      assert a + b == a;
    } else {
      FoldConcat(c, a, b[..|b| - 1]);
      assert (a + b)[..|a + b| - 1] == a + b[..|b| - 1];
    }
  }

  function WordDifference(x: byte, y: byte): bv16 {
    Word(x) ^ Word(y)
  }

  lemma WordBounds(x: byte, y: byte)
    ensures WordDifference(x, y) <= 0xff
    ensures WordDifference(x, y) == 0 <==> x == y
  {
    WordBound(x);
    WordBound(y);
    XorBound(Word(x), Word(y));
    XorZero(Word(x), Word(y));
    WordInjective(x, y);
  }

  lemma WordBound(x: byte)
    ensures Word(x) <= 0xff
  {
    Narrow(Octet(x));
  }

  lemma WordInjective(x: byte, y: byte)
    ensures Word(x) == Word(y) ==> x == y
  {
    OctetValue(x);
    OctetValue(y);
    Narrow(Octet(x));
    Narrow(Octet(y));
  }

  lemma Narrow(x: bv8)
    ensures (x as bv16) as bv8 == x
    ensures x as bv16 <= 0xff
  {
  }

  lemma XorBound(x: bv16, y: bv16)
    requires x <= 0xff && y <= 0xff
    ensures x ^ y <= 0xff
  {
  }

  lemma ByteDifference(c: bv16, d: bv16, x: byte, y: byte)
    ensures Xor16(Byte16(c, x), Byte16(d, y)) == Iterate(Bit16, Xor16(Xor16(c, d), WordDifference(x, y) << 8), 8)
  {
    var u, v := Word(x), Word(y);
    ByteIsWord(c, x, u);
    ByteIsWord(d, y, v);
    WordsDifference(c, d, u, v);
  }

  lemma ByteIsWord(c: bv16, x: byte, u: bv16)
    requires u == Word(x)
    ensures Byte16(c, x) == Iterate(Bit16, c ^ (u << 8), 8)
  {
  }

  lemma WordsDifference(c: bv16, d: bv16, u: bv16, v: bv16)
    ensures Xor16(Iterate(Bit16, c ^ (u << 8), 8), Iterate(Bit16, d ^ (v << 8), 8))
         == Iterate(Bit16, Xor16(Xor16(c, d), (u ^ v) << 8), 8)
  {
    XorShuffle(c, d, u, v);
    ShiftDifference(c ^ (u << 8), d ^ (v << 8));
  }

  lemma XorShuffle(a: bv16, b: bv16, c: bv16, d: bv16)
    ensures Xor16(a ^ (c << 8), b ^ (d << 8)) == Xor16(Xor16(a, b), (c ^ d) << 8)
  {
  }

  /** Different registers stay different while both absorb the same bytes. */
  lemma {:induction false} DifferenceSurvives(c: bv16, d: bv16, tail: seq<byte>)
    requires c != d
    ensures Fold16(c, tail) != Fold16(d, tail)
    decreases |tail|
  {
    if |tail| > 0 {
      var init, b := tail[..|tail| - 1], tail[|tail| - 1];
      DifferenceSurvives(c, d, init);
      SameByteKeepsDifference(Fold16(c, init), Fold16(d, init), b);
    }
  }

  lemma SameByteKeepsDifference(c: bv16, d: bv16, b: byte)
    requires c != d
    ensures Byte16(c, b) != Byte16(d, b)
  {
    if Byte16(c, b) == Byte16(d, b) {
      XorZero(Byte16(c, b), Byte16(d, b));
      ByteDifference(c, d, b, b);
      WordBounds(b, b);
      ShiftInvertible(Xor16(Xor16(c, d), 0 << 8));
      NoInputDifference(Xor16(c, d));
      XorZero(c, d);
    }
  }

  lemma NoInputDifference(c: bv16)
    ensures Xor16(c, 0 << 8) == c
  {
  }

  /** Two different byte pairs never leave one register in the same state. */
  lemma PairDetected(c: bv16, x1: byte, x2: byte, y1: byte, y2: byte)
    requires Byte16(Byte16(c, x1), x2) == Byte16(Byte16(c, y1), y2)
    ensures x1 == y1 && x2 == y2
  {
    var p, q := Byte16(c, x1), Byte16(c, y1);
    SecondByteCancels(p, q, x2, y2);
    FirstByteDifference(c, x1, y1);
    WordBounds(x1, y1);
    WordBounds(x2, y2);
    OneByteDoesNotCancel(WordDifference(x1, y1), WordDifference(x2, y2));
  }

  lemma SecondByteCancels(p: bv16, q: bv16, x: byte, y: byte)
    requires Byte16(p, x) == Byte16(q, y)
    ensures Xor16(p, q) == WordDifference(x, y) << 8
  {
    XorZero(Byte16(p, x), Byte16(q, y));
    ByteDifference(p, q, x, y);
    ShiftInvertible(Xor16(Xor16(p, q), WordDifference(x, y) << 8));
    XorZero(Xor16(p, q), WordDifference(x, y) << 8);
  }

  lemma FirstByteDifference(c: bv16, x: byte, y: byte)
    ensures Xor16(Byte16(c, x), Byte16(c, y)) == Iterate(Bit16, WordDifference(x, y) << 8, 8)
  {
    ByteDifference(c, c, x, y);
    SelfDifference(c, WordDifference(x, y) << 8);
  }

  lemma SelfDifference(c: bv16, a: bv16)
    ensures Xor16(Xor16(c, c), a) == a
  {
  }

  /** Eight shifts of one byte equal another byte only when both are zero: run the shifts backwards. */
  lemma OneByteDoesNotCancel(a: bv16, e: bv16)
    requires a <= 0xff && e <= 0xff
    requires Iterate(Bit16, a << 8, 8) == e << 8
    ensures a == 0 && e == 0
  {
    IterateUndo(a << 8, 8);
    ShiftLowByte(e);
    HighMeetsLow(a, e);
  }

  /** Damage confined to two neighbouring bytes always changes the checksum. */
  lemma AdjacentDamageDetected(c: bv16, head: seq<byte>, x1: byte, x2: byte, y1: byte, y2: byte, tail: seq<byte>)
    requires (x1, x2) != (y1, y2)
    ensures Fold16(c, head + [x1, x2] + tail) != Fold16(c, head + [y1, y2] + tail)
  {
    var r := Fold16(c, head);
    FoldConcat(c, head + [x1, x2], tail);
    FoldConcat(c, head + [y1, y2], tail);
    FoldConcat(c, head, [x1, x2]);
    FoldConcat(c, head, [y1, y2]);
    FoldTwo(r, x1, x2);
    FoldTwo(r, y1, y2);
    if Byte16(Byte16(r, x1), x2) == Byte16(Byte16(r, y1), y2) {
      PairDetected(r, x1, x2, y1, y2);
      assert false;
    }
    DifferenceSurvives(Byte16(Byte16(r, x1), x2), Byte16(Byte16(r, y1), y2), tail);
  }
}
