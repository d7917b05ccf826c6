/** What the checksums are: remainders of polynomials over the field of two elements, by long division.

    A polynomial is the sequence of its coefficients, the highest power first. */
module CrcPolynomial {
  import opened Casts
  import opened Crc
  import opened MarlinPacket

  type Poly = seq<bool>

  function Zeros(n: nat): (r: Poly)
    ensures |r| == n
  {
    seq(n, _ => false)
  }

  function Plus(a: Poly, b: Poly): (r: Poly)
    requires |a| == |b|
    ensures |r| == |a|
  {
    seq(|a|, i requires 0 <= i < |a| => a[i] != b[i])
  }

  /** The sum of x to the given powers. */
  function Powers(powers: set<nat>, degree: nat): (r: Poly)
    ensures |r| == degree + 1
  {
    seq(degree + 1, i requires 0 <= i <= degree => degree - i in powers)
  }

  function Times(q: Poly, g: Poly): (r: Poly)
    requires g != []
    ensures |r| == |q| + |g| - 1
    decreases q
  {
    if q == [] then Zeros(|g| - 1)
    else Plus(if q[0] then g + Zeros(|q| - 1) else Zeros(|q| + |g| - 1), [false] + Times(q[1..], g))
  }

  /** The remainder of p modulo g, which begins with a one: its highest coefficient is cancelled until it is shorter
      than g. */
  function Remainder(p: Poly, g: Poly): (r: Poly)
    requires g != [] && g[0] && |p| >= |g| - 1
    ensures |r| == |g| - 1
    decreases |p|
  {
    if |p| < |g| then p else Remainder(Cancel(p, g), g)
  }

  /** One step of long division. */
  function Cancel(p: Poly, g: Poly): (r: Poly)
    requires g != [] && |p| >= |g|
    ensures |r| == |p| - 1
  {
    (if p[0] then Plus(p[..|g|], g) else p[..|g|])[1..] + p[|g|..]
  }

  lemma CancelAt(p: Poly, g: Poly, i: nat)
    requires g != [] && |p| >= |g| && 0 < i < |p|
    ensures Cancel(p, g)[i - 1] == (p[i] != (p[0] && i < |g| && g[i]))
  {
  }

  lemma TimesAt(b: bool, q: Poly, g: Poly, i: nat)
    requires g != [] && i < |q| + |g|
    ensures Times([b] + q, g)[i] == ((b && i < |g| && g[i]) != (i > 0 && Times(q, g)[i - 1]))
  {
    var first, more := if b then g + Zeros(|q|) else Zeros(|q| + |g|), [false] + Times(q, g);
    TimesOneMore(b, q, g);
    assert Plus(first, more)[i] == (first[i] != more[i]);
  }

  lemma TimesOneMore(b: bool, q: Poly, g: Poly)
    requires g != []
    ensures Times([b] + q, g) == Plus(if b then g + Zeros(|q|) else Zeros(|q| + |g|), [false] + Times(q, g))
  {
    hide Plus, Zeros;
    assert ([b] + q)[1..] == q;
  }

  /** It is the remainder: p is a multiple of g and the remainder together. */
  lemma {:induction false} RemainderDivides(p: Poly, g: Poly) returns (q: Poly)
    requires g != [] && g[0] && |p| >= |g| - 1
    ensures |q| + |g| - 1 == |p| && p == Plus(Times(q, g), Zeros(|q|) + Remainder(p, g))
    decreases |p|
  {
    hide Cancel, Times;
    if |p| < |g| {
      q := [];
      TimesNothing(g);
    } else {
      var more := RemainderDivides(Cancel(p, g), g);
      var r := Remainder(p, g);
      q := [p[0]] + more;
      forall i | 0 <= i < |p| ensures p[i] == Plus(Times(q, g), Zeros(|q|) + r)[i] {
        TimesAt(p[0], more, g, i);
        if i > 0 {
          CancelAt(p, g, i);
          assert Cancel(p, g)[i - 1] == Plus(Times(more, g), Zeros(|more|) + r)[i - 1];
        }
      }
    }
  }

  lemma TimesNothing(g: Poly)
    requires g != []
    ensures Times([], g) == Zeros(|g| - 1)
  {
  }

  // ---- A register that is shifted ----

  /** The register times x, reduced. */
  function Shift(r: Poly, g: Poly): (s: Poly)
    requires g != [] && |r| == |g| - 1
    ensures |s| == |r|
  {
    Cancel(r + [false], g)
  }

  function Shifts(r: Poly, g: Poly, n: nat): (s: Poly)
    requires g != [] && |r| == |g| - 1
    ensures |s| == |r|
  {
    if n == 0 then r else Shift(Shifts(r, g, n - 1), g)
  }

  /** The register in front of zeros, with a text added that begins after s zeros. */
  function Loaded(r: Poly, zeros: nat, s: nat, text: Poly): (p: Poly)
    requires s + |text| == |r| + zeros
    ensures |p| == |r| + zeros
  {
    Plus(r + Zeros(zeros), Zeros(s) + text)
  }

  lemma LoadedAt(r: Poly, zeros: nat, s: nat, text: Poly, i: nat)
    requires s + |text| == |r| + zeros && i < |r| + zeros
    ensures Loaded(r, zeros, s, text)[i] == ((i < |r| && r[i]) != (i >= s && text[i - s]))
  {
  }

  lemma ShiftAt(r: Poly, g: Poly, i: nat)
    requires g != [] && |r| == |g| - 1 && i < |r|
    ensures Shift(r, g)[i] == ((i + 1 < |r| && r[i + 1]) != (r[0] && g[i + 1]))
  {
    CancelAt(r + [false], g, i + 1);
  }

  /** While zeros stand in front of the text, division shifts the register. */
  lemma CancelShifts(r: Poly, zeros: nat, s: nat, text: Poly, g: Poly)
    requires |g| > 1 && |r| == |g| - 1 && s + |text| == |r| + zeros && zeros > 0 && s > 0
    ensures Cancel(Loaded(r, zeros, s, text), g) == Loaded(Shift(r, g), zeros - 1, s - 1, text)
  {
    hide Loaded, Shift, Cancel;
    var p := Loaded(r, zeros, s, text);
    LoadedAt(r, zeros, s, text, 0);
    forall i | 0 <= i < |r| + zeros - 1
      ensures Cancel(p, g)[i] == Loaded(Shift(r, g), zeros - 1, s - 1, text)[i]
    {
      CancelAt(p, g, i + 1);
      LoadedAt(r, zeros, s, text, i + 1);
      LoadedAt(Shift(r, g), zeros - 1, s - 1, text, i);
      if i < |r| {
        ShiftAt(r, g, i);
      }
    }
  }

  lemma {:induction false} DivideShifts(r: Poly, zeros: nat, s: nat, text: Poly, g: Poly, n: nat)
    requires |g| > 1 && g[0] && |r| == |g| - 1 && s + |text| == |r| + zeros && n <= zeros && n <= s
    ensures Remainder(Loaded(r, zeros, s, text), g) == Remainder(Loaded(Shifts(r, g, n), zeros - n, s - n, text), g)
  {
    hide Loaded, Shift, Cancel;
    if n > 0 {
      DivideShifts(r, zeros, s, text, g, n - 1);
      CancelShifts(Shifts(r, g, n - 1), zeros - n + 1, s - n + 1, text, g);
    }
  }

  // ---- Words as polynomials ----

  predicate Top8(b: bv8) { b & 0x80 != 0 }

  predicate Top16(c: bv16) { c & 0x8000 != 0 }

  function Double8(b: bv8): bv8 { b << 1 }

  function Double16(c: bv16): bv16 { c << 1 }

  /** The first n bits of a word, the highest first. */
  function Bits8(b: bv8, n: nat): (r: Poly)
    ensures |r| == n
    decreases n
  {
    if n == 0 then [] else [Top8(b)] + Bits8(Double8(b), n - 1)
  }

  function Bits16(c: bv16, n: nat): (r: Poly)
    ensures |r| == n
    decreases n
  {
    if n == 0 then [] else [Top16(c)] + Bits16(Double16(c), n - 1)
  }

  /** The bytes of a message one after the other. */
  function Message(data: seq<byte>): (r: Poly)
    ensures |r| == 8 * |data|
  {
    if data == [] then [] else Bits8(Octet(data[0]), 8) + Message(data[1..])
  }

  /** x^16 + x^12 + x^5 + 1 */
  function Ccitt(): (g: Poly)
    ensures |g| == 17 && g[0]
  {
    Powers({16, 12, 5, 0}, 16)
  }

  /** x^8 + x^2 + x + 1 */
  function Atm(): (g: Poly)
    ensures |g| == 9 && g[0]
  {
    Powers({8, 2, 1, 0}, 8)
  }

  lemma PlusCons(a: bool, p: Poly, b: bool, q: Poly)
    requires |p| == |q|
    ensures Plus([a] + p, [b] + q) == [a != b] + Plus(p, q)
  {
  }

  lemma XorTop(x: bv16, y: bv16)
    ensures Top16(Xor16(x, y)) == (Top16(x) != Top16(y))
  {
  }

  lemma XorDouble(x: bv16, y: bv16)
    ensures Double16(Xor16(x, y)) == Xor16(Double16(x), Double16(y))
  {
  }

  lemma {:induction false} XorIsPlus(x: bv16, y: bv16, n: nat)
    ensures Bits16(Xor16(x, y), n) == Plus(Bits16(x, n), Bits16(y, n))
    decreases n
  {
    hide Top16, Double16, Xor16, Plus;
    if n > 0 {
      XorTop(x, y);
      XorDouble(x, y);
      XorIsPlus(Double16(x), Double16(y), n - 1);
      PlusCons(Top16(x), Bits16(Double16(x), n - 1), Top16(y), Bits16(Double16(y), n - 1));
    } else {
      assert Plus([], []) == [];
    }
  }

  function Xor8(x: bv8, y: bv8): bv8 { x ^ y }

  lemma XorTop8(x: bv8, y: bv8)
    ensures Top8(Xor8(x, y)) == (Top8(x) != Top8(y))
    ensures Double8(Xor8(x, y)) == Xor8(Double8(x), Double8(y))
  {
  }

  lemma {:induction false} XorIsPlus8(x: bv8, y: bv8, n: nat)
    ensures Bits8(Xor8(x, y), n) == Plus(Bits8(x, n), Bits8(y, n))
    decreases n
  {
    hide Top8, Double8, Xor8, Plus;
    if n > 0 {
      XorTop8(x, y);
      XorIsPlus8(Double8(x), Double8(y), n - 1);
      PlusCons(Top8(x), Bits8(Double8(x), n - 1), Top8(y), Bits8(Double8(y), n - 1));
    } else {
      assert Plus([], []) == [];
    }
  }

  lemma ZeroDoubled()
    ensures !Top16(0) && Double16(0) == 0 && !Top8(0) && Double8(0) == 0
  {
  }

  lemma {:induction false} NoBits(n: nat)
    ensures Bits16(0, n) == Zeros(n) && Bits8(0, n) == Zeros(n)
  {
    hide Top16, Double16, Top8, Double8;
    if n > 0 {
      NoBits(n - 1);
      ZeroDoubled();
    }
  }

  /** A byte in the upper half. */
  function Upper(b: bv8): bv16 { (b as bv16) << 8 }

  lemma ByteOnTop(b: bv8)
    ensures Top16(Upper(b)) == Top8(b) && Double16(Upper(b)) == Upper(Double8(b))
  {
  }

  lemma {:induction false} OnTop(b: bv8, n: nat)
    ensures Bits16(Upper(b), n) == Bits8(b, n)
    decreases n
  {
    hide Top16, Double16, Top8, Double8, Upper;
    if n > 0 {
      ByteOnTop(b);
      OnTop(Double8(b), n - 1);
    }
  }

  lemma {:induction false} BitAt16(c: bv16, n: nat, k: nat)
    requires k < n
    ensures Bits16(c, n)[k] == Top16(Iterate(Double16, c, k))
    decreases n
  {
    hide Top16, Double16;
    if k > 0 {
      BitAt16(Double16(c), n - 1, k - 1);
      IterateInnermost(Double16, c, k);
    }
  }

  lemma {:induction false} BitAt8(c: bv8, n: nat, k: nat)
    requires k < n
    ensures Bits8(c, n)[k] == Top8(Iterate(Double8, c, k))
    decreases n
  {
    hide Top8, Double8;
    if k > 0 {
      BitAt8(Double8(c), n - 1, k - 1);
      IterateInnermost(Double8, c, k);
    }
  }

  lemma Doubled8(c: bv8)
    ensures Iterate(Double8, c, 8) == 0
  {
    Iterate8(Double8, c);
  }

  lemma Doubled16(c: bv16)
    ensures Iterate(Double16, c, 16) == 0
  {
    Iterate8(Double16, c);
    var d := Iterate(Double16, c, 8);
    assert d == c << 8;
    Iterate8(Double16, d);
    IterateTwice(Double16, c, 8, 8);
  }

  lemma {:induction false} IterateTwice<T>(step: T -> T, x: T, m: nat, n: nat)
    ensures Iterate(step, x, m + n) == Iterate(step, Iterate(step, x, m), n)
  {
    if n > 0 {
      IterateTwice(step, x, m, n - 1);
    }
  }

  /** The bits of a doubled word are those behind the first, and a zero. */
  lemma DoubledBits16(c: bv16)
    ensures Bits16(Double16(c), 16) == Bits16(c, 16)[1..] + [false]
  {
    hide Top16, Double16, Iterate;
    ZeroDoubled();
    assert Bits16(c, 17)[1..] == Bits16(Double16(c), 16);
    forall k | 0 <= k < 16 ensures Bits16(Double16(c), 16)[k] == (Bits16(c, 16)[1..] + [false])[k] {
      BitAt16(c, 17, k + 1);
      if k < 15 {
        BitAt16(c, 16, k + 1);
      } else {
        Doubled16(c);
      }
    }
  }

  lemma DoubledBits8(c: bv8)
    ensures Bits8(Double8(c), 8) == Bits8(c, 8)[1..] + [false]
  {
    hide Top8, Double8, Iterate;
    ZeroDoubled();
    assert Bits8(c, 9)[1..] == Bits8(Double8(c), 8);
    forall k | 0 <= k < 8 ensures Bits8(Double8(c), 8)[k] == (Bits8(c, 8)[1..] + [false])[k] {
      BitAt8(c, 9, k + 1);
      if k < 7 {
        BitAt8(c, 8, k + 1);
      } else {
        Doubled8(c);
      }
    }
  }

  lemma Taps16()
    ensures [true] + Bits16(0x1021, 16) == Ccitt()
  {
    assert Bits16(0x8000, 1) == [true] + Bits16(0x0, 0);
    assert Bits16(0x4000, 2) == [false] + Bits16(0x8000, 1);
    assert Bits16(0x2000, 3) == [false] + Bits16(0x4000, 2);
    assert Bits16(0x1000, 4) == [false] + Bits16(0x2000, 3);
    assert Bits16(0x800, 5) == [false] + Bits16(0x1000, 4);
    assert Bits16(0x8400, 6) == [true] + Bits16(0x800, 5);
    assert Bits16(0x4200, 7) == [false] + Bits16(0x8400, 6);
    assert Bits16(0x2100, 8) == [false] + Bits16(0x4200, 7);
    assert Bits16(0x1080, 9) == [false] + Bits16(0x2100, 8);
    assert Bits16(0x840, 10) == [false] + Bits16(0x1080, 9);
    assert Bits16(0x420, 11) == [false] + Bits16(0x840, 10);
    assert Bits16(0x210, 12) == [false] + Bits16(0x420, 11);
    assert Bits16(0x8108, 13) == [true] + Bits16(0x210, 12);
    assert Bits16(0x4084, 14) == [false] + Bits16(0x8108, 13);
    assert Bits16(0x2042, 15) == [false] + Bits16(0x4084, 14);
    assert Bits16(0x1021, 16) == [false] + Bits16(0x2042, 15);
  }

  lemma Taps8()
    ensures [true] + Bits8(0x07, 8) == Atm()
  {
    assert Bits8(0x80, 1) == [true] + Bits8(0x0, 0);
    assert Bits8(0xc0, 2) == [true] + Bits8(0x80, 1);
    assert Bits8(0xe0, 3) == [true] + Bits8(0xc0, 2);
    assert Bits8(0x70, 4) == [false] + Bits8(0xe0, 3);
    assert Bits8(0x38, 5) == [false] + Bits8(0x70, 4);
    assert Bits8(0x1c, 6) == [false] + Bits8(0x38, 5);
    assert Bits8(0xe, 7) == [false] + Bits8(0x1c, 6);
    assert Bits8(0x7, 8) == [false] + Bits8(0xe, 7);
  }

  lemma Bit16Shifts(c: bv16)
    ensures Bits16(Bit16(c), 16) == Shift(Bits16(c, 16), Ccitt())
  {
    hide Shift, Ccitt, Top16, Double16, Xor16, Bits16;
    var r, s := Bits16(c, 16), Bits16(Bit16(c), 16);
    ShiftedIs16(c);
    XorIsPlus(Double16(c), if Top16(c) then 0x1021 else 0, 16);
    NoBits(16);
    Taps16();
    DoubledBits16(c);
    FirstBit16(c);
    forall i | 0 <= i < 16 ensures s[i] == Shift(r, Ccitt())[i] {
      ShiftAt(r, Ccitt(), i);
    }
  }

  lemma FirstBit16(c: bv16)
    ensures Bits16(c, 16)[0] == Top16(c)
  {
  }

  lemma ShiftedIs16(c: bv16)
    ensures Bit16(c) == Xor16(Double16(c), if Top16(c) then 0x1021 else 0)
  {
    if !Top16(c) {
      XorZeroStays(c << 1);
    }
  }

  lemma XorZeroStays(x: bv16)
    ensures Xor16(x, 0) == x
  {
  }

  lemma Bit8Shifts(c: bv8)
    ensures Bits8(Bit8(c), 8) == Shift(Bits8(c, 8), Atm())
  {
    hide Shift, Atm, Top8, Double8, Xor8, Bits8;
    var r, s := Bits8(c, 8), Bits8(Bit8(c), 8);
    ShiftedIs8(c);
    XorIsPlus8(Double8(c), if Top8(c) then 0x07 else 0, 8);
    NoBits(8);
    Taps8();
    DoubledBits8(c);
    FirstBit8(c);
    forall i | 0 <= i < 8 ensures s[i] == Shift(r, Atm())[i] {
      ShiftAt(r, Atm(), i);
    }
  }

  lemma FirstBit8(c: bv8)
    ensures Bits8(c, 8)[0] == Top8(c)
  {
  }

  lemma ShiftedIs8(c: bv8)
    ensures Bit8(c) == Xor8(Double8(c), if Top8(c) then 0x07 else 0)
  {
  }

  // ---- The checksums ----

  lemma {:induction false} ShiftsRegister16(c: bv16, n: nat)
    ensures Bits16(Iterate(Bit16, c, n), 16) == Shifts(Bits16(c, 16), Ccitt(), n)
  {
    hide Bit16, Bits16, Shift, Ccitt;
    if n > 0 {
      ShiftsRegister16(c, n - 1);
      Bit16Shifts(Iterate(Bit16, c, n - 1));
    }
  }

  lemma {:induction false} ShiftsRegister8(c: bv8, n: nat)
    ensures Bits8(Iterate(Bit8, c, n), 8) == Shifts(Bits8(c, 8), Atm(), n)
  {
    hide Bit8, Bits8, Shift, Atm;
    if n > 0 {
      ShiftsRegister8(c, n - 1);
      Bit8Shifts(Iterate(Bit8, c, n - 1));
    }
  }

  lemma HighIsUpper(c: bv16, b: byte)
    ensures c ^ High(b) == Xor16(c, Upper(Octet(b)))
  {
  }

  /** A message and what its checksum starts from, as one polynomial: the register is added to the front. */
  function Framed(register: Poly, data: seq<byte>): (p: Poly)
    ensures |p| == |register| + 8 * |data|
  {
    Loaded(register, 8 * |data|, 0, Message(data) + Zeros(|register|))
  }

  lemma FramedAbsorbs(r: Poly, a: Poly, b: Poly, data: seq<byte>)
    requires |r| == |a| >= 8 && data != [] && b == Bits8(Octet(data[0]), 8) && a == Plus(r, b + Zeros(|r| - 8))
    ensures Framed(r, data) == Loaded(a, 8 * |data|, 8, Message(data[1..]) + Zeros(|r|))
  {
    hide Loaded, Bits8;
    var text, rest := Message(data) + Zeros(|r|), Message(data[1..]) + Zeros(|r|);
    assert text == b + rest;
    forall i | 0 <= i < |r| + 8 * |data| ensures Framed(r, data)[i] == Loaded(a, 8 * |data|, 8, rest)[i] {
      LoadedAt(r, 8 * |data|, 0, text, i);
      LoadedAt(a, 8 * |data|, 8, rest, i);
    }
  }

  /** A checksum takes in the first byte first. */
  lemma {:induction false} FoldFront<T>(absorb: (T, byte) -> T, c: T, data: seq<byte>)
    requires data != []
    ensures Fold(absorb, c, data) == Fold(absorb, absorb(c, data[0]), data[1..])
    decreases |data|
  {
    var n := |data| - 1;
    if n == 0 {
      assert data[1..] == [] && data[..0] == [];
    } else {
      FoldFront(absorb, c, data[..n]);
      assert data[..n][1..] == data[1..][..n - 1];
    }
  }

  /** From any register c: what the loops leave is the remainder of the message times x^16, with c added in front. */
  lemma {:induction false} RegisterIsRemainder(c: bv16, data: seq<byte>)
    ensures Bits16(Fold16(c, data), 16) == Remainder(Framed(Bits16(c, 16), data), Ccitt())
    decreases |data|
  {
    hide Fold16, Bits16, Bits8, Byte16, Loaded, Ccitt, Shift, Cancel, Framed;
    var r := Bits16(c, 16);
    if data == [] {
      NothingFramed(c);
    } else {
      var b, rest := Bits8(Octet(data[0]), 8), data[1..];
      var a := Plus(r, b + Zeros(8));
      ByteLoads(c, data[0]);
      FramedAbsorbs(r, a, b, data);
      DivideShifts(a, 8 * |data|, 8, Message(rest) + Zeros(16), Ccitt(), 8);
      RegisterIsRemainder(Byte16(c, data[0]), rest);
      FramedIs(Bits16(Byte16(c, data[0]), 16), rest);
      FoldFront(Byte16, c, data);
      FoldIs16(c, data);
      FoldIs16(Byte16(c, data[0]), rest);
    }
  }

  lemma FoldIs16(c: bv16, data: seq<byte>)
    ensures Fold16(c, data) == Fold(Byte16, c, data)
  {
  }

  lemma FramedIs(r: Poly, data: seq<byte>)
    ensures Framed(r, data) == Loaded(r, 8 * |data|, 0, Message(data) + Zeros(|r|))
  {
  }

  lemma NothingFramed(c: bv16)
    ensures Bits16(Fold16(c, []), 16) == Remainder(Framed(Bits16(c, 16), []), Ccitt())
  {
    hide Bits16, Ccitt;
    assert Framed(Bits16(c, 16), []) == Bits16(c, 16);
  }

  lemma ByteLoads(c: bv16, b: byte)
    ensures Bits16(Byte16(c, b), 16) == Shifts(Plus(Bits16(c, 16), Bits8(Octet(b), 8) + Zeros(8)), Ccitt(), 8)
  {
    hide Bits16, Bits8, Ccitt, Shift, Plus, High;
    HighIsUpper(c, b);
    XorIsPlus(c, Upper(Octet(b)), 16);
    UpperBits(Octet(b));
    ShiftsRegister16(c ^ High(b), 8);
  }

  lemma UpperBits(b: bv8)
    ensures Bits16(Upper(b), 16) == Bits8(b, 8) + Zeros(8)
  {
    hide Upper;
    OnTop(b, 16);
    forall k | 0 <= k < 16 ensures Bits8(b, 16)[k] == (Bits8(b, 8) + Zeros(8))[k] {
      LongerByte(b, k);
    }
  }

  lemma LongerByte(b: bv8, k: nat)
    requires k < 16
    ensures Bits8(b, 16)[k] == (Bits8(b, 8) + Zeros(8))[k]
  {
    hide Top8, Double8, Iterate, Bits8;
    BitAt8(b, 16, k);
    if k < 8 {
      BitAt8(b, 8, k);
    } else {
      Doubled8(b);
      IterateTwice(Double8, b, 8, k - 8);
      StaysZero(k - 8);
      ZeroDoubled();
    }
  }

  lemma {:induction false} StaysZero(n: nat)
    ensures Iterate(Double8, 0, n) == 0
  {
    if n > 0 {
      StaysZero(n - 1);
      ZeroDoubled();
    }
  }

  lemma Preset()
    ensures Bits16(INITIAL, 16) == seq(16, _ => true)
  {
    assert Bits16(0x8000, 1) == [true] + Bits16(0x0, 0);
    assert Bits16(0xc000, 2) == [true] + Bits16(0x8000, 1);
    assert Bits16(0xe000, 3) == [true] + Bits16(0xc000, 2);
    assert Bits16(0xf000, 4) == [true] + Bits16(0xe000, 3);
    assert Bits16(0xf800, 5) == [true] + Bits16(0xf000, 4);
    assert Bits16(0xfc00, 6) == [true] + Bits16(0xf800, 5);
    assert Bits16(0xfe00, 7) == [true] + Bits16(0xfc00, 6);
    assert Bits16(0xff00, 8) == [true] + Bits16(0xfe00, 7);
    assert Bits16(0xff80, 9) == [true] + Bits16(0xff00, 8);
    assert Bits16(0xffc0, 10) == [true] + Bits16(0xff80, 9);
    assert Bits16(0xffe0, 11) == [true] + Bits16(0xffc0, 10);
    assert Bits16(0xfff0, 12) == [true] + Bits16(0xffe0, 11);
    assert Bits16(0xfff8, 13) == [true] + Bits16(0xfff0, 12);
    assert Bits16(0xfffc, 14) == [true] + Bits16(0xfff8, 13);
    assert Bits16(0xfffe, 15) == [true] + Bits16(0xfffc, 14);
    assert Bits16(0xffff, 16) == [true] + Bits16(0xfffe, 15);
  }

  /** The 16-bit checksum of a message is the remainder of the message times x^16, its first sixteen coefficients
      inverted, modulo x^16 + x^12 + x^5 + 1. */
  lemma Checksum16IsRemainder(data: seq<byte>)
    ensures Bits16(Fold16(INITIAL, data), 16) == Remainder(Framed(seq(16, _ => true), data), Powers({16, 12, 5, 0}, 16))
  {
    hide Bits16, Fold16, Framed;
    Preset();
    RegisterIsRemainder(INITIAL, data);
  }

  /** What is sent behind a message makes the whole a multiple of the generator. */
  lemma CheckedIsMultiple(body: seq<byte>)
    ensures Remainder(Framed(seq(16, _ => true), body + Check(body)), Powers({16, 12, 5, 0}, 16)) == seq(16, _ => false)
  {
    hide Bits16, Fold16, Framed, Check;
    ZeroResidue(body);
    Checksum16IsRemainder(body + Check(body));
    NoBits(16);
  }

  lemma ByteLoads8(c: bv8, b: byte)
    ensures Bits8(Byte8(c, b), 8) == Shifts(Plus(Bits8(c, 8), Bits8(Octet(b), 8)), Atm(), 8)
  {
    hide Bits8, Atm, Shift, Plus;
    assert c ^ Octet(b) == Xor8(c, Octet(b));
    XorIsPlus8(c, Octet(b), 8);
    ShiftsRegister8(c ^ Octet(b), 8);
  }

  lemma NothingFramed8(c: bv8)
    ensures Bits8(c, 8) == Remainder(Framed(Bits8(c, 8), []), Atm())
  {
    hide Bits8, Atm;
    assert Framed(Bits8(c, 8), []) == Bits8(c, 8);
  }

  lemma NothingBehind(b: Poly)
    ensures b + Zeros(0) == b
  {
  }

  lemma {:induction false} RegisterIsRemainder8(c: bv8, data: seq<byte>)
    ensures Bits8(Fold(Byte8, c, data), 8) == Remainder(Framed(Bits8(c, 8), data), Atm())
    decreases |data|
  {
    hide Fold, Bits8, Byte8, Loaded, Atm, Shift, Cancel, Framed;
    var r := Bits8(c, 8);
    if data == [] {
      NothingFolded(c);
      NothingFramed8(c);
    } else {
      var b, rest := Bits8(Octet(data[0]), 8), data[1..];
      var a := Plus(r, b);
      NothingBehind(b);
      ByteLoads8(c, data[0]);
      FramedAbsorbs(r, a, b, data);
      DivideShifts(a, 8 * |data|, 8, Message(rest) + Zeros(8), Atm(), 8);
      RegisterIsRemainder8(Byte8(c, data[0]), rest);
      FramedIs(Bits8(Byte8(c, data[0]), 8), rest);
      FoldFront(Byte8, c, data);
    }
  }

  lemma NothingFolded(c: bv8)
    ensures Fold(Byte8, c, []) == c
  {
  }

  /** The 8-bit checksum of a message is the remainder of the message times x^8 modulo x^8 + x^2 + x + 1. */
  lemma Checksum8IsRemainder(data: seq<byte>)
    ensures Bits8(Fold8(data), 8) == Remainder(Message(data) + Zeros(8), Powers({8, 2, 1, 0}, 8))
  {
    hide Bits8, Fold, Message;
    NoBits(8);
    RegisterIsRemainder8(0, data);
    var text := Message(data) + Zeros(8);
    assert Framed(Zeros(8), data) == text;
  }

  /** One byte taken in, worked out. */
  lemma ByteGives(c: bv16, b: bv8, d: bv16)
    requires Bit16(Bit16(Bit16(Bit16(Bit16(Bit16(Bit16(Bit16(c ^ ((b as bv16) << 8))))))))) == d
    ensures Byte16(c, b as int) == d
  {
    OctetOfValue(b);
    Iterate8(Bit16, c ^ ((b as bv16) << 8));
  }

  /** A sum taken in byte by byte, with every register in between. */
  lemma {:induction false} FoldGives(registers: seq<bv16>, data: seq<byte>)
    requires |registers| == |data| + 1
    requires forall i :: 0 <= i < |data| ==> Byte16(registers[i], data[i]) == registers[i + 1]
    ensures Fold16(registers[0], data) == registers[|data|]
    decreases |data|
  {
    hide Byte16;
    if data != [] {
      var n := |data| - 1;
      FoldGives(registers[..n + 1], data[..n]);
    }
  }

  lemma ChecksOfM105()
    ensures Fold16(0xffff, [0x00, 0x04, 0x4d, 0x31, 0x30, 0x35]) == 0x41fa
  {
    hide Byte16, Fold16;
    var body: seq<byte> := [0x00, 0x04, 0x4d, 0x31, 0x30, 0x35];
    var registers: seq<bv16> := [0xffff, 0xe1f0, 0x5d8b, 0x9931, 0x5e2, 0x84f6, 0x41fa];
    ByteGives(0xffff, 0x0, 0xe1f0);
    ByteGives(0xe1f0, 0x4, 0x5d8b);
    ByteGives(0x5d8b, 0x4d, 0x9931);
    ByteGives(0x9931, 0x31, 0x5e2);
    ByteGives(0x5e2, 0x30, 0x84f6);
    ByteGives(0x84f6, 0x35, 0x41fa);
    FoldGives(registers, body);
  }

  /** Packet 0 with the command M105, byte by byte. */
  lemma FrameOfM105()
    ensures Frame(0, "M105") == [0xff, 0xff, 0x00, 0x04, 0x4d, 0x31, 0x30, 0x35, 0x41, 0xfa]
  {
    hide Fold16;
    assert Body(0, "M105") == [0x00, 0x04, 0x4d, 0x31, 0x30, 0x35];
    ChecksOfM105();
    HalfWords(0x41fa);
    BytesOf41FA();
  }

  lemma BytesOf41FA()
    ensures UpperByte(0x41fa) == 0x41 && LowerByte(0x41fa) == 0xfa
  {
  }
}
