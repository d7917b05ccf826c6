/** SHA-256 computed piece by piece, against the one-shot definition of FIPS 180-4. */
module Sha256 {
  import opened Casts

  type Word = bv32
  type Octets = seq<bv8>

  // ---- Sections 4.1.2 and 4.2.2 ----

  function Rotr(x: Word, n: bv6): Word
    requires 0 < n < 32
  {
    (x >> n) | (x << (32 - n))
  }

  function Ch(x: Word, y: Word, z: Word): Word {
    (x & y) ^ (!x & z)
  }

  function Maj(x: Word, y: Word, z: Word): Word {
    (x & y) ^ (x & z) ^ (y & z)
  }

  function BigSigma0(x: Word): Word {
    Rotr(x, 2) ^ Rotr(x, 13) ^ Rotr(x, 22)
  }

  function BigSigma1(x: Word): Word {
    Rotr(x, 6) ^ Rotr(x, 11) ^ Rotr(x, 25)
  }

  function SmallSigma0(x: Word): Word {
    Rotr(x, 7) ^ Rotr(x, 18) ^ (x >> 3)
  }

  function SmallSigma1(x: Word): Word {
    Rotr(x, 17) ^ Rotr(x, 19) ^ (x >> 10)
  }

  /** The sixty-four constants, eight to a row. */
  const K: seq<seq<Word>> :=
    [ [0x428a2f98, 0x71374491, 0xb5c0fbcf, 0xe9b5dba5, 0x3956c25b, 0x59f111f1, 0x923f82a4, 0xab1c5ed5],
      [0xd807aa98, 0x12835b01, 0x243185be, 0x550c7dc3, 0x72be5d74, 0x80deb1fe, 0x9bdc06a7, 0xc19bf174],
      [0xe49b69c1, 0xefbe4786, 0x0fc19dc6, 0x240ca1cc, 0x2de92c6f, 0x4a7484aa, 0x5cb0a9dc, 0x76f988da],
      [0x983e5152, 0xa831c66d, 0xb00327c8, 0xbf597fc7, 0xc6e00bf3, 0xd5a79147, 0x06ca6351, 0x14292967],
      [0x27b70a85, 0x2e1b2138, 0x4d2c6dfc, 0x53380d13, 0x650a7354, 0x766a0abb, 0x81c2c92e, 0x92722c85],
      [0xa2bfe8a1, 0xa81a664b, 0xc24b8b70, 0xc76c51a3, 0xd192e819, 0xd6990624, 0xf40e3585, 0x106aa070],
      [0x19a4c116, 0x1e376c08, 0x2748774c, 0x34b0bcb5, 0x391c0cb3, 0x4ed8aa4a, 0x5b9cca4f, 0x682e6ff3],
      [0x748f82ee, 0x78a5636f, 0x84c87814, 0x8cc70208, 0x90befffa, 0xa4506ceb, 0xbef9a3f7, 0xc67178f2] ]

  /** The t-th constant. */
  function Constant(t: nat): Word {
    if t < 64 then K[t / 8][t % 8] else 0
  }

  const INITIAL: seq<Word> :=
    [ 0x6a09e667, 0xbb67ae85, 0x3c6ef372, 0xa54ff53a, 0x510e527f, 0x9b05688c, 0x1f83d9ab, 0x5be0cd19 ]

  // ---- Section 6.2.2: one block ----

  function LoadWord(b: Octets, i: nat): Word
    requires i + 4 <= |b|
  {
    ((b[i] as bv32) << 24) | ((b[i + 1] as bv32) << 16) | ((b[i + 2] as bv32) << 8) | (b[i + 3] as bv32)
  }

  function Sum(x: Word, y: Word): Word {
    x + y
  }

  function ScheduleStep(w2: Word, w7: Word, w15: Word, w16: Word): Word {
    Sum(Sum(Sum(SmallSigma1(w2), w7), SmallSigma0(w15)), w16)
  }

  function Schedule(block: Octets, t: nat): Word
    requires |block| == 64
  {
    if t < 16 then LoadWord(block, 4 * t)
    else ScheduleStep(Schedule(block, t - 2), Schedule(block, t - 7), Schedule(block, t - 15), Schedule(block, t - 16))
  }

  datatype Work = Work(a: Word, b: Word, c: Word, d: Word, e: Word, f: Word, g: Word, h: Word)

  function Round(v: Work, constant: Word, w: Word): Work {
    var t1 := Sum(Sum(Sum(Sum(v.h, BigSigma1(v.e)), Ch(v.e, v.f, v.g)), constant), w);
    var t2 := Sum(BigSigma0(v.a), Maj(v.a, v.b, v.c));
    Work(Sum(t1, t2), v.a, v.b, v.c, Sum(v.d, t1), v.e, v.f, v.g)
  }

  function Rounds(v: Work, block: Octets, t: nat): Work
    requires |block| == 64
  {
    if t == 0 then v else Round(Rounds(v, block, t - 1), Constant(t - 1), Schedule(block, t - 1))
  }

  function Unpacked(h: seq<Word>): Work
    requires |h| == 8
  {
    Work(h[0], h[1], h[2], h[3], h[4], h[5], h[6], h[7])
  }

  function Compress(h: seq<Word>, block: Octets): (r: seq<Word>)
    requires |h| == 8 && |block| == 64
    ensures |r| == 8
  {
    Added(h, Rounds(Unpacked(h), block, 64))
  }

  function Added(h: seq<Word>, v: Work): (r: seq<Word>)
    requires |h| == 8
    ensures |r| == 8
  {
    [ Sum(h[0], v.a), Sum(h[1], v.b), Sum(h[2], v.c), Sum(h[3], v.d),
      Sum(h[4], v.e), Sum(h[5], v.f), Sum(h[6], v.g), Sum(h[7], v.h) ]
  }

  /** The hash value after whole blocks. */
  function HashBlocks(data: Octets): (r: seq<Word>)
    requires |data| % 64 == 0
    ensures |r| == 8
  {
    if data == [] then INITIAL else Compress(HashBlocks(data[..|data| - 64]), data[|data| - 64..])
  }

  // ---- Section 5.1.1: padding ----

  function Power256(n: nat): (r: nat)
    ensures r > 0
  {
    if n == 0 then 1 else 256 * Power256(n - 1)
  }

  /** The number of bits, modulo 2^64, in eight bytes, the most significant first. */
  function LengthBytes(bits: nat): (r: Octets)
    ensures |r| == 8
  {
    seq(8, i requires 0 <= i < 8 => Octet(bits / Power256(7 - i) % 256))
  }

  const BITS := 0x1_0000_0000_0000_0000

  function ZeroCount(length: nat): nat {
    (119 - length % 64) % 64
  }

  /** The bit 1, the fewest zeros that leave eight bytes to a full block, and the length. */
  function Padding(length: nat): (r: Octets)
    ensures |r| == ZeroCount(length) + 9
  {
    [0x80] + seq(ZeroCount(length), _ => 0) + LengthBytes(length * 8 % BITS)
  }

  lemma FewestZeros(length: nat, zeros: nat)
    ensures (length + 1 + ZeroCount(length)) % 64 == 56
    ensures (length + 1 + zeros) % 64 == 56 ==> ZeroCount(length) <= zeros
  {
  }

  lemma PaddedIsWhole(message: Octets)
    ensures |message + Padding(|message|)| % 64 == 0
  {
    hide LengthBytes, ZeroCount;
    FewestZeros(|message|, 0);
    assert (|message| + ZeroCount(|message|) + 9) % 64 == 0;
  }

  function StoreWord(v: Word): Octets {
    [((v >> 24) & 0xff) as bv8, ((v >> 16) & 0xff) as bv8, ((v >> 8) & 0xff) as bv8, (v & 0xff) as bv8]
  }

  function StoreWords(h: seq<Word>): Octets {
    if h == [] then [] else StoreWords(h[..|h| - 1]) + StoreWord(h[|h| - 1])
  }

  function Digest(message: Octets): Octets {
    PaddedIsWhole(message);
    StoreWords(HashBlocks(message + Padding(|message|)))
  }

  lemma PadLength(length: nat, used: nat)
    requires used == length % 64
    ensures (if used < 56 then 56 - used else 120 - used) == 1 + ZeroCount(length)
  {
  }

  // ---- The running computation ----

  function Whole(n: nat): nat {
    n - n % 64
  }

  class Context {
    const state: array<Word>
    var bitCount: nat
    const buffer: array<bv8>
    var bufferLen: nat
    /** everything taken in so far, padding included */
    ghost var message: Octets

    /** The state covers the whole blocks of the message, the buffer the rest. */
    ghost predicate Absorbed()
      reads this, state, buffer
    {
      && state.Length == 8 && buffer.Length == 64 && bufferLen < 64
      && bufferLen == |message| % 64 && buffer[..bufferLen] == message[Whole(|message|)..]
      && state[..] == HashBlocks(message[..Whole(|message|)])
    }

    ghost predicate Valid()
      reads this, state, buffer
    {
      Absorbed() && bitCount == |message| * 8 % BITS
    }

    constructor ()
      ensures Valid() && message == [] && fresh(state) && fresh(buffer)
    {
      state := new Word[8](i requires 0 <= i < 8 => INITIAL[i]);
      buffer := new bv8[64];
      bitCount, bufferLen, message := 0, 0, [];
      new;
      assert state[..] == INITIAL;
    }

    method FillSchedule(w: array<Word>)
      requires buffer.Length == 64 == w.Length
      modifies w
      ensures forall j :: 0 <= j < 64 ==> w[j] == Schedule(buffer[..], j)
    {
      hide Sum, LoadWord, SmallSigma0, SmallSigma1, ScheduleStep;
      for i := 0 to 16
        invariant forall j :: 0 <= j < i ==> w[j] == Schedule(buffer[..], j)
      {
        w[i] := LoadWord(buffer[..], 4 * i);
      }
      for i := 16 to 64
        invariant forall j :: 0 <= j < i ==> w[j] == Schedule(buffer[..], j)
      {
        w[i] := ScheduleStep(w[i - 2], w[i - 7], w[i - 15], w[i - 16]);
      }
    }

    method Mix(w: array<Word>, ghost block: Octets) returns (v: Work)
      requires state.Length == 8 && w.Length == 64 == |block|
      requires forall j :: 0 <= j < 64 ==> w[j] == Schedule(block, j)
      ensures v == Rounds(Unpacked(state[..]), block, 64)
    {
      hide Round, Constant, Schedule;
      v := Work(state[0], state[1], state[2], state[3], state[4], state[5], state[6], state[7]);
      assert v == Unpacked(state[..]);
      for i := 0 to 64
        invariant v == Rounds(Unpacked(state[..]), block, i)
      {
        v := Round(v, Constant(i), w[i]);
      }
    }

    method AddIn(v: Work)
      requires state.Length == 8
      modifies state
      ensures state[..] == Added(old(state[..]), v)
    {
      hide Sum;
      state[0], state[1], state[2], state[3] :=
        Sum(state[0], v.a), Sum(state[1], v.b), Sum(state[2], v.c), Sum(state[3], v.d);
      state[4], state[5], state[6], state[7] :=
        Sum(state[4], v.e), Sum(state[5], v.f), Sum(state[6], v.g), Sum(state[7], v.h);
    }

    method Transform()
      requires state.Length == 8 && buffer.Length == 64
      modifies state
      ensures state[..] == Compress(old(state[..]), buffer[..])
    {
      hide Added, Rounds, Schedule;
      var w := new Word[64];
      FillSchedule(w);
      var v := Mix(w, buffer[..]);
      AddIn(v);
    }

    method CopyIn(data: Octets, i: nat, n: nat)
      requires i + n <= |data| && bufferLen + n <= buffer.Length
      modifies buffer
      ensures buffer[..bufferLen + n] == old(buffer[..bufferLen]) + data[i..i + n]
    {
      for j := 0 to n
        invariant buffer[..bufferLen + j] == old(buffer[..bufferLen]) + data[i..i + j]
      {
        buffer[bufferLen + j] := data[i + j];
      }
    }

    /** Takes in n bytes of data from offset i on, which fit into the buffer. */
    method Take(data: Octets, i: nat, n: nat)
      requires Absorbed() && 0 < n && i + n <= |data| && bufferLen + n <= 64
      modifies this`message, this`bufferLen, state, buffer
      ensures Absorbed() && message == old(message) + data[i..i + n]
    {
      hide HashBlocks, Compress;
      ghost var m, piece := message, data[i..i + n];
      CopyIn(data, i, n);
      bufferLen := bufferLen + n;
      message := m + piece;
      BlockGrows(m, piece);
      if bufferLen == 64 {
        assert buffer[..] == m[Whole(|m|)..] + piece;
        Transform();
        bufferLen := 0;
      }
    }

    lemma HasRoom()
      requires Absorbed()
      ensures bufferLen < 64
    {
    }

    method Absorb(data: Octets)
      requires Absorbed()
      modifies this`message, this`bufferLen, state, buffer
      ensures Absorbed() && message == old(message) + data
    {
      hide Absorbed;
      var i := 0;
      while i < |data|
        invariant 0 <= i <= |data| && Absorbed()
        invariant message == old(message) + data[..i]
      {
        HasRoom();
        var take := 64 - bufferLen;
        if take > |data| - i {
          take := |data| - i;
        }
        Take(data, i, take);
        assert data[..i] + data[i..i + take] == data[..i + take];
        i := i + take;
      }
      assert data[..|data|] == data;
    }

    method Update(data: Octets)
      requires Valid()
      modifies this, state, buffer
      ensures Valid() && message == old(message) + data
    {
      BitsAdd(|message| * 8, |data| * 8);
      bitCount := (bitCount + |data| * 8) % BITS;
      assert Absorbed();
      hide Absorbed;
      Absorb(data);
    }

    /** Pads the message and gives its digest. */
    method Final() returns (digest: Octets)
      requires Valid()
      modifies this, state, buffer
      ensures digest == Digest(old(message))
    {
      Pad();
      digest := StoreState();
    }

    /** The words of the state, most significant byte first. */
    method StoreState() returns (digest: Octets)
      requires state.Length == 8
      ensures digest == StoreWords(state[..])
    {
      hide StoreWord;
      digest := [];
      for i := 0 to 8
        invariant digest == StoreWords(state[..i])
      {
        assert state[..i + 1][..i] == state[..i];
        digest := digest + StoreWord(state[i]);
      }
      assert state[..8] == state[..];
    }

    method Pad()
      requires Valid()
      modifies this, state, buffer
      ensures Valid()
      ensures |old(message) + Padding(|old(message)|)| % 64 == 0
      ensures state[..] == HashBlocks(old(message) + Padding(|old(message)|))
    {
      hide HashBlocks, LengthBytes;
      ghost var m := message;
      var length := LengthBytes(bitCount);
      var padLength := if bufferLen < 56 then 56 - bufferLen else 120 - bufferLen;
      PadLength(|m|, bufferLen);
      var pad := [0x80] + seq(padLength - 1, _ => 0);
      Update(pad);
      Update(length);
      assert m + pad + length == m + Padding(|m|);
      PaddedIsWhole(m);
      assert message[..Whole(|message|)] == message;
    }
  }

  lemma BitsAdd(a: nat, b: nat)
    ensures (a % BITS + b) % BITS == (a + b) % BITS
  {
    var q := a / BITS;
    assert a == q * BITS + a % BITS;
    Cancel(a % BITS + b, q);
  }

  lemma {:induction false} Cancel(x: nat, q: nat)
    ensures (x + q * BITS) % BITS == x % BITS
  {
    if q > 0 {
      Cancel(x, q - 1);
      assert x + q * BITS == (x + (q - 1) * BITS) + BITS;
    }
  }

  function Joined(chunks: seq<Octets>): Octets {
    if chunks == [] then [] else Joined(chunks[..|chunks| - 1]) + chunks[|chunks| - 1]
  }

  /** However a message is cut into pieces, its digest is the one-shot one. */
  method HashChunks(chunks: seq<Octets>) returns (digest: Octets)
    ensures digest == Digest(Joined(chunks))
  {
    hide Digest, Context.Absorbed, Context.Valid;
    var context := new Context();
    assert chunks[..0] == [] && chunks[..|chunks|] == chunks;
    for i := 0 to |chunks|
      invariant context.Valid() && fresh(context) && fresh(context.state) && fresh(context.buffer)
      invariant context.message == Joined(chunks[..i])
    {
      assert chunks[..i + 1][..i] == chunks[..i];
      context.Update(chunks[i]);
    }
    digest := context.Final();
  }

  /** What one more piece, at most up to the end of a block, does to the whole blocks and the rest. */
  lemma BlockGrows(m: Octets, piece: Octets)
    requires 0 < |piece| && |m| % 64 + |piece| <= 64
    ensures var n := m + piece;
      if |m| % 64 + |piece| < 64 then
        Whole(|n|) == Whole(|m|) && |n| % 64 == |m| % 64 + |piece|
        && n[..Whole(|n|)] == m[..Whole(|m|)] && n[Whole(|n|)..] == m[Whole(|m|)..] + piece
      else
        Whole(|n|) == |n| && |n| % 64 == 0
        && HashBlocks(n[..|n|]) == Compress(HashBlocks(m[..Whole(|m|)]), m[Whole(|m|)..] + piece)
  {
    hide Compress, HashBlocks;
    var w, rest := Whole(|m|), m[Whole(|m|)..];
    assert m == m[..w] + rest;
    if |m| % 64 + |piece| == 64 {
      BlockEnds(m[..w], rest + piece);
      assert m[..w] + (rest + piece) == m + piece;
    } else {
      BlockGoesOn(m, piece);
    }
  }

  lemma BlockEnds(front: Octets, block: Octets)
    requires |front| % 64 == 0 && |block| == 64
    ensures var n := front + block;
      Whole(|n|) == |n| && |n| % 64 == 0 && HashBlocks(n[..|n|]) == Compress(HashBlocks(front), block)
  {
    hide Compress;
    var n := front + block;
    assert n[..|n|] == n && n[..|n| - 64] == front && n[|n| - 64..] == block;
  }

  lemma BlockGoesOn(m: Octets, piece: Octets)
    requires |m| % 64 + |piece| < 64
    ensures var n, w := m + piece, Whole(|m|);
      Whole(|n|) == w && |n| % 64 == |m| % 64 + |piece| && n[..w] == m[..w] && n[w..] == m[w..] + piece
  {
  }
}
