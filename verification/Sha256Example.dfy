/** The message "abc" worked out, round by round: its digest is the one of appendix B.1 of FIPS 180-2. */
module Sha256Example {
  import opened Casts
  import opened Sha256

  const ABC: Octets := [0x61, 0x62, 0x63]

  /** The message, the bit 1, zeros, and its length in bits. */
  const BLOCK: Octets := ABC + [0x80] + seq(52, _ => 0) + [0, 0, 0, 0, 0, 0, 0, 0x18]

  const DIGEST: seq<Octets> :=
    [ [0xba, 0x78, 0x16, 0xbf], [0x8f, 0x01, 0xcf, 0xea],
      [0x41, 0x41, 0x40, 0xde], [0x5d, 0xae, 0x22, 0x23],
      [0xb0, 0x03, 0x61, 0xa3], [0x96, 0x17, 0x7a, 0x9c],
      [0xb4, 0x10, 0xff, 0x61], [0xf2, 0x00, 0x15, 0xad] ]

  const LAST: seq<Word> :=
    [ 0xba7816bf, 0x8f01cfea, 0x414140de, 0x5dae2223, 0xb00361a3, 0x96177a9c, 0xb410ff61, 0xf20015ad ]

  // ---- The schedule ----

  lemma Words0()
    ensures Schedule(BLOCK, 0) == 0x61626380
    ensures Schedule(BLOCK, 1) == 0x00000000
    ensures Schedule(BLOCK, 2) == 0x00000000
    ensures Schedule(BLOCK, 3) == 0x00000000
    ensures Schedule(BLOCK, 4) == 0x00000000
    ensures Schedule(BLOCK, 5) == 0x00000000
    ensures Schedule(BLOCK, 6) == 0x00000000
    ensures Schedule(BLOCK, 7) == 0x00000000
  {
  }

  lemma Words8()
    ensures Schedule(BLOCK, 8) == 0x00000000
    ensures Schedule(BLOCK, 9) == 0x00000000
    ensures Schedule(BLOCK, 10) == 0x00000000
    ensures Schedule(BLOCK, 11) == 0x00000000
    ensures Schedule(BLOCK, 12) == 0x00000000
    ensures Schedule(BLOCK, 13) == 0x00000000
    ensures Schedule(BLOCK, 14) == 0x00000000
    ensures Schedule(BLOCK, 15) == 0x00000018
  {
  }

  lemma NextWord(t: nat, w2: Word, w7: Word, w15: Word, w16: Word, w: Word)
    requires 16 <= t < 64 && ScheduleStep(w2, w7, w15, w16) == w
    requires Schedule(BLOCK, t - 2) == w2 && Schedule(BLOCK, t - 7) == w7
    requires Schedule(BLOCK, t - 15) == w15 && Schedule(BLOCK, t - 16) == w16
    ensures Schedule(BLOCK, t) == w
  {
    hide ScheduleStep;
  }

  lemma Words16()
    ensures Schedule(BLOCK, 16) == 0x61626380
    ensures Schedule(BLOCK, 17) == 0x000f0000
    ensures Schedule(BLOCK, 18) == 0x7da86405
    ensures Schedule(BLOCK, 19) == 0x600003c6
    ensures Schedule(BLOCK, 20) == 0x3e9d7b78
    ensures Schedule(BLOCK, 21) == 0x0183fc00
    ensures Schedule(BLOCK, 22) == 0x12dcbfdb
    ensures Schedule(BLOCK, 23) == 0xe2e2c38e
  {
    hide Schedule;
    Words0();
    Words8();
    NextWord(16, 0x00000000, 0x00000000, 0x00000000, 0x61626380, 0x61626380);
    NextWord(17, 0x00000018, 0x00000000, 0x00000000, 0x00000000, 0x000f0000);
    NextWord(18, 0x61626380, 0x00000000, 0x00000000, 0x00000000, 0x7da86405);
    NextWord(19, 0x000f0000, 0x00000000, 0x00000000, 0x00000000, 0x600003c6);
    NextWord(20, 0x7da86405, 0x00000000, 0x00000000, 0x00000000, 0x3e9d7b78);
    NextWord(21, 0x600003c6, 0x00000000, 0x00000000, 0x00000000, 0x0183fc00);
    NextWord(22, 0x3e9d7b78, 0x00000018, 0x00000000, 0x00000000, 0x12dcbfdb);
    NextWord(23, 0x0183fc00, 0x61626380, 0x00000000, 0x00000000, 0xe2e2c38e);
  }

  lemma Words24()
    ensures Schedule(BLOCK, 24) == 0xc8215c1a
    ensures Schedule(BLOCK, 25) == 0xb73679a2
    ensures Schedule(BLOCK, 26) == 0xe5bc3909
    ensures Schedule(BLOCK, 27) == 0x32663c5b
    ensures Schedule(BLOCK, 28) == 0x9d209d67
    ensures Schedule(BLOCK, 29) == 0xec8726cb
    ensures Schedule(BLOCK, 30) == 0x702138a4
    ensures Schedule(BLOCK, 31) == 0xd3b7973b
  {
    hide Schedule;
    Words8();
    Words16();
    NextWord(24, 0x12dcbfdb, 0x000f0000, 0x00000000, 0x00000000, 0xc8215c1a);
    NextWord(25, 0xe2e2c38e, 0x7da86405, 0x00000000, 0x00000000, 0xb73679a2);
    NextWord(26, 0xc8215c1a, 0x600003c6, 0x00000000, 0x00000000, 0xe5bc3909);
    NextWord(27, 0xb73679a2, 0x3e9d7b78, 0x00000000, 0x00000000, 0x32663c5b);
    NextWord(28, 0xe5bc3909, 0x0183fc00, 0x00000000, 0x00000000, 0x9d209d67);
    NextWord(29, 0x32663c5b, 0x12dcbfdb, 0x00000000, 0x00000000, 0xec8726cb);
    NextWord(30, 0x9d209d67, 0xe2e2c38e, 0x00000018, 0x00000000, 0x702138a4);
    NextWord(31, 0xec8726cb, 0xc8215c1a, 0x61626380, 0x00000018, 0xd3b7973b);
  }

  lemma Words32()
    ensures Schedule(BLOCK, 32) == 0x93f5997f
    ensures Schedule(BLOCK, 33) == 0x3b68ba73
    ensures Schedule(BLOCK, 34) == 0xaff4ffc1
    ensures Schedule(BLOCK, 35) == 0xf10a5c62
    ensures Schedule(BLOCK, 36) == 0x0a8b3996
    ensures Schedule(BLOCK, 37) == 0x72af830a
    ensures Schedule(BLOCK, 38) == 0x9409e33e
    ensures Schedule(BLOCK, 39) == 0x24641522
  {
    hide Schedule;
    Words16();
    Words24();
    NextWord(32, 0x702138a4, 0xb73679a2, 0x000f0000, 0x61626380, 0x93f5997f);
    NextWord(33, 0xd3b7973b, 0xe5bc3909, 0x7da86405, 0x000f0000, 0x3b68ba73);
    NextWord(34, 0x93f5997f, 0x32663c5b, 0x600003c6, 0x7da86405, 0xaff4ffc1);
    NextWord(35, 0x3b68ba73, 0x9d209d67, 0x3e9d7b78, 0x600003c6, 0xf10a5c62);
    NextWord(36, 0xaff4ffc1, 0xec8726cb, 0x0183fc00, 0x3e9d7b78, 0x0a8b3996);
    NextWord(37, 0xf10a5c62, 0x702138a4, 0x12dcbfdb, 0x0183fc00, 0x72af830a);
    NextWord(38, 0x0a8b3996, 0xd3b7973b, 0xe2e2c38e, 0x12dcbfdb, 0x9409e33e);
    NextWord(39, 0x72af830a, 0x93f5997f, 0xc8215c1a, 0xe2e2c38e, 0x24641522);
  }

  lemma Words40()
    ensures Schedule(BLOCK, 40) == 0x9f47bf94
    ensures Schedule(BLOCK, 41) == 0xf0a64f5a
    ensures Schedule(BLOCK, 42) == 0x3e246a79
    ensures Schedule(BLOCK, 43) == 0x27333ba3
    ensures Schedule(BLOCK, 44) == 0x0c4763f2
    ensures Schedule(BLOCK, 45) == 0x840abf27
    ensures Schedule(BLOCK, 46) == 0x7a290d5d
    ensures Schedule(BLOCK, 47) == 0x065c43da
  {
    hide Schedule;
    Words24();
    Words32();
    NextWord(40, 0x9409e33e, 0x3b68ba73, 0xb73679a2, 0xc8215c1a, 0x9f47bf94);
    NextWord(41, 0x24641522, 0xaff4ffc1, 0xe5bc3909, 0xb73679a2, 0xf0a64f5a);
    NextWord(42, 0x9f47bf94, 0xf10a5c62, 0x32663c5b, 0xe5bc3909, 0x3e246a79);
    NextWord(43, 0xf0a64f5a, 0x0a8b3996, 0x9d209d67, 0x32663c5b, 0x27333ba3);
    NextWord(44, 0x3e246a79, 0x72af830a, 0xec8726cb, 0x9d209d67, 0x0c4763f2);
    NextWord(45, 0x27333ba3, 0x9409e33e, 0x702138a4, 0xec8726cb, 0x840abf27);
    NextWord(46, 0x0c4763f2, 0x24641522, 0xd3b7973b, 0x702138a4, 0x7a290d5d);
    NextWord(47, 0x840abf27, 0x9f47bf94, 0x93f5997f, 0xd3b7973b, 0x065c43da);
  }

  lemma Words48()
    ensures Schedule(BLOCK, 48) == 0xfb3e89cb
    ensures Schedule(BLOCK, 49) == 0xcc7617db
    ensures Schedule(BLOCK, 50) == 0xb9e66c34
    ensures Schedule(BLOCK, 51) == 0xa9993667
    ensures Schedule(BLOCK, 52) == 0x84badedd
    ensures Schedule(BLOCK, 53) == 0xc21462bc
    ensures Schedule(BLOCK, 54) == 0x1487472c
    ensures Schedule(BLOCK, 55) == 0xb20f7a99
  {
    hide Schedule;
    Words32();
    Words40();
    NextWord(48, 0x7a290d5d, 0xf0a64f5a, 0x3b68ba73, 0x93f5997f, 0xfb3e89cb);
    NextWord(49, 0x065c43da, 0x3e246a79, 0xaff4ffc1, 0x3b68ba73, 0xcc7617db);
    NextWord(50, 0xfb3e89cb, 0x27333ba3, 0xf10a5c62, 0xaff4ffc1, 0xb9e66c34);
    NextWord(51, 0xcc7617db, 0x0c4763f2, 0x0a8b3996, 0xf10a5c62, 0xa9993667);
    NextWord(52, 0xb9e66c34, 0x840abf27, 0x72af830a, 0x0a8b3996, 0x84badedd);
    NextWord(53, 0xa9993667, 0x7a290d5d, 0x9409e33e, 0x72af830a, 0xc21462bc);
    NextWord(54, 0x84badedd, 0x065c43da, 0x24641522, 0x9409e33e, 0x1487472c);
    NextWord(55, 0xc21462bc, 0xfb3e89cb, 0x9f47bf94, 0x24641522, 0xb20f7a99);
  }

  lemma Words56()
    ensures Schedule(BLOCK, 56) == 0xef57b9cd
    ensures Schedule(BLOCK, 57) == 0xebe6b238
    ensures Schedule(BLOCK, 58) == 0x9fe3095e
    ensures Schedule(BLOCK, 59) == 0x78bc8d4b
    ensures Schedule(BLOCK, 60) == 0xa43fcf15
    ensures Schedule(BLOCK, 61) == 0x668b2ff8
    ensures Schedule(BLOCK, 62) == 0xeeaba2cc
    ensures Schedule(BLOCK, 63) == 0x12b1edeb
  {
    hide Schedule;
    Words40();
    Words48();
    NextWord(56, 0x1487472c, 0xcc7617db, 0xf0a64f5a, 0x9f47bf94, 0xef57b9cd);
    NextWord(57, 0xb20f7a99, 0xb9e66c34, 0x3e246a79, 0xf0a64f5a, 0xebe6b238);
    NextWord(58, 0xef57b9cd, 0xa9993667, 0x27333ba3, 0x3e246a79, 0x9fe3095e);
    NextWord(59, 0xebe6b238, 0x84badedd, 0x0c4763f2, 0x27333ba3, 0x78bc8d4b);
    NextWord(60, 0x9fe3095e, 0xc21462bc, 0x840abf27, 0x0c4763f2, 0xa43fcf15);
    NextWord(61, 0x78bc8d4b, 0x1487472c, 0x7a290d5d, 0x840abf27, 0x668b2ff8);
    NextWord(62, 0xa43fcf15, 0xb20f7a99, 0x065c43da, 0x7a290d5d, 0xeeaba2cc);
    NextWord(63, 0x668b2ff8, 0xef57b9cd, 0xfb3e89cb, 0x065c43da, 0x12b1edeb);
  }

  // ---- The rounds ----

  /** The registers before the first round and after every eighth one. */
  const START :=
    Work(0x6a09e667, 0xbb67ae85, 0x3c6ef372, 0xa54ff53a, 0x510e527f, 0x9b05688c, 0x1f83d9ab, 0x5be0cd19)

  const AFTER_8 :=
    Work(0x85a07b5f, 0xe5030380, 0x2b4209f5, 0x04409a6a, 0x0c657a79, 0x9b27a401, 0x714260ad, 0x43ada245)

  const AFTER_16 :=
    Work(0xb0fa238e, 0xc0645fde, 0xd932eb16, 0x87912990, 0x07590dcd, 0x0b92f20c, 0x745a48de, 0x1e578218)

  const AFTER_24 :=
    Work(0xc5d53d8d, 0xa7a3623f, 0xc2606d6d, 0x9dc68b63, 0xaa47c347, 0x49f5114a, 0xe1257970, 0x8ada8930)

  const AFTER_32 :=
    Work(0x73b33bf5, 0xea992a22, 0xa0060b30, 0x363482c9, 0xba591112, 0x0109ab3a, 0xade79437, 0x6112a3b7)

  const AFTER_40 :=
    Work(0x79ea687a, 0x6dc57a8a, 0x34df1604, 0x41a65cb1, 0x1efbc0a0, 0xf0781bc8, 0xa507a53d, 0x0772a26b)

  const AFTER_48 :=
    Work(0x4172328d, 0xa14c14b0, 0x72ab4b91, 0x26628815, 0xfecf0bc6, 0xd57b94a9, 0xb7755da1, 0xa80f11f0)

  const AFTER_56 :=
    Work(0x38cc9913, 0x3ec45cdb, 0xf5702fdb, 0x101fd28f, 0x54cb266b, 0xe50e1b4f, 0x9f4787c3, 0x529e7d00)

  const AFTER_64 :=
    Work(0x506e3058, 0xd39a2165, 0x04d24d6c, 0xb85e2ce9, 0x5ef50f24, 0xfb121210, 0x948d25b6, 0x961f4894)

  lemma Turn(t: nat, v: Work, k: Word, w: Word, a: Word, e: Word) returns (u: Work)
    requires Rounds(START, BLOCK, t) == v && Constant(t) == k && Schedule(BLOCK, t) == w
    requires Round(v, k, w) == Work(a, v.a, v.b, v.c, e, v.e, v.f, v.g)
    ensures u == Work(a, v.a, v.b, v.c, e, v.e, v.f, v.g) && Rounds(START, BLOCK, t + 1) == u
  {
    hide Round, Schedule, Constant;
    u := Work(a, v.a, v.b, v.c, e, v.e, v.f, v.g);
  }

  lemma Constants0()
    ensures Constant(0) == 0x428a2f98
    ensures Constant(1) == 0x71374491
    ensures Constant(2) == 0xb5c0fbcf
    ensures Constant(3) == 0xe9b5dba5
    ensures Constant(4) == 0x3956c25b
    ensures Constant(5) == 0x59f111f1
    ensures Constant(6) == 0x923f82a4
    ensures Constant(7) == 0xab1c5ed5
  {
  }

  lemma Turns0()
    requires Rounds(START, BLOCK, 0) == START
    ensures Rounds(START, BLOCK, 8) == AFTER_8
  {
    hide Rounds, Schedule, Constant;
    Constants0();
    Words0();
    var v := START;
    v := Turn(0, v, 0x428a2f98, 0x61626380, 0x5d6aebcd, 0xfa2a4622);
    v := Turn(1, v, 0x71374491, 0x00000000, 0x5a6ad9ad, 0x78ce7989);
    v := Turn(2, v, 0xb5c0fbcf, 0x00000000, 0xc8c347a7, 0xf92939eb);
    v := Turn(3, v, 0xe9b5dba5, 0x00000000, 0xd550f666, 0x24e00850);
    v := Turn(4, v, 0x3956c25b, 0x00000000, 0x04409a6a, 0x43ada245);
    v := Turn(5, v, 0x59f111f1, 0x00000000, 0x2b4209f5, 0x714260ad);
    v := Turn(6, v, 0x923f82a4, 0x00000000, 0xe5030380, 0x9b27a401);
    v := Turn(7, v, 0xab1c5ed5, 0x00000000, 0x85a07b5f, 0x0c657a79);
  }

  lemma Constants8()
    ensures Constant(8) == 0xd807aa98
    ensures Constant(9) == 0x12835b01
    ensures Constant(10) == 0x243185be
    ensures Constant(11) == 0x550c7dc3
    ensures Constant(12) == 0x72be5d74
    ensures Constant(13) == 0x80deb1fe
    ensures Constant(14) == 0x9bdc06a7
    ensures Constant(15) == 0xc19bf174
  {
  }

  lemma Turns8()
    requires Rounds(START, BLOCK, 8) == AFTER_8
    ensures Rounds(START, BLOCK, 16) == AFTER_16
  {
    hide Rounds, Schedule, Constant;
    Constants8();
    Words8();
    var v := AFTER_8;
    v := Turn(8, v, 0xd807aa98, 0x00000000, 0x8e04ecb9, 0x32ca2d8c);
    v := Turn(9, v, 0x12835b01, 0x00000000, 0x8c87346b, 0x1cc92596);
    v := Turn(10, v, 0x243185be, 0x00000000, 0x4798a3f4, 0x436b23e8);
    v := Turn(11, v, 0x550c7dc3, 0x00000000, 0xf71fc5a9, 0x816fd6e9);
    v := Turn(12, v, 0x72be5d74, 0x00000000, 0x87912990, 0x1e578218);
    v := Turn(13, v, 0x80deb1fe, 0x00000000, 0xd932eb16, 0x745a48de);
    v := Turn(14, v, 0x9bdc06a7, 0x00000000, 0xc0645fde, 0x0b92f20c);
    v := Turn(15, v, 0xc19bf174, 0x00000018, 0xb0fa238e, 0x07590dcd);
  }

  lemma Constants16()
    ensures Constant(16) == 0xe49b69c1
    ensures Constant(17) == 0xefbe4786
    ensures Constant(18) == 0x0fc19dc6
    ensures Constant(19) == 0x240ca1cc
    ensures Constant(20) == 0x2de92c6f
    ensures Constant(21) == 0x4a7484aa
    ensures Constant(22) == 0x5cb0a9dc
    ensures Constant(23) == 0x76f988da
  {
  }

  lemma Turns16()
    requires Rounds(START, BLOCK, 16) == AFTER_16
    ensures Rounds(START, BLOCK, 24) == AFTER_24
  {
    hide Rounds, Schedule, Constant;
    Constants16();
    Words16();
    var v := AFTER_16;
    v := Turn(16, v, 0xe49b69c1, 0x61626380, 0x21da9a9b, 0x8034229c);
    v := Turn(17, v, 0xefbe4786, 0x000f0000, 0xc2fbd9d1, 0x846ee454);
    v := Turn(18, v, 0x0fc19dc6, 0x7da86405, 0xfe777bbf, 0xcc899961);
    v := Turn(19, v, 0x240ca1cc, 0x600003c6, 0xe1f20c33, 0xb0638179);
    v := Turn(20, v, 0x2de92c6f, 0x3e9d7b78, 0x9dc68b63, 0x8ada8930);
    v := Turn(21, v, 0x4a7484aa, 0x0183fc00, 0xc2606d6d, 0xe1257970);
    v := Turn(22, v, 0x5cb0a9dc, 0x12dcbfdb, 0xa7a3623f, 0x49f5114a);
    v := Turn(23, v, 0x76f988da, 0xe2e2c38e, 0xc5d53d8d, 0xaa47c347);
  }

  lemma Constants24()
    ensures Constant(24) == 0x983e5152
    ensures Constant(25) == 0xa831c66d
    ensures Constant(26) == 0xb00327c8
    ensures Constant(27) == 0xbf597fc7
    ensures Constant(28) == 0xc6e00bf3
    ensures Constant(29) == 0xd5a79147
    ensures Constant(30) == 0x06ca6351
    ensures Constant(31) == 0x14292967
  {
  }

  lemma Turns24()
    requires Rounds(START, BLOCK, 24) == AFTER_24
    ensures Rounds(START, BLOCK, 32) == AFTER_32
  {
    hide Rounds, Schedule, Constant;
    Constants24();
    Words24();
    var v := AFTER_24;
    v := Turn(24, v, 0x983e5152, 0xc8215c1a, 0x1c2c2838, 0x2823ef91);
    v := Turn(25, v, 0xa831c66d, 0xb73679a2, 0xcde8037d, 0x14383d8e);
    v := Turn(26, v, 0xb00327c8, 0xe5bc3909, 0xb62ec4bc, 0xc74c6516);
    v := Turn(27, v, 0xbf597fc7, 0x32663c5b, 0x77d37528, 0xedffbff8);
    v := Turn(28, v, 0xc6e00bf3, 0x9d209d67, 0x363482c9, 0x6112a3b7);
    v := Turn(29, v, 0xd5a79147, 0xec8726cb, 0xa0060b30, 0xade79437);
    v := Turn(30, v, 0x06ca6351, 0x702138a4, 0xea992a22, 0x0109ab3a);
    v := Turn(31, v, 0x14292967, 0xd3b7973b, 0x73b33bf5, 0xba591112);
  }

  lemma Constants32()
    ensures Constant(32) == 0x27b70a85
    ensures Constant(33) == 0x2e1b2138
    ensures Constant(34) == 0x4d2c6dfc
    ensures Constant(35) == 0x53380d13
    ensures Constant(36) == 0x650a7354
    ensures Constant(37) == 0x766a0abb
    ensures Constant(38) == 0x81c2c92e
    ensures Constant(39) == 0x92722c85
  {
  }

  lemma Turns32()
    requires Rounds(START, BLOCK, 32) == AFTER_32
    ensures Rounds(START, BLOCK, 40) == AFTER_40
  {
    hide Rounds, Schedule, Constant;
    Constants32();
    Words32();
    var v := AFTER_32;
    v := Turn(32, v, 0x27b70a85, 0x93f5997f, 0x98e12507, 0x9cd9f5f6);
    v := Turn(33, v, 0x2e1b2138, 0x3b68ba73, 0xfe604df5, 0x59249dd3);
    v := Turn(34, v, 0x4d2c6dfc, 0xaff4ffc1, 0xa9a7738c, 0x085f3833);
    v := Turn(35, v, 0x53380d13, 0xf10a5c62, 0x65a0cfe4, 0xf4b002d6);
    v := Turn(36, v, 0x650a7354, 0x0a8b3996, 0x41a65cb1, 0x0772a26b);
    v := Turn(37, v, 0x766a0abb, 0x72af830a, 0x34df1604, 0xa507a53d);
    v := Turn(38, v, 0x81c2c92e, 0x9409e33e, 0x6dc57a8a, 0xf0781bc8);
    v := Turn(39, v, 0x92722c85, 0x24641522, 0x79ea687a, 0x1efbc0a0);
  }

  lemma Constants40()
    ensures Constant(40) == 0xa2bfe8a1
    ensures Constant(41) == 0xa81a664b
    ensures Constant(42) == 0xc24b8b70
    ensures Constant(43) == 0xc76c51a3
    ensures Constant(44) == 0xd192e819
    ensures Constant(45) == 0xd6990624
    ensures Constant(46) == 0xf40e3585
    ensures Constant(47) == 0x106aa070
  {
  }

  lemma Turns40()
    requires Rounds(START, BLOCK, 40) == AFTER_40
    ensures Rounds(START, BLOCK, 48) == AFTER_48
  {
    hide Rounds, Schedule, Constant;
    Constants40();
    Words40();
    var v := AFTER_40;
    v := Turn(40, v, 0xa2bfe8a1, 0x9f47bf94, 0xd6670766, 0x26352d63);
    v := Turn(41, v, 0xa81a664b, 0xf0a64f5a, 0xdf46652f, 0x838b2711);
    v := Turn(42, v, 0xc24b8b70, 0x3e246a79, 0x17aa0dfe, 0xdecd4715);
    v := Turn(43, v, 0xc76c51a3, 0x27333ba3, 0x9d4baf93, 0xfda24c2e);
    v := Turn(44, v, 0xd192e819, 0x0c4763f2, 0x26628815, 0xa80f11f0);
    v := Turn(45, v, 0xd6990624, 0x840abf27, 0x72ab4b91, 0xb7755da1);
    v := Turn(46, v, 0xf40e3585, 0x7a290d5d, 0xa14c14b0, 0xd57b94a9);
    v := Turn(47, v, 0x106aa070, 0x065c43da, 0x4172328d, 0xfecf0bc6);
  }

  lemma Constants48()
    ensures Constant(48) == 0x19a4c116
    ensures Constant(49) == 0x1e376c08
    ensures Constant(50) == 0x2748774c
    ensures Constant(51) == 0x34b0bcb5
    ensures Constant(52) == 0x391c0cb3
    ensures Constant(53) == 0x4ed8aa4a
    ensures Constant(54) == 0x5b9cca4f
    ensures Constant(55) == 0x682e6ff3
  {
  }

  lemma Turns48()
    requires Rounds(START, BLOCK, 48) == AFTER_48
    ensures Rounds(START, BLOCK, 56) == AFTER_56
  {
    hide Rounds, Schedule, Constant;
    Constants48();
    Words48();
    var v := AFTER_48;
    v := Turn(48, v, 0x19a4c116, 0xfb3e89cb, 0x05757ceb, 0xbd714038);
    v := Turn(49, v, 0x1e376c08, 0xcc7617db, 0xf11bfaa8, 0x6e5c390c);
    v := Turn(50, v, 0x2748774c, 0xb9e66c34, 0x7a0508a1, 0x52f1ccf7);
    v := Turn(51, v, 0x34b0bcb5, 0xa9993667, 0x886e7a22, 0x49231c1e);
    v := Turn(52, v, 0x391c0cb3, 0x84badedd, 0x101fd28f, 0x529e7d00);
    v := Turn(53, v, 0x4ed8aa4a, 0xc21462bc, 0xf5702fdb, 0x9f4787c3);
    v := Turn(54, v, 0x5b9cca4f, 0x1487472c, 0x3ec45cdb, 0xe50e1b4f);
    v := Turn(55, v, 0x682e6ff3, 0xb20f7a99, 0x38cc9913, 0x54cb266b);
  }

  lemma Constants56()
    ensures Constant(56) == 0x748f82ee
    ensures Constant(57) == 0x78a5636f
    ensures Constant(58) == 0x84c87814
    ensures Constant(59) == 0x8cc70208
    ensures Constant(60) == 0x90befffa
    ensures Constant(61) == 0xa4506ceb
    ensures Constant(62) == 0xbef9a3f7
    ensures Constant(63) == 0xc67178f2
  {
  }

  lemma Turns56()
    requires Rounds(START, BLOCK, 56) == AFTER_56
    ensures Rounds(START, BLOCK, 64) == AFTER_64
  {
    hide Rounds, Schedule, Constant;
    Constants56();
    Words56();
    var v := AFTER_56;
    v := Turn(56, v, 0x748f82ee, 0xef57b9cd, 0xfcd1887b, 0x9b5e906c);
    v := Turn(57, v, 0x78a5636f, 0xebe6b238, 0xc062d46f, 0x7e44008e);
    v := Turn(58, v, 0x84c87814, 0x9fe3095e, 0xffb70472, 0x6d83bfc6);
    v := Turn(59, v, 0x8cc70208, 0x78bc8d4b, 0xb6ae8fff, 0xb21bad3d);
    v := Turn(60, v, 0x90befffa, 0xa43fcf15, 0xb85e2ce9, 0x961f4894);
    v := Turn(61, v, 0xa4506ceb, 0x668b2ff8, 0x04d24d6c, 0x948d25b6);
    v := Turn(62, v, 0xbef9a3f7, 0xeeaba2cc, 0xd39a2165, 0xfb121210);
    v := Turn(63, v, 0xc67178f2, 0x12b1edeb, 0x506e3058, 0x5ef50f24);
  }

  lemma RoundsOfBlock()
    ensures Rounds(START, BLOCK, 64) == AFTER_64
  {
    assert Rounds(START, BLOCK, 0) == START;
    hide Rounds;
    Turns0();
    Turns8();
    Turns16();
    Turns24();
    Turns32();
    Turns40();
    Turns48();
    Turns56();
  }

  // ---- Padding and digest ----

  lemma PowersOf256(n: nat)
    ensures Power256(0) == 1 && (n > 0 ==> Power256(n) >= 256)
  {
  }

  lemma NoMore(p: nat)
    requires p >= 256
    ensures 24 / p % 256 == 0
  {
  }

  lemma LengthByteAt(i: nat)
    requires i < 8
    ensures LengthBytes(24)[i] == Octet(24 / Power256(7 - i) % 256)
  {
    hide Octet, Power256;
  }

  lemma LengthIsThere()
    ensures LengthBytes(24) == [0, 0, 0, 0, 0, 0, 0, 0x18]
  {
    hide LengthBytes, Octet, Power256;
    OctetOfValue(0);
    OctetOfValue(0x18);
    forall i | 0 <= i < 8 ensures LengthBytes(24)[i] == [0, 0, 0, 0, 0, 0, 0, 0x18][i] {
      LengthByteAt(i);
      PowersOf256(7 - i);
      if i < 7 {
        NoMore(Power256(7 - i));
      }
    }
  }

  lemma BlockIsPadded()
    ensures ABC + Padding(3) == BLOCK
  {
    hide LengthBytes;
    LengthIsThere();
    assert ZeroCount(3) == 52;
  }

  lemma {:induction false} Stored(h: seq<Word>, bytes: seq<Octets>)
    requires |bytes| == |h| && forall i :: 0 <= i < |h| ==> StoreWord(h[i]) == bytes[i]
    ensures StoreWords(h) == Joined(bytes)
    decreases |h|
  {
    hide StoreWord;
    if h != [] {
      Stored(h[..|h| - 1], bytes[..|h| - 1]);
    }
  }

  lemma WordsStored()
    ensures StoreWord(0xba7816bf) == [0xba, 0x78, 0x16, 0xbf]
    ensures StoreWord(0x8f01cfea) == [0x8f, 0x01, 0xcf, 0xea]
    ensures StoreWord(0x414140de) == [0x41, 0x41, 0x40, 0xde]
    ensures StoreWord(0x5dae2223) == [0x5d, 0xae, 0x22, 0x23]
    ensures StoreWord(0xb00361a3) == [0xb0, 0x03, 0x61, 0xa3]
    ensures StoreWord(0x96177a9c) == [0x96, 0x17, 0x7a, 0x9c]
    ensures StoreWord(0xb410ff61) == [0xb4, 0x10, 0xff, 0x61]
    ensures StoreWord(0xf20015ad) == [0xf2, 0x00, 0x15, 0xad]
  {
  }

  lemma LastIsStored()
    ensures StoreWords(LAST) == Joined(DIGEST)
  {
    hide StoreWords, StoreWord, Joined;
    WordsStored();
    Stored(LAST, DIGEST);
  }

  lemma LastIsAdded()
    ensures Added(INITIAL, AFTER_64) == LAST && Unpacked(INITIAL) == START
  {
  }

  /** The digest of "abc". */
  lemma DigestOfAbc()
    ensures Digest(ABC) == Joined(DIGEST)
  {
    hide Rounds, Added, StoreWords, Joined;
    BlockIsPadded();
    LastIsAdded();
    RoundsOfBlock();
    LastIsStored();
    assert BLOCK[..|BLOCK| - 64] == [] && BLOCK[|BLOCK| - 64..] == BLOCK;
    assert HashBlocks([]) == INITIAL;
  }
}
