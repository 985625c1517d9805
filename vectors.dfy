/*
 * Conformance of the block function with the test vectors of RFC 8439.
 *
 * Section 2.1.1 gives one quarter round on four words, section 2.2.1 one
 * quarter round applied to four words of a full state, and section 2.3.2
 * a whole block: its input state (key 00 01 .. 1f, block counter 1, nonce
 * 00 00 00 09 00 00 00 4a 00 00 00 00), the state after the twenty rounds,
 * and the output after the feed-forward.
 *
 * The block is proved one quarter round at a time: T0 is the input state,
 * Tn the working state after n quarter rounds (eight per double round:
 * the four columns, then the four diagonals), so T80 is the state after
 * the twenty rounds.
 */
module ChaChaVectors {
  import opened ChaCha20

  /** Section 2.1.1: the quarter round on (0x11111111, 0x01020304, 0x9b8d6f43, 0x01234567). */
  lemma QuarterRoundVector()
    ensures QuarterRound(Quad(0x11111111, 0x01020304, 0x9b8d6f43, 0x01234567))
      == Quad(0xea2a92f4, 0xcb1cf8ce, 0x4581472e, 0x5881c4bb)
  {
  }

  /** Section 2.2.1: the state before `QR(2, 7, 8, 13)`. */
  const QR_STATE_IN: seq<Word> :=
    [ 0x879531e0, 0xc5ecf37d, 0x516461b1, 0xc9a62f8a,
      0x44c20ef3, 0x3390af7f, 0xd9fc690b, 0x2a5f714c,
      0x53372767, 0xb00a5631, 0x974c541a, 0x359e9963,
      0x5c971061, 0x3d631689, 0x2098d9d6, 0x91dbd320 ]

  /** Section 2.2.1: the state after `QR(2, 7, 8, 13)`; only words 2, 7, 8 and 13 differ. */
  const QR_STATE_OUT: seq<Word> :=
    [ 0x879531e0, 0xc5ecf37d, 0xbdb886dc, 0xc9a62f8a,
      0x44c20ef3, 0x3390af7f, 0xd9fc690b, 0xcfacafd2,
      0xe46bea80, 0xb00a5631, 0x974c541a, 0x359e9963,
      0x5c971061, 0xccc07c79, 0x2098d9d6, 0x91dbd320 ]

  /** Section 2.2.1: the quarter round on words 2, 7, 8 and 13 of a state. */
  lemma QuarterRoundAtVector()
    ensures QuarterRoundAt(QR_STATE_IN, 2, 7, 8, 13) == QR_STATE_OUT
  {
  }

  /** Section 2.3.2: the output state, the twenty-round state plus the input state. */
  const BLOCK_OUT: seq<Word> :=
    [ 0xe4e7f110, 0x15593bd1, 0x1fdd0f50, 0xc47120a3,
      0xc7f4d1c7, 0x0368c033, 0x9aaa2204, 0x4e6cd4c3,
      0x466482d2, 0x09aa9f07, 0x05d7c214, 0xa2028bd9,
      0xd19c12b5, 0xb94e16de, 0xe883d0cb, 0x4e3c50a2 ]

  /** Section 2.3.2: the block function on the input state T0 yields BLOCK_OUT. */
  lemma BlockVector()
    ensures Block(T0) == BLOCK_OUT
  {
    RoundsVector();
    FeedForwardVector();
  }

  /** Section 2.3.2: the twenty rounds take the input state T0 to T80. */
  lemma RoundsVector()
    ensures DoubleRounds(T0, ROUNDS / 2) == T80
  {
    assert ROUNDS / 2 == 10;
    DoubleRoundsVector10();
  }

  /** The first 1 double round take T0 to T8. */
  lemma DoubleRoundsVector1()
    ensures DoubleRounds(T0, 1) == T8
  {
    DoubleRound1();
  }

  /** The first 2 double rounds take T0 to T16. */
  lemma DoubleRoundsVector2()
    ensures DoubleRounds(T0, 2) == T16
  {
    DoubleRoundsVector1();
    DoubleRound2();
  }

  /** The first 3 double rounds take T0 to T24. */
  lemma DoubleRoundsVector3()
    ensures DoubleRounds(T0, 3) == T24
  {
    DoubleRoundsVector2();
    DoubleRound3();
  }

  /** The first 4 double rounds take T0 to T32. */
  lemma DoubleRoundsVector4()
    ensures DoubleRounds(T0, 4) == T32
  {
    DoubleRoundsVector3();
    DoubleRound4();
  }

  /** The first 5 double rounds take T0 to T40. */
  lemma DoubleRoundsVector5()
    ensures DoubleRounds(T0, 5) == T40
  {
    DoubleRoundsVector4();
    DoubleRound5();
  }

  /** The first 6 double rounds take T0 to T48. */
  lemma DoubleRoundsVector6()
    ensures DoubleRounds(T0, 6) == T48
  {
    DoubleRoundsVector5();
    DoubleRound6();
  }

  /** The first 7 double rounds take T0 to T56. */
  lemma DoubleRoundsVector7()
    ensures DoubleRounds(T0, 7) == T56
  {
    DoubleRoundsVector6();
    DoubleRound7();
  }

  /** The first 8 double rounds take T0 to T64. */
  lemma DoubleRoundsVector8()
    ensures DoubleRounds(T0, 8) == T64
  {
    DoubleRoundsVector7();
    DoubleRound8();
  }

  /** The first 9 double rounds take T0 to T72. */
  lemma DoubleRoundsVector9()
    ensures DoubleRounds(T0, 9) == T72
  {
    DoubleRoundsVector8();
    DoubleRound9();
  }

  /** The first 10 double rounds take T0 to T80. */
  lemma DoubleRoundsVector10()
    ensures DoubleRounds(T0, 10) == T80
  {
    DoubleRoundsVector9();
    DoubleRound10();
  }

  /** Section 2.3.2: adding the input state T0 to T80 word by word gives BLOCK_OUT. */
  lemma FeedForwardVector()
    ensures AddStates(T80, T0) == BLOCK_OUT
  {
    var r := AddStates(T80, T0);
    assert r[0] == BLOCK_OUT[0];
    assert r[1] == BLOCK_OUT[1];
    assert r[2] == BLOCK_OUT[2];
    assert r[3] == BLOCK_OUT[3];
    assert r[4] == BLOCK_OUT[4];
    assert r[5] == BLOCK_OUT[5];
    assert r[6] == BLOCK_OUT[6];
    assert r[7] == BLOCK_OUT[7];
    assert r[8] == BLOCK_OUT[8];
    assert r[9] == BLOCK_OUT[9];
    assert r[10] == BLOCK_OUT[10];
    assert r[11] == BLOCK_OUT[11];
    assert r[12] == BLOCK_OUT[12];
    assert r[13] == BLOCK_OUT[13];
    assert r[14] == BLOCK_OUT[14];
    assert r[15] == BLOCK_OUT[15];
  }

  /** Double round 1: the columns take T0 to T4, the diagonals T4 to T8. */
  lemma DoubleRound1()
    ensures DoubleRound(T0) == T8
  {
    Step1();
    assert Columns(T0, 1) == T1;
    Step2();
    assert Columns(T0, 2) == T2;
    Step3();
    assert Columns(T0, 3) == T3;
    Step4();
    assert ColumnRound(T0) == T4;
    Step5();
    assert Diagonals(T4, 1) == T5;
    Step6();
    assert Diagonals(T4, 2) == T6;
    Step7();
    assert Diagonals(T4, 3) == T7;
    Step8();
  }

  /** Double round 2: the columns take T8 to T12, the diagonals T12 to T16. */
  lemma DoubleRound2()
    ensures DoubleRound(T8) == T16
  {
    Step9();
    assert Columns(T8, 1) == T9;
    Step10();
    assert Columns(T8, 2) == T10;
    Step11();
    assert Columns(T8, 3) == T11;
    Step12();
    assert ColumnRound(T8) == T12;
    Step13();
    assert Diagonals(T12, 1) == T13;
    Step14();
    assert Diagonals(T12, 2) == T14;
    Step15();
    assert Diagonals(T12, 3) == T15;
    Step16();
  }

  /** Double round 3: the columns take T16 to T20, the diagonals T20 to T24. */
  lemma DoubleRound3()
    ensures DoubleRound(T16) == T24
  {
    Step17();
    assert Columns(T16, 1) == T17;
    Step18();
    assert Columns(T16, 2) == T18;
    Step19();
    assert Columns(T16, 3) == T19;
    Step20();
    assert ColumnRound(T16) == T20;
    Step21();
    assert Diagonals(T20, 1) == T21;
    Step22();
    assert Diagonals(T20, 2) == T22;
    Step23();
    assert Diagonals(T20, 3) == T23;
    Step24();
  }

  /** Double round 4: the columns take T24 to T28, the diagonals T28 to T32. */
  lemma DoubleRound4()
    ensures DoubleRound(T24) == T32
  {
    Step25();
    assert Columns(T24, 1) == T25;
    Step26();
    assert Columns(T24, 2) == T26;
    Step27();
    assert Columns(T24, 3) == T27;
    Step28();
    assert ColumnRound(T24) == T28;
    Step29();
    assert Diagonals(T28, 1) == T29;
    Step30();
    assert Diagonals(T28, 2) == T30;
    Step31();
    assert Diagonals(T28, 3) == T31;
    Step32();
  }

  /** Double round 5: the columns take T32 to T36, the diagonals T36 to T40. */
  lemma DoubleRound5()
    ensures DoubleRound(T32) == T40
  {
    Step33();
    assert Columns(T32, 1) == T33;
    Step34();
    assert Columns(T32, 2) == T34;
    Step35();
    assert Columns(T32, 3) == T35;
    Step36();
    assert ColumnRound(T32) == T36;
    Step37();
    assert Diagonals(T36, 1) == T37;
    Step38();
    assert Diagonals(T36, 2) == T38;
    Step39();
    assert Diagonals(T36, 3) == T39;
    Step40();
  }

  /** Double round 6: the columns take T40 to T44, the diagonals T44 to T48. */
  lemma DoubleRound6()
    ensures DoubleRound(T40) == T48
  {
    Step41();
    assert Columns(T40, 1) == T41;
    Step42();
    assert Columns(T40, 2) == T42;
    Step43();
    assert Columns(T40, 3) == T43;
    Step44();
    assert ColumnRound(T40) == T44;
    Step45();
    assert Diagonals(T44, 1) == T45;
    Step46();
    assert Diagonals(T44, 2) == T46;
    Step47();
    assert Diagonals(T44, 3) == T47;
    Step48();
  }

  /** Double round 7: the columns take T48 to T52, the diagonals T52 to T56. */
  lemma DoubleRound7()
    ensures DoubleRound(T48) == T56
  {
    Step49();
    assert Columns(T48, 1) == T49;
    Step50();
    assert Columns(T48, 2) == T50;
    Step51();
    assert Columns(T48, 3) == T51;
    Step52();
    assert ColumnRound(T48) == T52;
    Step53();
    assert Diagonals(T52, 1) == T53;
    Step54();
    assert Diagonals(T52, 2) == T54;
    Step55();
    assert Diagonals(T52, 3) == T55;
    Step56();
  }

  /** Double round 8: the columns take T56 to T60, the diagonals T60 to T64. */
  lemma DoubleRound8()
    ensures DoubleRound(T56) == T64
  {
    Step57();
    assert Columns(T56, 1) == T57;
    Step58();
    assert Columns(T56, 2) == T58;
    Step59();
    assert Columns(T56, 3) == T59;
    Step60();
    assert ColumnRound(T56) == T60;
    Step61();
    assert Diagonals(T60, 1) == T61;
    Step62();
    assert Diagonals(T60, 2) == T62;
    Step63();
    assert Diagonals(T60, 3) == T63;
    Step64();
  }

  /** Double round 9: the columns take T64 to T68, the diagonals T68 to T72. */
  lemma DoubleRound9()
    ensures DoubleRound(T64) == T72
  {
    Step65();
    assert Columns(T64, 1) == T65;
    Step66();
    assert Columns(T64, 2) == T66;
    Step67();
    assert Columns(T64, 3) == T67;
    Step68();
    assert ColumnRound(T64) == T68;
    Step69();
    assert Diagonals(T68, 1) == T69;
    Step70();
    assert Diagonals(T68, 2) == T70;
    Step71();
    assert Diagonals(T68, 3) == T71;
    Step72();
  }

  /** Double round 10: the columns take T72 to T76, the diagonals T76 to T80. */
  lemma DoubleRound10()
    ensures DoubleRound(T72) == T80
  {
    Step73();
    assert Columns(T72, 1) == T73;
    Step74();
    assert Columns(T72, 2) == T74;
    Step75();
    assert Columns(T72, 3) == T75;
    Step76();
    assert ColumnRound(T72) == T76;
    Step77();
    assert Diagonals(T76, 1) == T77;
    Step78();
    assert Diagonals(T76, 2) == T78;
    Step79();
    assert Diagonals(T76, 3) == T79;
    Step80();
  }

  lemma Step1() ensures QuarterRoundAt(T0, 0, 4, 8, 12) == T1 {}
  lemma Step2() ensures QuarterRoundAt(T1, 1, 5, 9, 13) == T2 {}
  lemma Step3() ensures QuarterRoundAt(T2, 2, 6, 10, 14) == T3 {}
  lemma Step4() ensures QuarterRoundAt(T3, 3, 7, 11, 15) == T4 {}
  lemma Step5() ensures QuarterRoundAt(T4, 0, 5, 10, 15) == T5 {}
  lemma Step6() ensures QuarterRoundAt(T5, 1, 6, 11, 12) == T6 {}
  lemma Step7() ensures QuarterRoundAt(T6, 2, 7, 8, 13) == T7 {}
  lemma Step8() ensures QuarterRoundAt(T7, 3, 4, 9, 14) == T8 {}
  lemma Step9() ensures QuarterRoundAt(T8, 0, 4, 8, 12) == T9 {}
  lemma Step10() ensures QuarterRoundAt(T9, 1, 5, 9, 13) == T10 {}
  lemma Step11() ensures QuarterRoundAt(T10, 2, 6, 10, 14) == T11 {}
  lemma Step12() ensures QuarterRoundAt(T11, 3, 7, 11, 15) == T12 {}
  lemma Step13() ensures QuarterRoundAt(T12, 0, 5, 10, 15) == T13 {}
  lemma Step14() ensures QuarterRoundAt(T13, 1, 6, 11, 12) == T14 {}
  lemma Step15() ensures QuarterRoundAt(T14, 2, 7, 8, 13) == T15 {}
  lemma Step16() ensures QuarterRoundAt(T15, 3, 4, 9, 14) == T16 {}
  lemma Step17() ensures QuarterRoundAt(T16, 0, 4, 8, 12) == T17 {}
  lemma Step18() ensures QuarterRoundAt(T17, 1, 5, 9, 13) == T18 {}
  lemma Step19() ensures QuarterRoundAt(T18, 2, 6, 10, 14) == T19 {}
  lemma Step20() ensures QuarterRoundAt(T19, 3, 7, 11, 15) == T20 {}
  lemma Step21() ensures QuarterRoundAt(T20, 0, 5, 10, 15) == T21 {}
  lemma Step22() ensures QuarterRoundAt(T21, 1, 6, 11, 12) == T22 {}
  lemma Step23() ensures QuarterRoundAt(T22, 2, 7, 8, 13) == T23 {}
  lemma Step24() ensures QuarterRoundAt(T23, 3, 4, 9, 14) == T24 {}
  lemma Step25() ensures QuarterRoundAt(T24, 0, 4, 8, 12) == T25 {}
  lemma Step26() ensures QuarterRoundAt(T25, 1, 5, 9, 13) == T26 {}
  lemma Step27() ensures QuarterRoundAt(T26, 2, 6, 10, 14) == T27 {}
  lemma Step28() ensures QuarterRoundAt(T27, 3, 7, 11, 15) == T28 {}
  lemma Step29() ensures QuarterRoundAt(T28, 0, 5, 10, 15) == T29 {}
  lemma Step30() ensures QuarterRoundAt(T29, 1, 6, 11, 12) == T30 {}
  lemma Step31() ensures QuarterRoundAt(T30, 2, 7, 8, 13) == T31 {}
  lemma Step32() ensures QuarterRoundAt(T31, 3, 4, 9, 14) == T32 {}
  lemma Step33() ensures QuarterRoundAt(T32, 0, 4, 8, 12) == T33 {}
  lemma Step34() ensures QuarterRoundAt(T33, 1, 5, 9, 13) == T34 {}
  lemma Step35() ensures QuarterRoundAt(T34, 2, 6, 10, 14) == T35 {}
  lemma Step36() ensures QuarterRoundAt(T35, 3, 7, 11, 15) == T36 {}
  lemma Step37() ensures QuarterRoundAt(T36, 0, 5, 10, 15) == T37 {}
  lemma Step38() ensures QuarterRoundAt(T37, 1, 6, 11, 12) == T38 {}
  lemma Step39() ensures QuarterRoundAt(T38, 2, 7, 8, 13) == T39 {}
  lemma Step40() ensures QuarterRoundAt(T39, 3, 4, 9, 14) == T40 {}
  lemma Step41() ensures QuarterRoundAt(T40, 0, 4, 8, 12) == T41 {}
  lemma Step42() ensures QuarterRoundAt(T41, 1, 5, 9, 13) == T42 {}
  lemma Step43() ensures QuarterRoundAt(T42, 2, 6, 10, 14) == T43 {}
  lemma Step44() ensures QuarterRoundAt(T43, 3, 7, 11, 15) == T44 {}
  lemma Step45() ensures QuarterRoundAt(T44, 0, 5, 10, 15) == T45 {}
  lemma Step46() ensures QuarterRoundAt(T45, 1, 6, 11, 12) == T46 {}
  lemma Step47() ensures QuarterRoundAt(T46, 2, 7, 8, 13) == T47 {}
  lemma Step48() ensures QuarterRoundAt(T47, 3, 4, 9, 14) == T48 {}
  lemma Step49() ensures QuarterRoundAt(T48, 0, 4, 8, 12) == T49 {}
  lemma Step50() ensures QuarterRoundAt(T49, 1, 5, 9, 13) == T50 {}
  lemma Step51() ensures QuarterRoundAt(T50, 2, 6, 10, 14) == T51 {}
  lemma Step52() ensures QuarterRoundAt(T51, 3, 7, 11, 15) == T52 {}
  lemma Step53() ensures QuarterRoundAt(T52, 0, 5, 10, 15) == T53 {}
  lemma Step54() ensures QuarterRoundAt(T53, 1, 6, 11, 12) == T54 {}
  lemma Step55() ensures QuarterRoundAt(T54, 2, 7, 8, 13) == T55 {}
  lemma Step56() ensures QuarterRoundAt(T55, 3, 4, 9, 14) == T56 {}
  lemma Step57() ensures QuarterRoundAt(T56, 0, 4, 8, 12) == T57 {}
  lemma Step58() ensures QuarterRoundAt(T57, 1, 5, 9, 13) == T58 {}
  lemma Step59() ensures QuarterRoundAt(T58, 2, 6, 10, 14) == T59 {}
  lemma Step60() ensures QuarterRoundAt(T59, 3, 7, 11, 15) == T60 {}
  lemma Step61() ensures QuarterRoundAt(T60, 0, 5, 10, 15) == T61 {}
  lemma Step62() ensures QuarterRoundAt(T61, 1, 6, 11, 12) == T62 {}
  lemma Step63() ensures QuarterRoundAt(T62, 2, 7, 8, 13) == T63 {}
  lemma Step64() ensures QuarterRoundAt(T63, 3, 4, 9, 14) == T64 {}
  lemma Step65() ensures QuarterRoundAt(T64, 0, 4, 8, 12) == T65 {}
  lemma Step66() ensures QuarterRoundAt(T65, 1, 5, 9, 13) == T66 {}
  lemma Step67() ensures QuarterRoundAt(T66, 2, 6, 10, 14) == T67 {}
  lemma Step68() ensures QuarterRoundAt(T67, 3, 7, 11, 15) == T68 {}
  lemma Step69() ensures QuarterRoundAt(T68, 0, 5, 10, 15) == T69 {}
  lemma Step70() ensures QuarterRoundAt(T69, 1, 6, 11, 12) == T70 {}
  lemma Step71() ensures QuarterRoundAt(T70, 2, 7, 8, 13) == T71 {}
  lemma Step72() ensures QuarterRoundAt(T71, 3, 4, 9, 14) == T72 {}
  lemma Step73() ensures QuarterRoundAt(T72, 0, 4, 8, 12) == T73 {}
  lemma Step74() ensures QuarterRoundAt(T73, 1, 5, 9, 13) == T74 {}
  lemma Step75() ensures QuarterRoundAt(T74, 2, 6, 10, 14) == T75 {}
  lemma Step76() ensures QuarterRoundAt(T75, 3, 7, 11, 15) == T76 {}
  lemma Step77() ensures QuarterRoundAt(T76, 0, 5, 10, 15) == T77 {}
  lemma Step78() ensures QuarterRoundAt(T77, 1, 6, 11, 12) == T78 {}
  lemma Step79() ensures QuarterRoundAt(T78, 2, 7, 8, 13) == T79 {}
  lemma Step80() ensures QuarterRoundAt(T79, 3, 4, 9, 14) == T80 {}

  /** Section 2.3.2: the input state. */
  const T0: seq<Word> :=
    [ 0x61707865, 0x3320646e, 0x79622d32, 0x6b206574,
      0x03020100, 0x07060504, 0x0b0a0908, 0x0f0e0d0c,
      0x13121110, 0x17161514, 0x1b1a1918, 0x1f1e1d1c,
      0x00000001, 0x09000000, 0x4a000000, 0x00000000 ]
  const T1: seq<Word> :=
    [ 0xabbaa25c, 0x3320646e, 0x79622d32, 0x6b206574,
      0x3a465196, 0x07060504, 0x0b0a0908, 0x0f0e0d0c,
      0x6b3ca454, 0x17161514, 0x1b1a1918, 0x1f1e1d1c,
      0xdec62ed2, 0x09000000, 0x4a000000, 0x00000000 ]
  const T2: seq<Word> :=
    [ 0xabbaa25c, 0x1efa51ea, 0x79622d32, 0x6b206574,
      0x3a465196, 0x1c7e64f6, 0x0b0a0908, 0x0f0e0d0c,
      0x6b3ca454, 0x08eb14b1, 0x1b1a1918, 0x1f1e1d1c,
      0xdec62ed2, 0x8862cc77, 0x4a000000, 0x00000000 ]
  const T3: seq<Word> :=
    [ 0xabbaa25c, 0x1efa51ea, 0x7354fbdf, 0x6b206574,
      0x3a465196, 0x1c7e64f6, 0xb12fb628, 0x0f0e0d0c,
      0x6b3ca454, 0x08eb14b1, 0xbf8a9ac9, 0x1f1e1d1c,
      0xdec62ed2, 0x8862cc77, 0x6e35b345, 0x00000000 ]
  const T4: seq<Word> :=
    [ 0xabbaa25c, 0x1efa51ea, 0x7354fbdf, 0x83d2dc69,
      0x3a465196, 0x1c7e64f6, 0xb12fb628, 0xf05b6976,
      0x6b3ca454, 0x08eb14b1, 0xbf8a9ac9, 0xe444df3b,
      0xdec62ed2, 0x8862cc77, 0x6e35b345, 0x52a647f1 ]
  const T5: seq<Word> :=
    [ 0xcd52e917, 0x1efa51ea, 0x7354fbdf, 0x83d2dc69,
      0x3a465196, 0x5c2e187a, 0xb12fb628, 0xf05b6976,
      0x6b3ca454, 0x08eb14b1, 0xf1a1bdf5, 0xe444df3b,
      0xdec62ed2, 0x8862cc77, 0x6e35b345, 0xf173888d ]
  const T6: seq<Word> :=
    [ 0xcd52e917, 0x85ab03b4, 0x7354fbdf, 0x83d2dc69,
      0x3a465196, 0x5c2e187a, 0xc95eb461, 0xf05b6976,
      0x6b3ca454, 0x08eb14b1, 0xf1a1bdf5, 0x761246ca,
      0x6b0d58a3, 0x8862cc77, 0x6e35b345, 0xf173888d ]
  const T7: seq<Word> :=
    [ 0xcd52e917, 0x85ab03b4, 0xb3457395, 0x83d2dc69,
      0x3a465196, 0x5c2e187a, 0xc95eb461, 0x316c801a,
      0x7bf7d740, 0x08eb14b1, 0xf1a1bdf5, 0x761246ca,
      0x6b0d58a3, 0x6798471a, 0x6e35b345, 0xf173888d ]
  const T8: seq<Word> :=
    [ 0xcd52e917, 0x85ab03b4, 0xb3457395, 0xf96de7dd,
      0xc4b7cd22, 0x5c2e187a, 0xc95eb461, 0x316c801a,
      0x7bf7d740, 0x7eddd644, 0xf1a1bdf5, 0x761246ca,
      0x6b0d58a3, 0x6798471a, 0xd737f167, 0xf173888d ]
  const T9: seq<Word> :=
    [ 0xe3e1111b, 0x85ab03b4, 0xb3457395, 0xf96de7dd,
      0xd65b5b5b, 0x5c2e187a, 0xc95eb461, 0x316c801a,
      0xe67aec54, 0x7eddd644, 0xf1a1bdf5, 0x761246ca,
      0x7be81c0d, 0x6798471a, 0xd737f167, 0xf173888d ]
  const T10: seq<Word> :=
    [ 0xe3e1111b, 0xa6291491, 0xb3457395, 0xf96de7dd,
      0xd65b5b5b, 0xf56af099, 0xc95eb461, 0x316c801a,
      0xe67aec54, 0xf7a52d82, 0xf1a1bdf5, 0x761246ca,
      0x7be81c0d, 0x1d92d0fd, 0xd737f167, 0xf173888d ]
  const T11: seq<Word> :=
    [ 0xe3e1111b, 0xa6291491, 0x5a82b80c, 0xf96de7dd,
      0xd65b5b5b, 0xf56af099, 0x4ccc8103, 0x316c801a,
      0xe67aec54, 0xf7a52d82, 0xdb470914, 0x761246ca,
      0x7be81c0d, 0x1d92d0fd, 0x13139f8c, 0xf173888d ]
  const T12: seq<Word> :=
    [ 0xe3e1111b, 0xa6291491, 0x5a82b80c, 0x4500fd45,
      0xd65b5b5b, 0xf56af099, 0x4ccc8103, 0xc94d29e2,
      0xe67aec54, 0xf7a52d82, 0xdb470914, 0xdfb40f1d,
      0x7be81c0d, 0x1d92d0fd, 0x13139f8c, 0x7a26ecaa ]
  const T13: seq<Word> :=
    [ 0xcf1a7584, 0xa6291491, 0x5a82b80c, 0x4500fd45,
      0xd65b5b5b, 0x7974b81c, 0x4ccc8103, 0xc94d29e2,
      0xe67aec54, 0xf7a52d82, 0xcd3c9aa0, 0xdfb40f1d,
      0x7be81c0d, 0x1d92d0fd, 0x13139f8c, 0x04d6ee22 ]
  const T14: seq<Word> :=
    [ 0xcf1a7584, 0x048927ec, 0x5a82b80c, 0x4500fd45,
      0xd65b5b5b, 0x7974b81c, 0x378dcfb4, 0xc94d29e2,
      0xe67aec54, 0xf7a52d82, 0xcd3c9aa0, 0x79fc89c7,
      0x10aef18d, 0x1d92d0fd, 0x13139f8c, 0x04d6ee22 ]
  const T15: seq<Word> :=
    [ 0xcf1a7584, 0x048927ec, 0x54051fda, 0x4500fd45,
      0xd65b5b5b, 0x7974b81c, 0x378dcfb4, 0xcd47fd0e,
      0x2dafb216, 0xf7a52d82, 0xcd3c9aa0, 0x79fc89c7,
      0x10aef18d, 0x16218765, 0x13139f8c, 0x04d6ee22 ]
  const T16: seq<Word> :=
    [ 0xcf1a7584, 0x048927ec, 0x54051fda, 0xc244ff28,
      0x901d2f40, 0x7974b81c, 0x378dcfb4, 0xcd47fd0e,
      0x2dafb216, 0x27c89cd6, 0xcd3c9aa0, 0x79fc89c7,
      0x10aef18d, 0x16218765, 0x68f76705, 0x04d6ee22 ]
  const T17: seq<Word> :=
    [ 0xa22695f2, 0x048927ec, 0x54051fda, 0xc244ff28,
      0x1ece4458, 0x7974b81c, 0x378dcfb4, 0xcd47fd0e,
      0xf2d36da6, 0x27c89cd6, 0xcd3c9aa0, 0x79fc89c7,
      0x6fda6bf7, 0x16218765, 0x68f76705, 0x04d6ee22 ]
  const T18: seq<Word> :=
    [ 0xa22695f2, 0xa908cf6c, 0x54051fda, 0xc244ff28,
      0x1ece4458, 0xe82b726f, 0x378dcfb4, 0xcd47fd0e,
      0xf2d36da6, 0xf4dab980, 0xcd3c9aa0, 0x79fc89c7,
      0x6fda6bf7, 0x65a4b0ce, 0x68f76705, 0x04d6ee22 ]
  const T19: seq<Word> :=
    [ 0xa22695f2, 0xa908cf6c, 0xe6ae05b2, 0xc244ff28,
      0x1ece4458, 0xe82b726f, 0x5a21ab90, 0xcd47fd0e,
      0xf2d36da6, 0xf4dab980, 0x7baf5573, 0x79fc89c7,
      0x6fda6bf7, 0x65a4b0ce, 0x25e6d76e, 0x04d6ee22 ]
  const T20: seq<Word> :=
    [ 0xa22695f2, 0xa908cf6c, 0xe6ae05b2, 0xfe0ff04b,
      0x1ece4458, 0xe82b726f, 0x5a21ab90, 0x87698c64,
      0xf2d36da6, 0xf4dab980, 0x7baf5573, 0xa78c270d,
      0x6fda6bf7, 0x65a4b0ce, 0x25e6d76e, 0x1b7b11ec ]
  const T21: seq<Word> :=
    [ 0x03a14032, 0xa908cf6c, 0xe6ae05b2, 0xfe0ff04b,
      0x1ece4458, 0xa09b33dd, 0x5a21ab90, 0x87698c64,
      0xf2d36da6, 0xf4dab980, 0xc20e01b6, 0xa78c270d,
      0x6fda6bf7, 0x65a4b0ce, 0x25e6d76e, 0x2cd11b1a ]
  const T22: seq<Word> :=
    [ 0x03a14032, 0x66b15927, 0xe6ae05b2, 0xfe0ff04b,
      0x1ece4458, 0xa09b33dd, 0xa5daaf88, 0x87698c64,
      0xf2d36da6, 0xf4dab980, 0xc20e01b6, 0x72cd6b74,
      0xba35d777, 0x65a4b0ce, 0x25e6d76e, 0x2cd11b1a ]
  const T23: seq<Word> :=
    [ 0x03a14032, 0x66b15927, 0x9d6b6b42, 0xfe0ff04b,
      0x1ece4458, 0xa09b33dd, 0xa5daaf88, 0x2fd91a73,
      0xc90c6b18, 0xf4dab980, 0xc20e01b6, 0x72cd6b74,
      0xba35d777, 0xb360f1bf, 0x25e6d76e, 0x2cd11b1a ]
  const T24: seq<Word> :=
    [ 0x03a14032, 0x66b15927, 0x9d6b6b42, 0xb84c4109,
      0xa7143ae0, 0xa09b33dd, 0xa5daaf88, 0x2fd91a73,
      0xc90c6b18, 0x5a202413, 0xc20e01b6, 0x72cd6b74,
      0xba35d777, 0xb360f1bf, 0x8178315b, 0x2cd11b1a ]
  const T25: seq<Word> :=
    [ 0xfecd0838, 0x66b15927, 0x9d6b6b42, 0xb84c4109,
      0xcedf6624, 0xa09b33dd, 0xa5daaf88, 0x2fd91a73,
      0x1d8a33ea, 0x5a202413, 0xc20e01b6, 0x72cd6b74,
      0xa818b852, 0xb360f1bf, 0x8178315b, 0x2cd11b1a ]
  const T26: seq<Word> :=
    [ 0xfecd0838, 0x160ab468, 0x9d6b6b42, 0xb84c4109,
      0xcedf6624, 0xb11de6c4, 0xa5daaf88, 0x2fd91a73,
      0x1d8a33ea, 0x87dc1ca9, 0xc20e01b6, 0x72cd6b74,
      0xa818b852, 0xb100446a, 0x8178315b, 0x2cd11b1a ]
  const T27: seq<Word> :=
    [ 0xfecd0838, 0x160ab468, 0x9a0ddf4e, 0xb84c4109,
      0xcedf6624, 0xb11de6c4, 0xbd7810ef, 0x2fd91a73,
      0x1d8a33ea, 0x87dc1ca9, 0x89bd34a5, 0x72cd6b74,
      0xa818b852, 0xb100446a, 0x9c1d70b1, 0x2cd11b1a ]
  const T28: seq<Word> :=
    [ 0xfecd0838, 0x160ab468, 0x9a0ddf4e, 0xbac7154a,
      0xcedf6624, 0xb11de6c4, 0xbd7810ef, 0xd22b5643,
      0x1d8a33ea, 0x87dc1ca9, 0x89bd34a5, 0x5505ef62,
      0xa818b852, 0xb100446a, 0x9c1d70b1, 0xa1d1befa ]
  const T29: seq<Word> :=
    [ 0x9a2d3589, 0x160ab468, 0x9a0ddf4e, 0xbac7154a,
      0xcedf6624, 0x5e5993f7, 0xbd7810ef, 0xd22b5643,
      0x1d8a33ea, 0x87dc1ca9, 0x04fef5aa, 0x5505ef62,
      0xa818b852, 0xb100446a, 0x9c1d70b1, 0x2b3bb2ca ]
  const T30: seq<Word> :=
    [ 0x9a2d3589, 0x0b23fc4e, 0x9a0ddf4e, 0xbac7154a,
      0xcedf6624, 0x5e5993f7, 0x9904c2e7, 0xd22b5643,
      0x1d8a33ea, 0x87dc1ca9, 0x04fef5aa, 0xf8933f72,
      0x2687d476, 0xb100446a, 0x9c1d70b1, 0x2b3bb2ca ]
  const T31: seq<Word> :=
    [ 0x9a2d3589, 0x0b23fc4e, 0x40af3b6b, 0xbac7154a,
      0xcedf6624, 0x5e5993f7, 0x9904c2e7, 0x0d334718,
      0xe46c6354, 0x87dc1ca9, 0x04fef5aa, 0xf8933f72,
      0x2687d476, 0x54e65231, 0x9c1d70b1, 0x2b3bb2ca ]
  const T32: seq<Word> :=
    [ 0x9a2d3589, 0x0b23fc4e, 0x40af3b6b, 0xceea8144,
      0x0a1bffc6, 0x5e5993f7, 0x9904c2e7, 0x0d334718,
      0xe46c6354, 0xc9503229, 0x04fef5aa, 0xf8933f72,
      0x2687d476, 0x54e65231, 0x3594ffc5, 0x2b3bb2ca ]
  const T33: seq<Word> :=
    [ 0x85e7824a, 0x0b23fc4e, 0x40af3b6b, 0xceea8144,
      0x1c133ea1, 0x5e5993f7, 0x9904c2e7, 0x0d334718,
      0xa3a66a86, 0xc9503229, 0x04fef5aa, 0xf8933f72,
      0xde008464, 0x54e65231, 0x3594ffc5, 0x2b3bb2ca ]
  const T34: seq<Word> :=
    [ 0x85e7824a, 0x4940cd9e, 0x40af3b6b, 0xceea8144,
      0x1c133ea1, 0xbba40b0f, 0x9904c2e7, 0x0d334718,
      0xa3a66a86, 0xc0b4754f, 0x04fef5aa, 0xf8933f72,
      0xde008464, 0x34f0058b, 0x3594ffc5, 0x2b3bb2ca ]
  const T35: seq<Word> :=
    [ 0x85e7824a, 0x4940cd9e, 0xfbe7684b, 0xceea8144,
      0x1c133ea1, 0xbba40b0f, 0x9413992a, 0x0d334718,
      0xa3a66a86, 0xc0b4754f, 0x771b4ecb, 0xf8933f72,
      0xde008464, 0x34f0058b, 0x70846cfa, 0x2b3bb2ca ]
  const T36: seq<Word> :=
    [ 0x85e7824a, 0x4940cd9e, 0xfbe7684b, 0x7335d03d,
      0x1c133ea1, 0xbba40b0f, 0x9413992a, 0xa4ab2040,
      0xa3a66a86, 0xc0b4754f, 0x771b4ecb, 0x165151a1,
      0xde008464, 0x34f0058b, 0x70846cfa, 0xa3271b09 ]
  const T37: seq<Word> :=
    [ 0xc53318c5, 0x4940cd9e, 0xfbe7684b, 0x7335d03d,
      0x1c133ea1, 0x6088d379, 0x9413992a, 0xa4ab2040,
      0xa3a66a86, 0xc0b4754f, 0x71669aca, 0x165151a1,
      0xde008464, 0x34f0058b, 0x70846cfa, 0x63fa6953 ]
  const T38: seq<Word> :=
    [ 0xc53318c5, 0xca325d96, 0xfbe7684b, 0x7335d03d,
      0x1c133ea1, 0x6088d379, 0xc0f0e9bd, 0xa4ab2040,
      0xa3a66a86, 0xc0b4754f, 0x71669aca, 0x975c171d,
      0x9e5ec228, 0x34f0058b, 0x70846cfa, 0x63fa6953 ]
  const T39: seq<Word> :=
    [ 0xc53318c5, 0xca325d96, 0x7e7d11cb, 0x7335d03d,
      0x1c133ea1, 0x6088d379, 0xc0f0e9bd, 0xe310cdb9,
      0xae2ca8db, 0xc0b4754f, 0x71669aca, 0x975c171d,
      0x9e5ec228, 0x7d85a9f3, 0x70846cfa, 0x63fa6953 ]
  const T40: seq<Word> :=
    [ 0xc53318c5, 0xca325d96, 0x7e7d11cb, 0x3404e2ca,
      0x26d7cf73, 0x6088d379, 0xc0f0e9bd, 0xe310cdb9,
      0xae2ca8db, 0x42f67c72, 0x71669aca, 0x975c171d,
      0x9e5ec228, 0x7d85a9f3, 0x201d0756, 0x63fa6953 ]
  const T41: seq<Word> :=
    [ 0x9950b826, 0xca325d96, 0x7e7d11cb, 0x3404e2ca,
      0x2121065a, 0x6088d379, 0xc0f0e9bd, 0xe310cdb9,
      0x19078de2, 0x42f67c72, 0x71669aca, 0x975c171d,
      0x40ca72b3, 0x7d85a9f3, 0x201d0756, 0x63fa6953 ]
  const T42: seq<Word> :=
    [ 0x9950b826, 0xcac7ccc6, 0x7e7d11cb, 0x3404e2ca,
      0x2121065a, 0xc12bdadb, 0xc0f0e9bd, 0xe310cdb9,
      0x19078de2, 0x178ecc02, 0x71669aca, 0x975c171d,
      0x40ca72b3, 0x3b9bf852, 0x201d0756, 0x63fa6953 ]
  const T43: seq<Word> :=
    [ 0x9950b826, 0xcac7ccc6, 0x84a67673, 0x3404e2ca,
      0x2121065a, 0xc12bdadb, 0xcae3acd1, 0xe310cdb9,
      0x19078de2, 0x178ecc02, 0xe6adbdb2, 0x975c171d,
      0x40ca72b3, 0x3b9bf852, 0x78690378, 0x63fa6953 ]
  const T44: seq<Word> :=
    [ 0x9950b826, 0xcac7ccc6, 0x84a67673, 0xdb3109a6,
      0x2121065a, 0xc12bdadb, 0xcae3acd1, 0x594616cb,
      0x19078de2, 0x178ecc02, 0xe6adbdb2, 0x52a9d50e,
      0x40ca72b3, 0x3b9bf852, 0x78690378, 0xe17d4902 ]
  const T45: seq<Word> :=
    [ 0x04a3131a, 0xcac7ccc6, 0x84a67673, 0xdb3109a6,
      0x2121065a, 0xbf8a4465, 0xcae3acd1, 0x594616cb,
      0x19078de2, 0x178ecc02, 0x61599491, 0x52a9d50e,
      0x40ca72b3, 0x3b9bf852, 0x78690378, 0xa0a81bde ]
  const T46: seq<Word> :=
    [ 0x04a3131a, 0x66176309, 0x84a67673, 0xdb3109a6,
      0x2121065a, 0xbf8a4465, 0xf77dd720, 0x594616cb,
      0x19078de2, 0x178ecc02, 0x61599491, 0x918512dc,
      0x33b6686d, 0x3b9bf852, 0x78690378, 0xa0a81bde ]
  const T47: seq<Word> :=
    [ 0x04a3131a, 0x66176309, 0x0415bab1, 0xdb3109a6,
      0x2121065a, 0xbf8a4465, 0xf77dd720, 0xfc0bdc90,
      0x07d13aca, 0x178ecc02, 0x61599491, 0x918512dc,
      0x33b6686d, 0x795cc671, 0x78690378, 0xa0a81bde ]
  const T48: seq<Word> :=
    [ 0x04a3131a, 0x66176309, 0x0415bab1, 0x61b880a2,
      0x36cc86c7, 0xbf8a4465, 0xf77dd720, 0xfc0bdc90,
      0x07d13aca, 0xeb0be9af, 0x61599491, 0x918512dc,
      0x33b6686d, 0x795cc671, 0xc0049972, 0xa0a81bde ]
  const T49: seq<Word> :=
    [ 0x57c5e6da, 0x66176309, 0x0415bab1, 0x61b880a2,
      0x8e85d82f, 0xbf8a4465, 0xf77dd720, 0xfc0bdc90,
      0x434b4749, 0xeb0be9af, 0x61599491, 0x918512dc,
      0x49ee03a6, 0x795cc671, 0xc0049972, 0xa0a81bde ]
  const T50: seq<Word> :=
    [ 0x57c5e6da, 0x35ce46a8, 0x0415bab1, 0x61b880a2,
      0x8e85d82f, 0xb4819d06, 0xf77dd720, 0xfc0bdc90,
      0x434b4749, 0x1d459c00, 0x61599491, 0x918512dc,
      0x49ee03a6, 0xd11a5554, 0xc0049972, 0xa0a81bde ]
  const T51: seq<Word> :=
    [ 0x57c5e6da, 0x35ce46a8, 0x0c041bb9, 0x61b880a2,
      0x8e85d82f, 0xb4819d06, 0xb63be200, 0xfc0bdc90,
      0x434b4749, 0x1d459c00, 0x111cfe2c, 0x918512dc,
      0x49ee03a6, 0xd11a5554, 0xa7202e04, 0xa0a81bde ]
  const T52: seq<Word> :=
    [ 0x57c5e6da, 0x35ce46a8, 0x0c041bb9, 0xfa91df79,
      0x8e85d82f, 0xb4819d06, 0xb63be200, 0xacd221e4,
      0x434b4749, 0x1d459c00, 0x111cfe2c, 0x55942604,
      0x49ee03a6, 0xd11a5554, 0xa7202e04, 0x7d2215bc ]
  const T53: seq<Word> :=
    [ 0x9b70f51f, 0x35ce46a8, 0x0c041bb9, 0xfa91df79,
      0x8e85d82f, 0x6a4c50ae, 0xb63be200, 0xacd221e4,
      0x434b4749, 0x1d459c00, 0xd3fde99e, 0x55942604,
      0x49ee03a6, 0xd11a5554, 0xa7202e04, 0x2c847a0d ]
  const T54: seq<Word> :=
    [ 0x9b70f51f, 0x7ea8ac11, 0x0c041bb9, 0xfa91df79,
      0x8e85d82f, 0x6a4c50ae, 0x19212a5a, 0xacd221e4,
      0x434b4749, 0x1d459c00, 0xd3fde99e, 0x26acc13d,
      0xa609f555, 0xd11a5554, 0xa7202e04, 0x2c847a0d ]
  const T55: seq<Word> :=
    [ 0x9b70f51f, 0x7ea8ac11, 0x21e54da9, 0xfa91df79,
      0x8e85d82f, 0x6a4c50ae, 0x19212a5a, 0x9b032958,
      0xd839165e, 0x1d459c00, 0xd3fde99e, 0x26acc13d,
      0xa609f555, 0x2c246549, 0xa7202e04, 0x2c847a0d ]
  const T56: seq<Word> :=
    [ 0x9b70f51f, 0x7ea8ac11, 0x21e54da9, 0xca393b2f,
      0x93b08686, 0x6a4c50ae, 0x19212a5a, 0x9b032958,
      0xd839165e, 0x4c06e28a, 0xd3fde99e, 0x26acc13d,
      0xa609f555, 0x2c246549, 0x95151853, 0x2c847a0d ]
  const T57: seq<Word> :=
    [ 0xc0b18aee, 0x7ea8ac11, 0x21e54da9, 0xca393b2f,
      0xdeb54e9c, 0x6a4c50ae, 0x19212a5a, 0x9b032958,
      0xa82d65d4, 0x4c06e28a, 0xd3fde99e, 0x26acc13d,
      0x4103c64e, 0x2c246549, 0x95151853, 0x2c847a0d ]
  const T58: seq<Word> :=
    [ 0xc0b18aee, 0x087445ba, 0x21e54da9, 0xca393b2f,
      0xdeb54e9c, 0x802c883b, 0x19212a5a, 0x9b032958,
      0xa82d65d4, 0x687f11eb, 0xd3fde99e, 0x26acc13d,
      0x4103c64e, 0x82816a91, 0x95151853, 0x2c847a0d ]
  const T59: seq<Word> :=
    [ 0xc0b18aee, 0x087445ba, 0x36e52ad9, 0xca393b2f,
      0xdeb54e9c, 0x802c883b, 0x06e86889, 0x9b032958,
      0xa82d65d4, 0x687f11eb, 0xe9d36207, 0x26acc13d,
      0x4103c64e, 0x82816a91, 0xb584ca56, 0x2c847a0d ]
  const T60: seq<Word> :=
    [ 0xc0b18aee, 0x087445ba, 0x36e52ad9, 0xa777426a,
      0xdeb54e9c, 0x802c883b, 0x06e86889, 0x3c002680,
      0xa82d65d4, 0x687f11eb, 0xe9d36207, 0x4242ddae,
      0x4103c64e, 0x82816a91, 0xb584ca56, 0xfd0bd2b9 ]
  const T61: seq<Word> :=
    [ 0xca5c85dd, 0x087445ba, 0x36e52ad9, 0xa777426a,
      0xdeb54e9c, 0x712aa9ff, 0x06e86889, 0x3c002680,
      0xa82d65d4, 0x687f11eb, 0x779c27e7, 0x4242ddae,
      0x4103c64e, 0x82816a91, 0xb584ca56, 0xcc38080b ]
  const T62: seq<Word> :=
    [ 0xca5c85dd, 0x93a4f90e, 0x36e52ad9, 0xa777426a,
      0xdeb54e9c, 0x712aa9ff, 0x279a61e8, 0x3c002680,
      0xa82d65d4, 0x687f11eb, 0x779c27e7, 0x54077e08,
      0xa9b751fb, 0x82816a91, 0xb584ca56, 0xcc38080b ]
  const T63: seq<Word> :=
    [ 0xca5c85dd, 0x93a4f90e, 0xd9f0df58, 0xa777426a,
      0xdeb54e9c, 0x712aa9ff, 0x279a61e8, 0x970f72bd,
      0x1c25931a, 0x687f11eb, 0x779c27e7, 0x54077e08,
      0xa9b751fb, 0x382f3ce2, 0xb584ca56, 0xcc38080b ]
  const T64: seq<Word> :=
    [ 0xca5c85dd, 0x93a4f90e, 0xd9f0df58, 0x26dd82dd,
      0x982563f8, 0x712aa9ff, 0x279a61e8, 0x970f72bd,
      0x1c25931a, 0x5180bb10, 0x779c27e7, 0x54077e08,
      0xa9b751fb, 0x382f3ce2, 0x8db1757d, 0xcc38080b ]
  const T65: seq<Word> :=
    [ 0x765c6e9c, 0x93a4f90e, 0xd9f0df58, 0x26dd82dd,
      0x9046ecaa, 0x712aa9ff, 0x279a61e8, 0x970f72bd,
      0x46fa091e, 0x5180bb10, 0x779c27e7, 0x54077e08,
      0x72a5aace, 0x382f3ce2, 0x8db1757d, 0xcc38080b ]
  const T66: seq<Word> :=
    [ 0x765c6e9c, 0x5ab09b11, 0xd9f0df58, 0x26dd82dd,
      0x9046ecaa, 0x7b88d882, 0x279a61e8, 0x970f72bd,
      0x46fa091e, 0x5117e9b5, 0x779c27e7, 0x54077e08,
      0x72a5aace, 0x5fa7f1c5, 0x8db1757d, 0xcc38080b ]
  const T67: seq<Word> :=
    [ 0x765c6e9c, 0x5ab09b11, 0x3ee7da04, 0x26dd82dd,
      0x9046ecaa, 0x7b88d882, 0xb9b577dd, 0x970f72bd,
      0x46fa091e, 0x5117e9b5, 0x862ff22b, 0x54077e08,
      0x72a5aace, 0x5fa7f1c5, 0xda563e0a, 0xcc38080b ]
  const T68: seq<Word> :=
    [ 0x765c6e9c, 0x5ab09b11, 0x3ee7da04, 0x37c31203,
      0x9046ecaa, 0x7b88d882, 0xb9b577dd, 0x156de7ed,
      0x46fa091e, 0x5117e9b5, 0x862ff22b, 0xa3fcc7a6,
      0x72a5aace, 0x5fa7f1c5, 0xda563e0a, 0x5263d7ca ]
  const T69: seq<Word> :=
    [ 0xb6b87de6, 0x5ab09b11, 0x3ee7da04, 0x37c31203,
      0x9046ecaa, 0x98e18fa3, 0xb9b577dd, 0x156de7ed,
      0x46fa091e, 0x5117e9b5, 0x83e2f5d7, 0xa3fcc7a6,
      0x72a5aace, 0x5fa7f1c5, 0xda563e0a, 0x6cde6026 ]
  const T70: seq<Word> :=
    [ 0xb6b87de6, 0x9a016148, 0x3ee7da04, 0x37c31203,
      0x9046ecaa, 0x98e18fa3, 0x5ffbe8fc, 0x156de7ed,
      0x46fa091e, 0x5117e9b5, 0x83e2f5d7, 0x7d24b98b,
      0x21078b22, 0x5fa7f1c5, 0xda563e0a, 0x6cde6026 ]
  const T71: seq<Word> :=
    [ 0xb6b87de6, 0x9a016148, 0x93859815, 0x37c31203,
      0x9046ecaa, 0x98e18fa3, 0x5ffbe8fc, 0xf7154b8b,
      0x28c1fcb3, 0x5117e9b5, 0x83e2f5d7, 0x7d24b98b,
      0x21078b22, 0xb193e7a3, 0xda563e0a, 0x6cde6026 ]
  const T72: seq<Word> :=
    [ 0xb6b87de6, 0x9a016148, 0x93859815, 0x4915e6cc,
      0xdc33c122, 0x98e18fa3, 0x5ffbe8fc, 0xf7154b8b,
      0x28c1fcb3, 0xc4b38f9d, 0x83e2f5d7, 0x7d24b98b,
      0x21078b22, 0xb193e7a3, 0xb2f49389, 0x6cde6026 ]
  const T73: seq<Word> :=
    [ 0x8a07ff15, 0x9a016148, 0x93859815, 0x4915e6cc,
      0x913768fe, 0x98e18fa3, 0x5ffbe8fc, 0xf7154b8b,
      0x0a39aedc, 0xc4b38f9d, 0x83e2f5d7, 0x7d24b98b,
      0x2d4cfe3e, 0xb193e7a3, 0xb2f49389, 0x6cde6026 ]
  const T74: seq<Word> :=
    [ 0x8a07ff15, 0x0cadc51c, 0x93859815, 0x4915e6cc,
      0x913768fe, 0x442a0c0c, 0x5ffbe8fc, 0xf7154b8b,
      0x0a39aedc, 0xc1428029, 0x83e2f5d7, 0x7d24b98b,
      0x2d4cfe3e, 0xe5466d1b, 0xb2f49389, 0x6cde6026 ]
  const T75: seq<Word> :=
    [ 0x8a07ff15, 0x0cadc51c, 0x017c8da9, 0x4915e6cc,
      0x913768fe, 0x442a0c0c, 0x598fe3bb, 0xf7154b8b,
      0x0a39aedc, 0xc1428029, 0x7b48135f, 0x7d24b98b,
      0x2d4cfe3e, 0xe5466d1b, 0xe4ccdc13, 0x6cde6026 ]
  const T76: seq<Word> :=
    [ 0x8a07ff15, 0x0cadc51c, 0x017c8da9, 0x4afbe5df,
      0x913768fe, 0x442a0c0c, 0x598fe3bb, 0x47d18828,
      0x0a39aedc, 0xc1428029, 0x7b48135f, 0x5a5f1098,
      0x2d4cfe3e, 0xe5466d1b, 0xe4ccdc13, 0x8ac92a18 ]
  const T77: seq<Word> :=
    [ 0x837778ab, 0x0cadc51c, 0x017c8da9, 0x4afbe5df,
      0x913768fe, 0xfc62bb2f, 0x598fe3bb, 0x47d18828,
      0x0a39aedc, 0xc1428029, 0xeabda8fc, 0x5a5f1098,
      0x2d4cfe3e, 0xe5466d1b, 0xe4ccdc13, 0x4e3c50a2 ]
  const T78: seq<Word> :=
    [ 0x837778ab, 0xe238d763, 0x017c8da9, 0x4afbe5df,
      0x913768fe, 0xfc62bb2f, 0x8fa018fc, 0x47d18828,
      0x0a39aedc, 0xc1428029, 0xeabda8fc, 0x82e46ebd,
      0xd19c12b4, 0xe5466d1b, 0xe4ccdc13, 0x4e3c50a2 ]
  const T79: seq<Word> :=
    [ 0x837778ab, 0xe238d763, 0xa67ae21e, 0x4afbe5df,
      0x913768fe, 0xfc62bb2f, 0x8fa018fc, 0x3f5ec7b7,
      0x335271c2, 0xc1428029, 0xeabda8fc, 0x82e46ebd,
      0xd19c12b4, 0xb04e16de, 0xe4ccdc13, 0x4e3c50a2 ]
  /** Section 2.3.2: the state after twenty rounds. */
  const T80: seq<Word> :=
    [ 0x837778ab, 0xe238d763, 0xa67ae21e, 0x5950bb2f,
      0xc4f2d0c7, 0xfc62bb2f, 0x8fa018fc, 0x3f5ec7b7,
      0x335271c2, 0xf29489f3, 0xeabda8fc, 0x82e46ebd,
      0xd19c12b4, 0xb04e16de, 0x9e83d0cb, 0x4e3c50a2 ]
}
