/**
 Known answers of FIPS 197: the key expansions of appendix A and the cipher of appendix B.
 */
module AesVectors {
  import opened AesTables
  import opened AesCipher
  import opened AesBlock
  import opened AesKeys
  import opened AesModes

  // ------------------------------------------------------------- single steps

  lemma ExpandedStep(k: seq<bv32>, i: nat, before: bv32, temp: bv32, turn: nat)
    requires |k| in {4, 6, 8} && i >= |k| && i % |k| == 0 && i / |k| == turn > 0
    requires Expanded(k, i - |k|) == before && Expanded(k, i - 1) == temp
    ensures Expanded(k, i) == AddWords(before, AddWords(SubWord(RotWord(temp)), RoundConstant(turn)))
  {
    hide SubWord, RotWord, RoundConstant, AddWords;
  }

  lemma ExpandedNext(k: seq<bv32>, i: nat, before: bv32, temp: bv32)
    requires |k| in {4, 6, 8} && i >= |k| && i % |k| != 0 && !(|k| == 8 && i % 8 == 4)
    requires Expanded(k, i - |k|) == before && Expanded(k, i - 1) == temp
    ensures Expanded(k, i) == AddWords(before, temp)
  {
    hide SubWord, RotWord, RoundConstant, AddWords;
  }

  lemma ExpandedMiddle(k: seq<bv32>, i: nat, before: bv32, temp: bv32)
    requires |k| == 8 && i >= 8 && i % 8 == 4
    requires Expanded(k, i - 8) == before && Expanded(k, i - 1) == temp
    ensures Expanded(k, i) == AddWords(before, SubWord(temp))
  {
    hide SubWord, RotWord, RoundConstant, AddWords;
  }

  lemma SubWordIs(w: bv32, c: Column, s: Column, r: bv32)
    requires Col(w) == c && SubColumn(c) == s && WordOf(s) == r
    ensures SubWord(w) == r
  {
    hide Col, SubColumn, WordOf;
  }

  lemma RoundStep(keys: seq<Block>, input: Block, i: nat, before: Block, sub: Block, shifted: Block, mixed: Block, after: Block)
    requires 0 < i < |keys| && Rounds(keys, input, i - 1) == before
    requires SubBytes(before) == sub && ShiftRows(sub) == shifted && MixColumns(shifted) == mixed
    requires AddRoundKey(mixed, keys[i]) == after
    ensures Rounds(keys, input, i) == after
  {
    hide SubBytes, ShiftRows, MixColumns, AddRoundKey;
  }

  // ------------------------------------------------------------- appendix A.1

  function KeyA1(): (k: seq<bv32>)
    ensures |k| == 4
  {
    [0x2b7e1516, 0x28aed2a6, 0xabf71588, 0x09cf4f3c]
  }

  lemma A1Turn0()
    ensures var k := KeyA1();
            Expanded(k, 0) == 0x2b7e1516 && Expanded(k, 1) == 0x28aed2a6 && Expanded(k, 2) == 0xabf71588 && Expanded(k, 3) == 0x09cf4f3c
  {
  }

  lemma A1Values1()
    ensures RotWord(0x09cf4f3c) == 0xcf4f3c09
    ensures Col(0xcf4f3c09) == Column(0xcf, 0x4f, 0x3c, 0x09)
    ensures SubColumn(Column(0xcf, 0x4f, 0x3c, 0x09)) == Column(0x8a, 0x84, 0xeb, 0x01)
    ensures WordOf(Column(0x8a, 0x84, 0xeb, 0x01)) == 0x8a84eb01
    ensures Rcon(0) == 0x01000000
    ensures AddWords(0x2b7e1516, AddWords(0x8a84eb01, 0x01000000)) == 0xa0fafe17
    ensures AddWords(0x28aed2a6, 0xa0fafe17) == 0x88542cb1
    ensures AddWords(0xabf71588, 0x88542cb1) == 0x23a33939
    ensures AddWords(0x09cf4f3c, 0x23a33939) == 0x2a6c7605
  {
  }

  lemma A1Turn1()
    ensures var k := KeyA1();
            Expanded(k, 4) == 0xa0fafe17 && Expanded(k, 5) == 0x88542cb1 && Expanded(k, 6) == 0x23a33939 && Expanded(k, 7) == 0x2a6c7605
  {
    hide Expanded, AddWords, SubWord, SubColumn, RotWord, Rcon, RoundConstant, Col, WordOf;
    var k := KeyA1();
    A1Turn0();
    A1Values1();
    SubWordIs(0xcf4f3c09, Column(0xcf, 0x4f, 0x3c, 0x09), Column(0x8a, 0x84, 0xeb, 0x01), 0x8a84eb01);
    RconIsPower(0);
    ExpandedStep(k, 4, 0x2b7e1516, 0x09cf4f3c, 1);
    ExpandedNext(k, 5, 0x28aed2a6, 0xa0fafe17);
    ExpandedNext(k, 6, 0xabf71588, 0x88542cb1);
    ExpandedNext(k, 7, 0x09cf4f3c, 0x23a33939);
  }

  lemma A1Values2()
    ensures RotWord(0x2a6c7605) == 0x6c76052a
    ensures Col(0x6c76052a) == Column(0x6c, 0x76, 0x05, 0x2a)
    ensures SubColumn(Column(0x6c, 0x76, 0x05, 0x2a)) == Column(0x50, 0x38, 0x6b, 0xe5)
    ensures WordOf(Column(0x50, 0x38, 0x6b, 0xe5)) == 0x50386be5
    ensures Rcon(1) == 0x02000000
    ensures AddWords(0xa0fafe17, AddWords(0x50386be5, 0x02000000)) == 0xf2c295f2
    ensures AddWords(0x88542cb1, 0xf2c295f2) == 0x7a96b943
    ensures AddWords(0x23a33939, 0x7a96b943) == 0x5935807a
    ensures AddWords(0x2a6c7605, 0x5935807a) == 0x7359f67f
  {
  }

  lemma A1Turn2()
    ensures var k := KeyA1();
            Expanded(k, 8) == 0xf2c295f2 && Expanded(k, 9) == 0x7a96b943 && Expanded(k, 10) == 0x5935807a && Expanded(k, 11) == 0x7359f67f
  {
    hide Expanded, AddWords, SubWord, SubColumn, RotWord, Rcon, RoundConstant, Col, WordOf;
    var k := KeyA1();
    A1Turn1();
    A1Values2();
    SubWordIs(0x6c76052a, Column(0x6c, 0x76, 0x05, 0x2a), Column(0x50, 0x38, 0x6b, 0xe5), 0x50386be5);
    RconIsPower(1);
    ExpandedStep(k, 8, 0xa0fafe17, 0x2a6c7605, 2);
    ExpandedNext(k, 9, 0x88542cb1, 0xf2c295f2);
    ExpandedNext(k, 10, 0x23a33939, 0x7a96b943);
    ExpandedNext(k, 11, 0x2a6c7605, 0x5935807a);
  }

  lemma A1Values3()
    ensures RotWord(0x7359f67f) == 0x59f67f73
    ensures Col(0x59f67f73) == Column(0x59, 0xf6, 0x7f, 0x73)
    ensures SubColumn(Column(0x59, 0xf6, 0x7f, 0x73)) == Column(0xcb, 0x42, 0xd2, 0x8f)
    ensures WordOf(Column(0xcb, 0x42, 0xd2, 0x8f)) == 0xcb42d28f
    ensures Rcon(2) == 0x04000000
    ensures AddWords(0xf2c295f2, AddWords(0xcb42d28f, 0x04000000)) == 0x3d80477d
    ensures AddWords(0x7a96b943, 0x3d80477d) == 0x4716fe3e
    ensures AddWords(0x5935807a, 0x4716fe3e) == 0x1e237e44
    ensures AddWords(0x7359f67f, 0x1e237e44) == 0x6d7a883b
  {
  }

  lemma A1Turn3()
    ensures var k := KeyA1();
            Expanded(k, 12) == 0x3d80477d && Expanded(k, 13) == 0x4716fe3e && Expanded(k, 14) == 0x1e237e44 && Expanded(k, 15) == 0x6d7a883b
  {
    hide Expanded, AddWords, SubWord, SubColumn, RotWord, Rcon, RoundConstant, Col, WordOf;
    var k := KeyA1();
    A1Turn2();
    A1Values3();
    SubWordIs(0x59f67f73, Column(0x59, 0xf6, 0x7f, 0x73), Column(0xcb, 0x42, 0xd2, 0x8f), 0xcb42d28f);
    RconIsPower(2);
    ExpandedStep(k, 12, 0xf2c295f2, 0x7359f67f, 3);
    ExpandedNext(k, 13, 0x7a96b943, 0x3d80477d);
    ExpandedNext(k, 14, 0x5935807a, 0x4716fe3e);
    ExpandedNext(k, 15, 0x7359f67f, 0x1e237e44);
  }

  lemma A1Values4()
    ensures RotWord(0x6d7a883b) == 0x7a883b6d
    ensures Col(0x7a883b6d) == Column(0x7a, 0x88, 0x3b, 0x6d)
    ensures SubColumn(Column(0x7a, 0x88, 0x3b, 0x6d)) == Column(0xda, 0xc4, 0xe2, 0x3c)
    ensures WordOf(Column(0xda, 0xc4, 0xe2, 0x3c)) == 0xdac4e23c
    ensures Rcon(3) == 0x08000000
    ensures AddWords(0x3d80477d, AddWords(0xdac4e23c, 0x08000000)) == 0xef44a541
    ensures AddWords(0x4716fe3e, 0xef44a541) == 0xa8525b7f
    ensures AddWords(0x1e237e44, 0xa8525b7f) == 0xb671253b
    ensures AddWords(0x6d7a883b, 0xb671253b) == 0xdb0bad00
  {
  }

  lemma A1Turn4()
    ensures var k := KeyA1();
            Expanded(k, 16) == 0xef44a541 && Expanded(k, 17) == 0xa8525b7f && Expanded(k, 18) == 0xb671253b && Expanded(k, 19) == 0xdb0bad00
  {
    hide Expanded, AddWords, SubWord, SubColumn, RotWord, Rcon, RoundConstant, Col, WordOf;
    var k := KeyA1();
    A1Turn3();
    A1Values4();
    SubWordIs(0x7a883b6d, Column(0x7a, 0x88, 0x3b, 0x6d), Column(0xda, 0xc4, 0xe2, 0x3c), 0xdac4e23c);
    RconIsPower(3);
    ExpandedStep(k, 16, 0x3d80477d, 0x6d7a883b, 4);
    ExpandedNext(k, 17, 0x4716fe3e, 0xef44a541);
    ExpandedNext(k, 18, 0x1e237e44, 0xa8525b7f);
    ExpandedNext(k, 19, 0x6d7a883b, 0xb671253b);
  }

  lemma A1Values5()
    ensures RotWord(0xdb0bad00) == 0x0bad00db
    ensures Col(0x0bad00db) == Column(0x0b, 0xad, 0x00, 0xdb)
    ensures SubColumn(Column(0x0b, 0xad, 0x00, 0xdb)) == Column(0x2b, 0x95, 0x63, 0xb9)
    ensures WordOf(Column(0x2b, 0x95, 0x63, 0xb9)) == 0x2b9563b9
    ensures Rcon(4) == 0x10000000
    ensures AddWords(0xef44a541, AddWords(0x2b9563b9, 0x10000000)) == 0xd4d1c6f8
    ensures AddWords(0xa8525b7f, 0xd4d1c6f8) == 0x7c839d87
    ensures AddWords(0xb671253b, 0x7c839d87) == 0xcaf2b8bc
    ensures AddWords(0xdb0bad00, 0xcaf2b8bc) == 0x11f915bc
  {
  }

  lemma A1Turn5()
    ensures var k := KeyA1();
            Expanded(k, 20) == 0xd4d1c6f8 && Expanded(k, 21) == 0x7c839d87 && Expanded(k, 22) == 0xcaf2b8bc && Expanded(k, 23) == 0x11f915bc
  {
    hide Expanded, AddWords, SubWord, SubColumn, RotWord, Rcon, RoundConstant, Col, WordOf;
    var k := KeyA1();
    A1Turn4();
    A1Values5();
    SubWordIs(0x0bad00db, Column(0x0b, 0xad, 0x00, 0xdb), Column(0x2b, 0x95, 0x63, 0xb9), 0x2b9563b9);
    RconIsPower(4);
    ExpandedStep(k, 20, 0xef44a541, 0xdb0bad00, 5);
    ExpandedNext(k, 21, 0xa8525b7f, 0xd4d1c6f8);
    ExpandedNext(k, 22, 0xb671253b, 0x7c839d87);
    ExpandedNext(k, 23, 0xdb0bad00, 0xcaf2b8bc);
  }

  lemma A1Values6()
    ensures RotWord(0x11f915bc) == 0xf915bc11
    ensures Col(0xf915bc11) == Column(0xf9, 0x15, 0xbc, 0x11)
    ensures SubColumn(Column(0xf9, 0x15, 0xbc, 0x11)) == Column(0x99, 0x59, 0x65, 0x82)
    ensures WordOf(Column(0x99, 0x59, 0x65, 0x82)) == 0x99596582
    ensures Rcon(5) == 0x20000000
    ensures AddWords(0xd4d1c6f8, AddWords(0x99596582, 0x20000000)) == 0x6d88a37a
    ensures AddWords(0x7c839d87, 0x6d88a37a) == 0x110b3efd
    ensures AddWords(0xcaf2b8bc, 0x110b3efd) == 0xdbf98641
    ensures AddWords(0x11f915bc, 0xdbf98641) == 0xca0093fd
  {
  }

  lemma A1Turn6()
    ensures var k := KeyA1();
            Expanded(k, 24) == 0x6d88a37a && Expanded(k, 25) == 0x110b3efd && Expanded(k, 26) == 0xdbf98641 && Expanded(k, 27) == 0xca0093fd
  {
    hide Expanded, AddWords, SubWord, SubColumn, RotWord, Rcon, RoundConstant, Col, WordOf;
    var k := KeyA1();
    A1Turn5();
    A1Values6();
    SubWordIs(0xf915bc11, Column(0xf9, 0x15, 0xbc, 0x11), Column(0x99, 0x59, 0x65, 0x82), 0x99596582);
    RconIsPower(5);
    ExpandedStep(k, 24, 0xd4d1c6f8, 0x11f915bc, 6);
    ExpandedNext(k, 25, 0x7c839d87, 0x6d88a37a);
    ExpandedNext(k, 26, 0xcaf2b8bc, 0x110b3efd);
    ExpandedNext(k, 27, 0x11f915bc, 0xdbf98641);
  }

  lemma A1Values7()
    ensures RotWord(0xca0093fd) == 0x0093fdca
    ensures Col(0x0093fdca) == Column(0x00, 0x93, 0xfd, 0xca)
    ensures SubColumn(Column(0x00, 0x93, 0xfd, 0xca)) == Column(0x63, 0xdc, 0x54, 0x74)
    ensures WordOf(Column(0x63, 0xdc, 0x54, 0x74)) == 0x63dc5474
    ensures Rcon(6) == 0x40000000
    ensures AddWords(0x6d88a37a, AddWords(0x63dc5474, 0x40000000)) == 0x4e54f70e
    ensures AddWords(0x110b3efd, 0x4e54f70e) == 0x5f5fc9f3
    ensures AddWords(0xdbf98641, 0x5f5fc9f3) == 0x84a64fb2
    ensures AddWords(0xca0093fd, 0x84a64fb2) == 0x4ea6dc4f
  {
  }

  lemma A1Turn7()
    ensures var k := KeyA1();
            Expanded(k, 28) == 0x4e54f70e && Expanded(k, 29) == 0x5f5fc9f3 && Expanded(k, 30) == 0x84a64fb2 && Expanded(k, 31) == 0x4ea6dc4f
  {
    hide Expanded, AddWords, SubWord, SubColumn, RotWord, Rcon, RoundConstant, Col, WordOf;
    var k := KeyA1();
    A1Turn6();
    A1Values7();
    SubWordIs(0x0093fdca, Column(0x00, 0x93, 0xfd, 0xca), Column(0x63, 0xdc, 0x54, 0x74), 0x63dc5474);
    RconIsPower(6);
    ExpandedStep(k, 28, 0x6d88a37a, 0xca0093fd, 7);
    ExpandedNext(k, 29, 0x110b3efd, 0x4e54f70e);
    ExpandedNext(k, 30, 0xdbf98641, 0x5f5fc9f3);
    ExpandedNext(k, 31, 0xca0093fd, 0x84a64fb2);
  }

  lemma A1Values8()
    ensures RotWord(0x4ea6dc4f) == 0xa6dc4f4e
    ensures Col(0xa6dc4f4e) == Column(0xa6, 0xdc, 0x4f, 0x4e)
    ensures SubColumn(Column(0xa6, 0xdc, 0x4f, 0x4e)) == Column(0x24, 0x86, 0x84, 0x2f)
    ensures WordOf(Column(0x24, 0x86, 0x84, 0x2f)) == 0x2486842f
    ensures Rcon(7) == 0x80000000
    ensures AddWords(0x4e54f70e, AddWords(0x2486842f, 0x80000000)) == 0xead27321
    ensures AddWords(0x5f5fc9f3, 0xead27321) == 0xb58dbad2
    ensures AddWords(0x84a64fb2, 0xb58dbad2) == 0x312bf560
    ensures AddWords(0x4ea6dc4f, 0x312bf560) == 0x7f8d292f
  {
  }

  lemma A1Turn8()
    ensures var k := KeyA1();
            Expanded(k, 32) == 0xead27321 && Expanded(k, 33) == 0xb58dbad2 && Expanded(k, 34) == 0x312bf560 && Expanded(k, 35) == 0x7f8d292f
  {
    hide Expanded, AddWords, SubWord, SubColumn, RotWord, Rcon, RoundConstant, Col, WordOf;
    var k := KeyA1();
    A1Turn7();
    A1Values8();
    SubWordIs(0xa6dc4f4e, Column(0xa6, 0xdc, 0x4f, 0x4e), Column(0x24, 0x86, 0x84, 0x2f), 0x2486842f);
    RconIsPower(7);
    ExpandedStep(k, 32, 0x4e54f70e, 0x4ea6dc4f, 8);
    ExpandedNext(k, 33, 0x5f5fc9f3, 0xead27321);
    ExpandedNext(k, 34, 0x84a64fb2, 0xb58dbad2);
    ExpandedNext(k, 35, 0x4ea6dc4f, 0x312bf560);
  }

  lemma A1Values9()
    ensures RotWord(0x7f8d292f) == 0x8d292f7f
    ensures Col(0x8d292f7f) == Column(0x8d, 0x29, 0x2f, 0x7f)
    ensures SubColumn(Column(0x8d, 0x29, 0x2f, 0x7f)) == Column(0x5d, 0xa5, 0x15, 0xd2)
    ensures WordOf(Column(0x5d, 0xa5, 0x15, 0xd2)) == 0x5da515d2
    ensures Rcon(8) == 0x1b000000
    ensures AddWords(0xead27321, AddWords(0x5da515d2, 0x1b000000)) == 0xac7766f3
    ensures AddWords(0xb58dbad2, 0xac7766f3) == 0x19fadc21
    ensures AddWords(0x312bf560, 0x19fadc21) == 0x28d12941
    ensures AddWords(0x7f8d292f, 0x28d12941) == 0x575c006e
  {
  }

  lemma A1Turn9()
    ensures var k := KeyA1();
            Expanded(k, 36) == 0xac7766f3 && Expanded(k, 37) == 0x19fadc21 && Expanded(k, 38) == 0x28d12941 && Expanded(k, 39) == 0x575c006e
  {
    hide Expanded, AddWords, SubWord, SubColumn, RotWord, Rcon, RoundConstant, Col, WordOf;
    var k := KeyA1();
    A1Turn8();
    A1Values9();
    SubWordIs(0x8d292f7f, Column(0x8d, 0x29, 0x2f, 0x7f), Column(0x5d, 0xa5, 0x15, 0xd2), 0x5da515d2);
    RconIsPower(8);
    ExpandedStep(k, 36, 0xead27321, 0x7f8d292f, 9);
    ExpandedNext(k, 37, 0xb58dbad2, 0xac7766f3);
    ExpandedNext(k, 38, 0x312bf560, 0x19fadc21);
    ExpandedNext(k, 39, 0x7f8d292f, 0x28d12941);
  }

  lemma A1Values10()
    ensures RotWord(0x575c006e) == 0x5c006e57
    ensures Col(0x5c006e57) == Column(0x5c, 0x00, 0x6e, 0x57)
    ensures SubColumn(Column(0x5c, 0x00, 0x6e, 0x57)) == Column(0x4a, 0x63, 0x9f, 0x5b)
    ensures WordOf(Column(0x4a, 0x63, 0x9f, 0x5b)) == 0x4a639f5b
    ensures Rcon(9) == 0x36000000
    ensures AddWords(0xac7766f3, AddWords(0x4a639f5b, 0x36000000)) == 0xd014f9a8
    ensures AddWords(0x19fadc21, 0xd014f9a8) == 0xc9ee2589
    ensures AddWords(0x28d12941, 0xc9ee2589) == 0xe13f0cc8
    ensures AddWords(0x575c006e, 0xe13f0cc8) == 0xb6630ca6
  {
  }

  lemma A1Turn10()
    ensures var k := KeyA1();
            Expanded(k, 40) == 0xd014f9a8 && Expanded(k, 41) == 0xc9ee2589 && Expanded(k, 42) == 0xe13f0cc8 && Expanded(k, 43) == 0xb6630ca6
  {
    hide Expanded, AddWords, SubWord, SubColumn, RotWord, Rcon, RoundConstant, Col, WordOf;
    var k := KeyA1();
    A1Turn9();
    A1Values10();
    SubWordIs(0x5c006e57, Column(0x5c, 0x00, 0x6e, 0x57), Column(0x4a, 0x63, 0x9f, 0x5b), 0x4a639f5b);
    RconIsPower(9);
    ExpandedStep(k, 40, 0xac7766f3, 0x575c006e, 10);
    ExpandedNext(k, 41, 0x19fadc21, 0xd014f9a8);
    ExpandedNext(k, 42, 0x28d12941, 0xc9ee2589);
    ExpandedNext(k, 43, 0x575c006e, 0xe13f0cc8);
  }

  // ------------------------------------------------------------- appendix A.2

  function KeyA2(): (k: seq<bv32>)
    ensures |k| == 6
  {
    [0x8e73b0f7, 0xda0e6452, 0xc810f32b, 0x809079e5, 0x62f8ead2, 0x522c6b7b]
  }

  lemma A2Turn0()
    ensures var k := KeyA2();
            Expanded(k, 0) == 0x8e73b0f7 && Expanded(k, 1) == 0xda0e6452 && Expanded(k, 2) == 0xc810f32b && Expanded(k, 3) == 0x809079e5 && Expanded(k, 4) == 0x62f8ead2 && Expanded(k, 5) == 0x522c6b7b
  {
  }

  lemma A2Values1()
    ensures RotWord(0x522c6b7b) == 0x2c6b7b52
    ensures Col(0x2c6b7b52) == Column(0x2c, 0x6b, 0x7b, 0x52)
    ensures SubColumn(Column(0x2c, 0x6b, 0x7b, 0x52)) == Column(0x71, 0x7f, 0x21, 0x00)
    ensures WordOf(Column(0x71, 0x7f, 0x21, 0x00)) == 0x717f2100
    ensures Rcon(0) == 0x01000000
    ensures AddWords(0x8e73b0f7, AddWords(0x717f2100, 0x01000000)) == 0xfe0c91f7
    ensures AddWords(0xda0e6452, 0xfe0c91f7) == 0x2402f5a5
    ensures AddWords(0xc810f32b, 0x2402f5a5) == 0xec12068e
    ensures AddWords(0x809079e5, 0xec12068e) == 0x6c827f6b
    ensures AddWords(0x62f8ead2, 0x6c827f6b) == 0x0e7a95b9
    ensures AddWords(0x522c6b7b, 0x0e7a95b9) == 0x5c56fec2
  {
  }

  lemma A2Turn1()
    ensures var k := KeyA2();
            Expanded(k, 6) == 0xfe0c91f7 && Expanded(k, 7) == 0x2402f5a5 && Expanded(k, 8) == 0xec12068e && Expanded(k, 9) == 0x6c827f6b && Expanded(k, 10) == 0x0e7a95b9 && Expanded(k, 11) == 0x5c56fec2
  {
    hide Expanded, AddWords, SubWord, SubColumn, RotWord, Rcon, RoundConstant, Col, WordOf;
    var k := KeyA2();
    A2Turn0();
    A2Values1();
    SubWordIs(0x2c6b7b52, Column(0x2c, 0x6b, 0x7b, 0x52), Column(0x71, 0x7f, 0x21, 0x00), 0x717f2100);
    RconIsPower(0);
    ExpandedStep(k, 6, 0x8e73b0f7, 0x522c6b7b, 1);
    ExpandedNext(k, 7, 0xda0e6452, 0xfe0c91f7);
    ExpandedNext(k, 8, 0xc810f32b, 0x2402f5a5);
    ExpandedNext(k, 9, 0x809079e5, 0xec12068e);
    ExpandedNext(k, 10, 0x62f8ead2, 0x6c827f6b);
    ExpandedNext(k, 11, 0x522c6b7b, 0x0e7a95b9);
  }

  lemma A2Values2()
    ensures RotWord(0x5c56fec2) == 0x56fec25c
    ensures Col(0x56fec25c) == Column(0x56, 0xfe, 0xc2, 0x5c)
    ensures SubColumn(Column(0x56, 0xfe, 0xc2, 0x5c)) == Column(0xb1, 0xbb, 0x25, 0x4a)
    ensures WordOf(Column(0xb1, 0xbb, 0x25, 0x4a)) == 0xb1bb254a
    ensures Rcon(1) == 0x02000000
    ensures AddWords(0xfe0c91f7, AddWords(0xb1bb254a, 0x02000000)) == 0x4db7b4bd
    ensures AddWords(0x2402f5a5, 0x4db7b4bd) == 0x69b54118
    ensures AddWords(0xec12068e, 0x69b54118) == 0x85a74796
    ensures AddWords(0x6c827f6b, 0x85a74796) == 0xe92538fd
    ensures AddWords(0x0e7a95b9, 0xe92538fd) == 0xe75fad44
    ensures AddWords(0x5c56fec2, 0xe75fad44) == 0xbb095386
  {
  }

  lemma A2Turn2()
    ensures var k := KeyA2();
            Expanded(k, 12) == 0x4db7b4bd && Expanded(k, 13) == 0x69b54118 && Expanded(k, 14) == 0x85a74796 && Expanded(k, 15) == 0xe92538fd && Expanded(k, 16) == 0xe75fad44 && Expanded(k, 17) == 0xbb095386
  {
    hide Expanded, AddWords, SubWord, SubColumn, RotWord, Rcon, RoundConstant, Col, WordOf;
    var k := KeyA2();
    A2Turn1();
    A2Values2();
    SubWordIs(0x56fec25c, Column(0x56, 0xfe, 0xc2, 0x5c), Column(0xb1, 0xbb, 0x25, 0x4a), 0xb1bb254a);
    RconIsPower(1);
    ExpandedStep(k, 12, 0xfe0c91f7, 0x5c56fec2, 2);
    ExpandedNext(k, 13, 0x2402f5a5, 0x4db7b4bd);
    ExpandedNext(k, 14, 0xec12068e, 0x69b54118);
    ExpandedNext(k, 15, 0x6c827f6b, 0x85a74796);
    ExpandedNext(k, 16, 0x0e7a95b9, 0xe92538fd);
    ExpandedNext(k, 17, 0x5c56fec2, 0xe75fad44);
  }

  // ------------------------------------------------------------- appendix A.3

  function KeyA3(): (k: seq<bv32>)
    ensures |k| == 8
  {
    [0x603deb10, 0x15ca71be, 0x2b73aef0, 0x857d7781, 0x1f352c07, 0x3b6108d7, 0x2d9810a3, 0x0914dff4]
  }

  lemma A3Turn0()
    ensures var k := KeyA3();
            Expanded(k, 0) == 0x603deb10 && Expanded(k, 1) == 0x15ca71be && Expanded(k, 2) == 0x2b73aef0 && Expanded(k, 3) == 0x857d7781 && Expanded(k, 4) == 0x1f352c07 && Expanded(k, 5) == 0x3b6108d7 && Expanded(k, 6) == 0x2d9810a3 && Expanded(k, 7) == 0x0914dff4
  {
  }

  lemma A3Values1()
    ensures RotWord(0x0914dff4) == 0x14dff409
    ensures Col(0x14dff409) == Column(0x14, 0xdf, 0xf4, 0x09)
    ensures SubColumn(Column(0x14, 0xdf, 0xf4, 0x09)) == Column(0xfa, 0x9e, 0xbf, 0x01)
    ensures WordOf(Column(0xfa, 0x9e, 0xbf, 0x01)) == 0xfa9ebf01
    ensures Rcon(0) == 0x01000000
    ensures AddWords(0x603deb10, AddWords(0xfa9ebf01, 0x01000000)) == 0x9ba35411
    ensures AddWords(0x15ca71be, 0x9ba35411) == 0x8e6925af
    ensures AddWords(0x2b73aef0, 0x8e6925af) == 0xa51a8b5f
    ensures AddWords(0x857d7781, 0xa51a8b5f) == 0x2067fcde
    ensures Col(0x2067fcde) == Column(0x20, 0x67, 0xfc, 0xde)
    ensures SubColumn(Column(0x20, 0x67, 0xfc, 0xde)) == Column(0xb7, 0x85, 0xb0, 0x1d)
    ensures WordOf(Column(0xb7, 0x85, 0xb0, 0x1d)) == 0xb785b01d
    ensures AddWords(0x1f352c07, 0xb785b01d) == 0xa8b09c1a
    ensures AddWords(0x3b6108d7, 0xa8b09c1a) == 0x93d194cd
    ensures AddWords(0x2d9810a3, 0x93d194cd) == 0xbe49846e
    ensures AddWords(0x0914dff4, 0xbe49846e) == 0xb75d5b9a
  {
  }

  lemma A3Turn1()
    ensures var k := KeyA3();
            Expanded(k, 8) == 0x9ba35411 && Expanded(k, 9) == 0x8e6925af && Expanded(k, 10) == 0xa51a8b5f && Expanded(k, 11) == 0x2067fcde && Expanded(k, 12) == 0xa8b09c1a && Expanded(k, 13) == 0x93d194cd && Expanded(k, 14) == 0xbe49846e && Expanded(k, 15) == 0xb75d5b9a
  {
    hide Expanded, AddWords, SubWord, SubColumn, RotWord, Rcon, RoundConstant, Col, WordOf;
    var k := KeyA3();
    A3Turn0();
    A3Values1();
    SubWordIs(0x14dff409, Column(0x14, 0xdf, 0xf4, 0x09), Column(0xfa, 0x9e, 0xbf, 0x01), 0xfa9ebf01);
    RconIsPower(0);
    ExpandedStep(k, 8, 0x603deb10, 0x0914dff4, 1);
    ExpandedNext(k, 9, 0x15ca71be, 0x9ba35411);
    ExpandedNext(k, 10, 0x2b73aef0, 0x8e6925af);
    ExpandedNext(k, 11, 0x857d7781, 0xa51a8b5f);
    SubWordIs(0x2067fcde, Column(0x20, 0x67, 0xfc, 0xde), Column(0xb7, 0x85, 0xb0, 0x1d), 0xb785b01d);
    ExpandedMiddle(k, 12, 0x1f352c07, 0x2067fcde);
    ExpandedNext(k, 13, 0x3b6108d7, 0xa8b09c1a);
    ExpandedNext(k, 14, 0x2d9810a3, 0x93d194cd);
    ExpandedNext(k, 15, 0x0914dff4, 0xbe49846e);
  }

  lemma A3Values2()
    ensures RotWord(0xb75d5b9a) == 0x5d5b9ab7
    ensures Col(0x5d5b9ab7) == Column(0x5d, 0x5b, 0x9a, 0xb7)
    ensures SubColumn(Column(0x5d, 0x5b, 0x9a, 0xb7)) == Column(0x4c, 0x39, 0xb8, 0xa9)
    ensures WordOf(Column(0x4c, 0x39, 0xb8, 0xa9)) == 0x4c39b8a9
    ensures Rcon(1) == 0x02000000
    ensures AddWords(0x9ba35411, AddWords(0x4c39b8a9, 0x02000000)) == 0xd59aecb8
    ensures AddWords(0x8e6925af, 0xd59aecb8) == 0x5bf3c917
    ensures AddWords(0xa51a8b5f, 0x5bf3c917) == 0xfee94248
    ensures AddWords(0x2067fcde, 0xfee94248) == 0xde8ebe96
    ensures Col(0xde8ebe96) == Column(0xde, 0x8e, 0xbe, 0x96)
    ensures SubColumn(Column(0xde, 0x8e, 0xbe, 0x96)) == Column(0x1d, 0x19, 0xae, 0x90)
    ensures WordOf(Column(0x1d, 0x19, 0xae, 0x90)) == 0x1d19ae90
    ensures AddWords(0xa8b09c1a, 0x1d19ae90) == 0xb5a9328a
    ensures AddWords(0x93d194cd, 0xb5a9328a) == 0x2678a647
    ensures AddWords(0xbe49846e, 0x2678a647) == 0x98312229
    ensures AddWords(0xb75d5b9a, 0x98312229) == 0x2f6c79b3
  {
  }

  lemma A3Turn2()
    ensures var k := KeyA3();
            Expanded(k, 16) == 0xd59aecb8 && Expanded(k, 17) == 0x5bf3c917 && Expanded(k, 18) == 0xfee94248 && Expanded(k, 19) == 0xde8ebe96 && Expanded(k, 20) == 0xb5a9328a && Expanded(k, 21) == 0x2678a647 && Expanded(k, 22) == 0x98312229 && Expanded(k, 23) == 0x2f6c79b3
  {
    hide Expanded, AddWords, SubWord, SubColumn, RotWord, Rcon, RoundConstant, Col, WordOf;
    var k := KeyA3();
    A3Turn1();
    A3Values2();
    SubWordIs(0x5d5b9ab7, Column(0x5d, 0x5b, 0x9a, 0xb7), Column(0x4c, 0x39, 0xb8, 0xa9), 0x4c39b8a9);
    RconIsPower(1);
    ExpandedStep(k, 16, 0x9ba35411, 0xb75d5b9a, 2);
    ExpandedNext(k, 17, 0x8e6925af, 0xd59aecb8);
    ExpandedNext(k, 18, 0xa51a8b5f, 0x5bf3c917);
    ExpandedNext(k, 19, 0x2067fcde, 0xfee94248);
    SubWordIs(0xde8ebe96, Column(0xde, 0x8e, 0xbe, 0x96), Column(0x1d, 0x19, 0xae, 0x90), 0x1d19ae90);
    ExpandedMiddle(k, 20, 0xa8b09c1a, 0xde8ebe96);
    ExpandedNext(k, 21, 0x93d194cd, 0xb5a9328a);
    ExpandedNext(k, 22, 0xbe49846e, 0x2678a647);
    ExpandedNext(k, 23, 0xb75d5b9a, 0x98312229);
  }

  // ------------------------------------------------------------- appendix B

  function Keys(): (keys: seq<Block>)
    ensures |keys| == 11
  {
    Schedule(KeyA1())
  }

  function Input(): Block {
    Block(Column(0x32, 0x43, 0xf6, 0xa8), Column(0x88, 0x5a, 0x30, 0x8d), Column(0x31, 0x31, 0x98, 0xa2), Column(0xe0, 0x37, 0x07, 0x34))
  }

  lemma KeyIs0()
    ensures Keys()[0] == Block(Column(0x2b, 0x7e, 0x15, 0x16), Column(0x28, 0xae, 0xd2, 0xa6), Column(0xab, 0xf7, 0x15, 0x88), Column(0x09, 0xcf, 0x4f, 0x3c))
  {
    hide Expanded, Col;
    A1Turn0();
    Columns0();
  }

  lemma Columns0()
    ensures Col(0x2b7e1516) == Column(0x2b, 0x7e, 0x15, 0x16)
    ensures Col(0x28aed2a6) == Column(0x28, 0xae, 0xd2, 0xa6)
    ensures Col(0xabf71588) == Column(0xab, 0xf7, 0x15, 0x88)
    ensures Col(0x09cf4f3c) == Column(0x09, 0xcf, 0x4f, 0x3c)
  {
  }

  lemma KeyIs1()
    ensures Keys()[1] == Block(Column(0xa0, 0xfa, 0xfe, 0x17), Column(0x88, 0x54, 0x2c, 0xb1), Column(0x23, 0xa3, 0x39, 0x39), Column(0x2a, 0x6c, 0x76, 0x05))
  {
    hide Expanded, Col;
    A1Turn1();
    Columns1();
  }

  lemma Columns1()
    ensures Col(0xa0fafe17) == Column(0xa0, 0xfa, 0xfe, 0x17)
    ensures Col(0x88542cb1) == Column(0x88, 0x54, 0x2c, 0xb1)
    ensures Col(0x23a33939) == Column(0x23, 0xa3, 0x39, 0x39)
    ensures Col(0x2a6c7605) == Column(0x2a, 0x6c, 0x76, 0x05)
  {
  }

  lemma KeyIs2()
    ensures Keys()[2] == Block(Column(0xf2, 0xc2, 0x95, 0xf2), Column(0x7a, 0x96, 0xb9, 0x43), Column(0x59, 0x35, 0x80, 0x7a), Column(0x73, 0x59, 0xf6, 0x7f))
  {
    hide Expanded, Col;
    A1Turn2();
    Columns2();
  }

  lemma Columns2()
    ensures Col(0xf2c295f2) == Column(0xf2, 0xc2, 0x95, 0xf2)
    ensures Col(0x7a96b943) == Column(0x7a, 0x96, 0xb9, 0x43)
    ensures Col(0x5935807a) == Column(0x59, 0x35, 0x80, 0x7a)
    ensures Col(0x7359f67f) == Column(0x73, 0x59, 0xf6, 0x7f)
  {
  }

  lemma KeyIs3()
    ensures Keys()[3] == Block(Column(0x3d, 0x80, 0x47, 0x7d), Column(0x47, 0x16, 0xfe, 0x3e), Column(0x1e, 0x23, 0x7e, 0x44), Column(0x6d, 0x7a, 0x88, 0x3b))
  {
    hide Expanded, Col;
    A1Turn3();
    Columns3();
  }

  lemma Columns3()
    ensures Col(0x3d80477d) == Column(0x3d, 0x80, 0x47, 0x7d)
    ensures Col(0x4716fe3e) == Column(0x47, 0x16, 0xfe, 0x3e)
    ensures Col(0x1e237e44) == Column(0x1e, 0x23, 0x7e, 0x44)
    ensures Col(0x6d7a883b) == Column(0x6d, 0x7a, 0x88, 0x3b)
  {
  }

  lemma KeyIs4()
    ensures Keys()[4] == Block(Column(0xef, 0x44, 0xa5, 0x41), Column(0xa8, 0x52, 0x5b, 0x7f), Column(0xb6, 0x71, 0x25, 0x3b), Column(0xdb, 0x0b, 0xad, 0x00))
  {
    hide Expanded, Col;
    A1Turn4();
    Columns4();
  }

  lemma Columns4()
    ensures Col(0xef44a541) == Column(0xef, 0x44, 0xa5, 0x41)
    ensures Col(0xa8525b7f) == Column(0xa8, 0x52, 0x5b, 0x7f)
    ensures Col(0xb671253b) == Column(0xb6, 0x71, 0x25, 0x3b)
    ensures Col(0xdb0bad00) == Column(0xdb, 0x0b, 0xad, 0x00)
  {
  }

  lemma KeyIs5()
    ensures Keys()[5] == Block(Column(0xd4, 0xd1, 0xc6, 0xf8), Column(0x7c, 0x83, 0x9d, 0x87), Column(0xca, 0xf2, 0xb8, 0xbc), Column(0x11, 0xf9, 0x15, 0xbc))
  {
    hide Expanded, Col;
    A1Turn5();
    Columns5();
  }

  lemma Columns5()
    ensures Col(0xd4d1c6f8) == Column(0xd4, 0xd1, 0xc6, 0xf8)
    ensures Col(0x7c839d87) == Column(0x7c, 0x83, 0x9d, 0x87)
    ensures Col(0xcaf2b8bc) == Column(0xca, 0xf2, 0xb8, 0xbc)
    ensures Col(0x11f915bc) == Column(0x11, 0xf9, 0x15, 0xbc)
  {
  }

  lemma KeyIs6()
    ensures Keys()[6] == Block(Column(0x6d, 0x88, 0xa3, 0x7a), Column(0x11, 0x0b, 0x3e, 0xfd), Column(0xdb, 0xf9, 0x86, 0x41), Column(0xca, 0x00, 0x93, 0xfd))
  {
    hide Expanded, Col;
    A1Turn6();
    Columns6();
  }

  lemma Columns6()
    ensures Col(0x6d88a37a) == Column(0x6d, 0x88, 0xa3, 0x7a)
    ensures Col(0x110b3efd) == Column(0x11, 0x0b, 0x3e, 0xfd)
    ensures Col(0xdbf98641) == Column(0xdb, 0xf9, 0x86, 0x41)
    ensures Col(0xca0093fd) == Column(0xca, 0x00, 0x93, 0xfd)
  {
  }

  lemma KeyIs7()
    ensures Keys()[7] == Block(Column(0x4e, 0x54, 0xf7, 0x0e), Column(0x5f, 0x5f, 0xc9, 0xf3), Column(0x84, 0xa6, 0x4f, 0xb2), Column(0x4e, 0xa6, 0xdc, 0x4f))
  {
    hide Expanded, Col;
    A1Turn7();
    Columns7();
  }

  lemma Columns7()
    ensures Col(0x4e54f70e) == Column(0x4e, 0x54, 0xf7, 0x0e)
    ensures Col(0x5f5fc9f3) == Column(0x5f, 0x5f, 0xc9, 0xf3)
    ensures Col(0x84a64fb2) == Column(0x84, 0xa6, 0x4f, 0xb2)
    ensures Col(0x4ea6dc4f) == Column(0x4e, 0xa6, 0xdc, 0x4f)
  {
  }

  lemma KeyIs8()
    ensures Keys()[8] == Block(Column(0xea, 0xd2, 0x73, 0x21), Column(0xb5, 0x8d, 0xba, 0xd2), Column(0x31, 0x2b, 0xf5, 0x60), Column(0x7f, 0x8d, 0x29, 0x2f))
  {
    hide Expanded, Col;
    A1Turn8();
    Columns8();
  }

  lemma Columns8()
    ensures Col(0xead27321) == Column(0xea, 0xd2, 0x73, 0x21)
    ensures Col(0xb58dbad2) == Column(0xb5, 0x8d, 0xba, 0xd2)
    ensures Col(0x312bf560) == Column(0x31, 0x2b, 0xf5, 0x60)
    ensures Col(0x7f8d292f) == Column(0x7f, 0x8d, 0x29, 0x2f)
  {
  }

  lemma KeyIs9()
    ensures Keys()[9] == Block(Column(0xac, 0x77, 0x66, 0xf3), Column(0x19, 0xfa, 0xdc, 0x21), Column(0x28, 0xd1, 0x29, 0x41), Column(0x57, 0x5c, 0x00, 0x6e))
  {
    hide Expanded, Col;
    A1Turn9();
    Columns9();
  }

  lemma Columns9()
    ensures Col(0xac7766f3) == Column(0xac, 0x77, 0x66, 0xf3)
    ensures Col(0x19fadc21) == Column(0x19, 0xfa, 0xdc, 0x21)
    ensures Col(0x28d12941) == Column(0x28, 0xd1, 0x29, 0x41)
    ensures Col(0x575c006e) == Column(0x57, 0x5c, 0x00, 0x6e)
  {
  }

  lemma KeyIs10()
    ensures Keys()[10] == Block(Column(0xd0, 0x14, 0xf9, 0xa8), Column(0xc9, 0xee, 0x25, 0x89), Column(0xe1, 0x3f, 0x0c, 0xc8), Column(0xb6, 0x63, 0x0c, 0xa6))
  {
    hide Expanded, Col;
    A1Turn10();
    Columns10();
  }

  lemma Columns10()
    ensures Col(0xd014f9a8) == Column(0xd0, 0x14, 0xf9, 0xa8)
    ensures Col(0xc9ee2589) == Column(0xc9, 0xee, 0x25, 0x89)
    ensures Col(0xe13f0cc8) == Column(0xe1, 0x3f, 0x0c, 0xc8)
    ensures Col(0xb6630ca6) == Column(0xb6, 0x63, 0x0c, 0xa6)
  {
  }

  lemma Round0()
    ensures Rounds(Keys(), Input(), 0) == Block(Column(0x19, 0x3d, 0xe3, 0xbe), Column(0xa0, 0xf4, 0xe2, 0x2b), Column(0x9a, 0xc6, 0x8d, 0x2a), Column(0xe9, 0xf8, 0x48, 0x08))
  {
    hide Keys;
    KeyIs0();
  }

  lemma Sub1()
    ensures SubBytes(Block(Column(0x19, 0x3d, 0xe3, 0xbe), Column(0xa0, 0xf4, 0xe2, 0x2b), Column(0x9a, 0xc6, 0x8d, 0x2a), Column(0xe9, 0xf8, 0x48, 0x08))) == Block(Column(0xd4, 0x27, 0x11, 0xae), Column(0xe0, 0xbf, 0x98, 0xf1), Column(0xb8, 0xb4, 0x5d, 0xe5), Column(0x1e, 0x41, 0x52, 0x30))
    ensures ShiftRows(Block(Column(0xd4, 0x27, 0x11, 0xae), Column(0xe0, 0xbf, 0x98, 0xf1), Column(0xb8, 0xb4, 0x5d, 0xe5), Column(0x1e, 0x41, 0x52, 0x30))) == Block(Column(0xd4, 0xbf, 0x5d, 0x30), Column(0xe0, 0xb4, 0x52, 0xae), Column(0xb8, 0x41, 0x11, 0xf1), Column(0x1e, 0x27, 0x98, 0xe5))
  {
  }

  lemma Multiples1()
    ensures Mul(2, 0xd4) == 0xb3 && Mul(3, 0xd4) == 0x67 && Mul(2, 0xbf) == 0x65 && Mul(3, 0xbf) == 0xda && Mul(2, 0x5d) == 0xba && Mul(3, 0x5d) == 0xe7 && Mul(2, 0x30) == 0x60 && Mul(3, 0x30) == 0x50
    ensures Mul(2, 0xe0) == 0xdb && Mul(3, 0xe0) == 0x3b && Mul(2, 0xb4) == 0x73 && Mul(3, 0xb4) == 0xc7 && Mul(2, 0x52) == 0xa4 && Mul(3, 0x52) == 0xf6 && Mul(2, 0xae) == 0x47 && Mul(3, 0xae) == 0xe9
    ensures Mul(2, 0xb8) == 0x6b && Mul(3, 0xb8) == 0xd3 && Mul(2, 0x41) == 0x82 && Mul(3, 0x41) == 0xc3 && Mul(2, 0x11) == 0x22 && Mul(3, 0x11) == 0x33 && Mul(2, 0xf1) == 0xf9 && Mul(3, 0xf1) == 0x08
    ensures Mul(2, 0x1e) == 0x3c && Mul(3, 0x1e) == 0x22 && Mul(2, 0x27) == 0x4e && Mul(3, 0x27) == 0x69 && Mul(2, 0x98) == 0x2b && Mul(3, 0x98) == 0xb3 && Mul(2, 0xe5) == 0xd1 && Mul(3, 0xe5) == 0x34
  {
  }

  lemma Mix1()
    ensures MixColumns(Block(Column(0xd4, 0xbf, 0x5d, 0x30), Column(0xe0, 0xb4, 0x52, 0xae), Column(0xb8, 0x41, 0x11, 0xf1), Column(0x1e, 0x27, 0x98, 0xe5))) == Block(Column(0x04, 0x66, 0x81, 0xe5), Column(0xe0, 0xcb, 0x19, 0x9a), Column(0x48, 0xf8, 0xd3, 0x7a), Column(0x28, 0x06, 0x26, 0x4c))
    ensures AddRoundKey(Block(Column(0x04, 0x66, 0x81, 0xe5), Column(0xe0, 0xcb, 0x19, 0x9a), Column(0x48, 0xf8, 0xd3, 0x7a), Column(0x28, 0x06, 0x26, 0x4c)), Block(Column(0xa0, 0xfa, 0xfe, 0x17), Column(0x88, 0x54, 0x2c, 0xb1), Column(0x23, 0xa3, 0x39, 0x39), Column(0x2a, 0x6c, 0x76, 0x05))) == Block(Column(0xa4, 0x9c, 0x7f, 0xf2), Column(0x68, 0x9f, 0x35, 0x2b), Column(0x6b, 0x5b, 0xea, 0x43), Column(0x02, 0x6a, 0x50, 0x49))
  {
    hide Mul;
    Multiples1();
    MulOne(0x11);
    MulOne(0x1e);
    MulOne(0x27);
    MulOne(0x30);
    MulOne(0x41);
    MulOne(0x52);
    MulOne(0x5d);
    MulOne(0x98);
    MulOne(0xae);
    MulOne(0xb4);
    MulOne(0xb8);
    MulOne(0xbf);
    MulOne(0xd4);
    MulOne(0xe0);
    MulOne(0xe5);
    MulOne(0xf1);
  }

  lemma Round1()
    ensures Rounds(Keys(), Input(), 1) == Block(Column(0xa4, 0x9c, 0x7f, 0xf2), Column(0x68, 0x9f, 0x35, 0x2b), Column(0x6b, 0x5b, 0xea, 0x43), Column(0x02, 0x6a, 0x50, 0x49))
  {
    hide Rounds, SubBytes, ShiftRows, MixColumns, AddRoundKey, Keys, Input;
    Round0();
    Sub1();
    Mix1();
    KeyIs1();
    RoundStep(Keys(), Input(), 1, Block(Column(0x19, 0x3d, 0xe3, 0xbe), Column(0xa0, 0xf4, 0xe2, 0x2b), Column(0x9a, 0xc6, 0x8d, 0x2a), Column(0xe9, 0xf8, 0x48, 0x08)), Block(Column(0xd4, 0x27, 0x11, 0xae), Column(0xe0, 0xbf, 0x98, 0xf1), Column(0xb8, 0xb4, 0x5d, 0xe5), Column(0x1e, 0x41, 0x52, 0x30)),
              Block(Column(0xd4, 0xbf, 0x5d, 0x30), Column(0xe0, 0xb4, 0x52, 0xae), Column(0xb8, 0x41, 0x11, 0xf1), Column(0x1e, 0x27, 0x98, 0xe5)), Block(Column(0x04, 0x66, 0x81, 0xe5), Column(0xe0, 0xcb, 0x19, 0x9a), Column(0x48, 0xf8, 0xd3, 0x7a), Column(0x28, 0x06, 0x26, 0x4c)),
              Block(Column(0xa4, 0x9c, 0x7f, 0xf2), Column(0x68, 0x9f, 0x35, 0x2b), Column(0x6b, 0x5b, 0xea, 0x43), Column(0x02, 0x6a, 0x50, 0x49)));
  }

  lemma Sub2()
    ensures SubBytes(Block(Column(0xa4, 0x9c, 0x7f, 0xf2), Column(0x68, 0x9f, 0x35, 0x2b), Column(0x6b, 0x5b, 0xea, 0x43), Column(0x02, 0x6a, 0x50, 0x49))) == Block(Column(0x49, 0xde, 0xd2, 0x89), Column(0x45, 0xdb, 0x96, 0xf1), Column(0x7f, 0x39, 0x87, 0x1a), Column(0x77, 0x02, 0x53, 0x3b))
    ensures ShiftRows(Block(Column(0x49, 0xde, 0xd2, 0x89), Column(0x45, 0xdb, 0x96, 0xf1), Column(0x7f, 0x39, 0x87, 0x1a), Column(0x77, 0x02, 0x53, 0x3b))) == Block(Column(0x49, 0xdb, 0x87, 0x3b), Column(0x45, 0x39, 0x53, 0x89), Column(0x7f, 0x02, 0xd2, 0xf1), Column(0x77, 0xde, 0x96, 0x1a))
  {
  }

  lemma Multiples2()
    ensures Mul(2, 0x49) == 0x92 && Mul(3, 0x49) == 0xdb && Mul(2, 0xdb) == 0xad && Mul(3, 0xdb) == 0x76 && Mul(2, 0x87) == 0x15 && Mul(3, 0x87) == 0x92 && Mul(2, 0x3b) == 0x76 && Mul(3, 0x3b) == 0x4d
    ensures Mul(2, 0x45) == 0x8a && Mul(3, 0x45) == 0xcf && Mul(2, 0x39) == 0x72 && Mul(3, 0x39) == 0x4b && Mul(2, 0x53) == 0xa6 && Mul(3, 0x53) == 0xf5 && Mul(2, 0x89) == 0x09 && Mul(3, 0x89) == 0x80
    ensures Mul(2, 0x7f) == 0xfe && Mul(3, 0x7f) == 0x81 && Mul(2, 0x02) == 0x04 && Mul(3, 0x02) == 0x06 && Mul(2, 0xd2) == 0xbf && Mul(3, 0xd2) == 0x6d && Mul(2, 0xf1) == 0xf9 && Mul(3, 0xf1) == 0x08
    ensures Mul(2, 0x77) == 0xee && Mul(3, 0x77) == 0x99 && Mul(2, 0xde) == 0xa7 && Mul(3, 0xde) == 0x79 && Mul(2, 0x96) == 0x37 && Mul(3, 0x96) == 0xa1 && Mul(2, 0x1a) == 0x34 && Mul(3, 0x1a) == 0x2e
  {
  }

  lemma Mix2()
    ensures MixColumns(Block(Column(0x49, 0xdb, 0x87, 0x3b), Column(0x45, 0x39, 0x53, 0x89), Column(0x7f, 0x02, 0xd2, 0xf1), Column(0x77, 0xde, 0x96, 0x1a))) == Block(Column(0x58, 0x4d, 0xca, 0xf1), Column(0x1b, 0x4b, 0x5a, 0xac), Column(0xdb, 0xe7, 0xca, 0xa8), Column(0x1b, 0x6b, 0xb0, 0xe5))
    ensures AddRoundKey(Block(Column(0x58, 0x4d, 0xca, 0xf1), Column(0x1b, 0x4b, 0x5a, 0xac), Column(0xdb, 0xe7, 0xca, 0xa8), Column(0x1b, 0x6b, 0xb0, 0xe5)), Block(Column(0xf2, 0xc2, 0x95, 0xf2), Column(0x7a, 0x96, 0xb9, 0x43), Column(0x59, 0x35, 0x80, 0x7a), Column(0x73, 0x59, 0xf6, 0x7f))) == Block(Column(0xaa, 0x8f, 0x5f, 0x03), Column(0x61, 0xdd, 0xe3, 0xef), Column(0x82, 0xd2, 0x4a, 0xd2), Column(0x68, 0x32, 0x46, 0x9a))
  {
    hide Mul;
    Multiples2();
    MulOne(0x02);
    MulOne(0x1a);
    MulOne(0x39);
    MulOne(0x3b);
    MulOne(0x45);
    MulOne(0x49);
    MulOne(0x53);
    MulOne(0x77);
    MulOne(0x7f);
    MulOne(0x87);
    MulOne(0x89);
    MulOne(0x96);
    MulOne(0xd2);
    MulOne(0xdb);
    MulOne(0xde);
    MulOne(0xf1);
  }

  lemma Round2()
    ensures Rounds(Keys(), Input(), 2) == Block(Column(0xaa, 0x8f, 0x5f, 0x03), Column(0x61, 0xdd, 0xe3, 0xef), Column(0x82, 0xd2, 0x4a, 0xd2), Column(0x68, 0x32, 0x46, 0x9a))
  {
    hide Rounds, SubBytes, ShiftRows, MixColumns, AddRoundKey, Keys, Input;
    Round1();
    Sub2();
    Mix2();
    KeyIs2();
    RoundStep(Keys(), Input(), 2, Block(Column(0xa4, 0x9c, 0x7f, 0xf2), Column(0x68, 0x9f, 0x35, 0x2b), Column(0x6b, 0x5b, 0xea, 0x43), Column(0x02, 0x6a, 0x50, 0x49)), Block(Column(0x49, 0xde, 0xd2, 0x89), Column(0x45, 0xdb, 0x96, 0xf1), Column(0x7f, 0x39, 0x87, 0x1a), Column(0x77, 0x02, 0x53, 0x3b)),
              Block(Column(0x49, 0xdb, 0x87, 0x3b), Column(0x45, 0x39, 0x53, 0x89), Column(0x7f, 0x02, 0xd2, 0xf1), Column(0x77, 0xde, 0x96, 0x1a)), Block(Column(0x58, 0x4d, 0xca, 0xf1), Column(0x1b, 0x4b, 0x5a, 0xac), Column(0xdb, 0xe7, 0xca, 0xa8), Column(0x1b, 0x6b, 0xb0, 0xe5)),
              Block(Column(0xaa, 0x8f, 0x5f, 0x03), Column(0x61, 0xdd, 0xe3, 0xef), Column(0x82, 0xd2, 0x4a, 0xd2), Column(0x68, 0x32, 0x46, 0x9a)));
  }

  lemma Sub3()
    ensures SubBytes(Block(Column(0xaa, 0x8f, 0x5f, 0x03), Column(0x61, 0xdd, 0xe3, 0xef), Column(0x82, 0xd2, 0x4a, 0xd2), Column(0x68, 0x32, 0x46, 0x9a))) == Block(Column(0xac, 0x73, 0xcf, 0x7b), Column(0xef, 0xc1, 0x11, 0xdf), Column(0x13, 0xb5, 0xd6, 0xb5), Column(0x45, 0x23, 0x5a, 0xb8))
    ensures ShiftRows(Block(Column(0xac, 0x73, 0xcf, 0x7b), Column(0xef, 0xc1, 0x11, 0xdf), Column(0x13, 0xb5, 0xd6, 0xb5), Column(0x45, 0x23, 0x5a, 0xb8))) == Block(Column(0xac, 0xc1, 0xd6, 0xb8), Column(0xef, 0xb5, 0x5a, 0x7b), Column(0x13, 0x23, 0xcf, 0xdf), Column(0x45, 0x73, 0x11, 0xb5))
  {
  }

  lemma Multiples3()
    ensures Mul(2, 0xac) == 0x43 && Mul(3, 0xac) == 0xef && Mul(2, 0xc1) == 0x99 && Mul(3, 0xc1) == 0x58 && Mul(2, 0xd6) == 0xb7 && Mul(3, 0xd6) == 0x61 && Mul(2, 0xb8) == 0x6b && Mul(3, 0xb8) == 0xd3
    ensures Mul(2, 0xef) == 0xc5 && Mul(3, 0xef) == 0x2a && Mul(2, 0xb5) == 0x71 && Mul(3, 0xb5) == 0xc4 && Mul(2, 0x5a) == 0xb4 && Mul(3, 0x5a) == 0xee && Mul(2, 0x7b) == 0xf6 && Mul(3, 0x7b) == 0x8d
    ensures Mul(2, 0x13) == 0x26 && Mul(3, 0x13) == 0x35 && Mul(2, 0x23) == 0x46 && Mul(3, 0x23) == 0x65 && Mul(2, 0xcf) == 0x85 && Mul(3, 0xcf) == 0x4a && Mul(2, 0xdf) == 0xa5 && Mul(3, 0xdf) == 0x7a
    ensures Mul(2, 0x45) == 0x8a && Mul(3, 0x45) == 0xcf && Mul(2, 0x73) == 0xe6 && Mul(3, 0x73) == 0x95 && Mul(2, 0x11) == 0x22 && Mul(3, 0x11) == 0x33 && Mul(2, 0xb5) == 0x71 && Mul(3, 0xb5) == 0xc4
  {
  }

  lemma Mix3()
    ensures MixColumns(Block(Column(0xac, 0xc1, 0xd6, 0xb8), Column(0xef, 0xb5, 0x5a, 0x7b), Column(0x13, 0x23, 0xcf, 0xdf), Column(0x45, 0x73, 0x11, 0xb5))) == Block(Column(0x75, 0xec, 0x09, 0x93), Column(0x20, 0x0b, 0x63, 0x33), Column(0x53, 0xc0, 0xcf, 0x7c), Column(0xbb, 0x25, 0xd0, 0xdc))
    ensures AddRoundKey(Block(Column(0x75, 0xec, 0x09, 0x93), Column(0x20, 0x0b, 0x63, 0x33), Column(0x53, 0xc0, 0xcf, 0x7c), Column(0xbb, 0x25, 0xd0, 0xdc)), Block(Column(0x3d, 0x80, 0x47, 0x7d), Column(0x47, 0x16, 0xfe, 0x3e), Column(0x1e, 0x23, 0x7e, 0x44), Column(0x6d, 0x7a, 0x88, 0x3b))) == Block(Column(0x48, 0x6c, 0x4e, 0xee), Column(0x67, 0x1d, 0x9d, 0x0d), Column(0x4d, 0xe3, 0xb1, 0x38), Column(0xd6, 0x5f, 0x58, 0xe7))
  {
    hide Mul;
    Multiples3();
    MulOne(0x11);
    MulOne(0x13);
    MulOne(0x23);
    MulOne(0x45);
    MulOne(0x5a);
    MulOne(0x73);
    MulOne(0x7b);
    MulOne(0xac);
    MulOne(0xb5);
    MulOne(0xb8);
    MulOne(0xc1);
    MulOne(0xcf);
    MulOne(0xd6);
    MulOne(0xdf);
    MulOne(0xef);
  }

  lemma Round3()
    ensures Rounds(Keys(), Input(), 3) == Block(Column(0x48, 0x6c, 0x4e, 0xee), Column(0x67, 0x1d, 0x9d, 0x0d), Column(0x4d, 0xe3, 0xb1, 0x38), Column(0xd6, 0x5f, 0x58, 0xe7))
  {
    hide Rounds, SubBytes, ShiftRows, MixColumns, AddRoundKey, Keys, Input;
    Round2();
    Sub3();
    Mix3();
    KeyIs3();
    RoundStep(Keys(), Input(), 3, Block(Column(0xaa, 0x8f, 0x5f, 0x03), Column(0x61, 0xdd, 0xe3, 0xef), Column(0x82, 0xd2, 0x4a, 0xd2), Column(0x68, 0x32, 0x46, 0x9a)), Block(Column(0xac, 0x73, 0xcf, 0x7b), Column(0xef, 0xc1, 0x11, 0xdf), Column(0x13, 0xb5, 0xd6, 0xb5), Column(0x45, 0x23, 0x5a, 0xb8)),
              Block(Column(0xac, 0xc1, 0xd6, 0xb8), Column(0xef, 0xb5, 0x5a, 0x7b), Column(0x13, 0x23, 0xcf, 0xdf), Column(0x45, 0x73, 0x11, 0xb5)), Block(Column(0x75, 0xec, 0x09, 0x93), Column(0x20, 0x0b, 0x63, 0x33), Column(0x53, 0xc0, 0xcf, 0x7c), Column(0xbb, 0x25, 0xd0, 0xdc)),
              Block(Column(0x48, 0x6c, 0x4e, 0xee), Column(0x67, 0x1d, 0x9d, 0x0d), Column(0x4d, 0xe3, 0xb1, 0x38), Column(0xd6, 0x5f, 0x58, 0xe7)));
  }

  lemma Sub4()
    ensures SubBytes(Block(Column(0x48, 0x6c, 0x4e, 0xee), Column(0x67, 0x1d, 0x9d, 0x0d), Column(0x4d, 0xe3, 0xb1, 0x38), Column(0xd6, 0x5f, 0x58, 0xe7))) == Block(Column(0x52, 0x50, 0x2f, 0x28), Column(0x85, 0xa4, 0x5e, 0xd7), Column(0xe3, 0x11, 0xc8, 0x07), Column(0xf6, 0xcf, 0x6a, 0x94))
    ensures ShiftRows(Block(Column(0x52, 0x50, 0x2f, 0x28), Column(0x85, 0xa4, 0x5e, 0xd7), Column(0xe3, 0x11, 0xc8, 0x07), Column(0xf6, 0xcf, 0x6a, 0x94))) == Block(Column(0x52, 0xa4, 0xc8, 0x94), Column(0x85, 0x11, 0x6a, 0x28), Column(0xe3, 0xcf, 0x2f, 0xd7), Column(0xf6, 0x50, 0x5e, 0x07))
  {
  }

  lemma Multiples4()
    ensures Mul(2, 0x52) == 0xa4 && Mul(3, 0x52) == 0xf6 && Mul(2, 0xa4) == 0x53 && Mul(3, 0xa4) == 0xf7 && Mul(2, 0xc8) == 0x8b && Mul(3, 0xc8) == 0x43 && Mul(2, 0x94) == 0x33 && Mul(3, 0x94) == 0xa7
    ensures Mul(2, 0x85) == 0x11 && Mul(3, 0x85) == 0x94 && Mul(2, 0x11) == 0x22 && Mul(3, 0x11) == 0x33 && Mul(2, 0x6a) == 0xd4 && Mul(3, 0x6a) == 0xbe && Mul(2, 0x28) == 0x50 && Mul(3, 0x28) == 0x78
    ensures Mul(2, 0xe3) == 0xdd && Mul(3, 0xe3) == 0x3e && Mul(2, 0xcf) == 0x85 && Mul(3, 0xcf) == 0x4a && Mul(2, 0x2f) == 0x5e && Mul(3, 0x2f) == 0x71 && Mul(2, 0xd7) == 0xb5 && Mul(3, 0xd7) == 0x62
    ensures Mul(2, 0xf6) == 0xf7 && Mul(3, 0xf6) == 0x01 && Mul(2, 0x50) == 0xa0 && Mul(3, 0x50) == 0xf0 && Mul(2, 0x5e) == 0xbc && Mul(3, 0x5e) == 0xe2 && Mul(2, 0x07) == 0x0e && Mul(3, 0x07) == 0x09
  {
  }

  lemma Mix4()
    ensures MixColumns(Block(Column(0x52, 0xa4, 0xc8, 0x94), Column(0x85, 0x11, 0x6a, 0x28), Column(0xe3, 0xcf, 0x2f, 0xd7), Column(0xf6, 0x50, 0x5e, 0x07))) == Block(Column(0x0f, 0xd6, 0xda, 0xa9), Column(0x60, 0x31, 0x38, 0xbf), Column(0x6f, 0xc0, 0x10, 0x6b), Column(0x5e, 0xb3, 0x13, 0x01))
    ensures AddRoundKey(Block(Column(0x0f, 0xd6, 0xda, 0xa9), Column(0x60, 0x31, 0x38, 0xbf), Column(0x6f, 0xc0, 0x10, 0x6b), Column(0x5e, 0xb3, 0x13, 0x01)), Block(Column(0xef, 0x44, 0xa5, 0x41), Column(0xa8, 0x52, 0x5b, 0x7f), Column(0xb6, 0x71, 0x25, 0x3b), Column(0xdb, 0x0b, 0xad, 0x00))) == Block(Column(0xe0, 0x92, 0x7f, 0xe8), Column(0xc8, 0x63, 0x63, 0xc0), Column(0xd9, 0xb1, 0x35, 0x50), Column(0x85, 0xb8, 0xbe, 0x01))
  {
    hide Mul;
    Multiples4();
    MulOne(0x07);
    MulOne(0x11);
    MulOne(0x28);
    MulOne(0x2f);
    MulOne(0x50);
    MulOne(0x52);
    MulOne(0x5e);
    MulOne(0x6a);
    MulOne(0x85);
    MulOne(0x94);
    MulOne(0xa4);
    MulOne(0xc8);
    MulOne(0xcf);
    MulOne(0xd7);
    MulOne(0xe3);
    MulOne(0xf6);
  }

  lemma Round4()
    ensures Rounds(Keys(), Input(), 4) == Block(Column(0xe0, 0x92, 0x7f, 0xe8), Column(0xc8, 0x63, 0x63, 0xc0), Column(0xd9, 0xb1, 0x35, 0x50), Column(0x85, 0xb8, 0xbe, 0x01))
  {
    hide Rounds, SubBytes, ShiftRows, MixColumns, AddRoundKey, Keys, Input;
    Round3();
    Sub4();
    Mix4();
    KeyIs4();
    RoundStep(Keys(), Input(), 4, Block(Column(0x48, 0x6c, 0x4e, 0xee), Column(0x67, 0x1d, 0x9d, 0x0d), Column(0x4d, 0xe3, 0xb1, 0x38), Column(0xd6, 0x5f, 0x58, 0xe7)), Block(Column(0x52, 0x50, 0x2f, 0x28), Column(0x85, 0xa4, 0x5e, 0xd7), Column(0xe3, 0x11, 0xc8, 0x07), Column(0xf6, 0xcf, 0x6a, 0x94)),
              Block(Column(0x52, 0xa4, 0xc8, 0x94), Column(0x85, 0x11, 0x6a, 0x28), Column(0xe3, 0xcf, 0x2f, 0xd7), Column(0xf6, 0x50, 0x5e, 0x07)), Block(Column(0x0f, 0xd6, 0xda, 0xa9), Column(0x60, 0x31, 0x38, 0xbf), Column(0x6f, 0xc0, 0x10, 0x6b), Column(0x5e, 0xb3, 0x13, 0x01)),
              Block(Column(0xe0, 0x92, 0x7f, 0xe8), Column(0xc8, 0x63, 0x63, 0xc0), Column(0xd9, 0xb1, 0x35, 0x50), Column(0x85, 0xb8, 0xbe, 0x01)));
  }

  lemma Sub5()
    ensures SubBytes(Block(Column(0xe0, 0x92, 0x7f, 0xe8), Column(0xc8, 0x63, 0x63, 0xc0), Column(0xd9, 0xb1, 0x35, 0x50), Column(0x85, 0xb8, 0xbe, 0x01))) == Block(Column(0xe1, 0x4f, 0xd2, 0x9b), Column(0xe8, 0xfb, 0xfb, 0xba), Column(0x35, 0xc8, 0x96, 0x53), Column(0x97, 0x6c, 0xae, 0x7c))
    ensures ShiftRows(Block(Column(0xe1, 0x4f, 0xd2, 0x9b), Column(0xe8, 0xfb, 0xfb, 0xba), Column(0x35, 0xc8, 0x96, 0x53), Column(0x97, 0x6c, 0xae, 0x7c))) == Block(Column(0xe1, 0xfb, 0x96, 0x7c), Column(0xe8, 0xc8, 0xae, 0x9b), Column(0x35, 0x6c, 0xd2, 0xba), Column(0x97, 0x4f, 0xfb, 0x53))
  {
  }

  lemma Multiples5()
    ensures Mul(2, 0xe1) == 0xd9 && Mul(3, 0xe1) == 0x38 && Mul(2, 0xfb) == 0xed && Mul(3, 0xfb) == 0x16 && Mul(2, 0x96) == 0x37 && Mul(3, 0x96) == 0xa1 && Mul(2, 0x7c) == 0xf8 && Mul(3, 0x7c) == 0x84
    ensures Mul(2, 0xe8) == 0xcb && Mul(3, 0xe8) == 0x23 && Mul(2, 0xc8) == 0x8b && Mul(3, 0xc8) == 0x43 && Mul(2, 0xae) == 0x47 && Mul(3, 0xae) == 0xe9 && Mul(2, 0x9b) == 0x2d && Mul(3, 0x9b) == 0xb6
    ensures Mul(2, 0x35) == 0x6a && Mul(3, 0x35) == 0x5f && Mul(2, 0x6c) == 0xd8 && Mul(3, 0x6c) == 0xb4 && Mul(2, 0xd2) == 0xbf && Mul(3, 0xd2) == 0x6d && Mul(2, 0xba) == 0x6f && Mul(3, 0xba) == 0xd5
    ensures Mul(2, 0x97) == 0x35 && Mul(3, 0x97) == 0xa2 && Mul(2, 0x4f) == 0x9e && Mul(3, 0x4f) == 0xd1 && Mul(2, 0xfb) == 0xed && Mul(3, 0xfb) == 0x16 && Mul(2, 0x53) == 0xa6 && Mul(3, 0x53) == 0xf5
  {
  }

  lemma Mix5()
    ensures MixColumns(Block(Column(0xe1, 0xfb, 0x96, 0x7c), Column(0xe8, 0xc8, 0xae, 0x9b), Column(0x35, 0x6c, 0xd2, 0xba), Column(0x97, 0x4f, 0xfb, 0x53))) == Block(Column(0x25, 0xd1, 0xa9, 0xad), Column(0xbd, 0x11, 0xd1, 0x68), Column(0xb6, 0x3a, 0x33, 0x8e), Column(0x4c, 0x4c, 0xc0, 0xb0))
    ensures AddRoundKey(Block(Column(0x25, 0xd1, 0xa9, 0xad), Column(0xbd, 0x11, 0xd1, 0x68), Column(0xb6, 0x3a, 0x33, 0x8e), Column(0x4c, 0x4c, 0xc0, 0xb0)), Block(Column(0xd4, 0xd1, 0xc6, 0xf8), Column(0x7c, 0x83, 0x9d, 0x87), Column(0xca, 0xf2, 0xb8, 0xbc), Column(0x11, 0xf9, 0x15, 0xbc))) == Block(Column(0xf1, 0x00, 0x6f, 0x55), Column(0xc1, 0x92, 0x4c, 0xef), Column(0x7c, 0xc8, 0x8b, 0x32), Column(0x5d, 0xb5, 0xd5, 0x0c))
  {
    hide Mul;
    Multiples5();
    MulOne(0x35);
    MulOne(0x4f);
    MulOne(0x53);
    MulOne(0x6c);
    MulOne(0x7c);
    MulOne(0x96);
    MulOne(0x97);
    MulOne(0x9b);
    MulOne(0xae);
    MulOne(0xba);
    MulOne(0xc8);
    MulOne(0xd2);
    MulOne(0xe1);
    MulOne(0xe8);
    MulOne(0xfb);
  }

  lemma Round5()
    ensures Rounds(Keys(), Input(), 5) == Block(Column(0xf1, 0x00, 0x6f, 0x55), Column(0xc1, 0x92, 0x4c, 0xef), Column(0x7c, 0xc8, 0x8b, 0x32), Column(0x5d, 0xb5, 0xd5, 0x0c))
  {
    hide Rounds, SubBytes, ShiftRows, MixColumns, AddRoundKey, Keys, Input;
    Round4();
    Sub5();
    Mix5();
    KeyIs5();
    RoundStep(Keys(), Input(), 5, Block(Column(0xe0, 0x92, 0x7f, 0xe8), Column(0xc8, 0x63, 0x63, 0xc0), Column(0xd9, 0xb1, 0x35, 0x50), Column(0x85, 0xb8, 0xbe, 0x01)), Block(Column(0xe1, 0x4f, 0xd2, 0x9b), Column(0xe8, 0xfb, 0xfb, 0xba), Column(0x35, 0xc8, 0x96, 0x53), Column(0x97, 0x6c, 0xae, 0x7c)),
              Block(Column(0xe1, 0xfb, 0x96, 0x7c), Column(0xe8, 0xc8, 0xae, 0x9b), Column(0x35, 0x6c, 0xd2, 0xba), Column(0x97, 0x4f, 0xfb, 0x53)), Block(Column(0x25, 0xd1, 0xa9, 0xad), Column(0xbd, 0x11, 0xd1, 0x68), Column(0xb6, 0x3a, 0x33, 0x8e), Column(0x4c, 0x4c, 0xc0, 0xb0)),
              Block(Column(0xf1, 0x00, 0x6f, 0x55), Column(0xc1, 0x92, 0x4c, 0xef), Column(0x7c, 0xc8, 0x8b, 0x32), Column(0x5d, 0xb5, 0xd5, 0x0c)));
  }

  lemma Sub6()
    ensures SubBytes(Block(Column(0xf1, 0x00, 0x6f, 0x55), Column(0xc1, 0x92, 0x4c, 0xef), Column(0x7c, 0xc8, 0x8b, 0x32), Column(0x5d, 0xb5, 0xd5, 0x0c))) == Block(Column(0xa1, 0x63, 0xa8, 0xfc), Column(0x78, 0x4f, 0x29, 0xdf), Column(0x10, 0xe8, 0x3d, 0x23), Column(0x4c, 0xd5, 0x03, 0xfe))
    ensures ShiftRows(Block(Column(0xa1, 0x63, 0xa8, 0xfc), Column(0x78, 0x4f, 0x29, 0xdf), Column(0x10, 0xe8, 0x3d, 0x23), Column(0x4c, 0xd5, 0x03, 0xfe))) == Block(Column(0xa1, 0x4f, 0x3d, 0xfe), Column(0x78, 0xe8, 0x03, 0xfc), Column(0x10, 0xd5, 0xa8, 0xdf), Column(0x4c, 0x63, 0x29, 0x23))
  {
  }

  lemma Multiples6()
    ensures Mul(2, 0xa1) == 0x59 && Mul(3, 0xa1) == 0xf8 && Mul(2, 0x4f) == 0x9e && Mul(3, 0x4f) == 0xd1 && Mul(2, 0x3d) == 0x7a && Mul(3, 0x3d) == 0x47 && Mul(2, 0xfe) == 0xe7 && Mul(3, 0xfe) == 0x19
    ensures Mul(2, 0x78) == 0xf0 && Mul(3, 0x78) == 0x88 && Mul(2, 0xe8) == 0xcb && Mul(3, 0xe8) == 0x23 && Mul(2, 0x03) == 0x06 && Mul(3, 0x03) == 0x05 && Mul(2, 0xfc) == 0xe3 && Mul(3, 0xfc) == 0x1f
    ensures Mul(2, 0x10) == 0x20 && Mul(3, 0x10) == 0x30 && Mul(2, 0xd5) == 0xb1 && Mul(3, 0xd5) == 0x64 && Mul(2, 0xa8) == 0x4b && Mul(3, 0xa8) == 0xe3 && Mul(2, 0xdf) == 0xa5 && Mul(3, 0xdf) == 0x7a
    ensures Mul(2, 0x4c) == 0x98 && Mul(3, 0x4c) == 0xd4 && Mul(2, 0x63) == 0xc6 && Mul(3, 0x63) == 0xa5 && Mul(2, 0x29) == 0x52 && Mul(3, 0x29) == 0x7b && Mul(2, 0x23) == 0x46 && Mul(3, 0x23) == 0x65
  {
  }

  lemma Mix6()
    ensures MixColumns(Block(Column(0xa1, 0x4f, 0x3d, 0xfe), Column(0x78, 0xe8, 0x03, 0xfc), Column(0x10, 0xd5, 0xa8, 0xdf), Column(0x4c, 0x63, 0x29, 0x23))) == Block(Column(0x4b, 0x86, 0x8d, 0x6d), Column(0x2c, 0x4a, 0x89, 0x80), Column(0x33, 0x9d, 0xf4, 0xe8), Column(0x37, 0xd2, 0x18, 0xd8))
    ensures AddRoundKey(Block(Column(0x4b, 0x86, 0x8d, 0x6d), Column(0x2c, 0x4a, 0x89, 0x80), Column(0x33, 0x9d, 0xf4, 0xe8), Column(0x37, 0xd2, 0x18, 0xd8)), Block(Column(0x6d, 0x88, 0xa3, 0x7a), Column(0x11, 0x0b, 0x3e, 0xfd), Column(0xdb, 0xf9, 0x86, 0x41), Column(0xca, 0x00, 0x93, 0xfd))) == Block(Column(0x26, 0x0e, 0x2e, 0x17), Column(0x3d, 0x41, 0xb7, 0x7d), Column(0xe8, 0x64, 0x72, 0xa9), Column(0xfd, 0xd2, 0x8b, 0x25))
  {
    hide Mul;
    Multiples6();
    MulOne(0x03);
    MulOne(0x10);
    MulOne(0x23);
    MulOne(0x29);
    MulOne(0x3d);
    MulOne(0x4c);
    MulOne(0x4f);
    MulOne(0x63);
    MulOne(0x78);
    MulOne(0xa1);
    MulOne(0xa8);
    MulOne(0xd5);
    MulOne(0xdf);
    MulOne(0xe8);
    MulOne(0xfc);
    MulOne(0xfe);
  }

  lemma Round6()
    ensures Rounds(Keys(), Input(), 6) == Block(Column(0x26, 0x0e, 0x2e, 0x17), Column(0x3d, 0x41, 0xb7, 0x7d), Column(0xe8, 0x64, 0x72, 0xa9), Column(0xfd, 0xd2, 0x8b, 0x25))
  {
    hide Rounds, SubBytes, ShiftRows, MixColumns, AddRoundKey, Keys, Input;
    Round5();
    Sub6();
    Mix6();
    KeyIs6();
    RoundStep(Keys(), Input(), 6, Block(Column(0xf1, 0x00, 0x6f, 0x55), Column(0xc1, 0x92, 0x4c, 0xef), Column(0x7c, 0xc8, 0x8b, 0x32), Column(0x5d, 0xb5, 0xd5, 0x0c)), Block(Column(0xa1, 0x63, 0xa8, 0xfc), Column(0x78, 0x4f, 0x29, 0xdf), Column(0x10, 0xe8, 0x3d, 0x23), Column(0x4c, 0xd5, 0x03, 0xfe)),
              Block(Column(0xa1, 0x4f, 0x3d, 0xfe), Column(0x78, 0xe8, 0x03, 0xfc), Column(0x10, 0xd5, 0xa8, 0xdf), Column(0x4c, 0x63, 0x29, 0x23)), Block(Column(0x4b, 0x86, 0x8d, 0x6d), Column(0x2c, 0x4a, 0x89, 0x80), Column(0x33, 0x9d, 0xf4, 0xe8), Column(0x37, 0xd2, 0x18, 0xd8)),
              Block(Column(0x26, 0x0e, 0x2e, 0x17), Column(0x3d, 0x41, 0xb7, 0x7d), Column(0xe8, 0x64, 0x72, 0xa9), Column(0xfd, 0xd2, 0x8b, 0x25)));
  }

  lemma Sub7()
    ensures SubBytes(Block(Column(0x26, 0x0e, 0x2e, 0x17), Column(0x3d, 0x41, 0xb7, 0x7d), Column(0xe8, 0x64, 0x72, 0xa9), Column(0xfd, 0xd2, 0x8b, 0x25))) == Block(Column(0xf7, 0xab, 0x31, 0xf0), Column(0x27, 0x83, 0xa9, 0xff), Column(0x9b, 0x43, 0x40, 0xd3), Column(0x54, 0xb5, 0x3d, 0x3f))
    ensures ShiftRows(Block(Column(0xf7, 0xab, 0x31, 0xf0), Column(0x27, 0x83, 0xa9, 0xff), Column(0x9b, 0x43, 0x40, 0xd3), Column(0x54, 0xb5, 0x3d, 0x3f))) == Block(Column(0xf7, 0x83, 0x40, 0x3f), Column(0x27, 0x43, 0x3d, 0xf0), Column(0x9b, 0xb5, 0x31, 0xff), Column(0x54, 0xab, 0xa9, 0xd3))
  {
  }

  lemma Multiples7()
    ensures Mul(2, 0xf7) == 0xf5 && Mul(3, 0xf7) == 0x02 && Mul(2, 0x83) == 0x1d && Mul(3, 0x83) == 0x9e && Mul(2, 0x40) == 0x80 && Mul(3, 0x40) == 0xc0 && Mul(2, 0x3f) == 0x7e && Mul(3, 0x3f) == 0x41
    ensures Mul(2, 0x27) == 0x4e && Mul(3, 0x27) == 0x69 && Mul(2, 0x43) == 0x86 && Mul(3, 0x43) == 0xc5 && Mul(2, 0x3d) == 0x7a && Mul(3, 0x3d) == 0x47 && Mul(2, 0xf0) == 0xfb && Mul(3, 0xf0) == 0x0b
    ensures Mul(2, 0x9b) == 0x2d && Mul(3, 0x9b) == 0xb6 && Mul(2, 0xb5) == 0x71 && Mul(3, 0xb5) == 0xc4 && Mul(2, 0x31) == 0x62 && Mul(3, 0x31) == 0x53 && Mul(2, 0xff) == 0xe5 && Mul(3, 0xff) == 0x1a
    ensures Mul(2, 0x54) == 0xa8 && Mul(3, 0x54) == 0xfc && Mul(2, 0xab) == 0x4d && Mul(3, 0xab) == 0xe6 && Mul(2, 0xa9) == 0x49 && Mul(3, 0xa9) == 0xe0 && Mul(2, 0xd3) == 0xbd && Mul(3, 0xd3) == 0x6e
  {
  }

  lemma Mix7()
    ensures MixColumns(Block(Column(0xf7, 0x83, 0x40, 0x3f), Column(0x27, 0x43, 0x3d, 0xf0), Column(0x9b, 0xb5, 0x31, 0xff), Column(0x54, 0xab, 0xa9, 0xd3))) == Block(Column(0x14, 0x15, 0xb5, 0xbf), Column(0x46, 0x16, 0x15, 0xec), Column(0x27, 0x46, 0x56, 0xd7), Column(0x34, 0x2a, 0xd8, 0x43))
    ensures AddRoundKey(Block(Column(0x14, 0x15, 0xb5, 0xbf), Column(0x46, 0x16, 0x15, 0xec), Column(0x27, 0x46, 0x56, 0xd7), Column(0x34, 0x2a, 0xd8, 0x43)), Block(Column(0x4e, 0x54, 0xf7, 0x0e), Column(0x5f, 0x5f, 0xc9, 0xf3), Column(0x84, 0xa6, 0x4f, 0xb2), Column(0x4e, 0xa6, 0xdc, 0x4f))) == Block(Column(0x5a, 0x41, 0x42, 0xb1), Column(0x19, 0x49, 0xdc, 0x1f), Column(0xa3, 0xe0, 0x19, 0x65), Column(0x7a, 0x8c, 0x04, 0x0c))
  {
    hide Mul;
    Multiples7();
    MulOne(0x27);
    MulOne(0x31);
    MulOne(0x3d);
    MulOne(0x3f);
    MulOne(0x40);
    MulOne(0x43);
    MulOne(0x54);
    MulOne(0x83);
    MulOne(0x9b);
    MulOne(0xa9);
    MulOne(0xab);
    MulOne(0xb5);
    MulOne(0xd3);
    MulOne(0xf0);
    MulOne(0xf7);
    MulOne(0xff);
  }

  lemma Round7()
    ensures Rounds(Keys(), Input(), 7) == Block(Column(0x5a, 0x41, 0x42, 0xb1), Column(0x19, 0x49, 0xdc, 0x1f), Column(0xa3, 0xe0, 0x19, 0x65), Column(0x7a, 0x8c, 0x04, 0x0c))
  {
    hide Rounds, SubBytes, ShiftRows, MixColumns, AddRoundKey, Keys, Input;
    Round6();
    Sub7();
    Mix7();
    KeyIs7();
    RoundStep(Keys(), Input(), 7, Block(Column(0x26, 0x0e, 0x2e, 0x17), Column(0x3d, 0x41, 0xb7, 0x7d), Column(0xe8, 0x64, 0x72, 0xa9), Column(0xfd, 0xd2, 0x8b, 0x25)), Block(Column(0xf7, 0xab, 0x31, 0xf0), Column(0x27, 0x83, 0xa9, 0xff), Column(0x9b, 0x43, 0x40, 0xd3), Column(0x54, 0xb5, 0x3d, 0x3f)),
              Block(Column(0xf7, 0x83, 0x40, 0x3f), Column(0x27, 0x43, 0x3d, 0xf0), Column(0x9b, 0xb5, 0x31, 0xff), Column(0x54, 0xab, 0xa9, 0xd3)), Block(Column(0x14, 0x15, 0xb5, 0xbf), Column(0x46, 0x16, 0x15, 0xec), Column(0x27, 0x46, 0x56, 0xd7), Column(0x34, 0x2a, 0xd8, 0x43)),
              Block(Column(0x5a, 0x41, 0x42, 0xb1), Column(0x19, 0x49, 0xdc, 0x1f), Column(0xa3, 0xe0, 0x19, 0x65), Column(0x7a, 0x8c, 0x04, 0x0c)));
  }

  lemma Sub8()
    ensures SubBytes(Block(Column(0x5a, 0x41, 0x42, 0xb1), Column(0x19, 0x49, 0xdc, 0x1f), Column(0xa3, 0xe0, 0x19, 0x65), Column(0x7a, 0x8c, 0x04, 0x0c))) == Block(Column(0xbe, 0x83, 0x2c, 0xc8), Column(0xd4, 0x3b, 0x86, 0xc0), Column(0x0a, 0xe1, 0xd4, 0x4d), Column(0xda, 0x64, 0xf2, 0xfe))
    ensures ShiftRows(Block(Column(0xbe, 0x83, 0x2c, 0xc8), Column(0xd4, 0x3b, 0x86, 0xc0), Column(0x0a, 0xe1, 0xd4, 0x4d), Column(0xda, 0x64, 0xf2, 0xfe))) == Block(Column(0xbe, 0x3b, 0xd4, 0xfe), Column(0xd4, 0xe1, 0xf2, 0xc8), Column(0x0a, 0x64, 0x2c, 0xc0), Column(0xda, 0x83, 0x86, 0x4d))
  {
  }

  lemma Multiples8()
    ensures Mul(2, 0xbe) == 0x67 && Mul(3, 0xbe) == 0xd9 && Mul(2, 0x3b) == 0x76 && Mul(3, 0x3b) == 0x4d && Mul(2, 0xd4) == 0xb3 && Mul(3, 0xd4) == 0x67 && Mul(2, 0xfe) == 0xe7 && Mul(3, 0xfe) == 0x19
    ensures Mul(2, 0xd4) == 0xb3 && Mul(3, 0xd4) == 0x67 && Mul(2, 0xe1) == 0xd9 && Mul(3, 0xe1) == 0x38 && Mul(2, 0xf2) == 0xff && Mul(3, 0xf2) == 0x0d && Mul(2, 0xc8) == 0x8b && Mul(3, 0xc8) == 0x43
    ensures Mul(2, 0x0a) == 0x14 && Mul(3, 0x0a) == 0x1e && Mul(2, 0x64) == 0xc8 && Mul(3, 0x64) == 0xac && Mul(2, 0x2c) == 0x58 && Mul(3, 0x2c) == 0x74 && Mul(2, 0xc0) == 0x9b && Mul(3, 0xc0) == 0x5b
    ensures Mul(2, 0xda) == 0xaf && Mul(3, 0xda) == 0x75 && Mul(2, 0x83) == 0x1d && Mul(3, 0x83) == 0x9e && Mul(2, 0x86) == 0x17 && Mul(3, 0x86) == 0x91 && Mul(2, 0x4d) == 0x9a && Mul(3, 0x4d) == 0xd7
  {
  }

  lemma Mix8()
    ensures MixColumns(Block(Column(0xbe, 0x3b, 0xd4, 0xfe), Column(0xd4, 0xe1, 0xf2, 0xc8), Column(0x0a, 0x64, 0x2c, 0xc0), Column(0xda, 0x83, 0x86, 0x4d))) == Block(Column(0x00, 0x51, 0x2f, 0xd1), Column(0xb1, 0xc8, 0x89, 0xff), Column(0x54, 0x76, 0x6d, 0xcd), Column(0xfa, 0x1b, 0x99, 0xea))
    ensures AddRoundKey(Block(Column(0x00, 0x51, 0x2f, 0xd1), Column(0xb1, 0xc8, 0x89, 0xff), Column(0x54, 0x76, 0x6d, 0xcd), Column(0xfa, 0x1b, 0x99, 0xea)), Block(Column(0xea, 0xd2, 0x73, 0x21), Column(0xb5, 0x8d, 0xba, 0xd2), Column(0x31, 0x2b, 0xf5, 0x60), Column(0x7f, 0x8d, 0x29, 0x2f))) == Block(Column(0xea, 0x83, 0x5c, 0xf0), Column(0x04, 0x45, 0x33, 0x2d), Column(0x65, 0x5d, 0x98, 0xad), Column(0x85, 0x96, 0xb0, 0xc5))
  {
    hide Mul;
    Multiples8();
    MulOne(0x0a);
    MulOne(0x2c);
    MulOne(0x3b);
    MulOne(0x4d);
    MulOne(0x64);
    MulOne(0x83);
    MulOne(0x86);
    MulOne(0xbe);
    MulOne(0xc0);
    MulOne(0xc8);
    MulOne(0xd4);
    MulOne(0xda);
    MulOne(0xe1);
    MulOne(0xf2);
    MulOne(0xfe);
  }

  lemma Round8()
    ensures Rounds(Keys(), Input(), 8) == Block(Column(0xea, 0x83, 0x5c, 0xf0), Column(0x04, 0x45, 0x33, 0x2d), Column(0x65, 0x5d, 0x98, 0xad), Column(0x85, 0x96, 0xb0, 0xc5))
  {
    hide Rounds, SubBytes, ShiftRows, MixColumns, AddRoundKey, Keys, Input;
    Round7();
    Sub8();
    Mix8();
    KeyIs8();
    RoundStep(Keys(), Input(), 8, Block(Column(0x5a, 0x41, 0x42, 0xb1), Column(0x19, 0x49, 0xdc, 0x1f), Column(0xa3, 0xe0, 0x19, 0x65), Column(0x7a, 0x8c, 0x04, 0x0c)), Block(Column(0xbe, 0x83, 0x2c, 0xc8), Column(0xd4, 0x3b, 0x86, 0xc0), Column(0x0a, 0xe1, 0xd4, 0x4d), Column(0xda, 0x64, 0xf2, 0xfe)),
              Block(Column(0xbe, 0x3b, 0xd4, 0xfe), Column(0xd4, 0xe1, 0xf2, 0xc8), Column(0x0a, 0x64, 0x2c, 0xc0), Column(0xda, 0x83, 0x86, 0x4d)), Block(Column(0x00, 0x51, 0x2f, 0xd1), Column(0xb1, 0xc8, 0x89, 0xff), Column(0x54, 0x76, 0x6d, 0xcd), Column(0xfa, 0x1b, 0x99, 0xea)),
              Block(Column(0xea, 0x83, 0x5c, 0xf0), Column(0x04, 0x45, 0x33, 0x2d), Column(0x65, 0x5d, 0x98, 0xad), Column(0x85, 0x96, 0xb0, 0xc5)));
  }

  lemma Sub9()
    ensures SubBytes(Block(Column(0xea, 0x83, 0x5c, 0xf0), Column(0x04, 0x45, 0x33, 0x2d), Column(0x65, 0x5d, 0x98, 0xad), Column(0x85, 0x96, 0xb0, 0xc5))) == Block(Column(0x87, 0xec, 0x4a, 0x8c), Column(0xf2, 0x6e, 0xc3, 0xd8), Column(0x4d, 0x4c, 0x46, 0x95), Column(0x97, 0x90, 0xe7, 0xa6))
    ensures ShiftRows(Block(Column(0x87, 0xec, 0x4a, 0x8c), Column(0xf2, 0x6e, 0xc3, 0xd8), Column(0x4d, 0x4c, 0x46, 0x95), Column(0x97, 0x90, 0xe7, 0xa6))) == Block(Column(0x87, 0x6e, 0x46, 0xa6), Column(0xf2, 0x4c, 0xe7, 0x8c), Column(0x4d, 0x90, 0x4a, 0xd8), Column(0x97, 0xec, 0xc3, 0x95))
  {
  }

  lemma Multiples9()
    ensures Mul(2, 0x87) == 0x15 && Mul(3, 0x87) == 0x92 && Mul(2, 0x6e) == 0xdc && Mul(3, 0x6e) == 0xb2 && Mul(2, 0x46) == 0x8c && Mul(3, 0x46) == 0xca && Mul(2, 0xa6) == 0x57 && Mul(3, 0xa6) == 0xf1
    ensures Mul(2, 0xf2) == 0xff && Mul(3, 0xf2) == 0x0d && Mul(2, 0x4c) == 0x98 && Mul(3, 0x4c) == 0xd4 && Mul(2, 0xe7) == 0xd5 && Mul(3, 0xe7) == 0x32 && Mul(2, 0x8c) == 0x03 && Mul(3, 0x8c) == 0x8f
    ensures Mul(2, 0x4d) == 0x9a && Mul(3, 0x4d) == 0xd7 && Mul(2, 0x90) == 0x3b && Mul(3, 0x90) == 0xab && Mul(2, 0x4a) == 0x94 && Mul(3, 0x4a) == 0xde && Mul(2, 0xd8) == 0xab && Mul(3, 0xd8) == 0x73
    ensures Mul(2, 0x97) == 0x35 && Mul(3, 0x97) == 0xa2 && Mul(2, 0xec) == 0xc3 && Mul(3, 0xec) == 0x2f && Mul(2, 0xc3) == 0x9d && Mul(3, 0xc3) == 0x5e && Mul(2, 0x95) == 0x31 && Mul(3, 0x95) == 0xa4
  {
  }

  lemma Mix9()
    ensures MixColumns(Block(Column(0x87, 0x6e, 0x46, 0xa6), Column(0xf2, 0x4c, 0xe7, 0x8c), Column(0x4d, 0x90, 0x4a, 0xd8), Column(0x97, 0xec, 0xc3, 0x95))) == Block(Column(0x47, 0x37, 0x94, 0xed), Column(0x40, 0xd4, 0xe4, 0xa5), Column(0xa3, 0x70, 0x3a, 0xa6), Column(0x4c, 0x9f, 0x42, 0xbc))
    ensures AddRoundKey(Block(Column(0x47, 0x37, 0x94, 0xed), Column(0x40, 0xd4, 0xe4, 0xa5), Column(0xa3, 0x70, 0x3a, 0xa6), Column(0x4c, 0x9f, 0x42, 0xbc)), Block(Column(0xac, 0x77, 0x66, 0xf3), Column(0x19, 0xfa, 0xdc, 0x21), Column(0x28, 0xd1, 0x29, 0x41), Column(0x57, 0x5c, 0x00, 0x6e))) == Block(Column(0xeb, 0x40, 0xf2, 0x1e), Column(0x59, 0x2e, 0x38, 0x84), Column(0x8b, 0xa1, 0x13, 0xe7), Column(0x1b, 0xc3, 0x42, 0xd2))
  {
    hide Mul;
    Multiples9();
    MulOne(0x46);
    MulOne(0x4a);
    MulOne(0x4c);
    MulOne(0x4d);
    MulOne(0x6e);
    MulOne(0x87);
    MulOne(0x8c);
    MulOne(0x90);
    MulOne(0x95);
    MulOne(0x97);
    MulOne(0xa6);
    MulOne(0xc3);
    MulOne(0xd8);
    MulOne(0xe7);
    MulOne(0xec);
    MulOne(0xf2);
  }

  lemma Round9()
    ensures Rounds(Keys(), Input(), 9) == Block(Column(0xeb, 0x40, 0xf2, 0x1e), Column(0x59, 0x2e, 0x38, 0x84), Column(0x8b, 0xa1, 0x13, 0xe7), Column(0x1b, 0xc3, 0x42, 0xd2))
  {
    hide Rounds, SubBytes, ShiftRows, MixColumns, AddRoundKey, Keys, Input;
    Round8();
    Sub9();
    Mix9();
    KeyIs9();
    RoundStep(Keys(), Input(), 9, Block(Column(0xea, 0x83, 0x5c, 0xf0), Column(0x04, 0x45, 0x33, 0x2d), Column(0x65, 0x5d, 0x98, 0xad), Column(0x85, 0x96, 0xb0, 0xc5)), Block(Column(0x87, 0xec, 0x4a, 0x8c), Column(0xf2, 0x6e, 0xc3, 0xd8), Column(0x4d, 0x4c, 0x46, 0x95), Column(0x97, 0x90, 0xe7, 0xa6)),
              Block(Column(0x87, 0x6e, 0x46, 0xa6), Column(0xf2, 0x4c, 0xe7, 0x8c), Column(0x4d, 0x90, 0x4a, 0xd8), Column(0x97, 0xec, 0xc3, 0x95)), Block(Column(0x47, 0x37, 0x94, 0xed), Column(0x40, 0xd4, 0xe4, 0xa5), Column(0xa3, 0x70, 0x3a, 0xa6), Column(0x4c, 0x9f, 0x42, 0xbc)),
              Block(Column(0xeb, 0x40, 0xf2, 0x1e), Column(0x59, 0x2e, 0x38, 0x84), Column(0x8b, 0xa1, 0x13, 0xe7), Column(0x1b, 0xc3, 0x42, 0xd2)));
  }

  lemma LastValues()
    ensures SubBytes(Block(Column(0xeb, 0x40, 0xf2, 0x1e), Column(0x59, 0x2e, 0x38, 0x84), Column(0x8b, 0xa1, 0x13, 0xe7), Column(0x1b, 0xc3, 0x42, 0xd2))) == Block(Column(0xe9, 0x09, 0x89, 0x72), Column(0xcb, 0x31, 0x07, 0x5f), Column(0x3d, 0x32, 0x7d, 0x94), Column(0xaf, 0x2e, 0x2c, 0xb5))
    ensures ShiftRows(Block(Column(0xe9, 0x09, 0x89, 0x72), Column(0xcb, 0x31, 0x07, 0x5f), Column(0x3d, 0x32, 0x7d, 0x94), Column(0xaf, 0x2e, 0x2c, 0xb5))) == Block(Column(0xe9, 0x31, 0x7d, 0xb5), Column(0xcb, 0x32, 0x2c, 0x72), Column(0x3d, 0x2e, 0x89, 0x5f), Column(0xaf, 0x09, 0x07, 0x94))
    ensures AddRoundKey(Block(Column(0xe9, 0x31, 0x7d, 0xb5), Column(0xcb, 0x32, 0x2c, 0x72), Column(0x3d, 0x2e, 0x89, 0x5f), Column(0xaf, 0x09, 0x07, 0x94)), Block(Column(0xd0, 0x14, 0xf9, 0xa8), Column(0xc9, 0xee, 0x25, 0x89), Column(0xe1, 0x3f, 0x0c, 0xc8), Column(0xb6, 0x63, 0x0c, 0xa6))) == Block(Column(0x39, 0x25, 0x84, 0x1d), Column(0x02, 0xdc, 0x09, 0xfb), Column(0xdc, 0x11, 0x85, 0x97), Column(0x19, 0x6a, 0x0b, 0x32))
  {
  }

  lemma CipherIs()
    ensures Cipher(Keys(), Input()) == Block(Column(0x39, 0x25, 0x84, 0x1d), Column(0x02, 0xdc, 0x09, 0xfb), Column(0xdc, 0x11, 0x85, 0x97), Column(0x19, 0x6a, 0x0b, 0x32))
  {
    hide Rounds, SubBytes, ShiftRows, AddRoundKey, Keys, Input;
    Round9();
    LastValues();
    KeyIs10();
  }

  lemma KeyBytes()
    ensures KeyWords([0x2b, 0x7e, 0x15, 0x16, 0x28, 0xae, 0xd2, 0xa6,
         0xab, 0xf7, 0x15, 0x88, 0x09, 0xcf, 0x4f, 0x3c]) == KeyA1()
  {
    assert WordOf(Column(0x2b, 0x7e, 0x15, 0x16)) == 0x2b7e1516 && WordOf(Column(0x28, 0xae, 0xd2, 0xa6)) == 0x28aed2a6;
    assert WordOf(Column(0xab, 0xf7, 0x15, 0x88)) == 0xabf71588 && WordOf(Column(0x09, 0xcf, 0x4f, 0x3c)) == 0x09cf4f3c;
    hide WordOf;
  }

  /** The example of appendix B, from the bytes of key and input to those of the output. */
  lemma CipherExample()
    ensures EncryptBlock(Schedule(KeyWords([0x2b, 0x7e, 0x15, 0x16, 0x28, 0xae, 0xd2, 0xa6,
         0xab, 0xf7, 0x15, 0x88, 0x09, 0xcf, 0x4f, 0x3c])),
        [0x32, 0x43, 0xf6, 0xa8, 0x88, 0x5a, 0x30, 0x8d,
         0x31, 0x31, 0x98, 0xa2, 0xe0, 0x37, 0x07, 0x34]) ==
        [0x39, 0x25, 0x84, 0x1d, 0x02, 0xdc, 0x09, 0xfb,
         0xdc, 0x11, 0x85, 0x97, 0x19, 0x6a, 0x0b, 0x32]
  {
    hide Schedule, KeyWords, Cipher;
    KeyBytes();
    CipherIs();
    assert BlockOf([0x32, 0x43, 0xf6, 0xa8, 0x88, 0x5a, 0x30, 0x8d,
         0x31, 0x31, 0x98, 0xa2, 0xe0, 0x37, 0x07, 0x34]) == Input();
  }
}
