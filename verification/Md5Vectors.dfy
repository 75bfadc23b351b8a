/**
 Known answers of section A.5 of RFC 1321, step by step.
 */
module Md5Vectors {
  import opened Base
  import opened Md5Transform
  import opened Md5

  // ------------------------------------------------------------- the empty message

  /** The words of the padded message. */
  function EmptyWords(): (x: seq<bv32>)
    ensures |x| == 16
  {
    [0x00000080, 0x00000000, 0x00000000, 0x00000000, 0x00000000, 0x00000000, 0x00000000, 0x00000000,
     0x00000000, 0x00000000, 0x00000000, 0x00000000, 0x00000000, 0x00000000, 0x00000000, 0x00000000]
  }

  lemma EmptyValues1To4()
    ensures Turned(0x67452301, 0xefcdab89, F(0xefcdab89, 0x98badcfe, 0x10325476), 0x00000080, 7, 0xd76aa478) == 0xa5202774
    ensures Turned(0x10325476, 0xa5202774, F(0xa5202774, 0xefcdab89, 0x98badcfe), 0x00000000, 12, 0xe8c7b756) == 0xf59592dd
    ensures Turned(0x98badcfe, 0xf59592dd, F(0xf59592dd, 0xa5202774, 0xefcdab89), 0x00000000, 17, 0x242070db) == 0xe7f06b23
    ensures Turned(0xefcdab89, 0xe7f06b23, F(0xe7f06b23, 0xf59592dd, 0xa5202774), 0x00000000, 22, 0xc1bdceee) == 0x1b163203
  {
  }

  lemma EmptySteps1To4()
    ensures Steps(INITIAL, EmptyWords(), 4) == Chain(0xa5202774, 0x1b163203, 0xe7f06b23, 0xf59592dd)
  {
    hide Turned, F, G, H, I, Steps, Entry, Sine, Shift, Place;
    var x := EmptyWords();
    StepsNone(INITIAL, x);
    Table1To4();
    EmptyValues1To4();
    StepIs(INITIAL, x, 0, 0x67452301, 0xefcdab89, 0x98badcfe, 0x10325476, F(0xefcdab89, 0x98badcfe, 0x10325476), 0, 7, 0xd76aa478);
    StepIs(INITIAL, x, 1, 0x10325476, 0xa5202774, 0xefcdab89, 0x98badcfe, F(0xa5202774, 0xefcdab89, 0x98badcfe), 1, 12, 0xe8c7b756);
    StepIs(INITIAL, x, 2, 0x98badcfe, 0xf59592dd, 0xa5202774, 0xefcdab89, F(0xf59592dd, 0xa5202774, 0xefcdab89), 2, 17, 0x242070db);
    StepIs(INITIAL, x, 3, 0xefcdab89, 0xe7f06b23, 0xf59592dd, 0xa5202774, F(0xe7f06b23, 0xf59592dd, 0xa5202774), 3, 22, 0xc1bdceee);
  }

  lemma EmptyValues5To8()
    ensures Turned(0xa5202774, 0x1b163203, F(0x1b163203, 0xe7f06b23, 0xf59592dd), 0x00000000, 7, 0xf57c0faf) == 0x32033344
    ensures Turned(0xf59592dd, 0x32033344, F(0x32033344, 0x1b163203, 0xe7f06b23), 0x00000000, 12, 0x4787c62a) == 0x2f35d494
    ensures Turned(0xe7f06b23, 0x2f35d494, F(0x2f35d494, 0x32033344, 0x1b163203), 0x00000000, 17, 0xa8304613) == 0xf5b158db
    ensures Turned(0x1b163203, 0xf5b158db, F(0xf5b158db, 0x2f35d494, 0x32033344), 0x00000000, 22, 0xfd469501) == 0x9bc13ce9
  {
  }

  lemma EmptySteps5To8()
    ensures Steps(INITIAL, EmptyWords(), 8) == Chain(0x32033344, 0x9bc13ce9, 0xf5b158db, 0x2f35d494)
  {
    hide Turned, F, G, H, I, Steps, Entry, Sine, Shift, Place;
    var x := EmptyWords();
    EmptySteps1To4();
    Table5To8();
    EmptyValues5To8();
    StepIs(INITIAL, x, 4, 0xa5202774, 0x1b163203, 0xe7f06b23, 0xf59592dd, F(0x1b163203, 0xe7f06b23, 0xf59592dd), 4, 7, 0xf57c0faf);
    StepIs(INITIAL, x, 5, 0xf59592dd, 0x32033344, 0x1b163203, 0xe7f06b23, F(0x32033344, 0x1b163203, 0xe7f06b23), 5, 12, 0x4787c62a);
    StepIs(INITIAL, x, 6, 0xe7f06b23, 0x2f35d494, 0x32033344, 0x1b163203, F(0x2f35d494, 0x32033344, 0x1b163203), 6, 17, 0xa8304613);
    StepIs(INITIAL, x, 7, 0x1b163203, 0xf5b158db, 0x2f35d494, 0x32033344, F(0xf5b158db, 0x2f35d494, 0x32033344), 7, 22, 0xfd469501);
  }

  lemma EmptyValues9To12()
    ensures Turned(0x32033344, 0x9bc13ce9, F(0x9bc13ce9, 0xf5b158db, 0x2f35d494), 0x00000000, 7, 0x698098d8) == 0x3893b991
    ensures Turned(0x2f35d494, 0x3893b991, F(0x3893b991, 0x9bc13ce9, 0xf5b158db), 0x00000000, 12, 0x8b44f7af) == 0xfce4a312
    ensures Turned(0xf5b158db, 0xfce4a312, F(0xfce4a312, 0x3893b991, 0x9bc13ce9), 0x00000000, 17, 0xffff5bb1) == 0xe1ef0576
    ensures Turned(0x9bc13ce9, 0xe1ef0576, F(0xe1ef0576, 0xfce4a312, 0x3893b991), 0x00000000, 22, 0x895cd7be) == 0x70768a29
  {
  }

  lemma EmptySteps9To12()
    ensures Steps(INITIAL, EmptyWords(), 12) == Chain(0x3893b991, 0x70768a29, 0xe1ef0576, 0xfce4a312)
  {
    hide Turned, F, G, H, I, Steps, Entry, Sine, Shift, Place;
    var x := EmptyWords();
    EmptySteps5To8();
    Table9To12();
    EmptyValues9To12();
    StepIs(INITIAL, x, 8, 0x32033344, 0x9bc13ce9, 0xf5b158db, 0x2f35d494, F(0x9bc13ce9, 0xf5b158db, 0x2f35d494), 8, 7, 0x698098d8);
    StepIs(INITIAL, x, 9, 0x2f35d494, 0x3893b991, 0x9bc13ce9, 0xf5b158db, F(0x3893b991, 0x9bc13ce9, 0xf5b158db), 9, 12, 0x8b44f7af);
    StepIs(INITIAL, x, 10, 0xf5b158db, 0xfce4a312, 0x3893b991, 0x9bc13ce9, F(0xfce4a312, 0x3893b991, 0x9bc13ce9), 10, 17, 0xffff5bb1);
    StepIs(INITIAL, x, 11, 0x9bc13ce9, 0xe1ef0576, 0xfce4a312, 0x3893b991, F(0xe1ef0576, 0xfce4a312, 0x3893b991), 11, 22, 0x895cd7be);
  }

  lemma EmptyValues13To16()
    ensures Turned(0x3893b991, 0x70768a29, F(0x70768a29, 0xe1ef0576, 0xfce4a312), 0x00000000, 7, 0x6b901122) == 0xf56c7cf1
    ensures Turned(0xfce4a312, 0xf56c7cf1, F(0xf56c7cf1, 0x70768a29, 0xe1ef0576), 0x00000000, 12, 0xfd987193) == 0x374943a7
    ensures Turned(0xe1ef0576, 0x374943a7, F(0x374943a7, 0xf56c7cf1, 0x70768a29), 0x00000000, 17, 0xa679438e) == 0x5aa53f75
    ensures Turned(0x70768a29, 0x5aa53f75, F(0x5aa53f75, 0x374943a7, 0xf56c7cf1), 0x00000000, 22, 0x49b40821) == 0xd6819c6a
  {
  }

  lemma EmptySteps13To16()
    ensures Steps(INITIAL, EmptyWords(), 16) == Chain(0xf56c7cf1, 0xd6819c6a, 0x5aa53f75, 0x374943a7)
  {
    hide Turned, F, G, H, I, Steps, Entry, Sine, Shift, Place;
    var x := EmptyWords();
    EmptySteps9To12();
    Table13To16();
    EmptyValues13To16();
    StepIs(INITIAL, x, 12, 0x3893b991, 0x70768a29, 0xe1ef0576, 0xfce4a312, F(0x70768a29, 0xe1ef0576, 0xfce4a312), 12, 7, 0x6b901122);
    StepIs(INITIAL, x, 13, 0xfce4a312, 0xf56c7cf1, 0x70768a29, 0xe1ef0576, F(0xf56c7cf1, 0x70768a29, 0xe1ef0576), 13, 12, 0xfd987193);
    StepIs(INITIAL, x, 14, 0xe1ef0576, 0x374943a7, 0xf56c7cf1, 0x70768a29, F(0x374943a7, 0xf56c7cf1, 0x70768a29), 14, 17, 0xa679438e);
    StepIs(INITIAL, x, 15, 0x70768a29, 0x5aa53f75, 0x374943a7, 0xf56c7cf1, F(0x5aa53f75, 0x374943a7, 0xf56c7cf1), 15, 22, 0x49b40821);
  }

  lemma EmptyValues17To20()
    ensures Turned(0xf56c7cf1, 0xd6819c6a, G(0xd6819c6a, 0x5aa53f75, 0x374943a7), 0x00000000, 5, 0xf61e2562) == 0x1c7d7513
    ensures Turned(0x374943a7, 0x1c7d7513, G(0x1c7d7513, 0xd6819c6a, 0x5aa53f75), 0x00000000, 9, 0xc040b340) == 0x7bd57a3a
    ensures Turned(0x5aa53f75, 0x7bd57a3a, G(0x7bd57a3a, 0x1c7d7513, 0xd6819c6a), 0x00000000, 14, 0x265e5a51) == 0xc095f13a
    ensures Turned(0xd6819c6a, 0xc095f13a, G(0xc095f13a, 0x7bd57a3a, 0x1c7d7513), 0x00000080, 20, 0xe9b6c7aa) == 0xbd782e17
  {
  }

  lemma EmptySteps17To20()
    ensures Steps(INITIAL, EmptyWords(), 20) == Chain(0x1c7d7513, 0xbd782e17, 0xc095f13a, 0x7bd57a3a)
  {
    hide Turned, F, G, H, I, Steps, Entry, Sine, Shift, Place;
    var x := EmptyWords();
    EmptySteps13To16();
    Table17To20();
    EmptyValues17To20();
    StepIs(INITIAL, x, 16, 0xf56c7cf1, 0xd6819c6a, 0x5aa53f75, 0x374943a7, G(0xd6819c6a, 0x5aa53f75, 0x374943a7), 1, 5, 0xf61e2562);
    StepIs(INITIAL, x, 17, 0x374943a7, 0x1c7d7513, 0xd6819c6a, 0x5aa53f75, G(0x1c7d7513, 0xd6819c6a, 0x5aa53f75), 6, 9, 0xc040b340);
    StepIs(INITIAL, x, 18, 0x5aa53f75, 0x7bd57a3a, 0x1c7d7513, 0xd6819c6a, G(0x7bd57a3a, 0x1c7d7513, 0xd6819c6a), 11, 14, 0x265e5a51);
    StepIs(INITIAL, x, 19, 0xd6819c6a, 0xc095f13a, 0x7bd57a3a, 0x1c7d7513, G(0xc095f13a, 0x7bd57a3a, 0x1c7d7513), 0, 20, 0xe9b6c7aa);
  }

  lemma EmptyValues21To24()
    ensures Turned(0x1c7d7513, 0xbd782e17, G(0xbd782e17, 0xc095f13a, 0x7bd57a3a), 0x00000000, 5, 0xd62f105d) == 0x3d1e3e6c
    ensures Turned(0x7bd57a3a, 0x3d1e3e6c, G(0x3d1e3e6c, 0xbd782e17, 0xc095f13a), 0x00000000, 9, 0x02441453) == 0x68b7b3e3
    ensures Turned(0xc095f13a, 0x68b7b3e3, G(0x68b7b3e3, 0x3d1e3e6c, 0xbd782e17), 0x00000000, 14, 0xd8a1e681) == 0xeb41643e
    ensures Turned(0xbd782e17, 0xeb41643e, G(0xeb41643e, 0x68b7b3e3, 0x3d1e3e6c), 0x00000000, 20, 0xe7d3fbc8) == 0xe422531a
  {
  }

  lemma EmptySteps21To24()
    ensures Steps(INITIAL, EmptyWords(), 24) == Chain(0x3d1e3e6c, 0xe422531a, 0xeb41643e, 0x68b7b3e3)
  {
    hide Turned, F, G, H, I, Steps, Entry, Sine, Shift, Place;
    var x := EmptyWords();
    EmptySteps17To20();
    Table21To24();
    EmptyValues21To24();
    StepIs(INITIAL, x, 20, 0x1c7d7513, 0xbd782e17, 0xc095f13a, 0x7bd57a3a, G(0xbd782e17, 0xc095f13a, 0x7bd57a3a), 5, 5, 0xd62f105d);
    StepIs(INITIAL, x, 21, 0x7bd57a3a, 0x3d1e3e6c, 0xbd782e17, 0xc095f13a, G(0x3d1e3e6c, 0xbd782e17, 0xc095f13a), 10, 9, 0x02441453);
    StepIs(INITIAL, x, 22, 0xc095f13a, 0x68b7b3e3, 0x3d1e3e6c, 0xbd782e17, G(0x68b7b3e3, 0x3d1e3e6c, 0xbd782e17), 15, 14, 0xd8a1e681);
    StepIs(INITIAL, x, 23, 0xbd782e17, 0xeb41643e, 0x68b7b3e3, 0x3d1e3e6c, G(0xeb41643e, 0x68b7b3e3, 0x3d1e3e6c), 4, 20, 0xe7d3fbc8);
  }

  lemma EmptyValues25To28()
    ensures Turned(0x3d1e3e6c, 0xe422531a, G(0xe422531a, 0xeb41643e, 0x68b7b3e3), 0x00000000, 5, 0x21e1cde6) == 0x306ec122
    ensures Turned(0x68b7b3e3, 0x306ec122, G(0x306ec122, 0xe422531a, 0xeb41643e), 0x00000000, 9, 0xc33707d6) == 0xd28c77c2
    ensures Turned(0xeb41643e, 0xd28c77c2, G(0xd28c77c2, 0x306ec122, 0xe422531a), 0x00000000, 14, 0xf4d50d87) == 0xa3c663da
    ensures Turned(0xe422531a, 0xa3c663da, G(0xa3c663da, 0xd28c77c2, 0x306ec122), 0x00000000, 20, 0x455a14ed) == 0xa0572807
  {
  }

  lemma EmptySteps25To28()
    ensures Steps(INITIAL, EmptyWords(), 28) == Chain(0x306ec122, 0xa0572807, 0xa3c663da, 0xd28c77c2)
  {
    hide Turned, F, G, H, I, Steps, Entry, Sine, Shift, Place;
    var x := EmptyWords();
    EmptySteps21To24();
    Table25To28();
    EmptyValues25To28();
    StepIs(INITIAL, x, 24, 0x3d1e3e6c, 0xe422531a, 0xeb41643e, 0x68b7b3e3, G(0xe422531a, 0xeb41643e, 0x68b7b3e3), 9, 5, 0x21e1cde6);
    StepIs(INITIAL, x, 25, 0x68b7b3e3, 0x306ec122, 0xe422531a, 0xeb41643e, G(0x306ec122, 0xe422531a, 0xeb41643e), 14, 9, 0xc33707d6);
    StepIs(INITIAL, x, 26, 0xeb41643e, 0xd28c77c2, 0x306ec122, 0xe422531a, G(0xd28c77c2, 0x306ec122, 0xe422531a), 3, 14, 0xf4d50d87);
    StepIs(INITIAL, x, 27, 0xe422531a, 0xa3c663da, 0xd28c77c2, 0x306ec122, G(0xa3c663da, 0xd28c77c2, 0x306ec122), 8, 20, 0x455a14ed);
  }

  lemma EmptyValues29To32()
    ensures Turned(0x306ec122, 0xa0572807, G(0xa0572807, 0xa3c663da, 0xd28c77c2), 0x00000000, 5, 0xa9e3e905) == 0x13707036
    ensures Turned(0xd28c77c2, 0x13707036, G(0x13707036, 0xa0572807, 0xa3c663da), 0x00000000, 9, 0xfcefa3f8) == 0xae7813db
    ensures Turned(0xa3c663da, 0xae7813db, G(0xae7813db, 0x13707036, 0xa0572807), 0x00000000, 14, 0x676f02d9) == 0x1c31c384
    ensures Turned(0xa0572807, 0x1c31c384, G(0x1c31c384, 0xae7813db, 0x13707036), 0x00000000, 20, 0x8d2a4c8a) == 0xa2205f1f
  {
  }

  lemma EmptySteps29To32()
    ensures Steps(INITIAL, EmptyWords(), 32) == Chain(0x13707036, 0xa2205f1f, 0x1c31c384, 0xae7813db)
  {
    hide Turned, F, G, H, I, Steps, Entry, Sine, Shift, Place;
    var x := EmptyWords();
    EmptySteps25To28();
    Table29To32();
    EmptyValues29To32();
    StepIs(INITIAL, x, 28, 0x306ec122, 0xa0572807, 0xa3c663da, 0xd28c77c2, G(0xa0572807, 0xa3c663da, 0xd28c77c2), 13, 5, 0xa9e3e905);
    StepIs(INITIAL, x, 29, 0xd28c77c2, 0x13707036, 0xa0572807, 0xa3c663da, G(0x13707036, 0xa0572807, 0xa3c663da), 2, 9, 0xfcefa3f8);
    StepIs(INITIAL, x, 30, 0xa3c663da, 0xae7813db, 0x13707036, 0xa0572807, G(0xae7813db, 0x13707036, 0xa0572807), 7, 14, 0x676f02d9);
    StepIs(INITIAL, x, 31, 0xa0572807, 0x1c31c384, 0xae7813db, 0x13707036, G(0x1c31c384, 0xae7813db, 0x13707036), 12, 20, 0x8d2a4c8a);
  }

  lemma EmptyValues33To36()
    ensures Turned(0x13707036, 0xa2205f1f, H(0xa2205f1f, 0x1c31c384, 0xae7813db), 0x00000000, 4, 0xfffa3942) == 0xdf63eaa1
    ensures Turned(0xae7813db, 0xdf63eaa1, H(0xdf63eaa1, 0xa2205f1f, 0x1c31c384), 0x00000000, 11, 0x8771f681) == 0xc3689f5b
    ensures Turned(0x1c31c384, 0xc3689f5b, H(0xc3689f5b, 0xdf63eaa1, 0xa2205f1f), 0x00000000, 16, 0x6d9d6122) == 0x12f3e755
    ensures Turned(0xa2205f1f, 0x12f3e755, H(0x12f3e755, 0xc3689f5b, 0xdf63eaa1), 0x00000000, 23, 0xfde5380c) == 0x004b6669
  {
  }

  lemma EmptySteps33To36()
    ensures Steps(INITIAL, EmptyWords(), 36) == Chain(0xdf63eaa1, 0x004b6669, 0x12f3e755, 0xc3689f5b)
  {
    hide Turned, F, G, H, I, Steps, Entry, Sine, Shift, Place;
    var x := EmptyWords();
    EmptySteps29To32();
    Table33To36();
    EmptyValues33To36();
    StepIs(INITIAL, x, 32, 0x13707036, 0xa2205f1f, 0x1c31c384, 0xae7813db, H(0xa2205f1f, 0x1c31c384, 0xae7813db), 5, 4, 0xfffa3942);
    StepIs(INITIAL, x, 33, 0xae7813db, 0xdf63eaa1, 0xa2205f1f, 0x1c31c384, H(0xdf63eaa1, 0xa2205f1f, 0x1c31c384), 8, 11, 0x8771f681);
    StepIs(INITIAL, x, 34, 0x1c31c384, 0xc3689f5b, 0xdf63eaa1, 0xa2205f1f, H(0xc3689f5b, 0xdf63eaa1, 0xa2205f1f), 11, 16, 0x6d9d6122);
    StepIs(INITIAL, x, 35, 0xa2205f1f, 0x12f3e755, 0xc3689f5b, 0xdf63eaa1, H(0x12f3e755, 0xc3689f5b, 0xdf63eaa1), 14, 23, 0xfde5380c);
  }

  lemma EmptyValues37To40()
    ensures Turned(0xdf63eaa1, 0x004b6669, H(0x004b6669, 0x12f3e755, 0xc3689f5b), 0x00000000, 4, 0xa4beea44) == 0x5f7a9b2e
    ensures Turned(0xc3689f5b, 0x5f7a9b2e, H(0x5f7a9b2e, 0x004b6669, 0x12f3e755), 0x00000000, 11, 0x4bdecfa9) == 0xabc34e16
    ensures Turned(0x12f3e755, 0xabc34e16, H(0xabc34e16, 0x5f7a9b2e, 0x004b6669), 0x00000000, 16, 0xf6bb4b60) == 0x91ca4cb7
    ensures Turned(0x004b6669, 0x91ca4cb7, H(0x91ca4cb7, 0xabc34e16, 0x5f7a9b2e), 0x00000000, 23, 0xbebfbc70) == 0xc5dc8c15
  {
  }

  lemma EmptySteps37To40()
    ensures Steps(INITIAL, EmptyWords(), 40) == Chain(0x5f7a9b2e, 0xc5dc8c15, 0x91ca4cb7, 0xabc34e16)
  {
    hide Turned, F, G, H, I, Steps, Entry, Sine, Shift, Place;
    var x := EmptyWords();
    EmptySteps33To36();
    Table37To40();
    EmptyValues37To40();
    StepIs(INITIAL, x, 36, 0xdf63eaa1, 0x004b6669, 0x12f3e755, 0xc3689f5b, H(0x004b6669, 0x12f3e755, 0xc3689f5b), 1, 4, 0xa4beea44);
    StepIs(INITIAL, x, 37, 0xc3689f5b, 0x5f7a9b2e, 0x004b6669, 0x12f3e755, H(0x5f7a9b2e, 0x004b6669, 0x12f3e755), 4, 11, 0x4bdecfa9);
    StepIs(INITIAL, x, 38, 0x12f3e755, 0xabc34e16, 0x5f7a9b2e, 0x004b6669, H(0xabc34e16, 0x5f7a9b2e, 0x004b6669), 7, 16, 0xf6bb4b60);
    StepIs(INITIAL, x, 39, 0x004b6669, 0x91ca4cb7, 0xabc34e16, 0x5f7a9b2e, H(0x91ca4cb7, 0xabc34e16, 0x5f7a9b2e), 10, 23, 0xbebfbc70);
  }

  lemma EmptyValues41To44()
    ensures Turned(0x5f7a9b2e, 0xc5dc8c15, H(0xc5dc8c15, 0x91ca4cb7, 0xabc34e16), 0x00000000, 4, 0x289b7ec6) == 0x4497169d
    ensures Turned(0xabc34e16, 0x4497169d, H(0x4497169d, 0xc5dc8c15, 0x91ca4cb7), 0x00000080, 11, 0xeaa127fa) == 0x76fd93d4
    ensures Turned(0x91ca4cb7, 0x76fd93d4, H(0x76fd93d4, 0x4497169d, 0xc5dc8c15), 0x00000000, 16, 0xd4ef3085) == 0xfd95f243
    ensures Turned(0xc5dc8c15, 0xfd95f243, H(0xfd95f243, 0x76fd93d4, 0x4497169d), 0x00000000, 23, 0x04881d05) == 0x0fe32453
  {
  }

  lemma EmptySteps41To44()
    ensures Steps(INITIAL, EmptyWords(), 44) == Chain(0x4497169d, 0x0fe32453, 0xfd95f243, 0x76fd93d4)
  {
    hide Turned, F, G, H, I, Steps, Entry, Sine, Shift, Place;
    var x := EmptyWords();
    EmptySteps37To40();
    Table41To44();
    EmptyValues41To44();
    StepIs(INITIAL, x, 40, 0x5f7a9b2e, 0xc5dc8c15, 0x91ca4cb7, 0xabc34e16, H(0xc5dc8c15, 0x91ca4cb7, 0xabc34e16), 13, 4, 0x289b7ec6);
    StepIs(INITIAL, x, 41, 0xabc34e16, 0x4497169d, 0xc5dc8c15, 0x91ca4cb7, H(0x4497169d, 0xc5dc8c15, 0x91ca4cb7), 0, 11, 0xeaa127fa);
    StepIs(INITIAL, x, 42, 0x91ca4cb7, 0x76fd93d4, 0x4497169d, 0xc5dc8c15, H(0x76fd93d4, 0x4497169d, 0xc5dc8c15), 3, 16, 0xd4ef3085);
    StepIs(INITIAL, x, 43, 0xc5dc8c15, 0xfd95f243, 0x76fd93d4, 0x4497169d, H(0xfd95f243, 0x76fd93d4, 0x4497169d), 6, 23, 0x04881d05);
  }

  lemma EmptyValues45To48()
    ensures Turned(0x4497169d, 0x0fe32453, H(0x0fe32453, 0xfd95f243, 0x76fd93d4), 0x00000000, 4, 0xd9d4d039) == 0x3f55edfd
    ensures Turned(0x76fd93d4, 0x3f55edfd, H(0x3f55edfd, 0x0fe32453, 0xfd95f243), 0x00000000, 11, 0xe6db99e5) == 0x22a31f54
    ensures Turned(0xfd95f243, 0x22a31f54, H(0x22a31f54, 0x3f55edfd, 0x0fe32453), 0x00000000, 16, 0x1fa27cf8) == 0x68d84ea2
    ensures Turned(0x0fe32453, 0x68d84ea2, H(0x68d84ea2, 0x22a31f54, 0x3f55edfd), 0x00000000, 23, 0xc4ac5665) == 0xca7d2dbd
  {
  }

  lemma EmptySteps45To48()
    ensures Steps(INITIAL, EmptyWords(), 48) == Chain(0x3f55edfd, 0xca7d2dbd, 0x68d84ea2, 0x22a31f54)
  {
    hide Turned, F, G, H, I, Steps, Entry, Sine, Shift, Place;
    var x := EmptyWords();
    EmptySteps41To44();
    Table45To48();
    EmptyValues45To48();
    StepIs(INITIAL, x, 44, 0x4497169d, 0x0fe32453, 0xfd95f243, 0x76fd93d4, H(0x0fe32453, 0xfd95f243, 0x76fd93d4), 9, 4, 0xd9d4d039);
    StepIs(INITIAL, x, 45, 0x76fd93d4, 0x3f55edfd, 0x0fe32453, 0xfd95f243, H(0x3f55edfd, 0x0fe32453, 0xfd95f243), 12, 11, 0xe6db99e5);
    StepIs(INITIAL, x, 46, 0xfd95f243, 0x22a31f54, 0x3f55edfd, 0x0fe32453, H(0x22a31f54, 0x3f55edfd, 0x0fe32453), 15, 16, 0x1fa27cf8);
    StepIs(INITIAL, x, 47, 0x0fe32453, 0x68d84ea2, 0x22a31f54, 0x3f55edfd, H(0x68d84ea2, 0x22a31f54, 0x3f55edfd), 2, 23, 0xc4ac5665);
  }

  lemma EmptyValues49To52()
    ensures Turned(0x3f55edfd, 0xca7d2dbd, I(0xca7d2dbd, 0x68d84ea2, 0x22a31f54), 0x00000080, 6, 0xf4292244) == 0x93aa2577
    ensures Turned(0x22a31f54, 0x93aa2577, I(0x93aa2577, 0xca7d2dbd, 0x68d84ea2), 0x00000000, 10, 0x432aff97) == 0x1688dc85
    ensures Turned(0x68d84ea2, 0x1688dc85, I(0x1688dc85, 0x93aa2577, 0xca7d2dbd), 0x00000000, 15, 0xab9423a7) == 0xcd85b8cb
    ensures Turned(0xca7d2dbd, 0xcd85b8cb, I(0xcd85b8cb, 0x1688dc85, 0x93aa2577), 0x00000000, 21, 0xfc93a039) == 0x561e0689
  {
  }

  lemma EmptySteps49To52()
    ensures Steps(INITIAL, EmptyWords(), 52) == Chain(0x93aa2577, 0x561e0689, 0xcd85b8cb, 0x1688dc85)
  {
    hide Turned, F, G, H, I, Steps, Entry, Sine, Shift, Place;
    var x := EmptyWords();
    EmptySteps45To48();
    Table49To52();
    EmptyValues49To52();
    StepIs(INITIAL, x, 48, 0x3f55edfd, 0xca7d2dbd, 0x68d84ea2, 0x22a31f54, I(0xca7d2dbd, 0x68d84ea2, 0x22a31f54), 0, 6, 0xf4292244);
    StepIs(INITIAL, x, 49, 0x22a31f54, 0x93aa2577, 0xca7d2dbd, 0x68d84ea2, I(0x93aa2577, 0xca7d2dbd, 0x68d84ea2), 7, 10, 0x432aff97);
    StepIs(INITIAL, x, 50, 0x68d84ea2, 0x1688dc85, 0x93aa2577, 0xca7d2dbd, I(0x1688dc85, 0x93aa2577, 0xca7d2dbd), 14, 15, 0xab9423a7);
    StepIs(INITIAL, x, 51, 0xca7d2dbd, 0xcd85b8cb, 0x1688dc85, 0x93aa2577, I(0xcd85b8cb, 0x1688dc85, 0x93aa2577), 5, 21, 0xfc93a039);
  }

  lemma EmptyValues53To56()
    ensures Turned(0x93aa2577, 0x561e0689, I(0x561e0689, 0xcd85b8cb, 0x1688dc85), 0x00000000, 6, 0x655b59c3) == 0x5625a114
    ensures Turned(0x1688dc85, 0x5625a114, I(0x5625a114, 0x561e0689, 0xcd85b8cb), 0x00000000, 10, 0x8f0ccc92) == 0x3450f42b
    ensures Turned(0xcd85b8cb, 0x3450f42b, I(0x3450f42b, 0x5625a114, 0x561e0689), 0x00000000, 15, 0xffeff47d) == 0x392ad0d0
    ensures Turned(0x561e0689, 0x392ad0d0, I(0x392ad0d0, 0x3450f42b, 0x5625a114), 0x00000000, 21, 0x85845dd1) == 0x1e77fa61
  {
  }

  lemma EmptySteps53To56()
    ensures Steps(INITIAL, EmptyWords(), 56) == Chain(0x5625a114, 0x1e77fa61, 0x392ad0d0, 0x3450f42b)
  {
    hide Turned, F, G, H, I, Steps, Entry, Sine, Shift, Place;
    var x := EmptyWords();
    EmptySteps49To52();
    Table53To56();
    EmptyValues53To56();
    StepIs(INITIAL, x, 52, 0x93aa2577, 0x561e0689, 0xcd85b8cb, 0x1688dc85, I(0x561e0689, 0xcd85b8cb, 0x1688dc85), 12, 6, 0x655b59c3);
    StepIs(INITIAL, x, 53, 0x1688dc85, 0x5625a114, 0x561e0689, 0xcd85b8cb, I(0x5625a114, 0x561e0689, 0xcd85b8cb), 3, 10, 0x8f0ccc92);
    StepIs(INITIAL, x, 54, 0xcd85b8cb, 0x3450f42b, 0x5625a114, 0x561e0689, I(0x3450f42b, 0x5625a114, 0x561e0689), 10, 15, 0xffeff47d);
    StepIs(INITIAL, x, 55, 0x561e0689, 0x392ad0d0, 0x3450f42b, 0x5625a114, I(0x392ad0d0, 0x3450f42b, 0x5625a114), 1, 21, 0x85845dd1);
  }

  lemma EmptyValues57To60()
    ensures Turned(0x5625a114, 0x1e77fa61, I(0x1e77fa61, 0x392ad0d0, 0x3450f42b), 0x00000000, 6, 0x6fa87e4f) == 0x474a9c8c
    ensures Turned(0x3450f42b, 0x474a9c8c, I(0x474a9c8c, 0x1e77fa61, 0x392ad0d0), 0x00000000, 10, 0xfe2ce6e0) == 0xdfce00bc
    ensures Turned(0x392ad0d0, 0xdfce00bc, I(0xdfce00bc, 0x474a9c8c, 0x1e77fa61), 0x00000000, 15, 0xa3014314) == 0x36594b14
    ensures Turned(0x1e77fa61, 0x36594b14, I(0x36594b14, 0xdfce00bc, 0x474a9c8c), 0x00000000, 21, 0x4e0811a1) == 0x30130182
  {
  }

  lemma EmptySteps57To60()
    ensures Steps(INITIAL, EmptyWords(), 60) == Chain(0x474a9c8c, 0x30130182, 0x36594b14, 0xdfce00bc)
  {
    hide Turned, F, G, H, I, Steps, Entry, Sine, Shift, Place;
    var x := EmptyWords();
    EmptySteps53To56();
    Table57To60();
    EmptyValues57To60();
    StepIs(INITIAL, x, 56, 0x5625a114, 0x1e77fa61, 0x392ad0d0, 0x3450f42b, I(0x1e77fa61, 0x392ad0d0, 0x3450f42b), 8, 6, 0x6fa87e4f);
    StepIs(INITIAL, x, 57, 0x3450f42b, 0x474a9c8c, 0x1e77fa61, 0x392ad0d0, I(0x474a9c8c, 0x1e77fa61, 0x392ad0d0), 15, 10, 0xfe2ce6e0);
    StepIs(INITIAL, x, 58, 0x392ad0d0, 0xdfce00bc, 0x474a9c8c, 0x1e77fa61, I(0xdfce00bc, 0x474a9c8c, 0x1e77fa61), 6, 15, 0xa3014314);
    StepIs(INITIAL, x, 59, 0x1e77fa61, 0x36594b14, 0xdfce00bc, 0x474a9c8c, I(0x36594b14, 0xdfce00bc, 0x474a9c8c), 13, 21, 0x4e0811a1);
  }

  lemma EmptyValues61To64()
    ensures Turned(0x474a9c8c, 0x30130182, I(0x30130182, 0x36594b14, 0xdfce00bc), 0x00000000, 6, 0xf7537e82) == 0x7246fad3
    ensures Turned(0xdfce00bc, 0x7246fad3, I(0x7246fad3, 0x30130182, 0x36594b14), 0x00000000, 10, 0xbd3af235) == 0x6e10a476
    ensures Turned(0x36594b14, 0x6e10a476, I(0x6e10a476, 0x7246fad3, 0x30130182), 0x00000000, 15, 0x2ad7d2bb) == 0xff4ea3eb
    ensures Turned(0x30130182, 0xff4ea3eb, I(0xff4ea3eb, 0x6e10a476, 0x7246fad3), 0x00000000, 21, 0xeb86d391) == 0x14e45506
  {
  }

  lemma EmptySteps61To64()
    ensures Steps(INITIAL, EmptyWords(), 64) == Chain(0x7246fad3, 0x14e45506, 0xff4ea3eb, 0x6e10a476)
  {
    hide Turned, F, G, H, I, Steps, Entry, Sine, Shift, Place;
    var x := EmptyWords();
    EmptySteps57To60();
    Table61To64();
    EmptyValues61To64();
    StepIs(INITIAL, x, 60, 0x474a9c8c, 0x30130182, 0x36594b14, 0xdfce00bc, I(0x30130182, 0x36594b14, 0xdfce00bc), 4, 6, 0xf7537e82);
    StepIs(INITIAL, x, 61, 0xdfce00bc, 0x7246fad3, 0x30130182, 0x36594b14, I(0x7246fad3, 0x30130182, 0x36594b14), 11, 10, 0xbd3af235);
    StepIs(INITIAL, x, 62, 0x36594b14, 0x6e10a476, 0x7246fad3, 0x30130182, I(0x6e10a476, 0x7246fad3, 0x30130182), 2, 15, 0x2ad7d2bb);
    StepIs(INITIAL, x, 63, 0x30130182, 0xff4ea3eb, 0x6e10a476, 0x7246fad3, I(0xff4ea3eb, 0x6e10a476, 0x7246fad3), 9, 21, 0xeb86d391);
  }

  // ------------------------------------------------------------- the message "abc"

  /** The words of the padded message. */
  function AbcWords(): (x: seq<bv32>)
    ensures |x| == 16
  {
    [0x80636261, 0x00000000, 0x00000000, 0x00000000, 0x00000000, 0x00000000, 0x00000000, 0x00000000,
     0x00000000, 0x00000000, 0x00000000, 0x00000000, 0x00000000, 0x00000000, 0x00000018, 0x00000000]
  }

  lemma AbcValues1To4()
    ensures Turned(0x67452301, 0xefcdab89, F(0xefcdab89, 0x98badcfe, 0x10325476), 0x80636261, 7, 0xd76aa478) == 0xd6d117b4
    ensures Turned(0x10325476, 0xd6d117b4, F(0xd6d117b4, 0xefcdab89, 0x98badcfe), 0x00000000, 12, 0xe8c7b756) == 0x344a8432
    ensures Turned(0x98badcfe, 0x344a8432, F(0x344a8432, 0xd6d117b4, 0xefcdab89), 0x00000000, 17, 0x242070db) == 0x2f6fbd72
    ensures Turned(0xefcdab89, 0x2f6fbd72, F(0x2f6fbd72, 0x344a8432, 0xd6d117b4), 0x00000000, 22, 0xc1bdceee) == 0x7ad956f2
  {
  }

  lemma AbcSteps1To4()
    ensures Steps(INITIAL, AbcWords(), 4) == Chain(0xd6d117b4, 0x7ad956f2, 0x2f6fbd72, 0x344a8432)
  {
    hide Turned, F, G, H, I, Steps, Entry, Sine, Shift, Place;
    var x := AbcWords();
    StepsNone(INITIAL, x);
    Table1To4();
    AbcValues1To4();
    StepIs(INITIAL, x, 0, 0x67452301, 0xefcdab89, 0x98badcfe, 0x10325476, F(0xefcdab89, 0x98badcfe, 0x10325476), 0, 7, 0xd76aa478);
    StepIs(INITIAL, x, 1, 0x10325476, 0xd6d117b4, 0xefcdab89, 0x98badcfe, F(0xd6d117b4, 0xefcdab89, 0x98badcfe), 1, 12, 0xe8c7b756);
    StepIs(INITIAL, x, 2, 0x98badcfe, 0x344a8432, 0xd6d117b4, 0xefcdab89, F(0x344a8432, 0xd6d117b4, 0xefcdab89), 2, 17, 0x242070db);
    StepIs(INITIAL, x, 3, 0xefcdab89, 0x2f6fbd72, 0x344a8432, 0xd6d117b4, F(0x2f6fbd72, 0x344a8432, 0xd6d117b4), 3, 22, 0xc1bdceee);
  }

  lemma AbcValues5To8()
    ensures Turned(0xd6d117b4, 0x7ad956f2, F(0x7ad956f2, 0x2f6fbd72, 0x344a8432), 0x00000000, 7, 0xf57c0faf) == 0xc73741ef
    ensures Turned(0x344a8432, 0xc73741ef, F(0xc73741ef, 0x7ad956f2, 0x2f6fbd72), 0x00000000, 12, 0x4787c62a) == 0x8bac3051
    ensures Turned(0x2f6fbd72, 0x8bac3051, F(0x8bac3051, 0xc73741ef, 0x7ad956f2), 0x00000000, 17, 0xa8304613) == 0x207dc67b
    ensures Turned(0x7ad956f2, 0x207dc67b, F(0x207dc67b, 0x8bac3051, 0xc73741ef), 0x00000000, 22, 0xfd469501) == 0x928d99f6
  {
  }

  lemma AbcSteps5To8()
    ensures Steps(INITIAL, AbcWords(), 8) == Chain(0xc73741ef, 0x928d99f6, 0x207dc67b, 0x8bac3051)
  {
    hide Turned, F, G, H, I, Steps, Entry, Sine, Shift, Place;
    var x := AbcWords();
    AbcSteps1To4();
    Table5To8();
    AbcValues5To8();
    StepIs(INITIAL, x, 4, 0xd6d117b4, 0x7ad956f2, 0x2f6fbd72, 0x344a8432, F(0x7ad956f2, 0x2f6fbd72, 0x344a8432), 4, 7, 0xf57c0faf);
    StepIs(INITIAL, x, 5, 0x344a8432, 0xc73741ef, 0x7ad956f2, 0x2f6fbd72, F(0xc73741ef, 0x7ad956f2, 0x2f6fbd72), 5, 12, 0x4787c62a);
    StepIs(INITIAL, x, 6, 0x2f6fbd72, 0x8bac3051, 0xc73741ef, 0x7ad956f2, F(0x8bac3051, 0xc73741ef, 0x7ad956f2), 6, 17, 0xa8304613);
    StepIs(INITIAL, x, 7, 0x7ad956f2, 0x207dc67b, 0x8bac3051, 0xc73741ef, F(0x207dc67b, 0x8bac3051, 0xc73741ef), 7, 22, 0xfd469501);
  }

  lemma AbcValues9To12()
    ensures Turned(0xc73741ef, 0x928d99f6, F(0x928d99f6, 0x207dc67b, 0x8bac3051), 0x00000000, 7, 0x698098d8) == 0x854b3712
    ensures Turned(0x8bac3051, 0x854b3712, F(0x854b3712, 0x928d99f6, 0x207dc67b), 0x00000000, 12, 0x8b44f7af) == 0x74e2f284
    ensures Turned(0x207dc67b, 0x74e2f284, F(0x74e2f284, 0x854b3712, 0x928d99f6), 0x00000000, 17, 0xffff5bb1) == 0x3020401c
    ensures Turned(0x928d99f6, 0x3020401c, F(0x3020401c, 0x74e2f284, 0x854b3712), 0x00000000, 22, 0x895cd7be) == 0x5ed49596
  {
  }

  lemma AbcSteps9To12()
    ensures Steps(INITIAL, AbcWords(), 12) == Chain(0x854b3712, 0x5ed49596, 0x3020401c, 0x74e2f284)
  {
    hide Turned, F, G, H, I, Steps, Entry, Sine, Shift, Place;
    var x := AbcWords();
    AbcSteps5To8();
    Table9To12();
    AbcValues9To12();
    StepIs(INITIAL, x, 8, 0xc73741ef, 0x928d99f6, 0x207dc67b, 0x8bac3051, F(0x928d99f6, 0x207dc67b, 0x8bac3051), 8, 7, 0x698098d8);
    StepIs(INITIAL, x, 9, 0x8bac3051, 0x854b3712, 0x928d99f6, 0x207dc67b, F(0x854b3712, 0x928d99f6, 0x207dc67b), 9, 12, 0x8b44f7af);
    StepIs(INITIAL, x, 10, 0x207dc67b, 0x74e2f284, 0x854b3712, 0x928d99f6, F(0x74e2f284, 0x854b3712, 0x928d99f6), 10, 17, 0xffff5bb1);
    StepIs(INITIAL, x, 11, 0x928d99f6, 0x3020401c, 0x74e2f284, 0x854b3712, F(0x3020401c, 0x74e2f284, 0x854b3712), 11, 22, 0x895cd7be);
  }

  lemma AbcValues13To16()
    ensures Turned(0x854b3712, 0x5ed49596, F(0x5ed49596, 0x3020401c, 0x74e2f284), 0x00000000, 7, 0x6b901122) == 0xdda9b9a6
    ensures Turned(0x74e2f284, 0xdda9b9a6, F(0xdda9b9a6, 0x5ed49596, 0x3020401c), 0x00000000, 12, 0xfd987193) == 0xa1051895
    ensures Turned(0x3020401c, 0xa1051895, F(0xa1051895, 0xdda9b9a6, 0x5ed49596), 0x00000018, 17, 0xa679438e) == 0xe396856b
    ensures Turned(0x5ed49596, 0xe396856b, F(0xe396856b, 0xa1051895, 0xdda9b9a6), 0x00000000, 22, 0x49b40821) == 0x72aff2e0
  {
  }

  lemma AbcSteps13To16()
    ensures Steps(INITIAL, AbcWords(), 16) == Chain(0xdda9b9a6, 0x72aff2e0, 0xe396856b, 0xa1051895)
  {
    hide Turned, F, G, H, I, Steps, Entry, Sine, Shift, Place;
    var x := AbcWords();
    AbcSteps9To12();
    Table13To16();
    AbcValues13To16();
    StepIs(INITIAL, x, 12, 0x854b3712, 0x5ed49596, 0x3020401c, 0x74e2f284, F(0x5ed49596, 0x3020401c, 0x74e2f284), 12, 7, 0x6b901122);
    StepIs(INITIAL, x, 13, 0x74e2f284, 0xdda9b9a6, 0x5ed49596, 0x3020401c, F(0xdda9b9a6, 0x5ed49596, 0x3020401c), 13, 12, 0xfd987193);
    StepIs(INITIAL, x, 14, 0x3020401c, 0xa1051895, 0xdda9b9a6, 0x5ed49596, F(0xa1051895, 0xdda9b9a6, 0x5ed49596), 14, 17, 0xa679438e);
    StepIs(INITIAL, x, 15, 0x5ed49596, 0xe396856b, 0xa1051895, 0xdda9b9a6, F(0xe396856b, 0xa1051895, 0xdda9b9a6), 15, 22, 0x49b40821);
  }

  lemma AbcValues17To20()
    ensures Turned(0xdda9b9a6, 0x72aff2e0, G(0x72aff2e0, 0xe396856b, 0xa1051895), 0x00000000, 5, 0xf61e2562) == 0x3e9e9126
    ensures Turned(0xa1051895, 0x3e9e9126, G(0x3e9e9126, 0x72aff2e0, 0xe396856b), 0x00000000, 9, 0xc040b340) == 0x4a1d804e
    ensures Turned(0xe396856b, 0x4a1d804e, G(0x4a1d804e, 0x3e9e9126, 0x72aff2e0), 0x00000000, 14, 0x265e5a51) == 0xe25e1652
    ensures Turned(0x72aff2e0, 0xe25e1652, G(0xe25e1652, 0x4a1d804e, 0x3e9e9126), 0x80636261, 20, 0xe9b6c7aa) == 0xb5b204e4
  {
  }

  lemma AbcSteps17To20()
    ensures Steps(INITIAL, AbcWords(), 20) == Chain(0x3e9e9126, 0xb5b204e4, 0xe25e1652, 0x4a1d804e)
  {
    hide Turned, F, G, H, I, Steps, Entry, Sine, Shift, Place;
    var x := AbcWords();
    AbcSteps13To16();
    Table17To20();
    AbcValues17To20();
    StepIs(INITIAL, x, 16, 0xdda9b9a6, 0x72aff2e0, 0xe396856b, 0xa1051895, G(0x72aff2e0, 0xe396856b, 0xa1051895), 1, 5, 0xf61e2562);
    StepIs(INITIAL, x, 17, 0xa1051895, 0x3e9e9126, 0x72aff2e0, 0xe396856b, G(0x3e9e9126, 0x72aff2e0, 0xe396856b), 6, 9, 0xc040b340);
    StepIs(INITIAL, x, 18, 0xe396856b, 0x4a1d804e, 0x3e9e9126, 0x72aff2e0, G(0x4a1d804e, 0x3e9e9126, 0x72aff2e0), 11, 14, 0x265e5a51);
    StepIs(INITIAL, x, 19, 0x72aff2e0, 0xe25e1652, 0x4a1d804e, 0x3e9e9126, G(0xe25e1652, 0x4a1d804e, 0x3e9e9126), 0, 20, 0xe9b6c7aa);
  }

  lemma AbcValues21To24()
    ensures Turned(0x3e9e9126, 0xb5b204e4, G(0xb5b204e4, 0xe25e1652, 0x4a1d804e), 0x00000000, 5, 0xd62f105d) == 0x59a8ffda
    ensures Turned(0x4a1d804e, 0x59a8ffda, G(0x59a8ffda, 0xb5b204e4, 0xe25e1652), 0x00000000, 9, 0x02441453) == 0x6d002f1e
    ensures Turned(0xe25e1652, 0x6d002f1e, G(0x6d002f1e, 0x59a8ffda, 0xb5b204e4), 0x00000000, 14, 0xd8a1e681) == 0xabfc7920
    ensures Turned(0xb5b204e4, 0xabfc7920, G(0xabfc7920, 0x6d002f1e, 0x59a8ffda), 0x00000000, 20, 0xe7d3fbc8) == 0x47092c07
  {
  }

  lemma AbcSteps21To24()
    ensures Steps(INITIAL, AbcWords(), 24) == Chain(0x59a8ffda, 0x47092c07, 0xabfc7920, 0x6d002f1e)
  {
    hide Turned, F, G, H, I, Steps, Entry, Sine, Shift, Place;
    var x := AbcWords();
    AbcSteps17To20();
    Table21To24();
    AbcValues21To24();
    StepIs(INITIAL, x, 20, 0x3e9e9126, 0xb5b204e4, 0xe25e1652, 0x4a1d804e, G(0xb5b204e4, 0xe25e1652, 0x4a1d804e), 5, 5, 0xd62f105d);
    StepIs(INITIAL, x, 21, 0x4a1d804e, 0x59a8ffda, 0xb5b204e4, 0xe25e1652, G(0x59a8ffda, 0xb5b204e4, 0xe25e1652), 10, 9, 0x02441453);
    StepIs(INITIAL, x, 22, 0xe25e1652, 0x6d002f1e, 0x59a8ffda, 0xb5b204e4, G(0x6d002f1e, 0x59a8ffda, 0xb5b204e4), 15, 14, 0xd8a1e681);
    StepIs(INITIAL, x, 23, 0xb5b204e4, 0xabfc7920, 0x6d002f1e, 0x59a8ffda, G(0xabfc7920, 0x6d002f1e, 0x59a8ffda), 4, 20, 0xe7d3fbc8);
  }

  lemma AbcValues25To28()
    ensures Turned(0x59a8ffda, 0x47092c07, G(0x47092c07, 0xabfc7920, 0x6d002f1e), 0x00000000, 5, 0x21e1cde6) == 0xb7f268cf
    ensures Turned(0x6d002f1e, 0xb7f268cf, G(0xb7f268cf, 0x47092c07, 0xabfc7920), 0x00000018, 9, 0xc33707d6) == 0x09388eff
    ensures Turned(0xabfc7920, 0x09388eff, G(0x09388eff, 0xb7f268cf, 0x47092c07), 0x00000000, 14, 0xf4d50d87) == 0xfe1623b1
    ensures Turned(0x47092c07, 0xfe1623b1, G(0xfe1623b1, 0x09388eff, 0xb7f268cf), 0x00000000, 20, 0x455a14ed) == 0x786acb8f
  {
  }

  lemma AbcSteps25To28()
    ensures Steps(INITIAL, AbcWords(), 28) == Chain(0xb7f268cf, 0x786acb8f, 0xfe1623b1, 0x09388eff)
  {
    hide Turned, F, G, H, I, Steps, Entry, Sine, Shift, Place;
    var x := AbcWords();
    AbcSteps21To24();
    Table25To28();
    AbcValues25To28();
    StepIs(INITIAL, x, 24, 0x59a8ffda, 0x47092c07, 0xabfc7920, 0x6d002f1e, G(0x47092c07, 0xabfc7920, 0x6d002f1e), 9, 5, 0x21e1cde6);
    StepIs(INITIAL, x, 25, 0x6d002f1e, 0xb7f268cf, 0x47092c07, 0xabfc7920, G(0xb7f268cf, 0x47092c07, 0xabfc7920), 14, 9, 0xc33707d6);
    StepIs(INITIAL, x, 26, 0xabfc7920, 0x09388eff, 0xb7f268cf, 0x47092c07, G(0x09388eff, 0xb7f268cf, 0x47092c07), 3, 14, 0xf4d50d87);
    StepIs(INITIAL, x, 27, 0x47092c07, 0xfe1623b1, 0x09388eff, 0xb7f268cf, G(0xfe1623b1, 0x09388eff, 0xb7f268cf), 8, 20, 0x455a14ed);
  }

  lemma AbcValues29To32()
    ensures Turned(0xb7f268cf, 0x786acb8f, G(0x786acb8f, 0xfe1623b1, 0x09388eff), 0x00000000, 5, 0xa9e3e905) == 0x790a77fb
    ensures Turned(0x09388eff, 0x790a77fb, G(0x790a77fb, 0x786acb8f, 0xfe1623b1), 0x00000000, 9, 0xfcefa3f8) == 0x9f47e4f8
    ensures Turned(0xfe1623b1, 0x9f47e4f8, G(0x9f47e4f8, 0x790a77fb, 0x786acb8f), 0x00000000, 14, 0x676f02d9) == 0xa62884aa
    ensures Turned(0x786acb8f, 0xa62884aa, G(0xa62884aa, 0x9f47e4f8, 0x790a77fb), 0x00000000, 20, 0x8d2a4c8a) == 0x726342d3
  {
  }

  lemma AbcSteps29To32()
    ensures Steps(INITIAL, AbcWords(), 32) == Chain(0x790a77fb, 0x726342d3, 0xa62884aa, 0x9f47e4f8)
  {
    hide Turned, F, G, H, I, Steps, Entry, Sine, Shift, Place;
    var x := AbcWords();
    AbcSteps25To28();
    Table29To32();
    AbcValues29To32();
    StepIs(INITIAL, x, 28, 0xb7f268cf, 0x786acb8f, 0xfe1623b1, 0x09388eff, G(0x786acb8f, 0xfe1623b1, 0x09388eff), 13, 5, 0xa9e3e905);
    StepIs(INITIAL, x, 29, 0x09388eff, 0x790a77fb, 0x786acb8f, 0xfe1623b1, G(0x790a77fb, 0x786acb8f, 0xfe1623b1), 2, 9, 0xfcefa3f8);
    StepIs(INITIAL, x, 30, 0xfe1623b1, 0x9f47e4f8, 0x790a77fb, 0x786acb8f, G(0x9f47e4f8, 0x790a77fb, 0x786acb8f), 7, 14, 0x676f02d9);
    StepIs(INITIAL, x, 31, 0x786acb8f, 0xa62884aa, 0x9f47e4f8, 0x790a77fb, G(0xa62884aa, 0x9f47e4f8, 0x790a77fb), 12, 20, 0x8d2a4c8a);
  }

  lemma AbcValues33To36()
    ensures Turned(0x790a77fb, 0x726342d3, H(0x726342d3, 0xa62884aa, 0x9f47e4f8), 0x00000000, 4, 0xfffa3942) == 0xb3707ebf
    ensures Turned(0x9f47e4f8, 0xb3707ebf, H(0xb3707ebf, 0x726342d3, 0xa62884aa), 0x00000000, 11, 0x8771f681) == 0x60127b2e
    ensures Turned(0xa62884aa, 0x60127b2e, H(0x60127b2e, 0xb3707ebf, 0x726342d3), 0x00000000, 16, 0x6d9d6122) == 0x8d212ff5
    ensures Turned(0x726342d3, 0x8d212ff5, H(0x8d212ff5, 0x60127b2e, 0xb3707ebf), 0x00000018, 23, 0xfde5380c) == 0x3b0875c7
  {
  }

  lemma AbcSteps33To36()
    ensures Steps(INITIAL, AbcWords(), 36) == Chain(0xb3707ebf, 0x3b0875c7, 0x8d212ff5, 0x60127b2e)
  {
    hide Turned, F, G, H, I, Steps, Entry, Sine, Shift, Place;
    var x := AbcWords();
    AbcSteps29To32();
    Table33To36();
    AbcValues33To36();
    StepIs(INITIAL, x, 32, 0x790a77fb, 0x726342d3, 0xa62884aa, 0x9f47e4f8, H(0x726342d3, 0xa62884aa, 0x9f47e4f8), 5, 4, 0xfffa3942);
    StepIs(INITIAL, x, 33, 0x9f47e4f8, 0xb3707ebf, 0x726342d3, 0xa62884aa, H(0xb3707ebf, 0x726342d3, 0xa62884aa), 8, 11, 0x8771f681);
    StepIs(INITIAL, x, 34, 0xa62884aa, 0x60127b2e, 0xb3707ebf, 0x726342d3, H(0x60127b2e, 0xb3707ebf, 0x726342d3), 11, 16, 0x6d9d6122);
    StepIs(INITIAL, x, 35, 0x726342d3, 0x8d212ff5, 0x60127b2e, 0xb3707ebf, H(0x8d212ff5, 0x60127b2e, 0xb3707ebf), 14, 23, 0xfde5380c);
  }

  lemma AbcValues37To40()
    ensures Turned(0xb3707ebf, 0x3b0875c7, H(0x3b0875c7, 0x8d212ff5, 0x60127b2e), 0x00000000, 4, 0xa4beea44) == 0x21b117b9
    ensures Turned(0x60127b2e, 0x21b117b9, H(0x21b117b9, 0x3b0875c7, 0x8d212ff5), 0x00000000, 11, 0x4bdecfa9) == 0x6e7429d5
    ensures Turned(0x8d212ff5, 0x6e7429d5, H(0x6e7429d5, 0x21b117b9, 0x3b0875c7), 0x00000000, 16, 0xf6bb4b60) == 0x3575227e
    ensures Turned(0x3b0875c7, 0x3575227e, H(0x3575227e, 0x6e7429d5, 0x21b117b9), 0x00000000, 23, 0xbebfbc70) == 0x5a2f5ea5
  {
  }

  lemma AbcSteps37To40()
    ensures Steps(INITIAL, AbcWords(), 40) == Chain(0x21b117b9, 0x5a2f5ea5, 0x3575227e, 0x6e7429d5)
  {
    hide Turned, F, G, H, I, Steps, Entry, Sine, Shift, Place;
    var x := AbcWords();
    AbcSteps33To36();
    Table37To40();
    AbcValues37To40();
    StepIs(INITIAL, x, 36, 0xb3707ebf, 0x3b0875c7, 0x8d212ff5, 0x60127b2e, H(0x3b0875c7, 0x8d212ff5, 0x60127b2e), 1, 4, 0xa4beea44);
    StepIs(INITIAL, x, 37, 0x60127b2e, 0x21b117b9, 0x3b0875c7, 0x8d212ff5, H(0x21b117b9, 0x3b0875c7, 0x8d212ff5), 4, 11, 0x4bdecfa9);
    StepIs(INITIAL, x, 38, 0x8d212ff5, 0x6e7429d5, 0x21b117b9, 0x3b0875c7, H(0x6e7429d5, 0x21b117b9, 0x3b0875c7), 7, 16, 0xf6bb4b60);
    StepIs(INITIAL, x, 39, 0x3b0875c7, 0x3575227e, 0x6e7429d5, 0x21b117b9, H(0x3575227e, 0x6e7429d5, 0x21b117b9), 10, 23, 0xbebfbc70);
  }

  lemma AbcValues41To44()
    ensures Turned(0x21b117b9, 0x5a2f5ea5, H(0x5a2f5ea5, 0x3575227e, 0x6e7429d5), 0x00000000, 4, 0x289b7ec6) == 0x11de1779
    ensures Turned(0x6e7429d5, 0x11de1779, H(0x11de1779, 0x5a2f5ea5, 0x3575227e), 0x80636261, 11, 0xeaa127fa) == 0xfadcaa38
    ensures Turned(0x3575227e, 0xfadcaa38, H(0xfadcaa38, 0x11de1779, 0x5a2f5ea5), 0x00000000, 16, 0xd4ef3085) == 0x31c465ca
    ensures Turned(0x5a2f5ea5, 0x31c465ca, H(0x31c465ca, 0xfadcaa38, 0x11de1779), 0x00000000, 23, 0x04881d05) == 0x4c6124f4
  {
  }

  lemma AbcSteps41To44()
    ensures Steps(INITIAL, AbcWords(), 44) == Chain(0x11de1779, 0x4c6124f4, 0x31c465ca, 0xfadcaa38)
  {
    hide Turned, F, G, H, I, Steps, Entry, Sine, Shift, Place;
    var x := AbcWords();
    AbcSteps37To40();
    Table41To44();
    AbcValues41To44();
    StepIs(INITIAL, x, 40, 0x21b117b9, 0x5a2f5ea5, 0x3575227e, 0x6e7429d5, H(0x5a2f5ea5, 0x3575227e, 0x6e7429d5), 13, 4, 0x289b7ec6);
    StepIs(INITIAL, x, 41, 0x6e7429d5, 0x11de1779, 0x5a2f5ea5, 0x3575227e, H(0x11de1779, 0x5a2f5ea5, 0x3575227e), 0, 11, 0xeaa127fa);
    StepIs(INITIAL, x, 42, 0x3575227e, 0xfadcaa38, 0x11de1779, 0x5a2f5ea5, H(0xfadcaa38, 0x11de1779, 0x5a2f5ea5), 3, 16, 0xd4ef3085);
    StepIs(INITIAL, x, 43, 0x5a2f5ea5, 0x31c465ca, 0xfadcaa38, 0x11de1779, H(0x31c465ca, 0xfadcaa38, 0x11de1779), 6, 23, 0x04881d05);
  }

  lemma AbcValues45To48()
    ensures Turned(0x11de1779, 0x4c6124f4, H(0x4c6124f4, 0x31c465ca, 0xfadcaa38), 0x00000000, 4, 0xd9d4d039) == 0x7f2e507b
    ensures Turned(0xfadcaa38, 0x7f2e507b, H(0x7f2e507b, 0x4c6124f4, 0x31c465ca), 0x00000000, 11, 0xe6db99e5) == 0x99d9679d
    ensures Turned(0x31c465ca, 0x99d9679d, H(0x99d9679d, 0x7f2e507b, 0x4c6124f4), 0x00000000, 16, 0x1fa27cf8) == 0x8fae6399
    ensures Turned(0x4c6124f4, 0x8fae6399, H(0x8fae6399, 0x99d9679d, 0x7f2e507b), 0x00000000, 23, 0xc4ac5665) == 0x7beb9700
  {
  }

  lemma AbcSteps45To48()
    ensures Steps(INITIAL, AbcWords(), 48) == Chain(0x7f2e507b, 0x7beb9700, 0x8fae6399, 0x99d9679d)
  {
    hide Turned, F, G, H, I, Steps, Entry, Sine, Shift, Place;
    var x := AbcWords();
    AbcSteps41To44();
    Table45To48();
    AbcValues45To48();
    StepIs(INITIAL, x, 44, 0x11de1779, 0x4c6124f4, 0x31c465ca, 0xfadcaa38, H(0x4c6124f4, 0x31c465ca, 0xfadcaa38), 9, 4, 0xd9d4d039);
    StepIs(INITIAL, x, 45, 0xfadcaa38, 0x7f2e507b, 0x4c6124f4, 0x31c465ca, H(0x7f2e507b, 0x4c6124f4, 0x31c465ca), 12, 11, 0xe6db99e5);
    StepIs(INITIAL, x, 46, 0x31c465ca, 0x99d9679d, 0x7f2e507b, 0x4c6124f4, H(0x99d9679d, 0x7f2e507b, 0x4c6124f4), 15, 16, 0x1fa27cf8);
    StepIs(INITIAL, x, 47, 0x4c6124f4, 0x8fae6399, 0x99d9679d, 0x7f2e507b, H(0x8fae6399, 0x99d9679d, 0x7f2e507b), 2, 23, 0xc4ac5665);
  }

  lemma AbcValues49To52()
    ensures Turned(0x7f2e507b, 0x7beb9700, I(0x7beb9700, 0x8fae6399, 0x99d9679d), 0x80636261, 6, 0xf4292244) == 0x7b201df8
    ensures Turned(0x99d9679d, 0x7b201df8, I(0x7b201df8, 0x7beb9700, 0x8fae6399), 0x00000000, 10, 0x432aff97) == 0xf4e8e96e
    ensures Turned(0x8fae6399, 0xf4e8e96e, I(0xf4e8e96e, 0x7b201df8, 0x7beb9700), 0x00000018, 15, 0xab9423a7) == 0xb298cefd
    ensures Turned(0x7beb9700, 0xb298cefd, I(0xb298cefd, 0xf4e8e96e, 0x7b201df8), 0x00000000, 21, 0xfc93a039) == 0x8bf025c4
  {
  }

  lemma AbcSteps49To52()
    ensures Steps(INITIAL, AbcWords(), 52) == Chain(0x7b201df8, 0x8bf025c4, 0xb298cefd, 0xf4e8e96e)
  {
    hide Turned, F, G, H, I, Steps, Entry, Sine, Shift, Place;
    var x := AbcWords();
    AbcSteps45To48();
    Table49To52();
    AbcValues49To52();
    StepIs(INITIAL, x, 48, 0x7f2e507b, 0x7beb9700, 0x8fae6399, 0x99d9679d, I(0x7beb9700, 0x8fae6399, 0x99d9679d), 0, 6, 0xf4292244);
    StepIs(INITIAL, x, 49, 0x99d9679d, 0x7b201df8, 0x7beb9700, 0x8fae6399, I(0x7b201df8, 0x7beb9700, 0x8fae6399), 7, 10, 0x432aff97);
    StepIs(INITIAL, x, 50, 0x8fae6399, 0xf4e8e96e, 0x7b201df8, 0x7beb9700, I(0xf4e8e96e, 0x7b201df8, 0x7beb9700), 14, 15, 0xab9423a7);
    StepIs(INITIAL, x, 51, 0x7beb9700, 0xb298cefd, 0xf4e8e96e, 0x7b201df8, I(0xb298cefd, 0xf4e8e96e, 0x7b201df8), 5, 21, 0xfc93a039);
  }

  lemma AbcValues53To56()
    ensures Turned(0x7b201df8, 0x8bf025c4, I(0x8bf025c4, 0xb298cefd, 0xf4e8e96e), 0x00000000, 6, 0x655b59c3) == 0x06cc5e8a
    ensures Turned(0xf4e8e96e, 0x06cc5e8a, I(0x06cc5e8a, 0x8bf025c4, 0xb298cefd), 0x00000000, 10, 0x8f0ccc92) == 0x5b0d97aa
    ensures Turned(0xb298cefd, 0x5b0d97aa, I(0x5b0d97aa, 0x06cc5e8a, 0x8bf025c4), 0x00000000, 15, 0xffeff47d) == 0x7d632dd0
    ensures Turned(0x8bf025c4, 0x7d632dd0, I(0x7d632dd0, 0x5b0d97aa, 0x06cc5e8a), 0x00000000, 21, 0x85845dd1) == 0x3bfa2c27
  {
  }

  lemma AbcSteps53To56()
    ensures Steps(INITIAL, AbcWords(), 56) == Chain(0x06cc5e8a, 0x3bfa2c27, 0x7d632dd0, 0x5b0d97aa)
  {
    hide Turned, F, G, H, I, Steps, Entry, Sine, Shift, Place;
    var x := AbcWords();
    AbcSteps49To52();
    Table53To56();
    AbcValues53To56();
    StepIs(INITIAL, x, 52, 0x7b201df8, 0x8bf025c4, 0xb298cefd, 0xf4e8e96e, I(0x8bf025c4, 0xb298cefd, 0xf4e8e96e), 12, 6, 0x655b59c3);
    StepIs(INITIAL, x, 53, 0xf4e8e96e, 0x06cc5e8a, 0x8bf025c4, 0xb298cefd, I(0x06cc5e8a, 0x8bf025c4, 0xb298cefd), 3, 10, 0x8f0ccc92);
    StepIs(INITIAL, x, 54, 0xb298cefd, 0x5b0d97aa, 0x06cc5e8a, 0x8bf025c4, I(0x5b0d97aa, 0x06cc5e8a, 0x8bf025c4), 10, 15, 0xffeff47d);
    StepIs(INITIAL, x, 55, 0x8bf025c4, 0x7d632dd0, 0x5b0d97aa, 0x06cc5e8a, I(0x7d632dd0, 0x5b0d97aa, 0x06cc5e8a), 1, 21, 0x85845dd1);
  }

  lemma AbcValues57To60()
    ensures Turned(0x06cc5e8a, 0x3bfa2c27, I(0x3bfa2c27, 0x7d632dd0, 0x5b0d97aa), 0x00000000, 6, 0x6fa87e4f) == 0x7f81cc35
    ensures Turned(0x5b0d97aa, 0x7f81cc35, I(0x7f81cc35, 0x3bfa2c27, 0x7d632dd0), 0x00000000, 10, 0xfe2ce6e0) == 0x094454ab
    ensures Turned(0x7d632dd0, 0x094454ab, I(0x094454ab, 0x7f81cc35, 0x3bfa2c27), 0x00000000, 15, 0xa3014314) == 0x4f9dbe3f
    ensures Turned(0x3bfa2c27, 0x4f9dbe3f, I(0x4f9dbe3f, 0x094454ab, 0x7f81cc35), 0x00000000, 21, 0x4e0811a1) == 0x7327d604
  {
  }

  lemma AbcSteps57To60()
    ensures Steps(INITIAL, AbcWords(), 60) == Chain(0x7f81cc35, 0x7327d604, 0x4f9dbe3f, 0x094454ab)
  {
    hide Turned, F, G, H, I, Steps, Entry, Sine, Shift, Place;
    var x := AbcWords();
    AbcSteps53To56();
    Table57To60();
    AbcValues57To60();
    StepIs(INITIAL, x, 56, 0x06cc5e8a, 0x3bfa2c27, 0x7d632dd0, 0x5b0d97aa, I(0x3bfa2c27, 0x7d632dd0, 0x5b0d97aa), 8, 6, 0x6fa87e4f);
    StepIs(INITIAL, x, 57, 0x5b0d97aa, 0x7f81cc35, 0x3bfa2c27, 0x7d632dd0, I(0x7f81cc35, 0x3bfa2c27, 0x7d632dd0), 15, 10, 0xfe2ce6e0);
    StepIs(INITIAL, x, 58, 0x7d632dd0, 0x094454ab, 0x7f81cc35, 0x3bfa2c27, I(0x094454ab, 0x7f81cc35, 0x3bfa2c27), 6, 15, 0xa3014314);
    StepIs(INITIAL, x, 59, 0x3bfa2c27, 0x4f9dbe3f, 0x094454ab, 0x7f81cc35, I(0x4f9dbe3f, 0x094454ab, 0x7f81cc35), 13, 21, 0x4e0811a1);
  }

  lemma AbcValues61To64()
    ensures Turned(0x7f81cc35, 0x7327d604, I(0x7327d604, 0x4f9dbe3f, 0x094454ab), 0x00000000, 6, 0xf7537e82) == 0x310ade8f
    ensures Turned(0x094454ab, 0x310ade8f, I(0x310ade8f, 0x7327d604, 0x4f9dbe3f), 0x00000000, 10, 0xbd3af235) == 0x624d8cb2
    ensures Turned(0x4f9dbe3f, 0x624d8cb2, I(0x624d8cb2, 0x310ade8f, 0x7327d604), 0x00000000, 15, 0x2ad7d2bb) == 0xe484b9d8
    ensures Turned(0x7327d604, 0xe484b9d8, I(0xe484b9d8, 0x624d8cb2, 0x310ade8f), 0x00000000, 21, 0xeb86d391) == 0xc08226b3
  {
  }

  lemma AbcSteps61To64()
    ensures Steps(INITIAL, AbcWords(), 64) == Chain(0x310ade8f, 0xc08226b3, 0xe484b9d8, 0x624d8cb2)
  {
    hide Turned, F, G, H, I, Steps, Entry, Sine, Shift, Place;
    var x := AbcWords();
    AbcSteps57To60();
    Table61To64();
    AbcValues61To64();
    StepIs(INITIAL, x, 60, 0x7f81cc35, 0x7327d604, 0x4f9dbe3f, 0x094454ab, I(0x7327d604, 0x4f9dbe3f, 0x094454ab), 4, 6, 0xf7537e82);
    StepIs(INITIAL, x, 61, 0x094454ab, 0x310ade8f, 0x7327d604, 0x4f9dbe3f, I(0x310ade8f, 0x7327d604, 0x4f9dbe3f), 11, 10, 0xbd3af235);
    StepIs(INITIAL, x, 62, 0x4f9dbe3f, 0x624d8cb2, 0x310ade8f, 0x7327d604, I(0x624d8cb2, 0x310ade8f, 0x7327d604), 2, 15, 0x2ad7d2bb);
    StepIs(INITIAL, x, 63, 0x7327d604, 0xe484b9d8, 0x624d8cb2, 0x310ade8f, I(0xe484b9d8, 0x624d8cb2, 0x310ade8f), 9, 21, 0xeb86d391);
  }

  // ------------------------------------------------------------- the digests

  lemma CountBytes(count: bv32)
    requires count < 0x100
    ensures LittleBytes([count, 0]) == [count as bv8, 0, 0, 0, 0, 0, 0, 0]
  {
    assert LittleByte(count, 0) == count as bv8 && LittleByte(count, 1) == LittleByte(count, 2) == LittleByte(count, 3) == 0;
    assert LittleByte(0, 0) == LittleByte(0, 1) == LittleByte(0, 2) == LittleByte(0, 3) == 0;
  }

  /** A message of less than a word is one block: the message, the mark, zeros and the count. */
  lemma ShortBlock(m: seq<bv8>, count: bv32)
    requires |m| < 4 && BitCount(|m|) == [count, 0] && count < 0x100
    ensures var b := m + Padding(|m|) + LittleBytes(BitCount(|m|));
            && |b| == 64 && b[..|m|] == m && b[|m|] == 0x80
            && (forall j :: |m| < j < 56 ==> b[j] == 0) && b[56] == count as bv8
            && (forall j :: 56 < j < 64 ==> b[j] == 0)
  {
    hide LittleBytes, BitCount;
    CountBytes(count);
    assert |Padding(|m|)| == 56 - |m|;
  }

  /** A block that starts with one word and ends with the count. */
  lemma ShortWords(b: seq<bv8>, first: bv32, count: bv8)
    requires |b| == 64 && LittleWord(b[0], b[1], b[2], b[3]) == first
    requires (forall j :: 4 <= j < 56 ==> b[j] == 0) && b[56] == count && (forall j :: 56 < j < 64 ==> b[j] == 0)
    ensures Words(b) == [first, 0, 0, 0, 0, 0, 0, 0, 0, 0, 0, 0, 0, 0, count as bv32, 0]
  {
    hide LittleWord, Words;
    ZeroWords(count);
    var x := [first, 0, 0, 0, 0, 0, 0, 0, 0, 0, 0, 0, 0, 0, count as bv32, 0];
    forall i | 0 <= i < 16
      ensures Words(b)[i] == x[i]
    {
      WordAt(b, i);
    }
  }

  lemma WordAt(b: seq<bv8>, i: nat)
    requires |b| == 64 && i < 16
    ensures Words(b)[i] == LittleWord(b[4 * i], b[4 * i + 1], b[4 * i + 2], b[4 * i + 3])
  {
    hide LittleWord;
  }

  lemma ZeroWords(count: bv8)
    ensures LittleWord(0, 0, 0, 0) == 0 && LittleWord(count, 0, 0, 0) == count as bv32
  {
  }

  lemma OneBlock(b: seq<bv8>)
    requires |b| == 64
    ensures Blocks(INITIAL, b) == Compress(INITIAL, b)
  {
    hide Compress;
    assert b[..64] == b && b[64..] == [];
  }

  lemma CompressIs(b: seq<bv8>, x: seq<bv32>, a: bv32, b2: bv32, c: bv32, d: bv32)
    requires |b| == 64 && |x| == 16 && Words(b) == x && Steps(INITIAL, x, 64) == Chain(a, b2, c, d)
    ensures Compress(INITIAL, b) ==
            Chain(Plus(0x67452301, a), Plus(0xefcdab89, b2), Plus(0x98badcfe, c), Plus(0x10325476, d))
  {
    hide Steps, Words;
  }

  lemma EmptyResult()
    ensures Plus(0x67452301, 0x7246fad3) == 0xd98c1dd4
    ensures Plus(0xefcdab89, 0x14e45506) == 0x04b2008f
    ensures Plus(0x98badcfe, 0xff4ea3eb) == 0x980980e9
    ensures Plus(0x10325476, 0x6e10a476) == 0x7e42f8ec
    ensures LittleBytes([0xd98c1dd4, 0x04b2008f, 0x980980e9, 0x7e42f8ec]) ==
            [0xd4, 0x1d, 0x8c, 0xd9, 0x8f, 0x00, 0xb2, 0x04,
             0xe9, 0x80, 0x09, 0x98, 0xec, 0xf8, 0x42, 0x7e]
  {
    assert LittleByte(0xd98c1dd4, 0) == 0xd4 && LittleByte(0xd98c1dd4, 1) == 0x1d && LittleByte(0xd98c1dd4, 2) == 0x8c && LittleByte(0xd98c1dd4, 3) == 0xd9;
    assert LittleByte(0x04b2008f, 0) == 0x8f && LittleByte(0x04b2008f, 1) == 0x00 && LittleByte(0x04b2008f, 2) == 0xb2 && LittleByte(0x04b2008f, 3) == 0x04;
    assert LittleByte(0x980980e9, 0) == 0xe9 && LittleByte(0x980980e9, 1) == 0x80 && LittleByte(0x980980e9, 2) == 0x09 && LittleByte(0x980980e9, 3) == 0x98;
    assert LittleByte(0x7e42f8ec, 0) == 0xec && LittleByte(0x7e42f8ec, 1) == 0xf8 && LittleByte(0x7e42f8ec, 2) == 0x42 && LittleByte(0x7e42f8ec, 3) == 0x7e;
  }

  /** The digest of the empty message is d41d8cd98f00b204e9800998ecf8427e. */
  lemma EmptyDigest()
    ensures Digest([]) == [0xd4, 0x1d, 0x8c, 0xd9, 0x8f, 0x00, 0xb2, 0x04,
                         0xe9, 0x80, 0x09, 0x98, 0xec, 0xf8, 0x42, 0x7e]
  {
    hide Steps, Compress, Words, LittleWord, LittleBytes, Padding, Plus, BitCount, Blocks;
    var m: seq<bv8> := [];
    var b := m + Padding(|m|) + LittleBytes(BitCount(|m|));
    EmptyCount();
    ShortBlock(m, 0x00000000);
    ShortWords(b, 0x00000080, 0x00);
    OneBlock(b);
    EmptySteps61To64();
    CompressIs(b, EmptyWords(), 0x7246fad3, 0x14e45506, 0xff4ea3eb, 0x6e10a476);
    EmptyResult();
  }

  lemma EmptyCount()
    ensures BitCount(0) == [0x00000000, 0]
    ensures forall b: seq<bv8> :: |b| >= 4 && b[..0] == [] && b[0] == 0x80 && (forall j :: 0 < j < 4 ==> b[j] == 0)
              ==> LittleWord(b[0], b[1], b[2], b[3]) == 0x00000080
  {
  }

  lemma AbcResult()
    ensures Plus(0x67452301, 0x310ade8f) == 0x98500190
    ensures Plus(0xefcdab89, 0xc08226b3) == 0xb04fd23c
    ensures Plus(0x98badcfe, 0xe484b9d8) == 0x7d3f96d6
    ensures Plus(0x10325476, 0x624d8cb2) == 0x727fe128
    ensures LittleBytes([0x98500190, 0xb04fd23c, 0x7d3f96d6, 0x727fe128]) ==
            [0x90, 0x01, 0x50, 0x98, 0x3c, 0xd2, 0x4f, 0xb0,
             0xd6, 0x96, 0x3f, 0x7d, 0x28, 0xe1, 0x7f, 0x72]
  {
    assert LittleByte(0x98500190, 0) == 0x90 && LittleByte(0x98500190, 1) == 0x01 && LittleByte(0x98500190, 2) == 0x50 && LittleByte(0x98500190, 3) == 0x98;
    assert LittleByte(0xb04fd23c, 0) == 0x3c && LittleByte(0xb04fd23c, 1) == 0xd2 && LittleByte(0xb04fd23c, 2) == 0x4f && LittleByte(0xb04fd23c, 3) == 0xb0;
    assert LittleByte(0x7d3f96d6, 0) == 0xd6 && LittleByte(0x7d3f96d6, 1) == 0x96 && LittleByte(0x7d3f96d6, 2) == 0x3f && LittleByte(0x7d3f96d6, 3) == 0x7d;
    assert LittleByte(0x727fe128, 0) == 0x28 && LittleByte(0x727fe128, 1) == 0xe1 && LittleByte(0x727fe128, 2) == 0x7f && LittleByte(0x727fe128, 3) == 0x72;
  }

  /** The digest of the message "abc" is 900150983cd24fb0d6963f7d28e17f72. */
  lemma AbcDigest()
    ensures Digest([0x61, 0x62, 0x63]) == [0x90, 0x01, 0x50, 0x98, 0x3c, 0xd2, 0x4f, 0xb0,
                         0xd6, 0x96, 0x3f, 0x7d, 0x28, 0xe1, 0x7f, 0x72]
  {
    hide Steps, Compress, Words, LittleWord, LittleBytes, Padding, Plus, BitCount, Blocks;
    var m: seq<bv8> := [0x61, 0x62, 0x63];
    var b := m + Padding(|m|) + LittleBytes(BitCount(|m|));
    AbcCount();
    ShortBlock(m, 0x00000018);
    assert b[..3][0] == b[0] && b[..3][1] == b[1] && b[..3][2] == b[2];
    ShortWords(b, 0x80636261, 0x18);
    OneBlock(b);
    AbcSteps61To64();
    CompressIs(b, AbcWords(), 0x310ade8f, 0xc08226b3, 0xe484b9d8, 0x624d8cb2);
    AbcResult();
  }

  lemma AbcCount()
    ensures BitCount(3) == [0x00000018, 0]
    ensures LittleWord(0x61, 0x62, 0x63, 0x80) == 0x80636261
  {
  }
}
