/**
 The MD5 compression function: section 3.4 of RFC 1321 as a table-driven step repeated 64
 times, and MD5Transform, which writes the 64 steps out with the four words changing roles.
 */
module Md5Transform {
  datatype Chain = Chain(a: bv32, b: bv32, c: bv32, d: bv32)

  function F(x: bv32, y: bv32, z: bv32): bv32 { (x & y) | (!x & z) }
  function G(x: bv32, y: bv32, z: bv32): bv32 { (x & z) | (y & !z) }
  function H(x: bv32, y: bv32, z: bv32): bv32 { x ^ y ^ z }
  function I(x: bv32, y: bv32, z: bv32): bv32 { y ^ (x | !z) }

  function RotateLeft(x: bv32, n: nat): bv32
    requires n < 32
  {
    (x << n) | (x >> (32 - n))
  }

  function Plus(x: bv32, y: bv32): bv32 {
    x + y
  }

  /** F takes its second word where the first has ones and its third elsewhere. */
  lemma FSelects(x: bv32, y: bv32, z: bv32)
    ensures F(x, y, z) & x == y & x && F(x, y, z) & !x == z & !x
  {
  }

  /** G takes its first word where the third has ones and its second elsewhere. */
  lemma GSelects(x: bv32, y: bv32, z: bv32)
    ensures G(x, y, z) & z == x & z && G(x, y, z) & !z == y & !z
  {
  }

  /** H gives the parity of the three. */
  lemma HIsParity(x: bv32, y: bv32, z: bv32)
    ensures H(x, y, z) ^ y ^ z == x
  {
  }

  /** I turns the second over where the third has zeros, and elsewhere where the first has ones. */
  lemma IFlips(x: bv32, y: bv32, z: bv32)
    ensures (I(x, y, z) ^ y) & z == x & z && (I(x, y, z) ^ y) & !z == !z
  {
  }

  /** The sixteen rotations of the steps. */
  lemma RotationsTurn(x: bv32)
    ensures RotateLeft(x, 4) == x.RotateLeft(4)
    ensures RotateLeft(x, 5) == x.RotateLeft(5)
    ensures RotateLeft(x, 6) == x.RotateLeft(6)
    ensures RotateLeft(x, 7) == x.RotateLeft(7)
    ensures RotateLeft(x, 9) == x.RotateLeft(9)
    ensures RotateLeft(x, 10) == x.RotateLeft(10)
    ensures RotateLeft(x, 11) == x.RotateLeft(11)
    ensures RotateLeft(x, 12) == x.RotateLeft(12)
    ensures RotateLeft(x, 14) == x.RotateLeft(14)
    ensures RotateLeft(x, 15) == x.RotateLeft(15)
    ensures RotateLeft(x, 16) == x.RotateLeft(16)
    ensures RotateLeft(x, 17) == x.RotateLeft(17)
    ensures RotateLeft(x, 20) == x.RotateLeft(20)
    ensures RotateLeft(x, 21) == x.RotateLeft(21)
    ensures RotateLeft(x, 22) == x.RotateLeft(22)
    ensures RotateLeft(x, 23) == x.RotateLeft(23)
  {
  }

  // ------------------------------------------------------------- section 3.4 of RFC 1321

  /** The auxiliary function of step i. */
  function Mixed(i: nat, b: bv32, c: bv32, d: bv32): bv32 {
    if i < 16 then F(b, c, d) else if i < 32 then G(b, c, d) else if i < 48 then H(b, c, d) else I(b, c, d)
  }

  /** The word of the block that step i takes. */
  function Place(i: nat): (k: nat)
    ensures k < 16
  {
    if i < 16 then i % 16 else if i < 32 then (1 + 5 * i) % 16 else if i < 48 then (5 + 3 * i) % 16 else 7 * i % 16
  }

  /** The four shift amounts of each round. */
  function Shift(i: nat): (s: nat)
    ensures 0 < s < 32
  {
    var r := i % 4;
    if i < 16 then 7 + 5 * r
    else if i < 32 then (if r == 0 then 5 else if r == 1 then 9 else if r == 2 then 14 else 20)
    else if i < 48 then (if r == 0 then 4 else if r == 1 then 11 else if r == 2 then 16 else 23)
    else (if r == 0 then 6 else if r == 1 then 10 else if r == 2 then 15 else 21)
  }

  function Pick(i: nat, p: bv32, q: bv32, r: bv32, s: bv32): bv32 {
    if i % 4 == 0 then p else if i % 4 == 1 then q else if i % 4 == 2 then r else s
  }

  /** The integer part of 4294967296 times the sine of i + 1 radians. */
  function Sine(i: nat): bv32 {
    if i < 4 then Pick(i, 0xd76aa478, 0xe8c7b756, 0x242070db, 0xc1bdceee)
    else if i < 8 then Pick(i, 0xf57c0faf, 0x4787c62a, 0xa8304613, 0xfd469501)
    else if i < 12 then Pick(i, 0x698098d8, 0x8b44f7af, 0xffff5bb1, 0x895cd7be)
    else if i < 16 then Pick(i, 0x6b901122, 0xfd987193, 0xa679438e, 0x49b40821)
    else if i < 20 then Pick(i, 0xf61e2562, 0xc040b340, 0x265e5a51, 0xe9b6c7aa)
    else if i < 24 then Pick(i, 0xd62f105d, 0x02441453, 0xd8a1e681, 0xe7d3fbc8)
    else if i < 28 then Pick(i, 0x21e1cde6, 0xc33707d6, 0xf4d50d87, 0x455a14ed)
    else if i < 32 then Pick(i, 0xa9e3e905, 0xfcefa3f8, 0x676f02d9, 0x8d2a4c8a)
    else if i < 36 then Pick(i, 0xfffa3942, 0x8771f681, 0x6d9d6122, 0xfde5380c)
    else if i < 40 then Pick(i, 0xa4beea44, 0x4bdecfa9, 0xf6bb4b60, 0xbebfbc70)
    else if i < 44 then Pick(i, 0x289b7ec6, 0xeaa127fa, 0xd4ef3085, 0x04881d05)
    else if i < 48 then Pick(i, 0xd9d4d039, 0xe6db99e5, 0x1fa27cf8, 0xc4ac5665)
    else if i < 52 then Pick(i, 0xf4292244, 0x432aff97, 0xab9423a7, 0xfc93a039)
    else if i < 56 then Pick(i, 0x655b59c3, 0x8f0ccc92, 0xffeff47d, 0x85845dd1)
    else if i < 60 then Pick(i, 0x6fa87e4f, 0xfe2ce6e0, 0xa3014314, 0x4e0811a1)
    else Pick(i, 0xf7537e82, 0xbd3af235, 0x2ad7d2bb, 0xeb86d391)
  }

  /** One step; the words move on by one place. */
  function Step(s: Chain, x: seq<bv32>, i: nat): Chain
    requires |x| == 16
  {
    Chain(s.d, Turned(s.a, s.b, Mixed(i, s.b, s.c, s.d), x[Place(i)], Shift(i), Sine(i)), s.b, s.c)
  }

  function Turned(a: bv32, b: bv32, f: bv32, x: bv32, s: nat, ac: bv32): bv32
    requires s < 32
  {
    Plus(RotateLeft(Plus(a, Plus(Plus(f, x), ac)), s), b)
  }

  function Steps(s: Chain, x: seq<bv32>, n: nat): Chain
    requires |x| == 16
  {
    if n == 0 then s else Step(Steps(s, x, n - 1), x, n - 1)
  }

  /** A word of four bytes, low-order byte first. */
  function LittleWord(b0: bv8, b1: bv8, b2: bv8, b3: bv8): bv32 {
    b0 as bv32 | (b1 as bv32 << 8) | (b2 as bv32 << 16) | (b3 as bv32 << 24)
  }

  function Words(block: seq<bv8>): (x: seq<bv32>)
    ensures |x| == |block| / 4
  {
    seq(|block| / 4, i requires 0 <= i < |block| / 4 =>
      LittleWord(block[4 * i], block[4 * i + 1], block[4 * i + 2], block[4 * i + 3]))
  }

  function Compress(s: Chain, block: seq<bv8>): Chain
    requires |block| == 64
  {
    var t := Steps(s, Words(block), 64);
    Chain(Plus(s.a, t.a), Plus(s.b, t.b), Plus(s.c, t.c), Plus(s.d, t.d))
  }

  // ------------------------------------------------------------- the code

  method Decode(input: array<bv8>, from: nat) returns (output: array<bv32>)
    requires from + 64 <= input.Length
    ensures fresh(output) && output[..] == Words(input[from..from + 64])
  {
    hide LittleWord;
    output := new bv32[16];
    var i, j := 0, 0;
    while j < 64
      invariant i <= 16 && j == 4 * i
      invariant forall k :: 0 <= k < i ==> output[k] == Words(input[from..from + 64])[k]
    {
      output[i] := LittleWord(input[from + j], input[from + j + 1], input[from + j + 2], input[from + j + 3]);
      i, j := i + 1, j + 4;
    }
  }

  function FF(a: bv32, b: bv32, c: bv32, d: bv32, x: bv32, s: nat, ac: bv32): bv32 requires s < 32 { Turned(a, b, F(b, c, d), x, s, ac) }
  function GG(a: bv32, b: bv32, c: bv32, d: bv32, x: bv32, s: nat, ac: bv32): bv32 requires s < 32 { Turned(a, b, G(b, c, d), x, s, ac) }
  function HH(a: bv32, b: bv32, c: bv32, d: bv32, x: bv32, s: nat, ac: bv32): bv32 requires s < 32 { Turned(a, b, H(b, c, d), x, s, ac) }
  function II(a: bv32, b: bv32, c: bv32, d: bv32, x: bv32, s: nat, ac: bv32): bv32 requires s < 32 { Turned(a, b, I(b, c, d), x, s, ac) }

  predicate Entry(i: nat, k: nat, s: nat, ac: bv32) {
    k == Place(i) && s == Shift(i) && ac == Sine(i)
  }

  /** Step i, with its table entries as the code has them. */
  lemma StepIs(start: Chain, x: seq<bv32>, i: nat, a: bv32, b: bv32, c: bv32, d: bv32, f: bv32, k: nat, s: nat, ac: bv32)
    requires |x| == 16 && Steps(start, x, i) == Chain(a, b, c, d)
    requires f == Mixed(i, b, c, d) && Entry(i, k, s, ac)
    ensures Steps(start, x, i + 1) == Chain(d, Turned(a, b, f, x[k], s, ac), b, c)
  {
    hide Turned, F, G, H, I, Sine, Shift, Place, Mixed;
  }

  lemma Table1To4()
    ensures Entry(0, 0, 7, 0xd76aa478)
    ensures Entry(1, 1, 12, 0xe8c7b756)
    ensures Entry(2, 2, 17, 0x242070db)
    ensures Entry(3, 3, 22, 0xc1bdceee)
  {
  }

  method Steps1To4(x: array<bv32>, s: Chain, ghost start: Chain) returns (t: Chain)
    requires x.Length == 16 && s == Steps(start, x[..], 0)
    ensures t == Steps(start, x[..], 4)
  {
    hide Turned, F, G, H, I, Steps, Entry, Sine, Shift, Place;
    Table1To4();
    ghost var xs := x[..];
    var a, b, c, d := s.a, s.b, s.c, s.d;
    StepIs(start, xs, 0, a, b, c, d, F(b, c, d), 0, 7, 0xd76aa478);
    a := FF(a, b, c, d, x[0], 7, 0xd76aa478);
    StepIs(start, xs, 1, d, a, b, c, F(a, b, c), 1, 12, 0xe8c7b756);
    d := FF(d, a, b, c, x[1], 12, 0xe8c7b756);
    StepIs(start, xs, 2, c, d, a, b, F(d, a, b), 2, 17, 0x242070db);
    c := FF(c, d, a, b, x[2], 17, 0x242070db);
    StepIs(start, xs, 3, b, c, d, a, F(c, d, a), 3, 22, 0xc1bdceee);
    b := FF(b, c, d, a, x[3], 22, 0xc1bdceee);
    t := Chain(a, b, c, d);
  }

  lemma Table5To8()
    ensures Entry(4, 4, 7, 0xf57c0faf)
    ensures Entry(5, 5, 12, 0x4787c62a)
    ensures Entry(6, 6, 17, 0xa8304613)
    ensures Entry(7, 7, 22, 0xfd469501)
  {
  }

  method Steps5To8(x: array<bv32>, s: Chain, ghost start: Chain) returns (t: Chain)
    requires x.Length == 16 && s == Steps(start, x[..], 4)
    ensures t == Steps(start, x[..], 8)
  {
    hide Turned, F, G, H, I, Steps, Entry, Sine, Shift, Place;
    Table5To8();
    ghost var xs := x[..];
    var a, b, c, d := s.a, s.b, s.c, s.d;
    StepIs(start, xs, 4, a, b, c, d, F(b, c, d), 4, 7, 0xf57c0faf);
    a := FF(a, b, c, d, x[4], 7, 0xf57c0faf);
    StepIs(start, xs, 5, d, a, b, c, F(a, b, c), 5, 12, 0x4787c62a);
    d := FF(d, a, b, c, x[5], 12, 0x4787c62a);
    StepIs(start, xs, 6, c, d, a, b, F(d, a, b), 6, 17, 0xa8304613);
    c := FF(c, d, a, b, x[6], 17, 0xa8304613);
    StepIs(start, xs, 7, b, c, d, a, F(c, d, a), 7, 22, 0xfd469501);
    b := FF(b, c, d, a, x[7], 22, 0xfd469501);
    t := Chain(a, b, c, d);
  }

  lemma Table9To12()
    ensures Entry(8, 8, 7, 0x698098d8)
    ensures Entry(9, 9, 12, 0x8b44f7af)
    ensures Entry(10, 10, 17, 0xffff5bb1)
    ensures Entry(11, 11, 22, 0x895cd7be)
  {
  }

  method Steps9To12(x: array<bv32>, s: Chain, ghost start: Chain) returns (t: Chain)
    requires x.Length == 16 && s == Steps(start, x[..], 8)
    ensures t == Steps(start, x[..], 12)
  {
    hide Turned, F, G, H, I, Steps, Entry, Sine, Shift, Place;
    Table9To12();
    ghost var xs := x[..];
    var a, b, c, d := s.a, s.b, s.c, s.d;
    StepIs(start, xs, 8, a, b, c, d, F(b, c, d), 8, 7, 0x698098d8);
    a := FF(a, b, c, d, x[8], 7, 0x698098d8);
    StepIs(start, xs, 9, d, a, b, c, F(a, b, c), 9, 12, 0x8b44f7af);
    d := FF(d, a, b, c, x[9], 12, 0x8b44f7af);
    StepIs(start, xs, 10, c, d, a, b, F(d, a, b), 10, 17, 0xffff5bb1);
    c := FF(c, d, a, b, x[10], 17, 0xffff5bb1);
    StepIs(start, xs, 11, b, c, d, a, F(c, d, a), 11, 22, 0x895cd7be);
    b := FF(b, c, d, a, x[11], 22, 0x895cd7be);
    t := Chain(a, b, c, d);
  }

  lemma Table13To16()
    ensures Entry(12, 12, 7, 0x6b901122)
    ensures Entry(13, 13, 12, 0xfd987193)
    ensures Entry(14, 14, 17, 0xa679438e)
    ensures Entry(15, 15, 22, 0x49b40821)
  {
  }

  method Steps13To16(x: array<bv32>, s: Chain, ghost start: Chain) returns (t: Chain)
    requires x.Length == 16 && s == Steps(start, x[..], 12)
    ensures t == Steps(start, x[..], 16)
  {
    hide Turned, F, G, H, I, Steps, Entry, Sine, Shift, Place;
    Table13To16();
    ghost var xs := x[..];
    var a, b, c, d := s.a, s.b, s.c, s.d;
    StepIs(start, xs, 12, a, b, c, d, F(b, c, d), 12, 7, 0x6b901122);
    a := FF(a, b, c, d, x[12], 7, 0x6b901122);
    StepIs(start, xs, 13, d, a, b, c, F(a, b, c), 13, 12, 0xfd987193);
    d := FF(d, a, b, c, x[13], 12, 0xfd987193);
    StepIs(start, xs, 14, c, d, a, b, F(d, a, b), 14, 17, 0xa679438e);
    c := FF(c, d, a, b, x[14], 17, 0xa679438e);
    StepIs(start, xs, 15, b, c, d, a, F(c, d, a), 15, 22, 0x49b40821);
    b := FF(b, c, d, a, x[15], 22, 0x49b40821);
    t := Chain(a, b, c, d);
  }

  lemma Table17To20()
    ensures Entry(16, 1, 5, 0xf61e2562)
    ensures Entry(17, 6, 9, 0xc040b340)
    ensures Entry(18, 11, 14, 0x265e5a51)
    ensures Entry(19, 0, 20, 0xe9b6c7aa)
  {
  }

  method Steps17To20(x: array<bv32>, s: Chain, ghost start: Chain) returns (t: Chain)
    requires x.Length == 16 && s == Steps(start, x[..], 16)
    ensures t == Steps(start, x[..], 20)
  {
    hide Turned, F, G, H, I, Steps, Entry, Sine, Shift, Place;
    Table17To20();
    ghost var xs := x[..];
    var a, b, c, d := s.a, s.b, s.c, s.d;
    StepIs(start, xs, 16, a, b, c, d, G(b, c, d), 1, 5, 0xf61e2562);
    a := GG(a, b, c, d, x[1], 5, 0xf61e2562);
    StepIs(start, xs, 17, d, a, b, c, G(a, b, c), 6, 9, 0xc040b340);
    d := GG(d, a, b, c, x[6], 9, 0xc040b340);
    StepIs(start, xs, 18, c, d, a, b, G(d, a, b), 11, 14, 0x265e5a51);
    c := GG(c, d, a, b, x[11], 14, 0x265e5a51);
    StepIs(start, xs, 19, b, c, d, a, G(c, d, a), 0, 20, 0xe9b6c7aa);
    b := GG(b, c, d, a, x[0], 20, 0xe9b6c7aa);
    t := Chain(a, b, c, d);
  }

  lemma Table21To24()
    ensures Entry(20, 5, 5, 0xd62f105d)
    ensures Entry(21, 10, 9, 0x02441453)
    ensures Entry(22, 15, 14, 0xd8a1e681)
    ensures Entry(23, 4, 20, 0xe7d3fbc8)
  {
  }

  method Steps21To24(x: array<bv32>, s: Chain, ghost start: Chain) returns (t: Chain)
    requires x.Length == 16 && s == Steps(start, x[..], 20)
    ensures t == Steps(start, x[..], 24)
  {
    hide Turned, F, G, H, I, Steps, Entry, Sine, Shift, Place;
    Table21To24();
    ghost var xs := x[..];
    var a, b, c, d := s.a, s.b, s.c, s.d;
    StepIs(start, xs, 20, a, b, c, d, G(b, c, d), 5, 5, 0xd62f105d);
    a := GG(a, b, c, d, x[5], 5, 0xd62f105d);
    StepIs(start, xs, 21, d, a, b, c, G(a, b, c), 10, 9, 0x02441453);
    d := GG(d, a, b, c, x[10], 9, 0x02441453);
    StepIs(start, xs, 22, c, d, a, b, G(d, a, b), 15, 14, 0xd8a1e681);
    c := GG(c, d, a, b, x[15], 14, 0xd8a1e681);
    StepIs(start, xs, 23, b, c, d, a, G(c, d, a), 4, 20, 0xe7d3fbc8);
    b := GG(b, c, d, a, x[4], 20, 0xe7d3fbc8);
    t := Chain(a, b, c, d);
  }

  lemma Table25To28()
    ensures Entry(24, 9, 5, 0x21e1cde6)
    ensures Entry(25, 14, 9, 0xc33707d6)
    ensures Entry(26, 3, 14, 0xf4d50d87)
    ensures Entry(27, 8, 20, 0x455a14ed)
  {
  }

  method Steps25To28(x: array<bv32>, s: Chain, ghost start: Chain) returns (t: Chain)
    requires x.Length == 16 && s == Steps(start, x[..], 24)
    ensures t == Steps(start, x[..], 28)
  {
    hide Turned, F, G, H, I, Steps, Entry, Sine, Shift, Place;
    Table25To28();
    ghost var xs := x[..];
    var a, b, c, d := s.a, s.b, s.c, s.d;
    StepIs(start, xs, 24, a, b, c, d, G(b, c, d), 9, 5, 0x21e1cde6);
    a := GG(a, b, c, d, x[9], 5, 0x21e1cde6);
    StepIs(start, xs, 25, d, a, b, c, G(a, b, c), 14, 9, 0xc33707d6);
    d := GG(d, a, b, c, x[14], 9, 0xc33707d6);
    StepIs(start, xs, 26, c, d, a, b, G(d, a, b), 3, 14, 0xf4d50d87);
    c := GG(c, d, a, b, x[3], 14, 0xf4d50d87);
    StepIs(start, xs, 27, b, c, d, a, G(c, d, a), 8, 20, 0x455a14ed);
    b := GG(b, c, d, a, x[8], 20, 0x455a14ed);
    t := Chain(a, b, c, d);
  }

  lemma Table29To32()
    ensures Entry(28, 13, 5, 0xa9e3e905)
    ensures Entry(29, 2, 9, 0xfcefa3f8)
    ensures Entry(30, 7, 14, 0x676f02d9)
    ensures Entry(31, 12, 20, 0x8d2a4c8a)
  {
  }

  method Steps29To32(x: array<bv32>, s: Chain, ghost start: Chain) returns (t: Chain)
    requires x.Length == 16 && s == Steps(start, x[..], 28)
    ensures t == Steps(start, x[..], 32)
  {
    hide Turned, F, G, H, I, Steps, Entry, Sine, Shift, Place;
    Table29To32();
    ghost var xs := x[..];
    var a, b, c, d := s.a, s.b, s.c, s.d;
    StepIs(start, xs, 28, a, b, c, d, G(b, c, d), 13, 5, 0xa9e3e905);
    a := GG(a, b, c, d, x[13], 5, 0xa9e3e905);
    StepIs(start, xs, 29, d, a, b, c, G(a, b, c), 2, 9, 0xfcefa3f8);
    d := GG(d, a, b, c, x[2], 9, 0xfcefa3f8);
    StepIs(start, xs, 30, c, d, a, b, G(d, a, b), 7, 14, 0x676f02d9);
    c := GG(c, d, a, b, x[7], 14, 0x676f02d9);
    StepIs(start, xs, 31, b, c, d, a, G(c, d, a), 12, 20, 0x8d2a4c8a);
    b := GG(b, c, d, a, x[12], 20, 0x8d2a4c8a);
    t := Chain(a, b, c, d);
  }

  lemma Table33To36()
    ensures Entry(32, 5, 4, 0xfffa3942)
    ensures Entry(33, 8, 11, 0x8771f681)
    ensures Entry(34, 11, 16, 0x6d9d6122)
    ensures Entry(35, 14, 23, 0xfde5380c)
  {
  }

  method Steps33To36(x: array<bv32>, s: Chain, ghost start: Chain) returns (t: Chain)
    requires x.Length == 16 && s == Steps(start, x[..], 32)
    ensures t == Steps(start, x[..], 36)
  {
    hide Turned, F, G, H, I, Steps, Entry, Sine, Shift, Place;
    Table33To36();
    ghost var xs := x[..];
    var a, b, c, d := s.a, s.b, s.c, s.d;
    StepIs(start, xs, 32, a, b, c, d, H(b, c, d), 5, 4, 0xfffa3942);
    a := HH(a, b, c, d, x[5], 4, 0xfffa3942);
    StepIs(start, xs, 33, d, a, b, c, H(a, b, c), 8, 11, 0x8771f681);
    d := HH(d, a, b, c, x[8], 11, 0x8771f681);
    StepIs(start, xs, 34, c, d, a, b, H(d, a, b), 11, 16, 0x6d9d6122);
    c := HH(c, d, a, b, x[11], 16, 0x6d9d6122);
    StepIs(start, xs, 35, b, c, d, a, H(c, d, a), 14, 23, 0xfde5380c);
    b := HH(b, c, d, a, x[14], 23, 0xfde5380c);
    t := Chain(a, b, c, d);
  }

  lemma Table37To40()
    ensures Entry(36, 1, 4, 0xa4beea44)
    ensures Entry(37, 4, 11, 0x4bdecfa9)
    ensures Entry(38, 7, 16, 0xf6bb4b60)
    ensures Entry(39, 10, 23, 0xbebfbc70)
  {
  }

  method Steps37To40(x: array<bv32>, s: Chain, ghost start: Chain) returns (t: Chain)
    requires x.Length == 16 && s == Steps(start, x[..], 36)
    ensures t == Steps(start, x[..], 40)
  {
    hide Turned, F, G, H, I, Steps, Entry, Sine, Shift, Place;
    Table37To40();
    ghost var xs := x[..];
    var a, b, c, d := s.a, s.b, s.c, s.d;
    StepIs(start, xs, 36, a, b, c, d, H(b, c, d), 1, 4, 0xa4beea44);
    a := HH(a, b, c, d, x[1], 4, 0xa4beea44);
    StepIs(start, xs, 37, d, a, b, c, H(a, b, c), 4, 11, 0x4bdecfa9);
    d := HH(d, a, b, c, x[4], 11, 0x4bdecfa9);
    StepIs(start, xs, 38, c, d, a, b, H(d, a, b), 7, 16, 0xf6bb4b60);
    c := HH(c, d, a, b, x[7], 16, 0xf6bb4b60);
    StepIs(start, xs, 39, b, c, d, a, H(c, d, a), 10, 23, 0xbebfbc70);
    b := HH(b, c, d, a, x[10], 23, 0xbebfbc70);
    t := Chain(a, b, c, d);
  }

  lemma Table41To44()
    ensures Entry(40, 13, 4, 0x289b7ec6)
    ensures Entry(41, 0, 11, 0xeaa127fa)
    ensures Entry(42, 3, 16, 0xd4ef3085)
    ensures Entry(43, 6, 23, 0x04881d05)
  {
  }

  method Steps41To44(x: array<bv32>, s: Chain, ghost start: Chain) returns (t: Chain)
    requires x.Length == 16 && s == Steps(start, x[..], 40)
    ensures t == Steps(start, x[..], 44)
  {
    hide Turned, F, G, H, I, Steps, Entry, Sine, Shift, Place;
    Table41To44();
    ghost var xs := x[..];
    var a, b, c, d := s.a, s.b, s.c, s.d;
    StepIs(start, xs, 40, a, b, c, d, H(b, c, d), 13, 4, 0x289b7ec6);
    a := HH(a, b, c, d, x[13], 4, 0x289b7ec6);
    StepIs(start, xs, 41, d, a, b, c, H(a, b, c), 0, 11, 0xeaa127fa);
    d := HH(d, a, b, c, x[0], 11, 0xeaa127fa);
    StepIs(start, xs, 42, c, d, a, b, H(d, a, b), 3, 16, 0xd4ef3085);
    c := HH(c, d, a, b, x[3], 16, 0xd4ef3085);
    StepIs(start, xs, 43, b, c, d, a, H(c, d, a), 6, 23, 0x04881d05);
    b := HH(b, c, d, a, x[6], 23, 0x04881d05);
    t := Chain(a, b, c, d);
  }

  lemma Table45To48()
    ensures Entry(44, 9, 4, 0xd9d4d039)
    ensures Entry(45, 12, 11, 0xe6db99e5)
    ensures Entry(46, 15, 16, 0x1fa27cf8)
    ensures Entry(47, 2, 23, 0xc4ac5665)
  {
  }

  method Steps45To48(x: array<bv32>, s: Chain, ghost start: Chain) returns (t: Chain)
    requires x.Length == 16 && s == Steps(start, x[..], 44)
    ensures t == Steps(start, x[..], 48)
  {
    hide Turned, F, G, H, I, Steps, Entry, Sine, Shift, Place;
    Table45To48();
    ghost var xs := x[..];
    var a, b, c, d := s.a, s.b, s.c, s.d;
    StepIs(start, xs, 44, a, b, c, d, H(b, c, d), 9, 4, 0xd9d4d039);
    a := HH(a, b, c, d, x[9], 4, 0xd9d4d039);
    StepIs(start, xs, 45, d, a, b, c, H(a, b, c), 12, 11, 0xe6db99e5);
    d := HH(d, a, b, c, x[12], 11, 0xe6db99e5);
    StepIs(start, xs, 46, c, d, a, b, H(d, a, b), 15, 16, 0x1fa27cf8);
    c := HH(c, d, a, b, x[15], 16, 0x1fa27cf8);
    StepIs(start, xs, 47, b, c, d, a, H(c, d, a), 2, 23, 0xc4ac5665);
    b := HH(b, c, d, a, x[2], 23, 0xc4ac5665);
    t := Chain(a, b, c, d);
  }

  lemma Table49To52()
    ensures Entry(48, 0, 6, 0xf4292244)
    ensures Entry(49, 7, 10, 0x432aff97)
    ensures Entry(50, 14, 15, 0xab9423a7)
    ensures Entry(51, 5, 21, 0xfc93a039)
  {
  }

  method Steps49To52(x: array<bv32>, s: Chain, ghost start: Chain) returns (t: Chain)
    requires x.Length == 16 && s == Steps(start, x[..], 48)
    ensures t == Steps(start, x[..], 52)
  {
    hide Turned, F, G, H, I, Steps, Entry, Sine, Shift, Place;
    Table49To52();
    ghost var xs := x[..];
    var a, b, c, d := s.a, s.b, s.c, s.d;
    StepIs(start, xs, 48, a, b, c, d, I(b, c, d), 0, 6, 0xf4292244);
    a := II(a, b, c, d, x[0], 6, 0xf4292244);
    StepIs(start, xs, 49, d, a, b, c, I(a, b, c), 7, 10, 0x432aff97);
    d := II(d, a, b, c, x[7], 10, 0x432aff97);
    StepIs(start, xs, 50, c, d, a, b, I(d, a, b), 14, 15, 0xab9423a7);
    c := II(c, d, a, b, x[14], 15, 0xab9423a7);
    StepIs(start, xs, 51, b, c, d, a, I(c, d, a), 5, 21, 0xfc93a039);
    b := II(b, c, d, a, x[5], 21, 0xfc93a039);
    t := Chain(a, b, c, d);
  }

  lemma Table53To56()
    ensures Entry(52, 12, 6, 0x655b59c3)
    ensures Entry(53, 3, 10, 0x8f0ccc92)
    ensures Entry(54, 10, 15, 0xffeff47d)
    ensures Entry(55, 1, 21, 0x85845dd1)
  {
  }

  method Steps53To56(x: array<bv32>, s: Chain, ghost start: Chain) returns (t: Chain)
    requires x.Length == 16 && s == Steps(start, x[..], 52)
    ensures t == Steps(start, x[..], 56)
  {
    hide Turned, F, G, H, I, Steps, Entry, Sine, Shift, Place;
    Table53To56();
    ghost var xs := x[..];
    var a, b, c, d := s.a, s.b, s.c, s.d;
    StepIs(start, xs, 52, a, b, c, d, I(b, c, d), 12, 6, 0x655b59c3);
    a := II(a, b, c, d, x[12], 6, 0x655b59c3);
    StepIs(start, xs, 53, d, a, b, c, I(a, b, c), 3, 10, 0x8f0ccc92);
    d := II(d, a, b, c, x[3], 10, 0x8f0ccc92);
    StepIs(start, xs, 54, c, d, a, b, I(d, a, b), 10, 15, 0xffeff47d);
    c := II(c, d, a, b, x[10], 15, 0xffeff47d);
    StepIs(start, xs, 55, b, c, d, a, I(c, d, a), 1, 21, 0x85845dd1);
    b := II(b, c, d, a, x[1], 21, 0x85845dd1);
    t := Chain(a, b, c, d);
  }

  lemma Table57To60()
    ensures Entry(56, 8, 6, 0x6fa87e4f)
    ensures Entry(57, 15, 10, 0xfe2ce6e0)
    ensures Entry(58, 6, 15, 0xa3014314)
    ensures Entry(59, 13, 21, 0x4e0811a1)
  {
  }

  method Steps57To60(x: array<bv32>, s: Chain, ghost start: Chain) returns (t: Chain)
    requires x.Length == 16 && s == Steps(start, x[..], 56)
    ensures t == Steps(start, x[..], 60)
  {
    hide Turned, F, G, H, I, Steps, Entry, Sine, Shift, Place;
    Table57To60();
    ghost var xs := x[..];
    var a, b, c, d := s.a, s.b, s.c, s.d;
    StepIs(start, xs, 56, a, b, c, d, I(b, c, d), 8, 6, 0x6fa87e4f);
    a := II(a, b, c, d, x[8], 6, 0x6fa87e4f);
    StepIs(start, xs, 57, d, a, b, c, I(a, b, c), 15, 10, 0xfe2ce6e0);
    d := II(d, a, b, c, x[15], 10, 0xfe2ce6e0);
    StepIs(start, xs, 58, c, d, a, b, I(d, a, b), 6, 15, 0xa3014314);
    c := II(c, d, a, b, x[6], 15, 0xa3014314);
    StepIs(start, xs, 59, b, c, d, a, I(c, d, a), 13, 21, 0x4e0811a1);
    b := II(b, c, d, a, x[13], 21, 0x4e0811a1);
    t := Chain(a, b, c, d);
  }

  lemma Table61To64()
    ensures Entry(60, 4, 6, 0xf7537e82)
    ensures Entry(61, 11, 10, 0xbd3af235)
    ensures Entry(62, 2, 15, 0x2ad7d2bb)
    ensures Entry(63, 9, 21, 0xeb86d391)
  {
  }

  method Steps61To64(x: array<bv32>, s: Chain, ghost start: Chain) returns (t: Chain)
    requires x.Length == 16 && s == Steps(start, x[..], 60)
    ensures t == Steps(start, x[..], 64)
  {
    hide Turned, F, G, H, I, Steps, Entry, Sine, Shift, Place;
    Table61To64();
    ghost var xs := x[..];
    var a, b, c, d := s.a, s.b, s.c, s.d;
    StepIs(start, xs, 60, a, b, c, d, I(b, c, d), 4, 6, 0xf7537e82);
    a := II(a, b, c, d, x[4], 6, 0xf7537e82);
    StepIs(start, xs, 61, d, a, b, c, I(a, b, c), 11, 10, 0xbd3af235);
    d := II(d, a, b, c, x[11], 10, 0xbd3af235);
    StepIs(start, xs, 62, c, d, a, b, I(d, a, b), 2, 15, 0x2ad7d2bb);
    c := II(c, d, a, b, x[2], 15, 0x2ad7d2bb);
    StepIs(start, xs, 63, b, c, d, a, I(c, d, a), 9, 21, 0xeb86d391);
    b := II(b, c, d, a, x[9], 21, 0xeb86d391);
    t := Chain(a, b, c, d);
  }

  /** MD5Transform on the block that starts at from. */
  method Transform(state: array<bv32>, block: array<bv8>, from: nat)
    requires state.Length == 4 && from + 64 <= block.Length
    modifies state
    ensures ChainOf(state[..]) == Compress(old(ChainOf(state[..])), block[from..from + 64])
  {
    hide Steps, Words;
    ghost var s := ChainOf(state[..]);
    ghost var text := block[from..from + 64];
    var x := Decode(block, from);
    StepsNone(s, x[..]);
    var t := Steps1To4(x, Chain(state[0], state[1], state[2], state[3]), s);
    t := Steps5To8(x, t, s);
    t := Steps9To12(x, t, s);
    t := Steps13To16(x, t, s);
    t := Steps17To20(x, t, s);
    t := Steps21To24(x, t, s);
    t := Steps25To28(x, t, s);
    t := Steps29To32(x, t, s);
    t := Steps33To36(x, t, s);
    t := Steps37To40(x, t, s);
    t := Steps41To44(x, t, s);
    t := Steps45To48(x, t, s);
    t := Steps49To52(x, t, s);
    t := Steps53To56(x, t, s);
    t := Steps57To60(x, t, s);
    t := Steps61To64(x, t, s);
    state[0] := Plus(state[0], t.a);
    state[1] := Plus(state[1], t.b);
    state[2] := Plus(state[2], t.c);
    state[3] := Plus(state[3], t.d);
  }

  lemma StepsNone(s: Chain, x: seq<bv32>)
    requires |x| == 16
    ensures Steps(s, x, 0) == s
  {
  }

  function ChainOf(w: seq<bv32>): Chain
    requires |w| == 4
  {
    Chain(w[0], w[1], w[2], w[3])
  }
}
