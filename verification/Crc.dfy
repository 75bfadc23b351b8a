/**
 The three checksum routines of the firmware: the interleaved CRC-8 of crc.c, the
 xor-first CRC-8 of joylink_smnt.c and the shift-and-xor CRC-16 of crc.c.
 Each is proved equal to a shift register that takes one message bit at a time,
 and the registers are proved to notice every error burst no longer than themselves.
 */
module Crc {

  // ------------------------------------------------------------ bit streams

  /** The bits of a byte in the order the reflected CRC-8 register takes them. */
  function BitsLsbFirst(b: bv8): (bits: seq<bool>)
    ensures |bits| == 8
  {
    [b & 0x01 != 0, b & 0x02 != 0, b & 0x04 != 0, b & 0x08 != 0,
     b & 0x10 != 0, b & 0x20 != 0, b & 0x40 != 0, b & 0x80 != 0]
  }

  /** The bits of a byte in the order the CRC-16 register takes them. */
  function BitsMsbFirst(b: bv8): (bits: seq<bool>)
    ensures |bits| == 8
  {
    [b & 0x80 != 0, b & 0x40 != 0, b & 0x20 != 0, b & 0x10 != 0,
     b & 0x08 != 0, b & 0x04 != 0, b & 0x02 != 0, b & 0x01 != 0]
  }

  function StreamLsbFirst(s: seq<bv8>): (bits: seq<bool>)
    ensures |bits| == 8 * |s|
  {
    if s == [] then [] else StreamLsbFirst(s[..|s| - 1]) + BitsLsbFirst(s[|s| - 1])
  }

  function StreamMsbFirst(s: seq<bv8>): (bits: seq<bool>)
    ensures |bits| == 8 * |s|
  {
    if s == [] then [] else StreamMsbFirst(s[..|s| - 1]) + BitsMsbFirst(s[|s| - 1])
  }

  // ------------------------------------------------------------------ CRC-8

  /** One clock of the reflected register with polynomial 0x31 (mask 0x8C). */
  function Clock8(crc: bv8, bit: bool): bv8 {
    if (crc & 1 != 0) != bit then (crc >> 1) ^ 0x8C else crc >> 1
  }

  function Register8(crc: bv8, bits: seq<bool>): bv8 {
    if bits == [] then crc else Clock8(Register8(crc, bits[..|bits| - 1]), bits[|bits| - 1])
  }

  /** The checksum both CRC-8 routines are meant to compute. */
  function Crc8Spec(s: seq<bv8>): bv8 {
    Register8(0, StreamLsbFirst(s))
  }

  lemma {:induction false} Register8Append(crc: bv8, u: seq<bool>, v: seq<bool>)
    ensures Register8(crc, u + v) == Register8(Register8(crc, u), v)
  {
    if v == [] {
      assert u + v == u;
    } else {
      assert (u + v)[..|u + v| - 1] == u + v[..|v| - 1];
      Register8Append(crc, u, v[..|v| - 1]);
    }
  }

  lemma Register8Snoc(crc: bv8, u: seq<bool>, bit: bool)
    ensures Register8(crc, u + [bit]) == Clock8(Register8(crc, u), bit)
  {
    assert (u + [bit])[..|u|] == u;
  }

  /** crc.c clocks the register with two conditional exclusive-ors. */
  lemma TwoXorsAreOneClock(crc: bv8, bit: bool)
    ensures var half := if crc & 1 != 0 then (crc / 2) ^ 0x8C else crc / 2;
            (if bit then half ^ 0x8C else half) == Clock8(crc, bit)
  {
    assert crc / 2 == crc >> 1;
  }

  /** The walking mask of crc.c: 1, 2, 4, ... 128, then 0 by wrap-around. */
  function Mask(k: nat): bv8
    requires k <= 8
  {
    if k == 0 then 0x01 else if k == 1 then 0x02 else if k == 2 then 0x04 else if k == 3 then 0x08
    else if k == 4 then 0x10 else if k == 5 then 0x20 else if k == 6 then 0x40 else if k == 7 then 0x80 else 0
  }

  lemma MaskDoubles(k: nat)
    requires k < 8
    ensures Mask(k) != 0 && Mask(k) * 2 == Mask(k + 1)
  {
  }

  lemma MaskStart()
    ensures Mask(0) == 1 && Mask(8) == 0
  {
  }

  lemma MaskSelects(k: nat, b: bv8)
    requires k < 8
    ensures (b & Mask(k) != 0) == BitsLsbFirst(b)[k]
  {
  }

  /** One turn of the inner loop of crc.c. */
  lemma ClockAtMask(start: bv8, b: bv8, k: nat)
    requires k < 8
    ensures Register8(start, BitsLsbFirst(b)[..k + 1]) ==
            Clock8(Register8(start, BitsLsbFirst(b)[..k]), b & Mask(k) != 0)
  {
    var bits := BitsLsbFirst(b);
    MaskSelects(k, b);
    Register8Snoc(start, bits[..k], bits[k]);
    assert bits[..k + 1] == bits[..k] + [bits[k]];
  }

  /** The inner loop of crc8: the mask i walks over the bits of the byte until it overflows to 0. */
  method FeedByte(start: bv8, b: bv8) returns (checksum: bv8)
    ensures checksum == Register8(start, BitsLsbFirst(b))
  {
    checksum := start;
    var i: bv8 := 1;
    ghost var k := 0;
    hide Clock8, Mask, BitsLsbFirst;
    assert i == Mask(0) by { MaskStart(); }
    while i != 0
      invariant k <= 8 && i == Mask(k)
      invariant checksum == Register8(start, BitsLsbFirst(b)[..k])
      decreases 8 - k
    {
      if k == 8 { MaskStart(); }
      MaskDoubles(k);
      ClockAtMask(start, b, k);
      TwoXorsAreOneClock(checksum, b & i != 0);
      if checksum & 1 != 0 {
        checksum := checksum / 2;
        checksum := checksum ^ 0x8C;
      } else {
        checksum := checksum / 2;
      }
      if b & i != 0 {
        checksum := checksum ^ 0x8C;
      }
      i := i * 2;
      k := k + 1;
    }
    if k < 8 { MaskDoubles(k); }
    assert BitsLsbFirst(b)[..8] == BitsLsbFirst(b);
  }

  method Crc8(a: array<bv8>, n: nat) returns (checksum: bv8)
    requires n <= a.Length && n < 256
    ensures checksum == Crc8Spec(a[..n])
  {
    checksum := 0;
    for j := 0 to n
      invariant checksum == Crc8Spec(a[..j])
    {
      Crc8SpecSnoc(a[..j], a[j]);
      assert a[..j + 1] == a[..j] + [a[j]];
      checksum := FeedByte(checksum, a[j]);
    }
  }

  lemma Crc8SpecSnoc(s: seq<bv8>, b: bv8)
    ensures Crc8Spec(s + [b]) == Register8(Crc8Spec(s), BitsLsbFirst(b))
  {
    assert (s + [b])[..|s|] == s;
    Register8Append(0, StreamLsbFirst(s), BitsLsbFirst(b));
  }

  /** One shift of joylink_smnt_crc. */
  function Shift8(crc: bv8): bv8 {
    if crc & 1 != 0 then (crc >> 1) ^ 0x8C else crc >> 1
  }

  predicate Low(b: bv8) { b & 1 != 0 }

  function Half(b: bv8): bv8 { b >> 1 }

  /** What is left of a byte after k shifts. */
  function Left(b: bv8, k: nat): bv8
    requires k <= 8
  {
    if k == 0 then b else if k == 1 then b >> 1 else if k == 2 then b >> 2 else if k == 3 then b >> 3
    else if k == 4 then b >> 4 else if k == 5 then b >> 5 else if k == 6 then b >> 6 else if k == 7 then b >> 7 else 0
  }

  /** The register of joylink_smnt_crc holds the clocked register and what is left of the byte. */
  function Mixed(register: bv8, left: bv8): bv8 {
    register ^ left
  }

  lemma MixedEnds(register: bv8, b: bv8)
    ensures Mixed(register, Left(b, 0)) == register ^ b && Mixed(register, Left(b, 8)) == register
  {
  }

  lemma LeftNext(b: bv8, k: nat)
    requires k < 8
    ensures Low(Left(b, k)) == BitsLsbFirst(b)[k] && Half(Left(b, k)) == Left(b, k + 1)
  {
  }

  /** A byte taken at once is shifted down beside the register, and each shift uses one bit of it. */
  lemma ShiftIsClock(crc: bv8, b: bv8)
    ensures Shift8(Mixed(crc, b)) == Mixed(Clock8(crc, Low(b)), Half(b))
  {
  }

  /** One turn of the inner loop of joylink_smnt_crc. */
  lemma ShiftAtBit(start: bv8, b: bv8, k: nat)
    requires k < 8
    ensures Shift8(Mixed(Register8(start, BitsLsbFirst(b)[..k]), Left(b, k))) ==
            Mixed(Register8(start, BitsLsbFirst(b)[..k + 1]), Left(b, k + 1))
  {
    hide Shift8, Clock8, BitsLsbFirst, Left, Mixed, Low, Half;
    var bits := BitsLsbFirst(b);
    LeftNext(b, k);
    ShiftIsClock(Register8(start, bits[..k]), Left(b, k));
    Register8Snoc(start, bits[..k], bits[k]);
    assert bits[..k + 1] == bits[..k] + [bits[k]];
  }

  /** Taking the whole byte first and shifting eight times is the same as feeding its bits one by one. */
  method ShiftByte(start: bv8, b: bv8) returns (crc: bv8)
    ensures crc == Register8(start, BitsLsbFirst(b))
  {
    hide Clock8, BitsLsbFirst, Left, Mixed;
    crc := start ^ b;
    MixedEnds(start, b);
    for i := 0 to 8
      invariant crc == Mixed(Register8(start, BitsLsbFirst(b)[..i]), Left(b, i))
    {
      ShiftAtBit(start, b, i);
      if crc & 0x01 != 0 {
        crc := (crc >> 1) ^ 0x8C;
      } else {
        crc := crc >> 1;
      }
    }
    assert BitsLsbFirst(b)[..8] == BitsLsbFirst(b);
    MixedEnds(Register8(start, BitsLsbFirst(b)), b);
  }

  method JoylinkCrc(a: array<bv8>, from: nat, len: nat) returns (crc: bv8)
    requires from + len <= a.Length && len < 256
    ensures crc == Crc8Spec(a[from..from + len])
  {
    crc := 0;
    for j := 0 to len
      invariant crc == Crc8Spec(a[from..from + j])
    {
      Crc8SpecSnoc(a[from..from + j], a[from + j]);
      assert a[from..from + j + 1] == a[from..from + j] + [a[from + j]];
      crc := ShiftByte(crc, a[from + j]);
    }
  }

  // -------------------------------------------------- what CRC-8 can detect

  lemma Clock8Injective(c: bv8, d: bv8, bit: bool)
    requires Clock8(c, bit) == Clock8(d, bit)
    ensures c == d
  {
  }

  lemma {:induction false} Register8Injective(c: bv8, d: bv8, bits: seq<bool>)
    requires Register8(c, bits) == Register8(d, bits)
    ensures c == d
  {
    if bits != [] {
      var front := bits[..|bits| - 1];
      Clock8Injective(Register8(c, front), Register8(d, front), bits[|bits| - 1]);
      Register8Injective(c, d, front);
    }
  }

  /** The k most significant bits. */
  function Top8(k: nat): bv8
    requires k <= 8
  {
    if k == 0 then 0 else if k == 1 then 0x80 else if k == 2 then 0xC0 else if k == 3 then 0xE0
    else if k == 4 then 0xF0 else if k == 5 then 0xF8 else if k == 6 then 0xFC else if k == 7 then 0xFE else 0xFF
  }

  /** The top bit of a clocked register shows the feedback, the others show the old register. */
  lemma Clock8Back(x: bv8, p: bool, y: bv8, q: bool, m: bv8)
    requires m & 0x80 != 0
    requires Clock8(x, p) & m == Clock8(y, q) & m
    ensures x & (m << 1) == y & (m << 1)
    ensures x == y ==> p == q
  {
  }

  predicate AgreeOnTop8(x: bv8, y: bv8, k: nat)
    requires k <= 8
  {
    x & Top8(k) == y & Top8(k)
  }

  lemma Top8Back(x: bv8, p: bool, y: bv8, q: bool, n: nat)
    requires n < 8
    requires AgreeOnTop8(Clock8(x, p), Clock8(y, q), n + 1)
    ensures AgreeOnTop8(x, y, n)
    ensures x == y ==> p == q
  {
    assert Top8(n + 1) << 1 == Top8(n) && Top8(n + 1) & 0x80 != 0;
    Clock8Back(x, p, y, q, Top8(n + 1));
  }

  lemma Window8Step(c: bv8, v: seq<bool>, w: seq<bool>, p: bool, q: bool)
    requires |v| == |w| < 8
    requires AgreeOnTop8(Register8(c, v + [p]), Register8(c, w + [q]), |v| + 1)
    ensures AgreeOnTop8(Register8(c, v), Register8(c, w), |v|)
    ensures Register8(c, v) == Register8(c, w) ==> p == q
  {
    hide AgreeOnTop8, Clock8, Register8;
    Register8Snoc(c, v, p);
    Register8Snoc(c, w, q);
    Top8Back(Register8(c, v), p, Register8(c, w), q, |v|);
  }

  /** Up to eight bits fed from the same state are visible in as many top bits of the register. */
  lemma {:induction false} Window8Injective(c: bv8, v: seq<bool>, w: seq<bool>)
    requires |v| == |w| <= 8
    requires AgreeOnTop8(Register8(c, v), Register8(c, w), |v|)
    ensures v == w
  {
    hide AgreeOnTop8, Register8;
    if v != [] {
      var n := |v| - 1;
      assert v == v[..n] + [v[n]] && w == w[..n] + [w[n]];
      Window8Step(c, v[..n], w[..n], v[n], w[n]);
      Window8Injective(c, v[..n], w[..n]);
    }
  }

  /** Every change confined to eight consecutive message bits changes the register. */
  lemma Burst8Detected(c: bv8, before: seq<bool>, v: seq<bool>, w: seq<bool>, after: seq<bool>)
    requires |v| == |w| <= 8 && v != w
    ensures Register8(c, before + v + after) != Register8(c, before + w + after)
  {
    Register8Append(c, before + v, after);
    Register8Append(c, before + w, after);
    Register8Append(c, before, v);
    Register8Append(c, before, w);
    if Register8(c, before + v + after) == Register8(c, before + w + after) {
      Register8Injective(Register8(c, before + v), Register8(c, before + w), after);
      Window8Injective(Register8(c, before), v, w);
    }
  }

  lemma {:induction false} StreamLsbAppend(s: seq<bv8>, t: seq<bv8>)
    ensures StreamLsbFirst(s + t) == StreamLsbFirst(s) + StreamLsbFirst(t)
  {
    if t == [] {
      assert s + t == s;
    } else {
      assert (s + t)[..|s + t| - 1] == s + t[..|t| - 1];
      StreamLsbAppend(s, t[..|t| - 1]);
    }
  }

  lemma BitsLsbInjective(b: bv8, d: bv8)
    requires BitsLsbFirst(b) == BitsLsbFirst(d)
    ensures b == d
  {
    var u, v := BitsLsbFirst(b), BitsLsbFirst(d);
    assert u[0] == v[0] && u[1] == v[1] && u[2] == v[2] && u[3] == v[3];
    assert u[4] == v[4] && u[5] == v[5] && u[6] == v[6] && u[7] == v[7];
  }

  /** A message with exactly one byte changed never keeps its checksum. */
  lemma SingleByteErrorDetected(s: seq<bv8>, k: nat, b: bv8)
    requires k < |s| && s[k] != b
    ensures Crc8Spec(s[k := b]) != Crc8Spec(s)
  {
    var front, back := s[..k], s[k + 1..];
    assert s == front + [s[k]] + back;
    assert s[k := b] == front + [b] + back;
    forall x: bv8
      ensures Crc8Spec(front + [x] + back) == Register8(0, StreamLsbFirst(front) + BitsLsbFirst(x) + StreamLsbFirst(back))
    {
      StreamLsbAppend(front + [x], back);
      StreamLsbAppend(front, [x]);
      assert [x][..0] == [];
      assert StreamLsbFirst([x]) == BitsLsbFirst(x);
    }
    if BitsLsbFirst(s[k]) == BitsLsbFirst(b) { BitsLsbInjective(s[k], b); }
    Burst8Detected(0, StreamLsbFirst(front), BitsLsbFirst(s[k]), BitsLsbFirst(b), StreamLsbFirst(back));
  }

  // ----------------------------------------------------------------- CRC-16

  // The word operations are named so that proofs about several clocks can treat them as given.

  function Xor16(x: bv16, y: bv16): bv16 { x ^ y }
  function Up(x: bv16): bv16 { x << 1 }
  predicate Top(x: bv16) { x & 0x8000 != 0 }

  /** One clock of the MSB-first register with polynomial 0x1021. */
  function Clock16(crc: bv16, bit: bool): bv16 {
    if Top(crc) != bit then Xor16(Up(crc), 0x1021) else Up(crc)
  }

  function Register16(crc: bv16, bits: seq<bool>): bv16 {
    if bits == [] then crc else Clock16(Register16(crc, bits[..|bits| - 1]), bits[|bits| - 1])
  }

  function Crc16Spec(s: seq<bv8>): bv16 {
    Register16(0xFFFF, StreamMsbFirst(s))
  }

  lemma {:induction false} Register16Append(crc: bv16, u: seq<bool>, v: seq<bool>)
    ensures Register16(crc, u + v) == Register16(Register16(crc, u), v)
  {
    if v == [] {
      assert u + v == u;
    } else {
      assert (u + v)[..|u + v| - 1] == u + v[..|v| - 1];
      Register16Append(crc, u, v[..|v| - 1]);
    }
  }

  function Clock16Eight(crc: bv16, b0: bool, b1: bool, b2: bool, b3: bool, b4: bool, b5: bool, b6: bool, b7: bool): bv16 {
    Clock16(Clock16(Clock16(Clock16(Clock16(Clock16(Clock16(Clock16(crc, b0), b1), b2), b3), b4), b5), b6), b7)
  }

  lemma Register16Eight(crc: bv16, w: seq<bool>)
    requires |w| == 8
    ensures Register16(crc, w) == Clock16Eight(crc, w[0], w[1], w[2], w[3], w[4], w[5], w[6], w[7])
  {
    hide Clock16;
    assert w[..2][..1] == w[..1];
    assert w[..3][..2] == w[..2];
    assert w[..4][..3] == w[..3];
    assert w[..5][..4] == w[..4];
    assert w[..6][..5] == w[..5];
    assert w[..7][..6] == w[..6];
    assert w[..8] == w;
    assert Register16(crc, w[..1]) == Clock16(crc, w[0]);
    assert Register16(crc, w[..2]) == Clock16(Register16(crc, w[..1]), w[1]);
    assert Register16(crc, w[..3]) == Clock16(Register16(crc, w[..2]), w[2]);
    assert Register16(crc, w[..4]) == Clock16(Register16(crc, w[..3]), w[3]);
    assert Register16(crc, w[..5]) == Clock16(Register16(crc, w[..4]), w[4]);
    assert Register16(crc, w[..6]) == Clock16(Register16(crc, w[..5]), w[5]);
    assert Register16(crc, w[..7]) == Clock16(Register16(crc, w[..6]), w[6]);
  }

  lemma XorShift(x: bv16, y: bv16)
    ensures Up(Xor16(x, y)) == Xor16(Up(x), Up(y))
  {
  }

  lemma XorSwap(x: bv16, y: bv16, z: bv16)
    ensures Xor16(Xor16(x, y), z) == Xor16(Xor16(x, z), y)
  {
  }

  lemma XorTop(x: bv16, y: bv16)
    ensures Top(Xor16(x, y)) == (Top(x) != Top(y))
  {
  }

  /** A bit fed to the register may as well be added to its top beforehand. */
  lemma BitEntersAtTop(x: bv16, y: bv16)
    ensures Clock16(Xor16(x, y), false) == Xor16(Clock16(x, Top(y)), Up(y))
  {
    hide Xor16, Up, Top;
    XorTop(x, y);
    XorShift(x, y);
    XorSwap(Up(x), Up(y), 0x1021);
  }

  function Up2(x: bv16): bv16 { Up(Up(x)) }
  function Up4(x: bv16): bv16 { Up2(Up2(x)) }

  function ZeroClocks8(x: bv16): bv16 {
    Clock16Eight(x, false, false, false, false, false, false, false, false)
  }

  /** The top byte of y, fed bit by bit. */
  function FeedTopByte(x: bv16, y: bv16): bv16 {
    Clock16Eight(x, Top(y), Top(Up(y)), Top(Up2(y)), Top(Up(Up2(y))),
                 Top(Up4(y)), Top(Up(Up4(y))), Top(Up2(Up4(y))), Top(Up(Up2(Up4(y)))))
  }

  lemma ByteEntersAtTop(x: bv16, y: bv16)
    ensures ZeroClocks8(Xor16(x, y)) == Xor16(FeedTopByte(x, y), Up4(Up4(y)))
  {
    hide Clock16, Xor16, Up, Top;
    var y1 := Up(y); var y2 := Up(y1); var y3 := Up(y2); var y4 := Up(y3);
    var y5 := Up(y4); var y6 := Up(y5); var y7 := Up(y6);
    var x1 := Clock16(x, Top(y)); var x2 := Clock16(x1, Top(y1)); var x3 := Clock16(x2, Top(y2));
    var x4 := Clock16(x3, Top(y3)); var x5 := Clock16(x4, Top(y4)); var x6 := Clock16(x5, Top(y5));
    var x7 := Clock16(x6, Top(y6));
    BitEntersAtTop(x, y); BitEntersAtTop(x1, y1); BitEntersAtTop(x2, y2); BitEntersAtTop(x3, y3);
    BitEntersAtTop(x4, y4); BitEntersAtTop(x5, y5); BitEntersAtTop(x6, y6); BitEntersAtTop(x7, y7);
  }

  lemma TopsOfMessageByte(b: bv8)
    ensures var y := (b as bv16) << 8;
            && Up4(Up4(y)) == 0
            && Top(y) == (b & 0x80 != 0) && Top(Up(y)) == (b & 0x40 != 0)
            && Top(Up2(y)) == (b & 0x20 != 0) && Top(Up(Up2(y))) == (b & 0x10 != 0)
            && Top(Up4(y)) == (b & 0x08 != 0) && Top(Up(Up4(y))) == (b & 0x04 != 0)
            && Top(Up2(Up4(y))) == (b & 0x02 != 0) && Top(Up(Up2(Up4(y)))) == (b & 0x01 != 0)
  {
  }

  lemma TopsOfLowByte(y: bv16)
    requires y < 256
    ensures Up4(Up4(y)) == y << 8
    ensures !Top(y) && !Top(Up(y)) && !Top(Up2(y)) && !Top(Up(Up2(y)))
    ensures !Top(Up4(y)) && !Top(Up(Up4(y))) && !Top(Up2(Up4(y))) && !Top(Up(Up2(Up4(y))))
  {
  }

  // The five statements of one iteration of CRC16.
  function SwapBytes(c: bv16): bv16 { (c >> 8) | (c << 8) }
  function Down4(c: bv16): bv16 { (c & 0xFF) >> 4 }
  function Up12(c: bv16): bv16 { c << 12 }
  function Up5(c: bv16): bv16 { (c & 0xFF) << 5 }
  function Mix4(c: bv16): bv16 { Xor16(c, Down4(c)) }
  function Mix12(c: bv16): bv16 { Xor16(c, Up12(c)) }
  function Mix5(c: bv16): bv16 { Xor16(c, Up5(c)) }

  function Fold16(crc: bv16, b: bv16): bv16 {
    Mix5(Mix12(Mix4(Xor16(SwapBytes(crc), b))))
  }

  lemma EightClocksOfOneByte(t: bv16)
    requires t < 256
    ensures ZeroClocks8(t << 8) == Mix5(Mix12(Mix4(t)))
  {
  }

  predicate LowClear(h: bv16) { h & 0xFF == 0 }

  lemma HighByteUnseen(t: bv16, h: bv16)
    requires LowClear(h)
    ensures Down4(Xor16(t, h)) == Down4(t) && Up12(Xor16(t, h)) == Up12(t) && Up5(Xor16(t, h)) == Up5(t)
  {
  }

  lemma MixesKeepHighByte(t: bv16, h: bv16)
    requires LowClear(h)
    ensures Mix4(Xor16(t, h)) == Xor16(Mix4(t), h)
    ensures Mix12(Xor16(t, h)) == Xor16(Mix12(t), h)
    ensures Mix5(Xor16(t, h)) == Xor16(Mix5(t), h)
  {
    hide Xor16, Down4, Up12, Up5, LowClear;
    HighByteUnseen(t, h);
    XorSwap(t, h, Down4(t));
    XorSwap(t, h, Up12(t));
    XorSwap(t, h, Up5(t));
  }

  function HighXor(crc: bv16, b: bv16): bv16 { (crc >> 8) ^ b }

  lemma SwapSplits(crc: bv16, b: bv16)
    requires b < 256
    ensures Xor16(SwapBytes(crc), b) == Xor16(HighXor(crc, b), crc << 8)
    ensures HighXor(crc, b) < 256 && LowClear(crc << 8)
  {
  }

  function HighPart(crc: bv16): bv16 { (crc >> 8) << 8 }

  lemma HighAndLow(crc: bv16)
    ensures crc == Xor16(HighPart(crc), crc & 0xFF)
  {
  }

  lemma HighXorUp(crc: bv16, b: bv16)
    ensures Xor16(HighPart(crc), b << 8) == HighXor(crc, b) << 8
  {
  }

  lemma RegisterSplits(crc: bv16, b: bv16)
    ensures Xor16(crc, b << 8) == Xor16(HighXor(crc, b) << 8, crc & 0xFF)
  {
    hide Xor16, HighPart, HighXor;
    HighAndLow(crc);
    XorSwap(HighPart(crc), crc & 0xFF, b << 8);
    HighXorUp(crc, b);
  }

  lemma LowByteUp(crc: bv16)
    ensures (crc & 0xFF) << 8 == crc << 8 && crc & 0xFF < 256
  {
  }

  lemma FoldSide(crc: bv16, b: bv16)
    requires b < 256
    ensures Fold16(crc, b) == Xor16(Mix5(Mix12(Mix4(HighXor(crc, b)))), crc << 8)
  {
    hide Mix4, Mix12, Mix5, Xor16, SwapBytes, HighXor, LowClear;
    var t, h := HighXor(crc, b), crc << 8;
    SwapSplits(crc, b);
    MixesKeepHighByte(t, h);
    MixesKeepHighByte(Mix4(t), h);
    MixesKeepHighByte(Mix12(Mix4(t)), h);
  }

  lemma ClockSide(crc: bv16, b: bv16)
    requires b < 256
    ensures ZeroClocks8(Xor16(crc, b << 8)) == Xor16(Mix5(Mix12(Mix4(HighXor(crc, b)))), crc << 8)
  {
    hide Mix4, Mix12, Mix5, Xor16, SwapBytes, HighXor, LowClear, Clock16, Top, Up4, Up2, Up;
    var t := HighXor(crc, b);
    SwapSplits(crc, b);
    RegisterSplits(crc, b);
    LowByteUp(crc);
    ByteEntersAtTop(t << 8, crc & 0xFF);
    TopsOfLowByte(crc & 0xFF);
    EightClocksOfOneByte(t);
  }

  lemma XorZero(x: bv16)
    ensures Xor16(x, 0) == x
  {
  }

  /** One iteration of CRC16 is eight clocks of the register. */
  lemma Fold16IsEightClocks(crc: bv16, b: bv8)
    ensures Fold16(crc, b as bv16) == Register16(crc, BitsMsbFirst(b))
  {
    hide Mix4, Mix12, Mix5, Xor16, SwapBytes, HighXor, LowClear, Clock16, Top, Up4, Up2, Up, Fold16, Clock16Eight;
    FoldSide(crc, b as bv16);
    ClockSide(crc, b as bv16);
    ByteEntersAtTop(crc, (b as bv16) << 8);
    TopsOfMessageByte(b);
    Register16Eight(crc, BitsMsbFirst(b));
    XorZero(Register16(crc, BitsMsbFirst(b)));
  }

  lemma Crc16SpecSnoc(s: seq<bv8>, b: bv8)
    ensures Crc16Spec(s + [b]) == Fold16(Crc16Spec(s), b as bv16)
  {
    hide Clock16, Fold16;
    assert (s + [b])[..|s|] == s;
    Register16Append(0xFFFF, StreamMsbFirst(s), BitsMsbFirst(b));
    Fold16IsEightClocks(Crc16Spec(s), b);
  }

  method Crc16(buffer: array?<bv8>, size: nat) returns (crc: bv16)
    requires buffer != null ==> size <= buffer.Length
    ensures crc == Crc16Spec(if buffer == null then [] else buffer[..size])
  {
    hide Clock16, Xor16, SwapBytes, Mix4, Mix12, Mix5;
    crc := 0xFFFF;
    if buffer != null && size != 0 {
      for j := 0 to size
        invariant crc == Crc16Spec(buffer[..j])
      {
        Crc16SpecSnoc(buffer[..j], buffer[j]);
        assert buffer[..j + 1] == buffer[..j] + [buffer[j]];
        crc := SwapBytes(crc);
        crc := Xor16(crc, buffer[j] as bv16);
        crc := Mix4(crc);
        crc := Mix12(crc);
        crc := Mix5(crc);
      }
    }
  }

  // ------------------------------------------------- what CRC-16 can detect

  predicate Odd(x: bv16) { x & 1 != 0 }

  lemma FeedbackIsLowBit(c: bv16, bit: bool)
    ensures Odd(Clock16(c, bit)) == (Top(c) != bit)
  {
  }

  function Down(x: bv16): bv16 { x >> 1 }
  function Topped(x: bv16): bv16 { x | 0x8000 }

  /** The state before a clock, recovered from the state after it. */
  function Unclock16(r: bv16, bit: bool): bv16 {
    var shifted := Down(if Odd(r) then Xor16(r, 0x1021) else r);
    if Odd(r) != bit then Topped(shifted) else shifted
  }

  lemma UpUndone(c: bv16)
    ensures Top(c) ==> Topped(Down(Up(c))) == c
    ensures !Top(c) ==> Down(Up(c)) == c
  {
  }

  lemma XorUndone(x: bv16, y: bv16)
    ensures Xor16(Xor16(x, y), y) == x
  {
  }

  lemma ClockUndone(c: bv16, bit: bool)
    ensures Unclock16(Clock16(c, bit), bit) == c
  {
    hide Top, Up, Xor16, Down, Topped, Odd;
    FeedbackIsLowBit(c, bit);
    XorUndone(Up(c), 0x1021);
    UpUndone(c);
  }

  lemma {:induction false} Register16Injective(c: bv16, d: bv16, bits: seq<bool>)
    requires Register16(c, bits) == Register16(d, bits)
    ensures c == d
  {
    hide Clock16, Unclock16;
    if bits != [] {
      var front := bits[..|bits| - 1];
      ClockUndone(Register16(c, front), bits[|bits| - 1]);
      ClockUndone(Register16(d, front), bits[|bits| - 1]);
      Register16Injective(c, d, front);
    }
  }

  /** The k least significant bits. */
  function Low16(k: nat): bv16
    requires k <= 16
  {
    if k == 0 then 0 else Grow(Low16(k - 1))
  }

  function Grow(m: bv16): bv16 { (m << 1) | 1 }

  lemma Low16ClearOnTop(k: nat)
    requires k < 16
    ensures !Top(Low16(k))
  {
    assert Low16(2) == 3;
    assert Low16(4) == 15;
    assert Low16(6) == 0x3F;
    assert Low16(8) == 0xFF;
    assert Low16(10) == 0x3FF;
    assert Low16(12) == 0xFFF;
    assert Low16(14) == 0x3FFF;
    assert Low16(15) == 0x7FFF;
  }

  predicate AgreeOn(x: bv16, y: bv16, m: bv16) {
    x & m == y & m
  }

  lemma AgreeOnLowBit(x: bv16, y: bv16, m: bv16)
    requires AgreeOn(x, y, Grow(m))
    ensures Odd(x) == Odd(y)
  {
  }

  lemma AgreeUnshift(x: bv16, y: bv16, m: bv16)
    requires !Top(m) && AgreeOn(Up(x), Up(y), Grow(m))
    ensures AgreeOn(x, y, m)
  {
  }

  lemma AgreeUnmask(x: bv16, y: bv16, m: bv16)
    requires AgreeOn(Xor16(x, 0x1021), Xor16(y, 0x1021), m)
    ensures AgreeOn(x, y, m)
  {
  }

  /** The low bit of a clocked register shows the feedback, the others show the old register. */
  lemma Clock16Back(x: bv16, p: bool, y: bv16, q: bool, m: bv16)
    requires !Top(m) && AgreeOn(Clock16(x, p), Clock16(y, q), Grow(m))
    ensures AgreeOn(x, y, m)
    ensures x == y ==> p == q
  {
    hide Top, Up, Xor16, AgreeOn, Grow, Odd;
    AgreeOnLowBit(Clock16(x, p), Clock16(y, q), m);
    FeedbackIsLowBit(x, p);
    FeedbackIsLowBit(y, q);
    if Top(x) != p {
      AgreeUnmask(Up(x), Up(y), Grow(m));
    }
    AgreeUnshift(x, y, m);
  }

  /** Up to sixteen bits fed from the same state are visible in as many low bits of the register. */
  lemma {:induction false} Window16Injective(c: bv16, v: seq<bool>, w: seq<bool>)
    requires |v| == |w| <= 16
    requires AgreeOn(Register16(c, v), Register16(c, w), Low16(|v|))
    ensures v == w
  {
    hide Clock16, AgreeOn, Grow, Top;
    if v != [] {
      var n := |v| - 1;
      Low16ClearOnTop(n);
      Clock16Back(Register16(c, v[..n]), v[n], Register16(c, w[..n]), w[n], Low16(n));
      Window16Injective(c, v[..n], w[..n]);
      assert v == v[..n] + [v[n]] && w == w[..n] + [w[n]];
    }
  }

  lemma AgreeWhenEqual(x: bv16, m: bv16)
    ensures AgreeOn(x, x, m)
  {
  }

  /** Every change confined to sixteen consecutive message bits changes the CRC-16. */
  lemma Burst16Detected(c: bv16, before: seq<bool>, v: seq<bool>, w: seq<bool>, after: seq<bool>)
    requires |v| == |w| <= 16 && v != w
    ensures Register16(c, before + v + after) != Register16(c, before + w + after)
  {
    hide Register16, AgreeOn;
    Register16Append(c, before + v, after);
    Register16Append(c, before + w, after);
    Register16Append(c, before, v);
    Register16Append(c, before, w);
    if Register16(c, before + v + after) == Register16(c, before + w + after) {
      Register16Injective(Register16(c, before + v), Register16(c, before + w), after);
      AgreeWhenEqual(Register16(c, before + v), Low16(|v|));
      Window16Injective(Register16(c, before), v, w);
    }
  }

  // -------------------------------------------------- check values

  lemma EightShifts(start: bv8, b: bv8)
    ensures Register8(start, BitsLsbFirst(b)) == Shift8(Shift8(Shift8(Shift8(Shift8(Shift8(Shift8(Shift8(start ^ b))))))))
  {
    hide Shift8, BitsLsbFirst, Left, Mixed, Clock8;
    MixedEnds(start, b);
    ShiftAtBit(start, b, 0);
    ShiftAtBit(start, b, 1);
    ShiftAtBit(start, b, 2);
    ShiftAtBit(start, b, 3);
    ShiftAtBit(start, b, 4);
    ShiftAtBit(start, b, 5);
    ShiftAtBit(start, b, 6);
    ShiftAtBit(start, b, 7);
    assert BitsLsbFirst(b)[..8] == BitsLsbFirst(b);
    MixedEnds(Register8(start, BitsLsbFirst(b)), b);
  }

  lemma CheckValues8()
    ensures Shift8(Shift8(Shift8(Shift8(Shift8(Shift8(Shift8(Shift8(0x00 ^ 0x31)))))))) == 0xe0
    ensures Shift8(Shift8(Shift8(Shift8(Shift8(Shift8(Shift8(Shift8(0xe0 ^ 0x32)))))))) == 0xeb
    ensures Shift8(Shift8(Shift8(Shift8(Shift8(Shift8(Shift8(Shift8(0xeb ^ 0x33)))))))) == 0x95
    ensures Shift8(Shift8(Shift8(Shift8(Shift8(Shift8(Shift8(Shift8(0x95 ^ 0x34)))))))) == 0xf1
    ensures Shift8(Shift8(Shift8(Shift8(Shift8(Shift8(Shift8(Shift8(0xf1 ^ 0x35)))))))) == 0xab
    ensures Shift8(Shift8(Shift8(Shift8(Shift8(Shift8(Shift8(Shift8(0xab ^ 0x36)))))))) == 0xec
    ensures Shift8(Shift8(Shift8(Shift8(Shift8(Shift8(Shift8(Shift8(0xec ^ 0x37)))))))) == 0x77
    ensures Shift8(Shift8(Shift8(Shift8(Shift8(Shift8(Shift8(Shift8(0x77 ^ 0x38)))))))) == 0x07
    ensures Shift8(Shift8(Shift8(Shift8(Shift8(Shift8(Shift8(Shift8(0x07 ^ 0x39)))))))) == 0xa1
  {
  }

  lemma CheckValues16()
    ensures Fold16(0xffff, 0x31) == 0xc782
    ensures Fold16(0xc782, 0x32) == 0x3dba
    ensures Fold16(0x3dba, 0x33) == 0x5bce
    ensures Fold16(0x5bce, 0x34) == 0x5349
    ensures Fold16(0x5349, 0x35) == 0x4560
    ensures Fold16(0x4560, 0x36) == 0x2ef4
    ensures Fold16(0x2ef4, 0x37) == 0x7718
    ensures Fold16(0x7718, 0x38) == 0xa12b
    ensures Fold16(0xa12b, 0x39) == 0x29b1
  {
  }

  /** The check values that catalogues give for these two checksums: those of the digits 1 to 9. */
  lemma CheckValues()
    ensures Crc8Spec([0x31, 0x32, 0x33, 0x34, 0x35, 0x36, 0x37, 0x38, 0x39]) == 0xA1
    ensures Crc16Spec([0x31, 0x32, 0x33, 0x34, 0x35, 0x36, 0x37, 0x38, 0x39]) == 0x29B1
  {
    hide Crc8Spec, Crc16Spec, Shift8, Fold16, BitsLsbFirst, Register8;
    CheckValues8();
    CheckValues16();
    NothingRead();
    var s0: seq<bv8> := [];
    var s1: seq<bv8> := [0x31];
    Step(s0, 0x31, 0x00, 0xffff);
    assert s0 + [0x31] == s1;
    var s2: seq<bv8> := [0x31, 0x32];
    Step(s1, 0x32, 0xe0, 0xc782);
    assert s1 + [0x32] == s2;
    var s3: seq<bv8> := [0x31, 0x32, 0x33];
    Step(s2, 0x33, 0xeb, 0x3dba);
    assert s2 + [0x33] == s3;
    var s4: seq<bv8> := [0x31, 0x32, 0x33, 0x34];
    Step(s3, 0x34, 0x95, 0x5bce);
    assert s3 + [0x34] == s4;
    var s5: seq<bv8> := [0x31, 0x32, 0x33, 0x34, 0x35];
    Step(s4, 0x35, 0xf1, 0x5349);
    assert s4 + [0x35] == s5;
    var s6: seq<bv8> := [0x31, 0x32, 0x33, 0x34, 0x35, 0x36];
    Step(s5, 0x36, 0xab, 0x4560);
    assert s5 + [0x36] == s6;
    var s7: seq<bv8> := [0x31, 0x32, 0x33, 0x34, 0x35, 0x36, 0x37];
    Step(s6, 0x37, 0xec, 0x2ef4);
    assert s6 + [0x37] == s7;
    var s8: seq<bv8> := [0x31, 0x32, 0x33, 0x34, 0x35, 0x36, 0x37, 0x38];
    Step(s7, 0x38, 0x77, 0x7718);
    assert s7 + [0x38] == s8;
    var s9: seq<bv8> := [0x31, 0x32, 0x33, 0x34, 0x35, 0x36, 0x37, 0x38, 0x39];
    Step(s8, 0x39, 0x07, 0xa12b);
    assert s8 + [0x39] == s9;
  }

  lemma NothingRead()
    ensures Crc8Spec([]) == 0 && Crc16Spec([]) == 0xFFFF
  {
  }

  lemma Step(s: seq<bv8>, b: bv8, c: bv8, d: bv16)
    requires Crc8Spec(s) == c && Crc16Spec(s) == d
    ensures Crc8Spec(s + [b]) == Shift8(Shift8(Shift8(Shift8(Shift8(Shift8(Shift8(Shift8(c ^ b))))))))
    ensures Crc16Spec(s + [b]) == Fold16(d, b as bv16)
  {
    hide Crc8Spec, Crc16Spec, Shift8, Fold16, BitsLsbFirst;
    Crc8SpecSnoc(s, b);
    Crc16SpecSnoc(s, b);
    EightShifts(c, b);
  }
}
