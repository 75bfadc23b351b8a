/**
 The reassembly buffers of joylink_smnt.c: a payload of checksum, length and data arrives in
 radio frames that may be lost, repeated or out of order.
 */
module Smnt {
  import opened Crc

  const ROOM := 128

  /** A byte as a number. */
  function Num(b: bv8): (n: nat)
    ensures n < 256
  {
    b as nat
  }

  // ------------------------------------------------------------- payloads

  /** joylink_smnt_payLoadcheck's condition: a plausible length, and the checksum of what follows. */
  predicate Accepts(buf: seq<bv8>)
    requires |buf| == ROOM
  {
    var n := Num(buf[1]);
    6 < n < 98 && buf[0] == Crc8Spec(buf[1..n + 2])
  }

  /** What a sender puts together: checksum, length, data. */
  predicate Payload(p: seq<bv8>) {
    && 8 < |p| < 100 && Num(p[1]) == |p| - 2 && p[0] == Crc8Spec(p[1..])
  }

  lemma CompleteIsAccepted(p: seq<bv8>, buf: seq<bv8>)
    requires Payload(p) && |buf| == ROOM && buf[..|p|] == p
    ensures Accepts(buf)
  {
    hide Crc8Spec;
    assert buf[1] == buf[..|p|][1] && buf[0] == buf[..|p|][0];
    assert buf[1..|p|] == buf[..|p|][1..];
  }

  /** A payload with one wrong byte, other than its length, is never accepted. */
  lemma OneWrongByteIsRejected(p: seq<bv8>, buf: seq<bv8>, k: nat)
    requires Payload(p) && |buf| == ROOM && k < |p| && k != 1 && buf[k] != p[k]
    requires forall j :: 0 <= j < |p| && j != k ==> buf[j] == p[j]
    ensures !Accepts(buf)
  {
    hide Crc8Spec;
    var n := |p| - 2;
    if k == 0 {
      assert buf[1..n + 2] == p[1..];
    } else {
      assert buf[1..n + 2] == p[1..][k - 1 := buf[k]];
      SingleByteErrorDetected(p[1..], k - 1, buf[k]);
    }
  }

  /** The length argument of the checksum, in eight bits. */
  function ChecksumLength(n: nat): nat {
    (n + 1) % 256
  }

  /** The checksum reads behind the buffer exactly for these length bytes. */
  lemma ChecksumLeavesBuffer(n: nat)
    requires n < 256
    ensures 1 + ChecksumLength(n) > ROOM <==> 127 <= n <= 254
  {
  }

  // ------------------------------------------------------------- multicast frames

  /** The last three bytes of a multicast address. */
  datatype Frame = Frame(a3: bv8, a4: bv8, a5: bv8)

  function Parity(a4: bv8, a5: bv8): bv8 {
    (a4 ^ a5) & 1
  }

  /** The index a frame is for; 0 when its parity bit is wrong. */
  function Index(f: Frame): bv8 {
    if f.a3 >> 6 == Parity(f.a4, f.a5) then f.a3 & 0x3F else 0
  }

  /** Which pair of bytes a frame sets, if any. */
  predicate Carries(f: Frame) {
    1 <= Index(f) < 49
  }

  function Place(f: Frame): (i: nat)
    requires Carries(f)
    ensures i < 48
  {
    Num(Index(f)) - 1
  }

  function Put(buf: seq<bv8>, f: Frame): (r: seq<bv8>)
    requires |buf| == ROOM
    ensures |r| == ROOM
  {
    if Carries(f) then buf[2 * Place(f) := f.a4][2 * Place(f) + 1 := f.a5] else buf
  }

  lemma LowSix(b: bv8)
    ensures Num(b >> 6) == Num(b) / 64 && Num(b & 0x3F) == Num(b) % 64
  {
  }

  lemma LowBit(b: bv8)
    ensures b & 1 == if Num(b) % 2 == 0 then 0 else 1
  {
    assert Num(b & 1) == Num(b) % 2;
  }

  lemma ParityIsSum(a4: bv8, a5: bv8)
    ensures Num(Parity(a4, a5)) == (Num(a4) + Num(a5)) % 2
  {
    hide Num;
    LowBit(a4);
    LowBit(a5);
    assert (a4 ^ a5) & 1 == (a4 & 1) ^ (a5 & 1);
    NumBit(0);
    NumBit(1);
  }

  lemma NumBit(n: nat)
    requires n < 2
    ensures Num(n as bv8) == n
  {
  }

  /** A frame in numbers: the two upper bits of its first byte are the parity of the sum of the two
      others, which go to the bytes numbered by the six lower bits, counted in pairs from 1 to 48. */
  lemma FrameSets(buf: seq<bv8>, f: Frame, j: nat)
    requires |buf| == ROOM && j < ROOM
    ensures var number := Num(f.a3) % 64;
            var good := Num(f.a3) / 64 == (Num(f.a4) + Num(f.a5)) % 2 && 1 <= number <= 48;
            Put(buf, f)[j] == if good && j == 2 * number - 2 then f.a4
                              else if good && j == 2 * number - 1 then f.a5
                              else buf[j]
  {
    hide Num, Parity;
    LowSix(f.a3);
    ParityIsSum(f.a4, f.a5);
    SameNum(f.a3 >> 6, Parity(f.a4, f.a5));
    CarriesIs(f);
  }

  lemma SameNum(b: bv8, c: bv8)
    ensures Num(b) == Num(c) <==> b == c
  {
  }

  lemma CarriesIs(f: Frame)
    ensures Carries(f) <==> f.a3 >> 6 == Parity(f.a4, f.a5) && 1 <= Num(f.a3 & 0x3F) <= 48
    ensures Carries(f) ==> Place(f) == Num(f.a3 & 0x3F) - 1
  {
    hide Parity;
  }

  function ByteAt(p: seq<bv8>, j: nat): bv8 {
    if j < |p| then p[j] else 0
  }

  function IndexByte(i: nat, parity: bv8): bv8
    requires i < 48
  {
    ((i + 1) as bv8) | (parity << 6)
  }

  /** The frame for bytes 2i and 2i+1 of a payload. */
  function FrameFor(p: seq<bv8>, i: nat): Frame
    requires i < 48
  {
    var a4, a5 := ByteAt(p, 2 * i), ByteAt(p, 2 * i + 1);
    Frame(IndexByte(i, Parity(a4, a5)), a4, a5)
  }

  lemma IndexByteSplits(k: bv8, parity: bv8)
    requires k < 64 && parity <= 1
    ensures (k | (parity << 6)) >> 6 == parity && (k | (parity << 6)) & 0x3F == k
  {
  }

  lemma ParityIsBit(a4: bv8, a5: bv8)
    ensures Parity(a4, a5) <= 1
  {
  }

  lemma FrameForCarries(p: seq<bv8>, i: nat)
    requires i < 48
    ensures Carries(FrameFor(p, i)) && Place(FrameFor(p, i)) == i
  {
    hide Parity;
    ParityIsBit(ByteAt(p, 2 * i), ByteAt(p, 2 * i + 1));
    IndexByteSplits((i + 1) as bv8, Parity(ByteAt(p, 2 * i), ByteAt(p, 2 * i + 1)));
  }

  function PutAll(buf: seq<bv8>, fs: seq<Frame>): (r: seq<bv8>)
    requires |buf| == ROOM
    ensures |r| == ROOM
  {
    if fs == [] then buf else Put(PutAll(buf, fs[..|fs| - 1]), fs[|fs| - 1])
  }

  /** Frames of one payload, in any order and number, among frames that carry nothing. */
  predicate From(p: seq<bv8>, fs: seq<Frame>) {
    forall t :: 0 <= t < |fs| ==> !Carries(fs[t]) || fs[t] == FrameFor(p, Place(fs[t]))
  }

  predicate Arrived(p: seq<bv8>, fs: seq<Frame>, i: nat)
    requires i < 48
  {
    FrameFor(p, i) in fs
  }

  /** Frames of any kind leave the bytes from 96 on alone: the highest index is 48. */
  lemma {:induction false} BeyondReach(buf: seq<bv8>, fs: seq<Frame>, j: nat)
    requires |buf| == ROOM && 96 <= j < ROOM
    ensures PutAll(buf, fs)[j] == buf[j]
    decreases |fs|
  {
    hide Index;
    if fs != [] { BeyondReach(buf, fs[..|fs| - 1], j); }
  }

  /** The buffer depends only on which frames have arrived. */
  lemma {:induction false} BufferIsArrived(p: seq<bv8>, buf: seq<bv8>, fs: seq<Frame>, j: nat)
    requires |buf| == ROOM && From(p, fs) && j < ROOM
    ensures PutAll(buf, fs)[j] == if j < 96 && Arrived(p, fs, j / 2) then ByteAt(p, j) else buf[j]
    decreases |fs|
  {
    hide Index, FrameFor, Carries;
    if j >= 96 {
      BeyondReach(buf, fs, j);
    } else if fs != [] {
      var front, last := fs[..|fs| - 1], fs[|fs| - 1];
      BufferIsArrived(p, buf, front, j);
      assert fs == front + [last];
      FrameForCarries(p, j / 2);
      if Carries(last) {
        PutSets(p, PutAll(buf, front), last, j);
      } else {
        assert last != FrameFor(p, j / 2);
      }
    }
  }

  lemma PutSets(p: seq<bv8>, buf: seq<bv8>, f: Frame, j: nat)
    requires |buf| == ROOM && Carries(f) && f == FrameFor(p, Place(f)) && j < 96
    ensures Put(buf, f)[j] == if Place(f) == j / 2 then ByteAt(p, j) else buf[j]
    ensures f == FrameFor(p, j / 2) <==> Place(f) == j / 2
  {
    hide Index, Carries;
    FrameForCarries(p, j / 2);
    FrameBytes(p, Place(f));
  }

  lemma FrameBytes(p: seq<bv8>, i: nat)
    requires i < 48
    ensures FrameFor(p, i).a4 == ByteAt(p, 2 * i) && FrameFor(p, i).a5 == ByteAt(p, 2 * i + 1)
  {
  }

  /** Order, repetition and frames of no use make no difference. */
  lemma SameFramesSameBuffer(p: seq<bv8>, buf: seq<bv8>, fs: seq<Frame>, gs: seq<Frame>)
    requires |buf| == ROOM && From(p, fs) && From(p, gs)
    requires forall i: nat :: i < 48 ==> Arrived(p, fs, i) == Arrived(p, gs, i)
    ensures PutAll(buf, fs) == PutAll(buf, gs)
  {
    hide Arrived, From, FrameFor;
    forall j: nat | j < ROOM
      ensures PutAll(buf, fs)[j] == PutAll(buf, gs)[j]
    {
      BufferIsArrived(p, buf, fs, j);
      BufferIsArrived(p, buf, gs, j);
    }
  }

  /** How many frames a payload takes; indices stop at 48. */
  function FrameCount(p: seq<bv8>): nat {
    if |p| > 96 then 48 else (|p| + 1) / 2
  }

  /** The bytes that no frame can set are in the buffer already. */
  predicate TailThere(p: seq<bv8>, buf: seq<bv8>)
    requires |buf| == ROOM && |p| <= ROOM
  {
    |p| <= 96 || buf[96..|p|] == p[96..]
  }

  /** Once every frame of a payload has arrived at least once, the buffer holds the payload if and
      only if its bytes from 96 on were there before; and then the check accepts it. */
  lemma AllArrivedIsAccepted(p: seq<bv8>, buf: seq<bv8>, fs: seq<Frame>)
    requires |buf| == ROOM && From(p, fs) && Payload(p)
    requires forall i: nat :: i < FrameCount(p) ==> Arrived(p, fs, i)
    ensures PutAll(buf, fs)[..|p|] == p <==> TailThere(p, buf)
    ensures PutAll(buf, fs)[..|p|] == p ==> Accepts(PutAll(buf, fs))
    ensures |p| == 97 && PutAll(buf, fs)[..|p|] != p ==> !Accepts(PutAll(buf, fs))
  {
    hide Arrived, From, FrameFor, Accepts, Payload;
    var r := PutAll(buf, fs);
    PayloadSize(p);
    forall j: nat | j < |p|
      ensures r[j] == if j < 96 then p[j] else buf[j]
    {
      BufferIsArrived(p, buf, fs, j);
    }
    FrontAndTail(p, buf, r);
    if r[..|p|] == p {
      CompleteIsAccepted(p, r);
    } else if |p| == 97 {
      OneWrongByteIsRejected(p, r, 96);
    }
  }

  lemma PayloadSize(p: seq<bv8>)
    requires Payload(p)
    ensures 8 < |p| < 100
  {
  }

  lemma FrontAndTail(p: seq<bv8>, buf: seq<bv8>, r: seq<bv8>)
    requires |buf| == |r| == ROOM && |p| <= ROOM
    requires forall j: nat :: j < |p| ==> r[j] == if j < 96 then p[j] else buf[j]
    ensures r[..|p|] == p <==> TailThere(p, buf)
    ensures |p| == 97 && r[..|p|] != p ==> r[96] != p[96]
  {
    if |p| > 96 {
      var q := r[..|p|];
      assert q[96..] == buf[96..|p|] && q[..96] == p[..96];
      assert q == q[..96] + q[96..] && p == p[..96] + p[96..];
    }
  }

  /** Some frames, whatever they are, bring a payload into the buffer if and only if its bytes
      from 96 on are there already. */
  lemma Deliverable(p: seq<bv8>, buf: seq<bv8>)
    requires |buf| == ROOM && |p| <= ROOM
    ensures (exists fs: seq<Frame> :: PutAll(buf, fs)[..|p|] == p) <==> TailThere(p, buf)
  {
    hide FrameFor, Carries;
    if TailThere(p, buf) {
      var fs := seq(48, i requires 0 <= i < 48 => FrameFor(p, i));
      AllFramesAreFrom(p, fs);
      forall j: nat | j < |p|
        ensures PutAll(buf, fs)[j] == if j < 96 then p[j] else buf[j]
      {
        BufferIsArrived(p, buf, fs, j);
        if j < 96 { assert fs[j / 2] == FrameFor(p, j / 2); }
      }
      FrontAndTail(p, buf, PutAll(buf, fs));
      assert PutAll(buf, fs)[..|p|] == p;
    } else {
      forall fs: seq<Frame>
        ensures PutAll(buf, fs)[..|p|] != p
      {
        TailMissing(p, buf, fs);
      }
    }
  }

  lemma AllFramesAreFrom(p: seq<bv8>, fs: seq<Frame>)
    requires |fs| == 48 && forall i :: 0 <= i < 48 ==> fs[i] == FrameFor(p, i)
    ensures From(p, fs)
  {
    hide FrameFor, Carries;
    forall t | 0 <= t < |fs|
      ensures !Carries(fs[t]) || fs[t] == FrameFor(p, Place(fs[t]))
    {
      FrameForCarries(p, t);
    }
  }

  lemma TailMissing(p: seq<bv8>, buf: seq<bv8>, fs: seq<Frame>)
    requires |buf| == ROOM && |p| <= ROOM && !TailThere(p, buf)
    ensures PutAll(buf, fs)[..|p|] != p
  {
    hide Carries, PutAll;
    var r := PutAll(buf, fs);
    forall j: nat | 96 <= j < |p|
      ensures r[j] == buf[j]
    {
      BeyondReach(buf, fs, j);
    }
    assert r[..|p|][96..] == buf[96..|p|];
  }

  /** A payload of n zeros. */
  function ZeroPayload(n: nat): (p: seq<bv8>)
    requires n < 256
    ensures |p| == n + 2
  {
    var d := [n as bv8] + seq(n, _ => 0);
    [Crc8Spec(d)] + d
  }

  lemma NumOf(n: nat)
    requires n < 256
    ensures Num(n as bv8) == n
  {
  }

  lemma ZeroPayloadIs(n: nat)
    requires 6 < n < 98
    ensures Payload(ZeroPayload(n))
  {
    hide Crc8Spec, Num;
    NumOf(n);
    assert ZeroPayload(n)[1..] == [n as bv8] + seq(n, _ => 0);
  }

  /** A length of 97 passes the check, whatever lies behind the payload. */
  lemma LongestIsAccepted(buf: seq<bv8>)
    requires |buf| == ROOM && buf[..99] == ZeroPayload(97)
    ensures Num(buf[1]) == 97 && Accepts(buf)
  {
    ZeroPayloadIs(97);
    CompleteIsAccepted(ZeroPayload(97), buf);
    assert buf[..99][1] == buf[1];
  }

  /** The lengths that a payload can have are those from 7 to 97. */
  lemma AcceptedLengths(n: nat)
    requires n < 256
    ensures (exists buf: seq<bv8> :: |buf| == ROOM && Num(buf[1]) == n && Accepts(buf)) <==> 7 <= n <= 97
  {
    if 7 <= n <= 97 {
      var buf := ZeroPayload(n) + seq(ROOM - 2 - n, _ => 0);
      ZeroPayloadIs(n);
      assert buf[..n + 2] == ZeroPayload(n);
      CompleteIsAccepted(ZeroPayload(n), buf);
      NumOf(n);
      assert |buf| == ROOM && Num(buf[1]) == n && Accepts(buf);
    }
  }

  /** Six cipher blocks make a payload of 98 bytes: the check would accept it, but no frames bring
      it into the buffer that the receiver starts with. */
  lemma SixBlocksAreLost(fs: seq<Frame>)
    ensures var p := ZeroPayload(96);
            Payload(p) && |p| == 98 && PutAll(seq(ROOM, _ => 0xFF), fs)[..|p|] != p
  {
    hide PutAll;
    var p, buf: seq<bv8> := ZeroPayload(96), seq(ROOM, _ => 0xFF);
    ZeroPayloadIs(96);
    assert buf[96..98][0] == 0xFF && p[96..][0] == 0;
    TailMissing(p, buf, fs);
  }

  // ------------------------------------------------------------- broadcast frames

  /** The group being collected: its head and up to four bytes, and the payload buffer. */
  datatype Broad = Broad(group: seq<bv8>, index: nat, buf: seq<bv8>)

  predicate ValidBroad(s: Broad) {
    |s.group| == 5 && s.index <= 3 && |s.buf| == ROOM
  }

  function Head(group: seq<bv8>): nat
    requires |group| == 5
  {
    HeadNumber(group[0])
  }

  /** The group number in a head, and its checksum bits. */
  function HeadNumber(b: bv8): nat {
    Num(b >> 3)
  }

  function HeadSum(b: bv8): bv8 {
    b & 7
  }

  /** The three checksum bits of a group. */
  function Sum3(data: seq<bv8>): bv8 {
    Crc8Spec(data) & 7
  }

  /** The length is known and the group is the one that holds the end of the payload. */
  predicate IsLastGroup(group: seq<bv8>, buf: seq<bv8>)
    requires |group| == 5 && |buf| == ROOM
  {
    var n := Num(buf[1]);
    (n + 2) / 4 + 1 == Head(group) && n != 0 && n != 0xFF
  }

  function PutGroup(buf: seq<bv8>, group: seq<bv8>): (r: seq<bv8>)
    requires |buf| == ROOM && |group| == 5
    ensures |r| == ROOM
  {
    var i := Head(group);
    if GroupIsGood(group) then buf[..4 * i - 4] + group[1..] + buf[4 * i..] else buf
  }

  /** The group has a number in range and the checksum bits of its bytes. */
  predicate GroupIsGood(group: seq<bv8>)
    requires |group| == 5
  {
    0 < Head(group) < 33 && Sum3(group[1..]) == HeadSum(group[0])
  }

  /** The frame ends a group that is written into the buffer. */
  predicate Completes(s: Broad, flag: bool, b: bv8)
    requires ValidBroad(s)
  {
    && !flag
    && var group := s.group[s.index + 1 := b];
       if s.index == 1 && IsLastGroup(group, s.buf) then GroupIsGood(group[3 := 0][4 := 0])
       else s.index == 3 && GroupIsGood(group)
  }

  /** The frame ends a group with number 0, whose first byte is the sender's version. */
  predicate IsVersion(s: Broad, flag: bool, b: bv8)
    requires ValidBroad(s)
  {
    && !flag && s.index == 1
    && var group := s.group[2 := b];
       !IsLastGroup(group, s.buf) && Head(group) == 0 && Sum3(group[1..3]) == HeadSum(group[0])
  }

  /** joylink_smnt_broadcastadd, apart from what the payload check does: a frame is a flag and a byte. */
  function Collect(s: Broad, flag: bool, b: bv8): (t: Broad)
    requires ValidBroad(s)
    ensures ValidBroad(t)
  {
    if flag then Broad(s.group[0 := b], 0, s.buf)
    else
      var i := s.index + 1;
      var group := s.group[i := b];
      if i == 2 && IsLastGroup(group, s.buf) then
        var ended := group[3 := 0][4 := 0];
        Broad(ended, 0, PutGroup(s.buf, ended))
      else if i >= 4 then Broad(group, 0, PutGroup(s.buf, group))
      else if i == 2 && Head(group) == 0 then Broad(group, 0, s.buf)
      else Broad(group, i, s.buf)
  }

  /** Bytes between two heads. */
  function CollectAll(s: Broad, bs: seq<bv8>): (t: Broad)
    requires ValidBroad(s)
    ensures ValidBroad(t)
  {
    if bs == [] then s else Collect(CollectAll(s, bs[..|bs| - 1]), false, bs[|bs| - 1])
  }

  /** Whatever arrives between two heads, and however much, only the block of the first head can
      change. */
  lemma {:induction false} OnlyItsBlock(s: Broad, bs: seq<bv8>, j: nat)
    requires ValidBroad(s) && j < ROOM
    ensures var t := CollectAll(s, bs);
            t.group[0] == s.group[0] && (t.buf[j] != s.buf[j] ==> j / 4 + 1 == Head(s.group))
    decreases |bs|
  {
    hide Collect;
    if bs != [] {
      var front := bs[..|bs| - 1];
      OnlyItsBlock(s, front, j);
      OneByteItsBlock(CollectAll(s, front), bs[|bs| - 1], j);
    }
  }

  lemma OneByteItsBlock(s: Broad, b: bv8, j: nat)
    requires ValidBroad(s) && j < ROOM
    ensures var t := Collect(s, false, b);
            t.group[0] == s.group[0] && (t.buf[j] != s.buf[j] ==> j / 4 + 1 == Head(s.group))
  {
    hide Num, HeadNumber, PutGroup;
    var group := s.group[s.index + 1 := b];
    PutsItsBlock(s.buf, group, j);
    PutsItsBlock(s.buf, group[3 := 0][4 := 0], j);
  }

  lemma PutsItsBlock(buf: seq<bv8>, group: seq<bv8>, j: nat)
    requires |buf| == ROOM && |group| == 5 && j < ROOM
    ensures PutGroup(buf, group)[j] != buf[j] ==> j / 4 + 1 == Head(group)
  {
    hide HeadNumber, Sum3, HeadSum;
  }

  lemma HeadIs(b: bv8)
    ensures HeadNumber(b) == Num(b) / 8 && Num(HeadSum(b)) == Num(b) % 8
  {
  }

  lemma SumIs(d: seq<bv8>)
    ensures Num(Sum3(d)) == Num(Crc8Spec(d)) % 8
  {
    hide Crc8Spec;
    HeadIs(Crc8Spec(d));
  }

  /** The length in the buffer is known and makes this number the last group. */
  predicate EndsWith(buf: seq<bv8>, number: nat)
    requires |buf| == ROOM
  {
    var n := Num(buf[1]);
    n != 0 && n != 255 && (n + 2) / 4 + 1 == number
  }

  /** A head and as many bytes as its group has. */
  function Read(s: Broad, h: bv8, d: seq<bv8>): (t: Broad)
    requires ValidBroad(s) && |d| == 4
    ensures ValidBroad(t)
  {
    var u := Two(Collect(s, true, h), d[0], d[1]);
    if EndsWith(s.buf, Num(h) / 8) then u else Two(u, d[2], d[3])
  }

  lemma TwoAreRead(s: Broad, h: bv8, b: bv8, c: bv8)
    requires ValidBroad(s)
    ensures var group := s.group[0 := h][1 := b][2 := c];
            Two(Collect(s, true, h), b, c) ==
            if IsLastGroup(group, s.buf) then Broad(group[3 := 0][4 := 0], 0, PutGroup(s.buf, group[3 := 0][4 := 0]))
            else Broad(group, if Head(group) == 0 then 0 else 2, s.buf)
  {
    hide Num, HeadNumber, PutGroup;
  }

  lemma GroupGoes(buf: seq<bv8>, group: seq<bv8>, j: nat)
    requires |buf| == ROOM && |group| == 5 && j < ROOM
    ensures var good := Num(group[0]) / 8 == j / 4 + 1 && Num(group[0]) % 8 == Num(Crc8Spec(group[1..])) % 8;
            PutGroup(buf, group)[j] == if good then group[1 + j % 4] else buf[j]
  {
    hide Num, Sum3, HeadSum, HeadNumber;
    HeadIs(group[0]);
    SumIs(group[1..]);
    SameNum(Sum3(group[1..]), HeadSum(group[0]));
  }

  /** A group in numbers: its head is eight times the number of its block plus the checksum of the
      four bytes modulo 8. The block that holds the end of the payload comes as two bytes, and
      number 0 sets no block. */
  lemma GroupIsRead(s: Broad, h: bv8, d: seq<bv8>, j: nat)
    requires ValidBroad(s) && |d| == 4 && j < ROOM
    ensures var e := if EndsWith(s.buf, Num(h) / 8) then [d[0], d[1], 0, 0] else d;
            var good := Num(h) / 8 == j / 4 + 1 && Num(h) % 8 == Num(Crc8Spec(e)) % 8;
            Read(s, h, d).index == 0 && Read(s, h, d).buf[j] == if good then e[j % 4] else s.buf[j]
  {
    hide Num, PutGroup, Crc8Spec, HeadNumber;
    HeadIs(h);
    TwoAreRead(s, h, d[0], d[1]);
    var group := s.group[0 := h][1 := d[0]][2 := d[1]];
    if EndsWith(s.buf, Num(h) / 8) {
      var ended := group[3 := 0][4 := 0];
      assert ended[1..] == [d[0], d[1], 0, 0];
      GroupGoes(s.buf, ended, j);
    } else {
      var full := group[3 := d[2]][4 := d[3]];
      assert full[1..] == d;
      GroupGoes(s.buf, full, j);
    }
  }

  /** The second byte behind a head with number 0 ends the version, when the head is its checksum
      modulo 8. */
  lemma VersionIsRead(s: Broad, h: bv8, b: bv8, c: bv8)
    requires ValidBroad(s)
    ensures IsVersion(Collect(Collect(s, true, h), false, b), false, c)
            <==> Num(h) / 8 == 0 && Num(h) % 8 == Num(Crc8Spec([b, c])) % 8
  {
    hide Num, Sum3, HeadSum, HeadNumber;
    HeadIs(h);
    SumIs([b, c]);
    SameNum(Sum3([b, c]), HeadSum(h));
    var group := s.group[0 := h][1 := b];
    assert Collect(Collect(s, true, h), false, b) == Broad(group, 1, s.buf);
    assert group[2 := c][1..3] == [b, c];
  }

  // ------------------------------------------------------------- groups of a payload

  /** Four bytes of the payload, zeros behind its end. */
  function Block(p: seq<bv8>, g: nat): (d: seq<bv8>)
    ensures |d| == 4
  {
    [ByteAt(p, 4 * g), ByteAt(p, 4 * g + 1), ByteAt(p, 4 * g + 2), ByteAt(p, 4 * g + 3)]
  }

  function HeadByte(p: seq<bv8>, g: nat): bv8
    requires g < 32
  {
    if g < 31 then ((g + 1) as bv8 << 3) | Sum3(Block(p, g)) else Sum3(Block(p, g))
  }

  /** The last group holds two bytes at most; a third may be there when it is zero. */
  predicate Grouped(p: seq<bv8>) {
    Payload(p) && Block(p, LastOf(p))[2] == 0
  }

  lemma GroupedBySize(p: seq<bv8>)
    requires Payload(p)
    ensures Grouped(p) <==> |p| % 4 != 3 || p[|p| - 1] == 0
  {
    hide Crc8Spec;
  }

  /** The group that ends early; behind the payload when that fills its groups. */
  function LastOf(p: seq<bv8>): nat {
    |p| / 4
  }

  function Two(s: Broad, b: bv8, c: bv8): (t: Broad)
    requires ValidBroad(s)
    ensures ValidBroad(t)
  {
    Collect(Collect(s, false, b), false, c)
  }

  /** A group received whole: its head, and four bytes, or two for the last. */
  function Deliver(s: Broad, p: seq<bv8>, g: nat): (t: Broad)
    requires ValidBroad(s) && g < 31
    ensures ValidBroad(t)
  {
    var d := Block(p, g);
    var u := Two(Collect(s, true, HeadByte(p, g)), d[0], d[1]);
    if g == LastOf(p) then u else Two(u, d[2], d[3])
  }

  lemma HeadSplits(k: bv8, sum: bv8)
    requires k < 32 && sum <= 7
    ensures ((k << 3) | sum) >> 3 == k && ((k << 3) | sum) & 7 == sum
  {
  }

  lemma SumIsSmall(d: seq<bv8>)
    ensures Sum3(d) <= 7
  {
    hide Crc8Spec;
  }

  lemma HeadByteSplits(p: seq<bv8>, g: nat)
    requires g < 31
    ensures HeadNumber(HeadByte(p, g)) == g + 1 && HeadSum(HeadByte(p, g)) == Sum3(Block(p, g))
  {
    hide Sum3;
    SumIsSmall(Block(p, g));
    HeadSplits((g + 1) as bv8, Sum3(Block(p, g)));
  }

  /** Whether the length in the buffer makes group g the last. */
  predicate EndsAt(buf: seq<bv8>, g: nat)
    requires |buf| == ROOM
  {
    var n := Num(buf[1]);
    (n + 2) / 4 == g && n != 0 && n != 0xFF
  }

  function WithBlock(buf: seq<bv8>, p: seq<bv8>, g: nat): (r: seq<bv8>)
    requires |buf| == ROOM && g < 32
    ensures |r| == ROOM
  {
    buf[..4 * g] + Block(p, g) + buf[4 * g + 4..]
  }

  /** The state when the head and two bytes of a group are in. */
  lemma HeadAndTwo(s: Broad, p: seq<bv8>, g: nat, group: seq<bv8>)
    requires ValidBroad(s) && g < 31 && group == s.group[0 := HeadByte(p, g)][1 := Block(p, g)[0]][2 := Block(p, g)[1]]
    ensures var u := Two(Collect(s, true, HeadByte(p, g)), Block(p, g)[0], Block(p, g)[1]);
            u == if EndsAt(s.buf, g) then Broad(group[3 := 0][4 := 0], 0, PutGroup(s.buf, group[3 := 0][4 := 0]))
                 else Broad(group, 2, s.buf)
  {
    hide Sum3, HeadByte, Block, PutGroup;
    HeadByteSplits(p, g);
  }

  lemma GroupPuts(buf: seq<bv8>, group: seq<bv8>, p: seq<bv8>, g: nat)
    requires |buf| == ROOM && |group| == 5 && g < 31 && group[0] == HeadByte(p, g) && group[1..] == Block(p, g)
    ensures PutGroup(buf, group) == WithBlock(buf, p, g)
  {
    hide Sum3, HeadByte, Block;
    HeadByteSplits(p, g);
  }

  /** A whole group sets its block, unless it is the last and the length has not arrived yet. */
  lemma DeliverSets(s: Broad, p: seq<bv8>, g: nat)
    requires ValidBroad(s) && Grouped(p) && g <= LastOf(p) < 31
    requires EndsAt(s.buf, g) ==> g == LastOf(p)
    ensures Deliver(s, p, g).buf == if g == LastOf(p) && !EndsAt(s.buf, g) then s.buf else WithBlock(s.buf, p, g)
  {
    hide Sum3, HeadByte, Block, Payload, PutGroup, EndsAt, WithBlock;
    var d := Block(p, g);
    var group := s.group[0 := HeadByte(p, g)][1 := d[0]][2 := d[1]];
    HeadAndTwo(s, p, g, group);
    if g == LastOf(p) {
      LastBlock(p);
      var ended := group[3 := 0][4 := 0];
      assert ended[1..] == d;
      GroupPuts(s.buf, ended, p, g);
    } else {
      var full := group[3 := d[2]][4 := d[3]];
      assert full[1..] == d;
      GroupPuts(s.buf, full, p, g);
    }
  }

  lemma LastBlock(p: seq<bv8>)
    requires Grouped(p)
    ensures Block(p, LastOf(p))[2] == 0 && Block(p, LastOf(p))[3] == 0
  {
    hide Crc8Spec;
  }

  function DeliverAll(s: Broad, p: seq<bv8>, gs: seq<nat>): (t: Broad)
    requires ValidBroad(s) && forall i :: 0 <= i < |gs| ==> gs[i] < 31
    ensures ValidBroad(t)
  {
    if gs == [] then s else Deliver(DeliverAll(s, p, gs[..|gs| - 1]), p, gs[|gs| - 1])
  }

  /** Group g is in place: it arrived, and if it is the last, it arrived behind the first. */
  predicate InPlace(p: seq<bv8>, gs: seq<nat>, g: nat) {
    gs != [] &&
    (InPlace(p, gs[..|gs| - 1], g) || (gs[|gs| - 1] == g && (g == LastOf(p) ==> 0 in gs[..|gs| - 1])))
  }

  lemma {:induction false} FirstInPlace(p: seq<bv8>, gs: seq<nat>)
    requires Grouped(p)
    ensures InPlace(p, gs, 0) <==> 0 in gs
  {
    if gs != [] {
      FirstInPlace(p, gs[..|gs| - 1]);
      assert gs == gs[..|gs| - 1] + [gs[|gs| - 1]];
    }
  }

  /** The buffer holds exactly the groups that are in place. */
  lemma {:induction false} BufferIsInPlace(s: Broad, p: seq<bv8>, gs: seq<nat>, j: nat)
    requires ValidBroad(s) && Grouped(p) && (s.buf[1] == 0 || s.buf[1] == 0xFF) && j < ROOM
    requires forall i :: 0 <= i < |gs| ==> gs[i] <= LastOf(p) < 31
    ensures DeliverAll(s, p, gs).buf[j] == if InPlace(p, gs, j / 4) then ByteAt(p, j) else s.buf[j]
    decreases |gs|
  {
    hide Deliver, EndsAt, Payload, Block;
    if gs != [] {
      var front, g := gs[..|gs| - 1], gs[|gs| - 1];
      var t := DeliverAll(s, p, front);
      BufferIsInPlace(s, p, front, j);
      BufferIsInPlace(s, p, front, 1);
      FirstInPlace(p, front);
      LengthKnown(p, t.buf, s.buf[1], 0 in front);
      DeliverSets(t, p, g);
      WithBlockAt(t.buf, p, g, j);
    }
  }

  lemma LengthKnown(p: seq<bv8>, buf: seq<bv8>, before: bv8, known: bool)
    requires Grouped(p) && |buf| == ROOM && (before == 0 || before == 0xFF)
    requires buf[1] == if known then ByteAt(p, 1) else before
    ensures forall g :: EndsAt(buf, g) <==> known && g == LastOf(p)
    ensures LastOf(p) < 31
  {
    hide Crc8Spec;
  }

  lemma WithBlockAt(buf: seq<bv8>, p: seq<bv8>, g: nat, j: nat)
    requires |buf| == ROOM && g < 32 && j < ROOM
    ensures WithBlock(buf, p, g)[j] == if j / 4 == g then ByteAt(p, j) else buf[j]
  {
    if j / 4 == g {
      assert j == 4 * g + j % 4;
      assert WithBlock(buf, p, g)[j] == Block(p, g)[j % 4];
    }
  }

  /** Groups received whole, in any order and number: when all have arrived, the last behind the
      first, the payload is complete and accepted. */
  lemma GroupsArrivedIsAccepted(s: Broad, p: seq<bv8>, gs: seq<nat>)
    requires ValidBroad(s) && Grouped(p) && (s.buf[1] == 0 || s.buf[1] == 0xFF)
    requires forall i :: 0 <= i < |gs| ==> gs[i] <= LastOf(p) < 31
    requires forall g: nat :: 4 * g < |p| ==> InPlace(p, gs, g)
    ensures DeliverAll(s, p, gs).buf[..|p|] == p && Accepts(DeliverAll(s, p, gs).buf)
  {
    hide InPlace, Accepts, Deliver;
    var buf := DeliverAll(s, p, gs).buf;
    forall j: nat | j < |p|
      ensures buf[j] == p[j]
    {
      assert 4 * (j / 4) < |p|;
      BufferIsInPlace(s, p, gs, j);
    }
    assert buf[..|p|] == p;
    CompleteIsAccepted(p, buf);
  }

  // ------------------------------------------------------------- the receiver

  /** The two payload buffers as they lie in memory, with what lies behind them: the checksum is
      computed over as many bytes as the length byte says before that length is judged. */
  class Receiver {
    const memory: array<bv8>
    const broadBuffer: array<bv8>
    var broadIndex: nat
    var broadcastVersion: bv8
    /** One cell more than encData declares; a length of 97 fills it. */
    const encData: array<bv8>
    var finished: bool
    var kind: nat

    ghost predicate Valid()
      reads this
    {
      Layout() && broadIndex <= 3
    }

    ghost predicate Layout() {
      && memory.Length == 512 && broadBuffer.Length == 5 && encData.Length == 98
      && memory != broadBuffer && memory != encData && broadBuffer != encData
    }

    ghost function Multicast(): (r: seq<bv8>)
      requires memory.Length == 512
      reads memory
      ensures |r| == ROOM
    {
      memory[..ROOM]
    }

    ghost function Broadcast(): Broad
      requires memory.Length == 512 && broadBuffer.Length == 5
      reads this, memory, broadBuffer
    {
      Broad(broadBuffer[..], broadIndex, memory[ROOM..2 * ROOM])
    }

    /** joylink_smnt_init; what lies behind the buffers is whatever memory held. */
    constructor (block: array<bv8>)
      requires block.Length == 512
      modifies block
      ensures Valid() && memory == block && fresh(broadBuffer) && fresh(encData)
      ensures Multicast() == seq(ROOM, _ => 0xFF) && Broadcast() == Broad([0, 0, 0, 0, 0], 0, seq(ROOM, _ => 0xFF))
      ensures !finished
    {
      memory := block;
      broadBuffer := new bv8[5](_ => 0);
      encData := new bv8[98](_ => 0);
      broadIndex, broadcastVersion, finished, kind := 0, 0, false, 0;
      new;
      for i := 0 to 2 * ROOM
        invariant forall j :: 0 <= j < i ==> block[j] == 0xFF
        invariant !finished && broadIndex == 0 && broadBuffer[..] == [0, 0, 0, 0, 0]
      {
        block[i] := 0xFF;
      }
    }

    /** The checksum that is computed first, over as many bytes as the length byte says. */
    method FirstSum(base: nat) returns (crc: bv8)
      requires base + 1 < memory.Length && base + 1 + ChecksumLength(Num(memory[base + 1])) <= memory.Length
      ensures crc == Crc8Spec(memory[base + 1..base + 1 + ChecksumLength(Num(memory[base + 1]))])
    {
      crc := JoylinkCrc(memory, base + 1, ChecksumLength(Num(memory[base + 1])));
    }

    /** joylink_smnt_payLoadcheck on the buffer at base, up to handing over the result. */
    method PayloadCheck(base: nat) returns (r: int)
      requires Layout() && (base == 0 || base == ROOM)
      modifies `finished, encData
      ensures r == if Accepts(memory[base..base + ROOM]) then 0 else 1
      ensures r == 0 ==> finished && var n := Num(memory[base + 1]);
                         6 < n < 98 && encData[..n + 1] == memory[base + 1..base + n + 2]
                         && encData[n + 1..] == old(encData[..])[n + 1..]
                         && encData[97] == (if n == 97 then memory[base + 98] else old(encData[97]))
      ensures r != 0 ==> finished == old(finished) && encData[..] == old(encData[..])
    {
      hide Crc8Spec, Num;
      ghost var m := memory[..];
      var n := Num(memory[base + 1]);
      var crc := FirstSum(base);
      SliceFacts(m, base, n);
      if n > 6 && n < 98 && memory[base] == crc {
        CopyResult(base + 1, n + 1);
        LastCell(encData[..], old(encData[..]), m[base + 1..base + n + 2], n);
        finished := true;
        return 0;
      }
      r := 1;
    }

    method CopyResult(from: nat, count: nat)
      requires Layout() && count <= 98 && from + count <= memory.Length
      modifies encData
      ensures encData[..count] == memory[from..from + count]
      ensures encData[count..] == old(encData[..])[count..]
    {
      for i := 0 to count
        invariant forall j :: 0 <= j < i ==> encData[j] == memory[from + j]
        invariant forall j :: i <= j < 98 ==> encData[j] == old(encData[j])
      {
        encData[i] := memory[from + i];
      }
    }

    /** joylink_smnt_muticastadd */
    method MulticastAdd(f: Frame)
      requires Valid()
      modifies this, memory, encData
      ensures Valid() && Multicast() == Put(old(Multicast()), f) && Broadcast() == old(Broadcast())
      ensures Carries(f) && Accepts(Multicast()) ==> finished && kind == 3
      ensures !(Carries(f) && Accepts(Multicast())) ==> finished == old(finished) && kind == old(kind)
      ensures memory[2 * ROOM..] == old(memory[2 * ROOM..])
    {
      hide Accepts, Index, Carries, Place;
      var carries, payloadIndex := FramePlace(f);
      if carries {
        PutPair(payloadIndex, f.a4, f.a5);
        assert memory[0..ROOM] == memory[..ROOM];
        var r := PayloadCheck(0);
        if r == 0 {
          kind := 3;
        }
      }
    }

    /** The parity check and the range of the index. */
    method FramePlace(f: Frame) returns (carries: bool, payloadIndex: nat)
      ensures carries == Carries(f) && (carries ==> payloadIndex == Place(f))
    {
      hide Parity, Num;
      carries, payloadIndex := false, 0;
      if f.a3 >> 6 == Parity(f.a4, f.a5) {
        var index := f.a3 & 0x3F;
        if index >= 1 && index < 49 {
          IndexRange(index);
          carries, payloadIndex := true, Num(index) - 1;
        }
      }
    }

    method PutPair(payloadIndex: nat, a4: bv8, a5: bv8)
      requires Layout() && payloadIndex < 48
      modifies memory
      ensures Multicast() == old(Multicast())[2 * payloadIndex := a4][2 * payloadIndex + 1 := a5]
      ensures memory[ROOM..2 * ROOM] == old(memory[ROOM..2 * ROOM]) && memory[2 * ROOM..] == old(memory[2 * ROOM..])
    {
      memory[payloadIndex * 2] := a4;
      memory[payloadIndex * 2 + 1] := a5;
    }

    /** The group in broadBuffer is complete: its checksum bits, and then the payload check. */
    method FinishGroup()
      requires Layout()
      modifies this, memory, encData
      ensures Valid() && Multicast() == old(Multicast()) && broadBuffer[..] == old(broadBuffer[..]) && broadIndex == 0
      ensures memory[ROOM..2 * ROOM] == PutGroup(old(memory[ROOM..2 * ROOM]), old(broadBuffer[..]))
      ensures broadcastVersion == old(broadcastVersion)
      ensures GroupIsGood(broadBuffer[..]) && Accepts(memory[ROOM..2 * ROOM]) ==> finished && kind == 2
      ensures !(GroupIsGood(broadBuffer[..]) && Accepts(memory[ROOM..2 * ROOM])) ==> finished == old(finished) && kind == old(kind)
      ensures memory[2 * ROOM..] == old(memory[2 * ROOM..])
    {
      hide Accepts, HeadNumber, HeadSum, Sum3;
      broadIndex := 0;
      ghost var group, buf := broadBuffer[..], memory[ROOM..2 * ROOM];
      var crc := HeadSum(broadBuffer[0]);
      var index := HeadNumber(broadBuffer[0]);
      var rCrc := ThreeBits(4);
      assert group[1..] == broadBuffer[1..5] == broadBuffer[1..];
      if index > 0 && index < 33 && rCrc == crc {
        PutBlock(index);
        var r := PayloadCheck(ROOM);
        if r == 0 {
          kind := 2;
        }
      }
    }

    /** The low bits of joylink_smnt_crc over the bytes behind the head. */
    method ThreeBits(len: nat) returns (c: bv8)
      requires Layout() && len <= 4
      ensures c == Sum3(broadBuffer[1..1 + len])
    {
      hide Crc8Spec;
      var crc := JoylinkCrc(broadBuffer, 1, len);
      c := crc & 7;
    }

    method PutBlock(index: nat)
      requires Layout() && 0 < index < 33
      modifies memory
      ensures var buf := old(memory[ROOM..2 * ROOM]);
              memory[ROOM..2 * ROOM] == buf[..4 * index - 4] + broadBuffer[1..] + buf[4 * index..]
      ensures Multicast() == old(Multicast()) && memory[2 * ROOM..] == old(memory[2 * ROOM..])
    {
      var at := ROOM + (index - 1) * 4;
      memory[at], memory[at + 1], memory[at + 2], memory[at + 3] := broadBuffer[1], broadBuffer[2], broadBuffer[3], broadBuffer[4];
    }

    /** joylink_smnt_broadcastadd */
    method BroadcastAdd(flag: bool, b: bv8)
      requires Valid()
      modifies this, memory, broadBuffer, encData
      ensures Valid() && Broadcast() == Collect(old(Broadcast()), flag, b) && Multicast() == old(Multicast())
      ensures broadcastVersion == if IsVersion(old(Broadcast()), flag, b) then old(broadBuffer[1]) else old(broadcastVersion)
      ensures Completes(old(Broadcast()), flag, b) && Accepts(memory[ROOM..2 * ROOM]) ==> finished && kind == 2
      ensures !(Completes(old(Broadcast()), flag, b) && Accepts(memory[ROOM..2 * ROOM])) ==>
                finished == old(finished) && kind == old(kind)
    {
      hide GroupIsGood, Accepts, Sum3, PutGroup, Num, HeadNumber, HeadSum;
      if flag {
        broadIndex := 0;
        broadBuffer[0] := b;
        return;
      }
      var is_finishpacket := false;
      broadIndex := broadIndex + 1;
      broadBuffer[broadIndex] := b;
      var n := Num(memory[ROOM + 1]);
      assert memory[ROOM..2 * ROOM][1] == memory[ROOM + 1];
      if (n + 2) / 4 + 1 == HeadNumber(broadBuffer[0]) && n != 0 && n != 0xFF {
        if broadIndex == 2 {
          is_finishpacket := true;
          broadBuffer[3] := 0;
          broadBuffer[4] := 0;
        }
      }
      if broadIndex >= 4 || is_finishpacket {
        FinishGroup();
      } else if broadIndex == 2 {
        var index := HeadNumber(broadBuffer[0]);
        if index == 0 {
          broadIndex := 0;
          var rCrc := ThreeBits(2);
          if rCrc == HeadSum(broadBuffer[0]) {
            broadcastVersion := broadBuffer[1];
          }
        }
      }
    }
  }

  lemma IndexRange(index: bv8)
    requires 1 <= index < 49
    ensures 1 <= Num(index) < 49
  {
  }

  /** The byte behind the 97 that the structure declares. */
  lemma LastCell(after: seq<bv8>, before: seq<bv8>, copied: seq<bv8>, n: nat)
    requires |after| == |before| == 98 && n < 98 && |copied| == n + 1
    requires after[..n + 1] == copied && after[n + 1..] == before[n + 1..]
    ensures after[97] == if n == 97 then copied[97] else before[97]
  {
    if n == 97 {
      assert after[..n + 1][97] == copied[97];
    } else {
      assert after[97] == after[n + 1..][96 - n];
    }
  }

  lemma SliceFacts(m: seq<bv8>, base: nat, n: nat)
    requires |m| == 512 && base + ROOM <= 512 && n < 256
    ensures var buf := m[base..base + ROOM];
            && buf[0] == m[base] && buf[1] == m[base + 1]
            && (n < 98 ==> buf[1..n + 2] == m[base + 1..base + n + 2])
            && (n < 98 ==> (n + 1) % 256 == n + 1)
  {
    if n < 98 {
      SliceOfSlice(m, base, base + ROOM, 1, n + 2);
    }
  }

  lemma SliceOfSlice(m: seq<bv8>, from: nat, to: nat, lo: nat, hi: nat)
    requires from <= to <= |m| && lo <= hi <= to - from
    ensures m[from..to][lo..hi] == m[from + lo..from + hi]
  {
    var a, b := m[from..to][lo..hi], m[from + lo..from + hi];
    forall k | 0 <= k < hi - lo
      ensures a[k] == b[k]
    {
      assert a[k] == m[from..to][lo + k];
    }
  }
}
