/**
 The streaming hash of md5.c. Whatever the pieces a message arrives in, MD5Final gives the
 digest that RFC 1321 defines on the whole message.
 */
module Md5 {
  import opened Base
  import opened Md5Transform

  // ------------------------------------------------------------- RFC 1321 on whole messages

  /** Section 3.3. */
  const INITIAL: Chain := Chain(0x67452301, 0xEFCDAB89, 0x98BADCFE, 0x10325476)

  /** Section 3.4: the whole blocks of m, one after another. */
  function Blocks(s: Chain, m: seq<bv8>): Chain
    decreases |m|
  {
    if |m| < 64 then s else Blocks(Compress(s, m[..64]), m[64..])
  }

  function LittleByte(w: bv32, i: nat): bv8
    requires i < 4
  {
    if i == 0 then (w & 0xFF) as bv8
    else if i == 1 then ((w >> 8) & 0xFF) as bv8
    else if i == 2 then ((w >> 16) & 0xFF) as bv8
    else ((w >> 24) & 0xFF) as bv8
  }

  /** Words as bytes, each low-order byte first. */
  function LittleBytes(w: seq<bv32>): (b: seq<bv8>)
    ensures |b| == 4 * |w|
  {
    seq(4 * |w|, i requires 0 <= i < 4 * |w| => LittleByte(w[i / 4], i % 4))
  }

  /** The number of bits of n bytes, modulo 2^64, as two words with the low-order word first. */
  function BitCount(n: nat): seq<bv32> {
    [ToWord(8 * n % WORD), ToWord(8 * n / WORD % WORD)]
  }

  function ToWord(n: nat): bv32
    requires n < WORD
  {
    n as bv32
  }

  function Zeros(n: nat): (z: seq<bv8>)
    ensures |z| == n
  {
    seq(n, _ => 0)
  }

  /** How many bytes of padding bring the length to 56 modulo 64; at least one. */
  function PadLength(n: nat): (k: nat)
    ensures 1 <= k <= 64 && (n + k) % 64 == 56
  {
    if n % 64 < 56 then 56 - n % 64 else 120 - n % 64
  }

  function Padding(n: nat): (p: seq<bv8>)
    ensures |p| == PadLength(n)
  {
    [0x80] + Zeros(PadLength(n) - 1)
  }

  /** Sections 3.1 to 3.5. */
  function Digest(m: seq<bv8>): (d: seq<bv8>)
    ensures |d| == 16
  {
    var s := Blocks(INITIAL, m + Padding(|m|) + LittleBytes(BitCount(|m|)));
    LittleBytes([s.a, s.b, s.c, s.d])
  }

  // ------------------------------------------------------------- whole blocks and the rest

  function Whole(n: nat): (k: nat)
    ensures k <= n && k % 64 == 0 && n - k < 64
  {
    n / 64 * 64
  }

  lemma {:induction false} BlocksAppend(s: Chain, m: seq<bv8>, t: seq<bv8>)
    requires |m| % 64 == 0
    ensures Blocks(s, m + t) == Blocks(Blocks(s, m), t)
    decreases |m|
  {
    hide Compress;
    if |m| == 0 {
      assert m + t == t;
    } else {
      assert |m| >= 64;
      assert (m + t)[..64] == m[..64] && (m + t)[64..] == m[64..] + t;
      BlocksAppend(Compress(s, m[..64]), m[64..], t);
    }
  }

  lemma {:induction false} BlocksWhole(s: Chain, m: seq<bv8>)
    ensures Blocks(s, m) == Blocks(s, m[..Whole(|m|)])
  {
    hide Compress;
    var k := Whole(|m|);
    assert m == m[..k] + m[k..];
    BlocksAppend(s, m[..k], m[k..]);
  }

  lemma OneBlock(s: Chain, b: seq<bv8>)
    requires |b| == 64
    ensures Blocks(s, b) == Compress(s, b)
  {
    hide Compress;
    assert b[..64] == b;
  }

  lemma NextBlock(s: Chain, m: seq<bv8>, k: nat)
    requires k % 64 == 0 && k + 64 <= |m|
    ensures Blocks(s, m[..k + 64]) == Compress(Blocks(s, m[..k]), m[k..k + 64])
  {
    hide Compress;
    assert m[..k + 64] == m[..k] + m[k..k + 64];
    BlocksAppend(s, m[..k], m[k..k + 64]);
    OneBlock(Blocks(s, m[..k]), m[k..k + 64]);
  }

  lemma WholeAt(n: nat, k: nat)
    requires k % 64 == 0 && k <= n < k + 64
    ensures Whole(n) == k && n % 64 == n - k
  {
  }

  // ------------------------------------------------------------- the bit counter

  /** The index into the buffer comes from the low word alone. */
  lemma IndexIsRest(c0: nat, c1: nat, n: nat)
    requires c0 < WORD && c1 < WORD && c0 + c1 * WORD == 8 * n % (WORD * WORD)
    ensures c0 / 8 % 64 == n % 64
  {
    var q := 8 * n / (WORD * WORD);
    EighthOf(c0, 0x80_0000 * c1 + 0x80_0000_0000_0000 * q, n);
    AddsNothing(c0 / 8, 0x80_0000 * c1 + 0x80_0000_0000_0000 * q);
  }

  lemma EighthOf(c0: nat, t: nat, n: nat)
    requires 8 * n == c0 + 512 * t
    ensures n == c0 / 8 + 64 * t
  {
  }

  lemma AddsNothing(a: nat, t: nat)
    ensures (a + 64 * t) % 64 == a % 64
  {
  }

  function Carried(c0: nat, c1: nat, inputlen: nat): (nat, nat) {
    var bits := 8 * inputlen % WORD;
    var low := (c0 + bits) % WORD;
    (low, ((if low < bits then (c1 + 1) % WORD else c1) + inputlen / 0x2000_0000) % WORD)
  }

  /** The carry between the words makes the pair a counter modulo 2^64. */
  lemma CarriedIsCount(c0: nat, c1: nat, n: nat, inputlen: nat)
    requires c0 < WORD && c1 < WORD && c0 + c1 * WORD == 8 * n % (WORD * WORD) && inputlen < WORD
    ensures var (low, high) := Carried(c0, c1, inputlen);
            low < WORD && high < WORD && low + high * WORD == 8 * (n + inputlen) % (WORD * WORD)
  {
    var (low, high) := Carried(c0, c1, inputlen);
    var over := CarriedSum(c0, c1, inputlen);
    hide Carried;
    var q := 8 * n / (WORD * WORD);
    Remainder(8 * (n + inputlen), low + high * WORD, q + over);
  }

  /** What the two words lose is a multiple of 2^64. */
  lemma CarriedSum(c0: nat, c1: nat, inputlen: nat) returns (over: nat)
    requires c0 < WORD && c1 < WORD && inputlen < WORD
    ensures var (low, high) := Carried(c0, c1, inputlen);
            low < WORD && high < WORD
            && low + high * WORD + over * (WORD * WORD) == c0 + c1 * WORD + 8 * inputlen
  {
    var bits, top := 8 * inputlen % WORD, inputlen / 0x2000_0000;
    var low := (c0 + bits) % WORD;
    var carry := if low < bits then 1 else 0;
    over := (c1 + carry + top) / WORD;
    Divided(8 * inputlen, WORD);
    AddedLow(c0, bits);
    AddedHigh(c1, carry, top);
  }

  lemma AddedLow(c0: nat, bits: nat)
    requires c0 < WORD && bits < WORD
    ensures var low := (c0 + bits) % WORD;
            c0 + bits == low + (if low < bits then WORD else 0)
  {
  }

  lemma AddedHigh(c1: nat, carry: nat, top: nat)
    requires c1 < WORD && carry <= 1
    ensures ((if carry == 1 then (c1 + 1) % WORD else c1) + top) % WORD == (c1 + carry + top) % WORD
    ensures c1 + carry + top == (c1 + carry + top) % WORD + (c1 + carry + top) / WORD * WORD
  {
  }

  lemma Divided(x: nat, m: nat)
    requires m == WORD
    ensures x == x % m + x / m * m && x / 8 / 0x2000_0000 == x / m
  {
  }

  lemma Remainder(x: nat, r: nat, q: nat)
    requires r < WORD * WORD && x == r + q * (WORD * WORD)
    ensures x % (WORD * WORD) == r
  {
  }

  // ------------------------------------------------------------- the context

  class Context {
    var count0: nat
    var count1: nat
    const state: array<bv32>
    const buffer: array<bv8>
    /** Everything hashed so far. */
    ghost var fed: seq<bv8>

    ghost predicate Valid()
      reads this, state, buffer
    {
      && state.Length == 4 && buffer.Length == 64
      && count0 < WORD && count1 < WORD && count0 + count1 * WORD == 8 * |fed| % (WORD * WORD)
      && ChainOf(state[..]) == Blocks(INITIAL, fed)
      && buffer[..|fed| % 64] == fed[Whole(|fed|)..]
    }

    /** MD5Init */
    constructor ()
      ensures Valid() && fed == [] && fresh(state) && fresh(buffer)
    {
      count0, count1 := 0, 0;
      state := new bv32[4];
      buffer := new bv8[64];
      fed := [];
      new;
      state[0], state[1], state[2], state[3] := 0x67452301, 0xEFCDAB89, 0x98BADCFE, 0x10325476;
    }

    /** The two words of the counter, with the carry between them. */
    method Count(inputlen: nat)
      requires count0 < WORD && count1 < WORD && inputlen < WORD
      modifies `count0, `count1
      ensures (count0, count1) == Carried(old(count0), old(count1), inputlen)
    {
      count0 := (count0 + 8 * inputlen % WORD) % WORD;
      if count0 < 8 * inputlen % WORD {
        count1 := (count1 + 1) % WORD;
      }
      count1 := (count1 + inputlen / 0x2000_0000) % WORD;
    }

    /** Completes the block in the buffer and hashes it; m is the message, k where the block starts. */
    method FillBuffer(input: array<bv8>, index: nat, ghost m: seq<bv8>, ghost k: nat)
      requires state.Length == 4 && buffer.Length == 64 && input != buffer && index < 64 && 64 - index <= input.Length
      requires k % 64 == 0 && k + 64 <= |m| && ChainOf(state[..]) == Blocks(INITIAL, m[..k])
      requires buffer[..index] + input[..64 - index] == m[k..k + 64]
      modifies state, buffer
      ensures ChainOf(state[..]) == Blocks(INITIAL, m[..k + 64])
    {
      hide Blocks, Compress, ChainOf;
      CopyBytes(buffer, index, input, 0, 64 - index);
      assert buffer[0..64] == buffer[..index] + buffer[index..64];
      NextBlock(INITIAL, m, k);
      Transform(state, buffer, 0);
    }

    /** Hashes the whole blocks of the input from partlen on; n bytes of m came before the input. */
    method TransformAll(input: array<bv8>, partlen: nat, inputlen: nat, ghost m: seq<bv8>, ghost n: nat) returns (i: nat)
      requires state.Length == 4 && partlen <= inputlen <= input.Length && (n + partlen) % 64 == 0
      requires |m| == n + inputlen && input[..inputlen] == m[n..]
      requires ChainOf(state[..]) == Blocks(INITIAL, m[..n + partlen])
      modifies state
      ensures i <= inputlen < i + 64 && (n + i) % 64 == 0 && ChainOf(state[..]) == Blocks(INITIAL, m[..n + i])
    {
      hide Blocks, Compress, ChainOf;
      i := partlen;
      while i + 64 <= inputlen
        invariant partlen <= i <= inputlen && (n + i) % 64 == 0
        invariant ChainOf(state[..]) == Blocks(INITIAL, m[..n + i])
      {
        NextBlock(INITIAL, m, n + i);
        BlockAt(input[..], m, n, i, inputlen);
        Transform(state, input, i);
        i := i + 64;
      }
    }

    /** Hashes as many whole blocks as the buffer and the input make; i bytes of the input are
        then used up and the buffer holds index bytes. */
    method Absorb(input: array<bv8>, inputlen: nat, at: nat, ghost m: seq<bv8>, ghost n: nat) returns (i: nat, index: nat)
      requires state.Length == 4 && buffer.Length == 64 && input != buffer && inputlen <= input.Length
      requires at == n % 64 && |m| == n + inputlen && input[..inputlen] == m[n..]
      requires ChainOf(state[..]) == Blocks(INITIAL, m[..n - at]) && buffer[..at] == m[n - at..n]
      modifies state, buffer
      ensures i <= inputlen && index <= n + i && index + (inputlen - i) < 64 && (n + i - index) % 64 == 0
      ensures ChainOf(state[..]) == Blocks(INITIAL, m[..n + i - index]) && buffer[..index] == m[n + i - index..n + i]
    {
      hide Blocks, Compress, ChainOf;
      i, index := 0, at;
      var partlen := 64 - index;
      if inputlen >= partlen {
        BlockJoined(buffer[..], input[..], m, n, inputlen);
        FillBuffer(input, index, m, n - at);
        i := TransformAll(input, partlen, inputlen, m, n);
        index := 0;
      }
    }

    /** MD5Update */
    method Update(input: array<bv8>, inputlen: nat)
      requires Valid() && inputlen <= input.Length && inputlen < WORD - 64 && input != buffer
      modifies this, state, buffer
      ensures Valid() && fed == old(fed) + input[..inputlen]
    {
      hide Blocks, Compress, ChainOf, Carried, Whole;
      ghost var n, m := |fed|, fed + input[..inputlen];
      IndexIsRest(count0, count1, n);
      CarriedIsCount(count0, count1, n, inputlen);
      FrontOf(fed, input[..inputlen]);
      BlocksWhole(INITIAL, m);
      var i, index := 0, count0 / 8 % 64;
      Count(inputlen);
      i, index := Absorb(input, inputlen, index, m, n);
      ghost var front := buffer[..index];
      CopyBytes(buffer, index, input, i, inputlen - i);
      fed := m;
      Restored(buffer[..], m, n, i, index, input[..inputlen], front);
    }

    /** The padding and then the count, as MD5Final feeds them. */
    method FeedPadding()
      requires Valid()
      modifies this, state, buffer
      ensures Valid() && fed == old(fed) + Padding(|old(fed)|) + LittleBytes(BitCount(|old(fed)|))
    {
      hide Blocks, LittleBytes, LittleByte, PadLength, BitCount, Padding, ToWord, ChainOf;
      ghost var n := |fed|;
      IndexIsRest(count0, count1, n);
      var index := count0 / 8 % 64;
      var padlen := if index < 56 then 56 - index else 120 - index;
      PadLengthIs(n);
      var bits := CountBytes();
      var padding := PaddingBytes();
      PaddingIs(padding[..], n);
      Update(padding, padlen);
      Update(bits, 8);
      assert bits[..8] == bits[..];
    }

    /** MD5Final: the digest of everything fed, and nothing else. */
    method Final(digest: array<bv8>)
      requires Valid() && digest.Length == 16 && digest != buffer
      modifies this, state, buffer, digest
      ensures digest[..] == Digest(old(fed))
    {
      hide Blocks, LittleBytes, LittleByte, BitCount, Padding, ChainOf, Digest;
      ghost var m := fed;
      FeedPadding();
      DigestOfWords(m, state[..], fed);
      Encode(digest, state, 16);
      assert digest[..16] == digest[..];
    }

    /** MD5Encode of the counter, taken before the padding is fed. */
    method CountBytes() returns (bits: array<bv8>)
      requires Valid()
      ensures fresh(bits) && bits[..] == LittleBytes(BitCount(|fed|)) && bits.Length == 8
    {
      hide LittleByte, LittleBytes, BitCount, ToWord;
      PairIsBitCount(count0, count1, |fed|);
      var count := new bv32[] [ToWord(count0), ToWord(count1)];
      bits := new bv8[8];
      Encode(bits, count, 8);
      assert bits[..8] == bits[..] && count[..] == BitCount(|fed|);
    }
  }

  /** What was fed before, as a part of the longer message. */
  lemma FrontOf(fed: seq<bv8>, more: seq<bv8>)
    ensures var n, m := |fed|, fed + more;
            && m[n..] == more && Blocks(INITIAL, m[..n - n % 64]) == Blocks(INITIAL, fed)
            && m[n - n % 64..n] == fed[Whole(n)..]
  {
    hide Blocks;
    var n, m := |fed|, fed + more;
    BlocksWhole(INITIAL, fed);
    assert m[..Whole(n)] == fed[..Whole(n)] && m[Whole(n)..n] == fed[Whole(n)..];
  }

  /** The bytes in the buffer and the first of the input make a block of the message. */
  lemma BlockJoined(buffer: seq<bv8>, input: seq<bv8>, m: seq<bv8>, n: nat, inputlen: nat)
    requires inputlen <= |input| && |m| == n + inputlen && input[..inputlen] == m[n..]
    requires n % 64 <= |buffer| && buffer[..n % 64] == m[n - n % 64..n] && 64 - n % 64 <= inputlen
    ensures buffer[..n % 64] + input[..64 - n % 64] == m[n - n % 64..n - n % 64 + 64]
  {
    var k := 64 - n % 64;
    assert input[..k] == input[..inputlen][..k] == m[n..][..k];
  }

  /** The block at i of the input is the block at n + i of the message. */
  lemma BlockAt(input: seq<bv8>, m: seq<bv8>, n: nat, i: nat, inputlen: nat)
    requires inputlen <= |input| && |m| == n + inputlen && input[..inputlen] == m[n..] && i + 64 <= inputlen
    requires (n + i) % 64 == 0
    ensures input[i..i + 64] == m[n + i..n + i + 64] && (n + (i + 64)) % 64 == 0
  {
    assert input[i..i + 64] == input[..inputlen][i..i + 64] == m[n..][i..i + 64];
  }

  lemma DigestOfWords(m: seq<bv8>, w: seq<bv32>, fed: seq<bv8>)
    requires |w| == 4 && fed == m + Padding(|m|) + LittleBytes(BitCount(|m|))
    requires ChainOf(w) == Blocks(INITIAL, fed)
    ensures LittleBytes(w) == Digest(m)
  {
    hide Blocks, LittleBytes, BitCount, Padding;
    StateWords(w);
  }

  lemma StateWords(w: seq<bv32>)
    requires |w| == 4
    ensures w == [ChainOf(w).a, ChainOf(w).b, ChainOf(w).c, ChainOf(w).d]
  {
  }

  lemma PaddingIs(padding: seq<bv8>, n: nat)
    requires |padding| == 64 && forall k :: 1 <= k <= 64 ==> padding[..k] == [0x80] + Zeros(k - 1)
    ensures padding[..PadLength(n)] == Padding(n)
  {
  }

  lemma PadLengthIs(n: nat)
    ensures PadLength(n) == if n % 64 < 56 then 56 - n % 64 else 120 - n % 64
  {
  }

  /** The constant block the padding is taken from. */
  method PaddingBytes() returns (padding: array<bv8>)
    ensures fresh(padding) && padding.Length == 64
    ensures forall k :: 1 <= k <= 64 ==> padding[..k] == [0x80] + Zeros(k - 1)
  {
    padding := new bv8[64](i => if i == 0 then 0x80 else 0);
  }

  function Joined(pieces: seq<array<bv8>>): seq<bv8>
    reads pieces
  {
    if pieces == [] then [] else Joined(pieces[..|pieces| - 1]) + pieces[|pieces| - 1][..]
  }

  lemma JoinedNext(pieces: seq<array<bv8>>, i: nat)
    requires i < |pieces|
    ensures Joined(pieces[..i + 1]) == Joined(pieces[..i]) + pieces[i][..pieces[i].Length]
  {
    assert pieces[..i + 1][..i] == pieces[..i];
    assert pieces[i][..pieces[i].Length] == pieces[i][..];
  }

  /** However a message is cut into pieces, the digest is that of the message. */
  method HashPieces(pieces: seq<array<bv8>>) returns (digest: array<bv8>)
    requires forall i :: 0 <= i < |pieces| ==> pieces[i].Length < WORD - 64
    ensures digest[..] == Digest(Joined(pieces))
  {
    hide Digest, Joined, Context.Valid;
    var context := new Context();
    JoinedNone();
    for i := 0 to |pieces|
      invariant context.Valid() && fresh(context) && fresh(context.state) && fresh(context.buffer)
      invariant context.fed == Joined(pieces[..i])
    {
      JoinedNext(pieces, i);
      context.Update(pieces[i], pieces[i].Length);
    }
    assert pieces[..|pieces|] == pieces;
    digest := new bv8[16];
    context.Final(digest);
  }

  lemma JoinedNone()
    ensures Joined([]) == []
  {
  }

  lemma Restored(buffer: seq<bv8>, m: seq<bv8>, n: nat, i: nat, index: nat, input: seq<bv8>, front: seq<bv8>)
    requires |buffer| == 64 && |m| == n + |input| && m[n..] == input && i <= |input| && index <= n + i
    requires index + (|input| - i) < 64 && (n + i - index) % 64 == 0
    requires buffer[..index] == front == m[n + i - index..n + i]
    requires buffer[index..index + (|input| - i)] == input[i..]
    ensures Whole(|m|) == n + i - index && buffer[..|m| % 64] == m[Whole(|m|)..]
  {
    WholeAt(|m|, n + i - index);
    assert buffer[..|m| % 64] == buffer[..index] + buffer[index..index + (|input| - i)];
    assert m[n + i..] == input[i..];
  }

  lemma PairIsBitCount(c0: nat, c1: nat, n: nat)
    requires c0 < WORD && c1 < WORD && c0 + c1 * WORD == 8 * n % (WORD * WORD)
    ensures BitCount(n) == [ToWord(c0), ToWord(c1)]
  {
    hide ToWord;
    PairParts(c0, c1, 8 * n);
  }

  lemma PairParts(c0: nat, c1: nat, x: nat)
    requires c0 < WORD && c1 < WORD && c0 + c1 * WORD == x % (WORD * WORD)
    ensures x % WORD == c0 && x / WORD % WORD == c1
  {
    var q := x / (WORD * WORD);
    assert x == c0 + WORD * (c1 + q * WORD);
    assert x / WORD == c1 + q * WORD;
  }

  /** MD5Encode */
  method Encode(output: array<bv8>, input: array<bv32>, len: nat)
    requires len == 4 * input.Length && len <= output.Length
    modifies output
    ensures output[..len] == LittleBytes(input[..])
    ensures forall k :: len <= k < output.Length ==> output[k] == old(output[k])
  {
    hide LittleByte;
    var i, j := 0, 0;
    while j < len
      invariant i <= input.Length && j == 4 * i
      invariant forall k :: 0 <= k < j ==> output[k] == LittleByte(input[k / 4], k % 4)
      invariant forall k :: len <= k < output.Length ==> output[k] == old(output[k])
    {
      output[j] := LittleByte(input[i], 0);
      output[j + 1] := LittleByte(input[i], 1);
      output[j + 2] := LittleByte(input[i], 2);
      output[j + 3] := LittleByte(input[i], 3);
      i, j := i + 1, j + 4;
    }
  }

  method CopyBytes(out: array<bv8>, at: nat, input: array<bv8>, from: nat, count: nat)
    requires at + count <= out.Length && from + count <= input.Length && out != input
    modifies out
    ensures out[..at] == old(out[..at]) && out[at..at + count] == input[from..from + count]
  {
    for i := 0 to count
      invariant forall j :: at <= j < at + i ==> out[j] == input[from + j - at]
      invariant forall j :: 0 <= j < at ==> out[j] == old(out[j])
    {
      out[at + i] := input[from + i];
    }
  }
}
