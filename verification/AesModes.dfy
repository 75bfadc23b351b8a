/**
 AesEncrypt and AesDecrypt on byte buffers, CBC in both directions (also in place), and the
 padded messages of device_aes_encrypt and device_aes_decrypt.
 */
module AesModes {
  import opened AesTables
  import opened AesCipher
  import opened AesBlock
  import opened AesKeys

  // ------------------------------------------------------------- blocks as bytes

  function BlockOf(b: seq<bv8>): Block
    requires |b| == 16
  {
    Block(Column(b[0], b[1], b[2], b[3]), Column(b[4], b[5], b[6], b[7]),
          Column(b[8], b[9], b[10], b[11]), Column(b[12], b[13], b[14], b[15]))
  }

  function ByteOf(c: Column, row: nat): bv8
    requires row < 4
  {
    match row
    case 0 => c.b0
    case 1 => c.b1
    case 2 => c.b2
    case _ => c.b3
  }

  function ColumnOf(s: Block, i: nat): Column
    requires i < 4
  {
    match i
    case 0 => s.c0
    case 1 => s.c1
    case 2 => s.c2
    case _ => s.c3
  }

  function BytesOf(s: Block): (b: seq<bv8>)
    ensures |b| == 16
  {
    seq(16, i requires 0 <= i < 16 => ByteOf(ColumnOf(s, i / 4), i % 4))
  }

  lemma BlockOfBytes(s: Block)
    ensures BlockOf(BytesOf(s)) == s
  {
  }

  lemma BytesOfBlock(b: seq<bv8>)
    requires |b| == 16
    ensures BytesOf(BlockOf(b)) == b
  {
  }

  function EncryptBlock(keys: seq<Block>, b: seq<bv8>): (c: seq<bv8>)
    requires |keys| >= 2 && |b| == 16
    ensures |c| == 16
  {
    BytesOf(Cipher(keys, BlockOf(b)))
  }

  function DecryptBlock(keys: seq<Block>, c: seq<bv8>): (b: seq<bv8>)
    requires |keys| >= 2 && |c| == 16
    ensures |b| == 16
  {
    BytesOf(EqInvCipher(keys, BlockOf(c)))
  }

  lemma BlockUndone(keys: seq<Block>, b: seq<bv8>)
    requires |keys| >= 2 && |b| == 16
    ensures DecryptBlock(DecryptionKeys(keys), EncryptBlock(keys, b)) == b
  {
    hide Cipher, EqInvCipher, BlockOf, BytesOf, DecryptionKeys;
    BlockOfBytes(Cipher(keys, BlockOf(b)));
    CipherUndone(keys, BlockOf(b));
    BytesOfBlock(b);
  }

  method LoadState(inBlock: array<bv8>, at: nat) returns (s0: bv32, s1: bv32, s2: bv32, s3: bv32)
    requires at + 16 <= inBlock.Length
    ensures State(s0, s1, s2, s3) == BlockOf(inBlock[at..at + 16])
  {
    s0 := LoadReversedWord(inBlock, at);
    s1 := LoadReversedWord(inBlock, at + 4);
    s2 := LoadReversedWord(inBlock, at + 8);
    s3 := LoadReversedWord(inBlock, at + 12);
    hide Col;
  }

  method LoadReversedWord(inBlock: array<bv8>, at: nat) returns (s: bv32)
    requires at + 4 <= inBlock.Length
    ensures Col(s) == Column(inBlock[at], inBlock[at + 1], inBlock[at + 2], inBlock[at + 3])
  {
    hide LoadWord, ByteReverseWord32, Col, WordOf;
    s := LoadWord(inBlock[at], inBlock[at + 1], inBlock[at + 2], inBlock[at + 3]);
    s := ByteReverseWord32(s);
    LoadReversed(inBlock[at], inBlock[at + 1], inBlock[at + 2], inBlock[at + 3]);
    ColOfWord(Column(inBlock[at], inBlock[at + 1], inBlock[at + 2], inBlock[at + 3]));
  }

  method StoreReversedWord(out: array<bv8>, at: nat, w: bv32)
    requires at + 4 <= out.Length
    modifies out
    ensures Column(out[at], out[at + 1], out[at + 2], out[at + 3]) == Col(w)
    ensures forall i :: 0 <= i < out.Length && !(at <= i < at + 4) ==> out[i] == old(out[i])
  {
    hide ByteReverseWord32, GetByte, Col;
    StoreReversed(w);
    var r := ByteReverseWord32(w);
    out[at], out[at + 1], out[at + 2], out[at + 3] := GetByte(r, 0), GetByte(r, 1), GetByte(r, 2), GetByte(r, 3);
  }

  /** The buffer with sixteen bytes replaced. */
  function Patched(b: seq<bv8>, at: nat, c: seq<bv8>): (r: seq<bv8>)
    requires at + |c| <= |b|
    ensures |r| == |b|
  {
    b[..at] + c + b[at + |c|..]
  }

  lemma PatchedIs(b: seq<bv8>, at: nat, c: seq<bv8>, r: seq<bv8>)
    requires at + |c| <= |b| == |r|
    requires forall j :: at <= j < at + |c| ==> r[j] == c[j - at]
    requires forall j :: 0 <= j < |b| && !(at <= j < at + |c|) ==> r[j] == b[j]
    ensures r == Patched(b, at, c)
  {
  }

  method StoreState(out: array<bv8>, at: nat, s0: bv32, s1: bv32, s2: bv32, s3: bv32)
    requires at + 16 <= out.Length
    modifies out
    ensures out[..] == Patched(old(out[..]), at, BytesOf(State(s0, s1, s2, s3)))
  {
    hide Col;
    StoreReversedWord(out, at, s0);
    StoreReversedWord(out, at + 4, s1);
    StoreReversedWord(out, at + 8, s2);
    StoreReversedWord(out, at + 12, s3);
    ghost var b := out[at..at + 16];
    assert BlockOf(b) == State(s0, s1, s2, s3);
    BytesOfBlock(b);
    PatchedIs(old(out[..]), at, b, out[..]);
  }

  // ------------------------------------------------------------- one block

  /** The guard against a context without a key. */
  predicate Usable(rounds: nat) {
    0 < rounds / 2 <= 7
  }

  /** The round keys the block routines use: two rounds a turn. */
  ghost function KeysOf(aes: Aes): (keys: seq<Block>)
    requires aes.Valid() && Usable(aes.rounds)
    reads aes, aes.key
    ensures |keys| >= 3
  {
    RoundKeys(aes.key[..], aes.rounds / 2 * 2)
  }

  lemma RoundKeyAt(w: seq<bv32>, nr: nat, m: nat)
    requires 4 * nr + 4 <= |w| && m <= nr
    ensures RoundKeys(w, nr)[m] == State(w[4 * m], w[4 * m + 1], w[4 * m + 2], w[4 * m + 3])
  {
  }

  lemma NextRound(keys: seq<Block>, input: Block, i: nat)
    requires i + 1 < |keys|
    ensures Rounds(keys, input, i + 1) == AddRoundKey(MixColumns(ShiftRows(SubBytes(Rounds(keys, input, i)))), keys[i + 1])
  {
  }

  lemma NextInvRound(keys: seq<Block>, input: Block, i: nat)
    requires i + 1 < |keys|
    ensures InvRounds(keys, input, i + 1)
            == AddRoundKey(InvMixColumns(InvShiftRows(InvSubBytes(InvRounds(keys, input, i)))), keys[i + 1])
  {
  }

  /** The loop over the full rounds: two a turn, and one in the last. */
  method EncryptTurns(key: array<bv32>, turns: nat, a0: bv32, a1: bv32, a2: bv32, a3: bv32, ghost input: Block)
    returns (t0: bv32, t1: bv32, t2: bv32, t3: bv32)
    requires key.Length == 60 && 1 <= turns <= 7
    requires State(a0, a1, a2, a3) == Rounds(RoundKeys(key[..], 2 * turns), input, 0)
    ensures State(t0, t1, t2, t3) == Rounds(RoundKeys(key[..], 2 * turns), input, 2 * turns - 1)
  {
    hide State, AddRoundKey, MixColumns, ShiftRows, SubBytes, TeRound, RoundKeys, Rounds;
    ghost var keys := RoundKeys(key[..], 2 * turns);
    var s0, s1, s2, s3 := a0, a1, a2, a3;
    var r, rk := turns, 0;
    var nr := 2 * turns;
    t0, t1, t2, t3 := s0, s1, s2, s3;
    ghost var m := 0;
    while true
      invariant 1 <= r <= 7 && m + 2 * r == nr && rk == 4 * m
      invariant State(s0, s1, s2, s3) == Rounds(keys, input, m)
      decreases r
    {
      FullRound(s0, s1, s2, s3, key[rk + 4], key[rk + 5], key[rk + 6], key[rk + 7]);
      RoundKeyAt(key[..], nr, m + 1);
      NextRound(keys, input, m);
      t0 := TeRound(s0, s1, s2, s3, key[rk + 4]);
      t1 := TeRound(s1, s2, s3, s0, key[rk + 5]);
      t2 := TeRound(s2, s3, s0, s1, key[rk + 6]);
      t3 := TeRound(s3, s0, s1, s2, key[rk + 7]);
      rk := rk + 8;
      m := m + 2;
      r := r - 1;
      if r == 0 { break; }
      FullRound(t0, t1, t2, t3, key[rk], key[rk + 1], key[rk + 2], key[rk + 3]);
      RoundKeyAt(key[..], nr, m);
      NextRound(keys, input, m - 1);
      s0 := TeRound(t0, t1, t2, t3, key[rk]);
      s1 := TeRound(t1, t2, t3, t0, key[rk + 1]);
      s2 := TeRound(t2, t3, t0, t1, key[rk + 2]);
      s3 := TeRound(t3, t0, t1, t2, key[rk + 3]);
    }
  }

  /** The rounds of AesEncrypt on the words of the state. */
  method EncryptState(key: array<bv32>, r: nat, a0: bv32, a1: bv32, a2: bv32, a3: bv32)
    returns (s0: bv32, s1: bv32, s2: bv32, s3: bv32)
    requires key.Length == 60 && 1 <= r <= 7
    ensures State(s0, s1, s2, s3) == Cipher(RoundKeys(key[..], 2 * r), State(a0, a1, a2, a3))
  {
    hide State, AddRoundKey, MixColumns, ShiftRows, SubBytes, TeRound, TeLast, AddWords, RoundKeys, Rounds;
    var rk, nr := 0, 2 * r;
    ghost var keys, input := RoundKeys(key[..], nr), State(a0, a1, a2, a3);
    s0, s1, s2, s3 := a0, a1, a2, a3;
    FirstKey(s0, s1, s2, s3, key[0], key[1], key[2], key[3]);
    RoundKeyAt(key[..], nr, 0);
    RoundZero(keys, input);
    s0, s1, s2, s3 := AddWords(s0, key[0]), AddWords(s1, key[1]), AddWords(s2, key[2]), AddWords(s3, key[3]);
    s0, s1, s2, s3 := EncryptTurns(key, r, s0, s1, s2, s3, input);
    rk := 8 * r;
    LastRound(s0, s1, s2, s3, key[rk], key[rk + 1], key[rk + 2], key[rk + 3]);
    RoundKeyAt(key[..], nr, nr);
    s0, s1, s2, s3 := TeLast(s0, s1, s2, s3, key[rk]), TeLast(s1, s2, s3, s0, key[rk + 1]),
                      TeLast(s2, s3, s0, s1, key[rk + 2]), TeLast(s3, s0, s1, s2, key[rk + 3]);
  }

  method AesEncrypt(aes: Aes, inBlock: array<bv8>, inAt: nat, outBlock: array<bv8>, outAt: nat)
    requires aes.Valid() && inAt + 16 <= inBlock.Length && outAt + 16 <= outBlock.Length
    modifies outBlock
    ensures Usable(aes.rounds) ==>
              outBlock[..] == Patched(old(outBlock[..]), outAt, EncryptBlock(KeysOf(aes), old(inBlock[inAt..inAt + 16])))
    ensures !Usable(aes.rounds) ==> outBlock[..] == old(outBlock[..])
  {
    hide State, BlockOf, BytesOf, Patched, RoundKeys, Cipher;
    var r := aes.rounds / 2;
    if r > 7 || r == 0 {
      return;
    }
    var s0, s1, s2, s3 := LoadState(inBlock, inAt);
    s0, s1, s2, s3 := EncryptState(aes.key, r, s0, s1, s2, s3);
    StoreState(outBlock, outAt, s0, s1, s2, s3);
  }

  lemma RoundZero(keys: seq<Block>, input: Block)
    requires keys != []
    ensures Rounds(keys, input, 0) == AddRoundKey(input, keys[0]) == InvRounds(keys, input, 0)
  {
  }

  /** The loop over the full rounds: two a turn, and one in the last. */
  method DecryptTurns(key: array<bv32>, turns: nat, a0: bv32, a1: bv32, a2: bv32, a3: bv32, ghost input: Block)
    returns (t0: bv32, t1: bv32, t2: bv32, t3: bv32)
    requires key.Length == 60 && 1 <= turns <= 7
    requires State(a0, a1, a2, a3) == InvRounds(RoundKeys(key[..], 2 * turns), input, 0)
    ensures State(t0, t1, t2, t3) == InvRounds(RoundKeys(key[..], 2 * turns), input, 2 * turns - 1)
  {
    hide State, AddRoundKey, InvMixColumns, InvShiftRows, InvSubBytes, TdRound, RoundKeys, InvRounds;
    ghost var keys := RoundKeys(key[..], 2 * turns);
    var s0, s1, s2, s3 := a0, a1, a2, a3;
    var r, rk := turns, 0;
    var nr := 2 * turns;
    t0, t1, t2, t3 := s0, s1, s2, s3;
    ghost var m := 0;
    while true
      invariant 1 <= r <= 7 && m + 2 * r == nr && rk == 4 * m
      invariant State(s0, s1, s2, s3) == InvRounds(keys, input, m)
      decreases r
    {
      FullInvRound(s0, s1, s2, s3, key[rk + 4], key[rk + 5], key[rk + 6], key[rk + 7]);
      RoundKeyAt(key[..], nr, m + 1);
      NextInvRound(keys, input, m);
      t0 := TdRound(s0, s3, s2, s1, key[rk + 4]);
      t1 := TdRound(s1, s0, s3, s2, key[rk + 5]);
      t2 := TdRound(s2, s1, s0, s3, key[rk + 6]);
      t3 := TdRound(s3, s2, s1, s0, key[rk + 7]);
      rk := rk + 8;
      m := m + 2;
      r := r - 1;
      if r == 0 { break; }
      FullInvRound(t0, t1, t2, t3, key[rk], key[rk + 1], key[rk + 2], key[rk + 3]);
      RoundKeyAt(key[..], nr, m);
      NextInvRound(keys, input, m - 1);
      s0 := TdRound(t0, t3, t2, t1, key[rk]);
      s1 := TdRound(t1, t0, t3, t2, key[rk + 1]);
      s2 := TdRound(t2, t1, t0, t3, key[rk + 2]);
      s3 := TdRound(t3, t2, t1, t0, key[rk + 3]);
    }
  }

  /** The rounds of AesDecrypt on the words of the state. */
  method DecryptState(key: array<bv32>, r: nat, a0: bv32, a1: bv32, a2: bv32, a3: bv32)
    returns (s0: bv32, s1: bv32, s2: bv32, s3: bv32)
    requires key.Length == 60 && 1 <= r <= 7
    ensures State(s0, s1, s2, s3) == EqInvCipher(RoundKeys(key[..], 2 * r), State(a0, a1, a2, a3))
  {
    hide State, AddRoundKey, InvMixColumns, InvShiftRows, InvSubBytes, TdRound, TdLast, AddWords, RoundKeys, InvRounds;
    var rk, nr := 0, 2 * r;
    ghost var keys, input := RoundKeys(key[..], nr), State(a0, a1, a2, a3);
    s0, s1, s2, s3 := a0, a1, a2, a3;
    FirstKey(s0, s1, s2, s3, key[0], key[1], key[2], key[3]);
    RoundKeyAt(key[..], nr, 0);
    RoundZero(keys, input);
    s0, s1, s2, s3 := AddWords(s0, key[0]), AddWords(s1, key[1]), AddWords(s2, key[2]), AddWords(s3, key[3]);
    s0, s1, s2, s3 := DecryptTurns(key, r, s0, s1, s2, s3, input);
    rk := 8 * r;
    LastInvRound(s0, s1, s2, s3, key[rk], key[rk + 1], key[rk + 2], key[rk + 3]);
    RoundKeyAt(key[..], nr, nr);
    s0, s1, s2, s3 := TdLast(s0, s3, s2, s1, key[rk]), TdLast(s1, s0, s3, s2, key[rk + 1]),
                      TdLast(s2, s1, s0, s3, key[rk + 2]), TdLast(s3, s2, s1, s0, key[rk + 3]);
  }

  method AesDecrypt(aes: Aes, inBlock: array<bv8>, inAt: nat, outBlock: array<bv8>, outAt: nat)
    requires aes.Valid() && inAt + 16 <= inBlock.Length && outAt + 16 <= outBlock.Length
    modifies outBlock
    ensures Usable(aes.rounds) ==>
              outBlock[..] == Patched(old(outBlock[..]), outAt, DecryptBlock(KeysOf(aes), old(inBlock[inAt..inAt + 16])))
    ensures !Usable(aes.rounds) ==> outBlock[..] == old(outBlock[..])
  {
    hide State, BlockOf, BytesOf, Patched, RoundKeys, EqInvCipher;
    var r := aes.rounds / 2;
    if r > 7 || r == 0 {
      return;
    }
    var s0, s1, s2, s3 := LoadState(inBlock, inAt);
    s0, s1, s2, s3 := DecryptState(aes.key, r, s0, s1, s2, s3);
    StoreState(outBlock, outAt, s0, s1, s2, s3);
  }

  // ------------------------------------------------------------- cipher block chaining

  function XorBytes(a: seq<bv8>, b: seq<bv8>): (c: seq<bv8>)
    requires |a| == |b|
    ensures |c| == |a|
  {
    seq(|a|, i requires 0 <= i < |a| => Add(a[i], b[i]))
  }

  lemma XorBytesTwice(a: seq<bv8>, b: seq<bv8>)
    requires |a| == |b|
    ensures XorBytes(XorBytes(a, b), b) == a && XorBytes(a, b) == XorBytes(b, a)
  {
    hide Add;
    forall i | 0 <= i < |a|
      ensures Add(Add(a[i], b[i]), b[i]) == a[i] && Add(a[i], b[i]) == Add(b[i], a[i])
    {
      AddTwice(a[i], b[i]);
      AddComm(a[i], b[i]);
    }
  }

  type Bytes = seq<bv8>

  /** A function from blocks to blocks. */
  ghost predicate OnBlocks(f: Bytes -> Bytes) {
    forall b: Bytes :: |b| == 16 ==> |f(b)| == 16
  }

  /** CBC encryption of the whole blocks of p with the block cipher f. */
  ghost function CbcEncrypted(f: Bytes -> Bytes, iv: Bytes, p: Bytes): (c: Bytes)
    requires OnBlocks(f) && |iv| == 16
    ensures |c| == |p| / 16 * 16
    decreases |p|
  {
    if |p| < 16 then []
    else
      var first := f(XorBytes(iv, p[..16]));
      first + CbcEncrypted(f, first, p[16..])
  }

  ghost function CbcDecrypted(g: Bytes -> Bytes, iv: Bytes, c: Bytes): (p: Bytes)
    requires OnBlocks(g) && |iv| == 16
    ensures |p| == |c| / 16 * 16
    decreases |c|
  {
    if |c| < 16 then []
    else XorBytes(g(c[..16]), iv) + CbcDecrypted(g, c[..16], c[16..])
  }

  /** Block j of the text, byte by byte with the ciphertext block before it or the vector. */
  function Chained(iv: Bytes, p: Bytes, c: Bytes, j: nat): (b: Bytes)
    requires |iv| == 16 && 16 * j + 16 <= |p| && 16 * j <= |c|
    ensures |b| == 16
  {
    seq(16, i requires 0 <= i < 16 => p[16 * j + i] ^ (if j == 0 then iv[i] else c[16 * j - 16 + i]))
  }

  /** Section 6.2 of NIST SP 800-38A: each block is chained and enciphered. */
  lemma {:induction false} CbcBlock(f: Bytes -> Bytes, iv: Bytes, p: Bytes, j: nat)
    requires OnBlocks(f) && |iv| == 16 && 16 * j + 16 <= |p|
    ensures var c := CbcEncrypted(f, iv, p);
            16 * j + 16 <= |c| && c[16 * j..16 * j + 16] == f(Chained(iv, p, c, j))
    decreases j
  {
    hide CbcEncrypted, OnBlocks;
    CbcStep(f, iv, p);
    var first, c := f(XorBytes(iv, p[..16])), CbcEncrypted(f, iv, p);
    if j == 0 {
      assert XorBytes(iv, p[..16]) == Chained(iv, p, c, 0);
      assert c[..16] == first;
    } else {
      var rest := CbcEncrypted(f, first, p[16..]);
      CbcBlock(f, first, p[16..], j - 1);
      assert c[16 * j..16 * j + 16] == rest[16 * (j - 1)..16 * (j - 1) + 16];
      assert Chained(iv, p, c, j) == Chained(first, p[16..], rest, j - 1);
    }
  }

  /** CBC with any block cipher that can be undone can be undone. */
  lemma {:induction false} CbcUndone(f: Bytes -> Bytes, g: Bytes -> Bytes, iv: Bytes, p: Bytes)
    requires OnBlocks(f) && OnBlocks(g) && |iv| == 16
    requires forall b: Bytes :: |b| == 16 ==> g(f(b)) == b
    ensures CbcDecrypted(g, iv, CbcEncrypted(f, iv, p)) == p[..|p| / 16 * 16]
    decreases |p|
  {
    hide XorBytes, CbcEncrypted, CbcDecrypted, OnBlocks;
    if |p| < 16 {
      CbcShort(f, iv, p);
      CbcShort(g, iv, []);
    } else {
      var first := f(XorBytes(iv, p[..16]));
      var c := CbcEncrypted(f, iv, p);
      CbcStep(f, iv, p);
      assert c[..16] == first && c[16..] == CbcEncrypted(f, first, p[16..]);
      CbcStepBack(g, iv, c);
      XorBytesTwice(p[..16], iv);
      CbcUndone(f, g, first, p[16..]);
      assert p[..|p| / 16 * 16] == p[..16] + p[16..][..|p[16..]| / 16 * 16];
    }
  }

  /** The block cipher of a schedule, and its inverse. */
  ghost function Encrypting(keys: seq<Block>): Bytes -> Bytes
    requires |keys| >= 2
  {
    b => if |b| == 16 then EncryptBlock(keys, b) else b
  }

  ghost function Decrypting(keys: seq<Block>): Bytes -> Bytes
    requires |keys| >= 2
  {
    c => if |c| == 16 then DecryptBlock(keys, c) else c
  }

  lemma CiphersOnBlocks(keys: seq<Block>)
    requires |keys| >= 2
    ensures OnBlocks(Encrypting(keys)) && OnBlocks(Decrypting(keys))
  {
    hide EncryptBlock, DecryptBlock;
  }

  lemma DecryptingUndoes(keys: seq<Block>)
    requires |keys| >= 2
    ensures forall b: Bytes :: |b| == 16 ==> Decrypting(DecryptionKeys(keys))(Encrypting(keys)(b)) == b
  {
    hide EncryptBlock, DecryptBlock, DecryptionKeys;
    forall b: Bytes | |b| == 16
      ensures Decrypting(DecryptionKeys(keys))(Encrypting(keys)(b)) == b
    {
      BlockUndone(keys, b);
    }
  }

  /** xorbuf, byte by byte. */
  method XorBuf(buf: array<bv8>, at: nat, mask: array<bv8>, maskAt: nat, count: nat)
    requires at + count <= buf.Length && maskAt + count <= mask.Length && buf != mask
    modifies buf
    ensures buf[..] == Patched(old(buf[..]), at, XorBytes(old(buf[at..at + count]), mask[maskAt..maskAt + count]))
  {
    hide Add, Patched;
    for i := 0 to count
      invariant forall j :: at <= j < at + i ==> buf[j] == Add(old(buf[j]), mask[maskAt + j - at])
      invariant forall j :: 0 <= j < buf.Length && !(at <= j < at + i) ==> buf[j] == old(buf[j])
    {
      buf[at + i] := Add(buf[at + i], mask[maskAt + i]);
    }
    PatchedIs(old(buf[..]), at, XorBytes(old(buf[at..at + count]), mask[maskAt..maskAt + count]), buf[..]);
  }

  method CopyBytes(out: array<bv8>, at: nat, inp: array<bv8>, from: nat, count: nat)
    requires at + count <= out.Length && from + count <= inp.Length && (out != inp || at == from)
    modifies out
    ensures out[..] == Patched(old(out[..]), at, old(inp[from..from + count]))
  {
    hide Patched;
    for i := 0 to count
      invariant forall j :: at <= j < at + i ==> out[j] == old(inp[from + j - at])
      invariant forall j :: 0 <= j < inp.Length && (out != inp || j >= from + i) ==> inp[j] == old(inp[j])
      invariant forall j :: 0 <= j < out.Length && !(at <= j < at + i) ==> out[j] == old(out[j])
    {
      out[at + i] := inp[from + i];
    }
    PatchedIs(old(out[..]), at, old(inp[from..from + count]), out[..]);
  }

  lemma PatchedWhole(b: Bytes, c: Bytes)
    requires |b| == |c|
    ensures Patched(b, 0, c) == c && b[0..|b|] == b
  {
  }

  lemma PatchedParts(b: Bytes, at: nat, c: Bytes)
    requires at + |c| <= |b|
    ensures var r := Patched(b, at, c);
            r[..at + |c|] == b[..at] + c && r[at + |c|..] == b[at + |c|..]
  {
  }

  lemma EncryptingIs(keys: seq<Block>, b: Bytes)
    requires |keys| >= 2 && |b| == 16
    ensures Encrypting(keys)(b) == EncryptBlock(keys, b) && Decrypting(keys)(b) == DecryptBlock(keys, b)
  {
    hide EncryptBlock, DecryptBlock;
  }

  /** One turn of AesCbcEncrypt: reg becomes the next block of output. */
  method EncryptNext(aes: Aes, out: array<bv8>, inp: array<bv8>, at: nat)
    requires aes.Valid() && Usable(aes.rounds) && at + 16 <= out.Length && at + 16 <= inp.Length
    requires aes.reg != out && aes.reg != inp
    modifies out, aes.reg
    ensures aes.reg[..] == Encrypting(KeysOf(aes))(XorBytes(old(aes.reg[..]), old(inp[at..at + 16])))
    ensures out[..] == Patched(old(out[..]), at, aes.reg[..])
  {
    hide Encrypting, EncryptBlock, XorBytes, Patched, KeysOf;
    XorBlock(aes.reg, inp, at);
    EncryptReg(aes);
    CopyOut(out, at, aes.reg);
  }

  method XorBlock(reg: array<bv8>, inp: array<bv8>, at: nat)
    requires reg.Length == 16 && at + 16 <= inp.Length && reg != inp
    modifies reg
    ensures reg[..] == XorBytes(old(reg[..]), inp[at..at + 16])
  {
    hide XorBytes, Patched;
    PatchedWhole(reg[..], XorBytes(reg[..], inp[at..at + 16]));
    assert reg[0..16] == reg[..];
    XorBuf(reg, 0, inp, at, 16);
  }

  method EncryptReg(aes: Aes)
    requires aes.Valid() && Usable(aes.rounds)
    modifies aes.reg
    ensures aes.reg[..] == Encrypting(KeysOf(aes))(old(aes.reg[..]))
  {
    hide Encrypting, Decrypting, EncryptBlock, DecryptBlock, Patched, KeysOf;
    EncryptingIs(KeysOf(aes), aes.reg[..]);
    PatchedWhole(aes.reg[..], EncryptBlock(KeysOf(aes), aes.reg[..]));
    assert aes.reg[0..16] == aes.reg[..];
    AesEncrypt(aes, aes.reg, 0, aes.reg, 0);
  }

  method CopyOut(out: array<bv8>, at: nat, reg: array<bv8>)
    requires reg.Length == 16 && at + 16 <= out.Length && reg != out
    modifies out
    ensures out[..] == Patched(old(out[..]), at, reg[..])
  {
    hide Patched;
    assert reg[0..16] == reg[..];
    CopyBytes(out, at, reg, 0, 16);
  }

  method CopyIn(reg: array<bv8>, inp: array<bv8>, at: nat)
    requires reg.Length == 16 && at + 16 <= inp.Length && reg != inp
    modifies reg
    ensures reg[..] == inp[at..at + 16]
  {
    hide Patched;
    PatchedWhole(reg[..], inp[at..at + 16]);
    CopyBytes(reg, 0, inp, at, 16);
  }

  lemma CbcStep(f: Bytes -> Bytes, iv: Bytes, p: Bytes)
    requires OnBlocks(f) && |iv| == 16 && |p| >= 16
    ensures var first := f(XorBytes(iv, p[..16]));
            |first| == 16 && CbcEncrypted(f, iv, p) == first + CbcEncrypted(f, first, p[16..])
  {
    hide XorBytes;
  }

  /** AesCbcEncrypt: the blocks of the input, chained from reg; out may be the input buffer itself. */
  method AesCbcEncrypt(aes: Aes, out: array<bv8>, inp: array<bv8>, sz: nat)
    requires aes.Valid() && Usable(aes.rounds) && sz <= out.Length && sz <= inp.Length
    requires aes.reg != out && aes.reg != inp
    modifies out, aes.reg
    ensures OnBlocks(Encrypting(KeysOf(aes)))
    ensures out[..] == Patched(old(out[..]), 0, CbcEncrypted(Encrypting(KeysOf(aes)), old(aes.reg[..]), old(inp[..sz])))
  {
    hide Encrypting, Decrypting, EncryptBlock, XorBytes, Patched, KeysOf, OnBlocks, CbcEncrypted, CbcDecrypted;
    ghost var f, p := Encrypting(KeysOf(aes)), inp[..sz];
    CiphersOnBlocks(KeysOf(aes));
    var blocks, at := sz / 16, 0;
    ghost var all := CbcEncrypted(f, aes.reg[..], p);
    assert p[0..] == p && out[..0] == [];
    while blocks > 0
      invariant 0 <= at && 0 <= blocks && at + 16 * blocks == sz / 16 * 16
      invariant out[..at] + CbcEncrypted(f, aes.reg[..], p[at..]) == all
      invariant out[at..] == old(out[..])[at..]
      invariant inp[at..sz] == p[at..]
      invariant KeysOf(aes) == old(KeysOf(aes))
    {
      blocks := blocks - 1;
      ghost var reg, done, before, given := aes.reg[..], out[..at], out[..], inp[..];
      CbcStep(f, reg, p[at..]);
      BlockAndRest(inp[..], at, sz);
      EncryptNext(aes, out, inp, at);
      PatchedParts(before, at, aes.reg[..]);
      TailKept(inp[..], given, at + 16, sz);
      Regrouped(done, aes.reg[..], CbcEncrypted(f, aes.reg[..], p[at..][16..]));
      assert p[at..][16..] == p[at + 16..];
      at := at + 16;
    }
    CbcShort(f, aes.reg[..], p[at..]);
    PatchedFront(old(out[..]), all, out[..]);
  }

  lemma Regrouped(a: Bytes, b: Bytes, c: Bytes)
    ensures a + (b + c) == (a + b) + c
  {
  }

  /** The block at at and what follows it, up to sz. */
  lemma BlockAndRest(s: Bytes, at: nat, sz: nat)
    requires at + 16 <= sz <= |s|
    ensures s[at..at + 16] == s[at..sz][..16] && s[at + 16..sz] == s[at..sz][16..]
  {
  }

  lemma TailKept(s: Bytes, before: Bytes, k: nat, sz: nat)
    requires k <= sz <= |s| == |before| && s[k..] == before[k..]
    ensures s[k..sz] == before[k..sz]
  {
    assert s[k..sz] == s[k..][..sz - k] && before[k..sz] == before[k..][..sz - k];
  }

  lemma CbcShort(f: Bytes -> Bytes, iv: Bytes, p: Bytes)
    requires OnBlocks(f) && |iv| == 16 && |p| < 16
    ensures CbcEncrypted(f, iv, p) == [] && CbcDecrypted(f, iv, p) == []
  {
  }

  lemma PatchedFront(b: Bytes, c: Bytes, r: Bytes)
    requires |c| <= |b| == |r| && r[..|c|] == c && r[|c|..] == b[|c|..]
    ensures r == Patched(b, 0, c)
  {
  }

  lemma PatchedAgain(b: Bytes, at: nat, c: Bytes, d: Bytes)
    requires at + |c| <= |b| && |d| == |c|
    ensures Patched(Patched(b, at, c), at, d) == Patched(b, at, d) && Patched(b, at, c)[at..at + |c|] == c
  {
  }

  lemma CbcStepBack(g: Bytes -> Bytes, iv: Bytes, c: Bytes)
    requires OnBlocks(g) && |iv| == 16 && |c| >= 16
    ensures |g(c[..16])| == 16 && CbcDecrypted(g, iv, c) == XorBytes(g(c[..16]), iv) + CbcDecrypted(g, c[..16], c[16..])
  {
    hide XorBytes;
  }

  /** One turn of AesCbcDecrypt: tmp keeps the ciphertext block, which becomes the next reg. */
  method DecryptNext(aes: Aes, out: array<bv8>, inp: array<bv8>, at: nat)
    requires aes.Valid() && Usable(aes.rounds) && at + 16 <= out.Length && at + 16 <= inp.Length
    requires aes.reg != out && aes.reg != inp && aes.tmp != out && aes.tmp != inp
    modifies out, aes.reg, aes.tmp
    ensures aes.reg[..] == old(inp[at..at + 16])
    ensures |Decrypting(KeysOf(aes))(old(inp[at..at + 16]))| == 16
    ensures out[..] == Patched(old(out[..]), at, XorBytes(Decrypting(KeysOf(aes))(old(inp[at..at + 16])), old(aes.reg[..])))
  {
    hide Decrypting, DecryptBlock, XorBytes, Patched, KeysOf;
    CopyIn(aes.tmp, inp, at);
    ghost var before := out[..];
    DecryptTmp(aes, out, at);
    XorOut(out, at, aes.reg, before, Decrypting(KeysOf(aes))(aes.tmp[..]));
    CopyIn(aes.reg, aes.tmp, 0);
    assert aes.tmp[0..16] == aes.tmp[..];
  }

  method DecryptTmp(aes: Aes, out: array<bv8>, at: nat)
    requires aes.Valid() && Usable(aes.rounds) && at + 16 <= out.Length && aes.tmp != out
    modifies out
    ensures |Decrypting(KeysOf(aes))(aes.tmp[..])| == 16
    ensures out[..] == Patched(old(out[..]), at, Decrypting(KeysOf(aes))(aes.tmp[..]))
  {
    hide Encrypting, Decrypting, EncryptBlock, DecryptBlock, Patched, KeysOf;
    EncryptingIs(KeysOf(aes), aes.tmp[..]);
    assert aes.tmp[0..16] == aes.tmp[..];
    AesDecrypt(aes, aes.tmp, 0, out, at);
  }

  method XorOut(out: array<bv8>, at: nat, reg: array<bv8>, ghost before: Bytes, ghost c: Bytes)
    requires reg.Length == 16 == |c| && at + 16 <= out.Length == |before| && reg != out
    requires out[..] == Patched(before, at, c)
    modifies out
    ensures out[..] == Patched(before, at, XorBytes(c, reg[..]))
  {
    hide XorBytes, Patched;
    PatchedAgain(before, at, c, XorBytes(c, reg[..]));
    assert out[at..at + 16] == out[..][at..at + 16] && reg[0..16] == reg[..];
    XorBuf(out, at, reg, 0, 16);
  }

  method AesCbcDecrypt(aes: Aes, out: array<bv8>, inp: array<bv8>, sz: nat)
    requires aes.Valid() && Usable(aes.rounds) && sz <= out.Length && sz <= inp.Length
    requires aes.reg != out && aes.reg != inp && aes.tmp != out && aes.tmp != inp
    modifies out, aes.reg, aes.tmp
    ensures OnBlocks(Decrypting(KeysOf(aes)))
    ensures out[..] == Patched(old(out[..]), 0, CbcDecrypted(Decrypting(KeysOf(aes)), old(aes.reg[..]), old(inp[..sz])))
  {
    hide Encrypting, Decrypting, DecryptBlock, XorBytes, Patched, KeysOf, OnBlocks, CbcEncrypted, CbcDecrypted;
    ghost var g, c := Decrypting(KeysOf(aes)), inp[..sz];
    CiphersOnBlocks(KeysOf(aes));
    var blocks, at := sz / 16, 0;
    ghost var all := CbcDecrypted(g, aes.reg[..], c);
    assert c[0..] == c && out[..0] == [];
    while blocks > 0
      invariant 0 <= at && 0 <= blocks && at + 16 * blocks == sz / 16 * 16
      invariant out[..at] + CbcDecrypted(g, aes.reg[..], c[at..]) == all
      invariant out[at..] == old(out[..])[at..]
      invariant inp[at..sz] == c[at..]
      invariant KeysOf(aes) == old(KeysOf(aes))
    {
      blocks := blocks - 1;
      ghost var reg, done, before, given := aes.reg[..], out[..at], out[..], inp[..];
      CbcStepBack(g, reg, c[at..]);
      BlockAndRest(inp[..], at, sz);
      DecryptNext(aes, out, inp, at);
      PatchedParts(before, at, XorBytes(g(c[at..][..16]), reg));
      TailKept(inp[..], given, at + 16, sz);
      Regrouped(done, XorBytes(g(c[at..][..16]), reg), CbcDecrypted(g, aes.reg[..], c[at..][16..]));
      assert c[at..][16..] == c[at + 16..];
      at := at + 16;
    }
    CbcShort(g, aes.reg[..], c[at..]);
    PatchedFront(old(out[..]), all, out[..]);
  }

  // ------------------------------------------------------------- padded messages

  /** How many bytes the padding adds: a whole block when the text is a whole number of blocks. */
  function PaddingLength(n: nat): (k: nat)
    ensures 1 <= k <= 16 && (n + k) % 16 == 0
  {
    16 - n % 16
  }

  /** Section 6.3 of RFC 5652 with blocks of sixteen bytes. */
  function Padded(p: Bytes): (r: Bytes)
    ensures |r| % 16 == 0 && |r| > 0
  {
    p + seq(PaddingLength(|p|), _ => PaddingLength(|p|) as bv8)
  }

  lemma ByteBack(b: bv8)
    ensures (b as int) as bv8 == b
  {
  }

  lemma NumberBack(k: nat)
    requires k <= 16
    ensures (k as bv8) as int == k
  {
  }

  lemma ByteIs(b: bv8, k: nat)
    requires k <= 16
    ensures b as int == k <==> b == k as bv8
  {
    if b as int == k { ByteBack(b); }
    if b == k as bv8 { NumberBack(k); }
  }

  lemma PaddedLength(n: nat, m: nat)
    ensures n < m <= n + 16 && m % 16 == 0 <==> m == n + PaddingLength(n)
  {
  }

  lemma PaddedParts(p: Bytes, r: Bytes)
    ensures r == Padded(p) <==>
            && |r| == |p| + PaddingLength(|p|) && p <= r
            && forall j :: |p| <= j < |r| ==> r[j] == PaddingLength(|p|) as bv8
  {
    hide PaddingLength;
    if |r| == |p| + PaddingLength(|p|) && p <= r && forall j :: |p| <= j < |r| ==> r[j] == PaddingLength(|p|) as bv8 {
      assert r == Padded(p);
    }
  }

  /** A padded text, and no other byte string, is the text followed by one to sixteen bytes up to a
      whole number of blocks, each of which tells how many they are. */
  lemma PaddedIs(p: Bytes, r: Bytes)
    ensures r == Padded(p) <==>
            && p <= r && |p| < |r| <= |p| + 16 && |r| % 16 == 0
            && forall j :: |p| <= j < |r| ==> r[j] as int == |r| - |p|
  {
    hide Padded, PaddingLength;
    PaddedLength(|p|, |r|);
    PaddedParts(p, r);
    forall j | 0 <= j < |r|
      ensures r[j] as int == PaddingLength(|p|) <==> r[j] == PaddingLength(|p|) as bv8
    {
      ByteIs(r[j], PaddingLength(|p|));
    }
  }

  /** Where device_aes_decrypt says the text ends. */
  function Unpadded(r: Bytes): int
    requires r != []
  {
    |r| - r[|r| - 1] as int
  }

  lemma PaddingUndone(p: Bytes)
    ensures Unpadded(Padded(p)) == |p| && Padded(p)[..|p|] == p
  {
  }

  /** Everything device_aes_encrypt is for: the receiver with the same key and vector gets the
      text and its length back, for every key size. */
  lemma MessageRoundTrip(userKey: Bytes, iv: Bytes, p: Bytes)
    requires |userKey| in {16, 24, 32} && |iv| == 16
    ensures var keys := Schedule(KeyWords(userKey));
            && OnBlocks(Encrypting(keys)) && OnBlocks(Decrypting(DecryptionKeys(keys)))
            && var d := CbcDecrypted(Decrypting(DecryptionKeys(keys)), iv, CbcEncrypted(Encrypting(keys), iv, Padded(p)));
               |d| == |Padded(p)| && Unpadded(d) == |p| && d[..|p|] == p
  {
    hide Encrypting, Decrypting, OnBlocks, Padded, CbcEncrypted, CbcDecrypted, Unpadded, DecryptionKeys, Schedule;
    var keys := Schedule(KeyWords(userKey));
    CiphersOnBlocks(keys);
    CiphersOnBlocks(DecryptionKeys(keys));
    DecryptingUndoes(keys);
    CbcUndone(Encrypting(keys), Decrypting(DecryptionKeys(keys)), iv, Padded(p));
    PaddingUndone(p);
    assert Padded(p)[..|Padded(p)|] == Padded(p);
  }

  lemma KeysAreSet(aes: Aes, userKey: Bytes, decryption: bool)
    requires ScheduleSet(aes, userKey, decryption)
    ensures Usable(aes.rounds)
    ensures KeysOf(aes) == if decryption then DecryptionKeys(Schedule(KeyWords(userKey))) else Schedule(KeyWords(userKey))
  {
    hide RoundKeys, DecryptionKeys, Schedule;
    assert aes.rounds / 2 * 2 == aes.rounds;
  }

  /** The length after rounding up, before a full block of padding is added. */
  function RoundedUp(n: nat): nat {
    if n % 16 == 0 then n else (n / 16 + 1) * 16
  }

  /** How far device_aes_encrypt writes: past the result by a block when the text fills its blocks. */
  function Reach(n: nat): nat {
    if n % 16 == 0 then n + 32 else RoundedUp(n)
  }

  /** The check of the room lets a call through when the text rounded up fits. Then the writing
      stays inside the room, and the result fits it, exactly under these conditions. */
  lemma AcceptedStaysInside(p: Bytes, room: int)
    requires RoundedUp(|p|) <= room
    ensures Reach(|p|) <= room <==> |p| % 16 != 0 || |p| + 32 <= room
    ensures |Padded(p)| <= room <==> |p| % 16 != 0 || |p| + 16 <= room
  {
    assert |Padded(p)| == |p| + PaddingLength(|p|);
  }

  /** A text of one block in a room of one block is let through: two blocks are the result and
      three are written. */
  lemma BlockLeavesRoom(p: Bytes)
    requires |p| == 16
    ensures RoundedUp(|p|) == 16 && |Padded(p)| == 32 && Reach(|p|) == 48
  {
  }

  lemma FrontReplaced(b: Bytes, c: Bytes)
    requires |c| <= |b|
    ensures var r := Patched(b, 0, c);
            r[..|c|] == c && forall j :: |c| <= j < |b| ==> r[j] == b[j]
  {
  }

  method PadText(out: array<bv8>, plainLength: nat, ghost p: Bytes) returns (dat_len: nat)
    requires |p| == plainLength && Reach(plainLength) <= out.Length && out[..plainLength] == p
    modifies out
    ensures dat_len == |Padded(p)| <= Reach(plainLength) && out[..dat_len] == Padded(p)
    ensures plainLength < dat_len <= plainLength + 16 && dat_len % 16 == 0 && out[..plainLength] == p
    ensures forall j :: plainLength <= j < dat_len ==> out[j] as int == dat_len - plainLength
    ensures forall j :: dat_len <= j < Reach(plainLength) ==> out[j] == 0x10
    ensures forall j :: Reach(plainLength) <= j < out.Length ==> out[j] == old(out[j])
  {
    dat_len := RoundedUp(plainLength);
    var k := dat_len - plainLength;
    if k > 0 {
      for i := plainLength to dat_len
        invariant out[..plainLength] == p
        invariant forall j :: plainLength <= j < i ==> out[j] == k as bv8
        invariant forall j :: dat_len <= j < out.Length ==> out[j] == old(out[j])
      {
        out[i] := k as bv8;
      }
    } else {
      dat_len := dat_len + 16;
      for i := plainLength to dat_len + 16
        invariant out[..plainLength] == p
        invariant forall j :: plainLength <= j < i ==> out[j] == 0x10
        invariant forall j :: dat_len + 16 <= j < out.Length ==> out[j] == old(out[j])
      {
        out[i] := 0x10;
      }
    }
    assert PaddingLength(plainLength) == dat_len - plainLength;
    assert out[..dat_len] == Padded(p);
    PaddedIs(p, out[..dat_len]);
    assert forall j :: plainLength <= j < dat_len ==> out[..dat_len][j] as int == dat_len - plainLength;
  }

  /** device_aes_encrypt. The whole output buffer: the ciphertext of the padded text and, behind
      it, the block of padding that the loop writes too many for a text of whole blocks. */
  method DeviceAesEncrypt(key: array<bv8>, iv: array<bv8>, plainIn: array<bv8>, plainLength: nat,
                          encOut: array<bv8>, maxOutLen: int) returns (ret: int)
    requires key.Length in {16, 24, 32} && iv.Length == 16 && plainLength <= plainIn.Length
    requires RoundedUp(plainLength) <= maxOutLen ==> Reach(plainLength) <= encOut.Length
    modifies encOut
    ensures maxOutLen < RoundedUp(plainLength) ==> ret == -1 && encOut[..] == old(encOut[..])
    ensures maxOutLen >= RoundedUp(plainLength) ==>
              && var f := Encrypting(Schedule(old(KeyWords(key[..]))));
              && OnBlocks(f) && ret == |Padded(old(plainIn[..plainLength]))| <= Reach(plainLength)
              && encOut[..ret] == CbcEncrypted(f, old(iv[..]), Padded(old(plainIn[..plainLength])))
              && (forall j :: ret <= j < Reach(plainLength) ==> encOut[j] == 0x10)
              && (forall j :: Reach(plainLength) <= j < encOut.Length ==> encOut[j] == old(encOut[j]))
  {
    hide Encrypting, Decrypting, Schedule, KeyWords, OnBlocks, CbcEncrypted, Patched, Padded, KeysOf, ScheduleSet;
    var enc := new Aes();
    ghost var userKey, p := key[..], plainIn[..plainLength];
    var ret0 := AesSetKey(enc, key, iv, false);
    KeysAreSet(enc, userKey, false);
    var dat_len := RoundedUp(plainLength);
    if maxOutLen < dat_len {
      return -1;
    }
    FrontReplaced(encOut[..], p);
    assert plainIn[0..plainLength] == p;
    CopyBytes(encOut, 0, plainIn, 0, plainLength);
    assert encOut[..plainLength] == encOut[..][..plainLength];
    dat_len := PadText(encOut, plainLength, p);
    CiphersOnBlocks(KeysOf(enc));
    FrontReplaced(encOut[..], CbcEncrypted(Encrypting(KeysOf(enc)), enc.reg[..], encOut[..dat_len]));
    AesCbcEncrypt(enc, encOut, encOut, dat_len);
    ret := dat_len;
  }

  /** device_aes_decrypt; it reads the last byte of what it decrypted, so there has to be one. */
  method DeviceAesDecrypt(key: array<bv8>, iv: array<bv8>, encIn: array<bv8>, encLength: nat,
                          plainOut: array<bv8>, maxOutLen: int) returns (ret: int)
    requires key.Length in {16, 24, 32} && iv.Length == 16 && 0 < encLength <= encIn.Length
    requires encLength <= maxOutLen ==> encLength <= plainOut.Length
    modifies plainOut
    ensures maxOutLen < encLength ==> ret == -1 && plainOut[..] == old(plainOut[..])
    ensures maxOutLen >= encLength ==>
              && var g := Decrypting(DecryptionKeys(Schedule(old(KeyWords(key[..])))));
              && OnBlocks(g) && ret == Unpadded(plainOut[..encLength])
              && plainOut[..] == Patched(old(plainOut[..]), 0, CbcDecrypted(g, old(iv[..]), old(encIn[..encLength])))
  {
    hide Encrypting, Decrypting, Schedule, DecryptionKeys, KeyWords, OnBlocks, CbcDecrypted, Patched, KeysOf, ScheduleSet;
    if maxOutLen < encLength {
      return -1;
    }
    var dat_len := encLength;
    var dec := new Aes();
    ghost var userKey := key[..];
    var ret0 := AesSetKey(dec, key, iv, true);
    KeysAreSet(dec, userKey, true);
    AesCbcDecrypt(dec, plainOut, encIn, dat_len);
    ret := dat_len - plainOut[dat_len - 1] as int;
  }
}
