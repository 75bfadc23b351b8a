/**
 The AES block cipher as FIPS 197 defines it, on columns of bytes: the cipher of section 5.1,
 the equivalent inverse cipher of section 5.3.5, and the proof that the second undoes the first.
 */
module AesCipher {
  import opened AesTables

  /** A column of the state, row 0 first. */
  datatype Column = Column(b0: bv8, b1: bv8, b2: bv8, b3: bv8)
  datatype Block = Block(c0: Column, c1: Column, c2: Column, c3: Column)

  // ------------------------------------------------------------- the transformations

  /** Addition in GF(2^8). */
  function Add(a: bv8, b: bv8): bv8 {
    a ^ b
  }

  function Xor(a: Column, b: Column): Column {
    Column(Add(a.b0, b.b0), Add(a.b1, b.b1), Add(a.b2, b.b2), Add(a.b3, b.b3))
  }

  function AddRoundKey(s: Block, k: Block): Block {
    Block(Xor(s.c0, k.c0), Xor(s.c1, k.c1), Xor(s.c2, k.c2), Xor(s.c3, k.c3))
  }

  function SubColumn(c: Column): Column {
    Column(S(c.b0), S(c.b1), S(c.b2), S(c.b3))
  }

  function InvSubColumn(c: Column): Column {
    Column(Si(c.b0), Si(c.b1), Si(c.b2), Si(c.b3))
  }

  function SubBytes(s: Block): Block {
    Block(SubColumn(s.c0), SubColumn(s.c1), SubColumn(s.c2), SubColumn(s.c3))
  }

  function InvSubBytes(s: Block): Block {
    Block(InvSubColumn(s.c0), InvSubColumn(s.c1), InvSubColumn(s.c2), InvSubColumn(s.c3))
  }

  /** Row i moves i columns to the left. */
  function ShiftRows(s: Block): Block {
    Block(Column(s.c0.b0, s.c1.b1, s.c2.b2, s.c3.b3), Column(s.c1.b0, s.c2.b1, s.c3.b2, s.c0.b3),
          Column(s.c2.b0, s.c3.b1, s.c0.b2, s.c1.b3), Column(s.c3.b0, s.c0.b1, s.c1.b2, s.c2.b3))
  }

  function InvShiftRows(s: Block): Block {
    Block(Column(s.c0.b0, s.c3.b1, s.c2.b2, s.c1.b3), Column(s.c1.b0, s.c0.b1, s.c3.b2, s.c2.b3),
          Column(s.c2.b0, s.c1.b1, s.c0.b2, s.c3.b3), Column(s.c3.b0, s.c2.b1, s.c1.b2, s.c0.b3))
  }

  function Mix4(k0: bv4, k1: bv4, k2: bv4, k3: bv4, a: bv8, b: bv8, c: bv8, d: bv8): bv8 {
    Add(Add(Mul(k0, a), Mul(k1, b)), Add(Mul(k2, c), Mul(k3, d)))
  }

  /** Section 5.1.3 of FIPS 197. */
  function MixColumn(c: Column): Column {
    Column(Mix4(2, 3, 1, 1, c.b0, c.b1, c.b2, c.b3), Mix4(1, 2, 3, 1, c.b0, c.b1, c.b2, c.b3),
           Mix4(1, 1, 2, 3, c.b0, c.b1, c.b2, c.b3), Mix4(3, 1, 1, 2, c.b0, c.b1, c.b2, c.b3))
  }

  /** Section 5.3.3. */
  function InvMixColumn(c: Column): Column {
    Column(Mix4(14, 11, 13, 9, c.b0, c.b1, c.b2, c.b3), Mix4(9, 14, 11, 13, c.b0, c.b1, c.b2, c.b3),
           Mix4(13, 9, 14, 11, c.b0, c.b1, c.b2, c.b3), Mix4(11, 13, 9, 14, c.b0, c.b1, c.b2, c.b3))
  }

  function MixColumns(s: Block): Block {
    Block(MixColumn(s.c0), MixColumn(s.c1), MixColumn(s.c2), MixColumn(s.c3))
  }

  function InvMixColumns(s: Block): Block {
    Block(InvMixColumn(s.c0), InvMixColumn(s.c1), InvMixColumn(s.c2), InvMixColumn(s.c3))
  }

  // ------------------------------------------------------------- the ciphers

  /** The state after the initial round key and i full rounds. */
  function Rounds(keys: seq<Block>, input: Block, i: nat): Block
    requires i < |keys|
  {
    if i == 0 then AddRoundKey(input, keys[0])
    else AddRoundKey(MixColumns(ShiftRows(SubBytes(Rounds(keys, input, i - 1)))), keys[i])
  }

  /** Section 5.1. */
  function Cipher(keys: seq<Block>, input: Block): Block
    requires |keys| >= 2
  {
    AddRoundKey(ShiftRows(SubBytes(Rounds(keys, input, |keys| - 2))), keys[|keys| - 1])
  }

  function InvRounds(keys: seq<Block>, input: Block, i: nat): Block
    requires i < |keys|
  {
    if i == 0 then AddRoundKey(input, keys[0])
    else AddRoundKey(InvMixColumns(InvShiftRows(InvSubBytes(InvRounds(keys, input, i - 1)))), keys[i])
  }

  /** Section 5.3.5. */
  function EqInvCipher(keys: seq<Block>, input: Block): Block
    requires |keys| >= 2
  {
    AddRoundKey(InvShiftRows(InvSubBytes(InvRounds(keys, input, |keys| - 2))), keys[|keys| - 1])
  }

  /** The schedule of section 5.3.5: reversed, and mixed except at both ends. */
  function DecryptionKeys(keys: seq<Block>): (r: seq<Block>)
    ensures |r| == |keys|
  {
    seq(|keys|, i requires 0 <= i < |keys| =>
      if i == 0 || i == |keys| - 1 then keys[|keys| - 1 - i] else InvMixColumns(keys[|keys| - 1 - i]))
  }

  // ------------------------------------------------------------- each step undone

  lemma ShiftAdds(a: bv8, b: bv8)
    ensures (a ^ b) << 1 == (a << 1) ^ (b << 1)
  {
  }

  lemma TopBitAdds(a: bv8, b: bv8)
    ensures ((a ^ b) & 0x80 == 0) == ((a & 0x80 == 0) == (b & 0x80 == 0))
  {
  }

  lemma ReduceAdds(a: bv8, b: bv8, p: bool, q: bool)
    ensures (a ^ b) ^ (if p == q then 0 else 0x1b) == (a ^ (if p then 0 else 0x1b)) ^ (b ^ (if q then 0 else 0x1b))
  {
    if p { if q {} else {} } else { if q {} else {} }
  }

  lemma XtimeAdds(a: bv8, b: bv8)
    ensures Xtime(Add(a, b)) == Add(Xtime(a), Xtime(b))
  {
    ShiftAdds(a, b);
    TopBitAdds(a, b);
    ReduceAdds(a << 1, b << 1, a & 0x80 == 0, b & 0x80 == 0);
  }

  function Keep(b: bool, a: bv8): bv8 {
    if b then a else 0
  }

  lemma KeepAdds(k: bool, a: bv8, b: bv8)
    ensures Keep(k, Add(a, b)) == Add(Keep(k, a), Keep(k, b))
  {
  }

  /** Mul, as the sum of the multiples it keeps. */
  function Times(k: bv4, a: bv8): bv8 {
    var x := Xtime(a);
    var y := Xtime(x);
    var z := Xtime(y);
    Add(Add(Keep(k & 1 != 0, a), Keep(k & 2 != 0, x)), Add(Keep(k & 4 != 0, y), Keep(k & 8 != 0, z)))
  }

  lemma MulIsTimes(k: bv4, a: bv8)
    ensures Mul(k, a) == Times(k, a)
  {
    hide Xtime;
  }

  lemma AddAssoc(p: bv8, q: bv8, r: bv8)
    ensures Add(Add(p, q), r) == Add(p, Add(q, r))
  {
  }

  lemma AddComm(p: bv8, q: bv8)
    ensures Add(p, q) == Add(q, p)
  {
  }

  lemma AddSwap(p: bv8, q: bv8, r: bv8, s: bv8)
    ensures Add(Add(p, q), Add(r, s)) == Add(Add(p, r), Add(q, s))
  {
    hide Add;
    AddAssoc(p, q, Add(r, s));
    AddAssoc(q, r, s);
    AddComm(q, r);
    AddAssoc(r, q, s);
    AddAssoc(p, r, Add(q, s));
  }

  lemma AddShuffle(p: bv8, q: bv8, r: bv8, s: bv8, t: bv8, u: bv8, v: bv8, w: bv8)
    ensures Add(Add(Add(p, t), Add(q, u)), Add(Add(r, v), Add(s, w)))
            == Add(Add(Add(p, q), Add(r, s)), Add(Add(t, u), Add(v, w)))
  {
    hide Add;
    AddSwap(p, t, q, u);
    AddSwap(r, v, s, w);
    AddSwap(Add(p, q), Add(t, u), Add(r, s), Add(v, w));
  }

  lemma MulAdds(k: bv4, a: bv8, b: bv8)
    ensures Mul(k, Add(a, b)) == Add(Mul(k, a), Mul(k, b))
  {
    hide Xtime, Add, Keep, Mul;
    var x, y := Xtime(a), Xtime(b);
    var x2, y2 := Xtime(x), Xtime(y);
    MulIsTimes(k, a);
    MulIsTimes(k, b);
    MulIsTimes(k, Add(a, b));
    XtimeAdds(a, b);
    XtimeAdds(x, y);
    XtimeAdds(x2, y2);
    KeepAdds(k & 1 != 0, a, b);
    KeepAdds(k & 2 != 0, x, y);
    KeepAdds(k & 4 != 0, x2, y2);
    KeepAdds(k & 8 != 0, Xtime(x2), Xtime(y2));
    AddShuffle(Keep(k & 1 != 0, a), Keep(k & 2 != 0, x), Keep(k & 4 != 0, x2), Keep(k & 8 != 0, Xtime(x2)),
               Keep(k & 1 != 0, b), Keep(k & 2 != 0, y), Keep(k & 4 != 0, y2), Keep(k & 8 != 0, Xtime(y2)));
  }

  lemma Mix4Adds(k0: bv4, k1: bv4, k2: bv4, k3: bv4, c: Column, d: Column)
    ensures var e := Xor(c, d);
            Mix4(k0, k1, k2, k3, e.b0, e.b1, e.b2, e.b3)
            == Add(Mix4(k0, k1, k2, k3, c.b0, c.b1, c.b2, c.b3), Mix4(k0, k1, k2, k3, d.b0, d.b1, d.b2, d.b3))
  {
    hide Mul, Add;
    MulAdds(k0, c.b0, d.b0);
    MulAdds(k1, c.b1, d.b1);
    MulAdds(k2, c.b2, d.b2);
    MulAdds(k3, c.b3, d.b3);
    AddShuffle(Mul(k0, c.b0), Mul(k1, c.b1), Mul(k2, c.b2), Mul(k3, c.b3),
               Mul(k0, d.b0), Mul(k1, d.b1), Mul(k2, d.b2), Mul(k3, d.b3));
  }

  /** InvMixColumn is linear. */
  lemma InvMixAdds(c: Column, d: Column)
    ensures InvMixColumn(Xor(c, d)) == Xor(InvMixColumn(c), InvMixColumn(d))
  {
    hide Mix4, Add;
    Mix4Adds(14, 11, 13, 9, c, d);
    Mix4Adds(9, 14, 11, 13, c, d);
    Mix4Adds(13, 9, 14, 11, c, d);
    Mix4Adds(11, 13, 9, 14, c, d);
  }

  /** The share of one input byte in one output byte of InvMixColumn after MixColumn. */
  function Through(k0: bv4, k1: bv4, k2: bv4, k3: bv4, j0: bv4, j1: bv4, j2: bv4, j3: bv4, a: bv8): bv8 {
    Mix4(k0, k1, k2, k3, Mul(j0, a), Mul(j1, a), Mul(j2, a), Mul(j3, a))
  }

  function TimesThrough(k0: bv4, k1: bv4, k2: bv4, k3: bv4, j0: bv4, j1: bv4, j2: bv4, j3: bv4, a: bv8): bv8 {
    Add(Add(Times(k0, Times(j0, a)), Times(k1, Times(j1, a))), Add(Times(k2, Times(j2, a)), Times(k3, Times(j3, a))))
  }

  lemma ThroughIsTimes(k0: bv4, k1: bv4, k2: bv4, k3: bv4, j0: bv4, j1: bv4, j2: bv4, j3: bv4, a: bv8)
    ensures Through(k0, k1, k2, k3, j0, j1, j2, j3, a) == TimesThrough(k0, k1, k2, k3, j0, j1, j2, j3, a)
  {
    hide Mul, Times, Add;
    MulIsTimes(j0, a);
    MulIsTimes(j1, a);
    MulIsTimes(j2, a);
    MulIsTimes(j3, a);
    MulIsTimes(k0, Mul(j0, a));
    MulIsTimes(k1, Mul(j1, a));
    MulIsTimes(k2, Mul(j2, a));
    MulIsTimes(k3, Mul(j3, a));
  }

  /** Turning both the row and the column by one place changes nothing. */
  lemma Turn(k0: bv4, k1: bv4, k2: bv4, k3: bv4, j0: bv4, j1: bv4, j2: bv4, j3: bv4, a: bv8)
    ensures Through(k0, k1, k2, k3, j0, j1, j2, j3, a) == Through(k1, k2, k3, k0, j1, j2, j3, j0, a)
  {
    hide Mul, Add;
    var p, q, r, s := Mul(k0, Mul(j0, a)), Mul(k1, Mul(j1, a)), Mul(k2, Mul(j2, a)), Mul(k3, Mul(j3, a));
    AddAssoc(p, q, Add(r, s));
    AddAssoc(q, r, s);
    AddComm(p, Add(Add(q, r), s));
    AddAssoc(Add(q, r), s, p);
  }

  lemma Share0(a: bv8)
    ensures TimesThrough(14, 11, 13, 9, 2, 1, 1, 3, a) == a
  {
  }

  lemma Share1(a: bv8)
    ensures TimesThrough(9, 14, 11, 13, 2, 1, 1, 3, a) == 0
  {
  }

  lemma Share2(a: bv8)
    ensures TimesThrough(13, 9, 14, 11, 2, 1, 1, 3, a) == 0
  {
  }

  lemma Share3(a: bv8)
    ensures TimesThrough(11, 13, 9, 14, 2, 1, 1, 3, a) == 0
  {
  }

  /** Every byte comes back in its own row and vanishes from the others. */
  lemma Unmixed(a: bv8)
    ensures Through(14, 11, 13, 9, 2, 1, 1, 3, a) == a
    ensures Through(9, 14, 11, 13, 2, 1, 1, 3, a) == 0
    ensures Through(13, 9, 14, 11, 2, 1, 1, 3, a) == 0
    ensures Through(11, 13, 9, 14, 2, 1, 1, 3, a) == 0
    ensures Through(14, 11, 13, 9, 3, 2, 1, 1, a) == 0
    ensures Through(9, 14, 11, 13, 3, 2, 1, 1, a) == a
    ensures Through(13, 9, 14, 11, 3, 2, 1, 1, a) == 0
    ensures Through(11, 13, 9, 14, 3, 2, 1, 1, a) == 0
    ensures Through(14, 11, 13, 9, 1, 3, 2, 1, a) == 0
    ensures Through(9, 14, 11, 13, 1, 3, 2, 1, a) == 0
    ensures Through(13, 9, 14, 11, 1, 3, 2, 1, a) == a
    ensures Through(11, 13, 9, 14, 1, 3, 2, 1, a) == 0
    ensures Through(14, 11, 13, 9, 1, 1, 3, 2, a) == 0
    ensures Through(9, 14, 11, 13, 1, 1, 3, 2, a) == 0
    ensures Through(13, 9, 14, 11, 1, 1, 3, 2, a) == 0
    ensures Through(11, 13, 9, 14, 1, 1, 3, 2, a) == a
  {
    hide Through, TimesThrough, Mul, Times;
    Share0(a);
    ThroughIsTimes(14, 11, 13, 9, 2, 1, 1, 3, a);
    Share1(a);
    ThroughIsTimes(9, 14, 11, 13, 2, 1, 1, 3, a);
    Share2(a);
    ThroughIsTimes(13, 9, 14, 11, 2, 1, 1, 3, a);
    Share3(a);
    ThroughIsTimes(11, 13, 9, 14, 2, 1, 1, 3, a);
    Turn(14, 11, 13, 9, 3, 2, 1, 1, a);
    Turn(9, 14, 11, 13, 3, 2, 1, 1, a);
    Turn(13, 9, 14, 11, 3, 2, 1, 1, a);
    Turn(11, 13, 9, 14, 3, 2, 1, 1, a);
    Turn(14, 11, 13, 9, 1, 3, 2, 1, a);
    Turn(11, 13, 9, 14, 3, 2, 1, 1, a);
    Turn(9, 14, 11, 13, 1, 3, 2, 1, a);
    Turn(14, 11, 13, 9, 3, 2, 1, 1, a);
    Turn(13, 9, 14, 11, 1, 3, 2, 1, a);
    Turn(9, 14, 11, 13, 3, 2, 1, 1, a);
    Turn(11, 13, 9, 14, 1, 3, 2, 1, a);
    Turn(13, 9, 14, 11, 3, 2, 1, 1, a);
    Turn(14, 11, 13, 9, 1, 1, 3, 2, a);
    Turn(11, 13, 9, 14, 1, 3, 2, 1, a);
    Turn(13, 9, 14, 11, 3, 2, 1, 1, a);
    Turn(9, 14, 11, 13, 1, 1, 3, 2, a);
    Turn(14, 11, 13, 9, 1, 3, 2, 1, a);
    Turn(11, 13, 9, 14, 3, 2, 1, 1, a);
    Turn(13, 9, 14, 11, 1, 1, 3, 2, a);
    Turn(9, 14, 11, 13, 1, 3, 2, 1, a);
    Turn(14, 11, 13, 9, 3, 2, 1, 1, a);
    Turn(11, 13, 9, 14, 1, 1, 3, 2, a);
    Turn(13, 9, 14, 11, 1, 3, 2, 1, a);
    Turn(9, 14, 11, 13, 3, 2, 1, 1, a);
  }

  lemma MulMix(k: bv4, j0: bv4, j1: bv4, j2: bv4, j3: bv4, c: Column)
    ensures Mul(k, Mix4(j0, j1, j2, j3, c.b0, c.b1, c.b2, c.b3))
            == Add(Add(Mul(k, Mul(j0, c.b0)), Mul(k, Mul(j1, c.b1))), Add(Mul(k, Mul(j2, c.b2)), Mul(k, Mul(j3, c.b3))))
  {
    hide Mul, Add;
    var p, q, r, s := Mul(j0, c.b0), Mul(j1, c.b1), Mul(j2, c.b2), Mul(j3, c.b3);
    MulAdds(k, Add(p, q), Add(r, s));
    MulAdds(k, p, q);
    MulAdds(k, r, s);
  }

  /** An output byte of InvMixColumn after MixColumn is the sum of the shares of the input bytes. */
  lemma SumOfShares(k0: bv4, k1: bv4, k2: bv4, k3: bv4, c: Column)
    ensures var m := MixColumn(c);
            Mix4(k0, k1, k2, k3, m.b0, m.b1, m.b2, m.b3)
            == Add(Add(Through(k0, k1, k2, k3, 2, 1, 1, 3, c.b0), Through(k0, k1, k2, k3, 3, 2, 1, 1, c.b1)),
                   Add(Through(k0, k1, k2, k3, 1, 3, 2, 1, c.b2), Through(k0, k1, k2, k3, 1, 1, 3, 2, c.b3)))
  {
    hide Mul, Add;
    MulMix(k0, 2, 3, 1, 1, c);
    MulMix(k1, 1, 2, 3, 1, c);
    MulMix(k2, 1, 1, 2, 3, c);
    MulMix(k3, 3, 1, 1, 2, c);
    var q00, q01, q02, q03 := Mul(k0, Mul(2, c.b0)), Mul(k0, Mul(3, c.b1)), Mul(k0, Mul(1, c.b2)), Mul(k0, Mul(1, c.b3));
    var q10, q11, q12, q13 := Mul(k1, Mul(1, c.b0)), Mul(k1, Mul(2, c.b1)), Mul(k1, Mul(3, c.b2)), Mul(k1, Mul(1, c.b3));
    var q20, q21, q22, q23 := Mul(k2, Mul(1, c.b0)), Mul(k2, Mul(1, c.b1)), Mul(k2, Mul(2, c.b2)), Mul(k2, Mul(3, c.b3));
    var q30, q31, q32, q33 := Mul(k3, Mul(3, c.b0)), Mul(k3, Mul(1, c.b1)), Mul(k3, Mul(1, c.b2)), Mul(k3, Mul(2, c.b3));
    Transpose(q00, q01, q02, q03, q10, q11, q12, q13, q20, q21, q22, q23, q30, q31, q32, q33);
  }

  function Sum4(p: bv8, q: bv8, r: bv8, s: bv8): bv8 {
    Add(Add(p, q), Add(r, s))
  }

  lemma AddRows(p: bv8, q: bv8, r: bv8, s: bv8, t: bv8, u: bv8, v: bv8, w: bv8)
    ensures Add(Sum4(p, q, r, s), Sum4(t, u, v, w)) == Sum4(Add(p, t), Add(q, u), Add(r, v), Add(s, w))
  {
    hide Add;
    AddShuffle(p, q, r, s, t, u, v, w);
  }

  lemma Transpose(q00: bv8, q01: bv8, q02: bv8, q03: bv8, q10: bv8, q11: bv8, q12: bv8, q13: bv8,
                  q20: bv8, q21: bv8, q22: bv8, q23: bv8, q30: bv8, q31: bv8, q32: bv8, q33: bv8)
    ensures Sum4(Sum4(q00, q01, q02, q03), Sum4(q10, q11, q12, q13), Sum4(q20, q21, q22, q23), Sum4(q30, q31, q32, q33))
            == Sum4(Sum4(q00, q10, q20, q30), Sum4(q01, q11, q21, q31), Sum4(q02, q12, q22, q32), Sum4(q03, q13, q23, q33))
  {
    hide Add;
    AddRows(q00, q01, q02, q03, q10, q11, q12, q13);
    AddRows(q20, q21, q22, q23, q30, q31, q32, q33);
    AddRows(Add(q00, q10), Add(q01, q11), Add(q02, q12), Add(q03, q13),
            Add(q20, q30), Add(q21, q31), Add(q22, q32), Add(q23, q33));
  }

  lemma OnlyOne(a: bv8)
    ensures Add(Add(a, 0), Add(0, 0)) == a && Add(Add(0, a), Add(0, 0)) == a
    ensures Add(Add(0, 0), Add(a, 0)) == a && Add(Add(0, 0), Add(0, a)) == a
  {
  }

  /** InvMixColumn undoes MixColumn. */
  lemma MixUndone(c: Column)
    ensures InvMixColumn(MixColumn(c)) == c
  {
    hide MixColumn, Mix4, Add, Through;
    SumOfShares(14, 11, 13, 9, c);
    SumOfShares(9, 14, 11, 13, c);
    SumOfShares(13, 9, 14, 11, c);
    SumOfShares(11, 13, 9, 14, c);
    Unmixed(c.b0);
    Unmixed(c.b1);
    Unmixed(c.b2);
    Unmixed(c.b3);
    OnlyOne(c.b0);
    OnlyOne(c.b1);
    OnlyOne(c.b2);
    OnlyOne(c.b3);
  }

  // ------------------------------------------------------------- the cipher undone

  lemma AddTwice(a: bv8, k: bv8)
    ensures Add(Add(a, k), k) == a
  {
  }

  lemma XorTwice(c: Column, k: Column)
    ensures Xor(Xor(c, k), k) == c
  {
    hide Add;
    AddTwice(c.b0, k.b0);
    AddTwice(c.b1, k.b1);
    AddTwice(c.b2, k.b2);
    AddTwice(c.b3, k.b3);
  }

  lemma KeyTwice(s: Block, k: Block)
    ensures AddRoundKey(AddRoundKey(s, k), k) == s
  {
    hide Xor;
    XorTwice(s.c0, k.c0);
    XorTwice(s.c1, k.c1);
    XorTwice(s.c2, k.c2);
    XorTwice(s.c3, k.c3);
  }

  lemma SubColumnUndone(c: Column)
    ensures InvSubColumn(SubColumn(c)) == c
  {
    hide S, Si;
    SiUndoesS(c.b0);
    SiUndoesS(c.b1);
    SiUndoesS(c.b2);
    SiUndoesS(c.b3);
  }

  /** The order of substituting and shifting does not matter, and both are undone. */
  lemma SubShiftUndone(s: Block)
    ensures InvShiftRows(InvSubBytes(ShiftRows(SubBytes(s)))) == s
  {
    hide S, Si;
    SubColumnUndone(s.c0);
    SubColumnUndone(s.c1);
    SubColumnUndone(s.c2);
    SubColumnUndone(s.c3);
  }

  lemma MixesUndone(s: Block, k: Block)
    ensures AddRoundKey(InvMixColumns(AddRoundKey(MixColumns(s), k)), InvMixColumns(k)) == s
  {
    hide InvMixColumn, MixColumn, Xor;
    MixedUndone(s.c0, k.c0);
    MixedUndone(s.c1, k.c1);
    MixedUndone(s.c2, k.c2);
    MixedUndone(s.c3, k.c3);
  }

  lemma MixedUndone(c: Column, k: Column)
    ensures Xor(InvMixColumn(Xor(MixColumn(c), k)), InvMixColumn(k)) == c
  {
    hide InvMixColumn, MixColumn, Xor;
    InvMixAdds(MixColumn(c), k);
    MixUndone(c);
    XorTwice(c, InvMixColumn(k));
  }

  /** Half-way through, the inverse cipher stands where the cipher stood before its key addition. */
  lemma {:induction false} InvRoundsUndo(keys: seq<Block>, input: Block, i: nat)
    requires i + 2 <= |keys|
    ensures InvRounds(DecryptionKeys(keys), Cipher(keys, input), i)
            == ShiftRows(SubBytes(Rounds(keys, input, |keys| - 2 - i)))
  {
    hide AddRoundKey, SubBytes, ShiftRows, MixColumns, InvSubBytes, InvShiftRows, InvMixColumns;
    var n := |keys| - 1;
    if i == 0 {
      KeyTwice(ShiftRows(SubBytes(Rounds(keys, input, n - 1))), keys[n]);
    } else {
      InvRoundsUndo(keys, input, i - 1);
      var s := Rounds(keys, input, n - i);
      SubShiftUndone(s);
      MixesUndone(ShiftRows(SubBytes(Rounds(keys, input, n - 1 - i))), keys[n - i]);
    }
  }

  /** Decryption with the decryption schedule undoes encryption, for every schedule and block. */
  lemma CipherUndone(keys: seq<Block>, input: Block)
    requires |keys| >= 2
    ensures EqInvCipher(DecryptionKeys(keys), Cipher(keys, input)) == input
  {
    hide AddRoundKey, SubBytes, ShiftRows, MixColumns, InvSubBytes, InvShiftRows, InvMixColumns, Cipher;
    InvRoundsUndo(keys, input, |keys| - 2);
    SubShiftUndone(Rounds(keys, input, 0));
    KeyTwice(input, keys[0]);
  }
}
