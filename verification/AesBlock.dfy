/**
 The word-level code of aes.c: table-driven rounds on big-endian words, and how a step on
 words is a step on columns of bytes.
 */
module AesBlock {
  import opened AesTables
  import opened AesCipher

  /** GETBYTE */
  function GetByte(x: bv32, y: nat): bv8
    requires y < 4
  {
    match y
    case 0 => (x & 0xFF) as bv8
    case 1 => ((x >> 8) & 0xFF) as bv8
    case 2 => ((x >> 16) & 0xFF) as bv8
    case _ => ((x >> 24) & 0xFF) as bv8
  }

  /** The column a big-endian word holds. */
  function Col(w: bv32): Column {
    Column(GetByte(w, 3), GetByte(w, 2), GetByte(w, 1), GetByte(w, 0))
  }

  function WordOf(c: Column): bv32 {
    Word(c.b0, c.b1, c.b2, c.b3)
  }

  lemma ColOfWord(c: Column)
    ensures Col(WordOf(c)) == c
  {
  }

  lemma WordOfCol(w: bv32)
    ensures WordOf(Col(w)) == w
  {
  }

  lemma WordAdds(c: Column, d: Column)
    ensures AddWords(WordOf(c), WordOf(d)) == WordOf(Xor(c, d))
  {
  }

  function AddWords(v: bv32, w: bv32): bv32 {
    v ^ w
  }

  lemma ColAdds(v: bv32, w: bv32)
    ensures Col(AddWords(v, w)) == Xor(Col(v), Col(w))
  {
    hide Col, WordOf, AddWords, Xor;
    WordOfCol(v);
    WordOfCol(w);
    WordAdds(Col(v), Col(w));
    ColOfWord(Xor(Col(v), Col(w)));
  }

  /** The state that four words hold. */
  function State(s0: bv32, s1: bv32, s2: bv32, s3: bv32): Block {
    Block(Col(s0), Col(s1), Col(s2), Col(s3))
  }

  // ------------------------------------------------------------- table lookups

  function Sum(p: bv32, q: bv32, r: bv32, s: bv32, k: bv32): bv32 {
    AddWords(AddWords(AddWords(AddWords(p, q), r), s), k)
  }

  function TeRound(s0: bv32, s1: bv32, s2: bv32, s3: bv32, k: bv32): bv32 {
    Sum(Te0(GetByte(s0, 3)), Te1(GetByte(s1, 2)), Te2(GetByte(s2, 1)), Te3(GetByte(s3, 0)), k)
  }

  /** The byte of a word that a mask keeps. */
  function Masked(w: bv32, mask: bv32): bv32 {
    w & mask
  }

  function TeLast(s0: bv32, s1: bv32, s2: bv32, s3: bv32, k: bv32): bv32 {
    Sum(Masked(Te4(GetByte(s0, 3)), 0xff000000), Masked(Te4(GetByte(s1, 2)), 0x00ff0000),
        Masked(Te4(GetByte(s2, 1)), 0x0000ff00), Masked(Te4(GetByte(s3, 0)), 0x000000ff), k)
  }

  function TdRound(s0: bv32, s1: bv32, s2: bv32, s3: bv32, k: bv32): bv32 {
    Sum(Td0(GetByte(s0, 3)), Td1(GetByte(s1, 2)), Td2(GetByte(s2, 1)), Td3(GetByte(s3, 0)), k)
  }

  function TdLast(s0: bv32, s1: bv32, s2: bv32, s3: bv32, k: bv32): bv32 {
    Sum(Masked(Td4(GetByte(s0, 3)), 0xff000000), Masked(Td4(GetByte(s1, 2)), 0x00ff0000),
        Masked(Td4(GetByte(s2, 1)), 0x0000ff00), Masked(Td4(GetByte(s3, 0)), 0x000000ff), k)
  }

  lemma MulOne(a: bv8)
    ensures Mul(1, a) == a
  {
    hide Xtime;
  }

  /** Five columns added as words. */
  lemma SumOfWords(p: Column, q: Column, r: Column, s: Column, k: bv32)
    ensures Col(Sum(WordOf(p), WordOf(q), WordOf(r), WordOf(s), k)) == Xor(Xor(Xor(p, q), Xor(r, s)), Col(k))
  {
    hide Col, WordOf, Xor, AddWords;
    WordAdds(p, q);
    WordAdds(Xor(p, q), r);
    WordAdds(Xor(Xor(p, q), r), s);
    ColAdds(AddWords(AddWords(AddWords(WordOf(p), WordOf(q)), WordOf(r)), WordOf(s)), k);
    ColOfWord(Xor(Xor(Xor(p, q), r), s));
    XorAssoc(Xor(p, q), r, s);
  }

  lemma XorAssoc(p: Column, q: Column, r: Column)
    ensures Xor(Xor(p, q), r) == Xor(p, Xor(q, r))
  {
    hide Add;
    AddAssoc(p.b0, q.b0, r.b0);
    AddAssoc(p.b1, q.b1, r.b1);
    AddAssoc(p.b2, q.b2, r.b2);
    AddAssoc(p.b3, q.b3, r.b3);
  }

  /** A lookup in the four T-tables is SubBytes and MixColumns of a shifted column. */
  lemma TeColumn(s0: bv32, s1: bv32, s2: bv32, s3: bv32, k: bv32)
    ensures Col(TeRound(s0, s1, s2, s3, k))
            == Xor(MixColumn(SubColumn(Column(Col(s0).b0, Col(s1).b1, Col(s2).b2, Col(s3).b3))), Col(k))
  {
    hide GetByte, Te0, Te1, Te2, Te3, S, Mul, Add, Sum, Word;
    var a, b, c, d := GetByte(s0, 3), GetByte(s1, 2), GetByte(s2, 1), GetByte(s3, 0);
    Te0Entry(a);
    Te1Entry(b);
    Te2Entry(c);
    Te3Entry(d);
    SumOfWords(Column(Mul(2, S(a)), S(a), S(a), Mul(3, S(a))), Column(Mul(3, S(b)), Mul(2, S(b)), S(b), S(b)),
               Column(S(c), Mul(3, S(c)), Mul(2, S(c)), S(c)), Column(S(d), S(d), Mul(3, S(d)), Mul(2, S(d))), k);
    MulOne(S(a));
    MulOne(S(b));
    MulOne(S(c));
    MulOne(S(d));
  }

  lemma TdColumn(s0: bv32, s1: bv32, s2: bv32, s3: bv32, k: bv32)
    ensures Col(TdRound(s0, s1, s2, s3, k))
            == Xor(InvMixColumn(InvSubColumn(Column(Col(s0).b0, Col(s1).b1, Col(s2).b2, Col(s3).b3))), Col(k))
  {
    hide GetByte, Td0, Td1, Td2, Td3, Si, Mul, Add, Sum, Word;
    var a, b, c, d := GetByte(s0, 3), GetByte(s1, 2), GetByte(s2, 1), GetByte(s3, 0);
    Td0Entry(a);
    Td1Entry(b);
    Td2Entry(c);
    Td3Entry(d);
    SumOfWords(Column(Mul(14, Si(a)), Mul(9, Si(a)), Mul(13, Si(a)), Mul(11, Si(a))),
               Column(Mul(11, Si(b)), Mul(14, Si(b)), Mul(9, Si(b)), Mul(13, Si(b))),
               Column(Mul(13, Si(c)), Mul(11, Si(c)), Mul(14, Si(c)), Mul(9, Si(c))),
               Column(Mul(9, Si(d)), Mul(13, Si(d)), Mul(11, Si(d)), Mul(14, Si(d))), k);
  }

  lemma Masks(a: bv8)
    ensures Masked(Word(a, a, a, a), 0xff000000) == Word(a, 0, 0, 0)
    ensures Masked(Word(a, a, a, a), 0x00ff0000) == Word(0, a, 0, 0)
    ensures Masked(Word(a, a, a, a), 0x0000ff00) == Word(0, 0, a, 0)
    ensures Masked(Word(a, a, a, a), 0x000000ff) == Word(0, 0, 0, a)
  {
  }

  lemma OneByteEach(a: bv8, b: bv8, c: bv8, d: bv8)
    ensures Xor(Xor(Column(a, 0, 0, 0), Column(0, b, 0, 0)), Xor(Column(0, 0, c, 0), Column(0, 0, 0, d))) == Column(a, b, c, d)
  {
  }

  /** The last round masks one byte out of each lookup. */
  lemma TeLastColumn(s0: bv32, s1: bv32, s2: bv32, s3: bv32, k: bv32)
    ensures Col(TeLast(s0, s1, s2, s3, k)) == Xor(SubColumn(Column(Col(s0).b0, Col(s1).b1, Col(s2).b2, Col(s3).b3)), Col(k))
  {
    hide GetByte, Te4, S, Word, Xor, Sum, Masked;
    var a, b, c, d := GetByte(s0, 3), GetByte(s1, 2), GetByte(s2, 1), GetByte(s3, 0);
    Te4Entry(a);
    Te4Entry(b);
    Te4Entry(c);
    Te4Entry(d);
    Masks(S(a));
    Masks(S(b));
    Masks(S(c));
    Masks(S(d));
    SumOfWords(Column(S(a), 0, 0, 0), Column(0, S(b), 0, 0), Column(0, 0, S(c), 0), Column(0, 0, 0, S(d)), k);
    OneByteEach(S(a), S(b), S(c), S(d));
  }

  lemma TdLastColumn(s0: bv32, s1: bv32, s2: bv32, s3: bv32, k: bv32)
    ensures Col(TdLast(s0, s1, s2, s3, k)) == Xor(InvSubColumn(Column(Col(s0).b0, Col(s1).b1, Col(s2).b2, Col(s3).b3)), Col(k))
  {
    hide GetByte, Td4, Si, Word, Xor, Sum, Masked;
    var a, b, c, d := GetByte(s0, 3), GetByte(s1, 2), GetByte(s2, 1), GetByte(s3, 0);
    Td4Entry(a);
    Td4Entry(b);
    Td4Entry(c);
    Td4Entry(d);
    Masks(Si(a));
    Masks(Si(b));
    Masks(Si(c));
    Masks(Si(d));
    SumOfWords(Column(Si(a), 0, 0, 0), Column(0, Si(b), 0, 0), Column(0, 0, Si(c), 0), Column(0, 0, 0, Si(d)), k);
    OneByteEach(Si(a), Si(b), Si(c), Si(d));
  }

  /** Four lookups are one full round of the cipher. */
  lemma FullRound(s0: bv32, s1: bv32, s2: bv32, s3: bv32, k0: bv32, k1: bv32, k2: bv32, k3: bv32)
    ensures State(TeRound(s0, s1, s2, s3, k0), TeRound(s1, s2, s3, s0, k1), TeRound(s2, s3, s0, s1, k2), TeRound(s3, s0, s1, s2, k3))
            == AddRoundKey(MixColumns(ShiftRows(SubBytes(State(s0, s1, s2, s3)))), State(k0, k1, k2, k3))
  {
    hide TeRound, Col, S, MixColumn, Xor;
    TeColumn(s0, s1, s2, s3, k0);
    TeColumn(s1, s2, s3, s0, k1);
    TeColumn(s2, s3, s0, s1, k2);
    TeColumn(s3, s0, s1, s2, k3);
  }

  lemma LastRound(s0: bv32, s1: bv32, s2: bv32, s3: bv32, k0: bv32, k1: bv32, k2: bv32, k3: bv32)
    ensures State(TeLast(s0, s1, s2, s3, k0), TeLast(s1, s2, s3, s0, k1), TeLast(s2, s3, s0, s1, k2), TeLast(s3, s0, s1, s2, k3))
            == AddRoundKey(ShiftRows(SubBytes(State(s0, s1, s2, s3))), State(k0, k1, k2, k3))
  {
    hide TeLast, Col, S, Xor;
    TeLastColumn(s0, s1, s2, s3, k0);
    TeLastColumn(s1, s2, s3, s0, k1);
    TeLastColumn(s2, s3, s0, s1, k2);
    TeLastColumn(s3, s0, s1, s2, k3);
  }

  lemma FullInvRound(s0: bv32, s1: bv32, s2: bv32, s3: bv32, k0: bv32, k1: bv32, k2: bv32, k3: bv32)
    ensures State(TdRound(s0, s3, s2, s1, k0), TdRound(s1, s0, s3, s2, k1), TdRound(s2, s1, s0, s3, k2), TdRound(s3, s2, s1, s0, k3))
            == AddRoundKey(InvMixColumns(InvShiftRows(InvSubBytes(State(s0, s1, s2, s3)))), State(k0, k1, k2, k3))
  {
    hide TdRound, Col, Si, InvMixColumn, Xor;
    TdColumn(s0, s3, s2, s1, k0);
    TdColumn(s1, s0, s3, s2, k1);
    TdColumn(s2, s1, s0, s3, k2);
    TdColumn(s3, s2, s1, s0, k3);
  }

  lemma LastInvRound(s0: bv32, s1: bv32, s2: bv32, s3: bv32, k0: bv32, k1: bv32, k2: bv32, k3: bv32)
    ensures State(TdLast(s0, s3, s2, s1, k0), TdLast(s1, s0, s3, s2, k1), TdLast(s2, s1, s0, s3, k2), TdLast(s3, s2, s1, s0, k3))
            == AddRoundKey(InvShiftRows(InvSubBytes(State(s0, s1, s2, s3))), State(k0, k1, k2, k3))
  {
    hide TdLast, Col, Si, Xor;
    TdLastColumn(s0, s3, s2, s1, k0);
    TdLastColumn(s1, s0, s3, s2, k1);
    TdLastColumn(s2, s1, s0, s3, k2);
    TdLastColumn(s3, s2, s1, s0, k3);
  }

  lemma FirstKey(s0: bv32, s1: bv32, s2: bv32, s3: bv32, k0: bv32, k1: bv32, k2: bv32, k3: bv32)
    ensures State(AddWords(s0, k0), AddWords(s1, k1), AddWords(s2, k2), AddWords(s3, k3)) == AddRoundKey(State(s0, s1, s2, s3), State(k0, k1, k2, k3))
  {
    hide Col, Xor, AddWords;
    ColAdds(s0, k0);
    ColAdds(s1, k1);
    ColAdds(s2, k2);
    ColAdds(s3, k3);
  }

  // ------------------------------------------------------------- byte order

  /** What copying four bytes into a word gives on a little-endian machine. */
  function LoadWord(a: bv8, b: bv8, c: bv8, d: bv8): bv32 {
    Word(d, c, b, a)
  }

  function RotlFixed(x: bv32, y: bv6): bv32
    requires y <= 32
  {
    (x << y) | (x >> (32 - y))
  }

  function ByteReverseWord32(value: bv32): bv32 {
    RotlFixed(((value & 0xFF00FF00) >> 8) | ((value & 0x00FF00FF) << 8), 16)
  }

  lemma LoadReversed(a: bv8, b: bv8, c: bv8, d: bv8)
    ensures ByteReverseWord32(LoadWord(a, b, c, d)) == WordOf(Column(a, b, c, d))
  {
  }

  /** The bytes that storing the reversed word leaves in memory. */
  lemma StoreReversed(w: bv32)
    ensures var r := ByteReverseWord32(w);
            Column(GetByte(r, 0), GetByte(r, 1), GetByte(r, 2), GetByte(r, 3)) == Col(w)
  {
  }
}
