/**
 AesSetKeyLocal: the key schedule of section 5.2 of FIPS 197 for 16, 24 and 32 bytes, and the
 reversal and mixing that turn it into the decryption schedule.
 */
module AesKeys {
  import opened AesTables
  import opened AesCipher
  import opened AesBlock

  /** The context; reg and tmp are kept as the bytes the code copies in and out. */
  class Aes {
    const key: array<bv32>
    var rounds: nat
    const reg: array<bv8>
    const tmp: array<bv8>

    constructor ()
      ensures Valid() && fresh(key) && fresh(reg) && fresh(tmp)
    {
      key := new bv32[60];
      reg := new bv8[16];
      tmp := new bv8[16];
    }

    ghost predicate Valid() {
      key.Length == 60 && reg.Length == 16 && tmp.Length == 16 && reg != tmp
    }
  }

  // ------------------------------------------------------------- section 5.2

  function RotWord(w: bv32): bv32 {
    WordOf(Column(GetByte(w, 2), GetByte(w, 1), GetByte(w, 0), GetByte(w, 3)))
  }

  function SubWord(w: bv32): bv32 {
    WordOf(SubColumn(Col(w)))
  }

  /** x to the power i in GF(2^8). */
  function PowerOfX(i: nat): bv8 {
    if i == 0 then 1 else Xtime(PowerOfX(i - 1))
  }

  function RoundConstant(j: nat): bv32
    requires j > 0
  {
    Word(PowerOfX(j - 1), 0, 0, 0)
  }

  /** Word i of the expansion of the key words k. */
  function Expanded(k: seq<bv32>, i: nat): bv32
    requires k != []
  {
    if i < |k| then k[i]
    else
      var temp := Expanded(k, i - 1);
      AddWords(Expanded(k, i - |k|),
               if i % |k| == 0 then AddWords(SubWord(RotWord(temp)), RoundConstant(i / |k|))
               else if |k| > 6 && i % |k| == 4 then SubWord(temp)
               else temp)
  }

  /** The key as big-endian words. */
  function KeyWords(userKey: seq<bv8>): (k: seq<bv32>)
    ensures |k| == |userKey| / 4
  {
    seq(|userKey| / 4, i requires 0 <= i < |userKey| / 4 =>
      WordOf(Column(userKey[4 * i], userKey[4 * i + 1], userKey[4 * i + 2], userKey[4 * i + 3])))
  }

  /** The round key held in words 4m to 4m+3. */
  function RoundKey(w: seq<bv32>, m: nat): Block
    requires 4 * m + 4 <= |w|
  {
    State(w[4 * m], w[4 * m + 1], w[4 * m + 2], w[4 * m + 3])
  }

  function RoundKeys(w: seq<bv32>, nr: nat): (keys: seq<Block>)
    requires 4 * nr + 4 <= |w|
    ensures |keys| == nr + 1
  {
    seq(nr + 1, m requires 0 <= m <= nr => RoundKey(w, m))
  }

  /** The schedule of section 5.2 as round keys. */
  function Schedule(k: seq<bv32>): (keys: seq<Block>)
    requires k != []
    ensures |keys| == |k| + 7
  {
    seq(|k| + 7, m requires 0 <= m < |k| + 7 =>
      State(Expanded(k, 4 * m), Expanded(k, 4 * m + 1), Expanded(k, 4 * m + 2), Expanded(k, 4 * m + 3)))
  }

  // ------------------------------------------------------------- one word of the schedule

  function Rcon(i: nat): bv32
    requires i < 10
  {
    match i
    case 0 => 0x01000000
    case 1 => 0x02000000
    case 2 => 0x04000000
    case 3 => 0x08000000
    case 4 => 0x10000000
    case 5 => 0x20000000
    case 6 => 0x40000000
    case 7 => 0x80000000
    case 8 => 0x1B000000
    case _ => 0x36000000
  }

  lemma RconIsPower(i: nat)
    requires i < 10
    ensures Rcon(i) == RoundConstant(i + 1)
  {
    if i > 0 {
      RconIsPower(i - 1);
    }
  }

  /** The words substituted, in the two byte orders the code uses. */
  function Substituted(x0: bv32, a: bv8, b: bv8, c: bv8, d: bv8): bv32 {
    AddWords(AddWords(AddWords(AddWords(x0, Masked(Te4(a), 0xff000000)), Masked(Te4(b), 0x00ff0000)), Masked(Te4(c), 0x0000ff00)), Masked(Te4(d), 0x000000ff))
  }

  lemma SubstitutedIs(x0: bv32, a: bv8, b: bv8, c: bv8, d: bv8)
    ensures Substituted(x0, a, b, c, d) == AddWords(x0, Word(S(a), S(b), S(c), S(d)))
  {
    hide Te4, S, AddWords, Word, Xor, Masked;
    Te4Entry(a);
    Te4Entry(b);
    Te4Entry(c);
    Te4Entry(d);
    Masks(S(a));
    Masks(S(b));
    Masks(S(c));
    Masks(S(d));
    var p, q, r, s := Column(S(a), 0, 0, 0), Column(0, S(b), 0, 0), Column(0, 0, S(c), 0), Column(0, 0, 0, S(d));
    OneByteEach(S(a), S(b), S(c), S(d));
    WordAdds(p, q);
    WordAdds(r, s);
    WordAdds(Xor(p, q), Xor(r, s));
    AddWordsAssoc(x0, WordOf(p), WordOf(q));
    AddWordsAssoc(AddWords(x0, WordOf(Xor(p, q))), WordOf(r), WordOf(s));
    AddWordsAssoc(x0, WordOf(Xor(p, q)), WordOf(Xor(r, s)));
  }

  lemma AddWordsAssoc(x: bv32, y: bv32, z: bv32)
    ensures AddWords(AddWords(x, y), z) == AddWords(x, AddWords(y, z))
  {
  }

  lemma SubRotated(w: bv32)
    ensures SubWord(RotWord(w)) == Word(S(GetByte(w, 2)), S(GetByte(w, 1)), S(GetByte(w, 0)), S(GetByte(w, 3)))
  {
    hide GetByte, S, Word, Col;
    ColOfWord(Column(GetByte(w, 2), GetByte(w, 1), GetByte(w, 0), GetByte(w, 3)));
  }

  /** The first word of a turn: x0 is the word |k| places back, temp the word before. */
  function FirstWord(x0: bv32, temp: bv32, i: nat): bv32
    requires i < 10
  {
    AddWords(Substituted(x0, GetByte(temp, 2), GetByte(temp, 1), GetByte(temp, 0), GetByte(temp, 3)), Rcon(i))
  }

  function FifthWord(x0: bv32, temp: bv32): bv32 {
    Substituted(x0, GetByte(temp, 3), GetByte(temp, 2), GetByte(temp, 1), GetByte(temp, 0))
  }

  lemma FirstWordIs(x0: bv32, temp: bv32, i: nat)
    requires i < 10
    ensures FirstWord(x0, temp, i) == AddWords(x0, AddWords(SubWord(RotWord(temp)), RoundConstant(i + 1)))
  {
    hide Substituted, SubWord, RotWord, GetByte, AddWords, Rcon, RoundConstant, Word, S;
    SubstitutedIs(x0, GetByte(temp, 2), GetByte(temp, 1), GetByte(temp, 0), GetByte(temp, 3));
    SubRotated(temp);
    RconIsPower(i);
    AddWordsAssoc(x0, SubWord(RotWord(temp)), Rcon(i));
  }

  lemma FifthWordIs(x0: bv32, temp: bv32)
    ensures FifthWord(x0, temp) == AddWords(x0, SubWord(temp))
  {
    hide Substituted, GetByte, AddWords, Word, S;
    SubstitutedIs(x0, GetByte(temp, 3), GetByte(temp, 2), GetByte(temp, 1), GetByte(temp, 0));
  }

  // ------------------------------------------------------------- the expansion loops

  ghost predicate Filled(key: seq<bv32>, k: seq<bv32>, n: nat) {
    k != [] && n <= |key| && forall j :: 0 <= j < n ==> key[j] == Expanded(k, j)
  }

  lemma FirstOfTurn(k: seq<bv32>, i: nat)
    requires |k| in {4, 6, 8} && 0 < i < 11
    ensures var at := i * |k|;
            at >= |k| && Expanded(k, at) == FirstWord(Expanded(k, at - |k|), Expanded(k, at - 1), i - 1)
  {
    hide FirstWord, SubWord, RotWord, RoundConstant, AddWords;
    var at := i * |k|;
    assert at >= |k| && at % |k| == 0 && at / |k| == i by { Multiples(|k|, i, 0); }
    FirstWordIs(Expanded(k, at - |k|), Expanded(k, at - 1), i - 1);
  }

  lemma Multiples(n: nat, i: nat, r: nat)
    requires n in {4, 6, 8} && r < n && i > 0
    ensures i * n + r >= n && (i * n + r) % n == r && (i * n + r) / n == i
  {
    if n == 4 {} else if n == 6 {} else {}
  }

  lemma LaterOfTurn(k: seq<bv32>, i: nat, r: nat)
    requires |k| in {4, 6, 8} && 0 < i && 0 < r < |k|
    ensures var at := i * |k| + r;
            at >= |k|
            && Expanded(k, at) == if |k| > 6 && r == 4 then FifthWord(Expanded(k, at - |k|), Expanded(k, at - 1))
                                  else AddWords(Expanded(k, at - |k|), Expanded(k, at - 1))
  {
    hide FifthWord, SubWord, RotWord, RoundConstant, AddWords;
    Multiples(|k|, i, r);
    var at := i * |k| + r;
    FifthWordIs(Expanded(k, at - |k|), Expanded(k, at - 1));
  }

  /** key[at] = value, as the next word of the schedule. */
  method Store(key: array<bv32>, at: nat, value: bv32, ghost k: seq<bv32>)
    requires at < key.Length && Filled(key[..], k, at) && value == Expanded(k, at)
    modifies key
    ensures Filled(key[..], k, at + 1)
  {
    hide Expanded;
    key[at] := value;
  }

  method Expand16(key: array<bv32>, ghost k: seq<bv32>)
    requires |k| == 4 && key.Length == 60 && Filled(key[..], k, 4)
    modifies key
    ensures Filled(key[..], k, 44)
  {
    hide Expanded, FirstWord, AddWords;
    var rk, i := 0, 0;
    while true
      invariant i < 10 && rk == 4 * i && Filled(key[..], k, rk + 4)
      decreases 10 - i
    {
      FirstOfTurn(k, i + 1);
      LaterOfTurn(k, i + 1, 1);
      LaterOfTurn(k, i + 1, 2);
      LaterOfTurn(k, i + 1, 3);
      var temp := key[rk + 3];
      Store(key, rk + 4, FirstWord(key[rk], temp, i), k);
      Store(key, rk + 5, AddWords(key[rk + 1], key[rk + 4]), k);
      Store(key, rk + 6, AddWords(key[rk + 2], key[rk + 5]), k);
      Store(key, rk + 7, AddWords(key[rk + 3], key[rk + 6]), k);
      i := i + 1;
      if i == 10 { break; }
      rk := rk + 4;
    }
  }

  method Expand24(key: array<bv32>, ghost k: seq<bv32>)
    requires |k| == 6 && key.Length == 60 && Filled(key[..], k, 6)
    modifies key
    ensures Filled(key[..], k, 52)
  {
    hide Expanded, FirstWord, AddWords;
    var rk, i := 0, 0;
    while true
      invariant i < 8 && rk == 6 * i && Filled(key[..], k, rk + 6)
      decreases 8 - i
    {
      FirstFour24(key, rk, i, k);
      i := i + 1;
      if i == 8 { break; }
      LastTwo24(key, rk, i, k);
      rk := rk + 6;
    }
  }

  method FirstFour24(key: array<bv32>, rk: nat, i: nat, ghost k: seq<bv32>)
    requires |k| == 6 && key.Length == 60 && i < 8 && rk == 6 * i && Filled(key[..], k, rk + 6)
    modifies key
    ensures Filled(key[..], k, rk + 10)
  {
    hide Expanded, FirstWord, AddWords;
    FirstOfTurn(k, i + 1);
    LaterOfTurn(k, i + 1, 1);
    LaterOfTurn(k, i + 1, 2);
    LaterOfTurn(k, i + 1, 3);
    var temp := key[rk + 5];
    Store(key, rk + 6, FirstWord(key[rk], temp, i), k);
    Store(key, rk + 7, AddWords(key[rk + 1], key[rk + 6]), k);
    Store(key, rk + 8, AddWords(key[rk + 2], key[rk + 7]), k);
    Store(key, rk + 9, AddWords(key[rk + 3], key[rk + 8]), k);
  }

  method LastTwo24(key: array<bv32>, rk: nat, i: nat, ghost k: seq<bv32>)
    requires |k| == 6 && key.Length == 60 && 0 < i < 8 && rk == 6 * (i - 1) && Filled(key[..], k, rk + 10)
    modifies key
    ensures Filled(key[..], k, rk + 12)
  {
    hide Expanded, AddWords;
    LaterOfTurn(k, i, 4);
    LaterOfTurn(k, i, 5);
    Store(key, rk + 10, AddWords(key[rk + 4], key[rk + 9]), k);
    Store(key, rk + 11, AddWords(key[rk + 5], key[rk + 10]), k);
  }

  method Expand32(key: array<bv32>, ghost k: seq<bv32>)
    requires |k| == 8 && key.Length == 60 && Filled(key[..], k, 8)
    modifies key
    ensures Filled(key[..], k, 60)
  {
    hide Expanded, FirstWord, FifthWord, AddWords;
    var rk, i := 0, 0;
    while true
      invariant i < 7 && rk == 8 * i && Filled(key[..], k, rk + 8)
      decreases 7 - i
    {
      FirstHalf32(key, rk, i, k);
      i := i + 1;
      if i == 7 { break; }
      SecondHalf32(key, rk, i, k);
      rk := rk + 8;
    }
  }

  method FirstHalf32(key: array<bv32>, rk: nat, i: nat, ghost k: seq<bv32>)
    requires |k| == 8 && key.Length == 60 && i < 7 && rk == 8 * i && Filled(key[..], k, rk + 8)
    modifies key
    ensures Filled(key[..], k, rk + 12)
  {
    hide Expanded, FirstWord, FifthWord, AddWords;
    FirstOfTurn(k, i + 1);
    LaterOfTurn(k, i + 1, 1);
    LaterOfTurn(k, i + 1, 2);
    LaterOfTurn(k, i + 1, 3);
    var temp := key[rk + 7];
    Store(key, rk + 8, FirstWord(key[rk], temp, i), k);
    Store(key, rk + 9, AddWords(key[rk + 1], key[rk + 8]), k);
    Store(key, rk + 10, AddWords(key[rk + 2], key[rk + 9]), k);
    Store(key, rk + 11, AddWords(key[rk + 3], key[rk + 10]), k);
  }

  method SecondHalf32(key: array<bv32>, rk: nat, i: nat, ghost k: seq<bv32>)
    requires |k| == 8 && key.Length == 60 && 0 < i < 7 && rk == 8 * (i - 1) && Filled(key[..], k, rk + 12)
    modifies key
    ensures Filled(key[..], k, rk + 16)
  {
    hide Expanded, FirstWord, FifthWord, AddWords;
    LaterOfTurn(k, i, 4);
    LaterOfTurn(k, i, 5);
    LaterOfTurn(k, i, 6);
    LaterOfTurn(k, i, 7);
    var temp := key[rk + 11];
    Store(key, rk + 12, FifthWord(key[rk + 4], temp), k);
    Store(key, rk + 13, AddWords(key[rk + 5], key[rk + 12]), k);
    Store(key, rk + 14, AddWords(key[rk + 6], key[rk + 13]), k);
    Store(key, rk + 15, AddWords(key[rk + 7], key[rk + 14]), k);
  }

  lemma FilledIsSchedule(key: seq<bv32>, k: seq<bv32>)
    requires |key| == 60 && 4 <= |k| <= 8 && Filled(key, k, 4 * |k| + 28)
    ensures RoundKeys(key, |k| + 6) == Schedule(k)
  {
    hide Expanded, State;
    forall m | 0 <= m < |k| + 7
      ensures RoundKeys(key, |k| + 6)[m] == Schedule(k)[m]
    {
    }
  }

  // ------------------------------------------------------------- the key itself

  method ByteReverseWords(out: array<bv32>, inp: array<bv32>, byteCount: nat)
    requires byteCount / 4 <= out.Length && byteCount / 4 <= inp.Length
    modifies out
    ensures forall i :: 0 <= i < byteCount / 4 ==> out[i] == ByteReverseWord32(old(inp[i]))
    ensures forall i :: byteCount / 4 <= i < out.Length ==> out[i] == old(out[i])
  {
    hide ByteReverseWord32;
    var count := byteCount / 4;
    for i := 0 to count
      invariant forall j :: 0 <= j < i ==> out[j] == ByteReverseWord32(old(inp[j]))
      invariant forall j :: i <= j < out.Length ==> out[j] == old(out[j])
      invariant forall j :: i <= j < count ==> inp[j] == old(inp[j])
    {
      out[i] := ByteReverseWord32(inp[i]);
    }
  }

  method LoadKey(key: array<bv32>, userKey: array<bv8>)
    requires key.Length == 60 && userKey.Length / 4 <= 60
    modifies key
    ensures forall i :: 0 <= i < userKey.Length / 4 ==> key[i] == KeyWords(userKey[..])[i]
  {
    hide ByteReverseWord32, LoadWord, WordOf;
    var n := userKey.Length / 4;
    for i := 0 to n
      invariant forall j :: 0 <= j < i ==> key[j] == LoadWord(userKey[4 * j], userKey[4 * j + 1], userKey[4 * j + 2], userKey[4 * j + 3])
    {
      key[i] := LoadWord(userKey[4 * i], userKey[4 * i + 1], userKey[4 * i + 2], userKey[4 * i + 3]);
    }
    ByteReverseWords(key, key, userKey.Length);
    forall i | 0 <= i < n
      ensures key[i] == KeyWords(userKey[..])[i]
    {
      LoadReversed(userKey[4 * i], userKey[4 * i + 1], userKey[4 * i + 2], userKey[4 * i + 3]);
    }
  }

  // ------------------------------------------------------------- the decryption schedule

  function MixWord(w: bv32): bv32 {
    AddWords(AddWords(AddWords(Td0(S(GetByte(w, 3))), Td1(S(GetByte(w, 2)))), Td2(S(GetByte(w, 1)))), Td3(S(GetByte(w, 0))))
  }

  /** The detour through the S-box leaves InvMixColumn alone. */
  lemma MixWordIs(w: bv32)
    ensures Col(MixWord(w)) == InvMixColumn(Col(w))
  {
    hide GetByte, Td0, Td1, Td2, Td3, S, Si, Mul, Add, Word, AddWords;
    var a, b, c, d := GetByte(w, 3), GetByte(w, 2), GetByte(w, 1), GetByte(w, 0);
    Td0Entry(S(a));
    Td1Entry(S(b));
    Td2Entry(S(c));
    Td3Entry(S(d));
    SiUndoesS(a);
    SiUndoesS(b);
    SiUndoesS(c);
    SiUndoesS(d);
    SumOfFour(Column(Mul(14, a), Mul(9, a), Mul(13, a), Mul(11, a)), Column(Mul(11, b), Mul(14, b), Mul(9, b), Mul(13, b)),
              Column(Mul(13, c), Mul(11, c), Mul(14, c), Mul(9, c)), Column(Mul(9, d), Mul(13, d), Mul(11, d), Mul(14, d)));
  }

  lemma SumOfFour(p: Column, q: Column, r: Column, s: Column)
    ensures Col(AddWords(AddWords(AddWords(WordOf(p), WordOf(q)), WordOf(r)), WordOf(s))) == Xor(Xor(p, q), Xor(r, s))
  {
    hide Col, WordOf, Xor, AddWords;
    WordAdds(p, q);
    WordAdds(Xor(p, q), r);
    WordAdds(Xor(Xor(p, q), r), s);
    ColOfWord(Xor(Xor(Xor(p, q), r), s));
    XorAssoc(Xor(p, q), r, s);
  }

  method SwapRoundKeys(key: array<bv32>, i: nat, j: nat)
    requires i < j && 4 * j + 4 <= key.Length
    modifies key
    ensures RoundKey(key[..], i) == old(RoundKey(key[..], j)) && RoundKey(key[..], j) == old(RoundKey(key[..], i))
    ensures forall m: nat :: 4 * m + 4 <= key.Length && m != i && m != j ==> RoundKey(key[..], m) == old(RoundKey(key[..], m))
  {
    hide RoundKey;
    ghost var before := key[..];
    var p, q := 4 * i, 4 * j;
    var temp := key[p]; key[p] := key[q]; key[q] := temp;
    temp := key[p + 1]; key[p + 1] := key[q + 1]; key[q + 1] := temp;
    temp := key[p + 2]; key[p + 2] := key[q + 2]; key[q + 2] := temp;
    temp := key[p + 3]; key[p + 3] := key[q + 3]; key[q + 3] := temp;
    RoundKeyFrom(key[..], i, before, j);
    RoundKeyFrom(key[..], j, before, i);
    RoundKeysKept(before, key[..], {i, j});
  }

  /** A round key is its four words. */
  lemma RoundKeyFrom(u: seq<bv32>, i: nat, v: seq<bv32>, j: nat)
    requires 4 * i + 4 <= |u| && 4 * j + 4 <= |v|
    requires u[4 * i] == v[4 * j] && u[4 * i + 1] == v[4 * j + 1]
    requires u[4 * i + 2] == v[4 * j + 2] && u[4 * i + 3] == v[4 * j + 3]
    ensures RoundKey(u, i) == RoundKey(v, j)
  {
    hide Col;
  }

  lemma RoundKeysKept(before: seq<bv32>, after: seq<bv32>, written: set<nat>)
    requires |before| == |after|
    requires forall t :: 0 <= t < |before| && (forall m :: m in written ==> !(4 * m <= t < 4 * m + 4)) ==> after[t] == before[t]
    ensures forall m: nat :: 4 * m + 4 <= |before| && m !in written ==> RoundKey(after, m) == RoundKey(before, m)
  {
    hide RoundKey;
    forall m: nat | 4 * m + 4 <= |before| && m !in written
      ensures RoundKey(after, m) == RoundKey(before, m)
    {
      RoundKeyFrom(after, m, before, m);
    }
  }

  /** Inverts the order of the round keys. */
  method ReverseRoundKeys(key: array<bv32>, rounds: nat)
    requires key.Length == 60 && rounds <= 14
    modifies key
    ensures forall m: nat :: m <= rounds ==> RoundKey(key[..], m) == old(RoundKey(key[..], rounds - m))
  {
    hide RoundKey;
    var i, j := 0, 4 * rounds;
    ghost var a := 0;
    while i < j
      invariant i == 4 * a && j == 4 * (rounds - a) && a <= rounds + 1 && 2 * a <= rounds + 2
      invariant forall m: nat :: m <= rounds && (m < a || m > rounds - a) ==> RoundKey(key[..], m) == old(RoundKey(key[..], rounds - m))
      invariant forall m: nat :: m <= rounds && a <= m <= rounds - a ==> RoundKey(key[..], m) == old(RoundKey(key[..], m))
    {
      SwapRoundKeys(key, i / 4, j / 4);
      i, j := i + 4, j - 4;
      a := a + 1;
    }
  }

  method MixRoundKey(key: array<bv32>, i: nat)
    requires 4 * i + 4 <= key.Length
    modifies key
    ensures RoundKey(key[..], i) == InvMixColumns(old(RoundKey(key[..], i)))
    ensures forall m: nat :: 4 * m + 4 <= key.Length && m != i ==> RoundKey(key[..], m) == old(RoundKey(key[..], m))
  {
    hide MixWord, RoundKey, InvMixColumns;
    ghost var before := key[..];
    var rk := 4 * i;
    key[rk] := MixWord(key[rk]);
    key[rk + 1] := MixWord(key[rk + 1]);
    key[rk + 2] := MixWord(key[rk + 2]);
    key[rk + 3] := MixWord(key[rk + 3]);
    RoundKeyMixed(before, key[..], i);
    RoundKeysKept(before, key[..], {i});
  }

  lemma RoundKeyMixed(u: seq<bv32>, v: seq<bv32>, i: nat)
    requires |u| == |v| && 4 * i + 4 <= |u|
    requires forall t :: 4 * i <= t < 4 * i + 4 ==> v[t] == MixWord(u[t])
    ensures RoundKey(v, i) == InvMixColumns(RoundKey(u, i))
  {
    hide MixWord, Col, InvMixColumn;
    MixWordIs(u[4 * i]);
    MixWordIs(u[4 * i + 1]);
    MixWordIs(u[4 * i + 2]);
    MixWordIs(u[4 * i + 3]);
  }

  /** The decryption branch of AesSetKeyLocal. */
  method InvertSchedule(key: array<bv32>, rounds: nat)
    requires key.Length == 60 && rounds <= 14
    modifies key
    ensures RoundKeys(key[..], rounds) == DecryptionKeys(old(RoundKeys(key[..], rounds)))
  {
    hide RoundKey, InvMixColumns;
    ghost var keys := RoundKeys(key[..], rounds);
    ReverseRoundKeys(key, rounds);
    var i := 1;
    while i < rounds
      invariant 1 <= i && (i <= rounds || i == 1)
      invariant forall m: nat :: m <= rounds ==>
        RoundKey(key[..], m) == if 1 <= m < i then InvMixColumns(keys[rounds - m]) else keys[rounds - m]
    {
      MixRoundKey(key, i);
      i := i + 1;
    }
    assert RoundKeys(key[..], rounds) == DecryptionKeys(keys);
  }

  method AesSetIV(reg: array<bv8>, iv: array?<bv8>)
    requires reg.Length == 16 && (iv != null ==> iv.Length == 16)
    modifies reg
    ensures reg[..] == if iv == null then old(reg[..]) else old(iv[..])
  {
    if iv != null {
      for i := 0 to 16
        invariant forall j :: 0 <= j < i ==> reg[j] == old(iv[j])
        invariant forall j :: i <= j < 16 ==> iv[j] == old(iv[j])
      {
        reg[i] := iv[i];
      }
    }
  }

  /** AesSetKey: zero, or BAD_FUNC_ARG with nothing changed. */
  method AesSetKey(aes: Aes, userKey: array<bv8>, iv: array?<bv8>, decryption: bool) returns (ret: int)
    requires aes.Valid() && (iv != null ==> iv.Length == 16)
    modifies aes`rounds, aes.key, aes.reg
    ensures ret == if userKey.Length in {16, 24, 32} then 0 else -173
    ensures ret != 0 ==> aes.rounds == old(aes.rounds) && aes.key[..] == old(aes.key[..]) && aes.reg[..] == old(aes.reg[..])
    ensures ret == 0 ==> ScheduleSet(aes, old(userKey[..]), decryption)
    ensures ret == 0 ==> aes.reg[..] == if iv == null then old(aes.reg[..]) else old(iv[..])
  {
    hide Schedule, KeyWords;
    if !(userKey.Length == 16 || userKey.Length == 24 || userKey.Length == 32) {
      return -173;
    }
    AesSetKeyLocal(aes, userKey, decryption);
    AesSetIV(aes.reg, iv);
    ret := 0;
  }

  /** The context holds the schedule of a key. */
  ghost predicate ScheduleSet(aes: Aes, userKey: seq<bv8>, decryption: bool)
    reads aes, aes.key
  {
    && aes.Valid() && |userKey| in {16, 24, 32}
    && aes.rounds == |userKey| / 4 + 6
    && RoundKeys(aes.key[..], aes.rounds)
       == if decryption then DecryptionKeys(Schedule(KeyWords(userKey))) else Schedule(KeyWords(userKey))
  }

  method AesSetKeyLocal(aes: Aes, userKey: array<bv8>, decryption: bool)
    requires aes.Valid() && userKey.Length in {16, 24, 32}
    modifies aes`rounds, aes.key
    ensures ScheduleSet(aes, old(userKey[..]), decryption)
  {
    hide Expanded, Schedule, DecryptionKeys, RoundKeys;
    var keylen := userKey.Length;
    ghost var k := KeyWords(userKey[..]);
    aes.rounds := keylen / 4 + 6;
    LoadKey(aes.key, userKey);
    FilledByKey(aes.key[..], k);
    match keylen {
      case 16 => Expand16(aes.key, k);
      case 24 => Expand24(aes.key, k);
      case _ => Expand32(aes.key, k);
    }
    FilledIsSchedule(aes.key[..], k);
    if decryption {
      InvertSchedule(aes.key, aes.rounds);
    }
  }

  lemma FilledByKey(key: seq<bv32>, k: seq<bv32>)
    requires k != [] && |k| <= |key| && forall i :: 0 <= i < |k| ==> key[i] == k[i]
    ensures Filled(key, k, |k|)
  {
  }
}
