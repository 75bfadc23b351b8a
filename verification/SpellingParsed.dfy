/**
 cJSON reads every document of RFC 8259, however it is spelled, as what it means.
 */
module SpellingParsed {
  import opened Base
  import opened JsonText
  import opened JsonRoundTrip
  import opened JsonSpelling

  // ------------------------------------------------------------- strings

  lemma Places(u: nat)
    requires u < 0x10000
    ensures u == u / 0x1000 * 0x1000 + u / 0x100 % 0x10 * 0x100 + u / 0x10 % 0x10 * 0x10 + u % 0x10
    ensures u / 0x1000 < 0x10
  {
    assert u == u / 0x10 * 0x10 + u % 0x10;
    assert u / 0x10 == u / 0x100 * 0x10 + u / 0x10 % 0x10;
    assert u / 0x100 == u / 0x1000 * 0x10 + u / 0x100 % 0x10;
  }

  lemma HexRead(digits: string, u: nat, rest: string)
    requires Spells(digits, u)
    ensures StartsWithHex4(digits + rest) && Hex4(digits + rest) == u
  {
    DigitIsHex(digits[0], u / 0x1000);
    DigitIsHex(digits[1], u / 0x100 % 0x10);
    DigitIsHex(digits[2], u / 0x10 % 0x10);
    DigitIsHex(digits[3], u % 0x10);
    Places(u);
    hide HexValue, DigitIs, IsHex, Spells;
    var t := digits + rest;
    assert t[0] == digits[0] && t[1] == digits[1] && t[2] == digits[2] && t[3] == digits[3];
  }

  lemma CodeRead(u: nat, digits: string, rest: string)
    requires Proper(Code(u, digits))
    ensures var t := "\\u" + digits + rest;
            StartsWith(t, '\\') && EscapeComplete(t) && Unescape(t) == Piece(Utf8(u), 6)
  {
    hide Utf8, Spells, StartsWithHex4, Hex4;
    var t := "\\u" + digits + rest;
    HexRead(digits, u, rest);
    assert t[2..] == digits + rest;
  }

  lemma FourDigits(digits: string, u: nat)
    requires Spells(digits, u)
    ensures |digits| == 4 && u < 0x10000
  {
  }

  lemma PairSlices(digits: string, digits2: string, rest: string)
    requires |digits| == |digits2| == 4
    ensures var t := "\\u" + digits + "\\u" + digits2 + rest;
            && |t| >= 12 && t[0] == '\\' && t[1] == 'u' && t[6] == '\\' && t[7] == 'u'
            && t[2..] == digits + ("\\u" + digits2 + rest) && t[8..] == digits2 + rest && t[12..] == rest
  {
  }

  lemma Offsets(high: nat, low: nat)
    requires 0xD800 <= high <= 0xDBFF && 0xDC00 <= low <= 0xDFFF
    ensures high % 0x400 == high - 0xD800 && low % 0x400 == low - 0xDC00
  {
  }

  lemma CodesRead(high: nat, digits: string, low: nat, digits2: string, rest: string)
    requires Proper(Codes(high, digits, low, digits2))
    ensures var t := "\\u" + digits + "\\u" + digits2 + rest;
            StartsWith(t, '\\') && EscapeComplete(t)
            && Unescape(t) == Piece(Utf8(0x10000 + (high - 0xD800) * 0x400 + (low - 0xDC00)), 12)
  {
    FourDigits(digits, high);
    FourDigits(digits2, low);
    hide Utf8, Spells, StartsWithHex4, Hex4, EscapeComplete, Unescape;
    PairSlices(digits, digits2, rest);
    PairRead("\\u" + digits + "\\u" + digits2 + rest, high, digits, "\\u" + digits2 + rest, low, digits2, rest);
  }

  lemma PairRead(t: string, high: nat, digits: string, rest: string, low: nat, digits2: string, rest2: string)
    requires |t| >= 12 && t[0] == '\\' && t[1] == 'u' && t[6] == '\\' && t[7] == 'u'
    requires t[2..] == digits + rest && 0xD800 <= high <= 0xDBFF && Spells(digits, high)
    requires t[8..] == digits2 + rest2 && 0xDC00 <= low <= 0xDFFF && Spells(digits2, low)
    ensures EscapeComplete(t)
    ensures Unescape(t) == Piece(Utf8(0x10000 + (high - 0xD800) * 0x400 + (low - 0xDC00)), 12)
  {
    hide Utf8, Spells, StartsWithHex4, Hex4, EscapeComplete, Unescape;
    HexRead(digits, high, rest);
    HexRead(digits2, low, rest2);
    Offsets(high, low);
    PairRule(t, high, low);
  }

  lemma PairRule(t: string, high: int, low: int)
    requires |t| >= 12 && t[0] == '\\' && t[1] == 'u' && t[6] == '\\' && t[7] == 'u'
    requires StartsWithHex4(t[2..]) && Hex4(t[2..]) == high && 0xD800 <= high <= 0xDBFF
    requires StartsWithHex4(t[8..]) && Hex4(t[8..]) == low && 0xDC00 <= low <= 0xDFFF
    ensures EscapeComplete(t) && Unescape(t) == Piece(Utf8(0x10000 + high % 0x400 * 0x400 + low % 0x400), 12)
  {
    hide Utf8, StartsWithHex4, Hex4;
  }

  /** The rules of the unescaping loop. */
  lemma RawRule(c: char, rest: string)
    requires c != '\"' && c != '\\'
    ensures StringBody([c] + rest) == Prepend([c], StringBody(rest))
  {
    assert ([c] + rest)[1..] == rest;
  }

  lemma EscapeRule(t: string, out: string, k: nat)
    requires StartsWith(t, '\\') && EscapeComplete(t) && Unescape(t) == Piece(out, k)
    ensures k <= |t| && StringBody(t) == Prepend(out, StringBody(t[k..]))
  {
    hide EscapeComplete, Unescape;
  }

  lemma LetterRead(c: char, out: string, rest: string)
    requires c !in {'u', '\0'}
    requires out == if c in {'b', 'f', 'n', 'r', 't'} then ShortMeaning(c) else [c]
    ensures StringBody(['\\', c] + rest) == Prepend(out, StringBody(rest))
  {
    var t := ['\\', c] + rest;
    assert t[2..] == rest && t[1] == c;
    EscapeRule(t, out, 2);
  }

  /** One spelled character is read as its meaning. */
  lemma SpellingRead(s: Spelling, rest: string)
    requires Proper(s)
    ensures StringBody(SpellingText(s) + rest) == Prepend(SpellingMeaning(s), StringBody(rest))
  {
    hide StringBody, Prepend, Utf8, Unescape, EscapeComplete, Spells, ShortMeaning;
    var t := SpellingText(s) + rest;
    match s
    case Raw(c) => RawRule(c, rest);
    case Slashed(c) => LetterRead(c, [c], rest);
    case Short(letter) => LetterRead(letter, ShortMeaning(letter), rest);
    case Code(u, digits) =>
      FourDigits(digits, u);
      CodeRead(u, digits, rest);
      EscapeRule(t, Utf8(u), 6);
      assert t[6..] == rest;
    case Codes(high, digits, low, digits2) =>
      FourDigits(digits, high);
      FourDigits(digits2, low);
      CodesRead(high, digits, low, digits2, rest);
      PairSlices(digits, digits2, rest);
      EscapeRule(t, Utf8(0x10000 + (high - 0xD800) * 0x400 + (low - 0xDC00)), 12);
  }

  lemma {:induction false} BodyRead(cs: seq<Spelling>, tail: string)
    requires AllProper(cs) && StartsWith(tail, '\"')
    ensures StringBody(BodyThen(cs, tail)) == Done(StringMeaning(cs), tail)
  {
    hide SpellingText, SpellingMeaning, Proper;
    if cs != [] {
      BodyRead(cs[1..], tail);
      SpellingRead(cs[0], BodyThen(cs[1..], tail));
    }
  }

  /** Every spelling of a string is read as the string, up to the closing quote and no further. */
  lemma StringRead(cs: seq<Spelling>, tail: string)
    requires AllProper(cs)
    ensures ParseString(StringThen(cs, tail)) == Done(StringMeaning(cs), tail)
  {
    hide StringBody, BodyThen, StringMeaning;
    var t := StringThen(cs, tail);
    assert t[1..] == BodyThen(cs, "\"" + tail);
    BodyRead(cs, "\"" + tail);
    assert ("\"" + tail)[1..] == tail;
  }

  // ------------------------------------------------------------- numbers

  predicate StartsDigit(t: string) {
    t != [] && IsDigit(t[0])
  }

  lemma DigitRead(d: nat)
    requires d < 10
    ensures var c := "0123456789"[d];
            IsDigit(c) && DigitValue(c) == d && (c == '0' <==> d == 0)
  {
  }

  lemma Horner(n: nat, d: nat, t: nat)
    ensures (10 * n + d) * t == n * (10 * t) + d * t
  {
  }

  /** One digit more in front, added to n that stands before it. */
  lemma Shifts(n: nat, ds: seq<nat>)
    requires ds != []
    ensures (10 * n + ds[0]) * Ten(|ds| - 1) + Decimal(ds[1..]) == n * Ten(|ds|) + Decimal(ds)
  {
    var t := Ten(|ds| - 1);
    assert Ten(|ds|) == 10 * t;
    assert Decimal(ds) == ds[0] * t + Decimal(ds[1..]);
    hide Ten, Decimal;
    Horner(n, ds[0], t);
  }

  lemma DigitsStep(ds: seq<nat>, tail: string)
    requires AreDigits(ds) && ds != []
    ensures var t := DigitsThen(ds, tail);
            t != [] && IsDigit(t[0]) && DigitValue(t[0]) == ds[0] && t[1..] == DigitsThen(ds[1..], tail)
  {
    DigitRead(ds[0]);
  }

  lemma {:induction false} DigitsRead(n: nat, count: nat, ds: seq<nat>, tail: string)
    requires AreDigits(ds) && !StartsDigit(tail)
    ensures Digits(n as real, count, DigitsThen(ds, tail)) == ((n * Ten(|ds|) + Decimal(ds)) as real, count + |ds|, tail)
    decreases |ds|
  {
    if ds == [] {
      NoDigits(n);
    } else {
      hide DigitsThen, Ten, Decimal;
      DigitsStep(ds, tail);
      assert n as real * 10.0 + ds[0] as real == (10 * n + ds[0]) as real;
      DigitsRead(10 * n + ds[0], count + 1, ds[1..], tail);
      Shifts(n, ds);
    }
  }

  lemma {:induction false} ExponentDigitsRead(n: nat, ds: seq<nat>, tail: string)
    requires AreDigits(ds) && !StartsDigit(tail)
    ensures ExponentDigits(n, DigitsThen(ds, tail)) == (n * Ten(|ds|) + Decimal(ds), tail)
    decreases |ds|
  {
    if ds == [] {
      NoDigits(n);
    } else {
      hide DigitsThen, Ten, Decimal;
      DigitsStep(ds, tail);
      ExponentDigitsRead(10 * n + ds[0], ds[1..], tail);
      Shifts(n, ds);
    }
  }

  lemma DigitsHead(ds: seq<nat>, tail: string)
    requires AreDigits(ds) && ds != []
    ensures StartsDigit(DigitsThen(ds, tail)) && (DigitsThen(ds, tail)[0] == '0' <==> ds[0] == 0)
    ensures DigitsThen(ds, tail)[1..] == DigitsThen(ds[1..], tail)
  {
    DigitRead(ds[0]);
  }

  function SignedExponent(e: Exponent): int {
    if e.NoExponent? then 0
    else
      var d: int := Decimal(e.digits);
      if e.sign == "-" then -d else d
  }

  /** A mark, a sign or none, and digits. */
  lemma ExponentRule(t: string, mark: char, sign: string, ds: string)
    requires t == [mark] + (sign + ds) && mark in {'e', 'E'} && sign in {"", "+", "-"} && StartsDigit(ds)
    ensures ParseExponent(t) == (if sign == "-" then -(ExponentDigits(0, ds).0 as int) else ExponentDigits(0, ds).0, ExponentDigits(0, ds).1)
  {
    hide ExponentDigits;
    assert t[1..] == sign + ds;
    if sign == "" {
      assert sign + ds == ds;
    } else {
      assert (sign + ds)[0] == sign[0];
    }
    assert t[1 + |sign|..] == ds;
  }

  lemma ExponentRead(e: Exponent, tail: string)
    requires e.Exponent? ==> e.mark in {'e', 'E'} && e.sign in {"", "+", "-"} && e.digits != [] && AreDigits(e.digits)
    requires EndsNumber(tail)
    ensures ParseExponent(ExponentThen(e, tail)) == (SignedExponent(e), tail)
  {
    if e.Exponent? {
      hide DigitsThen, Decimal, Ten, ParseExponent, ExponentDigits;
      var ds := DigitsThen(e.digits, tail);
      DigitsHead(e.digits, tail);
      ExponentDigitsRead(0, e.digits, tail);
      ExponentRule(ExponentThen(e, tail), e.mark, e.sign, ds);
    }
  }

  lemma FractionRule(n: real, u: string)
    requires StartsDigit(u)
    ensures Fraction(n, "." + u) == Digits(n, 0, u)
  {
    hide Digits;
    assert ("." + u)[1..] == u;
  }

  lemma FractionRead(w: nat, ds: seq<nat>, tail: string)
    requires AreDigits(ds) && !StartsDigit(tail) && !StartsWith(tail, '.')
    ensures Fraction(w as real, FractionThen(ds, tail)) == ((w * Ten(|ds|) + Decimal(ds)) as real, |ds|, tail)
  {
    hide Digits, Decimal, Ten, Fraction, DigitsThen, IsDigit;
    if ds == [] {
      NoDigits(w);
      NoFractionRule(w as real, tail);
    } else {
      DigitsHead(ds, tail);
      DigitsRead(w, 0, ds, tail);
      FractionRule(w as real, DigitsThen(ds, tail));
    }
  }

  lemma NoFractionRule(n: real, t: string)
    requires !StartsWith(t, '.')
    ensures Fraction(n, t) == (n, 0, t)
  {
  }

  lemma NoDigits(w: nat)
    ensures w * Ten(0) + Decimal([]) == w
  {
  }

  lemma WholeRead(ds: seq<nat>, tail: string)
    requires ds != [] && AreDigits(ds) && (ds[0] == 0 ==> |ds| == 1) && !StartsDigit(tail)
    ensures Whole(DigitsThen(ds, tail)) == (Decimal(ds) as real, tail)
  {
    DigitsHead(ds, tail);
    if ds[0] == 0 {
      assert ds[1..] == [] && DigitsThen([], tail) == tail;
      assert Decimal(ds) == 0;
    } else {
      DigitsRead(0, 0, ds, tail);
      hide Digits, Decimal, Ten;
    }
  }

  lemma {:induction false} TenAdds(a: nat, b: nat)
    ensures Ten(a + b) == Ten(a) * Ten(b)
  {
    if a > 0 {
      TenAdds(a - 1, b);
      Tenfold(Ten(a - 1), Ten(b));
    }
  }

  lemma Tenfold(x: nat, y: nat)
    ensures (10 * x) * y == 10 * (x * y)
  {
  }

  lemma {:induction false} Pow10IsTen(n: nat)
    ensures Pow10(n) == Ten(n) as real
  {
    if n > 0 { Pow10IsTen(n - 1); }
  }

  lemma RealProduct(x: nat, y: nat)
    ensures (x * y) as real == x as real * y as real
  {
  }

  lemma ScaledByTens(a: real, n: int)
    ensures Scaled(a, n) == if n >= 0 then a * Ten(n) as real else a / Ten(-n) as real
  {
    Pow10IsTen(if n >= 0 then n else -n);
    hide Pow10, Ten;
  }

  lemma TensProduct(a: nat, b: nat, c: nat)
    requires c == a + b
    ensures Ten(c) as real == Ten(a) as real * Ten(b) as real
  {
    hide Ten;
    TenAdds(a, b);
    RealProduct(Ten(a), Ten(b));
  }

  /** Shifting the point by the digits of the fraction and then by the exponent. */
  lemma ScaledIs(m: real, a: real, k: nat, e: int)
    requires a == m * Ten(k) as real
    ensures Scaled(a, e - k) == if e < 0 then m / Ten(-e) as real else m * Ten(e) as real
  {
    hide Ten, Scaled;
    ScaledByTens(a, e - k);
    if e < 0 {
      TensProduct(-e, k, k - e);
      Cancels(m, a, Ten(-e) as real, Ten(k) as real, Ten(k - e) as real);
    } else if e >= k {
      TensProduct(e - k, k, e);
      Shuffle(m, a, Ten(k) as real, Ten(e - k) as real, Ten(e) as real);
    } else {
      TensProduct(e, k - e, k);
      Divides(m, a, Ten(e) as real, Ten(k - e) as real, Ten(k) as real);
    }
  }

  lemma Cancels(m: real, a: real, r: real, t: real, product: real)
    requires r > 0.0 && t > 0.0 && product == r * t && a == m * t
    ensures product > 0.0 && a / product == m / r
  {
    var q := m / r;
    assert q * r == m;
    assert q * product == a;
  }

  lemma Shuffle(m: real, a: real, t: real, p: real, product: real)
    requires product == p * t && a == m * t
    ensures a * p == m * product
  {
  }

  lemma Divides(m: real, a: real, r: real, q: real, product: real)
    requires q > 0.0 && product == r * q && a == m * product
    ensures a / q == m * r
  {
    assert a == (m * r) * q;
  }

  lemma MagnitudeIs(w: nat, f: nat, t: nat)
    requires t > 0
    ensures (w * t + f) as real == (w as real + f as real / t as real) * t as real
  {
    var q := f as real / t as real;
    assert q * t as real == f as real;
    assert (w as real + q) * t as real == w as real * t as real + q * t as real;
  }

  /** What the pieces of a number give. */
  lemma ValueIs(n: Numeral)
    requires n.exponent.Exponent? ==> n.exponent.sign in {"", "+", "-"}
    ensures var k := |n.fraction|;
            Scaled((Decimal(n.whole) * Ten(k) + Decimal(n.fraction)) as real, SignedExponent(n.exponent) - k) == Magnitude(n)
  {
    var w, f, k, e := Decimal(n.whole), Decimal(n.fraction), |n.fraction|, SignedExponent(n.exponent);
    TenZero();
    hide Scaled, Decimal, Ten;
    var m := w as real + f as real / Ten(k) as real;
    MagnitudeIs(w, f, Ten(k));
    ScaledIs(m, (w * Ten(k) + f) as real, k, e);
    Units(m);
  }

  lemma Units(m: real)
    ensures m * 1.0 == m && m / 1.0 == m
  {
  }

  lemma TenZero()
    ensures Ten(0) == 1
  {
  }

  lemma PiecesStart(n: Numeral, tail: string)
    requires WellNumbered(n) && EndsNumber(tail)
    ensures var t2 := ExponentThen(n.exponent, tail);
            !StartsDigit(t2) && !StartsWith(t2, '.') && !StartsDigit(FractionThen(n.fraction, t2))
  {
    hide DigitsThen;
  }

  /** A number without its sign, followed by what does not continue it. */
  lemma MagnitudeRead(n: Numeral, tail: string)
    requires WellNumbered(n) && EndsNumber(tail)
    ensures var t := DigitsThen(n.whole, FractionThen(n.fraction, ExponentThen(n.exponent, tail)));
            ParseMagnitude(t) == (Magnitude(n), tail)
  {
    hide Whole, Fraction, ParseExponent, Scaled, Decimal, Ten, DigitsThen, FractionThen, ExponentThen, Magnitude,
         SignedExponent, StartsDigit, EndsNumber;
    var t2 := ExponentThen(n.exponent, tail);
    var t1 := FractionThen(n.fraction, t2);
    PiecesStart(n, tail);
    WholeRead(n.whole, t1);
    FractionRead(Decimal(n.whole), n.fraction, t2);
    ExponentRead(n.exponent, tail);
    ValueIs(n);
  }

  /** Every spelling of a number is read with its value. */
  lemma NumberRead(n: Numeral, tail: string)
    requires WellNumbered(n) && EndsNumber(tail)
    ensures ParseNumber(NumberThen(n, tail)) == (NumberMeaning(n), tail)
  {
    hide ParseMagnitude, Magnitude, DigitsThen, FractionThen, ExponentThen;
    var rest := FractionThen(n.fraction, ExponentThen(n.exponent, tail));
    var t := DigitsThen(n.whole, rest);
    MagnitudeRead(n, tail);
    DigitsHead(n.whole, rest);
    if n.minus {
      assert ("-" + t)[1..] == t;
    } else {
      assert "" + t == t;
    }
  }

  // ------------------------------------------------------------- documents

  lemma {:induction false} BlankSkipped(b: string, u: string)
    requires Blank(b)
    ensures Skip(b + u) == Skip(u)
  {
    if b == [] {
      assert b + u == u;
    } else {
      assert b + u == [b[0]] + (b[1..] + u);
      SkipOne(b[0], b[1..] + u);
      BlankSkipped(b[1..], u);
    }
  }

  lemma BlankThenInk(b: string, u: string)
    requires Blank(b) && u != [] && u[0] > ' '
    ensures Skip(b + u) == u
  {
    BlankSkipped(b, u);
    SkipNothing(u);
  }

  /** Blanks and then a comma, a closing bracket or the end do not continue a number. */
  lemma BlankEnds(b: string, u: string)
    requires Blank(b) && EndsNumber(u)
    ensures EndsNumber(b + u)
  {
    if b == [] {
      assert b + u == u;
    } else {
      assert (b + u)[0] == b[0];
    }
  }

  /** A document starts with neither white space nor a closing bracket. */
  lemma DocHead(d: Doc, tail: string)
    requires WellSpelled(d)
    ensures var t := DocThen(d, tail); t != [] && t[0] > ' ' && t[0] != ']' && t[0] != '}'
  {
    match d
    case NumberDoc(n) =>
      DigitsHead(n.whole, FractionThen(n.fraction, ExponentThen(n.exponent, tail)));
      hide DigitsThen, FractionThen, ExponentThen;
    case _ =>
      hide BodyThen, ItemsThen, EntriesThen;
  }

  lemma WordRead(d: Doc, tail: string)
    requires d.NullDoc? || d.FalseDoc? || d.TrueDoc?
    ensures ParseValue(DocThen(d, tail)) == Done(Meaning(d), tail)
  {
    var t := DocThen(d, tail);
    match d
    case NullDoc => assert t[..4] == "null" && t[4..] == tail;
    case FalseDoc => assert t[..5] == "false" && t[5..] == tail && t[0] == 'f';
    case TrueDoc => assert t[..4] == "true" && t[4..] == tail && t[0] == 't';
  }

  /** A document is read as what it means, up to its last character and no further. */
  lemma {:induction false} DocRead(d: Doc, tail: string)
    requires WellSpelled(d) && (d.NumberDoc? ==> EndsNumber(tail))
    ensures ParseValue(DocThen(d, tail)) == Done(Meaning(d), tail)
    decreases d, 1
  {
    hide ParseValue, ParseNumber, ParseString, NumberThen, StringThen, ItemsThen, EntriesThen;
    match d
    case NumberDoc(n) =>
      DocHead(d, tail);
      NumberHead(n, tail);
      NumberRule(NumberThen(n, tail));
      NumberRead(n, tail);
    case StringDoc(cs) =>
      StringRead(cs, tail);
      StringRule(StringThen(cs, tail), StringMeaning(cs), tail);
    case ArrayDoc(_, _) => ArrayRead(d, tail);
    case ObjectDoc(_, _) => ObjectRead(d, tail);
    case _ => WordRead(d, tail);
  }

  lemma NumberHead(n: Numeral, tail: string)
    requires WellNumbered(n)
    ensures var t := NumberThen(n, tail); t != [] && (t[0] == '-' || IsDigit(t[0]))
  {
    hide DigitsThen, FractionThen, ExponentThen;
    var rest := FractionThen(n.fraction, ExponentThen(n.exponent, tail));
    DigitsHead(n.whole, rest);
    if !n.minus { assert "" + DigitsThen(n.whole, rest) == DigitsThen(n.whole, rest); }
  }

  lemma {:induction false} ArrayRead(d: Doc, tail: string)
    requires WellSpelled(d) && d.ArrayDoc?
    ensures ParseValue(DocThen(d, tail)) == Done(Meaning(d), tail)
    decreases d, 0
  {
    hide ParseValue, ParseItems;
    var t, close := DocThen(d, tail), "]" + tail;
    assert close[1..] == tail;
    assert t[1..] == d.inner + ItemsThen(d.items, close);
    if d.items == [] {
      hide ItemsThen;
      assert ItemsThen([], close) == close by { EmptyLists(close); }
      BlankThenInk(d.inner, close);
      EmptyArrayRule(t);
    } else {
      hide ItemsThen;
      var u := ItemsThen(d.items, close);
      assert t[1..] == u;
      ItemsRead(d.items, close);
      SkipTwice(u);
      ItemsIgnoreBlanks(Skip(u), u);
      ArrayRule(t, ItemsMeaning(d.items), close);
    }
  }

  lemma ItemsUnfold(items: seq<Item>, tail: string)
    requires items != [] && ItemsSpelled(items)
    ensures ItemsThen(items, tail) == items[0].before + DocThen(items[0].doc, items[0].after + ItemsRest(items, tail))
  {
  }

  /** What follows a document and its blanks does not continue its digits. */
  predicate Apart(d: Doc, after: string, rest: string) {
    d.NumberDoc? && after == "" ==> EndsNumber(rest)
  }

  /** Behind an item or an entry and its blanks the list ends. */
  predicate Stops(d: Doc, after: string, tail: string) {
    (tail == [] || tail[0] > ' ') && !StartsWith(tail, ',') && Apart(d, after, tail)
  }

  lemma BlankApart(d: Doc, after: string, rest: string)
    requires Blank(after) && Apart(d, after, rest)
    ensures d.NumberDoc? ==> EndsNumber(after + rest)
  {
    if after == "" {
      assert after + rest == rest;
    } else {
      assert (after + rest)[0] == after[0];
    }
  }

  lemma BlankThenEnd(b: string, u: string)
    requires Blank(b) && (u == [] || u[0] > ' ')
    ensures Skip(b + u) == u
  {
    if u == [] { BlankSkipped(b, u); } else { BlankThenInk(b, u); }
  }

  /** One item and more, up to what ends the list. */
  lemma {:induction false} ItemsRead(items: seq<Item>, tail: string)
    requires items != [] && ItemsSpelled(items) && Stops(items[|items| - 1].doc, items[|items| - 1].after, tail)
    ensures ParseItems(ItemsThen(items, tail)) == Done(ItemsMeaning(items), tail)
    ensures !StartsWith(Skip(ItemsThen(items, tail)), ']')
    decreases items
  {
    hide ParseValue, ParseItems, DocThen, ItemsThen, Meaning, WellSpelled, EndsNumber, Blank;
    var x := items[0];
    var rest := ItemsRest(items, tail);
    var r := x.after + rest;
    var t := ItemsThen(items, tail);
    ItemsUnfold(items, tail);
    DocHead(x.doc, r);
    BlankThenInk(x.before, DocThen(x.doc, r));
    if |items| > 1 { InkEnds(rest); }
    BlankApart(x.doc, x.after, rest);
    DocRead(x.doc, r);
    BlankThenEnd(x.after, rest);
    if |items| == 1 {
      ItemsLast(t, Meaning(x.doc), r);
      assert ItemsMeaning(items) == [Meaning(x.doc)];
    } else {
      ItemsRead(items[1..], tail);
      assert rest[1..] == ItemsThen(items[1..], tail);
      ItemsMore(t, Meaning(x.doc), r, ItemsMeaning(items[1..]), tail);
    }
  }

  lemma InkEnds(t: string)
    requires t != [] && t[0] in {',', ']', '}'}
    ensures EndsNumber(t) && t[0] > ' '
  {
  }

  lemma {:induction false} ObjectRead(d: Doc, tail: string)
    requires WellSpelled(d) && d.ObjectDoc?
    ensures ParseValue(DocThen(d, tail)) == Done(Meaning(d), tail)
    decreases d, 0
  {
    hide ParseValue, ParseMembers;
    var t, close := DocThen(d, tail), "}" + tail;
    assert close[1..] == tail;
    assert t[1..] == d.inner + EntriesThen(d.entries, close);
    if d.entries == [] {
      hide EntriesThen;
      assert EntriesThen([], close) == close by { EmptyLists(close); }
      BlankThenInk(d.inner, close);
      EmptyObjectRule(t);
    } else {
      hide EntriesThen;
      var u := EntriesThen(d.entries, close);
      assert t[1..] == u;
      EntriesRead(d.entries, close);
      SkipTwice(u);
      MembersIgnoreBlanks(Skip(u), u);
      ObjectRule(t, EntriesMeaning(d.entries), close);
    }
  }

  lemma {:induction false} EntryRead(x: Entry, rest: string)
    requires Blank(x.before) && AllProper(x.name) && Blank(x.afterName) && Blank(x.beforeDoc) && WellSpelled(x.doc) && Blank(x.after)
    requires Apart(x.doc, x.after, rest)
    ensures var t := EntryThen(x, rest);
            ParseMember(t) == Done(Member(StringMeaning(x.name), Meaning(x.doc)), x.after + rest)
            && !StartsWith(Skip(t), '}')
    decreases x, 2
  {
    hide ParseValue, ParseString, ParseMember, DocThen, BodyThen, StringMeaning, Meaning, WellSpelled, EndsNumber, Blank, AllProper;
    var value := DocThen(x.doc, x.after + rest);
    var r2 := ":" + (x.beforeDoc + value);
    var r1 := x.afterName + r2;
    var u := StringThen(x.name, r1);
    BlankThenInk(x.before, u);
    StringRead(x.name, r1);
    BlankThenInk(x.afterName, r2);
    assert r2[1..] == x.beforeDoc + value;
    DocHead(x.doc, x.after + rest);
    BlankThenInk(x.beforeDoc, value);
    BlankApart(x.doc, x.after, rest);
    DocRead(x.doc, x.after + rest);
    MemberRule(x.before + u, StringMeaning(x.name), r1, Meaning(x.doc), x.after + rest);
  }

  lemma {:induction false} EntriesRead(entries: seq<Entry>, tail: string)
    requires entries != [] && EntriesSpelled(entries)
    requires Stops(entries[|entries| - 1].doc, entries[|entries| - 1].after, tail)
    ensures ParseMembers(EntriesThen(entries, tail)) == Done(EntriesMeaning(entries), tail)
    ensures !StartsWith(Skip(EntriesThen(entries, tail)), '}')
    decreases entries
  {
    hide ParseMember, ParseMembers, DocThen, EntryThen, StringThen, StringMeaning, Meaning, WellSpelled, Blank, AllProper;
    var x := entries[0];
    var rest := EntriesRest(entries, tail);
    var t := EntriesThen(entries, tail);
    assert t == EntryThen(x, rest);
    if |entries| > 1 { InkEnds(rest); }
    EntryRead(x, rest);
    BlankThenEnd(x.after, rest);
    var m := Member(StringMeaning(x.name), Meaning(x.doc));
    if |entries| == 1 {
      MembersLast(t, m, x.after + rest);
      assert EntriesMeaning(entries) == [m];
    } else {
      EntriesRead(entries[1..], tail);
      assert rest[1..] == EntriesThen(entries[1..], tail);
      MembersMore(t, m, x.after + rest, EntriesMeaning(entries[1..]), tail);
    }
  }

  /** cJSON_ParseWithOpts accepts every document of the standard, with blanks around it, whole and
      with its meaning. */
  lemma StandardIsParsed(before: string, d: Doc, after: string, whole: bool)
    requires Blank(before) && WellSpelled(d) && Blank(after)
    ensures ParseWithOpts(before + DocThen(d, after), whole) == Done(Meaning(d), if whole then [] else after)
  {
    hide ParseValue, DocThen, Meaning, WellSpelled;
    DocHead(d, after);
    BlankThenInk(before, DocThen(d, after));
    BlankEnds(after, []);
    assert after + [] == after;
    DocRead(d, after);
    BlankSkipped(after, []);
  }
}
