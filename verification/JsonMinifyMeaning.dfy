/**
 Minifying never changes what a text means: every text the parser accepts as a whole is
 accepted after minification with the same tree. The parser's routines are first shown to
 be local, that is, to depend only on the characters they consume and on what stops them.
 */
module JsonMinifyMeaning {
  import opened Base
  import opened JsonText
  import opened JsonRoundTrip
  import opened JsonMinify
  import opened JsonMinifyPrinted

  /** The texts that can follow a value: white space or a structural character. */
  predicate Stops(t: string) {
    t == [] || t[0] <= ' ' || t[0] == ',' || t[0] == ']' || t[0] == '}' || t[0] == ':'
  }

  // ---------------------------------------------------------------- numbers

  predicate NumberChar(c: char) {
    IsDigit(c) || c == '-' || c == '+' || c == '.' || c == 'e' || c == 'E'
  }

  predicate AllNumberChars(s: string) {
    forall i :: 0 <= i < |s| ==> NumberChar(s[i])
  }

  lemma DigitsRule(n: real, count: nat, t: string)
    ensures Digits(n, count, t) ==
            if t != [] && IsDigit(t[0]) then Digits(n * 10.0 + DigitValue(t[0]) as real, count + 1, t[1..])
            else (n, count, t)
  {
  }

  lemma {:induction false} DigitsLocal(n: real, count: nat, t: string, x: string) returns (c: string)
    requires x == [] || !IsDigit(x[0])
    ensures var (d, k, r) := Digits(n, count, t);
            t == c + r && AllNumberChars(c) && Digits(n, count, c + x) == (d, k, x)
            && (r == [] || !IsDigit(r[0])) && (c != [] ==> IsDigit(c[0])) && (t != [] && IsDigit(t[0]) ==> c != [])
    decreases t
  {
    hide Digits;
    DigitsRule(n, count, t);
    if t != [] && IsDigit(t[0]) {
      var m := n * 10.0 + DigitValue(t[0]) as real;
      var c' := DigitsLocal(m, count + 1, t[1..], x);
      c := [t[0]] + c';
      DigitsRule(n, count, c + x);
      assert (c + x)[1..] == c' + x;
    } else {
      DigitsRule(n, count, x);
      c := [];
      assert [] + x == x && [] + t == t;
    }
  }

  lemma {:induction false} ExponentDigitsLocal(e: nat, t: string, x: string) returns (c: string)
    requires x == [] || !IsDigit(x[0])
    ensures var (d, r) := ExponentDigits(e, t);
            t == c + r && AllNumberChars(c) && ExponentDigits(e, c + x) == (d, x)
            && (c != [] ==> IsDigit(c[0]))
    decreases t
  {
    if t != [] && IsDigit(t[0]) {
      var c' := ExponentDigitsLocal(e * 10 + DigitValue(t[0]), t[1..], x);
      c := [t[0]] + c';
      assert (c + x)[1..] == c' + x;
    } else {
      c := [];
      assert [] + x == x && [] + t == t;
    }
  }

  lemma NumberCharsCat(s: string, t: string)
    requires AllNumberChars(s) && AllNumberChars(t)
    ensures AllNumberChars(s + t)
  {
  }

  lemma SignLocal(sign: string, digits: string, x: string, t: string)
    requires sign == t[..SignLength(t)] && (digits != [] ==> IsDigit(digits[0])) && Stops(x)
    ensures SignLength(sign + (digits + x)) == |sign|
    ensures StartsWith(sign + (digits + x), '-') == StartsWith(t, '-')
  {
    var y := sign + (digits + x);
    if y != [] { assert y[0] == if sign != [] then t[0] else if digits != [] then digits[0] else x[0]; }
  }

  lemma ExponentRule(t: string, k: nat, d: nat, r: string)
    requires StartsWith(t, 'e') || StartsWith(t, 'E')
    requires k == SignLength(t[1..]) && ExponentDigits(0, t[1 + k..]) == (d, r)
    ensures ParseExponent(t) == (if StartsWith(t[1..], '-') then -(d as int) else d, r)
  {
  }

  lemma ExponentStart(t: string, x: string)
    requires StartsWith(t, 'e') || StartsWith(t, 'E')
    ensures SignLength(t[1..]) <= |t[1..]|
    ensures AllNumberChars(t[1..][..SignLength(t[1..])]) && AllNumberChars([t[0]])
    ensures Stops(x) ==> x == [] || !IsDigit(x[0])
  {
  }

  lemma ExponentPieces(t: string, k: nat, digits: string, r: string, x: string)
    requires t != [] && k <= |t[1..]| && t[1 + k..] == digits + r
    ensures var sign := t[1..][..k];
            var c := [t[0]] + (sign + digits);
            t == c + r && (c + x)[1..] == sign + (digits + x) && (c + x)[1 + k..] == digits + x && (c + x)[0] == t[0]
  {
    var sign := t[1..][..k];
    assert t == [t[0]] + (sign + t[1 + k..]);
    Regroup(sign, digits, r);
    Regroup([t[0]], sign + digits, r);
    Regroup(sign, digits, x);
    Regroup([t[0]], sign + digits, x);
  }

  lemma ExponentTaken(t: string, x: string) returns (c: string)
    requires Stops(x) && (StartsWith(t, 'e') || StartsWith(t, 'E'))
    ensures var (e, r) := ParseExponent(t);
            t == c + r && AllNumberChars(c) && ParseExponent(c + x) == (e, x) && c != [] && c[0] == t[0]
  {
    hide ParseExponent, ExponentDigits, SignLength, Stops, AllNumberChars;
    ExponentStart(t, x);
    var k := SignLength(t[1..]);
    var sign := t[1..][..k];
    var digits := ExponentDigitsLocal(0, t[1 + k..], x);
    c := [t[0]] + (sign + digits);
    NumberCharsCat(sign, digits);
    NumberCharsCat([t[0]], sign + digits);
    var (d, r) := ExponentDigits(0, t[1 + k..]);
    ExponentPieces(t, k, digits, r, x);
    SignLocal(sign, digits, x, t[1..]);
    ExponentRule(t, k, d, r);
    ExponentRule(c + x, k, d, x);
  }

  lemma ExponentLocal(t: string, x: string) returns (c: string)
    requires Stops(x)
    ensures var (e, r) := ParseExponent(t);
            t == c + r && AllNumberChars(c) && ParseExponent(c + x) == (e, x)
            && (c != [] ==> c[0] == 'e' || c[0] == 'E')
  {
    if StartsWith(t, 'e') || StartsWith(t, 'E') {
      c := ExponentTaken(t, x);
    } else {
      c := [];
      assert [] + x == x && [] + t == t;
    }
  }

  lemma FractionLocal(n: real, t: string, x: string) returns (c: string)
    requires x == [] || (!IsDigit(x[0]) && x[0] != '.')
    ensures var (m, scale, r) := Fraction(n, t);
            t == c + r && AllNumberChars(c) && Fraction(n, c + x) == (m, scale, x)
            && (c != [] ==> c[0] == '.')
  {
    if |t| >= 2 && t[0] == '.' && IsDigit(t[1]) {
      var digits := DigitsLocal(n, 0, t[1..], x);
      c := ['.'] + digits;
      assert (c + x)[1..] == digits + x;
      assert (c + x)[1] == t[1];
    } else {
      c := [];
      assert [] + x == x && [] + t == t;
    }
  }

  lemma WholeRule(t: string, zero: string, u: string)
    requires t == zero + u && zero == if StartsWith(t, '0') then "0" else ""
    ensures Whole(t) == if u != [] && '1' <= u[0] <= '9' then (Digits(0.0, 0, u).0, Digits(0.0, 0, u).2) else (0.0, u)
  {
    assert t[|zero|..] == u;
  }

  lemma ZeroChars(t: string)
    ensures var zero := if StartsWith(t, '0') then "0" else "";
            AllNumberChars(zero) && t == zero + t[|zero|..] && (t != [] && IsDigit(t[0]) && zero == "" ==> '1' <= t[0] <= '9')
  {
  }

  lemma WholeLocal(t: string, x: string) returns (c: string)
    requires x == [] || !IsDigit(x[0])
    ensures var (n, r) := Whole(t);
            t == c + r && AllNumberChars(c) && Whole(c + x) == (n, x)
            && (c != [] ==> IsDigit(c[0])) && (t != [] && IsDigit(t[0]) ==> c != [])
  {
    hide Whole, Digits, AllNumberChars;
    var zero := if StartsWith(t, '0') then "0" else "";
    var u := t[|zero|..];
    ZeroChars(t);
    WholeRule(t, zero, u);
    if u != [] && '1' <= u[0] <= '9' {
      var digits := DigitsLocal(0.0, 0, u, x);
      c := zero + digits;
      NumberCharsCat(zero, digits);
      Regroup(zero, digits, x);
      Regroup(zero, digits, Digits(0.0, 0, u).2);
      assert (digits + x)[0] == u[0];
      WholeRule(c + x, zero, digits + x);
    } else {
      c := zero;
      WholeRule(c + x, zero, x);
    }
  }

  lemma MagnitudeLocal(t: string, x: string) returns (c: string)
    requires Stops(x)
    ensures t == c + ParseMagnitude(t).1 && AllNumberChars(c)
    ensures ParseMagnitude(c + x) == (ParseMagnitude(t).0, x)
    ensures t != [] && IsDigit(t[0]) ==> c != [] && c[0] == t[0]
  {
    hide Whole, Fraction, ParseExponent, Scaled;
    var (n, t3) := Whole(t);
    var (m, scale, t4) := Fraction(n, t3);
    var c5 := ExponentLocal(t4, x);
    var x4 := c5 + x;
    assert x4 == [] || x4[0] == if c5 != [] then c5[0] else x[0];
    var c4 := FractionLocal(n, t3, x4);
    var x3 := c4 + x4;
    assert x3 == [] || x3[0] == if c4 != [] then c4[0] else x4[0];
    var c3 := WholeLocal(t, x3);
    c := c3 + (c4 + c5);
    hide Stops;
    assert c + x == c3 + x3;
    assert t == c + ParseMagnitude(t).1;
  }

  lemma NumberLocal(t: string, x: string) returns (c: string)
    requires Stops(x) && t != [] && (t[0] == '-' || IsDigit(t[0]))
    ensures t == c + ParseNumber(t).1 && AllNumberChars(c) && c != [] && c[0] == t[0]
    ensures ParseNumber(c + x) == (ParseNumber(t).0, x)
  {
    hide ParseMagnitude;
    if t[0] == '-' {
      var c' := MagnitudeLocal(t[1..], x);
      c := ['-'] + c';
      assert (c + x)[1..] == c' + x;
    } else {
      c := MagnitudeLocal(t, x);
      assert (c + x)[0] == t[0];
    }
  }

  // ---------------------------------------------------------------- strings

  /** The first n characters of two texts are the same. */
  predicate SameHead(s: string, t: string, n: nat) {
    n <= |s| && n <= |t| && s[..n] == t[..n]
  }

  lemma UnescapeLocal(t: string, t': string, n: nat)
    requires StartsWith(t, '\\') && EscapeComplete(t) && SameHead(t, t', n)
    requires Unescape(t).taken < n
    requires n >= 8 || (n == 7 && t[6] != '\\') || t[1] != 'u'
    ensures StartsWith(t', '\\') && EscapeComplete(t') && Unescape(t') == Unescape(t)
  {
    assert forall i :: 0 <= i < n ==> t[..n][i] == t'[..n][i];
    assert forall i :: 0 <= i < n ==> t[i] == t'[i];
    if t[1] == 'u' {
      assert Hex4(t[2..]) == Hex4(t'[2..]);
      if Unescape(t).taken == 12 { assert Hex4(t[8..]) == Hex4(t'[8..]); }
    }
  }

  lemma EscapePairLiteral(c: char, y: string)
    requires LiteralLength(y).Some?
    ensures LiteralLength(['\\', c] + y) == Some(LiteralLength(y).value + 2)
  {
    hide LiteralLength;
    var t := ['\\', c] + y;
    assert t[0] == '\\' && t[2..] == y;
    LiteralTakes(t, 2);
  }

  lemma Hex4Literal(t: string, y: string)
    requires StartsWith(t, '\\') && |t| >= 6 && t[1] == 'u' && StartsWithHex4(t[2..]) && LiteralLength(y).Some?
    ensures LiteralLength(t[..6] + y) == Some(LiteralLength(y).value + 6)
  {
    hide LiteralLength;
    var hex := [t[2], t[3], t[4], t[5]];
    assert t[2..][0] == t[2] && t[2..][1] == t[3] && t[2..][2] == t[4] && t[2..][3] == t[5];
    PlainLiteralText(hex, y);
    EscapePairLiteral('u', hex + y);
    assert t[..6] + y == ['\\', 'u'] + (hex + y);
  }

  /** The minifier takes an escape sequence as a unit, as the parser does. */
  lemma EscapeLiteral(t: string, y: string)
    requires StartsWith(t, '\\') && EscapeComplete(t) && LiteralLength(y).Some?
    ensures var k := Unescape(t).taken; LiteralLength(t[..k] + y) == Some(LiteralLength(y).value + k)
  {
    hide LiteralLength, Hex4, Utf8;
    var k := Unescape(t).taken;
    if k == 2 {
      EscapePairLiteral(t[1], y);
      assert t[..2] == ['\\', t[1]];
    } else if k == 6 {
      Hex4Literal(t, y);
    } else {
      assert k == 12;
      PairLiteral(t, y);
    }
  }

  lemma PairLiteral(t: string, y: string)
    requires StartsWith(t, '\\') && |t| >= 12 && t[1] == 'u' && StartsWithHex4(t[2..])
    requires t[6] == '\\' && t[7] == 'u' && StartsWithHex4(t[8..]) && LiteralLength(y).Some?
    ensures LiteralLength(t[..12] + y) == Some(LiteralLength(y).value + 12)
  {
    hide LiteralLength;
    var second := t[6..12];
    assert second[2..] == t[8..12];
    assert second[..6] == second;
    assert t[8..12][0] == t[8] && t[8..12][1] == t[9] && t[8..12][2] == t[10] && t[8..12][3] == t[11];
    assert StartsWithHex4(second[2..]) by { assert StartsWithHex4(t[8..]); }
    Hex4Literal(second, y);
    Hex4Literal(t, second + y);
    assert t[..12] + y == t[..6] + (second + y);
  }

  lemma PlainBody(c: char, y: string)
    requires c != '\"' && c != '\\'
    ensures StringBody([c] + y) == Prepend([c], StringBody(y))
  {
    assert ([c] + y)[1..] == y;
  }

  lemma EscapedBody(t: string)
    requires StartsWith(t, '\\') && EscapeComplete(t)
    ensures StringBody(t) == Prepend(Unescape(t).out, StringBody(t[Unescape(t).taken..]))
  {
  }

  lemma {:induction false} BodyLocal(t: string, x: string) returns (c: string)
    requires StringBody(t).Done? && StringBody(t).rest != [] && StartsWith(x, '\"')
    ensures var r := StringBody(t).rest; StartsWith(r, '\"') && t == c + r
    ensures StringBody(c + x) == Done(StringBody(t).v, x)
    ensures LiteralLength(c + x) == Some(|c| + 1)
    ensures StartsWith(t, '\\') ==> |c| >= 2
    decreases |t|
  {
    hide StringBody, LiteralLength;
    if t == [] || t[0] == '\"' {
      QuoteEnds(t, x);
      c := [];
      assert [] + x == x && [] + t == t;
    } else if t[0] != '\\' {
      assert t == [t[0]] + t[1..];
      PlainBody(t[0], t[1..]);
      var c' := BodyLocal(t[1..], x);
      c := [t[0]] + c';
      assert c + x == [t[0]] + (c' + x);
      PlainBody(t[0], c' + x);
      PlainLiteralChar(t[0], c' + x);
    } else {
      c := EscapeLocal(t, x);
    }
  }

  lemma QuoteEnds(t: string, x: string)
    requires t == [] || StartsWith(t, '\"')
    requires StringBody(t).Done? && StringBody(t).rest != [] && StartsWith(x, '\"')
    ensures StartsWith(t, '\"') && StringBody(t) == Done([], t)
    ensures StringBody(x) == Done([], x) && LiteralLength(x) == Some(1)
  {
  }

  lemma EscapeStart(t: string)
    requires StringBody(t).Done? && StringBody(t).rest != [] && StartsWith(t, '\\')
    ensures EscapeComplete(t)
    ensures var k := Unescape(t).taken;
            && StringBody(t) == Prepend(Unescape(t).out, StringBody(t[k..]))
            && StringBody(t[k..]).Done? && StringBody(t[k..]).rest == StringBody(t).rest
            && (t[1] == 'u' ==> k >= 6)
  {
    EscapedBody(t);
  }

  lemma {:induction false} EscapeLocal(t: string, x: string) returns (c: string)
    requires StringBody(t).Done? && StringBody(t).rest != [] && StartsWith(x, '\"') && StartsWith(t, '\\')
    ensures var r := StringBody(t).rest; StartsWith(r, '\"') && t == c + r
    ensures StringBody(c + x) == Done(StringBody(t).v, x)
    ensures LiteralLength(c + x) == Some(|c| + 1)
    ensures |c| >= 2
    decreases |t|, 0
  {
    hide StringBody, Unescape, LiteralLength, EscapeComplete, SameHead, Hex4, StartsWithHex4;
    EscapeStart(t);
    var k := Unescape(t).taken;
    var u := t[k..];
    var c' := BodyLocal(u, x);
    c := t[..k] + c';
    var y, r := c + x, StringBody(u).rest;
    EscapeHead(t, k, c', r, x);
    QuoteBehind(t, k, c', r);
    UnescapeLocal(t, y, |c| + 1);
    EscapedBody(y);
    EscapeLiteral(t, c' + x);
  }

  lemma QuoteBehind(t: string, k: nat, c: string, r: string)
    requires k <= |t| && t[k..] == c + r && StartsWith(r, '\"')
    ensures |t| > k + |c| && t[k + |c|] == '\"'
  {
    assert t[k..][|c|] == r[0];
  }

  lemma EscapeHead(t: string, k: nat, c: string, r: string, x: string)
    requires k <= |t| && t[k..] == c + r && r != [] && x != [] && r[0] == x[0]
    ensures var y := t[..k] + c + x;
            y == t[..k] + (c + x) && y[k..] == c + x && t == t[..k] + c + r && SameHead(t, y, k + |c| + 1)
  {
    var y := t[..k] + c + x;
    assert t == t[..k] + t[k..];
    assert t[..k + |c| + 1] == t[..k] + c + [r[0]];
    assert y[..k + |c| + 1] == t[..k] + c + [x[0]];
  }

  /** A closed string literal: what it consumes, for the parser and for the minifier. */
  lemma StringLocal(t: string, x: string) returns (c: string)
    requires ParseString(t).Done? && LiteralLength(t[1..]).Some?
    ensures t == c + ParseString(t).rest && StartsWith(c, '\"')
    ensures ParseString(c + x) == Done(ParseString(t).v, x)
    ensures Minified(t) == Then(c, Minified(ParseString(t).rest))
  {
    if StringBody(t[1..]).rest == [] { OpenBody(t[1..]); }
    var quoted := StringBody(t[1..]).rest;
    hide StringBody, LiteralLength, Minified;
    var rest := ParseString(t).rest;
    var body := BodyLocal(t[1..], "\"" + x);
    assert quoted == "\"" + rest;
    c := "\"" + (body + "\"");
    assert t == "\"" + (body + quoted);
    StringAgain(body, StringBody(t[1..]).v, x);
    var again := BodyLocal(t[1..], quoted);
    SameFront(again, body, quoted);
    StringMinified(t, c, rest);
  }

  lemma SameFront(a: string, b: string, r: string)
    requires a + r == b + r
    ensures a == b
  {
    assert |a| == |b|;
    assert (a + r)[..|a|] == a && (b + r)[..|a|] == b;
  }

  lemma StringAgain(body: string, s: string, x: string)
    requires StringBody(body + ("\"" + x)) == Done(s, "\"" + x)
    ensures ParseString("\"" + (body + "\"") + x) == Done(s, x)
  {
    hide StringBody;
    var t := "\"" + (body + "\"") + x;
    assert t[1..] == body + ("\"" + x);
    assert ("\"" + x)[1..] == x;
    assert StartsWith(t, '\"');
  }

  lemma StringMinified(t: string, c: string, rest: string)
    requires StartsWith(t, '\"') && t == c + rest && |c| >= 1
    requires LiteralLength(t[1..]) == Some(|c| - 1)
    ensures Minified(t) == Then(c, Minified(rest))
  {
    assert t[..|c|] == c && t[|c|..] == rest;
  }

  lemma {:induction false} OpenBody(t: string)
    requires StringBody(t).Done? && StringBody(t).rest == []
    ensures LiteralLength(t).None?
    decreases |t|
  {
    if t != [] {
      if t[0] != '\\' {
        OpenBody(t[1..]);
      } else {
        EscapedBody(t);
        var k := Unescape(t).taken;
        OpenBody(t[k..]);
        OpenEscape(t, k);
      }
    }
  }

  lemma {:induction false} LiteralNoneBefore(s: string, y: string)
    requires LiteralLength(y).None?
    requires forall i :: 0 <= i < |s| ==> s[i] != '\"' && s[i] != '\\'
    ensures LiteralLength(s + y).None?
  {
    if s == [] {
      assert s + y == y;
    } else {
      LiteralNoneBefore(s[1..], y);
      assert (s + y)[1..] == s[1..] + y;
    }
  }

  lemma OpenHex4(t: string, y: string)
    requires StartsWith(t, '\\') && |t| >= 6 && t[1] == 'u' && StartsWithHex4(t[2..]) && LiteralLength(y).None?
    ensures LiteralLength(t[..6] + y).None?
  {
    var hex := [t[2], t[3], t[4], t[5]];
    assert t[2..][0] == t[2] && t[2..][1] == t[3] && t[2..][2] == t[4] && t[2..][3] == t[5];
    LiteralNoneBefore(hex, y);
    assert t[..6] + y == ['\\', 'u'] + (hex + y);
    assert (['\\', 'u'] + (hex + y))[2..] == hex + y;
  }

  lemma OpenEscape(t: string, k: nat)
    requires StartsWith(t, '\\') && EscapeComplete(t) && k == Unescape(t).taken && LiteralLength(t[k..]).None?
    ensures LiteralLength(t).None?
  {
    var y := t[k..];
    if k == 6 {
      OpenHex4(t, y);
      assert t == t[..6] + y;
    } else if k == 12 {
      var second := t[6..12];
      assert second[2..] == t[8..12];
      assert second[..6] == second;
      assert t[8..12][0] == t[8] && t[8..12][1] == t[9] && t[8..12][2] == t[10] && t[8..12][3] == t[11];
      assert StartsWithHex4(second[2..]) by { assert StartsWithHex4(t[8..]); }
      OpenHex4(second, y);
      OpenHex4(t, second + y);
      assert t == t[..6] + (second + y);
    }
  }

  // ------------------------------------------------------------ white space

  predicate AllControl(s: string) {
    forall i :: 0 <= i < |s| ==> s[i] <= ' '
  }

  /** The parser skips more characters than the minifier removes; w are those that stay. */
  lemma {:induction false} Residue(t: string) returns (w: string)
    ensures AllControl(w) && Minified(t) == Then(w, Minified(Skip(t)))
    decreases t
  {
    if t != [] && t[0] <= ' ' {
      var w' := Residue(t[1..]);
      if IsBlank(t[0]) {
        w := w';
      } else {
        w := [t[0]] + w';
        ThenThen([t[0]], w', Minified(Skip(t)));
        assert t[..1] == [t[0]];
      }
    } else {
      w := [];
      NothingStays(t);
    }
  }

  lemma {:induction false} SkipControl(w: string, y: string)
    requires AllControl(w)
    ensures Skip(w + y) == Skip(y)
  {
    if w == [] {
      assert w + y == y;
    } else {
      SkipControl(w[1..], y);
      assert w + y == [w[0]] + (w[1..] + y);
      SkipOne(w[0], w[1..] + y);
    }
  }

  lemma ControlStops(w: string, y: string)
    requires AllControl(w) && Stops(y)
    ensures Stops(w + y)
  {
    if w == [] { assert w + y == y; }
  }

  // ----------------------------------------------------------------- values

  /** m is the minified form of what the parser reads at t as the value v. */
  ghost predicate Means(t: string, m: string, v: Json, rest: string) {
    && m != [] && t != [] && m[0] == t[0] && t[0] > ' '
    && Minified(t) == Then(m, Minified(rest))
    && forall u :: Stops(u) ==> ParseValue(m + u) == Done(v, u)
  }

  lemma PrefixMeans(t: string, word: string, v: Json)
    requires word <= t && (word, v) in {("null", Null), ("false", False), ("true", True)}
    ensures Means(t, word, v, t[|word|..])
  {
    var rest := t[|word|..];
    assert t == word + rest;
    PlainStays(word, rest);
    forall u | Stops(u)
      ensures ParseValue(word + u) == Done(v, u)
    {
      var y := word + u;
      assert y[..|word|] == word && y[|word|..] == u;
      assert y[0] == word[0];
    }
  }

  lemma NumberMeans(t: string) returns (m: string)
    requires t != [] && (t[0] == '-' || IsDigit(t[0]))
    ensures Means(t, m, Number(ParseNumber(t).0), ParseNumber(t).1)
  {
    var (d, rest) := ParseNumber(t);
    hide ParseNumber, Minified;
    m := NumberLocal(t, []);
    PlainStays(m, rest);
    forall u | Stops(u)
      ensures ParseValue(m + u) == Done(Number(d), u)
    {
      var c := NumberLocal(t, u);
      assert c == m by { assert |c| == |m|; assert c == t[..|c|] && m == t[..|m|]; }
      assert (m + u)[0] == t[0];
      NumberRule(m + u);
    }
  }

  lemma StringMeans(t: string) returns (m: string)
    requires ParseString(t).Done? && LiteralLength(t[1..]).Some?
    ensures Means(t, m, Str(ParseString(t).v), ParseString(t).rest)
  {
    var s, rest := ParseString(t).v, ParseString(t).rest;
    assert t[0] == '\"';
    hide ParseString, Minified, LiteralLength;
    m := StringLocal(t, []);
    forall u | Stops(u)
      ensures ParseValue(m + u) == Done(Str(s), u)
    {
      var c := StringLocal(t, u);
      assert c == m by { assert |c| == |m|; assert c == t[..|c|] && m == t[..|m|]; }
      StringRule(m + u, s, u);
    }
  }

  /** A string followed by anything was closed. */
  lemma FollowedStringClosed(t: string)
    requires ParseString(t).Done? && ParseString(t).rest != []
    ensures LiteralLength(t[1..]).Some?
  {
    var x := StringBody(t[1..]).rest;
    var c := BodyLocal(t[1..], x);
  }

  lemma Joined(a: string, b: string, m: Option<string>, t: string, u: string)
    requires Minified(t) == Then(a, Minified(u)) && Minified(u) == Then(b, m)
    ensures Minified(t) == Then(a + b, m)
  {
    ThenThen(a, b, m);
  }

  lemma CharMinified(c: char, t: string)
    requires StartsWith(t, c) && Ordinary(c)
    ensures Minified(t) == Then([c], Minified(t[1..]))
  {
    PlainStays([c], t[1..]);
    assert t == [c] + t[1..];
  }

  ghost predicate ItemMeans(t: string, s: string, v: Json, r: string) {
    && Minified(t) == Then(s, Minified(r))
    && forall u :: u != [] && u[0] > ' ' && Stops(u) ==> exists y :: ParseValue(Skip(s + u)) == Done(v, y) && Skip(y) == u
  }

  /** A value with white space around it: its minified form and how the parser reads that. */
  lemma SpacedValue(t: string, v: Json, r: string, m: string) returns (s: string)
    requires ParseValue(Skip(t)) == Done(v, r) && Means(Skip(t), m, v, r)
    ensures ItemMeans(t, s, v, Skip(r))
  {
    hide ParseValue, Minified;
    var w0 := Residue(t);
    var w1 := Residue(r);
    s := w0 + (m + w1);
    Joined(m, w1, Minified(Skip(r)), Skip(t), r);
    Joined(w0, m + w1, Minified(Skip(r)), t, Skip(t));
    forall u | u != [] && u[0] > ' ' && Stops(u)
      ensures ParseValue(Skip(s + u)) == Done(v, w1 + u) && Skip(w1 + u) == u
    {
      assert s + u == w0 + (m + (w1 + u));
      SkipControl(w0, m + (w1 + u));
      SkipNothing(m + (w1 + u));
      ControlStops(w1, u);
      SkipControl(w1, u);
      SkipNothing(u);
    }
  }

  ghost predicate ItemsMean(t: string, m: string, vs: seq<Json>, rest: string) {
    && Minified(t) == Then(m, Minified(rest))
    && forall u :: StartsWith(u, ']') ==> ParseItems(m + u) == Done(vs, u)
  }

  lemma LastItemMeans(t: string, v: Json, r: string, s: string)
    requires ItemMeans(t, s, v, Skip(r))
    ensures ItemsMean(t, s, [v], Skip(r))
  {
    hide ParseValue, ParseItems, Minified;
    forall u | StartsWith(u, ']')
      ensures ParseItems(s + u) == Done([v], u)
    {
      var y :| ParseValue(Skip(s + u)) == Done(v, y) && Skip(y) == u;
      ItemsLast(s + u, v, y);
    }
  }

  lemma MoreItemsMean(t: string, v: Json, r: string, s: string, vs: seq<Json>, m: string, rest: string)
    requires ItemMeans(t, s, v, Skip(r)) && StartsWith(Skip(r), ',')
    requires ItemsMean(Skip(r)[1..], m, vs, rest)
    ensures ItemsMean(t, s + ("," + m), [v] + vs, rest)
  {
    hide ParseValue, ParseItems, Minified;
    CharMinified(',', Skip(r));
    Joined(",", m, Minified(rest), Skip(r), Skip(r)[1..]);
    Joined(s, "," + m, Minified(rest), t, Skip(r));
    forall u | StartsWith(u, ']')
      ensures ParseItems(s + ("," + m) + u) == Done([v] + vs, u)
    {
      MoreItemsRead(t, v, r, s, vs, m, rest, u);
    }
  }

  lemma MoreItemsRead(t: string, v: Json, r: string, s: string, vs: seq<Json>, m: string, rest: string, u: string)
    requires ItemMeans(t, s, v, Skip(r)) && Skip(r) != [] && ItemsMean(Skip(r)[1..], m, vs, rest) && StartsWith(u, ']')
    ensures ParseItems(s + ("," + m) + u) == Done([v] + vs, u)
  {
    hide ParseValue, ParseItems, Minified;
    var x := "," + (m + u);
    Regroup(",", m, u);
    Regroup(s, "," + m, u);
    assert x[1..] == m + u;
    var y :| ParseValue(Skip(s + x)) == Done(v, y) && Skip(y) == x;
    ItemsMore(s + x, v, y, vs, u);
  }

  lemma {:induction false} ItemsMeaning(t: string) returns (m: string)
    requires ParseItems(t).Done? && StartsWith(ParseItems(t).rest, ']')
    ensures ItemsMean(t, m, ParseItems(t).v, ParseItems(t).rest)
    decreases |t|, 2
  {
    var first := ParseValue(Skip(t));
    var v, r := first.v, first.rest;
    var mv := ValueMeaning(Skip(t));
    hide ParseValue;
    var s := SpacedValue(t, v, r, mv);
    if StartsWith(Skip(r), ',') {
      var tail := ParseItems(Skip(r)[1..]);
      assert ParseItems(t) == Done([v] + tail.v, tail.rest);
      var m' := ItemsMeaning(Skip(r)[1..]);
      hide ParseItems;
      MoreItemsMean(t, v, r, s, tail.v, m', tail.rest);
      m := s + ("," + m');
    } else {
      assert ParseItems(t) == Done([v], Skip(r));
      hide ParseItems;
      LastItemMeans(t, v, r, s);
      m := s;
    }
  }

  ghost predicate MemberMeans(t: string, s: string, mem: Member, r: string) {
    && Minified(t) == Then(s, Minified(r))
    && forall u :: u != [] && u[0] > ' ' && Stops(u) ==> exists y :: ParseMember(s + u) == Done(mem, y) && Skip(y) == u
  }

  /** What is between the start of a member and the end of its value. */
  lemma MemberPieces(t: string, name: string, r1: string, v: Json, r: string, c: string, m: string, u2: string) returns (s: string)
    requires ParseString(Skip(t)) == Done(name, r1) && StartsWith(Skip(r1), ':') && u2 == Skip(r1)[1..]
    requires Minified(Skip(t)) == Then(c, Minified(r1)) && StartsWith(c, '\"')
    requires forall x :: ParseString(c + x) == Done(name, x)
    requires ParseValue(Skip(u2)) == Done(v, r) && Means(Skip(u2), m, v, r)
    ensures MemberMeans(t, s, Member(name, v), Skip(r))
  {
    hide ParseValue, Minified, ParseString, ParseMember;
    var w0 := Residue(t);
    var w1 := Residue(r1);
    var value := SpacedValue(u2, v, r, m);
    CharMinified(':', Skip(r1));
    s := w0 + (c + (w1 + (":" + value)));
    Joined(":", value, Minified(Skip(r)), Skip(r1), u2);
    Joined(w1, ":" + value, Minified(Skip(r)), r1, Skip(r1));
    Joined(c, w1 + (":" + value), Minified(Skip(r)), Skip(t), r1);
    Joined(w0, c + (w1 + (":" + value)), Minified(Skip(r)), t, Skip(t));
    forall u | u != [] && u[0] > ' ' && Stops(u)
      ensures exists y :: ParseMember(s + u) == Done(Member(name, v), y) && Skip(y) == u
    {
      var x := ":" + (value + u);
      assert s + u == w0 + (c + (w1 + x));
      SkipControl(w0, c + (w1 + x));
      SkipNothing(c + (w1 + x));
      SkipControl(w1, x);
      SkipNothing(x);
      assert x[1..] == value + u;
      var y :| ParseValue(Skip(value + u)) == Done(v, y) && Skip(y) == u;
      MemberRule(s + u, name, w1 + x, v, y);
    }
  }

  lemma {:induction false} MemberMeaning(t: string) returns (s: string)
    requires ParseMember(t).Done? && ParseMember(t).rest != []
    ensures MemberMeans(t, s, ParseMember(t).v, Skip(ParseMember(t).rest))
    decreases |t|, 1
  {
    var named := ParseString(Skip(t));
    var r1 := named.rest;
    var u2 := Skip(r1)[1..];
    var valued := ParseValue(Skip(u2));
    assert ParseMember(t) == Done(Member(named.v, valued.v), valued.rest);
    FollowedStringClosed(Skip(t));
    hide ParseMember, ParseString;
    var m := ValueMeaning(Skip(u2));
    var c := StringLocal(Skip(t), []);
    forall x
      ensures ParseString(c + x) == Done(named.v, x)
    {
      var c' := StringLocal(Skip(t), x);
      assert c' == c by { assert |c'| == |c|; assert c' == Skip(t)[..|c'|] && c == Skip(t)[..|c|]; }
    }
    hide ParseValue, Minified;
    s := MemberPieces(t, named.v, r1, valued.v, valued.rest, c, m, u2);
  }

  ghost predicate MembersMean(t: string, m: string, ms: seq<Member>, rest: string) {
    && Minified(t) == Then(m, Minified(rest))
    && forall u :: StartsWith(u, '}') ==> ParseMembers(m + u) == Done(ms, u)
  }

  lemma LastMemberMeans(t: string, mem: Member, r: string, s: string)
    requires MemberMeans(t, s, mem, Skip(r))
    ensures MembersMean(t, s, [mem], Skip(r))
  {
    hide ParseMember, ParseMembers, Minified;
    forall u | StartsWith(u, '}')
      ensures ParseMembers(s + u) == Done([mem], u)
    {
      var y :| ParseMember(s + u) == Done(mem, y) && Skip(y) == u;
      MembersLast(s + u, mem, y);
    }
  }

  lemma MoreMembersMean(t: string, mem: Member, r: string, s: string, ms: seq<Member>, m: string, rest: string)
    requires MemberMeans(t, s, mem, Skip(r)) && StartsWith(Skip(r), ',')
    requires MembersMean(Skip(r)[1..], m, ms, rest)
    ensures MembersMean(t, s + ("," + m), [mem] + ms, rest)
  {
    hide ParseMember, ParseMembers, Minified;
    CharMinified(',', Skip(r));
    Joined(",", m, Minified(rest), Skip(r), Skip(r)[1..]);
    Joined(s, "," + m, Minified(rest), t, Skip(r));
    forall u | StartsWith(u, '}')
      ensures ParseMembers(s + ("," + m) + u) == Done([mem] + ms, u)
    {
      var x := "," + (m + u);
      assert s + ("," + m) + u == s + x;
      assert x[1..] == m + u;
      var y :| ParseMember(s + x) == Done(mem, y) && Skip(y) == x;
      MembersMore(s + x, mem, y, ms, u);
    }
  }

  lemma {:induction false} MembersMeaning(t: string) returns (m: string)
    requires ParseMembers(t).Done? && StartsWith(ParseMembers(t).rest, '}')
    ensures MembersMean(t, m, ParseMembers(t).v, ParseMembers(t).rest)
    decreases |t|, 2
  {
    var first := ParseMember(t);
    var mem, r := first.v, first.rest;
    var s := MemberMeaning(t);
    hide ParseMember;
    if StartsWith(Skip(r), ',') {
      var tail := ParseMembers(Skip(r)[1..]);
      assert ParseMembers(t) == Done([mem] + tail.v, tail.rest);
      var m' := MembersMeaning(Skip(r)[1..]);
      hide ParseMembers;
      MoreMembersMean(t, mem, r, s, tail.v, m', tail.rest);
      m := s + ("," + m');
    } else {
      assert ParseMembers(t) == Done([mem], Skip(r));
      hide ParseMembers;
      LastMemberMeans(t, mem, r, s);
      m := s;
    }
  }

  /** The minified form of the value at t; only a string cut off by the terminator has none. */
  lemma {:induction false} ValueMeaning(t: string) returns (m: string)
    requires ParseValue(t).Done?
    requires StartsWith(t, '\"') && ParseValue(t).rest == [] ==> LiteralLength(t[1..]).Some?
    ensures Means(t, m, ParseValue(t).v, ParseValue(t).rest)
    decreases |t|, 1
  {
    if "null" <= t {
      PrefixMeans(t, "null", Null);
      m := "null";
    } else if "false" <= t {
      PrefixMeans(t, "false", False);
      m := "false";
    } else if "true" <= t {
      PrefixMeans(t, "true", True);
      m := "true";
    } else if StartsWith(t, '\"') {
      if ParseString(t).rest != [] { FollowedStringClosed(t); }
      hide ParseString, LiteralLength, Means;
      m := StringMeans(t);
    } else if t[0] == '-' || IsDigit(t[0]) {
      hide ParseNumber, Means;
      m := NumberMeans(t);
    } else if t[0] == '[' {
      m := ArrayMeaning(t);
    } else {
      m := ObjectMeaning(t);
    }
  }

  lemma BracketMeans(t: string, open: char, close: char, w: string, m: string, v: Json, rest: string)
    requires StartsWith(t, open) && Ordinary(open) && Ordinary(close) && open > ' ' && StartsWith(rest, close)
    requires AllControl(w) && Minified(t[1..]) == Then(w, Minified(Skip(t[1..])))
    requires Minified(Skip(t[1..])) == Then(m, Minified(rest))
    requires forall u :: ParseValue([open] + (w + (m + ([close] + u)))) == Done(v, u)
    ensures Means(t, [open] + (w + (m + [close])), v, rest[1..])
  {
    hide ParseValue, Minified, Then, AllControl, Skip;
    BracketMinified(t, open, close, w, m, rest);
    forall u
      ensures ParseValue([open] + (w + (m + [close])) + u) == Done(v, u)
    {
      BracketFollowed(open, w, m, close, u);
    }
  }

  lemma BracketMinified(t: string, open: char, close: char, w: string, m: string, rest: string)
    requires StartsWith(t, open) && Ordinary(open) && Ordinary(close) && StartsWith(rest, close)
    requires Minified(t[1..]) == Then(w, Minified(Skip(t[1..])))
    requires Minified(Skip(t[1..])) == Then(m, Minified(rest))
    ensures Minified(t) == Then([open] + (w + (m + [close])), Minified(rest[1..]))
  {
    hide Minified, Then, Skip;
    CharMinified(open, t);
    CharMinified(close, rest);
    Joined(m, [close], Minified(rest[1..]), Skip(t[1..]), rest);
    Joined(w, m + [close], Minified(rest[1..]), t[1..], Skip(t[1..]));
    Joined([open], w + (m + [close]), Minified(rest[1..]), t, t[1..]);
  }

  lemma BracketFollowed(open: char, w: string, m: string, close: char, u: string)
    ensures [open] + (w + (m + [close])) + u == [open] + (w + (m + ([close] + u)))
  {
    Regroup(m, [close], u);
    Regroup(w, m + [close], u);
    Regroup([open], w + (m + [close]), u);
  }

  lemma ArrayShape(t: string)
    requires StartsWith(t, '[') && ParseValue(t).Done?
    ensures var u := Skip(t[1..]);
            if StartsWith(u, ']') then ParseValue(t) == Done(Arr([]), u[1..])
            else var list := ParseItems(u);
                 list.Done? && StartsWith(list.rest, ']') && ParseValue(t) == Done(Arr(list.v), list.rest[1..])
  {
  }

  lemma {:induction false} ArrayMeaning(t: string) returns (m: string)
    requires StartsWith(t, '[') && ParseValue(t).Done?
    ensures Means(t, m, ParseValue(t).v, ParseValue(t).rest)
    decreases |t|, 0
  {
    hide ParseValue, Minified, Means;
    ArrayShape(t);
    var u := Skip(t[1..]);
    var w := Residue(t[1..]);
    if StartsWith(u, ']') {
      NothingStays(u);
      forall x
        ensures ParseValue("[" + (w + ("" + ("]" + x)))) == Done(Arr([]), x)
      {
        EmptyArrayReads(w, x);
      }
      BracketMeans(t, '[', ']', w, "", Arr([]), u);
      m := "[" + (w + ("" + "]"));
    } else {
      var items := ParseItems(u);
      var body := ItemsMeaning(u);
      forall x
        ensures ParseValue("[" + (w + (body + ("]" + x)))) == Done(Arr(items.v), x)
      {
        ArrayReads(w, body, items.v, x);
      }
      BracketMeans(t, '[', ']', w, body, Arr(items.v), items.rest);
      m := "[" + (w + (body + "]"));
    }
  }

  lemma EmptyArrayReads(w: string, x: string)
    requires AllControl(w)
    ensures ParseValue("[" + (w + ("" + ("]" + x)))) == Done(Arr([]), x)
  {
    hide ParseValue;
    var y := "[" + (w + ("" + ("]" + x)));
    assert y[1..] == w + ("]" + x);
    SkipControl(w, "]" + x);
    SkipNothing("]" + x);
    EmptyArrayRule(y);
    assert ("]" + x)[1..] == x;
  }

  /** No list of items starts with a closing bracket. */
  lemma ItemsNotClosed(t: string)
    requires ParseItems(t).Done?
    ensures !StartsWith(Skip(t), ']')
  {
  }

  lemma ItemsSkipped(t: string)
    ensures ParseItems(Skip(t)) == ParseItems(t)
  {
    SkipTwice(t);
    ItemsIgnoreBlanks(Skip(t), t);
  }

  lemma ArrayReads(w: string, body: string, vs: seq<Json>, x: string)
    requires AllControl(w) && ParseItems(body + ("]" + x)) == Done(vs, "]" + x)
    ensures ParseValue("[" + (w + (body + ("]" + x)))) == Done(Arr(vs), x)
  {
    hide ParseValue, ParseItems;
    var z := body + ("]" + x);
    var y := "[" + (w + z);
    assert y[1..] == w + z;
    SkipControl(w, z);
    ItemsNotClosed(z);
    ItemsSkipped(z);
    ArrayRule(y, vs, "]" + x);
    assert ("]" + x)[1..] == x;
  }

  lemma ObjectShape(t: string)
    requires StartsWith(t, '{') && ParseValue(t).Done?
    ensures var u := Skip(t[1..]);
            if StartsWith(u, '}') then ParseValue(t) == Done(Obj([]), u[1..])
            else var list := ParseMembers(u);
                 list.Done? && StartsWith(list.rest, '}') && ParseValue(t) == Done(Obj(list.v), list.rest[1..])
  {
  }

  lemma {:induction false} ObjectMeaning(t: string) returns (m: string)
    requires StartsWith(t, '{') && ParseValue(t).Done?
    ensures Means(t, m, ParseValue(t).v, ParseValue(t).rest)
    decreases |t|, 0
  {
    hide ParseValue, Minified, Means;
    ObjectShape(t);
    var u := Skip(t[1..]);
    var w := Residue(t[1..]);
    if StartsWith(u, '}') {
      NothingStays(u);
      forall x
        ensures ParseValue("{" + (w + ("" + ("}" + x)))) == Done(Obj([]), x)
      {
        EmptyObjectReads(w, x);
      }
      BracketMeans(t, '{', '}', w, "", Obj([]), u);
      m := "{" + (w + ("" + "}"));
    } else {
      var members := ParseMembers(u);
      var body := MembersMeaning(u);
      forall x
        ensures ParseValue("{" + (w + (body + ("}" + x)))) == Done(Obj(members.v), x)
      {
        ObjectReads(w, body, members.v, x);
      }
      BracketMeans(t, '{', '}', w, body, Obj(members.v), members.rest);
      m := "{" + (w + (body + "}"));
    }
  }

  lemma EmptyObjectReads(w: string, x: string)
    requires AllControl(w)
    ensures ParseValue("{" + (w + ("" + ("}" + x)))) == Done(Obj([]), x)
  {
    hide ParseValue;
    var y := "{" + (w + ("" + ("}" + x)));
    assert y[1..] == w + ("}" + x);
    SkipControl(w, "}" + x);
    SkipNothing("}" + x);
    EmptyObjectRule(y);
    assert ("}" + x)[1..] == x;
  }

  lemma MembersNotClosed(t: string)
    requires ParseMembers(t).Done?
    ensures !StartsWith(Skip(t), '}')
  {
    assert ParseMember(t).Done?;
  }

  lemma MembersSkipped(t: string)
    ensures ParseMembers(Skip(t)) == ParseMembers(t)
  {
    SkipTwice(t);
    MembersIgnoreBlanks(Skip(t), t);
  }

  lemma ObjectReads(w: string, body: string, ms: seq<Member>, x: string)
    requires AllControl(w) && ParseMembers(body + ("}" + x)) == Done(ms, "}" + x)
    ensures ParseValue("{" + (w + (body + ("}" + x)))) == Done(Obj(ms), x)
  {
    hide ParseValue, ParseMembers;
    var z := body + ("}" + x);
    var y := "{" + (w + z);
    assert y[1..] == w + z;
    SkipControl(w, z);
    MembersNotClosed(z);
    MembersSkipped(z);
    ObjectRule(y, ms, "}" + x);
    assert ("}" + x)[1..] == x;
  }

  // ---------------------------------------------------------------- theorem

  /** A whole text is one value; the only such text without a minified form is a string that
      the terminator, not a quote, ends. */
  lemma MinifyKeepsMeaning(t: string)
    requires ParseWithOpts(t, true).Done?
    ensures Minified(t).Some? <==> !(StartsWith(Skip(t), '\"') && LiteralLength(Skip(t)[1..]).None?)
    ensures Minified(t).Some? ==> ParseWithOpts(Minified(t).value, true) == ParseWithOpts(t, true)
  {
    var u := Skip(t);
    var v, rest := ParseValue(u).v, ParseValue(u).rest;
    var w := Residue(t);
    if StartsWith(u, '\"') && LiteralLength(u[1..]).None? {
      assert Minified(u).None?;
    } else {
      var m := ValueMeaning(u);
      hide ParseValue, Minified, LiteralLength;
      var w2 := Residue(rest);
      EmptyMinified();
      Joined(m, w2, Some([]), u, rest);
      Joined(w, m + w2, Some([]), t, u);
      var s := w + (m + w2);
      assert s + [] == s;
      SkipControl(w, m + w2);
      SkipNothing(m + w2);
      ControlStops(w2, []);
      assert w2 + [] == w2;
      SkipControl(w2, []);
    }
  }

  /** A quote and a letter: the parser takes them for a string, the minifier runs on. */
  lemma UnclosedString()
    ensures ParseWithOpts("\"a", true) == Done(Str("a"), []) && Minified("\"a").None? && LeftOpen("\"a")
  {
    var t := "\"a";
    assert t[1..] == "a" && "a"[1..] == [];
    assert Skip(t) == t && Skip([]) == [];
    assert StringBody("a") == Prepend("a", StringBody([])) == Done("a" + [], []);
    assert "a" + [] == "a";
    assert ParseString(t) == Done("a", []);
    assert ParseValue(t) == Done(Str("a"), []);
    MinifiedUnlessOpen(t);
    assert Scanned(Outside, t) == Scanned(InLiteral, t[1..]) == Scanned(InLiteral, "a"[1..]);
  }

  lemma EmptyMinified()
    ensures Minified([]) == Some([])
  {
  }
}
