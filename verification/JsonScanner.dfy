/** The string and number routines of cJSON.c, with their moving pointers and output buffers. */
module JsonScanner {
  import opened Base
  import opened JsonText
  import opened JsonRoundTrip
  import opened JsonMinifyPrinted

  lemma Rest(text: string, i: nat, k: nat)
    requires i + k <= |text|
    ensures text[i..][k..] == text[i + k..]
  {
  }

  // ---------------------------------------------------------------- numbers

  method ScanDigits(text: string, at: nat, n0: real, count0: nat) returns (n: real, count: nat, end: nat)
    requires at <= |text|
    ensures at <= end <= |text| && Digits(n0, count0, text[at..]) == (n, count, text[end..])
    ensures forall o: object {:trigger allocated(o)} :: allocated(o) ==> old(allocated(o))
  {
    n, count, end := n0, count0, at;
    while IsDigit(At(text, end))
      invariant at <= end <= |text|
      invariant Digits(n, count, text[end..]) == Digits(n0, count0, text[at..])
      invariant forall o: object {:trigger allocated(o)} :: allocated(o) ==> old(allocated(o))
      decreases |text| - end
    {
      Rest(text, end, 1);
      n := n * 10.0 + DigitValue(text[end]) as real;
      count, end := count + 1, end + 1;
    }
  }

  method ScanExponentDigits(text: string, at: nat) returns (subscale: nat, end: nat)
    requires at <= |text|
    ensures at <= end <= |text| && ExponentDigits(0, text[at..]) == (subscale, text[end..])
    ensures forall o: object {:trigger allocated(o)} :: allocated(o) ==> old(allocated(o))
  {
    subscale, end := 0, at;
    while IsDigit(At(text, end))
      invariant at <= end <= |text|
      invariant ExponentDigits(subscale, text[end..]) == ExponentDigits(0, text[at..])
      invariant forall o: object {:trigger allocated(o)} :: allocated(o) ==> old(allocated(o))
      decreases |text| - end
    {
      Rest(text, end, 1);
      subscale := subscale * 10 + DigitValue(text[end]);
      end := end + 1;
    }
  }

  method ScanExponent(text: string, at: nat) returns (e: int, end: nat)
    requires at <= |text|
    ensures at <= end <= |text| && ParseExponent(text[at..]) == (e, text[end..])
    ensures forall o: object {:trigger allocated(o)} :: allocated(o) ==> old(allocated(o))
  {
    e, end := 0, at;
    if At(text, end) == 'e' || At(text, end) == 'E' {
      var negative := false;
      Rest(text, at, 1);
      end := end + 1;
      if At(text, end) == '+' {
        end := end + 1;
      } else if At(text, end) == '-' {
        negative := true;
        end := end + 1;
      }
      Rest(text, at, end - at);
      var subscale;
      subscale, end := ScanExponentDigits(text, end);
      e := if negative then -(subscale as int) else subscale;
    }
  }

  method ScanWhole(text: string, at: nat) returns (n: real, end: nat)
    requires at <= |text|
    ensures at <= end <= |text| && Whole(text[at..]) == (n, text[end..])
    ensures forall o: object {:trigger allocated(o)} :: allocated(o) ==> old(allocated(o))
  {
    n, end := 0.0, at;
    if At(text, end) == '0' {
      Rest(text, end, 1);
      end := end + 1;
    }
    if '1' <= At(text, end) <= '9' {
      var c;
      n, c, end := ScanDigits(text, end, n, 0);
    }
  }

  method ScanFraction(text: string, at: nat, n0: real) returns (n: real, scale: nat, end: nat)
    requires at <= |text|
    ensures at <= end <= |text| && Fraction(n0, text[at..]) == (n, scale, text[end..])
    ensures forall o: object {:trigger allocated(o)} :: allocated(o) ==> old(allocated(o))
  {
    n, scale, end := n0, 0, at;
    if At(text, end) == '.' && IsDigit(At(text, end + 1)) {
      Rest(text, end, 1);
      n, scale, end := ScanDigits(text, end + 1, n, 0);
    }
  }

  /** parse_number: sign, digits, fraction and exponent in the order of the text. */
  method ScanNumber(text: string, at: nat) returns (d: real, end: nat)
    requires at <= |text|
    ensures at <= end <= |text| && ParseNumber(text[at..]) == (d, text[end..])
    ensures forall o: object {:trigger allocated(o)} :: allocated(o) ==> old(allocated(o))
  {
    hide ParseExponent, Whole, Fraction, Scaled;
    end := at;
    var negative := false;
    if At(text, end) == '-' {
      negative := true;
      Rest(text, end, 1);
      end := end + 1;
    }
    var n, scale, e;
    n, end := ScanWhole(text, end);
    n, scale, end := ScanFraction(text, end, n);
    e, end := ScanExponent(text, end);
    d := Scaled(n, e - scale);
    if negative {
      d := -d;
    }
  }

  // ---------------------------------------------------------------- parsing strings

  method ScanHex4(text: string, at: nat) returns (h: int)
    requires at <= |text|
    ensures h == Hex4(text[at..])
    ensures forall o: object {:trigger allocated(o)} :: allocated(o) ==> old(allocated(o))
  {
    h := 0;
    if !IsHex(At(text, at)) { return 0; }
    h := HexValue(text[at]);
    h := h * 16;
    if !IsHex(At(text, at + 1)) { return 0; }
    h := h + HexValue(text[at + 1]);
    h := h * 16;
    if !IsHex(At(text, at + 2)) { return 0; }
    h := h + HexValue(text[at + 2]);
    h := h * 16;
    if !IsHex(At(text, at + 3)) { return 0; }
    h := h + HexValue(text[at + 3]);
  }

  /** The first pass of parse_string: one for each plain character and each escape character
      together with the one it protects. */
  function Room(t: string): nat
  {
    if t == [] || t[0] == '\"' then 0
    else if t[0] == '\\' && |t| >= 2 then 1 + Room(t[2..])
    else 1 + Room(t[1..])
  }

  lemma {:induction false} RoomOfPlain(s: string, y: string)
    requires forall i :: 0 <= i < |s| ==> s[i] != '\"' && s[i] != '\\'
    ensures Room(s + y) == |s| + Room(y)
  {
    if s == [] {
      assert s + y == y;
    } else {
      RoomOfPlain(s[1..], y);
      assert (s + y)[1..] == s[1..] + y;
    }
  }

  lemma RoomOfHex4(t: string)
    requires StartsWith(t, '\\') && |t| >= 6 && t[1] == 'u' && StartsWithHex4(t[2..])
    ensures Room(t) == 5 + Room(t[6..])
  {
    var hex := [t[2], t[3], t[4], t[5]];
    assert t[2..][0] == t[2] && t[2..][1] == t[3] && t[2..][2] == t[4] && t[2..][3] == t[5];
    RoomOfPlain(hex, t[6..]);
    assert t[2..] == hex + t[6..];
  }

  lemma RoomOfEscape(t: string)
    requires StartsWith(t, '\\') && EscapeComplete(t)
    ensures var p := Unescape(t); |p.out| + Room(t[p.taken..]) <= Room(t)
  {
    var p := Unescape(t);
    if p.taken == 6 {
      RoomOfHex4(t);
    } else if p.taken == 12 {
      RoomOfHex4(t);
      assert t[6..][2..] == t[8..] && t[6..][6..] == t[12..];
      RoomOfHex4(t[6..]);
    }
  }

  /** The buffer sized by the first pass holds whatever the second pass writes. */
  lemma {:induction false} RoomSuffices(t: string)
    requires StringBody(t).Done?
    ensures |StringBody(t).v| <= Room(t)
    decreases |t|
  {
    if t != [] && t[0] != '\"' {
      if t[0] == '\\' {
        RoomSuffices(t[Unescape(t).taken..]);
        RoomOfEscape(t);
      } else {
        RoomSuffices(t[1..]);
      }
    }
  }

  /** Skipping escapes two characters at a time stays within the text. */
  predicate PairsClosed(t: string) {
    if t == [] || t[0] == '\"' then true
    else if t[0] == '\\' then |t| >= 2 && PairsClosed(t[2..])
    else PairsClosed(t[1..])
  }

  lemma {:induction false} PlainPairsClosed(s: string, y: string)
    requires PairsClosed(y) && forall i :: 0 <= i < |s| ==> s[i] != '\"' && s[i] != '\\'
    ensures PairsClosed(s + y)
  {
    if s == [] {
      assert s + y == y;
    } else {
      PlainPairsClosed(s[1..], y);
      assert (s + y)[1..] == s[1..] + y;
    }
  }

  lemma Hex4PairsClosed(t: string)
    requires StartsWith(t, '\\') && |t| >= 6 && t[1] == 'u' && StartsWithHex4(t[2..]) && PairsClosed(t[6..])
    ensures PairsClosed(t)
  {
    var hex := [t[2], t[3], t[4], t[5]];
    assert t[2..][0] == t[2] && t[2..][1] == t[3] && t[2..][2] == t[4] && t[2..][3] == t[5];
    PlainPairsClosed(hex, t[6..]);
    assert t[2..] == hex + t[6..];
  }

  lemma {:induction false} BodyPairsClosed(t: string)
    requires StringBody(t).Done?
    ensures PairsClosed(t)
    decreases |t|
  {
    if t != [] && t[0] != '\"' {
      if t[0] != '\\' {
        BodyPairsClosed(t[1..]);
      } else {
        var k := Unescape(t).taken;
        BodyPairsClosed(t[k..]);
        EscapePairsClosed(t, k);
      }
    }
  }

  lemma EscapePairsClosed(t: string, k: nat)
    requires StartsWith(t, '\\') && EscapeComplete(t) && k == Unescape(t).taken && PairsClosed(t[k..])
    ensures PairsClosed(t)
  {
    if k == 6 {
      Hex4PairsClosed(t);
    } else if k == 12 {
      assert t[6..][2..] == t[8..] && t[6..][6..] == t[12..];
      Hex4PairsClosed(t[6..]);
      Hex4PairsClosed(t);
    }
  }

  method MeasureString(text: string, at: nat) returns (len: nat)
    requires at <= |text| && PairsClosed(text[at..])
    ensures len == Room(text[at..])
    ensures forall o: object {:trigger allocated(o)} :: allocated(o) ==> old(allocated(o))
  {
    len := 0;
    var ptr := at;
    while At(text, ptr) != '\"' && ptr < |text|
      invariant at <= ptr <= |text|
      invariant len + Room(text[ptr..]) == Room(text[at..])
      invariant PairsClosed(text[ptr..])
      invariant forall o: object {:trigger allocated(o)} :: allocated(o) ==> old(allocated(o))
      decreases |text| - ptr
    {
      Rest(text, ptr, 1);
      len := len + 1;
      if text[ptr] == '\\' {
        Rest(text, ptr, 2);
        ptr := ptr + 1;
      }
      ptr := ptr + 1;
    }
  }

  /** The low six bits of a code point, and what is left of it. */
  method PutSixBits(out: array<char>, at: nat, uc: int) returns (rest: int)
    requires at < out.Length && 0 <= uc < 0x110000
    modifies out
    ensures out[at] == SixBits(uc) && rest == uc / 0x40
    ensures forall i :: 0 <= i < out.Length && i != at ==> out[i] == old(out[i])
    ensures forall o: object {:trigger allocated(o)} :: allocated(o) ==> old(allocated(o))
  {
    out[at] := SixBits(uc);
    rest := uc / 0x40;
  }

  /** The fall-through switch that writes a code point backwards, six bits at a time. */
  method WriteUtf8(out: array<char>, at: nat, code: int) returns (end: nat)
    requires 0 <= code < 0x110000 && at + |Utf8(code)| <= out.Length
    modifies out
    ensures end == at + |Utf8(code)| && out[at..end] == Utf8(code)
    ensures forall i :: 0 <= i < out.Length && !(at <= i < end) ==> out[i] == old(out[i])
    ensures forall o: object {:trigger allocated(o)} :: allocated(o) ==> old(allocated(o))
  {
    hide Utf8;
    Utf8Backwards(code);
    var len := 4;
    if code < 0x80 { len := 1; } else if code < 0x800 { len := 2; } else if code < 0x10000 { len := 3; }
    var uc, ptr := code, at + len;
    if len >= 4 {
      ptr := ptr - 1;
      uc := PutSixBits(out, ptr, uc);
    }
    if len >= 3 {
      ptr := ptr - 1;
      uc := PutSixBits(out, ptr, uc);
    }
    if len >= 2 {
      ptr := ptr - 1;
      uc := PutSixBits(out, ptr, uc);
    }
    ptr := ptr - 1;
    label Before:
    out[ptr] := ((if len == 1 then 0 else if len == 2 then 0xC0 else if len == 3 then 0xE0 else 0xF0) + uc) as char;
    assert forall o: object {:trigger allocated(o)} :: allocated(o) ==> old@Before(allocated(o));
    end := ptr + len;
  }

  /** The encoding from its last byte on, six bits at a time. */
  lemma Utf8Backwards(code: int)
    requires 0 <= code < 0x110000
    ensures var u1 := code / 0x40;
            var u2 := u1 / 0x40;
            var u3 := u2 / 0x40;
            && 0 <= u1 && 0 <= u2 && 0 <= u3 <= 4
            && (code < 0x800 ==> u1 < 0x20) && (code < 0x10000 ==> u2 < 0x10)
            && Utf8(code) == if code < 0x80 then [code as char]
                             else if code < 0x800 then [(0xC0 + u1) as char, SixBits(code)]
                             else if code < 0x10000 then [(0xE0 + u2) as char, SixBits(u1), SixBits(code)]
                             else [(0xF0 + u3) as char, SixBits(u2), SixBits(u1), SixBits(code)]
  {
    DivideTwice(code);
  }

  function SixBits(u: int): char {
    (0x80 + u % 0x40) as char
  }

  lemma DivideTwice(u: int)
    requires 0 <= u
    ensures u / 0x40 / 0x40 == u / 0x1000 && u / 0x40 / 0x40 / 0x40 == u / 0x40000
  {
  }

  /** One escape sequence of parse_string's second pass. */
  method UnescapeAt(text: string, at: nat, out: array<char>, to: nat) returns (ptr: nat, ptr2: nat)
    requires at <= |text| && StartsWith(text[at..], '\\') && EscapeComplete(text[at..])
    requires to + |Unescape(text[at..]).out| <= out.Length
    modifies out
    ensures ptr == at + Unescape(text[at..]).taken && ptr2 == to + |Unescape(text[at..]).out|
    ensures out[to..ptr2] == Unescape(text[at..]).out
    ensures forall i :: 0 <= i < out.Length && !(to <= i < ptr2) ==> out[i] == old(out[i])
    ensures forall o: object {:trigger allocated(o)} :: allocated(o) ==> old(allocated(o))
  {
    ghost var t := text[at..];
    assert t[1] == text[at + 1];
    ptr, ptr2 := at + 1, to;
    match text[ptr] {
      case 'b' => out[ptr2] := '\U{08}'; ptr2 := ptr2 + 1;
      case 'f' => out[ptr2] := '\U{0C}'; ptr2 := ptr2 + 1;
      case 'n' => out[ptr2] := '\n'; ptr2 := ptr2 + 1;
      case 'r' => out[ptr2] := '\r'; ptr2 := ptr2 + 1;
      case 't' => out[ptr2] := '\t'; ptr2 := ptr2 + 1;
      case 'u' => ptr, ptr2 := UnicodeAt(text, at, out, to);
      case _ => out[ptr2] := text[ptr]; ptr2 := ptr2 + 1;
    }
    ptr := ptr + 1;
  }

  /** The case of \u: leaves the pointer on the last character of the sequence. */
  method UnicodeAt(text: string, at: nat, out: array<char>, to: nat) returns (ptr: nat, ptr2: nat)
    requires at <= |text| && StartsWith(text[at..], '\\') && EscapeComplete(text[at..]) && text[at + 1] == 'u'
    requires to + |UnescapeUnicode(text[at..]).out| <= out.Length
    modifies out
    ensures ptr + 1 == at + UnescapeUnicode(text[at..]).taken && ptr2 == to + |UnescapeUnicode(text[at..]).out|
    ensures out[to..ptr2] == UnescapeUnicode(text[at..]).out
    ensures forall i :: 0 <= i < out.Length && !(to <= i < ptr2) ==> out[i] == old(out[i])
    ensures forall o: object {:trigger allocated(o)} :: allocated(o) ==> old(allocated(o))
  {
    hide Utf8, Hex4, StartsWithHex4;
    ghost var t := text[at..];
    Rest(text, at, 2);
    ptr, ptr2 := at + 1, to;
    var uc := ScanHex4(text, ptr + 1);
    ptr := ptr + 4;
    if (0xDC00 <= uc <= 0xDFFF) || uc == 0 {
      return;
    }
    if 0xD800 <= uc <= 0xDBFF {
      if At(text, ptr + 1) != '\\' || At(text, ptr + 2) != 'u' {
        return;
      }
      Rest(text, at, 8);
      var uc2 := ScanHex4(text, ptr + 3);
      ptr := ptr + 6;
      if uc2 < 0xDC00 || uc2 > 0xDFFF {
        return;
      }
      uc := 0x10000 + uc % 0x400 * 0x400 + uc2 % 0x400;
    }
    ptr2 := WriteUtf8(out, ptr2, uc);
  }

  lemma EscapeTurn(t: string, written: string, total: string)
    requires StartsWith(t, '\\') && StringBody(t).Done? && total == written + StringBody(t).v
    ensures EscapeComplete(t)
    ensures var p := Unescape(t);
              && StringBody(t[p.taken..]).Done?
              && StringBody(t[p.taken..]).rest == StringBody(t).rest
              && total == written + p.out + StringBody(t[p.taken..]).v
  {
  }

  lemma PlainTurn(t: string, written: string, total: string)
    requires t != [] && t[0] != '\"' && t[0] != '\\' && StringBody(t).Done? && total == written + StringBody(t).v
    ensures StringBody(t[1..]).Done? && StringBody(t[1..]).rest == StringBody(t).rest
    ensures total == written + [t[0]] + StringBody(t[1..]).v
  {
  }

  /** parse_string's second pass. */
  method FillString(text: string, at: nat, out: array<char>) returns (ptr: nat, ptr2: nat)
    requires at <= |text| && StringBody(text[at..]).Done? && |StringBody(text[at..]).v| < out.Length
    modifies out
    ensures at <= ptr <= |text| && text[ptr..] == StringBody(text[at..]).rest
    ensures ptr2 == |StringBody(text[at..]).v| && out[..ptr2] == StringBody(text[at..]).v
    ensures forall o: object {:trigger allocated(o)} :: allocated(o) ==> old(allocated(o))
  {
    hide EscapeComplete, Unescape, StringBody;
    ghost var total, rest := StringBody(text[at..]).v, StringBody(text[at..]).rest;
    ptr, ptr2 := at, 0;
    while At(text, ptr) != '\"' && ptr < |text|
      invariant at <= ptr <= |text| && ptr2 < out.Length
      invariant StringBody(text[ptr..]).Done? && StringBody(text[ptr..]).rest == rest
      invariant total == out[..ptr2] + StringBody(text[ptr..]).v
      invariant forall o: object {:trigger allocated(o)} :: allocated(o) ==> old(allocated(o))
      decreases |text| - ptr
    {
      ghost var t, written := text[ptr..], out[..ptr2];
      if text[ptr] != '\\' {
        PlainTurn(t, written, total);
        Rest(text, ptr, 1);
        label Before:
        out[ptr2] := text[ptr];
        assert forall o: object {:trigger allocated(o)} :: allocated(o) ==> old@Before(allocated(o));
        ptr, ptr2 := ptr + 1, ptr2 + 1;
        assert out[..ptr2] == written + [t[0]];
      } else {
        EscapeTurn(t, written, total);
        ghost var p := Unescape(t);
        Rest(text, ptr, p.taken);
        ptr, ptr2 := UnescapeAt(text, ptr, out, ptr2);
        assert out[..ptr2] == written + p.out;
      }
    }
    BodyEnds(text[ptr..]);
    assert out[..ptr2] + [] == out[..ptr2];
  }

  lemma BodyEnds(t: string)
    requires t == [] || t[0] == '\"'
    ensures StringBody(t) == Done([], t)
  {
  }

  /** parse_string: null when there is no opening quote; otherwise a fresh C string. */
  method ScanString(text: string, at: nat) returns (out: array?<char>, len: nat, end: nat)
    requires at <= |text| && ParseString(text[at..]) != Undefined
    ensures out == null <==> ParseString(text[at..]).Failed?
    ensures out != null ==>
              var r := ParseString(text[at..]);
              fresh(out) && at < end <= |text| && text[end..] == r.rest
              && len == |r.v| < out.Length == Room(text[at + 1..]) + 1
              && out[..len] == r.v && out[len] == '\0'
    ensures forall o: object {:trigger allocated(o)} :: allocated(o) ==> old(allocated(o)) || o == out
  {
    out, len, end := null, 0, at;
    if At(text, at) != '\"' {
      return;
    }
    Rest(text, at, 1);
    BodyPairsClosed(text[at + 1..]);
    RoomSuffices(text[at + 1..]);
    hide StringBody;
    var room := MeasureString(text, at + 1);
    label Counted:
    var buffer := new char[room + 1];
    assert forall o: object {:trigger allocated(o)} :: allocated(o) ==> old@Counted(allocated(o)) || o == buffer;
    var ptr, ptr2 := FillString(text, at + 1, buffer);
    label Before:
    buffer[ptr2] := '\0';
    assert forall o: object {:trigger allocated(o)} :: allocated(o) ==> old@Before(allocated(o));
    if At(text, ptr) == '\"' {
      Rest(text, ptr, 1);
      ptr := ptr + 1;
    }
    out, len, end := buffer, ptr2, ptr;
  }

  // --------------------------------------------------------------- printing strings

  predicate HasShortEscape(c: char) {
    c == '\"' || c == '\\' || c == '\U{08}' || c == '\U{0C}' || c == '\n' || c == '\r' || c == '\t'
  }

  /** The width the sizing loop gives a character. */
  function Width(c: char): nat {
    1 + if HasShortEscape(c) then 1 else if c < ' ' then 5 else 0
  }

  lemma WidthIsExact(c: char)
    ensures |EscapeChar(c)| == Width(c)
  {
  }

  lemma {:induction false} EscapedSnoc(s: string, c: char)
    ensures Escaped(s + [c]) == Escaped(s) + EscapeChar(c)
  {
    hide EscapeChar;
    if s == [] {
      assert [] + [c] == [c];
      assert Escaped([c]) == EscapeChar(c) + Escaped([c][1..]);
    } else {
      EscapedSnoc(s[1..], c);
      assert (s + [c])[1..] == s[1..] + [c];
      Regroup(EscapeChar(s[0]), Escaped(s[1..]), EscapeChar(c));
    }
  }

  lemma EscapedNext(s: string, k: nat)
    requires k < |s|
    ensures Escaped(s[..k + 1]) == Escaped(s[..k]) + EscapeChar(s[k])
    ensures |Escaped(s[..k + 1])| == |Escaped(s[..k])| + Width(s[k])
  {
    EscapedSnoc(s[..k], s[k]);
    WidthIsExact(s[k]);
    assert s[..k + 1] == s[..k] + [s[k]];
  }

  lemma {:induction false} EscapedGrows(s: string, k: nat)
    requires k <= |s|
    ensures |Escaped(s[..k])| <= |Escaped(s)|
    decreases |s| - k
  {
    hide EscapeChar, Width;
    if k < |s| {
      EscapedNext(s, k);
      EscapedGrows(s, k + 1);
    } else {
      assert s[..k] == s;
    }
  }

  /** print_string_ptr's sizing loop. */
  method MeasureEscapes(str: string) returns (len: nat)
    ensures len == |Escaped(str)|
  {
    hide EscapeChar;
    len := 0;
    var ptr := 0;
    while ptr < |str|
      invariant ptr <= |str| && len == |Escaped(str[..ptr])|
    {
      EscapedNext(str, ptr);
      var token := str[ptr];
      len := len + 1;
      if HasShortEscape(token) {
        len := len + 1;
      } else if token < ' ' {
        len := len + 5;
      }
      ptr := ptr + 1;
    }
    assert str[..ptr] == str;
  }

  /** The escape for one character; for \u the conversion also writes its own terminator. */
  method WriteEscape(out: array<char>, to: nat, c: char) returns (ptr2: nat)
    requires !Copied(c) && to + |EscapeChar(c)| < out.Length
    modifies out
    ensures ptr2 == to + |EscapeChar(c)| && out[to..ptr2] == EscapeChar(c)
    ensures forall i :: 0 <= i < to ==> out[i] == old(out[i])
  {
    out[to] := '\\';
    ptr2 := to + 1;
    if c == '\\' {
      out[ptr2] := '\\'; ptr2 := ptr2 + 1;
    } else if c == '\"' {
      out[ptr2] := '\"'; ptr2 := ptr2 + 1;
    } else if c == '\U{08}' {
      out[ptr2] := 'b'; ptr2 := ptr2 + 1;
    } else if c == '\U{0C}' {
      out[ptr2] := 'f'; ptr2 := ptr2 + 1;
    } else if c == '\n' {
      out[ptr2] := 'n'; ptr2 := ptr2 + 1;
    } else if c == '\r' {
      out[ptr2] := 'r'; ptr2 := ptr2 + 1;
    } else if c == '\t' {
      out[ptr2] := 't'; ptr2 := ptr2 + 1;
    } else {
      ptr2 := WriteHexEscape(out, ptr2, c as int);
    }
  }

  /** sprintf with u%04x; it also writes its own terminator. */
  method WriteHexEscape(out: array<char>, to: nat, token: int) returns (ptr2: nat)
    requires 0 <= token < 256 && to + 5 < out.Length
    modifies out
    ensures ptr2 == to + 5 && out[to..ptr2] == "u00" + [HexChar(token / 16), HexChar(token % 16)]
    ensures forall i :: 0 <= i < to ==> out[i] == old(out[i])
  {
    out[to], out[to + 1], out[to + 2] := 'u', '0', '0';
    out[to + 3], out[to + 4] := HexChar(token / 16), HexChar(token % 16);
    out[to + 5] := '\0';
    ptr2 := to + 5;
  }

  /** One character of the string, itself or escaped. */
  method WriteChar(out: array<char>, to: nat, c: char) returns (ptr2: nat)
    requires to + |EscapeChar(c)| < out.Length
    modifies out
    ensures ptr2 == to + |EscapeChar(c)| && out[..ptr2] == old(out[..to]) + EscapeChar(c)
  {
    hide EscapeChar;
    ghost var done := out[..to];
    if Copied(c) {
      CopiedIsItself(c);
      out[to] := c;
      ptr2 := to + 1;
    } else {
      ptr2 := WriteEscape(out, to, c);
    }
    assert out[..ptr2] == done + EscapeChar(c);
  }

  /** print_string_ptr: the buffer it allocates has exactly the size of what it writes. */
  method PrintStringPtr(str: Option<string>) returns (out: array<char>)
    ensures fresh(out)
    ensures out[..] == (if str.Some? then StringText(str.value) else "") + ['\0']
  {
    hide EscapeChar;
    if str == None {
      out := new char[1];
      out[0] := '\0';
      return;
    }
    var s := str.value;
    var len := MeasureEscapes(s);
    out := new char[len + 3];
    var ptr, ptr2 := 0, 0;
    out[ptr2] := '\"';
    ptr2 := ptr2 + 1;
    while ptr < |s|
      invariant ptr <= |s| && ptr2 == 1 + |Escaped(s[..ptr])|
      invariant ptr2 + 2 <= out.Length
      invariant out[..ptr2] == "\"" + Escaped(s[..ptr])
    {
      EscapedNext(s, ptr);
      EscapedGrows(s, ptr + 1);
      Regroup("\"", Escaped(s[..ptr]), EscapeChar(s[ptr]));
      WidthIsExact(s[ptr]);
      ptr2 := WriteChar(out, ptr2, s[ptr]);
      ptr := ptr + 1;
    }
    assert s[..ptr] == s;
    out[ptr2] := '\"';
    ptr2 := ptr2 + 1;
    out[ptr2] := '\0';
    assert out[..ptr2 + 1] == out[..];
  }

  lemma CopiedIsItself(c: char)
    requires Copied(c)
    ensures EscapeChar(c) == [c]
  {
  }
}
