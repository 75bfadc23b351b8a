/** The transcoding of \u escapes: UTF-16 code units in, the UTF-8 of RFC 3629 out. */
module JsonUnicode {
  import opened Base
  import opened JsonText

  predicate Tail(c: char) {
    0x80 <= c as int <= 0xBF
  }

  /** A strict decoder after section 4 of RFC 3629: shortest forms only, no surrogates, at
      most U+10FFFF. Gives the code point and the number of bytes. */
  function DecodeUtf8(s: string): Option<(int, nat)> {
    if s == [] then None
    else
      var b0 := s[0] as int;
      if b0 <= 0x7F then Some((b0, 1))
      else if 0xC2 <= b0 <= 0xDF && |s| >= 2 && Tail(s[1]) then
        Some(((b0 - 0xC0) * 0x40 + (s[1] as int - 0x80), 2))
      else if 0xE0 <= b0 <= 0xEF && |s| >= 3 && Tail(s[1]) && Tail(s[2])
              && (b0 == 0xE0 ==> s[1] as int >= 0xA0) && (b0 == 0xED ==> s[1] as int <= 0x9F) then
        Some(((b0 - 0xE0) * 0x1000 + (s[1] as int - 0x80) * 0x40 + (s[2] as int - 0x80), 3))
      else if 0xF0 <= b0 <= 0xF4 && |s| >= 4 && Tail(s[1]) && Tail(s[2]) && Tail(s[3])
              && (b0 == 0xF0 ==> s[1] as int >= 0x90) && (b0 == 0xF4 ==> s[1] as int <= 0x8F) then
        Some(((b0 - 0xF0) * 0x40000 + (s[1] as int - 0x80) * 0x1000 + (s[2] as int - 0x80) * 0x40
              + (s[3] as int - 0x80), 4))
      else None
  }

  predicate Scalar(u: int) {
    0 <= u <= 0x10FFFF && !HighSurrogate(u) && !LowSurrogate(u)
  }

  lemma Utf8Decodes(u: int, tail: string)
    requires Scalar(u)
    ensures DecodeUtf8(Utf8(u) + tail) == Some((u, |Utf8(u)|))
  {
    var s := Utf8(u) + tail;
    assert forall i :: 0 <= i < |Utf8(u)| ==> s[i] == Utf8(u)[i];
    if u < 0x80 {
    } else if u < 0x800 {
      assert u == u / 0x40 * 0x40 + u % 0x40;
    } else if u < 0x10000 {
      ThreeParts(u);
    } else {
      FourParts(u);
    }
  }

  lemma ThreeParts(u: int)
    requires 0 <= u < 0x10000
    ensures u == u / 0x1000 * 0x1000 + u / 0x40 % 0x40 * 0x40 + u % 0x40
    ensures u / 0x1000 == u / 0x40 / 0x40
  {
  }

  lemma FourParts(u: int)
    requires 0 <= u < 0x110000
    ensures u == u / 0x40000 * 0x40000 + u / 0x1000 % 0x40 * 0x1000 + u / 0x40 % 0x40 * 0x40 + u % 0x40
  {
  }

  /** The code point that the escapes at the head of t spell in UTF-16, if they spell one. */
  function Spelled(t: string): Option<int>
    requires StartsWith(t, '\\') && EscapeComplete(t) && t[1] == 'u'
  {
    var u := Hex4(t[2..]);
    if HighSurrogate(u) then
      if |t| >= 8 && t[6] == '\\' && t[7] == 'u' && LowSurrogate(Hex4(t[8..]))
      then Some(0x10000 + (u - 0xD800) * 0x400 + (Hex4(t[8..]) - 0xDC00)) else None
    else if LowSurrogate(u) then None
    else Some(u)
  }

  /** What an escape emits is the encoding of what it spells, except that U+0000 and broken
      surrogates emit nothing. */
  lemma EscapeEmitsUtf8(t: string)
    requires StartsWith(t, '\\') && EscapeComplete(t) && t[1] == 'u'
    ensures var out := Unescape(t).out;
            if Spelled(t).Some? && Spelled(t).value != 0
            then Scalar(Spelled(t).value) && DecodeUtf8(out) == Some((Spelled(t).value, |out|))
            else out == []
  {
    hide Utf8, DecodeUtf8, Hex4, EscapeComplete;
    assert Unescape(t) == UnescapeUnicode(t);
    if Spelled(t).Some? && Spelled(t).value != 0 {
      var u := Spelled(t).value;
      assert Scalar(u);
      assert Unescape(t).out == Utf8(u);
      Utf8Decodes(u, []);
      assert Utf8(u) + [] == Utf8(u);
    }
  }

  /** Nothing the parser reads from a string literal contains the terminator. */
  lemma {:induction false} ParsedStringsAreNulFree(t: string)
    requires '\0' !in t && StringBody(t).Done?
    ensures '\0' !in StringBody(t).v
    decreases |t|
  {
    if t != [] && t[0] != '\"' {
      if t[0] != '\\' {
        ParsedStringsAreNulFree(t[1..]);
      } else {
        var p := Unescape(t);
        ParsedStringsAreNulFree(t[p.taken..]);
        EscapeIsNulFree(t);
      }
    }
  }

  lemma EscapeIsNulFree(t: string)
    requires '\0' !in t && StartsWith(t, '\\') && EscapeComplete(t)
    ensures '\0' !in Unescape(t).out
  {
  }
}
