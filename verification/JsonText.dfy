/**
 The texts of cJSON.c: what the parser accepts, what the printer writes and what the
 minifier keeps, as functions on NUL-free C strings. A char pointer into a text is the
 rest of the text from there on; reading the terminator is finding that rest empty.
 */
module JsonText {
  import opened Base

  datatype Json =
    | Null
    | False
    | True
    | Number(d: real)
    | Str(s: string)
    | Arr(items: seq<Json>)
    | Obj(members: seq<Member>)
  datatype Member = Member(name: string, value: Json)

  /** Failed carries where the error pointer is left; Undefined marks texts on which the C
      code leaves its buffers (an escape that the terminator or the closing quote cuts short). */
  datatype Outcome<+T> = Done(v: T, rest: string) | Failed(at: string) | Undefined

  predicate StartsWith(t: string, c: char) {
    t != [] && t[0] == c
  }

  /** skip: white space and every other character up to code 32. */
  function Skip(t: string): (r: string)
    ensures |r| <= |t|
  {
    if t != [] && t[0] <= ' ' then Skip(t[1..]) else t
  }

  // ---------------------------------------------------------------- numbers

  predicate IsDigit(c: char) {
    '0' <= c <= '9'
  }

  function DigitValue(c: char): int
    requires IsDigit(c)
  {
    c as int - '0' as int
  }

  /** The loop that appends the leading digits of t to the mantissa n and counts them. */
  function Digits(n: real, count: nat, t: string): (r: (real, nat, string))
    ensures |r.2| <= |t|
    decreases t
  {
    if t != [] && IsDigit(t[0]) then Digits(n * 10.0 + DigitValue(t[0]) as real, count + 1, t[1..])
    else (n, count, t)
  }

  function ExponentDigits(e: nat, t: string): (r: (nat, string))
    ensures |r.1| <= |t|
    decreases t
  {
    if t != [] && IsDigit(t[0]) then ExponentDigits(e * 10 + DigitValue(t[0]), t[1..]) else (e, t)
  }

  function Pow10(e: nat): real
    ensures Pow10(e) > 0.0
  {
    if e == 0 then 1.0 else 10.0 * Pow10(e - 1)
  }

  function Scaled(n: real, e: int): real {
    if e >= 0 then n * Pow10(e) else n / Pow10(-e)
  }

  /** The digits before the point: a zero, or nothing, and then digits not led by zero. */
  function Whole(t: string): (r: (real, string))
    ensures |r.1| <= |t|
    ensures t != [] && IsDigit(t[0]) ==> |r.1| < |t|
  {
    var u := if StartsWith(t, '0') then t[1..] else t;
    if u != [] && '1' <= u[0] <= '9' then (Digits(0.0, 0, u).0, Digits(0.0, 0, u).2) else (0.0, u)
  }

  /** The digits after a decimal point, when there are any, and how many they are. */
  function Fraction(n: real, t: string): (r: (real, nat, string))
    ensures |r.2| <= |t|
  {
    if |t| >= 2 && t[0] == '.' && IsDigit(t[1]) then Digits(n, 0, t[1..]) else (n, 0, t)
  }

  /** A number without its sign. */
  function ParseMagnitude(t: string): (r: (real, string))
    ensures |r.1| <= |t|
    ensures t != [] && IsDigit(t[0]) ==> |r.1| < |t|
  {
    var (n3, t3) := Whole(t);
    var (n4, scale, t4) := Fraction(n3, t3);
    var (exponent, t5) := ParseExponent(t4);
    (Scaled(n4, exponent - scale), t5)
  }

  /** The value and the rest of a number; the caller has seen a digit or a minus sign. */
  function ParseNumber(t: string): (r: (real, string))
    ensures |r.1| <= |t|
    ensures t != [] && (t[0] == '-' || IsDigit(t[0])) ==> |r.1| < |t|
  {
    if StartsWith(t, '-') then
      var (d, rest) := ParseMagnitude(t[1..]);
      (-d, rest)
    else ParseMagnitude(t)
  }

  function SignLength(t: string): nat {
    if StartsWith(t, '-') || StartsWith(t, '+') then 1 else 0
  }

  function ParseExponent(t: string): (r: (int, string))
    ensures |r.1| <= |t|
  {
    if StartsWith(t, 'e') || StartsWith(t, 'E') then
      var r := ExponentDigits(0, t[1 + SignLength(t[1..])..]);
      var e: int := r.0;
      (if StartsWith(t[1..], '-') then -e else e, r.1)
    else
      (0, t)
  }

  // ---------------------------------------------------------------- strings

  function HexValue(c: char): (h: int)
    requires IsHex(c)
    ensures 0 <= h < 16
  {
    if '0' <= c <= '9' then c as int - '0' as int
    else if 'A' <= c <= 'F' then 10 + c as int - 'A' as int
    else 10 + c as int - 'a' as int
  }

  predicate StartsWithHex4(t: string) {
    |t| >= 4 && IsHex(t[0]) && IsHex(t[1]) && IsHex(t[2]) && IsHex(t[3])
  }

  /** parse_hex4: zero unless four hexadecimal digits are there. */
  function Hex4(t: string): (u: int)
    ensures 0 <= u < 0x10000
  {
    if StartsWithHex4(t) then
      HexValue(t[0]) * 4096 + HexValue(t[1]) * 256 + HexValue(t[2]) * 16 + HexValue(t[3])
    else 0
  }

  predicate HighSurrogate(u: int) { 0xD800 <= u <= 0xDBFF }
  predicate LowSurrogate(u: int) { 0xDC00 <= u <= 0xDFFF }

  /** The encoding of section 3 of RFC 3629. */
  function Utf8(u: int): (s: string)
    requires 0 <= u < 0x110000
    ensures |s| == if u < 0x80 then 1 else if u < 0x800 then 2 else if u < 0x10000 then 3 else 4
  {
    if u < 0x80 then [u as char]
    else if u < 0x800 then [(0xC0 + u / 0x40) as char, (0x80 + u % 0x40) as char]
    else if u < 0x10000 then
      [(0xE0 + u / 0x1000) as char, (0x80 + u / 0x40 % 0x40) as char, (0x80 + u % 0x40) as char]
    else
      [(0xF0 + u / 0x40000) as char, (0x80 + u / 0x1000 % 0x40) as char,
       (0x80 + u / 0x40 % 0x40) as char, (0x80 + u % 0x40) as char]
  }

  /** What one turn of the unescaping loop writes and how many characters it takes. */
  datatype Piece = Piece(out: string, taken: nat)

  /** True when the escape at the head of t has all its characters before the terminator,
      and its hexadecimal digits are digits. */
  predicate EscapeComplete(t: string)
    requires StartsWith(t, '\\')
  {
    |t| >= 2 &&
    (t[1] == 'u' ==>
       StartsWithHex4(t[2..]) &&
       (HighSurrogate(Hex4(t[2..])) && |t| >= 8 && t[6] == '\\' && t[7] == 'u' ==> StartsWithHex4(t[8..])))
  }

  function Unescape(t: string): (p: Piece)
    requires StartsWith(t, '\\') && EscapeComplete(t)
    ensures 2 <= p.taken <= |t|
  {
    match t[1]
    case 'b' => Piece("\U{08}", 2)
    case 'f' => Piece("\U{0C}", 2)
    case 'n' => Piece("\n", 2)
    case 'r' => Piece("\r", 2)
    case 't' => Piece("\t", 2)
    case 'u' => UnescapeUnicode(t)
    case _ => Piece([t[1]], 2)
  }

  function UnescapeUnicode(t: string): (p: Piece)
    requires StartsWith(t, '\\') && EscapeComplete(t) && t[1] == 'u'
    ensures 6 <= p.taken <= |t|
  {
    var u := Hex4(t[2..]);
    if LowSurrogate(u) || u == 0 then Piece([], 6)
    else if HighSurrogate(u) then
      if !(|t| >= 8 && t[6] == '\\' && t[7] == 'u') then Piece([], 6)
      else
        var w := Hex4(t[8..]);
        if !LowSurrogate(w) then Piece([], 12)
        else Piece(Utf8(0x10000 + u % 0x400 * 0x400 + w % 0x400), 12)
    else Piece(Utf8(u), 6)
  }

  /** The unescaping loop: the string read and the rest from the closing quote on. */
  function StringBody(t: string): (r: Outcome<string>)
    ensures r.Done? ==> |r.rest| <= |t| && (r.rest == [] || r.rest[0] == '\"')
    ensures !r.Failed?
    decreases |t|
  {
    if t == [] || t[0] == '\"' then Done([], t)
    else if t[0] != '\\' then Prepend([t[0]], StringBody(t[1..]))
    else if !EscapeComplete(t) then Undefined
    else
      var p := Unescape(t);
      Prepend(p.out, StringBody(t[p.taken..]))
  }

  function Prepend(s: string, r: Outcome<string>): Outcome<string> {
    match r
    case Done(v, rest) => Done(s + v, rest)
    case _ => r
  }

  /** parse_string: the terminator also ends a string. */
  function ParseString(t: string): (r: Outcome<string>)
    ensures r.Done? ==> |r.rest| < |t|
  {
    if !StartsWith(t, '\"') then Failed(t)
    else
      match StringBody(t[1..])
      case Done(v, rest) => Done(v, if StartsWith(rest, '\"') then rest[1..] else rest)
      case r => r
  }

  // ----------------------------------------------------------------- values

  function ParseValue(t: string): (r: Outcome<Json>)
    ensures r.Done? ==> |r.rest| < |t|
    decreases |t|, 1
  {
    if "null" <= t then Done(Null, t[4..])
    else if "false" <= t then Done(False, t[5..])
    else if "true" <= t then Done(True, t[4..])
    else if StartsWith(t, '\"') then
      match ParseString(t)
      case Done(s, rest) => Done(Str(s), rest)
      case Failed(at) => Failed(at)
      case Undefined => Undefined
    else if t != [] && (t[0] == '-' || IsDigit(t[0])) then
      var (d, rest) := ParseNumber(t);
      Done(Number(d), rest)
    else if StartsWith(t, '[') then
      var u := Skip(t[1..]);
      if StartsWith(u, ']') then Done(Arr([]), u[1..])
      else
        match ParseItems(u)
        case Done(items, rest) => if StartsWith(rest, ']') then Done(Arr(items), rest[1..]) else Failed(rest)
        case Failed(at) => Failed(at)
        case Undefined => Undefined
    else if StartsWith(t, '{') then
      var u := Skip(t[1..]);
      if StartsWith(u, '}') then Done(Obj([]), u[1..])
      else
        match ParseMembers(u)
        case Done(members, rest) => if StartsWith(rest, '}') then Done(Obj(members), rest[1..]) else Failed(rest)
        case Failed(at) => Failed(at)
        case Undefined => Undefined
    else Failed(t)
  }

  /** One or more values separated by commas; the rest starts at the first other character. */
  function ParseItems(t: string): (r: Outcome<seq<Json>>)
    ensures r.Done? ==> |r.rest| < |t| && |r.v| > 0
    decreases |t|, 2
  {
    match ParseValue(Skip(t))
    case Failed(at) => Failed(at)
    case Undefined => Undefined
    case Done(v, r) =>
      var u := Skip(r);
      if StartsWith(u, ',') then
        match ParseItems(u[1..])
        case Done(vs, rest) => Done([v] + vs, rest)
        case e => e
      else Done([v], u)
  }

  /** One name, colon and value. */
  function ParseMember(t: string): (r: Outcome<Member>)
    ensures r.Done? ==> |r.rest| < |t|
    decreases |t|, 2
  {
    match ParseString(Skip(t))
    case Failed(at) => Failed(at)
    case Undefined => Undefined
    case Done(name, r) =>
      var u := Skip(r);
      if !StartsWith(u, ':') then Failed(u)
      else
        match ParseValue(Skip(u[1..]))
        case Failed(at) => Failed(at)
        case Undefined => Undefined
        case Done(v, rest) => Done(Member(name, v), rest)
  }

  function ParseMembers(t: string): (r: Outcome<seq<Member>>)
    ensures r.Done? ==> |r.rest| < |t| && |r.v| > 0
    decreases |t|, 3
  {
    match ParseMember(t)
    case Failed(at) => Failed(at)
    case Undefined => Undefined
    case Done(m, r) =>
      var u := Skip(r);
      if StartsWith(u, ',') then
        match ParseMembers(u[1..])
        case Done(ms, rest) => Done([m] + ms, rest)
        case e => e
      else Done([m], u)
  }

  /** cJSON_ParseWithOpts: the value and where the text after it starts. */
  function ParseWithOpts(t: string, requireNullTerminated: bool): Outcome<Json> {
    match ParseValue(Skip(t))
    case Done(v, rest) =>
      if !requireNullTerminated then Done(v, rest)
      else if Skip(rest) == [] then Done(v, [])
      else Failed(Skip(rest))
    case r => r
  }

  // ---------------------------------------------------------------- printer

  function DigitChar(d: int): (c: char)
    requires 0 <= d < 10
    ensures IsDigit(c) && DigitValue(c) == d
  {
    ('0' as int + d) as char
  }

  function NatText(n: nat): (s: string)
    ensures s != [] && forall i :: 0 <= i < |s| ==> IsDigit(s[i])
  {
    if n < 10 then [DigitChar(n)] else NatText(n / 10) + [DigitChar(n % 10)]
  }

  lemma {:induction false} NatTextNulFree(n: nat)
    ensures NulFree(NatText(n))
  {
  }

  /** The %d conversion. */
  function IntText(n: int): string {
    if n < 0 then "-" + NatText(-n) else NatText(n)
  }

  predicate IsInt32(d: real) {
    d == d.Floor as real && -0x8000_0000 <= d.Floor <= 0x7FFF_FFFF
  }

  predicate Copied(c: char) {
    c > '\U{1F}' && c != '\"' && c != '\\'
  }

  function HexChar(h: int): (c: char)
    requires 0 <= h < 16
    ensures IsHex(c) && HexValue(c) == h
  {
    if h < 10 then ('0' as int + h) as char else ('a' as int + (h - 10)) as char
  }

  function EscapeChar(c: char): (s: string)
    ensures s != []
  {
    if Copied(c) then [c]
    else
      match c
      case '\\' => "\\\\"
      case '\"' => "\\\""
      case '\U{08}' => "\\b"
      case '\U{0C}' => "\\f"
      case '\n' => "\\n"
      case '\r' => "\\r"
      case '\t' => "\\t"
      case _ => "\\u00" + [HexChar(c as int / 16), HexChar(c as int % 16)]
  }

  function Escaped(s: string): string {
    if s == [] then [] else EscapeChar(s[0]) + Escaped(s[1..])
  }

  function StringText(s: string): string {
    "\"" + Escaped(s) + "\""
  }

  function Tabs(n: nat): (s: string)
    ensures |s| == n
    ensures forall i :: 0 <= i < n ==> s[i] == '\t'
  {
    if n == 0 then [] else Tabs(n - 1) + "\t"
  }

  function If(b: bool, s: string): string {
    if b then s else ""
  }

  /** Trees that the printer writes with %d: every number is a 32-bit integer. */
  predicate Integral(v: Json) {
    match v
    case Number(d) => IsInt32(d)
    case Arr(items) => forall i :: 0 <= i < |items| ==> Integral(items[i])
    case Obj(members) => forall i :: 0 <= i < |members| ==> Integral(members[i].value)
    case _ => true
  }

  function Print(v: Json, depth: nat, fmt: bool): (s: string)
    requires Integral(v)
    decreases v
  {
    match v
    case Null => "null"
    case False => "false"
    case True => "true"
    case Number(d) => IntText(d.Floor)
    case Str(s) => StringText(s)
    case Arr(items) => "[" + ItemsText(items, depth + 1, fmt) + "]"
    case Obj(members) =>
      if members == [] then "{" + If(fmt, "\n" + Tabs(if depth == 0 then 0 else depth - 1)) + "}"
      else "{" + If(fmt, "\n") + MembersText(members, depth + 1, fmt) + If(fmt, Tabs(depth)) + "}"
  }

  function ItemsText(items: seq<Json>, depth: nat, fmt: bool): string
    requires forall i :: 0 <= i < |items| ==> Integral(items[i])
    decreases items
  {
    if items == [] then ""
    else if |items| == 1 then Print(items[0], depth, fmt)
    else Print(items[0], depth, fmt) + "," + If(fmt, " ") + ItemsText(items[1..], depth, fmt)
  }

  /** The lines of an object whose closing brace stands one tab to the left. */
  function MembersText(members: seq<Member>, depth: nat, fmt: bool): string
    requires forall i :: 0 <= i < |members| ==> Integral(members[i].value)
    decreases members
  {
    if members == [] then ""
    else
      If(fmt, Tabs(depth)) + (StringText(members[0].name) + (":" + (If(fmt, "\t") + (Print(members[0].value, depth, fmt)
      + (If(|members| > 1, ",") + (If(fmt, "\n") + MembersText(members[1..], depth, fmt)))))))
  }
}
