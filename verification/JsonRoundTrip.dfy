/**
 What the printer writes, the parser reads back; what the minifier does to formatted text
 is what printing without format would have given.
 */
module JsonRoundTrip {
  import opened Base
  import opened JsonText

  // ---------------------------------------------------------------- numbers

  /** Texts after which a number cannot go on. */
  predicate EndsNumber(t: string) {
    t == [] || (!IsDigit(t[0]) && t[0] != '.' && t[0] != 'e' && t[0] != 'E')
  }

  lemma {:induction false} DigitsOfNatText(n: nat, count: nat, u: string)
    ensures Digits(0.0, count, NatText(n) + u) == Digits(n as real, count + |NatText(n)|, u)
    decreases n
  {
    var last := DigitChar(n % 10);
    assert ([last] + u)[1..] == u;
    if n < 10 {
      assert NatText(n) + u == [last] + u;
    } else {
      var front := NatText(n / 10);
      assert NatText(n) + u == front + ([last] + u);
      DigitsOfNatText(n / 10, count, [last] + u);
      assert n as real == (n / 10) as real * 10.0 + (n % 10) as real;
    }
  }

  lemma {:induction false} NatTextLeads(n: nat)
    requires n > 0
    ensures '1' <= NatText(n)[0] <= '9'
  {
    if n >= 10 {
      NatTextLeads(n / 10);
    }
  }

  lemma NatTextParses(n: nat, tail: string)
    requires EndsNumber(tail)
    ensures ParseMagnitude(NatText(n) + tail) == (n as real, tail)
  {
    var t := NatText(n) + tail;
    assert Pow10(0) == 1.0 && Scaled(n as real, 0) == n as real;
    assert ParseExponent(tail) == (0, tail);
    if n == 0 {
      assert t == ['0'] + tail;
      assert t[1..] == tail;
    } else {
      NatTextLeads(n);
      DigitsOfNatText(n, 0, tail);
      assert t[0] == NatText(n)[0];
      assert Digits(n as real, |NatText(n)|, tail) == (n as real, |NatText(n)|, tail);
    }
  }

  lemma NumberRoundTrip(d: real, tail: string)
    requires IsInt32(d) && EndsNumber(tail)
    ensures ParseNumber(IntText(d.Floor) + tail) == (d, tail)
  {
    hide ParseMagnitude;
    var t := IntText(d.Floor) + tail;
    if d.Floor < 0 {
      NatTextParses(-d.Floor, tail);
      assert t[1..] == NatText(-d.Floor) + tail;
    } else {
      NatTextParses(d.Floor, tail);
      assert t[0] == NatText(d.Floor)[0];
    }
  }

  // ---------------------------------------------------------------- strings

  lemma EscapeCharUndone(c: char, u: string)
    requires c != '\0' && !Copied(c)
    ensures var t := EscapeChar(c) + u;
            StartsWith(t, '\\') && EscapeComplete(t) && Unescape(t) == Piece([c], |EscapeChar(c)|)
  {
    var t := EscapeChar(c) + u;
    if t[1] == 'u' {
      assert t[2..][0] == '0' && t[2..][1] == '0';
      assert t[2..][2] == HexChar(c as int / 16) && t[2..][3] == HexChar(c as int % 16);
      assert Hex4(t[2..]) == c as int;
    }
  }

  lemma BodyOfEscape(c: char, u: string)
    requires c != '\0'
    ensures StringBody(EscapeChar(c) + u) == Prepend([c], StringBody(u))
  {
    var t := EscapeChar(c) + u;
    assert t[|EscapeChar(c)|..] == u;
    if Copied(c) {
      assert t[0] == c;
    } else {
      EscapeCharUndone(c, u);
      assert t[0] == '\\';
      hide EscapeChar, Unescape, EscapeComplete;
    }
  }

  lemma {:induction false} BodyRoundTrip(s: string, tail: string)
    requires NulFree(s) && StartsWith(tail, '\"')
    ensures StringBody(Escaped(s) + tail) == Done(s, tail)
  {
    hide EscapeChar, Unescape, EscapeComplete;
    if s == [] {
      assert Escaped(s) + tail == tail;
    } else {
      var rest := Escaped(s[1..]) + tail;
      assert Escaped(s) + tail == EscapeChar(s[0]) + rest;
      BodyRoundTrip(s[1..], tail);
      BodyOfEscape(s[0], rest);
      assert [s[0]] + s[1..] == s;
    }
  }

  lemma StringRoundTrip(s: string, tail: string)
    requires NulFree(s)
    ensures ParseString(StringText(s) + tail) == Done(s, tail)
  {
    var t := StringText(s) + tail;
    assert t[1..] == Escaped(s) + ("\"" + tail);
    BodyRoundTrip(s, "\"" + tail);
    assert ("\"" + tail)[1..] == tail;
  }

  // ------------------------------------------------------------------ trees

  /** The trees the round trip is promised for. */
  predicate Printable(v: Json) {
    match v
    case Number(d) => IsInt32(d)
    case Str(s) => NulFree(s)
    case Arr(items) => forall i :: 0 <= i < |items| ==> Printable(items[i])
    case Obj(members) => forall i :: 0 <= i < |members| ==> NulFree(members[i].name) && Printable(members[i].value)
    case _ => true
  }

  lemma {:induction false} PrintableIsIntegral(v: Json)
    requires Printable(v)
    ensures Integral(v)
  {
    match v
    case Arr(items) =>
      forall i | 0 <= i < |items|
        ensures Integral(items[i])
      {
        PrintableIsIntegral(items[i]);
      }
    case Obj(members) =>
      forall i | 0 <= i < |members|
        ensures Integral(members[i].value)
      {
        PrintableIsIntegral(members[i].value);
      }
    case _ =>
  }

  // ----------------------------------- the parser's steps, one rule for each

  lemma ItemsLast(t: string, v: Json, r: string)
    requires ParseValue(Skip(t)) == Done(v, r) && !StartsWith(Skip(r), ',')
    ensures ParseItems(t) == Done([v], Skip(r))
  {
  }

  lemma ItemsMore(t: string, v: Json, r: string, vs: seq<Json>, rest: string)
    requires ParseValue(Skip(t)) == Done(v, r) && StartsWith(Skip(r), ',')
    requires ParseItems(Skip(r)[1..]) == Done(vs, rest)
    ensures ParseItems(t) == Done([v] + vs, rest)
  {
  }

  lemma MembersLast(t: string, m: Member, r: string)
    requires ParseMember(t) == Done(m, r) && !StartsWith(Skip(r), ',')
    ensures ParseMembers(t) == Done([m], Skip(r))
  {
  }

  lemma MembersMore(t: string, m: Member, r: string, ms: seq<Member>, rest: string)
    requires ParseMember(t) == Done(m, r) && StartsWith(Skip(r), ',')
    requires ParseMembers(Skip(r)[1..]) == Done(ms, rest)
    ensures ParseMembers(t) == Done([m] + ms, rest)
  {
  }

  lemma MemberRule(t: string, name: string, r: string, v: Json, rest: string)
    requires ParseString(Skip(t)) == Done(name, r) && StartsWith(Skip(r), ':')
    requires ParseValue(Skip(Skip(r)[1..])) == Done(v, rest)
    ensures ParseMember(t) == Done(Member(name, v), rest)
  {
  }

  lemma ArrayRule(t: string, items: seq<Json>, rest: string)
    requires StartsWith(t, '[') && !StartsWith(Skip(t[1..]), ']')
    requires ParseItems(Skip(t[1..])) == Done(items, rest) && StartsWith(rest, ']')
    ensures ParseValue(t) == Done(Arr(items), rest[1..])
  {
  }

  lemma EmptyArrayRule(t: string)
    requires StartsWith(t, '[') && StartsWith(Skip(t[1..]), ']')
    ensures ParseValue(t) == Done(Arr([]), Skip(t[1..])[1..])
  {
  }

  lemma ObjectRule(t: string, members: seq<Member>, rest: string)
    requires StartsWith(t, '{') && !StartsWith(Skip(t[1..]), '}')
    requires ParseMembers(Skip(t[1..])) == Done(members, rest) && StartsWith(rest, '}')
    ensures ParseValue(t) == Done(Obj(members), rest[1..])
  {
  }

  lemma EmptyObjectRule(t: string)
    requires StartsWith(t, '{') && StartsWith(Skip(t[1..]), '}')
    ensures ParseValue(t) == Done(Obj([]), Skip(t[1..])[1..])
  {
  }

  lemma NumberRule(t: string)
    requires t != [] && (t[0] == '-' || IsDigit(t[0]))
    ensures ParseValue(t) == Done(Number(ParseNumber(t).0), ParseNumber(t).1)
  {
  }

  lemma StringRule(t: string, s: string, rest: string)
    requires ParseString(t) == Done(s, rest)
    ensures ParseValue(t) == Done(Str(s), rest)
  {
  }

  // ------------------------------------------------------- white space

  lemma SkipOne(c: char, t: string)
    requires c <= ' '
    ensures Skip([c] + t) == Skip(t)
  {
    assert ([c] + t)[1..] == t;
  }

  lemma {:induction false} SkipTabs(n: nat, t: string)
    ensures Skip(Tabs(n) + t) == Skip(t)
  {
    if n == 0 {
      assert Tabs(0) + t == t;
    } else {
      assert Tabs(n) + t == Tabs(n - 1) + ("\t" + t);
      SkipTabs(n - 1, "\t" + t);
      SkipOne('\t', t);
    }
  }

  lemma SkipIf(b: bool, c: char, t: string)
    requires c <= ' '
    ensures Skip(If(b, [c]) + t) == Skip(t)
  {
    if b { SkipOne(c, t); } else { assert "" + t == t; }
  }

  lemma SkipIfTabs(b: bool, n: nat, t: string)
    ensures Skip(If(b, Tabs(n)) + t) == Skip(t)
  {
    if b { SkipTabs(n, t); } else { assert "" + t == t; }
  }

  lemma SkipIfLine(b: bool, n: nat, t: string)
    ensures Skip(If(b, "\n" + Tabs(n)) + t) == Skip(t)
  {
    if b {
      assert "\n" + Tabs(n) + t == "\n" + (Tabs(n) + t);
      SkipOne('\n', Tabs(n) + t);
      SkipTabs(n, t);
    } else {
      assert "" + t == t;
    }
  }

  lemma SkipNothing(t: string)
    requires t != [] && t[0] > ' '
    ensures Skip(t) == t
  {
  }

  /** skip passes every character up to code 32, up to the first that is above or the end. */
  lemma {:induction false} SkipIs(t: string)
    ensures var k := |t| - |Skip(t)|;
            Skip(t) == t[k..] && (forall i :: 0 <= i < k ==> t[i] as int <= 32) && (k < |t| ==> t[k] as int > 32)
    decreases t
  {
    if t != [] && t[0] <= ' ' {
      SkipIs(t[1..]);
      var k := |t| - |Skip(t)|;
      forall i | 0 <= i < k
        ensures t[i] as int <= 32
      {
        if i > 0 { assert t[i] == t[1..][i - 1]; }
      }
    }
  }

  lemma {:induction false} SkipTwice(t: string)
    ensures Skip(Skip(t)) == Skip(t)
    decreases t
  {
    if t != [] && t[0] <= ' ' { SkipTwice(t[1..]); }
  }

  // --------------------------------------------------------- the round trip

  lemma NatTextHead(n: nat)
    ensures IsDigit(NatText(n)[0])
  {
  }

  lemma IntTextHead(n: int)
    ensures IntText(n) != [] && (IntText(n)[0] == '-' || IsDigit(IntText(n)[0]))
  {
    if n >= 0 { NatTextHead(n); }
  }

  /** No printed value starts with white space or a closing bracket. */
  lemma PrintHead(v: Json, depth: nat, fmt: bool)
    requires Integral(v)
    ensures var s := Print(v, depth, fmt);
            s != [] && s[0] > ' ' && s[0] != ']'
  {
    match v
    case Number(d) => IntTextHead(d.Floor);
    case Str(s) => assert Print(v, depth, fmt)[0] == '\"';
    case Arr(_) => assert Print(v, depth, fmt)[0] == '[';
    case Obj(_) => assert Print(v, depth, fmt)[0] == '{';
    case _ =>
  }

  /** Printing and then parsing gives the tree back and stops exactly where the text ends. */
  lemma {:induction false} RoundTrip(v: Json, depth: nat, fmt: bool, tail: string)
    requires Printable(v) && Integral(v)
    requires v.Number? ==> EndsNumber(tail)
    ensures ParseValue(Print(v, depth, fmt) + tail) == Done(v, tail)
    decreases v, 1
  {
    var t := Print(v, depth, fmt) + tail;
    match v
    case Null =>
      assert t[..4] == "null" && t[4..] == tail;
      assert "null" <= t;
    case False =>
      assert t[..5] == "false" && t[5..] == tail;
      assert t[0] == 'f' && "false" <= t;
    case True =>
      assert t[..4] == "true" && t[4..] == tail;
      assert t[0] == 't' && "true" <= t;
    case Number(d) =>
      IntTextHead(d.Floor);
      NumberRule(t);
      NumberRoundTrip(d, tail);
      assert ParseValue(t) == Done(Number(d), tail);
    case Str(s) =>
      StringRoundTrip(s, tail);
      StringRule(t, s, tail);
      assert ParseValue(t) == Done(Str(s), tail);
    case Arr(items) =>
      ArrayRoundTrip(v, depth, fmt, tail);
    case Obj(members) =>
      ObjectRoundTrip(v, depth, fmt, tail);
  }

  lemma {:induction false} ArrayRoundTrip(v: Json, depth: nat, fmt: bool, tail: string)
    requires v.Arr? && Printable(v) && Integral(v)
    ensures ParseValue(Print(v, depth, fmt) + tail) == Done(v, tail)
    decreases v, 0
  {
    hide ParseValue, ParseItems;
    var body := ItemsText(v.items, depth + 1, fmt);
    assert Print(v, depth, fmt) == "[" + body + "]";
    hide ItemsText, Print;
    var t := Print(v, depth, fmt) + tail;
    assert t[1..] == body + ("]" + tail);
    assert ("]" + tail)[1..] == tail;
    if v.items == [] {
      assert body + ("]" + tail) == "]" + tail;
      EmptyArrayRule(t);
    } else {
      PrintHead(v.items[0], depth + 1, fmt);
      SkipNothing(t[1..]);
      ItemsRoundTrip(v.items, depth + 1, fmt, "]" + tail);
      ArrayRule(t, v.items, "]" + tail);
    }
  }

  lemma {:induction false} ItemsRoundTrip(items: seq<Json>, depth: nat, fmt: bool, tail: string)
    requires items != [] && StartsWith(tail, ']')
    requires forall i :: 0 <= i < |items| ==> Printable(items[i]) && Integral(items[i])
    ensures ParseItems(ItemsText(items, depth, fmt) + tail) == Done(items, tail)
    decreases items, 1
  {
    hide ParseValue, ParseItems, Print, Printable, Integral;
    var t := ItemsText(items, depth, fmt) + tail;
    var head := Print(items[0], depth, fmt);
    PrintHead(items[0], depth, fmt);
    if |items| == 1 {
      RoundTrip(items[0], depth, fmt, tail);
      SkipNothing(t);
      SkipNothing(tail);
      ItemsLast(t, items[0], tail);
      assert [items[0]] == items;
    } else {
      var more := ItemsText(items[1..], depth, fmt) + tail;
      var rest := "," + (If(fmt, " ") + more);
      assert t == head + rest;
      assert rest[1..] == If(fmt, " ") + more;
      RoundTrip(items[0], depth, fmt, rest);
      SkipNothing(t);
      SkipNothing(rest);
      ItemsRoundTrip(items[1..], depth, fmt, tail);
      SkipIf(fmt, ' ', more);
      ItemsIgnoreBlanks(If(fmt, " ") + more, more);
      ItemsMore(t, items[0], rest, items[1..], tail);
      assert [items[0]] + items[1..] == items;
    }
  }

  lemma ItemsIgnoreBlanks(t: string, u: string)
    requires Skip(t) == Skip(u)
    ensures ParseItems(t) == ParseItems(u)
  {
  }

  lemma ObjectSplit(v: Json, depth: nat, fmt: bool, tail: string)
    requires v.Obj? && Integral(v)
    ensures var t := Print(v, depth, fmt) + tail;
            StartsWith(t, '{') &&
            t[1..] == if v.members == [] then If(fmt, "\n" + Tabs(if depth == 0 then 0 else depth - 1)) + ("}" + tail)
                      else If(fmt, "\n") + (MembersText(v.members, depth + 1, fmt) + (If(fmt, Tabs(depth)) + ("}" + tail)))
  {
    hide MembersText, Tabs, If;
  }

  lemma {:induction false} ObjectRoundTrip(v: Json, depth: nat, fmt: bool, tail: string)
    requires v.Obj? && Printable(v) && Integral(v)
    ensures ParseValue(Print(v, depth, fmt) + tail) == Done(v, tail)
    decreases v, 0
  {
    hide ParseValue, ParseMembers, Print, MembersText, Tabs, If;
    var ms := v.members;
    var t := Print(v, depth, fmt) + tail;
    var close := "}" + tail;
    assert close[1..] == tail;
    ObjectSplit(v, depth, fmt, tail);
    if ms == [] {
      SkipIfLine(fmt, if depth == 0 then 0 else depth - 1, close);
      SkipNothing(close);
      EmptyObjectRule(t);
    } else {
      var end := If(fmt, Tabs(depth)) + close;
      var u := MembersText(ms, depth + 1, fmt) + end;
      SkipIf(fmt, '\n', u);
      SkipIfTabs(fmt, depth, close);
      SkipNothing(close);
      IndentEndsNumber(fmt, depth, close);
      MembersRoundTrip(ms, depth + 1, fmt, end, close);
      MembersHead(ms, depth + 1, fmt, end);
      SkipTwice(u);
      MembersIgnoreBlanks(Skip(t[1..]), u);
      ObjectRule(t, ms, close);
    }
  }

  lemma IndentEndsNumber(fmt: bool, depth: nat, close: string)
    requires StartsWith(close, '}')
    ensures EndsNumber(If(fmt, Tabs(depth)) + close)
  {
    var t := If(fmt, Tabs(depth)) + close;
    assert t[0] == if fmt && depth > 0 then Tabs(depth)[0] else close[0];
  }

  lemma MembersIgnoreBlanks(t: string, u: string)
    requires Skip(t) == Skip(u)
    ensures ParseMembers(t) == ParseMembers(u)
  {
    assert ParseMember(t) == ParseMember(u);
  }

  lemma {:induction false} MemberRoundTrip(m: Member, depth: nat, fmt: bool, tail: string)
    requires NulFree(m.name) && Printable(m.value) && Integral(m.value) && EndsNumber(tail)
    ensures ParseMember(If(fmt, Tabs(depth)) + (StringText(m.name) + (":" + (If(fmt, "\t") + (Print(m.value, depth, fmt) + tail))))) ==
            Done(m, tail)
    decreases m, 1
  {
    hide ParseValue, Print, ParseString;
    var value := Print(m.value, depth, fmt) + tail;
    var spaced := If(fmt, "\t") + value;
    var after := ":" + spaced;
    var u := StringText(m.name) + after;
    assert u[0] == '\"';
    SkipNothing(u);
    SkipIfTabs(fmt, depth, u);
    StringRoundTrip(m.name, after);
    SkipNothing(after);
    assert after[1..] == spaced;
    PrintHead(m.value, depth, fmt);
    SkipNothing(value);
    SkipIf(fmt, '\t', value);
    RoundTrip(m.value, depth, fmt, tail);
    MemberRule(If(fmt, Tabs(depth)) + u, m.name, after, m.value, tail);
  }

  /** A member's text with what follows it, grouped to the right. */
  lemma MembersSplit(ms: seq<Member>, depth: nat, fmt: bool, tail: string)
    requires ms != [] && forall i :: 0 <= i < |ms| ==> Integral(ms[i].value)
    ensures MembersText(ms, depth, fmt) + tail ==
            If(fmt, Tabs(depth)) + (StringText(ms[0].name) + (":" + (If(fmt, "\t") + (Print(ms[0].value, depth, fmt) +
              (If(|ms| > 1, ",") + (If(fmt, "\n") + (MembersText(ms[1..], depth, fmt) + tail)))))))
  {
    hide Print, StringText, Tabs, If, Integral;
    var value := Print(ms[0].value, depth, fmt);
    var r5 := If(fmt, "\n") + MembersText(ms[1..], depth, fmt);
    var r4 := If(|ms| > 1, ",") + r5;
    var r3 := value + r4;
    var r2 := If(fmt, "\t") + r3;
    var r1 := ":" + r2;
    var r0 := StringText(ms[0].name) + r1;
    Regroup(If(fmt, "\n"), MembersText(ms[1..], depth, fmt), tail);
    Regroup(If(|ms| > 1, ","), r5, tail);
    Regroup(value, r4, tail);
    Regroup(If(fmt, "\t"), r3, tail);
    Regroup(":", r2, tail);
    Regroup(StringText(ms[0].name), r1, tail);
    Regroup(If(fmt, Tabs(depth)), r0, tail);
  }

  lemma MembersHead(ms: seq<Member>, depth: nat, fmt: bool, tail: string)
    requires ms != [] && forall i :: 0 <= i < |ms| ==> Integral(ms[i].value)
    ensures StartsWith(Skip(MembersText(ms, depth, fmt) + tail), '\"')
  {
    MembersSplit(ms, depth, fmt, tail);
    NameHead(ms[0].name, fmt, depth, ":" + (If(fmt, "\t") + (Print(ms[0].value, depth, fmt) +
      (If(|ms| > 1, ",") + (If(fmt, "\n") + (MembersText(ms[1..], depth, fmt) + tail))))));
  }

  lemma NameHead(name: string, fmt: bool, depth: nat, rest: string)
    ensures StartsWith(Skip(If(fmt, Tabs(depth)) + (StringText(name) + rest)), '\"')
  {
    SkipIfTabs(fmt, depth, StringText(name) + rest);
  }

  lemma {:induction false} MembersRoundTrip(ms: seq<Member>, depth: nat, fmt: bool, tail: string, close: string)
    requires ms != [] && Skip(tail) == close && StartsWith(close, '}') && EndsNumber(tail)
    requires forall i :: 0 <= i < |ms| ==> NulFree(ms[i].name) && Printable(ms[i].value) && Integral(ms[i].value)
    ensures ParseMembers(MembersText(ms, depth, fmt) + tail) == Done(ms, close)
    decreases ms, 2
  {
    hide ParseMembers, ParseMember, Print, StringText, Tabs, Printable, Integral, NulFree;
    var more := MembersText(ms[1..], depth, fmt) + tail;
    var lined := If(fmt, "\n") + more;
    var after := If(|ms| > 1, ",") + lined;
    var t := MembersText(ms, depth, fmt) + tail;
    MembersSplit(ms, depth, fmt, tail);
    SkipIf(fmt, '\n', more);
    if |ms| == 1 {
      assert more == tail;
      assert after == lined;
      assert lined == if fmt then "\n" + tail else tail;
      MemberRoundTrip(ms[0], depth, fmt, after);
      MembersLast(t, ms[0], after);
      assert [ms[0]] == ms;
    } else {
      assert after == "," + lined;
      MemberRoundTrip(ms[0], depth, fmt, after);
      SkipNothing(after);
      assert after[1..] == lined;
      MembersRoundTrip(ms[1..], depth, fmt, tail, close);
      MembersIgnoreBlanks(lined, more);
      MembersMore(t, ms[0], after, ms[1..], close);
      assert [ms[0]] + ms[1..] == ms;
    }
  }
}
