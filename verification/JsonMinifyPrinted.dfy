/** Minifying a formatted print gives exactly the unformatted print. */
module JsonMinifyPrinted {
  import opened Base
  import opened JsonText
  import opened JsonMinify
  import opened JsonRoundTrip

  predicate Ordinary(c: char) {
    !IsBlank(c) && c != '/' && c != '\"'
  }

  lemma {:induction false} PlainStays(s: string, tail: string)
    requires forall i :: 0 <= i < |s| ==> Ordinary(s[i])
    ensures Minified(s + tail) == Then(s, Minified(tail))
  {
    if s == [] {
      assert s + tail == tail;
      if Minified(tail).Some? { assert [] + Minified(tail).value == Minified(tail).value; }
    } else {
      var t := s + tail;
      assert t[1..] == s[1..] + tail && t[..1] == s[..1];
      PlainStays(s[1..], tail);
      ThenThen(s[..1], s[1..], Minified(tail));
      assert s[..1] + s[1..] == s;
    }
  }

  lemma {:induction false} BlanksGo(s: string, tail: string)
    requires forall i :: 0 <= i < |s| ==> IsBlank(s[i])
    ensures Minified(s + tail) == Minified(tail)
  {
    if s == [] {
      assert s + tail == tail;
    } else {
      assert (s + tail)[1..] == s[1..] + tail;
      BlanksGo(s[1..], tail);
    }
  }

  /** A character or an escaped pair at the front of a literal. */
  lemma LiteralTakes(t: string, k: nat)
    requires t != [] && t[0] != '\"' && k == (if t[0] == '\\' then 2 else 1) <= |t|
    requires LiteralLength(t[k..]).Some?
    ensures LiteralLength(t) == Some(LiteralLength(t[k..]).value + k)
  {
  }

  lemma PlainLiteralChar(c: char, tail: string)
    requires c != '\"' && c != '\\' && LiteralLength(tail).Some?
    ensures LiteralLength([c] + tail) == Some(LiteralLength(tail).value + 1)
  {
    hide LiteralLength;
    var t := [c] + tail;
    assert t[0] == c && t[1..] == tail;
    LiteralTakes(t, 1);
  }

  lemma EscapeShape(c: char)
    requires !Copied(c)
    ensures var e := EscapeChar(c);
            e[0] == '\\' &&
            (|e| == 2 || (|e| == 6 && forall i :: 2 <= i < 6 ==> e[i] != '\"' && e[i] != '\\'))
  {
  }

  lemma {:induction false} PlainLiteralText(s: string, tail: string)
    requires LiteralLength(tail).Some?
    requires forall i :: 0 <= i < |s| ==> s[i] != '\"' && s[i] != '\\'
    ensures LiteralLength(s + tail) == Some(LiteralLength(tail).value + |s|)
  {
    if s == [] {
      assert s + tail == tail;
    } else {
      PlainLiteralText(s[1..], tail);
      PlainLiteralChar(s[0], s[1..] + tail);
      assert s + tail == [s[0]] + (s[1..] + tail);
    }
  }

  lemma LiteralOfEscape(c: char, tail: string)
    requires LiteralLength(tail).Some?
    ensures LiteralLength(EscapeChar(c) + tail) == Some(LiteralLength(tail).value + |EscapeChar(c)|)
  {
    if Copied(c) {
      PlainLiteralChar(c, tail);
    } else {
      EscapeShape(c);
      hide EscapeChar, LiteralLength;
      SequenceLiteral(EscapeChar(c), tail);
    }
  }

  lemma SequenceLiteral(e: string, tail: string)
    requires LiteralLength(tail).Some? && |e| >= 2 && e[0] == '\\'
    requires forall i :: 2 <= i < |e| ==> e[i] != '\"' && e[i] != '\\'
    ensures LiteralLength(e + tail) == Some(LiteralLength(tail).value + |e|)
  {
    var t := e + tail;
    hide LiteralLength;
    assert t[0] == '\\' && t[2..] == e[2..] + tail;
    PlainLiteralText(e[2..], tail);
    LiteralTakes(t, 2);
  }

  lemma {:induction false} LiteralOfEscaped(s: string, tail: string)
    ensures LiteralLength(Escaped(s) + ("\"" + tail)) == Some(|Escaped(s)| + 1)
  {
    hide EscapeChar;
    if s == [] {
      assert Escaped(s) + ("\"" + tail) == "\"" + tail;
    } else {
      var rest := Escaped(s[1..]) + ("\"" + tail);
      assert Escaped(s) + ("\"" + tail) == EscapeChar(s[0]) + rest;
      LiteralOfEscaped(s[1..], tail);
      LiteralOfEscape(s[0], rest);
    }
  }

  lemma StringStays(s: string, tail: string)
    ensures Minified(StringText(s) + tail) == Then(StringText(s), Minified(tail))
  {
    hide Escaped;
    var t := StringText(s) + tail;
    assert t[1..] == Escaped(s) + ("\"" + tail);
    LiteralOfEscaped(s, tail);
    var n := |Escaped(s)| + 2;
    assert t[..n] == StringText(s) && t[n..] == tail;
  }

  lemma {:induction false} NatTextPlain(n: nat)
    ensures forall i :: 0 <= i < |NatText(n)| ==> Ordinary(NatText(n)[i])
  {
    assert forall i :: 0 <= i < |NatText(n)| ==> IsDigit(NatText(n)[i]);
  }

  /** Formatting is exactly what the minifier takes away. */
  lemma {:induction false} MinifyUndoesFormat(v: Json, depth: nat, tail: string)
    requires Integral(v)
    ensures Minified(Print(v, depth, true) + tail) == Then(Print(v, depth, false), Minified(tail))
    decreases v, 1
  {
    match v
    case Str(s) => StringStays(s, tail);
    case Number(d) =>
      var n := d.Floor;
      NatTextPlain(if n < 0 then -n else n);
      PlainStays(IntText(n), tail);
    case Arr(items) =>
      ArrayUndone(v, depth, tail);
    case Obj(members) =>
      ObjectUndone(v, depth, tail);
    case _ =>
      PlainStays(Print(v, depth, true), tail);
  }

  lemma {:induction false} ArrayUndone(v: Json, depth: nat, tail: string)
    requires v.Arr? && Integral(v)
    ensures Minified(Print(v, depth, true) + tail) == Then(Print(v, depth, false), Minified(tail))
    decreases v, 0
  {
    hide Minified, ItemsText;
    var body, flat := ItemsText(v.items, depth + 1, true), ItemsText(v.items, depth + 1, false);
    var t := "]" + tail;
    assert Print(v, depth, true) + tail == "[" + (body + t);
    assert Print(v, depth, false) == "[" + (flat + "]");
    ItemsUndone(v.items, depth + 1, t);
    PlainStays("[", body + t);
    PlainStays("]", tail);
    ThenThen(flat, "]", Minified(tail));
    ThenThen("[", flat + "]", Minified(tail));
  }

  lemma {:induction false} ItemsUndone(items: seq<Json>, depth: nat, tail: string)
    requires forall i :: 0 <= i < |items| ==> Integral(items[i])
    ensures Minified(ItemsText(items, depth, true) + tail) == Then(ItemsText(items, depth, false), Minified(tail))
    decreases items, 2
  {
    hide Minified, Print, Integral;
    if items == [] {
      assert ItemsText(items, depth, true) + tail == tail;
      NothingStays(tail);
    } else if |items| == 1 {
      MinifyUndoesFormat(items[0], depth, tail);
    } else {
      var rest := ItemsText(items[1..], depth, true) + tail;
      var flat := ItemsText(items[1..], depth, false);
      assert ItemsText(items, depth, true) + tail == Print(items[0], depth, true) + ("," + (" " + rest));
      assert ItemsText(items, depth, false) == Print(items[0], depth, false) + ("," + flat);
      ItemsUndone(items[1..], depth, tail);
      BlanksGo(" ", rest);
      PlainStays(",", " " + rest);
      ThenThen(",", flat, Minified(tail));
      MinifyUndoesFormat(items[0], depth, "," + (" " + rest));
      ThenThen(Print(items[0], depth, false), "," + flat, Minified(tail));
    }
  }

  lemma NothingStays(tail: string)
    ensures Minified(tail) == Then("", Minified(tail))
  {
    if Minified(tail).Some? { assert [] + Minified(tail).value == Minified(tail).value; }
  }

  lemma {:induction false} ObjectUndone(v: Json, depth: nat, tail: string)
    requires v.Obj? && Integral(v)
    ensures Minified(Print(v, depth, true) + tail) == Then(Print(v, depth, false), Minified(tail))
    decreases v, 0
  {
    hide Minified, Tabs, MembersText, Then;
    var ms := v.members;
    PlainStays("}", tail);
    if ms == [] {
      var blank := "\n" + Tabs(if depth == 0 then 0 else depth - 1);
      assert Print(v, depth, true) + tail == "{" + (blank + ("}" + tail));
      assert Print(v, depth, false) == "{" + "}";
      BlanksGo(blank, "}" + tail);
      PlainStays("{", blank + ("}" + tail));
      ThenThen("{", "}", Minified(tail));
    } else {
      var indented := Tabs(depth) + ("}" + tail);
      var body := MembersText(ms, depth + 1, true) + indented;
      var flat := MembersText(ms, depth + 1, false);
      assert Print(v, depth, true) + tail == "{" + ("\n" + body);
      assert Print(v, depth, false) == "{" + (flat + "}");
      MembersUndone(ms, depth + 1, indented);
      BlanksGo(Tabs(depth), "}" + tail);
      BlanksGo("\n", body);
      PlainStays("{", "\n" + body);
      ThenThen(flat, "}", Minified(tail));
      ThenThen("{", flat + "}", Minified(tail));
    }
  }

  lemma {:induction false} MembersUndone(ms: seq<Member>, depth: nat, tail: string)
    requires forall i :: 0 <= i < |ms| ==> Integral(ms[i].value)
    ensures Minified(MembersText(ms, depth, true) + tail) == Then(MembersText(ms, depth, false), Minified(tail))
    decreases ms, 2
  {
    hide Minified, Tabs, Print, StringText, Integral;
    if ms == [] {
      assert MembersText(ms, depth, true) + tail == tail;
      NothingStays(tail);
    } else {
      var rest := MembersText(ms[1..], depth, true) + tail;
      var flat := MembersText(ms[1..], depth, false);
      var comma := If(|ms| > 1, ",");
      var lined := comma + ("\n" + rest);
      var value, name := ms[0].value, StringText(ms[0].name);
      MemberSplit(ms, depth, tail);
      MembersUndone(ms[1..], depth, tail);
      BlanksGo("\n", rest);
      PlainStays(comma, "\n" + rest);
      ThenThen(comma, flat, Minified(tail));
      MinifyUndoesFormat(value, depth, lined);
      ThenThen(Print(value, depth, false), comma + flat, Minified(tail));
      MemberUndone(ms[0], depth, Print(value, depth, true) + lined,
                   Print(value, depth, false) + (comma + flat), Minified(tail));
    }
  }

  /** The indentation, name and colon of a member. */
  lemma MemberUndone(m: Member, depth: nat, text: string, flat: string, after: Option<string>)
    requires Minified(text) == Then(flat, after)
    ensures Minified(Tabs(depth) + (StringText(m.name) + (":" + ("\t" + text)))) ==
            Then(StringText(m.name) + (":" + flat), after)
  {
    hide Minified, Tabs, StringText;
    BlanksGo("\t", text);
    PlainStays(":", "\t" + text);
    ThenThen(":", flat, after);
    StringStays(m.name, ":" + ("\t" + text));
    ThenThen(StringText(m.name), ":" + flat, after);
    BlanksGo(Tabs(depth), StringText(m.name) + (":" + ("\t" + text)));
  }

  lemma MemberSplit(ms: seq<Member>, depth: nat, tail: string)
    requires ms != [] && forall i :: 0 <= i < |ms| ==> Integral(ms[i].value)
    ensures MembersText(ms, depth, true) + tail ==
            Tabs(depth) + (StringText(ms[0].name) + (":" + ("\t" + (Print(ms[0].value, depth, true) +
              (If(|ms| > 1, ",") + ("\n" + (MembersText(ms[1..], depth, true) + tail)))))))
    ensures MembersText(ms, depth, false) ==
            StringText(ms[0].name) + (":" + (Print(ms[0].value, depth, false) +
              (If(|ms| > 1, ",") + MembersText(ms[1..], depth, false))))
  {
    hide Print, StringText, Tabs, Integral, MembersText;
    MembersSplit(ms, depth, true, tail);
    FlatMemberSplit(ms, depth);
  }

  lemma FlatMemberSplit(ms: seq<Member>, depth: nat)
    requires ms != [] && forall i :: 0 <= i < |ms| ==> Integral(ms[i].value)
    ensures MembersText(ms, depth, false) ==
            StringText(ms[0].name) + (":" + (Print(ms[0].value, depth, false) +
              (If(|ms| > 1, ",") + MembersText(ms[1..], depth, false))))
  {
    hide Print, StringText, Tabs, Integral, MembersText;
    MembersSplit(ms, depth, false, "");
    var rest := MembersText(ms[1..], depth, false);
    var value := Print(ms[0].value, depth, false) + (If(|ms| > 1, ",") + rest);
    WithoutBlanks("", rest);
    WithoutBlanks("", value);
    WithoutBlanks("", StringText(ms[0].name) + (":" + value));
    WithoutBlanks("", MembersText(ms, depth, false));
  }

  lemma WithoutBlanks(blank: string, text: string)
    requires blank == ""
    ensures blank + text == text && text + blank == text
  {
  }
}
