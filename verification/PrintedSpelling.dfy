/**
 What cJSON prints is a document of RFC 8259: which spelling it chooses for each character, and where
 it sets blanks. So jsmn reads it as well.
 */
module PrintedSpelling {
  import opened Base
  import opened JsonText
  import opened JsonRoundTrip
  import opened JsonSpelling
  import Jsmn
  import SpellingTokens

  // ------------------------------------------------------------- integers

  function DigitsOf(n: nat): (ds: seq<nat>)
    ensures ds != [] && AreDigits(ds) && (ds[0] == 0 ==> n == 0 && |ds| == 1)
  {
    if n < 10 then [n] else DigitsOf(n / 10) + [n % 10]
  }

  function IntegerDoc(v: int): Doc {
    NumberDoc(Numeral(v < 0, DigitsOf(if v < 0 then -v else v), [], NoExponent))
  }

  lemma {:induction false} DigitsJoin(a: seq<nat>, b: seq<nat>, tail: string)
    requires AreDigits(a) && AreDigits(b)
    ensures DigitsThen(a + b, tail) == DigitsThen(a, DigitsThen(b, tail))
  {
    if a == [] {
      assert a + b == b;
    } else {
      assert (a + b)[1..] == a[1..] + b;
      DigitsJoin(a[1..], b, tail);
    }
  }

  lemma DigitIsChar(d: nat, tail: string)
    requires d < 10
    ensures DigitsThen([d], tail) == [DigitChar(d)] + tail
  {
    assert [d][1..] == [];
    assert "0123456789"[d] == ('0' as int + d) as char;
  }

  lemma {:induction false} NatTextIs(n: nat, tail: string)
    ensures DigitsThen(DigitsOf(n), tail) == NatText(n) + tail
  {
    hide DigitsThen;
    if n < 10 {
      DigitIsChar(n, tail);
    } else {
      var last := [DigitChar(n % 10)];
      DigitsJoin(DigitsOf(n / 10), [n % 10], tail);
      DigitIsChar(n % 10, tail);
      NatTextIs(n / 10, last + tail);
      Regroup(NatText(n / 10), last, tail);
    }
  }

  lemma IntegerText(v: int, tail: string)
    ensures DocThen(IntegerDoc(v), tail) == IntText(v) + tail
  {
    var n := if v < 0 then -v else v;
    NatTextIs(n, tail);
    hide DigitsThen, NatText;
    if v < 0 {
      Regroup("-", NatText(n), tail);
    } else {
      assert "" + (NatText(n) + tail) == NatText(n) + tail;
    }
  }

  lemma Unspaced(s: string)
    ensures "" + s == s && s + "" == s
  {
  }

  lemma {:induction false} DecimalSnoc(ds: seq<nat>, d: nat)
    ensures Decimal(ds + [d]) == 10 * Decimal(ds) + d
  {
    if ds == [] {
      assert [d][1..] == [];
    } else {
      assert (ds + [d])[1..] == ds[1..] + [d];
      DecimalSnoc(ds[1..], d);
      Shifted(ds[0], Ten(|ds| - 1));
    }
  }

  lemma Shifted(d: nat, t: nat)
    ensures d * (10 * t) == 10 * (d * t)
  {
  }

  lemma {:induction false} DigitsMean(n: nat)
    ensures Decimal(DigitsOf(n)) == n
  {
    if n < 10 {
      assert [n][1..] == [];
    } else {
      DigitsMean(n / 10);
      DecimalSnoc(DigitsOf(n / 10), n % 10);
    }
  }

  lemma IntegerMeans(v: int)
    ensures Meaning(IntegerDoc(v)) == Number(v as real)
  {
    DigitsMean(if v < 0 then -v else v);
    hide DigitsOf;
  }

  lemma IntegerIsStandard(v: int)
    ensures WellSpelled(IntegerDoc(v)) && Standard(IntegerDoc(v))
  {
  }

  // ------------------------------------------------------------- strings

  /** Quotes and backslashes behind a backslash, five controls by their letters, the other controls by
      their code in lower case, and all else as it is. */
  function CharSpelling(c: char): Spelling
  {
    if c == '\"' || c == '\\' then Slashed(c)
    else if c == '\U{08}' then Short('b')
    else if c == '\U{0C}' then Short('f')
    else if c == '\n' then Short('n')
    else if c == '\r' then Short('r')
    else if c == '\t' then Short('t')
    else if c < ' ' then Code(c as int, "00" + ["0123456789abcdef"[c as int / 16], "0123456789abcdef"[c as int % 16]])
    else Raw(c)
  }

  function Spellings(s: string): (cs: seq<Spelling>)
    ensures |cs| == |s| && forall i :: 0 <= i < |s| ==> cs[i] == CharSpelling(s[i])
  {
    seq(|s|, i requires 0 <= i < |s| => CharSpelling(s[i]))
  }

  lemma CharIsProper(c: char)
    requires c != '\0'
    ensures Proper(CharSpelling(c)) && Escaping(CharSpelling(c)) && SpellingMeaning(CharSpelling(c)) == [c]
  {
    if CharSpelling(c).Code? { LowDigits(c as int); }
  }

  lemma LowDigits(u: nat)
    requires u < 0x20
    ensures Spells("00" + ["0123456789abcdef"[u / 16], "0123456789abcdef"[u % 16]], u)
  {
  }

  lemma CharText(c: char)
    ensures SpellingText(CharSpelling(c)) == EscapeChar(c)
  {
    if CharSpelling(c).Code? {
      HexCharIs(c as int / 16);
      HexCharIs(c as int % 16);
      hide HexChar;
    }
  }

  lemma HexCharIs(h: int)
    requires 0 <= h < 16
    ensures HexChar(h) == "0123456789abcdef"[h]
  {
  }

  lemma {:induction false} EscapedText(s: string, tail: string)
    ensures BodyThen(Spellings(s), tail) == Escaped(s) + tail
  {
    hide CharSpelling, SpellingText, EscapeChar;
    if s == [] {
      Unspaced(tail);
    } else {
      EscapedText(s[1..], tail);
      assert Spellings(s)[1..] == Spellings(s[1..]);
      CharText(s[0]);
      Regroup(EscapeChar(s[0]), Escaped(s[1..]), tail);
    }
  }

  lemma LiteralText(s: string, tail: string)
    ensures StringThen(Spellings(s), tail) == StringText(s) + tail
  {
    hide BodyThen, Spellings, Escaped;
    EscapedText(s, "\"" + tail);
    assert "\"" + (Escaped(s) + ("\"" + tail)) == ("\"" + Escaped(s) + "\"") + tail;
  }

  lemma {:induction false} LiteralMeans(s: string)
    requires NulFree(s)
    ensures AllProper(Spellings(s)) && AllEscaping(Spellings(s)) && StringMeaning(Spellings(s)) == s
  {
    hide CharSpelling, Proper, Escaping, SpellingMeaning;
    if s != [] {
      CharIsProper(s[0]);
      LiteralMeans(s[1..]);
      assert Spellings(s)[1..] == Spellings(s[1..]);
      assert s == [s[0]] + s[1..];
    }
  }

  // ------------------------------------------------------------- trees

  /** Blanks stand behind the commas of arrays and the colons of objects, every entry of an object has
      its own line, one tab further in, and the closing brace stands below the opening one. */
  function PrintedDoc(v: Json, depth: nat, fmt: bool): Doc
    decreases v
  {
    match v
    case Null => NullDoc
    case False => FalseDoc
    case True => TrueDoc
    case Number(d) => IntegerDoc(d.Floor)
    case Str(s) => StringDoc(Spellings(s))
    case Arr(items) => ArrayDoc("", PrintedItems(items, depth + 1, fmt, false))
    case Obj(ms) =>
      if ms == [] then ObjectDoc(if fmt then "\n" + Tabs(if depth == 0 then 0 else depth - 1) else "", [])
      else ObjectDoc("", PrintedEntries(ms, depth + 1, fmt))
  }

  function PrintedItems(items: seq<Json>, depth: nat, fmt: bool, more: bool): (r: seq<Item>)
    ensures |r| == |items|
    decreases items
  {
    if items == [] then []
    else
      [Item(if fmt && more then " " else "", PrintedDoc(items[0], depth, fmt), "")]
      + PrintedItems(items[1..], depth, fmt, true)
  }

  function PrintedEntries(ms: seq<Member>, depth: nat, fmt: bool): (r: seq<Entry>)
    requires depth > 0
    ensures |r| == |ms|
    decreases ms
  {
    if ms == [] then []
    else
      [Entry(if fmt then "\n" + Tabs(depth) else "", Spellings(ms[0].name), "", if fmt then "\t" else "",
             PrintedDoc(ms[0].value, depth, fmt), if fmt && |ms| == 1 then "\n" + Tabs(depth - 1) else "")]
      + PrintedEntries(ms[1..], depth, fmt)
  }

  lemma BlankLine(n: nat)
    ensures Blank("\n" + Tabs(n)) && Blank("") && Blank(" ") && Blank("\t")
  {
  }

  lemma NumberMeans(d: real, depth: nat, fmt: bool)
    requires IsInt32(d)
    ensures var doc := PrintedDoc(Number(d), depth, fmt);
            WellSpelled(doc) && Standard(doc) && Meaning(doc) == Number(d)
  {
    hide IntegerDoc;
    IntegerIsStandard(d.Floor);
    IntegerMeans(d.Floor);
  }

  lemma StringMeans(s: string, depth: nat, fmt: bool)
    requires NulFree(s)
    ensures var doc := PrintedDoc(Str(s), depth, fmt);
            WellSpelled(doc) && Standard(doc) && Meaning(doc) == Str(s)
  {
    hide AllProper, AllEscaping, StringMeaning, Spellings;
    LiteralMeans(s);
  }

  /** The document is well spelled and means the tree. */
  lemma {:induction false} PrintedMeans(v: Json, depth: nat, fmt: bool)
    requires Printable(v)
    ensures WellSpelled(PrintedDoc(v, depth, fmt)) && Standard(PrintedDoc(v, depth, fmt))
    ensures Meaning(PrintedDoc(v, depth, fmt)) == v
    decreases v
  {
    match v
    case Number(d) => NumberMeans(d, depth, fmt);
    case Str(s) => StringMeans(s, depth, fmt);
    case Arr(items) =>
      ItemsMean(items, depth + 1, fmt, false);
      hide WellSpelled, Standard, Meaning, PrintedItems, Printable;
      BlankLine(0);
      ArraySpelled("", PrintedItems(items, depth + 1, fmt, false));
    case Obj(ms) =>
      EntriesMean(ms, depth + 1, fmt);
      hide WellSpelled, Standard, Meaning, PrintedEntries, Printable, Tabs;
      BlankLine(if depth == 0 then 0 else depth - 1);
      NoEntries();
      ObjectSpelled(if ms == [] && fmt then "\n" + Tabs(if depth == 0 then 0 else depth - 1) else "", PrintedEntries(ms, depth + 1, fmt));
    case _ =>
  }

  lemma ArraySpelled(inner: string, items: seq<Item>)
    requires Blank(inner) && (items != [] ==> inner == "") && ItemsSpelled(items)
    requires forall i :: 0 <= i < |items| ==> Standard(items[i].doc)
    ensures var d := ArrayDoc(inner, items); WellSpelled(d) && Standard(d) && Meaning(d) == Arr(ItemsMeaning(items))
  {
    hide Blank, ItemsMeaning;
  }

  lemma ObjectSpelled(inner: string, entries: seq<Entry>)
    requires Blank(inner) && (entries != [] ==> inner == "") && EntriesSpelled(entries)
    requires forall i :: 0 <= i < |entries| ==> AllEscaping(entries[i].name) && Standard(entries[i].doc)
    ensures var d := ObjectDoc(inner, entries); WellSpelled(d) && Standard(d) && Meaning(d) == Obj(EntriesMeaning(entries))
  {
    hide Blank, AllProper, AllEscaping, EntriesMeaning;
  }

  lemma NoEntries()
    ensures EntriesMeaning([]) == []
  {
  }

  lemma {:induction false} ItemsMean(items: seq<Json>, depth: nat, fmt: bool, more: bool)
    requires forall i :: 0 <= i < |items| ==> Printable(items[i])
    ensures var r := PrintedItems(items, depth, fmt, more);
            && ItemsSpelled(r) && (forall i :: 0 <= i < |r| ==> Standard(r[i].doc))
            && ItemsMeaning(r) == items
    decreases items
  {
    hide Blank, WellSpelled, Standard, Meaning, Printable;
    if items != [] {
      var r := PrintedItems(items, depth, fmt, more);
      BlankLine(0);
      PrintedMeans(items[0], depth, fmt);
      ItemsMean(items[1..], depth, fmt, true);
      assert r[1..] == PrintedItems(items[1..], depth, fmt, true);
      assert forall i :: 0 < i < |r| ==> r[i] == r[1..][i - 1];
      assert [items[0]] + items[1..] == items;
    }
  }

  lemma {:induction false} EntriesMean(ms: seq<Member>, depth: nat, fmt: bool)
    requires depth > 0 && forall i :: 0 <= i < |ms| ==> NulFree(ms[i].name) && Printable(ms[i].value)
    ensures var r := PrintedEntries(ms, depth, fmt);
            && EntriesSpelled(r) && (forall i :: 0 <= i < |r| ==> AllEscaping(r[i].name) && Standard(r[i].doc))
            && EntriesMeaning(r) == ms
    decreases ms
  {
    hide Blank, WellSpelled, Standard, Meaning, Printable, AllProper, AllEscaping, StringMeaning, Spellings, Tabs, NulFree;
    if ms != [] {
      var r := PrintedEntries(ms, depth, fmt);
      BlankLine(depth);
      BlankLine(depth - 1);
      LiteralMeans(ms[0].name);
      PrintedMeans(ms[0].value, depth, fmt);
      EntriesMean(ms[1..], depth, fmt);
      assert r[1..] == PrintedEntries(ms[1..], depth, fmt);
      assert forall i :: 0 < i < |r| ==> r[i] == r[1..][i - 1];
      assert [ms[0]] + ms[1..] == ms;
    }
  }

  /** Its text is what the printer writes. */
  lemma {:induction false} PrintIsText(v: Json, depth: nat, fmt: bool, tail: string)
    requires Integral(v) && WellSpelled(PrintedDoc(v, depth, fmt))
    ensures DocThen(PrintedDoc(v, depth, fmt), tail) == Print(v, depth, fmt) + tail
    decreases v
  {
    hide IntegerDoc, StringThen, ItemsThen, EntriesThen, ItemsText, MembersText, Tabs, StringText, IntText, Spellings, NumberThen, PrintedItems, PrintedEntries;
    match v
    case Number(d) => IntegerText(d.Floor, tail);
    case Str(s) => LiteralText(s, tail);
    case Arr(items) =>
      var inner := ItemsText(items, depth + 1, fmt);
      ItemsAreText(items, depth + 1, fmt, false, "]" + tail);
      Unspaced(inner + ("]" + tail));
      Regroup(inner, "]", tail);
      Regroup("[", inner + "]", tail);
      assert "[" + inner + "]" == "[" + (inner + "]");
    case Obj(ms) => ObjectIsText(v, depth, fmt, tail);
    case _ =>
  }

  lemma {:induction false} ObjectIsText(v: Json, depth: nat, fmt: bool, tail: string)
    requires v.Obj? && Integral(v) && WellSpelled(PrintedDoc(v, depth, fmt))
    ensures DocThen(PrintedDoc(v, depth, fmt), tail) == Print(v, depth, fmt) + tail
    decreases v, 0
  {
    var ms := v.members;
    var close := "}" + tail;
    ObjectThen(v, depth, fmt, tail);
    if ms == [] {
      EmptyLists(close);
      hide DocThen, Print, PrintedDoc, WellSpelled, EntriesThen, Tabs;
      var inner := if fmt then "\n" + Tabs(if depth == 0 then 0 else depth - 1) else "";
      Regroup(inner, "}", tail);
      Regroup("{", inner + "}", tail);
      assert "{" + inner + "}" == "{" + (inner + "}");
    } else {
      MembersIntegral(v);
      EntriesAreText(ms, depth + 1, fmt, close);
      hide DocThen, Print, PrintedDoc, WellSpelled, EntriesThen, PrintedEntries, MembersText, Tabs, If, Integral;
      var body, foot, head := MembersText(ms, depth + 1, fmt), If(fmt, Tabs(depth)), If(fmt, "\n");
      Unspaced(head + (body + (foot + close)));
      Grouped("{", head, body, foot, "}", tail);
    }
  }

  /** Both sides, opened once. */
  lemma ObjectThen(v: Json, depth: nat, fmt: bool, tail: string)
    requires v.Obj? && Integral(v) && WellSpelled(PrintedDoc(v, depth, fmt))
    ensures var ms := v.members;
            var indent := if fmt then "\n" + Tabs(if depth == 0 then 0 else depth - 1) else "";
            if ms == [] then
              && DocThen(PrintedDoc(v, depth, fmt), tail) == "{" + (indent + EntriesThen([], "}" + tail))
              && Print(v, depth, fmt) == "{" + indent + "}"
            else
              && EntriesSpelled(PrintedEntries(ms, depth + 1, fmt))
              && DocThen(PrintedDoc(v, depth, fmt), tail) == "{" + ("" + EntriesThen(PrintedEntries(ms, depth + 1, fmt), "}" + tail))
              && Print(v, depth, fmt) == "{" + If(fmt, "\n") + MembersText(ms, depth + 1, fmt) + If(fmt, Tabs(depth)) + "}"
  {
    hide EntriesThen, PrintedEntries, MembersText, Tabs, AllProper, Blank;
  }

  lemma Grouped(open: string, head: string, body: string, foot: string, close: string, tail: string)
    ensures open + head + body + foot + close + tail == open + (head + (body + (foot + (close + tail))))
  {
    Regroup(open + head + body + foot, close, tail);
    Regroup(open + head + body, foot, close + tail);
    Regroup(open + head, body, foot + (close + tail));
    Regroup(open, head, body + (foot + (close + tail)));
  }

  lemma MembersIntegral(v: Json)
    requires v.Obj? && Integral(v)
    ensures forall i :: 0 <= i < |v.members| ==> Integral(v.members[i].value)
  {
  }

  lemma {:induction false} ItemsAreText(items: seq<Json>, depth: nat, fmt: bool, more: bool, tail: string)
    requires forall i :: 0 <= i < |items| ==> Integral(items[i])
    requires ItemsSpelled(PrintedItems(items, depth, fmt, more))
    ensures ItemsThen(PrintedItems(items, depth, fmt, more), tail) ==
            (if fmt && more && items != [] then " " else "") + (ItemsText(items, depth, fmt) + tail)
    decreases items
  {
    hide Print, DocThen, PrintedDoc, Integral, WellSpelled, Blank;
    if items == [] {
      EmptyLists(tail);
      Unspaced(tail);
      Unspaced("" + tail);
    } else {
      var r, head := PrintedItems(items, depth, fmt, more), Print(items[0], depth, fmt);
      assert r[1..] == PrintedItems(items[1..], depth, fmt, true);
      assert WellSpelled(r[0].doc);
      var rest := ItemsRest(r, tail);
      Unspaced(rest);
      PrintIsText(items[0], depth, fmt, "" + rest);
      if |items| > 1 {
        var text := ItemsText(items[1..], depth, fmt);
        ItemsAreText(items[1..], depth, fmt, true, tail);
        assert ItemsText(items, depth, fmt) == head + "," + If(fmt, " ") + text;
        Regroup(If(fmt, " "), text, tail);
        Regroup(",", If(fmt, " ") + text, tail);
        Regroup(head, "," + (If(fmt, " ") + text), tail);
        assert head + "," + If(fmt, " ") + text == head + ("," + (If(fmt, " ") + text));
      }
    }
  }

  lemma {:induction false} EntriesAreText(ms: seq<Member>, depth: nat, fmt: bool, tail: string)
    requires ms != [] && depth > 0 && forall i :: 0 <= i < |ms| ==> Integral(ms[i].value)
    requires EntriesSpelled(PrintedEntries(ms, depth, fmt))
    ensures EntriesThen(PrintedEntries(ms, depth, fmt), tail) ==
            If(fmt, "\n") + (MembersText(ms, depth, fmt) + (If(fmt, Tabs(depth - 1)) + tail))
    decreases ms
  {
    hide Print, DocThen, StringThen, StringText, PrintedDoc, Integral, WellSpelled, Blank, AllProper, Spellings, Tabs, MembersText;
    var r, x := PrintedEntries(ms, depth, fmt), PrintedEntries(ms, depth, fmt)[0];
    var foot := If(fmt, Tabs(depth - 1)) + tail;
    assert r[1..] == PrintedEntries(ms[1..], depth, fmt);
    var rest := EntriesRest(r, tail);
    MembersSplit(ms, depth, fmt, foot);
    var after := If(|ms| > 1, ",") + (If(fmt, "\n") + (MembersText(ms[1..], depth, fmt) + foot));
    if |ms| > 1 {
      EntriesAreText(ms[1..], depth, fmt, tail);
      Unspaced(rest);
    } else {
      assert ms[1..] == [];
      NoMembers(depth, fmt);
      Unspaced(foot);
      LastLine(fmt, depth, tail);
    }
    assert x.after + rest == after;
    PrintIsText(ms[0].value, depth, fmt, after);
    var value := Print(ms[0].value, depth, fmt) + after;
    LiteralText(ms[0].name, ":" + (If(fmt, "\t") + value));
    Unspaced(":" + (If(fmt, "\t") + value));
    if fmt { Regroup("\n", Tabs(depth), StringText(ms[0].name) + (":" + ("\t" + value))); }
  }

  lemma NoMembers(depth: nat, fmt: bool)
    ensures MembersText([], depth, fmt) == ""
  {
  }

  lemma LastLine(fmt: bool, depth: nat, tail: string)
    requires depth > 0
    ensures (if fmt then "\n" + Tabs(depth - 1) else "") + tail ==
            If(false, ",") + (If(fmt, "\n") + ("" + (If(fmt, Tabs(depth - 1)) + tail)))
  {
    hide Tabs;
    Unspaced(tail);
    Unspaced(If(fmt, Tabs(depth - 1)) + tail);
    Unspaced(If(fmt, "\n") + (If(fmt, Tabs(depth - 1)) + tail));
    Regroup("\n", Tabs(depth - 1), tail);
  }

  // ------------------------------------------------------------- the other reader

  /** jsmn accepts every printed string, array and object, in both formats, with the tokens of its
      document, each over its own text. */
  lemma PrintedIsTokenized(v: Json, depth: nat, fmt: bool, len: nat, num: nat)
    requires Printable(v) && Integral(v) && (v.Str? || v.Arr? || v.Obj?) && |Print(v, depth, fmt)| <= len
    ensures WellSpelled(PrintedDoc(v, depth, fmt))
    ensures var js, toks := Print(v, depth, fmt), SpellingTokens.DocTokens(PrintedDoc(v, depth, fmt), 0, -1, 0);
            |toks| <= num ==>
              Jsmn.Run(js, len, num, Jsmn.St(0, -1, [])) == Jsmn.End(Jsmn.St(|js|, -1, toks), 0, |toks|)
  {
    hide Jsmn.Run, SpellingTokens.DocTokens, WellSpelled, Standard, DocThen, Print, Printable, Integral;
    PrintedMeans(v, depth, fmt);
    PrintIsText(v, depth, fmt, "");
    Unspaced(Print(v, depth, fmt));
    BlankLine(0);
    var d := PrintedDoc(v, depth, fmt);
    if |SpellingTokens.DocTokens(d, 0, -1, 0)| <= num {
      Unspaced(DocThen(d, ""));
      SpellingTokens.StandardIsTokenized("", d, "", len, num);
    }
  }
}
