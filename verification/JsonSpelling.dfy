/**
 The texts of RFC 8259: documents as they are spelled, with every choice the grammar leaves to
 the writer, and what they mean. Nothing here refers to a parser.
 */
module JsonSpelling {
  import opened Base
  import opened JsonText

  // ------------------------------------------------------------- spellings

  /** One character of a string: itself; itself behind a backslash; a letter behind a backslash; a
      code unit; or a pair of them. */
  datatype Spelling =
    | Raw(c: char)
    | Slashed(c: char)
    | Short(letter: char)
    | Code(u: nat, digits: string)
    | Codes(high: nat, digits: string, low: nat, digits2: string)

  /** Digits as values below ten; the exponent has its mark and its sign. */
  datatype Numeral = Numeral(minus: bool, whole: seq<nat>, fraction: seq<nat>, exponent: Exponent)
  datatype Exponent = NoExponent | Exponent(mark: char, sign: string, digits: seq<nat>)

  /** Blanks stand where the grammar allows them; inner ones only in what is empty. */
  datatype Doc =
    | NullDoc
    | FalseDoc
    | TrueDoc
    | NumberDoc(n: Numeral)
    | StringDoc(cs: seq<Spelling>)
    | ArrayDoc(inner: string, items: seq<Item>)
    | ObjectDoc(inner: string, entries: seq<Entry>)
  datatype Item = Item(before: string, doc: Doc, after: string)
  datatype Entry = Entry(before: string, name: seq<Spelling>, afterName: string, beforeDoc: string, doc: Doc, after: string)

  // ------------------------------------------------------------- what may be written

  predicate Blank(s: string) {
    forall i :: 0 <= i < |s| ==> s[i] in {' ', '\t', '\n', '\r'}
  }

  predicate DigitIs(c: char, d: nat)
    requires d < 16
  {
    c == "0123456789abcdef"[d] || c == "0123456789ABCDEF"[d]
  }

  lemma DigitIsHex(c: char, d: nat)
    requires d < 16
    ensures DigitIs(c, d) <==> IsHex(c) && HexValue(c) == d
  {
    var lower, upper := "0123456789abcdef", "0123456789ABCDEF";
    assert lower[d] == (if d < 10 then '0' as int + d else 'a' as int + (d - 10)) as char;
    assert upper[d] == (if d < 10 then '0' as int + d else 'A' as int + (d - 10)) as char;
  }

  /** Four hexadecimal digits of either case. */
  predicate Spells(digits: string, u: nat) {
    && u < 0x10000 && |digits| == 4
    && DigitIs(digits[0], u / 0x1000) && DigitIs(digits[1], u / 0x100 % 0x10)
    && DigitIs(digits[2], u / 0x10 % 0x10) && DigitIs(digits[3], u % 0x10)
  }

  predicate Proper(s: Spelling) {
    match s
    case Raw(c) => c != '\"' && c != '\\' && c != '\0'
    case Slashed(c) => c !in {'b', 'f', 'n', 'r', 't', 'u', '\0'}
    case Short(letter) => letter in {'b', 'f', 'n', 'r', 't'}
    case Code(u, digits) => u > 0 && !(0xD800 <= u <= 0xDFFF) && Spells(digits, u)
    case Codes(high, digits, low, digits2) =>
      0xD800 <= high <= 0xDBFF && Spells(digits, high) && 0xDC00 <= low <= 0xDFFF && Spells(digits2, low)
  }

  predicate AllProper(cs: seq<Spelling>) {
    forall i :: 0 <= i < |cs| ==> Proper(cs[i])
  }

  predicate AreDigits(ds: seq<nat>) {
    forall i :: 0 <= i < |ds| ==> ds[i] < 10
  }

  predicate WellNumbered(n: Numeral) {
    && n.whole != [] && AreDigits(n.whole) && (n.whole[0] == 0 ==> |n.whole| == 1) && AreDigits(n.fraction)
    && (n.exponent.Exponent? ==>
          n.exponent.mark in {'e', 'E'} && n.exponent.sign in {"", "+", "-"}
          && n.exponent.digits != [] && AreDigits(n.exponent.digits))
  }

  predicate WellSpelled(d: Doc) {
    match d
    case NumberDoc(n) => WellNumbered(n)
    case StringDoc(cs) => AllProper(cs)
    case ArrayDoc(inner, items) =>
      && Blank(inner) && (items != [] ==> inner == "")
      && forall i :: 0 <= i < |items| ==> Blank(items[i].before) && Blank(items[i].after) && WellSpelled(items[i].doc)
    case ObjectDoc(inner, entries) =>
      && Blank(inner) && (entries != [] ==> inner == "")
      && forall i :: 0 <= i < |entries| ==>
           && Blank(entries[i].before) && AllProper(entries[i].name) && Blank(entries[i].afterName)
           && Blank(entries[i].beforeDoc) && WellSpelled(entries[i].doc) && Blank(entries[i].after)
    case _ => true
  }

  /** Of characters behind a backslash, section 7 of RFC 8259 lets three stand for themselves. */
  predicate Escaping(s: Spelling) {
    s.Slashed? ==> s.c in {'\"', '\\', '/'}
  }

  predicate AllEscaping(cs: seq<Spelling>) {
    forall i :: 0 <= i < |cs| ==> Escaping(cs[i])
  }

  predicate Standard(d: Doc) {
    match d
    case StringDoc(cs) => AllEscaping(cs)
    case ArrayDoc(_, items) => forall i :: 0 <= i < |items| ==> Standard(items[i].doc)
    case ObjectDoc(_, entries) => forall i :: 0 <= i < |entries| ==> AllEscaping(entries[i].name) && Standard(entries[i].doc)
    case _ => true
  }

  // ------------------------------------------------------------- how it is written

  function SpellingText(s: Spelling): string {
    match s
    case Raw(c) => [c]
    case Slashed(c) => ['\\', c]
    case Short(letter) => ['\\', letter]
    case Code(_, digits) => "\\u" + digits
    case Codes(_, digits, _, digits2) => "\\u" + digits + "\\u" + digits2
  }

  /** Each of these is the text of its first argument and then the tail. */
  function BodyThen(cs: seq<Spelling>, tail: string): string {
    if cs == [] then tail else SpellingText(cs[0]) + BodyThen(cs[1..], tail)
  }

  function StringThen(cs: seq<Spelling>, tail: string): string {
    "\"" + BodyThen(cs, "\"" + tail)
  }

  function DigitsThen(ds: seq<nat>, tail: string): string
    requires AreDigits(ds)
  {
    if ds == [] then tail else ["0123456789"[ds[0]]] + DigitsThen(ds[1..], tail)
  }

  function ExponentThen(e: Exponent, tail: string): string
    requires e.Exponent? ==> AreDigits(e.digits)
  {
    if e.NoExponent? then tail else [e.mark] + (e.sign + DigitsThen(e.digits, tail))
  }

  function FractionThen(ds: seq<nat>, tail: string): string
    requires AreDigits(ds)
  {
    if ds == [] then tail else "." + DigitsThen(ds, tail)
  }

  function NumberThen(n: Numeral, tail: string): string
    requires WellNumbered(n)
  {
    (if n.minus then "-" else "") + DigitsThen(n.whole, FractionThen(n.fraction, ExponentThen(n.exponent, tail)))
  }

  function DocThen(d: Doc, tail: string): string
    requires WellSpelled(d)
    decreases d
  {
    match d
    case NullDoc => "null" + tail
    case FalseDoc => "false" + tail
    case TrueDoc => "true" + tail
    case NumberDoc(n) => NumberThen(n, tail)
    case StringDoc(cs) => StringThen(cs, tail)
    case ArrayDoc(inner, items) => "[" + (inner + ItemsThen(items, "]" + tail))
    case ObjectDoc(inner, entries) => "{" + (inner + EntriesThen(entries, "}" + tail))
  }

  predicate ItemsSpelled(items: seq<Item>) {
    forall i :: 0 <= i < |items| ==> Blank(items[i].before) && Blank(items[i].after) && WellSpelled(items[i].doc)
  }

  function ItemsThen(items: seq<Item>, tail: string): string
    requires ItemsSpelled(items)
    decreases items, 1
  {
    if items == [] then tail
    else items[0].before + DocThen(items[0].doc, items[0].after + ItemsRest(items, tail))
  }

  /** What follows the first of a list. */
  function ItemsRest(items: seq<Item>, tail: string): string
    requires items != [] && ItemsSpelled(items)
    decreases items, 0
  {
    if |items| == 1 then tail else "," + ItemsThen(items[1..], tail)
  }

  predicate EntriesSpelled(entries: seq<Entry>) {
    forall i :: 0 <= i < |entries| ==>
      && Blank(entries[i].before) && AllProper(entries[i].name) && Blank(entries[i].afterName)
      && Blank(entries[i].beforeDoc) && WellSpelled(entries[i].doc) && Blank(entries[i].after)
  }

  function EntriesThen(entries: seq<Entry>, tail: string): string
    requires EntriesSpelled(entries)
    decreases entries, 1
  {
    if entries == [] then tail else EntryThen(entries[0], EntriesRest(entries, tail))
  }

  function EntriesRest(entries: seq<Entry>, tail: string): string
    requires entries != [] && EntriesSpelled(entries)
    decreases entries, 0
  {
    if |entries| == 1 then tail else "," + EntriesThen(entries[1..], tail)
  }

  function EntryThen(x: Entry, rest: string): string
    requires WellSpelled(x.doc)
    decreases x
  {
    x.before + StringThen(x.name, x.afterName + (":" + (x.beforeDoc + DocThen(x.doc, x.after + rest))))
  }

  lemma EmptyLists(tail: string)
    ensures ItemsThen([], tail) == tail && EntriesThen([], tail) == tail
  {
  }

  // ------------------------------------------------------------- what it means

  function ShortMeaning(letter: char): string
    requires letter in {'b', 'f', 'n', 'r', 't'}
  {
    match letter
    case 'b' => "\U{08}"
    case 'f' => "\U{0C}"
    case 'n' => "\n"
    case 'r' => "\r"
    case _ => "\t"
  }

  /** Code points are meant in UTF-8. */
  function SpellingMeaning(s: Spelling): string
    requires Proper(s)
  {
    match s
    case Raw(c) => [c]
    case Slashed(c) => [c]
    case Short(letter) => ShortMeaning(letter)
    case Code(u, _) => Utf8(u)
    case Codes(high, _, low, _) => Utf8(0x10000 + (high - 0xD800) * 0x400 + (low - 0xDC00))
  }

  function StringMeaning(cs: seq<Spelling>): string
    requires AllProper(cs)
  {
    if cs == [] then "" else SpellingMeaning(cs[0]) + StringMeaning(cs[1..])
  }

  function Ten(n: nat): (t: nat)
    ensures t > 0
  {
    if n == 0 then 1 else 10 * Ten(n - 1)
  }

  /** Each digit counts by its place. */
  function Decimal(ds: seq<nat>): nat {
    if ds == [] then 0 else ds[0] * Ten(|ds| - 1) + Decimal(ds[1..])
  }

  function Magnitude(n: Numeral): real {
    var m := Decimal(n.whole) as real + Decimal(n.fraction) as real / Ten(|n.fraction|) as real;
    if n.exponent.NoExponent? then m
    else if n.exponent.sign == "-" then m / Ten(Decimal(n.exponent.digits)) as real
    else m * Ten(Decimal(n.exponent.digits)) as real
  }

  function NumberMeaning(n: Numeral): real {
    if n.minus then -Magnitude(n) else Magnitude(n)
  }

  function Meaning(d: Doc): Json
    requires WellSpelled(d)
    decreases d
  {
    match d
    case NullDoc => Null
    case FalseDoc => False
    case TrueDoc => True
    case NumberDoc(n) => Number(NumberMeaning(n))
    case StringDoc(cs) => Str(StringMeaning(cs))
    case ArrayDoc(_, items) => Arr(ItemsMeaning(items))
    case ObjectDoc(_, entries) => Obj(EntriesMeaning(entries))
  }

  function ItemsMeaning(items: seq<Item>): (vs: seq<Json>)
    requires ItemsSpelled(items)
    ensures |vs| == |items| && forall i :: 0 <= i < |items| ==> vs[i] == Meaning(items[i].doc)
    decreases items
  {
    if items == [] then [] else [Meaning(items[0].doc)] + ItemsMeaning(items[1..])
  }

  function EntriesMeaning(entries: seq<Entry>): (ms: seq<Member>)
    requires EntriesSpelled(entries)
    ensures |ms| == |entries|
    ensures forall i :: 0 <= i < |entries| ==> ms[i] == Member(StringMeaning(entries[i].name), Meaning(entries[i].doc))
    decreases entries
  {
    if entries == [] then []
    else [Member(StringMeaning(entries[0].name), Meaning(entries[0].doc))] + EntriesMeaning(entries[1..])
  }

  // ------------------------------------------------------------- the tail stays behind

  lemma {:induction false} BodyThenCat(cs: seq<Spelling>, tail: string)
    ensures BodyThen(cs, tail) == BodyThen(cs, "") + tail
  {
    if cs != [] {
      BodyThenCat(cs[1..], tail);
      Regroup(SpellingText(cs[0]), BodyThen(cs[1..], ""), tail);
    }
  }

  lemma StringThenCat(cs: seq<Spelling>, tail: string)
    ensures StringThen(cs, tail) == StringThen(cs, "") + tail
  {
    hide BodyThen;
    BodyThenCat(cs, "\"" + tail);
    BodyThenCat(cs, "\"");
    assert "\"" + "" == "\"";
    Regroup(BodyThen(cs, ""), "\"", tail);
    Regroup("\"", BodyThen(cs, "") + "\"", tail);
  }

  lemma {:induction false} DigitsThenCat(ds: seq<nat>, tail: string)
    requires AreDigits(ds)
    ensures DigitsThen(ds, tail) == DigitsThen(ds, "") + tail
  {
    if ds != [] {
      DigitsThenCat(ds[1..], tail);
      Regroup(["0123456789"[ds[0]]], DigitsThen(ds[1..], ""), tail);
    }
  }

  lemma NumberThenCat(n: Numeral, tail: string)
    requires WellNumbered(n)
    ensures NumberThen(n, tail) == NumberThen(n, "") + tail
  {
    hide DigitsThen;
    ExponentThenCat(n.exponent, tail);
    FractionThenCat(n.fraction, ExponentThen(n.exponent, tail));
    FractionThenCat(n.fraction, ExponentThen(n.exponent, ""));
    hide ExponentThen, FractionThen;
    var e, f := ExponentThen(n.exponent, ""), FractionThen(n.fraction, "");
    DigitsThenCat(n.whole, f + (e + tail));
    DigitsThenCat(n.whole, f + e);
    Regroup(f, e, tail);
    Regroup(DigitsThen(n.whole, ""), f + e, tail);
    Regroup(if n.minus then "-" else "", DigitsThen(n.whole, "") + (f + e), tail);
  }

  lemma ExponentThenCat(e: Exponent, tail: string)
    requires e.Exponent? ==> AreDigits(e.digits)
    ensures ExponentThen(e, tail) == ExponentThen(e, "") + tail
  {
    if e.Exponent? {
      hide DigitsThen;
      DigitsThenCat(e.digits, tail);
      Regroup(e.sign, DigitsThen(e.digits, ""), tail);
      Regroup([e.mark], e.sign + DigitsThen(e.digits, ""), tail);
    }
  }

  lemma FractionThenCat(ds: seq<nat>, tail: string)
    requires AreDigits(ds)
    ensures FractionThen(ds, tail) == FractionThen(ds, "") + tail
  {
    if ds != [] {
      hide DigitsThen;
      DigitsThenCat(ds, tail);
      Regroup(".", DigitsThen(ds, ""), tail);
    }
  }

  lemma {:induction false} DocThenCat(d: Doc, tail: string)
    requires WellSpelled(d)
    ensures DocThen(d, tail) == DocThen(d, "") + tail
    decreases d
  {
    hide NumberThen, StringThen, ItemsThen, EntriesThen;
    match d
    case NumberDoc(n) => NumberThenCat(n, tail);
    case StringDoc(cs) => StringThenCat(cs, tail);
    case ArrayDoc(inner, items) =>
      ItemsThenCat(items, "]" + tail);
      ItemsThenCat(items, "]" + "");
      BracketCat("[", inner, ItemsThen(items, ""), "]", tail);
    case ObjectDoc(inner, entries) =>
      EntriesThenCat(entries, "}" + tail);
      EntriesThenCat(entries, "}" + "");
      BracketCat("{", inner, EntriesThen(entries, ""), "}", tail);
    case _ =>
  }

  lemma BracketCat(open: string, inner: string, text: string, close: string, tail: string)
    ensures open + (inner + (text + (close + tail))) == open + (inner + (text + (close + ""))) + tail
  {
    assert close + "" == close;
    Regroup(text, close, tail);
    Regroup(inner, text + close, tail);
    Regroup(open, inner + (text + close), tail);
  }

  lemma {:induction false} ItemsThenCat(items: seq<Item>, tail: string)
    requires ItemsSpelled(items)
    ensures ItemsThen(items, tail) == ItemsThen(items, "") + tail
    decreases items
  {
    if items != [] {
      var x := items[0];
      var r0, r1 := ItemsRest(items, ""), ItemsRest(items, tail);
      if |items| > 1 {
        ItemsThenCat(items[1..], tail);
        Regroup(",", ItemsThen(items[1..], ""), tail);
      }
      assert r1 == r0 + tail;
      hide ItemsRest;
      DocThenCat(x.doc, x.after + r0);
      DocThenCat(x.doc, x.after + r1);
      Regroup(x.after, r0, tail);
      Regroup(DocThen(x.doc, ""), x.after + r0, tail);
      Regroup(x.before, DocThen(x.doc, "") + (x.after + r0), tail);
      hide DocThen;
    }
  }

  lemma {:induction false} EntriesThenCat(entries: seq<Entry>, tail: string)
    requires EntriesSpelled(entries)
    ensures EntriesThen(entries, tail) == EntriesThen(entries, "") + tail
    decreases entries
  {
    if entries != [] {
      var x := entries[0];
      var r0, r1 := EntriesRest(entries, ""), EntriesRest(entries, tail);
      if |entries| > 1 {
        EntriesThenCat(entries[1..], tail);
        Regroup(",", EntriesThen(entries[1..], ""), tail);
      }
      assert r1 == r0 + tail;
      hide EntriesRest, StringThen, DocThen;
      EntryThenCat(x, r0, tail);
    }
  }

  lemma EntryThenCat(x: Entry, rest: string, tail: string)
    requires WellSpelled(x.doc)
    ensures EntryThen(x, rest + tail) == EntryThen(x, rest) + tail
    decreases x
  {
    hide StringThen, DocThen;
    var d := DocThen(x.doc, "");
    DocThenCat(x.doc, x.after + rest);
    DocThenCat(x.doc, x.after + (rest + tail));
    Regroup(x.after, rest, tail);
    Regroup(d, x.after + rest, tail);
    var v := d + (x.after + rest);
    Regroup(x.beforeDoc, v, tail);
    Regroup(":", x.beforeDoc + v, tail);
    Regroup(x.afterName, ":" + (x.beforeDoc + v), tail);
    var u := x.afterName + (":" + (x.beforeDoc + v));
    StringThenCat(x.name, u);
    StringThenCat(x.name, u + tail);
    Regroup(StringThen(x.name, ""), u, tail);
    Regroup(x.before, StringThen(x.name, "") + u, tail);
  }
}
