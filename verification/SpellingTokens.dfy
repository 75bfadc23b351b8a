/**
 jsmn accepts every document of RFC 8259, however it is spelled, with a forest of its shape.
 */
module SpellingTokens {
  import opened Base
  import opened Jsmn
  import opened JsmnForest
  import opened JsmnLeads
  import opened JsonSpelling

  // ------------------------------------------------------------- the tokens of a document

  function Width(d: Doc): nat
    requires WellSpelled(d)
  {
    |DocThen(d, "")|
  }

  function StringWidth(cs: seq<Spelling>): nat {
    |StringThen(cs, "")|
  }

  /** From behind the opening quote up to the closing one. */
  function StringToken(cs: seq<Spelling>, p: nat, par: int): Token {
    Token(Str, 0, p + 1, p + StringWidth(cs) - 1, par)
  }

  /** The tokens of a document whose text starts at p, below token par, numbered from n on. */
  function DocTokens(d: Doc, p: nat, par: int, n: nat): (r: seq<Token>)
    requires WellSpelled(d)
    ensures |r| > 0
    decreases d
  {
    match d
    case StringDoc(cs) => [StringToken(cs, p, par)]
    case ArrayDoc(inner, items) =>
      [Token(Array, |items| % 256, p, p + Width(d), par)] + ItemsTokens(items, p + 1 + |inner|, n, n + 1)
    case ObjectDoc(inner, entries) =>
      [Token(Object, 2 * |entries| % 256, p, p + Width(d), par)] + EntriesTokens(entries, p + 1 + |inner|, n, n + 1)
    case _ => [Token(Primitive, 0, p, p + Width(d), par)]
  }

  function ItemsTokens(items: seq<Item>, p: nat, par: int, n: nat): seq<Token>
    requires ItemsSpelled(items)
    decreases items
  {
    if items == [] then []
    else
      var x := items[0];
      var q := p + |x.before|;
      var first := DocTokens(x.doc, q, par, n);
      first + ItemsTokens(items[1..], q + Width(x.doc) + |x.after| + 1, par, n + |first|)
  }

  /** The name and the value are both children of the object. */
  function EntryTokens(x: Entry, q: nat, par: int, n: nat): seq<Token>
    requires WellSpelled(x.doc)
    decreases x
  {
    [StringToken(x.name, q, par)]
    + DocTokens(x.doc, q + StringWidth(x.name) + |x.afterName| + 1 + |x.beforeDoc|, par, n + 1)
  }

  function EntryWidth(x: Entry): nat
    requires WellSpelled(x.doc)
  {
    StringWidth(x.name) + |x.afterName| + 1 + |x.beforeDoc| + Width(x.doc) + |x.after|
  }

  function EntriesTokens(entries: seq<Entry>, p: nat, par: int, n: nat): seq<Token>
    requires EntriesSpelled(entries)
    decreases entries
  {
    if entries == [] then []
    else
      var x := entries[0];
      var q := p + |x.before|;
      var first := EntryTokens(x, q, par, n);
      first + EntriesTokens(entries[1..], q + EntryWidth(x) + 1, par, n + |first|)
  }

  // ------------------------------------------------------------- strings

  lemma DigitsAreHex(digits: string, u: nat)
    requires Spells(digits, u)
    ensures |digits| == 4 && forall k :: 0 <= k < 4 ==> IsHex(digits[k]) && digits[k] != '\0'
  {
    DigitIsHex(digits[0], u / 0x1000);
    DigitIsHex(digits[1], u / 0x100 % 0x10);
    DigitIsHex(digits[2], u / 0x10 % 0x10);
    DigitIsHex(digits[3], u % 0x10);
  }

  lemma HexScanFour(js: string, i: nat, digits: string, rest: string)
    requires From(js, i, digits + rest) && |digits| == 4
    requires forall k :: 0 <= k < 4 ==> IsHex(digits[k]) && digits[k] != '\0'
    ensures i + 4 <= |js| && HexScan(js, i, 0) == Found(i + 4)
  {
    assert forall k :: 0 <= k < 4 ==> js[i + k] == js[i..][k] == digits[k];
    assert HexScan(js, i + 4, 4) == Found(i + 4);
    assert HexScan(js, i + 3, 3) == HexScan(js, i + 4, 4);
    assert HexScan(js, i + 2, 2) == HexScan(js, i + 3, 3);
    assert HexScan(js, i + 1, 1) == HexScan(js, i + 2, 2);
  }

  lemma CodeScan(js: string, len: nat, i: nat, digits: string, u: nat, rest: string)
    requires From(js, i, "\\u" + digits + rest) && Spells(digits, u) && |js| <= len
    ensures i + 6 <= |js| && From(js, i + 6, rest) && StringScan(js, len, i) == StringScan(js, len, i + 6)
  {
    hide HexScan, Spells;
    DigitsAreHex(digits, u);
    assert js[i] == js[i..][0] && js[i + 1] == js[i..][1];
    Regroup("\\u", digits, rest);
    FromPart(js, i, "\\u", digits + rest);
    HexScanFour(js, i + 2, digits, rest);
    FromPart(js, i + 2, digits, rest);
  }

  lemma SpellingScan(js: string, len: nat, i: nat, s: Spelling, rest: string)
    requires From(js, i, SpellingText(s) + rest) && Proper(s) && Escaping(s) && |js| <= len
    ensures var k := i + |SpellingText(s)|;
            k <= |js| && From(js, k, rest) && StringScan(js, len, i) == StringScan(js, len, k)
  {
    hide Spells, HexScan;
    FromPart(js, i, SpellingText(s), rest);
    assert js[i] == js[i..][0];
    match s
    case Raw(c) =>
    case Slashed(c) => assert js[i + 1] == js[i..][1];
    case Short(letter) => assert js[i + 1] == js[i..][1];
    case Code(u, digits) =>
      CodeScan(js, len, i, digits, u, rest);
      DigitsAreHex(digits, u);
    case Codes(high, digits, low, digits2) =>
      var second := "\\u" + digits2 + rest;
      DigitsAreHex(digits, high);
      DigitsAreHex(digits2, low);
      assert SpellingText(s) + rest == "\\u" + digits + second;
      CodeScan(js, len, i, digits, high, second);
      CodeScan(js, len, i + 6, digits2, low, rest);
  }

  lemma {:induction false} BodyScan(js: string, len: nat, i: nat, cs: seq<Spelling>, tail: string)
    requires From(js, i, BodyThen(cs, "\"" + tail)) && AllProper(cs) && AllEscaping(cs) && |js| <= len
    ensures var k := i + |BodyThen(cs, "")|;
            k < |js| && StringScan(js, len, i) == Found(k) && From(js, k + 1, tail)
    decreases |cs|
  {
    hide SpellingText, Proper, Escaping, From;
    if cs == [] {
      FromHead(js, i, '\"', tail);
    } else {
      SpellingScan(js, len, i, cs[0], BodyThen(cs[1..], "\"" + tail));
      BodyScan(js, len, i + |SpellingText(cs[0])|, cs[1..], tail);
    }
  }

  /** A spelled string becomes one token. */
  lemma StringLeads(js: string, len: nat, num: nat, s: St, cs: seq<Spelling>, tail: string)
    requires Inv(js, s) && From(js, s.pos, StringThen(cs, tail)) && AllProper(cs) && AllEscaping(cs)
    requires |js| <= len && -1 <= s.toksuper < |s.toks| < num
    ensures From(js, s.pos + StringWidth(cs), tail)
    ensures Leads(js, len, num, s, St(s.pos + StringWidth(cs), s.toksuper,
                  Bumped(s.toks, s.toksuper) + [StringToken(cs, s.pos, s.toksuper)]))
  {
    hide Inv, Leads, StringScan, PrimitiveScan, Linked, Bumped, BodyThen, AllProper, AllEscaping;
    var p := s.pos;
    BasicFacts(js, s);
    FromHead(js, p, '\"', BodyThen(cs, "\"" + tail));
    BodyScan(js, len, p + 1, cs, tail);
    BodyThenCat(cs, "\"" + "");
    assert StringWidth(cs) == |BodyThen(cs, "")| + 2;
    BumpedSnoc(s.toks, StringToken(cs, p, s.toksuper), s.toksuper);
    TurnLeads(js, len, num, s);
  }

  // ------------------------------------------------------------- numbers and words

  /** Characters that neither end nor spoil a primitive. */
  predicate Inner(w: string) {
    forall k :: 0 <= k < |w| ==> ' ' < w[k] < '\U{7F}' && w[k] !in {',', ']', '}'}
  }

  lemma {:induction false} WordScan(js: string, len: nat, i: nat, w: string, tail: string)
    requires From(js, i, w + tail) && Inner(w) && |js| <= len && tail != [] && EndsPrimitive(tail[0])
    ensures i + |w| < |js| && PrimitiveScan(js, len, i) == Found(i + |w|)
    decreases |w|
  {
    if w == [] {
      assert w + tail == [tail[0]] + tail[1..];
      FromHead(js, i, tail[0], tail[1..]);
    } else {
      assert w + tail == [w[0]] + (w[1..] + tail);
      FromHead(js, i, w[0], w[1..] + tail);
      WordScan(js, len, i + 1, w[1..], tail);
    }
  }

  lemma InnerCat(a: string, b: string)
    requires Inner(a) && Inner(b)
    ensures Inner(a + b)
  {
  }

  lemma {:induction false} DigitsInner(ds: seq<nat>, tail: string)
    requires AreDigits(ds) && Inner(tail)
    ensures Inner(DigitsThen(ds, tail))
    ensures ds != [] ==> '0' <= DigitsThen(ds, tail)[0] <= '9'
  {
    if ds != [] {
      DigitsInner(ds[1..], tail);
      DigitChars(ds[0]);
      hide DigitsThen;
    }
  }

  lemma DigitChars(d: nat)
    requires d < 10
    ensures '0' <= "0123456789"[d] <= '9'
  {
  }

  lemma ExponentInner(e: Exponent)
    requires e.Exponent? ==> e.mark in {'e', 'E'} && e.sign in {"", "+", "-"} && AreDigits(e.digits)
    ensures Inner(ExponentThen(e, ""))
  {
    if e.Exponent? {
      DigitsInner(e.digits, "");
      hide DigitsThen;
      var w := DigitsThen(e.digits, "");
      InnerCat(e.sign, w);
      InnerCat([e.mark], e.sign + w);
    }
  }

  lemma FractionInner(ds: seq<nat>, tail: string)
    requires AreDigits(ds) && Inner(tail)
    ensures Inner(FractionThen(ds, tail))
  {
    if ds != [] {
      DigitsInner(ds, tail);
      hide DigitsThen;
      InnerCat(".", DigitsThen(ds, tail));
    }
  }

  lemma NumberInner(n: Numeral)
    requires WellNumbered(n)
    ensures var w := NumberThen(n, ""); Inner(w) && w != [] && StartsPrimitive(w[0])
  {
    var e := ExponentThen(n.exponent, "");
    var f := FractionThen(n.fraction, e);
    ExponentInner(n.exponent);
    FractionInner(n.fraction, e);
    DigitsInner(n.whole, f);
    WholeNotEmpty(n.whole, f);
    hide ExponentThen, FractionThen, DigitsThen;
    if n.minus {
      InnerCat("-", DigitsThen(n.whole, f));
    } else {
      assert "" + DigitsThen(n.whole, f) == DigitsThen(n.whole, f);
    }
  }

  lemma WholeNotEmpty(ds: seq<nat>, tail: string)
    requires AreDigits(ds) && ds != []
    ensures DigitsThen(ds, tail) != []
  {
  }

  predicate Simple(d: Doc) {
    d.NullDoc? || d.FalseDoc? || d.TrueDoc? || d.NumberDoc?
  }

  lemma SimpleInner(d: Doc)
    requires Simple(d) && WellSpelled(d)
    ensures var w := DocThen(d, ""); Inner(w) && w != [] && StartsPrimitive(w[0])
  {
    match d
    case NumberDoc(n) => NumberInner(n);
    case NullDoc => assert "null" + "" == "null";
    case FalseDoc => assert "false" + "" == "false";
    case TrueDoc => assert "true" + "" == "true";
  }

  lemma SimpleLeads(js: string, len: nat, num: nat, s: St, d: Doc, tail: string)
    requires Simple(d) && WellSpelled(d) && Inv(js, s) && From(js, s.pos, DocThen(d, tail))
    requires tail != [] && EndsPrimitive(tail[0]) && |js| <= len && -1 <= s.toksuper < |s.toks| < num
    ensures Leads(js, len, num, s, St(s.pos + Width(d), s.toksuper,
                  Bumped(s.toks, s.toksuper) + [Token(Primitive, 0, s.pos, s.pos + Width(d), s.toksuper)]))
  {
    hide Inv, Leads, PrimitiveScan, Linked, Bumped, DocThen, WellSpelled;
    var p, w := s.pos, DocThen(d, "");
    BasicFacts(js, s);
    SimpleInner(d);
    DocThenCat(d, tail);
    WordScan(js, len, p, w, tail);
    assert js[p] == js[p..][0];
    BumpedSnoc(s.toks, Token(Primitive, 0, p, p + |w|, s.toksuper), s.toksuper);
    WordTurn(js, len, num, s, |w|);
    TurnLeads(js, len, num, s);
  }

  // ------------------------------------------------------------- white space and brackets

  lemma {:induction false} BlankLeads(js: string, len: nat, num: nat, s: St, b: string, tail: string)
    requires Inv(js, s) && From(js, s.pos, b + tail) && Blank(b) && |js| <= len
    ensures Leads(js, len, num, s, s.(pos := s.pos + |b|)) && From(js, s.pos + |b|, tail)
    decreases |b|
  {
    hide Inv, Leads;
    if b == [] {
      assert b + tail == tail;
      Reflexive(js, len, num, s);
    } else {
      assert b + tail == [b[0]] + (b[1..] + tail);
      FromHead(js, s.pos, b[0], b[1..] + tail);
      PassLeads(js, len, num, s);
      var s1 := s.(pos := s.pos + 1);
      LeadsFacts(js, len, num, s, s1);
      BlankLeads(js, len, num, s1, b[1..], tail);
      LeadsOn(js, len, num, s, s1, s.(pos := s.pos + |b|));
    }
  }

  /** A comma or a colon, and blanks on either side. */
  lemma MarkLeads(js: string, len: nat, num: nat, s: St, b: string, c: char, b2: string, tail: string)
    requires Inv(js, s) && From(js, s.pos, b + ([c] + (b2 + tail))) && Blank(b) && c in {',', ':'} && Blank(b2) && |js| <= len
    ensures Leads(js, len, num, s, s.(pos := s.pos + |b| + 1 + |b2|)) && From(js, s.pos + |b| + 1 + |b2|, tail)
  {
    hide Inv, Leads, Blank;
    BlankLeads(js, len, num, s, b, [c] + (b2 + tail));
    var s1 := s.(pos := s.pos + |b|);
    LeadsFacts(js, len, num, s, s1);
    FromHead(js, s1.pos, c, b2 + tail);
    PassLeads(js, len, num, s1);
    var s2 := s1.(pos := s1.pos + 1);
    LeadsOn(js, len, num, s, s1, s2);
    LeadsFacts(js, len, num, s, s2);
    BlankLeads(js, len, num, s2, b2, tail);
    LeadsOn(js, len, num, s, s2, s2.(pos := s2.pos + |b2|));
  }

  lemma BlankEndsPrimitive(b: string, rest: string)
    requires Blank(b) && rest != [] && rest[0] in {',', ']', '}'}
    ensures b + rest != [] && EndsPrimitive((b + rest)[0])
  {
    if b != [] { assert (b + rest)[0] == b[0]; } else { assert b + rest == rest; }
  }

  function Opening(kind: Kind): char { if kind == Object then '{' else '[' }

  function Closing(kind: Kind): char { if kind == Object then '}' else ']' }

  /** The state after the opening bracket. */
  function Opened(s: St, kind: Kind): St
    requires -1 <= s.toksuper < |s.toks|
  {
    St(s.pos + 1, |s.toks|, Bumped(s.toks, s.toksuper) + [Token(kind, 0, s.pos, -1, s.toksuper)])
  }

  /** The opening bracket and the blanks behind it. */
  lemma OpenAt(js: string, len: nat, num: nat, s: St, kind: Kind, inner: string, rest: string) returns (s1: St)
    requires Inv(js, s) && -1 <= s.toksuper < |s.toks| < num && |js| <= len && Container(kind) && Blank(inner)
    requires From(js, s.pos, [Opening(kind)] + (inner + rest))
    ensures s1 == Opened(s, kind).(pos := s.pos + 1 + |inner|) && Inv(js, s1) && Leads(js, len, num, s, s1) && From(js, s1.pos, rest)
  {
    hide Inv, Leads, Bumped, Blank;
    FromHead(js, s.pos, Opening(kind), inner + rest);
    OpenLeads(js, len, num, s, kind);
    var o := Opened(s, kind);
    LeadsFacts(js, len, num, s, o);
    BlankLeads(js, len, num, o, inner, rest);
    s1 := o.(pos := o.pos + |inner|);
    LeadsOn(js, len, num, s, o, s1);
    LeadsFacts(js, len, num, s, s1);
  }

  /** The closing bracket, after k children were read. */
  lemma CloseAt(js: string, len: nat, num: nat, s: St, s1: St, kind: Kind, k: nat, kids: seq<Token>, tail: string)
    requires Inv(js, s) && -1 <= s.toksuper < |s.toks| && |js| <= len && Container(kind)
    requires s1.toksuper == |s.toks| && s1.toks == Opened(s, kind).toks && Leads(js, len, num, s, s1) && |tail| < |js|
    requires var end := |js| - |tail| - 1;
             From(js, end, [Closing(kind)] + tail) && Leads(js, len, num, s1, St(end, |s.toks|, More(s1.toks, |s.toks|, k) + kids))
    ensures From(js, |js| - |tail|, tail)
    ensures Leads(js, len, num, s, St(|js| - |tail|, s.toksuper,
                  Bumped(s.toks, s.toksuper) + ([Token(kind, k % 256, s.pos, |js| - |tail|, s.toksuper)] + kids)))
  {
    hide Inv, Leads, Bumped, More;
    var end := |js| - |tail| - 1;
    var s2 := St(end, |s.toks|, More(s1.toks, |s.toks|, k) + kids);
    FromHead(js, end, Closing(kind), tail);
    LeadsOn(js, len, num, s, s1, s2);
    ContainerLeads(js, len, num, s, s2, kind, k, kids);
  }

  // ------------------------------------------------------------- documents

  lemma DocSpan(js: string, p: nat, d: Doc, tail: string)
    requires WellSpelled(d) && From(js, p, DocThen(d, tail))
    ensures p + Width(d) + |tail| == |js| && From(js, p + Width(d), tail)
  {
    hide DocThen;
    DocThenCat(d, tail);
    FromPart(js, p, DocThen(d, ""), tail);
  }

  /** A document is read as its tokens, from any state of the tokenizer. */
  lemma {:induction false} DocLeads(js: string, len: nat, num: nat, s: St, d: Doc, tail: string)
    requires WellSpelled(d) && Standard(d) && Inv(js, s) && -1 <= s.toksuper < |s.toks| && |js| <= len
    requires From(js, s.pos, DocThen(d, tail)) && (Simple(d) ==> tail != [] && EndsPrimitive(tail[0]))
    requires |s.toks| + |DocTokens(d, s.pos, s.toksuper, |s.toks|)| <= num
    ensures s.pos + Width(d) + |tail| == |js| && From(js, s.pos + Width(d), tail)
    ensures Leads(js, len, num, s, St(s.pos + Width(d), s.toksuper,
                  Bumped(s.toks, s.toksuper) + DocTokens(d, s.pos, s.toksuper, |s.toks|)))
    decreases d
  {
    hide Inv, Leads, Bumped, More, Width, StringThen, From, ItemsThen, EntriesThen, ItemsTokens, EntriesTokens, NumberThen, AllProper, AllEscaping;
    DocSpan(js, s.pos, d, tail);
    var n := |s.toks|;
    match d
    case StringDoc(cs) =>
      StringLeads(js, len, num, s, cs, tail);
      StringSpan(d);
    case ArrayDoc(inner, items) =>
      var s1 := OpenAt(js, len, num, s, Array, inner, ItemsThen(items, "]" + tail));
      ItemsLeads(js, len, num, s1, items, "]" + tail);
      CloseAt(js, len, num, s, s1, Array, |items|, ItemsTokens(items, s1.pos, n, n + 1), tail);
    case ObjectDoc(inner, entries) =>
      var s1 := OpenAt(js, len, num, s, Object, inner, EntriesThen(entries, "}" + tail));
      EntriesLeads(js, len, num, s1, entries, "}" + tail);
      CloseAt(js, len, num, s, s1, Object, 2 * |entries|, EntriesTokens(entries, s1.pos, n, n + 1), tail);
    case _ => SimpleLeads(js, len, num, s, d, tail);
  }

  lemma StringSpan(d: Doc)
    requires d.StringDoc? && WellSpelled(d)
    ensures Width(d) == StringWidth(d.cs)
  {
  }

  lemma FromLength(js: string, p: nat, t: string)
    requires From(js, p, t)
    ensures p + |t| == |js|
  {
  }

  lemma NoTokens(p: nat, par: int, n: nat)
    ensures ItemsTokens([], p, par, n) == [] && EntriesTokens([], p, par, n) == []
  {
  }

  lemma ItemsStep(items: seq<Item>, p: nat, par: int, n: nat)
    requires items != [] && ItemsSpelled(items)
    ensures var x := items[0];
            var q := p + |x.before|;
            var first := DocTokens(x.doc, q, par, n);
            && ItemsSpelled(items[1..]) && Blank(x.before) && Blank(x.after) && WellSpelled(x.doc)
            && ItemsTokens(items, p, par, n) == first + ItemsTokens(items[1..], q + Width(x.doc) + |x.after| + 1, par, n + |first|)
  {
    hide DocTokens, Width;
  }

  lemma {:induction false} ItemsLeads(js: string, len: nat, num: nat, s: St, items: seq<Item>, tail: string)
    requires ItemsSpelled(items) && (forall i :: 0 <= i < |items| ==> Standard(items[i].doc))
    requires Inv(js, s) && 0 <= s.toksuper < |s.toks| && |js| <= len
    requires From(js, s.pos, ItemsThen(items, tail)) && tail != [] && tail[0] == ']'
    requires |s.toks| + |ItemsTokens(items, s.pos, s.toksuper, |s.toks|)| <= num
    ensures |tail| <= |js| && From(js, |js| - |tail|, tail)
    ensures Leads(js, len, num, s, St(|js| - |tail|, s.toksuper,
                  More(s.toks, s.toksuper, |items|) + ItemsTokens(items, s.pos, s.toksuper, |s.toks|)))
    decreases items
  {
    hide Inv, Leads, More, Bumped, DocThen, DocTokens, Width, WellSpelled, Standard, Blank, From;
    FromLength(js, s.pos, ItemsThen(items, tail));
    var n, par := |s.toks|, s.toksuper;
    if items == [] {
      MoreNone(js, s);
      Reflexive(js, len, num, s);
      assert s.toks + [] == s.toks;
    } else {
      hide ItemsTokens, ItemsSpelled;
      var x, rest := items[0], ItemsRest(items, tail);
      ItemsStep(items, s.pos, par, n);
      BlankEndsPrimitive(x.after, rest);
      var s2 := FirstItemLeads(js, len, num, s, x, x.after + rest);
      var first := DocTokens(x.doc, s.pos + |x.before|, par, n);
      if |items| == 1 {
        var s3 := BehindLeads(js, len, num, s2, x.after, false, tail);
        LeadsOn(js, len, num, s, s2, s3);
        FromLength(js, s3.pos, tail);
        assert items[1..] == [];
        NoTokens(s2.pos + |x.after| + 1, par, n + |first|);
        assert first + [] == first;
      } else {
        var s3 := BehindLeads(js, len, num, s2, x.after, true, ItemsThen(items[1..], tail));
        ItemsLeads(js, len, num, s3, items[1..], tail);
        LeadsOn(js, len, num, s, s2, s3);
        var others := ItemsTokens(items[1..], s3.pos, par, n + |first|);
        RestLeads(js, len, num, s, s3, 1, |items[1..]|, first, others, |js| - |tail|);
      }
    }
  }

  /** The blanks before an item and the item. */
  lemma FirstItemLeads(js: string, len: nat, num: nat, s: St, x: Item, rest: string) returns (t: St)
    requires Blank(x.before) && WellSpelled(x.doc) && Standard(x.doc)
    requires Inv(js, s) && 0 <= s.toksuper < |s.toks| && |js| <= len
    requires From(js, s.pos, x.before + DocThen(x.doc, rest)) && rest != [] && EndsPrimitive(rest[0])
    requires |s.toks| + |DocTokens(x.doc, s.pos + |x.before|, s.toksuper, |s.toks|)| <= num
    ensures t == St(s.pos + |x.before| + Width(x.doc), s.toksuper,
                    More(s.toks, s.toksuper, 1) + DocTokens(x.doc, s.pos + |x.before|, s.toksuper, |s.toks|))
    ensures Leads(js, len, num, s, t) && Inv(js, t) && From(js, t.pos, rest)
    decreases x, 0
  {
    hide Inv, Leads, More, Bumped, DocThen, DocTokens, Width, WellSpelled, Standard, Blank;
    BlankLeads(js, len, num, s, x.before, DocThen(x.doc, rest));
    var s1 := s.(pos := s.pos + |x.before|);
    LeadsFacts(js, len, num, s, s1);
    DocLeads(js, len, num, s1, x.doc, rest);
    MoreOne(s.toks, s.toksuper);
    t := St(s1.pos + Width(x.doc), s.toksuper, More(s.toks, s.toksuper, 1) + DocTokens(x.doc, s1.pos, s.toksuper, |s.toks|));
    LeadsOn(js, len, num, s, s1, t);
    LeadsFacts(js, len, num, s, t);
  }

  /** The blanks behind an element and its comma, if there is one. */
  lemma BehindLeads(js: string, len: nat, num: nat, s: St, b: string, comma: bool, tail: string) returns (t: St)
    requires Inv(js, s) && From(js, s.pos, b + if comma then "," + tail else tail) && Blank(b) && |js| <= len
    ensures t == s.(pos := s.pos + |b| + if comma then 1 else 0)
    ensures Leads(js, len, num, s, t) && Inv(js, t) && From(js, t.pos, tail)
  {
    hide Inv, Leads, Blank;
    if comma {
      assert "" + tail == tail;
      EmptyBlank();
      MarkLeads(js, len, num, s, b, ',', "", tail);
      t := s.(pos := s.pos + |b| + 1);
    } else {
      BlankLeads(js, len, num, s, b, tail);
      t := s.(pos := s.pos + |b|);
    }
    LeadsFacts(js, len, num, s, t);
  }

  lemma EmptyBlank()
    ensures Blank("")
  {
  }

  lemma EntriesStep(entries: seq<Entry>, p: nat, par: int, n: nat)
    requires entries != [] && EntriesSpelled(entries)
    ensures var x := entries[0];
            var q := p + |x.before|;
            var first := EntryTokens(x, q, par, n);
            && EntriesSpelled(entries[1..]) && EntriesSpelled([x]) && EntryWidth(x) >= |x.after|
            && EntriesTokens(entries, p, par, n) == first + EntriesTokens(entries[1..], q + EntryWidth(x) + 1, par, n + |first|)
  {
    hide EntryTokens, Width, StringWidth, WellSpelled, AllProper, Blank;
    assert [entries[0]][0] == entries[0];
  }

  /** What is known of an entry of its own. */
  lemma EntryFacts(x: Entry)
    requires EntriesSpelled([x])
    ensures Blank(x.before) && AllProper(x.name) && Blank(x.afterName) && Blank(x.beforeDoc) && WellSpelled(x.doc) && Blank(x.after)
  {
    assert [x][0] == x;
  }

  /** Name, colon and value. */
  lemma {:induction false} EntryLeads(js: string, len: nat, num: nat, s: St, x: Entry, rest: string)
    requires AllProper(x.name) && AllEscaping(x.name) && Blank(x.afterName) && Blank(x.beforeDoc)
    requires WellSpelled(x.doc) && Standard(x.doc)
    requires Inv(js, s) && 0 <= s.toksuper < |s.toks| && |js| <= len
    requires From(js, s.pos, StringThen(x.name, x.afterName + (":" + (x.beforeDoc + DocThen(x.doc, rest)))))
    requires rest != [] && EndsPrimitive(rest[0])
    requires |s.toks| + |EntryTokens(x, s.pos, s.toksuper, |s.toks|)| <= num
    ensures var end := s.pos + StringWidth(x.name) + |x.afterName| + 1 + |x.beforeDoc| + Width(x.doc);
            From(js, end, rest) &&
            Leads(js, len, num, s, St(end, s.toksuper, More(s.toks, s.toksuper, 2) + EntryTokens(x, s.pos, s.toksuper, |s.toks|)))
    decreases x, 0
  {
    hide Inv, Leads, More, Bumped, DocThen, StringThen, DocTokens, Width, StringWidth, WellSpelled, Standard, Blank, AllProper, AllEscaping;
    var par, key := s.toksuper, StringToken(x.name, s.pos, s.toksuper);
    var value := DocThen(x.doc, rest);
    StringLeads(js, len, num, s, x.name, x.afterName + (":" + (x.beforeDoc + value)));
    MoreOne(s.toks, par);
    var s1 := St(s.pos + StringWidth(x.name), par, More(s.toks, par, 1) + [key]);
    LeadsFacts(js, len, num, s, s1);
    MarkLeads(js, len, num, s1, x.afterName, ':', x.beforeDoc, value);
    var s2 := s1.(pos := s1.pos + |x.afterName| + 1 + |x.beforeDoc|);
    LeadsOn(js, len, num, s, s1, s2);
    LeadsFacts(js, len, num, s, s2);
    DocLeads(js, len, num, s2, x.doc, rest);
    MoreOne(s2.toks, par);
    RestLeads(js, len, num, s, s2, 1, 1, [key], DocTokens(x.doc, s2.pos, par, |s.toks| + 1), s2.pos + Width(x.doc));
  }

  lemma {:induction false} EntriesLeads(js: string, len: nat, num: nat, s: St, entries: seq<Entry>, tail: string)
    requires EntriesSpelled(entries)
    requires forall i :: 0 <= i < |entries| ==> AllEscaping(entries[i].name) && Standard(entries[i].doc)
    requires Inv(js, s) && 0 <= s.toksuper < |s.toks| && |js| <= len
    requires From(js, s.pos, EntriesThen(entries, tail)) && tail != [] && tail[0] == '}'
    requires |s.toks| + |EntriesTokens(entries, s.pos, s.toksuper, |s.toks|)| <= num
    ensures |tail| <= |js| && From(js, |js| - |tail|, tail)
    ensures Leads(js, len, num, s, St(|js| - |tail|, s.toksuper,
                  More(s.toks, s.toksuper, 2 * |entries|) + EntriesTokens(entries, s.pos, s.toksuper, |s.toks|)))
    decreases entries
  {
    hide Inv, Leads, More, Bumped, DocThen, StringThen, EntryTokens, Width, StringWidth, WellSpelled, Standard, Blank, AllProper, AllEscaping, From;
    FromLength(js, s.pos, EntriesThen(entries, tail));
    var n, par := |s.toks|, s.toksuper;
    if entries == [] {
      MoreNone(js, s);
      Reflexive(js, len, num, s);
      assert s.toks + [] == s.toks;
    } else {
      hide EntriesTokens, EntriesSpelled, EntryWidth;
      var x, rest := entries[0], EntriesRest(entries, tail);
      EntriesStep(entries, s.pos, par, n);
      EntryFacts(x);
      BlankEndsPrimitive(x.after, rest);
      var s2 := FirstEntryLeads(js, len, num, s, x, x.after + rest);
      var first := EntryTokens(x, s.pos + |x.before|, par, n);
      if |entries| == 1 {
        var s3 := BehindLeads(js, len, num, s2, x.after, false, tail);
        LeadsOn(js, len, num, s, s2, s3);
        FromLength(js, s3.pos, tail);
        assert entries[1..] == [];
        NoTokens(s2.pos + |x.after| + 1, par, n + |first|);
        assert first + [] == first;
      } else {
        var s3 := BehindLeads(js, len, num, s2, x.after, true, EntriesThen(entries[1..], tail));
        EntriesLeads(js, len, num, s3, entries[1..], tail);
        LeadsOn(js, len, num, s, s2, s3);
        var others := EntriesTokens(entries[1..], s3.pos, par, n + |first|);
        RestLeads(js, len, num, s, s3, 2, 2 * |entries[1..]|, first, others, |js| - |tail|);
      }
    }
  }

  /** The blanks before an entry and the entry. */
  lemma FirstEntryLeads(js: string, len: nat, num: nat, s: St, x: Entry, rest: string) returns (t: St)
    requires Blank(x.before) && AllProper(x.name) && AllEscaping(x.name) && Blank(x.afterName) && Blank(x.beforeDoc)
    requires WellSpelled(x.doc) && Standard(x.doc)
    requires Inv(js, s) && 0 <= s.toksuper < |s.toks| && |js| <= len
    requires From(js, s.pos, x.before + StringThen(x.name, x.afterName + (":" + (x.beforeDoc + DocThen(x.doc, rest)))))
    requires rest != [] && EndsPrimitive(rest[0])
    requires |s.toks| + |EntryTokens(x, s.pos + |x.before|, s.toksuper, |s.toks|)| <= num
    ensures t == St(s.pos + |x.before| + EntryWidth(x) - |x.after|, s.toksuper,
                    More(s.toks, s.toksuper, 2) + EntryTokens(x, s.pos + |x.before|, s.toksuper, |s.toks|))
    ensures Leads(js, len, num, s, t) && Inv(js, t) && From(js, t.pos, rest)
    decreases x, 1
  {
    hide Inv, Leads, More, Bumped, DocThen, StringThen, EntryTokens, Width, StringWidth, WellSpelled, Standard, Blank, AllProper, AllEscaping;
    BlankLeads(js, len, num, s, x.before, StringThen(x.name, x.afterName + (":" + (x.beforeDoc + DocThen(x.doc, rest)))));
    var s1 := s.(pos := s.pos + |x.before|);
    LeadsFacts(js, len, num, s, s1);
    EntryLeads(js, len, num, s1, x, rest);
    t := St(s1.pos + EntryWidth(x) - |x.after|, s.toksuper, More(s.toks, s.toksuper, 2) + EntryTokens(x, s1.pos, s.toksuper, |s.toks|));
    LeadsOn(js, len, num, s, s1, t);
    LeadsFacts(js, len, num, s, t);
  }

  // ------------------------------------------------------------- whole texts

  /** The number that a call returns is the number of tokens it has added. */
  lemma {:induction false} CountIsTokens(js: string, len: nat, num: nat, s: St)
    requires InSpan(s) && Linked(s.toks)
    ensures var r := Run(js, len, num, s);
            r.code == 0 ==> r.count + |s.toks| == |r.s.toks|
    decreases |js| - s.pos
  {
    if Going(js, len, s.pos) {
      TurnKeepsLinks(js, len, num, s);
      TurnCounts(js, len, num, s);
      match OneTurn(js, len, num, s)
      case Stop(_, _) =>
      case Next(t, k) => CountIsTokens(js, len, num, t.(pos := t.pos + 1));
    }
  }

  lemma TurnCounts(js: string, len: nat, num: nat, s: St)
    requires InSpan(s) && Linked(s.toks) && s.pos < |js|
    ensures var r := OneTurn(js, len, num, s);
            (r.Stop? ==> r.code != 0) && (r.Next? ==> |r.s.toks| == |s.toks| + r.count)
  {
  }

  /** jsmn accepts every object, array and string of RFC 8259, with any white space around and in
      it, to the last character, and returns the number of its tokens, which are those of the
      document in order, each over its own text. */
  lemma StandardIsTokenized(before: string, d: Doc, after: string, len: nat, num: nat)
    requires Blank(before) && WellSpelled(d) && Standard(d) && !Simple(d) && Blank(after)
    requires |before + DocThen(d, after)| <= len && |DocTokens(d, |before|, -1, 0)| <= num
    ensures var js := before + DocThen(d, after);
            Run(js, len, num, St(0, -1, [])) ==
            End(St(|js|, -1, DocTokens(d, |before|, -1, 0)), 0, |DocTokens(d, |before|, -1, 0)|)
  {
    hide Run, DocTokens, DocThen, WellSpelled, Standard, Blank, Inv, Leads, OneTurn;
    var js, s := before + DocThen(d, after), St(0, -1, []);
    StartInv(js);
    assert js[0..] == js;
    BlankLeads(js, len, num, s, before, DocThen(d, after));
    var s1 := s.(pos := |before|);
    LeadsFacts(js, len, num, s, s1);
    DocLeads(js, len, num, s1, d, after);
    assert Bumped([], -1) + DocTokens(d, |before|, -1, 0) == DocTokens(d, |before|, -1, 0);
    var s2 := St(|before| + Width(d), -1, DocTokens(d, |before|, -1, 0));
    LeadsOn(js, len, num, s, s1, s2);
    LeadsFacts(js, len, num, s, s2);
    assert after + [] == after;
    BlankLeads(js, len, num, s2, after, []);
    var s3 := s2.(pos := |js|);
    LeadsOn(js, len, num, s, s2, s3);
    LeadsFacts(js, len, num, s, s3);
    EndsWell(js, len, num, s3);
    CountIsTokens(js, len, num, s);
    LeadsEnd(js, len, num, s, s3);
  }

  lemma LeadsEnd(js: string, len: nat, num: nat, s: St, t: St)
    requires Leads(js, len, num, s, t)
    ensures Run(js, len, num, s).s == Run(js, len, num, t).s && Run(js, len, num, s).code == Run(js, len, num, t).code
  {
    hide Run, Inv;
  }

  // ------------------------------------------------------------- sizes that wrap

  /** An array that holds n times the value true. */
  function LongArray(n: nat): (d: Doc)
    ensures d.ArrayDoc? && WellSpelled(d) && Standard(d)
  {
    ArrayDoc("", seq(n, _ => Item("", TrueDoc, "")))
  }

  /** The document of one such array. */
  function LongDocument(n: nat): (d: Doc)
    ensures WellSpelled(d) && Standard(d)
  {
    ObjectDoc("", [Entry("", [Raw('a')], "", "", LongArray(n), "")])
  }

  lemma {:induction false} LeavesTokens(items: seq<Item>, p: nat, par: int, n: nat)
    requires ItemsSpelled(items) && forall i :: 0 <= i < |items| ==> items[i].doc == TrueDoc
    ensures var r := ItemsTokens(items, p, par, n);
            |r| == |items| && forall i :: 0 <= i < |r| ==> r[i].parent == par
    decreases |items|
  {
    hide Width;
    if items != [] {
      var x := items[0];
      LeavesTokens(items[1..], p + |x.before| + Width(x.doc) + |x.after| + 1, par, n + 1);
      assert |DocTokens(x.doc, p + |x.before|, par, n)| == 1;
    }
  }

  lemma {:induction false} ChildrenOfRow(a: seq<Token>, b: seq<Token>, p: int)
    requires forall i :: 0 <= i < |b| ==> b[i].parent == p
    ensures Children(a + b, p) == Children(a, p) + |b|
  {
    if b == [] {
      assert a + b == a;
    } else {
      assert (a + b)[..|a + b| - 1] == a + b[..|b| - 1];
      ChildrenOfRow(a, b[..|b| - 1], p);
    }
  }

  lemma LongDocumentTokens(n: nat)
    ensures var toks := DocTokens(LongDocument(n), 0, -1, 0);
            |toks| == n + 3 && toks[2].kind == Array && toks[2].size == n % 256 && Children(toks, 2) == n
  {
    hide Children, ItemsTokens, Width, StringWidth, DocThen;
    var x := LongDocument(n).entries[0];
    var items := x.doc.items;
    var v := 1 + StringWidth(x.name) + 1;
    var toks, inner, rest := DocTokens(LongDocument(n), 0, -1, 0), DocTokens(x.doc, v, 0, 2), ItemsTokens(items, v + 1, 2, 3);
    assert inner == [inner[0]] + rest;
    var first := EntryTokens(x, 1, 0, 1);
    assert first == [first[0]] + inner;
    assert LongDocument(n).entries[1..] == [];
    NoTokens(1 + EntryWidth(x) + 1, 0, 1 + |first|);
    assert EntriesTokens(LongDocument(n).entries, 1, 0, 1) == first + [];
    assert toks == [toks[0], toks[1], toks[2]] + rest;
    LeavesTokens(items, v + 1, 2, 3);
    ChildrenOfRow(toks[..3], rest, 2);
    NoChildrenYet(toks[..3], 2);
    assert toks == toks[..3] + rest;
  }

  /** An array of any length is accepted, and its size is its length modulo 256: one of 256 items
      looks like an empty one. */
  lemma LongArrayAccepted(n: nat, len: nat, num: nat)
    requires |DocThen(LongDocument(n), "")| <= len && n + 3 <= num
    ensures var r := Run(DocThen(LongDocument(n), ""), len, num, St(0, -1, []));
            && r.code == 0 && r.count == |r.s.toks| == n + 3 && r.s.toks[2].kind == Array
            && Children(r.s.toks, 2) == n && r.s.toks[2].size == n % 256
    ensures n == 256 ==> Run(DocThen(LongDocument(n), ""), len, num, St(0, -1, [])).s.toks[2].size == 0
  {
    hide Run, DocTokens, DocThen, Children, WellSpelled, Standard;
    LongDocumentTokens(n);
    var d := LongDocument(n);
    EmptyBlank();
    assert "" + DocThen(d, "") == DocThen(d, "");
    StandardIsTokenized("", d, "", len, num);
  }
}
