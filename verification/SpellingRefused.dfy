/**
 Texts that follow RFC 8259 up to one place and then go wrong: cJSON refuses them, and its error
 pointer is left at that place.
 */
module SpellingRefused {
  import opened Base
  import opened JsonText
  import opened JsonRoundTrip
  import opened JsonSpelling
  import opened SpellingParsed

  // ------------------------------------------------------------- where a text goes wrong

  /** What is open around the place, and what was expected there: a value, a comma or a bracket, a
      name, a colon, a comma or a brace. Items and entries in front of it are complete. */
  datatype Broken =
    | NoValue
    | NoComma(items: seq<Item>)
    | InItem(items: seq<Item>, before: string, x: Broken)
    | NoName(entries: seq<Entry>, before: string)
    | NoColon(entries: seq<Entry>, before: string, name: seq<Spelling>, afterName: string)
    | InEntry(entries: seq<Entry>, before: string, name: seq<Spelling>, afterName: string, beforeDoc: string, x: Broken)
    | NoBrace(entries: seq<Entry>)

  predicate WellBroken(b: Broken) {
    match b
    case NoValue => true
    case NoComma(items) => items != [] && ItemsSpelled(items)
    case InItem(items, before, x) => ItemsSpelled(items) && Blank(before) && WellBroken(x)
    case NoName(entries, before) => EntriesSpelled(entries) && Blank(before)
    case NoColon(entries, before, name, afterName) =>
      EntriesSpelled(entries) && Blank(before) && AllProper(name) && Blank(afterName)
    case InEntry(entries, before, name, afterName, beforeDoc, x) =>
      EntriesSpelled(entries) && Blank(before) && AllProper(name) && Blank(afterName) && Blank(beforeDoc) && WellBroken(x)
    case NoBrace(entries) => entries != [] && EntriesSpelled(entries)
  }

  /** Items, a comma behind each, and the tail. */
  function ItemsComma(items: seq<Item>, tail: string): string
    requires ItemsSpelled(items)
  {
    if items == [] then tail
    else items[0].before + DocThen(items[0].doc, items[0].after + ("," + ItemsComma(items[1..], tail)))
  }

  function EntriesComma(entries: seq<Entry>, tail: string): string
    requires EntriesSpelled(entries)
  {
    if entries == [] then tail else EntryThen(entries[0], "," + EntriesComma(entries[1..], tail))
  }

  /** The text up to the place, and then the tail. */
  function BrokenThen(b: Broken, tail: string): string
    requires WellBroken(b)
  {
    match b
    case NoValue => tail
    case NoComma(items) => "[" + ItemsThen(items, tail)
    case InItem(items, before, x) => "[" + ItemsComma(items, before + BrokenThen(x, tail))
    case NoName(entries, before) => "{" + EntriesComma(entries, before + tail)
    case NoColon(entries, before, name, afterName) =>
      "{" + EntriesComma(entries, before + StringThen(name, afterName + tail))
    case InEntry(entries, before, name, afterName, beforeDoc, x) =>
      "{" + EntriesComma(entries, before + StringThen(name, afterName + (":" + (beforeDoc + BrokenThen(x, tail)))))
    case NoBrace(entries) => "{" + EntriesThen(entries, tail)
  }

  predicate Ink(t: string) {
    t == [] || t[0] > ' '
  }

  predicate NoValueAt(t: string) {
    t == [] || (t[0] !in {'\"', '-', '[', '{'} && !('0' <= t[0] <= '9')
                && !("null" <= t) && !("true" <= t) && !("false" <= t))
  }

  /** The tail is not what was expected there, nor closes an empty array or object. */
  predicate Breaks(b: Broken, tail: string) {
    Ink(tail) &&
    match b
    case NoValue => NoValueAt(tail)
    case NoComma(items) =>
      items != [] && !StartsWith(tail, ',') && !StartsWith(tail, ']') && Apart(items[|items| - 1].doc, items[|items| - 1].after, tail)
    case InItem(items, _, x) => Breaks(x, tail) && (items == [] && x.NoValue? ==> !StartsWith(tail, ']'))
    case NoName(entries, _) => !StartsWith(tail, '\"') && (entries == [] ==> !StartsWith(tail, '}'))
    case NoColon(_, _, _, _) => !StartsWith(tail, ':')
    case InEntry(_, _, _, _, _, x) => Breaks(x, tail)
    case NoBrace(entries) =>
      entries != [] && !StartsWith(tail, ',') && !StartsWith(tail, '}') && Apart(entries[|entries| - 1].doc, entries[|entries| - 1].after, tail)
  }

  // ------------------------------------------------------------- the rules of refusal

  lemma NoValueRule(t: string)
    requires NoValueAt(t)
    ensures ParseValue(t) == Failed(t)
  {
  }

  lemma ItemFails(t: string, at: string)
    requires ParseValue(Skip(t)) == Failed(at)
    ensures ParseItems(t) == Failed(at)
  {
  }

  lemma LaterFails(t: string, v: Json, r: string, at: string)
    requires ParseValue(Skip(t)) == Done(v, r) && StartsWith(Skip(r), ',') && ParseItems(Skip(r)[1..]) == Failed(at)
    ensures ParseItems(t) == Failed(at)
  {
  }

  lemma ArrayFails(t: string, at: string)
    requires StartsWith(t, '[') && !StartsWith(Skip(t[1..]), ']')
    requires ParseItems(Skip(t[1..])) == Failed(at)
    ensures ParseValue(t) == Failed(at)
  {
  }

  lemma ArrayOpen(t: string, vs: seq<Json>, rest: string)
    requires StartsWith(t, '[') && !StartsWith(Skip(t[1..]), ']')
    requires ParseItems(Skip(t[1..])) == Done(vs, rest) && !StartsWith(rest, ']')
    ensures ParseValue(t) == Failed(rest)
  {
  }

  lemma NameFails(t: string)
    requires !StartsWith(Skip(t), '\"')
    ensures ParseMember(t) == Failed(Skip(t))
  {
  }

  lemma ColonFails(t: string, name: string, r: string)
    requires ParseString(Skip(t)) == Done(name, r) && !StartsWith(Skip(r), ':')
    ensures ParseMember(t) == Failed(Skip(r))
  {
  }

  lemma ValueFails(t: string, name: string, r: string, at: string)
    requires ParseString(Skip(t)) == Done(name, r) && StartsWith(Skip(r), ':')
    requires ParseValue(Skip(Skip(r)[1..])) == Failed(at)
    ensures ParseMember(t) == Failed(at)
  {
  }

  lemma MemberFails(t: string, at: string)
    requires ParseMember(t) == Failed(at)
    ensures ParseMembers(t) == Failed(at)
  {
  }

  lemma LaterMemberFails(t: string, m: Member, r: string, at: string)
    requires ParseMember(t) == Done(m, r) && StartsWith(Skip(r), ',') && ParseMembers(Skip(r)[1..]) == Failed(at)
    ensures ParseMembers(t) == Failed(at)
  {
  }

  lemma ObjectFails(t: string, at: string)
    requires StartsWith(t, '{') && !StartsWith(Skip(t[1..]), '}')
    requires ParseMembers(Skip(t[1..])) == Failed(at)
    ensures ParseValue(t) == Failed(at)
  {
  }

  lemma ObjectOpen(t: string, ms: seq<Member>, rest: string)
    requires StartsWith(t, '{') && !StartsWith(Skip(t[1..]), '}')
    requires ParseMembers(Skip(t[1..])) == Done(ms, rest) && !StartsWith(rest, '}')
    ensures ParseValue(t) == Failed(rest)
  {
  }

  // ------------------------------------------------------------- behind complete items

  /** Items with their commas are passed, and the rest fails as it would alone. */
  lemma {:induction false} ItemsPassed(items: seq<Item>, tail: string, at: string)
    requires ItemsSpelled(items) && ParseItems(tail) == Failed(at) && (items == [] ==> !StartsWith(Skip(tail), ']'))
    ensures ParseItems(ItemsComma(items, tail)) == Failed(at)
    ensures !StartsWith(Skip(ItemsComma(items, tail)), ']')
    decreases |items|
  {
    hide ParseValue, ParseItems, DocThen, Meaning, WellSpelled, EndsNumber, Blank, Skip;
    if items != [] {
      var x := items[0];
      var others := ItemsComma(items[1..], tail);
      var rest := "," + others;
      var r := x.after + rest;
      DocHead(x.doc, r);
      BlankThenInk(x.before, DocThen(x.doc, r));
      InkEnds(rest);
      BlankEnds(x.after, rest);
      DocRead(x.doc, r);
      BlankThenInk(x.after, rest);
      assert rest[1..] == others;
      if |items| > 1 { ItemsPassed(items[1..], tail, at); }
      LaterFails(ItemsComma(items, tail), Meaning(x.doc), r, at);
    }
  }

  lemma {:induction false} EntriesPassed(entries: seq<Entry>, tail: string, at: string)
    requires EntriesSpelled(entries) && ParseMembers(tail) == Failed(at) && (entries == [] ==> !StartsWith(Skip(tail), '}'))
    ensures ParseMembers(EntriesComma(entries, tail)) == Failed(at)
    ensures !StartsWith(Skip(EntriesComma(entries, tail)), '}')
    decreases |entries|
  {
    hide ParseMember, ParseMembers, DocThen, EntryThen, StringMeaning, Meaning, WellSpelled, Blank, AllProper, Skip;
    if entries != [] {
      var x := entries[0];
      var others := EntriesComma(entries[1..], tail);
      var rest := "," + others;
      InkEnds(rest);
      EntryRead(x, rest);
      BlankThenInk(x.after, rest);
      assert rest[1..] == others;
      if |entries| > 1 { EntriesPassed(entries[1..], tail, at); }
      LaterMemberFails(EntriesComma(entries, tail), Member(StringMeaning(x.name), Meaning(x.doc)), x.after + rest, at);
    }
  }

  // ------------------------------------------------------------- refused at the place

  /** Neither a value that fails further on nor the place itself is white space. */
  lemma BrokenHead(b: Broken, tail: string)
    requires WellBroken(b) && Breaks(b, tail)
    ensures Ink(BrokenThen(b, tail))
    ensures StartsWith(BrokenThen(b, tail), ']') ==> b.NoValue?
  {
    hide ItemsComma, EntriesComma, ItemsThen, EntriesThen;
  }

  /** A text that goes wrong at one place, however deep, is refused with the error pointer there. */
  lemma {:induction false} BrokenIsRefused(b: Broken, tail: string)
    requires WellBroken(b) && Breaks(b, tail)
    ensures ParseValue(BrokenThen(b, tail)) == Failed(tail)
    decreases b, 2
  {
    hide ParseValue, Breaks;
    match b
    case NoValue => NoValueIs(tail); NoValueRule(tail);
    case NoComma(_) => OpenArrayRefused(b, tail);
    case InItem(_, _, _) => ItemRefused(b, tail);
    case NoBrace(_) => OpenObjectRefused(b, tail);
    case _ => EntryRefused(b, tail);
  }

  lemma NoValueIs(tail: string)
    requires Breaks(NoValue, tail)
    ensures NoValueAt(tail)
  {
  }

  lemma OpenArrayRefused(b: Broken, tail: string)
    requires b.NoComma? && WellBroken(b) && Breaks(b, tail)
    ensures ParseValue(BrokenThen(b, tail)) == Failed(tail)
  {
    hide ParseValue, ParseItems, ItemsThen, Apart, Skip;
    var u, t := ItemsThen(b.items, tail), BrokenThen(b, tail);
    assert t[1..] == u;
    ItemsRead(b.items, tail);
    SkipTwice(u);
    ItemsIgnoreBlanks(Skip(u), u);
    ArrayOpen(t, ItemsMeaning(b.items), tail);
  }

  lemma OpenObjectRefused(b: Broken, tail: string)
    requires b.NoBrace? && WellBroken(b) && Breaks(b, tail)
    ensures ParseValue(BrokenThen(b, tail)) == Failed(tail)
  {
    hide ParseValue, ParseMembers, EntriesThen, Apart, Skip;
    var u, t := EntriesThen(b.entries, tail), BrokenThen(b, tail);
    assert t[1..] == u;
    EntriesRead(b.entries, tail);
    SkipTwice(u);
    MembersIgnoreBlanks(Skip(u), u);
    ObjectOpen(t, EntriesMeaning(b.entries), tail);
  }

  lemma {:induction false} ItemRefused(b: Broken, tail: string)
    requires b.InItem? && WellBroken(b) && Breaks(b, tail)
    ensures ParseValue(BrokenThen(b, tail)) == Failed(tail)
    decreases b, 0
  {
    hide ParseValue, ParseItems, ItemsComma, Skip;
    var inner := BrokenThen(b.x, tail);
    BrokenIsRefused(b.x, tail);
    BrokenHead(b.x, tail);
    BlankThenEnd(b.before, inner);
    ItemFails(b.before + inner, tail);
    ItemsPassed(b.items, b.before + inner, tail);
    var u, t := ItemsComma(b.items, b.before + inner), BrokenThen(b, tail);
    assert t[1..] == u;
    SkipTwice(u);
    ItemsIgnoreBlanks(Skip(u), u);
    ArrayFails(t, tail);
  }

  /** The member in which the text goes wrong. */
  function BrokenEntry(b: Broken, tail: string): string
    requires WellBroken(b) && (b.NoName? || b.NoColon? || b.InEntry?)
  {
    match b
    case NoName(_, before) => before + tail
    case NoColon(_, before, name, afterName) => before + StringThen(name, afterName + tail)
    case InEntry(_, before, name, afterName, beforeDoc, x) =>
      before + StringThen(name, afterName + (":" + (beforeDoc + BrokenThen(x, tail))))
  }

  lemma {:induction false} EntryFails(b: Broken, tail: string)
    requires WellBroken(b) && Breaks(b, tail) && (b.NoName? || b.NoColon? || b.InEntry?)
    ensures ParseMember(BrokenEntry(b, tail)) == Failed(tail)
    ensures b.entries == [] ==> !StartsWith(Skip(BrokenEntry(b, tail)), '}')
    decreases b, 0
  {
    hide ParseValue, ParseMember, ParseString, BodyThen, Skip;
    var t := BrokenEntry(b, tail);
    match b
    case NoName(_, before) =>
      BlankThenEnd(before, tail);
      NameFails(t);
    case NoColon(_, before, name, afterName) =>
      BlankThenEnd(before, StringThen(name, afterName + tail));
      StringRead(name, afterName + tail);
      BlankThenEnd(afterName, tail);
      ColonFails(t, StringMeaning(name), afterName + tail);
    case InEntry(_, before, name, afterName, beforeDoc, x) =>
      var value := BrokenThen(x, tail);
      var r2 := ":" + (beforeDoc + value);
      BlankThenEnd(before, StringThen(name, afterName + r2));
      StringRead(name, afterName + r2);
      BlankThenEnd(afterName, r2);
      assert r2[1..] == beforeDoc + value;
      BrokenHead(x, tail);
      BlankThenEnd(beforeDoc, value);
      BrokenIsRefused(x, tail);
      ValueFails(t, StringMeaning(name), afterName + r2, tail);
  }

  lemma {:induction false} EntryRefused(b: Broken, tail: string)
    requires WellBroken(b) && Breaks(b, tail) && (b.NoName? || b.NoColon? || b.InEntry?)
    ensures ParseValue(BrokenThen(b, tail)) == Failed(tail)
    decreases b, 1
  {
    hide ParseValue, ParseMember, ParseMembers, EntriesComma, Breaks, Skip;
    var m := BrokenEntry(b, tail);
    EntryFails(b, tail);
    MemberFails(m, tail);
    EntriesPassed(b.entries, m, tail);
    var u, t := EntriesComma(b.entries, m), BrokenThen(b, tail);
    assert t[1..] == u;
    SkipTwice(u);
    MembersIgnoreBlanks(Skip(u), u);
    ObjectFails(t, tail);
  }

  /** The same for a whole call, with blanks in front. */
  lemma BrokenIsNotParsed(before: string, b: Broken, tail: string, whole: bool)
    requires Blank(before) && WellBroken(b) && Breaks(b, tail)
    ensures ParseWithOpts(before + BrokenThen(b, tail), whole) == Failed(tail)
  {
    hide ParseValue, BrokenThen, Skip;
    BrokenHead(b, tail);
    BlankThenEnd(before, BrokenThen(b, tail));
    BrokenIsRefused(b, tail);
  }

  /** Behind a document, more text is refused where it starts when the whole text is asked for, and
      left alone otherwise. */
  lemma MoreBehind(before: string, d: Doc, after: string, tail: string, whole: bool)
    requires Blank(before) && WellSpelled(d) && Blank(after) && tail != [] && Ink(tail) && Apart(d, after, tail)
    ensures ParseWithOpts(before + DocThen(d, after + tail), whole) ==
            if whole then Failed(tail) else Done(Meaning(d), after + tail)
  {
    hide ParseValue, DocThen, Meaning, WellSpelled, Skip, Apart;
    DocHead(d, after + tail);
    BlankThenInk(before, DocThen(d, after + tail));
    BlankApart(d, after, tail);
    DocRead(d, after + tail);
    BlankThenEnd(after, tail);
  }
}
