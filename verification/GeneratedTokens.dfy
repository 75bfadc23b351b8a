/**
 What the generator writes is a document of RFC 8259, and so both readers take it as the tree that
 was meant.
 */
module GeneratedTokens {
  import opened Base
  import JsonText
  import opened JsonGenerator
  import opened GeneratedText
  import opened Jsmn
  import opened JsonSpelling
  import opened PrintedSpelling
  import SpellingTokens
  import SpellingParsed

  // ------------------------------------------------------------- the tree as a document

  function Raws(s: string): (cs: seq<Spelling>)
    ensures |cs| == |s| && forall i :: 0 <= i < |s| ==> cs[i] == Raw(s[i])
  {
    seq(|s|, i requires 0 <= i < |s| => Raw(s[i]))
  }

  function LeafDoc(str: string, value: int, data: Data): Doc {
    match data
    case STR => StringDoc(Raws(str))
    case INT => IntegerDoc(ToInt32(value))
    case UINT => IntegerDoc(ToUint(value, 0x1_0000_0000))
    case UINT64 => IntegerDoc(ToUint(value, 0x1_0000_0000_0000_0000))
    case FLOAT => StringDoc(Raws("unsupported"))
    case BOOL => if value == 1 then TrueDoc else FalseDoc
  }

  function DocOf(t: Tree): Doc
    decreases t
  {
    match t
    case Leaf(str, value, data) => LeafDoc(str, value, data)
    case Obj(fields) => ObjectDoc("", EntriesOf(fields))
    case Arr(items) => ArrayDoc("", ItemsOf(items))
  }

  function EntriesOf(fs: seq<Field>): (r: seq<Entry>)
    ensures |r| == |fs| && forall i :: 0 <= i < |fs| ==> r[i] == Entry("", Raws(fs[i].name), "", "", DocOf(fs[i].tree), "")
    decreases fs
  {
    if fs == [] then [] else [Entry("", Raws(fs[0].name), "", "", DocOf(fs[0].tree), "")] + EntriesOf(fs[1..])
  }

  function ItemsOf(xs: seq<Tree>): (r: seq<Item>)
    ensures |r| == |xs| && forall i :: 0 <= i < |xs| ==> r[i] == Item("", DocOf(xs[i]), "")
    decreases xs
  {
    if xs == [] then [] else [Item("", DocOf(xs[0]), "")] + ItemsOf(xs[1..])
  }

  // ------------------------------------------------------------- it is well spelled

  lemma RawsProper(s: string)
    requires Plain(s)
    ensures AllProper(Raws(s)) && AllEscaping(Raws(s))
  {
  }

  lemma {:induction false} DocOfIsStandard(t: Tree)
    requires Good(t)
    ensures WellSpelled(DocOf(t)) && Standard(DocOf(t))
    decreases t
  {
    hide AllProper, AllEscaping, Raws, Plain;
    match t
    case Leaf(str, value, data) =>
      RawsProper(str);
      RawsProper("unsupported") by { UnsupportedPlain(); }
    case Obj(fields) =>
      forall i | 0 <= i < |fields|
        ensures var x := EntriesOf(fields)[i]; AllProper(x.name) && AllEscaping(x.name) && WellSpelled(x.doc) && Standard(x.doc)
      {
        RawsProper(fields[i].name);
        DocOfIsStandard(fields[i].tree);
      }
    case Arr(items) =>
      forall i | 0 <= i < |items|
        ensures WellSpelled(ItemsOf(items)[i].doc) && Standard(ItemsOf(items)[i].doc)
      {
        DocOfIsStandard(items[i]);
      }
  }

  lemma UnsupportedPlain()
    ensures Plain("unsupported")
  {
  }

  // ------------------------------------------------------------- its text is the text written

  lemma {:induction false} RawsText(s: string, tail: string)
    ensures BodyThen(Raws(s), tail) == s + tail
  {
    if s == [] {
      assert s + tail == tail;
    } else {
      RawsText(s[1..], tail);
      assert Raws(s)[1..] == Raws(s[1..]);
      assert s == [s[0]] + s[1..];
      Regroup([s[0]], s[1..], tail);
    }
  }

  lemma QuotedText(s: string, tail: string)
    ensures StringThen(Raws(s), tail) == Quoted(s) + tail
  {
    hide BodyThen, Raws;
    RawsText(s, "\"" + tail);
    assert "\"" + (s + ("\"" + tail)) == ("\"" + s + "\"") + tail;
  }

  lemma LeafText(str: string, value: int, data: Data, tail: string)
    requires WellSpelled(LeafDoc(str, value, data))
    ensures DocThen(LeafDoc(str, value, data), tail) == ValueText(str, value, data) + tail
  {
    hide StringThen, NumberThen, JsonText.IntText, JsonText.NatText, DigitsOf, Raws;
    match data
    case STR => QuotedText(str, tail);
    case INT => IntegerText(ToInt32(value), tail);
    case UINT => UnsignedText(ToUint(value, 0x1_0000_0000), tail);
    case UINT64 => UnsignedText(ToUint(value, 0x1_0000_0000_0000_0000), tail);
    case FLOAT => QuotedText("unsupported", tail);
    case BOOL =>
  }

  lemma UnsignedText(n: nat, tail: string)
    ensures DocThen(IntegerDoc(n), tail) == JsonText.NatText(n) + tail
  {
    IntegerText(n, tail);
  }

  /** The text of the document is the text of the tree. */
  lemma {:induction false} TreeTextIs(t: Tree, tail: string)
    requires WellSpelled(DocOf(t))
    ensures DocThen(DocOf(t), tail) == TreeText(t) + tail
    decreases t
  {
    hide LeafDoc, ValueText, FieldsText, ItemsText, EntriesThen, ItemsThen, EntriesOf, ItemsOf, StringThen, NumberThen;
    match t
    case Leaf(str, value, data) => LeafText(str, value, data, tail);
    case Obj(fields) =>
      FieldsTextIs(fields, "}" + tail);
      var inner := FieldsText(fields, false);
      assert "" + (inner + ("}" + tail)) == inner + ("}" + tail);
      Regroup(inner, "}", tail);
      Regroup("{", inner + "}", tail);
    case Arr(items) =>
      ItemsTextIs(items, "]" + tail);
      var inner := ItemsText(items, false);
      assert "" + (inner + ("]" + tail)) == inner + ("]" + tail);
      Regroup(inner, "]", tail);
      Regroup("[", inner + "]", tail);
  }

  lemma {:induction false} FieldsTextIs(fs: seq<Field>, tail: string)
    requires EntriesSpelled(EntriesOf(fs))
    ensures EntriesThen(EntriesOf(fs), tail) == FieldsText(fs, false) + tail
    ensures fs != [] ==> FieldsText(fs, true) == "," + FieldsText(fs, false)
    decreases fs
  {
    hide TreeText, DocThen, StringThen, Raws, Quoted;
    if fs == [] {
      Unspaced(tail);
    } else {
      var es, rest := EntriesOf(fs), FieldsText(fs[1..], true);
      assert es[1..] == EntriesOf(fs[1..]);
      FieldsTextIs(fs[1..], tail);
      Unspaced(FieldText(fs[0]) + rest);
      var after := EntriesRest(es, tail);
      if |fs| > 1 {
        Regroup(",", FieldsText(fs[1..], false), tail);
      } else {
        assert fs[1..] == [];
        Unspaced(tail);
      }
      assert after == rest + tail;
      FieldTextIs(fs[0], after);
      Regroup(FieldText(fs[0]), rest, tail);
    }
  }

  lemma FieldTextIs(f: Field, rest: string)
    requires WellSpelled(DocOf(f.tree))
    ensures EntryThen(Entry("", Raws(f.name), "", "", DocOf(f.tree), ""), rest) == FieldText(f) + rest
    decreases f
  {
    hide TreeText, DocThen, StringThen, Raws, Quoted, DocOf;
    var v := TreeText(f.tree);
    TreeTextIs(f.tree, "" + rest);
    Unspaced(rest);
    Unspaced(v + rest);
    Unspaced(":" + (v + rest));
    QuotedText(f.name, ":" + (v + rest));
    Unspaced(Quoted(f.name) + (":" + (v + rest)));
    Regroup(":", v, rest);
    Regroup(Quoted(f.name), ":" + v, rest);
  }

  lemma {:induction false} ItemsTextIs(xs: seq<Tree>, tail: string)
    requires ItemsSpelled(ItemsOf(xs))
    ensures ItemsThen(ItemsOf(xs), tail) == ItemsText(xs, false) + tail
    ensures xs != [] ==> ItemsText(xs, true) == "," + ItemsText(xs, false)
    decreases xs
  {
    hide TreeText, DocThen;
    if xs == [] {
      Unspaced(tail);
    } else {
      var items, rest := ItemsOf(xs), ItemsText(xs[1..], true);
      assert items[1..] == ItemsOf(xs[1..]);
      ItemsTextIs(xs[1..], tail);
      Unspaced(TreeText(xs[0]) + rest);
      var after := ItemsRest(items, tail);
      if |xs| > 1 {
        Regroup(",", ItemsText(xs[1..], false), tail);
      } else {
        assert xs[1..] == [];
        Unspaced(tail);
      }
      assert after == rest + tail;
      TreeTextIs(xs[0], "" + after);
      Unspaced(after);
      Unspaced(TreeText(xs[0]) + after);
      Regroup(TreeText(xs[0]), rest, tail);
    }
  }

  // ------------------------------------------------------------- what was meant

  /** The value of a tree as the arguments of the calls say it. */
  function JsonOf(t: Tree): JsonText.Json
    decreases t
  {
    match t
    case Leaf(str, value, data) =>
      (match data
       case STR => JsonText.Str(str)
       case INT => JsonText.Number(ToInt32(value) as real)
       case UINT => JsonText.Number(ToUint(value, 0x1_0000_0000) as real)
       case UINT64 => JsonText.Number(ToUint(value, 0x1_0000_0000_0000_0000) as real)
       case FLOAT => JsonText.Str("unsupported")
       case BOOL => if value == 1 then JsonText.True else JsonText.False)
    case Obj(fields) =>
      JsonText.Obj(seq(|fields|, i requires 0 <= i < |fields| => JsonText.Member(fields[i].name, JsonOf(fields[i].tree))))
    case Arr(items) => JsonText.Arr(seq(|items|, i requires 0 <= i < |items| => JsonOf(items[i])))
  }

  lemma {:induction false} RawsMean(s: string)
    requires AllProper(Raws(s))
    ensures StringMeaning(Raws(s)) == s
  {
    if s != [] {
      assert Raws(s)[1..] == Raws(s[1..]);
      RawsMean(s[1..]);
      assert s == [s[0]] + s[1..];
    }
  }

  lemma {:induction false} TreeMeans(t: Tree)
    requires WellSpelled(DocOf(t))
    ensures Meaning(DocOf(t)) == JsonOf(t)
    decreases t
  {
    hide StringMeaning, NumberMeaning, Raws, DigitsOf;
    match t
    case Leaf(str, value, data) =>
      LeafMeans(str, value, data);
    case Obj(fields) =>
      var es := EntriesOf(fields);
      forall i | 0 <= i < |fields|
        ensures EntriesMeaning(es)[i] == JsonText.Member(fields[i].name, JsonOf(fields[i].tree))
      {
        RawsMean(fields[i].name);
        TreeMeans(fields[i].tree);
      }
    case Arr(items) =>
      var xs := ItemsOf(items);
      forall i | 0 <= i < |items|
        ensures ItemsMeaning(xs)[i] == JsonOf(items[i])
      {
        TreeMeans(items[i]);
      }
  }

  lemma LeafMeans(str: string, value: int, data: Data)
    requires WellSpelled(LeafDoc(str, value, data))
    ensures Meaning(LeafDoc(str, value, data)) == JsonOf(Leaf(str, value, data))
  {
    hide StringMeaning, NumberMeaning, Raws, DigitsOf, ToInt32, ToUint;
    match data
    case STR => RawsMean(str);
    case INT => IntegerMeans(ToInt32(value));
    case UINT => IntegerMeans(ToUint(value, 0x1_0000_0000));
    case UINT64 => IntegerMeans(ToUint(value, 0x1_0000_0000_0000_0000));
    case FLOAT => RawsMean("unsupported");
    case BOOL =>
  }

  // ------------------------------------------------------------- both readers

  /** jsmn accepts a generated document with the tokens of its tree. */
  lemma DocumentAccepted(fields: seq<Field>, len: nat, num: nat)
    requires Good(Tree.Obj(fields)) && |TreeText(Tree.Obj(fields))| <= len
    ensures WellSpelled(DocOf(Tree.Obj(fields)))
    ensures var js, toks := TreeText(Tree.Obj(fields)), SpellingTokens.DocTokens(DocOf(Tree.Obj(fields)), 0, -1, 0);
            |toks| <= num ==> Run(js, len, num, St(0, -1, [])) == End(St(|js|, -1, toks), 0, |toks|)
  {
    hide Run, SpellingTokens.DocTokens, TreeText, WellSpelled, Standard, DocThen, Good, EntriesOf;
    var t := Tree.Obj(fields);
    DocOfIsStandard(t);
    TreeTextIs(t, "");
    Unspaced(TreeText(t));
    SpellingTokens.EmptyBlank();
    if |SpellingTokens.DocTokens(DocOf(t), 0, -1, 0)| <= num {
      SpellingTokens.StandardIsTokenized("", DocOf(t), "", len, num);
    }
  }

  /** cJSON reads a generated document as the tree that was meant. */
  lemma DocumentParsed(fields: seq<Field>, whole: bool)
    requires Good(Tree.Obj(fields))
    ensures JsonText.ParseWithOpts(TreeText(Tree.Obj(fields)), whole) == JsonText.Done(JsonOf(Tree.Obj(fields)), "")
  {
    hide TreeText, WellSpelled, Standard, DocThen, Good, JsonText.ParseWithOpts, Meaning, JsonOf, EntriesOf;
    var t := Tree.Obj(fields);
    DocOfIsStandard(t);
    TreeTextIs(t, "");
    TreeMeans(t);
    Unspaced(TreeText(t));
    SpellingTokens.EmptyBlank();
    SpellingParsed.StandardIsParsed("", DocOf(t), "", whole);
  }

  /** From the writer to the readers: a document closed with success in a buffer of size bytes holds
      a text that jsmn accepts with the tokens of its tree, and that cJSON reads as the tree. */
  lemma BufferAccepted(fields: seq<Field>, size: nat, len: nat, num: nat)
    requires Good(Tree.Obj(fields)) && 2 <= size <= len
    ensures WellSpelled(DocOf(Tree.Obj(fields)))
    ensures WriteReady(DocumentOps(fields), size, "") && ReadyIn(CloseObject, size, WriteAll(DocumentOps(fields), size, ""))
    ensures var w := Write(CloseObject, size, WriteAll(DocumentOps(fields), size, ""));
            var toks := SpellingTokens.DocTokens(DocOf(Tree.Obj(fields)), 0, -1, 0);
            w.1 == 0 ==>
              && (|toks| <= num ==> Run(w.0, len, num, St(0, -1, [])) == End(St(|w.0|, -1, toks), 0, |toks|))
              && JsonText.ParseWithOpts(w.0, true) == JsonText.Done(JsonOf(Tree.Obj(fields)), "")
  {
    hide Run, SpellingTokens.DocTokens, Good, Ordered, Write, WriteAll, WriteReady, TreeText, DocumentOps, WellSpelled, JsonOf;
    DocOfIsStandard(Tree.Obj(fields));
    GoodIsOrdered(Tree.Obj(fields));
    DocumentComplete(fields, size);
    var w := Write(CloseObject, size, WriteAll(DocumentOps(fields), size, ""));
    if w.1 == 0 {
      DocumentAccepted(fields, len, num);
      DocumentParsed(fields, true);
    }
  }
}
