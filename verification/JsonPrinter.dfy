/** print_value, print_array and print_object: a first pass collects the texts of the children
    and adds up a length, a second pass writes into a buffer of exactly that length. */
module JsonPrinter {
  import opened Base
  import opened JsonText
  import opened JsonRoundTrip
  import opened JsonHeap
  import opened JsonParser
  import JsonScanner

  /** The buffer holds s as a C string. */
  ghost predicate Holds(out: array<char>, s: string)
    reads out
  {
    |s| < out.Length && out[..|s|] == s && out[|s|] == '\0' && NulFree(s)
  }

  // ---------------------------------------------------------------- what can be printed

  /** Strings and member names are there, and numbers are 32-bit integers. */
  predicate Complete(im: Image) {
    && (im.kind == KNumber ==> IsInt32(im.valuedouble))
    && (im.kind == KString ==> im.valuestring.Some?)
    && (im.kind == KArray || im.kind == KObject ==> forall i :: 0 <= i < |im.kids| ==> Complete(im.kids[i]))
    && (im.kind == KObject ==> forall i :: 0 <= i < |im.kids| ==> im.kids[i].name.Some?)
  }

  lemma {:induction false} CompleteIsIntegral(im: Image)
    requires Complete(im)
    ensures Integral(ValueOf(im))
  {
    if im.kind == KArray || im.kind == KObject {
      forall i | 0 <= i < |im.kids|
        ensures Integral(ValueOf(im.kids[i]))
      {
        CompleteIsIntegral(im.kids[i]);
      }
    }
  }

  lemma NulFreeJoin(s: string, t: string)
    requires NulFree(s) && NulFree(t)
    ensures NulFree(s + t)
  {
  }

  lemma {:induction false} EscapedNulFree(s: string)
    ensures NulFree(Escaped(s))
  {
    if s != [] {
      EscapedNulFree(s[1..]);
      assert NulFree(EscapeChar(s[0]));
    }
  }

  lemma StringTextNulFree(s: string)
    ensures NulFree(StringText(s))
  {
    EscapedNulFree(s);
  }

  lemma IfNulFree(b: bool, s: string)
    requires NulFree(s)
    ensures NulFree(If(b, s))
  {
  }

  /** Every printed text is a C string: escaping keeps the terminator out of it. */
  lemma {:induction false} PrintNulFree(v: Json, depth: nat, fmt: bool)
    requires Integral(v)
    ensures NulFree(Print(v, depth, fmt))
    decreases v, 1
  {
    hide StringText, NatText, ItemsText, MembersText;
    match v
    case Number(d) => NatTextNulFree(if d.Floor < 0 then -d.Floor else d.Floor);
    case Str(s) => StringTextNulFree(s);
    case Arr(items) => ItemsNulFree(items, depth + 1, fmt);
    case Obj(members) => ObjectNulFree(members, depth, fmt);
    case _ =>
  }

  lemma {:induction false} ObjectNulFree(members: seq<Member>, depth: nat, fmt: bool)
    requires forall i :: 0 <= i < |members| ==> Integral(members[i].value)
    ensures NulFree(Print(Obj(members), depth, fmt))
    decreases members, 1
  {
    hide NulFree, MembersText, If;
    if members == [] {
      var indent := Tabs(if depth == 0 then 0 else depth - 1);
      assert NulFree("{") && NulFree("\n") && NulFree("}") && NulFree(indent) by { SmallNulFree(indent); }
      NulFreeJoin("\n", indent);
      IfNulFree(fmt, "\n" + indent);
      NulFreeJoin("{", If(fmt, "\n" + indent));
      NulFreeJoin("{" + If(fmt, "\n" + indent), "}");
    } else {
      MembersNulFree(members, depth + 1, fmt);
      SmallNulFree(Tabs(depth));
      IfNulFree(fmt, "\n");
      IfNulFree(fmt, Tabs(depth));
      var all := MembersText(members, depth + 1, fmt);
      NulFreeJoin("{", If(fmt, "\n"));
      NulFreeJoin("{" + If(fmt, "\n"), all);
      NulFreeJoin("{" + If(fmt, "\n") + all, If(fmt, Tabs(depth)));
      NulFreeJoin("{" + If(fmt, "\n") + all + If(fmt, Tabs(depth)), "}");
    }
  }

  lemma SmallNulFree(indent: string)
    requires forall i :: 0 <= i < |indent| ==> indent[i] == '\t'
    ensures NulFree("{") && NulFree("\n") && NulFree("}") && NulFree(indent)
    ensures NulFree(",") && NulFree(":") && NulFree("\t") && NulFree(" ")
  {
  }

  lemma {:induction false} ItemsNulFree(items: seq<Json>, depth: nat, fmt: bool)
    requires forall i :: 0 <= i < |items| ==> Integral(items[i])
    ensures NulFree(ItemsText(items, depth, fmt))
    decreases items
  {
    hide Print;
    if items != [] {
      PrintNulFree(items[0], depth, fmt);
      ItemsNulFree(items[1..], depth, fmt);
    }
  }

  lemma {:induction false} MembersNulFree(members: seq<Member>, depth: nat, fmt: bool)
    requires forall i :: 0 <= i < |members| ==> Integral(members[i].value)
    ensures NulFree(MembersText(members, depth, fmt))
    decreases members, 0
  {
    hide Print, StringText;
    if members != [] {
      var rest := MembersText(members[1..], depth, fmt);
      StringTextNulFree(members[0].name);
      PrintNulFree(members[0].value, depth, fmt);
      MembersNulFree(members[1..], depth, fmt);
      LineNulFree(StringText(members[0].name), Print(members[0].value, depth, fmt), rest, |members| > 1, depth, fmt);
    } else {
      assert NulFree("");
    }
  }

  lemma LineNulFree(name: string, text: string, rest: string, more: bool, depth: nat, fmt: bool)
    requires NulFree(name) && NulFree(text) && NulFree(rest)
    ensures NulFree(If(fmt, Tabs(depth)) + (name + (":" + (If(fmt, "\t") + (text + (If(more, ",") + (If(fmt, "\n") + rest)))))))
  {
    hide NulFree, If;
    SmallNulFree(Tabs(depth));
    IfNulFree(fmt, Tabs(depth));
    IfNulFree(fmt, "\t");
    IfNulFree(more, ",");
    IfNulFree(fmt, "\n");
    var t5 := If(fmt, "\n") + rest;
    NulFreeJoin(If(fmt, "\n"), rest);
    var t4 := If(more, ",") + t5;
    NulFreeJoin(If(more, ","), t5);
    var t3 := text + t4;
    NulFreeJoin(text, t4);
    var t2 := If(fmt, "\t") + t3;
    NulFreeJoin(If(fmt, "\t"), t3);
    var t1 := ":" + t2;
    NulFreeJoin(":", t2);
    NulFreeJoin(name, t1);
    NulFreeJoin(If(fmt, Tabs(depth)), name + t1);
  }

  // ---------------------------------------------------------------- writing texts

  /** strcpy */
  method CopyText(out: array<char>, ptr: nat, s: string) returns (end: nat)
    requires ptr + |s| < out.Length
    modifies out
    ensures end == ptr + |s| && out[..end] == old(out[..ptr]) + s && out[end] == '\0'
  {
    var i := 0;
    while i < |s|
      invariant i <= |s| && out[..ptr + i] == old(out[..ptr]) + s[..i]
    {
      out[ptr + i] := s[i];
      i := i + 1;
      assert s[..i] == s[..i - 1] + [s[i - 1]];
    }
    assert s[..i] == s;
    out[ptr + i] := '\0';
    end := ptr + i;
    assert out[..end] == old(out[..ptr]) + s;
  }

  method PutTabs(out: array<char>, ptr: nat, n: int) returns (end: nat)
    requires ptr + (if n > 0 then n else 0) <= out.Length
    modifies out
    ensures end == ptr + (if n > 0 then n else 0)
    ensures out[..end] == old(out[..ptr]) + Tabs(if n > 0 then n else 0)
  {
    var j := 0;
    end := ptr;
    while j < n
      invariant 0 <= j && (j <= n || j == 0) && end == ptr + j && end <= out.Length
      invariant out[..end] == old(out[..ptr]) + Tabs(j)
    {
      out[end] := '\t';
      end := end + 1;
      j := j + 1;
      assert out[..end] == out[..end - 1] + "\t";
      Regroup(old(out[..ptr]), Tabs(j - 1), "\t");
    }
  }

  /** strlen, and the characters before the terminator. */
  method TextOf(out: array<char>, ghost s: string) returns (t: string)
    requires Holds(out, s)
    ensures t == s
  {
    assert forall k :: 0 <= k < |s| ==> out[k] == out[..|s|][k] != '\0';
    var n := 0;
    while out[n] != '\0'
      invariant n <= |s|
      decreases |s| - n
    {
      n := n + 1;
    }
    t := out[..n];
  }

  method Literal(s: string) returns (out: array<char>)
    requires NulFree(s)
    ensures fresh(out) && Holds(out, s)
  {
    out := new char[|s| + 1];
    var end := CopyText(out, 0, s);
    assert out[..0] == [];
  }

  // ---------------------------------------------------------------- numbers

  lemma {:induction false} NatTextWidth(n: nat, digits: nat)
    requires n < Power(digits) && digits > 0
    ensures |NatText(n)| <= digits
  {
    if n >= 10 {
      NatTextWidth(n / 10, digits - 1);
    }
  }

  function Power(k: nat): nat {
    if k == 0 then 1 else 10 * Power(k - 1)
  }

  /** print_number on the %d branch: 21 characters are enough. */
  lemma IntTextFits(n: int)
    requires -0x8000_0000 <= n <= 0x7FFF_FFFF
    ensures |IntText(n)| < 21 && NulFree(IntText(n))
  {
    assert Power(10) == 100000 * Power(5);
    NatTextWidth(if n < 0 then -n else n, 10);
    NatTextNulFree(if n < 0 then -n else n);
  }

  method PrintNumber(item: Node) returns (out: array<char>)
    requires IsInt32(item.valuedouble) && Agree(item.valueint, item.valuedouble)
    ensures fresh(out) && out.Length == 21 && Holds(out, IntText(item.valuedouble.Floor))
  {
    // The guard of the %d branch; the branches for other numbers are not part of this model.
    assert item.valueint as real == item.valuedouble;
    IntTextFits(item.valueint);
    out := new char[21];
    var end := CopyText(out, 0, IntText(item.valueint));
    assert out[..0] == [];
  }

  method PrintString(str: string) returns (out: array<char>)
    ensures fresh(out) && Holds(out, StringText(str))
  {
    hide Escaped, StringText;
    out := JsonScanner.PrintStringPtr(Some(str));
    StringTextNulFree(str);
    var s := StringText(str);
    assert out[|s|] == out[..][|s|] && out[..|s|] == out[..][..|s|];
  }

  // ---------------------------------------------------------------- arrays

  /** What the first pass of print_array adds up. */
  function ArraySum(texts: seq<string>, fmt: bool): nat {
    if texts == [] then 0 else ArraySum(Front(texts), fmt) + |Last(texts)| + 2 + (if fmt then 1 else 0)
  }

  lemma {:induction false} ArraySumGrows(texts: seq<string>, k: nat, fmt: bool)
    requires k < |texts|
    ensures ArraySum(texts[..k + 1], fmt) == ArraySum(texts[..k], fmt) + |texts[k]| + 2 + (if fmt then 1 else 0)
    ensures ArraySum(texts[..k + 1], fmt) <= ArraySum(texts, fmt)
    decreases |texts| - k
  {
    assert Front(texts[..k + 1]) == texts[..k];
    if k + 1 < |texts| {
      ArraySumGrows(texts, k + 1, fmt);
      assert Front(texts[..k + 2]) == texts[..k + 1];
    } else {
      assert texts[..k + 1] == texts;
    }
  }

  /** The texts the entries of an array stand for. */
  ghost predicate TextsOf(texts: seq<string>, items: seq<Json>, depth: nat, fmt: bool) {
    && |texts| == |items|
    && forall i :: 0 <= i < |items| ==> Integral(items[i]) && texts[i] == Print(items[i], depth, fmt)
  }

  lemma ItemsTextStep(texts: seq<string>, items: seq<Json>, k: nat, depth: nat, fmt: bool)
    requires TextsOf(texts, items, depth, fmt) && k < |items|
    ensures ItemsText(items[k..], depth, fmt) ==
            if k == |items| - 1 then texts[k] else texts[k] + ("," + (If(fmt, " ") + ItemsText(items[k + 1..], depth, fmt)))
  {
    assert items[k..][1..] == items[k + 1..];
    if k < |items| - 1 {
      Regroup(texts[k], ",", If(fmt, " "));
      Regroup(texts[k], "," + If(fmt, " "), ItemsText(items[k + 1..], depth, fmt));
      Regroup(",", If(fmt, " "), ItemsText(items[k + 1..], depth, fmt));
    }
  }

  /** The second pass of print_array, within the length of the first. */
  method ComposeArray(entries: seq<string>, fmt: bool, len: nat, ghost items: seq<Json>, ghost depth: nat)
    returns (out: array<char>)
    requires TextsOf(entries, items, depth, fmt) && entries != [] && len == 5 + ArraySum(entries, fmt)
    ensures fresh(out) && out.Length == len
    ensures var s := "[" + (ItemsText(items, depth, fmt) + "]");
            |s| < out.Length && out[..|s|] == s && out[|s|] == '\0'
  {
    hide ItemsText, TextsOf, ArraySum;
    var n := |entries|;
    out := new char[len];
    out[0] := '[';
    var ptr := 1;
    out[ptr] := '\0';
    TextsCount(entries, items, depth, fmt);
    ghost var all := ItemsText(items, depth, fmt);
    assert items[0..] == items && out[..1] == "[";
    SumOfNone(entries, fmt);
    var i := 0;
    while i < n
      invariant i <= n && 1 <= ptr && ptr + 4 <= len
      invariant ptr <= 1 + ArraySum(entries[..i], fmt)
      invariant i < n ==> out[..ptr] + ItemsText(items[i..], depth, fmt) == "[" + all
      invariant i == n ==> out[..ptr] == "[" + all
    {
      ArraySumGrows(entries, i, fmt);
      ItemsTextStep(entries, items, i, depth, fmt);
      ghost var before := out[..ptr];
      ptr := WriteEntry(out, ptr, entries[i], fmt, i == n - 1);
      if i < n - 1 {
        ghost var rest := ItemsText(items[i + 1..], depth, fmt);
        RegroupEntry(before, entries[i], If(fmt, " "), rest);
      }
      i := i + 1;
    }
    out[ptr] := ']';
    ptr := ptr + 1;
    out[ptr] := '\0';
    Regroup("[", all, "]");
    assert out[..ptr] == out[..ptr - 1] + "]";
  }

  lemma SumOfNone(texts: seq<string>, fmt: bool)
    ensures ArraySum(texts[..0], fmt) == 0
  {
  }

  lemma TextsCount(texts: seq<string>, items: seq<Json>, depth: nat, fmt: bool)
    requires TextsOf(texts, items, depth, fmt)
    ensures |texts| == |items|
    ensures forall i :: 0 <= i < |items| ==> Integral(items[i])
  {
  }

  lemma RegroupEntry(a: string, t: string, blank: string, rest: string)
    ensures a + (t + ("," + (blank + rest))) == (a + (t + ("," + blank))) + rest
  {
  }

  method WriteEntry(out: array<char>, at: nat, text: string, fmt: bool, last: bool) returns (ptr: nat)
    requires at + |text| + 2 + (if fmt then 1 else 0) < out.Length
    modifies out
    ensures ptr == at + |text| + (if last then 0 else 1 + (if fmt then 1 else 0))
    ensures out[..ptr] == old(out[..at]) + if last then text else text + ("," + If(fmt, " "))
  {
    ptr := CopyText(out, at, text);
    if !last {
      out[ptr] := ',';
      ptr := ptr + 1;
      assert out[..ptr] == old(out[..at]) + text + ",";
      if fmt {
        out[ptr] := ' ';
        ptr := ptr + 1;
        assert out[..ptr] == old(out[..at]) + text + "," + " ";
      }
      out[ptr] := '\0';
    }
  }

  /** The length of the first pass covers what the second writes and its terminator. */
  lemma {:induction false} ArrayRoom(texts: seq<string>, items: seq<Json>, depth: nat, fmt: bool)
    requires TextsOf(texts, items, depth, fmt) && items != []
    ensures |ItemsText(items, depth, fmt)| == ArraySum(texts, fmt) - |items| - (if fmt then 1 else 0) - 1
  {
    ItemsRoom(texts, items, 0, depth, fmt);
    assert items[0..] == items && texts[..0] == [];
  }

  lemma {:induction false} ItemsRoom(texts: seq<string>, items: seq<Json>, k: nat, depth: nat, fmt: bool)
    requires TextsOf(texts, items, depth, fmt) && k < |items|
    ensures |ItemsText(items[k..], depth, fmt)| + (|items| - k) + (if fmt then 1 else 0) + 1
            == ArraySum(texts, fmt) - ArraySum(texts[..k], fmt)
    decreases |items| - k
  {
    ItemsTextStep(texts, items, k, depth, fmt);
    ArraySumGrows(texts, k, fmt);
    if k + 1 < |items| {
      ItemsRoom(texts, items, k + 1, depth, fmt);
    } else {
      assert texts[..k + 1] == texts;
    }
  }

  // ---------------------------------------------------------------- objects

  /** What the first pass of print_object adds up. */
  function ObjectSum(names: seq<string>, texts: seq<string>, depth: nat, fmt: bool): nat
    requires |names| == |texts|
  {
    if texts == [] then 0
    else ObjectSum(Front(names), Front(texts), depth, fmt) + |Last(texts)| + |Last(names)| + 2 + (if fmt then 2 + depth else 0)
  }

  lemma {:induction false} ObjectSumGrows(names: seq<string>, texts: seq<string>, k: nat, depth: nat, fmt: bool)
    requires k < |texts| == |names|
    ensures ObjectSum(names[..k + 1], texts[..k + 1], depth, fmt)
            == ObjectSum(names[..k], texts[..k], depth, fmt) + |texts[k]| + |names[k]| + 2 + (if fmt then 2 + depth else 0)
    ensures ObjectSum(names[..k + 1], texts[..k + 1], depth, fmt) <= ObjectSum(names, texts, depth, fmt)
    decreases |texts| - k
  {
    assert Front(texts[..k + 1]) == texts[..k] && Front(names[..k + 1]) == names[..k];
    if k + 1 < |texts| {
      ObjectSumGrows(names, texts, k + 1, depth, fmt);
      assert Front(texts[..k + 2]) == texts[..k + 1] && Front(names[..k + 2]) == names[..k + 1];
    } else {
      assert texts[..k + 1] == texts && names[..k + 1] == names;
    }
  }

  ghost predicate LinesOf(names: seq<string>, texts: seq<string>, members: seq<Member>, depth: nat, fmt: bool) {
    && |names| == |texts| == |members|
    && forall i :: 0 <= i < |members| ==> Integral(members[i].value)
                                          && names[i] == StringText(members[i].name)
                                          && texts[i] == Print(members[i].value, depth, fmt)
  }

  lemma LinesCount(names: seq<string>, texts: seq<string>, members: seq<Member>, depth: nat, fmt: bool)
    requires LinesOf(names, texts, members, depth, fmt)
    ensures |names| == |texts| == |members|
    ensures forall i :: 0 <= i < |members| ==> Integral(members[i].value)
    ensures ObjectSum(names[..0], texts[..0], depth, fmt) == 0
  {
  }

  /** One line of an object. */
  function Line(name: string, text: string, more: bool, depth: nat, fmt: bool): string {
    If(fmt, Tabs(depth)) + (name + (":" + (If(fmt, "\t") + (text + (If(more, ",") + If(fmt, "\n"))))))
  }

  lemma MembersTextStep(names: seq<string>, texts: seq<string>, members: seq<Member>, k: nat, depth: nat, fmt: bool)
    requires LinesOf(names, texts, members, depth, fmt) && k < |members|
    ensures MembersText(members[k..], depth, fmt)
            == Line(names[k], texts[k], k + 1 < |members|, depth, fmt) + MembersText(members[k + 1..], depth, fmt)
  {
    assert members[k..][1..] == members[k + 1..] && members[k..][0] == members[k];
    RegroupLine(If(fmt, Tabs(depth)), names[k], If(fmt, "\t"), texts[k], If(k + 1 < |members|, ","), If(fmt, "\n"),
                MembersText(members[k + 1..], depth, fmt));
  }

  lemma RegroupLine(tabs: string, name: string, tab: string, text: string, comma: string, line: string, rest: string)
    ensures tabs + (name + (":" + (tab + (text + (comma + (line + rest))))))
            == (tabs + (name + (":" + (tab + (text + (comma + line)))))) + rest
  {
    Regroup(comma, line, rest);
    Regroup(text, comma + line, rest);
    Regroup(tab, text + (comma + line), rest);
    Regroup(":", tab + (text + (comma + line)), rest);
    Regroup(name, ":" + (tab + (text + (comma + line))), rest);
    Regroup(tabs, name + (":" + (tab + (text + (comma + line)))), rest);
  }

  method WriteLine(out: array<char>, at: nat, name: string, text: string, more: bool, depth: nat, fmt: bool)
    returns (ptr: nat)
    requires at + |name| + |text| + 2 + (if fmt then 2 + depth else 0) < out.Length
    modifies out
    ensures ptr == at + |Line(name, text, more, depth, fmt)| < out.Length
    ensures out[..ptr] == old(out[..at]) + Line(name, text, more, depth, fmt)
  {
    hide Line;
    ghost var before := out[..at];
    ptr := at;
    if fmt { ptr := PutTabs(out, ptr, depth); }
    assert out[..ptr] == before + If(fmt, Tabs(depth));
    ptr := CopyText(out, ptr, name);
    ptr := PutIf(out, ptr, true, ':');
    ptr := PutIf(out, ptr, fmt, '\t');
    ptr := CopyText(out, ptr, text);
    ptr := PutIf(out, ptr, more, ',');
    ptr := PutIf(out, ptr, fmt, '\n');
    out[ptr] := '\0';
    LineFromLeft(before, name, text, more, depth, fmt);
    assert |out[..ptr]| == ptr;
  }

  method PutIf(out: array<char>, at: nat, b: bool, c: char) returns (ptr: nat)
    requires at + (if b then 1 else 0) <= out.Length
    modifies out
    ensures ptr == at + (if b then 1 else 0) && out[..ptr] == old(out[..at]) + If(b, [c])
  {
    ptr := at;
    if b {
      out[ptr] := c;
      ptr := ptr + 1;
    }
  }

  lemma LineFromLeft(before: string, name: string, text: string, more: bool, depth: nat, fmt: bool)
    ensures before + If(fmt, Tabs(depth)) + name + If(true, ":") + If(fmt, "\t") + text + If(more, ",") + If(fmt, "\n")
            == before + Line(name, text, more, depth, fmt)
  {
    var tabs, tab, comma, line := If(fmt, Tabs(depth)), If(fmt, "\t"), If(more, ","), If(fmt, "\n");
    RegroupLeft(before, tabs, name, ":", tab, text, comma, line);
  }

  lemma RegroupLeft(a: string, b: string, c: string, d: string, e: string, f: string, g: string, h: string)
    ensures a + b + c + d + e + f + g + h == a + (b + (c + (d + (e + (f + (g + h))))))
  {
    Regroup(a + b + c + d + e + f, g, h);
    Regroup(a + b + c + d + e, f, g + h);
    Regroup(a + b + c + d, e, f + (g + h));
    Regroup(a + b + c, d, e + (f + (g + h)));
    Regroup(a + b, c, d + (e + (f + (g + h))));
    Regroup(a, b, c + (d + (e + (f + (g + h)))));
  }

  /** The second pass of print_object, within the length of the first. */
  method ComposeObject(names: seq<string>, entries: seq<string>, depth: nat, fmt: bool, len: nat, ghost members: seq<Member>)
    returns (out: array<char>)
    requires LinesOf(names, entries, members, depth, fmt) && depth > 0
    requires len == 7 + (if fmt then depth else 0) + ObjectSum(names, entries, depth, fmt)
    ensures fresh(out) && out.Length == len
    ensures var s := "{" + If(fmt, "\n") + MembersText(members, depth, fmt) + If(fmt, Tabs(depth - 1)) + "}";
            |s| < out.Length && out[..|s|] == s && out[|s|] == '\0'
  {
    hide MembersText, LinesOf, ObjectSum, Line;
    LinesCount(names, entries, members, depth, fmt);
    var n := |entries|;
    out := new char[len];
    out[0] := '{';
    assert out[..1] == "{";
    var ptr: nat := PutIf(out, 1, fmt, '\n');
    out[ptr] := '\0';
    ghost var head, all := out[..ptr], MembersText(members, depth, fmt);
    assert members[0..] == members;
    var i := 0;
    while i < n
      invariant i <= n
      invariant ptr <= 2 + ObjectSum(names[..i], entries[..i], depth, fmt)
      invariant ObjectSum(names[..i], entries[..i], depth, fmt) <= ObjectSum(names, entries, depth, fmt)
      invariant out[..ptr] + MembersText(members[i..], depth, fmt) == head + all
    {
      ObjectSumGrows(names, entries, i, depth, fmt);
      MembersTextStep(names, entries, members, i, depth, fmt);
      LineLength(names[i], entries[i], i + 1 < n, depth, fmt);
      ghost var before := out[..ptr];
      ptr := WriteLine(out, ptr, names[i], entries[i], i != n - 1, depth, fmt);
      Regroup(before, Line(names[i], entries[i], i + 1 < n, depth, fmt), MembersText(members[i + 1..], depth, fmt));
      i := i + 1;
    }
    NoMembers(members, depth, fmt);
    assert out[..ptr] == head + all;
    if fmt { ptr := PutTabs(out, ptr, depth - 1); }
    assert out[..ptr] == head + all + If(fmt, Tabs(depth - 1));
    ptr := PutIf(out, ptr, true, '}');
    out[ptr] := '\0';
  }

  lemma NoMembers(members: seq<Member>, depth: nat, fmt: bool)
    ensures MembersText(members[|members|..], depth, fmt) == ""
  {
  }

  lemma LineLength(name: string, text: string, more: bool, depth: nat, fmt: bool)
    ensures |Line(name, text, more, depth, fmt)| <= |name| + |text| + 2 + (if fmt then 2 + depth else 0)
    ensures |Line(name, text, more, depth, fmt)| + (if more then 0 else 1) == |name| + |text| + 2 + (if fmt then 2 + depth else 0)
  {
  }

  /** How much of the first pass's length the lines of an object leave free: one character. */
  lemma ObjectRoom(names: seq<string>, texts: seq<string>, members: seq<Member>, depth: nat, fmt: bool)
    requires LinesOf(names, texts, members, depth, fmt) && members != []
    ensures |MembersText(members, depth, fmt)| == ObjectSum(names, texts, depth, fmt) - 1
  {
    LinesRoom(names, texts, members, 0, depth, fmt);
    assert members[0..] == members && names[..0] == [] && texts[..0] == [];
  }

  lemma {:induction false} LinesRoom(names: seq<string>, texts: seq<string>, members: seq<Member>, k: nat, depth: nat, fmt: bool)
    requires LinesOf(names, texts, members, depth, fmt) && k < |members|
    ensures |MembersText(members[k..], depth, fmt)| + 1
            == ObjectSum(names, texts, depth, fmt) - ObjectSum(names[..k], texts[..k], depth, fmt)
    decreases |members| - k
  {
    hide Line, MembersText;
    LinesCount(names, texts, members, depth, fmt);
    MembersTextStep(names, texts, members, k, depth, fmt);
    LineLength(names[k], texts[k], k + 1 < |members|, depth, fmt);
    ObjectSumGrows(names, texts, k, depth, fmt);
    if k + 1 < |members| {
      LinesRoom(names, texts, members, k + 1, depth, fmt);
    } else {
      assert texts[..k + 1] == texts && names[..k + 1] == names;
      NoMembers(members, depth, fmt);
    }
  }

  /** The buffer of the empty object. */
  method PrintNoMembers(depth: nat, fmt: bool) returns (out: array<char>)
    ensures fresh(out) && out.Length == (if fmt then depth + 4 else 3) && Holds(out, Print(Obj([]), depth, fmt))
  {
    out := new char[if fmt then depth + 4 else 3];
    out[0] := '{';
    var ptr := 1;
    assert out[..1] == "{";
    if fmt {
      ptr := PutIf(out, ptr, true, '\n');
      ptr := PutTabs(out, ptr, depth as int - 1);
    }
    ghost var indent := Tabs(if depth == 0 then 0 else depth - 1);
    Regroup("{", "\n", indent);
    assert out[..ptr] == "{" + If(fmt, "\n" + indent);
    ptr := PutIf(out, ptr, true, '}');
    out[ptr] := '\0';
    ObjectNulFree([], depth, fmt);
  }

  // ---------------------------------------------------------------- the recursive descent

  /** How many children there are, by walking the chain. */
  method CountChildren(item: Node, ghost sh: Shape, ghost ims: seq<Image>, ghost all: set<Node>) returns (numentries: nat)
    requires Source(sh, ims) && sh.node == item && Nodes(sh) <= all
    ensures numentries == |ims|
  {
    hide Source, ForestNodes, Nodes;
    numentries := 0;
    ChildStart(sh, ims);
    var child := item.child;
    while child != null
      invariant Source(sh, ims)
      invariant numentries <= |sh.kids| && child == (if numentries < |sh.kids| then sh.kids[numentries].node else null)
      decreases |sh.kids| - numentries
    {
      SourceAt(sh, ims, numentries);
      numentries := numentries + 1;
      child := child.next;
    }
  }

  lemma {:induction false} ChildStart(sh: Shape, ims: seq<Image>)
    requires Source(sh, ims)
    ensures |ims| == |sh.kids| && sh.node.child == (if sh.kids == [] then null else sh.kids[0].node)
  {
  }

  method PrintValue(item: Node, depth: nat, fmt: bool, ghost sh: Shape, ghost im: Image, ghost all: set<Node>)
    returns (out: array<char>)
    requires Tree(sh) && sh.node == item && Nodes(sh) <= all && ImageOf(sh) == im && Complete(im)
    ensures fresh(out) && Integral(ValueOf(im)) && Holds(out, Print(ValueOf(im), depth, fmt))
    decreases sh, 3
  {
    hide Tree, Chain, ImageOf, Images, Nodes, ForestNodes, Holds;
    CompleteIsIntegral(im);
    RootFacts(sh);
    match item.kind {
      case KNull => out := Literal("null");
      case KFalse => out := Literal("false");
      case KTrue => out := Literal("true");
      case KNumber => out := PrintNumber(item);
      case KString => out := PrintString(item.valuestring.value);
      case KArray => out := PrintArray(item, depth, fmt, sh, im, all);
      case KObject => out := PrintObject(item, depth, fmt, sh, im, all);
    }
  }

  /** The first pass of print_array. */
  method CollectArray(item: Node, numentries: nat, depth: nat, fmt: bool, ghost sh: Shape, ghost im: Image, ghost all: set<Node>)
    returns (entries: array<string>, len: nat)
    requires Source(sh, im.kids) && sh.node == item && Nodes(sh) <= all && Complete(im) && im.kind == KArray
    requires numentries == |im.kids|
    ensures TextsOf(entries[..], ItemsOf(im.kids), depth, fmt) && len == 5 + ArraySum(entries[..], fmt)
    decreases sh, 1
  {
    hide Tree, Chain, ImageOf, Images, Nodes, ForestNodes, Source, Complete, TextsOf, ArraySum, Integral, Print;
    NoTexts(depth, fmt);
    ghost var ims, items := im.kids, ItemsOf(im.kids);
    entries := new string[numentries];
    var i := 0;
    len := 5;
    ChildStart(sh, ims);
    assert entries[..0] == [] && items[..0] == [];
    var child := item.child;
    while child != null
      invariant i <= numentries && child == (if i < numentries then sh.kids[i].node else null)
      invariant Source(sh, ims)
      invariant len == 5 + ArraySum(entries[..i], fmt)
      invariant TextsOf(entries[..i], items[..i], depth, fmt)
      decreases numentries - i
    {
      SourceAt(sh, ims, i);
      ghost var before := entries[..i];
      var text := PrintChild(child, depth, fmt, sh, im, i, all);
      entries[i] := text;
      len := len + |text| + 2 + (if fmt then 1 else 0);
      i := i + 1;
      OneMoreText(entries[..i], before, items, depth, fmt);
      child := child.next;
    }
    assert entries[..i] == entries[..] && items[..i] == items;
  }

  lemma PrintedArray(items: seq<Json>, depth: nat, fmt: bool)
    requires Integral(Arr(items))
    ensures forall i :: 0 <= i < |items| ==> Integral(items[i])
    ensures Print(Arr(items), depth, fmt) == "[" + (ItemsText(items, depth + 1, fmt) + "]")
    ensures NulFree(Print(Arr(items), depth, fmt))
    ensures items == [] ==> Print(Arr(items), depth, fmt) == "[]"
  {
    PrintNulFree(Arr(items), depth, fmt);
    Regroup("[", ItemsText(items, depth + 1, fmt), "]");
  }

  method PrintArray(item: Node, depth: nat, fmt: bool, ghost sh: Shape, ghost im: Image, ghost all: set<Node>)
    returns (out: array<char>)
    requires Tree(sh) && sh.node == item && Nodes(sh) <= all && ImageOf(sh) == im && Complete(im) && im.kind == KArray
    ensures fresh(out) && Integral(ValueOf(im)) && Holds(out, Print(ValueOf(im), depth, fmt))
    decreases sh, 2
  {
    hide Tree, Chain, ImageOf, Images, Nodes, ForestNodes, Source, Complete, TextsOf, ArraySum, ItemsText, Integral, Print;
    RootFacts(sh);
    CompleteIsIntegral(im);
    PrintedArray(ItemsOf(im.kids), depth, fmt);
    SourceStart(sh);
    var numentries := CountChildren(item, sh, im.kids, all);
    if numentries == 0 {
      out := Literal("[]");
      return;
    }
    var entries, len := CollectArray(item, numentries, depth + 1, fmt, sh, im, all);
    TextsCount(entries[..], ItemsOf(im.kids), depth + 1, fmt);
    out := ComposeArray(entries[..], fmt, len, ItemsOf(im.kids), depth + 1);
  }

  lemma NoTexts(depth: nat, fmt: bool)
    ensures TextsOf([], [], depth, fmt) && ArraySum([], fmt) == 0
    ensures LinesOf([], [], [], depth, fmt) && ObjectSum([], [], depth, fmt) == 0
  {
  }

  lemma OneMoreText(now: seq<string>, before: seq<string>, items: seq<Json>, depth: nat, fmt: bool)
    requires |now| == |before| + 1 <= |items| && now[..|before|] == before && TextsOf(before, items[..|before|], depth, fmt)
    requires Integral(items[|before|]) && now[|before|] == Print(items[|before|], depth, fmt)
    ensures TextsOf(now, items[..|now|], depth, fmt)
    ensures ArraySum(now, fmt) == ArraySum(before, fmt) + |Last(now)| + 2 + (if fmt then 1 else 0)
  {
    hide Print, Integral;
    assert Front(now) == before;
  }

  lemma OneMoreLine(names: seq<string>, texts: seq<string>, names0: seq<string>, texts0: seq<string>,
                    members: seq<Member>, depth: nat, fmt: bool)
    requires |names| == |texts| == |names0| + 1 == |texts0| + 1 <= |members|
    requires names[..|names0|] == names0 && texts[..|texts0|] == texts0
    requires LinesOf(names0, texts0, members[..|texts0|], depth, fmt)
    requires Integral(members[|texts0|].value) && Last(texts) == Print(members[|texts0|].value, depth, fmt)
    requires Last(names) == StringText(members[|texts0|].name)
    ensures LinesOf(names, texts, members[..|texts|], depth, fmt)
    ensures ObjectSum(names, texts, depth, fmt)
            == ObjectSum(names0, texts0, depth, fmt) + |Last(texts)| + |Last(names)| + 2 + (if fmt then 2 + depth else 0)
  {
    hide Print, StringText, Integral, LinesOf, ObjectSum;
    assert Front(names) == names0 && Front(texts) == texts0;
    assert Front(members[..|texts|]) == members[..|texts0|];
    ObjectSumSnoc(names, texts, depth, fmt);
    LinesSnoc(names, texts, members[..|texts|], depth, fmt);
  }

  lemma ObjectSumSnoc(names: seq<string>, texts: seq<string>, depth: nat, fmt: bool)
    requires |names| == |texts| > 0
    ensures ObjectSum(names, texts, depth, fmt)
            == ObjectSum(Front(names), Front(texts), depth, fmt) + |Last(texts)| + |Last(names)| + 2 + (if fmt then 2 + depth else 0)
  {
  }

  lemma LinesSnoc(names: seq<string>, texts: seq<string>, ms: seq<Member>, depth: nat, fmt: bool)
    requires |names| == |texts| == |ms| > 0
    requires LinesOf(Front(names), Front(texts), Front(ms), depth, fmt)
    requires Integral(Last(ms).value) && Last(texts) == Print(Last(ms).value, depth, fmt)
    requires Last(names) == StringText(Last(ms).name)
    ensures LinesOf(names, texts, ms, depth, fmt)
  {
    hide Print, StringText, Integral;
    forall i | 0 <= i < |ms|
      ensures Integral(ms[i].value) && names[i] == StringText(ms[i].name) && texts[i] == Print(ms[i].value, depth, fmt)
    {
      if i < |ms| - 1 {
        assert Front(ms)[i] == ms[i] && Front(names)[i] == names[i] && Front(texts)[i] == texts[i];
      }
    }
  }

  /** The text of one child, copied out of the buffer it was printed into. */
  method PrintChild(child: Node, depth: nat, fmt: bool, ghost sh: Shape, ghost im: Image, ghost i: nat, ghost all: set<Node>)
    returns (text: string)
    requires Source(sh, im.kids) && Nodes(sh) <= all && i < |sh.kids| && child == sh.kids[i].node
    requires Complete(im) && (im.kind == KArray || im.kind == KObject)
    ensures i < |im.kids| && Integral(ValueOf(im.kids[i])) && text == Print(ValueOf(im.kids[i]), depth, fmt)
    decreases sh, 0
  {
    hide Tree, Chain, ImageOf, Images, Nodes, ForestNodes, Holds, Source, Complete, Print;
    SourceAt(sh, im.kids, i);
    KidComplete(im, i);
    var ret := PrintValue(child, depth, fmt, sh.kids[i], im.kids[i], all);
    text := TextOf(ret, Print(ValueOf(im.kids[i]), depth, fmt));
  }

  method PrintName(child: Node, ghost sh: Shape, ghost im: Image, ghost i: nat, ghost all: set<Node>) returns (text: string)
    requires Source(sh, im.kids) && Nodes(sh) <= all && i < |sh.kids| && child == sh.kids[i].node
    requires Complete(im) && im.kind == KObject
    ensures i < |im.kids| && text == StringText(Text(im.kids[i].name))
  {
    hide Tree, Chain, ImageOf, Images, Nodes, ForestNodes, Holds, Source, Complete, StringText;
    SourceAt(sh, im.kids, i);
    KidComplete(im, i);
    NameInImage(sh.kids[i]);
    var str := PrintString(child.name.value);
    text := TextOf(str, StringText(Text(im.kids[i].name)));
  }

  lemma {:induction false} KidComplete(im: Image, i: nat)
    requires Complete(im) && (im.kind == KArray || im.kind == KObject) && i < |im.kids|
    ensures Complete(im.kids[i]) && (im.kind == KObject ==> im.kids[i].name.Some?)
  {
  }

  /** The first pass of print_object. */
  method CollectObject(item: Node, numentries: nat, depth: nat, fmt: bool, ghost sh: Shape, ghost im: Image, ghost all: set<Node>)
    returns (names: array<string>, entries: array<string>, len: nat)
    requires Source(sh, im.kids) && sh.node == item && Nodes(sh) <= all && Complete(im) && im.kind == KObject
    requires numentries == |im.kids|
    ensures LinesOf(names[..], entries[..], MembersOf(im.kids), depth, fmt)
    ensures |names[..]| == |entries[..]| && len == 7 + (if fmt then depth else 0) + ObjectSum(names[..], entries[..], depth, fmt)
    decreases sh, 1
  {
    hide Tree, Chain, ImageOf, Images, Nodes, ForestNodes, Source, Complete, LinesOf, ObjectSum, Integral, Print, StringText;
    NoTexts(depth, fmt);
    ghost var ims, members := im.kids, MembersOf(im.kids);
    names, entries := new string[numentries], new string[numentries];
    var i := 0;
    len := 7 + (if fmt then depth else 0);
    ChildStart(sh, ims);
    assert names[..0] == [] && entries[..0] == [] && members[..0] == [];
    var child := item.child;
    while child != null
      invariant i <= numentries && child == (if i < numentries then sh.kids[i].node else null)
      invariant Source(sh, ims)
      invariant len == 7 + (if fmt then depth else 0) + ObjectSum(names[..i], entries[..i], depth, fmt)
      invariant LinesOf(names[..i], entries[..i], members[..i], depth, fmt)
      decreases numentries - i
    {
      SourceAt(sh, ims, i);
      ghost var names0, entries0 := names[..i], entries[..i];
      var name := PrintName(child, sh, im, i, all);
      var text := PrintChild(child, depth, fmt, sh, im, i, all);
      names[i] := name;
      entries[i] := text;
      len := len + |text| + |name| + 2 + (if fmt then 2 + depth else 0);
      i := i + 1;
      OneMoreLine(names[..i], entries[..i], names0, entries0, members, depth, fmt);
      child := child.next;
    }
    assert names[..i] == names[..] && entries[..i] == entries[..] && members[..i] == members;
  }

  lemma PrintedObject(members: seq<Member>, depth: nat, fmt: bool)
    requires Integral(Obj(members))
    ensures forall i :: 0 <= i < |members| ==> Integral(members[i].value)
    ensures NulFree(Print(Obj(members), depth, fmt))
    ensures members != [] ==> Print(Obj(members), depth, fmt)
                              == "{" + If(fmt, "\n") + MembersText(members, depth + 1, fmt) + If(fmt, Tabs(depth)) + "}"
  {
    ObjectNulFree(members, depth, fmt);
  }

  method PrintObject(item: Node, depth: nat, fmt: bool, ghost sh: Shape, ghost im: Image, ghost all: set<Node>)
    returns (out: array<char>)
    requires Tree(sh) && sh.node == item && Nodes(sh) <= all && ImageOf(sh) == im && Complete(im) && im.kind == KObject
    ensures fresh(out) && Integral(ValueOf(im)) && Holds(out, Print(ValueOf(im), depth, fmt))
    decreases sh, 2
  {
    hide Tree, Chain, ImageOf, Images, Nodes, ForestNodes, Source, Complete, LinesOf, ObjectSum, MembersText, Integral, Print;
    RootFacts(sh);
    CompleteIsIntegral(im);
    PrintedObject(MembersOf(im.kids), depth, fmt);
    SourceStart(sh);
    var numentries := CountChildren(item, sh, im.kids, all);
    if numentries == 0 {
      out := PrintNoMembers(depth, fmt);
      return;
    }
    var names, entries, len := CollectObject(item, numentries, depth + 1, fmt, sh, im, all);
    out := ComposeObject(names[..], entries[..], depth + 1, fmt, len, MembersOf(im.kids));
  }
}
