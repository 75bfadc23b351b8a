/**
 Well-nested runs of the generator: which operations write a tree, and that they write it with
 every comma in its place.
 */
module GeneratedText {
  import opened Base
  import JsonText
  import opened JsonGenerator

  datatype Tree =
    | Leaf(str: string, value: int, data: Data)
    | Obj(fields: seq<Field>)
    | Arr(items: seq<Tree>)
  datatype Field = Field(name: string, tree: Tree)

  /** An item of an array gets its comma from the end of the text before it: json_set_array_value
      writes one behind anything, json_start_object behind an object only, json_start_array behind
      an array only. */
  predicate InPlace(x: Tree, before: Tree) {
    match x
    case Leaf(_, _, _) => true
    case Obj(_) => before.Obj?
    case Arr(_) => before.Arr?
  }

  /** Values of the types that arrays know, and no object or array behind something else. */
  predicate InOrder(xs: seq<Tree>) {
    && (forall i :: 0 <= i < |xs| ==> (xs[i].Leaf? ==> InArrays(xs[i].data)))
    && (forall i :: 0 < i < |xs| ==> InPlace(xs[i], xs[i - 1]))
  }

  /** Every array of the tree is in order. */
  predicate Ordered(t: Tree) {
    match t
    case Leaf(_, _, _) => true
    case Obj(fields) => forall i :: 0 <= i < |fields| ==> Ordered(fields[i].tree)
    case Arr(items) => InOrder(items) && forall i :: 0 <= i < |items| ==> Ordered(items[i])
  }

  predicate Plain(s: string) {
    '\"' !in s && '\\' !in s && '\0' !in s
  }

  /** Names and strings that need no escapes, and arrays in order. */
  predicate Good(t: Tree) {
    match t
    case Leaf(str, _, _) => Plain(str)
    case Obj(fields) => forall i :: 0 <= i < |fields| ==> Plain(fields[i].name) && Good(fields[i].tree)
    case Arr(items) => InOrder(items) && forall i :: 0 <= i < |items| ==> Good(items[i])
  }

  lemma {:induction false} GoodIsOrdered(t: Tree)
    requires Good(t)
    ensures Ordered(t)
    decreases t
  {
    match t
    case Leaf(_, _, _) =>
    case Obj(fields) =>
      forall i | 0 <= i < |fields|
        ensures Ordered(fields[i].tree)
      {
        GoodIsOrdered(fields[i].tree);
      }
    case Arr(items) =>
      forall i | 0 <= i < |items|
        ensures Ordered(items[i])
      {
        GoodIsOrdered(items[i]);
      }
  }

  // ------------------------------------------------------------- operations and texts

  function FieldOps(f: Field): seq<Op>
    decreases f
  {
    match f.tree
    case Leaf(str, value, data) => [SetInObject(f.name, str, value, data)]
    case Obj(fields) => [PushObject(f.name)] + (FieldsOps(fields) + [CloseObject])
    case Arr(items) => [PushArray(f.name)] + (ItemsOps(items) + [PopArray])
  }

  function FieldsOps(fs: seq<Field>): seq<Op>
    decreases fs
  {
    if fs == [] then [] else FieldOps(fs[0]) + FieldsOps(fs[1..])
  }

  function ItemOps(x: Tree): seq<Op>
    decreases x
  {
    match x
    case Leaf(str, value, data) => [SetInArray(str, value, data)]
    case Obj(fields) => [StartObject] + (FieldsOps(fields) + [CloseObject])
    case Arr(items) => [StartArray] + (ItemsOps(items) + [CloseArray])
  }

  function ItemsOps(xs: seq<Tree>): seq<Op>
    decreases xs
  {
    if xs == [] then [] else ItemOps(xs[0]) + ItemsOps(xs[1..])
  }

  /** The text of a tree, without blanks. */
  function TreeText(t: Tree): (s: string)
    ensures s != []
    decreases t
  {
    match t
    case Leaf(str, value, data) => ValueText(str, value, data)
    case Obj(fields) => "{" + (FieldsText(fields, false) + "}")
    case Arr(items) => "[" + (ItemsText(items, false) + "]")
  }

  function FieldText(f: Field): (s: string)
    decreases f, 1
  {
    Quoted(f.name) + (":" + TreeText(f.tree))
  }

  /** Each field behind a comma, the first only when it is not the first of its object. */
  function FieldsText(fs: seq<Field>, more: bool): string
    decreases fs
  {
    if fs == [] then "" else Comma(more) + (FieldText(fs[0]) + FieldsText(fs[1..], true))
  }

  function ItemsText(xs: seq<Tree>, more: bool): string
    decreases xs
  {
    if xs == [] then "" else Comma(more) + (TreeText(xs[0]) + ItemsText(xs[1..], true))
  }

  // ------------------------------------------------------------- how texts end

  lemma LastInkOf(t: string, s: string)
    requires t != [] && t[0] > ' ' && s != [] && s[|s| - 1] > ' '
    ensures LastInk(t + s) == s[|s| - 1]
  {
  }

  /** The character a tree's text ends with. */
  lemma TreeEnd(t: Tree)
    ensures var c := TreeText(t)[|TreeText(t)| - 1];
            c > ' ' && (t.Obj? ==> c == '}') && (t.Arr? ==> c == ']')
            && (t.Leaf? ==> c == '\"' || c == 'e' || JsonText.IsDigit(c))
  {
    hide JsonText.NatText, ToInt32, ToUint;
    match t
    case Leaf(str, value, data) => ValueEnd(str, value, data);
    case _ =>
  }

  lemma ValueEnd(str: string, value: int, data: Data)
    ensures var s := ValueText(str, value, data);
            s != [] && (s[|s| - 1] == '\"' || s[|s| - 1] == 'e' || JsonText.IsDigit(s[|s| - 1]))
  {
    hide JsonText.NatText, ToInt32, ToUint;
  }

  // ------------------------------------------------------------- runs in pieces

  lemma {:induction false} GrowJoined(a: seq<Op>, b: seq<Op>, t: string)
    requires ReadyAll(a, t) && ReadyAll(b, GrowAll(a, t))
    ensures ReadyAll(a + b, t) && GrowAll(a + b, t) == GrowAll(b, GrowAll(a, t))
    decreases a
  {
    hide Ready, Grow;
    if a == [] {
      assert a + b == b;
    } else {
      assert (a + b)[0] == a[0] && (a + b)[1..] == a[1..] + b;
      GrowJoined(a[1..], b, Grow(a[0], t));
    }
  }

  lemma GrowOne(op: Op, t: string)
    requires Ready(op, t)
    ensures ReadyAll([op], t) && GrowAll([op], t) == Grow(op, t)
  {
    hide Grow, Ready;
    assert [op][1..] == [];
    assert ReadyAll([], Grow(op, t));
  }

  /** A document under construction. */
  predicate Begun(t: string) {
    t != [] && t[0] == '{'
  }

  lemma BegunStays(t: string, s: string)
    requires Begun(t)
    ensures Begun(t + s)
  {
  }

  /** An opening operation, what comes inside, and a closing one. */
  lemma Bracketed(open: Op, inner: seq<Op>, close: Op, t: string, u: string, v: string, b: string)
    requires Begun(t) && Ready(open, t) && Grow(open, t) == u && Begun(u)
    requires ReadyAll(inner, u) && GrowAll(inner, u) == v && Begun(v)
    requires close == CloseObject || close == CloseArray || close == PopArray
    requires b == if close == CloseObject then "}" else "]"
    ensures ReadyAll([open] + (inner + [close]), t) && GrowAll([open] + (inner + [close]), t) == v + b
  {
    hide GrowAll, ReadyAll;
    GrowOne(open, t);
    GrowOne(close, v);
    GrowJoined(inner, [close], u);
    GrowJoined([open], inner + [close], t);
  }

  function Pushed(t: string, more: bool, name: string, bracket: string): string {
    t + (Comma(more) + (Quoted(name) + (":" + bracket)))
  }

  lemma PushGrows(t: string, more: bool, name: string)
    requires Begun(t) && more == (LastInk(t) != '{')
    ensures Ready(PushObject(name), t) && Ready(PushArray(name), t)
    ensures var u := Pushed(t, more, name, "{"); Grow(PushObject(name), t) == u && Begun(u) && LastInk(u) == '{'
    ensures var v := Pushed(t, more, name, "["); Grow(PushArray(name), t) == v && Begun(v) && LastInk(v) == '['
  {
    hide LastInk;
    assert ":" + "{" == ":{" && ":" + "[" == ":[";
    LastInkOf(t, Comma(more) + (Quoted(name) + ":{"));
    LastInkOf(t, Comma(more) + (Quoted(name) + ":["));
  }

  lemma {:induction false} FieldGrows(f: Field, t: string, more: bool)
    requires Ordered(f.tree) && Begun(t) && more == (LastInk(t) != '{')
    ensures ReadyAll(FieldOps(f), t) && GrowAll(FieldOps(f), t) == t + (Comma(more) + FieldText(f))
    decreases f, 1
  {
    hide GrowAll, ReadyAll, LastInk, Grow, Ready, Pushed, FieldsText, ItemsText, Comma, Quoted, Begun;
    PushGrows(t, more, f.name);
    match f.tree
    case Leaf(str, value, data) =>
      SetGrows(f, t, more);
    case Obj(fields) =>
      var u := Pushed(t, more, f.name, "{");
      FieldsGrow(fields, u, false);
      var v := u + FieldsText(fields, false);
      BegunStays(u, FieldsText(fields, false));
      Bracketed(PushObject(f.name), FieldsOps(fields), CloseObject, t, u, v, "}");
      FieldRegrouped(t, more, f.name, "{", FieldsText(fields, false), "}");
    case Arr(items) =>
      var u := Pushed(t, more, f.name, "[");
      StartsContinuing(items, u);
      ItemsGrow(items, u, false);
      var v := u + ItemsText(items, false);
      BegunStays(u, ItemsText(items, false));
      Bracketed(PushArray(f.name), ItemsOps(items), PopArray, t, u, v, "]");
      FieldRegrouped(t, more, f.name, "[", ItemsText(items, false), "]");
  }

  lemma SetGrows(f: Field, t: string, more: bool)
    requires f.tree.Leaf? && Begun(t) && more == (LastInk(t) != '{')
    ensures ReadyAll(FieldOps(f), t) && GrowAll(FieldOps(f), t) == t + (Comma(more) + FieldText(f))
  {
    hide LastInk, ReadyAll, GrowAll, ValueText;
    GrowOne(SetInObject(f.name, f.tree.str, f.tree.value, f.tree.data), t);
  }

  lemma StartsContinuing(xs: seq<Tree>, t: string)
    requires Begun(t) && LastInk(t) == '['
    ensures xs != [] ==> Continues(xs[0], t, false)
  {
  }

  lemma FieldRegrouped(t: string, more: bool, name: string, o: string, m: string, e: string)
    ensures (Pushed(t, more, name, o) + m) + e == t + (Comma(more) + (Quoted(name) + (":" + (o + (m + e)))))
  {
    hide Comma, Quoted;
    var c, n := Comma(more), Quoted(name);
    Regroup(t, c + (n + (":" + o)), m);
    Regroup(c, n + (":" + o), m);
    Regroup(n, ":" + o, m);
    Regroup(":", o, m);
    Regroup(t, c + (n + (":" + (o + m))), e);
    Regroup(c, n + (":" + (o + m)), e);
    Regroup(n, ":" + (o + m), e);
    Regroup(":", o + m, e);
    Regroup(o, m, e);
  }

  lemma {:induction false} FieldsGrow(fs: seq<Field>, t: string, more: bool)
    requires (forall i :: 0 <= i < |fs| ==> Ordered(fs[i].tree)) && Begun(t) && more == (LastInk(t) != '{')
    ensures ReadyAll(FieldsOps(fs), t) && GrowAll(FieldsOps(fs), t) == t + FieldsText(fs, more)
    decreases fs
  {
    hide LastInk, FieldOps, FieldText, TreeText, Grow, Ready, Ordered;
    if fs == [] {
      assert t + "" == t;
    } else {
      FieldGrows(fs[0], t, more);
      var piece := Comma(more) + FieldText(fs[0]);
      FieldEnd(fs[0], more);
      LastInkOf(t, piece);
      FieldsGrow(fs[1..], t + piece, true);
      GrowJoined(FieldOps(fs[0]), FieldsOps(fs[1..]), t);
      Regroup3(t, Comma(more), FieldText(fs[0]), FieldsText(fs[1..], true));
    }
  }

  lemma Regroup3(t: string, c: string, a: string, b: string)
    ensures (t + (c + a)) + b == t + (c + (a + b))
  {
  }

  lemma FieldEnd(f: Field, more: bool)
    ensures var s := Comma(more) + FieldText(f);
            s != [] && s[|s| - 1] > ' ' && s[|s| - 1] != '{' && s[|s| - 1] == TreeText(f.tree)[|TreeText(f.tree)| - 1]
  {
    TreeEnd(f.tree);
  }

  /** Where the next item of an array goes without a comma, and where with one. */
  predicate Continues(x: Tree, t: string, more: bool)
    requires Begun(t)
  {
    if !more then LastInk(t) == '['
    else match x
         case Leaf(_, _, data) => LastInk(t) != '['
         case Obj(_) => LastInk(t) == '}'
         case Arr(_) => LastInk(t) == ']'
  }

  lemma {:induction false} ItemGrows(x: Tree, t: string, more: bool)
    requires Ordered(x) && Begun(t) && Continues(x, t, more) && (x.Leaf? ==> InArrays(x.data))
    ensures ReadyAll(ItemOps(x), t) && GrowAll(ItemOps(x), t) == t + (Comma(more) + TreeText(x))
    decreases x, 1
  {
    hide GrowAll, ReadyAll, LastInk;
    match x
    case Leaf(str, value, data) =>
      GrowOne(SetInArray(str, value, data), t);
    case Obj(fields) =>
      var u := t + (Comma(more) + "{");
      LastInkOf(t, Comma(more) + "{");
      FieldsGrow(fields, u, false);
      var v := u + FieldsText(fields, false);
      Bracketed(StartObject, FieldsOps(fields), CloseObject, t, u, v, "}");
      ItemRegrouped(t, Comma(more), "{", FieldsText(fields, false), "}");
    case Arr(items) =>
      var u := t + (Comma(more) + "[");
      LastInkOf(t, Comma(more) + "[");
      ItemsGrow(items, u, false);
      var v := u + ItemsText(items, false);
      Bracketed(StartArray, ItemsOps(items), CloseArray, t, u, v, "]");
      ItemRegrouped(t, Comma(more), "[", ItemsText(items, false), "]");
  }

  lemma ItemRegrouped(t: string, c: string, o: string, m: string, e: string)
    ensures ((t + (c + o)) + m) + e == t + (c + (o + (m + e)))
  {
  }

  lemma InOrderRest(xs: seq<Tree>)
    requires xs != [] && InOrder(xs)
    ensures InOrder(xs[1..])
  {
    var rest := xs[1..];
    forall i | 0 < i < |rest|
      ensures InPlace(rest[i], rest[i - 1])
    {
      assert InPlace(xs[i + 1], xs[i + 1 - 1]);
    }
  }

  lemma {:induction false} ItemsGrow(xs: seq<Tree>, t: string, more: bool)
    requires (forall i :: 0 <= i < |xs| ==> Ordered(xs[i])) && InOrder(xs) && Begun(t)
    requires xs != [] ==> Continues(xs[0], t, more)
    ensures ReadyAll(ItemsOps(xs), t) && GrowAll(ItemsOps(xs), t) == t + ItemsText(xs, more)
    decreases xs, 2
  {
    hide LastInk, ItemOps, TreeText, Grow, Ready, Ordered;
    if xs == [] {
      assert t + "" == t;
    } else {
      ItemGrows(xs[0], t, more);
      var piece := Comma(more) + TreeText(xs[0]);
      TreeEnd(xs[0]);
      assert piece[|piece| - 1] == TreeText(xs[0])[|TreeText(xs[0])| - 1];
      LastInkOf(t, piece);
      if |xs| > 1 { assert InPlace(xs[1], xs[0]); }
      InOrderRest(xs);
      ItemsGrow(xs[1..], t + piece, true);
      GrowJoined(ItemOps(xs[0]), ItemsOps(xs[1..]), t);
      Regroup3(t, Comma(more), TreeText(xs[0]), ItemsText(xs[1..], true));
    }
  }

  // ------------------------------------------------------------- trees out of order

  /** A run that writes no more than a text has room for, and as much only if exact holds. */
  predicate Within(ops: seq<Op>, t: string, room: nat, exact: bool) {
    && ReadyAll(ops, t)
    && var u := GrowAll(ops, t);
       t <= u && |u| <= |t| + room && (|u| == |t| + room ==> exact)
  }

  lemma BegunOn(t: string, u: string)
    requires Begun(t) && t <= u
    ensures Begun(u)
  {
  }

  /** A bracket, what comes inside, and the closing bracket. */
  lemma BracketedWithin(open: Op, inner: seq<Op>, close: Op, t: string, u: string, room: nat, exact: bool, b: string)
    requires Begun(t) && Ready(open, t) && Grow(open, t) == u && t <= u && Within(inner, u, room, exact)
    requires close == CloseObject || close == CloseArray || close == PopArray
    requires b == if close == CloseObject then "}" else "]"
    ensures var ops := [open] + (inner + [close]);
            && Within(ops, t, |u| - |t| + room + 1, exact)
            && Begun(GrowAll(ops, t)) && LastInk(GrowAll(ops, t)) == b[0]
  {
    hide GrowAll, ReadyAll, LastInk, Grow, Ready;
    BegunOn(t, u);
    var v := GrowAll(inner, u);
    BegunOn(u, v);
    Bracketed(open, inner, close, t, u, v, b);
    LastInkOf(v, b);
  }

  lemma {:induction false} FieldWithin(f: Field, t: string, more: bool)
    requires Begun(t) && more == (LastInk(t) != '{')
    ensures Within(FieldOps(f), t, |Comma(more) + FieldText(f)|, Ordered(f.tree))
    ensures ReadyAll(FieldOps(f), t)
    ensures var u := GrowAll(FieldOps(f), t); Begun(u) && LastInk(u) != '{'
    decreases f, 1
  {
    hide GrowAll, ReadyAll, LastInk, Grow, Ready, FieldsText, ItemsText, Comma, Quoted, Begun;
    PushGrows(t, more, f.name);
    match f.tree
    case Leaf(str, value, data) =>
      SetGrows(f, t, more);
      FieldEnd(f, more);
      BegunStays(t, Comma(more) + FieldText(f));
      BegunInk(t);
      LastInkOf(t, Comma(more) + FieldText(f));
    case Obj(fields) =>
      var u := Pushed(t, more, f.name, "{");
      FieldsWithin(fields, u, false);
      BracketedWithin(PushObject(f.name), FieldsOps(fields), CloseObject, t, u, |FieldsText(fields, false)|, Ordered(f.tree), "}");
    case Arr(items) =>
      var u := Pushed(t, more, f.name, "[");
      ItemsWithin(items, u, false);
      BracketedWithin(PushArray(f.name), ItemsOps(items), PopArray, t, u, |ItemsText(items, false)|, Ordered(f.tree), "]");
  }

  lemma BegunInk(t: string)
    requires Begun(t)
    ensures t != [] && t[0] > ' '
  {
  }

  /** Two runs one after the other. */
  lemma JoinedWithin(a: seq<Op>, b: seq<Op>, t: string, m: nat, n: nat, x: bool, y: bool)
    requires Within(a, t, m, x) && Within(b, GrowAll(a, t), n, y)
    ensures Within(a + b, t, m + n, x && y)
  {
    hide GrowAll, ReadyAll;
    GrowJoined(a, b, t);
  }

  lemma WithinWeaker(ops: seq<Op>, t: string, room: nat, x: bool, y: bool)
    requires Within(ops, t, room, x) && (x ==> y)
    ensures Within(ops, t, room, y)
  {
    hide GrowAll, ReadyAll;
  }

  lemma NothingWithin(t: string)
    ensures Within([], t, 0, true)
  {
  }

  lemma {:induction false} FieldsWithin(fs: seq<Field>, t: string, more: bool)
    requires Begun(t) && more == (LastInk(t) != '{')
    ensures Within(FieldsOps(fs), t, |FieldsText(fs, more)|, forall i :: 0 <= i < |fs| ==> Ordered(fs[i].tree))
    decreases fs
  {
    hide LastInk, FieldOps, FieldText, Grow, Ready, Within, GrowAll, Ordered;
    if fs == [] {
      NothingWithin(t);
    } else {
      FieldWithin(fs[0], t, more);
      var u := GrowAll(FieldOps(fs[0]), t);
      FieldsWithin(fs[1..], u, true);
      var rest := forall i :: 0 <= i < |fs[1..]| ==> Ordered(fs[1..][i].tree);
      JoinedWithin(FieldOps(fs[0]), FieldsOps(fs[1..]), t, |Comma(more) + FieldText(fs[0])|,
                   |FieldsText(fs[1..], true)|, Ordered(fs[0].tree), rest);
      FieldsOrdered(fs);
    }
  }

  lemma FieldsOrdered(fs: seq<Field>)
    requires fs != []
    ensures (forall i :: 0 <= i < |fs| ==> Ordered(fs[i].tree))
            <==> Ordered(fs[0].tree) && forall i :: 0 <= i < |fs[1..]| ==> Ordered(fs[1..][i].tree)
  {
    hide Ordered;
    if Ordered(fs[0].tree) && forall i :: 0 <= i < |fs[1..]| ==> Ordered(fs[1..][i].tree) {
      forall i | 0 <= i < |fs|
        ensures Ordered(fs[i].tree)
      {
        if i > 0 { assert fs[i] == fs[1..][i - 1]; }
      }
    }
  }

  /** The item is in order itself and stands where its comma is written. */
  predicate Fine(x: Tree, t: string, more: bool)
    requires Begun(t)
  {
    Ordered(x) && (x.Leaf? ==> InArrays(x.data)) && Continues(x, t, more)
  }

  lemma {:induction false} ItemWithin(x: Tree, t: string, more: bool)
    requires Begun(t) && (!more ==> LastInk(t) == '[')
    ensures Within(ItemOps(x), t, |Comma(more) + TreeText(x)|, Fine(x, t, more))
    ensures ReadyAll(ItemOps(x), t) && Begun(GrowAll(ItemOps(x), t))
    decreases x, 1
  {
    hide GrowAll, ReadyAll, LastInk, FieldsText, ItemsText;
    BegunInk(t);
    match x
    case Leaf(str, value, data) =>
      hide ValueText;
      GrowOne(SetInArray(str, value, data), t);
      ValueThere(str, value, data);
    case Obj(fields) =>
      var c := Comma(LastInk(t) == '}');
      var u := t + (c + "{");
      LastInkOf(t, c + "{");
      FieldsWithin(fields, u, false);
      BracketedWithin(StartObject, FieldsOps(fields), CloseObject, t, u, |FieldsText(fields, false)|, Ordered(x), "}");
    case Arr(items) =>
      var c := Comma(LastInk(t) == ']');
      var u := t + (c + "[");
      LastInkOf(t, c + "[");
      ItemsWithin(items, u, false);
      BracketedWithin(StartArray, ItemsOps(items), CloseArray, t, u, |ItemsText(items, false)|, Ordered(x), "]");
  }

  lemma ValueThere(str: string, value: int, data: Data)
    ensures ValueText(str, value, data) != []
  {
    ValueEnd(str, value, data);
  }

  predicate AllFine(xs: seq<Tree>, t: string, more: bool)
    requires Begun(t)
  {
    InOrder(xs) && (forall i :: 0 <= i < |xs| ==> Ordered(xs[i])) && (xs != [] ==> Continues(xs[0], t, more))
  }

  lemma {:induction false} ItemsWithin(xs: seq<Tree>, t: string, more: bool)
    requires Begun(t) && (!more ==> LastInk(t) == '[')
    ensures Within(ItemsOps(xs), t, |ItemsText(xs, more)|, AllFine(xs, t, more))
    decreases xs
  {
    hide LastInk, ItemOps, TreeText, Grow, Ready, Within, GrowAll, Ordered, Fine, AllFine, Begun;
    if xs == [] {
      NothingWithin(t);
      NoneFine(t, more);
    } else {
      ItemWithin(xs[0], t, more);
      var u := GrowAll(ItemOps(xs[0]), t);
      ItemsWithin(xs[1..], u, true);
      JoinedWithin(ItemOps(xs[0]), ItemsOps(xs[1..]), t, |Comma(more) + TreeText(xs[0])|,
                   |ItemsText(xs[1..], true)|, Fine(xs[0], t, more), AllFine(xs[1..], u, true));
      var fine := Fine(xs[0], t, more) && AllFine(xs[1..], u, true);
      if fine { FineTogether(xs, t, more); }
      WithinWeaker(ItemsOps(xs), t, |ItemsText(xs, more)|, fine, AllFine(xs, t, more));
    }
  }

  lemma NoneFine(t: string, more: bool)
    requires Begun(t)
    ensures AllFine([], t, more)
  {
  }

  lemma FineTogether(xs: seq<Tree>, t: string, more: bool)
    requires xs != [] && Begun(t) && Fine(xs[0], t, more)
    requires ReadyAll(ItemOps(xs[0]), t)
    requires var u := GrowAll(ItemOps(xs[0]), t); Begun(u) && AllFine(xs[1..], u, true)
    ensures AllFine(xs, t, more)
  {
    hide LastInk, ItemOps, TreeText, Grow, Ready, GrowAll, ReadyAll, Ordered;
    var rest := xs[1..];
    ItemGrows(xs[0], t, more);
    TreeEnd(xs[0]);
    var piece := Comma(more) + TreeText(xs[0]);
    LastInkOf(t, piece);
    assert piece[|piece| - 1] == TreeText(xs[0])[|TreeText(xs[0])| - 1];
    forall i | 0 < i < |xs|
      ensures InPlace(xs[i], xs[i - 1])
    {
      assert xs[i] == rest[i - 1];
      if i > 1 { assert InPlace(rest[i - 1], rest[i - 2]) && xs[i - 1] == rest[i - 2]; }
    }
    forall i | 0 <= i < |xs|
      ensures Ordered(xs[i]) && (xs[i].Leaf? ==> InArrays(xs[i].data))
    {
      if i > 0 { assert xs[i] == rest[i - 1]; }
    }
  }

  // ------------------------------------------------------------- documents

  /** The whole document: an object opened, filled and closed. */
  function DocumentOps(fields: seq<Field>): seq<Op> {
    [StartObject] + FieldsOps(fields)
  }

  lemma OpenInk()
    ensures LastInk("{") == '{'
  {
  }

  /** The run of a document writes the text of its tree if and only if every array is in order. */
  lemma DocumentGrows(fields: seq<Field>)
    ensures ReadyAll(DocumentOps(fields), "")
    ensures GrowAll(DocumentOps(fields), "") + "}" == TreeText(Obj(fields)) <==> Ordered(Obj(fields))
  {
    hide GrowAll, ReadyAll, LastInk, FieldsOps, FieldsText;
    GrowOne(StartObject, "");
    assert Grow(StartObject, "") == "{";
    OpenInk();
    FieldsWithin(fields, "{", false);
    GrowJoined([StartObject], FieldsOps(fields), "");
    if Ordered(Obj(fields)) {
      FieldsGrow(fields, "{", false);
      assert ("{" + FieldsText(fields, false)) + "}" == "{" + (FieldsText(fields, false) + "}");
    }
  }

  /** Written into a buffer and closed with success, a document is the whole text of its tree if and
      only if every array is in order. */
  lemma DocumentComplete(fields: seq<Field>, len: nat)
    requires len >= 2
    ensures WriteReady(DocumentOps(fields), len, "") && ReadyIn(CloseObject, len, WriteAll(DocumentOps(fields), len, ""))
    ensures var w := Write(CloseObject, len, WriteAll(DocumentOps(fields), len, ""));
            w.1 == 0 ==> |w.0| <= len - 1 && (w.0 == TreeText(Obj(fields)) <==> Ordered(Obj(fields)))
  {
    hide Write, GrowAll, WriteAll, ReadyAll, WriteReady, Ordered, TreeText, DocumentOps;
    DocumentGrows(fields);
    CloseMeansComplete(DocumentOps(fields), len);
  }

  /** An object behind a value gets no comma. */
  lemma MixedArray()
    ensures var ops := [StartObject, PushArray("a"), SetInArray("", 1, BOOL), StartObject, CloseObject];
            ReadyAll(ops, "") && GrowAll(ops, "") == "{\"a\":[true{}"
  {
    var t1, t2, t3, t4 := "{", "{\"a\":[", "{\"a\":[true", "{\"a\":[true{";
    assert Grow(StartObject, "") == t1;
    assert Grow(PushArray("a"), t1) == t2;
    assert Grow(SetInArray("", 1, BOOL), t2) == t3;
    assert Grow(StartObject, t3) == t4;
    assert Grow(CloseObject, t4) == t4 + "}";
  }

  /** A value behind an object gets one. */
  lemma MixedArrayInOrder()
    ensures var ops := [StartObject, PushArray("a"), StartObject, CloseObject, SetInArray("", 1, BOOL)];
            ReadyAll(ops, "") && GrowAll(ops, "") == "{\"a\":[{},true"
  {
    var t1, t2, t3, t4 := "{", "{\"a\":[", "{\"a\":[{", "{\"a\":[{}";
    assert Grow(StartObject, "") == t1;
    assert Grow(PushArray("a"), t1) == t2;
    assert Grow(StartObject, t2) == t3;
    assert Grow(CloseObject, t3) == t4;
    assert Grow(SetInArray("", 1, BOOL), t4) == "{\"a\":[{},true";
  }
}
