/**
 The cJSON nodes on the heap: how chains of children are linked, which JSON value a tree of
 nodes stands for, and the routines that rearrange, copy and delete nodes.
 */
module JsonHeap {
  import opened Base
  import opened JsonText

  datatype Kind = KFalse | KTrue | KNull | KNumber | KString | KArray | KObject

  class Node {
    var next: Node?
    var prev: Node?
    var child: Node?
    var kind: Kind
    var valuestring: Option<string>
    var valueint: int
    var valuedouble: real
    var name: Option<string>

    /** cJSON_New_Item: every field zero. */
    constructor ()
      ensures next == null && prev == null && child == null
      ensures kind == KFalse && valuestring == None && name == None && valueint == 0 && valuedouble == 0.0
      ensures forall o: object {:trigger allocated(o)} :: allocated(o) ==> old(allocated(o)) || o == this
    {
      next, prev, child := null, null, null;
      kind, valuestring, name := KFalse, None, None;
      valueint, valuedouble := 0, 0.0;
    }
  }

  // ------------------------------------------------------------- chain surgery

  /** The i-th node of a row; nothing on either side of it. */
  function NodeAt(row: seq<Node>, i: int): Node? {
    if 0 <= i < |row| then row[i] else null
  }

  /** The children of a node: a doubly linked chain with both ends open and no node twice. */
  ghost predicate Row(owner: Node, row: seq<Node>)
    reads owner`child, row`next, row`prev
  {
    && owner.child == NodeAt(row, 0)
    && Distinct(row)
    && (forall i :: 0 <= i < |row| ==> row[i].next == NodeAt(row, i + 1) && row[i].prev == NodeAt(row, i - 1))
  }

  /** The pointer that walks the chain while the counter is positive. */
  method Walk(owner: Node, which: int, ghost row: seq<Node>) returns (c: Node?, ghost k: nat)
    requires Row(owner, row)
    ensures c == NodeAt(row, if which < 0 then 0 else which)
    ensures k == (if which < 0 then 0 else if which > |row| then |row| else which) && c == NodeAt(row, k)
  {
    c, k := owner.child, 0;
    var left := which;
    while c != null && left > 0
      invariant k <= |row| && c == NodeAt(row, k)
      invariant if which < 0 then k == 0 && left == which else k + left == which && left >= 0
      decreases |row| - k
    {
      assert c == row[k];
      c, left := c.next, left - 1;
      k := k + 1;
    }
  }

  /** suffix_object */
  method SuffixObject(prev: Node, item: Node)
    modifies prev`next, item`prev
    ensures prev.next == item && item.prev == prev
  {
    prev.next := item;
    item.prev := prev;
  }

  method AddItemToArray(owner: Node, item: Node?, ghost row: seq<Node>)
    requires Row(owner, row)
    requires item != null ==> item !in row && item.next == null && item.prev == null
    modifies owner`child, row`next, (if item == null then {} else {item})`prev
    ensures Row(owner, if item == null then row else row + [item])
  {
    var c := owner.child;
    if item == null {
      return;
    }
    if c == null {
      owner.child := item;
    } else {
      ghost var k := 0;
      while c.next != null
        invariant 0 <= k < |row| && c == row[k]
        decreases |row| - k
      {
        assert c.next == NodeAt(row, k + 1);
        c := c.next;
        k := k + 1;
      }
      assert k + 1 == |row|;
      SuffixObject(c, item);
    }
  }

  ghost predicate Distinct(row: seq<Node>) {
    forall i, j :: 0 <= i < j < |row| ==> row[i] != row[j]
  }

  /** Every node but the k-th is linked as if the k-th were m (or, without m, as if it were not there). */
  ghost predicate LinkedAround(owner: Node, row: seq<Node>, k: nat, m: Node?)
    requires k < |row|
    reads owner`child, row`next, row`prev
  {
    && owner.child == (if k > 0 then row[0] else if m != null then m else NodeAt(row, 1))
    && (forall i :: 0 <= i < |row| && i != k ==>
          && row[i].next == (if i + 1 != k then NodeAt(row, i + 1) else if m != null then m else NodeAt(row, k + 1))
          && row[i].prev == (if i - 1 != k then NodeAt(row, i - 1) else if m != null then m else NodeAt(row, k - 1)))
  }

  lemma RowWithout(owner: Node, row: seq<Node>, k: nat)
    requires k < |row| && Distinct(row) && LinkedAround(owner, row, k, null)
    ensures Row(owner, row[..k] + row[k + 1..])
  {
    hide Distinct;
    var shorter := row[..k] + row[k + 1..];
    DistinctWithout(row, k);
    forall i | 0 <= i < |shorter|
      ensures shorter[i].next == NodeAt(shorter, i + 1) && shorter[i].prev == NodeAt(shorter, i - 1)
    {
      var j := if i < k then i else i + 1;
      assert shorter[i] == row[j] && j != k;
    }
  }

  lemma DistinctWithout(row: seq<Node>, k: nat)
    requires k < |row| && Distinct(row)
    ensures Distinct(row[..k] + row[k + 1..])
  {
    var shorter := row[..k] + row[k + 1..];
    forall i, j | 0 <= i < j < |shorter|
      ensures shorter[i] != shorter[j]
    {
      assert shorter[i] == row[if i < k then i else i + 1] && shorter[j] == row[if j < k then j else j + 1];
    }
  }

  lemma RowWith(owner: Node, row: seq<Node>, k: nat, m: Node)
    requires k < |row| && Distinct(row) && m !in row && LinkedAround(owner, row, k, m)
    requires m.next == NodeAt(row, k + 1) && m.prev == NodeAt(row, k - 1)
    ensures Row(owner, row[k := m])
  {
    var changed := row[k := m];
    forall i | 0 <= i < |changed|
      ensures changed[i].next == NodeAt(changed, i + 1) && changed[i].prev == NodeAt(changed, i - 1)
    {
    }
  }

  method Unlink(owner: Node, c: Node, ghost row: seq<Node>, ghost k: nat)
    requires Row(owner, row) && k < |row| && c == row[k]
    modifies owner`child, row`next, row`prev
    ensures LinkedAround(owner, row, k, null) && c.next == null && c.prev == null
  {
    assert c.prev == NodeAt(row, k - 1) && c.next == NodeAt(row, k + 1);
    if c.prev != null {
      c.prev.next := c.next;
    }
    if c.next != null {
      c.next.prev := c.prev;
    }
    if c == owner.child {
      owner.child := c.next;
    }
    c.prev, c.next := null, null;
  }

  method DetachItemFromArray(owner: Node, which: int, ghost row: seq<Node>) returns (c: Node?, ghost k: nat)
    requires Row(owner, row)
    modifies owner`child, row`next, row`prev
    ensures k == (if which < 0 then 0 else if which > |row| then |row| else which) && c == NodeAt(row, k)
    ensures c == null ==> Row(owner, row)
    ensures c != null ==> c.next == null && c.prev == null && Row(owner, row[..k] + row[k + 1..])
  {
    c, k := Walk(owner, which, row);
    if c == null {
      return;
    }
    Unlink(owner, c, row, k);
    RowWithout(owner, row, k);
  }

  method Exchange(owner: Node, c: Node, newitem: Node, ghost row: seq<Node>, ghost k: nat)
    requires Row(owner, row) && k < |row| && c == row[k] && newitem !in row
    modifies owner`child, row`next, row`prev, newitem`next, newitem`prev
    ensures LinkedAround(owner, row, k, newitem) && c.next == null && c.prev == null
    ensures newitem.next == NodeAt(row, k + 1) && newitem.prev == NodeAt(row, k - 1)
  {
    assert c.prev == NodeAt(row, k - 1) && c.next == NodeAt(row, k + 1);
    newitem.next := c.next;
    newitem.prev := c.prev;
    if newitem.next != null {
      newitem.next.prev := newitem;
    }
    if c == owner.child {
      assert k == 0;
      owner.child := newitem;
    } else {
      newitem.prev.next := newitem;
    }
    c.next, c.prev := null, null;
  }

  /** The chain part of cJSON_ReplaceItemInArray; the node replaced is handed back for deletion. */
  method ReplaceItemInArray(owner: Node, which: int, newitem: Node, ghost row: seq<Node>)
    returns (c: Node?, ghost k: nat)
    requires Row(owner, row) && newitem !in row
    modifies owner`child, row`next, row`prev, newitem`next, newitem`prev
    ensures k == (if which < 0 then 0 else if which > |row| then |row| else which) && c == NodeAt(row, k)
    ensures c == null ==> Row(owner, row) && unchanged(newitem)
    ensures c != null ==> c.next == null && c.prev == null && Row(owner, row[k := newitem])
  {
    c, k := Walk(owner, which, row);
    if c == null {
      return;
    }
    Exchange(owner, c, newitem, row, k);
    RowWith(owner, row, k, newitem);
  }

  // ------------------------------------------------------------- access by name

  function Lower(c: char): char {
    if 'A' <= c <= 'Z' then (c as int + 32) as char else c
  }

  /** cJSON_strcasecmp gives zero. */
  predicate SameName(name: Option<string>, s: string) {
    name.Some? && |name.value| == |s| && forall i :: 0 <= i < |s| ==> Lower(name.value[i]) == Lower(s[i])
  }

  /** A letter of the alphabet in either case. */
  predicate Letter(k: nat, upper: char, lower: char)
    requires k < 26
  {
    upper == "ABCDEFGHIJKLMNOPQRSTUVWXYZ"[k] && lower == "abcdefghijklmnopqrstuvwxyz"[k]
  }

  /** The two cases of one letter. */
  predicate TwoCases(c: char, d: char) {
    exists k :: 0 <= k < 26 && (Letter(k, c, d) || Letter(k, d, c))
  }

  lemma LetterIs(k: nat, upper: char, lower: char)
    requires k < 26
    ensures Letter(k, upper, lower) <==> upper == ('A' as int + k) as char && lower == ('a' as int + k) as char
  {
  }

  lemma LowerIs(c: char, d: char)
    ensures Lower(c) == Lower(d) <==> c == d || TwoCases(c, d)
  {
    hide Letter;
    if TwoCases(c, d) {
      var k :| 0 <= k < 26 && (Letter(k, c, d) || Letter(k, d, c));
      LetterIs(k, c, d);
      LetterIs(k, d, c);
    } else if Lower(c) == Lower(d) && c != d {
      var k := Lower(c) as int - 'a' as int;
      LetterIs(k, c, d);
      LetterIs(k, d, c);
    }
  }

  /** Names match when every character is the same or the other case of the same letter. */
  lemma SameNameIs(t: string, s: string)
    ensures SameName(Some(t), s) <==> |t| == |s| && forall i :: 0 <= i < |s| ==> t[i] == s[i] || TwoCases(t[i], s[i])
  {
    hide Lower, TwoCases;
    if |t| == |s| {
      forall i | 0 <= i < |s|
        ensures Lower(t[i]) == Lower(s[i]) <==> t[i] == s[i] || TwoCases(t[i], s[i])
      {
        LowerIs(t[i], s[i]);
      }
    }
  }

  method EqualIgnoringCase(name: Option<string>, s: string) returns (b: bool)
    ensures b == SameName(name, s)
  {
    if name == None {
      return false;
    }
    var t, i := name.value, 0;
    while i < |t| && i < |s| && Lower(t[i]) == Lower(s[i])
      invariant i <= |t| && i <= |s|
      invariant forall j :: 0 <= j < i ==> Lower(t[j]) == Lower(s[j])
    {
      i := i + 1;
    }
    b := i == |t| && i == |s|;
  }

  /** The search of cJSON_GetObjectItem and of the detaching and replacing by name. */
  method FindByName(owner: Node, s: string, ghost row: seq<Node>) returns (c: Node?, k: nat)
    requires Row(owner, row)
    ensures k <= |row| && c == NodeAt(row, k)
    ensures forall i :: 0 <= i < k ==> !SameName(row[i].name, s)
    ensures k < |row| ==> SameName(row[k].name, s)
  {
    c, k := owner.child, 0;
    while c != null
      invariant k <= |row| && c == NodeAt(row, k)
      invariant forall i :: 0 <= i < k ==> !SameName(row[i].name, s)
      decreases |row| - k
    {
      assert c == row[k];
      var same := EqualIgnoringCase(c.name, s);
      if same {
        return;
      }
      c, k := c.next, k + 1;
    }
  }

  /** Detaches the first child whose name matches, ignoring case, and no other. */
  method DetachItemFromObject(owner: Node, s: string, ghost row: seq<Node>) returns (c: Node?, ghost k: nat)
    requires Row(owner, row)
    modifies owner`child, row`next, row`prev
    ensures k <= |row| && c == NodeAt(row, k) && forall i :: 0 <= i < k ==> !SameName(row[i].name, s)
    ensures c == null ==> Row(owner, row)
    ensures c != null ==> SameName(c.name, s) && c.next == null && c.prev == null && Row(owner, row[..k] + row[k + 1..])
  {
    var i;
    c, i := FindByName(owner, s, row);
    k := i;
    if c != null {
      c, k := DetachItemFromArray(owner, i, row);
    }
  }

  // ------------------------------------------------------------- trees

  /** Which nodes make up a tree, written down beside the heap: a root and its children in order. */
  datatype Shape = Shape(node: Node, kids: seq<Shape>)

  function Front<T>(s: seq<T>): seq<T>
    requires s != []
  {
    s[..|s| - 1]
  }

  function Last<T>(s: seq<T>): T
    requires s != []
  {
    s[|s| - 1]
  }

  ghost function Nodes(sh: Shape): (r: set<Node>)
    ensures sh.node in r
  {
    {sh.node} + ForestNodes(sh.kids)
  }

  ghost function ForestNodes(kids: seq<Shape>): (r: set<Node>)
    ensures kids != [] ==> Nodes(Last(kids)) <= r && ForestNodes(Front(kids)) <= r
  {
    if kids == [] then {} else ForestNodes(Front(kids)) + Nodes(Last(kids))
  }

  /** A chain of children whose last node may still be linked further: every child is a tree,
      neighbours point at each other, and no node occurs twice. */
  ghost predicate Chain(kids: seq<Shape>)
    reads if kids == [] then {} else ForestNodes(Front(kids)) + ForestNodes(Last(kids).kids)
    reads (if kids == [] then {} else {Last(kids).node})`child, (if kids == [] then {} else {Last(kids).node})`prev
    reads (if kids == [] then {} else {Last(kids).node})`kind
    reads (if kids == [] then {} else {Last(kids).node})`valueint, (if kids == [] then {} else {Last(kids).node})`valuedouble
    decreases kids
  {
    kids != [] ==>
      var front, last := Front(kids), Last(kids);
      && Chain(front)
      && Tree(last)
      && Nodes(last) !! ForestNodes(front)
      && last.node.prev == (if front == [] then null else Last(front).node)
      && (front != [] ==> Last(front).node.next == last.node)
  }

  /** The integer field of a number follows the real one where C defines the conversion to be exact. */
  predicate Agree(i: int, d: real) {
    IsInt32(d) ==> i == d.Floor
  }

  ghost predicate Tree(sh: Shape)
    reads {sh.node}`child, {sh.node}`kind, {sh.node}`valueint, {sh.node}`valuedouble, ForestNodes(sh.kids)
    decreases sh
  {
    && sh.node !in ForestNodes(sh.kids)
    && sh.node.child == (if sh.kids == [] then null else sh.kids[0].node)
    && (sh.node.kind == KNumber ==> Agree(sh.node.valueint, sh.node.valuedouble))
    && Chain(sh.kids)
    && (sh.kids != [] ==> Last(sh.kids).node.next == null)
  }

  function Text(s: Option<string>): string {
    if s.Some? then s.value else ""
  }

  /** The contents of a tree of nodes, links aside. */
  datatype Image = Image(kind: Kind, valuestring: Option<string>, valueint: int, valuedouble: real,
                         name: Option<string>, kids: seq<Image>)

  ghost function ImageOf(sh: Shape): Image
    reads {sh.node}`kind, {sh.node}`valuestring, {sh.node}`valueint, {sh.node}`valuedouble, {sh.node}`name
    reads ForestNodes(sh.kids)
    decreases sh
  {
    var n := sh.node;
    Image(n.kind, n.valuestring, n.valueint, n.valuedouble, n.name, Images(sh.kids))
  }

  ghost function Images(kids: seq<Shape>): (ims: seq<Image>)
    reads ForestNodes(kids)
    ensures |ims| == |kids|
    decreases kids
  {
    if kids == [] then [] else Images(Front(kids)) + [ImageOf(Last(kids))]
  }

  /** The JSON value that contents stand for. */
  function ValueOf(im: Image): Json {
    match im.kind
    case KFalse => False
    case KTrue => True
    case KNull => Null
    case KNumber => Number(im.valuedouble)
    case KString => Str(Text(im.valuestring))
    case KArray => Arr(ItemsOf(im.kids))
    case KObject => Obj(MembersOf(im.kids))
  }

  function ItemsOf(ims: seq<Image>): (vs: seq<Json>)
    ensures |vs| == |ims| && forall i :: 0 <= i < |ims| ==> vs[i] == ValueOf(ims[i])
  {
    if ims == [] then [] else ItemsOf(Front(ims)) + [ValueOf(Last(ims))]
  }

  function MembersOf(ims: seq<Image>): (ms: seq<Member>)
    ensures |ms| == |ims| && forall i :: 0 <= i < |ims| ==> ms[i] == Member(Text(ims[i].name), ValueOf(ims[i]))
  {
    if ims == [] then [] else MembersOf(Front(ims)) + [Member(Text(Last(ims).name), ValueOf(Last(ims)))]
  }

  ghost function Value(sh: Shape): Json
    reads {sh.node}`kind, {sh.node}`valuestring, {sh.node}`valueint, {sh.node}`valuedouble, {sh.node}`name
    reads ForestNodes(sh.kids)
  {
    ValueOf(ImageOf(sh))
  }

  lemma {:induction false} Snoc(kids: seq<Shape>, ish: Shape)
    ensures Front(kids + [ish]) == kids && Last(kids + [ish]) == ish
    ensures ForestNodes(kids + [ish]) == ForestNodes(kids) + Nodes(ish)
  {
    assert Front(kids + [ish]) == kids;
  }

  /** What a walk along the chain finds at the k-th child. */
  lemma {:induction false} ChainAt(kids: seq<Shape>, k: nat)
    requires Chain(kids) && k < |kids|
    ensures Tree(kids[k]) && Nodes(kids[k]) <= ForestNodes(kids)
    ensures k + 1 < |kids| ==> kids[k].node.next == kids[k + 1].node
    ensures Images(kids)[k] == ImageOf(kids[k])
  {
    hide Chain, Tree, Nodes, ForestNodes, Images;
    ChainStep(kids);
    if k + 1 < |kids| {
      ChainAt(Front(kids), k);
      if k + 2 == |kids| { assert Last(Front(kids)) == kids[k]; }
    }
  }

  lemma {:induction false} ChainStep(kids: seq<Shape>)
    requires kids != [] && Chain(kids)
    ensures Chain(Front(kids)) && Tree(Last(kids)) && Images(kids) == Images(Front(kids)) + [ImageOf(Last(kids))]
    ensures Nodes(Last(kids)) <= ForestNodes(kids) && ForestNodes(Front(kids)) <= ForestNodes(kids)
    ensures Front(kids) != [] ==> Last(Front(kids)).node.next == Last(kids).node
  {
  }

  /** A chain built up so far hangs off its owner, and last is its last node. */
  ghost predicate Building(owner: Node, last: Node?, kids: seq<Shape>)
    reads owner`child, ForestNodes(kids)
  {
    && Chain(kids) && owner !in ForestNodes(kids)
    && owner.child == (if kids == [] then null else kids[0].node)
    && last == (if kids == [] then null else Last(kids).node)
    && (last != null ==> last.next == null)
  }

  lemma {:induction false} LastFacts(kids: seq<Shape>)
    requires kids != [] && Chain(kids)
    ensures var front, last := Front(kids), Last(kids);
            && last.node !in ForestNodes(front) && last.node !in ForestNodes(last.kids)
            && ForestNodes(kids) == ForestNodes(front) + ({last.node} + ForestNodes(last.kids))
            && Images(kids) == Images(front) + [ImageOf(last)]
  {
  }

  /** Hangs a finished tree on the end of the chain. */
  method HangChild(owner: Node, last: Node?, item: Node, ghost kids: seq<Shape>, ghost ish: Shape)
    requires Building(owner, last, kids)
    requires Tree(ish) && ish.node == item && owner !in Nodes(ish) && Nodes(ish) !! ForestNodes(kids)
    requires item.prev == null && item.next == null
    modifies owner`child, (if last == null then {} else {last})`next, item`prev
    ensures Building(owner, item, kids + [ish])
    ensures Images(kids + [ish]) == old(Images(kids)) + [old(ImageOf(ish))]
  {
    Snoc(kids, ish);
    if last == null {
      owner.child := item;
    } else {
      HangNext(last, item, kids, ish);
    }
  }

  lemma {:induction false} ChainGrown(kids: seq<Shape>, ish: Shape)
    requires kids != [] && Chain(kids) && Tree(ish) && Nodes(ish) !! ForestNodes(kids)
    requires Last(kids).node.next == ish.node && ish.node.prev == Last(kids).node
    ensures Chain(kids + [ish]) && Images(kids + [ish]) == Images(kids) + [ImageOf(ish)]
  {
    Snoc(kids, ish);
  }

  method HangNext(last: Node, item: Node, ghost kids: seq<Shape>, ghost ish: Shape)
    requires kids != [] && Chain(kids) && last == Last(kids).node
    requires Tree(ish) && ish.node == item && Nodes(ish) !! ForestNodes(kids)
    modifies last`next, item`prev
    ensures Chain(kids + [ish]) && last.next == item
    ensures Images(kids + [ish]) == old(Images(kids)) + [old(ImageOf(ish))]
  {
    hide Tree, Chain, Images, ImageOf, ForestNodes, Nodes, Agree;
    LastFacts(kids);
    RootFacts(ish);
    last.next := item;
    item.prev := last;
    LastFacts(kids);
    ChainGrown(kids, ish);
  }

  // ------------------------------------------------------------- copying and deleting

  lemma {:induction false} RootFacts(sh: Shape)
    requires Tree(sh)
    ensures sh.node.kind == KNumber ==> Agree(sh.node.valueint, sh.node.valuedouble)
    ensures var n := sh.node;
            ImageOf(sh) == Image(n.kind, n.valuestring, n.valueint, n.valuedouble, n.name, Images(sh.kids))
    ensures Nodes(sh) == {sh.node} + ForestNodes(sh.kids) && sh.node !in ForestNodes(sh.kids)
    ensures Chain(sh.kids) && (sh.kids != [] ==> Last(sh.kids).node.next == null)
    ensures sh.node.child == (if sh.kids == [] then null else sh.kids[0].node)
  {
  }

  /** What the chain predicate reads lies among the nodes of the chain. */
  lemma {:induction false} ChainDomain(kids: seq<Shape>)
    requires kids != []
    ensures ForestNodes(Front(kids)) + ForestNodes(Last(kids).kids) + {Last(kids).node} <= ForestNodes(kids)
  {
  }

  lemma LeafFacts(n: Node)
    requires n.child == null && (n.kind == KNumber ==> Agree(n.valueint, n.valuedouble))
    ensures Tree(Shape(n, [])) && Nodes(Shape(n, [])) == {n}
    ensures ImageOf(Shape(n, [])) == Image(n.kind, n.valuestring, n.valueint, n.valuedouble, n.name, [])
  {
  }

  lemma StartFacts(owner: Node)
    requires owner.child == null
    ensures Building(owner, null, []) && ForestNodes([]) == {} && Images([]) == []
  {
  }

  lemma {:induction false} FinishFacts(owner: Node, last: Node?, kids: seq<Shape>)
    requires Building(owner, last, kids) && (owner.kind == KNumber ==> Agree(owner.valueint, owner.valuedouble))
    ensures var n := owner;
            Tree(Shape(n, kids)) && Nodes(Shape(n, kids)) == {n} + ForestNodes(kids)
            && ImageOf(Shape(n, kids)) == Image(n.kind, n.valuestring, n.valueint, n.valuedouble, n.name, Images(kids))
  {
  }

  /** cJSON_Duplicate: a copy on new nodes, with or without the children. The ghost set holds
      all nodes of the original. */
  method Duplicate(item: Node?, recurse: bool, ghost sh: Shape, ghost all: set<Node>)
    returns (newitem: Node?, ghost copy: Shape)
    requires item != null ==> Tree(sh) && sh.node == item && Nodes(sh) <= all
    ensures item == null <==> newitem == null
    ensures item != null ==>
              && copy.node == newitem && fresh(Nodes(copy)) && Tree(copy)
              && newitem.next == null && newitem.prev == null
              && ImageOf(copy) == if recurse then old(ImageOf(sh)) else old(ImageOf(sh)).(kids := [])
    decreases sh, 3
  {
    hide Tree, Chain, ImageOf, Images, Agree, Nodes, ForestNodes;
    copy := sh;
    newitem := null;
    if item == null {
      return;
    }
    RootFacts(sh);
    var n := CopyFields(item);
    newitem := n;
    copy := Shape(n, []);
    LeafFacts(n);
    if recurse {
      copy := DuplicateChildren(item, n, sh, all);
    }
  }

  method CopyFields(item: Node) returns (n: Node)
    ensures fresh(n) && n.next == null && n.prev == null && n.child == null
    ensures n.kind == item.kind && n.valueint == item.valueint && n.valuedouble == item.valuedouble
    ensures n.valuestring == item.valuestring && n.name == item.name
  {
    n := new Node();
    n.kind, n.valueint, n.valuedouble := item.kind, item.valueint, item.valuedouble;
    n.valuestring := item.valuestring;
    n.name := item.name;
  }

  method DuplicateChildren(item: Node, newitem: Node, ghost sh: Shape, ghost all: set<Node>) returns (ghost copy: Shape)
    requires Tree(sh) && sh.node == item && Nodes(sh) <= all && newitem !in all
    requires newitem.child == null
    requires newitem.kind == item.kind && newitem.valueint == item.valueint && newitem.valuedouble == item.valuedouble
    requires newitem.valuestring == item.valuestring && newitem.name == item.name
    modifies newitem`child
    ensures copy.node == newitem && Nodes(copy) == {newitem} + ForestNodes(copy.kids) && fresh(ForestNodes(copy.kids))
    ensures Tree(copy) && ImageOf(copy) == old(ImageOf(sh))
    decreases sh, 2
  {
    hide Tree, Chain, ImageOf, Images, Agree, Nodes, ForestNodes, Building;
    RootFacts(sh);
    ghost var last, made := CopyChain(item.child, newitem, sh, all);
    FinishFacts(newitem, last, made);
    copy := Shape(newitem, made);
  }

  /** Copies the children one by one and hangs each copy on the new node. */
  method CopyChain(first: Node?, newitem: Node, ghost sh: Shape, ghost all: set<Node>)
    returns (ghost last: Node?, ghost made: seq<Shape>)
    requires Tree(sh) && first == sh.node.child && Nodes(sh) <= all && newitem !in all && newitem.child == null
    modifies newitem`child
    ensures Building(newitem, last, made) && fresh(ForestNodes(made)) && Images(made) == old(Images(sh.kids))
    decreases sh, 1
  {
    hide Tree, Chain, ImageOf, Images, Agree, Nodes, ForestNodes, Building, Source;
    RootFacts(sh);
    ghost var kids, want := sh.kids, Images(sh.kids);
    ghost var own: set<Node> := {};
    made := [];
    var cptr, nptr: Node? := first, null;
    StartFacts(newitem);
    SourceStart(sh);
    while cptr != null
      invariant |made| <= |kids| && cptr == (if |made| < |kids| then kids[|made|].node else null)
      invariant Building(newitem, nptr, made) && ForestNodes(made) == own && fresh(own)
      invariant nptr != null ==> fresh(nptr)
      invariant Source(sh, want)
      invariant Images(made) == want[..|made|]
      decreases |kids| - |made|
    {
      SourceAt(sh, want, |made|);
      assert want[..|made|] + [want[|made|]] == want[..|made| + 1];
      ghost var ish;
      nptr, ish := CopyNext(cptr, newitem, nptr, kids[|made|], made, sh, all, own);
      made, own := made + [ish], own + Nodes(ish);
      cptr := cptr.next;
    }
    assert want[..|made|] == want;
    last := nptr;
  }

  /** The tree being read, which no step of the copying changes. */
  ghost predicate Source(sh: Shape, want: seq<Image>)
    reads Nodes(sh)
  {
    Tree(sh) && Images(sh.kids) == want
  }

  lemma {:induction false} SourceStart(sh: Shape)
    requires Tree(sh)
    ensures Source(sh, Images(sh.kids)) && |Images(sh.kids)| == |sh.kids|
  {
  }

  lemma {:induction false} SourceAt(sh: Shape, want: seq<Image>, k: nat)
    requires Source(sh, want) && k < |sh.kids|
    ensures |want| == |sh.kids|
    ensures Tree(sh.kids[k]) && Nodes(sh.kids[k]) <= Nodes(sh) && ImageOf(sh.kids[k]) == want[k]
    ensures sh.kids[k].node.next == (if k + 1 < |sh.kids| then sh.kids[k + 1].node else null)
  {
    hide Tree, Chain, ImageOf, Images, Nodes, ForestNodes, Agree;
    RootFacts(sh);
    ChainAt(sh.kids, k);
    ChainEnd(sh, k);
  }

  lemma {:induction false} ChainEnd(sh: Shape, k: nat)
    requires Tree(sh) && k < |sh.kids|
    ensures sh.kids[k].node.next == if k + 1 < |sh.kids| then sh.kids[k + 1].node else null
  {
    ChainAt(sh.kids, k);
  }

  method CopyNext(cptr: Node, newitem: Node, nptr: Node?, ghost csh: Shape, ghost made: seq<Shape>, ghost sh: Shape,
                  ghost all: set<Node>, ghost own: set<Node>) returns (newchild: Node, ghost ish: Shape)
    requires Tree(csh) && csh.node == cptr && csh < sh && Nodes(csh) <= all
    requires newitem !in all && ForestNodes(made) == own && own !! all
    requires Building(newitem, nptr, made)
    modifies newitem`child, (if nptr == null then {} else {nptr})`next
    ensures Building(newitem, newchild, made + [ish])
    ensures Images(made + [ish]) == old(Images(made)) + [old(ImageOf(csh))]
    ensures ForestNodes(made + [ish]) == own + Nodes(ish) && fresh(Nodes(ish)) && newchild in Nodes(ish)
    decreases sh, 0
  {
    hide Tree, Chain, ImageOf, Images, Nodes, ForestNodes, Building;
    newchild, ish := Duplicate(cptr, true, csh, all);
    HangChild(newitem, nptr, newchild, made, ish);
    Snoc(made, ish);
  }

  lemma {:induction false} ChainPrefix(kids: seq<Shape>, k: nat)
    requires Chain(kids) && k < |kids|
    ensures Chain(kids[..k]) && Nodes(kids[k]) !! ForestNodes(kids[..k])
    ensures ForestNodes(kids[..k + 1]) == ForestNodes(kids[..k]) + Nodes(kids[k])
    decreases kids
  {
    if k + 1 < |kids| {
      ChainPrefix(Front(kids), k);
      assert Front(kids)[..k] == kids[..k] && Front(kids)[..k + 1] == kids[..k + 1];
    } else {
      assert kids[..k] == Front(kids) && kids[..k + 1] == kids;
    }
  }

  /** A whole chain of siblings, up to its last. */
  ghost predicate Closed(kids: seq<Shape>)
    reads ForestNodes(kids)
  {
    Chain(kids) && (kids != [] ==> Last(kids).node.next == null)
  }

  lemma {:induction false} ClosedAt(kids: seq<Shape>, k: nat)
    requires Closed(kids) && k < |kids|
    ensures kids[k].node.next == (if k + 1 < |kids| then kids[k + 1].node else null)
    ensures var n, inner := kids[k].node, kids[k].kids;
            && Closed(inner) && n.child == (if inner == [] then null else inner[0].node)
            && n !in ForestNodes(inner) && ForestNodes(inner) <= ForestNodes(kids)
            && ({n} + ForestNodes(inner)) !! ForestNodes(kids[..k])
            && ForestNodes(kids[..k + 1]) == ForestNodes(kids[..k]) + ({n} + ForestNodes(inner))
  {
    hide Tree, Chain, Nodes, ForestNodes, Agree;
    ChainAt(kids, k);
    ChainPrefix(kids, k);
    RootFacts(kids[k]);
  }

  lemma OneMoreFreed(done: multiset<Node>, before: set<Node>, n: Node, inner: set<Node>)
    requires done == multiset(before) && n !in inner && ({n} + inner) !! before
    ensures done + multiset(inner) + multiset{n} == multiset(before + ({n} + inner))
  {
  }

  /** What has been freed when the walk is at child k. */
  ghost predicate Freed(kids: seq<Shape>, k: nat, freed: seq<Node>) {
    k <= |kids| && multiset(freed) == multiset(ForestNodes(kids[..k]))
  }

  lemma {:induction false} FreedNext(kids: seq<Shape>, k: nat, freed: seq<Node>, inner: seq<Node>)
    requires Closed(kids) && k < |kids| && Freed(kids, k, freed)
    requires multiset(inner) == multiset(ForestNodes(kids[k].kids))
    ensures Freed(kids, k + 1, freed + inner + [kids[k].node])
  {
    hide Closed, Nodes, ForestNodes;
    ClosedAt(kids, k);
    OneMoreFreed(multiset(freed), ForestNodes(kids[..k]), kids[k].node, ForestNodes(kids[k].kids));
  }

  lemma {:induction false} FreedEnds(kids: seq<Shape>, freed: seq<Node>)
    ensures Freed(kids, 0, [])
    ensures Freed(kids, |kids|, freed) ==> multiset(freed) == multiset(ForestNodes(kids))
  {
    assert kids[..0] == [] && kids[..|kids|] == kids;
  }

  /** What the walk needs of child k. */
  lemma {:induction false} ClosedLinks(kids: seq<Shape>, k: nat)
    requires Closed(kids) && k < |kids|
    ensures kids[k].node.next == (if k + 1 < |kids| then kids[k + 1].node else null)
    ensures kids[k].node.child == (if kids[k].kids == [] then null else kids[k].kids[0].node)
    ensures Closed(kids[k].kids) && ForestNodes(kids[k].kids) <= ForestNodes(kids)
  {
    hide Closed, Nodes, ForestNodes;
    ClosedAt(kids, k);
  }

  /** cJSON_Delete: the log of the nodes it frees, in order; each node exactly once. */
  method Delete(c: Node?, ghost kids: seq<Shape>, ghost all: set<Node>) returns (freed: seq<Node>)
    requires Closed(kids) && c == (if kids == [] then null else kids[0].node) && ForestNodes(kids) <= all
    ensures multiset(freed) == multiset(ForestNodes(kids))
    ensures forall o: object {:trigger allocated(o)} :: allocated(o) ==> old(allocated(o))
    decreases kids, 1
  {
    hide Closed, Nodes, ForestNodes, Freed;
    freed := [];
    var p := c;
    ghost var k := 0;
    FreedEnds(kids, []);
    while p != null
      invariant Closed(kids)
      invariant k <= |kids| && p == (if k < |kids| then kids[k].node else null)
      invariant Freed(kids, k, freed)
      invariant forall o: object {:trigger allocated(o)} :: allocated(o) ==> old(allocated(o))
      decreases |kids| - k
    {
      ClosedLinks(kids, k);
      var next := p.next;
      freed := DeleteNode(p, freed, kids, k, all);
      p := next;
      k := k + 1;
    }
    FreedEnds(kids, freed);
  }

  /** The children of a node, and then the node. */
  method DeleteNode(p: Node, before: seq<Node>, ghost kids: seq<Shape>, ghost k: nat, ghost all: set<Node>) returns (freed: seq<Node>)
    requires Closed(kids) && k < |kids| && p == kids[k].node && ForestNodes(kids) <= all && Freed(kids, k, before)
    ensures Freed(kids, k + 1, freed)
    ensures forall o: object {:trigger allocated(o)} :: allocated(o) ==> old(allocated(o))
    decreases kids, 0
  {
    hide Closed, Nodes, ForestNodes, Freed;
    ClosedLinks(kids, k);
    var inner: seq<Node> := [];
    EmptyForest();
    if p.child != null {
      inner := Delete(p.child, kids[k].kids, all);
    }
    FreedNext(kids, k, before, inner);
    freed := before + inner;
    freed := freed + [p];
  }

  lemma EmptyForest()
    ensures ForestNodes([]) == {}
  {
  }
}
