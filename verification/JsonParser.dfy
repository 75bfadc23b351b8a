/** parse_value, parse_array and parse_object: the recursive descent that builds the nodes. */
module JsonParser {
  import opened Base
  import opened JsonText
  import opened JsonScanner
  import opened JsonHeap

  method SkipAt(text: string, at: nat) returns (end: nat)
    requires at <= |text|
    ensures at <= end <= |text| && text[end..] == Skip(text[at..])
    ensures forall o: object {:trigger allocated(o)} :: allocated(o) ==> old(allocated(o))
  {
    end := at;
    while end < |text| && text[end] <= ' '
      invariant at <= end <= |text| && Skip(text[end..]) == Skip(text[at..])
      invariant forall o: object {:trigger allocated(o)} :: allocated(o) ==> old(allocated(o))
    {
      Rest(text, end, 1);
      end := end + 1;
    }
  }

  /** strncmp with a literal. */
  predicate Matches(text: string, at: nat, word: string) {
    at + |word| <= |text| && text[at..at + |word|] == word
  }

  lemma MatchIsPrefix(text: string, at: nat, word: string)
    requires at <= |text|
    ensures Matches(text, at, word) <==> word <= text[at..]
    ensures Matches(text, at, word) ==> text[at..][|word|..] == text[at + |word|..]
  {
    if at + |word| <= |text| {
      assert text[at..][..|word|] == text[at..at + |word|];
    }
  }

  /** What a parsing routine reports: on success where the text goes on, otherwise where the
      error pointer is; the nodes form a tree either way, and on success it stands for the
      value the text spells. */
  ghost predicate Parsed(r: Outcome<Json>, text: string, ok: bool, end: nat, sh: Shape)
    reads Nodes(sh)
  {
    && end <= |text| && Tree(sh)
    && (ok <==> r.Done?)
    && (ok ==> text[end..] == r.rest && Value(sh) == r.v)
    && (!ok ==> r == Failed(text[end..]))
  }

  /** A leaf: the C code has set its kind and contents. */
  lemma LeafParsed(r: Outcome<Json>, text: string, end: nat, n: Node)
    requires n.child == null
    requires n.kind == KNumber ==> Agree(n.valueint, n.valuedouble)
    requires end <= |text| && r.Done? && text[end..] == r.rest
    requires r.v == match n.kind
                    case KFalse => False
                    case KTrue => True
                    case KNull => Null
                    case KNumber => Number(n.valuedouble)
                    case KString => Str(Text(n.valuestring))
                    case KArray => Arr([])
                    case KObject => Obj([])
    ensures Parsed(r, text, true, end, Shape(n, []))
  {
    LeafFacts(n);
  }

  lemma LeafFailed(r: Outcome<Json>, text: string, end: nat, n: Node)
    requires n.child == null && n.kind != KNumber
    requires end <= |text| && r == Failed(text[end..])
    ensures Parsed(r, text, false, end, Shape(n, []))
  {
    LeafFacts(n);
  }

  /** The conversion (int)n; outside the range of int C leaves it undefined. */
  function Truncated(d: real): int {
    if d >= 0.0 then d.Floor else -(-d).Floor
  }

  lemma TruncatedAgrees(d: real)
    ensures Agree(Truncated(d), d)
  {
  }

  method ParseStringInto(item: Node, text: string, at: nat) returns (ok: bool, end: nat)
    requires at <= |text| && ParseString(text[at..]) != Undefined
    modifies item`valuestring, item`kind
    ensures ok <==> ParseString(text[at..]).Done?
    ensures ok ==> at < end <= |text| && text[end..] == ParseString(text[at..]).rest
    ensures ok ==> item.kind == KString && item.valuestring == Some(ParseString(text[at..]).v)
    ensures !ok ==> end == at && ParseString(text[at..]) == Failed(text[at..]) && unchanged(item)
    ensures forall o: object {:trigger allocated(o)} :: allocated(o) && o is Node ==> old(allocated(o))
  {
    var out, len;
    out, len, end := ScanString(text, at);
    ok := out != null;
    if out == null {
      end := at;
      return;
    }
    label Before:
    item.valuestring := Some(out[..len]);
    item.kind := KString;
    assert forall o: object {:trigger allocated(o)} :: allocated(o) ==> old@Before(allocated(o));
  }

  method ParseNumberInto(item: Node, text: string, at: nat) returns (end: nat)
    requires at <= |text|
    modifies item`valuedouble, item`valueint, item`kind
    ensures at <= end <= |text| && text[end..] == ParseNumber(text[at..]).1
    ensures item.kind == KNumber && item.valuedouble == ParseNumber(text[at..]).0 && Agree(item.valueint, item.valuedouble)
    ensures forall o: object {:trigger allocated(o)} :: allocated(o) ==> old(allocated(o))
  {
    var n;
    n, end := ScanNumber(text, at);
    label Before:
    item.valuedouble := n;
    item.valueint := Truncated(n);
    item.kind := KNumber;
    assert forall o: object {:trigger allocated(o)} :: allocated(o) ==> old@Before(allocated(o));
    TruncatedAgrees(n);
  }

  // ------------------------------------------------ how the loops follow the grammar

  function Prefixed<T>(vs: seq<T>, r: Outcome<seq<T>>): Outcome<seq<T>> {
    match r
    case Done(ws, rest) => Done(vs + ws, rest)
    case _ => r
  }

  lemma PrefixedTwice<T>(vs: seq<T>, ws: seq<T>, r: Outcome<seq<T>>)
    ensures Prefixed(vs, Prefixed(ws, r)) == Prefixed(vs + ws, r)
  {
    if r.Done? { assert vs + (ws + r.v) == vs + ws + r.v; }
  }

  lemma ItemsStep(t: string)
    ensures var first := ParseValue(Skip(t));
            ParseItems(t) == match first
                             case Done(v, r) =>
                               if StartsWith(Skip(r), ',') then Prefixed([v], ParseItems(Skip(r)[1..]))
                               else Done([v], Skip(r))
                             case Failed(at) => Failed(at)
                             case Undefined => Undefined
  {
  }

  lemma ArrayStep(t: string)
    requires StartsWith(t, '[')
    ensures var u := Skip(t[1..]);
            ParseValue(t) == if StartsWith(u, ']') then Done(Arr([]), u[1..])
                             else match ParseItems(u)
                                  case Done(vs, rest) => if StartsWith(rest, ']') then Done(Arr(vs), rest[1..]) else Failed(rest)
                                  case Failed(at) => Failed(at)
                                  case Undefined => Undefined
  {
  }

  lemma ObjectStep(t: string)
    requires StartsWith(t, '{')
    ensures var u := Skip(t[1..]);
            ParseValue(t) == if StartsWith(u, '}') then Done(Obj([]), u[1..])
                             else match ParseMembers(u)
                                  case Done(ms, rest) => if StartsWith(rest, '}') then Done(Obj(ms), rest[1..]) else Failed(rest)
                                  case Failed(at) => Failed(at)
                                  case Undefined => Undefined
  {
  }

  /** The text behind the character at the pointer. */
  function After(text: string, value: nat): string {
    if value < |text| then text[value + 1..] else []
  }

  /** The values read so far and the text from the pointer on make up the whole list. */
  ghost predicate Going<T>(total: Outcome<seq<T>>, vs: seq<T>, text: string, value: nat, rest: Outcome<seq<T>>) {
    && value <= |text|
    && total == if At(text, value) == ',' then Prefixed(vs, rest) else Done(vs, text[value..])
  }

  /** The same outcome with the white space behind it skipped. */
  function Skipped<T>(r: Outcome<T>): Outcome<T> {
    match r
    case Done(v, rest) => Done(v, Skip(rest))
    case _ => r
  }

  lemma ItemsStart(text: string, at: nat, k: nat)
    requires at <= |text| && k <= |text|
    ensures var total := ParseItems(text[at..]);
            match Skipped(ParseValue(Skip(text[at..])))
            case Done(v, rest) => text[k..] == rest ==> Going(total, [v], text, k, ParseItems(After(text, k)))
            case Failed(e) => total == Failed(e)
            case Undefined => total == Undefined
  {
    ItemsStep(text[at..]);
    assert k < |text| ==> text[k..][1..] == After(text, k);
  }

  lemma ItemsGoOn(total: Outcome<seq<Json>>, vs: seq<Json>, text: string, value: nat, k: nat)
    requires Going(total, vs, text, value, ParseItems(After(text, value))) && At(text, value) == ',' && k <= |text|
    ensures match Skipped(ParseValue(Skip(After(text, value))))
            case Done(v, rest) => text[k..] == rest ==> Going(total, vs + [v], text, k, ParseItems(After(text, k)))
            case Failed(e) => total == Failed(e)
            case Undefined => total == Undefined
  {
    ItemsStart(text, value + 1, k);
    var r := ParseValue(Skip(After(text, value)));
    if r.Done? {
      PrefixedTwice(vs, [r.v], ParseItems(After(text, k)));
    }
  }

  lemma MembersStart(text: string, at: nat, k: nat)
    requires at <= |text| && k <= |text|
    ensures var total := ParseMembers(text[at..]);
            match Skipped(ParseMember(text[at..]))
            case Done(m, rest) => text[k..] == rest ==> Going(total, [m], text, k, ParseMembers(After(text, k)))
            case Failed(e) => total == Failed(e)
            case Undefined => total == Undefined
  {
    assert k < |text| ==> text[k..][1..] == After(text, k);
  }

  lemma MembersGoOn(total: Outcome<seq<Member>>, ms: seq<Member>, text: string, value: nat, k: nat)
    requires Going(total, ms, text, value, ParseMembers(After(text, value))) && At(text, value) == ',' && k <= |text|
    ensures match Skipped(ParseMember(After(text, value)))
            case Done(m, rest) => text[k..] == rest ==> Going(total, ms + [m], text, k, ParseMembers(After(text, k)))
            case Failed(e) => total == Failed(e)
            case Undefined => total == Undefined
  {
    MembersStart(text, value + 1, k);
    var r := ParseMember(After(text, value));
    if r.Done? {
      PrefixedTwice(ms, [r.v], ParseMembers(After(text, k)));
    }
  }

  // ------------------------------------------------------------ growing the chain

  /** Links a new node behind the last one, before it is parsed into. */
  method LinkNew(owner: Node, last: Node, item: Node, ghost kids: seq<Shape>)
    requires Building(owner, last, kids) && kids != [] && item !in ForestNodes(kids) && item != owner
    modifies last`next, item`prev
    ensures last.next == item && item.prev == last
    ensures Chain(kids) && Images(kids) == old(Images(kids))
    ensures forall o: object {:trigger allocated(o)} :: allocated(o) ==> old(allocated(o))
  {
    hide Tree, Chain, Images, ImageOf, Nodes, ForestNodes;
    LastFacts(kids);
    last.next := item;
    item.prev := last;
    LastFacts(kids);
  }

  lemma {:induction false} Grown(owner: Node, last: Node, item: Node, kids: seq<Shape>, ish: Shape)
    requires kids != [] && Chain(kids) && last == Last(kids).node && owner !in ForestNodes(kids)
    requires owner.child == kids[0].node && last.next == item && item.prev == last && item.next == null
    requires Tree(ish) && ish.node == item && owner !in Nodes(ish) && Nodes(ish) !! ForestNodes(kids)
    ensures Building(owner, item, kids + [ish]) && ForestNodes(kids + [ish]) == ForestNodes(kids) + Nodes(ish)
    ensures Images(kids + [ish]) == Images(kids) + [ImageOf(ish)]
  {
    Snoc(kids, ish);
  }

  lemma {:induction false} FirstGrown(owner: Node, item: Node, ish: Shape)
    requires owner.child == item && item.prev == null && item.next == null
    requires Tree(ish) && ish.node == item && owner !in Nodes(ish)
    ensures Building(owner, item, [ish]) && ForestNodes([ish]) == Nodes(ish)
    ensures Images([ish]) == [ImageOf(ish)]
  {
    Snoc([], ish);
    assert [] + [ish] == [ish];
  }

  // ------------------------------------------------------------ the recursive descent

  method ParseValueAt(item: Node, text: string, at: nat) returns (ok: bool, end: nat, ghost kids: seq<Shape>, ghost own: set<Node>)
    requires at <= |text| && ParseValue(text[at..]) != Undefined && item.child == null && item.kind != KNumber
    modifies item`kind, item`valuestring, item`valueint, item`valuedouble, item`child
    ensures own == ForestNodes(kids) && fresh(own) && item !in own
    ensures ok ==> end > at
    ensures Parsed(ParseValue(text[at..]), text, ok, end, Shape(item, kids))
    ensures forall o: object {:trigger allocated(o)} :: allocated(o) && o is Node ==> old(allocated(o)) || o in own
    decreases |text| - at, 1
  {
    hide Parsed, ParseNumber, ParseString, Tree, Agree;
    kids, own := [], {};
    EmptyForest();
    ghost var r := ParseValue(text[at..]);
    MatchIsPrefix(text, at, "null");
    MatchIsPrefix(text, at, "false");
    MatchIsPrefix(text, at, "true");
    if Matches(text, at, "null") {
      item.kind := KNull;
      ok, end := true, at + 4;
      LeafParsed(r, text, end, item);
    } else if Matches(text, at, "false") {
      item.kind := KFalse;
      ok, end := true, at + 5;
      LeafParsed(r, text, end, item);
    } else if Matches(text, at, "true") {
      item.kind := KTrue;
      item.valueint := 1;
      ok, end := true, at + 4;
      LeafParsed(r, text, end, item);
    } else if At(text, at) == '\"' {
      ok, end := ParseStringInto(item, text, at);
      if ok { LeafParsed(r, text, end, item); } else { LeafFailed(r, text, end, item); }
    } else if At(text, at) == '-' || IsDigit(At(text, at)) {
      end := ParseNumberInto(item, text, at);
      ok := true;
      LeafParsed(r, text, end, item);
    } else if At(text, at) == '[' {
      ok, end, kids, own := ParseArrayAt(item, text, at);
    } else if At(text, at) == '{' {
      ok, end, kids, own := ParseObjectAt(item, text, at);
    } else {
      ok, end := false, at;
      LeafFailed(r, text, end, item);
    }
  }

  lemma {:induction false} SkippedParsed(r: Outcome<Json>, text: string, end: nat, after: nat, sh: Shape)
    requires Parsed(r, text, true, end, sh) && after <= |text| && text[after..] == Skip(text[end..])
    ensures Parsed(Skipped(r), text, true, after, sh)
  {
  }

  lemma {:induction false} ParsedFacts(r: Outcome<Json>, text: string, ok: bool, end: nat, sh: Shape)
    requires Parsed(r, text, ok, end, sh)
    ensures end <= |text| && Tree(sh) && (ok <==> r.Done?) && Parsed(Skipped(r), text, false, end, sh) == !ok
  {
  }

  /** value = skip(parse_value(child, skip(value))) */
  method ParseItemInto(child: Node, text: string, at: nat)
    returns (ok: bool, end: nat, ghost sh: Shape, ghost own: set<Node>)
    requires at <= |text| && ParseValue(Skip(text[at..])) != Undefined && child.child == null && child.kind != KNumber
    modifies child`kind, child`valuestring, child`valueint, child`valuedouble, child`child
    ensures sh.node == child && own == Nodes(sh) && fresh(own - {child})
    ensures ok ==> end > at
    ensures Parsed(Skipped(ParseValue(Skip(text[at..]))), text, ok, end, sh)
    ensures forall o: object {:trigger allocated(o)} :: allocated(o) && o is Node ==> old(allocated(o)) || o in own
    decreases |text| - at, 2
  {
    hide Tree, Value, Parsed, ParseValue, Skip, Skipped, Nodes, ForestNodes;
    var from := SkipAt(text, at);
    ghost var kids, inner;
    ok, end, kids, inner := ParseValueAt(child, text, from);
    sh := Shape(child, kids);
    NodesOf(sh);
    own := {child} + inner;
    ParsedFacts(ParseValue(text[from..]), text, ok, end, sh);
    if ok {
      var after := SkipAt(text, end);
      SkippedParsed(ParseValue(text[from..]), text, end, after, sh);
      end := after;
    }
  }

  lemma {:induction false} NodesOf(sh: Shape)
    ensures Nodes(sh) == {sh.node} + ForestNodes(sh.kids)
  {
  }

  /** The children parsed so far hang off their owner, in the nodes own; total is the outcome
      of the whole list, of which the pointer has reached the end of the last child. */
  ghost predicate ArrayLoop(item: Node, child: Node, kids: seq<Shape>, own: set<Node>,
                            total: Outcome<seq<Json>>, text: string, value: nat)
    reads item`child, item`kind, ForestNodes(kids)
  {
    && Building(item, child, kids) && kids != [] && own == ForestNodes(kids) && item.kind == KArray
    && Going(total, ItemsOf(Images(kids)), text, value, ParseItems(After(text, value)))
  }

  /** A list that stopped at a syntax error. */
  ghost predicate Stopped<T>(item: Node, child: Node, kids: seq<Shape>, own: set<Node>, total: Outcome<seq<T>>, text: string, value: nat)
    reads item`child, ForestNodes(kids)
  {
    && Building(item, child, kids) && own == ForestNodes(kids)
    && value <= |text| && total == Failed(text[value..])
  }

  lemma {:induction false} FirstItem(item: Node, child: Node, ish: Shape, text: string, at: nat, ok: bool, value: nat)
    requires at <= |text| && ParseItems(text[at..]) != Undefined
    requires Parsed(Skipped(ParseValue(Skip(text[at..]))), text, ok, value, ish)
    requires item.child == child && child.prev == null && child.next == null
    requires ish.node == child && item !in Nodes(ish) && item.kind == KArray
    ensures ok ==> ArrayLoop(item, child, [ish], Nodes(ish), ParseItems(text[at..]), text, value)
    ensures !ok ==> Stopped(item, child, [ish], Nodes(ish), ParseItems(text[at..]), text, value)
  {
    hide Tree, Chain, Nodes, ForestNodes, Images, ImageOf, Building, Going, ParseItems, ParseValue, Skip;
    FirstGrown(item, child, ish);
    ItemsStart(text, at, value);
    assert ItemsOf([ImageOf(ish)]) == [ValueOf(ImageOf(ish))];
  }

  lemma {:induction false} ItemsOfSnoc(ims: seq<Image>, im: Image)
    ensures ItemsOf(ims + [im]) == ItemsOf(ims) + [ValueOf(im)]
  {
  }

  lemma {:induction false} NextItem(item: Node, last: Node, child: Node, kids: seq<Shape>, ish: Shape, own: set<Node>, ims: seq<Image>,
                 total: Outcome<seq<Json>>, text: string, value: nat, ok: bool, end: nat)
    requires kids != [] && Chain(kids) && last == Last(kids).node && item !in own && own == ForestNodes(kids)
    requires item.child == kids[0].node && last.next == child && child.prev == last && child.next == null
    requires ish.node == child && item !in Nodes(ish) && Nodes(ish) !! own && item.kind == KArray
    requires Images(kids) == ims && Going(total, ItemsOf(ims), text, value, ParseItems(After(text, value)))
    requires At(text, value) == ',' && total != Undefined
    requires Parsed(Skipped(ParseValue(Skip(After(text, value)))), text, ok, end, ish)
    ensures ok ==> ArrayLoop(item, child, kids + [ish], own + Nodes(ish), total, text, end)
    ensures !ok ==> Stopped(item, child, kids + [ish], own + Nodes(ish), total, text, end)
  {
    hide Tree, Chain, Nodes, ForestNodes, Images, ImageOf, Building, Going, ParseItems, ParseValue, Skip, ItemsOf;
    Grown(item, last, child, kids, ish);
    ItemsGoOn(total, ItemsOf(ims), text, value, end);
    ItemsOfSnoc(ims, ImageOf(ish));
  }

  /** One turn of the loop of parse_array. */
  method ParseNextItem(item: Node, last: Node, text: string, at: nat, ghost kids: seq<Shape>, ghost own: set<Node>,
                       ghost total: Outcome<seq<Json>>)
    returns (ok: bool, end: nat, child: Node, ghost more: seq<Shape>, ghost mine: set<Node>)
    requires ArrayLoop(item, last, kids, own, total, text, at) && total != Undefined && At(text, at) == ','
    modifies last`next
    ensures own <= mine && fresh(mine - own) && child in mine && (ok ==> at < end)
    ensures ok ==> ArrayLoop(item, child, more, mine, total, text, end)
    ensures !ok ==> Stopped(item, child, more, mine, total, text, end)
    ensures forall o: object {:trigger allocated(o)} :: allocated(o) && o is Node ==> old(allocated(o)) || o in mine
    decreases |text| - at, 0
  {
    hide Tree, Chain, Nodes, ForestNodes, Images, ImageOf, Going, ParseItems, ParseValue, Skip, ItemsOf, Parsed;
    child := new Node();
    ghost var ims := Images(kids);
    LinkNew(item, last, child, kids);
    ChainDomain(kids);
    ItemsGoOn(total, ItemsOf(ims), text, at, at);
    ghost var ish, inner;
    ok, end, ish, inner := ParseItemInto(child, text, at + 1);
    NextItem(item, last, child, kids, ish, own, ims, total, text, at, ok, end);
    more, mine := kids + [ish], own + inner;
  }

  lemma {:induction false} ArrayEnds(item: Node, child: Node, kids: seq<Shape>, own: set<Node>, text: string, at: nat, from: nat, value: nat)
    requires at < |text| && text[at] == '[' && from <= |text| && text[from..] == Skip(text[at + 1..]) && At(text, from) != ']'
    requires ArrayLoop(item, child, kids, own, ParseItems(text[from..]), text, value) && At(text, value) != ','
    ensures own == ForestNodes(kids)
    ensures At(text, value) == ']' ==> Parsed(ParseValue(text[at..]), text, true, value + 1, Shape(item, kids))
    ensures At(text, value) != ']' ==> Parsed(ParseValue(text[at..]), text, false, value, Shape(item, kids))
  {
    hide Tree, Chain, Nodes, ForestNodes, Images, ImageOf, Building, ParseItems, ParseValue, Skip, ItemsOf;
    ArrayText(text, at, from);
    FinishFacts(item, child, kids);
    assert value < |text| ==> text[value..][1..] == text[value + 1..];
  }

  lemma ArrayText(text: string, at: nat, from: nat)
    requires at < |text| && text[at] == '[' && from <= |text| && text[from..] == Skip(text[at + 1..])
    ensures ParseValue(text[at..]) ==
            if At(text, from) == ']' then Done(Arr([]), text[from + 1..])
            else match ParseItems(text[from..])
                 case Done(vs, rest) => if StartsWith(rest, ']') then Done(Arr(vs), rest[1..]) else Failed(rest)
                 case Failed(e) => Failed(e)
                 case Undefined => Undefined
  {
    assert text[at..][1..] == text[at + 1..];
    assert from < |text| ==> text[from..][1..] == text[from + 1..];
    ArrayStep(text[at..]);
  }

  lemma {:induction false} ListStopped<T>(r: Outcome<Json>, item: Node, child: Node, kids: seq<Shape>, own: set<Node>, total: Outcome<seq<T>>,
                       text: string, value: nat)
    requires Stopped(item, child, kids, own, total, text, value) && item.kind != KNumber
    requires total.Failed? ==> r == Failed(total.at)
    ensures Parsed(r, text, false, value, Shape(item, kids)) && own == ForestNodes(kids)
  {
    hide Chain, Nodes, ForestNodes, Images, ImageOf, Building;
    FinishFacts(item, child, kids);
  }

  method ParseArrayAt(item: Node, text: string, at: nat)
    returns (ok: bool, end: nat, ghost kids: seq<Shape>, ghost own: set<Node>)
    requires at < |text| && text[at] == '[' && ParseValue(text[at..]) != Undefined && item.child == null
    modifies item`kind, item`child
    ensures own == ForestNodes(kids) && fresh(own) && item !in own
    ensures ok ==> end > at
    ensures Parsed(ParseValue(text[at..]), text, ok, end, Shape(item, kids))
    ensures forall o: object {:trigger allocated(o)} :: allocated(o) && o is Node ==> old(allocated(o)) || o in own
    decreases |text| - at, 0
  {
    hide Tree, Chain, Nodes, ForestNodes, Images, ImageOf, ItemsOf, Building, Going, ParseItems, ParseValue, Skip, Parsed, ArrayLoop, Stopped;
    item.kind := KArray;
    var from := SkipAt(text, at + 1);
    ghost var r := ParseValue(text[at..]);
    ArrayText(text, at, from);
    kids, own := [], {};
    EmptyForest();
    if At(text, from) == ']' {
      ok, end := true, from + 1;
      LeafParsed(r, text, end, item);
      return;
    }
    var child;
    ok, end, child, kids, own := ParseFirstItem(item, text, from);
    while ok && At(text, end) == ','
      invariant fresh(own) && item !in own && child in own
      invariant forall o: object {:trigger allocated(o)} :: allocated(o) && o is Node ==> old(allocated(o)) || o in own
      invariant item.kind == KArray
      invariant ok ==> from < end && ArrayLoop(item, child, kids, own, ParseItems(text[from..]), text, end)
      invariant !ok ==> Stopped(item, child, kids, own, ParseItems(text[from..]), text, end)
      decreases ok, |text| - end
    {
      ok, end, child, kids, own := ParseNextItem(item, child, text, end, kids, own, ParseItems(text[from..]));
    }
    if !ok {
      ListStopped(r, item, child, kids, own, ParseItems(text[from..]), text, end);
      return;
    }
    ArrayEnds(item, child, kids, own, text, at, from, end);
    ok := At(text, end) == ']';
    if ok {
      end := end + 1;
    }
  }

  method ParseFirstItem(item: Node, text: string, at: nat)
    returns (ok: bool, end: nat, child: Node, ghost kids: seq<Shape>, ghost own: set<Node>)
    requires at <= |text| && ParseItems(text[at..]) != Undefined && item.child == null && item.kind == KArray
    modifies item`child
    ensures fresh(own) && item !in own && child in own && (ok ==> at < end)
    ensures ok ==> ArrayLoop(item, child, kids, own, ParseItems(text[at..]), text, end)
    ensures !ok ==> Stopped(item, child, kids, own, ParseItems(text[at..]), text, end)
    ensures forall o: object {:trigger allocated(o)} :: allocated(o) && o is Node ==> old(allocated(o)) || o in own
    decreases |text| - at, 3
  {
    hide Tree, Chain, Nodes, ForestNodes, Images, ImageOf, Going, ParseItems, ParseValue, Skip, ItemsOf, Parsed, ArrayLoop, Stopped;
    child := new Node();
    label Before:
    item.child := child;
    assert forall o: object {:trigger allocated(o)} :: allocated(o) ==> old@Before(allocated(o));
    ItemsStart(text, at, at);
    ghost var ish;
    ok, end, ish, own := ParseItemInto(child, text, at);
    FirstItem(item, child, ish, text, at, ok, end);
    kids := [ish];
  }

  ghost predicate ParsedMember(r: Outcome<Member>, text: string, ok: bool, end: nat, sh: Shape)
    reads Nodes(sh)
  {
    && end <= |text| && Tree(sh)
    && (ok <==> r.Done?)
    && (ok ==> text[end..] == r.rest && Member(Text(sh.node.name), Value(sh)) == r.v)
    && (!ok ==> r == Failed(text[end..]))
  }

  /** How the pieces of a member follow one another in the text. */
  lemma MemberText(text: string, at: nat, name: nat, colon: nat)
    requires at <= |text| && name <= |text| && text[name..] == Skip(text[at..]) && colon <= |text|
    ensures var s, r := ParseString(text[name..]), ParseMember(text[at..]);
            && (s.Failed? ==> r == Failed(s.at))
            && (s.Undefined? ==> r == Undefined)
            && (s.Done? && text[colon..] == Skip(s.rest) ==>
                  if At(text, colon) != ':' then r == Failed(text[colon..])
                  else Skipped(r) == Named(s.v, Skipped(ParseValue(Skip(After(text, colon))))))
  {
    assert colon < |text| ==> text[colon..][1..] == After(text, colon);
  }

  function Named(name: string, r: Outcome<Json>): Outcome<Member> {
    match r
    case Done(v, rest) => Done(Member(name, v), rest)
    case Failed(at) => Failed(at)
    case Undefined => Undefined
  }

  lemma {:induction false} NameGiven(name: string, r: Outcome<Json>, text: string, ok: bool, end: nat, sh: Shape)
    requires Parsed(r, text, ok, end, sh) && sh.node.name == Some(name)
    ensures ParsedMember(Named(name, r), text, ok, end, sh)
  {
  }

  lemma NameFailed(r: Outcome<Member>, text: string, end: nat, child: Node)
    requires child.child == null && child.kind != KNumber && end <= |text| && r == Failed(text[end..])
    ensures ParsedMember(Skipped(r), text, false, end, Shape(child, [])) && Nodes(Shape(child, [])) == {child}
  {
    LeafFacts(child);
  }

  method ParseMemberInto(child: Node, text: string, at: nat)
    returns (ok: bool, end: nat, ghost sh: Shape, ghost own: set<Node>)
    requires at <= |text| && ParseMember(text[at..]) != Undefined && child.child == null && child.kind != KNumber
    modifies child`kind, child`valuestring, child`valueint, child`valuedouble, child`child, child`name
    ensures sh.node == child && own == Nodes(sh) && fresh(own - {child})
    ensures ok ==> end > at
    ensures ParsedMember(Skipped(ParseMember(text[at..])), text, ok, end, sh)
    ensures forall o: object {:trigger allocated(o)} :: allocated(o) && o is Node ==> old(allocated(o)) || o in own
    decreases |text| - at, 3
  {
    hide Tree, Parsed, ParsedMember, ParseValue, ParseMember, ParseString, Skip, Skipped, Named, Nodes, ForestNodes;
    sh, own := Shape(child, []), {child};
    var from := SkipAt(text, at);
    MemberText(text, at, from, from);
    ghost var s := ParseString(text[from..]);
    ok, end := ParseStringInto(child, text, from);
    if !ok {
      NameFailed(ParseMember(text[at..]), text, end, child);
      return;
    }
    end := SkipAt(text, end);
    label Before:
    child.name := child.valuestring;
    child.valuestring := None;
    assert forall o: object {:trigger allocated(o)} :: allocated(o) ==> old@Before(allocated(o));
    MemberText(text, at, from, end);
    if At(text, end) != ':' {
      ok := false;
      NameFailed(ParseMember(text[at..]), text, end, child);
      return;
    }
    ghost var r := Skipped(ParseValue(Skip(After(text, end))));
    StillDefined(ParseMember(text[at..]), s.v, ParseValue(Skip(After(text, end))));
    ok, end, sh, own := ParseItemInto(child, text, end + 1);
    NameGiven(s.v, r, text, ok, end, sh);
  }

  lemma StillDefined(m: Outcome<Member>, name: string, r: Outcome<Json>)
    requires Skipped(m) == Named(name, Skipped(r)) && m != Undefined
    ensures r != Undefined
  {
  }

  ghost predicate ObjectLoop(item: Node, child: Node, kids: seq<Shape>, own: set<Node>,
                             total: Outcome<seq<Member>>, text: string, value: nat)
    reads item`child, item`kind, ForestNodes(kids)
  {
    && Building(item, child, kids) && kids != [] && own == ForestNodes(kids) && item.kind == KObject
    && Going(total, MembersOf(Images(kids)), text, value, ParseMembers(After(text, value)))
  }

  lemma {:induction false} FirstMember(item: Node, child: Node, ish: Shape, text: string, at: nat, ok: bool, value: nat)
    requires at <= |text| && ParseMembers(text[at..]) != Undefined
    requires ParsedMember(Skipped(ParseMember(text[at..])), text, ok, value, ish)
    requires item.child == child && child.prev == null && child.next == null
    requires ish.node == child && item !in Nodes(ish) && item.kind == KObject
    ensures ok ==> ObjectLoop(item, child, [ish], Nodes(ish), ParseMembers(text[at..]), text, value)
    ensures !ok ==> Stopped(item, child, [ish], Nodes(ish), ParseMembers(text[at..]), text, value)
  {
    hide Tree, Chain, Nodes, ForestNodes, Images, ImageOf, Building, Going, ParseMembers, ParseMember, Skip;
    FirstGrown(item, child, ish);
    MembersStart(text, at, value);
    assert MembersOf([ImageOf(ish)]) == [Member(Text(ish.node.name), ValueOf(ImageOf(ish)))] by { NameInImage(ish); }
  }

  lemma {:induction false} NameInImage(sh: Shape)
    ensures ImageOf(sh).name == sh.node.name
  {
  }

  lemma {:induction false} MembersOfSnoc(ims: seq<Image>, im: Image)
    ensures MembersOf(ims + [im]) == MembersOf(ims) + [Member(Text(im.name), ValueOf(im))]
  {
  }

  lemma {:induction false} NextMember(item: Node, last: Node, child: Node, kids: seq<Shape>, ish: Shape, own: set<Node>, ims: seq<Image>,
                   total: Outcome<seq<Member>>, text: string, value: nat, ok: bool, end: nat)
    requires kids != [] && Chain(kids) && last == Last(kids).node && item !in own && own == ForestNodes(kids)
    requires item.child == kids[0].node && last.next == child && child.prev == last && child.next == null
    requires ish.node == child && item !in Nodes(ish) && Nodes(ish) !! own && item.kind == KObject
    requires Images(kids) == ims && Going(total, MembersOf(ims), text, value, ParseMembers(After(text, value)))
    requires At(text, value) == ',' && total != Undefined
    requires ParsedMember(Skipped(ParseMember(After(text, value))), text, ok, end, ish)
    ensures ok ==> ObjectLoop(item, child, kids + [ish], own + Nodes(ish), total, text, end)
    ensures !ok ==> Stopped(item, child, kids + [ish], own + Nodes(ish), total, text, end)
  {
    hide Tree, Chain, Nodes, ForestNodes, Images, ImageOf, Building, Going, ParseMembers, ParseMember, Skip, MembersOf;
    Grown(item, last, child, kids, ish);
    MembersGoOn(total, MembersOf(ims), text, value, end);
    MembersOfSnoc(ims, ImageOf(ish));
    NameInImage(ish);
  }

  /** One turn of the loop of parse_object. */
  method ParseNextMember(item: Node, last: Node, text: string, at: nat, ghost kids: seq<Shape>, ghost own: set<Node>,
                         ghost total: Outcome<seq<Member>>)
    returns (ok: bool, end: nat, child: Node, ghost more: seq<Shape>, ghost mine: set<Node>)
    requires ObjectLoop(item, last, kids, own, total, text, at) && total != Undefined && At(text, at) == ','
    modifies last`next
    ensures own <= mine && fresh(mine - own) && child in mine && (ok ==> at < end)
    ensures ok ==> ObjectLoop(item, child, more, mine, total, text, end)
    ensures !ok ==> Stopped(item, child, more, mine, total, text, end)
    ensures forall o: object {:trigger allocated(o)} :: allocated(o) && o is Node ==> old(allocated(o)) || o in mine
    decreases |text| - at, 0
  {
    hide Tree, Chain, Nodes, ForestNodes, Images, ImageOf, Going, ParseMembers, ParseMember, Skip, MembersOf, ParsedMember;
    child := new Node();
    ghost var ims := Images(kids);
    LinkNew(item, last, child, kids);
    ChainDomain(kids);
    MembersGoOn(total, MembersOf(ims), text, at, at);
    ghost var ish, inner;
    ok, end, ish, inner := ParseMemberInto(child, text, at + 1);
    NextMember(item, last, child, kids, ish, own, ims, total, text, at, ok, end);
    more, mine := kids + [ish], own + inner;
  }

  method ParseFirstMember(item: Node, text: string, at: nat)
    returns (ok: bool, end: nat, child: Node, ghost kids: seq<Shape>, ghost own: set<Node>)
    requires at <= |text| && ParseMembers(text[at..]) != Undefined && item.child == null && item.kind == KObject
    modifies item`child
    ensures fresh(own) && item !in own && child in own && (ok ==> at < end)
    ensures ok ==> ObjectLoop(item, child, kids, own, ParseMembers(text[at..]), text, end)
    ensures !ok ==> Stopped(item, child, kids, own, ParseMembers(text[at..]), text, end)
    ensures forall o: object {:trigger allocated(o)} :: allocated(o) && o is Node ==> old(allocated(o)) || o in own
    decreases |text| - at, 4
  {
    hide Tree, Chain, Nodes, ForestNodes, Images, ImageOf, Going, ParseMembers, ParseMember, Skip, MembersOf, ParsedMember, ObjectLoop, Stopped;
    child := new Node();
    label Before:
    item.child := child;
    assert forall o: object {:trigger allocated(o)} :: allocated(o) ==> old@Before(allocated(o));
    MembersStart(text, at, at);
    ghost var ish;
    ok, end, ish, own := ParseMemberInto(child, text, at);
    FirstMember(item, child, ish, text, at, ok, end);
    kids := [ish];
  }

  lemma ObjectText(text: string, at: nat, from: nat)
    requires at < |text| && text[at] == '{' && from <= |text| && text[from..] == Skip(text[at + 1..])
    ensures ParseValue(text[at..]) ==
            if At(text, from) == '}' then Done(Obj([]), text[from + 1..])
            else match ParseMembers(text[from..])
                 case Done(ms, rest) => if StartsWith(rest, '}') then Done(Obj(ms), rest[1..]) else Failed(rest)
                 case Failed(e) => Failed(e)
                 case Undefined => Undefined
  {
    assert text[at..][1..] == text[at + 1..];
    assert from < |text| ==> text[from..][1..] == text[from + 1..];
    ObjectStep(text[at..]);
  }

  lemma {:induction false} ObjectEnds(item: Node, child: Node, kids: seq<Shape>, own: set<Node>, text: string, at: nat, from: nat, value: nat)
    requires at < |text| && text[at] == '{' && from <= |text| && text[from..] == Skip(text[at + 1..]) && At(text, from) != '}'
    requires ObjectLoop(item, child, kids, own, ParseMembers(text[from..]), text, value) && At(text, value) != ','
    ensures own == ForestNodes(kids)
    ensures At(text, value) == '}' ==> Parsed(ParseValue(text[at..]), text, true, value + 1, Shape(item, kids))
    ensures At(text, value) != '}' ==> Parsed(ParseValue(text[at..]), text, false, value, Shape(item, kids))
  {
    hide Tree, Chain, Nodes, ForestNodes, Images, ImageOf, Building, ParseMembers, ParseValue, Skip, MembersOf;
    ObjectText(text, at, from);
    FinishFacts(item, child, kids);
    assert value < |text| ==> text[value..][1..] == text[value + 1..];
  }

  method ParseObjectAt(item: Node, text: string, at: nat)
    returns (ok: bool, end: nat, ghost kids: seq<Shape>, ghost own: set<Node>)
    requires at < |text| && text[at] == '{' && ParseValue(text[at..]) != Undefined && item.child == null
    modifies item`kind, item`child
    ensures own == ForestNodes(kids) && fresh(own) && item !in own
    ensures ok ==> end > at
    ensures Parsed(ParseValue(text[at..]), text, ok, end, Shape(item, kids))
    ensures forall o: object {:trigger allocated(o)} :: allocated(o) && o is Node ==> old(allocated(o)) || o in own
    decreases |text| - at, 0
  {
    hide Tree, Chain, Nodes, ForestNodes, Images, ImageOf, MembersOf, Building, Going, ParseMembers, ParseValue, Skip, Parsed, ObjectLoop, Stopped;
    item.kind := KObject;
    var from := SkipAt(text, at + 1);
    ghost var r := ParseValue(text[at..]);
    ObjectText(text, at, from);
    kids, own := [], {};
    EmptyForest();
    if At(text, from) == '}' {
      ok, end := true, from + 1;
      LeafParsed(r, text, end, item);
      return;
    }
    var child;
    ok, end, child, kids, own := ParseFirstMember(item, text, from);
    while ok && At(text, end) == ','
      invariant fresh(own) && item !in own && child in own
      invariant forall o: object {:trigger allocated(o)} :: allocated(o) && o is Node ==> old(allocated(o)) || o in own
      invariant item.kind == KObject
      invariant ok ==> from < end && ObjectLoop(item, child, kids, own, ParseMembers(text[from..]), text, end)
      invariant !ok ==> Stopped(item, child, kids, own, ParseMembers(text[from..]), text, end)
      decreases ok, |text| - end
    {
      ok, end, child, kids, own := ParseNextMember(item, child, text, end, kids, own, ParseMembers(text[from..]));
    }
    if !ok {
      ListStopped(r, item, child, kids, own, ParseMembers(text[from..]), text, end);
      return;
    }
    ObjectEnds(item, child, kids, own, text, at, from, end);
    ok := At(text, end) == '}';
    if ok {
      end := end + 1;
    }
  }

  /** cJSON_ParseWithOpts without the returned end: a tree standing for the parsed value, or,
      after a syntax error, no tree, the error pointer, and every node allocated freed once. */
  method ParseWithOptions(text: string, requireNullTerminated: bool)
    returns (c: Node?, end: nat, ghost sh: Shape, freed: seq<Node>)
    requires ParseValue(Skip(text)) != Undefined
    ensures end <= |text| && fresh(Nodes(sh))
    ensures match ParseWithOpts(text, requireNullTerminated)
            case Done(v, rest) => c == sh.node && Tree(sh) && Value(sh) == v && text[end..] == rest && freed == []
            case Failed(at) => c == null && text[end..] == at && multiset(freed) == multiset(Nodes(sh))
            case Undefined => false
    ensures forall o: object {:trigger allocated(o)} :: allocated(o) && o is Node ==> old(allocated(o)) || o in Nodes(sh)
  {
    hide Tree, Chain, Nodes, ForestNodes, Value, ParseValue, Skip, Parsed;
    freed := [];
    c := new Node();
    var root: Node := c;
    var ok;
    var from := SkipAt(text, 0);
    assert text[0..] == text;
    ghost var kids, own;
    ok, end, kids, own := ParseValueAt(root, text, from);
    sh := Shape(root, kids);
    NodesOf(sh);
    own := {root} + own;
    OptsFacts(text, requireNullTerminated, ok, end, sh);
    if ok && requireNullTerminated {
      var after := SkipAt(text, end);
      ok := after == |text|;
      end := after;
    }
    if !ok {
      c := null;
      AloneFacts(sh);
      freed := Delete(root, [sh], own);
    }
  }

  lemma {:induction false} AloneFacts(sh: Shape)
    requires Tree(sh) && sh.node.next == null && sh.node.prev == null
    ensures Closed([sh]) && ForestNodes([sh]) == Nodes(sh)
  {
    Snoc([], sh);
    assert [] + [sh] == [sh];
  }

  lemma {:induction false} OptsFacts(text: string, required: bool, ok: bool, end: nat, sh: Shape)
    requires Parsed(ParseValue(Skip(text)), text, ok, end, sh)
    ensures end <= |text| && Tree(sh)
    ensures !ok ==> ParseWithOpts(text, required) == Failed(text[end..])
    ensures ok && !required ==> ParseWithOpts(text, required) == Done(Value(sh), text[end..])
    ensures ok && required ==>
              ParseWithOpts(text, required) ==
              if Skip(text[end..]) == [] then Done(Value(sh), []) else Failed(Skip(text[end..]))
  {
  }
}
