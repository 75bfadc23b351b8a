/**
 What every turn of the tokenizer keeps, and what a successful run therefore ends with: a
 forest of tokens whose spans nest and whose sizes count children.
 */
module JsmnForest {
  import opened Base
  import opened Jsmn

  predicate Container(k: Kind) {
    k == Object || k == Array
  }

  predicate Shut(t: Token) {
    t.end != -1
  }

  /** Every span lies in the text read so far. */
  predicate Spans(toks: seq<Token>, pos: nat) {
    forall i :: 0 <= i < |toks| ==>
                  0 <= toks[i].start < pos && (Shut(toks[i]) ==> toks[i].start <= toks[i].end <= pos)
  }

  predicate Kinds(toks: seq<Token>)
    requires Linked(toks)
  {
    forall i :: 0 <= i < |toks| ==>
                  (!Shut(toks[i]) ==> Container(toks[i].kind))
                  && (toks[i].parent >= 0 ==> Container(toks[toks[i].parent].kind))
  }

  /** The open containers are a chain of parents. */
  predicate OpenChain(toks: seq<Token>)
    requires Linked(toks)
  {
    && (forall i :: 0 <= i < |toks| && !Shut(toks[i]) && toks[i].parent >= 0 ==> !Shut(toks[toks[i].parent]))
    && (forall i, j :: 0 <= j < i < |toks| && !Shut(toks[i]) && !Shut(toks[j]) ==> j <= toks[i].parent)
  }

  /** The container new tokens go under is the open one that was opened last. */
  predicate Innermost(toks: seq<Token>, super: int) {
    && -1 <= super < |toks|
    && (super >= 0 ==> !Shut(toks[super]))
    && (forall i :: 0 <= i < |toks| && !Shut(toks[i]) ==> i <= super)
  }

  /** A child's span lies strictly inside that of its parent. */
  predicate Nested(toks: seq<Token>)
    requires Linked(toks)
  {
    forall i :: 0 <= i < |toks| && toks[i].parent >= 0 ==>
                  var p := toks[toks[i].parent];
                  p.start < toks[i].start && (Shut(p) ==> Shut(toks[i]) && toks[i].end < p.end)
  }

  /** Siblings stand in order and apart. */
  predicate Apart(toks: seq<Token>) {
    forall i, j :: 0 <= i < j < |toks| && toks[i].parent == toks[j].parent ==>
                     Shut(toks[i]) && toks[i].end <= toks[j].start
  }

  function Children(toks: seq<Token>, p: int): nat {
    if toks == [] then 0
    else Children(toks[..|toks| - 1], p) + (if toks[|toks| - 1].parent == p then 1 else 0)
  }

  predicate Sizes(toks: seq<Token>) {
    forall i :: 0 <= i < |toks| ==> toks[i].size == Children(toks, i) % 256
  }

  /** The span of a token is what its kind says. */
  predicate Spelled(js: string, t: Token) {
    && t.start >= 0
    && match t.kind
       case Object => At(js, t.start) == '{' && (Shut(t) ==> t.end > 0 && At(js, t.end - 1) == '}')
       case Array => At(js, t.start) == '[' && (Shut(t) ==> t.end > 0 && At(js, t.end - 1) == ']')
       case Str => t.start > 0 && At(js, t.start - 1) == '\"' && t.end >= 0 && At(js, t.end) == '\"'
       case Primitive =>
         && StartsPrimitive(At(js, t.start)) && t.end >= 0 && EndsPrimitive(At(js, t.end))
         && forall i :: t.start <= i < t.end ==> !EndsPrimitive(At(js, i))
  }

  predicate AllSpelled(js: string, toks: seq<Token>) {
    forall i :: 0 <= i < |toks| ==> Spelled(js, toks[i])
  }

  /** The way up from the token added last finds the innermost container. */
  predicate LastLeadsUp(s: St)
    requires InSpan(s) && Linked(s.toks)
  {
    s.toks != [] ==> Up(s.toks, |s.toks| - 1) == s.toksuper
  }

  predicate Inv(js: string, s: St) {
    && InSpan(s) && Linked(s.toks) && s.pos <= |js| && |s.toks| <= s.pos
    && Spans(s.toks, s.pos) && Kinds(s.toks) && OpenChain(s.toks) && Innermost(s.toks, s.toksuper)
    && Nested(s.toks) && Apart(s.toks) && Sizes(s.toks) && AllSpelled(js, s.toks) && LastLeadsUp(s)
  }

  lemma StartInv(js: string)
    ensures Inv(js, St(0, -1, []))
  {
  }

  // ------------------------------------------------------------- sizes do not matter elsewhere

  predicate SameButSizes(a: seq<Token>, b: seq<Token>) {
    |a| == |b| && forall i :: 0 <= i < |a| ==> a[i].(size := 0) == b[i].(size := 0)
  }

  lemma BumpedIsSame(toks: seq<Token>, p: int)
    requires -1 <= p < |toks|
    ensures SameButSizes(toks, Bumped(toks, p))
  {
  }

  predicate Sound(js: string, toks: seq<Token>, super: int, pos: nat) {
    && Linked(toks) && Spans(toks, pos) && Kinds(toks) && OpenChain(toks) && Innermost(toks, super)
    && Nested(toks) && Apart(toks) && AllSpelled(js, toks)
  }

  /** Two rows of tokens that differ in sizes at most, and in ends. */
  predicate SameLinks(a: seq<Token>, b: seq<Token>) {
    |a| == |b| && forall i :: 0 <= i < |a| ==> a[i].parent == b[i].parent && a[i].start == b[i].start && a[i].kind == b[i].kind
  }

  predicate SameEnds(a: seq<Token>, b: seq<Token>) {
    |a| == |b| && forall i :: 0 <= i < |a| ==> a[i].end == b[i].end
  }

  lemma SizesApart(a: seq<Token>, b: seq<Token>)
    requires SameButSizes(a, b)
    ensures SameLinks(a, b) && SameEnds(a, b)
  {
    forall i | 0 <= i < |a|
      ensures a[i].parent == b[i].parent && a[i].start == b[i].start && a[i].end == b[i].end && a[i].kind == b[i].kind
    {
      assert a[i].(size := 0) == b[i].(size := 0);
    }
  }

  lemma SoundWithoutSizes(js: string, a: seq<Token>, b: seq<Token>, super: int, pos: nat)
    requires Sound(js, a, super, pos) && SameButSizes(a, b)
    ensures Sound(js, b, super, pos)
  {
    hide Spans, Kinds, OpenChain, Innermost, Nested, Apart, AllSpelled, SameButSizes, SameLinks, SameEnds;
    SizesApart(a, b);
    LinkedSame(a, b);
    ChainSame(a, b, super);
    SpansSame(a, b, pos);
    SpelledSame(js, a, b);
  }

  lemma LinkedSame(a: seq<Token>, b: seq<Token>)
    requires Linked(a) && SameLinks(a, b)
    ensures Linked(b)
  {
  }

  lemma ChainSame(a: seq<Token>, b: seq<Token>, super: int)
    requires Linked(a) && Linked(b) && SameLinks(a, b) && SameEnds(a, b)
    requires Kinds(a) && OpenChain(a) && Innermost(a, super)
    ensures Kinds(b) && OpenChain(b) && Innermost(b, super)
  {
  }

  lemma SpansSame(a: seq<Token>, b: seq<Token>, pos: nat)
    requires Linked(a) && Linked(b) && SameLinks(a, b) && SameEnds(a, b)
    requires Spans(a, pos) && Nested(a) && Apart(a)
    ensures Spans(b, pos) && Nested(b) && Apart(b)
  {
  }

  lemma SpelledSame(js: string, a: seq<Token>, b: seq<Token>)
    requires SameLinks(a, b) && SameEnds(a, b) && AllSpelled(js, a)
    ensures AllSpelled(js, b)
  {
    forall i | 0 <= i < |b|
      ensures Spelled(js, b[i])
    {
      assert Spelled(js, a[i]);
    }
  }

  lemma {:induction false} UpWithoutSizes(a: seq<Token>, b: seq<Token>, i: int)
    requires SameButSizes(a, b) && Linked(a) && Linked(b) && -1 <= i < |a|
    ensures Up(a, i) == Up(b, i)
    decreases i
  {
    if i >= 0 {
      assert a[i].(size := 0) == b[i].(size := 0);
      if !IsOpen(a[i]) { UpWithoutSizes(a, b, a[i].parent); }
    }
  }

  lemma {:induction false} ChildrenWithoutSizes(a: seq<Token>, b: seq<Token>, p: int)
    requires |a| == |b| && forall i :: 0 <= i < |a| ==> a[i].parent == b[i].parent
    ensures Children(a, p) == Children(b, p)
  {
    if a != [] {
      ChildrenWithoutSizes(a[..|a| - 1], b[..|b| - 1], p);
    }
  }

  // ------------------------------------------------------------- adding a token

  /** What the added token must be like: a leaf below the innermost container, or a container
      that becomes the innermost. */
  predicate Fits(toks: seq<Token>, super: int, pos: nat, t: Token, newSuper: int, newPos: nat) {
    && t.parent == super && pos <= t.start < newPos
    && (if Shut(t) then t.start <= t.end <= newPos && newSuper == super else Container(t.kind) && newSuper == |toks|)
  }

  lemma AddSound(js: string, toks: seq<Token>, super: int, pos: nat, t: Token, newSuper: int, newPos: nat)
    requires Sound(js, toks, super, pos) && Fits(toks, super, pos, t, newSuper, newPos) && Spelled(js, t)
    ensures Sound(js, toks + [t], newSuper, newPos)
  {
    hide Spans, Kinds, OpenChain, Innermost, Nested, Apart, AllSpelled, Linked;
    AddLinked(toks, super, pos, t, newSuper, newPos);
    AddSpans(toks, super, pos, t, newSuper, newPos);
    AddKinds(toks, super, pos, t, newSuper, newPos);
    AddChain(toks, super, pos, t, newSuper, newPos);
    AddNested(toks, super, pos, t, newSuper, newPos);
    AddApart(toks, super, pos, t);
    AddSpelled(js, toks, t);
  }

  lemma AddLinked(toks: seq<Token>, super: int, pos: nat, t: Token, newSuper: int, newPos: nat)
    requires Linked(toks) && Innermost(toks, super) && Fits(toks, super, pos, t, newSuper, newPos)
    ensures Linked(toks + [t])
  {
  }

  lemma AddSpans(toks: seq<Token>, super: int, pos: nat, t: Token, newSuper: int, newPos: nat)
    requires Spans(toks, pos) && Fits(toks, super, pos, t, newSuper, newPos)
    ensures Spans(toks + [t], newPos)
  {
  }

  lemma AddKinds(toks: seq<Token>, super: int, pos: nat, t: Token, newSuper: int, newPos: nat)
    requires Linked(toks) && Linked(toks + [t]) && Innermost(toks, super) && Fits(toks, super, pos, t, newSuper, newPos)
    requires Kinds(toks)
    ensures Kinds(toks + [t])
  {
    var more := toks + [t];
    forall i | 0 <= i < |more|
      ensures !Shut(more[i]) ==> Container(more[i].kind)
      ensures more[i].parent >= 0 ==> Container(more[more[i].parent].kind)
    {
      if i < |toks| { assert more[i] == toks[i]; }
    }
  }

  lemma AddChain(toks: seq<Token>, super: int, pos: nat, t: Token, newSuper: int, newPos: nat)
    requires Linked(toks) && Linked(toks + [t]) && Innermost(toks, super) && Fits(toks, super, pos, t, newSuper, newPos)
    requires OpenChain(toks)
    ensures OpenChain(toks + [t]) && Innermost(toks + [t], newSuper)
  {
    var more := toks + [t];
    assert forall i :: 0 <= i < |toks| ==> more[i] == toks[i];
  }

  lemma AddNested(toks: seq<Token>, super: int, pos: nat, t: Token, newSuper: int, newPos: nat)
    requires Linked(toks) && Linked(toks + [t]) && Innermost(toks, super) && Fits(toks, super, pos, t, newSuper, newPos)
    requires Spans(toks, pos) && Nested(toks)
    ensures Nested(toks + [t])
  {
    var more := toks + [t];
    forall i | 0 <= i < |more| && more[i].parent >= 0
      ensures var p := more[more[i].parent];
              p.start < more[i].start && (Shut(p) ==> Shut(more[i]) && more[i].end < p.end)
    {
      if i < |toks| { assert more[i] == toks[i] && more[more[i].parent] == toks[toks[i].parent]; }
    }
  }

  lemma AddSpelled(js: string, toks: seq<Token>, t: Token)
    requires AllSpelled(js, toks) && Spelled(js, t)
    ensures AllSpelled(js, toks + [t])
  {
  }

  lemma AddApart(toks: seq<Token>, super: int, pos: nat, t: Token)
    requires Linked(toks) && Spans(toks, pos) && Innermost(toks, super) && Apart(toks)
    requires t.parent == super && pos <= t.start
    ensures Apart(toks + [t])
  {
    var more := toks + [t];
    forall i, j | 0 <= i < j < |more| && more[i].parent == more[j].parent
      ensures Shut(more[i]) && more[i].end <= more[j].start
    {
      if j == |toks| {
        assert toks[i].parent == super < i;
      }
    }
  }

  lemma {:induction false} UpExtended(toks: seq<Token>, t: Token, i: int)
    requires Linked(toks) && Linked(toks + [t]) && -1 <= i < |toks|
    ensures Up(toks + [t], i) == Up(toks, i)
    decreases i
  {
    if i >= 0 && !IsOpen(toks[i]) { UpExtended(toks, t, toks[i].parent); }
  }

  lemma SizesBumped(toks: seq<Token>, t: Token, p: int)
    requires Linked(toks) && Sizes(toks) && t.parent == p && -1 <= p < |toks| && t.size == 0
    ensures Sizes(Bumped(toks + [t], p)) && Bumped(toks + [t], p) == Bumped(toks, p) + [t]
  {
    hide Linked, Children;
    assert forall i :: 0 <= i < |toks| ==> toks[i].parent < |toks| by { LinksBehind(toks); }
    var more, r := toks + [t], Bumped(toks + [t], p);
    forall i | 0 <= i < |r|
      ensures r[i].size == Children(r, i) % 256
    {
      ChildrenWithoutSizes(r, more, i);
      ChildrenNext(toks, t, i);
      if i == |toks| { NoChildrenYet(toks, i); }
    }
  }

  lemma LinksBehind(toks: seq<Token>)
    requires Linked(toks)
    ensures forall i :: 0 <= i < |toks| ==> toks[i].parent < |toks|
  {
  }

  lemma ChildrenNext(toks: seq<Token>, t: Token, p: int)
    ensures Children(toks + [t], p) == Children(toks, p) + (if t.parent == p then 1 else 0)
  {
    assert (toks + [t])[..|toks|] == toks;
  }

  lemma {:induction false} NoChildrenYet(toks: seq<Token>, p: int)
    requires forall i :: 0 <= i < |toks| ==> toks[i].parent < p
    ensures Children(toks, p) == 0
  {
    if toks != [] { NoChildrenYet(toks[..|toks| - 1], p); }
  }

  // ------------------------------------------------------------- closing a container

  function Closed(toks: seq<Token>, k: nat, end: int): (r: seq<Token>)
    requires k < |toks|
    ensures |r| == |toks| && SameLinks(toks, r)
    ensures forall i :: 0 <= i < |toks| ==> r[i].end == (if i == k then end else toks[i].end)
  {
    toks[k := toks[k].(end := end)]
  }

  lemma CloseSound(js: string, toks: seq<Token>, k: nat, pos: nat)
    requires Sound(js, toks, k, pos) && k < |toks| && pos < |js|
    requires js[pos] == (if toks[k].kind == Object then '}' else ']')
    ensures Sound(js, Closed(toks, k, pos + 1), toks[k].parent, pos + 1)
  {
    hide Spans, Kinds, OpenChain, Innermost, Nested, Apart, AllSpelled, Linked, Closed;
    LinkedSame(toks, Closed(toks, k, pos + 1));
    CloseSpans(toks, k, pos);
    CloseKinds(toks, k, pos);
    CloseChain(toks, k, pos);
    CloseNested(toks, k, pos);
    CloseApart(toks, k, pos);
    InnermostIsContainer(toks, k);
    CloseSpelled(js, toks, k, pos);
  }

  lemma InnermostIsContainer(toks: seq<Token>, k: nat)
    requires k < |toks| && Linked(toks) && Kinds(toks) && Innermost(toks, k)
    ensures Container(toks[k].kind)
  {
  }

  lemma CloseSpans(toks: seq<Token>, k: nat, pos: nat)
    requires k < |toks| && Spans(toks, pos)
    ensures Spans(Closed(toks, k, pos + 1), pos + 1)
  {
    hide Closed;
  }

  lemma CloseKinds(toks: seq<Token>, k: nat, pos: nat)
    requires k < |toks| && Linked(toks) && Linked(Closed(toks, k, pos + 1)) && Kinds(toks)
    ensures Kinds(Closed(toks, k, pos + 1))
  {
    hide Closed;
  }

  lemma CloseChain(toks: seq<Token>, k: nat, pos: nat)
    requires k < |toks| && Linked(toks) && Linked(Closed(toks, k, pos + 1)) && OpenChain(toks) && Innermost(toks, k)
    ensures OpenChain(Closed(toks, k, pos + 1)) && Innermost(Closed(toks, k, pos + 1), toks[k].parent)
  {
    hide Closed;
    var r := Closed(toks, k, pos + 1);
    assert forall i :: 0 <= i < |r| && !Shut(r[i]) ==> i < k && i <= toks[k].parent;
  }

  lemma CloseNested(toks: seq<Token>, k: nat, pos: nat)
    requires k < |toks| && Linked(toks) && Linked(Closed(toks, k, pos + 1)) && Nested(toks) && Spans(toks, pos) && Innermost(toks, k)
    ensures Nested(Closed(toks, k, pos + 1))
  {
    hide Closed;
  }

  lemma CloseApart(toks: seq<Token>, k: nat, pos: nat)
    requires k < |toks| && Apart(toks) && Innermost(toks, k)
    ensures Apart(Closed(toks, k, pos + 1))
  {
    hide Closed;
  }

  lemma CloseSpelled(js: string, toks: seq<Token>, k: nat, pos: nat)
    requires k < |toks| && AllSpelled(js, toks) && pos < |js| && Container(toks[k].kind)
    requires js[pos] == (if toks[k].kind == Object then '}' else ']')
    ensures AllSpelled(js, Closed(toks, k, pos + 1))
  {
    var r := Closed(toks, k, pos + 1);
    forall i | 0 <= i < |r|
      ensures Spelled(js, r[i])
    {
      assert Spelled(js, toks[i]);
    }
  }

  /** Closing the innermost container makes every way that ended there end at its parent. */
  lemma {:induction false} UpAfterClose(toks: seq<Token>, k: nat, end: nat, i: int)
    requires Linked(toks) && k < |toks| && IsOpen(toks[k]) && -1 <= i < |toks|
    requires toks[k].parent >= 0 ==> IsOpen(toks[toks[k].parent])
    ensures Linked(Closed(toks, k, end))
    ensures Up(Closed(toks, k, end), i) == if Up(toks, i) == k then toks[k].parent else Up(toks, i)
    decreases i
  {
    if i >= 0 && !IsOpen(toks[i]) { UpAfterClose(toks, k, end, toks[i].parent); }
  }

  // ------------------------------------------------------------- every turn, every run

  lemma {:induction false} PrimitiveBody(js: string, len: nat, i: nat)
    requires i <= |js|
    ensures var r := PrimitiveScan(js, len, i);
            r.Found? ==> EndsPrimitive(js[r.at]) && forall k :: i <= k < r.at ==> !EndsPrimitive(At(js, k))
    decreases |js| - i
  {
    if Going(js, len, i) && !EndsPrimitive(js[i]) && !(js[i] < ' ' || js[i] >= '\U{7F}') {
      PrimitiveBody(js, len, i + 1);
    }
  }

  /** A leaf keeps the invariant; pos is where the loop goes on. */
  lemma LeafKeeps(js: string, s: St, num: nat, t: Token, pos: nat)
    requires Inv(js, s) && t.parent == s.toksuper && t.size == 0 && Shut(t) && Spelled(js, t)
    requires s.pos <= t.start <= t.end && t.start < pos && t.end <= pos <= |js|
    ensures Inv(js, St(pos, s.toksuper, Bumped(s.toks + [t], s.toksuper)))
  {
    hide Sound, Spans, Kinds, OpenChain, Innermost, Nested, Apart, AllSpelled, Linked, Sizes, Bumped, Up, Children, Spelled;
    SoundParts(js, s.toks, s.toksuper, s.pos);
    FitsLeaf(s.toks, s.toksuper, s.pos, t, pos);
    AddSound(js, s.toks, s.toksuper, s.pos, t, s.toksuper, pos);
    BumpedIsSame(s.toks + [t], s.toksuper);
    SoundWithoutSizes(js, s.toks + [t], Bumped(s.toks + [t], s.toksuper), s.toksuper, pos);
    SizesBumped(s.toks, t, s.toksuper);
    SoundParts(js, Bumped(s.toks + [t], s.toksuper), s.toksuper, pos);
    SoundParts(js, s.toks + [t], s.toksuper, pos);
    LeafLeadsUp(s, t);
    UpWithoutSizes(s.toks + [t], Bumped(s.toks + [t], s.toksuper), |s.toks|);
  }

  lemma SoundParts(js: string, toks: seq<Token>, super: int, pos: nat)
    ensures Sound(js, toks, super, pos) <==>
            (Linked(toks) && Spans(toks, pos) && Kinds(toks) && OpenChain(toks) && Innermost(toks, super)
             && Nested(toks) && Apart(toks) && AllSpelled(js, toks))
  {
  }

  lemma FitsLeaf(toks: seq<Token>, super: int, pos: nat, t: Token, newPos: nat)
    requires t.parent == super && Shut(t) && pos <= t.start <= t.end <= newPos && t.start < newPos
    ensures Fits(toks, super, pos, t, super, newPos)
  {
  }

  lemma LeafLeadsUp(s: St, t: Token)
    requires InSpan(s) && Linked(s.toks) && Linked(s.toks + [t]) && Innermost(s.toks, s.toksuper)
    requires t.parent == s.toksuper && Shut(t) && Spans(s.toks, s.pos)
    ensures Up(s.toks + [t], |s.toks|) == s.toksuper
  {
    if s.toksuper >= 0 { UpExtended(s.toks, t, s.toksuper); }
  }

  /** An opening bracket keeps the invariant. */
  lemma OpenKeeps(js: string, s: St, kind: Kind)
    requires Inv(js, s) && s.pos < |js| && Container(kind) && js[s.pos] == (if kind == Object then '{' else '[')
    ensures Inv(js, St(s.pos + 1, |s.toks|, Bumped(s.toks, s.toksuper) + [Token(kind, 0, s.pos, -1, s.toksuper)]))
  {
    hide Sound, Spans, Kinds, OpenChain, Innermost, Nested, Apart, AllSpelled, Linked, Sizes, Bumped, Up, Children;
    var t := Token(kind, 0, s.pos, -1, s.toksuper);
    SoundParts(js, s.toks, s.toksuper, s.pos);
    AddSound(js, s.toks, s.toksuper, s.pos, t, |s.toks|, s.pos + 1);
    BumpedIsSame(s.toks + [t], s.toksuper);
    SoundWithoutSizes(js, s.toks + [t], Bumped(s.toks + [t], s.toksuper), |s.toks|, s.pos + 1);
    SizesBumped(s.toks, t, s.toksuper);
    SoundParts(js, Bumped(s.toks + [t], s.toksuper), |s.toks|, s.pos + 1);
    OpenLeadsUp(Bumped(s.toks, s.toksuper), t);
  }

  lemma OpenLeadsUp(toks: seq<Token>, t: Token)
    requires Linked(toks + [t]) && IsOpen(t)
    ensures Up(toks + [t], |toks|) == |toks|
  {
  }

  lemma CloseKeeps(js: string, s: St, k: nat)
    requires Inv(js, s) && s.pos < |js| && k < |s.toks| && k == s.toksuper
    requires js[s.pos] == (if s.toks[k].kind == Object then '}' else ']')
    ensures Inv(js, St(s.pos + 1, s.toks[k].parent, Closed(s.toks, k, s.pos + 1)))
  {
    hide Sound, Spans, Kinds, OpenChain, Innermost, Nested, Apart, AllSpelled, Linked, Sizes, Up, Children, Closed;
    SoundParts(js, s.toks, k, s.pos);
    CloseSound(js, s.toks, k, s.pos);
    SoundParts(js, Closed(s.toks, k, s.pos + 1), s.toks[k].parent, s.pos + 1);
    ParentIsOpen(s.toks, k, s.pos);
    UpAfterClose(s.toks, k, s.pos + 1, |s.toks| - 1);
    CloseSizes(s.toks, k, s.pos + 1);
  }

  lemma ParentIsOpen(toks: seq<Token>, k: nat, pos: nat)
    requires k < |toks| && Linked(toks) && OpenChain(toks) && Innermost(toks, k) && Spans(toks, pos)
    ensures IsOpen(toks[k]) && -1 <= toks[k].parent < |toks| && (toks[k].parent >= 0 ==> IsOpen(toks[toks[k].parent]))
  {
  }

  lemma CloseSizes(toks: seq<Token>, k: nat, end: int)
    requires k < |toks| && Sizes(toks)
    ensures Sizes(Closed(toks, k, end))
  {
    var r := Closed(toks, k, end);
    forall i | 0 <= i < |r|
      ensures r[i].size == Children(r, i) % 256
    {
      ChildrenWithoutSizes(toks, r, i);
    }
  }

  lemma StillInv(js: string, s: St)
    requires Inv(js, s) && s.pos < |js|
    ensures Inv(js, s.(pos := s.pos + 1))
  {
    hide Linked, Spans, Kinds, OpenChain, Innermost, Nested, Apart, Sizes, AllSpelled, Up;
    SpansLater(s.toks, s.pos, s.pos + 1);
  }

  lemma SpansLater(toks: seq<Token>, pos: nat, later: nat)
    requires Spans(toks, pos) && pos <= later
    ensures Spans(toks, later)
  {
  }

  /** Where Up starts from the last token it ends at the innermost container. */
  lemma UpIsSuper(js: string, s: St)
    requires Inv(js, s) && s.toks != []
    ensures Up(s.toks, |s.toks| - 1) == s.toksuper
  {
  }

  lemma TurnKeeps(js: string, len: nat, num: nat, s: St)
    requires Inv(js, s) && Going(js, len, s.pos)
    ensures var r := OneTurn(js, len, num, s);
            r.Next? ==> Inv(js, r.s.(pos := r.s.pos + 1))
  {
    hide Inv, Spans, Kinds, OpenChain, Innermost, Nested, Apart, AllSpelled, Sizes, Bumped, Up, Children, Linked;
    BasicFacts(js, s);
    var c := js[s.pos];
    if c == '{' || c == '[' {
      OpenKeeps(js, s, if c == '{' then Object else Array);
    } else if c == '}' || c == ']' {
      CloseTurnKeeps(js, len, num, s);
    } else if c == '\"' {
      match StringScan(js, len, s.pos + 1)
      case Found(at) => LeafKeeps(js, s, num, Token(Str, 0, s.pos + 1, at, s.toksuper), at + 1);
      case _ =>
    } else if Passed(c) {
      StillInv(js, s);
    } else if StartsPrimitive(c) {
      PrimitiveBody(js, len, s.pos);
      match PrimitiveScan(js, len, s.pos)
      case Found(at) => LeafKeeps(js, s, num, Token(Primitive, 0, s.pos, at, s.toksuper), at);
      case _ =>
    }
  }

  lemma BasicFacts(js: string, s: St)
    requires Inv(js, s)
    ensures InSpan(s) && Linked(s.toks)
  {
  }

  lemma CloseTurnKeeps(js: string, len: nat, num: nat, s: St)
    requires Inv(js, s) && Going(js, len, s.pos) && (js[s.pos] == '}' || js[s.pos] == ']')
    requires InSpan(s) && Linked(s.toks)
    ensures var r := OneTurn(js, len, num, s);
            r.Next? ==> Inv(js, r.s.(pos := r.s.pos + 1))
  {
    hide Inv, Up, Linked;
    StillInv(js, s);
    if s.toks != [] {
      UpIsSuper(js, s);
      if s.toksuper >= 0 {
        SuperKind(js, s);
        if s.toks[s.toksuper].kind == (if js[s.pos] == '}' then Object else Array) {
          CloseKeeps(js, s, s.toksuper);
        }
      }
    }
  }

  lemma SuperKind(js: string, s: St)
    requires Inv(js, s) && s.toksuper >= 0
    ensures Container(s.toks[s.toksuper].kind)
  {
  }

  /** The invariant holds at the end of every call, complete, incomplete or refused. */
  lemma {:induction false} RunKeeps(js: string, len: nat, num: nat, s: St)
    requires InSpan(s) && Linked(s.toks) && Inv(js, s)
    ensures Inv(js, Run(js, len, num, s).s)
    decreases |js| - s.pos
  {
    hide Inv, OneTurn, Linked;
    if Going(js, len, s.pos) {
      TurnKeepsLinks(js, len, num, s);
      TurnKeeps(js, len, num, s);
      match OneTurn(js, len, num, s)
      case Stop(t, code) =>
      case Next(t, k) => RunKeeps(js, len, num, t.(pos := t.pos + 1));
    }
  }

  // ------------------------------------------------------------- success

  /** A finished forest. */
  predicate Forest(js: string, toks: seq<Token>) {
    && Linked(toks)
    && (forall i :: 0 <= i < |toks| ==>
          && 0 <= toks[i].start <= toks[i].end <= |js| && Spelled(js, toks[i])
          && toks[i].size == Children(toks, i) % 256
          && (toks[i].parent >= 0 ==>
                var p := toks[toks[i].parent];
                Container(p.kind) && p.start < toks[i].start && toks[i].end < p.end))
    && (forall i, j :: 0 <= i < j < |toks| && toks[i].parent == toks[j].parent ==> toks[i].end <= toks[j].start)
  }

  lemma {:induction false} SuccessIsShut(js: string, len: nat, num: nat, s: St)
    requires InSpan(s) && Linked(s.toks)
    ensures var r := Run(js, len, num, s);
            r.code == 0 ==> !AnyOpen(r.s.toks) && !Going(js, len, r.s.pos)
    decreases |js| - s.pos
  {
    hide OneTurn, Linked, AnyOpen;
    if Going(js, len, s.pos) {
      TurnKeepsLinks(js, len, num, s);
      match OneTurn(js, len, num, s)
      case Stop(t, code) =>
      case Next(t, k) => SuccessIsShut(js, len, num, t.(pos := t.pos + 1));
    }
  }

  /** Everything jsmn_parse accepts, from a fresh parser or after any number of incomplete
      calls, is a forest, and no container is left open. */
  lemma SuccessIsForest(js: string, len: nat, num: nat, s: St)
    requires InSpan(s) && Linked(s.toks) && Inv(js, s) && Run(js, len, num, s).code == 0
    ensures var r := Run(js, len, num, s).s;
            Forest(js, r.toks) && r.toksuper == -1
  {
    RunKeeps(js, len, num, s);
    SuccessIsShut(js, len, num, s);
    ForestOfInv(js, Run(js, len, num, s).s);
  }

  /** At the end of every call, whatever its code, the size of a token is the number of its
      children exactly while there are fewer than 256 of them. */
  lemma SizeIsCount(js: string, len: nat, num: nat, s: St, i: nat)
    requires Inv(js, s) && i < |Run(js, len, num, s).s.toks|
    ensures var toks := Run(js, len, num, s).s.toks;
            toks[i].size == Children(toks, i) <==> Children(toks, i) < 256
  {
    hide Run, Spans, Kinds, OpenChain, Innermost, Nested, Apart, AllSpelled, Up;
    RunKeeps(js, len, num, s);
  }

  lemma ForestOfInv(js: string, s: St)
    requires Inv(js, s) && !AnyOpen(s.toks)
    ensures Forest(js, s.toks) && s.toksuper == -1
  {
    assert forall i :: 0 <= i < |s.toks| ==> !IsOpen(s.toks[i]) && Shut(s.toks[i]);
    assert forall i :: 0 <= i < |s.toks| ==> Spelled(js, s.toks[i]);
  }

  lemma SpelledLonger(js: string, more: string, t: Token)
    requires Spelled(js, t)
    ensures Spelled(js + more, t)
  {
    assert forall i: nat :: i < |js| ==> At(js + more, i) == At(js, i);
  }

  /** The invariant carries over to a longer text, so a resumed call starts with it too. */
  lemma InvLonger(js: string, more: string, s: St)
    requires Inv(js, s)
    ensures Inv(js + more, s)
  {
    hide Spelled, Spans, Kinds, OpenChain, Innermost, Nested, Apart, Linked, Sizes, Up;
    forall i | 0 <= i < |s.toks|
      ensures Spelled(js + more, s.toks[i])
    {
      SpelledLonger(js, more, s.toks[i]);
    }
  }

  // ------------------------------------------------------------- brackets that close nothing

  predicate Closer(c: char) {
    c == '}' || c == ']'
  }

  /** The turn at a closing bracket while no container is open. */
  lemma StrayTurn(js: string, len: nat, num: nat, s: St)
    requires Inv(js, s) && s.toksuper == -1 && Going(js, len, s.pos) && Closer(js[s.pos])
    ensures OneTurn(js, len, num, s) == if s.toks == [] then Stop(s, INVAL) else Next(s, 0)
  {
    hide Spans, Kinds, OpenChain, Innermost, Nested, Apart, Sizes, AllSpelled, Up;
  }

  /** A closing bracket with no container to close is refused if and only if there is no token yet.
      Otherwise the call goes on behind it, and ends as if a blank stood in its place. */
  lemma StrayBracket(js: string, len: nat, num: nat, s: St)
    requires Inv(js, s) && s.toksuper == -1 && Going(js, len, s.pos) && Closer(js[s.pos])
    ensures OneTurn(js, len, num, s).Stop? <==> s.toks == []
    ensures s.toks == [] ==> Run(js, len, num, s) == End(s, INVAL, 0)
    ensures s.toks != [] ==> Run(js, len, num, s) == Run(js, len, num, s.(pos := s.pos + 1))
    ensures s.toks != [] ==> Run(js, len, num, s) == Run(js[s.pos := ' '], len, num, s)
  {
    hide Inv, Linked, OneTurn;
    StrayTurn(js, len, num, s);
    BasicFacts(js, s);
    var blank, t := js[s.pos := ' '], s.(pos := s.pos + 1);
    BlankTurn(blank, len, num, s);
    RunBehind(js, len, num, s.pos, ' ', t);
  }

  lemma BlankTurn(js: string, len: nat, num: nat, s: St)
    requires InSpan(s) && Linked(s.toks) && s.pos < |js| && js[s.pos] == ' '
    ensures OneTurn(js, len, num, s) == Next(s, 0)
  {
  }

  lemma {:induction false} PrimitiveBehind(js: string, len: nat, k: nat, c: char, i: nat)
    requires k < i <= |js|
    ensures PrimitiveScan(js[k := c], len, i) == PrimitiveScan(js, len, i)
    decreases |js| - i
  {
    if i < |js| { PrimitiveBehind(js, len, k, c, i + 1); }
  }

  lemma {:induction false} HexBehind(js: string, k: nat, c: char, i: nat, n: nat)
    requires k < i <= |js| && n <= 4
    ensures HexScan(js[k := c], i, n) == HexScan(js, i, n)
    decreases 4 - n
  {
    if n < 4 && i < |js| { HexBehind(js, k, c, i + 1, n + 1); }
  }

  lemma {:induction false} StringBehind(js: string, len: nat, k: nat, c: char, i: nat)
    requires k < i <= |js|
    ensures StringScan(js[k := c], len, i) == StringScan(js, len, i)
    decreases |js| - i
  {
    if Going(js, len, i) && js[i] != '\"' {
      if js[i] != '\\' {
        StringBehind(js, len, k, c, i + 1);
      } else if SimpleEscape(At(js, i + 1)) {
        StringBehind(js, len, k, c, i + 2);
      } else if At(js, i + 1) == 'u' {
        HexBehind(js, k, c, i + 2, 0);
        match HexScan(js, i + 2, 0)
        case Found(at) => StringBehind(js, len, k, c, at);
        case _ =>
      }
    }
  }

  lemma TurnBehind(js: string, len: nat, num: nat, k: nat, c: char, s: St)
    requires InSpan(s) && Linked(s.toks) && k < s.pos < |js|
    ensures OneTurn(js[k := c], len, num, s) == OneTurn(js, len, num, s)
  {
    hide StringScan, PrimitiveScan, Linked, Up, Bumped;
    StringBehind(js, len, k, c, s.pos + 1);
    PrimitiveBehind(js, len, k, c, s.pos);
  }

  /** A call does not look at what lies behind its position. */
  lemma {:induction false} RunBehind(js: string, len: nat, num: nat, k: nat, c: char, s: St)
    requires InSpan(s) && Linked(s.toks) && k < s.pos && k < |js|
    ensures Run(js[k := c], len, num, s) == Run(js, len, num, s)
    decreases |js| - s.pos
  {
    hide OneTurn, Linked, AnyOpen;
    assert Going(js[k := c], len, s.pos) == Going(js, len, s.pos);
    if Going(js, len, s.pos) {
      TurnBehind(js, len, num, k, c, s);
      TurnKeepsLinks(js, len, num, s);
      match OneTurn(js, len, num, s)
      case Stop(t, code) =>
      case Next(t, n) => RunBehind(js, len, num, k, c, t.(pos := t.pos + 1));
    }
  }

  /** Both happen. */
  lemma StrayBracketTexts()
    ensures Run("}", 1, 4, St(0, -1, [])).code == INVAL
    ensures Run("{}}", 3, 4, St(0, -1, [])) == End(St(3, -1, [Token(Object, 0, 0, 2, -1)]), 0, 1)
  {
    var t0 := [Token(Object, 0, 0, -1, -1)];
    var t1 := [Token(Object, 0, 0, 2, -1)];
    assert OneTurn("{}}", 3, 4, St(0, -1, [])) == Next(St(0, 0, t0), 1);
    assert t0[0 := t0[0].(end := 2)] == t1;
    assert OneTurn("{}}", 3, 4, St(1, 0, t0)) == Next(St(1, -1, t1), 0);
    assert OneTurn("{}}", 3, 4, St(2, -1, t1)) == Next(St(2, -1, t1), 0);
    assert Run("{}}", 3, 4, St(3, -1, t1)) == End(St(3, -1, t1), 0, 0);
  }
}
