/**
 What jsmn_parse refuses: everything that is not made of well-spelled strings and primitives,
 brackets, commas, colons and white space, and every text with more tokens than there is room for.
 */
module JsmnStrict {
  import opened Base
  import opened Jsmn
  import opened JsmnForest
  import opened JsonSpelling
  import JsonText
  import opened SpellingTokens

  // ------------------------------------------------------------- room for tokens

  lemma TurnInLessRoom(js: string, len: nat, num: nat, big: nat, s: St)
    requires InSpan(s) && Linked(s.toks) && s.pos < |js| && |s.toks| <= num <= big
    ensures var r, q := OneTurn(js, len, big, s), OneTurn(js, len, num, s);
            if |r.s.toks| <= num then q == r else q == Stop(s, NOMEM) && |s.toks| == num && r.Next?
  {
    hide StringScan, PrimitiveScan, Linked, Up;
  }

  lemma {:induction false} NeverFewer(js: string, len: nat, num: nat, s: St)
    requires InSpan(s) && Linked(s.toks)
    ensures |s.toks| <= |Run(js, len, num, s).s.toks|
    decreases |js| - s.pos
  {
    hide OneTurn, Linked, AnyOpen;
    if Going(js, len, s.pos) {
      TurnKeepsLinks(js, len, num, s);
      TurnCounts(js, len, num, s);
      match OneTurn(js, len, num, s)
      case Stop(_, _) =>
      case Next(t, k) => NeverFewer(js, len, num, t.(pos := t.pos + 1));
    }
  }

  /** With less room a call ends just as with more when its tokens fit, and with NOMEM and a full
      array when they do not. */
  lemma {:induction false} RoomNeeded(js: string, len: nat, num: nat, big: nat, s: St)
    requires InSpan(s) && Linked(s.toks) && |s.toks| <= num <= big
    ensures var r, q := Run(js, len, big, s), Run(js, len, num, s);
            if |r.s.toks| <= num then q == r else q.code == NOMEM && |q.s.toks| == num
    decreases |js| - s.pos
  {
    hide OneTurn, Linked, AnyOpen;
    if Going(js, len, s.pos) {
      TurnKeepsLinks(js, len, num, s);
      TurnKeepsLinks(js, len, big, s);
      TurnInLessRoom(js, len, num, big, s);
      match OneTurn(js, len, big, s)
      case Stop(_, _) =>
      case Next(t, k) =>
        NeverFewer(js, len, big, t.(pos := t.pos + 1));
        if |t.toks| <= num { RoomNeeded(js, len, num, big, t.(pos := t.pos + 1)); }
    }
  }

  /** A document of RFC 8259 with more tokens than there is room for is refused as too large. */
  lemma StandardNeedsRoom(before: string, d: Doc, after: string, len: nat, num: nat)
    requires Blank(before) && WellSpelled(d) && Standard(d) && !Simple(d) && Blank(after)
    requires |before + DocThen(d, after)| <= len
    ensures var r := Run(before + DocThen(d, after), len, num, St(0, -1, []));
            if num < |DocTokens(d, |before|, -1, 0)| then r.code == NOMEM
            else r.code == 0 && r.count == |DocTokens(d, |before|, -1, 0)|
  {
    hide Run, DocTokens, DocThen, WellSpelled, Standard, Blank;
    var js, big := before + DocThen(d, after), |DocTokens(d, |before|, -1, 0)|;
    if num < big {
      StandardIsTokenized(before, d, after, len, big);
      RoomNeeded(js, len, num, big, St(0, -1, []));
    } else {
      StandardIsTokenized(before, d, after, len, num);
    }
  }

  // ------------------------------------------------------------- primitives and strings

  /** A primitive ends at a blank, a comma or a closing bracket; up to there it is printable. */
  lemma {:induction false} PrimitiveIs(js: string, len: nat, i: nat, at: nat)
    requires i <= |js|
    ensures PrimitiveScan(js, len, i) == Found(at) <==>
            && i <= at < |js| && at < len && js[at] in "\t\r\n ,]}"
            && forall k :: i <= k < at ==> '!' <= js[k] <= '~' && js[k] !in ",]}"
    decreases |js| - i
  {
    if Going(js, len, i) && !EndsPrimitive(js[i]) && !(js[i] < ' ' || js[i] >= '\U{7F}') {
      PrimitiveIs(js, len, i + 1, at);
    }
  }

  /** The pieces of a string that jsmn lets pass: any character but the quote, the backslash and
      the terminator; eight escapes; and any four hexadecimal digits behind \u. */
  predicate Scanned(s: Spelling) {
    match s
    case Raw(c) => c != '\"' && c != '\\' && c != '\0'
    case Slashed(c) => c in "\"\\/"
    case Short(letter) => letter in "bfnrt"
    case Code(u, digits) => Spells(digits, u)
    case Codes(_, _, _, _) => false
  }

  predicate AllScanned(cs: seq<Spelling>) {
    forall i :: 0 <= i < |cs| ==> Scanned(cs[i])
  }

  lemma HexSpells(digits: string) returns (u: nat)
    requires |digits| == 4 && forall k :: 0 <= k < 4 ==> IsHex(digits[k])
    ensures Spells(digits, u)
  {
    hide DigitIs;
    var a := JsonText.HexValue(digits[0]);
    var b := JsonText.HexValue(digits[1]);
    var c := JsonText.HexValue(digits[2]);
    var d := JsonText.HexValue(digits[3]);
    u := ((a * 16 + b) * 16 + c) * 16 + d;
    Packs(a, b, c, d);
    DigitIsHex(digits[0], a);
    DigitIsHex(digits[1], b);
    DigitIsHex(digits[2], c);
    DigitIsHex(digits[3], d);
  }

  lemma Packs(a: nat, b: nat, c: nat, d: nat)
    requires a < 16 && b < 16 && c < 16 && d < 16
    ensures var u := ((a * 16 + b) * 16 + c) * 16 + d;
            u < 0x10000 && u / 0x1000 == a && u / 0x100 % 0x10 == b && u / 0x10 % 0x10 == c && u % 0x10 == d
  {
    var u := ((a * 16 + b) * 16 + c) * 16 + d;
    assert u / 0x10 == (a * 16 + b) * 16 + c;
    assert u / 0x100 == a * 16 + b;
  }

  /** Four digits are passed, unless the terminator comes first. */
  lemma {:induction false} HexRun(js: string, i: nat, n: nat)
    requires n <= 4 && i <= |js|
    ensures var r := HexScan(js, i, n);
            r.Found? && At(js, r.at) != '\0' ==>
              r.at == i + (4 - n) <= |js| && forall k :: i <= k < r.at ==> IsHex(js[k])
    decreases 4 - n
  {
    if n < 4 && At(js, i) != '\0' && IsHex(js[i]) { HexRun(js, i + 1, n + 1); }
  }

  /** The first piece of a scan that finds the closing quote further on. */
  lemma OnePiece(js: string, len: nat, i: nat) returns (s: Spelling, k: nat)
    requires i <= |js| && StringScan(js, len, i).Found? && js[i] != '\"'
    ensures i < k <= |js| && Scanned(s) && js[i..k] == SpellingText(s)
    ensures StringScan(js, len, k) == StringScan(js, len, i)
  {
    hide Spells, HexScan;
    if js[i] != '\\' {
      s, k := Raw(js[i]), i + 1;
    } else if SimpleEscape(At(js, i + 1)) {
      var c := js[i + 1];
      k := i + 2;
      s := if c in "bfnrt" then Short(c) else Slashed(c);
    } else {
      k := i + 6;
      HexRun(js, i + 2, 0);
      var digits := js[i + 2..i + 6];
      var u := HexSpells(digits);
      s := Code(u, digits);
      assert js[i..k] == "\\u" + digits;
    }
  }

  lemma JoinPieces(js: string, i: nat, k: nat, at: nat, s: Spelling, rest: seq<Spelling>)
    requires i <= k <= at <= |js| && js[i..k] == SpellingText(s) && js[k..at] == BodyThen(rest, "")
    ensures js[i..at] == BodyThen([s] + rest, "")
  {
    hide SpellingText;
    assert js[i..at] == js[i..k] + js[k..at];
    assert ([s] + rest)[1..] == rest;
  }

  /** What such a scan has read. */
  lemma {:induction false} StringPieces(js: string, len: nat, i: nat) returns (cs: seq<Spelling>)
    requires i <= |js| && StringScan(js, len, i).Found?
    ensures AllScanned(cs) && js[i..StringScan(js, len, i).at] == BodyThen(cs, "")
    decreases |js| - i
  {
    hide Scanned, SpellingText, HexScan, SimpleEscape;
    cs := [];
    var at := StringScan(js, len, i).at;
    if js[i] != '\"' {
      var s, k := OnePiece(js, len, i);
      var rest := StringPieces(js, len, k);
      JoinPieces(js, i, k, at, s, rest);
      cs := [s] + rest;
    }
  }

  lemma PieceText(s: Spelling)
    requires Scanned(s)
    ensures SpellingText(s) != [] && SpellingText(s)[0] != '\"' && forall c :: c in SpellingText(s) ==> c != '\0'
  {
    if s.Code? { DigitsAreHex(s.digits, s.u); }
    hide Spells;
  }

  /** A piece is passed. */
  lemma PiecePassed(js: string, len: nat, i: nat, s: Spelling)
    requires Scanned(s) && i + |SpellingText(s)| <= |js| && i < len && js[i..i + |SpellingText(s)|] == SpellingText(s)
    ensures StringScan(js, len, i) == StringScan(js, len, i + |SpellingText(s)|)
  {
    hide Spells, HexScan;
    var p := js[i..i + |SpellingText(s)|];
    PieceText(s);
    assert p[0] == js[i];
    match s
    case Raw(c) =>
    case Slashed(c) => assert p[1] == js[i + 1];
    case Short(letter) => assert p[1] == js[i + 1];
    case Code(u, digits) =>
      assert p[1] == js[i + 1];
      DigitsAreHex(digits, u);
      assert js[i + 2..i + 6] == p[2..];
      HexScanFour(js, i + 2, digits, js[i + 6..]);
  }

  lemma {:induction false} PiecesPassed(js: string, len: nat, i: nat, cs: seq<Spelling>, at: nat)
    requires AllScanned(cs) && i <= at < |js| && at < len && js[i..at] == BodyThen(cs, "")
    ensures StringScan(js, len, i) == StringScan(js, len, at)
    decreases |cs|
  {
    hide Scanned, SpellingText, StringScan;
    if cs != [] {
      var p := SpellingText(cs[0]);
      PieceText(cs[0]);
      assert js[i..at][..|p|] == p && js[i..at][|p|..] == BodyThen(cs[1..], "");
      assert js[i..i + |p|] == p && js[i + |p|..at] == BodyThen(cs[1..], "");
      PiecePassed(js, len, i, cs[0]);
      PiecesPassed(js, len, i + |p|, cs[1..], at);
    }
  }

  /** A string ends at the first quote that is not part of an escape, when it is all made of such
      pieces. */
  lemma StringIs(js: string, len: nat, i: nat, at: nat)
    requires i <= |js|
    ensures StringScan(js, len, i) == Found(at) <==>
            && i <= at < |js| && at < len && js[at] == '\"'
            && exists cs: seq<Spelling> :: AllScanned(cs) && js[i..at] == BodyThen(cs, "")
  {
    if StringScan(js, len, i) == Found(at) {
      var cs := StringPieces(js, len, i);
    } else if i <= at < |js| && at < len && js[at] == '\"' {
      forall cs: seq<Spelling> | AllScanned(cs)
        ensures js[i..at] != BodyThen(cs, "")
      {
        if js[i..at] == BodyThen(cs, "") { PiecesPassed(js, len, i, cs, at); }
      }
    }
  }

  // ------------------------------------------------------------- every character

  /** A leaf is a whole primitive or string. */
  ghost predicate LeafSpelled(js: string, t: Token) {
    && (t.kind == Primitive ==>
          && 0 <= t.start < t.end < |js| && js[t.start] in "-0123456789tfn" && js[t.end] in "\t\r\n ,]}"
          && forall k :: t.start <= k < t.end ==> '!' <= js[k] <= '~' && js[k] !in ",]}")
    && (t.kind == Str ==>
          && 0 < t.start <= t.end < |js| && js[t.start - 1] == '\"' && js[t.end] == '\"'
          && exists cs: seq<Spelling> :: AllScanned(cs) && js[t.start..t.end] == BodyThen(cs, ""))
  }

  ghost predicate LeavesSpelled(js: string, toks: seq<Token>) {
    forall i :: 0 <= i < |toks| ==> LeafSpelled(js, toks[i])
  }

  /** The token is a leaf and holds position i, quotes included. */
  predicate Over(t: Token, i: int) {
    (t.kind == Primitive && t.start <= i < t.end) || (t.kind == Str && t.start - 1 <= i <= t.end)
  }

  predicate Covered(toks: seq<Token>, i: int) {
    exists k :: 0 <= k < |toks| && Over(toks[k], i)
  }

  /** Outside of leaves there are only brackets, commas, colons and white space. */
  predicate AllRead(js: string, toks: seq<Token>, pos: nat) {
    pos <= |js| && forall i :: 0 <= i < pos ==> js[i] in "\t\r\n ,:{}[]" || Covered(toks, i)
  }

  /** Leaves stay where they are. */
  predicate LeavesKept(a: seq<Token>, b: seq<Token>) {
    && |a| <= |b|
    && forall i :: 0 <= i < |a| ==>
         b[i].kind == a[i].kind && b[i].start == a[i].start && (a[i].kind == Primitive || a[i].kind == Str ==> b[i].end == a[i].end)
  }

  lemma KeptCovers(a: seq<Token>, b: seq<Token>, i: int)
    requires LeavesKept(a, b) && Covered(a, i)
    ensures Covered(b, i)
  {
    var k :| 0 <= k < |a| && Over(a[k], i);
    assert Over(b[k], i);
  }

  lemma KeptReads(js: string, a: seq<Token>, b: seq<Token>, pos: nat, end: nat)
    requires LeavesKept(a, b) && AllRead(js, a, pos) && pos <= end <= |js|
    requires forall i :: pos <= i < end ==> js[i] in "\t\r\n ,:{}[]" || Covered(b, i)
    ensures AllRead(js, b, end)
  {
    hide LeavesKept, Covered;
    forall i | 0 <= i < pos && Covered(a, i)
      ensures Covered(b, i)
    {
      KeptCovers(a, b, i);
    }
  }

  lemma KeptSpelled(js: string, a: seq<Token>, b: seq<Token>)
    requires LeavesKept(a, b) && LeavesSpelled(js, a)
    requires forall i :: |a| <= i < |b| ==> LeafSpelled(js, b[i])
    ensures LeavesSpelled(js, b)
  {
    hide LeafSpelled;
    forall i | 0 <= i < |a|
      ensures LeafSpelled(js, b[i])
    {
      SameLeaf(js, a[i], b[i]);
    }
  }

  lemma SameLeaf(js: string, t: Token, u: Token)
    requires LeafSpelled(js, t) && u.kind == t.kind && u.start == t.start
    requires t.kind == Primitive || t.kind == Str ==> u.end == t.end
    ensures LeafSpelled(js, u)
  {
  }

  lemma BumpKeeps(toks: seq<Token>, t: Token, p: int)
    requires -1 <= p <= |toks|
    ensures LeavesKept(toks, Bumped(toks + [t], p)) && |Bumped(toks + [t], p)| == |toks| + 1
    ensures var u := Bumped(toks + [t], p)[|toks|]; u.kind == t.kind && u.start == t.start && u.end == t.end
  {
  }

  lemma OpenKeepsLeaves(toks: seq<Token>, t: Token, p: int)
    requires -1 <= p < |toks|
    ensures LeavesKept(toks, Bumped(toks, p) + [t])
  {
  }

  ghost predicate Strict(js: string, s: St) {
    LeavesSpelled(js, s.toks) && AllRead(js, s.toks, s.pos)
  }

  /** A leaf that holds the characters from s.pos on, up to end. */
  lemma LeafIsStrict(js: string, s: St, t: Token, end: nat)
    requires InSpan(s) && Strict(js, s) && LeafSpelled(js, t) && s.pos <= end <= |js|
    requires forall i :: s.pos <= i < end ==> Over(t, i)
    ensures Strict(js, St(end, s.toksuper, Bumped(s.toks + [t], s.toksuper)))
  {
    hide LeafSpelled, LeavesSpelled, AllRead, LeavesKept, Bumped;
    var b := Bumped(s.toks + [t], s.toksuper);
    BumpKeeps(s.toks, t, s.toksuper);
    SameLeaf(js, t, b[|s.toks|]);
    KeptSpelled(js, s.toks, b);
    forall i | s.pos <= i < end
      ensures Covered(b, i)
    {
      assert Over(t, i);
      assert Over(b[|s.toks|], i);
    }
    KeptReads(js, s.toks, b, s.pos, end);
  }

  lemma StringLeaf(js: string, len: nat, s: St, at: nat)
    requires InSpan(s) && s.pos < |js| && js[s.pos] == '\"' && StringScan(js, len, s.pos + 1) == Found(at)
    ensures var t := Token(Str, 0, s.pos + 1, at, s.toksuper);
            LeafSpelled(js, t) && forall i :: s.pos <= i < at + 1 ==> Over(t, i)
  {
    StringIs(js, len, s.pos + 1, at);
    hide AllScanned, BodyThen, StringScan;
  }

  lemma PrimitiveLeaf(js: string, len: nat, s: St, at: nat)
    requires InSpan(s) && s.pos < |js| && StartsPrimitive(js[s.pos]) && PrimitiveScan(js, len, s.pos) == Found(at)
    ensures var t := Token(Primitive, 0, s.pos, at, s.toksuper);
            at > 0 && LeafSpelled(js, t) && forall i :: s.pos <= i < at ==> Over(t, i)
  {
    PrimitiveIs(js, len, s.pos, at);
    hide PrimitiveScan;
  }

  /** A character that is passed over, or opens or closes a container. */
  lemma MarkIsStrict(js: string, s: St, toks: seq<Token>, super: int)
    requires Strict(js, s) && s.pos < |js| && js[s.pos] in "\t\r\n ,:{}[]" && LeavesKept(s.toks, toks)
    requires forall i :: |s.toks| <= i < |toks| ==> LeafSpelled(js, toks[i])
    ensures Strict(js, St(s.pos + 1, super, toks))
  {
    hide LeafSpelled, LeavesSpelled, AllRead, LeavesKept;
    KeptSpelled(js, s.toks, toks);
    KeptReads(js, s.toks, toks, s.pos, s.pos + 1);
  }

  lemma OpenIsContainer(js: string, s: St, k: nat)
    requires Inv(js, s) && k < |s.toks| && IsOpen(s.toks[k])
    ensures Container(s.toks[k].kind)
  {
  }

  lemma CloseKeepsLeaves(toks: seq<Token>, k: nat, end: int)
    requires k < |toks| && Container(toks[k].kind)
    ensures LeavesKept(toks, toks[k := toks[k].(end := end)])
  {
  }

  lemma CloseIsStrict(js: string, s: St, kind: Kind)
    requires Inv(js, s) && InSpan(s) && Linked(s.toks) && Strict(js, s) && s.pos < |js| && js[s.pos] in "}]"
    ensures var r := CloseTurn(s, kind);
            r.Next? ==> Strict(js, r.s.(pos := r.s.pos + 1))
  {
    hide Inv, Linked, Strict, LeafSpelled, LeavesKept, Up;
    if s.toks != [] {
      var k := Up(s.toks, |s.toks| - 1);
      if k == -1 {
        SameKept(s.toks);
        MarkIsStrict(js, s, s.toks, s.toksuper);
      } else {
        OpenIsContainer(js, s, k);
        CloseKeepsLeaves(s.toks, k, s.pos + 1);
        MarkIsStrict(js, s, s.toks[k := s.toks[k].(end := s.pos + 1)], s.toks[k].parent);
      }
    }
  }

  lemma SameKept(toks: seq<Token>)
    ensures LeavesKept(toks, toks)
  {
  }

  lemma TurnIsStrict(js: string, len: nat, num: nat, s: St)
    requires Inv(js, s) && InSpan(s) && Linked(s.toks) && Strict(js, s) && Going(js, len, s.pos)
    ensures var r := OneTurn(js, len, num, s);
            r.Next? ==> Strict(js, r.s.(pos := r.s.pos + 1))
  {
    hide Inv, Linked, Strict, CloseTurn, Bumped, LeafSpelled, LeavesKept, StringScan, PrimitiveScan, StartsPrimitive;
    var c := js[s.pos];
    if c == '{' || c == '[' {
      var t := Token(if c == '{' then Object else Array, 0, s.pos, -1, s.toksuper);
      OpenKeepsLeaves(s.toks, t, s.toksuper);
      ContainerSpelled(js, t);
      MarkIsStrict(js, s, Bumped(s.toks, s.toksuper) + [t], |s.toks|);
    } else if c == '}' || c == ']' {
      CloseIsStrict(js, s, if c == '}' then Object else Array);
    } else if c == '\"' {
      match StringScan(js, len, s.pos + 1)
      case Found(at) =>
        StringLeaf(js, len, s, at);
        LeafIsStrict(js, s, Token(Str, 0, s.pos + 1, at, s.toksuper), at + 1);
      case _ =>
    } else if Passed(c) {
      SameKept(s.toks);
      MarkIsStrict(js, s, s.toks, s.toksuper);
    } else if StartsPrimitive(c) {
      match PrimitiveScan(js, len, s.pos)
      case Found(at) =>
        PrimitiveLeaf(js, len, s, at);
        LeafIsStrict(js, s, Token(Primitive, 0, s.pos, at, s.toksuper), at);
      case _ =>
    }
  }

  lemma ContainerSpelled(js: string, t: Token)
    requires Container(t.kind)
    ensures LeafSpelled(js, t)
  {
  }

  lemma {:induction false} RunIsStrict(js: string, len: nat, num: nat, s: St)
    requires InSpan(s) && Linked(s.toks) && Inv(js, s) && Strict(js, s)
    ensures Strict(js, Run(js, len, num, s).s)
    decreases |js| - s.pos
  {
    hide Inv, OneTurn, Linked, Strict;
    if Going(js, len, s.pos) {
      TurnKeepsLinks(js, len, num, s);
      TurnKeeps(js, len, num, s);
      TurnIsStrict(js, len, num, s);
      match OneTurn(js, len, num, s)
      case Stop(_, _) =>
      case Next(t, k) => RunIsStrict(js, len, num, t.(pos := t.pos + 1));
    }
  }

  /** Whatever text jsmn_parse accepts: it has been read to its end, every string and every
      primitive in it is well spelled, and nothing else is in it than brackets, commas, colons and
      white space. */
  lemma AcceptedIsStrict(js: string, len: nat, num: nat)
    requires Run(js, len, num, St(0, -1, [])).code == 0
    ensures var s := Run(js, len, num, St(0, -1, [])).s;
            && (s.pos >= |js| || s.pos >= len || js[s.pos] == '\0')
            && LeavesSpelled(js, s.toks)
            && forall i :: 0 <= i < s.pos ==> i < |js| && (js[i] in "\t\r\n ,:{}[]" || Covered(s.toks, i))
  {
    hide Run, Inv, Strict, Linked, AnyOpen;
    var s := St(0, -1, []);
    StartInv(js);
    BasicFacts(js, s);
    StartIsStrict(js);
    RunIsStrict(js, len, num, s);
    SuccessIsShut(js, len, num, s);
    StrictParts(js, Run(js, len, num, s).s);
  }

  lemma StartIsStrict(js: string)
    ensures Strict(js, St(0, -1, []))
  {
  }

  lemma StrictParts(js: string, s: St)
    requires Strict(js, s)
    ensures s.pos <= |js| && LeavesSpelled(js, s.toks)
    ensures forall i :: 0 <= i < s.pos ==> js[i] in "\t\r\n ,:{}[]" || Covered(s.toks, i)
  {
    hide LeavesSpelled, Covered;
  }
}
