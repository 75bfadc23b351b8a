/**
 The tokenizer of jsmn.c, strict and with parent links: its token forest, the code that
 builds the forest in an array, and resuming after a text that was cut short.
 */
module Jsmn {
  import opened Base

  datatype Kind = Primitive | Object | Array | Str

  /** The size is a byte in jsonv2.h, and so wraps at 256. */
  datatype Token = Token(kind: Kind, size: nat, start: int, end: int, parent: int)

  /** The parser and the tokens allocated so far. */
  datatype St = St(pos: nat, toksuper: int, toks: seq<Token>)

  const NOMEM := -1
  const INVAL := -2
  const PART := -3

  // ------------------------------------------------------------- reading the text

  predicate Going(js: string, len: nat, i: nat) {
    i < len && At(js, i) != '\0'
  }

  datatype Scan = Found(at: nat) | Bad | Partial

  predicate EndsPrimitive(c: char) {
    c in {'\t', '\r', '\n', ' ', ',', ']', '}'}
  }

  function PrimitiveScan(js: string, len: nat, i: nat): (r: Scan)
    ensures r.Found? ==> i <= r.at < |js| && r.at < len
    ensures r.Found? && i < |js| && !EndsPrimitive(js[i]) ==> i < r.at
    decreases |js| - i
  {
    if !Going(js, len, i) then Partial
    else if EndsPrimitive(js[i]) then Found(i)
    else if js[i] < ' ' || js[i] >= '\U{7F}' then Bad
    else PrimitiveScan(js, len, i + 1)
  }

  /** The characters behind \u: up to four digits, fewer only at the terminator. */
  function HexScan(js: string, i: nat, n: nat): (r: Scan)
    requires n <= 4 && i <= |js|
    ensures r.Found? ==> i <= r.at <= |js| && (r.at == i + (4 - n) || At(js, r.at) == '\0')
    ensures r != Partial
    decreases 4 - n
  {
    if n == 4 || At(js, i) == '\0' then Found(i)
    else if !IsHex(js[i]) then Bad
    else HexScan(js, i + 1, n + 1)
  }

  predicate SimpleEscape(c: char) {
    c in {'\"', '/', '\\', 'b', 'f', 'r', 'n', 't'}
  }

  /** From behind the opening quote to the closing one. */
  function StringScan(js: string, len: nat, i: nat): (r: Scan)
    requires i <= |js|
    ensures r.Found? ==> i <= r.at < |js| && r.at < len && js[r.at] == '\"'
    decreases |js| - i
  {
    if !Going(js, len, i) then Partial
    else if js[i] == '\"' then Found(i)
    else if js[i] != '\\' then StringScan(js, len, i + 1)
    else if SimpleEscape(At(js, i + 1)) then StringScan(js, len, i + 2)
    else if At(js, i + 1) != 'u' then Bad
    else
      match HexScan(js, i + 2, 0)
      case Found(at) => StringScan(js, len, at)
      case _ => Bad
  }

  // ------------------------------------------------------------- one character of jsmn_parse

  datatype Turn = Next(s: St, count: nat) | Stop(s: St, code: int)

  predicate InSpan(s: St) {
    -1 <= s.toksuper < |s.toks|
  }

  /** size++ of the innermost open container. */
  function Bumped(toks: seq<Token>, p: int): (r: seq<Token>)
    requires -1 <= p < |toks|
    ensures |r| == |toks|
  {
    if p == -1 then toks else toks[p := toks[p].(size := (toks[p].size + 1) % 256)]
  }

  predicate IsOpen(t: Token) {
    t.start != -1 && t.end == -1
  }

  /** Parents come before their children. */
  predicate Linked(toks: seq<Token>) {
    forall i :: 0 <= i < |toks| ==> -1 <= toks[i].parent < i
  }

  /** The first open token on the way from token i through the parents, or -1. */
  function Up(toks: seq<Token>, i: int): (k: int)
    requires Linked(toks) && -1 <= i < |toks|
    ensures -1 <= k <= i && (k != -1 ==> IsOpen(toks[k]))
    decreases i
  {
    if i == -1 || IsOpen(toks[i]) then i else Up(toks, toks[i].parent)
  }

  /** A string or primitive becomes a token below the innermost open container. */
  function AddLeaf(s: St, num: nat, kind: Kind, start: int, end: int, pos: nat): Turn
    requires InSpan(s)
  {
    if |s.toks| >= num then Stop(s, NOMEM)
    else Next(St(pos, s.toksuper, Bumped(s.toks + [Token(kind, 0, start, end, s.toksuper)], s.toksuper)), 1)
  }

  function OpenTurn(s: St, num: nat, kind: Kind): Turn
    requires InSpan(s)
  {
    if |s.toks| >= num then Stop(s, NOMEM)
    else Next(St(s.pos, |s.toks|, Bumped(s.toks, s.toksuper) + [Token(kind, 0, s.pos, -1, s.toksuper)]), 1)
  }

  /** A closing bracket; without an open container it is passed over, unless it comes first. */
  function CloseTurn(s: St, kind: Kind): Turn
    requires InSpan(s) && Linked(s.toks)
  {
    if |s.toks| < 1 then Stop(s, INVAL)
    else
      var k := Up(s.toks, |s.toks| - 1);
      if k == -1 then Next(s, 0)
      else if s.toks[k].kind != kind then Stop(s, INVAL)
      else Next(St(s.pos, s.toks[k].parent, s.toks[k := s.toks[k].(end := s.pos + 1)]), 0)
  }

  predicate StartsPrimitive(c: char) {
    c == '-' || '0' <= c <= '9' || c == 't' || c == 'f' || c == 'n'
  }

  predicate Passed(c: char) {
    c in {'\t', '\r', '\n', ':', ',', ' '}
  }

  function OneTurn(js: string, len: nat, num: nat, s: St): (r: Turn)
    requires InSpan(s) && Linked(s.toks) && s.pos < |js|
    ensures r.Next? ==> s.pos <= r.s.pos < |js|
  {
    var c := js[s.pos];
    if c == '{' || c == '[' then OpenTurn(s, num, if c == '{' then Object else Array)
    else if c == '}' || c == ']' then CloseTurn(s, if c == '}' then Object else Array)
    else if c == '\"' then
      match StringScan(js, len, s.pos + 1)
      case Found(at) => AddLeaf(s, num, Str, s.pos + 1, at, at)
      case Bad => Stop(s, INVAL)
      case Partial => Stop(s, PART)
    else if Passed(c) then Next(s, 0)
    else if StartsPrimitive(c) then
      match PrimitiveScan(js, len, s.pos)
      case Found(at) => AddLeaf(s, num, Primitive, s.pos, at, at - 1)
      case Bad => Stop(s, INVAL)
      case Partial => Stop(s, PART)
    else Stop(s, INVAL)
  }

  /** The state, the code and the count that a call of jsmn_parse ends with. */
  datatype End = End(s: St, code: int, count: nat)

  predicate AnyOpen(toks: seq<Token>) {
    exists i :: 0 <= i < |toks| && IsOpen(toks[i])
  }

  /** What one turn keeps. */
  lemma TurnKeepsLinks(js: string, len: nat, num: nat, s: St)
    requires InSpan(s) && Linked(s.toks) && s.pos < |js|
    ensures var r := OneTurn(js, len, num, s);
            InSpan(r.s) && Linked(r.s.toks) && (r.Stop? ==> r.s == s && r.code < 0)
  {
  }

  function Run(js: string, len: nat, num: nat, s: St): (r: End)
    requires InSpan(s) && Linked(s.toks)
    ensures InSpan(r.s) && Linked(r.s.toks) && (r.code >= 0 ==> r.code == 0)
    decreases |js| - s.pos
  {
    if !Going(js, len, s.pos) then End(s, if AnyOpen(s.toks) then PART else 0, 0)
    else
      TurnKeepsLinks(js, len, num, s);
      match OneTurn(js, len, num, s)
      case Stop(t, code) => End(t, code, 0)
      case Next(t, k) =>
        var r := Run(js, len, num, t.(pos := t.pos + 1));
        r.(count := r.count + k)
  }

  // ------------------------------------------------------------- resuming

  /** A scan that finds an end in a prefix finds the same one in the whole text. */
  lemma {:induction false} PrimitiveScanPrefix(js: string, more: string, len0: nat, len: nat, i: nat)
    requires |js| <= len0 && |js| <= len && i <= |js|
    ensures var r := PrimitiveScan(js, len0, i);
            r != Partial ==> PrimitiveScan(js + more, len, i) == r
    decreases |js| - i
  {
    if Going(js, len0, i) && !EndsPrimitive(js[i]) && !(js[i] < ' ' || js[i] >= '\U{7F}') {
      PrimitiveScanPrefix(js, more, len0, len, i + 1);
    }
  }

  lemma {:induction false} HexScanPrefix(js: string, more: string, i: nat, n: nat)
    requires n <= 4 && i <= |js|
    ensures var r := HexScan(js, i, n);
            r == Bad || (r.Found? && At(js, r.at) != '\0') ==> HexScan(js + more, i, n) == r
    decreases 4 - n
  {
    if n < 4 && At(js, i) != '\0' && IsHex(js[i]) {
      HexScanPrefix(js, more, i + 1, n + 1);
    }
  }

  /** From behind an opening quote the scan reaches a backslash that ends the text: the character
      it escapes is missing. */
  predicate EscapeCut(js: string, len: nat, i: nat)
    requires i <= |js|
    decreases |js| - i
  {
    && Going(js, len, i) && js[i] != '\"'
    && (if js[i] != '\\' then EscapeCut(js, len, i + 1)
        else if i + 1 == |js| then true
        else if SimpleEscape(js[i + 1]) then EscapeCut(js, len, i + 2)
        else if js[i + 1] != 'u' then false
        else match HexScan(js, i + 2, 0)
             case Found(at) => EscapeCut(js, len, at)
             case _ => false)
  }

  /** A string closed or refused in a prefix is closed or refused in the whole text, unless the
      prefix stops between a backslash and the character behind it. */
  lemma {:induction false} StringScanPrefix(js: string, more: string, len0: nat, len: nat, i: nat)
    requires |js| <= len0 && |js| <= len && i <= |js|
    ensures var r := StringScan(js, len0, i);
            && (r.Found? ==> StringScan(js + more, len, i) == r)
            && (r == Bad && !EscapeCut(js, len0, i) ==> StringScan(js + more, len, i) == Bad)
    decreases |js| - i
  {
    if Going(js, len0, i) && js[i] != '\"' {
      if js[i] != '\\' {
        StringScanPrefix(js, more, len0, len, i + 1);
      } else if SimpleEscape(At(js, i + 1)) {
        StringScanPrefix(js, more, len0, len, i + 2);
      } else if At(js, i + 1) == 'u' {
        HexScanPrefix(js, more, i + 2, 0);
        match HexScan(js, i + 2, 0)
        case Found(at) => StringScanPrefix(js, more, len0, len, at);
        case _ =>
      }
    }
  }

  /** Cut there, a string is refused; with an n and a quote behind it, it is closed. */
  lemma {:induction false} EscapeCompleted(js: string, len0: nat, i: nat)
    requires |js| <= len0 && i <= |js| && EscapeCut(js, len0, i)
    ensures StringScan(js, len0, i) == Bad
    ensures StringScan(js + "n\"", |js| + 2, i) == Found(|js| + 1)
    decreases |js| - i
  {
    var whole, len := js + "n\"", |js| + 2;
    assert Going(whole, len, i) && whole[i] == js[i];
    if js[i] != '\\' {
      EscapeCompleted(js, len0, i + 1);
    } else if i + 1 == |js| {
      assert whole[i + 1] == 'n' && whole[i + 2] == '\"';
      assert StringScan(whole, len, i + 2) == Found(i + 2);
    } else if SimpleEscape(js[i + 1]) {
      EscapeCompleted(js, len0, i + 2);
    } else {
      HexScanPrefix(js, "n\"", i + 2, 0);
      EscapeCompleted(js, len0, HexScan(js, i + 2, 0).at);
    }
  }

  /** The text stops inside an escape of the string that opens at pos. */
  predicate CutAt(js: string, len: nat, pos: nat) {
    Going(js, len, pos) && js[pos] == '\"' && EscapeCut(js, len, pos + 1)
  }

  /** Longer texts take the same turns as long as the shorter one goes on. */
  lemma TurnPrefix(js: string, more: string, len0: nat, len: nat, num: nat, s: St)
    requires |js| <= len0 && |js| <= len && InSpan(s) && Linked(s.toks) && s.pos < |js|
    requires Going(js, len0, s.pos)
    ensures var r, w := OneTurn(js, len0, num, s), OneTurn(js + more, len, num, s);
            && (r.Next? ==> w == r)
            && (r.Stop? && r.code == INVAL && !CutAt(js, len0, s.pos) ==> w == r)
            && (r.Stop? && r.code == NOMEM ==> w == r)
  {
    assert (js + more)[s.pos] == js[s.pos];
    PrimitiveScanPrefix(js, more, len0, len, s.pos);
    StringScanPrefix(js, more, len0, len, s.pos + 1);
    hide StringScan, PrimitiveScan, EscapeCut, Linked, Up, Bumped;
  }

  /** Wherever a call on a cut text ends, going on from there with the longer text ends as one
      call on the longer text does; the two counts add up. */
  lemma {:induction false} Resume(js: string, more: string, len0: nat, len: nat, num: nat, s: St)
    requires |js| <= len0 && |js| <= len && InSpan(s) && Linked(s.toks)
    ensures var cut, whole := Run(js, len0, num, s), Run(js + more, len, num, s);
            var again := Run(js + more, len, num, cut.s);
            again.s == whole.s && again.code == whole.code && cut.count + again.count == whole.count
    decreases |js| - s.pos
  {
    hide OneTurn, Linked, AnyOpen;
    if Going(js, len0, s.pos) {
      TurnKeepsLinks(js, len0, num, s);
      TurnPrefix(js, more, len0, len, num, s);
      match OneTurn(js, len0, num, s)
      case Stop(t, code) =>
      case Next(t, k) => Resume(js, more, len0, len, num, t.(pos := t.pos + 1));
    }
  }

  /** A call that does not end at the end of the text ends where a turn stopped it. */
  lemma {:induction false} EndsAtStop(js: string, len: nat, num: nat, s: St)
    requires InSpan(s) && Linked(s.toks)
    ensures var r := Run(js, len, num, s);
            if Going(js, len, r.s.pos) then OneTurn(js, len, num, r.s) == Stop(r.s, r.code)
            else r.code == PART || r.code == 0
    decreases |js| - s.pos
  {
    hide OneTurn, Linked, AnyOpen;
    if Going(js, len, s.pos) {
      TurnKeepsLinks(js, len, num, s);
      match OneTurn(js, len, num, s)
      case Stop(t, code) =>
      case Next(t, k) => EndsAtStop(js, len, num, t.(pos := t.pos + 1));
    }
  }

  /** A call on a cut text that is refused although some longer text is not: exactly when the cut
      fell between a backslash and the character it escapes, in a string. */
  lemma CutIsPartial(js: string, len0: nat, num: nat, s: St)
    requires |js| <= len0 && InSpan(s) && Linked(s.toks)
    ensures var r := Run(js, len0, num, s);
            (r.code == INVAL && exists more: string, len: nat :: |js| <= len && Run(js + more, len, num, s).code != INVAL)
            <==> CutAt(js, len0, r.s.pos)
  {
    hide OneTurn, Linked, Run, EscapeCut;
    var r := Run(js, len0, num, s);
    EndsAtStop(js, len0, num, s);
    if CutAt(js, len0, r.s.pos) {
      CutIsCompleted(js, len0, num, r.s);
      var whole, len := js + "n\"", |js| + 2;
      Resume(js, "n\"", len0, len, num, s);
      assert Run(js + "n\"", len, num, s).code != INVAL;
    } else if r.code == INVAL {
      forall more: string, len: nat | |js| <= len
        ensures Run(js + more, len, num, s).code == INVAL
      {
        Resume(js, more, len0, len, num, s);
        StaysRefused(js, more, len0, len, num, r.s);
      }
    }
  }

  lemma StaysRefused(js: string, more: string, len0: nat, len: nat, num: nat, s: St)
    requires |js| <= len0 && |js| <= len && InSpan(s) && Linked(s.toks)
    requires Going(js, len0, s.pos) && OneTurn(js, len0, num, s) == Stop(s, INVAL) && !CutAt(js, len0, s.pos)
    ensures Run(js + more, len, num, s).code == INVAL
  {
    hide OneTurn, Linked, CutAt;
    TurnPrefix(js, more, len0, len, num, s);
    assert (js + more)[s.pos] == js[s.pos];
  }

  lemma CutIsCompleted(js: string, len0: nat, num: nat, s: St)
    requires |js| <= len0 && InSpan(s) && Linked(s.toks) && CutAt(js, len0, s.pos)
    ensures OneTurn(js, len0, num, s) == Stop(s, INVAL)
    ensures Run(js + "n\"", |js| + 2, num, s).code != INVAL
  {
    hide Linked, Up, StringScan, EscapeCut;
    var whole, len := js + "n\"", |js| + 2;
    EscapeCompleted(js, len0, s.pos + 1);
    assert whole[s.pos] == js[s.pos];
    var turn := OneTurn(whole, len, num, s);
    assert turn == AddLeaf(s, num, Str, s.pos + 1, |js| + 1, |js| + 1);
    TurnKeepsLinks(whole, len, num, s);
    if turn.Next? {
      var t := turn.s.(pos := turn.s.pos + 1);
      assert Run(whole, len, num, t) == End(t, if AnyOpen(t.toks) then PART else 0, 0);
    }
  }

  /** A string cut behind its backslash is refused, and completed it is accepted; a final
      backslash that is itself escaped does no harm; and outside a string a backslash is refused
      whatever follows. */
  lemma CutBehindBackslash()
    ensures Run("\"\\", 2, 1, St(0, -1, [])).code == INVAL
    ensures Run("\"\\n\"", 4, 1, St(0, -1, [])).code == 0
    ensures Run("\"\\\\", 3, 1, St(0, -1, [])).code == PART
    ensures forall more: string, len: nat :: len >= 2 ==> Run("x\\" + more, len, 1, St(0, -1, [])).code == INVAL
  {
    var s := St(0, -1, []);
    EscapeClosed();
    EscapedBackslash();
    forall more: string, len: nat | len >= 2
      ensures Run("x\\" + more, len, 1, s).code == INVAL
    {
      assert ("x\\" + more)[0] == 'x';
      assert OneTurn("x\\" + more, len, 1, s) == Stop(s, INVAL);
    }
  }

  lemma EscapeClosed()
    ensures Run("\"\\n\"", 4, 1, St(0, -1, [])).code == 0
  {
    assert StringScan("\"\\n\"", 4, 3) == Found(3);
    assert OneTurn("\"\\n\"", 4, 1, St(0, -1, [])) == Next(St(3, -1, [Token(Str, 0, 1, 3, -1)]), 1);
  }

  lemma EscapedBackslash()
    ensures Run("\"\\\\", 3, 1, St(0, -1, [])).code == PART
  {
    assert StringScan("\"\\\\", 3, 3) == Partial;
    assert OneTurn("\"\\\\", 3, 1, St(0, -1, [])) == Stop(St(0, -1, []), PART);
  }
}
