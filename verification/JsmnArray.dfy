/** jsmn_parse itself: the parser's fields and the token array, updated in place. */
module JsmnArray {
  import opened Base
  import opened Jsmn
  import opened JsmnForest

  class Parser {
    var pos: int
    var toknext: int
    var toksuper: int

    /** jsmn_init */
    constructor ()
      ensures pos == 0 && toknext == 0 && toksuper == -1
    {
      pos, toknext, toksuper := 0, 0, -1;
    }

    ghost predicate Valid(tokens: array<Token>, num: nat)
      reads this, tokens
    {
      && 0 <= pos && 0 <= toknext <= num <= tokens.Length
      && -1 <= toksuper < toknext && Linked(tokens[..toknext])
    }

    /** The state without the unused part of the array. */
    ghost function State(tokens: array<Token>): St
      requires 0 <= pos && 0 <= toknext <= tokens.Length
      reads this, tokens
    {
      St(pos, toksuper, tokens[..toknext])
    }

    method AllocToken(tokens: array<Token>, num: nat) returns (tok: int)
      requires 0 <= toknext && num <= tokens.Length
      modifies `toknext, tokens
      ensures if old(toknext) >= num then tok == -1 && toknext == old(toknext) && tokens[..] == old(tokens[..])
              else tok == old(toknext) && toknext == tok + 1
                   && tokens[..] == old(tokens[..])[tok := old(tokens[..])[tok].(start := -1, end := -1, size := 0, parent := -1)]
    {
      if toknext >= num {
        return -1;
      }
      tok := toknext;
      toknext := toknext + 1;
      tokens[tok] := tokens[tok].(start := -1, end := -1, size := 0, parent := -1);
    }

    /** The new token of a string or a primitive. */
    method FillLeaf(tokens: array<Token>, num: nat, kind: Kind, start: int, end: int) returns (ok: bool)
      requires Valid(tokens, num)
      modifies `toknext, tokens
      ensures ok <==> old(toknext) < num
      ensures !ok ==> toknext == old(toknext) && tokens[..] == old(tokens[..])
      ensures ok ==> toknext == old(toknext) + 1 && tokens[..] == old(tokens[..])[old(toknext) := Token(kind, 0, start, end, toksuper)]
    {
      var token := AllocToken(tokens, num);
      ok := token != -1;
      if ok {
        tokens[token] := tokens[token].(kind := kind, start := start, end := end, size := 0);
        tokens[token] := tokens[token].(parent := toksuper);
      }
    }

    /** What parsing a string or primitive does to the parser. */
    ghost predicate LeafDone(tokens: array<Token>, num: nat, r: int, scan: Scan, kind: Kind, start: int, next: int,
                             oldPos: int, oldNext: int, before: seq<Token>)
      reads this, tokens
    {
      match scan
      case Partial => r == PART && pos == oldPos && toknext == oldNext && tokens[..] == before
      case Bad => r == INVAL && pos == oldPos && toknext == oldNext && tokens[..] == before
      case Found(at) =>
        if oldNext >= num then r == NOMEM && pos == oldPos && toknext == oldNext && tokens[..] == before
        else r == 0 && pos == next && toknext == oldNext + 1 && 0 <= oldNext < |before|
             && tokens[..] == before[oldNext := Token(kind, 0, start, at, toksuper)]
    }

    /** jsmn_parse_primitive */
    method ParsePrimitive(js: string, len: nat, tokens: array<Token>, num: nat) returns (r: int)
      requires Valid(tokens, num) && pos < |js|
      modifies `pos, `toknext, tokens
      ensures var scan := PrimitiveScan(js, len, old(pos));
              LeafDone(tokens, num, r, scan, Primitive, old(pos), if scan.Found? then scan.at - 1 else 0,
                       old(pos), old(toknext), old(tokens[..]))
    {
      var start := pos;
      ghost var scan := PrimitiveScan(js, len, pos);
      var found := false;
      while pos < len && At(js, pos) != '\0' && !found
        invariant start <= pos <= |js|
        invariant if found then scan == Found(pos) else PrimitiveScan(js, len, pos) == scan
        invariant found ==> pos < |js|
        invariant toknext == old(toknext) && tokens[..] == old(tokens[..]) && Valid(tokens, num)
        decreases |js| - pos, !found
      {
        if EndsPrimitive(js[pos]) {
          found := true;
        } else {
          if js[pos] < ' ' || js[pos] >= '\U{7F}' {
            pos := start;
            return INVAL;
          }
          pos := pos + 1;
        }
      }
      if !found {
        pos := start;
        return PART;
      }
      var ok := FillLeaf(tokens, num, Primitive, start, pos);
      if !ok {
        pos := start;
        return NOMEM;
      }
      pos := pos - 1;
      r := 0;
    }

    /** The digits behind \u; the cursor is left on the last one. */
    method SkipHex(js: string) returns (ok: bool)
      requires 0 <= pos <= |js|
      modifies `pos
      ensures ok <==> HexScan(js, old(pos), 0).Found?
      ensures ok ==> pos + 1 == HexScan(js, old(pos), 0).at
    {
      ghost var scan := HexScan(js, pos, 0);
      var i := 0;
      while i < 4 && At(js, pos) != '\0'
        invariant 0 <= i <= 4 && 0 <= pos <= |js| && HexScan(js, pos, i) == scan
      {
        if !IsHex(js[pos]) {
          return false;
        }
        pos := pos + 1;
        i := i + 1;
      }
      pos := pos - 1;
      ok := true;
    }

    /** jsmn_parse_string */
    method ParseString(js: string, len: nat, tokens: array<Token>, num: nat) returns (r: int)
      requires Valid(tokens, num) && pos < |js|
      modifies `pos, `toknext, tokens
      ensures var scan := StringScan(js, len, old(pos) + 1);
              LeafDone(tokens, num, r, scan, Str, old(pos) + 1, if scan.Found? then scan.at else 0,
                       old(pos), old(toknext), old(tokens[..]))
    {
      hide HexScan;
      var start := pos;
      ghost var scan := StringScan(js, len, pos + 1);
      pos := pos + 1;
      while pos < len && At(js, pos) != '\0'
        invariant start < pos <= |js| && StringScan(js, len, pos) == scan
        invariant toknext == old(toknext) && tokens[..] == old(tokens[..]) && Valid(tokens, num)
        decreases |js| - pos
      {
        var c := js[pos];
        if c == '\"' {
          var ok := FillLeaf(tokens, num, Str, start + 1, pos);
          if !ok {
            pos := start;
            return NOMEM;
          }
          return 0;
        }
        if c == '\\' {
          pos := pos + 1;
          if SimpleEscape(At(js, pos)) {
          } else if At(js, pos) == 'u' {
            pos := pos + 1;
            var ok := SkipHex(js);
            if !ok {
              pos := start;
              return INVAL;
            }
          } else {
            pos := start;
            return INVAL;
          }
        }
        pos := pos + 1;
      }
      pos := start;
      r := PART;
    }

    /** tokens[toksuper].size++, when there is a container. */
    method Bump(tokens: array<Token>, num: nat)
      requires Valid(tokens, num)
      modifies tokens
      ensures tokens[..toknext] == Bumped(old(tokens[..toknext]), toksuper)
      ensures tokens[toknext..] == old(tokens[toknext..])
    {
      if toksuper != -1 {
        tokens[toksuper] := tokens[toksuper].(size := (tokens[toksuper].size + 1) % 256);
      }
    }

    /** An opening bracket. */
    method OpenContainer(tokens: array<Token>, num: nat, kind: Kind) returns (code: int)
      requires Valid(tokens, num)
      modifies `toknext, `toksuper, tokens
      ensures match OpenTurn(old(State(tokens)), num, kind)
              case Stop(s, c) => code == c && Valid(tokens, num) && State(tokens) == s && tokens[..] == old(tokens[..])
              case Next(s, _) => code == 0 && toknext == old(toknext) + 1 && State(tokens) == s
                                 && tokens[toknext..] == old(tokens[..])[toknext..]
    {
      ghost var before := tokens[..];
      var token := AllocToken(tokens, num);
      if token == -1 {
        assert tokens[..toknext] == before[..toknext];
        return NOMEM;
      }
      if toksuper != -1 {
        tokens[toksuper] := tokens[toksuper].(size := (tokens[toksuper].size + 1) % 256);
        tokens[token] := tokens[token].(parent := toksuper);
      }
      tokens[token] := tokens[token].(kind := kind, start := pos);
      toksuper := toknext - 1;
      code := 0;
    }

    /** A closing bracket: up from the last token to the first open one. */
    method CloseContainer(tokens: array<Token>, num: nat, kind: Kind) returns (code: int)
      requires Valid(tokens, num)
      modifies `toksuper, tokens
      ensures match CloseTurn(old(State(tokens)), kind)
              case Stop(s, c) => code == c && Valid(tokens, num) && State(tokens) == s && tokens[..] == old(tokens[..])
              case Next(s, _) => code == 0 && State(tokens) == s && tokens[toknext..] == old(tokens[..])[toknext..]
    {
      if toknext < 1 {
        return INVAL;
      }
      ghost var toks := tokens[..toknext];
      var token := toknext - 1;
      while true
        invariant 0 <= token < toknext && tokens[..] == old(tokens[..]) && toksuper == old(toksuper)
        invariant Up(toks, token) == Up(toks, toknext - 1)
        decreases token
      {
        assert tokens[token] == toks[token];
        if tokens[token].start != -1 && tokens[token].end == -1 {
          if tokens[token].kind != kind {
            return INVAL;
          }
          tokens[token] := tokens[token].(end := pos + 1);
          toksuper := tokens[token].parent;
          break;
        }
        if tokens[token].parent == -1 {
          break;
        }
        token := tokens[token].parent;
      }
      code := 0;
    }

    /** A string or primitive with its count and the size of its container. */
    method LeafTurn(js: string, len: nat, tokens: array<Token>, num: nat, quoted: bool) returns (code: int)
      requires Valid(tokens, num) && pos < |js| && quoted == (js[pos] == '\"')
      requires !quoted ==> StartsPrimitive(js[pos])
      modifies `pos, `toknext, tokens
      ensures match OneTurn(js, len, num, old(State(tokens)))
              case Stop(s, c) => code == c && Valid(tokens, num) && State(tokens) == s && tokens[..] == old(tokens[..])
              case Next(s, k) => code == 0 && k == 1 && Valid(tokens, num) && State(tokens) == s
                                 && tokens[toknext..] == old(tokens[..])[toknext..]
    {
      hide StringScan, PrimitiveScan, Bumped, Linked;
      ghost var before, n, at := tokens[..], toknext, pos;
      if quoted {
        code := ParseString(js, len, tokens, num);
      } else {
        code := ParsePrimitive(js, len, tokens, num);
      }
      if code < 0 {
        assert tokens[..toknext] == before[..n];
        return;
      }
      ghost var t := tokens[n];
      assert tokens[..toknext] == before[..n] + [t];
      SnocLinked(before[..n], t, n);
      ghost var rest := tokens[toknext..];
      assert rest == before[toknext..];
      Bump(tokens, num);
      BumpedLinked(before[..n] + [t], toksuper);
    }

    method Turn(js: string, len: nat, tokens: array<Token>, num: nat) returns (code: int, counted: nat)
      requires Valid(tokens, num) && pos < |js|
      modifies `pos, `toknext, `toksuper, tokens
      ensures match OneTurn(js, len, num, old(State(tokens)))
              case Stop(s, c) => code == c && Valid(tokens, num) && State(tokens) == s && tokens[..] == old(tokens[..])
              case Next(s, k) => code == 0 && counted == k && Valid(tokens, num) && State(tokens) == s
                                 && old(toknext) <= toknext && tokens[toknext..] == old(tokens[..])[toknext..]
    {
      hide StringScan, PrimitiveScan, Bumped, Linked;
      counted := 0;
      ghost var s := State(tokens);
      TurnKeepsLinks(js, len, num, s);
      var c := js[pos];
      if c == '{' || c == '[' {
        counted := 1;
        code := OpenContainer(tokens, num, if c == '{' then Object else Array);
      } else if c == '}' || c == ']' {
        code := CloseContainer(tokens, num, if c == '}' then Object else Array);
      } else if c == '\"' {
        code := LeafTurn(js, len, tokens, num, true);
        counted := 1;
      } else if Passed(c) {
        code := 0;
      } else if StartsPrimitive(c) {
        code := LeafTurn(js, len, tokens, num, false);
        counted := 1;
      } else {
        code := INVAL;
      }
    }

    /** jsmn_parse: the array and the parser end as Run says; unused tokens are not touched. */
    method Parse(js: string, len: nat, tokens: array<Token>, num: nat) returns (ret: int)
      requires Valid(tokens, num) && Inv(js, State(tokens)) && |js| < 0x8000
      modifies this, tokens
      ensures Valid(tokens, num) && Inv(js, State(tokens))
      ensures var r := Run(js, len, num, old(State(tokens)));
              State(tokens) == r.s && ret == if r.code < 0 then r.code else r.count
      ensures old(toknext) <= toknext && tokens[toknext..] == old(tokens[..])[toknext..]
    {
      hide OneTurn, Linked, AnyOpen, Inv;
      var count := 0;
      ghost var start := State(tokens);
      ghost var end := Run(js, len, num, start);
      RunKeeps(js, len, num, start);
      while pos < len && At(js, pos) != '\0'
        invariant Valid(tokens, num) && old(toknext) <= toknext
        invariant var r := Run(js, len, num, State(tokens)); r.s == end.s && r.code == end.code && count + r.count == end.count
        invariant tokens[toknext..] == old(tokens[..])[toknext..]
        decreases |js| - pos
      {
        ghost var before := tokens[..];
        TurnKeepsLinks(js, len, num, State(tokens));
        RunStep(js, len, num, State(tokens));
        var code, counted := Turn(js, len, tokens, num);
        if code < 0 {
          return code;
        }
        count := count + counted;
        pos := pos + 1;
      }
      RunStops(js, len, num, State(tokens));
      var i := toknext - 1;
      while i >= 0
        invariant -1 <= i < toknext
        invariant forall j :: i < j < toknext ==> !IsOpen(tokens[j])
      {
        if tokens[i].start != -1 && tokens[i].end == -1 {
          SomeOpen(tokens[..toknext], i);
          return PART;
        }
        i := i - 1;
      }
      NoneOpen(tokens[..toknext]);
      ret := count;
    }
  }

  lemma SnocLinked(toks: seq<Token>, t: Token, n: nat)
    requires Linked(toks) && |toks| == n && -1 <= t.parent < n
    ensures Linked(toks + [t])
  {
  }

  lemma BumpedLinked(toks: seq<Token>, p: int)
    requires Linked(toks) && -1 <= p < |toks|
    ensures Linked(Bumped(toks, p))
  {
  }

  lemma RunStep(js: string, len: nat, num: nat, s: St)
    requires InSpan(s) && Linked(s.toks) && Going(js, len, s.pos)
    ensures match OneTurn(js, len, num, s)
            case Stop(t, code) => Run(js, len, num, s) == End(t, code, 0) && code < 0
            case Next(t, k) => InSpan(t) && Linked(t.toks)
                               && var r := Run(js, len, num, t.(pos := t.pos + 1));
                                  Run(js, len, num, s) == r.(count := r.count + k)
  {
    hide OneTurn, Linked;
    TurnKeepsLinks(js, len, num, s);
  }

  lemma RunStops(js: string, len: nat, num: nat, s: St)
    requires InSpan(s) && Linked(s.toks) && !Going(js, len, s.pos)
    ensures Run(js, len, num, s) == End(s, if AnyOpen(s.toks) then PART else 0, 0)
  {
  }

  lemma SomeOpen(toks: seq<Token>, i: nat)
    requires i < |toks| && IsOpen(toks[i])
    ensures AnyOpen(toks)
  {
  }

  lemma NoneOpen(toks: seq<Token>)
    requires forall i :: 0 <= i < |toks| ==> !IsOpen(toks[i])
    ensures !AnyOpen(toks)
  {
  }
}
