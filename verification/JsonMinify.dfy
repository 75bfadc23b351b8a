/**
 cJSON_Minify: its effect as a function on texts, the in-place loop, and what it does to
 printed trees.
 */
module JsonMinify {
  import opened Base
  import opened JsonText

  predicate IsBlank(c: char) {
    c == ' ' || c == '\t' || c == '\r' || c == '\n'
  }

  /** Skips to the end of the line; the line break itself is left for the next turn. */
  function AfterLine(t: string): (r: string)
    ensures |r| <= |t|
    ensures t != [] && t[0] != '\n' ==> |r| < |t|
  {
    if t != [] && t[0] != '\n' then AfterLine(t[1..]) else t
  }

  /** Skips past the first star and slash; None when the terminator comes first, which the
      C loop then steps over. */
  function AfterComment(t: string): (r: Option<string>)
    ensures r.Some? ==> |r.value| < |t|
  {
    if t == [] then None
    else if t[0] == '*' && StartsWith(t[1..], '/') then Some(t[2..])
    else AfterComment(t[1..])
  }

  /** The number of characters of a literal after its opening quote, closing quote included;
      None when the terminator comes first, which the C loop then copies and steps over. */
  function LiteralLength(t: string): (n: Option<nat>)
    ensures n.Some? ==> 1 <= n.value <= |t|
  {
    if t == [] then None
    else if t[0] == '\"' then Some(1)
    else
      var k := if t[0] == '\\' then 2 else 1;
      if k > |t| then None
      else
        match LiteralLength(t[k..])
        case None => None
        case Some(n) => Some(n + k)
  }

  function Then(s: string, m: Option<string>): Option<string> {
    match m
    case None => None
    case Some(rest) => Some(s + rest)
  }

  /** What cJSON_Minify leaves of a text; None when it runs past the terminator. */
  function Minified(t: string): (m: Option<string>)
    ensures m.Some? ==> |m.value| <= |t|
    decreases |t|
  {
    if t == [] then Some([])
    else if IsBlank(t[0]) then Minified(t[1..])
    else if "//" <= t then Minified(AfterLine(t))
    else if "/*" <= t then
      match AfterComment(t)
      case None => None
      case Some(r) => Minified(r)
    else if t[0] == '\"' then
      match LiteralLength(t[1..])
      case None => None
      case Some(n) => Then(t[..n + 1], Minified(t[n + 1..]))
    else Then(t[..1], Minified(t[1..]))
  }

  lemma ThenThen(s: string, t: string, m: Option<string>)
    ensures Then(s, Then(t, m)) == Then(s + t, m)
  {
    if m.Some? { assert s + (t + m.value) == s + t + m.value; }
  }

  // ----------------------------------------------------------- texts that are left open

  /** What a text read from the left ends in. */
  datatype Mode = Outside | AfterSlash | InLine | InBlock | AfterStar | InLiteral | InEscape

  function NextMode(m: Mode, c: char): Mode {
    match m
    case InLine => if c == '\n' then Outside else InLine
    case InBlock => if c == '*' then AfterStar else InBlock
    case AfterStar => if c == '/' then Outside else if c == '*' then AfterStar else InBlock
    case InLiteral => if c == '\"' then Outside else if c == '\\' then InEscape else InLiteral
    case InEscape => InLiteral
    case AfterSlash => if c == '/' then InLine else if c == '*' then AfterStar else if c == '\"' then InLiteral else Outside
    case Outside => if c == '/' then AfterSlash else if c == '\"' then InLiteral else Outside
  }

  function Scanned(m: Mode, t: string): Mode
    decreases |t|
  {
    if t == [] then m else Scanned(NextMode(m, t[0]), t[1..])
  }

  /** A text that ends inside a block comment or a string literal. */
  predicate LeftOpen(t: string) {
    Scanned(Outside, t) in {InBlock, AfterStar, InLiteral, InEscape}
  }

  lemma {:induction false} LineScanned(t: string)
    ensures var r := AfterLine(t);
            if r == [] then Scanned(InLine, t) == InLine else Scanned(InLine, t) == Scanned(Outside, r)
  {
    if t != [] && t[0] != '\n' { LineScanned(t[1..]); }
  }

  lemma {:induction false} CommentScanned(t: string)
    ensures match AfterComment(t)
            case None => Scanned(InBlock, t) in {InBlock, AfterStar}
            case Some(r) => Scanned(InBlock, t) == Scanned(Outside, r)
  {
    if t != [] {
      if t[0] == '*' && StartsWith(t[1..], '/') {
        assert t[1..][1..] == t[2..];
      } else {
        CommentScanned(t[1..]);
      }
    }
  }

  lemma {:induction false} LiteralScanned(t: string)
    ensures match LiteralLength(t)
            case None => Scanned(InLiteral, t) in {InLiteral, InEscape}
            case Some(n) => Scanned(InLiteral, t) == Scanned(Outside, t[n..])
  {
    if t != [] && t[0] != '\"' {
      var k := if t[0] == '\\' then 2 else 1;
      if k <= |t| {
        LiteralScanned(t[k..]);
        assert k == 2 ==> t[1..][1..] == t[2..];
        if LiteralLength(t[k..]).Some? {
          var n := LiteralLength(t[k..]).value;
          assert t[k..][n..] == t[n + k..];
        }
      } else {
        assert t[1..] == [];
      }
    }
  }

  /** Exactly the texts left open take the C routine past the terminator. */
  lemma {:induction false} MinifiedUnlessOpen(t: string)
    ensures Minified(t).Some? <==> !LeftOpen(t)
    decreases |t|
  {
    hide AfterLine, AfterComment, LiteralLength, Scanned;
    if t == [] {
      ScannedNext(Outside, t);
    } else if "//" <= t {
      TwoScanned(Outside, t);
      LineScanned(t[2..]);
      LineFrom(t);
      MinifiedUnlessOpen(AfterLine(t));
      ScannedNext(Outside, []);
    } else if "/*" <= t {
      TwoScanned(Outside, t);
      CommentFrom(t);
      if AfterComment(t).Some? { MinifiedUnlessOpen(AfterComment(t).value); }
    } else if t[0] == '\"' {
      ScannedNext(Outside, t);
      LiteralScanned(t[1..]);
      if LiteralLength(t[1..]).Some? {
        var n := LiteralLength(t[1..]).value;
        assert t[1..][n..] == t[n + 1..];
        MinifiedUnlessOpen(t[n + 1..]);
      }
    } else {
      ScannedNext(Outside, t);
      ScannedNext(Outside, t[1..]);
      ScannedNext(AfterSlash, t[1..]);
      MinifiedUnlessOpen(t[1..]);
    }
  }

  lemma ScannedNext(m: Mode, t: string)
    ensures Scanned(m, t) == if t == [] then m else Scanned(NextMode(m, t[0]), t[1..])
  {
  }

  lemma TwoScanned(m: Mode, t: string)
    requires |t| >= 2
    ensures Scanned(m, t) == Scanned(NextMode(NextMode(m, t[0]), t[1]), t[2..])
  {
    assert t[1..][1..] == t[2..];
  }

  lemma LineFrom(t: string)
    requires "//" <= t
    ensures AfterLine(t) == AfterLine(t[2..]) && |AfterLine(t)| < |t|
  {
    assert t[1..][1..] == t[2..];
  }

  lemma CommentFrom(t: string)
    requires "/*" <= t
    ensures match AfterComment(t)
            case None => Scanned(AfterStar, t[2..]) in {InBlock, AfterStar}
            case Some(r) => Scanned(AfterStar, t[2..]) == Scanned(Outside, r)
  {
    hide Scanned;
    CommentScanned(t[1..]);
    ScannedNext(InBlock, t[1..]);
    assert t[1..][1..] == t[2..];
  }

  // ----------------------------------------------------------- what is left out

  /** Outside literals, spaces, tabs and line breaks are left out, and so is every comment; all
      else stays, literals to the last character. A slash waits for what follows it. */
  function Kept(m: Mode, t: string): string
    decreases |t|, if m == AfterSlash then 1 else 0
  {
    if t == [] then (if m == AfterSlash then "/" else "")
    else
      var c, rest := t[0], t[1..];
      match m
      case Outside =>
        if c == '/' then Kept(AfterSlash, rest)
        else if c == ' ' || c == '\t' || c == '\r' || c == '\n' then Kept(Outside, rest)
        else if c == '\"' then [c] + Kept(InLiteral, rest)
        else [c] + Kept(Outside, rest)
      case AfterSlash =>
        if c == '/' then Kept(InLine, rest)
        else if c == '*' then Kept(AfterStar, rest)
        else "/" + Kept(Outside, t)
      case InLiteral => [c] + Kept(if c == '\"' then Outside else if c == '\\' then InEscape else InLiteral, rest)
      case InEscape => [c] + Kept(InLiteral, rest)
      case InLine => Kept(if c == '\n' then Outside else InLine, rest)
      case InBlock => Kept(if c == '*' then AfterStar else InBlock, rest)
      case AfterStar => Kept(if c == '/' then Outside else if c == '*' then AfterStar else InBlock, rest)
  }

  lemma {:induction false} LineKept(t: string)
    ensures Kept(InLine, t) == Kept(Outside, AfterLine(t))
  {
    if t != [] && t[0] != '\n' { LineKept(t[1..]); }
  }

  lemma {:induction false} CommentKept(t: string)
    requires AfterComment(t).Some?
    ensures Kept(InBlock, t) == Kept(Outside, AfterComment(t).value)
  {
    if t[0] == '*' && StartsWith(t[1..], '/') {
      assert t[1..][1..] == t[2..];
    } else {
      CommentKept(t[1..]);
    }
  }

  lemma {:induction false} LiteralKept(t: string)
    requires LiteralLength(t).Some?
    ensures var n := LiteralLength(t).value;
            Kept(InLiteral, t) == t[..n] + Kept(Outside, t[n..])
  {
    if t[0] == '\"' {
      assert t[..1] == [t[0]];
    } else {
      var k := if t[0] == '\\' then 2 else 1;
      var n := LiteralLength(t[k..]).value;
      LiteralKept(t[k..]);
      assert t[k..][n..] == t[n + k..];
      hide LiteralLength;
      var after := Kept(Outside, t[n + k..]);
      TakenOff(t, k, n, after);
      if k == 2 {
        assert t[1..][1..] == t[2..];
        Regroup([t[0]], [t[1]], t[2..][..n] + after);
      }
    }
  }

  lemma TakenOff(t: string, k: nat, n: nat, after: string)
    requires k <= 2 && k + n <= |t|
    ensures t[..n + k] + after == t[..k] + (t[k..][..n] + after)
    ensures (k == 1 ==> t[..k] == [t[0]]) && (k == 2 ==> t[..k] == [t[0]] + [t[1]])
  {
    var head := t[..n + k];
    assert head[..k] == t[..k] && head[k..] == t[k..][..n];
    assert head == head[..k] + head[k..];
    Regroup(t[..k], t[k..][..n], after);
  }

  lemma LineRule(t: string)
    requires "//" <= t
    ensures Minified(t) == Minified(AfterLine(t)) && Kept(Outside, t) == Kept(Outside, AfterLine(t))
  {
    hide AfterLine;
    LineKept(t[2..]);
    LineFrom(t);
    KeptBehindSlash(t);
  }

  lemma CommentRule(t: string)
    requires "/*" <= t
    ensures match AfterComment(t)
            case None => Minified(t) == None
            case Some(r) => Minified(t) == Minified(r) && Kept(Outside, t) == Kept(Outside, r)
  {
    hide AfterComment;
    assert t[1] == '*';
    if AfterComment(t).Some? {
      CommentTail(t);
      CommentKept(t[1..]);
      KeptBehindSlash(t);
    }
  }

  lemma LiteralRule(t: string)
    requires t != [] && t[0] == '\"'
    ensures match LiteralLength(t[1..])
            case None => Minified(t) == None
            case Some(n) => Minified(t) == Then(t[..n + 1], Minified(t[n + 1..]))
                            && Kept(Outside, t) == t[..n + 1] + Kept(Outside, t[n + 1..])
  {
    hide LiteralLength;
    if LiteralLength(t[1..]).Some? {
      LiteralKept(t[1..]);
      var n := LiteralLength(t[1..]).value;
      assert t[1..][n..] == t[n + 1..];
      var after := Kept(Outside, t[n + 1..]);
      assert [t[0]] + (t[1..][..n] + after) == t[..n + 1] + after;
    }
  }

  lemma OtherRule(t: string)
    requires t != [] && !("//" <= t) && !("/*" <= t) && t[0] != '\"'
    ensures if IsBlank(t[0]) then Minified(t) == Minified(t[1..]) && Kept(Outside, t) == Kept(Outside, t[1..])
            else Minified(t) == Then([t[0]], Minified(t[1..])) && Kept(Outside, t) == [t[0]] + Kept(Outside, t[1..])
  {
    if t[0] == '/' { KeptAfterSlash(t); }
    assert t[..1] == [t[0]];
  }

  /** The minified form is the text without its comments and without white space outside literals. */
  lemma {:induction false} MinifiedIsKept(t: string)
    requires Minified(t).Some?
    ensures Minified(t) == Some(Kept(Outside, t))
    decreases |t|
  {
    if t != [] {
      hide Minified, Kept, AfterLine, AfterComment, LiteralLength;
      if "//" <= t {
        LineRule(t);
        LineFrom(t);
        MinifiedIsKept(AfterLine(t));
      } else if "/*" <= t {
        CommentRule(t);
        MinifiedIsKept(AfterComment(t).value);
      } else if t[0] == '\"' {
        LiteralRule(t);
        MinifiedIsKept(t[LiteralLength(t[1..]).value + 1..]);
      } else {
        OtherRule(t);
        MinifiedIsKept(t[1..]);
      }
    }
  }

  lemma KeptBehindSlash(t: string)
    requires |t| >= 2 && t[0] == '/' && (t[1] == '/' || t[1] == '*')
    ensures Kept(Outside, t) == Kept(if t[1] == '/' then InLine else AfterStar, t[2..])
  {
    assert t[1..][1..] == t[2..];
  }

  lemma KeptAfterSlash(t: string)
    requires t != [] && t[0] == '/' && !("//" <= t) && !("/*" <= t)
    ensures Kept(Outside, t) == "/" + Kept(Outside, t[1..])
  {
    if |t| > 1 { assert t[1..][0] == t[1]; }
  }

  lemma CommentTail(t: string)
    requires "/*" <= t
    ensures AfterComment(t) == AfterComment(t[1..]) && Kept(InBlock, t[1..]) == Kept(AfterStar, t[2..])
  {
    assert t[1..][1..] == t[2..];
  }

  // ----------------------------------------------------------- the C routine

  /** From index from on the buffer holds a C string whose terminator is at end. */
  ghost predicate Terminated(buf: seq<char>, from: nat, end: nat) {
    from <= end < |buf| && buf[end] == '\0' && forall i :: from <= i < end ==> buf[i] != '\0'
  }

  method SkipLine(json: array<char>, from: nat, ghost end: nat) returns (k: nat)
    requires Terminated(json[..], from, end)
    ensures from <= k <= end && json[k..end] == AfterLine(json[from..end])
  {
    k := from;
    while json[k] != '\0' && json[k] != '\n'
      invariant from <= k <= end
      invariant AfterLine(json[k..end]) == AfterLine(json[from..end])
      decreases end - k
    {
      assert json[k..end][1..] == json[k + 1..end];
      k := k + 1;
    }
  }

  method SkipComment(json: array<char>, from: nat, ghost end: nat) returns (k: nat)
    requires Terminated(json[..], from, end)
    requires AfterComment(json[from..end]).Some?
    ensures from < k <= end && AfterComment(json[from..end]) == Some(json[k..end])
  {
    k := from;
    while json[k] != '\0' && !(json[k] == '*' && json[k + 1] == '/')
      invariant from <= k <= end
      invariant AfterComment(json[k..end]) == AfterComment(json[from..end])
      decreases end - k
    {
      assert json[k..end][1..] == json[k + 1..end];
      k := k + 1;
    }
    assert json[k..end][1..] == json[k + 1..end];
    assert json[k..end][2..] == json[k + 2..end];
    k := k + 2;
  }

  /** Positions before to and from k on are untouched; the literal text[from..k] now stands at to. */
  ghost predicate Moved(text: seq<char>, json: array<char>, to: nat, from: nat, k: nat)
    reads json
  {
    && to <= from <= k <= |text| == json.Length
    && (forall i :: 0 <= i < to ==> json[i] == text[i])
    && (forall i :: to <= i < to + k - from ==> json[i] == text[i - to + from])
    && (forall i :: k <= i < json.Length ==> json[i] == text[i])
  }

  method CopyOne(json: array<char>, ghost text: seq<char>, ghost to: nat, ghost from: nat, k: nat, into: nat)
    requires to <= from <= k < |text| == json.Length && into - to == k - from
    requires Moved(text, json, to, from, k)
    modifies json
    ensures Moved(text, json, to, from, k + 1)
  {
    json[into] := json[k];
  }

  /** Copies a string literal; the escape character takes the next one along. */
  method CopyLiteral(json: array<char>, to: nat, from: nat, ghost end: nat) returns (into: nat, k: nat)
    requires Terminated(json[..], from, end) && to <= from < end
    requires LiteralLength(json[from + 1..end]).Some?
    modifies json
    ensures from < k <= end && into - to == k - from
    ensures LiteralLength(old(json[from + 1..end])) == Some(k - from - 1)
    ensures Moved(old(json[..]), json, to, from, k)
  {
    hide LiteralLength;
    ghost var text := json[..];
    ghost var left := LiteralLength(text[from + 1..end]).value;
    into, k := to, from;
    CopyOne(json, text, to, from, k, into);
    into, k := into + 1, k + 1;
    while json[k] != '\0' && json[k] != '\"'
      invariant from < k <= end && into - to == k - from
      invariant Moved(text, json, to, from, k)
      invariant LiteralLength(text[k..end]) == Some(left)
      invariant LiteralLength(text[from + 1..end]) == Some(left + (k - from - 1))
      decreases end - k
    {
      LiteralStep(text, k, end);
      left := left - if json[k] == '\\' then 2 else 1;
      if json[k] == '\\' {
        CopyOne(json, text, to, from, k, into);
        into, k := into + 1, k + 1;
      }
      CopyOne(json, text, to, from, k, into);
      into, k := into + 1, k + 1;
    }
    LiteralEnd(text, k, end);
    CopyOne(json, text, to, from, k, into);
    into, k := into + 1, k + 1;
  }

  lemma LiteralEnd(text: seq<char>, from: nat, end: nat)
    requires from <= end <= |text| && LiteralLength(text[from..end]).Some?
    requires from < end ==> text[from] == '\"'
    ensures from < end && LiteralLength(text[from..end]) == Some(1)
  {
  }

  lemma LiteralStep(text: seq<char>, from: nat, end: nat)
    requires from < end <= |text| && text[from] != '\"' && LiteralLength(text[from..end]).Some?
    ensures var k := from + if text[from] == '\\' then 2 else 1;
            k <= end && LiteralLength(text[k..end]).Some?
            && LiteralLength(text[from..end]).value == LiteralLength(text[k..end]).value + (k - from)
  {
    var k := from + if text[from] == '\\' then 2 else 1;
    if k <= end { assert text[from..end][k - from..] == text[k..end]; }
  }

  /** The text up to from has been turned into kept, the rest is still to come. */
  ghost predicate Progress(text: seq<char>, end: nat, from: nat, kept: string) {
    && from <= end <= |text|
    && Minified(text[from..end]).Some?
    && Minified(text[..end]) == Then(kept, Minified(text[from..end]))
    && '\0' !in kept
  }

  lemma KeepTurn(text: seq<char>, end: nat, from: nat, k: nat, kept: string)
    requires Progress(text, end, from, kept) && from <= k <= end && Terminated(text, 0, end)
    requires Minified(text[from..end]) == Then(text[from..k], Minified(text[k..end]))
    ensures Progress(text, end, k, kept + text[from..k])
  {
    ThenThen(kept, text[from..k], Minified(text[k..end]));
  }

  lemma Slices(text: seq<char>, from: nat, k: nat, end: nat)
    requires from <= k <= end <= |text|
    ensures text[from..end][k - from..] == text[k..end]
    ensures text[from..end][..k - from] == text[from..k]
  {
  }

  /** The kept characters stand at the front; from index from on nothing has changed. */
  ghost predicate Written(text: seq<char>, json: array<char>, from: nat, kept: string)
    reads json
  {
    && |kept| <= from <= |text| == json.Length
    && (forall i :: 0 <= i < |kept| ==> json[i] == kept[i])
    && (forall i :: from <= i < json.Length ==> json[i] == text[i])
  }

  method MoveLiteral(json: array<char>, to: nat, from: nat, ghost end: nat, ghost text: seq<char>, ghost kept: string)
    returns (into: nat, k: nat)
    requires Written(text, json, from, kept) && to == |kept| && Terminated(text, 0, end) && from < end
    requires LiteralLength(text[from + 1..end]).Some?
    modifies json
    ensures k == from + 1 + LiteralLength(text[from + 1..end]).value <= end && into == to + (k - from)
    ensures Written(text, json, k, kept + text[from..k])
  {
    hide LiteralLength;
    assert json[from + 1..end] == text[from + 1..end];
    into, k := CopyLiteral(json, to, from, end);
  }

  method Minify(json: array<char>, ghost end: nat) returns (ghost n: nat)
    requires Terminated(json[..], 0, end)
    requires !LeftOpen(json[..end])
    modifies json
    ensures n <= end && Terminated(json[..], 0, n) && Minified(old(json[..end])) == Some(json[..n])
    ensures json[end..] == old(json[end..])
  {
    hide Minified, Then, Progress, AfterLine, AfterComment, LiteralLength, LeftOpen;
    MinifiedUnlessOpen(json[..end]);
    ghost var text := json[..];
    ghost var kept := "";
    var into, from := 0, 0;
    StartProgress(text, end);
    while json[from] != '\0'
      invariant into <= from <= end && |kept| == into && Written(text, json, from, kept)
      invariant Progress(text, end, from, kept)
      decreases end - from
    {
      ghost var start := from;
      if json[from] == ' ' || json[from] == '\t' || json[from] == '\r' || json[from] == '\n' {
        from := from + 1;
        BlankTurn(text, end, start, kept);
      } else if json[from] == '/' && json[from + 1] == '/' {
        LineTurn(text, end, start, kept);
        from := SkipLine(json, from, end);
        assert json[start..end] == text[start..end] && json[from..end] == text[from..end];
      } else if json[from] == '/' && json[from + 1] == '*' {
        CommentTurn(text, end, start, kept);
        assert json[start..end] == text[start..end];
        from := SkipComment(json, from, end);
        assert json[from..end] == text[from..end];
      } else if json[from] == '\"' {
        LiteralTurn(text, end, start, kept);
        into, from := MoveLiteral(json, into, from, end, text, kept);
        kept := kept + text[start..from];
      } else {
        PlainTurn(text, end, start, kept);
        kept := kept + [text[start]];
        json[into] := json[from];
        into, from := into + 1, from + 1;
      }
    }
    json[into] := '\0';
    n := into;
    EndProgress(text, end, kept);
    assert json[..n] == kept;
  }

  lemma StartProgress(text: seq<char>, end: nat)
    requires end <= |text| && Minified(text[..end]).Some?
    ensures Progress(text, end, 0, "")
  {
    assert text[0..end] == text[..end];
    assert "" + Minified(text[..end]).value == Minified(text[..end]).value;
  }

  lemma EndProgress(text: seq<char>, end: nat, kept: string)
    requires Progress(text, end, end, kept)
    ensures Minified(text[..end]) == Some(kept)
    ensures forall i :: 0 <= i < |kept| ==> kept[i] != '\0'
  {
    assert kept + [] == kept;
  }

  lemma BlankTurn(text: seq<char>, end: nat, from: nat, kept: string)
    requires Progress(text, end, from, kept) && from < end && IsBlank(text[from])
    ensures Progress(text, end, from + 1, kept)
  {
    Slices(text, from, from + 1, end);
  }

  lemma PlainTurn(text: seq<char>, end: nat, from: nat, kept: string)
    requires Progress(text, end, from, kept) && from < end && Terminated(text, 0, end)
    requires !IsBlank(text[from]) && text[from] != '\"' && !(text[from] == '/' && (text[from + 1] == '/' || text[from + 1] == '*'))
    ensures Progress(text, end, from + 1, kept + [text[from]])
  {
    Slices(text, from, from + 1, end);
    assert text[from..end][0] == text[from] && (from + 1 < end ==> text[from..end][1] == text[from + 1]);
    assert text[from..from + 1] == [text[from]];
    KeepTurn(text, end, from, from + 1, kept);
  }

  lemma LineTurn(text: seq<char>, end: nat, from: nat, kept: string)
    requires Progress(text, end, from, kept) && from < end && Terminated(text, 0, end)
    requires text[from] == '/' && text[from + 1] == '/'
    ensures forall k :: from <= k <= end && text[k..end] == AfterLine(text[from..end]) ==>
              k > from && Progress(text, end, k, kept)
  {
    assert "//" <= text[from..end];
  }

  lemma CommentTurn(text: seq<char>, end: nat, from: nat, kept: string)
    requires Progress(text, end, from, kept) && from < end && Terminated(text, 0, end)
    requires text[from] == '/' && text[from + 1] == '*'
    ensures AfterComment(text[from..end]).Some?
    ensures forall k :: from <= k <= end && Some(text[k..end]) == AfterComment(text[from..end]) ==>
              k > from && Progress(text, end, k, kept)
  {
    assert "/*" <= text[from..end];
  }

  lemma LiteralTurn(text: seq<char>, end: nat, from: nat, kept: string)
    requires Progress(text, end, from, kept) && from < end && Terminated(text, 0, end) && text[from] == '\"'
    ensures LiteralLength(text[from + 1..end]).Some?
    ensures var k := from + 1 + LiteralLength(text[from + 1..end]).value;
            k <= end && Progress(text, end, k, kept + text[from..k])
  {
    hide Minified, LiteralLength, Then;
    var t := text[from..end];
    MinifiedLiteral(t);
    assert t[1..] == text[from + 1..end];
    var n := LiteralLength(t[1..]).value + 1;
    hide Progress;
    assert t[..n] == text[from..from + n] && t[n..] == text[from + n..end];
    KeepTurn(text, end, from, from + n, kept);
  }

  lemma MinifiedLiteral(t: string)
    requires StartsWith(t, '\"') && Minified(t).Some?
    ensures LiteralLength(t[1..]).Some?
    ensures var n := LiteralLength(t[1..]).value + 1; Minified(t) == Then(t[..n], Minified(t[n..]))
  {
  }
}
