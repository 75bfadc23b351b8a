/**
 Parts of a run of the tokenizer that can be put one behind another.
 */
module JsmnLeads {
  import opened Base
  import opened Jsmn
  import opened JsmnForest

  // ------------------------------------------------------------- runs that meet

  /** A call that gets to s ends as one that gets to t. */
  predicate Leads(js: string, len: nat, num: nat, s: St, t: St) {
    && Inv(js, s) && Inv(js, t)
    && Run(js, len, num, s).s == Run(js, len, num, t).s && Run(js, len, num, s).code == Run(js, len, num, t).code
  }

  lemma LeadsOn(js: string, len: nat, num: nat, s: St, t: St, u: St)
    requires Leads(js, len, num, s, t) && Leads(js, len, num, t, u)
    ensures Leads(js, len, num, s, u)
  {
    hide Inv, Run;
  }

  lemma LeadsFacts(js: string, len: nat, num: nat, s: St, t: St)
    requires Leads(js, len, num, s, t)
    ensures Inv(js, t)
  {
  }

  lemma Reflexive(js: string, len: nat, num: nat, s: St)
    requires Inv(js, s)
    ensures Leads(js, len, num, s, s)
  {
  }

  lemma TurnLeads(js: string, len: nat, num: nat, s: St)
    requires Inv(js, s) && Going(js, len, s.pos)
    ensures var r := OneTurn(js, len, num, s);
            r.Next? ==> Leads(js, len, num, s, r.s.(pos := r.s.pos + 1))
  {
    hide Inv, OneTurn;
    BasicFacts(js, s);
    TurnKeepsLinks(js, len, num, s);
    TurnKeeps(js, len, num, s);
  }

  /** From p on the text is t. */
  predicate From(js: string, p: nat, t: string) {
    p <= |js| && js[p..] == t
  }

  lemma FromPart(js: string, p: nat, a: string, b: string)
    requires From(js, p, a + b)
    ensures From(js, p + |a|, b)
  {
    assert js[p..][|a|..] == b;
  }

  lemma FromHead(js: string, p: nat, c: char, b: string)
    requires From(js, p, [c] + b)
    ensures p < |js| && js[p] == c && From(js, p + 1, b)
  {
    assert js[p..][0] == js[p];
    FromPart(js, p, [c], b);
  }

  // ------------------------------------------------------------- leaves

  lemma BumpedSnoc(toks: seq<Token>, t: Token, par: int)
    requires -1 <= par < |toks|
    ensures Bumped(toks + [t], par) == Bumped(toks, par) + [t]
  {
  }

  lemma WordTurn(js: string, len: nat, num: nat, s: St, n: nat)
    requires InSpan(s) && Linked(s.toks) && s.pos < |js| && StartsPrimitive(js[s.pos]) && |s.toks| < num
    requires PrimitiveScan(js, len, s.pos) == Found(s.pos + n) && n > 0
    ensures OneTurn(js, len, num, s)
            == Next(St(s.pos + n - 1, s.toksuper,
                       Bumped(s.toks + [Token(Primitive, 0, s.pos, s.pos + n, s.toksuper)], s.toksuper)), 1)
  {
    hide PrimitiveScan, StringScan, Bumped, Linked;
  }

  // ------------------------------------------------------------- containers

  /** Token par with k more children. */
  function More(toks: seq<Token>, par: int, k: nat): (r: seq<Token>)
    requires 0 <= par < |toks|
    ensures |r| == |toks|
  {
    toks[par := toks[par].(size := (toks[par].size + k) % 256)]
  }

  lemma MoreOne(toks: seq<Token>, par: int)
    requires 0 <= par < |toks|
    ensures Bumped(toks, par) == More(toks, par, 1)
  {
  }

  lemma MoreMore(toks: seq<Token>, par: int, j: nat, k: nat, x: seq<Token>)
    requires 0 <= par < |toks|
    ensures More(More(toks, par, j) + x, par, k) == More(toks, par, j + k) + x
  {
  }

  lemma MoreNone(js: string, s: St)
    requires Inv(js, s) && s.toksuper >= 0
    ensures 0 <= s.toksuper < |s.toks| && More(s.toks, s.toksuper, 0) == s.toks
  {
    hide Inv;
    SizesFact(js, s);
    assert s.toks[s.toksuper].size == Children(s.toks, s.toksuper) % 256;
  }

  lemma SizesFact(js: string, s: St)
    requires Inv(js, s)
    ensures InSpan(s) && Sizes(s.toks)
  {
    hide Sizes, Spans, Kinds, OpenChain, Innermost, Nested, Apart, AllSpelled, Up;
  }

  lemma MoreLast(toks: seq<Token>, t: Token, k: nat, end: int)
    requires t.size == 0
    ensures var n := |toks|;
            More(toks + [t], n, k) == toks + [t.(size := k % 256)]
  {
  }

  lemma PassLeads(js: string, len: nat, num: nat, s: St)
    requires Inv(js, s) && s.pos < |js| <= len && Passed(js[s.pos])
    ensures Leads(js, len, num, s, s.(pos := s.pos + 1))
  {
    hide Inv, Leads;
    BasicFacts(js, s);
    TurnLeads(js, len, num, s);
  }

  lemma OpenLeads(js: string, len: nat, num: nat, s: St, kind: Kind)
    requires Inv(js, s) && s.pos < |js| <= len && Container(kind) && js[s.pos] == (if kind == Object then '{' else '[')
    requires |s.toks| < num
    ensures -1 <= s.toksuper < |s.toks|
    ensures Leads(js, len, num, s, St(s.pos + 1, |s.toks|, Bumped(s.toks, s.toksuper) + [Token(kind, 0, s.pos, -1, s.toksuper)]))
  {
    hide Inv, Leads, Linked, Bumped;
    BasicFacts(js, s);
    TurnLeads(js, len, num, s);
  }

  lemma CloseLeads(js: string, len: nat, num: nat, s: St)
    requires Inv(js, s) && s.pos < |js| <= len && 0 <= s.toksuper < |s.toks| && Container(s.toks[s.toksuper].kind)
    requires js[s.pos] == (if s.toks[s.toksuper].kind == Object then '}' else ']')
    ensures Leads(js, len, num, s, St(s.pos + 1, s.toks[s.toksuper].parent, Closed(s.toks, s.toksuper, s.pos + 1)))
  {
    hide Inv, Leads, Linked, Up;
    BasicFacts(js, s);
    UpIsSuper(js, s);
    TurnLeads(js, len, num, s);
  }

  /** The bracket that closes a container whose children were read. */
  lemma ContainerLeads(js: string, len: nat, num: nat, s: St, s2: St, kind: Kind, k: nat, kids: seq<Token>)
    requires Inv(js, s) && -1 <= s.toksuper < |s.toks| && Container(kind)
    requires var open := Bumped(s.toks, s.toksuper) + [Token(kind, 0, s.pos, -1, s.toksuper)];
             s2.toksuper == |s.toks| && s2.toks == More(open, |s.toks|, k) + kids && Leads(js, len, num, s, s2)
    requires s2.pos < |js| <= len && js[s2.pos] == (if kind == Object then '}' else ']')
    ensures Leads(js, len, num, s, St(s2.pos + 1, s.toksuper,
                  Bumped(s.toks, s.toksuper) + ([Token(kind, k % 256, s.pos, s2.pos + 1, s.toksuper)] + kids)))
  {
    hide Inv, Leads, Bumped, More, Closed;
    var base, n := Bumped(s.toks, s.toksuper), |s.toks|;
    var t := Token(kind, 0, s.pos, -1, s.toksuper);
    MoreLast(base, t, k, s2.pos + 1);
    LeadsFacts(js, len, num, s, s2);
    var done := (base + [t.(size := k % 256)]) + kids;
    assert done[n] == t.(size := k % 256);
    CloseLeads(js, len, num, s2);
    ClosedIs(base, t.(size := k % 256), kids, s2.pos + 1);
    LeadsOn(js, len, num, s, s2, St(s2.pos + 1, s.toksuper, Closed(done, n, s2.pos + 1)));
  }

  lemma ClosedIs(base: seq<Token>, t: Token, kids: seq<Token>, end: int)
    ensures Closed((base + [t]) + kids, |base|, end) == base + ([t.(end := end)] + kids)
  {
  }

  lemma Joined(a: seq<Token>, b: seq<Token>, c: seq<Token>)
    ensures (a + b) + c == a + (b + c)
  {
  }

  /** The first element of a list and then the others. */
  lemma RestLeads(js: string, len: nat, num: nat, s: St, s2: St, j: nat, k: nat, first: seq<Token>, others: seq<Token>, end: nat)
    requires 0 <= s.toksuper < |s.toks| && s2.toksuper == s.toksuper && s2.toks == More(s.toks, s.toksuper, j) + first
    requires Leads(js, len, num, s, s2)
    requires Leads(js, len, num, s2, St(end, s.toksuper, More(s2.toks, s.toksuper, k) + others))
    ensures Leads(js, len, num, s, St(end, s.toksuper, More(s.toks, s.toksuper, j + k) + (first + others)))
  {
    hide Inv, Leads, More;
    MoreMore(s.toks, s.toksuper, j, k, first);
    Joined(More(s.toks, s.toksuper, j + k), first, others);
    LeadsOn(js, len, num, s, s2, St(end, s.toksuper, (More(s.toks, s.toksuper, j + k) + first) + others));
  }

  lemma EndsWell(js: string, len: nat, num: nat, s: St)
    requires Inv(js, s) && s.pos == |js| && s.toksuper == -1
    ensures Run(js, len, num, s) == End(s, 0, 0)
  {
  }
}
