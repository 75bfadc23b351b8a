/**
 json_generator.c: a writer into a fixed buffer. Each operation is defined once on unbounded
 texts; the buffer follows it until it is full, and from then on no operation succeeds.
 */
module JsonGenerator {
  import opened Base
  import opened JsonText

  datatype Data = STR | INT | UINT | UINT64 | FLOAT | BOOL

  datatype Op =
    | StartObject
    | CloseObject
    | StartArray
    | CloseArray
    | PopArray
    | PushObject(name: string)
    | PushArray(name: string)
    | SetInArray(str: string, value: int, data: Data)
    | SetInObject(name: string, str: string, value: int, data: Data)

  const OBUF := 1011
  const INVSTART := 1010

  // ------------------------------------------------------------- operations on texts

  /** The last character that is not white space. */
  function LastInk(t: string): char
    requires t != [] && t[0] > ' '
  {
    if t[|t| - 1] > ' ' then t[|t| - 1] else LastInk(t[..|t| - 1])
  }

  function Comma(b: bool): string {
    if b then "," else ""
  }

  function Quoted(s: string): string {
    "\"" + s + "\""
  }

  /** The conversions of the arguments to int, unsigned and unsigned long long. */
  function ToInt32(v: int): int {
    var m := v % 0x1_0000_0000;
    if m < 0x8000_0000 then m else m - 0x1_0000_0000
  }

  function ToUint(v: int, bits: int): nat
    requires bits > 0
  {
    v % bits
  }

  function BoolText(v: int): string {
    if v == 1 then "true" else "false"
  }

  /** Without float support every float prints as one fixed string. */
  function ValueText(str: string, value: int, data: Data): string {
    match data
    case STR => Quoted(str)
    case INT => IntText(ToInt32(value))
    case UINT => NatText(ToUint(value, 0x1_0000_0000))
    case UINT64 => NatText(ToUint(value, 0x1_0000_0000_0000_0000))
    case FLOAT => Quoted("unsupported")
    case BOOL => BoolText(value)
  }

  /** The types that json_set_array_value knows; for the others only the comma is written. */
  predicate InArrays(data: Data) {
    data == STR || data == INT || data == FLOAT || data == BOOL
  }

  /** What an operation appends. */
  function Piece(op: Op, t: string): string
    requires Ready(op, t)
  {
    match op
    case StartObject => Comma(t != [] && LastInk(t) == '}') + "{"
    case CloseObject => "}"
    case StartArray => Comma(LastInk(t) == ']') + "["
    case CloseArray => "]"
    case PopArray => "]"
    case PushObject(name) => Comma(LastInk(t) != '{') + (Quoted(name) + ":{")
    case PushArray(name) => Comma(LastInk(t) != '{') + (Quoted(name) + ":[")
    case SetInArray(str, value, data) =>
      Comma(LastInk(t) != '[') + (if InArrays(data) then ValueText(str, value, data) else "")
    case SetInObject(name, str, value, data) =>
      Comma(LastInk(t) != '{') + (Quoted(name) + (":" + ValueText(str, value, data)))
  }

  /** Operations that look back need something to look at. */
  predicate LooksBack(op: Op) {
    op != StartObject && op != CloseObject && op != CloseArray && op != PopArray
  }

  predicate Ready(op: Op, t: string) {
    (t != [] ==> t[0] > ' ') && (LooksBack(op) ==> t != [])
  }

  predicate SetsValue(op: Op) {
    op.SetInArray? || op.SetInObject?
  }

  predicate Full(len: nat, t: string) {
    |t| >= len - 1
  }

  /** In a buffer, the limit is checked before looking back, but after looking at the start. */
  predicate ReadyIn(op: Op, len: nat, t: string) {
    (t != [] ==> t[0] > ' ') && (LooksBack(op) ==> t != [] || (!SetsValue(op) && Full(len, t)))
  }

  /** Values go only into a text that starts with a brace. */
  predicate Refused(op: Op, t: string)
    requires SetsValue(op) ==> t != []
  {
    SetsValue(op) && t[0] != '{'
  }

  /** The operation without a buffer limit. */
  function Grow(op: Op, t: string): (r: string)
    requires Ready(op, t)
    ensures t <= r
  {
    if Refused(op, t) then t else t + Piece(op, t)
  }

  predicate OneCharacter(op: Op) {
    op == StartObject || op == CloseObject || op == StartArray || op == CloseArray || op == PopArray
  }

  function Cut(s: string, n: int): string {
    if |s| <= n then s else if n < 0 then [] else s[..n]
  }

  /** The error for a refused value; the array version returns it with the other sign. */
  function RefusalCode(op: Op): int {
    if op.SetInArray? then INVSTART else -INVSTART
  }

  /** The operation in a buffer of len bytes: the new text and the result. Operations that end in
      snprintf are cut so that the terminator fits; those that write single characters are not. */
  function Write(op: Op, len: nat, t: string): (string, int)
    requires ReadyIn(op, len, t)
  {
    if Refused(op, t) then (t, RefusalCode(op))
    else if Full(len, t) then (t, -OBUF)
    else if OneCharacter(op) then (t + Piece(op, t), 0)
    else (Cut(t + Piece(op, t), len - 1), 0)
  }

  // ------------------------------------------------------------- runs

  /** The operations of a run that may be performed one after another. */
  predicate ReadyAll(ops: seq<Op>, t: string)
    decreases ops
  {
    ops != [] ==> Ready(ops[0], t) && ReadyAll(ops[1..], Grow(ops[0], t))
  }

  function GrowAll(ops: seq<Op>, t: string): string
    requires ReadyAll(ops, t)
    decreases ops
  {
    if ops == [] then t else GrowAll(ops[1..], Grow(ops[0], t))
  }

  predicate WriteReady(ops: seq<Op>, len: nat, t: string)
    decreases ops
  {
    ops != [] ==> ReadyIn(ops[0], len, t) && WriteReady(ops[1..], len, Write(ops[0], len, t).0)
  }

  function WriteAll(ops: seq<Op>, len: nat, t: string): string
    requires WriteReady(ops, len, t)
    decreases ops
  {
    if ops == [] then t else WriteAll(ops[1..], len, Write(ops[0], len, t).0)
  }

  /** A full buffer stays as it is, and every operation reports an error. */
  lemma FullIsFrozen(op: Op, len: nat, t: string)
    requires ReadyIn(op, len, t) && Full(len, t)
    ensures Write(op, len, t).0 == t && Write(op, len, t).1 != 0
  {
  }

  lemma {:induction false} FullForever(ops: seq<Op>, len: nat, t: string)
    requires WriteReady(ops, len, t) && Full(len, t)
    ensures WriteAll(ops, len, t) == t
    decreases ops
  {
    if ops != [] {
      FullIsFrozen(ops[0], len, t);
      FullForever(ops[1..], len, t);
    }
  }

  lemma WriteIsGrow(op: Op, len: nat, t: string)
    requires Ready(op, t)
    ensures Write(op, len, t).0 == Grow(op, t) || Full(len, Write(op, len, t).0)
    ensures t <= Write(op, len, t).0 <= Grow(op, t)
  {
    FirstInk(op, t);
  }

  lemma AfterStart(op: Op, len: nat, t: string)
    requires Ready(op, t) && len >= 2
    ensures Write(op, len, t).0 != [] && Write(op, len, t).0[0] > ' '
    ensures Grow(op, t) != []
  {
    FirstInk(op, t);
  }

  lemma {:induction false} ReadyFromInk(ops: seq<Op>, t: string)
    requires t != [] && t[0] > ' '
    ensures ReadyAll(ops, t)
    decreases ops
  {
    hide Grow;
    if ops != [] {
      GrowGrows(ops[0], t);
      ReadyFromInk(ops[1..], Grow(ops[0], t));
    }
  }

  /** Only the first operation of a run decides whether the run may be performed. */
  lemma ReadyFromStart(ops: seq<Op>)
    ensures ReadyAll(ops, "") <==> ops == [] || !LooksBack(ops[0])
  {
    hide Grow;
    if ops != [] && !LooksBack(ops[0]) {
      AfterStart(ops[0], 2, "");
      FirstInk(ops[0], "");
      ReadyFromInk(ops[1..], Grow(ops[0], ""));
    }
  }

  /** A run that may be performed without a limit may be performed in any buffer with room for a
      character. */
  lemma {:induction false} WriteReadyFrom(ops: seq<Op>, len: nat, t: string, w: string)
    requires ReadyAll(ops, t) && len >= 2 && (w != [] ==> w[0] > ' ') && (t != [] ==> w != [])
    requires w <= t && (w == t || Full(len, w))
    ensures WriteReady(ops, len, w)
    decreases ops
  {
    hide Write, Grow;
    if ops != [] {
      var op := ops[0];
      if w == t {
        WriteIsGrow(op, len, t);
        AfterStart(op, len, t);
      } else {
        FullIsFrozen(op, len, w);
        GrowGrows(op, t);
      }
      WriteReadyFrom(ops[1..], len, Grow(op, t), Write(op, len, w).0);
    }
  }

  lemma GrowGrows(op: Op, t: string)
    requires Ready(op, t)
    ensures t <= Grow(op, t)
  {
  }

  lemma FirstInk(op: Op, t: string)
    requires Ready(op, t)
    ensures Grow(op, t) != [] ==> Grow(op, t)[0] > ' '
  {
  }

  /** The buffer holds what was to be written, or a full-length prefix of it. */
  lemma {:induction false} WriteRefinesGrow(ops: seq<Op>, len: nat, t: string)
    requires ReadyAll(ops, t) && WriteReady(ops, len, t)
    ensures WriteAll(ops, len, t) == GrowAll(ops, t) || Full(len, WriteAll(ops, len, t))
    ensures WriteAll(ops, len, t) <= GrowAll(ops, t)
    decreases ops
  {
    hide Write, Grow, Ready;
    if ops != [] {
      WriteIsGrow(ops[0], len, t);
      var w, g := Write(ops[0], len, t).0, Grow(ops[0], t);
      if w == g {
        WriteRefinesGrow(ops[1..], len, g);
      } else {
        FullForever(ops[1..], len, w);
        GrowAllGrows(ops[1..], g);
      }
    }
  }

  lemma {:induction false} GrowAllGrows(ops: seq<Op>, t: string)
    requires ReadyAll(ops, t)
    ensures t <= GrowAll(ops, t)
    decreases ops
  {
    hide Ready;
    if ops != [] { GrowAllGrows(ops[1..], Grow(ops[0], t)); }
  }

  /** When a closing brace is accepted at the end of a run, nothing before it was cut or dropped. */
  lemma CloseMeansComplete(ops: seq<Op>, len: nat)
    requires ReadyAll(ops, "") && len >= 2
    ensures WriteReady(ops, len, "") && ReadyIn(CloseObject, len, WriteAll(ops, len, ""))
    ensures var w := Write(CloseObject, len, WriteAll(ops, len, ""));
            w.1 == 0 ==> w.0 == GrowAll(ops, "") + "}" && |w.0| <= len - 1
  {
    WriteReadyFrom(ops, len, "", "");
    WriteRefinesGrow(ops, len, "");
    WriteAllInk(ops, len, "");
  }

  lemma {:induction false} WriteAllInk(ops: seq<Op>, len: nat, t: string)
    requires WriteReady(ops, len, t) && (t != [] ==> t[0] > ' ')
    ensures var w := WriteAll(ops, len, t); w != [] ==> w[0] > ' '
    decreases ops
  {
    hide Write;
    if ops != [] {
      WriteInk(ops[0], len, t);
      WriteAllInk(ops[1..], len, Write(ops[0], len, t).0);
    }
  }

  lemma WriteInk(op: Op, len: nat, t: string)
    requires ReadyIn(op, len, t)
    ensures var w := Write(op, len, t).0; w != [] ==> w[0] > ' '
  {
    if !Full(len, t) {
      FirstInk(op, t);
      hide Piece, Refused;
    }
  }

  /** The terminator is lost exactly when a comma and a bracket go into the last two places. */
  lemma TerminatorLost(op: Op, len: nat, t: string)
    requires ReadyIn(op, len, t) && |t| <= len - 1
    ensures |Write(op, len, t).0| <= len
    ensures |Write(op, len, t).0| == len <==>
            |t| == len - 2 && ((op == StartObject && t != [] && LastInk(t) == '}') || (op == StartArray && LastInk(t) == ']'))
  {
  }

  /** Two objects one after the other in four bytes: no room is left for the terminator. */
  lemma TerminatorLostRun()
    ensures var ops := [StartObject, CloseObject, StartObject];
            WriteReady(ops, 4, "") && WriteAll(ops, 4, "") == "{},{"
  {
    assert "" + ("" + "{") == "{" && "{" + "}" == "{}" && "{}" + ("," + "{") == "{},{";
    assert Write(StartObject, 4, "") == ("{", 0);
    assert Write(CloseObject, 4, "{") == ("{}", 0);
    assert Write(StartObject, 4, "{}") == ("{},{", 0);
  }

  // ------------------------------------------------------------- the buffer

  class Writer {
    const buff: array<char>
    const len: nat
    var free_ptr: int

    /** The text is followed by zeros up to the end of the buffer. */
    ghost predicate Valid()
      reads this, buff
    {
      && buff.Length == len && 0 <= free_ptr <= len
      && NulFree(buff[..free_ptr]) && (free_ptr > 0 ==> buff[0] > ' ')
      && (forall i :: free_ptr <= i < len ==> buff[i] == '\0')
    }

    ghost function Text(): string
      requires 0 <= free_ptr <= buff.Length
      reads this, buff
    {
      buff[..free_ptr]
    }

    /** json_str_init */
    constructor (memory: array<char>)
      modifies memory
      ensures Valid() && buff == memory && len == memory.Length && Text() == ""
    {
      buff, len, free_ptr := memory, memory.Length, 0;
      new;
      for i := 0 to memory.Length
        invariant free_ptr == 0
        invariant forall j :: 0 <= j < i ==> memory[j] == '\0'
      {
        memory[i] := '\0';
      }
    }

    /** rev_skip from the last character written. */
    method RevSkip() returns (c: char)
      requires Valid() && free_ptr > 0
      ensures c == LastInk(Text())
    {
      var i := free_ptr - 1;
      while buff[i] <= ' '
        invariant 0 <= i < free_ptr
        decreases i
        invariant LastInk(buff[..i + 1]) == LastInk(Text())
      {
        assert buff[..i + 1][..i] == buff[..i];
        i := i - 1;
      }
      c := buff[i];
    }

    /** skip: the first character from start on that is not white space; k is one. */
    method Skip(start: nat, ghost k: nat) returns (i: nat)
      requires start <= k < buff.Length && buff[k] > ' '
      ensures start <= i <= k && buff[i] > ' ' && forall j :: start <= j < i ==> buff[j] <= ' '
    {
      i := start;
      while buff[i] <= ' '
        invariant start <= i <= k && forall j :: start <= j < i ==> buff[j] <= ' '
        decreases k - i
      {
        i := i + 1;
      }
    }

    /** verify_json_start */
    method VerifyStart() returns (ok: bool)
      requires Valid() && free_ptr > 0
      ensures ok <==> Text()[0] == '{'
    {
      var i := Skip(0, 0);
      ok := buff[i] == '{';
    }

    method VerifyLimit() returns (full: bool)
      requires Valid()
      ensures full <==> Full(len, Text())
    {
      full := free_ptr >= len - 1;
    }

    method PutChar(c: char)
      requires Valid() && free_ptr < len && c > ' '
      modifies this, buff
      ensures Valid() && Text() == old(Text()) + [c]
    {
      buff[free_ptr] := c;
      free_ptr := free_ptr + 1;
    }

    method StrLen() returns (n: nat)
      requires buff.Length == len && exists i :: 0 <= i < len && buff[i] == '\0'
      ensures n < len && buff[n] == '\0' && NulFree(buff[..n])
    {
      n := 0;
      while buff[n] != '\0'
        invariant 0 <= n < len && NulFree(buff[..n])
        invariant exists i :: n <= i < len && buff[i] == '\0'
        decreases len - n
      {
        n := n + 1;
        assert buff[..n] == buff[..n - 1] + [buff[n - 1]];
      }
    }

    /** snprintf to the end of the buffer, and then free_ptr = strlen(buff). */
    method Print(piece: string)
      requires Valid() && free_ptr < len && NulFree(piece) && (free_ptr == 0 ==> piece != [] && piece[0] > ' ')
      modifies this, buff
      ensures Valid() && Text() == Cut(old(Text()) + piece, len - 1)
    {
      var n := PrintCut(piece);
      assert buff[free_ptr + n] == '\0';
      var k := StrLen();
      OneTerminator(buff[..], k, free_ptr + n);
      free_ptr := k;
    }

    /** The snprintf: as much of the piece as leaves room for the terminator. */
    method PrintCut(piece: string) returns (n: nat)
      requires Valid() && free_ptr < len && NulFree(piece) && (free_ptr == 0 ==> piece != [] && piece[0] > ' ')
      modifies buff
      ensures free_ptr + n < len && buff[..free_ptr + n] == Cut(old(Text()) + piece, len - 1)
      ensures NulFree(buff[..free_ptr + n]) && (free_ptr + n > 0 ==> buff[0] > ' ')
      ensures forall j :: free_ptr + n <= j < len ==> buff[j] == '\0'
    {
      var room := len - free_ptr;
      n := if |piece| < room then |piece| else room - 1;
      for i := 0 to n
        invariant free_ptr == old(free_ptr)
        invariant forall j :: 0 <= j < i ==> buff[free_ptr + j] == piece[j]
        invariant forall j :: 0 <= j < len && !(free_ptr <= j < free_ptr + i) ==> buff[j] == old(buff[j])
      {
        buff[free_ptr + i] := piece[i];
      }
      buff[free_ptr + n] := '\0';
      assert buff[..free_ptr + n] == old(Text()) + piece[..n];
      assert Cut(old(Text()) + piece, len - 1) == old(Text()) + piece[..n];
    }

    /** json_push_object and json_push_array_object */
    method Push(name: string, bracket: char) returns (ret: int)
      requires Valid() && (free_ptr > 0 || Full(len, Text())) && NulFree(name) && (bracket == '{' || bracket == '[')
      modifies this, buff
      ensures Valid()
      ensures (Text(), ret) == Write(if bracket == '{' then PushObject(name) else PushArray(name), len, old(Text()))
    {
      var full := VerifyLimit();
      if full {
        return -OBUF;
      }
      ghost var t := Text();
      var c := RevSkip();
      if c != '{' {
        PutChar(',');
      }
      assert Text() == t + Comma(c != '{');
      Print(Quoted(name) + (":" + [bracket]));
      assert ":" + [bracket] == if bracket == '{' then ":{" else ":[";
      Regroup(t, Comma(c != '{'), Quoted(name) + (":" + [bracket]));
      ret := 0;
    }

    /** json_start_object */
    method StartObject() returns (ret: int)
      requires Valid()
      modifies this, buff
      ensures Valid() && (Text(), ret) == Write(Op.StartObject, len, old(Text()))
    {
      var full := VerifyLimit();
      if full {
        return -OBUF;
      }
      ghost var t := Text();
      if free_ptr != 0 {
        var c := RevSkip();
        if c == '}' {
          PutChar(',');
        }
      }
      assert Text() == t + Comma(t != [] && LastInk(t) == '}');
      Regroup(t, Comma(t != [] && LastInk(t) == '}'), "{");
      PutChar('{');
      ret := 0;
    }

    /** json_start_array */
    method StartArray() returns (ret: int)
      requires Valid() && (free_ptr > 0 || Full(len, Text()))
      modifies this, buff
      ensures Valid() && (Text(), ret) == Write(Op.StartArray, len, old(Text()))
    {
      var full := VerifyLimit();
      if full {
        return -OBUF;
      }
      ghost var t := Text();
      var c := RevSkip();
      if c == ']' {
        PutChar(',');
      }
      assert Text() == t + Comma(c == ']');
      Regroup(t, Comma(c == ']'), "[");
      PutChar('[');
      ret := 0;
    }

    /** json_close_object, json_close_array and json_pop_array_object */
    method Close(op: Op) returns (ret: int)
      requires Valid() && (op == CloseObject || op == CloseArray || op == PopArray)
      modifies this, buff
      ensures Valid() && (Text(), ret) == Write(op, len, old(Text()))
    {
      var full := VerifyLimit();
      if full {
        return -OBUF;
      }
      PutChar(if op == CloseObject then '}' else ']');
      ret := 0;
    }

    /** json_set_array_value */
    method SetArrayValue(str: string, value: int, data: Data) returns (ret: int)
      requires Valid() && free_ptr > 0 && NulFree(str)
      modifies this, buff
      ensures Valid() && (Text(), ret) == Write(SetInArray(str, value, data), len, old(Text()))
    {
      var start := VerifyStart();
      if !start {
        return INVSTART;
      }
      var full := VerifyLimit();
      if full {
        return -OBUF;
      }
      ghost var t := Text();
      var c := RevSkip();
      if c != '[' {
        PutChar(',');
      }
      assert Text() == t + Comma(c != '[');
      ghost var piece := if InArrays(data) then ValueText(str, value, data) else "";
      ValueTextNulFree(str, value, data);
      if InArrays(data) {
        Print(ValueText(str, value, data));
      } else {
        assert Text() + "" == Text();
      }
      Regroup(t, Comma(c != '['), piece);
      ret := 0;
    }

    method PrintTwice(p: string, q: string)
      requires Valid() && free_ptr < len && NulFree(p) && NulFree(q) && free_ptr > 0
      modifies this, buff
      ensures Valid() && Text() == Cut(old(Text()) + (p + q), len - 1)
    {
      CutTwice(Text(), p, q, len - 1);
      Print(p);
      Print(q);
    }

    /** json_set_object_value; a float is written in two steps. */
    method SetObjectValue(name: string, str: string, value: int, data: Data) returns (ret: int)
      requires Valid() && free_ptr > 0 && NulFree(name) && NulFree(str)
      modifies this, buff
      ensures Valid() && (Text(), ret) == Write(SetInObject(name, str, value, data), len, old(Text()))
    {
      var start := VerifyStart();
      if !start {
        return -INVSTART;
      }
      var full := VerifyLimit();
      if full {
        return -OBUF;
      }
      ghost var t := Text();
      var c := RevSkip();
      if c != '{' {
        PutChar(',');
      }
      ghost var u := Text();
      assert u == t + Comma(c != '{');
      ValueTextNulFree(str, value, data);
      var text := ValueText(str, value, data);
      if data == FLOAT {
        PrintTwice(Quoted(name) + ":", text);
        Regroup(Quoted(name), ":", text);
      } else {
        Print(Quoted(name) + (":" + text));
      }
      Regroup(t, Comma(c != '{'), Quoted(name) + (":" + text));
      ret := 0;
    }
  }

  lemma CutTwice(t: string, p: string, q: string, n: nat)
    requires |t| <= n
    ensures Cut(Cut(t + p, n) + q, n) == Cut(t + (p + q), n)
  {
    Regroup(t, p, q);
  }

  lemma ValueTextNulFree(str: string, value: int, data: Data)
    requires NulFree(str)
    ensures NulFree(ValueText(str, value, data))
  {
    NatTextNulFree(ToUint(value, 0x1_0000_0000));
    NatTextNulFree(ToUint(value, 0x1_0000_0000_0000_0000));
    var v := ToInt32(value);
    NatTextNulFree(if v < 0 then -v else v);
  }

  lemma OneTerminator(b: seq<char>, k: nat, m: nat)
    requires k < |b| && m < |b| && b[k] == '\0' && b[m] == '\0'
    requires (forall i :: 0 <= i < k ==> b[i] != '\0') && (forall i :: 0 <= i < m ==> b[i] != '\0')
    ensures k == m
  {
  }
}
