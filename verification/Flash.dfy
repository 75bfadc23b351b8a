/**
 at25_write on a NOR flash whose page program wraps inside a page: the loop that splits a write
 at page boundaries does what a flat write would.
 */
module Flash {
  import opened Base

  const TOTAL := 0x20_0000
  const PAGE := 0x100

  /** What the bus and the device answer to one transaction. */
  datatype Answer = Answer(ok: bool, busy: bool, failed: bool)

  /** Programming only clears bits. */
  function Programmed(cell: bv8, data: bv8): bv8 {
    cell & data
  }

  /** A write to a range of the memory, whole. */
  function Flat(mem: seq<bv8>, address: nat, data: seq<bv8>): (r: seq<bv8>)
    ensures |r| == |mem|
  {
    seq(|mem|, i requires 0 <= i < |mem| =>
      if address <= i < address + |data| then Programmed(mem[i], data[i - address]) else mem[i])
  }

  /** Where byte i of a page program goes: back to the start of the page behind its end. */
  function Landing(address: nat, i: nat): nat {
    address % TOTAL / PAGE * PAGE + (address % PAGE + i) % PAGE
  }

  /** Whether the first n bytes of a page program reach cell j. */
  predicate Reached(address: nat, n: nat, j: nat) {
    j / PAGE == address % TOTAL / PAGE && (j - address % PAGE) % PAGE < n
  }

  /** Cell j after the first n bytes. */
  function CellAfter(mem: seq<bv8>, address: nat, data: seq<bv8>, n: nat, j: nat): bv8
    requires j < |mem| && n <= |data|
  {
    if Reached(address, n, j) then Programmed(mem[j], data[(j - address % PAGE) % PAGE]) else mem[j]
  }

  /** What the device does with the data of one page program. */
  function PageProgram(mem: seq<bv8>, address: nat, data: seq<bv8>): (r: seq<bv8>)
    requires |mem| == TOTAL && |data| <= PAGE
    ensures |r| == |mem|
  {
    seq(|mem|, j requires 0 <= j < |mem| => CellAfter(mem, address, data, |data|, j))
  }

  lemma LandingFits(address: nat, i: nat)
    ensures Landing(address, i) < TOTAL && Landing(address, i) / PAGE == address % TOTAL / PAGE
    ensures (Landing(address, i) - address % PAGE) % PAGE == i % PAGE
  {
    var page, at := address % TOTAL / PAGE, (address % PAGE + i) % PAGE;
    assert page < TOTAL / PAGE;
  }

  /** Inside a page nothing wraps. */
  lemma PageProgramIsFlat(mem: seq<bv8>, address: nat, data: seq<bv8>)
    requires |mem| == TOTAL && address + |data| <= TOTAL && address % PAGE + |data| <= PAGE
    ensures PageProgram(mem, address, data) == Flat(mem, address, data)
  {
    hide Programmed, Reached;
    forall j | 0 <= j < TOTAL
      ensures PageProgram(mem, address, data)[j] == Flat(mem, address, data)[j]
    {
      InPage(address, |data|, j);
    }
  }

  lemma InPage(address: nat, n: nat, j: nat)
    requires address + n <= TOTAL && address % PAGE + n <= PAGE
    ensures Reached(address, n, j) <==> address <= j < address + n
    ensures address <= j < address + n ==> (j - address % PAGE) % PAGE == j - address
  {
    if n > 0 {
      var page, off := address / PAGE, address % PAGE;
      assert address == page * PAGE + off && address % TOTAL == address;
      var p, o := j / PAGE, j % PAGE;
      assert j == p * PAGE + o;
    }
  }

  /** One more byte reaches one more cell. */
  lemma OneMoreByte(mem: seq<bv8>, address: nat, data: seq<bv8>, i: nat)
    requires |mem| == TOTAL && i < |data| <= PAGE
    ensures forall j: nat :: j < TOTAL && j != Landing(address, i) ==>
                               CellAfter(mem, address, data, i + 1, j) == CellAfter(mem, address, data, i, j)
    ensures var k := Landing(address, i);
            CellAfter(mem, address, data, i, k) == mem[k] && CellAfter(mem, address, data, i + 1, k) == Programmed(mem[k], data[i])
  {
    hide Programmed;
    LandingFits(address, i);
    forall j: nat | j < TOTAL && j != Landing(address, i)
      ensures CellAfter(mem, address, data, i + 1, j) == CellAfter(mem, address, data, i, j)
    {
      NotReached(address, i, j);
    }
  }

  lemma NothingReached(mem: seq<bv8>, address: nat, data: seq<bv8>)
    ensures forall j: nat :: j < |mem| ==> CellAfter(mem, address, data, 0, j) == mem[j]
  {
  }

  lemma NotReached(address: nat, i: nat, j: nat)
    requires i < PAGE && j < TOTAL && j != Landing(address, i)
    ensures Reached(address, i + 1, j) == Reached(address, i, j)
  {
    if j / PAGE == address % TOTAL / PAGE && (j - address % PAGE) % PAGE == i {
      Recovered(address % PAGE, i, j);
    }
  }

  lemma Recovered(off: nat, i: nat, j: nat)
    requires off < PAGE && i < PAGE && (j - off) % PAGE == i
    ensures j == j / PAGE * PAGE + (off + i) % PAGE
  {
  }

  /** Writes to adjoining ranges add up. */
  lemma FlatJoins(mem: seq<bv8>, address: nat, a: seq<bv8>, b: seq<bv8>)
    ensures Flat(Flat(mem, address, a), address + |a|, b) == Flat(mem, address, a + b)
  {
    hide Programmed;
  }

  lemma FlatNothing(mem: seq<bv8>, address: nat)
    ensures Flat(mem, address, []) == mem
  {
  }

  // ------------------------------------------------------------- the transactions of a write

  datatype Program = Program(address: nat, data: seq<bv8>)

  /** The range check, with its 32-bit sum. */
  predicate Accepted(address: nat, size: nat) {
    (size + address) % WORD <= TOTAL
  }

  function Chunk(address: nat, size: nat): (w: nat)
    ensures w <= size && w <= PAGE && (size > 0 ==> w > 0) && address % PAGE + w <= PAGE
  {
    var left := PAGE - address % PAGE;
    if size < left then size else left
  }

  /** The page programs a write is split into. */
  function Plan(address: nat, data: seq<bv8>): seq<Program>
    decreases |data|
  {
    if data == [] then []
    else
      var w := Chunk(address, |data|);
      [Program(address, data[..w])] + Plan((address + w) % WORD, data[w..])
  }

  /** No page program crosses a page boundary, and none is empty. */
  predicate InPages(ps: seq<Program>) {
    forall i :: 0 <= i < |ps| ==> 0 < |ps[i].data| && ps[i].address % PAGE + |ps[i].data| <= PAGE
  }

  lemma {:induction false} PlanInPages(address: nat, data: seq<bv8>)
    ensures InPages(Plan(address, data))
    decreases |data|
  {
    if data != [] {
      var w := Chunk(address, |data|);
      PlanInPages((address + w) % WORD, data[w..]);
    }
  }

  /** The memory after the device has carried out page programs. */
  function Replay(mem: seq<bv8>, ps: seq<Program>): (r: seq<bv8>)
    requires |mem| == TOTAL && forall i :: 0 <= i < |ps| ==> |ps[i].data| <= PAGE
    ensures |r| == TOTAL
    decreases |ps|
  {
    if ps == [] then mem
    else PageProgram(Replay(mem, ps[..|ps| - 1]), ps[|ps| - 1].address, ps[|ps| - 1].data)
  }

  lemma {:induction false} ReplayHead(mem: seq<bv8>, p: Program, ps: seq<Program>)
    requires |mem| == TOTAL && |p.data| <= PAGE && forall i :: 0 <= i < |ps| ==> |ps[i].data| <= PAGE
    ensures Replay(mem, [p] + ps) == Replay(PageProgram(mem, p.address, p.data), ps)
    decreases |ps|
  {
    hide PageProgram;
    if ps == [] {
      assert [p] + ps == [p] && [p][..0] == [];
      assert Replay(mem, [p]) == PageProgram(Replay(mem, [p][..0]), p.address, p.data);
    } else {
      assert ([p] + ps)[..|ps|] == [p] + ps[..|ps| - 1];
      ReplayHead(mem, p, ps[..|ps| - 1]);
    }
  }

  /** How many bytes the first k page programs hold. */
  function Written(ps: seq<Program>): nat {
    if ps == [] then 0 else Written(ps[..|ps| - 1]) + |ps[|ps| - 1].data|
  }

  lemma {:induction false} WrittenHead(p: Program, ps: seq<Program>)
    ensures Written([p] + ps) == |p.data| + Written(ps)
    decreases |ps|
  {
    if ps == [] {
      assert [p] + ps == [p] && [p][..0] == [];
    } else {
      assert ([p] + ps)[..|ps|] == [p] + ps[..|ps| - 1];
      WrittenHead(p, ps[..|ps| - 1]);
    }
  }

  /** As far as the plan is carried out, the memory is the flat write of the bytes done. */
  lemma {:induction false} PlanIsFlat(mem: seq<bv8>, address: nat, data: seq<bv8>, k: nat)
    requires |mem| == TOTAL && address + |data| <= TOTAL && k <= |Plan(address, data)|
    ensures InPages(Plan(address, data)[..k])
    ensures var n := Written(Plan(address, data)[..k]);
            n <= |data| && Replay(mem, Plan(address, data)[..k]) == Flat(mem, address, data[..n])
    ensures k == |Plan(address, data)| ==> Written(Plan(address, data)[..k]) == |data|
    decreases |data|
  {
    hide PageProgram, Flat, Chunk, Replay, Written, Plan, InPages;
    var ps := Plan(address, data);
    if k == 0 {
      PlanNone(mem, address, data);
    } else {
      var w := Chunk(address, |data|);
      PlanHead(address, data);
      var p, rest := Program(address, data[..w]), Plan(address + w, data[w..]);
      PlanIsFlat(PageProgram(mem, address, data[..w]), address + w, data[w..], k - 1);
      assert ps[..k] == [p] + rest[..k - 1];
      PagesHead(p, rest[..k - 1]);
      ReplayHead(mem, p, rest[..k - 1]);
      WrittenHead(p, rest[..k - 1]);
      var n := Written(rest[..k - 1]);
      PageProgramIsFlat(mem, address, data[..w]);
      FlatJoins(mem, address, data[..w], data[w..][..n]);
      assert data[..w] + data[w..][..n] == data[..w + n];
    }
  }

  lemma PlanNone(mem: seq<bv8>, address: nat, data: seq<bv8>)
    requires |mem| == TOTAL
    ensures var ps := Plan(address, data)[..0];
            InPages(ps) && Written(ps) == 0 && Replay(mem, ps) == Flat(mem, address, data[..0])
    ensures |Plan(address, data)| == 0 ==> data == []
  {
    hide PageProgram;
    assert data[..0] == [];
    FlatNothing(mem, address);
  }

  lemma PlanHead(address: nat, data: seq<bv8>)
    requires address + |data| <= TOTAL && Plan(address, data) != []
    ensures data != []
    ensures var w := Chunk(address, |data|);
            0 < w <= PAGE && Plan(address, data) == [Program(address, data[..w])] + Plan(address + w, data[w..])
  {
  }

  lemma PagesHead(p: Program, ps: seq<Program>)
    requires InPages(ps) && 0 < |p.data| && p.address % PAGE + |p.data| <= PAGE
    ensures InPages([p] + ps) && (forall i :: 0 <= i < |ps| ==> |ps[i].data| <= PAGE)
  {
  }

  /** The whole plan is the flat write, for every range inside the flash. */
  lemma WholePlanIsFlat(mem: seq<bv8>, address: nat, data: seq<bv8>)
    requires |mem| == TOTAL && address + |data| <= TOTAL
    ensures InPages(Plan(address, data)) && Replay(mem, Plan(address, data)) == Flat(mem, address, data)
  {
    var ps := Plan(address, data);
    PlanIsFlat(mem, address, data, |ps|);
    assert ps[..|ps|] == ps && data[..|data|] == data;
  }

  /** Written to erased memory, the data is read back, and nothing else has changed. */
  lemma ErasedHoldsData(mem: seq<bv8>, address: nat, data: seq<bv8>)
    requires |mem| == TOTAL && address + |data| <= TOTAL
    requires forall j :: address <= j < address + |data| ==> mem[j] == 0xFF
    ensures InPages(Plan(address, data))
    ensures var r := Replay(mem, Plan(address, data));
            && r[address..address + |data|] == data
            && r[..address] == mem[..address] && r[address + |data|..] == mem[address + |data|..]
  {
    hide Plan, Replay;
    WholePlanIsFlat(mem, address, data);
    ErasedFlat(mem, address, data);
  }

  lemma ErasedFlat(mem: seq<bv8>, address: nat, data: seq<bv8>)
    requires address + |data| <= |mem|
    requires forall j :: address <= j < address + |data| ==> mem[j] == 0xFF
    ensures var r := Flat(mem, address, data);
            && r[address..address + |data|] == data
            && r[..address] == mem[..address] && r[address + |data|..] == mem[address + |data|..]
  {
  }

  /** Whatever is written, no bit that was 0 becomes 1, and writing the same again changes nothing. */
  lemma OnlyClears(mem: seq<bv8>, address: nat, data: seq<bv8>)
    ensures forall j :: 0 <= j < |mem| ==> Flat(mem, address, data)[j] & !mem[j] == 0
    ensures Flat(Flat(mem, address, data), address, data) == Flat(mem, address, data)
  {
    ClearTwice();
  }

  lemma ClearTwice()
    ensures forall cell: bv8, data: bv8 ::
      Programmed(cell, data) & !cell == 0 && Programmed(Programmed(cell, data), data) == Programmed(cell, data)
  {
  }

  /** What the range check lets through is inside the flash exactly when the sum did not wrap. */
  lemma AcceptedInside(address: nat, size: nat)
    requires address < WORD && size < WORD && Accepted(address, size)
    ensures address + size <= TOTAL <==> address + size < WORD
  {
  }

  lemma {:induction false} OutsideIsProgrammed(address: nat, data: seq<bv8>) returns (i: nat)
    requires address < WORD <= address + |data|
    ensures i < |Plan(address, data)| && Plan(address, data)[i].address >= TOTAL
    decreases |data|
  {
    i := 0;
    if address < TOTAL {
      var w := Chunk(address, |data|);
      var k := OutsideIsProgrammed(address + w, data[w..]);
      i := k + 1;
      assert Plan(address, data)[k + 1] == Plan(address + w, data[w..])[k];
    }
  }

  lemma {:induction false} InsideIsProgrammed(address: nat, data: seq<bv8>)
    requires address + |data| <= TOTAL
    ensures forall i :: 0 <= i < |Plan(address, data)| ==> Plan(address, data)[i].address < TOTAL
    decreases |data|
  {
    if data != [] {
      var w := Chunk(address, |data|);
      InsideIsProgrammed(address + w, data[w..]);
    }
  }

  /** Of the ranges that the check lets through, those whose sum wrapped, and no others, send page
      programs to addresses outside the flash. */
  lemma WrappedRange(address: nat, data: seq<bv8>)
    requires address < WORD && |data| < WORD && Accepted(address, |data|)
    ensures (exists i :: 0 <= i < |Plan(address, data)| && Plan(address, data)[i].address >= TOTAL)
            <==> address + |data| >= WORD
  {
    hide Plan;
    if address + |data| >= WORD {
      var i := OutsideIsProgrammed(address, data);
    } else {
      InsideIsProgrammed(address, data);
    }
  }

  /** Such a range: its first byte lands on the last cell. */
  lemma WrappedTwoBytes()
    ensures Accepted(0xFFFF_FFFF, 2)
    ensures Plan(0xFFFF_FFFF, [0, 0]) == [Program(0xFFFF_FFFF, [0]), Program(0, [0])]
    ensures Landing(0xFFFF_FFFF, 0) == TOTAL - 1
  {
    var one: seq<bv8>, two: seq<bv8> := [0], [0, 0];
    assert one[..1] == one && one[1..] == [] && two[..1] == one && two[1..] == one;
    assert Chunk(0, 1) == 1 && Plan(0, one) == [Program(0, one[..1])] + Plan(1, one[1..]);
    assert Chunk(0xFFFF_FFFF, 2) == 1;
  }

  // ------------------------------------------------------------- device and driver

  /** Polls from tick t on: all of them answered, busy up to the one at tick u, which finds the
      device ready. */
  predicate ReadyAt(answer: nat -> Answer, t: nat, u: nat) {
    && t <= u
    && (forall v: nat :: t <= v <= u ==> answer(v).ok)
    && (forall v: nat :: t <= v < u ==> answer(v).busy)
    && !answer(u).busy
  }

  /** The polling loop gives up after 1001 polls. */
  predicate ReadyInTime(answer: nat -> Answer, t: nat) {
    exists u: nat :: t <= u <= t + 1000 && ReadyAt(answer, t, u)
  }

  predicate SomeReady(answer: nat -> Answer, t: nat) {
    exists u: nat :: t <= u <= t + 1000 && !answer(u).busy
  }

  /** A device that answers, reports no errors, and is never busy for more than 1000 polls. */
  ghost predicate Prompt(answer: nat -> Answer) {
    && (forall t: nat :: answer(t).ok && !answer(t).failed)
    && (forall t: nat :: SomeReady(answer, t))
  }

  lemma PromptIsReady(answer: nat -> Answer, t: nat)
    requires Prompt(answer)
    ensures ReadyInTime(answer, t)
  {
    assert SomeReady(answer, t);
    var u: nat :| t <= u <= t + 1000 && !answer(u).busy;
    FirstReady(answer, t, t, u);
  }

  lemma FirstReady(answer: nat -> Answer, t: nat, i: nat, u: nat)
    requires (forall v: nat :: answer(v).ok) && t <= i <= u <= t + 1000 && !answer(u).busy
    requires forall v: nat :: t <= v < i ==> answer(v).busy
    ensures ReadyInTime(answer, t)
    decreases u - i
  {
    if answer(i).busy {
      FirstReady(answer, t, i + 1, u);
    } else {
      assert ReadyAt(answer, t, i);
    }
  }

  lemma NotInTime(answer: nat -> Answer, t: nat, u: nat)
    requires t <= u && !answer(u).ok && forall v: nat :: t <= v < u ==> answer(v).busy
    ensures !ReadyInTime(answer, t)
  {
    forall w: nat | t <= w <= t + 1000
      ensures !ReadyAt(answer, t, w)
    {
      if w < u { assert answer(w).busy; }
    }
  }

  class Device {
    const answer: nat -> Answer
    var tick: nat
    const mem: array<bv8>
    var wel: bool
    ghost var log: seq<Program>

    ghost predicate Valid()
      reads this
    {
      mem.Length == TOTAL
    }

    constructor (answers: nat -> Answer, memory: array<bv8>)
      requires memory.Length == TOTAL
      ensures Valid() && answer == answers && mem == memory && log == []
    {
      answer, tick, mem, wel, log := answers, 0, memory, false, [];
    }

    /** The write enable command. */
    method EnableWrite() returns (ok: bool)
      modifies `tick, `wel
      ensures tick == old(tick) + 1 && ok == answer(old(tick)).ok && (ok ==> wel)
    {
      ok := answer(tick).ok;
      tick := tick + 1;
      if ok {
        wel := true;
      }
    }

    /** The page program command; the device decodes as many address bits as it has cells. */
    method SendProgram(address: nat, data: seq<bv8>) returns (ok: bool)
      requires Valid() && wel && 0 < |data| <= PAGE
      modifies `tick, `wel, `log, mem
      ensures tick == old(tick) + 1 && ok == answer(old(tick)).ok
      ensures ok ==> mem[..] == PageProgram(old(mem[..]), address, data) && log == old(log) + [Program(address, data)]
      ensures !ok ==> mem[..] == old(mem[..]) && log == old(log)
    {
      hide Programmed, CellAfter, Landing;
      NothingReached(mem[..], address, data);
      ok := answer(tick).ok;
      tick := tick + 1;
      if ok {
        ghost var before := mem[..];
        for i := 0 to |data|
          invariant tick == old(tick) + 1 && log == old(log)
          invariant forall j: nat :: j < TOTAL ==> mem[j] == CellAfter(before, address, data, i, j)
        {
          LandingFits(address, i);
          OneMoreByte(before, address, data, i);
          mem[Landing(address, i)] := Programmed(mem[Landing(address, i)], data[i]);
        }
        assert mem[..] == PageProgram(before, address, data);
        wel := false;
        log := log + [Program(address, data)];
      }
    }

    /** at25_read_status: transferred, the busy bit, and the error bit. */
    method ReadStatus() returns (ok: bool, busy: bool, failed: bool)
      modifies `tick
      ensures tick == old(tick) + 1
      ensures ok == answer(old(tick)).ok && busy == answer(old(tick)).busy && failed == answer(old(tick)).failed
    {
      ok, busy, failed := answer(tick).ok, answer(tick).busy, answer(tick).failed;
      tick := tick + 1;
    }

    /** at25_wait: the device must be found ready by the 1001st poll. */
    method Wait() returns (ok: bool, failed: bool)
      modifies `tick
      ensures ok <==> ReadyInTime(answer, old(tick))
      ensures ok ==> tick > old(tick) && failed == answer(tick - 1).failed
    {
      var i, status := 0, true;
      failed := false;
      ghost var t := tick;
      while status
        invariant 0 <= i <= 1001 && tick == t + i
        invariant forall v: nat :: t <= v < t + i ==> answer(v).ok
        invariant forall v: nat :: t <= v < t + i && (status || v + 1 < t + i) ==> answer(v).busy
        invariant !status ==> i > 0 && !answer(tick - 1).busy && failed == answer(tick - 1).failed
        decreases 1001 - i, status
      {
        ok, status, failed := ReadStatus();
        if !ok {
          NotInTime(answer, t, tick - 1);
          return false, failed;
        }
        if i > 1000 {
          return false, failed;
        }
        i := i + 1;
      }
      assert ReadyAt(answer, t, tick - 1);
      ok := true;
    }

    /** The body of the loop in at25_write: one page program, and waiting for its end. */
    method WriteChunk(address: nat, data: seq<bv8>) returns (rc: bool)
      requires Valid() && 0 < |data| <= PAGE
      modifies `tick, `wel, `log, mem
      ensures (mem[..] == PageProgram(old(mem[..]), address, data) && log == old(log) + [Program(address, data)])
              || (!rc && mem[..] == old(mem[..]) && log == old(log))
      ensures Prompt(answer) ==> rc
    {
      hide PageProgram;
      rc := EnableWrite();
      if !rc {
        return;
      }
      rc := SendProgram(address, data);
      if !rc {
        return;
      }
      if Prompt(answer) { PromptIsReady(answer, tick); }
      var failed;
      rc, failed := Wait();
      if rc && failed {
        rc := false;
      }
    }

    /** at25_write: what is done is the plan, or the part of it before something went wrong. */
    method Write(address0: nat, buf: seq<bv8>) returns (rc: bool, ghost done: nat)
      requires Valid() && address0 < WORD && |buf| < WORD
      modifies `tick, `wel, `log, mem
      ensures done <= |Plan(address0, buf)| && InPages(Plan(address0, buf))
      ensures log == old(log) + Plan(address0, buf)[..done]
      ensures mem[..] == Replay(old(mem[..]), Plan(address0, buf)[..done])
      ensures !Accepted(address0, |buf|) ==> !rc && done == 0
      ensures rc ==> done == |Plan(address0, buf)|
      ensures Prompt(answer) ==> (rc <==> Accepted(address0, |buf|))
    {
      hide PageProgram, Chunk, Plan, Replay, InPages, Prompt;
      ghost var plan := Plan(address0, buf);
      PlanInPages(address0, buf);
      PagesBound(plan);
      done := 0;
      ReplayNone(mem[..], plan);
      if (|buf| + address0) % WORD > TOTAL {
        return false, 0;
      }
      var address, p, size := address0, 0, |buf|;
      while size > 0
        invariant p + size == |buf| && done <= |plan| && 0 <= p && 0 <= size && 0 <= address < WORD
        invariant Plan(address, buf[p..]) == plan[done..]
        invariant log == old(log) + plan[..done] && mem[..] == Replay(old(mem[..]), plan[..done])
      {
        var write_size := Chunk(address, size);
        PlanStep(address, buf[p..], plan, done);
        assert buf[p..][..write_size] == buf[p..p + write_size] && buf[p..][write_size..] == buf[p + write_size..];
        ReplaySnoc(old(mem[..]), plan[..done], plan[done]);
        rc := WriteChunk(address, buf[p..p + write_size]);
        if log == old(log) + plan[..done] + [Program(address, buf[p..p + write_size])] {
          done := done + 1;
        }
        if !rc {
          return;
        }
        p, size, address := p + write_size, size - write_size, (address + write_size) % WORD;
      }
      PlanEmpty(address, buf[p..]);
      rc := true;
    }
  }

  lemma PagesBound(ps: seq<Program>)
    requires InPages(ps)
    ensures forall i :: 0 <= i < |ps| ==> |ps[i].data| <= PAGE
  {
  }

  lemma ReplayNone(mem: seq<bv8>, ps: seq<Program>)
    requires |mem| == TOTAL
    ensures ps[..0] == [] && Replay(mem, ps[..0]) == mem
  {
  }

  lemma PlanEmpty(address: nat, data: seq<bv8>)
    requires data == []
    ensures Plan(address, data) == []
  {
  }

  lemma ReplaySnoc(mem: seq<bv8>, ps: seq<Program>, p: Program)
    requires |mem| == TOTAL && (forall i :: 0 <= i < |ps| ==> |ps[i].data| <= PAGE) && |p.data| <= PAGE
    ensures Replay(mem, ps + [p]) == PageProgram(Replay(mem, ps), p.address, p.data)
  {
    hide PageProgram;
    assert (ps + [p])[..|ps|] == ps;
  }

  lemma PlanStep(address: nat, data: seq<bv8>, plan: seq<Program>, done: nat)
    requires data != [] && done <= |plan| && Plan(address, data) == plan[done..]
    ensures done < |plan| && plan[done] == Program(address, data[..Chunk(address, |data|)])
    ensures Plan((address + Chunk(address, |data|)) % WORD, data[Chunk(address, |data|)..]) == plan[done + 1..]
    ensures plan[..done + 1] == plan[..done] + [plan[done]] && plan[..done + 1][..done] == plan[..done]
  {
    hide Chunk;
    assert plan[done..][1..] == plan[done + 1..];
  }
}
