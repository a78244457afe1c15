/**
 The straight-line stretches of the emitted list, one lemma each.
 */
module ProbeBlocks {
  import opened Bits
  import opened ProbeProgram

  /** Where the table and the entry counter of the running thread live. */
  datatype Layout = Layout(base: nat, cell: nat)

  /** A probe offset, a multiple of 8, is below the limit exactly when it is inside the table. */
  predicate LimitOk(k: nat, limit: nat) {
    8 * Pow2(k) - 8 < limit <= 8 * Pow2(k) < 0x8000_0000
  }

  /** The configured table sizes, as powers of two, and their limits. */
  const CONFIGURED: map<nat, nat> :=
    map[16 := 524288, 15 := 262144, 14 := 131072, 13 := 65536, 12 := 32768, 11 := 16382, 10 := 8192, 3 := 64]

  lemma ConfiguredSizes(k: nat)
    requires k in CONFIGURED
    ensures LimitOk(k, CONFIGURED[k])
  {
    assert Pow2(3) == 8 && Pow2(10) == 1024 && Pow2(11) == 2048 && Pow2(12) == 4096;
    assert Pow2(13) == 8192 && Pow2(14) == 16384 && Pow2(15) == 32768 && Pow2(16) == 65536;
  }

  /**
   The wrap limit in bytes ends the table and fits a signed 32-bit immediate; the table and the
   counter are apart.
   */
  ghost predicate LayoutOk(c: Site, y: Layout) {
    && LimitOk(c.k, c.limit)
    && y.base + 8 * Pow2(c.k) <= SIGN
    && y.cell < WORD
    && (y.cell < y.base || y.base + 8 * Pow2(c.k) <= y.cell)
  }

  ghost predicate Mapped(c: Site, y: Layout, mem: map<nat, nat>) {
    && y.cell in mem
    && forall i | 0 <= i < Pow2(c.k) :: y.base + 8 * i in mem
  }

  /** The value of slot `i`. */
  function SlotAt(y: Layout, mem: map<nat, nat>, i: nat): nat {
    if y.base + 8 * i in mem then mem[y.base + 8 * i] else 0
  }

  /** The combiner word is loaded. */
  lemma EntryCombiner(c: Site, f: Machine -> Machine, m: Machine) returns (m': Machine)
    requires Implements(f, c)
    requires m.pc == 0 && m.table + c.combinerOff < WORD && m.table + c.combinerOff in m.mem
    ensures Reaches(f, m, m') && m' == m.(pc := 2, val := m.mem[m.table + c.combinerOff])
  {
    ReachesRefl(f, m);
    m' := m;
    ReachesStep(f, m, m'); m' := Step(c, m');
    ReachesStep(f, m, m'); m' := Step(c, m');
  }

  /** Not combining: nothing is recorded. */
  lemma EntryIdle(c: Site, f: Machine -> Machine, m: Machine) returns (m': Machine)
    requires Implements(f, c)
    requires m.pc == 0 && m.table + c.combinerOff < WORD
    requires m.table + c.combinerOff in m.mem && m.mem[m.table + c.combinerOff] == 0
    ensures Reaches(f, m, m') && m'.pc == RESTORE && m'.mem == m.mem
  {
    m' := EntryCombiner(c, f, m);
    ReachesStep(f, m, m'); m' := Step(c, m');
    ReachesStep(f, m, m'); m' := Step(c, m');
  }

  lemma EntryTest(c: Site, f: Machine -> Machine, m: Machine) returns (m': Machine)
    requires Implements(f, c)
    requires m.pc == 0 && m.table + c.combinerOff < WORD
    requires m.table + c.combinerOff in m.mem && m.mem[m.table + c.combinerOff] != 0
    ensures Reaches(f, m, m') && m'.pc == 4 && m'.mem == m.mem && m'.table == m.table
  {
    m' := EntryCombiner(c, f, m);
    ReachesStep(f, m, m'); m' := Step(c, m');
    ReachesStep(f, m, m'); m' := Step(c, m');
  }

  lemma EntryLoads(c: Site, f: Machine -> Machine, y: Layout, m: Machine) returns (m': Machine)
    requires Implements(f, c)
    requires m.pc == 4 && m.table + c.counterOff < WORD && m.table + c.entriesOff < WORD && y.cell < WORD
    requires m.table + c.counterOff in m.mem && m.mem[m.table + c.counterOff] == y.cell
    requires m.table + c.entriesOff in m.mem && m.mem[m.table + c.entriesOff] == y.base
    requires y.cell in m.mem
    ensures Reaches(f, m, m') && m'.pc == 7 && m'.mem == m.mem
    ensures m'.table == y.base && m'.rsp == y.cell && m'.cnt == m.mem[y.cell]
  {
    ReachesRefl(f, m);
    m' := m;
    ReachesStep(f, m, m'); m' := Step(c, m');
    assert m' == m.(pc := 5, rsp := y.cell);
    ReachesStep(f, m, m'); m' := Step(c, m');
    assert m' == m.(pc := 6, rsp := y.cell, cnt := m.mem[y.cell]);
    ReachesStep(f, m, m'); m' := Step(c, m');
  }

  lemma EntryAlign(c: Site, f: Machine -> Machine, m: Machine) returns (m': Machine)
    requires Implements(f, c)
    requires m.pc == 7 && c.addr + c.size < WORD
    ensures Reaches(f, m, m') && m'.pc == LOOP && m'.mem == m.mem
    ensures m'.table == m.table && m'.rsp == m.rsp && m'.cnt == m.cnt
    ensures m'.dest == c.addr - c.addr % 32 && m'.range == c.addr + c.size
  {
    m' := EntryRange(c, f, m);
    AndAlign(c.addr, ALIGN_MASK);
    ReachesStep(f, m, m'); m' := Step(c, m');
  }

  lemma EntryRange(c: Site, f: Machine -> Machine, m: Machine) returns (m': Machine)
    requires Implements(f, c)
    requires m.pc == 7 && c.addr + c.size < WORD
    ensures Reaches(f, m, m') && m' == m.(pc := 10, dest := c.addr, range := c.addr + c.size)
  {
    ReachesRefl(f, m);
    m' := m;
    ReachesStep(f, m, m'); m' := Step(c, m');
    ReachesStep(f, m, m'); m' := Step(c, m');
    ReachesStep(f, m, m'); m' := Step(c, m');
  }

  /** The loop head leaves when the range is covered. */
  lemma LoopExit(c: Site, f: Machine -> Machine, m: Machine) returns (m': Machine)
    requires Implements(f, c)
    requires m.pc == LOOP && m.dest < SIGN && m.range < SIGN && m.dest >= m.range
    ensures Reaches(f, m, m') && m'.pc == RESTORE && m'.mem == m.mem
  {
    ReachesRefl(f, m);
    m' := m;
    ReachesStep(f, m, m'); m' := Step(c, m');
    ReachesStep(f, m, m'); m' := Step(c, m');
  }

  /** What a stretch of code leaves alone. */
  ghost predicate Same(m: Machine, m': Machine) {
    && m'.dest == m.dest && m'.range == m.range && m'.table == m.table
    && m'.cnt == m.cnt && m'.rsp == m.rsp && m'.mem == m.mem
  }

  /** The loop head computes the byte offset of the home slot. */
  lemma LoopEnter(c: Site, f: Machine -> Machine, m: Machine) returns (m': Machine)
    requires Implements(f, c)
    requires m.pc == LOOP && m.dest < m.range < SIGN && 8 * Pow2(c.k) <= SIGN
    ensures Reaches(f, m, m') && m'.pc == TRY && Same(m, m')
    ensures m'.rax == 8 * (m.dest % Pow2(c.k))
  {
    ReachesRefl(f, m);
    m' := m;
    ReachesStep(f, m, m'); m' := Step(c, m');
    ReachesStep(f, m, m'); m' := Step(c, m');
    ReachesStep(f, m, m'); m' := Step(c, m');
    ReachesStep(f, m, m'); m' := Step(c, m');
    var n := HomeOffset(c, f, m');
    ReachesTrans(f, m, m', n);
    m' := n;
  }

  lemma HomeOffset(c: Site, f: Machine -> Machine, m: Machine) returns (m': Machine)
    requires Implements(f, c)
    requires m.pc == 15 && m.rax == Pow2(c.k) - 1 && 8 * Pow2(c.k) <= SIGN
    ensures Reaches(f, m, m') && m'.pc == TRY && Same(m, m')
    ensures m'.rax == 8 * (m.dest % Pow2(c.k))
  {
    ReachesRefl(f, m);
    AndLow(m.dest, c.k);
    ReachesStep(f, m, m);
    m' := HomeTimes8(c, f, Step(c, m), m.dest % Pow2(c.k));
    ReachesTrans(f, m, Step(c, m), m');
  }

  lemma HomeTimes8(c: Site, f: Machine -> Machine, m: Machine, h: nat) returns (m': Machine)
    requires Implements(f, c) && m.pc == 16 && m.rax == h && 8 * h < WORD
    ensures Reaches(f, m, m') && m'.pc == TRY && Same(m, m') && m'.rax == 8 * h
  {
    ReachesRefl(f, m);
    ReachesStep(f, m, m);
    m' := Step(c, m);
  }

  /** A free slot takes the address and counts it. */
  lemma TryFree(c: Site, f: Machine -> Machine, y: Layout, m: Machine, i: nat) returns (m': Machine)
    requires Implements(f, c)
    requires LayoutOk(c, y) && Mapped(c, y, m.mem)
    requires m.pc == TRY && m.table == y.base && m.rsp == y.cell && i < Pow2(c.k) && m.rax == 8 * i
    requires SlotAt(y, m.mem, i) == 0
    ensures Reaches(f, m, m') && m'.pc == REMAINING
    ensures m'.mem == m.mem[y.base + 8 * i := m.dest][y.cell := Wrap(m.cnt + 1)]
    ensures m'.table == y.base + 8 * i && m'.rax == m.rax && m'.dest == m.dest && m'.range == m.range
    ensures m'.rsp == m.rsp && m'.cnt == Wrap(m.cnt + 1)
  {
    m' := TryLoad(c, f, y, m, i);
    ReachesStep(f, m, m'); m' := Step(c, m');
    ReachesStep(f, m, m'); m' := Step(c, m');
    var n := StoreAndCount(c, f, m');
    ReachesTrans(f, m, m', n);
    m' := n;
  }

  lemma StoreAndCount(c: Site, f: Machine -> Machine, m: Machine) returns (m': Machine)
    requires Implements(f, c)
    requires m.pc == 21 && m.table in m.mem && m.rsp in m.mem && m.table < WORD && m.rsp < WORD
    ensures Reaches(f, m, m') && m'.pc == REMAINING
    ensures m'.mem == m.mem[m.table := m.dest][m.rsp := Wrap(m.cnt + 1)]
    ensures m'.table == m.table && m'.rax == m.rax && m'.dest == m.dest && m'.range == m.range
    ensures m'.rsp == m.rsp && m'.cnt == Wrap(m.cnt + 1)
  {
    var a := StoreBlock(c, f, m);
    m' := StoreCount(c, f, a);
    ReachesTrans(f, m, a, m');
  }

  lemma StoreBlock(c: Site, f: Machine -> Machine, m: Machine) returns (m': Machine)
    requires Implements(f, c) && m.pc == 21 && m.table in m.mem && m.table < WORD
    ensures Reaches(f, m, m')
    ensures m' == m.(pc := 23, cnt := Wrap(m.cnt + 1), mem := m.mem[m.table := m.dest])
  {
    ReachesRefl(f, m);
    m' := m;
    ReachesStep(f, m, m'); m' := Step(c, m');
    ReachesStep(f, m, m'); m' := Step(c, m');
  }

  lemma StoreCount(c: Site, f: Machine -> Machine, m: Machine) returns (m': Machine)
    requires Implements(f, c) && m.pc == 23 && m.rsp in m.mem && m.rsp < WORD
    ensures Reaches(f, m, m') && m' == m.(pc := REMAINING, mem := m.mem[m.rsp := m.cnt])
  {
    ReachesRefl(f, m);
    m' := m;
    ReachesStep(f, m, m'); m' := Step(c, m');
    ReachesStep(f, m, m'); m' := Step(c, m');
  }

  lemma TryLoad(c: Site, f: Machine -> Machine, y: Layout, m: Machine, i: nat) returns (m': Machine)
    requires Implements(f, c)
    requires LayoutOk(c, y) && Mapped(c, y, m.mem)
    requires m.pc == TRY && m.table == y.base && i < Pow2(c.k) && m.rax == 8 * i
    ensures Reaches(f, m, m') && m'.pc == 19 && m'.val == SlotAt(y, m.mem, i)
    ensures m'.table == y.base + 8 * i && m'.rax == m.rax && m'.dest == m.dest && m'.range == m.range
    ensures m'.cnt == m.cnt && m'.rsp == m.rsp && m'.mem == m.mem
  {
    ReachesRefl(f, m);
    m' := m;
    ReachesStep(f, m, m'); m' := Step(c, m');
    ReachesStep(f, m, m'); m' := Step(c, m');
  }

  /** An occupied slot is compared with the address. */
  lemma TryOccupied(c: Site, f: Machine -> Machine, y: Layout, m: Machine, i: nat) returns (m': Machine)
    requires Implements(f, c)
    requires LayoutOk(c, y) && Mapped(c, y, m.mem)
    requires m.pc == TRY && m.table == y.base && i < Pow2(c.k) && m.rax == 8 * i
    requires SlotAt(y, m.mem, i) != 0
    ensures Reaches(f, m, m') && m'.pc == 27 + (if SlotAt(y, m.mem, i) == m.dest then 0 else 1)
    ensures m'.table == y.base + 8 * i && m'.rax == m.rax && m'.dest == m.dest && m'.range == m.range
    ensures m'.cnt == m.cnt && m'.rsp == m.rsp && m'.mem == m.mem
  {
    m' := TryLoad(c, f, y, m, i);
    ReachesStep(f, m, m'); m' := Step(c, m');
    ReachesStep(f, m, m'); m' := Step(c, m');
    assert m'.pc == DUPLICATE;
    ReachesStep(f, m, m'); m' := Step(c, m');
    ReachesStep(f, m, m'); m' := Step(c, m');
  }

  /** A slot that already holds the address ends the probing. */
  lemma TryDuplicate(c: Site, f: Machine -> Machine, y: Layout, m: Machine, i: nat) returns (m': Machine)
    requires Implements(f, c)
    requires LayoutOk(c, y) && Mapped(c, y, m.mem)
    requires m.pc == TRY && m.table == y.base && i < Pow2(c.k) && m.rax == 8 * i
    requires SlotAt(y, m.mem, i) == m.dest != 0
    ensures Reaches(f, m, m') && m'.pc == REMAINING
    ensures m'.table == y.base + 8 * i && m'.rax == m.rax && m'.dest == m.dest && m'.range == m.range
    ensures m'.cnt == m.cnt && m'.rsp == m.rsp && m'.mem == m.mem
  {
    m' := TryOccupied(c, f, y, m, i);
    ReachesStep(f, m, m'); m' := Step(c, m');
  }

  /** A slot taken by another address sends the probe to the next one, around the end. */
  lemma TryTaken(c: Site, f: Machine -> Machine, y: Layout, m: Machine, i: nat) returns (m': Machine)
    requires Implements(f, c)
    requires LayoutOk(c, y) && Mapped(c, y, m.mem)
    requires m.pc == TRY && m.table == y.base && i < Pow2(c.k) && m.rax == 8 * i
    requires SlotAt(y, m.mem, i) != 0 && SlotAt(y, m.mem, i) != m.dest
    ensures Reaches(f, m, m') && m'.pc == TRY && Same(m, m')
    ensures m'.rax == 8 * (if i + 1 == Pow2(c.k) then 0 else i + 1)
  {
    var o := TryOccupied(c, f, y, m, i);
    m' := NextIndex(c, f, y, o, i);
    ReachesTrans(f, m, o, m');
  }

  lemma NextIndex(c: Site, f: Machine -> Machine, y: Layout, m: Machine, i: nat) returns (m': Machine)
    requires Implements(f, c)
    requires LayoutOk(c, y) && i < Pow2(c.k)
    requires m.pc == NEXT_INDEX && m.table == y.base + 8 * i && m.rax == 8 * i
    ensures Reaches(f, m, m') && m'.pc == TRY && Same(m.(table := y.base), m')
    ensures m'.rax == 8 * (if i + 1 == Pow2(c.k) then 0 else i + 1)
  {
    ReachesRefl(f, m);
    m' := m;
    ReachesStep(f, m, m'); m' := Step(c, m');
    ReachesStep(f, m, m'); m' := Step(c, m');
    assert m'.pc == 30 && m'.table == y.base && m'.rax == 8 * i + 8;
    var n := WrapIndex(c, f, y, m', i);
    ReachesTrans(f, m, m', n);
    m' := n;
  }

  lemma WrapIndex(c: Site, f: Machine -> Machine, y: Layout, m: Machine, i: nat) returns (m': Machine)
    requires Implements(f, c)
    requires LayoutOk(c, y) && i < Pow2(c.k) && m.pc == 30 && m.rax == 8 * i + 8
    ensures Reaches(f, m, m') && m'.pc == TRY && Same(m, m')
    ensures m'.rax == 8 * (if i + 1 == Pow2(c.k) then 0 else i + 1)
  {
    ReachesRefl(f, m);
    m' := m;
    ReachesStep(f, m, m'); m' := Step(c, m');
    ReachesStep(f, m, m'); m' := Step(c, m');
    if i + 1 == Pow2(c.k) {
      assert m'.pc == 32;
      ReachesStep(f, m, m'); m' := Step(c, m');
      ReachesStep(f, m, m'); m' := Step(c, m');
      ReachesStep(f, m, m'); m' := Step(c, m');
    }
  }

  /** After a block the table pointer is restored and the loop head is next. */
  lemma Advance(c: Site, f: Machine -> Machine, y: Layout, m: Machine) returns (m': Machine)
    requires Implements(f, c)
    requires m.pc == REMAINING && m.table == y.base + m.rax && y.base < SIGN && m.dest + 32 < WORD
    ensures Reaches(f, m, m') && m'.pc == LOOP && m'.table == y.base && m'.dest == m.dest + 32
    ensures m'.range == m.range && m'.cnt == m.cnt && m'.rsp == m.rsp && m'.mem == m.mem
  {
    ReachesRefl(f, m);
    m' := m;
    ReachesStep(f, m, m'); m' := Step(c, m');
    ReachesStep(f, m, m'); m' := Step(c, m');
    ReachesStep(f, m, m'); m' := Step(c, m');
    ReachesStep(f, m, m'); m' := Step(c, m');
  }
}
