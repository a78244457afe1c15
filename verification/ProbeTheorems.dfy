/** What every run of the emitted list does. */
module ProbeTheorems {
  import opened Bits
  import opened Blocks
  import opened OpenAddressing
  import opened ProbeProgram
  import opened ProbeBlocks
  import opened ProbeRefinement

  function Stepper(c: Site): Machine -> Machine {
    m => Step(c, m)
  }

  /** The machine after `n` instructions. */
  function Run(c: Site, m: Machine, n: nat): Machine {
    Iterate(Stepper(c), m, n)
  }

  ghost predicate Terminates(c: Site, m: Machine) {
    exists n: nat :: Run(c, m, n).pc == RESTORE
  }

  /** The per-thread block, reached through the reserved register on entry. */
  ghost predicate Thread(c: Site, y: Layout, m: Machine) {
    && m.pc == 0
    && m.table + c.combinerOff < WORD && m.table + c.combinerOff in m.mem
    && m.table + c.counterOff < WORD && m.table + c.counterOff in m.mem
    && m.table + c.entriesOff < WORD && m.table + c.entriesOff in m.mem
    && m.mem[m.table + c.counterOff] == y.cell
    && m.mem[m.table + c.entriesOff] == y.base
  }

  /** A store of at least one byte to a tracked address, below the non-canonical half. */
  ghost predicate Tracked(c: Site) {
    c.size > 0 && PAYLOAD_SIZE <= c.addr && c.addr + c.size + PAYLOAD_SIZE < SIGN
  }

  predicate Combining(c: Site, m: Machine)
    requires m.table + c.combinerOff in m.mem
  {
    m.mem[m.table + c.combinerOff] != 0
  }

  lemma Entry(c: Site, f: Machine -> Machine, y: Layout, m: Machine) returns (m': Machine)
    requires Implements(f, c) && Thread(c, y, m) && Combining(c, m) && Ready(c, y, m.mem) && Tracked(c)
    ensures Reaches(f, m, m') && Covering(c, f, y, m') && m'.mem == m.mem
    ensures m'.dest == BlockOf(c.addr) && m'.range == c.addr + c.size
  {
    var a := EntryTest(c, f, m);
    var b := EntryLoads(c, f, y, a);
    m' := EntryAlign(c, f, b);
    ReachesTrans(f, m, a, b);
    ReachesTrans(f, m, b, m');
  }

  lemma FitsIsTotal(c: Site, y: Layout, m: Machine, e: Machine)
    requires c.size > 0 && e.mem == m.mem && e.dest == BlockOf(c.addr) && e.range == c.addr + c.size
    ensures BlocksBetween(e.dest, e.range) == Touched(c.addr, c.size)
    ensures Fits(c, y, e) <==> |Stored(c, y, m.mem) + Touched(c.addr, c.size)| <= Pow2(c.k)
  {
    TouchedIsBetween(c.addr, c.size);
  }

  /** A thread that is not combining records nothing. */
  lemma IdleRecordsNothing(c: Site, y: Layout, m: Machine) returns (n: nat)
    requires Thread(c, y, m) && !Combining(c, m)
    ensures Run(c, m, n).pc == RESTORE && Run(c, m, n).mem == m.mem
  {
    var m' := EntryIdle(c, Stepper(c), m);
    n :| Iterate(Stepper(c), m, n) == m';
  }

  /** Every store of a combining thread adds exactly the blocks it touches. */
  lemma TrackingRefines(c: Site, y: Layout, m: Machine) returns (n: nat)
    requires Thread(c, y, m) && Combining(c, m) && Ready(c, y, m.mem) && Tracked(c)
    requires |Stored(c, y, m.mem) + Touched(c.addr, c.size)| <= Pow2(c.k)
    ensures Run(c, m, n).pc == RESTORE
    ensures Recorded(c, y, m.mem, Run(c, m, n).mem, Touched(c.addr, c.size))
  {
    var m' := TrackingCode(c, Stepper(c), y, m);
    n :| Iterate(Stepper(c), m, n) == m';
  }

  lemma TrackingCode(c: Site, f: Machine -> Machine, y: Layout, m: Machine) returns (m': Machine)
    requires Implements(f, c) && Thread(c, y, m) && Combining(c, m) && Ready(c, y, m.mem) && Tracked(c)
    requires |Stored(c, y, m.mem) + Touched(c.addr, c.size)| <= Pow2(c.k)
    ensures Reaches(f, m, m') && m'.pc == RESTORE && Recorded(c, y, m.mem, m'.mem, Touched(c.addr, c.size))
  {
    var e := Entry(c, f, y, m);
    FitsIsTotal(c, y, m, e);
    m' := Cover(c, f, y, e);
    ReachesTrans(f, m, e, m');
  }

  /** The table pointer relative to its base, at each instruction. */
  predicate PointerOk(c: Site, start: Machine, base: nat, m: Machine) {
    if m.pc <= 6 then m.table == start.table && m.mem == start.mem
    else if m.pc < 18 || 29 <= m.pc < 35 || 36 <= m.pc < 39 then m.table == base
    else if m.pc < 29 || m.pc == 35 then m.table == Wrap(base + m.rax)
    else m.pc == RESTORE || m.pc == FAULT
  }

  ghost predicate Pointed(c: Site, start: Machine, base: nat) {
    Wrap(start.table + c.entriesOff) in start.mem && start.mem[Wrap(start.table + c.entriesOff)] == base < WORD
  }

  lemma PointerEntry(c: Site, start: Machine, base: nat, m: Machine)
    requires Pointed(c, start, base) && PointerOk(c, start, base, m) && m.pc < 11
    ensures PointerOk(c, start, base, Step(c, m))
  {}

  lemma PointerProbe(c: Site, start: Machine, base: nat, m: Machine)
    requires base < WORD && PointerOk(c, start, base, m) && 11 <= m.pc < 25
    ensures PointerOk(c, start, base, Step(c, m))
  {}

  lemma PointerBack(c: Site, start: Machine, base: nat, m: Machine)
    requires base < WORD && PointerOk(c, start, base, m) && 25 <= m.pc < 35
    ensures PointerOk(c, start, base, Step(c, m))
  {}

  lemma PointerTail(c: Site, start: Machine, base: nat, m: Machine)
    requires base < WORD && PointerOk(c, start, base, m) && 35 <= m.pc
    ensures PointerOk(c, start, base, Step(c, m))
  {}

  /**
   Whatever the memory holds, the table pointer is back at its base whenever the outer loop head
   is reached, and the two jumps emitted behind the back-jump are never executed.
   */
  lemma {:induction false} TablePointerAtBase(c: Site, m: Machine, base: nat, n: nat)
    requires m.pc == 0 && Pointed(c, m, base)
    ensures PointerOk(c, m, base, Run(c, m, n))
    ensures Run(c, m, n).pc == LOOP ==> Run(c, m, n).table == base
    ensures Run(c, m, n).pc <= 38 || Run(c, m, n).pc == RESTORE || Run(c, m, n).pc == FAULT
  {
    if n > 0 {
      TablePointerAtBase(c, m, base, n - 1);
      var b := Run(c, m, n - 1);
      if b.pc < 11 {
        PointerEntry(c, m, base, b);
      } else if b.pc < 25 {
        PointerProbe(c, m, base, b);
      } else if b.pc < 35 {
        PointerBack(c, m, base, b);
      } else {
        PointerTail(c, m, base, b);
      }
    }
  }

  /** Every slot is taken by another address, and the machine is in the probing loop. */
  ghost predicate Stuck(c: Site, y: Layout, m: Machine) {
    && LayoutOk(c, y) && Mapped(c, y, m.mem)
    && (forall i | 0 <= i < Pow2(c.k) :: SlotAt(y, m.mem, i) != 0 && SlotAt(y, m.mem, i) != m.dest)
    && InProbing(c, y, m)
  }

  /** The registers at each instruction of the probing loop that a full table can reach. */
  ghost predicate InProbing(c: Site, y: Layout, m: Machine) {
    && (17 <= m.pc <= 20 || m.pc == 25 || m.pc == 26 || 28 <= m.pc <= 34)
    && m.table == y.base + (if 18 <= m.pc <= 28 then m.rax else 0)
    && (m.pc <= 29 ==> Index(c, m.rax) && (m.pc >= 19 ==> m.val == SlotAt(y, m.mem, m.rax / 8)))
    && (m.pc == 20 ==> m.left == m.val && m.right == 0)
    && (m.pc == 26 ==> m.left == m.val && m.right == m.dest)
    && (30 <= m.pc <= 31 ==> m.rax >= 8 && Index(c, m.rax - 8))
    && (m.pc == 31 ==> m.left == m.rax && m.right == c.limit)
    && (m.pc == 34 ==> m.rax == 0)
  }

  predicate Index(c: Site, x: int) {
    0 <= x < 8 * Pow2(c.k) && x % 8 == 0
  }

  lemma StuckAdd(c: Site, y: Layout, m: Machine)
    requires Stuck(c, y, m) && m.pc == 17
    ensures Stuck(c, y, Step(c, m))
  {}

  lemma StuckLoad(c: Site, y: Layout, m: Machine)
    requires Stuck(c, y, m) && m.pc == 18
    ensures Stuck(c, y, Step(c, m))
  {
    assert m.rax == 8 * (m.rax / 8);
  }

  lemma StuckProbe(c: Site, y: Layout, m: Machine)
    requires Stuck(c, y, m) && 19 <= m.pc < 25
    ensures Stuck(c, y, Step(c, m))
  {
    assert SlotAt(y, m.mem, m.rax / 8) != 0;
  }

  lemma StuckCompare(c: Site, y: Layout, m: Machine)
    requires Stuck(c, y, m) && 25 <= m.pc < 28
    ensures Stuck(c, y, Step(c, m))
  {
    assert SlotAt(y, m.mem, m.rax / 8) != m.dest;
  }

  lemma StuckBack(c: Site, y: Layout, m: Machine)
    requires Stuck(c, y, m) && m.pc == 28
    ensures Stuck(c, y, Step(c, m))
  {}

  lemma StuckOn(c: Site, y: Layout, m: Machine)
    requires Stuck(c, y, m) && m.pc == 29
    ensures Stuck(c, y, Step(c, m))
  {}

  lemma StuckNext(c: Site, y: Layout, m: Machine)
    requires Stuck(c, y, m) && m.pc >= 30
    ensures Stuck(c, y, Step(c, m))
  {}

  lemma StuckStep(c: Site, y: Layout, m: Machine)
    requires Stuck(c, y, m)
    ensures Stuck(c, y, Step(c, m))
  {
    if m.pc == 17 {
      StuckAdd(c, y, m);
    } else if m.pc == 18 {
      StuckLoad(c, y, m);
    } else if m.pc < 25 {
      StuckProbe(c, y, m);
    } else if m.pc < 28 {
      StuckCompare(c, y, m);
    } else if m.pc == 28 {
      StuckBack(c, y, m);
    } else if m.pc == 29 {
      StuckOn(c, y, m);
    } else {
      StuckNext(c, y, m);
    }
  }

  lemma {:induction false} StuckForever(c: Site, f: Machine -> Machine, y: Layout, m: Machine, n: nat)
    requires Implements(f, c) && Stuck(c, y, m)
    ensures Stuck(c, y, Iterate(f, m, n))
  {
    if n > 0 {
      StuckForever(c, f, y, m, n - 1);
      StuckStep(c, y, Iterate(f, m, n - 1));
    }
  }

  lemma {:induction false} FullMeansTaken(t: seq<nat>)
    requires Occupied(t) == |t|
    ensures forall i | 0 <= i < |t| :: t[i] != 0
  {
    if t != [] {
      OccupiedFits(t[..|t| - 1]);
      FullMeansTaken(t[..|t| - 1]);
      assert forall i | 0 <= i < |t| - 1 :: t[i] == t[..|t| - 1][i];
    }
  }

  lemma NoRoomMeansTaken(t: seq<nat>, a: nat)
    requires !HasRoom(t, a) && a != 0
    ensures forall i | 0 <= i < |t| :: t[i] != 0 && t[i] != a
  {
    OccupiedFits(t);
    FullMeansTaken(t);
  }

  /** Probing for an address that has no room begins. */
  lemma EnterStuck(c: Site, f: Machine -> Machine, y: Layout, m: Machine) returns (m': Machine)
    requires Covering(c, f, y, m) && m.dest < m.range && !HasRoom(TableOf(c, y, m.mem), m.dest)
    ensures Reaches(f, m, m') && Stuck(c, y, m')
  {
    SlotsTaken(c, y, m.mem, m.dest);
    m' := LoopEnter(c, f, m);
  }

  lemma SlotsTaken(c: Site, y: Layout, mem: map<nat, nat>, a: nat)
    requires !HasRoom(TableOf(c, y, mem), a) && a != 0
    ensures forall i | 0 <= i < Pow2(c.k) :: SlotAt(y, mem, i) != 0 && SlotAt(y, mem, i) != a
  {
    var t := TableOf(c, y, mem);
    NoRoomMeansTaken(t, a);
    forall i | 0 <= i < Pow2(c.k) ensures SlotAt(y, mem, i) != 0 && SlotAt(y, mem, i) != a {
      assert t[i] == SlotAt(y, mem, i);
    }
  }

  lemma DoneMeansFits(c: Site, f: Machine -> Machine, y: Layout, m: Machine)
    requires Covering(c, f, y, m) && m.dest >= m.range
    ensures Fits(c, y, m)
  {
    RoomIff(TableOf(c, y, m.mem), m.dest);
    assert Stored(c, y, m.mem) + BlocksBetween(m.dest, m.range) == Stored(c, y, m.mem);
  }

  lemma {:induction false} CoverStuck(c: Site, f: Machine -> Machine, y: Layout, m: Machine) returns (m': Machine)
    requires Covering(c, f, y, m) && !Fits(c, y, m)
    ensures Reaches(f, m, m') && Stuck(c, y, m')
    decreases m.range + PAYLOAD_SIZE - m.dest
  {
    if m.dest >= m.range {
      DoneMeansFits(c, f, y, m);
    } else if HasRoom(TableOf(c, y, m.mem), m.dest) {
      var n := CoverTurn(c, f, y, m);
      m' := CoverStuck(c, f, y, n);
      ReachesTrans(f, m, n, m');
    } else {
      m' := EnterStuck(c, f, y, m);
    }
  }

  lemma OverflowCode(c: Site, f: Machine -> Machine, y: Layout, m: Machine) returns (m': Machine)
    requires Implements(f, c) && Thread(c, y, m) && Combining(c, m) && Ready(c, y, m.mem) && Tracked(c)
    requires |Stored(c, y, m.mem) + Touched(c.addr, c.size)| > Pow2(c.k)
    ensures Reaches(f, m, m') && Stuck(c, y, m')
  {
    var e := Entry(c, f, y, m);
    FitsIsTotal(c, y, m, e);
    m' := CoverStuck(c, f, y, e);
    ReachesTrans(f, m, e, m');
  }

  lemma HaltFixed(c: Site, m: Machine)
    requires m.pc == RESTORE
    ensures Step(c, m) == m
  {}

  lemma HaltStays(c: Site, f: Machine -> Machine, m: Machine, n: nat, j: nat)
    requires Implements(f, c) && Iterate(f, m, n).pc == RESTORE
    ensures Iterate(f, m, n + j).pc == RESTORE
  {
    HaltFixed(c, Iterate(f, m, n));
    FixedStays(f, m, n, j);
  }

  lemma OverflowNeverEnds(c: Site, y: Layout, m: Machine, n: nat)
    requires Thread(c, y, m) && Combining(c, m) && Ready(c, y, m.mem) && Tracked(c)
    requires |Stored(c, y, m.mem) + Touched(c.addr, c.size)| > Pow2(c.k)
    ensures Run(c, m, n).pc != RESTORE
  {
    var s := OverflowCode(c, Stepper(c), y, m);
    StuckExcludesHalt(c, y, m, s, n);
  }

  lemma StuckExcludesHalt(c: Site, y: Layout, m: Machine, s: Machine, n: nat)
    requires Reaches(Stepper(c), m, s) && Stuck(c, y, s)
    ensures Run(c, m, n).pc != RESTORE
  {
    var i: nat :| Iterate(Stepper(c), m, i) == s;
    IterateAdd(Stepper(c), m, i, n);
    StuckForever(c, Stepper(c), y, s, n);
    if Run(c, m, n).pc == RESTORE {
      HaltStays(c, Stepper(c), m, n, i);
    }
  }

  /**
   Nothing in the emitted code checks for a full table: a store returns to the program exactly
   when the blocks recorded so far and the blocks it touches fit in the table together.
   */
  lemma TrackingTerminatesIff(c: Site, y: Layout, m: Machine)
    requires Thread(c, y, m) && Combining(c, m) && Ready(c, y, m.mem) && Tracked(c)
    ensures Terminates(c, m) <==> |Stored(c, y, m.mem) + Touched(c.addr, c.size)| <= Pow2(c.k)
  {
    if |Stored(c, y, m.mem) + Touched(c.addr, c.size)| <= Pow2(c.k) {
      var n := TrackingRefines(c, y, m);
    } else {
      forall n: nat ensures Run(c, m, n).pc != RESTORE {
        OverflowNeverEnds(c, y, m, n);
      }
    }
  }
}
