/**
 The emitted list refines set insertion: a terminating run adds exactly the blocks of the written
 range, and it terminates exactly when they fit.
 */
module ProbeRefinement {
  import opened Bits
  import opened Blocks
  import opened OpenAddressing
  import opened ProbeProgram
  import opened ProbeBlocks

  /** The table as the collector sees it. */
  function TableOf(c: Site, y: Layout, mem: map<nat, nat>): (t: seq<nat>)
    ensures |t| == Pow2(c.k)
  {
    seq(Pow2(c.k), i requires 0 <= i < Pow2(c.k) => SlotAt(y, mem, i))
  }

  function Stored(c: Site, y: Layout, mem: map<nat, nat>): set<nat> {
    Contents(TableOf(c, y, mem))
  }

  predicate InTable(c: Site, y: Layout, x: nat) {
    y.base <= x < y.base + 8 * Pow2(c.k) && (x - y.base) % 8 == 0
  }

  ghost predicate Ready(c: Site, y: Layout, mem: map<nat, nat>) {
    LayoutOk(c, y) && Mapped(c, y, mem) && TableOk(TableOf(c, y, mem)) && mem[y.cell] < WORD
  }

  /** Only the table and the counter differ. */
  ghost predicate Frame(c: Site, y: Layout, mem: map<nat, nat>, mem': map<nat, nat>) {
    && mem'.Keys == mem.Keys
    && forall x | x in mem && x != y.cell && !InTable(c, y, x) :: mem'[x] == mem[x]
  }

  /** The counter went up by the number of elements gained. */
  predicate Counted(n: nat, n': nat, s: set<nat>, s': set<nat>) {
    n' == Wrap(n + |s'| - |s|)
  }

  /** From `mem` to `mem'` the blocks `added` were recorded and nothing else changed. */
  ghost predicate Recorded(c: Site, y: Layout, mem: map<nat, nat>, mem': map<nat, nat>, added: set<nat>)
    requires y.cell in mem
  {
    && Ready(c, y, mem')
    && Stored(c, y, mem') == Stored(c, y, mem) + added
    && Counted(mem[y.cell], mem'[y.cell], Stored(c, y, mem), Stored(c, y, mem'))
    && Frame(c, y, mem, mem')
  }

  lemma RecordedTrans(c: Site, y: Layout, m0: map<nat, nat>, m1: map<nat, nat>, m2: map<nat, nat>, a: set<nat>, b: set<nat>)
    requires y.cell in m0 && Recorded(c, y, m0, m1, a) && Recorded(c, y, m1, m2, b)
    ensures Recorded(c, y, m0, m2, a + b)
  {
    FrameTrans(c, y, m0, m1, m2);
    CountedTrans(m0[y.cell], m1[y.cell], m2[y.cell], Stored(c, y, m0), Stored(c, y, m1), Stored(c, y, m2));
  }

  lemma FrameTrans(c: Site, y: Layout, m0: map<nat, nat>, m1: map<nat, nat>, m2: map<nat, nat>)
    requires Frame(c, y, m0, m1) && Frame(c, y, m1, m2)
    ensures Frame(c, y, m0, m2)
  {}

  lemma CountedTrans(n0: nat, n1: nat, n2: nat, s0: set<nat>, s1: set<nat>, s2: set<nat>)
    requires Counted(n0, n1, s0, s1) && Counted(n1, n2, s1, s2)
    ensures Counted(n0, n2, s0, s2)
  {}

  lemma RecordedNothing(c: Site, y: Layout, mem: map<nat, nat>, added: set<nat>)
    requires Ready(c, y, mem) && added <= Stored(c, y, mem)
    ensures Recorded(c, y, mem, mem, added)
  {
    assert Stored(c, y, mem) + added == Stored(c, y, mem);
  }

  /** Writing slot `i` and the counter writes one element of the table. */
  lemma TableAfterStore(c: Site, y: Layout, mem: map<nat, nat>, i: nat, a: nat, n: nat)
    requires LayoutOk(c, y) && Mapped(c, y, mem) && i < Pow2(c.k)
    ensures var mem' := mem[y.base + 8 * i := a][y.cell := n];
            && Mapped(c, y, mem') && mem'[y.cell] == n && Frame(c, y, mem, mem')
            && TableOf(c, y, mem') == TableOf(c, y, mem)[i := a]
  {
    assert InTable(c, y, y.base + 8 * i);
  }

  /** Storing `a` in slot `i`, when the table gains it there. */
  lemma RecordedOne(c: Site, y: Layout, mem: map<nat, nat>, mem': map<nat, nat>, a: nat)
    requires y.cell in mem && Ready(c, y, mem') && Frame(c, y, mem, mem')
    requires Stored(c, y, mem') == Stored(c, y, mem) + {a}
    requires Counted(mem[y.cell], mem'[y.cell], Stored(c, y, mem), Stored(c, y, mem'))
    ensures Recorded(c, y, mem, mem', {a})
  {}

  lemma GainsOne(n: nat, n': nat, s: set<nat>, s': set<nat>)
    requires n' == Wrap(n + 1) && |s'| == |s| + 1
    ensures Counted(n, n', s, s')
  {}

  /** The registers at the two loop heads. */
  ghost predicate AtHead(c: Site, y: Layout, m: Machine) {
    Ready(c, y, m.mem) && m.table == y.base && m.rsp == y.cell && m.cnt == m.mem[y.cell]
  }

  /** The probing ended with the address recorded. */
  ghost predicate Probed(c: Site, y: Layout, m: Machine, m': Machine)
    requires y.cell in m.mem
  {
    && m'.pc == REMAINING && m'.dest == m.dest && m'.range == m.range
    && m'.table == y.base + m'.rax && m'.rsp == y.cell
    && Recorded(c, y, m.mem, m'.mem, {m.dest}) && m'.cnt == m'.mem[y.cell]
  }

  lemma ProbeFree(c: Site, f: Machine -> Machine, y: Layout, m: Machine, d: nat, i: nat) returns (m': Machine)
    requires Implements(f, c) && AtHead(c, y, m) && m.pc == TRY && m.dest != 0
    requires d < Pow2(c.k) && Collided(TableOf(c, y, m.mem), m.dest, d)
    requires i == Probe(Pow2(c.k), Home(Pow2(c.k), m.dest), d) && m.rax == 8 * i
    requires TableOf(c, y, m.mem)[i] == 0
    ensures Reaches(f, m, m') && Probed(c, y, m, m')
  {
    m' := TryFree(c, f, y, m, i);
    FreeRecorded(c, y, m.mem, m'.mem, m.dest, d, i);
  }

  lemma FreeRecorded(c: Site, y: Layout, mem: map<nat, nat>, mem': map<nat, nat>, a: nat, d: nat, i: nat)
    requires Ready(c, y, mem) && a != 0 && d < Pow2(c.k) && Collided(TableOf(c, y, mem), a, d)
    requires i == Probe(Pow2(c.k), Home(Pow2(c.k), a), d) && TableOf(c, y, mem)[i] == 0
    requires mem' == mem[y.base + 8 * i := a][y.cell := Wrap(mem[y.cell] + 1)]
    ensures Recorded(c, y, mem, mem', {a}) && mem'[y.cell] == Wrap(mem[y.cell] + 1)
  {
    TableAfterStore(c, y, mem, i, a, Wrap(mem[y.cell] + 1));
    StoredRecorded(c, y, mem, mem', a, d, i);
  }

  /** A table that has taken `a` in its free slot, and a counter one up. */
  lemma StoredRecorded(c: Site, y: Layout, mem: map<nat, nat>, mem': map<nat, nat>, a: nat, d: nat, i: nat)
    requires Ready(c, y, mem) && a != 0 && d < Pow2(c.k) && Collided(TableOf(c, y, mem), a, d)
    requires i == Probe(Pow2(c.k), Home(Pow2(c.k), a), d) && TableOf(c, y, mem)[i] == 0
    requires Mapped(c, y, mem') && mem'[y.cell] == Wrap(mem[y.cell] + 1) && Frame(c, y, mem, mem')
    requires TableOf(c, y, mem') == TableOf(c, y, mem)[i := a]
    ensures Recorded(c, y, mem, mem', {a})
  {
    TableGains(TableOf(c, y, mem), TableOf(c, y, mem'), a, d, mem[y.cell], mem'[y.cell]);
    ReadyAgain(c, y, mem, mem');
    RecordedOne(c, y, mem, mem', a);
  }

  lemma TableGains(t: seq<nat>, t': seq<nat>, a: nat, d: nat, n: nat, n': nat)
    requires TableOk(t) && a != 0 && d < |t| && Collided(t, a, d) && n' == Wrap(n + 1)
    requires t[Probe(|t|, Home(|t|, a), d)] == 0 && t' == t[Probe(|t|, Home(|t|, a), d) := a]
    ensures TableOk(t') && Contents(t') == Contents(t) + {a} && Counted(n, n', Contents(t), Contents(t'))
  {
    InsertGains(t, t', a, d);
    GainsOne(n, n', Contents(t), Contents(t'));
  }

  lemma ReadyAgain(c: Site, y: Layout, mem: map<nat, nat>, mem': map<nat, nat>)
    requires Ready(c, y, mem) && Mapped(c, y, mem') && mem'[y.cell] < WORD && TableOk(TableOf(c, y, mem'))
    ensures Ready(c, y, mem')
  {}

  lemma ProbeEqual(c: Site, f: Machine -> Machine, y: Layout, m: Machine, i: nat) returns (m': Machine)
    requires Implements(f, c) && AtHead(c, y, m) && m.pc == TRY && m.dest != 0
    requires i < Pow2(c.k) && m.rax == 8 * i && TableOf(c, y, m.mem)[i] == m.dest
    ensures Reaches(f, m, m') && Probed(c, y, m, m')
  {
    m' := TryDuplicate(c, f, y, m, i);
    assert m.dest in TableOf(c, y, m.mem);
    RecordedNothing(c, y, m.mem, {m.dest});
  }

  lemma ProbeMiss(c: Site, f: Machine -> Machine, y: Layout, m: Machine, i: nat) returns (m': Machine)
    requires Implements(f, c) && AtHead(c, y, m) && m.pc == TRY
    requires i < Pow2(c.k) && m.rax == 8 * i && TableOf(c, y, m.mem)[i] != 0 && TableOf(c, y, m.mem)[i] != m.dest
    ensures Reaches(f, m, m') && m'.pc == TRY && Same(m, m')
    ensures m'.rax == 8 * (if i + 1 == Pow2(c.k) then 0 else i + 1)
  {
    assert TableOf(c, y, m.mem)[i] == SlotAt(y, m.mem, i);
    m' := TryTaken(c, f, y, m, i);
  }

  /** The inner loop ends with the address recorded. */
  lemma {:induction false} ProbeLoop(c: Site, f: Machine -> Machine, y: Layout, m: Machine, d: nat) returns (m': Machine)
    requires Implements(f, c) && AtHead(c, y, m) && m.pc == TRY && m.dest != 0
    requires d < Pow2(c.k) && Collided(TableOf(c, y, m.mem), m.dest, d) && HasRoom(TableOf(c, y, m.mem), m.dest)
    requires m.rax == 8 * Probe(Pow2(c.k), Home(Pow2(c.k), m.dest), d)
    ensures Reaches(f, m, m') && Probed(c, y, m, m')
    decreases Pow2(c.k) - d
  {
    var t, i := TableOf(c, y, m.mem), Probe(Pow2(c.k), Home(Pow2(c.k), m.dest), d);
    if t[i] == 0 {
      m' := ProbeFree(c, f, y, m, d, i);
    } else if t[i] == m.dest {
      m' := ProbeEqual(c, f, y, m, i);
    } else {
      var n := ProbeMiss(c, f, y, m, i);
      ProbeOn(t, m.dest, d);
      m' := ProbeLoop(c, f, y, n, d + 1);
      ReachesTrans(f, m, n, m');
    }
  }

  /** One turn of the outer loop. */
  lemma OneBlock(c: Site, f: Machine -> Machine, y: Layout, m: Machine) returns (m': Machine)
    requires Implements(f, c) && AtHead(c, y, m) && m.pc == LOOP && 0 < m.dest < m.range < SIGN
    requires HasRoom(TableOf(c, y, m.mem), m.dest)
    ensures Reaches(f, m, m') && AtHead(c, y, m') && m'.pc == LOOP
    ensures m'.dest == m.dest + PAYLOAD_SIZE && m'.range == m.range
    ensures Recorded(c, y, m.mem, m'.mem, {m.dest})
  {
    var e := LoopEnter(c, f, m);
    HomeIsMod(Pow2(c.k), m.dest);
    var p := ProbeLoop(c, f, y, e, 0);
    m' := Advance(c, f, y, p);
    ReachesTrans(f, m, e, p);
    ReachesTrans(f, m, p, m');
  }

  /** The blocks still to come fit beside those stored. */
  ghost predicate Fits(c: Site, y: Layout, m: Machine) {
    |Stored(c, y, m.mem) + BlocksBetween(m.dest, m.range)| <= Pow2(c.k)
  }

  ghost predicate Covering(c: Site, f: Machine -> Machine, y: Layout, m: Machine) {
    && Implements(f, c) && AtHead(c, y, m) && m.pc == LOOP
    && IsBlock(m.dest) && m.dest > 0 && m.range + PAYLOAD_SIZE < SIGN && m.dest < SIGN
  }

  lemma NextBlock(c: Site, y: Layout, m: Machine, m': Machine)
    requires IsBlock(m.dest) && m.dest < m.range && m'.dest == m.dest + PAYLOAD_SIZE && m'.range == m.range
    requires Stored(c, y, m'.mem) == Stored(c, y, m.mem) + {m.dest}
    ensures IsBlock(m'.dest) && (Fits(c, y, m') <==> Fits(c, y, m))
  {
    SameTotal(Stored(c, y, m.mem), Stored(c, y, m'.mem), m.dest, m.range);
  }

  /** One turn, with what the next turn needs. */
  lemma CoverTurn(c: Site, f: Machine -> Machine, y: Layout, m: Machine) returns (m': Machine)
    requires Covering(c, f, y, m) && m.dest < m.range && HasRoom(TableOf(c, y, m.mem), m.dest)
    ensures Reaches(f, m, m') && Covering(c, f, y, m') && (Fits(c, y, m') <==> Fits(c, y, m))
    ensures m'.dest == m.dest + PAYLOAD_SIZE && m'.range == m.range
    ensures y.cell in m.mem && Recorded(c, y, m.mem, m'.mem, {m.dest})
  {
    m' := OneBlock(c, f, y, m);
    NextBlock(c, y, m, m');
  }

  lemma CoverEnd(c: Site, f: Machine -> Machine, y: Layout, m: Machine) returns (m': Machine)
    requires Covering(c, f, y, m) && m.dest >= m.range
    ensures Reaches(f, m, m') && m'.pc == RESTORE
    ensures y.cell in m.mem && Recorded(c, y, m.mem, m'.mem, BlocksBetween(m.dest, m.range))
  {
    m' := LoopExit(c, f, m);
    assert BlocksBetween(m.dest, m.range) == {};
    RecordedNothing(c, y, m.mem, {});
  }

  lemma RecordedTurn(c: Site, y: Layout, m0: map<nat, nat>, m1: map<nat, nat>, m2: map<nat, nat>, lo: nat, hi: nat)
    requires IsBlock(lo) && lo < hi
    requires y.cell in m0 && Recorded(c, y, m0, m1, {lo})
    requires Recorded(c, y, m1, m2, BlocksBetween(lo + PAYLOAD_SIZE, hi))
    ensures Recorded(c, y, m0, m2, BlocksBetween(lo, hi))
  {
    RecordedTrans(c, y, m0, m1, m2, {lo}, BlocksBetween(lo + PAYLOAD_SIZE, hi));
    BlocksSplit(lo, hi);
  }

  /** The outer loop records every block of the range that is left. */
  lemma {:induction false} Cover(c: Site, f: Machine -> Machine, y: Layout, m: Machine) returns (m': Machine)
    requires Covering(c, f, y, m) && Fits(c, y, m)
    ensures Reaches(f, m, m') && m'.pc == RESTORE
    ensures y.cell in m.mem && Recorded(c, y, m.mem, m'.mem, BlocksBetween(m.dest, m.range))
    decreases m.range + PAYLOAD_SIZE - m.dest
  {
    if m.dest >= m.range {
      m' := CoverEnd(c, f, y, m);
    } else {
      RoomAtHead(TableOf(c, y, m.mem), m.dest, m.range);
      var n := CoverTurn(c, f, y, m);
      m' := Cover(c, f, y, n);
      ReachesTrans(f, m, n, m');
      RecordedTurn(c, y, m.mem, n.mem, m'.mem, m.dest, m.range);
    }
  }
}
