/**
 A combiner's batch on the emitted code: in front of each store the thread runs the list that was
 emitted for it, and at the end the table in its memory, with the memcpy array, covers the batch.
 */
module EmittedBatch {
  import opened Bits
  import opened RedoLog
  import opened Blocks
  import opened OpenAddressing
  import opened Collection
  import opened FrontEnd
  import opened Transaction
  import opened ProbeProgram
  import opened ProbeBlocks
  import opened ProbeRefinement
  import PT = ProbeTheorems
  import opened Stops

  /** The memory in which a thread keeps its table and its counter. */
  type Words = map<nat, nat>

  /** The list emitted for a store of `size` bytes at `addr`. */
  function SiteOf(c: Site, addr: nat, size: nat): Site {
    c.(addr := addr, size := size)
  }

  /** A combining thread enters the list with `w` and leaves it with `w'`. */
  ghost predicate RanFrom(c: Site, y: Layout, m: Machine, n: nat, w: Words, w': Words) {
    && m.mem == w && PT.Thread(c, y, m) && PT.Combining(c, m)
    && PT.Run(c, m, n).pc == RESTORE && PT.Run(c, m, n).mem == w'
  }

  ghost predicate Ran(c: Site, y: Layout, w: Words, w': Words) {
    exists m, n :: RanFrom(c, y, m, n, w, w')
  }

  /** What an operation does to the thread's table; a memcpy runs no list. */
  ghost predicate OpRan(c: Site, y: Layout, op: Op, w: Words, w': Words) {
    match op
    case StoreOp(addr, bytes) => Ran(SiteOf(c, addr, |bytes|), y, w, w')
    case CopyOp(_, _, _) => w' == w
  }

  /** The thread's memory from operation to operation. */
  ghost predicate BatchRan(c: Site, y: Layout, ops: seq<Op>, ws: seq<Words>) {
    && |ws| == |ops| + 1
    && forall i {:trigger ops[i]} | 0 <= i < |ops| :: OpRan(c, y, ops[i], ws[i], ws[i + 1])
  }

  /** The store stays below the non-canonical half of the address space. */
  predicate Canonical(op: Op) {
    op.StoreOp? ==> op.addr + |op.bytes| + PAYLOAD_SIZE < SIGN
  }

  // ---------------------------------------------------------------- one list

  lemma {:induction false} HaltedStays(f: Machine -> Machine, m: Machine, n: nat)
    requires f(m) == m
    ensures Iterate(f, m, n) == m
  {
    if n > 0 {
      HaltedStays(f, m, n - 1);
    }
  }

  lemma HaltedOnce(f: Machine -> Machine, m: Machine, i: nat, j: nat)
    requires i <= j && f(Iterate(f, m, i)) == Iterate(f, m, i)
    ensures Iterate(f, m, j) == Iterate(f, m, i)
  {
    IterateAdd(f, m, i, j - i);
    HaltedStays(f, Iterate(f, m, i), j - i);
  }

  lemma Halted(c: Site, m: Machine)
    requires m.pc == RESTORE
    ensures PT.Stepper(c)(m) == m
  {}

  /** However long it is run, the list leaves in one state. */
  lemma LeavesOnce(c: Site, m: Machine, i: nat, j: nat)
    requires PT.Run(c, m, i).pc == RESTORE && PT.Run(c, m, j).pc == RESTORE
    ensures PT.Run(c, m, j) == PT.Run(c, m, i)
  {
    Halted(c, PT.Run(c, m, i));
    Halted(c, PT.Run(c, m, j));
    if i <= j {
      HaltedOnce(PT.Stepper(c), m, i, j);
    } else {
      HaltedOnce(PT.Stepper(c), m, j, i);
    }
  }

  /** The table depends on the emitted list only by its size. */
  lemma SameTable(c: Site, d: Site, y: Layout, w: Words)
    requires d.k == c.k && d.limit == c.limit
    ensures TableOf(d, y, w) == TableOf(c, y, w) && (Ready(d, y, w) <==> Ready(c, y, w))
  {
    assert TableOf(d, y, w) == TableOf(c, y, w);
  }

  /** Whatever the registers on entry, the list records the blocks of its store. */
  lemma StoreRan(c: Site, y: Layout, w: Words, w': Words)
    requires Ran(c, y, w, w') && Ready(c, y, w) && PT.Tracked(c)
    requires |Stored(c, y, w) + Touched(c.addr, c.size)| <= Pow2(c.k)
    ensures Ready(c, y, w') && Stored(c, y, w') == Stored(c, y, w) + Touched(c.addr, c.size)
  {
    var m, n :| RanFrom(c, y, m, n, w, w');
    var k := PT.TrackingRefines(c, y, m);
    LeavesOnce(c, m, n, k);
  }

  /** What the emitted code leaves in the table is enough for collection to find the store. */
  lemma EmittedCodeTracks(c: Site, y: Layout, m: Machine, shadow: Image, mem: Image, cs: seq<Copy>, bytes: seq<int>)
    returns (steps: nat)
    requires PT.Thread(c, y, m) && PT.Combining(c, m) && Ready(c, y, m.mem) && PT.Tracked(c)
    requires |Stored(c, y, m.mem) + Touched(c.addr, c.size)| <= Pow2(c.k)
    requires c.addr >= 1024 && |bytes| == c.size
    requires shadow.Keys == mem.Keys == (mem + Block(c.addr, bytes)).Keys
    requires Tracked(shadow, mem, cs, TableOf(c, y, m.mem))
    ensures PT.Run(c, m, steps).pc == RESTORE
    ensures Tracked(shadow, mem + Block(c.addr, bytes), cs, TableOf(c, y, PT.Run(c, m, steps).mem))
  {
    steps := PT.TrackingRefines(c, y, m);
    StoreStaysTracked(shadow, mem, cs, TableOf(c, y, m.mem), TableOf(c, y, PT.Run(c, m, steps).mem), c.addr, bytes);
  }

  /** A list is left, if the blocks fit. */
  lemma StoreLeaves(c: Site, y: Layout, m: Machine) returns (w': Words)
    requires PT.Thread(c, y, m) && PT.Combining(c, m) && Ready(c, y, m.mem) && PT.Tracked(c)
    requires |Stored(c, y, m.mem) + Touched(c.addr, c.size)| <= Pow2(c.k)
    ensures Ran(c, y, m.mem, w')
  {
    var n := PT.TrackingRefines(c, y, m);
    w' := PT.Run(c, m, n).mem;
    assert RanFrom(c, y, m, n, m.mem, w');
  }

  // ---------------------------------------------------------------- a batch

  /** The table holds the blocks touched so far, and what is recorded covers what has changed. */
  ghost predicate Covered(c: Site, y: Layout, shadow: Image, p: Progress, w: Words) {
    && Ready(c, y, w) && Stored(c, y, w) == p.blocks
    && p.mem.Keys == shadow.Keys && Tracked(shadow, p.mem, p.copies, TableOf(c, y, w))
  }

  lemma StoreCovered(c: Site, y: Layout, shadow: Image, p: Progress, addr: nat, bytes: seq<int>, w: Words, w': Words)
    requires Covered(c, y, shadow, p, w) && OpOk(shadow.Keys, StoreOp(addr, bytes)) && Canonical(StoreOp(addr, bytes))
    requires OpRan(c, y, StoreOp(addr, bytes), w, w') && Sized(Pow2(c.k), Perform(p, StoreOp(addr, bytes)))
    ensures Covered(c, y, shadow, Perform(p, StoreOp(addr, bytes)), w')
  {
    var d := SiteOf(c, addr, |bytes|);
    SameTable(c, d, y, w);
    SameTable(c, d, y, w');
    StoreRan(d, y, w, w');
    StoreMade(shadow, p.mem, p.copies, TableOf(c, y, w), TableOf(c, y, w'), addr, bytes);
  }

  lemma CopyCovered(c: Site, y: Layout, shadow: Image, p: Progress, dest: nat, src: nat, size: nat, w: Words)
    requires Covered(c, y, shadow, p, w) && OpOk(shadow.Keys, CopyOp(dest, src, size))
    ensures Covered(c, y, shadow, Perform(p, CopyOp(dest, src, size)), w)
  {
    CopyPerformed(shadow.Keys, p, dest, src, size);
    CopyMade(shadow, p.mem, p.copies, TableOf(c, y, w), dest, Bytes(p.mem, src, size));
    CoveredBy(c, y, shadow, p, Perform(p, CopyOp(dest, src, size)), w);
  }

  lemma CopyPerformed(keys: set<int>, p: Progress, dest: nat, src: nat, size: nat)
    requires OpOk(keys, CopyOp(dest, src, size)) && p.mem.Keys == keys
    ensures var p', bytes := Perform(p, CopyOp(dest, src, size)), Bytes(p.mem, src, size);
            && MappedRange(p.mem, dest, |bytes|) && |bytes| <= MAX_DISTANCE && p'.blocks == p.blocks
            && p'.mem == p.mem + Block(dest, bytes) && p'.copies == p.copies + [Copy(dest, dest + |bytes|)]
  {
    CopyInside(keys, dest, src, size);
  }

  lemma CoveredBy(c: Site, y: Layout, shadow: Image, p: Progress, p': Progress, w: Words)
    requires Covered(c, y, shadow, p, w) && p'.blocks == p.blocks && p'.mem.Keys == shadow.Keys
    requires Tracked(shadow, p'.mem, p'.copies, TableOf(c, y, w))
    ensures Covered(c, y, shadow, p', w)
  {}

  lemma OpCovered(c: Site, y: Layout, shadow: Image, p: Progress, op: Op, w: Words, w': Words)
    requires Covered(c, y, shadow, p, w) && OpOk(shadow.Keys, op) && Canonical(op)
    requires OpRan(c, y, op, w, w') && Sized(Pow2(c.k), Perform(p, op))
    ensures Covered(c, y, shadow, Perform(p, op), w')
  {
    match op
    case StoreOp(addr, bytes) => StoreCovered(c, y, shadow, p, addr, bytes, w, w');
    case CopyOp(dest, src, size) => CopyCovered(c, y, shadow, p, dest, src, size, w);
  }

  ghost predicate AllCanonical(ops: seq<Op>) {
    forall i {:trigger ops[i]} | 0 <= i < |ops| :: Canonical(ops[i])
  }

  lemma BatchAt(c: Site, y: Layout, mem: Image, ops: seq<Op>, ws: seq<Words>, i: nat)
    requires BatchRan(c, y, ops, ws) && OpsOk(mem, Pow2(c.k), ops) && AllCanonical(ops) && i < |ops|
    ensures OpRan(c, y, ops[i], ws[i], ws[i + 1]) && Canonical(ops[i]) && OpOk(mem.Keys, ops[i])
    ensures PerformAll(mem, ops, i + 1) == Perform(PerformAll(mem, ops, i), ops[i])
    ensures Sized(Pow2(c.k), Perform(PerformAll(mem, ops, i), ops[i]))
  {
    StageNext(mem, Pow2(c.k), ops, i);
  }

  ghost predicate CoveredUpTo(c: Site, y: Layout, mem: Image, ops: seq<Op>, ws: seq<Words>, i: nat) {
    forall k | 0 <= k <= i && k <= |ops| && k < |ws| :: Covered(c, y, mem, PerformAll(mem, ops, k), ws[k])
  }

  lemma {:induction false} RanCovered(c: Site, y: Layout, mem: Image, ops: seq<Op>, ws: seq<Words>, i: nat)
    requires BatchRan(c, y, ops, ws) && OpsOk(mem, Pow2(c.k), ops) && AllCanonical(ops)
    requires CoveredUpTo(c, y, mem, ops, ws, 0) && i <= |ops|
    ensures CoveredUpTo(c, y, mem, ops, ws, i)
  {
    if i > 0 {
      RanCovered(c, y, mem, ops, ws, i - 1);
      NextCovered(c, y, mem, ops, ws, i - 1);
    }
  }

  /**
   After any number of operations of a batch, run on the emitted code from an empty table, the table
   holds exactly the blocks touched, and everything that differs from the image is recorded.
   */
  lemma BatchCovered(c: Site, y: Layout, mem: Image, ops: seq<Op>, ws: seq<Words>, i: nat)
    requires BatchRan(c, y, ops, ws) && OpsOk(mem, Pow2(c.k), ops) && AllCanonical(ops)
    requires Ready(c, y, ws[0]) && Stored(c, y, ws[0]) == {} && i <= |ops|
    ensures Covered(c, y, mem, PerformAll(mem, ops, i), ws[i])
  {
    FirstCovered(c, y, mem, ws[0]);
    RanCovered(c, y, mem, ops, ws, i);
  }

  lemma FirstCovered(c: Site, y: Layout, mem: Image, w: Words)
    requires Ready(c, y, w) && Stored(c, y, w) == {}
    ensures Covered(c, y, mem, Progress(mem, {}, []), w)
  {}

  lemma NextCovered(c: Site, y: Layout, mem: Image, ops: seq<Op>, ws: seq<Words>, i: nat)
    requires BatchRan(c, y, ops, ws) && OpsOk(mem, Pow2(c.k), ops) && AllCanonical(ops) && i < |ops|
    requires CoveredUpTo(c, y, mem, ops, ws, i)
    ensures CoveredUpTo(c, y, mem, ops, ws, i + 1)
  {
    BatchAt(c, y, mem, ops, ws, i);
    OpCovered(c, y, mem, PerformAll(mem, ops, i), ops[i], ws[i], ws[i + 1]);
  }

  /** At the end it is what instrument_stop needs to publish the batch. */
  lemma BatchRecorded(c: Site, y: Layout, mem: Image, ops: seq<Op>, ws: seq<Words>)
    requires BatchRan(c, y, ops, ws) && OpsOk(mem, Pow2(c.k), ops) && AllCanonical(ops)
    requires Ready(c, y, ws[0]) && Stored(c, y, ws[0]) == {}
    ensures var p := PerformAll(mem, ops, |ops|);
            Stops.Recorded(mem, p.mem, p.copies, TableOf(c, y, ws[|ops|]))
  {
    var p := PerformAll(mem, ops, |ops|);
    BatchCovered(c, y, mem, ops, ws, |ops|);
    AllMapped(mem.Keys, mem, ops, |ops|);
    RecordsReadable(p.mem, p, TableOf(c, y, ws[|ops|]));
  }
}
