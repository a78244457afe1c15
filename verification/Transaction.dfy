/**
 A whole transaction of the combiner: instrument_start, any sequence of stores and memcpys,
 instrument_stop through the ring, and the consumer catching up.
 */
module Transaction {
  import opened RedoLog
  import opened Blocks
  import opened OpenAddressing
  import opened Collection
  import opened Ring
  import opened RingTheorems
  import opened RingFile
  import opened Producer
  import opened FrontEnd

  datatype Op =
    | StoreOp(addr: nat, bytes: seq<int>)
    | CopyOp(dest: nat, src: nat, size: nat)

  /** Memory, the blocks the stores have touched, and the targets of the copies in order. */
  datatype Progress = Progress(mem: Image, blocks: set<nat>, copies: seq<Copy>)

  /** What an operation does. */
  function Perform(p: Progress, op: Op): Progress {
    match op
    case StoreOp(addr, bytes) => p.(mem := p.mem + Block(addr, bytes), blocks := p.blocks + Touched(addr, |bytes|))
    case CopyOp(dest, src, size) =>
      p.(mem := p.mem + Block(dest, Bytes(p.mem, src, size)), copies := p.copies + [Copy(dest, dest + size)])
  }

  /** After the first `i` operations on memory `mem`. */
  function PerformAll(mem: Image, ops: seq<Op>, i: nat): Progress
    requires i <= |ops|
  {
    if i == 0 then Progress(mem, {}, []) else Perform(PerformAll(mem, ops, i - 1), ops[i - 1])
  }

  // ---------------------------------------------------------------- byte by byte

  /** The operation writes byte `a`. */
  predicate Covers(op: Op, a: int) {
    match op
    case StoreOp(addr, bytes) => addr <= a < addr + |bytes|
    case CopyOp(dest, _, size) => dest <= a < dest + size
  }

  /**
   Byte `a` after the first `i` operations, followed back: what the last store put there, what the
   last memcpy found at its source, or what was there to begin with.
   */
  function ByteOf(mem: Image, ops: seq<Op>, i: nat, a: int): int
    requires i <= |ops|
  {
    if i == 0 then (if a in mem then mem[a] else 0)
    else if !Covers(ops[i - 1], a) then ByteOf(mem, ops, i - 1, a)
    else
      match ops[i - 1]
      case StoreOp(addr, bytes) => bytes[a - addr]
      case CopyOp(dest, src, size) => ByteOf(mem, ops, i - 1, src + (a - dest))
  }

  /** What an operation does to byte `a`, without the rest of memory. */
  ghost predicate WritesByte(mem: Image, op: Op, mem': Image, a: int)
    requires a in mem && a in mem'
  {
    if !Covers(op, a) then mem'[a] == mem[a]
    else
      match op
      case StoreOp(addr, bytes) => mem'[a] == bytes[a - addr]
      case CopyOp(dest, src, size) => src + (a - dest) in mem && mem'[a] == mem[src + (a - dest)]
  }

  ghost predicate WritesBytes(mem: Image, op: Op, mem': Image) {
    mem'.Keys == mem.Keys && forall a | a in mem' :: WritesByte(mem, op, mem', a)
  }

  lemma PerformBytes(keys: set<int>, p: Progress, op: Op)
    requires OpOk(keys, op) && p.mem.Keys == keys
    ensures WritesBytes(p.mem, op, Perform(p, op).mem)
  {
    match op
    case StoreOp(addr, bytes) =>
      StoreKeepsKeys(p.mem, addr, bytes);
    case CopyOp(dest, src, size) =>
      CopiedBytes(p.mem, dest, src, size);
  }

  lemma CopiedBytes(mem: Image, dest: nat, src: nat, size: nat)
    requires OpOk(mem.Keys, CopyOp(dest, src, size))
    ensures WritesBytes(mem, CopyOp(dest, src, size), mem + Block(dest, Bytes(mem, src, size)))
  {
    CopyInside(mem.Keys, dest, src, size);
    StoreKeepsKeys(mem, dest, Bytes(mem, src, size));
  }

  /** Memory from operation to operation. */
  ghost predicate WritesAt(f: nat -> Image, ops: seq<Op>, i: nat) {
    i < |ops| && WritesBytes(f(i), ops[i], f(i + 1))
  }

  ghost predicate Evolves(mem: Image, f: nat -> Image, ops: seq<Op>) {
    f(0) == mem && forall i | 0 <= i < |ops| :: WritesAt(f, ops, i)
  }

  function MemoryOf(mem: Image, ops: seq<Op>): nat -> Image {
    (i: nat) => PerformAll(mem, ops, if i <= |ops| then i else |ops|).mem
  }

  lemma {:induction false} KeysStay(mem: Image, ops: seq<Op>, i: nat)
    requires AllOk(mem.Keys, ops) && i <= |ops|
    ensures PerformAll(mem, ops, i).mem.Keys == mem.Keys
  {
    if i > 0 {
      KeysStay(mem, ops, i - 1);
      assert OpOk(mem.Keys, ops[i - 1]);
      PerformBytes(mem.Keys, PerformAll(mem, ops, i - 1), ops[i - 1]);
    }
  }

  lemma MemoryEvolves(mem: Image, ops: seq<Op>)
    requires AllOk(mem.Keys, ops)
    ensures Evolves(mem, MemoryOf(mem, ops), ops)
  {
    forall i | 0 <= i < |ops| ensures WritesAt(MemoryOf(mem, ops), ops, i) {
      MemoryNext(mem, ops, i);
    }
    MemoryAt(mem, ops, 0);
  }

  lemma MemoryNext(mem: Image, ops: seq<Op>, i: nat)
    requires AllOk(mem.Keys, ops) && i < |ops|
    ensures WritesAt(MemoryOf(mem, ops), ops, i)
  {
    NextBytes(mem, ops, i);
    MemoryAt(mem, ops, i);
    MemoryAt(mem, ops, i + 1);
  }

  lemma MemoryAt(mem: Image, ops: seq<Op>, i: nat)
    requires i <= |ops|
    ensures MemoryOf(mem, ops)(i) == PerformAll(mem, ops, i).mem
  {}

  lemma NextBytes(mem: Image, ops: seq<Op>, i: nat)
    requires AllOk(mem.Keys, ops) && i < |ops|
    ensures WritesBytes(PerformAll(mem, ops, i).mem, ops[i], PerformAll(mem, ops, i + 1).mem)
  {
    assert OpOk(mem.Keys, ops[i]);
    KeysStay(mem, ops, i);
    NextProgress(mem, ops, i);
    PerformBytes(mem.Keys, PerformAll(mem, ops, i), ops[i]);
  }

  lemma NextProgress(mem: Image, ops: seq<Op>, i: nat)
    requires i < |ops|
    ensures PerformAll(mem, ops, i + 1) == Perform(PerformAll(mem, ops, i), ops[i])
  {}

  /** Memory after the first `i` operations holds exactly the bytes followed back from there. */
  lemma {:induction false} EvolvedByte(mem: Image, f: nat -> Image, ops: seq<Op>, i: nat, a: int)
    requires Evolves(mem, f, ops) && i <= |ops| && a in mem
    ensures f(i).Keys == mem.Keys && f(i)[a] == ByteOf(mem, ops, i, a)
  {
    if i > 0 {
      assert WritesAt(f, ops, i - 1);
      EvolvedByte(mem, f, ops, i - 1, a);
      assert WritesByte(f(i - 1), ops[i - 1], f(i), a);
      if Covers(ops[i - 1], a) && ops[i - 1].CopyOp? {
        EvolvedByte(mem, f, ops, i - 1, ops[i - 1].src + (a - ops[i - 1].dest));
      }
    }
  }

  lemma {:induction false} LastEvolved(mem: Image, f: nat -> Image, ops: seq<Op>, i: nat, k: nat, a: int)
    requires Evolves(mem, f, ops) && k < i <= |ops| && a in mem
    requires Covers(ops[k], a) && forall j | k < j < i :: !Covers(ops[j], a)
    ensures a in f(i) && a in f(k) && a in f(k + 1) && WritesByte(f(k), ops[k], f(k + 1), a) && f(i)[a] == f(k + 1)[a]
    decreases i
  {
    assert WritesAt(f, ops, i - 1);
    EvolvedByte(mem, f, ops, i - 1, a);
    assert WritesByte(f(i - 1), ops[i - 1], f(i), a);
    if k < i - 1 {
      LastEvolved(mem, f, ops, i - 1, k, a);
    }
  }

  lemma {:induction false} NoneEvolved(mem: Image, f: nat -> Image, ops: seq<Op>, i: nat, a: int)
    requires Evolves(mem, f, ops) && i <= |ops| && a in mem && forall j | 0 <= j < i :: !Covers(ops[j], a)
    ensures a in f(i) && f(i)[a] == mem[a]
  {
    if i > 0 {
      assert WritesAt(f, ops, i - 1);
      NoneEvolved(mem, f, ops, i - 1, a);
      assert WritesByte(f(i - 1), ops[i - 1], f(i), a);
    }
  }

  /**
   A byte holds what the last operation that covers it put there: byte `a - addr` of a store, the
   byte a memcpy found at its source just before; one that none covers is what it was.
   */
  lemma LastWins(mem: Image, ops: seq<Op>, k: nat, a: int)
    requires AllOk(mem.Keys, ops) && k < |ops| && a in mem
    requires Covers(ops[k], a) && forall j | k < j < |ops| :: !Covers(ops[j], a)
    ensures a in PerformAll(mem, ops, |ops|).mem
    ensures match ops[k]
            case StoreOp(addr, bytes) => PerformAll(mem, ops, |ops|).mem[a] == bytes[a - addr]
            case CopyOp(dest, src, size) =>
              && src + (a - dest) in PerformAll(mem, ops, k).mem
              && PerformAll(mem, ops, |ops|).mem[a] == PerformAll(mem, ops, k).mem[src + (a - dest)]
  {
    MemoryEvolves(mem, ops);
    MemoryAt(mem, ops, k);
    MemoryAt(mem, ops, |ops|);
    LastEvolved(mem, MemoryOf(mem, ops), ops, |ops|, k, a);
  }

  lemma NoneCovers(mem: Image, ops: seq<Op>, a: int)
    requires AllOk(mem.Keys, ops) && a in mem && forall j | 0 <= j < |ops| :: !Covers(ops[j], a)
    ensures a in PerformAll(mem, ops, |ops|).mem && PerformAll(mem, ops, |ops|).mem[a] == mem[a]
  {
    MemoryEvolves(mem, ops);
    MemoryAt(mem, ops, |ops|);
    NoneEvolved(mem, MemoryOf(mem, ops), ops, |ops|, a);
  }

  /** Memory `mem'` is what the operations make of `mem`, byte by byte. */
  ghost predicate Written(mem: Image, ops: seq<Op>, mem': Image) {
    mem'.Keys == mem.Keys && forall a | a in mem' :: mem'[a] == ByteOf(mem, ops, |ops|, a)
  }

  lemma AllWritten(mem: Image, ops: seq<Op>)
    requires AllOk(mem.Keys, ops)
    ensures Written(mem, ops, PerformAll(mem, ops, |ops|).mem)
  {
    MemoryEvolves(mem, ops);
    MemoryAt(mem, ops, |ops|);
    KeysStay(mem, ops, |ops|);
    forall a | a in mem ensures MemoryOf(mem, ops)(|ops|)[a] == ByteOf(mem, ops, |ops|, a) {
      EvolvedByte(mem, MemoryOf(mem, ops), ops, |ops|, a);
    }
  }

  ghost predicate MappedKeys(keys: set<int>, addr: int, n: nat) {
    forall a | addr <= a < addr + n :: a in keys
  }

  /**
   The operation touches mapped memory at or above 1024, and so do the blocks and chunks logged
   for it; a copy is short enough for its loop counter.
   */
  ghost predicate OpOk(keys: set<int>, op: Op) {
    match op
    case StoreOp(addr, bytes) =>
      && bytes != [] && addr >= 1024 && MappedKeys(keys, addr, |bytes|)
      && forall b | b in Touched(addr, |bytes|) :: MappedKeys(keys, b, PAYLOAD_SIZE)
    case CopyOp(dest, src, size) =>
      && size <= MAX_DISTANCE && MappedKeys(keys, src, size)
      && MappedKeys(keys, dest, PAYLOAD_SIZE * Chunks(size))
  }

  ghost predicate AllOk(keys: set<int>, ops: seq<Op>) {
    forall i {:trigger OpOk(keys, ops[i])} | 0 <= i < |ops| :: OpOk(keys, ops[i])
  }

  /** The table and the memcpy array are large enough for what is recorded. */
  predicate Sized(slots: nat, p: Progress) {
    |p.blocks| <= slots && |p.copies| <= MAX_NUM_OF_MEMCPY
  }

  /** A transaction the instrumentation is sized for. */
  ghost predicate OpsOk(mem: Image, slots: nat, ops: seq<Op>) {
    AllOk(mem.Keys, ops) && Sized(slots, PerformAll(mem, ops, |ops|))
  }

  // ---------------------------------------------------------------- sizes and mappings

  lemma {:induction false} SizesGrow(mem: Image, ops: seq<Op>, i: nat, j: nat)
    requires i <= j <= |ops|
    ensures PerformAll(mem, ops, i).blocks <= PerformAll(mem, ops, j).blocks
    ensures |PerformAll(mem, ops, i).copies| <= |PerformAll(mem, ops, j).copies|
    decreases j - i
  {
    if i < j {
      SizesGrow(mem, ops, i, j - 1);
    }
  }

  lemma SizedAll(mem: Image, slots: nat, ops: seq<Op>, i: nat)
    requires OpsOk(mem, slots, ops) && i <= |ops|
    ensures Sized(slots, PerformAll(mem, ops, i))
  {
    SizesGrow(mem, ops, i, |ops|);
    SubsetSize(PerformAll(mem, ops, i).blocks, PerformAll(mem, ops, |ops|).blocks);
  }

  /** What is recorded can be read when it is logged. */
  ghost predicate BlockMapped(keys: set<int>, b: nat) {
    MappedKeys(keys, b, PAYLOAD_SIZE)
  }

  ghost predicate CopyMapped(keys: set<int>, c: Copy) {
    Int32(c.end - c.start) <= MAX_DISTANCE && MappedKeys(keys, c.start, PAYLOAD_SIZE * ChunksOf(c))
  }

  ghost predicate RecordsMapped(keys: set<int>, p: Progress) {
    && (forall b | b in p.blocks :: BlockMapped(keys, b))
    && (forall k | 0 <= k < |p.copies| :: CopyMapped(keys, p.copies[k]))
  }

  lemma CopyDistance(dest: nat, size: nat)
    requires size <= MAX_DISTANCE
    ensures Int32(dest + size - dest) == size
  {}

  lemma PerformMapped(keys: set<int>, p: Progress, op: Op)
    requires OpOk(keys, op) && RecordsMapped(keys, p)
    ensures RecordsMapped(keys, Perform(p, op))
  {
    match op
    case StoreOp(addr, bytes) =>
      forall b | b in p.blocks + Touched(addr, |bytes|) ensures BlockMapped(keys, b) {}
    case CopyOp(dest, src, size) =>
      CopyDistance(dest, size);
      assert CopyMapped(keys, Copy(dest, dest + size));
  }

  lemma {:induction false} AllMapped(keys: set<int>, mem: Image, ops: seq<Op>, i: nat)
    requires AllOk(keys, ops) && i <= |ops|
    ensures RecordsMapped(keys, PerformAll(mem, ops, i))
  {
    if i > 0 {
      AllMapped(keys, mem, ops, i - 1);
      assert OpOk(keys, ops[i - 1]);
      PerformMapped(keys, PerformAll(mem, ops, i - 1), ops[i - 1]);
    }
  }

  lemma RecordsReadable(mem: Image, p: Progress, t: seq<nat>)
    requires RecordsMapped(mem.Keys, p) && Contents(t) == p.blocks
    ensures Countable(p.copies) && Readable(mem, p.copies, t)
  {
    forall i | 0 <= i < |p.copies| ensures Int32(p.copies[i].end - p.copies[i].start) <= MAX_DISTANCE {
      assert CopyMapped(mem.Keys, p.copies[i]);
    }
    forall a | Logged(p.copies, t, a) ensures a in mem {
      if InCopies(p.copies, a) {
        var k :| 0 <= k < |p.copies| && InCopy(p.copies[k], a);
        assert CopyMapped(mem.Keys, p.copies[k]);
      } else {
        var i :| 0 <= i < |t| && t[i] > LOWEST && InChunk(t[i], a);
        assert t[i] in Contents(t);
        assert BlockMapped(mem.Keys, t[i]);
      }
    }
  }

  // ---------------------------------------------------------------- the entries of a transaction

  /** The chunks of each copy and its COMMIT. */
  function CopyEntries(cs: seq<Copy>): nat {
    if cs == [] then 0 else CopyEntries(cs[..|cs| - 1]) + ChunksOf(cs[|cs| - 1]) + 1
  }

  /** Then one entry for each block, and the last COMMIT. */
  function EntriesOf(p: Progress): nat {
    CopyEntries(p.copies) + |p.blocks| + 1
  }

  lemma {:induction false} CopiesLength(mem: Image, cs: seq<Copy>)
    ensures |CopiesLog(mem, cs)| == CopyEntries(cs)
  {
    if cs != [] {
      var c := cs[|cs| - 1];
      CopiesLength(mem, cs[..|cs| - 1]);
      CopyLength(mem, c.start, ChunksOf(c));
    }
  }

  ghost predicate AllHigh(blocks: set<nat>) {
    forall b | b in blocks :: b >= 1024
  }

  lemma {:induction false} BlocksHigh(keys: set<int>, mem: Image, ops: seq<Op>, i: nat)
    requires AllOk(keys, ops) && i <= |ops|
    ensures AllHigh(PerformAll(mem, ops, i).blocks)
  {
    if i > 0 {
      BlocksHigh(keys, mem, ops, i - 1);
      assert OpOk(keys, ops[i - 1]);
      if ops[i - 1].StoreOp? {
        TouchedHigh(ops[i - 1].addr, |ops[i - 1].bytes|);
      }
    }
  }

  lemma TouchedHigh(addr: nat, size: nat)
    requires addr >= 1024
    ensures AllHigh(Touched(addr, size))
  {}

  ghost predicate SlotsHigh(t: seq<nat>) {
    forall i | 0 <= i < |t| :: t[i] == 0 || t[i] > LOWEST
  }

  lemma {:induction false} TableLength(mem: Image, t: seq<nat>)
    requires SlotsHigh(t)
    ensures |TableLog(mem, t)| == Occupied(t)
  {
    if t != [] {
      TableLength(mem, t[..|t| - 1]);
    }
  }

  lemma StopLength(mem: Image, p: Progress, t: seq<nat>)
    requires TableOk(t) && Contents(t) == p.blocks && AllHigh(p.blocks)
    ensures |StopLog(mem, p.copies, t)| == EntriesOf(p)
  {
    forall i | 0 <= i < |t| ensures t[i] == 0 || t[i] > LOWEST {
      assert t[i] != 0 ==> t[i] in Contents(t);
    }
    CopiesLength(mem, p.copies);
    TableLength(mem, t);
    OccupiedIsSize(t);
  }

  // ---------------------------------------------------------------- the batch

  /** The tracker has recorded `p` and holds its memory. */
  ghost predicate Midway(t: Tracker, keys: set<int>, p: Progress)
    reads t, t.entries, t.copies, t.out.ring
  {
    && t.Valid() && t.AllTracked() && t.combiner == 1
    && t.mem == p.mem && t.mem.Keys == keys
    && Contents(t.entries[..]) == p.blocks && t.copies[..t.count] == p.copies
  }

  method NextStore(t: Tracker, addr: nat, bytes: seq<int>, ghost keys: set<int>, ghost p: Progress)
    requires Midway(t, keys, p) && OpOk(keys, StoreOp(addr, bytes))
    requires |p.blocks + Touched(addr, |bytes|)| <= t.entries.Length
    modifies t`mem, t`numberOfEntries, t.entries
    ensures Midway(t, keys, Perform(p, StoreOp(addr, bytes)))
  {
    t.Store(addr, bytes);
  }

  lemma CopyInside(keys: set<int>, dest: nat, src: nat, size: nat)
    requires OpOk(keys, CopyOp(dest, src, size))
    ensures MappedKeys(keys, src, size) && MappedKeys(keys, dest, size) && size <= MAX_DISTANCE
  {}

  method NextCopy(t: Tracker, dest: nat, src: nat, size: nat, ghost keys: set<int>, ghost p: Progress)
    requires Midway(t, keys, p) && OpOk(keys, CopyOp(dest, src, size)) && |p.copies| < MAX_NUM_OF_MEMCPY
    modifies t`mem, t`count, t.copies
    ensures Midway(t, keys, Perform(p, CopyOp(dest, src, size)))
  {
    CopyInside(keys, dest, src, size);
    t.InstrumentedMemcpy(dest, src, size);
  }

  method NextOp(t: Tracker, op: Op, ghost keys: set<int>, ghost p: Progress)
    requires Midway(t, keys, p) && OpOk(keys, op) && Sized(t.entries.Length, Perform(p, op))
    modifies t`mem, t`numberOfEntries, t`count, t.entries, t.copies
    ensures Midway(t, keys, Perform(p, op))
  {
    match op
    case StoreOp(addr, bytes) => NextStore(t, addr, bytes, keys, p);
    case CopyOp(dest, src, size) => NextCopy(t, dest, src, size, keys, p);
  }

  /** Operation `i` leads from `f(i)` to `f(i + 1)`, and what is recorded then fits. */
  ghost predicate IsStage(keys: set<int>, slots: nat, f: nat -> Progress, ops: seq<Op>, i: nat)
    requires i < |ops|
  {
    OpOk(keys, ops[i]) && f(i + 1) == Perform(f(i), ops[i]) && Sized(slots, f(i + 1))
  }

  ghost predicate Stages(keys: set<int>, slots: nat, f: nat -> Progress, ops: seq<Op>) {
    forall i {:trigger IsStage(keys, slots, f, ops, i)} | 0 <= i < |ops| :: IsStage(keys, slots, f, ops, i)
  }

  /** The progress of a transaction as a function of how many operations are done. */
  function ProgressOf(mem: Image, ops: seq<Op>): nat -> Progress {
    (i: nat) => PerformAll(mem, ops, if i <= |ops| then i else |ops|)
  }

  lemma StageNext(mem: Image, slots: nat, ops: seq<Op>, i: nat)
    requires OpsOk(mem, slots, ops) && i < |ops|
    ensures OpOk(mem.Keys, ops[i]) && PerformAll(mem, ops, i + 1) == Perform(PerformAll(mem, ops, i), ops[i])
    ensures Sized(slots, PerformAll(mem, ops, i + 1))
  {
    assert OpOk(mem.Keys, ops[i]);
    SizedAll(mem, slots, ops, i + 1);
  }

  lemma ProgressAt(mem: Image, ops: seq<Op>, i: nat)
    requires i <= |ops|
    ensures ProgressOf(mem, ops)(i) == PerformAll(mem, ops, i)
  {}

  lemma StageOf(mem: Image, slots: nat, ops: seq<Op>, i: nat)
    requires OpsOk(mem, slots, ops) && i < |ops|
    ensures IsStage(mem.Keys, slots, ProgressOf(mem, ops), ops, i)
  {
    StageNext(mem, slots, ops, i);
    ProgressAt(mem, ops, i);
    ProgressAt(mem, ops, i + 1);
  }

  lemma StagesOf(mem: Image, slots: nat, ops: seq<Op>)
    requires OpsOk(mem, slots, ops)
    ensures Stages(mem.Keys, slots, ProgressOf(mem, ops), ops)
  {
    var f := ProgressOf(mem, ops);
    forall i {:trigger IsStage(mem.Keys, slots, f, ops, i)} | 0 <= i < |ops| ensures IsStage(mem.Keys, slots, f, ops, i) {
      StageOf(mem, slots, ops, i);
    }
  }

  /** The operations from `i` on, while the thread combines. */
  method ExecuteFrom(t: Tracker, ops: seq<Op>, i: nat, ghost keys: set<int>, ghost f: nat -> Progress)
    requires Stages(keys, t.entries.Length, f, ops) && i <= |ops| && Midway(t, keys, f(i))
    modifies t`mem, t`numberOfEntries, t`count, t.entries, t.copies
    ensures Midway(t, keys, f(|ops|))
    decreases |ops| - i
  {
    if i < |ops| {
      assert IsStage(keys, t.entries.Length, f, ops, i);
      NextOp(t, ops[i], keys, f(i));
      ExecuteFrom(t, ops, i + 1, keys, f);
    }
  }

  lemma StartOfBatch(t: Tracker)
    requires t.InStep() && t.combiner == 1
    ensures Midway(t, t.mem.Keys, Progress(t.mem, {}, []))
  {}

  /** All operations of a batch. */
  method ExecuteAll(t: Tracker, ops: seq<Op>)
    requires t.InStep() && t.combiner == 1 && OpsOk(t.mem, t.entries.Length, ops)
    modifies t`mem, t`numberOfEntries, t`count, t.entries, t.copies
    ensures Midway(t, old(t.mem.Keys), PerformAll(old(t.mem), ops, |ops|))
  {
    StartOfBatch(t);
    StagesOf(t.mem, t.entries.Length, ops);
    ProgressAt(t.mem, ops, 0);
    ProgressAt(t.mem, ops, |ops|);
    ExecuteFrom(t, ops, 0, t.mem.Keys, ProgressOf(t.mem, ops));
  }

  /**
   A whole transaction keeps image and memory in step: memory is what the operations make of it,
   and the entries published for it, applied to the image as it was, give that memory.  It fails
   only when a wait for room in the ring was given up or a commit refresh would have been stale,
   never when there is room for all entries, and always without it if the consumer does not help.
   */
  method Transact(t: Tracker, ops: seq<Op>) returns (ok: bool)
    requires t.InStep() && t.out.Closed() && OpsOk(t.mem, t.entries.Length, ops)
    modifies t, t.entries, t.copies, t.out, t.out.ring, t.out.ring.buffer
    ensures t.mem == PerformAll(old(t.mem), ops, |ops|).mem && t.out.ring.Valid()
    ensures Written(old(t.mem), ops, t.mem)
    ensures ok ==> t.InStep() && t.out.Closed() && t.out.AllPublished()
    ensures !ok ==> t.out.GaveUp()
    ensures Paid(old(t.out.AloneAtBegin()), old(t.out.RoomAtBegin()), EntriesOf(PerformAll(old(t.mem), ops, |ops|)),
                 ok, t.out.RoomAtBegin())
  {
    ghost var before := t.mem;
    AllWritten(before, ops);
    t.InstrumentStart();
    ExecuteAll(t, ops);
    AllMapped(before.Keys, before, ops, |ops|);
    RecordsReadable(t.mem, PerformAll(before, ops, |ops|), t.entries[..]);
    BlocksHigh(before.Keys, before, ops, |ops|);
    StopLength(t.mem, PerformAll(before, ops, |ops|), t.entries[..]);
    ok := t.InstrumentStop();
  }

  /** And once the consumer has caught up, the persistent image is that memory, byte for byte. */
  method TransactAndApply(t: Tracker, ops: seq<Op>) returns (ok: bool)
    requires t.InStep() && t.out.Closed() && OpsOk(t.mem, t.entries.Length, ops)
    modifies t, t.entries, t.copies, t.out, t.out.ring, t.out.ring.buffer
    ensures t.mem == PerformAll(old(t.mem), ops, |ops|).mem && Written(old(t.mem), ops, t.mem)
    ensures ok ==> t.InStep() && t.out.Closed() && t.out.ring.image == t.mem
    ensures !ok ==> t.out.GaveUp()
    ensures old(t.out.RoomAtBegin()) >= EntriesOf(PerformAll(old(t.mem), ops, |ops|)) ==> ok
    ensures old(t.out.AloneAtBegin()) && ok ==> old(t.out.RoomAtBegin()) >= EntriesOf(PerformAll(old(t.mem), ops, |ops|))
  {
    ok := Transact(t, ops);
    if ok {
      t.out.ring.ConsumeAll();
      ghost var h := t.out.ring.s.h;
      assert h.log[..h.pub] == h.log;
    }
  }
}
