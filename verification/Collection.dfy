/**
 The redo entries that instrument_stop makes out of the recorded memcpys and the table of
 recorded blocks, and the memory image they produce.
 */
module Collection {
  import opened RedoLog
  import opened Blocks
  import opened OpenAddressing

  /** Blocks at or below this address are skipped when the table is collected. */
  const LOWEST := 1000

  /** The target of one instrumented memcpy. */
  datatype Copy = Copy(start: nat, end: nat)

  /** Conversion of a pointer difference to `int`. */
  function Int32(x: int): (r: int)
    ensures -0x8000_0000 <= r < 0x8000_0000
    ensures (x - r) % 0x1_0000_0000 == 0
  {
    (x + 0x8000_0000) % 0x1_0000_0000 - 0x8000_0000
  }

  /** How many chunks the loop over a distance takes. */
  function Chunks(distance: int): (n: nat)
    ensures distance <= PAYLOAD_SIZE * n
    ensures n > 0 ==> PAYLOAD_SIZE * (n - 1) < distance
  {
    if distance <= 0 then 0 else (distance + PAYLOAD_SIZE - 1) / PAYLOAD_SIZE
  }

  /** The loop counter, an `int`, after `k` turns. */
  function Counter(k: nat): int {
    Int32(PAYLOAD_SIZE * k)
  }

  /** The loop over a distance ends after exactly `n` turns. */
  ghost predicate EndsAfter(distance: int, n: nat) {
    Counter(n) >= distance && forall k | 0 <= k < n :: Counter(k) < distance
  }

  /** The largest distance the loop gets over. */
  const MAX_DISTANCE := 0x7FFF_FFE0

  /**
   The loop ends, and then after one turn for each chunk, if and only if the distance is at most
   0x7FFFFFE0: beyond it the counter overflows before it gets there.
   */
  lemma LoopEndsIff(distance: int)
    requires -0x8000_0000 <= distance < 0x8000_0000
    ensures (exists n: nat :: EndsAfter(distance, n)) <==> distance <= MAX_DISTANCE
    ensures distance <= MAX_DISTANCE ==> EndsAfter(distance, Chunks(distance))
  {
    if distance <= MAX_DISTANCE {
      CountsUp(distance);
    } else {
      forall n: nat ensures !EndsAfter(distance, n) {
        CounterBelow(n);
      }
    }
  }

  lemma CountsUp(distance: int)
    requires -0x8000_0000 <= distance <= MAX_DISTANCE
    ensures EndsAfter(distance, Chunks(distance))
  {
    var n := Chunks(distance);
    assert PAYLOAD_SIZE * n <= MAX_DISTANCE;
    forall k: nat | k <= n ensures Counter(k) == PAYLOAD_SIZE * k {}
  }

  lemma CounterBelow(k: nat)
    ensures Counter(k) <= MAX_DISTANCE
  {
    var x := Counter(k);
    assert x % PAYLOAD_SIZE == 0;
  }

  /** The chunks logged for a copy; one whose loop does not end logs none. */
  function ChunksOf(c: Copy): nat {
    var distance := Int32(c.end - c.start);
    if distance <= MAX_DISTANCE then Chunks(distance) else 0
  }

  /** The `n` bytes at `addr`. */
  function Bytes(mem: Image, addr: int, n: nat): (p: seq<int>)
    ensures |p| == n
  {
    seq(n, i requires 0 <= i < n => if addr + i in mem then mem[addr + i] else 0)
  }

  function EntryAt(mem: Image, addr: int): Entry {
    Redo(addr, Bytes(mem, addr, PAYLOAD_SIZE))
  }

  /** The first `n` chunks of a copy. */
  function CopyLog(mem: Image, start: int, n: nat): seq<Entry> {
    if n == 0 then [] else CopyLog(mem, start, n - 1) + [EntryAt(mem, start + PAYLOAD_SIZE * (n - 1))]
  }

  /** Each copy is logged and committed on its own. */
  function CopiesLog(mem: Image, cs: seq<Copy>): seq<Entry> {
    if cs == [] then []
    else
      var c := cs[|cs| - 1];
      CopiesLog(mem, cs[..|cs| - 1]) + CopyLog(mem, c.start, ChunksOf(c)) + [Commit]
  }

  /** What one slot of the table contributes. */
  function SlotLog(mem: Image, b: nat): seq<Entry> {
    if b > LOWEST then [EntryAt(mem, b)] else []
  }

  /** The blocks of the table, in slot order. */
  function TableLog(mem: Image, t: seq<nat>): seq<Entry> {
    if t == [] then [] else TableLog(mem, t[..|t| - 1]) + SlotLog(mem, t[|t| - 1])
  }

  /** Everything instrument_stop enqueues. */
  function StopLog(mem: Image, cs: seq<Copy>, t: seq<nat>): seq<Entry> {
    CopiesLog(mem, cs) + (TableLog(mem, t) + [Commit])
  }

  // ---------------------------------------------------------------- which bytes are logged

  predicate InChunk(addr: int, a: int) {
    addr <= a < addr + PAYLOAD_SIZE
  }

  /** Byte `a` is in the chunks logged for `c`, which run past its end when the size is odd. */
  predicate InCopy(c: Copy, a: int) {
    c.start <= a < c.start + PAYLOAD_SIZE * ChunksOf(c)
  }

  ghost predicate InCopies(cs: seq<Copy>, a: int) {
    exists i :: 0 <= i < |cs| && InCopy(cs[i], a)
  }

  ghost predicate InTable(t: seq<nat>, a: int) {
    exists i :: 0 <= i < |t| && t[i] > LOWEST && InChunk(t[i], a)
  }

  ghost predicate Logged(cs: seq<Copy>, t: seq<nat>, a: int) {
    InCopies(cs, a) || InTable(t, a)
  }

  /** An entry of `log` defines byte `a`. */
  ghost predicate Hits(log: seq<Entry>, a: int) {
    exists k :: 0 <= k < |log| && Touches(log[k], a)
  }

  predicate Touches(e: Entry, a: int) {
    e.Redo? && InChunk(e.addr, a)
  }

  lemma HitsConcat(x: seq<Entry>, y: seq<Entry>, a: int)
    ensures Hits(x + y, a) <==> Hits(x, a) || Hits(y, a)
  {
    if Hits(x, a) {
      var k :| 0 <= k < |x| && Touches(x[k], a);
      assert (x + y)[k] == x[k];
    }
    if Hits(y, a) {
      var k :| 0 <= k < |y| && Touches(y[k], a);
      assert (x + y)[|x| + k] == y[k];
    }
  }

  lemma HitsOne(e: Entry, a: int)
    ensures Hits([e], a) <==> Touches(e, a)
  {
    assert [e][0] == e;
  }

  lemma {:induction false} CopyHits(mem: Image, start: int, n: nat, a: int)
    ensures Hits(CopyLog(mem, start, n), a) <==> start <= a < start + PAYLOAD_SIZE * n
  {
    if n > 0 {
      CopyHits(mem, start, n - 1, a);
      var e := EntryAt(mem, start + PAYLOAD_SIZE * (n - 1));
      HitsConcat(CopyLog(mem, start, n - 1), [e], a);
      HitsOne(e, a);
    }
  }

  lemma InCopiesLast(cs: seq<Copy>, a: int)
    requires cs != []
    ensures InCopies(cs, a) <==> InCopies(cs[..|cs| - 1], a) || InCopy(cs[|cs| - 1], a)
  {
    var front := cs[..|cs| - 1];
    if InCopies(front, a) {
      var i :| 0 <= i < |front| && InCopy(front[i], a);
      assert InCopy(cs[i], a);
    }
    if InCopies(cs, a) {
      var i :| 0 <= i < |cs| && InCopy(cs[i], a);
      assert i < |front| ==> InCopy(front[i], a);
    }
  }

  lemma {:induction false} CopiesHit(mem: Image, cs: seq<Copy>, a: int)
    ensures Hits(CopiesLog(mem, cs), a) <==> InCopies(cs, a)
  {
    if cs != [] {
      var front, c := cs[..|cs| - 1], cs[|cs| - 1];
      var last := CopyLog(mem, c.start, ChunksOf(c));
      CopiesHit(mem, front, a);
      CopyHits(mem, c.start, ChunksOf(c), a);
      HitsConcat(CopiesLog(mem, front) + last, [Commit], a);
      HitsConcat(CopiesLog(mem, front), last, a);
      HitsOne(Commit, a);
      InCopiesLast(cs, a);
    }
  }

  lemma InTableLast(t: seq<nat>, a: int)
    requires t != []
    ensures InTable(t, a) <==> InTable(t[..|t| - 1], a) || (t[|t| - 1] > LOWEST && InChunk(t[|t| - 1], a))
  {
    var front := t[..|t| - 1];
    if InTable(front, a) {
      var i :| 0 <= i < |front| && front[i] > LOWEST && InChunk(front[i], a);
      assert t[i] > LOWEST && InChunk(t[i], a);
    }
    if InTable(t, a) {
      var i :| 0 <= i < |t| && t[i] > LOWEST && InChunk(t[i], a);
      assert i < |front| ==> front[i] > LOWEST && InChunk(front[i], a);
    }
  }

  lemma {:induction false} TableHits(mem: Image, t: seq<nat>, a: int)
    ensures Hits(TableLog(mem, t), a) <==> InTable(t, a)
  {
    if t != [] {
      var front, b := t[..|t| - 1], t[|t| - 1];
      TableHits(mem, front, a);
      InTableLast(t, a);
      HitsConcat(TableLog(mem, front), [EntryAt(mem, b)], a);
      HitsOne(EntryAt(mem, b), a);
      assert TableLog(mem, front) + [] == TableLog(mem, front);
    }
  }

  /** The entries define exactly the logged bytes. */
  lemma StopHits(mem: Image, cs: seq<Copy>, t: seq<nat>, a: int)
    ensures Hits(StopLog(mem, cs, t), a) <==> Logged(cs, t, a)
  {
    CopiesHit(mem, cs, a);
    TableHits(mem, t, a);
    HitsConcat(CopiesLog(mem, cs), TableLog(mem, t) + [Commit], a);
    HitsConcat(TableLog(mem, t), [Commit], a);
    HitsOne(Commit, a);
  }

  // ---------------------------------------------------------------- what the entries carry

  /** The entry is a COMMIT or a copy of memory as it is now. */
  predicate CopiesMemory(mem: Image, e: Entry) {
    e.Redo? ==> e == EntryAt(mem, e.addr)
  }

  ghost predicate Faithful(mem: Image, log: seq<Entry>) {
    forall k | 0 <= k < |log| :: CopiesMemory(mem, log[k])
  }

  lemma {:induction false} CopyFaithful(mem: Image, start: int, n: nat)
    ensures Faithful(mem, CopyLog(mem, start, n))
  {
    if n > 0 {
      CopyFaithful(mem, start, n - 1);
    }
  }

  lemma {:induction false} CopiesFaithful(mem: Image, cs: seq<Copy>)
    ensures Faithful(mem, CopiesLog(mem, cs))
  {
    if cs != [] {
      var c := cs[|cs| - 1];
      CopiesFaithful(mem, cs[..|cs| - 1]);
      CopyFaithful(mem, c.start, ChunksOf(c));
    }
  }

  lemma {:induction false} TableFaithful(mem: Image, t: seq<nat>)
    ensures Faithful(mem, TableLog(mem, t))
  {
    if t != [] {
      TableFaithful(mem, t[..|t| - 1]);
    }
  }

  lemma StopFaithful(mem: Image, cs: seq<Copy>, t: seq<nat>)
    ensures Faithful(mem, StopLog(mem, cs, t))
  {
    CopiesFaithful(mem, cs);
    TableFaithful(mem, t);
  }

  /** Replaying faithful entries defines the bytes they hit, each with its value in memory. */
  lemma {:induction false} FaithfulDelta(mem: Image, log: seq<Entry>, a: int)
    requires Faithful(mem, log)
    ensures a in Delta(log) <==> Hits(log, a)
    ensures a in Delta(log) && a in mem ==> Delta(log)[a] == mem[a]
  {
    if log != [] {
      var front, e := log[..|log| - 1], log[|log| - 1];
      FaithfulDelta(mem, front, a);
      assert log == front + [e];
      HitsConcat(front, [e], a);
      HitsOne(e, a);
      assert CopiesMemory(mem, e);
      assert a in Effect(e) <==> Touches(e, a);
      if e.Redo? && a in Effect(e) {
        assert Effect(e)[a] == ByteAt(e.addr, e.payload, a) == e.payload[a - e.addr];
      }
    }
  }

  /** Every logged byte is mapped, so that reading it into a payload does not fault. */
  ghost predicate Readable(mem: Image, cs: seq<Copy>, t: seq<nat>) {
    forall a | Logged(cs, t, a) :: a in mem
  }

  /** Every byte in which memory differs from the image is one that will be logged. */
  ghost predicate Tracked(shadow: Image, mem: Image, cs: seq<Copy>, t: seq<nat>)
    requires shadow.Keys == mem.Keys
  {
    forall a | a in mem && shadow[a] != mem[a] :: Logged(cs, t, a)
  }

  /**
   Image refinement.  `shadow` is the image the entries published so far produce.  After the
   entries of instrument_stop it equals memory on every byte exactly when every byte that differed
   was logged; chunks that run past the end of a copy are harmless.
   */
  lemma ImageRefinement(shadow: Image, mem: Image, cs: seq<Copy>, t: seq<nat>)
    requires shadow.Keys == mem.Keys && Readable(mem, cs, t)
    ensures shadow + Delta(StopLog(mem, cs, t)) == mem <==> Tracked(shadow, mem, cs, t)
  {
    var log := StopLog(mem, cs, t);
    var image := shadow + Delta(log);
    StopFaithful(mem, cs, t);
    forall a ensures a in Delta(log) <==> Logged(cs, t, a)
             ensures a in Delta(log) && a in mem ==> Delta(log)[a] == mem[a]
    {
      FaithfulDelta(mem, log, a);
      StopHits(mem, cs, t, a);
    }
    forall a | a in Delta(log) ensures a in mem {
      assert Logged(cs, t, a);
    }
    forall a | a in mem
      ensures a in image && (image[a] == mem[a] <==> shadow[a] == mem[a] || Logged(cs, t, a)) {}
    assert image.Keys == mem.Keys;
    if image == mem {
      forall a | a in mem && shadow[a] != mem[a] ensures Logged(cs, t, a) {
        assert image[a] == mem[a];
      }
    }
    if Tracked(shadow, mem, cs, t) {
      assert forall a | a in mem :: image[a] == mem[a];
      assert image == mem;
    }
  }

  /** In between, after any of the separate commits, each byte has its old or its new value. */
  lemma PartialImage(shadow: Image, mem: Image, cs: seq<Copy>, t: seq<nat>, k: nat, a: int)
    requires shadow.Keys == mem.Keys && Readable(mem, cs, t) && a in mem
    requires k <= |StopLog(mem, cs, t)|
    ensures var image := shadow + Delta(StopLog(mem, cs, t)[..k]);
            image.Keys == mem.Keys && (image[a] == shadow[a] || image[a] == mem[a])
  {
    var log := StopLog(mem, cs, t);
    StopFaithful(mem, cs, t);
    forall x ensures x in Delta(log[..k]) ==> x in mem && Delta(log[..k])[x] == mem[x] {
      FaithfulDelta(mem, log[..k], x);
      if Hits(log[..k], x) {
        var i :| 0 <= i < k && Touches(log[..k][i], x);
        assert Touches(log[i], x);
        StopHits(mem, cs, t, x);
      }
    }
    var image := shadow + Delta(log[..k]);
    assert image.Keys == mem.Keys;
  }

  /** The first batches are those of the first copies. */
  ghost predicate InOrder(mem: Image, cs: seq<Copy>, bs: seq<seq<Entry>>) {
    |cs| <= |bs| && forall k | 0 <= k <= |cs| :: Flatten(bs[..k]) == CopiesLog(mem, cs[..k])
  }

  /** The entries form one batch for each copy, in their order, and one for the table. */
  lemma StopBatches(mem: Image, cs: seq<Copy>, t: seq<nat>) returns (bs: seq<seq<Entry>>)
    ensures AreBatches(bs) && |bs| == |cs| + 1 && Flatten(bs) == StopLog(mem, cs, t) && InOrder(mem, cs, bs)
  {
    var front := CopyBatches(mem, cs);
    var last := TableLog(mem, t) + [Commit];
    TableRedo(mem, t);
    bs := front + [last];
    assert bs[..|bs| - 1] == front;
    forall k | 0 <= k <= |cs| ensures Flatten(bs[..k]) == CopiesLog(mem, cs[..k]) {
      assert bs[..k] == front[..k];
    }
    assert front[..|cs|] == front && cs[..|cs|] == cs;
  }

  lemma {:induction false} CopyBatches(mem: Image, cs: seq<Copy>) returns (bs: seq<seq<Entry>>)
    ensures AreBatches(bs) && |bs| == |cs| && InOrder(mem, cs, bs)
  {
    bs := [];
    for i := 0 to |cs|
      invariant AreBatches(bs) && |bs| == i && InOrder(mem, cs[..i], bs)
    {
      CopyRedo(mem, cs[i].start, ChunksOf(cs[i]));
      OneMoreBatch(mem, cs, i, bs);
      bs := bs + [CopyLog(mem, cs[i].start, ChunksOf(cs[i])) + [Commit]];
    }
    assert cs[..|cs|] == cs;
  }

  lemma OneMoreBatch(mem: Image, cs: seq<Copy>, i: nat, bs: seq<seq<Entry>>)
    requires i < |cs| && |bs| == i && InOrder(mem, cs[..i], bs)
    ensures InOrder(mem, cs[..i + 1], bs + [CopyLog(mem, cs[i].start, ChunksOf(cs[i])) + [Commit]])
  {
    var more := bs + [CopyLog(mem, cs[i].start, ChunksOf(cs[i])) + [Commit]];
    assert bs[..i] == bs && cs[..i][..i] == cs[..i];
    forall k | 0 <= k <= i + 1 ensures Flatten(more[..k]) == CopiesLog(mem, cs[..i + 1][..k]) {
      if k <= i {
        assert more[..k] == bs[..k] && cs[..i + 1][..k] == cs[..i][..k];
      } else {
        assert more[..k] == more && more[..i] == bs;
        assert cs[..i + 1][..k] == cs[..i + 1] && cs[..i + 1][..i] == cs[..i];
        assert CopiesLog(mem, cs[..i + 1]) == CopiesLog(mem, cs[..i]) + more[i];
      }
    }
  }

  lemma {:induction false} CopyRedo(mem: Image, start: int, n: nat)
    ensures forall k | 0 <= k < |CopyLog(mem, start, n)| :: CopyLog(mem, start, n)[k].Redo?
  {
    if n > 0 {
      CopyRedo(mem, start, n - 1);
    }
  }

  lemma {:induction false} TableRedo(mem: Image, t: seq<nat>)
    ensures forall k | 0 <= k < |TableLog(mem, t)| :: TableLog(mem, t)[k].Redo?
  {
    if t != [] {
      TableRedo(mem, t[..|t| - 1]);
    }
  }

  // ---------------------------------------------------------------- when tracking suffices

  /** The chunks logged for a copy cover it if and only if its size is at most 0x7FFFFFE0. */
  lemma CopyCoveredIff(c: Copy)
    requires c.start <= c.end
    ensures (forall a | c.start <= a < c.end :: InCopy(c, a)) <==> c.end - c.start <= MAX_DISTANCE
  {
    var size := c.end - c.start;
    if size <= MAX_DISTANCE {
      assert Int32(size) == size;
    } else {
      ChunksShort(c);
      assert !InCopy(c, c.end - 1);
    }
  }

  lemma ChunksShort(c: Copy)
    requires c.end - c.start > MAX_DISTANCE
    ensures PAYLOAD_SIZE * ChunksOf(c) < c.end - c.start
  {}

  /** A recorded block logs a byte exactly when the byte is at or above 1024. */
  lemma BlockLoggedIff(t: seq<nat>, a: nat)
    requires BlockOf(a) in t && forall b | b in t :: IsBlock(b)
    ensures InTable(t, a) <==> a >= 1024
  {
    var i :| 0 <= i < |t| && t[i] == BlockOf(a);
    if a >= 1024 {
      assert t[i] > LOWEST && InChunk(t[i], a);
    } else {
      forall j | 0 <= j < |t| ensures !(t[j] > LOWEST && InChunk(t[j], a)) {
        assert t[j] in t;
        assert IsBlock(t[j]);
      }
    }
  }

  /** More blocks in the table, at least the same bytes logged. */
  lemma MoreLogged(cs: seq<Copy>, t: seq<nat>, t': seq<nat>, a: int)
    requires Logged(cs, t, a) && Contents(t) <= Contents(t')
    ensures Logged(cs, t', a)
  {
    if InTable(t, a) {
      var i :| 0 <= i < |t| && t[i] > LOWEST && InChunk(t[i], a);
      assert t[i] in Contents(t');
      var j :| 0 <= j < |t'| && t'[j] == t[i];
      assert t'[j] > LOWEST && InChunk(t'[j], a);
    }
  }

  /** A store at or above 1024 whose blocks are recorded keeps every difference logged. */
  lemma StoreStaysTracked(shadow: Image, mem: Image, cs: seq<Copy>, t: seq<nat>, t': seq<nat>, addr: nat, bytes: seq<int>)
    requires shadow.Keys == mem.Keys == (mem + Block(addr, bytes)).Keys && Tracked(shadow, mem, cs, t)
    requires addr >= 1024 && Contents(t') == Contents(t) + Touched(addr, |bytes|)
    ensures Tracked(shadow, mem + Block(addr, bytes), cs, t')
  {
    var mem' := mem + Block(addr, bytes);
    forall a | a in mem' && shadow[a] != mem'[a] ensures Logged(cs, t', a) {
      if addr <= a < addr + |bytes| {
        assert BlockOf(a) in Touched(addr, |bytes|) && BlockOf(a) in t';
        var i :| 0 <= i < |t'| && t'[i] == BlockOf(a);
        assert t'[i] > LOWEST && InChunk(t'[i], a);
      } else {
        MoreLogged(cs, t, t', a);
      }
    }
  }

  /** A copy of at most 0x7FFFFFE0 bytes that is put in the array keeps every difference logged. */
  lemma CopyStaysTracked(shadow: Image, mem: Image, cs: seq<Copy>, t: seq<nat>, dest: nat, bytes: seq<int>)
    requires shadow.Keys == mem.Keys == (mem + Block(dest, bytes)).Keys && Tracked(shadow, mem, cs, t)
    requires |bytes| <= MAX_DISTANCE
    ensures Tracked(shadow, mem + Block(dest, bytes), cs + [Copy(dest, dest + |bytes|)], t)
  {
    var mem', c := mem + Block(dest, bytes), Copy(dest, dest + |bytes|);
    var cs' := cs + [c];
    CopyCoveredIff(c);
    forall a | a in mem' && shadow[a] != mem'[a] ensures Logged(cs', t, a) {
      assert cs'[..|cs'| - 1] == cs;
      InCopiesLast(cs', a);
      if dest <= a < dest + |bytes| {
        assert InCopy(c, a);
      }
    }
  }

  /** One store to address 1010: recorded in block 992, never logged, lost by the image. */
  lemma LowBlockIsLost()
    ensures Touched(1010, 1) == {992}
    ensures map[1010 := 0] + Delta(StopLog(map[1010 := 7], [], [992])) != map[1010 := 7]
  {
    var mem: Image, shadow: Image := map[1010 := 7], map[1010 := 0];
    assert BlockOf(1010) == 992;
    assert Touched(1010, 1) == {992} by {
      forall x: nat | 1010 <= x < 1010 + 1 ensures BlockOf(x) == 992 {}
    }
    assert forall a :: !Logged([], [992], a);
    ImageRefinement(shadow, mem, [], [992]);
    assert shadow[1010] != mem[1010];
  }
}
