/**
 The per-thread state of the instrumentation while the combiner executes a batch, updated in
 place, and the image its published entries stand for.
 */
module FrontEnd {
  import opened RedoLog
  import opened Blocks
  import opened OpenAddressing
  import opened Collection
  import opened Ring
  import opened Stops
  import opened Producer

  const MAX_NUM_OF_MEMCPY := 100

  /** The `n` bytes at `addr` are mapped. */
  ghost predicate MappedRange(mem: Image, addr: int, n: nat) {
    forall a | addr <= a < addr + n :: a in mem
  }

  lemma StoreKeepsKeys(mem: Image, addr: int, bytes: seq<int>)
    requires MappedRange(mem, addr, |bytes|)
    ensures (mem + Block(addr, bytes)).Keys == mem.Keys
  {}

  /** Memory after a recorded copy. */
  lemma CopyMade(shadow: Image, mem: Image, cs: seq<Copy>, t: seq<nat>, dest: nat, bytes: seq<int>)
    requires shadow.Keys == mem.Keys && MappedRange(mem, dest, |bytes|)
    ensures (mem + Block(dest, bytes)).Keys == mem.Keys
    ensures |bytes| <= MAX_DISTANCE && Tracked(shadow, mem, cs, t) ==>
              Tracked(shadow, mem + Block(dest, bytes), cs + [Copy(dest, dest + |bytes|)], t)
  {
    StoreKeepsKeys(mem, dest, bytes);
    if |bytes| <= MAX_DISTANCE && Tracked(shadow, mem, cs, t) {
      CopyStaysTracked(shadow, mem, cs, t, dest, bytes);
    }
  }

  /** Memory after a store, recorded or not. */
  lemma StoreMade(shadow: Image, mem: Image, cs: seq<Copy>, t: seq<nat>, t': seq<nat>, addr: nat, bytes: seq<int>)
    requires shadow.Keys == mem.Keys && MappedRange(mem, addr, |bytes|)
    ensures (mem + Block(addr, bytes)).Keys == mem.Keys
    ensures addr >= 1024 && Contents(t') == Contents(t) + Touched(addr, |bytes|) && Tracked(shadow, mem, cs, t) ==>
              Tracked(shadow, mem + Block(addr, bytes), cs, t')
  {
    StoreKeepsKeys(mem, addr, bytes);
    if addr >= 1024 && Contents(t') == Contents(t) + Touched(addr, |bytes|) && Tracked(shadow, mem, cs, t) {
      StoreStaysTracked(shadow, mem, cs, t, t', addr, bytes);
    }
  }

  /** No distance overflows the loop counter. */
  ghost predicate Countable(cs: seq<Copy>) {
    forall i | 0 <= i < |cs| :: Int32(cs[i].end - cs[i].start) <= MAX_DISTANCE
  }

  /** What is stored and the blocks still to come make up `all`. */
  ghost predicate Pending(t: seq<nat>, dest: nat, range: nat, all: set<nat>) {
    IsBlock(dest) && Contents(t) + BlocksBetween(dest, range) == all && |all| <= |t|
  }

  lemma PendingStart(t: seq<nat>, addr: nat, size: nat) returns (all: set<nat>)
    requires size > 0 && |Contents(t) + Touched(addr, size)| <= |t|
    ensures all == Contents(t) + Touched(addr, size)
    ensures Pending(t, BlockOf(addr), addr + size, all)
  {
    TouchedIsBetween(addr, size);
    all := Contents(t) + Touched(addr, size);
  }

  lemma PendingRoom(t: seq<nat>, dest: nat, range: nat, all: set<nat>)
    requires TableOk(t) && Pending(t, dest, range, all) && dest < range
    ensures HasRoom(t, dest)
  {
    RoomAtHead(t, dest, range);
  }

  lemma PendingNext(t: seq<nat>, t': seq<nat>, dest: nat, range: nat, all: set<nat>)
    requires Pending(t, dest, range, all) && dest < range
    requires |t'| == |t| && Contents(t') == Contents(t) + {dest}
    ensures Pending(t', dest + PAYLOAD_SIZE, range, all)
  {
    SameTotal(Contents(t), Contents(t'), dest, range);
    NextIsBlock(dest);
  }

  lemma PendingDone(t: seq<nat>, dest: nat, range: nat, all: set<nat>)
    requires Pending(t, dest, range, all) && dest >= range
    ensures Contents(t) == all
  {
    assert BlocksBetween(dest, range) == {};
  }

  class Tracker {
    var mem: Image                 // the application's memory
    var combiner: int
    var entries: array<nat>        // hash_set_entries
    var numberOfEntries: nat
    var copies: array<Copy>        // memcpyArray
    var count: nat
    const out: Session             // the way into the ring

    /** The image once every entry enqueued so far has been applied. */
    ghost function Shadow(): Image
      reads out.ring
    {
      out.Base() + Delta(out.Log())
    }

    ghost predicate Valid()
      reads this, entries, copies, out.ring
    {
      && copies.Length == MAX_NUM_OF_MEMCPY && count <= MAX_NUM_OF_MEMCPY
      && TableOk(entries[..]) && numberOfEntries == Occupied(entries[..])
      && Shadow().Keys == mem.Keys
    }

    ghost predicate AllTracked()
      requires Valid()
      reads this, entries, copies, out.ring
    {
      Tracked(Shadow(), mem, copies[..count], entries[..])
    }

    /** Nothing recorded, and the image equals memory. */
    ghost predicate InStep()
      reads this, entries, copies, out.ring
    {
      Valid() && count == 0 && Contents(entries[..]) == {} && Shadow() == mem
    }

    constructor (session: Session, memory: Image, size: nat)
      requires size > 0 && session.Closed() && memory == session.Base() + Delta(session.Log())
      ensures InStep() && fresh(entries) && fresh(copies) && out == session
      ensures entries.Length == size && mem == memory && combiner == 0
    {
      mem, combiner, numberOfEntries, count := memory, 0, 0, 0;
      out := session;
      entries := new nat[size](_ => 0);
      copies := new Copy[MAX_NUM_OF_MEMCPY](_ => Copy(0, 0));
      new;
      OccupiedEmpty(entries[..]);
      assert Contents(entries[..]) == {};
    }

    /** instrument_start */
    method InstrumentStart()
      requires Valid()
      modifies this`combiner
      ensures Valid() && combiner == 1
    {
      combiner := 1;
    }

    /** One block through the probing loop. */
    method RecordBlock(b: nat)
      requires TableOk(entries[..]) && numberOfEntries == Occupied(entries[..])
      requires b != 0 && HasRoom(entries[..], b)
      modifies this`numberOfEntries, entries
      ensures TableOk(entries[..]) && numberOfEntries == Occupied(entries[..])
      ensures Contents(entries[..]) == old(Contents(entries[..])) + {b}
    {
      ghost var t, d: nat := entries[..], 0;
      var i := b % entries.Length;
      HomeIsMod(entries.Length, b);
      while entries[i] != 0 && entries[i] != b
        invariant entries[..] == t && numberOfEntries == Occupied(t)
        invariant d < |t| && i == Probe(|t|, Home(|t|, b), d) && Collided(t, b, d)
        decreases |t| - d
      {
        ProbeOn(t, b, d);
        d := d + 1;
        i := if i + 1 == entries.Length then 0 else i + 1;
      }
      if entries[i] == 0 {
        InsertKeeps(t, b, d);
        entries[i] := b;
        assert entries[..] == t[i := b];
        numberOfEntries := numberOfEntries + 1;
      } else {
        assert entries[..] == t && t[i] == b;
        assert b in Contents(t);
        assert Contents(t) + {b} == Contents(t);
      }
    }

    /** The effect of the code emitted in front of a store, block by block. */
    method RecordRange(addr: nat, size: nat)
      requires TableOk(entries[..]) && numberOfEntries == Occupied(entries[..])
      requires size > 0 && PAYLOAD_SIZE <= addr
      requires |Contents(entries[..]) + Touched(addr, size)| <= entries.Length
      modifies this`numberOfEntries, entries
      ensures TableOk(entries[..]) && numberOfEntries == Occupied(entries[..])
      ensures Contents(entries[..]) == old(Contents(entries[..])) + Touched(addr, size)
    {
      var dest, range := BlockOf(addr), addr + size;
      ghost var t := entries[..];
      ghost var all := PendingStart(t, addr, size);
      while dest < range
        invariant dest > 0 && entries[..] == t && TableOk(t) && numberOfEntries == Occupied(t)
        invariant Pending(t, dest, range, all)
        decreases range - dest
      {
        PendingRoom(t, dest, range, all);
        RecordBlock(dest);
        PendingNext(t, entries[..], dest, range, all);
        t := entries[..];
        dest := dest + PAYLOAD_SIZE;
      }
      PendingDone(t, dest, range, all);
    }

    /** An instrumented store: recorded while the thread combines, then executed. */
    method Store(addr: nat, bytes: seq<int>)
      requires Valid()
      requires bytes != [] && PAYLOAD_SIZE <= addr && MappedRange(mem, addr, |bytes|)
      requires combiner != 0 ==> |Contents(entries[..]) + Touched(addr, |bytes|)| <= entries.Length
      modifies this`mem, this`numberOfEntries, entries
      ensures Valid() && mem == old(mem) + Block(addr, bytes) && mem.Keys == old(mem.Keys)
      ensures combiner != 0 ==> Contents(entries[..]) == old(Contents(entries[..])) + Touched(addr, |bytes|)
      ensures combiner == 0 ==> entries[..] == old(entries[..])
      ensures combiner != 0 && addr >= 1024 && old(AllTracked()) ==> AllTracked()
    {
      ghost var t := entries[..];
      if combiner != 0 {
        RecordRange(addr, |bytes|);
      }
      StoreMade(Shadow(), mem, copies[..count], t, entries[..], addr, bytes);
      mem := mem + Block(addr, bytes);
    }

    /** instrumented_memcpy: outside a batch the copy is not even made. */
    method InstrumentedMemcpy(dest: nat, src: nat, size: nat)
      requires Valid() && count < MAX_NUM_OF_MEMCPY
      requires MappedRange(mem, src, size) && MappedRange(mem, dest, size)
      modifies this`mem, this`count, copies
      ensures Valid() && mem.Keys == old(mem.Keys)
      ensures combiner == 1 ==>
                && copies[..count] == old(copies[..count]) + [Copy(dest, dest + size)]
                && mem == old(mem) + Block(dest, Bytes(old(mem), src, size))
      ensures combiner != 1 ==> mem == old(mem) && copies[..count] == old(copies[..count])
      ensures size <= MAX_DISTANCE && old(AllTracked()) ==> AllTracked()
    {
      if combiner == 1 {
        CopyBytes(dest, Bytes(mem, src, size), size);
      }
    }

    /** The copy is recorded and made. */
    method CopyBytes(dest: nat, bytes: seq<int>, size: nat)
      requires Valid() && count < MAX_NUM_OF_MEMCPY && size == |bytes| && MappedRange(mem, dest, size)
      modifies this`mem, this`count, copies
      ensures Valid() && mem.Keys == old(mem.Keys) && mem == old(mem) + Block(dest, bytes)
      ensures copies[..count] == old(copies[..count]) + [Copy(dest, dest + size)]
      ensures size <= MAX_DISTANCE && old(AllTracked()) ==> AllTracked()
    {
      ghost var cs, t, shadow := copies[..count], entries[..], Shadow();
      CopyMade(shadow, mem, cs, t, dest, bytes);
      mem := mem + Block(dest, bytes);
      RecordCopy(dest, size);
      assert copies[..count] == cs + [Copy(dest, dest + size)] && entries[..] == t && Shadow() == shadow;
    }

    /** The target of a memcpy goes to the end of the array. */
    method RecordCopy(dest: nat, size: nat)
      requires count < copies.Length
      modifies this`count, copies
      ensures count == old(count) + 1
      ensures copies[..count] == old(copies[..count]) + [Copy(dest, dest + size)]
    {
      copies[count] := Copy(dest, dest + size);
      count := count + 1;
    }

    /** The first `n` chunks of a copy are in the log. */
    ghost predicate ChunksDone(log: seq<Entry>, c: Copy, n: nat, alone: bool, room: int)
      reads this, out, out.ring
    {
      && out.Log() == log + CopyLog(mem, c.start, n) && (alone ==> out.Alone())
      && Paid(alone, room, n, true, out.Room())
    }

    method LogChunk(c: Copy, j: nat, ghost n: nat, ghost log: seq<Entry>, ghost alone: bool, ghost room: int) returns (ok: bool)
      requires out.Open() && j == PAYLOAD_SIZE * n && ChunksDone(log, c, n, alone, room)
      modifies out, out.ring, out.ring.buffer
      ensures out.Open() && out.Base() == old(out.Base()) && out.ring.buffer == old(out.ring.buffer)
      ensures ok ==> ChunksDone(log, c, n + 1, alone, room)
      ensures !ok ==> out.GaveUp() && Paid(alone, room, n + 1, false, out.Room()) && (alone ==> out.Alone())
    {
      ok := out.Enqueue(c.start + j, Bytes(mem, c.start + j, PAYLOAD_SIZE));
    }

    /** The chunks of one copy; the last may run past its end. */
    method LogCopy(c: Copy) returns (ok: bool)
      requires out.Open() && Int32(c.end - c.start) <= MAX_DISTANCE
      modifies out, out.ring, out.ring.buffer
      ensures out.Open() && out.Base() == old(out.Base()) && out.ring.buffer == old(out.ring.buffer)
      ensures ok ==> out.Log() == old(out.Log()) + CopyLog(mem, c.start, ChunksOf(c))
      ensures !ok ==> out.GaveUp()
      ensures Paid(old(out.Alone()), old(out.Room()), ChunksOf(c), ok, out.Room()) && (old(out.Alone()) ==> out.Alone())
    {
      var distance, j := Int32(c.end - c.start), 0;
      ghost var n: nat := 0;
      while j < distance
        invariant j == PAYLOAD_SIZE * n && n <= ChunksOf(c) && j <= MAX_DISTANCE
        invariant out.Open() && out.Base() == old(out.Base()) && out.ring.buffer == old(out.ring.buffer)
        invariant ChunksDone(old(out.Log()), c, n, old(out.Alone()), old(out.Room()))
      {
        ChunkLeft(c, n);
        ok := LogChunk(c, j, n, old(out.Log()), old(out.Alone()), old(out.Room()));
        if !ok {
          return;
        }
        j := j + PAYLOAD_SIZE;
        n := n + 1;
      }
      ok := true;
    }

    /** One copy, logged and committed. */
    method CommitCopy(c: Copy) returns (ok: bool)
      requires out.Open() && Int32(c.end - c.start) <= MAX_DISTANCE
      modifies out, out.ring, out.ring.buffer
      ensures out.Open() && out.Base() == old(out.Base()) && out.ring.buffer == old(out.ring.buffer)
      ensures ok ==> out.Log() == old(out.Log()) + CopyLog(mem, c.start, ChunksOf(c)) + [Commit]
      ensures !ok ==> out.GaveUp()
      ensures Paid(old(out.Alone()), old(out.Room()), ChunksOf(c) + 1, ok, out.Room()) && (old(out.Alone()) ==> out.Alone())
    {
      ok := LogCopy(c);
      if ok {
        ok := out.Commit();
      }
    }

    /** The first `i` copies are in the log. */
    ghost predicate CopiesDone(log: seq<Entry>, cs: seq<Copy>, i: nat, alone: bool, room: int)
      requires i <= |cs|
      reads this, out, out.ring
    {
      && out.Log() == log + CopiesLog(mem, cs[..i]) && (alone ==> out.Alone())
      && Paid(alone, room, |CopiesLog(mem, cs[..i])|, true, out.Room())
    }

    method NextCopy(c: Copy, ghost log: seq<Entry>, ghost cs: seq<Copy>, ghost i: nat, ghost alone: bool, ghost room: int)
      returns (ok: bool)
      requires out.Open() && i < |cs| && c == cs[i] && Int32(c.end - c.start) <= MAX_DISTANCE
      requires CopiesDone(log, cs, i, alone, room)
      modifies out, out.ring, out.ring.buffer
      ensures out.Open() && out.Base() == old(out.Base()) && out.ring.buffer == old(out.ring.buffer)
      ensures ok ==> CopiesDone(log, cs, i + 1, alone, room)
      ensures !ok ==> out.GaveUp() && (alone ==> out.Alone())
      ensures !ok ==> Paid(alone, room, |CopiesLog(mem, cs)|, false, out.Room())
    {
      CopiesCost(mem, cs, i);
      CopiesNext(log, mem, cs, i);
      ok := CommitCopy(c);
    }

    /** The first half of instrument_stop: log and commit every copy. */
    method LogCopies() returns (ok: bool)
      requires count <= copies.Length && out.Open() && Countable(copies[..count])
      modifies out, out.ring, out.ring.buffer
      ensures out.Open() && out.Base() == old(out.Base()) && out.ring.buffer == old(out.ring.buffer)
      ensures ok ==> out.Log() == old(out.Log()) + CopiesLog(mem, copies[..count])
      ensures !ok ==> out.GaveUp()
      ensures Paid(old(out.Alone()), old(out.Room()), |CopiesLog(mem, copies[..count])|, ok, out.Room())
      ensures old(out.Alone()) ==> out.Alone()
    {
      var i := 0;
      ghost var log, cs := out.Log(), copies[..count];
      while i < count
        invariant i <= count && copies[..count] == cs
        invariant out.Open() && out.Base() == old(out.Base()) && out.ring.buffer == old(out.ring.buffer)
        invariant CopiesDone(log, cs, i, old(out.Alone()), old(out.Room()))
      {
        assert copies[i] == cs[i];
        ok := NextCopy(copies[i], log, cs, i, old(out.Alone()), old(out.Room()));
        if !ok {
          return;
        }
        i := i + 1;
      }
      assert cs[..i] == cs;
      ok := true;
    }

    /**
     collect_payload_and_store_to_pmem: log the blocks of the table, empty it, commit, and write
     head and tail back.
     */
    method CollectPayload() returns (ok: bool)
      requires out.Open()
      modifies out, out.ring, out.ring.buffer, entries
      ensures out.ring.Valid() && out.Base() == old(out.Base()) && out.ring.buffer == old(out.ring.buffer)
      ensures ok ==> out.Closed() && out.AllPublished()
      ensures ok ==> out.Log() == old(out.Log()) + (TableLog(mem, old(entries[..])) + [Commit])
      ensures ok ==> forall i | 0 <= i < entries.Length :: entries[i] == 0
      ensures !ok ==> out.GaveUp()
      ensures Paid(old(out.Alone()), old(out.Room()), |TableLog(mem, old(entries[..]))| + 1, ok, out.RoomAtBegin())
    {
      ghost var log, t := out.Log(), entries[..];
      ok := LogTable();
      if !ok {
        return;
      }
      ok := out.Commit();
      if !ok {
        return;
      }
      out.End();
      assert log + TableLog(mem, t) + [Commit] == log + (TableLog(mem, t) + [Commit]);
    }

    method LogTable() returns (ok: bool)
      requires out.Open()
      modifies out, out.ring, out.ring.buffer, entries
      ensures out.Open() && out.Base() == old(out.Base()) && out.ring.buffer == old(out.ring.buffer)
      ensures ok ==> out.Log() == old(out.Log()) + TableLog(mem, old(entries[..]))
      ensures ok ==> forall i | 0 <= i < entries.Length :: entries[i] == 0
      ensures !ok ==> out.GaveUp()
      ensures Paid(old(out.Alone()), old(out.Room()), |TableLog(mem, old(entries[..]))|, ok, out.Room())
      ensures old(out.Alone()) ==> out.Alone()
    {
      ghost var log, t := out.Log(), entries[..];
      var i := 0;
      while i < entries.Length
        invariant i <= entries.Length == |t|
        invariant out.Open() && out.Base() == old(out.Base()) && out.ring.buffer == old(out.ring.buffer)
        invariant forall j | 0 <= j < entries.Length :: entries[j] == if j < i then 0 else t[j]
        invariant out.Log() == log + TableLog(mem, t[..i])
        invariant Paid(old(out.Alone()), old(out.Room()), |TableLog(mem, t[..i])|, true, out.Room())
        invariant old(out.Alone()) ==> out.Alone()
      {
        TableNext(log, mem, t, i);
        TableCost(mem, t, i);
        ok := LogSlot(i);
        if !ok {
          return;
        }
        i := i + 1;
      }
      assert t[..i] == t;
      ok := true;
    }

    /** One slot of the table: its block is logged if it is above 1000, and the slot is emptied. */
    method LogSlot(i: nat) returns (ok: bool)
      requires out.Open() && i < entries.Length
      modifies out, out.ring, out.ring.buffer, entries
      ensures out.Open() && out.Base() == old(out.Base()) && out.ring.buffer == old(out.ring.buffer)
      ensures ok ==> out.Log() == old(out.Log()) + SlotLog(mem, old(entries[i]))
      ensures ok ==> forall j | 0 <= j < entries.Length :: entries[j] == if j == i then 0 else old(entries[j])
      ensures !ok ==> out.GaveUp()
      ensures Paid(old(out.Alone()), old(out.Room()), |SlotLog(mem, old(entries[i]))|, ok, out.Room())
      ensures old(out.Alone()) ==> out.Alone()
    {
      ok := true;
      if entries[i] != 0 {
        if entries[i] > LOWEST {
          ok := out.Enqueue(entries[i], Bytes(mem, entries[i], PAYLOAD_SIZE));
          if !ok {
            return;
          }
        }
        entries[i] := 0;
      }
    }

    /**
     instrument_stop: everything recorded is published through the ring and forgotten, and the
     image then equals memory exactly when every difference had been tracked.  It fails only when a
     wait for room was given up or a commit refresh would have been stale, never when there is room
     for all entries, and always without it if the consumer does not help.
     */
    method InstrumentStop() returns (ok: bool)
      requires Valid() && out.Closed()
      requires Countable(copies[..count]) && Readable(mem, copies[..count], entries[..])
      modifies this`combiner, this`numberOfEntries, this`count, entries, out, out.ring, out.ring.buffer
      ensures out.ring.Valid() && out.ring.buffer == old(out.ring.buffer) && combiner == 0
      ensures ok ==> Valid() && out.Closed() && out.AllPublished()
      ensures ok ==> JustPublished(out.ring.s, old(out.Log()), mem, old(copies[..count]), old(entries[..]))
      ensures ok ==> count == 0 && numberOfEntries == 0 && Contents(entries[..]) == {}
      ensures ok ==> (InStep() <==> old(AllTracked()))
      ensures !ok ==> out.GaveUp()
      ensures Paid(old(out.AloneAtBegin()), old(out.RoomAtBegin()), old(StopSize()), ok, out.RoomAtBegin())
    {
      ghost var cs, t, log := copies[..count], entries[..], out.Log();
      ok := StopSession();
      if ok {
        Stopped(this, log, cs, t);
      }
    }

    /** How many entries instrument_stop would enqueue now. */
    ghost function StopSize(): nat
      requires count <= copies.Length
      reads this, entries, copies
    {
      |StopLog(mem, copies[..count], entries[..])|
    }

    method StopSession() returns (ok: bool)
      requires count <= copies.Length && out.Closed() && Countable(copies[..count])
      modifies this`combiner, this`numberOfEntries, this`count, entries, out, out.ring, out.ring.buffer
      ensures out.ring.Valid() && out.Base() == old(out.Base()) && out.ring.buffer == old(out.ring.buffer) && combiner == 0
      ensures ok ==> out.Closed() && out.AllPublished() && count == 0 && numberOfEntries == 0
      ensures ok ==> out.Log() == old(out.Log()) + StopLog(mem, old(copies[..count]), old(entries[..]))
      ensures ok ==> forall i | 0 <= i < entries.Length :: entries[i] == 0
      ensures !ok ==> out.GaveUp()
      ensures Paid(old(out.AloneAtBegin()), old(out.RoomAtBegin()), old(StopSize()), ok, out.RoomAtBegin())
    {
      combiner := 0;
      ok := PublishAll();
      if ok {
        Forget();
      }
    }

    method Forget()
      modifies this`numberOfEntries, this`count
      ensures numberOfEntries == 0 && count == 0
    {
      numberOfEntries := 0;
      count := 0;
    }

    /** The session of instrument_stop. */
    method PublishAll() returns (ok: bool)
      requires count <= copies.Length && out.Closed() && Countable(copies[..count])
      modifies entries, out, out.ring, out.ring.buffer
      ensures out.ring.Valid() && out.Base() == old(out.Base()) && out.ring.buffer == old(out.ring.buffer)
      ensures ok ==> out.Closed() && out.AllPublished()
      ensures ok ==> out.Log() == old(out.Log()) + StopLog(mem, copies[..count], old(entries[..]))
      ensures ok ==> forall i | 0 <= i < entries.Length :: entries[i] == 0
      ensures !ok ==> out.GaveUp()
      ensures Paid(old(out.AloneAtBegin()), old(out.RoomAtBegin()), old(StopSize()), ok, out.RoomAtBegin())
    {
      ghost var log, cs, t := out.Log(), copies[..count], entries[..];
      out.Begin();
      ok := LogCopies();
      if ok {
        ok := CollectPayload();
        StopAppended(log, mem, cs, t);
      }
    }
  }

  lemma TableNext(log: seq<Entry>, mem: Image, t: seq<nat>, i: nat)
    requires i < |t|
    ensures log + TableLog(mem, t[..i]) + SlotLog(mem, t[i]) == log + TableLog(mem, t[..i + 1])
  {
    assert t[..i + 1][..i] == t[..i];
  }

  lemma CopiesNext(log: seq<Entry>, mem: Image, cs: seq<Copy>, i: nat)
    requires i < |cs|
    ensures log + CopiesLog(mem, cs[..i]) + CopyLog(mem, cs[i].start, ChunksOf(cs[i])) + [Commit]
         == log + CopiesLog(mem, cs[..i + 1])
  {
    assert cs[..i + 1][..i] == cs[..i];
  }

  lemma TableEmptied(t: seq<nat>)
    requires |t| > 0 && forall i | 0 <= i < |t| :: t[i] == 0
    ensures TableOk(t) && Occupied(t) == 0 && Contents(t) == {}
  {
    OccupiedEmpty(t);
  }

  lemma ChunkLeft(c: Copy, n: nat)
    requires PAYLOAD_SIZE * n < Int32(c.end - c.start) <= MAX_DISTANCE
    ensures n < ChunksOf(c) && PAYLOAD_SIZE * (n + 1) <= MAX_DISTANCE
  {}

  lemma StopAppended(log: seq<Entry>, mem: Image, cs: seq<Copy>, t: seq<nat>)
    ensures log + CopiesLog(mem, cs) + (TableLog(mem, t) + [Commit]) == log + StopLog(mem, cs, t)
    ensures |StopLog(mem, cs, t)| == |CopiesLog(mem, cs)| + (|TableLog(mem, t)| + 1)
  {
    assert log + CopiesLog(mem, cs) + (TableLog(mem, t) + [Commit]) == log + StopLog(mem, cs, t);
  }

  /** What the next copy costs, and that it is part of the whole. */
  lemma CopiesCost(mem: Image, cs: seq<Copy>, i: nat)
    requires i < |cs|
    ensures |CopiesLog(mem, cs[..i + 1])| == |CopiesLog(mem, cs[..i])| + ChunksOf(cs[i]) + 1
    ensures |CopiesLog(mem, cs[..i + 1])| <= |CopiesLog(mem, cs)|
  {
    assert cs[..i + 1][..i] == cs[..i];
    CopyLength(mem, cs[i].start, ChunksOf(cs[i]));
    CopiesGrow(mem, cs, i + 1);
  }

  lemma {:induction false} CopyLength(mem: Image, start: int, n: nat)
    ensures |CopyLog(mem, start, n)| == n
  {
    if n > 0 {
      CopyLength(mem, start, n - 1);
    }
  }

  lemma {:induction false} CopiesGrow(mem: Image, cs: seq<Copy>, i: nat)
    requires i <= |cs|
    ensures |CopiesLog(mem, cs[..i])| <= |CopiesLog(mem, cs)|
  {
    if i == |cs| {
      assert cs[..i] == cs;
    } else {
      assert cs[..|cs| - 1][..i] == cs[..i];
      CopiesGrow(mem, cs[..|cs| - 1], i);
    }
  }

  /** What the next slot costs, and that it is part of the whole. */
  lemma TableCost(mem: Image, t: seq<nat>, i: nat)
    requires i < |t|
    ensures |TableLog(mem, t[..i + 1])| == |TableLog(mem, t[..i])| + |SlotLog(mem, t[i])|
    ensures |TableLog(mem, t[..i + 1])| <= |TableLog(mem, t)|
  {
    assert t[..i + 1][..i] == t[..i];
    TableGrow(mem, t, i + 1);
  }

  lemma {:induction false} TableGrow(mem: Image, t: seq<nat>, i: nat)
    requires i <= |t|
    ensures |TableLog(mem, t[..i])| <= |TableLog(mem, t)|
  {
    if i == |t| {
      assert t[..i] == t;
    } else {
      assert t[..|t| - 1][..i] == t[..i];
      TableGrow(mem, t[..|t| - 1], i);
    }
  }

  /** The state instrument_stop leaves behind. */
  lemma Stopped(x: Tracker, before: seq<Entry>, cs: seq<Copy>, t: seq<nat>)
    requires x.copies.Length == MAX_NUM_OF_MEMCPY && x.count == 0 && x.numberOfEntries == 0
    requires x.entries.Length > 0 && forall i | 0 <= i < x.entries.Length :: x.entries[i] == 0
    requires x.out.Log() == before + StopLog(x.mem, cs, t) && x.out.AllPublished()
    requires (x.out.Base() + Delta(before)).Keys == x.mem.Keys && Readable(x.mem, cs, t)
    ensures x.Valid() && Contents(x.entries[..]) == {} && JustPublished(x.out.ring.s, before, x.mem, cs, t)
    ensures x.InStep() <==> Tracked(x.out.Base() + Delta(before), x.mem, cs, t)
  {
    StopDone(x.out.ring.s, before, x.mem, cs, t);
    Forgotten(x);
  }

  /** With nothing recorded, being in step is a matter of the image. */
  lemma Forgotten(x: Tracker)
    requires x.copies.Length == MAX_NUM_OF_MEMCPY && x.count == 0 && x.numberOfEntries == 0
    requires x.entries.Length > 0 && forall i | 0 <= i < x.entries.Length :: x.entries[i] == 0
    requires x.Shadow().Keys == x.mem.Keys
    ensures x.Valid() && Contents(x.entries[..]) == {} && (x.InStep() <==> x.Shadow() == x.mem)
  {
    EmptyTable(x);
  }

  lemma EmptyTable(x: Tracker)
    requires x.entries.Length > 0 && forall i | 0 <= i < x.entries.Length :: x.entries[i] == 0
    ensures TableOk(x.entries[..]) && Occupied(x.entries[..]) == 0 && Contents(x.entries[..]) == {}
  {
    TableEmptied(x.entries[..]);
  }
}
