/**
 A producer session on the ring: the thread-local head and tail, and the wait loops, with the
 consumer running while the producer waits.
 */
module Producer {
  import opened Options
  import opened RedoLog
  import opened RingSlots
  import opened Ring
  import opened RingTheorems
  import opened RingRecovery
  import opened RingFile
  import opened RingRuns
  import opened RingWakeup

  /**
   Whether `cost` entries were enqueued, by the room before: enough room is sufficient, and for a
   producer that gets no help it is necessary too.
   */
  predicate Paid(alone: bool, before: int, cost: int, ok: bool, after: int) {
    && (before >= cost ==> ok && after == before - cost)
    && (alone && ok ==> before >= cost)
  }

  class Session {
    const ring: RingBuffer
    var head: nat                  // thread_local_head
    var tail: nat                  // thread_local_tail
    var patience: nat              // turns the consumer gets before the wait is given up

    /** The producer is between loading its head and tail and writing them back. */
    ghost predicate Open()
      reads this, ring, ring.buffer
    {
      && ring.Valid() && ring.AtRest() && ring.s.producer.Working?
      && head == ring.s.localHead && tail == ring.s.localTail
    }

    ghost predicate Closed()
      reads this, ring, ring.buffer
    {
      ring.Valid() && ring.AtRest() && ring.s.producer == NoSession
    }

    /** Every entry enqueued so far. */
    ghost function Log(): seq<Entry>
      reads ring
    {
      ring.s.h.log
    }

    /** Every entry enqueued is published. */
    ghost predicate AllPublished()
      reads ring
    {
      ring.s.h.pub == |ring.s.h.log|
    }

    ghost function Base(): Image
      reads ring
    {
      ring.s.h.base
    }

    constructor (r: RingBuffer, turns: nat)
      requires r.Valid() && r.AtRest() && r.s.producer == NoSession
      ensures Closed() && ring == r
    {
      ring, head, tail, patience := r, 0, 0, turns;
    }

    method Begin()
      requires Closed()
      modifies this, ring
      ensures Open() && Log() == old(Log()) && Base() == old(Base()) && ring.buffer == old(ring.buffer)
      ensures Room() == old(RoomAtBegin()) && patience == old(patience) && Alone() == old(AloneAtBegin())
    {
      head, tail := ring.BeginSession();
    }

    /** The write-back of head and tail. */
    method End()
      requires Open() && ring.s.producer == Working(true)
      modifies this, ring
      ensures Closed() && AllPublished() && Log() == old(Log()) && Base() == old(Base())
      ensures ring.buffer == old(ring.buffer) && ring.lastPersistedHead == head && ring.lastPersistedTail == tail
      ensures RoomAtBegin() == old(Room())
    {
      ring.EndSession(head, tail);
      SessionOver(ring.n, ring.base, ring.s);
    }

    /** How many entries fit before the head has to be refreshed. */
    function Room(): int
      reads this, ring
    {
      if head < ring.n && tail < ring.n then ring.n - 1 - Dist(ring.n, head, tail) else 0
    }

    /** The room a session that begins now starts with. */
    function RoomAtBegin(): int
      reads ring
    {
      if ring.lastPersistedHead < ring.n && ring.lastPersistedTail < ring.n
      then ring.n - 1 - Dist(ring.n, ring.lastPersistedHead, ring.lastPersistedTail) else 0
    }

    /** The consumer gets no turn, and both copies of the head are the one already loaded. */
    predicate Alone()
      reads this, ring
    {
      patience == 0 && head == ring.remoteHead == ring.lastPersistedHead
    }

    predicate AloneAtBegin()
      reads this, ring
    {
      patience == 0 && ring.remoteHead == ring.lastPersistedHead
    }

    /** The ring looks full, and the wait has been given up or would end in a stale refresh. */
    predicate GaveUp()
      reads this, ring
    {
      Room() == 0 && (patience == 0 || !RefreshIsFresh())
    }

    /** There is room for an entry, or a refresh or the consumer will make some. */
    ghost predicate EntryFits()
      reads this, ring
    {
      Room() > 0 || ring.remoteHead != head || WillCommit(ring.s)
    }

    /** The same for a COMMIT, which looks at the mirrored head. */
    ghost predicate CommitFits()
      reads this, ring
    {
      Room() > 0 || (RefreshIsFresh() && (ring.lastPersistedHead != head || WillCommit(ring.s)))
    }

    /** The consumer gets a turn while the producer waits for room. */
    method Wait() returns (entry: Option<Entry>)
      requires Open() && patience > 0
      modifies this`patience, ring
      ensures Open() && Log() == old(Log()) && Base() == old(Base()) && ring.buffer == old(ring.buffer)
      ensures ring.s.producer == old(ring.s.producer) && ring.s.h.pub == old(ring.s.h.pub)
      ensures patience == old(patience) - 1
      ensures entry.Some? ==> ring.s.h.con == old(ring.s.h.con) + 1
      ensures entry != Some(RedoLog.Commit) ==> HeadsKept(old(ring.s), ring.s)
      ensures entry == Some(RedoLog.Commit) ==> ring.remoteHead == ring.lastPersistedHead != head
      ensures old(WillCommit(ring.s)) ==> entry.Some? && (entry.value.Redo? ==> WillCommit(ring.s))
      ensures old(!WillCommit(ring.s)) ==> entry != Some(RedoLog.Commit) && !WillCommit(ring.s)
    {
      BusySituated(ring.n, ring.base, ring.s);
      entry := ring.ConsumerTurn();
      BusySituated(ring.n, ring.base, ring.s);
      patience := patience - 1;
    }

    /**
     Enqueue with its wait loop.  It fails only when the wait was given up, and with patience for a
     whole ring exactly when neither a refresh nor the consumer will make room.
     */
    method Enqueue(addr: int, payload: seq<int>) returns (ok: bool)
      requires Open()
      modifies this, ring, ring.buffer
      ensures Open() && Base() == old(Base()) && ring.buffer == old(ring.buffer)
      ensures Log() == old(Log()) + (if ok then [Redo(addr, payload)] else [])
      ensures !ok ==> GaveUp()
      ensures Paid(old(Alone()), old(Room()), 1, ok, Room()) && (old(Alone()) ==> Alone())
      ensures old(patience) >= ring.n ==> (ok <==> old(EntryFits()))
    {
      ghost var w, c := WillCommit(ring.s), ring.s.h.con;
      BusySituated(ring.n, ring.base, ring.s);
      ok := TryEnqueue(addr, payload);
      while !ok && patience > 0
        invariant Open() && Base() == old(Base()) && ring.buffer == old(ring.buffer)
        invariant Log() == old(Log()) + (if ok then [Redo(addr, payload)] else [])
        invariant Paid(old(Alone()), old(Room()), 1, ok, Room()) && (old(Alone()) ==> Alone())
        invariant !ok ==> Room() == 0 && ring.remoteHead == head && old(ring.remoteHead == head)
        invariant !ok ==> Pending(w, c, old(patience)) && ring.s.h.pub == old(ring.s.h.pub)
        invariant ok ==> old(EntryFits())
        decreases !ok, patience
      {
        ok := TurnThenEnqueue(addr, payload, w, c, old(patience));
      }
      BusySituated(ring.n, ring.base, ring.s);
    }

    /** A waiting producer has used one turn for each entry that a consumer which will commit took. */
    ghost predicate Pending(w: bool, con: nat, before: nat)
      reads this, ring
    {
      WillCommit(ring.s) == w && (w ==> ring.s.h.con - con == before - patience)
    }

    /** One turn of the wait loop of an enqueue. */
    method TryEnqueue(addr: int, payload: seq<int>) returns (ok: bool)
      requires Open()
      modifies this`head, this`tail, ring, ring.buffer
      ensures Open() && Base() == old(Base()) && ring.buffer == old(ring.buffer)
      ensures Log() == old(Log()) + (if ok then [Redo(addr, payload)] else [])
      ensures ok <==> old(Room() > 0 || ring.remoteHead != head)
      ensures old(Room()) > 0 ==> Room() == old(Room()) - 1
      ensures old(Alone()) ==> Alone()
      ensures !ok ==> Room() == 0 && ring.remoteHead == head == old(head) && ring.s == old(ring.s).(h := ring.s.h)
      ensures ring.s.h.pub == old(ring.s.h.pub) && ring.s.h.con == old(ring.s.h.con)
    {
      RoomLeft(ring.n, head, tail);
      ok, head, tail := ring.EnqueueRedoLogEntry(addr, payload, head, tail);
      RoomLeft(ring.n, head, tail);
    }

    /** The consumer gets a turn, then the producer looks again. */
    method TurnThenEnqueue(addr: int, payload: seq<int>, ghost w: bool, ghost con: nat, ghost before: nat) returns (ok: bool)
      requires Open() && patience > 0 && Room() == 0 && ring.remoteHead == head && Pending(w, con, before)
      modifies this, ring, ring.buffer
      ensures Open() && Base() == old(Base()) && ring.buffer == old(ring.buffer)
      ensures Log() == old(Log()) + (if ok then [Redo(addr, payload)] else [])
      ensures patience == old(patience) - 1 && ring.s.h.pub == old(ring.s.h.pub)
      ensures ok ==> w
      ensures !ok ==> Room() == 0 && ring.remoteHead == head && Pending(w, con, before)
    {
      var _ := Wait();
      ok := TryEnqueue(addr, payload);
    }

    /** The commit-refresh hypothesis, as the code could test it. */
    predicate RefreshIsFresh()
      reads this, ring
    {
      && head < ring.n && tail < ring.n && ring.lastPersistedHead < ring.n && ring.remoteHead < ring.n
      && (Next(ring.n, tail) != head
          || Dist(ring.n, head, ring.lastPersistedHead) <= Dist(ring.n, head, ring.remoteHead))
    }

    /**
     Commit with its wait loop.  It fails only when the wait was given up or the first refresh would
     be stale, and with patience for a whole ring exactly when the refresh would be stale or neither
     it nor the consumer will make room.
     */
    method Commit() returns (ok: bool)
      requires Open()
      modifies this, ring, ring.buffer
      ensures Open() && Base() == old(Base()) && ring.buffer == old(ring.buffer)
      ensures Log() == old(Log()) + (if ok then [RedoLog.Commit] else [])
      ensures ok ==> ring.s.producer == Working(true) && AllPublished()
      ensures !ok ==> GaveUp()
      ensures Paid(old(Alone()), old(Room()), 1, ok, Room()) && (old(Alone()) ==> Alone())
      ensures old(patience) >= ring.n ==> (ok <==> old(CommitFits()))
    {
      ghost var w, c := WillCommit(ring.s), ring.s.h.con;
      BusySituated(ring.n, ring.base, ring.s);
      RoomLeft(ring.n, head, tail);
      ok := false;
      if !RefreshIsFresh() {
        return;
      }
      ok := TryCommit();
      while !ok && patience > 0
        invariant Open() && Base() == old(Base()) && ring.buffer == old(ring.buffer)
        invariant Log() == old(Log()) + (if ok then [RedoLog.Commit] else [])
        invariant ok ==> ring.s.producer == Working(true) && AllPublished()
        invariant Paid(old(Alone()), old(Room()), 1, ok, Room()) && (old(Alone()) ==> Alone())
        invariant !ok ==> Room() == 0 && ring.lastPersistedHead == head && old(ring.lastPersistedHead == head)
        invariant !ok ==> Pending(w, c, old(patience)) && ring.s.h.pub == old(ring.s.h.pub)
        invariant ok ==> old(CommitFits())
        decreases !ok, patience
      {
        ok := TurnThenCommit(w, c, old(patience));
      }
      BusySituated(ring.n, ring.base, ring.s);
    }

    /** One turn of the wait loop of a commit. */
    method TryCommit() returns (ok: bool)
      requires Open() && RefreshIsFresh()
      modifies this`head, this`tail, ring, ring.buffer
      ensures Open() && Base() == old(Base()) && ring.buffer == old(ring.buffer)
      ensures Log() == old(Log()) + (if ok then [RedoLog.Commit] else [])
      ensures ok <==> old(Room() > 0 || ring.lastPersistedHead != head)
      ensures ok ==> ring.s.producer == Working(true) && AllPublished()
      ensures old(Room()) > 0 ==> Room() == old(Room()) - 1
      ensures old(Alone()) ==> Alone()
      ensures !ok ==> Room() == 0 && ring.lastPersistedHead == head == old(head) && ring.s == old(ring.s)
    {
      RoomLeft(ring.n, head, tail);
      ok, head, tail := ring.CommitEnqueuedEntries(head, tail);
      RoomLeft(ring.n, head, tail);
    }

    /** The consumer gets a turn, then the producer looks again; its refresh is fresh by then. */
    method TurnThenCommit(ghost w: bool, ghost con: nat, ghost before: nat) returns (ok: bool)
      requires Open() && patience > 0 && Room() == 0 && ring.lastPersistedHead == head && Pending(w, con, before)
      modifies this, ring, ring.buffer
      ensures Open() && Base() == old(Base()) && ring.buffer == old(ring.buffer)
      ensures Log() == old(Log()) + (if ok then [RedoLog.Commit] else [])
      ensures ok ==> w && ring.s.producer == Working(true) && AllPublished()
      ensures patience == old(patience) - 1
      ensures !ok ==> Room() == 0 && ring.lastPersistedHead == head && Pending(w, con, before)
      ensures !ok ==> ring.s.h.pub == old(ring.s.h.pub)
    {
      var _ := Wait();
      ok := TryCommit();
    }
  }

  /** No room is what the code's test sees, and an entry takes one slot of it. */
  lemma RoomLeft(n: nat, head: nat, tail: nat)
    requires head < n && tail < n
    ensures 0 <= n - 1 - Dist(n, head, tail)
    ensures Next(n, tail) == head <==> n - 1 - Dist(n, head, tail) == 0
    ensures Next(n, tail) != head ==> Dist(n, head, Next(n, tail)) == Dist(n, head, tail) + 1
  {}
}
