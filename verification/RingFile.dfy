/**
 The C functions on the ring, each run without interference, as methods that update the mapped
 file in place.  Each is exactly a sequence of steps of the machine, so everything proved of the
 machine's runs holds when the functions are interrupted at any store.
 */
module RingFile {
  import opened Options
  import opened RedoLog
  import opened RingSlots
  import opened Ring
  import opened RingInvariant
  import opened RingTheorems
  import opened RingRecovery
  import opened RingRuns
  import opened RingWakeup

  /** The producer's step leaves the consumer's side and the publication alone. */
  ghost predicate ProducerMoved(s: State, s': State) {
    SameConsumer(s, s') && s'.h.pub == s.h.pub
  }

  ghost predicate SameConsumer(s: State, s': State) {
    && s'.consumer == s.consumer && s'.recovering == s.recovering && s'.h.base == s.h.base
    && s'.h.com == s.h.com && s'.h.con == s.h.con && s'.image == s.image
  }

  ghost predicate SameProducer(s: State, s': State) {
    && s'.producer == s.producer && s'.localHead == s.localHead && s'.localTail == s.localTail
    && s'.h.cachedHead == s.h.cachedHead
  }

  /** No head was stored or mirrored. */
  ghost predicate HeadsKept(s: State, s': State) {
    && s'.remoteHead == s.remoteHead && s'.lastPersistedHead == s.lastPersistedHead && s'.h.com == s.h.com
    && s'.remoteTail == s.remoteTail && s'.lastPersistedTail == s.lastPersistedTail && s'.buf == s.buf
  }

  /** The consumer took `e`, the next entry of the log. */
  ghost predicate TookNext(s: State, s': State, e: Entry) {
    && s.h.con < s'.h.pub <= |s'.h.log| && e == s'.h.log[s.h.con] && s'.h.con == s.h.con + 1
  }

  /** A turn brings a consumer that will commit to the next entry, and no other to commit. */
  ghost predicate TurnFate(s: State, s': State, entry: Option<Entry>) {
    && (WillCommit(s) ==> entry.Some? && (entry.value.Redo? ==> WillCommit(s')))
    && (!WillCommit(s) ==> entry != Some(RedoLog.Commit) && !WillCommit(s'))
  }

  class RingBuffer {
    const n: nat
    ghost const base: Image        // the image before the first entry
    var buffer: array<Entry>
    var remoteHead: nat
    var remoteTail: nat
    var lastPersistedHead: nat
    var lastPersistedTail: nat
    var ringBufferHead: nat        // commit_metadata.ringBufferHead
    var globalHead: nat            // the consumer's cursors
    var globalTail: nat
    var image: Image               // the persistent memory
    var dequeuing: bool            // run_consumer is inside ring_buffer_dequeue
    ghost var s: State             // the machine state the fields stand for

    ghost predicate Matches()
      reads this, buffer
    {
      && buffer[..] == s.buf
      && remoteHead == s.remoteHead && remoteTail == s.remoteTail
      && lastPersistedHead == s.lastPersistedHead && lastPersistedTail == s.lastPersistedTail
      && ringBufferHead == s.metaHead
      && globalHead == s.globalHead && globalTail == s.globalTail
      && image == s.image
    }

    ghost predicate Valid()
      reads this, buffer
    {
      n >= 2 && Shaped(n, s) && Reached(n, base, s) && Matches()
    }

    /** The consumer is at the top of its loop or waiting for an entry. */
    ghost predicate AtRest()
      reads this
    {
      !s.recovering && s.consumer == if dequeuing then Dequeuing else GuardLoad
    }

    /** ring_buffer_create_and_initialise on a new file. */
    constructor (size: nat, initial: Image)
      requires size >= 2
      ensures Valid() && AtRest() && fresh(buffer) && n == size && s == Init(size, initial) && base == initial
    {
      n := size;
      buffer := new Entry[size](_ => RedoLog.Commit);
      remoteHead, remoteTail, lastPersistedHead, lastPersistedTail := 0, 0, 0, 0;
      ringBufferHead, globalHead, globalTail, image := 0, 0, 0, initial;
      base, dequeuing := initial, false;
      s := Init(size, initial);
      new;
      ReachedInit(n, base);
    }

    /** One step of the machine. */
    ghost method Tick(a: Step)
      requires Shaped(n, s) && Reached(n, base, s) && Enabled(n, s, a) && FreshRefresh(n, s, a)
      modifies this`s
      ensures s == Do(n, old(s), a) && Shaped(n, s) && Reached(n, base, s)
    {
      ghost var s' := Do(n, s, a);
      ReachedStep(n, base, s, a, s');
      ReachedShape(n, base, s');
      s := s';
    }

    /** The two loads that begin a producer session. */
    method BeginSession() returns (head: nat, tail: nat)
      requires Valid() && s.producer == NoSession && !s.recovering
      modifies this`s
      ensures Valid() && s.producer == Working(false) && head == s.localHead && tail == s.localTail
      ensures s.h.log == old(s.h.log) && ProducerMoved(old(s), s)
      ensures head == lastPersistedHead && tail == lastPersistedTail
    {
      Tick(LoadHead);
      head := lastPersistedHead;
      Tick(LoadTail);
      tail := lastPersistedTail;
    }

    /** The two write-backs that end it; the head may be older than the one in the file. */
    method EndSession(head: nat, tail: nat)
      requires Valid() && s.producer == Working(true) && head == s.localHead && tail == s.localTail
      modifies this`s, this`lastPersistedHead, this`lastPersistedTail
      ensures Valid() && s.producer == NoSession && lastPersistedHead == head && lastPersistedTail == tail
      ensures s.h.log == old(s.h.log) && ProducerMoved(old(s), s)
    {
      Tick(WriteBackHead);
      lastPersistedHead := head;
      Tick(WriteBackTail);
      lastPersistedTail := tail;
    }

    /**
     ring_buffer_enqueue_redo_log_entry, up to one turn of its wait loop; `payload` is what is found
     at `addr`.  When the turn gave no room the caller waits on and calls again.
     */
    method EnqueueRedoLogEntry(addr: int, payload: seq<int>, head: nat, tail: nat)
      returns (ok: bool, head': nat, tail': nat)
      requires Valid() && s.producer.Working? && head == s.localHead && tail == s.localTail
      modifies this`s, buffer
      ensures Valid() && s.producer.Working? && head' == s.localHead && tail' == s.localTail
      ensures ok <==> Next(n, tail) != head || Next(n, tail) != remoteHead
      ensures s.h.log == old(s.h.log) + (if ok then [Redo(addr, payload)] else [])
      ensures !ok ==> s == old(s).(h := s.h) && Next(n, tail') == head' && tail' == tail && head' == head
      ensures ok ==> tail' == Next(n, tail) && head' == (if Next(n, tail) != head then head else remoteHead)
      ensures ProducerMoved(old(s), s)
    {
      head' := head;
      if Next(n, tail) == head' {
        Tick(EnqueueRefresh);
        head' := remoteHead;
      }
      ok, tail' := Next(n, tail) != head', tail;
      if ok {
        tail' := WriteRedo(addr, payload, tail);
      }
    }

    method WriteRedo(addr: int, payload: seq<int>, tail: nat) returns (tail': nat)
      requires Valid() && s.producer.Working? && tail == s.localTail && Next(n, tail) != s.localHead
      modifies this`s, buffer
      ensures Valid() && s.producer.Working? && s.localHead == old(s.localHead) && tail' == s.localTail == Next(n, tail)
      ensures s.h.log == old(s.h.log) + [Redo(addr, payload)] && ProducerMoved(old(s), s)
    {
      Tick(Enqueue(addr, payload));
      buffer[tail] := Redo(addr, payload);
      tail' := Next(n, tail);
    }

    /**
     ring_buffer_commit_enqueued_entries, up to one turn of its wait loop.  The turn re-reads the
     mirrored head; the commit-refresh hypothesis is required of it.
     */
    method CommitEnqueuedEntries(head: nat, tail: nat) returns (ok: bool, head': nat, tail': nat)
      requires Valid() && s.producer.Working? && head == s.localHead && tail == s.localTail
      requires Next(n, tail) != head || FreshRefresh(n, s, CommitRefresh)
      modifies this`s, this`remoteTail, this`lastPersistedTail, buffer
      ensures Valid() && s.producer.Working? && head' == s.localHead && tail' == s.localTail
      ensures ok <==> Next(n, tail) != head || Next(n, tail) != lastPersistedHead
      ensures ok ==> s.producer == Working(true) && s.h.log == old(s.h.log) + [RedoLog.Commit]
      ensures ok ==> s.h.pub == s.h.lpt == |s.h.log| && PublishedImage(s) == old(s.h.base + Delta(s.h.log))
      ensures !ok ==> s == old(s) && Next(n, tail') == head' && tail' == tail && head' == head
      ensures ok ==> tail' == Next(n, tail) && head' == (if Next(n, tail) != head then head else lastPersistedHead)
      ensures SameConsumer(old(s), s)
    {
      head' := head;
      if Next(n, tail) == head' {
        Tick(CommitRefresh);
        head' := lastPersistedHead;
      }
      ok, tail' := Next(n, tail) != head', tail;
      if ok {
        tail' := PublishCommit(tail);
      }
    }

    /** The entry is fenced, then the tail is published, then mirrored. */
    method PublishCommit(tail: nat) returns (tail': nat)
      requires Valid() && s.producer.Working? && tail == s.localTail && Next(n, tail) != s.localHead
      modifies this`s, this`remoteTail, this`lastPersistedTail, buffer
      ensures Valid() && s.producer == Working(true) && s.localHead == old(s.localHead)
      ensures tail' == s.localTail == Next(n, tail)
      ensures s.h.log == old(s.h.log) + [RedoLog.Commit] && s.h.pub == s.h.lpt == |s.h.log|
      ensures PublishedImage(s) == old(s.h.base + Delta(s.h.log)) && SameConsumer(old(s), s)
    {
      ghost var log := s.h.log;
      tail' := WriteCommit(tail);
      PublishTail(tail');
      CommitAddsNothing(log, s.h.log);
    }

    method WriteCommit(tail: nat) returns (tail': nat)
      requires Valid() && s.producer.Working? && tail == s.localTail && Next(n, tail) != s.localHead
      modifies this`s, buffer
      ensures Valid() && s.producer == Publishing && s.localHead == old(s.localHead)
      ensures tail' == s.localTail == Next(n, tail)
      ensures s.h.log == old(s.h.log) + [RedoLog.Commit] && SameConsumer(old(s), s)
    {
      Tick(CommitEntry);
      buffer[tail] := RedoLog.Commit;
      tail' := Next(n, tail);
    }

    method PublishTail(tail: nat)
      requires Valid() && s.producer == Publishing && tail == s.localTail
      modifies this`s, this`remoteTail, this`lastPersistedTail
      ensures Valid() && s.producer == Working(true) && SameConsumer(old(s), s)
      ensures s.localHead == old(s.localHead) && s.localTail == old(s.localTail) && s.h.log == old(s.h.log)
      ensures s.h.pub == s.h.lpt == |s.h.log| && remoteTail == lastPersistedTail == tail
    {
      Tick(Publish);
      remoteTail := tail;
      Tick(MirrorTail);
      lastPersistedTail := remoteTail;
    }

    /**
     ring_buffer_dequeue, up to one turn of its wait loop: the next entry in the order of enqueuing,
     or none when the mirrored tail shows none, and the caller waits on.
     */
    method Dequeue() returns (entry: Option<Entry>)
      requires Valid() && s.consumer == Dequeuing
      modifies this`s, this`globalHead, this`globalTail
      ensures Valid() && SameLog(old(s), s) && SameProducer(old(s), s)
      ensures entry.Some? <==> old(globalHead != globalTail) || old(globalHead) != lastPersistedTail
      ensures entry.Some? ==> s.consumer == Processing(entry.value) && TookNext(old(s), s, entry.value)
      ensures entry.Some? ==> old(globalHead) < |old(s.buf)| && entry.value == old(s.buf[globalHead])
      ensures HeadsKept(old(s), s)
      ensures entry.None? ==> s.consumer == Dequeuing && s.h.con == old(s.h.con) == s.h.lpt
    {
      if globalHead == globalTail {
        Tick(DequeueRefresh);
        globalTail := lastPersistedTail;
      }
      if globalHead == globalTail {
        AllTaken(n, base, s);
        return None;
      }
      entry := Some(buffer[globalHead]);
      NextEntry(n, base, s);
      Tick(Ring.Dequeue);
      globalHead := Next(n, globalHead);
    }

    /** ring_buffer_commit_dequeued_entries: the remote head, then its mirror. */
    method CommitDequeuedEntries()
      requires Valid() && s.consumer == StoringHead
      modifies this`s, this`remoteHead, this`lastPersistedHead
      ensures Valid() && s.consumer == LoopTop(old(s)) && SameLog(old(s), s) && SameProducer(old(s), s)
      ensures remoteHead == lastPersistedHead == globalHead
      ensures s.h.com == s.h.con == old(s.h.con) && s.pending == old(s.pending)
    {
      StoreRemoteHead();
      Tick(MirrorHead);
      lastPersistedHead := remoteHead;
    }

    method StoreRemoteHead()
      requires Valid() && s.consumer == StoringHead
      modifies this`s, this`remoteHead
      ensures Valid() && s == Do(n, old(s), StoreHead)
    {
      Tick(StoreHead);
      remoteHead := globalHead;
    }

    /** commit_rb_batch: the metadata, then the head. */
    method CommitRbBatch()
      requires Valid() && s.consumer == Processing(RedoLog.Commit)
      modifies this`s, this`ringBufferHead, this`remoteHead, this`lastPersistedHead
      ensures Valid() && s.consumer == LoopTop(old(s)) && SameLog(old(s), s) && SameProducer(old(s), s)
      ensures remoteHead == lastPersistedHead == ringBufferHead == globalHead
      ensures s.h.com == s.h.con == old(s.h.con) && s.pending == {}
    {
      Tick(PersistMeta);
      ringBufferHead := globalHead;
      CommitDequeuedEntries();
    }

    /** process_entry; none when ring_buffer_dequeue is still waiting. */
    method ProcessEntry() returns (entry: Option<Entry>)
      requires Valid() && s.consumer == Dequeuing
      modifies this`s, this`globalHead, this`globalTail, this`ringBufferHead, this`remoteHead,
               this`lastPersistedHead, this`image
      ensures Valid() && SameLog(old(s), s) && SameProducer(old(s), s)
      ensures entry.Some? <==> old(globalHead != globalTail) || old(globalHead) != lastPersistedTail
      ensures entry.Some? ==> s.consumer == LoopTop(old(s)) && TookNext(old(s), s, entry.value)
      ensures entry.Some? ==> image == old(image) + Effect(entry.value)
      ensures entry.Some? ==> old(globalHead) < |old(s.buf)| && entry.value == old(s.buf[globalHead])
      ensures entry == Some(RedoLog.Commit) ==> s.h.com == s.h.con && remoteHead == lastPersistedHead
      ensures entry != Some(RedoLog.Commit) ==> HeadsKept(old(s), s)
      ensures entry.None? ==> s.consumer == Dequeuing && s.h.con == old(s.h.con) == s.h.lpt && image == old(image)
      ensures entry.None? ==> lastPersistedHead == old(lastPersistedHead)
    {
      entry := Dequeue();
      match entry {
        case None =>
        case Some(Redo(addr, payload)) =>
          ApplyEntry(addr, payload);
        case Some(Commit) =>
          CommitRbBatch();
          assert image + map[] == image;
      }
    }

    /** The REDO branch of process_entry. */
    method ApplyEntry(addr: int, payload: seq<int>)
      requires Valid() && s.consumer == Processing(Redo(addr, payload))
      modifies this`s, this`image
      ensures Valid() && s.consumer == LoopTop(old(s)) && SameLog(old(s), s) && SameProducer(old(s), s)
      ensures s.h.con == old(s.h.con) && image == old(image) + Block(addr, payload) && HeadsKept(old(s), s)
    {
      Tick(ApplyRedo);
      image := image + Block(addr, payload);
    }

    /** The sleep test at the top of the loop. */
    method Guard() returns (awake: bool)
      requires Valid() && !s.recovering && s.consumer == GuardLoad
      modifies this`s
      ensures Valid() && awake == (lastPersistedHead != lastPersistedTail)
      ensures s == old(s).(consumer := if awake then Dequeuing else GuardLoad, tmp := lastPersistedHead)
    {
      Tick(GuardLoadHead);
      Tick(GuardTest);
      awake := lastPersistedTail != lastPersistedHead;
    }

    /**
     One turn of run_consumer, at the top of its loop or still waiting inside dequeue: the next
     entry is processed, or the sleep test succeeds, or there is nothing to take.
     */
    method ConsumerTurn() returns (entry: Option<Entry>)
      requires Valid() && AtRest()
      modifies this`s, this`globalHead, this`globalTail, this`ringBufferHead, this`remoteHead,
               this`lastPersistedHead, this`image, this`dequeuing
      ensures Valid() && AtRest()
      ensures SameLog(old(s), s) && SameProducer(old(s), s)
      ensures entry.Some? ==> TookNext(old(s), s, entry.value) && image == old(image) + Effect(entry.value)
      ensures entry.None? ==> s.h.con == old(s.h.con) && image == old(image) && lastPersistedHead == old(lastPersistedHead)
      ensures entry.None? ==> s.h.con == s.h.lpt || lastPersistedHead == lastPersistedTail
      ensures entry != Some(RedoLog.Commit) ==> HeadsKept(old(s), s)
      ensures entry == Some(RedoLog.Commit) ==> s.h.com == s.h.con && remoteHead == lastPersistedHead
      ensures old(s.producer.Working?) ==> TurnFate(old(s), s, entry)
    {
      ghost var s0 := s;
      if !dequeuing {
        var awake := Guard();
        if !awake {
          return None;
        }
      }
      entry := ProcessEntry();
      dequeuing := entry.None?;
      if s.producer.Working? {
        TurnOutcome(n, base, s0, s, entry);
      }
    }

    /** run_consumer between producer sessions, until nothing published is left to take. */
    method ConsumeAll()
      requires Valid() && AtRest() && s.producer == NoSession
      modifies this`s, this`globalHead, this`globalTail, this`ringBufferHead, this`remoteHead,
               this`lastPersistedHead, this`image, this`dequeuing
      ensures Valid() && AtRest()
      ensures SameLog(old(s), s) && SameProducer(old(s), s) && remoteHead == remoteTail
      ensures s.h.pub <= |s.h.log| && image == PublishedImage(s)
    {
      TakenAtMost(n, base, s);
      while remoteHead != remoteTail
        invariant Valid() && AtRest()
        invariant SameLog(old(s), s) && SameProducer(old(s), s) && s.h.con <= s.h.pub
        decreases s.h.pub - s.h.con
      {
        SessionsOver(n, base, s);
        var entry := ConsumerTurn();
        TakenAtMost(n, base, s);
      }
      ReplayIsDone(n, base, s);
    }

    /**
     A crash that leaves the file with `slots` and the persistent memory with `memory`, and
     ring_buffer_create_and_initialise on the file it finds.
     */
    method Reopen(slots: array<Entry>, memory: Image)
      requires Valid() && Survives(n, s, slots[..], memory)
      modifies this
      ensures Valid() && s.recovering && s.consumer == ReplayGuard
      ensures s == Restart(old(s), slots[..], memory) && image == memory
      ensures remoteHead == old(remoteHead) && remoteTail == old(remoteTail)
    {
      Tick(Crash(slots[..], memory));
      buffer, image := slots, memory;
      globalTail := remoteTail;
      globalHead := remoteHead;
      lastPersistedHead := remoteHead;
      lastPersistedTail := remoteTail;
    }

    /**
     Recovery after a crash anywhere: it terminates, handles exactly the entries between the two
     durable ends of the ring, empties the ring and produces the image of the published log.
     */
    method Recover(slots: array<Entry>, memory: Image) returns (processed: nat)
      requires Valid() && Survives(n, s, slots[..], memory)
      modifies this
      ensures Valid() && !s.recovering && s.consumer == GuardLoad
      ensures n > 0 && processed == (old(remoteTail) - old(remoteHead)) % n
      ensures remoteHead == remoteTail == old(remoteTail)
      ensures Published(s) == old(Published(s))
      ensures image == Replay(n, slots[..], old(remoteHead), old(remoteTail), memory)
      ensures old(s.h.pub <= |s.h.log|) && image == old(PublishedImage(s))
    {
      RecoveryWill(n, base, s, slots[..], memory);
      DistIsMod(n, remoteHead, remoteTail);
      Reopen(slots, memory);
      processed := ReplayLog();
    }

    /** The replay loop of start_back_end. */
    method ReplayLog() returns (processed: nat)
      requires Valid() && s.recovering && s.consumer == ReplayGuard
      modifies this`s, this`globalHead, this`globalTail, this`ringBufferHead, this`remoteHead,
               this`lastPersistedHead, this`image
      ensures Valid() && remoteHead == remoteTail && !s.recovering && s.consumer == GuardLoad
      ensures processed == old(s.h.pub - s.h.con) && SameLog(old(s), s.(recovering := true))
      ensures s.h.pub <= |s.h.log| && image == PublishedImage(s)
    {
      processed := 0;
      while remoteHead != remoteTail
        invariant Valid() && s.recovering && s.consumer == ReplayGuard && SameLog(old(s), s)
        invariant processed == s.h.con - old(s.h.con)
        decreases s.h.pub - s.h.con
      {
        Tick(ReplayTest);
        ReplayMeetsEntry(n, base, s);
        var _ := ProcessEntry();
        processed := processed + 1;
      }
      ReplayIsDone(n, base, s);
      Tick(ReplayTest);
    }
  }

  lemma CommitAddsNothing(log: seq<Entry>, log': seq<Entry>)
    requires log' == log + [RedoLog.Commit]
    ensures Delta(log'[..|log'|]) == Delta(log)
  {
    assert log'[..|log'|] == log' && log'[..|log'| - 1] == log;
    assert Delta(log) + map[] == Delta(log);
  }

  /** The slot at the consumer's cursor holds the next entry of the log. */
  lemma NextEntry(n: nat, base: Image, s: State)
    requires Reached(n, base, s) && s.globalHead != s.globalTail
    ensures Shaped(n, s) && s.h.con < s.h.pub <= |s.h.log| && s.buf[s.globalHead] == s.h.log[s.h.con]
  {
    ReachedInv(n, base, s);
    CursorOnLog(n, s);
  }

  lemma CursorOnLog(n: nat, s: State)
    requires RingOk(n, s) && s.globalHead != s.globalTail
    ensures s.h.con < s.h.pub <= |s.h.log| && s.buf[s.globalHead] == s.h.log[s.h.con]
  {
    assert s.h.con < s.h.cachedTail;
    assert s.buf[Slot(n, s.h.con)] == s.h.log[s.h.con];
  }

  /** When the mirrored tail shows nothing to take, all it covers has been taken. */
  lemma AllTaken(n: nat, base: Image, s: State)
    requires Reached(n, base, s) && s.globalHead == s.globalTail == s.lastPersistedTail
    ensures s.h.con == s.h.lpt
  {
    ReachedInv(n, base, s);
    SlotInjective(n, s.h.con, s.h.lpt);
  }

  /** Whether a consumer at rest commits is decided by what it will do, and a REDO does not change that. */
  lemma TurnOutcome(n: nat, base: Image, s: State, s': State, entry: Option<Entry>)
    requires Busy(n, base, s) && Busy(n, base, s')
    requires s.consumer == GuardLoad ==> s.lastPersistedHead != s.lastPersistedTail
    requires s.consumer == GuardLoad || s.consumer == Dequeuing
    requires entry.Some? ==> s.globalHead < |s.buf| && entry.value == s.buf[s.globalHead] && s'.consumer == GuardLoad
    requires entry.Some? ==> s.h.con < s.h.pub
    requires entry.None? ==> s'.consumer == Dequeuing && s'.h.con == s.h.con == s.h.lpt && s'.h.pub == s.h.pub
    requires entry != Some(RedoLog.Commit) ==> HeadsKept(s, s')
    ensures TurnFate(s, s', entry)
  {
    BusySituated(n, base, s);
    BusySituated(n, base, s');
  }

  /** What recovery from `s` starts with and has to reach. */
  lemma RecoveryWill(n: nat, base: Image, s: State, buf: seq<Entry>, image: Image)
    requires Reached(n, base, s) && Survives(n, s, buf, image)
    ensures var s0 := Restart(s, buf, image);
            && n >= 2 && Shaped(n, s) && s.h.pub <= |s.h.log| && s0.h.pub <= |s0.h.log|
            && PublishedImage(s0) == PublishedImage(s) && Published(s0) == Published(s)
            && s0.h.pub - s0.h.con == Dist(n, s.remoteHead, s.remoteTail)
            && PublishedImage(s) == Replay(n, buf, s.remoteHead, s.remoteTail, image)
  {
    ReachedInv(n, base, s);
    Restarted(n, s, buf, image);
  }

  lemma SessionOver(n: nat, base: Image, s: State)
    requires Reached(n, base, s) && s.producer == NoSession
    ensures s.h.pub == |s.h.log|
  {
    ReachedInv(n, base, s);
  }

  lemma TakenAtMost(n: nat, base: Image, s: State)
    requires Reached(n, base, s)
    ensures s.h.con <= s.h.pub
  {
    ReachedInv(n, base, s);
  }

  /** Between sessions a consumer with something to commit neither sleeps nor waits in vain. */
  lemma SessionsOver(n: nat, base: Image, s: State)
    requires Reached(n, base, s) && s.producer == NoSession && s.remoteHead != s.remoteTail
    requires s.consumer == GuardLoad || s.consumer == Dequeuing
    ensures s.lastPersistedHead != s.lastPersistedTail && s.h.con < s.h.lpt
  {
    ReachedInv(n, base, s);
    PendingShows(n, s);
  }

  lemma PendingShows(n: nat, s: State)
    requires RingOk(n, s) && s.producer == NoSession && s.remoteHead != s.remoteTail
    requires s.consumer == GuardLoad || s.consumer == Dequeuing
    ensures s.lastPersistedHead != s.lastPersistedTail && s.h.con < s.h.lpt
  {
    SlotDist(n, s.h.lph, s.h.lpt);
  }

  lemma ReplayMeetsEntry(n: nat, base: Image, s: State)
    requires Reached(n, base, s) && s.recovering && s.consumer == Dequeuing
    ensures s.globalHead != s.globalTail
  {
    ReachedInv(n, base, s);
    NoBlock(n, s);
  }

  lemma ReplayIsDone(n: nat, base: Image, s: State)
    requires Reached(n, base, s) && s.remoteHead == s.remoteTail
    ensures s.h.con == s.h.pub <= |s.h.log| && s.image == PublishedImage(s)
  {
    ReachedInv(n, base, s);
    Drained(n, s);
  }
}
