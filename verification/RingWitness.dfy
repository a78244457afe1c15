/**
 Concrete runs of a ring of four slots in which something goes wrong.
 */
module RingWitness {
  import opened RedoLog
  import opened RingSlots
  import opened Ring
  import opened RingTheorems
  import opened RingRuns
  import opened RingRefresh
  import opened RingWakeup

  lemma Go(s: State, a: Step) returns (s': State)
    requires Reached(4, map[], s) && Shaped(4, s) && Enabled(4, s, a) && FreshRefresh(4, s, a)
    ensures s' == Do(4, s, a) && Reached(4, map[], s')
  {
    s' := Do(4, s, a);
    ReachedStep(4, map[], s, a, s');
  }

  // ---------------------------------------------------------------- a stale commit refresh

  const E1 := Redo(1, [10])
  const E2 := Redo(2, [20])
  const E3 := Redo(3, [30])
  const C := RedoLog.Commit

  lemma EnqueueFirst() returns (s: State)
    ensures s == State([E1, C, C, C], 0, 0, 0, 0, 0, Working(false), 0, 1, {0},
                       GuardLoad, false, 0, 0, 0, map[], {},
                       History(map[], [E1], [], 0, 0, 0, 0, 0, 0, 0, 0, 0))
    ensures Reached(4, map[], s)
  {
    ReachedInit(4, map[]);
    s := Init(4, map[]);
    s := Go(s, LoadHead);
    s := Go(s, LoadTail);
    s := Go(s, Enqueue(1, [10]));
  }

  lemma PublishFirst() returns (s: State)
    ensures s == State([E1, C, C, C], 0, 2, 0, 2, 0, Working(true), 0, 2, {},
                       GuardLoad, false, 0, 0, 0, map[], {},
                       History(map[], [E1, C], [], 2, 2, 0, 0, 0, 0, 0, 0, 0))
    ensures Reached(4, map[], s)
  {
    s := EnqueueFirst();
    s := Go(s, CommitEntry);
    s := Go(s, Publish);
    s := Go(s, MirrorTail);
  }

  lemma SeeFirst() returns (s: State)
    ensures s == State([E1, C, C, C], 0, 2, 0, 2, 0, Working(true), 0, 2, {},
                       Dequeuing, false, 0, 2, 0, map[], {},
                       History(map[], [E1, C], [], 2, 2, 0, 0, 0, 0, 0, 2, 0))
    ensures Reached(4, map[], s)
  {
    s := PublishFirst();
    s := Go(s, GuardLoadHead);
    s := Go(s, GuardTest);
    s := Go(s, DequeueRefresh);
  }

  lemma TakeFirst() returns (s: State)
    ensures s == State([E1, C, C, C], 0, 2, 0, 2, 0, Working(true), 0, 2, {},
                       Processing(E1), false, 1, 2, 0, map[], {},
                       History(map[], [E1, C], [E1], 2, 2, 0, 0, 0, 0, 1, 2, 0))
    ensures Reached(4, map[], s)
  {
    s := SeeFirst();
    s := Go(s, Dequeue);
  }

  lemma ApplyFirst() returns (s: State)
    ensures s == State([E1, C, C, C], 0, 2, 0, 2, 0, Working(true), 0, 2, {},
                       GuardLoad, false, 1, 2, 0, map[1 := 10], {1},
                       History(map[], [E1, C], [E1], 2, 2, 0, 0, 0, 0, 1, 2, 0))
    ensures Reached(4, map[], s)
  {
    s := TakeFirst();
    s := Go(s, ApplyRedo);
    assert Effect(E1).Keys == {1};
    assert map[] + Effect(E1) == map[1 := 10];
  }

  lemma SeeFirstCommit() returns (s: State)
    ensures s == State([E1, C, C, C], 0, 2, 0, 2, 0, Working(true), 0, 2, {},
                       Dequeuing, false, 1, 2, 0, map[1 := 10], {1},
                       History(map[], [E1, C], [E1], 2, 2, 0, 0, 0, 0, 1, 2, 0))
    ensures Reached(4, map[], s)
  {
    s := ApplyFirst();
    s := Go(s, GuardLoadHead);
    s := Go(s, GuardTest);
  }

  lemma TakeFirstCommit() returns (s: State)
    ensures s == State([E1, C, C, C], 0, 2, 0, 2, 0, Working(true), 0, 2, {},
                       Processing(C), false, 2, 2, 0, map[1 := 10], {1},
                       History(map[], [E1, C], [E1, C], 2, 2, 0, 0, 0, 0, 2, 2, 0))
    ensures Reached(4, map[], s)
  {
    s := SeeFirstCommit();
    s := Go(s, Dequeue);
  }

  /** The first batch is applied and its head stored but not yet mirrored. */
  lemma StoreFirst() returns (s: State)
    ensures s == State([E1, C, C, C], 0, 2, 2, 2, 2, Working(true), 0, 2, {},
                       MirroringHead, false, 2, 2, 0, map[1 := 10], {},
                       History(map[], [E1, C], [E1, C], 2, 2, 2, 0, 2, 0, 2, 2, 0))
    ensures Reached(4, map[], s)
  {
    s := TakeFirstCommit();
    s := Go(s, PersistMeta);
    s := Go(s, StoreHead);
  }

  lemma EnqueueSecond() returns (s: State)
    ensures s == State([E1, C, E2, E3], 0, 2, 2, 2, 2, Working(false), 2, 0, {2, 3},
                       MirroringHead, false, 2, 2, 0, map[1 := 10], {},
                       History(map[], [E1, C, E2, E3], [E1, C], 2, 2, 2, 0, 2, 2, 2, 2, 0))
    ensures Reached(4, map[], s)
  {
    s := StoreFirst();
    s := Go(s, Enqueue(2, [20]));
    s := Go(s, EnqueueRefresh);
    s := Go(s, Enqueue(3, [30]));
  }

  /** The second batch fills the ring up to the stored head, which is not yet mirrored. */
  lemma RefillRing() returns (s: State)
    ensures s == State([C, C, E2, E3], 0, 1, 2, 1, 2, Working(true), 2, 1, {},
                       MirroringHead, false, 2, 2, 0, map[1 := 10], {},
                       History(map[], [E1, C, E2, E3, C], [E1, C], 5, 5, 2, 0, 2, 2, 2, 2, 0))
    ensures Reached(4, map[], s)
  {
    s := EnqueueSecond();
    s := Go(s, CommitEntry);
    s := Go(s, Publish);
    s := Go(s, MirrorTail);
  }

  /**
   A refresh past the remote head can be reached, and with something in the log left to apply, so
   the loss is real.
   */
  lemma StaleRefreshLosesBatch() returns (s: State, acts: seq<Step>, s': State)
    ensures Reached(4, map[], s) && Shaped(4, s) && Enabled(4, s, CommitRefresh)
    ensures !FreshRefresh(4, s, CommitRefresh) && Leads(4, s, [CommitRefresh] + acts, s')
    ensures Shaped(4, s') && s'.h.pub == |s'.h.log| && Survives(4, s', s'.buf, s'.image)
    ensures Replay(4, s'.buf, s'.remoteHead, s'.remoteTail, s'.image) != PublishedImage(s')
  {
    s := RefillRing();
    ReachedInv(4, map[], s);
    SecondBatchPending();
    acts, s' := StaleRefreshLoses(4, s);
  }

  lemma SecondBatchPending()
    ensures 2 in Delta([E1, C, E2, E3, C])
  {
    assert [E1, C, E2, E3, C] == [E1, C] + ([E2] + [E3, C]);
    DeltaConcat([E1, C], [E2] + [E3, C]);
    DeltaConcat([E2], [E3, C]);
    DeltaOne(E2);
    assert 2 in Effect(E2);
  }

  // ---------------------------------------------------------------- waiting in vain

  /** The session that published the first batch ends and writes its old head back. */
  lemma EndFirst() returns (s: State)
    ensures s == State([E1, C, C, C], 0, 2, 2, 2, 2, NoSession, 0, 2, {},
                       GuardLoad, false, 2, 2, 0, map[1 := 10], {},
                       History(map[], [E1, C], [E1, C], 2, 2, 2, 0, 2, 0, 2, 2, 0))
    ensures Reached(4, map[], s)
  {
    s := StoreFirst();
    s := Go(s, MirrorHead);
    s := Go(s, WriteBackHead);
    s := Go(s, WriteBackTail);
  }

  lemma NextSession() returns (s: State)
    ensures s == State([E1, C, E2, C], 0, 2, 2, 2, 2, Working(false), 0, 3, {2},
                       GuardLoad, false, 2, 2, 0, map[1 := 10], {},
                       History(map[], [E1, C, E2], [E1, C], 2, 2, 2, 0, 2, 0, 2, 2, 0))
    ensures Reached(4, map[], s)
  {
    s := EndFirst();
    s := Go(s, LoadHead);
    s := Go(s, LoadTail);
    s := Go(s, Enqueue(2, [20]));
  }

  /**
   A commit can wait forever although the ring has room and everything published is committed: it
   only looks at the mirrored head, which an earlier session has set back.
   */
  lemma CommitWaitsInVain() returns (s: State)
    ensures Waits(4, map[], s) && s.lastPersistedHead == s.localHead
    ensures s.h.com == s.h.pub && s.remoteHead != s.localHead
    ensures !CommitReleased(4, s)
  {
    s := NextSession();
    CommitReleasedIff(4, map[], s);
  }

  lemma PublishSecond() returns (s: State)
    ensures s == State([E1, C, E2, C], 0, 0, 2, 0, 2, Working(true), 2, 0, {},
                       GuardLoad, false, 2, 2, 0, map[1 := 10], {},
                       History(map[], [E1, C, E2, C], [E1, C], 4, 4, 2, 0, 2, 2, 2, 2, 0))
    ensures Reached(4, map[], s)
  {
    s := NextSession();
    s := Go(s, EnqueueRefresh);
    s := Go(s, CommitEntry);
    s := Go(s, Publish);
    s := Go(s, MirrorTail);
  }

  /**
   Inside a session a wake-up can be lost: a published batch is pending, the consumer's sleep test
   succeeds because the mirrored head is a whole lap behind, and the producer waits for room that
   only the consumer could make.  Neither can ever go on.
   */
  lemma WakeupLostInSession() returns (s: State)
    ensures Waits(4, map[], s) && s.remoteHead == s.localHead
    ensures s.h.com < s.h.pub && s.h.pub == s.h.lph + 4 && s.lastPersistedHead == s.lastPersistedTail
    ensures !EnqueueReleased(4, s)
  {
    s := PublishSecond();
    s := Go(s, Enqueue(3, [30]));
    EnqueueReleasedIff(4, map[], s);
  }
}
