/**
 A concrete run that shows why the metadata head is as good as the remote head only while the two
 heads agree.
 */
module MetadataWitness {
  import opened RedoLog
  import opened RingSlots
  import opened Ring
  import opened RingTheorems
  import opened RingRuns

  const BASE: Image := map[1 := 0]
  const E1 := Redo(1, [10])
  const E2 := Redo(1, [20])
  const C := RedoLog.Commit

  lemma Go(s: State, a: Step) returns (s': State)
    requires Reached(4, BASE, s) && Shaped(4, s) && Enabled(4, s, a) && FreshRefresh(4, s, a)
    ensures s' == Do(4, s, a) && Reached(4, BASE, s')
  {
    s' := Do(4, s, a);
    ReachedStep(4, BASE, s, a, s');
  }

  lemma EnqueueBoth() returns (s: State)
    ensures s == State([E1, E2, C, C], 0, 0, 0, 0, 0, Working(false), 0, 2, {0, 1},
                       GuardLoad, false, 0, 0, 0, BASE, {},
                       History(BASE, [E1, E2], [], 0, 0, 0, 0, 0, 0, 0, 0, 0))
    ensures Reached(4, BASE, s)
  {
    ReachedInit(4, BASE);
    s := Init(4, BASE);
    s := Go(s, LoadHead);
    s := Go(s, LoadTail);
    s := Go(s, Enqueue(1, [10]));
    s := Go(s, Enqueue(1, [20]));
  }

  lemma PublishBatch() returns (s: State)
    ensures s == State([E1, E2, C, C], 0, 3, 0, 3, 0, Working(true), 0, 3, {},
                       GuardLoad, false, 0, 0, 0, BASE, {},
                       History(BASE, [E1, E2, C], [], 3, 3, 0, 0, 0, 0, 0, 0, 0))
    ensures Reached(4, BASE, s)
  {
    s := EnqueueBoth();
    s := Go(s, CommitEntry);
    s := Go(s, Publish);
    s := Go(s, MirrorTail);
  }

  lemma WakeUp() returns (s: State)
    ensures s == State([E1, E2, C, C], 0, 3, 0, 3, 0, Working(true), 0, 3, {},
                       Dequeuing, false, 0, 0, 0, BASE, {},
                       History(BASE, [E1, E2, C], [], 3, 3, 0, 0, 0, 0, 0, 0, 0))
    ensures Reached(4, BASE, s)
  {
    s := PublishBatch();
    s := Go(s, GuardLoadHead);
    s := Go(s, GuardTest);
  }

  lemma SeeBatch() returns (s: State)
    ensures s == State([E1, E2, C, C], 0, 3, 0, 3, 0, Working(true), 0, 3, {},
                       Dequeuing, false, 0, 3, 0, BASE, {},
                       History(BASE, [E1, E2, C], [], 3, 3, 0, 0, 0, 0, 0, 3, 0))
    ensures Reached(4, BASE, s)
  {
    s := WakeUp();
    s := Go(s, DequeueRefresh);
  }

  lemma TakeFirst() returns (s: State)
    ensures s == State([E1, E2, C, C], 0, 3, 0, 3, 0, Working(true), 0, 3, {},
                       Processing(E1), false, 1, 3, 0, BASE, {},
                       History(BASE, [E1, E2, C], [E1], 3, 3, 0, 0, 0, 0, 1, 3, 0))
    ensures Reached(4, BASE, s)
  {
    s := SeeBatch();
    s := Go(s, Dequeue);
  }

  lemma ApplyFirst() returns (s: State)
    ensures s == State([E1, E2, C, C], 0, 3, 0, 3, 0, Working(true), 0, 3, {},
                       GuardLoad, false, 1, 3, 0, map[1 := 10], {1},
                       History(BASE, [E1, E2, C], [E1], 3, 3, 0, 0, 0, 0, 1, 3, 0))
    ensures Reached(4, BASE, s)
  {
    s := TakeFirst();
    s := Go(s, ApplyRedo);
    assert Effect(E1).Keys == {1};
    assert BASE + Effect(E1) == map[1 := 10];
  }

  lemma SeeSecond() returns (s: State)
    ensures s == State([E1, E2, C, C], 0, 3, 0, 3, 0, Working(true), 0, 3, {},
                       Dequeuing, false, 1, 3, 0, map[1 := 10], {1},
                       History(BASE, [E1, E2, C], [E1], 3, 3, 0, 0, 0, 0, 1, 3, 0))
    ensures Reached(4, BASE, s)
  {
    s := ApplyFirst();
    s := Go(s, GuardLoadHead);
    s := Go(s, GuardTest);
  }

  lemma TakeSecond() returns (s: State)
    ensures s == State([E1, E2, C, C], 0, 3, 0, 3, 0, Working(true), 0, 3, {},
                       Processing(E2), false, 2, 3, 0, map[1 := 10], {1},
                       History(BASE, [E1, E2, C], [E1, E2], 3, 3, 0, 0, 0, 0, 2, 3, 0))
    ensures Reached(4, BASE, s)
  {
    s := SeeSecond();
    s := Go(s, Dequeue);
  }

  lemma ApplySecond() returns (s: State)
    ensures s == State([E1, E2, C, C], 0, 3, 0, 3, 0, Working(true), 0, 3, {},
                       GuardLoad, false, 2, 3, 0, map[1 := 20], {1},
                       History(BASE, [E1, E2, C], [E1, E2], 3, 3, 0, 0, 0, 0, 2, 3, 0))
    ensures Reached(4, BASE, s)
  {
    s := TakeSecond();
    s := Go(s, ApplyRedo);
    assert Effect(E2).Keys == {1};
    assert map[1 := 10] + Effect(E2) == map[1 := 20];
  }

  lemma SeeCommit() returns (s: State)
    ensures s == State([E1, E2, C, C], 0, 3, 0, 3, 0, Working(true), 0, 3, {},
                       Dequeuing, false, 2, 3, 0, map[1 := 20], {1},
                       History(BASE, [E1, E2, C], [E1, E2], 3, 3, 0, 0, 0, 0, 2, 3, 0))
    ensures Reached(4, BASE, s)
  {
    s := ApplySecond();
    s := Go(s, GuardLoadHead);
    s := Go(s, GuardTest);
  }

  lemma TakeCommit() returns (s: State)
    ensures s == State([E1, E2, C, C], 0, 3, 0, 3, 0, Working(true), 0, 3, {},
                       Processing(C), false, 3, 3, 0, map[1 := 20], {1},
                       History(BASE, [E1, E2, C], [E1, E2, C], 3, 3, 0, 0, 0, 0, 3, 3, 0))
    ensures Reached(4, BASE, s)
  {
    s := SeeCommit();
    s := Go(s, Dequeue);
  }

  /** The process crashes between the metadata store and the store of the remote head. */
  lemma CrashBetweenStores() returns (s: State)
    ensures s == State([E1, E2, C, C], 0, 3, 0, 3, 3, NoSession, 0, 3, {},
                       ReplayGuard, true, 0, 3, 0, map[1 := 20], {},
                       History(BASE, [E1, E2, C], [], 3, 3, 0, 0, 3, 0, 0, 3, 1))
    ensures Reached(4, BASE, s)
  {
    s := TakeCommit();
    s := Go(s, PersistMeta);
    s := Go(s, Crash(s.buf, s.image));
  }

  /** Recovery starts the batch over and has put its first value back. */
  lemma ReplayFirst() returns (s: State)
    ensures s == State([E1, E2, C, C], 0, 3, 0, 3, 3, NoSession, 0, 3, {},
                       ReplayGuard, true, 1, 3, 0, map[1 := 10], {1},
                       History(BASE, [E1, E2, C], [E1], 3, 3, 0, 0, 3, 0, 1, 3, 1))
    ensures Reached(4, BASE, s)
  {
    s := CrashBetweenStores();
    s := Go(s, ReplayTest);
    s := Go(s, Dequeue);
    s := Go(s, ApplyRedo);
    assert Effect(E1).Keys == {1};
    assert map[1 := 20] + Effect(E1) == map[1 := 10];
  }

  /**
   After a crash the metadata head may be a batch ahead of the remote head, and while that batch is
   being replayed the image needs it again: a second crash here and a replay from the metadata head
   would keep the overwritten value, where the replay from the remote head gives the published one.
   */
  lemma MetadataHeadTooFarAhead() returns (s: State)
    ensures Reached(4, BASE, s) && Shaped(4, s) && s.h.crashes == 1 && s.h.pub == |s.h.log|
    ensures Survives(4, s, s.buf, s.image)
    ensures Replay(4, s.buf, s.remoteHead, s.remoteTail, s.image) == PublishedImage(s) == map[1 := 20]
    ensures Replay(4, s.buf, s.metaHead, s.remoteTail, s.image) == map[1 := 10]
  {
    s := ReplayFirst();
    assert Effect(E1) == map[1 := 10] && Effect(E2) == map[1 := 20];
    assert s.h.log[..s.h.pub] == [E1] + [E2] + [C];
    DeltaConcat([E1] + [E2], [C]);
    DeltaConcat([E1], [E2]);
    DeltaOne(E1);
    DeltaOne(E2);
    DeltaOne(C);
    assert PublishedImage(s) == map[1 := 20];
    ReachedInv(4, BASE, s);
    ReplayAfterCrash(4, s, s.buf, s.image);
  }
}
