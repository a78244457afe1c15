/**
 The invariant of the ring machine and the proof that every step keeps it.
 */
module RingInvariant {
  import opened RedoLog
  import opened RingSlots
  import opened Ring

  /** Slot variable `x` stands for counter `k`. */
  ghost predicate At(n: nat, x: nat, k: nat) {
    n > 0 && x == Slot(n, k)
  }

  ghost predicate SlotsMatch(n: nat, s: State) {
    && At(n, s.remoteHead, s.h.com)
    && At(n, s.remoteTail, s.h.pub)
    && At(n, s.lastPersistedHead, s.h.lph)
    && At(n, s.lastPersistedTail, s.h.lpt)
    && At(n, s.metaHead, s.h.meta)
    && At(n, s.globalHead, s.h.con)
    && At(n, s.globalTail, s.h.cachedTail)
    && (s.producer != NoSession ==> At(n, s.localHead, s.h.cachedHead))
    && (s.producer != NoSession && s.producer != LoadingTail ==> At(n, s.localTail, |s.h.log|))
  }

  ghost predicate Ordered(s: State) {
    && s.h.lph <= s.h.com <= s.h.con <= s.h.cachedTail <= s.h.lpt <= s.h.pub <= |s.h.log|
    && s.h.com <= s.h.meta <= s.h.pub
    && (s.producer != MirroringTail ==> s.h.lpt == s.h.pub)
    && (!s.producer.Publishing? && s.producer != Working(false) ==> |s.h.log| == s.h.pub)
  }

  /** No counter a cursor relies on is a full lap behind the tail it is compared with. */
  ghost predicate WithinLap(n: nat, s: State) {
    && |s.h.log| - s.h.com < n
    && (s.producer != NoSession ==> s.h.cachedHead <= s.h.com && |s.h.log| - s.h.cachedHead < n)
    && (s.producer == NoSession || s.producer == WritingBackTail ==> s.h.pub - s.h.lph < n)
    && (s.consumer != MirroringHead ==> s.h.com - s.h.lph < n)
  }

  /** The slots from the committed head `com` to the producer's tail hold the log. */
  ghost predicate HoldsLog(n: nat, buf: seq<Entry>, log: seq<Entry>, com: nat) {
    && n > 0
    && |buf| == n
    && forall k {:trigger log[k]} | com <= k < |log| :: buf[Slot(n, k)] == log[k]
  }

  /** No published slot still waits for a drain. */
  ghost predicate Fenced(n: nat, unfenced: set<nat>, com: nat, pub: nat) {
    && n > 0
    && forall k | com <= k < pub :: Slot(n, k) !in unfenced
  }

  /** How much of the log has reached the image. */
  ghost function Applied(s: State): nat {
    if s.consumer.Processing? && s.h.con > 0 then s.h.con - 1 else s.h.con
  }

  ghost predicate AllRedo(log: seq<Entry>, i: nat, j: nat) {
    j <= |log| && forall k | i <= k < j :: log[k].Redo?
  }

  ghost predicate Prefix(part: seq<Entry>, log: seq<Entry>, k: nat) {
    k <= |log| && part == log[..k]
  }

  /** The published log is whole batches, and the consumer is inside the one after `com`. */
  ghost predicate InBatches(s: State) {
    && Boundary(s.h.log, s.h.pub)
    && Boundary(s.h.log, s.h.com)
    && (s.producer == Publishing ==> Boundary(s.h.log, |s.h.log|) && s.unfenced == {})
    && (s.consumer == StoringHead ==>
          s.h.com < s.h.con && Boundary(s.h.log, s.h.con) && s.h.meta == s.h.con && s.pending == {})
    && (s.consumer == MirroringHead ==> s.h.com == s.h.con)
    && (s.consumer.Processing? ==>
          s.h.com < s.h.con <= |s.h.log| && s.consumer.entry == s.h.log[s.h.con - 1])
    && (s.consumer != StoringHead ==> AllRedo(s.h.log, s.h.com, Applied(s)))
  }

  ghost predicate RecoveryOk(s: State) {
    && (s.recovering ==> s.producer == NoSession && s.h.cachedTail == s.h.pub)
    && (s.recovering ==> s.consumer != GuardLoad && s.consumer != GuardCheck)
    && (s.consumer == ReplayGuard ==> s.recovering)
    && (s.recovering && s.consumer == Dequeuing ==> s.h.com != s.h.pub)
    && (s.h.crashes == 0 ==> s.h.meta == s.h.com || s.consumer == StoringHead)
  }

  /** Applying what is left of the published log gives the image of the whole published log. */
  ghost predicate ImageOk(image: Image, base: Image, log: seq<Entry>, applied: nat, pub: nat) {
    && applied <= pub <= |log|
    && image + Delta(log[applied..pub]) == base + Delta(log[..pub])
  }

  /** Unfenced image bytes belong to the batch being applied. */
  ghost predicate PendingOk(pending: set<int>, log: seq<Entry>, com: nat, applied: nat) {
    && com <= applied <= |log|
    && pending <= Delta(log[com..applied]).Keys
  }

  /** The cursors and the counters behind them. */
  ghost predicate CursorsOk(n: nat, s: State) {
    n >= 2 && Shaped(n, s) && SlotsMatch(n, s) && Ordered(s) && WithinLap(n, s)
  }

  /** The contents of the ring. */
  ghost predicate ContentsOk(n: nat, s: State) {
    && HoldsLog(n, s.buf, s.h.log, s.h.com)
    && Fenced(n, s.unfenced, s.h.com, s.h.pub)
    && Prefix(s.h.delivered, s.h.log, s.h.con)
  }

  ghost predicate RingOk(n: nat, s: State) {
    CursorsOk(n, s) && ContentsOk(n, s) && InBatches(s) && RecoveryOk(s)
  }

  /** The persistent image. */
  ghost predicate DataOk(s: State) {
    && ImageOk(s.image, s.h.base, s.h.log, Applied(s), s.h.pub)
    && PendingOk(s.pending, s.h.log, s.h.com, Applied(s))
  }

  ghost predicate Inv(n: nat, s: State) {
    RingOk(n, s) && DataOk(s)
  }

  lemma InitInv(n: nat, base: Image)
    requires n >= 2
    ensures Inv(n, Init(n, base))
  {}

  // ---------------------------------------------------------------- producer steps

  /** A producer step that moves cursors only leaves contents and batches alone. */
  lemma CursorMoved(n: nat, s: State, s': State)
    requires ContentsOk(n, s) && InBatches(s) && RecoveryOk(s)
    requires s' == s.(localHead := s'.localHead, localTail := s'.localTail, producer := s'.producer,
                      lastPersistedHead := s'.lastPersistedHead, lastPersistedTail := s'.lastPersistedTail,
                      h := s.h.(cachedHead := s'.h.cachedHead, lph := s'.h.lph, lpt := s'.h.lpt))
    requires s'.producer != Publishing && !s.recovering
    ensures ContentsOk(n, s') && InBatches(s') && RecoveryOk(s')
  {
    assert Applied(s') == Applied(s);
  }

  lemma LoadHeadCursors(n: nat, s: State)
    requires CursorsOk(n, s) && Enabled(n, s, LoadHead)
    ensures CursorsOk(n, Do(n, s, LoadHead))
  {}

  lemma LoadHeadStep(n: nat, s: State)
    requires RingOk(n, s) && Enabled(n, s, LoadHead)
    ensures RingOk(n, Do(n, s, LoadHead))
  {
    LoadHeadCursors(n, s);
    CursorMoved(n, s, Do(n, s, LoadHead));
  }

  lemma LoadTailCursors(n: nat, s: State)
    requires CursorsOk(n, s) && Enabled(n, s, LoadTail)
    ensures CursorsOk(n, Do(n, s, LoadTail))
  {}

  lemma LoadTailStep(n: nat, s: State)
    requires RingOk(n, s) && Enabled(n, s, LoadTail)
    ensures RingOk(n, Do(n, s, LoadTail))
  {
    LoadTailCursors(n, s);
    CursorMoved(n, s, Do(n, s, LoadTail));
  }

  lemma EnqueueRefreshCursors(n: nat, s: State)
    requires CursorsOk(n, s) && Enabled(n, s, EnqueueRefresh)
    ensures CursorsOk(n, Do(n, s, EnqueueRefresh))
  {}

  lemma EnqueueRefreshStep(n: nat, s: State)
    requires RingOk(n, s) && Enabled(n, s, EnqueueRefresh)
    ensures RingOk(n, Do(n, s, EnqueueRefresh))
  {
    EnqueueRefreshCursors(n, s);
    CursorMoved(n, s, Do(n, s, EnqueueRefresh));
  }

  /** This is where the commit-refresh hypothesis is used. */
  lemma CommitRefreshStep(n: nat, s: State)
    requires RingOk(n, s) && Enabled(n, s, CommitRefresh) && FreshRefresh(n, s, CommitRefresh)
    ensures RingOk(n, Do(n, s, CommitRefresh))
  {
    RefreshCursors(n, s);
    CursorMoved(n, s, Do(n, s, CommitRefresh));
  }

  lemma RefreshCursors(n: nat, s: State)
    requires CursorsOk(n, s) && Enabled(n, s, CommitRefresh) && FreshRefresh(n, s, CommitRefresh)
    ensures CursorsOk(n, Do(n, s, CommitRefresh))
  {
    RefreshedHead(n, s.h.cachedHead, s.h.com, s.lastPersistedHead);
  }

  lemma RefreshedHead(n: nat, c: nat, com: nat, x: nat)
    requires n > 0 && c <= com < c + n && x < n && Dist(n, Slot(n, c), x) <= Dist(n, Slot(n, c), Slot(n, com))
    ensures Slot(n, c + Dist(n, Slot(n, c), x)) == x && c + Dist(n, Slot(n, c), x) <= com
  {
    SlotDist(n, c, com);
    SlotAhead(n, c, x);
  }

  lemma MirrorTailCursors(n: nat, s: State)
    requires CursorsOk(n, s) && Enabled(n, s, MirrorTail)
    ensures CursorsOk(n, Do(n, s, MirrorTail))
  {}

  lemma MirrorTailStep(n: nat, s: State)
    requires RingOk(n, s) && Enabled(n, s, MirrorTail)
    ensures RingOk(n, Do(n, s, MirrorTail))
  {
    MirrorTailCursors(n, s);
    CursorMoved(n, s, Do(n, s, MirrorTail));
  }

  lemma WriteBackHeadCursors(n: nat, s: State)
    requires CursorsOk(n, s) && Enabled(n, s, WriteBackHead)
    ensures CursorsOk(n, Do(n, s, WriteBackHead))
  {}

  lemma WriteBackHeadStep(n: nat, s: State)
    requires RingOk(n, s) && Enabled(n, s, WriteBackHead)
    ensures RingOk(n, Do(n, s, WriteBackHead))
  {
    WriteBackHeadCursors(n, s);
    CursorMoved(n, s, Do(n, s, WriteBackHead));
  }

  lemma WriteBackTailCursors(n: nat, s: State)
    requires CursorsOk(n, s) && Enabled(n, s, WriteBackTail)
    ensures CursorsOk(n, Do(n, s, WriteBackTail))
  {}

  lemma WriteBackTailStep(n: nat, s: State)
    requires RingOk(n, s) && Enabled(n, s, WriteBackTail)
    ensures RingOk(n, Do(n, s, WriteBackTail))
  {
    WriteBackTailCursors(n, s);
    CursorMoved(n, s, Do(n, s, WriteBackTail));
  }

  /** When the code's full test passes there is room for one more entry. */
  lemma RoomForOne(n: nat, s: State)
    requires CursorsOk(n, s) && s.producer.Working? && Next(n, s.localTail) != s.localHead
    ensures |s.h.log| + 1 - s.h.cachedHead < n
  {
    SlotLap(n, s.h.cachedHead);
    assert Slot(n, |s.h.log| + 1) == Next(n, s.localTail);
  }

  /** The producer's next slot is not the slot of any entry still in use. */
  lemma FreeSlot(n: nat, s: State, k: nat)
    requires CursorsOk(n, s) && s.producer.Working?
    requires s.h.com <= k < |s.h.log|
    ensures Slot(n, k) != s.localTail
  {
    if Slot(n, k) == s.localTail {
      SlotInjective(n, k, |s.h.log|);
    }
  }

  /** An appended entry lands on no slot that is still in use. */
  lemma AppendKeeps(n: nat, s: State, e: Entry)
    requires RingOk(n, s) && s.producer.Working? && Next(n, s.localTail) != s.localHead
    ensures HoldsLog(n, Append(n, s, e).buf, s.h.log + [e], s.h.com)
    ensures Fenced(n, Append(n, s, e).unfenced, s.h.com, s.h.pub)
  {
    var buf, log := Append(n, s, e).buf, s.h.log + [e];
    forall k {:trigger log[k]} | s.h.com <= k < |log| ensures buf[Slot(n, k)] == log[k] {
      if k < |s.h.log| {
        FreeSlot(n, s, k);
        assert log[k] == s.h.log[k];
      }
    }
    forall k | s.h.com <= k < s.h.pub ensures Slot(n, k) !in Append(n, s, e).unfenced {
      FreeSlot(n, s, k);
    }
  }

  lemma AppendPrefix(log: seq<Entry>, e: Entry, i: nat, j: nat)
    requires i <= j <= |log|
    ensures (log + [e])[i..j] == log[i..j]
    ensures (log + [e])[..j] == log[..j]
    ensures Boundary(log + [e], j) == Boundary(log, j)
  {}

  lemma AppendCursors(n: nat, s: State, e: Entry, p: ProducerPc)
    requires CursorsOk(n, s) && s.producer.Working? && Next(n, s.localTail) != s.localHead
    requires p == Working(false) || p == Publishing
    ensures CursorsOk(n, Append(n, s, e).(producer := p))
  {
    RoomForOne(n, s);
    assert At(n, Next(n, s.localTail), |s.h.log| + 1);
  }

  lemma EnqueueStep(n: nat, s: State, a: Step)
    requires RingOk(n, s) && a.Enqueue? && Enabled(n, s, a)
    ensures RingOk(n, Do(n, s, a))
  {
    var e := Redo(a.addr, a.payload);
    var s' := Append(n, s, e).(producer := Working(false));
    AppendCursors(n, s, e, Working(false));
    AppendKeeps(n, s, e);
    AppendBatches(n, s, e);
    Appended(n, s, e, s');
  }

  /** The parts of the invariant after an append, put together. */
  lemma Appended(n: nat, s: State, e: Entry, s': State)
    requires RingOk(n, s) && CursorsOk(n, s') && s.producer.Working?
    requires s' == s.(buf := s'.buf, localTail := s'.localTail, unfenced := s'.unfenced, producer := s'.producer,
                      h := s.h.(log := s.h.log + [e]))
    requires HoldsLog(n, s'.buf, s.h.log + [e], s.h.com) && Fenced(n, s'.unfenced, s.h.com, s.h.pub)
    requires BatchesKept(s, s.h.log + [e])
    requires s'.producer == Working(false) || (s'.producer == Publishing && e.Commit? && s'.unfenced == {})
    ensures RingOk(n, s')
  {
    assert Applied(s') == Applied(s);
  }

  lemma CommitEntryStep(n: nat, s: State)
    requires RingOk(n, s) && Enabled(n, s, CommitEntry)
    ensures RingOk(n, Do(n, s, CommitEntry))
  {
    var e := RedoLog.Commit;
    var s' := Append(n, s, e).(unfenced := {}, producer := Publishing);
    AppendCursors(n, s, e, Publishing);
    AppendKeeps(n, s, e);
    AppendBatches(n, s, e);
    CursorsApart(n, Append(n, s, e).(producer := Publishing), s');
    Appended(n, s, e, s');
  }

  /** The fence leaves the cursors alone. */
  lemma CursorsApart(n: nat, s: State, s': State)
    requires CursorsOk(n, s) && s' == s.(unfenced := {})
    ensures CursorsOk(n, s')
  {}

  /** What the consumer relies on holds of the longer log. */
  ghost predicate BatchesKept(s: State, log: seq<Entry>) {
    && Boundary(log, s.h.pub) && Boundary(log, s.h.com)
    && (s.consumer == StoringHead ==> Boundary(log, s.h.con))
    && (s.consumer.Processing? ==> 0 < s.h.con <= |log| && log[s.h.con - 1] == s.consumer.entry)
    && (s.consumer != StoringHead ==> AllRedo(log, s.h.com, Applied(s)))
    && Prefix(s.h.delivered, log, s.h.con)
  }

  lemma AppendBatches(n: nat, s: State, e: Entry)
    requires Ordered(s) && InBatches(s) && Prefix(s.h.delivered, s.h.log, s.h.con)
    ensures BatchesKept(s, s.h.log + [e])
  {
    AppendPrefix(s.h.log, e, 0, s.h.con);
    AppendPrefix(s.h.log, e, 0, s.h.pub);
    AppendPrefix(s.h.log, e, 0, s.h.com);
  }

  lemma AppendData(s: State, e: Entry, s': State)
    requires Ordered(s) && DataOk(s) && Applied(s') == Applied(s)
    requires s'.image == s.image && s'.pending == s.pending && s'.h == s.h.(log := s.h.log + [e])
    ensures DataOk(s')
  {
    AppendPrefix(s.h.log, e, Applied(s), s.h.pub);
    AppendPrefix(s.h.log, e, s.h.com, Applied(s));
  }

  lemma EnqueueData(n: nat, s: State, a: Step)
    requires Shaped(n, s) && Ordered(s) && DataOk(s) && Enabled(n, s, a) && (a.Enqueue? || a.CommitEntry?)
    ensures DataOk(Do(n, s, a))
  {
    AppendData(s, if a.Enqueue? then Redo(a.addr, a.payload) else RedoLog.Commit, Do(n, s, a));
  }

  lemma PublishCursors(n: nat, s: State)
    requires CursorsOk(n, s) && s.producer == Publishing
    ensures CursorsOk(n, Do(n, s, Publish))
  {}

  lemma PublishBatches(s: State, s': State)
    requires Ordered(s) && InBatches(s) && RecoveryOk(s) && s.producer == Publishing
    requires s' == s.(remoteTail := s'.remoteTail, producer := MirroringTail, h := s.h.(pub := |s.h.log|))
    ensures InBatches(s') && RecoveryOk(s')
  {}

  lemma PublishStep(n: nat, s: State)
    requires RingOk(n, s) && s.producer == Publishing
    ensures RingOk(n, Do(n, s, Publish))
  {
    PublishCursors(n, s);
    PublishBatches(s, Do(n, s, Publish));
  }

  lemma PublishData(n: nat, s: State)
    requires Shaped(n, s) && Ordered(s) && DataOk(s) && s.producer == Publishing
    ensures DataOk(Do(n, s, Publish))
  {
    ImageGrows(s.image, s.h.base, s.h.log, Applied(s), s.h.pub, |s.h.log|);
  }

  lemma ImageGrows(image: Image, base: Image, log: seq<Entry>, m: nat, p: nat, q: nat)
    requires ImageOk(image, base, log, m, p) && p <= q <= |log|
    ensures ImageOk(image, base, log, m, q)
  {
    DeltaSplit(log, m, p, q);
    DeltaSplit(log, 0, p, q);
    MergeAssoc(image, Delta(log[m..p]), Delta(log[p..q]));
    MergeAssoc(base, Delta(log[..p]), Delta(log[p..q]));
    assert log[0..p] == log[..p] && log[0..q] == log[..q];
  }

  // ---------------------------------------------------------------- consumer steps

  lemma GuardLoadStep(n: nat, s: State)
    requires RingOk(n, s) && Enabled(n, s, GuardLoadHead)
    ensures RingOk(n, Do(n, s, GuardLoadHead))
  {}

  lemma GuardTestStep(n: nat, s: State)
    requires RingOk(n, s) && Enabled(n, s, GuardTest)
    ensures RingOk(n, Do(n, s, GuardTest))
  {}

  lemma ReplayTestStep(n: nat, s: State)
    requires RingOk(n, s) && Enabled(n, s, ReplayTest)
    ensures RingOk(n, Do(n, s, ReplayTest))
  {}

  lemma DequeueRefreshStep(n: nat, s: State)
    requires RingOk(n, s) && Enabled(n, s, DequeueRefresh)
    ensures RingOk(n, Do(n, s, DequeueRefresh))
  {}

  lemma MirrorHeadStep(n: nat, s: State)
    requires RingOk(n, s) && Enabled(n, s, MirrorHead)
    ensures RingOk(n, Do(n, s, MirrorHead))
  {}

  /** The consumer takes exactly the next entry of the log. */
  lemma DequeueTakesNext(n: nat, s: State)
    requires RingOk(n, s) && Enabled(n, s, Dequeue)
    ensures s.h.con < s.h.cachedTail <= s.h.pub && s.buf[s.globalHead] == s.h.log[s.h.con]
  {
    assert s.h.con != s.h.cachedTail;
    assert s.buf[Slot(n, s.h.con)] == s.h.log[s.h.con];
  }

  lemma DequeueCursors(n: nat, s: State)
    requires CursorsOk(n, s) && Enabled(n, s, Dequeue) && s.h.con < s.h.cachedTail
    ensures CursorsOk(n, Do(n, s, Dequeue))
  {
    assert At(n, Next(n, s.globalHead), s.h.con + 1);
  }

  lemma DequeueBatches(n: nat, s: State, s': State)
    requires InBatches(s) && RecoveryOk(s) && Ordered(s) && s.consumer == Dequeuing && s.h.con < s.h.cachedTail
    requires s' == s.(globalHead := s'.globalHead, consumer := Processing(s.h.log[s.h.con]),
                      h := s.h.(con := s.h.con + 1, delivered := s'.h.delivered))
    ensures InBatches(s') && RecoveryOk(s') && Applied(s') == Applied(s)
  {}

  lemma DequeueStep(n: nat, s: State)
    requires RingOk(n, s) && Enabled(n, s, Dequeue)
    ensures RingOk(n, Do(n, s, Dequeue)) && Applied(Do(n, s, Dequeue)) == Applied(s)
  {
    DequeueTakesNext(n, s);
    DequeueCursors(n, s);
    DequeueBatches(n, s, Do(n, s, Dequeue));
    DequeueContents(n, s, Do(n, s, Dequeue));
  }

  lemma DequeueContents(n: nat, s: State, s': State)
    requires ContentsOk(n, s) && s.h.con < |s.h.log|
    requires s' == s.(globalHead := s'.globalHead, consumer := s'.consumer,
                      h := s.h.(con := s.h.con + 1, delivered := s.h.delivered + [s.h.log[s.h.con]]))
    ensures ContentsOk(n, s')
  {
    assert Prefix(s'.h.delivered, s.h.log, s.h.con + 1);
  }

  lemma ApplyBatches(s: State, s': State)
    requires Ordered(s) && InBatches(s) && RecoveryOk(s) && s.consumer.Processing? && s.consumer.entry.Redo?
    requires s' == s.(image := s'.image, pending := s'.pending, consumer := LoopTop(s))
    ensures InBatches(s') && RecoveryOk(s')
  {
    assert AllRedo(s.h.log, s.h.com, s.h.con);
  }

  lemma ApplyStep(n: nat, s: State)
    requires RingOk(n, s) && Enabled(n, s, ApplyRedo)
    ensures RingOk(n, Do(n, s, ApplyRedo))
  {
    ApplyBatches(s, Do(n, s, ApplyRedo));
  }

  lemma PersistCursors(n: nat, s: State)
    requires CursorsOk(n, s) && Enabled(n, s, PersistMeta)
    ensures CursorsOk(n, Do(n, s, PersistMeta))
  {}

  lemma PersistBatches(s: State, s': State)
    requires Ordered(s) && InBatches(s) && RecoveryOk(s) && s.consumer == Processing(RedoLog.Commit)
    requires s' == s.(metaHead := s'.metaHead, pending := {}, consumer := StoringHead, h := s.h.(meta := s.h.con))
    ensures InBatches(s') && RecoveryOk(s')
  {}

  lemma PersistStep(n: nat, s: State)
    requires RingOk(n, s) && Enabled(n, s, PersistMeta)
    ensures RingOk(n, Do(n, s, PersistMeta))
  {
    PersistCursors(n, s);
    PersistBatches(s, Do(n, s, PersistMeta));
  }

  lemma StoreHeadStep(n: nat, s: State)
    requires RingOk(n, s) && Enabled(n, s, StoreHead)
    ensures RingOk(n, Do(n, s, StoreHead))
  {}

  /** Moving one entry from the log into the image. */
  lemma ImageAdvances(image: Image, base: Image, log: seq<Entry>, m: nat, p: nat)
    requires ImageOk(image, base, log, m, p) && m < p
    ensures ImageOk(image + Effect(log[m]), base, log, m + 1, p)
  {
    assert log[m..m + 1] == [log[m]];
    DeltaOne(log[m]);
    DeltaSplit(log, m, m + 1, p);
    MergeAssoc(image, Effect(log[m]), Delta(log[m + 1..p]));
  }

  lemma PendingAdvances(pending: set<int>, log: seq<Entry>, com: nat, m: nat)
    requires PendingOk(pending, log, com, m) && m < |log|
    ensures PendingOk(pending + Effect(log[m]).Keys, log, com, m + 1)
  {
    DeltaNext(log, com, m);
  }

  lemma ApplyData(n: nat, s: State)
    requires Shaped(n, s) && Ordered(s) && InBatches(s) && DataOk(s) && Enabled(n, s, ApplyRedo)
    ensures DataOk(Do(n, s, ApplyRedo))
  {
    var m := s.h.con - 1;
    assert s.consumer.entry == s.h.log[m] && Applied(s) == m < s.h.pub;
    ImageAdvances(s.image, s.h.base, s.h.log, m, s.h.pub);
    PendingAdvances(s.pending, s.h.log, s.h.com, m);
  }

  lemma PersistData(n: nat, s: State)
    requires Shaped(n, s) && Ordered(s) && InBatches(s) && DataOk(s) && Enabled(n, s, PersistMeta)
    ensures DataOk(Do(n, s, PersistMeta))
  {
    var m := s.h.con - 1;
    assert s.h.log[m] == RedoLog.Commit && Applied(s) == m < s.h.pub;
    ImageAdvances(s.image, s.h.base, s.h.log, m, s.h.pub);
    assert s.image + Effect(RedoLog.Commit) == s.image;
  }

  // ---------------------------------------------------------------- crash

  /**
   Whatever a crash leaves of the bytes in `torn`, replaying a stretch of the log that rewrites
   all of them repairs the image.
   */
  lemma TornRepaired(image: Image, image': Image, base: Image, log: seq<Entry>,
                     from: nat, m: nat, p: nat, torn: set<int>)
    requires ImageOk(image, base, log, m, p) && from <= m
    requires torn <= Delta(log[from..p]).Keys
    requires image' - torn == image - torn
    ensures ImageOk(image', base, log, from, p)
  {
    DeltaSplit(log, from, m, p);
    DeltaSplit(log, 0, from, p);
    assert log[0..from] == log[..from] && log[0..p] == log[..p];
    RepairMaps(image, image', base, Delta(log[..from]), Delta(log[from..m]), Delta(log[m..p]), torn);
  }

  lemma RepairMaps(image: Image, image': Image, base: Image, before: Image, front: Image, rest: Image,
                   torn: set<int>)
    requires torn <= (front + rest).Keys
    requires image' - torn == image - torn
    requires image + rest == base + (before + (front + rest))
    ensures image' + (front + rest) == base + (before + (front + rest))
  {
    var d := front + rest;
    MergeAssoc(base, before, d);
    OverwrittenAlike(image, image', base + before, d, rest, torn);
  }

  lemma OverwrittenAlike(image: Image, image': Image, x: Image, d: Image, rest: Image, torn: set<int>)
    requires torn <= d.Keys && rest.Keys <= d.Keys
    requires image' - torn == image - torn
    requires image + rest == x + d
    ensures image' + d == x + d
  {
    forall a | a !in d ensures (a in image' <==> a in x) && (a in image' ==> image'[a] == x[a]) {
      assert a in image' <==> a in image' - torn;
      assert a in image <==> a in image - torn;
      assert a in x <==> a in x + d;
      assert a in image <==> a in image + rest;
      if a in image' {
        assert (image' - torn)[a] == (image - torn)[a];
        assert (x + d)[a] == (image + rest)[a];
      }
    }
  }

  lemma KeysWithin(log: seq<Entry>, i: nat, j: nat, k: nat)
    requires i <= j <= k <= |log|
    ensures Delta(log[i..j]).Keys <= Delta(log[i..k]).Keys
  {
    DeltaSplit(log, i, j, k);
  }

  lemma TornInBatch(s: State)
    requires Ordered(s) && InBatches(s) && DataOk(s)
    ensures Torn(s) <= Delta(s.h.log[s.h.com..s.h.pub]).Keys
  {
    var log, com, m, p := s.h.log, s.h.com, Applied(s), s.h.pub;
    if s.consumer.Processing? {
      PendingAdvances(s.pending, log, com, m);
      KeysWithin(log, com, m + 1, p);
    } else {
      KeysWithin(log, com, m, p);
    }
  }

  /** Every slot the recovery will read survived. */
  lemma CrashBuffer(n: nat, s: State, buf: seq<Entry>)
    requires RingOk(n, s) && |buf| == n
    requires forall i | 0 <= i < n && !TornSlot(s, i) :: buf[i] == s.buf[i]
    ensures HoldsLog(n, buf, s.h.log[..s.h.pub], s.h.com)
  {
    var log := s.h.log[..s.h.pub];
    forall k {:trigger log[k]} | s.h.com <= k < |log| ensures buf[Slot(n, k)] == log[k] {
      if s.producer.Working? {
        FreeSlot(n, s, k);
      }
      assert !TornSlot(s, Slot(n, k));
      assert log[k] == s.h.log[k];
    }
  }

  lemma CrashCursors(n: nat, s: State, buf: seq<Entry>, image: Image)
    requires CursorsOk(n, s) && |buf| == n
    ensures CursorsOk(n, Restart(s, buf, image))
  {}

  lemma CrashBatches(n: nat, s: State, buf: seq<Entry>, image: Image)
    requires Ordered(s) && InBatches(s) && RecoveryOk(s) && s.h.com <= |s.h.delivered|
    ensures InBatches(Restart(s, buf, image)) && RecoveryOk(Restart(s, buf, image))
  {}

  lemma CrashContents(n: nat, s: State, buf: seq<Entry>, image: Image)
    requires Ordered(s) && ContentsOk(n, s) && HoldsLog(n, buf, s.h.log[..s.h.pub], s.h.com)
    ensures ContentsOk(n, Restart(s, buf, image))
  {
    assert s.h.delivered[..s.h.com] == s.h.log[..s.h.pub][..s.h.com];
  }

  lemma CrashStep(n: nat, s: State, a: Step)
    requires RingOk(n, s) && a.Crash? && Enabled(n, s, a)
    ensures RingOk(n, Do(n, s, a))
  {
    CrashBuffer(n, s, a.buf);
    CrashCursors(n, s, a.buf, a.image);
    CrashContents(n, s, a.buf, a.image);
    CrashBatches(n, s, a.buf, a.image);
  }

  lemma CrashData(n: nat, s: State, a: Step)
    requires Shaped(n, s) && Ordered(s) && InBatches(s) && DataOk(s) && a.Crash? && Enabled(n, s, a)
    ensures DataOk(Do(n, s, a))
  {
    var log, com, p := s.h.log, s.h.com, s.h.pub;
    CrashImage(s, a.image);
    assert log[..p][com..p] == log[com..p] && log[..p][..p] == log[..p];
  }

  /** Replaying the unfinished batch and what follows repairs whatever the crash left. */
  lemma CrashImage(s: State, image: Image)
    requires Ordered(s) && InBatches(s) && DataOk(s) && image - Torn(s) == s.image - Torn(s)
    ensures ImageOk(image, s.h.base, s.h.log, s.h.com, s.h.pub)
  {
    TornInBatch(s);
    TornRepaired(s.image, image, s.h.base, s.h.log, s.h.com, Applied(s), s.h.pub, Torn(s));
  }

  // ---------------------------------------------------------------- all steps, all runs

  lemma ProducerRing(n: nat, s: State, a: Step)
    requires RingOk(n, s) && Enabled(n, s, a) && FreshRefresh(n, s, a) && OfProducer(a)
    ensures RingOk(n, Do(n, s, a))
  {
    match a
    case LoadHead => LoadHeadStep(n, s);
    case LoadTail => LoadTailStep(n, s);
    case EnqueueRefresh => EnqueueRefreshStep(n, s);
    case Enqueue(_, _) => EnqueueStep(n, s, a);
    case CommitRefresh => CommitRefreshStep(n, s);
    case CommitEntry => CommitEntryStep(n, s);
    case Publish => PublishStep(n, s);
    case MirrorTail => MirrorTailStep(n, s);
    case WriteBackHead => WriteBackHeadStep(n, s);
    case WriteBackTail => WriteBackTailStep(n, s);
  }

  lemma ConsumerRing(n: nat, s: State, a: Step)
    requires RingOk(n, s) && Enabled(n, s, a) && !OfProducer(a)
    ensures RingOk(n, Do(n, s, a))
  {
    match a
    case GuardLoadHead => GuardLoadStep(n, s);
    case GuardTest => GuardTestStep(n, s);
    case ReplayTest => ReplayTestStep(n, s);
    case DequeueRefresh => DequeueRefreshStep(n, s);
    case Dequeue => DequeueStep(n, s);
    case ApplyRedo => ApplyStep(n, s);
    case PersistMeta => PersistStep(n, s);
    case StoreHead => StoreHeadStep(n, s);
    case MirrorHead => MirrorHeadStep(n, s);
    case Crash(_, _) => CrashStep(n, s, a);
  }

  lemma StepRing(n: nat, s: State, a: Step)
    requires RingOk(n, s) && Enabled(n, s, a) && FreshRefresh(n, s, a)
    ensures RingOk(n, Do(n, s, a))
  {
    if OfProducer(a) {
      ProducerRing(n, s, a);
    } else {
      ConsumerRing(n, s, a);
    }
  }

  /** The image, and what of the log concerns it, are as they were. */
  ghost predicate SameData(s: State, s': State) {
    && s'.image == s.image && s'.pending == s.pending && s'.h.log == s.h.log && s'.h.base == s.h.base
    && s'.h.pub == s.h.pub && s'.h.com == s.h.com && Applied(s') == Applied(s)
  }

  lemma ProducerFrame(n: nat, s: State, a: Step)
    requires Shaped(n, s) && Enabled(n, s, a) && OfProducer(a) && !a.Enqueue? && !a.CommitEntry? && !a.Publish?
    ensures SameData(s, Do(n, s, a))
  {}

  lemma ConsumerFrame(n: nat, s: State, a: Step)
    requires Shaped(n, s) && Enabled(n, s, a)
    requires a.GuardLoadHead? || a.GuardTest? || a.ReplayTest? || a.DequeueRefresh? || a.MirrorHead?
    ensures SameData(s, Do(n, s, a))
  {}

  lemma DataFrame(s: State, s': State)
    requires DataOk(s) && SameData(s, s')
    ensures DataOk(s')
  {}

  lemma StoreHeadData(n: nat, s: State)
    requires Shaped(n, s) && Ordered(s) && InBatches(s) && DataOk(s) && Enabled(n, s, StoreHead)
    ensures DataOk(Do(n, s, StoreHead))
  {}

  lemma DequeueData(n: nat, s: State)
    requires Inv(n, s) && Enabled(n, s, Dequeue)
    ensures DataOk(Do(n, s, Dequeue))
  {
    DequeueStep(n, s);
  }

  lemma ProducerData(n: nat, s: State, a: Step)
    requires Inv(n, s) && Enabled(n, s, a) && OfProducer(a)
    ensures DataOk(Do(n, s, a))
  {
    if a.Enqueue? || a.CommitEntry? {
      EnqueueData(n, s, a);
    } else if a.Publish? {
      PublishData(n, s);
    } else {
      ProducerFrame(n, s, a);
      DataFrame(s, Do(n, s, a));
    }
  }

  lemma ConsumerData(n: nat, s: State, a: Step)
    requires Inv(n, s) && Enabled(n, s, a) && !OfProducer(a)
    ensures DataOk(Do(n, s, a))
  {
    if a.Dequeue? {
      DequeueData(n, s);
    } else if a.ApplyRedo? {
      ApplyData(n, s);
    } else if a.PersistMeta? {
      PersistData(n, s);
    } else if a.StoreHead? {
      StoreHeadData(n, s);
    } else if a.Crash? {
      CrashData(n, s, a);
    } else {
      ConsumerFrame(n, s, a);
      DataFrame(s, Do(n, s, a));
    }
  }

  lemma StepInv(n: nat, s: State, a: Step)
    requires Inv(n, s) && Enabled(n, s, a) && FreshRefresh(n, s, a)
    ensures Inv(n, Do(n, s, a))
  {
    StepRing(n, s, a);
    if OfProducer(a) {
      ProducerData(n, s, a);
    } else {
      ConsumerData(n, s, a);
    }
  }

  lemma FollowsInv(n: nat, s: State, a: Step, s': State)
    requires Inv(n, s) && Follows(n, s, a, s') && FreshRefresh(n, s, a)
    ensures Inv(n, s')
  {
    StepInv(n, s, a);
  }

  ghost predicate InvUpTo(n: nat, ss: seq<State>, i: nat) {
    forall k | 0 <= k <= i && k < |ss| :: Inv(n, ss[k])
  }

  lemma {:induction false} LinkedInv(n: nat, ss: seq<State>, acts: seq<Step>, i: nat)
    requires Linked(n, ss, acts) && AllRefreshesFresh(n, ss, acts) && i < |ss| && InvUpTo(n, ss, 0)
    ensures InvUpTo(n, ss, i)
  {
    if i > 0 {
      LinkedInv(n, ss, acts, i - 1);
      LinkInv(n, ss, acts, i - 1);
    }
  }

  lemma LinkInv(n: nat, ss: seq<State>, acts: seq<Step>, i: nat)
    requires Linked(n, ss, acts) && AllRefreshesFresh(n, ss, acts) && i < |acts| && InvUpTo(n, ss, i)
    ensures InvUpTo(n, ss, i + 1)
  {
    FollowsInv(n, ss[i], acts[i], ss[i + 1]);
  }

  /** The invariant holds in every state of every run whose commit refreshes are fresh. */
  lemma RunInv(n: nat, base: Image, ss: seq<State>, acts: seq<Step>, i: nat)
    requires IsRun(n, base, ss, acts) && AllRefreshesFresh(n, ss, acts)
    requires i < |ss|
    ensures Inv(n, ss[i])
  {
    InitInv(n, base);
    LinkedInv(n, ss, acts, i);
  }
}
