/**
 What the ring machine guarantees over whole runs.
 */
module RingTheorems {
  import opened RedoLog
  import opened RingSlots
  import opened Ring
  import opened RingInvariant

  /**
   The independent meaning of recovery: walk the slots from `head` to `tail`, as they are in the
   file, and apply each entry to the image found there.
   */
  function Replay(n: nat, buf: seq<Entry>, head: nat, tail: nat, image: Image): Image
    requires |buf| == n && head < n && tail < n
    decreases Dist(n, head, tail)
  {
    if head == tail then image
    else Replay(n, buf, Next(n, head), tail, image + Effect(buf[head]))
  }

  lemma {:induction false} ReplayIsLog(n: nat, buf: seq<Entry>, log: seq<Entry>, i: nat, j: nat, image: Image)
    requires n > 0 && |buf| == n
    requires i <= j <= |log| && j - i < n
    requires forall k {:trigger log[k]} | i <= k < j :: buf[Slot(n, k)] == log[k]
    ensures Replay(n, buf, Slot(n, i), Slot(n, j), image) == image + Delta(log[i..j])
    decreases j - i
  {
    if i < j {
      SlotDist(n, i, j);
      assert log[i] == buf[Slot(n, i)];
      assert Next(n, Slot(n, i)) == Slot(n, i + 1);
      ReplayIsLog(n, buf, log, i + 1, j, image + Effect(log[i]));
      assert log[i..i + 1] == [log[i]];
      DeltaOne(log[i]);
      DeltaSplit(log, i, i + 1, j);
      MergeAssoc(image, Effect(log[i]), Delta(log[i + 1..j]));
    }
  }

  /** The image every published batch, and nothing else, has been applied to. */
  ghost function PublishedImage(s: State): Image
    requires s.h.pub <= |s.h.log|
  {
    s.h.base + Delta(s.h.log[..s.h.pub])
  }

  // ---------------------------------------------------------------- crash consistency

  /**
   In every state of every run, crashes during recovery included, and for every condition the
   crash may leave unfenced bytes and slots in, replaying from the durable head to the durable
   tail gives exactly the image of the published batches.
   */
  lemma CrashConsistency(n: nat, base: Image, ss: seq<State>, acts: seq<Step>, i: nat,
                         buf: seq<Entry>, image: Image)
    requires IsRun(n, base, ss, acts) && AllRefreshesFresh(n, ss, acts) && i < |ss|
    requires Survives(n, ss[i], buf, image)
    ensures Shaped(n, ss[i]) && ss[i].h.pub <= |ss[i].h.log|
    ensures Replay(n, buf, ss[i].remoteHead, ss[i].remoteTail, image) == PublishedImage(ss[i])
  {
    RunInv(n, base, ss, acts, i);
    ReplayAfterCrash(n, ss[i], buf, image);
  }

  /** Replay from a counter between the durable head and tail, on slots that survived. */
  lemma ReplayFrom(n: nat, s: State, buf: seq<Entry>, image: Image, from: nat, slot: nat)
    requires CursorsOk(n, s) && s.h.com <= from <= s.h.pub && slot == Slot(n, from)
    requires HoldsLog(n, buf, s.h.log[..s.h.pub], s.h.com)
    ensures Replay(n, buf, slot, s.remoteTail, image) == image + Delta(s.h.log[from..s.h.pub])
  {
    var log := s.h.log[..s.h.pub];
    ReplayIsLog(n, buf, log, from, s.h.pub, image);
    assert log[from..s.h.pub] == s.h.log[from..s.h.pub];
  }

  lemma ReplayAfterCrash(n: nat, s: State, buf: seq<Entry>, image: Image)
    requires Inv(n, s) && Survives(n, s, buf, image)
    ensures Replay(n, buf, s.remoteHead, s.remoteTail, image) == PublishedImage(s)
  {
    CrashBuffer(n, s, buf);
    ReplayFrom(n, s, buf, image, s.h.com, s.remoteHead);
    CrashImage(s, image);
  }

  /** The published part of the log. */
  ghost function Published(s: State): seq<Entry> {
    if s.h.pub <= |s.h.log| then s.h.log[..s.h.pub] else s.h.log
  }

  lemma ProducerGrows(n: nat, s: State, a: Step)
    requires Shaped(n, s) && Ordered(s) && Enabled(n, s, a) && OfProducer(a)
    ensures s.h.pub <= Do(n, s, a).h.pub <= |Do(n, s, a).h.log|
    ensures Published(s) <= Published(Do(n, s, a))
  {
    var s' := Do(n, s, a);
    assert s'.h.log == s.h.log || (|s'.h.log| == |s.h.log| + 1 && s'.h.log[..|s.h.log|] == s.h.log);
  }

  lemma ConsumerGrows(n: nat, s: State, a: Step)
    requires Shaped(n, s) && Ordered(s) && Enabled(n, s, a) && !OfProducer(a)
    ensures s.h.pub <= Do(n, s, a).h.pub <= |Do(n, s, a).h.log|
    ensures Published(s) <= Published(Do(n, s, a))
  {
    var s' := Do(n, s, a);
    assert s'.h.log == s.h.log || s'.h.log == s.h.log[..s.h.pub];
  }

  lemma PublishedGrows(n: nat, s: State, a: Step)
    requires Shaped(n, s) && Ordered(s) && Enabled(n, s, a)
    ensures s.h.pub <= Do(n, s, a).h.pub <= |Do(n, s, a).h.log|
    ensures Published(s) <= Published(Do(n, s, a))
  {
    if OfProducer(a) {
      ProducerGrows(n, s, a);
    } else {
      ConsumerGrows(n, s, a);
    }
  }

  lemma PublishedGrowsInRun(n: nat, base: Image, ss: seq<State>, acts: seq<Step>, i: nat)
    requires IsRun(n, base, ss, acts) && AllRefreshesFresh(n, ss, acts) && i < |acts|
    ensures Published(ss[i]) <= Published(ss[i + 1])
  {
    RunInv(n, base, ss, acts, i);
    PublishedGrows(n, ss[i], acts[i]);
  }

  /** What has been published once stays published, in order, over crashes and restarts. */
  lemma {:induction false} PublishedNeverLost(n: nat, base: Image, ss: seq<State>, acts: seq<Step>, i: nat, j: nat)
    requires IsRun(n, base, ss, acts) && AllRefreshesFresh(n, ss, acts)
    requires i <= j < |ss|
    ensures Published(ss[i]) <= Published(ss[j])
    decreases j - i
  {
    if i < j {
      PublishedNeverLost(n, base, ss, acts, i, j - 1);
      PublishedGrowsInRun(n, base, ss, acts, j - 1);
    }
  }

  /** The image before the first entry is the same all along. */
  lemma {:induction false} BaseStays(n: nat, base: Image, ss: seq<State>, acts: seq<Step>, i: nat)
    requires IsRun(n, base, ss, acts) && i < |ss|
    ensures ss[i].h.base == base
  {
    if i > 0 {
      BaseStays(n, base, ss, acts, i - 1);
      assert Follows(n, ss[i - 1], acts[i - 1], ss[i]);
    }
  }

  // ---------------------------------------------------------------- FIFO

  /**
   The entries ring_buffer_dequeue has handed out are, in order and value, a prefix of the
   entries enqueued, and never run past what is published.
   */
  lemma FifoOrder(n: nat, base: Image, ss: seq<State>, acts: seq<Step>, i: nat)
    requires IsRun(n, base, ss, acts) && AllRefreshesFresh(n, ss, acts) && i < |ss|
    ensures ss[i].h.pub <= |ss[i].h.log|
    ensures ss[i].h.delivered <= ss[i].h.log[..ss[i].h.pub] <= ss[i].h.log
  {
    RunInv(n, base, ss, acts, i);
  }

  /**
   A published slot keeps its entry, whatever step or crash comes next, until the consumer has
   stored a head past it; the head moves past it only on behalf of a COMMIT at or after it.
   */
  lemma SlotStable(n: nat, base: Image, ss: seq<State>, acts: seq<Step>, i: nat, k: nat)
    requires IsRun(n, base, ss, acts) && AllRefreshesFresh(n, ss, acts) && i < |acts|
    requires ss[i].h.com <= k < ss[i].h.pub
    ensures SlotKept(n, ss[i], acts[i], ss[i + 1], k)
  {
    RunInv(n, base, ss, acts, i);
    RunInv(n, base, ss, acts, i + 1);
    StepKeepsSlot(n, ss[i], acts[i], ss[i + 1], k);
  }

  /** The slot of `k` holds its entry before the step, and after it unless the head was stored past it. */
  ghost predicate SlotKept(n: nat, s: State, a: Step, s': State, k: nat) {
    && n > 0 && |s.buf| == |s'.buf| == n && k < s.h.pub <= |s.h.log|
    && s.buf[Slot(n, k)] == s.h.log[k]
    && (s'.h.com <= k ==> s'.buf[Slot(n, k)] == s.h.log[k])
    && (k < s'.h.com ==> a.StoreHead? && s'.h.com <= s.h.pub && s.h.log[s'.h.com - 1].Commit?)
  }

  lemma StepKeepsSlot(n: nat, s: State, a: Step, s': State, k: nat)
    requires RingOk(n, s) && RingOk(n, s') && Follows(n, s, a, s') && s.h.com <= k < s.h.pub
    ensures SlotKept(n, s, a, s', k)
  {
    assert s.buf[Slot(n, k)] == s.h.log[k];
    if a.StoreHead? {
      HeadStored(n, s);
    } else {
      HeadStays(n, s, a);
      PublishedGrows(n, s, a);
      SameEntry(n, s, s', k);
    }
  }

  lemma SameEntry(n: nat, s: State, s': State, k: nat)
    requires HoldsLog(n, s'.buf, s'.h.log, s'.h.com) && Published(s) <= Published(s')
    requires s'.h.com <= k < s.h.pub <= |s.h.log| && s'.h.pub <= |s'.h.log|
    ensures s'.buf[Slot(n, k)] == s.h.log[k]
  {
    assert s'.h.log[k] == Published(s')[k] == Published(s)[k] == s.h.log[k];
  }

  lemma HeadStays(n: nat, s: State, a: Step)
    requires Shaped(n, s) && Enabled(n, s, a) && !a.StoreHead?
    ensures Do(n, s, a).h.com == s.h.com
  {}

  lemma HeadStored(n: nat, s: State)
    requires CursorsOk(n, s) && InBatches(s) && Enabled(n, s, StoreHead)
    ensures var s' := Do(n, s, StoreHead);
            s'.h.com == s.h.con <= s.h.pub && s'.buf == s.buf && (s.h.con > 0 ==> s.h.log[s.h.con - 1].Commit?)
  {}

  // ---------------------------------------------------------------- batches and wake-ups

  /** The published log is a concatenation of batches and the durable head lies between two. */
  lemma WholeBatchesVisible(n: nat, base: Image, ss: seq<State>, acts: seq<Step>, i: nat)
    returns (bs: seq<seq<Entry>>, done: seq<seq<Entry>>)
    requires IsRun(n, base, ss, acts) && AllRefreshesFresh(n, ss, acts) && i < |ss|
    ensures ss[i].h.com <= ss[i].h.pub <= |ss[i].h.log|
    ensures AreBatches(bs) && Flatten(bs) == ss[i].h.log[..ss[i].h.pub]
    ensures AreBatches(done) && Flatten(done) == ss[i].h.log[..ss[i].h.com]
  {
    RunInv(n, base, ss, acts, i);
    var h := ss[i].h;
    bs := CutIntoBatches(h.log[..h.pub]);
    done := CutIntoBatches(h.log[..h.com]);
  }

  /**
   Between sessions the written-back head may be stale, but it is never ahead of the committed
   head and never a lap behind the tail, so the consumer's sleep test only succeeds when every
   published entry has been applied and committed.
   */
  lemma NoLostWakeup(n: nat, base: Image, ss: seq<State>, acts: seq<Step>, i: nat)
    requires IsRun(n, base, ss, acts) && AllRefreshesFresh(n, ss, acts) && i < |ss|
    requires ss[i].producer == NoSession
    ensures ss[i].h.lph <= ss[i].h.com && ss[i].h.lpt == ss[i].h.pub <= |ss[i].h.log|
    ensures ss[i].h.pub - ss[i].h.lph <= n - 1
    ensures ss[i].lastPersistedHead == ss[i].lastPersistedTail ==>
              && ss[i].h.com == ss[i].h.pub
              && ss[i].h.delivered == ss[i].h.log[..ss[i].h.pub]
              && ss[i].image == PublishedImage(ss[i])
  {
    RunInv(n, base, ss, acts, i);
    var s := ss[i];
    if s.lastPersistedHead == s.lastPersistedTail {
      SlotInjective(n, s.h.lph, s.h.pub);
      assert s.h.com == s.h.con == s.h.pub == Applied(s);
      assert s.h.log[s.h.pub..s.h.pub] == [];
      assert s.image + map[] == s.image;
    }
  }

  /** During recovery the consumer never waits for an entry that cannot come. */
  lemma RecoveryNeverBlocks(n: nat, base: Image, ss: seq<State>, acts: seq<Step>, i: nat)
    requires IsRun(n, base, ss, acts) && AllRefreshesFresh(n, ss, acts) && i < |ss|
    requires ss[i].recovering && ss[i].consumer == Dequeuing
    ensures Shaped(n, ss[i]) && Enabled(n, ss[i], Dequeue) && !Enabled(n, ss[i], DequeueRefresh)
  {
    RunInv(n, base, ss, acts, i);
    NoBlock(n, ss[i]);
  }

  lemma NoBlock(n: nat, s: State)
    requires RingOk(n, s) && s.recovering && s.consumer == Dequeuing
    ensures Enabled(n, s, Dequeue)
  {
    assert s.h.con < s.h.pub;
    SlotDist(n, s.h.con, s.h.pub);
  }
}
