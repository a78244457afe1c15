/**
 When the consumer sleeps, and when a producer that waits for room can be released.
 */
module RingWakeup {
  import opened RedoLog
  import opened RingSlots
  import opened Ring
  import opened RingInvariant
  import opened RingTheorems
  import opened RingRuns
  import opened RingRecovery

  /**
   Everywhere, inside a producer session too: when the consumer's sleep test succeeds, everything
   it can see has been applied and committed if and only if the mirrored head is less than a lap
   behind the mirrored tail.
   */
  lemma SleepRightIff(n: nat, base: Image, ss: seq<State>, acts: seq<Step>, i: nat)
    requires IsRun(n, base, ss, acts) && AllRefreshesFresh(n, ss, acts) && i < |ss|
    requires ss[i].lastPersistedHead == ss[i].lastPersistedTail && ss[i].consumer != MirroringHead
    ensures ss[i].h.lph <= ss[i].h.com <= ss[i].h.lpt <= ss[i].h.pub
    ensures ss[i].h.com == ss[i].h.lpt <==> ss[i].h.lpt - ss[i].h.lph < n
    ensures ss[i].h.com < ss[i].h.lpt <==> ss[i].h.lpt == ss[i].h.lph + n
  {
    RunInv(n, base, ss, acts, i);
    SleepTest(n, ss[i]);
  }

  lemma SleepTest(n: nat, s: State)
    requires RingOk(n, s) && s.lastPersistedHead == s.lastPersistedTail && s.consumer != MirroringHead
    ensures s.h.com == s.h.lpt <==> s.h.lpt - s.h.lph < n
    ensures s.h.com < s.h.lpt <==> s.h.lpt == s.h.lph + n
  {
    SameSlot(n, s.h.lph, s.h.lpt);
  }

  /** Counters less than two laps apart share a slot if they are equal or a lap apart. */
  lemma SameSlot(n: nat, i: nat, j: nat)
    requires n > 0 && i <= j < i + 2 * n && Slot(n, i) == Slot(n, j)
    ensures j == i || j == i + n
  {
    if j < i + n {
      SlotInjective(n, i, j);
    } else {
      SlotLap(n, i);
      SlotInjective(n, i + n, j);
    }
  }

  // ---------------------------------------------------------------- steps of the consumer alone

  predicate OfConsumer(a: Step) {
    || a.GuardLoadHead? || a.GuardTest? || a.ReplayTest? || a.DequeueRefresh? || a.Dequeue?
    || a.ApplyRedo? || a.PersistMeta? || a.StoreHead? || a.MirrorHead?
  }

  ghost predicate ConsumerOnly(acts: seq<Step>) {
    forall i | 0 <= i < |acts| :: OfConsumer(acts[i])
  }

  /** The consumer alone leads from `s0` to the reachable state `s`. */
  ghost predicate Path(n: nat, base: Image, s0: State, acts: seq<Step>, s: State) {
    n >= 2 && Shaped(n, s) && Reached(n, base, s) && ConsumerOnly(acts) && Leads(n, s0, acts, s)
  }

  lemma Start(n: nat, base: Image, s: State)
    requires Reached(n, base, s)
    ensures Path(n, base, s, [], s)
  {
    ReachedShape(n, base, s);
    LeadsNowhere(n, s);
  }

  lemma Walk(n: nat, base: Image, s0: State, acts: seq<Step>, s: State, a: Step) returns (s': State)
    requires Path(n, base, s0, acts, s) && Enabled(n, s, a) && OfConsumer(a)
    ensures s' == Do(n, s, a) && Path(n, base, s0, acts + [a], s')
  {
    s' := Do(n, s, a);
    ReachedStep(n, base, s, a, s');
    ReachedShape(n, base, s');
    LeadsOne(n, s, a, s');
    LeadsThen(n, s0, acts, s, [a], s');
  }

  // ---------------------------------------------------------------- where the consumer stands

  /** There is something to commit and the sleep test fails. */
  predicate Awake(s: State) {
    s.remoteHead != s.remoteTail && s.lastPersistedHead != s.lastPersistedTail
  }

  /** Past its sleep test: an entry is there, and it is a COMMIT, or the next sleep test fails too. */
  predicate TakesCommit(s: State) {
    && s.globalHead != s.lastPersistedTail && s.globalHead < |s.buf|
    && (s.buf[s.globalHead].Commit? || s.lastPersistedHead != s.lastPersistedTail)
  }

  /** The consumer, left alone, will store the head of one more batch. */
  predicate WillCommit(s: State) {
    match s.consumer
    case GuardLoad => Awake(s)
    case GuardCheck => if s.tmp == s.lastPersistedTail then Awake(s) else TakesCommit(s)
    case Dequeuing => TakesCommit(s)
    case Processing(e) => e.Commit? || Awake(s)
    case StoringHead => true
    case MirroringHead => s.remoteHead != s.remoteTail
    case ReplayGuard => false
  }

  /** What the consumer does next; it has no choice. */
  function NextStep(s: State): Step {
    match s.consumer
    case GuardLoad => GuardLoadHead
    case GuardCheck => GuardTest
    case Dequeuing => if s.globalHead == s.globalTail then DequeueRefresh else Dequeue
    case Processing(e) => if e.Redo? then ApplyRedo else PersistMeta
    case StoringHead => StoreHead
    case MirroringHead => MirrorHead
    case ReplayGuard => ReplayTest
  }

  lemma OnlyStep(n: nat, s: State, a: Step)
    requires Shaped(n, s)
    ensures OfConsumer(a) && Enabled(n, s, a) <==> a == NextStep(s)
  {}

  /** What the slots say about the counters while a producer works or none is there. */
  ghost predicate Situated(s: State) {
    && s.h.com <= s.h.con <= s.h.lpt == s.h.pub <= |s.h.log|
    && (s.globalHead == s.lastPersistedTail <==> s.h.con == s.h.pub)
    && (s.remoteHead == s.remoteTail <==> s.h.com == s.h.pub)
    && (s.remoteHead == s.lastPersistedTail <==> s.h.com == s.h.pub)
    && (s.globalHead != s.globalTail ==> s.h.con < s.h.pub)
    && (s.h.con < s.h.pub ==> s.globalHead < |s.buf|)
    && (s.consumer == GuardLoad || s.consumer == GuardCheck || s.consumer == Dequeuing ==>
          s.h.com < s.h.pub ==> s.h.con < s.h.pub)
    && (s.consumer.Processing? && s.consumer.entry.Redo? ==> s.h.com < s.h.pub)
    && (s.consumer == StoringHead ==> s.h.com < s.h.con)
    && (s.consumer.Processing? ==> s.h.com < s.h.con)
    && s.h.pub - s.h.con < |s.buf|
    && (s.producer.Working? ==>
          s.h.cachedHead <= s.h.com && (s.remoteHead == s.localHead <==> s.h.com == s.h.cachedHead))
  }

  /** A producer works in a session or none is there, and no recovery is going on. */
  ghost predicate Busy(n: nat, base: Image, s: State) {
    Reached(n, base, s) && Shaped(n, s) && (s.producer.Working? || s.producer == NoSession) && !s.recovering
  }

  lemma SameSlotIff(n: nat, i: nat, j: nat)
    requires n > 0 && i <= j < i + n
    ensures Slot(n, i) == Slot(n, j) <==> i == j
  {
    if Slot(n, i) == Slot(n, j) {
      SlotInjective(n, i, j);
    }
  }

  lemma SituatedOk(n: nat, s: State)
    requires RingOk(n, s) && (s.producer.Working? || s.producer == NoSession) && !s.recovering
    ensures Situated(s)
  {
    SameSlotIff(n, s.h.con, s.h.lpt);
    SameSlotIff(n, s.h.com, s.h.pub);
    SameSlotIff(n, s.h.con, s.h.cachedTail);
    if s.producer.Working? {
      SameSlotIff(n, s.h.cachedHead, s.h.com);
    }
  }

  lemma BusySituated(n: nat, base: Image, s: State)
    requires Busy(n, base, s)
    ensures Situated(s)
  {
    ReachedInv(n, base, s);
    SituatedOk(n, s);
  }

  /** What the consumer leaves alone. */
  ghost predicate Undisturbed(s: State, s': State) {
    && s'.producer == s.producer && s'.localHead == s.localHead && s'.recovering == s.recovering
    && s'.h.cachedHead == s.h.cachedHead && s'.h.log == s.h.log && s'.h.pub == s.h.pub
    && s'.lastPersistedTail == s.lastPersistedTail && s'.remoteTail == s.remoteTail
  }

  lemma StepUndisturbed(n: nat, s: State)
    requires Shaped(n, s) && !s.recovering && s.consumer != ReplayGuard
    ensures Enabled(n, s, NextStep(s)) && OfConsumer(NextStep(s)) && Undisturbed(s, Do(n, s, NextStep(s)))
  {}

  lemma NotReplaying(n: nat, base: Image, s: State)
    requires Busy(n, base, s)
    ensures s.consumer != ReplayGuard
  {
    ReachedInv(n, base, s);
  }

  // ---------------------------------------------------------------- it commits

  /** How far the consumer is from storing a head: entries to take, and where it is in taking one. */
  function Distance(s: State): int {
    10 * (s.h.pub - s.h.con) + Phase(s)
  }

  function Phase(s: State): nat {
    match s.consumer
    case Processing(_) => 9
    case MirroringHead => 9
    case GuardLoad => 7
    case GuardCheck => if s.tmp == s.lastPersistedTail then 8 else 6
    case Dequeuing => if s.globalHead == s.globalTail then 5 else 4
    case StoringHead => 2
    case ReplayGuard => 0
  }

  /** The next step brings a consumer that will commit nearer to it. */
  ghost predicate Nearer(s: State, s': State) {
    WillCommit(s') && Distance(s') < Distance(s) && s'.h.com == s.h.com
  }

  lemma GuardNearer(n: nat, s: State)
    requires Shaped(n, s) && Situated(s) && WillCommit(s) && !s.recovering
    requires s.consumer == GuardLoad || s.consumer == GuardCheck
    ensures Nearer(s, Do(n, s, NextStep(s)))
  {}

  lemma TakeNearer(n: nat, s: State)
    requires Shaped(n, s) && Situated(s) && WillCommit(s) && !s.recovering && s.consumer == Dequeuing
    ensures Nearer(s, Do(n, s, NextStep(s)))
  {}

  lemma ApplyNearer(n: nat, s: State)
    requires Shaped(n, s) && Situated(s) && WillCommit(s) && !s.recovering && s.consumer.Processing?
    ensures Nearer(s, Do(n, s, NextStep(s)))
  {}

  lemma MirrorNearer(n: nat, s: State)
    requires Shaped(n, s) && Situated(s) && WillCommit(s) && !s.recovering && s.consumer == MirroringHead
    ensures Nearer(s, Do(n, s, NextStep(s)))
  {}

  lemma StepNearer(n: nat, s: State)
    requires Shaped(n, s) && Situated(s) && WillCommit(s) && !s.recovering && s.consumer != StoringHead
    ensures Nearer(s, Do(n, s, NextStep(s)))
  {
    if s.consumer == GuardLoad || s.consumer == GuardCheck {
      GuardNearer(n, s);
    } else if s.consumer == Dequeuing {
      TakeNearer(n, s);
    } else if s.consumer.Processing? {
      ApplyNearer(n, s);
    } else {
      MirrorNearer(n, s);
    }
  }

  /** The two stores of a commit. */
  lemma Stores(n: nat, base: Image, s0: State, acts: seq<Step>, s: State) returns (acts': seq<Step>, s': State)
    requires Path(n, base, s0, acts, s) && s.consumer == StoringHead
    ensures Path(n, base, s0, acts', s') && Undisturbed(s, s') && s'.h.com == s'.h.lph == s.h.con
    ensures s'.lastPersistedHead == s'.remoteHead
  {
    s' := Walk(n, base, s0, acts, s, StoreHead);
    acts' := acts + [StoreHead];
    s' := Walk(n, base, s0, acts', s', MirrorHead);
    acts' := acts' + [MirrorHead];
  }

  /** A consumer that will commit gets there, and mirrors the head it stored. */
  lemma {:induction false} Commits(n: nat, base: Image, s0: State, acts: seq<Step>, s: State)
    returns (acts': seq<Step>, s': State)
    requires Path(n, base, s0, acts, s) && Busy(n, base, s) && WillCommit(s)
    ensures Path(n, base, s0, acts', s') && Undisturbed(s, s')
    ensures s.h.com < s'.h.com == s'.h.lph && s'.lastPersistedHead == s'.remoteHead
    decreases Distance(s)
  {
    BusySituated(n, base, s);
    if s.consumer == StoringHead {
      acts', s' := Stores(n, base, s0, acts, s);
    } else {
      StepUndisturbed(n, s);
      StepNearer(n, s);
      s' := Walk(n, base, s0, acts, s, NextStep(s));
      DistanceBounded(n, base, s);
      DistanceBounded(n, base, s');
      acts', s' := Commits(n, base, s0, acts + [NextStep(s)], s');
    }
  }

  lemma DistanceBounded(n: nat, base: Image, s: State)
    requires Busy(n, base, s)
    ensures Distance(s) >= 0
  {
    BusySituated(n, base, s);
  }

  // ---------------------------------------------------------------- it does not

  /** No step changes the remote head, and the mirror only to the remote head. */
  ghost predicate Waiting(s: State, s': State) {
    && Undisturbed(s, s') && !WillCommit(s')
    && s'.remoteHead == s.remoteHead
    && (s'.lastPersistedHead == s.lastPersistedHead
        || (s.consumer == MirroringHead && s'.lastPersistedHead == s.remoteHead))
  }

  lemma GuardWaits(n: nat, s: State)
    requires Shaped(n, s) && Situated(s) && !WillCommit(s) && !s.recovering
    requires s.consumer == GuardLoad || s.consumer == GuardCheck
    ensures Waiting(s, Do(n, s, NextStep(s)))
  {}

  lemma TakeWaits(n: nat, s: State)
    requires Shaped(n, s) && Situated(s) && !WillCommit(s) && !s.recovering
    requires s.consumer == Dequeuing
    ensures Waiting(s, Do(n, s, NextStep(s)))
  {}

  lemma ApplyWaits(n: nat, s: State)
    requires Shaped(n, s) && Situated(s) && !WillCommit(s) && !s.recovering
    requires s.consumer.Processing? || s.consumer == MirroringHead
    ensures Waiting(s, Do(n, s, NextStep(s)))
  {}

  lemma StepWaits(n: nat, s: State)
    requires Shaped(n, s) && Situated(s) && !WillCommit(s) && !s.recovering
    requires s.consumer != ReplayGuard
    ensures Waiting(s, Do(n, s, NextStep(s)))
  {
    if s.consumer == GuardLoad || s.consumer == GuardCheck {
      GuardWaits(n, s);
    } else if s.consumer == Dequeuing {
      TakeWaits(n, s);
    } else {
      ApplyWaits(n, s);
    }
  }

  /** The remote head stays, and the mirror stays or becomes the remote head. */
  ghost predicate HeadsStay(s: State, s': State) {
    && Undisturbed(s, s') && s'.remoteHead == s.remoteHead
    && (s'.lastPersistedHead == s.lastPersistedHead
        || (s.consumer == MirroringHead && s'.lastPersistedHead == s.remoteHead))
    && (s'.consumer == MirroringHead ==> s.consumer == MirroringHead)
  }

  lemma NoNewMirror(n: nat, s: State)
    requires Shaped(n, s) && !WillCommit(s) && !s.recovering && s.consumer != ReplayGuard
    ensures Do(n, s, NextStep(s)).consumer != MirroringHead
  {}

  /** Along any path of the consumer alone, from a state in which it will not commit. */
  lemma {:induction false} WaitsAlong(n: nat, base: Image, ss: seq<State>, acts: seq<Step>, k: nat)
    requires Linked(n, ss, acts) && ConsumerOnly(acts) && k <= |acts|
    requires Busy(n, base, ss[0]) && !WillCommit(ss[0])
    ensures Busy(n, base, ss[k]) && !WillCommit(ss[k]) && HeadsStay(ss[0], ss[k])
  {
    if k > 0 {
      WaitsAlong(n, base, ss, acts, k - 1);
      WaitsOn(n, base, ss, acts, k - 1);
    }
  }

  lemma WaitsOn(n: nat, base: Image, ss: seq<State>, acts: seq<Step>, k: nat)
    requires Linked(n, ss, acts) && ConsumerOnly(acts) && k < |acts|
    requires Busy(n, base, ss[k]) && !WillCommit(ss[k])
    ensures Busy(n, base, ss[k + 1]) && Waiting(ss[k], ss[k + 1]) && ss[k + 1].consumer != MirroringHead
  {
    var m := ss[k];
    assert Follows(n, m, acts[k], ss[k + 1]) && OfConsumer(acts[k]);
    OnlyStep(n, m, acts[k]);
    BusySituated(n, base, m);
    NotReplaying(n, base, m);
    StepWaits(n, m);
    NoNewMirror(n, m);
    ReachedStep(n, base, m, acts[k], ss[k + 1]);
    ReachedShape(n, base, ss[k + 1]);
  }

  lemma NeverMoves(n: nat, base: Image, s: State, acts: seq<Step>, s': State)
    requires Busy(n, base, s) && !WillCommit(s) && ConsumerOnly(acts) && Leads(n, s, acts, s')
    ensures HeadsStay(s, s')
  {
    var ss :| Linked(n, ss, acts) && ss[0] == s && ss[|acts|] == s';
    WaitsAlong(n, base, ss, acts, |acts|);
  }

  // ---------------------------------------------------------------- the two wait loops

  /** A producer in a session sees no room; the consumer may be anywhere. */
  ghost predicate Waits(n: nat, base: Image, s: State) {
    Busy(n, base, s) && s.producer.Working? && Next(n, s.localTail) == s.localHead
  }

  /** The consumer alone can get the remote head away from the slot the producer waits on. */
  ghost predicate EnqueueReleased(n: nat, s: State) {
    exists acts, s' :: ConsumerOnly(acts) && Leads(n, s, acts, s') && s'.remoteHead != s.localHead
  }

  /** The same for the mirrored head, which a waiting commit re-reads. */
  ghost predicate CommitReleased(n: nat, s: State) {
    exists acts, s' :: ConsumerOnly(acts) && Leads(n, s, acts, s') && s'.lastPersistedHead != s.localHead
  }

  lemma CommitReleases(n: nat, base: Image, s: State) returns (acts: seq<Step>, s': State)
    requires Waits(n, base, s) && WillCommit(s)
    ensures ConsumerOnly(acts) && Leads(n, s, acts, s')
    ensures s'.remoteHead != s.localHead && s'.lastPersistedHead != s.localHead
  {
    Start(n, base, s);
    BusySituated(n, base, s);
    acts, s' := Commits(n, base, s, [], s);
    HeadMoved(n, base, s');
  }

  lemma HeadMoved(n: nat, base: Image, s: State)
    requires Reached(n, base, s) && s.producer.Working? && s.h.cachedHead < s.h.com == s.h.lph
    ensures s.remoteHead != s.localHead && s.lastPersistedHead != s.localHead
  {
    ReachedInv(n, base, s);
    SlotDist(n, s.h.cachedHead, s.h.com);
  }

  /**
   An enqueue whose refresh gives it no room (ring_buffer.c:191-193) is released by the consumer,
   wherever that stands, if and only if it will store the head of one more batch.
   */
  lemma EnqueueReleasedIff(n: nat, base: Image, s: State)
    requires Waits(n, base, s) && s.remoteHead == s.localHead
    ensures EnqueueReleased(n, s) <==> WillCommit(s)
  {
    if WillCommit(s) {
      var acts, s' := CommitReleases(n, base, s);
    } else {
      forall acts, s' | ConsumerOnly(acts) && Leads(n, s, acts, s') ensures s'.remoteHead == s.localHead {
        NeverMoves(n, base, s, acts, s');
      }
    }
  }

  /**
   A commit whose refresh gives it no room (ring_buffer.c:208-210) is released in the same case, and
   when a head already stored is about to be mirrored; it can wait in vain on a stale mirror when
   everything published has been committed.
   */
  lemma CommitReleasedIff(n: nat, base: Image, s: State)
    requires Waits(n, base, s) && s.lastPersistedHead == s.localHead
    ensures CommitReleased(n, s)
       <==> WillCommit(s) || (s.consumer == MirroringHead && s.remoteHead != s.localHead)
  {
    if WillCommit(s) {
      var acts, s' := CommitReleases(n, base, s);
    } else if s.consumer == MirroringHead && s.remoteHead != s.localHead {
      Start(n, base, s);
      var s' := Walk(n, base, s, [], s, MirrorHead);
      assert ConsumerOnly([] + [MirrorHead]) && s'.lastPersistedHead != s.localHead;
    } else {
      forall acts, s' | ConsumerOnly(acts) && Leads(n, s, acts, s') ensures s'.lastPersistedHead == s.localHead {
        NeverMoves(n, base, s, acts, s');
      }
    }
  }

  // ---------------------------------------------------------------- catching up

  /** Between sessions a consumer that has something left to commit will. */
  lemma AwakeBetween(n: nat, base: Image, s: State)
    requires Busy(n, base, s) && s.producer == NoSession && s.h.com < s.h.pub
    ensures WillCommit(s)
  {
    BusySituated(n, base, s);
    NotReplaying(n, base, s);
    NotAsleep(n, base, s);
  }

  lemma NotAsleep(n: nat, base: Image, s: State)
    requires Reached(n, base, s) && s.producer == NoSession && s.h.com < s.h.pub
    ensures s.lastPersistedHead != s.lastPersistedTail
  {
    var ss, acts :| IsRun(n, base, ss, acts) && AllRefreshesFresh(n, ss, acts) && ss[|acts|] == s;
    NoLostWakeup(n, base, ss, acts, |acts|);
  }

  /** Between sessions the consumer alone gets to where all that is published is committed and in the image. */
  lemma {:induction false} CatchesUp(n: nat, base: Image, s0: State, acts: seq<Step>, s: State)
    returns (acts': seq<Step>, s': State)
    requires Path(n, base, s0, acts, s) && Busy(n, base, s) && s.producer == NoSession
    ensures Path(n, base, s0, acts', s') && Undisturbed(s, s')
    ensures s'.h.com == s'.h.pub <= |s'.h.log| && s'.image == PublishedImage(s')
    decreases s.h.pub - s.h.com
  {
    BusySituated(n, base, s);
    if s.h.com == s.h.pub {
      CaughtUp(n, base, s);
      acts', s' := acts, s;
    } else {
      AwakeBetween(n, base, s);
      var acts1, s1 := Commits(n, base, s0, acts, s);
      BusySituated(n, base, s1);
      acts', s' := CatchesUp(n, base, s0, acts1, s1);
    }
  }

  lemma CaughtUp(n: nat, base: Image, s: State)
    requires Busy(n, base, s) && s.h.com == s.h.pub
    ensures s.h.pub <= |s.h.log| && s.image == PublishedImage(s)
  {
    ReachedInv(n, base, s);
    BusySituated(n, base, s);
    Drained(n, s);
  }
}
