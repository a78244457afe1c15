/**
 The redo-log ring with its single producer and its single consumer, as a step machine.

 Every shared word is read or written by at most one step, so any interleaving of the two
 sides and a crash between any two stores is a run of the machine.  The guards and effects on
 the ring itself use only what the code can see (slots, cached slots, program counters); the
 `History` part records unbounded counters and the log as it was enqueued, and no guard
 looks at it.
 */
module Ring {
  import opened RedoLog
  import opened RingSlots

  /** Where the producer stands between loading the shared head and tail and writing them back. */
  datatype ProducerPc =
    | NoSession
    | LoadingTail
    | Working(committed: bool)
    | Publishing
    | MirroringTail
    | WritingBackTail

  /** Where the consumer stands in run_consumer, the replay loop and process_entry. */
  datatype ConsumerPc =
    | GuardLoad
    | GuardCheck
    | ReplayGuard
    | Dequeuing
    | Processing(entry: Entry)
    | StoringHead
    | MirroringHead

  /**
   What really happened: the log in enqueue order, the entries handed to the consumer, and the
   counter behind every slot variable of the machine.
   */
  datatype History = History(
    base: Image,             // the image before the first entry
    log: seq<Entry>,         // every entry enqueued; its length is the producer's tail counter
    delivered: seq<Entry>,   // entries as ring_buffer_dequeue returned them
    pub: nat,                // behind remote_tail
    lpt: nat,                // behind last_persisted_tail
    com: nat,                // behind remote_head
    lph: nat,                // behind last_persisted_head
    meta: nat,               // behind commit_metadata.ringBufferHead
    cachedHead: nat,         // behind the producer's thread_local_head
    con: nat,                // behind global_local_head
    cachedTail: nat,         // behind global_local_tail
    crashes: nat)

  datatype State = State(
    // the shared file
    buf: seq<Entry>,
    lastPersistedHead: nat,
    lastPersistedTail: nat,
    remoteHead: nat,
    remoteTail: nat,
    metaHead: nat,
    // the producer
    producer: ProducerPc,
    localHead: nat,
    localTail: nat,
    unfenced: set<nat>,      // slots written since the last drain
    // the consumer
    consumer: ConsumerPc,
    recovering: bool,
    globalHead: nat,
    globalTail: nat,
    tmp: nat,
    image: Image,
    pending: set<int>,       // image bytes written since the last drain
    h: History)

  datatype Step =
    // producer
    | LoadHead
    | LoadTail
    | EnqueueRefresh
    | Enqueue(addr: int, payload: seq<int>)
    | CommitRefresh
    | CommitEntry
    | Publish
    | MirrorTail
    | WriteBackHead
    | WriteBackTail
    // consumer
    | GuardLoadHead
    | GuardTest
    | ReplayTest
    | DequeueRefresh
    | Dequeue
    | ApplyRedo
    | PersistMeta
    | StoreHead
    | MirrorHead
    // environment
    | Crash(buf: seq<Entry>, image: Image)

  function Init(n: nat, base: Image): State {
    State(seq(n, _ => Commit), 0, 0, 0, 0, 0,
          NoSession, 0, 0, {},
          GuardLoad, false, 0, 0, 0, base, {},
          History(base, [], [], 0, 0, 0, 0, 0, 0, 0, 0, 0))
  }

  /** The slot variables hold slots; this is all a step needs to be meaningful. */
  predicate Shaped(n: nat, s: State) {
    && |s.buf| == n
    && s.lastPersistedHead < n && s.lastPersistedTail < n
    && s.remoteHead < n && s.remoteTail < n && s.metaHead < n
    && s.localHead < n && s.localTail < n
    && s.globalHead < n && s.globalTail < n
  }

  /** Image bytes a crash may leave in any condition: unfenced ones and those being written. */
  function Torn(s: State): set<int> {
    s.pending + (if s.consumer.Processing? then Effect(s.consumer.entry).Keys else {})
  }

  /** Slots a crash may leave in any condition. */
  predicate TornSlot(s: State, i: nat) {
    i in s.unfenced || (s.producer.Working? && i == s.localTail)
  }

  predicate Survives(n: nat, s: State, buf: seq<Entry>, image: Image) {
    && |buf| == n == |s.buf|
    && (forall i | 0 <= i < n && !TornSlot(s, i) :: buf[i] == s.buf[i])
    && image - Torn(s) == s.image - Torn(s)
  }

  predicate Enabled(n: nat, s: State, a: Step)
    requires Shaped(n, s)
  {
    match a
    case LoadHead => s.producer == NoSession && !s.recovering
    case LoadTail => s.producer == LoadingTail
    case EnqueueRefresh => s.producer.Working? && Next(n, s.localTail) == s.localHead
    case Enqueue(_, _) => s.producer.Working? && Next(n, s.localTail) != s.localHead
    case CommitRefresh => s.producer.Working? && Next(n, s.localTail) == s.localHead
    case CommitEntry => s.producer.Working? && Next(n, s.localTail) != s.localHead
    case Publish => s.producer == Publishing
    case MirrorTail => s.producer == MirroringTail
    case WriteBackHead => s.producer == Working(true)
    case WriteBackTail => s.producer == WritingBackTail
    case GuardLoadHead => s.consumer == GuardLoad
    case GuardTest => s.consumer == GuardCheck
    case ReplayTest => s.consumer == ReplayGuard
    case DequeueRefresh => s.consumer == Dequeuing && s.globalHead == s.globalTail
    case Dequeue => s.consumer == Dequeuing && s.globalHead != s.globalTail
    case ApplyRedo => s.consumer.Processing? && s.consumer.entry.Redo?
    case PersistMeta => s.consumer.Processing? && s.consumer.entry.Commit?
    case StoreHead => s.consumer == StoringHead
    case MirrorHead => s.consumer == MirroringHead
    case Crash(buf, image) => Survives(n, s, buf, image)
  }

  function LoopTop(s: State): ConsumerPc {
    if s.recovering then ReplayGuard else GuardLoad
  }

  /** Writing an entry into the producer's slot: the ring, the cursor and the log move together. */
  function Append(n: nat, s: State, e: Entry): State
    requires Shaped(n, s)
  {
    s.(buf := s.buf[s.localTail := e],
       localTail := Next(n, s.localTail),
       unfenced := s.unfenced + {s.localTail},
       h := s.h.(log := s.h.log + [e]))
  }

  predicate OfProducer(a: Step) {
    || a.LoadHead? || a.LoadTail? || a.EnqueueRefresh? || a.Enqueue? || a.CommitRefresh? || a.CommitEntry?
    || a.Publish? || a.MirrorTail? || a.WriteBackHead? || a.WriteBackTail?
  }

  function Do(n: nat, s: State, a: Step): State
    requires Shaped(n, s) && Enabled(n, s, a)
  {
    if OfProducer(a) then DoProducer(n, s, a) else DoConsumer(n, s, a)
  }

  function DoProducer(n: nat, s: State, a: Step): State
    requires Shaped(n, s) && Enabled(n, s, a) && OfProducer(a)
  {
    match a
    case LoadHead =>
      s.(localHead := s.lastPersistedHead, producer := LoadingTail, h := s.h.(cachedHead := s.h.lph))
    case LoadTail =>
      s.(localTail := s.lastPersistedTail, producer := Working(false))
    case EnqueueRefresh =>
      s.(localHead := s.remoteHead, h := s.h.(cachedHead := s.h.com))
    case Enqueue(addr, payload) =>
      Append(n, s, Redo(addr, payload)).(producer := Working(false))
    case CommitRefresh =>
      s.(localHead := s.lastPersistedHead,
         h := s.h.(cachedHead := s.h.cachedHead + Dist(n, s.localHead, s.lastPersistedHead)))
    case CommitEntry =>
      Append(n, s, RedoLog.Commit).(unfenced := {}, producer := Publishing)
    case Publish =>
      s.(remoteTail := s.localTail, producer := MirroringTail, h := s.h.(pub := |s.h.log|))
    case MirrorTail =>
      s.(lastPersistedTail := s.remoteTail, producer := Working(true), h := s.h.(lpt := s.h.pub))
    case WriteBackHead =>
      s.(lastPersistedHead := s.localHead, producer := WritingBackTail, h := s.h.(lph := s.h.cachedHead))
    case WriteBackTail =>
      s.(lastPersistedTail := s.localTail, producer := NoSession, h := s.h.(lpt := |s.h.log|))
  }

  function DoConsumer(n: nat, s: State, a: Step): State
    requires Shaped(n, s) && Enabled(n, s, a) && !OfProducer(a)
  {
    match a
    case GuardLoadHead =>
      s.(tmp := s.lastPersistedHead, consumer := GuardCheck)
    case GuardTest =>
      s.(consumer := if s.lastPersistedTail == s.tmp then GuardLoad else Dequeuing)
    case ReplayTest =>
      if s.remoteHead != s.remoteTail then s.(consumer := Dequeuing)
      else s.(consumer := GuardLoad, recovering := false)
    case DequeueRefresh =>
      s.(globalTail := s.lastPersistedTail, h := s.h.(cachedTail := s.h.lpt))
    case Dequeue =>
      s.(globalHead := Next(n, s.globalHead),
         consumer := Processing(s.buf[s.globalHead]),
         h := s.h.(con := s.h.con + 1, delivered := s.h.delivered + [s.buf[s.globalHead]]))
    case ApplyRedo =>
      s.(image := s.image + Effect(s.consumer.entry),
         pending := s.pending + Effect(s.consumer.entry).Keys,
         consumer := LoopTop(s))
    case PersistMeta =>
      s.(metaHead := s.globalHead, pending := {}, consumer := StoringHead, h := s.h.(meta := s.h.con))
    case StoreHead =>
      s.(remoteHead := s.globalHead, consumer := MirroringHead, h := s.h.(com := s.h.con))
    case MirrorHead =>
      s.(lastPersistedHead := s.remoteHead, consumer := LoopTop(s), h := s.h.(lph := s.h.com))
    case Crash(buf, image) =>
      Restart(s, buf, image)
  }

  /**
   What the next process finds after a crash: ring_buffer_create_and_initialise resumes both
   cursors from the durable remote head and tail, and the back end enters its replay loop.
   */
  function Restart(s: State, buf: seq<Entry>, image: Image): State {
    var published := if s.h.pub <= |s.h.log| then s.h.log[..s.h.pub] else s.h.log;
    var applied := if s.h.com <= |s.h.delivered| then s.h.delivered[..s.h.com] else s.h.delivered;
    s.(buf := buf, image := image, unfenced := {}, pending := {},
       lastPersistedHead := s.remoteHead, lastPersistedTail := s.remoteTail,
       producer := NoSession,
       globalHead := s.remoteHead, globalTail := s.remoteTail,
       consumer := ReplayGuard, recovering := true,
       h := s.h.(log := published, delivered := applied,
                 lph := s.h.com, lpt := s.h.pub, con := s.h.com, cachedTail := s.h.pub,
                 crashes := s.h.crashes + 1))
  }

  /**
   The commit-refresh hypothesis: ring_buffer_commit_enqueued_entries re-reads its head from
   last_persisted_head, and the slot it gets is not past remote_head, going forward from the
   slot it had.
   */
  predicate FreshRefresh(n: nat, s: State, a: Step) {
    && Shaped(n, s)
    && (a.CommitRefresh? ==> Dist(n, s.localHead, s.lastPersistedHead) <= Dist(n, s.localHead, s.remoteHead))
  }

  ghost predicate Follows(n: nat, s: State, a: Step, s': State) {
    Shaped(n, s) && Enabled(n, s, a) && s' == Do(n, s, a)
  }

  /** A run of the machine: states linked by enabled steps. */
  ghost predicate IsRun(n: nat, base: Image, ss: seq<State>, acts: seq<Step>) {
    n >= 2 && Linked(n, ss, acts) && ss[0] == Init(n, base)
  }

  /** The states `ss` are linked by the enabled steps `acts`. */
  ghost predicate Linked(n: nat, ss: seq<State>, acts: seq<Step>) {
    && |ss| == |acts| + 1
    && forall i {:trigger acts[i]} | 0 <= i < |acts| :: Follows(n, ss[i], acts[i], ss[i + 1])
  }

  ghost predicate AllRefreshesFresh(n: nat, ss: seq<State>, acts: seq<Step>)
    requires |ss| == |acts| + 1
  {
    forall i {:trigger acts[i]} | 0 <= i < |acts| :: FreshRefresh(n, ss[i], acts[i])
  }
}
