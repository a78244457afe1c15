/**
 A run in which a crash leaves a combiner's batch of one memcpy and one store half applied.
 */
module TornWitness {
  import opened RedoLog
  import opened RingSlots
  import opened Ring
  import opened RingInvariant
  import opened RingTheorems
  import opened RingRuns
  import opened Blocks
  import opened Collection
  import opened Atomicity
  import opened Stops
  import opened EndToEnd

  function CopyEntry(): Entry {
    EntryAt(Written(), 2048)
  }

  function StoreEntry(): Entry {
    EntryAt(Written(), 2080)
  }

  /** The producer of a ring of eight slots is in a session; nothing has been consumed. */
  ghost predicate Producing(s: State, log: seq<Entry>, pub: nat) {
    && Reached(8, Zeros(), s) && Shaped(8, s) && s.h.base == Zeros() && s.h.log == log && s.h.pub == pub
    && s.localHead == 0 && s.localTail == |log|
  }

  lemma Go(s: State, a: Step) returns (s': State)
    requires Reached(8, Zeros(), s) && Shaped(8, s) && Enabled(8, s, a) && !a.CommitRefresh?
    ensures s' == Do(8, s, a) && Reached(8, Zeros(), s') && Shaped(8, s')
  {
    s' := Do(8, s, a);
    ReachedStep(8, Zeros(), s, a, s');
    ReachedShape(8, Zeros(), s');
  }

  lemma Begin() returns (s: State)
    ensures Producing(s, [], 0) && s.producer == Working(false)
  {
    ReachedInit(8, Zeros());
    s := Init(8, Zeros());
    s := Go(s, LoadHead);
    s := Go(s, LoadTail);
  }

  lemma Write(s: State, log: seq<Entry>, pub: nat, e: Entry) returns (s': State)
    requires Producing(s, log, pub) && s.producer.Working? && |log| < 7 && e.Redo?
    ensures Producing(s', log + [e], pub) && s'.producer == Working(false)
  {
    s' := Go(s, Enqueue(e.addr, e.payload));
  }

  /** A COMMIT is written and the tail published. */
  lemma Close(s: State, log: seq<Entry>, pub: nat) returns (s': State)
    requires Producing(s, log, pub) && s.producer.Working? && |log| < 7
    ensures Producing(s', log + [RedoLog.Commit], |log| + 1) && s'.producer == MirroringTail
  {
    s' := Go(s, CommitEntry);
    s' := Go(s', Publish);
  }

  lemma FirstBatch() returns (s: State)
    ensures Producing(s, [CopyEntry(), RedoLog.Commit], 2) && s.producer == MirroringTail
  {
    s := Begin();
    s := Write(s, [], 0, CopyEntry());
    s := Close(s, [CopyEntry()], 0);
  }

  lemma SecondBatch() returns (s: State)
    ensures Producing(s, [CopyEntry(), RedoLog.Commit, StoreEntry(), RedoLog.Commit], 4)
  {
    s := FirstBatch();
    s := Go(s, MirrorTail);
    s := Write(s, [CopyEntry(), RedoLog.Commit], 2, StoreEntry());
    s := Close(s, [CopyEntry(), RedoLog.Commit, StoreEntry()], 2);
  }

  /** The four entries are those of the stop. */
  lemma StopEntries()
    ensures CopiesLog(Written(), COPIES) == [CopyEntry(), RedoLog.Commit]
    ensures StopLog(Written(), COPIES, TABLE) == [CopyEntry(), RedoLog.Commit, StoreEntry(), RedoLog.Commit]
  {
    assert ChunksOf(COPIES[0]) == 1;
    assert CopyLog(Written(), 2048, 0) == [];
    assert CopyLog(Written(), 2048, 1) == [CopyEntry()];
    assert COPIES[..0] == [] && TABLE[..0] == [];
    assert CopiesLog(Written(), []) == [] && TableLog(Written(), []) == [];
  }

  /**
   The batch of TornBatch, published by a run.  A crash after its first ring batch recovers an image
   with the copied byte and without the stored one; the stop that publishes both goes on from there.
   */
  lemma CrashTearsBatch() returns (s: State, s': State)
    ensures Reached(8, Zeros(), s) && Recovers(8, s, Zeros()[2048 := 7])
    ensures Reached(8, Zeros(), s') && JustPublished(s', [], Written(), COPIES, TABLE)
    ensures Recovers(8, s', Written())
    ensures Published(s) <= Published(s')
  {
    s := FirstBatch();
    s' := SecondBatch();
    ReachedRecovers(s);
    ReachedRecovers(s');
    AllIsPublished(s);
    AllIsPublished(s');
    ImageBetween();
    StopEntries();
    StopIsReadable();
    assert [] + StopLog(Written(), COPIES, TABLE) == StopLog(Written(), COPIES, TABLE);
    NothingBefore();
  }

  lemma AllIsPublished(s: State)
    requires s.h.pub == |s.h.log|
    ensures Published(s) == s.h.log == s.h.log[..s.h.pub]
  {}

  lemma NothingBefore()
    ensures Zeros() + Delta([]) == Zeros() && Zeros().Keys == Written().Keys
  {}

  lemma StopIsReadable()
    ensures Readable(Written(), COPIES, TABLE)
  {
    var bs := TornBatch();
  }

  /** The images after one and after both batches. */
  lemma ImageBetween()
    ensures Zeros() + Delta([CopyEntry(), RedoLog.Commit]) == Zeros()[2048 := 7]
    ensures Zeros() + Delta([CopyEntry(), RedoLog.Commit, StoreEntry(), RedoLog.Commit]) == Written()
  {
    StopEntries();
    var bs := TornBatch();
    StopImages(bs);
  }

  lemma StopImages(bs: seq<seq<Entry>>)
    requires StopsIn(Written(), COPIES, TABLE, bs)
    ensures ImageAfter(Zeros(), bs, 1) == Zeros() + Delta(CopiesLog(Written(), COPIES))
    ensures ImageAfter(Zeros(), bs, 2) == Zeros() + Delta(StopLog(Written(), COPIES, TABLE))
  {
    assert COPIES[..1] == COPIES && Flatten(bs[..1]) == CopiesLog(Written(), COPIES);
    assert bs[..2] == bs;
  }

  lemma ReachedRecovers(s: State)
    requires Reached(8, Zeros(), s)
    ensures Recovers(8, s, Zeros() + Delta(Published(s)))
  {
    var ss, acts :| IsRun(8, Zeros(), ss, acts) && AllRefreshesFresh(8, ss, acts) && ss[|acts|] == s;
    RecoversPublished(8, Zeros(), ss, acts, |acts|);
  }
}
