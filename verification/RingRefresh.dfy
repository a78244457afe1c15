/**
 The commit refresh: exactly when it keeps the ring sound, and what is lost when it does not.
 */
module RingRefresh {
  import opened RedoLog
  import opened RingSlots
  import opened Ring
  import opened RingInvariant
  import opened RingTheorems
  import opened RingRuns

  /** The same machine state with another counter behind the cached head. */
  function Relabelled(s: State, c: nat): State {
    s.(h := s.h.(cachedHead := c))
  }

  /**
   After a commit refresh some counter explains the cached head, with the ring sound, if and only
   if the refresh did not step past the remote head.
   */
  lemma RefreshSoundIffFresh(n: nat, s: State)
    requires RingOk(n, s) && Enabled(n, s, CommitRefresh)
    ensures (exists c :: RingOk(n, Relabelled(Do(n, s, CommitRefresh), c))) <==> FreshRefresh(n, s, CommitRefresh)
  {
    var s' := Do(n, s, CommitRefresh);
    if FreshRefresh(n, s, CommitRefresh) {
      CommitRefreshStep(n, s);
      assert Relabelled(s', s'.h.cachedHead) == s';
    }
    forall c | RingOk(n, Relabelled(s', c)) ensures FreshRefresh(n, s, CommitRefresh) {
      ExplainedMeansFresh(n, s, c);
    }
  }

  /** The producer waits a lap behind its cached head. */
  lemma FullMeansLap(n: nat, s: State)
    requires CursorsOk(n, s) && Enabled(n, s, CommitRefresh)
    ensures |s.h.log| == s.h.cachedHead + n - 1
    ensures Dist(n, s.localHead, s.remoteHead) == s.h.com - s.h.cachedHead
  {
    SlotDist(n, s.h.cachedHead, s.h.com);
    LapBehind(n, s.h.cachedHead, |s.h.log|);
  }

  lemma LapBehind(n: nat, i: nat, j: nat)
    requires n > 1 && i <= j < i + n && Next(n, Slot(n, j)) == Slot(n, i)
    ensures j == i + n - 1
  {
    assert Slot(n, j + 1) == Slot(n, i);
    if j + 1 < i + n {
      SlotInjective(n, i, j + 1);
    }
  }

  lemma ExplainedMeansFresh(n: nat, s: State, c: nat)
    requires RingOk(n, s) && Enabled(n, s, CommitRefresh)
    requires RingOk(n, Relabelled(Do(n, s, CommitRefresh), c))
    ensures FreshRefresh(n, s, CommitRefresh)
  {
    FullMeansLap(n, s);
    SlotDist(n, s.h.cachedHead, c);
  }

  // ---------------------------------------------------------------- a refresh that is not fresh

  /** What an empty batch changes. */
  ghost predicate BatchAdded(n: nat, s: State, s': State) {
    && Shaped(n, s) && Shaped(n, s') && s.producer.Working? && s'.producer.Working?
    && s'.localHead == s.localHead && s'.remoteHead == s.remoteHead
    && s'.remoteTail == s'.localTail == Next(n, s.localTail)
    && s'.h.log == s.h.log + [RedoLog.Commit] && s'.h.pub == |s'.h.log|
    && s'.h.com == s.h.com && s'.h.base == s.h.base && s'.image == s.image
  }

  lemma EmptyBatch(n: nat, s: State) returns (s': State)
    requires Shaped(n, s) && s.producer.Working? && Next(n, s.localTail) != s.localHead
    ensures Leads(n, s, [CommitEntry, Publish, MirrorTail], s') && BatchAdded(n, s, s')
  {
    var a := Do(n, s, CommitEntry);
    var b := Do(n, a, Publish);
    s' := Do(n, b, MirrorTail);
    var ss, acts := [s, a, b, s'], [CommitEntry, Publish, MirrorTail];
    assert Linked(n, ss, acts);
  }

  function Commits(k: nat): seq<Entry> {
    seq(k, _ => RedoLog.Commit)
  }

  /** The producer's tail is at counter `t` and the head it believes in is `room` slots further. */
  ghost predicate Believes(n: nat, s: State, t: nat, room: nat) {
    && n > 0 && Shaped(n, s) && s.producer.Working? && room < n
    && s.localTail == Slot(n, t) && s.localHead == Slot(n, t + 1 + room)
  }

  /** With room for `k` entries the producer can publish `k` empty batches. */
  lemma {:induction false} Fill(n: nat, s: State, t: nat, room: nat, k: nat) returns (acts: seq<Step>, s': State)
    requires Believes(n, s, t, room) && 0 < k <= room
    ensures Leads(n, s, acts, s') && Shaped(n, s')
    ensures s'.remoteHead == s.remoteHead && s'.remoteTail == Slot(n, t + k)
    ensures s'.h.log == s.h.log + Commits(k) && s'.h.pub == |s'.h.log|
    ensures s'.h.com == s.h.com && s'.h.base == s.h.base && s'.image == s.image
    decreases k
  {
    if Slot(n, t + 1) == Slot(n, t + 1 + room) {
      SlotInjective(n, t + 1, t + 1 + room);
    }
    s' := EmptyBatch(n, s);
    acts := [CommitEntry, Publish, MirrorTail];
    assert Commits(k) == [RedoLog.Commit] + Commits(k - 1);
    if k > 1 {
      var m := s';
      var more;
      more, s' := Fill(n, m, t + 1, room - 1, k - 1);
      LeadsThen(n, s, acts, m, more, s');
      acts := acts + more;
    }
  }

  lemma {:induction false} CommitsAddNothing(log: seq<Entry>, k: nat)
    ensures Delta(log + Commits(k)) == Delta(log)
  {
    if k == 0 {
      assert log + Commits(0) == log;
    } else {
      var front := log + Commits(k - 1);
      CommitsAddNothing(log, k - 1);
      assert log + Commits(k) == front + [RedoLog.Commit];
      DeltaConcat(front, [RedoLog.Commit]);
      DeltaOne(RedoLog.Commit);
      assert Delta(front) + map[] == Delta(front);
    }
  }

  /** What the refresh makes the producer believe. */
  lemma StaleBelief(n: nat, s: State) returns (k: nat, room: nat)
    requires CursorsOk(n, s) && Enabled(n, s, CommitRefresh) && !FreshRefresh(n, s, CommitRefresh)
    ensures k == s.h.com + n - |s.h.log| && 0 < k <= room
    ensures Believes(n, Do(n, s, CommitRefresh), |s.h.log|, room)
  {
    FullMeansLap(n, s);
    k, room := s.h.com - s.h.cachedHead + 1, Dist(n, s.localHead, s.lastPersistedHead);
    LapAhead(n, s.h.cachedHead, s.lastPersistedHead);
  }

  lemma LapAhead(n: nat, c: nat, x: nat)
    requires n > 0 && x < n
    ensures Slot(n, c + n + Dist(n, Slot(n, c), x)) == x
  {
    var room := Dist(n, Slot(n, c), x);
    SlotAhead(n, c, x);
    SlotLap(n, c + room);
    assert c + n + room == c + room + n;
  }

  /**
   From every state in which the refresh steps past the remote head, the producer can go on to
   publish empty batches until a ring full of published entries looks empty: the durable head and
   tail are equal, so recovery replays none of them, the batch whose commit was waiting among
   them.  The image recovered is right only if there was nothing in the log left to apply.
   */
  lemma StaleRefreshLoses(n: nat, s: State) returns (acts: seq<Step>, s': State)
    requires CursorsOk(n, s) && Enabled(n, s, CommitRefresh) && !FreshRefresh(n, s, CommitRefresh)
    ensures Leads(n, s, [CommitRefresh] + acts, s') && Shaped(n, s')
    ensures s.h.log < s'.h.log && s'.h.pub == |s'.h.log| == s.h.com + n && s'.h.com == s.h.com
    ensures s'.remoteHead == s'.remoteTail
    ensures forall buf, image | Survives(n, s', buf, image) ::
              Replay(n, buf, s'.remoteHead, s'.remoteTail, image) == image
    ensures Replay(n, s'.buf, s'.remoteHead, s'.remoteTail, s'.image) == PublishedImage(s')
       <==> s.image == s.h.base + Delta(s.h.log)
  {
    var m, k;
    m, k, acts, s' := StaleFill(n, s);
    LeadsOne(n, s, CommitRefresh, m);
    LeadsThen(n, s, [CommitRefresh], m, acts, s');
    NothingReplayed(n, s, k, s');
  }

  /** The refresh, and the empty batches that follow it up to a full lap. */
  lemma StaleFill(n: nat, s: State) returns (m: State, k: nat, acts: seq<Step>, s': State)
    requires CursorsOk(n, s) && Enabled(n, s, CommitRefresh) && !FreshRefresh(n, s, CommitRefresh)
    ensures m == Do(n, s, CommitRefresh) && Leads(n, m, acts, s') && Shaped(n, s')
    ensures k > 0 && s'.h.log == s.h.log + Commits(k) && s'.h.pub == |s'.h.log| == s.h.com + n
    ensures s'.h.com == s.h.com && s'.h.base == s.h.base && s'.image == s.image && s'.remoteHead == s'.remoteTail
  {
    m := Do(n, s, CommitRefresh);
    var room;
    k, room := StaleBelief(n, s);
    acts, s' := Fill(n, m, |s.h.log|, room, k);
    SlotLap(n, s.h.com);
  }

  lemma NothingReplayed(n: nat, s: State, k: nat, s': State)
    requires Shaped(n, s') && s'.remoteHead == s'.remoteTail
    requires s'.h.log == s.h.log + Commits(k) && s'.h.pub == |s'.h.log|
    requires s'.h.base == s.h.base && s'.image == s.image
    ensures forall buf, image | Survives(n, s', buf, image) ::
              Replay(n, buf, s'.remoteHead, s'.remoteTail, image) == image
    ensures Replay(n, s'.buf, s'.remoteHead, s'.remoteTail, s'.image) == PublishedImage(s')
       <==> s.image == s.h.base + Delta(s.h.log)
  {
    CommitsAddNothing(s.h.log, k);
    assert s'.h.log[..s'.h.pub] == s.h.log + Commits(k);
  }
}
