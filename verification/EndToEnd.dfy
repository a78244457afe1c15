/**
 Collection, ring, consumer and recovery put together.
 */
module EndToEnd {
  import opened RedoLog
  import opened Collection
  import opened Atomicity
  import opened Stops
  import opened Ring
  import opened RingInvariant
  import opened RingTheorems
  import opened RingCommits

  /**
   When the consumer's sleep test succeeds after an instrument_stop, the persistent image equals
   the front end's memory on every byte exactly when every difference was tracked.
   */
  lemma SleepingConsumerHasMemory(n: nat, base: Image, ss: seq<State>, acts: seq<Step>, i: nat,
                                  before: seq<Entry>, mem: Image, cs: seq<Copy>, t: seq<nat>)
    requires IsRun(n, base, ss, acts) && AllRefreshesFresh(n, ss, acts) && i < |ss|
    requires JustPublished(ss[i], before, mem, cs, t)
    requires ss[i].producer == NoSession && ss[i].lastPersistedHead == ss[i].lastPersistedTail
    ensures ss[i].image == mem <==> Tracked(ss[i].h.base + Delta(before), mem, cs, t)
  {
    NoLostWakeup(n, base, ss, acts, i);
    PublishedIsMemory(ss[i], before, mem, cs, t);
  }

  /**
   From the moment the last batch of an instrument_stop is published, a crash at any point loses
   nothing of it: recovery rebuilds the memory the batches were collected from.
   */
  lemma CrashRebuildsMemory(n: nat, base: Image, ss: seq<State>, acts: seq<Step>, i: nat,
                            before: seq<Entry>, mem: Image, cs: seq<Copy>, t: seq<nat>,
                            buf: seq<Entry>, image: Image)
    requires IsRun(n, base, ss, acts) && AllRefreshesFresh(n, ss, acts) && i < |ss|
    requires JustPublished(ss[i], before, mem, cs, t)
    requires Tracked(ss[i].h.base + Delta(before), mem, cs, t)
    requires Survives(n, ss[i], buf, image)
    ensures Shaped(n, ss[i])
    ensures Replay(n, buf, ss[i].remoteHead, ss[i].remoteTail, image) == mem
  {
    CrashConsistency(n, base, ss, acts, i, buf, image);
    PublishedIsMemory(ss[i], before, mem, cs, t);
  }

  /** What is published while an instrument_stop is under way is some number of its batches. */
  lemma PublishedSoFar(n: nat, s: State, before: seq<Entry>, mem: Image, cs: seq<Copy>, t: seq<nat>, bs: seq<seq<Entry>>)
    returns (k: nat)
    requires s.h.pub <= |s.h.log| && Boundary(s.h.log, s.h.pub)
    requires before <= Published(s) <= before + StopLog(mem, cs, t)
    requires AreBatches(bs) && Flatten(bs) == StopLog(mem, cs, t)
    ensures k <= |bs| && Published(s) == before + Flatten(bs[..k])
  {
    var stop, p := StopLog(mem, cs, t), s.h.pub - |before|;
    assert Published(s) == s.h.log[..s.h.pub];
    if p > 0 {
      assert stop[p - 1] == Published(s)[s.h.pub - 1] == s.h.log[s.h.pub - 1];
    }
    k := BoundaryIsBatch(bs, p);
    assert Published(s) == before + stop[..p];
  }

  /** What recovery makes of whatever a crash in `s` leaves. */
  ghost predicate Recovers(n: nat, s: State, to: Image) {
    && Shaped(n, s)
    && forall buf, image | Survives(n, s, buf, image) :: Replay(n, buf, s.remoteHead, s.remoteTail, image) == to
  }

  lemma RecoversPublished(n: nat, base: Image, ss: seq<State>, acts: seq<Step>, i: nat)
    requires IsRun(n, base, ss, acts) && AllRefreshesFresh(n, ss, acts) && i < |ss|
    ensures Shaped(n, ss[i]) && ss[i].h.pub <= |ss[i].h.log| && Recovers(n, ss[i], base + Delta(Published(ss[i])))
  {
    RunInv(n, base, ss, acts, i);
    BaseStays(n, base, ss, acts, i);
    forall buf, image | Survives(n, ss[i], buf, image)
      ensures Replay(n, buf, ss[i].remoteHead, ss[i].remoteTail, image) == base + Delta(Published(ss[i]))
    {
      CrashConsistency(n, base, ss, acts, i, buf, image);
    }
  }

  /** An instrument_stop has run from state `i`, where it had published nothing, to state `j`. */
  ghost predicate StopRan(ss: seq<State>, i: nat, j: nat, before: seq<Entry>, mem: Image, cs: seq<Copy>, t: seq<nat>) {
    i <= j < |ss| && Published(ss[i]) == before && JustPublished(ss[j], before, mem, cs, t)
  }

  /**
   While an instrument_stop publishes, recovery from a crash in any state gives the image after some
   number of its batches.
   */
  lemma CrashDuringStop(n: nat, base: Image, ss: seq<State>, acts: seq<Step>, i: nat, j: nat, m: nat,
                        before: seq<Entry>, mem: Image, cs: seq<Copy>, t: seq<nat>, bs: seq<seq<Entry>>)
    returns (k: nat)
    requires IsRun(n, base, ss, acts) && AllRefreshesFresh(n, ss, acts) && i <= m <= j
    requires StopRan(ss, i, j, before, mem, cs, t) && AreBatches(bs) && Flatten(bs) == StopLog(mem, cs, t)
    ensures k <= |bs| && Recovers(n, ss[m], ImageAfter(base + Delta(before), bs, k))
  {
    PublishedNeverLost(n, base, ss, acts, i, m);
    PublishedNeverLost(n, base, ss, acts, m, j);
    RunInv(n, base, ss, acts, m);
    k := PublishedSoFar(n, ss[m], before, mem, cs, t, bs);
    RecoversPublished(n, base, ss, acts, m);
    ImageOfPrefix(base, before, bs, k);
  }

  lemma ImageOfPrefix(base: Image, before: seq<Entry>, bs: seq<seq<Entry>>, k: nat)
    requires k <= |bs|
    ensures base + Delta(before + Flatten(bs[..k])) == ImageAfter(base + Delta(before), bs, k)
  {
    DeltaConcat(before, Flatten(bs[..k]));
    MergeAssoc(base, Delta(before), Delta(Flatten(bs[..k])));
  }

  /** And each number of batches is what recovery gives from some state of the run. */
  lemma EveryBatchIsCrashPoint(n: nat, base: Image, ss: seq<State>, acts: seq<Step>, i: nat, j: nat, k: nat,
                               before: seq<Entry>, mem: Image, cs: seq<Copy>, t: seq<nat>, bs: seq<seq<Entry>>)
    returns (m: nat)
    requires IsRun(n, base, ss, acts) && AllRefreshesFresh(n, ss, acts) && k <= |bs|
    requires StopRan(ss, i, j, before, mem, cs, t) && AreBatches(bs) && Flatten(bs) == StopLog(mem, cs, t)
    ensures i <= m <= j && Recovers(n, ss[m], ImageAfter(base + Delta(before), bs, k))
  {
    StopSpans(n, base, ss, acts, i, j, before, mem, cs, t);
    m := BatchIsCrashPoint(n, base, ss, acts, i, j, before, bs, k);
    ImageOfPrefix(base, before, bs, k);
  }

  lemma BatchIsCrashPoint(n: nat, base: Image, ss: seq<State>, acts: seq<Step>, i: nat, j: nat,
                          before: seq<Entry>, bs: seq<seq<Entry>>, k: nat) returns (m: nat)
    requires IsRun(n, base, ss, acts) && AllRefreshesFresh(n, ss, acts) && i <= j < |ss| && k <= |bs|
    requires Published(ss[i]) == before && Published(ss[j]) == before + Flatten(bs)
    requires AreBatches(bs) && Boundary(before, |before|)
    ensures i <= m <= j && Recovers(n, ss[m], base + Delta(before + Flatten(bs[..k])))
  {
    BatchIsBoundary(before, bs, k);
    m := BoundaryIsCrashPoint(n, base, ss, acts, i, j, before + Flatten(bs), |before| + |Flatten(bs[..k])|);
  }

  /** Every batch boundary of the published log between two states is what some crash recovers. */
  lemma BoundaryIsCrashPoint(n: nat, base: Image, ss: seq<State>, acts: seq<Step>, i: nat, j: nat,
                             full: seq<Entry>, q: nat) returns (m: nat)
    requires IsRun(n, base, ss, acts) && AllRefreshesFresh(n, ss, acts) && i <= j < |ss|
    requires Published(ss[j]) == full && |Published(ss[i])| <= q <= |full| && Boundary(full, q)
    ensures i <= m <= j && Recovers(n, ss[m], base + Delta(full[..q]))
  {
    m := EveryCommitPoint(n, base, ss, acts, i, j, q);
    RecoversPublished(n, base, ss, acts, m);
  }

  lemma StopSpans(n: nat, base: Image, ss: seq<State>, acts: seq<Step>, i: nat, j: nat,
                  before: seq<Entry>, mem: Image, cs: seq<Copy>, t: seq<nat>)
    requires IsRun(n, base, ss, acts) && AllRefreshesFresh(n, ss, acts) && StopRan(ss, i, j, before, mem, cs, t)
    ensures Boundary(before, |before|) && Published(ss[j]) == before + StopLog(mem, cs, t)
  {
    RunInv(n, base, ss, acts, i);
    assert Published(ss[i]) == ss[i].h.log[..ss[i].h.pub];
  }

  lemma BatchIsBoundary(before: seq<Entry>, bs: seq<seq<Entry>>, k: nat)
    requires AreBatches(bs) && k <= |bs| && Boundary(before, |before|)
    ensures var full, q := before + Flatten(bs), |before| + |Flatten(bs[..k])|;
            q <= |full| && full[..q] == before + Flatten(bs[..k]) && Boundary(full, q)
  {
    BatchEndsLog(bs, k);
    FlattenPrefix(bs, k, |bs|);
    assert bs[..|bs|] == bs;
    var full, q := before + Flatten(bs), |before| + |Flatten(bs[..k])|;
    assert full[..q] == before + Flatten(bs[..k]);
    if q > 0 {
      assert full[q - 1] == full[..q][q - 1];
    }
  }

  /** The first `k` batches end in a COMMIT. */
  lemma BatchEndsLog(bs: seq<seq<Entry>>, k: nat)
    requires AreBatches(bs) && k <= |bs|
    ensures k > 0 ==> Flatten(bs[..k]) != [] && Flatten(bs[..k])[|Flatten(bs[..k])| - 1].Commit?
    ensures k == 0 ==> Flatten(bs[..k]) == []
  {
    if k > 0 {
      assert IsBatch(bs[k - 1]) && bs[..k][..k - 1] == bs[..k - 1] && bs[..k][k - 1] == bs[k - 1];
    }
  }

  /**
   Crash atomicity of a combiner's batch, over the runs themselves: recovery from every crash while
   instrument_stop publishes gives the memory before or the memory after, if and only if at most one
   of the copies and the table brings bytes that are out of date.
   */
  lemma StopCrashAtomicIff(n: nat, base: Image, ss: seq<State>, acts: seq<Step>, i: nat, j: nat,
                           before: seq<Entry>, mem: Image, cs: seq<Copy>, t: seq<nat>)
    requires IsRun(n, base, ss, acts) && AllRefreshesFresh(n, ss, acts)
    requires StopRan(ss, i, j, before, mem, cs, t) && (base + Delta(before)).Keys == mem.Keys
    requires Tracked(base + Delta(before), mem, cs, t)
    ensures (forall m | i <= m <= j :: Recovers(n, ss[m], base + Delta(before)) || Recovers(n, ss[m], mem))
       <==> AtMostOneMatters(base + Delta(before), mem, cs, t)
  {
    var shadow := base + Delta(before);
    var bs := StopAtomicIff(shadow, mem, cs, t);
    EndsOfStop(shadow, mem, cs, t, bs);
    if AllOrNothing(shadow, bs) {
      forall m | i <= m <= j ensures Recovers(n, ss[m], shadow) || Recovers(n, ss[m], mem) {
        var k := CrashDuringStop(n, base, ss, acts, i, j, m, before, mem, cs, t, bs);
      }
    }
    if forall m | i <= m <= j :: Recovers(n, ss[m], shadow) || Recovers(n, ss[m], mem) {
      forall k | 0 <= k <= |bs|
        ensures ImageAfter(shadow, bs, k) == ImageAfter(shadow, bs, 0)
             || ImageAfter(shadow, bs, k) == ImageAfter(shadow, bs, |bs|)
      {
        var m := EveryBatchIsCrashPoint(n, base, ss, acts, i, j, k, before, mem, cs, t, bs);
        OneRecovery(n, ss[m], ImageAfter(shadow, bs, k), shadow);
        OneRecovery(n, ss[m], ImageAfter(shadow, bs, k), mem);
      }
    }
  }

  /** Recovery from one state gives one image. */
  lemma OneRecovery(n: nat, s: State, x: Image, y: Image)
    requires Recovers(n, s, x)
    ensures Recovers(n, s, y) ==> x == y
  {
    assert Survives(n, s, s.buf, s.image);
  }

  lemma EndsOfStop(shadow: Image, mem: Image, cs: seq<Copy>, t: seq<nat>, bs: seq<seq<Entry>>)
    requires shadow.Keys == mem.Keys && Readable(mem, cs, t) && StopsIn(mem, cs, t, bs)
    requires Tracked(shadow, mem, cs, t)
    ensures ImageAfter(shadow, bs, 0) == shadow && ImageAfter(shadow, bs, |bs|) == mem
  {
    assert bs[..0] == [] && bs[..|bs|] == bs;
    assert shadow + map[] == shadow;
    ImageRefinement(shadow, mem, cs, t);
  }
}
