/**
 The published log grows by one batch at a time, so every batch boundary in it is a point at which a
 crash can find it.
 */
module RingCommits {
  import opened RedoLog
  import opened RingSlots
  import opened Ring
  import opened RingInvariant
  import opened RingTheorems
  import opened RingRuns

  /** What is enqueued and not published is REDO entries, and a COMMIT at the end once it is written. */
  ghost predicate OpenBatch(s: State) {
    && s.h.pub <= |s.h.log|
    && (s.producer == Publishing ==> s.h.pub < |s.h.log|)
    && AllRedo(s.h.log, s.h.pub, |s.h.log| - (if s.producer == Publishing then 1 else 0))
  }

  lemma EnqueueOpen(n: nat, s: State, a: Step)
    requires Shaped(n, s) && OpenBatch(s) && a.Enqueue? && Enabled(n, s, a)
    ensures OpenBatch(Do(n, s, a))
  {}

  lemma CommitEntryOpen(n: nat, s: State)
    requires Shaped(n, s) && OpenBatch(s) && Enabled(n, s, CommitEntry)
    ensures OpenBatch(Do(n, s, CommitEntry))
  {}

  lemma PublishOpen(n: nat, s: State)
    requires Shaped(n, s) && Enabled(n, s, Publish)
    ensures OpenBatch(Do(n, s, Publish))
  {}

  lemma ProducerOpen(n: nat, s: State, a: Step)
    requires Shaped(n, s) && OpenBatch(s) && Enabled(n, s, a) && OfProducer(a)
    ensures OpenBatch(Do(n, s, a))
  {
    if a.Enqueue? {
      EnqueueOpen(n, s, a);
    } else if a.CommitEntry? {
      CommitEntryOpen(n, s);
    } else if a.Publish? {
      PublishOpen(n, s);
    }
  }

  lemma ConsumerOpen(n: nat, s: State, a: Step)
    requires Shaped(n, s) && OpenBatch(s) && Enabled(n, s, a) && !OfProducer(a)
    ensures OpenBatch(Do(n, s, a))
  {}

  lemma LinkOpen(n: nat, ss: seq<State>, acts: seq<Step>, i: nat)
    requires Linked(n, ss, acts) && i < |acts| && OpenBatch(ss[i])
    ensures OpenBatch(ss[i + 1])
  {
    assert Follows(n, ss[i], acts[i], ss[i + 1]);
    if OfProducer(acts[i]) {
      ProducerOpen(n, ss[i], acts[i]);
    } else {
      ConsumerOpen(n, ss[i], acts[i]);
    }
  }

  lemma {:induction false} RunOpen(n: nat, base: Image, ss: seq<State>, acts: seq<Step>, i: nat)
    requires IsRun(n, base, ss, acts) && i < |ss|
    ensures OpenBatch(ss[i])
  {
    if i > 0 {
      RunOpen(n, base, ss, acts, i - 1);
      LinkOpen(n, ss, acts, i - 1);
    }
  }

  /** One step publishes nothing, or everything enqueued. */
  lemma ProducerPublishes(n: nat, s: State, a: Step)
    requires Shaped(n, s) && Enabled(n, s, a) && OfProducer(a)
    ensures Do(n, s, a).h.pub == s.h.pub
         || (s.producer == Publishing && Do(n, s, a).h.log == s.h.log && Do(n, s, a).h.pub == |s.h.log|)
  {}

  lemma ConsumerPublishes(n: nat, s: State, a: Step)
    requires Shaped(n, s) && Enabled(n, s, a) && !OfProducer(a)
    ensures Do(n, s, a).h.pub == s.h.pub
  {}

  /** From `x` to `y` no batch or one whole batch is added. */
  ghost predicate GrowsByBatch(x: seq<Entry>, y: seq<Entry>) {
    x <= y && forall q | |x| < q < |y| :: !Boundary(y, q)
  }

  /** A step publishes no batch or one. */
  lemma StepPublishes(n: nat, base: Image, s: State, a: Step, s': State)
    requires Reached(n, base, s) && Follows(n, s, a, s') && FreshRefresh(n, s, a)
    ensures GrowsByBatch(Published(s), Published(s'))
  {
    ReachedInv(n, base, s);
    ReachedOpen(n, base, s);
    PublishedGrows(n, s, a);
    if OfProducer(a) {
      ProducerPublishes(n, s, a);
    } else {
      ConsumerPublishes(n, s, a);
    }
    PublishedInOne(s, s');
  }

  lemma PublishedInOne(s: State, s': State)
    requires OpenBatch(s) && Published(s) <= Published(s') && s'.h.pub <= |s'.h.log|
    requires s'.h.pub == s.h.pub || (s.producer == Publishing && s'.h.log == s.h.log && s'.h.pub == |s.h.log|)
    ensures GrowsByBatch(Published(s), Published(s'))
  {}

  lemma ReachedOpen(n: nat, base: Image, s: State)
    requires Reached(n, base, s)
    ensures OpenBatch(s)
  {
    var ss, acts :| IsRun(n, base, ss, acts) && AllRefreshesFresh(n, ss, acts) && ss[|acts|] == s;
    RunOpen(n, base, ss, acts, |acts|);
  }

  ghost predicate GrowsAt(ps: seq<seq<Entry>>, k: nat) {
    k + 1 < |ps| && GrowsByBatch(ps[k], ps[k + 1])
  }

  /**
   In a log that grows batch by batch, every prefix that ends on a batch boundary, and is no shorter
   than the log was at first, is what the log was at some point.
   */
  lemma {:induction false} EveryBoundary(ps: seq<seq<Entry>>, i: nat, j: nat, q: nat) returns (m: nat)
    requires i <= j < |ps| && forall k | i <= k < j :: GrowsAt(ps, k)
    requires |ps[i]| <= q <= |ps[j]| && Boundary(ps[j], q)
    ensures i <= m <= j && ps[m] == ps[j][..q]
    decreases j - i
  {
    if q == |ps[j]| {
      m := j;
    } else if i == j {
      m := i;
    } else {
      assert GrowsAt(ps, j - 1);
      if q <= |ps[j - 1]| {
        assert Boundary(ps[j - 1], q);
        m := EveryBoundary(ps, i, j - 1, q);
      } else {
        assert false;
      }
    }
  }

  /** So it is with the published log of a run. */
  lemma EveryCommitPoint(n: nat, base: Image, ss: seq<State>, acts: seq<Step>, i: nat, j: nat, q: nat)
    returns (m: nat)
    requires IsRun(n, base, ss, acts) && AllRefreshesFresh(n, ss, acts) && i <= j < |ss|
    requires |Published(ss[i])| <= q <= |Published(ss[j])| && Boundary(Published(ss[j]), q)
    ensures i <= m <= j && Published(ss[m]) == Published(ss[j])[..q]
  {
    var ps := seq(|ss|, k requires 0 <= k < |ss| => Published(ss[k]));
    forall k | i <= k < j ensures GrowsAt(ps, k) {
      RunReaches(n, base, ss, acts, k);
      assert Follows(n, ss[k], acts[k], ss[k + 1]) && FreshRefresh(n, ss[k], acts[k]);
      StepPublishes(n, base, ss[k], acts[k], ss[k + 1]);
    }
    m := EveryBoundary(ps, i, j, q);
  }

  lemma RunReaches(n: nat, base: Image, ss: seq<State>, acts: seq<Step>, k: nat)
    requires IsRun(n, base, ss, acts) && AllRefreshesFresh(n, ss, acts) && k < |ss|
    ensures Reached(n, base, ss[k])
  {
    assert IsRun(n, base, ss[..k + 1], acts[..k]) && AllRefreshesFresh(n, ss[..k + 1], acts[..k]);
  }
}
