/**
 What a crash leaves of the history that flat combining produced, at any point of any joint run.
 */
module DurabilityTheorems {
  import opened RedoLog
  import opened Collection
  import opened Atomicity
  import opened Stops
  import FC = FlatCombining
  import CT = CombiningTasks
  import CH = CombiningHistory
  import opened CombiningStages
  import R = Ring
  import RingSlots
  import RI = RingInvariant
  import RR = RingRuns
  import opened RingTheorems
  import opened RingCommits
  import opened EndToEnd
  import opened Durability

  lemma ReachedRecovers(n: nat, base: Image, r: R.State)
    requires RR.Reached(n, base, r)
    ensures Recovers(n, r, base + Delta(Published(r)))
  {
    var rs, acts :| R.IsRun(n, base, rs, acts) && R.AllRefreshesFresh(n, rs, acts) && rs[|acts|] == r;
    RecoversPublished(n, base, rs, acts, |acts|);
  }

  /** The combiner is publishing its batch. */
  ghost predicate InStop(s: State) {
    CT.HolderPc(s.fc).StopPublish?
  }

  /** Memory before and after the batch that is being published. */
  function Before(sys: System, s: State): Image {
    Shadow(sys, s.fc)
  }

  function After(sys: System, s: State): Image {
    sys.bytes(s.fc.mem)
  }

  /** At most one of the memcpys and the table of the batch brings bytes that are out of date. */
  ghost predicate OneMatters(sys: System, s: State) {
    && Before(sys, s).Keys == After(sys, s).Keys
    && AtMostOneMatters(Before(sys, s), After(sys, s), s.copies, s.table)
  }

  /**
   Recovery gives memory after the first `k` updates of the history; every update that has returned
   is one of them, and what it returned is what the history explains.
   */
  ghost predicate KeepsAcknowledged(sys: System, s: State, k: nat) {
    && s.fc.pub <= k <= |s.fc.hist|
    && Recovers(sys.n, s.ring, BytesAfter(sys, s.fc.hist, k))
    && (forall c | 0 <= c < |s.fc.completed| && s.fc.completed[c].update :: s.fc.completed[c].lin < k)
    && CH.AllCompletedOk(sys.app, s.fc.completed, k, s.fc.hist)
  }

  lemma CompletedBelow(sys: System, s: State, k: nat)
    requires CH.Inv(sys.threads, sys.app, s.fc) && s.fc.pub <= k <= |s.fc.hist|
    ensures forall c | 0 <= c < |s.fc.completed| && s.fc.completed[c].update :: s.fc.completed[c].lin < k
    ensures CH.AllCompletedOk(sys.app, s.fc.completed, k, s.fc.hist)
  {
    assert CH.AllCompletedOk(sys.app, s.fc.completed, s.fc.pub, s.fc.hist);
    forall c | 0 <= c < |s.fc.completed|
      ensures CH.CompletedOk(sys.app, s.fc.completed[c], k, s.fc.hist)
      ensures s.fc.completed[c].update ==> s.fc.completed[c].lin < k
    {
      assert CH.CompletedOk(sys.app, s.fc.completed[c], s.fc.pub, s.fc.hist);
    }
  }

  lemma HistoryFacts(sys: System, s: State)
    requires CH.Inv(sys.threads, sys.app, s.fc)
    ensures s.fc.pub <= |s.fc.hist| && s.fc.mem == FC.Fold(sys.app, s.fc.hist)
    ensures Before(sys, s) == BytesAfter(sys, s.fc.hist, s.fc.pub)
    ensures After(sys, s) == BytesAfter(sys, s.fc.hist, |s.fc.hist|)
  {
    assert s.fc.hist[..|s.fc.hist|] == s.fc.hist;
  }

  /** Inside instrument_stop recovery gives the memory before it, with some of its batches applied. */
  lemma CrashInStop(sys: System, s: State, bs: seq<seq<Entry>>) returns (k: nat)
    requires Inv(sys, s) && InStop(s) && AreBatches(bs) && Flatten(bs) == ToLog(sys, s)
    ensures k <= |bs| && Recovers(sys.n, s.ring, ImageAfter(Before(sys, s), bs, k))
  {
    RR.ReachedInv(sys.n, sys.base, s.ring);
    k := PublishedSoFar(sys.n, s.ring, s.before, After(sys, s), s.copies, s.table, bs);
    ReachedRecovers(sys.n, sys.base, s.ring);
    ImageOfPrefix(sys.base, s.before, bs, k);
  }

  /** If at most one part of the batch matters, all of it is recovered or nothing. */
  lemma WholeStop(sys: System, s: State)
    requires Inv(sys, s) && InStop(s) && OneMatters(sys, s)
    ensures Recovers(sys.n, s.ring, Before(sys, s)) || Recovers(sys.n, s.ring, After(sys, s))
  {
    var shadow, mem := Before(sys, s), After(sys, s);
    var bs := StopAtomicIff(shadow, mem, s.copies, s.table);
    EndsOfStop(shadow, mem, s.copies, s.table, bs);
    var k := CrashInStop(sys, s, bs);
  }

  /**
   A crash at any point of any joint run: the recovered memory is what a prefix of the history makes,
   a prefix that holds every update that has returned and every one acknowledged since; while the
   combiner is publishing, provided at most one part of its batch matters.
   */
  lemma DurablyLinearizable(sys: System, ss: seq<State>, moves: seq<Move>, i: nat) returns (k: nat)
    requires IsRun(sys, ss, moves) && i < |ss|
    requires InStop(ss[i]) ==> OneMatters(sys, ss[i])
    ensures KeepsAcknowledged(sys, ss[i], k)
  {
    var s := ss[i];
    RunInv(sys, ss, moves, i);
    HistoryFacts(sys, s);
    k := s.fc.pub;
    if InStop(s) {
      WholeStop(sys, s);
      if !Recovers(sys.n, s.ring, Before(sys, s)) {
        k := |s.fc.hist|;
      }
    } else {
      ReachedRecovers(sys.n, sys.base, s.ring);
    }
    CompletedBelow(sys, s, k);
  }

  /** While something is left to log and there is room, the next entry can be written. */
  lemma StopGoesOn(sys: System, s: State) returns (a: R.Step, s': State)
    requires Inv(sys, s) && InStop(s) && s.ring.producer.Working? && s.ring.h.log != s.before + ToLog(sys, s)
    requires R.Shaped(sys.n, s.ring) && RingSlots.Next(sys.n, s.ring.localTail) != s.ring.localHead
    ensures Follows(sys, s, Ring(a), s') && InStop(s')
    ensures s.ring.h.log < s'.ring.h.log <= s'.before + ToLog(sys, s')
  {
    var e := NextEntry(s.ring.h.log, s.before + ToLog(sys, s));
    var r;
    a, r := AppendStep(sys.n, s.ring, e);
    s' := s.(ring := r);
  }

  lemma NextEntry(log: seq<Entry>, all: seq<Entry>) returns (e: Entry)
    requires log <= all && log != all
    ensures log + [e] <= all
  {
    e := all[|log|];
  }

  lemma AppendStep(n: nat, r: R.State, e: Entry) returns (a: R.Step, r': R.State)
    requires R.Shaped(n, r) && r.producer.Working? && RingSlots.Next(n, r.localTail) != r.localHead
    ensures a == if e.Redo? then R.Enqueue(e.addr, e.payload) else R.CommitEntry
    ensures R.Follows(n, r, a, r') && r'.h.log == r.h.log + [e]
  {
    a := if e.Redo? then R.Enqueue(e.addr, e.payload) else R.CommitEntry;
    r' := R.Do(n, r, a);
  }

  // ---------------------------------------------------------------- over a whole batch

  /** From state `i`, where nothing of it is published, to state `j`, where all is, one batch is published. */
  ghost predicate StopSpan(sys: System, ss: seq<State>, i: nat, j: nat) {
    && i <= j < |ss| && (forall m | i <= m <= j :: InStop(ss[m]))
    && Published(ss[i].ring) == ss[i].before
    && Published(ss[j].ring) == ss[j].before + ToLog(sys, ss[j])
  }

  /** Nothing but the ring changes meanwhile. */
  ghost predicate SameStop(s: State, s': State) {
    && s'.fc.hist == s.fc.hist && s'.fc.mem == s.fc.mem && s'.fc.pub == s.fc.pub
    && s'.before == s.before && s'.copies == s.copies && s'.table == s.table
  }

  lemma StepInStop(sys: System, s: State, m: Move, s': State)
    requires Inv(sys, s) && Follows(sys, s, m, s') && InStop(s) && InStop(s')
    ensures SameStop(s, s') && GrowsByBatch(Published(s.ring), Published(s'.ring))
  {
    if m.Thread? {
      StepHolder(sys.threads, sys.app, s.fc, m.t, m.act);
    } else {
      StepPublishes(sys.n, sys.base, s.ring, m.step, s'.ring);
    }
  }

  lemma RunInStop(sys: System, ss: seq<State>, moves: seq<Move>, m: nat)
    requires IsRun(sys, ss, moves) && m < |moves| && InStop(ss[m]) && InStop(ss[m + 1])
    ensures SameStop(ss[m], ss[m + 1]) && GrowsByBatch(Published(ss[m].ring), Published(ss[m + 1].ring))
  {
    RunInv(sys, ss, moves, m);
    assert Follows(sys, ss[m], moves[m], ss[m + 1]);
    StepInStop(sys, ss[m], moves[m], ss[m + 1]);
  }

  lemma {:induction false} StopStays(sys: System, ss: seq<State>, moves: seq<Move>, i: nat, m: nat)
    requires IsRun(sys, ss, moves) && i <= m < |ss| && forall x | i <= x <= m :: InStop(ss[x])
    ensures SameStop(ss[i], ss[m])
    decreases m - i
  {
    if i < m {
      StopStays(sys, ss, moves, i, m - 1);
      RunInStop(sys, ss, moves, m - 1);
    }
  }

  /** The published log of each state. */
  ghost function Logs(ss: seq<State>): (ps: seq<seq<Entry>>)
    ensures |ps| == |ss| && forall x | 0 <= x < |ss| :: ps[x] == Published(ss[x].ring)
  {
    seq(|ss|, x requires 0 <= x < |ss| => Published(ss[x].ring))
  }

  lemma LogsGrow(sys: System, ss: seq<State>, moves: seq<Move>, i: nat, j: nat, x: nat)
    requires IsRun(sys, ss, moves) && StopSpan(sys, ss, i, j) && i <= x < j
    ensures GrowsAt(Logs(ss), x)
  {
    InSpan(sys, ss, i, j, x);
    InSpan(sys, ss, i, j, x + 1);
    RunInStop(sys, ss, moves, x);
  }

  lemma InSpan(sys: System, ss: seq<State>, i: nat, j: nat, x: nat)
    requires StopSpan(sys, ss, i, j) && i <= x <= j
    ensures InStop(ss[x])
  {}

  /** Every boundary of what is published meanwhile is where the published log ends at some point. */
  lemma EveryPoint(sys: System, ss: seq<State>, moves: seq<Move>, i: nat, j: nat, q: nat) returns (m: nat)
    requires IsRun(sys, ss, moves) && StopSpan(sys, ss, i, j)
    requires |Published(ss[i].ring)| <= q <= |Published(ss[j].ring)| && Boundary(Published(ss[j].ring), q)
    ensures i <= m <= j && Published(ss[m].ring) == Published(ss[j].ring)[..q]
  {
    forall x | i <= x < j ensures GrowsAt(Logs(ss), x) {
      LogsGrow(sys, ss, moves, i, j, x);
    }
    m := EveryBoundary(Logs(ss), i, j, q);
  }

  /** Each number of its batches is what recovery finds at some point. */
  lemma EveryBatchRecovered(sys: System, ss: seq<State>, moves: seq<Move>, i: nat, j: nat, bs: seq<seq<Entry>>, k: nat)
    returns (m: nat)
    requires IsRun(sys, ss, moves) && StopSpan(sys, ss, i, j)
    requires AreBatches(bs) && Flatten(bs) == ToLog(sys, ss[i]) && k <= |bs|
    ensures i <= m <= j && Recovers(sys.n, ss[m].ring, ImageAfter(Before(sys, ss[i]), bs, k))
  {
    var q := BatchEnd(sys, ss, moves, i, j, bs, k);
    m := EveryPoint(sys, ss, moves, i, j, q);
    StopFacts(sys, ss, moves, i);
    StopFacts(sys, ss, moves, m);
    RecoversPrefix(sys, ss[i], ss[m].ring, bs, k);
  }

  lemma SpanPublishes(sys: System, ss: seq<State>, moves: seq<Move>, i: nat, j: nat)
    requires IsRun(sys, ss, moves) && StopSpan(sys, ss, i, j)
    ensures InStop(ss[i]) && Published(ss[i].ring) == ss[i].before
    ensures Published(ss[j].ring) == ss[i].before + ToLog(sys, ss[i])
  {
    StopStays(sys, ss, moves, i, j);
  }

  lemma BeforeIsBoundary(sys: System, ss: seq<State>, moves: seq<Move>, i: nat)
    requires IsRun(sys, ss, moves) && i < |ss| && InStop(ss[i]) && Published(ss[i].ring) == ss[i].before
    ensures Boundary(ss[i].before, |ss[i].before|)
  {
    StopFacts(sys, ss, moves, i);
    PublishedBoundary(sys.n, sys.base, ss[i].ring);
  }

  /** Where the first `k` batches end in the published log. */
  lemma BatchEnd(sys: System, ss: seq<State>, moves: seq<Move>, i: nat, j: nat, bs: seq<seq<Entry>>, k: nat)
    returns (q: nat)
    requires IsRun(sys, ss, moves) && StopSpan(sys, ss, i, j)
    requires AreBatches(bs) && Flatten(bs) == ToLog(sys, ss[i]) && k <= |bs|
    ensures |Published(ss[i].ring)| <= q <= |Published(ss[j].ring)| && Boundary(Published(ss[j].ring), q)
    ensures Published(ss[j].ring)[..q] == ss[i].before + Flatten(bs[..k])
  {
    SpanPublishes(sys, ss, moves, i, j);
    BeforeIsBoundary(sys, ss, moves, i);
    q := BatchIn(ss[i].before, Published(ss[j].ring), bs, k);
  }

  lemma BatchIn(before: seq<Entry>, full: seq<Entry>, bs: seq<seq<Entry>>, k: nat) returns (q: nat)
    requires Boundary(before, |before|) && AreBatches(bs) && k <= |bs| && full == before + Flatten(bs)
    ensures |before| <= q <= |full| && Boundary(full, q) && full[..q] == before + Flatten(bs[..k])
  {
    BatchIsBoundary(before, bs, k);
    q := |before| + |Flatten(bs[..k])|;
  }

  lemma StopFacts(sys: System, ss: seq<State>, moves: seq<Move>, i: nat)
    requires IsRun(sys, ss, moves) && i < |ss| && InStop(ss[i])
    ensures RR.Reached(sys.n, sys.base, ss[i].ring)
    ensures sys.base + Delta(ss[i].before) == Before(sys, ss[i])
    ensures Recorded(Before(sys, ss[i]), After(sys, ss[i]), ss[i].copies, ss[i].table)
  {
    RunInv(sys, ss, moves, i);
  }

  lemma PublishedBoundary(n: nat, base: Image, r: R.State)
    requires RR.Reached(n, base, r)
    ensures Boundary(Published(r), |Published(r)|)
  {
    RR.ReachedInv(n, base, r);
    BoundaryOfLog(r);
  }

  lemma BoundaryOfLog(r: R.State)
    requires RI.InBatches(r) && r.h.pub <= |r.h.log|
    ensures Boundary(Published(r), |Published(r)|)
  {}

  lemma RecoversPrefix(sys: System, s: State, r: R.State, bs: seq<seq<Entry>>, k: nat)
    requires RR.Reached(sys.n, sys.base, r) && k <= |bs|
    requires sys.base + Delta(s.before) == Before(sys, s)
    requires Published(r) == s.before + Flatten(bs[..k])
    ensures Recovers(sys.n, r, ImageAfter(Before(sys, s), bs, k))
  {
    ReachedRecovers(sys.n, sys.base, r);
    ImageOfPrefix(sys.base, s.before, bs, k);
  }

  /** What recovery gives from each state of the span is memory before the batch or after it. */
  ghost predicate NeverTorn(sys: System, ss: seq<State>, i: nat, j: nat)
    requires i <= j < |ss|
  {
    forall m | i <= m <= j ::
      Recovers(sys.n, ss[m].ring, Before(sys, ss[i])) || Recovers(sys.n, ss[m].ring, After(sys, ss[i]))
  }

  /**
   Every crash while a batch is published recovers all of the batch or nothing of it, if and only if
   at most one of its memcpys and the table brings bytes that are out of date.
   */
  lemma BatchAtomicIff(sys: System, ss: seq<State>, moves: seq<Move>, i: nat, j: nat)
    requires IsRun(sys, ss, moves) && StopSpan(sys, ss, i, j)
    ensures NeverTorn(sys, ss, i, j) <==> OneMatters(sys, ss[i])
  {
    if OneMatters(sys, ss[i]) {
      WholeThroughout(sys, ss, moves, i, j);
    }
    if NeverTorn(sys, ss, i, j) {
      TornIfTwoMatter(sys, ss, moves, i, j);
    }
  }

  lemma WholeThroughout(sys: System, ss: seq<State>, moves: seq<Move>, i: nat, j: nat)
    requires IsRun(sys, ss, moves) && StopSpan(sys, ss, i, j) && OneMatters(sys, ss[i])
    ensures NeverTorn(sys, ss, i, j)
  {
    forall m | i <= m <= j
      ensures Recovers(sys.n, ss[m].ring, Before(sys, ss[i])) || Recovers(sys.n, ss[m].ring, After(sys, ss[i]))
    {
      WholeAt(sys, ss, moves, i, j, m);
    }
  }

  lemma WholeAt(sys: System, ss: seq<State>, moves: seq<Move>, i: nat, j: nat, m: nat)
    requires IsRun(sys, ss, moves) && StopSpan(sys, ss, i, j) && OneMatters(sys, ss[i]) && i <= m <= j
    ensures Recovers(sys.n, ss[m].ring, Before(sys, ss[i])) || Recovers(sys.n, ss[m].ring, After(sys, ss[i]))
  {
    StopStays(sys, ss, moves, i, m);
    RunInv(sys, ss, moves, m);
    WholeStop(sys, ss[m]);
  }

  lemma TornIfTwoMatter(sys: System, ss: seq<State>, moves: seq<Move>, i: nat, j: nat)
    requires IsRun(sys, ss, moves) && StopSpan(sys, ss, i, j) && NeverTorn(sys, ss, i, j)
    ensures OneMatters(sys, ss[i])
  {
    StopFacts(sys, ss, moves, i);
    var shadow, mem := Before(sys, ss[i]), After(sys, ss[i]);
    var bs := StopAtomicIff(shadow, mem, ss[i].copies, ss[i].table);
    EndsOfStop(shadow, mem, ss[i].copies, ss[i].table, bs);
    forall k | 0 <= k <= |bs| ensures ImageAfter(shadow, bs, k) == shadow || ImageAfter(shadow, bs, k) == mem {
      var m := EveryBatchRecovered(sys, ss, moves, i, j, bs, k);
      OneRecovery(sys.n, ss[m].ring, ImageAfter(shadow, bs, k), shadow);
      OneRecovery(sys.n, ss[m].ring, ImageAfter(shadow, bs, k), mem);
    }
  }
}
