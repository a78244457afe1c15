/**
 What flat combining guarantees over whole runs, for any number of threads and any schedule.
 */
module CombiningTheorems {
  import opened Options
  import opened FlatCombining
  import opened CombiningLock
  import opened CombiningTasks
  import opened CombiningHistory
  import opened Pigeonhole

  // ---------------------------------------------------------------- exclusion

  /**
   Once a full scan has returned true for the lock holder, no thread is past its lockIsFree
   test until the lock is released, although reader flags may still go up and down.
   */
  lemma ReaderWriterExclusion(n: nat, app: App, ss: seq<State>, moves: seq<Move>, i: nat, h: nat, r: nat)
    requires IsRun(n, app, ss, moves) && i < |ss| && h < n && r < n
    ensures |ss[i].pc| == n
    ensures !(AfterScan(ss[i].pc[h]) && InRead(ss[i].pc[r]))
    ensures HoldsLock(ss[i].pc[h]) && HoldsLock(ss[i].pc[r]) ==> h == r
  {
    RunInv(n, app, ss, moves, i);
    var pc := ss[i].pc;
    if AfterScan(pc[h]) {
      assert Passed(pc[h], r);
    }
  }

  predicate AtCas(p: Pc) {
    p.RwCas? || p.MmapCas?
  }

  /** A thread comes to its compare-exchange only by a look at the lock that found it free. */
  lemma TestBeforeCas(n: nat, app: App, ss: seq<State>, moves: seq<Move>, i: nat, t: nat)
    requires IsRun(n, app, ss, moves) && i < |moves| && moves[i].t == t
    ensures t < |ss[i + 1].pc| && (AtCas(ss[i + 1].pc[t]) ==> ss[i].writers == 0)
  {
    assert Follows(n, app, ss[i], moves[i], ss[i + 1]);
    StepTests(n, app, ss[i], t, moves[i].act);
  }

  lemma StepTests(n: nat, app: App, s: State, t: nat, a: Act)
    requires Shaped(n, s) && t < n && Enabled(s, t, a)
    ensures t < |Step(n, app, s, t, a).pc| && (AtCas(Step(n, app, s, t, a).pc[t]) ==> s.writers == 0)
  {
    StepShapeEffect(n, app, s, t, a);
    if Collecting(s.pc[t]) || Executing(s.pc[t]) || Finishing(s.pc[t]) {
      HolderStays(n, app, s, t, a);
    }
  }

  lemma HolderStays(n: nat, app: App, s: State, t: nat, a: Act)
    requires Shaped(n, s) && t < n && Enabled(s, t, a) && (Collecting(s.pc[t]) || Executing(s.pc[t]) || Finishing(s.pc[t]))
    ensures t < |Step(n, app, s, t, a).pc| && !AtCas(Step(n, app, s, t, a).pc[t])
  {
    assert PcInRange(s.pc[t], n, s.batch[t]);
  }

  /** While a thread is reading, no other thread changes memory. */
  lemma ReaderMemoryStable(n: nat, app: App, ss: seq<State>, moves: seq<Move>, i: nat, r: nat)
    requires IsRun(n, app, ss, moves) && i < |moves| && r < n
    requires |ss[i].pc| == n && InRead(ss[i].pc[r])
    ensures ss[i + 1].mem == ss[i].mem && ss[i].pub == |ss[i].hist|
  {
    RunInv(n, app, ss, moves, i);
    ReaderSeesPublished(n, app, ss[i], r);
    var s, t := ss[i], moves[i].t;
    ReaderWriterExclusion(n, app, ss, moves, i, t, r);
    assert !s.pc[t].Exec?;
    MemoryChangesInExec(n, app, s, t, moves[i].act);
  }

  lemma MemoryChangesInExec(n: nat, app: App, s: State, t: nat, a: Act)
    requires Shaped(n, s) && t < n && Enabled(s, t, a) && !s.pc[t].Exec?
    ensures Step(n, app, s, t, a).mem == s.mem
  {}

  /**
   At most one thread is between loading the ring's shared head and tail and writing them back,
   over the combiner's final log, its own mmap logging and the transient mmap path.
   */
  lemma SingleProducer(n: nat, app: App, ss: seq<State>, moves: seq<Move>, i: nat, t: nat, u: nat)
    requires IsRun(n, app, ss, moves) && i < |ss| && t < n && u < n
    requires |ss[i].pc| == n && InSession(ss[i].pc[t]) && InSession(ss[i].pc[u])
    ensures t == u
  {
    RunInv(n, app, ss, moves, i);
    assert HoldsLock(ss[i].pc[t]) && HoldsLock(ss[i].pc[u]);
  }

  // ---------------------------------------------------------------- exactly once

  /** A STARTED slot has a live combiner, and it is in that combiner's batch. */
  lemma StartedHasCombiner(n: nat, app: App, ss: seq<State>, moves: seq<Move>, i: nat, t: nat) returns (h: nat, k: nat)
    requires IsRun(n, app, ss, moves) && i < |ss| && t < n
    requires |ss[i].task| == n && ss[i].task[t].ready == Started
    ensures |ss[i].pc| == |ss[i].batch| == n && h < n && k < |ss[i].batch[h]|
    ensures Collecting(ss[i].pc[h]) || Executing(ss[i].pc[h]) || ss[i].pc[h].Finish?
    ensures ss[i].batch[h][k] == t
  {
    RunInv(n, app, ss, moves, i);
    var s := ss[i];
    assert First(HolderPc(s), HolderBatch(s)) <= s.task[t].pos < |HolderBatch(s)|;
    h, k := s.holder.value, s.task[t].pos;
    assert HoldsLock(s.pc[h]);
  }

  lemma CollectedDistinct(p: Pc, b: seq<nat>, task: seq<Task>)
    requires BatchOk(p, b, task) && First(p, b) == 0
    ensures Distinct(b) && Below(b, |task|) && |b| <= |task|
    ensures p.Mark? && p.i < |task| && task[p.i].ready == ReadyToExecute ==> |b| < |task|
  {
    forall j, k | 0 <= j < k < |b| ensures b[j] != b[k] {
      assert BatchAt(b, task, j) && BatchAt(b, task, k);
    }
    forall j | 0 <= j < |b| ensures b[j] < |task| {
      assert BatchAt(b, task, j);
    }
    DistinctFits(b, |task|);
    if p.Mark? && p.i < |task| && task[p.i].ready == ReadyToExecute {
      forall j | 0 <= j < |b| ensures b[j] != p.i {
        assert BatchAt(b, task, j);
      }
      DistinctFits(b + [p.i], |task|);
    }
  }

  /** The combiner's index array holds distinct slots, so it never outgrows the number of threads. */
  lemma BatchFits(n: nat, app: App, ss: seq<State>, moves: seq<Move>, i: nat, h: nat)
    requires IsRun(n, app, ss, moves) && i < |ss| && h < n
    requires |ss[i].pc| == |ss[i].batch| == n && (Collecting(ss[i].pc[h]) || Executing(ss[i].pc[h]))
    ensures Distinct(ss[i].batch[h]) && Below(ss[i].batch[h], n) && |ss[i].batch[h]| <= n
    ensures ss[i].pc[h].Mark? ==> |ss[i].batch[h]| < n
  {
    RunInv(n, app, ss, moves, i);
    HolderBatchOk(n, ss[i], h);
    CollectedDistinct(ss[i].pc[h], ss[i].batch[h], ss[i].task);
  }

  lemma HolderBatchOk(n: nat, s: State, h: nat)
    requires TaskInv(n, s) && h < n && HoldsLock(s.pc[h])
    ensures BatchOk(s.pc[h], s.batch[h], s.task) && MarkOk(s.pc[h], s.task)
  {
    SlotOf(n, s, h);
  }

  /**
   The DONE a combiner writes goes to a slot that is STARTED and holds the very request this
   combiner executed; it cannot land on a newer one.
   */
  lemma DoneHitsItsRequest(n: nat, app: App, ss: seq<State>, moves: seq<Move>, i: nat, h: nat)
    requires IsRun(n, app, ss, moves) && i < |ss| && h < n
    requires |ss[i].pc| == |ss[i].batch| == |ss[i].task| == n
    requires ss[i].pc[h].Finish? && ss[i].pc[h].j < |ss[i].batch[h]| && ss[i].batch[h][ss[i].pc[h].j] < n
    ensures var x := ss[i].task[ss[i].batch[h][ss[i].pc[h].j]];
            && x.ready == Started && x.lin.Some? && x.lin.value < ss[i].pub <= |ss[i].hist|
            && ss[i].hist[x.lin.value] == Op(ss[i].batch[h][ss[i].pc[h].j], x.k, x.cmd)
  {
    RunInv(n, app, ss, moves, i);
    var s := ss[i];
    assert HoldsLock(s.pc[h]);
    var b := s.batch[h];
    var t := b[s.pc[h].j];
    assert BatchOk(s.pc[h], b, s.task);
    assert BatchAt(b, s.task, s.pc[h].j);
    assert RecordOk(app, s.task[t], t, s.pc[t], |b|, s.pub, s.hist);
  }

  /** No update is executed twice, and one that has returned was executed. */
  lemma ExactlyOnce(n: nat, app: App, ss: seq<State>, moves: seq<Move>, i: nat)
    requires IsRun(n, app, ss, moves) && i < |ss|
    ensures forall j, k | 0 <= j < k < |ss[i].hist| ::
              (ss[i].hist[j].t, ss[i].hist[j].k) != (ss[i].hist[k].t, ss[i].hist[k].k)
    ensures forall c | 0 <= c < |ss[i].completed| && ss[i].completed[c].update ::
              && ss[i].completed[c].lin < |ss[i].hist|
              && ss[i].hist[ss[i].completed[c].lin].t == ss[i].completed[c].t
              && ss[i].hist[ss[i].completed[c].lin].k == ss[i].completed[c].k
  {
    RunInv(n, app, ss, moves, i);
    forall c | 0 <= c < |ss[i].completed| && ss[i].completed[c].update
      ensures && ss[i].completed[c].lin < |ss[i].hist|
              && ss[i].hist[ss[i].completed[c].lin].t == ss[i].completed[c].t
              && ss[i].hist[ss[i].completed[c].lin].k == ss[i].completed[c].k
    {
      assert CompletedOk(app, ss[i].completed[c], ss[i].pub, ss[i].hist);
    }
  }

  // ---------------------------------------------------------------- linearizability and durability

  /**
   Every command that has returned took effect at one point of the history between its
   submission and its return, returned what that point explains, and that point was in the
   published log before the return.  Memory is what the history produces.
   */
  lemma LinearizableAndDurable(n: nat, app: App, ss: seq<State>, moves: seq<Move>, i: nat)
    requires IsRun(n, app, ss, moves) && i < |ss|
    ensures ss[i].mem == Fold(app, ss[i].hist)
    ensures AllCompletedOk(app, ss[i].completed, ss[i].pub, ss[i].hist)
  {
    RunInv(n, app, ss, moves, i);
  }

  /** Memory from update to update: each is executed on what the one before left. */
  ghost predicate Sequential(app: App, hist: seq<Op>, ms: seq<Mem>) {
    && |ms| == |hist| + 1 && ms[0] == app.init
    && forall k | 0 <= k < |hist| :: ms[k + 1] == app.exec(ms[k], hist[k].cmd).0
  }

  /** The command returned what the memory at its point of the history answers. */
  ghost predicate AnsweredBy(app: App, c: Completed, ms: seq<Mem>) {
    && c.lin < |ms|
    && c.resp == if c.update then app.exec(ms[c.lin], c.cmd).1 else app.query(ms[c.lin], c.cmd)
  }

  /**
   There is a sequential execution of the updates, one after the other from the initial memory, that
   ends in the present memory and gives every command that has returned its response.
   */
  lemma SequentialRun(n: nat, app: App, ss: seq<State>, moves: seq<Move>, i: nat) returns (ms: seq<Mem>)
    requires IsRun(n, app, ss, moves) && i < |ss|
    ensures Sequential(app, ss[i].hist, ms) && ms[|ss[i].hist|] == ss[i].mem
    ensures forall c | 0 <= c < |ss[i].completed| :: AnsweredBy(app, ss[i].completed[c], ms)
  {
    var s := ss[i];
    RunInv(n, app, ss, moves, i);
    ms := FoldRun(app, s.hist);
    assert s.hist[..|s.hist|] == s.hist;
    forall c | 0 <= c < |s.completed| ensures AnsweredBy(app, s.completed[c], ms) {
      assert CompletedOk(app, s.completed[c], s.pub, s.hist);
    }
  }

  lemma FoldRun(app: App, hist: seq<Op>) returns (ms: seq<Mem>)
    ensures Sequential(app, hist, ms) && forall k | 0 <= k <= |hist| :: ms[k] == Fold(app, hist[..k])
  {
    ms := seq(|hist| + 1, k requires 0 <= k <= |hist| => Fold(app, hist[..k]));
    forall k | 0 <= k < |hist| ensures ms[k + 1] == app.exec(ms[k], hist[k].cmd).0 {
      assert hist[..k + 1][..k] == hist[..k];
    }
  }

  /** `k` is a point of the history between two whole combiner batches. */
  ghost predicate BatchPoint(s: State, k: nat) {
    exists i :: 0 <= i < |s.marks| && s.marks[i] == k
  }

  ghost predicate MarksOk(s: State) {
    && BatchPoint(s, s.pub)
    && (forall t | 0 <= t < |s.pc| && s.pc[t].RoLeave? :: BatchPoint(s, s.pc[t].at))
    && (forall c | 0 <= c < |s.completed| && !s.completed[c].update :: BatchPoint(s, s.completed[c].lin))
  }

  /** Marks are only added; reads pick the current one. */
  ghost predicate MarkEffect(s: State, t: nat, s': State) {
    && s.hist <= s'.hist && s.completed <= s'.completed
    && t < |s.pc| && |s'.pc| == |s.pc| && s'.pc == s.pc[t := s'.pc[t]]
    && ((s'.marks == s.marks && s'.pub == s.pub) || s'.marks == s.marks + [s'.pub])
    && (s'.pc[t].RoLeave? ==> s.pc[t].RoRead? && s'.pc[t].at == |s.hist|)
    && (s'.completed == s.completed
        || (|s'.completed| == |s.completed| + 1 && s'.completed[..|s.completed|] == s.completed
            && (s'.completed[|s.completed|].update
                || (s.pc[t].RoLeave? && s'.completed[|s.completed|].lin == s.pc[t].at))))
  }

  lemma IdleMarks(n: nat, app: App, s: State, t: nat, a: Act)
    requires Sized(n, s) && t < n && s.pc[t].Idle? && !a.Go?
    ensures MarkEffect(s, t, StepIdle(s, t, a))
  {}

  lemma WaitingMarks(n: nat, app: App, s: State, t: nat, a: Act)
    requires Sized(n, s) && t < n && Waiting(s.pc[t])
    ensures MarkEffect(s, t, StepWaiting(s, t))
  {}

  lemma CollectingMarks(n: nat, app: App, s: State, t: nat, a: Act)
    requires Shaped(n, s) && t < n && Collecting(s.pc[t])
    ensures MarkEffect(s, t, StepCollecting(n, s, t))
  {}

  lemma ExecutingMarks(n: nat, app: App, s: State, t: nat, a: Act)
    requires Shaped(n, s) && t < n && Executing(s.pc[t])
    ensures MarkEffect(s, t, StepExecuting(n, app, s, t, a))
  {}

  lemma FinishingMarks(n: nat, app: App, s: State, t: nat, a: Act)
    requires Shaped(n, s) && t < n && Finishing(s.pc[t])
    ensures MarkEffect(s, t, StepFinishing(n, s, t))
  {}

  lemma ReadingMarks(n: nat, app: App, s: State, t: nat, a: Act)
    requires Sized(n, s) && t < n && Reading(s.pc[t])
    ensures MarkEffect(s, t, StepReading(app, s, t))
  {}

  lemma MappingMarks(n: nat, app: App, s: State, t: nat, a: Act)
    requires Sized(n, s) && t < n && Mapping(s.pc[t])
    ensures MarkEffect(s, t, StepMapping(s, t))
  {}

  lemma StepMarks(n: nat, app: App, s: State, t: nat, a: Act)
    requires Shaped(n, s) && t < n && Enabled(s, t, a)
    ensures MarkEffect(s, t, Step(n, app, s, t, a))
  {
    var p := s.pc[t];
    if p.Idle? {
      IdleMarks(n, app, s, t, a);
    } else if Waiting(p) {
      WaitingMarks(n, app, s, t, a);
    } else if Collecting(p) {
      CollectingMarks(n, app, s, t, a);
    } else if Executing(p) {
      ExecutingMarks(n, app, s, t, a);
    } else if Finishing(p) {
      FinishingMarks(n, app, s, t, a);
    } else if Reading(p) {
      ReadingMarks(n, app, s, t, a);
    } else {
      MappingMarks(n, app, s, t, a);
    }
  }

  lemma RunMarks(n: nat, app: App, ss: seq<State>, moves: seq<Move>, i: nat) returns (t: nat)
    requires IsRun(n, app, ss, moves) && i < |moves|
    ensures MarkEffect(ss[i], t, ss[i + 1])
    ensures ss[i].pc[t].RoRead? ==> ss[i].pub == |ss[i].hist|
  {
    t := moves[i].t;
    assert Follows(n, app, ss[i], moves[i], ss[i + 1]);
    StepMarks(n, app, ss[i], t, moves[i].act);
    RunInv(n, app, ss, moves, i);
    if ss[i].pc[t].RoRead? {
      ReaderSeesPublished(n, app, ss[i], t);
    }
  }

  lemma MarksKept(s: State, t: nat, s': State)
    requires MarksOk(s) && MarkEffect(s, t, s')
    requires s.pc[t].RoRead? ==> s.pub == |s.hist|
    ensures MarksOk(s')
  {
    forall k | BatchPoint(s, k) ensures BatchPoint(s', k) {
      var i :| 0 <= i < |s.marks| && s.marks[i] == k;
      assert s'.marks[i] == k;
    }
    assert BatchPoint(s', s'.pub) by {
      if s'.marks != s.marks {
        assert s'.marks[|s.marks|] == s'.pub;
      }
    }
    forall c | 0 <= c < |s'.completed| && !s'.completed[c].update ensures BatchPoint(s', s'.completed[c].lin) {
      if c < |s.completed| {
        assert s'.completed[c] == s.completed[c];
      }
    }
  }

  /** Every read-only command saw the application between two whole combiner batches. */
  lemma {:induction false} ReadsSeeWholeBatches(n: nat, app: App, ss: seq<State>, moves: seq<Move>, i: nat)
    requires IsRun(n, app, ss, moves) && i < |ss|
    ensures MarksOk(ss[i])
  {
    if i == 0 {
      MarksAtFirst(n, app, ss[0]);
    } else {
      ReadsSeeWholeBatches(n, app, ss, moves, i - 1);
      var t := RunMarks(n, app, ss, moves, i - 1);
      MarksKept(ss[i - 1], t, ss[i]);
    }
  }

  lemma MarksAtFirst(n: nat, app: App, s: State)
    requires Init(n, app, s)
    ensures MarksOk(s)
  {
    assert s.marks[0] == 0;
  }

  /** A command that returned with no more history than another was submitted with comes first. */
  lemma PointsInOrder(n: nat, app: App, ss: seq<State>, moves: seq<Move>, i: nat, a: nat, b: nat)
    requires IsRun(n, app, ss, moves) && i < |ss|
    requires a < |ss[i].completed| && b < |ss[i].completed|
    requires ss[i].completed[a].retAt <= ss[i].completed[b].subAt
    ensures ss[i].completed[a].lin <= ss[i].completed[b].lin
    ensures ss[i].completed[a].update ==> ss[i].completed[a].lin < ss[i].completed[b].lin
  {
    RunInv(n, app, ss, moves, i);
    assert CompletedOk(app, ss[i].completed[a], ss[i].pub, ss[i].hist);
    assert CompletedOk(app, ss[i].completed[b], ss[i].pub, ss[i].hist);
  }

  /** The history only grows, so the point a command took effect at never changes. */
  lemma {:induction false} HistoryGrows(n: nat, app: App, ss: seq<State>, moves: seq<Move>, i: nat, j: nat)
    requires IsRun(n, app, ss, moves) && i <= j < |ss|
    ensures ss[i].hist <= ss[j].hist && ss[i].completed <= ss[j].completed
    decreases j - i
  {
    if i < j {
      HistoryGrows(n, app, ss, moves, i, j - 1);
      var _ := RunMarks(n, app, ss, moves, j - 1);
    }
  }
}
