/**
 Writer preference: while a combiner waits for the readers to drain, the readers can only take
 a bounded number of steps before every flag is down.
 */
module CombiningDrain {
  import opened Options
  import opened FlatCombining
  import opened CombiningLock
  import opened CombiningTasks
  import opened CombiningHistory

  /**
   How many more steps a thread at `p` can take, spinning apart, while the writer word stays
   set: a reader inside finishes, may come back once, finds the lock taken and parks.
   */
  function Rank(p: Pc, done: bool): nat {
    match p
    case RoRead => 7
    case RoLeave(_) => 6
    case Idle => 5
    case RoMark => 4
    case RoTest => 3
    case RoUnmark => 2
    case RwTestFree => if done then 12 else 0
    case RwCas => if done then 11 else 0
    case RwLoop => if done then 10 else 0
    case RwTestDone => if done then 9 else 0
    case RwAwaitDone => if done then 9 else 0
    case RwFinish => 8
    case _ => 0
  }

  function Sum(ranks: seq<nat>): nat {
    if ranks == [] then 0 else ranks[0] + Sum(ranks[1..])
  }

  function Ranks(pc: seq<Pc>, task: seq<Task>): seq<nat>
    requires |pc| == |task|
  {
    seq(|pc|, t requires 0 <= t < |pc| => Rank(pc[t], task[t].ready == Done))
  }

  /** The measure of a state: what all threads together can still do before they park. */
  function Measure(s: State): nat
    requires |s.pc| == |s.task|
  {
    Sum(Ranks(s.pc, s.task))
  }

  lemma {:induction false} SumUpdate(r: seq<nat>, t: nat, x: nat)
    requires t < |r|
    ensures Sum(r[t := x]) + r[t] == Sum(r) + x
  {
    if t == 0 {
      assert r[t := x][1..] == r[1..];
    } else {
      assert r[t := x][1..] == r[1..][t - 1 := x];
      SumUpdate(r[1..], t - 1, x);
    }
  }

  /** A reader step other than waiting for the lock to be free. */
  predicate ReaderProgress(p: Pc) {
    Reading(p) && !p.RoSpin?
  }

  /** The holder is still collecting requests and waiting for readers. */
  ghost predicate Draining(s: State) {
    Collecting(HolderPc(s))
  }

  /** The ranks after one step: only the moving thread's rank changes, and it does not grow. */
  ghost predicate RankEffect(s: State, t: nat, s': State) {
    && |s.pc| == |s.task| == |s'.pc| == |s'.task| && t < |s.pc|
    && s'.pc == s.pc[t := s'.pc[t]]
    && (forall i | 0 <= i < |s.task| && i != t :: s'.task[i].ready == Done <==> s.task[i].ready == Done)
    && Rank(s'.pc[t], s'.task[t].ready == Done) <= Rank(s.pc[t], s.task[t].ready == Done)
    && (ReaderProgress(s.pc[t]) ==>
          Rank(s'.pc[t], s'.task[t].ready == Done) < Rank(s.pc[t], s.task[t].ready == Done))
  }

  lemma IdleRank(n: nat, app: App, s: State, t: nat, a: Act)
    requires Sized(n, s) && t < n && s.pc[t].Idle? && !a.Go?
    ensures RankEffect(s, t, StepIdle(s, t, a))
  {}

  lemma WaitingRank(n: nat, app: App, s: State, t: nat, a: Act)
    requires Sized(n, s) && s.writers == 1 && t < n && Waiting(s.pc[t]) && SlotOk(s.pc[t], s.task[t].ready, t)
    ensures RankEffect(s, t, StepWaiting(s, t))
  {}

  lemma CollectingRank(n: nat, app: App, s: State, t: nat, a: Act)
    requires Shaped(n, s) && t < n && Collecting(s.pc[t]) && MarkOk(s.pc[t], s.task)
    ensures RankEffect(s, t, StepCollecting(n, s, t))
  {
    assert PcInRange(s.pc[t], n, s.batch[t]);
  }

  lemma ReadingRank(n: nat, app: App, s: State, t: nat, a: Act)
    requires Sized(n, s) && s.writers == 1 && t < n && Reading(s.pc[t])
    ensures RankEffect(s, t, StepReading(app, s, t))
  {}

  lemma MappingRank(n: nat, app: App, s: State, t: nat, a: Act)
    requires Sized(n, s) && s.writers == 1 && t < n && Mapping(s.pc[t]) && !HoldsLock(s.pc[t])
    ensures RankEffect(s, t, StepMapping(s, t))
  {}

  lemma StepRank(n: nat, app: App, s: State, t: nat, a: Act)
    requires TaskInv(n, s) && Draining(s) && t < n && Enabled(s, t, a)
    ensures RankEffect(s, t, Step(n, app, s, t, a))
  {
    var p := s.pc[t];
    assert s.holder.Some? && s.writers == 1;
    SlotOf(n, s, t);
    if p.Idle? {
      IdleRank(n, app, s, t, a);
    } else if Waiting(p) {
      WaitingRank(n, app, s, t, a);
    } else if Reading(p) {
      ReadingRank(n, app, s, t, a);
    } else if HoldsLock(p) {
      assert s.holder == Some(t);
      CollectingRank(n, app, s, t, a);
    } else {
      MappingRank(n, app, s, t, a);
    }
  }

  lemma MeasureStep(s: State, t: nat, s': State)
    requires RankEffect(s, t, s')
    ensures Measure(s') <= Measure(s)
    ensures ReaderProgress(s.pc[t]) ==> Measure(s') < Measure(s)
  {
    var x := Rank(s'.pc[t], s'.task[t].ready == Done);
    var r, r' := Ranks(s.pc, s.task), Ranks(s'.pc, s'.task);
    assert r' == r[t := x];
    SumUpdate(r, t, x);
  }

  /** Whether move `k` is a reader step other than spinning. */
  ghost function ReaderStep(ss: seq<State>, moves: seq<Move>, k: nat): nat
    requires k < |moves| <= |ss|
  {
    if moves[k].t < |ss[k].pc| && ReaderProgress(ss[k].pc[moves[k].t]) then 1 else 0
  }

  /** Move `k` does not raise the measure, and lowers it if it is a reader step. */
  ghost predicate Descends(ss: seq<State>, moves: seq<Move>, k: nat)
    requires k < |moves| < |ss|
  {
    && |ss[k].pc| == |ss[k].task| && |ss[k + 1].pc| == |ss[k + 1].task|
    && Measure(ss[k + 1]) + ReaderStep(ss, moves, k) <= Measure(ss[k])
  }

  /**
   While the combiner drains the readers, no step of any thread raises the measure and every
   reader step other than spinning lowers it.
   */
  lemma DrainDecreases(n: nat, app: App, ss: seq<State>, moves: seq<Move>, i: nat)
    requires IsRun(n, app, ss, moves) && i < |moves| && Draining(ss[i])
    ensures Descends(ss, moves, i)
  {
    RunInv(n, app, ss, moves, i);
    StepRank(n, app, ss[i], moves[i].t, moves[i].act);
    MeasureStep(ss[i], moves[i].t, ss[i + 1]);
  }

  /** How many reader steps, spinning apart, the moves from `i` to `j` contain. */
  ghost function ReaderSteps(ss: seq<State>, moves: seq<Move>, i: nat, j: nat): nat
    requires i <= j <= |moves| <= |ss|
    decreases j - i
  {
    if i == j then 0 else ReaderSteps(ss, moves, i, j - 1) + ReaderStep(ss, moves, j - 1)
  }

  lemma {:induction false} StepsBounded(ss: seq<State>, moves: seq<Move>, i: nat, j: nat)
    requires i <= j <= |moves| < |ss|
    requires |ss[i].pc| == |ss[i].task| && |ss[j].pc| == |ss[j].task|
    requires forall k | i <= k < j :: Descends(ss, moves, k)
    ensures ReaderSteps(ss, moves, i, j) + Measure(ss[j]) <= Measure(ss[i])
    decreases j - i
  {
    if i < j {
      assert Descends(ss, moves, j - 1);
      StepsBounded(ss, moves, i, j - 1);
    }
  }

  /** As long as the combiner drains, the number of reader steps is bounded by where they started. */
  lemma DrainTerminates(n: nat, app: App, ss: seq<State>, moves: seq<Move>, i: nat, j: nat)
    requires IsRun(n, app, ss, moves) && i <= j <= |moves|
    requires forall k | i <= k < j :: Draining(ss[k])
    ensures |ss[i].pc| == |ss[i].task| == |ss[j].pc| == |ss[j].task| == n
    ensures ReaderSteps(ss, moves, i, j) + Measure(ss[j]) <= Measure(ss[i])
  {
    RunInv(n, app, ss, moves, i);
    RunInv(n, app, ss, moves, j);
    forall k | i <= k < j ensures Descends(ss, moves, k) {
      DrainDecreases(n, app, ss, moves, k);
    }
    StepsBounded(ss, moves, i, j);
  }

  /** When no thread can take such a step any more, every reader flag is down. */
  lemma ParkedMeansUnflagged(n: nat, app: App, ss: seq<State>, moves: seq<Move>, i: nat)
    requires IsRun(n, app, ss, moves) && i < |ss|
    ensures |ss[i].pc| == |ss[i].readers| == n
    ensures forall t | 0 <= t < n && ss[i].readers[t] ::
              ReaderProgress(ss[i].pc[t]) && Enabled(ss[i], t, Go)
  {
    RunInv(n, app, ss, moves, i);
  }
}
