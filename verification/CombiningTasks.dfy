/**
 Requests under flat combining: what the `ready` word of a slot says about its owner, about the
 combiner and about the combiner's batch.
 */
module CombiningTasks {
  import opened Options
  import opened FlatCombining
  import opened CombiningLock

  /** The program point of the lock holder, and its batch. */
  ghost function HolderPc(s: State): Pc {
    if s.holder.Some? && s.holder.value < |s.pc| then s.pc[s.holder.value] else Idle
  }

  ghost function HolderBatch(s: State): seq<nat> {
    if s.holder.Some? && s.holder.value < |s.batch| then s.batch[s.holder.value] else []
  }

  /** The part of the batch from here on has been collected and not acknowledged. */
  function First(p: Pc, batch: seq<nat>): nat {
    if p.Finish? then p.j else if p.ClearSelf? || p.Unlock? || Mapping(p) then |batch| else 0
  }

  /** The part of the batch before this has been executed. */
  function Executed(p: Pc, batch: seq<nat>): nat {
    match p
    case Exec(j) => j
    case ExecLoad(j) => j
    case ExecPublish(j) => j
    case ExecBack(j) => j
    case _ => if p.StopLoad? || p.StopPublish? || p.StopBack? || Finishing(p) then |batch| else 0
  }

  /** What the `ready` word of slot `t` can be when its owner is at `p`. */
  predicate SlotOk(p: Pc, r: Ready, t: nat) {
    if p.RwAwaitDone? || p.Scan? || Executing(p) || p.Finish? then r == Started || r == Done
    else if p.RwFinish? || p.ClearSelf? then r == Done
    else if p.Collect? || p.Mark? then r != NoTask && (r == ReadyToExecute ==> p.i <= t)
    else if Waiting(p) then r != NoTask
    else r == NoTask
  }

  ghost predicate SlotsOk(pc: seq<Pc>, task: seq<Task>) {
    && |pc| == |task|
    && forall t | 0 <= t < |pc| :: SlotOk(pc[t], task[t].ready, t)
  }

  /** A slot about to be marked still waits. */
  ghost predicate MarkOk(p: Pc, task: seq<Task>) {
    p.Mark? ==> p.i < |task| && task[p.i].ready == ReadyToExecute
  }

  predicate BatchAt(batch: seq<nat>, task: seq<Task>, i: nat)
    requires i < |batch|
  {
    batch[i] < |task| && task[batch[i]].ready == Started && task[batch[i]].pos == i
  }

  /** Collected requests are STARTED, and each sits where its slot says. */
  ghost predicate BatchOk(p: Pc, batch: seq<nat>, task: seq<Task>) {
    forall i {:trigger BatchAt(batch, task, i)} | First(p, batch) <= i < |batch| :: BatchAt(batch, task, i)
  }

  /** A STARTED slot is in the batch of a live combiner. */
  ghost predicate StartedOk(p: Pc, batch: seq<nat>, task: seq<Task>) {
    forall t {:trigger task[t]} | 0 <= t < |task| && task[t].ready == Started ::
      First(p, batch) <= task[t].pos < |batch| && batch[task[t].pos] == t
  }

  ghost predicate TasksOk(p: Pc, batch: seq<nat>, pc: seq<Pc>, task: seq<Task>) {
    && SlotsOk(pc, task)
    && MarkOk(p, task)
    && BatchOk(p, batch, task)
    && StartedOk(p, batch, task)
  }

  ghost predicate TaskInv(n: nat, s: State) {
    && LockInv(n, s)
    && TasksOk(HolderPc(s), HolderBatch(s), s.pc, s.task)
  }

  // ---------------------------------------------------------------- kinds of change

  /** Slot `i` keeps everything the combiner relies on. */
  predicate SameSlot(x: Task, y: Task) {
    y.ready == x.ready && y.pos == x.pos
  }

  /**
   Thread `t` moves, the batch still pending is the same, and at most slot `i` changes, in a way
   the combiner does not see.
   */
  lemma Kept(p: Pc, p': Pc, batch: seq<nat>, pc: seq<Pc>, task: seq<Task>, t: nat, q: Pc, i: nat, y: Task)
    requires TasksOk(p, batch, pc, task) && t < |pc| && i < |task|
    requires First(p', batch) == First(p, batch)
    requires SameSlot(task[i], y) || (i == t && task[i].ready != Started && y.ready != Started)
    requires SlotOk(q, if i == t then y.ready else task[t].ready, t)
    requires MarkOk(p', task[i := y])
    ensures TasksOk(p', batch, pc[t := q], task[i := y])
  {
    KeptSlots(pc, task, t, q, i, y);
    KeptBatch(p, batch, task, i, y);
    assert BatchOk(p', batch, task[i := y]) == BatchOk(p, batch, task[i := y]);
    assert StartedOk(p', batch, task[i := y]) == StartedOk(p, batch, task[i := y]);
  }

  lemma KeptSlots(pc: seq<Pc>, task: seq<Task>, t: nat, q: Pc, i: nat, y: Task)
    requires SlotsOk(pc, task) && t < |pc| && i < |task|
    requires i == t || y.ready == task[i].ready
    requires SlotOk(q, if i == t then y.ready else task[t].ready, t)
    ensures SlotsOk(pc[t := q], task[i := y])
  {}

  lemma KeptBatch(p: Pc, batch: seq<nat>, task: seq<Task>, i: nat, y: Task)
    requires BatchOk(p, batch, task) && StartedOk(p, batch, task) && i < |task|
    requires SameSlot(task[i], y) || (task[i].ready != Started && y.ready != Started)
    ensures BatchOk(p, batch, task[i := y]) && StartedOk(p, batch, task[i := y])
  {
    var task' := task[i := y];
    forall k {:trigger BatchAt(batch, task', k)} | First(p, batch) <= k < |batch| ensures BatchAt(batch, task', k) {
      assert BatchAt(batch, task, k);
    }
    forall t | 0 <= t < |task'| && task'[t].ready == Started
      ensures First(p, batch) <= task'[t].pos < |batch| && batch[task'[t].pos] == t
    {
      assert task[t].ready == Started && task[t].pos == task'[t].pos;
    }
  }

  /** The combiner adds a waiting request to its batch. */
  lemma Collected(p: Pc, p': Pc, batch: seq<nat>, pc: seq<Pc>, task: seq<Task>, t: nat, i: nat, y: Task)
    requires TasksOk(p, batch, pc, task) && t < |pc| && p == pc[t] == Mark(i) && p' == Collect(i + 1)
    requires y.ready == Started && y.pos == |batch|
    ensures i < |task| && TasksOk(p', batch + [i], pc[t := p'], task[i := y])
  {
    var batch', task' := batch + [i], task[i := y];
    forall k {:trigger BatchAt(batch', task', k)} | First(p', batch') <= k < |batch'| ensures BatchAt(batch', task', k) {
      if k < |batch| {
        assert BatchAt(batch, task, k);
      }
    }
  }

  /** The combiner acknowledges the next request of its batch. */
  lemma Acknowledged(p: Pc, p': Pc, batch: seq<nat>, pc: seq<Pc>, task: seq<Task>, t: nat, j: nat, y: Task)
    requires TasksOk(p, batch, pc, task) && t < |pc| && p == pc[t] == Finish(j) && p' == Finish(j + 1)
    requires j < |batch| && y.ready == Done
    ensures batch[j] < |task| && TasksOk(p', batch, pc[t := p'], task[batch[j] := y])
  {
    assert BatchAt(batch, task, j);
    var task' := task[batch[j] := y];
    forall k {:trigger BatchAt(batch, task', k)} | First(p', batch) <= k < |batch| ensures BatchAt(batch, task', k) {
      assert BatchAt(batch, task, k);
    }
  }

  /** The lock changes hands while nothing is pending. */
  lemma HandedOver(p: Pc, p': Pc, batch: seq<nat>, batch': seq<nat>, pc: seq<Pc>, task: seq<Task>, t: nat, q: Pc)
    requires TasksOk(p, batch, pc, task) && t < |pc|
    requires First(p, batch) == |batch| && First(p', batch') == |batch'| && !p'.Mark?
    requires SlotOk(q, task[t].ready, t)
    ensures TasksOk(p', batch', pc[t := q], task)
  {}

  lemma HolderAfter(n: nat, s: State, t: nat, s': State)
    requires LockInv(n, s) && t < n && LockEffect(n, s, t, s') && ShapeEffect(n, s, t, s')
    ensures HoldsLock(s'.pc[t]) ==> HolderPc(s') == s'.pc[t] && HolderBatch(s') == s'.batch[t]
    ensures HoldsLock(s.pc[t]) ==> HolderPc(s) == s.pc[t] && HolderBatch(s) == s.batch[t]
    ensures !HoldsLock(s.pc[t]) && !HoldsLock(s'.pc[t]) && s'.batch == s.batch ==>
              HolderPc(s') == HolderPc(s) && HolderBatch(s') == HolderBatch(s)
    ensures HoldsLock(s.pc[t]) != HoldsLock(s'.pc[t]) ==>
              (HoldsLock(s.pc[t]) || (HolderPc(s) == Idle && HolderBatch(s) == []))
              && (HoldsLock(s'.pc[t]) || (HolderPc(s') == Idle && HolderBatch(s') == []))
  {}

  // ---------------------------------------------------------------- preservation

  /** The owner changes a slot that no combiner is looking at. */
  predicate Owned(x: Task, y: Task) {
    (x.ready == NoTask || x.ready == Done) && y.ready != Started
  }

  /** A thread that has nothing to do with the lock leaves the combiner's view as it was. */
  lemma BystanderTask(n: nat, s: State, t: nat, s': State)
    requires TaskInv(n, s) && t < n && LockEffect(n, s, t, s')
    requires !HoldsLock(s.pc[t]) && !HoldsLock(s'.pc[t]) && s'.batch == s.batch
    requires |s'.task| == n && s'.task == s.task[t := s'.task[t]]
    requires SameSlot(s.task[t], s'.task[t]) || Owned(s.task[t], s'.task[t])
    requires SlotOk(s'.pc[t], s'.task[t].ready, t)
    ensures TasksOk(HolderPc(s'), HolderBatch(s'), s'.pc, s'.task)
  {
    assert s'.holder != Some(t);
    assert HolderPc(s') == HolderPc(s);
    Kept(HolderPc(s), HolderPc(s'), HolderBatch(s), s.pc, s.task, t, s'.pc[t], t, s'.task[t]);
  }

  /** The lock is taken or released while nothing is pending. */
  lemma HandOverTask(n: nat, s: State, t: nat, s': State)
    requires TaskInv(n, s) && t < n && LockEffect(n, s, t, s') && ShapeEffect(n, s, t, s')
    requires HoldsLock(s.pc[t]) != HoldsLock(s'.pc[t]) && s'.task == s.task && !s'.pc[t].Mark?
    requires HoldsLock(s.pc[t]) ==> First(s.pc[t], s.batch[t]) == |s.batch[t]|
    requires HoldsLock(s'.pc[t]) ==> First(s'.pc[t], s'.batch[t]) == |s'.batch[t]|
    requires SlotOk(s'.pc[t], s.task[t].ready, t)
    ensures TasksOk(HolderPc(s'), HolderBatch(s'), s'.pc, s'.task)
  {
    HolderAfter(n, s, t, s');
    HandedOver(HolderPc(s), HolderPc(s'), HolderBatch(s), HolderBatch(s'), s.pc, s.task, t, s'.pc[t]);
  }

  /** The holder goes on; slot `i` changes in a way that does not concern its batch. */
  lemma HolderTask(n: nat, s: State, t: nat, s': State, i: nat)
    requires TaskInv(n, s) && t < n && LockEffect(n, s, t, s') && ShapeEffect(n, s, t, s')
    requires HoldsLock(s.pc[t]) && HoldsLock(s'.pc[t]) && s'.batch == s.batch
    requires First(s'.pc[t], s.batch[t]) == First(s.pc[t], s.batch[t])
    requires i < n && s'.task == s.task[i := s'.task[i]]
    requires SameSlot(s.task[i], s'.task[i]) || (i == t && s.task[i].ready != Started && s'.task[i].ready != Started)
    requires SlotOk(s'.pc[t], s'.task[t].ready, t) && MarkOk(s'.pc[t], s'.task)
    ensures TasksOk(HolderPc(s'), HolderBatch(s'), s'.pc, s'.task)
  {
    HolderAfter(n, s, t, s');
    Kept(HolderPc(s), HolderPc(s'), HolderBatch(s), s.pc, s.task, t, s'.pc[t], i, s'.task[i]);
  }

  lemma SlotOf(n: nat, s: State, t: nat)
    requires TaskInv(n, s) && t < n
    ensures SlotOk(s.pc[t], s.task[t].ready, t)
    ensures HoldsLock(s.pc[t]) ==> HolderPc(s) == s.pc[t] && HolderBatch(s) == s.batch[t]
    ensures HoldsLock(s.pc[t]) ==> MarkOk(s.pc[t], s.task)
  {}

  // What each kind of step does to the slots and the batch, in its own terms.

  lemma IdleSlot(n: nat, s: State, t: nat, a: Act)
    requires Sized(n, s) && t < n && s.pc[t].Idle? && !a.Go? && SlotOk(s.pc[t], s.task[t].ready, t)
    ensures var s' := StepIdle(s, t, a);
            && |s'.pc| == |s'.task| == n && s'.batch == s.batch && s'.task == s.task[t := s'.task[t]]
            && !HoldsLock(s'.pc[t]) && (SameSlot(s.task[t], s'.task[t]) || Owned(s.task[t], s'.task[t]))
            && SlotOk(s'.pc[t], s'.task[t].ready, t)
  {}

  lemma IdleTask(n: nat, app: App, s: State, t: nat, a: Act)
    requires TaskInv(n, s) && t < n && s.pc[t].Idle? && !a.Go?
    ensures var s' := StepIdle(s, t, a); TasksOk(HolderPc(s'), HolderBatch(s'), s'.pc, s'.task)
  {
    SlotOf(n, s, t);
    IdleEffect(n, app, s, t, a);
    IdleSlot(n, s, t, a);
    BystanderTask(n, s, t, StepIdle(s, t, a));
  }

  lemma WaitingSlot(n: nat, s: State, t: nat)
    requires Sized(n, s) && t < n && Waiting(s.pc[t]) && SlotOk(s.pc[t], s.task[t].ready, t)
    ensures var s' := StepWaiting(s, t);
            && |s'.pc| == |s'.task| == |s'.batch| == n && s'.task == s.task[t := s'.task[t]]
            && SlotOk(s'.pc[t], s'.task[t].ready, t)
            && (HoldsLock(s'.pc[t]) ==> s'.task == s.task && s'.pc[t] == Collect(0) && s'.batch[t] == [])
            && (!HoldsLock(s'.pc[t]) ==> s'.batch == s.batch)
            && (SameSlot(s.task[t], s'.task[t]) || Owned(s.task[t], s'.task[t]))
  {}

  lemma WaitingTask(n: nat, app: App, s: State, t: nat, a: Act)
    requires TaskInv(n, s) && t < n && Waiting(s.pc[t])
    ensures var s' := StepWaiting(s, t); TasksOk(HolderPc(s'), HolderBatch(s'), s'.pc, s'.task)
  {
    SlotOf(n, s, t);
    WaitingEffect(n, app, s, t, a);
    WaitingSlot(n, s, t);
    if HoldsLock(StepWaiting(s, t).pc[t]) {
      WaitingShape(n, app, s, t, a);
      HandOverTask(n, s, t, StepWaiting(s, t));
    } else {
      BystanderTask(n, s, t, StepWaiting(s, t));
    }
  }

  lemma CollectingSlot(n: nat, s: State, t: nat)
    requires Shaped(n, s) && t < n && Collecting(s.pc[t]) && !s.pc[t].Mark? && SlotOk(s.pc[t], s.task[t].ready, t)
    ensures var s' := StepCollecting(n, s, t);
            && |s'.pc| == |s'.task| == |s'.batch| == n && s'.task == s.task && s'.batch == s.batch
            && HoldsLock(s'.pc[t]) && First(s'.pc[t], s.batch[t]) == First(s.pc[t], s.batch[t])
            && SlotOk(s'.pc[t], s'.task[t].ready, t) && MarkOk(s'.pc[t], s'.task)
  {
    assert PcInRange(s.pc[t], n, s.batch[t]);
  }

  lemma MarkTask(n: nat, app: App, s: State, t: nat, a: Act)
    requires TaskInv(n, s) && t < n && s.pc[t].Mark?
    ensures var s' := StepCollecting(n, s, t); TasksOk(HolderPc(s'), HolderBatch(s'), s'.pc, s'.task)
  {
    var s', i := StepCollecting(n, s, t), s.pc[t].i;
    SlotOf(n, s, t);
    CollectingEffect(n, app, s, t, a);
    CollectingShape(n, app, s, t, a);
    HolderAfter(n, s, t, s');
    Collected(HolderPc(s), HolderPc(s'), HolderBatch(s), s.pc, s.task, t, i, s'.task[i]);
  }

  lemma CollectingTask(n: nat, app: App, s: State, t: nat, a: Act)
    requires TaskInv(n, s) && t < n && Collecting(s.pc[t])
    ensures var s' := StepCollecting(n, s, t); TasksOk(HolderPc(s'), HolderBatch(s'), s'.pc, s'.task)
  {
    if s.pc[t].Mark? {
      MarkTask(n, app, s, t, a);
    } else {
      SlotOf(n, s, t);
      CollectingEffect(n, app, s, t, a);
      CollectingShape(n, app, s, t, a);
      CollectingSlot(n, s, t);
      HolderTask(n, s, t, StepCollecting(n, s, t), t);
    }
  }

  /** Only the response and the history record differ. */
  ghost predicate SameRequest(x: Task, y: Task) {
    y == x.(resp := y.resp, lin := y.lin)
  }

  /** What a step of an executing combiner may change. */
  ghost predicate Executes(n: nat, s: State, t: nat, s': State, i: nat) {
    && t < n && i < n && |s.pc| == |s.task| == |s'.pc| == |s'.task| == |s.batch| == n
    && s'.task == s.task[i := s'.task[i]] && SameRequest(s.task[i], s'.task[i])
    && s'.pc == s.pc[t := s'.pc[t]] && (Executing(s'.pc[t]) || s'.pc[t] == Finish(0))
    && s'.batch == s.batch && s'.completed == s.completed
  }

  lemma ExecutesRequest(n: nat, app: App, s: State, t: nat, a: Act)
    requires Shaped(n, s) && t < n && s.pc[t].Exec? && !a.Mmap? && s.pc[t].j < |s.batch[t]|
    ensures Executes(n, s, t, StepExecuting(n, app, s, t, a), s.batch[t][s.pc[t].j])
  {}

  lemma ExecutesBetween(n: nat, app: App, s: State, t: nat, a: Act)
    requires Shaped(n, s) && t < n && Executing(s.pc[t])
    requires !(s.pc[t].Exec? && !a.Mmap? && s.pc[t].j < |s.batch[t]|)
    ensures Executes(n, s, t, StepExecuting(n, app, s, t, a), t)
  {
    assert PcInRange(s.pc[t], n, s.batch[t]);
  }

  lemma ExecutingFrame(n: nat, app: App, s: State, t: nat, a: Act) returns (i: nat)
    requires Shaped(n, s) && t < n && Executing(s.pc[t])
    ensures Executes(n, s, t, StepExecuting(n, app, s, t, a), i)
  {
    if s.pc[t].Exec? && !a.Mmap? && s.pc[t].j < |s.batch[t]| {
      ExecutesRequest(n, app, s, t, a);
      i := s.batch[t][s.pc[t].j];
    } else {
      ExecutesBetween(n, app, s, t, a);
      i := t;
    }
  }

  lemma ExecutingSlot(n: nat, s: State, t: nat, s': State, i: nat)
    requires Executes(n, s, t, s', i) && Executing(s.pc[t]) && SlotOk(s.pc[t], s.task[t].ready, t)
    ensures SameSlot(s.task[i], s'.task[i]) && HoldsLock(s.pc[t]) && HoldsLock(s'.pc[t])
    ensures First(s'.pc[t], s.batch[t]) == First(s.pc[t], s.batch[t])
    ensures SlotOk(s'.pc[t], s'.task[t].ready, t) && !s'.pc[t].Mark?
  {}

  lemma ExecutingTask(n: nat, app: App, s: State, t: nat, a: Act)
    requires TaskInv(n, s) && t < n && Executing(s.pc[t])
    ensures var s' := StepExecuting(n, app, s, t, a); TasksOk(HolderPc(s'), HolderBatch(s'), s'.pc, s'.task)
  {
    SlotOf(n, s, t);
    ExecutingEffect(n, app, s, t, a);
    ExecutingShape(n, app, s, t, a);
    var i := ExecutingFrame(n, app, s, t, a);
    ExecutingSlot(n, s, t, StepExecuting(n, app, s, t, a), i);
    HolderTask(n, s, t, StepExecuting(n, app, s, t, a), i);
  }

  lemma FinishingSlot(n: nat, s: State, t: nat)
    requires Shaped(n, s) && t < n && Finishing(s.pc[t]) && SlotOk(s.pc[t], s.task[t].ready, t)
    requires s.pc[t].Finish? ==> s.pc[t].j == |s.batch[t]| && s.task[t].ready == Done
    ensures var s' := StepFinishing(n, s, t);
            && |s'.pc| == |s'.task| == |s'.batch| == n && s'.batch == s.batch && s'.task == s.task[t := s'.task[t]]
            && s.task[t].ready != Started && s'.task[t].ready != Started && SlotOk(s'.pc[t], s'.task[t].ready, t)
            && (s.pc[t].Unlock? ==> s'.task == s.task && s'.pc[t].Idle?)
            && (!s.pc[t].Unlock? ==> s'.pc[t].ClearSelf? || s'.pc[t].Unlock?)
  {}

  lemma AcknowledgeTask(n: nat, app: App, s: State, t: nat, a: Act)
    requires TaskInv(n, s) && t < n && s.pc[t].Finish? && s.pc[t].j < |s.batch[t]|
    ensures var s' := StepFinishing(n, s, t); TasksOk(HolderPc(s'), HolderBatch(s'), s'.pc, s'.task)
  {
    var s', j := StepFinishing(n, s, t), s.pc[t].j;
    SlotOf(n, s, t);
    FinishingEffect(n, app, s, t, a);
    FinishingShape(n, app, s, t, a);
    HolderAfter(n, s, t, s');
    Acknowledged(HolderPc(s), HolderPc(s'), HolderBatch(s), s.pc, s.task, t, j, s'.task[s.batch[t][j]]);
  }

  /** When the whole batch is acknowledged, so is the combiner's own request. */
  lemma AllAcknowledged(n: nat, s: State, t: nat)
    requires TaskInv(n, s) && t < n && s.pc[t].Finish? && s.pc[t].j >= |s.batch[t]|
    ensures s.pc[t].j == |s.batch[t]| && s.task[t].ready == Done
  {
    SlotOf(n, s, t);
    assert PcInRange(s.pc[t], n, s.batch[t]);
  }

  lemma FinishingTask(n: nat, app: App, s: State, t: nat, a: Act)
    requires TaskInv(n, s) && t < n && Finishing(s.pc[t])
    ensures var s' := StepFinishing(n, s, t); TasksOk(HolderPc(s'), HolderBatch(s'), s'.pc, s'.task)
  {
    if s.pc[t].Finish? && s.pc[t].j < |s.batch[t]| {
      AcknowledgeTask(n, app, s, t, a);
    } else {
      if s.pc[t].Finish? {
        AllAcknowledged(n, s, t);
      }
      SlotOf(n, s, t);
      FinishingEffect(n, app, s, t, a);
      FinishingShape(n, app, s, t, a);
      FinishingSlot(n, s, t);
      if s.pc[t].Unlock? {
        HandOverTask(n, s, t, StepFinishing(n, s, t));
      } else {
        HolderTask(n, s, t, StepFinishing(n, s, t), t);
      }
    }
  }

  /** What a step of a reader may change. */
  ghost predicate ReadsOnly(n: nat, s: State, t: nat, s': State) {
    && t < n && |s.pc| == |s.task| == |s'.pc| == |s'.task| == n
    && (Reading(s'.pc[t]) || s'.pc[t].Idle?) && s'.batch == s.batch
    && s'.task == s.task[t := s'.task[t]] && SameSlot(s.task[t], s'.task[t])
  }

  lemma ReadingSlot(n: nat, app: App, s: State, t: nat)
    requires Sized(n, s) && t < n && Reading(s.pc[t])
    ensures ReadsOnly(n, s, t, StepReading(app, s, t))
  {}

  lemma ReadingTask(n: nat, app: App, s: State, t: nat, a: Act)
    requires TaskInv(n, s) && t < n && Reading(s.pc[t])
    ensures var s' := StepReading(app, s, t); TasksOk(HolderPc(s'), HolderBatch(s'), s'.pc, s'.task)
  {
    SlotOf(n, s, t);
    ReadingEffect(n, app, s, t, a);
    ReadingSlot(n, app, s, t);
    ReaderUnlocked(n, s, t, StepReading(app, s, t));
    BystanderTask(n, s, t, StepReading(app, s, t));
  }

  lemma ReaderUnlocked(n: nat, s: State, t: nat, s': State)
    requires ReadsOnly(n, s, t, s') && Reading(s.pc[t]) && SlotOk(s.pc[t], s.task[t].ready, t)
    ensures !HoldsLock(s.pc[t]) && !HoldsLock(s'.pc[t]) && SlotOk(s'.pc[t], s'.task[t].ready, t)
  {}

  lemma MappingSlot(n: nat, s: State, t: nat)
    requires Sized(n, s) && t < n && Mapping(s.pc[t]) && SlotOk(s.pc[t], s.task[t].ready, t)
    ensures var s' := StepMapping(s, t);
            && |s'.pc| == |s'.task| == |s'.batch| == n && s'.task == s.task
            && (Mapping(s'.pc[t]) || s'.pc[t].Idle?) && SlotOk(s'.pc[t], s'.task[t].ready, t)
            && (HoldsLock(s.pc[t]) == HoldsLock(s'.pc[t]) ==> s'.batch == s.batch)
  {}

  lemma MappingTask(n: nat, app: App, s: State, t: nat, a: Act)
    requires TaskInv(n, s) && t < n && Mapping(s.pc[t])
    ensures var s' := StepMapping(s, t); TasksOk(HolderPc(s'), HolderBatch(s'), s'.pc, s'.task)
  {
    SlotOf(n, s, t);
    MappingEffect(n, app, s, t, a);
    MappingShape(n, app, s, t, a);
    MappingSlot(n, s, t);
    if HoldsLock(s.pc[t]) != HoldsLock(StepMapping(s, t).pc[t]) {
      HandOverTask(n, s, t, StepMapping(s, t));
    } else if HoldsLock(s.pc[t]) {
      HolderTask(n, s, t, StepMapping(s, t), t);
    } else {
      BystanderTask(n, s, t, StepMapping(s, t));
    }
  }

  lemma StepTaskInv(n: nat, app: App, s: State, t: nat, a: Act)
    requires TaskInv(n, s) && t < n && Enabled(s, t, a)
    ensures TaskInv(n, Step(n, app, s, t, a))
  {
    StepLockInv(n, app, s, t, a);
    var p := s.pc[t];
    if p.Idle? {
      IdleTask(n, app, s, t, a);
    } else if Waiting(p) {
      WaitingTask(n, app, s, t, a);
    } else if Collecting(p) {
      CollectingTask(n, app, s, t, a);
    } else if Executing(p) {
      ExecutingTask(n, app, s, t, a);
    } else if Finishing(p) {
      FinishingTask(n, app, s, t, a);
    } else if Reading(p) {
      ReadingTask(n, app, s, t, a);
    } else {
      MappingTask(n, app, s, t, a);
    }
  }
}
