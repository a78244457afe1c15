/**
 What flat combining does to the application: every update takes effect once, at one point of
 a single history, and every command returns what that history explains.
 */
module CombiningHistory {
  import opened Options
  import opened FlatCombining
  import opened CombiningLock
  import opened CombiningTasks

  /** How much of the history is not in the published log yet. */
  function Unpublished(p: Pc, batch: seq<nat>): nat {
    if p.StopBack? || Finishing(p) then 0 else Executed(p, batch)
  }

  /** The response of executing `cmd` after `hist`. */
  function Response(app: App, hist: seq<Op>, cmd: Cmd): Resp {
    app.exec(Fold(app, hist), cmd).1
  }

  /** Whether the update of slot `x` has been executed, by its `ready` word and the combiner's progress. */
  ghost predicate LinOk(x: Task, p: Pc, e: nat, pub: nat, len: nat) {
    && x.subAt <= len
    && (x.ready == ReadyToExecute ==> x.lin.None?)
    && (x.ready == Started ==> (x.lin.Some? <==> x.pos < e))
    && (x.ready == Done || p.Unlock? ==> x.lin.Some? && x.lin.value < pub)
  }

  /** The history explains the executed update of slot `t`. */
  ghost predicate Explained(app: App, x: Task, t: nat, hist: seq<Op>) {
    x.lin.Some? ==>
      && x.subAt <= x.lin.value < |hist|
      && hist[x.lin.value] == Op(t, x.k, x.cmd)
      && x.resp == Response(app, hist[..x.lin.value], x.cmd)
  }

  /** A read holds the answer of a published point no earlier than its submission. */
  ghost predicate ReadOk(app: App, x: Task, p: Pc, pub: nat, hist: seq<Op>) {
    p.RoLeave? ==>
      && x.subAt <= p.at <= pub <= |hist|
      && x.resp == app.query(Fold(app, hist[..p.at]), x.cmd)
  }

  ghost predicate RecordOk(app: App, x: Task, t: nat, p: Pc, e: nat, pub: nat, hist: seq<Op>) {
    && LinOk(x, p, e, pub, |hist|)
    && (x.ready != NoTask || p.Unlock? ==> Explained(app, x, t, hist))
    && ReadOk(app, x, p, pub, hist)
  }

  ghost predicate RecordsOk(app: App, pc: seq<Pc>, task: seq<Task>, e: nat, pub: nat, hist: seq<Op>) {
    && |pc| == |task|
    && forall t | 0 <= t < |task| :: RecordOk(app, task[t], t, pc[t], e, pub, hist)
  }

  /** An executed update is one its thread has submitted, and not the one it is waiting for. */
  predicate HistAt(task: seq<Task>, hist: seq<Op>, i: nat)
    requires i < |hist|
  {
    && hist[i].t < |task|
    && hist[i].k <= task[hist[i].t].k
    && (task[hist[i].t].lin.None? ==> hist[i].k < task[hist[i].t].k)
  }

  /** The history lists each thread's updates in order, none twice. */
  ghost predicate HistOk(task: seq<Task>, hist: seq<Op>) {
    && (forall i {:trigger HistAt(task, hist, i)} | 0 <= i < |hist| :: HistAt(task, hist, i))
    && (forall i, j | 0 <= i < j < |hist| && hist[i].t == hist[j].t :: hist[i].k < hist[j].k)
  }

  /** What a command that has returned can rely on. */
  ghost predicate CompletedOk(app: App, c: Completed, pub: nat, hist: seq<Op>) {
    && c.subAt <= c.retAt <= |hist|
    && c.pubAt <= pub <= |hist|
    && c.subAt <= c.lin <= c.retAt
    && c.lin <= c.pubAt
    && (c.update ==>
          && c.lin < c.retAt && c.lin < c.pubAt
          && hist[c.lin] == Op(c.t, c.k, c.cmd)
          && c.resp == Response(app, hist[..c.lin], c.cmd))
    && (!c.update ==> c.resp == app.query(Fold(app, hist[..c.lin]), c.cmd))
  }

  ghost predicate AllCompletedOk(app: App, cs: seq<Completed>, pub: nat, hist: seq<Op>) {
    forall i | 0 <= i < |cs| :: CompletedOk(app, cs[i], pub, hist)
  }

  ghost predicate MemoryOk(app: App, s: State) {
    && s.mem == Fold(app, s.hist)
    && s.pub + Unpublished(HolderPc(s), HolderBatch(s)) == |s.hist|
  }

  ghost predicate HistoryOk(app: App, s: State) {
    && RecordsOk(app, s.pc, s.task, Executed(HolderPc(s), HolderBatch(s)), s.pub, s.hist)
    && HistOk(s.task, s.hist)
    && MemoryOk(app, s)
    && AllCompletedOk(app, s.completed, s.pub, s.hist)
  }

  ghost predicate Inv(n: nat, app: App, s: State) {
    TaskInv(n, s) && HistoryOk(app, s)
  }

  lemma InitInv(n: nat, app: App, s: State)
    requires Init(n, app, s)
    ensures Inv(n, app, s)
  {}

  // ---------------------------------------------------------------- kinds of change

  /** One thread moves and one slot changes; the history stands still. */
  lemma RecordsKept(app: App, pc: seq<Pc>, task: seq<Task>, e: nat, e': nat, pub: nat, hist: seq<Op>,
                    t: nat, q: Pc, i: nat, y: Task)
    requires RecordsOk(app, pc, task, e, pub, hist) && t < |pc| && i < |task|
    requires e' == e || forall j | 0 <= j < |task| :: task[j].ready != Started
    requires RecordOk(app, if i == t then y else task[t], t, q, e', pub, hist)
    requires i != t ==> RecordOk(app, y, i, pc[i], e', pub, hist)
    ensures RecordsOk(app, pc[t := q], task[i := y], e', pub, hist)
  {
    var pc', task' := pc[t := q], task[i := y];
    forall j | 0 <= j < |task'| ensures RecordOk(app, task'[j], j, pc'[j], e', pub, hist) {
      if j != t && j != i {
        assert RecordOk(app, task[j], j, pc[j], e, pub, hist);
      }
    }
  }

  lemma HistKept(task: seq<Task>, hist: seq<Op>, i: nat, y: Task)
    requires HistOk(task, hist) && i < |task|
    requires (y.k == task[i].k && y.lin == task[i].lin) || y.k == task[i].k + 1
    ensures HistOk(task[i := y], hist)
  {
    var task' := task[i := y];
    forall j {:trigger HistAt(task', hist, j)} | 0 <= j < |hist| ensures HistAt(task', hist, j) {
      assert HistAt(task, hist, j);
    }
  }

  lemma FoldPrefix(app: App, hist: seq<Op>, op: Op, k: nat)
    requires k <= |hist|
    ensures (hist + [op])[..k] == hist[..k]
    ensures Fold(app, hist + [op]) == app.exec(Fold(app, hist), op.cmd).0
  {
    assert (hist + [op])[..|hist|] == hist;
  }

  lemma RecordGrows(app: App, x: Task, t: nat, p: Pc, e: nat, e': nat, pub: nat, hist: seq<Op>, op: Op)
    requires RecordOk(app, x, t, p, e, pub, hist)
    requires x.ready == Started ==> (x.pos < e <==> x.pos < e')
    ensures RecordOk(app, x, t, p, e', pub, hist + [op])
  {
    if x.lin.Some? && x.lin.value <= |hist| {
      FoldPrefix(app, hist, op, x.lin.value);
    }
    if p.RoLeave? && p.at <= |hist| {
      FoldPrefix(app, hist, op, p.at);
    }
  }

  lemma CompletedGrow(app: App, cs: seq<Completed>, pub: nat, hist: seq<Op>, op: Op)
    requires AllCompletedOk(app, cs, pub, hist)
    ensures AllCompletedOk(app, cs, pub, hist + [op])
  {
    forall i | 0 <= i < |cs| ensures CompletedOk(app, cs[i], pub, hist + [op]) {
      assert CompletedOk(app, cs[i], pub, hist);
      FoldPrefix(app, hist, op, cs[i].lin);
    }
  }

  /** The combiner executes request `i`, the next of its batch. */
  lemma RecordsExecuted(app: App, pc: seq<Pc>, task: seq<Task>, e: nat, pub: nat, hist: seq<Op>,
                        t: nat, q: Pc, i: nat, y: Task, p: Pc, batch: seq<nat>)
    requires RecordsOk(app, pc, task, e, pub, hist) && t < |pc| && i < |task|
    requires StartedOk(p, batch, task) && e < |batch| && batch[e] == i
    requires task[i].ready == Started && task[i].pos == e
    requires y == task[i].(resp := Response(app, hist, task[i].cmd), lin := Some(|hist|))
    requires Executing(pc[t]) && Executing(q) && !pc[i].RoLeave?
    ensures RecordsOk(app, pc[t := q], task[i := y], e + 1, pub, hist + [Op(i, task[i].k, task[i].cmd)])
  {
    var op := Op(i, task[i].k, task[i].cmd);
    var pc', task', hist' := pc[t := q], task[i := y], hist + [op];
    FoldPrefix(app, hist, op, |hist|);
    assert hist[..|hist|] == hist;
    assert RecordOk(app, task[i], i, pc[i], e, pub, hist);
    assert Explained(app, y, i, hist');
    forall j | 0 <= j < |task'| ensures RecordOk(app, task'[j], j, pc'[j], e + 1, pub, hist') {
      assert RecordOk(app, task[j], j, pc[j], e, pub, hist);
      if j != i {
        RecordGrows(app, task[j], j, pc[j], e, e + 1, pub, hist, op);
      }
    }
  }

  lemma HistExecuted(task: seq<Task>, hist: seq<Op>, i: nat, y: Task)
    requires HistOk(task, hist) && i < |task| && task[i].lin.None?
    requires y.k == task[i].k && y.lin.Some?
    ensures HistOk(task[i := y], hist + [Op(i, task[i].k, task[i].cmd)])
  {
    var task', hist' := task[i := y], hist + [Op(i, task[i].k, task[i].cmd)];
    forall j {:trigger HistAt(task', hist', j)} | 0 <= j < |hist'| ensures HistAt(task', hist', j) {
      if j < |hist| {
        assert HistAt(task, hist, j);
      }
    }
    forall j | 0 <= j < |hist| && hist[j].t == i ensures hist[j].k < task[i].k {
      assert HistAt(task, hist, j);
    }
  }

  /** The log of the batch becomes visible. */
  lemma Published(app: App, pc: seq<Pc>, task: seq<Task>, e: nat, pub: nat, hist: seq<Op>,
                  cs: seq<Completed>, t: nat, q: Pc)
    requires RecordsOk(app, pc, task, e, pub, hist) && t < |pc| && pub <= |hist|
    requires AllCompletedOk(app, cs, pub, hist)
    requires !q.Unlock? && !q.RoLeave?
    ensures RecordsOk(app, pc[t := q], task, e, |hist|, hist)
    ensures AllCompletedOk(app, cs, |hist|, hist)
  {
    var pc' := pc[t := q];
    forall j | 0 <= j < |task| ensures RecordOk(app, task[j], j, pc'[j], e, |hist|, hist) {
      assert RecordOk(app, task[j], j, pc[j], e, pub, hist);
    }
    forall i | 0 <= i < |cs| ensures CompletedOk(app, cs[i], |hist|, hist) {
      assert CompletedOk(app, cs[i], pub, hist);
    }
  }

  lemma CompletedAppend(app: App, cs: seq<Completed>, c: Completed, pub: nat, hist: seq<Op>)
    requires AllCompletedOk(app, cs, pub, hist) && CompletedOk(app, c, pub, hist)
    ensures AllCompletedOk(app, cs + [c], pub, hist)
  {}

  // ---------------------------------------------------------------- preservation

  /** Thread `t` moves and slot `i` changes; memory and history stand still. */
  ghost predicate Frame(s: State, t: nat, i: nat, s': State) {
    && t < |s.pc| == |s'.pc| && i < |s.task| == |s'.task|
    && s'.pc == s.pc[t := s'.pc[t]] && s'.task == s.task[i := s'.task[i]]
    && s'.hist == s.hist && s'.pub == s.pub && s'.mem == s.mem
  }

  /** How far the combiner is in executing and in publishing. */
  ghost function Progress(s: State): (nat, nat) {
    (Executed(HolderPc(s), HolderBatch(s)), Unpublished(HolderPc(s), HolderBatch(s)))
  }

  ghost predicate SlotRecord(app: App, s: State, e: nat, i: nat) {
    && i < |s.task| && i < |s.pc|
    && RecordOk(app, s.task[i], i, s.pc[i], e, s.pub, s.hist)
  }

  lemma Still(app: App, s: State, t: nat, i: nat, s': State)
    requires HistoryOk(app, s) && Frame(s, t, i, s') && Progress(s') == Progress(s)
    requires SlotRecord(app, s', Progress(s').0, i) && SlotRecord(app, s', Progress(s').0, t)
    requires (s'.task[i].k == s.task[i].k && s'.task[i].lin == s.task[i].lin) || s'.task[i].k == s.task[i].k + 1
    requires AllCompletedOk(app, s'.completed, s.pub, s.hist)
    ensures HistoryOk(app, s')
  {
    var e := Progress(s).0;
    RecordsKept(app, s.pc, s.task, e, e, s.pub, s.hist, t, s'.pc[t], i, s'.task[i]);
    HistKept(s.task, s.hist, i, s'.task[i]);
  }

  lemma ProgressKept(n: nat, s: State, t: nat, s': State)
    requires LockInv(n, s) && t < n && LockEffect(n, s, t, s') && ShapeEffect(n, s, t, s')
    requires !HoldsLock(s.pc[t]) && !HoldsLock(s'.pc[t]) ==> s'.batch == s.batch
    requires HoldsLock(s.pc[t]) ==> Executed(s.pc[t], s.batch[t]) == Executed(s'.pc[t], s'.batch[t])
    requires HoldsLock(s.pc[t]) ==> Unpublished(s.pc[t], s.batch[t]) == Unpublished(s'.pc[t], s'.batch[t])
    requires HoldsLock(s'.pc[t]) && !HoldsLock(s.pc[t]) ==> Executed(s'.pc[t], s'.batch[t]) == 0
    ensures Progress(s') == Progress(s)
  {
    HolderAfter(n, s, t, s');
  }

  lemma IdleHistory(n: nat, app: App, s: State, t: nat, a: Act)
    requires Inv(n, app, s) && t < n && s.pc[t].Idle? && !a.Go?
    ensures HistoryOk(app, StepIdle(s, t, a))
  {
    SlotOf(n, s, t);
    IdleProgress(n, app, s, t, a);
    IdleFrame(s, t, a);
    IdleRecord(app, s, t, StepIdle(s, t, a));
  }

  lemma IdleProgress(n: nat, app: App, s: State, t: nat, a: Act)
    requires LockInv(n, s) && t < n && s.pc[t].Idle? && !a.Go?
    ensures Progress(StepIdle(s, t, a)) == Progress(s)
  {
    IdleEffect(n, app, s, t, a);
    IdleShape(n, app, s, t, a);
    ProgressKept(n, s, t, StepIdle(s, t, a));
  }

  /** A new command starts with nothing executed. */
  ghost predicate Begins(x: Task, y: Task, len: nat) {
    || y == x
    || (y.ready == x.ready && y.k == x.k && y.lin == x.lin && y.pos == x.pos && y.subAt == len)
    || (y.ready == ReadyToExecute && y.k == x.k + 1 && y.lin == None && y.subAt == len)
  }

  lemma IdleRecord(app: App, s: State, t: nat, s': State)
    requires HistoryOk(app, s) && Frame(s, t, t, s') && Progress(s') == Progress(s) && s.task[t].ready == NoTask
    requires s.pc[t].Idle? && !s'.pc[t].Unlock? && !s'.pc[t].RoLeave? && s'.completed == s.completed
    requires Begins(s.task[t], s'.task[t], |s.hist|)
    ensures HistoryOk(app, s')
  {
    assert SlotRecord(app, s, Progress(s).0, t);
    assert SlotRecord(app, s', Progress(s).0, t);
    Still(app, s, t, t, s');
  }

  lemma IdleFrame(s: State, t: nat, a: Act)
    requires t < |s.pc| == |s.task| && s.pc[t].Idle? && !a.Go?
    ensures var s' := StepIdle(s, t, a);
            && Frame(s, t, t, s') && s'.completed == s.completed
            && !s'.pc[t].Unlock? && !s'.pc[t].RoLeave?
            && Begins(s.task[t], s'.task[t], |s.hist|)
  {}

  lemma WaitingHistory(n: nat, app: App, s: State, t: nat, a: Act)
    requires Inv(n, app, s) && t < n && Waiting(s.pc[t]) && a.Go?
    ensures HistoryOk(app, StepWaiting(s, t))
  {
    WaitingProgress(n, app, s, t, a);
    WaitingFrame(s, t);
    WaitingRecord(app, s, t, StepWaiting(s, t));
  }

  lemma WaitingProgress(n: nat, app: App, s: State, t: nat, a: Act)
    requires LockInv(n, s) && t < n && Waiting(s.pc[t]) && a.Go?
    ensures Progress(StepWaiting(s, t)) == Progress(s)
  {
    WaitingEffect(n, app, s, t, a);
    WaitingShape(n, app, s, t, a);
    ProgressKept(n, s, t, StepWaiting(s, t));
  }

  lemma WaitingRecord(app: App, s: State, t: nat, s': State)
    requires HistoryOk(app, s) && SlotsOk(s.pc, s.task) && Frame(s, t, t, s') && Progress(s') == Progress(s)
    requires !s'.pc[t].Unlock? && !s'.pc[t].RoLeave?
    requires s'.task[t] == s.task[t] || s'.task[t] == s.task[t].(ready := NoTask)
    requires s'.completed == if s.pc[t].RwFinish? then s.completed + [UpdateDone(s, t)] else s.completed
    ensures HistoryOk(app, s')
  {
    assert SlotRecord(app, s, Progress(s).0, t);
    assert SlotOk(s.pc[t], s.task[t].ready, t);
    if s.pc[t].RwFinish? {
      CompletedAppend(app, s.completed, UpdateDone(s, t), s.pub, s.hist);
    }
    assert SlotRecord(app, s', Progress(s).0, t);
    Still(app, s, t, t, s');
  }

  lemma WaitingFrame(s: State, t: nat)
    requires t < |s.pc| == |s.task| == |s.batch| && Waiting(s.pc[t])
    ensures var s' := StepWaiting(s, t);
            && Frame(s, t, t, s') && !s'.pc[t].Unlock? && !s'.pc[t].RoLeave?
            && (s'.task[t] == s.task[t] || s'.task[t] == s.task[t].(ready := NoTask))
            && s'.completed == if s.pc[t].RwFinish? then s.completed + [UpdateDone(s, t)] else s.completed
  {}

  lemma CollectingHistory(n: nat, app: App, s: State, t: nat, a: Act)
    requires Inv(n, app, s) && t < n && Collecting(s.pc[t]) && a.Go?
    ensures HistoryOk(app, StepCollecting(n, s, t))
  {
    CollectingProgress(n, app, s, t, a);
    var i := CollectingFrame(n, s, t);
    CollectingRecord(app, s, t, i, StepCollecting(n, s, t));
  }

  lemma CollectingProgress(n: nat, app: App, s: State, t: nat, a: Act)
    requires LockInv(n, s) && t < n && Collecting(s.pc[t]) && a.Go?
    ensures Progress(StepCollecting(n, s, t)) == Progress(s) == (0, 0)
    ensures HolderPc(s) == s.pc[t]
  {
    CollectingEffect(n, app, s, t, a);
    CollectingShape(n, app, s, t, a);
    ProgressKept(n, s, t, StepCollecting(n, s, t));
    HolderAfter(n, s, t, StepCollecting(n, s, t));
  }

  lemma CollectingRecord(app: App, s: State, t: nat, i: nat, s': State)
    requires HistoryOk(app, s) && t < |s.pc| && MarkOk(s.pc[t], s.task)
    requires Frame(s, t, i, s') && Progress(s') == Progress(s) == (0, 0) && s'.completed == s.completed
    requires Collecting(s'.pc[t]) || s'.pc[t] == Exec(0)
    requires s'.task[i] == s.task[i] ||
             (s.pc[t] == Mark(i) && s'.task[i] == s.task[i].(ready := Started, pos := s'.task[i].pos))
    ensures HistoryOk(app, s')
  {
    assert SlotRecord(app, s, 0, t);
    assert SlotRecord(app, s, 0, i);
    assert SlotRecord(app, s', 0, i);
    Still(app, s, t, i, s');
  }

  lemma CollectingFrame(n: nat, s: State, t: nat) returns (i: nat)
    requires Shaped(n, s) && t < n && Collecting(s.pc[t])
    ensures var s' := StepCollecting(n, s, t);
            && i < n && Frame(s, t, i, s') && s'.completed == s.completed
            && (Collecting(s'.pc[t]) || s'.pc[t] == Exec(0))
            && (s'.task[i] == s.task[i] ||
                (s.pc[t] == Mark(i) && s'.task[i] == s.task[i].(ready := Started, pos := |s.batch[t]|)))
  {
    i := if s.pc[t].Mark? then s.pc[t].i else t;
  }

  lemma ExecuteHistory(n: nat, app: App, s: State, t: nat, a: Act)
    requires Inv(n, app, s) && t < n && s.pc[t].Exec? && a.Go? && s.pc[t].j < |s.batch[t]|
    ensures HistoryOk(app, StepExecuting(n, app, s, t, a))
  {
    ExecuteProgress(n, app, s, t, a);
    ExecuteFrame(n, app, s, t, a);
    ExecuteRecord(app, s, t, StepExecuting(n, app, s, t, a));
  }

  lemma ExecuteProgress(n: nat, app: App, s: State, t: nat, a: Act)
    requires LockInv(n, s) && t < n && s.pc[t].Exec? && a.Go? && s.pc[t].j < |s.batch[t]|
    ensures HolderPc(s) == s.pc[t] && HolderBatch(s) == s.batch[t]
    ensures Progress(StepExecuting(n, app, s, t, a)) == (s.pc[t].j + 1, s.pc[t].j + 1)
  {
    ExecutingEffect(n, app, s, t, a);
    ExecutingShape(n, app, s, t, a);
    HolderAfter(n, s, t, StepExecuting(n, app, s, t, a));
  }

  lemma ExecuteRecord(app: App, s: State, t: nat, s': State)
    requires HistoryOk(app, s) && t < |s.pc| == |s.batch| && s.pc[t].Exec? && s.pc[t].j < |s.batch[t]|
    requires HolderPc(s) == s.pc[t] && HolderBatch(s) == s.batch[t]
    requires TasksOk(s.pc[t], s.batch[t], s.pc, s.task) && s.batch[t][s.pc[t].j] < |s.task|
    requires var i := s.batch[t][s.pc[t].j];
             var r := app.exec(s.mem, s.task[i].cmd);
             && s'.pc == s.pc[t := Exec(s.pc[t].j + 1)] && s'.batch == s.batch
             && s'.task == s.task[i := s.task[i].(resp := r.1, lin := Some(|s.hist|))]
             && s'.hist == s.hist + [Op(i, s.task[i].k, s.task[i].cmd)]
             && s'.mem == r.0 && s'.pub == s.pub && s'.completed == s.completed
             && Progress(s') == (s.pc[t].j + 1, s.pc[t].j + 1)
    ensures HistoryOk(app, s')
  {
    var j, b := s.pc[t].j, s.batch[t];
    var i := b[j];
    var op := Op(i, s.task[i].k, s.task[i].cmd);
    NextInBatch(app, s.pc, s.task, b, t, s.pub, s.hist);
    RecordsExecuted(app, s.pc, s.task, j, s.pub, s.hist, t, s'.pc[t], i, s'.task[i], s.pc[t], b);
    HistExecuted(s.task, s.hist, i, s'.task[i]);
    CompletedGrow(app, s.completed, s.pub, s.hist, op);
    FoldPrefix(app, s.hist, op, 0);
  }

  /** The next request of the batch is collected and not yet executed. */
  lemma NextInBatch(app: App, pc: seq<Pc>, task: seq<Task>, b: seq<nat>, t: nat, pub: nat, hist: seq<Op>)
    requires t < |pc| && pc[t].Exec? && pc[t].j < |b| && TasksOk(pc[t], b, pc, task)
    requires RecordsOk(app, pc, task, pc[t].j, pub, hist)
    ensures var i := b[pc[t].j];
            i < |task| && task[i].ready == Started && task[i].pos == pc[t].j && task[i].lin.None? && !pc[i].RoLeave?
  {
    var i := b[pc[t].j];
    assert BatchAt(b, task, pc[t].j);
    assert SlotOk(pc[i], task[i].ready, i);
    assert RecordOk(app, task[i], i, pc[i], pc[t].j, pub, hist);
  }

  lemma ExecuteFrame(n: nat, app: App, s: State, t: nat, a: Act)
    requires Shaped(n, s) && t < n && s.pc[t].Exec? && a.Go? && s.pc[t].j < |s.batch[t]|
    ensures var s', i := StepExecuting(n, app, s, t, a), s.batch[t][s.pc[t].j];
            var r := app.exec(s.mem, s.task[i].cmd);
            && s'.pc == s.pc[t := Exec(s.pc[t].j + 1)] && s'.batch == s.batch
            && s'.task == s.task[i := s.task[i].(resp := r.1, lin := Some(|s.hist|))]
            && s'.hist == s.hist + [Op(i, s.task[i].k, s.task[i].cmd)]
            && s'.mem == r.0 && s'.pub == s.pub && s'.completed == s.completed
  {}

  lemma ExecutingHistory(n: nat, app: App, s: State, t: nat, a: Act)
    requires Inv(n, app, s) && t < n && Executing(s.pc[t]) && Enabled(s, t, a)
    ensures HistoryOk(app, StepExecuting(n, app, s, t, a))
  {
    if s.pc[t].Exec? && a.Go? && s.pc[t].j < |s.batch[t]| {
      ExecuteHistory(n, app, s, t, a);
    } else if s.pc[t].StopPublish? {
      PublishHistory(n, app, s, t, a);
    } else {
      BetweenFrame(n, app, s, t, a);
      BetweenProgress(n, app, s, t, a);
      BetweenRecord(app, s, t, StepExecuting(n, app, s, t, a));
    }
  }

  lemma BetweenProgress(n: nat, app: App, s: State, t: nat, a: Act)
    requires LockInv(n, s) && t < n && Executing(s.pc[t]) && Enabled(s, t, a)
    requires !(s.pc[t].Exec? && a.Go? && s.pc[t].j < |s.batch[t]|) && !s.pc[t].StopPublish?
    ensures Progress(StepExecuting(n, app, s, t, a)) == Progress(s)
  {
    ExecutingEffect(n, app, s, t, a);
    ExecutingShape(n, app, s, t, a);
    BetweenFrame(n, app, s, t, a);
    ProgressKept(n, s, t, StepExecuting(n, app, s, t, a));
  }

  lemma BetweenRecord(app: App, s: State, t: nat, s': State)
    requires HistoryOk(app, s) && Frame(s, t, t, s') && Progress(s') == Progress(s)
    requires s'.task == s.task && s'.completed == s.completed && !s'.pc[t].Unlock? && !s'.pc[t].RoLeave?
    ensures HistoryOk(app, s')
  {
    assert SlotRecord(app, s, Progress(s).0, t);
    assert SlotRecord(app, s', Progress(s).0, t);
    Still(app, s, t, t, s');
  }

  lemma BetweenFrame(n: nat, app: App, s: State, t: nat, a: Act)
    requires Shaped(n, s) && t < n && Executing(s.pc[t]) && Enabled(s, t, a)
    requires !(s.pc[t].Exec? && a.Go? && s.pc[t].j < |s.batch[t]|) && !s.pc[t].StopPublish?
    ensures var s' := StepExecuting(n, app, s, t, a);
            && Frame(s, t, t, s') && s'.task == s.task && s'.completed == s.completed && s'.batch == s.batch
            && Executed(s.pc[t], s.batch[t]) == Executed(s'.pc[t], s.batch[t])
            && Unpublished(s.pc[t], s.batch[t]) == Unpublished(s'.pc[t], s.batch[t])
            && HoldsLock(s'.pc[t]) && !s'.pc[t].Unlock? && !s'.pc[t].RoLeave?
  {
    assert PcInRange(s.pc[t], n, s.batch[t]);
  }

  lemma PublishHistory(n: nat, app: App, s: State, t: nat, a: Act)
    requires Inv(n, app, s) && t < n && s.pc[t].StopPublish?
    ensures HistoryOk(app, StepExecuting(n, app, s, t, a))
  {
    PublishProgress(n, app, s, t, a);
    PublishRecord(app, s, t, StepExecuting(n, app, s, t, a));
  }

  lemma PublishProgress(n: nat, app: App, s: State, t: nat, a: Act)
    requires LockInv(n, s) && t < n && s.pc[t].StopPublish?
    ensures var s' := StepExecuting(n, app, s, t, a);
            && HolderPc(s) == StopPublish && HolderBatch(s) == s.batch[t]
            && HolderPc(s') == StopBack && HolderBatch(s') == s.batch[t]
            && s'.pc == s.pc[t := StopBack] && s'.task == s.task && s'.hist == s.hist && s'.mem == s.mem
            && s'.pub == |s.hist| && s'.completed == s.completed
  {
    ExecutingEffect(n, app, s, t, a);
    ExecutingShape(n, app, s, t, a);
    HolderAfter(n, s, t, StepExecuting(n, app, s, t, a));
  }

  lemma PublishRecord(app: App, s: State, t: nat, s': State)
    requires HistoryOk(app, s) && t < |s.pc| && HolderPc(s) == StopPublish
    requires HolderPc(s') == StopBack && HolderBatch(s') == HolderBatch(s)
    requires s'.pc == s.pc[t := StopBack] && s'.task == s.task && s'.hist == s.hist && s'.mem == s.mem
    requires s'.pub == |s.hist| && s'.completed == s.completed
    ensures HistoryOk(app, s')
  {
    Published(app, s.pc, s.task, |HolderBatch(s)|, s.pub, s.hist, s.completed, t, StopBack);
  }

  lemma FinishingHistory(n: nat, app: App, s: State, t: nat, a: Act)
    requires Inv(n, app, s) && t < n && Finishing(s.pc[t]) && a.Go?
    ensures HistoryOk(app, StepFinishing(n, s, t))
  {
    if s.pc[t].Unlock? {
      UnlockHistory(n, app, s, t);
    } else {
      FinishingProgress(n, app, s, t, a);
      var i := FinishingFrame(n, s, t);
      FinishingRecord(app, s, t, i, StepFinishing(n, s, t));
    }
  }

  lemma FinishingProgress(n: nat, app: App, s: State, t: nat, a: Act)
    requires LockInv(n, s) && t < n && (s.pc[t].Finish? || s.pc[t].ClearSelf?) && a.Go?
    ensures Progress(StepFinishing(n, s, t)) == Progress(s) == (|s.batch[t]|, 0)
    ensures HolderPc(s) == s.pc[t] && HolderBatch(s) == s.batch[t]
  {
    var i := FinishingFrame(n, s, t);
    FinishingEffect(n, app, s, t, a);
    FinishingShape(n, app, s, t, a);
    ProgressKept(n, s, t, StepFinishing(n, s, t));
    HolderAfter(n, s, t, StepFinishing(n, s, t));
  }

  lemma FinishingRecord(app: App, s: State, t: nat, i: nat, s': State)
    requires HistoryOk(app, s) && Frame(s, t, i, s') && t < |s.batch| && s'.completed == s.completed
    requires Finishing(s'.pc[t])
    requires HolderPc(s) == s.pc[t] && HolderBatch(s) == s.batch[t] && TasksOk(s.pc[t], s.batch[t], s.pc, s.task)
    requires Progress(s') == Progress(s) == (|s.batch[t]|, 0)
    requires s.pc[t].Finish? || s.pc[t].ClearSelf?
    requires s.pc[t].Finish? && s.pc[t].j < |s.batch[t]| ==>
               i == s.batch[t][s.pc[t].j] && s'.task[i] == s.task[i].(ready := Done) && s'.pc[t].Finish?
    requires s.pc[t].Finish? && s.pc[t].j >= |s.batch[t]| ==>
               i == t && s'.task[i] == s.task[i] && s'.pc[t].ClearSelf?
    requires s.pc[t].ClearSelf? ==> i == t && s'.task[i] == s.task[i].(ready := NoTask) && s'.pc[t].Unlock?
    ensures HistoryOk(app, s')
  {
    if s.pc[t].Finish? && s.pc[t].j < |s.batch[t]| {
      assert BatchAt(s.batch[t], s.task, s.pc[t].j);
    }
    assert SlotRecord(app, s, |s.batch[t]|, t);
    assert SlotRecord(app, s, |s.batch[t]|, i);
    assert SlotOk(s.pc[t], s.task[t].ready, t);
    assert SlotOk(s.pc[i], s.task[i].ready, i);
    assert SlotRecord(app, s', |s.batch[t]|, i);
    assert SlotRecord(app, s', |s.batch[t]|, t);
    Still(app, s, t, i, s');
  }

  lemma FinishingFrame(n: nat, s: State, t: nat) returns (i: nat)
    requires Shaped(n, s) && t < n && (s.pc[t].Finish? || s.pc[t].ClearSelf?)
    ensures var s' := StepFinishing(n, s, t);
            && i < n && Frame(s, t, i, s') && s'.completed == s.completed && s'.batch == s.batch
            && Finishing(s'.pc[t])
            && (s.pc[t].Finish? && s.pc[t].j < |s.batch[t]| ==>
                  i == s.batch[t][s.pc[t].j] && s'.task[i] == s.task[i].(ready := Done) && s'.pc[t].Finish?)
            && (s.pc[t].Finish? && s.pc[t].j == |s.batch[t]| ==>
                  i == t && s'.task[i] == s.task[i] && s'.pc[t].ClearSelf?)
            && (s.pc[t].ClearSelf? ==> i == t && s'.task[i] == s.task[i].(ready := NoTask) && s'.pc[t].Unlock?)
  {
    assert PcInRange(s.pc[t], n, s.batch[t]);
    i := if s.pc[t].Finish? && s.pc[t].j < |s.batch[t]| then s.batch[t][s.pc[t].j] else t;
  }

  lemma UnlockHistory(n: nat, app: App, s: State, t: nat)
    requires Inv(n, app, s) && t < n && s.pc[t].Unlock?
    ensures HistoryOk(app, StepFinishing(n, s, t))
  {
    UnlockProgress(n, app, s, t);
    SlotOf(n, s, t);
    UnlockRecord(app, s, t, StepFinishing(n, s, t));
  }

  lemma UnlockProgress(n: nat, app: App, s: State, t: nat)
    requires LockInv(n, s) && t < n && s.pc[t].Unlock?
    ensures var s' := StepFinishing(n, s, t);
            && HolderPc(s) == Unlock && HolderPc(s') == Idle && HolderBatch(s') == []
            && s'.pc == s.pc[t := Idle] && s'.task == s.task && s'.hist == s.hist && s'.mem == s.mem
            && s'.pub == s.pub && s'.completed == s.completed + [UpdateDone(s, t)]
  {
    FinishingEffect(n, app, s, t, Go);
    FinishingShape(n, app, s, t, Go);
    HolderAfter(n, s, t, StepFinishing(n, s, t));
  }

  lemma UnlockRecord(app: App, s: State, t: nat, s': State)
    requires HistoryOk(app, s) && t < |s.pc| == |s.task| && s.pc[t].Unlock? && s.task[t].ready == NoTask
    requires StartedOk(HolderPc(s), HolderBatch(s), s.task)
    requires HolderPc(s) == Unlock && HolderPc(s') == Idle && HolderBatch(s') == []
    requires s'.pc == s.pc[t := Idle] && s'.task == s.task && s'.hist == s.hist && s'.mem == s.mem
    requires s'.pub == s.pub && s'.completed == s.completed + [UpdateDone(s, t)]
    ensures HistoryOk(app, s')
  {
    assert SlotRecord(app, s, |HolderBatch(s)|, t);
    RecordsKept(app, s.pc, s.task, |HolderBatch(s)|, 0, s.pub, s.hist, t, Idle, t, s.task[t]);
    CompletedAppend(app, s.completed, UpdateDone(s, t), s.pub, s.hist);
    assert s'.task == s.task[t := s.task[t]];
  }

  /** A reader past its test sees only published history. */
  lemma ReaderSeesPublished(n: nat, app: App, s: State, t: nat)
    requires Inv(n, app, s) && t < n && InRead(s.pc[t])
    ensures s.pub == |s.hist|
  {
    if s.holder.Some? {
      assert !Passed(s.pc[s.holder.value], t);
      assert HoldsLock(s.pc[s.holder.value]);
    }
  }

  lemma ReadingHistory(n: nat, app: App, s: State, t: nat, a: Act)
    requires Inv(n, app, s) && t < n && Reading(s.pc[t]) && a.Go?
    ensures HistoryOk(app, StepReading(app, s, t))
  {
    ReaderReady(n, app, s, t);
    ReadingProgress(n, app, s, t, a);
    ReadingFrame(app, s, t);
    ReadingRecord(app, s, t, StepReading(app, s, t));
  }

  lemma ReaderReady(n: nat, app: App, s: State, t: nat)
    requires Inv(n, app, s) && t < n && Reading(s.pc[t])
    ensures s.task[t].ready == NoTask && (s.pc[t].RoRead? ==> s.pub == |s.hist|)
  {
    SlotOf(n, s, t);
    if s.pc[t].RoRead? {
      ReaderSeesPublished(n, app, s, t);
    }
  }

  lemma ReadingProgress(n: nat, app: App, s: State, t: nat, a: Act)
    requires LockInv(n, s) && t < n && Reading(s.pc[t])
    ensures Progress(StepReading(app, s, t)) == Progress(s)
  {
    ReadingEffect(n, app, s, t, a);
    ReadingShape(n, app, s, t, a);
    ReadingFrame(app, s, t);
    ProgressKept(n, s, t, StepReading(app, s, t));
  }

  /** What a step of a reader does to its slot and to the completed commands. */
  ghost predicate Reads(app: App, s: State, t: nat, s': State)
    requires t < |s.pc| == |s.task| == |s'.pc| == |s'.task|
  {
    && !s'.pc[t].Unlock?
    && (s.pc[t].RoRead? ==>
          && s'.pc[t] == RoLeave(|s.hist|)
          && s'.task[t] == s.task[t].(resp := app.query(s.mem, s.task[t].cmd)))
    && (!s.pc[t].RoRead? ==> !s'.pc[t].RoLeave? && s'.task[t] == s.task[t])
    && s'.completed == if s.pc[t].RoLeave? then s.completed + [ReadDone(s, t, s.pc[t].at)] else s.completed
  }

  lemma ReadingRecord(app: App, s: State, t: nat, s': State)
    requires HistoryOk(app, s) && |s.pc| == |s.task| && Frame(s, t, t, s') && Progress(s') == Progress(s)
    requires Reading(s.pc[t]) && s.task[t].ready == NoTask && Reads(app, s, t, s')
    requires s.pc[t].RoRead? ==> s.pub == |s.hist|
    ensures HistoryOk(app, s')
  {
    assert SlotRecord(app, s, Progress(s).0, t);
    assert s.hist[..|s.hist|] == s.hist;
    if s.pc[t].RoLeave? {
      CompletedAppend(app, s.completed, ReadDone(s, t, s.pc[t].at), s.pub, s.hist);
    }
    assert SlotRecord(app, s', Progress(s).0, t);
    Still(app, s, t, t, s');
  }

  lemma ReadingFrame(app: App, s: State, t: nat)
    requires t < |s.pc| == |s.task| == |s.readers| && Reading(s.pc[t])
    ensures var s' := StepReading(app, s, t);
            Frame(s, t, t, s') && s'.batch == s.batch && !HoldsLock(s'.pc[t]) && Reads(app, s, t, s')
  {
    if s.pc[t].RoMark? || s.pc[t].RoTest? {
      AskingFrame(app, s, t);
    } else if s.pc[t].RoUnmark? || s.pc[t].RoSpin? {
      SpinningFrame(app, s, t);
    } else {
      LeavingFrame(app, s, t);
    }
  }

  lemma AskingFrame(app: App, s: State, t: nat)
    requires t < |s.pc| == |s.task| == |s.readers| && (s.pc[t].RoMark? || s.pc[t].RoTest?)
    ensures var s' := StepReading(app, s, t);
            Frame(s, t, t, s') && s'.batch == s.batch && !HoldsLock(s'.pc[t]) && Reads(app, s, t, s')
  {}

  lemma SpinningFrame(app: App, s: State, t: nat)
    requires t < |s.pc| == |s.task| == |s.readers| && (s.pc[t].RoUnmark? || s.pc[t].RoSpin?)
    ensures var s' := StepReading(app, s, t);
            Frame(s, t, t, s') && s'.batch == s.batch && !HoldsLock(s'.pc[t]) && Reads(app, s, t, s')
  {}

  lemma LeavingFrame(app: App, s: State, t: nat)
    requires t < |s.pc| == |s.task| == |s.readers| && (s.pc[t].RoRead? || s.pc[t].RoLeave?)
    ensures var s' := StepReading(app, s, t);
            Frame(s, t, t, s') && s'.batch == s.batch && !HoldsLock(s'.pc[t]) && Reads(app, s, t, s')
  {}

  lemma MappingHistory(n: nat, app: App, s: State, t: nat, a: Act)
    requires Inv(n, app, s) && t < n && Mapping(s.pc[t]) && a.Go?
    ensures HistoryOk(app, StepMapping(s, t))
  {
    MappingProgress(n, app, s, t, a);
    MappingFrame(s, t);
    MappingRecord(app, s, t, StepMapping(s, t));
  }

  lemma MappingProgress(n: nat, app: App, s: State, t: nat, a: Act)
    requires LockInv(n, s) && t < n && Mapping(s.pc[t]) && a.Go?
    ensures Progress(StepMapping(s, t)) == Progress(s)
  {
    MappingEffect(n, app, s, t, a);
    MappingShape(n, app, s, t, a);
    MappingFrame(s, t);
    HolderAfter(n, s, t, StepMapping(s, t));
  }

  lemma MappingRecord(app: App, s: State, t: nat, s': State)
    requires HistoryOk(app, s) && Frame(s, t, t, s') && Progress(s') == Progress(s)
    requires s'.completed == s.completed && s'.task == s.task && (Mapping(s'.pc[t]) || s'.pc[t].Idle?)
    ensures HistoryOk(app, s')
  {
    assert SlotRecord(app, s, Progress(s).0, t);
    assert SlotRecord(app, s', Progress(s).0, t);
    Still(app, s, t, t, s');
  }

  lemma MappingFrame(s: State, t: nat)
    requires t < |s.pc| == |s.batch| == |s.task| && Mapping(s.pc[t])
    ensures var s' := StepMapping(s, t);
            && Frame(s, t, t, s') && s'.completed == s.completed && s'.task == s.task
            && (Mapping(s'.pc[t]) || s'.pc[t].Idle?)
            && (HoldsLock(s.pc[t]) == HoldsLock(s'.pc[t]) ==> s'.batch == s.batch)
  {}

  lemma StepInv(n: nat, app: App, s: State, t: nat, a: Act)
    requires Inv(n, app, s) && t < n && Enabled(s, t, a)
    ensures Inv(n, app, Step(n, app, s, t, a))
  {
    StepTaskInv(n, app, s, t, a);
    var p := s.pc[t];
    if p.Idle? {
      IdleHistory(n, app, s, t, a);
    } else if Waiting(p) {
      WaitingHistory(n, app, s, t, a);
    } else if Collecting(p) {
      CollectingHistory(n, app, s, t, a);
    } else if Executing(p) {
      ExecutingHistory(n, app, s, t, a);
    } else if Finishing(p) {
      FinishingHistory(n, app, s, t, a);
    } else if Reading(p) {
      ReadingHistory(n, app, s, t, a);
    } else {
      MappingHistory(n, app, s, t, a);
    }
  }

  ghost predicate InvUpTo(n: nat, app: App, ss: seq<State>, i: nat) {
    forall k | 0 <= k <= i && k < |ss| :: Inv(n, app, ss[k])
  }

  lemma LinkInv(n: nat, app: App, ss: seq<State>, moves: seq<Move>, i: nat)
    requires Linked(n, app, ss, moves) && i < |moves| && InvUpTo(n, app, ss, i)
    ensures InvUpTo(n, app, ss, i + 1)
  {
    assert Follows(n, app, ss[i], moves[i], ss[i + 1]);
    StepInv(n, app, ss[i], moves[i].t, moves[i].act);
  }

  lemma {:induction false} LinkedInv(n: nat, app: App, ss: seq<State>, moves: seq<Move>, i: nat)
    requires Linked(n, app, ss, moves) && i < |ss| && InvUpTo(n, app, ss, 0)
    ensures InvUpTo(n, app, ss, i)
  {
    if i > 0 {
      LinkedInv(n, app, ss, moves, i - 1);
      LinkInv(n, app, ss, moves, i - 1);
    }
  }

  /** The invariant holds in every state of every run, for any number of threads. */
  lemma RunInv(n: nat, app: App, ss: seq<State>, moves: seq<Move>, i: nat)
    requires IsRun(n, app, ss, moves) && i < |ss|
    ensures Inv(n, app, ss[i])
  {
    InitInv(n, app, ss[0]);
    LinkedInv(n, app, ss, moves, i);
  }
}
