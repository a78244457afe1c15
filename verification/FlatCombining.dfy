/**
 The writer-preference lock and the flat-combining executor, as a step machine of any number of
 threads over sequentially consistent shared words.

 Each step of a thread reads or writes at most one shared word that another thread can change
 in between, so the combiner's scan of the reader flags and its collection of requests visit
 one slot per step.  `holder`, `hist`, `pub`, `marks`, `completed` and the last four fields of a task
 record what happened; no branch looks at them.
 */
module FlatCombining {
  import opened Options

  /** The application: memory, commands and responses are arbitrary. */
  type Mem(!new)
  type Cmd(!new)
  type Resp(!new)

  datatype App = App(init: Mem, exec: (Mem, Cmd) -> (Mem, Resp), query: (Mem, Cmd) -> Resp)

  datatype Ready = NoTask | ReadyToExecute | Started | Done

  datatype Task = Task(
    ready: Ready,
    cmd: Cmd,
    resp: Resp,
    k: nat,              // how many updates this thread has submitted
    subAt: nat,          // length of the history when the current command was submitted
    lin: Option<nat>,    // where in the history update `k` was executed
    pos: nat)            // where in its combiner's batch update `k` was collected

  datatype Pc =
    | Idle
    // exec_rw_flat_combining, waiting
    | RwLoop
    | RwTestDone
    | RwTestFree
    | RwCas
    | RwAwaitDone
    | RwFinish
    // exec_rw_flat_combining, combining
    | Collect(i: nat)
    | Mark(i: nat)
    | Scan(i: nat)
    | Exec(j: nat)
    | ExecLoad(j: nat)
    | ExecPublish(j: nat)
    | ExecBack(j: nat)
    | StopLoad
    | StopPublish
    | StopBack
    | Finish(j: nat)
    | ClearSelf
    | Unlock
    // exec_ro
    | RoMark
    | RoTest
    | RoUnmark
    | RoSpin
    | RoRead
    | RoLeave(at: nat)
    // an mmap outside a combiner session
    | MmapTest
    | MmapCas
    | MmapLoad
    | MmapPublish
    | MmapBack
    | MmapUnlock

  /** An executed update: thread, its how-manieth update, command. */
  datatype Op = Op(t: nat, k: nat, cmd: Cmd)

  /** A command that has returned to its caller. */
  datatype Completed = Completed(
    update: bool,
    t: nat,
    k: nat,
    cmd: Cmd,
    resp: Resp,
    subAt: nat,          // history length at submission
    lin: nat,            // the point of the history it took effect at
    retAt: nat,          // history length at return
    pubAt: nat)          // published history length at return

  datatype State = State(
    writers: nat,
    readers: seq<bool>,          // READING is true
    task: seq<Task>,
    pc: seq<Pc>,
    batch: seq<seq<nat>>,        // each thread's ready_commands_indexes
    mem: Mem,
    holder: Option<nat>,
    hist: seq<Op>,
    pub: nat,
    marks: seq<nat>,             // the history lengths at which a whole batch was published
    completed: seq<Completed>)

  /** Choices a thread has where the code leaves them open. */
  datatype Act = Submit(cmd: Cmd) | Query(cmd: Cmd) | Mmap | Go

  /** The application after a history of updates, executed one after the other. */
  function Fold(app: App, hist: seq<Op>): Mem {
    if hist == [] then app.init
    else app.exec(Fold(app, hist[..|hist| - 1]), hist[|hist| - 1].cmd).0
  }

  /** The pc points at slots that exist. */
  predicate PcInRange(p: Pc, n: nat, batch: seq<nat>) {
    match p
    case Collect(i) => i <= n
    case Mark(i) => i < n
    case Scan(i) => i <= n
    case Exec(j) => j <= |batch|
    case ExecLoad(j) => j <= |batch|
    case ExecPublish(j) => j <= |batch|
    case ExecBack(j) => j <= |batch|
    case Finish(j) => j <= |batch|
    case _ => true
  }

  predicate Shaped(n: nat, s: State) {
    && |s.readers| == |s.task| == |s.pc| == |s.batch| == n
    && (forall t | 0 <= t < n :: PcInRange(s.pc[t], n, s.batch[t]))
    && (forall t, i | 0 <= t < n && 0 <= i < |s.batch[t]| :: s.batch[t][i] < n)
  }

  ghost predicate Init(n: nat, app: App, s: State) {
    && Shaped(n, s)
    && s.writers == 0 && s.holder == None && s.hist == [] && s.pub == 0 && s.marks == [0] && s.completed == []
    && s.mem == app.init
    && (forall t | 0 <= t < n :: s.pc[t] == Idle && !s.readers[t])
    && (forall t | 0 <= t < n ::
         s.task[t].ready == NoTask && s.task[t].k == 0 && s.task[t].subAt == 0 && s.task[t].lin == None)
  }

  predicate Enabled(s: State, t: nat, a: Act)
    requires t < |s.pc|
  {
    match s.pc[t]
    case Idle => !a.Go?
    case Exec(_) => a.Go? || a.Mmap?
    case _ => a.Go?
  }

  function At(s: State, t: nat, p: Pc): State
    requires t < |s.pc|
  {
    s.(pc := s.pc[t := p])
  }

  function WithTask(s: State, i: nat, x: Task): State
    requires i < |s.task|
  {
    s.(task := s.task[i := x])
  }

  /** The record of thread `t` returning from an update. */
  function UpdateDone(s: State, t: nat): Completed
    requires t < |s.task|
  {
    var x := s.task[t];
    Completed(true, t, x.k, x.cmd, x.resp, x.subAt, if x.lin.Some? then x.lin.value else 0, |s.hist|, s.pub)
  }

  /** The record of thread `t` returning from a read that looked at history point `at`. */
  function ReadDone(s: State, t: nat, at: nat): Completed
    requires t < |s.task|
  {
    var x := s.task[t];
    Completed(false, t, x.k, x.cmd, x.resp, x.subAt, at, |s.hist|, s.pub)
  }

  /** processRequestCallBack on the request of thread `i`: memory, response and history. */
  function Execute(app: App, s: State, i: nat): State
    requires i < |s.task|
  {
    var (m, r) := app.exec(s.mem, s.task[i].cmd);
    s.(mem := m,
       task := s.task[i := s.task[i].(resp := r, lin := Some(|s.hist|))],
       hist := s.hist + [Op(i, s.task[i].k, s.task[i].cmd)])
  }

  function TakeLock(s: State, t: nat, p: Pc): State
    requires t < |s.pc| == |s.batch|
  {
    At(s, t, p).(writers := 1, holder := Some(t), batch := s.batch[t := []])
  }

  function ReleaseLock(s: State, t: nat): State
    requires t < |s.pc|
  {
    At(s, t, Idle).(writers := 0, holder := None)
  }

  /** A thread picks its next command. */
  function StepIdle(s: State, t: nat, a: Act): State
    requires t < |s.pc| == |s.task| && !a.Go?
  {
    var x := s.task[t];
    match a
    case Submit(c) =>
      At(WithTask(s, t, x.(ready := ReadyToExecute, cmd := c, k := x.k + 1, subAt := |s.hist|, lin := None)), t, RwLoop)
    case Query(c) => At(WithTask(s, t, x.(cmd := c, subAt := |s.hist|)), t, RoMark)
    case Mmap => At(s, t, MmapTest)
  }

  predicate Waiting(p: Pc) {
    p.RwLoop? || p.RwTestDone? || p.RwTestFree? || p.RwCas? || p.RwAwaitDone? || p.RwFinish?
  }

  /** exec_rw_flat_combining while somebody else may be the combiner. */
  function StepWaiting(s: State, t: nat): State
    requires t < |s.pc| == |s.task| == |s.batch| && Waiting(s.pc[t])
  {
    var x := s.task[t];
    match s.pc[t]
    case RwLoop => At(s, t, if x.ready == Started then RwAwaitDone else RwTestDone)
    case RwTestDone => At(s, t, if x.ready == Done then RwFinish else RwTestFree)
    case RwTestFree => At(s, t, if s.writers == 0 then RwCas else RwLoop)
    case RwCas => if s.writers == 0 then TakeLock(s, t, Collect(0)) else At(s, t, RwLoop)
    case RwAwaitDone => At(s, t, if x.ready == Done then RwFinish else RwAwaitDone)
    case RwFinish =>
      At(WithTask(s, t, x.(ready := NoTask)), t, Idle).(completed := s.completed + [UpdateDone(s, t)])
  }

  predicate Collecting(p: Pc) {
    p.Collect? || p.Mark? || p.Scan?
  }

  /** The combiner collects requests until one scan finds no reader. */
  function StepCollecting(n: nat, s: State, t: nat): State
    requires Shaped(n, s) && t < n && Collecting(s.pc[t])
  {
    assert PcInRange(s.pc[t], n, s.batch[t]);
    match s.pc[t]
    case Collect(i) =>
      At(s, t, if i == n then Scan(0) else if s.task[i].ready == ReadyToExecute then Mark(i) else Collect(i + 1))
    case Mark(i) =>
      At(WithTask(s, i, s.task[i].(ready := Started, pos := |s.batch[t]|)), t, Collect(i + 1))
        .(batch := s.batch[t := s.batch[t] + [i]])
    case Scan(i) =>
      At(s, t, if i == n then Exec(0) else if s.readers[i] then Collect(0) else Scan(i + 1))
  }

  predicate Executing(p: Pc) {
    p.Exec? || p.ExecLoad? || p.ExecPublish? || p.ExecBack? || p.StopLoad? || p.StopPublish? || p.StopBack?
  }

  /** The combiner executes its batch and publishes the log of it. */
  function StepExecuting(n: nat, app: App, s: State, t: nat, a: Act): State
    requires Shaped(n, s) && t < n && Executing(s.pc[t])
  {
    assert PcInRange(s.pc[t], n, s.batch[t]);
    match s.pc[t]
    case Exec(j) =>
      if a.Mmap? then At(s, t, ExecLoad(j))
      else if j == |s.batch[t]| then At(s, t, StopLoad)
      else At(Execute(app, s, s.batch[t][j]), t, Exec(j + 1))
    case ExecLoad(j) => At(s, t, ExecPublish(j))
    case ExecPublish(j) => At(s, t, ExecBack(j))
    case ExecBack(j) => At(s, t, Exec(j))
    case StopLoad => At(s, t, StopPublish)
    case StopPublish => At(s, t, StopBack).(pub := |s.hist|, marks := s.marks + [|s.hist|])
    case StopBack => At(s, t, Finish(0))
  }

  predicate Finishing(p: Pc) {
    p.Finish? || p.ClearSelf? || p.Unlock?
  }

  /** The combiner acknowledges its batch and releases the lock. */
  function StepFinishing(n: nat, s: State, t: nat): State
    requires Shaped(n, s) && t < n && Finishing(s.pc[t])
  {
    assert PcInRange(s.pc[t], n, s.batch[t]);
    match s.pc[t]
    case Finish(j) =>
      if j == |s.batch[t]| then At(s, t, ClearSelf)
      else At(WithTask(s, s.batch[t][j], s.task[s.batch[t][j]].(ready := Done)), t, Finish(j + 1))
    case ClearSelf => At(WithTask(s, t, s.task[t].(ready := NoTask)), t, Unlock)
    case Unlock => ReleaseLock(s, t).(completed := s.completed + [UpdateDone(s, t)])
  }

  predicate Reading(p: Pc) {
    p.RoMark? || p.RoTest? || p.RoUnmark? || p.RoSpin? || p.RoRead? || p.RoLeave?
  }

  /** exec_ro: readLock, the request, readUnlock. */
  function StepReading(app: App, s: State, t: nat): State
    requires t < |s.pc| == |s.task| == |s.readers| && Reading(s.pc[t])
  {
    match s.pc[t]
    case RoMark => At(s, t, RoTest).(readers := s.readers[t := true])
    case RoTest => At(s, t, if s.writers == 0 then RoRead else RoUnmark)
    case RoUnmark => At(s, t, RoSpin).(readers := s.readers[t := false])
    case RoSpin => At(s, t, if s.writers == 0 then RoMark else RoSpin)
    case RoRead => At(WithTask(s, t, s.task[t].(resp := app.query(s.mem, s.task[t].cmd))), t, RoLeave(|s.hist|))
    case RoLeave(at) =>
      At(s, t, Idle).(readers := s.readers[t := false], completed := s.completed + [ReadDone(s, t, at)])
  }

  predicate Mapping(p: Pc) {
    p.MmapTest? || p.MmapCas? || p.MmapLoad? || p.MmapPublish? || p.MmapBack? || p.MmapUnlock?
  }

  /** The mmap hook of a thread that is not combining: take the writer word, log, release. */
  function StepMapping(s: State, t: nat): State
    requires t < |s.pc| == |s.batch| && Mapping(s.pc[t])
  {
    match s.pc[t]
    case MmapTest => At(s, t, if s.writers == 0 then MmapCas else MmapTest)
    case MmapCas => if s.writers == 0 then TakeLock(s, t, MmapLoad) else At(s, t, MmapTest)
    case MmapLoad => At(s, t, MmapPublish)
    case MmapPublish => At(s, t, MmapBack)
    case MmapBack => At(s, t, MmapUnlock)
    case MmapUnlock => ReleaseLock(s, t)
  }

  /** One step of thread `t`. */
  function Step(n: nat, app: App, s: State, t: nat, a: Act): State
    requires Shaped(n, s) && t < n && Enabled(s, t, a)
  {
    var p := s.pc[t];
    if p.Idle? then StepIdle(s, t, a)
    else if Waiting(p) then StepWaiting(s, t)
    else if Collecting(p) then StepCollecting(n, s, t)
    else if Executing(p) then StepExecuting(n, app, s, t, a)
    else if Finishing(p) then StepFinishing(n, s, t)
    else if Reading(p) then StepReading(app, s, t)
    else StepMapping(s, t)
  }

  datatype Move = Move(t: nat, act: Act)

  ghost predicate Follows(n: nat, app: App, s: State, m: Move, s': State) {
    && Shaped(n, s) && m.t < n && Enabled(s, m.t, m.act)
    && s' == Step(n, app, s, m.t, m.act)
  }

  /** A run of `n` threads under any schedule. */
  ghost predicate IsRun(n: nat, app: App, ss: seq<State>, moves: seq<Move>) {
    Linked(n, app, ss, moves) && Init(n, app, ss[0])
  }

  ghost predicate Linked(n: nat, app: App, ss: seq<State>, moves: seq<Move>) {
    && |ss| == |moves| + 1
    && forall i {:trigger moves[i]} | 0 <= i < |moves| :: Follows(n, app, ss[i], moves[i], ss[i + 1])
  }
}
