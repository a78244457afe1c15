/**
 Nothing is stuck: from every reachable state each call can be brought to its return.
 */
module CombiningProgress {
  import opened Options
  import opened FlatCombining
  import opened CombiningLock
  import opened CombiningTasks
  import opened CombiningHistory
  import opened CombiningCalls

  // ---------------------------------------------------------------- continuations

  /** The moves lead from `s` to `s'`. */
  ghost predicate Leads(n: nat, app: App, s: State, moves: seq<Move>, s': State) {
    exists ss :: Linked(n, app, ss, moves) && ss[0] == s && ss[|moves|] == s'
  }

  lemma LeadsNowhere(n: nat, app: App, s: State)
    ensures Leads(n, app, s, [], s)
  {
    assert Linked(n, app, [s], []);
  }

  lemma TraceOn(n: nat, app: App, ss: seq<State>, moves: seq<Move>, a: Move, s': State)
    requires Linked(n, app, ss, moves) && Follows(n, app, ss[|moves|], a, s')
    ensures Linked(n, app, ss + [s'], moves + [a])
  {
    var ss', moves' := ss + [s'], moves + [a];
    forall i {:trigger moves'[i]} | 0 <= i < |moves'| ensures Follows(n, app, ss'[i], moves'[i], ss'[i + 1]) {
      if i < |moves| {
        assert moves'[i] == moves[i] && ss'[i] == ss[i] && ss'[i + 1] == ss[i + 1];
      }
    }
  }

  lemma LeadsOn(n: nat, app: App, s: State, moves: seq<Move>, m: State, a: Move, s': State)
    requires Leads(n, app, s, moves, m) && Follows(n, app, m, a, s')
    ensures Leads(n, app, s, moves + [a], s')
  {
    var ss :| Linked(n, app, ss, moves) && ss[0] == s && ss[|moves|] == m;
    TraceOn(n, app, ss, moves, a, s');
    assert (ss + [s'])[0] == s && (ss + [s'])[|moves + [a]|] == s';
  }

  /** A state of a run. */
  ghost predicate Reachable(n: nat, app: App, s: State) {
    exists ss, moves :: IsRun(n, app, ss, moves) && ss[|moves|] == s
  }

  lemma ReachableInv(n: nat, app: App, s: State)
    requires Reachable(n, app, s)
    ensures Inv(n, app, s)
  {
    var ss, moves :| IsRun(n, app, ss, moves) && ss[|moves|] == s;
    RunInv(n, app, ss, moves, |moves|);
  }

  lemma ReachableStep(n: nat, app: App, s: State, a: Move, s': State)
    requires Reachable(n, app, s) && Follows(n, app, s, a, s')
    ensures Reachable(n, app, s')
  {
    var ss, moves :| IsRun(n, app, ss, moves) && ss[|moves|] == s;
    TraceOn(n, app, ss, moves, a, s');
    assert (ss + [s'])[0] == ss[0] && (ss + [s'])[|moves + [a]|] == s';
    assert IsRun(n, app, ss + [s'], moves + [a]);
  }

  /** Calls under way are carried on from `s0` to the reachable state `s`; nobody begins one. */
  ghost predicate Path(n: nat, app: App, s0: State, moves: seq<Move>, s: State) {
    Reachable(n, app, s) && Leads(n, app, s0, moves, s) && forall i | 0 <= i < |moves| :: moves[i].act.Go?
  }

  lemma Start(n: nat, app: App, s: State)
    requires Reachable(n, app, s)
    ensures Path(n, app, s, [], s)
  {
    LeadsNowhere(n, app, s);
  }

  /** What a step of thread `t` does, in the words of lock, calls and flags. */
  ghost predicate Moved(n: nat, app: App, s: State, t: nat, s': State) {
    && Sized(n, s) && Sized(n, s') && t < n && !s.pc[t].Idle? && Shaped(n, s)
    && s' == Step(n, app, s, t, Go)
    && LockEffect(n, s, t, s') && CallEffect(s, t, Go, s')
  }

  lemma Walk(n: nat, app: App, s0: State, moves: seq<Move>, s: State, t: nat) returns (s': State)
    requires Path(n, app, s0, moves, s) && t < n && t < |s.pc| && !s.pc[t].Idle?
    ensures Moved(n, app, s, t, s') && Path(n, app, s0, moves + [Move(t, Go)], s')
  {
    s' := StepOf(n, app, s, t);
    ReachableStep(n, app, s, Move(t, Go), s');
    LeadsOn(n, app, s0, moves, s, Move(t, Go), s');
  }

  lemma StepOf(n: nat, app: App, s: State, t: nat) returns (s': State)
    requires Reachable(n, app, s) && t < n && t < |s.pc| && !s.pc[t].Idle?
    ensures Moved(n, app, s, t, s') && Follows(n, app, s, Move(t, Go), s')
  {
    ReachableInv(n, app, s);
    s' := Step(n, app, s, t, Go);
    StepShapeEffect(n, app, s, t, Go);
    StepLockEffect(n, app, s, t, Go);
    StepCall(n, app, s, t, Go);
  }

  lemma ReadingMoved(n: nat, app: App, s: State, t: nat, s': State)
    requires Moved(n, app, s, t, s') && Reading(s.pc[t])
    ensures s' == StepReading(app, s, t)
  {}

  lemma WaitingMoved(n: nat, app: App, s: State, t: nat, s': State)
    requires Moved(n, app, s, t, s') && Waiting(s.pc[t])
    ensures s' == StepWaiting(s, t)
  {}

  /** What the calls ask for stays, and what has returned has returned. */
  ghost predicate Kept(s: State, s': State) {
    && |s'.task| == |s.task| && s.completed <= s'.completed
    && forall u | 0 <= u < |s.task| :: s'.task[u].k == s.task[u].k && s'.task[u].cmd == s.task[u].cmd
  }

  lemma MovedKeeps(n: nat, app: App, s: State, t: nat, s': State)
    requires Moved(n, app, s, t, s')
    ensures Kept(s, s')
  {}

  /** Since `s` an update of thread `t` has returned, the one it was in. */
  ghost predicate UpdateReturned(s: State, t: nat, s': State) {
    && t < |s.task|
    && exists c :: |s.completed| <= c < |s'.completed| && s'.completed[c].update
                && s'.completed[c].t == t && s'.completed[c].k == s.task[t].k && s'.completed[c].cmd == s.task[t].cmd
  }

  /** A thread that leaves an update has it recorded. */
  lemma ReturnsUpdate(n: nat, app: App, s: State, t: nat, s': State)
    requires Moved(n, app, s, t, s') && s'.pc[t].Idle? && KindOf(s.pc[t]) == Updating
    ensures UpdateReturned(s, t, s')
  {
    assert s'.completed[|s.completed|].update;
  }

  lemma ReturnedLater(s0: State, s: State, t: nat, s': State)
    requires Kept(s0, s) && UpdateReturned(s, t, s')
    ensures UpdateReturned(s0, t, s')
  {}

  lemma ReturnedStill(s: State, t: nat, s1: State, s': State)
    requires UpdateReturned(s, t, s1) && Kept(s1, s')
    ensures UpdateReturned(s, t, s')
  {
    var c :| |s.completed| <= c < |s1.completed| && s1.completed[c].update
          && s1.completed[c].t == t && s1.completed[c].k == s.task[t].k && s1.completed[c].cmd == s.task[t].cmd;
    assert s'.completed[c] == s1.completed[c];
  }

  // ---------------------------------------------------------------- the lock holder

  ghost predicate Quiet(s: State) {
    forall t | 0 <= t < |s.readers| :: !s.readers[t]
  }

  /** The parts of a combiner's turn and of an mmap, in the order they are passed, backwards. */
  function Phase(p: Pc): nat {
    match p
    case Collect(_) => 6
    case Mark(_) => 6
    case Scan(_) => 5
    case Exec(_) => 4
    case ExecLoad(_) => 4
    case ExecPublish(_) => 4
    case ExecBack(_) => 4
    case StopLoad => 3
    case StopPublish => 3
    case StopBack => 3
    case Finish(_) => 2
    case _ => 1
  }

  /** How many steps are left in the part. */
  function Left(n: nat, p: Pc, len: nat): int {
    match p
    case Collect(i) => 2 * (n - i) + 1
    case Mark(i) => 2 * (n - i)
    case Scan(i) => n - i
    case Exec(j) => 4 * (len - j)
    case ExecLoad(j) => 4 * (len - j) + 3
    case ExecPublish(j) => 4 * (len - j) + 2
    case ExecBack(j) => 4 * (len - j) + 1
    case StopLoad => 2
    case StopPublish => 1
    case Finish(j) => len - j
    case ClearSelf => 1
    case MmapLoad => 3
    case MmapPublish => 2
    case MmapBack => 1
    case _ => 0
  }

  /** The holder is nearer to its unlock. */
  predicate Nearer(n: nat, p: Pc, len: nat, p': Pc, len': nat) {
    Phase(p') < Phase(p) || (Phase(p') == Phase(p) && Left(n, p', len') < Left(n, p, len))
  }

  /** With no reader inside, the step goes on, or it is the unlock. */
  ghost predicate GoesOn(n: nat, s: State, h: nat, s': State)
    requires h < |s.pc| && h < |s.batch|
  {
    && h < |s'.pc| && h < |s'.batch|
    && (s'.pc[h].Idle? || (&& HoldsLock(s'.pc[h]) && KindOf(s'.pc[h]) == KindOf(s.pc[h])
                           && Nearer(n, s.pc[h], |s.batch[h]|, s'.pc[h], |s'.batch[h]|)))
  }

  lemma CollectingGoes(n: nat, s: State, h: nat)
    requires Shaped(n, s) && h < n && Collecting(s.pc[h]) && Quiet(s)
    ensures GoesOn(n, s, h, StepCollecting(n, s, h))
  {
    assert PcInRange(s.pc[h], n, s.batch[h]);
  }

  lemma ExecutingGoes(n: nat, app: App, s: State, h: nat)
    requires Shaped(n, s) && h < n && Executing(s.pc[h])
    ensures GoesOn(n, s, h, StepExecuting(n, app, s, h, Go))
  {
    if s.pc[h].StopLoad? || s.pc[h].StopPublish? || s.pc[h].StopBack? {
      StoppingGoes(n, app, s, h);
    } else {
      RequestGoes(n, app, s, h);
    }
  }

  lemma StoppingGoes(n: nat, app: App, s: State, h: nat)
    requires Shaped(n, s) && h < n && (s.pc[h].StopLoad? || s.pc[h].StopPublish? || s.pc[h].StopBack?)
    ensures GoesOn(n, s, h, StepExecuting(n, app, s, h, Go))
  {}

  lemma RequestGoes(n: nat, app: App, s: State, h: nat)
    requires Shaped(n, s) && h < n && (s.pc[h].Exec? || s.pc[h].ExecLoad? || s.pc[h].ExecPublish? || s.pc[h].ExecBack?)
    ensures GoesOn(n, s, h, StepExecuting(n, app, s, h, Go))
  {
    assert PcInRange(s.pc[h], n, s.batch[h]);
  }

  lemma FinishingGoes(n: nat, s: State, h: nat)
    requires Shaped(n, s) && h < n && Finishing(s.pc[h])
    ensures GoesOn(n, s, h, StepFinishing(n, s, h))
  {
    assert PcInRange(s.pc[h], n, s.batch[h]);
  }

  lemma MappingGoes(n: nat, s: State, h: nat)
    requires Shaped(n, s) && h < n && Mapping(s.pc[h]) && HoldsLock(s.pc[h])
    ensures GoesOn(n, s, h, StepMapping(s, h))
  {}

  /** The step of the holder as a step of the machine. */
  lemma StepGoes(n: nat, app: App, s: State, h: nat)
    requires Shaped(n, s) && h < n && HoldsLock(s.pc[h]) && Quiet(s)
    ensures GoesOn(n, s, h, Step(n, app, s, h, Go))
  {
    if Collecting(s.pc[h]) {
      CollectingGoes(n, s, h);
    } else if Executing(s.pc[h]) {
      ExecutingGoes(n, app, s, h);
    } else if Finishing(s.pc[h]) {
      FinishingGoes(n, s, h);
    } else {
      MappingGoes(n, s, h);
    }
  }

  /** It leaves the flags alone, and its unlock leaves the lock free. */
  lemma HolderFlags(n: nat, s: State, h: nat, s': State)
    requires |s.pc| == |s.readers| == n && h < n && LockEffect(n, s, h, s') && HoldsLock(s.pc[h]) && Quiet(s)
    requires s'.pc[h].Idle? || HoldsLock(s'.pc[h])
    ensures Quiet(s') && (s'.pc[h].Idle? ==> s'.holder == None && s'.writers == 0)
  {}

  lemma HolderGoes(n: nat, app: App, s: State, h: nat, s': State)
    requires Moved(n, app, s, h, s') && HoldsLock(s.pc[h]) && Quiet(s)
    ensures GoesOn(n, s, h, s') && Quiet(s')
    ensures s'.pc[h].Idle? ==> s'.holder == None && s'.writers == 0
  {
    StepGoes(n, app, s, h);
    HolderFlags(n, s, h, s');
  }

  lemma LeftBounded(n: nat, app: App, s: State, h: nat)
    requires Reachable(n, app, s) && h < n
    ensures Sized(n, s) && Left(n, s.pc[h], |s.batch[h]|) >= 0
  {
    ReachableInv(n, app, s);
    assert PcInRange(s.pc[h], n, s.batch[h]);
  }

  /** Only `h` has moved, and it is through; the lock is free and no flag is up. */
  ghost predicate Through(s: State, h: nat, s': State) {
    && h < |s.pc| && s'.pc == s.pc[h := Idle] && Quiet(s') && s'.holder == None && s'.writers == 0 && Kept(s, s')
  }

  ghost predicate OnlyBy(moves: seq<Move>, from: nat, t: nat) {
    from <= |moves| && forall i | from <= i < |moves| :: moves[i].t == t
  }

  /** From `s` to `s1` only `t` has moved. */
  ghost predicate OneMoved(s: State, t: nat, s1: State) {
    t < |s.pc| == |s1.pc| && s1.pc == s.pc[t := s1.pc[t]] && Kept(s, s1)
  }

  lemma ThroughThen(s: State, h: nat, s1: State, s': State)
    requires OneMoved(s, h, s1) && Through(s1, h, s')
    ensures Through(s, h, s')
  {}

  lemma OnlyByThen(moves: seq<Move>, t: nat, moves': seq<Move>)
    requires moves + [Move(t, Go)] <= moves' && OnlyBy(moves', |moves| + 1, t)
    ensures moves <= moves' && OnlyBy(moves', |moves|, t)
  {}

  /** The holder moves: on, or out with its update returned. */
  lemma HolderStep(n: nat, app: App, s0: State, moves: seq<Move>, s: State, h: nat) returns (s1: State)
    requires Path(n, app, s0, moves, s) && Quiet(s) && h < n && h < |s.pc| && h < |s.batch| && HoldsLock(s.pc[h])
    ensures Path(n, app, s0, moves + [Move(h, Go)], s1)
    ensures OneMoved(s, h, s1) && GoesOn(n, s, h, s1) && Quiet(s1)
    ensures s1.pc[h].Idle? ==> Through(s, h, s1) && (KindOf(s.pc[h]) == Updating ==> UpdateReturned(s, h, s1))
    ensures Left(n, s.pc[h], |s.batch[h]|) >= 0 && Left(n, s1.pc[h], |s1.batch[h]|) >= 0
  {
    s1 := Walk(n, app, s0, moves, s, h);
    HolderGoes(n, app, s, h, s1);
    MovedKeeps(n, app, s, h, s1);
    LeftBounded(n, app, s, h);
    LeftBounded(n, app, s1, h);
    if s1.pc[h].Idle? && KindOf(s.pc[h]) == Updating {
      ReturnsUpdate(n, app, s, h, s1);
    }
  }

  /** The lock holder alone gets to its unlock; a combiner returns its own update there. */
  lemma {:induction false} HolderRuns(n: nat, app: App, s0: State, moves: seq<Move>, s: State, h: nat)
    returns (moves': seq<Move>, s': State)
    requires Path(n, app, s0, moves, s) && Quiet(s) && h < n && h < |s.pc| && h < |s.batch| && HoldsLock(s.pc[h])
    ensures Path(n, app, s0, moves', s') && moves <= moves' && OnlyBy(moves', |moves|, h)
    ensures Through(s, h, s') && (KindOf(s.pc[h]) == Updating ==> UpdateReturned(s, h, s'))
    decreases Phase(s.pc[h]), Left(n, s.pc[h], |s.batch[h]|)
  {
    var s1 := HolderStep(n, app, s0, moves, s, h);
    if s1.pc[h].Idle? {
      moves', s' := moves + [Move(h, Go)], s1;
    } else {
      moves', s' := HolderRuns(n, app, s0, moves + [Move(h, Go)], s1, h);
      ThroughThen(s, h, s1, s');
      OnlyByThen(moves, h, moves');
      if KindOf(s.pc[h]) == Updating {
        ReturnedLater(s, s1, h, s');
      }
    }
  }

  // ---------------------------------------------------------------- the readers

  /** Thread `t` is the only one that has moved; nobody else's slot, and no `ready` word, has changed. */
  ghost predicate Alone(s: State, t: nat, s': State) {
    && t < |s.pc| == |s'.pc| && s'.pc == s.pc[t := s'.pc[t]] && |s'.readers| == |s.readers|
    && (forall u | 0 <= u < |s.readers| && u != t :: s'.readers[u] == s.readers[u])
    && s'.writers == s.writers && s'.holder == s.holder && Kept(s, s') && |s'.task| == |s.task|
    && (forall u | 0 <= u < |s.task| && u != t :: s'.task[u] == s.task[u])
  }

  lemma AloneTrans(s: State, t: nat, s1: State, s2: State)
    requires Alone(s, t, s1) && Alone(s1, t, s2)
    ensures Alone(s, t, s2)
  {}

  lemma ReaderMoves(n: nat, app: App, s: State, t: nat, s': State)
    requires Moved(n, app, s, t, s') && Reading(s.pc[t])
    ensures Alone(s, t, s')
  {}

  /** How many steps a reader is from lowering its flag. */
  function FlagSteps(p: Pc): nat {
    match p
    case RoTest => 3
    case RoUnmark => 1
    case RoRead => 2
    case RoLeave(_) => 1
    case _ => 0
  }

  lemma FlagGoes(app: App, s: State, t: nat, s': State)
    requires t < |s.pc| == |s.task| == |s.readers| && Flagged(s.pc[t]) && s.readers[t]
    requires s' == StepReading(app, s, t)
    ensures if FlagSteps(s.pc[t]) == 1 then !s'.readers[t] && (s'.pc[t].Idle? || s'.pc[t].RoSpin?)
            else s'.readers[t] && Flagged(s'.pc[t]) && FlagSteps(s'.pc[t]) < FlagSteps(s.pc[t])
    ensures InRead(s.pc[t]) ==> s'.pc[t].Idle? || InRead(s'.pc[t])
    ensures !InRead(s.pc[t]) && s.writers != 0 ==> !s'.pc[t].Idle? && !InRead(s'.pc[t]) && s'.task[t] == s.task[t]
  {}

  lemma FlagOf(n: nat, app: App, s: State, t: nat)
    requires Reachable(n, app, s) && t < n
    ensures |s.pc| == |s.readers| == |s.task| == |s.batch| == n
    ensures s.readers[t] <==> Flagged(s.pc[t])
  {
    ReachableInv(n, app, s);
  }

  /** A reader whose flag is up lowers it by its own moves, and is out or waits for the lock. */
  lemma {:induction false} FlagDown(n: nat, app: App, s0: State, moves: seq<Move>, s: State, t: nat)
    returns (moves': seq<Move>, s': State)
    requires Path(n, app, s0, moves, s) && t < n && t < |s.readers| && s.readers[t]
    ensures Path(n, app, s0, moves', s') && moves <= moves' && OnlyBy(moves', |moves|, t)
    ensures Alone(s, t, s') && t < |s'.pc| && t < |s'.task| && t < |s.task| && !s'.readers[t]
    ensures s.writers != 0 && t < |s.pc| && !InRead(s.pc[t]) ==> s'.pc[t].RoSpin? && s'.task[t] == s.task[t]
    decreases if t < |s.pc| then FlagSteps(s.pc[t]) else 0
  {
    FlagOf(n, app, s, t);
    var s1 := Walk(n, app, s0, moves, s, t);
    ReaderMoves(n, app, s, t, s1);
    ReadingMoved(n, app, s, t, s1);
    FlagGoes(app, s, t, s1);
    if s1.readers[t] {
      moves', s' := FlagDown(n, app, s0, moves + [Move(t, Go)], s1, t);
      AloneTrans(s, t, s1, s');
    } else {
      moves', s' := moves + [Move(t, Go)], s1;
    }
  }

  /** The threads below `i` have lowered their flags; the others, and those without one, have not moved. */
  ghost predicate Lowered(s: State, i: nat, s': State) {
    && |s'.pc| == |s.pc| && |s'.readers| == |s.readers| == |s.pc| == |s.task| == |s'.task|
    && (forall u | 0 <= u < |s.readers| :: if u < i then !s'.readers[u] else s'.readers[u] == s.readers[u])
    && (forall u | 0 <= u < |s.readers| && (u >= i || !s.readers[u]) :: s'.pc[u] == s.pc[u] && s'.task[u] == s.task[u])
    && s'.writers == s.writers && s'.holder == s.holder && Kept(s, s')
  }

  lemma LoweredNext(s: State, i: nat, s1: State, s': State)
    requires Lowered(s, i, s1) && i < |s.readers| && s1.readers[i] && Alone(s1, i, s') && !s'.readers[i]
    ensures Lowered(s, i + 1, s')
  {}

  /** All flags can be lowered, whatever the lock. */
  lemma {:induction false} AllDown(n: nat, app: App, s0: State, moves: seq<Move>, s: State, i: nat)
    returns (moves': seq<Move>, s': State)
    requires Path(n, app, s0, moves, s) && i <= n
    ensures Path(n, app, s0, moves', s') && Lowered(s, i, s')
  {
    if i == 0 {
      LoweredNone(n, app, s);
      moves', s' := moves, s;
    } else {
      moves', s' := AllDown(n, app, s0, moves, s, i - 1);
      Sizes(n, app, s');
      if s'.readers[i - 1] {
        var s1 := s';
        moves', s' := FlagDown(n, app, s0, moves', s1, i - 1);
        LoweredNext(s, i - 1, s1, s');
      }
    }
  }

  lemma LoweredNone(n: nat, app: App, s: State)
    requires Reachable(n, app, s)
    ensures Lowered(s, 0, s)
  {
    ReachableInv(n, app, s);
  }

  /** All flags down, nothing else moved. */
  ghost predicate Drained(s: State, s': State) {
    && Quiet(s') && s'.writers == s.writers && s'.holder == s.holder && Kept(s, s')
    && |s'.pc| == |s.pc| == |s'.readers| == |s.readers| == |s.task|
    && (forall u | 0 <= u < |s.readers| && !s.readers[u] :: s'.pc[u] == s.pc[u] && s'.task[u] == s.task[u])
  }

  lemma Drain(n: nat, app: App, s0: State, moves: seq<Move>, s: State) returns (moves': seq<Move>, s': State)
    requires Path(n, app, s0, moves, s)
    ensures Path(n, app, s0, moves', s') && Drained(s, s')
  {
    moves', s' := AllDown(n, app, s0, moves, s, n);
    Sizes(n, app, s);
  }

  /** From any state: no flag is up, nobody holds the lock, and whoever had not raised a flag stands still. */
  ghost predicate Cleared(s: State, s': State) {
    && Quiet(s') && s'.holder == None && s'.writers == 0 && Kept(s, s') && |s'.pc| == |s.pc|
    && (forall u | 0 <= u < |s.pc| && !HoldsLock(s.pc[u]) && !Flagged(s.pc[u]) :: s'.pc[u] == s.pc[u])
  }

  /** The lock word and the holder, and who has a flag up. */
  lemma Sizes(n: nat, app: App, s: State)
    requires Reachable(n, app, s)
    ensures Sized(n, s) && (s.writers == 0 <==> s.holder == None)
    ensures s.holder.Some? ==> s.holder.value < n && HoldsLock(s.pc[s.holder.value])
    ensures forall u | 0 <= u < n :: (s.readers[u] <==> Flagged(s.pc[u])) && (HoldsLock(s.pc[u]) <==> s.holder == Some(u))
  {
    ReachableInv(n, app, s);
  }

  /** The holder, if there is one, can be brought to its unlock; a combiner has returned its update. */
  lemma Clear(n: nat, app: App, s0: State, moves: seq<Move>, s: State) returns (moves': seq<Move>, s': State)
    requires Path(n, app, s0, moves, s)
    ensures Path(n, app, s0, moves', s') && Cleared(s, s')
    ensures forall h | 0 <= h < |s.pc| && HoldsLock(s.pc[h]) ::
              s'.pc[h].Idle? && (KindOf(s.pc[h]) == Updating ==> UpdateReturned(s, h, s'))
  {
    var moves1, s1 := Drain(n, app, s0, moves, s);
    Sizes(n, app, s);
    Sizes(n, app, s1);
    if s1.holder == None {
      moves', s' := moves1, s1;
    } else {
      var h := s1.holder.value;
      moves', s' := HolderRuns(n, app, s0, moves1, s1, h);
      if KindOf(s.pc[h]) == Updating {
        ReturnedLater(s, s1, h, s');
      }
    }
  }

  // ---------------------------------------------------------------- an update

  /** How far a waiting thread is from its return or from the lock. */
  function WaitSteps(p: Pc): nat {
    match p
    case RwLoop => 4
    case RwTestDone => 3
    case RwTestFree => 2
    case RwAwaitDone => 2
    case RwCas => 1
    case _ => 0
  }

  /** With the lock free the waiting thread returns, comes nearer, or is the combiner. */
  lemma WaiterGoes(s: State, t: nat, s': State)
    requires t < |s.pc| == |s.task| == |s.batch| && Waiting(s.pc[t]) && s' == StepWaiting(s, t) && s.writers == 0
    requires SlotOk(s.pc[t], s.task[t].ready, t) && s.task[t].ready != Started
    ensures s'.readers == s.readers && KindOf(s.pc[t]) == Updating
    ensures s'.pc[t].Idle? || (HoldsLock(s'.pc[t]) && KindOf(s'.pc[t]) == Updating)
         || (&& Waiting(s'.pc[t]) && WaitSteps(s'.pc[t]) < WaitSteps(s.pc[t])
             && s'.writers == 0 && s'.holder == s.holder)
  {}

  /** With nobody holding the lock no request is STARTED. */
  lemma NoneStarted(n: nat, app: App, s: State, t: nat)
    requires Reachable(n, app, s) && s.holder == None && t < n
    ensures |s.pc| == |s.task| == n && SlotOk(s.pc[t], s.task[t].ready, t) && s.task[t].ready != Started
  {
    ReachableInv(n, app, s);
    SlotOf(n, s, t);
  }

  lemma WaiterStep(n: nat, app: App, s0: State, moves: seq<Move>, s: State, t: nat) returns (s1: State)
    requires Path(n, app, s0, moves, s) && t < n && t < |s.pc| && Waiting(s.pc[t])
    requires s.holder == None && s.writers == 0 && Quiet(s)
    ensures Path(n, app, s0, moves + [Move(t, Go)], s1) && OneMoved(s, t, s1) && Quiet(s1)
    ensures t < |s1.batch| && KindOf(s1.pc[t]) == (if s1.pc[t].Idle? then Resting else Updating)
    ensures s1.pc[t].Idle? ==> UpdateReturned(s, t, s1)
    ensures s1.pc[t].Idle? || HoldsLock(s1.pc[t])
         || (&& Waiting(s1.pc[t]) && WaitSteps(s1.pc[t]) < WaitSteps(s.pc[t]) && s1.writers == 0 && s1.holder == None)
  {
    NoneStarted(n, app, s, t);
    s1 := Walk(n, app, s0, moves, s, t);
    WaitingMoved(n, app, s, t, s1);
    WaiterGoes(s, t, s1);
    MovedKeeps(n, app, s, t, s1);
    if s1.pc[t].Idle? {
      ReturnsUpdate(n, app, s, t, s1);
    }
  }

  /**
   When nobody holds the lock and no flag is up, a thread waiting with an update returns it by its
   own moves alone: it finds it done, or takes the lock and executes it.
   */
  lemma {:induction false} WaiterReturns(n: nat, app: App, s0: State, moves: seq<Move>, s: State, t: nat)
    returns (moves': seq<Move>, s': State)
    requires Path(n, app, s0, moves, s) && t < n && t < |s.pc| && Waiting(s.pc[t])
    requires s.holder == None && s.writers == 0 && Quiet(s)
    ensures Path(n, app, s0, moves', s') && moves <= moves' && OnlyBy(moves', |moves|, t)
    ensures UpdateReturned(s, t, s') && s'.pc == s.pc[t := Idle]
    decreases WaitSteps(s.pc[t])
  {
    var s1 := WaiterStep(n, app, s0, moves, s, t);
    if s1.pc[t].Idle? {
      moves', s' := moves + [Move(t, Go)], s1;
    } else {
      if HoldsLock(s1.pc[t]) {
        moves', s' := HolderRuns(n, app, s0, moves + [Move(t, Go)], s1, t);
      } else {
        moves', s' := WaiterReturns(n, app, s0, moves + [Move(t, Go)], s1, t);
      }
      OnlyByThen(moves, t, moves');
      ReturnedLater(s, s1, t, s');
    }
  }

  /**
   From every reachable state every update under way can be brought to its return, by carrying on
   the calls under way: its own record, with its own command, is then among the completed ones.
   */
  lemma UpdateReturns(n: nat, app: App, s: State, t: nat) returns (moves: seq<Move>, s': State)
    requires Reachable(n, app, s) && t < n && t < |s.pc| && KindOf(s.pc[t]) == Updating
    ensures Path(n, app, s, moves, s') && UpdateReturned(s, t, s')
  {
    Start(n, app, s);
    moves, s' := Clear(n, app, s, [], s);
    if !HoldsLock(s.pc[t]) {
      var s1 := s';
      moves, s' := WaiterReturns(n, app, s, moves, s1, t);
      ReturnedLater(s, s1, t, s');
    }
  }

  lemma DoneStep(n: nat, app: App, s0: State, moves: seq<Move>, s: State, t: nat) returns (s1: State)
    requires Path(n, app, s0, moves, s) && t < n && t < |s.pc| && t < |s.task| && Waiting(s.pc[t])
    requires s.task[t].ready == Done && (s.writers != 0 || !(s.pc[t].RwTestFree? || s.pc[t].RwCas?))
    ensures Path(n, app, s0, moves + [Move(t, Go)], s1) && OneMoved(s, t, s1) && t < |s1.task|
    ensures s1.writers == s.writers && s1.holder == s.holder
    ensures if s1.pc[t].Idle? then UpdateReturned(s, t, s1)
            else && Waiting(s1.pc[t]) && DoneSteps(s1.pc[t]) < DoneSteps(s.pc[t]) && s1.task[t].ready == Done
                 && !(s1.pc[t].RwTestFree? || s1.pc[t].RwCas?)
  {
    s1 := Walk(n, app, s0, moves, s, t);
    WaitingMoved(n, app, s, t, s1);
    DoneGoes(s, t, s1);
    MovedKeeps(n, app, s, t, s1);
    if s1.pc[t].Idle? {
      ReturnsUpdate(n, app, s, t, s1);
    }
  }

  /** A request that is done is returned by its thread alone, in at most four moves, without the lock. */
  lemma {:induction false} DoneReturns(n: nat, app: App, s0: State, moves: seq<Move>, s: State, t: nat)
    returns (moves': seq<Move>, s': State)
    requires Path(n, app, s0, moves, s) && t < n && t < |s.pc| && t < |s.task| && Waiting(s.pc[t])
    requires s.task[t].ready == Done && (s.writers != 0 || !(s.pc[t].RwTestFree? || s.pc[t].RwCas?))
    ensures Path(n, app, s0, moves', s') && moves <= moves' && OnlyBy(moves', |moves|, t)
    ensures |moves'| <= |moves| + DoneSteps(s.pc[t])
    ensures UpdateReturned(s, t, s') && s'.pc == s.pc[t := Idle] && s'.writers == s.writers && s'.holder == s.holder
    decreases DoneSteps(s.pc[t])
  {
    var s1 := DoneStep(n, app, s0, moves, s, t);
    if s1.pc[t].Idle? {
      moves', s' := moves + [Move(t, Go)], s1;
    } else {
      moves', s' := DoneReturns(n, app, s0, moves + [Move(t, Go)], s1, t);
      OnlyByThen(moves, t, moves');
      ReturnedLater(s, s1, t, s');
    }
  }

  function DoneSteps(p: Pc): nat {
    match p
    case RwTestFree => 4
    case RwCas => 4
    case RwLoop => 3
    case RwTestDone => 2
    case RwAwaitDone => 2
    case RwFinish => 1
    case _ => 0
  }

  lemma DoneGoes(s: State, t: nat, s': State)
    requires t < |s.pc| == |s.task| == |s.batch| && Waiting(s.pc[t]) && s' == StepWaiting(s, t) && s.task[t].ready == Done
    requires s.writers != 0 || !(s.pc[t].RwTestFree? || s.pc[t].RwCas?)
    ensures s'.writers == s.writers && s'.holder == s.holder && KindOf(s.pc[t]) == Updating
    ensures s'.pc[t].Idle?
         || (&& Waiting(s'.pc[t]) && DoneSteps(s'.pc[t]) < DoneSteps(s.pc[t]) && s'.task[t].ready == Done
             && !(s'.pc[t].RwTestFree? || s'.pc[t].RwCas?))
  {}

  // ---------------------------------------------------------------- a read

  /** Since `s` the read of thread `t` has returned, with the answer `resp`. */
  ghost predicate ReadReturned(s: State, t: nat, resp: Resp, s': State) {
    && t < |s.task|
    && exists c :: |s.completed| <= c < |s'.completed| && !s'.completed[c].update
                && s'.completed[c].t == t && s'.completed[c].cmd == s.task[t].cmd && s'.completed[c].resp == resp
  }

  lemma ReadLater(s0: State, s: State, t: nat, resp: Resp, s': State)
    requires Kept(s0, s) && ReadReturned(s, t, resp, s')
    ensures ReadReturned(s0, t, resp, s')
  {}

  /** How many moves a reader is from its return when the lock is free. */
  function ReadSteps(p: Pc): nat {
    match p
    case RoUnmark => 6
    case RoSpin => 5
    case RoMark => 4
    case RoTest => 3
    case RoRead => 2
    case RoLeave(_) => 1
    case _ => 0
  }

  /** What the reader of slot `t` returns if the lock stays free: the answer it has, or that of memory. */
  function Answer(app: App, s: State, t: nat): Resp
    requires t < |s.pc| && t < |s.task|
  {
    if s.pc[t].RoLeave? then s.task[t].resp else app.query(s.mem, s.task[t].cmd)
  }

  lemma ReadGoes(app: App, s: State, t: nat, s': State)
    requires t < |s.pc| == |s.task| == |s.readers| && Reading(s.pc[t]) && (s.writers == 0 || InRead(s.pc[t]))
    requires s' == StepReading(app, s, t)
    ensures s'.writers == s.writers && s'.holder == s.holder
    ensures if s.pc[t].RoLeave? then s'.pc[t].Idle? && ReadReturned(s, t, Answer(app, s, t), s')
            else && Reading(s'.pc[t]) && ReadSteps(s'.pc[t]) < ReadSteps(s.pc[t])
                 && (s'.writers == 0 || InRead(s'.pc[t])) && Answer(app, s', t) == Answer(app, s, t)
  {
    if s.pc[t].RoLeave? {
      assert !s'.completed[|s.completed|].update;
    }
  }

  lemma ReaderStep(n: nat, app: App, s0: State, moves: seq<Move>, s: State, t: nat) returns (s1: State)
    requires Path(n, app, s0, moves, s) && t < n && t < |s.pc| && t < |s.task| && Reading(s.pc[t])
    requires s.writers == 0 || InRead(s.pc[t])
    ensures Path(n, app, s0, moves + [Move(t, Go)], s1) && OneMoved(s, t, s1) && t < |s1.task|
    ensures if s.pc[t].RoLeave? then s1.pc[t].Idle? && ReadReturned(s, t, Answer(app, s, t), s1)
            else && Reading(s1.pc[t]) && ReadSteps(s1.pc[t]) < ReadSteps(s.pc[t])
                 && (s1.writers == 0 || InRead(s1.pc[t])) && Answer(app, s1, t) == Answer(app, s, t)
  {
    s1 := Walk(n, app, s0, moves, s, t);
    ReadingMoved(n, app, s, t, s1);
    ReadGoes(app, s, t, s1);
    MovedKeeps(n, app, s, t, s1);
  }

  /**
   A reader that finds the lock free, or is inside already, returns by its own moves alone, in at most
   six of them, and its record carries the answer of memory as it is.
   */
  lemma {:induction false} ReaderReturns(n: nat, app: App, s0: State, moves: seq<Move>, s: State, t: nat)
    returns (moves': seq<Move>, s': State)
    requires Path(n, app, s0, moves, s) && t < n && t < |s.pc| && t < |s.task| && Reading(s.pc[t])
    requires s.writers == 0 || InRead(s.pc[t])
    ensures Path(n, app, s0, moves', s') && moves <= moves' && OnlyBy(moves', |moves|, t)
    ensures |moves'| <= |moves| + ReadSteps(s.pc[t]) <= |moves| + 6
    ensures ReadReturned(s, t, Answer(app, s, t), s') && s'.pc == s.pc[t := Idle]
    decreases ReadSteps(s.pc[t])
  {
    var s1 := ReaderStep(n, app, s0, moves, s, t);
    if s1.pc[t].Idle? {
      moves', s' := moves + [Move(t, Go)], s1;
    } else {
      moves', s' := ReaderReturns(n, app, s0, moves + [Move(t, Go)], s1, t);
      OnlyByThen(moves, t, moves');
      ReadLater(s, s1, t, Answer(app, s, t), s');
    }
  }

  /** A reader outside, with the lock held: its flag comes down and the lock is brought to be free. */
  lemma ReaderWaits(n: nat, app: App, s0: State, moves: seq<Move>, s: State, t: nat)
    returns (moves': seq<Move>, s': State)
    requires Path(n, app, s0, moves, s) && t < n && t < |s.pc|
    requires Reading(s.pc[t]) && !InRead(s.pc[t]) && s.writers != 0
    ensures Path(n, app, s0, moves', s') && Kept(s, s') && s'.writers == 0
    ensures t < |s'.pc| && t < |s'.task| && Reading(s'.pc[t])
  {
    var moves1, s1 := ReaderParks(n, app, s0, moves, s, t);
    moves', s' := Clear(n, app, s0, moves1, s1);
    Sizes(n, app, s');
  }

  lemma ReaderParks(n: nat, app: App, s0: State, moves: seq<Move>, s: State, t: nat)
    returns (moves': seq<Move>, s': State)
    requires Path(n, app, s0, moves, s) && t < n && t < |s.pc|
    requires Reading(s.pc[t]) && !InRead(s.pc[t]) && s.writers != 0
    ensures Path(n, app, s0, moves', s') && Kept(s, s')
    ensures t < |s'.pc| && (s'.pc[t].RoMark? || s'.pc[t].RoSpin?)
  {
    Sizes(n, app, s);
    moves', s' := moves, s;
    if s.readers[t] {
      moves', s' := FlagDown(n, app, s0, moves, s, t);
    }
  }

  /**
   From every reachable state every read under way can be brought to its return: the lock is brought
   to be free, and the reader then answers from memory as it is in that state.
   */
  lemma ReadReturns(n: nat, app: App, s: State, t: nat)
    returns (s1: State, moves1: seq<Move>, s': State, moves: seq<Move>)
    requires Reachable(n, app, s) && t < n && t < |s.pc| && t < |s.task| && Reading(s.pc[t])
    ensures Path(n, app, s, moves1, s1) && Path(n, app, s, moves, s') && moves1 <= moves
    ensures t < |s1.pc| && t < |s1.task| && ReadReturned(s, t, Answer(app, s1, t), s')
    ensures s.writers == 0 || InRead(s.pc[t]) ==> s1 == s && OnlyBy(moves, 0, t) && |moves| <= 6
  {
    Start(n, app, s);
    moves1, s1 := [], s;
    if s.writers != 0 && !InRead(s.pc[t]) {
      moves1, s1 := ReaderWaits(n, app, s, [], s, t);
    }
    moves, s' := ReaderReturns(n, app, s, moves1, s1, t);
    ReadLater(s, s1, t, Answer(app, s1, t), s');
  }

  // ---------------------------------------------------------------- an mmap

  /** How many moves an mmap is from its log, when the lock is free or its own. */
  function LogSteps(p: Pc): nat {
    match p
    case MmapTest => 3
    case MmapCas => 2
    case MmapLoad => 1
    case _ => 0
  }

  lemma MapGoes(n: nat, app: App, s: State, t: nat, s': State)
    requires Moved(n, app, s, t, s') && (s.pc[t].MmapTest? || s.pc[t].MmapCas? || s.pc[t].MmapLoad?)
    requires s.writers == 0 || s.pc[t].MmapLoad?
    ensures s'.readers == s.readers && LogSteps(s'.pc[t]) < LogSteps(s.pc[t])
    ensures s'.pc[t].MmapPublish? || s'.pc[t].MmapLoad?
         || (s'.pc[t].MmapCas? && s'.writers == 0 && s'.holder == s.holder)
  {}

  /** An mmap under way gets to its log by its own moves alone if the lock is free or its own. */
  lemma {:induction false} MapLogs(n: nat, app: App, s0: State, moves: seq<Move>, s: State, t: nat)
    returns (moves': seq<Move>, s': State)
    requires Path(n, app, s0, moves, s) && t < n && t < |s.pc|
    requires s.pc[t].MmapTest? || s.pc[t].MmapCas? || s.pc[t].MmapLoad?
    requires s.writers == 0 || s.pc[t].MmapLoad?
    ensures Path(n, app, s0, moves', s') && moves <= moves' && OnlyBy(moves', |moves|, t)
    ensures s'.pc == s.pc[t := MmapPublish] && s'.readers == s.readers
    decreases LogSteps(s.pc[t])
  {
    var s1 := Walk(n, app, s0, moves, s, t);
    MapGoes(n, app, s, t, s1);
    MovedKeeps(n, app, s, t, s1);
    if s1.pc[t].MmapPublish? {
      moves', s' := moves + [Move(t, Go)], s1;
    } else {
      moves', s' := MapLogs(n, app, s0, moves + [Move(t, Go)], s1, t);
      OnlyByThen(moves, t, moves');
    }
  }

  /**
   From every reachable state an mmap that has not logged yet can be brought to its log, and from
   there to its return.
   */
  lemma MapReturns(n: nat, app: App, s: State, t: nat)
    returns (s1: State, moves1: seq<Move>, s': State, moves: seq<Move>)
    requires Reachable(n, app, s) && t < n && t < |s.pc|
    requires s.pc[t].MmapTest? || s.pc[t].MmapCas? || s.pc[t].MmapLoad?
    ensures Path(n, app, s, moves1, s1) && t < |s1.pc| && s1.pc[t].MmapPublish?
    ensures Path(n, app, s, moves, s') && moves1 <= moves && t < |s'.pc| && s'.pc[t].Idle?
  {
    Start(n, app, s);
    Sizes(n, app, s);
    if s.pc[t].MmapLoad? {
      moves1, s1 := Drain(n, app, s, [], s);
    } else {
      moves1, s1 := Clear(n, app, s, [], s);
    }
    moves1, s1 := MapLogs(n, app, s, moves1, s1, t);
    Sizes(n, app, s1);
    moves, s' := HolderRuns(n, app, s, moves1, s1, t);
  }

  // ---------------------------------------------------------------- whole calls

  /** For any number of threads and any application there is a state to start from. */
  lemma InitialState(n: nat, app: App, c: Cmd, r: Resp) returns (s: State)
    ensures Init(n, app, s) && Reachable(n, app, s)
  {
    s := State(0, seq(n, _ => false), seq(n, _ => Task(NoTask, c, r, 0, 0, None, 0)), seq(n, _ => Idle), seq(n, _ => []),
               app.init, None, [], 0, [0], []);
    var moves: seq<Move> := [];
    assert IsRun(n, app, [s], moves) && [s][|moves|] == s;
  }

  /** A thread at rest may begin any call, and is then in a call of that kind with its command. */
  lemma CallBegins(n: nat, app: App, s: State, t: nat, a: Act) returns (s': State)
    requires Reachable(n, app, s) && t < n && t < |s.pc| && s.pc[t].Idle? && !a.Go?
    ensures Reachable(n, app, s') && Follows(n, app, s, Move(t, a), s')
    ensures t < |s'.pc| && t < |s'.task| && t < |s.task| && KindOf(s'.pc[t]) == CombiningCalls.Begins(a)
    ensures !a.Mmap? ==> s'.task[t].cmd == a.cmd
    ensures a.Submit? ==> s'.task[t].k == s.task[t].k + 1
    ensures a.Mmap? ==> s'.pc[t].MmapTest?
  {
    ReachableInv(n, app, s);
    s' := Step(n, app, s, t, a);
    StepCall(n, app, s, t, a);
    ReachableStep(n, app, s, Move(t, a), s');
  }

  /** In every reachable state a thread at rest can submit any update, and it can be brought to its return. */
  lemma UpdateCall(n: nat, app: App, s: State, t: nat, c: Cmd) returns (s1: State, moves: seq<Move>, s': State)
    requires Reachable(n, app, s) && t < n && t < |s.pc| && s.pc[t].Idle?
    ensures Follows(n, app, s, Move(t, Submit(c)), s1) && Path(n, app, s1, moves, s') && UpdateReturned(s1, t, s')
    ensures t < |s1.task| && t < |s.task| && s1.task[t].cmd == c && s1.task[t].k == s.task[t].k + 1
  {
    s1 := CallBegins(n, app, s, t, Submit(c));
    moves, s' := UpdateReturns(n, app, s1, t);
  }

  /** The same for a read, which answers from memory as it is when the lock is free. */
  lemma ReadCall(n: nat, app: App, s: State, t: nat, c: Cmd)
    returns (s1: State, s2: State, moves: seq<Move>, s': State)
    requires Reachable(n, app, s) && t < n && t < |s.pc| && s.pc[t].Idle?
    ensures Follows(n, app, s, Move(t, Query(c)), s1) && Path(n, app, s1, moves, s') && t < |s1.task| && s1.task[t].cmd == c
    ensures t < |s2.pc| && t < |s2.task| && ReadReturned(s1, t, Answer(app, s2, t), s')
    ensures s.writers == 0 ==> s2 == s1 && Answer(app, s1, t) == app.query(s.mem, c) && OnlyBy(moves, 0, t)
  {
    s1 := CallBegins(n, app, s, t, Query(c));
    var moves1;
    s2, moves1, s', moves := ReadReturns(n, app, s1, t);
  }

  /** The same for an mmap, which gets to log. */
  lemma MapCall(n: nat, app: App, s: State, t: nat)
    returns (s1: State, s2: State, moves2: seq<Move>, s': State, moves: seq<Move>)
    requires Reachable(n, app, s) && t < n && t < |s.pc| && s.pc[t].Idle?
    ensures Follows(n, app, s, Move(t, Mmap), s1)
    ensures Path(n, app, s1, moves2, s2) && t < |s2.pc| && s2.pc[t].MmapPublish?
    ensures Path(n, app, s1, moves, s') && moves2 <= moves && t < |s'.pc| && s'.pc[t].Idle?
  {
    s1 := CallBegins(n, app, s, t, Mmap);
    s2, moves2, s', moves := MapReturns(n, app, s1, t);
  }

  /** Between two requests the combiner may log an mmap, and goes on where it was. */
  lemma MapInBatch(n: nat, app: App, s: State, h: nat, s1: State) returns (s2: State)
    requires Reachable(n, app, s) && h < n && h < |s.pc| && s.pc[h].Exec? && Follows(n, app, s, Move(h, Mmap), s1)
    ensures Path(n, app, s1, [Move(h, Go)], s2) && h < |s2.pc| && s2.pc[h] == ExecPublish(s.pc[h].j)
    ensures Path(n, app, s1, [Move(h, Go), Move(h, Go), Move(h, Go)], s)
  {
    var g, j := Move(h, Go), s.pc[h].j;
    MapEntered(n, app, s, h, s1);
    Start(n, app, s1);
    s2 := MapTurn(n, app, s1, [], s1, s, h, ExecLoad(j));
    MapRest(n, app, s1, s2, s, h, j);
    AtSame(s, h);
    assert [] + [g] == [g];
  }

  lemma MapRest(n: nat, app: App, s1: State, s2: State, base: State, h: nat, j: nat)
    requires Path(n, app, s1, [Move(h, Go)], s2) && h < n && h < |base.pc| && s2 == At(base, h, ExecPublish(j))
    ensures Path(n, app, s1, [Move(h, Go), Move(h, Go), Move(h, Go)], At(base, h, Exec(j)))
  {
    var g := Move(h, Go);
    var s3 := MapTurn(n, app, s1, [g], s2, base, h, ExecPublish(j));
    var s4 := MapTurn(n, app, s1, [g] + [g], s3, base, h, ExecBack(j));
    assert [g] + [g] + [g] == [g, g, g];
  }

  /** From `p` to the next point of the session; nothing else moves. */
  lemma MapTurn(n: nat, app: App, s0: State, moves: seq<Move>, s: State, base: State, h: nat, p: Pc) returns (s': State)
    requires Path(n, app, s0, moves, s) && h < n && h < |base.pc| && s == At(base, h, p)
    requires p.ExecLoad? || p.ExecPublish? || p.ExecBack?
    ensures Path(n, app, s0, moves + [Move(h, Go)], s') && s' == At(base, h, AfterMap(p))
  {
    s' := Walk(n, app, s0, moves, s, h);
    MapMoves(n, app, s, h, s');
    AtAt(base, h, p, AfterMap(p));
  }

  lemma AtAt(s: State, h: nat, p: Pc, q: Pc)
    requires h < |s.pc|
    ensures At(At(s, h, p), h, q) == At(s, h, q)
  {}

  lemma AtSame(s: State, h: nat)
    requires h < |s.pc|
    ensures At(s, h, s.pc[h]) == s
  {}

  function AfterMap(p: Pc): Pc {
    match p
    case ExecLoad(j) => ExecPublish(j)
    case ExecPublish(j) => ExecBack(j)
    case ExecBack(j) => Exec(j)
    case _ => p
  }

  lemma MapEntered(n: nat, app: App, s: State, h: nat, s': State)
    requires Reachable(n, app, s) && h < n && h < |s.pc| && s.pc[h].Exec? && Follows(n, app, s, Move(h, Mmap), s')
    ensures Reachable(n, app, s') && s' == At(s, h, ExecLoad(s.pc[h].j))
  {
    ReachableStep(n, app, s, Move(h, Mmap), s');
  }

  /** It is allowed to. */
  lemma MayMap(n: nat, app: App, s: State, h: nat)
    requires Reachable(n, app, s) && h < n && h < |s.pc| && s.pc[h].Exec?
    ensures exists s1 :: Follows(n, app, s, Move(h, Mmap), s1)
  {
    ReachableInv(n, app, s);
    assert Follows(n, app, s, Move(h, Mmap), Step(n, app, s, h, Mmap));
  }

  lemma MapMoves(n: nat, app: App, s: State, h: nat, s': State)
    requires Moved(n, app, s, h, s') && (s.pc[h].ExecLoad? || s.pc[h].ExecPublish? || s.pc[h].ExecBack?)
    ensures s' == At(s, h, AfterMap(s.pc[h]))
  {}
}
