/**
 A batch is brought through the ring: from the combiner's instrument_stop to its published log, the
 write-back of the session and the return of the combiner's own update.
 */
module DurabilityProgress {
  import opened RedoLog
  import opened Collection
  import opened Stops
  import FC = FlatCombining
  import CL = CombiningLock
  import CT = CombiningTasks
  import CH = CombiningHistory
  import CC = CombiningCalls
  import CP = CombiningProgress
  import opened CombiningStages
  import R = Ring
  import RI = RingInvariant
  import RR = RingRuns
  import RW = RingWakeup
  import RingSlots
  import opened RingTheorems
  import opened Durability
  import opened DurabilityTheorems

  // ---------------------------------------------------------------- continuations

  ghost predicate Reachable(sys: System, s: State) {
    exists ss, moves :: IsRun(sys, ss, moves) && ss[|moves|] == s
  }

  lemma ReachableInv(sys: System, s: State)
    requires Reachable(sys, s)
    ensures Inv(sys, s)
  {
    var ss, moves :| IsRun(sys, ss, moves) && ss[|moves|] == s;
    RunInv(sys, ss, moves, |moves|);
  }

  lemma TraceOn(sys: System, ss: seq<State>, moves: seq<Move>, a: Move, s': State)
    requires Linked(sys, ss, moves) && Follows(sys, ss[|moves|], a, s')
    ensures Linked(sys, ss + [s'], moves + [a])
  {
    var ss', moves' := ss + [s'], moves + [a];
    forall i {:trigger moves'[i]} | 0 <= i < |moves'| ensures Follows(sys, ss'[i], moves'[i], ss'[i + 1]) {
      if i < |moves| {
        assert moves'[i] == moves[i] && ss'[i] == ss[i] && ss'[i + 1] == ss[i + 1];
      }
    }
  }

  lemma ReachableOn(sys: System, s: State, a: Move, s': State)
    requires Reachable(sys, s) && Follows(sys, s, a, s')
    ensures Reachable(sys, s')
  {
    var ss, moves :| IsRun(sys, ss, moves) && ss[|moves|] == s;
    TraceOn(sys, ss, moves, a, s');
    assert (ss + [s'])[0] == ss[0] && (ss + [s'])[|moves + [a]|] == s';
    assert IsRun(sys, ss + [s'], moves + [a]);
  }

  ghost predicate Leads(sys: System, s: State, moves: seq<Move>, s': State) {
    exists ss :: Linked(sys, ss, moves) && ss[0] == s && ss[|moves|] == s'
  }

  /** A run goes on from `s0` to the reachable state `s`. */
  ghost predicate Path(sys: System, s0: State, moves: seq<Move>, s: State) {
    Reachable(sys, s) && Leads(sys, s0, moves, s)
  }

  lemma Start(sys: System, s: State)
    requires Reachable(sys, s)
    ensures Path(sys, s, [], s)
  {
    assert Linked(sys, [s], []);
  }

  lemma Walk(sys: System, s0: State, moves: seq<Move>, s: State, a: Move, s': State)
    requires Path(sys, s0, moves, s) && Follows(sys, s, a, s')
    ensures Path(sys, s0, moves + [a], s')
  {
    ReachableOn(sys, s, a, s');
    var ss :| Linked(sys, ss, moves) && ss[0] == s0 && ss[|moves|] == s;
    TraceOn(sys, ss, moves, a, s');
    assert (ss + [s'])[0] == s0 && (ss + [s'])[|moves + [a]|] == s';
  }

  /** Only the ring has moved. */
  ghost predicate SameButRing(s: State, s': State) {
    s' == s.(ring := s'.ring)
  }

  lemma WalkRing(sys: System, s0: State, moves: seq<Move>, s: State, a: R.Step, r: R.State)
    requires Path(sys, s0, moves, s) && R.Follows(sys.n, s.ring, a, r)
    requires R.FreshRefresh(sys.n, s.ring, a) && MayStep(sys, s, CT.HolderPc(s.fc), a)
    ensures Path(sys, s0, moves + [Ring(a)], s.(ring := r))
  {
    Walk(sys, s0, moves, s, Ring(a), s.(ring := r));
  }

  // ---------------------------------------------------------------- steps of the session

  /** How many entries the ring takes before the head has to be refreshed. */
  function Room(n: nat, r: R.State): int {
    if r.localHead < n && r.localTail < n then n - 1 - RingSlots.Dist(n, r.localHead, r.localTail) else 0
  }

  lemma RoomForOne(n: nat, r: R.State)
    requires R.Shaped(n, r) && Room(n, r) > 0
    ensures RingSlots.Next(n, r.localTail) != r.localHead
    ensures RingSlots.Dist(n, r.localHead, RingSlots.Next(n, r.localTail)) == RingSlots.Dist(n, r.localHead, r.localTail) + 1
  {}

  lemma Appended(n: nat, r: R.State, e: Entry) returns (a: R.Step, r': R.State)
    requires R.Shaped(n, r) && r.producer.Working? && Room(n, r) > 0
    ensures a == if e.Redo? then R.Enqueue(e.addr, e.payload) else R.CommitEntry
    ensures R.Follows(n, r, a, r') && r'.h.log == r.h.log + [e] && Room(n, r') == Room(n, r) - 1
    ensures r'.producer == if e.Redo? then R.Working(false) else R.Publishing
  {
    RoomForOne(n, r);
    a, r' := AppendStep(n, r, e);
  }

  lemma PublishedNext(n: nat, r: R.State) returns (r': R.State)
    requires R.Shaped(n, r) && r.producer == R.Publishing
    ensures R.Follows(n, r, R.Publish, r') && r'.h.log == r.h.log && Room(n, r') == Room(n, r)
    ensures r'.producer == R.MirroringTail
  {
    r' := R.Do(n, r, R.Publish);
  }

  lemma MirroredNext(n: nat, r: R.State) returns (r': R.State)
    requires R.Shaped(n, r) && r.producer == R.MirroringTail
    ensures R.Follows(n, r, R.MirrorTail, r') && r'.h.log == r.h.log && Room(n, r') == Room(n, r)
    ensures r'.producer == R.Working(true)
  {
    r' := R.Do(n, r, R.MirrorTail);
  }

  /** Inside instrument_stop, by the log and the session alone. */
  ghost predicate Logs(sys: System, s: State, all: seq<Entry>) {
    && InStop(s) && s.before + ToLog(sys, s) == all && s.ring.h.log <= all && R.Shaped(sys.n, s.ring)
    && (s.ring.producer.Working? || s.ring.producer == R.Publishing || s.ring.producer == R.MirroringTail)
    && (s.ring.producer == R.Working(false) && s.ring.h.log == all ==> s.ring.h.log == s.before)
    && (s.ring.producer == R.Working(true) ==> s.ring.h.pub == |s.ring.h.log|)
  }

  lemma LogsInStop(sys: System, s: State)
    requires Reachable(sys, s) && InStop(s)
    ensures Logs(sys, s, s.before + ToLog(sys, s))
  {
    ReachableInv(sys, s);
    ShapedRing(sys.n, sys.base, s.ring);
    EndsInCommit(s.before, sys.bytes(s.fc.mem), s.copies, s.table);
  }

  lemma ShapedRing(n: nat, base: Image, r: R.State)
    requires RR.Reached(n, base, r)
    ensures R.Shaped(n, r) && (r.producer == R.Working(true) || r.producer == R.NoSession ==> r.h.pub == |r.h.log|)
  {
    RR.ReachedInv(n, base, r);
  }

  lemma EndsInCommit(before: seq<Entry>, mem: Image, cs: seq<Copy>, t: seq<nat>)
    ensures var all := before + StopLog(mem, cs, t); |all| > |before| && all[|all| - 1].Commit?
  {}

  /** What is left of the session's steps after an entry. */
  function SessionSteps(q: R.ProducerPc): nat {
    if q == R.Publishing then 2 else if q == R.MirroringTail then 1 else 0
  }

  lemma LogStep(sys: System, s0: State, moves: seq<Move>, s: State, all: seq<Entry>)
    returns (moves': seq<Move>, s': State)
    requires Path(sys, s0, moves, s) && Logs(sys, s, all) && Room(sys.n, s.ring) >= |all| - |s.ring.h.log|
    requires !(s.ring.producer.Working? && s.ring.h.log == all)
    ensures Path(sys, s0, moves', s') && SameButRing(s, s') && Room(sys.n, s'.ring) >= |all| - |s'.ring.h.log|
    ensures |s.ring.h.log| < |s'.ring.h.log|
         || (s'.ring.h.log == s.ring.h.log && SessionSteps(s'.ring.producer) < SessionSteps(s.ring.producer))
  {
    var a, r;
    if s.ring.producer == R.Publishing {
      a := R.Publish;
      r := PublishedNext(sys.n, s.ring);
    } else if s.ring.producer == R.MirroringTail {
      a := R.MirrorTail;
      r := MirroredNext(sys.n, s.ring);
    } else {
      var e := NextEntry(s.ring.h.log, all);
      a, r := Appended(sys.n, s.ring, e);
    }
    moves', s' := moves + [Ring(a)], s.(ring := r);
    WalkRing(sys, s0, moves, s, a, r);
  }

  /** With room for what is left to log, instrument_stop logs and publishes all of it. */
  lemma {:induction false} LogAll(sys: System, s0: State, moves: seq<Move>, s: State, all: seq<Entry>)
    returns (moves': seq<Move>, s': State)
    requires Path(sys, s0, moves, s) && Logs(sys, s, all) && Room(sys.n, s.ring) >= |all| - |s.ring.h.log|
    requires |all| > |s.before|
    ensures Path(sys, s0, moves', s') && SameButRing(s, s') && Published(s'.ring) == s'.ring.h.log == all
    ensures s'.ring.producer == R.Working(true)
    decreases |all| - |s.ring.h.log|, SessionSteps(s.ring.producer)
  {
    if s.ring.producer.Working? && s.ring.h.log == all {
      moves', s' := moves, s;
    } else {
      var moves1, s1 := LogStep(sys, s0, moves, s, all);
      LogsInStop(sys, s1);
      moves', s' := LogAll(sys, s0, moves1, s1, all);
    }
  }

  // ---------------------------------------------------------------- steps of the thread

  /** Thread `t` goes on; the ring stands still. */
  ghost predicate Goes(sys: System, s: State, t: nat, s': State) {
    CP.Moved(sys.threads, sys.app, s.fc, t, s'.fc) && s'.ring == s.ring
  }

  lemma WalkThread(sys: System, s0: State, moves: seq<Move>, s: State, t: nat, copies: seq<Copy>, table: seq<nat>)
    returns (s': State)
    requires Path(sys, s0, moves, s) && t < sys.threads && t < |s.fc.pc| && !s.fc.pc[t].Idle?
    requires MayGo(sys, s, s.fc.pc[t], copies, table)
    ensures Path(sys, s0, moves + [Thread(t, FC.Go, copies, table)], s') && Goes(sys, s, t, s')
    ensures if s.fc.pc[t].StopLoad? then s'.before == s.ring.h.log && s'.copies == copies && s'.table == table
            else s'.before == s.before && s'.copies == s.copies && s'.table == s.table
  {
    var m := Thread(t, FC.Go, copies, table);
    var fc := ThreadStep(sys, s, t);
    if s.fc.pc[t].StopLoad? {
      s' := State(fc, s.ring, s.ring.h.log, copies, table);
    } else {
      s' := s.(fc := fc);
    }
    Walk(sys, s0, moves, s, m, s');
  }

  lemma ThreadStep(sys: System, s: State, t: nat) returns (fc: FC.State)
    requires Reachable(sys, s) && t < sys.threads && t < |s.fc.pc| && !s.fc.pc[t].Idle?
    ensures FC.Shaped(sys.threads, s.fc) && FC.Enabled(s.fc, t, FC.Go)
    ensures fc == FC.Step(sys.threads, sys.app, s.fc, t, FC.Go) && CP.Moved(sys.threads, sys.app, s.fc, t, fc)
  {
    ReachableInv(sys, s);
    fc := FC.Step(sys.threads, sys.app, s.fc, t, FC.Go);
    CL.StepShapeEffect(sys.threads, sys.app, s.fc, t, FC.Go);
    CL.StepLockEffect(sys.threads, sys.app, s.fc, t, FC.Go);
    CC.StepCall(sys.threads, sys.app, s.fc, t, FC.Go);
  }

  /** What the thread does at the two ends of its session and after it. */
  lemma SessionMoved(n: nat, app: FC.App, s: FC.State, t: nat, s': FC.State)
    requires CP.Moved(n, app, s, t, s')
    ensures s.pc[t].StopLoad? ==> s'.pc[t].StopPublish? && s'.hist == s.hist && s'.pub == s.pub && s'.mem == s.mem
    ensures s.pc[t].StopPublish? ==> s'.pc[t].StopBack? && s'.hist == s.hist && s'.pub == |s.hist|
    ensures s.pc[t].StopBack? ==> s'.pc[t].Finish? && s'.hist == s.hist && s'.pub == s.pub
    ensures FC.Finishing(s.pc[t]) ==> s'.hist == s.hist && s'.pub == s.pub
  {}

  lemma HolderIs(sys: System, s: State, t: nat)
    requires Reachable(sys, s) && t < sys.threads && t < |s.fc.pc| && CL.HoldsLock(s.fc.pc[t])
    ensures CT.HolderPc(s.fc) == s.fc.pc[t]
  {
    ReachableInv(sys, s);
  }

  /** The head and the tail are written back. */
  lemma WrittenBack(sys: System, s0: State, moves: seq<Move>, s: State) returns (moves': seq<Move>, s': State)
    requires Path(sys, s0, moves, s) && Closing(CT.HolderPc(s.fc)) && R.Shaped(sys.n, s.ring)
    requires s.ring.producer == R.Working(true)
    ensures Path(sys, s0, moves', s') && SameButRing(s, s')
    ensures s'.ring.producer == R.NoSession && s'.ring.h.log == s.ring.h.log && s'.ring.h.pub == s.ring.h.pub
  {
    var r1 := HeadBack(sys.n, s.ring);
    WalkRing(sys, s0, moves, s, R.WriteBackHead, r1);
    var s1 := s.(ring := r1);
    var r2 := TailBack(sys.n, r1);
    WalkRing(sys, s0, moves + [Ring(R.WriteBackHead)], s1, R.WriteBackTail, r2);
    moves', s' := moves + [Ring(R.WriteBackHead)] + [Ring(R.WriteBackTail)], s1.(ring := r2);
  }

  lemma HeadBack(n: nat, r: R.State) returns (r': R.State)
    requires R.Shaped(n, r) && r.producer == R.Working(true)
    ensures R.Follows(n, r, R.WriteBackHead, r') && R.Shaped(n, r') && r'.h.log == r.h.log && r'.h.pub == r.h.pub
    ensures r'.producer == R.WritingBackTail
  {
    r' := R.Do(n, r, R.WriteBackHead);
  }

  lemma TailBack(n: nat, r: R.State) returns (r': R.State)
    requires R.Shaped(n, r) && r.producer == R.WritingBackTail
    ensures R.Follows(n, r, R.WriteBackTail, r') && r'.h.log == r.h.log && r'.h.pub == r.h.pub
    ensures r'.producer == R.NoSession
  {
    r' := R.Do(n, r, R.WriteBackTail);
  }

  /** The head and the tail are loaded; the room is that between their written-back values. */
  lemma Loaded(sys: System, s0: State, moves: seq<Move>, s: State) returns (moves': seq<Move>, s': State)
    requires Path(sys, s0, moves, s) && Loading(CT.HolderPc(s.fc)) && R.Shaped(sys.n, s.ring)
    requires s.ring.producer == R.NoSession && !s.ring.recovering
    ensures Path(sys, s0, moves', s') && SameButRing(s, s')
    ensures s'.ring.producer == R.Working(false) && s'.ring.h.log == s.ring.h.log && R.Shaped(sys.n, s'.ring)
    ensures s'.ring.localHead == s.ring.lastPersistedHead && s'.ring.localTail == s.ring.lastPersistedTail
  {
    var r1 := HeadLoaded(sys.n, s.ring);
    WalkRing(sys, s0, moves, s, R.LoadHead, r1);
    var s1 := s.(ring := r1);
    var r2 := TailLoaded(sys.n, r1);
    WalkRing(sys, s0, moves + [Ring(R.LoadHead)], s1, R.LoadTail, r2);
    moves', s' := moves + [Ring(R.LoadHead)] + [Ring(R.LoadTail)], s1.(ring := r2);
  }

  lemma HeadLoaded(n: nat, r: R.State) returns (r': R.State)
    requires R.Shaped(n, r) && r.producer == R.NoSession && !r.recovering
    ensures R.Follows(n, r, R.LoadHead, r') && R.Shaped(n, r') && r'.h.log == r.h.log
    ensures r'.producer == R.LoadingTail && r'.localHead == r.lastPersistedHead && r'.lastPersistedTail == r.lastPersistedTail
  {
    r' := R.Do(n, r, R.LoadHead);
  }

  lemma TailLoaded(n: nat, r: R.State) returns (r': R.State)
    requires R.Shaped(n, r) && r.producer == R.LoadingTail
    ensures R.Follows(n, r, R.LoadTail, r') && R.Shaped(n, r') && r'.h.log == r.h.log
    ensures r'.producer == R.Working(false) && r'.localHead == r.localHead && r'.localTail == r.lastPersistedTail
  {
    r' := R.Do(n, r, R.LoadTail);
  }

  // ---------------------------------------------------------------- the return

  lemma {:induction false} Acknowledges(sys: System, s0: State, moves: seq<Move>, s: State, t: nat)
    returns (moves': seq<Move>, s': State)
    requires Path(sys, s0, moves, s) && t < sys.threads && t < |s.fc.pc| && t < |s.fc.batch| && FC.Finishing(s.fc.pc[t])
    ensures Path(sys, s0, moves', s') && CP.UpdateReturned(s.fc, t, s'.fc)
    ensures s'.ring == s.ring && s'.fc.hist == s.fc.hist && s'.fc.pub == s.fc.pub
    decreases CP.Phase(s.fc.pc[t]), CP.Left(sys.threads, s.fc.pc[t], |s.fc.batch[t]|)
  {
    var s1 := WalkThread(sys, s0, moves, s, t, [], []);
    var moves1 := moves + [Thread(t, FC.Go, [], [])];
    SessionMoved(sys.threads, sys.app, s.fc, t, s1.fc);
    FinishingStep(sys, s, t, s1);
    if s1.fc.pc[t].Idle? {
      moves', s' := moves1, s1;
    } else {
      moves', s' := Acknowledges(sys, s0, moves1, s1, t);
      CP.ReturnedLater(s.fc, s1.fc, t, s'.fc);
    }
  }

  lemma FinishingStep(sys: System, s: State, t: nat, s1: State)
    requires Goes(sys, s, t, s1) && FC.Finishing(s.fc.pc[t]) && t < sys.threads
    ensures CP.Kept(s.fc, s1.fc) && t < |s1.fc.pc| && t < |s1.fc.batch|
    ensures s1.fc.pc[t].Idle? ==> CP.UpdateReturned(s.fc, t, s1.fc)
    ensures !s1.fc.pc[t].Idle? ==> FC.Finishing(s1.fc.pc[t]) && CP.GoesOn(sys.threads, s.fc, t, s1.fc)
    ensures CP.Left(sys.threads, s.fc.pc[t], |s.fc.batch[t]|) >= 0
  {
    CP.FinishingGoes(sys.threads, s.fc, t);
    CP.MovedKeeps(sys.threads, sys.app, s.fc, t, s1.fc);
    assert FC.PcInRange(s.fc.pc[t], sys.threads, s.fc.batch[t]);
    if s1.fc.pc[t].Idle? {
      CP.ReturnsUpdate(sys.threads, sys.app, s.fc, t, s1.fc);
    }
  }

  /** The batch of `s` is published as a whole, its session is over, and the combiner has returned. */
  ghost predicate Completed(sys: System, s: State, t: nat, log: seq<Entry>, s': State) {
    && Published(s'.ring) == s'.ring.h.log == log && s'.ring.producer == R.NoSession
    && s'.fc.hist == s.fc.hist && s'.fc.pub == |s.fc.hist| && CP.UpdateReturned(s.fc, t, s'.fc)
  }

  /**
   From every reachable state in which the combiner publishes its batch and the ring has room for
   what is left of it, the run can go on to where all of it is published, head and tail are written
   back, and the combiner has returned its own update.
   */
  lemma StopCompletes(sys: System, s: State, t: nat) returns (moves: seq<Move>, s': State)
    requires Reachable(sys, s) && t < sys.threads && t < |s.fc.pc| && s.fc.pc[t].StopPublish?
    requires Room(sys.n, s.ring) >= |s.before + ToLog(sys, s)| - |s.ring.h.log|
    ensures Path(sys, s, moves, s') && Completed(sys, s, t, s.before + ToLog(sys, s), s')
  {
    Start(sys, s);
    moves, s' := StopOn(sys, s, [], s, t);
  }

  lemma StopOn(sys: System, s0: State, moves: seq<Move>, s: State, t: nat) returns (moves': seq<Move>, s': State)
    requires Path(sys, s0, moves, s) && t < sys.threads && t < |s.fc.pc| && s.fc.pc[t].StopPublish?
    requires Room(sys.n, s.ring) >= |s.before + ToLog(sys, s)| - |s.ring.h.log|
    ensures Path(sys, s0, moves', s') && Completed(sys, s, t, s.before + ToLog(sys, s), s')
  {
    var all := s.before + ToLog(sys, s);
    HolderIs(sys, s, t);
    LogsInStop(sys, s);
    EndsInCommit(s.before, sys.bytes(s.fc.mem), s.copies, s.table);
    var moves1, s1 := LogAll(sys, s0, moves, s, all);
    moves', s' := CloseOn(sys, s0, moves1, s1, t);
  }

  /** Everything is logged: the session closes, and the batch is acknowledged. */
  lemma CloseOn(sys: System, s0: State, moves: seq<Move>, s: State, t: nat) returns (moves': seq<Move>, s': State)
    requires Path(sys, s0, moves, s) && t < sys.threads && t < |s.fc.pc| && s.fc.pc[t].StopPublish?
    requires s.ring.h.log == s.before + ToLog(sys, s) == Published(s.ring) && s.ring.producer == R.Working(true)
    ensures Path(sys, s0, moves', s') && Completed(sys, s, t, s.ring.h.log, s')
  {
    var s1 := WalkThread(sys, s0, moves, s, t, [], []);
    var moves1 := moves + [Thread(t, FC.Go, [], [])];
    SessionMoved(sys.threads, sys.app, s.fc, t, s1.fc);
    CP.MovedKeeps(sys.threads, sys.app, s.fc, t, s1.fc);
    moves', s' := BackOn(sys, s0, moves1, s1, t);
    CP.ReturnedLater(s.fc, s1.fc, t, s'.fc);
  }

  lemma BackOn(sys: System, s0: State, moves: seq<Move>, s: State, t: nat) returns (moves': seq<Move>, s': State)
    requires Path(sys, s0, moves, s) && t < sys.threads && t < |s.fc.pc| && s.fc.pc[t].StopBack?
    requires s.ring.h.log == Published(s.ring) && s.ring.producer == R.Working(true)
    ensures Path(sys, s0, moves', s') && s'.ring.h.log == Published(s'.ring) == s.ring.h.log
    ensures s'.ring.producer == R.NoSession
    ensures s'.fc.hist == s.fc.hist && s'.fc.pub == s.fc.pub && CP.UpdateReturned(s.fc, t, s'.fc)
  {
    HolderIs(sys, s, t);
    ReachableRing(sys, s);
    var moves1, s1 := WrittenBack(sys, s0, moves, s);
    var s2 := WalkThread(sys, s0, moves1, s1, t, [], []);
    var moves2 := moves1 + [Thread(t, FC.Go, [], [])];
    SessionMoved(sys.threads, sys.app, s1.fc, t, s2.fc);
    CP.MovedKeeps(sys.threads, sys.app, s1.fc, t, s2.fc);
    moves', s' := Acknowledges(sys, s0, moves2, s2, t);
    CP.ReturnedLater(s1.fc, s2.fc, t, s'.fc);
  }

  lemma ReachableRing(sys: System, s: State)
    requires Reachable(sys, s)
    ensures R.Shaped(sys.n, s.ring) && !s.ring.recovering
    ensures s.ring.producer == R.Working(true) || s.ring.producer == R.NoSession ==> s.ring.h.pub == |s.ring.h.log|
  {
    ReachableInv(sys, s);
    ShapedRing(sys.n, sys.base, s.ring);
  }

  /** Room for a session that begins now. */
  function RoomAtBegin(n: nat, r: R.State): int {
    if r.lastPersistedHead < n && r.lastPersistedTail < n
    then n - 1 - RingSlots.Dist(n, r.lastPersistedHead, r.lastPersistedTail) else 0
  }

  // ---------------------------------------------------------------- the consumer

  lemma ConsumerMay(sys: System, s: State, p: FC.Pc, a: R.Step, r: R.State)
    requires RW.OfConsumer(a) && R.Follows(sys.n, s.ring, a, r)
    ensures MayStep(sys, s, p, a) && R.FreshRefresh(sys.n, s.ring, a)
  {}

  /** The consumer's steps are steps of the joint machine, whatever the threads do. */
  lemma {:induction false} ConsumerOn(sys: System, s0: State, moves: seq<Move>, s: State,
                                      rs: seq<R.State>, acts: seq<R.Step>, k: nat)
    returns (moves': seq<Move>)
    requires Path(sys, s0, moves, s) && R.Linked(sys.n, rs, acts) && rs[0] == s.ring && RW.ConsumerOnly(acts)
    requires k <= |acts|
    ensures Path(sys, s0, moves', s.(ring := rs[k]))
  {
    if k == 0 {
      assert s.(ring := rs[0]) == s;
      moves' := moves;
    } else {
      var moves1 := ConsumerOn(sys, s0, moves, s, rs, acts, k - 1);
      var s1 := s.(ring := rs[k - 1]);
      assert R.Follows(sys.n, rs[k - 1], acts[k - 1], rs[k]) && RW.OfConsumer(acts[k - 1]);
      ConsumerMay(sys, s1, CT.HolderPc(s1.fc), acts[k - 1], rs[k]);
      WalkRing(sys, s0, moves1, s1, acts[k - 1], rs[k]);
      moves' := moves1 + [Ring(acts[k - 1])];
    }
  }

  /** With the session over, the consumer brings the persistent image to what is published. */
  lemma Applied(sys: System, s0: State, moves: seq<Move>, s: State) returns (moves': seq<Move>, s': State)
    requires Path(sys, s0, moves, s) && s.ring.producer == R.NoSession
    ensures Path(sys, s0, moves', s') && SameButRing(s, s')
    ensures Published(s'.ring) == Published(s.ring) && s'.ring.h.log == s.ring.h.log && s'.ring.producer == R.NoSession
    ensures s'.ring.image == sys.base + Delta(Published(s.ring))
  {
    var acts, r := CaughtUp(sys, s);
    var rs :| R.Linked(sys.n, rs, acts) && rs[0] == s.ring && rs[|acts|] == r;
    moves' := ConsumerOn(sys, s0, moves, s, rs, acts, |acts|);
    s' := s.(ring := r);
  }

  lemma CaughtUp(sys: System, s: State) returns (acts: seq<R.Step>, r: R.State)
    requires Reachable(sys, s) && s.ring.producer == R.NoSession
    ensures RW.ConsumerOnly(acts) && RR.Leads(sys.n, s.ring, acts, r)
    ensures r.h.log == s.ring.h.log && r.h.pub == s.ring.h.pub && r.producer == R.NoSession
    ensures r.image == sys.base + Delta(Published(r))
  {
    ReachableInv(sys, s);
    ReachableRing(sys, s);
    RW.Start(sys.n, sys.base, s.ring);
    acts, r := RW.CatchesUp(sys.n, sys.base, s.ring, [], s.ring);
    BaseOf(sys.n, sys.base, r);
  }

  lemma BaseOf(n: nat, base: Image, r: R.State)
    requires RR.Reached(n, base, r)
    ensures r.h.base == base
  {
    var rs, acts :| R.IsRun(n, base, rs, acts) && R.AllRefreshesFresh(n, rs, acts) && rs[|acts|] == r;
    BaseStays(n, base, rs, acts, |acts|);
  }

  /**
   And the consumer can then bring the persistent image to the memory of the batch.
   */
  lemma StopReachesImage(sys: System, s: State, t: nat) returns (moves: seq<Move>, s': State)
    requires Reachable(sys, s) && t < sys.threads && t < |s.fc.pc| && s.fc.pc[t].StopPublish?
    requires Room(sys.n, s.ring) >= |s.before + ToLog(sys, s)| - |s.ring.h.log|
    ensures Path(sys, s, moves, s') && Completed(sys, s, t, s.before + ToLog(sys, s), s')
    ensures s'.ring.image == sys.bytes(s.fc.mem)
  {
    HolderIs(sys, s, t);
    var moves1, s1 := StopCompletes(sys, s, t);
    moves, s' := Applied(sys, s, moves1, s1);
    StopGivesMemory(sys, s);
  }

  lemma StopGivesMemory(sys: System, s: State)
    requires Reachable(sys, s) && InStop(s)
    ensures sys.base + Delta(s.before + ToLog(sys, s)) == sys.bytes(s.fc.mem)
  {
    ReachableInv(sys, s);
    BatchGivesMemory(sys.base, s.before, Shadow(sys, s.fc), sys.bytes(s.fc.mem), s.copies, s.table);
  }

  /**
   And so it is from where the combiner has executed its batch, for everything that was recorded of it
   and covers it, if the ring has room for the entries.
   */
  lemma BatchCompletes(sys: System, s: State, t: nat, copies: seq<Copy>, table: seq<nat>)
    returns (moves: seq<Move>, s': State)
    requires Reachable(sys, s) && t < sys.threads && t < |s.fc.pc| && s.fc.pc[t].StopLoad?
    requires s.ring.producer == R.NoSession
    requires Recorded(Shadow(sys, s.fc), sys.bytes(s.fc.mem), copies, table)
    requires RoomAtBegin(sys.n, s.ring) >= |StopLog(sys.bytes(s.fc.mem), copies, table)|
    ensures Path(sys, s, moves, s')
    ensures Completed(sys, s, t, s.ring.h.log + StopLog(sys.bytes(s.fc.mem), copies, table), s')
    ensures s'.ring.image == sys.bytes(s.fc.mem)
  {
    var moves1, s1 := StopEntered(sys, s, t, copies, table);
    HolderIs(sys, s1, t);
    var moves2, s2 := StopOn(sys, s, moves1, s1, t);
    moves, s' := Applied(sys, s, moves2, s2);
    StopGivesMemory(sys, s1);
    CP.ReturnedLater(s.fc, s1.fc, t, s'.fc);
  }

  /** The combiner loads head and tail and takes over what was recorded. */
  lemma StopEntered(sys: System, s: State, t: nat, copies: seq<Copy>, table: seq<nat>)
    returns (moves: seq<Move>, s': State)
    requires Reachable(sys, s) && t < sys.threads && t < |s.fc.pc| && s.fc.pc[t].StopLoad?
    requires s.ring.producer == R.NoSession
    requires Recorded(Shadow(sys, s.fc), sys.bytes(s.fc.mem), copies, table)
    ensures Path(sys, s, moves, s') && t < |s'.fc.pc| && s'.fc.pc[t].StopPublish?
    ensures s'.before == s'.ring.h.log == s.ring.h.log && s'.copies == copies && s'.table == table
    ensures s'.fc.hist == s.fc.hist && s'.fc.mem == s.fc.mem && s'.fc.pub == s.fc.pub && CP.Kept(s.fc, s'.fc)
    ensures Room(sys.n, s'.ring) == RoomAtBegin(sys.n, s.ring)
  {
    Start(sys, s);
    HolderIs(sys, s, t);
    ReachableRing(sys, s);
    var moves1, s1 := Loaded(sys, s, [], s);
    s' := WalkThread(sys, s, moves1, s1, t, copies, table);
    moves := moves1 + [Thread(t, FC.Go, copies, table)];
    SessionMoved(sys.threads, sys.app, s1.fc, t, s'.fc);
    CP.MovedKeeps(sys.threads, sys.app, s1.fc, t, s'.fc);
  }

  // ---------------------------------------------------------------- an mmap

  predicate LogsMap(p: FC.Pc) {
    p.ExecLoad? || p.ExecPublish? || p.ExecBack? || p.MmapLoad? || p.MmapPublish? || p.MmapBack?
  }

  /** The next stage of the session of an mmap, and where the thread goes on after it. */
  function AfterMap(p: FC.Pc): FC.Pc {
    match p
    case ExecLoad(j) => FC.ExecPublish(j)
    case ExecPublish(j) => FC.ExecBack(j)
    case ExecBack(j) => FC.Exec(j)
    case MmapLoad => FC.MmapPublish
    case MmapPublish => FC.MmapBack
    case MmapBack => FC.MmapUnlock
    case _ => p
  }

  lemma MapMoved(n: nat, app: FC.App, s: FC.State, t: nat, s': FC.State)
    requires CP.Moved(n, app, s, t, s') && LogsMap(s.pc[t])
    ensures s' == FC.At(s, t, AfterMap(s.pc[t]))
  {}

  /** Of the threads of `fc` only `t` has moved, to `p`. */
  ghost predicate OnlyAt(s: State, fc: FC.State, t: nat, p: FC.Pc) {
    t < |fc.pc| && s.fc == FC.At(fc, t, p)
  }

  lemma OnlyAtRing(s: State, fc: FC.State, t: nat, p: FC.Pc, s': State)
    requires OnlyAt(s, fc, t, p) && SameButRing(s, s')
    ensures OnlyAt(s', fc, t, p)
  {}

  lemma MapStep(sys: System, s0: State, moves: seq<Move>, s: State, fc: FC.State, t: nat, p: FC.Pc)
    returns (moves': seq<Move>, s': State)
    requires Path(sys, s0, moves, s) && t < sys.threads && OnlyAt(s, fc, t, p) && LogsMap(p)
    requires s.ring.producer == if Loading(p) then R.Working(false) else if Logging(p) then R.Working(true) else R.NoSession
    ensures Path(sys, s0, moves', s') && s'.ring == s.ring && OnlyAt(s', fc, t, AfterMap(p))
  {
    s' := WalkThread(sys, s0, moves, s, t, [], []);
    moves' := moves + [Thread(t, FC.Go, [], [])];
    MapMoved(sys.threads, sys.app, s.fc, t, s'.fc);
    CP.AtAt(fc, t, p, AfterMap(p));
  }

  /** The one entry of such a session is written and published. */
  lemma CommitAlone(sys: System, s0: State, moves: seq<Move>, s: State) returns (moves': seq<Move>, s': State)
    requires Path(sys, s0, moves, s) && Logging(CT.HolderPc(s.fc)) && !InStop(s) && R.Shaped(sys.n, s.ring)
    requires s.ring.producer == R.Working(false) && Room(sys.n, s.ring) > 0
    ensures Path(sys, s0, moves', s') && SameButRing(s, s') && R.Shaped(sys.n, s'.ring)
    ensures s'.ring.producer == R.Working(true) && s'.ring.h.log == s.ring.h.log + [Commit]
  {
    var a, r1 := Appended(sys.n, s.ring, Commit);
    WalkRing(sys, s0, moves, s, R.CommitEntry, r1);
    var moves1, s1 := moves + [Ring(R.CommitEntry)], s.(ring := r1);
    ReachableRing(sys, s1);
    var r2 := PublishedNext(sys.n, r1);
    WalkRing(sys, s0, moves1, s1, R.Publish, r2);
    var moves2, s2 := moves1 + [Ring(R.Publish)], s1.(ring := r2);
    ReachableRing(sys, s2);
    var r3 := MirroredNext(sys.n, r2);
    WalkRing(sys, s0, moves2, s2, R.MirrorTail, r3);
    moves', s' := moves2 + [Ring(R.MirrorTail)], s2.(ring := r3);
    ReachableRing(sys, s');
  }

  lemma AllPublished(r: R.State)
    requires r.h.pub == |r.h.log|
    ensures Published(r) == r.h.log
  {}

  lemma MapHolder(sys: System, s: State, fc: FC.State, t: nat, p: FC.Pc)
    requires Reachable(sys, s) && t < sys.threads && OnlyAt(s, fc, t, p) && LogsMap(p)
    ensures CT.HolderPc(s.fc) == p
  {
    HolderIs(sys, s, t);
  }

  /**
   The session of an mmap, inside a batch or outside, is brought to its end: its entry is published,
   head and tail are written back, and the thread goes on.
   */
  lemma MapCompletes(sys: System, s: State, t: nat) returns (moves: seq<Move>, s': State)
    requires Reachable(sys, s) && t < sys.threads && t < |s.fc.pc| && (s.fc.pc[t].ExecLoad? || s.fc.pc[t].MmapLoad?)
    requires s.ring.producer == R.NoSession && RoomAtBegin(sys.n, s.ring) > 0
    ensures Path(sys, s, moves, s') && s'.ring.producer == R.NoSession
    ensures Published(s'.ring) == s'.ring.h.log == s.ring.h.log + [Commit]
    ensures OnlyAt(s', s.fc, t, AfterMap(AfterMap(AfterMap(s.fc.pc[t]))))
  {
    Start(sys, s);
    CP.AtSame(s.fc, t);
    moves, s' := MapOn(sys, s, [], s, s.fc, t, s.fc.pc[t]);
  }

  lemma MapOn(sys: System, s0: State, moves: seq<Move>, s: State, fc: FC.State, t: nat, p: FC.Pc)
    returns (moves': seq<Move>, s': State)
    requires Path(sys, s0, moves, s) && t < sys.threads && OnlyAt(s, fc, t, p) && (p.ExecLoad? || p.MmapLoad?)
    requires s.ring.producer == R.NoSession && RoomAtBegin(sys.n, s.ring) > 0
    ensures Path(sys, s0, moves', s') && s'.ring.producer == R.NoSession
    ensures Published(s'.ring) == s'.ring.h.log == s.ring.h.log + [Commit]
    ensures OnlyAt(s', fc, t, AfterMap(AfterMap(AfterMap(p))))
  {
    var moves2, s2 := MapBegun(sys, s0, moves, s, fc, t, p);
    moves', s' := MapPublishes(sys, s0, moves2, s2, fc, t, AfterMap(p));
  }

  lemma MapPublishes(sys: System, s0: State, moves: seq<Move>, s: State, fc: FC.State, t: nat, p: FC.Pc)
    returns (moves': seq<Move>, s': State)
    requires Path(sys, s0, moves, s) && t < sys.threads && OnlyAt(s, fc, t, p)
    requires p.ExecPublish? || p.MmapPublish?
    requires s.ring.producer == R.Working(false) && Room(sys.n, s.ring) > 0
    ensures Path(sys, s0, moves', s') && s'.ring.producer == R.NoSession
    ensures Published(s'.ring) == s'.ring.h.log == s.ring.h.log + [Commit]
    ensures OnlyAt(s', fc, t, AfterMap(AfterMap(p)))
  {
    var moves2, s2 := MapLogged(sys, s0, moves, s, fc, t, p);
    moves', s' := MapCloses(sys, s0, moves2, s2, fc, t, AfterMap(p));
  }

  lemma MapBegun(sys: System, s0: State, moves: seq<Move>, s: State, fc: FC.State, t: nat, p: FC.Pc)
    returns (moves': seq<Move>, s': State)
    requires Path(sys, s0, moves, s) && t < sys.threads && OnlyAt(s, fc, t, p)
    requires (p.ExecLoad? || p.MmapLoad?) && s.ring.producer == R.NoSession
    ensures Path(sys, s0, moves', s') && OnlyAt(s', fc, t, AfterMap(p))
    ensures s'.ring.producer == R.Working(false) && s'.ring.h.log == s.ring.h.log
    ensures Room(sys.n, s'.ring) == RoomAtBegin(sys.n, s.ring)
  {
    var moves1, s1 := MapLoads(sys, s0, moves, s, fc, t, p);
    moves', s' := MapStep(sys, s0, moves1, s1, fc, t, p);
  }

  lemma MapLogged(sys: System, s0: State, moves: seq<Move>, s: State, fc: FC.State, t: nat, p: FC.Pc)
    returns (moves': seq<Move>, s': State)
    requires Path(sys, s0, moves, s) && t < sys.threads && OnlyAt(s, fc, t, p)
    requires p.ExecPublish? || p.MmapPublish?
    requires s.ring.producer == R.Working(false) && Room(sys.n, s.ring) > 0
    ensures Path(sys, s0, moves', s') && OnlyAt(s', fc, t, AfterMap(p))
    ensures s'.ring.producer == R.Working(true) && s'.ring.h.log == s.ring.h.log + [Commit]
  {
    var moves1, s1 := MapCommits(sys, s0, moves, s, fc, t, p);
    moves', s' := MapStep(sys, s0, moves1, s1, fc, t, p);
  }

  lemma MapCommits(sys: System, s0: State, moves: seq<Move>, s: State, fc: FC.State, t: nat, p: FC.Pc)
    returns (moves': seq<Move>, s': State)
    requires Path(sys, s0, moves, s) && t < sys.threads && OnlyAt(s, fc, t, p)
    requires p.ExecPublish? || p.MmapPublish?
    requires s.ring.producer == R.Working(false) && Room(sys.n, s.ring) > 0
    ensures Path(sys, s0, moves', s') && OnlyAt(s', fc, t, p)
    ensures s'.ring.producer == R.Working(true) && s'.ring.h.log == s.ring.h.log + [Commit]
  {
    MapHolder(sys, s, fc, t, p);
    ReachableRing(sys, s);
    moves', s' := CommitAlone(sys, s0, moves, s);
    OnlyAtRing(s, fc, t, p, s');
  }

  lemma MapLoads(sys: System, s0: State, moves: seq<Move>, s: State, fc: FC.State, t: nat, p: FC.Pc)
    returns (moves': seq<Move>, s': State)
    requires Path(sys, s0, moves, s) && t < sys.threads && OnlyAt(s, fc, t, p)
    requires (p.ExecLoad? || p.MmapLoad?) && s.ring.producer == R.NoSession
    ensures Path(sys, s0, moves', s') && OnlyAt(s', fc, t, p)
    ensures s'.ring.producer == R.Working(false) && s'.ring.h.log == s.ring.h.log
    ensures Room(sys.n, s'.ring) == RoomAtBegin(sys.n, s.ring)
  {
    MapHolder(sys, s, fc, t, p);
    ReachableRing(sys, s);
    moves', s' := Loaded(sys, s0, moves, s);
    OnlyAtRing(s, fc, t, p, s');
  }

  lemma MapCloses(sys: System, s0: State, moves: seq<Move>, s: State, fc: FC.State, t: nat, p: FC.Pc)
    returns (moves': seq<Move>, s': State)
    requires Path(sys, s0, moves, s) && t < sys.threads && OnlyAt(s, fc, t, p)
    requires (p.ExecBack? || p.MmapBack?) && s.ring.producer == R.Working(true)
    ensures Path(sys, s0, moves', s') && s'.ring.producer == R.NoSession
    ensures Published(s'.ring) == s'.ring.h.log == s.ring.h.log
    ensures OnlyAt(s', fc, t, AfterMap(p))
  {
    MapHolder(sys, s, fc, t, p);
    ReachableRing(sys, s);
    var moves1, s1 := WrittenBack(sys, s0, moves, s);
    OnlyAtRing(s, fc, t, p, s1);
    moves', s' := MapStep(sys, s0, moves1, s1, fc, t, p);
    ReachableRing(sys, s');
    AllPublished(s'.ring);
  }

  /** A joint run can start from any start of the threads, on a new ring with their memory as its image. */
  lemma JointStart(threads: nat, app: FC.App, bytes: FC.Mem -> Image, n: nat, fc: FC.State) returns (sys: System, s: State)
    requires n >= 2 && FC.Init(threads, app, fc)
    ensures sys == System(threads, app, bytes, n, bytes(app.init)) && s.fc == fc && Init(sys, s) && Reachable(sys, s)
  {
    sys := System(threads, app, bytes, n, bytes(app.init));
    s := State(fc, R.Init(n, bytes(app.init)), [], [], []);
    RR.ReachedInit(n, bytes(app.init));
    assert bytes(app.init) + map[] == bytes(app.init);
    var moves: seq<Move> := [];
    assert IsRun(sys, [s], moves) && [s][|moves|] == s;
  }
}
