/**
 What one step of a thread means for the lock holder's way through a ring session, and for what is
 executed and published.
 */
module CombiningStages {
  import opened Options
  import opened FlatCombining
  import opened CombiningLock
  import opened CombiningTasks
  import opened CombiningHistory

  /** Loading the ring's head and tail. */
  predicate Loading(p: Pc) {
    p.ExecLoad? || p.StopLoad? || p.MmapLoad?
  }

  /** Enqueueing and committing. */
  predicate Logging(p: Pc) {
    p.ExecPublish? || p.StopPublish? || p.MmapPublish?
  }

  /** Writing head and tail back. */
  predicate Closing(p: Pc) {
    p.ExecBack? || p.StopBack? || p.MmapBack?
  }

  predicate InRing(p: Pc) {
    Loading(p) || Logging(p) || Closing(p)
  }

  /** A session is entered by loading and runs through its three stages. */
  predicate StageMove(p: Pc, p': Pc) {
    && (Loading(p) ==> Logging(p') && (p'.StopPublish? <==> p.StopLoad?))
    && (Logging(p) ==> Closing(p'))
    && (Closing(p) ==> !InRing(p'))
    && (!InRing(p) ==> !Logging(p') && !Closing(p'))
  }

  /** Memory and history change when a command is executed, and the end of instrument_stop publishes. */
  ghost predicate HistoryMove(p: Pc, s: State, s': State) {
    && s.hist <= s'.hist
    && (!p.Exec? ==> s'.hist == s.hist && s'.mem == s.mem)
    && s'.pub == (if p.StopPublish? then |s.hist| else s.pub)
  }

  ghost predicate StageEffect(s: State, t: nat, s': State) {
    && t < |s.pc| == |s'.pc|
    && StageMove(s.pc[t], s'.pc[t]) && HistoryMove(s.pc[t], s, s')
  }

  lemma IdleStage(n: nat, s: State, t: nat, a: Act)
    requires Sized(n, s) && t < n && s.pc[t].Idle? && !a.Go?
    ensures StageEffect(s, t, StepIdle(s, t, a))
  {}

  lemma WaitingStage(n: nat, s: State, t: nat)
    requires Sized(n, s) && t < n && Waiting(s.pc[t])
    ensures StageEffect(s, t, StepWaiting(s, t))
  {}

  lemma CollectingStage(n: nat, s: State, t: nat)
    requires Shaped(n, s) && t < n && Collecting(s.pc[t])
    ensures StageEffect(s, t, StepCollecting(n, s, t))
  {}

  lemma ExecutingStage(n: nat, app: App, s: State, t: nat, a: Act)
    requires Shaped(n, s) && t < n && Executing(s.pc[t])
    ensures StageEffect(s, t, StepExecuting(n, app, s, t, a))
  {}

  lemma FinishingStage(n: nat, s: State, t: nat)
    requires Shaped(n, s) && t < n && Finishing(s.pc[t])
    ensures StageEffect(s, t, StepFinishing(n, s, t))
  {}

  lemma ReadingStage(n: nat, app: App, s: State, t: nat)
    requires Sized(n, s) && t < n && Reading(s.pc[t])
    ensures StageEffect(s, t, StepReading(app, s, t))
  {}

  lemma MappingStage(n: nat, s: State, t: nat)
    requires Sized(n, s) && t < n && Mapping(s.pc[t])
    ensures StageEffect(s, t, StepMapping(s, t))
  {}

  lemma StepStage(n: nat, app: App, s: State, t: nat, a: Act)
    requires Shaped(n, s) && t < n && Enabled(s, t, a)
    ensures StageEffect(s, t, Step(n, app, s, t, a))
  {
    var p := s.pc[t];
    if p.Idle? {
      IdleStage(n, s, t, a);
    } else if Waiting(p) {
      WaitingStage(n, s, t);
    } else if Collecting(p) {
      CollectingStage(n, s, t);
    } else if Executing(p) {
      ExecutingStage(n, app, s, t, a);
    } else if Finishing(p) {
      FinishingStage(n, s, t);
    } else if Reading(p) {
      ReadingStage(n, app, s, t);
    } else {
      MappingStage(n, s, t);
    }
  }

  /** A step of another thread leaves the holder where it is; the holder moves by stages. */
  ghost predicate HolderMove(s: State, t: nat, s': State) {
    && t < |s.pc| && (InRing(s.pc[t]) ==> HolderPc(s) == s.pc[t])
    && (OtherMoved(s, s') || HolderMoved(s, t, s'))
  }

  ghost predicate OtherMoved(s: State, s': State) {
    HolderPc(s') == HolderPc(s) && s'.hist == s.hist && s'.mem == s.mem && s'.pub == s.pub
  }

  ghost predicate HolderMoved(s: State, t: nat, s': State)
    requires t < |s.pc|
  {
    && StageMove(HolderPc(s), HolderPc(s')) && HistoryMove(HolderPc(s), s, s')
    && (InRing(HolderPc(s)) ==> s.pc[t] == HolderPc(s))
  }

  lemma HolderMoves(n: nat, s: State, t: nat, s': State)
    requires LockInv(n, s) && t < n && LockEffect(n, s, t, s') && StageEffect(s, t, s')
    ensures HolderMove(s, t, s')
  {
    if !HoldsLock(s.pc[t]) && !HoldsLock(s'.pc[t]) {
      assert HolderPc(s') == HolderPc(s);
    } else if HoldsLock(s.pc[t]) {
      assert HolderPc(s) == s.pc[t];
    } else {
      assert HolderPc(s) == Idle;
    }
  }

  lemma StepHolder(n: nat, app: App, s: State, t: nat, a: Act)
    requires Inv(n, app, s) && t < n && Enabled(s, t, a)
    ensures Inv(n, app, Step(n, app, s, t, a)) && HolderMove(s, t, Step(n, app, s, t, a))
    ensures s.pub <= |s.hist| && s.mem == Fold(app, s.hist)
  {
    StepInv(n, app, s, t, a);
    StepLockEffect(n, app, s, t, a);
    StepStage(n, app, s, t, a);
    HolderMoves(n, s, t, Step(n, app, s, t, a));
  }
}
