/**
 The lock under flat combining: one holder, and no reader inside once a full scan has passed.
 */
module CombiningLock {
  import opened Options
  import opened FlatCombining

  predicate HoldsLock(p: Pc) {
    || p.Collect? || p.Mark? || p.Scan? || AfterScan(p)
    || p.MmapLoad? || p.MmapPublish? || p.MmapBack? || p.MmapUnlock?
  }

  /** The combiner's scan of the reader flags has completed. */
  predicate AfterScan(p: Pc) {
    || p.Exec? || p.ExecLoad? || p.ExecPublish? || p.ExecBack?
    || p.StopLoad? || p.StopPublish? || p.StopBack? || p.Finish? || p.ClearSelf? || p.Unlock?
  }

  /** Past the lockIsFree test of readLock and not yet out of readUnlock. */
  predicate InRead(p: Pc) {
    p.RoRead? || p.RoLeave?
  }

  /** The reader flag of a thread at `p` is READING. */
  predicate Flagged(p: Pc) {
    p.RoTest? || p.RoUnmark? || InRead(p)
  }

  /** Between loading the shared head and tail of the ring and writing them back. */
  predicate InSession(p: Pc) {
    || p.ExecPublish? || p.ExecBack? || p.StopPublish? || p.StopBack? || p.MmapPublish? || p.MmapBack?
  }

  ghost predicate LockOk(writers: nat, holder: Option<nat>, pc: seq<Pc>) {
    && writers <= 1
    && (writers == 1 <==> holder.Some?)
    && (holder.Some? ==> holder.value < |pc|)
    && forall t | 0 <= t < |pc| :: HoldsLock(pc[t]) <==> holder == Some(t)
  }

  ghost predicate FlagsOk(readers: seq<bool>, pc: seq<Pc>) {
    && |readers| == |pc|
    && forall t | 0 <= t < |pc| :: readers[t] <==> Flagged(pc[t])
  }

  /** The holder at `p` has seen slot `j` not reading since it took the lock. */
  predicate Passed(p: Pc, j: nat) {
    AfterScan(p) || (p.Scan? && j < p.i)
  }

  ghost predicate ExclusionOk(pc: seq<Pc>) {
    forall h, j | 0 <= h < |pc| && 0 <= j < |pc| && Passed(pc[h], j) :: !InRead(pc[j])
  }

  ghost predicate LockInv(n: nat, s: State) {
    && Shaped(n, s)
    && LockOk(s.writers, s.holder, s.pc)
    && FlagsOk(s.readers, s.pc)
    && ExclusionOk(s.pc)
  }

  // ---------------------------------------------------------------- what one step does

  /** The part of a step that concerns the lock word, the reader flags and the scan. */
  ghost predicate LockEffect(n: nat, s: State, t: nat, s': State)
    requires |s.pc| == |s.readers| == n && t < n
  {
    && |s'.pc| == n
    && var p, p' := s.pc[t], s'.pc[t];
    && s'.pc == s.pc[t := p']
    && (HoldsLock(p) == HoldsLock(p') ==> s'.writers == s.writers && s'.holder == s.holder)
    && (!HoldsLock(p) && HoldsLock(p') ==> s.writers == 0 && s'.writers == 1 && s'.holder == Some(t))
    && (HoldsLock(p) && !HoldsLock(p') ==> s'.writers == 0 && s'.holder == None)
    && s'.readers == (if Flagged(p) == Flagged(p') then s.readers else s.readers[t := Flagged(p')])
    && (InRead(p') && !InRead(p) ==> s.writers == 0)
    && (AfterScan(p') && !AfterScan(p) ==> p.Scan? && p.i == n)
    && (p'.Scan? && p'.i > 0 ==> p.Scan? && p'.i == p.i + 1 <= n && !s.readers[p.i])
  }

  /** The part of a step that concerns batches and indices. */
  ghost predicate ShapeEffect(n: nat, s: State, t: nat, s': State)
    requires |s.pc| == |s.batch| == n && t < n
  {
    && |s'.readers| == |s'.task| == |s'.pc| == |s'.batch| == n
    && s'.pc == s.pc[t := s'.pc[t]] && s'.batch == s.batch[t := s'.batch[t]]
    && PcInRange(s'.pc[t], n, s'.batch[t])
    && (s'.batch[t] == s.batch[t] || s'.batch[t] == [] || (exists i :: i < n && s'.batch[t] == s.batch[t] + [i]))
  }

  /** Every thread has its slots. */
  predicate Sized(n: nat, s: State) {
    |s.readers| == |s.task| == |s.pc| == |s.batch| == n
  }

  lemma IdleEffect(n: nat, app: App, s: State, t: nat, a: Act)
    requires Sized(n, s) && t < n && s.pc[t].Idle? && !a.Go?
    ensures LockEffect(n, s, t, StepIdle(s, t, a))
  {}

  lemma IdleShape(n: nat, app: App, s: State, t: nat, a: Act)
    requires Sized(n, s) && t < n && s.pc[t].Idle? && !a.Go?
    ensures ShapeEffect(n, s, t, StepIdle(s, t, a))
  {}

  lemma WaitingCas(n: nat, app: App, s: State, t: nat, a: Act)
    requires Sized(n, s) && t < n && (s.pc[t].RwCas?)
    ensures LockEffect(n, s, t, StepWaiting(s, t))
  {}

  lemma WaitingReturn(n: nat, app: App, s: State, t: nat, a: Act)
    requires Sized(n, s) && t < n && (s.pc[t].RwFinish?)
    ensures LockEffect(n, s, t, StepWaiting(s, t))
  {}

  lemma WaitingLook(n: nat, app: App, s: State, t: nat, a: Act)
    requires Sized(n, s) && t < n && (s.pc[t].RwLoop? || s.pc[t].RwTestDone? || s.pc[t].RwTestFree? || s.pc[t].RwAwaitDone?)
    ensures LockEffect(n, s, t, StepWaiting(s, t))
  {}

  lemma WaitingEffect(n: nat, app: App, s: State, t: nat, a: Act)
    requires Sized(n, s) && t < n && Waiting(s.pc[t])
    ensures LockEffect(n, s, t, StepWaiting(s, t))
  {
    if s.pc[t].RwCas? {
      WaitingCas(n, app, s, t, a);
    } else if s.pc[t].RwFinish? {
      WaitingReturn(n, app, s, t, a);
    } else {
      WaitingLook(n, app, s, t, a);
    }
  }

  lemma WaitingShape(n: nat, app: App, s: State, t: nat, a: Act)
    requires Sized(n, s) && t < n && Waiting(s.pc[t])
    ensures ShapeEffect(n, s, t, StepWaiting(s, t))
  {}

  lemma CollectingEffect(n: nat, app: App, s: State, t: nat, a: Act)
    requires Shaped(n, s) && t < n && Collecting(s.pc[t])
    ensures LockEffect(n, s, t, StepCollecting(n, s, t))
  {}

  lemma CollectingShape(n: nat, app: App, s: State, t: nat, a: Act)
    requires Shaped(n, s) && t < n && Collecting(s.pc[t])
    ensures ShapeEffect(n, s, t, StepCollecting(n, s, t))
  {}

  lemma ExecutingEffect(n: nat, app: App, s: State, t: nat, a: Act)
    requires Shaped(n, s) && t < n && Executing(s.pc[t])
    ensures LockEffect(n, s, t, StepExecuting(n, app, s, t, a))
  {}

  lemma ExecutingShape(n: nat, app: App, s: State, t: nat, a: Act)
    requires Shaped(n, s) && t < n && Executing(s.pc[t])
    ensures ShapeEffect(n, s, t, StepExecuting(n, app, s, t, a))
  {}

  lemma FinishingEffect(n: nat, app: App, s: State, t: nat, a: Act)
    requires Shaped(n, s) && t < n && Finishing(s.pc[t])
    ensures LockEffect(n, s, t, StepFinishing(n, s, t))
  {}

  lemma FinishingShape(n: nat, app: App, s: State, t: nat, a: Act)
    requires Shaped(n, s) && t < n && Finishing(s.pc[t])
    ensures ShapeEffect(n, s, t, StepFinishing(n, s, t))
  {}

  lemma ReadingFlag(n: nat, app: App, s: State, t: nat, a: Act)
    requires Sized(n, s) && t < n && (s.pc[t].RoMark? || s.pc[t].RoUnmark?)
    ensures LockEffect(n, s, t, StepReading(app, s, t))
  {}

  lemma ReadingLook(n: nat, app: App, s: State, t: nat, a: Act)
    requires Sized(n, s) && t < n && (s.pc[t].RoTest? || s.pc[t].RoSpin?)
    ensures LockEffect(n, s, t, StepReading(app, s, t))
  {}

  lemma ReadingInside(n: nat, app: App, s: State, t: nat, a: Act)
    requires Sized(n, s) && t < n && (s.pc[t].RoRead? || s.pc[t].RoLeave?)
    ensures LockEffect(n, s, t, StepReading(app, s, t))
  {}

  lemma ReadingEffect(n: nat, app: App, s: State, t: nat, a: Act)
    requires Sized(n, s) && t < n && Reading(s.pc[t])
    ensures LockEffect(n, s, t, StepReading(app, s, t))
  {
    if s.pc[t].RoMark? || s.pc[t].RoUnmark? {
      ReadingFlag(n, app, s, t, a);
    } else if s.pc[t].RoTest? || s.pc[t].RoSpin? {
      ReadingLook(n, app, s, t, a);
    } else {
      ReadingInside(n, app, s, t, a);
    }
  }

  lemma ReadingShape(n: nat, app: App, s: State, t: nat, a: Act)
    requires Sized(n, s) && t < n && Reading(s.pc[t])
    ensures ShapeEffect(n, s, t, StepReading(app, s, t))
  {}

  lemma MappingLock(n: nat, app: App, s: State, t: nat, a: Act)
    requires Sized(n, s) && t < n && (s.pc[t].MmapCas? || s.pc[t].MmapUnlock?)
    ensures LockEffect(n, s, t, StepMapping(s, t))
  {}

  lemma MappingMove(n: nat, app: App, s: State, t: nat, a: Act)
    requires Sized(n, s) && t < n && (s.pc[t].MmapTest? || s.pc[t].MmapLoad? || s.pc[t].MmapPublish? || s.pc[t].MmapBack?)
    ensures LockEffect(n, s, t, StepMapping(s, t))
  {}

  lemma MappingEffect(n: nat, app: App, s: State, t: nat, a: Act)
    requires Sized(n, s) && t < n && Mapping(s.pc[t])
    ensures LockEffect(n, s, t, StepMapping(s, t))
  {
    if s.pc[t].MmapCas? || s.pc[t].MmapUnlock? {
      MappingLock(n, app, s, t, a);
    } else {
      MappingMove(n, app, s, t, a);
    }
  }

  lemma MappingShape(n: nat, app: App, s: State, t: nat, a: Act)
    requires Sized(n, s) && t < n && Mapping(s.pc[t])
    ensures ShapeEffect(n, s, t, StepMapping(s, t))
  {}

  lemma StepLockEffect(n: nat, app: App, s: State, t: nat, a: Act)
    requires Shaped(n, s) && t < n && Enabled(s, t, a)
    ensures LockEffect(n, s, t, Step(n, app, s, t, a))
  {
    var p := s.pc[t];
    if p.Idle? {
      IdleEffect(n, app, s, t, a);
    } else if Waiting(p) {
      WaitingEffect(n, app, s, t, a);
    } else if Collecting(p) {
      CollectingEffect(n, app, s, t, a);
    } else if Executing(p) {
      ExecutingEffect(n, app, s, t, a);
    } else if Finishing(p) {
      FinishingEffect(n, app, s, t, a);
    } else if Reading(p) {
      ReadingEffect(n, app, s, t, a);
    } else {
      MappingEffect(n, app, s, t, a);
    }
  }

  lemma StepShapeEffect(n: nat, app: App, s: State, t: nat, a: Act)
    requires Shaped(n, s) && t < n && Enabled(s, t, a)
    ensures ShapeEffect(n, s, t, Step(n, app, s, t, a))
  {
    var p := s.pc[t];
    if p.Idle? {
      IdleShape(n, app, s, t, a);
    } else if Waiting(p) {
      WaitingShape(n, app, s, t, a);
    } else if Collecting(p) {
      CollectingShape(n, app, s, t, a);
    } else if Executing(p) {
      ExecutingShape(n, app, s, t, a);
    } else if Finishing(p) {
      FinishingShape(n, app, s, t, a);
    } else if Reading(p) {
      ReadingShape(n, app, s, t, a);
    } else {
      MappingShape(n, app, s, t, a);
    }
  }

  // ---------------------------------------------------------------- preservation

  lemma StepShaped(n: nat, app: App, s: State, t: nat, a: Act)
    requires Shaped(n, s) && t < n && Enabled(s, t, a)
    ensures Shaped(n, Step(n, app, s, t, a))
  {
    StepShapeEffect(n, app, s, t, a);
    ShapeKept(n, s, t, Step(n, app, s, t, a));
  }

  lemma ShapeKept(n: nat, s: State, t: nat, s': State)
    requires Shaped(n, s) && t < n && ShapeEffect(n, s, t, s')
    ensures Shaped(n, s')
  {}

  lemma LockKept(n: nat, s: State, t: nat, s': State)
    requires LockInv(n, s) && t < n && LockEffect(n, s, t, s')
    ensures LockOk(s'.writers, s'.holder, s'.pc)
    ensures FlagsOk(s'.readers, s'.pc)
    ensures ExclusionOk(s'.pc)
  {}

  lemma StepLockInv(n: nat, app: App, s: State, t: nat, a: Act)
    requires LockInv(n, s) && t < n && Enabled(s, t, a)
    ensures LockInv(n, Step(n, app, s, t, a))
  {
    StepShaped(n, app, s, t, a);
    StepLockEffect(n, app, s, t, a);
    LockKept(n, s, t, Step(n, app, s, t, a));
  }
}
