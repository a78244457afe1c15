/**
 A combiner's batch holds every request that was waiting when its last pass over the slots began.
 */
module CombiningBatches {
  import opened Options
  import opened FlatCombining
  import opened CombiningLock
  import opened CombiningTasks
  import opened CombiningHistory

  /** Slot `u` is collected, or it waits and the pass of the combiner at `p` has not come to it. */
  predicate Awaited(p: Pc, r: Ready, u: nat) {
    r == Started || (r == ReadyToExecute && (p.Collect? || p.Mark?) && p.i <= u)
  }

  ghost predicate Gathers(n: nat, s: State, h: nat, u: nat) {
    && Sized(n, s) && h < n && u < n
    && (Collecting(s.pc[h]) || s.pc[h] == Exec(0)) && Awaited(s.pc[h], s.task[u].ready, u)
  }

  lemma CollectorGathers(n: nat, s: State, h: nat, u: nat)
    requires Shaped(n, s) && Gathers(n, s, h, u) && Collecting(s.pc[h])
    ensures Gathers(n, StepCollecting(n, s, h), h, u)
  {
    assert PcInRange(s.pc[h], n, s.batch[h]);
  }

  /** Nobody else touches a slot that waits or is collected. */
  lemma IdleLeaves(n: nat, s: State, t: nat, a: Act, u: nat)
    requires Sized(n, s) && t < n && u < n && s.pc[t].Idle? && !a.Go?
    requires SlotOk(s.pc[t], s.task[t].ready, t) && (s.task[u].ready == Started || s.task[u].ready == ReadyToExecute)
    ensures Sized(n, StepIdle(s, t, a)) && StepIdle(s, t, a).task[u].ready == s.task[u].ready
  {}

  lemma WaitingLeaves(n: nat, s: State, t: nat, u: nat)
    requires Sized(n, s) && t < n && u < n && Waiting(s.pc[t])
    requires SlotOk(s.pc[t], s.task[t].ready, t) && (s.task[u].ready == Started || s.task[u].ready == ReadyToExecute)
    ensures Sized(n, StepWaiting(s, t)) && StepWaiting(s, t).task[u].ready == s.task[u].ready
  {}

  lemma ReadingLeaves(n: nat, app: App, s: State, t: nat, u: nat)
    requires Sized(n, s) && t < n && u < n && Reading(s.pc[t])
    ensures Sized(n, StepReading(app, s, t)) && StepReading(app, s, t).task[u].ready == s.task[u].ready
  {}

  lemma MappingLeaves(n: nat, s: State, t: nat, u: nat)
    requires Sized(n, s) && t < n && u < n && Mapping(s.pc[t])
    ensures Sized(n, StepMapping(s, t)) && StepMapping(s, t).task[u].ready == s.task[u].ready
  {}

  lemma OthersLeave(n: nat, app: App, s: State, t: nat, a: Act, u: nat)
    requires Shaped(n, s) && t < n && u < n && Enabled(s, t, a)
    requires !Collecting(s.pc[t]) && !Executing(s.pc[t]) && !Finishing(s.pc[t])
    requires SlotOk(s.pc[t], s.task[t].ready, t) && (s.task[u].ready == Started || s.task[u].ready == ReadyToExecute)
    ensures var s' := Step(n, app, s, t, a); Sized(n, s') && s'.task[u].ready == s.task[u].ready
  {
    if s.pc[t].Idle? {
      IdleLeaves(n, s, t, a, u);
    } else if Waiting(s.pc[t]) {
      WaitingLeaves(n, s, t, u);
    } else if Reading(s.pc[t]) {
      ReadingLeaves(n, app, s, t, u);
    } else {
      MappingLeaves(n, s, t, u);
    }
  }

  /** While one thread collects no other holds the lock. */
  lemma OnlyCollector(n: nat, s: State, h: nat, t: nat)
    requires TaskInv(n, s) && h < n && t < n && h != t && Collecting(s.pc[h])
    ensures !HoldsLock(s.pc[t]) && SlotOk(s.pc[t], s.task[t].ready, t)
  {
    SlotOf(n, s, t);
    assert HoldsLock(s.pc[h]);
  }

  lemma StepGathers(n: nat, app: App, s: State, t: nat, a: Act, h: nat, u: nat)
    requires TaskInv(n, s) && t < n && Enabled(s, t, a) && Gathers(n, s, h, u) && Collecting(s.pc[h])
    ensures Gathers(n, Step(n, app, s, t, a), h, u)
  {
    if t == h {
      CollectorGathers(n, s, h, u);
    } else {
      OnlyCollector(n, s, h, t);
      OthersLeave(n, app, s, t, a, u);
      StepLockEffect(n, app, s, t, a);
    }
  }

  lemma RunGathers(n: nat, app: App, ss: seq<State>, moves: seq<Move>, i: nat, h: nat, u: nat)
    requires IsRun(n, app, ss, moves) && i < |moves| && Gathers(n, ss[i], h, u) && Collecting(ss[i].pc[h])
    ensures Gathers(n, ss[i + 1], h, u)
  {
    RunInv(n, app, ss, moves, i);
    assert Follows(n, app, ss[i], moves[i], ss[i + 1]);
    StepGathers(n, app, ss[i], moves[i].t, moves[i].act, h, u);
  }

  /** Thread `h` collects from state `i` to state `j`. */
  ghost predicate CollectsFrom(ss: seq<State>, i: nat, j: nat, h: nat) {
    i <= j < |ss| && forall k | i <= k < j :: h < |ss[k].pc| && Collecting(ss[k].pc[h])
  }

  lemma {:induction false} GathersOn(n: nat, app: App, ss: seq<State>, moves: seq<Move>, i: nat, j: nat, h: nat, u: nat)
    requires IsRun(n, app, ss, moves) && CollectsFrom(ss, i, j, h) && Gathers(n, ss[i], h, u)
    ensures Gathers(n, ss[j], h, u)
    decreases j - i
  {
    if i < j {
      GathersOn(n, app, ss, moves, i, j - 1, h, u);
      RunGathers(n, app, ss, moves, j - 1, h, u);
    }
  }

  /**
   Every request that waits when a combiner begins a pass over the slots, right after it took the lock
   or when it met a reader, is in its batch when it begins to execute.
   */
  lemma CollectsAll(n: nat, app: App, ss: seq<State>, moves: seq<Move>, i: nat, j: nat, h: nat, u: nat) returns (k: nat)
    requires IsRun(n, app, ss, moves) && CollectsFrom(ss, i, j, h) && h < n && u < n
    requires h < |ss[i].pc| && u < |ss[i].task| && ss[i].pc[h] == Collect(0) && ss[i].task[u].ready == ReadyToExecute
    requires h < |ss[j].pc| && ss[j].pc[h] == Exec(0)
    ensures h < |ss[j].batch| && k < |ss[j].batch[h]| && ss[j].batch[h][k] == u
  {
    RunInv(n, app, ss, moves, i);
    RunInv(n, app, ss, moves, j);
    GathersOn(n, app, ss, moves, i, j, h, u);
    k := StartedInBatch(n, ss[j], h, u);
  }

  lemma StartedInBatch(n: nat, s: State, h: nat, u: nat) returns (k: nat)
    requires TaskInv(n, s) && h < n && u < n && HoldsLock(s.pc[h]) && s.task[u].ready == Started
    ensures k < |s.batch[h]| && s.batch[h][k] == u
  {
    SlotOf(n, s, h);
    k := s.task[u].pos;
  }

  /** Taking the lock, and meeting a reader in the scan, both begin such a pass. */
  lemma PassBegins(n: nat, app: App, ss: seq<State>, moves: seq<Move>, i: nat, h: nat)
    requires IsRun(n, app, ss, moves) && i < |moves| && moves[i].t == h && h < |ss[i].pc| && h < n
    requires (ss[i].pc[h].RwCas? && ss[i].writers == 0)
          || (ss[i].pc[h].Scan? && ss[i].pc[h].i < |ss[i].readers| && ss[i].readers[ss[i].pc[h].i])
    ensures h < |ss[i + 1].pc| && ss[i + 1].pc[h] == Collect(0)
    ensures forall u | 0 <= u < |ss[i].task| :: u < |ss[i + 1].task| && ss[i + 1].task[u].ready == ss[i].task[u].ready
  {
    assert Follows(n, app, ss[i], moves[i], ss[i + 1]);
  }
}
