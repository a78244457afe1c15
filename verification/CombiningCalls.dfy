/**
 Calls as they appear in a run: the move that submits a command, the move that returns it, and the
 order in which calls that do not overlap take effect.
 */
module CombiningCalls {
  import opened Options
  import opened FlatCombining
  import opened CombiningLock
  import opened CombiningTasks
  import opened CombiningHistory
  import opened CombiningTheorems

  datatype Kind = Resting | Updating | Querying | Remapping

  /** What kind of call a thread at `p` is in. */
  function KindOf(p: Pc): Kind {
    if p.Idle? then Resting else if Reading(p) then Querying else if Mapping(p) then Remapping else Updating
  }

  /** The move `a` of a resting thread begins a call of this kind. */
  function Begins(a: Act): Kind {
    match a
    case Submit(_) => Updating
    case Query(_) => Querying
    case Mmap => Remapping
    case Go => Resting
  }

  /** The record of the command thread `t` is about to return from. */
  ghost predicate Records(s: State, t: nat, c: Completed)
    requires t < |s.task| && t < |s.pc|
  {
    && c.t == t && c.k == s.task[t].k && c.cmd == s.task[t].cmd && c.subAt == s.task[t].subAt && c.retAt == |s.hist|
    && KindOf(s.pc[t]) == (if c.update then Updating else Querying)
  }

  /** What a step of thread `t` does to the calls of all threads. */
  ghost predicate CallEffect(s: State, t: nat, a: Act, s': State) {
    && |s.pc| == |s.task| == |s'.pc| == |s'.task| && t < |s.pc|
    && s'.pc == s.pc[t := s'.pc[t]]
    && (forall u | 0 <= u < |s.task| && (u != t || !s.pc[t].Idle?) ::
          s'.task[u].k == s.task[u].k && s'.task[u].subAt == s.task[u].subAt && s'.task[u].cmd == s.task[u].cmd)
    && (s.pc[t].Idle? ==>
          && KindOf(s'.pc[t]) == Begins(a) && Begins(a) != Resting
          && (!a.Mmap? ==> s'.task[t].subAt == |s.hist| && s'.task[t].cmd == a.cmd))
    && (!s.pc[t].Idle? ==> KindOf(s'.pc[t]) == KindOf(s.pc[t]) || s'.pc[t].Idle?)
    && (|| (s'.completed == s.completed && (s'.pc[t].Idle? ==> Mapping(s.pc[t])))
        || (&& |s'.completed| == |s.completed| + 1 && s'.completed[..|s.completed|] == s.completed
            && s'.pc[t].Idle? && Records(s, t, s'.completed[|s.completed|])))
  }

  lemma IdleCall(s: State, t: nat, a: Act)
    requires t < |s.pc| == |s.task| && s.pc[t].Idle? && !a.Go?
    ensures CallEffect(s, t, a, StepIdle(s, t, a))
  {}

  lemma WaitingOn(s: State, t: nat, a: Act)
    requires t < |s.pc| == |s.task| == |s.batch| && Waiting(s.pc[t]) && !s.pc[t].RwFinish?
    ensures CallEffect(s, t, a, StepWaiting(s, t))
  {}

  lemma WaitingReturns(s: State, t: nat, a: Act)
    requires t < |s.pc| == |s.task| == |s.batch| && s.pc[t].RwFinish?
    ensures CallEffect(s, t, a, StepWaiting(s, t))
  {}

  lemma WaitingCall(s: State, t: nat, a: Act)
    requires t < |s.pc| == |s.task| == |s.batch| && Waiting(s.pc[t])
    ensures CallEffect(s, t, a, StepWaiting(s, t))
  {
    if s.pc[t].RwFinish? {
      WaitingReturns(s, t, a);
    } else {
      WaitingOn(s, t, a);
    }
  }

  lemma CollectingCall(n: nat, s: State, t: nat, a: Act)
    requires Shaped(n, s) && t < n && Collecting(s.pc[t])
    ensures CallEffect(s, t, a, StepCollecting(n, s, t))
  {
    assert PcInRange(s.pc[t], n, s.batch[t]);
  }

  lemma ExecutingCall(n: nat, app: App, s: State, t: nat, a: Act)
    requires Shaped(n, s) && t < n && Executing(s.pc[t])
    ensures CallEffect(s, t, a, StepExecuting(n, app, s, t, a))
  {
    var i := ExecutingFrame(n, app, s, t, a);
    SlotUnasked(n, s, t, a, StepExecuting(n, app, s, t, a), i);
  }

  /** Executing touches one slot, and of it neither the command nor when it was submitted. */
  lemma SlotUnasked(n: nat, s: State, t: nat, a: Act, s': State, i: nat)
    requires Executes(n, s, t, s', i) && Executing(s.pc[t])
    ensures CallEffect(s, t, a, s')
  {}

  lemma FinishingCall(n: nat, s: State, t: nat, a: Act)
    requires Shaped(n, s) && t < n && Finishing(s.pc[t])
    ensures CallEffect(s, t, a, StepFinishing(n, s, t))
  {
    assert PcInRange(s.pc[t], n, s.batch[t]);
  }

  lemma ReadingCall(app: App, s: State, t: nat, a: Act)
    requires t < |s.pc| == |s.task| == |s.readers| && Reading(s.pc[t])
    ensures CallEffect(s, t, a, StepReading(app, s, t))
  {}

  lemma MappingCall(s: State, t: nat, a: Act)
    requires t < |s.pc| == |s.task| == |s.batch| && Mapping(s.pc[t])
    ensures CallEffect(s, t, a, StepMapping(s, t))
  {}

  lemma StepCall(n: nat, app: App, s: State, t: nat, a: Act)
    requires Shaped(n, s) && t < n && Enabled(s, t, a)
    ensures CallEffect(s, t, a, Step(n, app, s, t, a))
  {
    var p := s.pc[t];
    if p.Idle? {
      IdleCall(s, t, a);
    } else if Waiting(p) {
      WaitingCall(s, t, a);
    } else if Collecting(p) {
      CollectingCall(n, s, t, a);
    } else if Executing(p) {
      ExecutingCall(n, app, s, t, a);
    } else if Finishing(p) {
      FinishingCall(n, s, t, a);
    } else if Reading(p) {
      ReadingCall(app, s, t, a);
    } else {
      MappingCall(s, t, a);
    }
  }

  lemma RunCall(n: nat, app: App, ss: seq<State>, moves: seq<Move>, i: nat)
    requires IsRun(n, app, ss, moves) && i < |moves|
    ensures CallEffect(ss[i], moves[i].t, moves[i].act, ss[i + 1])
    ensures |ss[i].pc| == n && moves[i].t < n
  {
    assert Follows(n, app, ss[i], moves[i], ss[i + 1]);
    StepCall(n, app, ss[i], moves[i].t, moves[i].act);
  }

  /** Thread `u` is in a call at position `k`. */
  predicate Busy(ss: seq<State>, k: nat, u: nat) {
    k < |ss| && u < |ss[k].pc| && !ss[k].pc[u].Idle?
  }

  /**
   Move `p` submits the command that move `q` returns and that is number `c` of the completed ones:
   the same thread makes both moves, rests before `p`, and is busy from then on up to `q`.
   */
  ghost predicate IsCall(ss: seq<State>, moves: seq<Move>, p: nat, q: nat, c: nat) {
    && p < q < |moves| < |ss|
    && |ss[q].completed| == c && |ss[q + 1].completed| == c + 1
    && moves[p].t == moves[q].t == ss[q + 1].completed[c].t
    && moves[p].t < |ss[p].pc| && ss[p].pc[moves[p].t].Idle?
    && moves[p].act == (if ss[q + 1].completed[c].update then Submit(ss[q + 1].completed[c].cmd)
                        else Query(ss[q + 1].completed[c].cmd))
    && forall k | p < k <= q :: Busy(ss, k, moves[p].t)
  }

  // ---------------------------------------------------------------- what a call has recorded

  /** From its submission on a call keeps its kind, its command and when it was submitted. */
  lemma {:induction false} CallKept(n: nat, app: App, ss: seq<State>, moves: seq<Move>, p: nat, k: nat, t: nat)
    requires IsRun(n, app, ss, moves) && p < k < |ss| && t == moves[p].t
    requires t < |ss[p].pc| && ss[p].pc[t].Idle? && forall j | p < j <= k :: Busy(ss, j, t)
    ensures |ss[k].pc| == |ss[k].task| == n && KindOf(ss[k].pc[t]) == Begins(moves[p].act)
    ensures !moves[p].act.Mmap? && !moves[p].act.Go? ==>
              ss[k].task[t].subAt == |ss[p].hist| && ss[k].task[t].cmd == moves[p].act.cmd
    decreases k - p
  {
    RunCall(n, app, ss, moves, k - 1);
    if k - 1 > p {
      CallKept(n, app, ss, moves, p, k - 1, t);
      assert Busy(ss, k - 1, t) && Busy(ss, k, t);
    }
  }

  /** A call records the lengths of the history at its submission and at its return. */
  lemma CallRecord(n: nat, app: App, ss: seq<State>, moves: seq<Move>, p: nat, q: nat, c: nat)
    requires IsRun(n, app, ss, moves) && IsCall(ss, moves, p, q, c)
    ensures ss[q + 1].completed[c].subAt == |ss[p].hist| && ss[q + 1].completed[c].retAt == |ss[q].hist|
  {
    CallKept(n, app, ss, moves, p, q, moves[p].t);
    RunCall(n, app, ss, moves, q);
  }

  /** Calls that do not overlap take effect in the order they are made. */
  lemma RealTimeOrder(n: nat, app: App, ss: seq<State>, moves: seq<Move>, i: nat,
                      p: nat, q: nat, a: nat, p': nat, q': nat, b: nat)
    requires IsRun(n, app, ss, moves) && q < i < |ss| && q' < i
    requires IsCall(ss, moves, p, q, a) && IsCall(ss, moves, p', q', b)
    requires q < p'
    ensures a < |ss[i].completed| && b < |ss[i].completed|
    ensures ss[i].completed[a].lin <= ss[i].completed[b].lin
    ensures ss[i].completed[a].update ==> ss[i].completed[a].lin < ss[i].completed[b].lin
  {
    CallRecorded(n, app, ss, moves, i, p, q, a);
    CallRecorded(n, app, ss, moves, i, p', q', b);
    HistoryGrows(n, app, ss, moves, q, p');
    PointsInOrder(n, app, ss, moves, i, a, b);
  }

  /** The record of a call is still there later. */
  lemma CallRecorded(n: nat, app: App, ss: seq<State>, moves: seq<Move>, i: nat, p: nat, q: nat, c: nat)
    requires IsRun(n, app, ss, moves) && IsCall(ss, moves, p, q, c) && q < i < |ss|
    ensures c < |ss[i].completed|
    ensures ss[i].completed[c].subAt == |ss[p].hist| && ss[i].completed[c].retAt == |ss[q].hist|
  {
    CallRecord(n, app, ss, moves, p, q, c);
    HistoryGrows(n, app, ss, moves, q + 1, i);
  }

  // ---------------------------------------------------------------- every return has a call

  /** The last position up to `k` at which thread `t` rests. */
  lemma {:induction false} LastRest(n: nat, app: App, ss: seq<State>, moves: seq<Move>, k: nat, t: nat) returns (p: nat)
    requires IsRun(n, app, ss, moves) && k < |ss| && t < n
    ensures p <= k && t < |ss[p].pc| && ss[p].pc[t].Idle? && forall j | p < j <= k :: Busy(ss, j, t)
  {
    RunSize(n, app, ss, moves, k);
    if ss[k].pc[t].Idle? {
      p := k;
    } else {
      RestAtFirst(n, app, ss, moves, t);
      p := LastRest(n, app, ss, moves, k - 1, t);
      assert Busy(ss, k, t);
    }
  }

  lemma RunSize(n: nat, app: App, ss: seq<State>, moves: seq<Move>, k: nat)
    requires IsRun(n, app, ss, moves) && k < |ss|
    ensures |ss[k].pc| == n
  {
    RunInv(n, app, ss, moves, k);
  }

  lemma RestAtFirst(n: nat, app: App, ss: seq<State>, moves: seq<Move>, t: nat)
    requires IsRun(n, app, ss, moves) && t < n
    ensures t < |ss[0].pc| && ss[0].pc[t].Idle?
  {}

  /** Every completed command was submitted and returned by moves of the run. */
  lemma {:induction false} EveryReturnIsCall(n: nat, app: App, ss: seq<State>, moves: seq<Move>, i: nat, c: nat)
    returns (p: nat, q: nat)
    requires IsRun(n, app, ss, moves) && i < |ss| && c < |ss[i].completed|
    ensures q < i && IsCall(ss, moves, p, q, c)
  {
    NoneAtFirst(n, app, ss, moves);
    RunCall(n, app, ss, moves, i - 1);
    if c < |ss[i - 1].completed| {
      p, q := EveryReturnIsCall(n, app, ss, moves, i - 1, c);
    } else {
      q := i - 1;
      var t := moves[q].t;
      p := LastRest(n, app, ss, moves, q, t);
      CallFound(n, app, ss, moves, p, q, t);
    }
  }

  lemma NoneAtFirst(n: nat, app: App, ss: seq<State>, moves: seq<Move>)
    requires IsRun(n, app, ss, moves)
    ensures ss[0].completed == []
  {}

  /** A thread that rests and is busy at the next position has moved. */
  lemma MovesOff(n: nat, app: App, ss: seq<State>, moves: seq<Move>, p: nat, t: nat)
    requires IsRun(n, app, ss, moves) && p < |moves| && t < |ss[p].pc| && ss[p].pc[t].Idle? && Busy(ss, p + 1, t)
    ensures moves[p].t == t
  {
    RunCall(n, app, ss, moves, p);
  }

  lemma CallFound(n: nat, app: App, ss: seq<State>, moves: seq<Move>, p: nat, q: nat, t: nat)
    requires IsRun(n, app, ss, moves) && p <= q < |moves| && t == moves[q].t
    requires t < |ss[p].pc| && ss[p].pc[t].Idle? && forall j | p < j <= q :: Busy(ss, j, t)
    requires |ss[q + 1].completed| == |ss[q].completed| + 1
    ensures IsCall(ss, moves, p, q, |ss[q].completed|)
  {
    RunCall(n, app, ss, moves, q);
    assert Records(ss[q], t, ss[q + 1].completed[|ss[q].completed|]);
    assert p < q;
    MovesOff(n, app, ss, moves, p, t);
    CallKept(n, app, ss, moves, p, q, t);
  }

  // ---------------------------------------------------------------- a request found STARTED

  /** Thread `t` waits for its combiner, or has seen that it is done. */
  ghost predicate Served(s: State, t: nat) {
    t < |s.pc| && (s.pc[t].RwAwaitDone? || s.pc[t].RwFinish?)
  }

  lemma ServedMoves(s: State, t: nat)
    requires t < |s.pc| == |s.task| == |s.batch| && Waiting(s.pc[t])
    requires (s.pc[t].RwLoop? && s.task[t].ready == Started) || Served(s, t)
    ensures Served(StepWaiting(s, t), t) || (s.pc[t].RwFinish? && StepWaiting(s, t).pc[t].Idle?)
  {}

  /**
   A thread that finds its request STARTED waits for it until its return, and in between never comes
   near the lock.
   */
  lemma {:induction false} StartedAwaits(n: nat, app: App, ss: seq<State>, moves: seq<Move>, i: nat, k: nat, t: nat)
    requires IsRun(n, app, ss, moves) && i < k < |ss| && moves[i].t == t && t < |ss[i].pc| && t < |ss[i].task|
    requires ss[i].pc[t].RwLoop? && ss[i].task[t].ready == Started
    requires forall j | i < j <= k :: Busy(ss, j, t)
    ensures Served(ss[k], t)
    decreases k - i
  {
    RunCall(n, app, ss, moves, k - 1);
    assert Follows(n, app, ss[k - 1], moves[k - 1], ss[k]) && Busy(ss, k, t);
    if k - 1 > i {
      StartedAwaits(n, app, ss, moves, i, k - 1, t);
    }
    if moves[k - 1].t == t {
      ServedMoves(ss[k - 1], t);
    }
  }
}
