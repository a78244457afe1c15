/**
 Flat combining and the ring together.  Threads execute commands on memory, the combiner publishes
 what it recorded of its batch through the ring, one ring batch for each memcpy and one for the
 table, and the consumer applies what is published; a crash may come between any two steps.
 */
module Durability {
  import opened RedoLog
  import opened Collection
  import opened Stops
  import FC = FlatCombining
  import CT = CombiningTasks
  import CH = CombiningHistory
  import opened CombiningStages
  import R = Ring
  import RI = RingInvariant
  import RR = RingRuns
  import opened RingTheorems

  /** The threads and their application, its memory as bytes, and the ring with its first image. */
  datatype System = System(threads: nat, app: FC.App, bytes: FC.Mem -> Image, n: nat, base: Image)

  /** Beside the two machines, the log at the last instrument_stop and what that has to log. */
  datatype State = State(fc: FC.State, ring: R.State, before: seq<Entry>, copies: seq<Copy>, table: seq<nat>)

  /** A step of a thread, which may take over what was recorded of its batch, or of the ring. */
  datatype Move =
    | Thread(t: nat, act: FC.Act, copies: seq<Copy>, table: seq<nat>)
    | Ring(step: R.Step)

  /** Memory after the first `k` updates, as bytes. */
  function BytesAfter(sys: System, hist: seq<FC.Op>, k: nat): Image
    requires k <= |hist|
  {
    sys.bytes(FC.Fold(sys.app, hist[..k]))
  }

  /** Memory, as far as it is acknowledged or about to be. */
  function Shadow(sys: System, s: FC.State): Image {
    if s.pub <= |s.hist| then BytesAfter(sys, s.hist, s.pub) else map[]
  }

  /** The entries of the instrument_stop that is under way. */
  function ToLog(sys: System, s: State): seq<Entry> {
    StopLog(sys.bytes(s.fc.mem), s.copies, s.table)
  }

  /** A thread in a ring session goes on when the session is that far. */
  ghost predicate MayGo(sys: System, s: State, p: FC.Pc, copies: seq<Copy>, table: seq<nat>) {
    && (Loading(p) ==> s.ring.producer == R.Working(false))
    && (Logging(p) ==> s.ring.producer == R.Working(true))
    && (Closing(p) ==> s.ring.producer == R.NoSession)
    && (p.StopLoad? ==> Recorded(Shadow(sys, s.fc), sys.bytes(s.fc.mem), copies, table))
    && (p.StopPublish? ==> s.ring.h.log == s.before + ToLog(sys, s))
  }

  ghost predicate ThreadFollows(sys: System, s: State, m: Move, s': State)
    requires m.Thread?
  {
    && FC.Shaped(sys.threads, s.fc) && m.t < sys.threads && FC.Enabled(s.fc, m.t, m.act)
    && MayGo(sys, s, s.fc.pc[m.t], m.copies, m.table)
    && s' == State(FC.Step(sys.threads, sys.app, s.fc, m.t, m.act), s.ring, s'.before, s'.copies, s'.table)
    && (if s.fc.pc[m.t].StopLoad? then s'.before == s.ring.h.log && s'.copies == m.copies && s'.table == m.table
        else s'.before == s.before && s'.copies == s.copies && s'.table == s.table)
  }

  /** The producer is the lock holder; instrument_stop enqueues its entries in their order. */
  ghost predicate MayStep(sys: System, s: State, p: FC.Pc, a: R.Step) {
    match a
    case LoadHead => Loading(p)
    case LoadTail => Loading(p)
    case EnqueueRefresh => Logging(p)
    case CommitRefresh => Logging(p)
    case Enqueue(addr, payload) => p.StopPublish? && s.ring.h.log + [Redo(addr, payload)] <= s.before + ToLog(sys, s)
    case CommitEntry => Logging(p) && (p.StopPublish? ==> s.ring.h.log + [Commit] <= s.before + ToLog(sys, s))
    case Publish => Logging(p)
    case MirrorTail => Logging(p)
    case WriteBackHead => Closing(p)
    case WriteBackTail => Closing(p)
    case Crash(_, _) => false
    case _ => true
  }

  ghost predicate RingFollows(sys: System, s: State, a: R.Step, s': State) {
    && R.Follows(sys.n, s.ring, a, s'.ring) && R.FreshRefresh(sys.n, s.ring, a)
    && MayStep(sys, s, CT.HolderPc(s.fc), a) && s' == s.(ring := s'.ring)
  }

  ghost predicate Follows(sys: System, s: State, m: Move, s': State) {
    match m
    case Thread(_, _, _, _) => ThreadFollows(sys, s, m, s')
    case Ring(a) => RingFollows(sys, s, a, s')
  }

  /** The ring may have a past, crashes included, that led to the memory the application starts with. */
  ghost predicate Init(sys: System, s: State) {
    && FC.Init(sys.threads, sys.app, s.fc)
    && RR.Reached(sys.n, sys.base, s.ring) && s.ring.producer == R.NoSession && !s.ring.recovering
    && sys.base + Delta(Published(s.ring)) == sys.bytes(sys.app.init)
  }

  ghost predicate IsRun(sys: System, ss: seq<State>, moves: seq<Move>) {
    Linked(sys, ss, moves) && Init(sys, ss[0])
  }

  ghost predicate Linked(sys: System, ss: seq<State>, moves: seq<Move>) {
    && |ss| == |moves| + 1
    && forall i {:trigger moves[i]} | 0 <= i < |moves| :: Follows(sys, ss[i], moves[i], ss[i + 1])
  }

  // ---------------------------------------------------------------- the invariant

  /** How far the ring session is while the lock holder is at `p`. */
  ghost predicate Coupled(p: FC.Pc, r: R.State) {
    && !r.recovering && r.h.pub <= |r.h.log|
    && (Loading(p) ==> r.producer == R.NoSession || r.producer == R.LoadingTail || r.producer == R.Working(false))
    && (Loading(p) ==> r.h.pub == |r.h.log|)
    && (Logging(p) ==> r.producer.Working? || r.producer == R.Publishing || r.producer == R.MirroringTail)
    && (Closing(p) ==> r.producer == R.Working(true) || r.producer == R.WritingBackTail || r.producer == R.NoSession)
    && (!InRing(p) ==> r.producer == R.NoSession)
  }

  /** Outside instrument_stop the log, and the published part of it, stand for the history so far published. */
  ghost predicate Settled(base: Image, r: R.State, shadow: Image) {
    base + Delta(r.h.log) == shadow && base + Delta(Published(r)) == shadow
  }

  /** In it, they are some way between that and the entries to log. */
  ghost predicate Stopping(base: Image, r: R.State, before: seq<Entry>, toLog: seq<Entry>, shadow: Image) {
    && before <= Published(r) <= r.h.log <= before + toLog
    && base + Delta(before) == shadow
  }

  /** After a COMMIT the session is not taken for one that has just begun. */
  ghost predicate LastOk(r: R.State, before: seq<Entry>) {
    r.producer == R.Working(false) && r.h.log != before ==> r.h.log != [] && r.h.log[|r.h.log| - 1].Redo?
  }

  ghost predicate LogOk(sys: System, s: State, p: FC.Pc) {
    if p.StopPublish? then
      && Stopping(sys.base, s.ring, s.before, ToLog(sys, s), Shadow(sys, s.fc))
      && Recorded(Shadow(sys, s.fc), sys.bytes(s.fc.mem), s.copies, s.table) && LastOk(s.ring, s.before)
    else Settled(sys.base, s.ring, Shadow(sys, s.fc))
  }

  ghost predicate Inv(sys: System, s: State) {
    && CH.Inv(sys.threads, sys.app, s.fc) && RR.Reached(sys.n, sys.base, s.ring)
    && Coupled(CT.HolderPc(s.fc), s.ring) && LogOk(sys, s, CT.HolderPc(s.fc))
  }

  // ---------------------------------------------------------------- steps of the ring

  /** What a step of the ring, other than a crash, does to the log and to the session. */
  ghost predicate RingMove(r: R.State, a: R.Step, r': R.State) {
    && r'.h.log == r.h.log + (if a.Enqueue? then [Redo(a.addr, a.payload)] else if a.CommitEntry? then [Commit] else [])
    && r'.h.pub == (if a.Publish? then |r.h.log| else r.h.pub)
    && (!r.recovering ==> !r'.recovering)
  }

  predicate SessionMove(q: R.ProducerPc, a: R.Step, q': R.ProducerPc) {
    match a
    case LoadHead => q == R.NoSession && q' == R.LoadingTail
    case LoadTail => q == R.LoadingTail && q' == R.Working(false)
    case EnqueueRefresh => q.Working? && q' == q
    case CommitRefresh => q.Working? && q' == q
    case Enqueue(_, _) => q.Working? && q' == R.Working(false)
    case CommitEntry => q.Working? && q' == R.Publishing
    case Publish => q == R.Publishing && q' == R.MirroringTail
    case MirrorTail => q == R.MirroringTail && q' == R.Working(true)
    case WriteBackHead => q == R.Working(true) && q' == R.WritingBackTail
    case WriteBackTail => q == R.WritingBackTail && q' == R.NoSession
    case _ => q' == q
  }

  lemma ProducerMoves(n: nat, r: R.State, a: R.Step)
    requires R.Shaped(n, r) && R.Enabled(n, r, a) && R.OfProducer(a)
    ensures RingMove(r, a, R.Do(n, r, a)) && SessionMove(r.producer, a, R.Do(n, r, a).producer)
  {}

  lemma ConsumerMoves(n: nat, r: R.State, a: R.Step)
    requires R.Shaped(n, r) && R.Enabled(n, r, a) && !R.OfProducer(a) && !a.Crash?
    ensures RingMove(r, a, R.Do(n, r, a)) && SessionMove(r.producer, a, R.Do(n, r, a).producer)
  {}

  lemma RingMoves(n: nat, base: Image, r: R.State, a: R.Step, r': R.State)
    requires RR.Reached(n, base, r) && R.Follows(n, r, a, r') && R.FreshRefresh(n, r, a) && !a.Crash?
    ensures RR.Reached(n, base, r') && RingMove(r, a, r') && SessionMove(r.producer, a, r'.producer)
    ensures r.h.pub <= |r.h.log| && r'.h.pub <= |r'.h.log|
  {
    RR.ReachedStep(n, base, r, a, r');
    RR.ReachedInv(n, base, r);
    RR.ReachedInv(n, base, r');
    if R.OfProducer(a) {
      ProducerMoves(n, r, a);
    } else {
      ConsumerMoves(n, r, a);
    }
  }

  lemma CoupledKept(sys: System, s: State, p: FC.Pc, a: R.Step, r': R.State)
    requires Coupled(p, s.ring) && MayStep(sys, s, p, a)
    requires RingMove(s.ring, a, r') && SessionMove(s.ring.producer, a, r'.producer) && r'.h.pub <= |r'.h.log|
    ensures Coupled(p, r')
  {
    if Loading(p) {
      LoadingKept(sys, s, p, a, r');
    } else if Logging(p) {
      LoggingKept(sys, s, p, a, r');
    }
  }

  lemma LoadingKept(sys: System, s: State, p: FC.Pc, a: R.Step, r': R.State)
    requires Coupled(p, s.ring) && MayStep(sys, s, p, a) && Loading(p)
    requires RingMove(s.ring, a, r') && SessionMove(s.ring.producer, a, r'.producer)
    ensures r'.producer == R.NoSession || r'.producer == R.LoadingTail || r'.producer == R.Working(false)
    ensures r'.h.pub == |r'.h.log|
  {}

  lemma LoggingKept(sys: System, s: State, p: FC.Pc, a: R.Step, r': R.State)
    requires Coupled(p, s.ring) && MayStep(sys, s, p, a) && Logging(p)
    requires SessionMove(s.ring.producer, a, r'.producer)
    ensures r'.producer.Working? || r'.producer == R.Publishing || r'.producer == R.MirroringTail
  {}

  /** A COMMIT defines no byte. */
  lemma CommitSettles(base: Image, log: seq<Entry>)
    ensures base + Delta(log + [Commit]) == base + Delta(log)
  {
    DeltaConcat(log, [Commit]);
    DeltaOne(Commit);
  }

  lemma SettledKept(base: Image, r: R.State, a: R.Step, r': R.State, shadow: Image)
    requires Settled(base, r, shadow) && RingMove(r, a, r') && !a.Enqueue? && r.h.pub <= |r.h.log|
    ensures Settled(base, r', shadow)
  {
    CommitSettles(base, r.h.log);
    PublishedThen(r, a, r');
  }

  /** A step leaves the published log, or publishes all of it. */
  lemma PublishedThen(r: R.State, a: R.Step, r': R.State)
    requires RingMove(r, a, r') && r.h.pub <= |r.h.log|
    ensures r.h.log <= r'.h.log && Published(r') == if a.Publish? then r.h.log else Published(r)
    ensures !a.Enqueue? && !a.CommitEntry? ==> r'.h.log == r.h.log
  {}

  lemma StoppingKept(base: Image, r: R.State, a: R.Step, r': R.State, before: seq<Entry>, toLog: seq<Entry>, shadow: Image)
    requires Stopping(base, r, before, toLog, shadow) && RingMove(r, a, r') && r.h.pub <= |r.h.log|
    requires a.Enqueue? ==> r.h.log + [Redo(a.addr, a.payload)] <= before + toLog
    requires a.CommitEntry? ==> r.h.log + [Commit] <= before + toLog
    ensures Stopping(base, r', before, toLog, shadow)
  {
    PublishedThen(r, a, r');
  }

  lemma LastKept(r: R.State, a: R.Step, r': R.State, before: seq<Entry>)
    requires LastOk(r, before) && RingMove(r, a, r') && SessionMove(r.producer, a, r'.producer) && !a.LoadTail?
    ensures LastOk(r', before)
  {
    assert r.h.log + [] == r.h.log;
  }

  lemma RingKeeps(sys: System, s: State, a: R.Step, s': State)
    requires Inv(sys, s) && RingFollows(sys, s, a, s')
    ensures Inv(sys, s')
  {
    RingMoves(sys.n, sys.base, s.ring, a, s'.ring);
    CoupledKept(sys, s, CT.HolderPc(s.fc), a, s'.ring);
    LogKept(sys, s, CT.HolderPc(s.fc), a, s');
  }

  lemma LogKept(sys: System, s: State, p: FC.Pc, a: R.Step, s': State)
    requires LogOk(sys, s, p) && MayStep(sys, s, p, a) && s' == s.(ring := s'.ring) && s.ring.h.pub <= |s.ring.h.log|
    requires RingMove(s.ring, a, s'.ring) && SessionMove(s.ring.producer, a, s'.ring.producer)
    ensures LogOk(sys, s', p)
  {
    if p.StopPublish? {
      StoppingKept(sys.base, s.ring, a, s'.ring, s.before, ToLog(sys, s), Shadow(sys, s.fc));
      LastKept(s.ring, a, s'.ring, s.before);
    } else {
      SettledKept(sys.base, s.ring, a, s'.ring, Shadow(sys, s.fc));
    }
  }

  // ---------------------------------------------------------------- steps of the threads

  /** What is published of the history stays what it is. */
  lemma ShadowKept(sys: System, s: FC.State, s': FC.State)
    requires s.pub == s'.pub <= |s.hist| && s.hist <= s'.hist
    ensures Shadow(sys, s') == Shadow(sys, s)
  {
    assert s'.hist[..s.pub] == s.hist[..s.pub];
  }

  /** At the end of instrument_stop it is everything executed. */
  lemma ShadowIsMemory(sys: System, s: FC.State)
    requires s.pub == |s.hist| && s.mem == FC.Fold(sys.app, s.hist)
    ensures Shadow(sys, s) == sys.bytes(s.mem)
  {
    assert s.hist[..s.pub] == s.hist;
  }

  /** The holder goes from stage to stage as the ring session does. */
  lemma CoupledOn(n: nat, base: Image, p: FC.Pc, p': FC.Pc, r: R.State)
    requires RR.Reached(n, base, r) && Coupled(p, r) && StageMove(p, p')
    requires Loading(p) ==> r.producer == R.Working(false)
    requires Logging(p) ==> r.producer == R.Working(true)
    requires Closing(p) ==> r.producer == R.NoSession
    ensures Coupled(p', r)
    ensures Loading(p) || !InRing(p) || Logging(p) ==> r.h.pub == |r.h.log|
  {
    SessionPublished(n, base, r);
  }

  /** Between sessions, and once a COMMIT is mirrored, everything enqueued is published. */
  lemma SessionPublished(n: nat, base: Image, r: R.State)
    requires RR.Reached(n, base, r)
    ensures r.producer == R.NoSession || r.producer == R.Working(true) ==> r.h.pub == |r.h.log|
  {
    RR.ReachedInv(n, base, r);
  }

  /** The entries of instrument_stop settle the log on the memory they were made from. */
  lemma StopSettles(base: Image, r: R.State, before: seq<Entry>, shadow: Image, mem: Image,
                    copies: seq<Copy>, table: seq<nat>)
    requires base + Delta(before) == shadow && Recorded(shadow, mem, copies, table)
    requires r.h.log == before + StopLog(mem, copies, table) && r.h.pub == |r.h.log|
    ensures Settled(base, r, mem)
  {
    BatchGivesMemory(base, before, shadow, mem, copies, table);
    assert Published(r) == r.h.log;
  }

  lemma OtherKeeps(sys: System, s: State, m: Move, s': State)
    requires Inv(sys, s) && m.Thread? && ThreadFollows(sys, s, m, s') && CH.Inv(sys.threads, sys.app, s'.fc)
    requires HolderMove(s.fc, m.t, s'.fc) && OtherMoved(s.fc, s'.fc)
    ensures Inv(sys, s')
  {
    assert Shadow(sys, s'.fc) == Shadow(sys, s.fc);
  }

  /** What the move of the holder has to show of the log. */
  lemma HolderKeeps(sys: System, s: State, m: Move, s': State)
    requires Inv(sys, s) && m.Thread? && ThreadFollows(sys, s, m, s') && CH.Inv(sys.threads, sys.app, s'.fc)
    requires HolderMove(s.fc, m.t, s'.fc) && HolderMoved(s.fc, m.t, s'.fc)
    requires s.fc.pub <= |s.fc.hist| && s.fc.mem == FC.Fold(sys.app, s.fc.hist)
    ensures Inv(sys, s')
  {
    CoupledOn(sys.n, sys.base, CT.HolderPc(s.fc), CT.HolderPc(s'.fc), s.ring);
    LogOn(sys, s, m, s');
  }

  lemma LogOn(sys: System, s: State, m: Move, s': State)
    requires LogOk(sys, s, CT.HolderPc(s.fc)) && m.Thread? && ThreadFollows(sys, s, m, s')
    requires HolderMove(s.fc, m.t, s'.fc) && HolderMoved(s.fc, m.t, s'.fc)
    requires s.fc.pub <= |s.fc.hist| && s.fc.mem == FC.Fold(sys.app, s.fc.hist)
    requires var p := CT.HolderPc(s.fc); Loading(p) || !InRing(p) || Logging(p) ==> s.ring.h.pub == |s.ring.h.log|
    ensures LogOk(sys, s', CT.HolderPc(s'.fc))
  {
    var p, p' := CT.HolderPc(s.fc), CT.HolderPc(s'.fc);
    if p.StopPublish? {
      ShadowIsMemory(sys, s'.fc);
      StopSettles(sys.base, s.ring, s.before, Shadow(sys, s.fc), sys.bytes(s.fc.mem), s.copies, s.table);
    } else {
      ShadowKept(sys, s.fc, s'.fc);
      if p'.StopPublish? {
        StopBegins(sys.base, s.ring, s.ring.h.log, ToLog(sys, s'), Shadow(sys, s.fc));
      }
    }
  }

  lemma StopBegins(base: Image, r: R.State, before: seq<Entry>, toLog: seq<Entry>, shadow: Image)
    requires Settled(base, r, shadow) && r.h.pub == |r.h.log| && before == r.h.log
    ensures Stopping(base, r, before, toLog, shadow)
  {
    assert Published(r) == r.h.log;
  }

  lemma ThreadKeeps(sys: System, s: State, m: Move, s': State)
    requires Inv(sys, s) && m.Thread? && ThreadFollows(sys, s, m, s')
    ensures Inv(sys, s')
  {
    StepHolder(sys.threads, sys.app, s.fc, m.t, m.act);
    if OtherMoved(s.fc, s'.fc) {
      OtherKeeps(sys, s, m, s');
    } else {
      HolderKeeps(sys, s, m, s');
    }
  }

  lemma StepKeeps(sys: System, s: State, m: Move, s': State)
    requires Inv(sys, s) && Follows(sys, s, m, s')
    ensures Inv(sys, s')
  {
    if m.Thread? {
      ThreadKeeps(sys, s, m, s');
    } else {
      RingKeeps(sys, s, m.step, s');
    }
  }

  lemma FirstInv(sys: System, s: State)
    requires Init(sys, s)
    ensures Inv(sys, s)
  {
    CH.InitInv(sys.threads, sys.app, s.fc);
    RR.ReachedInv(sys.n, sys.base, s.ring);
    assert Published(s.ring) == s.ring.h.log;
    assert s.fc.hist[..0] == [];
  }

  ghost predicate InvUpTo(sys: System, ss: seq<State>, i: nat) {
    forall k | 0 <= k <= i && k < |ss| :: Inv(sys, ss[k])
  }

  lemma LinkKeeps(sys: System, ss: seq<State>, moves: seq<Move>, i: nat)
    requires Linked(sys, ss, moves) && i < |moves| && InvUpTo(sys, ss, i)
    ensures InvUpTo(sys, ss, i + 1)
  {
    assert Follows(sys, ss[i], moves[i], ss[i + 1]);
    StepKeeps(sys, ss[i], moves[i], ss[i + 1]);
  }

  lemma {:induction false} LinkedInv(sys: System, ss: seq<State>, moves: seq<Move>, i: nat)
    requires Linked(sys, ss, moves) && InvUpTo(sys, ss, 0) && i < |ss|
    ensures InvUpTo(sys, ss, i)
  {
    if i > 0 {
      LinkedInv(sys, ss, moves, i - 1);
      LinkKeeps(sys, ss, moves, i - 1);
    }
  }

  /** The invariant holds in every state of every joint run. */
  lemma RunInv(sys: System, ss: seq<State>, moves: seq<Move>, i: nat)
    requires IsRun(sys, ss, moves) && i < |ss|
    ensures Inv(sys, ss[i])
  {
    FirstInv(sys, ss[0]);
    LinkedInv(sys, ss, moves, i);
  }
}
