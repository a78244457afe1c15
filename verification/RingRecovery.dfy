/**
 Where recovery starts and what it has done when the ring is empty.
 */
module RingRecovery {
  import opened RedoLog
  import opened RingSlots
  import opened Ring
  import opened RingInvariant
  import opened RingTheorems

  /** What a recovery turn leaves alone. */
  ghost predicate SameLog(s: State, s': State) {
    && s'.h.pub == s.h.pub && s'.h.lpt == s.h.lpt && s'.h.log == s.h.log && s'.h.base == s.h.base
    && s'.remoteTail == s.remoteTail && s'.recovering == s.recovering
  }

  /** The state the next process starts from. */
  lemma Restarted(n: nat, s: State, buf: seq<Entry>, image: Image)
    requires Inv(n, s) && Survives(n, s, buf, image)
    ensures var s0 := Restart(s, buf, image);
            && Inv(n, s0) && s0.recovering && s0.consumer == ReplayGuard
            && s0.remoteTail == s.remoteTail
            && PublishedImage(s0) == PublishedImage(s) && Published(s0) == Published(s)
            && s0.h.pub - s0.h.con == Dist(n, s.remoteHead, s.remoteTail)
    ensures PublishedImage(s) == Replay(n, buf, s.remoteHead, s.remoteTail, image)
  {
    RestartInv(n, s, buf, image);
    ReplayAfterCrash(n, s, buf, image);
    EntriesLeft(n, s);
    RestartPublished(s, buf, image);
  }

  lemma RestartPublished(s: State, buf: seq<Entry>, image: Image)
    requires s.h.pub <= |s.h.log|
    ensures var s0 := Restart(s, buf, image);
            s0.h.pub <= |s0.h.log| && PublishedImage(s0) == PublishedImage(s) && Published(s0) == Published(s)
  {
    assert s.h.log[..s.h.pub][..s.h.pub] == s.h.log[..s.h.pub];
  }

  lemma RestartInv(n: nat, s: State, buf: seq<Entry>, image: Image)
    requires Inv(n, s) && Survives(n, s, buf, image)
    ensures Inv(n, Restart(s, buf, image))
  {
    StepInv(n, s, Crash(buf, image));
  }

  lemma EntriesLeft(n: nat, s: State)
    requires CursorsOk(n, s)
    ensures Dist(n, s.remoteHead, s.remoteTail) == s.h.pub - s.h.com
  {
    SlotDist(n, s.h.com, s.h.pub);
  }

  lemma Drained(n: nat, s: State)
    requires Inv(n, s) && s.remoteHead == s.remoteTail
    ensures s.h.con == s.h.pub && s.image == PublishedImage(s)
  {
    SlotInjective(n, s.h.com, s.h.pub);
    assert s.h.log[s.h.pub..s.h.pub] == [];
    assert s.image + map[] == s.image;
  }
}
