/**
 What a crash may do: it leaves any value in each byte and each slot that has not been fenced yet.
 */
module RingCrash {
  import opened RedoLog
  import opened RingSlots
  import opened Ring

  lemma SpoilsByte(n: nat, s: State, a: int, v: int)
    requires |s.buf| == n && a in Torn(s)
    ensures Survives(n, s, s.buf, s.image[a := v])
  {
    assert s.image[a := v] - Torn(s) == s.image - Torn(s);
  }

  lemma SpoilsSlot(n: nat, s: State, x: nat, e: Entry)
    requires |s.buf| == n && x < n && TornSlot(s, x)
    ensures Survives(n, s, s.buf[x := e], s.image)
  {}

  lemma ByteStaysTorn(n: nat, s: State, t: Step, s': State, a: int)
    requires Follows(n, s, t, s') && !t.PersistMeta? && !t.Crash? && a in Torn(s)
    ensures a in Torn(s')
  {}

  lemma DequeuedIsTorn(n: nat, s: State, s': State, a: int)
    requires Follows(n, s, Dequeue, s') && s.globalHead < |s.buf| && a in Effect(s.buf[s.globalHead])
    ensures a in Torn(s')
  {}

  lemma SlotStaysTorn(n: nat, s: State, t: Step, s': State, x: nat)
    requires Follows(n, s, t, s') && !t.CommitEntry? && !t.Crash? && x in s.unfenced
    ensures x in s'.unfenced
  {}

  /** Between two states the moves neither persist the metadata nor crash. */
  ghost predicate Undrained(acts: seq<Step>, i: nat, j: nat) {
    j <= |acts| && forall k | i <= k < j :: !acts[k].PersistMeta? && !acts[k].Crash?
  }

  lemma {:induction false} ByteTornOn(n: nat, ss: seq<State>, acts: seq<Step>, i: nat, j: nat, a: int)
    requires Linked(n, ss, acts) && i <= j && Undrained(acts, i, j) && a in Torn(ss[i])
    ensures a in Torn(ss[j])
    decreases j - i
  {
    if i < j {
      ByteTornOn(n, ss, acts, i, j - 1, a);
      assert Follows(n, ss[j - 1], acts[j - 1], ss[j]);
      ByteStaysTorn(n, ss[j - 1], acts[j - 1], ss[j], a);
    }
  }

  /**
   From the moment the consumer takes an entry until it persists the metadata, a crash may leave any
   value in each byte of that entry.
   */
  lemma AnyByte(n: nat, base: Image, ss: seq<State>, acts: seq<Step>, i: nat, j: nat, a: int, v: int)
    requires IsRun(n, base, ss, acts) && i < j && Undrained(acts, i, j) && acts[i].Dequeue?
    requires ss[i].globalHead < |ss[i].buf| && a in Effect(ss[i].buf[ss[i].globalHead])
    ensures Survives(n, ss[j], ss[j].buf, ss[j].image[a := v])
  {
    assert Follows(n, ss[i], acts[i], ss[i + 1]);
    DequeuedIsTorn(n, ss[i], ss[i + 1], a);
    ByteTornOn(n, ss, acts, i + 1, j, a);
    RunShaped(n, base, ss, acts, j);
    SpoilsByte(n, ss[j], a, v);
  }

  /** The slots keep their number. */
  lemma {:induction false} RunShaped(n: nat, base: Image, ss: seq<State>, acts: seq<Step>, j: nat)
    requires IsRun(n, base, ss, acts) && j < |ss|
    ensures |ss[j].buf| == n
  {
    if j > 0 {
      RunShaped(n, base, ss, acts, j - 1);
      assert Follows(n, ss[j - 1], acts[j - 1], ss[j]);
    }
  }

  /** Between two states the moves neither fence the log nor crash. */
  ghost predicate Unfenced(acts: seq<Step>, i: nat, j: nat) {
    j <= |acts| && forall k | i <= k < j :: !acts[k].CommitEntry? && !acts[k].Crash?
  }

  lemma {:induction false} SlotTornOn(n: nat, ss: seq<State>, acts: seq<Step>, i: nat, j: nat, x: nat)
    requires Linked(n, ss, acts) && i <= j && Unfenced(acts, i, j) && x in ss[i].unfenced
    ensures x in ss[j].unfenced
    decreases j - i
  {
    if i < j {
      SlotTornOn(n, ss, acts, i, j - 1, x);
      assert Follows(n, ss[j - 1], acts[j - 1], ss[j]);
      SlotStaysTorn(n, ss[j - 1], acts[j - 1], ss[j], x);
    }
  }

  /**
   From the moment the producer writes an entry until the fence of its COMMIT, and while it writes
   it, a crash may leave anything in its slot.
   */
  lemma AnySlot(n: nat, base: Image, ss: seq<State>, acts: seq<Step>, i: nat, j: nat, e: Entry)
    requires IsRun(n, base, ss, acts) && i < j && Unfenced(acts, i, j) && acts[i].Enqueue?
    requires ss[i].localTail < n
    ensures |ss[j].buf| == n && Survives(n, ss[j], ss[j].buf[ss[i].localTail := e], ss[j].image)
    ensures |ss[i].buf| == n && Survives(n, ss[i], ss[i].buf[ss[i].localTail := e], ss[i].image)
  {
    assert Follows(n, ss[i], acts[i], ss[i + 1]);
    RunShaped(n, base, ss, acts, i);
    RunShaped(n, base, ss, acts, j);
    SlotTornOn(n, ss, acts, i + 1, j, ss[i].localTail);
    SpoilsSlot(n, ss[j], ss[i].localTail, e);
    SpoilsSlot(n, ss[i], ss[i].localTail, e);
  }
}
