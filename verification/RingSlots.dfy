/**
 Slot arithmetic of the ring: the wrap-around increment the code writes out by hand, the slot
 of an unbounded counter, and the distance the two ends of the ring are apart.
 */
module RingSlots {
  import opened Modulo

  /** `next = i + 1; if (next == RING_BUFFER_SIZE) next = 0;` */
  function Next(n: nat, i: nat): (r: nat)
    requires i < n
    ensures r < n
  {
    if i + 1 == n then 0 else i + 1
  }

  /** The slot reached from slot 0 after `k` increments. */
  function Slot(n: nat, k: nat): (r: nat)
    requires n > 0
    ensures r < n
  {
    if k == 0 then 0 else Next(n, Slot(n, k - 1))
  }

  /** Number of increments that take slot `i` to slot `j`. */
  function Dist(n: nat, i: nat, j: nat): nat
    requires i < n && j < n
  {
    if i <= j then j - i else n - i + j
  }

  lemma {:induction false} SlotBelow(n: nat, k: nat)
    requires k < n
    ensures Slot(n, k) == k
  {
    if k > 0 {
      SlotBelow(n, k - 1);
    }
  }

  /** Slots of counters less than a lap apart are as far apart as the counters. */
  lemma {:induction false} SlotDist(n: nat, i: nat, j: nat)
    requires n > 0 && i <= j < i + n
    ensures Dist(n, Slot(n, i), Slot(n, j)) == j - i
    decreases j - i
  {
    if i < j {
      SlotDist(n, i, j - 1);
    }
  }

  /** Two counters less than a lap apart share a slot only if they are equal. */
  lemma SlotInjective(n: nat, i: nat, j: nat)
    requires n > 0 && i <= j < i + n
    requires Slot(n, i) == Slot(n, j)
    ensures i == j
  {
    SlotDist(n, i, j);
  }

  /** Going forward from the slot of `k` to slot `x` reaches the slot of a later counter. */
  lemma {:induction false} SlotAhead(n: nat, k: nat, x: nat)
    requires n > 0 && x < n
    ensures Slot(n, k + Dist(n, Slot(n, k), x)) == x
    decreases Dist(n, Slot(n, k), x)
  {
    if Slot(n, k) != x {
      SlotAhead(n, k + 1, x);
    }
  }

  /** One lap later the ring is back in the same slot. */
  lemma {:induction false} SlotLap(n: nat, k: nat)
    requires n > 0
    ensures Slot(n, k + n) == Slot(n, k)
  {
    if k == 0 {
      SlotBelow(n, n - 1);
    } else {
      SlotLap(n, k - 1);
    }
  }

  /** `(j - i) mod n`, which the code never computes but the ring's occupancy is. */
  lemma DistIsMod(n: nat, i: nat, j: nat)
    requires i < n && j < n
    ensures Dist(n, i, j) == (j - i) % n
  {
    if i <= j {
      ModUnique(n, j - i, 0, j - i);
    } else {
      ModUnique(n, n - i + j, 0, n - i + j);
      ModShift(n, j - i);
    }
  }
}
