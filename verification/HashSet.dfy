/**
 The address hash set of the instrumentation, as a class updated in place.
 */
module HashSet {
  import opened OpenAddressing

  const COVERAGE := 64

  /** Block `b` is 64-byte aligned and meets the range of `size` bytes at `address`. */
  predicate Meets(b: nat, address: nat, size: nat) {
    b % COVERAGE == 0 && b < address + size && address < b + COVERAGE
  }

  /** All aligned blocks that meet the range. */
  function BlocksOf(address: nat, size: nat): set<nat> {
    set b: nat | b < address + size && Meets(b, address, size)
  }

  /** These are the blocks that hold a byte of the range, and of an empty one the block it cuts in two. */
  lemma BlocksHold(address: nat, size: nat, b: nat)
    ensures size > 0 ==> (b in BlocksOf(address, size)
                     <==> exists x :: address <= x < address + size && x - x % COVERAGE == b)
    ensures size == 0 ==> (b in BlocksOf(address, size) <==> address % COVERAGE != 0 && b == address - address % COVERAGE)
  {
    if size > 0 && b in BlocksOf(address, size) {
      var x := if b < address then address else b;
      assert address <= x < address + size && x - x % COVERAGE == b;
    }
  }

  /** The threshold gives a whole number of elements between 1 and the table size. */
  ghost predicate ThresholdOk(size: nat, threshold: real, max: int) {
    1 <= max <= size && max as real == size as real * threshold
  }

  /** `(int)(size * resizeThreshold)` */
  function MaxElements(size: nat, threshold: real): int {
    (size as real * threshold).Floor
  }

  class AddressHashSet {
    var size: nat
    var resizeThreshold: real
    var maxElementsBeforeResize: int
    var numberOfEntries: nat
    var numberOfCollisions: nat
    var numberOfDuplicates: nat
    var numberOfResizes: nat
    var lastUsedIndex: nat
    var setOfEntries: array<nat>

    ghost predicate TableValid()
      reads this, setOfEntries
    {
      && setOfEntries.Length == size
      && TableOk(setOfEntries[..])
      && Occupied(setOfEntries[..]) == numberOfEntries
      && numberOfDuplicates <= numberOfCollisions
    }

    ghost predicate Valid()
      reads this, setOfEntries
    {
      TableValid() && ThresholdOk(size, resizeThreshold, maxElementsBeforeResize)
    }

    /** The set of addresses the table stands for. */
    ghost function Elements(): set<nat>
      reads this, setOfEntries
    {
      Contents(setOfEntries[..])
    }

    /** address_hash_set_initialise, for a threshold that gives a whole number of elements. */
    constructor (n: nat, threshold: real)
      requires ThresholdOk(n, threshold, MaxElements(n, threshold))
      ensures Valid() && fresh(setOfEntries)
      ensures size == n && resizeThreshold == threshold
      ensures maxElementsBeforeResize == MaxElements(n, threshold)
      ensures Elements() == {} && numberOfEntries == 0
      ensures numberOfCollisions == 0 && numberOfDuplicates == 0 && numberOfResizes == 0
    {
      size := n;
      resizeThreshold := threshold;
      maxElementsBeforeResize := MaxElements(n, threshold);
      numberOfEntries, numberOfCollisions, numberOfDuplicates, numberOfResizes := 0, 0, 0, 0;
      lastUsedIndex := 0;
      setOfEntries := new nat[n](_ => 0);
      new;
      OccupiedEmpty(setOfEntries[..]);
    }

    /** addressIsProcessed: try slot `i`; a free slot takes the address, an equal one counts. */
    method AddressIsProcessed(i: nat, a: nat) returns (done: bool)
      requires i < setOfEntries.Length && a != 0
      modifies this`numberOfEntries, this`numberOfCollisions, this`numberOfDuplicates, this`lastUsedIndex,
               setOfEntries
      ensures done <==> old(setOfEntries[i]) == 0 || old(setOfEntries[i]) == a
      ensures lastUsedIndex == if old(setOfEntries[i]) == 0 then i else old(lastUsedIndex)
      ensures old(setOfEntries[i]) == 0 ==>
                && setOfEntries[..] == old(setOfEntries[..])[i := a]
                && numberOfEntries == old(numberOfEntries) + 1
                && numberOfCollisions == old(numberOfCollisions) && numberOfDuplicates == old(numberOfDuplicates)
      ensures old(setOfEntries[i]) != 0 ==>
                && setOfEntries[..] == old(setOfEntries[..])
                && numberOfEntries == old(numberOfEntries)
                && numberOfCollisions == old(numberOfCollisions) + 1
                && numberOfDuplicates == old(numberOfDuplicates) + (if done then 1 else 0)
    {
      if setOfEntries[i] == 0 {
        setOfEntries[i] := a;
        numberOfEntries := numberOfEntries + 1;
        lastUsedIndex := i;
        return true;
      }
      numberOfCollisions := numberOfCollisions + 1;
      if setOfEntries[i] == a {
        numberOfDuplicates := numberOfDuplicates + 1;
        return true;
      }
      return false;
    }

    /**
     address_hash_set_insert_aligned_block_address.  The probe loop has no bound of its own; it
     ends because a slot is free or the address is stored already.
     */
    method Insert(a: nat)
      requires TableValid() && a != 0 && HasRoom(setOfEntries[..], a)
      modifies this`numberOfEntries, this`numberOfCollisions, this`numberOfDuplicates, this`lastUsedIndex,
               setOfEntries
      ensures TableValid()
      ensures Elements() == old(Elements()) + {a}
      ensures numberOfEntries == old(numberOfEntries) + (if a in old(Elements()) then 0 else 1)
      ensures numberOfDuplicates == old(numberOfDuplicates) + (if a in old(Elements()) then 1 else 0)
      ensures exists d :: StopsAfter(old(setOfEntries[..]), a, d)
                       && numberOfCollisions == old(numberOfCollisions) + d + (if a in old(Elements()) then 1 else 0)
                       && setOfEntries[..] == Stored(old(setOfEntries[..]), a, d)
    {
      ghost var t := setOfEntries[..];
      ghost var d := 0;
      var i := a % size;
      HomeIsMod(size, a);
      while true
        invariant setOfEntries[..] == t && numberOfEntries == old(numberOfEntries)
        invariant numberOfDuplicates == old(numberOfDuplicates) && numberOfCollisions == old(numberOfCollisions) + d
        invariant 0 <= d < size && Collided(t, a, d) && i == Probe(size, Home(size, a), d)
        decreases size - d
      {
        var done := AddressIsProcessed(i, a);
        if done {
          InsertOutcome(t, setOfEntries[..], a, d, i);
          assert StopsAfter(t, a, d) && setOfEntries[..] == Stored(t, a, d);
          return;
        }
        ProbeOn(t, a, d);
        NextProbe(size, a, d);
        i := (i + 1) % size;
        d := d + 1;
      }
    }

    /** address_hash_set_resize: a table twice the size with the same elements. */
    method Resize() returns (r: AddressHashSet)
      requires Valid()
      ensures fresh(r) && fresh(r.setOfEntries) && r.Valid()
      ensures r.size == 2 * size && r.maxElementsBeforeResize == 2 * maxElementsBeforeResize
      ensures r.resizeThreshold == resizeThreshold
      ensures r.Elements() == Elements() && r.numberOfEntries == numberOfEntries
      ensures r.numberOfResizes == numberOfResizes + 1 && r.numberOfDuplicates == numberOfDuplicates
      ensures r.numberOfCollisions >= numberOfCollisions
    {
      DoubledThreshold(size, resizeThreshold, maxElementsBeforeResize);
      r := new AddressHashSet(size * 2, resizeThreshold);
      assert r.maxElementsBeforeResize as real == (size * 2) as real * resizeThreshold;
      r.numberOfResizes := r.numberOfResizes + numberOfResizes + 1;
      r.numberOfCollisions := r.numberOfCollisions + numberOfCollisions;
      r.numberOfDuplicates := r.numberOfDuplicates + numberOfDuplicates;
      CopyEntriesTo(r);
    }

    /** The loop of the resize: every stored address goes to the empty table `r`. */
    method CopyEntriesTo(r: AddressHashSet)
      requires TableValid() && r != this && r.setOfEntries != setOfEntries
      requires r.TableValid() && r.Elements() == {} && r.numberOfEntries == 0 && r.size == 2 * size
      modifies r`numberOfEntries, r`numberOfCollisions, r`numberOfDuplicates, r`lastUsedIndex, r.setOfEntries
      ensures r.TableValid() && r.Elements() == Elements() && r.numberOfEntries == numberOfEntries
      ensures r.numberOfDuplicates == old(r.numberOfDuplicates) && r.numberOfCollisions >= old(r.numberOfCollisions)
    {
      ghost var t := setOfEntries[..];
      OccupiedFits(t);
      for i := 0 to size
        invariant setOfEntries[..] == t && r.TableValid()
        invariant r.Elements() == Contents(t[..i]) && r.numberOfEntries == Occupied(t[..i]) <= i
        invariant r.numberOfDuplicates == old(r.numberOfDuplicates) && r.numberOfCollisions >= old(r.numberOfCollisions)
      {
        CopyNext(t, i);
        if setOfEntries[i] != 0 {
          r.Insert(setOfEntries[i]);
        }
      }
      assert t[..size] == t;
    }
  }

  /** What slot `i` adds to the slots before it. */
  lemma CopyNext(t: seq<nat>, i: nat)
    requires NoDuplicates(t) && i < |t|
    ensures Contents(t[..i + 1]) == Contents(t[..i]) + (if t[i] == 0 then {} else {t[i]})
    ensures Occupied(t[..i + 1]) == Occupied(t[..i]) + (if t[i] == 0 then 0 else 1)
    ensures t[i] !in Contents(t[..i])
  {
    assert t[..i + 1][..i] == t[..i] && t[..i + 1] == t[..i] + [t[i]];
  }

  /** The probing for `a` meets `d` other addresses and then a free slot or `a` itself. */
  ghost predicate StopsAfter(t: seq<nat>, a: nat, d: nat) {
    && d < |t| && Collided(t, a, d)
    && (t[Probe(|t|, Home(|t|, a), d)] == 0 || t[Probe(|t|, Home(|t|, a), d)] == a)
  }

  /** The table with `a` in the slot where that ends. */
  ghost function Stored(t: seq<nat>, a: nat, d: nat): seq<nat>
    requires d < |t|
  {
    t[Probe(|t|, Home(|t|, a), d) := a]
  }

  /** What the table holds when the probe loop stops at slot `i`. */
  lemma InsertOutcome(t: seq<nat>, t': seq<nat>, a: nat, d: nat, i: nat)
    requires TableOk(t) && a != 0 && d < |t| && Collided(t, a, d) && i == Probe(|t|, Home(|t|, a), d)
    requires t[i] == 0 || t[i] == a
    requires t' == if t[i] == 0 then t[i := a] else t
    ensures TableOk(t') && Contents(t') == Contents(t) + {a}
    ensures a in Contents(t) <==> t[i] == a
    ensures Occupied(t') == Occupied(t) + (if a in Contents(t) then 0 else 1)
  {
    if t[i] == 0 {
      InsertKeeps(t, a, d);
    }
  }

  lemma NextProbe(size: nat, a: nat, d: nat)
    requires size > 0 && d + 1 < size
    ensures (Probe(size, Home(size, a), d) + 1) % size == Probe(size, Home(size, a), d + 1)
  {}

  lemma DoubledThreshold(n: nat, threshold: real, max: int)
    requires ThresholdOk(n, threshold, max)
    ensures MaxElements(n * 2, threshold) == 2 * max
    ensures ThresholdOk(n * 2, threshold, MaxElements(n * 2, threshold))
  {
    assert (n * 2) as real == 2.0 * n as real;
    assert (n * 2) as real * threshold == 2.0 * (n as real * threshold);
    assert (2 * max) as real == 2.0 * max as real;
  }

  /** `now` is `before` and the blocks below `next` that meet the range. */
  ghost predicate Covered(before: set<nat>, now: set<nat>, address: nat, size: nat, next: nat) {
    forall b: nat :: b in now <==> b in before || (Meets(b, address, size) && b < next)
  }

  /** One more block: between two consecutive aligned addresses lies no other. */
  lemma CoverNext(before: set<nat>, now: set<nat>, address: nat, size: nat, next: nat)
    requires Covered(before, now, address, size, next)
    requires next % COVERAGE == 0 && next < address + size && address < next + COVERAGE
    ensures Covered(before, now + {next}, address, size, next + COVERAGE)
  {
    forall b: nat | Meets(b, address, size) ensures b < next + COVERAGE <==> b < next || b == next {
      NoneBetween(b, next);
    }
  }

  lemma CoveredAll(before: set<nat>, now: set<nat>, address: nat, size: nat, next: nat)
    requires Covered(before, now, address, size, next) && next >= address + size
    ensures now == before + BlocksOf(address, size)
  {}

  lemma NoneBetween(b: nat, next: nat)
    requires b % COVERAGE == 0 && next % COVERAGE == 0
    ensures b < next + COVERAGE <==> b < next || b == next
  {}

  /** `n` doubled `k` times. */
  function Doubled(n: nat, k: nat): nat {
    if k == 0 then n else 2 * Doubled(n, k - 1)
  }

  /** The table was replaced as often as it was counted, each time by one twice its size, and not before it was full. */
  ghost predicate Grown(same: bool, size: nat, resizes: int, entries: int, max: int, size0: nat, resizes0: int) {
    && resizes >= resizes0 && size == Doubled(size0, resizes - resizes0)
    && (same <==> resizes == resizes0) && (!same ==> 2 * entries >= max)
  }

  lemma GrownOn(same: bool, size: nat, resizes: int, entries: int, max: int, entries': int, size0: nat, resizes0: int)
    requires Grown(same, size, resizes, entries, max, size0, resizes0) && entries' >= entries
    ensures Grown(same, size, resizes, entries', max, size0, resizes0)
    ensures entries >= max ==> Grown(false, 2 * size, resizes + 1, entries', 2 * max, size0, resizes0)
  {}

  /** One block, into a table twice the size if this one has as many elements as it may. */
  method AddBlock(s: AddressHashSet, a: nat) returns (r: AddressHashSet)
    requires s.Valid() && s.numberOfEntries <= s.maxElementsBeforeResize && a != 0
    modifies s, s.setOfEntries
    ensures r == s || fresh(r)
    ensures r.setOfEntries == old(s.setOfEntries) || fresh(r.setOfEntries)
    ensures r.Valid() && r.numberOfEntries <= r.maxElementsBeforeResize
    ensures r.Elements() == old(s.Elements()) + {a}
    ensures r == s <==> old(s.numberOfEntries) < old(s.maxElementsBeforeResize)
    ensures r == s ==> r.size == old(s.size) && r.numberOfResizes == old(s.numberOfResizes)
    ensures r != s ==> r.size == 2 * old(s.size) && r.numberOfResizes == old(s.numberOfResizes) + 1
    ensures r == s ==> r.maxElementsBeforeResize == old(s.maxElementsBeforeResize)
    ensures r != s ==> r.maxElementsBeforeResize == 2 * old(s.maxElementsBeforeResize)
    ensures r.numberOfEntries >= old(s.numberOfEntries)
  {
    r := s;
    if r.numberOfEntries == r.maxElementsBeforeResize {
      r := r.Resize();
    }
    r.Insert(a);
  }

  ghost predicate GrownFrom(r: AddressHashSet, s: AddressHashSet, size0: nat, resizes0: int)
    reads r
  {
    Grown(r == s, r.size, r.numberOfResizes, r.numberOfEntries, r.maxElementsBeforeResize, size0, resizes0)
  }

  /** The table has what the range put into it below `next`, and has grown from `s` for it. */
  ghost predicate Filled(r: AddressHashSet, before: set<nat>, address: nat, size: nat, next: nat,
                         s: AddressHashSet, size0: nat, resizes0: int)
    reads r, r.setOfEntries
  {
    && r.Valid() && r.numberOfEntries <= r.maxElementsBeforeResize
    && next % COVERAGE == 0 && COVERAGE <= next && address < next + COVERAGE
    && Covered(before, r.Elements(), address, size, next) && GrownFrom(r, s, size0, resizes0)
  }

  /** One more block of the range. */
  method NextBlock(q: AddressHashSet, next: nat, ghost before: set<nat>, ghost address: nat, ghost size: nat,
                   ghost s: AddressHashSet, ghost size0: nat, ghost resizes0: int)
    returns (r: AddressHashSet)
    requires Filled(q, before, address, size, next, s, size0, resizes0) && next < address + size
    modifies q, q.setOfEntries
    ensures r == q || fresh(r)
    ensures r.setOfEntries == old(q.setOfEntries) || fresh(r.setOfEntries)
    ensures Filled(r, before, address, size, next + COVERAGE, s, size0, resizes0)
  {
    CoverNext(before, q.Elements(), address, size, next);
    r := AddBlock(q, next);
    GrownOn(q == s, old(q.size), old(q.numberOfResizes), old(q.numberOfEntries), old(q.maxElementsBeforeResize),
            r.numberOfEntries, size0, resizes0);
  }

  /**
   address_hash_set_add_redo_log_stub: record every aligned block that meets the range, growing
   the table in the middle of the range when it has to.
   */
  method AddRedoLogStub(s: AddressHashSet, address: nat, size: nat) returns (r: AddressHashSet)
    requires s.Valid() && s.numberOfEntries <= s.maxElementsBeforeResize
    requires COVERAGE <= address
    modifies s, s.setOfEntries
    ensures r == s || fresh(r)
    ensures r.Valid() && r.numberOfEntries <= r.maxElementsBeforeResize
    ensures r.Elements() == old(s.Elements()) + BlocksOf(address, size)
    ensures r.numberOfEntries == |r.Elements()|
    ensures r.numberOfResizes >= old(s.numberOfResizes)
    ensures r.size == Doubled(old(s.size), r.numberOfResizes - old(s.numberOfResizes))
    ensures r == s <==> r.numberOfResizes == old(s.numberOfResizes)
    ensures r != s ==> 2 * r.numberOfEntries >= r.maxElementsBeforeResize
  {
    r := s;
    ghost var before, size0, resizes0 := s.Elements(), s.size, s.numberOfResizes;
    var range := address + size;
    var aligned := address - address % COVERAGE;
    while aligned < range
      invariant r == s || fresh(r)
      invariant r.setOfEntries == old(s.setOfEntries) || fresh(r.setOfEntries)
      invariant Filled(r, before, address, size, aligned, s, size0, resizes0)
      decreases range - aligned
    {
      r := NextBlock(r, aligned, before, address, size, s, size0, resizes0);
      aligned := aligned + COVERAGE;
    }
    CoveredAll(before, r.Elements(), address, size, aligned);
    OccupiedIsSize(r.setOfEntries[..]);
  }
}
