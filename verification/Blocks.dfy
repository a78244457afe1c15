/** The 32-byte blocks that write tracking and the redo log work with. */
module Blocks {
  import opened OpenAddressing

  const PAYLOAD_SIZE := 32

  /** The start of the block that byte `x` lies in. */
  function BlockOf(x: nat): (b: nat)
    ensures b % PAYLOAD_SIZE == 0 && b <= x < b + PAYLOAD_SIZE
  {
    x - x % PAYLOAD_SIZE
  }

  /** The blocks that hold a byte of the `size` bytes at `addr`. */
  function Touched(addr: nat, size: nat): set<nat> {
    set x: nat | addr <= x < addr + size :: BlockOf(x)
  }

  predicate IsBlock(b: nat) {
    b % PAYLOAD_SIZE == 0
  }

  function BlocksBetween(lo: nat, hi: nat): set<nat> {
    set b: nat | lo <= b < hi && IsBlock(b)
  }

  lemma NextIsBlock(b: nat)
    requires IsBlock(b)
    ensures IsBlock(b + PAYLOAD_SIZE)
  {}

  lemma BlocksSplit(lo: nat, hi: nat)
    requires IsBlock(lo) && lo < hi
    ensures BlocksBetween(lo, hi) == {lo} + BlocksBetween(lo + PAYLOAD_SIZE, hi)
  {
    forall b: nat | lo <= b < hi && IsBlock(b) ensures b == lo || lo + PAYLOAD_SIZE <= b {}
  }

  /** Counting up from the block of the first byte visits exactly the touched blocks. */
  lemma TouchedIsBetween(addr: nat, size: nat)
    requires size > 0
    ensures Touched(addr, size) == BlocksBetween(BlockOf(addr), addr + size)
  {
    forall b: nat | b in BlocksBetween(BlockOf(addr), addr + size) ensures b in Touched(addr, size) {
      var x := if b < addr then addr else b;
      assert BlockOf(x) == b;
    }
    forall b: nat | b in Touched(addr, size) ensures b in BlocksBetween(BlockOf(addr), addr + size) {
      var x: nat :| addr <= x < addr + size && b == BlockOf(x);
      assert IsBlock(b);
    }
  }

  /** Room for all the blocks to come is room for the first. */
  lemma RoomAtHead(t: seq<nat>, lo: nat, hi: nat)
    requires NoDuplicates(t) && IsBlock(lo) && lo < hi && |Contents(t) + BlocksBetween(lo, hi)| <= |t|
    ensures HasRoom(t, lo)
  {
    BlocksSplit(lo, hi);
    SubsetSize(Contents(t) + {lo}, Contents(t) + BlocksBetween(lo, hi));
    RoomIff(t, lo);
  }

  /** Recording the block at the loop head leaves the same blocks in all. */
  lemma SameTotal(s: set<nat>, s': set<nat>, lo: nat, hi: nat)
    requires IsBlock(lo) && lo < hi && s' == s + {lo}
    ensures s' + BlocksBetween(lo + PAYLOAD_SIZE, hi) == s + BlocksBetween(lo, hi)
  {
    BlocksSplit(lo, hi);
  }
}
