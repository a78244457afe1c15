/**
 The entries of the redo log and what replaying them does to a memory image.

 An image maps byte addresses to byte values.  A REDO entry carries a start address and a
 payload; a COMMIT entry closes a batch and changes no byte.
 */
module RedoLog {

  type Image = map<int, int>

  datatype Entry =
    | Redo(addr: int, payload: seq<int>)
    | Commit

  /** The bytes a payload defines when it is copied to `addr`. */
  function Block(addr: int, payload: seq<int>): Image {
    map a | addr <= a < addr + |payload| :: ByteAt(addr, payload, a)
  }

  function ByteAt(addr: int, payload: seq<int>, a: int): int
    requires addr <= a < addr + |payload|
  {
    payload[a - addr]
  }

  /** The bytes one entry defines. */
  function Effect(e: Entry): Image {
    match e
    case Redo(addr, payload) => Block(addr, payload)
    case Commit => map[]
  }

  /** The bytes a whole log defines; later entries win. */
  function Delta(log: seq<Entry>): Image {
    if log == [] then map[] else Delta(log[..|log| - 1]) + Effect(log[|log| - 1])
  }

  lemma MergeAssoc(x: Image, y: Image, z: Image)
    ensures (x + y) + z == x + (y + z)
  {}

  lemma {:induction false} DeltaConcat(a: seq<Entry>, b: seq<Entry>)
    ensures Delta(a + b) == Delta(a) + Delta(b)
    decreases |b|
  {
    if b == [] {
      assert a + b == a;
    } else {
      var b' := b[..|b| - 1];
      assert (a + b)[..|a + b| - 1] == a + b';
      DeltaConcat(a, b');
      MergeAssoc(Delta(a), Delta(b'), Effect(b[|b| - 1]));
    }
  }

  /** Cutting a stretch of a log in two at `j`. */
  lemma DeltaSplit(log: seq<Entry>, i: nat, j: nat, k: nat)
    requires i <= j <= k <= |log|
    ensures Delta(log[i..k]) == Delta(log[i..j]) + Delta(log[j..k])
  {
    assert log[i..k] == log[i..j] + log[j..k];
    DeltaConcat(log[i..j], log[j..k]);
  }

  lemma DeltaOne(e: Entry)
    ensures Delta([e]) == Effect(e)
  {
    assert [e][..0] == [];
  }

  /** One more entry of a stretch of a log. */
  lemma DeltaNext(log: seq<Entry>, i: nat, m: nat)
    requires i <= m < |log|
    ensures Delta(log[i..m + 1]) == Delta(log[i..m]) + Effect(log[m])
  {
    assert log[i..m + 1][..m - i] == log[i..m];
  }

  /** A replayed byte holds what the last entry that defines it says. */
  lemma {:induction false} LastEntryWins(log: seq<Entry>, k: nat, a: int)
    requires k < |log| && log[k].Redo? && log[k].addr <= a < log[k].addr + |log[k].payload|
    requires forall j | k < j < |log| && log[j].Redo? :: !(log[j].addr <= a < log[j].addr + |log[j].payload|)
    ensures a in Delta(log) && Delta(log)[a] == log[k].payload[a - log[k].addr]
  {
    if k < |log| - 1 {
      LastEntryWins(log[..|log| - 1], k, a);
    }
  }

  lemma {:induction false} NoEntry(log: seq<Entry>, a: int)
    requires forall j | 0 <= j < |log| && log[j].Redo? :: !(log[j].addr <= a < log[j].addr + |log[j].payload|)
    ensures a !in Delta(log)
  {
    if log != [] {
      NoEntry(log[..|log| - 1], a);
    }
  }

  /** A batch is any number of REDO entries closed by one COMMIT. */
  ghost predicate IsBatch(b: seq<Entry>) {
    && |b| > 0
    && b[|b| - 1].Commit?
    && forall k | 0 <= k < |b| - 1 :: b[k].Redo?
  }

  ghost function Flatten(bs: seq<seq<Entry>>): seq<Entry> {
    if bs == [] then [] else Flatten(bs[..|bs| - 1]) + bs[|bs| - 1]
  }

  /** Position `k` of `log` lies between two batches. */
  ghost predicate Boundary(log: seq<Entry>, k: nat) {
    k <= |log| && (k == 0 || log[k - 1].Commit?)
  }

  ghost predicate AreBatches(bs: seq<seq<Entry>>) {
    forall i | 0 <= i < |bs| :: IsBatch(bs[i])
  }

  /** A log that ends on a boundary is exactly a concatenation of batches. */
  lemma {:induction false} CutIntoBatches(log: seq<Entry>) returns (bs: seq<seq<Entry>>)
    requires Boundary(log, |log|)
    ensures AreBatches(bs) && Flatten(bs) == log
    decreases |log|
  {
    if log == [] {
      bs := [];
    } else {
      var cut := |log| - 1;
      while cut > 0 && log[cut - 1].Redo?
        invariant 0 <= cut <= |log| - 1
        invariant forall k | cut <= k < |log| - 1 :: log[k].Redo?
      {
        cut := cut - 1;
      }
      var front := CutIntoBatches(log[..cut]);
      bs := front + [log[cut..]];
      assert bs[..|bs| - 1] == front;
      assert log[..cut] + log[cut..] == log;
    }
  }
}
