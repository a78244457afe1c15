/**
 instrument_stop publishes one batch for each memcpy and one for the table.  This is exactly when a
 crash between them cannot tear the combiner's batch apart.
 */
module Atomicity {
  import opened RedoLog
  import opened Blocks
  import opened Collection

  /** The image when the first `k` batches are published. */
  ghost function ImageAfter(shadow: Image, bs: seq<seq<Entry>>, k: nat): Image
    requires k <= |bs|
  {
    shadow + Delta(Flatten(bs[..k]))
  }

  /** Whatever the crash point, the image is the one before or the one after all batches. */
  ghost predicate AllOrNothing(shadow: Image, bs: seq<seq<Entry>>) {
    forall k | 0 <= k <= |bs| ::
      ImageAfter(shadow, bs, k) == ImageAfter(shadow, bs, 0) || ImageAfter(shadow, bs, k) == ImageAfter(shadow, bs, |bs|)
  }

  /** Publishing batch `k` changes a byte of the image. */
  ghost predicate Changes(shadow: Image, bs: seq<seq<Entry>>, k: nat)
    requires k < |bs|
  {
    ImageAfter(shadow, bs, k) != ImageAfter(shadow, bs, k + 1)
  }

  /** The batches copy memory as it is, to mapped bytes. */
  ghost predicate CopiesOf(shadow: Image, mem: Image, bs: seq<seq<Entry>>) {
    && shadow.Keys == mem.Keys && Faithful(mem, Flatten(bs))
    && forall a | Hits(Flatten(bs), a) :: a in mem
  }

  lemma {:induction false} FlattenPrefix(bs: seq<seq<Entry>>, i: nat, j: nat)
    requires i <= j <= |bs|
    ensures Flatten(bs[..i]) <= Flatten(bs[..j])
    decreases j - i
  {
    if i < j {
      FlattenPrefix(bs, i, j - 1);
      assert bs[..j][..j - 1] == bs[..j - 1];
    }
  }

  lemma HitsPrefix(x: seq<Entry>, y: seq<Entry>, a: int)
    requires x <= y && Hits(x, a)
    ensures Hits(y, a)
  {
    var k :| 0 <= k < |x| && Touches(x[k], a);
    assert Touches(y[k], a);
  }

  lemma FaithfulPrefix(mem: Image, x: seq<Entry>, y: seq<Entry>)
    requires x <= y && Faithful(mem, y)
    ensures Faithful(mem, x)
  {
    forall k | 0 <= k < |x| ensures CopiesMemory(mem, x[k]) {
      assert CopiesMemory(mem, y[k]);
    }
  }

  /** The value of a byte after `k` batches: new if one of them hits it, old otherwise. */
  lemma ByteAfter(shadow: Image, mem: Image, bs: seq<seq<Entry>>, k: nat, a: int)
    requires CopiesOf(shadow, mem, bs) && k <= |bs|
    ensures a in ImageAfter(shadow, bs, k) <==> a in mem
    ensures a in mem ==>
              ImageAfter(shadow, bs, k)[a] == if Hits(Flatten(bs[..k]), a) then mem[a] else shadow[a]
  {
    assert bs[..|bs|] == bs;
    FlattenPrefix(bs, k, |bs|);
    FaithfulPrefix(mem, Flatten(bs[..k]), Flatten(bs));
    FaithfulDelta(mem, Flatten(bs[..k]), a);
    if Hits(Flatten(bs[..k]), a) {
      HitsPrefix(Flatten(bs[..k]), Flatten(bs), a);
    }
  }

  lemma SameBytes(shadow: Image, mem: Image, bs: seq<seq<Entry>>, i: nat, j: nat)
    requires CopiesOf(shadow, mem, bs) && i <= j <= |bs|
    requires forall a | a in mem :: a in ImageAfter(shadow, bs, i) && a in ImageAfter(shadow, bs, j)
               && ImageAfter(shadow, bs, i)[a] == ImageAfter(shadow, bs, j)[a]
    ensures ImageAfter(shadow, bs, i) == ImageAfter(shadow, bs, j)
  {
    var x, y := ImageAfter(shadow, bs, i), ImageAfter(shadow, bs, j);
    forall a ensures (a in x <==> a in mem) && (a in y <==> a in mem) {
      ByteAfter(shadow, mem, bs, i, a);
      ByteAfter(shadow, mem, bs, j, a);
    }
    assert x.Keys == y.Keys;
    forall a | a in x ensures x[a] == y[a] {
      assert a in mem;
    }
  }

  /** Images after batches differ only in bytes that are hit in between and change. */
  lemma Differs(shadow: Image, mem: Image, bs: seq<seq<Entry>>, i: nat, j: nat) returns (a: int)
    requires CopiesOf(shadow, mem, bs) && i <= j <= |bs|
    requires ImageAfter(shadow, bs, i) != ImageAfter(shadow, bs, j)
    ensures a in mem && shadow[a] != mem[a] && !Hits(Flatten(bs[..i]), a) && Hits(Flatten(bs[..j]), a)
  {
    var x, y := ImageAfter(shadow, bs, i), ImageAfter(shadow, bs, j);
    if forall a | a in mem :: a in x && a in y && x[a] == y[a] {
      SameBytes(shadow, mem, bs, i, j);
    }
    a :| a in mem && !(a in x && a in y && x[a] == y[a]);
    ByteAfter(shadow, mem, bs, i, a);
    ByteAfter(shadow, mem, bs, j, a);
    FlattenPrefix(bs, i, j);
    if Hits(Flatten(bs[..i]), a) {
      HitsPrefix(Flatten(bs[..i]), Flatten(bs[..j]), a);
    }
  }

  /** A batch that changes something leaves the old image for good. */
  lemma LeavesOld(shadow: Image, mem: Image, bs: seq<seq<Entry>>, j: nat)
    requires CopiesOf(shadow, mem, bs) && j < |bs| && Changes(shadow, bs, j)
    ensures ImageAfter(shadow, bs, j + 1) != ImageAfter(shadow, bs, 0)
  {
    var a := Differs(shadow, mem, bs, j, j + 1);
    ByteAfter(shadow, mem, bs, j + 1, a);
    ByteAfter(shadow, mem, bs, 0, a);
    assert bs[..0] == [];
  }

  /** Before a batch that changes something the new image is not reached. */
  lemma NotYetNew(shadow: Image, mem: Image, bs: seq<seq<Entry>>, i: nat, k: nat)
    requires CopiesOf(shadow, mem, bs) && i <= k < |bs| && Changes(shadow, bs, k)
    ensures ImageAfter(shadow, bs, i) != ImageAfter(shadow, bs, |bs|)
  {
    var b := Differs(shadow, mem, bs, k, k + 1);
    FlattenPrefix(bs, i, k);
    FlattenPrefix(bs, k + 1, |bs|);
    HitsPrefix(Flatten(bs[..k + 1]), Flatten(bs[..|bs|]), b);
    if Hits(Flatten(bs[..i]), b) {
      HitsPrefix(Flatten(bs[..i]), Flatten(bs[..k]), b);
    }
    ByteAfter(shadow, mem, bs, i, b);
    ByteAfter(shadow, mem, bs, |bs|, b);
  }

  /** Two batches that change something leave a torn image between them. */
  lemma TwoChangesTear(shadow: Image, mem: Image, bs: seq<seq<Entry>>, j: nat, k: nat)
    requires CopiesOf(shadow, mem, bs) && j < k < |bs|
    requires Changes(shadow, bs, j) && Changes(shadow, bs, k)
    ensures ImageAfter(shadow, bs, j + 1) != ImageAfter(shadow, bs, 0)
    ensures ImageAfter(shadow, bs, j + 1) != ImageAfter(shadow, bs, |bs|)
  {
    LeavesOld(shadow, mem, bs, j);
    NotYetNew(shadow, mem, bs, j + 1, k);
  }

  lemma {:induction false} NoChangesBetween(shadow: Image, bs: seq<seq<Entry>>, i: nat, j: nat)
    requires i <= j <= |bs| && forall k | i <= k < j :: !Changes(shadow, bs, k)
    ensures ImageAfter(shadow, bs, i) == ImageAfter(shadow, bs, j)
    decreases j - i
  {
    if i < j {
      NoChangesBetween(shadow, bs, i, j - 1);
      assert !Changes(shadow, bs, j - 1);
    }
  }

  lemma AtMostOneStep(shadow: Image, mem: Image, bs: seq<seq<Entry>>)
    requires CopiesOf(shadow, mem, bs)
    ensures AllOrNothing(shadow, bs)
       <==> forall j, k | 0 <= j < k < |bs| :: !(Changes(shadow, bs, j) && Changes(shadow, bs, k))
  {
    if AllOrNothing(shadow, bs) {
      forall j, k | 0 <= j < k < |bs| ensures !(Changes(shadow, bs, j) && Changes(shadow, bs, k)) {
        if Changes(shadow, bs, j) && Changes(shadow, bs, k) {
          TwoChangesTear(shadow, mem, bs, j, k);
        }
      }
    }
    if forall j, k | 0 <= j < k < |bs| :: !(Changes(shadow, bs, j) && Changes(shadow, bs, k)) {
      forall k | 0 <= k <= |bs|
        ensures ImageAfter(shadow, bs, k) == ImageAfter(shadow, bs, 0)
             || ImageAfter(shadow, bs, k) == ImageAfter(shadow, bs, |bs|)
      {
        if forall j | 0 <= j < k :: !Changes(shadow, bs, j) {
          NoChangesBetween(shadow, bs, 0, k);
        } else {
          NoChangesBetween(shadow, bs, k, |bs|);
        }
      }
    }
  }

  // ---------------------------------------------------------------- what can be seen beforehand

  /** Byte `a` is out of date, and batch `k` is the first to carry it. */
  ghost predicate FirstCarried(shadow: Image, mem: Image, bs: seq<seq<Entry>>, k: nat, a: int)
    requires shadow.Keys == mem.Keys && k < |bs|
  {
    a in mem && shadow[a] != mem[a] && Hits(bs[k], a) && !Hits(Flatten(bs[..k]), a)
  }

  lemma OneBatchMore(bs: seq<seq<Entry>>, k: nat, a: int)
    requires k < |bs|
    ensures Hits(Flatten(bs[..k + 1]), a) <==> Hits(Flatten(bs[..k]), a) || Hits(bs[k], a)
  {
    assert bs[..k + 1][..k] == bs[..k];
    HitsConcat(Flatten(bs[..k]), bs[k], a);
  }

  ghost predicate Carries(shadow: Image, mem: Image, bs: seq<seq<Entry>>, k: nat)
    requires shadow.Keys == mem.Keys && k < |bs|
  {
    exists a :: FirstCarried(shadow, mem, bs, k, a)
  }

  /** A batch changes the image if and only if it is the first to carry some byte that is out of date. */
  lemma ChangesIff(shadow: Image, mem: Image, bs: seq<seq<Entry>>, k: nat)
    requires CopiesOf(shadow, mem, bs) && k < |bs|
    ensures Changes(shadow, bs, k) <==> Carries(shadow, mem, bs, k)
  {
    if Changes(shadow, bs, k) {
      var a := Differs(shadow, mem, bs, k, k + 1);
      OneBatchMore(bs, k, a);
      assert FirstCarried(shadow, mem, bs, k, a);
    }
    if a :| FirstCarried(shadow, mem, bs, k, a) {
      OneBatchMore(bs, k, a);
      ByteAfter(shadow, mem, bs, k, a);
      ByteAfter(shadow, mem, bs, k + 1, a);
    }
  }

  /** At most one batch is the first to carry a byte that is out of date. */
  ghost predicate AtMostOneCarries(shadow: Image, mem: Image, bs: seq<seq<Entry>>)
    requires shadow.Keys == mem.Keys
  {
    forall j, k | 0 <= j < k < |bs| :: !(Carries(shadow, mem, bs, j) && Carries(shadow, mem, bs, k))
  }

  /** A crash leaves all of the combiner's batch or nothing of it iff at most one ring batch matters. */
  lemma AtomicIff(shadow: Image, mem: Image, bs: seq<seq<Entry>>)
    requires CopiesOf(shadow, mem, bs)
    ensures AllOrNothing(shadow, bs) <==> AtMostOneCarries(shadow, mem, bs)
  {
    AtMostOneStep(shadow, mem, bs);
    forall k | 0 <= k < |bs| ensures Changes(shadow, bs, k) <==> Carries(shadow, mem, bs, k) {
      ChangesIff(shadow, mem, bs, k);
    }
  }

  /** Part `k` of a stop, a copy or the table, is the first to log byte `a`. */
  ghost predicate FirstLogged(cs: seq<Copy>, t: seq<nat>, k: nat, a: int)
    requires k <= |cs|
  {
    !InCopies(cs[..k], a) && (if k < |cs| then InCopy(cs[k], a) else InTable(t, a))
  }

  /** Part `k` of a stop brings a byte that is out of date. */
  ghost predicate Matters(shadow: Image, mem: Image, cs: seq<Copy>, t: seq<nat>, k: nat)
    requires shadow.Keys == mem.Keys && k <= |cs|
  {
    exists a :: a in mem && shadow[a] != mem[a] && FirstLogged(cs, t, k, a)
  }

  /** At most one of the copies and the table brings bytes that are out of date. */
  ghost predicate AtMostOneMatters(shadow: Image, mem: Image, cs: seq<Copy>, t: seq<nat>)
    requires shadow.Keys == mem.Keys
  {
    forall j, k | 0 <= j < k <= |cs| :: !(Matters(shadow, mem, cs, t, j) && Matters(shadow, mem, cs, t, k))
  }

  /** The batches of an instrument_stop, in the order they are published. */
  ghost predicate StopsIn(mem: Image, cs: seq<Copy>, t: seq<nat>, bs: seq<seq<Entry>>) {
    && AreBatches(bs) && |bs| == |cs| + 1 && InOrder(mem, cs, bs)
    && Flatten(bs) == StopLog(mem, cs, t)
  }

  /** What the batches before `k` log, and with `k`. */
  lemma LoggedBefore(mem: Image, cs: seq<Copy>, t: seq<nat>, bs: seq<seq<Entry>>, k: nat, a: int)
    requires StopsIn(mem, cs, t, bs) && k <= |cs|
    ensures Hits(Flatten(bs[..k]), a) <==> InCopies(cs[..k], a)
    ensures !Hits(Flatten(bs[..k]), a) ==> (Hits(bs[k], a) <==> FirstLogged(cs, t, k, a))
  {
    CopiesHit(mem, cs[..k], a);
    OneBatchMore(bs, k, a);
    if k < |cs| {
      CopiesHit(mem, cs[..k + 1], a);
      InCopiesLast(cs[..k + 1], a);
      assert cs[..k + 1][..k] == cs[..k];
    } else {
      assert bs[..k + 1] == bs && cs[..k] == cs;
      StopHits(mem, cs, t, a);
    }
  }

  lemma MattersIff(shadow: Image, mem: Image, cs: seq<Copy>, t: seq<nat>, bs: seq<seq<Entry>>, k: nat)
    requires shadow.Keys == mem.Keys && StopsIn(mem, cs, t, bs) && k <= |cs|
    ensures Matters(shadow, mem, cs, t, k) <==> Carries(shadow, mem, bs, k)
  {
    forall a ensures FirstCarried(shadow, mem, bs, k, a)
                <==> a in mem && shadow[a] != mem[a] && FirstLogged(cs, t, k, a)
    {
      LoggedBefore(mem, cs, t, bs, k, a);
    }
  }

  /**
   Seen on memory, copies and table before the stop: its batches are published all or nothing, at
   every point between them, if and only if at most one of the copies and the table brings bytes
   that are out of date.
   */
  lemma StopAtomicIff(shadow: Image, mem: Image, cs: seq<Copy>, t: seq<nat>) returns (bs: seq<seq<Entry>>)
    requires shadow.Keys == mem.Keys && Readable(mem, cs, t)
    ensures StopsIn(mem, cs, t, bs) && CopiesOf(shadow, mem, bs)
    ensures AllOrNothing(shadow, bs) <==> AtMostOneMatters(shadow, mem, cs, t)
  {
    bs := StopBatches(mem, cs, t);
    StopFaithful(mem, cs, t);
    forall a | Hits(Flatten(bs), a) ensures a in mem {
      StopHits(mem, cs, t, a);
    }
    AtomicIff(shadow, mem, bs);
    OneCarriesIffOneMatters(shadow, mem, cs, t, bs);
  }

  lemma OneCarriesIffOneMatters(shadow: Image, mem: Image, cs: seq<Copy>, t: seq<nat>, bs: seq<seq<Entry>>)
    requires shadow.Keys == mem.Keys && StopsIn(mem, cs, t, bs)
    ensures AtMostOneCarries(shadow, mem, bs) <==> AtMostOneMatters(shadow, mem, cs, t)
  {
    forall k | 0 <= k <= |cs| ensures Matters(shadow, mem, cs, t, k) <==> Carries(shadow, mem, bs, k) {
      MattersIff(shadow, mem, cs, t, bs, k);
    }
  }

  /** There is no boundary inside a batch. */
  lemma NotInside(f: seq<Entry>, last: seq<Entry>, p: nat)
    requires IsBatch(last) && p < |f + last| && Boundary(f + last, p)
    ensures p <= |f|
  {
    assert forall i | 0 <= i < |last| - 1 :: (f + last)[|f| + i] == last[i];
  }

  /** Every batch boundary inside the entries is the end of one of the batches. */
  lemma {:induction false} BoundaryIsBatch(bs: seq<seq<Entry>>, p: nat) returns (k: nat)
    requires AreBatches(bs) && p <= |Flatten(bs)| && Boundary(Flatten(bs), p)
    ensures k <= |bs| && Flatten(bs[..k]) == Flatten(bs)[..p]
  {
    if p == |Flatten(bs)| {
      k := |bs|;
      assert bs[..k] == bs;
    } else {
      var front, last := bs[..|bs| - 1], bs[|bs| - 1];
      var f := Flatten(front);
      assert IsBatch(last) && Flatten(bs) == f + last;
      NotInside(f, last, p);
      assert f[..p] == Flatten(bs)[..p];
      k := BoundaryIsBatch(front, p);
      assert front[..k] == bs[..k];
    }
  }

  // ---------------------------------------------------------------- one memcpy and one store

  function Zeros(): Image {
    Block(2048, seq(64, _ => 0))
  }

  /** A memcpy of one byte to 2048 and a store of one byte to 2080. */
  function Written(): Image {
    Zeros()[2048 := 7][2080 := 9]
  }

  const COPIES := [Copy(2048, 2049)]
  const TABLE: seq<nat> := [2080]

  lemma TornLogged(a: int)
    ensures InCopies(COPIES, a) <==> 2048 <= a < 2080
    ensures InTable(TABLE, a) <==> 2080 <= a < 2112
  {
    assert ChunksOf(COPIES[0]) == 1;
    assert InCopy(COPIES[0], a) <==> 2048 <= a < 2080;
    assert TABLE[0] > LOWEST && (InChunk(TABLE[0], a) <==> 2080 <= a < 2112);
  }

  /** Between the two batches the image has the copied byte and not the stored one. */
  lemma TornImage(bs: seq<seq<Entry>>)
    requires CopiesOf(Zeros(), Written(), bs) && |bs| == 2 && InOrder(Written(), COPIES, bs)
    ensures ImageAfter(Zeros(), bs, 1) == Zeros()[2048 := 7]
  {
    var x, y := ImageAfter(Zeros(), bs, 1), Zeros()[2048 := 7];
    assert COPIES[..1] == COPIES && Flatten(bs[..1]) == CopiesLog(Written(), COPIES);
    forall a ensures (a in x <==> a in y) && (a in y ==> x[a] == y[a]) {
      ByteAfter(Zeros(), Written(), bs, 1, a);
      CopiesHit(Written(), COPIES, a);
      TornLogged(a);
    }
  }

  /** Both the memcpy and the table bring a byte, so the batches are not published all or nothing. */
  lemma TornBatch() returns (bs: seq<seq<Entry>>)
    ensures Readable(Written(), COPIES, TABLE) && Tracked(Zeros(), Written(), COPIES, TABLE)
    ensures StopsIn(Written(), COPIES, TABLE, bs)
    ensures ImageAfter(Zeros(), bs, 1) == Zeros()[2048 := 7] && ImageAfter(Zeros(), bs, 2) == Written()
    ensures !AtMostOneMatters(Zeros(), Written(), COPIES, TABLE) && !AllOrNothing(Zeros(), bs)
  {
    TornCovers();
    bs := StopAtomicIff(Zeros(), Written(), COPIES, TABLE);
    TornImage(bs);
    WholeImage(bs);
    BothMatter();
    assert !AtMostOneMatters(Zeros(), Written(), COPIES, TABLE);
  }

  /** What is recorded is what is mapped. */
  lemma TornCovers()
    ensures Readable(Written(), COPIES, TABLE) && Zeros().Keys == Written().Keys
    ensures Tracked(Zeros(), Written(), COPIES, TABLE)
  {
    forall a ensures Logged(COPIES, TABLE, a) <==> a in Written() {
      TornLogged(a);
    }
  }

  lemma WholeImage(bs: seq<seq<Entry>>)
    requires |bs| == 2 && Flatten(bs) == StopLog(Written(), COPIES, TABLE)
    ensures ImageAfter(Zeros(), bs, 2) == Written()
  {
    TornCovers();
    assert bs[..2] == bs;
    ImageRefinement(Zeros(), Written(), COPIES, TABLE);
  }

  lemma BothMatter()
    ensures Matters(Zeros(), Written(), COPIES, TABLE, 0) && Matters(Zeros(), Written(), COPIES, TABLE, 1)
  {
    TornLogged(2048);
    TornLogged(2080);
    InCopiesLast(COPIES, 2048);
    assert COPIES[..1] == COPIES && COPIES[..0] == [];
    assert 2048 in Written() && FirstLogged(COPIES, TABLE, 0, 2048);
    assert 2080 in Written() && FirstLogged(COPIES, TABLE, 1, 2080);
  }
}
