/**
 Open addressing with linear probing and no deletion, as used by the C hash set and by the
 emitted write-tracking code: slot value 0 is free, and an address starts probing at its value
 modulo the table size.
 */
module OpenAddressing {
  import opened Modulo

  /** The slot an address starts at: what is left of it after taking away the size repeatedly. */
  function Home(size: nat, a: nat): (r: nat)
    requires size > 0
    ensures r < size
  {
    if a < size then a else Home(size, a - size)
  }

  lemma {:induction false} HomeIsMod(size: nat, a: nat)
    requires size > 0
    ensures Home(size, a) == a % size
  {
    if a >= size {
      HomeIsMod(size, a - size);
      ModLap(size, a - size);
    }
  }

  /** The slot looked at after `d` collisions, for `d` below the table size. */
  function Probe(size: nat, home: nat, d: nat): (r: nat)
    requires home < size && d < size
    ensures r < size
  {
    if home + d < size then home + d else home + d - size
  }

  /** How many collisions lead from `home` to slot `p`. */
  function Offset(size: nat, home: nat, p: nat): (r: nat)
    requires home < size && p < size
    ensures r < size && Probe(size, home, r) == p
  {
    if home <= p then p - home else p + size - home
  }

  /** Each address is stored once. */
  ghost predicate NoDuplicates(t: seq<nat>) {
    forall p, q | 0 <= p < q < |t| && t[p] != 0 :: t[p] != t[q]
  }

  /** No free slot lies between an address's home and the slot it is stored in. */
  ghost predicate NoHoles(t: seq<nat>) {
    forall p, d {:trigger Offset(|t|, Home(|t|, t[p]), p), Probe(|t|, Home(|t|, t[p]), d)}
      | 0 <= p < |t| && t[p] != 0 && 0 <= d < Offset(|t|, Home(|t|, t[p]), p) ::
      t[Probe(|t|, Home(|t|, t[p]), d)] != 0
  }

  ghost predicate TableOk(t: seq<nat>) {
    |t| > 0 && NoDuplicates(t) && NoHoles(t)
  }

  function Contents(t: seq<nat>): set<nat> {
    set a | a in t && a != 0
  }

  /** Number of occupied slots. */
  function Occupied(t: seq<nat>): nat {
    if t == [] then 0 else Occupied(t[..|t| - 1]) + (if t[|t| - 1] != 0 then 1 else 0)
  }

  /** The first `d` probes for `a` found slots taken by other addresses. */
  ghost predicate Collided(t: seq<nat>, a: nat, d: nat)
    requires |t| > 0 && d <= |t|
  {
    forall e | 0 <= e < d :: t[Probe(|t|, Home(|t|, a), e)] != 0 && t[Probe(|t|, Home(|t|, a), e)] != a
  }

  /** Probing may stop at a free slot: the address is stored nowhere further on. */
  lemma FreeMeansAbsent(t: seq<nat>, a: nat, d: nat)
    requires TableOk(t) && a != 0 && d < |t| && Collided(t, a, d)
    requires t[Probe(|t|, Home(|t|, a), d)] == 0
    ensures a !in t
  {
    forall q | 0 <= q < |t| ensures t[q] != a {
      var o := Offset(|t|, Home(|t|, a), q);
      assert Probe(|t|, Home(|t|, a), o) == q;
    }
  }

  /** Storing an absent address in the first free slot of its probe sequence. */
  lemma InsertKeeps(t: seq<nat>, a: nat, d: nat)
    requires TableOk(t) && a != 0 && d < |t| && Collided(t, a, d)
    requires t[Probe(|t|, Home(|t|, a), d)] == 0
    ensures var t' := t[Probe(|t|, Home(|t|, a), d) := a];
            TableOk(t') && Contents(t') == Contents(t) + {a} && a !in Contents(t) && Occupied(t') == Occupied(t) + 1
  {
    FreeMeansAbsent(t, a, d);
    var p := Probe(|t|, Home(|t|, a), d);
    OccupiedUpdate(t, p, a);
    InsertContents(t, p, a);
    InsertNoHoles(t, a, d);
  }

  lemma InsertContents(t: seq<nat>, p: nat, a: nat)
    requires p < |t| && t[p] == 0 && a != 0
    ensures Contents(t[p := a]) == Contents(t) + {a}
  {
    var t' := t[p := a];
    forall x ensures x in Contents(t') <==> x in Contents(t) + {a} {
      if x in t && x != 0 {
        var q :| 0 <= q < |t| && t[q] == x;
        assert t'[q] == x;
      }
      assert t'[p] == a;
    }
  }

  lemma InsertNoHoles(t: seq<nat>, a: nat, d: nat)
    requires TableOk(t) && a != 0 && d < |t| && Collided(t, a, d)
    requires t[Probe(|t|, Home(|t|, a), d)] == 0
    ensures NoHoles(t[Probe(|t|, Home(|t|, a), d) := a])
  {
    var n, p := |t|, Probe(|t|, Home(|t|, a), d);
    var t' := t[p := a];
    forall q, e | 0 <= q < n && t'[q] != 0 && 0 <= e < Offset(n, Home(n, t'[q]), q)
      ensures t'[Probe(n, Home(n, t'[q]), e)] != 0
    {
      if q != p {
        assert t[Probe(n, Home(n, t[q]), e)] != 0;
      } else {
        assert Offset(n, Home(n, a), p) == d;
        assert t[Probe(n, Home(n, a), e)] != 0;
      }
    }
  }

  lemma {:induction false} OccupiedUpdate(t: seq<nat>, p: nat, a: nat)
    requires p < |t| && t[p] == 0 && a != 0
    ensures Occupied(t[p := a]) == Occupied(t) + 1
  {
    var n := |t| - 1;
    if p == n {
      assert t[p := a][..n] == t[..n];
    } else {
      assert t[p := a][..n] == t[..n][p := a];
      OccupiedUpdate(t[..n], p, a);
    }
  }

  lemma {:induction false} OccupiedFull(t: seq<nat>)
    requires forall p | 0 <= p < |t| :: t[p] != 0
    ensures Occupied(t) == |t|
  {
    if t != [] {
      OccupiedFull(t[..|t| - 1]);
    }
  }

  lemma {:induction false} OccupiedEmpty(t: seq<nat>)
    requires forall p | 0 <= p < |t| :: t[p] == 0
    ensures Occupied(t) == 0
  {
    if t != [] {
      OccupiedEmpty(t[..|t| - 1]);
    }
  }

  /** While a slot is free, probing meets it within one lap. */
  lemma ProbingStops(t: seq<nat>, a: nat, d: nat)
    requires |t| > 0 && d <= |t| && Collided(t, a, d)
    requires Occupied(t) < |t|
    ensures d < |t|
  {
    if d == |t| {
      forall p | 0 <= p < |t| ensures t[p] != 0 {
        assert t[Probe(|t|, Home(|t|, a), Offset(|t|, Home(|t|, a), p))] != 0;
      }
      OccupiedFull(t);
    }
  }

  /** Each occupied slot holds its own address, so the two ways of counting agree. */
  lemma {:induction false} OccupiedIsSize(t: seq<nat>)
    requires NoDuplicates(t)
    ensures |Contents(t)| == Occupied(t)
  {
    if t == [] {
      assert Contents(t) == {};
    } else {
      var n := |t| - 1;
      OccupiedIsSize(t[..n]);
      assert t == t[..n] + [t[n]];
      if t[n] == 0 {
        assert Contents(t) == Contents(t[..n]);
      } else {
        assert Contents(t) == Contents(t[..n]) + {t[n]};
        assert t[n] !in t[..n];
      }
    }
  }

  /** The same insertion, seen as a gain of one element. */
  lemma InsertGains(t: seq<nat>, t': seq<nat>, a: nat, d: nat)
    requires TableOk(t) && a != 0 && d < |t| && Collided(t, a, d)
    requires t[Probe(|t|, Home(|t|, a), d)] == 0 && t' == t[Probe(|t|, Home(|t|, a), d) := a]
    ensures TableOk(t') && Contents(t') == Contents(t) + {a} && |Contents(t')| == |Contents(t)| + 1
  {
    InsertKeeps(t, a, d);
  }

  /** `a` is stored or can be. */
  ghost predicate HasRoom(t: seq<nat>, a: nat) {
    a in Contents(t) || Occupied(t) < |t|
  }

  /** A stored address or a free slot stops the probing within one lap. */
  lemma LapIsEnough(t: seq<nat>, a: nat, d: nat)
    requires |t| > 0 && d <= |t| && Collided(t, a, d) && HasRoom(t, a)
    ensures d < |t|
  {
    if a in t {
      var p :| 0 <= p < |t| && t[p] == a;
      assert Probe(|t|, Home(|t|, a), Offset(|t|, Home(|t|, a), p)) == p;
    } else {
      ProbingStops(t, a, d);
    }
  }

  /** The probe goes on to the next slot, around the end. */
  lemma ProbeOn(t: seq<nat>, a: nat, d: nat)
    requires |t| > 0 && d < |t| && Collided(t, a, d) && HasRoom(t, a)
    requires var v := t[Probe(|t|, Home(|t|, a), d)]; v != 0 && v != a
    ensures d + 1 < |t| && Collided(t, a, d + 1)
    ensures var i := Probe(|t|, Home(|t|, a), d);
            Probe(|t|, Home(|t|, a), d + 1) == if i + 1 == |t| then 0 else i + 1
  {
    assert Collided(t, a, d + 1);
    LapIsEnough(t, a, d + 1);
  }

  lemma {:induction false} OccupiedFits(t: seq<nat>)
    ensures Occupied(t) <= |t|
  {
    if t != [] {
      OccupiedFits(t[..|t| - 1]);
    }
  }

  /** A table with all its slots taken by other addresses has as many elements as slots. */
  lemma RoomIff(t: seq<nat>, a: nat)
    requires NoDuplicates(t)
    ensures HasRoom(t, a) <==> |Contents(t) + {a}| <= |t|
    ensures |Contents(t)| <= |t|
  {
    OccupiedIsSize(t);
    OccupiedFits(t);
    if a in Contents(t) {
      assert Contents(t) + {a} == Contents(t);
    }
  }

  lemma SubsetSize(a: set<nat>, b: set<nat>)
    requires a <= b
    ensures |a| <= |b|
  {
    assert b == a + (b - a);
  }
}
