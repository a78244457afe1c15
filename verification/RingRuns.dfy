/** States that end a run, built up step by step. */
module RingRuns {
  import opened RedoLog
  import opened Ring
  import opened RingInvariant

  /** `s` ends a run of the machine whose commit refreshes are fresh. */
  ghost predicate Reached(n: nat, base: Image, s: State) {
    exists ss, acts :: IsRun(n, base, ss, acts) && AllRefreshesFresh(n, ss, acts) && ss[|acts|] == s
  }

  lemma ReachedInit(n: nat, base: Image)
    requires n >= 2
    ensures Reached(n, base, Init(n, base))
  {
    assert IsRun(n, base, [Init(n, base)], []);
  }

  lemma ReachedInv(n: nat, base: Image, s: State)
    requires Reached(n, base, s)
    ensures Inv(n, s)
  {
    var ss, acts :| IsRun(n, base, ss, acts) && AllRefreshesFresh(n, ss, acts) && ss[|acts|] == s;
    RunInv(n, base, ss, acts, |acts|);
  }

  lemma ReachedStep(n: nat, base: Image, s: State, a: Step, s': State)
    requires Reached(n, base, s) && Follows(n, s, a, s') && FreshRefresh(n, s, a)
    ensures Reached(n, base, s')
  {
    var ss, acts :| IsRun(n, base, ss, acts) && AllRefreshesFresh(n, ss, acts) && ss[|acts|] == s;
    var ss', acts' := ss + [s'], acts + [a];
    forall i {:trigger acts'[i]} | 0 <= i < |acts'|
      ensures Follows(n, ss'[i], acts'[i], ss'[i + 1]) && FreshRefresh(n, ss'[i], acts'[i])
    {
      if i < |acts| {
        assert acts'[i] == acts[i] && ss'[i] == ss[i] && ss'[i + 1] == ss[i + 1];
      }
    }
    assert ss'[0] == ss[0] && |ss'| == |acts'| + 1;
    assert IsRun(n, base, ss', acts') && ss'[|acts'|] == s';
  }

  /** The steps `acts` are enabled one after the other and lead from `s` to `s'`. */
  ghost predicate Leads(n: nat, s: State, acts: seq<Step>, s': State) {
    exists ss :: Linked(n, ss, acts) && ss[0] == s && ss[|acts|] == s'
  }

  lemma LeadsNowhere(n: nat, s: State)
    ensures Leads(n, s, [], s)
  {
    assert Linked(n, [s], []);
  }

  lemma LeadsOne(n: nat, s: State, a: Step, s': State)
    requires Follows(n, s, a, s')
    ensures Leads(n, s, [a], s')
  {
    assert Linked(n, [s, s'], [a]);
  }

  lemma TraceThen(n: nat, a: seq<State>, acts: seq<Step>, b: seq<State>, more: seq<Step>)
    requires Linked(n, a, acts) && Linked(n, b, more) && a[|acts|] == b[0]
    ensures Linked(n, a + b[1..], acts + more)
  {
    var ss, all := a + b[1..], acts + more;
    forall i {:trigger all[i]} | 0 <= i < |all| ensures Follows(n, ss[i], all[i], ss[i + 1]) {
      if i < |acts| {
        assert all[i] == acts[i] && ss[i] == a[i] && ss[i + 1] == a[i + 1];
      } else {
        var k := i - |acts|;
        assert all[i] == more[k] && ss[i] == b[k] && ss[i + 1] == b[k + 1];
      }
    }
  }

  lemma LeadsThen(n: nat, s: State, acts: seq<Step>, m: State, more: seq<Step>, s': State)
    requires Leads(n, s, acts, m) && Leads(n, m, more, s')
    ensures Leads(n, s, acts + more, s')
  {
    var a :| Linked(n, a, acts) && a[0] == s && a[|acts|] == m;
    var b :| Linked(n, b, more) && b[0] == m && b[|more|] == s';
    TraceThen(n, a, acts, b, more);
    var ss := a + b[1..];
    assert ss[0] == s && ss[|acts + more|] == s';
  }

  lemma ReachedShape(n: nat, base: Image, s: State)
    requires Reached(n, base, s)
    ensures n >= 2 && Shaped(n, s)
  {
    ReachedInv(n, base, s);
  }
}
