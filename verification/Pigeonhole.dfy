/** Distinct numbers below `n` are at most `n` many. */
module Pigeonhole {

  ghost predicate Distinct(b: seq<nat>) {
    forall j, k | 0 <= j < k < |b| :: b[j] != b[k]
  }

  ghost predicate Below(b: seq<nat>, n: nat) {
    forall j | 0 <= j < |b| :: b[j] < n
  }

  lemma {:induction false} DistinctFits(b: seq<nat>, n: nat)
    requires Distinct(b) && Below(b, n)
    ensures |b| <= n
  {
    if |b| > 0 {
      assert b[0] < n;
      if k :| 0 <= k < |b| && b[k] == n - 1 {
        var rest := b[..k] + b[k + 1..];
        forall j | 0 <= j < |rest| ensures rest[j] < n - 1 {
          assert rest[j] == b[if j < k then j else j + 1];
        }
        DistinctFits(rest, n - 1);
      } else {
        DistinctFits(b, n - 1);
      }
    }
  }
}
