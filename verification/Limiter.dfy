// The counters of the limiter of concurrent reconciles per namespace. A namespace without
// reconciles has no entry.
module Limiter {

  function CountOf(counts: map<string, int>, namespace: string): int {
    if namespace in counts then counts[namespace] else 0
  }

  function Increased(counts: map<string, int>, namespace: string): map<string, int> {
    counts[namespace := CountOf(counts, namespace) + 1]
  }

  function Decreased(counts: map<string, int>, namespace: string): map<string, int>
    requires namespace in counts
  {
    if counts[namespace] == 1 then counts - {namespace} else counts[namespace := counts[namespace] - 1]
  }

  predicate Positive(counts: map<string, int>) {
    forall n | n in counts :: counts[n] > 0
  }

  /** A reconcile that begins and ends leaves no trace. */
  lemma DecreaseUndoesIncrease(counts: map<string, int>, namespace: string)
    requires Positive(counts)
    ensures Positive(Increased(counts, namespace))
    ensures Decreased(Increased(counts, namespace), namespace) == counts
  {
    assert (Increased(counts, namespace) - {namespace}).Keys == counts.Keys - {namespace};
  }

  ghost function Total(counts: map<string, int>): int {
    if counts == map[] then 0 else
    var n :| n in counts;
    counts[n] + Total(counts - {n})
  }

  /** The total may be taken in any order. */
  lemma {:induction false} TotalWithout(counts: map<string, int>, n: string)
    requires n in counts
    ensures Total(counts) == counts[n] + Total(counts - {n})
  {
    var m :| m in counts && Total(counts) == counts[m] + Total(counts - {m});
    if m == n {
    } else {
      TotalWithout(counts - {m}, n);
      TotalWithout(counts - {n}, m);
      assert counts - {m} - {n} == counts - {n} - {m};
    }
  }

  lemma TotalOfUpdates(counts: map<string, int>, namespace: string)
    ensures Total(Increased(counts, namespace)) == Total(counts) + 1
    ensures namespace in counts ==> Total(Decreased(counts, namespace)) == Total(counts) - 1
  {
    var increased := Increased(counts, namespace);
    TotalWithout(increased, namespace);
    assert increased - {namespace} == counts - {namespace};
    if namespace in counts {
      TotalWithout(counts, namespace);
      var decreased := Decreased(counts, namespace);
      if namespace in decreased {
        TotalWithout(decreased, namespace);
        assert decreased - {namespace} == counts - {namespace};
      }
    } else {
      assert counts - {namespace} == counts;
    }
  }
}
