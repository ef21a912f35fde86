// Resource quotas: the comparison of partial resource lists, the filter that decides whether a
// quota update wakes up waiting shoots, and the gate in front of the creation of a ConfigMap.
module Quota {
  import opened Objects

  // Only entries that are present are compared; quantities count objects and are integers.
  type ResourceList = map<string, int>

  datatype ResourceQuota = ResourceQuota(specHard: ResourceList, statusHard: ResourceList, statusUsed: ResourceList)

  const CONFIG_MAP_COUNT := "count/configmaps"

  function Mask(r: ResourceList, names: set<string>): ResourceList {
    map n | n in r && n in names :: r[n]
  }

  function Add(a: ResourceList, b: ResourceList): ResourceList {
    map n | n in a.Keys + b.Keys :: (if n in a then a[n] else 0) + (if n in b then b[n] else 0)
  }

  predicate LessOrEqual(a: ResourceList, b: ResourceList) {
    forall n | n in b && n in a :: a[n] <= b[n]
  }

  /** Compares every entry of b with the entry of a of the same name, if a has one. */
  method LessThan(a: ResourceList, b: ResourceList) returns (result: bool)
    ensures result <==> forall n | n in b && n in a :: a[n] < b[n]
  {
    result := true;
    var rest := b.Keys;
    while rest != {}
      invariant rest <= b.Keys
      invariant result <==> forall n | n in b && n !in rest && n in a :: a[n] < b[n]
      decreases rest
    {
      var n :| n in rest;
      rest := rest - {n};
      if n in a {
        if a[n] >= b[n] {
          result := false;
        }
      }
    }
  }

  /** The reported usage has reached the reported limit; false when either is not reported. */
  predicate Exhausted(q: ResourceQuota) {
    && CONFIG_MAP_COUNT in q.statusHard
    && CONFIG_MAP_COUNT in q.statusUsed
    && q.statusUsed[CONFIG_MAP_COUNT] >= q.statusHard[CONFIG_MAP_COUNT]
  }

  /** The reported limit has gone up, has appeared, or has disappeared. */
  predicate LimitRaised(old': ResourceQuota, new': ResourceQuota) {
    if CONFIG_MAP_COUNT in old'.statusHard && CONFIG_MAP_COUNT in new'.statusHard then
      old'.statusHard[CONFIG_MAP_COUNT] < new'.statusHard[CONFIG_MAP_COUNT]
    else
      CONFIG_MAP_COUNT in old'.statusHard || CONFIG_MAP_COUNT in new'.statusHard
  }

  /** Which quota updates are handled, over all partial lists. */
  predicate UpdatePasses(old': ResourceQuota, new': ResourceQuota) {
    LimitRaised(old', new') || (Exhausted(old') && !Exhausted(new'))
  }

  /** A comparison that skips entries that are not there. */
  predicate Below(a: Option<int>, b: Option<int>) {
    a.None? || b.None? || a.value < b.value
  }

  /** The filter in terms of the reported limit h and usage u before and after, each of which may be missing: the limit
      has changed, and not downwards, or the usage has changed and there is room where there was none. */
  lemma UpdatePassesExactly(old': ResourceQuota, new': ResourceQuota)
    ensures
      var h, u := Find(old'.statusHard, "count/configmaps"), Find(old'.statusUsed, "count/configmaps");
      var h', u' := Find(new'.statusHard, "count/configmaps"), Find(new'.statusUsed, "count/configmaps");
      UpdatePasses(old', new') <==> (h != h' && Below(h, h')) || (u != u' && !Below(u, h) && Below(u', h'))
  {
  }

  lemma MaskOfOne(r: ResourceList, n: string)
    ensures Mask(r, {n}) == if n in r then map[n := r[n]] else map[]
  {
  }

  /** Comparing lists that are masked to one name is comparing its entries. */
  lemma MaskedComparison(a: ResourceList, b: ResourceList, n: string)
    ensures Mask(a, {n}) == Mask(b, {n}) <==> Find(a, n) == Find(b, n)
    ensures (forall m | m in Mask(b, {n}) && m in Mask(a, {n}) :: Mask(a, {n})[m] < Mask(b, {n})[m]) <==>
            Below(Find(a, n), Find(b, n))
  {
    MaskOfOne(a, n);
    MaskOfOne(b, n);
    if Mask(a, {n}) == Mask(b, {n}) {
      assert n in Mask(a, {n}) <==> n in Mask(b, {n});
    }
  }

  /** The staged filter: its two equality guards do not change which updates it lets through. */
  method ResourceQuotaPredicate(old': ResourceQuota, new': ResourceQuota) returns (handle: bool)
    ensures handle <==> UpdatePasses(old', new')
    ensures
      var h, u := Find(old'.statusHard, "count/configmaps"), Find(old'.statusUsed, "count/configmaps");
      var h', u' := Find(new'.statusHard, "count/configmaps"), Find(new'.statusUsed, "count/configmaps");
      handle <==> (h != h' && Below(h, h')) || (u != u' && !Below(u, h) && Below(u', h'))
  {
    UpdatePassesExactly(old', new');
    MaskedComparison(old'.statusHard, new'.statusHard, CONFIG_MAP_COUNT);
    MaskedComparison(old'.statusUsed, new'.statusUsed, CONFIG_MAP_COUNT);
    MaskedComparison(old'.statusUsed, old'.statusHard, CONFIG_MAP_COUNT);
    MaskedComparison(new'.statusUsed, new'.statusHard, CONFIG_MAP_COUNT);
    var oldHard := Mask(old'.statusHard, {CONFIG_MAP_COUNT});
    var newHard := Mask(new'.statusHard, {CONFIG_MAP_COUNT});
    if oldHard != newHard {
      var increased := LessThan(oldHard, newHard);
      if increased {
        return true;
      }
    }
    var oldUsed := Mask(old'.statusUsed, {CONFIG_MAP_COUNT});
    var newUsed := Mask(new'.statusUsed, {CONFIG_MAP_COUNT});
    if oldUsed != newUsed {
      var oldHadCapacity := LessThan(oldUsed, oldHard);
      var newHasCapacity := LessThan(newUsed, newHard);
      if !oldHadCapacity && newHasCapacity {
        return true;
      }
    }
    return false;
  }

  /** With all four status entries reported, the filter is one comparison of numbers. */
  lemma UpdatePassesWhenReported(old': ResourceQuota, new': ResourceQuota)
    requires CONFIG_MAP_COUNT in old'.statusHard && CONFIG_MAP_COUNT in old'.statusUsed
    requires CONFIG_MAP_COUNT in new'.statusHard && CONFIG_MAP_COUNT in new'.statusUsed
    ensures
      var h, u := old'.statusHard[CONFIG_MAP_COUNT], old'.statusUsed[CONFIG_MAP_COUNT];
      var h', u' := new'.statusHard[CONFIG_MAP_COUNT], new'.statusUsed[CONFIG_MAP_COUNT];
      UpdatePasses(old', new') <==> h' > h || (u >= h && u' < h')
  {
  }

  datatype Verdict = Sufficient | Insufficient | StatusMissing

  /** One quota's answer to the request for one more ConfigMap. */
  function VerdictOf(q: ResourceQuota): Verdict {
    if CONFIG_MAP_COUNT !in q.specHard then Sufficient
    else if CONFIG_MAP_COUNT !in q.statusHard || CONFIG_MAP_COUNT !in q.statusUsed then StatusMissing
    else if q.statusUsed[CONFIG_MAP_COUNT] + 1 <= q.statusHard[CONFIG_MAP_COUNT] then Sufficient
    else Insufficient
  }

  /** The first quota that does not allow the creation decides. */
  function Gate(quotas: seq<ResourceQuota>): Verdict {
    if quotas == [] then Sufficient
    else if VerdictOf(quotas[0]) != Sufficient then VerdictOf(quotas[0])
    else Gate(quotas[1..])
  }

  /** A quota stands in the way. */
  predicate Denies(q: ResourceQuota) {
    VerdictOf(q) != Sufficient
  }

  /** The gate opens exactly when no listed quota stands in the way, and otherwise gives the answer of the first
      that does. */
  lemma {:induction false} GateDecidedByFirst(quotas: seq<ResourceQuota>)
    ensures Gate(quotas) == Sufficient <==> forall q <- quotas :: !Denies(q)
    ensures Gate(quotas) != Sufficient ==>
              exists i :: 0 <= i < |quotas| && Denies(quotas[i]) && Gate(quotas) == VerdictOf(quotas[i])
                          && forall j | 0 <= j < i :: !Denies(quotas[j])
  {
    if quotas == [] {
    } else {
      assert quotas == [quotas[0]] + quotas[1..];
      if !Denies(quotas[0]) {
        GateDecidedByFirst(quotas[1..]);
        if Gate(quotas) != Sufficient {
          var i :| 0 <= i < |quotas[1..]| && Denies(quotas[1..][i]) && Gate(quotas[1..]) == VerdictOf(quotas[1..][i])
                   && forall j | 0 <= j < i :: !Denies(quotas[1..][j]);
          assert Denies(quotas[i+1]);
          forall j | 0 <= j < i + 1 ensures !Denies(quotas[j]) {
            if j > 0 {
              assert quotas[j] == quotas[1..][j-1];
            }
          }
        }
      } else {
        assert Denies(quotas[0]);
      }
    }
  }

  /** A quota lets one more ConfigMap in: it does not constrain them, or reports room for one. */
  predicate HasRoom(q: ResourceQuota) {
    "count/configmaps" in q.specHard ==>
      && "count/configmaps" in q.statusHard && "count/configmaps" in q.statusUsed
      && q.statusUsed["count/configmaps"] + 1 <= q.statusHard["count/configmaps"]
  }

  /** It constrains ConfigMaps and reports that there is no room. */
  predicate IsFull(q: ResourceQuota) {
    && "count/configmaps" in q.specHard
    && "count/configmaps" in q.statusHard && "count/configmaps" in q.statusUsed
    && q.statusUsed["count/configmaps"] >= q.statusHard["count/configmaps"]
  }

  /** It constrains ConfigMaps and does not report its limit or its usage. */
  predicate IsUnreported(q: ResourceQuota) {
    && "count/configmaps" in q.specHard
    && ("count/configmaps" !in q.statusHard || "count/configmaps" !in q.statusUsed)
  }

  predicate FirstWithoutRoom(quotas: seq<ResourceQuota>, i: nat) {
    i < |quotas| && !HasRoom(quotas[i]) && forall j | 0 <= j < i :: HasRoom(quotas[j])
  }

  lemma {:induction false} FirstWithoutRoomDecides(quotas: seq<ResourceQuota>, i: nat)
    requires FirstWithoutRoom(quotas, i)
    ensures Gate(quotas) == if IsFull(quotas[i]) then Insufficient else StatusMissing
  {
    if i == 0 {
    } else {
      assert forall j | 0 <= j < i - 1 :: HasRoom(quotas[1..][j]);
      FirstWithoutRoomDecides(quotas[1..], i - 1);
    }
  }

  /** The gate is open exactly when every quota has room. Otherwise the first without room decides: the gate refuses if
      it is full, and fails if it is unreported. */
  lemma GateExactly(quotas: seq<ResourceQuota>)
    ensures Gate(quotas) == Sufficient <==> forall q <- quotas :: HasRoom(q)
    ensures forall i: nat | FirstWithoutRoom(quotas, i) ::
              && (IsFull(quotas[i]) <==> !IsUnreported(quotas[i]))
              && (Gate(quotas) == Insufficient <==> IsFull(quotas[i]))
              && (Gate(quotas) == StatusMissing <==> IsUnreported(quotas[i]))
  {
    GateDecidedByFirst(quotas);
    assert forall q :: Denies(q) <==> !HasRoom(q);
    forall i: nat | FirstWithoutRoom(quotas, i)
      ensures Gate(quotas) == if IsFull(quotas[i]) then Insufficient else StatusMissing
    {
      FirstWithoutRoomDecides(quotas, i);
    }
  }

  method HasSufficientQuota(quotas: seq<ResourceQuota>) returns (verdict: Verdict)
    ensures verdict == Gate(quotas)
    ensures verdict == Sufficient <==>
            forall q <- quotas :: "count/configmaps" in q.specHard ==>
              && "count/configmaps" in q.statusHard && "count/configmaps" in q.statusUsed
              && q.statusUsed["count/configmaps"] + 1 <= q.statusHard["count/configmaps"]
    ensures forall i: nat | FirstWithoutRoom(quotas, i) ::
              && (verdict == Insufficient <==> IsFull(quotas[i]))
              && (verdict == StatusMissing <==> IsUnreported(quotas[i]))
  {
    var i := 0;
    while i < |quotas|
      invariant 0 <= i <= |quotas|
      invariant Gate(quotas) == Gate(quotas[i..])
      invariant forall j | 0 <= j < i :: VerdictOf(quotas[j]) == Sufficient
    {
      var q := quotas[i];
      assert quotas[i..][0] == q && quotas[i..][1..] == quotas[i+1..];
      if CONFIG_MAP_COUNT in q.specHard.Keys {
        if CONFIG_MAP_COUNT !in q.statusHard.Keys {
          GateExactly(quotas);
          return StatusMissing;
        }
        if CONFIG_MAP_COUNT !in q.statusUsed.Keys {
          GateExactly(quotas);
          return StatusMissing;
        }
        var requested := map[CONFIG_MAP_COUNT := 1];
        var usage := Mask(Add(q.statusUsed, requested), requested.Keys);
        assert usage.Keys == {CONFIG_MAP_COUNT};
        if !LessOrEqual(usage, q.statusHard) {
          GateExactly(quotas);
          return Insufficient;
        }
      }
      i := i + 1;
    }
    GateExactly(quotas);
    return Sufficient;
  }

  predicate SameMembers(a: seq<ResourceQuota>, b: seq<ResourceQuota>) {
    (forall q <- a :: q in b) && (forall q <- b :: q in a)
  }

  predicate Reordered(a: seq<ResourceQuota>, b: seq<ResourceQuota>) {
    multiset(a) == multiset(b)
  }

  lemma ReorderedHasSameMembers(a: seq<ResourceQuota>, b: seq<ResourceQuota>)
    requires Reordered(a, b)
    ensures SameMembers(a, b)
  {
    forall q <- a ensures q in b {
      assert q in multiset(a);
    }
    forall q <- b ensures q in a {
      assert q in multiset(b);
    }
  }

  /** Whether the gate opens does not depend on the order (or repetition) of the list. */
  lemma GateIgnoresOrder(a: seq<ResourceQuota>, b: seq<ResourceQuota>)
    requires SameMembers(a, b)
    ensures Gate(a) == Sufficient <==> Gate(b) == Sufficient
  {
    GateDecidedByFirst(a);
    GateDecidedByFirst(b);
  }

  predicate SomeVerdict(quotas: seq<ResourceQuota>, verdict: Verdict) {
    exists q <- quotas :: VerdictOf(q) == verdict
  }

  /** Some quota refuses, and another one has not reported its status. */
  predicate Ambiguous(quotas: seq<ResourceQuota>) {
    SomeVerdict(quotas, Insufficient) && SomeVerdict(quotas, StatusMissing)
  }

  /** In some order, a quota in the way comes first and decides. */
  lemma DenialInFront(quotas: seq<ResourceQuota>, verdict: Verdict) returns (other: seq<ResourceQuota>)
    requires verdict != Sufficient && SomeVerdict(quotas, verdict)
    ensures Reordered(other, quotas) && Gate(other) == verdict
  {
    var i :| 0 <= i < |quotas| && VerdictOf(quotas[i]) == verdict;
    other := [quotas[i]] + (quotas[..i] + quotas[i+1..]);
    assert quotas == quotas[..i] + [quotas[i]] + quotas[i+1..];
  }

  lemma UnambiguousGate(a: seq<ResourceQuota>, b: seq<ResourceQuota>)
    requires SameMembers(a, b) && !Ambiguous(b)
    ensures Gate(a) == Gate(b)
  {
    GateIgnoresOrder(a, b);
    GateDecidedByFirst(a);
    GateDecidedByFirst(b);
  }

  /** Whether a closed gate is a refusal or an error is the same in every order of the list, and for every list of the
      same quotas, exactly when no quota refuses or all quotas have reported their status. */
  lemma GateErrorDependsOnOrderExactly(quotas: seq<ResourceQuota>)
    ensures !Ambiguous(quotas) <==> forall other | Reordered(other, quotas) :: Gate(other) == Gate(quotas)
    ensures !Ambiguous(quotas) <==> forall other | SameMembers(other, quotas) :: Gate(other) == Gate(quotas)
  {
    if Ambiguous(quotas) {
      var refused := DenialInFront(quotas, Insufficient);
      var failed := DenialInFront(quotas, StatusMissing);
      ReorderedHasSameMembers(refused, quotas);
      ReorderedHasSameMembers(failed, quotas);
    } else {
      forall other | SameMembers(other, quotas) ensures Gate(other) == Gate(quotas) {
        UnambiguousGate(other, quotas);
      }
      forall other | Reordered(other, quotas) ensures Gate(other) == Gate(quotas) {
        ReorderedHasSameMembers(other, quotas);
      }
    }
  }

  /** A refusal of the gate is always due to a listed quota whose reported usage has reached its limit. */
  lemma RefusalMeansExhausted(quotas: seq<ResourceQuota>)
    requires Gate(quotas) == Insufficient
    ensures exists q <- quotas :: Exhausted(q)
  {
    GateDecidedByFirst(quotas);
    var i :| 0 <= i < |quotas| && Denies(quotas[i]) && Gate(quotas) == VerdictOf(quotas[i]);
    assert Exhausted(quotas[i]);
  }

  // What dropping an update event may cost

  /** A quota that refuses stops constraining ConfigMaps, and its reported status does not tell. */
  predicate LossyQuotaUpdate(old': ResourceQuota, new': ResourceQuota) {
    && !UpdatePasses(old', new')
    && VerdictOf(old') == Insufficient
    && CONFIG_MAP_COUNT !in new'.specHard
  }

  /** A dropped update of a quota that refuses leaves it refusing exactly when it still constrains ConfigMaps. */
  lemma LossyQuotaUpdateExactly(old': ResourceQuota, new': ResourceQuota)
    requires VerdictOf(old') == Insufficient && !UpdatePasses(old', new')
    ensures VerdictOf(new') == Insufficient <==> !LossyQuotaUpdate(old', new')
    ensures VerdictOf(new') != Insufficient ==> VerdictOf(new') == Sufficient
  {
  }
}
