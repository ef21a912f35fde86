// What the limiter guarantees in every run, over all interleavings of admissions, rejections,
// releases and changes of the limit.
module LimiterRuns {
  import opened Objects
  import opened Configuration
  import opened Limiter
  import opened Rendering
  import opened System

  function InNamespace(keys: set<Key>, namespace: string): set<Key> {
    set k | k in keys && k.namespace == namespace
  }

  function WorkersIn(s: State, namespace: string): set<Key> {
    InNamespace(s.workers.Keys, namespace)
  }

  /** The counter of a namespace says how many keys it holds, and is absent for none. */
  predicate Counts(counts: map<string, int>, namespace: string, keys: set<Key>) {
    && CountOf(counts, namespace) == |keys|
    && (namespace in counts <==> keys != {})
  }

  /** A namespace has an entry exactly when reconciles are in flight for it, and the entry is their number. */
  ghost predicate Exact(s: State, namespace: string) {
    Counts(s.counts, namespace, WorkersIn(s, namespace))
  }

  /** The counters add up to all reconciles in flight, which never outnumber the workers of the controller. */
  ghost predicate Balanced(p: Platform, s: State) {
    && Total(s.counts) == |s.workers|
    && (|s.workers| <= p.maxConcurrentReconciles || s.workers == map[])
  }

  // The part of a run that concerns the limiter

  /** What a step does to the workers, the counters and the limit. */
  ghost predicate LimiterStep(p: Platform, s: State, a: Action, s': State) {
    && s'.workers.Keys ==
       (if a.Admit? then s.workers.Keys + {a.key} else if a.Finish? then s.workers.Keys - {a.key} else s.workers.Keys)
    && s'.counts ==
       (if a.Admit? then Increased(s.counts, a.key.namespace)
        else if a.Finish? && a.key.namespace in s.counts then Decreased(s.counts, a.key.namespace)
        else s.counts)
    && s'.limit == (if a.InjectConfig? then a.limit else s.limit)
    && (a.Admit? ==> a.key !in s.workers && CountOf(s.counts, a.key.namespace) < s.limit
                     && |s.workers| < p.maxConcurrentReconciles)
    && (a.Finish? ==> a.key in s.workers)
  }

  lemma OnlyAdmitAndFinishMoveWorkers(p: Platform, s: State, a: Action)
    requires Enabled(p, s, a) && !a.Admit? && !a.Finish?
    ensures Next(p, s, a).workers.Keys == s.workers.Keys
  {
    if a.Proceed? || a.Fail? {
    } else {
      OnlyWorkersMove(p, s, a);
    }
  }

  lemma AdmitAndFinishMoveOneWorker(p: Platform, s: State, a: Action)
    requires Enabled(p, s, a)
    ensures a.Admit? ==> Next(p, s, a).workers.Keys == s.workers.Keys + {a.key}
    ensures a.Finish? ==> Next(p, s, a).workers.Keys == s.workers.Keys - {a.key}
  {
  }

  lemma CountsAfter(p: Platform, s: State, a: Action)
    requires Enabled(p, s, a)
    ensures Next(p, s, a).counts ==
            if a.Admit? then Increased(s.counts, a.key.namespace)
            else if a.Finish? && a.key.namespace in s.counts then Decreased(s.counts, a.key.namespace)
            else s.counts
    ensures Next(p, s, a).limit == if a.InjectConfig? then a.limit else s.limit
  {
    match a
    case Proceed(_, _) =>
    case Fail(_, _) =>
    case Finish(_) =>
    case Admit(_) =>
    case Deliver(_, _) =>
    case _ =>
  }

  lemma StepsAreLimiterSteps(p: Platform, s: State, a: Action, s': State)
    requires Step(p, s, a, s')
    ensures LimiterStep(p, s, a, s')
  {
    if a.Admit? || a.Finish? {
      AdmitAndFinishMoveOneWorker(p, s, a);
    } else {
      OnlyAdmitAndFinishMoveWorkers(p, s, a);
    }
    CountsAfter(p, s, a);
  }

  ghost predicate LimiterStepAt(p: Platform, states: seq<State>, actions: seq<Action>, i: nat)
    requires i < |actions| < |states|
  {
    LimiterStep(p, states[i], actions[i], states[i+1])
  }

  ghost predicate IsLimiterRun(p: Platform, states: seq<State>, actions: seq<Action>) {
    && |states| == |actions| + 1
    && states[0].workers == map[] && states[0].counts == map[]
    && forall i | 0 <= i < |actions| :: LimiterStepAt(p, states, actions, i)
  }

  lemma RunsAreLimiterRuns(p: Platform, states: seq<State>, actions: seq<Action>)
    requires IsRun(p, states, actions)
    ensures IsLimiterRun(p, states, actions)
  {
    forall i | 0 <= i < |actions| ensures LimiterStepAt(p, states, actions, i) {
      assert StepAt(p, states, actions, i);
      StepsAreLimiterSteps(p, states[i], actions[i], states[i+1]);
    }
  }

  // Exactness

  lemma InNamespaceAfter(keys: set<Key>, k: Key, namespace: string)
    ensures InNamespace(keys + {k}, namespace) ==
            if k.namespace == namespace then InNamespace(keys, namespace) + {k} else InNamespace(keys, namespace)
    ensures InNamespace(keys - {k}, namespace) ==
            if k.namespace == namespace then InNamespace(keys, namespace) - {k} else InNamespace(keys, namespace)
  {
  }

  lemma CountsOneMore(counts: map<string, int>, namespace: string, keys: set<Key>, k: Key)
    requires Counts(counts, namespace, keys) && k !in keys
    ensures Counts(Increased(counts, namespace), namespace, keys + {k})
  {
  }

  lemma CountsOneLess(counts: map<string, int>, namespace: string, keys: set<Key>, k: Key)
    requires Counts(counts, namespace, keys) && k in keys
    ensures namespace in counts && Counts(Decreased(counts, namespace), namespace, keys - {k})
  {
    assert keys == (keys - {k}) + {k};
    assert |keys - {k}| == |keys| - 1;
    assert keys - {k} == {} <==> |keys - {k}| == 0;
  }

  lemma CountsOfOthers(counts: map<string, int>, other: string, namespace: string, keys: set<Key>)
    requires Counts(counts, namespace, keys) && other != namespace
    ensures Counts(Increased(counts, other), namespace, keys)
    ensures other in counts ==> Counts(Decreased(counts, other), namespace, keys)
  {
  }

  lemma ExactStep(p: Platform, s: State, a: Action, s': State, namespace: string)
    requires LimiterStep(p, s, a, s') && Exact(s, namespace)
    ensures Exact(s', namespace)
  {
    if a.Admit? || a.Finish? {
      InNamespaceAfter(s.workers.Keys, a.key, namespace);
      if a.key.namespace != namespace {
        CountsOfOthers(s.counts, a.key.namespace, namespace, WorkersIn(s, namespace));
      } else if a.Admit? {
        CountsOneMore(s.counts, namespace, WorkersIn(s, namespace), a.key);
      } else {
        CountsOneLess(s.counts, namespace, WorkersIn(s, namespace), a.key);
      }
    }
  }

  lemma BalancedStep(p: Platform, s: State, a: Action, s': State)
    requires LimiterStep(p, s, a, s') && Balanced(p, s)
    requires a.Finish? ==> Exact(s, a.key.namespace)
    ensures Balanced(p, s')
  {
    assert |s.workers| == |s.workers.Keys| && |s'.workers| == |s'.workers.Keys|;
    if a.Admit? {
      TotalOfUpdates(s.counts, a.key.namespace);
    } else if a.Finish? {
      assert a.key in WorkersIn(s, a.key.namespace);
      TotalOfUpdates(s.counts, a.key.namespace);
    }
  }

  lemma {:induction false} ExactInRun(p: Platform, states: seq<State>, actions: seq<Action>, i: nat, namespace: string)
    requires IsLimiterRun(p, states, actions) && i < |states|
    ensures Exact(states[i], namespace)
    decreases i
  {
    if i > 0 {
      ExactInRun(p, states, actions, i - 1, namespace);
      assert LimiterStepAt(p, states, actions, i - 1);
      ExactStep(p, states[i-1], actions[i-1], states[i], namespace);
    } else {
      assert WorkersIn(states[0], namespace) == {};
    }
  }

  lemma NoneBalanced(p: Platform, s: State)
    requires s.workers == map[] && s.counts == map[]
    ensures Balanced(p, s)
  {
  }

  lemma BalancedBetween(p: Platform, states: seq<State>, actions: seq<Action>, i: nat)
    requires IsLimiterRun(p, states, actions) && 0 < i < |states|
    requires Balanced(p, states[i-1])
    ensures Balanced(p, states[i])
  {
    assert LimiterStepAt(p, states, actions, i - 1);
    if actions[i-1].Finish? {
      ExactInRun(p, states, actions, i - 1, actions[i-1].key.namespace);
    }
    BalancedStep(p, states[i-1], actions[i-1], states[i]);
  }

  lemma {:induction false} BalancedInRun(p: Platform, states: seq<State>, actions: seq<Action>, i: nat)
    requires IsLimiterRun(p, states, actions) && i < |states|
    ensures Balanced(p, states[i])
    decreases i
  {
    if i == 0 {
      NoneBalanced(p, states[0]);
    } else {
      BalancedInRun(p, states, actions, i - 1);
      BalancedBetween(p, states, actions, i);
    }
  }

  /** In every reachable state the counters are exact and add up. */
  lemma CountersAreExact(p: Platform, states: seq<State>, actions: seq<Action>, i: nat)
    requires IsRun(p, states, actions) && i < |states|
    ensures forall namespace :: Exact(states[i], namespace)
    ensures Balanced(p, states[i])
  {
    RunsAreLimiterRuns(p, states, actions);
    forall namespace ensures Exact(states[i], namespace) {
      ExactInRun(p, states, actions, i, namespace);
    }
    BalancedInRun(p, states, actions, i);
  }

  /** The release of a counter never misses its entry. */
  lemma NeverPanics(p: Platform, states: seq<State>, actions: seq<Action>, i: nat, a: Action)
    requires IsRun(p, states, actions) && i < |states|
    requires Enabled(p, states[i], a)
    ensures !Panics(states[i], a)
  {
    if a.Finish? {
      CountersAreExact(p, states, actions, i);
      assert Exact(states[i], a.key.namespace);
      assert a.key in WorkersIn(states[i], a.key.namespace);
    }
  }

  // Limits

  /** No limit in force during the run exceeds the bound. */
  ghost predicate LimitsUpTo(states: seq<State>, bound: int) {
    forall i | 0 <= i < |states| :: states[i].limit <= bound
  }

  lemma {:induction false} BoundedInRun(
    p: Platform, states: seq<State>, actions: seq<Action>, i: nat, namespace: string, bound: nat)
    requires IsLimiterRun(p, states, actions) && i < |states|
    requires LimitsUpTo(states, bound)
    ensures CountOf(states[i].counts, namespace) <= bound
    decreases i
  {
    if i == 0 {
    } else {
      BoundedInRun(p, states, actions, i - 1, namespace, bound);
      ExactInRun(p, states, actions, i - 1, namespace);
      assert LimiterStepAt(p, states, actions, i - 1);
    }
  }

  /** However the limit is changed, a namespace never has more reconciles than the greatest limit allowed. */
  lemma NeverAboveGreatestLimit(
    p: Platform, states: seq<State>, actions: seq<Action>, i: nat, namespace: string, bound: nat)
    requires IsRun(p, states, actions) && i < |states|
    requires LimitsUpTo(states, bound)
    ensures |WorkersIn(states[i], namespace)| <= bound
  {
    RunsAreLimiterRuns(p, states, actions);
    ExactInRun(p, states, actions, i, namespace);
    BoundedInRun(p, states, actions, i, namespace, bound);
  }

  lemma {:induction false} DrainsInRun(
    p: Platform, states: seq<State>, actions: seq<Action>, i: nat, j: nat, namespace: string)
    requires IsLimiterRun(p, states, actions) && i <= j < |states|
    requires forall n | i <= n < j :: !actions[n].InjectConfig?
    ensures states[j].limit == states[i].limit
    ensures CountOf(states[i].counts, namespace) >= states[i].limit ==>
              CountOf(states[j].counts, namespace) <= CountOf(states[i].counts, namespace)
    ensures CountOf(states[i].counts, namespace) <= states[i].limit ==>
              CountOf(states[j].counts, namespace) <= states[i].limit
    decreases j
  {
    if i == j {
    } else {
      DrainsInRun(p, states, actions, i, j - 1, namespace);
      ExactInRun(p, states, actions, j - 1, namespace);
      assert LimiterStepAt(p, states, actions, j - 1);
    }
  }

  /** While the limit stays as it is, the number of reconciles of a namespace at or above it can only fall, and one
      at or below it stays there. */
  lemma LoweredLimitOnlyDrains(
    p: Platform, states: seq<State>, actions: seq<Action>, i: nat, j: nat, namespace: string)
    requires IsRun(p, states, actions) && i <= j < |states|
    requires forall n | i <= n < j :: !actions[n].InjectConfig?
    ensures |WorkersIn(states[i], namespace)| >= states[i].limit ==>
              |WorkersIn(states[j], namespace)| <= |WorkersIn(states[i], namespace)|
    ensures |WorkersIn(states[i], namespace)| <= states[i].limit ==>
              |WorkersIn(states[j], namespace)| <= states[i].limit
  {
    RunsAreLimiterRuns(p, states, actions);
    ExactInRun(p, states, actions, i, namespace);
    ExactInRun(p, states, actions, j, namespace);
    DrainsInRun(p, states, actions, i, j, namespace);
  }

  // Free workers

  function BusyNamespaces(s: State): set<string> {
    set k | k in s.workers :: k.namespace
  }

  lemma OneMoreTime(n: nat, bound: nat)
    ensures (n + 1) * bound == n * bound + bound
  {
  }

  lemma {:induction false} TotalAtMost(counts: map<string, int>, bound: nat)
    requires forall n | n in counts :: counts[n] <= bound
    ensures Total(counts) <= |counts| * bound
  {
    if counts == map[] {
    } else {
      var n :| n in counts;
      var rest := counts - {n};
      assert rest.Keys == counts.Keys - {n} && |rest| == |counts| - 1;
      TotalWithout(counts, n);
      TotalAtMost(rest, bound);
      OneMoreTime(|rest|, bound);
    }
  }

  /** As long as the busy namespaces, at up to bound workers each, do not use up the workers of the controller, any
      queued shoot can be admitted that is not in flight and whose namespace is below the limit. */
  lemma FreeWorkersAreShared(
    p: Platform, states: seq<State>, actions: seq<Action>, i: nat, bound: nat, k: Key)
    requires IsRun(p, states, actions) && i < |states|
    requires LimitsUpTo(states, bound)
    requires |BusyNamespaces(states[i])| * bound < p.maxConcurrentReconciles
    requires k in states[i].queue && k !in states[i].workers
    requires |WorkersIn(states[i], k.namespace)| < states[i].limit
    ensures Enabled(p, states[i], Admit(k))
  {
    var s := states[i];
    CountersAreExact(p, states, actions, i);
    assert Exact(s, k.namespace);
    forall n | n in s.counts ensures s.counts[n] <= bound {
      assert Exact(s, n);
      NeverAboveGreatestLimit(p, states, actions, i, n, bound);
    }
    CountedAreBusy(s);
    TotalAtMost(s.counts, bound);
  }

  lemma CountedAreBusy(s: State)
    requires forall namespace :: Exact(s, namespace)
    ensures s.counts.Keys == BusyNamespaces(s)
  {
    forall n ensures n in s.counts.Keys <==> n in BusyNamespaces(s) {
      assert Exact(s, n);
      if n in s.counts {
        var k :| k in WorkersIn(s, n);
      }
      if k :| k in s.workers && k.namespace == n {
        assert k in WorkersIn(s, n);
      }
    }
  }

  // A fixed, validated configuration

  ghost predicate Configured(p: Platform, s: State, settings: Settings) {
    && Accepted(settings)
    && p.maxConcurrentReconciles == settings.maxConcurrentReconciles
    && s.limit == settings.maxConcurrentReconcilesPerNamespace
  }

  lemma {:induction false} LimitIsFixed(p: Platform, states: seq<State>, actions: seq<Action>, i: nat)
    requires IsLimiterRun(p, states, actions) && i < |states|
    requires forall a <- actions :: !a.InjectConfig?
    ensures states[i].limit == states[0].limit
    decreases i
  {
    if i == 0 {
    } else {
      LimitIsFixed(p, states, actions, i - 1);
      assert LimiterStepAt(p, states, actions, i - 1) && actions[i-1] in actions;
    }
  }

  /** No namespace ever keeps more workers busy than its limit, so the rest of the workers stay available to the
      others: when the limits of the busy namespaces leave workers over, any shoot of an idle namespace that waits can
      be admitted. */
  lemma NamespaceIsolation(
    p: Platform, states: seq<State>, actions: seq<Action>, i: nat, settings: Settings, namespace: string, k: Key)
    requires IsRun(p, states, actions) && i < |states|
    requires forall a <- actions :: !a.InjectConfig?
    requires Configured(p, states[0], settings) && settings.maxConcurrentReconcilesPerNamespace >= 1
    ensures |WorkersIn(states[i], namespace)| <= settings.maxConcurrentReconcilesPerNamespace
    ensures p.maxConcurrentReconciles - |WorkersIn(states[i], namespace)|
            >= settings.maxConcurrentReconciles - settings.maxConcurrentReconcilesPerNamespace >= 0
    ensures
      |BusyNamespaces(states[i])| * settings.maxConcurrentReconcilesPerNamespace < settings.maxConcurrentReconciles &&
      k in states[i].queue && k.namespace !in BusyNamespaces(states[i]) ==>
        Enabled(p, states[i], Admit(k))
  {
    RunsAreLimiterRuns(p, states, actions);
    forall j | 0 <= j < |states| ensures states[j].limit <= settings.maxConcurrentReconcilesPerNamespace {
      LimitIsFixed(p, states, actions, j);
    }
    LimitIsFixed(p, states, actions, i);
    NeverAboveGreatestLimit(p, states, actions, i, namespace, settings.maxConcurrentReconcilesPerNamespace);
    var bound := settings.maxConcurrentReconcilesPerNamespace;
    if |BusyNamespaces(states[i])| * bound < settings.maxConcurrentReconciles
       && k in states[i].queue && k.namespace !in BusyNamespaces(states[i]) {
      assert WorkersIn(states[i], k.namespace) == {};
      FreeWorkersAreShared(p, states, actions, i, bound, k);
    }
  }

  /** Validation accepts limits below one. With such a limit, and only then, an idle controller cannot start any
      reconcile. */
  lemma IdleControllerStartsExactlyWithPositiveLimit(
    p: Platform, states: seq<State>, actions: seq<Action>, i: nat, settings: Settings, k: Key)
    requires IsRun(p, states, actions) && i < |states|
    requires forall a <- actions :: !a.InjectConfig?
    requires Configured(p, states[0], settings)
    requires states[i].workers == map[] && k in states[i].queue
    ensures Enabled(p, states[i], Admit(k)) <==> settings.maxConcurrentReconcilesPerNamespace >= 1
  {
    RunsAreLimiterRuns(p, states, actions);
    LimitIsFixed(p, states, actions, i);
    CountersAreExact(p, states, actions, i);
    assert Exact(states[i], k.namespace);
    assert WorkersIn(states[i], k.namespace) == {};
  }

  /** With a limit below one no reconcile ever starts. */
  lemma LimitBelowOneStarves(p: Platform, states: seq<State>, actions: seq<Action>, i: nat)
    requires IsRun(p, states, actions) && i < |states|
    requires LimitsUpTo(states, 0)
    ensures states[i].workers == map[]
  {
    forall k: Key ensures k.namespace in {k.namespace} && k !in states[i].workers {
      NeverAboveGreatestLimit(p, states, actions, i, k.namespace, 0);
      assert k in states[i].workers.Keys <==> k in WorkersIn(states[i], k.namespace);
      assert |WorkersIn(states[i], k.namespace)| == 0;
    }
  }
}
