// How far concurrent reconciles of a namespace can exceed a quota that each of them has checked.
module Overshoot {
  import opened Objects
  import opened Quota
  import opened Rendering
  import opened Handling
  import opened System
  import opened LimiterRuns
  import Convergence

  function ConfigMapsIn(s: State, namespace: string): set<Key> {
    InNamespace(s.garden.configMaps.Keys, namespace)
  }

  /** Phases in which a reconcile may still create its ConfigMap: it passed the quota check, or skipped it
      because it saw the ConfigMap. */
  predicate MayCreate(phase: Phase) {
    phase.ReadState? || phase.Write?
  }

  /** The reconciles that may create a ConfigMap that does not exist. */
  function Creators(s: State, namespace: string): set<Key> {
    set k | k in s.workers && k.namespace == namespace
            && MayCreate(s.workers[k]) && ConfigMapKey(k) !in s.garden.configMaps
  }

  /** Existing ConfigMaps and those that may still be created without another check. */
  function Claimed(s: State, namespace: string): nat {
    |ConfigMapsIn(s, namespace)| + |Creators(s, namespace)|
  }

  /** Only the controller creates ConfigMaps in the namespace, and a quota check sees the limit and the current number
      of ConfigMaps. */
  ghost predicate Tracked(s: State, a: Action, namespace: string, hard: int) {
    && (a.PutConfigMap? && a.key.namespace == namespace ==> a.key in s.garden.configMaps)
    && (a.Proceed? && a.key.namespace == namespace && a.key in s.workers && s.workers[a.key].ListQuotas? ==>
          exists n :: n in s.garden.quotas && n.namespace == namespace
                      && Reports(s.garden.quotas[n], hard, |ConfigMapsIn(s, namespace)|))
  }

  predicate Reports(q: ResourceQuota, hard: int, used: int) {
    && CONFIG_MAP_COUNT in q.specHard
    && Find(q.statusHard, CONFIG_MAP_COUNT) == Some(hard)
    && Find(q.statusUsed, CONFIG_MAP_COUNT) == Some(used)
  }

  lemma SubsetSize<T>(a: set<T>, b: set<T>)
    requires a <= b
    ensures |a| <= |b|
  {
    assert b == a + (b - a);
  }

  /** A check that passes leaves room for at least one. */
  lemma PassedCheckLeavesRoom(g: Garden, namespace: string, names: seq<Key>, n: Key, hard: int, used: int)
    requires IsListing(g, namespace, names) && Gate(QuotasOf(g, names)) == Sufficient
    requires n in g.quotas && n.namespace == namespace && Reports(g.quotas[n], hard, used)
    ensures used + 1 <= hard
  {
    ListedQuotas(g, namespace, names, g.quotas[n]);
    GateDecidedByFirst(QuotasOf(g, names));
    assert !Denies(g.quotas[n]);
  }

  lemma TrackedCheckLeavesRoom(s: State, a: Action, namespace: string, hard: int)
    requires a.Proceed? && a.key.namespace == namespace && a.key in s.workers && s.workers[a.key].ListQuotas?
    requires Tracked(s, a, namespace, hard)
    requires IsListing(s.garden, namespace, a.names) && Gate(QuotasOf(s.garden, a.names)) == Sufficient
    ensures |ConfigMapsIn(s, namespace)| + 1 <= hard
  {
    var used := |ConfigMapsIn(s, namespace)|;
    var n :| n in s.garden.quotas && n.namespace == namespace && Reports(s.garden.quotas[n], hard, used);
    PassedCheckLeavesRoom(s.garden, namespace, a.names, n, hard, used);
  }

  // The kinds of steps, by what they do to the ConfigMaps and the creators of the namespace

  lemma NothingClaimed(s: State, s': State, namespace: string)
    requires ConfigMapsIn(s', namespace) == ConfigMapsIn(s, namespace)
    requires Creators(s', namespace) <= Creators(s, namespace)
    ensures Claimed(s', namespace) <= Claimed(s, namespace)
  {
    SubsetSize(Creators(s', namespace), Creators(s, namespace));
  }

  lemma ClaimUsed(s: State, s': State, namespace: string, k: Key)
    requires k in Creators(s, namespace)
    requires ConfigMapsIn(s', namespace) == ConfigMapsIn(s, namespace) + {ConfigMapKey(k)}
    requires Creators(s', namespace) <= Creators(s, namespace) - {k}
    ensures Claimed(s', namespace) <= Claimed(s, namespace)
  {
    SubsetSize(Creators(s', namespace), Creators(s, namespace) - {k});
  }

  lemma ClaimFreed(s: State, s': State, namespace: string, c: Key)
    requires c in s.garden.configMaps && c.namespace == namespace
    requires s'.garden.configMaps == s.garden.configMaps - {c}
    requires forall k | k in s'.workers && MayCreate(s'.workers[k]) :: k in s.workers && MayCreate(s.workers[k])
    ensures Claimed(s', namespace) <= Claimed(s, namespace)
  {
    assert ConfigMapsIn(s', namespace) == ConfigMapsIn(s, namespace) - {c};
    var name := Convergence.ShootName(c).GetOr("");
    forall k | k in Creators(s', namespace) ensures k in Creators(s, namespace) + {Key(namespace, name)} {
      if ConfigMapKey(k) == c {
        Convergence.ShootNameOfConfigMapKey(k);
      }
    }
    SubsetSize(Creators(s', namespace), Creators(s, namespace) + {Key(namespace, name)});
  }

  lemma CheckedClaim(s: State, namespace: string, hard: int, bound: nat)
    requires |ConfigMapsIn(s, namespace)| + 1 <= hard
    requires |WorkersIn(s, namespace)| <= bound
    ensures Claimed(s, namespace) <= hard + bound - 1
  {
    SubsetSize(Creators(s, namespace), WorkersIn(s, namespace));
  }

  // The steps themselves

  /** A step of a reconcile moves that reconcile only. */
  ghost predicate OnlyMoves(s: State, s': State, k: Key, phase: Phase) {
    && k in s.workers
    && s'.workers == s.workers[k := phase]
  }

  lemma ReconcileStep(p: Platform, s: State, a: Action) returns (phase: Phase)
    requires Enabled(p, s, a) && (a.Proceed? || a.Fail?)
    ensures OnlyMoves(s, Next(p, s, a), a.key, phase)
    ensures a.Fail? ==> phase.Done?
    ensures a.Proceed? ==> phase == Advance(p, s.garden, a.key, s.workers[a.key], a.names).0
    ensures Next(p, s, a).garden ==
            if a.Proceed? then Advance(p, s.garden, a.key, s.workers[a.key], a.names).1
            else if a.applied then Advance(p, s.garden, a.key, s.workers[a.key], []).1
            else s.garden
  {
    phase := Next(p, s, a).workers[a.key];
  }

  lemma Written(s: State, s': State, namespace: string, k: Key, phase: Phase)
    requires OnlyMoves(s, s', k, phase) && phase.Done?
    requires s.workers[k].Write? && k.namespace == namespace
    requires s'.garden.configMaps.Keys == s.garden.configMaps.Keys + {ConfigMapKey(k)}
    ensures Claimed(s', namespace) <= Claimed(s, namespace)
  {
    if ConfigMapKey(k) in s.garden.configMaps {
      assert s'.garden.configMaps.Keys == s.garden.configMaps.Keys;
      NothingClaimed(s, s', namespace);
    } else {
      assert ConfigMapsIn(s', namespace) == ConfigMapsIn(s, namespace) + {ConfigMapKey(k)};
      ClaimUsed(s, s', namespace, k);
    }
  }

  lemma Deleted(s: State, s': State, namespace: string, k: Key, phase: Phase)
    requires OnlyMoves(s, s', k, phase) && phase.Done?
    requires s.workers[k].Delete? && k.namespace == namespace
    requires s'.garden.configMaps == s.garden.configMaps - {ConfigMapKey(k)}
    ensures Claimed(s', namespace) <= Claimed(s, namespace)
  {
    if ConfigMapKey(k) in s.garden.configMaps {
      ClaimFreed(s, s', namespace, ConfigMapKey(k));
    } else {
      assert s'.garden.configMaps == s.garden.configMaps;
      NothingClaimed(s, s', namespace);
    }
  }

  lemma EffectStep(p: Platform, s: State, a: Action, namespace: string)
    requires Enabled(p, s, a) && (a.Proceed? || (a.Fail? && a.applied)) && a.key.namespace == namespace
    requires s.workers[a.key].Write? || s.workers[a.key].Delete?
    ensures Claimed(Next(p, s, a), namespace) <= Claimed(s, namespace)
  {
    var phase := ReconcileStep(p, s, a);
    var s' := Next(p, s, a);
    if s.workers[a.key].Write? {
      assert s'.garden.configMaps.Keys == s.garden.configMaps.Keys + {ConfigMapKey(a.key)};
      Written(s, s', namespace, a.key, phase);
    } else {
      Deleted(s, s', namespace, a.key, phase);
    }
  }

  lemma ReadStep(p: Platform, s: State, a: Action, namespace: string, hard: int, bound: nat)
    requires Enabled(p, s, a) && a.Proceed? && a.key.namespace == namespace
    requires !s.workers[a.key].Write? && !s.workers[a.key].Delete?
    requires Tracked(s, a, namespace, hard)
    requires |WorkersIn(s, namespace)| <= bound
    ensures
      var s' := Next(p, s, a);
      Claimed(s', namespace) <= Claimed(s, namespace) || Claimed(s', namespace) <= hard + bound - 1
  {
    var s', k := Next(p, s, a), a.key;
    var phase := ReconcileStep(p, s, a);
    if s.workers[k].ListQuotas? && phase.ReadState? {
      TrackedCheckLeavesRoom(s, a, namespace, hard);
      assert s'.workers.Keys == s.workers.Keys;
      CheckedClaim(s', namespace, hard, bound);
    } else {
      ReadsClaimNothing(s, s', namespace, k, phase);
    }
  }

  /** A reconcile that reads may create only if it could before, saw its ConfigMap, or passed the check. */
  lemma ReadsClaimNothing(s: State, s': State, namespace: string, k: Key, phase: Phase)
    requires OnlyMoves(s, s', k, phase) && s'.garden == s.garden
    requires MayCreate(phase) ==> MayCreate(s.workers[k]) || ConfigMapKey(k) in s.garden.configMaps
    ensures Claimed(s', namespace) <= Claimed(s, namespace)
  {
    NothingClaimed(s, s', namespace);
  }

  lemma LimiterClaimsNothing(p: Platform, s: State, a: Action)
    requires Enabled(p, s, a) && (a.Admit? || a.Finish?)
    ensures
      var s' := Next(p, s, a);
      && s'.garden.configMaps == s.garden.configMaps
      && forall k | k in s'.workers && MayCreate(s'.workers[k]) :: k in s.workers && s.workers[k] == s'.workers[k]
  {
    if a.Admit? {
      assert !MayCreate(ReadShoot);
    }
  }

  lemma OthersClaimNothing(p: Platform, s: State, a: Action)
    requires Enabled(p, s, a) && !a.PutConfigMap? && !a.RemoveConfigMap? && !a.Proceed? && !a.Fail?
    requires !a.Admit? && !a.Finish?
    ensures Next(p, s, a).garden.configMaps == s.garden.configMaps
    ensures Next(p, s, a).workers == s.workers
  {
    OnlyWorkersMove(p, s, a);
    match a
    case PutShoot(_, _) =>
    case RemoveShoot(_) =>
    case PutState(_, _) =>
    case RemoveState(_) =>
    case _ =>
  }

  lemma OtherStep(p: Platform, s: State, a: Action, namespace: string)
    requires Enabled(p, s, a) && !a.PutConfigMap? && !a.RemoveConfigMap? && !a.Proceed? && !a.Fail?
    ensures Claimed(Next(p, s, a), namespace) <= Claimed(s, namespace)
  {
    if a.Admit? || a.Finish? {
      LimiterClaimsNothing(p, s, a);
    } else {
      OthersClaimNothing(p, s, a);
    }
    NothingClaimed(s, Next(p, s, a), namespace);
  }

  lemma ConfigMapStep(p: Platform, s: State, a: Action, namespace: string, hard: int)
    requires Enabled(p, s, a) && (a.PutConfigMap? || a.RemoveConfigMap?)
    requires Tracked(s, a, namespace, hard)
    ensures Claimed(Next(p, s, a), namespace) <= Claimed(s, namespace)
  {
    var s' := Next(p, s, a);
    assert s'.workers == s.workers;
    if a.RemoveConfigMap? && a.key.namespace == namespace {
      ClaimFreed(s, s', namespace, a.key);
    } else {
      assert ConfigMapsIn(s', namespace) == ConfigMapsIn(s, namespace);
      NothingClaimed(s, s', namespace);
    }
  }

  lemma ForeignStep(p: Platform, s: State, a: Action, namespace: string)
    requires Enabled(p, s, a) && (a.Proceed? || a.Fail?) && a.key.namespace != namespace
    ensures Claimed(Next(p, s, a), namespace) <= Claimed(s, namespace)
  {
    var phase := ReconcileStep(p, s, a);
    ForeignWrite(p, s, a.key, s.workers[a.key], if a.Proceed? then a.names else [], namespace);
    NothingClaimed(s, Next(p, s, a), namespace);
  }

  lemma ForeignWrite(p: Platform, s: State, k: Key, phase: Phase, names: seq<Key>, namespace: string)
    requires phase.ListQuotas? ==> forall n <- names :: n in s.garden.quotas
    requires k.namespace != namespace
    ensures
      var configMaps := Advance(p, s.garden, k, phase, names).1.configMaps;
      && InNamespace(configMaps.Keys, namespace) == ConfigMapsIn(s, namespace)
      && forall j: Key | j.namespace == namespace ::
           ConfigMapKey(j) in configMaps <==> ConfigMapKey(j) in s.garden.configMaps
  {
    var configMaps := Advance(p, s.garden, k, phase, names).1.configMaps;
    forall c: Key | c.namespace == namespace ensures c in configMaps <==> c in s.garden.configMaps {
      assert c != ConfigMapKey(k) ==> Find(configMaps, c) == Find(s.garden.configMaps, c);
    }
  }

  lemma FailedReadStep(p: Platform, s: State, a: Action, namespace: string)
    requires Enabled(p, s, a) && a.Fail?
    requires !a.applied || (!s.workers[a.key].Write? && !s.workers[a.key].Delete?)
    ensures Claimed(Next(p, s, a), namespace) <= Claimed(s, namespace)
  {
    var phase := ReconcileStep(p, s, a);
    ReadsClaimNothing(s, Next(p, s, a), namespace, a.key, phase);
  }

  lemma ClaimedStep(p: Platform, s: State, a: Action, namespace: string, hard: int, bound: nat)
    requires Enabled(p, s, a) && Tracked(s, a, namespace, hard)
    requires |WorkersIn(s, namespace)| <= bound
    ensures
      var s' := Next(p, s, a);
      Claimed(s', namespace) <= Claimed(s, namespace) || Claimed(s', namespace) <= hard + bound - 1
  {
    if a.PutConfigMap? || a.RemoveConfigMap? {
      ConfigMapStep(p, s, a, namespace, hard);
    } else if !a.Proceed? && !a.Fail? {
      OtherStep(p, s, a, namespace);
    } else if a.Fail? && (!a.applied || (!s.workers[a.key].Write? && !s.workers[a.key].Delete?)) {
      FailedReadStep(p, s, a, namespace);
    } else if a.key.namespace != namespace {
      ForeignStep(p, s, a, namespace);
    } else if s.workers[a.key].Write? || s.workers[a.key].Delete? {
      EffectStep(p, s, a, namespace);
    } else {
      ReadStep(p, s, a, namespace, hard, bound);
    }
  }

  ghost predicate TrackedRun(p: Platform, states: seq<State>, actions: seq<Action>, namespace: string, hard: int) {
    && IsRun(p, states, actions)
    && forall i | 0 <= i < |actions| :: Tracked(states[i], actions[i], namespace, hard)
  }

  /** Between states of a tracked run, claims only grow within the bound. */
  ghost predicate ClaimBoundedAt(states: seq<State>, namespace: string, bound: int, i: nat)
    requires 0 < i < |states|
  {
    Claimed(states[i], namespace) <= Claimed(states[i-1], namespace) || Claimed(states[i], namespace) <= bound
  }

  ghost predicate ClaimsBounded(states: seq<State>, namespace: string, bound: int) {
    forall i | 0 < i < |states| :: ClaimBoundedAt(states, namespace, bound, i)
  }

  lemma ClaimedBetween(
    p: Platform, states: seq<State>, actions: seq<Action>, i: nat, namespace: string, hard: int, bound: nat)
    requires TrackedRun(p, states, actions, namespace, hard) && 0 < i < |states|
    requires LimitsUpTo(states, bound)
    ensures ClaimBoundedAt(states, namespace, hard + bound - 1, i)
  {
    NeverAboveGreatestLimit(p, states, actions, i - 1, namespace, bound);
    assert StepAt(p, states, actions, i - 1);
    ClaimedStep(p, states[i-1], actions[i-1], namespace, hard, bound);
  }

  lemma {:induction false} ClaimedInRun(states: seq<State>, i: nat, namespace: string, bound: int)
    requires ClaimsBounded(states, namespace, bound) && i < |states|
    requires Claimed(states[0], namespace) <= bound
    ensures Claimed(states[i], namespace) <= bound
    decreases i
  {
    if i == 0 {
    } else {
      ClaimedInRun(states, i - 1, namespace, bound);
      assert ClaimBoundedAt(states, namespace, bound, i);
    }
  }

  /** With at most bound concurrent reconciles in a namespace, a quota that starts out respected is exceeded by at most
      bound - 1. */
  lemma BoundedOvershoot(
    p: Platform, states: seq<State>, actions: seq<Action>, i: nat, namespace: string, hard: int, bound: nat)
    requires TrackedRun(p, states, actions, namespace, hard) && i < |states|
    requires LimitsUpTo(states, bound) && bound >= 1
    requires |ConfigMapsIn(states[0], namespace)| <= hard
    ensures |ConfigMapsIn(states[i], namespace)| <= hard + bound - 1
  {
    var most := hard + bound - 1;
    forall j | 0 < j < |states| ensures ClaimBoundedAt(states, namespace, most, j) {
      ClaimedBetween(p, states, actions, j, namespace, hard, bound);
    }
    assert Creators(states[0], namespace) == {};
    ClaimedInRun(states, i, namespace, most);
  }
}
