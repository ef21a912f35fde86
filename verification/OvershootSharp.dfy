// The bound on the overshoot is reached: any shoots of a namespace that are reconciled at the same
// time can all pass the same quota check.
module OvershootSharp {
  import opened Objects
  import opened Limiter
  import opened Quota
  import opened Rendering
  import opened Handling
  import opened System
  import opened QuotaWatch
  import opened LimiterRuns
  import opened Overshoot

  /** A stretch of a tracked run, from any state on. */
  ghost predicate Stretch(p: Platform, states: seq<State>, actions: seq<Action>, namespace: string, hard: int) {
    && IsStretch(p, states, actions)
    && (forall i | 0 <= i < |actions| :: Tracked(states[i], actions[i], namespace, hard))
    && (forall i | 0 <= i < |states| :: states[i].limit == states[0].limit)
  }

  ghost predicate Leads(p: Platform, s: State, s': State, namespace: string, hard: int) {
    exists states, actions :: Stretch(p, states, actions, namespace, hard) && states[0] == s && states[|actions|] == s'
  }

  lemma OneStepLeads(p: Platform, s: State, a: Action, namespace: string, hard: int)
    requires Enabled(p, s, a) && Tracked(s, a, namespace, hard) && !a.InjectConfig?
    ensures Leads(p, s, Next(p, s, a), namespace, hard)
  {
    CountsAfter(p, s, a);
    var states, actions := [s, Next(p, s, a)], [a];
    assert Stretch(p, states, actions, namespace, hard);
  }

  lemma NoStepLeads(p: Platform, s: State, namespace: string, hard: int)
    ensures Leads(p, s, s, namespace, hard)
  {
    var states, actions: seq<Action> := [s], [];
    assert Stretch(p, states, actions, namespace, hard) && states[|actions|] == s;
  }

  lemma JoinedStates(states: seq<State>, states': seq<State>, n: nat, i: nat)
    requires |states| == n + 1 && |states'| > 0 && states[n] == states'[0]
    requires i < n + |states'|
    ensures (states[..n] + states')[i] == if i <= n then states[i] else states'[i - n]
  {
  }

  /** Two stretches that meet can be joined. */
  lemma JoinedStep(
    p: Platform, states: seq<State>, actions: seq<Action>, states': seq<State>, actions': seq<Action>, i: nat)
    requires IsStretch(p, states, actions) && IsStretch(p, states', actions')
    requires states[|actions|] == states'[0] && i < |actions| + |actions'|
    ensures StepAt(p, states[..|actions|] + states', actions + actions', i)
  {
    var n := |actions|;
    JoinedStates(states, states', n, i);
    JoinedStates(states, states', n, i + 1);
    if i < n {
      assert StepAt(p, states, actions, i);
    } else {
      assert StepAt(p, states', actions', i - n);
    }
  }

  lemma JoinedStretch(
    p: Platform, states: seq<State>, actions: seq<Action>, states': seq<State>, actions': seq<Action>,
    namespace: string, hard: int)
    requires Stretch(p, states, actions, namespace, hard) && Stretch(p, states', actions', namespace, hard)
    requires states[|actions|] == states'[0]
    ensures Stretch(p, states[..|actions|] + states', actions + actions', namespace, hard)
  {
    var n := |actions|;
    var all, steps := states[..n] + states', actions + actions';
    forall i | 0 <= i < |steps| ensures StepAt(p, all, steps, i) {
      JoinedStep(p, states, actions, states', actions', i);
    }
    forall i | 0 <= i < |steps| ensures Tracked(all[i], steps[i], namespace, hard) {
      JoinedStates(states, states', n, i);
      assert if i < n then Tracked(states[i], actions[i], namespace, hard)
             else Tracked(states'[i-n], actions'[i-n], namespace, hard);
    }
    forall i | 0 <= i < |all| ensures all[i].limit == all[0].limit {
      JoinedStates(states, states', n, i);
      JoinedStates(states, states', n, 0);
    }
  }

  lemma LeadsTransitively(p: Platform, s: State, s': State, s'': State, namespace: string, hard: int)
    requires Leads(p, s, s', namespace, hard) && Leads(p, s', s'', namespace, hard)
    ensures Leads(p, s, s'', namespace, hard)
  {
    var states, actions :| Stretch(p, states, actions, namespace, hard) && states[0] == s && states[|actions|] == s';
    var states', actions' :| Stretch(p, states', actions', namespace, hard)
                             && states'[0] == s' && states'[|actions'|] == s'';
    JoinedStretch(p, states, actions, states', actions', namespace, hard);
    var all, steps := states[..|actions|] + states', actions + actions';
    assert all[0] == s && all[|steps|] == s'';
  }

  /** A shoot that only lacks its ConfigMap, which can be rendered. */
  predicate Lacking(p: Platform, g: Garden, k: Key) {
    && k in g.shoots && k in g.states && ConfigMapKey(k) !in g.configMaps
    && g.shoots[k].addresses != [] && Desired(p, k, g.shoots[k], g.states[k]).Some?
  }

  lemma SameQuotasSameListing(g: Garden, g': Garden, namespace: string, names: seq<Key>)
    requires g'.quotas == g.quotas && IsListing(g, namespace, names)
    ensures IsListing(g', namespace, names)
  {
  }

  /** The quotas of the namespace let one more ConfigMap pass, and one of them reports the present number. */
  ghost predicate RoomForOne(s: State, namespace: string, names: seq<Key>, hard: int) {
    && IsListing(s.garden, namespace, names)
    && Gate(QuotasOf(s.garden, names)) == Sufficient
    && exists n :: n in s.garden.quotas && n.namespace == namespace
                   && Reports(s.garden.quotas[n], hard, |ConfigMapsIn(s, namespace)|)
  }

  /** A step of a reconcile that only reads moves that reconcile and changes nothing else. */
  lemma ReadOnly(p: Platform, s: State, k: Key, names: seq<Key>)
    requires Enabled(p, s, Proceed(k, names)) && !s.workers[k].Write? && !s.workers[k].Delete?
    ensures Next(p, s, Proceed(k, names))
            == s.(workers := s.workers[k := Advance(p, s.garden, k, s.workers[k], names).0])
  {
    var c := ConfigMapKey(k);
    assert Advance(p, s.garden, k, s.workers[k], names).1 == s.garden;
    assert ConfigMapEvents(k.namespace, Find(s.garden.configMaps, c), Find(s.garden.configMaps, c)) == multiset{};
    assert s.inbox + multiset{} == s.inbox;
  }

  lemma ReadLeads(p: Platform, s: State, k: Key, next: Phase, names: seq<Key>, hard: int) returns (s': State)
    requires k in s.workers && !s.workers[k].Done? && !s.workers[k].Write? && !s.workers[k].Delete?
    requires RoomForOne(s, k.namespace, names, hard)
    requires Advance(p, s.garden, k, s.workers[k], names).0 == next
    ensures s' == s.(workers := s.workers[k := next])
    ensures RoomForOne(s', k.namespace, names, hard)
    ensures Leads(p, s, s', k.namespace, hard)
  {
    var a := Proceed(k, names);
    ReadOnly(p, s, k, names);
    OneStepLeads(p, s, a, k.namespace, hard);
    s' := Next(p, s, a);
  }

  lemma UpdateTwice<K, V>(m: map<K, V>, k: K, a: V, b: V)
    ensures m[k := a][k := b] == m[k := b]
  {
  }

  lemma FirstReadsLead(p: Platform, s: State, k: Key, names: seq<Key>, hard: int) returns (s': State)
    requires Find(s.workers, k) == Some(ReadShoot) && Lacking(p, s.garden, k)
    requires RoomForOne(s, k.namespace, names, hard)
    ensures s' == s.(workers := s.workers[k := ListQuotas(s.garden.shoots[k])])
    ensures RoomForOne(s', k.namespace, names, hard)
    ensures Leads(p, s, s', k.namespace, hard)
  {
    var shoot := s.garden.shoots[k];
    var s1 := ReadLeads(p, s, k, ReadConfigMap(shoot), names, hard);
    s' := ReadLeads(p, s1, k, ListQuotas(shoot), names, hard);
    UpdateTwice(s.workers, k, ReadConfigMap(shoot), ListQuotas(shoot));
    LeadsTransitively(p, s, s1, s', k.namespace, hard);
  }

  lemma LastReadsLead(p: Platform, s: State, k: Key, names: seq<Key>, hard: int) returns (s': State, phase: Phase)
    requires Lacking(p, s.garden, k) && Find(s.workers, k) == Some(ListQuotas(s.garden.shoots[k]))
    requires RoomForOne(s, k.namespace, names, hard)
    ensures phase.Write? && s' == s.(workers := s.workers[k := phase])
    ensures Leads(p, s, s', k.namespace, hard)
  {
    var shoot := s.garden.shoots[k];
    phase := Write(shoot, BLANK, Desired(p, k, shoot, s.garden.states[k]).value);
    var s1 := ReadLeads(p, s, k, ReadState(shoot, BLANK), names, hard);
    s' := ReadLeads(p, s1, k, phase, names, hard);
    UpdateTwice(s.workers, k, ReadState(shoot, BLANK), phase);
    LeadsTransitively(p, s, s1, s', k.namespace, hard);
  }

  /** A reconcile of a shoot that lacks its ConfigMap can go from admission to its write, while nothing else happens. */
  lemma ChecksLead(p: Platform, s: State, k: Key, names: seq<Key>, hard: int) returns (s': State, phase: Phase)
    requires Find(s.workers, k) == Some(ReadShoot) && Lacking(p, s.garden, k)
    requires RoomForOne(s, k.namespace, names, hard)
    ensures phase.Write? && s' == s.(workers := s.workers[k := phase])
    ensures Leads(p, s, s', k.namespace, hard)
  {
    var s1 := FirstReadsLead(p, s, k, names, hard);
    s', phase := LastReadsLead(p, s1, k, names, hard);
    UpdateTwice(s.workers, k, s1.workers[k], phase);
    LeadsTransitively(p, s, s1, s', k.namespace, hard);
  }

  /** The first j shoots are about to write; the others are still to be reported. */
  ghost predicate Racing(s0: State, s: State, namespace: string, keys: seq<Key>, j: nat)
    requires j <= |keys|
  {
    && s.garden == s0.garden && s.limit == s0.limit
    && |s.workers| == j && CountOf(s.counts, namespace) == j
    && (forall i | 0 <= i < j :: keys[i] in s.workers && s.workers[keys[i]].Write?)
    && (forall i | j <= i < |keys| :: keys[i] !in s.workers && ShootEvent(keys[i]) in s.inbox)
  }

  lemma EntryLeads(p: Platform, s: State, k: Key, hard: int) returns (s': State)
    requires ShootEvent(k) in s.inbox && k !in s.workers
    requires |s.workers| < p.maxConcurrentReconciles && CountOf(s.counts, k.namespace) < s.limit
    ensures s' == s.(inbox := s.inbox - multiset{ShootEvent(k)}, queue := s.queue + {k} - {k},
                     workers := s.workers[k := ReadShoot], counts := Increased(s.counts, k.namespace))
    ensures Leads(p, s, s', k.namespace, hard)
  {
    var deliver := Deliver(ShootEvent(k), true);
    OneStepLeads(p, s, deliver, k.namespace, hard);
    var s1 := Next(p, s, deliver);
    OneStepLeads(p, s1, Admit(k), k.namespace, hard);
    s' := Next(p, s1, Admit(k));
    LeadsTransitively(p, s, s1, s', k.namespace, hard);
  }

  lemma OneMoreRaces(s0: State, s: State, s': State, namespace: string, keys: seq<Key>, j: nat, phase: Phase)
    requires j < |keys| && Distinct(keys) && Racing(s0, s, namespace, keys, j)
    requires phase.Write?
    requires s'.garden == s.garden && s'.limit == s.limit && s'.inbox == s.inbox - multiset{ShootEvent(keys[j])}
    requires s'.workers == s.workers[keys[j] := phase] && s'.counts == Increased(s.counts, namespace)
    ensures Racing(s0, s', namespace, keys, j + 1)
  {
    assert s'.workers.Keys == s.workers.Keys + {keys[j]};
    assert |s'.workers| == |s'.workers.Keys| && |s.workers| == |s.workers.Keys|;
  }

  lemma OneChecks(
    p: Platform, s: State, k: Key, names: seq<Key>, hard: int) returns (s': State, phase: Phase)
    requires ShootEvent(k) in s.inbox && k !in s.workers && Lacking(p, s.garden, k)
    requires |s.workers| < p.maxConcurrentReconciles && CountOf(s.counts, k.namespace) < s.limit
    requires RoomForOne(s, k.namespace, names, hard)
    ensures phase.Write? && s'.workers == s.workers[k := phase] && s'.counts == Increased(s.counts, k.namespace)
    ensures s'.garden == s.garden && s'.limit == s.limit && s'.inbox == s.inbox - multiset{ShootEvent(k)}
    ensures Leads(p, s, s', k.namespace, hard)
  {
    var entered := EntryLeads(p, s, k, hard);
    s', phase := ChecksLead(p, entered, k, names, hard);
    UpdateTwice(s.workers, k, ReadShoot, phase);
    LeadsTransitively(p, s, entered, s', k.namespace, hard);
  }

  lemma {:induction false} AllCheck(
    p: Platform, s0: State, namespace: string, keys: seq<Key>, j: nat, names: seq<Key>, hard: int) returns (s: State)
    requires j <= |keys| && Contenders(p, s0, namespace, keys)
    requires RoomForOne(s0, namespace, names, hard)
    requires Racing(s0, s0, namespace, keys, 0)
    ensures Racing(s0, s, namespace, keys, j) && Leads(p, s0, s, namespace, hard)
    decreases j
  {
    if j == 0 {
      s := s0;
      NoStepLeads(p, s0, namespace, hard);
    } else {
      var before := AllCheck(p, s0, namespace, keys, j - 1, names, hard);
      var k := keys[j-1];
      assert k in keys;
      var phase;
      s, phase := OneChecks(p, before, k, names, hard);
      OneMoreRaces(s0, before, s, namespace, keys, j - 1, phase);
      LeadsTransitively(p, s0, before, s, namespace, hard);
    }
  }

  /** Distinct shoots of a namespace that only lack their ConfigMaps, no more than may run at a time. */
  ghost predicate Contenders(p: Platform, s: State, namespace: string, keys: seq<Key>) {
    && Distinct(keys)
    && (forall k <- keys :: k.namespace == namespace && Lacking(p, s.garden, k))
    && |keys| <= s.limit && |keys| <= p.maxConcurrentReconciles
  }

  /** The reconcile of k is about to create its ConfigMap. */
  predicate AboutToCreate(s: State, k: Key) {
    k in s.workers && s.workers[k].Write? && ConfigMapKey(k) !in s.garden.configMaps
  }

  /** The first j shoots have created their ConfigMaps, the others are about to. */
  ghost predicate Writing(s0: State, s: State, namespace: string, keys: seq<Key>, j: nat)
    requires j <= |keys|
  {
    && s.garden.quotas == s0.garden.quotas
    && |ConfigMapsIn(s, namespace)| == |ConfigMapsIn(s0, namespace)| + j
    && (forall i | j <= i < |keys| :: AboutToCreate(s, keys[i]))
  }

  /** A state after the creation of the ConfigMap of k, and nothing else. */
  ghost predicate Created(s: State, s': State, k: Key) {
    && s'.garden.quotas == s.garden.quotas
    && s'.garden.configMaps.Keys == s.garden.configMaps.Keys + {ConfigMapKey(k)}
    && (forall i | i in s.workers && i != k :: i in s'.workers && s'.workers[i] == s.workers[i])
  }

  lemma WriteLeads(p: Platform, s: State, k: Key, names: seq<Key>, hard: int) returns (s': State)
    requires AboutToCreate(s, k)
    requires IsListing(s.garden, k.namespace, names)
    ensures Leads(p, s, s', k.namespace, hard)
    ensures Created(s, s', k)
  {
    OneStepLeads(p, s, Proceed(k, names), k.namespace, hard);
    s' := Next(p, s, Proceed(k, names));
  }

  lemma CreationCounts(s: State, s': State, k: Key)
    requires AboutToCreate(s, k) && Created(s, s', k)
    ensures |ConfigMapsIn(s', k.namespace)| == |ConfigMapsIn(s, k.namespace)| + 1
  {
    assert ConfigMapsIn(s', k.namespace) == ConfigMapsIn(s, k.namespace) + {ConfigMapKey(k)};
  }

  lemma CreationLeavesOthers(s: State, s': State, k: Key, other: Key)
    requires Created(s, s', k) && other != k && AboutToCreate(s, other)
    ensures AboutToCreate(s', other)
  {
    if ConfigMapKey(other) == ConfigMapKey(k) {
      ConfigMapKeyInjective(other, k);
    }
  }

  lemma OneMoreWritten(s0: State, s: State, s': State, namespace: string, keys: seq<Key>, j: nat)
    requires j < |keys| && Distinct(keys) && keys[j].namespace == namespace
    requires Writing(s0, s, namespace, keys, j) && Created(s, s', keys[j])
    ensures Writing(s0, s', namespace, keys, j + 1)
  {
    CreationCounts(s, s', keys[j]);
    forall i | j < i < |keys| ensures AboutToCreate(s', keys[i]) {
      CreationLeavesOthers(s, s', keys[j], keys[i]);
    }
  }

  lemma {:induction false} AllWrite(
    p: Platform, s0: State, s: State, namespace: string, keys: seq<Key>, j: nat, names: seq<Key>, hard: int)
    returns (s': State)
    requires j <= |keys| && Distinct(keys) && forall k <- keys :: k.namespace == namespace
    requires IsListing(s0.garden, namespace, names)
    requires Writing(s0, s, namespace, keys, 0)
    ensures Writing(s0, s', namespace, keys, j) && Leads(p, s, s', namespace, hard)
    decreases j
  {
    if j == 0 {
      s' := s;
      NoStepLeads(p, s, namespace, hard);
    } else {
      var before := AllWrite(p, s0, s, namespace, keys, j - 1, names, hard);
      s' := NextWrites(p, s0, before, namespace, keys, j - 1, names, hard);
      LeadsTransitively(p, s, before, s', namespace, hard);
    }
  }

  lemma NextWrites(
    p: Platform, s0: State, s: State, namespace: string, keys: seq<Key>, j: nat, names: seq<Key>, hard: int)
    returns (s': State)
    requires j < |keys| && Distinct(keys) && forall k <- keys :: k.namespace == namespace
    requires IsListing(s0.garden, namespace, names)
    requires Writing(s0, s, namespace, keys, j)
    ensures Writing(s0, s', namespace, keys, j + 1) && Leads(p, s, s', namespace, hard)
  {
    assert keys[j] in keys;
    SameQuotasSameListing(s0.garden, s.garden, namespace, names);
    s' := WriteLeads(p, s, keys[j], names, hard);
    OneMoreWritten(s0, s, s', namespace, keys, j);
  }

  /** From every initial state in which the quota leaves room for one ConfigMap and as many shoots as may run at a time
      lack theirs, some run creates them all: the limit is exceeded by the number of these shoots less one. */
  lemma BoundIsReached(p: Platform, s0: State, namespace: string, keys: seq<Key>, names: seq<Key>, hard: int)
    returns (states: seq<State>, actions: seq<Action>)
    requires Init(s0) && Contenders(p, s0, namespace, keys)
    requires RoomForOne(s0, namespace, names, hard)
    requires |ConfigMapsIn(s0, namespace)| == hard - 1
    ensures TrackedRun(p, states, actions, namespace, hard) && LimitsUpTo(states, s0.limit)
    ensures states[0] == s0
    ensures |ConfigMapsIn(states[|actions|], namespace)| == hard + |keys| - 1
  {
    forall i | 0 <= i < |keys| ensures ShootEvent(keys[i]) in s0.inbox {
      assert keys[i] in keys;
    }
    var s1 := AllCheck(p, s0, namespace, keys, |keys|, names, hard);
    forall i | 0 <= i < |keys| ensures ConfigMapKey(keys[i]) !in s0.garden.configMaps {
      assert keys[i] in keys;
    }
    var s2 := AllWrite(p, s0, s1, namespace, keys, |keys|, names, hard);
    LeadsTransitively(p, s0, s1, s2, namespace, hard);
    states, actions :| Stretch(p, states, actions, namespace, hard) && states[0] == s0 && states[|actions|] == s2;
    assert TrackedRun(p, states, actions, namespace, hard);
    assert LimitsUpTo(states, s0.limit);
  }
}
