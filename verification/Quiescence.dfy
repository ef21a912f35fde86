// The controller does not keep itself busy: although its own writes raise events that queue the same
// shoot again, every reconcile is paid for by what was under way at the start or by what others did since,
// and takes a bounded number of steps. Nor does it stop with work left to do.
module Quiescence {
  import opened Objects
  import opened Limiter
  import opened Quota
  import opened Rendering
  import opened Handling
  import opened QuotaWatch
  import opened System
  import opened Convergence

  /** What a reconcile of the shoot would change about the ConfigMap, if the quota allows it. */
  predicate OutOfSync(p: Platform, k: Key, shoot: Option<Shoot>, state: Option<ShootState>, cm: Option<ConfigMap>) {
    if shoot.None? || state.None? then cm.Some?
    else
      match Desired(p, k, shoot.value, state.value)
      case None => false
      case Some(kubeconfig) => cm.None? || !InSync(cm.value, kubeconfig)
  }

  /** The reconcile acts on something that has changed since. */
  predicate Outdated(p: Platform, k: Key, shoot: Option<Shoot>, state: Option<ShootState>, phase: Phase) {
    match phase
    case ReadShoot => false
    case ReadConfigMap(copy) => shoot != Some(copy)
    case ListQuotas(copy) => shoot != Some(copy)
    case ReadState(copy, _) => shoot != Some(copy)
    case Write(_, _, kubeconfig) =>
      shoot.None? || state.None? || Desired(p, k, shoot.value, state.value) != Some(kubeconfig)
    case Delete => shoot.Some? && state.Some?
    case Done(_) => false
  }

  function Bit(b: bool): nat {
    if b then 1 else 0
  }

  /** The further reconciles that the reconcile in flight may cause. */
  function InFlight(p: Platform, k: Key, shoot: Option<Shoot>, state: Option<ShootState>, phase: Option<Phase>): nat {
    if phase.None? then 0
    else if phase.value == Done(Failed) then 1
    else if Outdated(p, k, shoot, state, phase.value) then 2
    else 0
  }

  /** The number of reconciles still to come for a shoot: one for every event about it or the quotas of its
      namespace, one each if it waits in the queue or for a retry, one if its ConfigMap is out of sync, and
      what the reconcile in flight may cause. */
  ghost function ToCome(p: Platform, s: State, k: Key): nat {
    var g := s.garden;
    var shoot, state := Find(g.shoots, k), Find(g.states, k);
    s.inbox[ShootEvent(k)] + s.inbox[QuotaEvent(k.namespace)]
    + Bit(k in s.queue) + Bit(k in s.retries)
    + Bit(OutOfSync(p, k, shoot, state, Find(g.configMaps, ConfigMapKey(k))))
    + InFlight(p, k, shoot, state, Find(s.workers, k))
  }

  /** By how much a step that is not the controller's regular work can increase what is to come: a change of the
      Shoot or ShootState, of a ConfigMap of the namespace, news about a quota of the namespace, a failing API call,
      and a long timer that elapses. */
  function Disturbance(s: State, a: Action, k: Key): nat {
    match a
    case PutShoot(j, _) => if j == k then 4 else 0
    case RemoveShoot(j) => if j == k then 4 else 0
    case PutState(j, _) => if j == k then 4 else 0
    case RemoveState(j) => if j == k then 4 else 0
    case PutConfigMap(c, _) => if c.namespace == k.namespace then 2 else 0
    case RemoveConfigMap(c) => if c.namespace == k.namespace then 2 else 0
    case PutQuota(n, quota) =>
      Bit(n.namespace == k.namespace && (n in s.garden.quotas ==> UpdatePasses(s.garden.quotas[n], quota)))
    case RemoveQuota(n) => Bit(n.namespace == k.namespace)
    case Elapse(j) => Bit(j == k)
    case Fail(j, _) => Bit(j == k)
    case _ => 0
  }

  /** Someone else creates or updates an object that concerns the shoot. */
  predicate Puts(a: Action, k: Key) {
    || ((a.PutShoot? || a.PutState?) && a.key == k)
    || ((a.PutConfigMap? || a.PutQuota?) && a.key.namespace == k.namespace)
  }

  /** A kubeconfig can be rendered whenever the code gets to it, the quotas have reported their status, and
      kubeconfig ConfigMaps belong to their shoots. */
  ghost predicate Healthy(p: Platform, g: Garden, k: Key) {
    && (k in g.shoots && k in g.states && g.shoots[k].addresses != [] ==>
          Desired(p, k, g.shoots[k], g.states[k]).Some?)
    && (forall n | n in g.quotas && n.namespace == k.namespace :: VerdictOf(g.quotas[n]) != StatusMissing)
    && (forall c | c in g.configMaps && c.namespace == k.namespace :: WellOwned(c, g.configMaps[c]))
  }

  // Steps of other shoots and other actors

  lemma OwnersElsewhere(k: Key, j: Key, cm: Option<ConfigMap>)
    requires j != k
    requires cm.Some? && j.namespace == k.namespace ==> WellOwned(ConfigMapKey(j), cm.value)
    ensures ShootEvent(k) !in OwnerEvents(j.namespace, cm)
  {
    ShootNameOfConfigMapKey(j);
  }

  /** A change of a ConfigMap that never belonged to the shoot concerns neither its objects nor its events. */
  lemma ElsewhereChange(p: Platform, s: State, k: Key, c: Key, configMaps: map<Key, ConfigMap>)
    requires Healthy(p, s.garden, k) && c != ConfigMapKey(k)
    requires forall d | d != c :: Find(configMaps, d) == Find(s.garden.configMaps, d)
    requires ShootEvent(k) !in OwnerEvents(c.namespace, Find(s.garden.configMaps, c))
    requires ShootEvent(k) !in OwnerEvents(c.namespace, Find(configMaps, c))
    requires c.namespace == k.namespace && c in configMaps ==> WellOwned(c, configMaps[c])
    ensures
      var s' := WithConfigMaps(s, c, configMaps);
      && Healthy(p, s'.garden, k)
      && Find(s'.garden.configMaps, ConfigMapKey(k)) == Find(s.garden.configMaps, ConfigMapKey(k))
      && s'.inbox[ShootEvent(k)] == s.inbox[ShootEvent(k)]
      && s'.inbox[QuotaEvent(k.namespace)] == s.inbox[QuotaEvent(k.namespace)]
  {
    forall d | d in configMaps && d.namespace == k.namespace ensures WellOwned(d, configMaps[d]) {
      assert d != c ==> Find(configMaps, d) == Find(s.garden.configMaps, d);
    }
  }

  /** The writes of other shoots' reconciles are such changes. */
  lemma ElsewhereStep(p: Platform, s: State, k: Key, j: Key, phase: Phase, names: seq<Key>)
    requires Healthy(p, s.garden, k) && j != k
    requires phase.ListQuotas? ==> forall n <- names :: n in s.garden.quotas
    ensures
      var g' := Advance(p, s.garden, j, phase, names).1;
      var s' := WithConfigMaps(s, ConfigMapKey(j), g'.configMaps);
      && Healthy(p, s'.garden, k)
      && Find(s'.garden.configMaps, ConfigMapKey(k)) == Find(s.garden.configMaps, ConfigMapKey(k))
      && s'.inbox[ShootEvent(k)] == s.inbox[ShootEvent(k)]
      && s'.inbox[QuotaEvent(k.namespace)] == s.inbox[QuotaEvent(k.namespace)]
  {
    var g' := Advance(p, s.garden, j, phase, names).1;
    var c := ConfigMapKey(j);
    ShootNameOfConfigMapKey(j);
    if c == ConfigMapKey(k) {
      ConfigMapKeyInjective(j, k);
    }
    OwnersElsewhere(k, j, Find(s.garden.configMaps, c));
    OwnersElsewhere(k, j, Find(g'.configMaps, c));
    ElsewhereChange(p, s, k, c, g'.configMaps);
  }

  lemma SameToCome(p: Platform, s: State, s': State, k: Key)
    requires s'.garden == s.garden.(configMaps := s'.garden.configMaps)
    requires Find(s'.garden.configMaps, ConfigMapKey(k)) == Find(s.garden.configMaps, ConfigMapKey(k))
    requires s'.inbox[ShootEvent(k)] == s.inbox[ShootEvent(k)]
    requires s'.inbox[QuotaEvent(k.namespace)] == s.inbox[QuotaEvent(k.namespace)]
    requires s'.queue == s.queue && s'.retries == s.retries
    requires Find(s'.workers, k) == Find(s.workers, k)
    ensures ToCome(p, s', k) == ToCome(p, s, k)
  {
  }

  lemma OtherWorkers(p: Platform, s: State, a: Action, k: Key)
    requires Enabled(p, s, a) && (a.Proceed? || a.Fail?) && a.key != k
    requires Healthy(p, s.garden, k)
    ensures Healthy(p, Next(p, s, a).garden, k)
    ensures ToCome(p, Next(p, s, a), k) == ToCome(p, s, k)
  {
    var names := if a.Proceed? then a.names else [];
    if a.Proceed? || a.applied {
      ElsewhereStep(p, s, k, a.key, s.workers[a.key], names);
    } else {
      NoEventWithoutChange(a.key, Find(s.garden.configMaps, ConfigMapKey(a.key)));
    }
    SameToCome(p, s, Next(p, s, a), k);
  }

  lemma OtherShootsChange(p: Platform, s: State, a: Action, k: Key)
    requires Enabled(p, s, a) && (a.PutShoot? || a.RemoveShoot? || a.PutState? || a.RemoveState?) && a.key != k
    requires Healthy(p, s.garden, k)
    ensures Healthy(p, Next(p, s, a).garden, k)
    ensures ToCome(p, Next(p, s, a), k) == ToCome(p, s, k)
  {
  }

  lemma OwnShootChanges(p: Platform, s: State, a: Action, k: Key)
    requires Enabled(p, s, a) && (a.PutShoot? || a.RemoveShoot? || a.PutState? || a.RemoveState?) && a.key == k
    requires Healthy(p, s.garden, k)
    ensures !Puts(a, k) ==> Healthy(p, Next(p, s, a).garden, k)
    ensures ToCome(p, Next(p, s, a), k) <= ToCome(p, s, k) + 4
  {
  }

  lemma QuotasChange(p: Platform, s: State, a: Action, k: Key)
    requires Enabled(p, s, a) && (a.PutQuota? || a.RemoveQuota?)
    requires Healthy(p, s.garden, k)
    ensures !Puts(a, k) ==> Healthy(p, Next(p, s, a).garden, k)
    ensures ToCome(p, Next(p, s, a), k) == ToCome(p, s, k) + Disturbance(s, a, k)
  {
  }

  lemma ConfigMapsChange(p: Platform, s: State, c: Key, configMaps: map<Key, ConfigMap>, k: Key)
    requires c.namespace != k.namespace
    requires forall d | d != c :: Find(configMaps, d) == Find(s.garden.configMaps, d)
    requires Healthy(p, s.garden, k)
    ensures
      var s' := WithConfigMaps(s, c, configMaps);
      Healthy(p, s'.garden, k) && ToCome(p, s', k) == ToCome(p, s, k)
  {
    ElsewhereChange(p, s, k, c, configMaps);
    SameToCome(p, s, WithConfigMaps(s, c, configMaps), k);
  }

  lemma OneEventAtMost(namespace: string, old': Option<ConfigMap>, new': Option<ConfigMap>, k: Key)
    ensures ConfigMapEvents(namespace, old', new')[ShootEvent(k)] <= 1
    ensures ConfigMapEvents(namespace, old', new')[QuotaEvent(k.namespace)] == 0
  {
  }

  lemma RemovalKeepsHealth(p: Platform, g: Garden, c: Key, configMaps: map<Key, ConfigMap>, k: Key)
    requires forall d | d != c :: Find(configMaps, d) == Find(g.configMaps, d)
    requires c !in configMaps && Healthy(p, g, k)
    ensures Healthy(p, g.(configMaps := configMaps), k)
  {
    forall d | d in configMaps ensures d in g.configMaps && g.configMaps[d] == configMaps[d] {
      assert Find(configMaps, d) == Find(g.configMaps, d);
    }
  }

  lemma NamespaceConfigMapsChange(p: Platform, s: State, c: Key, configMaps: map<Key, ConfigMap>, k: Key)
    requires c.namespace == k.namespace
    requires forall d | d != c :: Find(configMaps, d) == Find(s.garden.configMaps, d)
    requires Healthy(p, s.garden, k)
    ensures
      var s' := WithConfigMaps(s, c, configMaps);
      && (c !in configMaps ==> Healthy(p, s'.garden, k))
      && ToCome(p, s', k) <= ToCome(p, s, k) + 2
  {
    OneEventAtMost(c.namespace, Find(s.garden.configMaps, c), Find(configMaps, c), k);
    if c !in configMaps {
      RemovalKeepsHealth(p, s.garden, c, configMaps, k);
    }
  }

  lemma EventsAreDelivered(p: Platform, s: State, a: Action, k: Key)
    requires Enabled(p, s, a) && a.Deliver?
    ensures Next(p, s, a).garden == s.garden
    ensures ToCome(p, Next(p, s, a), k) <= ToCome(p, s, k)
  {
    var s' := Next(p, s, a);
    assert k in s'.queue && k !in s.queue ==> a.event == ShootEvent(k) || a.event == QuotaEvent(k.namespace);
  }

  lemma TimersElapse(p: Platform, s: State, a: Action, k: Key)
    requires Enabled(p, s, a) && (a.Retry? || a.Elapse? || a.Reject? || a.InjectConfig?)
    ensures Next(p, s, a).garden == s.garden
    ensures ToCome(p, Next(p, s, a), k) <= ToCome(p, s, k) + Disturbance(s, a, k)
  {
  }

  // The shoot's own steps

  lemma AdmitStep(p: Platform, s: State, a: Action, k: Key)
    requires Enabled(p, s, a) && (a.Admit? || a.Finish?)
    ensures Next(p, s, a).garden == s.garden
    ensures ToCome(p, Next(p, s, a), k) + Bit(a == Admit(k)) <= ToCome(p, s, k)
  {
  }

  /** A write that is not outdated pays for the event it raises by bringing the ConfigMap in sync. */
  lemma OwnWriteBalances(k: Key, old': Option<ConfigMap>, new': Option<ConfigMap>)
    requires old'.Some? ==> WellOwned(ConfigMapKey(k), old'.value)
    requires new'.Some? ==> WellOwned(ConfigMapKey(k), new'.value)
    ensures ConfigMapEvents(k.namespace, old', new')[ShootEvent(k)] <= 1
    ensures ConfigMapEvents(k.namespace, old', new')[QuotaEvent(k.namespace)] == 0
    ensures new'.None? && old'.None? ==> ConfigMapEvents(k.namespace, old', new')[ShootEvent(k)] == 0
    ensures forall kubeconfig ::
              old'.Some? && new'.Some? && InSync(old'.value, kubeconfig) && InSync(new'.value, kubeconfig) ==>
                ConfigMapEvents(k.namespace, old', new')[ShootEvent(k)] == 0
  {
    ShootNameOfConfigMapKey(k);
  }

  /** What one step of the shoot's own reconcile does to what is to come, counting the event it may raise. */
  ghost predicate Balances(p: Platform, g: Garden, k: Key, phase: Phase, g': Garden, phase': Phase) {
    var c, shoot, state := ConfigMapKey(k), Find(g.shoots, k), Find(g.states, k);
    var old', new' := Find(g.configMaps, c), Find(g'.configMaps, c);
    && Bit(OutOfSync(p, k, shoot, state, new')) + InFlight(p, k, shoot, state, Some(phase'))
       + ConfigMapEvents(k.namespace, old', new')[ShootEvent(k)]
       <= Bit(OutOfSync(p, k, shoot, state, old')) + InFlight(p, k, shoot, state, Some(phase))
    && ConfigMapEvents(k.namespace, old', new')[QuotaEvent(k.namespace)] == 0
  }

  lemma ReadsBalance(p: Platform, g: Garden, k: Key, phase: Phase, names: seq<Key>)
    requires Healthy(p, g, k) && IsListing(g, k.namespace, names)
    requires !phase.Done? && !phase.Write? && !phase.Delete?
    ensures
      var (phase', g') := Advance(p, g, k, phase, names);
      g' == g && Balances(p, g, k, phase, g', phase')
  {
    var c := ConfigMapKey(k);
    ShootNameOfConfigMapKey(k);
    OwnWriteBalances(k, Find(g.configMaps, c), Find(g.configMaps, c));
    NoEventWithoutChange(k, Find(g.configMaps, c));
    if phase.ListQuotas? {
      NoStatusMissing(p, g, k, names);
    }
  }

  lemma NoEventWithoutChange(k: Key, cm: Option<ConfigMap>)
    ensures ConfigMapEvents(k.namespace, cm, cm) == multiset{}
  {
  }

  lemma NoStatusMissing(p: Platform, g: Garden, k: Key, names: seq<Key>)
    requires Healthy(p, g, k) && IsListing(g, k.namespace, names)
    ensures Gate(QuotasOf(g, names)) != StatusMissing
  {
    var quotas := QuotasOf(g, names);
    GateDecidedByFirst(quotas);
    forall i | 0 <= i < |quotas| ensures VerdictOf(quotas[i]) != StatusMissing {
      assert names[i] in names;
    }
  }

  lemma WritesKeepHealth(p: Platform, g: Garden, k: Key, phase: Phase, names: seq<Key>)
    requires Healthy(p, g, k)
    requires phase.Write? || phase.Delete?
    ensures Healthy(p, Advance(p, g, k, phase, names).1, k)
  {
    ShootNameOfConfigMapKey(k);
  }

  lemma WriteBalances(p: Platform, g: Garden, k: Key, shoot: Shoot, base: ConfigMap, kubeconfig: string)
    requires Healthy(p, g, k)
    ensures
      var c := ConfigMapKey(k);
      var cm := Mutate(Find(g.configMaps, c).GetOr(base), k, shoot, kubeconfig);
      Balances(p, g, k, Write(shoot, base, kubeconfig), g.(configMaps := g.configMaps[c := cm]), Done(Success))
  {
    var c := ConfigMapKey(k);
    var cm := Mutate(Find(g.configMaps, c).GetOr(base), k, shoot, kubeconfig);
    MutateKeepsTheRest(Find(g.configMaps, c).GetOr(base), k, shoot, kubeconfig);
    ShootNameOfConfigMapKey(k);
    OwnWriteBalances(k, Find(g.configMaps, c), Some(cm));
  }

  lemma DeleteBalances(p: Platform, g: Garden, k: Key, phase: Phase, names: seq<Key>)
    requires Healthy(p, g, k) && phase.Delete?
    ensures
      var (phase', g') := Advance(p, g, k, phase, names);
      Balances(p, g, k, phase, g', phase')
  {
    var c, g' := ConfigMapKey(k), Advance(p, g, k, phase, names).1;
    OwnWriteBalances(k, Find(g.configMaps, c), Find(g'.configMaps, c));
  }

  lemma WritesBalance(p: Platform, g: Garden, k: Key, phase: Phase, names: seq<Key>)
    requires Healthy(p, g, k)
    requires phase.Write? || phase.Delete?
    ensures
      var (phase', g') := Advance(p, g, k, phase, names);
      Balances(p, g, k, phase, g', phase') && Healthy(p, g', k)
  {
    WritesKeepHealth(p, g, k, phase, names);
    if phase.Write? {
      WriteBalances(p, g, k, phase.shoot, phase.base, phase.kubeconfig);
    } else {
      DeleteBalances(p, g, k, phase, names);
    }
  }

  lemma OwnProceed(p: Platform, s: State, a: Action, k: Key)
    requires Enabled(p, s, a) && a.Proceed? && a.key == k
    requires Healthy(p, s.garden, k)
    ensures Healthy(p, Next(p, s, a).garden, k)
    ensures ToCome(p, Next(p, s, a), k) <= ToCome(p, s, k)
  {
    if s.workers[k].Write? || s.workers[k].Delete? {
      WritesBalance(p, s.garden, k, s.workers[k], a.names);
    } else {
      ReadsBalance(p, s.garden, k, s.workers[k], a.names);
    }
  }

  /** A failure costs one retry: its effect on the objects is that of the step, if any. */
  lemma FailureBalances(p: Platform, g: Garden, k: Key, phase: Phase, applied: bool)
    requires Healthy(p, g, k) && !phase.Done?
    ensures
      var g' := if applied then Advance(p, g, k, phase, []).1 else g;
      var c, shoot, state := ConfigMapKey(k), Find(g.shoots, k), Find(g.states, k);
      var news := ConfigMapEvents(k.namespace, Find(g.configMaps, c), Find(g'.configMaps, c));
      && Healthy(p, g', k)
      && Bit(OutOfSync(p, k, shoot, state, Find(g'.configMaps, c))) + news[ShootEvent(k)]
         <= Bit(OutOfSync(p, k, shoot, state, Find(g.configMaps, c))) + InFlight(p, k, shoot, state, Some(phase))
      && news[QuotaEvent(k.namespace)] == 0
  {
    if applied && (phase.Write? || phase.Delete?) {
      WritesBalance(p, g, k, phase, []);
    } else {
      NoEventWithoutChange(k, Find(g.configMaps, ConfigMapKey(k)));
    }
  }

  lemma OwnFail(p: Platform, s: State, a: Action, k: Key)
    requires Enabled(p, s, a) && a.Fail? && a.key == k
    requires Healthy(p, s.garden, k)
    ensures Healthy(p, Next(p, s, a).garden, k)
    ensures ToCome(p, Next(p, s, a), k) <= ToCome(p, s, k) + 1
  {
    FailureBalances(p, s.garden, k, s.workers[k], a.applied);
  }

  /** Every admission reduces what is to come, and no step increases it by more than its disturbance. */
  lemma ToComeStep(p: Platform, s: State, a: Action, k: Key)
    requires Enabled(p, s, a)
    requires Healthy(p, s.garden, k)
    ensures !Puts(a, k) ==> Healthy(p, Next(p, s, a).garden, k)
    ensures ToCome(p, Next(p, s, a), k) + Bit(a == Admit(k)) <= ToCome(p, s, k) + Disturbance(s, a, k)
  {
    if a.Admit? || a.Finish? {
      AdmitStep(p, s, a, k);
    } else if a.PutConfigMap? || a.RemoveConfigMap? {
      var configMaps := s.garden.configMaps;
      var configMaps' := if a.PutConfigMap? then configMaps[a.key := a.configMap] else configMaps - {a.key};
      if a.key.namespace == k.namespace {
        NamespaceConfigMapsChange(p, s, a.key, configMaps', k);
      } else {
        ConfigMapsChange(p, s, a.key, configMaps', k);
      }
    } else if a.Deliver? {
      EventsAreDelivered(p, s, a, k);
    } else if a.Retry? || a.Elapse? || a.Reject? || a.InjectConfig? {
      TimersElapse(p, s, a, k);
    } else if a.PutQuota? || a.RemoveQuota? {
      QuotasChange(p, s, a, k);
    } else if a.key == k {
      OwnStep(p, s, a, k);
    } else if a.Proceed? || a.Fail? {
      OtherWorkers(p, s, a, k);
    } else {
      OtherShootsChange(p, s, a, k);
    }
  }

  lemma OwnStep(p: Platform, s: State, a: Action, k: Key)
    requires Enabled(p, s, a)
    requires a.PutShoot? || a.RemoveShoot? || a.PutState? || a.RemoveState? || a.Proceed? || a.Fail?
    requires a.key == k
    requires Healthy(p, s.garden, k)
    ensures !Puts(a, k) ==> Healthy(p, Next(p, s, a).garden, k)
    ensures ToCome(p, Next(p, s, a), k) <= ToCome(p, s, k) + Disturbance(s, a, k)
  {
    if a.Proceed? {
      OwnProceed(p, s, a, k);
    } else if a.Fail? {
      OwnFail(p, s, a, k);
    } else {
      OwnShootChanges(p, s, a, k);
    }
  }

  function Sum(costs: seq<nat>): nat {
    if costs == [] then 0 else Sum(costs[..|costs|-1]) + costs[|costs|-1]
  }

  function AdmissionBits(actions: seq<Action>, k: Key): seq<nat> {
    seq(|actions|, i requires 0 <= i < |actions| => Bit(actions[i] == Admit(k)))
  }

  function Admissions(actions: seq<Action>, k: Key): nat {
    Sum(AdmissionBits(actions, k))
  }

  function Costs(states: seq<State>, actions: seq<Action>, k: Key): seq<nat>
    requires |states| == |actions| + 1
  {
    seq(|actions|, i requires 0 <= i < |actions| => Disturbance(states[i], actions[i], k))
  }

  /** What others did about the shoot in a stretch of a run, with its failures and long timers. */
  function Disturbances(states: seq<State>, actions: seq<Action>, k: Key): nat
    requires |states| == |actions| + 1
  {
    Sum(Costs(states, actions, k))
  }

  ghost predicate HealthyPut(p: Platform, states: seq<State>, actions: seq<Action>, k: Key, i: nat)
    requires i < |actions| < |states|
  {
    Puts(actions[i], k) ==> Healthy(p, states[i+1].garden, k)
  }

  /** A stretch of a run, from any healthy state on, in which others put nothing that makes the shoot unhealthy. */
  ghost predicate HealthyStretch(p: Platform, states: seq<State>, actions: seq<Action>, k: Key) {
    && IsStretch(p, states, actions)
    && Healthy(p, states[0].garden, k)
    && forall i | 0 <= i < |actions| :: HealthyPut(p, states, actions, k, i)
  }

  lemma {:induction false} StaysHealthy(p: Platform, states: seq<State>, actions: seq<Action>, k: Key, i: nat)
    requires HealthyStretch(p, states, actions, k) && i < |states|
    ensures Healthy(p, states[i].garden, k)
    decreases i
  {
    if i == 0 {
    } else {
      StaysHealthy(p, states, actions, k, i - 1);
      assert StepAt(p, states, actions, i - 1) && HealthyPut(p, states, actions, k, i - 1);
      ToComeStep(p, states[i-1], actions[i-1], k);
    }
  }

  ghost predicate PaysAt(measure: seq<nat>, gains: seq<nat>, costs: seq<nat>, i: nat)
    requires i < |gains| == |costs| < |measure|
  {
    measure[i+1] + gains[i] <= measure[i] + costs[i]
  }

  /** A measure that pays for every gain and increases by no more than the costs bounds the gains. */
  lemma {:induction false} GainsArePaidFor(measure: seq<nat>, gains: seq<nat>, costs: seq<nat>)
    requires |measure| == |gains| + 1 && |costs| == |gains|
    requires forall i | 0 <= i < |gains| :: PaysAt(measure, gains, costs, i)
    ensures Sum(gains) + measure[|gains|] <= measure[0] + Sum(costs)
  {
    if gains == [] {
    } else {
      var n := |gains| - 1;
      var measure', gains', costs' := measure[..n+1], gains[..n], costs[..n];
      assert PaysAt(measure, gains, costs, n);
      forall i | 0 <= i < n ensures PaysAt(measure', gains', costs', i) {
        assert PaysAt(measure, gains, costs, i);
      }
      GainsArePaidFor(measure', gains', costs');
    }
  }

  /** What is to come, state by state. */
  ghost function Measure(p: Platform, states: seq<State>, k: Key): seq<nat> {
    seq(|states|, i requires 0 <= i < |states| => ToCome(p, states[i], k))
  }

  lemma StretchPays(p: Platform, states: seq<State>, actions: seq<Action>, k: Key, i: nat)
    requires HealthyStretch(p, states, actions, k) && i < |actions|
    ensures PaysAt(Measure(p, states, k), AdmissionBits(actions, k), Costs(states, actions, k), i)
  {
    StaysHealthy(p, states, actions, k, i);
    assert StepAt(p, states, actions, i);
    ToComeStep(p, states[i], actions[i], k);
  }

  /** However the workers are interleaved, a shoot is reconciled at most as often as was to come at the start and as
      others have disturbed it since. */
  lemma ReconcilesAreBounded(p: Platform, states: seq<State>, actions: seq<Action>, k: Key)
    requires HealthyStretch(p, states, actions, k)
    ensures Admissions(actions, k) + ToCome(p, states[|actions|], k)
            <= ToCome(p, states[0], k) + Disturbances(states, actions, k)
  {
    var measure, gains, costs := Measure(p, states, k), AdmissionBits(actions, k), Costs(states, actions, k);
    forall i | 0 <= i < |actions| ensures PaysAt(measure, gains, costs, i) {
      StretchPays(p, states, actions, k, i);
    }
    GainsArePaidFor(measure, gains, costs);
  }

  ghost predicate SettledInSync(p: Platform, s: State, k: Key) {
    && Settled(s, k)
    && !OutOfSync(p, k, Find(s.garden.shoots, k), Find(s.garden.states, k), Find(s.garden.configMaps, ConfigMapKey(k)))
  }

  /** Nothing is to come for a shoot that is not in flight exactly when it is settled and in sync. */
  lemma NothingToComeExactly(p: Platform, s: State, k: Key)
    requires k !in s.workers
    ensures ToCome(p, s, k) == 0 <==> SettledInSync(p, s, k)
  {
  }

  /** A settled shoot in sync is reconciled no more often than others disturb it; and a shoot that has been reconciled
      as often as the bound allows, and is not in flight, is settled and in sync. */
  lemma SpentBoundMeansInSync(p: Platform, states: seq<State>, actions: seq<Action>, k: Key)
    requires HealthyStretch(p, states, actions, k)
    ensures
      var s, s' := states[0], states[|actions|];
      && (k !in s.workers && SettledInSync(p, s, k) ==> Admissions(actions, k) <= Disturbances(states, actions, k))
      && (k !in s'.workers && Admissions(actions, k) == ToCome(p, s, k) + Disturbances(states, actions, k) ==>
            SettledInSync(p, s', k))
  {
    ReconcilesAreBounded(p, states, actions, k);
    if k !in states[0].workers {
      NothingToComeExactly(p, states[0], k);
    }
    if k !in states[|actions|].workers {
      NothingToComeExactly(p, states[|actions|], k);
    }
  }

  // No reconcile goes on for ever

  /** A step of the reconcile of k, successful or not, or its end. */
  predicate Works(a: Action, k: Key) {
    (a.Proceed? || a.Fail? || a.Finish?) && a.key == k
  }

  function WorkBits(actions: seq<Action>, k: Key): seq<nat> {
    seq(|actions|, i requires 0 <= i < |actions| => Bit(Works(actions[i], k)))
  }

  function WorkSteps(actions: seq<Action>, k: Key): nat {
    Sum(WorkBits(actions, k))
  }

  /** How many more steps the reconcile in flight may take. */
  function WorkLeft(s: State, k: Key): nat {
    if k in s.workers then Rank(s.workers[k]) else 0
  }

  function WorkMeasure(states: seq<State>, k: Key): seq<nat> {
    seq(|states|, i requires 0 <= i < |states| => WorkLeft(states[i], k))
  }

  lemma OwnWorkStep(p: Platform, s: State, a: Action, k: Key)
    requires Enabled(p, s, a) && (Works(a, k) || a == Admit(k))
    ensures WorkLeft(Next(p, s, a), k) + Bit(Works(a, k)) <= WorkLeft(s, k) + 6 * Bit(a == Admit(k))
  {
    match a
    case Proceed(_, _) =>
    case Fail(_, _) =>
    case Finish(_) =>
    case Admit(_) =>
  }

  lemma WorkStep(p: Platform, s: State, a: Action, k: Key)
    requires Enabled(p, s, a)
    ensures WorkLeft(Next(p, s, a), k) + Bit(Works(a, k)) <= WorkLeft(s, k) + 6 * Bit(a == Admit(k))
  {
    if Works(a, k) || a == Admit(k) {
      OwnWorkStep(p, s, a, k);
    } else if a.Proceed? || a.Fail? || a.Finish? || a.Admit? {
      OtherWorkersKeepWork(p, s, a, k);
      assert Find(Next(p, s, a).workers, k) == Find(s.workers, k);
    } else {
      OnlyWorkersMove(p, s, a);
    }
  }

  function Scaled(factor: nat, costs: seq<nat>): seq<nat> {
    seq(|costs|, i requires 0 <= i < |costs| => factor * costs[i])
  }

  lemma {:induction false} SumOfScaled(factor: nat, costs: seq<nat>)
    ensures Sum(Scaled(factor, costs)) == factor * Sum(costs)
  {
    if costs == [] {
    } else {
      var n := |costs| - 1;
      SumOfScaled(factor, costs[..n]);
      assert Scaled(factor, costs)[..n] == Scaled(factor, costs[..n]);
    }
  }

  lemma WorkStepPays(p: Platform, states: seq<State>, actions: seq<Action>, k: Key, i: nat)
    requires IsStretch(p, states, actions) && i < |actions|
    ensures PaysAt(WorkMeasure(states, k), WorkBits(actions, k), Scaled(6, AdmissionBits(actions, k)), i)
  {
    assert StepAt(p, states, actions, i);
    WorkStep(p, states[i], actions[i], k);
  }

  /** In any stretch of a run, a shoot's reconciles take at most six steps per admission, besides those that were left
      to the one in flight at the start. */
  lemma WorkIsBounded(p: Platform, states: seq<State>, actions: seq<Action>, k: Key)
    requires IsStretch(p, states, actions)
    ensures WorkSteps(actions, k) + WorkLeft(states[|actions|], k)
            <= WorkLeft(states[0], k) + 6 * Admissions(actions, k)
  {
    var measure, gains, costs := WorkMeasure(states, k), WorkBits(actions, k), Scaled(6, AdmissionBits(actions, k));
    forall i | 0 <= i < |actions| ensures PaysAt(measure, gains, costs, i) {
      WorkStepPays(p, states, actions, k, i);
    }
    GainsArePaidFor(measure, gains, costs);
    SumOfScaled(6, AdmissionBits(actions, k));
  }

  /** So the work for a shoot is bounded by what was to come and by how often others disturb it. */
  lemma WorkIsPaidFor(p: Platform, states: seq<State>, actions: seq<Action>, k: Key)
    requires HealthyStretch(p, states, actions, k)
    ensures WorkSteps(actions, k)
            <= WorkLeft(states[0], k) + 6 * (ToCome(p, states[0], k) + Disturbances(states, actions, k))
  {
    WorkIsBounded(p, states, actions, k);
    ReconcilesAreBounded(p, states, actions, k);
  }

  // There is always a next step

  /** A step of the controller itself: a handler, a short timer or a worker. */
  predicate ControllerStep(a: Action) {
    a.Deliver? || a.Retry? || a.Admit? || a.Reject? || a.Proceed? || a.Finish?
  }

  lemma {:induction false} SomeOrder(keys: set<Key>) returns (names: seq<Key>)
    ensures Distinct(names) && forall k :: k in names <==> k in keys
  {
    if keys == {} {
      names := [];
    } else {
      var k :| k in keys;
      var rest := SomeOrder(keys - {k});
      names := [k] + rest;
    }
  }

  lemma WorkerCanMove(p: Platform, s: State, k: Key) returns (a: Action)
    requires k in s.workers
    ensures Enabled(p, s, a) && ControllerStep(a)
  {
    if s.workers[k].Done? {
      a := Finish(k);
    } else {
      var names := SomeOrder(set n | n in s.garden.quotas && n.namespace == k.namespace);
      assert IsListing(s.garden, k.namespace, names);
      a := Proceed(k, names);
    }
  }

  /** As long as a shoot is not settled, the controller can take a step. */
  lemma UnsettledIsEnabled(p: Platform, s: State, k: Key) returns (a: Action)
    requires p.maxConcurrentReconciles >= 1
    requires !Settled(s, k)
    ensures Enabled(p, s, a) && ControllerStep(a)
  {
    if ShootEvent(k) in s.inbox {
      a := Deliver(ShootEvent(k), true);
    } else if QuotaEvent(k.namespace) in s.inbox {
      a := Deliver(QuotaEvent(k.namespace), true);
    } else if k in s.retries {
      a := Retry(k);
    } else if j :| j in s.workers {
      a := WorkerCanMove(p, s, j);
    } else {
      assert s.workers == map[];
      a := if CountOf(s.counts, k.namespace) < s.limit then Admit(k) else Reject(k);
    }
  }

  /** A run that has come to rest, with no step left for the controller, has left every shoot with the right ConfigMap
      or with a quota that refuses it. */
  lemma AtRestAllIsRight(p: Platform, states: seq<State>, actions: seq<Action>, k: Key)
    requires PermittedRun(p, states, actions)
    requires p.maxConcurrentReconciles >= 1
    requires forall a :: Enabled(p, states[|actions|], a) ==> !ControllerStep(a)
    ensures
      var g, c := states[|actions|].garden, ConfigMapKey(k);
      && (k !in g.shoots || k !in g.states ==> c !in g.configMaps)
      && (k in g.shoots && k in g.states && Desired(p, k, g.shoots[k], g.states[k]).Some? ==>
            if c in g.configMaps then InSync(g.configMaps[c], Desired(p, k, g.shoots[k], g.states[k]).value)
            else SomeRefuses(g, k.namespace))
  {
    var s := states[|actions|];
    if !Settled(s, k) {
      var a := UnsettledIsEnabled(p, s, k);
    } else {
      Convergence.Convergence(p, states, actions, |actions|, k);
    }
  }
}
