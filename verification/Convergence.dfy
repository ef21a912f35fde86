// Every state without pending work for a shoot has the right ConfigMap for it, in every run.
module Convergence {
  import opened Objects
  import opened Quota
  import opened Rendering
  import opened Handling
  import opened QuotaWatch
  import opened System

  // What the other actors may not do

  /** The shoot a kubeconfig ConfigMap is named after. */
  function ShootName(c: Key): Option<string> {
    var n := |c.name| - |KUBECONFIG_SUFFIX|;
    if n >= 0 && c.name[n..] == KUBECONFIG_SUFFIX then Some(c.name[..n]) else None
  }

  /** A ConfigMap with the name of a kubeconfig is owned by the shoot of that name. */
  predicate WellOwned(c: Key, cm: ConfigMap) {
    ShootName(c).Some? ==> cm.owner.Some? && cm.owner.value.name == ShootName(c).value
  }

  lemma ShootNameOfConfigMapKey(k: Key)
    ensures ShootName(ConfigMapKey(k)) == Some(k.name)
  {
    var c := ConfigMapKey(k);
    assert c.name[|k.name|..] == KUBECONFIG_SUFFIX;
    assert c.name[..|k.name|] == k.name;
  }

  /** A reconcile of k is certain to start without a long timer. */
  predicate Pending(s: State, k: Key) {
    k in s.queue || k in s.retries || ShootEvent(k) in s.inbox
  }

  /** The gate refuses a ConfigMap in the namespace because of a quota there. */
  ghost predicate SomeRefuses(g: Garden, namespace: string) {
    SomeAnswers(g, namespace, Insufficient)
  }

  /** The same, apart from one quota. */
  ghost predicate AnotherRefuses(g: Garden, n: Key) {
    exists m :: m in g.quotas && m != n && m.namespace == n.namespace && VerdictOf(g.quotas[m]) == Insufficient
  }

  /** The updates that the filters lose, foreign owners and failing lists are excluded where they do harm, nothing
      else: a lost update of a shoot is made up for by a pending reconcile of it, and lost news about quotas by more
      such news or by a quota that refuses anyway. */
  ghost predicate Permitted(p: Platform, s: State, a: Action) {
    var g := s.garden;
    match a
    case PutShoot(k, shoot) => k in g.shoots && LossyShootUpdate(p, g.shoots[k], shoot) ==> Pending(s, k)
    case PutState(k, state) => k in g.states && LossyStateUpdate(g.states[k], state) ==> Pending(s, k)
    case PutConfigMap(c, cm) => WellOwned(c, cm)
    case PutQuota(n, quota) =>
      n in g.quotas && LossyQuotaUpdate(g.quotas[n], quota) ==>
        QuotaEvent(n.namespace) in s.inbox || AnotherRefuses(g, n)
    case Deliver(e, listed) =>
      e.QuotaEvent? && !listed ==> s.inbox[e] > 1 || SomeRefuses(g, e.namespace)
    case _ => true
  }

  // One shoot's part of a state

  datatype View = View(shoot: Option<Shoot>, state: Option<ShootState>, configMap: Option<ConfigMap>, blocked: bool)

  /** A quota of the namespace refuses, or news about the quotas of the namespace is on its way. */
  ghost predicate Blocked(s: State, namespace: string) {
    SomeRefuses(s.garden, namespace) || QuotaEvent(namespace) in s.inbox
  }

  ghost function ViewOf(s: State, k: Key): View {
    View(Find(s.garden.shoots, k), Find(s.garden.states, k), Find(s.garden.configMaps, ConfigMapKey(k)),
         Blocked(s, k.namespace))
  }

  function Wanted(p: Platform, k: Key, v: View): Option<string> {
    if v.shoot.Some? && v.state.Some? then Desired(p, k, v.shoot.value, v.state.value) else None
  }

  /** The shoot waits for quota, and rightly so. */
  predicate Parked(v: View) {
    v.shoot.Some? && v.configMap.None? && v.blocked
  }

  /** There is no ConfigMap without Shoot and ShootState; with both it is there unless the shoot has no
      addresses or a quota stands in the way; and if a kubeconfig can be rendered it carries that one. */
  predicate Correct(p: Platform, k: Key, v: View) {
    && (v.shoot.None? || v.state.None? ==> v.configMap.None?)
    && (v.shoot.Some? && v.state.Some? ==>
          && (v.configMap.None? && v.shoot.value.addresses != [] ==> Parked(v))
          && (v.configMap.Some? && Wanted(p, k, v).Some? ==> InSync(v.configMap.value, Wanted(p, k, v).value)))
  }

  /** A copy of the shoot is as good as the shoot itself. */
  predicate Matches(p: Platform, shoot: Shoot, v: View) {
    && v.shoot.Some?
    && v.shoot.value.addresses == shoot.addresses
    && (p.legacyVersion(v.shoot.value.version).Some? ==>
          p.legacyVersion(shoot.version) == p.legacyVersion(v.shoot.value.version))
  }

  /** What a reconcile knows in a phase still holds. */
  predicate Sound(p: Platform, k: Key, v: View, phase: Phase) {
    match phase
    case ReadShoot => true
    case ReadConfigMap(shoot) => Matches(p, shoot, v)
    case ListQuotas(shoot) => Matches(p, shoot, v) && v.configMap.None?
    case ReadState(shoot, _) => Matches(p, shoot, v)
    case Write(_, _, kubeconfig) =>
      v.shoot.Some? && v.state.Some? && (Wanted(p, k, v).Some? ==> Wanted(p, k, v) == Some(kubeconfig))
    case Delete => v.shoot.None? || v.state.None?
    case Done(Success) => Correct(p, k, v)
    case Done(QuotaExceeded) => Parked(v)
    case Done(AwaitingAddresses) => v.shoot.Some? && v.state.Some? && v.shoot.value.addresses == []
    case Done(Failed) => true
  }

  /** A shoot with work pending may be in any state; otherwise its reconcile, if any, is sound, and else it is
      settled correctly. */
  ghost predicate KeyInv(p: Platform, s: State, k: Key) {
    || Pending(s, k)
    || (if k in s.workers then Sound(p, k, ViewOf(s, k), s.workers[k])
        else
          && Correct(p, k, ViewOf(s, k))
          && (Find(s.last, k) == Some(QuotaExceeded) ==> Parked(ViewOf(s, k))))
  }

  ghost predicate AllOwned(s: State) {
    forall c | c in s.garden.configMaps :: WellOwned(c, s.garden.configMaps[c])
  }

  // Changes that do not wake the controller

  predicate QuietUpdate<T(==)>(old': Option<T>, new': Option<T>, dropped: (T, T) -> bool) {
    old' == new' || (old'.Some? && new'.Some? && dropped(old'.value, new'.value))
  }

  /** How the view of a shoot can change while no work is pending for it. */
  predicate Quiet(p: Platform, v: View, v': View) {
    && QuietUpdate(v.shoot, v'.shoot, (a, b) => !ShootUpdatePasses(a, b) && !LossyShootUpdate(p, a, b))
    && QuietUpdate(v.state, v'.state, (a, b) => !ShootStateUpdatePasses(a, b) && !LossyStateUpdate(a, b))
    && QuietUpdate(v.configMap, v'.configMap, (a, b) => !ConfigMapUpdatePasses(a, b))
    && (Parked(v) ==> v'.blocked)
  }

  /** If a kubeconfig can be rendered after a quiet change, the same one could be before. */
  lemma QuietKeepsWanted(p: Platform, k: Key, v: View, v': View)
    requires Quiet(p, v, v')
    ensures Wanted(p, k, v').Some? ==> Wanted(p, k, v) == Wanted(p, k, v')
  {
    if Wanted(p, k, v').Some? {
      var shoot, state, shoot', state' := v.shoot.value, v.state.value, v'.shoot.value, v'.state.value;
      if shoot != shoot' {
        DroppedShootUpdate(p, k, shoot, shoot', state');
      }
      if state != state' {
        DroppedStateUpdateExactly(p, k, shoot, state, state');
      }
    }
  }

  lemma QuietKeepsSync(p: Platform, v: View, v': View, kubeconfig: string)
    requires Quiet(p, v, v') && v.configMap.Some?
    ensures v'.configMap.Some? && (InSync(v.configMap.value, kubeconfig) <==> InSync(v'.configMap.value, kubeconfig))
  {
    ConfigMapFilterIsExact(v.configMap.value, v'.configMap.value);
  }

  lemma QuietKeepsCorrect(p: Platform, k: Key, v: View, v': View)
    requires Quiet(p, v, v')
    ensures Correct(p, k, v) ==> Correct(p, k, v')
    ensures Parked(v) ==> Parked(v')
  {
    QuietKeepsWanted(p, k, v, v');
    if v.configMap.Some? && Wanted(p, k, v').Some? {
      QuietKeepsSync(p, v, v', Wanted(p, k, v').value);
    }
  }

  lemma QuietKeepsSound(p: Platform, k: Key, v: View, v': View, phase: Phase)
    requires Quiet(p, v, v') && Sound(p, k, v, phase)
    ensures Sound(p, k, v', phase)
  {
    QuietKeepsWanted(p, k, v, v');
    QuietKeepsCorrect(p, k, v, v');
  }

  // The steps of the system, from the point of view of one shoot

  /** Between two states, k has got work pending, or nothing has happened to it but a quiet change. */
  ghost predicate Undisturbed(p: Platform, s: State, s': State, k: Key) {
    || Pending(s', k)
    || (&& Quiet(p, ViewOf(s, k), ViewOf(s', k))
        && Find(s.workers, k) == Find(s'.workers, k)
        && Find(s.last, k) == Find(s'.last, k))
  }

  lemma ShootChangeIsQuiet(p: Platform, s: State, j: Key, shoots: map<Key, Shoot>, news: multiset<Event>, k: Key)
    requires forall d | d != j :: Find(shoots, d) == Find(s.garden.shoots, d)
    requires j == k ==>
               || ShootEvent(k) in news
               || QuietUpdate(Find(s.garden.shoots, k), Find(shoots, k),
                              (a, b) => !ShootUpdatePasses(a, b) && !LossyShootUpdate(p, a, b))
    ensures Undisturbed(p, s, s.(garden := s.garden.(shoots := shoots), inbox := s.inbox + news), k)
  {
  }

  lemma StateChangeIsQuiet(p: Platform, s: State, j: Key, states: map<Key, ShootState>, news: multiset<Event>, k: Key)
    requires forall d | d != j :: Find(states, d) == Find(s.garden.states, d)
    requires j == k ==>
               || ShootEvent(k) in news
               || QuietUpdate(Find(s.garden.states, k), Find(states, k),
                              (a, b) => !ShootStateUpdatePasses(a, b) && !LossyStateUpdate(a, b))
    ensures Undisturbed(p, s, s.(garden := s.garden.(states := states), inbox := s.inbox + news), k)
  {
  }

  lemma ShootStepsAreQuiet(p: Platform, s: State, a: Action, k: Key)
    requires Enabled(p, s, a) && Permitted(p, s, a)
    requires a.PutShoot? || a.RemoveShoot? || a.PutState? || a.RemoveState?
    requires !Pending(s, k)
    ensures Undisturbed(p, s, Next(p, s, a), k)
  {
    var shoots, states := s.garden.shoots, s.garden.states;
    match a
    case PutShoot(j, shoot) =>
      ShootChangeIsQuiet(p, s, j, shoots[j := shoot], ShootEvents(j, Find(shoots, j), shoot), k);
    case RemoveShoot(j) =>
      ShootChangeIsQuiet(p, s, j, shoots - {j}, multiset{ShootEvent(j)}, k);
    case PutState(j, state) =>
      StateChangeIsQuiet(p, s, j, states[j := state], StateEvents(j, Find(states, j), state), k);
    case RemoveState(j) =>
      StateChangeIsQuiet(p, s, j, states - {j}, multiset{ShootEvent(j)}, k);
  }

  /** A change of a ConfigMap with the proper owner reaches the shoot or is dropped. */
  lemma ConfigMapEventsReachShoot(k: Key, old': Option<ConfigMap>, new': Option<ConfigMap>)
    requires old'.Some? ==> WellOwned(ConfigMapKey(k), old'.value)
    requires new'.Some? ==> WellOwned(ConfigMapKey(k), new'.value)
    ensures
      || ShootEvent(k) in ConfigMapEvents(k.namespace, old', new')
      || QuietUpdate(old', new', (a, b) => !ConfigMapUpdatePasses(a, b))
  {
    ShootNameOfConfigMapKey(k);
    assert old'.Some? ==> OwnerEvents(k.namespace, old') == {ShootEvent(k)};
    assert new'.Some? ==> OwnerEvents(k.namespace, new') == {ShootEvent(k)};
  }

  lemma ConfigMapStepsAreQuiet(p: Platform, s: State, c: Key, configMaps: map<Key, ConfigMap>, k: Key)
    requires forall d | d != c :: Find(configMaps, d) == Find(s.garden.configMaps, d)
    requires AllOwned(s) && (c in configMaps ==> WellOwned(c, configMaps[c]))
    ensures Undisturbed(p, s, WithConfigMaps(s, c, configMaps), k)
  {
    var s' := WithConfigMaps(s, c, configMaps);
    assert Blocked(s, k.namespace) ==> Blocked(s', k.namespace);
    if c == ConfigMapKey(k) {
      ConfigMapEventsReachShoot(k, Find(s.garden.configMaps, c), Find(configMaps, c));
    } else {
      SameObjectsAreQuiet(p, s, s', k);
    }
  }

  /** A change of one quota is quiet unless that quota alone refused, no longer does, and raises no event. */
  lemma OneQuotaIsQuiet(p: Platform, s: State, n: Key, quotas: map<Key, ResourceQuota>, news: multiset<Event>, k: Key)
    requires forall m | m != n :: Find(quotas, m) == Find(s.garden.quotas, m)
    requires n in s.garden.quotas && VerdictOf(s.garden.quotas[n]) == Insufficient ==>
               || QuotaEvent(n.namespace) in s.inbox + news
               || AnotherRefuses(s.garden, n)
               || (n in quotas && VerdictOf(quotas[n]) == Insufficient)
    ensures Undisturbed(p, s, s.(garden := s.garden.(quotas := quotas), inbox := s.inbox + news), k)
  {
    var g' := s.garden.(quotas := quotas);
    forall m | m != n && m in s.garden.quotas ensures m in quotas && quotas[m] == s.garden.quotas[m] {
      assert Find(quotas, m) == Find(s.garden.quotas, m);
    }
    assert SomeRefuses(s.garden, k.namespace) ==>
        SomeRefuses(g', k.namespace) || QuotaEvent(k.namespace) in s.inbox + news;
  }

  /** Whatever happens to a quota, a shoot that waits for quota keeps being blocked or is woken up. */
  lemma QuotaStepsAreQuiet(p: Platform, s: State, a: Action, k: Key)
    requires Enabled(p, s, a) && Permitted(p, s, a)
    requires a.PutQuota? || a.RemoveQuota?
    ensures Undisturbed(p, s, Next(p, s, a), k)
  {
    var quotas := s.garden.quotas;
    if a.RemoveQuota? {
      OneQuotaIsQuiet(p, s, a.key, quotas - {a.key}, multiset{QuotaEvent(a.key.namespace)}, k);
    } else {
      var news := QuotaEvents(a.key.namespace, Find(quotas, a.key), a.quota);
      if a.key in quotas && VerdictOf(quotas[a.key]) == Insufficient && news == multiset{} {
        LossyQuotaUpdateExactly(quotas[a.key], a.quota);
      }
      OneQuotaIsQuiet(p, s, a.key, quotas[a.key := a.quota], news, k);
    }
  }

  lemma DeliveriesAreQuiet(p: Platform, s: State, a: Action, k: Key)
    requires Enabled(p, s, a) && Permitted(p, s, a)
    requires a.Deliver? && !Pending(s, k)
    ensures Undisturbed(p, s, Next(p, s, a), k)
  {
    var s' := Next(p, s, a);
    if a.event == QuotaEvent(k.namespace) && a.listed {
      assert Parked(ViewOf(s, k)) ==> k in Awakened(s.garden, k.namespace);
    } else {
      assert Blocked(s, k.namespace) ==> Blocked(s', k.namespace);
    }
  }

  lemma OtherWorkersKeepObjects(p: Platform, s: State, a: Action, k: Key)
    requires Enabled(p, s, a)
    requires a.Proceed? || a.Fail? || a.Finish? || a.Admit?
    requires a.key != k
    ensures
      var g, g' := s.garden, Next(p, s, a).garden;
      && g'.shoots == g.shoots && g'.states == g.states && g'.quotas == g.quotas
      && Find(g'.configMaps, ConfigMapKey(k)) == Find(g.configMaps, ConfigMapKey(k))
  {
    if ConfigMapKey(a.key) == ConfigMapKey(k) {
      ConfigMapKeyInjective(a.key, k);
    }
  }

  lemma OtherWorkersKeepWork(p: Platform, s: State, a: Action, k: Key)
    requires Enabled(p, s, a)
    requires a.Proceed? || a.Fail? || a.Finish? || a.Admit?
    requires a.key != k
    ensures
      var s' := Next(p, s, a);
      && Find(s.workers, k) == Find(s'.workers, k)
      && Find(s.last, k) == Find(s'.last, k)
      && s.inbox <= s'.inbox
  {
  }

  lemma SameObjectsAreQuiet(p: Platform, s: State, s': State, k: Key)
    requires s'.garden.shoots == s.garden.shoots && s'.garden.states == s.garden.states
    requires s'.garden.quotas == s.garden.quotas
    requires Find(s'.garden.configMaps, ConfigMapKey(k)) == Find(s.garden.configMaps, ConfigMapKey(k))
    requires s.inbox <= s'.inbox
    ensures Quiet(p, ViewOf(s, k), ViewOf(s', k))
  {
  }

  lemma OtherWorkersAreQuiet(p: Platform, s: State, a: Action, k: Key)
    requires Enabled(p, s, a)
    requires a.Proceed? || a.Fail? || a.Finish? || a.Admit?
    requires a.key != k
    ensures Undisturbed(p, s, Next(p, s, a), k)
  {
    var s' := Next(p, s, a);
    OtherWorkersKeepObjects(p, s, a, k);
    OtherWorkersKeepWork(p, s, a, k);
    SameObjectsAreQuiet(p, s, s', k);
  }

  /** A step that does not advance the reconcile of k either leaves work pending for k or is quiet for k. */
  lemma OthersAreQuiet(p: Platform, s: State, a: Action, k: Key)
    requires Enabled(p, s, a) && Permitted(p, s, a) && AllOwned(s)
    requires a.Proceed? || a.Fail? || a.Finish? || a.Admit? ==> a.key != k
    requires !Pending(s, k)
    ensures Undisturbed(p, s, Next(p, s, a), k)
  {
    match a
    case PutShoot(_, _) => ShootStepsAreQuiet(p, s, a, k);
    case RemoveShoot(_) => ShootStepsAreQuiet(p, s, a, k);
    case PutState(_, _) => ShootStepsAreQuiet(p, s, a, k);
    case RemoveState(_) => ShootStepsAreQuiet(p, s, a, k);
    case PutConfigMap(c, cm) => ConfigMapStepsAreQuiet(p, s, c, s.garden.configMaps[c := cm], k);
    case RemoveConfigMap(c) => ConfigMapStepsAreQuiet(p, s, c, s.garden.configMaps - {c}, k);
    case PutQuota(_, _) => QuotaStepsAreQuiet(p, s, a, k);
    case RemoveQuota(_) => QuotaStepsAreQuiet(p, s, a, k);
    case Deliver(_, _) => DeliveriesAreQuiet(p, s, a, k);
    case InjectConfig(_) =>
    case Retry(_) =>
    case Elapse(_) =>
    case Reject(_) =>
    case _ => OtherWorkersAreQuiet(p, s, a, k);
  }

  /** Pending work stays pending until a worker takes it. */
  lemma PendingStays(p: Platform, s: State, a: Action, k: Key)
    requires Enabled(p, s, a) && a != Admit(k)
    requires Pending(s, k)
    ensures Pending(Next(p, s, a), k)
  {
  }

  /** A refusal by the quota gate means that the shoot rightly waits. */
  lemma RefusalBlocks(s: State, namespace: string, names: seq<Key>)
    requires IsListing(s.garden, namespace, names)
    requires Gate(QuotasOf(s.garden, names)) == Insufficient
    ensures Blocked(s, namespace)
  {
    var quotas := QuotasOf(s.garden, names);
    GateDecidedByFirst(quotas);
    var i :| 0 <= i < |quotas| && Denies(quotas[i]) && Gate(quotas) == VerdictOf(quotas[i]);
    assert names[i] in names;
  }

  lemma StateIsRead(p: Platform, k: Key, v: View, shoot: Shoot, base: ConfigMap)
    requires Matches(p, shoot, v)
    ensures Sound(p, k, v, if v.state.Some? then WithState(p, k, shoot, base, v.state.value) else Delete)
  {
    if v.state.Some? && shoot.addresses != [] && Wanted(p, k, v).Some? {
      assert Desired(p, k, shoot, v.state.value) == Wanted(p, k, v);
    }
  }

  lemma WriteIsSound(p: Platform, k: Key, v: View, v': View, shoot: Shoot, base: ConfigMap, kubeconfig: string)
    requires Sound(p, k, v, Write(shoot, base, kubeconfig))
    requires v'.shoot == v.shoot && v'.state == v.state
    requires v'.configMap == Some(Mutate(v.configMap.GetOr(base), k, shoot, kubeconfig))
    ensures Correct(p, k, v')
  {
  }

  /** Each step of a reconcile that knows what holds knows what holds afterwards. */
  lemma ProceedIsSound(p: Platform, s: State, k: Key, names: seq<Key>)
    requires Enabled(p, s, Proceed(k, names))
    requires Sound(p, k, ViewOf(s, k), s.workers[k])
    ensures
      var s' := Next(p, s, Proceed(k, names));
      Sound(p, k, ViewOf(s', k), s'.workers[k])
  {
    var s' := Next(p, s, Proceed(k, names));
    var v, v' := ViewOf(s, k), ViewOf(s', k);
    assert Blocked(s, k.namespace) ==> Blocked(s', k.namespace);
    match s.workers[k]
    case ListQuotas(shoot) =>
      if Gate(QuotasOf(s.garden, names)) == Insufficient {
        RefusalBlocks(s, k.namespace, names);
      }
    case ReadState(shoot, base) => StateIsRead(p, k, v', shoot, base);
    case Write(shoot, base, kubeconfig) => WriteIsSound(p, k, v, v', shoot, base, kubeconfig);
    case _ =>
  }

  lemma OwnStepsAreSound(p: Platform, s: State, a: Action, k: Key)
    requires Enabled(p, s, a) && (a.Fail? || a.Finish? || a.Admit?) && a.key == k
    requires KeyInv(p, s, k)
    ensures KeyInv(p, Next(p, s, a), k)
  {
  }

  /** The invariant of every single shoot is kept by every step. */
  lemma KeyInvStep(p: Platform, s: State, a: Action, k: Key)
    requires Enabled(p, s, a) && Permitted(p, s, a) && AllOwned(s)
    requires KeyInv(p, s, k)
    ensures KeyInv(p, Next(p, s, a), k)
  {
    if (a.Fail? || a.Finish? || a.Admit?) && a.key == k {
      OwnStepsAreSound(p, s, a, k);
    } else if Pending(s, k) {
      PendingStays(p, s, a, k);
    } else if a.Proceed? && a.key == k {
      ProceedIsSound(p, s, k, a.names);
    } else {
      OthersAreQuiet(p, s, a, k);
      QuietKeepsInvariant(p, s, Next(p, s, a), k);
    }
  }

  lemma QuietKeepsInvariant(p: Platform, s: State, s': State, k: Key)
    requires KeyInv(p, s, k) && !Pending(s, k) && Undisturbed(p, s, s', k)
    ensures KeyInv(p, s', k)
  {
    if !Pending(s', k) {
      QuietKeepsCorrect(p, k, ViewOf(s, k), ViewOf(s', k));
      if k in s.workers {
        QuietKeepsSound(p, k, ViewOf(s, k), ViewOf(s', k), s.workers[k]);
      }
    }
  }

  lemma AllOwnedStep(p: Platform, s: State, a: Action)
    requires Enabled(p, s, a) && Permitted(p, s, a) && AllOwned(s)
    ensures AllOwned(Next(p, s, a))
  {
    if a.Proceed? || a.Fail? {
      ShootNameOfConfigMapKey(a.key);
      AdvanceKeepsOwners(p, s, a.key, s.workers[a.key], if a.Proceed? then a.names else []);
    }
  }

  lemma AdvanceKeepsOwners(p: Platform, s: State, k: Key, phase: Phase, names: seq<Key>)
    requires AllOwned(s)
    requires phase.ListQuotas? ==> forall n <- names :: n in s.garden.quotas
    ensures
      var configMaps := Advance(p, s.garden, k, phase, names).1.configMaps;
      forall c | c in configMaps :: WellOwned(c, configMaps[c])
  {
    ShootNameOfConfigMapKey(k);
  }

  // Runs

  ghost predicate PermittedRun(p: Platform, states: seq<State>, actions: seq<Action>) {
    && IsRun(p, states, actions)
    && AllOwned(states[0])
    && forall i | 0 <= i < |actions| :: Permitted(p, states[i], actions[i])
  }

  lemma {:induction false} InvariantHolds(p: Platform, states: seq<State>, actions: seq<Action>, i: nat, k: Key)
    requires PermittedRun(p, states, actions) && i < |states|
    ensures AllOwned(states[i]) && KeyInv(p, states[i], k)
    decreases i
  {
    if i > 0 {
      InvariantHolds(p, states, actions, i - 1, k);
      assert StepAt(p, states, actions, i - 1);
      AllOwnedStep(p, states[i-1], actions[i-1]);
      KeyInvStep(p, states[i-1], actions[i-1], k);
    } else {
      InitialInvariant(p, states[0], k);
    }
  }

  lemma InitialInvariant(p: Platform, s: State, k: Key)
    requires Init(s) && AllOwned(s)
    ensures KeyInv(p, s, k)
  {
    ShootNameOfConfigMapKey(k);
    var c := ConfigMapKey(k);
    if c in s.garden.configMaps {
      assert ShootEvent(k) in OwnerEvents(c.namespace, Some(s.garden.configMaps[c]));
    }
  }

  /** No work is pending for k, and none is in flight. */
  predicate Idle(s: State, k: Key) {
    !Pending(s, k) && k !in s.workers
  }

  /** Nothing but a long timer would make k run again, and no news about quotas of its namespace is on its way. */
  predicate Settled(s: State, k: Key) {
    Idle(s, k) && QuotaEvent(k.namespace) !in s.inbox
  }

  /** In every reachable state, an idle shoot has the ConfigMap it should have, or a quota of its namespace refuses
      it, or news about the quotas is on its way. The long timers are not needed for that. */
  lemma Convergence(p: Platform, states: seq<State>, actions: seq<Action>, i: nat, k: Key)
    requires PermittedRun(p, states, actions) && i < |states|
    requires Idle(states[i], k)
    ensures
      var g, c := states[i].garden, ConfigMapKey(k);
      && (k !in g.shoots || k !in g.states ==> c !in g.configMaps)
      && (k in g.shoots && k in g.states && c in g.configMaps && Desired(p, k, g.shoots[k], g.states[k]).Some? ==>
            InSync(g.configMaps[c], Desired(p, k, g.shoots[k], g.states[k]).value))
      && (k in g.shoots && k in g.states && c !in g.configMaps && g.shoots[k].addresses != [] ==>
            SomeRefuses(g, k.namespace) || QuotaEvent(k.namespace) in states[i].inbox)
  {
    InvariantHolds(p, states, actions, i, k);
  }

  /** In every reachable state, a shoot whose latest reconcile was refused by the quota gate, and which is idle since,
      still lacks its ConfigMap, and would be refused again unless news about the quotas is on its way. */
  lemma NoLostQuotaWakeUp(p: Platform, states: seq<State>, actions: seq<Action>, i: nat, k: Key)
    requires PermittedRun(p, states, actions) && i < |states|
    requires Idle(states[i], k) && Find(states[i].last, k) == Some(QuotaExceeded)
    ensures
      var g := states[i].garden;
      && k in g.shoots && ConfigMapKey(k) !in g.configMaps
      && (QuotaEvent(k.namespace) !in states[i].inbox ==>
            exists n :: n in g.quotas && n.namespace == k.namespace && VerdictOf(g.quotas[n]) == Insufficient)
  {
    InvariantHolds(p, states, actions, i, k);
  }

  /** So in every reachable state, an idle shoot for which a kubeconfig can be rendered has a ConfigMap that gives
      access to it, or none because of the quota. */
  lemma IdleShootsAreAccessible(p: Platform, states: seq<State>, actions: seq<Action>, i: nat, k: Key)
    requires PermittedRun(p, states, actions) && i < |states|
    requires Idle(states[i], k)
    ensures
      var g, c := states[i].garden, Key(k.namespace, k.name + ".kubeconfig");
      k in g.shoots && k in g.states && Renderable(p, k, g.shoots[k], g.states[k]) ==>
        if c in g.configMaps then GivesAccess(p, k, g.shoots[k], g.states[k], g.configMaps[c])
        else SomeRefuses(g, k.namespace) || QuotaEvent(k.namespace) in states[i].inbox
  {
    Convergence(p, states, actions, i, k);
    var g, c := states[i].garden, ConfigMapKey(k);
    if k in g.shoots && k in g.states && Renderable(p, k, g.shoots[k], g.states[k]) {
      RenderableExactly(p, k, g.shoots[k], g.states[k]);
      if c in g.configMaps {
        InSyncGivesAccess(p, k, g.shoots[k], g.states[k], g.configMaps[c]);
      }
    }
  }

  // Safety net

  /** A reconcile of k will start sooner or later, if only when a long timer elapses. */
  predicate Remembered(s: State, k: Key) {
    k in s.workers || k in s.queue || k in s.retries || k in s.delays
  }

  lemma RememberedStep(p: Platform, s: State, a: Action, k: Key)
    requires Enabled(p, s, a)
    requires k in s.last && s.last[k] != Success ==> Remembered(s, k)
    ensures
      var s' := Next(p, s, a);
      k in s'.last && s'.last[k] != Success ==> Remembered(s', k)
  {
    match a
    case Proceed(_, _) =>
    case Fail(_, _) =>
    case Finish(_) =>
    case _ =>
  }

  /** In every run, also where events are lost, a shoot whose latest reconcile did not succeed is never given up. */
  lemma {:induction false} NeverAbandoned(p: Platform, states: seq<State>, actions: seq<Action>, i: nat, k: Key)
    requires IsRun(p, states, actions) && i < |states|
    ensures k in states[i].last && states[i].last[k] != Success ==> Remembered(states[i], k)
    decreases i
  {
    if i == 0 {
    } else {
      NeverAbandoned(p, states, actions, i - 1, k);
      assert StepAt(p, states, actions, i - 1);
      RememberedStep(p, states[i-1], actions[i-1], k);
    }
  }
}
