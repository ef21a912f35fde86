// What breaking each condition of convergence costs, and exactly when: from a settled state, which of the
// changes that wake nobody leave the shoot settled with the wrong ConfigMap. An unreadable version or
// certificate and a change of the owner do no harm themselves but hide the change that follows.
module Necessity {
  import opened Objects
  import opened Kubeconfig
  import opened Quota
  import opened Rendering
  import opened Handling
  import opened QuotaWatch
  import opened System
  import opened Convergence

  /** Settled, with everything there and the ConfigMap in sync. */
  ghost predicate InSyncAndSettled(p: Platform, s: State, k: Key) {
    var g, c := s.garden, ConfigMapKey(k);
    && Settled(s, k)
    && k in g.shoots && k in g.states && c in g.configMaps
    && Desired(p, k, g.shoots[k], g.states[k]).Some?
    && InSync(g.configMaps[c], Desired(p, k, g.shoots[k], g.states[k]).value)
  }

  /** A new version with the same addresses wakes nobody, and leaves the ConfigMap right exactly when the version
      class stays. */
  lemma VersionUpdateIsHarmlessExactly(p: Platform, s: State, k: Key, shoot: Shoot)
    requires EncodesInjectively(p) && InSyncAndSettled(p, s, k)
    requires shoot.addresses == s.garden.shoots[k].addresses
    requires Desired(p, k, shoot, s.garden.states[k]).Some?
    ensures
      var s' := Next(p, s, PutShoot(k, shoot));
      && Settled(s', k)
      && (Correct(p, k, ViewOf(s', k)) <==>
          p.legacyVersion(shoot.version) == p.legacyVersion(s.garden.shoots[k].version))
  {
    DroppedShootUpdateExactly(p, k, s.garden.shoots[k], shoot, s.garden.states[k]);
  }

  lemma DroppedShootUpdateSettles(p: Platform, s: State, k: Key, shoot: Shoot)
    requires Settled(s, k) && k in s.garden.shoots
    requires shoot.addresses == s.garden.shoots[k].addresses
    ensures
      var s' := Next(p, s, PutShoot(k, shoot));
      && Settled(s', k)
      && s'.garden == s.garden.(shoots := s.garden.shoots[k := shoot])
  {
  }

  /** A version replaced by way of an unreadable one wakes nobody, and leaves the ConfigMap right exactly when the
      version class is the same again. */
  lemma UnreadableVersionIsHarmlessExactly(p: Platform, s: State, k: Key, unreadable: Shoot, shoot: Shoot)
    requires EncodesInjectively(p) && InSyncAndSettled(p, s, k)
    requires unreadable.addresses == s.garden.shoots[k].addresses == shoot.addresses
    requires p.legacyVersion(unreadable.version).None?
    requires Desired(p, k, shoot, s.garden.states[k]).Some?
    ensures
      var s' := Next(p, s, PutShoot(k, unreadable));
      var s'' := Next(p, s', PutShoot(k, shoot));
      && Settled(s', k) && Correct(p, k, ViewOf(s', k))
      && Settled(s'', k)
      && (Correct(p, k, ViewOf(s'', k)) <==>
          p.legacyVersion(shoot.version) == p.legacyVersion(s.garden.shoots[k].version))
  {
    DroppedShootUpdateExactly(p, k, s.garden.shoots[k], shoot, s.garden.states[k]);
    DroppedShootUpdateSettles(p, s, k, unreadable);
    DroppedShootUpdateSettles(p, Next(p, s, PutShoot(k, unreadable)), k, shoot);
  }

  /** With an injective encoding, different certificates mean different kubeconfigs. */
  lemma CertificateShows(p: Platform, k: Key, shoot: Shoot, a: ShootState, b: ShootState)
    requires EncodesInjectively(p)
    requires Desired(p, k, shoot, a).Some? && Desired(p, k, shoot, b).Some?
    ensures Desired(p, k, shoot, a) == Desired(p, k, shoot, b) <==> ClusterCaCert(a) == ClusterCaCert(b)
  {
    var caA, caB := ClusterCaCert(a).bytes, ClusterCaCert(b).bytes;
    var endpointsA := EndpointsOf(p, shoot.addresses, caA).value;
    var endpointsB := EndpointsOf(p, shoot.addresses, caB).value;
    var requestA, requestB := RequestOf(k, endpointsA, p.identity.value), RequestOf(k, endpointsB, p.identity.value);
    var legacy := p.legacyVersion(shoot.version).value;
    if Desired(p, k, shoot, a) == Desired(p, k, shoot, b) {
      assert Generate(requestA, legacy) == Generate(requestB, legacy);
      assert Generate(requestA, legacy).clusters[0].value.caCert == caA;
      assert Generate(requestB, legacy).clusters[0].value.caCert == caB;
    }
  }

  /** A certificate that is replaced by way of an unreadable entry wakes nobody, and leaves the ConfigMap right
      exactly when it is the same certificate again. */
  lemma UnreadableCertificateIsHarmlessExactly(p: Platform, s: State, k: Key, unreadable: ShootState, state: ShootState)
    requires EncodesInjectively(p) && InSyncAndSettled(p, s, k)
    requires ClusterCaCert(unreadable).Malformed?
    requires Desired(p, k, s.garden.shoots[k], state).Some?
    ensures
      var s' := Next(p, s, PutState(k, unreadable));
      var s'' := Next(p, s', PutState(k, state));
      && Settled(s'', k)
      && (Correct(p, k, ViewOf(s'', k)) <==> ClusterCaCert(state) == ClusterCaCert(s.garden.states[k]))
  {
    CertificateShows(p, k, s.garden.shoots[k], state, s.garden.states[k]);
    DroppedStateUpdateSettles(p, s, k, unreadable);
    var s' := Next(p, s, PutState(k, unreadable));
    DroppedStateUpdateSettles(p, s', k, state);
  }

  lemma DroppedStateUpdateSettles(p: Platform, s: State, k: Key, state: ShootState)
    requires Settled(s, k) && k in s.garden.states
    requires !ShootStateUpdatePasses(s.garden.states[k], state)
    ensures
      var s' := Next(p, s, PutState(k, state));
      && Settled(s', k)
      && s'.garden == s.garden.(states := s'.garden.states)
      && k in s'.garden.states && s'.garden.states[k] == state
  {
  }

  /** A ConfigMap that someone else creates under the name of a kubeconfig is noticed exactly when it names the
      shoot as its owner, and it is right exactly when there should be one and it carries the wanted kubeconfig. */
  lemma ForeignConfigMapIsNoticedExactly(p: Platform, s: State, k: Key, cm: ConfigMap)
    requires Settled(s, k) && ConfigMapKey(k) !in s.garden.configMaps
    ensures
      var g, s' := s.garden, Next(p, s, PutConfigMap(ConfigMapKey(k), cm));
      && (Settled(s', k) <==> !WellOwned(ConfigMapKey(k), cm))
      && (Correct(p, k, ViewOf(s', k)) <==>
          && k in g.shoots && k in g.states
          && (Desired(p, k, g.shoots[k], g.states[k]).Some? ==>
                InSync(cm, Desired(p, k, g.shoots[k], g.states[k]).value)))
  {
    ShootNameOfConfigMapKey(k);
    assert OwnerEvents(k.namespace, None) == {};
  }

  /** A change of the owner that keeps role and kubeconfig wakes nobody and leaves the ConfigMap right, but a later
      deletion is noticed exactly when the new owner is the shoot as well. */
  lemma OwnerChangeHidesDeletionExactly(p: Platform, s: State, k: Key, cm: ConfigMap)
    requires InSyncAndSettled(p, s, k) && !SomeRefuses(s.garden, k.namespace)
    requires !ConfigMapUpdatePasses(s.garden.configMaps[ConfigMapKey(k)], cm)
    ensures
      var c := ConfigMapKey(k);
      var s' := Next(p, s, PutConfigMap(c, cm));
      var s'' := Next(p, s', RemoveConfigMap(c));
      && Settled(s', k) && Correct(p, k, ViewOf(s', k))
      && (Settled(s'', k) <==> !WellOwned(c, cm))
      && !Correct(p, k, ViewOf(s'', k))
  {
    var c := ConfigMapKey(k);
    DroppedConfigMapUpdateSettles(p, s, k, cm);
    DeletionIsNoticedExactly(p, Next(p, s, PutConfigMap(c, cm)), k);
    ConfigMapFilterIsExact(s.garden.configMaps[c], cm);
  }

  lemma DroppedConfigMapUpdateSettles(p: Platform, s: State, k: Key, cm: ConfigMap)
    requires Settled(s, k) && ConfigMapKey(k) in s.garden.configMaps
    requires !ConfigMapUpdatePasses(s.garden.configMaps[ConfigMapKey(k)], cm)
    ensures
      var s' := Next(p, s, PutConfigMap(ConfigMapKey(k), cm));
      Settled(s', k) && s'.garden == s.garden.(configMaps := s.garden.configMaps[ConfigMapKey(k) := cm])
  {
  }

  lemma DeletionIsNoticedExactly(p: Platform, s: State, k: Key)
    requires Settled(s, k) && ConfigMapKey(k) in s.garden.configMaps
    ensures
      var c := ConfigMapKey(k);
      var s' := Next(p, s, RemoveConfigMap(c));
      && (Settled(s', k) <==> !WellOwned(c, s.garden.configMaps[c]))
      && s'.garden == s.garden.(configMaps := s.garden.configMaps - {c})
      && s'.inbox[QuotaEvent(k.namespace)] == s.inbox[QuotaEvent(k.namespace)]
  {
    ShootNameOfConfigMapKey(k);
    assert OwnerEvents(k.namespace, None) == {};
  }

  /** News about quotas reaches a shoot that waits for it exactly when the lists of the handler succeed; otherwise the
      shoot waits rightly exactly when more news is on its way or a quota refuses anyway. */
  lemma FailingListLosesWakeUpExactly(p: Platform, s: State, k: Key, listed: bool)
    requires !Pending(s, k) && k !in s.workers
    requires k in s.garden.shoots && k in s.garden.states && s.garden.shoots[k].addresses != []
    requires ConfigMapKey(k) !in s.garden.configMaps
    requires QuotaEvent(k.namespace) in s.inbox
    ensures
      var s' := Next(p, s, Deliver(QuotaEvent(k.namespace), listed));
      && (Pending(s', k) <==> listed)
      && (Settled(s', k) <==> !listed && s.inbox[QuotaEvent(k.namespace)] == 1)
      && (Correct(p, k, ViewOf(s', k)) <==>
          s.inbox[QuotaEvent(k.namespace)] > 1 || SomeRefuses(s.garden, k.namespace))
  {
    if listed {
      assert k in Awakened(s.garden, k.namespace);
    }
  }

  /** After a dropped update of a quota that refuses, some quota of its namespace refuses exactly when it still
      constrains ConfigMaps or another one refuses as well. */
  lemma RefusalAfterSpecChange(g: Garden, n: Key, quota: ResourceQuota)
    requires n in g.quotas && VerdictOf(g.quotas[n]) == Insufficient && !UpdatePasses(g.quotas[n], quota)
    ensures SomeRefuses(g.(quotas := g.quotas[n := quota]), n.namespace) <==>
            CONFIG_MAP_COUNT in quota.specHard || AnotherRefuses(g, n)
  {
    var g' := g.(quotas := g.quotas[n := quota]);
    LossyQuotaUpdateExactly(g.quotas[n], quota);
    assert forall m | m in g.quotas && m != n :: m in g'.quotas && g'.quotas[m] == g.quotas[m];
    assert n in g'.quotas && g'.quotas[n] == quota;
  }

  /** A dropped update of a quota that refuses a waiting shoot leaves it waiting rightly exactly in these cases. */
  lemma SpecChangeIsHarmlessExactly(p: Platform, s: State, k: Key, n: Key, quota: ResourceQuota)
    requires Settled(s, k)
    requires k in s.garden.shoots && k in s.garden.states && s.garden.shoots[k].addresses != []
    requires ConfigMapKey(k) !in s.garden.configMaps
    requires n in s.garden.quotas && n.namespace == k.namespace && VerdictOf(s.garden.quotas[n]) == Insufficient
    requires !UpdatePasses(s.garden.quotas[n], quota)
    ensures
      var s' := Next(p, s, PutQuota(n, quota));
      && Settled(s', k)
      && (Correct(p, k, ViewOf(s', k)) <==> CONFIG_MAP_COUNT in quota.specHard || AnotherRefuses(s.garden, n))
  {
    RefusalAfterSpecChange(s.garden, n, quota);
  }

  lemma GateAfterSpecChange(g: Garden, n: Key, quota: ResourceQuota, names: seq<Key>)
    requires n in g.quotas && VerdictOf(g.quotas[n]) == Insufficient && !UpdatePasses(g.quotas[n], quota)
    requires forall m | m in g.quotas && m != n && m.namespace == n.namespace :: !Denies(g.quotas[m])
    requires IsListing(g, n.namespace, names)
    ensures
      var g' := g.(quotas := g.quotas[n := quota]);
      && IsListing(g', n.namespace, names)
      && Gate(QuotasOf(g, names)) == Insufficient
      && (Gate(QuotasOf(g', names)) == Sufficient <==> CONFIG_MAP_COUNT !in quota.specHard)
  {
    var g' := g.(quotas := g.quotas[n := quota]);
    assert forall m | m in g.quotas && m != n :: g'.quotas[m] == g.quotas[m];
    assert Denies(g.quotas[n]) && g'.quotas[n] == quota;
    GateOfListing(g, n.namespace, names);
    GateDecidedByFirst(QuotasOf(g, names));
    GateOfListing(g', n.namespace, names);
  }

  /** If only that quota was in the way, a reconcile was refused before and succeeds after the update that wakes
      nobody exactly when the constraint is gone. */
  lemma SpecChangeOpensGateExactly(p: Platform, g: Garden, k: Key, n: Key, quota: ResourceQuota, names: seq<Key>)
    requires n in g.quotas && n.namespace == k.namespace && VerdictOf(g.quotas[n]) == Insufficient
    requires !UpdatePasses(g.quotas[n], quota)
    requires forall m | m in g.quotas && m != n && m.namespace == k.namespace :: !Denies(g.quotas[m])
    requires k in g.shoots && k in g.states && Desired(p, k, g.shoots[k], g.states[k]).Some?
    requires ConfigMapKey(k) !in g.configMaps
    requires IsListing(g, k.namespace, names)
    ensures
      var g' := g.(quotas := g.quotas[n := quota]);
      && IsListing(g', k.namespace, names)
      && HandleRequest(p, g, k, names) == (g, QuotaExceeded)
      && (HandleRequest(p, g', k, names).1 == Success <==> CONFIG_MAP_COUNT !in quota.specHard)
  {
    GateAfterSpecChange(g, n, quota, names);
  }
}
