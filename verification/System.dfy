// The controller as a transition system: other actors change API objects, informers hand events to
// handlers, handlers fill the work queue, and workers reconcile keys in atomic steps, all interleaved.
//
// The work queue is that of controller-runtime: a key is reconciled by one worker at a time, a key
// added while it is being reconciled runs again afterwards, and an error or a requested delay leaves
// the key waiting for a timer.
module System {
  import opened Objects
  import opened Limiter
  import opened Quota
  import opened Rendering
  import opened Handling
  import opened QuotaWatch

  /** An event that passed its filter and has not been handled yet. */
  datatype Event = ShootEvent(key: Key) | QuotaEvent(namespace: string)

  datatype State = State(
    garden: Garden,
    inbox: multiset<Event>,
    queue: set<Key>,            // waiting for a worker
    retries: set<Key>,          // waiting for a short timer: after an error or a rejection
    delays: set<Key>,           // waiting for a long timer: quota exceeded or no addresses
    workers: map<Key, Phase>,   // admitted and not yet finished
    counts: map<string, int>,
    limit: int,                 // maximum of concurrent reconciles per namespace
    last: map<Key, Outcome>)    // history: how the latest reconcile of a key ended

  datatype Action =
    // other actors
    | PutShoot(key: Key, shoot: Shoot)
    | RemoveShoot(key: Key)
    | PutState(key: Key, state: ShootState)
    | RemoveState(key: Key)
    | PutConfigMap(key: Key, configMap: ConfigMap)
    | RemoveConfigMap(key: Key)
    | PutQuota(key: Key, quota: ResourceQuota)
    | RemoveQuota(key: Key)
    | InjectConfig(limit: int)
    // informers and timers; listed tells whether the lists of the quota handler succeed
    | Deliver(event: Event, listed: bool)
    | Retry(key: Key)
    | Elapse(key: Key)
    // workers
    | Admit(key: Key)
    | Reject(key: Key)
    | Proceed(key: Key, names: seq<Key>)
    | Fail(key: Key, applied: bool)  // an API call fails, its effect lost or applied
    | Finish(key: Key)

  // Events and their filters

  function ShootEvents(k: Key, old': Option<Shoot>, new': Shoot): multiset<Event> {
    if old'.Some? && !ShootUpdatePasses(old'.value, new') then multiset{} else multiset{ShootEvent(k)}
  }

  function StateEvents(k: Key, old': Option<ShootState>, new': ShootState): multiset<Event> {
    if old'.Some? && !ShootStateUpdatePasses(old'.value, new') then multiset{} else multiset{ShootEvent(k)}
  }

  function QuotaEvents(namespace: string, old': Option<ResourceQuota>, new': ResourceQuota): multiset<Event> {
    if old'.Some? && !UpdatePasses(old'.value, new') then multiset{} else multiset{QuotaEvent(namespace)}
  }

  /** The event for the owner of a ConfigMap. */
  function OwnerEvents(namespace: string, cm: Option<ConfigMap>): set<Event> {
    if cm.Some? && cm.value.owner.Some? then {ShootEvent(Key(namespace, cm.value.owner.value.name))} else {}
  }

  function ConfigMapEvents(namespace: string, old': Option<ConfigMap>, new': Option<ConfigMap>): multiset<Event> {
    if old'.Some? && new'.Some? && !ConfigMapUpdatePasses(old'.value, new'.value) then multiset{}
    else multiset(OwnerEvents(namespace, old') + OwnerEvents(namespace, new'))
  }

  /** Replacing the ConfigMaps, one of which may have changed, and raising the event for it. */
  function WithConfigMaps(s: State, c: Key, configMaps: map<Key, ConfigMap>): State {
    s.(garden := s.garden.(configMaps := configMaps),
       inbox := s.inbox + ConfigMapEvents(c.namespace, Find(s.garden.configMaps, c), Find(configMaps, c)))
  }

  // Steps

  ghost predicate CanStart(p: Platform, s: State, k: Key) {
    k in s.queue && k !in s.workers && |s.workers| < p.maxConcurrentReconciles
  }

  ghost predicate Enabled(p: Platform, s: State, a: Action) {
    match a
    case PutShoot(_, _) => true
    case RemoveShoot(k) => k in s.garden.shoots
    case PutState(_, _) => true
    case RemoveState(k) => k in s.garden.states
    case PutConfigMap(_, _) => true
    case RemoveConfigMap(c) => c in s.garden.configMaps
    case PutQuota(_, _) => true
    case RemoveQuota(n) => n in s.garden.quotas
    case InjectConfig(_) => true
    case Deliver(e, _) => e in s.inbox
    case Retry(k) => k in s.retries
    case Elapse(k) => k in s.delays
    case Admit(k) => CanStart(p, s, k) && CountOf(s.counts, k.namespace) < s.limit
    case Reject(k) => CanStart(p, s, k) && CountOf(s.counts, k.namespace) >= s.limit
    case Proceed(k, names) => k in s.workers && !s.workers[k].Done? && IsListing(s.garden, k.namespace, names)
    case Fail(k, _) => k in s.workers && !s.workers[k].Done?
    case Finish(k) => k in s.workers && s.workers[k].Done?
  }

  /** The release of a counter that has no entry. */
  predicate Panics(s: State, a: Action) {
    a.Finish? && a.key.namespace !in s.counts
  }

  function AfterFinish(s: State, k: Key, outcome: Outcome): State {
    s.(workers := s.workers - {k},
       counts := if k.namespace in s.counts then Decreased(s.counts, k.namespace) else s.counts,
       retries := if outcome == Failed then s.retries + {k} else s.retries,
       delays := if outcome == QuotaExceeded || outcome == AwaitingAddresses then s.delays + {k} else s.delays,
       last := s.last[k := outcome])
  }

  ghost function Next(p: Platform, s: State, a: Action): State
    requires Enabled(p, s, a)
  {
    var g := s.garden;
    match a
    case PutShoot(k, shoot) =>
      s.(garden := g.(shoots := g.shoots[k := shoot]),
         inbox := s.inbox + ShootEvents(k, Find(g.shoots, k), shoot))
    case RemoveShoot(k) =>
      s.(garden := g.(shoots := g.shoots - {k}), inbox := s.inbox + multiset{ShootEvent(k)})
    case PutState(k, state) =>
      s.(garden := g.(states := g.states[k := state]),
         inbox := s.inbox + StateEvents(k, Find(g.states, k), state))
    case RemoveState(k) =>
      s.(garden := g.(states := g.states - {k}), inbox := s.inbox + multiset{ShootEvent(k)})
    case PutConfigMap(c, cm) => WithConfigMaps(s, c, g.configMaps[c := cm])
    case RemoveConfigMap(c) => WithConfigMaps(s, c, g.configMaps - {c})
    case PutQuota(n, quota) =>
      s.(garden := g.(quotas := g.quotas[n := quota]),
         inbox := s.inbox + QuotaEvents(n.namespace, Find(g.quotas, n), quota))
    case RemoveQuota(n) =>
      s.(garden := g.(quotas := g.quotas - {n}), inbox := s.inbox + multiset{QuotaEvent(n.namespace)})
    case InjectConfig(limit) => s.(limit := limit)
    case Deliver(e, listed) =>
      s.(inbox := s.inbox - multiset{e},
         queue := s.queue + (match e
                             case ShootEvent(k) => {k}
                             case QuotaEvent(namespace) => if listed then Awakened(g, namespace) else {}))
    case Retry(k) => s.(retries := s.retries - {k}, queue := s.queue + {k})
    case Elapse(k) => s.(delays := s.delays - {k}, queue := s.queue + {k})
    case Admit(k) =>
      s.(queue := s.queue - {k}, workers := s.workers[k := ReadShoot], counts := Increased(s.counts, k.namespace))
    case Reject(k) => s.(queue := s.queue - {k}, retries := s.retries + {k})
    case Proceed(k, names) =>
      var (phase, g') := Advance(p, g, k, s.workers[k], names);
      WithConfigMaps(s, ConfigMapKey(k), g'.configMaps).(workers := s.workers[k := phase])
    case Fail(k, applied) =>
      var g' := if applied then Advance(p, g, k, s.workers[k], []).1 else g;
      WithConfigMaps(s, ConfigMapKey(k), g'.configMaps).(workers := s.workers[k := Done(Failed)])
    case Finish(k) => AfterFinish(s, k, s.workers[k].outcome)
  }

  /** No reconcile in flight moves unless a worker takes a step. */
  lemma OnlyWorkersMove(p: Platform, s: State, a: Action)
    requires Enabled(p, s, a) && !a.Admit? && !a.Proceed? && !a.Fail? && !a.Finish?
    ensures Next(p, s, a).workers == s.workers
  {
    match a
    case PutShoot(_, _) =>
    case RemoveShoot(_) =>
    case PutState(_, _) =>
    case RemoveState(_) =>
    case PutConfigMap(_, _) =>
    case RemoveConfigMap(_) =>
    case PutQuota(_, _) =>
    case RemoveQuota(_) =>
    case Deliver(_, _) =>
    case _ =>
  }

  lemma EffectIgnoresQuotas(p: Platform, g: Garden, k: Key, phase: Phase, names: seq<Key>)
    requires phase.ListQuotas? ==> forall n <- names :: n in g.quotas
    ensures Advance(p, g, k, phase, []).1 == Advance(p, g, k, phase, names).1
  {
  }

  lemma LostFailure(p: Platform, s: State, k: Key)
    requires Enabled(p, s, Fail(k, false))
    ensures Next(p, s, Fail(k, false)) == s.(workers := s.workers[k := Done(Failed)])
  {
    var c := ConfigMapKey(k);
    assert ConfigMapEvents(c.namespace, Find(s.garden.configMaps, c), Find(s.garden.configMaps, c)) == multiset{};
    assert s.garden.(configMaps := s.garden.configMaps) == s.garden;
  }

  /** A failing call of a reconcile ends it, with the effect of the step it was to take, events included, or with none;
      the reconcile does not know which. */
  lemma FailureIsAStepOrNothing(p: Platform, s: State, k: Key, names: seq<Key>)
    requires Enabled(p, s, Proceed(k, names))
    ensures Next(p, s, Fail(k, true)) == Next(p, s, Proceed(k, names)).(workers := s.workers[k := Done(Failed)])
    ensures Next(p, s, Fail(k, false)) == s.(workers := s.workers[k := Done(Failed)])
  {
    EffectIgnoresQuotas(p, s.garden, k, s.workers[k], names);
    LostFailure(p, s, k);
  }

  ghost predicate Step(p: Platform, s: State, a: Action, s': State) {
    Enabled(p, s, a) && s' == Next(p, s, a)
  }

  // Runs

  /** Nothing has been reconciled yet, and the informers are about to report every object as created. */
  ghost predicate Init(s: State) {
    && s.queue == {} && s.retries == {} && s.delays == {}
    && s.workers == map[] && s.counts == map[] && s.last == map[]
    && (forall k | k in s.garden.shoots :: ShootEvent(k) in s.inbox)
    && (forall k | k in s.garden.states :: ShootEvent(k) in s.inbox)
    && (forall c, e | c in s.garden.configMaps && e in OwnerEvents(c.namespace, Some(s.garden.configMaps[c])) ::
          e in s.inbox)
  }

  ghost predicate StepAt(p: Platform, states: seq<State>, actions: seq<Action>, i: nat)
    requires i < |actions| < |states|
  {
    Step(p, states[i], actions[i], states[i+1])
  }

  /** States and the actions between them. */
  ghost predicate IsStretch(p: Platform, states: seq<State>, actions: seq<Action>) {
    && |states| == |actions| + 1
    && forall i | 0 <= i < |actions| :: StepAt(p, states, actions, i)
  }

  /** A run begins in an initial state. */
  ghost predicate IsRun(p: Platform, states: seq<State>, actions: seq<Action>) {
    IsStretch(p, states, actions) && Init(states[0])
  }
}
