// One reconcile of a shoot: as the atomic steps it takes on the API objects, and as what it amounts
// to when nothing happens in between.
module Handling {
  import opened Objects
  import opened Quota
  import opened Rendering

  /** The API objects of the garden cluster that the controller looks at. */
  datatype Garden = Garden(
    shoots: map<Key, Shoot>,
    states: map<Key, ShootState>,
    configMaps: map<Key, ConfigMap>,
    quotas: map<Key, ResourceQuota>)

  function ConfigMapKey(k: Key): Key {
    Key(k.namespace, k.name + KUBECONFIG_SUFFIX)
  }

  /** Two shoots never share a ConfigMap. */
  lemma ConfigMapKeyInjective(a: Key, b: Key)
    requires ConfigMapKey(a) == ConfigMapKey(b)
    ensures a == b
  {
    SuffixInjective(a.name, b.name, KUBECONFIG_SUFFIX);
  }

  /** The names of the quotas of a namespace, in some order. */
  ghost predicate IsListing(g: Garden, namespace: string, names: seq<Key>) {
    && (forall n <- names :: n in g.quotas && n.namespace == namespace)
    && (forall n | n in g.quotas && n.namespace == namespace :: n in names)
    && (forall i, j | 0 <= i < j < |names| :: names[i] != names[j])
  }

  function QuotasOf(g: Garden, names: seq<Key>): seq<ResourceQuota>
    requires forall n <- names :: n in g.quotas
  {
    seq(|names|, i requires 0 <= i < |names| => assert names[i] in names; g.quotas[names[i]])
  }

  datatype Outcome = Success | Failed | QuotaExceeded | AwaitingAddresses

  /** Where a reconcile is, with the copies of the objects it has read so far. */
  datatype Phase =
    | ReadShoot
    | ReadConfigMap(shoot: Shoot)
    | ListQuotas(shoot: Shoot)
    | ReadState(shoot: Shoot, base: ConfigMap)
    | Write(shoot: Shoot, base: ConfigMap, kubeconfig: string)
    | Delete
    | Done(outcome: Outcome)

  const BLANK := ConfigMap(map[], map[], None)

  /** After the ShootState has been read nothing else is read that can change. */
  function WithState(p: Platform, k: Key, shoot: Shoot, base: ConfigMap, state: ShootState): Phase {
    if shoot.addresses == [] then Done(AwaitingAddresses)
    else
      match Desired(p, k, shoot, state)
      case None => Done(Failed)
      case Some(kubeconfig) => Write(shoot, base, kubeconfig)
  }

  /** The next atomic step of the reconcile of k. Each one reads or writes one kind of object. */
  function Advance(p: Platform, g: Garden, k: Key, phase: Phase, names: seq<Key>): (r: (Phase, Garden))
    requires phase.ListQuotas? ==> forall n <- names :: n in g.quotas
    ensures r.1 == g.(configMaps := r.1.configMaps)
    ensures forall c | c != ConfigMapKey(k) :: Find(r.1.configMaps, c) == Find(g.configMaps, c)
    ensures !phase.Done? ==> Rank(r.0) < Rank(phase)
  {
    var c := ConfigMapKey(k);
    match phase
    case ReadShoot =>
      (if k in g.shoots then ReadConfigMap(g.shoots[k]) else Delete, g)
    case ReadConfigMap(shoot) =>
      (if c in g.configMaps then ReadState(shoot, g.configMaps[c]) else ListQuotas(shoot), g)
    case ListQuotas(shoot) =>
      (match Gate(QuotasOf(g, names))
       case Sufficient => ReadState(shoot, BLANK)
       case Insufficient => Done(QuotaExceeded)
       case StatusMissing => Done(Failed),
       g)
    case ReadState(shoot, base) =>
      (if k in g.states then WithState(p, k, shoot, base, g.states[k]) else Delete, g)
    case Write(shoot, base, kubeconfig) =>
      var existing := if c in g.configMaps then g.configMaps[c] else base;
      (Done(Success), g.(configMaps := g.configMaps[c := Mutate(existing, k, shoot, kubeconfig)]))
    case Delete =>
      (Done(Success), g.(configMaps := g.configMaps - {c}))
    case Done(_) => (phase, g)
  }

  /** How many more steps a reconcile may take. */
  function Rank(phase: Phase): nat {
    match phase
    case ReadShoot => 6
    case ReadConfigMap(_) => 5
    case ListQuotas(_) => 4
    case ReadState(_, _) => 3
    case Write(_, _, _) => 2
    case Delete => 2
    case Done(_) => 1
  }

  /** Taking steps until the reconcile is done. */
  ghost function RunAlone(p: Platform, g: Garden, k: Key, phase: Phase, names: seq<Key>): (Garden, Outcome)
    requires forall n <- names :: n in g.quotas
    decreases Rank(phase)
  {
    if phase.Done? then (g, phase.outcome) else
    var (phase', g') := Advance(p, g, k, phase, names);
    RunAlone(p, g', k, phase', names)
  }

  /** What a reconcile amounts to when it runs alone. Only the shoot's own ConfigMap is ever touched, and
      an update of it keeps every other label and data entry. */
  function HandleRequest(p: Platform, g: Garden, k: Key, names: seq<Key>): (r: (Garden, Outcome))
    requires forall n <- names :: n in g.quotas
    ensures
      var c, configMaps := ConfigMapKey(k), r.0.configMaps;
      && r.0 == g.(configMaps := configMaps)
      && (forall d | d != c :: Find(configMaps, d) == Find(g.configMaps, d))
      && (r.1 != Success ==> r.0 == g)
      && (r.1 == Success ==>
            && (c in configMaps <==> k in g.shoots && k in g.states)
            && (c in configMaps ==>
                  && Desired(p, k, g.shoots[k], g.states[k]).Some?
                  && InSync(configMaps[c], Desired(p, k, g.shoots[k], g.states[k]).value)))
      && (c in g.configMaps && c in configMaps ==>
            && (forall n | n != ROLE_LABEL :: Find(configMaps[c].labels, n) == Find(g.configMaps[c].labels, n))
            && (forall n | n != KUBECONFIG_DATA :: Find(configMaps[c].data, n) == Find(g.configMaps[c].data, n)))
  {
    var c := ConfigMapKey(k);
    var verdict := if c in g.configMaps then Sufficient else Gate(QuotasOf(g, names));
    if k !in g.shoots then (g.(configMaps := g.configMaps - {c}), Success)
    else if verdict == Insufficient then (g, QuotaExceeded)
    else if verdict == StatusMissing then (g, Failed)
    else if k !in g.states then (g.(configMaps := g.configMaps - {c}), Success)
    else if g.shoots[k].addresses == [] then (g, AwaitingAddresses)
    else
      match Desired(p, k, g.shoots[k], g.states[k])
      case None => (g, Failed)
      case Some(kubeconfig) =>
        var existing := if c in g.configMaps then g.configMaps[c] else BLANK;
        (g.(configMaps := g.configMaps[c := Mutate(existing, k, g.shoots[k], kubeconfig)]), Success)
  }

  lemma RunFromState(p: Platform, g: Garden, k: Key, shoot: Shoot, base: ConfigMap, names: seq<Key>)
    requires forall n <- names :: n in g.quotas
    ensures
      var c := ConfigMapKey(k);
      RunAlone(p, g, k, ReadState(shoot, base), names) ==
      if k !in g.states then (g.(configMaps := g.configMaps - {c}), Success)
      else
        match WithState(p, k, shoot, base, g.states[k])
        case Write(shoot, base, kubeconfig) =>
          var existing := if c in g.configMaps then g.configMaps[c] else base;
          (g.(configMaps := g.configMaps[c := Mutate(existing, k, shoot, kubeconfig)]), Success)
        case Done(outcome) => (g, outcome)
        case _ => (g, Failed)
  {
    var (phase', g') := Advance(p, g, k, ReadState(shoot, base), names);
    var (phase'', g'') := Advance(p, g', k, phase', names);
    assert RunAlone(p, g', k, phase', names)
        == if phase'.Done? then (g', phase'.outcome) else RunAlone(p, g'', k, phase'', names);
  }

  /** The steps of an uninterrupted reconcile add up to HandleRequest. */
  lemma StepsAddUp(p: Platform, g: Garden, k: Key, names: seq<Key>)
    requires forall n <- names :: n in g.quotas
    ensures RunAlone(p, g, k, ReadShoot, names) == HandleRequest(p, g, k, names)
  {
    var (first, _) := Advance(p, g, k, ReadShoot, names);
    if k in g.shoots {
      var shoot := g.shoots[k];
      var (second, _) := Advance(p, g, k, first, names);
      assert RunAlone(p, g, k, ReadShoot, names) == RunAlone(p, g, k, second, names);
      if second.ListQuotas? {
        var (third, _) := Advance(p, g, k, second, names);
        assert RunAlone(p, g, k, second, names) == RunAlone(p, g, k, third, names);
        RunFromState(p, g, k, shoot, BLANK, names);
      } else {
        RunFromState(p, g, k, shoot, second.base, names);
      }
    } else {
      var (second, g') := Advance(p, g, k, first, names);
      assert RunAlone(p, g, k, ReadShoot, names) == RunAlone(p, g', k, second, names);
    }
  }

  /** A listing holds exactly the quotas of the namespace. */
  lemma ListedQuotas(g: Garden, namespace: string, names: seq<Key>, q: ResourceQuota)
    requires IsListing(g, namespace, names)
    ensures q in QuotasOf(g, names) <==> exists n :: n in g.quotas && n.namespace == namespace && g.quotas[n] == q
  {
    if q in QuotasOf(g, names) {
      var i :| 0 <= i < |names| && QuotasOf(g, names)[i] == q;
      assert names[i] in names;
    }
    if n :| n in g.quotas && n.namespace == namespace && g.quotas[n] == q {
      var i :| 0 <= i < |names| && names[i] == n;
      assert QuotasOf(g, names)[i] == q;
    }
  }

  /** Whatever the order of the list, the gate is open exactly when no quota of the namespace stands in the way. */
  lemma GateOfListing(g: Garden, namespace: string, names: seq<Key>)
    requires IsListing(g, namespace, names)
    ensures Gate(QuotasOf(g, names)) == Sufficient <==>
            forall m | m in g.quotas && m.namespace == namespace :: !Denies(g.quotas[m])
  {
    var quotas := QuotasOf(g, names);
    GateDecidedByFirst(quotas);
    forall m | m in g.quotas && m.namespace == namespace ensures g.quotas[m] in quotas {
      ListedQuotas(g, namespace, names, g.quotas[m]);
    }
    forall q | q in quotas ensures exists m :: m in g.quotas && m.namespace == namespace && g.quotas[m] == q {
      ListedQuotas(g, namespace, names, q);
    }
  }

  /** How a request ends. */
  lemma HandleRequestEndsExactly(p: Platform, g: Garden, k: Key, names: seq<Key>)
    requires forall n <- names :: n in g.quotas
    ensures
      var outcome := HandleRequest(p, g, k, names).1;
      var present := Key(k.namespace, k.name + ".kubeconfig") in g.configMaps;
      var gate := Gate(QuotasOf(g, names));
      var admitted := k in g.shoots && (present || gate == Sufficient);
      && (outcome == QuotaExceeded <==> k in g.shoots && !present && gate == Insufficient)
      && (outcome == AwaitingAddresses <==> admitted && k in g.states && g.shoots[k].addresses == [])
      && (outcome == Success <==>
          || k !in g.shoots
          || (admitted && (k in g.states ==> Renderable(p, k, g.shoots[k], g.states[k]))))
      && (outcome == Failed <==>
          || (k in g.shoots && !present && gate == StatusMissing)
          || (admitted && k in g.states && g.shoots[k].addresses != []
              && !Renderable(p, k, g.shoots[k], g.states[k])))
  {
    if k in g.shoots && k in g.states {
      RenderableExactly(p, k, g.shoots[k], g.states[k]);
    }
  }

  /** A request that succeeds where there is a Shoot and a ShootState leaves a ConfigMap that gives access to the shoot,
      and that belongs to it. */
  lemma HandleRequestGivesAccess(p: Platform, g: Garden, k: Key, names: seq<Key>)
    requires forall n <- names :: n in g.quotas
    requires k in g.shoots && k in g.states
    requires HandleRequest(p, g, k, names).1 == Success
    ensures
      var c, configMaps := Key(k.namespace, k.name + ".kubeconfig"), HandleRequest(p, g, k, names).0.configMaps;
      && c in configMaps
      && "kubeconfig" in configMaps[c].data
      && configMaps[c].owner == Some(OwnerRef(k.name, g.shoots[k].uid))
      && GivesAccess(p, k, g.shoots[k], g.states[k], configMaps[c])
  {
    var configMaps := HandleRequest(p, g, k, names).0.configMaps;
    InSyncGivesAccess(p, k, g.shoots[k], g.states[k], configMaps[ConfigMapKey(k)]);
  }

  /** What the last step of a reconcile writes, whatever has happened since it read the objects: the labels and data it
      finds, or if the ConfigMap has disappeared those it has read, with its own entries put in their place. */
  lemma WriteKeepsTheRest(p: Platform, g: Garden, k: Key, shoot: Shoot, base: ConfigMap, kubeconfig: string)
    ensures
      var c := Key(k.namespace, k.name + ".kubeconfig");
      var (phase, g') := Advance(p, g, k, Write(shoot, base, kubeconfig), []);
      var existing := Find(g.configMaps, c).GetOr(base);
      && phase == Done(Success) && c in g'.configMaps
      && Find(g'.configMaps[c].labels, "operations.gardener.cloud/role") == Some("kubeconfig")
      && Find(g'.configMaps[c].data, "kubeconfig") == Some(kubeconfig)
      && g'.configMaps[c].owner == Some(OwnerRef(k.name, shoot.uid))
      && (forall n | n != "operations.gardener.cloud/role" ::
            Find(g'.configMaps[c].labels, n) == Find(existing.labels, n))
      && (forall n | n != "kubeconfig" :: Find(g'.configMaps[c].data, n) == Find(existing.data, n))
  {
    MutateKeepsTheRest(Find(g.configMaps, ConfigMapKey(k)).GetOr(base), k, shoot, kubeconfig);
  }

  // Handling a request again

  lemma ListingsHaveSameMembers(g: Garden, namespace: string, names: seq<Key>, names': seq<Key>)
    requires IsListing(g, namespace, names) && IsListing(g, namespace, names')
    ensures SameMembers(QuotasOf(g, names), QuotasOf(g, names'))
  {
    forall q ensures q in QuotasOf(g, names) <==> q in QuotasOf(g, names') {
      ListedQuotas(g, namespace, names, q);
      ListedQuotas(g, namespace, names', q);
    }
  }

  lemma GatesOpenTogether(g: Garden, namespace: string, names: seq<Key>, names': seq<Key>)
    requires IsListing(g, namespace, names) && IsListing(g, namespace, names')
    ensures Gate(QuotasOf(g, names)) == Sufficient <==> Gate(QuotasOf(g, names')) == Sufficient
  {
    ListingsHaveSameMembers(g, namespace, names, names');
    GateIgnoresOrder(QuotasOf(g, names), QuotasOf(g, names'));
  }

  /** Writing the same kubeconfig again changes nothing. */
  lemma WrittenAgain(configMaps: map<Key, ConfigMap>, c: Key, cm: ConfigMap, k: Key, shoot: Shoot, kubeconfig: string)
    ensures
      var configMaps' := configMaps[c := Mutate(cm, k, shoot, kubeconfig)];
      configMaps'[c := Mutate(configMaps'[c], k, shoot, kubeconfig)] == configMaps'
  {
    MutateKeepsTheRest(cm, k, shoot, kubeconfig);
  }

  /** Handling a request again changes nothing, in whatever order the quotas are listed. */
  lemma HandleRequestIdempotent(p: Platform, g: Garden, k: Key, names: seq<Key>, names': seq<Key>)
    requires IsListing(g, k.namespace, names) && IsListing(g, k.namespace, names')
    ensures
      var g' := HandleRequest(p, g, k, names).0;
      HandleRequest(p, g', k, names').0 == g'
  {
    var c := ConfigMapKey(k);
    var (g', outcome) := HandleRequest(p, g, k, names);
    GatesOpenTogether(g, k.namespace, names, names');
    assert QuotasOf(g', names') == QuotasOf(g, names');
    if c !in g'.configMaps {
      assert g'.configMaps - {c} == g'.configMaps;
    } else if outcome == Success {
      var existing := if c in g.configMaps then g.configMaps[c] else BLANK;
      WrittenAgain(g.configMaps, c, existing, k, g.shoots[k], Desired(p, k, g.shoots[k], g.states[k]).value);
    }
  }

  /** It ends in the same way exactly when the gate is not asked for another answer: there is no shoot, or a ConfigMap
      that stays, or one that was just deleted where the gate is open, or none and the gate answers as before. */
  lemma HandleRequestRepeatsExactly(p: Platform, g: Garden, k: Key, names: seq<Key>, names': seq<Key>)
    requires IsListing(g, k.namespace, names) && IsListing(g, k.namespace, names')
    ensures
      var (g', outcome) := HandleRequest(p, g, k, names);
      var gate, gate' := Gate(QuotasOf(g, names)), Gate(QuotasOf(g, names'));
      HandleRequest(p, g', k, names').1 == outcome <==>
      || k !in g.shoots
      || (if ConfigMapKey(k) in g.configMaps then k in g.states || gate' == Sufficient else gate' == gate)
  {
    var g' := HandleRequest(p, g, k, names).0;
    GatesOpenTogether(g, k.namespace, names, names');
    assert QuotasOf(g', names') == QuotasOf(g, names');
  }

  ghost predicate SomeAnswers(g: Garden, namespace: string, verdict: Verdict) {
    exists n :: n in g.quotas && n.namespace == namespace && VerdictOf(g.quotas[n]) == verdict
  }

  lemma ListingAnswers(g: Garden, namespace: string, names: seq<Key>, verdict: Verdict)
    requires IsListing(g, namespace, names)
    ensures SomeVerdict(QuotasOf(g, names), verdict) <==> SomeAnswers(g, namespace, verdict)
  {
    var quotas := QuotasOf(g, names);
    if q :| q in quotas && VerdictOf(q) == verdict {
      ListedQuotas(g, namespace, names, q);
    }
    if n :| n in g.quotas && n.namespace == namespace && VerdictOf(g.quotas[n]) == verdict {
      ListedQuotas(g, namespace, names, g.quotas[n]);
    }
  }

  /** The same names, with one of them in front. */
  function InFront(names: seq<Key>, i: nat): seq<Key>
    requires i < |names|
  {
    names[0 := names[i]][i := names[0]]
  }

  lemma InFrontHasSameMembers(names: seq<Key>, i: nat)
    requires i < |names|
    ensures forall n :: n in InFront(names, i) <==> n in names
  {
    var moved := InFront(names, i);
    assert moved[0] == names[i] && moved[i] == names[0];
    forall n | n in names ensures n in moved {
      var j :| 0 <= j < |names| && names[j] == n;
      assert j == 0 || j == i || moved[j] == n;
    }
  }

  lemma InFrontOfListing(g: Garden, namespace: string, names: seq<Key>, i: nat)
    requires IsListing(g, namespace, names) && i < |names|
    ensures IsListing(g, namespace, InFront(names, i))
  {
    InFrontHasSameMembers(names, i);
  }

  /** A listing in which a quota in the way comes first. */
  lemma ListingWithAnswer(g: Garden, namespace: string, names: seq<Key>, verdict: Verdict) returns (names': seq<Key>)
    requires IsListing(g, namespace, names)
    requires verdict != Sufficient && SomeAnswers(g, namespace, verdict)
    ensures IsListing(g, namespace, names') && Gate(QuotasOf(g, names')) == verdict
  {
    var n :| n in g.quotas && n.namespace == namespace && VerdictOf(g.quotas[n]) == verdict;
    var i :| 0 <= i < |names| && names[i] == n;
    names' := InFront(names, i);
    InFrontOfListing(g, namespace, names, i);
    assert QuotasOf(g, names')[0] == g.quotas[n];
  }

  /** It ends in the same way in every order of the list exactly when these conditions on the quotas hold. */
  lemma HandleRequestRepeatsInEveryOrder(p: Platform, g: Garden, k: Key, names: seq<Key>)
    requires IsListing(g, k.namespace, names)
    ensures
      var (g', outcome) := HandleRequest(p, g, k, names);
      var refused, failed := SomeAnswers(g, k.namespace, Insufficient), SomeAnswers(g, k.namespace, StatusMissing);
      (forall names' | IsListing(g, k.namespace, names') :: HandleRequest(p, g', k, names').1 == outcome) <==>
      || k !in g.shoots
      || (if ConfigMapKey(k) in g.configMaps then k in g.states || (!refused && !failed) else !refused || !failed)
  {
    var (g', outcome) := HandleRequest(p, g, k, names);
    var quotas := QuotasOf(g, names);
    ListingAnswers(g, k.namespace, names, Insufficient);
    ListingAnswers(g, k.namespace, names, StatusMissing);
    forall names' | IsListing(g, k.namespace, names') && !Ambiguous(quotas)
      ensures Gate(QuotasOf(g, names')) == Gate(quotas)
    {
      ListingsHaveSameMembers(g, k.namespace, names', names);
      UnambiguousGate(QuotasOf(g, names'), quotas);
    }
    forall names' | IsListing(g, k.namespace, names')
      ensures HandleRequest(p, g', k, names').1 == outcome <==>
              || k !in g.shoots
              || (if ConfigMapKey(k) in g.configMaps then k in g.states || Gate(QuotasOf(g, names')) == Sufficient
                  else Gate(QuotasOf(g, names')) == Gate(quotas))
    {
      HandleRequestRepeatsExactly(p, g, k, names, names');
    }
    GateDecidedByFirst(quotas);
    if SomeAnswers(g, k.namespace, Insufficient) {
      var names' := ListingWithAnswer(g, k.namespace, names, Insufficient);
    }
    if SomeAnswers(g, k.namespace, StatusMissing) {
      var names' := ListingWithAnswer(g, k.namespace, names, StatusMissing);
    }
  }
}
